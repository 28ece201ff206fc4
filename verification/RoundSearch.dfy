/**
 * The round of a price feed in force at a time (sdk/src/settlement.ts): a doubling and binary search for the last round
 * of a phase, and the walk backwards over phases. The feed is what its calls answer: phases numbered from 1, each with
 * contiguous rounds numbered from 1; a round that does not exist reads as `None`.
 */
module RoundSearch {
  import opened Basics

  datatype Round = Round(answer: int, updatedAt: nat)

  /** `feed[p - 1][k - 1]` is round `k` of phase `p`. */
  type Feed = seq<seq<Round>>

  const AGG_LIMIT: nat := 0x1_0000_0000_0000_0000
  const HALF_LIMIT: nat := 0x8000_0000_0000_0000

  function RoundIdOf(phase: nat, agg: nat): nat {
    phase * AGG_LIMIT + agg
  }

  function PhaseOf(id: nat): nat {
    id / AGG_LIMIT
  }

  function AggOf(id: nat): nat {
    id % AGG_LIMIT
  }

  /** An id names one phase and one round of it. */
  lemma {:induction false} RoundIdRoundTrip(phase: nat, agg: nat)
    requires agg < AGG_LIMIT
    ensures PhaseOf(RoundIdOf(phase, agg)) == phase && AggOf(RoundIdOf(phase, agg)) == agg
  {
  }

  function Rounds(feed: Feed, p: int): nat
    requires 1 <= p <= |feed|
  {
    |feed[p - 1]|
  }

  predicate IsRound(feed: Feed, p: int, k: int) {
    1 <= p <= |feed| && 1 <= k <= Rounds(feed, p)
  }

  function RoundAt(feed: Feed, p: int, k: int): Round
    requires IsRound(feed, p, k)
  {
    feed[p - 1][k - 1]
  }

  predicate Before(p: int, k: int, q: int, j: int) {
    p < q || (p == q && k < j)
  }

  /** Update times never go back, within and across phases. */
  ghost predicate Chronological(feed: Feed) {
    forall p, k, q, j {:trigger IsRound(feed, p, k), IsRound(feed, q, j)} ::
      IsRound(feed, p, k) && IsRound(feed, q, j) && Before(p, k, q, j) ==>
        RoundAt(feed, p, k).updatedAt <= RoundAt(feed, q, j).updatedAt
  }

  /** A feed with a latest round, whose rounds all carry a time (a zero time reads as "no such round"). */
  ghost predicate Live(feed: Feed) {
    && Chronological(feed)
    && feed != [] && 0 < Rounds(feed, |feed|)
    && (forall p {:trigger Rounds(feed, p)} :: 1 <= p <= |feed| ==> Rounds(feed, p) < AGG_LIMIT)
    && forall p, k {:trigger IsRound(feed, p, k)} :: IsRound(feed, p, k) ==> 0 < RoundAt(feed, p, k).updatedAt
  }

  /** The last round with `updatedAt <= t`. */
  ghost predicate InForce(feed: Feed, t: int, p: int, k: int) {
    && IsRound(feed, p, k) && RoundAt(feed, p, k).updatedAt <= t
    && forall q, j {:trigger IsRound(feed, q, j)} ::
         IsRound(feed, q, j) && Before(p, k, q, j) ==> t < RoundAt(feed, q, j).updatedAt
  }

  predicate IsLatest(feed: Feed, p: int, k: int)
    requires IsRound(feed, p, k)
  {
    p == |feed| && k == Rounds(feed, p)
  }

  /** The id of the round right after (p, k): the next of its phase, or the first of the next phase. */
  function SuccessorId(feed: Feed, p: int, k: int): nat
    requires IsRound(feed, p, k)
  {
    if k < Rounds(feed, p) then RoundIdOf(p, k + 1) else RoundIdOf(p + 1, 1)
  }

  /** Every phase the walk has to pass has rounds, and fewer than half the id space. */
  ghost predicate Walkable(feed: Feed, phase: int) {
    forall q {:trigger Rounds(feed, q)} :: phase <= q < |feed| && 1 <= q ==> 0 < Rounds(feed, q) < HALF_LIMIT
  }

  // ---------------------------------------------------------------------------------------------------------
  // The last round of a phase
  // ---------------------------------------------------------------------------------------------------------

  function Pow2(k: nat): (r: nat)
    ensures 0 < r
  {
    if k == 0 then 1 else 2 * Pow2(k - 1)
  }

  function Log2(n: nat): nat {
    if n < 2 then 0 else 1 + Log2(n / 2)
  }

  lemma {:induction false} Log2Bounds(n: nat)
    requires 0 < n
    ensures Pow2(Log2(n)) <= n < 2 * Pow2(Log2(n))
  {
    if 2 <= n {
      Log2Bounds(n / 2);
    }
  }

  lemma {:induction false} Pow2Monotone(j: nat, k: nat)
    requires j <= k
    ensures Pow2(j) <= Pow2(k)
    decreases k
  {
    if j < k {
      Pow2Monotone(j, k - 1);
    }
  }

  /** The power of two at or below n is unique. */
  lemma {:induction false} Log2Is(n: nat, k: nat)
    requires Pow2(k) <= n < 2 * Pow2(k)
    ensures Log2(n) == k
  {
    Log2Bounds(n);
    if Log2(n) < k {
      Pow2Monotone(Log2(n) + 1, k);
    } else if k < Log2(n) {
      Pow2Monotone(k + 1, Log2(n));
    }
  }

  method TryRoundAt(feed: Feed, p: nat, k: nat) returns (r: Option<Round>)
    ensures r == if IsRound(feed, p, k) && RoundAt(feed, p, k).updatedAt != 0 then Some(RoundAt(feed, p, k)) else None
  {
    if 1 <= p <= |feed| && 1 <= k <= |feed[p - 1]| && feed[p - 1][k - 1].updatedAt != 0 {
      r := Some(feed[p - 1][k - 1]);
    } else {
      r := None;
    }
  }

  lemma {:induction false} Halved(width: nat, k: nat)
    requires width == Pow2(k) && 1 < width
    ensures 0 < k && width / 2 == Pow2(k - 1) && width == 2 * (width / 2)
  {
  }

  lemma {:induction false} HalfLimitIsPow2(k: nat)
    ensures Pow2(k) < HALF_LIMIT <==> k < 63
    ensures k < 63 ==> 2 * Pow2(k) <= HALF_LIMIT
  {
    assert Pow2(8) == 256;
    assert Pow2(16) == 256 * 256 by { Pow2Adds(8, 8); }
    Pow2Adds(16, 16);
    Pow2Adds(32, 31);
    assert Pow2(31) == 0x8000_0000 by { assert Pow2(32) == 2 * Pow2(31); }
    assert Pow2(63) == HALF_LIMIT;
    if 63 <= k {
      Pow2Monotone(63, k);
    } else {
      Pow2Monotone(k + 1, 63);
    }
  }

  lemma {:induction false} Pow2Adds(j: nat, k: nat)
    ensures Pow2(j + k) == Pow2(j) * Pow2(k)
    decreases k
  {
    if k != 0 {
      Pow2Adds(j, k - 1);
      assert Pow2(j + k) == 2 * (Pow2(j) * Pow2(k - 1));
    }
  }

  /**
   * The number of rounds of a phase, from existence probes alone: 2 * floor(log2 n) + 2 of them. It gives up (`None`)
   * exactly when the phase has 2^63 rounds or more.
   */
  method LastRoundOfPhase(feed: Feed, p: nat) returns (last: Option<nat>, probes: nat)
    requires Live(feed) && 1 <= p <= |feed|
    ensures last == if Rounds(feed, p) < HALF_LIMIT then Some(Rounds(feed, p)) else None
    ensures last.Some? ==> probes == if last.value == 0 then 1 else 2 * Log2(last.value) + 2
  {
    hide Chronological;
    ghost var n := Rounds(feed, p);
    assert forall k: nat {:trigger IsRound(feed, p, k)} :: IsRound(feed, p, k) <==> 1 <= k <= n;
    var first := TryRoundAt(feed, p, 1);
    probes := 1;
    if first.None? {
      assert !IsRound(feed, p, 1);
      return Some(0), probes;
    }
    var lo, hi := 1, 2;
    ghost var k: nat := 0;
    while true
      invariant lo == Pow2(k) <= n && hi == 2 * lo && k <= 62
      invariant probes == 1 + k
      decreases n - lo
    {
      var r := TryRoundAt(feed, p, hi);
      probes := probes + 1;
      assert r.Some? <==> IsRound(feed, p, hi);
      if r.None? {
        break;
      }
      lo := hi;
      hi := hi * 2;
      k := k + 1;
      HalfLimitIsPow2(k);
      if AGG_LIMIT - 1 < hi {
        return None, probes;
      }
    }
    Log2Is(n, k);
    HalfLimitIsPow2(k);
    ghost var j: nat := k;
    while 1 < hi - lo
      invariant 1 <= lo <= n < hi && hi - lo == Pow2(j) && j <= k
      invariant probes == 2 + k + (k - j)
      decreases hi - lo
    {
      Halved(hi - lo, j);
      var mid := (lo + hi) / 2;
      var r := TryRoundAt(feed, p, mid);
      probes := probes + 1;
      assert r.Some? <==> IsRound(feed, p, mid);
      if r.Some? {
        lo := mid;
      } else {
        hi := mid;
      }
      j := j - 1;
    }
    assert j == 0;
    last := Some(lo);
  }

  // ---------------------------------------------------------------------------------------------------------
  // The round in force
  // ---------------------------------------------------------------------------------------------------------

  /** `nextRoundId == 0` marks the feed's latest round. */
  datatype RoundProof = RoundProof(roundId: nat, nextRoundId: nat, answer: int, updatedAt: nat)

  ghost predicate Proves(feed: Feed, t: int, r: RoundProof, p: int, k: int) {
    && InForce(feed, t, p, k)
    && r.roundId == RoundIdOf(p, k)
    && r.nextRoundId == (if IsLatest(feed, p, k) then 0 else SuccessorId(feed, p, k))
    && r.answer == RoundAt(feed, p, k).answer && r.updatedAt == RoundAt(feed, p, k).updatedAt
  }

  /** At most one round is in force. */
  lemma {:induction false} InForceIsUnique(feed: Feed, t: int, p: int, k: int, q: int, j: int)
    requires InForce(feed, t, p, k) && InForce(feed, t, q, j)
    ensures p == q && k == j
  {
    assert !Before(p, k, q, j) && !Before(q, j, p, k);
  }

  /** A round at or before `t` whose immediate successor is after `t` is the one in force. */
  lemma {:induction false} SuccessorAfter(feed: Feed, t: int, p: int, k: int, q: int, j: int)
    requires Live(feed) && IsRound(feed, p, k) && IsRound(feed, q, j)
    requires RoundAt(feed, p, k).updatedAt <= t < RoundAt(feed, q, j).updatedAt
    requires (q == p && j == k + 1) || (q == p + 1 && j == 1 && k == Rounds(feed, p))
    ensures InForce(feed, t, p, k)
  {
    forall a, b | IsRound(feed, a, b) && Before(p, k, a, b) ensures t < RoundAt(feed, a, b).updatedAt {
      assert (a == q && b == j) || Before(q, j, a, b);
    }
  }

  /** Nothing is in force once the first of all rounds is after `t`. */
  lemma {:induction false} NoneInForce(feed: Feed, t: int, p: int, k: int)
    requires Live(feed) && IsRound(feed, 1, 1) && t < RoundAt(feed, 1, 1).updatedAt
    ensures !InForce(feed, t, p, k)
  {
    if IsRound(feed, p, k) {
      assert (p == 1 && k == 1) || Before(1, 1, p, k);
    }
  }

  /** With the first round of a phase after `t`, the round in force is in an earlier phase. */
  lemma {:induction false} InForceIsEarlier(feed: Feed, t: int, phase: int, p: int, k: int)
    requires Live(feed) && IsRound(feed, phase, 1) && t < RoundAt(feed, phase, 1).updatedAt && InForce(feed, t, p, k)
    ensures p < phase
  {
  }

  ghost predicate Findable(feed: Feed, t: int) {
    exists p, k {:trigger InForce(feed, t, p, k)} :: InForce(feed, t, p, k) && Walkable(feed, p)
  }

  lemma {:induction false} BlockedPhase(feed: Feed, t: int, phase: int)
    requires Live(feed) && IsRound(feed, phase, 1) && t < RoundAt(feed, phase, 1).updatedAt && 1 < phase
    requires Rounds(feed, phase - 1) == 0 || HALF_LIMIT <= Rounds(feed, phase - 1)
    ensures !Findable(feed, t)
  {
    forall p, k | InForce(feed, t, p, k) ensures !Walkable(feed, p) {
      InForceIsEarlier(feed, t, phase, p, k);
    }
  }

  /**
   * The round in force at `t` with its immediate successor. It fails (`None`) exactly when no round is in force, or
   * when a phase on the way back to it is empty or holds 2^63 rounds or more.
   */
  method FindRoundInForce(feed: Feed, t: int) returns (r: Option<RoundProof>)
    requires Live(feed)
    ensures r.Some? <==> Findable(feed, t)
    ensures r.Some? ==> exists p, k :: Proves(feed, t, r.value, p, k)
  {
    var latestPhase, latestAgg := |feed|, Rounds(feed, |feed|);
    var latestId := RoundIdOf(latestPhase, latestAgg);
    RoundIdRoundTrip(latestPhase, latestAgg);
    assert IsRound(feed, latestPhase, latestAgg);
    var latest := RoundAt(feed, latestPhase, latestAgg);
    if latest.updatedAt <= t {
      r := Some(RoundProof(latestId, 0, latest.answer, latest.updatedAt));
      assert Proves(feed, t, r.value, latestPhase, latestAgg);
      return;
    }
    var phase, hi := PhaseOf(latestId), AggOf(latestId);
    while true
      invariant 1 <= phase <= |feed| && hi == Rounds(feed, phase) && IsRound(feed, phase, hi)
      invariant t < RoundAt(feed, phase, hi).updatedAt && Walkable(feed, phase)
      decreases phase
    {
      assert IsRound(feed, phase, 1);
      var first := TryRoundAt(feed, phase, 1);
      if first.Some? && first.value.updatedAt <= t {
        break;
      }
      if phase <= 1 {
        forall p, k ensures !InForce(feed, t, p, k) {
          NoneInForce(feed, t, p, k);
        }
        return None;
      }
      var last, _ := LastRoundOfPhase(feed, phase - 1);
      if last.None? || last.value == 0 {
        BlockedPhase(feed, t, phase);
        return None;
      }
      assert IsRound(feed, phase - 1, last.value);
      var round := RoundAt(feed, phase - 1, last.value);
      WalkOne(feed, phase);
      if round.updatedAt <= t {
        r := Some(RoundProof(RoundIdOf(phase - 1, last.value), RoundIdOf(phase, 1), round.answer, round.updatedAt));
        SuccessorAfter(feed, t, phase - 1, last.value, phase, 1);
        assert Proves(feed, t, r.value, phase - 1, last.value);
        return;
      }
      phase := phase - 1;
      hi := last.value;
    }
    var lo := 1;
    while 1 < hi - lo
      invariant 1 <= lo < hi <= Rounds(feed, phase) && IsRound(feed, phase, lo) && IsRound(feed, phase, hi)
      invariant RoundAt(feed, phase, lo).updatedAt <= t < RoundAt(feed, phase, hi).updatedAt
      decreases hi - lo
    {
      var mid := (lo + hi) / 2;
      if RoundAt(feed, phase, mid).updatedAt <= t {
        lo := mid;
      } else {
        hi := mid;
      }
    }
    var inForce := RoundAt(feed, phase, lo);
    r := Some(RoundProof(RoundIdOf(phase, lo), RoundIdOf(phase, hi), inForce.answer, inForce.updatedAt));
    SuccessorAfter(feed, t, phase, lo, phase, hi);
    assert Proves(feed, t, r.value, phase, lo);
  }

  lemma {:induction false} WalkOne(feed: Feed, phase: int)
    requires 1 < phase <= |feed| && Walkable(feed, phase) && 0 < Rounds(feed, phase - 1) < HALF_LIMIT
    ensures Walkable(feed, phase - 1)
  {
  }

  /** Some round is at or before `t`: then one is in force. */
  lemma {:induction false} SomeInForce(feed: Feed, t: int, p: int, k: int) returns (q: int, j: int)
    requires Live(feed) && IsRound(feed, p, k) && RoundAt(feed, p, k).updatedAt <= t
    ensures InForce(feed, t, q, j)
    decreases |feed| - p, Rounds(feed, p) - k
  {
    if k < Rounds(feed, p) && RoundAt(feed, p, k + 1).updatedAt <= t {
      q, j := SomeInForce(feed, t, p, k + 1);
    } else if k < Rounds(feed, p) {
      SuccessorAfter(feed, t, p, k, p, k + 1);
      q, j := p, k;
    } else {
      q, j := NextPhase(feed, t, p, k, p + 1);
    }
  }

  /** From the last round of phase `p`, with nothing at or before `t` in the phases from p + 1 up to `from`. */
  lemma {:induction false} NextPhase(feed: Feed, t: int, p: int, k: int, from: int) returns (q: int, j: int)
    requires Live(feed) && IsRound(feed, p, k) && RoundAt(feed, p, k).updatedAt <= t && k == Rounds(feed, p)
    requires p < from
    requires forall a {:trigger Rounds(feed, a)} :: 1 <= p < a < from && a <= |feed| ==> Rounds(feed, a) == 0
    ensures InForce(feed, t, q, j)
    decreases |feed| - p, 0, |feed| - from + 1
  {
    if |feed| < from {
      q, j := p, k;
    } else if Rounds(feed, from) == 0 {
      q, j := NextPhase(feed, t, p, k, from + 1);
    } else if RoundAt(feed, from, 1).updatedAt <= t {
      q, j := SomeInForce(feed, t, from, 1);
    } else {
      forall a, b | IsRound(feed, a, b) && Before(p, k, a, b) ensures t < RoundAt(feed, a, b).updatedAt {
        assert IsRound(feed, from, 1);
        assert (a == from && b == 1) || Before(from, 1, a, b);
      }
      q, j := p, k;
    }
  }

  /** On a feed without gaps the search succeeds exactly when some round is at or before `t`. */
  lemma {:induction false} FindableWithoutGaps(feed: Feed, t: int)
    requires Live(feed) && Walkable(feed, 1)
    ensures Findable(feed, t) <==> RoundAt(feed, 1, 1).updatedAt <= t
  {
    assert 0 < Rounds(feed, 1);
    assert IsRound(feed, 1, 1);
    if RoundAt(feed, 1, 1).updatedAt <= t {
      var p, k := SomeInForce(feed, t, 1, 1);
      assert Walkable(feed, p);
    } else {
      forall p, k ensures !InForce(feed, t, p, k) {
        NoneInForce(feed, t, p, k);
      }
    }
  }

  /** A gap hides a round: one round before and one after an empty phase, and a time between them. */
  lemma {:induction false} EmptyPhaseHidesRound()
    ensures var feed := [[Round(7, 10)], [], [Round(8, 30)]];
      Live(feed) && InForce(feed, 20, 1, 1) && !Findable(feed, 20)
  {
    var feed := [[Round(7, 10)], [], [Round(8, 30)]];
    assert forall p, k {:trigger IsRound(feed, p, k)} :: IsRound(feed, p, k) ==> k == 1 && (p == 1 || p == 3);
    assert Rounds(feed, 2) == 0;
    BlockedPhase(feed, 20, 3);
  }
}
