/**
 * Which leaves of a signed surface a risk check reads: the tenors a publisher picks for the listed expiries
 * (sdk/src/catalog.ts), the bracketing lookups (sdk/src/math.ts) and the leaves handed out for a set of series
 * (publisher/src/publisher.ts), against the scan that `iv_from_surface` does (module Surface).
 */
module Lookup {
  import opened Basics
  import Liquidation
  import opened Ordering
  import opened Surface

  // ---------------------------------------------------------------------------------------------------------
  // Tenors
  // ---------------------------------------------------------------------------------------------------------

  /** `Math.round(n / 3)` for n >= 0. */
  function RoundThird(n: nat): nat {
    (2 * n + 3) / 6
  }

  /** All expiries up to four, else the first, the last and two evenly spaced between. */
  function ChooseTenors(expiries: seq<int>): seq<int> {
    if |expiries| <= 4 then expiries
    else
      var last := |expiries| - 1;
      [expiries[0], expiries[RoundThird(last)], expiries[RoundThird(2 * last)], expiries[last]]
  }

  /** With more than four expiries, the two tenors between the ends are as near as can be to a third and two thirds. */
  lemma {:induction false} EvenlySpaced(expiries: seq<int>, i: nat, j: nat)
    requires 4 < |expiries|
    requires var last := |expiries| - 1; -1 <= 3 * i - last <= 1 && -1 <= 3 * j - 2 * last <= 1
    ensures i < |expiries| && j < |expiries|
    ensures ChooseTenors(expiries) == [expiries[0], expiries[i], expiries[j], expiries[|expiries| - 1]]
  {
  }

  lemma {:induction false} PicksIncrease(last: nat)
    requires 4 <= last
    ensures 0 < RoundThird(last) < RoundThird(2 * last) < last
  {
  }

  /** Distinct expiries after a time, increasing: the set of them, sorted. */
  method Expiries(listed: seq<int>, after: int) returns (sorted: seq<int>)
    ensures Ordered(sorted)
    ensures forall x :: x in sorted <==> x in listed && after < x
  {
    sorted := [];
    for i := 0 to |listed|
      invariant Ordered(sorted)
      invariant forall x :: x in sorted <==> x in listed[..i] && after < x
    {
      assert listed[..i + 1] == listed[..i] + [listed[i]];
      if after < listed[i] && listed[i] !in sorted {
        sorted := Insert(sorted, listed[i]);
      }
    }
    assert listed[..|listed|] == listed;
  }

  /** What `findTenors` answers: the first tenor at or after the expiry, with the one before it unless it is met. */
  function Bracket(tenors: seq<int>, expiry: int): Option<(nat, nat)> {
    var used := tenors[..Min(4, UsedTenors(tenors, 0))];
    if used == [] || expiry < used[0] || used[|used| - 1] < expiry then None
    else
      var i := FirstAtLeast(used, expiry, 0);
      if used[i] == expiry then Some((i, i)) else Some((i - 1, i))
  }

  method FindTenors(tenors: seq<int>, expiry: int) returns (r: Option<(nat, nat)>)
    ensures r == Bracket(tenors, expiry)
  {
    var n := 0;
    while n < 4 && n < |tenors| && tenors[n] != 0
      invariant n <= |tenors| && n <= 4 && UsedTenors(tenors, 0) == UsedTenors(tenors, n)
    {
      n := n + 1;
    }
    ghost var used := tenors[..n];
    assert n == Min(4, UsedTenors(tenors, 0));
    if n == 0 || expiry < tenors[0] || tenors[n - 1] < expiry {
      return None;
    }
    var i := 0;
    while tenors[i] < expiry
      invariant i < n && FirstAtLeast(used, expiry, 0) == FirstAtLeast(used, expiry, i)
      invariant 0 < i ==> tenors[i - 1] < expiry
      decreases n - i
    {
      i := i + 1;
    }
    if tenors[i] == expiry {
      return Some((i, i));
    }
    r := Some((i - 1, i));
  }

  /** Increasing times after zero. */
  predicate Listed(expiries: seq<int>) {
    Ordered(expiries) && (expiries != [] ==> 0 < expiries[0])
  }

  lemma {:induction false} ListedIsPositive(expiries: seq<int>, i: nat)
    requires Listed(expiries) && i < |expiries|
    ensures 0 < expiries[i]
  {
    assert expiries[0] <= expiries[i];
  }

  lemma {:induction false} AllUsed(tenors: seq<int>, i: nat)
    requires i <= |tenors| && forall j :: 0 <= j < |tenors| ==> tenors[j] != 0
    ensures UsedTenors(tenors, i) == |tenors|
    decreases |tenors| - i
  {
    if i < |tenors| {
      AllUsed(tenors, i + 1);
    }
  }

  /** At most four increasing tenors among the expiries, the first and the last with them. */
  lemma {:induction false} ChosenTenors(expiries: seq<int>)
    requires Listed(expiries)
    ensures var tenors := ChooseTenors(expiries);
      && |tenors| <= 4 && Listed(tenors)
      && (forall t :: t in tenors ==> t in expiries)
      && (expiries != [] ==>
            tenors != [] && tenors[0] == expiries[0] && tenors[|tenors| - 1] == expiries[|expiries| - 1])
  {
    if 4 < |expiries| {
      PicksIncrease(|expiries| - 1);
    }
  }

  /** `findTenors` brackets every listed expiry among the chosen tenors. */
  lemma {:induction false} ChosenTenorsBracket(expiries: seq<int>, e: int)
    requires Listed(expiries) && e in expiries
    ensures var tenors := ChooseTenors(expiries);
      var b := Bracket(tenors, e);
      && b.Some? && b.value.0 <= b.value.1 < |tenors| && b.value.1 <= b.value.0 + 1
      && tenors[b.value.0] <= e <= tenors[b.value.1]
      && (b.value.0 == b.value.1 ==> tenors[b.value.0] == e)
  {
    hide ChooseTenors, Bracket;
    ChosenTenors(expiries);
    WithinEnds(expiries, e);
    BracketWithin(ChooseTenors(expiries), e);
  }

  lemma {:induction false} WithinEnds(xs: seq<int>, x: int)
    requires Ordered(xs) && x in xs
    ensures xs[0] <= x <= xs[|xs| - 1]
  {
    var i :| 0 <= i < |xs| && xs[i] == x;
  }

  lemma {:induction false} BracketWithin(tenors: seq<int>, e: int)
    requires Listed(tenors) && 0 < |tenors| <= 4 && tenors[0] <= e <= tenors[|tenors| - 1]
    ensures var b := Bracket(tenors, e);
      && b.Some? && b.value.0 <= b.value.1 < |tenors| && b.value.1 <= b.value.0 + 1
      && tenors[b.value.0] <= e <= tenors[b.value.1]
      && (b.value.0 == b.value.1 ==> tenors[b.value.0] == e)
  {
    forall j | 0 <= j < |tenors| ensures tenors[j] != 0 {
      ListedIsPositive(tenors, j);
    }
    AllUsed(tenors, 0);
    assert tenors[..|tenors|] == tenors;
  }

  /** On a report's increasing tenors, padded with zeros, the lookup is the bracket `iv_from_surface` takes. */
  lemma {:induction false} BracketIsScan(tenors: seq<int>, expiry: int)
    requires |tenors| == 4
    requires var used := tenors[..UsedTenors(tenors, 0)]; used != [] && Ordered(used)
    ensures var used := tenors[..UsedTenors(tenors, 0)];
      Bracket(tenors, expiry) ==
        if expiry < used[0] || used[|used| - 1] < expiry then None
        else Some((LastAtMost(used, expiry, |used|), FirstAtLeast(used, expiry, 0)))
  {
    var used := tenors[..UsedTenors(tenors, 0)];
    if used[0] <= expiry <= used[|used| - 1] {
      BracketOrder(used, expiry);
    }
  }

  // ---------------------------------------------------------------------------------------------------------
  // Nodes
  // ---------------------------------------------------------------------------------------------------------

  /** What `findNodes` answers for a log-moneyness already in WAD: one node, or the two around it. */
  function NodeBracket(kNodes: seq<int>, kw: int): (nat, nat)
    requires kNodes != []
  {
    var last := |kNodes| - 1;
    if kw <= kNodes[0] then (0, 0)
    else if kNodes[last] <= kw then (last, last)
    else
      var j := FirstAtLeast(kNodes, kw, 1);
      if kNodes[j] == kw then (j, j) else (j - 1, j)
  }

  method FindNodes(kNodes: seq<int>, kw: int) returns (r: Option<(nat, nat)>)
    ensures r == if kNodes == [] then None else Some(NodeBracket(kNodes, kw))
  {
    var m := |kNodes|;
    if m == 0 {
      return None;
    }
    if kw <= kNodes[0] {
      return Some((0, 0));
    }
    if kNodes[m - 1] <= kw {
      return Some((m - 1, m - 1));
    }
    var j := 0;
    while kNodes[j + 1] < kw
      invariant j + 1 < m && FirstAtLeast(kNodes, kw, 1) == FirstAtLeast(kNodes, kw, j + 1)
      decreases m - j
    {
      j := j + 1;
    }
    r := if kw == kNodes[j + 1] then Some((j + 1, j + 1)) else Some((j, j + 1));
  }

  /** The nodes the scan of `iv_from_surface` reads at log-moneyness k: the ends alone, or a whole segment. */
  function ScanNodes(nodes: seq<real>, k: real): (nat, nat)
    requires nodes != [] && Increasing(nodes)
  {
    var last := |nodes| - 1;
    if k <= nodes[0] then (0, 0)
    else if nodes[last] <= k then (last, last)
    else
      var j := Segment(nodes, k, 0);
      (j, j + 1)
  }

  /** Interpolating over a pair of nodes. */
  function Between(row: seq<real>, nodes: seq<real>, b: (nat, nat), k: real): real
    requires |row| == |nodes| && Increasing(nodes) && b.0 <= b.1 < |nodes|
  {
    if b.0 == b.1 then row[b.0] else Mix(row[b.0], row[b.1], Weight(k, nodes[b.0], nodes[b.1]))
  }

  lemma {:induction false} ScanValue(row: seq<real>, nodes: seq<real>, k: real)
    requires |row| == |nodes| && nodes != [] && Increasing(nodes)
    ensures ScanNodes(nodes, k).0 <= ScanNodes(nodes, k).1 < |nodes|
    ensures Between(row, nodes, ScanNodes(nodes, k), k) == AtTenor(row, nodes, k)
  {
  }

  predicate Rising(kNodes: seq<int>) {
    forall i, j :: 0 <= i < j < |kNodes| ==> kNodes[i] < kNodes[j]
  }

  lemma {:induction false} RisingReals(kNodes: seq<int>)
    requires Rising(kNodes)
    ensures Increasing(Reals(kNodes))
  {
    forall i, j | 0 <= i < j < |kNodes| ensures Reals(kNodes)[i] < Reals(kNodes)[j] {
      FromWadMonotone(kNodes[j], kNodes[i]);
    }
  }

  predicate Interior(kNodes: seq<int>, kw: int) {
    exists j :: 0 < j < |kNodes| - 1 && kNodes[j] == kw
  }

  lemma {:induction false} SegmentIs(nodes: seq<real>, k: real, j: nat)
    requires Increasing(nodes) && j + 1 < |nodes| && nodes[0] < k < nodes[|nodes| - 1]
    requires nodes[j] < k <= nodes[j + 1]
    ensures Segment(nodes, k, 0) == j
  {
  }

  lemma {:induction false} InteriorIs(kNodes: seq<int>, kw: int)
    requires kNodes != [] && Rising(kNodes)
    ensures var b := NodeBracket(kNodes, kw);
      && b.0 <= b.1 < |kNodes|
      && (Interior(kNodes, kw) <==> 0 < b.0 == b.1 < |kNodes| - 1)
      && (Interior(kNodes, kw) ==> kNodes[b.0] == kw)
  {
  }

  /**
   * The two lookups compared: the scan takes the segment left of an interior node it meets, the lookup the node alone.
   */
  lemma {:induction false} NodeBracketIsScan(kNodes: seq<int>, kw: int)
    requires kNodes != [] && Rising(kNodes)
    ensures Increasing(Reals(kNodes))
    ensures var b := NodeBracket(kNodes, kw);
      ScanNodes(Reals(kNodes), FromWad(kw)) == if 0 < b.0 == b.1 < |kNodes| - 1 then (b.0 - 1, b.1) else b
  {
    RisingReals(kNodes);
    var nodes, k, last := Reals(kNodes), FromWad(kw), |kNodes| - 1;
    FromWadMonotone(kw, kNodes[0]);
    FromWadMonotone(kNodes[last], kw);
    if kNodes[0] < kw < kNodes[last] {
      var j := FirstAtLeast(kNodes, kw, 1);
      FromWadMonotone(kw, kNodes[j]);
      FromWadMonotone(kw, kNodes[j - 1]);
      SegmentIs(nodes, k, j - 1);
    }
  }

  /** Over the looked-up tenors and nodes, interpolation gives what the scan gives. */
  lemma {:induction false} LookupIsScan(kNodes: seq<int>, kw: int, row: seq<real>)
    requires kNodes != [] && Rising(kNodes) && |row| == |kNodes|
    ensures Increasing(Reals(kNodes)) && NodeBracket(kNodes, kw).0 <= NodeBracket(kNodes, kw).1 < |kNodes|
    ensures Between(row, Reals(kNodes), NodeBracket(kNodes, kw), FromWad(kw))
      == AtTenor(row, Reals(kNodes), FromWad(kw))
  {
    hide AtTenor, NodeBracket, ScanNodes, Increasing, Interior;
    NodeBracketIsScan(kNodes, kw);
    InteriorIs(kNodes, kw);
    ScanValue(row, Reals(kNodes), FromWad(kw));
    if Interior(kNodes, kw) {
      AtTenorNode(row, Reals(kNodes), NodeBracket(kNodes, kw).0);
    }
  }

  /** The whole lookup: tenors by `findTenors`, nodes by `findNodes`, linear between them. */
  function LookedUp(r: Report, w: seq<seq<real>>, expiry: int, kw: int): Option<real>
    requires r.kNodes != [] && Rising(r.kNodes) && |r.tenors| == MAX_TENORS
    requires |w| == UsedTenors(r.tenors, 0) && Ordered(r.tenors[..|w|])
    requires forall t :: 0 <= t < |w| ==> |w[t]| == |r.kNodes|
  {
    RisingReals(r.kNodes);
    InteriorIs(r.kNodes, kw);
    var nodes, k, n := Reals(r.kNodes), FromWad(kw), NodeBracket(r.kNodes, kw);
    var used := r.tenors[..|w|];
    match Bracket(r.tenors, expiry)
    case None => None
    case Some(b) =>
      var wa, wb := Between(w[b.0], nodes, n, k), Between(w[b.1], nodes, n, k);
      if b.0 == b.1 then Some(wa) else Some(InTime(expiry, r.validAfter, used[b.0], used[b.1], wa, wb))
  }

  /** Bracketing lookups and the reference scan agree on every expiry and every log-moneyness. */
  lemma {:induction false} LookupRefinesReference(r: Report, w: seq<seq<real>>, expiry: int, kw: int)
    requires r.kNodes != [] && Rising(r.kNodes) && |r.tenors| == MAX_TENORS
    requires 0 < |w| == UsedTenors(r.tenors, 0) && Ordered(r.tenors[..|w|])
    requires forall t :: 0 <= t < |w| ==> |w[t]| == |r.kNodes|
    ensures IsGrid(r.tenors[..|w|], Reals(r.kNodes), w)
    ensures LookedUp(r, w, expiry, kw)
         == TotalVariance(expiry, r.validAfter, r.tenors[..|w|], Reals(r.kNodes), w, FromWad(kw))
  {
    hide AtTenor, InTime, Between, NodeBracket;
    RisingReals(r.kNodes);
    var used := r.tenors[..|w|];
    BracketIsScan(r.tenors, expiry);
    if used[0] <= expiry <= used[|used| - 1] {
      BracketOrder(used, expiry);
      LookupIsScan(r.kNodes, kw, w[LastAtMost(used, expiry, |used|)]);
      LookupIsScan(r.kNodes, kw, w[FirstAtLeast(used, expiry, 0)]);
    }
  }

  // ---------------------------------------------------------------------------------------------------------
  // The leaves handed out
  // ---------------------------------------------------------------------------------------------------------

  /** A series as the publisher sees it: its expiry, and ln(strike / spot) in WAD when a spot is known. */
  datatype Series = Series(expiry: int, logMoneyness: Option<int>)

  type Leaf = (nat, nat)

  /** The node range of one series, widened by the margin. */
  predicate NodeWanted(kNodes: seq<int>, s: Series, margin: nat, j: int)
    requires kNodes != []
  {
    var (lo, hi) := if s.logMoneyness.None? then (0, |kNodes| - 1) else NodeBracket(kNodes, s.logMoneyness.value);
    0 <= j < |kNodes| && lo - margin <= j <= hi + margin
  }

  predicate Wanted(r: Report, s: Series, margin: nat, leaf: Leaf)
    requires r.kNodes != []
  {
    var b := Bracket(r.tenors, s.expiry);
    b.Some? && (leaf.0 == b.value.0 || leaf.0 == b.value.1) && NodeWanted(r.kNodes, s, margin, leaf.1)
  }

  /** Both tenors of a bracket, with the nodes from lo - margin to hi + margin that exist. */
  method AddLeaves(want: set<Leaf>, tb: (nat, nat), m: nat, lo: nat, hi: nat, margin: nat) returns (more: set<Leaf>)
    requires 0 < m
    ensures forall leaf :: leaf in more <==>
      (leaf in want || ((leaf.0 == tb.0 || leaf.0 == tb.1) && leaf.1 < m && lo - margin <= leaf.1 <= hi + margin))
  {
    more := want;
    var j := Max(0, lo - margin);
    ghost var start := j;
    while j <= Min(m - 1, hi + margin)
      invariant start <= j
      invariant forall leaf :: leaf in more <==> (leaf in want ||
        ((leaf.0 == tb.0 || leaf.0 == tb.1) && start <= leaf.1 < j && leaf.1 <= Min(m - 1, hi + margin)))
    {
      more := more + {(tb.0, j), (tb.1, j)};
      j := j + 1;
    }
  }

  method LeavesOf(r: Report, s: Series, margin: nat, want: set<Leaf>) returns (more: set<Leaf>)
    requires r.kNodes != []
    ensures forall leaf :: leaf in more <==> leaf in want || Wanted(r, s, margin, leaf)
  {
    hide Bracket, NodeBracket;
    var tb := FindTenors(r.tenors, s.expiry);
    if tb.None? {
      return want;
    }
    var b := (0, |r.kNodes| - 1);
    if s.logMoneyness.Some? {
      var nb := FindNodes(r.kNodes, s.logMoneyness.value);
      b := nb.value;
    }
    more := AddLeaves(want, tb.value, |r.kNodes|, b.0, b.1, margin);
  }

  method NodesFor(r: Report, series: seq<Series>, margin: nat, proven: set<Leaf>) returns (leaves: set<Leaf>)
    requires r.kNodes != []
    ensures forall leaf :: leaf in leaves <==>
      (leaf !in proven && exists s :: s in series && Wanted(r, s, margin, leaf))
  {
    hide Wanted;
    var want: set<Leaf> := {};
    for i := 0 to |series|
      invariant forall leaf :: leaf in want <==> exists n :: 0 <= n < i && Wanted(r, series[n], margin, leaf)
    {
      want := LeavesOf(r, series[i], margin, want);
    }
    leaves := want - proven;
    forall leaf: Leaf
      ensures leaf in want <==> exists s :: s in series && Wanted(r, s, margin, leaf)
    {
      if leaf in want {
        var n :| 0 <= n < |series| && Wanted(r, series[n], margin, leaf);
        assert series[n] in series;
      }
    }
  }

  /** The scan's nodes are all in the range handed out. */
  ghost predicate Covers(kNodes: seq<int>, s: Series, margin: nat, scan: (nat, nat))
    requires kNodes != []
  {
    NodeWanted(kNodes, s, margin, scan.0) && NodeWanted(kNodes, s, margin, scan.1)
  }

  /** Every node the scan reads is handed out, unless the margin is zero and the log-moneyness is an interior node. */
  lemma {:induction false} ScanIsCovered(kNodes: seq<int>, kw: int, expiry: int, margin: nat)
    requires kNodes != [] && Rising(kNodes)
    ensures Increasing(Reals(kNodes))
    ensures Covers(kNodes, Series(expiry, Some(kw)), margin, ScanNodes(Reals(kNodes), FromWad(kw)))
      <==> (0 < margin || !Interior(kNodes, kw))
  {
    hide ScanNodes;
    NodeBracketIsScan(kNodes, kw);
    InteriorIs(kNodes, kw);
  }

  // The log-moneyness reaches `findNodes` through `toWad`, which keeps nine digits of it.

  const KEPT: int := 1_000_000_000

  function Rounded(x: real): int {
    (x + 0.5).Floor
  }

  /** `toWad`: the whole part exactly, the rest to a billionth. */
  function ToWad(x: real): int {
    var hi := Liquidation.Trunc(x);
    hi * WAD + Rounded((x - hi as real) * (KEPT as real)) * KEPT
  }

  /** At most half a billionth is lost. */
  lemma {:induction false} ToWadIsClose(x: real)
    ensures -0.0000000005 <= FromWad(ToWad(x)) - x <= 0.0000000005
  {
    var hi := Liquidation.Trunc(x);
    var rest := (x - hi as real) * 1_000_000_000.0;
    var n := Rounded(rest);
    assert rest - 0.5 <= n as real <= rest + 0.5;
    assert ToWad(x) == hi * WAD + n * 1_000_000_000;
    assert FromWad(ToWad(x)) == hi as real + n as real / 1_000_000_000.0;
  }

  /** The billionth that a number is rounded to. */
  function Cell(x: real): int {
    Rounded(x * (KEPT as real))
  }

  lemma {:induction false} CellHolds(x: real)
    ensures ToWad(x) == Cell(x) * KEPT
    ensures FromWad(Cell(x) * KEPT - KEPT / 2) <= x < FromWad(Cell(x) * KEPT + KEPT / 2)
  {
    var hi := Liquidation.Trunc(x);
    var rest := (x - hi as real) * 1_000_000_000.0;
    assert x * 1_000_000_000.0 == rest + (hi * 1_000_000_000) as real;
    assert Cell(x) == Rounded(rest) + hi * 1_000_000_000;
  }

  /** The numbers that are rounded to `c` billionths are those around it. */
  lemma {:induction false} CellIs(x: real, c: int)
    requires FromWad(c * KEPT - KEPT / 2) <= x < FromWad(c * KEPT + KEPT / 2)
    ensures ToWad(x) == c * KEPT
  {
    CellHolds(x);
    assert c as real - 0.5 <= x * 1_000_000_000.0 < c as real + 0.5;
  }

  /** From node `i` on, margin + 1 nodes lie in the upper half of one billionth, and another node follows. */
  predicate CrowdedAbove(kNodes: seq<int>, margin: nat, i: nat) {
    && i + margin + 1 < |kNodes|
    && kNodes[i + margin] < kNodes[i] / KEPT * KEPT + KEPT / 2
  }

  /** From node `i` on, margin + 1 nodes lie in the lower half of one billionth, and another node is before them. */
  predicate CrowdedBelow(kNodes: seq<int>, margin: nat, i: nat) {
    && 1 <= i && i + margin < |kNodes|
    && CeilDiv(kNodes[i + margin], KEPT) * KEPT - KEPT / 2 <= kNodes[i]
  }

  /** A report's nodes leave room for the rounding of the log-moneyness. */
  predicate Roomy(kNodes: seq<int>, margin: nat) {
    forall i {:trigger CrowdedAbove(kNodes, margin, i)} {:trigger CrowdedBelow(kNodes, margin, i)} ::
      0 <= i < |kNodes| ==> !CrowdedAbove(kNodes, margin, i) && !CrowdedBelow(kNodes, margin, i)
  }

  lemma {:induction false} CrowdedAboveIs(kNodes: seq<int>, margin: nat, i: nat, c: int)
    requires Rising(kNodes) && i + margin + 1 < |kNodes|
    ensures c * KEPT <= kNodes[i] && kNodes[i + margin] < c * KEPT + KEPT / 2 ==>
      CrowdedAbove(kNodes, margin, i) && c == kNodes[i] / KEPT
  {
    assert kNodes[i] <= kNodes[i + margin];
  }

  lemma {:induction false} CrowdedBelowIs(kNodes: seq<int>, margin: nat, i: nat, c: int)
    requires Rising(kNodes) && 1 <= i && i + margin < |kNodes|
    ensures c * KEPT - KEPT / 2 <= kNodes[i] && kNodes[i + margin] <= c * KEPT ==>
      CrowdedBelow(kNodes, margin, i) && c == CeilDiv(kNodes[i + margin], KEPT)
  {
    assert kNodes[i] <= kNodes[i + margin];
  }

  ghost predicate Missed(kNodes: seq<int>, k: real, expiry: int, margin: nat)
    requires kNodes != [] && Rising(kNodes)
  {
    RisingReals(kNodes);
    !Covers(kNodes, Series(expiry, Some(ToWad(k))), margin, ScanNodes(Reals(kNodes), k))
  }

  /** A node that the scan reads and the rounded lookup misses has crowded nodes in between. */
  lemma {:induction false} MissedIsCrowded(kNodes: seq<int>, k: real, expiry: int, margin: nat)
    requires kNodes != [] && Rising(kNodes) && Missed(kNodes, k, expiry, margin)
    ensures !Roomy(kNodes, margin)
  {
    hide ScanNodes, NodeBracket, ToWad, CrowdedAbove, CrowdedBelow;
    RisingReals(kNodes);
    var b, s := NodeBracket(kNodes, ToWad(k)), ScanNodes(Reals(kNodes), k);
    BracketHolds(kNodes, ToWad(k));
    ScanHolds(Reals(kNodes), k);
    if b.1 + margin < s.1 {
      MissedAbove(kNodes, k, margin, b.1, s.1);
    } else {
      MissedBelow(kNodes, k, margin, b.0, s.0);
    }
  }

  lemma {:induction false} MissedAbove(kNodes: seq<int>, k: real, margin: nat, hi: nat, read: nat)
    requires Rising(kNodes) && hi + margin < read < |kNodes|
    requires FromWad(ToWad(k)) <= FromWad(kNodes[hi]) && FromWad(kNodes[read - 1]) < k
    ensures CrowdedAbove(kNodes, margin, hi)
  {
    CellHolds(k);
    assert kNodes[hi + margin] <= kNodes[read - 1];
    CrowdedAboveIs(kNodes, margin, hi, Cell(k));
  }

  lemma {:induction false} MissedBelow(kNodes: seq<int>, k: real, margin: nat, lo: nat, read: nat)
    requires Rising(kNodes) && read + margin < lo < |kNodes|
    requires FromWad(kNodes[lo]) <= FromWad(ToWad(k)) && k <= FromWad(kNodes[read + 1])
    ensures CrowdedBelow(kNodes, margin, lo - margin)
  {
    CellHolds(k);
    assert kNodes[read + 1] <= kNodes[lo - margin];
    CrowdedBelowIs(kNodes, margin, lo - margin, Cell(k));
  }

  /** Just above crowded nodes the lookup stops before the segment that the scan reads. */
  lemma {:induction false} CrowdedAboveIsMissed(kNodes: seq<int>, expiry: int, margin: nat, i: nat) returns (k: real)
    requires kNodes != [] && Rising(kNodes) && 0 < margin && CrowdedAbove(kNodes, margin, i)
    ensures Missed(kNodes, k, expiry, margin)
  {
    hide ScanNodes, NodeBracket, ToWad;
    var c := kNodes[i] / KEPT;
    RisingReals(kNodes);
    var nodes, top := Reals(kNodes), MinR(FromWad(kNodes[i + margin + 1]), FromWad(c * KEPT + KEPT / 2));
    k := (nodes[i + margin] + top) / 2.0;
    assert kNodes[i] <= kNodes[i + margin] < kNodes[i + margin + 1];
    CellIs(k, c);
    assert nodes[0] <= nodes[i + margin] < k < nodes[i + margin + 1] <= nodes[|nodes| - 1];
    ScanIs(nodes, k, i + margin);
    FirstBefore(kNodes, c * KEPT, i);
  }

  /** At the first of the crowded nodes the scan reads the segment before it, and the lookup starts behind it. */
  lemma {:induction false} CrowdedBelowIsMissed(kNodes: seq<int>, expiry: int, margin: nat, i: nat) returns (k: real)
    requires kNodes != [] && Rising(kNodes) && 0 < margin && CrowdedBelow(kNodes, margin, i)
    ensures Missed(kNodes, k, expiry, margin)
  {
    hide ScanNodes, NodeBracket, ToWad;
    var c := CeilDiv(kNodes[i + margin], KEPT);
    RisingReals(kNodes);
    var nodes := Reals(kNodes);
    k := nodes[i];
    assert kNodes[i] < kNodes[i + margin] <= c * KEPT;
    CellIs(k, c);
    ScanIs(nodes, k, i - 1);
    LastAfter(kNodes, c * KEPT, i + margin);
  }

  lemma {:induction false} ScanIs(nodes: seq<real>, k: real, j: nat)
    requires Increasing(nodes) && j + 1 < |nodes| && nodes[0] < k < nodes[|nodes| - 1]
    requires nodes[j] < k <= nodes[j + 1]
    ensures ScanNodes(nodes, k) == (j, j + 1)
  {
    SegmentIs(nodes, k, j);
  }

  lemma {:induction false} FirstBefore(kNodes: seq<int>, kw: int, i: nat)
    requires Rising(kNodes) && i < |kNodes| && kw <= kNodes[i]
    ensures NodeBracket(kNodes, kw).1 <= i || NodeBracket(kNodes, kw).1 == |kNodes| - 1 == i
  {
  }

  lemma {:induction false} LastAfter(kNodes: seq<int>, kw: int, i: nat)
    requires Rising(kNodes) && i < |kNodes| && kNodes[i] <= kw
    ensures i <= NodeBracket(kNodes, kw).0
  {
  }

  /**
   * Rounding the log-moneyness loses no node that the scan reads, whatever the log-moneyness, exactly when the report's
   * nodes leave room: no more than `margin` of them in one half of a billionth, but for the ends.
   */
  lemma {:induction false} RoundingIsCovered(kNodes: seq<int>, expiry: int, margin: nat)
    requires kNodes != [] && Rising(kNodes) && 0 < margin
    ensures (forall k: real :: !Missed(kNodes, k, expiry, margin)) <==> Roomy(kNodes, margin)
  {
    hide Missed, CrowdedAbove, CrowdedBelow;
    if Roomy(kNodes, margin) {
      forall k: real ensures !Missed(kNodes, k, expiry, margin) {
        if Missed(kNodes, k, expiry, margin) {
          MissedIsCrowded(kNodes, k, expiry, margin);
        }
      }
    } else {
      var i :| 0 <= i < |kNodes| && (CrowdedAbove(kNodes, margin, i) || CrowdedBelow(kNodes, margin, i));
      if CrowdedAbove(kNodes, margin, i) {
        var k := CrowdedAboveIsMissed(kNodes, expiry, margin, i);
      } else {
        var k := CrowdedBelowIsMissed(kNodes, expiry, margin, i);
      }
    }
  }

  /** What the lookup's answer says about the number. */
  lemma {:induction false} BracketHolds(kNodes: seq<int>, kw: int)
    requires kNodes != [] && Rising(kNodes)
    ensures var b := NodeBracket(kNodes, kw);
      && b.0 <= b.1 < |kNodes|
      && (b.0 == 0 || FromWad(kNodes[b.0]) <= FromWad(kw))
      && (b.1 == |kNodes| - 1 || FromWad(kw) <= FromWad(kNodes[b.1]))
  {
    var b := NodeBracket(kNodes, kw);
    FromWadMonotone(kNodes[b.0], kw);
    FromWadMonotone(kw, kNodes[b.1]);
  }

  lemma {:induction false} ScanHolds(nodes: seq<real>, k: real)
    requires nodes != [] && Increasing(nodes)
    ensures var s := ScanNodes(nodes, k);
      && s.0 <= s.1 < |nodes|
      && (s.0 < s.1 ==> s.1 == s.0 + 1 && nodes[s.0] < k <= nodes[s.1])
      && (s.0 == s.1 ==> (s.0 == 0 && k <= nodes[0]) || (s.0 == |nodes| - 1 && nodes[s.0] <= k))
  {
    if nodes[0] < k < nodes[|nodes| - 1] {
      var j := Segment(nodes, k, 0);
      assert j == 0 || nodes[j] < k;
    }
  }

  /** Three nodes within half a billionth, and a strike one double above spot: ln(1 + 2^-52) falls behind all three. */
  lemma {:induction false} CloseNodesCanBeMissed()
    ensures var kNodes, k := [0, 100, 200, 300, KEPT], 0.00000000000000022204460492503128;
      && Rising(kNodes) && CrowdedAbove(kNodes, 1, 0) && CrowdedAbove(kNodes, 2, 0)
      && Missed(kNodes, k, 0, 1) && !Missed(kNodes, k, 0, 3)
  {
    var kNodes, k := [0, 100, 200, 300, KEPT], 0.00000000000000022204460492503128;
    RisingReals(kNodes);
    var nodes := Reals(kNodes);
    assert nodes[0] == 0.0 && nodes[2] < k < nodes[3] < nodes[4];
    SegmentIs(nodes, k, 2);
    CellIs(k, 0);
  }
}
