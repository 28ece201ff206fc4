# Optara: clearing, settlement and off-chain agreement, modelled in Dafny

The project models the parts of Optara whose correctness is an argument over many steps:

- **The clearing protocol**: signed option balances, wrapper tokens, margin accounts, liquidation slices, an insurance
  fund, and a settlement phase (finalize, settle every account, fix one recovery ratio, redeem or claim in any order).
  The authority is the executable reference in `reference/verify_invariants.py` over `reference/pm_model.py`.
- **The margin algebra** under it: worst losses over scenario sets, the union set for initial margin, the short-mark
  buffer, the cash rule of a liquidation slice.
- **The services around it**: the search for the price round in force, the volatility surface (Merkle proofs,
  interpolation, no-arbitrage checks, lookups), the settlement keeper with its replayed ledger, the median of the price
  node, and the indexer of wrapper transfers.

`dafny verify dfyconfig.toml` checks all of it.

## How it is built

| modules | what they hold |
|---|---|
| `Basics`, `Sums`, `Tables`, `Ordering` | rounding, sums over finite maps, two-level tables with their column sums, sorted lists |
| `Margin`, `Scenarios`, `Liquidation` | `account_risk` and `liquidation_cash`, as methods with loops proved equal to functions, the laws of those functions, what a scenario is, and the terms of a slice |
| `Clearing`, `Invariant` | the protocol state as a value, each action as a function to `Done(next)`, `Reverted` or `Raised`, and the inductive invariant |
| `Trading`, `Slices`, `Health`, `Settlement` | what each action keeps, what it does to margins, what settlement guarantees |
| `Calls`, `Takeover`, `Dues` | what each call does and when it goes through, told from balances, money and margins before and after it |
| `Runs`, `Onward`, `Batch`, `Worth`, `Payouts`, `Fairness`, `Leftover` | conservation, safety and the checks over every run, what no action takes back, stepwise settlement against the batch formula, margin's view of settlement, fairness of redemption, what is left in a pool |
| `Scene`, `Shortfall` | concrete runs from an empty protocol: a slice the liquidator cannot pay, and what becomes of it |
| `Counters`, `ProtocolObject` | the class `Protocol`: fields updated in place and counters kept by their differences, every method equal to its function in `Clearing`, and whole runs of it |
| `RoundSearch`, `Merkle`, `Surface`, `Lookup`, `PriceNode`, `Directory`, `Passes`, `Keeper`, `Indexer` | the services |

The five series and three groups of the reference become arbitrary finite maps. Cash, quantities, strikes and prices of
settlement are integers at the source's scales; equity and margins are reals. The option price `black76` is a parameter of
the configuration, of which only non-negativity is used, and in `Scenarios` that it rises or falls with its arguments.

The source checks invariants as it goes and raises when one fails. In `Clearing` every such check is a branch that ends in
`Raised`, with the source's tolerance for INV-13, so that "never raises" is a result: `Runs.StepChecks` lists the only
calls that a check may stop, whatever happened before. In class `Protocol` a check that cannot fire where it stands is an
assertion, and one that can is the out-parameter `raised`: quantities that are no multiple of the lot or negative (INV-6,
INV-13), closes of nothing where there is no entry to change (the source's KeyError), slices that the liquidator's margin does not bear or that exceed the whole position (INV-23, INV-24), payouts of a
group whose pool does not cover its claims (INV-31). Values known before a slice decide about it (`Health.SliceDecided`).

The invariant of the protocol has three layers. `Invariant.Core` holds INV-1, 6, 25, 27 (who has settled) and 33 together
with what makes them inductive - while accounts settle, debts found so far cover every claim not matched by a debt still to
be found - and survives every run. `Invariant.Spared` adds that everybody but the liquidator is solvent (INV-8) and that
once a ratio is fixed the pool covers every outstanding claim at it (INV-31); it survives exactly while no ratio is fixed
on a pool that is a debt beyond what insurance has. `Invariant.Inv` adds the liquidator's own cash and non-negative
collections; it survives exactly while the liquidator can pay the slices that go through.
`ProtocolObject.Protocol.Counted` holds INV-2, 4, 7, 9 and 27. `ProtocolObject.Protocol.Valid` asks for the core and the
counters only, so that all of the class, and the keeper on top of it, covers states with an overdrawn liquidator too.

Main results: no run creates or loses money (`Runs.RunConserves`), every run keeps the core (`Runs.RunSurvives`), and the
stronger layers hold throughout a run exactly when every ratio is backed (`Runs.RunSpares`) and every slice payable
(`Runs.RunSafe`); a group whose debts insurance can cover pays in full (`Settlement.RecoveryRatio`, exactly when); no order
of payouts overdraws a pool (`Runs.PayoutsBounded`); a debtor pays its whole debt unless it is left without cash
(`Dues.SettleDoes`), the ratio is the greatest that the pool covers (`Dues.ComputeRatioDoes`), every token brings its share
(`Dues.RedeemDoes`), the same to everybody (`Fairness.SameForEverybody`), nothing but rounding stays in a pool
(`Leftover.NothingStranded`), and what settlement takes from an account is what
margin said its legs were worth (`Worth.SettlingIsFair`); a slice is paid at fair terms (`Takeover.LiquidateDoes`) and a
scenario's price is today's price in a moved market (`Scenarios.ScenarioIsMarketMove`); settling one by one in any order is the batch formula
(`Batch.StepwiseIsBatch`); the object with its in-place counters follows every run (`ProtocolObject.Protocol.DoAll`) and the
counters are recounts (`Counters.SetBalIsRecount`); a keeper that knows nothing but the ledger's events settles every group
it can, whatever others do between its steps (`Keeper.SettlementKeeper.Tick`); the Merkle proofs are complete and sound
(`Merkle.NodeProofVerifies`, `Merkle.AcceptedLeafIsTheGrids`); the round search and the surface do what they promise on
every input.

## Where the code and its claims differ

- INV-8 (no account's cash is ever negative) is not kept by `liquidate` for the liquidator: nothing checks that it can pay
  when the slice has value. `Shortfall.LiquidatorGoesNegative` is a run from an empty protocol, with the scenario sets,
  buffer, lot and fees of the source, that ends in such a slice with every other check satisfied. `Slices.LiquidateSafe`
  and `Slices.AskDecides` state that a slice keeps the invariant exactly when the liquidator's cash before it covers the
  slice's value less the discount, so that a slice worth no more than its discount is always safe
  (`Slices.WorthlessSliceIsPayable`).
- That shortfall can reach others. `settle` takes `min(cash, debt)`, so an overdrawn liquidator "pays" a negative amount
  into the pool; if insurance cannot make up for it, the ratio is negative (INV-29 bounds it only from above), and a claim
  takes money from the claimant. `Shortfall.OthersCanGoNegative` is such a run; no action refuses any of its steps, only
  the driver's check after each action would have reported INV-8 at the slice. `Settlement.ComputeRatioSafe` and
  `Runs.RunSpares` state that nothing of the kind happens exactly when collected plus insurance is not negative where the
  ratio is fixed.
- INV-13 is checked with a tolerance, and so it is here; without rounding of floats none is needed when the quantity is not
  negative (`Health.UnwrapNotWorse`), which unwraps and closes of the source do not check.
- `toWad` announces rounding to the nearest unit; it keeps nine digits after the point (`Lookup.ToWadIsClose`). The margin
  of `nodesFor` makes up for that for every log-moneyness exactly when the report's nodes leave room, which can be read off
  them (`Lookup.RoundingIsCovered`); `Lookup.CloseNodesCanBeMissed` is a grid on which it does not.
- With margin zero, `nodesFor` leaves out a node that `iv_from_surface` reads exactly when the log-moneyness is an interior
  node (`Lookup.ScanIsCovered`); the value it contributes is multiplied by zero there.
- `findRoundInForce` fails although a round is in force when a phase on the way back to it is empty
  (`RoundSearch.EmptyPhaseHidesRound`) or has 2^63 rounds or more. It promises the round in force, or that there is none.
- A wrapper transfer that arrives before its series is listed is recorded and never applied
  (`Indexer.EachTransferOnce` counts from the listing on). The handler of listings is not guarded against a second delivery
  as the others are: one sets the supply to zero while balances stay (`Indexer.RelistingLosesSupply`).

## Model

| member | source | states |
|---|---|---|
| Basics.CeilDiv | reference/pm_model.py:235-236 | the integer r with (r - 1) * b < a <= r * b, negative dividends included |
| Margin.SumValues | reference/pm_model.py:195-197 | the loop over the legs gives the signed value of the book in a scenario |
| Margin.BucketLosses | reference/pm_model.py:195-201 | the loop over the scenarios gives the worst loss of a bucket, never below zero |
| Margin.GroupByUnderlying | reference/pm_model.py:208-210 | the buckets are exactly the legs of each underlying |
| Margin.SumLosses | reference/pm_model.py:212-213 | the running total over the buckets is the account's total loss |
| Margin.ShortMark | reference/pm_model.py:217 | the loop gives the mark of the short legs |
| Margin.AccountRisk | reference/pm_model.py:204-219 | equity, IM and MM computed by loops are those of the specification |
| Margin.FloorIsWorstOutcome | reference/pm_model.py:195-201 | value less worst loss is the lowest value the bucket takes now or in any scenario |
| Margin.MmAtMostIm | reference/pm_model.py:204-219 | INV-14: 0 <= MM <= IM for every portfolio and every scenario sets |
| Margin.RaisingALegKeepsHealth | reference/pm_model.py:204-219 | INV-13: raising one leg, also from short to long, lowers neither equity - IM nor equity - MM |
| Margin.LegValueMonotone | reference/pm_model.py:159-182 | a longer leg is worth no less, across the switch of the short and long volatilities |
| Margin.LossesScale | reference/pm_model.py:195-219 | INV-41: scaling all quantities by a non-negative factor scales losses and MM by it |
| Margin.MarginsScale | reference/pm_model.py:204-219 | INV-41: scaling all quantities by a non-negative factor scales IM with its short-mark buffer, MM, and equity less cash |
| Margin.LossesAddAcrossUnderlyings | reference/pm_model.py:208-213 | INV-15: portfolios on different underlyings lose exactly the sum of their losses |
| Scenarios.ScenarioIsMarketMove | reference/pm_model.py:159-178 | the price of a leg in a scenario is its price today in a market whose spot, volatility (clamped) and clock have moved by the scenario's amounts, in all three time modes and for stale, payoff-only and finalized legs |
| Scenarios.PresentPrice | reference/pm_model.py:159-182 | today's price is the payoff of a finalized leg, the intrinsic value of a payoff-only long, and otherwise the option price at the spot, with the volatility of the leg's side and the years left |
| Scenarios.NoMoveNoChange | reference/pm_model.py:159-178 | a scenario that moves nothing leaves the price |
| Scenarios.VolScenario | reference/pm_model.py:171 | if the option price rises with volatility, a scenario that raises it makes a leg no cheaper, one that lowers it no dearer |
| Scenarios.SpotScenario | reference/pm_model.py:170 | a scenario with a higher spot makes a call no cheaper and a put no dearer, one with a lower spot the opposite |
| Scenarios.TimeScenario | reference/pm_model.py:172-175 | a scenario near expiry, or after time has gone by, makes a leg no dearer |
| Scenarios.PayoffParity | reference/pm_model.py:56-57 | call and put of one strike: one of them pays nothing, and they differ by spot less strike |
| Scenarios.MarginsOfOneUnderlying | reference/pm_model.py:195-213 | with one underlying MM is the least bound of zero and the losses in the MM set, and IM less the buffer that over both sets |
| Scenarios.EquityAndBuffer | reference/pm_model.py:206-218 | equity is cash and the value of all legs; the buffer is its share of what the long legs are worth more than all legs |
| Liquidation.LiquidationCash | reference/pm_model.py:266-281 | the branching cash rule: what is owed is covered by account, insurance and an unpaid rest, nobody pays more than it has, the rest is unpaid only when both are exhausted, and equity - MM rises by at least sliceMM * (1 - bonus - penalty) |
| Liquidation.SliceCashAddsUp | reference/pm_model.py:266-281 | what is owed is covered by the account, insurance and an unpaid rest, and no one pays more than it has |
| Liquidation.SliceRaisesHealth | reference/pm_model.py:266-281 | INV-22: equity - MM rises by at least sliceMM * (1 - bonus - penalty) in every branch, with equality when paid in full |
| Liquidation.NativeWithinMeans | reference/verify_invariants.py:276-285 | after rounding the account pays at most its cash and insurance at most its balance |
| Liquidation.NativeSliceRaisesHealth | reference/verify_invariants.py:274-296 | rounding costs the account less than two native units of that gain |
| Liquidation.LiquidatorPaysAsk | reference/verify_invariants.py:276-300 | the liquidator pays exactly the slice's value less the discount, rounded down, and nothing when that is not positive |
| Liquidation.LiquidatorGets | reference/verify_invariants.py:276-300 | whatever the account's cash, the liquidator gets what it is owed as far as cash and insurance have it, or pays |
| Liquidation.TermsAreFair | reference/verify_invariants.py:273-305 | with all rounding: the liquidator gets minus the value plus the bonus to a millionth of a native unit, unless account and fund end empty; insurance gets the penalty to a millionth, unless the account ends empty, and pays only then |
| Trading.DepositSafe | reference/verify_invariants.py:126-136 | a deposit that goes through keeps each layer of the invariant and all money |
| Trading.WithdrawSafe | reference/verify_invariants.py:138-149 | a withdrawal keeps each layer of the invariant and all money |
| Trading.FeeSplit | reference/pm_model.py:244-247 | INV-9: no share of a fee is negative, and the treasury's rest is non-negative for every fee exactly when the two shares add up to at most 10000 bps |
| Trading.MintSafe | reference/verify_invariants.py:151-178 | a mint that goes through, of any quantity, keeps each layer of the invariant, INV-1 included, and all money |
| Trading.UnwrapSafe | reference/verify_invariants.py:180-191 | an unwrap that goes through, of any quantity, keeps the invariant |
| Trading.WrapSafe | reference/verify_invariants.py:193-207 | a wrap that goes through, of any quantity, keeps the invariant |
| Trading.CloseWithWrapperSafe | reference/verify_invariants.py:209-219 | a close with wrappers that goes through, of any quantity, keeps the invariant |
| Trading.CloseInternalSafe | reference/verify_invariants.py:221-239 | a close across accounts that goes through, of any quantity, keeps the invariant and the series' net |
| Trading.TransferWrapperSafe | reference/verify_invariants.py:241-246 | a transfer keeps every series' supply and the invariant, finalized or not |
| Calls.DepositDoes | reference/verify_invariants.py:126-136 | a deposit goes through if and only if it is positive and the wallet has it; it moves from wallet to account and nothing else changes |
| Calls.WithdrawDoes | reference/verify_invariants.py:138-149 | a withdrawal goes through if and only if the account has it and, with positions, fresh prices and its margin without it; it moves from account to wallet |
| Calls.FeeIsLeast | reference/pm_model.py:239-241 | the seller fee is the least integer that is at least the minimum and at least 300 bps of the mark |
| Calls.MintFeeIs | reference/verify_invariants.py:160-162 | the mark that the fee is charged on is what margin says the minted short is worth |
| Calls.MintDoes | reference/verify_invariants.py:151-178 | a mint goes through if and only if it is in whole lots, before expiry, with fresh prices, the fee in cash and the margin afterwards; the account is short the quantity, the wallet has the tokens, the fee is split 60/10/30 |
| Calls.UnwrapDoes | reference/verify_invariants.py:180-191 | an unwrap goes through if and only if owner, expiry, tokens and whole lots allow it, and INV-13 a negative quantity; tokens become balance |
| Calls.WrapDoes | reference/verify_invariants.py:193-207 | a wrap goes through if and only if the account has the balance, in whole lots, before expiry, with fresh prices and its margin afterwards; balance becomes tokens |
| Calls.CloseWithWrapperDoes | reference/verify_invariants.py:209-219 | tokens close a short of their owner until the group has its price: if and only if the short and the tokens are there, in whole lots, and INV-13 allows a negative quantity |
| Calls.CloseInternalDoes | reference/verify_invariants.py:221-239 | a long closes a short in another account of the same owner, if and only if both are there and the first keeps its margin |
| Calls.TransferWrapperDoes | reference/verify_invariants.py:241-246 | the sender loses the quantity, the receiver gains it, all other balances stay; it goes through if and only if the sender has it |
| Calls.HealthyMeans | reference/verify_invariants.py:122-123 | healthy is equity at least IM, up to a billionth |
| Calls.ToleratedMeans | reference/verify_invariants.py:409-413 | INV-13 tolerates a millionth of the greatest of 1, the size of IM and the size of equity |
| Calls.LotsAndFreshness | reference/verify_invariants.py:80-120 | whole lots are the multiples of the lot, fresh prices those of every underlying of the row, active is before expiry |
| Takeover.LiquidateDoes | reference/verify_invariants.py:248-316 | a slice moves of each unexpired leg of the underlying the largest whole lots within its share, nothing of other legs; value and margin given away, read off the account's risk before and after, are paid at fair terms with a penalty of 200 bps; the account was below MM and is better off, the liquidator has its margin (INV-22, 23, 24) |
| Slices.MoveIsParts | reference/verify_invariants.py:254-266 | a slice of any size moves unexpired legs of the account in whole lots, and parts of them up to 10000 bps |
| Slices.MovedHeld | reference/verify_invariants.py:312-313 | INV-24: a slice of any size leaves every series' net unchanged |
| Slices.MovedShorts | reference/verify_invariants.py:314 | INV-24: a slice never raises a series' total short |
| Slices.SliceKeepsInv | reference/verify_invariants.py:300-306 | a slice can overdraw nobody but the liquidator; the whole invariant survives if and only if the liquidator's cash does |
| Slices.LiquidateSafe | reference/verify_invariants.py:248-316 | a liquidation of any size keeps core, money and everybody else's solvency, and the whole invariant if and only if the liquidator can pay what the slice asks |
| Slices.AskDecides | reference/verify_invariants.py:271-300 | value, margin and cash before the call decide: the liquidator stays solvent if and only if its cash covers the value less the discount, rounded down |
| Slices.WorthlessSliceIsPayable | reference/verify_invariants.py:271-300 | a slice worth no more than its discount never overdraws the liquidator |
| Shortfall.LiquidatorGoesNegative | reference/verify_invariants.py:248-316 | INV-8 fails: a run from the empty protocol, with the source's lot, fees, scenario sets and buffer, ends in a slice that leaves the liquidator's cash negative |
| Shortfall.MarginCheckFires | reference/verify_invariants.py:306-311 | INV-23 can fire: a run leads to a state in which a slice is raised because the liquidator ends below its own margin |
| Shortfall.OthersCanGoNegative | reference/verify_invariants.py:330-406 | the same run continued through settlement: an overdrawn liquidator settles, the ratio is negative, and a claim leaves another account with negative cash |
| Slices.SliceWithinMeans | reference/verify_invariants.py:276-287 | the liquidated account's cash and insurance stay non-negative (INV-25) |
| Health.DepositNotWorse | reference/verify_invariants.py:126-136 | INV-13 for deposits, whose check never fires |
| Health.UnwrapNotWorse | reference/verify_invariants.py:180-191 | INV-13 for unwraps of any quantity: exactly kept if it is not negative, within the tolerance otherwise; only negative quantities and odd lots are stopped |
| Health.CloseWithWrapperNotWorse | reference/verify_invariants.py:209-219 | the same for closes with wrappers |
| Health.CloseInternalHealth | reference/verify_invariants.py:221-239 | the same for the target of an internal close, and INV-11 for its source |
| Health.MintLeavesHealthy | reference/verify_invariants.py:151-178 | INV-11: the minter ends healthy, although the check saw a zero entry that the ledger removes; only odd lots are stopped |
| Health.WrapLeavesHealthy | reference/verify_invariants.py:193-207 | INV-11 for wraps; only odd lots are stopped |
| Health.WithdrawLeavesHealthy | reference/verify_invariants.py:138-149 | INV-11 for withdrawals |
| Health.MmAtMostIm | reference/verify_invariants.py:424-426 | INV-14 for every account of every state |
| Health.SliceImproves | reference/verify_invariants.py:248-309 | INV-22 in the protocol: the gain in equity - MM exceeds sliceMM * (1 - bonus - penalty) less two native units, for slices of any size |
| Health.OnlyDustIsReverted | reference/verify_invariants.py:289-297 | a slice worth two native units or more after bonus and penalty passes the strict-improvement check |
| Health.SliceDecided | reference/verify_invariants.py:248-316 | values before the call decide a slice: it is turned down if and only if one of the tests fails, never against INV-22; otherwise it goes through if and only if the liquidator's margin with the legs taken over, at the cash left to it, is in order (INV-23) and no total short rises (INV-24), which needs more than 10000 bps |
| Settlement.SettlementIdentity | reference/verify_invariants.py:319-328 | before finalization account nets and wrapper claims sum to zero, at any price |
| Settlement.FinalizeSafe | reference/verify_invariants.py:319-328 | finalization keeps each layer of the invariant and all money; INV-1 never fires |
| Settlement.SettleSafe | reference/verify_invariants.py:330-354 | settling an account keeps each layer of the invariant and all money, also with negative cash |
| Settlement.GrossIsCovered | reference/verify_invariants.py:360-367 | once nobody is left, the gross claim rounded up is at most collected plus unpaid |
| Settlement.RatioIsOne | reference/verify_invariants.py:375 | the ratio is WAD exactly when the pool covers the gross claim; it never promises more than the pool |
| Settlement.RecoveryRatio | reference/verify_invariants.py:356-380 | INV-29, 30, 31: the ratio is at most WAD; negative exactly when collected plus insurance is negative and something is claimed; otherwise WAD exactly when collected plus insurance cover the gross claim, so whenever unpaid is at most insurance; pool = collected + insurance |
| Settlement.ComputeRatioSafe | reference/verify_invariants.py:356-380 | fixing the ratio keeps core and money, leaves other groups in order, and this group's pool covers its claims if and only if collected plus insurance is not negative; INV-29, 30 and 31 never fire |
| Settlement.PayoutCovered | reference/pm_model.py:343-350 | a floored payout fits the pool and leaves the rest of the claims covered at the ratio |
| Settlement.RedeemSafe | reference/verify_invariants.py:382-395 | INV-31: a redemption never overdraws the pool of a group in order, and keeps each layer of the invariant and all money |
| Settlement.ClaimSafe | reference/verify_invariants.py:397-406 | INV-31 for claims |
| Dues.IntegerParity | reference/pm_model.py:296-297 | call and put of one strike in integers: one of them pays nothing, and they differ by price less strike |
| Dues.FinalizeDoes | reference/verify_invariants.py:319-328 | a group is finalized if and only if it has expired without a price; it gets the price and a snapshot of the tokens of exactly its series, as many as accounts are short |
| Dues.SettleDoes | reference/verify_invariants.py:330-354 | an account settles if and only if it holds a series of a group with a price; exactly those series go; collected and unpaid rise together by the least integer covering the debt, unpaid only if no cash is left; a positive net becomes the credit |
| Dues.ComputeRatioDoes | reference/verify_invariants.py:356-380 | the ratio is fixed if and only if price and settlement are complete and it is not fixed yet; insurance adds no more than the claims lack, and all it has unless they are covered; the ratio is the greatest up to 1 that the pool covers |
| Dues.RedeemDoes | reference/verify_invariants.py:382-395 | from a group in order tokens are redeemed if and only if the ratio is fixed and the wallet has them; the wallet gains p with p <= quantity * payoff * size * ratio < p + 1 in native units, the pool loses it, the tokens go |
| Dues.ClaimDoes | reference/verify_invariants.py:397-406 | the same for the credit of an account, once |
| Worth.PayoffIsScaled | reference/pm_model.py:56-57 | the integer payoff of settlement is the payoff of margin at scale 1e18, for calls and puts |
| Worth.FinalizedValueIsNet | reference/verify_invariants.py:100-113 | what margin says the legs of a finalized group are worth, in every scenario, is the net that settlement computes |
| Worth.SettlingIsFair | reference/verify_invariants.py:330-354 | settling takes from a creditor's equity exactly the credit it gets, costs a solvent debtor less than a native unit, and leaves a debtor without cash better off by what it leaves unpaid |
| Runs.StepSafe | reference/verify_invariants.py:126-406 | every action keeps the core; others stay unharmed if and only if no ratio is fixed on a debt, nobody is overdrawn if and only if the slice is payable |
| Runs.StepChecks | reference/verify_invariants.py:126-406 | after any history only these calls can run into a check of the source: odd or negative quantities (INV-6, INV-13), closes of nothing without an entry (KeyError), slices beyond the liquidator's margin or beyond 10000 bps (INV-23, INV-24), payouts of a group whose pool does not cover its claims (INV-31) |
| Runs.StepConserves | reference/verify_invariants.py:126-406 | every action keeps every native unit of money, in any state, overdrawn or not |
| Runs.GenesisInv | reference/verify_invariants.py:56-76 | the initial state satisfies the invariant |
| Runs.RunSafe | reference/verify_invariants.py:415-445 | INV-8: over every run, nobody is ever overdrawn and every pool always covers its claims, if and only if the liquidator can pay each slice that goes through |
| Runs.RunConserves | reference/verify_invariants.py:415-445 | the money at the end of any run is the money at its start, whatever happens on the way |
| Runs.RunSurvives | reference/verify_invariants.py:415-445 | INV-1, 6, 25, 33, non-negative wrapper balances, insurance, treasury and keeper reserve over every run, also with an overdrawn liquidator |
| Runs.RunSpares | reference/verify_invariants.py:330-406 | over every run, all accounts but the liquidator's stay solvent and all pools cover their claims, if and only if every ratio is fixed with collected plus insurance not negative |
| Runs.CoveredRunsPayInFull | reference/verify_invariants.py:356-380 | over every run reaching `compute_ratio`, unpaid at most the insurance balance gives a ratio of WAD, also when a slice could not be paid for |
| Runs.AfterRatio | reference/verify_invariants.py:382-406 | once the ratio is fixed no action changes it or the group's record, but for payouts within the pool and claimed marks |
| Runs.PayoutsAddUp | reference/verify_invariants.py:382-406 | over any run the pool falls by exactly what was paid, and keeps covering its claims if it did |
| Runs.PayoutsBounded | reference/verify_invariants.py:356-406 | over any interleaving, total payouts never exceed collected plus insurance; if that is not negative, no payout is negative and the pool covers what is left to the end |
| Onward.StepOnward | reference/verify_invariants.py:126-406 | no action changes a settlement price or a ratio once fixed (INV-29), adds a participant to a group with a price, or turns time back |
| Onward.RunOnward | reference/verify_invariants.py:415-445 | the same over every run |
| Batch.NetOf | reference/pm_model.py:323 | the net of one account by a loop is its claim |
| Batch.TallyAll | reference/pm_model.py:318-332 | the loop over the accounts gives the closed-form totals, in any order |
| Batch.SettleGroup | reference/pm_model.py:314-340 | the whole of `settle_group` equals its closed form; account by account a debtor left with cash has paid its whole debt, each creditor has its net, insurance adds what is lacking and the ratio is the greatest that the pool covers |
| Batch.OrderIsIrrelevant | reference/verify_invariants.py:330-354 | settling in any order ends in a state that depends only on the set of accounts |
| Batch.SettleOneMore | reference/verify_invariants.py:330-354 | settling one more account adds it to those that have settled |
| Batch.StepwiseIsBatch | reference/verify_invariants.py:330-380 | settling one by one, then the ratio, gives collected, unpaid, credits, draw and ratio of `settle_group`; from a state of the protocol the ratio is fixed and no check fires |
| Payouts.TwoPortions | reference/pm_model.py:343-345 | redeeming in two portions never pays more than whole, and at most one unit less |
| Payouts.Portions | reference/pm_model.py:343-345 | the same for any number of portions, at most one unit less per portion |
| Payouts.SamePerToken | reference/verify_invariants.py:569-580 | INV-32: floored per-token payouts of two redemptions of at least a lot differ by at most WAD / LOT + 1 |
| Fairness.PortionsOrAtOnce | reference/verify_invariants.py:563-580 | INV-32: redemptions of a wallet in portions all go through, pay at most what one redemption of all pays, and at most one native unit less per portion |
| Fairness.SameForEverybody | reference/verify_invariants.py:563-580 | INV-32: two redemptions of a series, by whomever and with any run between them, pay the same per token up to WAD / lot + 1 |
| Leftover.RunSpare | reference/verify_invariants.py:382-406 | INV-31: over any run from the ratio on, the pool less what is owed at the ratio never falls, and rises by less than one native unit per payout |
| Leftover.NothingStranded | reference/verify_invariants.py:563-585 | after a shortfall, when every token is redeemed and every credit claimed, what is left in the pool is less than a native unit per payout and one part in 10^18 of all debts |
| Counters.SetBalIsRecount | reference/verify_invariants.py:79-97 | INV-2 and INV-27: every balance write keeps every counter equal to its recount |
| Counters.ParticipantsZero | reference/verify_invariants.py:356-359 | the participant counter is zero exactly when nobody holds in the group |
| ProtocolObject.BooksBalance | reference/verify_invariants.py:321-324 | INV-1 in the counters: long less short plus supply is zero until finalization |
| ProtocolObject.NetsStay | reference/verify_invariants.py:312-314 | INV-24 in the counters: a slice keeps every net and raises no total short |
| Counters.GiveSupply | reference/verify_invariants.py:171-172 | INV-4: the supply counter follows the wallets' sum |
| ProtocolObject.Protocol.constructor | reference/verify_invariants.py:56-76 | a new object is the initial state before its first deposits, with its counters in order and no event logged |
| ProtocolObject.Protocol.SetBal | reference/verify_invariants.py:79-97 | the single write path: balance and counters change as specified and stay recounts, and one event is logged; INV-6 never fires |
| ProtocolObject.Protocol.Deposit | reference/verify_invariants.py:126-136 | does what the specification says, or nothing, and keeps core and counters, and the whole invariant if it held; INV-13 never fires |
| ProtocolObject.Protocol.Withdraw | reference/verify_invariants.py:138-149 | the same; INV-11 never fires |
| ProtocolObject.Protocol.Mint | reference/verify_invariants.py:151-178 | the same for any quantity, fee split and wrapper supply included; raises exactly where the specification does, INV-11 never |
| ProtocolObject.Protocol.Unwrap | reference/verify_invariants.py:180-191 | the same for any quantity; raises only where the specification does (INV-6, INV-13) |
| ProtocolObject.Protocol.Wrap | reference/verify_invariants.py:193-207 | the same for any quantity; raises only where the specification does (INV-6), INV-11 never |
| ProtocolObject.Protocol.CloseWithWrapper | reference/verify_invariants.py:209-219 | the same for any quantity; raises only where the specification does (INV-6, INV-13) |
| ProtocolObject.Protocol.CloseInternal | reference/verify_invariants.py:221-239 | the same for any quantity; raises only where the specification does (INV-6, INV-13), INV-11 never |
| ProtocolObject.Protocol.TransferWrapper | reference/verify_invariants.py:241-246 | the same; supply unchanged |
| ProtocolObject.Protocol.PickMove | reference/verify_invariants.py:254-266 | the loop picks the whole lots of the slice |
| ProtocolObject.Protocol.PriceSlice | reference/verify_invariants.py:272-285 | the cash of the slice in native units, with the source's reassignments |
| ProtocolObject.Protocol.TakeSlice | reference/verify_invariants.py:300-306 | the effects of a slice, leg by leg |
| ProtocolObject.Protocol.Liquidate | reference/verify_invariants.py:248-316 | the slice of the specification, of any size, or nothing, or INV-23 or INV-24 where the specification raises; keeps the core, and the whole invariant exactly when the liquidator can pay; INV-22 and 25 never fire |
| ProtocolObject.Protocol.Finalize | reference/verify_invariants.py:319-328 | as specified; INV-1 never fires |
| ProtocolObject.Protocol.Settle | reference/verify_invariants.py:330-354 | as specified, closing series one write at a time, also for an overdrawn account |
| ProtocolObject.Protocol.ComputeRatio | reference/verify_invariants.py:356-380 | as specified; others stay unharmed exactly when collected plus insurance is not negative; INV-29, 30 and 31 never fire |
| ProtocolObject.Protocol.Redeem | reference/verify_invariants.py:382-395 | as specified; INV-31 can fire only for a group that is not in order, and then nothing has changed |
| ProtocolObject.Protocol.ClaimCredit | reference/verify_invariants.py:397-406 | as specified; INV-31 can fire only for a group that is not in order, and then nothing has changed |
| ProtocolObject.Protocol.Do | reference/verify_invariants.py:126-406 | any legal action as a transaction: the object goes exactly where the specification goes, or stays as it was if the call is turned down or a check fails |
| ProtocolObject.Protocol.DoAll | reference/verify_invariants.py:588-599 | over any legal run the object ends in the state where the run of the specification ends |
| RoundSearch.RoundIdRoundTrip | sdk/src/settlement.ts:68-70 | phase and round are recovered from a round id |
| RoundSearch.LastRoundOfPhase | sdk/src/settlement.ts:92-107 | returns the number of rounds below 2^63 and gives up exactly above; 2 * floor(log2 n) + 2 probes |
| RoundSearch.FindRoundInForce | sdk/src/settlement.ts:114-142 | returns the last round at or before t with its immediate successor; fails exactly when there is none or a phase on the way is empty or has no end |
| RoundSearch.InForceIsUnique | sdk/src/settlement.ts:109-113 | at most one round is in force |
| RoundSearch.FindableWithoutGaps | sdk/src/settlement.ts:114-142 | on a feed without gaps the search succeeds exactly when the first round is at or before t |
| RoundSearch.EmptyPhaseHidesRound | sdk/src/settlement.ts:131-134 | a feed on which a round is in force and the search fails |
| Merkle.HashPairCommutes | sdk/src/surface.ts:99 | the pair hash does not depend on the order |
| Merkle.NoCollisions | sdk/src/surface.ts:99 | all that soundness asks for is a hash without collisions whose values for leaves and for pairs differ |
| Merkle.ProofVerifies | sdk/src/surface.ts:123-136 | the proof of any node of any layer, carried odd nodes included, leads to the root |
| Merkle.ThreeLeaves | sdk/src/surface.ts:101-117 | the root of three leaves is the pair of the first two, paired with the third |
| Merkle.AcceptedIsALeaf | sdk/src/surface.ts:134-136 | with collision-free hashes an accepted leaf is a leaf of the tree |
| Merkle.NodeProofVerifies | sdk/src/surface.ts:158-169 | every node of a rectangular grid has a proof that verifies |
| Merkle.AcceptedLeafIsTheGrids | sdk/src/surface.ts:134-169 | with collision-free hashes an accepted leaf carries the grid's product, sequence and value at that node |
| Merkle.MerkleTree.constructor | sdk/src/surface.ts:108-117 | the loops build layers of adjacent pairs, an odd node carried |
| Merkle.MerkleTree.Make | sdk/src/surface.ts:108-109 | no leaves, no tree |
| Merkle.MerkleTree.Proof | sdk/src/surface.ts:123-132 | the loop collects the siblings; the proof verifies |
| Merkle.SurfaceGrid.Make | sdk/src/surface.ts:144-152 | row-major leaves and the tree over them; nothing for a grid without nodes |
| Merkle.SurfaceGrid.ProveNode | sdk/src/surface.ts:158-169 | a leaf with its proof exactly for the nodes of the grid |
| Merkle.AssembleGrid | sdk/src/surface.ts:205-208 | a grid exactly for 1-4 tenors, a row and an at-the-money value each, and a leaf for each of at least one node |
| Surface.ReadTenor | reference/pm_model.py:94-103 | the scan over the nodes gives the interpolated value |
| Surface.VarianceWithinGrid | reference/pm_model.py:87-111 | INV-40: total variance stays within the grid's range, and exists exactly inside the tenor range |
| Surface.ExactAtNodes | reference/pm_model.py:94-109 | INV-40: at a node of a tenor it is the grid's value |
| Surface.OnTheChord | reference/pm_model.py:94-103 | INV-40: between two neighbouring nodes the surface is their chord, outside the nodes it is flat |
| Surface.OnTheTimeChord | reference/pm_model.py:105-109 | INV-40: between two neighbouring tenors total variance is the chord in time, at every log-moneyness |
| Surface.VarianceRisesInTime | reference/pm_model.py:105-109 | INV-40: without a calendar violation it never falls with the expiry |
| Surface.KinkViolations | publisher/src/svi.ts:94-99 | lists exactly the interior nodes where the slope falls by more than the tolerance |
| Surface.ConvexIffNoKink | publisher/src/svi.ts:89-99 | a row is convex between its outer nodes if and only if it has no concave kink at tolerance zero |
| Surface.TenorViolations | publisher/src/validate.ts:74-83 | reports exactly what is wrong with tenors and at-the-money variances, and at which tenor; nothing exactly for increasing tenors after the report with rising non-zero variances and zeros behind |
| Surface.NodeViolations | publisher/src/validate.ts:84-86 | reports exactly a wrong number of nodes and each node out of order; nothing exactly for 1-32 strictly increasing nodes |
| Surface.CalendarViolations | publisher/src/validate.ts:108-112 | reports exactly the entries below the one of the tenor before; nothing exactly when there is none |
| Surface.ValidateReport | publisher/src/validate.ts:74-112 | reports exactly the tenor, node, row and calendar violations, and where; nothing exactly when the report is in order |
| Surface.ValidReportHasNoCalendarArbitrage | publisher/src/validate.ts:74-115 | a report without violations has total variance non-decreasing in expiry at every log-moneyness |
| Lookup.Expiries | sdk/src/catalog.ts:124-128 | the distinct listed expiries after a time, increasing; the caller picks the product's series |
| Lookup.ChosenTenors | sdk/src/catalog.ts:135-140 | at most four increasing tenors, all of them expiries, the first and the last included |
| Lookup.EvenlySpaced | sdk/src/catalog.ts:135-140 | with more than four expiries the tenors are the ends and the two as near as can be to a third and two thirds of the list |
| Lookup.ChosenTenorsBracket | sdk/src/catalog.ts:130-140 | every listed expiry is bracketed by the chosen tenors or on one |
| Lookup.FindTenors | sdk/src/math.ts:21-29 | the loops find the first used tenor at or after the expiry, with the one before unless it is met |
| Lookup.FindNodes | sdk/src/math.ts:32-41 | the loop finds the nodes around a log-moneyness; an empty grid is an error |
| Lookup.BracketIsScan | sdk/src/math.ts:21-29 | the looked-up tenors are the ones `iv_from_surface` takes |
| Lookup.LookupIsScan | sdk/src/math.ts:32-41 | interpolating between the looked-up nodes gives what the scan gives |
| Lookup.LookupRefinesReference | reference/pm_model.py:94-109 | total variance by lookups equals that of the reference on every expiry and log-moneyness |
| Lookup.NodesFor | publisher/src/publisher.ts:239-262 | hands out exactly the unproven leaves around some series, by both tenors and the widened node range |
| Lookup.ScanIsCovered | publisher/src/publisher.ts:244-250 | every node the scan reads is in that range, if and only if the margin is positive or the log-moneyness is no interior node |
| Lookup.ToWadIsClose | sdk/src/math.ts:7-13 | `toWad` is off by at most half a billionth |
| Lookup.RoundingIsCovered | publisher/src/publisher.ts:241-250 | every node the scan reads is handed out for every log-moneyness, if and only if no margin + 1 neighbouring nodes with one more beyond them lie in one half of a billionth |
| Lookup.CloseNodesCanBeMissed | publisher/src/publisher.ts:241-250 | a grid with three nodes within half a billionth, and ln(1 + 2^-52) as the log-moneyness, for which margin one is not enough and margin three is |
| PriceNode.SortIsSorted | pricenode/src/index.ts:88-91 | sorting orders the prices and keeps how many lie in any interval |
| PriceNode.MedianOfMajority | pricenode/src/index.ts:88-92 | the median lies wherever a strict majority does |
| PriceNode.MedianIsMiddle | pricenode/src/index.ts:88-92 | the median is the price in the middle, or the mean of the two there |
| PriceNode.RankIsOne | pricenode/src/index.ts:88-92 | at each place of the order there is one price, so the one or two in the middle are determined |
| PriceNode.NearBounds | pricenode/src/index.ts:99 | an answer is near a price if and only if it lies within the deviation limit on both sides of it |
| PriceNode.AggregateIs | pricenode/src/index.ts:95-102 | nothing answered, too few near the raw median, or each positive answer near it counted as often as it was given and nothing else |
| PriceNode.MajorityDecides | pricenode/src/index.ts:95-102 | a strict majority within the deviation limit is priced, loses no member, and contains the price |
| PriceNode.PriceIsNearMedian | pricenode/src/index.ts:95-102 | exactly the answers within the limit of the raw median are used, at least the required number; the price is their median and lies within the limit too |
| Directory.ReplayIsLast | sdk/src/ledger.ts:43-47 | replaying logs leaves the last logged balance of each account and series |
| Directory.LedgerLogDirectory.Sync | sdk/src/ledger.ts:31-50 | catches up in chunks; every log since the start has been applied once, in order |
| Directory.LedgerLogDirectory.SyncedExtends | sdk/src/ledger.ts:31-50 | a longer chain leaves the directory in sync, so any sequence of syncs replays each log once |
| Directory.LedgerLogDirectory.Holders | sdk/src/ledger.ts:52-56 | the accounts with a non-zero balance in one of the series, sorted, each once |
| Directory.LedgerLogDirectory.WithPositions | sdk/src/ledger.ts:58-60 | the accounts with a non-zero balance anywhere |
| Directory.DirectoryKnowsHolders | sdk/src/ledger.ts:12-20 | with the ledger's balances being what its events leave, a replay of the events lists exactly the participants of a group |
| Directory.EmitOne | sdk/src/ledger.ts:15-18 | each balance write with its event keeps the balances equal to what the events leave |
| Directory.LedgerLogDirectory.CaughtUp | sdk/src/ledger.ts:31-50 | having caught up, a directory started before the first event has replayed every event |
| Keeper.SettlementKeeper.Participants | keepers/src/settlementKeeper.ts:82-95 | syncing with the chain and asking for holders gives exactly the group's participants |
| Keeper.SettlementKeeper.Meanwhile | keepers/src/settlementKeeper.ts:1-5 | any legal actions of others move the ledger onward, with every event logged; none, and it stays as it is |
| Keeper.SettlementKeeper.PickPending | keepers/src/settlementKeeper.ts:95-101 | the next batch: listed accounts that still hold, all of them if fewer than a batch |
| Keeper.SettlementKeeper.SettleBatch | keepers/src/settlementKeeper.ts:106 | one transaction, before which others may act: if it goes through, none of the pending accounts takes part any more; if nobody acted, exactly these have settled |
| Keeper.SettlementKeeper.SettleParticipants | keepers/src/settlementKeeper.ts:82-113 | whatever others do, it ends with nobody left if there is no error, or if all transactions go through and the list was complete; it sends one transaction per batch and stops at the first that fails; if others do nothing, the participants settle in as few batches as their size allows, and there is no error exactly when nobody is left |
| Keeper.SettlementKeeper.TryFinalize | keepers/src/settlementKeeper.ts:56-79 | flags a stalled oracle that is not flagged yet, and sends a finalization exactly with a provable price at the time for it; the error tells which is missing; the group then has a price if the transactions go through, whoever was first; if others do nothing, it finalizes exactly then |
| Keeper.SettlementKeeper.TryRatio | keepers/src/settlementKeeper.ts:121-127 | once everybody has settled: if the transaction goes through, the ratio is fixed, by it or before it |
| Keeper.SettlementKeeper.TickGroup | keepers/src/settlementKeeper.ts:52-129 | whatever others do: once the group has a price, no error means that it is on the done list, and all transactions going through that its ratio is fixed. If they do nothing, all n participants settle in ceil(n / batch) batches, then the ratio is fixed once, from the ledger's events alone, and all other groups are left alone |
| Keeper.SettlementKeeper.Tick | keepers/src/settlementKeeper.ts:46-132 | the same for all groups of a pass, with others acting between any two steps, and no ratio is ever fixed while a participant is left; if they do nothing and all transactions go through, every group that could complete at the start reports no error, all n participants and ceil(n / batch) batches |
| Indexer.WrapperIndexer.OnTransfer | indexer/src/handlers/Wrapper.ts:5-25 | one delivery changes the stored state as specified |
| Indexer.WrapperIndexer.OnSeriesCreated | indexer/src/handlers/Registry.ts:61-80 | a listing makes the wrapper known with supply zero, also when it was known |
| Indexer.SupplyAlwaysHeld | indexer/src/handlers/Wrapper.ts:10-23 | the supply of a wrapper listed once is the sum of its holders' balances, after any deliveries |
| Indexer.SupplySinceListing | indexer/src/handlers/Registry.ts:61-80 | in general supply is what the holders have more than at the last listing, so it is their sum exactly when they had nothing then |
| Indexer.RelistingLosesSupply | indexer/src/handlers/Registry.ts:61-80 | a listing delivered twice leaves supply zero and balances as they were |
| Indexer.EachTransferOnce | indexer/src/lib.ts:10-19 | a balance is the sum of the effects of the transfers whose first delivery follows the listing of their wrapper, each once |
| Indexer.CountedAre | indexer/src/lib.ts:10-19 | the transfers that count are exactly the first deliveries after a listing |
| Indexer.DeliveryOrderIsIrrelevant | indexer/src/lib.ts:10-19 | any order and repetition of the same transfers gives the same balances and supply of a wrapper that is listed once, before them |

## Left out

- Option pricing: `black76`, the normal distribution functions and the volatility clamp at the end of `iv_from_surface` are parameters or stop at total variance; floats are reals, so no float error.
- Regression switches: `legacy_buffer` and `union=False` of `account_risk` reproduce an earlier draft only.
- Nested dictionaries: an account's cash and balances, and a wallet's stablecoins and wrappers, are parallel maps keyed alike; aliasing of the inner dictionaries is not modelled.
- Settlement token: the state machine fixes six decimals, as the reference does; the payout formulas are proved for any scale.
- Random drivers: `random_step`, `expiry_phase` and `verify_math.py` are replaced by every sequence of legal actions.
- ProtocolObject.Protocol.constructor: the deposits that the source's constructor makes are later actions.
- After a check has failed: a run of the source stops there; the object's methods then promise its counters and, for payouts, that nothing changed, and `Do` puts everything back, as the contracts do.
- Lookup.NodesFor: coordinates of leaves; their data and proofs are those of `Merkle.SurfaceGrid.ProveNode`.
- Surface.VarianceWithinGrid: total variance, before the square root and the clamp of the volatility.
- Merkle.AcceptedLeafIsTheGrids: hashes are numbers without a width and collision-free outright; keccak and ABI encoding are parameters.
- Surface.ValidateReport: domain, sequence, time, volatility bounds, leaf volatilities and the move against the stored surface are single comparisons and left out, and so is the sampled density test of `butterflyViolations`.
- Calibration: Nelder-Mead, SVI fitting and confidence are numerical searches without an exact claim.
- Foreign calls: EIP-712 signing, RPC, HTTP servers, Postgres, Pyth and RedStone are parameters or absent; a keeper's transaction goes through or not by a parameter.
- Directory reorganisations: blocks once replayed are final.
- Keeper.SettlementKeeper.PickPending: the ledger is read for a whole batch at one moment; others act before it and after it.
- Oracle during a pass: what it can prove for a group, and from when on, does not change while the group is worked on.
- Settlement proofs: leg skew, decimals and the oracle's own re-check of a round are not part of this model.
- Frontend, deployment scripts, watchdog, messaging and generated interfaces: no behaviour to prove.
