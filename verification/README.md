# Paper execution ledger and point-in-time replay

A model of two engines of the trading backend and of a few algorithms around them, with proofs.

**The paper execution ledger.** Fills are admitted once, booked by a one-way average-cost
allocator and never rewritten. Everything else (the account, order rows, the journal, dashboard
snapshots, as-of reads) is derived from them. Orders reach a provider through a sequence of
short transactions with provider calls in between, and a paper simulator fills them from closed
one-minute candles.

**Point-in-time replay.** Resampled candles, indicators, swing points, price zones and structure
breaks are kept by append-only state machines that must equal a recomputation from scratch and
must never look at later candles; the backtest loop shows a strategy only closed candles.

**Around them.** The history bootstrap pages candles from a provider into a cache, alignment is
checked in batches by a native core that is never trusted, and the files an algorithm is
identified by are found by following imports.

How it is laid out, one module per file:

| modules | what they hold |
|---|---|
| `DecimalPolicy` | decimals as coefficient and exponent, the computed precisions, exactness and rounding |
| `ExecutionModels`, `Accounting`, `TradeProjection` | accounts, trades, positions, fills; the fill transition; replay and display figures |
| `LedgerInvariant`, `LedgerHistory` | what every reachable account satisfies and what holds over whole runs, for any division function |
| `Acceptance`, `Balances` | exactly which fills an account accepts, and what they cost it |
| `PartialCloses`, `OverdrawnClose` | when rounding lets a partial close release more basis than is held, and a run where it does |
| `Repository`, `AsOf` | idempotent admission, the ledger invariant, reads as of a cutoff |
| `Journal`, `JournalHistory`, `JournalCapture`, `ChartRequests`, `JournalRebuild`, `JournalReads`, `JournalLaws`, `DisplayedFigures`, `LostRequests`, `ClosedAccounts` | derived rows: live capture, rebuild, reads, the audit they must agree with, what rows and displays say of the fills, and journals that do not come back |
| `Gateway`, `Observation`, `ObservationBatches`, `ObservationRuns`, `ObservationRefusals`, `Protocol` | order transactions, closed-candle observation, every interleaving of them |
| `OrderGuards`, `Answers`, `SimulatedFills`, `FillOrders`, `ReduceOnly`, `RenamedOrders` | when orders and fills are refused, what provider answers do, what the simulator fills, and every fill against its order |
| `Timeframes`, `Resampling`, `IncrementalResampling`, `ResamplingCoverage`, `ResampledBars`, `LongVolumes` | the candle grid, batch and incremental resampling, and what a bar summarizes |
| `Indicators`, `IncrementalIndicators`, `IndicatorLaws` | MACD and ATR: the reference calculation, the incremental state, and the numbers they give |
| `Visibility`, `Backtest`, `Evaluations` | what a replay may see at a moment; the backtest loop; which signals it has evaluated |
| `Swings`, `SwingLaws`, `Zones`, `Breaks`, `ReferenceBreaks`, `BreakLevels`, `IncrementalStructure`, `StructureHistory`, `RoundedZones` | market structure: the reference detectors, the incremental state, when it depends on earlier calls, and what rounding does to zone bounds |
| `History`, `Bootstrap` | one fetched range; the cache around it |
| `Alignment`, `Closure` | batched alignment with a native core; import closure |
| `Sorting`, `Wrappers` | ordered and filtered queries; optional values and outcomes |

Conventions. Times are integer microseconds since the epoch. Inside the ledger amounts are the
exact numbers they stand for, and division is an arbitrary function, so nothing proved there
depends on how an average cost was rounded; `DecimalPolicy` separately shows what the real
division computes and when the other operations are exact. The digits of a price or quantity are
kept where the code looks at them (instrument units, stored payloads). A table is a map or a
sequence, a hash is the content it stands for, a transaction under the account lock is one step,
and a refused transaction leaves no trace. Clocks, identifiers drawn at random, provider answers
and the physical order of table rows are arbitrary.

## What turned out to be false, and exactly when

- *A stored fill can always be replayed.* Payloads are stored as positional text, so a quantity
  written `1E+1` gains a digit. `StoredUnits` gives the condition (the positional digits still
  fit the instrument), `AsOfIsHistory` and `RebuildRestores` carry it as the exact condition for
  an as-of read or a rebuild to succeed, and `ExponentNotationBreaksReplay` is a concrete fill
  that is admitted and then cannot be replayed.
- *A cancelled order says so.* The answers of two concurrent cancellations may be saved in either
  order, and the later one overwrites the status. `LateAnswerDisagrees` gives the exact condition
  and an instance.
- *A fill keeps the external identifier of its order.* An order still UNKNOWN may already carry an
  identifier and be filled under it, and the next receipt replaces it. `AgreeStep` says exactly
  which steps do this, `EveryFill` that all fills agreed all along if and only if none did,
  `PlainProviders` that a provider which names an order only when it acknowledges it is safe, and
  `FillIsRenamed` is a run of four steps in which it happens.
- *A partial close never overdraws the basis.* Rounding may release more than is held, and the
  schema then refuses the fill. `RefusedExactly` says when, and `OverdrawsExactly` which closes of
  which positions it can happen to: the condition is on the two quantities alone, so a caller can
  check it beforehand. `OverdraftIsReachable` is a run of three ordinary fills that ends so.
- *A rebuild restores the journal as it was.* Live capture admits a chart request on receipt of
  its fill, a rebuild admits the requests it has to repeat at its own time, and reads as of a
  moment in between do not list them. A closed account admits no request at all: if one was lost,
  the whole rebuild is refused and nothing comes back. `RebuildRestores` says exactly when a
  rebuild is refused and what it gives otherwise, `RebuildIsReference` exactly when nothing
  differs, `RepeatedRequestsAreLate` what readers see. `LostRequestIsLate`, `LostOnClosedAccount`,
  `OneFillIsLate` and `ClosedAccountIsRefused` are failing inputs.
- *The bucket of a moment contains it.* Intraday buckets count whole seconds, taken by truncating
  the nearest double. A fraction of a second that ends on a boundary is therefore put in the next
  bucket: before the epoch unless the double rounds it to the boundary, and after it only if the
  double does. `BucketIsGridCell` gives the exact condition, `NoneIsLate` shows that no double
  rounds a fraction away within 2^34 seconds of the epoch (1425 to 2514), and `LastMicrosecond`
  and `LostMicrosecond` are instances.
- *Incremental resampling equals the batch for every target.* For the source timeframe itself the
  batch returns the candles untouched while the incremental state adds each volume to zero;
  `SourceItself` shows they agree exactly when that sum gives every volume back, and
  `SourceDiffers` is a volume that rounding changes.
- *A damaged cache file is rebuilt.* Rows that can be read but have a gap raise a pagination
  error, which is not taken for corruption: `UnusableCacheIsReplaced` shows that an unusable
  cache file is treated as absent, whatever the provider, exactly unless its rows have such a gap,
  and `GapIsNotReplaced` is such a file, on which every request fails.
- *An incremental indicator report is the reference's.* The reference refuses candles that are
  not in order and the incremental state never looks; the contract of `IndicatorState.Result` says
  that they agree exactly on candles in order, and `WrongWayRound` is an instance.
- *An append to the structure state does not depend on earlier calls.* A refused zone ends an
  append halfway: the candle is kept and the swing is listed as confirmed, but the zones, the
  pending indices and the events are not updated. An append that extends these candles carries on
  from there, and the skipped swing never gets its zone. `HistoryIndependence` shows, for every
  history, that an append ends like the same append to a new object exactly unless it is a valid
  source that extends candles for which a zone was refused; `RefusedThenAccepted` that the refused
  call, repeated, returns normally; `SecondAppendIsAccepted` is an instance with three candles.
- *A zone moved in place is the zone the reference builds.* The incremental state takes the
  padding off a kept bound, compares, and puts it on again, each time at the precision of decimals;
  the reference widens the least and greatest price once. `RoundedZonesAgree` shows, for every
  history and every monotone rounding, that the zones are the same after each swing exactly if each
  swing opens a zone or its touch settles: the kept bound survives taking the padding off and on,
  or the new price is beyond it. `DecimalsAreMonotone` shows that twenty-eight digits are such a
  rounding, and `SecondTouchSlips` is an instance on them.

## Model

| member | source | states |
|---|---|---|
| DecimalPolicy.AddIsExact | backend/app/execution/decimal_policy.py:24-30 | for all finite decimals the precision computed in `add` loses nothing: the result has exactly the value of the sum |
| DecimalPolicy.SubtractIsExact | backend/app/execution/decimal_policy.py:33-34 | subtraction is exact for all finite decimals |
| DecimalPolicy.MultiplyIsExact | backend/app/execution/decimal_policy.py:37-39 | the product of two finite decimals is exact at width + width + 1 digits |
| DecimalPolicy.TerminatingDivisionFits | backend/app/execution/decimal_policy.py:42-52 | a quotient has a finite decimal expansion if and only if it fits in 4 * (both widths + the distance of the exponents) + 10 digits, so the Inexact fallback is taken exactly for non-terminating quotients |
| DecimalPolicy.DivideIsValueFunction | backend/app/execution/decimal_policy.py:42-55 | the value of `divide` is a function of the values of its operands, not of how they are written: the quotient itself if it has a finite expansion, otherwise that quotient rounded to 50 significant digits, half to even |
| DecimalPolicy.QuotientError | backend/app/execution/decimal_policy.py:53-55 | the relative error of a rounded quotient is at most half of 10^-49 |
| DecimalPolicy.NormalizeValue | backend/app/execution/decimal_policy.py:58-63 | canonical text keeps the value |
| DecimalPolicy.NormalizeIsCanonical | backend/app/execution/decimal_policy.py:58-63 | two decimals have the same canonical text if and only if they have the same value |
| DecimalPolicy.NormalizeShrinks | backend/app/execution/decimal_policy.py:58-63 | canonical text never has more digits or places, unless the exponent is positive |
| TradeProjection.ReplayMemberships | backend/app/execution/trade_projection.py:21-36 | the replay loop computes the fold of `apply_fill` with the membership of every fill, and stops at the first refusal |
| TradeProjection.ReplayIsRun | backend/app/execution/trade_projection.py:21-36 | replaying is the plain accounting fold whenever every fill is representable on its instrument |
| TradeProjection.FillDisplayLoop | backend/app/execution/trade_projection.py:39-53 | the accumulating loop gives lifetime quantities and averages over the fills of a trade, or refuses inconsistent membership |
| DisplayedFigures.ReachableFigures | backend/app/execution/trade_projection.py:39-53 | the figures of any trade of any reachable account: with an exact division the averages times the quantities are the sums of price * quantity over entry-side and exit-side fills, so a closed trade shows its gross result as signed quantity times the difference of its averages; an exit average is there exactly if an exit-side fill is; the status follows from exits and the closing time |
| LedgerInvariant.SettleKeeps | backend/app/execution/accounting.py:10-79 | one admitted fill keeps the ledger invariant, for every division function: distinct trades and positions, every trade the exact sum of its own fills, cash the sum of net results; and its membership is found |
| LedgerInvariant.ReachableOk | backend/app/execution/accounting.py:10-79 | every account reachable by fills with distinct event identifiers satisfies the ledger invariant |
| LedgerInvariant.MembershipNeverMissing | backend/app/execution/trade_projection.py:21-28 | in a reachable run the lookups by symbol and trade never miss: a run fails only where the transition refuses the fill |
| LedgerHistory.PnlIsPathIndependent | backend/app/execution/accounting.py:31-69 | gross result = exit notional - (entry notional - remaining basis) at every reachable state (negated for a short), hence exactly exit - entry once closed, whatever rounding did on partial closes |
| LedgerHistory.CashIsConserved | backend/app/execution/accounting.py:75-79 | cash = initial balance + sum over trades of gross - fees, and the fees of a trade are the sum of its own fills' fees |
| LedgerHistory.PositionsMatchTrades | backend/app/execution/accounting.py:26-74 | at most one position per symbol, bound to its own trade, holding a quantity exactly while that trade is open; every open trade has its position |
| LedgerHistory.ClosedForever | backend/app/execution/accounting.py:66-70 | a trade closed at any point of a run is the same record at every later point |
| LedgerHistory.RunInOrder | backend/app/execution/accounting.py:20-25 | admission order is fill order, sequence order and receipt order at once |
| Acceptance.AcceptedExactly | backend/app/execution/accounting.py:10-79 | after any run a fill is accepted if and only if it is well-formed and in scope, fits its instrument, lies behind no fill booked so far in receipt time, fill time and sequence, and is covered: against an open position by the quantity held and the basis it releases, otherwise by the cash that no basis holds, on the instrument of the position it adds to |
| Balances.OpeningRefused | backend/app/execution/accounting.py:34-36 | a fill in scope, in order and representable that meets no opposite position is refused for lack of balance exactly if price * quantity plus its fees exceeds cash minus the bases held |
| Balances.ClosingRefused | backend/app/execution/accounting.py:54-57 | such a fill against an opposite position is refused as an over-close exactly if it is for more than is held |
| Balances.OpeningTakesItsCost | backend/app/execution/accounting.py:34-52 | an accepted fill that meets no opposite position takes exactly its cost from the cash that no basis holds, which stays at least zero |
| Balances.RaisedWithinBalance | backend/app/execution/accounting.py:34-79 | whatever fill is accepted, if more collateral is reserved after it than before, the available balance is not negative |
| PartialCloses.OverdrawsExactly | backend/app/execution/accounting.py:58-65 | over every basis a position may hold, releasing the rounded average times the quantity sold never exceeds the basis exactly when the inverse of the held quantity is a decimal or sold * (1 + 10^-49) <= held * (1 + half of 10^-49) |
| PartialCloses.RefusedExactly | backend/app/execution/accounting.py:53-79 | a partial close in scope and in order is refused exactly when it would release more basis than is held, whatever the division |
| PartialCloses.AcceptedOverEveryBasis | backend/app/execution/accounting.py:53-79 | with the policy's division it is accepted over every basis exactly under that condition, which a caller can check before submitting |
| OverdrawnClose.OverdraftIsReachable | backend/app/execution/accounting.py:53-79 | a concrete run on an ordinary instrument: two purchases are booked, then the sale of part of the position, which fits the instrument, is refused because rounding releases more basis than is held |
| Repository.SettleStored | backend/app/execution/repository.py:199-219 | the accounting transition cannot tell a fill from its stored payload |
| Repository.AdmitKeeps | backend/app/execution/repository.py:171-222 | admission, new or repeated, keeps the ledger invariant: the account is the fold of the stored fills, identities stay unique, filled quantities are sums of fills within the intent |
| Repository.RepeatedAdmissionIsIdle | backend/app/execution/repository.py:176-184 | every later delivery of an admitted fill, with any event identifier and receipt time, returns the stored fill and changes nothing |
| Repository.StoredUnits | backend/app/execution/models.py:69-82 | a fill the instrument accepted is accepted again from storage exactly when its positional digits fit, which always holds without positive exponents |
| Gateway.Store.AdmitFill | backend/app/execution/repository.py:171-222 | the in-place update of fills, order row and account is the admission function, and a refusal changes nothing |
| AsOf.QueryIsPrefix | backend/app/execution/gateway.py:91-95 | filtering by receipt and sorting by fill time and sequence returns the prefix of the ledger received by the cutoff, in whatever order the table is stored |
| AsOf.ReplayLoop | backend/app/execution/gateway.py:96-102 | the replay loop of an as-of read is the fold of `apply_fill` over the selected rows |
| AsOf.AsOfIsHistory | backend/app/execution/gateway.py:76-106 | for every ledger, table order and cutoff the read succeeds exactly when every fill received by the cutoff still fits its instrument, and then returns the account that held after the last of them |
| AsOf.ExponentNotationBreaksReplay | backend/app/execution/models.py:69-82 | a concrete fill that is admitted live and refused on replay |
| Journal.Store.CaptureFill | backend/app/journal/capture.py:10-48 | the tables updated step by step hold what the capture function says, with the same first refusal; a new chart request is admitted at the given time or else on receipt |
| Journal.Store.CaptureDashboard | backend/app/journal/dashboard_reads.py:90-126 | the snapshot loop with its previous-row query is the snapshot function |
| Journal.LatestRow | backend/app/journal/dashboard_reads.py:92-95 | a scan finds the visible row with the greatest sequence |
| JournalHistory.JournalRows | backend/app/journal/capture.py:10-48 | the reference journal holds exactly one reference, trade state and snapshot per fill, each as of that fill |
| JournalHistory.JournalGrows | backend/app/journal/readmodel.py:35-50 | a later journal only adds rows |
| JournalLaws.JournalSays | backend/app/journal/capture.py:10-45 | the journal of any admitted fills has, for every trade and nothing else, a header and an entry chart request as of its first fill, and an exit chart request exactly if the trade is closed, as of the fill that closed it; every fill is referred to its trade, entering on the side of its direction and leaving on the other |
| JournalCapture.SourceIs | backend/app/journal/dashboard_reads.py:107-112 | the query for a trade's fills returns exactly those booked so far, whatever later fills the table already holds |
| JournalCapture.DisplayCarries | backend/app/journal/dashboard_reads.py:103-105 | carrying over the display of an untouched symbol gives what recomputing it would |
| JournalCapture.DisplayForFresh | backend/app/journal/dashboard_reads.py:103-115 | every captured display, carried or recomputed, is the fill display over all the trade's fills so far, and it is never refused |
| JournalCapture.FreshValid | backend/app/journal/dashboard_reads.py:70-81 | the snapshot of a reachable account always passes its membership validation: remaining quantity = position quantity, closed exactly when zero |
| JournalCapture.CaptureStep | backend/app/journal/capture.py:10-48 | a live capture over any surviving rows adds exactly the rows that are due and raises no conflict; it is refused exactly when the account is closed and lacks a chart request due by that fill |
| JournalRebuild.LiveCaptureIsDue | backend/app/execution/repository.py:219-222 | after every admission live capture succeeds, keeps the requests that were there and admits new ones on receipt; the reference journal of the old ledger becomes that of the new one |
| JournalRebuild.RebuildRestores | backend/app/journal/service.py:120-143 | whatever part of the journal is lost, on an active or a closed account, a rebuild restores the reference journal, in which exactly the chart requests it had to repeat are admitted at its own time; it is refused exactly when a stored fill no longer fits its instrument or the account is closed and a chart request was lost |
| JournalRebuild.RebuildIsReference | backend/app/journal/service.py:120-143 | what survives of the reference journal is rebuilt to exactly the reference journal if and only if every stored fill still fits and no chart request was lost, except, on an active account, of fills received at the time of the rebuild |
| JournalReads.RequestsAsOf | backend/app/journal/readmodel.py:156-162 | the chart requests visible as of a cutoff are those the journal held at that time, except those a rebuild repeated after the cutoff |
| JournalReads.RepeatedRequestsAreLate | backend/app/journal/readmodel.py:156-162 | after any rebuild that is not refused, a request is visible as of a cutoff exactly if the journal held it at that time and it had survived or the rebuild had happened by then |
| LostRequests.LostRequestIsLate | backend/app/journal/service.py:120-143 | rebuilding the lost journal of any active account with a fill, at any time but the receipt of the first fill, does not give the reference journal |
| LostRequests.LostOnClosedAccount | backend/app/journal/capture.py:31-45 | rebuilding the lost journal of any closed account with a fill is refused as closed, at any time |
| LostRequests.OneFillIsLate | backend/app/journal/service.py:120-143 | a concrete account with one fill whose rebuilt request is admitted late |
| ClosedAccounts.ClosedAccountIsRefused | backend/app/journal/capture.py:31-45 | a concrete account, flat and closed after two fills that still fit, whose lost journal no rebuild gives back |
| ChartRequests.CapturedPromptly | backend/app/journal/capture.py:35-45 | the admission time changes nothing but the new requests: a capture has the outcome it would have with every request admitted on receipt |
| JournalRebuild.DeleteAndRebuild | backend/app/journal/service.py:145-179 | deleting read states and snapshots and rebuilding gives the same journal back, chart requests included, on a closed account too |
| JournalRebuild.Rebuild | backend/app/journal/service.py:145-179 | the recovery loop over the tables is the recovery function at the time of the rebuild, including the final comparison with the stored account |
| JournalReads.DashboardIsAsOf | backend/app/journal/dashboard_reads.py:229-247 | the dashboard as of a cutoff shows the account as it stood then, with recomputed figures per position |
| JournalReads.DetailIsAsOf | backend/app/journal/readmodel.py:121-184 | a trade's detail as of a cutoff is its record in the account of that time with exactly its fills so far; missing exactly when that account has no such trade, and never refused otherwise |
| JournalReads.DetailIsAudit | backend/app/journal/service.py:35-113 | the indexed detail of every trade equals the entry of the full-history audit replay |
| DisplayedFigures.DashboardFigures | backend/app/journal/dashboard_reads.py:229-247 | every dashboard as of a cutoff shows for each position the figures above over the fills of its trade up to then |
| DisplayedFigures.DashboardBalances | backend/app/journal/dashboard_reads.py:229-247 | and as reserved the sum of the bases held, as realized the sum of the gross results, as cash the initial balance with those results less all fees, as available the cash not reserved |
| DisplayedFigures.DetailFigures | backend/app/journal/readmodel.py:121-184 | every trade detail, as of a cutoff or current, shows the figures above over the fills it lists |
| Gateway.Store.SubmitOrder | backend/app/execution/gateway.py:115-143 | a command already accepted is answered with its order or refused as changed; a new one gets the next command sequence, is bound to the position it reduces, and is rejected at once if it would over-close |
| Gateway.Store.SaveSubmission | backend/app/execution/gateway.py:155-169 | only an order still UNKNOWN takes a receipt; an acknowledgment without identifier counts as UNKNOWN |
| Gateway.Store.SaveCancellation | backend/app/execution/gateway.py:193-205 | the cancellation time is set once, only for a cancelled and not fully filled order |
| Gateway.LateAnswerDisagrees | backend/app/execution/gateway.py:193-205 | a cancelled order keeps saying so exactly when the answer being saved is CANCELLED or it was not cancelled before; with an instance where it stops |
| OrderGuards.NewCommand | backend/app/execution/gateway.py:129-145 | a new command in any reachable ledger becomes one order for what was asked; it is reduce-only exactly if it meets a position on the other side, then bound to that trade, and rejected at once, so never dispatched, exactly if it is for more than that position holds |
| OrderGuards.RepeatedCommand | backend/app/execution/gateway.py:123-128 | over every interleaving, a command accepted before and sent again is answered with its order, without a change or a dispatch, if it asks for the same however its numbers are written, and is refused as changed otherwise |
| Answers.ReceiptMoves | backend/app/execution/gateway.py:155-169 | a receipt is taken by an order still UNKNOWN and by no other: status, external identifier and reason are the receipt's, except that an acknowledgment without identifier leaves it UNKNOWN; nothing else moves |
| Answers.CancelledExactly | backend/app/execution/gateway.py:193-205 | over every step an order becomes cancelled exactly if an active account takes the answer CANCELLED for it before its fills add up to the intent, and then at the time of that answer |
| OrderGuards.FillGuards | backend/app/execution/repository.py:192-207 | in any reachable ledger a valid new fill is refused as not its order's exactly if it does not fit it; a fitting fill of a reduce-only order as stale exactly if the trade it was bound to no longer holds as much, and one of another order exactly if it meets a position on the other side |
| Protocol.StepKeeps | backend/app/execution/gateway.py:115-297 | every step of every client keeps the world invariant and moves orders only forward |
| Protocol.RunsMoveForward | backend/app/execution/gateway.py:115-297 | over every interleaving, with lost messages: the first receipt other than UNKNOWN stays, only a refused fill rejects an acknowledged order, a cancellation time is set once, filled quantities never shrink, fills are never lost |
| Protocol.DispatchedAtMostOnce | backend/app/execution/gateway.py:115-153 | no two dispatches in the history of an account carry the same order or the same command |
| Protocol.FilledIsSumOfFills | backend/app/execution/repository.py:214-216 | in every reachable world the filled quantity is the sum of the order's admitted fills and at most the intent |
| Protocol.EveryAccount | backend/app/execution/gateway.py:115-297 | from a new account on, over every interleaving: filled quantities are the sums of admitted fills within the intents, and no two dispatches carry the same command |
| ReduceOnly.EveryOrderActs | backend/app/execution/repository.py:201-208 | from a new account on, over every interleaving: a fill leaves a trade exactly if its order is reduce-only, and then it leaves the very trade that order was bound to when it was submitted |
| FillOrders.EveryFill | backend/app/execution/repository.py:196-200 | from a new account on, over every interleaving: every stored fill has the side, symbol and instrument of its order and came after its acceptance; and every fill has had its order's external identifier all along if and only if no receipt has renamed a filled order |
| FillOrders.AgreeStep | backend/app/execution/gateway.py:155-169 | a step keeps every fill under its order's external identifier exactly if it is not a receipt that gives an order still UNKNOWN, with a fill, another one |
| FillOrders.PlainProviders | backend/app/execution/gateway.py:155-169 | with a provider that gives no external identifier together with the status UNKNOWN this never happens |
| RenamedOrders.FillIsRenamed | backend/app/execution/gateway.py:155-169 | a run of four steps in which a later receipt renames a filled order |
| Protocol.LookingBack | backend/app/execution/gateway.py:76-106 | in any later world, the read as of a cutoff that separates earlier fills from later ones succeeds exactly when the earlier fills still fit their instruments, and is then exactly the account the earlier world held |
| Protocol.JournalIgnoresRows | backend/app/journal/capture.py:10-48 | between admissions the journal keeps holding while order rows change |
| Observation.ObserveOrderEvolves | backend/app/execution/gateway.py:254-284 | evaluating an order on a candle changes only its own row, and only forward |
| SimulatedFills.TurnFills | backend/app/execution/adapters/paper.py:51-75 | one turn makes a fill or rejects the order exactly if the candle reaches the order with something left, and otherwise only marks the evaluation; the fill is at the close or at the limit, for the whole remainder, with one fee of a thousandth of the notional, at the end of the minute |
| SimulatedFills.CandlesFill | backend/app/execution/gateway.py:252-284 | every fill of an observation is such a fill on one of its candles, for exactly what the earlier fills of its order left, in the name of its order; the fills reported are the fills stored |
| ObservationBatches.Observe | backend/app/execution/gateway.py:240-296 | for any batch size the cached, late-written observation gives the same fills, marks and order states as writing every row at once |
| ObservationBatches.SettleThrough | backend/app/execution/gateway.py:264-280 | a proposal put through the cache meets the same admission outcome as on current rows |
| ObservationRuns.ObservationOrders | backend/app/execution/gateway.py:299-318 | the hot orders of a symbol, each once, in command order |
| ObservationRuns.MinutesInARow | backend/app/execution/gateway.py:254-263 | the evaluations of every open order are consecutive minutes from the first one opening after acceptance, exactly the candles it had not seen, up to the one that ended it |
| ObservationRuns.CandlesMarked | backend/app/execution/gateway.py:285-293 | after an observation that is not refused every candle of it is valued at its end, at its own close, with its own content and source |
| ObservationRuns.RepeatedObservationIsIdle | backend/app/execution/gateway.py:220-297 | a repeated observation of the same candles is refused once the minute is over or the account is closed, and until then makes no fill or evaluation and leaves every row and mark as it is, whatever identifiers are drawn |
| ObservationRefusals.ObservationRefused | backend/app/execution/gateway.py:220-297 | an observation is refused as a whole exactly when its candles are not the current minutes, the account is closed, or, after the turns before it, an order missed a minute, a proposal meets a refusal that does not reject the order, or a candle is valued differently |
| ObservationRefusals.LateMinuteAborts | backend/app/execution/gateway.py:264-284 | a proposal admissible but for the times of earlier fills aborts the observation exactly when the clock went back or its minute ended before an admitted fill, on whatever symbol |
| ObservationRefusals.RevaluationRefused | backend/app/execution/gateway.py:285-293 | a candle that the books before the call already value with other content, source or price refuses the whole observation, wherever it stands and whatever the orders do |
| ObservationRefusals.MissedMinuteRefused | backend/app/execution/gateway.py:252-259 | one hot order that, by its row before the call, has neither seen the first candle nor is due for it refuses the whole observation |
| Timeframes.TruncatedIs | backend/app/market_data/timeframes.py:62-64 | truncating the nearest double gives the next whole second exactly if what is left of this one is at most half the distance of neighbouring doubles, and this second otherwise |
| Timeframes.BucketIsGridCell | backend/app/market_data/timeframes.py:45-64 | the bucket of a moment is the grid cell containing it, except exactly for a fraction of a second that ends on an intraday boundary and is moved up to it: before the epoch by truncation unless the double is already the boundary, after it by a double that is |
| Timeframes.NoneIsLate | backend/app/market_data/timeframes.py:62-64 | within 2^34 seconds of the epoch no double rounds a fraction of a second away |
| Timeframes.LastMicrosecond | backend/app/market_data/timeframes.py:45-64 | the last microsecond before the epoch is put in the minute after it |
| Timeframes.LostMicrosecond | backend/app/market_data/timeframes.py:45-64 | in the year 2515 the last microsecond of a minute is put in the next minute, and as far before the epoch the first microsecond of one is put in its own |
| Resampling.ResampleCandles | backend/app/market_data/resampling.py:19-100 | the batch algorithm with its dictionary of lists returns the complete buckets that ended by the cutoff, in order, or the refusal |
| ResampledBars.BatchBars | backend/app/market_data/resampling.py:68-100 | every derived bar summarizes the source candles opening in it: the open of the first, the close of the last, a high that is at least each of theirs and one of them, a low likewise, and the total of their volumes in order |
| IncrementalResampling.IncrementalResampler.Append | backend/app/engines/optimized_strategy_engine.py:58-96 | after any history of appends every target is as if built from the last candles alone |
| IncrementalResampling.IncrementalResampler.Snapshot | backend/app/engines/optimized_strategy_engine.py:98-102 | the snapshot holds the bars of every target |
| ResampledBars.SnapshotBars | backend/app/engines/optimized_strategy_engine.py:58-102 | so does every bar of a snapshot, over canonical candles |
| ResampledBars.AnySourceBars | backend/app/engines/optimized_strategy_engine.py:58-102 | and over candles of any kind and order every bar summarizes candles with exactly the expected opens |
| IncrementalResampling.SnapshotIsBatch | backend/app/engines/optimized_strategy_engine.py:58-102 | for every aligned gap-free source and every coarser multiple, the incremental bars are those of the batch at the last close |
| IncrementalResampling.SourceItself | backend/app/market_data/resampling.py:68-69 | for the source timeframe itself they agree exactly when summing each volume alone gives it back |
| LongVolumes.SourceDiffers | backend/app/market_data/resampling.py:68-69 | a concrete candle with a volume of 29 digits on which batch and incremental resampling differ |
| IncrementalResampling.BarsNeverRevised | backend/app/engines/optimized_strategy_engine.py:64-95 | bars are only added: later candles, valid or not, never revise what a prefix showed |
| ResamplingCoverage.EmittedIffCovered | backend/app/market_data/resampling.py:76-88 | a target candle comes out for a grid cell exactly when the source covers it from opening to end; partial first and last cells are withheld |
| Swings.DetectSwings | backend/app/engines/structure/primitives.py:93-163 | the pivot loop finds exactly the candidates and confirmed swings of the reference definition, HIGH before LOW |
| Swings.SwingsStep | backend/app/engines/incremental_strategy_engine.py:384-470 | one more candle appends to the confirmed swings exactly those whose right window it fills, in pivot order |
| Swings.SwingsNeverRevised | backend/app/engines/incremental_strategy_engine.py:384-470 | later candles only append to the confirmed swings |
| SwingLaws.SwingsAre | backend/app/engines/structure/primitives.py:56-176 | the confirmed swings are exactly the bars whose high (or low) beats every bar of both windows, ties allowed to earlier bars only under LATEST and to later ones only under EARLIEST, with their own price, times and evidence |
| SwingLaws.CandidatesAre | backend/app/engines/structure/primitives.py:93-176 | the candidates are exactly the bars that beat their left window: pending until the right window is full, then confirmed exactly if they beat it too |
| Zones.ZonesPartition | backend/app/engines/structure/primitives.py:206-264 | every confirmed swing of a kind lies in exactly one zone, sources are within tolerance of the anchor and span its bounds exactly, anchors are more than the tolerance apart |
| Zones.TouchesSum | backend/app/engines/structure/primitives.py:258-261 | touch counts sum to the number of swings of the kind |
| Zones.ZoneMatchInterval | backend/app/engines/structure/primitives.py:179-203 | the two binary searches delimit exactly the anchors within tolerance |
| Zones.BuildZones | backend/app/engines/structure/primitives.py:206-264 | sorted anchors and binary search give the same zones as comparing every zone |
| Breaks.BreaksStep | backend/app/engines/incremental_strategy_engine.py:556-604 | the breaks of one more candle are computed with the swings confirmed so far, and earlier breaks stay |
| Breaks.EventsNeverRevised | backend/app/engines/incremental_strategy_engine.py:556-604 | later candles only append to events and rejections |
| Breaks.EachSwingBreaksOnce | backend/app/engines/structure/primitives.py:323-415 | each swing is broken at most once, and only by a candle opening at or after its confirmation |
| ReferenceBreaks.TopIsLatest | backend/app/engines/structure/primitives.py:290-305 | the top of the popped stack is the latest unbroken swing |
| ReferenceBreaks.TailsAreEnough | backend/app/engines/structure/primitives.py:267-287 | the tails of the last swings per side decide the trend |
| ReferenceBreaks.DetectBreaks | backend/app/engines/structure/primitives.py:323-415 | the detector with frontier, tails and stacks finds the breaks of looking at every confirmed swing at every candle |
| BreakLevels.StructureBreaks | backend/app/engines/structure/primitives.py:323-415 | for every history a candle is reported as a break exactly if it passes exactly one of two levels, as a rejection exactly if it passes both; a level is the unbroken swing of its kind last confirmed by the candle's open, passed by the close (or the wick) by more than the buffer; the event is BOS exactly along the trend before it and MSS exactly against it |
| BreakLevels.TrendIs | backend/app/engines/structure/primitives.py:267-287 | the trend is bullish exactly if the last highs and the last lows all rise by more than the tolerance, bearish exactly if all fall, insufficient exactly if there are too few |
| IncrementalStructure.StructureState.ResolvePending | backend/app/engines/incremental_strategy_engine.py:391-461 | the pending loop in place: candidates are rewritten, a confirmed swing is listed and then zoned, an index that sees no new bar is kept, and a refused zone leaves everything as it is by then |
| IncrementalStructure.ResolvedAll | backend/app/engines/incremental_strategy_engine.py:391-461 | on fields in step with the reference the loop leaves exactly the reference candidates, the swings that the candle completes and the unresolved indices, and is refused exactly if one of those swings lies within the padding of zero |
| IncrementalStructure.StepInStep | backend/app/engines/incremental_strategy_engine.py:380-492 | one candle keeps the fields in step with the reference, or is refused exactly when the reference over its candles is |
| IncrementalStructure.AppendZone | backend/app/engines/incremental_strategy_engine.py:494-538 | the search over the anchors takes the least distance, then the least index, on whatever zones there are |
| IncrementalStructure.ZonesMoved | backend/app/engines/incremental_strategy_engine.py:494-538 | on exact numbers, moving widened bounds in place gives the widened bounds of the least and greatest source price; refused exactly for a swing within the padding of zero |
| RoundedZones.RoundedZonesAgree | backend/app/engines/incremental_strategy_engine.py:494-538 | for every history of swings and every monotone rounding, the zones kept in place are those of the reference after each swing if and only if each swing opens a zone or its touch settles |
| RoundedZones.DecimalsAreMonotone | backend/app/engines/structure/primitives.py:250-264 | rounding half to even to the twenty-eight digits of decimals is monotone |
| RoundedZones.ExactIsZoneInto | backend/app/engines/incremental_strategy_engine.py:494-538 | without rounding, the zones followed here are those of the state above wherever it accepts them |
| RoundedZones.SecondTouchSlips | backend/app/engines/incremental_strategy_engine.py:506-523 | two lows at one price on the tick grid, where the second touch moves the kept lower bound below the one the reference builds |
| IncrementalStructure.SwingsConfirm | backend/app/engines/structure/primitives.py:340-343 | confirmed swings are in order of confirmation |
| IncrementalStructure.StructureState.Append | backend/app/engines/incremental_strategy_engine.py:371-492 | for every state an object can be in, half updated ones included, the new fields and the exception are those of the append function; unless it extends candles for which a zone was refused, it is refused exactly when the candles are no valid source or a swing lies within the padding of zero, and otherwise leaves the state of the last candles |
| StructureHistory.HistoryIndependence | backend/app/engines/incremental_strategy_engine.py:371-492 | for every history of appends, the next one ends like the same append to a new object exactly unless it is a valid source that extends candles for which a zone was refused since the last append that started over |
| StructureHistory.AfterHistory | backend/app/engines/incremental_strategy_engine.py:371-492 | for every history the fields are those of the reference over their candles if no zone was refused since the last start, and otherwise hold candles that the reference refuses |
| StructureHistory.RefusedThenAccepted | backend/app/engines/incremental_strategy_engine.py:380-461 | after a refused zone the same candles are accepted without a change, although a new object refuses them |
| StructureHistory.SecondAppendIsAccepted | backend/app/engines/incremental_strategy_engine.py:380-538 | lows 3, 2, 3 with a padding of two ticks: the first append is refused, the second is not, and a confirmed low is left without a zone |
| IncrementalStructure.StructureState.Result | backend/app/engines/incremental_strategy_engine.py:606-624 | the report is the reference analysis of the candles seen exactly while the fields are in step with it; after a refused zone it is a report that no analysis gives |
| IncrementalStructure.AnalyzeMarketStructure | backend/app/engines/structure/primitives.py:418-446 | the reference analysis reports the same structure and is refused under the same condition |
| IncrementalStructure.AnalysisUnique | backend/app/engines/structure/primitives.py:418-446 | the analysis of a candle history is determined by it, so the incremental and the reference result coincide |
| Indicators.CalculateEma | backend/app/engines/indicators/calculations.py:32-52 | the loop with its running value computes the averages: none before the period is full, then the mean of the first values, then smoothing, for any idempotent rounding |
| IndicatorLaws.EmasAre | backend/app/engines/indicators/calculations.py:32-52 | on exact numbers, period * seed is the sum of the first values and afterwards (period + 1) * average = 2 * value + (period - 1) * previous average |
| IndicatorLaws.EmaIsWeighted | backend/app/engines/indicators/calculations.py:32-52 | in closed form: the seed and every later value, each weighted by the powers of (period - 1) / (period + 1) of its age |
| Indicators.CalculateAtr | backend/app/engines/indicators/calculations.py:155-184 | rolling means or Wilder smoothing over the true ranges, nothing before the period is full |
| IndicatorLaws.RangesAre | backend/app/engines/indicators/calculations.py:137-152 | the true range is the least number not below high - low and both distances to the previous close |
| IndicatorLaws.AtrsAre | backend/app/engines/indicators/calculations.py:155-184 | period * ATR is the sum of the last ranges when rolling or seeding, and under Wilder (period - 1) * previous + range |
| Indicators.CalculateIndicators | backend/app/engines/indicators/calculations.py:187-206 | refused exactly for candles out of order, otherwise the signal line is the averages of the MACD values put back in their places and a crossover needs both lines before and now |
| IndicatorLaws.LinesAre | backend/app/engines/indicators/calculations.py:55-131 | the MACD line is the fast average minus the slow one and the histogram the line minus the signal, present exactly where both are |
| IndicatorLaws.SignalIs | backend/app/engines/indicators/calculations.py:74-79 | the signal is the average of the MACD values there are, each in its place |
| IndicatorLaws.CrossoversAre | backend/app/engines/indicators/calculations.py:96-128 | a bullish crossover is shown exactly where the line goes from at most the signal to above it, a bearish one exactly where it goes from at least the signal to below it |
| IncrementalIndicators.SignalStep | backend/app/engines/incremental_strategy_engine.py:183-224 | one more MACD value extends the signal line as the reference over all values does: the seed over the last window is the mean of every value there is |
| IncrementalIndicators.ListsStep | backend/app/engines/incremental_strategy_engine.py:171-261 | what the state computes for one more candle, list by list, is what the reference gives for all candles |
| IncrementalIndicators.PointsNeverRevised | backend/app/engines/incremental_strategy_engine.py:290-330 | the points shown for a prefix are the first points of every longer history |
| IncrementalIndicators.IndicatorState.Append | backend/app/engines/incremental_strategy_engine.py:167-261 | after any history of appends and reports, extending or not, the state is that of the last candles |
| IncrementalIndicators.IndicatorState.Result | backend/app/engines/incremental_strategy_engine.py:290-343 | the report, with its cached points, holds the reference lists of the candles seen, and is the answer of the reference analysis exactly on candles in order |
| IncrementalIndicators.WrongWayRound | backend/app/engines/indicators/calculations.py:26-29 | two candles the wrong way round are refused by the reference, so the report on them is not its answer |
| Visibility.IndexedIsVisible | backend/app/backtesting/runner.py:74-92 | the prefix found by binary search over close times is the filtered series |
| Visibility.PointInTime | backend/app/market_data/resampling.py:48-100 | what is visible of a derived series at a moment is the series derived from the source candles closed by then |
| Backtest.RunBacktest | backend/app/backtesting/runner.py:151-268 | the loop over the events, with filtered or indexed prefixes, ends in the state of the reference run, refusals included |
| Backtest.IndexedIsReference | backend/app/backtesting/runner.py:297-314 | for every pure engine and every list of events the run with indexed prefixes is the reference run |
| Backtest.EarlyEvents | backend/app/backtesting/runner.py:463-477 | the events of the history known at a moment are the first events of the whole history, exactly those up to that moment |
| Evaluations.EventsAre | backend/app/backtesting/runner.py:463-477 | the events of a run are the closes of the evaluation candles of its symbols, each once, by time and then by symbol |
| Backtest.NoLookAhead | backend/app/backtesting/runner.py:151-268 | on the history known at any moment the loop ends in the state, or the refusal, that the loop on the whole history is in after its events up to then |
| Backtest.NothingRewritten | backend/app/backtesting/runner.py:180-268 | candidates, invalidations, entries and evaluated executions are set once over every run, each dating from an event of its symbol, with distinct keys |
| Evaluations.EventReplays | backend/app/backtesting/runner.py:180-268 | an event adds signals of its symbol only and replays every signal of its symbol on what is visible then; an ended one gets nothing if cancelled or never entered and otherwise the engine's answer on the visible candle its lifecycle was decided on |
| Evaluations.EvaluatedExactly | backend/app/backtesting/runner.py:252-268 | over every run a signal has been evaluated if and only if after some event of its symbol its lifecycle had reached one of the four terminal statuses |
| History.CompleteIsGrid | backend/app/market_data/historical.py:372-395 | the checks on a range hold exactly for the grid from its start to its end |
| History.FetchRange | backend/app/market_data/historical.py:300-348 | the paging loop is the paging function: same pages, same first refusal |
| History.FetchIsGrid | backend/app/market_data/historical.py:300-348 | for any provider at most one page per candle is read, and a fetched range is exactly its grid with every candle supplied by the provider |
| History.HonestFetch | backend/app/market_data/historical.py:300-348 | from a provider that answers with the market's candles, however few at a time, a range is always fetched and is the market's |
| Bootstrap.EnsureHistory | backend/app/market_data/historical.py:173-282 | the method with its merge loop is the bootstrap function |
| Bootstrap.HistoryIsExact | backend/app/market_data/historical.py:173-282 | succeeds exactly when the request is acceptable, the cache file is not broken and the provider delivers what the cache lacks (the merge never conflicts); then the answer is exactly the required candles up to the cutoff, and the saved history is one grid covering the request and keeping the cache |
| Bootstrap.AskingAgain | backend/app/market_data/historical.py:203-224 | the same or a narrower request afterwards is answered from the saved history without a page, with the same candles |
| Bootstrap.DefaultCutoff | backend/app/market_data/historical.py:284-298 | without an explicit cutoff the bucket of now is always accepted |
| Bootstrap.UnusableCacheIsReplaced | backend/app/market_data/historical.py:190-201 | an unusable cache file is treated as absent by every provider exactly unless its rows can be read but have a gap |
| Bootstrap.GapIsNotReplaced | backend/app/market_data/historical.py:443-470 | a concrete cache file on which every request fails |
| Bootstrap.HonestHistory | backend/app/market_data/historical.py:173-282 | without a usable cache an honest provider gives exactly the market's candles |
| Alignment.ReferenceIsFirst | backend/app/market_data/normalization.py:61-72 | the reference accepts exactly aligned candles and otherwise reports the first item that is not |
| Alignment.EvaluateIsGated | backend/app/market_data/rust_alignment.py:83-127 | the evaluation equals the oracle exactly when the native core answers like it, and is otherwise an error with one of the fixed codes |
| Alignment.InputFits | backend/app/market_data/rust_alignment.py:44-51 | an accepted input never exceeds the encoded size limit |
| Alignment.Validate | backend/app/market_data/rust_alignment.py:142-184 | for any batch size, iterator and native core: the reference outcome exactly if the core answers like the oracle on the batches that are evaluated, otherwise an error with a fixed code; accepted only if the core confirmed every batch |
| Closure.EnclosingAre | backend/app/core/algorithm_identity.py:451-467 | the initializers of the packages around a name, all of them and nothing else |
| Closure.ResolvedAre | backend/app/core/algorithm_identity.py:523-542 | resolving a module yields exactly its file and the initializers of its packages |
| Closure.ReachableIsLeast | backend/app/core/algorithm_identity.py:286-344 | the reachable files are the least set holding the seeds and closed under dependencies |
| Closure.Expand | backend/app/core/algorithm_identity.py:286-344 | the worklist, in any order, terminates, succeeds exactly when no module is ambiguous and no reachable file has a fault, and returns exactly the reachable files |

## Left out

- Other accounts: identifiers are shared across accounts in the database; one account is modelled, so the cross-account scope checks are not.
- Stored documents, hashes and SQL: a hash is equality of content, a query a filter and a sort, a mirror row the record itself; corruption checks that compare the two are therefore not modelled.
- Account schema bounds on derived money (512 digits), decimal overflow and division by zero traps: amounts inside the ledger are unbounded exact numbers.
- `account_status` and retention: an account is active or closed; the lifecycle events behind it are not modelled.
- Provider names, versions and evidence hashes on fills, and the simulator's check of its own proposals.
- Market freshness evidence other than the candle grid (lag, retrieval time, provenance records).
- `account_view` and dashboard valuations: they add marks to positions and would only add easy members.
- Journal.Store.CaptureDashboard: the admission flags set with a snapshot, and the readiness audit of the read model, are not modelled; they decide whether a read is offered, not what it shows.
- Attachments: only the automatic chart requests and when they become visible are modelled; uploads, completion (which also waits for admission) and image storage are not. Annotations are a single mutable row and no history is claimed for them.
- Rounding in the structure engine other than of zone bounds (distances to anchors, break levels), and of volume sums: prices are exact numbers there, and the volume sum is an arbitrary function. `RoundedZones` follows the bounds before they are checked against zero.
- Fair value gaps, liquidity, displacement, order blocks, entry setups, scoring and risk.
- Backtest.RunBacktest: the input checks, effective sources, trades, metrics and run identity around the loop are not modelled; runtime signals are values in a list, so updates through a shared reference are not. The engine, the lifecycle replay and the execution of a terminal candle are arbitrary pure functions.
- Representations of indicator values: they are numbers, and each context rounding is any idempotent function.
- Bootstrap.EnsureHistory: thread ownership, file atomicity and year limits of dates are not modelled; the cache file is a value that is replaced at the end.
- Alignment.Validate: process-ending exceptions, and how many items the iterator is asked for beyond the first failure.
- Closure.Expand: symlinks, unreadable files and package roots nested in each other.
