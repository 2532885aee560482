# The money path of SliceStream, modelled and proved in Dafny

SliceStream meters GPU work in 15-second windows. The agent (`agentd`) collects a job's windows, bills them, and pays
for them in settlement attempts of five stages against a payment gateway and a provider (`providerd`). Any call to
either may fail, or be carried out and its answer lost. What was metered is evidenced by hash-chained receipts and a
hashed bundle. This project models both halves and proves what they keep.

Verify the whole project with `dafny verify dfyconfig.toml` (Dafny 4.11).

## How it is laid out

The settlement half is a state machine. `Agent.World` is the state the agent shares between its handlers and loops,
together with the provider's sell orders and a log of every call to the gateway with what became of it; `Agent.Step`
lists what can happen, with every answer of the outside world as an input of the step; `Agent.Run` is the state after
any sequence of steps. `Daemon.AppState` is the same state as mutable fields, and its methods follow the source's
functions statement by statement: loops over maps and bills, early exits, compensation and undo. Each method is proved
to do to the fields what its step does to the `World`, so what is proved of all runs holds of the methods.

| module | what it models |
|---|---|
| `Orders`, `Reconcile` | the provider's sell-order handlers and its payment reconciliation |
| `Market`, `Billing` | rounding, penalty rule, transition tables, bill keys; a task's bills |
| `Settlement` | one pass of the settle pipeline and one stage run of recovery |
| `Agent` | state, steps and runs: polls, recovery, reaper, mode switch, operator, disputes, releases, accepts |
| `Safety`, `Gateway` | what attempts keep; what the gateway did against what the agent knows of it |
| `Progress`, `Recovery`, `Replay` | how often and how long attempts are retried, and when a replayed payload agrees |
| `Exits`, `Aftermath` | where a pass can end, and what it and a stage run leave behind |
| `Prospects`, `Compensation` | when recovery can still bring an attempt to its commit |
| `Windows`, `Bills`, `Documents`, `Payouts` | conservation of windows and money, papers of bills, what an ended trade counts as paid |
| `Statuses`, `Totals`, `Work` | what a bill's status tells, what a task has paid in total, what a trade has delivered |
| `TwoParty` | agreement with the provider |
| `Operators` | which attempts operators and disputes end or reopen, which bills they close, what a mode switch ends |
| `Incidents` | a concrete run in which two windows are paid for three times and committed twice |
| `Reaper`, `Accept` | locks and matches after every tick; all exits of accepting a match, and the idempotency ledger |
| `Daemon` | the in-place methods and their proofs |
| `Matching`, `StableSort` | proposing matches |
| `Bytes`, `Fips180`, `Hashing` | UTF-8, hexadecimal and decimal text; FIPS 180-4; the hand-written SHA-256 |
| `CanonicalJson`, `OrderedMap` | the writer, a parser that undoes it, and the ordered map behind objects |
| `Receipts`, `Evidence`, `Invoices` | the receipt chain, the evidence root, invoice aggregation |

## Where the code does less than one might expect

Each of these is proved as stated, with its exact condition where it has one.

- A payment that was sent and not confirmed may have been taken or not, so recovery sends `settle_payment` again: the
  agent can be sure of at most one payment for an attempt exactly if at most one such call has left it, connections
  refused not counting, and likewise of invoices (`Gateway.SureExactlyIfSentOnce`; before resuming,
  `Gateway.SureAfterResuming`; `Incidents.PaidThreeTimes`). crates/fiber_rpc/src/client.rs:180-280,
  apps/agentd/src/main.rs:4021-4047.
- Two attempts can be committed on one order, because the provider answers a repeated mark as done; the second only
  ever comes of such an answer (`TwoParty.FirstMark`, `TwoParty.SharedOrderCommits`, `Incidents.CommittedTwice`).
  apps/providerd/src/main.rs:2139-2148.
- The end of a trade finalizes the bills of failed attempts too, and counts them in the total paid
  (`Payouts.EndedTradeTotal`, `Payouts.CountedWithoutPayment`). apps/agentd/src/main.rs:3691-3705 and 4235-4253.
- A refused `create_invoice` leaves the attempt at the stage after it, without an invoice, where no run can succeed
  (`Exits.InvoiceFailureSkipsAhead`, `Prospects.NoInvoiceNoRecovery`). apps/agentd/src/main.rs:3916-3958.
- The release after a failed pass opens the provider's order, which no later stage can settle, so recovery alone can
  commit the attempt only if that release never arrived (`Compensation.CompensatedCommits`). If it arrived, recovery
  can still take the payment, but not commit. apps/agentd/src/main.rs:3730-3770, apps/providerd/src/main.rs:2119-2203.
- A replayed `create_invoice` is refused as a conflict if a window had been billed before, or if rounding changes the
  sum, because it is rebuilt from the bills (`Replay.ReplayAgrees`). apps/agentd/src/main.rs:5121-5169.
- A window an attempt has paid for is pending exactly if the attempt's pass put it back and no later attempt has
  settled or stranded it (`Windows.PaidAndPending`). That comes of a pass whose payment is confirmed and whose result
  is not recorded (`Windows.PassPaysAndReturns`), and of recovery paying for an attempt whose windows went back
  (`Windows.RecoveryPays`). apps/agentd/src/main.rs:4021-4155 and 5199-5309.
- Windows drained into a pass whose first provider call is not seen to succeed are stranded, then and only then
  (`Windows.PassEnds`), and never go back to the queue (`Windows.StrandedForGood`). apps/agentd/src/main.rs:3825-3849.
- A window that an earlier attempt of the match billed stays on that attempt's bill, though another attempt pays for
  it (`Documents.BilledToThePass`). apps/agentd/src/main.rs:3554-3603.
- A refused provider lock leaves a task that had a match with none (`Accept.LockFailureForgetsTheOldMatch`).
  apps/agentd/src/main.rs:2675-2715.
- Releasing a finished match of a stopped task, or a rejected match of no task, also lifts the locks of an active
  match on the same orders, and opens their sell order (`Reaper.BothLocksSurvive`, `Reaper.SharedOrderOpened`).
  apps/agentd/src/market_support.rs:32-80, apps/agentd/src/main.rs:2778-2795.
- Two pairs of orders can share one match id, so that a request about one is answered for the other
  (`Matching.SameMatchId`, `Matching.MatchIdsCollide`). apps/agentd/src/main.rs:2188-2190.
- Two pairs of ids can share one reconcile key (`Reconcile.KeysCollide`). apps/providerd/src/main.rs:1320.
- The canonical writer takes any text for a number; a value can be read back exactly when its numbers are JSON tokens
  (`CanonicalJson.RoundTripExactly`, `CanonicalJson.NumbersMustBeTokens`). crates/common/src/hash.rs:48.
- A penalty on a negative amount does not add up (`Billing.PenaltyNeedsNonnegative`).
  apps/agentd/src/main.rs:1304-1325.

## Model

| member | source | states |
|---|---|---|
| Safety.RunIsSafe | apps/agentd/src/main.rs:5050-5479 | Over every run of interleaved polls, recovery visits, stuck detection, mode switches, operator and dispute actions, releases and accepts, with every answer of gateway and provider arbitrary, lost ones included: payment implies invoice; a recorded result, and the stages record_result and provider_mark_settled, imply a payment; the settled mark implies a recorded result; COMMITTED implies the settled mark; and the invoices and payments the gateway confirmed for an attempt are exactly those the attempt holds |
| Safety.AtMostOneConfirmed | apps/agentd/src/main.rs:5103-5308 | Over every such run the gateway confirms at most one invoice and at most one payment for an attempt, and no payment without an invoice, even when retries send the attempt back to its first stage; what it does without the agent being told is the subject of the rows below |
| Gateway.MadeIsHeldOrLost | crates/fiber_rpc/src/client.rs:180-280 | Over every run the invoices the gateway made for an attempt are, as a multiset, the one the attempt holds and those of calls carried out without a confirmation, and the payments it took likewise |
| Gateway.SureExactlyIfSentOnce | apps/agentd/src/main.rs:4021-4047 | Over every run, in no run the agent cannot tell from it has the gateway taken two payments for an attempt exactly when at most one settle_payment call for it has left the agent; a refused connection, which the client reports as not sent, does not count; the same of invoices and create_invoice |
| Gateway.SureAfterResuming | apps/agentd/src/main.rs:5199-5250 | Before recovery visits an attempt it can be told whether that will still be so afterwards, whatever the answer: exactly when the calls sent so far and the one the visit would make, by stage, ids, guard, task, bills and payload, are at most one |
| Gateway.VisitSends | apps/agentd/src/main.rs:5090-5250 | A visit of recovery makes the settle_payment call, and the create_invoice call, once or not at all, exactly as the guards before it say, and it counts as sent unless the client could not connect |
| Gateway.WorstRun | crates/fiber_rpc/src/client.rs:232-280 | For every run there is one in which every call that was sent and not carried out was carried out, with the same error reported, and which leaves the agent in the same state |
| Incidents.PaidThreeTimes | apps/agentd/src/main.rs:4021-4047 | A concrete run from a fresh start with two windows to a pass: the payment of a pass is taken and its answer lost, recovery pays for the attempt once more, and the two windows, which are back in the queue, are paid for a third time by another attempt |
| Incidents.CommittedTwice | apps/agentd/src/main.rs:5437-5472 | Two more visits of recovery, and both attempts for these windows are COMMITTED on the same sell order, which is SETTLED once |
| Safety.PassSafe | apps/agentd/src/main.rs:3708-4301 | A pass of the settle pipeline, at whichever of its exits it ends, leaves its new attempt sound and holding exactly what the gateway confirmed to it |
| Safety.RunSafe | apps/agentd/src/main.rs:5050-5479 | A stage run of recovery keeps the attempt sound, adds an invoice or a payment only where there was none and exactly the one the gateway confirmed, calls it for this attempt only, and does not touch the retry count, whatever the answers |
| Progress.IdsAreWrittenOnce | apps/agentd/src/main.rs:5103-5308 | In the continuation of any run an attempt stays whose it is, keeps its invoice id and its payment id once it has them, and its retry count never goes down |
| Progress.RunsAreRetries | apps/agentd/src/main.rs:5676-5788 | Over every run the stage runs recovery makes of an attempt are at most its retry count and at most six, and none are made of an unknown attempt |
| Progress.AtMostSixRecoveryRuns | apps/agentd/src/main.rs:5706-5728 | In its whole life, operators and disputes included, an attempt gets at most six recovery runs |
| Recovery.RunMovesOneStage | apps/agentd/src/main.rs:5728-5786 | For a recoverable attempt a successful stage run completes exactly the next stage and leaves it in progress, or committed after the last; a failed one leaves the stage and makes it retryable; either adds one retry |
| Recovery.VisitRefines | apps/agentd/src/main.rs:5696-5786 | A visit of the tick does to an attempt what a four-field abstract track says (stages done, retries, wait, given up), and runs a stage exactly when the wait is over, the cap is not reached and the attempt is not ended |
| Recovery.OthersLeaveTrack | apps/agentd/src/main.rs:5676-5788 | Every step but the attempt's own recovery, operator actions on it, dispute actions and mode switches leaves that track as it is |
| Recovery.StuckRefines | apps/agentd/src/main.rs:5533-5548 | The stuck detector changes nothing in that track |
| Recovery.RecoveryDecides | apps/agentd/src/main.rs:5676-5788 | In auto mode, whatever polls, accepts, releases, reaper ticks, other attempts' recovery and operator actions run between its visits (no dispute action, no mode switch, no operator action on it): an attempt of any stage and retry count is COMMITTED if the stages done plus the successful runs reach five, and FAILED_FINAL otherwise, once the time left for its retries has passed; its runs stay within the cap |
| Recovery.FreshAttemptDecided | apps/agentd/src/main.rs:5676-5788 | Under the same interleaving a fresh attempt is decided no later than 122 s after its first run, after at most six runs: COMMITTED exactly if at least five succeeded, otherwise FAILED_FINAL |
| Recovery.NotGivenUpEarly | apps/agentd/src/main.rs:5703-5726 | The bound is tight: before that time an attempt without enough successes is still recoverable, never given up |
| Recovery.TickIsARun | apps/agentd/src/main.rs:5676-5788 | A whole tick, in any visiting order, is a run of steps, so every invariant over runs holds after every tick |
| Recovery.OnlyInAuto | apps/agentd/src/main.rs:5676-5694 | Outside auto mode recovery does nothing |
| Agent.BackoffDoubles | apps/agentd/src/main.rs:5743 | The delay table is 2 to the power of min(retries, 6), capped at 60 s |
| Replay.ReplayAgrees | apps/agentd/src/main.rs:5121-5169 | A replayed create_invoice carries the payload of the first try, and is not refused as a conflict, exactly when no window of the attempt had been billed before and rounding the owed amounts to millionths keeps their sum |
| Replay.ReplayAsksGross | apps/agentd/src/main.rs:5121-5129 | Whatever became of the bills since, a replay has as many windows as the attempt has bills, and asks for the sum they billed at first |
| Replay.ReplayAsksEach | apps/agentd/src/main.rs:5121-5129 | Each of the attempt's bills is among its windows, with the amount billed at first |
| Replay.RecoveryCanInvoice | apps/agentd/src/main.rs:5090-5198 | With a willing gateway, one create_invoice run of recovery for an attempt whose create_invoice was blocked succeeds exactly under that condition; whether the attempt can get to its commit is the row of Compensation.CompensatedCommits |
| Replay.OwnBills | apps/agentd/src/main.rs:3554-3603 | A new attempt gets a bill for exactly those of its windows that had none |
| Exits.PassLeaves | apps/agentd/src/main.rs:3801-4270 | At each of its nine exits, the exact attempt, order and release a pass leaves behind, or its final status |
| Exits.InvoiceFailureSkipsAhead | apps/agentd/src/main.rs:3916-3958 | A pass ends at stage settle_payment without an invoice exactly when its first call was seen to succeed, the guard let create_invoice through and the gateway did not confirm it |
| Aftermath.PassBegins | apps/agentd/src/main.rs:3794-3824 | A pass takes exactly as many windows as the task merges from the front of the queue, in order, for a new attempt at the task's match, which is settling from then until the pass ends |
| Aftermath.PollMakesAttempt | apps/agentd/src/main.rs:4352-4401 | A poll makes a settlement attempt exactly when its report brings a new window, the queue with it is as long as the task merges, the task is bound to a known match that is accepted or settling, and the identifier is new; any other poll calls neither gateway nor provider |
| Aftermath.PassLeft | apps/agentd/src/main.rs:3801-4270 | For each of the nine exits one row of a table: status, stage, failures counted, marks, papers and last request of the attempt; the gateway calls made, in order; the status of the match; both locks and the task's binding kept exactly at the last exit; no other attempt or match changed |
| Aftermath.RunLeft | apps/agentd/src/main.rs:5050-5479 | A successful stage run of recovery makes the marks of its stage and gets only the papers of its stage, and those only if they are missing |
| Aftermath.RunAsks | apps/agentd/src/main.rs:5121-5410 | A stage run that called the gateway and succeeded asked it for the windows of the attempt's own bills, in order, for their sum, and under the papers the attempt had |
| Prospects.NoInvoiceNoRecovery | apps/agentd/src/main.rs:5199-5227 | At that stage a run succeeds exactly when there is a payment already, or an invoice, the task, an open guard and a confirmed payment; with neither payment nor invoice it calls nobody and changes nothing |
| Prospects.StageSucceeds | apps/agentd/src/main.rs:5050-5479 | For each of the five stages, a run succeeds exactly when the order status, ids, task, bills and payload are what the stage asks for and guard, delivery and gateway let it |
| Prospects.WillingStep | apps/agentd/src/main.rs:5050-5479 | An attempt that lacks nothing but answers moves on when it gets them, and still lacks nothing |
| Prospects.HopelessStep | apps/agentd/src/main.rs:5050-5479 | One that lacks more is not committed by a run and never gets what it lacks by one, whatever the answers |
| Prospects.CommitsAlone | apps/agentd/src/main.rs:5676-5788 | In auto mode some sequence of recovery ticks commits an attempt exactly when, before the first, it is committed or is recoverable with retries left for its stages and lacks nothing but answers |
| Compensation.ReleaseOpens | apps/providerd/src/main.rs:2172-2203 | After the first call of a pass, the order can still be settled, or marked settling, exactly when the release never arrived |
| Compensation.CompensatedCommits | apps/agentd/src/main.rs:3730-3770 | In every reachable state, after a failed pass, recovery alone can still commit the attempt exactly when the compensating release never reached the provider and the pass failed at its first call (order locked or settling, some window not billed before), at the guard before create_invoice (no window billed before, sum unchanged by rounding) or at settle_payment |
| Windows.RunConserves | apps/agentd/src/main.rs:4352-4401 | Over every run each task's admitted windows are, as multisets, the pending, the settled and the stranded ones together; the pending are strictly increasing and later than all the others; the settled index set is that of the paid windows; what is spent is what all three owe |
| Windows.EachWindowInOnePlace | apps/agentd/src/main.rs:4376-4387 | An admitted window is in exactly one of the three places, once; one never admitted is in none |
| Windows.LaterIsNew | apps/agentd/src/main.rs:4374-4387 | In every reachable state a report of a running task brings a new window exactly if its index is past the last one seen: the look-ups among settled and pending windows never decide |
| Windows.PassEnds | apps/agentd/src/main.rs:3794-4193 | A pass puts its windows back exactly where they were, settles them or strands them, as its attempt remembers: it strands them exactly when its first call was not seen to succeed, and settles them exactly when that call, invoice, payment and result all went through |
| Windows.RunCarries | apps/agentd/src/main.rs:3825-3849 | Over every run each stranded or settled window is listed by an attempt of the task that stranded or settled it, and whatever an attempt says it did with its windows is true of the task |
| Windows.StrandedForGood | apps/agentd/src/main.rs:3825-3849 | A stranded window stays stranded and never is pending again in any continuation of any run, and the attempt that stranded it is still there |
| Windows.PassConserves | apps/agentd/src/main.rs:3708-4301 | A pass keeps the whole accounting, whichever exit it takes |
| Windows.PaidAndPending | apps/agentd/src/main.rs:4021-4155 | Over every run a window listed by an attempt, paid or not, is pending exactly when every attempt that lists it put it back; so a paid window is pending exactly when its pass put it back and no later attempt settled or stranded it |
| Windows.PassPays | apps/agentd/src/main.rs:3801-4088 | A pass leaves its attempt paid exactly when its first call was seen to succeed, both guards were open and both gateway calls were confirmed |
| Windows.PassPaysAndReturns | apps/agentd/src/main.rs:4089-4155 | A pass leaves its attempt paid and the whole queue as it was exactly when, beyond that, recording the result was blocked or not seen to succeed |
| Windows.RecoveryPays | apps/agentd/src/main.rs:5199-5309 | Recovery pays for an unpaid attempt exactly by a settle_payment run with invoice, task, open guard and confirmed payment, and leaves the queue as it is, so that windows put back are paid for and pending |
| Daemon.PassEndsLoop | apps/agentd/src/main.rs:3722-3787 | After a pass the task is unbound or its match is settled, so the settle loop ends |
| Bills.MoneyAddsUp | apps/agentd/src/main.rs:1304-1351 | Over every run each bill of a non-negative amount has gross = net payout + refund, penalty = refund and 0 <= refund <= gross |
| Bills.OneStatusPerAttempt | apps/agentd/src/main.rs:3554-3619 | Over every run bills of one attempt, wherever they are, share task, trade and status, and a bill id is used once per task |
| Bills.StatusLoopIsAllOrNothing | apps/agentd/src/main.rs:3605-3619 | So in every reachable state the status loop with its early return moves all the bills of an attempt or none |
| Bills.RunBilled | apps/agentd/src/main.rs:3554-3706 | The invariant behind the three: bills are coherent and balanced, and each belongs to an attempt of its task and to that attempt's match |
| Documents.PaidBillsWerePaid | apps/agentd/src/main.rs:3621-3641 | Over every run a bill names exactly the invoice and payment the gateway confirmed for its attempt, one called submitted, paid or disputed names both, and it names everything the gateway made for the attempt exactly when no answer was lost |
| Documents.BilledToThePass | apps/agentd/src/main.rs:3554-3603 | In every reachable state, after a pass, one of its windows has a bill of the pass with its papers exactly when no bill had the window's key before; otherwise the earlier attempt keeps the bill, though this pass paid |
| Documents.RunFiled | apps/agentd/src/main.rs:3605-3641 | The invariant behind it: every bill has the papers its status asks for, and they are its attempt's |
| Statuses.StatusTellsTheLog | apps/agentd/src/main.rs:3960-4193 | Over every run, until the trade ends or a dispute closes it, a bill's status is exactly what the gateway's log tells of its attempt, whether a pass or recovery made the calls: pending without an invoice, then invoiced, then submitted; and from the first record_result call on, for good, paid if that call was answered and disputed if not |
| Statuses.OthersFadeBills | apps/agentd/src/main.rs:1246-1360 | No step but a poll and a visit of recovery gives a bill any status but one that closes it |
| Totals.PassTotals | apps/agentd/src/main.rs:4161-4193 | A pass settles all its windows or none; it then raises the total paid by their sum, rounded once, unless it ends the trade, when the total is taken from the bills |
| Totals.OnlyPollsPay | apps/agentd/src/main.rs:4175 | No other step changes what a task has paid for, nor the total |
| Totals.RunSums | apps/agentd/src/main.rs:4175 | From any state on, until a trade of the task ends, its total grows by exactly the rounded sums of the groups of windows settled since, each group of the size the task merges |
| Totals.FreshTotal | apps/agentd/src/main.rs:4175 | So from a fresh start the total is the sum over all settled groups, each rounded to millionths |
| Totals.RoundsAreClose | apps/agentd/src/main.rs:4175 | It differs from what the settled windows owe by at most half a millionth a group |
| Work.WorkOfBill | apps/agentd/src/main.rs:3571-3589 | A new bill's work at the price of the match is what its window owes, to within half a millionth of the price; without a price it is the amount in millionths; what it bills is within half a millionth of what the window owes |
| Work.BillingDelivers | apps/agentd/src/main.rs:3554-3603 | Billing windows adds to the trade the work they owe for at the price, of those not billed before, to within half a millionth of the price each |
| Work.PassDelivers | apps/agentd/src/main.rs:3643-3706 | In every reachable state a pass does just that, however it ends |
| Work.EndsWhenDelivered | apps/agentd/src/main.rs:4224-4240 | In every reachable state a pass that runs to its end also ends the trade if what was delivered before and what the windows owe reach the commitment at the price, and does not if they miss it, up to the rounding |
| Work.TradeDelivers | apps/agentd/src/main.rs:3648-3659 | Over every run in which the match keeps its price, the trade's delivered work at that price is what it billed, to within half a millionth and half a millionth of the price a bill |
| Billing.UpsertedKeeps | apps/agentd/src/main.rs:3554-3603 | Billing windows for an attempt keeps the old bills as they are, adds only bills of that attempt, and keeps keys unique, money balanced and one status per attempt |
| Billing.AdvancedIsAllOrNothing | apps/agentd/src/main.rs:3605-3619 | With one status per attempt the status loop moves all its bills when the table allows the move, and none otherwise |
| Billing.AdvancedKeeps | apps/agentd/src/main.rs:3605-3619 | The status loop keeps bills coherent and balanced |
| Billing.PenaltyAppliedKeeps | apps/agentd/src/main.rs:1304-1325 | The apply-penalty action keeps bills coherent and balanced |
| Billing.PenaltyNeedsNonnegative | apps/agentd/src/main.rs:1314-1320 | After apply-penalty a bill's gross is net plus refund exactly when its amount is not negative |
| Billing.RefundReleasedKeeps | apps/agentd/src/main.rs:1327-1351 | The release-refund action keeps bills coherent and balanced |
| Billing.FinalizedTradeKeeps | apps/agentd/src/main.rs:3643-3706 | Ending a trade, breached or not, keeps bills coherent and balanced |
| Billing.EndedTrade | apps/agentd/src/main.rs:3643-3706 | Ending a trade is in breach exactly when less than 97 percent of a positive commitment was delivered; each bill of the trade then refunds fifteen percent to within half a millionth and is refunded, or pays in full and is finalized, a disputed one staying disputed; the bills of other trades stay as they are |
| Billing.FinalizedRefunds | apps/agentd/src/main.rs:3666-3705 | The refunds of a trade of n bills differ from what the penalty rule grants by at most n halves of a millionth |
| Billing.TradeConservesMoney | apps/agentd/src/main.rs:3643-3706 | Over a trade without negative bills what was billed is what the provider keeps plus what the buyer gets back |
| Billing.TradeTotalsAddUp | crates/common/src/market.rs:417-426 | The three rounded totals of a trade without negative bills are the exact sums, and gross is refund plus payout |
| Bills.TradeAddsUp | crates/common/src/market.rs:417-426 | Over every run these totals are exact and add up, whatever penalties, refunds and trade endings came before |
| Payouts.EndedTradeTotal | apps/agentd/src/main.rs:4235-4264 | In every reachable state, once a pass has committed and its trade has delivered its commitment: every bill of the trade is FINALIZED, or DISPUTED with a payment; the total paid is the sum over all bills that count; and, if no bill is negative, payments stand behind all of it exactly when each bill counted without a payment is for nothing |
| Payouts.CountedWithoutPayment | apps/agentd/src/main.rs:3691-3705 | Over every run a bill that counts as paid names no payment exactly when the gateway confirmed none for its attempt, and then it is FINALIZED or REFUNDED, never PAID |
| Payouts.PaidOutIsTheRest | apps/agentd/src/main.rs:4246-4253 | What counts as paid is everything but the bills still on their way, disputed or failed |
| Billing.AutoEndedTradeIsFree | apps/agentd/src/main.rs:4235-4264 | A trade ended because it delivered its commitment is not in breach: no refund, no penalty, every bill paid in full |
| Billing.BillingWindows.UpsertForAttempt | apps/agentd/src/main.rs:3554-3603 | The loop bills exactly the windows that have no bill under their key, in order |
| Billing.BillingWindows.ApplyStatusForAttempt | apps/agentd/src/main.rs:3605-3619 | The in-place loop changes the attempt's bills up to the first forbidden move, and reports success exactly when there is none |
| Billing.BillingWindows.AttachInvoice | apps/agentd/src/main.rs:3621-3630 | The loop gives the invoice to the bills of the attempt and to no other |
| Billing.BillingWindows.AttachPayment | apps/agentd/src/main.rs:3632-3641 | The loop gives the payment to the bills of the attempt and to no other |
| Billing.BillingWindows.Totals | apps/agentd/src/main.rs:3648-3659 | The two iterator sums are the delivered work and the gross of the trade's bills |
| Billing.BillingWindows.FinalizeTrade | apps/agentd/src/main.rs:3643-3706 | The in-place loop makes the bills the finalized trade, for which the laws above are proved, and returns its outcome |
| Billing.BillingWindows.SetStatusForAttempt | apps/agentd/src/main.rs:1272-1282 | The in-place loop moves all the bills of the attempt and no others, past the table |
| Billing.BillingWindows.PenalizeTrade | apps/agentd/src/main.rs:1304-1325 | The in-place loop penalizes the bills of the trade, or all of them, for which the penalty laws above are proved |
| Billing.BillingWindows.RefundTrade | apps/agentd/src/main.rs:1327-1351 | The in-place loop does the same for the release of refunds |
| Billing.BillingWindows.Payout | apps/agentd/src/main.rs:4245-4253 | The iterator sum is what has been paid out |
| Market.RoundError | crates/common/src/market.rs:413-415 | Rounding to millionths moves an amount by at most half a millionth |
| Market.RoundOfMicro | crates/common/src/market.rs:413-415 | An amount in whole millionths rounds to itself |
| Market.RoundMonotone | crates/common/src/market.rs:413-415 | Rounding keeps the order of amounts |
| Market.RoundAway | crates/common/src/market.rs:413-415 | Amounts of either sign round alike, and of two equally near millionths the farther from zero is taken |
| Market.BillsClimb | crates/common/src/market.rs:480-506 | A bill climbs from pending over invoiced and submitted to paid or disputed one rung at a time; only a disputed one can then be refunded or fail, only a paid or refunded one be finalized, and nothing else is allowed |
| Market.AttemptsWorkOrWait | crates/common/src/market.rs:620-646 | From in progress an attempt can come to any end or wait; from any other status that is not an end it can only get to work; nothing else is allowed |
| Market.StagesInOrder | crates/common/src/market.rs:648-664 | A stage follows exactly the one before it |
| Market.BreachMeaning | crates/common/src/market.rs:428-460 | A trade is in breach exactly when less than 97 percent of a positive commitment was delivered; the refund is then fifteen percent of what is due, otherwise nothing, refund and payout add up to what is due, and the ratios reported are those of the gap and of the penalty |
| Market.AutoTerminationIsNoBreach | crates/common/src/market.rs:462-464 | A trade that may end by itself is never in breach |
| Market.BillingWindowKeyInjective | crates/common/src/market.rs:570-576 | The bill key determines trade, window and interval, even when the trade id contains colons |
| TwoParty.CommittedIsSettled | apps/agentd/src/main.rs:5431-5472 | Over every run, with any provider call lost on the way there or back: the sell order of a COMMITTED attempt is SETTLED at the provider, unless its operator cancelled or expired it |
| TwoParty.RunAgrees | apps/providerd/src/main.rs:2021-2203 | The invariant behind it: every settled mark, in every reachable state, is honoured by the provider or overridden by its operator |
| TwoParty.FirstMark | apps/providerd/src/main.rs:2139-2148 | In every reachable state, a settled mark made on an order that was not settled is the only one on it, so a second attempt gets its mark only from a call the provider answers for an order settled before |
| TwoParty.SharedOrderCommits | apps/agentd/src/main.rs:5437-5472 | Once an attempt holds the mark on an order not overridden, any other attempt at its last stage for that order is COMMITTED by a visit of recovery exactly when the answer arrives |
| Orders.RepeatingIsHarmless | apps/providerd/src/main.rs:2021-2203 | A repeated request, such as one whose answer was lost, succeeds and changes nothing more |
| Orders.SettledIsFinal | apps/providerd/src/market_support.rs:70-197 | A settled order leaves that status by the operator's cancel or expire and by nothing else |
| Orders.ClosedUntilReopened | apps/providerd/src/market_support.rs:70-197 | A cancelled or expired order takes no request that would lock or settle it until a retry or a release opens it; a retry of any other order changes nothing |
| Orders.HandlerAnswers | apps/providerd/src/main.rs:2021-2203 | A handler does not find exactly the unknown orders, refuses exactly those in neither of the two statuses its request accepts, changes no other order, and takes the order to the status it is for |
| Orders.CallKeepsSettled | apps/agentd/src/main.rs:3329-3379 | Whatever happens to a call of the agent on its way, settled orders stay settled, and a mark seen to succeed has settled its order |
| Orders.FirstIsBooked | apps/providerd/src/main.rs:2025-2027 | Only the first order with an identifier counts, and updating it in place is updating the book at that identifier |
| Orders.SellOrders.Find | apps/providerd/src/main.rs:2025-2037 | The search returns the first order with the identifier, or none exists |
| Orders.SellOrders.LockSellOrder | apps/providerd/src/main.rs:2021-2068 | The handler changes the book and answers as the action table says |
| Orders.SellOrders.MarkSellOrderSettling | apps/providerd/src/main.rs:2070-2117 | The same for mark_settling |
| Orders.SellOrders.MarkSellOrderSettled | apps/providerd/src/main.rs:2119-2170 | The same for mark_settled |
| Orders.SellOrders.ReleaseSellOrder | apps/providerd/src/main.rs:2172-2203 | The same for release |
| Orders.SellOrders.CancelSellOrder | apps/providerd/src/market_support.rs:70-110 | The same for the operator's cancel |
| Orders.SellOrders.ExpireSellOrder | apps/providerd/src/market_support.rs:112-152 | The same for the operator's expire |
| Orders.SellOrders.RetrySellOrder | apps/providerd/src/market_support.rs:154-197 | The same for the operator's retry |
| Orders.SellOrders.AddOrder | apps/providerd/src/main.rs:1853-1863 | A confirmed order is added behind the others; one with a known identifier changes nothing in the book |
| Reconcile.FirstAmountPerKeyCounts | apps/providerd/src/main.rs:1278-1402 | Over any sequence of replays, conflicts and invalid payloads, for any payload hash: the confirmed total is the sum of the first valid amount per reconcile key, and the paid windows are the duplicate-free first-seen union of those requests' windows |
| Reconcile.InvalidExactly | apps/providerd/src/main.rs:1296-1318 | After any requests, one is refused as invalid exactly if it names no window or a negative amount |
| Reconcile.NewKeyIsConfirmed | apps/providerd/src/main.rs:1363-1400 | After any requests, a valid one of a new key is confirmed with its own ids and the total raised by its amount |
| Reconcile.KnownKeyIsCompared | apps/providerd/src/main.rs:1322-1361 | After any requests, a valid one of a known key is confirmed exactly if it has the hash of the first valid one of that key, with the ids of the last accepted request and the unchanged total, and is a conflict otherwise; neither changes anything |
| Reconcile.KeysCollide | apps/providerd/src/main.rs:1320 | Another pair of invoice and payment ids has the same reconcile key, so that its payment is not counted, exactly when the key splits at the separator twice |
| Reconcile.FirstSeenNoDuplicates | apps/providerd/src/main.rs:1367-1371 | The first-seen union lists nothing twice |
| Reconcile.AddPaidWindows | apps/providerd/src/main.rs:1367-1371 | The push-if-absent loop computes the first-seen union and keeps the list free of duplicates |
| Reconcile.ProviderJobs.ReconcilePayment | apps/providerd/src/main.rs:1278-1402 | The handler changes exactly the one job, as the reconcile function says; a closed gate or an unknown job changes nothing |
| Reaper.AfterEveryTick | apps/agentd/src/main.rs:5607-5622 | After every tick from any state each accepted or settling match belongs to an existing running task and each locked order to such a match, also when the provider-offline sweep comes last |
| Reaper.OfflineSweep | apps/agentd/src/main.rs:5585-5601 | When the provider is offline every match of a task is over and no lock is left |
| Reaper.TickOnlyReleases | apps/agentd/src/main.rs:5607-5622 | A tick adds no lock, forgets no match and brings none back |
| Reaper.StaysActive | apps/agentd/src/main.rs:5607-5622 | A match is active after a tick without the offline sweep exactly when it was before and is not of a stopped or missing task |
| Reaper.LockSurvives | apps/agentd/src/market_support.rs:32-80 | An active match that the tick does not release keeps its sell-order lock exactly when no released match of a stopped or missing task shares that order, and its buy-order lock exactly when none shares the buy order |
| Reaper.BothLocksSurvive | apps/agentd/src/main.rs:5607-5622 | It keeps both exactly when no released match shares either; a rejected unknown match, filed under no task, is released on every tick |
| Reaper.SharedOrderOpened | apps/agentd/src/market_support.rs:32-80 | The tick opens the provider's order of a match, unless settled, exactly when the release call of a released match on the same order arrives |
| Operators.ActionsByKind | apps/agentd/src/dispute_support.rs:3-37 | Disputes about money allow penalty and refund, disputes about records rollback, both those and disputes about progress a retry, an unknown payment to be called final; all can be resolved, escalated and refreshed; nothing else is allowed |
| Operators.OnlyDisputesReopen | apps/agentd/src/main.rs:1237-1366 | A committed or given-up attempt leaves its status at a step exactly when the step acts on a dispute over it: by a retry that the type of the dispute allows, or, if committed, by a rollback or a final mark that it allows |
| Operators.OverForGood | apps/agentd/src/main.rs:1237-1366 | So in any continuation without such a step it keeps its status |
| Operators.RetryIsAnotherTry | apps/agentd/src/main.rs:4793-4842 | An operator's retry reaches exactly the retryable and the payment-unknown attempts, sends them to the first stage with their papers, and counts; recovery runs them on exactly if that leaves them below the cap |
| Operators.FinalIsLeftAlone | apps/agentd/src/main.rs:4844-4902 | An operator's final mark reaches exactly the same attempts, and recovery then leaves them alone |
| Operators.DisputedBills | apps/agentd/src/main.rs:1272-1351 | What acting on a dispute does to any bill: the bills of the trade of a dispute about money refund fifteen percent to within half a millionth, or keep the refund they had on a release, and pay the rest; a rollback fails the attempt's bills; every other bill stays as it is |
| Operators.SwitchEndsWork | apps/agentd/src/market_support.rs:82-144 | After a switch to another mode no match is accepted or settling, every accept attempt has ended and every settlement attempt at work waits for recovery; everything else keeps its status |
| Operators.SwitchUnlocksAll | apps/agentd/src/market_support.rs:82-100 | A switch after a tick of the reaper leaves no order locked |
| Operators.SwitchUnbinds | apps/agentd/src/market_support.rs:82-100 | A switch unbinds exactly the tasks that were bound to a match of their own that it ends, and changes nothing else in a task |
| Operators.CleanedTask | apps/agentd/src/market_support.rs:146-158 | Removing a task's bindings expires every match of the task, whatever its status, gives back their locks and leaves the task bound to none of them; the matches and the tasks of others stay as they are |
| Operators.StoppedTaskIsReleased | apps/agentd/src/main.rs:4367-4372 | A report that a task does not run only stops it, and the next tick expires all its matches and gives back their locks |
| Operators.KnownMatchEnds | apps/agentd/src/market_support.rs:160-298 | Cancelling, expiring, retrying and rejecting a known match give back its two locks, unbind its own task from it and open its order, unless settled, if the release call arrives; the record is cancelled, expired, forgotten or rejected, and no other match, task or order changes |
| Operators.UnknownMatchEnds | apps/agentd/src/main.rs:2765-2816 | For an unknown match rejecting records it as rejected, for no task and at no price, and the other three do nothing |
| Operators.StuckOpensToOperators | apps/agentd/src/main.rs:5533-5548 | The stuck detector lets operators act on exactly the attempts that were retryable or payment-unknown and those in progress with four retries or more |
| Operators.AddedOrderCanBeLocked | apps/providerd/src/main.rs:1853-1863 | An order added under a new identifier can be locked at once; one under a known identifier changes nothing |
| Accept.FailureChangesNoLocks | apps/agentd/src/main.rs:2398-2763 | Every exit but success leaves both lock sets and the set of active matches, and these matches themselves, as at entry |
| Accept.SuccessAddsOneMatch | apps/agentd/src/main.rs:2398-2763 | A fresh success adds exactly one active match and its two locks, all new, and binds the task to it |
| Accept.SuccessLocksTheOrder | apps/agentd/src/main.rs:2675-2742 | The accepted match's sell order is LOCKED at the provider |
| Accept.LockFailureForgetsTheOldMatch | apps/agentd/src/main.rs:2675-2715 | A failing exit leaves tasks and matches as they were, except a refused provider lock, which restores the tasks exactly when the task was unbound before, so that an earlier match is forgotten, not restored, and drops any record under the id of the match |
| Accept.KeysAreNeverRebound | apps/agentd/src/main.rs:2738-2751 | Over every run a key of the idempotency ledger leads to a COMMITTED accept attempt, for good and always the same one |
| Accept.RepeatingAnAccept | apps/agentd/src/main.rs:2410-2464 | After any run, the same request under the same key is told the match is accepted, another request is refused as a conflict, and neither changes anything |
| Accept.AnswersExactly | apps/agentd/src/main.rs:2398-2763 | Each of the nine answers is given exactly under its condition on key, market, match, proposals, locks, task and provider, stated without the handler; NotProposed exactly if the market is there, no key answers, the match is not active or settled and no proposal has its id |
| Accept.AcceptedOnItsTerms | apps/agentd/src/main.rs:2533-2556 | An accepted match has the price and the units of the first proposal with its id, for the task that the buy order names |
| Accept.AttemptLeft | apps/agentd/src/main.rs:2466-2763 | Every answer that starts an accept attempt leaves it in the status that belongs to the answer, and a known key's answer starts none |
| Matching.ComputeMatches | apps/agentd/src/main.rs:3159-3265 | Open unlocked buys, in order of creation, get one match each with the best feasible sell order and its terms, and none exactly when no sell is feasible |
| Matching.FeasibleExactly | apps/agentd/src/main.rs:3151-3224 | A sell order can serve a buyer exactly when it is open, unlocked, of the provider wanted, no dearer than the limit and small enough to start, and the last registry entry of its provider has the benchmark, fp16 and int8 where asked for, and every other capability among its tags |
| Matching.ProposalsServe | apps/agentd/src/main.rs:3226-3262 | Every proposal is for a queued buyer at the best sell order for it |
| Matching.HeadIsBest | apps/agentd/src/main.rs:3226-3244 | The head of the sorted candidates is the feasible sell that none is preferred to by price, then descending benchmark, then age, and that precedes its equals in the input |
| Matching.BestIsUnique | apps/agentd/src/main.rs:3226-3244 | That sell order is unique |
| Matching.BestIsCheapest | apps/agentd/src/main.rs:3226-3242 | No feasible sell order is cheaper than the best one; of equally cheap ones it is on the fastest provider, of these the oldest, of these the first |
| Matching.TermsAreFair | apps/agentd/src/main.rs:3244-3261 | The agreed price is halfway between the seller's price and the buyer's maximum, and the agreed units are the most both allow, not below the seller's minimum |
| Matching.SameMatchId | apps/agentd/src/main.rs:2188-2190 | Two pairs of orders have the same match id exactly when they are the same pair or a piece of one sell id, with its hyphen, has moved into the other buy id |
| Matching.MatchIdsCollide | apps/agentd/src/main.rs:2188-2190 | Some other pair has the id of a match exactly when there is a hyphen in one of its two order ids, as there is in every buy order id of a task |
| Matching.SellOrdersAreShared | apps/agentd/src/main.rs:3186-3262 | Proposing does not use up a sell order: two like buyers are proposed the same one |
| Matching.IndexProviders | apps/agentd/src/main.rs:3166-3169 | The index answers with the last registry entry of a provider |
| Matching.FilterOpenBuys | apps/agentd/src/main.rs:3180-3184 | Exactly the open unlocked buys, in order |
| Matching.QueueIsOpenBuys | apps/agentd/src/main.rs:3180-3184 | The queue holds each open unlocked buy order as often as it was handed in, and no other |
| Matching.OldestBuyFirst | apps/agentd/src/main.rs:3184 | The buyer whose order was created earlier is answered first |
| Matching.FindOpenSells | apps/agentd/src/main.rs:3186-3189 | Exactly the open unlocked sells, in order |
| Matching.FindCandidates | apps/agentd/src/main.rs:3193-3224 | Exactly the open sells that pass every test, in input order, with their registered provider |
| StableSort.SortBySorts | apps/agentd/src/main.rs:3226-3242 | The sort modelling the library's is a permutation in order |
| StableSort.SortByStable | apps/agentd/src/main.rs:3226-3242 | It keeps the order of elements that compare equal |
| StableSort.HeadIsFirstLeast | apps/agentd/src/main.rs:3226-3244 | Its head is the first least element of the input |
| Settlement.SettleScene | apps/agentd/src/main.rs:3825-4270 | From the first provider call on, a pass unsettles no order, changes neither whose attempt nor which match it is, and marks the attempt settled only with the provider's order SETTLED |
| Settlement.InvoiceScene | apps/agentd/src/main.rs:3886-4270 | The same from the create_invoice stage on |
| Settlement.PaymentScene | apps/agentd/src/main.rs:3999-4270 | The same from the settle_payment stage on |
| Settlement.RecordScene | apps/agentd/src/main.rs:4089-4270 | The same from the record_result stage on |
| Settlement.CommitScene | apps/agentd/src/main.rs:4194-4270 | The same for the last stage |
| Settlement.Release | apps/agentd/src/main.rs:3730-3770 | The compensation after a failure unlocks the match and keeps the same frame |
| Settlement.PutBack | apps/agentd/src/main.rs:3890-3914 | The same with the drained windows put back in front |
| Settlement.RunStage | apps/agentd/src/main.rs:5050-5479 | A stage run touches no more of the task than its bills, unsettles no order and calls the attempt settled only with the order SETTLED |
| Settlement.RunCreateInvoice | apps/agentd/src/main.rs:5090-5198 | The same for create_invoice |
| Settlement.RunSettlePayment | apps/agentd/src/main.rs:5199-5309 | The same for settle_payment |
| Settlement.RunRecordResult | apps/agentd/src/main.rs:5310-5430 | The same for record_result |
| Agent.RebindingSteps | apps/agentd/src/market_support.rs:32-298 | Accepts, releases, mode switches, reaper ticks and operator actions do to tasks no more than bind or unbind them |
| Daemon.AppState.MaybeMergeAndSettle | apps/agentd/src/main.rs:3708-4301 | The while loop over the shared maps ends and does what one pass function says, on every field |
| Daemon.AppState.SettlePass | apps/agentd/src/main.rs:3794-4300 | One iteration does what the pass function says and reports whether it committed |
| Daemon.AppState.OpenAttempt | apps/agentd/src/main.rs:3794-3824 | Draining, attempt creation, billing and the SETTLING mark leave the opening scene |
| Daemon.AppState.SettleMark | apps/agentd/src/main.rs:3825-4270 | The first stage and all that follows it leave the scene the stage functions say |
| Daemon.AppState.NoteMark | apps/agentd/src/main.rs:3850-3885 | The bookkeeping after provider_mark_settling |
| Daemon.AppState.SettleInvoice | apps/agentd/src/main.rs:3886-4270 | The same from create_invoice on |
| Daemon.AppState.NoteInvoice | apps/agentd/src/main.rs:3960-3998 | The bookkeeping after a made invoice |
| Daemon.AppState.SettlePayment | apps/agentd/src/main.rs:3999-4270 | The same from settle_payment on |
| Daemon.AppState.NotePayment | apps/agentd/src/main.rs:4049-4088 | The bookkeeping after a taken payment |
| Daemon.AppState.SettleRecord | apps/agentd/src/main.rs:4089-4270 | The same from record_result on |
| Daemon.AppState.NoteResult | apps/agentd/src/main.rs:4161-4193 | The bookkeeping after a recorded result |
| Daemon.AppState.SettleCommit | apps/agentd/src/main.rs:4194-4270 | The same for the last stage |
| Daemon.AppState.ReleaseAfterFailure | apps/agentd/src/main.rs:3730-3770 | The compensation closure leaves the released scene |
| Daemon.AppState.PutBackAndRelease | apps/agentd/src/main.rs:3890-3914 | The failing exits after the first leave the put-back scene |
| Daemon.AppState.AdvanceSettlementAttemptStage | apps/agentd/src/main.rs:2326-2347 | Moves stage and status only as the two tables allow, and no other attempt |
| Daemon.AppState.FailSettlementAttempt | apps/agentd/src/main.rs:2349-2372 | Sets the stage and counts the failure always, the status only as the table allows |
| Daemon.AppState.FinalizeSettlementAttempt | apps/agentd/src/main.rs:2374-2396 | Commits as the table allows and sets both marks always |
| Daemon.AppState.TakeReport | apps/agentd/src/main.rs:4363-4387 | A report admits a window exactly when it is running, later than the last and unknown |
| Daemon.AppState.ApplyProviderPoll | apps/agentd/src/main.rs:4352-4401 | A poll does to the whole state what the poll function says |
| Daemon.AppState.ResumeSettlementAttempt | apps/agentd/src/main.rs:5481-5501 | Runs the present stage as the stage function says; an unknown attempt changes nothing |
| Daemon.AppState.ReplayCreateInvoice | apps/agentd/src/main.rs:5090-5198 | The stage code does what the stage function says |
| Daemon.AppState.NoteReplayedInvoice | apps/agentd/src/main.rs:5176-5197 | The bookkeeping after a replayed create_invoice |
| Daemon.AppState.ReplaySettlePayment | apps/agentd/src/main.rs:5199-5309 | The stage code does what the stage function says |
| Daemon.AppState.ReplayRecordResult | apps/agentd/src/main.rs:5310-5430 | The stage code does what the stage function says |
| Daemon.AppState.WindowsOf | apps/agentd/src/main.rs:5121-5129 | The filter loop returns the windows the attempt's bills remember, in order |
| Daemon.AppState.NoteRun | apps/agentd/src/main.rs:5736-5772 | Counts the run, sets the status and the time to wait until |
| Daemon.AppState.RunVisit | apps/agentd/src/main.rs:5728-5786 | A visit that runs a stage does what the recovery function says |
| Daemon.AppState.VisitAttempt | apps/agentd/src/main.rs:5696-5786 | Any visit does what the recovery function says |
| Daemon.AppState.RunRecoveryTick | apps/agentd/src/main.rs:5676-5788 | The tick visits exactly the attempts found recoverable at its start, each once, in some order |
| Daemon.AppState.VisitAll | apps/agentd/src/main.rs:5695-5787 | The loop visits exactly the given attempts, each once |
| Daemon.AppState.DetectStuckAttempts | apps/agentd/src/main.rs:5533-5548 | The in-place loop is the stuck-detection function |
| Daemon.AppState.RetrySettlementAttempt | apps/agentd/src/main.rs:4793-4842 | Restarts exactly a retryable or payment-unknown attempt |
| Daemon.AppState.MarkSettlementAttemptFinal | apps/agentd/src/main.rs:4844-4902 | Ends exactly a retryable or payment-unknown attempt |
| Daemon.AppState.OverrideAttempt | apps/agentd/src/main.rs:1247-1297 | A dispute action writes the status whatever it was |
| Daemon.AppState.RollBackBills | apps/agentd/src/main.rs:1272-1282 | The loop over all tasks fails the bills of the attempt and no others |
| Daemon.AppState.PenalizeBills | apps/agentd/src/main.rs:1304-1325 | The loop over all tasks penalizes the bills of the trade and no others |
| Daemon.AppState.RefundBills | apps/agentd/src/main.rs:1327-1351 | The loop over all tasks refunds the bills of the trade and no others |
| Daemon.AppState.TakeAction | apps/agentd/src/main.rs:1246-1360 | Each action does what the action function says |
| Daemon.AppState.ApplyDisputeAction | apps/agentd/src/main.rs:1237-1366 | Succeeds exactly for a known dispute and an action its type allows, and otherwise changes nothing |
| Daemon.AppState.ReleaseBindingAndLocks | apps/agentd/src/market_support.rs:32-80 | Releases one match, its two locks, its order and its task's binding |
| Daemon.EndTradeIfDelivered | apps/agentd/src/main.rs:4235-4264 | The last stage ends exactly a trade that has delivered its commitment, by the loops above |
| Daemon.AppState.ReleaseMatches | apps/agentd/src/market_support.rs:155-157 | Releasing matches one after the other, in any order, is releasing the set of them at once |
| Daemon.AppState.CleanupTaskBindings | apps/agentd/src/market_support.rs:146-158 | Expires all matches of the task |
| Daemon.AppState.EndMatch | apps/agentd/src/market_support.rs:160-250 | Cancel and expire release the match if there is one |
| Daemon.AppState.RetryMatch | apps/agentd/src/market_support.rs:252-298 | Releases the match and makes it retryable |
| Daemon.AppState.RejectMatch | apps/agentd/src/main.rs:2765-2816 | Releases a known match as rejected, records an unknown one |
| Daemon.AppState.ConvergeModeState | apps/agentd/src/market_support.rs:82-144 | A changed mode expires matches in flight, abandons accept attempts and interrupts settlement attempts |
| Daemon.AppState.InterruptAttempts | apps/agentd/src/market_support.rs:117-134 | The in-place loop interrupts exactly the attempts under way |
| Daemon.AppState.AbandonAccepts | apps/agentd/src/market_support.rs:103-116 | The in-place loop fails exactly the accept attempts that had not ended |
| Daemon.AppState.SetMarketMode | apps/agentd/src/main.rs:2823-2858 | The handler does what the mode-switch function says; the same mode changes nothing |
| Daemon.AppState.ReapExpiredLocks | apps/agentd/src/main.rs:5503-5531 | Keeps exactly the locks of active matches |
| Daemon.AppState.CleanupStoppedTasks | apps/agentd/src/main.rs:5550-5562 | Expires exactly the matches of stopped tasks, whatever order the tasks come in |
| Daemon.AppState.CleanupTasks | apps/agentd/src/main.rs:5559-5561 | The loop over task ids expires the matches of all of them |
| Daemon.AppState.ExpireOrphanedMatches | apps/agentd/src/main.rs:5564-5583 | Expires exactly the matches without a task |
| Daemon.AppState.HandleProviderOffline | apps/agentd/src/main.rs:5585-5601 | Expires exactly the matches of existing tasks |
| Daemon.AppState.RunReaperTick | apps/agentd/src/main.rs:5607-5622 | The tick does what the reaper function says |
| Daemon.AppState.TakeLocks | apps/agentd/src/main.rs:2466-2632 | Takes both locks, or takes none and says why |
| Daemon.AppState.TakeOwnLocks | apps/agentd/src/main.rs:2563-2632 | The undo of half-taken locks leaves both lock sets as they were |
| Daemon.AppState.RollBackAccept | apps/agentd/src/main.rs:2675-2715 | The undo removes match and locks and unbinds the task |
| Daemon.AppState.LockAtProvider | apps/agentd/src/main.rs:2645-2751 | Keeps everything on success, undoes it on failure, and records a key only on success |
| Daemon.AppState.AcceptMatch | apps/agentd/src/main.rs:2398-2763 | The handler with all its exits is the accept function, for which the accept laws are proved |
| Daemon.AppState.AcceptNew | apps/agentd/src/main.rs:2466-2763 | The same past the idempotency check |
| Daemon.AppState.AcceptLocked | apps/agentd/src/main.rs:2633-2763 | The same past the agent's own locks |
| Daemon.ReleaseUnion | apps/agentd/src/market_support.rs:32-80 | Releasing one set of matches and then another is releasing their union, although released matches may share orders, locks and tasks |
| Hashing.Sha256 | crates/common/src/hash.rs:112-199 | The code's output satisfies the definition of section 6.2 of FIPS 180-4 for every input shorter than 2^61 bytes, and for longer ones the same computation with the wrapped length |
| Hashing.DigestIsStandard | crates/common/src/hash.rs:112-199 | For such inputs the standard's relation between message and digest holds of exactly the computed digest |
| Hashing.PaddingIsStandard | crates/common/src/hash.rs:131-137 | The padded message is the one of section 5.1.1, with the least number of zero bits |
| Hashing.PaddingIsUnique | crates/common/src/hash.rs:131-137 | The standard's padding is unique |
| Hashing.PaddingIsInjective | crates/common/src/hash.rs:131-137 | Different messages are padded differently, also when the length wraps |
| Hashing.PadMessage | crates/common/src/hash.rs:131-137 | The push loop ends and computes that padding |
| Hashing.Schedule | crates/common/src/hash.rs:141-151 | The array is filled with the message schedule of section 6.2.2 |
| Hashing.RunRound | crates/common/src/hash.rs:163-181 | One round on the eight registers is the standard's |
| Hashing.RunRounds | crates/common/src/hash.rs:153-182 | So are the sixty-four |
| Hashing.AddInto | crates/common/src/hash.rs:184-191 | The registers are added to the hash value in place |
| Hashing.ProcessBlock | crates/common/src/hash.rs:140-192 | A block updates the hash value as the standard's compression does |
| Fips180.RoundConstants | crates/common/src/hash.rs:113-124 | The sixty-four constants are the first thirty-two bits of the fractional parts of the cube roots of the first primes |
| Fips180.InitialHash | crates/common/src/hash.rs:126-129 | The initial hash value is that of the square roots of the first eight |
| Hashing.EqualHashHex | crates/common/src/hash.rs:26-35 | Equal hex digests mean equal inputs or a SHA-256 collision |
| Bytes.ToHex | crates/common/src/hash.rs:95-102 | The loop computes two lower-case digits a byte |
| Bytes.HexInjective | crates/common/src/hash.rs:95-110 | Hex text determines the bytes |
| Bytes.HexRoundTrip | crates/common/src/hash.rs:95-110 | A reader of lower-case digits, high nibble first, gets the bytes back |
| CanonicalJson.RoundTripExactly | crates/common/src/hash.rs:44-93 | Parsing what was written, followed by any input that ends or is delimited, gives back the value and the rest exactly when every number in the value is a token of section 6 of RFC 8259 |
| CanonicalJson.RoundTrip | crates/common/src/hash.rs:44-93 | The sufficiency half, by induction over arrays, objects, strings and numbers |
| CanonicalJson.ParsedTokens | crates/common/src/hash.rs:44-93 | The parser makes no number but a token |
| CanonicalJson.StringRoundTrip | crates/common/src/hash.rs:49-68 | Strings with every escape of section 7 and all of Unicode survive writing and parsing |
| CanonicalJson.WriteInjective | crates/common/src/hash.rs:44-93 | Different values with valid numbers have different bytes |
| CanonicalJson.NumbersMustBeTokens | crates/common/src/hash.rs:48 | With other number texts they need not: two concrete pairs of values share their bytes |
| CanonicalJson.WriteCanonicalJson | crates/common/src/hash.rs:44-93 | The recursive writer appends exactly the value's bytes to the buffer |
| CanonicalJson.WriteCharTo | crates/common/src/hash.rs:51-66 | One character is appended with its escape |
| CanonicalJson.LowerCaseDigits | crates/common/src/hash.rs:58-62 | Escaped control characters are written with the lower-case digits of hashes |
| CanonicalJson.WriteStringTo | crates/common/src/hash.rs:49-68 | The character loop appends the string |
| CanonicalJson.WriteItemsTo | crates/common/src/hash.rs:69-78 | The item loop appends the items with commas between |
| CanonicalJson.WriteEntryTo | crates/common/src/hash.rs:79-91 | An entry is appended as key, colon, value |
| CanonicalJson.WriteEntriesTo | crates/common/src/hash.rs:79-91 | The entry loop appends the entries with commas between |
| CanonicalJson.CanonicalJsonBytes | crates/common/src/hash.rs:38-42 | The fresh buffer ends up with the value's bytes |
| CanonicalJson.InsertLookup | crates/common/src/hash.rs:16-24 | Inserting into the ordered map changes the lookup of that key only |
| CanonicalJson.InsertSorted | crates/common/src/hash.rs:16-24 | It keeps the keys ascending |
| CanonicalJson.SortedUnique | crates/common/src/hash.rs:16-24 | Ordered maps with the same lookups are the same |
| CanonicalJson.InsertionOrderInvisible | crates/common/src/hash.rs:214-227 | The canonical bytes of an object do not depend on the order of insertion |
| Bytes.Utf8RoundTrip | crates/common/src/hash.rs:63-64 | UTF-8 decoding gives back each character and the rest |
| Bytes.KeyOrder | crates/common/src/hash.rs:16-24 | The map's key order, by UTF-8 bytes, is total |
| OrderedMap.FromPairsLookup | crates/common/src/evidence.rs:53-131 | A map filled with distinct keys answers with each inserted value |
| OrderedMap.FromPairsListed | crates/common/src/hash.rs:16-24 | Whatever the order of insertion, the object lists the pairs in ascending order of their keys |
| OrderedMap.ObjectBytesInjective | crates/common/src/evidence.rs:53-131 | Objects made from the same distinct keys, with equal bytes, were made from equal values |
| Receipts.EqualRoots | crates/metering/src/settlement.rs:159-173 | Batches with equal roots have the same length and agree window by window (amounts to the twelfth decimal), or two different byte strings with one SHA-256 digest are exhibited; the empty batch and different lengths included |
| Receipts.MaterialInjective | crates/metering/src/settlement.rs:112-157 | The hashed bytes of a window determine the whole hashed record |
| Receipts.MaterialMeaning | crates/metering/src/settlement.rs:123-141 | Equal records mean the same previous hash and the same window |
| Receipts.Fixed12Injective | crates/metering/src/settlement.rs:125-132 | Equal texts with twelve decimals mean equal amounts to the twelfth decimal |
| Receipts.Fixed12Reads | crates/metering/src/settlement.rs:125-136 | The text is an optional minus, digits, a point and twelve digits, and read as a number it is the amount to within half a unit of the twelfth decimal |
| Receipts.NearestEven | crates/metering/src/settlement.rs:125-136 | Of two equally near twelfth decimals the even one is taken |
| Receipts.MaterialLayout | crates/metering/src/settlement.rs:117-143 | The hashed record is written with exactly its eleven keys in ascending order, sha256:v1 under alg and every value as text |
| Receipts.ReceiptOwes | crates/metering/src/settlement.rs:112-115 | A receipt owes work times price for at least sixty valid samples and a sixtieth of it a sample otherwise; so for a positive base the whole exactly from sixty on, and nothing without any |
| Receipts.ActiveRatio | crates/metering/src/settlement.rs:175-177 | The active ratio lies between 0 and 1 |
| Receipts.SettleWindow | crates/metering/src/settlement.rs:112-157 | The receipt is the one whose hash covers the window, its amounts and the previous hash |
| Receipts.SettleBatch | crates/metering/src/settlement.rs:159-173 | The loop makes one receipt a window, each on the hash of the one before, and the root is the last |
| Evidence.TamperEvident | crates/common/src/evidence.rs:40-51 | A root verifies for another bundle exactly when the two are equal in every field and receipt, or their canonical bytes are a SHA-256 collision |
| Evidence.BundleInjective | crates/common/src/evidence.rs:53-131 | The canonical bytes determine every field of the bundle and of each receipt |
| Evidence.ReceiptInjective | crates/common/src/evidence.rs:133-184 | A receipt's canonical value determines every field |
| Evidence.ReceiptLayout | crates/common/src/evidence.rs:133-184 | A receipt is written with exactly its twelve keys in ascending order, window and samples as numbers, all else as text |
| Evidence.BundleLayout | crates/common/src/evidence.rs:53-131 | A bundle is written with exactly its fourteen keys in ascending order |
| Evidence.ReceiptToCanonical | crates/common/src/evidence.rs:133-184 | The twelve insertions make the receipt's canonical value |
| Evidence.BundleToCanonical | crates/common/src/evidence.rs:53-131 | The fourteen insertions make the bundle's canonical value |
| Evidence.ComputeEvidenceRoot | crates/common/src/evidence.rs:40-43 | The root is the hash of the bundle's canonical bytes |
| Evidence.Verify | crates/common/src/evidence.rs:49-51 | Verification holds exactly for the bundle's own root |
| Invoices.EveryReceiptIsBilledOnce | crates/metering/src/settlement.rs:88-109 | After any receipts the i-th invoice is of exactly the i-th group of two or four accepted receipts, all of one job; the rest is the buffer, which never fills |
| Invoices.InvoiceLists | crates/metering/src/settlement.rs:179-190 | An invoice lists the windows and the receipt hashes of its two or four receipts, in order, under the job of each of them |
| Invoices.InvoicedMoneyIsOwed | crates/metering/src/settlement.rs:179-190 | Invoices and buffer together bill exactly what the accepted receipts owe |
| Invoices.OwedIsMetered | crates/metering/src/settlement.rs:179-190 | What receipts of the settlement owe together is a sixtieth of work times price times counted samples, summed over their windows |
| Invoices.InvoicesAreMetered | crates/metering/src/settlement.rs:179-190 | So after any such receipts each invoice bills exactly what was metered in its group of windows |
| Invoices.CrossJobReceipt | crates/metering/src/settlement.rs:89-98 | A receipt is refused exactly if the buffered ones are of another job; the error names that job and the receipt's, and exactly then nothing changes |
| Invoices.InvoiceAggregator.constructor | crates/metering/src/settlement.rs:80-86 | A new aggregator is empty and valid |
| Invoices.InvoiceAggregator.Ingest | crates/metering/src/settlement.rs:88-109 | Buffer and answer are those of the ingest function, and the invariant holds on every exit |

## Left out

- Money is exact: amounts are real numbers, rounded to millionths where the code rounds; the error of 64-bit floating
  point, infinities and NaN are not modelled. Counters do not overflow.
- Payload hashes of requests and of accept attempts are represented by what is hashed, so equal hashes mean equal
  payloads; the reconcile hash is an arbitrary function.
- Steps are atomic: one poll of a task with its settle pass, one visit of recovery, one handler call, one reaper tick.
  What two threads can do to each other inside one of these is not part of the model.
- Attempt identifiers are inputs; the code takes them from a nanosecond clock. A step given an identifier that exists
  changes nothing, and the methods of `Daemon.AppState` that create an attempt demand a new one.
- Daemon.AppState.MaybeMergeAndSettle: also demands that each match is stored under its own id, which
  `Bills.RunBilled` shows of every reachable state; the methods that release several matches demand the same.
- A provider call is answered, carried out with the answer lost, or not carried out; the provider's automation gate
  refusing a call is the last of these. HTTP, JSON parsing of answers and time-outs are left out.
- A gateway call is confirmed, carried out without a confirmation, sent and not carried out, or not sent, as an input
  says, with the error reported. The gateway itself is not modelled, so a repeated call it would recognise counts as
  another payment, and an error in its reply is not taken as proof that nothing was done: the client takes any reply
  in which the word error stands in quotes for one (crates/fiber_rpc/src/client.rs:269-278). The rest of the JSON-RPC
  client and the mock gateway are left out, as are the action guards, whose verdicts are inputs too.
- The market fetched by `accept_match` is an input (the proposals), not linked to `Matching.ComputeMatches` nor to the
  provider's orders; building buy orders from tasks and pricing bands is left out.
- The reconcile notice the agent sends after a commit is not linked to `Reconcile`, which takes any sequence of
  requests.
- Disputes can be opened at any time, of any type and about anything, which is more than the code does; a dispute's
  own status, evidence and flags are left out, and so are the rules that open them automatically.
- Allowed dispute actions are a set; the order and the removal of duplicates in the source's list have no effect on
  the membership test.
- A task's total paid counts nothing for attempts that recovery brings to their commit, as in the code; the restart
  that sums it from the bills is left out. `last_settled_window_index`, payment records and last-document fields are
  views and are left out, as are a bill's unit price and its start and end times.
- Tasks are configured at the start and stopped or restarted by a step of their own; budget and stall rules that
  decide when, auto-pause, task creation over HTTP and removal are left out.
- The fields `admitted`, `paid` and `stranded` of a task, `fate` of an attempt, and `gateway` and `overridden` of the
  state, are history: the code does not keep them, and no step looks at them.
- Evidence refresh on polls, telemetry, audit strings, events, timestamps, status views and the trade desk are left
  out.
- Persistence and restart, configuration, protocol agreements and ed25519 signing are left out.
- The standard library's sort, B-tree map and hash maps are modelled by a stable insertion sort, a sorted sequence and
  finite maps; iteration over a hash map visits the keys in some order.
- Twelve-decimal text of amounts rounds half to even of the exact value; -0.0 is 0.0.
- Transition tables of trades, disputes, matches and accept attempts are left out: the modelled code writes those
  statuses directly.
