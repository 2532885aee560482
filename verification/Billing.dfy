/** The billing windows of a task: the `*_billing_*` helpers and dispute refunds of apps/agentd/src/main.rs. */
module Billing {
  import opened Wrappers
  import opened Market

  /** A metered window and what it owes. */
  datatype Charge = Charge(windowIndex: nat, owed: real)

  datatype Bill = Bill(
    billId: string,
    tradeId: string,
    attemptId: string,
    windowIndex: nat,
    compute: real,
    gross: real,
    penalty: real,
    refund: real,
    net: real,
    invoiceId: Option<string>,
    paymentId: Option<string>,
    status: BillStatus)

  // ---- Creating bills ----

  function NewBill(attemptId: string, tradeId: string, w: Charge, unitPrice: real, interval: nat): Bill {
    var gross := Round(w.owed);
    Bill(
      BillingWindowKey(tradeId, w.windowIndex, interval), tradeId, attemptId, w.windowIndex,
      Round(if unitPrice > 0.0 then w.owed / unitPrice else w.owed),
      gross, 0.0, 0.0, gross, None, None, Pending)
  }

  predicate HasBill(bills: seq<Bill>, billId: string) {
    exists i :: 0 <= i < |bills| && bills[i].billId == billId
  }

  /** One bill for each window that has none yet under its key. */
  function Upserted(bills: seq<Bill>, attemptId: string, tradeId: string, windows: seq<Charge>, unitPrice: real, interval: nat)
    : seq<Bill>
  {
    if windows == [] then bills
    else
      var n := |windows| - 1;
      var earlier := Upserted(bills, attemptId, tradeId, windows[..n], unitPrice, interval);
      var bill := NewBill(attemptId, tradeId, windows[n], unitPrice, interval);
      if HasBill(earlier, bill.billId) then earlier else earlier + [bill]
  }

  // ---- Changing bills ----

  predicate Blocked(b: Bill, attemptId: string, next: BillStatus) {
    b.attemptId == attemptId && !CanTransitionBill(b.status, next)
  }

  /** Where the status loop stops: at the first bill of the attempt that may not move, or at the end. */
  function StopsAt(bills: seq<Bill>, attemptId: string, next: BillStatus): (n: nat)
    ensures n <= |bills|
    ensures forall i :: 0 <= i < n ==> !Blocked(bills[i], attemptId, next)
    ensures n < |bills| ==> Blocked(bills[n], attemptId, next)
  {
    if bills == [] || Blocked(bills[0], attemptId, next) then 0
    else
      assert forall i :: 1 <= i < |bills| ==> bills[1..][i - 1] == bills[i];
      1 + StopsAt(bills[1..], attemptId, next)
  }

  function WithStatus(b: Bill, attemptId: string, next: BillStatus): Bill {
    if b.attemptId == attemptId then b.(status := next) else b
  }

  /** The bills after the status loop, which keeps what it changed before it stopped. */
  function Advanced(bills: seq<Bill>, attemptId: string, next: BillStatus): seq<Bill> {
    var stop := StopsAt(bills, attemptId, next);
    seq(|bills|, i requires 0 <= i < |bills| => if i < stop then WithStatus(bills[i], attemptId, next) else bills[i])
  }

  function Invoice(bills: seq<Bill>, attemptId: string, invoiceId: string): seq<Bill> {
    seq(|bills|, i requires 0 <= i < |bills| =>
      if bills[i].attemptId == attemptId then bills[i].(invoiceId := Some(invoiceId)) else bills[i])
  }

  function Paying(bills: seq<Bill>, attemptId: string, paymentId: string): seq<Bill> {
    seq(|bills|, i requires 0 <= i < |bills| =>
      if bills[i].attemptId == attemptId then bills[i].(paymentId := Some(paymentId)) else bills[i])
  }

  /** Every bill of the attempt gets the status, whatever it had. */
  function AllMoved(bills: seq<Bill>, attemptId: string, next: BillStatus): seq<Bill> {
    seq(|bills|, i requires 0 <= i < |bills| => WithStatus(bills[i], attemptId, next))
  }

  function Penalized(b: Bill): Bill {
    var penalty := Round(b.gross * BREACH_REFUND);
    b.(penalty := penalty, refund := penalty, net := Round(Max0(b.gross - penalty)), status := Refunded)
  }

  function PenaltyApplied(bills: seq<Bill>, tradeId: Option<string>): seq<Bill> {
    seq(|bills|, i requires 0 <= i < |bills| => if tradeId == Some(bills[i].tradeId) then Penalized(bills[i]) else bills[i])
  }

  function Released(b: Bill): Bill {
    var refund := if b.refund <= 0.0 then Round(b.gross * BREACH_REFUND) else b.refund;
    var penalty := if b.refund <= 0.0 then refund else b.penalty;
    b.(refund := refund, penalty := penalty, net := Round(Max0(b.gross - refund)), status := Refunded)
  }

  function RefundReleased(bills: seq<Bill>, tradeId: Option<string>): seq<Bill> {
    seq(|bills|, i requires 0 <= i < |bills| => if tradeId == Some(bills[i].tradeId) then Released(bills[i]) else bills[i])
  }

  // ---- Ending a trade ----

  function Delivered(bills: seq<Bill>, tradeId: string): real {
    if bills == [] then 0.0
    else
      var n := |bills| - 1;
      Delivered(bills[..n], tradeId) + if bills[n].tradeId == tradeId then bills[n].compute else 0.0
  }

  function Gross(bills: seq<Bill>, tradeId: string): real {
    if bills == [] then 0.0
    else
      var n := |bills| - 1;
      Gross(bills[..n], tradeId) + if bills[n].tradeId == tradeId then bills[n].gross else 0.0
  }

  function Refunds(bills: seq<Bill>, tradeId: string): real {
    if bills == [] then 0.0
    else
      var n := |bills| - 1;
      Refunds(bills[..n], tradeId) + if bills[n].tradeId == tradeId then bills[n].refund else 0.0
  }

  function Nets(bills: seq<Bill>, tradeId: string): real {
    if bills == [] then 0.0
    else
      var n := |bills| - 1;
      Nets(bills[..n], tradeId) + if bills[n].tradeId == tradeId then bills[n].net else 0.0
  }

  function CountOf(bills: seq<Bill>, tradeId: string): nat {
    if bills == [] then 0
    else CountOf(bills[..|bills| - 1], tradeId) + if bills[|bills| - 1].tradeId == tradeId then 1 else 0
  }

  function ShareOf(gross: real, grossTotal: real): real {
    if grossTotal > 0.0 then gross / grossTotal else 0.0
  }

  function RefundShare(refundToBuyer: real, gross: real, grossTotal: real): real {
    refundToBuyer * ShareOf(gross, grossTotal)
  }

  function Breached(b: Bill, refundToBuyer: real, grossTotal: real): Bill {
    var refund := Round(RefundShare(refundToBuyer, b.gross, grossTotal));
    b.(refund := refund,
       penalty := refund,
       net := Round(Max0(b.gross - refund)),
       status := if b.status == Disputed then Disputed else Refunded)
  }

  function Fulfilled(b: Bill): Bill {
    b.(penalty := 0.0, refund := 0.0, net := Round(b.gross), status := if b.status == Disputed then Disputed else Finalized)
  }

  function TradeOutcome(bills: seq<Bill>, tradeId: string, committed: real): PenaltyOutcome {
    EvaluateBreachPenalty(Gross(bills, tradeId), committed, Delivered(bills, tradeId))
  }

  function FinalizedTrade(bills: seq<Bill>, tradeId: string, committed: real): seq<Bill> {
    var outcome := TradeOutcome(bills, tradeId, committed);
    var grossTotal := Gross(bills, tradeId);
    seq(|bills|, i requires 0 <= i < |bills| =>
      if bills[i].tradeId != tradeId then bills[i]
      else if outcome.breached then Breached(bills[i], outcome.refundToBuyer, grossTotal)
      else Fulfilled(bills[i]))
  }

  /** `compute_trade_billing_totals` of a trade's bills: gross, refund and payout. */
  function TradeTotals(bills: seq<Bill>, tradeId: string): (real, real, real) {
    (Round(Gross(bills, tradeId)), Round(Refunds(bills, tradeId)), Round(Nets(bills, tradeId)))
  }

  predicate CountsAsPaid(b: Bill) {
    b.status in {Paid, Finalized, Refunded}
  }

  function PaidOut(bills: seq<Bill>): real {
    if bills == [] then 0.0
    else
      var n := |bills| - 1;
      PaidOut(bills[..n]) + if CountsAsPaid(bills[n]) then bills[n].net else 0.0
  }

  // ---- The laws of money ----

  /** Amounts are whole millionths and, unless a negative amount was metered, the bill's money adds up. */
  predicate Balanced(b: Bill) {
    && IsMicro(b.gross) && IsMicro(b.refund)
    && (b.gross >= 0.0 ==> b.gross == b.net + b.refund && b.penalty == b.refund && 0.0 <= b.refund <= b.gross)
  }

  ghost predicate AllBalanced(bills: seq<Bill>) {
    forall i :: 0 <= i < |bills| ==> Balanced(bills[i])
  }

  lemma NewBillBalanced(attemptId: string, tradeId: string, w: Charge, unitPrice: real, interval: nat)
    ensures Balanced(NewBill(attemptId, tradeId, w, unitPrice, interval))
  {
    hide Round, IsMicro, BillingWindowKey;
    RoundIsMicro(w.owed);
    RoundIsMicro(0.0);
    RoundOfMicro(0.0);
  }

  /** Fifteen percent of a nonnegative amount, rounded, lies between nothing and the amount. */
  lemma RefundInRange(gross: real)
    requires IsMicro(gross) && gross >= 0.0
    ensures 0.0 <= Round(gross * BREACH_REFUND) <= gross
  {
    RoundMonotone(0.0, gross * BREACH_REFUND);
    RoundMonotone(gross * BREACH_REFUND, gross);
    RoundOfMicro(gross);
    RoundOfMicro(0.0);
  }

  lemma NetAfterRefund(gross: real, refund: real)
    requires IsMicro(gross) && IsMicro(refund) && refund <= gross
    ensures Round(Max0(gross - refund)) == gross - refund
  {
    MicroSum(gross, refund);
    RoundOfMicro(gross - refund);
  }

  lemma PenalizedBalanced(b: Bill)
    requires Balanced(b)
    ensures Balanced(Penalized(b))
  {
    hide Round, IsMicro, Max0;
    RoundIsMicro(b.gross * BREACH_REFUND);
    if b.gross >= 0.0 {
      RefundInRange(b.gross);
      NetAfterRefund(b.gross, Round(b.gross * BREACH_REFUND));
    }
  }

  /** The penalty keeps a bill's money whole exactly when its amount is not negative. */
  lemma PenaltyNeedsNonnegative(b: Bill)
    requires IsMicro(b.gross)
    ensures b.gross >= 0.0 <==> Penalized(b).gross == Penalized(b).net + Penalized(b).refund
  {
    var refund := Round(b.gross * BREACH_REFUND);
    if b.gross >= 0.0 {
      RoundIsMicro(b.gross * BREACH_REFUND);
      RefundInRange(b.gross);
      NetAfterRefund(b.gross, refund);
    } else {
      RoundError(b.gross * BREACH_REFUND);
      RoundOfMicro(b.gross);
      RoundMonotone(b.gross, b.gross * BREACH_REFUND);
      RoundOfMicro(0.0);
      assert b.gross * MICRO <= -1.0;
      assert refund > b.gross;
    }
  }

  lemma ReleasedBalanced(b: Bill)
    requires Balanced(b)
    ensures Balanced(Released(b))
  {
    hide Round, IsMicro, Max0;
    RoundIsMicro(b.gross * BREACH_REFUND);
    if b.gross >= 0.0 {
      RefundInRange(b.gross);
      NetAfterRefund(b.gross, Released(b).refund);
    }
  }

  lemma FulfilledBalanced(b: Bill)
    requires Balanced(b)
    ensures Balanced(Fulfilled(b))
  {
    hide Round, IsMicro;
    RoundOfMicro(b.gross);
    RoundOfMicro(0.0);
    RoundIsMicro(0.0);
  }

  lemma ShareOfRefund(gross: real, grossTotal: real)
    requires grossTotal > 0.0
    ensures grossTotal * BREACH_REFUND * ShareOf(gross, grossTotal) == gross * BREACH_REFUND
  {
    var share := gross / grossTotal;
    assert share * grossTotal == gross;
    assert grossTotal * BREACH_REFUND * share == (share * grossTotal) * BREACH_REFUND;
  }

  /** A bill's share of the trade's refund is fifteen percent of the bill. */
  lemma BreachRefund(gross: real, grossTotal: real)
    ensures RefundShare(Max0(grossTotal) * BREACH_REFUND, gross, grossTotal) ==
              if grossTotal > 0.0 then gross * BREACH_REFUND else 0.0
  {
    if grossTotal > 0.0 {
      ShareOfRefund(gross, grossTotal);
    }
  }

  lemma BreachedBalanced(b: Bill, grossTotal: real)
    requires Balanced(b)
    ensures Balanced(Breached(b, Max0(grossTotal) * BREACH_REFUND, grossTotal))
  {
    hide Round, IsMicro, Max0, RefundShare;
    var refund := if grossTotal > 0.0 then Round(b.gross * BREACH_REFUND) else 0.0;
    BreachRefund(b.gross, grossTotal);
    RoundIsMicro(b.gross * BREACH_REFUND);
    RoundIsMicro(0.0);
    RoundOfMicro(0.0);
    if b.gross >= 0.0 {
      RefundInRange(b.gross);
      NetAfterRefund(b.gross, refund);
    }
    assert Breached(b, Max0(grossTotal) * BREACH_REFUND, grossTotal).refund == refund;
  }

  // ---- Every operation keeps the laws ----

  /** A key is used once; the bills of an attempt share one trade and one status. */
  ghost predicate Coherent(bills: seq<Bill>) {
    && (forall i, j :: 0 <= i < j < |bills| ==> bills[i].billId != bills[j].billId)
    && (forall i, j :: 0 <= i < |bills| && 0 <= j < |bills| && bills[i].attemptId == bills[j].attemptId ==>
          bills[i].tradeId == bills[j].tradeId && bills[i].status == bills[j].status)
  }

  /** All the bills of the attempt are of the trade and have the status. */
  ghost predicate Holds(bills: seq<Bill>, attemptId: string, tradeId: string, status: BillStatus) {
    forall i :: 0 <= i < |bills| && bills[i].attemptId == attemptId ==> bills[i].tradeId == tradeId && bills[i].status == status
  }

  lemma AppendKeeps(bills: seq<Bill>, bill: Bill)
    requires Coherent(bills) && AllBalanced(bills) && Balanced(bill) && !HasBill(bills, bill.billId)
    requires Holds(bills, bill.attemptId, bill.tradeId, bill.status)
    ensures Coherent(bills + [bill]) && AllBalanced(bills + [bill])
    ensures Holds(bills + [bill], bill.attemptId, bill.tradeId, bill.status)
  {
    hide Balanced;
  }

  lemma {:induction false} UpsertedKeeps(bills: seq<Bill>, attemptId: string, tradeId: string, windows: seq<Charge>,
                                         unitPrice: real, interval: nat)
    requires Coherent(bills) && AllBalanced(bills) && Holds(bills, attemptId, tradeId, Pending)
    ensures var r := Upserted(bills, attemptId, tradeId, windows, unitPrice, interval);
            && Coherent(r) && AllBalanced(r) && Holds(r, attemptId, tradeId, Pending) && bills <= r
            && (forall i :: |bills| <= i < |r| ==> r[i].attemptId == attemptId)
  {
    if windows != [] {
      var n := |windows| - 1;
      UpsertedKeeps(bills, attemptId, tradeId, windows[..n], unitPrice, interval);
      var earlier := Upserted(bills, attemptId, tradeId, windows[..n], unitPrice, interval);
      var bill := NewBill(attemptId, tradeId, windows[n], unitPrice, interval);
      NewBillBalanced(attemptId, tradeId, windows[n], unitPrice, interval);
      if !HasBill(earlier, bill.billId) {
        AppendKeeps(earlier, bill);
      }
      hide Balanced, BillingWindowKey, Round, Coherent, Holds, HasBill;
    }
  }

  /**
   * With one status per attempt the loop that stops at the first forbidden move is all or nothing: it moves every bill
   * of the attempt when the table allows the move, and none otherwise.
   */
  lemma AdvancedIsAllOrNothing(bills: seq<Bill>, attemptId: string, tradeId: string, status: BillStatus, next: BillStatus)
    requires Holds(bills, attemptId, tradeId, status)
    ensures CanTransitionBill(status, next) ==>
              && Advanced(bills, attemptId, next) == AllMoved(bills, attemptId, next)
              && StopsAt(bills, attemptId, next) == |bills|
    ensures !CanTransitionBill(status, next) ==> Advanced(bills, attemptId, next) == bills
  {
    hide CanTransitionBill;
  }

  lemma MovedKeeps(bills: seq<Bill>, attemptId: string, next: BillStatus)
    requires Coherent(bills) && AllBalanced(bills)
    ensures Coherent(AllMoved(bills, attemptId, next)) && AllBalanced(AllMoved(bills, attemptId, next))
  {
    hide IsMicro;
  }

  lemma AdvancedKeeps(bills: seq<Bill>, attemptId: string, next: BillStatus)
    requires Coherent(bills) && AllBalanced(bills)
    ensures Coherent(Advanced(bills, attemptId, next)) && AllBalanced(Advanced(bills, attemptId, next))
  {
    var tradeId, status := "", Pending;
    if i :| 0 <= i < |bills| && bills[i].attemptId == attemptId {
      tradeId, status := bills[i].tradeId, bills[i].status;
    }
    AdvancedIsAllOrNothing(bills, attemptId, tradeId, status, next);
    MovedKeeps(bills, attemptId, next);
    hide StopsAt, CanTransitionBill, Coherent, AllBalanced, Advanced, AllMoved;
  }

  lemma InvoiceKeeps(bills: seq<Bill>, attemptId: string, id: string)
    requires Coherent(bills) && AllBalanced(bills)
    ensures Coherent(Invoice(bills, attemptId, id)) && AllBalanced(Invoice(bills, attemptId, id))
  {
    hide IsMicro;
  }

  lemma PayingKeeps(bills: seq<Bill>, attemptId: string, id: string)
    requires Coherent(bills) && AllBalanced(bills)
    ensures Coherent(Paying(bills, attemptId, id)) && AllBalanced(Paying(bills, attemptId, id))
  {
    hide IsMicro;
  }

  lemma PenaltyAppliedKeeps(bills: seq<Bill>, tradeId: Option<string>)
    requires Coherent(bills) && AllBalanced(bills)
    ensures Coherent(PenaltyApplied(bills, tradeId)) && AllBalanced(PenaltyApplied(bills, tradeId))
  {
    hide Balanced, Round, Max0;
    forall i | 0 <= i < |bills| ensures Balanced(Penalized(bills[i])) {
      PenalizedBalanced(bills[i]);
    }
  }

  lemma RefundReleasedKeeps(bills: seq<Bill>, tradeId: Option<string>)
    requires Coherent(bills) && AllBalanced(bills)
    ensures Coherent(RefundReleased(bills, tradeId)) && AllBalanced(RefundReleased(bills, tradeId))
  {
    hide Balanced, Round, Max0;
    forall i | 0 <= i < |bills| ensures Balanced(Released(bills[i])) {
      ReleasedBalanced(bills[i]);
    }
  }

  lemma FinalizedTradeBalanced(bills: seq<Bill>, tradeId: string, committed: real)
    requires AllBalanced(bills)
    ensures AllBalanced(FinalizedTrade(bills, tradeId, committed))
  {
    var outcome := TradeOutcome(bills, tradeId, committed);
    var total := Gross(bills, tradeId);
    assert outcome.breached ==> outcome.refundToBuyer == Max0(total) * BREACH_REFUND;
    forall i | 0 <= i < |bills|
      ensures Balanced(Fulfilled(bills[i])) && Balanced(Breached(bills[i], Max0(total) * BREACH_REFUND, total))
    {
      FulfilledBalanced(bills[i]);
      BreachedBalanced(bills[i], total);
    }
    hide Balanced, Round, Max0, TradeOutcome, Gross, RefundShare, Fulfilled, Breached;
  }

  lemma FinalizedTradeKeeps(bills: seq<Bill>, tradeId: string, committed: real)
    requires Coherent(bills) && AllBalanced(bills)
    ensures Coherent(FinalizedTrade(bills, tradeId, committed)) && AllBalanced(FinalizedTrade(bills, tradeId, committed))
  {
    hide Balanced, Round, Max0, TradeOutcome, Gross, RefundShare, AllBalanced;
    FinalizedTradeBalanced(bills, tradeId, committed);
  }

  // ---- The whole trade ----

  /** The bills' refunds differ from fifteen percent of the trade by at most half a millionth a bill. */
  lemma {:induction false} RefundsNearTotal(bills: seq<Bill>, after: seq<Bill>, tradeId: string)
    requires |after| == |bills|
    requires forall i :: 0 <= i < |bills| ==>
               && after[i].tradeId == bills[i].tradeId
               && (bills[i].tradeId == tradeId ==> after[i].refund == Round(bills[i].gross * BREACH_REFUND))
    ensures var error := (Refunds(after, tradeId) - Gross(bills, tradeId) * BREACH_REFUND) * MICRO;
            -0.5 * CountOf(bills, tradeId) as real <= error <= 0.5 * CountOf(bills, tradeId) as real
  {
    if bills != [] {
      hide Round;
      var n := |bills| - 1;
      RefundsNearTotal(bills[..n], after[..n], tradeId);
      RoundError(bills[n].gross * BREACH_REFUND);
    }
  }

  lemma {:induction false} NoRefunds(bills: seq<Bill>, tradeId: string)
    requires forall i :: 0 <= i < |bills| && bills[i].tradeId == tradeId ==> bills[i].refund == 0.0
    ensures Refunds(bills, tradeId) == 0.0
  {
    if bills != [] {
      NoRefunds(bills[..|bills| - 1], tradeId);
    }
  }

  /** Ending a trade of n bills refunds what the penalty rule grants, to within n halves of a millionth. */
  lemma FinalizedRefunds(bills: seq<Bill>, tradeId: string, committed: real)
    ensures var error := (Refunds(FinalizedTrade(bills, tradeId, committed), tradeId)
                          - TradeOutcome(bills, tradeId, committed).refundToBuyer) * MICRO;
            -0.5 * CountOf(bills, tradeId) as real <= error <= 0.5 * CountOf(bills, tradeId) as real
  {
    var outcome := TradeOutcome(bills, tradeId, committed);
    var total := Gross(bills, tradeId);
    var after := FinalizedTrade(bills, tradeId, committed);
    RoundOfMicro(0.0);
    assert outcome.breached ==> outcome.refundToBuyer == Max0(total) * BREACH_REFUND;
    assert !outcome.breached ==> outcome.refundToBuyer == 0.0;
    forall i | 0 <= i < |bills| && bills[i].tradeId == tradeId
      ensures after[i].refund ==
                if outcome.breached && total > 0.0 then Round(bills[i].gross * BREACH_REFUND) else 0.0
    {
      BreachRefund(bills[i].gross, total);
      hide Round, Max0, RefundShare, Gross, TradeOutcome;
    }
    hide FinalizedTrade, TradeOutcome, Gross, Round;
    if outcome.breached && total > 0.0 {
      RefundsNearTotal(bills, after, tradeId);
    } else {
      NoRefunds(after, tradeId);
    }
  }

  /** Over a whole trade with no negative bill, what was billed is what the provider keeps and what the buyer gets back. */
  lemma {:induction false} TradeConservesMoney(bills: seq<Bill>, tradeId: string)
    requires AllBalanced(bills)
    requires forall i :: 0 <= i < |bills| && bills[i].tradeId == tradeId ==> bills[i].gross >= 0.0
    ensures Gross(bills, tradeId) == Nets(bills, tradeId) + Refunds(bills, tradeId)
  {
    if bills != [] {
      hide IsMicro;
      assert Balanced(bills[|bills| - 1]);
      TradeConservesMoney(bills[..|bills| - 1], tradeId);
    }
  }

  lemma {:induction false} TotalsAreMicro(bills: seq<Bill>, tradeId: string)
    requires AllBalanced(bills)
    ensures IsMicro(Gross(bills, tradeId)) && IsMicro(Refunds(bills, tradeId))
  {
    hide IsMicro;
    if bills == [] {
      RoundIsMicro(0.0);
      RoundOfZero();
    } else {
      var n := |bills| - 1;
      TotalsAreMicro(bills[..n], tradeId);
      assert Balanced(bills[n]);
      MicroSum(Gross(bills[..n], tradeId), bills[n].gross);
      MicroSum(Refunds(bills[..n], tradeId), bills[n].refund);
    }
  }

  lemma RoundOfZero()
    ensures Round(0.0) == 0.0
  {
  }

  /** The totals shown for a trade lose nothing by their rounding, and add up. */
  lemma TradeTotalsAddUp(bills: seq<Bill>, tradeId: string)
    requires AllBalanced(bills)
    requires forall i :: 0 <= i < |bills| && bills[i].tradeId == tradeId ==> bills[i].gross >= 0.0
    ensures var (gross, refund, payout) := TradeTotals(bills, tradeId);
            && gross == refund + payout
            && gross == Gross(bills, tradeId) && refund == Refunds(bills, tradeId) && payout == Nets(bills, tradeId)
  {
    hide Round, IsMicro, Gross, Refunds, Nets, AllBalanced;
    TotalsAreMicro(bills, tradeId);
    TradeConservesMoney(bills, tradeId);
    MicroSum(Gross(bills, tradeId), Refunds(bills, tradeId));
    RoundOfMicro(Gross(bills, tradeId));
    RoundOfMicro(Refunds(bills, tradeId));
    RoundOfMicro(Nets(bills, tradeId));
  }

  /** A trade ended because it delivered its commitment is never charged: no refunds, and every bill is paid in full. */
  lemma AutoEndedTradeIsFree(bills: seq<Bill>, tradeId: string, committed: real)
    requires TradeAutoTerminates(committed, Delivered(bills, tradeId))
    ensures !TradeOutcome(bills, tradeId, committed).breached
    ensures forall i :: 0 <= i < |bills| && bills[i].tradeId == tradeId ==>
              var b := FinalizedTrade(bills, tradeId, committed)[i];
              b.refund == 0.0 && b.penalty == 0.0 && b.net == Round(bills[i].gross)
  {
    AutoTerminationIsNoBreach(Gross(bills, tradeId), committed, Delivered(bills, tradeId));
    hide Round;
  }

  // ---- The task's list of bills, changed in place ----

  class BillingWindows {
    const interval: nat
    var bills: seq<Bill>

    constructor (interval: nat, bills: seq<Bill>)
      ensures this.interval == interval && this.bills == bills
    {
      this.interval := interval;
      this.bills := bills;
    }

    method UpsertForAttempt(attemptId: string, tradeId: string, windows: seq<Charge>, unitPrice: real)
      modifies this
      ensures bills == Upserted(old(bills), attemptId, tradeId, windows, unitPrice, interval)
    {
      for i := 0 to |windows|
        invariant bills == Upserted(old(bills), attemptId, tradeId, windows[..i], unitPrice, interval)
      {
        assert windows[..i + 1][..i] == windows[..i];
        var bill := NewBill(attemptId, tradeId, windows[i], unitPrice, interval);
        if !HasBill(bills, bill.billId) {
          bills := bills + [bill];
        }
      }
      assert windows[..|windows|] == windows;
    }

    /** Stops at the first bill of the attempt that may not move, keeping the earlier ones moved. */
    method ApplyStatusForAttempt(attemptId: string, next: BillStatus) returns (ok: bool)
      modifies this
      ensures bills == Advanced(old(bills), attemptId, next)
      ensures ok <==> StopsAt(old(bills), attemptId, next) == |old(bills)|
    {
      ghost var stop := StopsAt(bills, attemptId, next);
      for i := 0 to |bills|
        invariant |bills| == |old(bills)| && i <= stop
        invariant forall j :: 0 <= j < i ==> bills[j] == WithStatus(old(bills)[j], attemptId, next)
        invariant forall j :: i <= j < |bills| ==> bills[j] == old(bills)[j]
      {
        if bills[i].attemptId == attemptId {
          if !CanTransitionBill(bills[i].status, next) {
            return false;
          }
          bills := bills[i := bills[i].(status := next)];
        }
      }
      ok := true;
    }

    method AttachInvoice(attemptId: string, invoiceId: string)
      modifies this
      ensures bills == Invoice(old(bills), attemptId, invoiceId)
    {
      for i := 0 to |bills|
        invariant |bills| == |old(bills)|
        invariant forall j :: 0 <= j < i ==> bills[j] == Invoice(old(bills), attemptId, invoiceId)[j]
        invariant forall j :: i <= j < |bills| ==> bills[j] == old(bills)[j]
      {
        if bills[i].attemptId == attemptId {
          bills := bills[i := bills[i].(invoiceId := Some(invoiceId))];
        }
      }
    }

    method AttachPayment(attemptId: string, paymentId: string)
      modifies this
      ensures bills == Paying(old(bills), attemptId, paymentId)
    {
      for i := 0 to |bills|
        invariant |bills| == |old(bills)|
        invariant forall j :: 0 <= j < i ==> bills[j] == Paying(old(bills), attemptId, paymentId)[j]
        invariant forall j :: i <= j < |bills| ==> bills[j] == old(bills)[j]
      {
        if bills[i].attemptId == attemptId {
          bills := bills[i := bills[i].(paymentId := Some(paymentId))];
        }
      }
    }

    method Totals(tradeId: string) returns (delivered: real, gross: real)
      ensures delivered == Delivered(bills, tradeId) && gross == Gross(bills, tradeId)
    {
      delivered, gross := 0.0, 0.0;
      for i := 0 to |bills|
        invariant delivered == Delivered(bills[..i], tradeId) && gross == Gross(bills[..i], tradeId)
      {
        assert bills[..i + 1][..i] == bills[..i];
        if bills[i].tradeId == tradeId {
          delivered := delivered + bills[i].compute;
          gross := gross + bills[i].gross;
        }
      }
      assert bills[..|bills|] == bills;
    }

    method FinalizeTrade(tradeId: string, committed: real) returns (outcome: PenaltyOutcome)
      modifies this
      ensures bills == FinalizedTrade(old(bills), tradeId, committed)
      ensures outcome == TradeOutcome(old(bills), tradeId, committed)
    {
      var delivered, grossTotal := Totals(tradeId);
      outcome := EvaluateBreachPenalty(grossTotal, committed, delivered);
      ghost var target := FinalizedTrade(bills, tradeId, committed);
      hide EvaluateBreachPenalty, Delivered, Gross, Breached, Fulfilled;
      for i := 0 to |bills|
        invariant |bills| == |old(bills)|
        invariant forall j :: 0 <= j < i ==> bills[j] == target[j]
        invariant forall j :: i <= j < |bills| ==> bills[j] == old(bills)[j]
      {
        if bills[i].tradeId == tradeId {
          var bill := if outcome.breached then Breached(bills[i], outcome.refundToBuyer, grossTotal) else Fulfilled(bills[i]);
          bills := bills[i := bill];
        }
      }
    }

    /** Past the table, as a rollback does. */
    method SetStatusForAttempt(attemptId: string, next: BillStatus)
      modifies this
      ensures bills == AllMoved(old(bills), attemptId, next)
    {
      ghost var target := AllMoved(bills, attemptId, next);
      hide Penalized, Released;
      for i := 0 to |bills|
        invariant |bills| == |old(bills)|
        invariant forall j :: 0 <= j < i ==> bills[j] == target[j]
        invariant forall j :: i <= j < |bills| ==> bills[j] == old(bills)[j]
      {
        if bills[i].attemptId == attemptId {
          bills := bills[i := bills[i].(status := next)];
        }
      }
    }

    method PenalizeTrade(tradeId: Option<string>)
      modifies this
      ensures bills == PenaltyApplied(old(bills), tradeId)
    {
      ghost var target := PenaltyApplied(bills, tradeId);
      hide Penalized, Released;
      for i := 0 to |bills|
        invariant |bills| == |old(bills)|
        invariant forall j :: 0 <= j < i ==> bills[j] == target[j]
        invariant forall j :: i <= j < |bills| ==> bills[j] == old(bills)[j]
      {
        if tradeId == Some(bills[i].tradeId) {
          bills := bills[i := Penalized(bills[i])];
        }
      }
    }

    method RefundTrade(tradeId: Option<string>)
      modifies this
      ensures bills == RefundReleased(old(bills), tradeId)
    {
      ghost var target := RefundReleased(bills, tradeId);
      hide Penalized, Released;
      for i := 0 to |bills|
        invariant |bills| == |old(bills)|
        invariant forall j :: 0 <= j < i ==> bills[j] == target[j]
        invariant forall j :: i <= j < |bills| ==> bills[j] == old(bills)[j]
      {
        if tradeId == Some(bills[i].tradeId) {
          bills := bills[i := Released(bills[i])];
        }
      }
    }

    /** What has been paid out, over the bills of every trade. */
    method Payout() returns (paid: real)
      ensures paid == PaidOut(bills)
    {
      paid := 0.0;
      for i := 0 to |bills|
        invariant paid == PaidOut(bills[..i])
      {
        assert bills[..i + 1][..i] == bills[..i];
        if CountsAsPaid(bills[i]) {
          paid := paid + bills[i].net;
        }
      }
      assert bills[..|bills|] == bills;
    }
  }

  /** What the end of a trade makes of one of its bills: fifteen percent back in a breach, nothing otherwise. */
  predicate EndedBill(b: Bill, c: Bill, breached: bool, owing: bool) {
    && c == b.(penalty := c.penalty, refund := c.refund, net := c.net, status := c.status)
    && c.status == (if b.status == Disputed then Disputed else if breached then Refunded else Finalized)
    && (if breached && owing then -0.5 <= (c.refund - 0.15 * b.gross) * MICRO <= 0.5 else c.refund == 0.0)
    && c.penalty == c.refund
    && c.net == (if breached then Round(Max0(b.gross - c.refund)) else Round(b.gross))
  }

  lemma BreachedEnds(b: Bill, grossTotal: real)
    ensures EndedBill(b, Breached(b, Max0(grossTotal) * BREACH_REFUND, grossTotal), true, grossTotal > 0.0)
  {
    BreachRefund(b.gross, grossTotal);
    RoundError(b.gross * BREACH_REFUND);
    RoundOfMicro(0.0);
    hide Round, Max0, RefundShare;
  }

  lemma FulfilledEnds(b: Bill, grossTotal: real)
    ensures EndedBill(b, Fulfilled(b), false, grossTotal > 0.0)
  {
    hide Round;
  }

  /**
   * Ending a trade is in breach exactly when less than 97 percent of a positive commitment was delivered. It ends each bill of
   * the trade and leaves the bills of other trades as they are.
   */
  lemma EndedTrade(bills: seq<Bill>, tradeId: string, committed: real, i: nat)
    requires i < |bills|
    ensures var after := FinalizedTrade(bills, tradeId, committed);
            var breached := committed > 0.0 && Max0(Delivered(bills, tradeId)) < 0.97 * committed;
            && |after| == |bills|
            && (bills[i].tradeId != tradeId ==> after[i] == bills[i])
            && (bills[i].tradeId == tradeId ==> EndedBill(bills[i], after[i], breached, Gross(bills, tradeId) > 0.0))
  {
    hide Round, Max0, Breached, Fulfilled, EndedBill, Gross, Delivered;
    var total := Gross(bills, tradeId);
    BreachMeaning(total, committed, Delivered(bills, tradeId));
    BreachGrants(total, committed, Delivered(bills, tradeId));
    BreachedEnds(bills[i], total);
    FulfilledEnds(bills[i], total);
  }

  lemma BreachGrants(totalDue: real, committed: real, delivered: real)
    ensures var outcome := EvaluateBreachPenalty(totalDue, committed, delivered);
            outcome.breached ==> outcome.refundToBuyer == Max0(totalDue) * BREACH_REFUND
  {
    hide Max0;
  }
}
