/** What a trade that ends counts as paid, and which of it a payment stands behind. */
module Payouts {
  import opened Market
  import opened Billing
  import opened Orders
  import opened Settlement
  import opened Agent
  import opened Safety
  import opened Documents
  import Exits

  /** Some payment is named on the bill. */
  predicate Backed(b: Bill) {
    b.paymentId.Some?
  }

  /** What is counted as paid with a payment behind it. */
  function BackedOut(bills: seq<Bill>): real {
    if bills == [] then 0.0
    else
      var n := |bills| - 1;
      BackedOut(bills[..n]) + if CountsAsPaid(bills[n]) && Backed(bills[n]) then bills[n].net else 0.0
  }

  /** What is counted as paid without one. */
  function UnbackedOut(bills: seq<Bill>): real {
    if bills == [] then 0.0
    else
      var n := |bills| - 1;
      UnbackedOut(bills[..n]) + if CountsAsPaid(bills[n]) && !Backed(bills[n]) then bills[n].net else 0.0
  }

  lemma {:induction false} PaidOutSplits(bills: seq<Bill>)
    ensures PaidOut(bills) == BackedOut(bills) + UnbackedOut(bills)
  {
    if bills != [] {
      PaidOutSplits(bills[..|bills| - 1]);
    }
  }

  /** What the bills still on their way, disputed or failed would pay. */
  function NotPaidOut(bills: seq<Bill>): real {
    if bills == [] then 0.0
    else
      var n := |bills| - 1;
      NotPaidOut(bills[..n]) +
      if bills[n].status in {Pending, Invoiced, PaymentSubmitted, Disputed, Failed} then bills[n].net else 0.0
  }

  function AllNets(bills: seq<Bill>): real {
    if bills == [] then 0.0 else AllNets(bills[..|bills| - 1]) + bills[|bills| - 1].net
  }

  lemma EitherCounts(b: Bill)
    ensures CountsAsPaid(b) <==> b.status !in {Pending, Invoiced, PaymentSubmitted, Disputed, Failed}
  {
    match b.status
    case Paid => case Finalized => case Refunded => case _ =>
  }

  /** All else counts as paid. */
  lemma {:induction false} PaidOutIsTheRest(bills: seq<Bill>)
    ensures PaidOut(bills) + NotPaidOut(bills) == AllNets(bills)
  {
    if bills != [] {
      PaidOutIsTheRest(bills[..|bills| - 1]);
      EitherCounts(bills[|bills| - 1]);
    }
  }

  ghost predicate NoNegative(bills: seq<Bill>) {
    forall i :: 0 <= i < |bills| ==> bills[i].net >= 0.0
  }

  /** Only bills for nothing are counted without a payment. */
  ghost predicate UnbackedAreFree(bills: seq<Bill>) {
    forall i :: 0 <= i < |bills| && CountsAsPaid(bills[i]) && !Backed(bills[i]) ==> bills[i].net == 0.0
  }

  lemma {:induction false} NothingUnbacked(bills: seq<Bill>)
    requires NoNegative(bills)
    ensures UnbackedOut(bills) >= 0.0
    ensures UnbackedOut(bills) == 0.0 <==> UnbackedAreFree(bills)
  {
    if bills != [] {
      var n := |bills| - 1;
      NothingUnbacked(bills[..n]);
      assert bills == bills[..n] + [bills[n]];
      LastUnbacked(bills[..n], bills[n]);
    }
  }

  lemma LastUnbacked(bills: seq<Bill>, b: Bill)
    ensures UnbackedAreFree(bills + [b]) <==>
              UnbackedAreFree(bills) && (CountsAsPaid(b) && !Backed(b) ==> b.net == 0.0)
  {
    var all := bills + [b];
    assert all[|bills|] == b;
    assert forall i :: 0 <= i < |bills| ==> all[i] == bills[i];
  }

  // ---- The end of a trade ----

  /** If the trade has delivered its commitment, it has ended: its bills are final, and the total is taken from the bills. */
  predicate Closed(t: Task, matchId: string, workUnits: real) {
    TradeAutoTerminates(workUnits, Delivered(t.bills, matchId)) ==>
      && t.totalPaid == PaidOut(t.bills)
      && forall i :: 0 <= i < |t.bills| && t.bills[i].tradeId == matchId ==> t.bills[i].status in {Finalized, Disputed}
  }

  lemma FinalizedCloses(task: Task, binding: Binding)
    ensures Closed(AutoFinalized(task, binding), binding.matchId, binding.workUnits)
  {
    hide Delivered, PaidOut, Round, TradeAutoTerminates, TradeOutcome;
    if TradeAutoTerminates(binding.workUnits, Delivered(task.bills, binding.matchId)) {
      AutoEndedTradeIsFree(task.bills, binding.matchId, binding.workUnits);
    }
  }

  lemma CommitCloses(s: Scene, invoiceId: string, paymentId: string, env: SettleEnv)
    requires Call(s.orders, Orders.MarkSettled, s.binding.sellOrderId, env.settled).1
    ensures Closed(CommitScene(s, invoiceId, paymentId, env).task, s.binding.matchId, s.binding.workUnits)
  {
    hide Call, AutoFinalized, Finalize, Closed;
    FinalizedCloses(s.task, s.binding);
  }

  lemma RecordCloses(s: Scene, windows: seq<Charge>, invoiceId: string, paymentId: string, attemptId: string, env: SettleEnv)
    requires !env.recordBlocked && env.recorded.Answered?
    requires Call(s.orders, Orders.MarkSettled, s.binding.sellOrderId, env.settled).1
    ensures Closed(RecordScene(s, windows, invoiceId, paymentId, attemptId, env).task, s.binding.matchId, s.binding.workUnits)
  {
    hide Call, CommitScene, Closed, WithBillStatus, Sum, Round, IndexSet, Advance, Fail;
    CommitCloses(AfterRecord(Asked(s, ResultCall(attemptId, env.recorded)), windows, attemptId), invoiceId, paymentId, env);
  }

  lemma PaymentCloses(s: Scene, windows: seq<Charge>, invoiceId: string, attemptId: string, env: SettleEnv)
    requires !env.paymentBlocked && env.payment.Confirmed? && !env.recordBlocked && env.recorded.Answered?
    requires Call(s.orders, Orders.MarkSettled, s.binding.sellOrderId, env.settled).1
    ensures Closed(PaymentScene(s, windows, invoiceId, attemptId, env).task, s.binding.matchId, s.binding.workUnits)
  {
    hide Call, RecordScene, Closed, WithBillStatus, Advance, Paying, RecordResultRequest;
    var asked := Asked(s, PaymentCall(attemptId, env.payment));
    RecordCloses(AfterPayment(asked, windows, invoiceId, env.payment.id, attemptId), windows, invoiceId, env.payment.id,
                 attemptId, env);
  }

  lemma InvoiceCloses(s: Scene, windows: seq<Charge>, attemptId: string, env: SettleEnv)
    requires !env.invoiceBlocked && env.invoice.Confirmed?
    requires !env.paymentBlocked && env.payment.Confirmed? && !env.recordBlocked && env.recorded.Answered?
    requires Call(s.orders, Orders.MarkSettled, s.binding.sellOrderId, env.settled).1
    ensures Closed(InvoiceScene(s, windows, attemptId, env).task, s.binding.matchId, s.binding.workUnits)
  {
    hide Call, PaymentScene, Closed, WithBillStatus, Advance, Billing.Invoice, SettlePaymentRequest;
    var asked := Asked(s, InvoiceCall(attemptId, env.invoice));
    PaymentCloses(AfterInvoice(asked, windows, env.invoice.id, attemptId), windows, env.invoice.id, attemptId, env);
  }

  lemma PassCloses(taskId: string, task: Task, attemptId: string, binding: Binding, orders: map<string, OrderStatus>, env: SettleEnv)
    requires |task.pending| >= task.mergeCount && Exits.ExitOf(orders, binding.sellOrderId, env) == Exits.Completed
    ensures var s := Opening(taskId, task, attemptId, binding, orders);
            Closed(SettleScene(s, Drained(task), taskId, attemptId, env).task, binding.matchId, binding.workUnits)
  {
    hide Call, InvoiceScene, Closed, Upserted, NewAttempt, CreateInvoiceRequest, Advance;
    var s := Opening(taskId, task, attemptId, binding, orders);
    var marked := s.(orders := Call(orders, Orders.MarkSettling, binding.sellOrderId, env.settling).0);
    InvoiceCloses(AfterMark(marked, Drained(task), taskId), Drained(task), attemptId, env);
  }

  /** In every reachable state a bill that counts as paid lacks a payment exactly when none was confirmed for its attempt. */
  lemma CountedWithoutPayment(w: World, steps: seq<Step>, taskId: string, i: nat)
    requires Initial(w) && taskId in Run(w, steps).tasks && i < |Run(w, steps).tasks[taskId].bills|
    requires CountsAsPaid(Run(w, steps).tasks[taskId].bills[i])
    ensures var b := Run(w, steps).tasks[taskId].bills[i];
            && (!Backed(b) <==> ConfirmedPayments(Run(w, steps).gateway, b.attemptId) == [])
            && (!Backed(b) ==> b.status in {Finalized, Refunded})
  {
    hide Run, Initial, ConfirmedPayments;
    PaidBillsWerePaid(w, steps, taskId, i);
  }

  /**
   * In every reachable state: once a pass has committed and its trade has delivered its commitment, every bill of the trade
   * is finalized, or disputed with a payment. The total paid is that of all bills counted, and is covered by payments exactly
   * when the bills counted without one are for nothing: a trade's end finalizes the bills of failed attempts too.
   */
  lemma EndedTradeTotal(w0: World, steps: seq<Step>, taskId: string, attemptId: string, env: SettleEnv)
    requires Initial(w0)
    requires var w := Run(w0, steps);
             && Settleable(w, taskId) && attemptId !in w.attempts
             && Exits.ExitOf(w.orders, w.bindings[w.tasks[taskId].bound.value].sellOrderId, env) == Exits.Completed
    ensures var w := Run(w0, steps);
            var binding, t := w.bindings[w.tasks[taskId].bound.value], PassDone(w, taskId, attemptId, env).tasks[taskId];
            TradeAutoTerminates(binding.workUnits, Delivered(t.bills, binding.matchId)) ==>
              && (forall i :: 0 <= i < |t.bills| && t.bills[i].tradeId == binding.matchId ==>
                    t.bills[i].status == Finalized || (t.bills[i].status == Disputed && Backed(t.bills[i])))
              && t.totalPaid == BackedOut(t.bills) + UnbackedOut(t.bills)
              && (NoNegative(t.bills) ==> (t.totalPaid == BackedOut(t.bills) <==> UnbackedAreFree(t.bills)))
  {
    hide Run, Initial, SettleScene, Opening, Exits.ExitOf, Delivered, PaidOut, BackedOut, UnbackedOut, TradeAutoTerminates;
    hide Bills.Billed, UnbackedAreFree, NoNegative;
    var w := Run(w0, steps);
    RunFiled(w0, steps);
    Bills.RunBilled(w0, steps);
    PassDoneFiled(w, taskId, attemptId, env);
    var task := w.tasks[taskId];
    PassCloses(taskId, task, attemptId, w.bindings[task.bound.value], w.orders, env);
    var t := PassDone(w, taskId, attemptId, env).tasks[taskId];
    assert forall i :: 0 <= i < |t.bills| ==> Documented(t.bills[i]);
    PaidOutSplits(t.bills);
    if NoNegative(t.bills) {
      NothingUnbacked(t.bills);
    }
  }
}
