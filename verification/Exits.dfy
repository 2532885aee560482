/** Where a pass of the settle pipeline can end, and what each exit leaves behind. */
module Exits {
  import opened Wrappers
  import opened Market
  import opened Billing
  import opened Orders
  import opened Settlement

  /** The exits in the order in which the pass comes to them. */
  datatype Exit =
    | MarkRefused
    | InvoiceGuarded
    | InvoiceUnanswered
    | PaymentGuarded
    | PaymentUnanswered
    | ResultGuarded
    | ResultUnanswered
    | SettledRefused
    | Completed

  function ExitOf(orders: map<string, OrderStatus>, sellOrderId: string, env: SettleEnv): Exit {
    var (marked, seen) := Call(orders, Orders.MarkSettling, sellOrderId, env.settling);
    if !seen then MarkRefused
    else if env.invoiceBlocked then InvoiceGuarded
    else if !env.invoice.Confirmed? then InvoiceUnanswered
    else if env.paymentBlocked then PaymentGuarded
    else if !env.payment.Confirmed? then PaymentUnanswered
    else if env.recordBlocked then ResultGuarded
    else if !env.recorded.Answered? then ResultUnanswered
    else if !Call(marked, Orders.MarkSettled, sellOrderId, env.settled).1 then SettledRefused
    else Completed
  }

  lemma CommitLeaves(s: Scene, invoiceId: string, paymentId: string, env: SettleEnv)
    requires s.attempt.status == InProgress
    ensures var a := CommitScene(s, invoiceId, paymentId, env).attempt;
            && (s.attempt.invoiceId.Some? ==> a.invoiceId.Some?)
            && a.status == if Call(s.orders, Orders.MarkSettled, s.binding.sellOrderId, env.settled).1 then Committed
                           else FailedFinal
  {
    hide Call, AutoFinalized;
  }

  lemma RecordLeaves(s: Scene, windows: seq<Charge>, invoiceId: string, paymentId: string, attemptId: string, env: SettleEnv)
    requires s.attempt.status == InProgress && s.attempt.stage == RecordResult
    ensures var a := RecordScene(s, windows, invoiceId, paymentId, attemptId, env).attempt;
            && (s.attempt.invoiceId.Some? ==> a.invoiceId.Some?)
            && if env.recordBlocked || !env.recorded.Answered? then a.status == PaymentUnknown
               else a.status ==
                      if Call(s.orders, Orders.MarkSettled, s.binding.sellOrderId, env.settled).1 then Committed else FailedFinal
  {
    hide Call, CommitScene, WithBillStatus, Sum, Round, IndexSet;
    CommitLeaves(AfterRecord(Asked(s, ResultCall(attemptId, env.recorded)), windows, attemptId), invoiceId, paymentId, env);
  }

  lemma PaymentLeaves(s: Scene, windows: seq<Charge>, invoiceId: string, attemptId: string, env: SettleEnv)
    requires s.attempt.status == InProgress && s.attempt.stage == SettlePayment
    ensures var r := PaymentScene(s, windows, invoiceId, attemptId, env);
            if env.paymentBlocked || !env.payment.Confirmed? then
              && r.attempt == s.attempt.(fate := WentBack)
              && r.orders == Call(s.orders, Orders.Release, s.binding.sellOrderId, env.release).0
            else
              && (s.attempt.invoiceId.Some? ==> r.attempt.invoiceId.Some?)
              && if env.recordBlocked || !env.recorded.Answered? then r.attempt.status == PaymentUnknown
                 else r.attempt.status ==
                        if Call(s.orders, Orders.MarkSettled, s.binding.sellOrderId, env.settled).1 then Committed
                        else FailedFinal
  {
    hide Call, RecordScene, WithBillStatus, Sum, Paying;
    if env.payment.Confirmed? {
      var asked := Asked(s, PaymentCall(attemptId, env.payment));
      RecordLeaves(AfterPayment(asked, windows, invoiceId, env.payment.id, attemptId), windows, invoiceId, env.payment.id,
                   attemptId, env);
    }
  }

  /** What the stages from create_invoice on leave, of a pass whose scene is `s` when they begin. */
  predicate LeftFromInvoice(s: Scene, windows: seq<Charge>, r: Scene, exit: Exit, env: SettleEnv) {
    var a := r.attempt;
    var released := r.orders == Call(s.orders, Orders.Release, s.binding.sellOrderId, env.release).0;
    match exit
    case MarkRefused => false
    case InvoiceGuarded =>
      && released && SameJob(s.task, r.task)
      && a == s.attempt.(status := RetryableFailed, retries := s.attempt.retries + 1, fate := WentBack)
    case InvoiceUnanswered =>
      && released
      && a == s.attempt.(status := RetryableFailed, stage := SettlePayment, retries := s.attempt.retries + 2, fate := WentBack)
    case PaymentGuarded => released && LeftUnpaid(s.attempt, a, windows, env)
    case PaymentUnanswered => released && LeftUnpaid(s.attempt, a, windows, env)
    case ResultGuarded => a.status == PaymentUnknown && a.invoiceId.Some?
    case ResultUnanswered => a.status == PaymentUnknown && a.invoiceId.Some?
    case SettledRefused => a.status == FailedFinal && a.invoiceId.Some?
    case Completed => a.status == Committed && a.invoiceId.Some?
  }

  predicate SameJob(t: Task, u: Task) {
    u.bills == t.bills && u.providerJobId == t.providerJobId && u.interval == t.interval
  }

  predicate LeftUnpaid(before: Attempt, a: Attempt, windows: seq<Charge>, env: SettleEnv) {
    && env.invoice.Confirmed?
    && a == before.(invoiceId := Some(env.invoice.id), stage := SettlePayment, fate := WentBack,
                    payload := Some(SettlePaymentRequest(env.invoice.id, windows)))
  }

  lemma InvoiceLeaves(s: Scene, windows: seq<Charge>, attemptId: string, env: SettleEnv, exit: Exit)
    requires s.attempt.status == InProgress && s.attempt.stage == CreateInvoice
    requires exit == if env.invoiceBlocked then InvoiceGuarded
                     else if !env.invoice.Confirmed? then InvoiceUnanswered
                     else if env.paymentBlocked then PaymentGuarded
                     else if !env.payment.Confirmed? then PaymentUnanswered
                     else if env.recordBlocked then ResultGuarded
                     else if !env.recorded.Answered? then ResultUnanswered
                     else if !Call(s.orders, Orders.MarkSettled, s.binding.sellOrderId, env.settled).1 then SettledRefused
                     else Completed
    ensures LeftFromInvoice(s, windows, InvoiceScene(s, windows, attemptId, env), exit, env)
  {
    hide Call, PaymentScene, WithBillStatus, SettlePaymentRequest, Billing.Invoice;
    if !env.invoiceBlocked && env.invoice.Confirmed? {
      var invoiced := AfterInvoice(Asked(s, InvoiceCall(attemptId, env.invoice)), windows, env.invoice.id, attemptId);
      PaymentLeaves(invoiced, windows, env.invoice.id, attemptId, env);
    }
  }

  /** What a pass leaves at each of its exits. */
  lemma PassLeaves(taskId: string, task: Task, attemptId: string, binding: Binding, orders: map<string, OrderStatus>, env: SettleEnv)
    requires |task.pending| >= task.mergeCount
    ensures var s := Opening(taskId, task, attemptId, binding, orders);
            var windows := Drained(task);
            var r := SettleScene(s, windows, taskId, attemptId, env);
            var marked := s.(orders := Call(orders, Orders.MarkSettling, binding.sellOrderId, env.settling).0);
            var exit := ExitOf(orders, binding.sellOrderId, env);
            if exit == MarkRefused then
              && r.attempt == s.attempt.(retries := 1, fate := WereStranded) && SameJob(s.task, r.task)
              && r.orders == Call(marked.orders, Orders.Release, binding.sellOrderId, env.release).0
            else LeftFromInvoice(Begun(marked, windows, taskId), windows, r, exit, env)
  {
    hide Call, InvoiceScene, Upserted, CreateInvoiceRequest, Indexes, LeftFromInvoice;
    var s := Opening(taskId, task, attemptId, binding, orders);
    var windows := Drained(task);
    var (after, seen) := Call(orders, Orders.MarkSettling, binding.sellOrderId, env.settling);
    if seen {
      var begun := Begun(s.(orders := after), windows, taskId);
      assert begun == AfterMark(s.(orders := after), windows, taskId);
      InvoiceLeaves(begun, windows, attemptId, env, ExitOf(orders, binding.sellOrderId, env));
    }
  }

  /** A pass whose first call was seen to succeed: its attempt is under way. */
  function Begun(s: Scene, windows: seq<Charge>, taskId: string): Scene {
    s.(attempt := s.attempt.(settlingDone := true, status := InProgress, stage := CreateInvoice,
                             payload := Some(CreateInvoiceRequest(taskId, s.task, windows))))
  }

  /**
   * A pass ends at the stage after create_invoice without an invoice exactly when its first call was seen to succeed, the
   * guard let create_invoice through and the gateway did not confirm it.
   */
  lemma InvoiceFailureSkipsAhead(taskId: string, task: Task, attemptId: string, binding: Binding,
                                 orders: map<string, OrderStatus>, env: SettleEnv)
    requires |task.pending| >= task.mergeCount
    ensures var s := Opening(taskId, task, attemptId, binding, orders);
            var a := SettleScene(s, Drained(task), taskId, attemptId, env).attempt;
            a.stage == SettlePayment && a.invoiceId == None <==>
              && Call(orders, Orders.MarkSettling, binding.sellOrderId, env.settling).1
              && !env.invoiceBlocked && !env.invoice.Confirmed?
  {
    hide Call, SettleScene, Upserted, CreateInvoiceRequest, SettlePaymentRequest, Indexes;
    PassLeaves(taskId, task, attemptId, binding, orders, env);
  }
}
