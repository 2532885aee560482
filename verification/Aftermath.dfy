/** What a pass of the settle loop leaves of its attempt, its match and its locks, exit by exit, and what a stage run leaves. */
module Aftermath {
  import opened Wrappers
  import opened Market
  import opened Billing
  import opened Orders
  import opened Settlement
  import opened Agent
  import opened Exits

  // ---- The table ----

  function StatusAt(exit: Exit): AttemptStatus {
    match exit
    case MarkRefused => Started
    case InvoiceGuarded => RetryableFailed
    case InvoiceUnanswered => RetryableFailed
    case PaymentGuarded => InProgress
    case PaymentUnanswered => InProgress
    case ResultGuarded => PaymentUnknown
    case ResultUnanswered => PaymentUnknown
    case SettledRefused => FailedFinal
    case Completed => Committed
  }

  function StageAt(exit: Exit): Stage {
    match exit
    case MarkRefused => ProviderMarkSettling
    case InvoiceGuarded => CreateInvoice
    case InvoiceUnanswered => SettlePayment
    case PaymentGuarded => SettlePayment
    case PaymentUnanswered => SettlePayment
    case ResultGuarded => RecordResult
    case ResultUnanswered => RecordResult
    case SettledRefused => ProviderMarkSettled
    case Completed => ProviderMarkSettled
  }

  /** A pass that is sent away by the guard of settle_payment, or gets no answer there, counts no failure. */
  function FailuresAt(exit: Exit): nat {
    if exit in {PaymentGuarded, PaymentUnanswered, Completed} then 0 else if exit == InvoiceUnanswered then 2 else 1
  }

  function MatchStatusAt(exit: Exit): MatchStatus {
    match exit
    case ResultGuarded => MatchPaymentUnknown
    case ResultUnanswered => MatchPaymentUnknown
    case SettledRefused => MatchFailedFinal
    case Completed => MatchSettled
    case _ => MatchRetryable
  }

  predicate PaymentMade(exit: Exit) {
    exit in {ResultGuarded, ResultUnanswered, SettledRefused, Completed}
  }

  predicate InvoiceMade(exit: Exit) {
    exit in {PaymentGuarded, PaymentUnanswered} || PaymentMade(exit)
  }

  /** The request prepared last: that of the stage the pass came to. */
  function RequestAt(exit: Exit, taskId: string, task: Task, windows: seq<Charge>, env: SettleEnv): Option<StageRequest>
    requires InvoiceMade(exit) ==> env.invoice.Confirmed?
    requires PaymentMade(exit) ==> env.payment.Confirmed?
  {
    if exit == MarkRefused then None
    else if PaymentMade(exit) then Some(RecordRequest(env.invoice.id, env.payment.id, Indexes(windows)))
    else if InvoiceMade(exit) then Some(PaymentRequest(env.invoice.id, Indexes(windows), Sum(windows)))
    else Some(InvoiceRequest(taskId, task.providerJobId, task.interval, Indexes(windows), Sum(windows)))
  }

  /** The calls to the gateway, in order. */
  function CallsAt(exit: Exit, attemptId: string, env: SettleEnv): seq<GatewayCall> {
    var calls := [InvoiceCall(attemptId, env.invoice), PaymentCall(attemptId, env.payment), ResultCall(attemptId, env.recorded)];
    match exit
    case MarkRefused => []
    case InvoiceGuarded => []
    case InvoiceUnanswered => calls[..1]
    case PaymentGuarded => calls[..1]
    case PaymentUnanswered => calls[..2]
    case ResultGuarded => calls[..2]
    case ResultUnanswered => calls
    case SettledRefused => calls
    case Completed => calls
  }

  predicate SameSetup(t: Task, u: Task) {
    u.providerJobId == t.providerJobId && u.interval == t.interval && u.mergeCount == t.mergeCount && u.running == t.running
  }

  /** What the pass of a task leaves of its attempt. */
  predicate AttemptLeft(exit: Exit, taskId: string, task: Task, windows: seq<Charge>, env: SettleEnv, a: Attempt) {
    && (InvoiceMade(exit) ==> env.invoice.Confirmed?) && (PaymentMade(exit) ==> env.payment.Confirmed?)
    && a.status == StatusAt(exit) && a.stage == StageAt(exit) && a.retries == FailuresAt(exit)
    && a.settlingDone == (exit != MarkRefused) && a.recorded == a.settledDone == (exit == Completed)
    && a.invoiceId == (if InvoiceMade(exit) then Some(env.invoice.id) else None)
    && a.paymentId == (if PaymentMade(exit) then Some(env.payment.id) else None)
    && a.payload == RequestAt(exit, taskId, task, windows, env)
  }

  predicate Left(exit: Exit, taskId: string, task: Task, attemptId: string, windows: seq<Charge>, env: SettleEnv, r: Scene) {
    && AttemptLeft(exit, taskId, task, windows, env, r.attempt)
    && r.binding.status == MatchStatusAt(exit) && r.locked == (exit == Completed)
    && r.task.bound == (if exit == Completed then task.bound else None) && SameSetup(task, r.task)
    && r.calls == CallsAt(exit, attemptId, env)
  }

  // ---- One pass ----

  /** The attempt has come to a stage without a failure, with the papers of the stages before. */
  predicate Reached(s: Scene, stage: Stage, task: Task, invoiceId: Option<string>, paymentId: Option<string>,
                    calls: seq<GatewayCall>)
  {
    var a := s.attempt;
    && a.status == InProgress && a.stage == stage && a.retries == 0 && a.settlingDone && !a.recorded && !a.settledDone
    && a.invoiceId == invoiceId && a.paymentId == paymentId
    && s.locked && s.task.bound == task.bound && SameSetup(task, s.task) && s.calls == calls
    && s.binding.status == (if stage == ProviderMarkSettled then MatchSettled else MatchSettling)
  }

  /**
   * A pass begins by taking as many windows as the task merges from the front of its queue, in order, for a new attempt at
   * its match, which is settling until the pass ends.
   */
  lemma PassBegins(taskId: string, task: Task, attemptId: string, binding: Binding, orders: map<string, OrderStatus>)
    requires |task.pending| >= task.mergeCount
    ensures var s := Opening(taskId, task, attemptId, binding, orders);
            var a := s.attempt;
            && s.binding == binding.(status := MatchSettling) && s.task.bound == task.bound && s.orders == orders && s.calls == []
            && a.status == Started && a.stage == ProviderMarkSettling && a.retries == 0 && a.payload == None
            && a.taskId == taskId && a.matchId == binding.matchId && a.sellOrderId == binding.sellOrderId
            && |a.windowIndexes| == task.mergeCount
            && (forall i :: 0 <= i < task.mergeCount ==> a.windowIndexes[i] == task.pending[i].windowIndex)
            && |s.task.pending| == |task.pending| - task.mergeCount
            && forall i :: 0 <= i < |s.task.pending| ==> s.task.pending[i] == task.pending[task.mergeCount + i]
  {
    hide Upserted;
  }

  function RestOfRecord(orders: map<string, OrderStatus>, sellOrderId: string, env: SettleEnv): Exit {
    if env.recordBlocked then ResultGuarded
    else if !env.recorded.Answered? then ResultUnanswered
    else if !Call(orders, Orders.MarkSettled, sellOrderId, env.settled).1 then SettledRefused
    else Completed
  }

  function RestOfPayment(orders: map<string, OrderStatus>, sellOrderId: string, env: SettleEnv): Exit {
    if env.paymentBlocked then PaymentGuarded
    else if !env.payment.Confirmed? then PaymentUnanswered
    else RestOfRecord(orders, sellOrderId, env)
  }

  function RestOfInvoice(orders: map<string, OrderStatus>, sellOrderId: string, env: SettleEnv): Exit {
    if env.invoiceBlocked then InvoiceGuarded
    else if !env.invoice.Confirmed? then InvoiceUnanswered
    else RestOfPayment(orders, sellOrderId, env)
  }

  lemma CommitLeft(s: Scene, taskId: string, task: Task, attemptId: string, windows: seq<Charge>, env: SettleEnv)
    requires env.invoice.Confirmed? && env.payment.Confirmed?
    requires Reached(s, ProviderMarkSettled, task, Some(env.invoice.id), Some(env.payment.id), CallsAt(Completed, attemptId, env))
    requires s.attempt.payload == RequestAt(Completed, taskId, task, windows, env)
    ensures var seen := Call(s.orders, Orders.MarkSettled, s.binding.sellOrderId, env.settled).1;
            var exit := if seen then Completed else SettledRefused;
            Left(exit, taskId, task, attemptId, windows, env, CommitScene(s, env.invoice.id, env.payment.id, env))
  {
    hide Call, FinalizedTrade, Delivered, PaidOut, TradeAutoTerminates, Indexes, Sum;
  }

  lemma RecordLeft(s: Scene, taskId: string, task: Task, attemptId: string, windows: seq<Charge>, env: SettleEnv)
    requires env.invoice.Confirmed? && env.payment.Confirmed?
    requires Reached(s, RecordResult, task, Some(env.invoice.id), Some(env.payment.id), CallsAt(ResultGuarded, attemptId, env))
    requires s.attempt.payload == RequestAt(Completed, taskId, task, windows, env)
    ensures Left(RestOfRecord(s.orders, s.binding.sellOrderId, env), taskId, task, attemptId, windows, env,
                 RecordScene(s, windows, env.invoice.id, env.payment.id, attemptId, env))
  {
    hide Call, CommitScene, Advanced, Indexes, Sum, Round, IndexSet;
    if !env.recordBlocked && env.recorded.Answered? {
      var after := AfterRecord(Asked(s, ResultCall(attemptId, env.recorded)), windows, attemptId);
      CommitLeft(after, taskId, task, attemptId, windows, env);
    }
  }

  lemma PaymentLeft(s: Scene, taskId: string, task: Task, attemptId: string, windows: seq<Charge>, env: SettleEnv)
    requires env.invoice.Confirmed?
    requires Reached(s, SettlePayment, task, Some(env.invoice.id), None, CallsAt(PaymentGuarded, attemptId, env))
    requires s.attempt.payload == RequestAt(PaymentGuarded, taskId, task, windows, env)
    ensures Left(RestOfPayment(s.orders, s.binding.sellOrderId, env), taskId, task, attemptId, windows, env,
                 PaymentScene(s, windows, env.invoice.id, attemptId, env))
  {
    hide Call, RecordScene, Advanced, Paying, Indexes, Sum, RestOfRecord;
    if !env.paymentBlocked && env.payment.Confirmed? {
      var asked := Asked(s, PaymentCall(attemptId, env.payment));
      RecordLeft(AfterPayment(asked, windows, env.invoice.id, env.payment.id, attemptId), taskId, task, attemptId, windows, env);
    }
  }

  lemma InvoiceLeft(s: Scene, taskId: string, task: Task, attemptId: string, windows: seq<Charge>, env: SettleEnv)
    requires Reached(s, CreateInvoice, task, None, None, [])
    requires s.attempt.payload == RequestAt(InvoiceGuarded, taskId, task, windows, env)
    ensures Left(RestOfInvoice(s.orders, s.binding.sellOrderId, env), taskId, task, attemptId, windows, env,
                 InvoiceScene(s, windows, attemptId, env))
  {
    hide Call, PaymentScene, Advanced, Billing.Invoice, Indexes, Sum, RestOfPayment;
    if !env.invoiceBlocked && env.invoice.Confirmed? {
      var asked := Asked(s, InvoiceCall(attemptId, env.invoice));
      PaymentLeft(AfterInvoice(asked, windows, env.invoice.id, attemptId), taskId, task, attemptId, windows, env);
    }
  }

  lemma SceneLeft(taskId: string, task: Task, attemptId: string, binding: Binding, orders: map<string, OrderStatus>,
                  env: SettleEnv)
    requires |task.pending| >= task.mergeCount
    ensures Left(ExitOf(orders, binding.sellOrderId, env), taskId, task, attemptId, Drained(task), env,
                 SettleScene(Opening(taskId, task, attemptId, binding, orders), Drained(task), taskId, attemptId, env))
  {
    hide Call, InvoiceScene, Upserted, Indexes, Sum, RestOfInvoice;
    var s := Opening(taskId, task, attemptId, binding, orders);
    var (after, seen) := Call(orders, Orders.MarkSettling, binding.sellOrderId, env.settling);
    if seen {
      ExitAfterMark(orders, binding.sellOrderId, env);
      InvoiceLeft(AfterMark(s.(orders := after), Drained(task), taskId), taskId, task, attemptId, Drained(task), env);
    }
  }

  lemma ExitAfterMark(orders: map<string, OrderStatus>, sellOrderId: string, env: SettleEnv)
    requires Call(orders, Orders.MarkSettling, sellOrderId, env.settling).1
    ensures ExitOf(orders, sellOrderId, env) ==
              RestOfInvoice(Call(orders, Orders.MarkSettling, sellOrderId, env.settling).0, sellOrderId, env)
  {
    hide Call;
  }

  /**
   * What a pass leaves at each exit: of its attempt and of the gateway's log as in the table; its match in the status of the
   * exit, and its two locks and its task's binding exactly if it ran to the end. No other attempt and no other match changes.
   */
  lemma PassLeft(w: World, taskId: string, attemptId: string, env: SettleEnv)
    requires Settleable(w, taskId) && attemptId !in w.attempts
    ensures var task, v := w.tasks[taskId], PassDone(w, taskId, attemptId, env);
            var matchId := task.bound.value;
            var b := w.bindings[matchId];
            var exit := ExitOf(w.orders, b.sellOrderId, env);
            && attemptId in v.attempts && v.attempts == w.attempts[attemptId := v.attempts[attemptId]]
            && AttemptLeft(exit, taskId, task, Drained(task), env, v.attempts[attemptId])
            && v.gateway == w.gateway + CallsAt(exit, attemptId, env)
            && v.bindings == w.bindings[matchId := b.(status := MatchStatusAt(exit))]
            && v.lockedBuys == (if exit == Completed then w.lockedBuys else w.lockedBuys - {b.buyOrderId})
            && v.lockedSells == (if exit == Completed then w.lockedSells else w.lockedSells - {b.sellOrderId})
            && taskId in v.tasks && v.tasks[taskId].bound == (if exit == Completed then task.bound else None)
  {
    hide SettleScene, Upserted, ExitOf, AttemptLeft, CallsAt, MatchStatusAt, Indexes, KeepsSettled, SameIdentity;
    var task := w.tasks[taskId];
    SceneLeft(taskId, task, attemptId, w.bindings[task.bound.value], w.orders, env);
  }

  // ---- One stage run ----

  /** A successful run makes the marks of its stage, and gets only the papers of its stage, and only if they are missing. */
  predicate Marked(a: Attempt, b: Attempt) {
    && (b.settlingDone <==> a.settlingDone || a.stage == ProviderMarkSettling)
    && (b.recorded <==> a.recorded || a.stage == RecordResult || a.stage == ProviderMarkSettled)
    && (b.settledDone <==> a.settledDone || a.stage == ProviderMarkSettled)
    && (b.invoiceId != a.invoiceId ==> a.stage == CreateInvoice && a.invoiceId.None?)
    && (b.paymentId != a.paymentId ==> a.stage == SettlePayment && a.paymentId.None?)
  }

  /** The request kept is the one of the stage: for the windows of the attempt's own bills, under the papers it had. */
  predicate AsksForOwn(attemptId: string, a: Attempt, task: Task, b: Attempt) {
    var windows := ReplayWindows(task.bills, attemptId);
    b.payload.Some? &&
    match b.payload.value
    case InvoiceRequest(taskId, job, interval, indexes, gross) =>
      && a.stage == CreateInvoice && taskId == a.taskId && job == task.providerJobId && interval == task.interval
      && indexes == Indexes(windows) && gross == Sum(windows)
    case PaymentRequest(invoiceId, indexes, gross) =>
      && a.stage == SettlePayment && a.invoiceId == Some(invoiceId)
      && indexes == Indexes(windows) && gross == Sum(windows)
    case RecordRequest(invoiceId, paymentId, indexes) =>
      && a.stage == RecordResult && a.invoiceId == Some(invoiceId) && a.paymentId == Some(paymentId)
      && indexes == Indexes(windows)
  }

  lemma InvoiceRunLeft(attemptId: string, a: Attempt, task: Option<Task>, orders: map<string, OrderStatus>, env: StageEnv)
    requires a.stage == CreateInvoice
    ensures var run := RunCreateInvoice(attemptId, a, task, orders, env);
            && (run.ok ==> Marked(a, run.attempt))
            && (run.ok && run.calls != [] && task.Some? ==> AsksForOwn(attemptId, a, task.value, run.attempt))
  {
    hide ReplayWindows, WithBillStatus, Contained, Indexes, Sum, Billing.Invoice;
  }

  lemma PaymentRunLeft(attemptId: string, a: Attempt, task: Option<Task>, orders: map<string, OrderStatus>, env: StageEnv)
    requires a.stage == SettlePayment
    ensures var run := RunSettlePayment(attemptId, a, task, orders, env);
            && (run.ok ==> Marked(a, run.attempt))
            && (run.ok && run.calls != [] && task.Some? ==> AsksForOwn(attemptId, a, task.value, run.attempt))
  {
    hide ReplayWindows, WithBillStatus, Contained, Indexes, Sum, Paying;
  }

  lemma RecordRunLeft(attemptId: string, a: Attempt, task: Option<Task>, orders: map<string, OrderStatus>, env: StageEnv)
    requires a.stage == RecordResult
    ensures var run := RunRecordResult(attemptId, a, task, orders, env);
            && (run.ok ==> Marked(a, run.attempt))
            && (run.ok && run.calls != [] && task.Some? ==> AsksForOwn(attemptId, a, task.value, run.attempt))
  {
    hide ReplayWindows, WithBillStatus, Contained, Indexes, Sum, Advanced;
  }

  lemma RunLeft(attemptId: string, a: Attempt, task: Option<Task>, orders: map<string, OrderStatus>, env: StageEnv)
    requires RunStage(attemptId, a, task, orders, env).ok
    ensures Marked(a, RunStage(attemptId, a, task, orders, env).attempt)
  {
    hide Call, RunCreateInvoice, RunSettlePayment, RunRecordResult, Contained;
    match a.stage
    case CreateInvoice => InvoiceRunLeft(attemptId, a, task, orders, env);
    case SettlePayment => PaymentRunLeft(attemptId, a, task, orders, env);
    case RecordResult => RecordRunLeft(attemptId, a, task, orders, env);
    case _ =>
  }

  /** A run that calls the gateway and succeeds keeps the request it made, for the windows of the attempt's own bills. */
  lemma RunAsks(attemptId: string, a: Attempt, task: Task, orders: map<string, OrderStatus>, env: StageEnv)
    requires var run := RunStage(attemptId, a, Some(task), orders, env); run.ok && run.calls != []
    ensures AsksForOwn(attemptId, a, task, RunStage(attemptId, a, Some(task), orders, env).attempt)
  {
    hide Call, RunCreateInvoice, RunSettlePayment, RunRecordResult, Contained, AsksForOwn;
    match a.stage
    case CreateInvoice => InvoiceRunLeft(attemptId, a, Some(task), orders, env);
    case SettlePayment => PaymentRunLeft(attemptId, a, Some(task), orders, env);
    case RecordResult => RecordRunLeft(attemptId, a, Some(task), orders, env);
    case _ =>
  }

  // ---- Which polls make an attempt ----

  /**
   * A poll makes a settlement attempt exactly when its report brings a new window, the queue with it is long enough, the task is
   * bound to a known match that is accepted or settling, and the attempt's identifier is new. Any other poll calls nobody.
   */
  lemma PollMakesAttempt(w: World, taskId: string, report: PollReport, attemptId: string, env: SettleEnv)
    ensures var v := Polled(w, taskId, report, attemptId, env);
            var made := && taskId in w.tasks && attemptId !in w.attempts
                        && var t := w.tasks[taskId];
                           && Admits(t, report) && |t.pending| + 1 >= t.mergeCount
                           && t.bound.Some? && t.bound.value in w.bindings
                           && w.bindings[t.bound.value].status in {Accepted, MatchSettling};
            && (v.attempts.Keys == if made then w.attempts.Keys + {attemptId} else w.attempts.Keys)
            && (!made ==> v.attempts == w.attempts && v.gateway == w.gateway && v.orders == w.orders && v.bindings == w.bindings)
  {
    hide PassScene, Admits;
    if taskId in w.tasks && Admits(w.tasks[taskId], report) {
      AdmittedQueue(w.tasks[taskId], report);
    }
  }

  lemma AdmittedQueue(t: Task, report: PollReport)
    requires Admits(t, report)
    ensures var u := Admitted(t, report);
            |u.pending| == |t.pending| + 1 && u.bound == t.bound && u.mergeCount == t.mergeCount
  {
  }
}
