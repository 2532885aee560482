/** What compensation leaves to recovery: which failed passes recovery alone can still bring to a commit. */
module Compensation {
  import opened Wrappers
  import opened Market
  import opened Billing
  import opened Orders
  import opened Settlement
  import opened Agent
  import opened Safety
  import opened Replay
  import opened Exits
  import opened Prospects
  import Bills
  import Documents
  import Windows

  /** Of an order that is locked or settling, a release call that arrives leaves nothing to settle. */
  lemma ReleaseOpens(orders: map<string, OrderStatus>, id: string, settling: Delivery, release: Delivery)
    ensures var (marked, seen) := Call(orders, Orders.MarkSettling, id, settling);
            var after := Call(marked, Orders.Release, id, release).0;
            if seen then
              && (Is(after, id, {Settling, OrderStatus.Settled}) <==> release.NotReached?)
              && (Is(after, id, {Locked, Settling}) <==> release.NotReached?)
            else Is(after, id, {Locked, Settling}) <==> release.NotReached? && Is(orders, id, {Locked, Settling})
  {
  }

  /** What an exit leaves standing, apart from the order. */
  predicate Resumable(exit: Exit, task: Task, binding: Binding, orders: map<string, OrderStatus>)
    requires |task.pending| >= task.mergeCount
  {
    var windows := Drained(task);
    match exit
    case MarkRefused =>
      Is(orders, binding.sellOrderId, {Locked, Settling}) && SomeUnbilled(task.bills, binding.matchId, windows, task.interval)
    case InvoiceGuarded =>
      Unbilled(task.bills, binding.matchId, windows, task.interval) && Sum(Rounded(windows)) == Sum(windows)
    case PaymentGuarded => true
    case PaymentUnanswered => true
    case _ => false
  }

  predicate Committable(attemptId: string, a: Attempt, task: Task, orders: map<string, OrderStatus>) {
    Recoverable(a.status) && InTime(a) && Finishable(attemptId, a, Some(task), orders)
  }

  /** The scene a pass ends with. */
  function Ended(taskId: string, task: Task, attemptId: string, binding: Binding, orders: map<string, OrderStatus>,
                 env: SettleEnv): Scene
    requires |task.pending| >= task.mergeCount
  {
    SettleScene(Opening(taskId, task, attemptId, binding, orders), Drained(task), taskId, attemptId, env)
  }

  /** The bills of the new attempt, before anything happens to them. */
  function Billed(task: Task, attemptId: string, binding: Binding): Task
    requires |task.pending| >= task.mergeCount
  {
    task.(bills := Upserted(task.bills, attemptId, binding.matchId, Drained(task), binding.unitPrice, task.interval))
  }

  // What the attempt looks like at the exits from which something may be left to do.

  lemma MarkRefusedLeaves(taskId: string, task: Task, attemptId: string, binding: Binding, orders: map<string, OrderStatus>,
                          env: SettleEnv)
    requires |task.pending| >= task.mergeCount && ExitOf(orders, binding.sellOrderId, env) == MarkRefused
    ensures var r := Ended(taskId, task, attemptId, binding, orders, env);
            var a := r.attempt;
            && a.status == Started && a.stage == ProviderMarkSettling && a.retries == 1 && a.invoiceId == None && !a.recorded
            && a.payload == None && a.sellOrderId == binding.sellOrderId && SameJob(Billed(task, attemptId, binding), r.task)
            && r.orders == Call(Call(orders, Orders.MarkSettling, binding.sellOrderId, env.settling).0, Orders.Release,
                                binding.sellOrderId, env.release).0
  {
    hide Call, SettleScene, Upserted, ExitOf, LeftFromInvoice, Begun, Indexes;
    PassLeaves(taskId, task, attemptId, binding, orders, env);
  }

  lemma InvoiceGuardedLeaves(taskId: string, task: Task, attemptId: string, binding: Binding, orders: map<string, OrderStatus>,
                             env: SettleEnv)
    requires |task.pending| >= task.mergeCount && ExitOf(orders, binding.sellOrderId, env) == InvoiceGuarded
    ensures var r := Ended(taskId, task, attemptId, binding, orders, env);
            var a := r.attempt;
            && a.status == RetryableFailed && a.stage == CreateInvoice && a.retries == 1 && a.invoiceId == None && !a.recorded
            && a.taskId == taskId && a.sellOrderId == binding.sellOrderId && SameJob(Billed(task, attemptId, binding), r.task)
            && a.payload == Some(CreateInvoiceRequest(taskId, Billed(task, attemptId, binding), Drained(task)))
            && r.orders == Call(Call(orders, Orders.MarkSettling, binding.sellOrderId, env.settling).0, Orders.Release,
                                binding.sellOrderId, env.release).0
  {
    hide Call, SettleScene, Upserted, ExitOf, Indexes, Sum, SettlePaymentRequest;
    PassLeaves(taskId, task, attemptId, binding, orders, env);
  }

  lemma PaymentFailedLeaves(taskId: string, task: Task, attemptId: string, binding: Binding, orders: map<string, OrderStatus>,
                            env: SettleEnv)
    requires |task.pending| >= task.mergeCount
    requires ExitOf(orders, binding.sellOrderId, env) in {PaymentGuarded, PaymentUnanswered}
    ensures var r := Ended(taskId, task, attemptId, binding, orders, env);
            var a := r.attempt;
            && a.status == InProgress && a.stage == SettlePayment && a.retries == 0 && a.invoiceId.Some?
            && a.sellOrderId == binding.sellOrderId
            && r.orders == Call(Call(orders, Orders.MarkSettling, binding.sellOrderId, env.settling).0, Orders.Release,
                                binding.sellOrderId, env.release).0
  {
    hide Call, SettleScene, Upserted, ExitOf, Indexes, CreateInvoiceRequest, SettlePaymentRequest;
    PassLeaves(taskId, task, attemptId, binding, orders, env);
  }

  lemma OtherExitsLeave(taskId: string, task: Task, attemptId: string, binding: Binding, orders: map<string, OrderStatus>,
                        env: SettleEnv)
    requires |task.pending| >= task.mergeCount
    requires ExitOf(orders, binding.sellOrderId, env) in {InvoiceUnanswered, ResultGuarded, ResultUnanswered, SettledRefused}
    ensures var a := Ended(taskId, task, attemptId, binding, orders, env).attempt;
            !Recoverable(a.status) || (a.stage == SettlePayment && a.invoiceId == None && a.paymentId == None)
  {
    hide Call, SettleScene, Upserted, ExitOf, Indexes, CreateInvoiceRequest, SettlePaymentRequest;
    PassLeaves(taskId, task, attemptId, binding, orders, env);
  }

  lemma AfterMarkRefused(taskId: string, task: Task, attemptId: string, binding: Binding, orders: map<string, OrderStatus>,
                         env: SettleEnv)
    requires |task.pending| >= task.mergeCount && NoBillsOf(task.bills, attemptId) && DistinctIndexes(Drained(task))
    requires ExitOf(orders, binding.sellOrderId, env) == MarkRefused
    ensures var r := Ended(taskId, task, attemptId, binding, orders, env);
            Committable(attemptId, r.attempt, r.task, r.orders) <==>
              env.release.NotReached? && Resumable(MarkRefused, task, binding, orders)
  {
    hide Call, Is, Ended, Upserted, ReplayWindows, Remembered, SomeUnbilled, CreateInvoiceRequest;
    MarkRefusedLeaves(taskId, task, attemptId, binding, orders, env);
    ReleaseOpens(orders, binding.sellOrderId, env.settling, env.release);
    BillsRemember(task.bills, attemptId, binding.matchId, Drained(task), binding.unitPrice, task.interval);
    RememberedSome(task.bills, binding.matchId, Drained(task), task.interval);
  }

  lemma SameJobSameRequest(taskId: string, t: Task, u: Task, windows: seq<Charge>)
    requires SameJob(t, u)
    ensures CreateInvoiceRequest(taskId, t, windows) == CreateInvoiceRequest(taskId, u, windows)
  {
    hide Indexes, Sum;
  }

  /** The bills of the attempt let create_invoice be sent again. */
  lemma InvoiceableAgain(taskId: string, task: Task, attemptId: string, binding: Binding, a: Attempt, left: Task)
    requires |task.pending| >= task.mergeCount && NoBillsOf(task.bills, attemptId) && DistinctIndexes(Drained(task))
    requires SameJob(Billed(task, attemptId, binding), left) && a.taskId == taskId
    requires a.payload == Some(CreateInvoiceRequest(taskId, Billed(task, attemptId, binding), Drained(task)))
    ensures Invoiceable(attemptId, a, left) <==>
              && Unbilled(task.bills, binding.matchId, Drained(task), task.interval)
              && Sum(Rounded(Drained(task))) == Sum(Drained(task))
  {
    hide Upserted, ReplayWindows, Remembered, Unbilled, Rounded, Sum, CreateInvoiceRequest;
    var windows := Drained(task);
    BillsRemember(task.bills, attemptId, binding.matchId, windows, binding.unitPrice, task.interval);
    RememberedAll(task.bills, binding.matchId, windows, task.interval);
    ReplayAgrees(taskId, task, attemptId, binding.matchId, windows, binding.unitPrice);
    SameJobSameRequest(taskId, Billed(task, attemptId, binding), left, ReplayWindows(left.bills, attemptId));
  }

  lemma AfterInvoiceGuarded(taskId: string, task: Task, attemptId: string, binding: Binding, orders: map<string, OrderStatus>,
                            env: SettleEnv)
    requires |task.pending| >= task.mergeCount && NoBillsOf(task.bills, attemptId) && DistinctIndexes(Drained(task))
    requires ExitOf(orders, binding.sellOrderId, env) == InvoiceGuarded
    ensures var r := Ended(taskId, task, attemptId, binding, orders, env);
            Committable(attemptId, r.attempt, r.task, r.orders) <==>
              env.release.NotReached? && Resumable(InvoiceGuarded, task, binding, orders)
  {
    hide Call, Is, Ended, Billed, Invoiceable, Unbilled, Rounded, Sum, NoBillsOf, DistinctIndexes, Drained, SameJob;
    hide CreateInvoiceRequest;
    InvoiceGuardedLeaves(taskId, task, attemptId, binding, orders, env);
    ReleaseOpens(orders, binding.sellOrderId, env.settling, env.release);
    var r := Ended(taskId, task, attemptId, binding, orders, env);
    InvoiceableAgain(taskId, task, attemptId, binding, r.attempt, r.task);
  }

  lemma AfterPaymentFailed(taskId: string, task: Task, attemptId: string, binding: Binding, orders: map<string, OrderStatus>,
                           env: SettleEnv)
    requires |task.pending| >= task.mergeCount
    requires ExitOf(orders, binding.sellOrderId, env) in {PaymentGuarded, PaymentUnanswered}
    ensures var r := Ended(taskId, task, attemptId, binding, orders, env);
            Committable(attemptId, r.attempt, r.task, r.orders) <==> env.release.NotReached?
  {
    hide Call, Is, Ended, Invoiceable;
    PaymentFailedLeaves(taskId, task, attemptId, binding, orders, env);
    ReleaseOpens(orders, binding.sellOrderId, env.settling, env.release);
  }

  /** A failed pass leaves something to commit exactly when its release never arrived and its exit is one to resume from. */
  lemma AfterFailure(taskId: string, task: Task, attemptId: string, binding: Binding, orders: map<string, OrderStatus>,
                     env: SettleEnv)
    requires |task.pending| >= task.mergeCount && NoBillsOf(task.bills, attemptId) && DistinctIndexes(Drained(task))
    requires ExitOf(orders, binding.sellOrderId, env) != Completed
    ensures var r := Ended(taskId, task, attemptId, binding, orders, env);
            Committable(attemptId, r.attempt, r.task, r.orders) <==>
              env.release.NotReached? && Resumable(ExitOf(orders, binding.sellOrderId, env), task, binding, orders)
  {
    hide Ended, NoBillsOf, DistinctIndexes, Unbilled, SomeUnbilled, Is, Sum, Rounded, ExitOf, Invoiceable;
    var exit := ExitOf(orders, binding.sellOrderId, env);
    if exit == MarkRefused {
      AfterMarkRefused(taskId, task, attemptId, binding, orders, env);
    } else if exit == InvoiceGuarded {
      AfterInvoiceGuarded(taskId, task, attemptId, binding, orders, env);
    } else if exit == PaymentGuarded || exit == PaymentUnanswered {
      AfterPaymentFailed(taskId, task, attemptId, binding, orders, env);
    } else {
      OtherExitsLeave(taskId, task, attemptId, binding, orders, env);
    }
  }

  // ---- Over every run ----

  lemma NotCommitted(taskId: string, task: Task, attemptId: string, binding: Binding, orders: map<string, OrderStatus>,
                     env: SettleEnv)
    requires |task.pending| >= task.mergeCount && ExitOf(orders, binding.sellOrderId, env) != Completed
    ensures var r := Ended(taskId, task, attemptId, binding, orders, env);
            r.attempt.status != Committed && r.attempt.taskId == taskId
  {
    hide Call, SettleScene, Upserted, ExitOf, CreateInvoiceRequest, SettlePaymentRequest, Indexes;
    PassLeaves(taskId, task, attemptId, binding, orders, env);
    Windows.PassMakes(taskId, task, attemptId, binding, orders, env);
  }

  lemma FailedPass(w: World, taskId: string, attemptId: string, env: SettleEnv)
    requires Settleable(w, taskId) && attemptId !in w.attempts
    requires ExitOf(w.orders, w.bindings[w.tasks[taskId].bound.value].sellOrderId, env) != Completed
    ensures var v := PassDone(w, taskId, attemptId, env);
            var task := w.tasks[taskId];
            var r := Ended(taskId, task, attemptId, w.bindings[task.bound.value], w.orders, env);
            && attemptId in v.attempts && v.attempts[attemptId] == r.attempt && r.attempt.status != Committed
            && TaskOf(v, r.attempt) == Some(r.task) && v.orders == r.orders && v.mode == w.mode
  {
    hide SettleScene, Opening, ExitOf;
    var task := w.tasks[taskId];
    NotCommitted(taskId, task, attemptId, w.bindings[task.bound.value], w.orders, env);
  }

  /**
   * In every reachable state: after a pass that failed, recovery alone can bring the attempt to its commit exactly when
   * the compensating release never arrived at the provider, so that the order was not opened, and the pass failed at the
   * first call with the order locked or settling and some window not billed, at the guard before create_invoice with its
   * bills as it would invoice them, or at settle_payment.
   */
  lemma CompensatedCommits(w0: World, steps: seq<Step>, taskId: string, attemptId: string, env: SettleEnv, start: nat)
    requires Initial(w0)
    requires var w := Run(w0, steps);
             && w.mode == Auto && Settleable(w, taskId) && attemptId !in w.attempts
             && ExitOf(w.orders, w.bindings[w.tasks[taskId].bound.value].sellOrderId, env) != Completed
             && Until(PassDone(w, taskId, attemptId, env), attemptId) <= start
    ensures var w := Run(w0, steps);
            var task, v := w.tasks[taskId], PassDone(w, taskId, attemptId, env);
            var binding := w.bindings[task.bound.value];
            (exists ticks :: Alone(ticks) && CommittedAfter(v, attemptId, start, ticks)) <==>
              env.release.NotReached? && Resumable(ExitOf(w.orders, binding.sellOrderId, env), task, binding, w.orders)
  {
    hide Run, Initial, Safe, Until, PassDone, ExitOf, Resumable, Finishable, InTime, CommittedAfter, Alone, Ended;
    var w := Run(w0, steps);
    RunIsSafe(w0, steps);
    Bills.RunBilled(w0, steps);
    Windows.RunConserves(w0, steps);
    Documents.FreshAttempt(w, taskId, attemptId);
    var task := w.tasks[taskId];
    AfterFailure(taskId, task, attemptId, w.bindings[task.bound.value], w.orders, env);
    FailedPass(w, taskId, attemptId, env);
    SettledSafe(w, taskId, attemptId, env);
    CommitsAlone(PassDone(w, taskId, attemptId, env), attemptId, start);
  }
}
