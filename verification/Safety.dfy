/** What every attempt keeps over every run: the order of its milestones, and at most one confirmed invoice and payment. */
module Safety {
  import opened Wrappers
  import opened Market
  import opened Billing
  import opened Orders
  import opened Settlement
  import opened Agent

  predicate AttemptOk(a: Attempt) {
    && (a.paymentId.Some? ==> a.invoiceId.Some?)
    && (a.recorded ==> a.paymentId.Some?)
    && (a.stage == RecordResult || a.stage == ProviderMarkSettled ==> a.paymentId.Some?)
    && (a.settledDone ==> a.recorded)
    && (a.status == Committed ==> a.settledDone)
  }

  // ---- The gateway's log ----

  function Listed(id: Option<string>): seq<string> {
    match id
    case None => []
    case Some(s) => [s]
  }

  /** The invoices the gateway confirmed for an attempt, oldest first. */
  function ConfirmedInvoices(calls: seq<GatewayCall>, attemptId: string): seq<string> {
    if calls == [] then []
    else
      var c := calls[|calls| - 1];
      ConfirmedInvoices(calls[..|calls| - 1], attemptId) +
      if c.InvoiceCall? && c.answer.Confirmed? && c.attemptId == attemptId then [c.answer.id] else []
  }

  function ConfirmedPayments(calls: seq<GatewayCall>, attemptId: string): seq<string> {
    if calls == [] then []
    else
      var c := calls[|calls| - 1];
      ConfirmedPayments(calls[..|calls| - 1], attemptId) +
      if c.PaymentCall? && c.answer.Confirmed? && c.attemptId == attemptId then [c.answer.id] else []
  }

  predicate Only(calls: seq<GatewayCall>, attemptId: string) {
    forall i :: 0 <= i < |calls| ==> calls[i].attemptId == attemptId
  }

  lemma {:induction false} ForeignCalls(calls: seq<GatewayCall>, attemptId: string, other: string)
    requires Only(calls, attemptId) && other != attemptId
    ensures ConfirmedInvoices(calls, other) == [] && ConfirmedPayments(calls, other) == []
  {
    if calls != [] {
      ForeignCalls(calls[..|calls| - 1], attemptId, other);
    }
  }

  lemma {:induction false} InvoicesConcat(a: seq<GatewayCall>, b: seq<GatewayCall>, attemptId: string)
    ensures ConfirmedInvoices(a + b, attemptId) == ConfirmedInvoices(a, attemptId) + ConfirmedInvoices(b, attemptId)
  {
    if b == [] {
      assert a + b == a;
    } else {
      assert (a + b)[..|a + b| - 1] == a + b[..|b| - 1];
      InvoicesConcat(a, b[..|b| - 1], attemptId);
    }
  }

  lemma {:induction false} PaymentsConcat(a: seq<GatewayCall>, b: seq<GatewayCall>, attemptId: string)
    ensures ConfirmedPayments(a + b, attemptId) == ConfirmedPayments(a, attemptId) + ConfirmedPayments(b, attemptId)
  {
    if b == [] {
      assert a + b == a;
    } else {
      assert (a + b)[..|a + b| - 1] == a + b[..|b| - 1];
      PaymentsConcat(a, b[..|b| - 1], attemptId);
    }
  }

  lemma OneCall(calls: seq<GatewayCall>, c: GatewayCall)
    ensures ConfirmedInvoices(calls + [c], c.attemptId) ==
              ConfirmedInvoices(calls, c.attemptId) + if c.InvoiceCall? && c.answer.Confirmed? then [c.answer.id] else []
    ensures ConfirmedPayments(calls + [c], c.attemptId) ==
              ConfirmedPayments(calls, c.attemptId) + if c.PaymentCall? && c.answer.Confirmed? then [c.answer.id] else []
  {
    assert (calls + [c])[..|calls|] == calls;
  }

  // ---- One pass, one stage run ----

  /** The calls are the attempt's, and those confirmed are exactly its invoice and its payment. */
  ghost predicate LoggedBy(a: Attempt, attemptId: string, calls: seq<GatewayCall>) {
    && Only(calls, attemptId)
    && ConfirmedInvoices(calls, attemptId) == Listed(a.invoiceId)
    && ConfirmedPayments(calls, attemptId) == Listed(a.paymentId)
  }

  lemma CommitSceneSafe(s: Scene, attemptId: string, invoiceId: string, paymentId: string, env: SettleEnv)
    requires AttemptOk(s.attempt) && LoggedBy(s.attempt, attemptId, s.calls)
    requires s.attempt.invoiceId == Some(invoiceId) && s.attempt.paymentId == Some(paymentId)
    requires s.attempt.status == InProgress
    ensures var r := CommitScene(s, invoiceId, paymentId, env);
            AttemptOk(r.attempt) && LoggedBy(r.attempt, attemptId, r.calls)
  {
    hide Call, AutoFinalized, ConfirmedInvoices, ConfirmedPayments;
  }

  lemma RecordSceneSafe(s: Scene, windows: seq<Charge>, invoiceId: string, paymentId: string, attemptId: string, env: SettleEnv)
    requires AttemptOk(s.attempt) && LoggedBy(s.attempt, attemptId, s.calls)
    requires s.attempt.invoiceId == Some(invoiceId) && s.attempt.paymentId == Some(paymentId)
    requires s.attempt.status == InProgress && s.attempt.stage == RecordResult
    ensures var r := RecordScene(s, windows, invoiceId, paymentId, attemptId, env);
            AttemptOk(r.attempt) && LoggedBy(r.attempt, attemptId, r.calls)
  {
    hide Call, CommitScene, ConfirmedInvoices, ConfirmedPayments, WithBillStatus, Sum, Round;
    if !env.recordBlocked {
      OneCall(s.calls, ResultCall(attemptId, env.recorded));
      if env.recorded.Answered? {
        var asked := Asked(s, ResultCall(attemptId, env.recorded));
        CommitSceneSafe(AfterRecord(asked, windows, attemptId), attemptId, invoiceId, paymentId, env);
      }
    }
  }

  lemma PaymentSceneSafe(s: Scene, windows: seq<Charge>, invoiceId: string, attemptId: string, env: SettleEnv)
    requires AttemptOk(s.attempt) && LoggedBy(s.attempt, attemptId, s.calls)
    requires s.attempt.invoiceId == Some(invoiceId) && s.attempt.paymentId == None
    requires s.attempt.status == InProgress && s.attempt.stage == SettlePayment
    ensures var r := PaymentScene(s, windows, invoiceId, attemptId, env);
            AttemptOk(r.attempt) && LoggedBy(r.attempt, attemptId, r.calls)
  {
    hide Call, RecordScene, ConfirmedInvoices, ConfirmedPayments, WithBillStatus, Sum, Paying;
    if !env.paymentBlocked {
      OneCall(s.calls, PaymentCall(attemptId, env.payment));
      if env.payment.Confirmed? {
        var asked := Asked(s, PaymentCall(attemptId, env.payment));
        var paid := AfterPayment(asked, windows, invoiceId, env.payment.id, attemptId);
        RecordSceneSafe(paid, windows, invoiceId, env.payment.id, attemptId, env);
      }
    }
  }

  lemma InvoiceSceneSafe(s: Scene, windows: seq<Charge>, attemptId: string, env: SettleEnv)
    requires AttemptOk(s.attempt) && LoggedBy(s.attempt, attemptId, s.calls)
    requires s.attempt.invoiceId == None && s.attempt.paymentId == None
    requires s.attempt.status == InProgress && s.attempt.stage == CreateInvoice
    ensures var r := InvoiceScene(s, windows, attemptId, env);
            AttemptOk(r.attempt) && LoggedBy(r.attempt, attemptId, r.calls)
  {
    hide Call, PaymentScene, ConfirmedInvoices, ConfirmedPayments, WithBillStatus, Sum, Billing.Invoice;
    if !env.invoiceBlocked {
      OneCall(s.calls, InvoiceCall(attemptId, env.invoice));
      if env.invoice.Confirmed? {
        var asked := Asked(s, InvoiceCall(attemptId, env.invoice));
        PaymentSceneSafe(AfterInvoice(asked, windows, env.invoice.id, attemptId), windows, env.invoice.id, attemptId, env);
      }
    }
  }

  lemma PassSafe(taskId: string, task: Task, attemptId: string, binding: Binding, orders: map<string, OrderStatus>, env: SettleEnv)
    requires |task.pending| >= task.mergeCount
    ensures var r := SettleScene(Opening(taskId, task, attemptId, binding, orders), Drained(task), taskId, attemptId, env);
            AttemptOk(r.attempt) && LoggedBy(r.attempt, attemptId, r.calls)
  {
    hide Call, InvoiceScene, Upserted, Sum, Indexes;
    var s := Opening(taskId, task, attemptId, binding, orders);
    var (after, ok) := Call(s.orders, Orders.MarkSettling, s.binding.sellOrderId, env.settling);
    if ok {
      InvoiceSceneSafe(AfterMark(s.(orders := after), Drained(task), taskId), Drained(task), attemptId, env);
    }
  }

  /** The gateway's new calls extend the attempt's own record, which they never replace. */
  ghost predicate Extends(a: Attempt, b: Attempt, attemptId: string, calls: seq<GatewayCall>) {
    && Only(calls, attemptId)
    && Listed(b.invoiceId) == Listed(a.invoiceId) + ConfirmedInvoices(calls, attemptId)
    && Listed(b.paymentId) == Listed(a.paymentId) + ConfirmedPayments(calls, attemptId)
  }

  ghost predicate RunOk(attemptId: string, a: Attempt, run: StageRun) {
    AttemptOk(run.attempt) && Extends(a, run.attempt, attemptId, run.calls) && run.attempt.retries == a.retries
  }

  lemma NoCallsOk(attemptId: string, a: Attempt, run: StageRun)
    requires AttemptOk(run.attempt) && run.calls == [] && run.attempt.retries == a.retries
    requires SameRecord(a, run.attempt)
    ensures RunOk(attemptId, a, run)
  {
  }

  lemma OneCallOk(attemptId: string, a: Attempt, run: StageRun, c: GatewayCall)
    requires AttemptOk(run.attempt) && run.calls == [c] && c.attemptId == attemptId && run.attempt.retries == a.retries
    requires if c.InvoiceCall? && c.answer.Confirmed? then a.invoiceId == None && run.attempt.invoiceId == Some(c.answer.id)
             else a.invoiceId == run.attempt.invoiceId
    requires if c.PaymentCall? && c.answer.Confirmed? then a.paymentId == None && run.attempt.paymentId == Some(c.answer.id)
             else a.paymentId == run.attempt.paymentId
    ensures RunOk(attemptId, a, run)
  {
    OneCall([], c);
    assert [] + [c] == run.calls;
  }

  lemma RunCreateInvoiceOk(attemptId: string, a: Attempt, task: Option<Task>, orders: map<string, OrderStatus>, env: StageEnv)
    requires AttemptOk(a) && a.stage == CreateInvoice
    ensures RunOk(attemptId, a, RunCreateInvoice(attemptId, a, task, orders, env))
  {
    hide WithBillStatus, CreateInvoiceRequest, ReplayWindows, Billing.Invoice, RunOk;
    var run := RunCreateInvoice(attemptId, a, task, orders, env);
    if run.calls == [] {
      NoCallsOk(attemptId, a, run);
    } else {
      OneCallOk(attemptId, a, run, run.calls[0]);
    }
  }

  lemma RunSettlePaymentOk(attemptId: string, a: Attempt, task: Option<Task>, orders: map<string, OrderStatus>, env: StageEnv)
    requires AttemptOk(a) && a.stage == SettlePayment
    ensures RunOk(attemptId, a, RunSettlePayment(attemptId, a, task, orders, env))
  {
    hide WithBillStatus, SettlePaymentRequest, ReplayWindows, Paying, RunOk;
    var run := RunSettlePayment(attemptId, a, task, orders, env);
    if run.calls == [] {
      NoCallsOk(attemptId, a, run);
    } else {
      OneCallOk(attemptId, a, run, run.calls[0]);
    }
  }

  lemma RunRecordResultOk(attemptId: string, a: Attempt, task: Option<Task>, orders: map<string, OrderStatus>, env: StageEnv)
    requires AttemptOk(a) && a.stage == RecordResult
    ensures RunOk(attemptId, a, RunRecordResult(attemptId, a, task, orders, env))
  {
    hide WithBillStatus, RecordResultRequest, ReplayWindows, RunOk;
    var run := RunRecordResult(attemptId, a, task, orders, env);
    if run.calls == [] {
      NoCallsOk(attemptId, a, run);
    } else {
      OneCallOk(attemptId, a, run, run.calls[0]);
    }
  }

  /** A stage run keeps the attempt sound and adds to its record, whatever the provider and the gateway answer. */
  lemma RunSafe(attemptId: string, a: Attempt, task: Option<Task>, orders: map<string, OrderStatus>, env: StageEnv)
    requires AttemptOk(a)
    ensures RunOk(attemptId, a, RunStage(attemptId, a, task, orders, env))
  {
    hide Call, RunOk, RunCreateInvoice, RunSettlePayment, RunRecordResult;
    var run := RunStage(attemptId, a, task, orders, env);
    match a.stage
    case ProviderMarkSettling => NoCallsOk(attemptId, a, run);
    case CreateInvoice => RunCreateInvoiceOk(attemptId, a, task, orders, env);
    case SettlePayment => RunSettlePaymentOk(attemptId, a, task, orders, env);
    case RecordResult => RunRecordResultOk(attemptId, a, task, orders, env);
    case ProviderMarkSettled => NoCallsOk(attemptId, a, run);
  }

  lemma AfterRunSafe(attemptId: string, a: Attempt, run: StageRun)
    requires RunOk(attemptId, a, run)
    ensures AttemptOk(AfterRun(run)) && Extends(a, AfterRun(run), attemptId, run.calls)
    ensures AfterRun(run).retries == a.retries + 1
  {
    hide ConfirmedInvoices, ConfirmedPayments;
  }

  // ---- Every step ----

  /** Every attempt is sound, and what the gateway confirmed for it is exactly the invoice and the payment it holds. */
  ghost predicate Safe(w: World) {
    forall id ::
      if id in w.attempts then
        && AttemptOk(w.attempts[id])
        && ConfirmedInvoices(w.gateway, id) == Listed(w.attempts[id].invoiceId)
        && ConfirmedPayments(w.gateway, id) == Listed(w.attempts[id].paymentId)
      else
        ConfirmedInvoices(w.gateway, id) == [] && ConfirmedPayments(w.gateway, id) == []
  }

  /** A step that adds calls of one attempt and moves that attempt along keeps everything. */
  lemma OneAttemptMoves(w: World, v: World, attemptId: string, calls: seq<GatewayCall>)
    requires Safe(w) && attemptId in v.attempts && v.attempts == w.attempts[attemptId := v.attempts[attemptId]]
    requires v.gateway == w.gateway + calls && AttemptOk(v.attempts[attemptId])
    requires if attemptId in w.attempts then Extends(w.attempts[attemptId], v.attempts[attemptId], attemptId, calls)
             else LoggedBy(v.attempts[attemptId], attemptId, calls)
    ensures Safe(v)
  {
    hide AttemptOk, ConfirmedInvoices, ConfirmedPayments;
    forall id
      ensures ConfirmedInvoices(v.gateway, id) == ConfirmedInvoices(w.gateway, id) + ConfirmedInvoices(calls, id)
      ensures ConfirmedPayments(v.gateway, id) == ConfirmedPayments(w.gateway, id) + ConfirmedPayments(calls, id)
      ensures id != attemptId ==> ConfirmedInvoices(calls, id) == [] && ConfirmedPayments(calls, id) == []
    {
      InvoicesConcat(w.gateway, calls, id);
      PaymentsConcat(w.gateway, calls, id);
      if id != attemptId {
        ForeignCalls(calls, attemptId, id);
      }
    }
  }

  predicate SameRecord(a: Attempt, b: Attempt) {
    a.invoiceId == b.invoiceId && a.paymentId == b.paymentId
  }

  /** Relabelling attempts keeps everything, if each stays sound. */
  lemma AttemptsRelabelled(w: World, v: World)
    requires Safe(w) && v.attempts.Keys == w.attempts.Keys && v.gateway == w.gateway
    requires forall id :: id in w.attempts ==> SameRecord(w.attempts[id], v.attempts[id]) && AttemptOk(v.attempts[id])
    ensures Safe(v)
  {
    hide AttemptOk;
  }

  lemma PolledSafe(w: World, taskId: string, report: PollReport, attemptId: string, env: SettleEnv)
    requires Safe(w)
    ensures Safe(Polled(w, taskId, report, attemptId, env))
  {
    hide Safe, SettleScene, Opening, Admitted;
    if taskId in w.tasks {
      var v := w.(tasks := w.tasks[taskId := Admitted(w.tasks[taskId], report)]);
      AttemptsUntouched(w, v);
      if Admits(w.tasks[taskId], report) {
        SettledSafe(v, taskId, attemptId, env);
      }
    }
  }

  lemma AttemptsUntouched(w: World, v: World)
    requires Safe(w) && v.attempts == w.attempts && v.gateway == w.gateway
    ensures Safe(v)
  {
  }

  lemma SettledSafe(w: World, taskId: string, attemptId: string, env: SettleEnv)
    requires Safe(w)
    ensures Safe(PassDone(w, taskId, attemptId, env))
  {
    hide Safe, SettleScene, Opening, LoggedBy, AttemptOk;
    if Settleable(w, taskId) && attemptId !in w.attempts {
      var task := w.tasks[taskId];
      PassSafe(taskId, task, attemptId, w.bindings[task.bound.value], w.orders, env);
      var s := PassScene(w, taskId, attemptId, env);
      OneAttemptMoves(w, PassDone(w, taskId, attemptId, env), attemptId, s.calls);
    }
  }

  lemma ResumedSafe(w: World, attemptId: string, now: nat, env: StageEnv)
    requires Safe(w) && Resumes(w, attemptId, now)
    ensures Safe(Recovered(w, attemptId, now, env))
  {
    var a := w.attempts[attemptId];
    assert AttemptOk(a);
    hide Safe, RunStage, RunOk, AttemptOk, AfterRun, Extends;
    RunSafe(attemptId, a, TaskOf(w, a), w.orders, env);
    var run := Resumed(w, attemptId, env);
    AfterRunSafe(attemptId, a, run);
    OneAttemptMoves(w, Recovered(w, attemptId, now, env), attemptId, run.calls);
  }

  lemma RecoveredSafe(w: World, attemptId: string, now: nat, env: StageEnv)
    requires Safe(w)
    ensures Safe(Recovered(w, attemptId, now, env))
  {
    hide Safe;
    if Resumes(w, attemptId, now) {
      ResumedSafe(w, attemptId, now, env);
    } else if GivesUp(w, attemptId, now) {
      OneRelabelled(w, attemptId, w.attempts[attemptId].(status := FailedFinal));
    }
  }

  /** Relabelling one attempt keeps everything, if it stays sound. */
  lemma OneRelabelled(w: World, attemptId: string, a: Attempt)
    requires Safe(w) && attemptId in w.attempts && SameRecord(w.attempts[attemptId], a)
    requires AttemptOk(w.attempts[attemptId]) ==> AttemptOk(a)
    ensures Safe(w.(attempts := w.attempts[attemptId := a]))
  {
    hide ConfirmedInvoices, ConfirmedPayments;
    AttemptsRelabelled(w, w.(attempts := w.attempts[attemptId := a]));
  }

  lemma WithAttemptSafe(w: World, attemptId: Option<string>, status: AttemptStatus, restart: bool)
    requires Safe(w) && status != Committed
    ensures Safe(WithAttempt(w, attemptId, status, restart))
  {
    hide Safe;
    if attemptId.Some? && attemptId.value in w.attempts {
      var a := w.attempts[attemptId.value];
      OneRelabelled(w, attemptId.value, a.(status := status, stage := if restart then ProviderMarkSettling else a.stage));
    }
  }

  lemma ActionTakenSafe(w: World, d: Dispute, action: DisputeAction)
    requires Safe(w)
    ensures Safe(ActionTaken(w, d, action))
  {
    hide Safe, RolledBackTasks, PenalizedTasks, RefundedTasks, WithAttempt;
    WithAttemptSafe(w, d.attemptId, InProgress, true);
    WithAttemptSafe(w, d.attemptId, FailedFinal, false);
    match action
    case RollbackAction => AttemptsUntouched(WithAttempt(w, d.attemptId, FailedFinal, false), ActionTaken(w, d, action));
    case ApplyPenalty => AttemptsUntouched(w, ActionTaken(w, d, action));
    case ReleaseRefund => AttemptsUntouched(w, ActionTaken(w, d, action));
    case _ =>
  }

  lemma DisputeActedSafe(w: World, disputeId: string, action: DisputeAction)
    requires Safe(w)
    ensures Safe(DisputeActed(w, disputeId, action))
  {
    hide Safe, ActionTaken, AllowedActions;
    if disputeId in w.disputes {
      ActionTakenSafe(w, w.disputes[disputeId], action);
    }
  }

  lemma ReapedSafe(w: World, env: ReaperEnv)
    requires Safe(w)
    ensures Safe(Reaped(w, env))
  {
    hide Safe, UnstuckAll, MatchesReleased, LocksReaped;
    StuckSafe(w);
    AttemptsUntouched(StuckDetected(w), Reaped(w, env));
  }

  lemma ModeSwitchedSafe(w: World, mode: Mode, net: Deliveries)
    requires Safe(w)
    ensures Safe(ModeSwitched(w, mode, net))
  {
    hide Safe, AbandonedAll, InterruptedAll, MatchesReleased;
    InterruptedSafe(w);
    if w.mode != mode {
      AttemptsUntouched(w.(attempts := InterruptedAll(w.attempts)), ModeSwitched(w, mode, net));
    }
  }

  lemma InterruptedSafe(w: World)
    requires Safe(w)
    ensures Safe(w.(attempts := InterruptedAll(w.attempts)))
  {
    hide ConfirmedInvoices, ConfirmedPayments;
    AttemptsRelabelled(w, w.(attempts := InterruptedAll(w.attempts)));
  }

  lemma OperatorSafe(w: World, attemptId: string)
    requires Safe(w)
    ensures Safe(OperatorRetried(w, attemptId)) && Safe(MarkedFinal(w, attemptId))
  {
    hide Safe;
    if attemptId in w.attempts && OperatorMayAct(w.attempts[attemptId]) {
      var a := w.attempts[attemptId];
      OneRelabelled(w, attemptId, a.(status := InProgress, stage := ProviderMarkSettling, retries := a.retries + 1));
      OneRelabelled(w, attemptId, a.(status := FailedFinal));
    }
  }

  /** The steps that do not concern attempts. */
  predicate LeavesAttempts(step: Step) {
    || step.SetRunning? || step.CleanTask? || step.OpenDispute? || step.CancelMatch? || step.ExpireMatch?
    || step.RetryMatch? || step.RejectMatch? || step.Accept? || step.Provider? || step.AddOrder?
  }

  lemma AttemptsLeft(w: World, step: Step)
    requires LeavesAttempts(step)
    ensures Next(w, step).attempts == w.attempts && Next(w, step).gateway == w.gateway
  {
    hide Polled, Recovered, StuckDetected, ModeSwitched, OperatorRetried, MarkedFinal, DisputeActed, Reaped;
    hide TaskCleaned, MatchReleased, MatchRetried, MatchRejected, AcceptHandled, ProviderHandled, OrderAdded;
    hide OnlyRebinds, KeepsSettled, WellKeyed, MatchIdOf;
  }

  lemma NextSafe(w: World, step: Step)
    requires Safe(w)
    ensures Safe(Next(w, step))
  {
    hide Safe, Polled, Recovered, StuckDetected, ModeSwitched, OperatorRetried, MarkedFinal, DisputeActed, Reaped;
    hide TaskCleaned, MatchReleased, MatchRetried, MatchRejected, AcceptHandled, ProviderHandled, OrderAdded;
    match step
    case Poll(taskId, report, attemptId, env) => PolledSafe(w, taskId, report, attemptId, env);
    case Recover(attemptId, now, env) => RecoveredSafe(w, attemptId, now, env);
    case DetectStuck => StuckSafe(w);
    case SwitchMode(mode, net) => ModeSwitchedSafe(w, mode, net);
    case OperatorRetry(attemptId) => OperatorSafe(w, attemptId);
    case OperatorMarkFinal(attemptId) => OperatorSafe(w, attemptId);
    case ActOnDispute(disputeId, action) => DisputeActedSafe(w, disputeId, action);
    case Reap(env) => ReapedSafe(w, env);
    case _ =>
      AttemptsLeft(w, step);
      AttemptsUntouched(w, Next(w, step));
  }

  lemma StuckSafe(w: World)
    requires Safe(w)
    ensures Safe(StuckDetected(w))
  {
    hide ConfirmedInvoices, ConfirmedPayments;
    AttemptsRelabelled(w, StuckDetected(w));
  }

  lemma InitialSafe(w: World)
    requires Initial(w)
    ensures Safe(w)
  {
  }

  /**
   * Over every run from a fresh start, whatever interleaves and whatever fails or is lost: a payment needs an invoice, a
   * recorded result a payment, a settled mark a recorded result and a commit a settled mark, and the gateway has confirmed
   * for each attempt no invoice and no payment besides the ones it holds.
   */
  lemma {:induction false} RunIsSafe(w: World, steps: seq<Step>)
    requires Initial(w)
    ensures Safe(Run(w, steps))
  {
    hide Safe, Next, Initial;
    if steps == [] {
      InitialSafe(w);
    } else {
      RunIsSafe(w, steps[..|steps| - 1]);
      NextSafe(Run(w, steps[..|steps| - 1]), steps[|steps| - 1]);
    }
  }

  /** So it confirms at most one invoice and at most one payment for an attempt, however often that is retried. */
  lemma AtMostOneConfirmed(w: World, steps: seq<Step>, attemptId: string)
    requires Initial(w)
    ensures |ConfirmedInvoices(Run(w, steps).gateway, attemptId)| <= 1
    ensures |ConfirmedPayments(Run(w, steps).gateway, attemptId)| <= |ConfirmedInvoices(Run(w, steps).gateway, attemptId)|
  {
    hide Run, ConfirmedInvoices, ConfirmedPayments;
    RunIsSafe(w, steps);
  }
}
