/** When recovery alone can still commit an attempt: what each stage asks for, and what compensation takes away. */
module Prospects {
  import opened Wrappers
  import opened Market
  import opened Billing
  import opened Orders
  import opened Settlement
  import opened Agent
  import opened Safety
  import opened Recovery
  import opened Replay

  // ---- When one stage run succeeds ----

  predicate Is(orders: map<string, OrderStatus>, id: string, statuses: set<OrderStatus>) {
    id in orders && orders[id] in statuses
  }

  /** What the attempt's stage asks of the state. */
  predicate StageOpen(attemptId: string, a: Attempt, task: Option<Task>, orders: map<string, OrderStatus>) {
    match a.stage
    case ProviderMarkSettling => Is(orders, a.sellOrderId, {Locked, Settling})
    case CreateInvoice => a.invoiceId.Some? || (task.Some? && Invoiceable(attemptId, a, task.value))
    case SettlePayment => a.paymentId.Some? || (a.invoiceId.Some? && task.Some?)
    case RecordResult => a.recorded || (a.invoiceId.Some? && a.paymentId.Some? && task.Some?)
    case ProviderMarkSettled => Is(orders, a.sellOrderId, {Settling, OrderStatus.Settled})
  }

  /** What it asks of the answers. */
  predicate StageAnswered(a: Attempt, env: StageEnv) {
    match a.stage
    case ProviderMarkSettling => env.delivery.Answered?
    case CreateInvoice => a.invoiceId.Some? || (!env.blocked && env.answer.Confirmed?)
    case SettlePayment => a.paymentId.Some? || (!env.blocked && env.answer.Confirmed?)
    case RecordResult => a.recorded || (!env.blocked && env.recorded.Answered?)
    case ProviderMarkSettled => env.delivery.Answered?
  }

  /** A stage run succeeds exactly when the state and the answers are what the stage asks for. */
  lemma StageSucceeds(attemptId: string, a: Attempt, task: Option<Task>, orders: map<string, OrderStatus>, env: StageEnv)
    ensures RunStage(attemptId, a, task, orders, env).ok <==> StageOpen(attemptId, a, task, orders) && StageAnswered(a, env)
  {
    hide ReplayWindows, CreateInvoiceRequest, SettlePaymentRequest, RecordResultRequest, WithBillStatus, Paying, Contained;
    hide Billing.Invoice;
  }

  /** At the payment stage, then, a run needs an invoice; without one it calls nobody and changes nothing. */
  lemma NoInvoiceNoRecovery(attemptId: string, a: Attempt, task: Option<Task>, orders: map<string, OrderStatus>, env: StageEnv)
    requires a.stage == SettlePayment
    ensures var run := RunStage(attemptId, a, task, orders, env);
            && (run.ok <==>
                  a.paymentId.Some? || (a.invoiceId.Some? && task.Some? && !env.blocked && env.answer.Confirmed?))
            && (a.paymentId.None? && a.invoiceId.None? ==> run.attempt == a && run.calls == [])
  {
    hide ReplayWindows, SettlePaymentRequest, WithBillStatus, Paying, Contained;
  }

  // ---- When all the stages that are left can succeed ----

  predicate OrderReady(a: Attempt, orders: map<string, OrderStatus>) {
    if a.stage == ProviderMarkSettling then Is(orders, a.sellOrderId, {Locked, Settling})
    else Is(orders, a.sellOrderId, {Settling, OrderStatus.Settled})
  }

  predicate TaskReady(a: Attempt, task: Option<Task>) {
    a.stage == ProviderMarkSettled || a.recorded || task.Some?
  }

  predicate InvoiceReady(attemptId: string, a: Attempt, task: Option<Task>) {
    match a.stage
    case ProviderMarkSettling => a.invoiceId.Some? || (task.Some? && Invoiceable(attemptId, a, task.value))
    case CreateInvoice => a.invoiceId.Some? || (task.Some? && Invoiceable(attemptId, a, task.value))
    case SettlePayment => a.paymentId.Some? || a.invoiceId.Some?
    case RecordResult => true
    case ProviderMarkSettled => true
  }

  /** Nothing but answers stands between the attempt and its commit. */
  predicate Finishable(attemptId: string, a: Attempt, task: Option<Task>, orders: map<string, OrderStatus>) {
    OrderReady(a, orders) && TaskReady(a, task) && InvoiceReady(attemptId, a, task)
  }

  predicate Willing(env: StageEnv) {
    env.delivery.Answered? && !env.blocked && env.answer.Confirmed? && env.recorded.Answered?
  }

  /** With willing answers a finishable attempt moves on and stays finishable. */
  lemma WillingStep(attemptId: string, a: Attempt, task: Option<Task>, orders: map<string, OrderStatus>, env: StageEnv)
    requires AttemptOk(a) && Recoverable(a.status) && Finishable(attemptId, a, task, orders) && Willing(env)
    ensures var run := RunStage(attemptId, a, task, orders, env);
            run.ok && (a.stage != ProviderMarkSettled ==> Finishable(attemptId, AfterRun(run), run.task, run.orders))
  {
    hide ReplayWindows, CreateInvoiceRequest, SettlePaymentRequest, RecordResultRequest, WithBillStatus, Paying, Contained;
    hide Billing.Invoice;
  }

  lemma HopelessMarkSettling(attemptId: string, a: Attempt, task: Option<Task>, orders: map<string, OrderStatus>, env: StageEnv)
    requires a.stage == ProviderMarkSettling && !Finishable(attemptId, a, task, orders)
    ensures var run := RunStage(attemptId, a, task, orders, env);
            run.attempt.status == a.status && !Finishable(attemptId, run.attempt, run.task, run.orders)
  {
    hide ReplayWindows, CreateInvoiceRequest, Contained;
  }

  lemma HopelessMarkSettled(attemptId: string, a: Attempt, task: Option<Task>, orders: map<string, OrderStatus>, env: StageEnv)
    requires a.stage == ProviderMarkSettled && !Finishable(attemptId, a, task, orders)
    ensures var run := RunStage(attemptId, a, task, orders, env);
            run.attempt.status == a.status && !Finishable(attemptId, run.attempt, run.task, run.orders)
  {
    hide Invoiceable, Contained;
  }

  lemma HopelessInvoice(attemptId: string, a: Attempt, task: Option<Task>, orders: map<string, OrderStatus>, env: StageEnv)
    requires a.stage == CreateInvoice && !Finishable(attemptId, a, task, orders)
    ensures var run := RunStage(attemptId, a, task, orders, env);
            run.attempt.status == a.status && !Finishable(attemptId, run.attempt, run.task, run.orders)
  {
    hide ReplayWindows, CreateInvoiceRequest, WithBillStatus, Contained, Billing.Invoice;
  }

  lemma HopelessPayment(attemptId: string, a: Attempt, task: Option<Task>, orders: map<string, OrderStatus>, env: StageEnv)
    requires a.stage == SettlePayment && !Finishable(attemptId, a, task, orders)
    ensures var run := RunStage(attemptId, a, task, orders, env);
            run.attempt.status == a.status && !Finishable(attemptId, run.attempt, run.task, run.orders)
  {
    hide ReplayWindows, SettlePaymentRequest, WithBillStatus, Contained, Paying, Invoiceable;
  }

  lemma HopelessRecord(attemptId: string, a: Attempt, task: Option<Task>, orders: map<string, OrderStatus>, env: StageEnv)
    requires a.stage == RecordResult && !Finishable(attemptId, a, task, orders)
    ensures var run := RunStage(attemptId, a, task, orders, env);
            run.attempt.status == a.status && !Finishable(attemptId, run.attempt, run.task, run.orders)
  {
    hide ReplayWindows, RecordResultRequest, WithBillStatus, Contained, Invoiceable;
  }

  /** One that is not finishable never becomes so by a run, whatever the answers, and is not committed by it. */
  lemma HopelessStep(attemptId: string, a: Attempt, task: Option<Task>, orders: map<string, OrderStatus>, env: StageEnv)
    requires Recoverable(a.status) && !Finishable(attemptId, a, task, orders)
    ensures var run := RunStage(attemptId, a, task, orders, env);
            AfterRun(run).status != Committed && !Finishable(attemptId, AfterRun(run), run.task, run.orders)
  {
    hide Finishable, RunStage, Contained;
    match a.stage {
      case ProviderMarkSettling => HopelessMarkSettling(attemptId, a, task, orders, env);
      case CreateInvoice => HopelessInvoice(attemptId, a, task, orders, env);
      case SettlePayment => HopelessPayment(attemptId, a, task, orders, env);
      case RecordResult => HopelessRecord(attemptId, a, task, orders, env);
      case ProviderMarkSettled => HopelessMarkSettled(attemptId, a, task, orders, env);
    }
    CountingChangesNothing(attemptId, RunStage(attemptId, a, task, orders, env));
  }

  lemma CountingChangesNothing(attemptId: string, run: StageRun)
    ensures Finishable(attemptId, AfterRun(run), run.task, run.orders) <==>
              Finishable(attemptId, run.attempt, run.task, run.orders)
    ensures Recoverable(run.attempt.status) ==> AfterRun(run).status != Committed
  {
    hide ReplayWindows, CreateInvoiceRequest;
  }

  // ---- When recovery alone commits ----

  predicate CanFinish(w: World, id: string)
    requires id in w.attempts
  {
    Finishable(id, w.attempts[id], TaskOf(w, w.attempts[id]), w.orders)
  }

  /** Runs enough are left for the stages that are left. */
  predicate InTime(a: Attempt) {
    a.retries + 5 - StageIndex(a.stage) <= MAX_RECOVERY_RETRIES
  }

  /** What decides, before recovery has done anything, whether it can commit the attempt. */
  predicate CanCommit(w: World, id: string)
    requires id in w.attempts
  {
    var a := w.attempts[id];
    a.status == Committed || (Recoverable(a.status) && InTime(a) && CanFinish(w, id))
  }

  /** Nothing happens but recovery's visits to the attempt. */
  predicate Alone(ticks: seq<Tick>) {
    forall i :: 0 <= i < |ticks| ==> ticks[i].others == []
  }

  predicate CommittedAfter(w: World, id: string, start: nat, ticks: seq<Tick>) {
    var v := Ticks(w, id, start, ticks);
    id in v.attempts && v.attempts[id].status == Committed
  }

  lemma VisitedState(w: World, id: string, now: nat, env: StageEnv)
    requires Resumes(w, id, now)
    ensures var run := Resumed(w, id, env);
            var v := Recovered(w, id, now, env);
            && id in v.attempts && v.attempts[id] == AfterRun(run)
            && TaskOf(v, v.attempts[id]) == run.task && v.orders == run.orders
  {
    hide RunStage, BackoffDelay, KeepsSettled;
    var a := w.attempts[id];
    var run := Resumed(w, id, env);
    assert Contained(a, TaskOf(w, a), w.orders, run);
  }

  lemma AloneTick(w: World, id: string, start: nat, ticks: seq<Tick>)
    requires Alone(ticks) && ticks != []
    ensures BeforeTick(w, id, start, ticks) == Ticks(w, id, start, ticks[..|ticks| - 1])
    ensures Alone(ticks[..|ticks| - 1])
  {
    hide Ticks, Next;
  }

  /** Not committed, and not to be. */
  predicate Hopeless(w: World, id: string) {
    id in w.attempts && w.attempts[id].status != Committed && (Recoverable(w.attempts[id].status) ==> !CanFinish(w, id))
  }

  lemma HopelessVisit(w: World, id: string, now: nat, env: StageEnv)
    requires Hopeless(w, id)
    ensures Hopeless(Recovered(w, id, now, env), id)
  {
    hide Finishable;
    if Resumes(w, id, now) {
      var a := w.attempts[id];
      VisitedState(w, id, now, env);
      HopelessStep(id, a, TaskOf(w, a), w.orders, env);
      hide RunStage, AfterRun, TaskOf, Recovered;
    } else {
      hide RunStage, BackoffDelay;
    }
  }

  lemma {:induction false} StaysHopeless(w: World, id: string, start: nat, ticks: seq<Tick>)
    requires Hopeless(w, id) && Alone(ticks)
    ensures Hopeless(Ticks(w, id, start, ticks), id)
  {
    hide Hopeless, Recovered, BeforeTick;
    if ticks != [] {
      var n := |ticks| - 1;
      AloneTick(w, id, start, ticks);
      StaysHopeless(w, id, start, ticks[..n]);
      HopelessVisit(BeforeTick(w, id, start, ticks), id, start + POLL_INTERVAL * n, ticks[n].env);
    }
  }

  /** Not given up, finishable as long as it is recovery's to resume. */
  ghost predicate Hopeful(w: World, id: string) {
    Safe(w) && Tracked(w, id) && (Recoverable(w.attempts[id].status) ==> CanFinish(w, id))
  }

  lemma HopefulResume(w: World, id: string, now: nat, env: StageEnv)
    requires id in w.attempts && AttemptOk(w.attempts[id]) && CanFinish(w, id) && Willing(env) && Resumes(w, id, now)
    ensures var v := Recovered(w, id, now, env);
            && RunSucceeds(w, id, env) && id in v.attempts
            && (Recoverable(v.attempts[id].status) ==> CanFinish(v, id))
  {
    hide RunStage, AfterRun, TaskOf, Recovered, StageIndex, Finishable, AttemptOk;
    var a := w.attempts[id];
    WillingStep(id, a, TaskOf(w, a), w.orders, env);
    VisitedState(w, id, now, env);
    RunMovesOneStage(id, a, TaskOf(w, a), w.orders, env);
  }

  lemma NotResumed(w: World, id: string, now: nat, env: StageEnv)
    requires id in w.attempts && (Recoverable(w.attempts[id].status) ==> CanFinish(w, id)) && !Resumes(w, id, now)
    ensures var v := Recovered(w, id, now, env);
            id in v.attempts && (Recoverable(v.attempts[id].status) ==> CanFinish(v, id))
  {
    hide Finishable, Resumed, BackoffDelay;
  }

  lemma HopefulVisit(w: World, id: string, now: nat, env: StageEnv)
    requires Hopeful(w, id) && Willing(env)
    ensures Hopeful(Recovered(w, id, now, env), id)
    ensures Resumes(w, id, now) ==> RunSucceeds(w, id, env)
  {
    assert AttemptOk(w.attempts[id]);
    hide Safe, AttemptOk, TrackOf, Visited, CanFinish, Recovered, Resumed;
    RecoveredSafe(w, id, now, env);
    VisitRefines(w, id, now, env);
    if Resumes(w, id, now) {
      HopefulResume(w, id, now, env);
    } else {
      NotResumed(w, id, now, env);
    }
  }

  lemma {:induction false} StaysHopeful(w: World, id: string, start: nat, ticks: seq<Tick>)
    requires Hopeful(w, id) && Alone(ticks) && forall i :: 0 <= i < |ticks| ==> Willing(ticks[i].env)
    ensures Hopeful(Ticks(w, id, start, ticks), id)
    ensures Successes(Results(w, id, start, ticks)) == |Results(w, id, start, ticks)|
  {
    hide Hopeful, Recovered, BeforeTick, Ticks, Results, Resumes, RunSucceeds, Willing;
    TicksStep(w, id, start, ticks);
    if ticks != [] {
      var n := |ticks| - 1;
      var before := BeforeTick(w, id, start, ticks);
      AloneTick(w, id, start, ticks);
      StaysHopeful(w, id, start, ticks[..n]);
      HopefulVisit(before, id, start + POLL_INTERVAL * n, ticks[n].env);
      OneMoreResult(Results(w, id, start, ticks[..n]), true);
    }
  }

  lemma {:induction false} SuccessesAmong(results: seq<bool>)
    ensures Successes(results) <= |results|
  {
    if results != [] {
      SuccessesAmong(results[..|results| - 1]);
    }
  }

  const WILLING := StageEnv(Answered, false, Confirmed("id"), Answered)

  lemma AloneUndisturbed(ticks: seq<Tick>, id: string)
    requires Alone(ticks)
    ensures Undisturbed(ticks, id)
  {
  }

  lemma NoTicks(w: World, id: string, start: nat)
    ensures Ticks(w, id, start, []) == w
  {
  }

  /** With willing answers, recovery commits an attempt that can be committed. */
  lemma WillingCommits(w: World, id: string, start: nat) returns (ticks: seq<Tick>)
    requires Safe(w) && w.mode == Auto && id in w.attempts && Until(w, id) <= start && CanCommit(w, id)
    ensures Alone(ticks) && CommittedAfter(w, id, start, ticks)
  {
    hide CanFinish, Safe, Until, Ticks, Results, Successes, TimeLeft, Undisturbed, StageIndex;
    var a := w.attempts[id];
    if a.status == Committed {
      ticks := [];
      NoTicks(w, id, start);
    } else {
      var n := TimeLeft(a.retries) + 1;
      ticks := seq(n, i => Tick([], WILLING));
      StaysHopeful(w, id, start, ticks);
      AloneUndisturbed(ticks, id);
      RecoveryDecides(w, id, start, ticks);
      TicksOnSchedule(w, id, start, ticks);
    }
  }

  /** Recovery commits no attempt that has too few runs left. */
  lemma TooLate(w: World, id: string, start: nat, ticks: seq<Tick>)
    requires w.mode == Auto && id in w.attempts && Until(w, id) <= start
    requires Recoverable(w.attempts[id].status) && !InTime(w.attempts[id]) && Alone(ticks)
    ensures !CommittedAfter(w, id, start, ticks)
  {
    hide Ticks, Results, Successes, Undisturbed, Until;
    AloneUndisturbed(ticks, id);
    TicksOnSchedule(w, id, start, ticks);
    SuccessesAmong(Results(w, id, start, ticks));
  }

  /**
   * In auto mode recovery alone can bring an attempt to its commit exactly when `CanCommit` holds before it starts: the
   * attempt is recovery's to resume, has runs enough for its stages, and each stage will find what it asks for.
   */
  lemma CommitsAlone(w: World, id: string, start: nat)
    requires Safe(w) && w.mode == Auto && id in w.attempts && Until(w, id) <= start
    ensures (exists ticks :: Alone(ticks) && CommittedAfter(w, id, start, ticks)) <==> CanCommit(w, id)
  {
    hide Safe, Until, CommittedAfter, Alone, CanFinish, InTime;
    if CanCommit(w, id) {
      var ticks := WillingCommits(w, id, start);
    } else {
      forall ticks | Alone(ticks) ensures !CommittedAfter(w, id, start, ticks) {
        NeverCommits(w, id, start, ticks);
      }
    }
  }

  lemma NeverCommits(w: World, id: string, start: nat, ticks: seq<Tick>)
    requires w.mode == Auto && id in w.attempts && Until(w, id) <= start && !CanCommit(w, id) && Alone(ticks)
    ensures !CommittedAfter(w, id, start, ticks)
  {
    hide Until, CanFinish, InTime, Ticks, Alone;
    if Recoverable(w.attempts[id].status) && !InTime(w.attempts[id]) {
      TooLate(w, id, start, ticks);
    } else {
      StaysHopeless(w, id, start, ticks);
    }
  }
}
