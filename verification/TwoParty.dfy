/** Agreement between the two sides: what the agent has committed, the provider has settled. */
module TwoParty {
  import opened Wrappers
  import opened Market
  import opened Orders
  import opened Settlement
  import opened Agent
  import opened Safety

  /** The provider has settled the order, unless its operator cancelled or expired it by hand. */
  predicate Honoured(w: World, orderId: string) {
    IsSettled(w.orders, orderId) || orderId in w.overridden
  }

  /** Every attempt whose last provider call succeeded has its order settled at the provider. */
  ghost predicate Agreed(w: World) {
    forall id :: id in w.attempts && w.attempts[id].settledDone ==> Honoured(w, w.attempts[id].sellOrderId)
  }

  /** Orders stay as settled as they were, and no more is forgiven. */
  predicate OrdersKept(w: World, v: World) {
    KeepsSettled(w.orders, v.orders) && v.overridden == w.overridden
  }

  /** Marks are the same, or newly made with the order settled. */
  ghost predicate MarksKept(w: World, v: World) {
    forall id :: id in v.attempts && v.attempts[id].settledDone ==>
      || (id in w.attempts && w.attempts[id].settledDone && w.attempts[id].sellOrderId == v.attempts[id].sellOrderId)
      || IsSettled(v.orders, v.attempts[id].sellOrderId)
  }

  lemma FrameAgrees(w: World, v: World)
    requires Agreed(w) && OrdersKept(w, v) && MarksKept(w, v)
    ensures Agreed(v)
  {
  }

  lemma SameMarks(w: World, v: World)
    requires v.attempts == w.attempts
    ensures MarksKept(w, v)
  {
  }

  lemma OneMarked(w: World, v: World, id: string, a: Attempt)
    requires v.attempts == w.attempts[id := a]
    requires a.settledDone ==>
               || (id in w.attempts && w.attempts[id].settledDone && w.attempts[id].sellOrderId == a.sellOrderId)
               || IsSettled(v.orders, a.sellOrderId)
    ensures MarksKept(w, v)
  {
    hide IsSettled;
  }

  lemma PassDoneAgrees(w: World, taskId: string, attemptId: string, env: SettleEnv)
    requires Agreed(w)
    ensures Agreed(PassDone(w, taskId, attemptId, env))
  {
    hide Agreed, SettleScene, KeepsSettled, IsSettled, MarksKept;
    var v := PassDone(w, taskId, attemptId, env);
    if Settleable(w, taskId) && attemptId !in w.attempts {
      var s := PassScene(w, taskId, attemptId, env);
      OneMarked(w, v, attemptId, s.attempt);
      FrameAgrees(w, v);
    }
  }

  lemma PolledAgrees(w: World, taskId: string, report: PollReport, attemptId: string, env: SettleEnv)
    requires Agreed(w)
    ensures Agreed(Polled(w, taskId, report, attemptId, env))
  {
    hide Agreed, PassDone, Admitted, Admits, MarksKept, IsSettled;
    if taskId in w.tasks {
      var v := w.(tasks := w.tasks[taskId := Admitted(w.tasks[taskId], report)]);
      SameMarks(w, v);
      FrameAgrees(w, v);
      PassDoneAgrees(v, taskId, attemptId, env);
    }
  }

  lemma RecoveredAgrees(w: World, attemptId: string, now: nat, env: StageEnv)
    requires Agreed(w)
    ensures Agreed(Recovered(w, attemptId, now, env))
  {
    hide Agreed, RunStage, KeepsSettled, IsSettled, MarksKept;
    var v := Recovered(w, attemptId, now, env);
    if Resumes(w, attemptId, now) {
      var run := Resumed(w, attemptId, env);
      assert Contained(w.attempts[attemptId], TaskOf(w, w.attempts[attemptId]), w.orders, run);
      OneMarked(w, v, attemptId, AfterRun(run));
      FrameAgrees(w, v);
    } else if GivesUp(w, attemptId, now) {
      OrdersReflexive(w.orders);
      OneMarked(w, v, attemptId, v.attempts[attemptId]);
      FrameAgrees(w, v);
    }
  }

  lemma OrdersReflexive(orders: map<string, OrderStatus>)
    ensures KeepsSettled(orders, orders)
  {
  }

  lemma RelabelledMarks(w: World, v: World)
    requires v.attempts == UnstuckAll(w.attempts) || v.attempts == InterruptedAll(w.attempts)
    ensures MarksKept(w, v)
  {
  }

  lemma OperatorAgrees(w: World, attemptId: string)
    requires Agreed(w)
    ensures Agreed(OperatorRetried(w, attemptId)) && Agreed(MarkedFinal(w, attemptId))
  {
    hide Agreed, IsSettled, MarksKept, KeepsSettled;
    OrdersReflexive(w.orders);
    if attemptId in w.attempts && OperatorMayAct(w.attempts[attemptId]) {
      var v, u := OperatorRetried(w, attemptId), MarkedFinal(w, attemptId);
      OneMarked(w, v, attemptId, v.attempts[attemptId]);
      FrameAgrees(w, v);
      OneMarked(w, u, attemptId, u.attempts[attemptId]);
      FrameAgrees(w, u);
    }
  }

  lemma ActionTakenAgrees(w: World, d: Dispute, action: DisputeAction)
    requires Agreed(w)
    ensures Agreed(ActionTaken(w, d, action))
  {
    hide Agreed, IsSettled, MarksKept, KeepsSettled, RolledBackTasks, PenalizedTasks, RefundedTasks;
    OrdersReflexive(w.orders);
    var v := ActionTaken(w, d, action);
    if d.attemptId.Some? && d.attemptId.value in w.attempts && v.attempts != w.attempts {
      OneMarked(w, v, d.attemptId.value, v.attempts[d.attemptId.value]);
    } else {
      SameMarks(w, v);
    }
    FrameAgrees(w, v);
  }

  /** A handler call by anybody: only the operator's cancel and expire unsettle an order, and both are remembered. */
  lemma ProviderAgrees(w: World, action: Action, orderId: string)
    requires Agreed(w)
    ensures Agreed(ProviderHandled(w, action, orderId))
  {
    forall o | Honoured(w, o) ensures Honoured(ProviderHandled(w, action, orderId), o) {
    }
    hide Agreed, Honoured, ProviderHandled;
    HonouredAgrees(w, ProviderHandled(w, action, orderId));
  }

  lemma HonouredAgrees(w: World, v: World)
    requires Agreed(w) && v.attempts == w.attempts && forall o :: Honoured(w, o) ==> Honoured(v, o)
    ensures Agreed(v)
  {
    hide Honoured;
  }

  /** The steps that keep attempts as they are and unsettle no order. */
  predicate Harmless(step: Step) {
    LeavesAttempts(step) && !step.Provider?
  }

  lemma HarmlessKeepsOrders(w: World, step: Step)
    requires Harmless(step)
    ensures OrdersKept(w, Next(w, step))
  {
    hide KeepsSettled, OnlyRebinds, WellKeyed, MatchIdOf;
    hide TaskCleaned, MatchReleased, MatchRetried, MatchRejected, AcceptHandled, OrderAdded, Polled, Recovered, StuckDetected;
    hide ModeSwitched, OperatorRetried, MarkedFinal, DisputeActed, Reaped, ProviderHandled;
    OrdersReflexive(w.orders);
  }

  lemma HarmlessAgrees(w: World, step: Step)
    requires Agreed(w) && Harmless(step)
    ensures Agreed(Next(w, step))
  {
    hide Agreed, MarksKept, OrdersKept, Next;
    AttemptsLeft(w, step);
    HarmlessKeepsOrders(w, step);
    SameMarks(w, Next(w, step));
    FrameAgrees(w, Next(w, step));
  }

  lemma StuckAgrees(w: World)
    requires Agreed(w)
    ensures Agreed(StuckDetected(w))
  {
    hide Agreed, MarksKept, UnstuckAll;
    RelabelledMarks(w, StuckDetected(w));
    FrameAgrees(w, StuckDetected(w));
  }

  lemma NextAgrees(w: World, step: Step)
    requires Agreed(w)
    ensures Agreed(Next(w, step))
  {
    hide Agreed, OnlyRebinds, WellKeyed, KeepsSettled, Polled, Recovered, ActionTaken, AllowedActions, ModeSwitched;
    hide OperatorRetried, MarkedFinal, Reaped, ProviderHandled, StuckDetected;
    if Harmless(step) {
      hide Next;
      HarmlessAgrees(w, step);
    } else {
      match step
      case Poll(taskId, report, attemptId, env) => PolledAgrees(w, taskId, report, attemptId, env);
      case Recover(attemptId, now, env) => RecoveredAgrees(w, attemptId, now, env);
      case ActOnDispute(disputeId, action) =>
        if disputeId in w.disputes {
          ActionTakenAgrees(w, w.disputes[disputeId], action);
        }
      case OperatorRetry(attemptId) => OperatorAgrees(w, attemptId);
      case OperatorMarkFinal(attemptId) => OperatorAgrees(w, attemptId);
      case Provider(action, orderId) => ProviderAgrees(w, action, orderId);
      case DetectStuck => StuckAgrees(w);
      case SwitchMode(mode, net) => ModeSwitchedAgrees(w, mode, net);
      case Reap(env) => ReapedAgrees(w, env);
      case _ =>
    }
  }

  lemma ModeSwitchedAgrees(w: World, mode: Mode, net: Deliveries)
    requires Agreed(w)
    ensures Agreed(ModeSwitched(w, mode, net))
  {
    hide Agreed, MarksKept, KeepsSettled, InterruptedAll, AbandonedAll, MatchesReleased, InFlight;
    var v := ModeSwitched(w, mode, net);
    if w.mode != mode {
      RelabelledMarks(w, v);
      FrameAgrees(w, v);
    }
  }

  lemma ReapedAgrees(w: World, env: ReaperEnv)
    requires Agreed(w)
    ensures Agreed(Reaped(w, env))
  {
    hide Agreed, MarksKept, KeepsSettled, UnstuckAll, MatchesReleased, LocksReaped, StoppedMatches, OrphanMatches, TaskMatches;
    RelabelledMarks(w, Reaped(w, env));
    FrameAgrees(w, Reaped(w, env));
  }

  /**
   * Over every run, with any call carried out and its answer lost: the sell order of a committed attempt is settled at
   * the provider, unless the provider's own operator cancelled or expired it.
   */
  lemma {:induction false} CommittedIsSettled(w: World, steps: seq<Step>, attemptId: string)
    requires Initial(w)
    requires attemptId in Run(w, steps).attempts && Run(w, steps).attempts[attemptId].status == Committed
    ensures Honoured(Run(w, steps), Run(w, steps).attempts[attemptId].sellOrderId)
  {
    hide Run, Initial, Honoured;
    RunAgrees(w, steps);
    RunIsSafe(w, steps);
    assert AttemptOk(Run(w, steps).attempts[attemptId]);
  }

  lemma {:induction false} RunAgrees(w: World, steps: seq<Step>)
    requires Initial(w)
    ensures Agreed(Run(w, steps))
  {
    hide Next, Initial, Agreed;
    if steps == [] {
      InitialAgrees(w);
    } else {
      RunAgrees(w, steps[..|steps| - 1]);
      NextAgrees(Run(w, steps[..|steps| - 1]), steps[|steps| - 1]);
    }
  }

  lemma InitialAgrees(w: World)
    requires Initial(w)
    ensures Agreed(w)
  {
  }

  // ---- One order, one commit? ----

  /** The attempt has seen its last provider call succeed on the order. */
  predicate HoldsMark(w: World, id: string, orderId: string) {
    id in w.attempts && w.attempts[id].settledDone && w.attempts[id].sellOrderId == orderId
  }

  /** Whoever holds a mark held it before. */
  ghost predicate MarksNone(w: World, v: World) {
    forall id, orderId :: HoldsMark(v, id, orderId) ==> HoldsMark(w, id, orderId)
  }

  lemma RelabelledMarksNone(w: World, v: World)
    requires v.attempts in [w.attempts, UnstuckAll(w.attempts), InterruptedAll(w.attempts)]
    ensures MarksNone(w, v)
  {
  }

  lemma OneMarksNone(w: World, v: World, id: string, a: Attempt)
    requires id in w.attempts && v.attempts == w.attempts[id := a]
    requires a.settledDone == w.attempts[id].settledDone && a.sellOrderId == w.attempts[id].sellOrderId
    ensures MarksNone(w, v)
  {
  }

  lemma OverrideMarksNone(w: World, attemptId: Option<string>, status: AttemptStatus, restart: bool)
    ensures MarksNone(w, WithAttempt(w, attemptId, status, restart))
  {
    hide MarksNone, UnstuckAll, InterruptedAll;
    var v := WithAttempt(w, attemptId, status, restart);
    if attemptId.None? || attemptId.value !in w.attempts {
      RelabelledMarksNone(w, v);
    } else {
      OneMarksNone(w, v, attemptId.value, v.attempts[attemptId.value]);
    }
  }

  lemma OperatorMarksNone(w: World, id: string)
    ensures MarksNone(w, OperatorRetried(w, id)) && MarksNone(w, MarkedFinal(w, id))
  {
    hide MarksNone, UnstuckAll, InterruptedAll;
    if id in w.attempts && OperatorMayAct(w.attempts[id]) {
      OneMarksNone(w, OperatorRetried(w, id), id, OperatorRetried(w, id).attempts[id]);
      OneMarksNone(w, MarkedFinal(w, id), id, MarkedFinal(w, id).attempts[id]);
    } else {
      RelabelledMarksNone(w, w);
    }
  }

  lemma SameAttemptsMarkNone(w: World, u: World, v: World)
    requires MarksNone(w, u) && v.attempts == u.attempts
    ensures MarksNone(w, v)
  {
    assert forall id, orderId :: HoldsMark(v, id, orderId) <==> HoldsMark(u, id, orderId);
  }

  lemma ActionMarksNone(w: World, d: Dispute, action: DisputeAction)
    ensures MarksNone(w, ActionTaken(w, d, action))
  {
    hide MarksNone, WithAttempt, RolledBackTasks, PenalizedTasks, RefundedTasks, UnstuckAll, InterruptedAll;
    RelabelledMarksNone(w, w);
    OverrideMarksNone(w, d.attemptId, InProgress, true);
    OverrideMarksNone(w, d.attemptId, FailedFinal, false);
    SameAttemptsMarkNone(w, WithAttempt(w, d.attemptId, FailedFinal, false), ActionTaken(w, d, RollbackAction));
    SameAttemptsMarkNone(w, w, ActionTaken(w, d, ApplyPenalty));
    SameAttemptsMarkNone(w, w, ActionTaken(w, d, ReleaseRefund));
  }

  lemma SwitchMarksNone(w: World, mode: Mode, net: Deliveries)
    ensures MarksNone(w, ModeSwitched(w, mode, net))
  {
    hide MarksNone, UnstuckAll, InterruptedAll, AbandonedAll, MatchesReleased, KeepsSettled, OnlyRebinds, WellKeyed, InFlight;
    RelabelledMarksNone(w, ModeSwitched(w, mode, net));
  }

  lemma ReapMarksNone(w: World, env: ReaperEnv)
    ensures MarksNone(w, Reaped(w, env))
  {
    hide MarksNone, UnstuckAll, InterruptedAll, MatchesReleased, LocksReaped, StoppedMatches, OrphanMatches, TaskMatches;
    hide KeepsSettled, OnlyRebinds, WellKeyed;
    RelabelledMarksNone(w, Reaped(w, env));
  }

  lemma OthersMarkNone(w: World, step: Step)
    requires Actor(step) == None
    ensures MarksNone(w, Next(w, step))
  {
    hide MarksNone, UnstuckAll, InterruptedAll, ActionTaken, AllowedActions, ModeSwitched, OperatorRetried, MarkedFinal, Reaped;
    hide KeepsSettled, OnlyRebinds, WellKeyed;
    if LeavesAttempts(step) {
      hide Next;
      AttemptsLeft(w, step);
      RelabelledMarksNone(w, Next(w, step));
    } else {
      match step
      case ActOnDispute(disputeId, action) =>
        if disputeId in w.disputes {
          ActionMarksNone(w, w.disputes[disputeId], action);
        }
        RelabelledMarksNone(w, w);
      case OperatorRetry(attemptId) => OperatorMarksNone(w, attemptId);
      case OperatorMarkFinal(attemptId) => OperatorMarksNone(w, attemptId);
      case SwitchMode(mode, net) => SwitchMarksNone(w, mode, net);
      case Reap(env) => ReapMarksNone(w, env);
      case DetectStuck => RelabelledMarksNone(w, Next(w, step));
    }
  }

  lemma PollMarksItsOwn(w: World, taskId: string, report: PollReport, attemptId: string, env: SettleEnv, id: string, orderId: string)
    requires HoldsMark(Polled(w, taskId, report, attemptId, env), id, orderId) && id != attemptId
    ensures HoldsMark(w, id, orderId)
  {
    hide PassScene, Admitted, Admits;
  }

  lemma VisitMarksItsOwn(w: World, attemptId: string, now: nat, env: StageEnv, id: string, orderId: string)
    requires HoldsMark(Recovered(w, attemptId, now, env), id, orderId) && id != attemptId
    ensures HoldsMark(w, id, orderId)
  {
    hide RunStage, BackoffDelay;
  }

  /** The attempt that a step works on. */
  function Actor(step: Step): Option<string> {
    match step
    case Poll(_, _, attemptId, _) => Some(attemptId)
    case Recover(attemptId, _, _) => Some(attemptId)
    case _ => None
  }

  lemma OnlyActorMarks(w: World, step: Step, id: string, orderId: string)
    requires HoldsMark(Next(w, step), id, orderId) && Actor(step) != Some(id)
    ensures HoldsMark(w, id, orderId)
  {
    if step.Poll? {
      hide Polled;
      PollMarksItsOwn(w, step.taskId, step.report, step.attemptId, step.env, id, orderId);
    } else if step.Recover? {
      hide Recovered;
      VisitMarksItsOwn(w, step.attemptId, step.now, step.stageEnv, id, orderId);
    } else {
      hide Next, HoldsMark;
      OthersMarkNone(w, step);
    }
  }

  /**
   * In every reachable state, a mark made on an order that was not settled is the only one on it. So a second attempt is
   * committed on an order only by a call the provider answers for an order settled before.
   */
  lemma FirstMark(w0: World, steps: seq<Step>, step: Step, orderId: string, id: string, other: string)
    requires Initial(w0) && !Honoured(Run(w0, steps), orderId)
    requires HoldsMark(Next(Run(w0, steps), step), id, orderId) && HoldsMark(Next(Run(w0, steps), step), other, orderId)
    ensures id == other && Actor(step) == Some(id)
  {
    hide Run, Next, Initial, Honoured;
    var w := Run(w0, steps);
    RunAgrees(w0, steps);
    if Actor(step) != Some(id) {
      OnlyActorMarks(w, step, id, orderId);
    }
    if Actor(step) != Some(other) {
      OnlyActorMarks(w, step, other, orderId);
    }
  }

  /**
   * Once one attempt holds the mark on an order, any other attempt at its last stage for that order is committed by a visit
   * of recovery exactly when the provider's answer arrives.
   */
  lemma SharedOrderCommits(w0: World, steps: seq<Step>, other: string, id: string, now: nat, env: StageEnv)
    requires Initial(w0)
    requires var w := Run(w0, steps);
             && Resumes(w, id, now) && w.attempts[id].stage == ProviderMarkSettled
             && HoldsMark(w, other, w.attempts[id].sellOrderId) && w.attempts[id].sellOrderId !in w.overridden
    ensures var v := Recovered(Run(w0, steps), id, now, env);
            v.attempts[id].status == Committed <==> env.delivery.Answered?
  {
    hide Run, Initial, KeepsSettled, BackoffDelay, Contained;
    RunAgrees(w0, steps);
  }
}
