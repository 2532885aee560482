/** What operators and dispute actions can do: which attempts they end or reopen, which bills they close, what a switch ends. */
module Operators {
  import opened Wrappers
  import opened Market
  import opened Billing
  import opened Orders
  import opened Settlement
  import opened Agent
  import opened Safety
  import Matching
  import Reaper

  // ---- Which actions a dispute allows ----

  predicate OfMoney(kind: DisputeType) {
    kind in {AmountMismatch, PricingDispute}
  }

  /** Disputes about whether what was done can stand. */
  predicate OfRecord(kind: DisputeType) {
    kind in {ReconcileConflict, ReplayInconsistent, ResultRecordConflict, DuplicateSettleContradiction, RecommendedInvalidated}
  }

  /** Disputes about how far the two sides got. */
  predicate OfProgress(kind: DisputeType) {
    kind in {PaymentUnknownDispute, ProviderSettledAgentNotCommitted, AgentCommittedProviderMissing}
  }

  /**
   * Disputes about money move money, disputes about records can be rolled back, and all but those about money can be
   * retried; only an unknown payment can be called final; and every dispute can be closed, handed on or looked up again.
   */
  lemma ActionsByKind(kind: DisputeType, action: DisputeAction)
    ensures action in AllowedActions(kind) <==>
              match action
              case ApplyPenalty => OfMoney(kind)
              case ReleaseRefund => OfMoney(kind)
              case RollbackAction => OfRecord(kind)
              case RetryAction => OfRecord(kind) || OfProgress(kind)
              case MarkFinalAction => kind == PaymentUnknownDispute
              case Resolve => true
              case Escalate => true
              case RefreshRemoteStatus => true
  {
    match kind
    case PaymentUnknownDispute => assert OfProgress(kind);
    case ReconcileConflict => assert OfRecord(kind);
    case ReplayInconsistent => assert OfRecord(kind);
    case ResultRecordConflict => assert OfRecord(kind);
    case AmountMismatch => assert OfMoney(kind);
    case PricingDispute => assert OfMoney(kind);
    case ProviderSettledAgentNotCommitted => assert OfProgress(kind);
    case AgentCommittedProviderMissing => assert OfProgress(kind);
    case DuplicateSettleContradiction => assert OfRecord(kind);
    case RecommendedInvalidated => assert OfRecord(kind);
    case OtherDispute =>
  }

  // ---- Attempts that are over ----

  predicate Over(status: AttemptStatus) {
    status == FailedFinal || status == Committed
  }

  /** The step acts on a dispute over the attempt, with an action that the dispute allows. */
  predicate ActsOn(w: World, step: Step, id: string, action: DisputeAction) {
    && step.ActOnDispute? && step.action == action && step.disputeId in w.disputes
    && w.disputes[step.disputeId].attemptId == Some(id) && action in AllowedActions(w.disputes[step.disputeId].kind)
  }

  /** What takes an attempt that is over out of its status: a retry of a dispute over it, or a dispute that takes back a commit. */
  predicate Reopens(w: World, step: Step, id: string)
    requires id in w.attempts
  {
    || ActsOn(w, step, id, RetryAction)
    || (w.attempts[id].status == Committed && (ActsOn(w, step, id, RollbackAction) || ActsOn(w, step, id, MarkFinalAction)))
  }

  lemma PollLeavesOver(w: World, taskId: string, report: PollReport, attemptId: string, env: SettleEnv, id: string)
    requires id in w.attempts
    ensures var v := Polled(w, taskId, report, attemptId, env);
            id in v.attempts && v.attempts[id] == w.attempts[id]
  {
    hide PassScene, Admitted, Admits;
  }

  lemma RecoveryLeavesOver(w: World, attemptId: string, now: nat, env: StageEnv, id: string)
    requires id in w.attempts && Over(w.attempts[id].status)
    ensures var v := Recovered(w, attemptId, now, env);
            id in v.attempts && v.attempts[id] == w.attempts[id]
  {
    hide Resumed, AfterRun, BackoffDelay;
  }

  lemma ReaperLeavesOver(w: World, env: ReaperEnv, id: string)
    requires id in w.attempts && Over(w.attempts[id].status)
    ensures Reaped(w, env).attempts == UnstuckAll(w.attempts) && UnstuckAll(w.attempts)[id] == w.attempts[id]
  {
    hide MatchesReleased, StoppedMatches, OrphanMatches, TaskMatches, OnlyRebinds, KeepsSettled, WellKeyed;
  }

  lemma Overridden(w: World, attemptId: Option<string>, status: AttemptStatus, restart: bool, id: string)
    requires id in w.attempts
    ensures var v := WithAttempt(w, attemptId, status, restart);
            id in v.attempts && v.attempts[id].status == if attemptId == Some(id) then status else w.attempts[id].status
  {
  }

  /** What an action that the dispute allows does to the status of an attempt. */
  lemma ActionOnAttempt(w: World, d: Dispute, action: DisputeAction, id: string)
    requires id in w.attempts
    ensures var v := ActionTaken(w, d, action);
            && id in v.attempts
            && v.attempts[id].status ==
                 if d.attemptId != Some(id) then w.attempts[id].status
                 else if action == RetryAction then InProgress
                 else if action == RollbackAction || action == MarkFinalAction then FailedFinal
                 else w.attempts[id].status
  {
    Overridden(w, d.attemptId, InProgress, true, id);
    Overridden(w, d.attemptId, FailedFinal, false, id);
    hide WithAttempt, RolledBackTasks, PenalizedTasks, RefundedTasks;
  }

  lemma DisputeOnAttempt(w: World, disputeId: string, action: DisputeAction, id: string)
    requires id in w.attempts && Over(w.attempts[id].status)
    ensures var v := DisputeActed(w, disputeId, action);
            && id in v.attempts
            && (v.attempts[id].status != w.attempts[id].status <==> Reopens(w, ActOnDispute(disputeId, action), id))
  {
    hide AllowedActions, ActionTaken;
    if disputeId in w.disputes {
      ActionOnAttempt(w, w.disputes[disputeId], action, id);
    }
  }

  lemma StuckLeavesOver(w: World, id: string)
    requires id in w.attempts && Over(w.attempts[id].status)
    ensures id in StuckDetected(w).attempts && StuckDetected(w).attempts[id] == w.attempts[id]
  {
  }

  lemma RetryLeavesOver(w: World, attemptId: string, id: string)
    requires id in w.attempts && Over(w.attempts[id].status)
    ensures var v := OperatorRetried(w, attemptId);
            id in v.attempts && v.attempts[id] == w.attempts[id]
  {
    if attemptId in w.attempts && OperatorMayAct(w.attempts[attemptId]) {
      assert attemptId != id;
    }
  }

  lemma FinalLeavesOver(w: World, attemptId: string, id: string)
    requires id in w.attempts && Over(w.attempts[id].status)
    ensures var v := MarkedFinal(w, attemptId);
            id in v.attempts && v.attempts[id] == w.attempts[id]
  {
    if attemptId in w.attempts && OperatorMayAct(w.attempts[attemptId]) {
      assert attemptId != id;
    }
  }

  lemma SwitchLeavesOver(w: World, mode: Mode, net: Deliveries, id: string)
    requires id in w.attempts && Over(w.attempts[id].status)
    ensures var v := ModeSwitched(w, mode, net);
            id in v.attempts && v.attempts[id] == w.attempts[id]
  {
    hide MatchesReleased, InFlight, OnlyRebinds, KeepsSettled, WellKeyed;
  }

  /** An attempt that is over leaves its status at a step exactly when the step is one of those. */
  lemma OnlyDisputesReopen(w: World, step: Step, id: string)
    requires id in w.attempts && Over(w.attempts[id].status)
    ensures id in Next(w, step).attempts
    ensures Next(w, step).attempts[id].status != w.attempts[id].status <==> Reopens(w, step, id)
  {
    hide Next, Polled, Recovered, Reaped, DisputeActed, ModeSwitched, StuckDetected, OperatorRetried, MarkedFinal, AllowedActions;
    if LeavesAttempts(step) {
      AttemptsLeft(w, step);
    } else {
      StepsOfAttempts(w, step);
      match step
      case Poll(taskId, report, attemptId, env) => PollLeavesOver(w, taskId, report, attemptId, env, id);
      case Recover(attemptId, now, env) => RecoveryLeavesOver(w, attemptId, now, env, id);
      case ActOnDispute(disputeId, action) => DisputeOnAttempt(w, disputeId, action, id);
      case SwitchMode(mode, net) => SwitchLeavesOver(w, mode, net, id);
      case Reap(env) => ReaperLeavesOver(w, env, id);
      case DetectStuck => StuckLeavesOver(w, id);
      case OperatorRetry(attemptId) => RetryLeavesOver(w, attemptId, id);
      case OperatorMarkFinal(attemptId) => FinalLeavesOver(w, attemptId, id);
    }
  }

  lemma StepsOfAttempts(w: World, step: Step)
    requires !LeavesAttempts(step)
    ensures Next(w, step) ==
              match step
              case Poll(taskId, report, attemptId, env) => Polled(w, taskId, report, attemptId, env)
              case Recover(attemptId, now, env) => Recovered(w, attemptId, now, env)
              case ActOnDispute(disputeId, action) => DisputeActed(w, disputeId, action)
              case SwitchMode(mode, net) => ModeSwitched(w, mode, net)
              case Reap(env) => Reaped(w, env)
              case DetectStuck => StuckDetected(w)
              case OperatorRetry(attemptId) => OperatorRetried(w, attemptId)
              case OperatorMarkFinal(attemptId) => MarkedFinal(w, attemptId)
              case _ => w
  {
    hide Polled, Recovered, Reaped, DisputeActed, ModeSwitched, StuckDetected, OperatorRetried, MarkedFinal;
  }

  /** So an attempt that is over stays so in any continuation in which no dispute over it reopens it. */
  lemma {:induction false} OverForGood(w: World, steps: seq<Step>, id: string)
    requires id in w.attempts && Over(w.attempts[id].status)
    requires forall k :: 0 <= k < |steps| && id in Run(w, steps[..k]).attempts ==> !Reopens(Run(w, steps[..k]), steps[k], id)
    ensures id in Run(w, steps).attempts && Run(w, steps).attempts[id].status == w.attempts[id].status
  {
    hide Next, Reopens;
    if steps != [] {
      var n := |steps| - 1;
      forall k | 0 <= k < n && id in Run(w, steps[..n][..k]).attempts
        ensures !Reopens(Run(w, steps[..n][..k]), steps[..n][k], id)
      {
        assert steps[..n][..k] == steps[..k];
      }
      OverForGood(w, steps[..n], id);
      OnlyDisputesReopen(Run(w, steps[..n]), steps[n], id);
    }
  }

  // ---- Another try ----

  /**
   * An operator's retry reaches an attempt exactly when it is retryable or its payment is unknown. It starts again at the
   * first stage with the papers it has, and the retry counts: recovery runs it on only if that leaves it a run.
   */
  lemma RetryIsAnotherTry(w: World, id: string, now: nat)
    requires w.mode == Auto && id in w.attempts && now >= Until(w, id)
    ensures var a, v := w.attempts[id], OperatorRetried(w, id);
            && id in v.attempts && v.attempts == w.attempts[id := v.attempts[id]]
            && (v.attempts[id] != a <==> a.status in {RetryableFailed, PaymentUnknown})
            && (v.attempts[id] != a ==>
                  && v.attempts[id].stage == ProviderMarkSettling && v.attempts[id].retries == a.retries + 1
                  && v.attempts[id].invoiceId == a.invoiceId && v.attempts[id].paymentId == a.paymentId
                  && v.attempts[id].status == InProgress
                  && (Resumes(v, id, now) <==> a.retries + 1 < MAX_RECOVERY_RETRIES))
  {
    var a := w.attempts[id];
    if a.status in {RetryableFailed, PaymentUnknown} {
      var v := w.(attempts := w.attempts[id := a.(status := InProgress, stage := ProviderMarkSettling, retries := a.retries + 1)]);
      assert OperatorRetried(w, id) == v;
    } else {
      assert OperatorRetried(w, id) == w;
    }
    hide OperatorRetried;
  }

  /** An operator can call exactly the same attempts final; recovery then leaves them alone. */
  lemma FinalIsLeftAlone(w: World, id: string, now: nat, env: StageEnv)
    requires id in w.attempts
    ensures var a, v := w.attempts[id], MarkedFinal(w, id);
            && id in v.attempts && v.attempts == w.attempts[id := v.attempts[id]]
            && (v.attempts[id] != a <==> a.status in {RetryableFailed, PaymentUnknown})
            && (v.attempts[id] != a ==> v.attempts[id] == a.(status := FailedFinal) && Recovered(v, id, now, env) == v)
  {
    var a, v := w.attempts[id], MarkedFinal(w, id);
    if a.status in {RetryableFailed, PaymentUnknown} {
      assert v == w.(attempts := w.attempts[id := a.(status := FailedFinal)]);
      FinalNotVisited(v, id, now, env);
    } else {
      assert v == w;
    }
    hide MarkedFinal, Recovered;
  }

  lemma FinalNotVisited(w: World, id: string, now: nat, env: StageEnv)
    requires id in w.attempts && w.attempts[id].status == FailedFinal
    ensures Recovered(w, id, now, env) == w
  {
    hide Resumed, AfterRun, BackoffDelay;
  }

  // ---- What dispute actions do to bills ----

  /** The bill refunds fifteen percent of its amount, to within half a millionth, and pays the rest. */
  predicate FifteenPercent(before: Bill, after: Bill) {
    && after == before.(penalty := after.penalty, refund := after.refund, net := after.net, status := Refunded)
    && -0.5 <= (after.refund - 0.15 * before.gross) * MICRO <= 0.5 && after.penalty == after.refund
    && after.net == Round(Max0(before.gross - after.refund))
  }

  /** A refund that was due already stays what it was. */
  predicate RefundKept(before: Bill, after: Bill) {
    after == before.(net := Round(Max0(before.gross - before.refund)), status := Refunded)
  }

  lemma PenaltyIsFifteenPercent(b: Bill)
    ensures FifteenPercent(b, Penalized(b))
    ensures if b.refund > 0.0 then RefundKept(b, Released(b)) else FifteenPercent(b, Released(b))
  {
    hide Round, Max0;
    RoundError(b.gross * BREACH_REFUND);
  }

  /**
   * What acting on a dispute does to a bill, whatever task it is in: disputes about money refund the bills of their trade,
   * rolling back fails those of the attempt, and nothing else changes any bill.
   */
  lemma DisputedBills(w: World, disputeId: string, action: DisputeAction, t: string, i: nat)
    requires disputeId in w.disputes && t in w.tasks && i < |w.tasks[t].bills|
    ensures var v, d := DisputeActed(w, disputeId, action), w.disputes[disputeId];
            && t in v.tasks && |v.tasks[t].bills| == |w.tasks[t].bills|
            && var b, c := w.tasks[t].bills[i], v.tasks[t].bills[i];
               if OfMoney(d.kind) && action == ApplyPenalty && d.tradeId == Some(b.tradeId) then FifteenPercent(b, c)
               else if OfMoney(d.kind) && action == ReleaseRefund && d.tradeId == Some(b.tradeId) then
                 if b.refund > 0.0 then RefundKept(b, c) else FifteenPercent(b, c)
               else if OfRecord(d.kind) && action == RollbackAction && d.attemptId == Some(b.attemptId) then
                 c == b.(status := Failed)
               else c == b
  {
    hide AllowedActions, Penalized, Released, FifteenPercent, RefundKept, OfMoney, OfRecord, OfProgress;
    ActionsByKind(w.disputes[disputeId].kind, action);
    PenaltyIsFifteenPercent(w.tasks[t].bills[i]);
  }

  // ---- Switching the mode ----

  /**
   * Switching to another mode ends what is under way: no match is accepted or settling any more, no accept attempt is
   * unfinished, and the settlement attempts that were at work wait for recovery; everything else stays.
   */
  lemma SwitchEndsWork(w: World, mode: Mode, net: Deliveries)
    requires mode != w.mode
    ensures var v := ModeSwitched(w, mode, net);
            && v.mode == mode && v.bindings.Keys == w.bindings.Keys && v.accepts.Keys == w.accepts.Keys
            && (forall m :: m in w.bindings ==>
                  v.bindings[m].status == if w.bindings[m].status in {Accepted, MatchSettling, MatchFailed} then MatchExpired
                                          else w.bindings[m].status)
            && (forall id :: id in w.accepts ==>
                  v.accepts[id] == if w.accepts[id].status in {AcceptCommitted, Conflict, AcceptFailed} then w.accepts[id]
                                   else w.accepts[id].(status := AcceptFailed))
            && (forall id :: id in w.attempts ==>
                  v.attempts[id] == if w.attempts[id].status in {Started, InProgress}
                                    then w.attempts[id].(status := RetryableFailed) else w.attempts[id])
  {
    hide BuysLeft, SellsLeft, FreedOrders, UnboundTasks, OnlyRebinds, KeepsSettled, WellKeyed;
  }

  /** A task that was bound to its own match, and to one of `ids`, is bound no more; nothing else changes in any task. */
  predicate UnbindsOwn(w: World, v: World, ids: set<string>) {
    && v.tasks.Keys == w.tasks.Keys
    && forall t :: t in w.tasks ==>
         var bound := w.tasks[t].bound;
         v.tasks[t] ==
           if bound.Some? && bound.value in ids && bound.value in w.bindings && w.bindings[bound.value].taskId == t
           then w.tasks[t].(bound := None) else w.tasks[t]
  }

  lemma ReleaseUnbindsOwn(w: World, ids: set<string>, status: MatchStatus, net: Deliveries)
    ensures UnbindsOwn(w, MatchesReleased(w, ids, status, net), ids)
  {
    hide BuysLeft, SellsLeft, FreedOrders, Ended, OnlyRebinds, KeepsSettled, WellKeyed;
  }

  /** A switch unbinds the tasks from the matches it ends. */
  lemma SwitchUnbinds(w: World, mode: Mode, net: Deliveries)
    requires mode != w.mode
    ensures UnbindsOwn(w, ModeSwitched(w, mode, net),
                       set m | m in w.bindings && w.bindings[m].status in {Accepted, MatchSettling, MatchFailed})
  {
    hide MatchesReleased, OnlyRebinds, KeepsSettled, WellKeyed, UnbindsOwn;
    var ids := set m | m in w.bindings && w.bindings[m].status in {Accepted, MatchSettling, MatchFailed};
    assert InFlight(w) == ids;
    ReleaseUnbindsOwn(w, ids, MatchExpired, net);
    SameTasksUnbind(w, MatchesReleased(w, ids, MatchExpired, net), ModeSwitched(w, mode, net), ids);
  }

  lemma SameTasksUnbind(w: World, u: World, v: World, ids: set<string>)
    requires UnbindsOwn(w, u, ids) && v.tasks == u.tasks
    ensures UnbindsOwn(w, v, ids)
  {
  }

  /** Removing a task's bindings expires all its matches, gives back their locks and leaves it unbound; others stay as they are. */
  lemma CleanedTask(w: World, taskId: string, net: Deliveries, m: string)
    requires m in w.bindings
    ensures var v := Next(w, CleanTask(taskId, net));
            && UnbindsOwn(w, v, set n | n in w.bindings && w.bindings[n].taskId == taskId)
            && v.bindings.Keys == w.bindings.Keys
            && v.bindings[m] ==
                 (if w.bindings[m].taskId == taskId then w.bindings[m].(status := MatchExpired) else w.bindings[m])
            && (w.bindings[m].taskId == taskId ==>
                  w.bindings[m].buyOrderId !in v.lockedBuys && w.bindings[m].sellOrderId !in v.lockedSells)
  {
    hide Next, MatchesReleased, UnbindsOwn;
    var ids := set n | n in w.bindings && w.bindings[n].taskId == taskId;
    assert MatchesOf(w, taskId) == ids;
    CleaningReleases(w, taskId, net);
    ReleaseUnbindsOwn(w, ids, MatchExpired, net);
    OthersKeepRecord(w, ids, MatchExpired, net, m);
    if m in ids {
      ReleasedMatch(w, ids, net, m);
    }
  }

  lemma CleaningReleases(w: World, taskId: string, net: Deliveries)
    ensures Next(w, CleanTask(taskId, net)) == MatchesReleased(w, MatchesOf(w, taskId), MatchExpired, net)
  {
    hide MatchesReleased, MatchesOf;
  }

  lemma OthersKeepRecord(w: World, ids: set<string>, status: MatchStatus, net: Deliveries, m: string)
    requires m in w.bindings
    ensures var v := MatchesReleased(w, ids, status, net);
            v.bindings.Keys == w.bindings.Keys && (m !in ids ==> v.bindings[m] == w.bindings[m])
  {
    hide BuysLeft, SellsLeft, FreedOrders, UnboundTasks, OnlyRebinds, KeepsSettled, WellKeyed;
  }

  /** After a tick of the reaper, then, a switch leaves no order locked. */
  lemma SwitchUnlocksAll(w: World, env: ReaperEnv, mode: Mode, net: Deliveries)
    requires mode != w.mode
    ensures var v := ModeSwitched(Reaped(w, env), mode, net);
            v.lockedBuys == {} && v.lockedSells == {}
  {
    hide OnlyRebinds, KeepsSettled, WellKeyed, FreedOrders, UnboundTasks, Ended, Reaped, Reaper.MatchesHaveTasks;
    Reaper.AfterEveryTick(w, env);
    var u := Reaped(w, env);
    forall o | o in u.lockedBuys ensures OfBuy(u.bindings, InFlight(u), o) {
      assert OfBuy(u.bindings, ActiveMatches(u), o);
    }
    forall o | o in u.lockedSells ensures OfSell(u.bindings, InFlight(u), o) {
      assert OfSell(u.bindings, ActiveMatches(u), o);
    }
  }

  // ---- A task that the provider reports stopped ----

  /** The next tick expires all its matches and gives back their locks; the report itself does no more than stop it. */
  lemma StoppedTaskIsReleased(w: World, taskId: string, report: PollReport, attemptId: string, env: SettleEnv, tick: ReaperEnv)
    requires taskId in w.tasks && !report.running
    ensures var u := Polled(w, taskId, report, attemptId, env);
            && u == w.(tasks := w.tasks[taskId := w.tasks[taskId].(running := false)])
            && var v := Reaped(u, tick);
               forall m :: m in w.bindings && w.bindings[m].taskId == taskId ==>
                 && m in v.bindings && v.bindings[m].status == MatchExpired
                 && w.bindings[m].buyOrderId !in v.lockedBuys && w.bindings[m].sellOrderId !in v.lockedSells
  {
    var u := w.(tasks := w.tasks[taskId := w.tasks[taskId].(running := false)]);
    assert Polled(w, taskId, report, attemptId, env) == u;
    forall m | m in w.bindings && w.bindings[m].taskId == taskId
      ensures var v := Reaped(u, tick);
              && m in v.bindings && v.bindings[m].status == MatchExpired
              && w.bindings[m].buyOrderId !in v.lockedBuys && w.bindings[m].sellOrderId !in v.lockedSells
    {
      assert m in StoppedMatches(u);
      StoppedMatchIsOver(u, tick, m);
    }
  }

  lemma StoppedMatchIsOver(w: World, tick: ReaperEnv, m: string)
    requires m in StoppedMatches(w)
    ensures var v := Reaped(w, tick);
            && m in v.bindings && v.bindings[m].status == MatchExpired
            && w.bindings[m].buyOrderId !in v.lockedBuys && w.bindings[m].sellOrderId !in v.lockedSells
  {
    hide OnlyRebinds, KeepsSettled, WellKeyed, FreedOrders, UnboundTasks, Ended, MatchesReleased;
    var cleaned := MatchesReleased(w, StoppedMatches(w), MatchExpired, tick.stopped);
    ReleasedMatch(w, StoppedMatches(w), tick.stopped, m);
    var unstuck := StuckDetected(cleaned);
    StaysExpired(unstuck, OrphanMatches(unstuck), tick.orphans, m);
    var swept := Swept(w, tick);
    StaysExpired(swept, TaskMatches(swept), tick.offline, m);
  }

  lemma ReleasedMatch(w: World, ids: set<string>, net: Deliveries, m: string)
    requires m in ids && m in w.bindings
    ensures var v := MatchesReleased(w, ids, MatchExpired, net);
            && m in v.bindings && v.bindings[m] == w.bindings[m].(status := MatchExpired)
            && w.bindings[m].buyOrderId !in v.lockedBuys && w.bindings[m].sellOrderId !in v.lockedSells
  {
    hide OnlyRebinds, KeepsSettled, WellKeyed, FreedOrders, UnboundTasks;
  }

  lemma StaysExpired(w: World, ids: set<string>, net: Deliveries, m: string)
    requires m in w.bindings && w.bindings[m].status == MatchExpired
    ensures var v := MatchesReleased(w, ids, MatchExpired, net);
            && m in v.bindings && v.bindings[m] == w.bindings[m]
            && v.lockedBuys <= w.lockedBuys && v.lockedSells <= w.lockedSells
  {
    hide OnlyRebinds, KeepsSettled, WellKeyed, FreedOrders, UnboundTasks, OfBuy, OfSell;
  }

  // ---- The four handlers that end a match ----

  predicate EndsMatch(step: Step, request: AcceptRequest) {
    (step.CancelMatch? || step.ExpireMatch? || step.RetryMatch? || step.RejectMatch?) && step.request == request
  }

  function DeliveryIn(step: Step): Delivery
    requires step.CancelMatch? || step.ExpireMatch? || step.RetryMatch? || step.RejectMatch?
  {
    match step
    case CancelMatch(_, delivery) => delivery
    case ExpireMatch(_, delivery) => delivery
    case RetryMatch(_, delivery) => delivery
    case RejectMatch(_, delivery) => delivery
  }

  /** The match's locks are given back, its own task is unbound from it, and its order opened if the call arrives. */
  predicate GivesBack(w: World, v: World, b: Binding, arrives: bool) {
    && v.lockedBuys == w.lockedBuys - {b.buyOrderId} && v.lockedSells == w.lockedSells - {b.sellOrderId}
    && v.tasks.Keys == w.tasks.Keys && v.orders.Keys == w.orders.Keys
    && (forall t :: t in w.tasks ==>
          v.tasks[t] == if t == b.taskId && w.tasks[t].bound == Some(b.matchId) then w.tasks[t].(bound := None) else w.tasks[t])
    && (forall o :: o in w.orders ==>
          v.orders[o] == if o == b.sellOrderId && arrives then Freed(w.orders[o]) else w.orders[o])
  }

  lemma ReleaseGivesBack(w: World, b: Binding, status: MatchStatus, delivery: Delivery)
    ensures GivesBack(w, BindingReleased(w, b, status, delivery), b, !delivery.NotReached?)
  {
    hide WellKeyed, OnlyRebinds, KeepsSettled;
  }

  lemma SameGivesBack(w: World, u: World, v: World, b: Binding, arrives: bool)
    requires GivesBack(w, u, b, arrives) && v == u.(bindings := v.bindings)
    ensures GivesBack(w, v, b, arrives)
  {
  }

  /** What becomes of the record of the match. */
  function RecordAfter(step: Step, b: Binding): Option<Binding> {
    match step
    case CancelMatch(_, _) => Some(b.(status := MatchCancelled))
    case ExpireMatch(_, _) => Some(b.(status := MatchExpired))
    case RejectMatch(_, _) => Some(b.(status := Rejected))
    case _ => None
  }

  /** What the match held is given back, its record is as said, and no other match changes. */
  predicate Concluded(w: World, v: World, matchId: string, arrives: bool, record: Option<Binding>)
    requires matchId in w.bindings
  {
    && GivesBack(w, v, w.bindings[matchId], arrives)
    && v.bindings == if record.Some? then w.bindings[matchId := record.value] else w.bindings - {matchId}
  }

  lemma ReleasedConcludes(w: World, matchId: string, status: MatchStatus, delivery: Delivery)
    requires matchId in w.bindings && w.bindings[matchId].matchId == matchId
    ensures Concluded(w, MatchReleased(w, matchId, status, delivery), matchId, !delivery.NotReached?,
                      Some(w.bindings[matchId].(status := status)))
  {
    hide WellKeyed, OnlyRebinds, KeepsSettled, Call, UnboundFrom, GivesBack;
    ReleaseGivesBack(w, w.bindings[matchId], status, delivery);
  }

  lemma RetriedConcludes(w: World, matchId: string, delivery: Delivery)
    requires matchId in w.bindings && w.bindings[matchId].matchId == matchId
    ensures Concluded(w, MatchRetried(w, matchId, delivery), matchId, !delivery.NotReached?, None)
  {
    hide WellKeyed, OnlyRebinds, KeepsSettled, MatchReleased, GivesBack;
    ReleasedConcludes(w, matchId, MatchExpired, delivery);
    SameGivesBack(w, MatchReleased(w, matchId, MatchExpired, delivery), MatchRetried(w, matchId, delivery), w.bindings[matchId],
                  !delivery.NotReached?);
  }

  lemma StepsOfMatches(w: World, step: Step, request: AcceptRequest)
    requires EndsMatch(step, request)
    ensures var matchId, delivery := MatchIdOf(request), DeliveryIn(step);
            Next(w, step) ==
              match step
              case CancelMatch(_, _) => MatchReleased(w, matchId, MatchCancelled, delivery)
              case ExpireMatch(_, _) => MatchReleased(w, matchId, MatchExpired, delivery)
              case RejectMatch(_, _) => MatchRejected(w, request, delivery)
              case RetryMatch(_, _) => MatchRetried(w, matchId, delivery)
              case _ => w
  {
    hide MatchReleased, MatchRejected, MatchRetried, MatchIdOf;
  }

  /**
   * Cancelling, expiring, retrying and rejecting a known match all give back what it held; the record is cancelled, expired,
   * forgotten or rejected, and no other match changes.
   */
  lemma KnownMatchEnds(w: World, step: Step, request: AcceptRequest)
    requires EndsMatch(step, request) && MatchIdOf(request) in w.bindings && WellKeyed(w.bindings)
    ensures var matchId := MatchIdOf(request);
            Concluded(w, Next(w, step), matchId, !DeliveryIn(step).NotReached?, RecordAfter(step, w.bindings[matchId]))
  {
    hide Next, MatchReleased, MatchRetried, MatchRejected, MatchIdOf, Concluded, OnlyRebinds, KeepsSettled;
    var matchId, delivery := MatchIdOf(request), DeliveryIn(step);
    assert w.bindings[matchId].matchId == matchId;
    StepsOfMatches(w, step, request);
    match step
    case CancelMatch(_, _) => ReleasedConcludes(w, matchId, MatchCancelled, delivery);
    case ExpireMatch(_, _) => ReleasedConcludes(w, matchId, MatchExpired, delivery);
    case RetryMatch(_, _) => RetriedConcludes(w, matchId, delivery);
    case RejectMatch(_, _) =>
      RejectsKnown(w, request, delivery);
      ReleasedConcludes(w, matchId, Rejected, delivery);
  }

  lemma RejectsKnown(w: World, request: AcceptRequest, delivery: Delivery)
    requires MatchIdOf(request) in w.bindings
    ensures MatchRejected(w, request, delivery) == MatchReleased(w, MatchIdOf(request), Rejected, delivery)
  {
    hide MatchReleased, WellKeyed, OnlyRebinds, KeepsSettled;
  }

  /** An unknown match can only be rejected: it is remembered as such, for no task and at no price. The other three do nothing. */
  lemma UnknownMatchEnds(w: World, step: Step, request: AcceptRequest)
    requires EndsMatch(step, request) && MatchIdOf(request) !in w.bindings
    ensures var matchId := MatchIdOf(request);
            Next(w, step) ==
              if step.RejectMatch? then
                w.(bindings := w.bindings[matchId := Binding(matchId, "", request.buyOrderId, request.sellOrderId, 0.0, 0.0, Rejected)])
              else w
  {
    StepsOfMatches(w, step, request);
    hide Next, WellKeyed, OnlyRebinds, KeepsSettled, BindingReleased;
    assert MatchIdOf(request) == Matching.BuildMatchId(request.buyOrderId, request.sellOrderId);
    hide MatchIdOf, Matching.BuildMatchId;
  }

  // ---- The stuck detector ----

  /** It lets operators act on attempts at work that have failed or run four times, and on no others. */
  lemma StuckOpensToOperators(w: World, id: string)
    requires id in w.attempts
    ensures var a, v := w.attempts[id], StuckDetected(w);
            && id in v.attempts
            && (OperatorMayAct(v.attempts[id]) <==>
                  a.status in {RetryableFailed, PaymentUnknown} || (a.status == InProgress && a.retries >= 4))
            && (v.attempts[id] != a ==> v.attempts[id] == a.(status := RetryableFailed))
  {
  }

  // ---- New orders ----

  /** An order added under a new identifier can be locked at once; one under a known identifier changes nothing. */
  lemma AddedOrderCanBeLocked(w: World, orderId: string)
    ensures var v := Next(w, AddOrder(orderId));
            && (orderId in w.orders ==> v == w)
            && (orderId !in w.orders ==>
                  && v.orders.Keys == w.orders.Keys + {orderId} && (forall o :: o in w.orders ==> v.orders[o] == w.orders[o])
                  && v.orders[orderId] == OrderStatus.Open
                  && Call(v.orders, Orders.Lock, orderId, Answered) == (v.orders[orderId := OrderStatus.Locked], true))
  {
    hide KeepsSettled;
  }
}
