/** What only grows: identifiers once written stay, retries never go down, and recovery runs are bounded. */
module Progress {
  import opened Wrappers
  import opened Market
  import opened Settlement
  import opened Agent
  import opened Safety

  /** `b` is a later state of the attempt `a`. */
  predicate LaterAttempt(a: Attempt, b: Attempt) {
    && (a.invoiceId.Some? ==> b.invoiceId == a.invoiceId)
    && (a.paymentId.Some? ==> b.paymentId == a.paymentId)
    && a.retries <= b.retries && SameIdentity(a, b) && b.fate == a.fate
  }

  ghost predicate Later(w: World, v: World) {
    forall id :: id in w.attempts ==> id in v.attempts && LaterAttempt(w.attempts[id], v.attempts[id])
  }

  /** Attempts stay, and stay whose they are and what their windows came to. */
  ghost predicate KeepsIdentities(w: World, v: World) {
    forall id :: id in w.attempts ==> id in v.attempts && SameIdentity(w.attempts[id], v.attempts[id]) && v.attempts[id].fate == w.attempts[id].fate
  }

  lemma LaterKeepsIdentities(w: World, v: World)
    requires Later(w, v)
    ensures KeepsIdentities(w, v)
  {
  }

  lemma LaterTransitive(u: World, v: World, w: World)
    requires Later(u, v) && Later(v, w)
    ensures Later(u, w)
  {
  }

  lemma SameAttemptsLater(w: World, v: World)
    requires v.attempts == w.attempts
    ensures Later(w, v)
  {
  }

  lemma OneLater(w: World, v: World, id: string, a: Attempt)
    requires v.attempts == w.attempts[id := a]
    requires id in w.attempts ==> LaterAttempt(w.attempts[id], a)
    ensures Later(w, v)
  {
    hide LaterAttempt;
    assert forall b: Attempt :: LaterAttempt(b, b) by {
      LaterReflexive();
    }
  }

  lemma LaterReflexive()
    ensures forall b: Attempt :: LaterAttempt(b, b)
  {
  }

  lemma ExtendsLater(attemptId: string, a: Attempt, run: StageRun)
    requires RunOk(attemptId, a, run) && SameIdentity(a, run.attempt) && run.attempt.fate == a.fate
    ensures LaterAttempt(a, AfterRun(run))
  {
    AfterRunSafe(attemptId, a, run);
    var b := AfterRun(run);
    assert SameIdentity(a, b);
    hide AfterRun, RunOk, ConfirmedInvoices, ConfirmedPayments, AttemptOk, SameIdentity;
    assert |Listed(b.invoiceId)| <= 1 && |Listed(b.paymentId)| <= 1;
    if a.invoiceId.Some? {
      assert Listed(b.invoiceId)[0] == a.invoiceId.value;
    }
    if a.paymentId.Some? {
      assert Listed(b.paymentId)[0] == a.paymentId.value;
    }
  }

  lemma RecoveredLater(w: World, attemptId: string, now: nat, env: StageEnv)
    requires Safe(w)
    ensures Later(w, Recovered(w, attemptId, now, env))
    ensures Resumes(w, attemptId, now) ==>
              var v := Recovered(w, attemptId, now, env);
              attemptId in v.attempts && v.attempts[attemptId].retries == w.attempts[attemptId].retries + 1
  {
    var v := Recovered(w, attemptId, now, env);
    if Resumes(w, attemptId, now) {
      var a := w.attempts[attemptId];
      assert AttemptOk(a);
      hide Safe, RunStage, RunOk, AttemptOk, AfterRun, LaterAttempt, Later;
      var run := Resumed(w, attemptId, env);
      RunSafe(attemptId, a, TaskOf(w, a), w.orders, env);
      AfterRunSafe(attemptId, a, run);
      ExtendsLater(attemptId, a, run);
      OneLater(w, v, attemptId, AfterRun(run));
    } else if GivesUp(w, attemptId, now) {
      hide Safe, Later;
      OneLater(w, v, attemptId, w.attempts[attemptId].(status := FailedFinal));
    } else {
      hide Safe, Later;
      SameAttemptsLater(w, v);
    }
  }

  lemma PolledLater(w: World, taskId: string, report: PollReport, attemptId: string, env: SettleEnv)
    ensures Later(w, Polled(w, taskId, report, attemptId, env))
  {
    hide SettleScene, Opening, Admitted, Later, Admits;
    var v := Polled(w, taskId, report, attemptId, env);
    if taskId in w.tasks && v.attempts != w.attempts {
      assert attemptId !in w.attempts;
      assert v.attempts == w.attempts[attemptId := v.attempts[attemptId]];
      OneLater(w, v, attemptId, v.attempts[attemptId]);
    } else {
      SameAttemptsLater(w, v);
    }
  }

  lemma RelabelledLater(w: World)
    ensures Later(w, w.(attempts := UnstuckAll(w.attempts)))
    ensures Later(w, w.(attempts := InterruptedAll(w.attempts)))
  {
    hide LaterAttempt;
    forall id | id in w.attempts
      ensures LaterAttempt(w.attempts[id], Unstuck(w.attempts[id])) && LaterAttempt(w.attempts[id], Interrupted(w.attempts[id]))
    {
      RelabelledIsLater(w.attempts[id]);
    }
  }

  lemma RelabelledIsLater(a: Attempt)
    ensures LaterAttempt(a, Unstuck(a)) && LaterAttempt(a, Interrupted(a))
  {
  }

  lemma WithAttemptLater(w: World, attemptId: Option<string>, status: AttemptStatus, restart: bool)
    ensures Later(w, WithAttempt(w, attemptId, status, restart))
  {
    hide Later;
    var v := WithAttempt(w, attemptId, status, restart);
    if attemptId.Some? && attemptId.value in w.attempts {
      OneLater(w, v, attemptId.value, v.attempts[attemptId.value]);
    } else {
      SameAttemptsLater(w, v);
    }
  }

  lemma ActionTakenLater(w: World, d: Dispute, action: DisputeAction)
    ensures Later(w, ActionTaken(w, d, action))
  {
    hide Later, WithAttempt, RolledBackTasks, PenalizedTasks, RefundedTasks;
    WithAttemptLater(w, d.attemptId, InProgress, true);
    WithAttemptLater(w, d.attemptId, FailedFinal, false);
    var v := ActionTaken(w, d, action);
    match action
    case RetryAction =>
    case MarkFinalAction =>
    case RollbackAction =>
      var failed := WithAttempt(w, d.attemptId, FailedFinal, false);
      SameAttemptsLater(failed, v);
      LaterTransitive(w, failed, v);
    case _ => SameAttemptsLater(w, v);
  }

  lemma DisputeActedLater(w: World, disputeId: string, action: DisputeAction)
    ensures Later(w, DisputeActed(w, disputeId, action))
  {
    hide Later, ActionTaken, AllowedActions;
    if disputeId in w.disputes {
      ActionTakenLater(w, w.disputes[disputeId], action);
    }
    SameAttemptsLater(w, w);
  }

  lemma OperatorLater(w: World, attemptId: string)
    ensures Later(w, OperatorRetried(w, attemptId)) && Later(w, MarkedFinal(w, attemptId))
  {
    hide Later;
    if attemptId in w.attempts {
      var a := w.attempts[attemptId];
      OneLater(w, w.(attempts := w.attempts[attemptId := a.(status := FailedFinal)]), attemptId, a.(status := FailedFinal));
      var b := a.(status := InProgress, stage := ProviderMarkSettling, retries := a.retries + 1);
      OneLater(w, w.(attempts := w.attempts[attemptId := b]), attemptId, b);
    }
    SameAttemptsLater(w, w);
  }

  lemma ModeSwitchedLater(w: World, mode: Mode, net: Deliveries)
    ensures Later(w, ModeSwitched(w, mode, net))
  {
    hide Later, InterruptedAll, AbandonedAll, MatchesReleased;
    RelabelledLater(w);
    var relabelled := w.(attempts := InterruptedAll(w.attempts));
    if w.mode != mode {
      SameAttemptsLater(relabelled, ModeSwitched(w, mode, net));
      LaterTransitive(w, relabelled, ModeSwitched(w, mode, net));
    } else {
      SameAttemptsLater(w, w);
    }
  }

  lemma ReapedLater(w: World, env: ReaperEnv)
    ensures Later(w, Reaped(w, env))
  {
    hide Later, UnstuckAll, MatchesReleased, LocksReaped;
    RelabelledLater(w);
    SameAttemptsLater(StuckDetected(w), Reaped(w, env));
    LaterTransitive(w, StuckDetected(w), Reaped(w, env));
  }

  lemma NextLater(w: World, step: Step)
    requires Safe(w)
    ensures Later(w, Next(w, step))
  {
    hide Safe, Later, Polled, Recovered, ModeSwitched, OperatorRetried, MarkedFinal, DisputeActed, Reaped, UnstuckAll;
    hide TaskCleaned, MatchReleased, MatchRetried, MatchRejected, AcceptHandled, ProviderHandled, OrderAdded;
    match step
    case Poll(taskId, report, attemptId, env) => PolledLater(w, taskId, report, attemptId, env);
    case Recover(attemptId, now, env) => RecoveredLater(w, attemptId, now, env);
    case DetectStuck => RelabelledLater(w);
    case SwitchMode(mode, net) => ModeSwitchedLater(w, mode, net);
    case OperatorRetry(attemptId) => OperatorLater(w, attemptId);
    case OperatorMarkFinal(attemptId) => OperatorLater(w, attemptId);
    case ActOnDispute(disputeId, action) => DisputeActedLater(w, disputeId, action);
    case Reap(env) => ReapedLater(w, env);
    case _ =>
      AttemptsLeft(w, step);
      SameAttemptsLater(w, Next(w, step));
  }

  /** In the rest of any run an attempt keeps the invoice and the payment it has, and its retries never go down. */
  lemma {:induction false} IdsAreWrittenOnce(w: World, steps: seq<Step>, more: seq<Step>)
    requires Initial(w)
    ensures Later(Run(w, steps), Run(w, steps + more))
  {
    hide Next, Later, Initial, Safe;
    if more == [] {
      assert steps + more == steps;
      SameAttemptsLater(Run(w, steps), Run(w, steps + more));
    } else {
      var n := |more| - 1;
      assert (steps + more)[..|steps| + n] == steps + more[..n];
      IdsAreWrittenOnce(w, steps, more[..n]);
      RunIsSafe(w, steps + more[..n]);
      NextLater(Run(w, steps + more[..n]), more[n]);
      LaterTransitive(Run(w, steps), Run(w, steps + more[..n]), Run(w, steps + more));
    }
  }

  // ---- Recovery runs ----

  /** How often recovery has run a stage of the attempt. */
  function RecoveryRuns(w: World, steps: seq<Step>, attemptId: string): nat {
    if steps == [] then 0
    else
      var n := |steps| - 1;
      var step := steps[n];
      RecoveryRuns(w, steps[..n], attemptId) +
      if step.Recover? && step.attemptId == attemptId && Resumes(Run(w, steps[..n]), attemptId, step.now) then 1 else 0
  }

  lemma {:induction false} RunsAreRetries(w: World, steps: seq<Step>, attemptId: string)
    requires Initial(w)
    ensures var runs := RecoveryRuns(w, steps, attemptId);
            && runs <= MAX_RECOVERY_RETRIES
            && (attemptId in Run(w, steps).attempts ==> runs <= Run(w, steps).attempts[attemptId].retries)
            && (attemptId !in Run(w, steps).attempts ==> runs == 0)
  {
    if steps != [] {
      hide Recovered, Initial, Safe, Next, Resumes;
      var n := |steps| - 1;
      var before, step := Run(w, steps[..n]), steps[n];
      RunsAreRetries(w, steps[..n], attemptId);
      RunIsSafe(w, steps[..n]);
      NextLater(before, step);
      if step.Recover? && step.attemptId == attemptId && Resumes(before, attemptId, step.now) {
        RecoverStep(before, step);
        RecoveredLater(before, attemptId, step.now, step.stageEnv);
        ResumesOnlyBelowCap(before, attemptId, step.now);
      }
    }
  }

  lemma ResumesOnlyBelowCap(w: World, attemptId: string, now: nat)
    requires Resumes(w, attemptId, now)
    ensures attemptId in w.attempts && w.attempts[attemptId].retries < MAX_RECOVERY_RETRIES
  {
  }

  /** In its whole life an attempt gets at most six recovery runs, whatever operators and disputes do to it. */
  lemma AtMostSixRecoveryRuns(w: World, steps: seq<Step>, attemptId: string)
    requires Initial(w)
    ensures RecoveryRuns(w, steps, attemptId) <= MAX_RECOVERY_RETRIES
  {
    hide RecoveryRuns, Run, Initial;
    RunsAreRetries(w, steps, attemptId);
  }
}
