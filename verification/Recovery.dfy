/** How recovery ends: `run_recovery_tick` of apps/agentd/src/main.rs on the poll clock. */
module Recovery {
  import opened Wrappers
  import opened Market
  import opened Billing
  import opened Orders
  import opened Settlement
  import opened Agent
  import opened Safety

  const POLL_INTERVAL: nat := 2

  // ---- What recovery sees of an attempt ----

  /** Stages completed, counting the commit as the fifth; runs made; the time before which it waits; given up. */
  datatype Track = Track(done: nat, retries: nat, until: nat, failed: bool)

  predicate Ended(t: Track) {
    t.done == 5 || t.failed
  }

  function Visited(t: Track, now: nat, ok: bool): Track {
    if Ended(t) || now < t.until then t
    else if t.retries >= MAX_RECOVERY_RETRIES then t.(failed := true)
    else Track(t.done + (if ok then 1 else 0), t.retries + 1, now + BackoffDelay(t.retries + 1), false)
  }

  /** Not waiting for an operator: a payment-unknown attempt is not recovery's to resume. */
  predicate Tracked(w: World, attemptId: string) {
    w.mode == Auto && attemptId in w.attempts && w.attempts[attemptId].status != PaymentUnknown
  }

  function TrackOf(w: World, attemptId: string): Track
    requires Tracked(w, attemptId)
  {
    var a := w.attempts[attemptId];
    Track(if a.status == Committed then 5 else StageIndex(a.stage), a.retries, Until(w, attemptId), a.status == FailedFinal)
  }

  /** A run that fails leaves the attempt as it was; one that succeeds only moves it on to its next stage. */
  predicate Moves(a: Attempt, run: StageRun, next: Stage) {
    if run.ok then run.attempt.stage == next && run.attempt.status == a.status && run.attempt.retries == a.retries
    else run.attempt == a
  }

  lemma InvoiceRunMoves(attemptId: string, a: Attempt, task: Option<Task>, orders: map<string, OrderStatus>, env: StageEnv)
    ensures Moves(a, RunCreateInvoice(attemptId, a, task, orders, env), SettlePayment)
  {
    hide WithBillStatus, ReplayWindows, CreateInvoiceRequest, Billing.Invoice, Contained;
  }

  lemma PaymentRunMoves(attemptId: string, a: Attempt, task: Option<Task>, orders: map<string, OrderStatus>, env: StageEnv)
    ensures Moves(a, RunSettlePayment(attemptId, a, task, orders, env), RecordResult)
  {
    hide WithBillStatus, ReplayWindows, SettlePaymentRequest, Paying, Contained;
  }

  lemma RecordRunMoves(attemptId: string, a: Attempt, task: Option<Task>, orders: map<string, OrderStatus>, env: StageEnv)
    ensures Moves(a, RunRecordResult(attemptId, a, task, orders, env), ProviderMarkSettled)
  {
    hide WithBillStatus, ReplayWindows, RecordResultRequest, Contained;
  }

  lemma StageMoves(attemptId: string, a: Attempt, task: Option<Task>, orders: map<string, OrderStatus>, env: StageEnv)
    ensures var run := RunStage(attemptId, a, task, orders, env);
            if a.stage != ProviderMarkSettled then exists next :: Moves(a, run, next) && StageIndex(next) == StageIndex(a.stage) + 1
            else if run.ok then run.attempt.status == Committed && run.attempt.retries == a.retries
            else run.attempt == a
  {
    InvoiceRunMoves(attemptId, a, task, orders, env);
    PaymentRunMoves(attemptId, a, task, orders, env);
    RecordRunMoves(attemptId, a, task, orders, env);
    hide Call, RunCreateInvoice, RunSettlePayment, RunRecordResult, Contained;
    var run := RunStage(attemptId, a, task, orders, env);
    match a.stage
    case ProviderMarkSettling => assert Moves(a, run, CreateInvoice);
    case CreateInvoice => assert Moves(a, run, SettlePayment);
    case SettlePayment => assert Moves(a, run, RecordResult);
    case RecordResult => assert Moves(a, run, ProviderMarkSettled);
    case ProviderMarkSettled =>
  }

  /**
   * A stage run that succeeds completes exactly its stage and leaves the attempt in progress, or committed after the last one;
   * one that fails leaves the stage as it was and the attempt retryable.
   */
  lemma RunMovesOneStage(attemptId: string, a: Attempt, task: Option<Task>, orders: map<string, OrderStatus>, env: StageEnv)
    requires Recoverable(a.status)
    ensures var run := RunStage(attemptId, a, task, orders, env);
            var b := AfterRun(run);
            && b.retries == a.retries + 1
            && b.status == (if !run.ok then RetryableFailed else if a.stage == ProviderMarkSettled then Committed else InProgress)
            && (b.status == Committed || StageIndex(b.stage) == StageIndex(a.stage) + if run.ok then 1 else 0)
  {
    StageMoves(attemptId, a, task, orders, env);
    hide RunStage, Contained, StageIndex;
  }

  /** Outside auto mode a visit does nothing. */
  lemma OnlyInAuto(w: World, attemptId: string, now: nat, env: StageEnv)
    requires w.mode != Auto
    ensures Recovered(w, attemptId, now, env) == w
  {
    hide Resumed, AfterRun, BackoffDelay;
  }

  predicate RunSucceeds(w: World, attemptId: string, env: StageEnv)
    requires attemptId in w.attempts
  {
    Resumed(w, attemptId, env).ok
  }

  lemma ResumesWhenDue(w: World, attemptId: string, now: nat)
    requires Tracked(w, attemptId)
    ensures var t := TrackOf(w, attemptId);
            && (Resumes(w, attemptId, now) <==> !Ended(t) && now >= t.until && t.retries < MAX_RECOVERY_RETRIES)
            && (GivesUp(w, attemptId, now) <==> !Ended(t) && now >= t.until && t.retries >= MAX_RECOVERY_RETRIES)
  {
    hide StageIndex, Until;
    LastStage(w.attempts[attemptId]);
  }

  lemma VisitRuns(w: World, attemptId: string, now: nat, env: StageEnv)
    requires Tracked(w, attemptId) && Resumes(w, attemptId, now)
    ensures var v := Recovered(w, attemptId, now, env);
            && Tracked(v, attemptId)
            && TrackOf(v, attemptId) == Visited(TrackOf(w, attemptId), now, RunSucceeds(w, attemptId, env))
  {
    var a := w.attempts[attemptId];
    RunMovesOneStage(attemptId, a, TaskOf(w, a), w.orders, env);
    LastStage(a);
    ResumesWhenDue(w, attemptId, now);
    hide RunStage, AfterRun, TaskOf, BackoffDelay, StageIndex, Resumes;
    var v, b := Recovered(w, attemptId, now, env), AfterRun(Resumed(w, attemptId, env));
    assert v.attempts[attemptId] == b && v.mode == w.mode && Until(v, attemptId) == now + BackoffDelay(b.retries);
  }

  /** A visit of the recovery tick does to an attempt's track exactly what `Visited` says. */
  lemma VisitRefines(w: World, attemptId: string, now: nat, env: StageEnv)
    requires Tracked(w, attemptId)
    ensures var v := Recovered(w, attemptId, now, env);
            && Tracked(v, attemptId)
            && TrackOf(v, attemptId) == Visited(TrackOf(w, attemptId), now, RunSucceeds(w, attemptId, env))
    ensures Resumes(w, attemptId, now) <==>
              var t := TrackOf(w, attemptId);
              !Ended(t) && now >= t.until && t.retries < MAX_RECOVERY_RETRIES
  {
    ResumesWhenDue(w, attemptId, now);
    if Resumes(w, attemptId, now) {
      VisitRuns(w, attemptId, now, env);
      hide Recovered, TrackOf, Visited, RunSucceeds, Resumes, GivesUp, Tracked;
    } else {
      hide RunSucceeds, StageIndex, Resumes, GivesUp, BackoffDelay, Resumed;
    }
  }

  lemma LastStage(a: Attempt)
    ensures StageIndex(a.stage) <= 4 && (StageIndex(a.stage) == 4 <==> a.stage == ProviderMarkSettled)
  {
  }

  /** The stuck detector only relabels what recovery resumes anyway. */
  lemma StuckRefines(w: World, attemptId: string)
    requires Tracked(w, attemptId)
    ensures Tracked(StuckDetected(w), attemptId)
    ensures TrackOf(StuckDetected(w), attemptId) == TrackOf(w, attemptId)
  {
  }

  // ---- What others do ----

  /** The steps that do not concern this attempt: everything but its own recovery, overrides, disputes and mode switches. */
  predicate LeavesAlone(step: Step, attemptId: string) {
    match step
    case Recover(id, _, _) => id != attemptId
    case OperatorRetry(id) => id != attemptId
    case OperatorMarkFinal(id) => id != attemptId
    case ActOnDispute(_, _) => false
    case SwitchMode(_, _) => false
    case _ => true
  }

  predicate AllLeaveAlone(steps: seq<Step>, attemptId: string) {
    forall i :: 0 <= i < |steps| ==> LeavesAlone(steps[i], attemptId)
  }

  /** Recovery sees the attempt as it did. */
  predicate SameTrack(w: World, v: World, attemptId: string)
    requires Tracked(w, attemptId)
  {
    Tracked(v, attemptId) && TrackOf(v, attemptId) == TrackOf(w, attemptId)
  }

  lemma UntouchedTrack(w: World, v: World, attemptId: string)
    requires Tracked(w, attemptId) && v.mode == w.mode && Until(v, attemptId) == Until(w, attemptId)
    requires attemptId in v.attempts && v.attempts[attemptId] == w.attempts[attemptId]
    ensures SameTrack(w, v, attemptId)
  {
  }

  lemma ModeAndBackoffLeft(w: World, step: Step)
    requires !step.Recover? && !step.SwitchMode?
    ensures Next(w, step).mode == w.mode && Next(w, step).backoff == w.backoff
  {
    hide Polled, Recovered, TaskCleaned, StuckDetected, ModeSwitched, OperatorRetried, MarkedFinal, MatchReleased;
    hide MatchRetried, MatchRejected, AcceptHandled, Reaped, ProviderHandled, OrderAdded, MatchIdOf, KeepsSettled, OnlyRebinds;
    hide WellKeyed, ActionTaken, AllowedActions;
  }

  lemma OtherPolled(w: World, taskId: string, report: PollReport, newId: string, env: SettleEnv, attemptId: string)
    requires attemptId in w.attempts
    ensures var v := Polled(w, taskId, report, newId, env);
            attemptId in v.attempts && v.attempts[attemptId] == w.attempts[attemptId]
  {
    hide SettleScene, Opening, Admitted, Admits;
  }

  lemma OtherRecovered(w: World, other: string, now: nat, env: StageEnv, attemptId: string)
    requires attemptId in w.attempts && other != attemptId
    ensures var v := Recovered(w, other, now, env);
            && v.mode == w.mode && Until(v, attemptId) == Until(w, attemptId)
            && attemptId in v.attempts && v.attempts[attemptId] == w.attempts[attemptId]
  {
    hide Resumed, AfterRun, BackoffDelay;
    var v := Recovered(w, other, now, env);
    if Resumes(w, other, now) {
      assert v.attempts == w.attempts[other := AfterRun(Resumed(w, other, env))];
    } else if GivesUp(w, other, now) {
      assert v.attempts == w.attempts[other := w.attempts[other].(status := FailedFinal)];
    } else {
      assert v == w;
    }
  }

  lemma OthersReaped(w: World, env: ReaperEnv, attemptId: string)
    requires Tracked(w, attemptId)
    ensures SameTrack(w, Reaped(w, env), attemptId)
  {
    hide MatchesReleased, LocksReaped;
    StuckRefines(w, attemptId);
    assert Reaped(w, env).attempts == StuckDetected(w).attempts;
  }

  lemma SweepsLeaveTrack(w: World, step: Step, attemptId: string)
    requires Tracked(w, attemptId) && (step.DetectStuck? || step.Reap?)
    ensures SameTrack(w, Next(w, step), attemptId)
  {
    hide Polled, Recovered, TaskCleaned, StuckDetected, ModeSwitched, OperatorRetried, MarkedFinal, MatchReleased;
    hide MatchRetried, MatchRejected, AcceptHandled, Reaped, ProviderHandled, OrderAdded, MatchIdOf, KeepsSettled, OnlyRebinds;
    hide WellKeyed, SameTrack, DisputeActed;
    if step.DetectStuck? {
      StuckSameTrack(w, attemptId);
    } else {
      OthersReaped(w, step.reaperEnv, attemptId);
    }
  }

  lemma OperatorsLeaveAttempt(w: World, step: Step, attemptId: string)
    requires attemptId in w.attempts && (step.OperatorRetry? || step.OperatorMarkFinal?) && step.attemptId != attemptId
    ensures attemptId in Next(w, step).attempts && Next(w, step).attempts[attemptId] == w.attempts[attemptId]
  {
    hide Polled, Recovered, TaskCleaned, StuckDetected, ModeSwitched, OperatorRetried, MarkedFinal, MatchReleased;
    hide MatchRetried, MatchRejected, AcceptHandled, Reaped, ProviderHandled, OrderAdded, MatchIdOf, KeepsSettled, OnlyRebinds;
    hide WellKeyed, DisputeActed;
    OtherOverridden(w, step.attemptId, attemptId);
  }

  /** Whatever others do, recovery sees the attempt as it did. */
  lemma OthersLeaveTrack(w: World, step: Step, attemptId: string)
    requires Tracked(w, attemptId) && LeavesAlone(step, attemptId)
    ensures SameTrack(w, Next(w, step), attemptId)
  {
    hide Next, Polled, Recovered, SameTrack;
    if step.DetectStuck? || step.Reap? {
      SweepsLeaveTrack(w, step, attemptId);
    } else {
      if step.Recover? {
        RecoverStep(w, step);
        OtherRecovered(w, step.attemptId, step.now, step.stageEnv, attemptId);
      } else {
        ModeAndBackoffLeft(w, step);
        if LeavesAttempts(step) {
          AttemptsLeft(w, step);
        } else if step.Poll? {
          PollStep(w, step);
          OtherPolled(w, step.taskId, step.report, step.attemptId, step.env, attemptId);
        } else {
          OperatorsLeaveAttempt(w, step, attemptId);
        }
      }
      UntouchedTrack(w, Next(w, step), attemptId);
    }
  }

  lemma StuckSameTrack(w: World, attemptId: string)
    requires Tracked(w, attemptId)
    ensures SameTrack(w, StuckDetected(w), attemptId)
  {
    StuckRefines(w, attemptId);
  }

  lemma OtherOverridden(w: World, other: string, attemptId: string)
    requires attemptId in w.attempts && other != attemptId
    ensures attemptId in OperatorRetried(w, other).attempts && attemptId in MarkedFinal(w, other).attempts
    ensures OperatorRetried(w, other).attempts[attemptId] == w.attempts[attemptId]
    ensures MarkedFinal(w, other).attempts[attemptId] == w.attempts[attemptId]
  {
    if other !in w.attempts || !OperatorMayAct(w.attempts[other]) {
      assert OperatorRetried(w, other) == w && MarkedFinal(w, other) == w;
    }
  }

  lemma {:induction false} RunLeavesTrack(w: World, steps: seq<Step>, attemptId: string)
    requires Tracked(w, attemptId) && AllLeaveAlone(steps, attemptId)
    ensures SameTrack(w, Run(w, steps), attemptId)
  {
    hide Next, LeavesAlone;
    if steps != [] {
      var n := |steps| - 1;
      RunLeavesTrack(w, steps[..n], attemptId);
      OthersLeaveTrack(Run(w, steps[..n]), steps[n], attemptId);
    }
  }

  // ---- Ticks of the poll clock ----

  /** What others do before the tick visits the attempt, and what the visit's stage run is answered. */
  datatype Tick = Tick(others: seq<Step>, env: StageEnv)

  ghost predicate Undisturbed(ticks: seq<Tick>, attemptId: string) {
    forall i :: 0 <= i < |ticks| ==> AllLeaveAlone(ticks[i].others, attemptId)
  }

  /** The state after each tick's visit to the attempt, the ticks two seconds apart. */
  function Ticks(w: World, attemptId: string, start: nat, ticks: seq<Tick>): World
    decreases |ticks|, 1
  {
    if ticks == [] then w
    else
      var n := |ticks| - 1;
      Recovered(BeforeTick(w, attemptId, start, ticks), attemptId, start + POLL_INTERVAL * n, ticks[n].env)
  }

  /** The state in which the last tick finds the attempt. */
  function BeforeTick(w: World, attemptId: string, start: nat, ticks: seq<Tick>): World
    requires ticks != []
    decreases |ticks|, 0
  {
    Run(Ticks(w, attemptId, start, ticks[..|ticks| - 1]), ticks[|ticks| - 1].others)
  }

  /** The results of the stage runs made during the ticks. */
  function Results(w: World, attemptId: string, start: nat, ticks: seq<Tick>): seq<bool> {
    if ticks == [] then []
    else
      var n := |ticks| - 1;
      var before := BeforeTick(w, attemptId, start, ticks);
      Results(w, attemptId, start, ticks[..n]) +
      if Resumes(before, attemptId, start + POLL_INTERVAL * n) then [RunSucceeds(before, attemptId, ticks[n].env)] else []
  }

  function Successes(results: seq<bool>): nat {
    if results == [] then 0
    else Successes(results[..|results| - 1]) + if results[|results| - 1] then 1 else 0
  }

  /** The longest time from the first visit until an attempt with this many retries is decided. */
  function TimeLeft(retries: nat): nat
    decreases MAX_RECOVERY_RETRIES - retries
  {
    if retries >= MAX_RECOVERY_RETRIES then 0 else BackoffDelay(retries + 1) + TimeLeft(retries + 1)
  }

  /** An attempt that recovery would visit now. */
  predicate Ready(w: World, attemptId: string, start: nat) {
    Tracked(w, attemptId) && Recoverable(w.attempts[attemptId].status) && Until(w, attemptId) <= start
  }

  /** An attempt nobody has tried to recover yet. */
  predicate Fresh(w: World, attemptId: string, start: nat) {
    && Ready(w, attemptId, start)
    && w.attempts[attemptId].stage == ProviderMarkSettling && w.attempts[attemptId].retries == 0
  }

  /** The track `t` reached from the track `from`, first visited at `start`, after these runs and this many ticks. */
  ghost predicate OnSchedule(from: Track, t: Track, results: seq<bool>, start: nat, ticks: nat) {
    && t.done == from.done + Successes(results) <= 5
    && t.retries == from.retries + |results| && (results != [] ==> t.retries <= MAX_RECOVERY_RETRIES)
    && (t.failed ==> t.retries >= MAX_RECOVERY_RETRIES && t.done < 5)
    && (!Ended(t) ==> if results == [] then ticks == 0 && t.until <= start
                      else && t.until + TimeLeft(t.retries) == start + TimeLeft(from.retries)
                           && start + POLL_INTERVAL * ticks <= t.until && (t.until - start) % POLL_INTERVAL == 0)
  }

  lemma TimesLeft()
    ensures TimeLeft(0) == 122 && TimeLeft(1) == 120 && TimeLeft(2) == 116 && TimeLeft(3) == 108 && TimeLeft(4) == 92
    ensures TimeLeft(5) == 60 && TimeLeft(6) == 0
  {
    assert TimeLeft(5) == 60;
    assert TimeLeft(4) == 92;
    assert TimeLeft(3) == 108;
    assert TimeLeft(2) == 116;
    assert TimeLeft(1) == 120;
  }

  lemma VisitOnSchedule(from: Track, t: Track, results: seq<bool>, start: nat, ticks: nat, ok: bool)
    requires OnSchedule(from, t, results, start, ticks)
    ensures var now := start + POLL_INTERVAL * ticks;
            var runs := !Ended(t) && now >= t.until && t.retries < MAX_RECOVERY_RETRIES;
            OnSchedule(from, Visited(t, now, ok), if runs then results + [ok] else results, start, ticks + 1)
  {
    hide TimeLeft, BackoffDelay, Successes;
    var now := start + POLL_INTERVAL * ticks;
    if !Ended(t) && now >= t.until && t.retries < MAX_RECOVERY_RETRIES {
      RunOnSchedule(from, t, results, start, ticks, ok);
    }
  }

  lemma WholeTicks(start: nat, ticks: nat, delay: nat)
    requires delay in {2, 4, 8, 16, 32, 60}
    ensures (start + POLL_INTERVAL * ticks + delay - start) % POLL_INTERVAL == 0
    ensures start + POLL_INTERVAL * (ticks + 1) <= start + POLL_INTERVAL * ticks + delay
  {
    var half := delay / POLL_INTERVAL;
    assert POLL_INTERVAL * ticks + delay == POLL_INTERVAL * (ticks + half);
  }

  lemma OneMoreResult(results: seq<bool>, ok: bool)
    ensures Successes(results + [ok]) == Successes(results) + if ok then 1 else 0
  {
    assert (results + [ok])[..|results|] == results;
  }

  lemma TimeGoes(retries: nat)
    requires retries < MAX_RECOVERY_RETRIES
    ensures TimeLeft(retries) == BackoffDelay(retries + 1) + TimeLeft(retries + 1)
    ensures BackoffDelay(retries + 1) in {2, 4, 8, 16, 32, 60}
  {
  }

  lemma RunOnSchedule(from: Track, t: Track, results: seq<bool>, start: nat, ticks: nat, ok: bool)
    requires OnSchedule(from, t, results, start, ticks)
    requires !Ended(t) && start + POLL_INTERVAL * ticks >= t.until && t.retries < MAX_RECOVERY_RETRIES
    ensures OnSchedule(from, Visited(t, start + POLL_INTERVAL * ticks, ok), results + [ok], start, ticks + 1)
  {
    hide TimeLeft, BackoffDelay, Successes;
    OneMoreResult(results, ok);
    TimeGoes(t.retries);
    WholeTicks(start, ticks, BackoffDelay(t.retries + 1));
  }

  lemma {:induction false} TicksOnSchedule(w: World, attemptId: string, start: nat, ticks: seq<Tick>)
    requires Ready(w, attemptId, start) && Undisturbed(ticks, attemptId)
    ensures var v := Ticks(w, attemptId, start, ticks);
            && Tracked(v, attemptId)
            && OnSchedule(TrackOf(w, attemptId), TrackOf(v, attemptId), Results(w, attemptId, start, ticks), start, |ticks|)
  {
    hide Recovered, Resumes, RunSucceeds, Visited, Ticks, BeforeTick, Results, OnSchedule, Ready, TrackOf, AllLeaveAlone;
    TicksStep(w, attemptId, start, ticks);
    ReadyOnSchedule(w, attemptId, start);
    if ticks != [] {
      var n := |ticks| - 1;
      var now := start + POLL_INTERVAL * n;
      TicksOnSchedule(w, attemptId, start, ticks[..n]);
      var before := BeforeTick(w, attemptId, start, ticks);
      FoundAsLeft(w, attemptId, start, ticks);
      VisitRefines(before, attemptId, now, ticks[n].env);
      VisitOnSchedule(TrackOf(w, attemptId), TrackOf(before, attemptId), Results(w, attemptId, start, ticks[..n]), start, n,
                      RunSucceeds(before, attemptId, ticks[n].env));
    }
  }

  lemma ReadyOnSchedule(w: World, attemptId: string, start: nat)
    requires Ready(w, attemptId, start)
    ensures Tracked(w, attemptId) && OnSchedule(TrackOf(w, attemptId), TrackOf(w, attemptId), [], start, 0)
  {
    hide TimeLeft, StageIndex;
    LastStage(w.attempts[attemptId]);
  }

  lemma FoundAsLeft(w: World, attemptId: string, start: nat, ticks: seq<Tick>)
    requires ticks != [] && AllLeaveAlone(ticks[|ticks| - 1].others, attemptId)
    requires Tracked(Ticks(w, attemptId, start, ticks[..|ticks| - 1]), attemptId)
    ensures var left := Ticks(w, attemptId, start, ticks[..|ticks| - 1]);
            SameTrack(left, BeforeTick(w, attemptId, start, ticks), attemptId)
  {
    hide Ticks, Run, Tracked, SameTrack;
    RunLeavesTrack(Ticks(w, attemptId, start, ticks[..|ticks| - 1]), ticks[|ticks| - 1].others, attemptId);
  }

  lemma TicksStep(w: World, attemptId: string, start: nat, ticks: seq<Tick>)
    ensures ticks == [] ==> Ticks(w, attemptId, start, ticks) == w && Results(w, attemptId, start, ticks) == []
    ensures ticks != [] ==>
              var n := |ticks| - 1;
              var now := start + POLL_INTERVAL * n;
              var before := BeforeTick(w, attemptId, start, ticks);
              && Ticks(w, attemptId, start, ticks) == Recovered(before, attemptId, now, ticks[n].env)
              && Results(w, attemptId, start, ticks) ==
                   if Resumes(before, attemptId, now)
                   then Results(w, attemptId, start, ticks[..n]) + [RunSucceeds(before, attemptId, ticks[n].env)]
                   else Results(w, attemptId, start, ticks[..n])
  {
    hide Recovered, Resumes, RunSucceeds, BeforeTick;
  }

  /**
   * In auto mode, whatever goes on around it, an attempt that only recovery acts on is decided within a time that depends only on its retries:
   * committed if the stages it had left all succeeded among the runs it had left, and given up otherwise.
   */
  lemma RecoveryDecides(w: World, attemptId: string, start: nat, ticks: seq<Tick>)
    requires Ready(w, attemptId, start) && Undisturbed(ticks, attemptId) && ticks != []
    requires POLL_INTERVAL * (|ticks| - 1) >= TimeLeft(w.attempts[attemptId].retries)
    ensures var a := w.attempts[attemptId];
            var results := Results(w, attemptId, start, ticks);
            var v := Ticks(w, attemptId, start, ticks);
            && attemptId in v.attempts
            && (results != [] ==> a.retries + |results| <= MAX_RECOVERY_RETRIES)
            && v.attempts[attemptId].status ==
                 if StageIndex(a.stage) + Successes(results) >= 5 then Committed else FailedFinal
  {
    hide Ticks, Results, Successes, TimeLeft, StageIndex;
    TicksOnSchedule(w, attemptId, start, ticks);
    LastStage(w.attempts[attemptId]);
    LastStage(Ticks(w, attemptId, start, ticks).attempts[attemptId]);
  }

  /**
   * A fresh attempt that only recovery acts on is decided no later than 122 seconds after its first run, after at most six runs: committed if at
   * least five of them succeeded, and given up otherwise.
   */
  lemma FreshAttemptDecided(w: World, attemptId: string, start: nat, ticks: seq<Tick>)
    requires Fresh(w, attemptId, start) && Undisturbed(ticks, attemptId) && POLL_INTERVAL * (|ticks| - 1) >= 122
    ensures var results := Results(w, attemptId, start, ticks);
            var v := Ticks(w, attemptId, start, ticks);
            && attemptId in v.attempts && |results| <= MAX_RECOVERY_RETRIES
            && v.attempts[attemptId].status == if Successes(results) >= 5 then Committed else FailedFinal
  {
    TimesLeft();
    hide Ticks, Results, Successes, TimeLeft;
    RecoveryDecides(w, attemptId, start, ticks);
  }

  /** The bound is exact: an attempt that does not succeed often enough is not given up before its time is over. */
  lemma NotGivenUpEarly(w: World, attemptId: string, start: nat, ticks: seq<Tick>)
    requires Ready(w, attemptId, start) && Undisturbed(ticks, attemptId)
    requires POLL_INTERVAL * (|ticks| - 1) < TimeLeft(w.attempts[attemptId].retries)
    requires StageIndex(w.attempts[attemptId].stage) + Successes(Results(w, attemptId, start, ticks)) < 5
    ensures var v := Ticks(w, attemptId, start, ticks);
            attemptId in v.attempts && Recoverable(v.attempts[attemptId].status)
  {
    hide Ticks, Results, Successes, TimeLeft, StageIndex;
    TicksWait(w, attemptId, start, ticks);
    TicksOnSchedule(w, attemptId, start, ticks);
  }

  lemma VisitWaits(from: Track, t: Track, results: seq<bool>, start: nat, ticks: nat, ok: bool)
    requires OnSchedule(from, t, results, start, ticks) && !t.failed
    requires POLL_INTERVAL * ticks < TimeLeft(from.retries)
    ensures !Visited(t, start + POLL_INTERVAL * ticks, ok).failed
  {
    hide Successes;
  }

  lemma {:induction false} TicksWait(w: World, attemptId: string, start: nat, ticks: seq<Tick>)
    requires Ready(w, attemptId, start) && Undisturbed(ticks, attemptId)
    requires POLL_INTERVAL * (|ticks| - 1) < TimeLeft(w.attempts[attemptId].retries)
    ensures var v := Ticks(w, attemptId, start, ticks);
            Tracked(v, attemptId) && !TrackOf(v, attemptId).failed
  {
    hide Recovered, Resumes, RunSucceeds, Ticks, BeforeTick, Results, OnSchedule, Visited, TimeLeft, StageIndex, AllLeaveAlone;
    TicksStep(w, attemptId, start, ticks);
    if ticks != [] {
      var n := |ticks| - 1;
      var now := start + POLL_INTERVAL * n;
      TicksOnSchedule(w, attemptId, start, ticks[..n]);
      TicksWait(w, attemptId, start, ticks[..n]);
      var before := BeforeTick(w, attemptId, start, ticks);
      FoundAsLeft(w, attemptId, start, ticks);
      VisitRefines(before, attemptId, now, ticks[n].env);
      VisitWaits(TrackOf(w, attemptId), TrackOf(before, attemptId), Results(w, attemptId, start, ticks[..n]), start, n,
                 RunSucceeds(before, attemptId, ticks[n].env));
    }
  }

  /** The steps of a recovery tick that visits the attempts in the given order. */
  function Visits(order: seq<string>, now: nat, envs: map<string, StageEnv>): seq<Step> {
    seq(|order|, i requires 0 <= i < |order| => Recover(order[i], now, StageEnvOf(envs, order[i])))
  }

  /** A whole recovery tick is a run of steps, so that what holds over every run holds after every tick. */
  lemma {:induction false} TickIsARun(w: World, order: seq<string>, now: nat, envs: map<string, StageEnv>)
    ensures RecoveredAll(w, order, now, envs) == Run(w, Visits(order, now, envs))
  {
    hide Recovered, Next;
    if order != [] {
      var n := |order| - 1;
      TickIsARun(w, order[..n], now, envs);
      var steps := Visits(order, now, envs);
      assert steps[..n] == Visits(order[..n], now, envs);
      RecoverStep(RecoveredAll(w, order[..n], now, envs), steps[n]);
    }
  }
}
