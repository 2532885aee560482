/**
 * The agent's whole state and every step that changes it: settle passes, recovery, mode switches, operator and dispute
 * actions, match handlers and the reaper of apps/agentd/src/main.rs and market_support.rs, and the provider's orders.
 */
module Agent {
  import opened Wrappers
  import opened Market
  import opened Billing
  import opened Orders
  import opened Settlement
  import Matching

  datatype Mode = Manual | Auto | Hybrid

  // ---- Disputes ----

  datatype DisputeType =
    | PaymentUnknownDispute
    | ReconcileConflict
    | ReplayInconsistent
    | ResultRecordConflict
    | AmountMismatch
    | PricingDispute
    | ProviderSettledAgentNotCommitted
    | AgentCommittedProviderMissing
    | DuplicateSettleContradiction
    | RecommendedInvalidated
    | OtherDispute

  datatype DisputeAction =
    | RetryAction | RollbackAction | MarkFinalAction | RefreshRemoteStatus
    | ApplyPenalty | ReleaseRefund | Escalate | Resolve

  datatype Dispute = Dispute(kind: DisputeType, attemptId: Option<string>, tradeId: Option<string>)

  function AllowedActions(kind: DisputeType): set<DisputeAction> {
    {Resolve, Escalate, RefreshRemoteStatus} +
    match kind
    case PaymentUnknownDispute => {RetryAction, MarkFinalAction}
    case ReconcileConflict => {RetryAction, RollbackAction}
    case ReplayInconsistent => {RetryAction, RollbackAction}
    case ResultRecordConflict => {RetryAction, RollbackAction}
    case AmountMismatch => {ApplyPenalty, ReleaseRefund}
    case PricingDispute => {ApplyPenalty, ReleaseRefund}
    case ProviderSettledAgentNotCommitted => {RetryAction}
    case AgentCommittedProviderMissing => {RetryAction}
    case DuplicateSettleContradiction => {RollbackAction, RetryAction}
    case RecommendedInvalidated => {RollbackAction, RetryAction}
    case OtherDispute => {}
  }

  // ---- Accepting a match ----

  datatype AcceptStatus = Received | Validating | Locking | AcceptCommitted | Conflict | AcceptFailed

  /** What an accept request asks for; its hash is the accept attempt's payload hash. */
  datatype AcceptRequest = AcceptRequest(buyOrderId: string, sellOrderId: string)

  datatype AcceptAttempt = AcceptAttempt(request: AcceptRequest, status: AcceptStatus)

  predicate AcceptEnded(status: AcceptStatus) {
    status in {AcceptCommitted, Conflict, AcceptFailed}
  }

  // ---- The state ----

  /**
   * The agent's maps and lock sets, the provider's orders, and two logs: the calls to the gateway with what became of
   * them, and the sell orders an operator of the provider cancelled or expired.
   */
  datatype World = World(
    attempts: map<string, Attempt>,
    tasks: map<string, Task>,
    bindings: map<string, Binding>,
    lockedBuys: set<string>,
    lockedSells: set<string>,
    accepts: map<string, AcceptAttempt>,
    ledger: map<string, string>,
    disputes: map<string, Dispute>,
    backoff: map<string, nat>,
    mode: Mode,
    orders: map<string, OrderStatus>,
    overridden: set<string>,
    gateway: seq<GatewayCall>)

  predicate NewTask(t: Task) {
    && t.pending == [] && t.settled == {} && t.lastWindow == 0 && t.spent == 0.0 && t.totalPaid == 0.0
    && t.bills == [] && t.bound == None && t.admitted == [] && t.paid == [] && t.stranded == []
  }

  /** A fresh start: tasks are configured, orders are whatever the provider has. */
  predicate Initial(w: World) {
    && w.attempts == map[] && w.bindings == map[] && w.lockedBuys == {} && w.lockedSells == {}
    && w.accepts == map[] && w.ledger == map[] && w.disputes == map[] && w.backoff == map[]
    && w.overridden == {} && w.gateway == []
    && forall t :: t in w.tasks ==> NewTask(w.tasks[t])
  }

  // ---- Polling a task ----

  datatype PollReport = PollReport(running: bool, windowIndex: Option<nat>, owed: Option<real>)

  predicate HasIndex(windows: seq<Charge>, index: nat) {
    exists i :: 0 <= i < |windows| && windows[i].windowIndex == index
  }

  /** Whether the report brings a window the task has not seen. */
  predicate Admits(t: Task, report: PollReport) {
    && report.running && report.windowIndex.Some? && report.windowIndex.value > t.lastWindow
    && report.windowIndex.value !in t.settled && !HasIndex(t.pending, report.windowIndex.value)
  }

  function Admitted(t: Task, report: PollReport): Task {
    if !report.running then t.(running := false)
    else if report.windowIndex.None? || report.windowIndex.value <= t.lastWindow then t
    else
      var index := report.windowIndex.value;
      var charge := Charge(index, if report.owed.Some? then report.owed.value else 0.0);
      var seen := t.(lastWindow := index);
      if Admits(t, report) then
        seen.(pending := t.pending + [charge], admitted := t.admitted + [charge], spent := t.spent + charge.owed)
      else seen
  }

  /** Whether the settle loop has something to do for the task. */
  predicate Settleable(w: World, taskId: string) {
    && taskId in w.tasks
    && |w.tasks[taskId].pending| >= w.tasks[taskId].mergeCount
    && w.tasks[taskId].bound.Some?
    && w.tasks[taskId].bound.value in w.bindings
    && Active(w.bindings[w.tasks[taskId].bound.value])
  }

  function PassScene(w: World, taskId: string, attemptId: string, env: SettleEnv): Scene
    requires Settleable(w, taskId)
  {
    var task := w.tasks[taskId];
    SettleScene(
      Opening(taskId, task, attemptId, w.bindings[task.bound.value], w.orders), Drained(task), taskId, attemptId, env)
  }

  /** The state with a pass's scene written back. */
  function Staged(w: World, taskId: string, matchId: string, attemptId: string, s: Scene): World {
    w.(attempts := w.attempts[attemptId := s.attempt],
       tasks := w.tasks[taskId := s.task],
       bindings := w.bindings[matchId := s.binding],
       lockedBuys := if s.locked then w.lockedBuys else w.lockedBuys - {s.binding.buyOrderId},
       lockedSells := if s.locked then w.lockedSells else w.lockedSells - {s.binding.sellOrderId},
       orders := s.orders,
       gateway := w.gateway + s.calls)
  }

  /** One pass of the settle loop, under a new attempt identifier. */
  function PassDone(w: World, taskId: string, attemptId: string, env: SettleEnv): (v: World)
    ensures v.mode == w.mode && v.backoff == w.backoff
    ensures v.accepts == w.accepts && v.ledger == w.ledger
  {
    if !Settleable(w, taskId) || attemptId in w.attempts then w
    else Staged(w, taskId, w.tasks[taskId].bound.value, attemptId, PassScene(w, taskId, attemptId, env))
  }

  function Polled(w: World, taskId: string, report: PollReport, attemptId: string, env: SettleEnv): (v: World)
    ensures v.mode == w.mode && v.backoff == w.backoff
    ensures v.accepts == w.accepts && v.ledger == w.ledger
  {
    if taskId !in w.tasks then w
    else
      var t := w.tasks[taskId];
      var after := w.(tasks := w.tasks[taskId := Admitted(t, report)]);
      if Admits(t, report) then PassDone(after, taskId, attemptId, env) else after
  }

  // ---- Recovery ----

  const MAX_RECOVERY_RETRIES: nat := 6

  predicate Recoverable(status: AttemptStatus) {
    status == Started || status == InProgress || status == RetryableFailed
  }

  /** `min(2^min(retries, 6), 60)` seconds. */
  function BackoffDelay(retries: nat): nat {
    match retries
    case 0 => 1
    case 1 => 2
    case 2 => 4
    case 3 => 8
    case 4 => 16
    case 5 => 32
    case _ => 60
  }

  function Power2(n: nat): nat {
    if n == 0 then 1 else 2 * Power2(n - 1)
  }

  function MinNat(a: nat, b: nat): nat {
    if b < a then b else a
  }

  /** The table is the doubling delay the code computes, capped at the sixth doubling and at a minute. */
  lemma BackoffDoubles(retries: nat)
    ensures BackoffDelay(retries) == MinNat(Power2(MinNat(retries, 6)), 60)
  {
    assert Power2(3) == 8;
    assert Power2(5) == 32;
    assert Power2(6) == 64;
  }

  function Until(w: World, attemptId: string): nat {
    if attemptId in w.backoff then w.backoff[attemptId] else 0
  }

  function TaskOf(w: World, a: Attempt): Option<Task> {
    if a.taskId in w.tasks then Some(w.tasks[a.taskId]) else None
  }

  function Resumed(w: World, attemptId: string, env: StageEnv): StageRun
    requires attemptId in w.attempts
  {
    var a := w.attempts[attemptId];
    RunStage(attemptId, a, TaskOf(w, a), w.orders, env)
  }

  /** Whether the recovery tick runs a stage of this attempt now. */
  predicate Resumes(w: World, attemptId: string, now: nat) {
    && w.mode == Auto && attemptId in w.attempts && Recoverable(w.attempts[attemptId].status)
    && now >= Until(w, attemptId) && w.attempts[attemptId].retries < MAX_RECOVERY_RETRIES
  }

  /** Whether the recovery tick gives this attempt up now. */
  predicate GivesUp(w: World, attemptId: string, now: nat) {
    && w.mode == Auto && attemptId in w.attempts && Recoverable(w.attempts[attemptId].status)
    && now >= Until(w, attemptId) && w.attempts[attemptId].retries >= MAX_RECOVERY_RETRIES
  }

  /** What a resumed attempt becomes: success keeps it going, failure makes it retryable, and both count. */
  function AfterRun(run: StageRun): Attempt {
    var a := run.attempt;
    var status :=
      if !run.ok then RetryableFailed
      else if a.status == Started || a.status == RetryableFailed then InProgress
      else a.status;
    a.(status := status, retries := a.retries + 1)
  }

  /** The recovery tick's visit to one attempt. */
  function Recovered(w: World, attemptId: string, now: nat, env: StageEnv): (v: World)
    ensures v.attempts.Keys == w.attempts.Keys
    ensures v.accepts == w.accepts && v.ledger == w.ledger
  {
    if Resumes(w, attemptId, now) then
      var run := Resumed(w, attemptId, env);
      var a := AfterRun(run);
      w.(attempts := w.attempts[attemptId := a],
         tasks := if run.task.Some? then w.tasks[a.taskId := run.task.value] else w.tasks,
         orders := run.orders,
         gateway := w.gateway + run.calls,
         backoff := w.backoff[attemptId := now + BackoffDelay(a.retries)])
    else if GivesUp(w, attemptId, now) then
      w.(attempts := w.attempts[attemptId := w.attempts[attemptId].(status := FailedFinal)])
    else w
  }

  function StageEnvOf(envs: map<string, StageEnv>, attemptId: string): StageEnv {
    if attemptId in envs then envs[attemptId] else StageEnv(NotReached, true, NotSent(""), NotReached)
  }

  /** A whole recovery tick, visiting the attempts in the given order. */
  function RecoveredAll(w: World, order: seq<string>, now: nat, envs: map<string, StageEnv>): World {
    if order == [] then w
    else
      var n := |order| - 1;
      Recovered(RecoveredAll(w, order[..n], now, envs), order[n], now, StageEnvOf(envs, order[n]))
  }

  function Unstuck(a: Attempt): Attempt {
    if a.status == InProgress && a.retries >= 4 then a.(status := RetryableFailed) else a
  }

  function UnstuckAll(attempts: map<string, Attempt>): map<string, Attempt> {
    map id | id in attempts :: Unstuck(attempts[id])
  }

  /** The reaper's stuck detector. */
  function StuckDetected(w: World): (v: World)
    ensures v.attempts.Keys == w.attempts.Keys
    ensures v.mode == w.mode && v.backoff == w.backoff
    ensures v.accepts == w.accepts && v.ledger == w.ledger && v.tasks == w.tasks && v.gateway == w.gateway
  {
    w.(attempts := UnstuckAll(w.attempts))
  }

  // ---- Operator and dispute actions on attempts ----

  predicate OperatorMayAct(a: Attempt) {
    a.status == RetryableFailed || a.status == PaymentUnknown
  }

  function OperatorRetried(w: World, attemptId: string): (v: World)
    ensures v.attempts.Keys == w.attempts.Keys
    ensures v.mode == w.mode && v.backoff == w.backoff
    ensures v.accepts == w.accepts && v.ledger == w.ledger && v.tasks == w.tasks && v.gateway == w.gateway
  {
    if attemptId !in w.attempts || !OperatorMayAct(w.attempts[attemptId]) then w
    else
      var a := w.attempts[attemptId];
      w.(attempts := w.attempts[attemptId := a.(status := InProgress, stage := ProviderMarkSettling, retries := a.retries + 1)])
  }

  function MarkedFinal(w: World, attemptId: string): (v: World)
    ensures v.attempts.Keys == w.attempts.Keys
    ensures v.mode == w.mode && v.backoff == w.backoff
    ensures v.accepts == w.accepts && v.ledger == w.ledger && v.tasks == w.tasks && v.gateway == w.gateway
  {
    if attemptId !in w.attempts || !OperatorMayAct(w.attempts[attemptId]) then w
    else w.(attempts := w.attempts[attemptId := w.attempts[attemptId].(status := FailedFinal)])
  }

  function WithAttempt(w: World, attemptId: Option<string>, status: AttemptStatus, restart: bool): (v: World)
    ensures v.mode == w.mode && v.backoff == w.backoff
    ensures v.gateway == w.gateway && v.orders == w.orders && v.bindings == w.bindings && v.overridden == w.overridden
    ensures v.accepts == w.accepts && v.ledger == w.ledger && v.tasks == w.tasks && v.attempts.Keys == w.attempts.Keys
  {
    if attemptId.None? || attemptId.value !in w.attempts then w
    else
      var a := w.attempts[attemptId.value];
      var b := a.(status := status, stage := if restart then ProviderMarkSettling else a.stage);
      w.(attempts := w.attempts[attemptId.value := b])
  }

  function RolledBackTasks(tasks: map<string, Task>, attemptId: string): map<string, Task> {
    map t | t in tasks :: tasks[t].(bills := AllMoved(tasks[t].bills, attemptId, Failed))
  }

  function PenalizedTasks(tasks: map<string, Task>, tradeId: Option<string>): map<string, Task> {
    map t | t in tasks :: tasks[t].(bills := PenaltyApplied(tasks[t].bills, tradeId))
  }

  function RefundedTasks(tasks: map<string, Task>, tradeId: Option<string>): map<string, Task> {
    map t | t in tasks :: tasks[t].(bills := RefundReleased(tasks[t].bills, tradeId))
  }

  function ActionTaken(w: World, d: Dispute, action: DisputeAction): (v: World)
    ensures v.attempts.Keys == w.attempts.Keys
    ensures v.mode == w.mode && v.backoff == w.backoff
    ensures v.gateway == w.gateway && v.orders == w.orders && v.bindings == w.bindings && v.overridden == w.overridden
    ensures v.accepts == w.accepts && v.ledger == w.ledger
  {
    match action
    case RetryAction => WithAttempt(w, d.attemptId, InProgress, true)
    case RollbackAction =>
      var failed := WithAttempt(w, d.attemptId, FailedFinal, false);
      if d.attemptId.None? then failed
      else failed.(tasks := RolledBackTasks(w.tasks, d.attemptId.value))
    case MarkFinalAction => WithAttempt(w, d.attemptId, FailedFinal, false)
    case ApplyPenalty => w.(tasks := PenalizedTasks(w.tasks, d.tradeId))
    case ReleaseRefund => w.(tasks := RefundedTasks(w.tasks, d.tradeId))
    case RefreshRemoteStatus => w
    case Escalate => w
    case Resolve => w
  }

  /** `apply_dispute_action`: an action the dispute's type does not allow changes nothing. */
  function DisputeActed(w: World, disputeId: string, action: DisputeAction): World {
    if disputeId in w.disputes && action in AllowedActions(w.disputes[disputeId].kind)
    then ActionTaken(w, w.disputes[disputeId], action)
    else w
  }

  // ---- Releasing matches ----

  /** The answers to the release calls, one a match; a match not listed was not reached. */
  type Deliveries = map<string, Delivery>

  function DeliveryOf(net: Deliveries, matchId: string): Delivery {
    if matchId in net then net[matchId] else NotReached
  }

  /** No task changes, except for the match it is bound to. */
  predicate OnlyRebinds(before: map<string, Task>, after: map<string, Task>) {
    && after.Keys == before.Keys
    && forall t :: t in before ==> after[t] == before[t].(bound := after[t].bound)
  }

  /** Matches are filed under their own identifiers. */
  predicate WellKeyed(bindings: map<string, Binding>) {
    forall m :: m in bindings ==> bindings[m].matchId == m
  }

  /** `release_binding_and_locks`. */
  function BindingReleased(w: World, b: Binding, status: MatchStatus, delivery: Delivery): (v: World)
    ensures v.attempts == w.attempts && v.gateway == w.gateway && v.backoff == w.backoff
    ensures v.accepts == w.accepts && v.ledger == w.ledger && v.overridden == w.overridden && v.mode == w.mode
    ensures WellKeyed(w.bindings) ==> WellKeyed(v.bindings)
    ensures KeepsSettled(w.orders, v.orders)
    ensures OnlyRebinds(w.tasks, v.tasks)
  {
    w.(lockedBuys := w.lockedBuys - {b.buyOrderId},
       lockedSells := w.lockedSells - {b.sellOrderId},
       orders := Call(w.orders, Orders.Release, b.sellOrderId, delivery).0,
       tasks := UnboundFrom(w.tasks, b),
       bindings := WithMatchStatus(w.bindings, b.matchId, status))
  }

  function UnboundFrom(tasks: map<string, Task>, b: Binding): map<string, Task> {
    if b.taskId in tasks && tasks[b.taskId].bound == Some(b.matchId)
    then tasks[b.taskId := tasks[b.taskId].(bound := None)]
    else tasks
  }

  function WithMatchStatus(bindings: map<string, Binding>, matchId: string, status: MatchStatus): map<string, Binding> {
    if matchId in bindings then bindings[matchId := bindings[matchId].(status := status)] else bindings
  }

  function Freed(status: OrderStatus): OrderStatus {
    if status == OrderStatus.Settled then status else OrderStatus.Open
  }

  /** A release call for the order of one of the matches arrives. */
  predicate Frees(bindings: map<string, Binding>, ids: set<string>, net: Deliveries, orderId: string) {
    exists m :: m in ids && m in bindings && bindings[m].sellOrderId == orderId && !DeliveryOf(net, m).NotReached?
  }

  predicate OfBuy(bindings: map<string, Binding>, ids: set<string>, orderId: string) {
    exists m :: m in ids && m in bindings && bindings[m].buyOrderId == orderId
  }

  predicate OfSell(bindings: map<string, Binding>, ids: set<string>, orderId: string) {
    exists m :: m in ids && m in bindings && bindings[m].sellOrderId == orderId
  }

  predicate Unbinds(bindings: map<string, Binding>, ids: set<string>, taskId: string, t: Task) {
    t.bound.Some? && t.bound.value in ids && t.bound.value in bindings && bindings[t.bound.value].taskId == taskId
  }

  function BuysLeft(locked: set<string>, bindings: map<string, Binding>, ids: set<string>): set<string> {
    set o | o in locked && !OfBuy(bindings, ids, o)
  }

  function SellsLeft(locked: set<string>, bindings: map<string, Binding>, ids: set<string>): set<string> {
    set o | o in locked && !OfSell(bindings, ids, o)
  }

  function FreedOrders(orders: map<string, OrderStatus>, bindings: map<string, Binding>, ids: set<string>, net: Deliveries)
    : (r: map<string, OrderStatus>)
    ensures KeepsSettled(orders, r)
  {
    map o | o in orders :: if Frees(bindings, ids, net, o) then Freed(orders[o]) else orders[o]
  }

  function UnboundTasks(tasks: map<string, Task>, bindings: map<string, Binding>, ids: set<string>): (r: map<string, Task>)
    ensures OnlyRebinds(tasks, r)
  {
    map t | t in tasks :: if Unbinds(bindings, ids, t, tasks[t]) then tasks[t].(bound := None) else tasks[t]
  }

  function Ended(bindings: map<string, Binding>, ids: set<string>, status: MatchStatus): (r: map<string, Binding>)
    ensures WellKeyed(bindings) ==> WellKeyed(r)
  {
    map m | m in bindings :: if m in ids then bindings[m].(status := status) else bindings[m]
  }

  /** Releasing a set of matches, in whatever order. */
  function MatchesReleased(w: World, ids: set<string>, status: MatchStatus, net: Deliveries): (v: World)
    ensures v.attempts == w.attempts && v.gateway == w.gateway && v.backoff == w.backoff
    ensures v.accepts == w.accepts && v.ledger == w.ledger && v.overridden == w.overridden && v.mode == w.mode
    ensures WellKeyed(w.bindings) ==> WellKeyed(v.bindings)
    ensures KeepsSettled(w.orders, v.orders)
    ensures OnlyRebinds(w.tasks, v.tasks)
  {
    w.(lockedBuys := BuysLeft(w.lockedBuys, w.bindings, ids),
       lockedSells := SellsLeft(w.lockedSells, w.bindings, ids),
       orders := FreedOrders(w.orders, w.bindings, ids, net),
       tasks := UnboundTasks(w.tasks, w.bindings, ids),
       bindings := Ended(w.bindings, ids, status))
  }

  function MatchesOf(w: World, taskId: string): set<string> {
    set m | m in w.bindings && w.bindings[m].taskId == taskId
  }

  /** `cleanup_task_bindings`: every match of the task expires, whatever its status. */
  function TaskCleaned(w: World, taskId: string, net: Deliveries): (v: World)
    ensures v.attempts == w.attempts && v.gateway == w.gateway && v.backoff == w.backoff
    ensures v.accepts == w.accepts && v.ledger == w.ledger && v.overridden == w.overridden && v.mode == w.mode
    ensures WellKeyed(w.bindings) ==> WellKeyed(v.bindings)
    ensures KeepsSettled(w.orders, v.orders)
    ensures OnlyRebinds(w.tasks, v.tasks)
  {
    MatchesReleased(w, MatchesOf(w, taskId), MatchExpired, net)
  }

  function MatchReleased(w: World, matchId: string, status: MatchStatus, delivery: Delivery): (v: World)
    ensures v.attempts == w.attempts && v.gateway == w.gateway && v.backoff == w.backoff
    ensures v.accepts == w.accepts && v.ledger == w.ledger && v.overridden == w.overridden && v.mode == w.mode
    ensures WellKeyed(w.bindings) ==> WellKeyed(v.bindings)
    ensures KeepsSettled(w.orders, v.orders)
    ensures OnlyRebinds(w.tasks, v.tasks)
  {
    if matchId in w.bindings then BindingReleased(w, w.bindings[matchId], status, delivery) else w
  }

  /** `retry_match`: the match expires and is forgotten. */
  function MatchRetried(w: World, matchId: string, delivery: Delivery): (v: World)
    ensures v.attempts == w.attempts && v.gateway == w.gateway && v.backoff == w.backoff
    ensures v.accepts == w.accepts && v.ledger == w.ledger && v.overridden == w.overridden && v.mode == w.mode
    ensures WellKeyed(w.bindings) ==> WellKeyed(v.bindings)
    ensures KeepsSettled(w.orders, v.orders)
    ensures OnlyRebinds(w.tasks, v.tasks)
  {
    var released := MatchReleased(w, matchId, MatchExpired, delivery);
    released.(bindings := WithoutBinding(released.bindings, matchId))
  }

  /** `reject_match`: an unknown match is remembered as rejected, for no task. */
  function MatchRejected(w: World, request: AcceptRequest, delivery: Delivery): (v: World)
    ensures v.attempts == w.attempts && v.gateway == w.gateway && v.backoff == w.backoff
    ensures v.accepts == w.accepts && v.ledger == w.ledger && v.overridden == w.overridden && v.mode == w.mode
    ensures WellKeyed(w.bindings) ==> WellKeyed(v.bindings)
    ensures KeepsSettled(w.orders, v.orders)
    ensures OnlyRebinds(w.tasks, v.tasks)
  {
    var matchId := Matching.BuildMatchId(request.buyOrderId, request.sellOrderId);
    if matchId in w.bindings then MatchReleased(w, matchId, Rejected, delivery)
    else
      var b := Binding(matchId, "", request.buyOrderId, request.sellOrderId, 0.0, 0.0, Rejected);
      w.(bindings := WithBinding(w.bindings, b))
  }

  // ---- Switching the mode ----

  function InFlight(w: World): set<string> {
    set m | m in w.bindings && (Active(w.bindings[m]) || w.bindings[m].status == MatchFailed)
  }

  function Interrupted(a: Attempt): Attempt {
    if a.status == Started || a.status == InProgress then a.(status := RetryableFailed) else a
  }

  function Abandoned(a: AcceptAttempt): AcceptAttempt {
    if AcceptEnded(a.status) then a else a.(status := AcceptFailed)
  }

  function InterruptedAll(attempts: map<string, Attempt>): map<string, Attempt> {
    map id | id in attempts :: Interrupted(attempts[id])
  }

  function AbandonedAll(accepts: map<string, AcceptAttempt>): map<string, AcceptAttempt> {
    map id | id in accepts :: Abandoned(accepts[id])
  }

  /** `set_market_mode` and `converge_mode_state`. */
  function ModeSwitched(w: World, mode: Mode, net: Deliveries): (v: World)
    ensures v.attempts.Keys == w.attempts.Keys
    ensures v.ledger == w.ledger && v.gateway == w.gateway
    ensures OnlyRebinds(w.tasks, v.tasks) && KeepsSettled(w.orders, v.orders) && v.overridden == w.overridden
    ensures WellKeyed(w.bindings) ==> WellKeyed(v.bindings)
  {
    if w.mode == mode then w
    else
      var released := MatchesReleased(w, InFlight(w), MatchExpired, net);
      released.(
        mode := mode,
        accepts := AbandonedAll(w.accepts),
        attempts := InterruptedAll(w.attempts))
  }

  // ---- The reaper ----

  function StoppedMatches(w: World): set<string> {
    set m | m in w.bindings && w.bindings[m].taskId in w.tasks && !w.tasks[w.bindings[m].taskId].running
  }

  function OrphanMatches(w: World): set<string> {
    set m | m in w.bindings && w.bindings[m].taskId !in w.tasks
  }

  function TaskMatches(w: World): set<string> {
    set m | m in w.bindings && w.bindings[m].taskId in w.tasks
  }

  function ActiveMatches(w: World): set<string> {
    set m | m in w.bindings && Active(w.bindings[m])
  }

  function LocksReaped(w: World): (v: World)
    ensures v == w.(lockedBuys := v.lockedBuys, lockedSells := v.lockedSells)
    ensures v.lockedBuys <= w.lockedBuys && v.lockedSells <= w.lockedSells
  {
    w.(lockedBuys := (set o | o in w.lockedBuys && OfBuy(w.bindings, ActiveMatches(w), o)),
       lockedSells := (set o | o in w.lockedSells && OfSell(w.bindings, ActiveMatches(w), o)))
  }

  /** The answers to the release calls of the reaper's three sweeps. */
  datatype ReaperEnv = ReaperEnv(stopped: Deliveries, orphans: Deliveries, offlineSeen: bool, offline: Deliveries)

  /** The first four steps of a tick: stopped tasks, stuck attempts, orphaned matches, locks. */
  function Swept(w: World, env: ReaperEnv): (v: World)
    ensures v.attempts.Keys == w.attempts.Keys
    ensures v.mode == w.mode && v.backoff == w.backoff
    ensures v.accepts == w.accepts && v.ledger == w.ledger && v.gateway == w.gateway
    ensures OnlyRebinds(w.tasks, v.tasks) && KeepsSettled(w.orders, v.orders) && v.overridden == w.overridden
    ensures WellKeyed(w.bindings) ==> WellKeyed(v.bindings)
  {
    var cleaned := MatchesReleased(w, StoppedMatches(w), MatchExpired, env.stopped);
    var unstuck := StuckDetected(cleaned);
    LocksReaped(MatchesReleased(unstuck, OrphanMatches(unstuck), MatchExpired, env.orphans))
  }

  /** `run_reaper_tick`. */
  function Reaped(w: World, env: ReaperEnv): (v: World)
    ensures v.attempts.Keys == w.attempts.Keys
    ensures v.mode == w.mode && v.backoff == w.backoff
    ensures v.accepts == w.accepts && v.ledger == w.ledger && v.gateway == w.gateway
    ensures OnlyRebinds(w.tasks, v.tasks) && KeepsSettled(w.orders, v.orders) && v.overridden == w.overridden
    ensures WellKeyed(w.bindings) ==> WellKeyed(v.bindings)
  {
    var swept := Swept(w, env);
    if env.offlineSeen then MatchesReleased(swept, TaskMatches(swept), MatchExpired, env.offline) else swept
  }

  // ---- Accepting ----

  /** What the accept handler is given: the new attempt's identifier, the market it fetches and the provider's answer. */
  datatype AcceptEnv = AcceptEnv(
    attemptId: string,
    marketAvailable: bool,
    proposals: seq<Matching.Match>,
    lock: Delivery)

  datatype AcceptReply =
    | IdempotencyConflict
    | AlreadyAccepted
    | MarketUnavailable
    | NotProposed
    | BuyOrderLocked
    | SellOrderLocked
    | BuyOrderNotFound
    | ProviderLockFailed
    | MatchAccepted

  function MatchIdOf(request: AcceptRequest): string {
    Matching.BuildMatchId(request.buyOrderId, request.sellOrderId)
  }

  const BUY_ORDER_PREFIX := "buy-order-"

  /** The task a buy order belongs to. */
  function TaskFor(tasks: map<string, Task>, buyOrderId: string): Option<string> {
    if BUY_ORDER_PREFIX <= buyOrderId && buyOrderId[|BUY_ORDER_PREFIX|..] in tasks
    then Some(buyOrderId[|BUY_ORDER_PREFIX|..])
    else None
  }

  function Proposal(proposals: seq<Matching.Match>, matchId: string): Option<Matching.Match> {
    if proposals == [] then None
    else if proposals[0].matchId == matchId then Some(proposals[0])
    else Proposal(proposals[1..], matchId)
  }

  predicate SettledOrActive(b: Binding) {
    Active(b) || b.status == MatchSettled
  }

  function WithAccept(w: World, attemptId: string, request: AcceptRequest, status: AcceptStatus): World {
    w.(accepts := w.accepts[attemptId := AcceptAttempt(request, status)])
  }

  /** An answer given without starting an accept attempt, because the client's key was used before. */
  function KnownKey(w: World, key: Option<string>, request: AcceptRequest): (r: Option<AcceptReply>)
    ensures r.Some? ==> r.value == IdempotencyConflict || r.value == AlreadyAccepted
  {
    if key.None? || key.value !in w.ledger || w.ledger[key.value] !in w.accepts then None
    else
      var known := w.accepts[w.ledger[key.value]];
      if known.request != request then Some(IdempotencyConflict)
      else if known.status == AcceptCommitted then Some(AlreadyAccepted)
      else None
  }

  /** Why a new accept attempt stops before it locks anything, and the status in which that leaves it. */
  function Refusal(w: World, request: AcceptRequest, env: AcceptEnv): (r: Option<(AcceptStatus, AcceptReply)>)
    ensures r.Some? ==> r.value.0 != AcceptCommitted && r.value.1 != MatchAccepted && r.value.1 != ProviderLockFailed
  {
    var matchId := MatchIdOf(request);
    if !env.marketAvailable then Some((AcceptFailed, MarketUnavailable))
    else if matchId in w.bindings && SettledOrActive(w.bindings[matchId]) then Some((Validating, AlreadyAccepted))
    else if Proposal(env.proposals, matchId).None? then Some((AcceptFailed, NotProposed))
    else if request.buyOrderId in w.lockedBuys then Some((Locking, BuyOrderLocked))
    else if request.sellOrderId in w.lockedSells then Some((Locking, SellOrderLocked))
    else if TaskFor(w.tasks, request.buyOrderId).None? then Some((Locking, BuyOrderNotFound))
    else None
  }

  function WithBound(tasks: map<string, Task>, taskId: string, bound: Option<string>): (r: map<string, Task>)
    requires taskId in tasks
    ensures OnlyRebinds(tasks, r)
  {
    tasks[taskId := tasks[taskId].(bound := bound)]
  }

  function WithBinding(bindings: map<string, Binding>, b: Binding): (r: map<string, Binding>)
    ensures WellKeyed(bindings) ==> WellKeyed(r)
  {
    bindings[b.matchId := b]
  }

  function WithoutBinding(bindings: map<string, Binding>, matchId: string): (r: map<string, Binding>)
    ensures WellKeyed(bindings) ==> WellKeyed(r)
  {
    bindings - {matchId}
  }

  /** The provider did not lock its order: the new match is taken back and its task is left without any. */
  function LockFailed(w: World, attemptId: string, request: AcceptRequest, taskId: string, orders: map<string, OrderStatus>)
    : (v: World)
    requires taskId in w.tasks
    ensures v.mode == w.mode && v.backoff == w.backoff && v.attempts == w.attempts && v.gateway == w.gateway
    ensures v.overridden == w.overridden && v.orders == orders
    ensures OnlyRebinds(w.tasks, v.tasks) && (WellKeyed(w.bindings) ==> WellKeyed(v.bindings))
  {
    hide OnlyRebinds, WellKeyed, MatchIdOf;
    w.(accepts := w.accepts[attemptId := AcceptAttempt(request, AcceptFailed)],
       orders := orders,
       bindings := WithoutBinding(w.bindings, MatchIdOf(request)),
       tasks := WithBound(w.tasks, taskId, None))
  }

  function LockTaken(w: World, key: Option<string>, attemptId: string, request: AcceptRequest, taskId: string,
                     chosen: Matching.Match, orders: map<string, OrderStatus>): (v: World)
    requires taskId in w.tasks
    ensures v.mode == w.mode && v.backoff == w.backoff && v.attempts == w.attempts && v.gateway == w.gateway
    ensures v.overridden == w.overridden && v.orders == orders
    ensures OnlyRebinds(w.tasks, v.tasks) && (WellKeyed(w.bindings) ==> WellKeyed(v.bindings))
  {
    hide OnlyRebinds, WellKeyed, MatchIdOf;
    var matchId := MatchIdOf(request);
    w.(accepts := w.accepts[attemptId := AcceptAttempt(request, AcceptCommitted)],
       orders := orders,
       lockedBuys := w.lockedBuys + {request.buyOrderId},
       lockedSells := w.lockedSells + {request.sellOrderId},
       bindings := WithBinding(
         w.bindings,
         Binding(matchId, taskId, request.buyOrderId, request.sellOrderId, chosen.agreedUnitPrice, chosen.agreedWorkUnits,
                 Accepted)),
       tasks := WithBound(w.tasks, taskId, Some(matchId)),
       ledger := if key.Some? then w.ledger[key.value := attemptId] else w.ledger)
  }

  lemma NothingKept(w: World)
    ensures OnlyRebinds(w.tasks, w.tasks) && KeepsSettled(w.orders, w.orders)
  {
  }

  lemma RefusalFinds(w: World, request: AcceptRequest, env: AcceptEnv)
    ensures Refusal(w, request, env).None? ==>
              && TaskFor(w.tasks, request.buyOrderId).Some? && TaskFor(w.tasks, request.buyOrderId).value in w.tasks
              && Proposal(env.proposals, MatchIdOf(request)).Some?
  {
    hide Proposal, MatchIdOf;
  }

  /** `accept_match`. */
  function AcceptHandled(w: World, key: Option<string>, request: AcceptRequest, env: AcceptEnv): (r: (World, AcceptReply))
    ensures r.0.mode == w.mode && r.0.backoff == w.backoff
    ensures r.0.attempts == w.attempts && r.0.gateway == w.gateway && r.0.overridden == w.overridden
    ensures OnlyRebinds(w.tasks, r.0.tasks) && KeepsSettled(w.orders, r.0.orders)
    ensures WellKeyed(w.bindings) ==> WellKeyed(r.0.bindings)
  {
    hide KnownKey, Refusal, Call, MatchIdOf, KeepsSettled, OnlyRebinds, WellKeyed, TaskFor, Proposal, LockTaken, LockFailed;
    CallKeepsSettled(w.orders, Orders.Lock, request.sellOrderId, env.lock);
    NothingKept(w);
    RefusalFinds(w, request, env);
    var known := KnownKey(w, key, request);
    var refusal := Refusal(w, request, env);
    if known.Some? then (w, known.value)
    else if refusal.Some? then (WithAccept(w, env.attemptId, request, refusal.value.0), refusal.value.1)
    else
      var taskId := TaskFor(w.tasks, request.buyOrderId).value;
      var (orders, ok) := Call(w.orders, Orders.Lock, request.sellOrderId, env.lock);
      if ok then
        (LockTaken(w, key, env.attemptId, request, taskId, Proposal(env.proposals, MatchIdOf(request)).value, orders), MatchAccepted)
      else
        (LockFailed(w, env.attemptId, request, taskId, orders), ProviderLockFailed)
  }

  // ---- Steps ----

  datatype Step =
    | Poll(taskId: string, report: PollReport, attemptId: string, env: SettleEnv)
    | SetRunning(taskId: string, running: bool)
    | CleanTask(taskId: string, net: Deliveries)
    | Recover(attemptId: string, now: nat, stageEnv: StageEnv)
    | DetectStuck
    | SwitchMode(mode: Mode, net: Deliveries)
    | OperatorRetry(attemptId: string)
    | OperatorMarkFinal(attemptId: string)
    | OpenDispute(disputeId: string, dispute: Dispute)
    | ActOnDispute(disputeId: string, action: DisputeAction)
    | CancelMatch(request: AcceptRequest, delivery: Delivery)
    | ExpireMatch(request: AcceptRequest, delivery: Delivery)
    | RetryMatch(request: AcceptRequest, delivery: Delivery)
    | RejectMatch(request: AcceptRequest, delivery: Delivery)
    | Accept(key: Option<string>, request: AcceptRequest, acceptEnv: AcceptEnv)
    | Reap(reaperEnv: ReaperEnv)
    | Provider(orderAction: Action, orderId: string)
    | AddOrder(orderId: string)

  /** A request to the provider by anybody; what its operator overrides is remembered. */
  function ProviderHandled(w: World, action: Action, orderId: string): (v: World)
    ensures v == w.(orders := v.orders, overridden := v.overridden)
  {
    w.(orders := Handled(w.orders, action, orderId).0,
       overridden := if action == Cancel || action == Expire then w.overridden + {orderId} else w.overridden)
  }

  function OrderAdded(w: World, orderId: string): (v: World)
    ensures v == w.(orders := v.orders) && KeepsSettled(w.orders, v.orders)
  {
    if orderId in w.orders then w else w.(orders := w.orders[orderId := OrderStatus.Open])
  }

  function Next(w: World, step: Step): World {
    match step
    case Poll(taskId, report, attemptId, env) => Polled(w, taskId, report, attemptId, env)
    case SetRunning(taskId, running) =>
      if taskId in w.tasks then w.(tasks := w.tasks[taskId := w.tasks[taskId].(running := running)]) else w
    case CleanTask(taskId, net) => TaskCleaned(w, taskId, net)
    case Recover(attemptId, now, env) => Recovered(w, attemptId, now, env)
    case DetectStuck => StuckDetected(w)
    case SwitchMode(mode, net) => ModeSwitched(w, mode, net)
    case OperatorRetry(attemptId) => OperatorRetried(w, attemptId)
    case OperatorMarkFinal(attemptId) => MarkedFinal(w, attemptId)
    case OpenDispute(disputeId, dispute) => w.(disputes := w.disputes[disputeId := dispute])
    case ActOnDispute(disputeId, action) => DisputeActed(w, disputeId, action)
    case CancelMatch(request, delivery) => MatchReleased(w, MatchIdOf(request), MatchCancelled, delivery)
    case ExpireMatch(request, delivery) => MatchReleased(w, MatchIdOf(request), MatchExpired, delivery)
    case RetryMatch(request, delivery) => MatchRetried(w, MatchIdOf(request), delivery)
    case RejectMatch(request, delivery) => MatchRejected(w, request, delivery)
    case Accept(key, request, env) => if env.attemptId in w.accepts then w else AcceptHandled(w, key, request, env).0
    case Reap(env) => Reaped(w, env)
    case Provider(action, orderId) => ProviderHandled(w, action, orderId)
    case AddOrder(orderId) => OrderAdded(w, orderId)
  }

  /** The state after a run. */
  function Run(w: World, steps: seq<Step>): World {
    if steps == [] then w else Next(Run(w, steps[..|steps| - 1]), steps[|steps| - 1])
  }

  /** The steps that do to tasks no more than bind or unbind them. */
  predicate Rebinding(step: Step) {
    !step.Poll? && !step.SetRunning? && !step.Recover? && !step.ActOnDispute?
  }

  lemma RebindingSteps(w: World, step: Step)
    requires Rebinding(step)
    ensures OnlyRebinds(w.tasks, Next(w, step).tasks)
  {
    hide TaskCleaned, ModeSwitched, MatchReleased, MatchRetried, MatchRejected, AcceptHandled, Reaped, ProviderHandled, OrderAdded;
    hide StuckDetected, OperatorRetried, MarkedFinal, MatchIdOf, OnlyRebinds, KeepsSettled, WellKeyed, Polled, Recovered;
    hide DisputeActed;
    SameTasksRebind(w.tasks);
    match step
    case CleanTask(taskId, net) =>
    case SwitchMode(mode, net) =>
    case CancelMatch(request, delivery) =>
    case ExpireMatch(request, delivery) =>
    case RetryMatch(request, delivery) =>
    case RejectMatch(request, delivery) =>
    case Accept(key, request, env) =>
    case Reap(env) =>
    case DetectStuck =>
    case OperatorRetry(attemptId) =>
    case OperatorMarkFinal(attemptId) =>
    case OpenDispute(disputeId, dispute) =>
    case Provider(action, orderId) =>
    case AddOrder(orderId) =>
    case _ =>
  }

  lemma SameTasksRebind(tasks: map<string, Task>)
    ensures OnlyRebinds(tasks, tasks)
  {
  }

  lemma AcceptsLeft(w: World, step: Step)
    requires !step.Accept? && !step.SwitchMode?
    ensures Next(w, step).accepts == w.accepts && Next(w, step).ledger == w.ledger
  {
    hide TaskCleaned, MatchReleased, MatchRetried, MatchRejected, Reaped, ProviderHandled, OrderAdded, OnlyRebinds, KeepsSettled;
    hide WellKeyed;
    hide Polled, Recovered, OperatorRetried, MarkedFinal, StuckDetected, AllowedActions, ActionTaken, MatchIdOf;
  }

  lemma PollStep(w: World, step: Step)
    requires step.Poll?
    ensures Next(w, step) == Polled(w, step.taskId, step.report, step.attemptId, step.env)
  {
    hide Polled;
  }

  lemma RecoverStep(w: World, step: Step)
    requires step.Recover?
    ensures Next(w, step) == Recovered(w, step.attemptId, step.now, step.stageEnv)
  {
    hide Recovered;
  }

  lemma GatewayLeft(w: World, step: Step)
    requires !step.Poll? && !step.Recover?
    ensures Next(w, step).gateway == w.gateway
  {
    hide TaskCleaned, MatchReleased, MatchRetried, MatchRejected, Reaped, ProviderHandled, OrderAdded, OnlyRebinds, KeepsSettled;
    hide WellKeyed, ModeSwitched, AcceptHandled, OperatorRetried, MarkedFinal, StuckDetected, AllowedActions, ActionTaken;
    hide MatchIdOf;
  }
}
