/**
 * One settlement attempt: the pipeline of `maybe_merge_and_settle` and the stage runs of
 * `run_settlement_attempt_stage` in apps/agentd/src/main.rs, with the gateway's and provider's answers as inputs.
 */
module Settlement {
  import opened Wrappers
  import opened Market
  import opened Billing
  import opened Orders

  // ---- Entities ----

  /** What a gateway request carries; its hash is the attempt's payload hash. */
  datatype StageRequest =
    | InvoiceRequest(taskId: string, providerJobId: string, interval: nat, windowIndexes: seq<nat>, gross: real)
    | PaymentRequest(invoiceId: string, windowIndexes: seq<nat>, gross: real)
    | RecordRequest(invoiceId: string, paymentId: string, windowIndexes: seq<nat>)

  /** What became of the windows an attempt was made for. */
  datatype Fate = InHand | WentBack | WereSettled | WereStranded

  /** A settlement attempt. The last field is history: what the pass that made the attempt did with its windows. */
  datatype Attempt = Attempt(
    taskId: string,
    matchId: string,
    sellOrderId: string,
    windowIndexes: seq<nat>,
    invoiceId: Option<string>,
    paymentId: Option<string>,
    status: AttemptStatus,
    stage: Stage,
    retries: nat,
    payload: Option<StageRequest>,
    settlingDone: bool,
    settledDone: bool,
    recorded: bool,
    fate: Fate)

  type Positive = n: nat | n > 0 witness 1

  /**
   * A task. The last three fields are its history: every charge admitted, those paid for by the settle loop, and those
   * drained into an attempt that failed at its first provider call.
   */
  datatype Task = Task(
    providerJobId: string,
    interval: nat,
    mergeCount: Positive,
    running: bool,
    pending: seq<Charge>,
    settled: set<nat>,
    lastWindow: nat,
    spent: real,
    totalPaid: real,
    bills: seq<Bill>,
    bound: Option<string>,
    admitted: seq<Charge>,
    paid: seq<Charge>,
    stranded: seq<Charge>)

  datatype MatchStatus =
    | Accepted | MatchSettling | MatchSettled | Rejected | MatchFailed
    | MatchRetryable | MatchPaymentUnknown | MatchFailedFinal | MatchCancelled | MatchExpired

  datatype Binding = Binding(
    matchId: string,
    taskId: string,
    buyOrderId: string,
    sellOrderId: string,
    unitPrice: real,
    workUnits: real,
    status: MatchStatus)

  predicate Active(b: Binding) {
    b.status == Accepted || b.status == MatchSettling
  }

  /**
   * What becomes of a call to the gateway: confirmed with an id; sent and carried out, but not confirmed; sent and not carried
   * out; or never sent, as when the connection is refused. The report is the error the agent is given, which tells whether
   * the request was sent.
   */
  datatype GatewayAnswer =
    | Confirmed(id: string)
    | Unconfirmed(id: string, report: string)
    | NotDone(report: string)
    | NotSent(report: string)

  /** A call to the gateway and what became of it. */
  datatype GatewayCall =
    | InvoiceCall(attemptId: string, answer: GatewayAnswer)
    | PaymentCall(attemptId: string, answer: GatewayAnswer)
    | ResultCall(attemptId: string, delivery: Delivery)

  // ---- Requests ----

  function Indexes(windows: seq<Charge>): (r: seq<nat>)
    ensures |r| == |windows|
  {
    seq(|windows|, i requires 0 <= i < |windows| => windows[i].windowIndex)
  }

  function Sum(windows: seq<Charge>): real {
    if windows == [] then 0.0 else Sum(windows[..|windows| - 1]) + windows[|windows| - 1].owed
  }

  function CreateInvoiceRequest(taskId: string, task: Task, windows: seq<Charge>): StageRequest {
    InvoiceRequest(taskId, task.providerJobId, task.interval, Indexes(windows), Sum(windows))
  }

  function SettlePaymentRequest(invoiceId: string, windows: seq<Charge>): StageRequest {
    PaymentRequest(invoiceId, Indexes(windows), Sum(windows))
  }

  function RecordResultRequest(invoiceId: string, paymentId: string, windows: seq<Charge>): StageRequest {
    RecordRequest(invoiceId, paymentId, Indexes(windows))
  }

  // ---- The attempt helpers ----

  predicate SameIdentity(a: Attempt, b: Attempt) {
    && b.taskId == a.taskId && b.matchId == a.matchId && b.sellOrderId == a.sellOrderId
    && b.windowIndexes == a.windowIndexes
  }

  function NewAttempt(taskId: string, binding: Binding, windows: seq<Charge>): Attempt {
    Attempt(taskId, binding.matchId, binding.sellOrderId, Indexes(windows), None, None, Started, ProviderMarkSettling, 0, None,
            false, false, false, InHand)
  }

  function Advance(a: Attempt, next: Stage): Attempt {
    a.(stage := if CanTransitionStage(a.stage, next) then next else a.stage,
       status := if CanTransitionAttempt(a.status, InProgress) then InProgress else a.status)
  }

  function Fail(a: Attempt, status: AttemptStatus, stage: Stage): Attempt {
    a.(status := if CanTransitionAttempt(a.status, status) then status else a.status,
       stage := stage,
       retries := a.retries + 1)
  }

  function Finalize(a: Attempt, invoiceId: string, paymentId: string): Attempt {
    a.(status := if CanTransitionAttempt(a.status, Committed) then Committed else a.status,
       stage := ProviderMarkSettled,
       invoiceId := Some(invoiceId),
       paymentId := Some(paymentId),
       settledDone := true,
       recorded := true)
  }

  // ---- One pass of the settle loop ----

  /** The answers a pass gets: from the provider, from the action guard and from the gateway. */
  datatype SettleEnv = SettleEnv(
    settling: Delivery,
    invoiceBlocked: bool,
    invoice: GatewayAnswer,
    paymentBlocked: bool,
    payment: GatewayAnswer,
    recordBlocked: bool,
    recorded: Delivery,
    settled: Delivery,
    release: Delivery)

  /** What a pass reads and changes: its attempt, task and match, the provider's orders and the gateway's log. */
  datatype Scene = Scene(
    attempt: Attempt,
    task: Task,
    binding: Binding,
    locked: bool,
    orders: map<string, OrderStatus>,
    calls: seq<GatewayCall>)

  /**
   * What a pass may not do: unsettle an order, change whose attempt or match it is, or call the attempt settled with the
   * provider's order not settled.
   */
  predicate Keeps(s: Scene, r: Scene) {
    && KeepsSettled(s.orders, r.orders)
    && SameIdentity(s.attempt, r.attempt)
    && r.binding == s.binding.(status := r.binding.status)
    && (r.attempt.settledDone && !s.attempt.settledDone ==> IsSettled(r.orders, s.binding.sellOrderId))
  }

  function Drained(task: Task): seq<Charge>
    requires |task.pending| >= task.mergeCount
  {
    task.pending[..task.mergeCount]
  }

  function Opening(taskId: string, task: Task, attemptId: string, binding: Binding, orders: map<string, OrderStatus>)
    : Scene
    requires |task.pending| >= task.mergeCount
  {
    var windows := Drained(task);
    Scene(
      NewAttempt(taskId, binding, windows),
      task.(pending := task.pending[task.mergeCount..],
            bills := Upserted(task.bills, attemptId, binding.matchId, windows, binding.unitPrice, task.interval)),
      binding.(status := MatchSettling),
      true, orders, [])
  }

  /** `release_after_failure`: the match fails, its order and locks are released and the task is unbound. */
  function Release(s: Scene, status: MatchStatus, delivery: Delivery): (r: Scene)
    ensures Keeps(s, r) && !r.locked
  {
    s.(binding := s.binding.(status := status),
       locked := false,
       orders := Call(s.orders, Orders.Release, s.binding.sellOrderId, delivery).0,
       task := s.task.(bound := None))
  }

  /** The windows go back to the front of the queue and the match is released. */
  function PutBack(s: Scene, windows: seq<Charge>, attempt: Attempt, status: MatchStatus, delivery: Delivery): (r: Scene)
    ensures SameIdentity(s.attempt, attempt) && attempt.settledDone == s.attempt.settledDone ==> Keeps(s, r)
    ensures !r.locked
  {
    Release(
      s.(attempt := attempt.(fate := WentBack), task := s.task.(pending := windows + s.task.pending)), status, delivery)
  }

  function WithBillStatus(task: Task, attemptId: string, next: BillStatus): Task {
    task.(bills := Advanced(task.bills, attemptId, next))
  }

  /** The scene after a call to the gateway. */
  function Asked(s: Scene, call: GatewayCall): Scene {
    s.(calls := s.calls + [call])
  }

  function SettleScene(s: Scene, windows: seq<Charge>, taskId: string, attemptId: string, env: SettleEnv): (r: Scene)
    ensures Keeps(s, r)
  {
    hide Call, InvoiceScene, CanTransitionStage, CanTransitionAttempt, CreateInvoiceRequest;
    CallKeepsSettled(s.orders, Orders.MarkSettling, s.binding.sellOrderId, env.settling);
    var (orders, ok) := Call(s.orders, Orders.MarkSettling, s.binding.sellOrderId, env.settling);
    var marked := s.(orders := orders);
    if ok then InvoiceScene(AfterMark(marked, windows, taskId), windows, attemptId, env)
    else
      Release(marked.(attempt := Fail(s.attempt, RetryableFailed, ProviderMarkSettling).(fate := WereStranded),
                      task := s.task.(stranded := s.task.stranded + windows)),
              MatchRetryable, env.release)
  }

  function AfterMark(s: Scene, windows: seq<Charge>, taskId: string): Scene {
    s.(attempt := Advance(s.attempt.(settlingDone := true), CreateInvoice)
                  .(payload := Some(CreateInvoiceRequest(taskId, s.task, windows))))
  }

  function InvoiceScene(s: Scene, windows: seq<Charge>, attemptId: string, env: SettleEnv): (r: Scene)
    ensures Keeps(s, r)
  {
    hide PaymentScene, CanTransitionStage, CanTransitionAttempt, Advanced, Billing.Invoice, SettlePaymentRequest;
    var failed := Fail(s.attempt, RetryableFailed, CreateInvoice);
    if env.invoiceBlocked then
      PutBack(s, windows, failed, MatchRetryable, env.release)
    else
      var asked := Asked(s, InvoiceCall(attemptId, env.invoice));
      if !env.invoice.Confirmed? then
        PutBack(asked, windows, Fail(failed, RetryableFailed, SettlePayment), MatchRetryable, env.release)
      else
        PaymentScene(AfterInvoice(asked, windows, env.invoice.id, attemptId), windows, env.invoice.id, attemptId, env)
  }

  function AfterInvoice(s: Scene, windows: seq<Charge>, invoiceId: string, attemptId: string): Scene {
    var task := s.task.(bills := Billing.Invoice(s.task.bills, attemptId, invoiceId));
    s.(attempt := Advance(s.attempt.(invoiceId := Some(invoiceId)), SettlePayment)
                  .(payload := Some(SettlePaymentRequest(invoiceId, windows))),
       task := WithBillStatus(task, attemptId, Invoiced))
  }

  function PaymentScene(s: Scene, windows: seq<Charge>, invoiceId: string, attemptId: string, env: SettleEnv): (r: Scene)
    ensures Keeps(s, r)
  {
    hide RecordScene, CanTransitionStage, CanTransitionAttempt, Advanced, Paying, RecordResultRequest;
    if env.paymentBlocked then PutBack(s, windows, s.attempt, MatchRetryable, env.release)
    else
      var asked := Asked(s, PaymentCall(attemptId, env.payment));
      if !env.payment.Confirmed? then PutBack(asked, windows, s.attempt, MatchRetryable, env.release)
      else
        var paymentId := env.payment.id;
        RecordScene(
          AfterPayment(asked, windows, invoiceId, paymentId, attemptId), windows, invoiceId, paymentId, attemptId, env)
  }

  function AfterPayment(s: Scene, windows: seq<Charge>, invoiceId: string, paymentId: string, attemptId: string): Scene {
    var task := s.task.(bills := Paying(s.task.bills, attemptId, paymentId));
    s.(attempt := Advance(s.attempt.(paymentId := Some(paymentId)), RecordResult)
                  .(payload := Some(RecordResultRequest(invoiceId, paymentId, windows))),
       task := WithBillStatus(task, attemptId, PaymentSubmitted))
  }

  function RecordScene(s: Scene, windows: seq<Charge>, invoiceId: string, paymentId: string, attemptId: string,
                       env: SettleEnv): (r: Scene)
    ensures Keeps(s, r)
  {
    hide CommitScene, CanTransitionStage, CanTransitionAttempt, Advanced, Sum, Round, IndexSet;
    var failed := Fail(s.attempt, PaymentUnknown, RecordResult);
    if env.recordBlocked then PutBack(s, windows, failed, MatchPaymentUnknown, env.release)
    else
      var asked := Asked(s, ResultCall(attemptId, env.recorded));
      if !env.recorded.Answered? then
        var task := WithBillStatus(s.task, attemptId, Disputed);
        PutBack(asked.(task := task), windows, failed, MatchPaymentUnknown, env.release)
      else CommitScene(AfterRecord(asked, windows, attemptId), invoiceId, paymentId, env)
  }

  function IndexSet(windows: seq<Charge>): set<nat> {
    set i | 0 <= i < |windows| :: windows[i].windowIndex
  }

  function AfterRecord(s: Scene, windows: seq<Charge>, attemptId: string): Scene {
    var task := WithBillStatus(s.task, attemptId, Paid);
    s.(attempt := Advance(s.attempt, ProviderMarkSettled).(fate := WereSettled),
       task := task.(settled := task.settled + IndexSet(windows),
                     totalPaid := task.totalPaid + Round(Sum(windows)),
                     paid := task.paid + windows),
       binding := s.binding.(status := MatchSettled))
  }

  function CommitScene(s: Scene, invoiceId: string, paymentId: string, env: SettleEnv): (r: Scene)
    ensures Keeps(s, r)
  {
    var (orders, ok) := Call(s.orders, Orders.MarkSettled, s.binding.sellOrderId, env.settled);
    var marked := s.(orders := orders);
    if !ok then
      Release(marked.(attempt := Fail(s.attempt, FailedFinal, ProviderMarkSettled)), MatchFailedFinal, env.release)
    else
      marked.(attempt := Finalize(s.attempt, invoiceId, paymentId), task := AutoFinalized(s.task, s.binding))
  }

  /** A trade that has delivered what was committed ends by itself. */
  function AutoFinalized(task: Task, binding: Binding): Task {
    if TradeAutoTerminates(binding.workUnits, Delivered(task.bills, binding.matchId)) then
      var bills := FinalizedTrade(task.bills, binding.matchId, binding.workUnits);
      task.(bills := bills, totalPaid := PaidOut(bills))
    else task
  }

  // ---- One stage run of recovery ----

  datatype StageEnv = StageEnv(delivery: Delivery, blocked: bool, answer: GatewayAnswer, recorded: Delivery)

  datatype StageRun = StageRun(
    attempt: Attempt,
    task: Option<Task>,
    orders: map<string, OrderStatus>,
    calls: seq<GatewayCall>,
    ok: bool)

  /**
   * What a run may not do: unsettle an order, touch more of the task than its bills, change whose attempt it is or what
   * became of its windows, or call the attempt settled with the provider's order not settled.
   */
  predicate Contained(a: Attempt, task: Option<Task>, orders: map<string, OrderStatus>, run: StageRun) {
    && SameIdentity(a, run.attempt) && run.attempt.fate == a.fate
    && (if task.None? then run.task.None?
        else run.task.Some? && run.task.value == task.value.(bills := run.task.value.bills))
    && KeepsSettled(orders, run.orders)
    && (run.attempt.settledDone && !a.settledDone ==> IsSettled(run.orders, a.sellOrderId))
  }

  /** The attempt's windows as its bills remember them. */
  function ReplayWindows(bills: seq<Bill>, attemptId: string): seq<Charge> {
    if bills == [] then []
    else
      var n := |bills| - 1;
      ReplayWindows(bills[..n], attemptId) +
      if bills[n].attemptId == attemptId then [Charge(bills[n].windowIndex, bills[n].gross)] else []
  }

  function RunStage(attemptId: string, a: Attempt, task: Option<Task>, orders: map<string, OrderStatus>, env: StageEnv)
    : (run: StageRun)
    ensures Contained(a, task, orders, run)
  {
    hide RunCreateInvoice, RunSettlePayment, RunRecordResult;
    match a.stage
    case ProviderMarkSettling =>
      var (after, ok) := Call(orders, Orders.MarkSettling, a.sellOrderId, env.delivery);
      StageRun(if ok then a.(settlingDone := true, stage := CreateInvoice) else a, task, after, [], ok)
    case CreateInvoice => RunCreateInvoice(attemptId, a, task, orders, env)
    case SettlePayment => RunSettlePayment(attemptId, a, task, orders, env)
    case RecordResult => RunRecordResult(attemptId, a, task, orders, env)
    case ProviderMarkSettled =>
      var (after, ok) := Call(orders, Orders.MarkSettled, a.sellOrderId, env.delivery);
      StageRun(if ok then a.(settledDone := true, recorded := true, status := Committed) else a, task, after, [], ok)
  }

  function RunCreateInvoice(attemptId: string, a: Attempt, task: Option<Task>, orders: map<string, OrderStatus>,
                            env: StageEnv): (run: StageRun)
    ensures Contained(a, task, orders, run)
  {
    var failed := StageRun(a, task, orders, [], false);
    if a.invoiceId.Some? then StageRun(a.(stage := SettlePayment), task, orders, [], true)
    else if task.None? then failed
    else
      var windows := ReplayWindows(task.value.bills, attemptId);
      var request := CreateInvoiceRequest(a.taskId, task.value, windows);
      var asked := [InvoiceCall(attemptId, env.answer)];
      if windows == [] || env.blocked || (a.payload.Some? && a.payload.value != request) then failed
      else if !env.answer.Confirmed? then failed.(calls := asked)
      else
        var invoiceId := env.answer.id;
        var t := task.value.(bills := Billing.Invoice(task.value.bills, attemptId, invoiceId));
        StageRun(
          a.(invoiceId := Some(invoiceId), payload := Some(request), stage := SettlePayment),
          Some(WithBillStatus(t, attemptId, Invoiced)), orders, asked, true)
  }

  function RunSettlePayment(attemptId: string, a: Attempt, task: Option<Task>, orders: map<string, OrderStatus>,
                            env: StageEnv): (run: StageRun)
    ensures Contained(a, task, orders, run)
  {
    var failed := StageRun(a, task, orders, [], false);
    if a.paymentId.Some? then StageRun(a.(stage := RecordResult), task, orders, [], true)
    else if a.invoiceId.None? || task.None? then failed
    else
      var windows := ReplayWindows(task.value.bills, attemptId);
      var asked := [PaymentCall(attemptId, env.answer)];
      if env.blocked then failed
      else if !env.answer.Confirmed? then failed.(calls := asked)
      else
        var paymentId := env.answer.id;
        var request := SettlePaymentRequest(a.invoiceId.value, windows);
        var t := task.value.(bills := Paying(task.value.bills, attemptId, paymentId));
        StageRun(
          a.(paymentId := Some(paymentId), payload := Some(request), stage := RecordResult),
          Some(WithBillStatus(t, attemptId, PaymentSubmitted)), orders, asked, true)
  }

  function RunRecordResult(attemptId: string, a: Attempt, task: Option<Task>, orders: map<string, OrderStatus>,
                           env: StageEnv): (run: StageRun)
    ensures Contained(a, task, orders, run)
  {
    var failed := StageRun(a, task, orders, [], false);
    if a.recorded then StageRun(a.(stage := ProviderMarkSettled), task, orders, [], true)
    else if a.invoiceId.None? || a.paymentId.None? || task.None? then failed
    else
      var windows := ReplayWindows(task.value.bills, attemptId);
      var request := RecordResultRequest(a.invoiceId.value, a.paymentId.value, windows);
      var asked := [ResultCall(attemptId, env.recorded)];
      if env.blocked then failed
      else if !env.recorded.Answered? then
        failed.(task := Some(WithBillStatus(task.value, attemptId, Disputed)), calls := asked)
      else
        StageRun(
          a.(recorded := true, payload := Some(request), stage := ProviderMarkSettled),
          Some(WithBillStatus(task.value, attemptId, Paid)), orders, asked, true)
  }
}
