/**
 * What the gateway did against what the agent knows of it: a call can be carried out and its answer lost, and to the
 * agent that looks like a call that was never carried out.
 */
module Gateway {
  import opened Wrappers
  import opened Market
  import opened Billing
  import opened Orders
  import opened Settlement
  import opened Agent
  import opened Safety
  import opened Replay

  // ---- What was asked, confirmed, lost and made ----

  /** What became of the attempt's calls for an invoice, oldest first. */
  function InvoiceAnswers(calls: seq<GatewayCall>, attemptId: string): seq<GatewayAnswer> {
    if calls == [] then []
    else
      var c := calls[|calls| - 1];
      var earlier := InvoiceAnswers(calls[..|calls| - 1], attemptId);
      if c.InvoiceCall? && c.attemptId == attemptId then earlier + [c.answer] else earlier
  }

  /** What became of its calls for a payment. */
  function PaymentAnswers(calls: seq<GatewayCall>, attemptId: string): seq<GatewayAnswer> {
    if calls == [] then []
    else
      var c := calls[|calls| - 1];
      var earlier := PaymentAnswers(calls[..|calls| - 1], attemptId);
      if c.PaymentCall? && c.attemptId == attemptId then earlier + [c.answer] else earlier
  }

  function ConfirmedIds(answers: seq<GatewayAnswer>): seq<string> {
    if answers == [] then []
    else
      var n := |answers| - 1;
      ConfirmedIds(answers[..n]) + if answers[n].Confirmed? then [answers[n].id] else []
  }

  /** Those carried out with the answer lost. */
  function LostIds(answers: seq<GatewayAnswer>): seq<string> {
    if answers == [] then []
    else
      var n := |answers| - 1;
      LostIds(answers[..n]) + if answers[n].Unconfirmed? then [answers[n].id] else []
  }

  /** Those carried out. */
  function MadeIds(answers: seq<GatewayAnswer>): seq<string> {
    if answers == [] then []
    else
      var n := |answers| - 1;
      MadeIds(answers[..n]) + if Made(answers[n]) then [answers[n].id] else []
  }

  /** Carried out. */
  predicate Made(answer: GatewayAnswer) {
    answer.Confirmed? || answer.Unconfirmed?
  }

  /** Those sent: the agent is told of the others that they were not. */
  function Sent(answers: seq<GatewayAnswer>): seq<GatewayAnswer> {
    if answers == [] then []
    else
      var n := |answers| - 1;
      Sent(answers[..n]) + if answers[n].NotSent? then [] else [answers[n]]
  }

  /** The invoices the gateway made for the attempt, whether or not the agent was told. */
  function InvoicesMade(calls: seq<GatewayCall>, attemptId: string): seq<string> {
    MadeIds(InvoiceAnswers(calls, attemptId))
  }

  /** The payments the gateway took for the attempt, whether or not the agent was told. */
  function PaymentsTaken(calls: seq<GatewayCall>, attemptId: string): seq<string> {
    MadeIds(PaymentAnswers(calls, attemptId))
  }

  /** How many calls for an invoice were sent for the attempt. */
  function InvoicesSent(calls: seq<GatewayCall>, id: string): nat {
    |Sent(InvoiceAnswers(calls, id))|
  }

  function PaymentsSent(calls: seq<GatewayCall>, id: string): nat {
    |Sent(PaymentAnswers(calls, id))|
  }

  function InvoiceSent(c: GatewayCall, id: string): nat {
    if c.InvoiceCall? && c.attemptId == id && !c.answer.NotSent? then 1 else 0
  }

  function PaymentSent(c: GatewayCall, id: string): nat {
    if c.PaymentCall? && c.attemptId == id && !c.answer.NotSent? then 1 else 0
  }

  lemma OneMoreCall(calls: seq<GatewayCall>, c: GatewayCall, id: string)
    ensures PaymentAnswers(calls + [c], id) ==
              if c.PaymentCall? && c.attemptId == id then PaymentAnswers(calls, id) + [c.answer] else PaymentAnswers(calls, id)
    ensures InvoiceAnswers(calls + [c], id) ==
              if c.InvoiceCall? && c.attemptId == id then InvoiceAnswers(calls, id) + [c.answer] else InvoiceAnswers(calls, id)
  {
    assert (calls + [c])[..|calls|] == calls;
  }

  lemma OneMoreSent(calls: seq<GatewayCall>, c: GatewayCall, id: string)
    ensures InvoicesSent(calls + [c], id) == InvoicesSent(calls, id) + InvoiceSent(c, id)
    ensures PaymentsSent(calls + [c], id) == PaymentsSent(calls, id) + PaymentSent(c, id)
  {
    OneMoreCall(calls, c, id);
    hide InvoiceAnswers, PaymentAnswers, Sent;
    if c.PaymentCall? && c.attemptId == id {
      OneMoreAnswer(PaymentAnswers(calls, id), c.answer);
    } else if c.InvoiceCall? && c.attemptId == id {
      OneMoreAnswer(InvoiceAnswers(calls, id), c.answer);
    }
  }

  lemma OneMoreMade(calls: seq<GatewayCall>, c: GatewayCall, id: string)
    ensures |InvoicesMade(calls + [c], id)| ==
              |InvoicesMade(calls, id)| + if c.InvoiceCall? && c.attemptId == id && Made(c.answer) then 1 else 0
    ensures |PaymentsTaken(calls + [c], id)| ==
              |PaymentsTaken(calls, id)| + if c.PaymentCall? && c.attemptId == id && Made(c.answer) then 1 else 0
  {
    OneMoreCall(calls, c, id);
    hide InvoiceAnswers, PaymentAnswers, MadeIds, Made;
    if c.PaymentCall? && c.attemptId == id {
      OneMoreAnswer(PaymentAnswers(calls, id), c.answer);
    } else if c.InvoiceCall? && c.attemptId == id {
      OneMoreAnswer(InvoiceAnswers(calls, id), c.answer);
    }
  }

  lemma LastSent(calls: seq<GatewayCall>, id: string)
    requires calls != []
    ensures var n := |calls| - 1;
            && InvoicesSent(calls, id) == InvoicesSent(calls[..n], id) + InvoiceSent(calls[n], id)
            && PaymentsSent(calls, id) == PaymentsSent(calls[..n], id) + PaymentSent(calls[n], id)
  {
    hide InvoicesSent, PaymentsSent, InvoiceSent, PaymentSent;
    var n := |calls| - 1;
    assert calls[..n] + [calls[n]] == calls;
    OneMoreSent(calls[..n], calls[n], id);
  }

  lemma NothingSent(id: string)
    ensures InvoicesSent([], id) == 0 && PaymentsSent([], id) == 0
    ensures InvoicesMade([], id) == [] && PaymentsTaken([], id) == []
  {
  }

  lemma {:induction false} MadeOrLost(answers: seq<GatewayAnswer>)
    ensures multiset(MadeIds(answers)) == multiset(ConfirmedIds(answers)) + multiset(LostIds(answers))
    ensures |MadeIds(answers)| <= |Sent(answers)|
  {
    if answers != [] {
      MadeOrLost(answers[..|answers| - 1]);
    }
  }

  lemma OneMoreAnswer(answers: seq<GatewayAnswer>, answer: GatewayAnswer)
    ensures ConfirmedIds(answers + [answer]) == ConfirmedIds(answers) + if answer.Confirmed? then [answer.id] else []
    ensures |MadeIds(answers + [answer])| == |MadeIds(answers)| + if Made(answer) then 1 else 0
    ensures |Sent(answers + [answer])| == |Sent(answers)| + if answer.NotSent? then 0 else 1
  {
    assert (answers + [answer])[..|answers|] == answers;
  }

  lemma {:induction false} ConfirmedAnswers(calls: seq<GatewayCall>, attemptId: string)
    ensures ConfirmedInvoices(calls, attemptId) == ConfirmedIds(InvoiceAnswers(calls, attemptId))
    ensures ConfirmedPayments(calls, attemptId) == ConfirmedIds(PaymentAnswers(calls, attemptId))
  {
    hide ConfirmedIds;
    if calls == [] {
      NothingConfirmed();
    } else {
      var n := |calls| - 1;
      ConfirmedAnswers(calls[..n], attemptId);
      match calls[n]
      case InvoiceCall(_, answer) => OneMoreAnswer(InvoiceAnswers(calls[..n], attemptId), answer);
      case PaymentCall(_, answer) => OneMoreAnswer(PaymentAnswers(calls[..n], attemptId), answer);
      case ResultCall(_, _) =>
    }
  }

  lemma NothingConfirmed()
    ensures ConfirmedIds([]) == []
  {
  }

  function HeldInvoice(w: World, attemptId: string): Option<string> {
    if attemptId in w.attempts then w.attempts[attemptId].invoiceId else None
  }

  function HeldPayment(w: World, attemptId: string): Option<string> {
    if attemptId in w.attempts then w.attempts[attemptId].paymentId else None
  }

  /**
   * Over every run the gateway has made for an attempt exactly the invoice the attempt holds and those whose answer was
   * lost, and has taken exactly the payment the attempt holds and those whose answer was lost.
   */
  lemma MadeIsHeldOrLost(w: World, steps: seq<Step>, attemptId: string)
    requires Initial(w)
    ensures var v := Run(w, steps);
            && multiset(InvoicesMade(v.gateway, attemptId)) ==
                 multiset(Listed(HeldInvoice(v, attemptId))) + multiset(LostIds(InvoiceAnswers(v.gateway, attemptId)))
            && multiset(PaymentsTaken(v.gateway, attemptId)) ==
                 multiset(Listed(HeldPayment(v, attemptId))) + multiset(LostIds(PaymentAnswers(v.gateway, attemptId)))
  {
    hide Run, Initial, ConfirmedIds, LostIds, MadeIds, ConfirmedInvoices, ConfirmedPayments, InvoiceAnswers, PaymentAnswers;
    hide AttemptOk;
    var v := Run(w, steps);
    RunIsSafe(w, steps);
    ConfirmedAnswers(v.gateway, attemptId);
    MadeOrLost(InvoiceAnswers(v.gateway, attemptId));
    MadeOrLost(PaymentAnswers(v.gateway, attemptId));
  }

  // ---- What the agent cannot tell apart ----

  function SeenAnswer(answer: GatewayAnswer): GatewayAnswer {
    if answer.Unconfirmed? then NotDone(answer.report) else answer
  }

  /** A call as the agent sees it: without a confirmation, one carried out looks like one sent and not carried out. */
  function SeenCall(c: GatewayCall): GatewayCall {
    match c
    case InvoiceCall(id, answer) => InvoiceCall(id, SeenAnswer(answer))
    case PaymentCall(id, answer) => PaymentCall(id, SeenAnswer(answer))
    case ResultCall(id, delivery) => ResultCall(id, if delivery.AnswerLost? then NotReached else delivery)
  }

  function SeenLog(calls: seq<GatewayCall>): seq<GatewayCall> {
    seq(|calls|, i requires 0 <= i < |calls| => SeenCall(calls[i]))
  }

  /** The same to the agent in every respect. */
  predicate LooksAlike(v: World, u: World) {
    u == v.(gateway := u.gateway) && SeenLog(u.gateway) == SeenLog(v.gateway)
  }

  lemma AlikeCalls(c: GatewayCall, d: GatewayCall, id: string)
    requires SeenCall(c) == SeenCall(d)
    ensures InvoiceSent(c, id) == InvoiceSent(d, id) && PaymentSent(c, id) == PaymentSent(d, id)
  {
  }

  lemma {:induction false} AlikeAsksAlike(a: seq<GatewayCall>, b: seq<GatewayCall>, id: string)
    requires SeenLog(a) == SeenLog(b)
    ensures InvoicesSent(a, id) == InvoicesSent(b, id) && PaymentsSent(a, id) == PaymentsSent(b, id)
  {
    hide InvoicesSent, PaymentsSent, SeenCall, InvoiceSent, PaymentSent;
    assert |SeenLog(a)| == |a| && |SeenLog(b)| == |b|;
    if a == [] {
      assert b == [];
    } else {
      var n := |a| - 1;
      assert SeenLog(a)[n] == SeenLog(b)[n];
      assert SeenLog(a[..n]) == SeenLog(a)[..n] && SeenLog(b[..n]) == SeenLog(b)[..n];
      AlikeAsksAlike(a[..n], b[..n], id);
      AlikeCalls(a[n], b[n], id);
      LastSent(a, id);
      LastSent(b, id);
    }
  }

  // ---- The worst that can have happened ----

  function WorstAnswer(answer: GatewayAnswer): GatewayAnswer {
    if answer.NotDone? then Unconfirmed("lost", answer.report) else answer
  }

  function WorstCall(c: GatewayCall): GatewayCall {
    match c
    case InvoiceCall(id, answer) => InvoiceCall(id, WorstAnswer(answer))
    case PaymentCall(id, answer) => PaymentCall(id, WorstAnswer(answer))
    case ResultCall(_, _) => c
  }

  function WorstLog(calls: seq<GatewayCall>): (r: seq<GatewayCall>)
    ensures |r| == |calls|
  {
    seq(|calls|, i requires 0 <= i < |calls| => WorstCall(calls[i]))
  }

  lemma WorstLooksAlike(calls: seq<GatewayCall>)
    ensures SeenLog(WorstLog(calls)) == SeenLog(calls)
  {
  }

  lemma {:induction false} WorstMakesAll(calls: seq<GatewayCall>, id: string)
    ensures |InvoicesMade(WorstLog(calls), id)| == InvoicesSent(calls, id)
    ensures |PaymentsTaken(WorstLog(calls), id)| == PaymentsSent(calls, id)
  {
    hide InvoicesSent, PaymentsSent, InvoicesMade, PaymentsTaken, WorstLog;
    if calls == [] {
      assert WorstLog(calls) == [];
      NothingSent(id);
    } else {
      var n := |calls| - 1;
      WorstMakesAll(calls[..n], id);
      LastSent(calls, id);
      WorstConcat(calls[..n], [calls[n]]);
      WorstOfOne(calls[n]);
      assert calls[..n] + [calls[n]] == calls;
      OneMoreMade(WorstLog(calls[..n]), WorstCall(calls[n]), id);
    }
  }

  function WorstSettle(env: SettleEnv): SettleEnv {
    env.(invoice := WorstAnswer(env.invoice), payment := WorstAnswer(env.payment))
  }

  function WorstStage(env: StageEnv): StageEnv {
    env.(answer := WorstAnswer(env.answer))
  }

  /** The same step, with every call that was sent and not carried out carried out without a confirmation. */
  function WorstStep(step: Step): Step {
    match step
    case Poll(taskId, report, attemptId, env) => Poll(taskId, report, attemptId, WorstSettle(env))
    case Recover(attemptId, now, env) => Recover(attemptId, now, WorstStage(env))
    case _ => step
  }

  function WorstSteps(steps: seq<Step>): (r: seq<Step>)
    ensures |r| == |steps|
  {
    seq(|steps|, i requires 0 <= i < |steps| => WorstStep(steps[i]))
  }

  function WorstScene(s: Scene): Scene {
    s.(calls := WorstLog(s.calls))
  }

  lemma WorstAsked(s: Scene, call: GatewayCall)
    ensures WorstScene(Asked(s, call)) == Asked(WorstScene(s), WorstCall(call))
  {
    assert WorstLog(s.calls + [call]) == WorstLog(s.calls) + [WorstCall(call)];
  }

  lemma WorstCommit(s: Scene, invoiceId: string, paymentId: string, env: SettleEnv)
    ensures CommitScene(WorstScene(s), invoiceId, paymentId, WorstSettle(env)) ==
              WorstScene(CommitScene(s, invoiceId, paymentId, env))
  {
    hide Call, AutoFinalized, Fail, Finalize, WorstLog;
  }

  lemma WorstRecord(s: Scene, windows: seq<Charge>, invoiceId: string, paymentId: string, attemptId: string, env: SettleEnv)
    ensures RecordScene(WorstScene(s), windows, invoiceId, paymentId, attemptId, WorstSettle(env)) ==
              WorstScene(RecordScene(s, windows, invoiceId, paymentId, attemptId, env))
  {
    hide Call, CommitScene, Fail, Advance, WithBillStatus, Sum, Round, IndexSet, WorstLog;
    WorstAsked(s, ResultCall(attemptId, env.recorded));
    var asked := Asked(s, ResultCall(attemptId, env.recorded));
    WorstCommit(AfterRecord(asked, windows, attemptId), invoiceId, paymentId, env);
  }

  lemma WorstPayment(s: Scene, windows: seq<Charge>, invoiceId: string, attemptId: string, env: SettleEnv)
    ensures PaymentScene(WorstScene(s), windows, invoiceId, attemptId, WorstSettle(env)) ==
              WorstScene(PaymentScene(s, windows, invoiceId, attemptId, env))
  {
    hide Call, RecordScene, Advance, WithBillStatus, RecordResultRequest, Paying, WorstLog;
    WorstAsked(s, PaymentCall(attemptId, env.payment));
    if env.payment.Confirmed? {
      var asked := Asked(s, PaymentCall(attemptId, env.payment));
      WorstRecord(AfterPayment(asked, windows, invoiceId, env.payment.id, attemptId), windows, invoiceId, env.payment.id,
                  attemptId, env);
    }
  }

  lemma WorstInvoice(s: Scene, windows: seq<Charge>, attemptId: string, env: SettleEnv)
    ensures InvoiceScene(WorstScene(s), windows, attemptId, WorstSettle(env)) ==
              WorstScene(InvoiceScene(s, windows, attemptId, env))
  {
    hide Call, PaymentScene, Fail, Advance, WithBillStatus, SettlePaymentRequest, Billing.Invoice, WorstLog;
    WorstAsked(s, InvoiceCall(attemptId, env.invoice));
    if env.invoice.Confirmed? {
      var asked := Asked(s, InvoiceCall(attemptId, env.invoice));
      WorstPayment(AfterInvoice(asked, windows, env.invoice.id, attemptId), windows, env.invoice.id, attemptId, env);
    }
  }

  lemma WorstPass(s: Scene, windows: seq<Charge>, taskId: string, attemptId: string, env: SettleEnv)
    requires s.calls == []
    ensures SettleScene(s, windows, taskId, attemptId, WorstSettle(env)) ==
              WorstScene(SettleScene(s, windows, taskId, attemptId, env))
  {
    hide Call, InvoiceScene, Fail, Advance, CreateInvoiceRequest;
    assert WorstScene(s) == s;
    var after := Call(s.orders, Orders.MarkSettling, s.binding.sellOrderId, env.settling).0;
    var marked := AfterMark(s.(orders := after), windows, taskId);
    assert WorstScene(marked) == marked;
    WorstInvoice(marked, windows, attemptId, env);
  }

  predicate WorstOf(run: StageRun, worst: StageRun) {
    worst == run.(calls := WorstLog(run.calls))
  }

  lemma WorstInvoiceRun(attemptId: string, a: Attempt, task: Option<Task>, orders: map<string, OrderStatus>, env: StageEnv)
    ensures WorstOf(RunCreateInvoice(attemptId, a, task, orders, env), RunCreateInvoice(attemptId, a, task, orders, WorstStage(env)))
  {
    hide ReplayWindows, CreateInvoiceRequest, WithBillStatus, Billing.Invoice, Contained, WorstLog;
    assert WorstLog([]) == [];
    WorstOfOne(InvoiceCall(attemptId, env.answer));
  }

  lemma WorstPaymentRun(attemptId: string, a: Attempt, task: Option<Task>, orders: map<string, OrderStatus>, env: StageEnv)
    ensures WorstOf(RunSettlePayment(attemptId, a, task, orders, env), RunSettlePayment(attemptId, a, task, orders, WorstStage(env)))
  {
    hide ReplayWindows, SettlePaymentRequest, WithBillStatus, Paying, Contained, WorstLog;
    assert WorstLog([]) == [];
    WorstOfOne(PaymentCall(attemptId, env.answer));
  }

  lemma WorstRecordRun(attemptId: string, a: Attempt, task: Option<Task>, orders: map<string, OrderStatus>, env: StageEnv)
    ensures WorstOf(RunRecordResult(attemptId, a, task, orders, env), RunRecordResult(attemptId, a, task, orders, WorstStage(env)))
  {
    hide ReplayWindows, RecordResultRequest, WithBillStatus, Contained, WorstLog;
    assert WorstLog([]) == [];
    WorstOfOne(ResultCall(attemptId, env.recorded));
  }

  lemma WorstOfOne(call: GatewayCall)
    ensures WorstLog([call]) == [WorstCall(call)]
  {
  }

  lemma WorstStageRun(attemptId: string, a: Attempt, task: Option<Task>, orders: map<string, OrderStatus>, env: StageEnv)
    ensures WorstOf(RunStage(attemptId, a, task, orders, env), RunStage(attemptId, a, task, orders, WorstStage(env)))
  {
    hide Call, RunCreateInvoice, RunSettlePayment, RunRecordResult, Contained, WorstLog;
    assert WorstLog([]) == [];
    match a.stage
    case CreateInvoice => WorstInvoiceRun(attemptId, a, task, orders, env);
    case SettlePayment => WorstPaymentRun(attemptId, a, task, orders, env);
    case RecordResult => WorstRecordRun(attemptId, a, task, orders, env);
    case ProviderMarkSettling =>
    case ProviderMarkSettled =>
  }

  /** The state the worst leads to. */
  function Worst(w: World): World {
    w.(gateway := WorstLog(w.gateway))
  }

  lemma WorstConcat(a: seq<GatewayCall>, b: seq<GatewayCall>)
    ensures WorstLog(a + b) == WorstLog(a) + WorstLog(b)
  {
  }

  // ---- Steps do not look at the log ----

  lemma ReleasesIgnoreLog(w: World, g: seq<GatewayCall>, ids: set<string>, status: MatchStatus, net: Deliveries)
    ensures MatchesReleased(w.(gateway := g), ids, status, net) == MatchesReleased(w, ids, status, net).(gateway := g)
  {
    hide BuysLeft, SellsLeft, FreedOrders, UnboundTasks, Agent.Ended, KeepsSettled, OnlyRebinds, WellKeyed;
  }

  lemma ReleaseIgnoresLog(w: World, g: seq<GatewayCall>, b: Binding, status: MatchStatus, delivery: Delivery)
    ensures BindingReleased(w.(gateway := g), b, status, delivery) == BindingReleased(w, b, status, delivery).(gateway := g)
  {
    hide Call, UnboundFrom, WithMatchStatus, KeepsSettled, OnlyRebinds, WellKeyed;
  }

  lemma MatchStepsIgnoreLog(w: World, g: seq<GatewayCall>, matchId: string, status: MatchStatus, delivery: Delivery)
    ensures MatchReleased(w.(gateway := g), matchId, status, delivery) ==
              MatchReleased(w, matchId, status, delivery).(gateway := g)
    ensures MatchRetried(w.(gateway := g), matchId, delivery) == MatchRetried(w, matchId, delivery).(gateway := g)
  {
    hide BindingReleased, WithoutBinding, KeepsSettled, OnlyRebinds, WellKeyed;
    if matchId in w.bindings {
      ReleaseIgnoresLog(w, g, w.bindings[matchId], status, delivery);
      ReleaseIgnoresLog(w, g, w.bindings[matchId], MatchExpired, delivery);
    }
  }

  lemma RejectIgnoresLog(w: World, g: seq<GatewayCall>, request: AcceptRequest, delivery: Delivery)
    ensures MatchRejected(w.(gateway := g), request, delivery) == MatchRejected(w, request, delivery).(gateway := g)
  {
    MatchStepsIgnoreLog(w, g, MatchIdOf(request), Rejected, delivery);
    hide MatchReleased, WithBinding, KeepsSettled, OnlyRebinds, WellKeyed, Matching.BuildMatchId;
  }

  lemma ModeIgnoresLog(w: World, g: seq<GatewayCall>, mode: Mode, net: Deliveries)
    ensures ModeSwitched(w.(gateway := g), mode, net) == ModeSwitched(w, mode, net).(gateway := g)
  {
    ReleasesIgnoreLog(w, g, InFlight(w), MatchExpired, net);
    hide MatchesReleased, AbandonedAll, InterruptedAll, InFlight, KeepsSettled, OnlyRebinds, WellKeyed;
    InFlightIgnoresLog(w, g);
  }

  lemma InFlightIgnoresLog(w: World, g: seq<GatewayCall>)
    ensures InFlight(w.(gateway := g)) == InFlight(w)
    ensures StoppedMatches(w.(gateway := g)) == StoppedMatches(w) && OrphanMatches(w.(gateway := g)) == OrphanMatches(w)
    ensures TaskMatches(w.(gateway := g)) == TaskMatches(w) && ActiveMatches(w.(gateway := g)) == ActiveMatches(w)
  {
  }

  lemma SweepIgnoresLog(w: World, g: seq<GatewayCall>, env: ReaperEnv)
    ensures Swept(w.(gateway := g), env) == Swept(w, env).(gateway := g)
  {
    InFlightIgnoresLog(w, g);
    ReleasesIgnoreLog(w, g, StoppedMatches(w), MatchExpired, env.stopped);
    var unstuck := StuckDetected(MatchesReleased(w, StoppedMatches(w), MatchExpired, env.stopped));
    hide MatchesReleased, UnstuckAll, StoppedMatches, OrphanMatches, KeepsSettled, OnlyRebinds, WellKeyed, OfBuy, OfSell;
    InFlightIgnoresLog(unstuck, g);
    ReleasesIgnoreLog(unstuck, g, OrphanMatches(unstuck), MatchExpired, env.orphans);
    InFlightIgnoresLog(MatchesReleased(unstuck, OrphanMatches(unstuck), MatchExpired, env.orphans), g);
    hide ActiveMatches;
  }

  lemma ReapIgnoresLog(w: World, g: seq<GatewayCall>, env: ReaperEnv)
    ensures Reaped(w.(gateway := g), env) == Reaped(w, env).(gateway := g)
  {
    SweepIgnoresLog(w, g, env);
    var swept := Swept(w, env);
    hide Swept, MatchesReleased, TaskMatches, KeepsSettled, OnlyRebinds, WellKeyed;
    InFlightIgnoresLog(swept, g);
    ReleasesIgnoreLog(swept, g, TaskMatches(swept), MatchExpired, env.offline);
  }

  lemma OperatorIgnoresLog(w: World, g: seq<GatewayCall>, id: string)
    ensures OperatorRetried(w.(gateway := g), id) == OperatorRetried(w, id).(gateway := g)
    ensures MarkedFinal(w.(gateway := g), id) == MarkedFinal(w, id).(gateway := g)
  {
    if id !in w.attempts || !OperatorMayAct(w.attempts[id]) {
      assert OperatorRetried(w, id) == w && MarkedFinal(w, id) == w;
    }
  }

  lemma OverrideIgnoresLog(w: World, g: seq<GatewayCall>, id: Option<string>, status: AttemptStatus, restart: bool)
    ensures WithAttempt(w.(gateway := g), id, status, restart) == WithAttempt(w, id, status, restart).(gateway := g)
  {
    if id.None? || id.value !in w.attempts {
      assert WithAttempt(w, id, status, restart) == w;
    }
  }

  lemma DisputeIgnoresLog(w: World, g: seq<GatewayCall>, d: Dispute, action: DisputeAction)
    ensures ActionTaken(w.(gateway := g), d, action) == ActionTaken(w, d, action).(gateway := g)
  {
    hide RolledBackTasks, PenalizedTasks, RefundedTasks, WithAttempt;
    match action
    case RetryAction => OverrideIgnoresLog(w, g, d.attemptId, InProgress, true);
    case RollbackAction => OverrideIgnoresLog(w, g, d.attemptId, FailedFinal, false);
    case MarkFinalAction => OverrideIgnoresLog(w, g, d.attemptId, FailedFinal, false);
    case ApplyPenalty =>
    case ReleaseRefund =>
    case RefreshRemoteStatus =>
    case Escalate =>
    case Resolve =>
  }

  lemma AcceptWritesIgnoreLog(w: World, g: seq<GatewayCall>, id: string, request: AcceptRequest, status: AcceptStatus)
    ensures WithAccept(w.(gateway := g), id, request, status) == WithAccept(w, id, request, status).(gateway := g)
  {
  }

  lemma LocksIgnoreLog(w: World, g: seq<GatewayCall>, key: Option<string>, id: string, request: AcceptRequest, taskId: string,
                       chosen: Matching.Match, orders: map<string, OrderStatus>)
    requires taskId in w.tasks
    ensures LockTaken(w.(gateway := g), key, id, request, taskId, chosen, orders) ==
              LockTaken(w, key, id, request, taskId, chosen, orders).(gateway := g)
    ensures LockFailed(w.(gateway := g), id, request, taskId, orders) ==
              LockFailed(w, id, request, taskId, orders).(gateway := g)
  {
    hide MatchIdOf, WithBinding, WithoutBinding, WithBound, OnlyRebinds, WellKeyed;
  }

  lemma AcceptIgnoresLog(w: World, g: seq<GatewayCall>, key: Option<string>, request: AcceptRequest, env: AcceptEnv)
    ensures AcceptHandled(w.(gateway := g), key, request, env).0 == AcceptHandled(w, key, request, env).0.(gateway := g)
  {
    hide KnownKey, Refusal, TaskFor, Proposal, Call, MatchIdOf, KeepsSettled, OnlyRebinds, WellKeyed, WithAccept, LockTaken;
    hide LockFailed;
    AcceptAnswersIgnoreLog(w, g, key, request, env);
    if KnownKey(w, key, request).Some? {
      assert AcceptHandled(w, key, request, env).0 == w;
    } else if Refusal(w, request, env).Some? {
      AcceptWritesIgnoreLog(w, g, env.attemptId, request, Refusal(w, request, env).value.0);
    } else {
      RefusalFinds(w, request, env);
      LocksIgnoreLog(w, g, key, env.attemptId, request, TaskFor(w.tasks, request.buyOrderId).value,
                     Proposal(env.proposals, MatchIdOf(request)).value,
                     Call(w.orders, Orders.Lock, request.sellOrderId, env.lock).0);
    }
  }

  lemma AcceptAnswersIgnoreLog(w: World, g: seq<GatewayCall>, key: Option<string>, request: AcceptRequest, env: AcceptEnv)
    ensures KnownKey(w.(gateway := g), key, request) == KnownKey(w, key, request)
    ensures Refusal(w.(gateway := g), request, env) == Refusal(w, request, env)
  {
    hide MatchIdOf, TaskFor, Proposal;
  }

  /** The steps that call the gateway. */
  predicate Calls(step: Step) {
    step.Poll? || step.Recover?
  }

  predicate OfMatches(step: Step) {
    || step.CleanTask? || step.CancelMatch? || step.ExpireMatch? || step.RetryMatch? || step.RejectMatch?
    || step.Accept?
  }

  lemma MatchesIgnoreLog(w: World, g: seq<GatewayCall>, step: Step)
    requires OfMatches(step)
    ensures Next(w.(gateway := g), step) == Next(w, step).(gateway := g)
  {
    hide Polled, Recovered, TaskCleaned, StuckDetected, ModeSwitched, OperatorRetried, MarkedFinal, DisputeActed, MatchReleased;
    hide MatchRetried, MatchRejected, AcceptHandled, Reaped, ProviderHandled, OrderAdded, MatchIdOf, KeepsSettled, OnlyRebinds;
    hide WellKeyed;
    if step.CleanTask? {
      CleanIgnoresLog(w, g, step.taskId, step.net);
    } else if step.RejectMatch? {
      RejectIgnoresLog(w, g, step.request, step.delivery);
    } else if step.Accept? {
      AcceptIgnoresLog(w, g, step.key, step.request, step.acceptEnv);
    } else {
      MatchStepsIgnoreLog(w, g, MatchIdOf(step.request), MatchCancelled, step.delivery);
      MatchStepsIgnoreLog(w, g, MatchIdOf(step.request), MatchExpired, step.delivery);
    }
  }

  lemma CleanIgnoresLog(w: World, g: seq<GatewayCall>, taskId: string, net: Deliveries)
    ensures TaskCleaned(w.(gateway := g), taskId, net) == TaskCleaned(w, taskId, net).(gateway := g)
  {
    hide MatchesReleased, MatchesOf, KeepsSettled, OnlyRebinds, WellKeyed;
    TaskMatchesIgnoreLog(w, g, taskId);
    ReleasesIgnoreLog(w, g, MatchesOf(w, taskId), MatchExpired, net);
  }

  predicate OfAttempts(step: Step) {
    step.OperatorRetry? || step.OperatorMarkFinal? || step.ActOnDispute? || step.DetectStuck?
  }

  lemma DisputeStepIgnoresLog(w: World, g: seq<GatewayCall>, disputeId: string, action: DisputeAction)
    ensures DisputeActed(w.(gateway := g), disputeId, action) == DisputeActed(w, disputeId, action).(gateway := g)
  {
    hide ActionTaken, AllowedActions;
    if disputeId in w.disputes {
      DisputeIgnoresLog(w, g, w.disputes[disputeId], action);
    }
  }

  lemma AttemptsIgnoreLog(w: World, g: seq<GatewayCall>, step: Step)
    requires OfAttempts(step)
    ensures Next(w.(gateway := g), step) == Next(w, step).(gateway := g)
  {
    hide Polled, Recovered, TaskCleaned, StuckDetected, ModeSwitched, OperatorRetried, MarkedFinal, DisputeActed, MatchReleased;
    hide MatchRetried, MatchRejected, AcceptHandled, Reaped, ProviderHandled, OrderAdded, MatchIdOf, KeepsSettled, OnlyRebinds;
    hide WellKeyed;
    if step.ActOnDispute? {
      DisputeStepIgnoresLog(w, g, step.disputeId, step.action);
    } else if step.DetectStuck? {
      StuckIgnoresLog(w, g);
    } else {
      OperatorIgnoresLog(w, g, step.attemptId);
    }
  }

  predicate Plain(step: Step) {
    step.SetRunning? || step.OpenDispute? || step.Provider? || step.AddOrder?
  }

  lemma OrderStepsIgnoreLog(w: World, g: seq<GatewayCall>, action: Action, orderId: string)
    ensures ProviderHandled(w.(gateway := g), action, orderId) == ProviderHandled(w, action, orderId).(gateway := g)
    ensures OrderAdded(w.(gateway := g), orderId) == OrderAdded(w, orderId).(gateway := g)
  {
    hide Handled, KeepsSettled;
    if orderId in w.orders {
      assert OrderAdded(w, orderId) == w;
    }
  }

  lemma PlainIgnoreLog(w: World, g: seq<GatewayCall>, step: Step)
    requires Plain(step)
    ensures Next(w.(gateway := g), step) == Next(w, step).(gateway := g)
  {
    hide Polled, Recovered, TaskCleaned, StuckDetected, ModeSwitched, OperatorRetried, MarkedFinal, DisputeActed, MatchReleased;
    hide MatchRetried, MatchRejected, AcceptHandled, Reaped, ProviderHandled, OrderAdded, MatchIdOf, KeepsSettled, OnlyRebinds;
    hide WellKeyed;
    if step.Provider? {
      OrderStepsIgnoreLog(w, g, step.orderAction, step.orderId);
    } else if step.AddOrder? {
      OrderStepsIgnoreLog(w, g, Orders.Lock, step.orderId);
    } else if step.SetRunning? {
      if step.taskId in w.tasks {
        var after := w.tasks[step.taskId := w.tasks[step.taskId].(running := step.running)];
        assert Next(w, step) == w.(tasks := after);
        assert Next(w.(gateway := g), step) == w.(gateway := g, tasks := after);
      } else {
        assert Next(w, step) == w;
      }
    } else {
      var after := w.disputes[step.disputeId := step.dispute];
      assert Next(w, step) == w.(disputes := after);
      assert Next(w.(gateway := g), step) == w.(gateway := g, disputes := after);
    }
  }

  lemma SwitchesAndSweepsIgnoreLog(w: World, g: seq<GatewayCall>, step: Step)
    requires step.SwitchMode? || step.Reap?
    ensures Next(w.(gateway := g), step) == Next(w, step).(gateway := g)
  {
    hide Polled, Recovered, TaskCleaned, StuckDetected, ModeSwitched, OperatorRetried, MarkedFinal, DisputeActed, MatchReleased;
    hide MatchRetried, MatchRejected, AcceptHandled, Reaped, ProviderHandled, OrderAdded, MatchIdOf, KeepsSettled, OnlyRebinds;
    hide WellKeyed;
    if step.Reap? {
      ReapIgnoresLog(w, g, step.reaperEnv);
    } else {
      ModeIgnoresLog(w, g, step.mode, step.net);
    }
  }

  lemma OthersIgnoreLog(w: World, g: seq<GatewayCall>, step: Step)
    requires !Calls(step)
    ensures Next(w.(gateway := g), step) == Next(w, step).(gateway := g)
  {
    hide Next;
    if OfMatches(step) {
      MatchesIgnoreLog(w, g, step);
    } else if OfAttempts(step) {
      AttemptsIgnoreLog(w, g, step);
    } else if Plain(step) {
      PlainIgnoreLog(w, g, step);
    } else {
      SwitchesAndSweepsIgnoreLog(w, g, step);
    }
  }

  lemma StuckIgnoresLog(w: World, g: seq<GatewayCall>)
    ensures StuckDetected(w.(gateway := g)) == StuckDetected(w).(gateway := g)
  {
  }

  lemma TaskMatchesIgnoreLog(w: World, g: seq<GatewayCall>, taskId: string)
    ensures MatchesOf(w.(gateway := g), taskId) == MatchesOf(w, taskId)
  {
  }

  lemma WorstPoll(w: World, taskId: string, report: PollReport, attemptId: string, env: SettleEnv)
    ensures Polled(Worst(w), taskId, report, attemptId, WorstSettle(env)) == Worst(Polled(w, taskId, report, attemptId, env))
  {
    hide PassDone, Admitted, Admits, WorstLog;
    if taskId in w.tasks {
      WorstPassDone(w.(tasks := w.tasks[taskId := Admitted(w.tasks[taskId], report)]), taskId, attemptId, env);
    }
  }

  lemma WorstPassDone(w: World, taskId: string, attemptId: string, env: SettleEnv)
    ensures PassDone(Worst(w), taskId, attemptId, WorstSettle(env)) == Worst(PassDone(w, taskId, attemptId, env))
  {
    hide SettleScene, WorstLog, Drained;
    if Settleable(w, taskId) && attemptId !in w.attempts {
      var task := w.tasks[taskId];
      var s := Opening(taskId, task, attemptId, w.bindings[task.bound.value], w.orders);
      assert s.calls == [];
      hide Opening;
      WorstPass(s, Drained(task), taskId, attemptId, env);
      WorstConcat(w.gateway, PassScene(w, taskId, attemptId, env).calls);
    }
  }

  lemma WorstResume(w: World, attemptId: string, now: nat, env: StageEnv)
    requires Resumes(w, attemptId, now)
    ensures Recovered(Worst(w), attemptId, now, WorstStage(env)) == Worst(Recovered(w, attemptId, now, env))
  {
    hide RunStage, WorstLog, BackoffDelay, TaskOf, WorstStage;
    var a := w.attempts[attemptId];
    WorstStageRun(attemptId, a, TaskOf(w, a), w.orders, env);
    TaskOfIgnoresLog(w, a);
    var run, worst := Resumed(w, attemptId, env), Resumed(Worst(w), attemptId, WorstStage(env));
    assert WorstOf(run, worst);
    WorstCounts(run, worst);
    WorstConcat(w.gateway, run.calls);
    hide AfterRun, Resumed;
  }

  lemma WorstCounts(run: StageRun, worst: StageRun)
    requires WorstOf(run, worst)
    ensures AfterRun(worst) == AfterRun(run)
  {
  }

  lemma TaskOfIgnoresLog(w: World, a: Attempt)
    ensures TaskOf(Worst(w), a) == TaskOf(w, a)
  {
  }

  lemma WorstNotResumed(w: World, attemptId: string, now: nat, env: StageEnv)
    requires !Resumes(w, attemptId, now)
    ensures Recovered(Worst(w), attemptId, now, WorstStage(env)) == Worst(Recovered(w, attemptId, now, env))
  {
    hide WorstLog, Resumed, BackoffDelay, WorstStage;
    var u := Worst(w);
    assert !Resumes(u, attemptId, now) && (GivesUp(u, attemptId, now) <==> GivesUp(w, attemptId, now));
    if GivesUp(w, attemptId, now) {
      var after := w.attempts[attemptId := w.attempts[attemptId].(status := FailedFinal)];
      assert Recovered(w, attemptId, now, env) == w.(attempts := after);
      assert Recovered(u, attemptId, now, WorstStage(env)) == u.(attempts := after);
    } else {
      assert Recovered(w, attemptId, now, env) == w && Recovered(u, attemptId, now, WorstStage(env)) == u;
    }
  }

  lemma WorstVisit(w: World, attemptId: string, now: nat, env: StageEnv)
    ensures Recovered(Worst(w), attemptId, now, WorstStage(env)) == Worst(Recovered(w, attemptId, now, env))
  {
    hide Recovered, Resumes, Worst, WorstStage;
    if Resumes(w, attemptId, now) {
      WorstResume(w, attemptId, now, env);
    } else {
      WorstNotResumed(w, attemptId, now, env);
    }
  }

  lemma WorstNext(w: World, step: Step)
    ensures Next(Worst(w), WorstStep(step)) == Worst(Next(w, step))
  {
    if step.Poll? {
      hide Next, Polled, Worst, WorstSettle;
      PollStep(w, step);
      PollStep(Worst(w), WorstStep(step));
      WorstPoll(w, step.taskId, step.report, step.attemptId, step.env);
    } else if step.Recover? {
      hide Next, Recovered, Worst, WorstStage;
      RecoverStep(w, step);
      RecoverStep(Worst(w), WorstStep(step));
      WorstVisit(w, step.attemptId, step.now, step.stageEnv);
    } else {
      hide Next, WorstLog;
      OthersIgnoreLog(w, WorstLog(w.gateway), step);
      GatewayLeft(w, step);
    }
  }

  /** A run in which the worst happened at every call, and which the agent cannot tell from the one it made. */
  lemma {:induction false} WorstRun(w: World, steps: seq<Step>)
    requires w.gateway == []
    ensures Run(w, WorstSteps(steps)) == Worst(Run(w, steps))
  {
    hide Next, WorstStep;
    if steps == [] {
      assert Worst(w) == w;
    } else {
      var n := |steps| - 1;
      assert WorstSteps(steps)[..n] == WorstSteps(steps[..n]);
      WorstRun(w, steps[..n]);
      WorstNext(Run(w, steps[..n]), steps[n]);
      hide Worst;
    }
  }

  // ---- What the agent can be sure of ----

  /** In no run that looks like this one has the gateway taken two payments for the attempt. */
  ghost predicate SureOfOnePayment(w: World, steps: seq<Step>, id: string) {
    forall other: seq<Step> :: LooksAlike(Run(w, steps), Run(w, other)) ==> |PaymentsTaken(Run(w, other).gateway, id)| <= 1
  }

  ghost predicate SureOfOneInvoice(w: World, steps: seq<Step>, id: string) {
    forall other: seq<Step> :: LooksAlike(Run(w, steps), Run(w, other)) ==> |InvoicesMade(Run(w, other).gateway, id)| <= 1
  }

  lemma WorstIsAlike(w: World, steps: seq<Step>)
    requires Initial(w)
    ensures LooksAlike(Run(w, steps), Run(w, WorstSteps(steps)))
    ensures Run(w, WorstSteps(steps)).gateway == WorstLog(Run(w, steps).gateway)
  {
    hide Run, Next, WorstLog, SeenLog;
    WorstRun(w, steps);
    WorstLooksAlike(Run(w, steps).gateway);
  }

  /**
   * Over every run the agent can be sure of at most one payment for an attempt exactly when settle_payment has been sent for
   * it at most once, and of at most one invoice exactly when create_invoice has been sent for it at most once.
   */
  lemma SureExactlyIfSentOnce(w: World, steps: seq<Step>, id: string)
    requires Initial(w)
    ensures SureOfOnePayment(w, steps, id) <==> PaymentsSent(Run(w, steps).gateway, id) <= 1
    ensures SureOfOneInvoice(w, steps, id) <==> InvoicesSent(Run(w, steps).gateway, id) <= 1
  {
    hide Run, MadeIds, SeenLog, WorstLog, InvoiceAnswers, PaymentAnswers, Sent;
    var v := Run(w, steps);
    WorstIsAlike(w, steps);
    WorstMakesAll(v.gateway, id);
    forall other | LooksAlike(v, Run(w, other))
      ensures |PaymentsTaken(Run(w, other).gateway, id)| <= PaymentsSent(v.gateway, id)
      ensures |InvoicesMade(Run(w, other).gateway, id)| <= InvoicesSent(v.gateway, id)
    {
      var u := Run(w, other);
      AlikeAsksAlike(v.gateway, u.gateway, id);
      MadeOrLost(PaymentAnswers(u.gateway, id));
      MadeOrLost(InvoiceAnswers(u.gateway, id));
    }
  }

  // ---- Before resuming ----

  /** A visit to the attempt would make the settle_payment call. */
  predicate CallsForPayment(w: World, id: string, now: nat, blocked: bool) {
    && Resumes(w, id, now) && !blocked
    && var a := w.attempts[id];
       a.stage == SettlePayment && a.paymentId.None? && a.invoiceId.Some? && a.taskId in w.tasks
  }

  /** A visit to the attempt would make the create_invoice call. */
  predicate CallsForInvoice(w: World, id: string, now: nat, blocked: bool) {
    && Resumes(w, id, now) && !blocked
    && var a := w.attempts[id];
       && a.stage == CreateInvoice && a.invoiceId.None? && a.taskId in w.tasks && Invoiceable(id, a, w.tasks[a.taskId])
  }

  /** Nothing is sent, or one call for the attempt, with this answer if it is one for money. */
  predicate CallsOnce(calls: seq<GatewayCall>, id: string, env: StageEnv) {
    || calls == []
    || (|calls| == 1 && calls[0].attemptId == id && (calls[0].ResultCall? || calls[0].answer == env.answer))
  }

  lemma InvoiceRunCalls(id: string, a: Attempt, task: Option<Task>, orders: map<string, OrderStatus>, env: StageEnv)
    ensures var calls := RunCreateInvoice(id, a, task, orders, env).calls;
            && CallsOnce(calls, id, env) && (calls == [] || calls[0].InvoiceCall?)
            && (calls != [] <==> !env.blocked && a.invoiceId.None? && task.Some? && Invoiceable(id, a, task.value))
  {
    hide ReplayWindows, CreateInvoiceRequest, WithBillStatus, Billing.Invoice, Contained;
  }

  lemma PaymentRunCalls(id: string, a: Attempt, task: Option<Task>, orders: map<string, OrderStatus>, env: StageEnv)
    ensures var calls := RunSettlePayment(id, a, task, orders, env).calls;
            && CallsOnce(calls, id, env) && (calls == [] || calls[0].PaymentCall?)
            && (calls != [] <==> !env.blocked && a.paymentId.None? && a.invoiceId.Some? && task.Some?)
  {
    hide ReplayWindows, SettlePaymentRequest, WithBillStatus, Paying, Contained;
  }

  lemma RecordRunCalls(id: string, a: Attempt, task: Option<Task>, orders: map<string, OrderStatus>, env: StageEnv)
    ensures var calls := RunRecordResult(id, a, task, orders, env).calls;
            CallsOnce(calls, id, env) && (calls == [] || calls[0].ResultCall?)
  {
    hide ReplayWindows, RecordResultRequest, WithBillStatus, Contained;
  }

  /** What a stage run calls for. */
  lemma RunCalls(w: World, id: string, now: nat, env: StageEnv)
    requires Resumes(w, id, now)
    ensures var calls := Resumed(w, id, env).calls;
            && CallsOnce(calls, id, env)
            && (CallsForPayment(w, id, now, env.blocked) <==> calls != [] && calls[0].PaymentCall?)
            && (CallsForInvoice(w, id, now, env.blocked) <==> calls != [] && calls[0].InvoiceCall?)
  {
    hide RunCreateInvoice, RunSettlePayment, RunRecordResult, CallsOnce, Contained, Call, Invoiceable;
    var a := w.attempts[id];
    InvoiceRunCalls(id, a, TaskOf(w, a), w.orders, env);
    PaymentRunCalls(id, a, TaskOf(w, a), w.orders, env);
    RecordRunCalls(id, a, TaskOf(w, a), w.orders, env);
    assert CallsOnce([], id, env) by {
      NoCallIsFine(id, env);
    }
  }

  lemma NoCallIsFine(id: string, env: StageEnv)
    ensures CallsOnce([], id, env)
  {
  }

  /** A visit makes each of the two calls exactly as the guards before it say, and sends it unless the connection fails. */
  lemma VisitSends(w: World, id: string, now: nat, env: StageEnv)
    ensures var v := Recovered(w, id, now, env);
            var sent := !env.answer.NotSent?;
            && PaymentsSent(v.gateway, id) ==
                 PaymentsSent(w.gateway, id) + (if CallsForPayment(w, id, now, env.blocked) && sent then 1 else 0)
            && InvoicesSent(v.gateway, id) ==
                 InvoicesSent(w.gateway, id) + (if CallsForInvoice(w, id, now, env.blocked) && sent then 1 else 0)
  {
    if Resumes(w, id, now) {
      RunCalls(w, id, now, env);
      var calls := Resumed(w, id, env).calls;
      assert Recovered(w, id, now, env).gateway == w.gateway + calls;
      hide Recovered, Resumed, CallsForPayment, CallsForInvoice, PaymentsSent, InvoicesSent, Invoiceable;
      if calls == [] {
        assert w.gateway + calls == w.gateway;
      } else {
        assert calls == [calls[0]];
        OneMoreSent(w.gateway, calls[0], id);
      }
    } else {
      assert Recovered(w, id, now, env).gateway == w.gateway;
    }
  }

  lemma OneMoreStep(w: World, steps: seq<Step>, step: Step)
    ensures Run(w, steps + [step]) == Next(Run(w, steps), step)
  {
    hide Next;
    assert (steps + [step])[..|steps|] == steps;
  }

  lemma SureAfterVisit(w: World, steps: seq<Step>, id: string, now: nat, env: StageEnv)
    requires Initial(w)
    ensures var v := Run(w, steps);
            var more := steps + [Recover(id, now, env)];
            var sent := !env.answer.NotSent?;
            && (SureOfOnePayment(w, more, id) <==>
                  PaymentsSent(v.gateway, id) + (if CallsForPayment(v, id, now, env.blocked) && sent then 1 else 0) <= 1)
            && (SureOfOneInvoice(w, more, id) <==>
                  InvoicesSent(v.gateway, id) + (if CallsForInvoice(v, id, now, env.blocked) && sent then 1 else 0) <= 1)
  {
    hide Run, Next, Initial, SureOfOnePayment, SureOfOneInvoice, CallsForPayment, CallsForInvoice, PaymentsSent, InvoicesSent;
    hide Recovered;
    var step := Recover(id, now, env);
    var more := steps + [step];
    OneMoreStep(w, steps, step);
    RecoverStep(Run(w, steps), step);
    VisitSends(Run(w, steps), id, now, env);
    SureExactlyIfSentOnce(w, more, id);
  }

  /** Whatever the answer to the visit's call, the agent stays sure of at most one payment. */
  ghost predicate StaysSureOfPayment(w: World, steps: seq<Step>, id: string, now: nat, blocked: bool) {
    forall env: StageEnv :: env.blocked == blocked ==> SureOfOnePayment(w, steps + [Recover(id, now, env)], id)
  }

  ghost predicate StaysSureOfInvoice(w: World, steps: seq<Step>, id: string, now: nat, blocked: bool) {
    forall env: StageEnv :: env.blocked == blocked ==> SureOfOneInvoice(w, steps + [Recover(id, now, env)], id)
  }

  /**
   * So before recovery visits an attempt, the agent can tell whether it will still be sure afterwards, whatever the answer:
   * exactly when the calls sent so far and the one this visit would make are at most one.
   */
  lemma SureAfterResuming(w: World, steps: seq<Step>, id: string, now: nat, blocked: bool)
    requires Initial(w)
    ensures var v := Run(w, steps);
            && (StaysSureOfPayment(w, steps, id, now, blocked) <==>
                  PaymentsSent(v.gateway, id) + (if CallsForPayment(v, id, now, blocked) then 1 else 0) <= 1)
            && (StaysSureOfInvoice(w, steps, id, now, blocked) <==>
                  InvoicesSent(v.gateway, id) + (if CallsForInvoice(v, id, now, blocked) then 1 else 0) <= 1)
  {
    hide Run, Initial, SureOfOnePayment, SureOfOneInvoice, CallsForPayment, CallsForInvoice, PaymentsSent, InvoicesSent;
    var worst := StageEnv(NotReached, blocked, NotDone(""), NotReached);
    SureAfterVisit(w, steps, id, now, worst);
    forall env: StageEnv | env.blocked == blocked
      ensures var v := Run(w, steps);
              var more := steps + [Recover(id, now, env)];
              && (PaymentsSent(v.gateway, id) + (if CallsForPayment(v, id, now, blocked) then 1 else 0) <= 1 ==>
                    SureOfOnePayment(w, more, id))
              && (InvoicesSent(v.gateway, id) + (if CallsForInvoice(v, id, now, blocked) then 1 else 0) <= 1 ==>
                    SureOfOneInvoice(w, more, id))
    {
      SureAfterVisit(w, steps, id, now, env);
    }
  }
}
