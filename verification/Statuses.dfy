/** The status of bills over whole runs: it tells what the gateway was seen to do, until a dispute or the trade's end. */
module Statuses {
  import opened Wrappers
  import opened Market
  import opened Billing
  import opened Orders
  import opened Settlement
  import opened Agent
  import opened Safety
  import opened Progress
  import opened Bills
  import opened Documents

  /** What became of the first record_result call for the attempt. */
  function FirstResult(calls: seq<GatewayCall>, attemptId: string): Option<Delivery> {
    if calls == [] then None
    else
      var n := |calls| - 1;
      var earlier := FirstResult(calls[..n], attemptId);
      if earlier.None? && calls[n].ResultCall? && calls[n].attemptId == attemptId then Some(calls[n].delivery) else earlier
  }

  lemma {:induction false} FirstOf(a: seq<GatewayCall>, b: seq<GatewayCall>, attemptId: string)
    ensures FirstResult(a + b, attemptId) ==
              if FirstResult(a, attemptId).Some? then FirstResult(a, attemptId) else FirstResult(b, attemptId)
  {
    if b == [] {
      assert a + b == a;
    } else {
      assert (a + b)[..|a + b| - 1] == a + b[..|b| - 1];
      FirstOf(a, b[..|b| - 1], attemptId);
    }
  }

  lemma {:induction false} NoneOfOthers(calls: seq<GatewayCall>, attemptId: string, other: string)
    requires Only(calls, attemptId) && other != attemptId
    ensures FirstResult(calls, other) == None
  {
    if calls != [] {
      NoneOfOthers(calls[..|calls| - 1], attemptId, other);
    }
  }

  lemma OneMore(calls: seq<GatewayCall>, c: GatewayCall)
    ensures FirstResult(calls + [c], c.attemptId) ==
              if FirstResult(calls, c.attemptId).None? && c.ResultCall? then Some(c.delivery)
              else FirstResult(calls, c.attemptId)
  {
    assert (calls + [c])[..|calls|] == calls;
  }

  /** On its way to being paid, or waiting for a result that was lost: neither the trade's end nor a dispute has closed the bill. */
  predicate Live(status: BillStatus) {
    status in {Pending, Invoiced, PaymentSubmitted, Paid, Disputed}
  }

  /** The status that the papers and the first result call ask for. */
  function Due(a: Attempt, first: Option<Delivery>): BillStatus {
    if first.Some? then (if first.value.Answered? then Paid else Disputed)
    else if a.paymentId.Some? then PaymentSubmitted
    else if a.invoiceId.Some? then Invoiced
    else Pending
  }

  // ---- Bills ----

  ghost predicate AllAre(bills: seq<Bill>, attemptId: string, status: BillStatus) {
    forall i :: 0 <= i < |bills| && bills[i].attemptId == attemptId ==> bills[i].status == status
  }

  /** The attempt's bills have the status, unless they are closed. */
  ghost predicate Heeds(bills: seq<Bill>, attemptId: string, status: BillStatus) {
    forall i :: 0 <= i < |bills| && bills[i].attemptId == attemptId && Live(bills[i].status) ==> bills[i].status == status
  }

  predicate Fading(before: BillStatus, after: BillStatus) {
    after == before || !Live(after)
  }

  /** The bills keep their status or are closed. */
  ghost predicate Fades(x: seq<Bill>, y: seq<Bill>) {
    |x| == |y| && forall i :: 0 <= i < |x| ==> x[i].attemptId == y[i].attemptId && Fading(x[i].status, y[i].status)
  }

  /** So do those of other attempts. */
  ghost predicate OthersFade(x: seq<Bill>, y: seq<Bill>, attemptId: string) {
    && |x| == |y|
    && forall i :: 0 <= i < |x| ==>
         x[i].attemptId == y[i].attemptId && (x[i].attemptId != attemptId ==> Fading(x[i].status, y[i].status))
  }

  lemma OthersThen(x: seq<Bill>, y: seq<Bill>, z: seq<Bill>, attemptId: string)
    requires OthersFade(x, y, attemptId) && OthersFade(y, z, attemptId)
    ensures OthersFade(x, z, attemptId)
  {
  }

  lemma FadesAway(x: seq<Bill>, y: seq<Bill>, attemptId: string, status: BillStatus)
    requires Fades(x, y) && Heeds(x, attemptId, status)
    ensures Heeds(y, attemptId, status) && OthersFade(x, y, attemptId)
  {
  }

  /** With one status an attempt's bills move together, if the table lets them. */
  lemma MoveTogether(bills: seq<Bill>, attemptId: string, status: BillStatus, next: BillStatus)
    requires AllAre(bills, attemptId, status)
    ensures AllAre(Advanced(bills, attemptId, next), attemptId, if CanTransitionBill(status, next) then next else status)
    ensures OthersFade(bills, Advanced(bills, attemptId, next), attemptId)
  {
    hide CanTransitionBill, Live;
  }

  lemma PapersMoveNothing(bills: seq<Bill>, attemptId: string, id: string, status: BillStatus)
    requires AllAre(bills, attemptId, status)
    ensures AllAre(Billing.Invoice(bills, attemptId, id), attemptId, status)
    ensures AllAre(Paying(bills, attemptId, id), attemptId, status)
    ensures OthersFade(bills, Billing.Invoice(bills, attemptId, id), attemptId)
    ensures OthersFade(bills, Paying(bills, attemptId, id), attemptId)
  {
    hide Live;
  }

  lemma EndingFades(bills: seq<Bill>, tradeId: string, committed: real)
    ensures Fades(bills, FinalizedTrade(bills, tradeId, committed))
  {
    hide TradeOutcome, Gross, Round, Max0, RefundShare;
  }

  lemma NothingFades(bills: seq<Bill>, attemptId: string, status: BillStatus)
    ensures Fades(bills, bills) && OthersFade(bills, bills, attemptId)
    ensures AllAre(bills, attemptId, status) ==> Heeds(bills, attemptId, status)
  {
    hide Live;
  }

  // ---- One pass ----

  /**
   * The scene's bills have the status that its papers and its calls ask for, and other attempts' bills fade at most. A
   * result is sent only with a payment.
   */
  ghost predicate Shows(bills: seq<Bill>, r: Scene, attemptId: string) {
    && Heeds(r.task.bills, attemptId, Due(r.attempt, FirstResult(r.calls, attemptId)))
    && OthersFade(bills, r.task.bills, attemptId)
    && (FirstResult(r.calls, attemptId).Some? ==> r.attempt.paymentId.Some?)
  }

  lemma CommitShows(s: Scene, invoiceId: string, paymentId: string, attemptId: string, env: SettleEnv)
    requires AllAre(s.task.bills, attemptId, Due(s.attempt, FirstResult(s.calls, attemptId)))
    requires FirstResult(s.calls, attemptId).Some? && s.attempt.paymentId.Some?
    ensures Shows(s.task.bills, CommitScene(s, invoiceId, paymentId, env), attemptId)
  {
    hide Call, FinalizedTrade, Delivered, PaidOut, TradeAutoTerminates, AllAre, Heeds, Fades, OthersFade, Fail, Finalize;
    var status := Due(s.attempt, FirstResult(s.calls, attemptId));
    var ended := FinalizedTrade(s.task.bills, s.binding.matchId, s.binding.workUnits);
    NothingFades(s.task.bills, attemptId, status);
    EndingFades(s.task.bills, s.binding.matchId, s.binding.workUnits);
    FadesAway(s.task.bills, ended, attemptId, status);
    FailNames(s.attempt, FailedFinal, ProviderMarkSettled);
    FinalNames(s.attempt, invoiceId, paymentId);
  }

  lemma FinalNames(a: Attempt, invoiceId: string, paymentId: string)
    ensures Finalize(a, invoiceId, paymentId).paymentId.Some?
  {
  }

  lemma RecordShows(s: Scene, windows: seq<Charge>, invoiceId: string, paymentId: string, attemptId: string, env: SettleEnv)
    requires AllAre(s.task.bills, attemptId, PaymentSubmitted)
    requires s.attempt.paymentId.Some? && FirstResult(s.calls, attemptId) == None
    ensures Shows(s.task.bills, RecordScene(s, windows, invoiceId, paymentId, attemptId, env), attemptId)
  {
    hide Call, CommitScene, Advance, Fail, Advanced, Sum, Round, IndexSet, AllAre, Heeds, OthersFade, Fades;
    var bills := s.task.bills;
    var asked := Asked(s, ResultCall(attemptId, env.recorded));
    OneMore(s.calls, ResultCall(attemptId, env.recorded));
    MoveTogether(bills, attemptId, PaymentSubmitted, Paid);
    MoveTogether(bills, attemptId, PaymentSubmitted, Disputed);
    NothingFades(bills, attemptId, PaymentSubmitted);
    NothingFades(Advanced(bills, attemptId, Disputed), attemptId, Disputed);
    FailNames(s.attempt, PaymentUnknown, RecordResult);
    if !env.recordBlocked && env.recorded.Answered? {
      var after := AfterRecord(asked, windows, attemptId);
      AdvanceNames(s.attempt, ProviderMarkSettled);
      CommitShows(after, invoiceId, paymentId, attemptId, env);
      OthersThen(bills, after.task.bills, CommitScene(after, invoiceId, paymentId, env).task.bills, attemptId);
    }
  }

  lemma FailNames(a: Attempt, status: AttemptStatus, stage: Stage)
    ensures SameRecord(a, Fail(a, status, stage))
  {
  }

  lemma ShowsThen(x: seq<Bill>, y: seq<Bill>, r: Scene, attemptId: string)
    requires OthersFade(x, y, attemptId) && Shows(y, r, attemptId)
    ensures Shows(x, r, attemptId)
  {
    hide Heeds, OthersFade, FirstResult, Due;
    OthersThen(x, y, r.task.bills, attemptId);
  }

  lemma SubmittedTogether(s: Scene, windows: seq<Charge>, invoiceId: string, paymentId: string, attemptId: string)
    requires AllAre(s.task.bills, attemptId, Invoiced)
    ensures var r := AfterPayment(s, windows, invoiceId, paymentId, attemptId);
            && AllAre(r.task.bills, attemptId, PaymentSubmitted) && OthersFade(s.task.bills, r.task.bills, attemptId)
            && r.attempt.paymentId.Some? && r.calls == s.calls
  {
    hide AllAre, OthersFade, Advanced, Paying, RecordResultRequest, Advance;
    var paying := Paying(s.task.bills, attemptId, paymentId);
    PapersMoveNothing(s.task.bills, attemptId, paymentId, Invoiced);
    MoveTogether(paying, attemptId, Invoiced, PaymentSubmitted);
    OthersThen(s.task.bills, paying, Advanced(paying, attemptId, PaymentSubmitted), attemptId);
    AdvanceNames(s.attempt.(paymentId := Some(paymentId)), RecordResult);
  }

  /** A scene that stopped with its bills as they were. */
  lemma StoppedShows(bills: seq<Bill>, r: Scene, attemptId: string, status: BillStatus)
    requires r.task.bills == bills && AllAre(bills, attemptId, status)
    requires FirstResult(r.calls, attemptId) == None && status == Due(r.attempt, None)
    ensures Shows(bills, r, attemptId)
  {
    NothingFades(bills, attemptId, status);
  }

  lemma PaymentShows(s: Scene, windows: seq<Charge>, invoiceId: string, attemptId: string, env: SettleEnv)
    requires AllAre(s.task.bills, attemptId, Invoiced)
    requires s.attempt.invoiceId.Some? && s.attempt.paymentId.None? && FirstResult(s.calls, attemptId) == None
    ensures Shows(s.task.bills, PaymentScene(s, windows, invoiceId, attemptId, env), attemptId)
  {
    hide Call, RecordScene, Fail, AfterPayment, AllAre, OthersFade, Shows, FirstResult;
    var bills := s.task.bills;
    var r := PaymentScene(s, windows, invoiceId, attemptId, env);
    var asked := Asked(s, PaymentCall(attemptId, env.payment));
    OneMore(s.calls, PaymentCall(attemptId, env.payment));
    if !env.paymentBlocked && env.payment.Confirmed? {
      var paymentId := env.payment.id;
      var after := AfterPayment(asked, windows, invoiceId, paymentId, attemptId);
      SubmittedTogether(asked, windows, invoiceId, paymentId, attemptId);
      RecordShows(after, windows, invoiceId, paymentId, attemptId, env);
      ShowsThen(bills, after.task.bills, r, attemptId);
    } else {
      StoppedShows(bills, r, attemptId, Invoiced);
    }
  }

  lemma InvoicedTogether(s: Scene, windows: seq<Charge>, invoiceId: string, attemptId: string)
    requires AllAre(s.task.bills, attemptId, Pending)
    ensures var r := AfterInvoice(s, windows, invoiceId, attemptId);
            && AllAre(r.task.bills, attemptId, Invoiced) && OthersFade(s.task.bills, r.task.bills, attemptId)
            && r.attempt.invoiceId.Some? && r.attempt.paymentId == s.attempt.paymentId && r.calls == s.calls
  {
    hide AllAre, OthersFade, Advanced, Billing.Invoice, SettlePaymentRequest, Advance;
    var invoiced := Billing.Invoice(s.task.bills, attemptId, invoiceId);
    PapersMoveNothing(s.task.bills, attemptId, invoiceId, Pending);
    MoveTogether(invoiced, attemptId, Pending, Invoiced);
    OthersThen(s.task.bills, invoiced, Advanced(invoiced, attemptId, Invoiced), attemptId);
    AdvanceNames(s.attempt.(invoiceId := Some(invoiceId)), SettlePayment);
  }

  lemma InvoiceShows(s: Scene, windows: seq<Charge>, attemptId: string, env: SettleEnv)
    requires AllAre(s.task.bills, attemptId, Pending)
    requires s.attempt.invoiceId.None? && s.attempt.paymentId.None? && FirstResult(s.calls, attemptId) == None
    ensures Shows(s.task.bills, InvoiceScene(s, windows, attemptId, env), attemptId)
  {
    hide Call, PaymentScene, Fail, AfterInvoice, AllAre, OthersFade, Shows, FirstResult;
    var bills := s.task.bills;
    var r := InvoiceScene(s, windows, attemptId, env);
    var asked := Asked(s, InvoiceCall(attemptId, env.invoice));
    OneMore(s.calls, InvoiceCall(attemptId, env.invoice));
    FailNames(s.attempt, RetryableFailed, CreateInvoice);
    FailNames(Fail(s.attempt, RetryableFailed, CreateInvoice), RetryableFailed, SettlePayment);
    if !env.invoiceBlocked && env.invoice.Confirmed? {
      var invoiceId := env.invoice.id;
      var after := AfterInvoice(asked, windows, invoiceId, attemptId);
      InvoicedTogether(asked, windows, invoiceId, attemptId);
      PaymentShows(after, windows, invoiceId, attemptId, env);
      ShowsThen(bills, after.task.bills, r, attemptId);
    } else {
      StoppedShows(bills, r, attemptId, Pending);
    }
  }

  lemma SettleShows(s: Scene, windows: seq<Charge>, taskId: string, attemptId: string, env: SettleEnv)
    requires AllAre(s.task.bills, attemptId, Pending)
    requires s.attempt.invoiceId.None? && s.attempt.paymentId.None? && s.calls == []
    ensures Shows(s.task.bills, SettleScene(s, windows, taskId, attemptId, env), attemptId)
  {
    hide Call, InvoiceScene, Fail, Advance, CreateInvoiceRequest, AllAre, OthersFade, Shows;
    var r := SettleScene(s, windows, taskId, attemptId, env);
    var (after, ok) := Call(s.orders, Orders.MarkSettling, s.binding.sellOrderId, env.settling);
    FailNames(s.attempt, RetryableFailed, ProviderMarkSettling);
    AdvanceNames(s.attempt.(settlingDone := true), CreateInvoice);
    if ok {
      InvoiceShows(AfterMark(s.(orders := after), windows, taskId), windows, attemptId, env);
    } else {
      StoppedShows(s.task.bills, r, attemptId, Pending);
    }
  }

  // ---- One stage run ----

  /** A run leaves the attempt's bills with the status that its papers and the calls so far ask for. */
  ghost predicate RunShows(attemptId: string, bills: seq<Bill>, calls: seq<GatewayCall>, run: StageRun) {
    && run.task.Some? && Only(run.calls, attemptId)
    && Heeds(run.task.value.bills, attemptId, Due(run.attempt, FirstResult(calls + run.calls, attemptId)))
    && OthersFade(bills, run.task.value.bills, attemptId)
    && (FirstResult(calls + run.calls, attemptId).Some? ==> run.attempt.paymentId.Some?)
  }

  /** What holds of the attempt before a run. */
  ghost predicate Ready(attemptId: string, a: Attempt, bills: seq<Bill>, calls: seq<GatewayCall>, status: BillStatus) {
    && AttemptOk(a) && AllAre(bills, attemptId, status)
    && (Live(status) ==> status == Due(a, FirstResult(calls, attemptId)))
    && (FirstResult(calls, attemptId).Some? ==> a.paymentId.Some?)
  }

  lemma QuietRun(attemptId: string, a: Attempt, bills: seq<Bill>, calls: seq<GatewayCall>, status: BillStatus, run: StageRun)
    requires Ready(attemptId, a, bills, calls, status) && SameRecord(a, run.attempt)
    requires run.task.Some? && run.task.value.bills == bills && Only(run.calls, attemptId)
    requires FirstResult(calls + run.calls, attemptId) == FirstResult(calls, attemptId)
    ensures RunShows(attemptId, bills, calls, run)
  {
    NothingFades(bills, attemptId, status);
  }

  lemma InvoiceRunShows(attemptId: string, a: Attempt, task: Task, calls: seq<GatewayCall>, status: BillStatus,
                        orders: map<string, OrderStatus>, env: StageEnv)
    requires Ready(attemptId, a, task.bills, calls, status)
    ensures RunShows(attemptId, task.bills, calls, RunCreateInvoice(attemptId, a, Some(task), orders, env))
  {
    hide ReplayWindows, CreateInvoiceRequest, Billing.Invoice, Advanced, Contained, AllAre, Heeds, OthersFade;
    var run := RunCreateInvoice(attemptId, a, Some(task), orders, env);
    var call := InvoiceCall(attemptId, env.answer);
    OneMore(calls, call);
    assert calls + [] == calls;
    if run.calls == [] || !env.answer.Confirmed? {
      QuietRun(attemptId, a, task.bills, calls, status, run);
    } else {
      var invoiced := Billing.Invoice(task.bills, attemptId, env.answer.id);
      PapersMoveNothing(task.bills, attemptId, env.answer.id, status);
      MoveTogether(invoiced, attemptId, status, Invoiced);
      OthersThen(task.bills, invoiced, Advanced(invoiced, attemptId, Invoiced), attemptId);
      Moved(Advanced(invoiced, attemptId, Invoiced), attemptId, status, Invoiced);
    }
  }

  /** Bills that were closed stay closed; live ones are those of the table. */
  lemma Moved(bills: seq<Bill>, attemptId: string, status: BillStatus, next: BillStatus)
    requires AllAre(bills, attemptId, if CanTransitionBill(status, next) then next else status)
    requires next in {Invoiced, PaymentSubmitted, Paid, Disputed}
    ensures Live(status) && CanTransitionBill(status, next) ==> Heeds(bills, attemptId, next)
    ensures Live(status) && !CanTransitionBill(status, next) ==> Heeds(bills, attemptId, status)
    ensures !Live(status) ==> forall other :: Heeds(bills, attemptId, other)
  {
  }

  lemma PaymentRunShows(attemptId: string, a: Attempt, task: Task, calls: seq<GatewayCall>, status: BillStatus,
                        orders: map<string, OrderStatus>, env: StageEnv)
    requires Ready(attemptId, a, task.bills, calls, status)
    ensures RunShows(attemptId, task.bills, calls, RunSettlePayment(attemptId, a, Some(task), orders, env))
  {
    hide ReplayWindows, SettlePaymentRequest, Paying, Advanced, Contained, AllAre, Heeds, OthersFade;
    var run := RunSettlePayment(attemptId, a, Some(task), orders, env);
    OneMore(calls, PaymentCall(attemptId, env.answer));
    assert calls + [] == calls;
    if run.calls == [] || !env.answer.Confirmed? {
      QuietRun(attemptId, a, task.bills, calls, status, run);
    } else {
      var paying := Paying(task.bills, attemptId, env.answer.id);
      PapersMoveNothing(task.bills, attemptId, env.answer.id, status);
      MoveTogether(paying, attemptId, status, PaymentSubmitted);
      OthersThen(task.bills, paying, Advanced(paying, attemptId, PaymentSubmitted), attemptId);
      Moved(Advanced(paying, attemptId, PaymentSubmitted), attemptId, status, PaymentSubmitted);
    }
  }

  lemma RecordRunShows(attemptId: string, a: Attempt, task: Task, calls: seq<GatewayCall>, status: BillStatus,
                       orders: map<string, OrderStatus>, env: StageEnv)
    requires Ready(attemptId, a, task.bills, calls, status)
    ensures RunShows(attemptId, task.bills, calls, RunRecordResult(attemptId, a, Some(task), orders, env))
  {
    hide ReplayWindows, RecordResultRequest, Advanced, Contained, AllAre, Heeds, OthersFade;
    var run := RunRecordResult(attemptId, a, Some(task), orders, env);
    OneMore(calls, ResultCall(attemptId, env.recorded));
    assert calls + [] == calls;
    if run.calls == [] {
      QuietRun(attemptId, a, task.bills, calls, status, run);
    } else {
      var next := if env.recorded.Answered? then Paid else Disputed;
      MoveTogether(task.bills, attemptId, status, next);
      Moved(Advanced(task.bills, attemptId, next), attemptId, status, next);
    }
  }

  lemma StageRunShows(attemptId: string, a: Attempt, task: Task, calls: seq<GatewayCall>, status: BillStatus,
                      orders: map<string, OrderStatus>, env: StageEnv)
    requires Ready(attemptId, a, task.bills, calls, status)
    ensures RunShows(attemptId, task.bills, calls, RunStage(attemptId, a, Some(task), orders, env))
  {
    hide RunShows, RunCreateInvoice, RunSettlePayment, RunRecordResult, Call, Contained, Ready, AllAre, FirstResult;
    match a.stage
    case CreateInvoice => InvoiceRunShows(attemptId, a, task, calls, status, orders, env);
    case SettlePayment => PaymentRunShows(attemptId, a, task, calls, status, orders, env);
    case RecordResult => RecordRunShows(attemptId, a, task, calls, status, orders, env);
    case _ =>
      assert calls + [] == calls;
      QuietRun(attemptId, a, task.bills, calls, status, RunStage(attemptId, a, Some(task), orders, env));
  }

  // ---- Every step ----

  /** Bills have the status that is due until they are closed, and results are sent only with a payment. */
  ghost predicate Follows(w: World) {
    && (forall t, i :: t in w.tasks && 0 <= i < |w.tasks[t].bills| && Live(w.tasks[t].bills[i].status) ==>
          var b := w.tasks[t].bills[i];
          b.attemptId in w.attempts && b.status == Due(w.attempts[b.attemptId], FirstResult(w.gateway, b.attemptId)))
    && (forall id :: FirstResult(w.gateway, id).Some? ==> id in w.attempts && w.attempts[id].paymentId.Some?)
  }

  /** Bills keep their status or are closed. */
  ghost predicate BillsFade(w: World, v: World) {
    v.tasks.Keys == w.tasks.Keys && forall t :: t in w.tasks ==> Fades(w.tasks[t].bills, v.tasks[t].bills)
  }

  lemma FrameFollows(w: World, v: World)
    requires Follows(w) && BillsFade(w, v) && KeepsRecords(w, v) && v.gateway == w.gateway
    ensures Follows(v)
  {
    hide Live;
    forall t, i | t in v.tasks && 0 <= i < |v.tasks[t].bills| && Live(v.tasks[t].bills[i].status)
      ensures var b := v.tasks[t].bills[i];
              b.attemptId in v.attempts && b.status == Due(v.attempts[b.attemptId], FirstResult(v.gateway, b.attemptId))
    {
      assert Fades(w.tasks[t].bills, v.tasks[t].bills);
      assert Fading(w.tasks[t].bills[i].status, v.tasks[t].bills[i].status);
    }
  }

  /** What the pass or run of one attempt leaves, in the task it belongs to. */
  lemma OneFollows(w: World, v: World, taskId: string, attemptId: string, bills: seq<Bill>, calls: seq<GatewayCall>)
    requires Follows(w) && taskId in w.tasks && taskId in v.tasks && v.tasks == w.tasks[taskId := v.tasks[taskId]]
    requires attemptId in v.attempts && v.attempts == w.attempts[attemptId := v.attempts[attemptId]]
    requires v.gateway == w.gateway + calls && Only(calls, attemptId)
    requires forall t, i :: t in w.tasks && t != taskId && 0 <= i < |w.tasks[t].bills| ==>
               w.tasks[t].bills[i].attemptId != attemptId
    requires OthersFade(bills, v.tasks[taskId].bills, attemptId)
    requires Heeds(v.tasks[taskId].bills, attemptId, Due(v.attempts[attemptId], FirstResult(v.gateway, attemptId)))
    requires forall i :: 0 <= i < |bills| && bills[i].attemptId != attemptId && Live(bills[i].status) ==>
               && bills[i].attemptId in w.attempts
               && bills[i].status == Due(w.attempts[bills[i].attemptId], FirstResult(w.gateway, bills[i].attemptId))
    requires FirstResult(v.gateway, attemptId).Some? ==> v.attempts[attemptId].paymentId.Some?
    ensures Follows(v)
  {
    forall id | id != attemptId ensures FirstResult(v.gateway, id) == FirstResult(w.gateway, id) {
      FirstOf(w.gateway, calls, id);
      NoneOfOthers(calls, attemptId, id);
    }
    forall t, i | t in v.tasks && 0 <= i < |v.tasks[t].bills| && Live(v.tasks[t].bills[i].status)
      ensures var b := v.tasks[t].bills[i];
              b.attemptId in v.attempts && b.status == Due(v.attempts[b.attemptId], FirstResult(v.gateway, b.attemptId))
    {
      hide Live, Due;
      if t == taskId && bills[i].attemptId != attemptId {
        assert Fading(bills[i].status, v.tasks[t].bills[i].status);
      }
    }
  }

  lemma OpeningFollows(w: World, taskId: string, attemptId: string)
    requires Follows(w) && Billed(w) && Settleable(w, taskId) && attemptId !in w.attempts
    ensures var task := w.tasks[taskId];
            var bills := Opening(taskId, task, attemptId, w.bindings[task.bound.value], w.orders).task.bills;
            && AllAre(bills, attemptId, Pending)
            && forall i :: 0 <= i < |bills| && bills[i].attemptId != attemptId && Live(bills[i].status) ==>
                 && bills[i].attemptId in w.attempts
                 && bills[i].status == Due(w.attempts[bills[i].attemptId], FirstResult(w.gateway, bills[i].attemptId))
  {
    var task := w.tasks[taskId];
    var binding := w.bindings[task.bound.value];
    assert Owned(w, taskId, task.bills);
    UpsertedPapers(task.bills, attemptId, binding.matchId, Drained(task), binding.unitPrice, task.interval);
    hide Upserted, Sound, Billed, Due, Live;
  }

  lemma PassDoneFollows(w: World, taskId: string, attemptId: string, env: SettleEnv)
    requires Follows(w) && Billed(w)
    ensures Follows(PassDone(w, taskId, attemptId, env))
  {
    hide Follows, Billed, AllAre, Heeds, OthersFade, Due, Live, SettleScene, Upserted, NewAttempt, AttemptOk;
    if Settleable(w, taskId) && attemptId !in w.attempts {
      var task := w.tasks[taskId];
      var binding := w.bindings[task.bound.value];
      var s := Opening(taskId, task, attemptId, binding, w.orders);
      var r := SettleScene(s, Drained(task), taskId, attemptId, env);
      OpeningFollows(w, taskId, attemptId);
      NewAttemptHasNothing(taskId, binding, Drained(task));
      SettleShows(s, Drained(task), taskId, attemptId, env);
      PassSafe(taskId, task, attemptId, binding, w.orders, env);
      NoBillsElsewhere(w, taskId, attemptId);
      FirstOf(w.gateway, r.calls, attemptId);
      NoResultYet(w, attemptId);
      OneFollows(w, PassDone(w, taskId, attemptId, env), taskId, attemptId, s.task.bills, r.calls);
    }
  }

  lemma NewAttemptHasNothing(taskId: string, binding: Binding, windows: seq<Charge>)
    ensures NewAttempt(taskId, binding, windows).invoiceId.None? && NewAttempt(taskId, binding, windows).paymentId.None?
  {
    hide Indexes;
  }

  lemma NoResultYet(w: World, attemptId: string)
    requires Follows(w) && attemptId !in w.attempts
    ensures FirstResult(w.gateway, attemptId) == None
  {
  }

  lemma PolledFollows(w: World, taskId: string, report: PollReport, attemptId: string, env: SettleEnv)
    requires Follows(w) && Billed(w)
    ensures Follows(Polled(w, taskId, report, attemptId, env))
  {
    if taskId in w.tasks {
      var v := w.(tasks := w.tasks[taskId := Admitted(w.tasks[taskId], report)]);
      ReportFollows(w, taskId, report);
      hide Follows, Billed, Admitted, Admits, PassDone;
      PassDoneFollows(v, taskId, attemptId, env);
    }
  }

  lemma ReportFollows(w: World, taskId: string, report: PollReport)
    requires Follows(w) && Billed(w) && taskId in w.tasks
    ensures var v := w.(tasks := w.tasks[taskId := Admitted(w.tasks[taskId], report)]);
            Follows(v) && Billed(v)
  {
    hide Live, Due, Admits, Sound, FirstResult;
  }

  lemma BeforeRun(w: World, attemptId: string)
    requires Follows(w) && Billed(w) && Safe(w) && attemptId in w.attempts && w.attempts[attemptId].taskId in w.tasks
    ensures exists status :: Ready(attemptId, w.attempts[attemptId], w.tasks[w.attempts[attemptId].taskId].bills, w.gateway, status)
    ensures var bills := w.tasks[w.attempts[attemptId].taskId].bills;
            forall i :: 0 <= i < |bills| && bills[i].attemptId != attemptId && Live(bills[i].status) ==>
              && bills[i].attemptId in w.attempts
              && bills[i].status == Due(w.attempts[bills[i].attemptId], FirstResult(w.gateway, bills[i].attemptId))
  {
    hide Live, Due, AttemptOk, AllBalanced;
    var a := w.attempts[attemptId];
    var bills := w.tasks[a.taskId].bills;
    assert Sound(bills);
    var status := Due(a, FirstResult(w.gateway, attemptId));
    if i :| 0 <= i < |bills| && bills[i].attemptId == attemptId {
      status := bills[i].status;
    }
    assert Ready(attemptId, a, bills, w.gateway, status);
  }

  lemma ResumedFollows(w: World, attemptId: string, now: nat, env: StageEnv)
    requires Follows(w) && Billed(w) && Safe(w) && Resumes(w, attemptId, now)
    ensures Follows(Recovered(w, attemptId, now, env))
  {
    var a := w.attempts[attemptId];
    var v := Recovered(w, attemptId, now, env);
    if a.taskId in w.tasks {
      hide Follows, Billed, Safe, Heeds, OthersFade, Due, Live, RunStage, AfterRun, Ready, AttemptOk;
      var task := w.tasks[a.taskId];
      BeforeRun(w, attemptId);
      var status :| Ready(attemptId, a, task.bills, w.gateway, status);
      var run := Resumed(w, attemptId, env);
      StageRunShows(attemptId, a, task, w.gateway, status, w.orders, env);
      AfterRunNames(run);
      SameDue(run.attempt, AfterRun(run), FirstResult(w.gateway + run.calls, attemptId));
      NoBillsElsewhere(w, a.taskId, attemptId);
      OneFollows(w, v, a.taskId, attemptId, task.bills, run.calls);
    } else {
      TasklessFollows(w, attemptId, now, env);
    }
  }

  lemma SameDue(a: Attempt, b: Attempt, first: Option<Delivery>)
    requires SameRecord(a, b)
    ensures Due(a, first) == Due(b, first)
  {
  }

  /** A run without a task asks nobody for anything and gets no papers. */
  lemma TasklessRun(attemptId: string, a: Attempt, orders: map<string, OrderStatus>, env: StageEnv)
    ensures var run := RunStage(attemptId, a, None, orders, env);
            run.calls == [] && run.task == None && SameRecord(a, run.attempt)
  {
    hide Call, Contained;
  }

  lemma TasklessFollows(w: World, attemptId: string, now: nat, env: StageEnv)
    requires Follows(w) && Resumes(w, attemptId, now) && w.attempts[attemptId].taskId !in w.tasks
    ensures Follows(Recovered(w, attemptId, now, env))
  {
    hide Follows, RunStage, AfterRun, Fades;
    var v := Recovered(w, attemptId, now, env);
    TasklessRun(attemptId, w.attempts[attemptId], w.orders, env);
    AfterRunNames(Resumed(w, attemptId, env));
    assert v.gateway == w.gateway;
    SameTasksFade(w, v);
    FrameFollows(w, v);
  }

  lemma SameTasksFade(w: World, v: World)
    requires v.tasks == w.tasks
    ensures BillsFade(w, v)
  {
    hide Live;
  }

  lemma GivenUpFollows(w: World, attemptId: string, now: nat, env: StageEnv)
    requires Follows(w) && !Resumes(w, attemptId, now)
    ensures Follows(Recovered(w, attemptId, now, env))
  {
    hide Follows, RunStage, BillsFade, KeepsRecords;
    NotResumed(w, attemptId, now, env);
    var v := Recovered(w, attemptId, now, env);
    SameTasksFade(w, v);
    FrameFollows(w, v);
  }

  lemma NotResumed(w: World, attemptId: string, now: nat, env: StageEnv)
    requires !Resumes(w, attemptId, now)
    ensures var v := Recovered(w, attemptId, now, env);
            v.tasks == w.tasks && v.gateway == w.gateway && KeepsRecords(w, v)
  {
    hide RunStage, Resumed, AfterRun, BackoffDelay, Resumes, Recoverable, Until;
    if GivesUp(w, attemptId, now) {
    }
  }

  lemma DisputedBillsFade(bills: seq<Bill>, attemptId: string, tradeId: Option<string>)
    ensures Fades(bills, AllMoved(bills, attemptId, Failed))
    ensures Fades(bills, PenaltyApplied(bills, tradeId))
    ensures Fades(bills, RefundReleased(bills, tradeId))
  {
    hide Round, Max0;
  }

  lemma DisputesFade(w: World, attemptId: string, tradeId: Option<string>)
    ensures BillsFade(w, w.(tasks := RolledBackTasks(w.tasks, attemptId)))
    ensures BillsFade(w, w.(tasks := PenalizedTasks(w.tasks, tradeId)))
    ensures BillsFade(w, w.(tasks := RefundedTasks(w.tasks, tradeId)))
  {
    hide Fades, AllMoved, PenaltyApplied, RefundReleased;
    forall t | t in w.tasks
      ensures Fades(w.tasks[t].bills, AllMoved(w.tasks[t].bills, attemptId, Failed))
      ensures Fades(w.tasks[t].bills, PenaltyApplied(w.tasks[t].bills, tradeId))
      ensures Fades(w.tasks[t].bills, RefundReleased(w.tasks[t].bills, tradeId))
    {
      DisputedBillsFade(w.tasks[t].bills, attemptId, tradeId);
    }
  }

  lemma FadeByTasks(w: World, u: World, v: World)
    requires BillsFade(w, u) && v.tasks == u.tasks
    ensures BillsFade(w, v)
  {
    hide Fades;
  }

  lemma ActionFades(w: World, d: Dispute, action: DisputeAction)
    ensures BillsFade(w, ActionTaken(w, d, action))
  {
    hide BillsFade, WithAttempt, RolledBackTasks, PenalizedTasks, RefundedTasks;
    var v := ActionTaken(w, d, action);
    SameTasksFade(w, w);
    if action == RollbackAction && d.attemptId.Some? {
      DisputesFade(w, d.attemptId.value, None);
      FadeByTasks(w, w.(tasks := RolledBackTasks(w.tasks, d.attemptId.value)), v);
    } else if action == ApplyPenalty || action == ReleaseRefund {
      DisputesFade(w, "", d.tradeId);
    } else {
      FadeByTasks(w, w, v);
    }
  }

  lemma RebindsFade(w: World, v: World)
    requires OnlyRebinds(w.tasks, v.tasks)
    ensures BillsFade(w, v)
  {
    hide Live;
  }

  lemma RunningFades(w: World, taskId: string, running: bool)
    requires taskId in w.tasks
    ensures BillsFade(w, w.(tasks := w.tasks[taskId := w.tasks[taskId].(running := running)]))
  {
    hide Live;
  }

  /** No step but a poll and a visit of recovery gives a bill any status but one that closes it. */
  lemma OthersFadeBills(w: World, step: Step)
    requires !step.Poll? && !step.Recover?
    ensures BillsFade(w, Next(w, step))
  {
    hide BillsFade, OnlyRebinds, ActionTaken, AllowedActions;
    SameTasksFade(w, w);
    if Rebinding(step) {
      hide Next;
      RebindingSteps(w, step);
      RebindsFade(w, Next(w, step));
    } else if step.SetRunning? {
      if step.taskId in w.tasks {
        RunningFades(w, step.taskId, step.running);
      }
    } else if step.disputeId in w.disputes {
      ActionFades(w, w.disputes[step.disputeId], step.action);
    }
  }

  lemma NextFollows(w: World, step: Step)
    requires Follows(w) && Billed(w) && Safe(w)
    ensures Follows(Next(w, step))
  {
    hide Follows, Billed, Safe, Later, BillsFade, KeepsRecords, Polled, Recovered, Resumes, Next;
    if step.Poll? {
      PollStep(w, step);
      PolledFollows(w, step.taskId, step.report, step.attemptId, step.env);
    } else if step.Recover? {
      RecoverStep(w, step);
      if Resumes(w, step.attemptId, step.now) {
        ResumedFollows(w, step.attemptId, step.now, step.stageEnv);
      } else {
        GivenUpFollows(w, step.attemptId, step.now, step.stageEnv);
      }
    } else {
      OthersFadeBills(w, step);
      NextSafe(w, step);
      NextLater(w, step);
      GatewayLeft(w, step);
      SafeKeepsRecords(w, Next(w, step));
      FrameFollows(w, Next(w, step));
    }
  }

  lemma InitialFollows(w: World)
    requires Initial(w)
    ensures Follows(w)
  {
  }

  lemma {:induction false} RunFollows(w: World, steps: seq<Step>)
    requires Initial(w)
    ensures Follows(Run(w, steps))
  {
    hide Follows, Billed, Safe, Next, Initial;
    if steps == [] {
      InitialFollows(w);
    } else {
      RunFollows(w, steps[..|steps| - 1]);
      RunBilled(w, steps[..|steps| - 1]);
      RunIsSafe(w, steps[..|steps| - 1]);
      NextFollows(Run(w, steps[..|steps| - 1]), steps[|steps| - 1]);
    }
  }

  /** What the gateway was seen to do for the attempt, as a bill's status. */
  function Told(calls: seq<GatewayCall>, attemptId: string): BillStatus {
    match FirstResult(calls, attemptId)
    case Some(delivery) => if delivery.Answered? then Paid else Disputed
    case None =>
      if ConfirmedPayments(calls, attemptId) != [] then PaymentSubmitted
      else if ConfirmedInvoices(calls, attemptId) != [] then Invoiced
      else Pending
  }

  /**
   * Over every run, until the trade's end or a dispute closes a bill, its status is exactly what the gateway's log tells of
   * its attempt, whether a pass or recovery made the calls: pending without an invoice, then invoiced, then submitted; and
   * from the first record_result call on, for good, paid if that call was answered and disputed if it was not.
   */
  lemma StatusTellsTheLog(w: World, steps: seq<Step>, taskId: string, i: nat)
    requires Initial(w) && taskId in Run(w, steps).tasks && i < |Run(w, steps).tasks[taskId].bills|
    ensures var v := Run(w, steps);
            var b := v.tasks[taskId].bills[i];
            Live(b.status) ==> b.status == Told(v.gateway, b.attemptId)
  {
    hide Run, Initial, ConfirmedInvoices, ConfirmedPayments, AttemptOk, FirstResult, Live;
    RunFollows(w, steps);
    RunIsSafe(w, steps);
  }
}
