/** Bills and the papers they name: a bill names the invoice and the payment of its attempt, and has them in time. */
module Documents {
  import opened Wrappers
  import opened Market
  import opened Billing
  import opened Orders
  import opened Settlement
  import opened Agent
  import opened Safety
  import opened Progress
  import opened Bills
  import opened Replay
  import Gateway
  import Windows

  /** A bill is not called invoiced without an invoice, nor submitted, paid or disputed without a payment. */
  predicate Documented(b: Bill) {
    && (b.status in {Invoiced, PaymentSubmitted, Paid, Disputed} ==> b.invoiceId.Some?)
    && (b.status in {PaymentSubmitted, Paid, Disputed} ==> b.paymentId.Some?)
  }

  predicate Names(b: Bill, a: Attempt) {
    b.invoiceId == a.invoiceId && b.paymentId == a.paymentId
  }

  predicate SamePapers(b: Bill, c: Bill) {
    b.attemptId == c.attemptId && b.invoiceId == c.invoiceId && b.paymentId == c.paymentId
  }

  ghost predicate AllDocumented(bills: seq<Bill>) {
    forall i :: 0 <= i < |bills| ==> Documented(bills[i])
  }

  /** The attempt's bills name the attempt's papers. */
  ghost predicate Describes(bills: seq<Bill>, attemptId: string, a: Attempt) {
    forall i :: 0 <= i < |bills| && bills[i].attemptId == attemptId ==> Names(bills[i], a)
  }

  /** The bills of other attempts keep their papers. */
  ghost predicate OthersKept(x: seq<Bill>, y: seq<Bill>, attemptId: string) {
    && |x| == |y|
    && forall i :: 0 <= i < |x| ==> x[i].attemptId == y[i].attemptId && (x[i].attemptId != attemptId ==> SamePapers(x[i], y[i]))
  }

  /** What a pass or a stage run of the attempt does to bills whose papers were in order. */
  ghost predicate Fits(x: seq<Bill>, y: seq<Bill>, attemptId: string, a: Attempt) {
    AllDocumented(y) && Describes(y, attemptId, a) && OthersKept(x, y, attemptId)
  }

  lemma FitsThen(x: seq<Bill>, y: seq<Bill>, z: seq<Bill>, attemptId: string, a: Attempt, b: Attempt)
    requires Fits(x, y, attemptId, a) && Fits(y, z, attemptId, b)
    ensures Fits(x, z, attemptId, b)
  {
    hide Documented, Names;
  }

  lemma FitsItself(x: seq<Bill>, attemptId: string, a: Attempt)
    requires AllDocumented(x) && Describes(x, attemptId, a)
    ensures Fits(x, x, attemptId, a)
  {
    hide Documented, Names;
  }

  /** The status loop asks for no papers the attempt does not have. */
  predicate Covers(a: Attempt, next: BillStatus) {
    && (next in {Invoiced, PaymentSubmitted, Paid, Disputed} ==> a.invoiceId.Some?)
    && (next in {PaymentSubmitted, Paid, Disputed} ==> a.paymentId.Some?)
  }

  lemma StatusFits(x: seq<Bill>, attemptId: string, a: Attempt, next: BillStatus)
    requires AllDocumented(x) && Describes(x, attemptId, a) && Covers(a, next)
    ensures Fits(x, Advanced(x, attemptId, next), attemptId, a)
  {
    hide StopsAt, CanTransitionBill;
  }

  lemma InvoiceFits(x: seq<Bill>, attemptId: string, a: Attempt, invoiceId: string)
    requires AllDocumented(x) && Describes(x, attemptId, a)
    ensures Fits(x, Billing.Invoice(x, attemptId, invoiceId), attemptId, a.(invoiceId := Some(invoiceId)))
  {
  }

  lemma PayingFits(x: seq<Bill>, attemptId: string, a: Attempt, paymentId: string)
    requires AllDocumented(x) && Describes(x, attemptId, a)
    ensures Fits(x, Paying(x, attemptId, paymentId), attemptId, a.(paymentId := Some(paymentId)))
  {
  }

  /** Only the papers of the attempt matter. */
  lemma SameNamesFit(x: seq<Bill>, y: seq<Bill>, attemptId: string, a: Attempt, b: Attempt)
    requires Fits(x, y, attemptId, a) && SameRecord(a, b)
    ensures Fits(x, y, attemptId, b)
  {
    hide Documented;
  }

  lemma EndingFits(x: seq<Bill>, attemptId: string, a: Attempt, tradeId: string, committed: real)
    requires AllDocumented(x) && Describes(x, attemptId, a)
    ensures Fits(x, FinalizedTrade(x, tradeId, committed), attemptId, a)
  {
    hide TradeOutcome, Gross, Round, Max0, RefundShare;
  }

  // ---- One pass ----

  lemma CommitFits(s: Scene, invoiceId: string, paymentId: string, attemptId: string, env: SettleEnv)
    requires AllDocumented(s.task.bills) && Describes(s.task.bills, attemptId, s.attempt)
    requires s.attempt.invoiceId == Some(invoiceId) && s.attempt.paymentId == Some(paymentId)
    ensures var r := CommitScene(s, invoiceId, paymentId, env);
            Fits(s.task.bills, r.task.bills, attemptId, r.attempt)
  {
    hide Fits, AllDocumented, Describes, Call, FinalizedTrade, Delivered, PaidOut, TradeAutoTerminates;
    EndingFits(s.task.bills, attemptId, s.attempt, s.binding.matchId, s.binding.workUnits);
    FitsItself(s.task.bills, attemptId, s.attempt);
    var r := CommitScene(s, invoiceId, paymentId, env);
    SameNamesFit(s.task.bills, r.task.bills, attemptId, s.attempt, r.attempt);
  }

  lemma AdvanceNames(a: Attempt, stage: Stage)
    ensures SameRecord(a, Advance(a, stage))
  {
  }

  lemma RecordFits(s: Scene, windows: seq<Charge>, invoiceId: string, paymentId: string, attemptId: string, env: SettleEnv)
    requires AllDocumented(s.task.bills) && Describes(s.task.bills, attemptId, s.attempt)
    requires s.attempt.invoiceId == Some(invoiceId) && s.attempt.paymentId == Some(paymentId)
    ensures var r := RecordScene(s, windows, invoiceId, paymentId, attemptId, env);
            Fits(s.task.bills, r.task.bills, attemptId, r.attempt)
  {
    var bills, a := s.task.bills, s.attempt;
    var r := RecordScene(s, windows, invoiceId, paymentId, attemptId, env);
    var after := AfterRecord(Asked(s, ResultCall(attemptId, env.recorded)), windows, attemptId);
    StatusFits(bills, attemptId, a, Disputed);
    StatusFits(bills, attemptId, a, Paid);
    FitsItself(bills, attemptId, a);
    AdvanceNames(a, ProviderMarkSettled);
    hide Fits, AllDocumented, Describes, Call, CommitScene, Advance, Advanced, Sum, Round, IndexSet;
    SameNamesFit(bills, after.task.bills, attemptId, a, after.attempt);
    if env.recordBlocked || !env.recorded.Answered? {
      SameNamesFit(bills, r.task.bills, attemptId, a, r.attempt);
    } else {
      InOrder(bills, after.task.bills, attemptId, after.attempt);
      CommitFits(after, invoiceId, paymentId, attemptId, env);
      FitsThen(bills, after.task.bills, r.task.bills, attemptId, after.attempt, r.attempt);
    }
  }

  lemma InOrder(x: seq<Bill>, y: seq<Bill>, attemptId: string, a: Attempt)
    requires Fits(x, y, attemptId, a)
    ensures AllDocumented(y) && Describes(y, attemptId, a)
  {
  }

  lemma AfterPaymentFits(s: Scene, windows: seq<Charge>, invoiceId: string, paymentId: string, attemptId: string)
    requires AllDocumented(s.task.bills) && Describes(s.task.bills, attemptId, s.attempt)
    requires s.attempt.invoiceId == Some(invoiceId)
    ensures var r := AfterPayment(s, windows, invoiceId, paymentId, attemptId);
            && Fits(s.task.bills, r.task.bills, attemptId, r.attempt)
            && r.attempt.invoiceId == Some(invoiceId) && r.attempt.paymentId == Some(paymentId)
  {
    var bills, a := s.task.bills, s.attempt.(paymentId := Some(paymentId));
    var paying := Paying(bills, attemptId, paymentId);
    var r := AfterPayment(s, windows, invoiceId, paymentId, attemptId);
    PayingFits(bills, attemptId, s.attempt, paymentId);
    InOrder(bills, paying, attemptId, a);
    StatusFits(paying, attemptId, a, PaymentSubmitted);
    AdvanceNames(a, RecordResult);
    hide Fits, AllDocumented, Describes, Advance, Advanced, Paying, RecordResultRequest;
    FitsThen(bills, paying, r.task.bills, attemptId, a, a);
    SameNamesFit(bills, r.task.bills, attemptId, a, r.attempt);
  }

  lemma AfterInvoiceFits(s: Scene, windows: seq<Charge>, invoiceId: string, attemptId: string)
    requires AllDocumented(s.task.bills) && Describes(s.task.bills, attemptId, s.attempt)
    ensures var r := AfterInvoice(s, windows, invoiceId, attemptId);
            && Fits(s.task.bills, r.task.bills, attemptId, r.attempt) && r.attempt.invoiceId == Some(invoiceId)
  {
    hide Fits, AllDocumented, Describes, Advance, Advanced, Billing.Invoice, SettlePaymentRequest;
    var bills, a := s.task.bills, s.attempt.(invoiceId := Some(invoiceId));
    var invoiced := Billing.Invoice(bills, attemptId, invoiceId);
    var r := AfterInvoice(s, windows, invoiceId, attemptId);
    InvoiceFits(bills, attemptId, s.attempt, invoiceId);
    InOrder(bills, invoiced, attemptId, a);
    StatusFits(invoiced, attemptId, a, Invoiced);
    AdvanceNames(a, SettlePayment);
    FitsThen(bills, invoiced, r.task.bills, attemptId, a, a);
    SameNamesFit(bills, r.task.bills, attemptId, a, r.attempt);
  }

  lemma PaymentFits(s: Scene, windows: seq<Charge>, invoiceId: string, attemptId: string, env: SettleEnv)
    requires AllDocumented(s.task.bills) && Describes(s.task.bills, attemptId, s.attempt)
    requires s.attempt.invoiceId == Some(invoiceId)
    ensures var r := PaymentScene(s, windows, invoiceId, attemptId, env);
            Fits(s.task.bills, r.task.bills, attemptId, r.attempt)
  {
    hide Fits, AllDocumented, Describes, Call, RecordScene, AfterPayment;
    FitsItself(s.task.bills, attemptId, s.attempt);
    if !env.paymentBlocked && env.payment.Confirmed? {
      var paymentId := env.payment.id;
      var asked := Asked(s, PaymentCall(attemptId, env.payment));
      var after := AfterPayment(asked, windows, invoiceId, paymentId, attemptId);
      AfterPaymentFits(asked, windows, invoiceId, paymentId, attemptId);
      InOrder(s.task.bills, after.task.bills, attemptId, after.attempt);
      RecordFits(after, windows, invoiceId, paymentId, attemptId, env);
      var r := RecordScene(after, windows, invoiceId, paymentId, attemptId, env);
      FitsThen(s.task.bills, after.task.bills, r.task.bills, attemptId, after.attempt, r.attempt);
    } else {
      SameNamesFit(s.task.bills, s.task.bills, attemptId, s.attempt,
                   PaymentScene(s, windows, invoiceId, attemptId, env).attempt);
    }
  }

  lemma InvoiceSceneFits(s: Scene, windows: seq<Charge>, attemptId: string, env: SettleEnv)
    requires AllDocumented(s.task.bills) && Describes(s.task.bills, attemptId, s.attempt)
    ensures var r := InvoiceScene(s, windows, attemptId, env);
            Fits(s.task.bills, r.task.bills, attemptId, r.attempt)
  {
    hide Fits, AllDocumented, Describes, Call, PaymentScene, AfterInvoice;
    FitsItself(s.task.bills, attemptId, s.attempt);
    var r := InvoiceScene(s, windows, attemptId, env);
    if env.invoiceBlocked || !env.invoice.Confirmed? {
      SameNamesFit(s.task.bills, s.task.bills, attemptId, s.attempt, r.attempt);
    } else {
      var invoiceId := env.invoice.id;
      var asked := Asked(s, InvoiceCall(attemptId, env.invoice));
      var after := AfterInvoice(asked, windows, invoiceId, attemptId);
      AfterInvoiceFits(asked, windows, invoiceId, attemptId);
      InOrder(s.task.bills, after.task.bills, attemptId, after.attempt);
      PaymentFits(after, windows, invoiceId, attemptId, env);
      FitsThen(s.task.bills, after.task.bills, r.task.bills, attemptId, after.attempt, r.attempt);
    }
  }

  lemma SettleFits(s: Scene, windows: seq<Charge>, taskId: string, attemptId: string, env: SettleEnv)
    requires AllDocumented(s.task.bills) && Describes(s.task.bills, attemptId, s.attempt)
    ensures var r := SettleScene(s, windows, taskId, attemptId, env);
            Fits(s.task.bills, r.task.bills, attemptId, r.attempt)
  {
    hide Fits, AllDocumented, Describes, Call, InvoiceScene, CreateInvoiceRequest, Advance;
    var (after, ok) := Call(s.orders, Orders.MarkSettling, s.binding.sellOrderId, env.settling);
    FitsItself(s.task.bills, attemptId, s.attempt);
    AdvanceNames(s.attempt.(settlingDone := true), CreateInvoice);
    var r := SettleScene(s, windows, taskId, attemptId, env);
    var marked := AfterMark(s.(orders := after), windows, taskId);
    SameNamesFit(s.task.bills, s.task.bills, attemptId, s.attempt, marked.attempt);
    InOrder(s.task.bills, s.task.bills, attemptId, marked.attempt);
    if ok {
      InvoiceSceneFits(marked, windows, attemptId, env);
    } else {
      SameNamesFit(s.task.bills, s.task.bills, attemptId, s.attempt, r.attempt);
    }
  }

  // ---- One stage run ----

  ghost predicate RunFits(attemptId: string, task: Task, run: StageRun) {
    run.task.Some? && Fits(task.bills, run.task.value.bills, attemptId, run.attempt)
  }

  lemma InvoiceRunFits(attemptId: string, a: Attempt, task: Task, orders: map<string, OrderStatus>, env: StageEnv)
    requires AllDocumented(task.bills) && Describes(task.bills, attemptId, a)
    ensures RunFits(attemptId, task, RunCreateInvoice(attemptId, a, Some(task), orders, env))
  {
    hide Fits, AllDocumented, Describes, ReplayWindows, CreateInvoiceRequest, Billing.Invoice, Advanced, Contained;
    var bills := task.bills;
    var run := RunCreateInvoice(attemptId, a, Some(task), orders, env);
    FitsItself(bills, attemptId, a);
    if !run.ok || run.calls == [] {
      SameNamesFit(bills, bills, attemptId, a, run.attempt);
    } else {
      assert a.invoiceId.None? && run.attempt.invoiceId.Some? && run.attempt.paymentId == a.paymentId;
      var b := a.(invoiceId := run.attempt.invoiceId);
      var invoiced := Billing.Invoice(bills, attemptId, b.invoiceId.value);
      assert run.task == Some(WithBillStatus(task.(bills := invoiced), attemptId, Invoiced));
      hide RunCreateInvoice;
      InvoiceFits(bills, attemptId, a, b.invoiceId.value);
      InOrder(bills, invoiced, attemptId, b);
      StatusFits(invoiced, attemptId, b, Invoiced);
      FitsThen(bills, invoiced, run.task.value.bills, attemptId, b, b);
      SameNamesFit(bills, run.task.value.bills, attemptId, b, run.attempt);
    }
  }

  lemma PaymentRunFits(attemptId: string, a: Attempt, task: Task, orders: map<string, OrderStatus>, env: StageEnv)
    requires AllDocumented(task.bills) && Describes(task.bills, attemptId, a)
    ensures RunFits(attemptId, task, RunSettlePayment(attemptId, a, Some(task), orders, env))
  {
    hide Fits, AllDocumented, Describes, ReplayWindows, SettlePaymentRequest, Paying, Advanced, Contained;
    var bills := task.bills;
    var run := RunSettlePayment(attemptId, a, Some(task), orders, env);
    FitsItself(bills, attemptId, a);
    if !run.ok || run.calls == [] {
      SameNamesFit(bills, bills, attemptId, a, run.attempt);
    } else {
      assert a.paymentId.None? && run.attempt.paymentId.Some? && run.attempt.invoiceId == a.invoiceId;
      var b := a.(paymentId := run.attempt.paymentId);
      var paying := Paying(bills, attemptId, b.paymentId.value);
      assert run.task == Some(WithBillStatus(task.(bills := paying), attemptId, PaymentSubmitted));
      hide RunSettlePayment;
      PayingFits(bills, attemptId, a, b.paymentId.value);
      InOrder(bills, paying, attemptId, b);
      StatusFits(paying, attemptId, b, PaymentSubmitted);
      FitsThen(bills, paying, run.task.value.bills, attemptId, b, b);
      SameNamesFit(bills, run.task.value.bills, attemptId, b, run.attempt);
    }
  }

  lemma RecordRunFits(attemptId: string, a: Attempt, task: Task, orders: map<string, OrderStatus>, env: StageEnv)
    requires AllDocumented(task.bills) && Describes(task.bills, attemptId, a)
    ensures RunFits(attemptId, task, RunRecordResult(attemptId, a, Some(task), orders, env))
  {
    hide Fits, AllDocumented, Describes, ReplayWindows, RecordResultRequest, Advanced, Contained;
    var bills := task.bills;
    var run := RunRecordResult(attemptId, a, Some(task), orders, env);
    FitsItself(bills, attemptId, a);
    if a.invoiceId.Some? && a.paymentId.Some? {
      StatusFits(bills, attemptId, a, Disputed);
      StatusFits(bills, attemptId, a, Paid);
    }
    SameNamesFit(bills, run.task.value.bills, attemptId, a, run.attempt);
  }

  lemma StageRunFits(attemptId: string, a: Attempt, task: Task, orders: map<string, OrderStatus>, env: StageEnv)
    requires AllDocumented(task.bills) && Describes(task.bills, attemptId, a)
    ensures RunFits(attemptId, task, RunStage(attemptId, a, Some(task), orders, env))
  {
    hide Fits, AllDocumented, Describes, Call, RunCreateInvoice, RunSettlePayment, RunRecordResult, Contained;
    InvoiceRunFits(attemptId, a, task, orders, env);
    PaymentRunFits(attemptId, a, task, orders, env);
    RecordRunFits(attemptId, a, task, orders, env);
    FitsItself(task.bills, attemptId, a);
    var run := RunStage(attemptId, a, Some(task), orders, env);
    if a.stage == ProviderMarkSettling || a.stage == ProviderMarkSettled {
      SameNamesFit(task.bills, task.bills, attemptId, a, run.attempt);
    }
  }

  // ---- Every step ----

  /** Every bill has the papers its status asks for, and they are its attempt's. */
  ghost predicate Filed(w: World) {
    forall t, i :: t in w.tasks && 0 <= i < |w.tasks[t].bills| ==>
      var b := w.tasks[t].bills[i];
      Documented(b) && b.attemptId in w.attempts && Names(b, w.attempts[b.attemptId])
  }

  /** The papers of bills and attempts stay what they are. */
  ghost predicate KeepsPapers(w: World, v: World) {
    && v.tasks.Keys == w.tasks.Keys
    && forall t :: t in w.tasks ==> PapersKept(w.tasks[t].bills, v.tasks[t].bills)
  }

  ghost predicate PapersKept(x: seq<Bill>, y: seq<Bill>) {
    && |x| == |y|
    && forall i :: 0 <= i < |x| ==> SamePapers(x[i], y[i]) && (Documented(x[i]) ==> Documented(y[i]))
  }

  ghost predicate KeepsRecords(w: World, v: World) {
    forall id :: id in w.attempts ==> id in v.attempts && SameRecord(w.attempts[id], v.attempts[id])
  }

  lemma FrameFiled(w: World, v: World)
    requires Filed(w) && KeepsPapers(w, v) && KeepsRecords(w, v)
    ensures Filed(v)
  {
    hide Documented;
  }

  /** With the same calls logged, sound states hold the same papers. */
  lemma SafeKeepsRecords(w: World, v: World)
    requires Safe(w) && Safe(v) && v.gateway == w.gateway && Later(w, v)
    ensures KeepsRecords(w, v)
  {
    forall id | id in w.attempts ensures id in v.attempts && SameRecord(w.attempts[id], v.attempts[id]) {
      assert Listed(v.attempts[id].invoiceId) == Listed(w.attempts[id].invoiceId);
      assert Listed(v.attempts[id].paymentId) == Listed(w.attempts[id].paymentId);
    }
  }

  /** The pass or run of one attempt, in the task it belongs to. */
  lemma OneFiled(w: World, v: World, taskId: string, attemptId: string, bills: seq<Bill>)
    requires Filed(w) && taskId in w.tasks && taskId in v.tasks && v.tasks == w.tasks[taskId := v.tasks[taskId]]
    requires attemptId in v.attempts && v.attempts == w.attempts[attemptId := v.attempts[attemptId]]
    requires forall t, i :: t in w.tasks && t != taskId && 0 <= i < |w.tasks[t].bills| ==>
               w.tasks[t].bills[i].attemptId != attemptId
    requires Fits(bills, v.tasks[taskId].bills, attemptId, v.attempts[attemptId])
    requires forall i :: 0 <= i < |bills| && bills[i].attemptId != attemptId ==>
               bills[i].attemptId in w.attempts && Names(bills[i], w.attempts[bills[i].attemptId])
    ensures Filed(v)
  {
    hide Documented;
    forall t, i | t in v.tasks && 0 <= i < |v.tasks[t].bills|
      ensures var b := v.tasks[t].bills[i];
              Documented(b) && b.attemptId in v.attempts && Names(b, v.attempts[b.attemptId])
    {
      if t == taskId && bills[i].attemptId != attemptId {
        assert SamePapers(bills[i], v.tasks[t].bills[i]);
      }
    }
  }

  lemma NewBillsNamed(w: World, taskId: string, attemptId: string)
    requires Filed(w) && Billed(w) && Settleable(w, taskId) && attemptId !in w.attempts
    ensures var task := w.tasks[taskId];
            var s := Opening(taskId, task, attemptId, w.bindings[task.bound.value], w.orders);
            && AllDocumented(s.task.bills) && Describes(s.task.bills, attemptId, s.attempt)
            && forall i :: 0 <= i < |s.task.bills| && s.task.bills[i].attemptId != attemptId ==>
                 s.task.bills[i].attemptId in w.attempts && Names(s.task.bills[i], w.attempts[s.task.bills[i].attemptId])
  {
    var task := w.tasks[taskId];
    var binding := w.bindings[task.bound.value];
    assert Sound(task.bills) && Owned(w, taskId, task.bills);
    UpsertedPapers(task.bills, attemptId, binding.matchId, Drained(task), binding.unitPrice, task.interval);
    hide Upserted, Sound, Billed;
  }

  lemma {:induction false} UpsertedPapers(bills: seq<Bill>, attemptId: string, tradeId: string, windows: seq<Charge>,
                                          unitPrice: real, interval: nat)
    ensures var r := Upserted(bills, attemptId, tradeId, windows, unitPrice, interval);
            && bills <= r
            && forall i :: |bills| <= i < |r| ==>
                 r[i].attemptId == attemptId && r[i].invoiceId == None && r[i].paymentId == None && r[i].status == Pending
  {
    if windows != [] {
      hide BillingWindowKey, Round, HasBill;
      UpsertedPapers(bills, attemptId, tradeId, windows[..|windows| - 1], unitPrice, interval);
    }
  }

  lemma NoBillsElsewhere(w: World, taskId: string, attemptId: string)
    requires Billed(w) && (attemptId in w.attempts ==> w.attempts[attemptId].taskId == taskId)
    ensures forall t, i :: t in w.tasks && t != taskId && 0 <= i < |w.tasks[t].bills| ==>
              w.tasks[t].bills[i].attemptId != attemptId
  {
    forall t, i | t in w.tasks && t != taskId && 0 <= i < |w.tasks[t].bills|
      ensures w.tasks[t].bills[i].attemptId != attemptId
    {
      assert Owned(w, t, w.tasks[t].bills);
    }
  }

  lemma PassDoneFiled(w: World, taskId: string, attemptId: string, env: SettleEnv)
    requires Filed(w) && Billed(w)
    ensures Filed(PassDone(w, taskId, attemptId, env))
  {
    hide Filed, Billed, Fits, AllDocumented, Describes, SettleScene, Opening, Names;
    if Settleable(w, taskId) && attemptId !in w.attempts {
      var task := w.tasks[taskId];
      var s := Opening(taskId, task, attemptId, w.bindings[task.bound.value], w.orders);
      NewBillsNamed(w, taskId, attemptId);
      SettleFits(s, Drained(task), taskId, attemptId, env);
      NoBillsElsewhere(w, taskId, attemptId);
      OneFiled(w, PassDone(w, taskId, attemptId, env), taskId, attemptId, s.task.bills);
    }
  }

  lemma PolledFiled(w: World, taskId: string, report: PollReport, attemptId: string, env: SettleEnv)
    requires Filed(w) && Billed(w)
    ensures Filed(Polled(w, taskId, report, attemptId, env))
  {
    if taskId in w.tasks {
      var v := w.(tasks := w.tasks[taskId := Admitted(w.tasks[taskId], report)]);
      AdmittedKeeps(w, taskId, report);
      hide Filed, Billed, Admitted, Admits, PassDone;
      PassDoneFiled(v, taskId, attemptId, env);
    }
  }

  lemma AdmittedKeeps(w: World, taskId: string, report: PollReport)
    requires Filed(w) && Billed(w) && taskId in w.tasks
    ensures var v := w.(tasks := w.tasks[taskId := Admitted(w.tasks[taskId], report)]);
            Filed(v) && Billed(v)
  {
    hide Documented, Names, Admits, Sound;
  }

  lemma ResumedFiled(w: World, attemptId: string, now: nat, env: StageEnv)
    requires Filed(w) && Billed(w) && Resumes(w, attemptId, now)
    ensures Filed(Recovered(w, attemptId, now, env))
  {
    var a := w.attempts[attemptId];
    var v := Recovered(w, attemptId, now, env);
    if a.taskId in w.tasks {
      var task := w.tasks[a.taskId];
      TaskFiled(w, a.taskId, attemptId);
      NoBillsElsewhere(w, a.taskId, attemptId);
      hide Filed, Billed, Fits, AllDocumented, Describes, RunStage, Names, AfterRun;
      var run := Resumed(w, attemptId, env);
      StageRunFits(attemptId, a, task, w.orders, env);
      AfterRunNames(run);
      SameNamesFit(task.bills, run.task.value.bills, attemptId, run.attempt, AfterRun(run));
      OneFiled(w, v, a.taskId, attemptId, task.bills);
    } else {
      NoBillsAnywhere(w, attemptId);
      hide Billed, RunStage, AfterRun, Documented, Names;
      assert v.tasks == w.tasks;
    }
  }

  lemma AfterRunNames(run: StageRun)
    ensures SameRecord(run.attempt, AfterRun(run)) && AfterRun(run).taskId == run.attempt.taskId
  {
  }

  lemma TaskFiled(w: World, taskId: string, attemptId: string)
    requires Filed(w) && taskId in w.tasks && attemptId in w.attempts
    ensures AllDocumented(w.tasks[taskId].bills) && Describes(w.tasks[taskId].bills, attemptId, w.attempts[attemptId])
    ensures forall i :: 0 <= i < |w.tasks[taskId].bills| ==>
              var b := w.tasks[taskId].bills[i];
              b.attemptId in w.attempts && Names(b, w.attempts[b.attemptId])
  {
    hide Documented, Names;
  }

  lemma NoBillsAnywhere(w: World, attemptId: string)
    requires Billed(w) && attemptId in w.attempts && w.attempts[attemptId].taskId !in w.tasks
    ensures forall t, i :: t in w.tasks && 0 <= i < |w.tasks[t].bills| ==> w.tasks[t].bills[i].attemptId != attemptId
  {
    NoBillsElsewhere(w, w.attempts[attemptId].taskId, attemptId);
  }

  lemma GivenUpFiled(w: World, attemptId: string, now: nat, env: StageEnv)
    requires Filed(w) && !Resumes(w, attemptId, now)
    ensures Filed(Recovered(w, attemptId, now, env))
  {
    hide RunStage, Documented;
  }

  lemma RebindsKeepPapers(w: World, v: World)
    requires OnlyRebinds(w.tasks, v.tasks)
    ensures KeepsPapers(w, v)
  {
    hide Documented;
  }

  lemma SameTasksKeepPapers(w: World, v: World)
    requires v.tasks == w.tasks
    ensures KeepsPapers(w, v)
  {
    hide Documented;
  }

  lemma DisputedBillsKeepPapers(x: seq<Bill>, attemptId: string, tradeId: Option<string>)
    ensures PapersKept(x, AllMoved(x, attemptId, Failed))
    ensures PapersKept(x, PenaltyApplied(x, tradeId))
    ensures PapersKept(x, RefundReleased(x, tradeId))
  {
    hide Round, Max0;
  }

  lemma DisputesKeepPapers(w: World, attemptId: string, tradeId: Option<string>)
    ensures KeepsPapers(w, w.(tasks := RolledBackTasks(w.tasks, attemptId)))
    ensures KeepsPapers(w, w.(tasks := PenalizedTasks(w.tasks, tradeId)))
    ensures KeepsPapers(w, w.(tasks := RefundedTasks(w.tasks, tradeId)))
  {
    hide PapersKept, AllMoved, PenaltyApplied, RefundReleased;
    forall t | t in w.tasks
      ensures PapersKept(w.tasks[t].bills, AllMoved(w.tasks[t].bills, attemptId, Failed))
      ensures PapersKept(w.tasks[t].bills, PenaltyApplied(w.tasks[t].bills, tradeId))
      ensures PapersKept(w.tasks[t].bills, RefundReleased(w.tasks[t].bills, tradeId))
    {
      DisputedBillsKeepPapers(w.tasks[t].bills, attemptId, tradeId);
    }
  }

  lemma PapersByTasks(w: World, u: World, v: World)
    requires KeepsPapers(w, u) && v.tasks == u.tasks
    ensures KeepsPapers(w, v)
  {
    hide PapersKept;
  }

  lemma ActionTakenKeepsPapers(w: World, d: Dispute, action: DisputeAction)
    ensures KeepsPapers(w, ActionTaken(w, d, action))
  {
    hide KeepsPapers, WithAttempt, RolledBackTasks, PenalizedTasks, RefundedTasks;
    var v := ActionTaken(w, d, action);
    match action
    case RollbackAction =>
      if d.attemptId.Some? {
        DisputesKeepPapers(w, d.attemptId.value, d.tradeId);
        PapersByTasks(w, w.(tasks := RolledBackTasks(w.tasks, d.attemptId.value)), v);
      } else {
        SameTasksKeepPapers(w, v);
      }
    case ApplyPenalty => DisputesKeepPapers(w, "", d.tradeId);
    case ReleaseRefund => DisputesKeepPapers(w, "", d.tradeId);
    case RetryAction => SameTasksKeepPapers(w, v);
    case MarkFinalAction => SameTasksKeepPapers(w, v);
    case RefreshRemoteStatus => SameTasksKeepPapers(w, v);
    case Escalate => SameTasksKeepPapers(w, v);
    case Resolve => SameTasksKeepPapers(w, v);
  }

  lemma SetRunningKeepsPapers(w: World, taskId: string, running: bool)
    requires taskId in w.tasks
    ensures KeepsPapers(w, w.(tasks := w.tasks[taskId := w.tasks[taskId].(running := running)]))
  {
    hide Documented;
  }

  lemma NextKeepsPapers(w: World, step: Step)
    requires !step.Poll? && !step.Recover?
    ensures KeepsPapers(w, Next(w, step))
  {
    hide KeepsPapers, OnlyRebinds, ActionTaken, AllowedActions;
    SameTasksKeepPapers(w, w);
    if Rebinding(step) {
      hide Next;
      RebindingSteps(w, step);
      RebindsKeepPapers(w, Next(w, step));
    } else if step.SetRunning? {
      if step.taskId in w.tasks {
        SetRunningKeepsPapers(w, step.taskId, step.running);
      }
    } else if step.disputeId in w.disputes {
      ActionTakenKeepsPapers(w, w.disputes[step.disputeId], step.action);
    }
  }

  lemma NextFiled(w: World, step: Step)
    requires Filed(w) && Billed(w) && Safe(w)
    ensures Filed(Next(w, step))
  {
    hide Filed, Billed, Safe, Later, KeepsPapers, KeepsRecords, Polled, Recovered, Resumes, Next;
    if step.Poll? {
      PollStep(w, step);
      PolledFiled(w, step.taskId, step.report, step.attemptId, step.env);
    } else if step.Recover? {
      RecoverStep(w, step);
      if Resumes(w, step.attemptId, step.now) {
        ResumedFiled(w, step.attemptId, step.now, step.stageEnv);
      } else {
        GivenUpFiled(w, step.attemptId, step.now, step.stageEnv);
      }
    } else {
      NextSafe(w, step);
      NextLater(w, step);
      GatewayLeft(w, step);
      SafeKeepsRecords(w, Next(w, step));
      NextKeepsPapers(w, step);
      FrameFiled(w, Next(w, step));
    }
  }

  lemma InitialFiled(w: World)
    requires Initial(w)
    ensures Filed(w)
  {
  }

  lemma {:induction false} RunFiled(w: World, steps: seq<Step>)
    requires Initial(w)
    ensures Filed(Run(w, steps))
  {
    hide Filed, Billed, Safe, Next, Initial;
    if steps == [] {
      InitialFiled(w);
    } else {
      RunFiled(w, steps[..|steps| - 1]);
      RunBilled(w, steps[..|steps| - 1]);
      RunIsSafe(w, steps[..|steps| - 1]);
      NextFiled(Run(w, steps[..|steps| - 1]), steps[|steps| - 1]);
    }
  }

  /**
   * Over every run a bill names exactly the papers the gateway confirmed for its attempt, and has those its status asks
   * for. It names every payment the gateway took for the attempt exactly when none had its answer lost, and likewise every
   * invoice.
   */
  lemma PaidBillsWerePaid(w: World, steps: seq<Step>, taskId: string, i: nat)
    requires Initial(w) && taskId in Run(w, steps).tasks && i < |Run(w, steps).tasks[taskId].bills|
    ensures var v := Run(w, steps);
            var b := v.tasks[taskId].bills[i];
            var payments := Gateway.PaymentAnswers(v.gateway, b.attemptId);
            var invoices := Gateway.InvoiceAnswers(v.gateway, b.attemptId);
            && Listed(b.paymentId) == ConfirmedPayments(v.gateway, b.attemptId)
            && Listed(b.invoiceId) == ConfirmedInvoices(v.gateway, b.attemptId)
            && (b.status in {PaymentSubmitted, Paid, Disputed} ==> b.paymentId.Some? && b.invoiceId.Some?)
            && (b.status == Invoiced ==> b.invoiceId.Some?)
            && (multiset(Gateway.MadeIds(payments)) == multiset(Listed(b.paymentId)) <==> Gateway.LostIds(payments) == [])
            && (multiset(Gateway.MadeIds(invoices)) == multiset(Listed(b.invoiceId)) <==> Gateway.LostIds(invoices) == [])
  {
    hide Run, Initial, ConfirmedInvoices, ConfirmedPayments, AttemptOk, Gateway.MadeIds, Gateway.LostIds;
    hide Gateway.PaymentAnswers, Gateway.InvoiceAnswers, Listed;
    RunFiled(w, steps);
    RunIsSafe(w, steps);
    var v := Run(w, steps);
    var b := v.tasks[taskId].bills[i];
    assert Documented(b) && Names(b, v.attempts[b.attemptId]);
    Gateway.MadeIsHeldOrLost(w, steps, b.attemptId);
    NoneLost(Gateway.LostIds(Gateway.PaymentAnswers(v.gateway, b.attemptId)), Listed(b.paymentId));
    NoneLost(Gateway.LostIds(Gateway.InvoiceAnswers(v.gateway, b.attemptId)), Listed(b.invoiceId));
  }

  lemma NoneLost(lost: seq<string>, held: seq<string>)
    ensures multiset(held) + multiset(lost) == multiset(held) <==> lost == []
  {
    if lost != [] {
      assert multiset(lost)[lost[0]] > 0;
      assert (multiset(held) + multiset(lost))[lost[0]] != multiset(held)[lost[0]];
    }
  }

  // ---- The windows a pass settled, and their bills ----

  /** In a reachable state a new attempt has no bills, and its windows differ. */
  lemma FreshAttempt(w: World, taskId: string, attemptId: string)
    requires Billed(w) && Windows.AllConserved(w) && Settleable(w, taskId) && attemptId !in w.attempts
    ensures NoBillsOf(w.tasks[taskId].bills, attemptId) && DistinctIndexes(Drained(w.tasks[taskId]))
  {
    var task := w.tasks[taskId];
    assert Owned(w, taskId, task.bills);
    assert Windows.Increasing(Windows.QueueOf(task).pending);
  }

  /** The attempt has a bill under the key, and it names the attempt's papers. */
  predicate BilledTo(bills: seq<Bill>, key: string, attemptId: string, a: Attempt) {
    exists i :: 0 <= i < |bills| && bills[i].billId == key && bills[i].attemptId == attemptId && Names(bills[i], a)
  }

  lemma BilledToOwn(x: seq<Bill>, y: seq<Bill>, key: string, attemptId: string, a: Attempt)
    requires SameBills(x, y) && Describes(y, attemptId, a)
    ensures BilledTo(y, key, attemptId, a) <==> HasOwnBill(x, key, attemptId)
  {
    if HasOwnBill(x, key, attemptId) {
      var i :| 0 <= i < |x| && x[i].billId == key && x[i].attemptId == attemptId;
      assert y[i].billId == key && y[i].attemptId == attemptId && Names(y[i], a);
    }
    if BilledTo(y, key, attemptId, a) {
      var i :| 0 <= i < |y| && y[i].billId == key && y[i].attemptId == attemptId && Names(y[i], a);
      assert x[i].billId == key && x[i].attemptId == attemptId;
    }
  }

  /**
   * In every reachable state: after a pass, one of its windows has a bill that names the payment of the pass exactly when
   * the window had no bill before; otherwise its bill stays with an earlier attempt, though this pass paid for it.
   */
  lemma BilledToThePass(w0: World, steps: seq<Step>, taskId: string, attemptId: string, env: SettleEnv, i: nat)
    requires Initial(w0)
    requires var w := Run(w0, steps);
             Settleable(w, taskId) && attemptId !in w.attempts && i < |Drained(w.tasks[taskId])|
    ensures var w := Run(w0, steps);
            var task, v := w.tasks[taskId], PassDone(w, taskId, attemptId, env);
            var key := BillingWindowKey(w.bindings[task.bound.value].matchId, Drained(task)[i].windowIndex, task.interval);
            BilledTo(v.tasks[taskId].bills, key, attemptId, v.attempts[attemptId]) <==> !HasBill(task.bills, key)
  {
    hide Run, Initial, SettleScene, BillingWindowKey, HasBill, HasOwnBill, BilledTo, AllDocumented, Describes, NoBillsOf;
    hide DistinctIndexes, Upserted, Filed, Billed, Sound, Indexes;
    var w := Run(w0, steps);
    RunFiled(w0, steps);
    RunBilled(w0, steps);
    Windows.RunConserves(w0, steps);
    var task := w.tasks[taskId];
    var binding := w.bindings[task.bound.value];
    var windows := Drained(task);
    var s := Opening(taskId, task, attemptId, binding, w.orders);
    NewBillsNamed(w, taskId, attemptId);
    SettleFits(s, windows, taskId, attemptId, env);
    SettleKeeps(s, windows, taskId, attemptId, env);
    FreshAttempt(w, taskId, attemptId);
    OwnBills(task.bills, attemptId, binding.matchId, windows, binding.unitPrice, task.interval, windows[i].windowIndex);
    var r := SettleScene(s, windows, taskId, attemptId, env);
    var key := BillingWindowKey(binding.matchId, windows[i].windowIndex, task.interval);
    InOrder(s.task.bills, r.task.bills, attemptId, r.attempt);
    BilledToOwn(s.task.bills, r.task.bills, key, attemptId, r.attempt);
    assert HasWindow(windows, windows[i].windowIndex);
  }
}
