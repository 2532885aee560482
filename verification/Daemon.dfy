/**
 * The agent daemon itself: the functions of apps/agentd/src/main.rs and market_support.rs that change its shared maps in
 * place, each proved to do exactly what the corresponding step of `Agent` says.
 */
module Daemon {
  import opened Wrappers
  import opened Market
  import opened Billing
  import opened Orders
  import opened Settlement
  import opened Agent

  /** Writing a key twice is writing it once. */
  lemma Overwrite<K, V>(m: map<K, V>, k: K, a: V, b: V)
    ensures m[k := a][k := b] == m[k := b]
  {
  }

  lemma OverwriteTwice<K, V>(m: map<K, V>, k: K, a: V, b: V, c: V)
    ensures m[k := a][k := b][k := c] == m[k := c]
  {
    Overwrite(m, k, a, b);
    Overwrite(m, k, b, c);
  }

  lemma OverwriteThrice<K, V>(m: map<K, V>, k: K, a: V, b: V, c: V, d: V)
    ensures m[k := a][k := b][k := c][k := d] == m[k := d]
  {
    Overwrite(m, k, a, b);
    Overwrite(m, k, b, c);
    Overwrite(m, k, c, d);
  }

  class AppState {
    var attempts: map<string, Attempt>
    var tasks: map<string, Task>
    var bindings: map<string, Binding>
    var lockedBuys: set<string>
    var lockedSells: set<string>
    var accepts: map<string, AcceptAttempt>
    var ledger: map<string, string>
    var disputes: map<string, Dispute>
    var backoff: map<string, nat>
    var mode: Mode
    var orders: map<string, OrderStatus>
    var overridden: set<string>
    var gateway: seq<GatewayCall>

    ghost function View(): World
      reads this
    {
      World(attempts, tasks, bindings, lockedBuys, lockedSells, accepts, ledger, disputes, backoff, mode, orders, overridden,
            gateway)
    }

    // ---- Calls to the provider ----

    method PostProviderOrderAction(action: Action, orderId: string, delivery: Delivery) returns (ok: bool)
      modifies this`orders
      ensures orders == Call(old(orders), action, orderId, delivery).0
      ensures ok == Call(old(orders), action, orderId, delivery).1
    {
      var (after, answered) := Call(orders, action, orderId, delivery);
      orders := after;
      ok := answered;
    }

    // ---- The attempt helpers ----

    method AdvanceSettlementAttemptStage(attemptId: string, next: Stage)
      requires attemptId in attempts
      modifies this`attempts
      ensures attempts == old(attempts)[attemptId := Advance(old(attempts)[attemptId], next)]
    {
      hide CanTransitionStage, CanTransitionAttempt;
      var a := attempts[attemptId];
      if CanTransitionStage(a.stage, next) {
        a := a.(stage := next);
      }
      if CanTransitionAttempt(a.status, InProgress) {
        a := a.(status := InProgress);
      }
      attempts := attempts[attemptId := a];
    }

    method FailSettlementAttempt(attemptId: string, status: AttemptStatus, stage: Stage)
      requires attemptId in attempts
      modifies this`attempts
      ensures attempts == old(attempts)[attemptId := Fail(old(attempts)[attemptId], status, stage)]
    {
      hide CanTransitionAttempt;
      var a := attempts[attemptId];
      if CanTransitionAttempt(a.status, status) {
        a := a.(status := status);
      }
      a := a.(stage := stage, retries := a.retries + 1);
      attempts := attempts[attemptId := a];
    }

    method FinalizeSettlementAttempt(attemptId: string, invoiceId: string, paymentId: string)
      requires attemptId in attempts
      modifies this`attempts
      ensures attempts == old(attempts)[attemptId := Finalize(old(attempts)[attemptId], invoiceId, paymentId)]
    {
      hide CanTransitionAttempt;
      var a := attempts[attemptId];
      if CanTransitionAttempt(a.status, Committed) {
        a := a.(status := Committed);
      }
      a := a.(stage := ProviderMarkSettled, invoiceId := Some(invoiceId), paymentId := Some(paymentId));
      a := a.(settledDone := true, recorded := true);
      attempts := attempts[attemptId := a];
    }

    // ---- One pass of the settle loop ----

    /** The pass has got as far as the scene `s`, from the state `w`. */
    ghost predicate At(w: World, taskId: string, matchId: string, attemptId: string, s: Scene)
      reads this
    {
      && attempts == w.attempts[attemptId := s.attempt]
      && tasks == w.tasks[taskId := s.task]
      && bindings == w.bindings[matchId := s.binding]
      && lockedBuys == (if s.locked then w.lockedBuys else w.lockedBuys - {s.binding.buyOrderId})
      && lockedSells == (if s.locked then w.lockedSells else w.lockedSells - {s.binding.sellOrderId})
      && orders == s.orders
      && gateway == w.gateway + s.calls
    }

    method ReleaseAfterFailure(taskId: string, matchId: string, attemptId: string, status: MatchStatus, delivery: Delivery,
                               ghost w: World, ghost s: Scene)
      requires At(w, taskId, matchId, attemptId, s) && s.locked
      modifies this`attempts, this`tasks, this`bindings, this`lockedBuys, this`lockedSells, this`orders, this`gateway
      ensures At(w, taskId, matchId, attemptId, Settlement.Release(s, status, delivery))
    {
      hide Call;
      var b := bindings[matchId];
      assert b == s.binding && tasks[taskId] == s.task;
      Overwrite(w.bindings, matchId, b, b.(status := status));
      Overwrite(w.tasks, taskId, s.task, s.task.(bound := None));
      bindings := bindings[matchId := b.(status := status)];
      var _ := PostProviderOrderAction(Orders.Release, b.sellOrderId, delivery);
      lockedBuys := lockedBuys - {b.buyOrderId};
      lockedSells := lockedSells - {b.sellOrderId};
      tasks := tasks[taskId := tasks[taskId].(bound := None)];
    }

    /** The failing exits after the first: the windows go back to the front of the queue. */
    method PutBackAndRelease(taskId: string, matchId: string, attemptId: string, windows: seq<Charge>, status: MatchStatus,
                             delivery: Delivery, ghost w: World, ghost s: Scene, ghost attempt: Attempt)
      requires At(w, taskId, matchId, attemptId, s.(attempt := attempt)) && s.locked
      modifies this`attempts, this`tasks, this`bindings, this`lockedBuys, this`lockedSells, this`orders, this`gateway
      ensures At(w, taskId, matchId, attemptId, PutBack(s, windows, attempt, status, delivery))
    {
      var task := tasks[taskId];
      tasks := tasks[taskId := task.(pending := windows + task.pending)];
      attempts := attempts[attemptId := attempts[attemptId].(fate := WentBack)];
      ghost var r := s.(attempt := attempt.(fate := WentBack), task := s.task.(pending := windows + s.task.pending));
      ReleaseAfterFailure(taskId, matchId, attemptId, status, delivery, w, r);
    }

    /** A call to the gateway goes out. */
    method SendToGateway(taskId: string, matchId: string, attemptId: string, call: GatewayCall, ghost w: World, ghost s: Scene)
      requires At(w, taskId, matchId, attemptId, s)
      modifies this`gateway
      ensures At(w, taskId, matchId, attemptId, Asked(s, call))
    {
      gateway := gateway + [call];
    }

    method SettleCommit(taskId: string, matchId: string, attemptId: string, invoiceId: string, paymentId: string,
                        env: SettleEnv, ghost w: World, ghost s: Scene) returns (committed: bool)
      requires At(w, taskId, matchId, attemptId, s) && s.locked && s.binding.matchId == matchId
      modifies this`attempts, this`tasks, this`bindings, this`lockedBuys, this`lockedSells, this`orders, this`gateway
      ensures At(w, taskId, matchId, attemptId, CommitScene(s, invoiceId, paymentId, env))
      ensures committed <==> CommitScene(s, invoiceId, paymentId, env).locked
    {
      hide Call, FinalizedTrade, Delivered, PaidOut, Settlement.Release, Finalize, Fail;
      var marked := PostProviderOrderAction(Orders.MarkSettled, bindings[matchId].sellOrderId, env.settled);
      ghost var r := s.(orders := orders);
      assert At(w, taskId, matchId, attemptId, r);
      if !marked {
        FailSettlementAttempt(attemptId, FailedFinal, ProviderMarkSettled);
        r := r.(attempt := Fail(s.attempt, FailedFinal, ProviderMarkSettled));
        Overwrite(w.attempts, attemptId, s.attempt, r.attempt);
        ReleaseAfterFailure(taskId, matchId, attemptId, MatchFailedFinal, env.release, w, r);
        return false;
      }
      var task := tasks[taskId];
      task := EndTradeIfDelivered(task, bindings[matchId]);
      tasks := tasks[taskId := task];
      r := r.(task := AutoFinalized(s.task, s.binding));
      Overwrite(w.tasks, taskId, s.task, r.task);
      assert At(w, taskId, matchId, attemptId, r);
      Overwrite(w.attempts, attemptId, s.attempt, Finalize(s.attempt, invoiceId, paymentId));
      FinalizeSettlementAttempt(attemptId, invoiceId, paymentId);
      committed := true;
    }

    /** The gateway has recorded the result: the windows are settled and paid for. */
    method NoteResult(taskId: string, matchId: string, attemptId: string, windows: seq<Charge>, ghost w: World, ghost s: Scene)
      requires At(w, taskId, matchId, attemptId, s) && s.locked
      modifies this`attempts, this`tasks, this`bindings, this`lockedBuys, this`lockedSells, this`orders, this`gateway
      ensures At(w, taskId, matchId, attemptId, AfterRecord(s, windows, attemptId))
    {
      hide Advance, Advanced, Round, Sum, IndexSet;
      ghost var r := AfterRecord(s, windows, attemptId);
      var task := SettleWindows(tasks[taskId], attemptId, windows);
      tasks := tasks[taskId := task];
      Overwrite(w.tasks, taskId, s.task, task);
      assert tasks == w.tasks[taskId := r.task];
      bindings := bindings[matchId := bindings[matchId].(status := MatchSettled)];
      Overwrite(w.bindings, matchId, s.binding, r.binding);
      assert bindings == w.bindings[matchId := r.binding];
      AdvanceSettlementAttemptStage(attemptId, ProviderMarkSettled);
      attempts := attempts[attemptId := attempts[attemptId].(fate := WereSettled)];
      OverwriteTwice(w.attempts, attemptId, s.attempt, Advance(s.attempt, ProviderMarkSettled), r.attempt);
    }

    /** The gateway has not recorded the result: the attempt's bills are disputed. */
    method DisputeBills(taskId: string, matchId: string, attemptId: string, ghost w: World, ghost s: Scene)
      requires At(w, taskId, matchId, attemptId, s)
      modifies this`tasks
      ensures At(w, taskId, matchId, attemptId, s.(task := WithBillStatus(s.task, attemptId, Disputed)))
    {
      hide WithBillStatus;
      var task := ApplyBillingStatus(tasks[taskId], attemptId, Disputed);
      tasks := tasks[taskId := task];
      Overwrite(w.tasks, taskId, s.task, task);
    }

    method SettleRecord(taskId: string, matchId: string, attemptId: string, windows: seq<Charge>, invoiceId: string,
                        paymentId: string, env: SettleEnv, ghost w: World, ghost s: Scene) returns (committed: bool)
      requires At(w, taskId, matchId, attemptId, s) && s.locked && s.binding.matchId == matchId
      modifies this`attempts, this`tasks, this`bindings, this`lockedBuys, this`lockedSells, this`orders, this`gateway
      ensures At(w, taskId, matchId, attemptId, RecordScene(s, windows, invoiceId, paymentId, attemptId, env))
      ensures committed <==> RecordScene(s, windows, invoiceId, paymentId, attemptId, env).locked
    {
      hide CommitScene, PutBack, Fail, Advanced, AfterRecord;
      ghost var failed := Fail(s.attempt, PaymentUnknown, RecordResult);
      if env.recordBlocked {
        FailSettlementAttempt(attemptId, PaymentUnknown, RecordResult);
        PutBackAndRelease(taskId, matchId, attemptId, windows, MatchPaymentUnknown, env.release, w, s, failed);
        return false;
      }
      gateway := gateway + [ResultCall(attemptId, env.recorded)];
      ghost var asked := Asked(s, ResultCall(attemptId, env.recorded));
      if !env.recorded.Answered? {
        FailSettlementAttempt(attemptId, PaymentUnknown, RecordResult);
        DisputeBills(taskId, matchId, attemptId, w, asked.(attempt := failed));
        PutBackAndRelease(taskId, matchId, attemptId, windows, MatchPaymentUnknown, env.release, w,
                          asked.(task := WithBillStatus(s.task, attemptId, Disputed)), failed);
        return false;
      }
      NoteResult(taskId, matchId, attemptId, windows, w, asked);
      AfterRecordBinding(asked, windows, attemptId);
      committed := SettleCommit(taskId, matchId, attemptId, invoiceId, paymentId, env, w,
                                AfterRecord(asked, windows, attemptId));
    }

    /** The gateway has taken the payment. */
    method NotePayment(taskId: string, matchId: string, attemptId: string, windows: seq<Charge>, invoiceId: string,
                       paymentId: string, ghost w: World, ghost s: Scene)
      requires At(w, taskId, matchId, attemptId, s)
      modifies this`attempts, this`tasks, this`bindings, this`lockedBuys, this`lockedSells, this`orders, this`gateway
      ensures At(w, taskId, matchId, attemptId, AfterPayment(s, windows, invoiceId, paymentId, attemptId))
    {
      hide Advance, Advanced, Paying, RecordResultRequest;
      ghost var r := AfterPayment(s, windows, invoiceId, paymentId, attemptId);
      attempts := attempts[attemptId := attempts[attemptId].(paymentId := Some(paymentId))];
      var task := tasks[taskId];
      task := AttachPayment(task, attemptId, paymentId);
      task := ApplyBillingStatus(task, attemptId, PaymentSubmitted);
      tasks := tasks[taskId := task];
      AdvanceSettlementAttemptStage(attemptId, RecordResult);
      var request := RecordResultRequest(invoiceId, paymentId, windows);
      attempts := attempts[attemptId := attempts[attemptId].(payload := Some(request))];
      ghost var a := s.attempt.(paymentId := Some(paymentId));
      OverwriteThrice(w.attempts, attemptId, s.attempt, a, Advance(a, RecordResult), r.attempt);
      Overwrite(w.tasks, taskId, s.task, r.task);
    }

    method SettlePayment(taskId: string, matchId: string, attemptId: string, windows: seq<Charge>, invoiceId: string,
                         env: SettleEnv, ghost w: World, ghost s: Scene) returns (committed: bool)
      requires At(w, taskId, matchId, attemptId, s) && s.locked && s.binding.matchId == matchId
      modifies this`attempts, this`tasks, this`bindings, this`lockedBuys, this`lockedSells, this`orders, this`gateway
      ensures At(w, taskId, matchId, attemptId, PaymentScene(s, windows, invoiceId, attemptId, env))
      ensures committed <==> PaymentScene(s, windows, invoiceId, attemptId, env).locked
    {
      hide At, RecordScene, PutBack, Advance, Advanced, Paying;
      if env.paymentBlocked {
        assert s.(attempt := s.attempt) == s;
        PutBackAndRelease(taskId, matchId, attemptId, windows, MatchRetryable, env.release, w, s, s.attempt);
        return false;
      }
      SendToGateway(taskId, matchId, attemptId, PaymentCall(attemptId, env.payment), w, s);
      ghost var asked := Asked(s, PaymentCall(attemptId, env.payment));
      if !env.payment.Confirmed? {
        assert asked.(attempt := s.attempt) == asked;
        PutBackAndRelease(taskId, matchId, attemptId, windows, MatchRetryable, env.release, w, asked, s.attempt);
        return false;
      }
      var paymentId := env.payment.id;
      NotePayment(taskId, matchId, attemptId, windows, invoiceId, paymentId, w, asked);
      committed := SettleRecord(taskId, matchId, attemptId, windows, invoiceId, paymentId, env, w,
                                AfterPayment(asked, windows, invoiceId, paymentId, attemptId));
    }

    /** The gateway has made the invoice. */
    method NoteInvoice(taskId: string, matchId: string, attemptId: string, windows: seq<Charge>, invoiceId: string,
                       ghost w: World, ghost s: Scene)
      requires At(w, taskId, matchId, attemptId, s)
      modifies this`attempts, this`tasks, this`bindings, this`lockedBuys, this`lockedSells, this`orders, this`gateway
      ensures At(w, taskId, matchId, attemptId, AfterInvoice(s, windows, invoiceId, attemptId))
    {
      hide Advance, Advanced, Billing.Invoice, SettlePaymentRequest;
      ghost var r := AfterInvoice(s, windows, invoiceId, attemptId);
      attempts := attempts[attemptId := attempts[attemptId].(invoiceId := Some(invoiceId))];
      var task := tasks[taskId];
      task := AttachInvoice(task, attemptId, invoiceId);
      task := ApplyBillingStatus(task, attemptId, Invoiced);
      tasks := tasks[taskId := task];
      AdvanceSettlementAttemptStage(attemptId, Stage.SettlePayment);
      var request := SettlePaymentRequest(invoiceId, windows);
      attempts := attempts[attemptId := attempts[attemptId].(payload := Some(request))];
      ghost var a := s.attempt.(invoiceId := Some(invoiceId));
      OverwriteThrice(w.attempts, attemptId, s.attempt, a, Advance(a, Stage.SettlePayment), r.attempt);
      Overwrite(w.tasks, taskId, s.task, r.task);
    }

    method SettleInvoice(taskId: string, matchId: string, attemptId: string, windows: seq<Charge>, env: SettleEnv,
                         ghost w: World, ghost s: Scene) returns (committed: bool)
      requires At(w, taskId, matchId, attemptId, s) && s.locked && s.binding.matchId == matchId
      modifies this`attempts, this`tasks, this`bindings, this`lockedBuys, this`lockedSells, this`orders, this`gateway
      ensures At(w, taskId, matchId, attemptId, InvoiceScene(s, windows, attemptId, env))
      ensures committed <==> InvoiceScene(s, windows, attemptId, env).locked
    {
      hide PaymentScene, PutBack, Fail, Advance, Advanced, Billing.Invoice;
      ghost var failed := Fail(s.attempt, RetryableFailed, CreateInvoice);
      if env.invoiceBlocked {
        FailSettlementAttempt(attemptId, RetryableFailed, CreateInvoice);
        PutBackAndRelease(taskId, matchId, attemptId, windows, MatchRetryable, env.release, w, s, failed);
        return false;
      }
      SendToGateway(taskId, matchId, attemptId, InvoiceCall(attemptId, env.invoice), w, s);
      ghost var asked := Asked(s, InvoiceCall(attemptId, env.invoice));
      if !env.invoice.Confirmed? {
        FailSettlementAttempt(attemptId, RetryableFailed, CreateInvoice);
        FailSettlementAttempt(attemptId, RetryableFailed, Stage.SettlePayment);
        ghost var twice := Fail(failed, RetryableFailed, Stage.SettlePayment);
        PutBackAndRelease(taskId, matchId, attemptId, windows, MatchRetryable, env.release, w, asked, twice);
        return false;
      }
      NoteInvoice(taskId, matchId, attemptId, windows, env.invoice.id, w, asked);
      committed := SettlePayment(taskId, matchId, attemptId, windows, env.invoice.id, env, w,
                                 AfterInvoice(asked, windows, env.invoice.id, attemptId));
    }

    /** A new attempt takes the task's next windows and bills them. */
    method OpenAttempt(taskId: string, matchId: string, attemptId: string) returns (windows: seq<Charge>)
      requires Settleable(View(), taskId) && tasks[taskId].bound == Some(matchId) && bindings[matchId].matchId == matchId
      modifies this`attempts, this`tasks, this`bindings, this`lockedBuys, this`lockedSells, this`orders, this`gateway
      ensures var w := old(View());
              && windows == Drained(w.tasks[taskId])
              && At(w, taskId, matchId, attemptId, Opening(taskId, w.tasks[taskId], attemptId, w.bindings[matchId], w.orders))
    {
      hide Upserted, Indexes;
      var task := tasks[taskId];
      windows := Drained(task);
      attempts := attempts[attemptId := NewAttempt(taskId, bindings[matchId], windows)];
      task := BillWindows(task, attemptId, matchId, windows, bindings[matchId].unitPrice);
      tasks := tasks[taskId := task.(pending := task.pending[task.mergeCount..])];
      bindings := bindings[matchId := bindings[matchId].(status := MatchSettling)];
    }

    /** The provider has the order settling. */
    method NoteMark(taskId: string, matchId: string, attemptId: string, windows: seq<Charge>, ghost w: World, ghost s: Scene)
      requires At(w, taskId, matchId, attemptId, s)
      modifies this`attempts, this`tasks, this`bindings, this`lockedBuys, this`lockedSells, this`orders, this`gateway
      ensures At(w, taskId, matchId, attemptId, AfterMark(s, windows, taskId))
    {
      hide Advance, CreateInvoiceRequest;
      ghost var r := AfterMark(s, windows, taskId);
      attempts := attempts[attemptId := attempts[attemptId].(settlingDone := true)];
      AdvanceSettlementAttemptStage(attemptId, CreateInvoice);
      var request := CreateInvoiceRequest(taskId, tasks[taskId], windows);
      attempts := attempts[attemptId := attempts[attemptId].(payload := Some(request))];
      ghost var a := s.attempt.(settlingDone := true);
      OverwriteThrice(w.attempts, attemptId, s.attempt, a, Advance(a, CreateInvoice), r.attempt);
    }

    /** The provider has not: the windows are in no queue any more. */
    method NoteStranded(taskId: string, matchId: string, attemptId: string, windows: seq<Charge>, ghost w: World,
                        ghost s: Scene)
      requires At(w, taskId, matchId, attemptId, s)
      modifies this`attempts, this`tasks
      ensures var failed := Fail(s.attempt, RetryableFailed, ProviderMarkSettling).(fate := WereStranded);
              At(w, taskId, matchId, attemptId,
                 s.(attempt := failed, task := s.task.(stranded := s.task.stranded + windows)))
    {
      hide Fail;
      FailSettlementAttempt(attemptId, RetryableFailed, ProviderMarkSettling);
      tasks := tasks[taskId := tasks[taskId].(stranded := tasks[taskId].stranded + windows)];
      attempts := attempts[attemptId := attempts[attemptId].(fate := WereStranded)];
      Overwrite(w.tasks, taskId, s.task, s.task.(stranded := s.task.stranded + windows));
      Overwrite(w.attempts, attemptId, s.attempt, Fail(s.attempt, RetryableFailed, ProviderMarkSettling));
      Overwrite(w.attempts, attemptId, s.attempt, attempts[attemptId]);
    }

    method SettleMark(taskId: string, matchId: string, attemptId: string, windows: seq<Charge>, env: SettleEnv,
                      ghost w: World, ghost s: Scene) returns (committed: bool)
      requires At(w, taskId, matchId, attemptId, s) && s.locked && s.binding.matchId == matchId
      modifies this`attempts, this`tasks, this`bindings, this`lockedBuys, this`lockedSells, this`orders, this`gateway
      ensures At(w, taskId, matchId, attemptId, SettleScene(s, windows, taskId, attemptId, env))
      ensures committed <==> SettleScene(s, windows, taskId, attemptId, env).locked
    {
      hide Call, InvoiceScene, Fail, Advance;
      var marked := PostProviderOrderAction(Orders.MarkSettling, bindings[matchId].sellOrderId, env.settling);
      ghost var r := s.(orders := orders);
      if !marked {
        NoteStranded(taskId, matchId, attemptId, windows, w, r);
        r := r.(attempt := Fail(s.attempt, RetryableFailed, ProviderMarkSettling).(fate := WereStranded),
                task := s.task.(stranded := s.task.stranded + windows));
        ReleaseAfterFailure(taskId, matchId, attemptId, MatchRetryable, env.release, w, r);
        return false;
      }
      NoteMark(taskId, matchId, attemptId, windows, w, r);
      committed := SettleInvoice(taskId, matchId, attemptId, windows, env, w, AfterMark(r, windows, taskId));
    }

    /** One pass for a task whose match `matchId` is accepted or settling. */
    method SettlePass(taskId: string, matchId: string, attemptId: string, env: SettleEnv) returns (committed: bool)
      requires Settleable(View(), taskId) && tasks[taskId].bound == Some(matchId) && attemptId !in attempts
      requires bindings[matchId].matchId == matchId
      modifies this`attempts, this`tasks, this`bindings, this`lockedBuys, this`lockedSells, this`orders, this`gateway
      ensures View() == PassDone(old(View()), taskId, attemptId, env)
      ensures committed <==> PassScene(old(View()), taskId, attemptId, env).locked
    {
      hide SettleScene, Opening;
      ghost var w := View();
      var windows := OpenAttempt(taskId, matchId, attemptId);
      ghost var s := Opening(taskId, w.tasks[taskId], attemptId, w.bindings[matchId], w.orders);
      OpeningLocked(taskId, w.tasks[taskId], attemptId, w.bindings[matchId], w.orders);
      committed := SettleMark(taskId, matchId, attemptId, windows, env, w, s);
    }

    /** The settle loop: a pass that commits leaves a settled match behind, which ends the loop at the next test. */
    method MaybeMergeAndSettle(taskId: string, attemptId: string, env: SettleEnv)
      requires taskId in tasks && attemptId !in attempts && WellKeyed(bindings)
      modifies this`attempts, this`tasks, this`bindings, this`lockedBuys, this`lockedSells, this`orders, this`gateway
      ensures View() == PassDone(old(View()), taskId, attemptId, env)
    {
      hide PassDone, PassScene;
      ghost var w := View();
      ghost var passed := false;
      NothingToSettle(w, taskId, attemptId, env);
      while |tasks[taskId].pending| >= tasks[taskId].mergeCount
        invariant taskId in tasks
        invariant passed ==> View() == PassDone(w, taskId, attemptId, env) && !Settleable(View(), taskId)
        invariant !passed ==> View() == w
        decreases !passed
      {
        var bound := tasks[taskId].bound;
        if bound.None? {
          break;
        }
        var matchId := bound.value;
        if matchId !in bindings || !Active(bindings[matchId]) {
          break;
        }
        var committed := SettlePass(taskId, matchId, attemptId, env);
        PassEndsLoop(w, taskId, attemptId, env);
        passed := true;
        if !committed {
          break;
        }
      }
    }

    /** Takes the report in, and says whether it brought a window that was not known. */
    method TakeReport(taskId: string, report: PollReport) returns (admitted: bool)
      requires taskId in tasks
      modifies this`tasks
      ensures tasks == old(tasks)[taskId := Admitted(old(tasks)[taskId], report)]
      ensures admitted <==> Admits(old(tasks)[taskId], report)
    {
      var task := tasks[taskId];
      if !report.running {
        tasks := tasks[taskId := task.(running := false)];
        return false;
      }
      var polledWindow := if report.windowIndex.Some? then report.windowIndex.value else task.lastWindow;
      var polledOwed := if report.owed.Some? then report.owed.value else 0.0;
      admitted := false;
      if polledWindow > task.lastWindow {
        if polledWindow !in task.settled && !HasIndex(task.pending, polledWindow) {
          var charge := Charge(polledWindow, polledOwed);
          task := task.(pending := task.pending + [charge], admitted := task.admitted + [charge]);
          task := task.(spent := task.spent + polledOwed);
          admitted := true;
        }
        task := task.(lastWindow := polledWindow);
      }
      hide HasIndex;
      assert task == Admitted(tasks[taskId], report);
      tasks := tasks[taskId := task];
    }

    /** `apply_provider_poll_with_matches`, as far as windows and settlement go. */
    method ApplyProviderPoll(taskId: string, report: PollReport, attemptId: string, env: SettleEnv)
      requires taskId in tasks && attemptId !in attempts && WellKeyed(bindings)
      modifies this`attempts, this`tasks, this`bindings, this`lockedBuys, this`lockedSells, this`orders, this`gateway
      ensures View() == Polled(old(View()), taskId, report, attemptId, env)
    {
      hide PassDone, Admitted, Admits;
      var admitted := TakeReport(taskId, report);
      if admitted {
        MaybeMergeAndSettle(taskId, attemptId, env);
      }
    }

    // ---- Recovery ----

    /** `run_settlement_attempt_stage` of the attempt's present stage. */
    method ResumeSettlementAttempt(attemptId: string, env: StageEnv) returns (ok: bool)
      modifies this`attempts, this`tasks, this`orders, this`gateway
      ensures attemptId !in old(attempts) ==> !ok && View() == old(View())
      ensures attemptId in old(attempts) ==>
                var w := old(View());
                var run := Resumed(w, attemptId, env);
                && ok == run.ok
                && attempts == w.attempts[attemptId := run.attempt]
                && tasks == (if run.task.Some? then w.tasks[w.attempts[attemptId].taskId := run.task.value] else w.tasks)
                && orders == run.orders && gateway == w.gateway + run.calls
    {
      hide Call, RunCreateInvoice, RunSettlePayment, RunRecordResult;
      if attemptId !in attempts {
        return false;
      }
      var stage := attempts[attemptId].stage;
      match stage {
        case ProviderMarkSettling =>
          ok := PostProviderOrderAction(Orders.MarkSettling, attempts[attemptId].sellOrderId, env.delivery);
          if ok {
            attempts := attempts[attemptId := attempts[attemptId].(settlingDone := true, stage := CreateInvoice)];
          }
        case CreateInvoice => ok := ReplayCreateInvoice(attemptId, env);
        case SettlePayment => ok := ReplaySettlePayment(attemptId, env);
        case RecordResult => ok := ReplayRecordResult(attemptId, env);
        case ProviderMarkSettled =>
          ok := PostProviderOrderAction(Orders.MarkSettled, attempts[attemptId].sellOrderId, env.delivery);
          if ok {
            var a := attempts[attemptId].(settledDone := true, recorded := true);
            attempts := attempts[attemptId := a.(status := Committed)];
          }
      }
    }

    /** The fields hold what the run `run` of the attempt makes of the state `w`. */
    ghost predicate Ran(w: World, attemptId: string, run: StageRun)
      requires attemptId in w.attempts
      reads this
    {
      && attempts == w.attempts[attemptId := run.attempt]
      && tasks == (if run.task.Some? then w.tasks[w.attempts[attemptId].taskId := run.task.value] else w.tasks)
      && orders == run.orders && gateway == w.gateway + run.calls
    }

    method WindowsOf(task: Task, attemptId: string) returns (windows: seq<Charge>)
      ensures windows == ReplayWindows(task.bills, attemptId)
    {
      windows := [];
      for i := 0 to |task.bills|
        invariant windows == ReplayWindows(task.bills[..i], attemptId)
      {
        assert task.bills[..i + 1][..i] == task.bills[..i];
        var b := task.bills[i];
        if b.attemptId == attemptId {
          windows := windows + [Charge(b.windowIndex, b.gross)];
        }
      }
      assert task.bills[..|task.bills|] == task.bills;
    }

    method ReplayCreateInvoice(attemptId: string, env: StageEnv) returns (ok: bool)
      requires attemptId in attempts
      modifies this`attempts, this`tasks, this`orders, this`gateway
      ensures var w := old(View());
              var a := w.attempts[attemptId];
              var run := RunCreateInvoice(attemptId, a, TaskOf(w, a), w.orders, env);
              ok == run.ok && Ran(w, attemptId, run)
    {
      hide ReplayWindows, CreateInvoiceRequest, Advanced, Billing.Invoice, Contained;
      ghost var w := View();
      var a := attempts[attemptId];
      assert w.attempts[attemptId := a] == w.attempts;
      if a.invoiceId.Some? {
        KeepsTask(w, a);
        attempts := attempts[attemptId := a.(stage := Stage.SettlePayment)];
        return true;
      }
      if a.taskId !in tasks {
        return false;
      }
      KeepsTask(w, a);
      var task := tasks[a.taskId];
      var windows := WindowsOf(task, attemptId);
      if windows == [] {
        return false;
      }
      var request := CreateInvoiceRequest(a.taskId, task, windows);
      if env.blocked {
        return false;
      }
      if a.payload.Some? && a.payload.value != request {
        return false;
      }
      gateway := gateway + [InvoiceCall(attemptId, env.answer)];
      if !env.answer.Confirmed? {
        return false;
      }
      NoteReplayedInvoice(attemptId, env.answer.id, request);
      ok := true;
    }

    method NoteReplayedInvoice(attemptId: string, invoiceId: string, request: StageRequest)
      requires attemptId in attempts && attempts[attemptId].taskId in tasks
      modifies this`attempts, this`tasks
      ensures var a := old(attempts)[attemptId];
              var task := old(tasks)[a.taskId];
              var invoiced := task.(bills := Billing.Invoice(task.bills, attemptId, invoiceId));
              && attempts == old(attempts)[attemptId := a.(invoiceId := Some(invoiceId), payload := Some(request),
                                                           stage := Stage.SettlePayment)]
              && tasks == old(tasks)[a.taskId := WithBillStatus(invoiced, attemptId, Invoiced)]
    {
      hide Advanced, Billing.Invoice;
      var a := attempts[attemptId];
      var task := tasks[a.taskId];
      task := AttachInvoice(task, attemptId, invoiceId);
      task := ApplyBillingStatus(task, attemptId, Invoiced);
      tasks := tasks[a.taskId := task];
      a := a.(invoiceId := Some(invoiceId), payload := Some(request));
      attempts := attempts[attemptId := a.(stage := Stage.SettlePayment)];
    }

    method ReplaySettlePayment(attemptId: string, env: StageEnv) returns (ok: bool)
      requires attemptId in attempts
      modifies this`attempts, this`tasks, this`orders, this`gateway
      ensures var w := old(View());
              var a := w.attempts[attemptId];
              var run := RunSettlePayment(attemptId, a, TaskOf(w, a), w.orders, env);
              ok == run.ok && Ran(w, attemptId, run)
    {
      hide ReplayWindows, SettlePaymentRequest, Advanced, Paying, Contained;
      ghost var w := View();
      var a := attempts[attemptId];
      assert w.attempts[attemptId := a] == w.attempts;
      KeepsTask(w, a);
      if a.paymentId.Some? {
        attempts := attempts[attemptId := a.(stage := RecordResult)];
        return true;
      }
      if a.invoiceId.None? {
        return false;
      }
      if a.taskId !in tasks {
        return false;
      }
      var task := tasks[a.taskId];
      var windows := WindowsOf(task, attemptId);
      var request := SettlePaymentRequest(a.invoiceId.value, windows);
      if env.blocked {
        return false;
      }
      gateway := gateway + [PaymentCall(attemptId, env.answer)];
      if !env.answer.Confirmed? {
        return false;
      }
      var paymentId := env.answer.id;
      task := AttachPayment(task, attemptId, paymentId);
      task := ApplyBillingStatus(task, attemptId, PaymentSubmitted);
      tasks := tasks[a.taskId := task];
      a := a.(paymentId := Some(paymentId), payload := Some(request));
      attempts := attempts[attemptId := a.(stage := RecordResult)];
      ok := true;
    }

    method ReplayRecordResult(attemptId: string, env: StageEnv) returns (ok: bool)
      requires attemptId in attempts
      modifies this`attempts, this`tasks, this`orders, this`gateway
      ensures var w := old(View());
              var a := w.attempts[attemptId];
              var run := RunRecordResult(attemptId, a, TaskOf(w, a), w.orders, env);
              ok == run.ok && Ran(w, attemptId, run)
    {
      hide ReplayWindows, RecordResultRequest, Advanced, Contained;
      ghost var w := View();
      var a := attempts[attemptId];
      assert w.attempts[attemptId := a] == w.attempts;
      KeepsTask(w, a);
      if a.recorded {
        attempts := attempts[attemptId := a.(stage := ProviderMarkSettled)];
        return true;
      }
      if a.invoiceId.None? || a.paymentId.None? {
        return false;
      }
      if a.taskId !in tasks {
        return false;
      }
      var task := tasks[a.taskId];
      var windows := WindowsOf(task, attemptId);
      var request := RecordResultRequest(a.invoiceId.value, a.paymentId.value, windows);
      if env.blocked {
        return false;
      }
      gateway := gateway + [ResultCall(attemptId, env.recorded)];
      if !env.recorded.Answered? {
        task := ApplyBillingStatus(task, attemptId, Disputed);
        tasks := tasks[a.taskId := task];
        return false;
      }
      task := ApplyBillingStatus(task, attemptId, Paid);
      tasks := tasks[a.taskId := task];
      a := a.(recorded := true, payload := Some(request));
      attempts := attempts[attemptId := a.(stage := ProviderMarkSettled)];
      ok := true;
    }

    /** Counts a run, and sets the time before which the attempt waits. */
    method NoteRun(attemptId: string, now: nat, ok: bool)
      requires attemptId in attempts
      modifies this`attempts, this`backoff
      ensures var a := old(attempts)[attemptId];
              var b := AfterRun(StageRun(a, None, map[], [], ok));
              && attempts == old(attempts)[attemptId := b]
              && backoff == old(backoff)[attemptId := now + BackoffDelay(b.retries)]
    {
      hide BackoffDelay;
      var a := attempts[attemptId];
      if ok {
        if a.status == Started || a.status == RetryableFailed {
          a := a.(status := InProgress);
        }
      } else {
        a := a.(status := RetryableFailed);
      }
      a := a.(retries := a.retries + 1);
      assert a == AfterRun(StageRun(attempts[attemptId], None, map[], [], ok));
      attempts := attempts[attemptId := a];
      BackoffDoubles(a.retries);
      var delay := MinNat(Power2(MinNat(a.retries, 6)), 60);
      backoff := backoff[attemptId := now + delay];
    }

    /** A visit that runs the attempt's stage. */
    method RunVisit(attemptId: string, now: nat, env: StageEnv)
      requires Resumes(View(), attemptId, now)
      modifies this`attempts, this`tasks, this`orders, this`gateway, this`backoff
      ensures View() == Recovered(old(View()), attemptId, now, env)
    {
      hide RunStage, BackoffDelay, Contained, AfterRun, TaskOf, Recovered;
      ghost var w := View();
      ghost var run := Resumed(w, attemptId, env);
      hide Resumed;
      var ok := ResumeSettlementAttempt(attemptId, env);
      NoteRun(attemptId, now, ok);
      AfterRunIgnores(run);
      RunNoted(w, View(), attemptId, now, env);
    }

    /** The recovery tick's visit to an attempt it found recoverable. */
    method VisitAttempt(attemptId: string, now: nat, env: StageEnv)
      requires mode == Auto && attemptId in attempts && Recoverable(attempts[attemptId].status)
      modifies this`attempts, this`tasks, this`orders, this`gateway, this`backoff
      ensures View() == Recovered(old(View()), attemptId, now, env)
    {
      hide Recovered;
      var until := if attemptId in backoff then backoff[attemptId] else 0;
      if now < until {
        NotResumedState(View(), attemptId, now, env);
        return;
      }
      if attempts[attemptId].retries >= MAX_RECOVERY_RETRIES {
        NotResumedState(View(), attemptId, now, env);
        attempts := attempts[attemptId := attempts[attemptId].(status := FailedFinal)];
        return;
      }
      RunVisit(attemptId, now, env);
    }

    /** `run_recovery_tick`: the recoverable attempts are visited in some order, each once. */
    method RunRecoveryTick(now: nat, envs: map<string, StageEnv>) returns (order: seq<string>)
      modifies this`attempts, this`tasks, this`orders, this`gateway, this`backoff
      ensures View() == RecoveredAll(old(View()), order, now, envs)
      ensures Distinct(order) && Elements(order) == ToRecover(old(View()))
    {
      hide Recovered, RecoveredAll, Distinct, Elements;
      NobodyVisited(View(), now, envs);
      if mode != Auto {
        return [];
      }
      var found := set id | id in attempts && Recoverable(attempts[id].status);
      order := VisitAll(found, now, envs);
    }

    method VisitAll(found: set<string>, now: nat, envs: map<string, StageEnv>) returns (order: seq<string>)
      requires mode == Auto && found <= attempts.Keys
      requires forall id :: id in found ==> Recoverable(attempts[id].status)
      modifies this`attempts, this`tasks, this`orders, this`gateway, this`backoff
      ensures View() == RecoveredAll(old(View()), order, now, envs)
      ensures Distinct(order) && Elements(order) == found
    {
      hide Recovered, RecoveredAll, Distinct, Elements;
      ghost var w := View();
      ghost var done := {};
      var rest := found;
      order := [];
      NobodyVisited(w, now, envs);
      while rest != {}
        invariant View() == RecoveredAll(w, order, now, envs) && mode == Auto
        invariant Distinct(order) && Elements(order) == done && done + rest == found && done !! rest
        invariant Untouched(w, rest)
        decreases rest
      {
        var id :| id in rest;
        VisitLeavesOthers(View(), id, now, StageEnvOf(envs, id));
        OneMoreVisited(w, order, id, now, envs);
        VisitAttempt(id, now, StageEnvOf(envs, id));
        order, done, rest := order + [id], done + {id}, rest - {id};
      }
      assert done == found;
    }

    /** The attempts of `ids` are still as they were in `w`. */
    ghost predicate Untouched(w: World, ids: set<string>)
      reads this
    {
      forall id :: id in ids ==> id in w.attempts && id in attempts && attempts[id] == w.attempts[id]
    }

    method DetectStuckAttempts()
      modifies this`attempts
      ensures View() == StuckDetected(old(View()))
    {
      var rest := attempts.Keys;
      while rest != {}
        invariant attempts.Keys == old(attempts).Keys && rest <= attempts.Keys
        invariant forall id :: id in attempts ==>
                    attempts[id] == if id in rest then old(attempts)[id] else Unstuck(old(attempts)[id])
        decreases rest
      {
        var id :| id in rest;
        rest := rest - {id};
        var a := attempts[id];
        if a.status == InProgress && a.retries >= 4 {
          attempts := attempts[id := a.(status := RetryableFailed)];
        }
      }
      assert attempts == UnstuckAll(old(attempts));
    }

    // ---- Releasing matches ----

    method UnbindTask(b: Binding)
      modifies this`tasks
      ensures View() == old(View()).(tasks := UnboundFrom(old(tasks), b))
    {
      if b.taskId in tasks {
        var task := tasks[b.taskId];
        if task.bound == Some(b.matchId) {
          tasks := tasks[b.taskId := task.(bound := None)];
        }
      }
    }

    method SetMatchStatus(matchId: string, status: MatchStatus)
      modifies this`bindings
      ensures View() == old(View()).(bindings := WithMatchStatus(old(bindings), matchId, status))
    {
      if matchId in bindings {
        bindings := bindings[matchId := bindings[matchId].(status := status)];
      }
    }

    method ReleaseBindingAndLocks(b: Binding, status: MatchStatus, delivery: Delivery)
      modifies this`tasks, this`bindings, this`lockedBuys, this`lockedSells, this`orders
      ensures View() == BindingReleased(old(View()), b, status, delivery)
    {
      hide BindingReleased;
      ReleasedState(View(), b, status, delivery);
      Unlock(b, delivery);
      UnbindTask(b);
      SetMatchStatus(b.matchId, status);
    }

    method Unlock(b: Binding, delivery: Delivery)
      modifies this`lockedBuys, this`lockedSells, this`orders
      ensures var w := old(View());
              View() == w.(lockedBuys := w.lockedBuys - {b.buyOrderId},
                           lockedSells := w.lockedSells - {b.sellOrderId},
                           orders := Call(w.orders, Orders.Release, b.sellOrderId, delivery).0)
    {
      hide Call;
      lockedBuys := lockedBuys - {b.buyOrderId};
      lockedSells := lockedSells - {b.sellOrderId};
      var _ := PostProviderOrderAction(Orders.Release, b.sellOrderId, delivery);
    }

    /** Releases the matches of `ids`, as they are at the start, one after the other. */
    method ReleaseMatches(ids: set<string>, status: MatchStatus, net: Deliveries)
      requires WellKeyed(bindings) && ids <= bindings.Keys
      modifies this`tasks, this`bindings, this`lockedBuys, this`lockedSells, this`orders
      ensures View() == MatchesReleased(old(View()), ids, status, net)
    {
      hide MatchesReleased, BindingReleased, KeepsSettled, OnlyRebinds;
      ghost var w := View();
      var found := bindings;
      var done, rest := {}, ids;
      ReleaseNone(w, status, net);
      while rest != {}
        invariant done + rest == ids
        invariant View() == MatchesReleased(w, done, status, net)
        decreases rest
      {
        var m :| m in rest;
        ReleasedKeepsMatch(w, done, m, status, net);
        ReleaseSingle(View(), m, found[m], status, net);
        ReleaseUnion(w, done, {m}, status, net);
        ReleaseBindingAndLocks(found[m], status, DeliveryOf(net, m));
        done, rest := done + {m}, rest - {m};
      }
      assert done == ids;
    }

    method CleanupTaskBindings(taskId: string, net: Deliveries)
      requires WellKeyed(bindings)
      modifies this`tasks, this`bindings, this`lockedBuys, this`lockedSells, this`orders
      ensures View() == TaskCleaned(old(View()), taskId, net)
    {
      var matches := set m | m in bindings && bindings[m].taskId == taskId;
      ReleaseMatches(matches, MatchExpired, net);
    }

    /** `cancel_match` and `expire_match`. */
    method EndMatch(request: AcceptRequest, status: MatchStatus, delivery: Delivery) returns (found: bool)
      modifies this`tasks, this`bindings, this`lockedBuys, this`lockedSells, this`orders
      ensures View() == MatchReleased(old(View()), MatchIdOf(request), status, delivery)
      ensures found <==> MatchIdOf(request) in old(bindings)
    {
      hide BindingReleased, MatchIdOf;
      var matchId := MatchIdOf(request);
      if matchId !in bindings {
        return false;
      }
      ReleaseBindingAndLocks(bindings[matchId], status, delivery);
      found := true;
    }

    method RetryMatch(request: AcceptRequest, delivery: Delivery)
      modifies this`tasks, this`bindings, this`lockedBuys, this`lockedSells, this`orders
      ensures View() == MatchRetried(old(View()), MatchIdOf(request), delivery)
    {
      hide MatchReleased, MatchIdOf;
      var _ := EndMatch(request, MatchExpired, delivery);
      bindings := bindings - {MatchIdOf(request)};
    }

    method RejectMatch(request: AcceptRequest, delivery: Delivery)
      modifies this`tasks, this`bindings, this`lockedBuys, this`lockedSells, this`orders
      ensures View() == MatchRejected(old(View()), request, delivery)
    {
      hide BindingReleased, Matching.BuildMatchId;
      var matchId := Matching.BuildMatchId(request.buyOrderId, request.sellOrderId);
      if matchId in bindings {
        ReleaseBindingAndLocks(bindings[matchId], Rejected, delivery);
      } else {
        var b := Binding(matchId, "", request.buyOrderId, request.sellOrderId, 0.0, 0.0, Rejected);
        bindings := bindings[matchId := b];
      }
    }

    // ---- Switching the mode ----

    method InterruptAttempts()
      modifies this`attempts
      ensures attempts == InterruptedAll(old(attempts))
    {
      var rest := attempts.Keys;
      while rest != {}
        invariant attempts.Keys == old(attempts).Keys && rest <= attempts.Keys
        invariant forall id :: id in attempts ==>
                    attempts[id] == if id in rest then old(attempts)[id] else Interrupted(old(attempts)[id])
        decreases rest
      {
        var id :| id in rest;
        rest := rest - {id};
        var a := attempts[id];
        if a.status == Started || a.status == InProgress {
          attempts := attempts[id := a.(status := RetryableFailed)];
        }
      }
      assert attempts == InterruptedAll(old(attempts));
    }

    method AbandonAccepts()
      modifies this`accepts
      ensures accepts == AbandonedAll(old(accepts))
    {
      var rest := accepts.Keys;
      while rest != {}
        invariant accepts.Keys == old(accepts).Keys && rest <= accepts.Keys
        invariant forall id :: id in accepts ==>
                    accepts[id] == if id in rest then old(accepts)[id] else Abandoned(old(accepts)[id])
        decreases rest
      {
        var id :| id in rest;
        rest := rest - {id};
        var a := accepts[id];
        if a.status != AcceptCommitted && a.status != Conflict && a.status != AcceptFailed {
          accepts := accepts[id := a.(status := AcceptFailed)];
        }
      }
      assert accepts == AbandonedAll(old(accepts));
    }

    method ConvergeModeState(newMode: Mode, net: Deliveries)
      requires WellKeyed(bindings) && mode != newMode
      modifies this`mode, this`attempts, this`accepts, this`tasks, this`bindings, this`lockedBuys, this`lockedSells, this`orders
      ensures View() == ModeSwitched(old(View()), newMode, net)
    {
      hide MatchesReleased, InterruptedAll, AbandonedAll, KeepsSettled, OnlyRebinds, WellKeyed;
      var matches := set m | m in bindings && (Active(bindings[m]) || bindings[m].status == MatchFailed);
      assert matches == InFlight(View());
      hide InFlight;
      ReleaseMatches(matches, MatchExpired, net);
      mode := newMode;
      AbandonAccepts();
      InterruptAttempts();
    }

    /** `set_market_mode` with `converge_mode_state`. */
    method SetMarketMode(newMode: Mode, net: Deliveries)
      requires WellKeyed(bindings)
      modifies this`mode, this`attempts, this`accepts, this`tasks, this`bindings, this`lockedBuys, this`lockedSells, this`orders
      ensures View() == ModeSwitched(old(View()), newMode, net)
    {
      if mode != newMode {
        hide ModeSwitched;
        ConvergeModeState(newMode, net);
      }
    }

    // ---- The reaper ----

    method ReapExpiredLocks()
      modifies this`lockedBuys, this`lockedSells
      ensures View() == LocksReaped(old(View()))
    {
      hide OfBuy, OfSell;
      var active := set m | m in bindings && Active(bindings[m]);
      assert active == ActiveMatches(View());
      lockedBuys := set o | o in lockedBuys && OfBuy(bindings, active, o);
      lockedSells := set o | o in lockedSells && OfSell(bindings, active, o);
    }

    /** Each stopped task in turn has all its matches expired. */
    method CleanupStoppedTasks(net: Deliveries)
      requires WellKeyed(bindings)
      modifies this`tasks, this`bindings, this`lockedBuys, this`lockedSells, this`orders
      ensures View() == MatchesReleased(old(View()), StoppedMatches(old(View())), MatchExpired, net)
    {
      hide MatchesReleased, KeepsSettled, OnlyRebinds;
      ghost var w := View();
      var stopped := set t | t in tasks && !tasks[t].running;
      CleanupTasks(stopped, net);
      assert MatchesOfAll(w, stopped) == StoppedMatches(w);
    }

    method CleanupTasks(taskIds: set<string>, net: Deliveries)
      requires WellKeyed(bindings)
      modifies this`tasks, this`bindings, this`lockedBuys, this`lockedSells, this`orders
      ensures View() == MatchesReleased(old(View()), MatchesOfAll(old(View()), taskIds), MatchExpired, net)
    {
      hide MatchesReleased, KeepsSettled, OnlyRebinds;
      ghost var w := View();
      var done, rest := {}, taskIds;
      ReleaseNone(w, MatchExpired, net);
      assert MatchesOfAll(w, {}) == {};
      while rest != {}
        invariant done + rest == taskIds && WellKeyed(bindings)
        invariant View() == MatchesReleased(w, MatchesOfAll(w, done), MatchExpired, net)
        decreases rest
      {
        var t :| t in rest;
        ReleasedKeepsOwners(w, MatchesOfAll(w, done), t, net);
        ReleaseUnion(w, MatchesOfAll(w, done), MatchesOf(w, t), MatchExpired, net);
        assert MatchesOfAll(w, done + {t}) == MatchesOfAll(w, done) + MatchesOf(w, t);
        CleanupTaskBindings(t, net);
        done, rest := done + {t}, rest - {t};
      }
      assert done == taskIds;
    }

    method ExpireOrphanedMatches(net: Deliveries)
      requires WellKeyed(bindings)
      modifies this`tasks, this`bindings, this`lockedBuys, this`lockedSells, this`orders
      ensures View() == MatchesReleased(old(View()), OrphanMatches(old(View())), MatchExpired, net)
    {
      var matches := set m | m in bindings && bindings[m].taskId !in tasks;
      ReleaseMatches(matches, MatchExpired, net);
    }

    method HandleProviderOffline(net: Deliveries)
      requires WellKeyed(bindings)
      modifies this`tasks, this`bindings, this`lockedBuys, this`lockedSells, this`orders
      ensures View() == MatchesReleased(old(View()), TaskMatches(old(View())), MatchExpired, net)
    {
      hide MatchesReleased, KeepsSettled, OnlyRebinds;
      ghost var w := View();
      CleanupTasks(tasks.Keys, net);
      assert MatchesOfAll(w, w.tasks.Keys) == TaskMatches(w);
    }

    method RunReaperTick(env: ReaperEnv)
      requires WellKeyed(bindings)
      modifies this`attempts, this`tasks, this`bindings, this`lockedBuys, this`lockedSells, this`orders
      ensures View() == Reaped(old(View()), env)
    {
      hide MatchesReleased, UnstuckAll, LocksReaped, StoppedMatches, OrphanMatches, TaskMatches;
      hide KeepsSettled, OnlyRebinds, WellKeyed;
      CleanupStoppedTasks(env.stopped);
      DetectStuckAttempts();
      ExpireOrphanedMatches(env.orphans);
      ReapExpiredLocks();
      if env.offlineSeen {
        HandleProviderOffline(env.offline);
      }
    }

    // ---- Operator and dispute actions ----

    method RetrySettlementAttempt(attemptId: string) returns (ok: bool)
      modifies this`attempts
      ensures View() == OperatorRetried(old(View()), attemptId)
      ensures ok <==> attemptId in old(attempts) && OperatorMayAct(old(attempts)[attemptId])
    {
      if attemptId !in attempts {
        return false;
      }
      var a := attempts[attemptId];
      if a.status != RetryableFailed && a.status != PaymentUnknown {
        return false;
      }
      a := a.(status := InProgress, stage := ProviderMarkSettling);
      attempts := attempts[attemptId := a.(retries := a.retries + 1)];
      ok := true;
    }

    method MarkSettlementAttemptFinal(attemptId: string) returns (ok: bool)
      modifies this`attempts
      ensures View() == MarkedFinal(old(View()), attemptId)
      ensures ok <==> attemptId in old(attempts) && OperatorMayAct(old(attempts)[attemptId])
    {
      if attemptId !in attempts {
        return false;
      }
      var a := attempts[attemptId];
      if a.status != PaymentUnknown && a.status != RetryableFailed {
        return false;
      }
      attempts := attempts[attemptId := a.(status := FailedFinal)];
      ok := true;
    }

    /** Writes an attempt's status, whatever it was, and sends it back to its first stage if `restart`. */
    method OverrideAttempt(attemptId: Option<string>, status: AttemptStatus, restart: bool)
      modifies this`attempts
      ensures View() == WithAttempt(old(View()), attemptId, status, restart)
    {
      if attemptId.Some? && attemptId.value in attempts {
        var a := attempts[attemptId.value].(status := status);
        if restart {
          a := a.(stage := ProviderMarkSettling);
        }
        attempts := attempts[attemptId.value := a];
      }
    }

    method RollBackBills(attemptId: string)
      modifies this`tasks
      ensures View() == old(View()).(tasks := RolledBackTasks(old(tasks), attemptId))
    {
      hide AllMoved;
      var rest := tasks.Keys;
      while rest != {}
        invariant tasks.Keys == old(tasks).Keys && rest <= tasks.Keys
        invariant forall t :: t in tasks ==> tasks[t] == if t in rest then old(tasks)[t] else
                    old(tasks)[t].(bills := AllMoved(old(tasks)[t].bills, attemptId, Failed))
        decreases rest
      {
        var t :| t in rest;
        rest := rest - {t};
        var book := new BillingWindows(tasks[t].interval, tasks[t].bills);
        book.SetStatusForAttempt(attemptId, Failed);
        tasks := tasks[t := tasks[t].(bills := book.bills)];
      }
      assert tasks == RolledBackTasks(old(tasks), attemptId);
    }

    method PenalizeBills(tradeId: Option<string>)
      modifies this`tasks
      ensures View() == old(View()).(tasks := PenalizedTasks(old(tasks), tradeId))
    {
      hide PenaltyApplied;
      var rest := tasks.Keys;
      while rest != {}
        invariant tasks.Keys == old(tasks).Keys && rest <= tasks.Keys
        invariant forall t :: t in tasks ==> tasks[t] == if t in rest then old(tasks)[t] else
                    old(tasks)[t].(bills := PenaltyApplied(old(tasks)[t].bills, tradeId))
        decreases rest
      {
        var t :| t in rest;
        rest := rest - {t};
        var book := new BillingWindows(tasks[t].interval, tasks[t].bills);
        book.PenalizeTrade(tradeId);
        tasks := tasks[t := tasks[t].(bills := book.bills)];
      }
      assert tasks == PenalizedTasks(old(tasks), tradeId);
    }

    method RefundBills(tradeId: Option<string>)
      modifies this`tasks
      ensures View() == old(View()).(tasks := RefundedTasks(old(tasks), tradeId))
    {
      hide RefundReleased;
      var rest := tasks.Keys;
      while rest != {}
        invariant tasks.Keys == old(tasks).Keys && rest <= tasks.Keys
        invariant forall t :: t in tasks ==> tasks[t] == if t in rest then old(tasks)[t] else
                    old(tasks)[t].(bills := RefundReleased(old(tasks)[t].bills, tradeId))
        decreases rest
      {
        var t :| t in rest;
        rest := rest - {t};
        var book := new BillingWindows(tasks[t].interval, tasks[t].bills);
        book.RefundTrade(tradeId);
        tasks := tasks[t := tasks[t].(bills := book.bills)];
      }
      assert tasks == RefundedTasks(old(tasks), tradeId);
    }

    method TakeAction(d: Dispute, action: DisputeAction)
      modifies this`attempts, this`tasks
      ensures View() == ActionTaken(old(View()), d, action)
    {
      hide WithAttempt, RolledBackTasks, PenalizedTasks, RefundedTasks;
      match action {
        case RetryAction => OverrideAttempt(d.attemptId, InProgress, true);
        case RollbackAction =>
          OverrideAttempt(d.attemptId, FailedFinal, false);
          if d.attemptId.Some? {
            RollBackBills(d.attemptId.value);
          }
        case MarkFinalAction => OverrideAttempt(d.attemptId, FailedFinal, false);
        case ApplyPenalty => PenalizeBills(d.tradeId);
        case ReleaseRefund => RefundBills(d.tradeId);
        case RefreshRemoteStatus =>
        case Escalate =>
        case Resolve =>
      }
    }

    /** `apply_dispute_action`. */
    method ApplyDisputeAction(disputeId: string, action: DisputeAction) returns (ok: bool)
      modifies this`attempts, this`tasks
      ensures View() == DisputeActed(old(View()), disputeId, action)
      ensures ok <==> disputeId in old(disputes) && action in AllowedActions(old(disputes)[disputeId].kind)
    {
      hide ActionTaken, AllowedActions;
      if disputeId !in disputes {
        return false;
      }
      if action !in AllowedActions(disputes[disputeId].kind) {
        return false;
      }
      TakeAction(disputes[disputeId], action);
      ok := true;
    }

    // ---- Accepting ----

    /** The accept attempt gets a status. */
    method UpdateAcceptAttempt(attemptId: string, status: AcceptStatus)
      requires attemptId in accepts
      modifies this`accepts
      ensures View() == old(View()).(accepts := old(accepts)[attemptId := old(accepts)[attemptId].(status := status)])
    {
      accepts := accepts[attemptId := accepts[attemptId].(status := status)];
    }

    method BeginAcceptAttempt(attemptId: string, request: AcceptRequest)
      modifies this`accepts
      ensures View() == old(View()).(accepts := old(accepts)[attemptId := AcceptAttempt(request, Received)])
    {
      accepts := accepts[attemptId := AcceptAttempt(request, Received)];
    }

    /** Writes the new match down before the provider is asked. */
    method BindTask(taskId: string, b: Binding)
      requires taskId in tasks
      modifies this`tasks, this`bindings
      ensures tasks == old(tasks)[taskId := old(tasks)[taskId].(bound := Some(b.matchId))]
      ensures bindings == old(bindings)[b.matchId := b]
    {
      tasks := tasks[taskId := tasks[taskId].(bound := Some(b.matchId))];
      bindings := bindings[b.matchId := b];
    }

    /** Takes the new match back: it is forgotten, its locks are lifted and its task is left unbound. */
    method RollBackAccept(attemptId: string, request: AcceptRequest, taskId: string, matchId: string)
      requires attemptId in accepts && taskId in tasks && tasks[taskId].bound == Some(matchId)
      modifies this`accepts, this`tasks, this`bindings, this`lockedBuys, this`lockedSells
      ensures accepts == old(accepts)[attemptId := old(accepts)[attemptId].(status := AcceptFailed)]
      ensures bindings == old(bindings) - {matchId}
      ensures lockedBuys == old(lockedBuys) - {request.buyOrderId} && lockedSells == old(lockedSells) - {request.sellOrderId}
      ensures tasks == old(tasks)[taskId := old(tasks)[taskId].(bound := None)]
    {
      UpdateAcceptAttempt(attemptId, AcceptFailed);
      bindings := bindings - {matchId};
      lockedBuys := lockedBuys - {request.buyOrderId};
      lockedSells := lockedSells - {request.sellOrderId};
      if tasks[taskId].bound == Some(matchId) {
        tasks := tasks[taskId := tasks[taskId].(bound := None)];
      }
    }

    /** A new accept attempt goes as far as taking both of the agent's own locks, or says why not. */
    method TakeLocks(request: AcceptRequest, env: AcceptEnv) returns (refused: Option<AcceptReply>)
      modifies this`accepts, this`lockedBuys, this`lockedSells
      ensures var w := old(View());
              match Refusal(w, request, env)
              case Some((status, reply)) =>
                && refused == Some(reply)
                && View() == w.(accepts := w.accepts[env.attemptId := AcceptAttempt(request, status)])
              case None =>
                && refused == None && request.buyOrderId !in w.lockedBuys && request.sellOrderId !in w.lockedSells
                && View() == w.(accepts := w.accepts[env.attemptId := AcceptAttempt(request, Locking)],
                                lockedBuys := w.lockedBuys + {request.buyOrderId},
                                lockedSells := w.lockedSells + {request.sellOrderId})
    {
      hide MatchIdOf, Proposal, TaskFor;
      ghost var before := accepts;
      BeginAcceptAttempt(env.attemptId, request);
      UpdateAcceptAttempt(env.attemptId, Validating);
      Overwrite(before, env.attemptId, AcceptAttempt(request, Received), AcceptAttempt(request, Validating));
      if !env.marketAvailable {
        UpdateAcceptAttempt(env.attemptId, AcceptFailed);
        Overwrite(before, env.attemptId, AcceptAttempt(request, Validating), AcceptAttempt(request, AcceptFailed));
        return Some(MarketUnavailable);
      }
      var matchId := MatchIdOf(request);
      if matchId in bindings && SettledOrActive(bindings[matchId]) {
        return Some(AlreadyAccepted);
      }
      if Proposal(env.proposals, matchId).None? {
        UpdateAcceptAttempt(env.attemptId, AcceptFailed);
        Overwrite(before, env.attemptId, AcceptAttempt(request, Validating), AcceptAttempt(request, AcceptFailed));
        return Some(NotProposed);
      }
      UpdateAcceptAttempt(env.attemptId, Locking);
      Overwrite(before, env.attemptId, AcceptAttempt(request, Validating), AcceptAttempt(request, Locking));
      refused := TakeOwnLocks(request);
    }

    method TakeOwnLocks(request: AcceptRequest) returns (refused: Option<AcceptReply>)
      modifies this`lockedBuys, this`lockedSells
      ensures refused ==
                if request.buyOrderId in old(lockedBuys) then Some(BuyOrderLocked)
                else if request.sellOrderId in old(lockedSells) then Some(SellOrderLocked)
                else if TaskFor(tasks, request.buyOrderId).None? then Some(BuyOrderNotFound)
                else None
      ensures View() == if refused.Some? then old(View())
                        else old(View()).(lockedBuys := old(lockedBuys) + {request.buyOrderId},
                                          lockedSells := old(lockedSells) + {request.sellOrderId})
    {
      hide TaskFor;
      if request.buyOrderId in lockedBuys {
        return Some(BuyOrderLocked);
      }
      lockedBuys := lockedBuys + {request.buyOrderId};
      if request.sellOrderId in lockedSells {
        lockedBuys := lockedBuys - {request.buyOrderId};
        return Some(SellOrderLocked);
      }
      lockedSells := lockedSells + {request.sellOrderId};
      if TaskFor(tasks, request.buyOrderId).None? {
        lockedBuys := lockedBuys - {request.buyOrderId};
        lockedSells := lockedSells - {request.sellOrderId};
        return Some(BuyOrderNotFound);
      }
      refused := None;
    }

    /** The last part of `accept_match`, once both of the agent's own locks are taken. */
    method LockAtProvider(key: Option<string>, request: AcceptRequest, env: AcceptEnv, taskId: string, chosen: Matching.Match)
      returns (locked: bool)
      requires taskId in tasks && env.attemptId in accepts
      requires request.buyOrderId in lockedBuys && request.sellOrderId in lockedSells
      modifies this`accepts, this`tasks, this`bindings, this`lockedBuys, this`lockedSells, this`orders, this`ledger
      ensures orders == Call(old(orders), Orders.Lock, request.sellOrderId, env.lock).0
      ensures locked == Call(old(orders), Orders.Lock, request.sellOrderId, env.lock).1
      ensures var status := if locked then AcceptCommitted else AcceptFailed;
              accepts == old(accepts)[env.attemptId := old(accepts)[env.attemptId].(status := status)]
      ensures tasks == WithBound(old(tasks), taskId, if locked then Some(MatchIdOf(request)) else None)
      ensures var b := Binding(MatchIdOf(request), taskId, request.buyOrderId, request.sellOrderId, chosen.agreedUnitPrice,
                               chosen.agreedWorkUnits, Accepted);
              bindings == if locked then WithBinding(old(bindings), b) else WithoutBinding(old(bindings), b.matchId)
      ensures lockedBuys == if locked then old(lockedBuys) else old(lockedBuys) - {request.buyOrderId}
      ensures lockedSells == if locked then old(lockedSells) else old(lockedSells) - {request.sellOrderId}
      ensures ledger == if locked && key.Some? then old(ledger)[key.value := env.attemptId] else old(ledger)
    {
      hide Call, MatchIdOf, OnlyRebinds, WellKeyed, KeepsSettled;
      var matchId := MatchIdOf(request);
      var b := Binding(matchId, taskId, request.buyOrderId, request.sellOrderId, chosen.agreedUnitPrice,
                       chosen.agreedWorkUnits, Accepted);
      BindTask(taskId, b);
      locked := PostProviderOrderAction(Orders.Lock, request.sellOrderId, env.lock);
      if !locked {
        RollBackAccept(env.attemptId, request, taskId, matchId);
        ghost var task := old(tasks)[taskId];
        Overwrite(old(tasks), taskId, task.(bound := Some(matchId)), task.(bound := None));
        assert bindings == old(bindings) - {matchId};
        return;
      }
      UpdateAcceptAttempt(env.attemptId, AcceptCommitted);
      if key.Some? {
        ledger := ledger[key.value := env.attemptId];
      }
    }

    /** `accept_match`. */
    method AcceptMatch(key: Option<string>, request: AcceptRequest, env: AcceptEnv) returns (reply: AcceptReply)
      modifies this`accepts, this`tasks, this`bindings, this`lockedBuys, this`lockedSells, this`orders, this`ledger
      ensures (View(), reply) == AcceptHandled(old(View()), key, request, env)
    {
      hide AcceptHandled;
      ghost var w := View();
      if key.Some? && key.value in ledger && ledger[key.value] in accepts {
        var existing := accepts[ledger[key.value]];
        if existing.request != request {
          KnownHandled(w, key, request, env);
          return IdempotencyConflict;
        }
        if existing.status == AcceptCommitted {
          KnownHandled(w, key, request, env);
          return AlreadyAccepted;
        }
      }
      reply := AcceptNew(key, request, env);
    }

    /** A request that no known key answers starts a new accept attempt. */
    method AcceptNew(key: Option<string>, request: AcceptRequest, env: AcceptEnv) returns (reply: AcceptReply)
      requires KnownKey(View(), key, request) == None
      modifies this`accepts, this`tasks, this`bindings, this`lockedBuys, this`lockedSells, this`orders, this`ledger
      ensures (View(), reply) == AcceptHandled(old(View()), key, request, env)
    {
      hide AcceptHandled, KnownKey, Refusal, Call, MatchIdOf, Proposal, TaskFor, WithBound, WithBinding, WithoutBinding;
      ghost var w := View();
      var refused := TakeLocks(request, env);
      if refused.Some? {
        RefusedHandled(w, key, request, env);
        return refused.value;
      }
      RefusalPasses(w, request, env);
      LockedHandled(w, key, request, env);
      reply := AcceptLocked(key, request, env, w);
    }

    /** The rest, with both of the agent's own locks taken. */
    method AcceptLocked(key: Option<string>, request: AcceptRequest, env: AcceptEnv, ghost w: World)
      returns (reply: AcceptReply)
      requires Proposal(env.proposals, MatchIdOf(request)).Some?
      requires TaskFor(w.tasks, request.buyOrderId).Some? && TaskFor(w.tasks, request.buyOrderId).value in w.tasks
      requires request.buyOrderId !in w.lockedBuys && request.sellOrderId !in w.lockedSells
      requires View() == w.(accepts := w.accepts[env.attemptId := AcceptAttempt(request, Locking)],
                            lockedBuys := w.lockedBuys + {request.buyOrderId},
                            lockedSells := w.lockedSells + {request.sellOrderId})
      modifies this`accepts, this`tasks, this`bindings, this`lockedBuys, this`lockedSells, this`orders, this`ledger
      ensures LockAnswered(w, View(), key, request, env, reply)
    {
      hide Call, MatchIdOf, Proposal, TaskFor, WithBound, WithBinding, WithoutBinding, OnlyRebinds, WellKeyed, KeepsSettled;
      hide LockAnswered;
      var taskId := TaskFor(tasks, request.buyOrderId).value;
      var chosen := Proposal(env.proposals, MatchIdOf(request)).value;
      ghost var u := View();
      var locked := LockAtProvider(key, request, env, taskId, chosen);
      reply := if locked then MatchAccepted else ProviderLockFailed;
      ghost var v := View();
      assert v.attempts == u.attempts && v.disputes == u.disputes && v.backoff == u.backoff && v.mode == u.mode;
      assert v.overridden == u.overridden && v.gateway == u.gateway;
      LockNoted(w, u, v, locked, key, request, env, taskId, chosen, reply);
    }
  }

  lemma KnownHandled(w: World, key: Option<string>, request: AcceptRequest, env: AcceptEnv)
    requires KnownKey(w, key, request).Some?
    ensures AcceptHandled(w, key, request, env) == (w, KnownKey(w, key, request).value)
  {
    hide KnownKey, Refusal, LockTaken, LockFailed, Call, TaskFor, Proposal, OnlyRebinds, WellKeyed, KeepsSettled;
  }

  lemma RefusedHandled(w: World, key: Option<string>, request: AcceptRequest, env: AcceptEnv)
    requires KnownKey(w, key, request).None? && Refusal(w, request, env).Some?
    ensures AcceptHandled(w, key, request, env) ==
              (w.(accepts := w.accepts[env.attemptId := AcceptAttempt(request, Refusal(w, request, env).value.0)]),
               Refusal(w, request, env).value.1)
  {
    hide KnownKey, Refusal, LockTaken, LockFailed, Call, TaskFor, Proposal, OnlyRebinds, WellKeyed, KeepsSettled;
  }

  lemma RefusalPasses(w: World, request: AcceptRequest, env: AcceptEnv)
    requires Refusal(w, request, env).None?
    ensures Proposal(env.proposals, MatchIdOf(request)).Some?
    ensures TaskFor(w.tasks, request.buyOrderId).Some? && TaskFor(w.tasks, request.buyOrderId).value in w.tasks
  {
    hide Proposal, MatchIdOf;
  }

  lemma LockedHandled(w: World, key: Option<string>, request: AcceptRequest, env: AcceptEnv)
    requires KnownKey(w, key, request).None? && Refusal(w, request, env).None?
    requires Proposal(env.proposals, MatchIdOf(request)).Some?
    requires TaskFor(w.tasks, request.buyOrderId).Some? && TaskFor(w.tasks, request.buyOrderId).value in w.tasks
    ensures var taskId := TaskFor(w.tasks, request.buyOrderId).value;
            var chosen := Proposal(env.proposals, MatchIdOf(request)).value;
            var (after, ok) := Call(w.orders, Orders.Lock, request.sellOrderId, env.lock);
            AcceptHandled(w, key, request, env) ==
              if ok then (LockTaken(w, key, env.attemptId, request, taskId, chosen, after), MatchAccepted)
              else (LockFailed(w, env.attemptId, request, taskId, after), ProviderLockFailed)
  {
    hide KnownKey, Refusal, LockTaken, LockFailed, Call, TaskFor, Proposal, OnlyRebinds, WellKeyed, KeepsSettled;
  }

  // ---- Facts for the loops ----

  lemma AfterRunIgnores(run: StageRun)
    ensures AfterRun(StageRun(run.attempt, None, map[], [], run.ok)) == AfterRun(run)
  {
  }

  lemma RunKeepsTask(w: World, attemptId: string, env: StageEnv)
    requires attemptId in w.attempts
    ensures AfterRun(Resumed(w, attemptId, env)).taskId == w.attempts[attemptId].taskId
  {
    hide RunStage, TaskOf;
  }

  ghost predicate Distinct(order: seq<string>) {
    forall i, j :: 0 <= i < j < |order| ==> order[i] != order[j]
  }

  ghost function Elements(order: seq<string>): set<string> {
    set id | id in order
  }

  /** The attempts a recovery tick finds to visit. */
  ghost function ToRecover(w: World): set<string> {
    if w.mode == Auto then set id | id in w.attempts && Recoverable(w.attempts[id].status) else {}
  }

  lemma NobodyVisited(w: World, now: nat, envs: map<string, StageEnv>)
    ensures RecoveredAll(w, [], now, envs) == w && Distinct([]) && Elements([]) == {}
  {
  }

  lemma OneMoreVisited(w: World, order: seq<string>, id: string, now: nat, envs: map<string, StageEnv>)
    requires Distinct(order) && id !in Elements(order)
    ensures Distinct(order + [id]) && Elements(order + [id]) == Elements(order) + {id}
    ensures RecoveredAll(w, order + [id], now, envs) ==
              Recovered(RecoveredAll(w, order, now, envs), id, now, StageEnvOf(envs, id))
  {
    hide Recovered;
    assert (order + [id])[..|order|] == order;
  }

  lemma ResumedState(w: World, attemptId: string, now: nat, env: StageEnv)
    requires Resumes(w, attemptId, now)
    ensures var run := Resumed(w, attemptId, env);
            var a := AfterRun(run);
            Recovered(w, attemptId, now, env) ==
              w.(attempts := w.attempts[attemptId := a],
                 tasks := if run.task.Some? then w.tasks[a.taskId := run.task.value] else w.tasks,
                 orders := run.orders,
                 gateway := w.gateway + run.calls,
                 backoff := w.backoff[attemptId := now + BackoffDelay(a.retries)])
  {
    hide RunStage, AfterRun, TaskOf, Contained, BackoffDelay, KeepsSettled, Resumes, GivesUp, Resumed;
  }


  /** The provider has answered: the match is taken, or taken back. */
  predicate LockAnswered(w: World, v: World, key: Option<string>, request: AcceptRequest, env: AcceptEnv, reply: AcceptReply)
    requires Proposal(env.proposals, MatchIdOf(request)).Some?
    requires TaskFor(w.tasks, request.buyOrderId).Some? && TaskFor(w.tasks, request.buyOrderId).value in w.tasks
  {
    var taskId := TaskFor(w.tasks, request.buyOrderId).value;
    var chosen := Proposal(env.proposals, MatchIdOf(request)).value;
    var (after, ok) := Call(w.orders, Orders.Lock, request.sellOrderId, env.lock);
    && reply == (if ok then MatchAccepted else ProviderLockFailed)
    && v == if ok then LockTaken(w, key, env.attemptId, request, taskId, chosen, after)
            else LockFailed(w, env.attemptId, request, taskId, after)
  }

  /** What the agent has written down once the provider has answered is what the accept function says. */
  lemma LockNoted(w: World, u: World, v: World, locked: bool, key: Option<string>, request: AcceptRequest, env: AcceptEnv,
                  taskId: string, chosen: Matching.Match, reply: AcceptReply)
    requires reply == if locked then MatchAccepted else ProviderLockFailed
    requires TaskFor(w.tasks, request.buyOrderId) == Some(taskId) && taskId in w.tasks
    requires Proposal(env.proposals, MatchIdOf(request)) == Some(chosen)
    requires request.buyOrderId !in w.lockedBuys && request.sellOrderId !in w.lockedSells
    requires u == w.(accepts := w.accepts[env.attemptId := AcceptAttempt(request, Locking)],
                     lockedBuys := w.lockedBuys + {request.buyOrderId}, lockedSells := w.lockedSells + {request.sellOrderId})
    requires (v.orders, locked) == Call(u.orders, Orders.Lock, request.sellOrderId, env.lock)
    requires v.attempts == u.attempts && v.disputes == u.disputes && v.backoff == u.backoff && v.mode == u.mode
    requires v.overridden == u.overridden && v.gateway == u.gateway
    requires var status := if locked then AcceptCommitted else AcceptFailed;
             v.accepts == u.accepts[env.attemptId := u.accepts[env.attemptId].(status := status)]
    requires v.tasks == WithBound(u.tasks, taskId, if locked then Some(MatchIdOf(request)) else None)
    requires var b := Binding(MatchIdOf(request), taskId, request.buyOrderId, request.sellOrderId, chosen.agreedUnitPrice,
                              chosen.agreedWorkUnits, Accepted);
             v.bindings == if locked then WithBinding(u.bindings, b) else WithoutBinding(u.bindings, b.matchId)
    requires v.lockedBuys == if locked then u.lockedBuys else u.lockedBuys - {request.buyOrderId}
    requires v.lockedSells == if locked then u.lockedSells else u.lockedSells - {request.sellOrderId}
    requires v.ledger == if locked && key.Some? then u.ledger[key.value := env.attemptId] else u.ledger
    ensures LockAnswered(w, v, key, request, env, reply)
  {
    hide MatchIdOf, Proposal, TaskFor, WithBound, WithBinding, WithoutBinding, OnlyRebinds, WellKeyed, Call;
    var status := if locked then AcceptCommitted else AcceptFailed;
    Overwrite(w.accepts, env.attemptId, AcceptAttempt(request, Locking), AcceptAttempt(request, status));
    if locked {
      assert v == LockTaken(w, key, env.attemptId, request, taskId, chosen, v.orders);
    } else {
      assert v.lockedBuys == w.lockedBuys && v.lockedSells == w.lockedSells;
      assert v == LockFailed(w, env.attemptId, request, taskId, v.orders);
    }
  }

  lemma RunNoted(w: World, v: World, attemptId: string, now: nat, env: StageEnv)
    requires Resumes(w, attemptId, now)
    requires v == w.(attempts := v.attempts, tasks := v.tasks, orders := v.orders, gateway := v.gateway, backoff := v.backoff)
    requires var run := Resumed(w, attemptId, env);
             && v.attempts == w.attempts[attemptId := run.attempt][attemptId := AfterRun(run)]
             && v.tasks == (if run.task.Some? then w.tasks[w.attempts[attemptId].taskId := run.task.value] else w.tasks)
             && v.orders == run.orders && v.gateway == w.gateway + run.calls
             && v.backoff == w.backoff[attemptId := now + BackoffDelay(AfterRun(run).retries)]
    ensures v == Recovered(w, attemptId, now, env)
  {
    hide Resumed, AfterRun, Recovered, BackoffDelay;
    ResumedState(w, attemptId, now, env);
    RunKeepsTask(w, attemptId, env);
    var run := Resumed(w, attemptId, env);
    Overwrite(w.attempts, attemptId, run.attempt, AfterRun(run));
  }
  lemma NotResumedState(w: World, attemptId: string, now: nat, env: StageEnv)
    requires !Resumes(w, attemptId, now)
    ensures Recovered(w, attemptId, now, env) ==
              if GivesUp(w, attemptId, now)
              then w.(attempts := w.attempts[attemptId := w.attempts[attemptId].(status := FailedFinal)])
              else w
  {
    hide RunStage, AfterRun, TaskOf, Contained, Until, BackoffDelay, KeepsSettled, Resumes, Resumed;
  }

  /** A visit to one attempt leaves the others as they are. */
  lemma VisitLeavesOthers(w: World, attemptId: string, now: nat, env: StageEnv)
    ensures Recovered(w, attemptId, now, env).mode == w.mode
    ensures var after := Recovered(w, attemptId, now, env).attempts;
            forall id :: id in w.attempts && id != attemptId ==> id in after && after[id] == w.attempts[id]
  {
    hide Recovered, Resumes, GivesUp, Resumed, AfterRun, BackoffDelay;
    if Resumes(w, attemptId, now) {
      ResumedState(w, attemptId, now, env);
    } else {
      NotResumedState(w, attemptId, now, env);
    }
  }

  lemma ReleasedState(w: World, b: Binding, status: MatchStatus, delivery: Delivery)
    ensures BindingReleased(w, b, status, delivery) ==
              w.(lockedBuys := w.lockedBuys - {b.buyOrderId},
                 lockedSells := w.lockedSells - {b.sellOrderId},
                 orders := Call(w.orders, Orders.Release, b.sellOrderId, delivery).0)
              .(tasks := UnboundFrom(w.tasks, b))
              .(bindings := WithMatchStatus(w.bindings, b.matchId, status))
  {
    hide Call, KeepsSettled, OnlyRebinds, WellKeyed, UnboundFrom, WithMatchStatus;
  }

  lemma ReleasedKeepsMatch(w: World, ids: set<string>, m: string, status: MatchStatus, net: Deliveries)
    requires m in w.bindings && WellKeyed(w.bindings)
    ensures var v := MatchesReleased(w, ids, status, net);
            m in v.bindings && w.bindings[m] == v.bindings[m].(status := w.bindings[m].status) && w.bindings[m].matchId == m
  {
    hide BuysLeft, SellsLeft, FreedOrders, UnboundTasks, KeepsSettled, OnlyRebinds;
  }

  function MatchesOfAll(w: World, taskIds: set<string>): set<string> {
    set m | m in w.bindings && w.bindings[m].taskId in taskIds
  }

  lemma ReleasedKeepsOwners(w: World, ids: set<string>, t: string, net: Deliveries)
    ensures MatchesOf(MatchesReleased(w, ids, MatchExpired, net), t) == MatchesOf(w, t)
  {
    hide BuysLeft, SellsLeft, FreedOrders, UnboundTasks, KeepsSettled, OnlyRebinds, WellKeyed;
  }

  // ---- Releasing matches one after the other ----

  lemma ReleaseNone(w: World, status: MatchStatus, net: Deliveries)
    ensures MatchesReleased(w, {}, status, net) == w
  {
    assert BuysLeft(w.lockedBuys, w.bindings, {}) == w.lockedBuys;
    assert SellsLeft(w.lockedSells, w.bindings, {}) == w.lockedSells;
    assert FreedOrders(w.orders, w.bindings, {}, net) == w.orders;
    assert UnboundTasks(w.tasks, w.bindings, {}) == w.tasks;
    assert Ended(w.bindings, {}, status) == w.bindings;
  }

  lemma ReleaseSingle(w: World, m: string, b: Binding, status: MatchStatus, net: Deliveries)
    requires m in w.bindings && b == w.bindings[m].(status := b.status) && b.matchId == m
    ensures BindingReleased(w, b, status, DeliveryOf(net, m)) == MatchesReleased(w, {m}, status, net)
  {
    assert BuysLeft(w.lockedBuys, w.bindings, {m}) == w.lockedBuys - {b.buyOrderId};
    assert SellsLeft(w.lockedSells, w.bindings, {m}) == w.lockedSells - {b.sellOrderId};
    SingleOrders(w.orders, w.bindings, m, b, net);
    assert UnboundTasks(w.tasks, w.bindings, {m}) == UnboundFrom(w.tasks, b);
    assert Ended(w.bindings, {m}, status) == WithMatchStatus(w.bindings, m, status);
    hide BuysLeft, SellsLeft, FreedOrders, UnboundTasks, Ended, UnboundFrom, WithMatchStatus, Call, DeliveryOf;
    hide KeepsSettled, OnlyRebinds, WellKeyed;
  }

  lemma SingleOrders(orders: map<string, OrderStatus>, bindings: map<string, Binding>, m: string, b: Binding, net: Deliveries)
    requires m in bindings && b == bindings[m].(status := b.status)
    ensures Call(orders, Orders.Release, b.sellOrderId, DeliveryOf(net, m)).0 == FreedOrders(orders, bindings, {m}, net)
  {
    forall o | o in orders ensures Frees(bindings, {m}, net, o) <==> b.sellOrderId == o && !DeliveryOf(net, m).NotReached? {
    }
  }

  /** Only statuses differ. */
  predicate SameMatches(x: map<string, Binding>, y: map<string, Binding>) {
    x.Keys == y.Keys && forall m :: m in x ==> y[m] == x[m].(status := y[m].status)
  }

  lemma UnionOrders(x: map<string, Binding>, y: map<string, Binding>, a: set<string>, b: set<string>, net: Deliveries, o: string)
    requires SameMatches(x, y)
    ensures OfBuy(x, a + b, o) <==> OfBuy(x, a, o) || OfBuy(y, b, o)
    ensures OfSell(x, a + b, o) <==> OfSell(x, a, o) || OfSell(y, b, o)
    ensures Frees(x, a + b, net, o) <==> Frees(x, a, net, o) || Frees(y, b, net, o)
  {
  }

  lemma UnionLocks(locked: set<string>, x: map<string, Binding>, y: map<string, Binding>, a: set<string>, b: set<string>)
    requires SameMatches(x, y)
    ensures BuysLeft(BuysLeft(locked, x, a), y, b) == BuysLeft(locked, x, a + b)
    ensures SellsLeft(SellsLeft(locked, x, a), y, b) == SellsLeft(locked, x, a + b)
  {
    forall o
      ensures OfBuy(x, a + b, o) <==> OfBuy(x, a, o) || OfBuy(y, b, o)
      ensures OfSell(x, a + b, o) <==> OfSell(x, a, o) || OfSell(y, b, o)
    {
      UnionOrders(x, y, a, b, map[], o);
    }
    hide OfBuy, OfSell;
  }

  lemma UnionFreed(orders: map<string, OrderStatus>, x: map<string, Binding>, y: map<string, Binding>, a: set<string>,
                   b: set<string>, net: Deliveries)
    requires SameMatches(x, y)
    ensures FreedOrders(FreedOrders(orders, x, a, net), y, b, net) == FreedOrders(orders, x, a + b, net)
  {
    hide Frees;
    forall o ensures Frees(x, a + b, net, o) <==> Frees(x, a, net, o) || Frees(y, b, net, o) {
      UnionOrders(x, y, a, b, net, o);
    }
  }

  lemma UnionUnbound(tasks: map<string, Task>, x: map<string, Binding>, y: map<string, Binding>, a: set<string>, b: set<string>)
    requires SameMatches(x, y)
    ensures UnboundTasks(UnboundTasks(tasks, x, a), y, b) == UnboundTasks(tasks, x, a + b)
  {
    forall t | t in tasks
      ensures UnboundTasks(UnboundTasks(tasks, x, a), y, b)[t] == UnboundTasks(tasks, x, a + b)[t]
    {
    }
  }

  /** Releasing one set of matches and then another is releasing them all. */
  lemma ReleaseUnion(w: World, a: set<string>, b: set<string>, status: MatchStatus, net: Deliveries)
    ensures MatchesReleased(MatchesReleased(w, a, status, net), b, status, net) == MatchesReleased(w, a + b, status, net)
  {
    hide BuysLeft, SellsLeft, FreedOrders, UnboundTasks, Ended, SameMatches, KeepsSettled, OnlyRebinds, WellKeyed;
    var y := Ended(w.bindings, a, status);
    UnionEnded(w.bindings, a, b, status);
    UnionLocks(w.lockedBuys, w.bindings, y, a, b);
    UnionLocks(w.lockedSells, w.bindings, y, a, b);
    UnionFreed(w.orders, w.bindings, y, a, b, net);
    UnionUnbound(w.tasks, w.bindings, y, a, b);
  }

  lemma UnionEnded(x: map<string, Binding>, a: set<string>, b: set<string>, status: MatchStatus)
    ensures SameMatches(x, Ended(x, a, status))
    ensures Ended(Ended(x, a, status), b, status) == Ended(x, a + b, status)
  {
    hide WellKeyed;
    EndedTwice(x, a, b, status);
  }

  lemma EndedTwice(x: map<string, Binding>, a: set<string>, b: set<string>, status: MatchStatus)
    ensures Ended(Ended(x, a, status), b, status) == Ended(x, a + b, status)
  {
    hide WellKeyed;
    var once := Ended(x, a, status);
    var twice, all := Ended(once, b, status), Ended(x, a + b, status);
    forall m | m in x ensures twice[m] == all[m] {
      assert once[m] == if m in a then x[m].(status := status) else x[m];
      assert twice[m] == if m in b then once[m].(status := status) else once[m];
    }
    assert twice.Keys == all.Keys;
  }

  lemma KeepsTask(w: World, a: Attempt)
    ensures a.taskId in w.tasks ==> w.tasks[a.taskId := w.tasks[a.taskId]] == w.tasks
  {
  }

  lemma NothingToSettle(w: World, taskId: string, attemptId: string, env: SettleEnv)
    ensures !Settleable(w, taskId) ==> PassDone(w, taskId, attemptId, env) == w
  {
    hide PassScene;
  }

  /** After a pass the task is unbound, or its match is settled: there is nothing more to settle. */
  lemma PassEndsLoop(w: World, taskId: string, attemptId: string, env: SettleEnv)
    requires Settleable(w, taskId) && attemptId !in w.attempts
    ensures var v := PassDone(w, taskId, attemptId, env);
            taskId in v.tasks && !Settleable(v, taskId)
  {
    hide Opening;
    hide SettleScene;
    var task := w.tasks[taskId];
    var binding := w.bindings[task.bound.value];
    OpeningBound(taskId, task, attemptId, binding, w.orders);
    SettleSceneEnds(Opening(taskId, task, attemptId, binding, w.orders), Drained(task), taskId, attemptId, env);
  }

  lemma OpeningBound(taskId: string, task: Task, attemptId: string, binding: Binding, orders: map<string, OrderStatus>)
    requires |task.pending| >= task.mergeCount
    ensures Opening(taskId, task, attemptId, binding, orders).task.bound == task.bound
  {
    hide Upserted, NewAttempt;
  }

  /** The match is settled and the task still bound to it, or the task is bound to none. */
  predicate Ends(s: Scene, r: Scene) {
    r.task.bound == None || (r.task.bound == s.task.bound && r.binding.status == MatchSettled)
  }

  lemma SettleSceneEnds(s: Scene, windows: seq<Charge>, taskId: string, attemptId: string, env: SettleEnv)
    ensures Ends(s, SettleScene(s, windows, taskId, attemptId, env))
  {
    hide Call, InvoiceScene, Fail, Advance, CreateInvoiceRequest;
    var after := Call(s.orders, Orders.MarkSettling, s.binding.sellOrderId, env.settling).0;
    InvoiceSceneEnds(AfterMark(s.(orders := after), windows, taskId), windows, attemptId, env);
  }

  lemma InvoiceSceneEnds(s: Scene, windows: seq<Charge>, attemptId: string, env: SettleEnv)
    ensures Ends(s, InvoiceScene(s, windows, attemptId, env))
  {
    hide Call, RecordScene, Fail, Advance, Advanced, SettlePaymentRequest, RecordResultRequest, Billing.Invoice, Paying;
    if env.invoice.Confirmed? && env.payment.Confirmed? {
      var invoiced := AfterInvoice(Asked(s, InvoiceCall(attemptId, env.invoice)), windows, env.invoice.id, attemptId);
      var asked := Asked(invoiced, PaymentCall(attemptId, env.payment));
      var r := AfterPayment(asked, windows, env.invoice.id, env.payment.id, attemptId);
      RecordSceneEnds(r, windows, env.invoice.id, env.payment.id, attemptId, env);
    }
  }

  lemma RecordSceneEnds(s: Scene, windows: seq<Charge>, invoiceId: string, paymentId: string, attemptId: string, env: SettleEnv)
    ensures Ends(s, RecordScene(s, windows, invoiceId, paymentId, attemptId, env))
  {
    hide Call, Fail, Advance, Advanced, Finalize, FinalizedTrade, PaidOut, Delivered, Sum, Round, IndexSet;
  }

  lemma OpeningLocked(taskId: string, task: Task, attemptId: string, binding: Binding, orders: map<string, OrderStatus>)
    requires |task.pending| >= task.mergeCount
    ensures var s := Opening(taskId, task, attemptId, binding, orders);
            s.locked && s.binding.matchId == binding.matchId
  {
    hide Upserted, NewAttempt;
  }

  lemma AfterRecordBinding(s: Scene, windows: seq<Charge>, attemptId: string)
    ensures AfterRecord(s, windows, attemptId).binding.matchId == s.binding.matchId
    ensures AfterRecord(s, windows, attemptId).locked == s.locked
  {
    hide Advance, Advanced, IndexSet, Sum, Round;
  }

  method AddIndexes(before: set<nat>, windows: seq<Charge>) returns (settled: set<nat>)
    ensures settled == before + IndexSet(windows)
  {
    settled := before;
    for i := 0 to |windows|
      invariant settled == before + IndexSet(windows[..i])
    {
      IndexSetGrows(windows, i);
      settled := settled + {windows[i].windowIndex};
    }
    assert windows[..|windows|] == windows;
  }

  lemma IndexSetGrows(windows: seq<Charge>, i: nat)
    requires i < |windows|
    ensures IndexSet(windows[..i + 1]) == IndexSet(windows[..i]) + {windows[i].windowIndex}
  {
    var longer := windows[..i + 1];
    forall x | x in IndexSet(windows[..i]) ensures x in IndexSet(longer) {
      var k :| 0 <= k < i && windows[..i][k].windowIndex == x;
      assert longer[k].windowIndex == x;
    }
    assert longer[i].windowIndex == windows[i].windowIndex;
  }

  // ---- A task's bills, changed in place ----

  method BillWindows(task: Task, attemptId: string, tradeId: string, windows: seq<Charge>, unitPrice: real) returns (after: Task)
    ensures after == task.(bills := Upserted(task.bills, attemptId, tradeId, windows, unitPrice, task.interval))
  {
    var book := new BillingWindows(task.interval, task.bills);
    book.UpsertForAttempt(attemptId, tradeId, windows, unitPrice);
    after := task.(bills := book.bills);
  }

  method ApplyBillingStatus(task: Task, attemptId: string, next: BillStatus) returns (after: Task)
    ensures after == WithBillStatus(task, attemptId, next)
  {
    hide Advanced, StopsAt;
    var book := new BillingWindows(task.interval, task.bills);
    var _ := book.ApplyStatusForAttempt(attemptId, next);
    after := task.(bills := book.bills);
  }

  method AttachInvoice(task: Task, attemptId: string, invoiceId: string) returns (after: Task)
    ensures after == task.(bills := Billing.Invoice(task.bills, attemptId, invoiceId))
  {
    var book := new BillingWindows(task.interval, task.bills);
    book.AttachInvoice(attemptId, invoiceId);
    after := task.(bills := book.bills);
  }

  method AttachPayment(task: Task, attemptId: string, paymentId: string) returns (after: Task)
    ensures after == task.(bills := Paying(task.bills, attemptId, paymentId))
  {
    var book := new BillingWindows(task.interval, task.bills);
    book.AttachPayment(attemptId, paymentId);
    after := task.(bills := book.bills);
  }

  /** The attempt's bills are paid, its windows settled and their sum counted. */
  method SettleWindows(task: Task, attemptId: string, windows: seq<Charge>) returns (after: Task)
    ensures var t := WithBillStatus(task, attemptId, Paid);
            after == t.(settled := t.settled + IndexSet(windows), totalPaid := t.totalPaid + Round(Sum(windows)),
                        paid := t.paid + windows)
  {
    hide Advanced, Round, Sum, IndexSet;
    after := ApplyBillingStatus(task, attemptId, Paid);
    var amountPaid := Sum(windows);
    var settled := AddIndexes(after.settled, windows);
    after := after.(settled := settled, paid := after.paid + windows);
    after := after.(totalPaid := after.totalPaid + Round(amountPaid));
  }

  /** Ends the trade if it has delivered its commitment, and counts what has been paid out. */
  method EndTradeIfDelivered(task: Task, binding: Binding) returns (after: Task)
    ensures after == AutoFinalized(task, binding)
  {
    hide FinalizedTrade, Delivered, Gross, PaidOut, TradeOutcome;
    after := task;
    var book := new BillingWindows(task.interval, task.bills);
    var delivered, _ := book.Totals(binding.matchId);
    if TradeAutoTerminates(binding.workUnits, delivered) {
      var _ := book.FinalizeTrade(binding.matchId, binding.workUnits);
      var paid := book.Payout();
      after := task.(bills := book.bills, totalPaid := paid);
    }
  }
}
