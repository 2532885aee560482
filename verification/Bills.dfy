/** The bills over whole runs: one trade and one status for each attempt, keys used once, money that adds up. */
module Bills {
  import opened Wrappers
  import opened Market
  import opened Billing
  import opened Orders
  import opened Settlement
  import opened Agent
  import opened Safety
  import opened Progress

  ghost predicate Sound(bills: seq<Bill>) {
    Coherent(bills) && AllBalanced(bills)
  }

  /** The same bills under the same keys, of the same attempts and trades, for the same work and amounts. */
  predicate SameBills(a: seq<Bill>, b: seq<Bill>) {
    && |a| == |b|
    && forall i :: 0 <= i < |a| ==>
         && a[i].billId == b[i].billId && a[i].attemptId == b[i].attemptId && a[i].tradeId == b[i].tradeId
         && a[i].windowIndex == b[i].windowIndex && a[i].compute == b[i].compute && a[i].gross == b[i].gross
  }

  /** A change that keeps sound bills sound. */
  ghost predicate Keeps(a: seq<Bill>, b: seq<Bill>) {
    (Sound(a) ==> Sound(b)) && SameBills(a, b)
  }

  lemma KeepsTransitive(a: seq<Bill>, b: seq<Bill>, c: seq<Bill>)
    requires Keeps(a, b) && Keeps(b, c)
    ensures Keeps(a, c)
  {
    hide Sound;
  }

  lemma KeepsReflexive(a: seq<Bill>)
    ensures Keeps(a, a)
  {
  }

  lemma AdvancedSame(bills: seq<Bill>, attemptId: string, next: BillStatus)
    ensures SameBills(bills, Advanced(bills, attemptId, next))
  {
  }

  lemma MovedSame(bills: seq<Bill>, attemptId: string, next: BillStatus)
    ensures SameBills(bills, AllMoved(bills, attemptId, next))
  {
  }

  lemma StatusKeeps(bills: seq<Bill>, attemptId: string, next: BillStatus)
    ensures Keeps(bills, Advanced(bills, attemptId, next)) && Keeps(bills, AllMoved(bills, attemptId, next))
  {
    hide Coherent, AllBalanced, Advanced, AllMoved, SameBills;
    AdvancedSame(bills, attemptId, next);
    MovedSame(bills, attemptId, next);
    if Sound(bills) {
      AdvancedKeeps(bills, attemptId, next);
      MovedKeeps(bills, attemptId, next);
    }
  }

  lemma IdsKeep(bills: seq<Bill>, attemptId: string, id: string)
    ensures Keeps(bills, Billing.Invoice(bills, attemptId, id)) && Keeps(bills, Paying(bills, attemptId, id))
  {
    hide Coherent, AllBalanced;
    if Sound(bills) {
      InvoiceKeeps(bills, attemptId, id);
      PayingKeeps(bills, attemptId, id);
    }
  }

  lemma RefundsKeep(bills: seq<Bill>, tradeId: Option<string>)
    ensures Keeps(bills, PenaltyApplied(bills, tradeId)) && Keeps(bills, RefundReleased(bills, tradeId))
  {
    hide Coherent, AllBalanced, Round, Max0;
    if Sound(bills) {
      PenaltyAppliedKeeps(bills, tradeId);
      RefundReleasedKeeps(bills, tradeId);
    }
  }

  lemma EndingKeeps(bills: seq<Bill>, tradeId: string, committed: real)
    ensures Keeps(bills, FinalizedTrade(bills, tradeId, committed))
  {
    hide Coherent, AllBalanced, TradeOutcome, Gross, Round, Max0, RefundShare;
    if Sound(bills) {
      FinalizedTradeKeeps(bills, tradeId, committed);
    }
  }

  // ---- One pass, one stage run ----

  lemma CommitKeeps(s: Scene, invoiceId: string, paymentId: string, env: SettleEnv)
    ensures Keeps(s.task.bills, CommitScene(s, invoiceId, paymentId, env).task.bills)
  {
    EndingKeeps(s.task.bills, s.binding.matchId, s.binding.workUnits);
    KeepsReflexive(s.task.bills);
    hide Keeps, Call, Fail, Finalize, FinalizedTrade, Delivered, PaidOut, TradeAutoTerminates;
  }

  lemma RecordKeeps(s: Scene, windows: seq<Charge>, invoiceId: string, paymentId: string, attemptId: string, env: SettleEnv)
    ensures Keeps(s.task.bills, RecordScene(s, windows, invoiceId, paymentId, attemptId, env).task.bills)
  {
    var after := AfterRecord(Asked(s, ResultCall(attemptId, env.recorded)), windows, attemptId);
    CommitKeeps(after, invoiceId, paymentId, env);
    StatusKeeps(s.task.bills, attemptId, Paid);
    StatusKeeps(s.task.bills, attemptId, Disputed);
    KeepsReflexive(s.task.bills);
    hide Keeps, Call, CommitScene, Fail, Advance, Advanced, Sum, Round;
    KeepsTransitive(s.task.bills, after.task.bills, CommitScene(after, invoiceId, paymentId, env).task.bills);
  }

  lemma PaymentKeeps(s: Scene, windows: seq<Charge>, invoiceId: string, attemptId: string, env: SettleEnv)
    ensures Keeps(s.task.bills, PaymentScene(s, windows, invoiceId, attemptId, env).task.bills)
  {
    hide Keeps, Call, RecordScene, Fail, Advance, Advanced, RecordResultRequest, Paying;
    KeepsReflexive(s.task.bills);
    if env.payment.Confirmed? {
      var paymentId := env.payment.id;
      var after := AfterPayment(Asked(s, PaymentCall(attemptId, env.payment)), windows, invoiceId, paymentId, attemptId);
      var paying := Paying(s.task.bills, attemptId, paymentId);
      IdsKeep(s.task.bills, attemptId, paymentId);
      StatusKeeps(paying, attemptId, PaymentSubmitted);
      KeepsTransitive(s.task.bills, paying, after.task.bills);
      RecordKeeps(after, windows, invoiceId, paymentId, attemptId, env);
      KeepsTransitive(s.task.bills, after.task.bills,
                      RecordScene(after, windows, invoiceId, paymentId, attemptId, env).task.bills);
    }
  }

  lemma InvoiceSceneKeeps(s: Scene, windows: seq<Charge>, attemptId: string, env: SettleEnv)
    ensures Keeps(s.task.bills, InvoiceScene(s, windows, attemptId, env).task.bills)
  {
    hide Keeps, Call, PaymentScene, Fail, Advance, Advanced, SettlePaymentRequest, Billing.Invoice;
    KeepsReflexive(s.task.bills);
    if env.invoice.Confirmed? {
      var invoiceId := env.invoice.id;
      var after := AfterInvoice(Asked(s, InvoiceCall(attemptId, env.invoice)), windows, invoiceId, attemptId);
      var invoiced := Billing.Invoice(s.task.bills, attemptId, invoiceId);
      IdsKeep(s.task.bills, attemptId, invoiceId);
      StatusKeeps(invoiced, attemptId, Invoiced);
      KeepsTransitive(s.task.bills, invoiced, after.task.bills);
      PaymentKeeps(after, windows, invoiceId, attemptId, env);
      KeepsTransitive(s.task.bills, after.task.bills, PaymentScene(after, windows, invoiceId, attemptId, env).task.bills);
    }
  }

  lemma SettleKeeps(s: Scene, windows: seq<Charge>, taskId: string, attemptId: string, env: SettleEnv)
    ensures Keeps(s.task.bills, SettleScene(s, windows, taskId, attemptId, env).task.bills)
  {
    hide Keeps, Call, InvoiceScene, Fail, Advance, CreateInvoiceRequest;
    KeepsReflexive(s.task.bills);
    var after := Call(s.orders, Orders.MarkSettling, s.binding.sellOrderId, env.settling).0;
    InvoiceSceneKeeps(AfterMark(s.(orders := after), windows, taskId), windows, attemptId, env);
  }

  lemma GatewayRunsKeep(attemptId: string, a: Attempt, task: Task, orders: map<string, OrderStatus>, env: StageEnv)
    ensures Keeps(task.bills, RunCreateInvoice(attemptId, a, Some(task), orders, env).task.value.bills)
    ensures Keeps(task.bills, RunSettlePayment(attemptId, a, Some(task), orders, env).task.value.bills)
    ensures Keeps(task.bills, RunRecordResult(attemptId, a, Some(task), orders, env).task.value.bills)
  {
    hide Keeps, Advanced, Paying, Billing.Invoice, ReplayWindows, CreateInvoiceRequest, SettlePaymentRequest, RecordResultRequest;
    KeepsReflexive(task.bills);
    StatusKeeps(task.bills, attemptId, Paid);
    StatusKeeps(task.bills, attemptId, Disputed);
    if env.answer.Confirmed? {
      var id := env.answer.id;
      var invoiced, paying := Billing.Invoice(task.bills, attemptId, id), Paying(task.bills, attemptId, id);
      IdsKeep(task.bills, attemptId, id);
      StatusKeeps(invoiced, attemptId, Invoiced);
      StatusKeeps(paying, attemptId, PaymentSubmitted);
      KeepsTransitive(task.bills, invoiced, Advanced(invoiced, attemptId, Invoiced));
      KeepsTransitive(task.bills, paying, Advanced(paying, attemptId, PaymentSubmitted));
    }
  }

  lemma RunKeeps(attemptId: string, a: Attempt, task: Task, orders: map<string, OrderStatus>, env: StageEnv)
    ensures Keeps(task.bills, RunStage(attemptId, a, Some(task), orders, env).task.value.bills)
  {
    hide Keeps, Call, RunCreateInvoice, RunSettlePayment, RunRecordResult;
    KeepsReflexive(task.bills);
    GatewayRunsKeep(attemptId, a, task, orders, env);
  }

  // ---- Every step ----

  /** A bill belongs to an attempt of its task and to that attempt's trade. */
  ghost predicate Owned(w: World, taskId: string, bills: seq<Bill>) {
    forall i :: 0 <= i < |bills| ==>
      && bills[i].attemptId in w.attempts
      && w.attempts[bills[i].attemptId].taskId == taskId
      && w.attempts[bills[i].attemptId].matchId == bills[i].tradeId
  }

  ghost predicate Billed(w: World) {
    && (forall t :: t in w.tasks ==> Sound(w.tasks[t].bills) && Owned(w, t, w.tasks[t].bills))
    && WellKeyed(w.bindings)
  }

  ghost predicate KeepsBills(w: World, v: World) {
    v.tasks.Keys == w.tasks.Keys && forall t :: t in w.tasks ==> Keeps(w.tasks[t].bills, v.tasks[t].bills)
  }

  lemma OwnedStays(w: World, v: World, taskId: string, a: seq<Bill>, b: seq<Bill>)
    requires Owned(w, taskId, a) && KeepsIdentities(w, v) && SameBills(a, b)
    ensures Owned(v, taskId, b)
  {
  }

  lemma FrameBilled(w: World, v: World)
    requires Billed(w) && KeepsIdentities(w, v) && KeepsBills(w, v) && WellKeyed(v.bindings)
    ensures Billed(v)
  {
    forall t | t in v.tasks ensures Sound(v.tasks[t].bills) && Owned(v, t, v.tasks[t].bills) {
      assert t in w.tasks;
      OwnedStays(w, v, t, w.tasks[t].bills, v.tasks[t].bills);
    }
    hide Sound, Owned, KeepsIdentities;
  }

  lemma RebindsKeepBills(w: World, v: World)
    requires OnlyRebinds(w.tasks, v.tasks)
    ensures KeepsBills(w, v)
  {
    hide Keeps;
    forall t | t in w.tasks ensures Keeps(w.tasks[t].bills, v.tasks[t].bills) {
      KeepsReflexive(w.tasks[t].bills);
    }
  }

  lemma OpeningBilled(w: World, taskId: string, attemptId: string)
    requires Billed(w) && Settleable(w, taskId) && attemptId !in w.attempts
    ensures var task := w.tasks[taskId];
            var binding := w.bindings[task.bound.value];
            var bills := Opening(taskId, task, attemptId, binding, w.orders).task.bills;
            && Sound(bills) && task.bills <= bills
            && forall i :: |task.bills| <= i < |bills| ==> bills[i].attemptId == attemptId && bills[i].tradeId == binding.matchId
  {
    var task := w.tasks[taskId];
    var binding := w.bindings[task.bound.value];
    assert Owned(w, taskId, task.bills) && Sound(task.bills);
    UpsertedKeeps(task.bills, attemptId, binding.matchId, Drained(task), binding.unitPrice, task.interval);
    hide Coherent, AllBalanced, Upserted, Billed, Owned;
  }

  lemma PassDoneBilled(w: World, taskId: string, attemptId: string, env: SettleEnv)
    requires Billed(w)
    ensures Billed(PassDone(w, taskId, attemptId, env))
  {
    hide Sound, SettleScene, Opening, SameBills, Owned;
    if Settleable(w, taskId) && attemptId !in w.attempts {
      var v := PassDone(w, taskId, attemptId, env);
      var task := w.tasks[taskId];
      var binding := w.bindings[task.bound.value];
      var s := Opening(taskId, task, attemptId, binding, w.orders);
      OpeningBilled(w, taskId, attemptId);
      SettleKeeps(s, Drained(task), taskId, attemptId, env);
      PassIdentity(taskId, task, attemptId, binding, w.orders, env);
      PassOwned(w, v, taskId, attemptId, s.task.bills, v.tasks[taskId].bills, binding.matchId);
      forall t | t in v.tasks && t != taskId ensures Owned(v, t, v.tasks[t].bills) {
        OtherOwned(w, v, t);
      }
    }
  }

  lemma OtherOwned(w: World, v: World, t: string)
    requires t in w.tasks && Owned(w, t, w.tasks[t].bills)
    requires t in v.tasks && v.tasks[t] == w.tasks[t]
    requires forall id :: id in w.attempts ==> id in v.attempts && v.attempts[id] == w.attempts[id]
    ensures Owned(v, t, v.tasks[t].bills)
  {
  }

  lemma PassIdentity(taskId: string, task: Task, attemptId: string, binding: Binding, orders: map<string, OrderStatus>,
                     env: SettleEnv)
    requires |task.pending| >= task.mergeCount
    ensures var r := SettleScene(Opening(taskId, task, attemptId, binding, orders), Drained(task), taskId, attemptId, env);
            r.attempt.taskId == taskId && r.attempt.matchId == binding.matchId && r.binding.matchId == binding.matchId
  {
    hide SettleScene, Upserted, Indexes;
  }

  lemma PassOwned(w: World, v: World, taskId: string, attemptId: string, begun: seq<Bill>, after: seq<Bill>, matchId: string)
    requires taskId in w.tasks && Owned(w, taskId, w.tasks[taskId].bills) && attemptId !in w.attempts
    requires w.tasks[taskId].bills <= begun && SameBills(begun, after)
    requires forall i :: |w.tasks[taskId].bills| <= i < |begun| ==>
               begun[i].attemptId == attemptId && begun[i].tradeId == matchId
    requires attemptId in v.attempts && v.attempts == w.attempts[attemptId := v.attempts[attemptId]]
    requires v.attempts[attemptId].taskId == taskId && v.attempts[attemptId].matchId == matchId
    ensures Owned(v, taskId, after)
  {
  }

  lemma PolledBilled(w: World, taskId: string, report: PollReport, attemptId: string, env: SettleEnv)
    requires Billed(w)
    ensures Billed(Polled(w, taskId, report, attemptId, env))
  {
    hide Sound, PassDone, Admits;
    if taskId in w.tasks {
      var v := w.(tasks := w.tasks[taskId := Admitted(w.tasks[taskId], report)]);
      assert Billed(v);
      hide Billed, Owned;
      PassDoneBilled(v, taskId, attemptId, env);
    }
  }

  lemma OneTaskKeepsBills(w: World, v: World, taskId: string, task: Task)
    requires taskId in w.tasks && v.tasks == w.tasks[taskId := task] && Keeps(w.tasks[taskId].bills, task.bills)
    ensures KeepsBills(w, v)
  {
    hide Keeps;
    forall t | t in w.tasks ensures Keeps(w.tasks[t].bills, w.tasks[t].bills) {
      KeepsReflexive(w.tasks[t].bills);
    }
  }

  lemma RecoveredKeepsBills(w: World, attemptId: string, now: nat, env: StageEnv)
    ensures KeepsBills(w, Recovered(w, attemptId, now, env))
  {
    hide RunStage, Keeps, KeepsBills;
    var v := Recovered(w, attemptId, now, env);
    if Resumes(w, attemptId, now) && w.attempts[attemptId].taskId in w.tasks {
      var a := w.attempts[attemptId];
      var run := Resumed(w, attemptId, env);
      RunKeeps(attemptId, a, w.tasks[a.taskId], w.orders, env);
      OneTaskKeepsBills(w, v, a.taskId, run.task.value);
    } else {
      SameTasksKeepBills(w, v);
    }
  }

  lemma DisputesKeepBills(w: World, attemptId: string, tradeId: Option<string>)
    ensures KeepsBills(w, w.(tasks := RolledBackTasks(w.tasks, attemptId)))
    ensures KeepsBills(w, w.(tasks := PenalizedTasks(w.tasks, tradeId)))
    ensures KeepsBills(w, w.(tasks := RefundedTasks(w.tasks, tradeId)))
  {
    hide Keeps, AllMoved, PenaltyApplied, RefundReleased;
    forall t | t in w.tasks
      ensures Keeps(w.tasks[t].bills, AllMoved(w.tasks[t].bills, attemptId, Failed))
      ensures Keeps(w.tasks[t].bills, PenaltyApplied(w.tasks[t].bills, tradeId))
      ensures Keeps(w.tasks[t].bills, RefundReleased(w.tasks[t].bills, tradeId))
    {
      StatusKeeps(w.tasks[t].bills, attemptId, Failed);
      RefundsKeep(w.tasks[t].bills, tradeId);
    }
  }

  lemma SameTasksKeepBills(w: World, v: World)
    requires v.tasks == w.tasks
    ensures KeepsBills(w, v)
  {
    hide Keeps;
    forall t | t in w.tasks ensures Keeps(w.tasks[t].bills, w.tasks[t].bills) {
      KeepsReflexive(w.tasks[t].bills);
    }
  }

  lemma KeepsByTasks(w: World, u: World, v: World)
    requires KeepsBills(w, u) && v.tasks == u.tasks
    ensures KeepsBills(w, v)
  {
    hide Keeps;
  }

  lemma ActionTakenKeepsBills(w: World, d: Dispute, action: DisputeAction)
    ensures KeepsBills(w, ActionTaken(w, d, action))
  {
    hide KeepsBills, WithAttempt, RolledBackTasks, PenalizedTasks, RefundedTasks;
    var v := ActionTaken(w, d, action);
    match action
    case RollbackAction =>
      if d.attemptId.Some? {
        DisputesKeepBills(w, d.attemptId.value, d.tradeId);
        KeepsByTasks(w, w.(tasks := RolledBackTasks(w.tasks, d.attemptId.value)), v);
      } else {
        SameTasksKeepBills(w, v);
      }
    case ApplyPenalty => DisputesKeepBills(w, "", d.tradeId);
    case ReleaseRefund => DisputesKeepBills(w, "", d.tradeId);
    case RetryAction => SameTasksKeepBills(w, v);
    case MarkFinalAction => SameTasksKeepBills(w, v);
    case RefreshRemoteStatus => SameTasksKeepBills(w, v);
    case Escalate => SameTasksKeepBills(w, v);
    case Resolve => SameTasksKeepBills(w, v);
  }

  lemma SetRunningKeepsBills(w: World, taskId: string, running: bool)
    requires taskId in w.tasks
    ensures KeepsBills(w, w.(tasks := w.tasks[taskId := w.tasks[taskId].(running := running)]))
  {
    KeepsReflexive(w.tasks[taskId].bills);
    OneTaskKeepsBills(w, w.(tasks := w.tasks[taskId := w.tasks[taskId].(running := running)]), taskId,
                      w.tasks[taskId].(running := running));
  }

  lemma NextKeepsBills(w: World, step: Step)
    requires !step.Poll? && WellKeyed(w.bindings)
    ensures KeepsBills(w, Next(w, step)) && WellKeyed(Next(w, step).bindings)
  {
    hide KeepsBills, OnlyRebinds, WellKeyed, Recovered, ActionTaken, AllowedActions, UnstuckAll, ModeSwitched, OperatorMayAct;
    hide Reaped, TaskCleaned, MatchReleased, MatchRetried, MatchRejected, AcceptHandled, ProviderHandled, OrderAdded, Polled;
    hide MatchIdOf, KeepsSettled;
    SameTasksKeepBills(w, w);
    match step
    case Recover(attemptId, now, env) =>
      RecoveredKeepsBills(w, attemptId, now, env);
      RecoveredKeepsBindings(w, attemptId, now, env);
    case ActOnDispute(disputeId, action) =>
      if disputeId in w.disputes {
        ActionTakenKeepsBills(w, w.disputes[disputeId], action);
      }
    case SetRunning(taskId, running) =>
      if taskId in w.tasks {
        SetRunningKeepsBills(w, taskId, running);
      }
    case _ =>
      RebindingSteps(w, step);
      RebindsKeepBills(w, Next(w, step));
  }

  lemma RecoveredKeepsBindings(w: World, attemptId: string, now: nat, env: StageEnv)
    ensures Recovered(w, attemptId, now, env).bindings == w.bindings
  {
    hide RunStage, AfterRun;
  }

  lemma NextBilled(w: World, step: Step)
    requires Billed(w) && Safe(w)
    ensures Billed(Next(w, step))
  {
    hide Safe, Later, KeepsBills, Sound, Owned, KeepsIdentities, Polled;
    if step.Poll? {
      PolledBilled(w, step.taskId, step.report, step.attemptId, step.env);
      PollStep(w, step);
      hide Billed, Next;
    } else {
      hide Next;
      NextKeepsBills(w, step);
      NextLater(w, step);
      LaterKeepsIdentities(w, Next(w, step));
      FrameBilled(w, Next(w, step));
    }
  }

  lemma InitialBilled(w: World)
    requires Initial(w)
    ensures Billed(w)
  {
  }

  lemma {:induction false} RunBilled(w: World, steps: seq<Step>)
    requires Initial(w)
    ensures Billed(Run(w, steps))
  {
    hide Billed, Next, Initial, Safe;
    if steps == [] {
      InitialBilled(w);
    } else {
      RunBilled(w, steps[..|steps| - 1]);
      RunIsSafe(w, steps[..|steps| - 1]);
      NextBilled(Run(w, steps[..|steps| - 1]), steps[|steps| - 1]);
    }
  }

  /**
   * Over every run each bill's money adds up: billed is paid out plus refunded, the penalty is the refund, and the refund
   * is between nothing and the amount; only a bill for a negative amount is exempt.
   */
  lemma MoneyAddsUp(w: World, steps: seq<Step>, taskId: string, i: nat)
    requires Initial(w) && taskId in Run(w, steps).tasks && i < |Run(w, steps).tasks[taskId].bills|
    ensures var b := Run(w, steps).tasks[taskId].bills[i];
            b.gross >= 0.0 ==> b.gross == b.net + b.refund && b.penalty == b.refund && 0.0 <= b.refund <= b.gross
  {
    hide Run, Initial, IsMicro;
    RunBilled(w, steps);
    assert Sound(Run(w, steps).tasks[taskId].bills);
    assert Balanced(Run(w, steps).tasks[taskId].bills[i]);
  }

  /** Over every run the totals shown for a trade without negative bills are exact and add up. */
  lemma TradeAddsUp(w: World, steps: seq<Step>, taskId: string, tradeId: string)
    requires Initial(w) && taskId in Run(w, steps).tasks
    requires var bills := Run(w, steps).tasks[taskId].bills;
             forall i :: 0 <= i < |bills| && bills[i].tradeId == tradeId ==> bills[i].gross >= 0.0
    ensures var bills := Run(w, steps).tasks[taskId].bills;
            var (gross, refund, payout) := TradeTotals(bills, tradeId);
            && gross == refund + payout
            && gross == Gross(bills, tradeId) && refund == Refunds(bills, tradeId) && payout == Nets(bills, tradeId)
  {
    hide Run, Initial, AllBalanced, TradeTotals;
    RunBilled(w, steps);
    assert Sound(Run(w, steps).tasks[taskId].bills);
    TradeTotalsAddUp(Run(w, steps).tasks[taskId].bills, tradeId);
  }

  /** Over every run the bills of an attempt, wherever they are, are of one task and one trade and have one status. */
  lemma OneStatusPerAttempt(w: World, steps: seq<Step>, t: string, i: nat, u: string, j: nat)
    requires Initial(w)
    requires t in Run(w, steps).tasks && i < |Run(w, steps).tasks[t].bills|
    requires u in Run(w, steps).tasks && j < |Run(w, steps).tasks[u].bills|
    ensures var a, b := Run(w, steps).tasks[t].bills[i], Run(w, steps).tasks[u].bills[j];
            && (a.attemptId == b.attemptId ==> t == u && a.tradeId == b.tradeId && a.status == b.status)
            && (t == u && a.billId == b.billId ==> i == j)
  {
    hide Run, Initial, AllBalanced;
    RunBilled(w, steps);
    var v := Run(w, steps);
    assert Sound(v.tasks[t].bills) && Owned(v, t, v.tasks[t].bills) && Owned(v, u, v.tasks[u].bills);
  }

  /** So in every reachable state the status loop that returns early moves all the bills of an attempt or none. */
  lemma StatusLoopIsAllOrNothing(w: World, steps: seq<Step>, taskId: string, attemptId: string, next: BillStatus)
    requires Initial(w) && taskId in Run(w, steps).tasks
    ensures var bills := Run(w, steps).tasks[taskId].bills;
            Advanced(bills, attemptId, next) == AllMoved(bills, attemptId, next) || Advanced(bills, attemptId, next) == bills
  {
    hide Run, Initial, AllBalanced, Advanced, AllMoved, CanTransitionBill;
    RunBilled(w, steps);
    var bills := Run(w, steps).tasks[taskId].bills;
    assert Sound(bills);
    var tradeId, status := "", Pending;
    if i :| 0 <= i < |bills| && bills[i].attemptId == attemptId {
      tradeId, status := bills[i].tradeId, bills[i].status;
    }
    AdvancedIsAllOrNothing(bills, attemptId, tradeId, status, next);
  }
}
