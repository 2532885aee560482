/** What a task has paid in total: what each settled pass adds, over whole runs, until a trade of the task ends. */
module Totals {
  import opened Wrappers
  import opened Market
  import opened Billing
  import opened Orders
  import opened Settlement
  import opened Agent
  import Exits
  import Windows

  /** The settled windows come in groups of the task's merge count; each group's sum is rounded. */
  function Rounds(paid: seq<Charge>, n: Positive): real {
    if |paid| < n then 0.0 else Rounds(paid[..|paid| - n], n) + Round(Sum(paid[|paid| - n..]))
  }

  /** The number of groups; nothing is left over. */
  function Groups(paid: seq<Charge>, n: Positive): nat {
    if |paid| < n then 0 else 1 + Groups(paid[..|paid| - n], n)
  }

  predicate Whole(paid: seq<Charge>, n: Positive) {
    if |paid| < n then paid == [] else Whole(paid[..|paid| - n], n)
  }

  lemma OneMoreGroup(paid: seq<Charge>, group: seq<Charge>, n: Positive)
    requires |group| == n
    ensures Rounds(paid + group, n) == Rounds(paid, n) + Round(Sum(group))
    ensures Whole(paid + group, n) <==> Whole(paid, n)
  {
    assert (paid + group)[..|paid|] == paid && (paid + group)[|paid|..] == group;
  }

  // ---- The end of a trade ----

  lemma {:induction false} SameComputeDelivers(x: seq<Bill>, y: seq<Bill>, tradeId: string)
    requires |x| == |y| && forall i :: 0 <= i < |x| ==> x[i].tradeId == y[i].tradeId && x[i].compute == y[i].compute
    ensures Delivered(x, tradeId) == Delivered(y, tradeId)
  {
    if x != [] {
      SameComputeDelivers(x[..|x| - 1], y[..|y| - 1], tradeId);
    }
  }

  /** The task's trade has delivered what was committed. */
  predicate Delivers(t: Task, b: Binding) {
    b.workUnits > 0.0 && Delivered(t.bills, b.matchId) >= b.workUnits
  }

  /**
   * The windows were settled and their rounded sum added, or neither. If a trade ended, the total was taken from the bills
   * instead.
   */
  predicate Adds(t: Task, r: Task, windows: seq<Charge>, ended: bool) {
    && r.mergeCount == t.mergeCount
    && if r.paid == t.paid then r.totalPaid == t.totalPaid && !ended
       else r.paid == t.paid + windows && r.totalPaid == if ended then PaidOut(r.bills) else t.totalPaid + Round(Sum(windows))
  }

  lemma CommitTotals(s: Scene, invoiceId: string, paymentId: string, env: SettleEnv)
    ensures var r := CommitScene(s, invoiceId, paymentId, env).task;
            var ended := Call(s.orders, Orders.MarkSettled, s.binding.sellOrderId, env.settled).1 && Delivers(r, s.binding);
            && r.mergeCount == s.task.mergeCount && r.paid == s.task.paid
            && r.totalPaid == if ended then PaidOut(r.bills) else s.task.totalPaid
  {
    hide Call, Delivered, PaidOut, TradeOutcome, Breached, Fulfilled, Fail, Finalize;
    var finished := FinalizedTrade(s.task.bills, s.binding.matchId, s.binding.workUnits);
    FinalizedComputes(s.task.bills, s.binding.matchId, s.binding.workUnits);
    SameComputeDelivers(finished, s.task.bills, s.binding.matchId);
    hide FinalizedTrade;
  }

  lemma FinalizedComputes(bills: seq<Bill>, tradeId: string, committed: real)
    ensures var y := FinalizedTrade(bills, tradeId, committed);
            |y| == |bills| && forall i :: 0 <= i < |bills| ==> y[i].tradeId == bills[i].tradeId && y[i].compute == bills[i].compute
  {
    hide TradeOutcome, Gross, Round, Max0, RefundShare;
  }

  lemma RecordTotals(s: Scene, windows: seq<Charge>, invoiceId: string, paymentId: string, attemptId: string, env: SettleEnv)
    requires windows != []
    ensures var r := RecordScene(s, windows, invoiceId, paymentId, attemptId, env).task;
            var ended := Windows.ResultRecorded(env) && Delivers(r, s.binding)
                         && Call(s.orders, Orders.MarkSettled, s.binding.sellOrderId, env.settled).1;
            Adds(s.task, r, windows, ended)
  {
    hide Call, CommitScene, Advanced, Sum, Round, IndexSet, Advance, Fail, Delivers, PaidOut;
    assert s.task.paid + windows != s.task.paid;
    var after := AfterRecord(Asked(s, ResultCall(attemptId, env.recorded)), windows, attemptId);
    CommitTotals(after, invoiceId, paymentId, env);
    SameTerms(CommitScene(after, invoiceId, paymentId, env).task, after.binding, s.binding);
  }

  lemma SameTerms(t: Task, a: Binding, b: Binding)
    requires a.workUnits == b.workUnits && a.matchId == b.matchId
    ensures Delivers(t, a) <==> Delivers(t, b)
  {
  }

  lemma PaymentTotals(s: Scene, windows: seq<Charge>, invoiceId: string, attemptId: string, env: SettleEnv)
    requires windows != []
    ensures var r := PaymentScene(s, windows, invoiceId, attemptId, env).task;
            var ended := Windows.PaymentConfirmed(env) && Windows.ResultRecorded(env) && Delivers(r, s.binding)
                         && Call(s.orders, Orders.MarkSettled, s.binding.sellOrderId, env.settled).1;
            Adds(s.task, r, windows, ended)
  {
    hide Call, RecordScene, Advanced, Sum, Round, Advance, Delivers, PaidOut, Paying, RecordResultRequest, Windows.ResultRecorded;
    if Windows.PaymentConfirmed(env) {
      var asked := Asked(s, PaymentCall(attemptId, env.payment));
      RecordTotals(AfterPayment(asked, windows, invoiceId, env.payment.id, attemptId), windows, invoiceId, env.payment.id,
                   attemptId, env);
    }
  }

  lemma InvoiceTotals(s: Scene, windows: seq<Charge>, attemptId: string, env: SettleEnv)
    requires windows != []
    ensures var r := InvoiceScene(s, windows, attemptId, env).task;
            var ended := Windows.InvoiceConfirmed(env) && Windows.PaymentConfirmed(env) && Windows.ResultRecorded(env)
                         && Delivers(r, s.binding) && Call(s.orders, Orders.MarkSettled, s.binding.sellOrderId, env.settled).1;
            Adds(s.task, r, windows, ended)
  {
    hide Call, PaymentScene, Advanced, Sum, Round, Advance, Fail, Delivers, PaidOut, Billing.Invoice, SettlePaymentRequest;
    hide Windows.ResultRecorded, Windows.PaymentConfirmed;
    if Windows.InvoiceConfirmed(env) {
      var asked := Asked(s, InvoiceCall(attemptId, env.invoice));
      PaymentTotals(AfterInvoice(asked, windows, env.invoice.id, attemptId), windows, env.invoice.id, attemptId, env);
    }
  }

  /** A pass ends its trade: it runs to its end, and the trade has then delivered what was committed. */
  predicate PassEndsTrade(orders: map<string, OrderStatus>, binding: Binding, env: SettleEnv, r: Task) {
    Exits.ExitOf(orders, binding.sellOrderId, env) == Exits.Completed && Delivers(r, binding)
  }

  /** What a pass adds to the total. */
  lemma PassTotals(taskId: string, task: Task, attemptId: string, binding: Binding, orders: map<string, OrderStatus>, env: SettleEnv)
    requires |task.pending| >= task.mergeCount
    ensures var r := SettleScene(Opening(taskId, task, attemptId, binding, orders), Drained(task), taskId, attemptId, env).task;
            Adds(task, r, Drained(task), PassEndsTrade(orders, binding, env, r))
  {
    hide Call, InvoiceScene, Upserted, Sum, Round, NewAttempt, CreateInvoiceRequest, Advance, Fail, Delivers, PaidOut;
    var s := Opening(taskId, task, attemptId, binding, orders);
    var marked := s.(orders := Call(orders, Orders.MarkSettling, binding.sellOrderId, env.settling).0);
    var after := AfterMark(marked, Drained(task), taskId);
    InvoiceTotals(after, Drained(task), attemptId, env);
    SameTerms(InvoiceScene(after, Drained(task), attemptId, env).task, after.binding, binding);
  }

  // ---- Every step ----

  /** The step is a pass that ends a trade of the task. */
  predicate EndsTrade(w: World, step: Step, taskId: string) {
    && step.Poll? && step.taskId == taskId && taskId in w.tasks && Admits(w.tasks[taskId], step.report)
    && var u := w.(tasks := w.tasks[taskId := Admitted(w.tasks[taskId], step.report)]);
       && Settleable(u, taskId) && step.attemptId !in w.attempts
       && PassEndsTrade(w.orders, w.bindings[u.tasks[taskId].bound.value], step.env,
                        PassDone(u, taskId, step.attemptId, step.env).tasks[taskId])
  }

  /** Nothing is paid. */
  predicate SameTotal(t: Task, r: Task) {
    r.mergeCount == t.mergeCount && r.paid == t.paid && r.totalPaid == t.totalPaid
  }

  ghost predicate SameTotals(w: World, v: World) {
    v.tasks.Keys == w.tasks.Keys && forall t :: t in w.tasks ==> SameTotal(w.tasks[t], v.tasks[t])
  }

  /** The task pays for one group of windows, or for none. */
  predicate Pays(t: Task, r: Task, ended: bool) {
    SameTotal(t, r) || exists n :: 0 <= n <= |r.paid| && Adds(t, r, r.paid[n..], ended) && |r.paid[n..]| == t.mergeCount
  }

  lemma RebindsSameTotals(w: World, v: World)
    requires OnlyRebinds(w.tasks, v.tasks)
    ensures SameTotals(w, v)
  {
  }

  lemma BillsSameTotals(w: World, attemptId: string, tradeId: Option<string>)
    ensures SameTotals(w, w.(tasks := RolledBackTasks(w.tasks, attemptId)))
    ensures SameTotals(w, w.(tasks := PenalizedTasks(w.tasks, tradeId)))
    ensures SameTotals(w, w.(tasks := RefundedTasks(w.tasks, tradeId)))
  {
    hide AllMoved, PenaltyApplied, RefundReleased;
  }

  lemma ByTasks(w: World, u: World, v: World)
    requires SameTotals(w, u) && v.tasks == u.tasks
    ensures SameTotals(w, v)
  {
  }

  lemma ActionSameTotals(w: World, d: Dispute, action: DisputeAction)
    ensures SameTotals(w, ActionTaken(w, d, action))
  {
    hide SameTotals, RolledBackTasks, PenalizedTasks, RefundedTasks, WithAttempt;
    var v := ActionTaken(w, d, action);
    Untouched(w, w);
    if action == RollbackAction && d.attemptId.Some? {
      BillsSameTotals(w, d.attemptId.value, None);
      ByTasks(w, w.(tasks := RolledBackTasks(w.tasks, d.attemptId.value)), v);
    } else if action == ApplyPenalty {
      BillsSameTotals(w, "", d.tradeId);
    } else if action == ReleaseRefund {
      BillsSameTotals(w, "", d.tradeId);
    } else {
      ByTasks(w, w, v);
    }
  }

  lemma Untouched(w: World, v: World)
    requires v.tasks == w.tasks
    ensures SameTotals(w, v)
  {
  }

  lemma RecoverySameTotals(w: World, attemptId: string, now: nat, env: StageEnv)
    ensures SameTotals(w, Recovered(w, attemptId, now, env))
  {
    hide RunStage, KeepsSettled, BackoffDelay;
    if Resumes(w, attemptId, now) {
      assert Contained(w.attempts[attemptId], TaskOf(w, w.attempts[attemptId]), w.orders, Resumed(w, attemptId, env));
    }
  }

  lemma RunningSameTotals(w: World, taskId: string, running: bool)
    requires taskId in w.tasks
    ensures SameTotals(w, w.(tasks := w.tasks[taskId := w.tasks[taskId].(running := running)]))
  {
  }

  /** No step but a poll changes what a task has paid. */
  lemma OnlyPollsPay(w: World, step: Step)
    requires !step.Poll?
    ensures SameTotals(w, Next(w, step))
  {
    hide SameTotals, OnlyRebinds, Recovered, ActionTaken, AllowedActions, UnstuckAll, ModeSwitched, OperatorMayAct, MatchIdOf;
    hide Reaped, TaskCleaned, MatchReleased, MatchRetried, MatchRejected, AcceptHandled, ProviderHandled, OrderAdded, Polled;
    hide KeepsSettled, WellKeyed;
    Untouched(w, w);
    match step
    case Recover(attemptId, now, env) => RecoverySameTotals(w, attemptId, now, env);
    case ActOnDispute(disputeId, action) =>
      if disputeId in w.disputes {
        ActionSameTotals(w, w.disputes[disputeId], action);
      }
    case SetRunning(taskId, running) =>
      if taskId in w.tasks {
        RunningSameTotals(w, taskId, running);
      }
    case _ =>
      RebindingSteps(w, step);
      RebindsSameTotals(w, Next(w, step));
  }

  lemma ReportPaysNothing(t: Task, report: PollReport)
    ensures SameTotal(t, Admitted(t, report))
  {
    hide Admits;
  }

  lemma PassDonePays(w: World, taskId: string, attemptId: string, env: SettleEnv)
    requires Settleable(w, taskId) && attemptId !in w.attempts
    ensures var task, v := w.tasks[taskId], PassDone(w, taskId, attemptId, env);
            && v.tasks.Keys == w.tasks.Keys && (forall t :: t in w.tasks && t != taskId ==> v.tasks[t] == w.tasks[t])
            && Pays(task, v.tasks[taskId], PassEndsTrade(w.orders, w.bindings[task.bound.value], env, v.tasks[taskId]))
  {
    hide SettleScene, Opening, PassEndsTrade, Sum, Round, PaidOut, Rounds;
    var task := w.tasks[taskId];
    PassTotals(taskId, task, attemptId, w.bindings[task.bound.value], w.orders, env);
    var r := PassDone(w, taskId, attemptId, env).tasks[taskId];
    if r.paid != task.paid {
      assert r.paid[|task.paid|..] == Drained(task);
    }
  }

  lemma PollPays(w: World, step: Step, taskId: string)
    requires step.Poll? && taskId in w.tasks
    ensures var v := Polled(w, step.taskId, step.report, step.attemptId, step.env);
            taskId in v.tasks && Pays(w.tasks[taskId], v.tasks[taskId], EndsTrade(w, step, taskId))
  {
    hide PassDone, Admitted, Admits, PassEndsTrade, Adds;
    if step.taskId == taskId {
      ReportPaysNothing(w.tasks[taskId], step.report);
    }
    if step.taskId in w.tasks {
      var u := w.(tasks := w.tasks[step.taskId := Admitted(w.tasks[step.taskId], step.report)]);
      if Admits(w.tasks[step.taskId], step.report) && Settleable(u, step.taskId) && step.attemptId !in w.attempts {
        PassDonePays(u, step.taskId, step.attemptId, step.env);
        if step.taskId == taskId {
          SameThenPays(w.tasks[taskId], u.tasks[taskId], PassDone(u, taskId, step.attemptId, step.env).tasks[taskId],
                       EndsTrade(w, step, taskId));
        }
      } else if Admits(w.tasks[step.taskId], step.report) {
        NoPass(u, step.taskId, step.attemptId, step.env);
      }
    }
  }

  lemma NoPass(w: World, taskId: string, attemptId: string, env: SettleEnv)
    requires !Settleable(w, taskId) || attemptId in w.attempts
    ensures PassDone(w, taskId, attemptId, env) == w
  {
    hide PassScene;
  }

  lemma SameThenAdds(t: Task, u: Task, r: Task, windows: seq<Charge>, ended: bool)
    requires SameTotal(t, u) && Adds(u, r, windows, ended)
    ensures Adds(t, r, windows, ended)
  {
    hide Sum, Round, PaidOut;
  }

  lemma SameThenPays(t: Task, u: Task, r: Task, ended: bool)
    requires SameTotal(t, u) && Pays(u, r, ended)
    ensures Pays(t, r, ended)
  {
    hide Adds;
    if !SameTotal(u, r) {
      var n :| 0 <= n <= |r.paid| && Adds(u, r, r.paid[n..], ended) && |r.paid[n..]| == u.mergeCount;
      SameThenAdds(t, u, r, r.paid[n..], ended);
    }
  }

  /** Every step pays for one group of a task's windows or for none; the total is not the sum only where a trade ends. */
  lemma NextPays(w: World, step: Step, taskId: string)
    requires taskId in w.tasks
    ensures taskId in Next(w, step).tasks && Pays(w.tasks[taskId], Next(w, step).tasks[taskId], EndsTrade(w, step, taskId))
  {
    hide Next, Polled, EndsTrade;
    if step.Poll? {
      PollStep(w, step);
      PollPays(w, step, taskId);
    } else {
      OnlyPollsPay(w, step);
    }
  }

  // ---- Over runs ----

  /** What was paid for between two states of a task, and what that adds to its total. */
  predicate Summed(t: Task, r: Task) {
    && r.mergeCount == t.mergeCount && t.paid <= r.paid && Whole(r.paid[|t.paid|..], t.mergeCount)
    && r.totalPaid == t.totalPaid + Rounds(r.paid[|t.paid|..], t.mergeCount)
  }

  lemma SummedItself(t: Task)
    ensures Summed(t, t)
  {
    assert t.paid[|t.paid|..] == [];
  }

  lemma SummedThenPays(t: Task, u: Task, r: Task)
    requires Summed(t, u) && Pays(u, r, false)
    ensures Summed(t, r)
  {
    hide Round, Sum, PaidOut, Rounds, Whole;
    if !SameTotal(u, r) {
      var n :| 0 <= n <= |r.paid| && Adds(u, r, r.paid[n..], false) && |r.paid[n..]| == u.mergeCount;
      if r.paid != u.paid {
        var group, before := r.paid[n..], u.paid[|t.paid|..];
        assert r.paid == u.paid + group;
        assert r.paid[|t.paid|..] == before + group;
        OneMoreGroup(before, group, t.mergeCount);
      }
    }
  }

  /**
   * From any state on, until a trade of the task ends: its total grows by exactly the rounded sums of the groups of windows
   * settled since.
   */
  lemma {:induction false} RunSums(w: World, steps: seq<Step>, taskId: string)
    requires taskId in w.tasks
    requires forall k :: 0 <= k < |steps| ==> !EndsTrade(Run(w, steps[..k]), steps[k], taskId)
    ensures taskId in Run(w, steps).tasks && Summed(w.tasks[taskId], Run(w, steps).tasks[taskId])
  {
    hide Next, EndsTrade, Summed, Pays;
    if steps == [] {
      SummedItself(w.tasks[taskId]);
    } else {
      var n := |steps| - 1;
      var before := Run(w, steps[..n]);
      forall k | 0 <= k < n ensures !EndsTrade(Run(w, steps[..n][..k]), steps[..n][k], taskId) {
        assert steps[..n][..k] == steps[..k];
      }
      RunSums(w, steps[..n], taskId);
      NextPays(before, steps[n], taskId);
      SummedThenPays(w.tasks[taskId], before.tasks[taskId], Run(w, steps).tasks[taskId]);
    }
  }

  /** So, from a fresh start, the total is the sum over all settled groups, each rounded to millionths. */
  lemma FreshTotal(w: World, steps: seq<Step>, taskId: string)
    requires Initial(w) && taskId in w.tasks
    requires forall k :: 0 <= k < |steps| ==> !EndsTrade(Run(w, steps[..k]), steps[k], taskId)
    ensures taskId in Run(w, steps).tasks
    ensures var t := Run(w, steps).tasks[taskId];
            Whole(t.paid, t.mergeCount) && t.totalPaid == Rounds(t.paid, t.mergeCount)
  {
    hide Run, EndsTrade;
    RunSums(w, steps, taskId);
    var t := Run(w, steps).tasks[taskId];
    assert NewTask(w.tasks[taskId]);
    assert t.paid[0..] == t.paid;
  }

  /** Rounding moves the sum by at most half a millionth a group. */
  lemma {:induction false} RoundsAreClose(paid: seq<Charge>, n: Positive)
    requires Whole(paid, n)
    ensures -0.5 * Groups(paid, n) as real <= (Rounds(paid, n) - Sum(paid)) * MICRO <= 0.5 * Groups(paid, n) as real
  {
    hide Round, Sum;
    if |paid| >= n {
      var earlier, group := paid[..|paid| - n], paid[|paid| - n..];
      RoundsAreClose(earlier, n);
      RoundError(Sum(group));
      assert paid == earlier + group;
      Windows.SumConcat(earlier, group);
    } else {
      NothingOwed();
    }
  }

  lemma NothingOwed()
    ensures Sum([]) == 0.0
  {
  }
}
