/** Every metered window is accounted for: what the settle loop does to a task's queue over whole runs. */
module Windows {
  import opened Wrappers
  import opened Market
  import opened Billing
  import opened Orders
  import opened Settlement
  import opened Agent
  import opened Safety
  import opened Progress

  /** The part of a task that deals in windows. */
  datatype Queue = Queue(
    pending: seq<Charge>,
    settled: set<nat>,
    lastWindow: nat,
    spent: real,
    admitted: seq<Charge>,
    paid: seq<Charge>,
    stranded: seq<Charge>)

  function QueueOf(t: Task): Queue {
    Queue(t.pending, t.settled, t.lastWindow, t.spent, t.admitted, t.paid, t.stranded)
  }

  ghost predicate Increasing(s: seq<Charge>) {
    forall i, j :: 0 <= i < j < |s| ==> s[i].windowIndex < s[j].windowIndex
  }

  ghost predicate AllBelow(a: seq<Charge>, b: seq<Charge>) {
    forall i, j :: 0 <= i < |a| && 0 <= j < |b| ==> a[i].windowIndex < b[j].windowIndex
  }

  ghost predicate UpTo(s: seq<Charge>, bound: nat) {
    forall i :: 0 <= i < |s| ==> s[i].windowIndex <= bound
  }

  /** The queue is in order and ahead of everything that left it. */
  ghost predicate InOrder(q: Queue) {
    && Increasing(q.pending) && AllBelow(q.paid, q.pending) && AllBelow(q.stranded, q.pending)
    && UpTo(q.pending, q.lastWindow) && UpTo(q.paid, q.lastWindow) && UpTo(q.stranded, q.lastWindow)
    && Increasing(q.admitted) && UpTo(q.admitted, q.lastWindow)
  }

  /** Each admitted window is pending, settled or stranded, and nothing else is; the money spent is theirs. */
  ghost predicate Accounted(q: Queue) {
    && multiset(q.admitted) == multiset(q.pending) + multiset(q.paid) + multiset(q.stranded)
    && q.settled == IndexSet(q.paid)
    && q.spent == Sum(q.pending) + Sum(q.paid) + Sum(q.stranded)
  }

  ghost predicate Conserved(q: Queue) {
    InOrder(q) && Accounted(q)
  }

  // ---- What happens to a queue ----

  function AdmittedTo(q: Queue, charge: Charge): Queue {
    q.(lastWindow := charge.windowIndex,
       pending := q.pending + [charge],
       admitted := q.admitted + [charge],
       spent := q.spent + charge.owed)
  }

  function DrainedFrom(q: Queue, n: nat): Queue
    requires n <= |q.pending|
  {
    q.(pending := q.pending[n..])
  }

  function StrandedWith(q: Queue, windows: seq<Charge>): Queue {
    q.(stranded := q.stranded + windows)
  }

  function ReturnedTo(q: Queue, windows: seq<Charge>): Queue {
    q.(pending := windows + q.pending)
  }

  function PaidFor(q: Queue, windows: seq<Charge>): Queue {
    q.(settled := q.settled + IndexSet(windows), paid := q.paid + windows)
  }

  lemma {:induction false} SumConcat(a: seq<Charge>, b: seq<Charge>)
    ensures Sum(a + b) == Sum(a) + Sum(b)
  {
    if b == [] {
      assert a + b == a;
    } else {
      assert (a + b)[..|a + b| - 1] == a + b[..|b| - 1];
      SumConcat(a, b[..|b| - 1]);
    }
  }

  lemma AdmitInOrder(q: Queue, charge: Charge)
    requires InOrder(q) && charge.windowIndex > q.lastWindow
    ensures InOrder(AdmittedTo(q, charge))
  {
  }

  lemma AdmitAccounts(q: Queue, charge: Charge)
    requires Accounted(q)
    ensures Accounted(AdmittedTo(q, charge))
  {
    hide IndexSet, Sum;
    SumConcat(q.pending, [charge]);
    SumOne(charge);
    assert multiset(q.pending + [charge]) == multiset(q.pending) + multiset{charge};
    assert multiset(q.admitted + [charge]) == multiset(q.admitted) + multiset{charge};
  }

  lemma AdmitConserves(q: Queue, charge: Charge)
    requires Conserved(q) && charge.windowIndex > q.lastWindow
    ensures Conserved(AdmittedTo(q, charge))
  {
    hide InOrder, Accounted, AdmittedTo;
    AdmitInOrder(q, charge);
    AdmitAccounts(q, charge);
  }

  lemma SumOne(charge: Charge)
    ensures Sum([charge]) == charge.owed
  {
    assert [charge][..0] == [];
  }

  lemma LaterConserves(q: Queue, index: nat)
    requires Conserved(q) && index >= q.lastWindow
    ensures Conserved(q.(lastWindow := index))
  {
    hide IndexSet, Sum;
  }

  lemma IndexSetConcat(a: seq<Charge>, b: seq<Charge>)
    ensures IndexSet(a + b) == IndexSet(a) + IndexSet(b)
  {
    var s := a + b;
    forall x | x in IndexSet(a) ensures x in IndexSet(s) {
      var i :| 0 <= i < |a| && a[i].windowIndex == x;
      assert s[i].windowIndex == x;
    }
    forall x | x in IndexSet(b) ensures x in IndexSet(s) {
      var i :| 0 <= i < |b| && b[i].windowIndex == x;
      assert s[|a| + i].windowIndex == x;
    }
  }

  /** What holds of a queue from which `windows` have just been taken. */
  lemma DrainedInOrder(q: Queue, n: nat)
    requires InOrder(q) && n <= |q.pending|
    ensures var windows, rest := q.pending[..n], DrainedFrom(q, n);
            InOrder(StrandedWith(rest, windows)) && InOrder(PaidFor(rest, windows))
  {
  }

  lemma TakenApart(pending: seq<Charge>, n: nat, other: seq<Charge>)
    requires n <= |pending|
    ensures var windows, rest := pending[..n], pending[n..];
            && multiset(pending) == multiset(windows) + multiset(rest) && Sum(pending) == Sum(windows) + Sum(rest)
            && multiset(other + windows) == multiset(other) + multiset(windows)
            && Sum(other + windows) == Sum(other) + Sum(windows)
  {
    hide Sum;
    assert pending[..n] + pending[n..] == pending;
    SumConcat(pending[..n], pending[n..]);
    SumConcat(other, pending[..n]);
  }

  lemma StrandAccounts(q: Queue, n: nat)
    requires Accounted(q) && n <= |q.pending|
    ensures Accounted(StrandedWith(DrainedFrom(q, n), q.pending[..n]))
  {
    hide Sum, IndexSet;
    TakenApart(q.pending, n, q.stranded);
  }

  lemma PayAccounts(q: Queue, n: nat)
    requires Accounted(q) && n <= |q.pending|
    ensures Accounted(PaidFor(DrainedFrom(q, n), q.pending[..n]))
  {
    hide Sum, IndexSet;
    TakenApart(q.pending, n, q.paid);
    IndexSetConcat(q.paid, q.pending[..n]);
  }

  lemma StrandConserves(q: Queue, n: nat)
    requires Conserved(q) && n <= |q.pending|
    ensures Conserved(StrandedWith(DrainedFrom(q, n), q.pending[..n]))
  {
    hide InOrder, Accounted;
    DrainedInOrder(q, n);
    StrandAccounts(q, n);
  }

  lemma PayConserves(q: Queue, n: nat)
    requires Conserved(q) && n <= |q.pending|
    ensures Conserved(PaidFor(DrainedFrom(q, n), q.pending[..n]))
  {
    hide InOrder, Accounted;
    DrainedInOrder(q, n);
    PayAccounts(q, n);
  }

  /** No window is counted twice: each admitted one is in exactly one place, once. */
  lemma EachWindowInOnePlace(q: Queue, c: Charge)
    requires Conserved(q)
    ensures multiset(q.pending)[c] + multiset(q.paid)[c] + multiset(q.stranded)[c] == if c in q.admitted then 1 else 0
  {
    hide Accounted;
    OnceIfIncreasing(q.admitted, c);
    assert multiset(q.admitted) == multiset(q.pending) + multiset(q.paid) + multiset(q.stranded) by {
      AccountedParts(q);
    }
  }

  lemma AccountedParts(q: Queue)
    requires Accounted(q)
    ensures multiset(q.admitted) == multiset(q.pending) + multiset(q.paid) + multiset(q.stranded)
  {
  }

  lemma {:induction false} OnceIfIncreasing(s: seq<Charge>, c: Charge)
    requires Increasing(s)
    ensures multiset(s)[c] == if c in s then 1 else 0
  {
    if s != [] {
      var n := |s| - 1;
      assert s == s[..n] + [s[n]];
      OnceIfIncreasing(s[..n], c);
    }
  }

  // ---- What a pass does to the queue ----

  lemma CommitKeepsQueue(s: Scene, invoiceId: string, paymentId: string, env: SettleEnv)
    ensures var r := CommitScene(s, invoiceId, paymentId, env);
            QueueOf(r.task) == QueueOf(s.task) && r.attempt.fate == s.attempt.fate
  {
    hide Call, CanTransitionAttempt, Delivered, FinalizedTrade, PaidOut;
  }

  /** The windows taken out come back to the front, or are settled. */
  predicate Ends(q: Queue, r: Queue, windows: seq<Charge>, fate: Fate) {
    || (fate == WentBack && r == ReturnedTo(q, windows))
    || (fate == WereSettled && r == PaidFor(q, windows))
  }

  /** The pass's invoice is confirmed. */
  predicate InvoiceConfirmed(env: SettleEnv) {
    !env.invoiceBlocked && env.invoice.Confirmed?
  }

  /** Its payment is. */
  predicate PaymentConfirmed(env: SettleEnv) {
    !env.paymentBlocked && env.payment.Confirmed?
  }

  /** Its result is recorded, as far as the agent can tell. */
  predicate ResultRecorded(env: SettleEnv) {
    !env.recordBlocked && env.recorded.Answered?
  }

  lemma RecordEnds(s: Scene, windows: seq<Charge>, invoiceId: string, paymentId: string, attemptId: string, env: SettleEnv)
    ensures var r := RecordScene(s, windows, invoiceId, paymentId, attemptId, env);
            && Ends(QueueOf(s.task), QueueOf(r.task), windows, r.attempt.fate)
            && (r.attempt.fate == WereSettled <==> ResultRecorded(env))
  {
    CommitKeepsQueue(AfterRecord(Asked(s, ResultCall(attemptId, env.recorded)), windows, attemptId), invoiceId, paymentId, env);
    hide Call, CommitScene, Fail, Advance, Advanced, IndexSet, Sum, Round;
  }

  lemma PaymentEnds(s: Scene, windows: seq<Charge>, invoiceId: string, attemptId: string, env: SettleEnv)
    ensures var r := PaymentScene(s, windows, invoiceId, attemptId, env);
            && Ends(QueueOf(s.task), QueueOf(r.task), windows, r.attempt.fate)
            && (r.attempt.fate == WereSettled <==> PaymentConfirmed(env) && ResultRecorded(env))
  {
    hide Call, RecordScene, Fail, Advance, Advanced, IndexSet, RecordResultRequest, Paying;
    if env.payment.Confirmed? {
      var paymentId := env.payment.id;
      var asked := Asked(s, PaymentCall(attemptId, env.payment));
      RecordEnds(AfterPayment(asked, windows, invoiceId, paymentId, attemptId), windows, invoiceId, paymentId, attemptId, env);
    }
  }

  lemma InvoiceEnds(s: Scene, windows: seq<Charge>, attemptId: string, env: SettleEnv)
    ensures var r := InvoiceScene(s, windows, attemptId, env);
            && Ends(QueueOf(s.task), QueueOf(r.task), windows, r.attempt.fate)
            && (r.attempt.fate == WereSettled <==> InvoiceConfirmed(env) && PaymentConfirmed(env) && ResultRecorded(env))
  {
    hide Call, PaymentScene, Fail, Advance, Advanced, IndexSet, SettlePaymentRequest, Billing.Invoice;
    if env.invoice.Confirmed? {
      var asked := Asked(s, InvoiceCall(attemptId, env.invoice));
      PaymentEnds(AfterInvoice(asked, windows, env.invoice.id, attemptId), windows, env.invoice.id, attemptId, env);
    }
  }

  /** What a pass did with its windows, as its attempt's history tells, and when it did which. */
  lemma PassEnds(taskId: string, task: Task, attemptId: string, binding: Binding, orders: map<string, OrderStatus>, env: SettleEnv)
    requires |task.pending| >= task.mergeCount
    ensures var q := QueueOf(task);
            var windows, rest := Drained(task), DrainedFrom(q, task.mergeCount);
            var r := SettleScene(Opening(taskId, task, attemptId, binding, orders), windows, taskId, attemptId, env);
            && (match r.attempt.fate
                case InHand => false
                case WereStranded => QueueOf(r.task) == StrandedWith(rest, windows)
                case WentBack => QueueOf(r.task) == q
                case WereSettled => QueueOf(r.task) == PaidFor(rest, windows))
            && (r.attempt.fate == WereStranded <==>
                  !Call(orders, Orders.MarkSettling, binding.sellOrderId, env.settling).1)
            && (r.attempt.fate == WereSettled <==>
                  && Call(orders, Orders.MarkSettling, binding.sellOrderId, env.settling).1
                  && InvoiceConfirmed(env) && PaymentConfirmed(env) && ResultRecorded(env))
  {
    hide Call, InvoiceScene, Upserted, Fail, IndexSet, NewAttempt;
    var s := Opening(taskId, task, attemptId, binding, orders);
    var windows := Drained(task);
    assert windows + task.pending[task.mergeCount..] == task.pending;
    var after := Call(s.orders, Orders.MarkSettling, s.binding.sellOrderId, env.settling).0;
    var marked := AfterMark(s.(orders := after), windows, taskId);
    InvoiceEnds(marked, windows, attemptId, env);
    assert QueueOf(marked.task) == DrainedFrom(QueueOf(task), task.mergeCount);
  }

  lemma PassConserves(taskId: string, task: Task, attemptId: string, binding: Binding, orders: map<string, OrderStatus>, env: SettleEnv)
    requires |task.pending| >= task.mergeCount && Conserved(QueueOf(task))
    ensures Conserved(QueueOf(
              SettleScene(Opening(taskId, task, attemptId, binding, orders), Drained(task), taskId, attemptId, env).task))
  {
    hide Conserved, SettleScene, Opening;
    PassEnds(taskId, task, attemptId, binding, orders, env);
    StrandConserves(QueueOf(task), task.mergeCount);
    PayConserves(QueueOf(task), task.mergeCount);
  }

  // ---- Every step ----

  ghost predicate AllConserved(w: World) {
    forall t :: t in w.tasks ==> Conserved(QueueOf(w.tasks[t]))
  }

  /** No window moves. */
  ghost predicate SameQueues(w: World, v: World) {
    v.tasks.Keys == w.tasks.Keys && forall t :: t in w.tasks ==> QueueOf(v.tasks[t]) == QueueOf(w.tasks[t])
  }

  lemma AdmittedConserves(t: Task, report: PollReport)
    requires Conserved(QueueOf(t))
    ensures Conserved(QueueOf(Admitted(t, report)))
  {
    hide Conserved;
    if report.running && report.windowIndex.Some? && report.windowIndex.value > t.lastWindow {
      var index := report.windowIndex.value;
      var charge := Charge(index, if report.owed.Some? then report.owed.value else 0.0);
      AdmitConserves(QueueOf(t), charge);
      LaterConserves(QueueOf(t), index);
      assert QueueOf(Admitted(t, report)) ==
             if Admits(t, report) then AdmittedTo(QueueOf(t), charge) else QueueOf(t).(lastWindow := index);
    }
  }

  lemma PassDoneConserves(w: World, taskId: string, attemptId: string, env: SettleEnv)
    requires AllConserved(w)
    ensures AllConserved(PassDone(w, taskId, attemptId, env))
  {
    hide Conserved, SettleScene, Opening, QueueOf;
    if Settleable(w, taskId) && attemptId !in w.attempts {
      var task := w.tasks[taskId];
      PassConserves(taskId, task, attemptId, w.bindings[task.bound.value], w.orders, env);
    }
  }

  lemma PolledConserves(w: World, taskId: string, report: PollReport, attemptId: string, env: SettleEnv)
    requires AllConserved(w)
    ensures AllConserved(Polled(w, taskId, report, attemptId, env))
  {
    hide Conserved, PassDone, QueueOf, Admitted, Admits;
    if taskId in w.tasks {
      AdmittedConserves(w.tasks[taskId], report);
      PassDoneConserves(w.(tasks := w.tasks[taskId := Admitted(w.tasks[taskId], report)]), taskId, attemptId, env);
    }
  }

  lemma RecoveredKeepsQueues(w: World, attemptId: string, now: nat, env: StageEnv)
    ensures SameQueues(w, Recovered(w, attemptId, now, env))
  {
    hide RunStage;
    if Resumes(w, attemptId, now) {
      var run := Resumed(w, attemptId, env);
      assert Contained(w.attempts[attemptId], TaskOf(w, w.attempts[attemptId]), w.orders, run);
    }
  }

  lemma RebindsKeepQueues(w: World, v: World)
    requires OnlyRebinds(w.tasks, v.tasks)
    ensures SameQueues(w, v)
  {
  }

  lemma BillsKeepQueues(w: World, attemptId: string, tradeId: Option<string>)
    ensures SameQueues(w, w.(tasks := RolledBackTasks(w.tasks, attemptId)))
    ensures SameQueues(w, w.(tasks := PenalizedTasks(w.tasks, tradeId)))
    ensures SameQueues(w, w.(tasks := RefundedTasks(w.tasks, tradeId)))
  {
    hide AllMoved, PenaltyApplied, RefundReleased;
  }

  lemma SameTasksKeepQueues(w: World, v: World)
    requires v.tasks == w.tasks
    ensures SameQueues(w, v)
  {
  }

  lemma RollbackKeepsQueues(w: World, d: Dispute)
    ensures SameQueues(w, ActionTaken(w, d, RollbackAction))
  {
    hide SameQueues, WithAttempt, RolledBackTasks;
    var v := ActionTaken(w, d, RollbackAction);
    if d.attemptId.Some? {
      BillsKeepQueues(w, d.attemptId.value, d.tradeId);
      SameByTasks(w, w.(tasks := RolledBackTasks(w.tasks, d.attemptId.value)), v);
    } else {
      SameTasksKeepQueues(w, v);
    }
  }

  lemma ActionTakenKeepsQueues(w: World, d: Dispute, action: DisputeAction)
    ensures SameQueues(w, ActionTaken(w, d, action))
  {
    hide SameQueues, WithAttempt, RolledBackTasks, PenalizedTasks, RefundedTasks;
    if action.RollbackAction? {
      RollbackKeepsQueues(w, d);
    } else if action.ApplyPenalty? || action.ReleaseRefund? {
      BillsKeepQueues(w, "", d.tradeId);
    } else {
      SameTasksKeepQueues(w, ActionTaken(w, d, action));
    }
  }

  lemma SameByTasks(w: World, u: World, v: World)
    requires SameQueues(w, u) && v.tasks == u.tasks
    ensures SameQueues(w, v)
  {
  }

  lemma SameQueuesConserve(w: World, v: World)
    requires AllConserved(w) && SameQueues(w, v)
    ensures AllConserved(v)
  {
    hide Conserved, QueueOf;
  }

  lemma SetRunningKeepsQueues(w: World, taskId: string, running: bool)
    requires taskId in w.tasks
    ensures SameQueues(w, w.(tasks := w.tasks[taskId := w.tasks[taskId].(running := running)]))
  {
  }

  lemma NextConserves(w: World, step: Step)
    requires AllConserved(w)
    ensures AllConserved(Next(w, step))
  {
    hide AllConserved, SameQueues, Polled;
    if step.Poll? {
      PollStep(w, step);
      PolledConserves(w, step.taskId, step.report, step.attemptId, step.env);
      hide Next;
    } else {
      hide Next;
      NextSameQueues(w, step);
      SameQueuesConserve(w, Next(w, step));
    }
  }

  lemma InitialConserved(w: World)
    requires Initial(w)
    ensures AllConserved(w)
  {
    assert Sum([]) == 0.0 && IndexSet([]) == {};
  }

  /**
   * Over every run: each task's admitted windows are the disjoint union of the pending, the settled and the stranded
   * ones; the pending ones are in order and later than all the others; and what is spent is what all of them owe.
   */
  lemma {:induction false} RunConserves(w: World, steps: seq<Step>)
    requires Initial(w)
    ensures AllConserved(Run(w, steps))
  {
    hide AllConserved, Next, Initial;
    if steps == [] {
      InitialConserved(w);
    } else {
      RunConserves(w, steps[..|steps| - 1]);
      NextConserves(Run(w, steps[..|steps| - 1]), steps[|steps| - 1]);
    }
  }

  /** In every reachable state a report brings a new window exactly if the index is past the last one seen. */
  lemma LaterIsNew(w: World, steps: seq<Step>, taskId: string, report: PollReport)
    requires Initial(w) && taskId in Run(w, steps).tasks
    ensures var t := Run(w, steps).tasks[taskId];
            Admits(t, report) <==> report.running && report.windowIndex.Some? && report.windowIndex.value > t.lastWindow
  {
    hide Run, Initial, Accounted, Sum;
    RunConserves(w, steps);
    var t := Run(w, steps).tasks[taskId];
    var q := QueueOf(t);
    assert Conserved(q);
    SettledAreSeen(q);
  }

  lemma SettledAreSeen(q: Queue)
    requires Conserved(q)
    ensures forall index :: index in q.settled ==> index <= q.lastWindow
  {
    hide Increasing, AllBelow, Sum;
  }

  // ---- Which attempts a window went through ----

  /** The attempt was made for the window, among others. */
  predicate Lists(w: World, id: string, taskId: string, index: nat) {
    id in w.attempts && w.attempts[id].taskId == taskId && index in w.attempts[id].windowIndexes
  }

  predicate Ended(w: World, id: string, taskId: string, index: nat, fate: Fate) {
    Lists(w, id, taskId, index) && w.attempts[id].fate == fate
  }

  ghost predicate SomeEnded(w: World, taskId: string, index: nat, fate: Fate) {
    exists id :: Ended(w, id, taskId, index, fate)
  }

  ghost predicate AllEnded(w: World, taskId: string, windows: seq<Charge>, fate: Fate) {
    forall i :: 0 <= i < |windows| ==> SomeEnded(w, taskId, windows[i].windowIndex, fate)
  }

  /** What the attempt's history tells of its windows is true of the task's. */
  predicate Tells(t: Task, a: Attempt) {
    && a.fate != InHand
    && forall index :: index in a.windowIndexes ==>
         && index in IndexSet(t.admitted)
         && (a.fate == WereSettled ==> index in IndexSet(t.paid))
         && (a.fate == WereStranded ==> index in IndexSet(t.stranded))
  }

  /** Each settled or stranded window was settled or stranded by an attempt, and every attempt tells what it did. */
  ghost predicate Carried(w: World) {
    && (forall t :: t in w.tasks ==>
          AllEnded(w, t, w.tasks[t].paid, WereSettled) && AllEnded(w, t, w.tasks[t].stranded, WereStranded))
    && (forall id :: id in w.attempts && w.attempts[id].taskId in w.tasks ==>
          Tells(w.tasks[w.attempts[id].taskId], w.attempts[id]))
  }

  lemma StillEnded(w: World, v: World, taskId: string, windows: seq<Charge>, fate: Fate)
    requires AllEnded(w, taskId, windows, fate) && KeepsIdentities(w, v)
    ensures AllEnded(v, taskId, windows, fate)
  {
    forall i | 0 <= i < |windows| ensures SomeEnded(v, taskId, windows[i].windowIndex, fate) {
      assert SomeEnded(w, taskId, windows[i].windowIndex, fate);
      var id :| Ended(w, id, taskId, windows[i].windowIndex, fate);
      assert Ended(v, id, taskId, windows[i].windowIndex, fate);
    }
  }

  lemma NewlyEnded(v: World, taskId: string, windows: seq<Charge>, attemptId: string)
    requires attemptId in v.attempts && v.attempts[attemptId].taskId == taskId
    requires v.attempts[attemptId].windowIndexes == Indexes(windows)
    ensures AllEnded(v, taskId, windows, v.attempts[attemptId].fate)
  {
    forall i | 0 <= i < |windows| ensures SomeEnded(v, taskId, windows[i].windowIndex, v.attempts[attemptId].fate) {
      assert Indexes(windows)[i] == windows[i].windowIndex;
      assert Ended(v, attemptId, taskId, windows[i].windowIndex, v.attempts[attemptId].fate);
    }
  }

  lemma BothEnded(v: World, taskId: string, a: seq<Charge>, b: seq<Charge>, fate: Fate)
    requires AllEnded(v, taskId, a, fate) && AllEnded(v, taskId, b, fate)
    ensures AllEnded(v, taskId, a + b, fate)
  {
    hide SomeEnded;
  }

  /** The queues only gain. */
  predicate Gains(t: Task, u: Task) {
    && IndexSet(t.admitted) <= IndexSet(u.admitted)
    && IndexSet(t.paid) <= IndexSet(u.paid) && IndexSet(t.stranded) <= IndexSet(u.stranded)
  }

  lemma StillTells(t: Task, u: Task, a: Attempt, b: Attempt)
    requires Tells(t, a) && Gains(t, u) && SameIdentity(a, b) && b.fate == a.fate
    ensures Tells(u, b)
  {
    hide IndexSet;
  }

  lemma StillCarried(w: World, v: World)
    requires Carried(w) && KeepsIdentities(w, v) && v.attempts.Keys == w.attempts.Keys && v.tasks.Keys == w.tasks.Keys
    requires forall t :: t in w.tasks ==>
               v.tasks[t].paid == w.tasks[t].paid && v.tasks[t].stranded == w.tasks[t].stranded && Gains(w.tasks[t], v.tasks[t])
    ensures Carried(v)
  {
    hide AllEnded, Tells, Gains, IndexSet, SameIdentity;
    forall t | t in v.tasks
      ensures AllEnded(v, t, v.tasks[t].paid, WereSettled) && AllEnded(v, t, v.tasks[t].stranded, WereStranded)
    {
      StillEnded(w, v, t, w.tasks[t].paid, WereSettled);
      StillEnded(w, v, t, w.tasks[t].stranded, WereStranded);
    }
    forall id | id in v.attempts && v.attempts[id].taskId in v.tasks
      ensures Tells(v.tasks[v.attempts[id].taskId], v.attempts[id])
    {
      SameTaskId(w.attempts[id], v.attempts[id]);
      var t := w.attempts[id].taskId;
      StillTells(w.tasks[t], v.tasks[t], w.attempts[id], v.attempts[id]);
    }
  }

  lemma SameTaskId(a: Attempt, b: Attempt)
    requires SameIdentity(a, b)
    ensures b.taskId == a.taskId
  {
  }

  lemma PassIdentities(w: World, taskId: string, attemptId: string, env: SettleEnv)
    ensures KeepsIdentities(w, PassDone(w, taskId, attemptId, env))
  {
    hide SettleScene, Opening;
  }

  lemma PassMakes(taskId: string, task: Task, attemptId: string, binding: Binding, orders: map<string, OrderStatus>, env: SettleEnv)
    requires |task.pending| >= task.mergeCount
    ensures var r := SettleScene(Opening(taskId, task, attemptId, binding, orders), Drained(task), taskId, attemptId, env);
            r.attempt.taskId == taskId && r.attempt.windowIndexes == Indexes(Drained(task))
  {
    hide SettleScene, Upserted, Indexes;
  }

  lemma IndexListed(windows: seq<Charge>, index: nat)
    ensures index in IndexSet(windows) <==> index in Indexes(windows)
  {
    if index in IndexSet(windows) {
      var i :| 0 <= i < |windows| && windows[i].windowIndex == index;
      assert Indexes(windows)[i] == index;
    }
    if index in Indexes(windows) {
      var i :| 0 <= i < |Indexes(windows)| && Indexes(windows)[i] == index;
      assert windows[i].windowIndex == index;
    }
  }

  lemma PendingWasAdmitted(q: Queue, n: nat)
    requires Accounted(q) && n <= |q.pending|
    ensures IndexSet(q.pending[..n]) <= IndexSet(q.admitted)
  {
    forall index | index in IndexSet(q.pending[..n]) ensures index in IndexSet(q.admitted) {
      var i :| 0 <= i < n && q.pending[i].windowIndex == index;
      assert q.pending[i] in multiset(q.pending);
      assert q.pending[i] in multiset(q.admitted);
    }
  }

  /** What the new attempt of a pass tells is true. */
  lemma PassTells(taskId: string, task: Task, attemptId: string, binding: Binding, orders: map<string, OrderStatus>, env: SettleEnv)
    requires |task.pending| >= task.mergeCount && Conserved(QueueOf(task))
    ensures var r := SettleScene(Opening(taskId, task, attemptId, binding, orders), Drained(task), taskId, attemptId, env);
            Tells(r.task, r.attempt) && Gains(task, r.task)
  {
    hide SettleScene, Opening, Call, InOrder;
    PassEnds(taskId, task, attemptId, binding, orders, env);
    PassMakes(taskId, task, attemptId, binding, orders, env);
    var windows := Drained(task);
    PendingWasAdmitted(QueueOf(task), task.mergeCount);
    IndexSetConcat(task.paid, windows);
    IndexSetConcat(task.stranded, windows);
    hide IndexSet, Indexes, Accounted, Conserved;
    var r := SettleScene(Opening(taskId, task, attemptId, binding, orders), windows, taskId, attemptId, env);
    assert QueueOf(r.task).admitted == task.admitted;
    forall index | index in r.attempt.windowIndexes ensures index in IndexSet(windows) {
      IndexListed(windows, index);
    }
  }

  /** The attempts that were there keep what they are; the one the pass made is new. */
  lemma PassDoneTells(w: World, taskId: string, attemptId: string, env: SettleEnv)
    requires Carried(w) && AllConserved(w) && Settleable(w, taskId) && attemptId !in w.attempts
    ensures var v := PassDone(w, taskId, attemptId, env);
            forall id :: id in v.attempts && v.attempts[id].taskId in v.tasks ==>
              Tells(v.tasks[v.attempts[id].taskId], v.attempts[id])
  {
    hide SettleScene, Opening, Conserved, Tells, Gains, IndexSet, AllEnded, SameIdentity;
    var task := w.tasks[taskId];
    var binding := w.bindings[task.bound.value];
    PassTells(taskId, task, attemptId, binding, w.orders, env);
    PassMakes(taskId, task, attemptId, binding, w.orders, env);
    var v := PassDone(w, taskId, attemptId, env);
    forall id | id in v.attempts && v.attempts[id].taskId in v.tasks
      ensures Tells(v.tasks[v.attempts[id].taskId], v.attempts[id])
    {
      if id != attemptId && v.attempts[id].taskId == taskId {
        SameItself(w.attempts[id]);
        StillTells(task, v.tasks[taskId], w.attempts[id], v.attempts[id]);
      }
    }
  }

  lemma SameItself(a: Attempt)
    ensures SameIdentity(a, a)
  {
  }

  lemma PassDoneEnds(w: World, taskId: string, attemptId: string, env: SettleEnv)
    requires Carried(w) && Settleable(w, taskId) && attemptId !in w.attempts
    ensures var v := PassDone(w, taskId, attemptId, env);
            forall t :: t in v.tasks ==>
              AllEnded(v, t, v.tasks[t].paid, WereSettled) && AllEnded(v, t, v.tasks[t].stranded, WereStranded)
  {
    hide SettleScene, Opening, Tells, AllEnded, KeepsIdentities, Indexes, IndexSet, Call;
    var task := w.tasks[taskId];
    var binding := w.bindings[task.bound.value];
    var windows := Drained(task);
    var v := PassDone(w, taskId, attemptId, env);
    PassIdentities(w, taskId, attemptId, env);
    PassMakes(taskId, task, attemptId, binding, w.orders, env);
    PassEnds(taskId, task, attemptId, binding, w.orders, env);
    NewlyEnded(v, taskId, windows, attemptId);
    forall t | t in w.tasks
      ensures AllEnded(v, t, w.tasks[t].paid, WereSettled) && AllEnded(v, t, w.tasks[t].stranded, WereStranded)
    {
      StillEnded(w, v, t, w.tasks[t].paid, WereSettled);
      StillEnded(w, v, t, w.tasks[t].stranded, WereStranded);
    }
    assert QueueOf(v.tasks[taskId]).paid == v.tasks[taskId].paid && QueueOf(v.tasks[taskId]).stranded == v.tasks[taskId].stranded;
    if v.attempts[attemptId].fate == WereSettled {
      BothEnded(v, taskId, task.paid, windows, WereSettled);
    } else if v.attempts[attemptId].fate == WereStranded {
      BothEnded(v, taskId, task.stranded, windows, WereStranded);
    }
  }

  lemma PassDoneCarries(w: World, taskId: string, attemptId: string, env: SettleEnv)
    requires Carried(w) && AllConserved(w)
    ensures Carried(PassDone(w, taskId, attemptId, env))
  {
    hide AllEnded, Tells, Conserved, SettleScene, Opening;
    if Settleable(w, taskId) && attemptId !in w.attempts {
      PassDoneTells(w, taskId, attemptId, env);
      PassDoneEnds(w, taskId, attemptId, env);
    }
  }

  lemma PolledCarries(w: World, taskId: string, report: PollReport, attemptId: string, env: SettleEnv)
    requires Carried(w) && AllConserved(w)
    ensures Carried(Polled(w, taskId, report, attemptId, env))
  {
    hide Carried, PassDone, Admits, AllConserved;
    if taskId in w.tasks {
      var v := w.(tasks := w.tasks[taskId := Admitted(w.tasks[taskId], report)]);
      AdmittedCarries(w, taskId, report);
      AdmittedConservesAll(w, taskId, report);
      PassDoneCarries(v, taskId, attemptId, env);
    }
  }

  lemma AdmittedConservesAll(w: World, taskId: string, report: PollReport)
    requires AllConserved(w) && taskId in w.tasks
    ensures AllConserved(w.(tasks := w.tasks[taskId := Admitted(w.tasks[taskId], report)]))
  {
    hide Conserved, QueueOf, Admitted;
    AdmittedConserves(w.tasks[taskId], report);
  }

  lemma AdmittedCarries(w: World, taskId: string, report: PollReport)
    requires Carried(w) && taskId in w.tasks
    ensures Carried(w.(tasks := w.tasks[taskId := Admitted(w.tasks[taskId], report)]))
  {
    hide Carried, Admitted, Gains;
    AdmittedGains(w.tasks[taskId], report);
    var v := w.(tasks := w.tasks[taskId := Admitted(w.tasks[taskId], report)]);
    forall t | t in w.tasks ensures Gains(w.tasks[t], v.tasks[t]) {
      GainsItself(w.tasks[t]);
    }
    StillCarried(w, v);
  }

  lemma AdmittedGains(t: Task, report: PollReport)
    ensures var u := Admitted(t, report);
            u.paid == t.paid && u.stranded == t.stranded && Gains(t, u)
  {
    hide Admits;
    hide IndexSet;
    if report.windowIndex.Some? {
      var charge := Charge(report.windowIndex.value, if report.owed.Some? then report.owed.value else 0.0);
      IndexSetConcat(t.admitted, [charge]);
    }
  }

  lemma GainsItself(t: Task)
    ensures Gains(t, t)
  {
  }

  lemma NextSameQueues(w: World, step: Step)
    requires !step.Poll?
    ensures SameQueues(w, Next(w, step))
  {
    hide SameQueues, OnlyRebinds, Recovered, ActionTaken, AllowedActions, UnstuckAll, ModeSwitched, OperatorMayAct;
    hide Reaped, TaskCleaned, MatchReleased, MatchRetried, MatchRejected, AcceptHandled, ProviderHandled, OrderAdded, Polled;
    hide StuckDetected, OperatorRetried, MarkedFinal, MatchIdOf, KeepsSettled, WellKeyed;
    SameTasksKeepQueues(w, w);
    match step
    case Recover(attemptId, now, env) => RecoveredKeepsQueues(w, attemptId, now, env);
    case ActOnDispute(disputeId, action) =>
      if disputeId in w.disputes {
        ActionTakenKeepsQueues(w, w.disputes[disputeId], action);
      }
    case SetRunning(taskId, running) =>
      if taskId in w.tasks {
        SetRunningKeepsQueues(w, taskId, running);
      }
    case _ =>
      RebindingSteps(w, step);
      RebindsKeepQueues(w, Next(w, step));
  }

  lemma SameQueuesCarry(w: World, v: World)
    requires Carried(w) && SameQueues(w, v) && KeepsIdentities(w, v) && v.attempts.Keys == w.attempts.Keys
    ensures Carried(v)
  {
    hide Carried, KeepsIdentities;
    forall t | t in w.tasks
      ensures v.tasks[t].paid == w.tasks[t].paid && v.tasks[t].stranded == w.tasks[t].stranded && Gains(w.tasks[t], v.tasks[t])
    {
      assert QueueOf(v.tasks[t]) == QueueOf(w.tasks[t]);
      GainsItself(w.tasks[t]);
    }
    StillCarried(w, v);
  }

  lemma SameAttemptKeys(w: World, step: Step)
    requires !step.Poll?
    ensures Next(w, step).attempts.Keys == w.attempts.Keys
  {
    hide Recovered, StuckDetected, ModeSwitched, OperatorRetried, MarkedFinal, ActionTaken, AllowedActions, Reaped;
    hide TaskCleaned, MatchReleased, MatchRetried, MatchRejected, AcceptHandled, ProviderHandled, OrderAdded;
    hide OnlyRebinds, KeepsSettled, WellKeyed, MatchIdOf;
    if LeavesAttempts(step) {
      AttemptsLeft(w, step);
    }
  }

  /** Over every run, each settled or stranded window has the attempt that did it, and every attempt tells what it did. */
  lemma {:induction false} RunCarries(w: World, steps: seq<Step>)
    requires Initial(w)
    ensures Carried(Run(w, steps))
  {
    hide Carried, Next, Safe, SameQueues, KeepsIdentities, Polled, Later, AllConserved;
    if steps != [] {
      hide Initial;
      var before, step := Run(w, steps[..|steps| - 1]), steps[|steps| - 1];
      RunCarries(w, steps[..|steps| - 1]);
      if step.Poll? {
        PollStep(before, step);
        RunConserves(w, steps[..|steps| - 1]);
        PolledCarries(before, step.taskId, step.report, step.attemptId, step.env);
      } else {
        RunIsSafe(w, steps[..|steps| - 1]);
        NextSameQueues(before, step);
        NextLater(before, step);
        LaterKeepsIdentities(before, Next(before, step));
        SameAttemptKeys(before, step);
        SameQueuesCarry(before, Next(before, step));
      }
    } else {
      InitialCarried(w);
    }
  }

  lemma InitialCarried(w: World)
    requires Initial(w)
    ensures Carried(w)
  {
  }

  // ---- Windows paid for while pending ----

  /** Where an admitted window is: not in two places. */
  lemma OnePlace(q: Queue, index: nat)
    requires Conserved(q)
    ensures index in IndexSet(q.admitted) <==>
              index in IndexSet(q.pending) || index in IndexSet(q.paid) || index in IndexSet(q.stranded)
    ensures index in IndexSet(q.pending) ==> index !in IndexSet(q.paid) && index !in IndexSet(q.stranded)
  {
    if index in IndexSet(q.admitted) {
      var i :| 0 <= i < |q.admitted| && q.admitted[i].windowIndex == index;
      var c := q.admitted[i];
      assert c in multiset(q.admitted);
      assert c in multiset(q.pending) || c in multiset(q.paid) || c in multiset(q.stranded);
    }
    FromPart(q, q.pending, index);
    FromPart(q, q.paid, index);
    FromPart(q, q.stranded, index);
  }

  lemma FromPart(q: Queue, part: seq<Charge>, index: nat)
    requires Accounted(q) && part in [q.pending, q.paid, q.stranded]
    ensures index in IndexSet(part) ==> index in IndexSet(q.admitted)
  {
    if index in IndexSet(part) {
      var i :| 0 <= i < |part| && part[i].windowIndex == index;
      var c := part[i];
      assert c in multiset(part);
      assert c in multiset(q.admitted);
    }
  }

  /**
   * Over every run, a window that an attempt was made for is pending exactly when every attempt made for it put it back.
   * So a paid attempt's window is pending, and will be paid for again, exactly when its own pass put it back and no later
   * attempt settled or stranded it; it does not matter whether the pass or recovery made the payment.
   */
  lemma PaidAndPending(w: World, steps: seq<Step>, id: string, taskId: string, index: nat)
    requires Initial(w) && taskId in Run(w, steps).tasks && Lists(Run(w, steps), id, taskId, index)
    ensures var v := Run(w, steps);
            index in IndexSet(v.tasks[taskId].pending) <==>
              forall other :: Lists(v, other, taskId, index) ==> v.attempts[other].fate == WentBack
  {
    hide Run, Initial, IndexSet, Conserved;
    var v := Run(w, steps);
    RunConserves(w, steps);
    RunCarries(w, steps);
    var q := QueueOf(v.tasks[taskId]);
    OnePlace(q, index);
    assert Tells(v.tasks[taskId], v.attempts[id]);
    if index in IndexSet(q.paid) {
      EndedSomewhere(v, taskId, q.paid, WereSettled, index);
    }
    if index in IndexSet(q.stranded) {
      EndedSomewhere(v, taskId, q.stranded, WereStranded, index);
    }
    forall other | Lists(v, other, taskId, index) && index in IndexSet(q.pending)
      ensures v.attempts[other].fate == WentBack
    {
      assert Tells(v.tasks[taskId], v.attempts[other]);
    }
  }

  lemma EndedSomewhere(v: World, taskId: string, windows: seq<Charge>, fate: Fate, index: nat)
    requires AllEnded(v, taskId, windows, fate) && index in IndexSet(windows)
    ensures exists other :: Lists(v, other, taskId, index) && v.attempts[other].fate == fate
  {
    var i :| 0 <= i < |windows| && windows[i].windowIndex == index;
    assert SomeEnded(v, taskId, windows[i].windowIndex, fate);
    var other :| Ended(v, other, taskId, index, fate);
  }

  lemma PaymentScenePays(s: Scene, windows: seq<Charge>, invoiceId: string, attemptId: string, env: SettleEnv)
    requires s.attempt.paymentId == None
    ensures PaymentScene(s, windows, invoiceId, attemptId, env).attempt.paymentId.Some? <==> PaymentConfirmed(env)
  {
    hide Call, RecordScene, Advance, Advanced, Paying, RecordResultRequest;
    if env.payment.Confirmed? {
      PaymentSticks(Asked(s, PaymentCall(attemptId, env.payment)), windows, invoiceId, env.payment.id, attemptId, env);
    }
  }

  lemma InvoiceScenePays(s: Scene, windows: seq<Charge>, attemptId: string, env: SettleEnv)
    requires s.attempt.paymentId == None
    ensures InvoiceScene(s, windows, attemptId, env).attempt.paymentId.Some? <==> InvoiceConfirmed(env) && PaymentConfirmed(env)
  {
    hide Call, PaymentScene, Advance, Advanced, Billing.Invoice, SettlePaymentRequest;
    if env.invoice.Confirmed? {
      AdvanceKeepsPayment(s.attempt.(invoiceId := Some(env.invoice.id)), SettlePayment);
      var asked := Asked(s, InvoiceCall(attemptId, env.invoice));
      PaymentScenePays(AfterInvoice(asked, windows, env.invoice.id, attemptId), windows, env.invoice.id, attemptId, env);
    }
  }

  /** A pass leaves its attempt paid exactly when it got as far as a confirmed payment. */
  lemma PassPays(s: Scene, windows: seq<Charge>, taskId: string, attemptId: string, env: SettleEnv)
    requires s.attempt.paymentId == None
    ensures SettleScene(s, windows, taskId, attemptId, env).attempt.paymentId.Some? <==>
              Call(s.orders, Orders.MarkSettling, s.binding.sellOrderId, env.settling).1 && InvoiceConfirmed(env) && PaymentConfirmed(env)
  {
    hide Call, InvoiceScene, Advance, CreateInvoiceRequest;
    var after := Call(s.orders, Orders.MarkSettling, s.binding.sellOrderId, env.settling).0;
    AdvanceKeepsPayment(s.attempt.(settlingDone := true), CreateInvoice);
    InvoiceScenePays(AfterMark(s.(orders := after), windows, taskId), windows, attemptId, env);
  }

  /**
   * So a pass leaves its attempt paid and its windows back in the queue exactly when the payment is confirmed and its result
   * is not recorded.
   */
  lemma PassPaysAndReturns(taskId: string, task: Task, attemptId: string, binding: Binding, orders: map<string, OrderStatus>,
                           env: SettleEnv)
    requires |task.pending| >= task.mergeCount
    ensures var r := SettleScene(Opening(taskId, task, attemptId, binding, orders), Drained(task), taskId, attemptId, env);
            r.attempt.paymentId.Some? && QueueOf(r.task) == QueueOf(task) <==>
              && Call(orders, Orders.MarkSettling, binding.sellOrderId, env.settling).1
              && InvoiceConfirmed(env) && PaymentConfirmed(env) && !ResultRecorded(env)
  {
    var s := Opening(taskId, task, attemptId, binding, orders);
    assert s.attempt.paymentId == None && s.orders == orders && s.binding.sellOrderId == binding.sellOrderId;
    PassEnds(taskId, task, attemptId, binding, orders, env);
    PassPays(s, Drained(task), taskId, attemptId, env);
    hide SettleScene, Opening, Call, IndexSet;
    assert Drained(task) != [];
    assert |task.pending[task.mergeCount..]| < |task.pending|;
  }

  lemma AdvanceKeepsPayment(a: Attempt, stage: Stage)
    ensures Advance(a, stage).paymentId == a.paymentId
  {
  }

  lemma PaymentSticks(s: Scene, windows: seq<Charge>, invoiceId: string, paymentId: string, attemptId: string, env: SettleEnv)
    ensures var paid := AfterPayment(s, windows, invoiceId, paymentId, attemptId);
            RecordScene(paid, windows, invoiceId, paymentId, attemptId, env).attempt.paymentId == Some(paymentId)
  {
    hide Call, CanTransitionStage, CanTransitionAttempt, Advanced, Paying, RecordResultRequest, AutoFinalized, Sum, Round;
  }

  /**
   * Recovery makes an unpaid attempt paid exactly by a settle_payment run that is let through and confirmed. It leaves the
   * task's windows where they are, in the queue if the pass put them back.
   */
  lemma RecoveryPays(attemptId: string, a: Attempt, task: Option<Task>, orders: map<string, OrderStatus>, env: StageEnv)
    requires a.paymentId == None
    ensures var run := RunStage(attemptId, a, task, orders, env);
            && (run.attempt.paymentId.Some? <==>
                  a.stage == SettlePayment && a.invoiceId.Some? && task.Some? && !env.blocked && env.answer.Confirmed?)
            && run.attempt.fate == a.fate
            && (task.Some? ==> run.task.Some? && QueueOf(run.task.value) == QueueOf(task.value))
  {
    hide Call, ReplayWindows, CreateInvoiceRequest, SettlePaymentRequest, RecordResultRequest, Advanced, Paying, KeepsSettled;
    hide Billing.Invoice;
  }

  // ---- Stranded windows stay stranded ----

  ghost predicate AllGain(w: World, v: World) {
    v.tasks.Keys == w.tasks.Keys && forall t :: t in w.tasks ==> Gains(w.tasks[t], v.tasks[t])
  }

  lemma PassDoneGains(w: World, taskId: string, attemptId: string, env: SettleEnv)
    requires AllConserved(w)
    ensures AllGain(w, PassDone(w, taskId, attemptId, env))
  {
    hide Conserved, SettleScene, Opening, Gains;
    forall t | t in w.tasks ensures Gains(w.tasks[t], w.tasks[t]) {
      GainsItself(w.tasks[t]);
    }
    if Settleable(w, taskId) {
      var task := w.tasks[taskId];
      PassTells(taskId, task, attemptId, w.bindings[task.bound.value], w.orders, env);
    }
  }

  lemma AdmittedGainsAll(w: World, taskId: string, report: PollReport)
    requires taskId in w.tasks
    ensures AllGain(w, w.(tasks := w.tasks[taskId := Admitted(w.tasks[taskId], report)]))
  {
    hide Gains, Admitted;
    AdmittedGains(w.tasks[taskId], report);
    forall t | t in w.tasks ensures Gains(w.tasks[t], w.tasks[t]) {
      GainsItself(w.tasks[t]);
    }
  }

  lemma GainThen(u: World, v: World, w: World)
    requires AllGain(u, v) && AllGain(v, w)
    ensures AllGain(u, w)
  {
    hide Gains;
    forall t | t in u.tasks ensures Gains(u.tasks[t], w.tasks[t]) {
      GainsThen(u.tasks[t], v.tasks[t], w.tasks[t]);
    }
  }

  lemma PolledGains(w: World, taskId: string, report: PollReport, attemptId: string, env: SettleEnv)
    requires AllConserved(w)
    ensures AllGain(w, Polled(w, taskId, report, attemptId, env))
  {
    if taskId in w.tasks {
      hide AllConserved, AllGain, PassDone, Admitted, Admits;
      var after := w.(tasks := w.tasks[taskId := Admitted(w.tasks[taskId], report)]);
      AdmittedGainsAll(w, taskId, report);
      AdmittedConservesAll(w, taskId, report);
      PassDoneGains(after, taskId, attemptId, env);
      GainThen(w, after, PassDone(after, taskId, attemptId, env));
    } else {
      hide Gains;
      forall t | t in w.tasks ensures Gains(w.tasks[t], w.tasks[t]) {
        GainsItself(w.tasks[t]);
      }
    }
  }

  lemma GainsThen(t: Task, u: Task, v: Task)
    requires Gains(t, u) && Gains(u, v)
    ensures Gains(t, v)
  {
    hide IndexSet;
  }

  lemma NextGains(w: World, step: Step)
    requires AllConserved(w)
    ensures AllGain(w, Next(w, step))
  {
    hide Next, AllConserved, Polled, SameQueues, Gains;
    if step.Poll? {
      PollStep(w, step);
      PolledGains(w, step.taskId, step.report, step.attemptId, step.env);
    } else {
      NextSameQueues(w, step);
      SameQueuesGain(w, Next(w, step));
    }
  }

  lemma SameQueuesGain(w: World, v: World)
    requires SameQueues(w, v)
    ensures AllGain(w, v)
  {
    forall t | t in w.tasks ensures Gains(w.tasks[t], v.tasks[t]) {
      assert QueueOf(v.tasks[t]) == QueueOf(w.tasks[t]);
    }
  }

  lemma {:induction false} RunGains(w: World, steps: seq<Step>, more: seq<Step>)
    requires Initial(w)
    ensures AllGain(Run(w, steps), Run(w, steps + more))
  {
    hide Next, Initial, AllConserved, Gains;
    var v := Run(w, steps);
    if more == [] {
      assert steps + more == steps;
      forall t | t in v.tasks ensures Gains(v.tasks[t], v.tasks[t]) {
        GainsItself(v.tasks[t]);
      }
    } else {
      var n := |more| - 1;
      assert (steps + more)[..|steps + more| - 1] == steps + more[..n];
      var before := Run(w, steps + more[..n]);
      RunGains(w, steps, more[..n]);
      RunConserves(w, steps + more[..n]);
      NextGains(before, more[n]);
      forall t | t in v.tasks ensures Gains(v.tasks[t], Run(w, steps + more).tasks[t]) {
        GainsThen(v.tasks[t], before.tasks[t], Run(w, steps + more).tasks[t]);
      }
    }
  }

  /**
   * A stranded window never returns to the queue, whatever happens afterwards, and the attempt that stranded it is still
   * there to tell; by `PassEnds` that attempt is one whose first call to the provider was not seen to succeed.
   */
  lemma StrandedForGood(w: World, steps: seq<Step>, more: seq<Step>, taskId: string, index: nat)
    requires Initial(w) && taskId in Run(w, steps).tasks && index in IndexSet(Run(w, steps).tasks[taskId].stranded)
    ensures var v := Run(w, steps + more);
            && taskId in v.tasks && index in IndexSet(v.tasks[taskId].stranded) && index !in IndexSet(v.tasks[taskId].pending)
            && SomeEnded(v, taskId, index, WereStranded)
  {
    hide Run, Initial, IndexSet, Conserved, Tells;
    var v := Run(w, steps + more);
    RunGains(w, steps, more);
    RunConserves(w, steps + more);
    RunCarries(w, steps + more);
    assert Gains(Run(w, steps).tasks[taskId], v.tasks[taskId]);
    OnePlace(QueueOf(v.tasks[taskId]), index);
    EndedSomewhere(v, taskId, v.tasks[taskId].stranded, WereStranded, index);
    var other :| Lists(v, other, taskId, index) && v.attempts[other].fate == WereStranded;
    assert Ended(v, other, taskId, index, WereStranded);
  }
}
