/**
 * A concrete run from a fresh start in which two windows are paid for by two attempts, one of them twice, and in the end
 * both attempts are committed on the same order.
 */
module Incidents {
  import opened Wrappers
  import opened Market
  import opened Billing
  import opened Orders
  import opened Settlement
  import opened Agent
  import opened Safety
  import opened Gateway
  import Exits
  import Windows

  const TASK := "t"
  const ORDER := "s"
  const REQUEST := AcceptRequest("buy-order-t", ORDER)
  const PROPOSAL := Matching.Match(MatchIdOf(REQUEST), "buy-order-t", ORDER, 1.0, 10.0)
  const NEW_TASK := Task("job", 60, 2, true, [], {}, 0, 0.0, 0.0, [], None, [], [], [])
  const START :=
    World(map[], map[TASK := NEW_TASK], map[], {}, {}, map[], map[], map[], map[], Auto, map[ORDER := OrderStatus.Open], {}, [])

  function AcceptIt(id: string): Step {
    Accept(None, REQUEST, AcceptEnv(id, true, [PROPOSAL], Answered))
  }

  /** A poll bringing a new window; everybody answers, and what becomes of the payment is given. */
  function PollIt(window: nat, attemptId: string, payment: GatewayAnswer): Step {
    Poll(TASK, PollReport(true, Some(window), Some(1.0)), attemptId, Answering(payment))
  }

  function Answering(payment: GatewayAnswer): SettleEnv {
    SettleEnv(Answered, false, Confirmed("i"), false, payment, false, Answered, Answered, Answered)
  }

  /** Recovery visits the first attempt. */
  function RecoverIt(now: nat): Step {
    Recover("a", now, StageEnv(Answered, false, Confirmed("q"), Answered))
  }

  const LOST := Unconfirmed("p", "rpc_error: read failed")

  /**
   * The match is accepted and two windows come in; their payment is taken but not confirmed, so that they go back. Recovery
   * pays again. The match is accepted once more, and with the next window another attempt pays for the first two and commits;
   * then recovery records the first attempt's payment and commits it too.
   */
  const RUN := [
    AcceptIt("x"), PollIt(1, "a", LOST), PollIt(2, "a", LOST), RecoverIt(0), AcceptIt("y"), PollIt(3, "b", Confirmed("r")),
    RecoverIt(2), RecoverIt(6)]

  // ---- The scenes between the steps ----

  predicate Queued(t: Task, pending: seq<Charge>, last: nat) {
    t.pending == pending && t.lastWindow == last && t.mergeCount == 2 && t.settled == {}
  }

  /** The task waits for a match, with these windows pending and the last of them the latest. */
  predicate Waiting(w: World, pending: seq<Charge>, last: nat) {
    && TASK in w.tasks && ORDER in w.orders && w.orders[ORDER] == OrderStatus.Open && w.mode == Auto
    && REQUEST.buyOrderId !in w.lockedBuys && ORDER !in w.lockedSells
    && (MatchIdOf(REQUEST) in w.bindings ==> !SettledOrActive(w.bindings[MatchIdOf(REQUEST)]))
    && Queued(w.tasks[TASK], pending, last)
  }

  predicate Standing(b: Binding) {
    b.status == Accepted && b.sellOrderId == ORDER && b.buyOrderId == REQUEST.buyOrderId
  }

  /** It has its match. */
  predicate Matched(w: World, pending: seq<Charge>, last: nat) {
    && TASK in w.tasks && ORDER in w.orders && w.orders[ORDER] == OrderStatus.Locked && w.mode == Auto
    && Queued(w.tasks[TASK], pending, last) && w.tasks[TASK].bound == Some(MatchIdOf(REQUEST))
    && MatchIdOf(REQUEST) in w.bindings && Standing(w.bindings[MatchIdOf(REQUEST)])
  }

  /** An attempt for the first two windows that recovery has resumed so often. */
  predicate OfFirstTwo(a: Attempt, stage: Stage, retries: nat) {
    && a.taskId == TASK && a.windowIndexes == [1, 2] && a.sellOrderId == ORDER && a.invoiceId.Some?
    && a.stage == stage && a.status == InProgress && a.retries == retries
  }

  /** It has paid nothing yet, and can be resumed at its payment. */
  predicate Unpaid(a: Attempt) {
    OfFirstTwo(a, SettlePayment, 0) && a.paymentId == None
  }

  const FIRST := Charge(1, 1.0)
  const SECOND := Charge(2, 1.0)

  // ---- The steps ----

  lemma NotRefused(w: World, id: string, pending: seq<Charge>, last: nat)
    requires Waiting(w, pending, last)
    ensures Refusal(w, REQUEST, AcceptEnv(id, true, [PROPOSAL], Answered)) == None
    ensures TaskFor(w.tasks, REQUEST.buyOrderId) == Some(TASK)
    ensures Proposal([PROPOSAL], MatchIdOf(REQUEST)) == Some(PROPOSAL)
    ensures Call(w.orders, Orders.Lock, ORDER, Answered) == (w.orders[ORDER := OrderStatus.Locked], true)
  {
    assert REQUEST.buyOrderId == BUY_ORDER_PREFIX + TASK;
    assert REQUEST.buyOrderId[|BUY_ORDER_PREFIX|..] == TASK;
    hide MatchIdOf;
  }

  lemma AcceptTakes(w: World, id: string, pending: seq<Charge>, last: nat)
    requires Waiting(w, pending, last) && id !in w.accepts
    ensures TASK in w.tasks
    ensures Next(w, AcceptIt(id)) == LockTaken(w, None, id, REQUEST, TASK, PROPOSAL, w.orders[ORDER := OrderStatus.Locked])
  {
    hide MatchIdOf, TaskFor, Refusal, Proposal, OnlyRebinds, KeepsSettled, WellKeyed, Call, LockTaken;
    NotRefused(w, id, pending, last);
  }

  lemma Accepting(w: World, id: string, pending: seq<Charge>, last: nat)
    requires Waiting(w, pending, last) && id !in w.accepts
    ensures var v := Next(w, AcceptIt(id));
            && Matched(v, pending, last)
            && v.attempts == w.attempts && v.gateway == w.gateway && v.backoff == w.backoff
            && v.accepts.Keys == w.accepts.Keys + {id}
  {
    hide MatchIdOf, Next, OnlyRebinds, KeepsSettled, WellKeyed;
    AcceptTakes(w, id, pending, last);
  }

  /** The task once the window's report is in. */
  function Grown(t: Task, window: nat): Task {
    var c := Charge(window, 1.0);
    t.(lastWindow := window, pending := t.pending + [c], admitted := t.admitted + [c], spent := t.spent + 1.0)
  }

  function Bound(w: World): Binding
    requires MatchIdOf(REQUEST) in w.bindings
  {
    w.bindings[MatchIdOf(REQUEST)]
  }

  lemma Grows(t: Task, pending: seq<Charge>, last: nat, window: nat)
    requires Queued(t, pending, last) && window > last && !HasIndex(pending, window)
    ensures Admits(t, PollReport(true, Some(window), Some(1.0)))
    ensures Admitted(t, PollReport(true, Some(window), Some(1.0))) == Grown(t, window)
  {
  }

  /** The first window is not enough for a pass. */
  lemma Collecting(w: World)
    requires Matched(w, [], 0)
    ensures var v := Next(w, PollIt(1, "a", LOST));
            && Matched(v, [FIRST], 1)
            && v.attempts == w.attempts && v.gateway == w.gateway && v.backoff == w.backoff && v.accepts == w.accepts
  {
    hide PassScene, Staged, MatchIdOf, Admits, Admitted;
    Grows(w.tasks[TASK], [], 0, 1);
  }

  /** With two pending the poll admits the window and makes a pass. */
  lemma Polling(w: World, pending: seq<Charge>, last: nat, window: nat, id: string, payment: GatewayAnswer)
    requires Matched(w, pending, last) && |pending| >= 1 && window > last && !HasIndex(pending, window) && id !in w.attempts
    ensures var task := Grown(w.tasks[TASK], window);
            var r := SettleScene(Opening(TASK, task, id, Bound(w), w.orders), Drained(task), TASK, id, Answering(payment));
            Next(w, PollIt(window, id, payment)) ==
              Staged(w.(tasks := w.tasks[TASK := task]), TASK, MatchIdOf(REQUEST), id, r)
  {
    hide SettleScene, Opening, Drained, MatchIdOf, Admits, Admitted, Staged, HasIndex;
    Grows(w.tasks[TASK], pending, last, window);
  }

  /** How a pass ends whose payment is taken and not confirmed. */
  predicate Lost(r: Scene, task: Task, binding: Binding, orders: map<string, OrderStatus>) {
    && Unpaid(r.attempt)
    && r.task.pending == task.pending && r.task.lastWindow == task.lastWindow && r.task.mergeCount == 2
    && r.task.settled == task.settled
    && !r.locked && r.orders == orders[ORDER := OrderStatus.Open] && r.binding == binding.(status := MatchRetryable)
    && r.calls == [InvoiceCall("a", Confirmed("i")), PaymentCall("a", LOST)]
  }

  lemma PaymentLost(task: Task, binding: Binding, orders: map<string, OrderStatus>)
    requires task.pending == [FIRST, SECOND] && task.mergeCount == 2
    requires Standing(binding) && ORDER in orders && orders[ORDER] == OrderStatus.Locked
    ensures var s := Opening(TASK, task, "a", binding, orders);
            Lost(SettleScene(s, Drained(task), TASK, "a", Answering(LOST)), task, binding, orders)
  {
    hide Upserted, Advanced, Billing.Invoice, CreateInvoiceRequest, SettlePaymentRequest, KeepsSettled, Indexes, Call;
    LockedThenReleased(orders);
    FirstTwo(task);
    assert task.pending[..2] + task.pending[2..] == task.pending;
  }

  lemma LockedThenReleased(orders: map<string, OrderStatus>)
    requires ORDER in orders && orders[ORDER] == OrderStatus.Locked
    ensures var settling := orders[ORDER := OrderStatus.Settling];
            && Call(orders, Orders.MarkSettling, ORDER, Answered) == (settling, true)
            && Call(settling, Orders.Release, ORDER, Answered).0 == orders[ORDER := OrderStatus.Open]
            && Call(settling, Orders.MarkSettled, ORDER, Answered).1
  {
    assert orders[ORDER := OrderStatus.Settling][ORDER := OrderStatus.Open] == orders[ORDER := OrderStatus.Open];
  }

  lemma FirstTwo(task: Task)
    requires task.mergeCount == 2 && |task.pending| >= 2 && task.pending[0] == FIRST && task.pending[1] == SECOND
    ensures Drained(task) == [FIRST, SECOND] && Indexes(Drained(task)) == [1, 2]
  {
  }

  lemma LostIsWaiting(w: World, task: Task, r: Scene)
    requires Matched(w, [FIRST], 1) && w.attempts == map[] && w.gateway == []
    requires Queued(task, [FIRST, SECOND], 2) && Lost(r, task, Bound(w), w.orders)
    ensures var v := Staged(w.(tasks := w.tasks[TASK := task]), TASK, MatchIdOf(REQUEST), "a", r);
            && Waiting(v, [FIRST, SECOND], 2)
            && v.attempts.Keys == {"a"} && Unpaid(v.attempts["a"]) && v.gateway == r.calls
  {
    hide MatchIdOf, Unpaid;
  }

  lemma LosingPoll(w: World)
    requires Matched(w, [FIRST], 1) && w.attempts == map[] && w.gateway == [] && w.backoff == map[]
    ensures var v := Next(w, PollIt(2, "a", LOST));
            && Waiting(v, [FIRST, SECOND], 2)
            && v.attempts.Keys == {"a"} && Unpaid(v.attempts["a"]) && v.backoff == map[] && v.accepts == w.accepts
            && v.gateway == [InvoiceCall("a", Confirmed("i")), PaymentCall("a", LOST)]
  {
    hide SettleScene, Opening, Drained, MatchIdOf, Next, Unpaid, Waiting;
    var task := Grown(w.tasks[TASK], 2);
    assert task.pending == [FIRST, SECOND];
    Polling(w, [FIRST], 1, 2, "a", LOST);
    PaymentLost(task, Bound(w), w.orders);
    LostIsWaiting(w, task, SettleScene(Opening(TASK, task, "a", Bound(w), w.orders), Drained(task), TASK, "a", Answering(LOST)));
  }

  // ---- Recovery's visits ----

  /** Recovery may resume the first attempt, and resumes it now. */
  predicate Resumable(w: World, now: nat) {
    "a" in w.attempts && w.mode == Auto && TASK in w.tasks && Until(w, "a") <= now
  }

  lemma Visiting(w: World, now: nat, stage: Stage, retries: nat)
    requires Resumable(w, now) && OfFirstTwo(w.attempts["a"], stage, retries) && retries < MAX_RECOVERY_RETRIES
    ensures var a := w.attempts["a"];
            var run := RunStage("a", a, Some(w.tasks[TASK]), w.orders, StageEnv(Answered, false, Confirmed("q"), Answered));
            var v := Next(w, RecoverIt(now));
            && v.attempts == w.attempts["a" := AfterRun(run)] && v.orders == run.orders && v.gateway == w.gateway + run.calls
            && v.backoff == w.backoff["a" := now + BackoffDelay(AfterRun(run).retries)] && v.mode == w.mode
            && v.lockedBuys == w.lockedBuys && v.lockedSells == w.lockedSells && v.bindings == w.bindings
            && v.accepts == w.accepts
            && v.tasks.Keys == w.tasks.Keys && v.tasks[TASK] == w.tasks[TASK].(bills := v.tasks[TASK].bills)
  {
    hide Next, RunStage, BackoffDelay;
    RecoverStep(w, RecoverIt(now));
  }

  lemma PaysAgain(a: Attempt, task: Task, orders: map<string, OrderStatus>)
    requires Unpaid(a)
    ensures var run := RunStage("a", a, Some(task), orders, StageEnv(Answered, false, Confirmed("q"), Answered));
            && OfFirstTwo(AfterRun(run), RecordResult, 1) && AfterRun(run).paymentId == Some("q")
            && run.orders == orders && run.calls == [PaymentCall("a", Confirmed("q"))]
  {
    hide ReplayWindows, SettlePaymentRequest, Advanced, Paying, Contained;
  }

  lemma RecordsAfterAll(a: Attempt, task: Task, orders: map<string, OrderStatus>)
    requires OfFirstTwo(a, RecordResult, 1) && a.paymentId == Some("q")
    ensures var run := RunStage("a", a, Some(task), orders, StageEnv(Answered, false, Confirmed("q"), Answered));
            OfFirstTwo(AfterRun(run), ProviderMarkSettled, 2) && run.orders == orders
  {
    hide ReplayWindows, RecordResultRequest, Advanced, Contained;
  }

  lemma CommitsAfterAll(a: Attempt, task: Task, orders: map<string, OrderStatus>)
    requires OfFirstTwo(a, ProviderMarkSettled, 2) && IsSettled(orders, ORDER)
    ensures var run := RunStage("a", a, Some(task), orders, StageEnv(Answered, false, Confirmed("q"), Answered));
            && AfterRun(run).status == Committed && SameIdentity(a, AfterRun(run)) && IsSettled(run.orders, ORDER)
  {
    hide Contained;
  }

  /** Recovery sends settle_payment once more. */
  lemma RecoveryPaysAgain(w: World)
    requires Waiting(w, [FIRST, SECOND], 2) && "a" in w.attempts && w.backoff == map[] && Unpaid(w.attempts["a"])
    ensures var v := Next(w, RecoverIt(0));
            && Waiting(v, [FIRST, SECOND], 2)
            && v.attempts.Keys == w.attempts.Keys && v.accepts == w.accepts && v.backoff == map["a" := 2]
            && OfFirstTwo(v.attempts["a"], RecordResult, 1) && v.attempts["a"].paymentId == Some("q")
            && v.gateway == w.gateway + [PaymentCall("a", Confirmed("q"))]
  {
    hide RunStage, MatchIdOf, Next, AfterRun;
    Visiting(w, 0, SettlePayment, 0);
    PaysAgain(w.attempts["a"], w.tasks[TASK], w.orders);
  }

  // ---- The other attempt ----

  /** How a pass ends that pays for the first two windows under another attempt, and commits it. */
  ghost predicate PaidAgain(r: Scene) {
    && r.attempt.windowIndexes == [1, 2] && r.attempt.taskId == TASK && r.attempt.sellOrderId == ORDER
    && r.attempt.paymentId.Some? && r.attempt.status == Committed
    && IsSettled(r.orders, ORDER) && Only(r.calls, "b")
  }

  lemma Commits(orders: map<string, OrderStatus>, env: SettleEnv)
    requires env == Answering(Confirmed("r")) && ORDER in orders && orders[ORDER] == OrderStatus.Locked
    ensures Exits.ExitOf(orders, ORDER, env) == Exits.Completed
    ensures Call(orders, Orders.MarkSettling, ORDER, env.settling).1
  {
    hide Call;
    LockedThenReleased(orders);
  }

  lemma SettlingPass(task: Task, binding: Binding, orders: map<string, OrderStatus>)
    requires task.mergeCount == 2 && |task.pending| >= 2 && task.pending[0] == FIRST && task.pending[1] == SECOND
    requires Standing(binding) && ORDER in orders && orders[ORDER] == OrderStatus.Locked
    ensures PaidAgain(SettleScene(Opening(TASK, task, "b", binding, orders), Drained(task), TASK, "b", Answering(Confirmed("r"))))
  {
    var env := Answering(Confirmed("r"));
    var s := Opening(TASK, task, "b", binding, orders);
    assert s.attempt.paymentId == None && !s.attempt.settledDone && s.attempt.sellOrderId == ORDER;
    assert s.orders == orders && s.binding.sellOrderId == ORDER;
    hide SettleScene, Call, Only, Exits.ExitOf, Opening, IsSettled;
    FirstTwo(task);
    Commits(orders, env);
    Exits.PassLeaves(TASK, task, "b", binding, orders, env);
    Windows.PassMakes(TASK, task, "b", binding, orders, env);
    Windows.PassPays(s, Drained(task), TASK, "b", env);
    PassSafe(TASK, task, "b", binding, orders, env);
    var r := SettleScene(s, Drained(task), TASK, "b", env);
    assert Keeps(s, r);
  }

  /** The first two windows are drained into another attempt, which pays for them too. */
  lemma SettlingPoll(w: World)
    requires Matched(w, [FIRST, SECOND], 2) && "b" !in w.attempts
    ensures var v := Next(w, PollIt(3, "b", Confirmed("r")));
            && v.mode == Auto && TASK in v.tasks && v.backoff == w.backoff
            && exists r :: PaidAgain(r) && v.attempts == w.attempts["b" := r.attempt] && v.gateway == w.gateway + r.calls
                           && v.orders == r.orders
  {
    hide SettleScene, Opening, Drained, MatchIdOf, Next, PaidAgain;
    var task := Grown(w.tasks[TASK], 3);
    SettlingPass(task, Bound(w), w.orders);
    Polling(w, [FIRST, SECOND], 2, 3, "b", Confirmed("r"));
  }

  // ---- The run ----

  lemma Prefixes(k: nat)
    requires 0 < k <= 8
    ensures Run(START, RUN[..k]) == Next(Run(START, RUN[..k - 1]), RUN[k - 1])
  {
    hide Next;
    assert RUN[..k][..k - 1] == RUN[..k - 1];
  }

  lemma FreshStart()
    ensures Initial(START) && Waiting(START, [], 0) && Run(START, RUN[..0]) == START
  {
    hide MatchIdOf, Next;
  }

  lemma BeforeRecovery()
    ensures var w := Run(START, RUN[..3]);
            && Waiting(w, [FIRST, SECOND], 2)
            && w.attempts.Keys == {"a"} && Unpaid(w.attempts["a"]) && w.backoff == map[] && w.accepts.Keys == {"x"}
            && w.gateway == [InvoiceCall("a", Confirmed("i")), PaymentCall("a", LOST)]
  {
    hide MatchIdOf, Next, Unpaid, Run, Waiting, Matched;
    Prefixes(1);
    Prefixes(2);
    Prefixes(3);
    FreshStart();
    Accepting(START, "x", [], 0);
    Collecting(Run(START, RUN[..1]));
    LosingPoll(Run(START, RUN[..2]));
  }

  /** The gateway's log once recovery has paid again. */
  const PAID_TWICE := [InvoiceCall("a", Confirmed("i")), PaymentCall("a", LOST)] + [PaymentCall("a", Confirmed("q"))]

  lemma AfterRecovery()
    ensures var w := Run(START, RUN[..5]);
            && Matched(w, [FIRST, SECOND], 2)
            && w.attempts.Keys == {"a"} && w.attempts["a"].paymentId == Some("q") && w.backoff == map["a" := 2]
            && OfFirstTwo(w.attempts["a"], RecordResult, 1) && w.gateway == PAID_TWICE
  {
    hide MatchIdOf, Next, Run, Waiting, Matched;
    BeforeRecovery();
    Prefixes(4);
    Prefixes(5);
    RecoveryPaysAgain(Run(START, RUN[..3]));
    Accepting(Run(START, RUN[..4]), "y", [FIRST, SECOND], 2);
  }

  lemma {:induction false} OthersTakeNothing(calls: seq<GatewayCall>, more: seq<GatewayCall>, id: string, other: string)
    requires Only(more, other) && other != id
    ensures PaymentsTaken(calls + more, id) == PaymentsTaken(calls, id)
  {
    if more == [] {
      assert calls + more == calls;
    } else {
      var n := |more| - 1;
      assert (calls + more)[..|calls| + n] == calls + more[..n];
      OthersTakeNothing(calls, more[..n], id, other);
      hide MadeIds;
    }
  }

  lemma TakenTwice()
    ensures PaymentsTaken(PAID_TWICE, "a") == ["p", "q"]
  {
    var invoice, lost, paid := InvoiceCall("a", Confirmed("i")), PaymentCall("a", LOST), PaymentCall("a", Confirmed("q"));
    assert [] + [invoice] == [invoice] && [invoice] + [lost] == [invoice, lost];
    OneMoreCall([], invoice, "a");
    OneMoreCall([invoice], lost, "a");
    OneMoreCall([invoice, lost], paid, "a");
    var answers := [LOST, Confirmed("q")];
    assert PaymentAnswers(PAID_TWICE, "a") == answers;
    assert answers[..1] == [LOST] && answers[..1][..0] == [];
    assert MadeIds(answers[..1]) == ["p"];
  }

  /** What holds once the other attempt has paid. */
  ghost predicate BothPaid(w: World) {
    && w.mode == Auto && TASK in w.tasks && w.backoff == map["a" := 2] && IsSettled(w.orders, ORDER)
    && "a" in w.attempts && OfFirstTwo(w.attempts["a"], RecordResult, 1) && w.attempts["a"].paymentId == Some("q")
    && "b" in w.attempts && OtherCommitted(w.attempts["b"])
    && PaymentsTaken(w.gateway, "a") == ["p", "q"]
  }

  lemma OtherHasPaid()
    ensures BothPaid(Run(START, RUN[..6]))
  {
    hide MatchIdOf, Next, Run, Matched, PaymentsTaken, OfFirstTwo, IsSettled, Only;
    AfterRecovery();
    Prefixes(6);
    var w, v := Run(START, RUN[..5]), Run(START, RUN[..6]);
    SettlingPoll(w);
    var r :| PaidAgain(r) && v.attempts == w.attempts["b" := r.attempt] && v.gateway == w.gateway + r.calls && v.orders == r.orders;
    OthersTakeNothing(w.gateway, r.calls, "a", "b");
    TakenTwice();
  }

  /**
   * From a fresh start two windows end up in two paid attempts of their task, the first of which has been paid twice: once by
   * its pass, whose answer was lost, and once by recovery.
   */
  lemma PaidThreeTimes()
    ensures Initial(START)
    ensures var v := Run(START, RUN[..6]);
            && "a" in v.attempts && "b" in v.attempts
            && v.attempts["a"].taskId == TASK && v.attempts["a"].windowIndexes == [1, 2] && v.attempts["a"].paymentId.Some?
            && v.attempts["b"].taskId == TASK && v.attempts["b"].windowIndexes == [1, 2] && v.attempts["b"].paymentId.Some?
            && PaymentsTaken(v.gateway, "a") == ["p", "q"]
  {
    FreshStart();
    OtherHasPaid();
    hide Run, Next, PaymentsTaken;
  }

  predicate OtherCommitted(b: Attempt) {
    && b.taskId == TASK && b.windowIndexes == [1, 2] && b.sellOrderId == ORDER && b.paymentId.Some?
    && b.status == Committed
  }

  lemma FirstRecorded()
    ensures var v := Run(START, RUN[..7]);
            && Resumable(v, 6) && OfFirstTwo(v.attempts["a"], ProviderMarkSettled, 2) && IsSettled(v.orders, ORDER)
            && "b" in v.attempts && OtherCommitted(v.attempts["b"])
  {
    hide Run, Next, PaymentsTaken, RunStage, OfFirstTwo, IsSettled, OtherCommitted;
    OtherHasPaid();
    Prefixes(7);
    var w := Run(START, RUN[..6]);
    Visiting(w, 2, RecordResult, 1);
    RecordsAfterAll(w.attempts["a"], w.tasks[TASK], w.orders);
    CountsTwo(w.attempts["a"], w.tasks[TASK], w.orders);
  }

  lemma CountsTwo(a: Attempt, task: Task, orders: map<string, OrderStatus>)
    requires OfFirstTwo(a, RecordResult, 1)
    ensures RunStage("a", a, Some(task), orders, StageEnv(Answered, false, Confirmed("q"), Answered)).attempt.retries == 1
  {
    hide ReplayWindows, RecordResultRequest, Advanced, Contained;
  }

  /** Two more visits of recovery, and both attempts are committed on the one order, which is settled once. */
  lemma CommittedTwice()
    ensures var v := Run(START, RUN);
            && "a" in v.attempts && v.attempts["a"].status == Committed && v.attempts["a"].sellOrderId == ORDER
            && v.attempts["a"].taskId == TASK && v.attempts["a"].windowIndexes == [1, 2]
            && "b" in v.attempts && OtherCommitted(v.attempts["b"]) && IsSettled(v.orders, ORDER)
  {
    hide Run, Next, RunStage, IsSettled, OtherCommitted, AfterRun, BackoffDelay;
    FirstRecorded();
    Prefixes(8);
    assert RUN[..8] == RUN;
    var w := Run(START, RUN[..7]);
    Visiting(w, 6, ProviderMarkSettled, 2);
    CommitsAfterAll(w.attempts["a"], w.tasks[TASK], w.orders);
  }
}
