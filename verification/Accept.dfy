/** Accepting matches: what `accept_match` of apps/agentd/src/main.rs leaves behind, and its idempotency ledger. */
module Accept {
  import opened Wrappers
  import opened Orders
  import opened Settlement
  import opened Agent

  // ---- One request ----

  /** Whatever stops an accept, no lock and no accepted or settling match is gained or lost. */
  lemma FailureChangesNoLocks(w: World, key: Option<string>, request: AcceptRequest, env: AcceptEnv)
    requires AcceptHandled(w, key, request, env).1 != MatchAccepted
    ensures var v := AcceptHandled(w, key, request, env).0;
            && v.lockedBuys == w.lockedBuys && v.lockedSells == w.lockedSells
            && ActiveMatches(v) == ActiveMatches(w)
            && forall m :: m in ActiveMatches(w) ==> m in v.bindings && v.bindings[m] == w.bindings[m]
  {
    hide Call, KnownKey, TaskFor, Proposal, OnlyRebinds, KeepsSettled, MatchIdOf;
  }

  /** A fresh success adds the one match and the locks of its two orders, all of them new. */
  lemma SuccessAddsOneMatch(w: World, key: Option<string>, request: AcceptRequest, env: AcceptEnv)
    requires AcceptHandled(w, key, request, env).1 == MatchAccepted
    ensures var v := AcceptHandled(w, key, request, env).0;
            var m := MatchIdOf(request);
            && request.buyOrderId !in w.lockedBuys && v.lockedBuys == w.lockedBuys + {request.buyOrderId}
            && request.sellOrderId !in w.lockedSells && v.lockedSells == w.lockedSells + {request.sellOrderId}
            && m !in ActiveMatches(w) && ActiveMatches(v) == ActiveMatches(w) + {m}
            && v.bindings[m].buyOrderId == request.buyOrderId && v.bindings[m].sellOrderId == request.sellOrderId
            && (forall k :: k in ActiveMatches(w) ==> v.bindings[k] == w.bindings[k])
            && v.bindings[m].taskId in v.tasks && v.tasks[v.bindings[m].taskId].bound == Some(m)
  {
    hide Call, KnownKey, TaskFor, Proposal, OnlyRebinds, KeepsSettled, MatchIdOf;
    var v := AcceptHandled(w, key, request, env).0;
    assert forall k :: k in v.bindings <==> k in w.bindings || k == MatchIdOf(request);
  }

  /** The accepted match's order is locked at the provider. */
  lemma SuccessLocksTheOrder(w: World, key: Option<string>, request: AcceptRequest, env: AcceptEnv)
    requires AcceptHandled(w, key, request, env).1 == MatchAccepted
    ensures var v := AcceptHandled(w, key, request, env).0;
            request.sellOrderId in v.orders && v.orders[request.sellOrderId] == Locked
  {
    hide KnownKey, TaskFor, Proposal, OnlyRebinds, KeepsSettled, MatchIdOf;
  }

  /**
   * A failing exit also leaves every task as it was, except one: when the provider refuses the lock, the task ends up
   * with no match even if it had one, and any earlier record of the match is gone. That exit restores the tasks exactly when
   * the task had none.
   */
  lemma LockFailureForgetsTheOldMatch(w: World, key: Option<string>, request: AcceptRequest, env: AcceptEnv)
    requires AcceptHandled(w, key, request, env).1 != MatchAccepted
    ensures var (v, reply) := AcceptHandled(w, key, request, env);
            if reply != ProviderLockFailed then v.tasks == w.tasks && v.bindings == w.bindings
            else
              var task := TaskFor(w.tasks, request.buyOrderId);
              && task.Some? && (v.tasks == w.tasks <==> w.tasks[task.value].bound == None)
              && v.bindings == w.bindings - {MatchIdOf(request)}
  {
    hide Call, KnownKey, Proposal, OnlyRebinds, KeepsSettled, MatchIdOf;
    var (v, reply) := AcceptHandled(w, key, request, env);
    if reply == ProviderLockFailed {
      var taskId := TaskFor(w.tasks, request.buyOrderId).value;
      assert v.tasks[taskId].bound == None;
      assert v.tasks == w.tasks[taskId := w.tasks[taskId].(bound := None)];
    }
  }

  // ---- Which answer ----

  /** The accept attempt the client's key leads to. */
  function Earlier(w: World, key: Option<string>): Option<AcceptAttempt> {
    if key.Some? && key.value in w.ledger && w.ledger[key.value] in w.accepts then Some(w.accepts[w.ledger[key.value]])
    else None
  }

  /** The request is not answered by its key: a new accept attempt is made for it. */
  predicate MakesAttempt(w: World, key: Option<string>, request: AcceptRequest) {
    match Earlier(w, key)
    case None => true
    case Some(a) => a.request == request && a.status != AcceptCommitted
  }

  /** The match stands already. */
  predicate Held(w: World, request: AcceptRequest) {
    MatchIdOf(request) in w.bindings && w.bindings[MatchIdOf(request)].status in {Accepted, MatchSettling, MatchSettled}
  }

  /** Proposal `i` is the first with the match's identifier. */
  predicate IsProposed(proposals: seq<Matching.Match>, matchId: string, i: int) {
    0 <= i < |proposals| && proposals[i].matchId == matchId && forall j :: 0 <= j < i ==> proposals[j].matchId != matchId
  }

  /** The buy order is that of the task. */
  predicate BuysFor(request: AcceptRequest, taskId: string) {
    request.buyOrderId == BUY_ORDER_PREFIX + taskId
  }

  /** The market is there, the match does not stand yet and is proposed. */
  ghost predicate Offered(w: World, key: Option<string>, request: AcceptRequest, env: AcceptEnv) {
    && MakesAttempt(w, key, request) && env.marketAvailable && !Held(w, request)
    && exists i :: IsProposed(env.proposals, MatchIdOf(request), i)
  }

  ghost predicate Lockable(w: World, key: Option<string>, request: AcceptRequest, env: AcceptEnv) {
    && Offered(w, key, request, env)
    && request.buyOrderId !in w.lockedBuys && request.sellOrderId !in w.lockedSells
    && exists t :: t in w.tasks && BuysFor(request, t)
  }

  /** When each answer is given. */
  ghost predicate Warranted(w: World, key: Option<string>, request: AcceptRequest, env: AcceptEnv, reply: AcceptReply) {
    match reply
    case IdempotencyConflict => Earlier(w, key).Some? && Earlier(w, key).value.request != request
    case AlreadyAccepted =>
      if MakesAttempt(w, key, request) then env.marketAvailable && Held(w, request)
      else Earlier(w, key).value.request == request
    case MarketUnavailable => MakesAttempt(w, key, request) && !env.marketAvailable
    case NotProposed =>
      && MakesAttempt(w, key, request) && env.marketAvailable && !Held(w, request)
      && forall i :: 0 <= i < |env.proposals| ==> env.proposals[i].matchId != MatchIdOf(request)
    case BuyOrderLocked => Offered(w, key, request, env) && request.buyOrderId in w.lockedBuys
    case SellOrderLocked =>
      Offered(w, key, request, env) && request.buyOrderId !in w.lockedBuys && request.sellOrderId in w.lockedSells
    case BuyOrderNotFound =>
      && Offered(w, key, request, env) && request.buyOrderId !in w.lockedBuys && request.sellOrderId !in w.lockedSells
      && forall t :: t in w.tasks ==> !BuysFor(request, t)
    case ProviderLockFailed => Lockable(w, key, request, env) && !Locks(w, request, env)
    case MatchAccepted => Lockable(w, key, request, env) && Locks(w, request, env)
  }

  /** The provider locks the order, and its answer arrives. */
  predicate Locks(w: World, request: AcceptRequest, env: AcceptEnv) {
    env.lock.Answered? && request.sellOrderId in w.orders && w.orders[request.sellOrderId] in {Open, Locked}
  }

  lemma {:induction false} ProposalIsFirst(proposals: seq<Matching.Match>, matchId: string)
    ensures match Proposal(proposals, matchId)
            case None => forall i :: 0 <= i < |proposals| ==> proposals[i].matchId != matchId
            case Some(p) => exists i :: IsProposed(proposals, matchId, i) && proposals[i] == p
  {
    if proposals != [] {
      if proposals[0].matchId == matchId {
        assert IsProposed(proposals, matchId, 0);
      } else {
        ProposalIsFirst(proposals[1..], matchId);
        if Proposal(proposals, matchId).Some? {
          var i :| IsProposed(proposals[1..], matchId, i) && proposals[1..][i] == Proposal(proposals, matchId).value;
          assert forall j :: 0 < j <= i + 1 ==> proposals[j] == proposals[1..][j - 1];
          assert IsProposed(proposals, matchId, i + 1);
        } else {
          assert forall i :: 0 < i < |proposals| ==> proposals[i] == proposals[1..][i - 1];
        }
      }
    }
  }

  lemma TaskIsBuyers(w: World, request: AcceptRequest)
    ensures match TaskFor(w.tasks, request.buyOrderId)
            case None => forall t :: t in w.tasks ==> !BuysFor(request, t)
            case Some(t) => t in w.tasks && BuysFor(request, t)
  {
    var id, n := request.buyOrderId, |BUY_ORDER_PREFIX|;
    forall t | t in w.tasks && BuysFor(request, t) ensures TaskFor(w.tasks, id).Some? {
      assert id[n..] == t && id[..n] == BUY_ORDER_PREFIX;
    }
  }

  lemma LockSeen(w: World, request: AcceptRequest, env: AcceptEnv)
    ensures Call(w.orders, Orders.Lock, request.sellOrderId, env.lock).1 <==> Locks(w, request, env)
  {
  }

  lemma KeyAnswers(w: World, key: Option<string>, request: AcceptRequest)
    ensures KnownKey(w, key, request) ==
              if MakesAttempt(w, key, request) then None
              else if Earlier(w, key).value.request != request then Some(IdempotencyConflict)
              else Some(AlreadyAccepted)
  {
  }

  /** A new attempt is refused as `Warranted` says. */
  lemma RefusalWarranted(w: World, key: Option<string>, request: AcceptRequest, env: AcceptEnv)
    requires MakesAttempt(w, key, request)
    ensures var r := Refusal(w, request, env);
            if r.None? then Lockable(w, key, request, env) else Warranted(w, key, request, env, r.value.1)
  {
    hide MatchIdOf, TaskFor, Proposal, MakesAttempt, BuysFor, Earlier, IsProposed;
    ProposalIsFirst(env.proposals, MatchIdOf(request));
    TaskIsBuyers(w, request);
  }

  /** The conditions exclude each other. */
  lemma OneAnswerWarranted(w: World, key: Option<string>, request: AcceptRequest, env: AcceptEnv, reply: AcceptReply,
                           other: AcceptReply)
    requires Warranted(w, key, request, env, reply) && Warranted(w, key, request, env, other)
    ensures reply == other
  {
    hide MatchIdOf, Held, BuysFor, Locks;
  }

  /** Each answer is given exactly when it is warranted. */
  lemma AnswersExactly(w: World, key: Option<string>, request: AcceptRequest, env: AcceptEnv, reply: AcceptReply)
    ensures AcceptHandled(w, key, request, env).1 == reply <==> Warranted(w, key, request, env, reply)
  {
    AnswerWarranted(w, key, request, env);
    hide AcceptHandled, Warranted, OnlyRebinds, KeepsSettled, WellKeyed;
    if Warranted(w, key, request, env, reply) {
      OneAnswerWarranted(w, key, request, env, reply, AcceptHandled(w, key, request, env).1);
    }
  }

  lemma AnswerWarranted(w: World, key: Option<string>, request: AcceptRequest, env: AcceptEnv)
    ensures Warranted(w, key, request, env, AcceptHandled(w, key, request, env).1)
  {
    hide MatchIdOf, TaskFor, Proposal, KnownKey, Refusal, LockTaken, LockFailed, Call, OnlyRebinds, KeepsSettled, WellKeyed;
    hide Held, BuysFor, Locks, WithAccept, Earlier, Lockable, Offered;
    KeyAnswers(w, key, request);
    LockSeen(w, request, env);
    if MakesAttempt(w, key, request) {
      RefusalWarranted(w, key, request, env);
    }
  }

  /** A match is made on the terms of the first proposal with its identifier, for the task of its buy order. */
  lemma AcceptedOnItsTerms(w: World, key: Option<string>, request: AcceptRequest, env: AcceptEnv)
    requires AcceptHandled(w, key, request, env).1 == MatchAccepted
    ensures var v, m := AcceptHandled(w, key, request, env).0, MatchIdOf(request);
            && m in v.bindings && v.bindings[m].status == Accepted && v.bindings[m].matchId == m
            && v.bindings[m].taskId in w.tasks && BuysFor(request, v.bindings[m].taskId)
            && exists i :: IsProposed(env.proposals, m, i) && v.bindings[m].unitPrice == env.proposals[i].agreedUnitPrice
                           && v.bindings[m].workUnits == env.proposals[i].agreedWorkUnits
  {
    hide MatchIdOf, TaskFor, Proposal, KnownKey, Refusal, Call, OnlyRebinds, KeepsSettled, WellKeyed, IsProposed, BuysFor;
    RefusalFinds(w, request, env);
    ProposalIsFirst(env.proposals, MatchIdOf(request));
    TaskIsBuyers(w, request);
  }

  /** How each answer leaves the accept attempt it was given for. */
  function StatusAfter(reply: AcceptReply): AcceptStatus {
    match reply
    case MatchAccepted => AcceptCommitted
    case AlreadyAccepted => Validating
    case BuyOrderLocked => Locking
    case SellOrderLocked => Locking
    case BuyOrderNotFound => Locking
    case _ => AcceptFailed
  }

  lemma RefusalStatus(w: World, request: AcceptRequest, env: AcceptEnv)
    ensures Refusal(w, request, env).Some? ==>
              Refusal(w, request, env).value.0 == StatusAfter(Refusal(w, request, env).value.1)
  {
    hide MatchIdOf, TaskFor, Proposal;
  }

  lemma AttemptWritten(w: World, key: Option<string>, id: string, request: AcceptRequest, status: AcceptStatus, taskId: string,
                       chosen: Matching.Match, orders: map<string, OrderStatus>)
    ensures WithAccept(w, id, request, status).accepts == w.accepts[id := AcceptAttempt(request, status)]
    ensures taskId in w.tasks ==>
              && LockTaken(w, key, id, request, taskId, chosen, orders).accepts ==
                   w.accepts[id := AcceptAttempt(request, AcceptCommitted)]
              && LockFailed(w, id, request, taskId, orders).accepts == w.accepts[id := AcceptAttempt(request, AcceptFailed)]
  {
    hide MatchIdOf, OnlyRebinds, WellKeyed, WithBound, WithBinding, WithoutBinding;
  }

  /** A request not answered by its key writes its accept attempt down, and no other, in the status of its answer. */
  lemma AttemptLeft(w: World, key: Option<string>, request: AcceptRequest, env: AcceptEnv)
    ensures var (v, reply) := AcceptHandled(w, key, request, env);
            if MakesAttempt(w, key, request) then
              v.accepts == w.accepts[env.attemptId := AcceptAttempt(request, StatusAfter(reply))]
            else v == w
  {
    hide MatchIdOf, TaskFor, Proposal, KnownKey, Refusal, Call, OnlyRebinds, KeepsSettled, WellKeyed, MakesAttempt, Earlier;
    hide LockTaken, LockFailed, WithAccept;
    KeyAnswers(w, key, request);
    RefusalStatus(w, request, env);
    RefusalFinds(w, request, env);
    if MakesAttempt(w, key, request) {
      if Refusal(w, request, env).Some? {
        AttemptWritten(w, key, env.attemptId, request, Refusal(w, request, env).value.0, "",
                       Matching.Match("", "", "", 0.0, 0.0), w.orders);
      } else {
        AttemptWritten(w, key, env.attemptId, request, AcceptFailed, TaskFor(w.tasks, request.buyOrderId).value,
                       Proposal(env.proposals, MatchIdOf(request)).value,
                       Call(w.orders, Orders.Lock, request.sellOrderId, env.lock).0);
      }
    }
  }

  // ---- The ledger over whole runs ----

  /** Each client key leads to an accept attempt that was committed. */
  ghost predicate LedgerOk(w: World) {
    forall k :: k in w.ledger ==> w.ledger[k] in w.accepts && w.accepts[w.ledger[k]].status == AcceptCommitted
  }

  /** No key is forgotten or made to lead elsewhere, and no committed attempt changes. */
  ghost predicate LedgerKept(w: World, v: World) {
    && (forall k :: k in w.ledger ==> k in v.ledger && v.ledger[k] == w.ledger[k])
    && (forall id :: id in w.accepts && w.accepts[id].status == AcceptCommitted ==>
          id in v.accepts && v.accepts[id] == w.accepts[id])
  }

  /** The accept attempt `id` is recorded with the request and, if committed, under the key. */
  predicate Recorded(w: World, v: World, id: string, request: AcceptRequest, key: Option<string>, committed: bool) {
    && id in v.accepts && v.accepts == w.accepts[id := v.accepts[id]] && v.accepts[id].request == request
    && (v.accepts[id].status == AcceptCommitted <==> committed)
    && v.ledger == if committed && key.Some? then w.ledger[key.value := id] else w.ledger
  }

  lemma LocksRecord(w: World, key: Option<string>, id: string, request: AcceptRequest, taskId: string,
                    chosen: Matching.Match, orders: map<string, OrderStatus>)
    requires taskId in w.tasks
    ensures Recorded(w, LockTaken(w, key, id, request, taskId, chosen, orders), id, request, key, true)
    ensures Recorded(w, LockFailed(w, id, request, taskId, orders), id, request, key, false)
  {
    hide WithBound, WithBinding, WithoutBinding, MatchIdOf, OnlyRebinds, WellKeyed;
  }

  lemma RefusalRecords(w: World, key: Option<string>, id: string, request: AcceptRequest, status: AcceptStatus)
    requires status != AcceptCommitted
    ensures Recorded(w, WithAccept(w, id, request, status), id, request, key, false)
  {
  }

  /** What a request does to the accept attempts and the ledger. */
  lemma AcceptRecords(w: World, key: Option<string>, request: AcceptRequest, env: AcceptEnv)
    ensures var (v, reply) := AcceptHandled(w, key, request, env);
            if KnownKey(w, key, request).Some? then v == w
            else Recorded(w, v, env.attemptId, request, key, reply == MatchAccepted)
  {
    hide Call, KnownKey, TaskFor, Proposal, OnlyRebinds, KeepsSettled, WellKeyed, MatchIdOf, Refusal;
    hide LockTaken, LockFailed, Recorded, WithAccept;
    if Refusal(w, request, env).Some? {
      RefusalRecords(w, key, env.attemptId, request, Refusal(w, request, env).value.0);
    } else {
      RefusalFinds(w, request, env);
      LocksRecord(w, key, env.attemptId, request, TaskFor(w.tasks, request.buyOrderId).value,
                  Proposal(env.proposals, MatchIdOf(request)).value,
                  Call(w.orders, Orders.Lock, request.sellOrderId, env.lock).0);
    }
  }

  lemma FreshKey(w: World, key: Option<string>, request: AcceptRequest)
    requires LedgerOk(w) && KnownKey(w, key, request).None? && key.Some?
    ensures key.value !in w.ledger
  {
  }

  lemma RecordKeepsLedger(w: World, v: World, id: string, request: AcceptRequest, key: Option<string>, committed: bool)
    requires LedgerOk(w) && id !in w.accepts && Recorded(w, v, id, request, key, committed)
    requires key.Some? ==> key.value !in w.ledger
    ensures LedgerOk(v) && LedgerKept(w, v)
  {
  }

  lemma AcceptKeepsLedger(w: World, key: Option<string>, request: AcceptRequest, env: AcceptEnv)
    requires LedgerOk(w) && env.attemptId !in w.accepts
    ensures var v := AcceptHandled(w, key, request, env).0;
            LedgerOk(v) && LedgerKept(w, v)
  {
    hide AcceptHandled, KnownKey, LedgerOk, Recorded, OnlyRebinds, KeepsSettled, WellKeyed;
    AcceptRecords(w, key, request, env);
    if KnownKey(w, key, request).None? {
      if key.Some? {
        FreshKey(w, key, request);
      }
      var (v, reply) := AcceptHandled(w, key, request, env);
      RecordKeepsLedger(w, v, env.attemptId, request, key, reply == MatchAccepted);
    }
  }

  lemma ModeSwitchedKeepsLedger(w: World, mode: Mode, net: Deliveries)
    requires LedgerOk(w)
    ensures LedgerOk(ModeSwitched(w, mode, net)) && LedgerKept(w, ModeSwitched(w, mode, net))
  {
    hide MatchesReleased, InterruptedAll, InFlight, OnlyRebinds, KeepsSettled, WellKeyed;
  }

  lemma NextKeepsLedger(w: World, step: Step)
    requires LedgerOk(w)
    ensures LedgerOk(Next(w, step)) && LedgerKept(w, Next(w, step))
  {
    hide AcceptHandled, ModeSwitched, OnlyRebinds, KeepsSettled, WellKeyed, Polled, Recovered, Reaped, MatchIdOf;
    if step.Accept? {
      if step.acceptEnv.attemptId !in w.accepts {
        AcceptKeepsLedger(w, step.key, step.request, step.acceptEnv);
      }
    } else if step.SwitchMode? {
      ModeSwitchedKeepsLedger(w, step.mode, step.net);
    } else {
      AcceptsLeft(w, step);
      hide Next;
    }
  }

  lemma LedgerKeptTransitive(u: World, v: World, w: World)
    requires LedgerKept(u, v) && LedgerKept(v, w)
    ensures LedgerKept(u, w)
  {
  }

  lemma {:induction false} RunKeepsLedger(w: World, steps: seq<Step>)
    requires LedgerOk(w)
    ensures LedgerOk(Run(w, steps)) && LedgerKept(w, Run(w, steps))
  {
    if steps != [] {
      hide LedgerOk, LedgerKept, Next;
      var before := Run(w, steps[..|steps| - 1]);
      RunKeepsLedger(w, steps[..|steps| - 1]);
      NextKeepsLedger(before, steps[|steps| - 1]);
      LedgerKeptTransitive(w, before, Run(w, steps));
    }
  }

  /** Over every run, whatever happens between: a key leads to a committed accept attempt for good. */
  lemma KeysAreNeverRebound(w: World, steps: seq<Step>, more: seq<Step>)
    requires Initial(w)
    ensures LedgerOk(Run(w, steps))
    ensures LedgerKept(Run(w, steps), Run(w, steps + more))
  {
    hide Next, LedgerKept;
    hide Initial, LedgerOk;
    InitialLedger(w);
    RunKeepsLedger(w, steps);
    RunKeepsLedger(Run(w, steps), more);
    RunConcat(w, steps, more);
  }

  lemma InitialLedger(w: World)
    requires Initial(w)
    ensures LedgerOk(w)
  {
  }

  lemma {:induction false} RunConcat(w: World, steps: seq<Step>, more: seq<Step>)
    ensures Run(w, steps + more) == Run(Run(w, steps), more)
  {
    hide Next;
    if more == [] {
      assert steps + more == steps;
    } else {
      var n := |more| - 1;
      assert (steps + more)[..|steps| + n] == steps + more[..n];
      RunConcat(w, steps, more[..n]);
    }
  }

  /**
   * A client that repeats its request under the same key, however much later, is told that the match is accepted and
   * changes nothing; under the same key a different request is refused and changes nothing either.
   */
  lemma RepeatingAnAccept(w: World, key: string, request: AcceptRequest, env: AcceptEnv, steps: seq<Step>,
                          again: AcceptRequest, later: AcceptEnv)
    requires LedgerOk(w) && env.attemptId !in w.accepts
    requires AcceptHandled(w, Some(key), request, env).1 == MatchAccepted
    ensures var v := Run(AcceptHandled(w, Some(key), request, env).0, steps);
            AcceptHandled(v, Some(key), again, later) ==
              (v, if again == request then AlreadyAccepted else IdempotencyConflict)
  {
    hide Run, Call, TaskFor, Proposal, OnlyRebinds, KeepsSettled, WellKeyed, MatchIdOf, Refusal, AcceptHandled;
    var u := AcceptHandled(w, Some(key), request, env).0;
    AcceptKeepsLedger(w, Some(key), request, env);
    AcceptRecordsKey(w, key, request, env);
    RunKeepsLedger(u, steps);
    KnownKeyAnswers(Run(u, steps), key, request, again, later);
  }

  lemma AcceptRecordsKey(w: World, key: string, request: AcceptRequest, env: AcceptEnv)
    requires AcceptHandled(w, Some(key), request, env).1 == MatchAccepted
    ensures var u := AcceptHandled(w, Some(key), request, env).0;
            && key in u.ledger && u.ledger[key] == env.attemptId
            && env.attemptId in u.accepts && u.accepts[env.attemptId] == AcceptAttempt(request, AcceptCommitted)
  {
    hide AcceptHandled, KnownKey;
    AcceptRecords(w, Some(key), request, env);
    NotKnown(w, Some(key), request, env);
  }

  lemma NotKnown(w: World, key: Option<string>, request: AcceptRequest, env: AcceptEnv)
    requires AcceptHandled(w, key, request, env).1 == MatchAccepted
    ensures KnownKey(w, key, request) == None && Refusal(w, request, env) == None
  {
    hide Call, KnownKey, TaskFor, Proposal, OnlyRebinds, KeepsSettled, WellKeyed, MatchIdOf, Refusal;
  }

  lemma KnownKeyAnswers(v: World, key: string, request: AcceptRequest, again: AcceptRequest, later: AcceptEnv)
    requires key in v.ledger && v.ledger[key] in v.accepts
    requires v.accepts[v.ledger[key]] == AcceptAttempt(request, AcceptCommitted)
    ensures AcceptHandled(v, Some(key), again, later) ==
              (v, if again == request then AlreadyAccepted else IdempotencyConflict)
  {
    hide Call, TaskFor, Proposal, OnlyRebinds, KeepsSettled, WellKeyed, MatchIdOf, Refusal;
  }
}
