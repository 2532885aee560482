/** What the reaper leaves behind: `run_reaper_tick` of apps/agentd/src/main.rs. */
module Reaper {
  import opened Settlement
  import opened Agent

  /** An accepted or settling match belongs to an existing, running task. */
  ghost predicate MatchesHaveTasks(w: World) {
    forall m :: m in w.bindings && Active(w.bindings[m]) ==>
      w.bindings[m].taskId in w.tasks && w.tasks[w.bindings[m].taskId].running
  }

  /** A locked order belongs to an accepted or settling match. */
  ghost predicate LocksHaveMatches(w: World) {
    && (forall o :: o in w.lockedBuys ==> OfBuy(w.bindings, ActiveMatches(w), o))
    && (forall o :: o in w.lockedSells ==> OfSell(w.bindings, ActiveMatches(w), o))
  }

  predicate SameTasks(w: World, v: World) {
    && v.tasks.Keys == w.tasks.Keys
    && forall t :: t in w.tasks ==> v.tasks[t].running == w.tasks[t].running
  }

  /** The matches of `ids` are over, the others as they were. */
  predicate Over(w: World, v: World, ids: set<string>) {
    && v.bindings.Keys == w.bindings.Keys
    && forall m :: m in w.bindings ==>
         v.bindings[m] == if m in ids then w.bindings[m].(status := MatchExpired) else w.bindings[m]
  }

  lemma ReleasedOver(w: World, ids: set<string>, net: Deliveries)
    ensures var v := MatchesReleased(w, ids, MatchExpired, net);
            Over(w, v, ids) && SameTasks(w, v)
  {
    hide Frees, Unbinds, OfBuy, OfSell;
  }

  lemma StoppedAreOver(w: World, v: World)
    requires Over(w, v, StoppedMatches(w)) && SameTasks(w, v)
    ensures forall m :: m in v.bindings && Active(v.bindings[m]) && v.bindings[m].taskId in v.tasks ==>
              v.tasks[v.bindings[m].taskId].running
  {
  }

  lemma OrphansAreOver(w: World, v: World)
    requires Over(w, v, OrphanMatches(w)) && SameTasks(w, v)
    requires forall m :: m in w.bindings && Active(w.bindings[m]) && w.bindings[m].taskId in w.tasks ==>
               w.tasks[w.bindings[m].taskId].running
    ensures MatchesHaveTasks(v)
  {
  }

  lemma LocksReleased(w: World, ids: set<string>, net: Deliveries, o: string)
    ensures var v := MatchesReleased(w, ids, MatchExpired, net);
            && (o in v.lockedBuys <==> o in w.lockedBuys && !OfBuy(w.bindings, ids, o))
            && (o in v.lockedSells <==> o in w.lockedSells && !OfSell(w.bindings, ids, o))
  {
    hide Frees, Unbinds, OfBuy, OfSell;
  }

  lemma ActiveHaveTasks(w: World, o: string)
    requires MatchesHaveTasks(w)
    ensures OfBuy(w.bindings, ActiveMatches(w), o) ==> OfBuy(w.bindings, TaskMatches(w), o)
    ensures OfSell(w.bindings, ActiveMatches(w), o) ==> OfSell(w.bindings, TaskMatches(w), o)
  {
    assert ActiveMatches(w) <= TaskMatches(w);
  }

  /** When the provider is offline every task's match is over, so that no lock is left. */
  lemma OfflineSweep(w: World, net: Deliveries)
    requires MatchesHaveTasks(w) && LocksHaveMatches(w)
    ensures var v := MatchesReleased(w, TaskMatches(w), MatchExpired, net);
            MatchesHaveTasks(v) && v.lockedBuys == {} && v.lockedSells == {} && LocksHaveMatches(v)
  {
    ReleasedOver(w, TaskMatches(w), net);
    hide MatchesReleased, OfBuy, OfSell;
    var v := MatchesReleased(w, TaskMatches(w), MatchExpired, net);
    assert MatchesHaveTasks(v);
    forall o ensures o !in v.lockedBuys && o !in v.lockedSells {
      LocksReleased(w, TaskMatches(w), net, o);
      ActiveHaveTasks(w, o);
    }
  }

  lemma ReapedLocks(w: World)
    ensures LocksHaveMatches(LocksReaped(w))
  {
    assert ActiveMatches(LocksReaped(w)) == ActiveMatches(w);
    hide OfBuy, OfSell;
  }

  lemma LocksReapedTasks(w: World)
    requires MatchesHaveTasks(w)
    ensures MatchesHaveTasks(LocksReaped(w))
  {
    hide LocksReaped;
  }

  /**
   * After every tick each accepted or settling match belongs to an existing running task, and each locked order to such
   * a match, also when the provider-offline sweep comes last.
   */
  lemma AfterEveryTick(w: World, env: ReaperEnv)
    ensures MatchesHaveTasks(Reaped(w, env)) && LocksHaveMatches(Reaped(w, env))
  {
    hide MatchesReleased, LocksReaped, MatchesHaveTasks, LocksHaveMatches, UnstuckAll, StoppedMatches, OrphanMatches, TaskMatches;
    var cleaned := MatchesReleased(w, StoppedMatches(w), MatchExpired, env.stopped);
    ReleasedOver(w, StoppedMatches(w), env.stopped);
    StoppedAreOver(w, cleaned);
    var unstuck := StuckDetected(cleaned);
    var adopted := MatchesReleased(unstuck, OrphanMatches(unstuck), MatchExpired, env.orphans);
    ReleasedOver(unstuck, OrphanMatches(unstuck), env.orphans);
    OrphansAreOver(unstuck, adopted);
    ReapedLocks(adopted);
    LocksReapedTasks(adopted);
    OfflineSweep(LocksReaped(adopted), env.offline);
  }

  /** No lock is ever added, and no match is brought back. */
  lemma TickOnlyReleases(w: World, env: ReaperEnv)
    ensures var v := Reaped(w, env);
            && v.lockedBuys <= w.lockedBuys && v.lockedSells <= w.lockedSells
            && v.bindings.Keys == w.bindings.Keys
            && forall m :: m in v.bindings && Active(v.bindings[m]) ==> v.bindings[m] == w.bindings[m]
  {
    var cleaned := MatchesReleased(w, StoppedMatches(w), MatchExpired, env.stopped);
    ReleasedShrinks(w, StoppedMatches(w), env.stopped);
    var unstuck := StuckDetected(cleaned);
    ReleasedShrinks(unstuck, OrphanMatches(unstuck), env.orphans);
    var reaped := LocksReaped(MatchesReleased(unstuck, OrphanMatches(unstuck), MatchExpired, env.orphans));
    ReleasedShrinks(reaped, TaskMatches(reaped), env.offline);
    hide MatchesReleased, LocksReaped, UnstuckAll, StoppedMatches, OrphanMatches, TaskMatches;
  }

  lemma ReleasedShrinks(w: World, ids: set<string>, net: Deliveries)
    ensures var v := MatchesReleased(w, ids, MatchExpired, net);
            && v.lockedBuys <= w.lockedBuys && v.lockedSells <= w.lockedSells
            && v.bindings.Keys == w.bindings.Keys
            && forall m :: m in v.bindings && Active(v.bindings[m]) ==> v.bindings[m] == w.bindings[m]
  {
    hide Frees, Unbinds, OfBuy, OfSell;
  }

  /** The matches a tick releases, apart from the provider-offline sweep. */
  function ReleasedMatches(w: World): set<string> {
    StoppedMatches(w) + OrphanMatches(w)
  }

  /** A match is active after the tick exactly when it was and is not released. */
  lemma StaysActive(w: World, env: ReaperEnv, m: string)
    requires !env.offlineSeen && m in w.bindings
    ensures m in Reaped(w, env).bindings
    ensures Active(Reaped(w, env).bindings[m]) <==> Active(w.bindings[m]) && m !in ReleasedMatches(w)
  {
    hide MatchesReleased, StoppedMatches, OrphanMatches, UnstuckAll, SameTasks, OfSell, OfBuy, Frees;
    var stopped := StoppedMatches(w);
    var unstuck := StuckDetected(MatchesReleased(w, stopped, MatchExpired, env.stopped));
    ReleasedOver(w, stopped, env.stopped);
    ReleasedOver(unstuck, OrphanMatches(unstuck), env.orphans);
    SameOrders(w, unstuck, stopped, env.orphans, "");
  }

  /**
   * An active match can lose its locks to the reaper: releasing a finished match of a stopped task, or a rejected match of
   * no task, also unlocks the orders it shares with others. Each lock is kept exactly when no released match shares it.
   */
  lemma LockSurvives(w: World, env: ReaperEnv, m: string)
    requires !env.offlineSeen && m in w.bindings && Active(w.bindings[m]) && m !in ReleasedMatches(w)
    ensures w.bindings[m].sellOrderId in w.lockedSells ==>
              (w.bindings[m].sellOrderId in Reaped(w, env).lockedSells <==>
                 !OfSell(w.bindings, ReleasedMatches(w), w.bindings[m].sellOrderId))
    ensures w.bindings[m].buyOrderId in w.lockedBuys ==>
              (w.bindings[m].buyOrderId in Reaped(w, env).lockedBuys <==>
                 !OfBuy(w.bindings, ReleasedMatches(w), w.bindings[m].buyOrderId))
  {
    hide MatchesReleased, StoppedMatches, OrphanMatches, UnstuckAll, SameTasks, OfSell, OfBuy, Frees;
    var o, p := w.bindings[m].sellOrderId, w.bindings[m].buyOrderId;
    var stopped := StoppedMatches(w);
    var cleaned := MatchesReleased(w, stopped, MatchExpired, env.stopped);
    var unstuck := StuckDetected(cleaned);
    var orphans := OrphanMatches(unstuck);
    var adopted := MatchesReleased(unstuck, orphans, MatchExpired, env.orphans);
    StaysActive(w, env, m);
    ReleasedOver(w, stopped, env.stopped);
    ReleasedOver(unstuck, orphans, env.orphans);
    LocksReleased(w, stopped, env.stopped, o);
    LocksReleased(unstuck, orphans, env.orphans, o);
    LocksReleased(w, stopped, env.stopped, p);
    LocksReleased(unstuck, orphans, env.orphans, p);
    SameOrders(w, unstuck, stopped, env.orphans, o);
    SameOrders(w, unstuck, stopped, env.orphans, p);
    assert o in adopted.lockedSells <==> o in w.lockedSells && !OfSell(w.bindings, ReleasedMatches(w), o);
    assert p in adopted.lockedBuys <==> p in w.lockedBuys && !OfBuy(w.bindings, ReleasedMatches(w), p);
    assert adopted.bindings[m] == w.bindings[m];
    ActiveIsOfBoth(adopted, m);
  }

  /** So it keeps both locks exactly when it shares neither of its orders with a released match. */
  lemma BothLocksSurvive(w: World, env: ReaperEnv, m: string)
    requires !env.offlineSeen && m in w.bindings && Active(w.bindings[m]) && m !in ReleasedMatches(w)
    requires w.bindings[m].sellOrderId in w.lockedSells && w.bindings[m].buyOrderId in w.lockedBuys
    ensures var b, v := w.bindings[m], Reaped(w, env);
            b.sellOrderId in v.lockedSells && b.buyOrderId in v.lockedBuys <==>
              && !OfSell(w.bindings, ReleasedMatches(w), b.sellOrderId)
              && !OfBuy(w.bindings, ReleasedMatches(w), b.buyOrderId)
  {
    hide Reaped, ReleasedMatches, OfSell, OfBuy;
    LockSurvives(w, env, m);
  }

  /**
   * What the tick does to the provider's order of an active match: it is opened, unless settled, exactly when the release
   * call of a released match that shares it arrives.
   */
  lemma SharedOrderOpened(w: World, env: ReaperEnv, m: string)
    requires !env.offlineSeen && m in w.bindings && w.bindings[m].sellOrderId in w.orders
    ensures var o := w.bindings[m].sellOrderId;
            && o in Reaped(w, env).orders
            && Reaped(w, env).orders[o] ==
                 if Frees(w.bindings, StoppedMatches(w), env.stopped, o) || Frees(w.bindings, OrphanMatches(w), env.orphans, o)
                 then Freed(w.orders[o]) else w.orders[o]
  {
    hide MatchesReleased, StoppedMatches, OrphanMatches, UnstuckAll, OfSell, OfBuy, Frees;
    var o := w.bindings[m].sellOrderId;
    var stopped := StoppedMatches(w);
    var unstuck := StuckDetected(MatchesReleased(w, stopped, MatchExpired, env.stopped));
    ReleasedOver(w, stopped, env.stopped);
    SameOrders(w, unstuck, stopped, env.orphans, o);
    OrdersReleased(w, stopped, env.stopped, o);
    OrdersReleased(unstuck, OrphanMatches(unstuck), env.orphans, o);
  }

  lemma OrdersReleased(w: World, ids: set<string>, net: Deliveries, o: string)
    requires o in w.orders
    ensures var v := MatchesReleased(w, ids, MatchExpired, net);
            o in v.orders && v.orders[o] == if Frees(w.bindings, ids, net, o) then Freed(w.orders[o]) else w.orders[o]
  {
    hide Frees, BuysLeft, SellsLeft, UnboundTasks, Ended;
  }

  lemma ActiveIsOfBoth(w: World, m: string)
    requires m in w.bindings && Active(w.bindings[m])
    ensures OfSell(w.bindings, ActiveMatches(w), w.bindings[m].sellOrderId)
    ensures OfBuy(w.bindings, ActiveMatches(w), w.bindings[m].buyOrderId)
  {
  }

  lemma SameOrders(w: World, v: World, ids: set<string>, net: Deliveries, o: string)
    requires Over(w, v, ids) && v.tasks.Keys == w.tasks.Keys
    ensures OrphanMatches(v) == OrphanMatches(w)
    ensures OfSell(v.bindings, OrphanMatches(w), o) <==> OfSell(w.bindings, OrphanMatches(w), o)
    ensures OfBuy(v.bindings, OrphanMatches(w), o) <==> OfBuy(w.bindings, OrphanMatches(w), o)
    ensures Frees(v.bindings, OrphanMatches(w), net, o) <==> Frees(w.bindings, OrphanMatches(w), net, o)
    ensures OfSell(w.bindings, ids + OrphanMatches(w), o) <==>
              OfSell(w.bindings, ids, o) || OfSell(w.bindings, OrphanMatches(w), o)
    ensures OfBuy(w.bindings, ids + OrphanMatches(w), o) <==>
              OfBuy(w.bindings, ids, o) || OfBuy(w.bindings, OrphanMatches(w), o)
  {
  }
}
