/** The work bills stand for: what a window owes against the price of its match, summed over trades. */
module Work {
  import opened Market
  import opened Billing
  import opened Settlement
  import opened Agent
  import opened Bills
  import opened Replay
  import opened Totals
  import Documents
  import Exits
  import Windows

  /** The amounts differ by at most `n` halves of a millionth. */
  predicate Within(x: real, y: real, n: real) {
    -0.5 * n <= (x - y) * MICRO <= 0.5 * n
  }

  /** What so much work comes to at the price. */
  function Worth(work: real, price: real): real {
    work * price
  }

  lemma WorthAdds(x: real, y: real, price: real)
    ensures Worth(x + y, price) == Worth(x, price) + Worth(y, price)
    ensures Worth(x - y, price) == Worth(x, price) - Worth(y, price)
    ensures Worth(x + 1.0, price) == Worth(x, price) + price
  {
  }

  lemma WorthOrders(x: real, y: real, price: real)
    requires price > 0.0
    ensures Worth(x, price) >= Worth(y, price) <==> x >= y
  {
    WorthAdds(x, y, price);
    if x >= y {
      NonNegative(x - y, price);
    } else {
      Positively(y - x, price);
      WorthAdds(y, x, price);
    }
  }

  lemma NonNegative(x: real, price: real)
    requires x >= 0.0 && price > 0.0
    ensures Worth(x, price) >= 0.0
  {
  }

  lemma Positively(x: real, price: real)
    requires x > 0.0 && price > 0.0
    ensures Worth(x, price) > 0.0
  {
  }

  lemma Scaled(x: real, y: real, price: real)
    requires price > 0.0 && Within(x, y, 1.0)
    ensures Within(Worth(x, price), Worth(y, price), price)
  {
    var d := (x - y) * MICRO;
    NonNegative(0.5 - d, price);
    NonNegative(d + 0.5, price);
    WorthAdds(x, y, price);
    assert Worth(0.5 - d, price) == 0.5 * price - Worth(x - y, price) * MICRO;
    assert Worth(d + 0.5, price) == 0.5 * price + Worth(x - y, price) * MICRO;
  }

  lemma Quotient(owed: real, price: real)
    requires price > 0.0
    ensures Worth(owed / price, price) == owed
  {
  }

  /**
   * A bill's work is what its window owes at the price of the match, to within half a millionth of the price; without a
   * price it is the amount itself, in millionths. What it bills is the amount in millionths.
   */
  lemma WorkOfBill(attemptId: string, tradeId: string, w: Charge, unitPrice: real, interval: nat)
    ensures var b := NewBill(attemptId, tradeId, w, unitPrice, interval);
            && (if unitPrice > 0.0 then Within(Worth(b.compute, unitPrice), w.owed, unitPrice) else b.compute == Round(w.owed))
            && Within(b.gross, w.owed, 1.0)
  {
    hide Round, Worth;
    RoundError(w.owed);
    if unitPrice > 0.0 {
      var work := w.owed / unitPrice;
      Quotient(w.owed, unitPrice);
      RoundError(work);
      Scaled(Round(work), work, unitPrice);
    }
  }

  // ---- What a pass delivers ----

  /** The windows that have no bill yet. */
  function Fresh(bills: seq<Bill>, tradeId: string, windows: seq<Charge>, interval: nat): seq<Charge> {
    if windows == [] then []
    else
      var n := |windows| - 1;
      Fresh(bills, tradeId, windows[..n], interval) +
      if HasBill(bills, BillingWindowKey(tradeId, windows[n].windowIndex, interval)) then [] else [windows[n]]
  }

  lemma OneMoreDelivers(bills: seq<Bill>, b: Bill)
    ensures Delivered(bills + [b], b.tradeId) == Delivered(bills, b.tradeId) + b.compute
  {
    assert (bills + [b])[..|bills|] == bills;
  }

  /** Billing windows adds the work they owe for, of those not billed before. */
  lemma {:induction false} BillingDelivers(bills: seq<Bill>, attemptId: string, tradeId: string, windows: seq<Charge>,
                                           unitPrice: real, interval: nat)
    requires unitPrice > 0.0 && DistinctIndexes(windows)
    ensures var unbilled := Fresh(bills, tradeId, windows, interval);
            var after := Upserted(bills, attemptId, tradeId, windows, unitPrice, interval);
            Within(Worth(Delivered(after, tradeId) - Delivered(bills, tradeId), unitPrice), Sum(unbilled),
                   Worth(|unbilled| as real, unitPrice))
  {
    hide BillingWindowKey, HasBill, NewBill, Delivered, Sum, Worth;
    if windows == [] {
      NothingOwed();
      NothingWorth(unitPrice);
    } else {
      var n := |windows| - 1;
      BillingDelivers(bills, attemptId, tradeId, windows[..n], unitPrice, interval);
      OtherKeys(bills, attemptId, tradeId, windows[..n], unitPrice, interval, windows[n].windowIndex);
      var earlier := Upserted(bills, attemptId, tradeId, windows[..n], unitPrice, interval);
      var unbilled := Fresh(bills, tradeId, windows[..n], interval);
      var bill := NewBill(attemptId, tradeId, windows[n], unitPrice, interval);
      NewBillFiled(attemptId, tradeId, windows[n], unitPrice, interval);
      assert bill.billId == BillingWindowKey(tradeId, windows[n].windowIndex, interval);
      WorkOfBill(attemptId, tradeId, windows[n], unitPrice, interval);
      OneMoreDelivers(earlier, bill);
      OneMoreOwes(unbilled, windows[n]);
      var delivered := Delivered(earlier, tradeId) - Delivered(bills, tradeId);
      WithinAdds(Worth(delivered, unitPrice), Sum(unbilled), Worth(|unbilled| as real, unitPrice),
                 Worth(bill.compute, unitPrice), windows[n].owed, unitPrice);
      WorthAdds(delivered, bill.compute, unitPrice);
      WorthAdds(|unbilled| as real, 0.0, unitPrice);
      if HasBill(bills, bill.billId) {
        assert Upserted(bills, attemptId, tradeId, windows, unitPrice, interval) == earlier;
        assert Fresh(bills, tradeId, windows, interval) == unbilled;
      } else {
        assert Upserted(bills, attemptId, tradeId, windows, unitPrice, interval) == earlier + [bill];
        assert Fresh(bills, tradeId, windows, interval) == unbilled + [windows[n]];
        assert |unbilled + [windows[n]]| as real == |unbilled| as real + 1.0;
      }
    }
  }

  lemma NewBillFiled(attemptId: string, tradeId: string, w: Charge, unitPrice: real, interval: nat)
    ensures var b := NewBill(attemptId, tradeId, w, unitPrice, interval);
            b.tradeId == tradeId && b.billId == BillingWindowKey(tradeId, w.windowIndex, interval)
  {
  }

  lemma WithinAdds(x: real, y: real, m: real, u: real, v: real, n: real)
    requires Within(x, y, m) && Within(u, v, n)
    ensures Within(x + u, y + v, m + n)
  {
  }

  lemma NothingWorth(price: real)
    ensures Worth(0.0, price) == 0.0
  {
  }

  lemma SameWork(x: seq<Bill>, y: seq<Bill>, tradeId: string)
    requires SameBills(x, y)
    ensures Delivered(x, tradeId) == Delivered(y, tradeId) && Gross(x, tradeId) == Gross(y, tradeId)
  {
    SameComputeDelivers(x, y, tradeId);
    SameGrossBills(x, y, tradeId);
  }

  lemma {:induction false} SameGrossBills(x: seq<Bill>, y: seq<Bill>, tradeId: string)
    requires |x| == |y| && forall i :: 0 <= i < |x| ==> x[i].tradeId == y[i].tradeId && x[i].gross == y[i].gross
    ensures Gross(x, tradeId) == Gross(y, tradeId)
  {
    if x != [] {
      SameGrossBills(x[..|x| - 1], y[..|y| - 1], tradeId);
    }
  }

  /**
   * In every reachable state a pass, however it ends, adds to its trade the work its windows owe for at the price of the
   * match, of those not billed before: to within half a millionth of the price each.
   */
  lemma PassDelivers(w0: World, steps: seq<Step>, taskId: string, attemptId: string, env: SettleEnv)
    requires Initial(w0)
    requires var w := Run(w0, steps);
             && Settleable(w, taskId) && attemptId !in w.attempts && w.bindings[w.tasks[taskId].bound.value].unitPrice > 0.0
    ensures var w := Run(w0, steps);
            var task, t := w.tasks[taskId], PassDone(w, taskId, attemptId, env).tasks[taskId];
            var b := w.bindings[task.bound.value];
            var unbilled := Fresh(task.bills, b.matchId, Drained(task), task.interval);
            Within(Worth(Delivered(t.bills, b.matchId) - Delivered(task.bills, b.matchId), b.unitPrice), Sum(unbilled),
                   Worth(|unbilled| as real, b.unitPrice))
  {
    hide Run, Initial, SettleScene, Upserted, Delivered, Sum, Fresh, Billed, SameBills, DistinctIndexes, Within, Worth;
    var w := Run(w0, steps);
    var task := w.tasks[taskId];
    var b := w.bindings[task.bound.value];
    RunBilled(w0, steps);
    Windows.RunConserves(w0, steps);
    Documents.FreshAttempt(w, taskId, attemptId);
    var s := Opening(taskId, task, attemptId, b, w.orders);
    SettleKeeps(s, Drained(task), taskId, attemptId, env);
    SameWork(s.task.bills, SettleScene(s, Drained(task), taskId, attemptId, env).task.bills, b.matchId);
    BillingDelivers(task.bills, attemptId, b.matchId, Drained(task), b.unitPrice, task.interval);
  }

  /**
   * So a pass that runs to its end also ends its trade if what was delivered before and what the windows owe together reach
   * the commitment at the price of the match, and does not if they miss it, unless by no more than the rounding.
   */
  lemma EndsWhenDelivered(w0: World, steps: seq<Step>, taskId: string, attemptId: string, env: SettleEnv)
    requires Initial(w0)
    requires var w := Run(w0, steps);
             && Settleable(w, taskId) && attemptId !in w.attempts && w.bindings[w.tasks[taskId].bound.value].unitPrice > 0.0
    ensures var w := Run(w0, steps);
            var task, t := w.tasks[taskId], PassDone(w, taskId, attemptId, env).tasks[taskId];
            var b := w.bindings[task.bound.value];
            var unbilled := Fresh(task.bills, b.matchId, Drained(task), task.interval);
            var due := Worth(Delivered(task.bills, b.matchId), b.unitPrice) + Sum(unbilled) - Worth(b.workUnits, b.unitPrice);
            var slack := 0.5 * Worth(|unbilled| as real, b.unitPrice);
            && (due * MICRO >= slack && b.workUnits > 0.0 ==> Delivers(t, b))
            && (due * MICRO < -slack || b.workUnits <= 0.0 ==> !Delivers(t, b))
            && (PassEndsTrade(w.orders, b, env, t) <==>
                  Exits.ExitOf(w.orders, b.sellOrderId, env) == Exits.Completed && Delivers(t, b))
  {
    hide Run, Initial, SettleScene, Opening, Drained, Delivered, Sum, Fresh, Exits.ExitOf, Worth, Within;
    PassDelivers(w0, steps, taskId, attemptId, env);
    var w := Run(w0, steps);
    var task, t := w.tasks[taskId], PassDone(w, taskId, attemptId, env).tasks[taskId];
    var b := w.bindings[task.bound.value];
    var unbilled := Fresh(task.bills, b.matchId, Drained(task), task.interval);
    Compared(Delivered(t.bills, b.matchId), Delivered(task.bills, b.matchId), Sum(unbilled),
             Worth(|unbilled| as real, b.unitPrice), b.workUnits, b.unitPrice);
  }

  lemma Compared(after: real, before: real, owed: real, slack: real, units: real, price: real)
    requires price > 0.0 && Within(Worth(after - before, price), owed, slack)
    ensures var due := Worth(before, price) + owed - Worth(units, price);
            && (due * MICRO >= 0.5 * slack ==> after >= units)
            && (due * MICRO < -0.5 * slack ==> after < units)
  {
    hide Worth;
    WorthAdds(after, before, price);
    WorthOrders(after, units, price);
  }

  // ---- A trade at one price ----

  /** The bill's work at the price is what it bills, to within half a millionth of the price and half a millionth. */
  predicate PricedAt(b: Bill, price: real) {
    Within(Worth(b.compute, price), b.gross, price + 1.0)
  }

  ghost predicate AllPriced(bills: seq<Bill>, tradeId: string, price: real) {
    forall i :: 0 <= i < |bills| && bills[i].tradeId == tradeId ==> PricedAt(bills[i], price)
  }

  lemma {:induction false} PricedTrade(bills: seq<Bill>, tradeId: string, price: real)
    requires AllPriced(bills, tradeId, price)
    ensures Within(Worth(Delivered(bills, tradeId), price), Gross(bills, tradeId), Worth(CountOf(bills, tradeId) as real, price + 1.0))
  {
    hide Worth;
    NothingWorth(price);
    NothingWorth(price + 1.0);
    if bills != [] {
      var n := |bills| - 1;
      PricedTrade(bills[..n], tradeId, price);
      if bills[n].tradeId == tradeId {
        var d, g, k := Delivered(bills[..n], tradeId), Gross(bills[..n], tradeId), CountOf(bills[..n], tradeId) as real;
        WithinAdds(Worth(d, price), g, Worth(k, price + 1.0), Worth(bills[n].compute, price), bills[n].gross, price + 1.0);
        WorthAdds(d, bills[n].compute, price);
        WorthAdds(k, 0.0, price + 1.0);
      }
    }
  }

  lemma NewBillPriced(attemptId: string, tradeId: string, w: Charge, price: real, interval: nat)
    requires price > 0.0
    ensures PricedAt(NewBill(attemptId, tradeId, w, price, interval), price)
  {
    hide NewBill, Worth;
    WorkOfBill(attemptId, tradeId, w, price, interval);
  }

  lemma {:induction false} BillingPrices(bills: seq<Bill>, attemptId: string, tradeId: string, windows: seq<Charge>,
                                         unitPrice: real, interval: nat, trade: string, price: real)
    requires AllPriced(bills, trade, price) && price > 0.0 && (tradeId == trade ==> unitPrice == price)
    ensures AllPriced(Upserted(bills, attemptId, tradeId, windows, unitPrice, interval), trade, price)
  {
    hide PricedAt, HasBill, NewBill;
    if windows != [] {
      var n := |windows| - 1;
      BillingPrices(bills, attemptId, tradeId, windows[..n], unitPrice, interval, trade, price);
      NewBillFiled(attemptId, tradeId, windows[n], unitPrice, interval);
      if tradeId == trade {
        NewBillPriced(attemptId, tradeId, windows[n], price, interval);
      }
    }
  }

  lemma SameBillsPriced(x: seq<Bill>, y: seq<Bill>, trade: string, price: real)
    requires AllPriced(x, trade, price) && SameBills(x, y)
    ensures AllPriced(y, trade, price)
  {
  }

  /** The match, if there is one of that name, has the price. */
  predicate PricedMatch(w: World, trade: string, price: real) {
    trade in w.bindings ==> w.bindings[trade].unitPrice == price
  }

  lemma PassPrices(w: World, taskId: string, attemptId: string, env: SettleEnv, trade: string, price: real)
    requires Settleable(w, taskId) && WellKeyed(w.bindings) && PricedMatch(w, trade, price) && price > 0.0
    requires AllPriced(w.tasks[taskId].bills, trade, price)
    ensures AllPriced(PassDone(w, taskId, attemptId, env).tasks[taskId].bills, trade, price)
  {
    hide SettleScene, Upserted, SameBills, AllPriced;
    if attemptId !in w.attempts {
      var task := w.tasks[taskId];
      var b := w.bindings[task.bound.value];
      var s := Opening(taskId, task, attemptId, b, w.orders);
      BillingPrices(task.bills, attemptId, b.matchId, Drained(task), b.unitPrice, task.interval, trade, price);
      SettleKeeps(s, Drained(task), taskId, attemptId, env);
      SameBillsPriced(s.task.bills, SettleScene(s, Drained(task), taskId, attemptId, env).task.bills, trade, price);
    }
  }

  lemma PollPrices(w: World, step: Step, taskId: string, trade: string, price: real)
    requires step.Poll? && WellKeyed(w.bindings) && PricedMatch(w, trade, price) && price > 0.0
    requires taskId in w.tasks && AllPriced(w.tasks[taskId].bills, trade, price)
    ensures var v := Polled(w, step.taskId, step.report, step.attemptId, step.env);
            taskId in v.tasks && AllPriced(v.tasks[taskId].bills, trade, price)
  {
    hide PassScene, AllPriced, Admits, WellKeyed;
    if step.taskId in w.tasks {
      assert Admitted(w.tasks[step.taskId], step.report).bills == w.tasks[step.taskId].bills;
      hide Admitted;
      var u := w.(tasks := w.tasks[step.taskId := Admitted(w.tasks[step.taskId], step.report)]);
      if Admits(w.tasks[step.taskId], step.report) && Settleable(u, step.taskId) && step.taskId == taskId {
        PassPrices(u, taskId, step.attemptId, step.env, trade, price);
      }
    }
  }

  /**
   * Over every run in which the match keeps its price: the work delivered in its trade is worth what was billed, to within
   * half a millionth of the price and half a millionth for each bill.
   */
  lemma TradeDelivers(w: World, steps: seq<Step>, taskId: string, trade: string, price: real)
    requires Initial(w) && taskId in Run(w, steps).tasks && price > 0.0
    requires forall k :: 0 <= k <= |steps| ==> PricedMatch(Run(w, steps[..k]), trade, price)
    ensures var bills := Run(w, steps).tasks[taskId].bills;
            Within(Worth(Delivered(bills, trade), price), Gross(bills, trade), Worth(CountOf(bills, trade) as real, price + 1.0))
  {
    hide Run, Initial, Delivered, Gross, CountOf, Worth;
    RunPrices(w, steps, taskId, trade, price);
    PricedTrade(Run(w, steps).tasks[taskId].bills, trade, price);
  }

  lemma {:induction false} RunPrices(w: World, steps: seq<Step>, taskId: string, trade: string, price: real)
    requires Initial(w) && taskId in Run(w, steps).tasks && price > 0.0
    requires forall k :: 0 <= k <= |steps| ==> PricedMatch(Run(w, steps[..k]), trade, price)
    ensures AllPriced(Run(w, steps).tasks[taskId].bills, trade, price)
  {
    hide Next, AllPriced, PricedMatch;
    if steps == [] {
      FreshPriced(w, taskId, trade, price);
    } else {
      var n := |steps| - 1;
      var before, step := Run(w, steps[..n]), steps[n];
      forall k | 0 <= k <= n ensures PricedMatch(Run(w, steps[..n][..k]), trade, price) {
        assert steps[..n][..k] == steps[..k];
      }
      assert PricedMatch(before, trade, price);
      RunBilled(w, steps[..n]);
      hide Billed, Run;
      BilledIsKeyed(before);
      TasksStay(before, step);
      RunPrices(w, steps[..n], taskId, trade, price);
      NextPrices(before, step, taskId, trade, price);
      assert Run(w, steps) == Next(before, step) by {
        LastStep(w, steps);
      }
    }
  }

  lemma LastStep(w: World, steps: seq<Step>)
    requires steps != []
    ensures Run(w, steps) == Next(Run(w, steps[..|steps| - 1]), steps[|steps| - 1])
  {
    hide Next;
  }

  lemma BilledIsKeyed(w: World)
    requires Billed(w)
    ensures WellKeyed(w.bindings)
  {
  }

  lemma FreshPriced(w: World, taskId: string, trade: string, price: real)
    requires Initial(w) && taskId in w.tasks
    ensures AllPriced(w.tasks[taskId].bills, trade, price)
  {
    assert NewTask(w.tasks[taskId]);
  }

  lemma TasksStay(w: World, step: Step)
    ensures Next(w, step).tasks.Keys == w.tasks.Keys
  {
    hide Next, Polled;
    if step.Poll? {
      PollStep(w, step);
      PollKeepsTasks(w, step);
    } else {
      OnlyPollsPay(w, step);
    }
  }

  lemma PollKeepsTasks(w: World, step: Step)
    requires step.Poll?
    ensures Polled(w, step.taskId, step.report, step.attemptId, step.env).tasks.Keys == w.tasks.Keys
  {
    hide PassScene, Admitted, Admits;
  }

  lemma NextPrices(w: World, step: Step, taskId: string, trade: string, price: real)
    requires WellKeyed(w.bindings) && PricedMatch(w, trade, price) && price > 0.0
    requires taskId in w.tasks && AllPriced(w.tasks[taskId].bills, trade, price)
    ensures taskId in Next(w, step).tasks && AllPriced(Next(w, step).tasks[taskId].bills, trade, price)
  {
    hide Next, Polled, AllPriced, PricedMatch, WellKeyed;
    if step.Poll? {
      PollStep(w, step);
      PollPrices(w, step, taskId, trade, price);
    } else {
      NextKeepsBills(w, step);
      KeptBills(w, Next(w, step), taskId);
      SameBillsPriced(w.tasks[taskId].bills, Next(w, step).tasks[taskId].bills, trade, price);
    }
  }

  lemma KeptBills(w: World, v: World, taskId: string)
    requires KeepsBills(w, v) && taskId in w.tasks
    ensures taskId in v.tasks && SameBills(w.tasks[taskId].bills, v.tasks[taskId].bills)
  {
    hide Sound, SameBills;
  }
}
