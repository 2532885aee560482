/** When recovery can repeat a failed create_invoice: the bills against the windows they were made for. */
module Replay {
  import opened Wrappers
  import opened Market
  import opened Billing
  import opened Orders
  import opened Settlement

  /** The windows that have no bill yet, as their new bills record them: in millionths. */
  function Remembered(bills: seq<Bill>, tradeId: string, windows: seq<Charge>, interval: nat): seq<Charge> {
    if windows == [] then []
    else
      var n := |windows| - 1;
      var w := windows[n];
      Remembered(bills, tradeId, windows[..n], interval) +
      if HasBill(bills, BillingWindowKey(tradeId, w.windowIndex, interval)) then [] else [Charge(w.windowIndex, Round(w.owed))]
  }

  predicate Unbilled(bills: seq<Bill>, tradeId: string, windows: seq<Charge>, interval: nat) {
    forall i :: 0 <= i < |windows| ==> !HasBill(bills, BillingWindowKey(tradeId, windows[i].windowIndex, interval))
  }

  predicate SomeUnbilled(bills: seq<Bill>, tradeId: string, windows: seq<Charge>, interval: nat) {
    exists i :: 0 <= i < |windows| && !HasBill(bills, BillingWindowKey(tradeId, windows[i].windowIndex, interval))
  }

  ghost predicate DistinctIndexes(windows: seq<Charge>) {
    forall i, j :: 0 <= i < j < |windows| ==> windows[i].windowIndex != windows[j].windowIndex
  }

  predicate NoBillsOf(bills: seq<Bill>, attemptId: string) {
    forall i :: 0 <= i < |bills| ==> bills[i].attemptId != attemptId
  }

  lemma {:induction false} NothingToReplay(bills: seq<Bill>, attemptId: string)
    requires NoBillsOf(bills, attemptId)
    ensures ReplayWindows(bills, attemptId) == []
  {
    if bills != [] {
      NothingToReplay(bills[..|bills| - 1], attemptId);
    }
  }

  /** What the attempt's own bills bill. */
  function OwnGross(bills: seq<Bill>, attemptId: string): real {
    if bills == [] then 0.0
    else
      var n := |bills| - 1;
      OwnGross(bills[..n], attemptId) + if bills[n].attemptId == attemptId then bills[n].gross else 0.0
  }

  function OwnCount(bills: seq<Bill>, attemptId: string): nat {
    if bills == [] then 0
    else OwnCount(bills[..|bills| - 1], attemptId) + if bills[|bills| - 1].attemptId == attemptId then 1 else 0
  }

  lemma OneMoreOwes(windows: seq<Charge>, w: Charge)
    ensures Sum(windows + [w]) == Sum(windows) + w.owed
  {
    assert (windows + [w])[..|windows|] == windows;
  }

  /** Whatever became of the bills, a replay has a window for each of the attempt's own, and asks for what they billed at first. */
  lemma {:induction false} ReplayAsksGross(bills: seq<Bill>, attemptId: string)
    ensures |ReplayWindows(bills, attemptId)| == OwnCount(bills, attemptId)
    ensures Sum(ReplayWindows(bills, attemptId)) == OwnGross(bills, attemptId)
  {
    if bills != [] {
      var n := |bills| - 1;
      var earlier := ReplayWindows(bills[..n], attemptId);
      ReplayAsksGross(bills[..n], attemptId);
      OneMoreOwes(earlier, Charge(bills[n].windowIndex, bills[n].gross));
      hide Sum;
      assert earlier + [] == earlier;
    }
  }

  /** Each of its bills is among the windows of a replay. */
  lemma {:induction false} ReplayAsksEach(bills: seq<Bill>, attemptId: string, i: nat)
    requires i < |bills| && bills[i].attemptId == attemptId
    ensures Charge(bills[i].windowIndex, bills[i].gross) in ReplayWindows(bills, attemptId)
  {
    var n := |bills| - 1;
    if i < n {
      ReplayAsksEach(bills[..n], attemptId, i);
    }
  }

  /** A key that belongs to none of the windows is billed after them exactly if it was before. */
  lemma {:induction false} OtherKeys(bills: seq<Bill>, attemptId: string, tradeId: string, windows: seq<Charge>,
                                     unitPrice: real, interval: nat, index: nat)
    requires forall i :: 0 <= i < |windows| ==> windows[i].windowIndex != index
    ensures var key := BillingWindowKey(tradeId, index, interval);
            HasBill(Upserted(bills, attemptId, tradeId, windows, unitPrice, interval), key) <==> HasBill(bills, key)
  {
    if windows != [] {
      var n := |windows| - 1;
      OtherKeys(bills, attemptId, tradeId, windows[..n], unitPrice, interval, index);
      var earlier := Upserted(bills, attemptId, tradeId, windows[..n], unitPrice, interval);
      var bill := NewBill(attemptId, tradeId, windows[n], unitPrice, interval);
      var key := BillingWindowKey(tradeId, index, interval);
      if bill.billId == key {
        BillingWindowKeyInjective(tradeId, index, interval, tradeId, windows[n].windowIndex, interval);
      }
      hide BillingWindowKey, Round;
      OneMoreBill(earlier, bill, key);
    }
  }

  lemma OneMoreBill(bills: seq<Bill>, bill: Bill, key: string)
    ensures HasBill(bills + [bill], key) <==> HasBill(bills, key) || bill.billId == key
  {
    var more := bills + [bill];
    assert more[|bills|] == bill;
    assert forall i :: 0 <= i < |bills| ==> more[i] == bills[i];
  }

  /** What the bills of a new attempt remember is what `Remembered` says. */
  lemma {:induction false} BillsRemember(bills: seq<Bill>, attemptId: string, tradeId: string, windows: seq<Charge>,
                                         unitPrice: real, interval: nat)
    requires NoBillsOf(bills, attemptId) && DistinctIndexes(windows)
    ensures ReplayWindows(Upserted(bills, attemptId, tradeId, windows, unitPrice, interval), attemptId) ==
              Remembered(bills, tradeId, windows, interval)
  {
    if windows == [] {
      NothingToReplay(bills, attemptId);
    } else {
      var n := |windows| - 1;
      BillsRemember(bills, attemptId, tradeId, windows[..n], unitPrice, interval);
      OtherKeys(bills, attemptId, tradeId, windows[..n], unitPrice, interval, windows[n].windowIndex);
      var earlier := Upserted(bills, attemptId, tradeId, windows[..n], unitPrice, interval);
      var bill := NewBill(attemptId, tradeId, windows[n], unitPrice, interval);
      hide BillingWindowKey, Round, HasBill;
      assert (earlier + [bill])[..|earlier|] == earlier;
    }
  }

  /** A window that is billed already is not remembered, so the attempt remembers fewer windows than it was made for. */
  lemma {:induction false} RememberedAll(bills: seq<Bill>, tradeId: string, windows: seq<Charge>, interval: nat)
    ensures |Remembered(bills, tradeId, windows, interval)| <= |windows|
    ensures |Remembered(bills, tradeId, windows, interval)| == |windows| <==> Unbilled(bills, tradeId, windows, interval)
    ensures Unbilled(bills, tradeId, windows, interval) ==>
              forall i :: 0 <= i < |windows| ==>
                Remembered(bills, tradeId, windows, interval)[i] == Charge(windows[i].windowIndex, Round(windows[i].owed))
  {
    hide HasBill, BillingWindowKey, Round;
    if windows != [] {
      RememberedAll(bills, tradeId, windows[..|windows| - 1], interval);
    }
  }

  lemma NoneUnbilled(bills: seq<Bill>, tradeId: string, interval: nat)
    ensures !SomeUnbilled(bills, tradeId, [], interval)
  {
  }

  lemma LastUnbilled(bills: seq<Bill>, tradeId: string, windows: seq<Charge>, interval: nat)
    requires windows != []
    ensures var n := |windows| - 1;
            SomeUnbilled(bills, tradeId, windows, interval) <==>
              || SomeUnbilled(bills, tradeId, windows[..n], interval)
              || !HasBill(bills, BillingWindowKey(tradeId, windows[n].windowIndex, interval))
  {
    hide HasBill, BillingWindowKey;
    var n := |windows| - 1;
    assert forall i :: 0 <= i < n ==> windows[..n][i] == windows[i];
  }

  /** Something is remembered exactly when some window had no bill. */
  lemma {:induction false} RememberedSome(bills: seq<Bill>, tradeId: string, windows: seq<Charge>, interval: nat)
    ensures Remembered(bills, tradeId, windows, interval) != [] <==> SomeUnbilled(bills, tradeId, windows, interval)
  {
    hide HasBill, BillingWindowKey, Round, SomeUnbilled;
    if windows == [] {
      NoneUnbilled(bills, tradeId, interval);
    } else {
      var n := |windows| - 1;
      RememberedSome(bills, tradeId, windows[..n], interval);
      LastUnbilled(bills, tradeId, windows, interval);
    }
  }

  /** The bills give create_invoice windows to invoice, and the same payload as before if there was one. */
  predicate Invoiceable(attemptId: string, a: Attempt, task: Task) {
    var windows := ReplayWindows(task.bills, attemptId);
    windows != [] && (a.payload.None? || a.payload.value == CreateInvoiceRequest(a.taskId, task, windows))
  }

  /** The charges rounded to millionths. */
  function Rounded(windows: seq<Charge>): seq<Charge> {
    seq(|windows|, i requires 0 <= i < |windows| => Charge(windows[i].windowIndex, Round(windows[i].owed)))
  }

  /**
   * A replayed create_invoice carries the payload of the first try, and so is not refused as a conflict, exactly when no
   * window of the attempt had been billed before and rounding the owed amounts does not change their sum.
   */
  lemma ReplayAgrees(taskId: string, task: Task, attemptId: string, tradeId: string, windows: seq<Charge>, unitPrice: real)
    requires NoBillsOf(task.bills, attemptId) && DistinctIndexes(windows)
    ensures var billed := task.(bills := Upserted(task.bills, attemptId, tradeId, windows, unitPrice, task.interval));
            CreateInvoiceRequest(taskId, billed, ReplayWindows(billed.bills, attemptId)) ==
              CreateInvoiceRequest(taskId, billed, windows) <==>
            Unbilled(task.bills, tradeId, windows, task.interval) && Sum(Rounded(windows)) == Sum(windows)
  {
    hide Remembered, ReplayWindows, Upserted, Round, Sum, BillingWindowKey, HasBill;
    BillsRemember(task.bills, attemptId, tradeId, windows, unitPrice, task.interval);
    RememberedAll(task.bills, tradeId, windows, task.interval);
    var remembered := Remembered(task.bills, tradeId, windows, task.interval);
    if Unbilled(task.bills, tradeId, windows, task.interval) {
      assert remembered == Rounded(windows);
      assert Indexes(remembered) == Indexes(windows);
    } else {
      assert |Indexes(remembered)| != |Indexes(windows)|;
    }
  }

  /**
   * So with a willing gateway, recovery of an attempt whose create_invoice failed succeeds exactly then; otherwise every
   * one of its runs fails.
   */
  lemma RecoveryCanInvoice(taskId: string, task: Task, attemptId: string, windows: seq<Charge>, unitPrice: real, a: Attempt,
                           orders: map<string, OrderStatus>, env: StageEnv)
    requires NoBillsOf(task.bills, attemptId) && DistinctIndexes(windows) && windows != []
    requires !env.blocked && env.answer.Confirmed?
    requires a.stage == CreateInvoice && a.invoiceId == None && a.taskId == taskId
    requires var billed := task.(bills := Upserted(task.bills, attemptId, a.matchId, windows, unitPrice, task.interval));
             a.payload == Some(CreateInvoiceRequest(taskId, billed, windows))
    ensures var billed := task.(bills := Upserted(task.bills, attemptId, a.matchId, windows, unitPrice, task.interval));
            RunStage(attemptId, a, Some(billed), orders, env).ok <==>
            Unbilled(task.bills, a.matchId, windows, task.interval) && Sum(Rounded(windows)) == Sum(windows)
  {
    hide Remembered, ReplayWindows, Upserted, CreateInvoiceRequest, Unbilled, Rounded, Sum, Advanced, Billing.Invoice, Contained;
    ReplayAgrees(taskId, task, attemptId, a.matchId, windows, unitPrice);
    BillsRemember(task.bills, attemptId, a.matchId, windows, unitPrice, task.interval);
    RememberedAll(task.bills, a.matchId, windows, task.interval);
  }

  // ---- Which attempt a window is billed to ----

  /** The attempt has a bill under the key. */
  predicate HasOwnBill(bills: seq<Bill>, key: string, attemptId: string) {
    exists i :: 0 <= i < |bills| && bills[i].billId == key && bills[i].attemptId == attemptId
  }

  lemma OneMoreOwnBill(bills: seq<Bill>, bill: Bill, key: string, attemptId: string)
    ensures HasOwnBill(bills + [bill], key, attemptId) <==>
              HasOwnBill(bills, key, attemptId) || (bill.billId == key && bill.attemptId == attemptId)
  {
    var more := bills + [bill];
    assert more[|bills|] == bill;
    assert forall i :: 0 <= i < |bills| ==> more[i] == bills[i];
  }

  predicate HasWindow(windows: seq<Charge>, index: nat) {
    exists i :: 0 <= i < |windows| && windows[i].windowIndex == index
  }

  /** A new attempt gets a bill for exactly those of its windows that had none. */
  lemma {:induction false} OwnBills(bills: seq<Bill>, attemptId: string, tradeId: string, windows: seq<Charge>,
                                    unitPrice: real, interval: nat, index: nat)
    requires NoBillsOf(bills, attemptId) && DistinctIndexes(windows)
    ensures var key := BillingWindowKey(tradeId, index, interval);
            HasOwnBill(Upserted(bills, attemptId, tradeId, windows, unitPrice, interval), key, attemptId) <==>
              HasWindow(windows, index) && !HasBill(bills, key)
  {
    if windows != [] {
      var n := |windows| - 1;
      var w := windows[n];
      var key := BillingWindowKey(tradeId, index, interval);
      var earlier := Upserted(bills, attemptId, tradeId, windows[..n], unitPrice, interval);
      var bill := NewBill(attemptId, tradeId, w, unitPrice, interval);
      OwnBills(bills, attemptId, tradeId, windows[..n], unitPrice, interval, index);
      OtherKeys(bills, attemptId, tradeId, windows[..n], unitPrice, interval, w.windowIndex);
      if bill.billId == key {
        BillingWindowKeyInjective(tradeId, index, interval, tradeId, w.windowIndex, interval);
      }
      hide BillingWindowKey, Round, HasBill, HasOwnBill;
      OneMoreOwnBill(earlier, bill, key, attemptId);
      LastWindow(windows, index);
    }
  }

  lemma LastWindow(windows: seq<Charge>, index: nat)
    requires windows != []
    ensures HasWindow(windows, index) <==>
              HasWindow(windows[..|windows| - 1], index) || windows[|windows| - 1].windowIndex == index
  {
    var n := |windows| - 1;
    assert forall i :: 0 <= i < n ==> windows[..n][i] == windows[i];
  }
}
