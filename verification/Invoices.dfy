/** Merging receipts into invoices: `InvoiceAggregator` of crates/metering/src/settlement.rs. */
module Invoices {
  import opened Wrappers
  import opened Receipts

  datatype MergePolicy = Merge30s | Merge60s

  function WindowCount(policy: MergePolicy): nat {
    match policy
    case Merge30s => 2
    case Merge60s => 4
  }

  datatype Invoice = Invoice(
    jobId: string,
    windowIndexes: seq<nat>,
    totalOwed: real,
    receiptHashes: seq<string>)

  datatype CrossJobMerge = CrossJobMerge(expectedJob: string, actualJob: string)

  type Answer = Result<Option<Invoice>, CrossJobMerge>

  function TotalOwed(receipts: seq<Receipt>): real {
    if receipts == [] then 0.0
    else TotalOwed(receipts[..|receipts| - 1]) + receipts[|receipts| - 1].owedWindow
  }

  function BuildInvoice(receipts: seq<Receipt>): Invoice {
    Invoice(
      if receipts == [] then "" else receipts[0].input.jobId,
      seq(|receipts|, i requires 0 <= i < |receipts| => receipts[i].input.windowIndex),
      TotalOwed(receipts),
      seq(|receipts|, i requires 0 <= i < |receipts| => receipts[i].receiptHash))
  }

  predicate OneJob(receipts: seq<Receipt>) {
    forall i :: 0 <= i < |receipts| ==> receipts[i].input.jobId == receipts[0].input.jobId
  }

  // ---- The aggregator's meaning ----

  /** The receipts are refused exactly when the buffer holds another job's. */
  predicate Refused(buffered: seq<Receipt>, receipt: Receipt) {
    buffered != [] && buffered[0].input.jobId != receipt.input.jobId
  }

  function Ingested(policy: MergePolicy, buffered: seq<Receipt>, receipt: Receipt): (r: (seq<Receipt>, Answer)) {
    if Refused(buffered, receipt) then
      (buffered, Err(CrossJobMerge(buffered[0].input.jobId, receipt.input.jobId)))
    else if |buffered| + 1 == WindowCount(policy) then
      ([], Ok(Some(BuildInvoice(buffered + [receipt]))))
    else
      (buffered + [receipt], Ok(None))
  }

  class InvoiceAggregator {
    const policy: MergePolicy
    var buffered: seq<Receipt>
    var bufferedJob: Option<string>

    ghost predicate Valid()
      reads this
    {
      && |buffered| < WindowCount(policy)
      && OneJob(buffered)
      && bufferedJob == if buffered == [] then None else Some(buffered[0].input.jobId)
    }

    constructor (policy: MergePolicy)
      ensures Valid() && this.policy == policy && buffered == []
    {
      this.policy := policy;
      buffered := [];
      bufferedJob := None;
    }

    method Ingest(receipt: Receipt) returns (r: Answer)
      requires Valid()
      modifies this
      ensures Valid()
      ensures (buffered, r) == Ingested(policy, old(buffered), receipt)
    {
      match bufferedJob {
        case Some(job) =>
          if job != receipt.input.jobId {
            return Err(CrossJobMerge(job, receipt.input.jobId));
          }
        case None =>
          bufferedJob := Some(receipt.input.jobId);
      }
      buffered := buffered + [receipt];
      if |buffered| == WindowCount(policy) {
        var invoice := BuildInvoice(buffered);
        buffered := [];
        bufferedJob := None;
        r := Ok(Some(invoice));
      } else {
        r := Ok(None);
      }
    }
  }

  // ---- Whole runs ----

  datatype Run = Run(buffered: seq<Receipt>, accepted: seq<Receipt>, invoices: seq<Invoice>)

  function Fed(policy: MergePolicy, run: Run, receipt: Receipt): Run {
    var (buffered, answer) := Ingested(policy, run.buffered, receipt);
    match answer
    case Err(_) => run
    case Ok(None) => Run(buffered, run.accepted + [receipt], run.invoices)
    case Ok(Some(invoice)) => Run(buffered, run.accepted + [receipt], run.invoices + [invoice])
  }

  /** The state after feeding `receipts` to a new aggregator, with what it accepted and what it emitted. */
  function RunOf(policy: MergePolicy, receipts: seq<Receipt>): Run {
    if receipts == [] then Run([], [], [])
    else Fed(policy, RunOf(policy, receipts[..|receipts| - 1]), receipts[|receipts| - 1])
  }

  /** The receipts `i * count` up to `(i + 1) * count`. */
  function Group(policy: MergePolicy, accepted: seq<Receipt>, i: nat): seq<Receipt>
    requires (i + 1) * WindowCount(policy) <= |accepted|
  {
    accepted[i * WindowCount(policy)..(i + 1) * WindowCount(policy)]
  }

  ghost predicate Accounted(policy: MergePolicy, run: Run) {
    && |run.accepted| == |run.invoices| * WindowCount(policy) + |run.buffered|
    && |run.buffered| < WindowCount(policy)
    && run.buffered == run.accepted[|run.invoices| * WindowCount(policy)..]
    && OneJob(run.buffered)
    && forall i :: 0 <= i < |run.invoices| ==>
         && OneJob(Group(policy, run.accepted, i))
         && run.invoices[i] == BuildInvoice(Group(policy, run.accepted, i))
  }

  lemma GroupStable(policy: MergePolicy, accepted: seq<Receipt>, receipt: Receipt, i: nat, m: nat)
    requires i < m && m * WindowCount(policy) <= |accepted|
    ensures (i + 1) * WindowCount(policy) <= |accepted|
    ensures Group(policy, accepted + [receipt], i) == Group(policy, accepted, i)
  {
  }

  /** The buffered receipts and the next one are the next group, when they fill it. */
  lemma NextGroup(policy: MergePolicy, accepted: seq<Receipt>, buffered: seq<Receipt>, receipt: Receipt, m: nat)
    requires m * WindowCount(policy) <= |accepted| && buffered == accepted[m * WindowCount(policy)..]
    ensures (accepted + [receipt])[m * WindowCount(policy)..] == buffered + [receipt]
    ensures |buffered| + 1 == WindowCount(policy) ==>
              && (m + 1) * WindowCount(policy) == |accepted| + 1
              && Group(policy, accepted + [receipt], m) == buffered + [receipt]
  {
  }

  lemma FedCases(policy: MergePolicy, run: Run, receipt: Receipt)
    ensures var full := run.buffered + [receipt];
            Fed(policy, run, receipt) ==
              if Refused(run.buffered, receipt) then run
              else if |full| == WindowCount(policy) then
                Run([], run.accepted + [receipt], run.invoices + [BuildInvoice(full)])
              else Run(full, run.accepted + [receipt], run.invoices)
  {
    hide BuildInvoice, WindowCount;
  }

  lemma FedAccounted(policy: MergePolicy, run: Run, receipt: Receipt)
    requires Accounted(policy, run)
    ensures Accounted(policy, Fed(policy, run, receipt))
  {
    FedCases(policy, run, receipt);
    hide BuildInvoice, Group, Fed, WindowCount;
    var m := |run.invoices|;
    var accepted := run.accepted + [receipt];
    if !Refused(run.buffered, receipt) {
      NextGroup(policy, run.accepted, run.buffered, receipt, m);
      EmptyBuffer(policy);
      assert OneJob(run.buffered + [receipt]);
      hide OneJob;
      forall i | 0 <= i < m
        ensures (i + 1) * WindowCount(policy) <= |run.accepted|
        ensures Group(policy, accepted, i) == Group(policy, run.accepted, i)
      {
        GroupStable(policy, run.accepted, receipt, i, m);
      }
    }
  }

  lemma EmptyBuffer(policy: MergePolicy)
    ensures OneJob([]) && WindowCount(policy) > 0
  {
  }

  /**
   * After any receipts, the `i`-th invoice bills exactly the `i`-th group of two or four accepted receipts, all of
   * one job, and what is left over is the buffer, which never fills.
   */
  lemma {:induction false} EveryReceiptIsBilledOnce(policy: MergePolicy, receipts: seq<Receipt>)
    ensures Accounted(policy, RunOf(policy, receipts))
  {
    if receipts != [] {
      hide Fed;
      EveryReceiptIsBilledOnce(policy, receipts[..|receipts| - 1]);
      FedAccounted(policy, RunOf(policy, receipts[..|receipts| - 1]), receipts[|receipts| - 1]);
    }
  }

  /** Invoices are of two windows or of four. */
  function Windows(policy: MergePolicy): nat {
    if policy.Merge30s? then 2 else 4
  }

  /**
   * After any receipts, an invoice lists the windows and the receipt hashes of its group, in order, under the job of all of
   * them.
   */
  lemma InvoiceLists(policy: MergePolicy, receipts: seq<Receipt>, i: nat, k: nat)
    requires i < |RunOf(policy, receipts).invoices| && k < Windows(policy)
    ensures var run := RunOf(policy, receipts);
            && i * Windows(policy) + k < |run.accepted|
            && var r, invoice := run.accepted[i * Windows(policy) + k], run.invoices[i];
               && |invoice.windowIndexes| == Windows(policy) && |invoice.receiptHashes| == Windows(policy)
               && invoice.jobId == r.input.jobId
               && invoice.windowIndexes[k] == r.input.windowIndex && invoice.receiptHashes[k] == r.receiptHash
  {
    hide RunOf;
    EveryReceiptIsBilledOnce(policy, receipts);
    var run := RunOf(policy, receipts);
    assert OneJob(Group(policy, run.accepted, i)) && run.invoices[i] == BuildInvoice(Group(policy, run.accepted, i));
    assert Group(policy, run.accepted, i)[k] == run.accepted[i * WindowCount(policy) + k];
  }

  function InvoicedTotal(invoices: seq<Invoice>): real {
    if invoices == [] then 0.0
    else InvoicedTotal(invoices[..|invoices| - 1]) + invoices[|invoices| - 1].totalOwed
  }

  lemma {:induction false} TotalOwedConcat(a: seq<Receipt>, b: seq<Receipt>)
    ensures TotalOwed(a + b) == TotalOwed(a) + TotalOwed(b)
  {
    if b == [] {
      assert a + b == a;
    } else {
      TotalOwedConcat(a, b[..|b| - 1]);
      assert (a + b)[..|a + b| - 1] == a + b[..|b| - 1];
    }
  }

  predicate Balanced(run: Run) {
    InvoicedTotal(run.invoices) + TotalOwed(run.buffered) == TotalOwed(run.accepted)
  }

  lemma FedBalanced(policy: MergePolicy, run: Run, receipt: Receipt)
    requires Balanced(run)
    ensures Balanced(Fed(policy, run, receipt))
  {
    FedCases(policy, run, receipt);
    hide Fed;
    var after := Fed(policy, run, receipt);
    TotalOwedConcat(run.accepted, [receipt]);
    TotalOwedConcat(run.buffered, [receipt]);
    assert TotalOwed([]) == 0.0;
    var invoice := BuildInvoice(run.buffered + [receipt]);
    assert invoice.totalOwed == TotalOwed(run.buffered + [receipt]);
    hide TotalOwed, BuildInvoice, WindowCount;
    if |after.invoices| > |run.invoices| {
      assert after.invoices == run.invoices + [invoice];
      assert after.invoices[..|run.invoices|] == run.invoices;
    }
  }

  /** No money appears or disappears: invoices and buffer together bill what the accepted receipts owe. */
  lemma {:induction false} InvoicedMoneyIsOwed(policy: MergePolicy, receipts: seq<Receipt>)
    ensures Balanced(RunOf(policy, receipts))
  {
    if receipts != [] {
      hide Fed, Balanced;
      InvoicedMoneyIsOwed(policy, receipts[..|receipts| - 1]);
      FedBalanced(policy, RunOf(policy, receipts[..|receipts| - 1]), receipts[|receipts| - 1]);
    } else {
      assert Balanced(Run([], [], []));
    }
  }

  /** The receipt is one the settlement made. */
  ghost predicate Genuine(r: Receipt) {
    exists previous :: r == Settled(r.input, previous)
  }

  /** What was metered, in sixtieths: work times price times the samples that count. */
  function Metered(receipts: seq<Receipt>): real {
    if receipts == [] then 0.0
    else
      var n := |receipts| - 1;
      var w := receipts[n].input;
      Metered(receipts[..n]) + w.workUnits * w.unitPrice * Counted(w.validSamples) as real
  }

  lemma {:induction false} OwedIsMetered(receipts: seq<Receipt>)
    requires forall i :: 0 <= i < |receipts| ==> Genuine(receipts[i])
    ensures TotalOwed(receipts) * 60.0 == Metered(receipts)
  {
    hide Settled, Counted;
    if receipts != [] {
      var n := |receipts| - 1;
      OwedIsMetered(receipts[..n]);
      var previous :| receipts[n] == Settled(receipts[n].input, previous);
      ReceiptOwes(receipts[n].input, previous);
    }
  }

  /** After any genuine receipts, each invoice bills a sixtieth of what was metered in its group of windows. */
  lemma InvoicesAreMetered(policy: MergePolicy, receipts: seq<Receipt>, i: nat)
    requires forall k :: 0 <= k < |receipts| ==> Genuine(receipts[k])
    requires i < |RunOf(policy, receipts).invoices|
    ensures var run := RunOf(policy, receipts);
            && (i + 1) * WindowCount(policy) <= |run.accepted|
            && run.invoices[i].totalOwed * 60.0 == Metered(Group(policy, run.accepted, i))
  {
    hide RunOf, Metered, TotalOwed, Genuine;
    var run := RunOf(policy, receipts);
    EveryReceiptIsBilledOnce(policy, receipts);
    AcceptedAreFed(policy, receipts);
    GroupFits(policy, run, i);
    OwedIsMetered(Group(policy, run.accepted, i));
  }

  lemma GroupFits(policy: MergePolicy, run: Run, i: nat)
    requires Accounted(policy, run) && i < |run.invoices|
    ensures (i + 1) * WindowCount(policy) <= |run.accepted|
  {
    hide BuildInvoice, OneJob;
  }

  lemma {:induction false} AcceptedAreFed(policy: MergePolicy, receipts: seq<Receipt>)
    requires forall k :: 0 <= k < |receipts| ==> Genuine(receipts[k])
    ensures forall k :: 0 <= k < |RunOf(policy, receipts).accepted| ==> Genuine(RunOf(policy, receipts).accepted[k])
  {
    hide Genuine, Fed;
    if receipts != [] {
      var n := |receipts| - 1;
      AcceptedAreFed(policy, receipts[..n]);
      FedCases(policy, RunOf(policy, receipts[..n]), receipts[n]);
    }
  }

  /** A receipt of another job than the buffered ones is refused with the two jobs, for no other reason, and changes nothing. */
  lemma CrossJobReceipt(policy: MergePolicy, receipts: seq<Receipt>, receipt: Receipt)
    ensures var before := RunOf(policy, receipts);
            var answer := Ingested(policy, before.buffered, receipt).1;
            && (Refused(before.buffered, receipt) <==> RunOf(policy, receipts + [receipt]) == before)
            && (Refused(before.buffered, receipt) <==> answer.Err?)
            && (answer.Err? ==>
                  && answer.error.actualJob == receipt.input.jobId && answer.error.expectedJob != receipt.input.jobId
                  && forall i :: 0 <= i < |before.buffered| ==> before.buffered[i].input.jobId == answer.error.expectedJob)
  {
    var all := receipts + [receipt];
    assert all[..|all| - 1] == receipts;
    EveryReceiptIsBilledOnce(policy, receipts);
    var before := RunOf(policy, receipts);
    assert OneJob(before.buffered);
    hide Accounted, BuildInvoice;
    if !Refused(before.buffered, receipt) {
      assert |RunOf(policy, all).accepted| == |before.accepted| + 1;
    }
  }
}
