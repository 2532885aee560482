/** Payment reconciliation at the provider: `reconcile_payment` of apps/providerd/src/main.rs. */
module Reconcile {
  import opened Wrappers

  datatype Request = Request(
    jobId: string,
    invoiceId: string,
    paymentId: string,
    windowIndexes: seq<nat>,
    amountPaid: real)

  datatype Job = Job(
    reconciledPairs: map<string, string>,
    lastInvoice: Option<string>,
    lastPayment: Option<string>,
    totalConfirmedPaid: real,
    paidWindowIndexes: seq<nat>)

  const NEW_JOB := Job(map[], None, None, 0.0, [])

  datatype Reply =
    | GateClosed
    | JobNotFound
    | InvalidPayload
    | IdempotencyConflict
    | Confirmed(invoiceId: string, paymentId: string, totalConfirmedPaid: real)

  function ReconcileKey(req: Request): string {
    req.invoiceId + "::" + req.paymentId
  }

  predicate ValidPayload(req: Request) {
    req.windowIndexes != [] && req.amountPaid >= 0.0
  }

  function GetOrElse(o: Option<string>, default: string): string {
    match o
    case Some(s) => s
    case None => default
  }

  // ---- Duplicate-free lists ----

  /** The elements of `s` in the order in which they first occur. */
  function FirstSeen(s: seq<nat>): (r: seq<nat>)
    ensures forall x :: x in r <==> x in s
  {
    if s == [] then []
    else
      var n := |s| - 1;
      assert forall x :: x in s <==> x in s[..n] || x == s[n];
      if s[n] in s[..n] then FirstSeen(s[..n]) else FirstSeen(s[..n]) + [s[n]]
  }

  lemma {:induction false} FirstSeenNoDuplicates(s: seq<nat>)
    ensures forall i, j :: 0 <= i < j < |FirstSeen(s)| ==> FirstSeen(s)[i] != FirstSeen(s)[j]
  {
    if s != [] {
      FirstSeenNoDuplicates(s[..|s| - 1]);
    }
  }

  // ---- One request ----

  /** What a request does to its job, given the hash that identifies a payload. */
  function Reconciled(hash: Request -> string, job: Job, req: Request): (r: (Job, Reply)) {
    var key := ReconcileKey(req);
    if !ValidPayload(req) then (job, InvalidPayload)
    else if key in job.reconciledPairs then
      if job.reconciledPairs[key] == hash(req) then
        (job, Confirmed(
           GetOrElse(job.lastInvoice, req.invoiceId), GetOrElse(job.lastPayment, req.paymentId), job.totalConfirmedPaid))
      else
        (job, IdempotencyConflict)
    else
      var total := job.totalConfirmedPaid + req.amountPaid;
      (Job(
         job.reconciledPairs[key := hash(req)],
         Some(req.invoiceId),
         Some(req.paymentId),
         total,
         FirstSeen(job.paidWindowIndexes + req.windowIndexes)),
       Confirmed(req.invoiceId, req.paymentId, total))
  }

  predicate Distinct(s: seq<nat>) {
    forall i, j :: 0 <= i < j < |s| ==> s[i] != s[j]
  }

  lemma {:induction false} DistinctIsFirstSeen(s: seq<nat>)
    requires Distinct(s)
    ensures FirstSeen(s) == s
  {
    if s != [] {
      DistinctIsFirstSeen(s[..|s| - 1]);
    }
  }

  lemma FirstSeenSnoc(s: seq<nat>, x: nat)
    ensures FirstSeen(s + [x]) == if x in FirstSeen(s) then FirstSeen(s) else FirstSeen(s) + [x]
  {
    assert (s + [x])[..|s|] == s;
  }

  method AddPaidWindows(before: seq<nat>, windows: seq<nat>) returns (paid: seq<nat>)
    requires Distinct(before)
    ensures paid == FirstSeen(before + windows) && Distinct(paid)
  {
    hide FirstSeen;
    paid := before;
    DistinctIsFirstSeen(paid);
    assert before + windows[..0] == before;
    for i := 0 to |windows|
      invariant paid == FirstSeen(before + windows[..i])
    {
      FirstSeenSnoc(before + windows[..i], windows[i]);
      assert before + windows[..i + 1] == before + windows[..i] + [windows[i]];
      if windows[i] !in paid {
        paid := paid + [windows[i]];
      }
    }
    assert windows[..|windows|] == windows;
    FirstSeenNoDuplicates(before + windows);
  }

  class ProviderJobs {
    const payloadHash: Request -> string
    var jobs: map<string, Job>

    ghost predicate Valid()
      reads this
    {
      forall id :: id in jobs ==> Distinct(jobs[id].paidWindowIndexes)
    }

    constructor (payloadHash: Request -> string, jobIds: set<string>)
      ensures Valid() && this.payloadHash == payloadHash
      ensures jobs == map id | id in jobIds :: NEW_JOB
    {
      this.payloadHash := payloadHash;
      jobs := map id | id in jobIds :: NEW_JOB;
    }

    method ReconcilePayment(req: Request, gateOpen: bool) returns (reply: Reply)
      requires Valid()
      modifies this
      ensures Valid()
      ensures !gateOpen ==> reply == GateClosed && jobs == old(jobs)
      ensures gateOpen && req.jobId !in old(jobs) ==> reply == JobNotFound && jobs == old(jobs)
      ensures gateOpen && req.jobId in old(jobs) ==>
                var (job, answer) := Reconciled(payloadHash, old(jobs)[req.jobId], req);
                jobs == old(jobs)[req.jobId := job] && reply == answer
    {
      if !gateOpen {
        return GateClosed;
      }
      if req.jobId !in jobs {
        return JobNotFound;
      }
      var runtime := jobs[req.jobId];
      hide FirstSeen;
      assert jobs == jobs[req.jobId := runtime];
      if req.windowIndexes == [] || req.amountPaid < 0.0 {
        return InvalidPayload;
      }
      var key := ReconcileKey(req);
      var hash := payloadHash(req);
      if key in runtime.reconciledPairs {
        if runtime.reconciledPairs[key] == hash {
          return Confirmed(
              GetOrElse(runtime.lastInvoice, req.invoiceId),
              GetOrElse(runtime.lastPayment, req.paymentId),
              runtime.totalConfirmedPaid);
        }
        return IdempotencyConflict;
      }
      runtime := runtime.(reconciledPairs := runtime.reconciledPairs[key := hash]);
      runtime := runtime.(lastInvoice := Some(req.invoiceId), lastPayment := Some(req.paymentId));
      runtime := runtime.(totalConfirmedPaid := runtime.totalConfirmedPaid + req.amountPaid);
      var paid := AddPaidWindows(runtime.paidWindowIndexes, req.windowIndexes);
      runtime := runtime.(paidWindowIndexes := paid);
      jobs := jobs[req.jobId := runtime];
      reply := Confirmed(req.invoiceId, req.paymentId, runtime.totalConfirmedPaid);
    }
  }

  // ---- Any sequence of requests for one job ----

  function Run(hash: Request -> string, reqs: seq<Request>): Job {
    if reqs == [] then NEW_JOB
    else Reconciled(hash, Run(hash, reqs[..|reqs| - 1]), reqs[|reqs| - 1]).0
  }

  /** Request `i` is the first valid one for its key. */
  predicate Accepted(reqs: seq<Request>, i: nat)
    requires i < |reqs|
  {
    ValidPayload(reqs[i]) &&
    forall j :: 0 <= j < i && ValidPayload(reqs[j]) ==> ReconcileKey(reqs[j]) != ReconcileKey(reqs[i])
  }

  function AcceptedAmounts(reqs: seq<Request>): real {
    if reqs == [] then 0.0
    else
      var n := |reqs| - 1;
      AcceptedAmounts(reqs[..n]) + if Accepted(reqs, n) then reqs[n].amountPaid else 0.0
  }

  function AcceptedWindows(reqs: seq<Request>): seq<nat> {
    if reqs == [] then []
    else
      var n := |reqs| - 1;
      AcceptedWindows(reqs[..n]) + if Accepted(reqs, n) then reqs[n].windowIndexes else []
  }

  lemma {:induction false} FirstSeenAbsorbs(a: seq<nat>, b: seq<nat>)
    ensures FirstSeen(FirstSeen(a) + b) == FirstSeen(a + b)
  {
    if b == [] {
      assert FirstSeen(a) + b == FirstSeen(a) && a + b == a;
      FirstSeenNoDuplicates(a);
      DistinctIsFirstSeen(FirstSeen(a));
    } else {
      var n := |b| - 1;
      FirstSeenAbsorbs(a, b[..n]);
      assert (a + b)[..|a| + n] == a + b[..n];
      var f := FirstSeen(a);
      assert (f + b)[..|f| + n] == f + b[..n];
      assert b[n] in f + b[..n] <==> b[n] in a + b[..n];
    }
  }

  lemma {:induction false} KeysSeen(hash: Request -> string, reqs: seq<Request>, key: string)
    ensures key in Run(hash, reqs).reconciledPairs <==>
              exists j :: 0 <= j < |reqs| && ValidPayload(reqs[j]) && ReconcileKey(reqs[j]) == key
  {
    if reqs != [] {
      var n := |reqs| - 1;
      KeysSeen(hash, reqs[..n], key);
      assert key in Run(hash, reqs).reconciledPairs <==>
             key in Run(hash, reqs[..n]).reconciledPairs || (ValidPayload(reqs[n]) && ReconcileKey(reqs[n]) == key);
      if j :| 0 <= j < |reqs| && ValidPayload(reqs[j]) && ReconcileKey(reqs[j]) == key && j < n {
        assert reqs[..n][j] == reqs[j];
      }
    }
  }

  /**
   * Through any replays, conflicts and invalid payloads, whatever the hash: the total is the sum of the first valid
   * amount of each key, and the paid windows are those requests' windows, each listed once, where first seen.
   */
  lemma {:induction false} FirstAmountPerKeyCounts(hash: Request -> string, reqs: seq<Request>)
    ensures Run(hash, reqs).totalConfirmedPaid == AcceptedAmounts(reqs)
    ensures Run(hash, reqs).paidWindowIndexes == FirstSeen(AcceptedWindows(reqs))
  {
    if reqs != [] {
      var n := |reqs| - 1;
      var job := Run(hash, reqs[..n]);
      FirstAmountPerKeyCounts(hash, reqs[..n]);
      KeysSeen(hash, reqs[..n], ReconcileKey(reqs[n]));
      assert forall j :: 0 <= j < n ==> reqs[..n][j] == reqs[j];
      assert Accepted(reqs, n) <==> ValidPayload(reqs[n]) && ReconcileKey(reqs[n]) !in job.reconciledPairs;
      FirstSeenAbsorbs(AcceptedWindows(reqs[..n]), reqs[n].windowIndexes);
      assert AcceptedWindows(reqs[..n]) + [] == AcceptedWindows(reqs[..n]);
    }
  }

  /** Request `i` is the one whose payload counts for the key. */
  predicate Counts(reqs: seq<Request>, i: int, key: string) {
    0 <= i < |reqs| && Accepted(reqs, i) && ReconcileKey(reqs[i]) == key
  }

  /** The last request that was the first valid one of its key. */
  function LastAccepted(reqs: seq<Request>): Option<Request> {
    if reqs == [] then None
    else if Accepted(reqs, |reqs| - 1) then Some(reqs[|reqs| - 1])
    else LastAccepted(reqs[..|reqs| - 1])
  }

  lemma CountsEarlier(reqs: seq<Request>, i: int, n: nat, key: string)
    requires n <= |reqs| && i < n
    ensures Counts(reqs, i, key) <==> Counts(reqs[..n], i, key)
  {
    assert forall j :: 0 <= j < n ==> reqs[..n][j] == reqs[j];
  }

  lemma LastCounts(hash: Request -> string, reqs: seq<Request>)
    requires reqs != []
    ensures var n := |reqs| - 1;
            Accepted(reqs, n) <==>
              ValidPayload(reqs[n]) && ReconcileKey(reqs[n]) !in Run(hash, reqs[..n]).reconciledPairs
  {
    var n := |reqs| - 1;
    hide ReconcileKey, ValidPayload, Run;
    KeysSeen(hash, reqs[..n], ReconcileKey(reqs[n]));
    assert forall j :: 0 <= j < n ==> reqs[..n][j] == reqs[j];
  }

  /** The hash remembered for a key is that of the request that counts for it. */
  lemma {:induction false} HashRemembered(hash: Request -> string, reqs: seq<Request>, i: int, key: string)
    requires Counts(reqs, i, key)
    ensures key in Run(hash, reqs).reconciledPairs && Run(hash, reqs).reconciledPairs[key] == hash(reqs[i])
  {
    hide ReconcileKey, ValidPayload, FirstSeen;
    var n := |reqs| - 1;
    LastCounts(hash, reqs);
    if i < n {
      CountsEarlier(reqs, i, n, key);
      HashRemembered(hash, reqs[..n], i, key);
    }
  }

  /** The ids remembered are those of the last request that counted. */
  lemma {:induction false} IdsRemembered(hash: Request -> string, reqs: seq<Request>)
    ensures var job := Run(hash, reqs);
            match LastAccepted(reqs)
            case None => job.lastInvoice == None && job.lastPayment == None
            case Some(last) => job.lastInvoice == Some(last.invoiceId) && job.lastPayment == Some(last.paymentId)
  {
    hide ReconcileKey, ValidPayload, FirstSeen, Accepted;
    if reqs != [] {
      IdsRemembered(hash, reqs[..|reqs| - 1]);
      LastCounts(hash, reqs);
    }
  }

  /** A key that was seen has a request that counts for it. */
  lemma {:induction false} SomeCounts(reqs: seq<Request>, j: nat) returns (i: int)
    requires j < |reqs| && ValidPayload(reqs[j])
    ensures Counts(reqs, i, ReconcileKey(reqs[j]))
    decreases j
  {
    hide ReconcileKey, ValidPayload;
    if Accepted(reqs, j) {
      i := j;
    } else {
      var k :| 0 <= k < j && ValidPayload(reqs[k]) && ReconcileKey(reqs[k]) == ReconcileKey(reqs[j]);
      i := SomeCounts(reqs, k);
    }
  }

  lemma {:induction false} SomeAccepted(reqs: seq<Request>, i: int, key: string)
    requires Counts(reqs, i, key)
    ensures LastAccepted(reqs).Some?
  {
    hide ReconcileKey, ValidPayload;
    var n := |reqs| - 1;
    if !Accepted(reqs, n) {
      CountsEarlier(reqs, i, n, key);
      SomeAccepted(reqs[..n], i, key);
    }
  }

  /** A request is invalid exactly if it names no window or a negative amount. */
  lemma InvalidExactly(hash: Request -> string, reqs: seq<Request>, req: Request)
    ensures Reconciled(hash, Run(hash, reqs), req).1 == InvalidPayload <==> req.windowIndexes == [] || req.amountPaid < 0.0
  {
    hide ReconcileKey, Run, FirstSeen;
  }

  /** A valid request of a new key is confirmed with its own ids and counts. */
  lemma NewKeyIsConfirmed(hash: Request -> string, reqs: seq<Request>, req: Request)
    requires ValidPayload(req) && forall i :: !Counts(reqs, i, ReconcileKey(req))
    ensures Reconciled(hash, Run(hash, reqs), req).1 ==
              Confirmed(req.invoiceId, req.paymentId, AcceptedAmounts(reqs) + req.amountPaid)
    ensures AcceptedAmounts(reqs + [req]) == AcceptedAmounts(reqs) + req.amountPaid
  {
    hide ReconcileKey, Run, FirstSeen, ValidPayload, Counts, Accepted;
    var key := ReconcileKey(req);
    KeysSeen(hash, reqs, key);
    if j :| 0 <= j < |reqs| && ValidPayload(reqs[j]) && ReconcileKey(reqs[j]) == key {
      var i := SomeCounts(reqs, j);
    }
    FirstAmountPerKeyCounts(hash, reqs);
    LastCounts(hash, reqs + [req]);
    assert (reqs + [req])[..|reqs|] == reqs;
  }

  /**
   * A valid request of a known key is confirmed exactly if it has the hash of the request that counts for the key, with the
   * ids confirmed last and the unchanged total, and is a conflict otherwise; either way it does not count.
   */
  lemma KnownKeyIsCompared(hash: Request -> string, reqs: seq<Request>, req: Request, i: int)
    requires ValidPayload(req) && Counts(reqs, i, ReconcileKey(req))
    ensures LastAccepted(reqs).Some?
    ensures var last := LastAccepted(reqs).value;
            Reconciled(hash, Run(hash, reqs), req) ==
              (Run(hash, reqs),
               if hash(req) == hash(reqs[i]) then Confirmed(last.invoiceId, last.paymentId, AcceptedAmounts(reqs))
               else IdempotencyConflict)
  {
    hide ReconcileKey, Run, FirstSeen, ValidPayload, Counts, Accepted, LastAccepted, AcceptedAmounts;
    HashRemembered(hash, reqs, i, ReconcileKey(req));
    IdsRemembered(hash, reqs);
    SomeAccepted(reqs, i, ReconcileKey(req));
    FirstAmountPerKeyCounts(hash, reqs);
  }

  /** A second separator in the key, besides the one between the two ids. */
  predicate HasAnotherSplit(a: Request) {
    var key := ReconcileKey(a);
    exists k :: 0 <= k < |key| - 1 && key[k] == ':' && key[k + 1] == ':' && k != |a.invoiceId|
  }

  /** Another pair of ids has the same key, so that its payment is not counted, exactly when the key splits twice. */
  lemma KeysCollide(a: Request)
    ensures HasAnotherSplit(a) <==>
              exists b: Request ::
                (b.invoiceId, b.paymentId) != (a.invoiceId, a.paymentId) && ReconcileKey(b) == ReconcileKey(a)
  {
    var key := ReconcileKey(a);
    if HasAnotherSplit(a) {
      var k :| 0 <= k < |key| - 1 && key[k] == ':' && key[k + 1] == ':' && k != |a.invoiceId|;
      var b := a.(invoiceId := key[..k], paymentId := key[k + 2..]);
      assert (b.invoiceId, b.paymentId) != (a.invoiceId, a.paymentId);
      assert ReconcileKey(b) == key;
    }
    if b: Request :| (b.invoiceId, b.paymentId) != (a.invoiceId, a.paymentId) && ReconcileKey(b) == key {
      var k := |b.invoiceId|;
      assert key[..k] == b.invoiceId && key[k + 2..] == b.paymentId;
      assert key[..|a.invoiceId|] == a.invoiceId && key[|a.invoiceId| + 2..] == a.paymentId;
      assert key[k] == ':' && key[k + 1] == ':';
    }
  }
}
