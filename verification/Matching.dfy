/** Pairing buy orders with sell orders: `compute_matches` of apps/agentd/src/main.rs. */
module Matching {
  import opened Wrappers
  import opened Bytes
  import opened StableSort

  datatype BuyOrder = BuyOrder(
    orderId: string,
    desiredProvider: Option<string>,
    maxUnitPrice: real,
    requiredWorkUnits: real,
    minBenchmark: real,
    capabilities: seq<string>,
    open: bool,
    createdAt: string)

  datatype SellOrder = SellOrder(
    orderId: string,
    providerId: string,
    unitPrice: real,
    minWorkUnits: real,
    maxWorkUnits: real,
    open: bool,
    createdAt: string)

  datatype Provider = Provider(
    providerId: string,
    benchmark: real,
    supportsFp16: bool,
    supportsInt8: bool,
    tags: seq<string>)

  /** A proposed match. */
  datatype Match = Match(
    matchId: string,
    buyOrderId: string,
    sellOrderId: string,
    agreedUnitPrice: real,
    agreedWorkUnits: real)

  function BuildMatchId(buyOrderId: string, sellOrderId: string): string {
    "match-" + buyOrderId + "-" + sellOrderId
  }

  predicate SupportsCapability(p: Provider, capability: string) {
    if capability == "fp16" then p.supportsFp16
    else if capability == "int8" then p.supportsInt8
    else capability in p.tags
  }

  function Min(x: real, y: real): real {
    if y < x then y else x
  }

  /** `x.clamp(low, high)`. */
  function Clamp(x: real, low: real, high: real): real
    requires low <= high
  {
    if x < low then low else if x > high then high else x
  }

  // ---- The specification ----

  /** The registry entry that counts for a provider: the last one. */
  function Registered(registry: seq<Provider>, id: string): Option<Provider> {
    if registry == [] then None
    else
      var last := registry[|registry| - 1];
      if last.providerId == id then Some(last) else Registered(registry[..|registry| - 1], id)
  }

  predicate Feasible(buy: BuyOrder, sell: SellOrder, registry: seq<Provider>, lockedSells: set<string>) {
    && sell.open && sell.orderId !in lockedSells
    && (buy.desiredProvider.Some? ==> sell.providerId == buy.desiredProvider.value)
    && sell.unitPrice <= buy.maxUnitPrice
    && Min(buy.requiredWorkUnits, sell.maxWorkUnits) >= sell.minWorkUnits
    && var provider := Registered(registry, sell.providerId);
       provider.Some? && Qualifies(buy, provider.value)
  }

  predicate Qualifies(buy: BuyOrder, provider: Provider) {
    && provider.benchmark >= buy.minBenchmark
    && forall c :: c in buy.capabilities ==> SupportsCapability(provider, c)
  }

  function Benchmark(registry: seq<Provider>, id: string): real {
    match Registered(registry, id)
    case Some(provider) => provider.benchmark
    case None => 0.0
  }

  /** Cheaper first, then the better benchmark, then the older order. */
  predicate Preferred(a: SellOrder, benchmarkA: real, b: SellOrder, benchmarkB: real) {
    || a.unitPrice < b.unitPrice
    || (a.unitPrice == b.unitPrice && benchmarkA > benchmarkB)
    || (a.unitPrice == b.unitPrice && benchmarkA == benchmarkB && KeyLess(a.createdAt, b.createdAt))
  }

  /** Sell order `p` is the one to propose: no feasible one is preferred to it, and equals come later in the input. */
  ghost predicate IsBest(buy: BuyOrder, sells: seq<SellOrder>, registry: seq<Provider>, lockedSells: set<string>, p: nat) {
    && p < |sells| && Feasible(buy, sells[p], registry, lockedSells)
    && forall q :: 0 <= q < |sells| && Feasible(buy, sells[q], registry, lockedSells) ==>
         var bp, bq := Benchmark(registry, sells[p].providerId), Benchmark(registry, sells[q].providerId);
         && !Preferred(sells[q], bq, sells[p], bp)
         && (q < p ==> Preferred(sells[p], bp, sells[q], bq))
  }

  predicate Terms(buy: BuyOrder, sell: SellOrder, m: Match) {
    && m.matchId == BuildMatchId(buy.orderId, sell.orderId)
    && m.buyOrderId == buy.orderId && m.sellOrderId == sell.orderId
    && m.agreedUnitPrice == (sell.unitPrice + buy.maxUnitPrice) / 2.0
    && m.agreedWorkUnits == Min(buy.requiredWorkUnits, sell.maxWorkUnits)
  }

  function OpenBuys(buys: seq<BuyOrder>, lockedBuys: set<string>): seq<BuyOrder> {
    if buys == [] then []
    else
      var last := buys[|buys| - 1];
      OpenBuys(buys[..|buys| - 1], lockedBuys) + if last.open && last.orderId !in lockedBuys then [last] else []
  }

  predicate OlderBuy(a: BuyOrder, b: BuyOrder) {
    KeyLess(a.createdAt, b.createdAt)
  }

  /** `matches` answers the queued buy orders in turn: the best sell order each, nothing for one with no feasible order. */
  ghost predicate Answers(queue: seq<BuyOrder>, sells: seq<SellOrder>, registry: seq<Provider>, lockedSells: set<string>,
                          matches: seq<Match>)
  {
    if queue == [] then matches == []
    else
      var n := |queue| - 1;
      if exists q :: 0 <= q < |sells| && Feasible(queue[n], sells[q], registry, lockedSells) then
        && matches != []
        && Answers(queue[..n], sells, registry, lockedSells, matches[..|matches| - 1])
        && exists p: nat ::
             IsBest(queue[n], sells, registry, lockedSells, p) && Terms(queue[n], sells[p], matches[|matches| - 1])
      else
        Answers(queue[..n], sells, registry, lockedSells, matches)
  }

  // ---- What the specification means ----

  lemma KeyLessNegative(a: string, b: string, c: string)
    requires !KeyLess(a, b) && !KeyLess(b, c)
    ensures !KeyLess(a, c)
  {
    KeyOrder(a, b);
    KeyOrder(b, c);
    KeyOrder(a, c);
    if KeyLess(b, a) && KeyLess(c, b) {
      KeyLessTransitive(c, b, a);
    }
  }

  /** At most one sell order is the best. */
  lemma BestIsUnique(buy: BuyOrder, sells: seq<SellOrder>, registry: seq<Provider>, lockedSells: set<string>, p: nat, q: nat)
    requires IsBest(buy, sells, registry, lockedSells, p) && IsBest(buy, sells, registry, lockedSells, q)
    ensures p == q
  {
    hide Preferred, Feasible;
  }

  /** The best sell order is the cheapest; of equally cheap ones the one on the fastest provider, of these the oldest. */
  lemma BestIsCheapest(buy: BuyOrder, sells: seq<SellOrder>, registry: seq<Provider>, lockedSells: set<string>, p: nat, q: nat)
    requires IsBest(buy, sells, registry, lockedSells, p)
    requires q < |sells| && Feasible(buy, sells[q], registry, lockedSells)
    ensures var bp, bq := Benchmark(registry, sells[p].providerId), Benchmark(registry, sells[q].providerId);
            && sells[p].unitPrice <= sells[q].unitPrice
            && (sells[p].unitPrice == sells[q].unitPrice ==> bp >= bq)
            && (sells[p].unitPrice == sells[q].unitPrice && bp == bq ==>
                  !KeyLess(sells[q].createdAt, sells[p].createdAt)
                  && (sells[p].createdAt == sells[q].createdAt ==> p <= q))
  {
    hide Feasible, KeyLess;
    KeyOrder(sells[p].createdAt, sells[q].createdAt);
  }

  lemma LastOpen(buys: seq<BuyOrder>, b: BuyOrder)
    requires buys != []
    ensures multiset(buys)[b] == multiset(buys[..|buys| - 1])[b] + if buys[|buys| - 1] == b then 1 else 0
  {
    assert buys == buys[..|buys| - 1] + [buys[|buys| - 1]];
  }

  /** The queue holds each open buy order that is not locked, as often as it was handed in, and no other. */
  lemma {:induction false} QueueIsOpenBuys(buys: seq<BuyOrder>, lockedBuys: set<string>, b: BuyOrder)
    ensures multiset(OpenBuys(buys, lockedBuys))[b] ==
              if b.open && b.orderId !in lockedBuys then multiset(buys)[b] else 0
  {
    if buys != [] {
      QueueIsOpenBuys(buys[..|buys| - 1], lockedBuys, b);
      LastOpen(buys, b);
    }
  }

  /** A proposal names the two orders; its price is halfway between the two limits, and the units are the most that both sides allow. */
  lemma TermsAreFair(buy: BuyOrder, sell: SellOrder, registry: seq<Provider>, lockedSells: set<string>, m: Match)
    requires Feasible(buy, sell, registry, lockedSells) && Terms(buy, sell, m)
    ensures m.buyOrderId == buy.orderId && m.sellOrderId == sell.orderId
    ensures sell.unitPrice <= m.agreedUnitPrice <= buy.maxUnitPrice
    ensures m.agreedUnitPrice - sell.unitPrice == buy.maxUnitPrice - m.agreedUnitPrice
    ensures sell.minWorkUnits <= m.agreedWorkUnits <= sell.maxWorkUnits && m.agreedWorkUnits <= buy.requiredWorkUnits
    ensures m.agreedWorkUnits in {sell.maxWorkUnits, buy.requiredWorkUnits}
  {
  }

  /** The registry lists entry `r` last for the seller's provider, and it has what the buyer asks for. */
  predicate Equipped(buy: BuyOrder, sell: SellOrder, registry: seq<Provider>, r: nat) {
    && r < |registry| && registry[r].providerId == sell.providerId
    && (forall q :: r < q < |registry| ==> registry[q].providerId != sell.providerId)
    && registry[r].benchmark >= buy.minBenchmark
    && ("fp16" in buy.capabilities ==> registry[r].supportsFp16)
    && ("int8" in buy.capabilities ==> registry[r].supportsInt8)
    && forall c :: c in buy.capabilities && c != "fp16" && c != "int8" ==> c in registry[r].tags
  }

  ghost predicate SomeEquipped(buy: BuyOrder, sell: SellOrder, registry: seq<Provider>) {
    exists r :: Equipped(buy, sell, registry, r)
  }

  lemma {:induction false} LastRegistered(registry: seq<Provider>, id: string)
    ensures Registered(registry, id).None? ==> forall q :: 0 <= q < |registry| ==> registry[q].providerId != id
    ensures Registered(registry, id).Some? ==>
              exists r :: 0 <= r < |registry| && registry[r] == Registered(registry, id).value && registry[r].providerId == id
                          && forall q :: r < q < |registry| ==> registry[q].providerId != id
  {
    if registry != [] {
      LastRegistered(registry[..|registry| - 1], id);
    }
  }

  lemma QualifiedIsEquipped(buy: BuyOrder, sell: SellOrder, registry: seq<Provider>, r: nat)
    requires r < |registry| && registry[r].providerId == sell.providerId
    requires forall q :: r < q < |registry| ==> registry[q].providerId != sell.providerId
    ensures Qualifies(buy, registry[r]) <==> Equipped(buy, sell, registry, r)
  {
    var p := registry[r];
    if Equipped(buy, sell, registry, r) {
      forall c | c in buy.capabilities ensures SupportsCapability(p, c) {
      }
    }
    if Qualifies(buy, p) {
      assert "fp16" in buy.capabilities ==> SupportsCapability(p, "fp16");
      assert "int8" in buy.capabilities ==> SupportsCapability(p, "int8");
      forall c | c in buy.capabilities && c != "fp16" && c != "int8" ensures c in p.tags {
        assert SupportsCapability(p, c);
      }
    }
  }

  /**
   * A sell order can serve a buy order exactly when it is open, not locked, of the provider the buyer wants if it wants one,
   * no dearer than the limit, and small enough to start; and the provider's last registry entry has the benchmark, the
   * number formats and the tags asked for.
   */
  lemma FeasibleExactly(buy: BuyOrder, sell: SellOrder, registry: seq<Provider>, lockedSells: set<string>)
    ensures Feasible(buy, sell, registry, lockedSells) <==>
              && sell.open && sell.orderId !in lockedSells && buy.desiredProvider in {None, Some(sell.providerId)}
              && sell.unitPrice <= buy.maxUnitPrice
              && sell.minWorkUnits <= buy.requiredWorkUnits && sell.minWorkUnits <= sell.maxWorkUnits
              && SomeEquipped(buy, sell, registry)
  {
    LastRegistered(registry, sell.providerId);
    if Registered(registry, sell.providerId).Some? {
      var r :| 0 <= r < |registry| && registry[r] == Registered(registry, sell.providerId).value
               && registry[r].providerId == sell.providerId
               && forall q :: r < q < |registry| ==> registry[q].providerId != sell.providerId;
      QualifiedIsEquipped(buy, sell, registry, r);
      hide Qualifies;
      forall e | Equipped(buy, sell, registry, e) ensures e == r {
      }
    }
  }

  /** Some best sell order for the buyer is proposed on halfway terms. */
  ghost predicate ServedBy(buy: BuyOrder, sells: seq<SellOrder>, registry: seq<Provider>, lockedSells: set<string>, m: Match) {
    exists p: nat :: p < |sells| && IsBest(buy, sells, registry, lockedSells, p) && Terms(buy, sells[p], m)
  }

  /**
   * Every proposal is for a buyer of the queue, at the best sell order for it: at a price halfway between the two limits and
   * for the units both allow.
   */
  lemma {:induction false} ProposalsServe(queue: seq<BuyOrder>, sells: seq<SellOrder>, registry: seq<Provider>,
                                          lockedSells: set<string>, matches: seq<Match>, k: nat)
    requires Answers(queue, sells, registry, lockedSells, matches) && k < |matches|
    ensures exists i :: 0 <= i < |queue| && ServedBy(queue[i], sells, registry, lockedSells, matches[k])
  {
    hide Feasible, Terms, Preferred;
    var n := |queue| - 1;
    if exists q :: 0 <= q < |sells| && Feasible(queue[n], sells[q], registry, lockedSells) {
      if k == |matches| - 1 {
        assert ServedBy(queue[n], sells, registry, lockedSells, matches[k]);
      } else {
        ProposalsServe(queue[..n], sells, registry, lockedSells, matches[..|matches| - 1], k);
      }
    } else {
      ProposalsServe(queue[..n], sells, registry, lockedSells, matches, k);
    }
  }

  /** Two buyers can be proposed the same sell order: proposing does not use it up. */
  lemma SellOrdersAreShared(first: BuyOrder, second: BuyOrder, sells: seq<SellOrder>, registry: seq<Provider>,
                            lockedSells: set<string>, matches: seq<Match>)
    requires first.(orderId := second.orderId) == second
    requires Answers([first, second], sells, registry, lockedSells, matches) && matches != []
    ensures |matches| == 2 && matches[0].sellOrderId == matches[1].sellOrderId
  {
    var queue := [first, second];
    assert queue[..1] == [first] && queue[..1][..0] == [];
    FeasibleIgnoresId(first, second, sells, registry, lockedSells);
    if q :| 0 <= q < |sells| && Feasible(second, sells[q], registry, lockedSells) {
      assert Answers(queue[..1], sells, registry, lockedSells, matches[..|matches| - 1]);
      assert Feasible(first, sells[q], registry, lockedSells);
      assert Answers([], sells, registry, lockedSells, matches[..|matches| - 1][..|matches| - 2]);
      var p: nat :| IsBest(first, sells, registry, lockedSells, p) && Terms(first, sells[p], matches[0]);
      var r: nat :| IsBest(second, sells, registry, lockedSells, r) && Terms(second, sells[r], matches[1]);
      BestIsUnique(second, sells, registry, lockedSells, p, r);
    } else {
      assert Answers(queue[..1], sells, registry, lockedSells, matches);
    }
  }

  lemma FeasibleIgnoresId(first: BuyOrder, second: BuyOrder, sells: seq<SellOrder>, registry: seq<Provider>,
                          lockedSells: set<string>)
    requires first.(orderId := second.orderId) == second
    ensures forall q :: 0 <= q < |sells| ==>
              Feasible(first, sells[q], registry, lockedSells) == Feasible(second, sells[q], registry, lockedSells)
  {
    assert forall p: Provider :: Qualifies(first, p) == Qualifies(second, p);
  }

  // ---- The algorithm ----

  datatype Candidate = Candidate(position: nat, sell: SellOrder, provider: Provider)

  predicate CandidateLess(a: Candidate, b: Candidate) {
    Preferred(a.sell, a.provider.benchmark, b.sell, b.provider.benchmark)
  }

  lemma CandidatesAreOrdered()
    ensures WeakOrder(CandidateLess)
    ensures WeakOrder(OlderBuy)
  {
    forall a: Candidate, b: Candidate ensures !(CandidateLess(a, b) && CandidateLess(b, a)) {
      KeyOrder(a.sell.createdAt, b.sell.createdAt);
    }
    forall a: Candidate, b: Candidate, c: Candidate | !CandidateLess(a, b) && !CandidateLess(b, c)
      ensures !CandidateLess(a, c)
    {
      if !KeyLess(a.sell.createdAt, b.sell.createdAt) && !KeyLess(b.sell.createdAt, c.sell.createdAt) {
        KeyLessNegative(a.sell.createdAt, b.sell.createdAt, c.sell.createdAt);
      }
    }
    forall a: BuyOrder, b: BuyOrder ensures !(OlderBuy(a, b) && OlderBuy(b, a)) {
      KeyOrder(a.createdAt, b.createdAt);
    }
    forall a: BuyOrder, b: BuyOrder, c: BuyOrder | !OlderBuy(a, b) && !OlderBuy(b, c) ensures !OlderBuy(a, c) {
      KeyLessNegative(a.createdAt, b.createdAt, c.createdAt);
    }
  }

  /** The buyer with the older order is answered first. */
  lemma OldestBuyFirst(buys: seq<BuyOrder>, lockedBuys: set<string>, i: nat, j: nat)
    requires i < j < |SortBy(OlderBuy, OpenBuys(buys, lockedBuys))|
    ensures var queue := SortBy(OlderBuy, OpenBuys(buys, lockedBuys));
            !KeyLess(queue[j].createdAt, queue[i].createdAt)
  {
    hide KeyLess;
    CandidatesAreOrdered();
    SortBySorts(OlderBuy, OpenBuys(buys, lockedBuys));
    var queue := SortBy(OlderBuy, OpenBuys(buys, lockedBuys));
    assert !OlderBuy(queue[j], queue[i]);
  }

  ghost predicate Registers(registry: seq<Provider>, providers: map<string, Provider>) {
    forall id :: Registered(registry, id) == if id in providers then Some(providers[id]) else None
  }

  method IndexProviders(registry: seq<Provider>) returns (providers: map<string, Provider>)
    ensures Registers(registry, providers)
  {
    providers := map[];
    for i := 0 to |registry|
      invariant Registers(registry[..i], providers)
    {
      assert registry[..i + 1][..i] == registry[..i];
      providers := providers[registry[i].providerId := registry[i]];
    }
    assert registry[..|registry|] == registry;
  }

  lemma FeasibleByIndex(buy: BuyOrder, sell: SellOrder, registry: seq<Provider>, providers: map<string, Provider>,
                        lockedSells: set<string>)
    requires Registers(registry, providers)
    ensures Feasible(buy, sell, registry, lockedSells) <==>
              sell.open && sell.orderId !in lockedSells && CanServe(buy, sell, providers)
  {
    hide SupportsCapability, Min;
  }

  /** The tests a sell order that is open must pass, in the order in which they are made. */
  predicate CanServe(buy: BuyOrder, sell: SellOrder, providers: map<string, Provider>) {
    if buy.desiredProvider.Some? && sell.providerId != buy.desiredProvider.value then false
    else if sell.unitPrice > buy.maxUnitPrice then false
    else if sell.providerId !in providers then false
    else if providers[sell.providerId].benchmark < buy.minBenchmark then false
    else if exists c :: c in buy.capabilities && !SupportsCapability(providers[sell.providerId], c) then false
    else Min(buy.requiredWorkUnits, sell.maxWorkUnits) >= sell.minWorkUnits
  }

  ghost predicate Increasing(positions: seq<nat>) {
    forall i, j :: 0 <= i < j < |positions| ==> positions[i] < positions[j]
  }

  method FindOpenSells(sells: seq<SellOrder>, lockedSells: set<string>) returns (open: seq<nat>)
    ensures Increasing(open)
    ensures forall k :: 0 <= k < |open| ==> open[k] < |sells|
    ensures forall p :: 0 <= p < |sells| ==> (p in open <==> sells[p].open && sells[p].orderId !in lockedSells)
  {
    open := [];
    for i := 0 to |sells|
      invariant Increasing(open)
      invariant forall k :: 0 <= k < |open| ==> open[k] < i
      invariant forall p :: 0 <= p < i ==> (p in open <==> sells[p].open && sells[p].orderId !in lockedSells)
    {
      if sells[i].open && sells[i].orderId !in lockedSells {
        open := open + [i];
      }
    }
  }

  ghost predicate Candidates(buy: BuyOrder, sells: seq<SellOrder>, open: seq<nat>, providers: map<string, Provider>,
                             candidates: seq<Candidate>)
    requires forall k :: 0 <= k < |open| ==> open[k] < |sells|
  {
    && (forall i, j :: 0 <= i < j < |candidates| ==> candidates[i].position < candidates[j].position)
    && (forall i :: 0 <= i < |candidates| ==>
          var c := candidates[i];
          && c.position in open && c.position < |sells| && c.sell == sells[c.position]
          && c.sell.providerId in providers && c.provider == providers[c.sell.providerId]
          && CanServe(buy, c.sell, providers))
    && (forall k :: 0 <= k < |open| && CanServe(buy, sells[open[k]], providers) ==>
          exists i :: 0 <= i < |candidates| && candidates[i].position == open[k])
  }

  lemma CanServeRegistered(buy: BuyOrder, sell: SellOrder, providers: map<string, Provider>)
    requires CanServe(buy, sell, providers)
    ensures sell.providerId in providers
  {
  }

  method FindCandidates(buy: BuyOrder, sells: seq<SellOrder>, open: seq<nat>, providers: map<string, Provider>)
    returns (candidates: seq<Candidate>)
    requires Increasing(open) && forall k :: 0 <= k < |open| ==> open[k] < |sells|
    ensures Candidates(buy, sells, open, providers, candidates)
  {
    candidates := [];
    for k := 0 to |open|
      invariant Candidates(buy, sells, open[..k], providers, candidates)
    {
      hide CanServe;
      var sell := sells[open[k]];
      ghost var before := candidates;
      if CanServe(buy, sell, providers) {
        CanServeRegistered(buy, sell, providers);
        candidates := candidates + [Candidate(open[k], sell, providers[sell.providerId])];
        assert candidates[|before|].position == open[k];
      }
      assert forall i :: 0 <= i < |before| ==> candidates[i] == before[i];
      assert open[..k + 1] == open[..k] + [open[k]];
    }
    assert open[..|open|] == open;
  }

  /** The head of the sorted candidates is the best feasible sell order of the input. */
  lemma HeadIsBest(buy: BuyOrder, sells: seq<SellOrder>, registry: seq<Provider>, providers: map<string, Provider>,
                   lockedSells: set<string>, open: seq<nat>, candidates: seq<Candidate>)
    requires Registers(registry, providers)
    requires forall k :: 0 <= k < |open| ==> open[k] < |sells|
    requires forall p :: 0 <= p < |sells| ==> (p in open <==> sells[p].open && sells[p].orderId !in lockedSells)
    requires Candidates(buy, sells, open, providers, candidates)
    ensures candidates == [] ==> forall q :: 0 <= q < |sells| ==> !Feasible(buy, sells[q], registry, lockedSells)
    ensures candidates != [] ==>
              var sorted := SortBy(CandidateLess, candidates);
              && sorted != [] && IsBest(buy, sells, registry, lockedSells, sorted[0].position)
              && sorted[0].sell == sells[sorted[0].position]
  {
    forall q | 0 <= q < |sells| && Feasible(buy, sells[q], registry, lockedSells)
      ensures exists i :: 0 <= i < |candidates| && candidates[i].position == q
    {
      FeasibleByIndex(buy, sells[q], registry, providers, lockedSells);
      var k :| 0 <= k < |open| && open[k] == q;
    }
    if candidates != [] {
      CandidatesAreOrdered();
      var h := HeadIsFirstLeast(CandidateLess, candidates);
      var p := candidates[h].position;
      FeasibleByIndex(buy, sells[p], registry, providers, lockedSells);
      hide Feasible, CanServe, SortBy, WeakOrder;
      forall q | 0 <= q < |sells| && Feasible(buy, sells[q], registry, lockedSells)
        ensures var bp, bq := Benchmark(registry, sells[p].providerId), Benchmark(registry, sells[q].providerId);
                && !Preferred(sells[q], bq, sells[p], bp)
                && (q < p ==> Preferred(sells[p], bp, sells[q], bq))
      {
        var i :| 0 <= i < |candidates| && candidates[i].position == q;
        assert !CandidateLess(candidates[i], candidates[h]);
        assert q < p ==> CandidateLess(candidates[h], candidates[i]);
      }
    }
  }

  method FilterOpenBuys(buys: seq<BuyOrder>, lockedBuys: set<string>) returns (open: seq<BuyOrder>)
    ensures open == OpenBuys(buys, lockedBuys)
  {
    open := [];
    for i := 0 to |buys|
      invariant open == OpenBuys(buys[..i], lockedBuys)
    {
      assert buys[..i + 1][..i] == buys[..i];
      if buys[i].open && buys[i].orderId !in lockedBuys {
        open := open + [buys[i]];
      }
    }
    assert buys[..|buys|] == buys;
  }

  method ComputeMatches(buys: seq<BuyOrder>, sells: seq<SellOrder>, registry: seq<Provider>,
                        lockedBuys: set<string>, lockedSells: set<string>)
    returns (matches: seq<Match>)
    ensures Answers(SortBy(OlderBuy, OpenBuys(buys, lockedBuys)), sells, registry, lockedSells, matches)
  {
    var providers := IndexProviders(registry);
    var openBuys := FilterOpenBuys(buys, lockedBuys);
    var queue := SortBy(OlderBuy, openBuys);
    var open := FindOpenSells(sells, lockedSells);
    matches := [];
    hide OpenBuys, SortBy, Registers, Feasible, IsBest, Increasing, Candidates;
    for i := 0 to |queue|
      invariant Answers(queue[..i], sells, registry, lockedSells, matches)
    {
      var buy := queue[i];
      assert queue[..i + 1][..i] == queue[..i];
      var candidates := FindCandidates(buy, sells, open, providers);
      HeadIsBest(buy, sells, registry, providers, lockedSells, open, candidates);
      if candidates != [] {
        var best := SortBy(CandidateLess, candidates)[0];
        BestIsFeasible(buy, sells, registry, lockedSells, best.position);
        var sell := best.sell;
        var m := Match(
          BuildMatchId(buy.orderId, sell.orderId),
          buy.orderId,
          sell.orderId,
          Clamp((sell.unitPrice + buy.maxUnitPrice) / 2.0, sell.unitPrice, buy.maxUnitPrice),
          Min(buy.requiredWorkUnits, sell.maxWorkUnits));
        assert Terms(buy, sells[best.position], m);
        assert (matches + [m])[..|matches|] == matches;
        matches := matches + [m];
      }
    }
    assert queue[..|queue|] == queue;
  }

  lemma BestIsFeasible(buy: BuyOrder, sells: seq<SellOrder>, registry: seq<Provider>, lockedSells: set<string>, p: nat)
    requires IsBest(buy, sells, registry, lockedSells, p)
    ensures p < |sells| && Feasible(buy, sells[p], registry, lockedSells) && sells[p].unitPrice <= buy.maxUnitPrice
  {
  }

  // ---- Match identifiers ----

  /** The second pair takes a piece of the first sell order's identifier into its buy order's. */
  ghost predicate Shifts(buy: string, sell: string, otherBuy: string, otherSell: string) {
    exists x: string :: otherBuy == buy + "-" + x && sell == x + "-" + otherSell
  }

  /** Two pairs of orders share a match identifier exactly when they are the same or one is such a shift of the other. */
  lemma SameMatchId(buy: string, sell: string, otherBuy: string, otherSell: string)
    ensures BuildMatchId(buy, sell) == BuildMatchId(otherBuy, otherSell) <==>
              || (buy == otherBuy && sell == otherSell)
              || Shifts(buy, sell, otherBuy, otherSell) || Shifts(otherBuy, otherSell, buy, sell)
  {
    MatchIdJoins(buy, sell);
    MatchIdJoins(otherBuy, otherSell);
    hide BuildMatchId;
    if BuildMatchId(buy, sell) == BuildMatchId(otherBuy, otherSell) {
      assert Joined(buy, sell) == Joined(otherBuy, otherSell);
      if |buy| < |otherBuy| {
        JoinedShifts(buy, sell, otherBuy, otherSell);
      } else if |otherBuy| < |buy| {
        JoinedShifts(otherBuy, otherSell, buy, sell);
      } else {
        JoinedEqual(buy, sell, otherBuy, otherSell);
      }
    }
    if Shifts(buy, sell, otherBuy, otherSell) {
      ShiftedJoins(buy, sell, otherBuy, otherSell);
    }
    if Shifts(otherBuy, otherSell, buy, sell) {
      ShiftedJoins(otherBuy, otherSell, buy, sell);
    }
  }

  function Joined(buy: string, sell: string): string {
    buy + "-" + sell
  }

  lemma MatchIdJoins(buy: string, sell: string)
    ensures BuildMatchId(buy, sell) == "match-" + Joined(buy, sell)
    ensures BuildMatchId(buy, sell)[|"match-"|..] == Joined(buy, sell)
  {
    assert "match-" + buy + "-" + sell == "match-" + (buy + "-" + sell);
  }

  lemma JoinedEqual(buy: string, sell: string, otherBuy: string, otherSell: string)
    requires |buy| == |otherBuy|
    ensures Joined(buy, sell) == Joined(otherBuy, otherSell) <==> buy == otherBuy && sell == otherSell
  {
    if Joined(buy, sell) == Joined(otherBuy, otherSell) {
      assert Joined(buy, sell)[..|buy|] == buy && Joined(otherBuy, otherSell)[..|buy|] == otherBuy;
      assert Joined(buy, sell)[|buy| + 1..] == sell && Joined(otherBuy, otherSell)[|buy| + 1..] == otherSell;
    }
  }

  lemma JoinedShifts(buy: string, sell: string, otherBuy: string, otherSell: string)
    requires |buy| < |otherBuy| && Joined(buy, sell) == Joined(otherBuy, otherSell)
    ensures Shifts(buy, sell, otherBuy, otherSell)
  {
    var key, x := Joined(buy, sell), otherBuy[|buy| + 1..];
    assert key[..|otherBuy|] == otherBuy && key[|otherBuy|] == '-' && key[|otherBuy| + 1..] == otherSell;
    assert key[..|buy|] == buy && key[|buy|] == '-' && key[|buy| + 1..] == sell;
    assert otherBuy == buy + "-" + x;
    assert sell == x + "-" + otherSell;
  }

  lemma ShiftedJoins(buy: string, sell: string, otherBuy: string, otherSell: string)
    requires Shifts(buy, sell, otherBuy, otherSell)
    ensures Joined(buy, sell) == Joined(otherBuy, otherSell)
  {
    var x: string :| otherBuy == buy + "-" + x && sell == x + "-" + otherSell;
    assert buy + "-" + (x + "-" + otherSell) == (buy + "-" + x) + "-" + otherSell;
  }

  /** Some other pair of orders has the same match identifier exactly when there is a hyphen in one of the two identifiers. */
  lemma MatchIdsCollide(buy: string, sell: string)
    ensures '-' in buy || '-' in sell <==>
              exists otherBuy, otherSell ::
                (otherBuy, otherSell) != (buy, sell) && BuildMatchId(otherBuy, otherSell) == BuildMatchId(buy, sell)
  {
    hide BuildMatchId;
    if '-' in sell {
      var k :| 0 <= k < |sell| && sell[k] == '-';
      assert sell == sell[..k] + "-" + sell[k + 1..];
      SameMatchId(buy, sell, buy + "-" + sell[..k], sell[k + 1..]);
    }
    if '-' in buy {
      var k :| 0 <= k < |buy| && buy[k] == '-';
      assert buy == buy[..k] + "-" + buy[k + 1..];
      SameMatchId(buy, sell, buy[..k], buy[k + 1..] + "-" + sell);
    }
    if otherBuy, otherSell :|
      (otherBuy, otherSell) != (buy, sell) && BuildMatchId(otherBuy, otherSell) == BuildMatchId(buy, sell)
    {
      SameMatchId(buy, sell, otherBuy, otherSell);
    }
  }
}
