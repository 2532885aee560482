/** The shared market rules of crates/common/src/market.rs: statuses, rounding, penalties and bill keys. */
module Market {
  import opened Bytes

  // ---- Statuses ----

  datatype AttemptStatus = Started | InProgress | Committed | RetryableFailed | PaymentUnknown | FailedFinal

  datatype Stage = ProviderMarkSettling | CreateInvoice | SettlePayment | RecordResult | ProviderMarkSettled

  datatype BillStatus = Pending | Invoiced | PaymentSubmitted | Paid | Disputed | Refunded | Finalized | Failed

  predicate CanTransitionAttempt(current: AttemptStatus, next: AttemptStatus) {
    match current
    case Started => next == InProgress
    case InProgress => next in {Committed, RetryableFailed, PaymentUnknown, FailedFinal}
    case RetryableFailed => next == InProgress
    case PaymentUnknown => next == InProgress
    case Committed => false
    case FailedFinal => false
  }

  predicate CanTransitionStage(current: Stage, next: Stage) {
    match current
    case ProviderMarkSettling => next == CreateInvoice
    case CreateInvoice => next == SettlePayment
    case SettlePayment => next == RecordResult
    case RecordResult => next == ProviderMarkSettled
    case ProviderMarkSettled => false
  }

  predicate CanTransitionBill(current: BillStatus, next: BillStatus) {
    match current
    case Pending => next == Invoiced
    case Invoiced => next == PaymentSubmitted
    case PaymentSubmitted => next in {Paid, Disputed}
    case Paid => next == Finalized
    case Disputed => next in {Refunded, Failed}
    case Refunded => next == Finalized
    case Finalized => false
    case Failed => false
  }

  function StageIndex(stage: Stage): nat {
    match stage
    case ProviderMarkSettling => 0
    case CreateInvoice => 1
    case SettlePayment => 2
    case RecordResult => 3
    case ProviderMarkSettled => 4
  }

  /** Stages are taken one after another. */
  lemma StagesInOrder(current: Stage, next: Stage)
    ensures CanTransitionStage(current, next) <==> StageIndex(next) == StageIndex(current) + 1
  {
  }

  /** An attempt in progress can come to any other end or wait; from any status that is not an end it can only get back to work. */
  lemma AttemptsWorkOrWait(current: AttemptStatus, next: AttemptStatus)
    ensures CanTransitionAttempt(current, next) <==>
              if current == InProgress then next !in {Started, InProgress}
              else current !in {Committed, FailedFinal} && next == InProgress
  {
  }

  /** How far a bill is from being made to being paid or disputed. */
  function Rung(status: BillStatus): nat {
    match status
    case Pending => 0
    case Invoiced => 1
    case PaymentSubmitted => 2
    case Paid => 3
    case Disputed => 3
    case _ => 5
  }

  /**
   * A bill climbs one rung at a time; a disputed one can then be refunded or fail, and a paid or refunded one be finalized.
   */
  lemma BillsClimb(current: BillStatus, next: BillStatus)
    ensures CanTransitionBill(current, next) <==>
              || Rung(next) == Rung(current) + 1
              || (current == Disputed && next in {Refunded, Failed})
              || (current in {Paid, Refunded} && next == Finalized)
  {
  }

  // ---- Money, in millionths ----

  const MICRO: real := 1_000_000.0

  /** Rust's `f64::round`: to the nearest integer, halves away from zero. */
  function RoundHalfAway(x: real): int {
    if x >= 0.0 then (x + 0.5).Floor else -((0.5 - x).Floor)
  }

  function Round(amount: real): real {
    RoundHalfAway(amount * MICRO) as real / MICRO
  }

  predicate IsMicro(amount: real) {
    (amount * MICRO).Floor as real == amount * MICRO
  }

  function Max0(x: real): real {
    if x < 0.0 then 0.0 else x
  }

  lemma RoundIsMicro(x: real)
    ensures IsMicro(Round(x))
  {
    assert Round(x) * MICRO == RoundHalfAway(x * MICRO) as real;
  }

  lemma RoundOfMicro(x: real)
    requires IsMicro(x)
    ensures Round(x) == x
  {
    assert RoundHalfAway(x * MICRO) == (x * MICRO).Floor;
  }

  lemma RoundError(x: real)
    ensures -0.5 <= (Round(x) - x) * MICRO <= 0.5
  {
    assert Round(x) * MICRO == RoundHalfAway(x * MICRO) as real;
  }

  /** Amounts of either sign round alike, and of two equally near millionths the farther from zero is taken. */
  lemma RoundAway(x: real)
    ensures Round(-x) == -Round(x)
    ensures x > 0.0 && (Round(x) - x) * MICRO in {0.5, -0.5} ==> Round(x) > x
  {
    assert (-x) * MICRO == -(x * MICRO);
    assert Round(x) * MICRO == RoundHalfAway(x * MICRO) as real;
  }

  lemma RoundMonotone(x: real, y: real)
    requires x <= y
    ensures Round(x) <= Round(y)
  {
    assert RoundHalfAway(x * MICRO) <= RoundHalfAway(y * MICRO);
  }

  lemma WholeIsMicro(x: real, n: int)
    requires x * MICRO == n as real
    ensures IsMicro(x)
  {
  }

  lemma MicroSum(x: real, y: real)
    requires IsMicro(x) && IsMicro(y)
    ensures IsMicro(x + y) && IsMicro(x - y)
  {
    var m, n := (x * MICRO).Floor, (y * MICRO).Floor;
    WholeIsMicro(x + y, m + n);
    WholeIsMicro(x - y, m - n);
  }

  // ---- Breach of a commitment ----

  const BREACH_TOLERANCE: real := 0.03
  const BREACH_REFUND: real := 0.15

  datatype PenaltyOutcome = PenaltyOutcome(
    breached: bool,
    gapRatio: real,
    refundToBuyer: real,
    payoutToProvider: real,
    appliedPenaltyRatio: real)

  function EvaluateBreachPenalty(totalDue: real, committed: real, delivered: real): PenaltyOutcome {
    if committed <= 0.0 then
      PenaltyOutcome(false, 0.0, 0.0, Max0(totalDue), 0.0)
    else
      var gap := Max0(committed - Max0(delivered));
      var gapRatio := gap / committed;
      if gapRatio > BREACH_TOLERANCE then
        var refund := Max0(totalDue) * BREACH_REFUND;
        PenaltyOutcome(true, gapRatio, refund, Max0(totalDue) - refund, BREACH_REFUND)
      else
        PenaltyOutcome(false, gapRatio, 0.0, Max0(totalDue), 0.0)
  }

  predicate TradeAutoTerminates(committed: real, delivered: real) {
    committed > 0.0 && delivered >= committed
  }

  lemma RatioBelow(gap: real, committed: real, bound: real)
    requires committed > 0.0
    ensures gap / committed > bound <==> gap > bound * committed
  {
    var ratio := gap / committed;
    assert ratio * committed == gap;
    if ratio > bound {
      assert (ratio - bound) * committed > 0.0;
    } else {
      assert (bound - ratio) * committed >= 0.0;
    }
  }

  /** A trade is in breach exactly when less than 97 percent of a positive commitment was delivered; no money is lost. */
  lemma BreachMeaning(totalDue: real, committed: real, delivered: real)
    ensures var outcome := EvaluateBreachPenalty(totalDue, committed, delivered);
            && (outcome.breached <==> committed > 0.0 && Max0(delivered) < 0.97 * committed)
            && outcome.refundToBuyer + outcome.payoutToProvider == Max0(totalDue)
            && 0.0 <= outcome.refundToBuyer <= Max0(totalDue)
            && outcome.refundToBuyer * 100.0 == (if outcome.breached then 15.0 * Max0(totalDue) else 0.0)
            && outcome.appliedPenaltyRatio * 100.0 == (if outcome.breached then 15.0 else 0.0)
            && (if committed > 0.0 then outcome.gapRatio * committed == Max0(committed - Max0(delivered)) else outcome.gapRatio == 0.0)
  {
    if committed > 0.0 {
      RatioBelow(Max0(committed - Max0(delivered)), committed, BREACH_TOLERANCE);
    }
  }

  /** Ending a trade because it delivered what was committed never charges the provider. */
  lemma AutoTerminationIsNoBreach(totalDue: real, committed: real, delivered: real)
    requires TradeAutoTerminates(committed, delivered)
    ensures !EvaluateBreachPenalty(totalDue, committed, delivered).breached
  {
    BreachMeaning(totalDue, committed, delivered);
  }

  // ---- Bill keys ----

  function BillingWindowKey(tradeId: string, windowIndex: nat, interval: nat): string {
    "bill:" + tradeId + ":" + Decimal(windowIndex) + ":" + Decimal(interval)
  }

  lemma LastColon(a: string, m: string, b: string, n: string)
    requires a + ":" + m == b + ":" + n
    requires ':' !in m && ':' !in n
    ensures a == b && m == n
  {
    var s := a + ":" + m;
    assert s[|a|] == ':' && s[|b|] == ':';
    assert forall k :: |a| < k < |s| ==> s[k] == m[k - |a| - 1];
    assert forall k :: |b| < k < |s| ==> s[k] == n[k - |b| - 1];
    assert |a| == |b|;
    assert s[..|a|] == a && s[|a| + 1..] == m;
    assert s[..|b|] == b && s[|b| + 1..] == n;
  }

  lemma NoColon(n: nat)
    ensures ':' !in Decimal(n)
  {
    hide Decimal;
  }

  /** Different trades, windows or intervals have different keys, even when a trade's name contains colons. */
  lemma BillingWindowKeyInjective(t: string, w: nat, i: nat, u: string, x: nat, j: nat)
    requires BillingWindowKey(t, w, i) == BillingWindowKey(u, x, j)
    ensures t == u && w == x && i == j
  {
    hide Decimal;
    var a, b := "bill:" + t + ":" + Decimal(w), "bill:" + u + ":" + Decimal(x);
    NoColon(i);
    NoColon(j);
    NoColon(w);
    NoColon(x);
    LastColon(a, Decimal(i), b, Decimal(j));
    LastColon("bill:" + t, Decimal(w), "bill:" + u, Decimal(x));
    DecimalInjective(i, j);
    DecimalInjective(w, x);
    assert ("bill:" + t)[5..] == t && ("bill:" + u)[5..] == u;
  }
}
