/** The receipt hash chain of crates/metering/src/settlement.rs. */
module Receipts {
  import opened Wrappers
  import opened Bytes
  import opened CanonicalJson
  import opened OrderedMap
  import opened Hashing

  datatype WindowInput = WindowInput(
    jobId: string,
    windowIndex: nat,
    validSamples: nat,
    workUnits: real,
    unitPrice: real,
    telemetryDigest: string)

  datatype Receipt = Receipt(
    input: WindowInput,
    activeRatio: real,
    baseOwed: real,
    owedWindow: real,
    receiptHash: string)

  datatype SettledBatch = SettledBatch(receipts: seq<Receipt>, rootHash: string)

  const SAMPLES_PER_WINDOW: nat := 60

  // ---- Rust's `{:.12}` ----

  function RoundHalfEven(x: real): (n: int) {
    var f := x.Floor;
    var d := x - f as real;
    if d < 0.5 || (d == 0.5 && f % 2 == 0) then f else f + 1
  }

  /** The nearest integer; of two that are equally near, the even one. */
  lemma NearestEven(x: real)
    ensures var n := RoundHalfEven(x) as real;
            -0.5 <= x - n <= 0.5 && (x - n == 0.5 || x - n == -0.5 ==> RoundHalfEven(x) % 2 == 0)
  {
  }

  function Abs(x: real): (r: real)
    ensures r >= 0.0
  {
    if x < 0.0 then -x else x
  }

  const PICO: int := 1_000_000_000_000

  /** The magnitude in units of the twelfth decimal. */
  function Picos(x: real): (n: nat) {
    RoundHalfEven(Abs(x) * PICO as real)
  }

  /** The `k` low-order decimal digits of `n`. */
  function Digits(n: nat, k: nat): (r: string)
    ensures |r| == k
  {
    if k == 0 then "" else Digits(n / 10, k - 1) + [Digit(n % 10)]
  }

  function Fixed12(x: real): (r: string) {
    (if x < 0.0 then "-" else "") + Decimal(Picos(x) / PICO) + "." + Digits(Picos(x) % PICO, 12)
  }

  function Power10(k: nat): (p: nat)
    ensures p > 0
  {
    if k == 0 then 1 else 10 * Power10(k - 1)
  }

  lemma {:induction false} DigitsRead(n: nat, k: nat)
    requires n < Power10(k)
    ensures forall i :: 0 <= i < k ==> IsDigit(Digits(n, k)[i])
    ensures Undecimal(Digits(n, k)) == n
  {
    if k > 0 {
      var s := Digits(n, k);
      DigitsRead(n / 10, k - 1);
      assert s[..k - 1] == Digits(n / 10, k - 1) && s[k - 1] == Digit(n % 10);
    } else {
      assert Digits(n, k) == "";
    }
  }

  lemma {:induction false} DigitsInjective(m: nat, n: nat, k: nat)
    requires m < Power10(k) && n < Power10(k) && Digits(m, k) == Digits(n, k)
    ensures m == n
  {
    if k > 0 {
      var a, b := Digits(m, k), Digits(n, k);
      assert a[..k - 1] == Digits(m / 10, k - 1) && b[..k - 1] == Digits(n / 10, k - 1);
      assert a[k - 1] == Digit(m % 10) && b[k - 1] == Digit(n % 10);
      DigitsInjective(m / 10, n / 10, k - 1);
    }
  }

  /** The text shows the sign, the whole part and the twelve digits. */
  lemma Fixed12Parts(x: real)
    ensures var a, n, sign := Fixed12(x), Picos(x), if x < 0.0 then 1 else 0;
            && |a| >= 13 + sign && (a[0] == '-' <==> x < 0.0)
            && a[sign..|a| - 13] == Decimal(n / PICO) && a[|a| - 12..] == Digits(n % PICO, 12)
  {
    hide Picos;
    var a, n := Fixed12(x), Picos(x);
    var sign := if x < 0.0 then "-" else "";
    assert a[|a| - 12..] == Digits(n % PICO, 12);
    assert a[..|a| - 13] == sign + Decimal(n / PICO);
    assert Decimal(n / PICO)[0] in Decimal(n / PICO);
    assert a[|sign|..|a| - 13] == Decimal(n / PICO);
  }

  lemma TwelveDigits(m: nat, n: nat)
    requires m < PICO && n < PICO && Digits(m, 12) == Digits(n, 12)
    ensures m == n
  {
    assert Power10(12) == PICO;
    DigitsInjective(m, n, 12);
  }

  /** The text reads as the amount, to within half a unit of the twelfth decimal. */
  lemma Fixed12Reads(x: real)
    ensures var a, sign := Fixed12(x), if x < 0.0 then 1 else 0;
            && |a| >= 13 + sign && (a[0] == '-' <==> x < 0.0) && a[|a| - 13] == '.'
            && (forall i :: sign <= i < |a| && i != |a| - 13 ==> IsDigit(a[i]))
            && var n := Undecimal(a[sign..|a| - 13]) * PICO + Undecimal(a[|a| - 12..]);
               -0.5 <= (if x < 0.0 then -x else x) * PICO as real - n as real <= 0.5
  {
    hide Digits, Decimal, RoundHalfEven;
    var a, n, sign := Fixed12(x), Picos(x), if x < 0.0 then 1 else 0;
    Fixed12Parts(x);
    assert Power10(12) == PICO;
    DigitsRead(n % PICO, 12);
    DecimalRoundTrip(n / PICO);
    NearestEven(Abs(x) * PICO as real);
    forall i | sign <= i < |a| && i != |a| - 13 ensures IsDigit(a[i]) {
      if i < |a| - 13 {
        assert a[i] == a[sign..|a| - 13][i - sign];
      } else {
        assert a[i] == a[|a| - 12..][i - (|a| - 12)];
      }
    }
  }

  /** Equal texts mean equal amounts, to the twelfth decimal. */
  lemma Fixed12Injective(x: real, y: real)
    requires Fixed12(x) == Fixed12(y)
    ensures Picos(x) == Picos(y) && (x < 0.0 <==> y < 0.0)
  {
    hide Picos, Fixed12, Digits, Decimal;
    var m, n := Picos(x), Picos(y);
    Fixed12Parts(x);
    Fixed12Parts(y);
    TwelveDigits(m % PICO, n % PICO);
    DecimalInjective(m / PICO, n / PICO);
  }

  // ---- Settling one window ----

  function ActiveRatio(validSamples: nat): (r: real)
    ensures 0.0 <= r <= 1.0
  {
    if validSamples >= SAMPLES_PER_WINDOW then 1.0 else validSamples as real / SAMPLES_PER_WINDOW as real
  }

  function BaseOwed(w: WindowInput): real {
    w.workUnits * w.unitPrice
  }

  function Prorated(base: real, ratio: real): real {
    base * ratio
  }

  function Owed(w: WindowInput): real {
    Prorated(BaseOwed(w), ActiveRatio(w.validSamples))
  }

  /** The keys of the hashed record. */
  datatype MaterialField =
    | Alg
    | PrevReceiptHash
    | JobId
    | WindowIndex
    | ValidSamples
    | WorkUnitsWindow
    | UnitPricePerWorkUnit
    | ActiveRatio
    | BaseOwed
    | OwedWindow
    | TelemetryDigest

  function MaterialKey(f: MaterialField): string {
    match f
    case Alg => "alg"
    case PrevReceiptHash => "prev_receipt_hash"
    case JobId => "job_id"
    case WindowIndex => "window_index"
    case ValidSamples => "valid_samples"
    case WorkUnitsWindow => "work_units_window"
    case UnitPricePerWorkUnit => "unit_price_per_work_unit"
    case ActiveRatio => "active_ratio"
    case BaseOwed => "base_owed"
    case OwedWindow => "owed_window"
    case TelemetryDigest => "telemetry_digest"
  }

  /** The hashed record of one window, in the order in which its keys are inserted. */
  function Material(w: WindowInput, previous: string): (r: seq<Entry>)
    ensures |r| == 11
  {
    [ Entry(MaterialKey(MaterialField.Alg), Str("sha256:v1")),
      Entry(MaterialKey(MaterialField.PrevReceiptHash), Str(previous)),
      Entry(MaterialKey(MaterialField.JobId), Str(w.jobId)),
      Entry(MaterialKey(MaterialField.WindowIndex), Str(Decimal(w.windowIndex))),
      Entry(MaterialKey(MaterialField.ValidSamples), Str(Decimal(w.validSamples))),
      Entry(MaterialKey(MaterialField.WorkUnitsWindow), Str(Fixed12(w.workUnits))),
      Entry(MaterialKey(MaterialField.UnitPricePerWorkUnit), Str(Fixed12(w.unitPrice))),
      Entry(MaterialKey(MaterialField.ActiveRatio), Str(Fixed12(ActiveRatio(w.validSamples)))),
      Entry(MaterialKey(MaterialField.BaseOwed), Str(Fixed12(BaseOwed(w)))),
      Entry(MaterialKey(MaterialField.OwedWindow), Str(Fixed12(Owed(w)))),
      Entry(MaterialKey(MaterialField.TelemetryDigest), Str(w.telemetryDigest)) ]
  }

  function MaterialBytes(w: WindowInput, previous: string): seq<byte> {
    Write(Object(FromPairs(Material(w, previous))))
  }

  function Settled(w: WindowInput, previous: string): Receipt {
    Receipt(w, ActiveRatio(w.validSamples), BaseOwed(w), Owed(w), HashHex(MaterialBytes(w, previous)))
  }

  method SettleWindow(w: WindowInput, previous: string) returns (r: Receipt)
    ensures r == Settled(w, previous)
  {
    hide Fixed12, Write, Digest, FromPairs, MaterialKey, Decimal, BaseOwed, Prorated;
    var ratio := ActiveRatio(w.validSamples);
    var base := BaseOwed(w);
    var owed := Prorated(base, ratio);
    var material := new BTreeMap(Material(w, previous));
    material.Put(MaterialKey(MaterialField.Alg), Str("sha256:v1"));
    material.Put(MaterialKey(MaterialField.PrevReceiptHash), Str(previous));
    material.Put(MaterialKey(MaterialField.JobId), Str(w.jobId));
    material.Put(MaterialKey(MaterialField.WindowIndex), Str(Decimal(w.windowIndex)));
    material.Put(MaterialKey(MaterialField.ValidSamples), Str(Decimal(w.validSamples)));
    material.Put(MaterialKey(MaterialField.WorkUnitsWindow), Str(Fixed12(w.workUnits)));
    material.Put(MaterialKey(MaterialField.UnitPricePerWorkUnit), Str(Fixed12(w.unitPrice)));
    material.Put(MaterialKey(MaterialField.ActiveRatio), Str(Fixed12(ratio)));
    material.Put(MaterialKey(MaterialField.BaseOwed), Str(Fixed12(base)));
    material.Put(MaterialKey(MaterialField.OwedWindow), Str(Fixed12(owed)));
    material.Put(MaterialKey(MaterialField.TelemetryDigest), Str(w.telemetryDigest));
    var record := material.Take();
    var canonical := CanonicalJsonBytes(record);
    var digest := Sha256(canonical);
    var hash := ToHex(digest);
    r := Receipt(w, ratio, base, owed, hash);
  }

  /** The samples that count: sixty to a full window. */
  function Counted(validSamples: nat): nat {
    if validSamples < 60 then validSamples else 60
  }

  lemma RatioOfSixty(validSamples: nat)
    ensures ActiveRatio(validSamples) * 60.0 == Counted(validSamples) as real
  {
  }

  lemma Shared(base: real, ratio: real, part: real, owed: real)
    requires ratio * 60.0 == part && owed == base * ratio
    ensures owed * 60.0 == base * part
  {
    assert base * ratio * 60.0 == base * (ratio * 60.0);
  }

  lemma SharesCompare(base: real, owed: real, part: real)
    requires owed * 60.0 == base * part && 0.0 <= part <= 60.0
    ensures base > 0.0 ==> (owed == base <==> part == 60.0)
    ensures part == 0.0 ==> owed == 0.0
  {
    if base > 0.0 && part < 60.0 {
      assert base * (60.0 - part) > 0.0;
    }
  }

  /**
   * A receipt owes work times price for a full window and a sixtieth of that for each valid sample of a lesser one: the
   * whole exactly from sixty samples on, nothing without any.
   */
  lemma ReceiptOwes(w: WindowInput, previous: string)
    ensures var r := Settled(w, previous);
            && r.input == w && r.baseOwed == w.workUnits * w.unitPrice
            && r.owedWindow * 60.0 == r.baseOwed * Counted(w.validSamples) as real
            && r.activeRatio * 60.0 == Counted(w.validSamples) as real
            && (r.baseOwed > 0.0 ==> (r.owedWindow == r.baseOwed <==> w.validSamples >= 60))
            && (w.validSamples == 0 ==> r.owedWindow == 0.0)
  {
    hide MaterialBytes, HashHex, ActiveRatio;
    var r := Settled(w, previous);
    RatioOfSixty(w.validSamples);
    Shared(r.baseOwed, r.activeRatio, Counted(w.validSamples) as real, r.owedWindow);
    SharesCompare(r.baseOwed, r.owedWindow, Counted(w.validSamples) as real);
  }

  // ---- Settling a batch ----

  /** The hash of the last receipt of the chain; the empty chain has the empty text. */
  function Chain(inputs: seq<WindowInput>): (root: string)
    ensures |root| == if inputs == [] then 0 else 64
  {
    if inputs == [] then ""
    else HashHex(MaterialBytes(inputs[|inputs| - 1], Chain(inputs[..|inputs| - 1])))
  }

  /** Every receipt hashes its window together with the hash of the receipt before it. */
  method SettleBatch(inputs: seq<WindowInput>) returns (b: SettledBatch)
    ensures b.rootHash == Chain(inputs)
    ensures |b.receipts| == |inputs|
    ensures forall i :: 0 <= i < |inputs| ==> ReceiptAt(b.receipts[i], inputs, i)
  {
    hide Settled, Chain, ReceiptAt;
    var previous := "";
    var receipts: seq<Receipt> := [];
    for n := 0 to |inputs|
      invariant previous == Chain(inputs[..n]) && |receipts| == n
      invariant forall i :: 0 <= i < n ==> ReceiptAt(receipts[i], inputs, i)
    {
      var r := SettleWindow(inputs[n], previous);
      ReceiptStep(inputs, n, r);
      previous := r.receiptHash;
      receipts := receipts + [r];
    }
    assert inputs[..|inputs|] == inputs;
    b := SettledBatch(receipts, previous);
  }

  /** The i-th receipt settles the i-th window on top of the chain so far, and extends the chain. */
  predicate ReceiptAt(r: Receipt, inputs: seq<WindowInput>, i: nat)
    requires i < |inputs|
  {
    r == Settled(inputs[i], Chain(inputs[..i])) && r.receiptHash == Chain(inputs[..i + 1])
  }

  lemma ReceiptStep(inputs: seq<WindowInput>, n: nat, r: Receipt)
    requires n < |inputs| && r == Settled(inputs[n], Chain(inputs[..n]))
    ensures ReceiptAt(r, inputs, n) && r.receiptHash == Chain(inputs[..n + 1])
  {
    hide MaterialBytes, HashHex;
    assert inputs[..n + 1][..n] == inputs[..n];
  }

  // ---- Tamper evidence ----

  lemma MaterialKeyInjective(f: MaterialField, g: MaterialField)
    requires MaterialKey(f) == MaterialKey(g)
    ensures f == g
  {
  }

  /** The field at each position of the record. */
  function MaterialKeyAt(i: nat): MaterialField
    requires i < 11
  {
    match i
    case 0 => MaterialField.Alg
    case 1 => MaterialField.PrevReceiptHash
    case 2 => MaterialField.JobId
    case 3 => MaterialField.WindowIndex
    case 4 => MaterialField.ValidSamples
    case 5 => MaterialField.WorkUnitsWindow
    case 6 => MaterialField.UnitPricePerWorkUnit
    case 7 => MaterialField.ActiveRatio
    case 8 => MaterialField.BaseOwed
    case 9 => MaterialField.OwedWindow
    case _ => MaterialField.TelemetryDigest
  }

  lemma MaterialKeyAtInjective(i: nat, j: nat)
    requires i < 11 && j < 11 && MaterialKeyAt(i) == MaterialKeyAt(j)
    ensures i == j
  {
  }

  lemma MaterialKeyPosition(w: WindowInput, previous: string, i: nat)
    requires i < 11
    ensures Material(w, previous)[i].key == MaterialKey(MaterialKeyAt(i))
  {
    hide MaterialKey, Decimal, Fixed12, BaseOwed, Owed, ActiveRatio;
    match i
    case 0 => case 1 => case 2 => case 3 => case 4 => case 5 => case 6 => case 7 => case 8 => case 9 => case _ =>
  }

  lemma MaterialKeys(w: WindowInput, previous: string)
    ensures DistinctKeys(Material(w, previous))
  {
    hide MaterialKey, MaterialKeyAt, Material;
    var p := Material(w, previous);
    forall i, j | 0 <= i < j < |p|
      ensures p[i].key != p[j].key
    {
      MaterialKeyPosition(w, previous, i);
      MaterialKeyPosition(w, previous, j);
      if p[i].key == p[j].key {
        MaterialKeyInjective(MaterialKeyAt(i), MaterialKeyAt(j));
        MaterialKeyAtInjective(i, j);
      }
    }
  }

  /** The record that is hashed, as it is written: eleven keys, all values as text. */
  function MaterialWritten(w: WindowInput, previous: string): seq<Entry> {
    [ Entry("active_ratio", Str(Fixed12(ActiveRatio(w.validSamples)))),
      Entry("alg", Str("sha256:v1")),
      Entry("base_owed", Str(Fixed12(BaseOwed(w)))),
      Entry("job_id", Str(w.jobId)),
      Entry("owed_window", Str(Fixed12(Owed(w)))),
      Entry("prev_receipt_hash", Str(previous)),
      Entry("telemetry_digest", Str(w.telemetryDigest)),
      Entry("unit_price_per_work_unit", Str(Fixed12(w.unitPrice))),
      Entry("valid_samples", Str(Decimal(w.validSamples))),
      Entry("window_index", Str(Decimal(w.windowIndex))),
      Entry("work_units_window", Str(Fixed12(w.workUnits))) ]
  }

  lemma MaterialFirstKeysAscend()
    ensures KeyLess("active_ratio", "alg")
    ensures KeyLess("alg", "base_owed")
    ensures KeyLess("base_owed", "job_id")
    ensures KeyLess("job_id", "owed_window")
    ensures KeyLess("owed_window", "prev_receipt_hash")
  {
    hide KeyLess;
    FirstDifference("active_ratio", "alg", 1);
    FirstDifference("alg", "base_owed", 0);
    FirstDifference("base_owed", "job_id", 0);
    FirstDifference("job_id", "owed_window", 0);
    FirstDifference("owed_window", "prev_receipt_hash", 0);
  }

  lemma MaterialLastKeysAscend()
    ensures KeyLess("prev_receipt_hash", "telemetry_digest")
    ensures KeyLess("telemetry_digest", "unit_price_per_work_unit")
    ensures KeyLess("unit_price_per_work_unit", "valid_samples")
    ensures KeyLess("valid_samples", "window_index")
    ensures KeyLess("window_index", "work_units_window")
  {
    hide KeyLess;
    FirstDifference("prev_receipt_hash", "telemetry_digest", 0);
    FirstDifference("telemetry_digest", "unit_price_per_work_unit", 0);
    FirstDifference("unit_price_per_work_unit", "valid_samples", 0);
    FirstDifference("valid_samples", "window_index", 0);
    FirstDifference("window_index", "work_units_window", 1);
  }

  lemma MaterialAscends(w: WindowInput, previous: string)
    ensures Ascending(MaterialWritten(w, previous))
  {
    hide KeyLess, Decimal, Fixed12, BaseOwed, Owed, ActiveRatio;
    MaterialFirstKeysAscend();
    MaterialLastKeysAscend();
  }

  lemma MaterialRearranged(w: WindowInput, previous: string)
    ensures var p := Material(w, previous);
            MaterialWritten(w, previous) ==
              [p[7], p[0], p[8], p[2], p[9], p[1], p[10], p[6], p[4], p[3], p[5]]
  {
    hide Decimal, Fixed12, BaseOwed, Owed, ActiveRatio;
  }

  lemma MaterialSame(p: seq<Entry>)
    requires |p| == 11
    ensures var m := [p[7], p[0], p[8], p[2], p[9], p[1], p[10], p[6], p[4], p[3], p[5]];
            Within(p, m) && Within(m, p)
  {
    var m := [p[7], p[0], p[8], p[2], p[9], p[1], p[10], p[6], p[4], p[3], p[5]];
    forall i | 0 <= i < |p| ensures p[i] in m {
      match i
      case 0 => assert m[1] == p[0];
      case 1 => assert m[5] == p[1];
      case 2 => assert m[3] == p[2];
      case 3 => assert m[9] == p[3];
      case 4 => assert m[8] == p[4];
      case 5 => assert m[10] == p[5];
      case 6 => assert m[7] == p[6];
      case 7 => assert m[0] == p[7];
      case 8 => assert m[2] == p[8];
      case 9 => assert m[4] == p[9];
      case _ => assert m[6] == p[10];
    }
  }

  /** Whatever order the code inserts them in, the entries are written in ascending order of their keys. */
  lemma MaterialLayout(w: WindowInput, previous: string)
    ensures FromPairs(Material(w, previous)) == MaterialWritten(w, previous)
  {
    hide KeyLess, FromPairs, Decimal, Fixed12, BaseOwed, Owed, ActiveRatio;
    MaterialKeys(w, previous);
    MaterialAscends(w, previous);
    MaterialRearranged(w, previous);
    MaterialSame(Material(w, previous));
    FromPairsListed(Material(w, previous), MaterialWritten(w, previous));
  }

  /** The bytes that are hashed determine the whole record. */
  lemma MaterialInjective(v: WindowInput, p: string, w: WindowInput, q: string)
    requires MaterialBytes(v, p) == MaterialBytes(w, q)
    ensures Material(v, p) == Material(w, q)
  {
    hide Fixed12, Decimal, Write, MaterialKey;
    MaterialKeys(v, p);
    ObjectBytesInjective(Material(v, p), Material(w, q));
  }

  /** Equal records: equal identity, index, samples and telemetry, and equal amounts to the twelfth decimal. */
  predicate SameWindow(v: WindowInput, w: WindowInput) {
    && v.jobId == w.jobId
    && v.windowIndex == w.windowIndex
    && v.validSamples == w.validSamples
    && v.telemetryDigest == w.telemetryDigest
    && SameAmount(v.workUnits, w.workUnits)
    && SameAmount(v.unitPrice, w.unitPrice)
    && SameAmount(BaseOwed(v), BaseOwed(w))
    && SameAmount(Owed(v), Owed(w))
  }

  predicate SameAmount(x: real, y: real) {
    Picos(x) == Picos(y) && (x < 0.0 <==> y < 0.0)
  }

  lemma MaterialMeaning(v: WindowInput, p: string, w: WindowInput, q: string)
    requires Material(v, p) == Material(w, q)
    ensures p == q && SameWindow(v, w)
  {
    hide Fixed12, Decimal, Picos, MaterialKey;
    var a, b := Material(v, p), Material(w, q);
    assert a[1] == b[1] && a[2] == b[2] && a[3] == b[3] && a[4] == b[4] && a[5] == b[5];
    assert a[6] == b[6] && a[7] == b[7] && a[8] == b[8] && a[9] == b[9] && a[10] == b[10];
    DecimalInjective(v.windowIndex, w.windowIndex);
    DecimalInjective(v.validSamples, w.validSamples);
    Fixed12Injective(v.workUnits, w.workUnits);
    Fixed12Injective(v.unitPrice, w.unitPrice);
    Fixed12Injective(BaseOwed(v), BaseOwed(w));
    Fixed12Injective(Owed(v), Owed(w));
  }

  /** Walks two chains back from their ends to the first pair of different records with one digest. */
  function FindCollision(a: seq<WindowInput>, b: seq<WindowInput>): (r: Option<(seq<byte>, seq<byte>)>) {
    if a == [] || b == [] then None
    else
      var m := MaterialBytes(a[|a| - 1], Chain(a[..|a| - 1]));
      var n := MaterialBytes(b[|b| - 1], Chain(b[..|b| - 1]));
      if m != n then Some((m, n)) else FindCollision(a[..|a| - 1], b[..|b| - 1])
  }

  /** Two receipts with one hash are of the same window after the same receipt, or their records collide. */
  lemma EqualLast(v: WindowInput, p: string, w: WindowInput, q: string)
    requires HashHex(MaterialBytes(v, p)) == HashHex(MaterialBytes(w, q))
    ensures if MaterialBytes(v, p) == MaterialBytes(w, q) then p == q && SameWindow(v, w)
            else Collision(MaterialBytes(v, p), MaterialBytes(w, q))
  {
    EqualHashHex(MaterialBytes(v, p), MaterialBytes(w, q));
    hide MaterialBytes, SameWindow, Digest, HashHex;
    if MaterialBytes(v, p) == MaterialBytes(w, q) {
      MaterialInjective(v, p, w, q);
      MaterialMeaning(v, p, w, q);
    }
  }

  lemma SameBatches(p: seq<WindowInput>, v: WindowInput, q: seq<WindowInput>, w: WindowInput)
    requires |p| == |q| && (forall i :: 0 <= i < |p| ==> SameWindow(p[i], q[i])) && SameWindow(v, w)
    ensures forall i :: 0 <= i <= |p| ==> SameWindow((p + [v])[i], (q + [w])[i])
  {
    hide SameWindow;
  }

  /** Equal roots: either the batches agree window by window, or the two texts found by
      `FindCollision` are different and share their SHA-256 digest. */
  lemma {:induction false} EqualRoots(a: seq<WindowInput>, b: seq<WindowInput>)
    requires Chain(a) == Chain(b)
    ensures match FindCollision(a, b)
            case Some((m, n)) => Collision(m, n)
            case None => |a| == |b| && forall i :: 0 <= i < |a| ==> SameWindow(a[i], b[i])
  {
    hide MaterialBytes, Digest, SameWindow, Collision, HashHex;
    if a != [] && b != [] {
      var p, v := a[..|a| - 1], a[|a| - 1];
      var q, w := b[..|b| - 1], b[|b| - 1];
      EqualLast(v, Chain(p), w, Chain(q));
      if MaterialBytes(v, Chain(p)) == MaterialBytes(w, Chain(q)) {
        assert FindCollision(a, b) == FindCollision(p, q);
        EqualRoots(p, q);
        hide Chain, FindCollision;
        if FindCollision(p, q).None? {
          SameBatches(p, v, q, w);
          assert a == p + [v] && b == q + [w];
        }
      }
    }
  }
}
