/** The evidence bundle of crates/common/src/evidence.rs and its root. */
module Evidence {
  import opened Bytes
  import opened CanonicalJson
  import opened OrderedMap
  import opened Hashing

  datatype EvidenceReceipt = EvidenceReceipt(
    jobId: string,
    windowIndex: nat,
    validSamples: nat,
    workUnitsWindow: string,
    unitPricePerWorkUnit: string,
    activeRatio: string,
    baseOwed: string,
    owedWindow: string,
    telemetryDigest: string,
    prevReceiptHash: string,
    receiptHash: string,
    timestampUtc: string)

  datatype EvidenceBundle = EvidenceBundle(
    version: string,
    jobId: string,
    windowRange: string,
    mergePolicy: string,
    receipts: seq<EvidenceReceipt>,
    rootHash: string,
    telemetrySamplesDigest: string,
    telemetrySourceManifest: string,
    pricingInputs: string,
    idempotencyRecords: seq<string>,
    conflictRecords: seq<string>,
    stallRecords: seq<string>,
    generatedAtUtc: string,
    generatorVersion: string)

  // ---- Canonical form ----

  /** The keys of a receipt, in the order in which they are inserted. */
  datatype ReceiptField =
    | JobId
    | WindowIndex
    | ValidSamples
    | WorkUnitsWindow
    | UnitPricePerWorkUnit
    | ActiveRatio
    | BaseOwed
    | OwedWindow
    | TelemetryDigest
    | PrevReceiptHash
    | ReceiptHash
    | TimestampUtc

  function ReceiptKey(f: ReceiptField): string {
    match f
    case JobId => "job_id"
    case WindowIndex => "window_index"
    case ValidSamples => "valid_samples"
    case WorkUnitsWindow => "work_units_window"
    case UnitPricePerWorkUnit => "unit_price_per_work_unit"
    case ActiveRatio => "active_ratio"
    case BaseOwed => "base_owed"
    case OwedWindow => "owed_window"
    case TelemetryDigest => "telemetry_digest"
    case PrevReceiptHash => "prev_receipt_hash"
    case ReceiptHash => "receipt_hash"
    case TimestampUtc => "timestamp_utc"
  }

  /** The keys of a bundle, in the order in which they are inserted. */
  datatype BundleField =
    | Version
    | JobId
    | WindowRange
    | MergePolicy
    | Receipts
    | RootHash
    | TelemetrySamplesDigest
    | TelemetrySourceManifest
    | PricingInputs
    | IdempotencyRecords
    | ConflictRecords
    | StallRecords
    | GeneratedAtUtc
    | GeneratorVersion

  function BundleKey(f: BundleField): string {
    match f
    case Version => "version"
    case JobId => "job_id"
    case WindowRange => "window_range"
    case MergePolicy => "merge_policy"
    case Receipts => "receipts"
    case RootHash => "root_hash"
    case TelemetrySamplesDigest => "telemetry_samples_digest"
    case TelemetrySourceManifest => "telemetry_source_manifest"
    case PricingInputs => "pricing_inputs"
    case IdempotencyRecords => "idempotency_records"
    case ConflictRecords => "conflict_records"
    case StallRecords => "stall_records"
    case GeneratedAtUtc => "generated_at_utc"
    case GeneratorVersion => "generator_version"
  }

  function ReceiptPairs(r: EvidenceReceipt): (p: seq<Entry>)
    ensures |p| == 12
  {
    [ Entry(ReceiptKey(ReceiptField.JobId), Str(r.jobId)),
      Entry(ReceiptKey(ReceiptField.WindowIndex), Number(Decimal(r.windowIndex))),
      Entry(ReceiptKey(ReceiptField.ValidSamples), Number(Decimal(r.validSamples))),
      Entry(ReceiptKey(ReceiptField.WorkUnitsWindow), Str(r.workUnitsWindow)),
      Entry(ReceiptKey(ReceiptField.UnitPricePerWorkUnit), Str(r.unitPricePerWorkUnit)),
      Entry(ReceiptKey(ReceiptField.ActiveRatio), Str(r.activeRatio)),
      Entry(ReceiptKey(ReceiptField.BaseOwed), Str(r.baseOwed)),
      Entry(ReceiptKey(ReceiptField.OwedWindow), Str(r.owedWindow)),
      Entry(ReceiptKey(ReceiptField.TelemetryDigest), Str(r.telemetryDigest)),
      Entry(ReceiptKey(ReceiptField.PrevReceiptHash), Str(r.prevReceiptHash)),
      Entry(ReceiptKey(ReceiptField.ReceiptHash), Str(r.receiptHash)),
      Entry(ReceiptKey(ReceiptField.TimestampUtc), Str(r.timestampUtc)) ]
  }

  function ReceiptJson(r: EvidenceReceipt): Json {
    Object(FromPairs(ReceiptPairs(r)))
  }

  function ReceiptsJson(rs: seq<EvidenceReceipt>): (r: seq<Json>)
    ensures |r| == |rs| && forall i :: 0 <= i < |rs| ==> r[i] == ReceiptJson(rs[i])
  {
    seq(|rs|, i requires 0 <= i < |rs| => ReceiptJson(rs[i]))
  }

  function TextsJson(ts: seq<string>): (r: seq<Json>)
    ensures |r| == |ts| && forall i :: 0 <= i < |ts| ==> r[i] == Str(ts[i])
  {
    seq(|ts|, i requires 0 <= i < |ts| => Str(ts[i]))
  }

  function BundlePairs(b: EvidenceBundle): (p: seq<Entry>)
    ensures |p| == 14
  {
    [ Entry(BundleKey(BundleField.Version), Str(b.version)),
      Entry(BundleKey(BundleField.JobId), Str(b.jobId)),
      Entry(BundleKey(BundleField.WindowRange), Str(b.windowRange)),
      Entry(BundleKey(BundleField.MergePolicy), Str(b.mergePolicy)),
      Entry(BundleKey(BundleField.Receipts), Array(ReceiptsJson(b.receipts))),
      Entry(BundleKey(BundleField.RootHash), Str(b.rootHash)),
      Entry(BundleKey(BundleField.TelemetrySamplesDigest), Str(b.telemetrySamplesDigest)),
      Entry(BundleKey(BundleField.TelemetrySourceManifest), Str(b.telemetrySourceManifest)),
      Entry(BundleKey(BundleField.PricingInputs), Str(b.pricingInputs)),
      Entry(BundleKey(BundleField.IdempotencyRecords), Array(TextsJson(b.idempotencyRecords))),
      Entry(BundleKey(BundleField.ConflictRecords), Array(TextsJson(b.conflictRecords))),
      Entry(BundleKey(BundleField.StallRecords), Array(TextsJson(b.stallRecords))),
      Entry(BundleKey(BundleField.GeneratedAtUtc), Str(b.generatedAtUtc)),
      Entry(BundleKey(BundleField.GeneratorVersion), Str(b.generatorVersion)) ]
  }

  function BundleJson(b: EvidenceBundle): Json {
    Object(FromPairs(BundlePairs(b)))
  }

  function BundleBytes(b: EvidenceBundle): seq<byte> {
    Write(BundleJson(b))
  }

  // ---- The code ----

  method ReceiptToCanonical(r: EvidenceReceipt) returns (v: Json)
    ensures v == ReceiptJson(r)
  {
    hide FromPairs, Decimal, ReceiptKey;
    var fields := new BTreeMap(ReceiptPairs(r));
    fields.Put(ReceiptKey(ReceiptField.JobId), Str(r.jobId));
    fields.Put(ReceiptKey(ReceiptField.WindowIndex), Number(Decimal(r.windowIndex)));
    fields.Put(ReceiptKey(ReceiptField.ValidSamples), Number(Decimal(r.validSamples)));
    fields.Put(ReceiptKey(ReceiptField.WorkUnitsWindow), Str(r.workUnitsWindow));
    fields.Put(ReceiptKey(ReceiptField.UnitPricePerWorkUnit), Str(r.unitPricePerWorkUnit));
    fields.Put(ReceiptKey(ReceiptField.ActiveRatio), Str(r.activeRatio));
    fields.Put(ReceiptKey(ReceiptField.BaseOwed), Str(r.baseOwed));
    fields.Put(ReceiptKey(ReceiptField.OwedWindow), Str(r.owedWindow));
    fields.Put(ReceiptKey(ReceiptField.TelemetryDigest), Str(r.telemetryDigest));
    fields.Put(ReceiptKey(ReceiptField.PrevReceiptHash), Str(r.prevReceiptHash));
    fields.Put(ReceiptKey(ReceiptField.ReceiptHash), Str(r.receiptHash));
    fields.Put(ReceiptKey(ReceiptField.TimestampUtc), Str(r.timestampUtc));
    v := fields.Take();
  }

  method ReceiptsToCanonical(rs: seq<EvidenceReceipt>) returns (vs: seq<Json>)
    ensures vs == ReceiptsJson(rs)
  {
    vs := [];
    for i := 0 to |rs|
      invariant vs == ReceiptsJson(rs)[..i]
    {
      var v := ReceiptToCanonical(rs[i]);
      vs := vs + [v];
    }
  }

  method BundleToCanonical(b: EvidenceBundle) returns (v: Json)
    ensures v == BundleJson(b)
  {
    hide FromPairs, ReceiptsJson, TextsJson, BundleKey;
    var receipts := ReceiptsToCanonical(b.receipts);
    var fields := new BTreeMap(BundlePairs(b));
    fields.Put(BundleKey(BundleField.Version), Str(b.version));
    fields.Put(BundleKey(BundleField.JobId), Str(b.jobId));
    fields.Put(BundleKey(BundleField.WindowRange), Str(b.windowRange));
    fields.Put(BundleKey(BundleField.MergePolicy), Str(b.mergePolicy));
    fields.Put(BundleKey(BundleField.Receipts), Array(receipts));
    fields.Put(BundleKey(BundleField.RootHash), Str(b.rootHash));
    fields.Put(BundleKey(BundleField.TelemetrySamplesDigest), Str(b.telemetrySamplesDigest));
    fields.Put(BundleKey(BundleField.TelemetrySourceManifest), Str(b.telemetrySourceManifest));
    fields.Put(BundleKey(BundleField.PricingInputs), Str(b.pricingInputs));
    fields.Put(BundleKey(BundleField.IdempotencyRecords), Array(TextsJson(b.idempotencyRecords)));
    fields.Put(BundleKey(BundleField.ConflictRecords), Array(TextsJson(b.conflictRecords)));
    fields.Put(BundleKey(BundleField.StallRecords), Array(TextsJson(b.stallRecords)));
    fields.Put(BundleKey(BundleField.GeneratedAtUtc), Str(b.generatedAtUtc));
    fields.Put(BundleKey(BundleField.GeneratorVersion), Str(b.generatorVersion));
    v := fields.Take();
  }

  function EvidenceRoot(b: EvidenceBundle): (root: string)
    ensures |root| == 64
  {
    HashHex(BundleBytes(b))
  }

  method ComputeEvidenceRoot(b: EvidenceBundle) returns (root: string)
    ensures root == EvidenceRoot(b)
  {
    hide Write, Digest;
    var v := BundleToCanonical(b);
    var canonical := CanonicalJsonBytes(v);
    var digest := Sha256(canonical);
    root := ToHex(digest);
  }

  method Verify(b: EvidenceBundle, root: string) returns (ok: bool)
    ensures ok <==> root == EvidenceRoot(b)
  {
    var computed := ComputeEvidenceRoot(b);
    ok := computed == root;
  }

  // ---- Tamper evidence ----

  lemma ReceiptKeyInjective(f: ReceiptField, g: ReceiptField)
    requires ReceiptKey(f) == ReceiptKey(g)
    ensures f == g
  {
  }

  /** The field at each position of the record. */
  function ReceiptKeyAt(i: nat): ReceiptField
    requires i < 12
  {
    match i
    case 0 => ReceiptField.JobId
    case 1 => ReceiptField.WindowIndex
    case 2 => ReceiptField.ValidSamples
    case 3 => ReceiptField.WorkUnitsWindow
    case 4 => ReceiptField.UnitPricePerWorkUnit
    case 5 => ReceiptField.ActiveRatio
    case 6 => ReceiptField.BaseOwed
    case 7 => ReceiptField.OwedWindow
    case 8 => ReceiptField.TelemetryDigest
    case 9 => ReceiptField.PrevReceiptHash
    case 10 => ReceiptField.ReceiptHash
    case _ => ReceiptField.TimestampUtc
  }

  lemma ReceiptKeyAtInjective(i: nat, j: nat)
    requires i < 12 && j < 12 && ReceiptKeyAt(i) == ReceiptKeyAt(j)
    ensures i == j
  {
  }

  lemma ReceiptKeyPosition(r: EvidenceReceipt, i: nat)
    requires i < 12
    ensures ReceiptPairs(r)[i].key == ReceiptKey(ReceiptKeyAt(i))
  {
    hide ReceiptKey, Decimal;
    match i
    case 0 => case 1 => case 2 => case 3 => case 4 => case 5 => case 6 => case 7 => case 8 => case 9 => case 10 => case _ =>
  }

  lemma ReceiptKeys(r: EvidenceReceipt)
    ensures DistinctKeys(ReceiptPairs(r))
  {
    hide ReceiptKey, ReceiptKeyAt, ReceiptPairs;
    var p := ReceiptPairs(r);
    forall i, j | 0 <= i < j < |p|
      ensures p[i].key != p[j].key
    {
      ReceiptKeyPosition(r, i);
      ReceiptKeyPosition(r, j);
      if p[i].key == p[j].key {
        ReceiptKeyInjective(ReceiptKeyAt(i), ReceiptKeyAt(j));
        ReceiptKeyAtInjective(i, j);
      }
    }
  }

  /** A receipt as it is written: twelve keys; the window and its samples are numbers, all else is text. */
  function ReceiptWritten(r: EvidenceReceipt): seq<Entry> {
    [ Entry("active_ratio", Str(r.activeRatio)),
      Entry("base_owed", Str(r.baseOwed)),
      Entry("job_id", Str(r.jobId)),
      Entry("owed_window", Str(r.owedWindow)),
      Entry("prev_receipt_hash", Str(r.prevReceiptHash)),
      Entry("receipt_hash", Str(r.receiptHash)),
      Entry("telemetry_digest", Str(r.telemetryDigest)),
      Entry("timestamp_utc", Str(r.timestampUtc)),
      Entry("unit_price_per_work_unit", Str(r.unitPricePerWorkUnit)),
      Entry("valid_samples", Number(Decimal(r.validSamples))),
      Entry("window_index", Number(Decimal(r.windowIndex))),
      Entry("work_units_window", Str(r.workUnitsWindow)) ]
  }

  lemma ReceiptFirstKeysAscend()
    ensures KeyLess("active_ratio", "base_owed")
    ensures KeyLess("base_owed", "job_id")
    ensures KeyLess("job_id", "owed_window")
    ensures KeyLess("owed_window", "prev_receipt_hash")
    ensures KeyLess("prev_receipt_hash", "receipt_hash")
  {
    hide KeyLess;
    FirstDifference("active_ratio", "base_owed", 0);
    FirstDifference("base_owed", "job_id", 0);
    FirstDifference("job_id", "owed_window", 0);
    FirstDifference("owed_window", "prev_receipt_hash", 0);
    FirstDifference("prev_receipt_hash", "receipt_hash", 0);
  }

  lemma ReceiptLastKeysAscend()
    ensures KeyLess("receipt_hash", "telemetry_digest")
    ensures KeyLess("telemetry_digest", "timestamp_utc")
    ensures KeyLess("timestamp_utc", "unit_price_per_work_unit")
    ensures KeyLess("unit_price_per_work_unit", "valid_samples")
    ensures KeyLess("valid_samples", "window_index")
    ensures KeyLess("window_index", "work_units_window")
  {
    hide KeyLess;
    FirstDifference("receipt_hash", "telemetry_digest", 0);
    FirstDifference("telemetry_digest", "timestamp_utc", 1);
    FirstDifference("timestamp_utc", "unit_price_per_work_unit", 0);
    FirstDifference("unit_price_per_work_unit", "valid_samples", 0);
    FirstDifference("valid_samples", "window_index", 0);
    FirstDifference("window_index", "work_units_window", 1);
  }

  lemma ReceiptAscends(r: EvidenceReceipt)
    ensures Ascending(ReceiptWritten(r))
  {
    hide KeyLess, Decimal;
    ReceiptFirstKeysAscend();
    ReceiptLastKeysAscend();
  }

  lemma ReceiptRearranged(r: EvidenceReceipt)
    ensures var p := ReceiptPairs(r);
            ReceiptWritten(r) ==
              [p[5], p[6], p[0], p[7], p[9], p[10], p[8], p[11], p[4], p[2], p[1], p[3]]
  {
    hide Decimal;
  }

  lemma ReceiptSame(p: seq<Entry>)
    requires |p| == 12
    ensures var m := [p[5], p[6], p[0], p[7], p[9], p[10], p[8], p[11], p[4], p[2], p[1], p[3]];
            Within(p, m) && Within(m, p)
  {
    var m := [p[5], p[6], p[0], p[7], p[9], p[10], p[8], p[11], p[4], p[2], p[1], p[3]];
    forall i | 0 <= i < |p| ensures p[i] in m {
      match i
      case 0 => assert m[2] == p[0];
      case 1 => assert m[10] == p[1];
      case 2 => assert m[9] == p[2];
      case 3 => assert m[11] == p[3];
      case 4 => assert m[8] == p[4];
      case 5 => assert m[0] == p[5];
      case 6 => assert m[1] == p[6];
      case 7 => assert m[3] == p[7];
      case 8 => assert m[6] == p[8];
      case 9 => assert m[4] == p[9];
      case 10 => assert m[5] == p[10];
      case _ => assert m[7] == p[11];
    }
  }

  /** Whatever order the code inserts them in, the entries are written in ascending order of their keys. */
  lemma ReceiptLayout(r: EvidenceReceipt)
    ensures FromPairs(ReceiptPairs(r)) == ReceiptWritten(r)
  {
    hide KeyLess, FromPairs, Decimal;
    ReceiptKeys(r);
    ReceiptAscends(r);
    ReceiptRearranged(r);
    ReceiptSame(ReceiptPairs(r));
    FromPairsListed(ReceiptPairs(r), ReceiptWritten(r));
  }

  lemma ReceiptTokens(r: EvidenceReceipt)
    ensures Tokens(ReceiptJson(r))
  {
    hide ReceiptKey, Decimal, IsNumber;
    DecimalIsNumber(r.windowIndex);
    DecimalIsNumber(r.validSamples);
    FromPairsTokens(ReceiptPairs(r));
  }

  lemma ReceiptInjective(r: EvidenceReceipt, s: EvidenceReceipt)
    requires ReceiptJson(r) == ReceiptJson(s)
    ensures r == s
  {
    hide Decimal, ReceiptKey;
    var p, q := ReceiptPairs(r), ReceiptPairs(s);
    ReceiptKeys(r);
    FromPairsInjective(p, q);
    assert p[0] == q[0] && p[1] == q[1] && p[2] == q[2] && p[3] == q[3] && p[4] == q[4] && p[5] == q[5];
    assert p[6] == q[6] && p[7] == q[7] && p[8] == q[8] && p[9] == q[9] && p[10] == q[10] && p[11] == q[11];
    DecimalInjective(r.windowIndex, s.windowIndex);
    DecimalInjective(r.validSamples, s.validSamples);
  }

  lemma ReceiptsInjective(r: seq<EvidenceReceipt>, s: seq<EvidenceReceipt>)
    requires ReceiptsJson(r) == ReceiptsJson(s)
    ensures r == s
  {
    hide ReceiptJson;
    forall i | 0 <= i < |r|
      ensures r[i] == s[i]
    {
      assert ReceiptsJson(r)[i] == ReceiptsJson(s)[i];
      ReceiptInjective(r[i], s[i]);
    }
  }

  lemma TextsInjective(s: seq<string>, t: seq<string>)
    requires TextsJson(s) == TextsJson(t)
    ensures s == t
  {
    forall i | 0 <= i < |s|
      ensures s[i] == t[i]
    {
      assert TextsJson(s)[i] == TextsJson(t)[i];
    }
  }

  lemma BundleKeyInjective(f: BundleField, g: BundleField)
    requires BundleKey(f) == BundleKey(g)
    ensures f == g
  {
  }

  /** The field at each position of the record. */
  function BundleKeyAt(i: nat): BundleField
    requires i < 14
  {
    match i
    case 0 => BundleField.Version
    case 1 => BundleField.JobId
    case 2 => BundleField.WindowRange
    case 3 => BundleField.MergePolicy
    case 4 => BundleField.Receipts
    case 5 => BundleField.RootHash
    case 6 => BundleField.TelemetrySamplesDigest
    case 7 => BundleField.TelemetrySourceManifest
    case 8 => BundleField.PricingInputs
    case 9 => BundleField.IdempotencyRecords
    case 10 => BundleField.ConflictRecords
    case 11 => BundleField.StallRecords
    case 12 => BundleField.GeneratedAtUtc
    case _ => BundleField.GeneratorVersion
  }

  lemma BundleKeyAtInjective(i: nat, j: nat)
    requires i < 14 && j < 14 && BundleKeyAt(i) == BundleKeyAt(j)
    ensures i == j
  {
  }

  lemma BundleKeyPosition(b: EvidenceBundle, i: nat)
    requires i < 14
    ensures BundlePairs(b)[i].key == BundleKey(BundleKeyAt(i))
  {
    hide BundleKey, Decimal, ReceiptsJson, TextsJson;
    match i
    case 0 => case 1 => case 2 => case 3 => case 4 => case 5 => case 6 => case 7 => case 8 => case 9 => case 10 => case 11 => case 12 => case _ =>
  }

  lemma BundleKeys(b: EvidenceBundle)
    ensures DistinctKeys(BundlePairs(b))
  {
    hide BundleKey, BundleKeyAt, BundlePairs;
    var p := BundlePairs(b);
    forall i, j | 0 <= i < j < |p|
      ensures p[i].key != p[j].key
    {
      BundleKeyPosition(b, i);
      BundleKeyPosition(b, j);
      if p[i].key == p[j].key {
        BundleKeyInjective(BundleKeyAt(i), BundleKeyAt(j));
        BundleKeyAtInjective(i, j);
      }
    }
  }

  /** A bundle as it is written: fourteen keys; receipts and records are lists, all else is text. */
  function BundleWritten(b: EvidenceBundle): seq<Entry> {
    [ Entry("conflict_records", Array(TextsJson(b.conflictRecords))),
      Entry("generated_at_utc", Str(b.generatedAtUtc)),
      Entry("generator_version", Str(b.generatorVersion)),
      Entry("idempotency_records", Array(TextsJson(b.idempotencyRecords))),
      Entry("job_id", Str(b.jobId)),
      Entry("merge_policy", Str(b.mergePolicy)),
      Entry("pricing_inputs", Str(b.pricingInputs)),
      Entry("receipts", Array(ReceiptsJson(b.receipts))),
      Entry("root_hash", Str(b.rootHash)),
      Entry("stall_records", Array(TextsJson(b.stallRecords))),
      Entry("telemetry_samples_digest", Str(b.telemetrySamplesDigest)),
      Entry("telemetry_source_manifest", Str(b.telemetrySourceManifest)),
      Entry("version", Str(b.version)),
      Entry("window_range", Str(b.windowRange)) ]
  }

  lemma TimeBeforeVersion()
    ensures KeyLess("generated_at_utc", "generator_version")
  {
    hide KeyLess;
    FirstDifference("generated_at_utc", "generator_version", 7);
  }

  lemma SamplesBeforeSource()
    ensures KeyLess("telemetry_samples_digest", "telemetry_source_manifest")
  {
    hide KeyLess;
    FirstDifference("telemetry_samples_digest", "telemetry_source_manifest", 11);
  }

  lemma BundleFirstKeysAscend()
    ensures KeyLess("conflict_records", "generated_at_utc")
    ensures KeyLess("generated_at_utc", "generator_version")
    ensures KeyLess("generator_version", "idempotency_records")
    ensures KeyLess("idempotency_records", "job_id")
    ensures KeyLess("job_id", "merge_policy")
    ensures KeyLess("merge_policy", "pricing_inputs")
  {
    hide KeyLess;
    FirstDifference("conflict_records", "generated_at_utc", 0);
    TimeBeforeVersion();
    FirstDifference("generator_version", "idempotency_records", 0);
    FirstDifference("idempotency_records", "job_id", 0);
    FirstDifference("job_id", "merge_policy", 0);
    FirstDifference("merge_policy", "pricing_inputs", 0);
  }

  lemma BundleLastKeysAscend()
    ensures KeyLess("pricing_inputs", "receipts")
    ensures KeyLess("receipts", "root_hash")
    ensures KeyLess("root_hash", "stall_records")
    ensures KeyLess("stall_records", "telemetry_samples_digest")
    ensures KeyLess("telemetry_samples_digest", "telemetry_source_manifest")
    ensures KeyLess("telemetry_source_manifest", "version")
    ensures KeyLess("version", "window_range")
  {
    hide KeyLess;
    FirstDifference("pricing_inputs", "receipts", 0);
    FirstDifference("receipts", "root_hash", 1);
    FirstDifference("root_hash", "stall_records", 0);
    FirstDifference("stall_records", "telemetry_samples_digest", 0);
    SamplesBeforeSource();
    FirstDifference("telemetry_source_manifest", "version", 0);
    FirstDifference("version", "window_range", 0);
  }

  lemma BundleAscends(b: EvidenceBundle)
    ensures Ascending(BundleWritten(b))
  {
    hide KeyLess, ReceiptsJson, TextsJson;
    BundleFirstKeysAscend();
    BundleLastKeysAscend();
  }

  lemma BundleRearranged(b: EvidenceBundle)
    ensures var p := BundlePairs(b);
            BundleWritten(b) ==
              [p[10], p[12], p[13], p[9], p[1], p[3], p[8], p[4], p[5], p[11], p[6], p[7], p[0], p[2]]
  {
    hide ReceiptsJson, TextsJson;
  }

  lemma BundleSame(p: seq<Entry>)
    requires |p| == 14
    ensures var m := [p[10], p[12], p[13], p[9], p[1], p[3], p[8], p[4], p[5], p[11], p[6], p[7], p[0], p[2]];
            Within(p, m) && Within(m, p)
  {
    var m := [p[10], p[12], p[13], p[9], p[1], p[3], p[8], p[4], p[5], p[11], p[6], p[7], p[0], p[2]];
    forall i | 0 <= i < |p| ensures p[i] in m {
      match i
      case 0 => assert m[12] == p[0];
      case 1 => assert m[4] == p[1];
      case 2 => assert m[13] == p[2];
      case 3 => assert m[5] == p[3];
      case 4 => assert m[7] == p[4];
      case 5 => assert m[8] == p[5];
      case 6 => assert m[10] == p[6];
      case 7 => assert m[11] == p[7];
      case 8 => assert m[6] == p[8];
      case 9 => assert m[3] == p[9];
      case 10 => assert m[0] == p[10];
      case 11 => assert m[9] == p[11];
      case 12 => assert m[1] == p[12];
      case _ => assert m[2] == p[13];
    }
  }

  /** Whatever order the code inserts them in, the entries are written in ascending order of their keys. */
  lemma BundleLayout(b: EvidenceBundle)
    ensures FromPairs(BundlePairs(b)) == BundleWritten(b)
  {
    hide KeyLess, FromPairs, ReceiptsJson, TextsJson;
    BundleKeys(b);
    BundleAscends(b);
    BundleRearranged(b);
    BundleSame(BundlePairs(b));
    FromPairsListed(BundlePairs(b), BundleWritten(b));
  }

  lemma BundleTokens(b: EvidenceBundle)
    ensures forall i :: 0 <= i < 14 ==> Tokens(BundlePairs(b)[i].value)
  {
    hide BundleKey, ReceiptJson;
    forall i | 0 <= i < |b.receipts|
      ensures Tokens(ReceiptsJson(b.receipts)[i])
    {
      ReceiptTokens(b.receipts[i]);
    }
    assert Tokens(Array(ReceiptsJson(b.receipts)));
  }

  /** The canonical bytes determine every field of the bundle and of each receipt. */
  lemma BundleInjective(a: EvidenceBundle, b: EvidenceBundle)
    requires BundleBytes(a) == BundleBytes(b)
    ensures a == b
  {
    hide ReceiptsJson, TextsJson, Write, Tokens, BundleKey;
    var p, q := BundlePairs(a), BundlePairs(b);
    BundleKeys(a);
    BundleTokens(a);
    BundleTokens(b);
    ObjectBytesInjective(p, q);
    assert p[0] == q[0] && p[1] == q[1] && p[2] == q[2] && p[3] == q[3] && p[4] == q[4] && p[5] == q[5] && p[6] == q[6];
    assert p[7] == q[7] && p[8] == q[8] && p[9] == q[9] && p[10] == q[10] && p[11] == q[11] && p[12] == q[12] && p[13] == q[13];
    ReceiptsInjective(a.receipts, b.receipts);
    TextsInjective(a.idempotencyRecords, b.idempotencyRecords);
    TextsInjective(a.conflictRecords, b.conflictRecords);
    TextsInjective(a.stallRecords, b.stallRecords);
  }

  /** A root verifies for its own bundle; if it verifies for another one, the canonical bytes
      of the two bundles are a SHA-256 collision. */
  lemma TamperEvident(a: EvidenceBundle, b: EvidenceBundle)
    ensures EvidenceRoot(a) == EvidenceRoot(b) <==> a == b || Collision(BundleBytes(a), BundleBytes(b))
  {
    hide BundleBytes, Digest;
    if EvidenceRoot(a) == EvidenceRoot(b) {
      EqualHashHex(BundleBytes(a), BundleBytes(b));
      if BundleBytes(a) == BundleBytes(b) {
        BundleInjective(a, b);
      }
    }
  }
}
