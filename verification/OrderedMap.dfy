/** Building JSON objects by inserting keys one after another, as the hashed records are built. */
module OrderedMap {
  import opened Wrappers
  import opened Bytes
  import opened CanonicalJson

  /** The map left by inserting `pairs` in order. */
  function FromPairs(pairs: seq<Entry>): (m: seq<Entry>) {
    if pairs == [] then []
    else
      var e := pairs[|pairs| - 1];
      Insert(FromPairs(pairs[..|pairs| - 1]), e.key, e.value)
  }

  /** A `BTreeMap<String, CanonicalValue>` on its way to holding the pairs of `plan`. */
  class BTreeMap {
    var entries: seq<Entry>
    ghost const plan: seq<Entry>
    ghost var done: nat

    ghost predicate Valid()
      reads this
    {
      done <= |plan| && entries == FromPairs(plan[..done])
    }

    constructor (ghost plan: seq<Entry>)
      ensures Valid() && done == 0 && this.plan == plan
    {
      entries := [];
      this.plan, done := plan, 0;
    }

    method Put(k: string, v: Json)
      requires Valid() && done < |plan| && plan[done] == Entry(k, v)
      modifies this
      ensures Valid() && done == old(done) + 1
    {
      entries := Insert(entries, k, v);
      done := done + 1;
      assert plan[..done][..done - 1] == plan[..done - 1];
    }

    method Take() returns (v: Json)
      requires Valid() && done == |plan|
      ensures v == Object(FromPairs(plan))
    {
      assert plan[..done] == plan;
      v := Object(entries);
    }
  }

  predicate DistinctKeys(pairs: seq<Entry>) {
    forall i, j :: 0 <= i < j < |pairs| ==> pairs[i].key != pairs[j].key
  }

  lemma {:induction false} FromPairsLookup(pairs: seq<Entry>, i: nat)
    requires DistinctKeys(pairs) && i < |pairs|
    ensures Lookup(FromPairs(pairs), pairs[i].key) == Some(pairs[i].value)
  {
    var n := |pairs| - 1;
    var rest, e := pairs[..n], pairs[n];
    InsertLookup(FromPairs(rest), e.key, e.value, pairs[i].key);
    if i < n {
      FromPairsLookup(rest, i);
      assert rest[i] == pairs[i];
    }
  }

  /** With the same distinct keys, the map determines every value that was inserted. */
  lemma FromPairsInjective(p: seq<Entry>, q: seq<Entry>)
    requires |p| == |q| && forall i :: 0 <= i < |p| ==> p[i].key == q[i].key
    requires DistinctKeys(p) && FromPairs(p) == FromPairs(q)
    ensures p == q
  {
    forall i | 0 <= i < |p|
      ensures p[i] == q[i]
    {
      FromPairsLookup(p, i);
      FromPairsLookup(q, i);
    }
  }

  /** The map is sorted and holds nothing but inserted pairs. */
  lemma {:induction false} FromPairsSorted(pairs: seq<Entry>)
    ensures Sorted(FromPairs(pairs))
    ensures forall e <- FromPairs(pairs) :: exists i :: 0 <= i < |pairs| && pairs[i] == e
  {
    if pairs != [] {
      var n := |pairs| - 1;
      var rest, last := pairs[..n], pairs[n];
      FromPairsSorted(rest);
      InsertedFrom(FromPairs(rest), last.key, last.value);
      InsertSorted(FromPairs(rest), last.key, last.value);
      forall e | e in FromPairs(pairs)
        ensures exists i :: 0 <= i < |pairs| && pairs[i] == e
      {
        if e == last {
          assert pairs[n] == e;
        } else {
          var i :| 0 <= i < |rest| && rest[i] == e;
          assert pairs[i] == e;
        }
      }
    }
  }

  lemma {:induction false} InsertedFrom(m: seq<Entry>, k: string, v: Json)
    ensures forall e <- Insert(m, k, v) :: e == Entry(k, v) || e in m
  {
    if m != [] {
      InsertedFrom(m[1..], k, v);
    }
  }

  /** An ASCII key is the lesser if it has the lesser character where the two first differ. */
  lemma {:induction false} FirstDifference(a: string, b: string, k: nat)
    requires k < |a| && k < |b| && a[k] < b[k] && b[k] as int < 0x80
    requires forall i :: 0 <= i < k ==> a[i] == b[i] && a[i] as int < 0x80
    ensures KeyLess(a, b)
  {
    assert Utf8All(a) == Utf8(a[0]) + Utf8All(a[1..]) && Utf8All(b) == Utf8(b[0]) + Utf8All(b[1..]);
    if k > 0 {
      FirstDifference(a[1..], b[1..], k - 1);
      assert Utf8All(a)[1..] == Utf8All(a[1..]) && Utf8All(b)[1..] == Utf8All(b[1..]);
    }
  }

  /** The keys ascend from entry to entry. */
  predicate Ascending(m: seq<Entry>) {
    forall i :: 0 <= i < |m| - 1 ==> KeyLess(m[i].key, m[i + 1].key)
  }

  lemma {:induction false} AscendingIsSorted(m: seq<Entry>)
    requires Ascending(m)
    ensures Sorted(m)
  {
    hide KeyLess;
    if m != [] {
      var n := |m| - 1;
      AscendingIsSorted(m[..n]);
      forall i | 0 <= i < n ensures KeyLess(m[i].key, m[n].key) {
        assert KeyLess(m[n - 1].key, m[n].key);
        if i < n - 1 {
          assert KeyLess(m[..n][i].key, m[..n][n - 1].key);
          KeyLessTransitive(m[i].key, m[n - 1].key, m[n].key);
        }
      }
      assert m == m[..n] + [m[n]];
    }
  }

  lemma {:induction false} SortedLookup(m: seq<Entry>, i: nat)
    requires Sorted(m) && i < |m|
    ensures Lookup(m, m[i].key) == Some(m[i].value)
  {
    hide KeyLess;
    if i > 0 {
      KeyOrder(m[0].key, m[i].key);
      assert m[0].key != m[i].key;
      SortedLookup(m[1..], i - 1);
    }
  }

  lemma {:induction false} NoLookup(m: seq<Entry>, k: string)
    requires forall i :: 0 <= i < |m| ==> m[i].key != k
    ensures Lookup(m, k) == None
  {
    if m != [] {
      NoLookup(m[1..], k);
    }
  }

  predicate Within(p: seq<Entry>, q: seq<Entry>) {
    forall i :: 0 <= i < |p| ==> p[i] in q
  }

  /** Whatever the order of insertion, the object lists the pairs in ascending order of their keys. */
  lemma FromPairsListed(pairs: seq<Entry>, m: seq<Entry>)
    requires DistinctKeys(pairs) && Ascending(m)
    requires Within(pairs, m) && Within(m, pairs)
    ensures FromPairs(pairs) == m
  {
    hide KeyLess, FromPairs;
    AscendingIsSorted(m);
    FromPairsSorted(pairs);
    var made := FromPairs(pairs);
    forall k ensures Lookup(made, k) == Lookup(m, k) {
      if i :| 0 <= i < |m| && m[i].key == k {
        SortedLookup(m, i);
        var j :| 0 <= j < |pairs| && pairs[j] == m[i];
        FromPairsLookup(pairs, j);
      } else {
        NoLookup(m, k);
        forall j | 0 <= j < |made| ensures made[j].key != k {
          assert made[j] in made;
          var i :| 0 <= i < |pairs| && pairs[i] == made[j];
          assert pairs[i] in m;
        }
        NoLookup(made, k);
      }
    }
    SortedUnique(made, m);
  }

  lemma FromPairsTokens(pairs: seq<Entry>)
    requires forall i :: 0 <= i < |pairs| ==> Tokens(pairs[i].value)
    ensures Tokens(Object(FromPairs(pairs)))
  {
    FromPairsSorted(pairs);
    var m := FromPairs(pairs);
    forall i | 0 <= i < |m|
      ensures Tokens(m[i].value)
    {
      assert m[i] in m;
    }
  }

  /** Two objects built from the same distinct keys, with equal canonical bytes, were built from equal values. */
  lemma ObjectBytesInjective(p: seq<Entry>, q: seq<Entry>)
    requires |p| == |q| && forall i :: 0 <= i < |p| ==> p[i].key == q[i].key
    requires forall i :: 0 <= i < |p| ==> Tokens(p[i].value) && Tokens(q[i].value)
    requires DistinctKeys(p)
    requires Write(Object(FromPairs(p))) == Write(Object(FromPairs(q)))
    ensures p == q
  {
    FromPairsTokens(p);
    FromPairsTokens(q);
    WriteInjective(Object(FromPairs(p)), Object(FromPairs(q)));
    FromPairsInjective(p, q);
  }

  // ---- Unsigned integers are number tokens ----

  lemma {:induction false} DigitRunOfDigits(s: string)
    requires forall i :: 0 <= i < |s| ==> IsDigit(s[i])
    ensures DigitRun(s) == |s|
  {
    if s != "" {
      DigitRunOfDigits(s[1..]);
    }
  }

  lemma DecimalIsNumber(n: nat)
    ensures IsNumber(Decimal(n))
  {
    var s := Decimal(n);
    DigitRunOfDigits(s);
    assert s[0] in s;
    assert s[|s|..] == "";
  }
}
