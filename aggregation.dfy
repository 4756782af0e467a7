/**
 * The two accumulations in updateCharts: expense totals per category into
 * `categories`, and signed amounts per month into `moisData`. Both are the
 * same fold over a list of records: each record that has a bucket adds its
 * amount to that bucket's property, creating the property on first use.
 */
module Aggregation {
  import opened Wrappers
  import opened Sorting
  import opened JsObject
  import opened Operations

  /** The forEach callback: `if (bucket) acc[bucket] = (acc[bucket] || 0) + op.montant`. */
  function Step(acc: Assoc, op: Operation, bucketOf: Operation -> Option<string>): Assoc {
    match bucketOf(op)
    case None => acc
    case Some(k) => AddTo(acc, k, op.montant)
  }

  /** The accumulator, starting from `{}`, after the forEach has visited every record of `ops`. */
  function Totals(ops: seq<Operation>, bucketOf: Operation -> Option<string>): Assoc
    decreases |ops|
  {
    if ops == [] then []
    else Step(Totals(ops[..|ops| - 1], bucketOf), ops[|ops| - 1], bucketOf)
  }

  /** Some record of `ops` falls in bucket `k`. */
  ghost predicate Occurs(ops: seq<Operation>, bucketOf: Operation -> Option<string>, k: string) {
    exists i :: 0 <= i < |ops| && bucketOf(ops[i]) == Some(k)
  }

  /** The sum of the amounts of the records of `ops` that fall in bucket `k`. */
  function SumFor(ops: seq<Operation>, bucketOf: Operation -> Option<string>, k: string): int
    decreases |ops|
  {
    if ops == [] then 0
    else
      var last := ops[|ops| - 1];
      SumFor(ops[..|ops| - 1], bucketOf, k) + (if bucketOf(last) == Some(k) then last.montant else 0)
  }

  /** The sum of the amounts of the records of `ops` that fall in some bucket. */
  function SumBucketed(ops: seq<Operation>, bucketOf: Operation -> Option<string>): int
    decreases |ops|
  {
    if ops == [] then 0
    else
      var last := ops[|ops| - 1];
      SumBucketed(ops[..|ops| - 1], bucketOf) + (if bucketOf(last).Some? then last.montant else 0)
  }

  /** The position of the first record of `ops` in bucket `k`, or |ops| when there is none. */
  function FirstIndex(ops: seq<Operation>, bucketOf: Operation -> Option<string>, k: string): (i: nat)
    ensures i <= |ops|
    ensures i < |ops| ==> bucketOf(ops[i]) == Some(k)
    ensures forall j :: 0 <= j < i ==> bucketOf(ops[j]) != Some(k)
  {
    if ops == [] then 0
    else if bucketOf(ops[0]) == Some(k) then 0
    else 1 + FirstIndex(ops[1..], bucketOf, k)
  }

  lemma OccursSnoc(ops: seq<Operation>, bucketOf: Operation -> Option<string>, k: string)
    requires ops != []
    ensures Occurs(ops, bucketOf, k) <==>
      Occurs(ops[..|ops| - 1], bucketOf, k) || bucketOf(ops[|ops| - 1]) == Some(k)
  {
    var p := ops[..|ops| - 1];
    if Occurs(ops, bucketOf, k) {
      var i :| 0 <= i < |ops| && bucketOf(ops[i]) == Some(k);
      if i < |p| {
        assert p[i] == ops[i];
      }
    }
    if Occurs(p, bucketOf, k) {
      var i :| 0 <= i < |p| && bucketOf(p[i]) == Some(k);
      assert ops[i] == p[i];
    }
  }

  lemma SumForAbsent(ops: seq<Operation>, bucketOf: Operation -> Option<string>, k: string)
    requires !Occurs(ops, bucketOf, k)
    ensures SumFor(ops, bucketOf, k) == 0
    decreases |ops|
  {
    if ops != [] {
      OccursSnoc(ops, bucketOf, k);
      SumForAbsent(ops[..|ops| - 1], bucketOf, k);
    }
  }

  lemma FirstIndexSnoc(ops: seq<Operation>, bucketOf: Operation -> Option<string>, k: string)
    requires ops != []
    ensures var p := ops[..|ops| - 1];
      && (Occurs(p, bucketOf, k) ==> FirstIndex(ops, bucketOf, k) == FirstIndex(p, bucketOf, k) < |p|)
      && (!Occurs(p, bucketOf, k) && bucketOf(ops[|ops| - 1]) == Some(k) ==> FirstIndex(ops, bucketOf, k) == |p|)
  {
    var p := ops[..|ops| - 1];
    var i, j := FirstIndex(ops, bucketOf, k), FirstIndex(p, bucketOf, k);
    if Occurs(p, bucketOf, k) {
      var w :| 0 <= w < |p| && bucketOf(p[w]) == Some(k);
      assert ops[w] == p[w];
      assert j <= w;
      assert ops[j] == p[j];
    }
  }

  /**
   * The accumulator has a property for bucket `k` exactly when some record of
   * `ops` falls in it, and the property holds the sum of those records' amounts.
   */
  lemma {:induction false} TotalsGet(ops: seq<Operation>, bucketOf: Operation -> Option<string>, k: string)
    ensures Get(Totals(ops, bucketOf), k) ==
              (if Occurs(ops, bucketOf, k) then Some(SumFor(ops, bucketOf, k)) else None)
    decreases |ops|
  {
    if ops != [] {
      var p, last := ops[..|ops| - 1], ops[|ops| - 1];
      var acc := Totals(p, bucketOf);
      assert Totals(ops, bucketOf) == Step(acc, last, bucketOf);
      TotalsGet(p, bucketOf, k);
      OccursSnoc(ops, bucketOf, k);
      if !Occurs(p, bucketOf, k) {
        SumForAbsent(p, bucketOf, k);
      }
      match bucketOf(last)
      case None =>
        assert SumFor(ops, bucketOf, k) == SumFor(p, bucketOf, k);
      case Some(b) =>
        if b == k {
          assert SumFor(ops, bucketOf, k) == SumFor(p, bucketOf, k) + last.montant;
          GetOrZero(acc, k);
          AddToGet(acc, k, last.montant);
        } else {
          assert SumFor(ops, bucketOf, k) == SumFor(p, bucketOf, k);
          AddToOthers(acc, b, last.montant, k);
        }
    }
  }

  /** The accumulator has a property for bucket `k` exactly when some record falls in it. */
  lemma TotalsKeys(ops: seq<Operation>, bucketOf: Operation -> Option<string>, k: string)
    ensures k in Keys(Totals(ops, bucketOf)) <==> Occurs(ops, bucketOf, k)
  {
    TotalsGet(ops, bucketOf, k);
    GetDefined(Totals(ops, bucketOf), k);
  }

  /** No bucket gets two properties. */
  lemma {:induction false} TotalsDistinct(ops: seq<Operation>, bucketOf: Operation -> Option<string>)
    ensures DistinctKeys(Totals(ops, bucketOf))
    decreases |ops|
  {
    if ops != [] {
      var p, last := ops[..|ops| - 1], ops[|ops| - 1];
      var acc := Totals(p, bucketOf);
      TotalsDistinct(p, bucketOf);
      match bucketOf(last)
      case None =>
      case Some(k) =>
        AddToKeys(acc, k, last.montant);
        if k !in Keys(acc) {
          var ks := Keys(acc) + [k];
          forall a, c | 0 <= a < c < |ks|
            ensures ks[a] != ks[c]
          {
            if c == |ks| - 1 {
              assert ks[a] == Keys(acc)[a];
            }
          }
        }
    }
  }

  /** Buckets get their properties in the order in which their first records come in `ops`. */
  lemma {:induction false} TotalsOrder(ops: seq<Operation>, bucketOf: Operation -> Option<string>)
    ensures var ks := Keys(Totals(ops, bucketOf));
      forall a, c :: 0 <= a < c < |ks| ==> FirstIndex(ops, bucketOf, ks[a]) < FirstIndex(ops, bucketOf, ks[c])
    decreases |ops|
  {
    if ops != [] {
      var p, last := ops[..|ops| - 1], ops[|ops| - 1];
      var acc := Totals(p, bucketOf);
      var ks, old_ks := Keys(Totals(ops, bucketOf)), Keys(acc);
      TotalsOrder(p, bucketOf);
      assert ks == old_ks || (bucketOf(last).Some? && bucketOf(last).value !in old_ks && ks == old_ks + [bucketOf(last).value]) by {
        match bucketOf(last)
        case None =>
        case Some(k) => AddToKeys(acc, k, last.montant);
      }
      forall a, c | 0 <= a < c < |ks|
        ensures FirstIndex(ops, bucketOf, ks[a]) < FirstIndex(ops, bucketOf, ks[c])
      {
        assert a < |old_ks| && ks[a] == old_ks[a];
        TotalsKeys(p, bucketOf, ks[a]);
        FirstIndexSnoc(ops, bucketOf, ks[a]);
        if c < |old_ks| {
          assert ks[c] == old_ks[c];
          TotalsKeys(p, bucketOf, ks[c]);
          FirstIndexSnoc(ops, bucketOf, ks[c]);
        } else {
          TotalsKeys(p, bucketOf, ks[c]);
          assert bucketOf(last) == Some(ks[c]) && ks[c] !in old_ks;
          FirstIndexSnoc(ops, bucketOf, ks[c]);
        }
      }
    }
  }

  /** The properties together hold the amounts of all records that have a bucket. */
  lemma {:induction false} TotalsSum(ops: seq<Operation>, bucketOf: Operation -> Option<string>)
    ensures Sum(Values(Totals(ops, bucketOf))) == SumBucketed(ops, bucketOf)
    decreases |ops|
  {
    if ops != [] {
      var p := ops[..|ops| - 1];
      TotalsSum(p, bucketOf);
      match bucketOf(ops[|ops| - 1])
      case None =>
      case Some(b) => AddToSum(Totals(p, bucketOf), b, ops[|ops| - 1].montant);
    }
  }

  lemma {:induction false} SumForPositive(ops: seq<Operation>, bucketOf: Operation -> Option<string>, k: string)
    requires forall i :: 0 <= i < |ops| ==> ops[i].montant > 0
    requires Occurs(ops, bucketOf, k)
    ensures SumFor(ops, bucketOf, k) > 0
    decreases |ops|
  {
    var p := ops[..|ops| - 1];
    OccursSnoc(ops, bucketOf, k);
    if Occurs(p, bucketOf, k) {
      SumForPositive(p, bucketOf, k);
    } else {
      SumForAbsent(p, bucketOf, k);
    }
  }

  // Totals of the expenses per category (static/script.js:42-47)

  /**
   * The forEach over the expenses: each expense with a truthy `categorie`
   * adds its amount to that category's property.
   */
  method TotalsByCategory(depenses: seq<Operation>) returns (categories: Assoc)
    ensures categories == Totals(depenses, CategoryOf)
  {
    categories := [];
    for i := 0 to |depenses|
      invariant categories == Totals(depenses[..i], CategoryOf)
    {
      var d := depenses[i];
      if Truthy(d.categorie) {
        categories := AddTo(categories, d.categorie.value, d.montant);
      }
      assert depenses[..i + 1][..i] == depenses[..i];
    }
    assert depenses[..|depenses|] == depenses;
  }

  /** An expense falls in category `k` exactly when its `categorie` is `k` and `k` is not empty. */
  lemma CategoryOccurs(depenses: seq<Operation>, k: string)
    ensures Occurs(depenses, CategoryOf, k) <==>
              k != "" && exists i :: 0 <= i < |depenses| && depenses[i].categorie == Some(k)
  {
    if k != "" && exists i :: 0 <= i < |depenses| && depenses[i].categorie == Some(k) {
      var i :| 0 <= i < |depenses| && depenses[i].categorie == Some(k);
      assert CategoryOf(depenses[i]) == Some(k);
    }
  }

  /**
   * One property per distinct non-empty `categorie`, none for an empty or
   * absent one; each holds the sum of the amounts of the expenses with exactly
   * that category; together they hold the amounts of all categorised expenses.
   */
  lemma CategoryTotalsCorrect(depenses: seq<Operation>)
    ensures var categories := Totals(depenses, CategoryOf);
      && DistinctKeys(categories)
      && (forall k :: k in Keys(categories) <==>
            k != "" && exists i :: 0 <= i < |depenses| && depenses[i].categorie == Some(k))
      && (forall i :: 0 <= i < |categories| ==>
            categories[i].value == SumFor(depenses, CategoryOf, categories[i].key))
      && Sum(Values(categories)) == SumBucketed(depenses, CategoryOf)
  {
    var categories := Totals(depenses, CategoryOf);
    TotalsDistinct(depenses, CategoryOf);
    TotalsSum(depenses, CategoryOf);
    forall k
      ensures k in Keys(categories) <==>
                k != "" && exists i :: 0 <= i < |depenses| && depenses[i].categorie == Some(k)
    {
      TotalsKeys(depenses, CategoryOf, k);
      CategoryOccurs(depenses, k);
    }
    forall i | 0 <= i < |categories|
      ensures categories[i].value == SumFor(depenses, CategoryOf, categories[i].key)
    {
      TotalsGet(depenses, CategoryOf, categories[i].key);
      GetEntry(categories, i);
    }
  }

  /** When every stored expense amount is positive, every category total is positive. */
  lemma CategoryTotalsPositive(depenses: seq<Operation>)
    requires forall i :: 0 <= i < |depenses| ==> depenses[i].montant > 0
    ensures var categories := Totals(depenses, CategoryOf);
      forall i :: 0 <= i < |categories| ==> categories[i].value > 0
  {
    var categories := Totals(depenses, CategoryOf);
    forall i | 0 <= i < |categories|
      ensures categories[i].value > 0
    {
      TotalsDistinct(depenses, CategoryOf);
      TotalsGet(depenses, CategoryOf, categories[i].key);
      GetEntry(categories, i);
      SumForPositive(depenses, CategoryOf, categories[i].key);
    }
  }

  // Net amount per month (static/script.js:50-59)

  /**
   * The forEach over all operations: each record with a truthy `created_at`
   * adds its signed amount to the property of its month.
   */
  method NetByMonth(allOperations: seq<Operation>, monthOf: string -> MonthKey) returns (moisData: Assoc)
    ensures moisData == Totals(allOperations, MonthBucket(monthOf))
  {
    moisData := [];
    for i := 0 to |allOperations|
      invariant moisData == Totals(allOperations[..i], MonthBucket(monthOf))
    {
      var op := allOperations[i];
      if Truthy(op.createdAt) {
        var mois := monthOf(op.createdAt.value);
        moisData := AddTo(moisData, mois, op.montant);
      }
      assert allOperations[..i + 1][..i] == allOperations[..i];
    }
    assert allOperations[..|allOperations|] == allOperations;
  }

  lemma {:induction false} SumForConcat(a: seq<Operation>, b: seq<Operation>, bucketOf: Operation -> Option<string>, k: string)
    ensures SumFor(a + b, bucketOf, k) == SumFor(a, bucketOf, k) + SumFor(b, bucketOf, k)
    decreases |b|
  {
    if b == [] {
      assert a + b == a;
    } else {
      assert (a + b)[..|a + b| - 1] == a + b[..|b| - 1];
      SumForConcat(a, b[..|b| - 1], bucketOf, k);
    }
  }

  lemma OccursConcat(a: seq<Operation>, b: seq<Operation>, bucketOf: Operation -> Option<string>, k: string)
    ensures Occurs(a + b, bucketOf, k) <==> Occurs(a, bucketOf, k) || Occurs(b, bucketOf, k)
  {
    if Occurs(a + b, bucketOf, k) {
      var i :| 0 <= i < |a + b| && bucketOf((a + b)[i]) == Some(k);
      if i >= |a| {
        assert (a + b)[i] == b[i - |a|];
      }
    }
    if Occurs(a, bucketOf, k) {
      var i :| 0 <= i < |a| && bucketOf(a[i]) == Some(k);
      assert (a + b)[i] == a[i];
    }
    if Occurs(b, bucketOf, k) {
      var i :| 0 <= i < |b| && bucketOf(b[i]) == Some(k);
      assert (a + b)[|a| + i] == b[i];
    }
  }

  /** Negating the amounts flips the sign of every month's sum and moves no record to another month. */
  lemma {:induction false} NegatedMonths(depenses: seq<Operation>, monthOf: string -> MonthKey, k: string)
    ensures SumFor(NegatedAll(depenses), MonthBucket(monthOf), k) == -SumFor(depenses, MonthBucket(monthOf), k)
    ensures Occurs(NegatedAll(depenses), MonthBucket(monthOf), k) <==> Occurs(depenses, MonthBucket(monthOf), k)
    decreases |depenses|
  {
    var mb := MonthBucket(monthOf);
    var neg := NegatedAll(depenses);
    assert forall i :: 0 <= i < |depenses| ==> mb(neg[i]) == mb(depenses[i]);
    if depenses != [] {
      var p := depenses[..|depenses| - 1];
      assert neg[..|neg| - 1] == NegatedAll(p);
      NegatedMonths(p, monthOf, k);
    }
  }

  /** A month label has a '-', so it is never an array index. */
  lemma MonthKeyNotIndex(k: MonthKey)
    ensures !IsArrayIndex(k)
  {
    var i :| 0 <= i < |k| && k[i] == '-';
    assert !Strings.IsDigit(k[i]);
  }

  /** The records of month `k` among all operations are its incomes and its negated expenses. */
  lemma MonthSplit(revenus: seq<Operation>, depenses: seq<Operation>, monthOf: string -> MonthKey, k: string)
    ensures SumFor(AllOperations(revenus, depenses), MonthBucket(monthOf), k) ==
              SumFor(revenus, MonthBucket(monthOf), k) - SumFor(depenses, MonthBucket(monthOf), k)
    ensures Occurs(AllOperations(revenus, depenses), MonthBucket(monthOf), k) <==>
              Occurs(revenus, MonthBucket(monthOf), k) || Occurs(depenses, MonthBucket(monthOf), k)
  {
    var neg := NegatedAll(depenses);
    SumForConcat(revenus, neg, MonthBucket(monthOf), k);
    OccursConcat(revenus, neg, MonthBucket(monthOf), k);
    NegatedMonths(depenses, monthOf, k);
  }

  /** The property for month `k` holds the incomes of that month minus its expenses. */
  lemma MonthTotalsGet(revenus: seq<Operation>, depenses: seq<Operation>, monthOf: string -> MonthKey, k: string)
    ensures var mb := MonthBucket(monthOf);
      Get(Totals(AllOperations(revenus, depenses), mb), k) ==
        if Occurs(revenus, mb, k) || Occurs(depenses, mb, k)
        then Some(SumFor(revenus, mb, k) - SumFor(depenses, mb, k))
        else None
  {
    var mb := MonthBucket(monthOf);
    var all := AllOperations(revenus, depenses);
    TotalsGet(all, mb, k);
    MonthSplit(revenus, depenses, monthOf, k);
  }

  /** Every property of the month accumulator is named by a month label. */
  lemma MonthKeysNotIndex(ops: seq<Operation>, monthOf: string -> MonthKey)
    ensures NamedKeysOnly(Totals(ops, MonthBucket(monthOf)))
  {
    var mb := MonthBucket(monthOf);
    var moisData := Totals(ops, mb);
    forall i | 0 <= i < |moisData|
      ensures IsNamedKey(moisData[i].key)
    {
      var k := moisData[i].key;
      assert Keys(moisData)[i] == k;
      TotalsKeys(ops, mb, k);
      var j :| 0 <= j < |ops| && mb(ops[j]) == Some(k);
      var c := ops[j].createdAt;
      assert Truthy(c) && k == monthOf(c.value);
      MonthKeyNotIndex(monthOf(c.value));
    }
  }

  /**
   * One property per month in which some record has a truthy `created_at`;
   * each holds the incomes of that month minus its expenses. No month label
   * is an array index, so Object.keys and Object.values keep creation order.
   */
  lemma MonthTotalsCorrect(revenus: seq<Operation>, depenses: seq<Operation>, monthOf: string -> MonthKey)
    ensures var mb := MonthBucket(monthOf); var moisData := Totals(AllOperations(revenus, depenses), mb);
      && DistinctKeys(moisData)
      && (forall k :: k in Keys(moisData) <==> Occurs(revenus, mb, k) || Occurs(depenses, mb, k))
      && (forall i :: 0 <= i < |moisData| ==>
            moisData[i].value == SumFor(revenus, mb, moisData[i].key) - SumFor(depenses, mb, moisData[i].key))
      && NamedKeysOnly(moisData)
  {
    var mb := MonthBucket(monthOf);
    var all := AllOperations(revenus, depenses);
    var moisData := Totals(all, mb);
    MonthKeysNotIndex(all, monthOf);
    TotalsDistinct(all, mb);
    forall k
      ensures k in Keys(moisData) <==> Occurs(revenus, mb, k) || Occurs(depenses, mb, k)
    {
      MonthTotalsGet(revenus, depenses, monthOf, k);
      GetDefined(moisData, k);
    }
    forall i | 0 <= i < |moisData|
      ensures moisData[i].value == SumFor(revenus, mb, moisData[i].key) - SumFor(depenses, mb, moisData[i].key)
    {
      GetEntry(moisData, i);
      MonthTotalsGet(revenus, depenses, monthOf, moisData[i].key);
    }
  }
}
