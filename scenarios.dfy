/**
 * Worked inputs for updateCharts, with their chart data computed through the
 * model: the category totals of the pie, the monthly net amounts of the line,
 * and a pair of incomes listed newest first (the order `GET /api/operations`
 * returns them in) for which the line chart's labels and values disagree.
 */
module Scenarios {
  import opened Wrappers
  import opened Sorting
  import opened Strings
  import opened JsObject
  import opened Operations
  import opened Aggregation
  import opened Dashboard

  // Shapes of small inputs

  /** One more record: one more forEach step. */
  lemma TotalsSnoc(ops: seq<Operation>, op: Operation, bucketOf: Operation -> Option<string>)
    ensures Totals(ops + [op], bucketOf) == Step(Totals(ops, bucketOf), op, bucketOf)
  {
    assert (ops + [op])[..|ops|] == ops;
  }

  /** Adding to a property other than the only one creates a second property. */
  lemma AddToSecond(e: Entry, k: string, x: int)
    requires e.key != k
    ensures AddTo([e], k, x) == [e, Entry(k, x)]
  {
    assert AddTo([e], k, x) == [e] + AddTo([e][1..], k, x);
    assert [e][1..] == [];
  }

  /** Two records in two different buckets, in that order. */
  lemma TotalsTwo(a: Operation, b: Operation, bucketOf: Operation -> Option<string>, ka: string, kb: string)
    requires bucketOf(a) == Some(ka) && bucketOf(b) == Some(kb) && ka != kb
    ensures Totals([a, b], bucketOf) == [Entry(ka, a.montant), Entry(kb, b.montant)]
    ensures SumFor([a, b], bucketOf, ka) == a.montant
    ensures SumFor([a, b], bucketOf, kb) == b.montant
  {
    var e := Entry(ka, a.montant);
    assert [a, b][..1] == [a];
    assert [a][..0] == [];
    assert Totals([a], bucketOf) == Step([], a, bucketOf) == AddTo([], ka, a.montant) == [e];
    assert Totals([a, b], bucketOf) == Step([e], b, bucketOf) == AddTo([e], kb, b.montant);
    AddToSecond(e, kb, b.montant);
    assert SumFor([a], bucketOf, ka) == a.montant && SumFor([a], bucketOf, kb) == 0;
  }

  /**
   * Two records in bucket `k1`, then one in bucket `k2`, then one in no
   * bucket: two properties, in that order.
   */
  lemma TotalsFour(a: Operation, b: Operation, c: Operation, d: Operation,
                   bucketOf: Operation -> Option<string>, k1: string, k2: string)
    requires bucketOf(a) == bucketOf(b) == Some(k1) && bucketOf(c) == Some(k2) && bucketOf(d) == None
    requires k1 != k2
    ensures Totals([a, b, c, d], bucketOf) == [Entry(k1, a.montant + b.montant), Entry(k2, c.montant)]
  {
    var e1, e2 := Entry(k1, a.montant), Entry(k1, a.montant + b.montant);
    TotalsSnoc([], a, bucketOf);
    assert [] + [a] == [a];
    assert Totals([a], bucketOf) == [e1];
    TotalsSnoc([a], b, bucketOf);
    assert [a] + [b] == [a, b];
    assert Totals([a, b], bucketOf) == AddTo([e1], k1, b.montant) == [e2];
    TotalsSnoc([a, b], c, bucketOf);
    assert [a, b] + [c] == [a, b, c];
    AddToSecond(e2, k2, c.montant);
    TotalsSnoc([a, b, c], d, bucketOf);
    assert [a, b, c] + [d] == [a, b, c, d];
  }

  /** An object with two named properties: Object.keys and Object.values list them as created. */
  lemma TwoNamedProperties(k1: string, v1: int, k2: string, v2: int)
    requires IsNamedKey(k1) && IsNamedKey(k2) && k1 != k2
    ensures Keys([Entry(k1, v1), Entry(k2, v2)]) == [k1, k2]
    ensures ObjectKeys([Entry(k1, v1), Entry(k2, v2)]) == [k1, k2]
    ensures ObjectValues([Entry(k1, v1), Entry(k2, v2)]) == [v1, v2]
  {
    var m := [Entry(k1, v1), Entry(k2, v2)];
    assert Keys(m) == [k1, k2];
    ObjectKeysInsertionOrder(m);
  }

  /** Sorting two different strings puts the smaller first. */
  lemma SortTwo(a: string, b: string)
    requires StringLt(a, b)
    ensures SortStrings([a, b]) == [a, b]
    ensures SortStrings([b, a]) == [a, b]
  {
    SortTwoInOrder(a, b);
    SortTwoSwapped(a, b);
  }

  lemma SortTwoInOrder(a: string, b: string)
    requires StringLe(a, b)
    ensures SortStrings([a, b]) == [a, b]
  {
    assert Sorted([a, b], StringLe);
    SortStringsUnchanged([a, b]);
  }

  lemma SortTwoSwapped(a: string, b: string)
    requires StringLt(a, b)
    ensures SortStrings([b, a]) == [a, b]
  {
    if StringLe(b, a) {
      StringLeAntisymmetric(a, b);
    }
    assert [b, a][1..] == [a];
    assert Sort([a], StringLe) == [a];
    assert Insert(b, [a], StringLe) == [a] + Insert(b, [], StringLe);
  }

  /** Looking up either property of a two-property object. */
  lemma GetPair(k1: string, v1: int, k2: string, v2: int)
    requires k1 != k2
    ensures GetOr([Entry(k1, v1), Entry(k2, v2)], k1, 0) == v1
    ensures GetOr([Entry(k1, v1), Entry(k2, v2)], k2, 0) == v2
  {
    var m := [Entry(k1, v1), Entry(k2, v2)];
    assert m[1..] == [Entry(k2, v2)];
    assert Get(m, k2) == Some(v2);
    assert Get(m, k1) == Some(v1);
  }

  /** The corrected series of an object whose two properties were created in descending order. */
  lemma SeriesOfDescendingPair(k1: string, v1: int, k2: string, v2: int)
    requires StringLt(k2, k1)
    ensures MonthlySeries([Entry(k1, v1), Entry(k2, v2)]) == ChartData([k2, k1], [v2, v1])
  {
    var m := [Entry(k1, v1), Entry(k2, v2)];
    assert Keys(m) == [k1, k2];
    SortTwo(k2, k1);
    GetPair(k1, v1, k2, v2);
  }

  /** A label with a letter in front is not an array index. */
  lemma LetterFirstNotIndex(k: string)
    requires |k| > 0 && !IsDigit(k[0])
    ensures IsNamedKey(k)
  {
  }

  // Pie chart

  const food1 := Operation(1, 5000, None, Some("Food"), Some("2024-01-05T10:00:00"))
  const food2 := Operation(2, 3000, None, Some("Food"), Some("2024-01-06T10:00:00"))
  const transport := Operation(3, 2000, None, Some("Transport"), Some("2024-01-07T10:00:00"))
  const untagged := Operation(4, 1000, None, Some(""), Some("2024-01-08T10:00:00"))

  /**
   * Expenses of 50.00 and 30.00 for Food, 20.00 for Transport and 10.00 with
   * an empty category: the pie shows Food at 80.00 and Transport at 20.00,
   * and the expense with the empty category is left out.
   */
  lemma PieChartExample()
    ensures PieChart(Totals([food1, food2, transport, untagged], CategoryOf))
              == ChartData(["Food", "Transport"], [8000, 2000])
  {
    TotalsFour(food1, food2, transport, untagged, CategoryOf, "Food", "Transport");
    LetterFirstNotIndex("Food");
    LetterFirstNotIndex("Transport");
    TwoNamedProperties("Food", 8000, "Transport", 2000);
  }

  // Line chart

  /** The month labels of the timestamps used below, and of a text that only starts like one. */
  lemma Months()
    ensures IsoMonth("2024-01-15T09:00:00") == "2024-01"
    ensures IsoMonth("2024-01-20T09:00:00") == "2024-01"
    ensures IsoMonth("2024-02-05T09:00:00") == "2024-02"
    ensures IsoMonth("2024-02-10T09:00:00") == "2024-02"
    ensures IsoMonth("2024-01garbage") == "2024-01"
  {
    assert "2024-01garbage"[..7] == "2024-01";
    assert "2024-01-15T09:00:00"[..7] == "2024-01";
    assert "2024-01-20T09:00:00"[..7] == "2024-01";
    assert "2024-02-05T09:00:00"[..7] == "2024-02";
    assert "2024-02-10T09:00:00"[..7] == "2024-02";
  }

  /** January sorts before February, and neither label is an array index. */
  lemma JanuaryFirst()
    ensures StringLt("2024-01", "2024-02")
    ensures IsNamedKey("2024-01") && IsNamedKey("2024-02")
  {
    StringLtAt("2024-01", "2024-02", 6);
    MonthKeyNotIndex("2024-01");
    MonthKeyNotIndex("2024-02");
  }

  const salary := Operation(1, 100000, Some("Salaire"), None, Some("2024-01-15T09:00:00"))
  const rent := Operation(1, 30000, None, Some("Loyer"), Some("2024-01-20T09:00:00"))
  const groceries := Operation(2, 10000, None, Some("Courses"), Some("2024-02-05T09:00:00"))
  const undated := Operation(3, 5000, None, Some("Divers"), None)

  /**
   * An income of 1000.00 in January, expenses of 300.00 in January and 100.00
   * in February, and an expense without `created_at`: the line shows January
   * at 700.00 and February at -100.00, and the undated expense is skipped.
   */
  lemma LineChartExample()
    ensures LineChart(Totals(AllOperations([salary], [rent, groceries, undated]), MonthBucket(IsoMonth)))
              == ChartData(["2024-01", "2024-02"], [70000, -10000])
  {
    var r, g, u := Negated(rent), Negated(groceries), Negated(undated);
    assert AllOperations([salary], [rent, groceries, undated]) == [salary, r, g, u];
    Months();
    MonthBucketApply(IsoMonth, salary);
    MonthBucketApply(IsoMonth, r);
    MonthBucketApply(IsoMonth, g);
    MonthBucketApply(IsoMonth, u);
    TotalsFour(salary, r, g, u, MonthBucket(IsoMonth), "2024-01", "2024-02");
    JanuaryFirst();
    TwoNamedProperties("2024-01", 70000, "2024-02", -10000);
    SortTwo("2024-01", "2024-02");
  }

  const bonus := Operation(2, 10000, Some("Prime"), None, Some("2024-02-10T09:00:00"))
  const wage := Operation(1, 5000, Some("Salaire"), None, Some("2024-01-15T09:00:00"))

  /** The month accumulator for the incomes `[bonus, wage]`, newest first, and no expense. */
  lemma NewestFirstTotals()
    ensures Totals(AllOperations([bonus, wage], []), MonthBucket(IsoMonth))
              == [Entry("2024-02", 10000), Entry("2024-01", 5000)]
    ensures SumFor([bonus, wage], MonthBucket(IsoMonth), "2024-01") == 5000
    ensures SumFor([bonus, wage], MonthBucket(IsoMonth), "2024-02") == 10000
  {
    assert AllOperations([bonus, wage], []) == [bonus, wage];
    Months();
    MonthBucketApply(IsoMonth, bonus);
    MonthBucketApply(IsoMonth, wage);
    TotalsTwo(bonus, wage, MonthBucket(IsoMonth), "2024-02", "2024-01");
  }

  /**
   * With the incomes newest first, the line chart puts January's label over
   * February's 100.00 and February's label over January's 50.00: the first
   * label's value is not that month's net amount.
   */
  lemma LineChartMisaligned()
    ensures var mb := MonthBucket(IsoMonth);
      var line := LineChart(Totals(AllOperations([bonus, wage], []), mb));
      && line == ChartData(["2024-01", "2024-02"], [10000, 5000])
      && line.values[0] != SumFor([bonus, wage], mb, line.labels[0]) - SumFor([], mb, line.labels[0])
  {
    NewestFirstTotals();
    JanuaryFirst();
    TwoNamedProperties("2024-02", 10000, "2024-01", 5000);
    SortTwo("2024-01", "2024-02");
  }

  /** For the same incomes the corrected series pairs each month with its own net amount. */
  lemma MonthlySeriesExample()
    ensures MonthlySeries(Totals(AllOperations([bonus, wage], []), MonthBucket(IsoMonth)))
              == ChartData(["2024-01", "2024-02"], [5000, 10000])
  {
    NewestFirstTotals();
    JanuaryFirst();
    SeriesOfDescendingPair("2024-02", 10000, "2024-01", 5000);
  }
}
