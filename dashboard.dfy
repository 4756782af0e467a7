/**
 * updateCharts: the pie-chart data (expense totals per category) and the
 * line-chart data (net amount per month) handed to the chart builders.
 */
module Dashboard {
  import opened Wrappers
  import opened Sorting
  import opened Strings
  import opened JsObject
  import opened Operations
  import opened Aggregation

  /** The `labels` and `data` arrays handed to createPieChart or createLineChart. */
  datatype ChartData = ChartData(labels: seq<string>, values: seq<int>)

  /** What updateCharts draws: nothing when a list is missing, otherwise both charts. */
  datatype Charts = Skipped | Drawn(pie: ChartData, line: ChartData)

  /** `createPieChart(Object.keys(categories), Object.values(categories))`. */
  function PieChart(categories: Assoc): ChartData {
    ChartData(ObjectKeys(categories), ObjectValues(categories))
  }

  /** `createLineChart(Object.keys(moisData).sort(), Object.values(moisData))`. */
  function LineChart(moisData: Assoc): ChartData {
    ChartData(SortStrings(ObjectKeys(moisData)), ObjectValues(moisData))
  }

  /** The charts updateCharts draws for two lists that are both present. */
  function ChartsFor(revenus: seq<Operation>, depenses: seq<Operation>, monthOf: string -> MonthKey): Charts {
    Drawn(PieChart(Totals(depenses, CategoryOf)),
          LineChart(Totals(AllOperations(revenus, depenses), MonthBucket(monthOf))))
  }

  /**
   * updateCharts(revenus, depenses). `monthOf` stands for
   * `new Date(created_at)` followed by the year-month formatting.
   */
  method UpdateCharts(revenus: Option<seq<Operation>>, depenses: Option<seq<Operation>>, monthOf: string -> MonthKey)
    returns (charts: Charts)
    ensures charts.Skipped? <==> revenus.None? || depenses.None?
    ensures charts.Drawn? ==> charts == ChartsFor(revenus.value, depenses.value, monthOf)
  {
    if revenus.None? || depenses.None? {
      return Skipped;
    }
    var categories := TotalsByCategory(depenses.value);
    var allOperations := AllOperations(revenus.value, depenses.value);
    var moisData := NetByMonth(allOperations, monthOf);
    charts := Drawn(PieChart(categories), LineChart(moisData));
  }

  /**
   * The pie chart has one label per distinct non-empty category and, at the
   * same position, the sum of the amounts of the expenses of that category;
   * with no expenses both arrays are empty.
   */
  lemma PieChartCorrect(depenses: seq<Operation>)
    ensures var pie := PieChart(Totals(depenses, CategoryOf));
      && |pie.labels| == |pie.values|
      && Distinct(pie.labels)
      && (forall k :: k in pie.labels <==>
            k != "" && exists i :: 0 <= i < |depenses| && depenses[i].categorie == Some(k))
      && (forall i :: 0 <= i < |pie.labels| ==> pie.values[i] == SumFor(depenses, CategoryOf, pie.labels[i]))
      && (depenses == [] ==> pie.labels == [] && pie.values == [])
  {
    var categories := Totals(depenses, CategoryOf);
    var pie := PieChart(categories);
    CategoryTotalsCorrect(depenses);
    ObjectKeysPermutation(categories);
    ObjectKeysDistinct(categories);
    ObjectValuesPaired(categories);
    forall k
      ensures k in pie.labels <==> k in Keys(categories)
    {
      assert k in pie.labels <==> k in multiset(pie.labels);
    }
    forall i | 0 <= i < |pie.labels|
      ensures pie.values[i] == SumFor(depenses, CategoryOf, pie.labels[i])
    {
      TotalsGet(depenses, CategoryOf, pie.labels[i]);
    }
  }

  /**
   * When no category name is an array index (such as "42"), the labels are
   * the categories in the order of their first expense, and the values are
   * the accumulator's values in creation order.
   */
  lemma PieChartCreationOrder(depenses: seq<Operation>)
    requires forall i :: 0 <= i < |depenses| && Truthy(depenses[i].categorie) ==>
               !IsArrayIndex(depenses[i].categorie.value)
    ensures var categories := Totals(depenses, CategoryOf); var pie := PieChart(categories);
      && pie.labels == Keys(categories)
      && pie.values == Values(categories)
      && (forall a, c :: 0 <= a < c < |pie.labels| ==>
            FirstIndex(depenses, CategoryOf, pie.labels[a]) < FirstIndex(depenses, CategoryOf, pie.labels[c]))
  {
    var categories := Totals(depenses, CategoryOf);
    TotalsDistinct(depenses, CategoryOf);
    TotalsOrder(depenses, CategoryOf);
    forall i | 0 <= i < |categories|
      ensures IsNamedKey(categories[i].key)
    {
      var k := categories[i].key;
      assert Keys(categories)[i] == k;
      TotalsKeys(depenses, CategoryOf, k);
      var j :| 0 <= j < |depenses| && CategoryOf(depenses[j]) == Some(k);
    }
    ObjectKeysInsertionOrder(categories);
  }

  /**
   * The line chart's labels are the months that have a record with a truthy
   * `created_at`, each once, in strictly ascending order.
   */
  lemma LineChartLabels(revenus: seq<Operation>, depenses: seq<Operation>, monthOf: string -> MonthKey)
    ensures var mb := MonthBucket(monthOf);
      var moisData := Totals(AllOperations(revenus, depenses), mb);
      var line := LineChart(moisData);
      && |line.labels| == |line.values| == |moisData|
      && (forall i, j :: 0 <= i < j < |line.labels| ==> StringLt(line.labels[i], line.labels[j]))
      && (forall k :: k in line.labels <==> Occurs(revenus, mb, k) || Occurs(depenses, mb, k))
  {
    var mb := MonthBucket(monthOf);
    var moisData := Totals(AllOperations(revenus, depenses), mb);
    var line := LineChart(moisData);
    MonthTotalsCorrect(revenus, depenses, monthOf);
    ObjectKeysInsertionOrder(moisData);
    assert line.labels == SortStrings(Keys(moisData));
    forall k
      ensures k in line.labels <==> k in Keys(moisData)
    {
      assert k in line.labels <==> k in multiset(line.labels);
    }
  }

  /**
   * The line chart's values are the months' net amounts (incomes minus
   * expenses) in the order in which each month's first record comes in
   * `[...revenus, ...depenses]`, not in the order of the labels.
   */
  lemma LineChartValues(revenus: seq<Operation>, depenses: seq<Operation>, monthOf: string -> MonthKey)
    ensures var mb := MonthBucket(monthOf);
      var all := AllOperations(revenus, depenses);
      var moisData := Totals(all, mb);
      var line := LineChart(moisData);
      var created := Keys(moisData);
      && line.values == Values(moisData)
      && (forall i :: 0 <= i < |created| ==>
            line.values[i] == SumFor(revenus, mb, created[i]) - SumFor(depenses, mb, created[i]))
      && (forall a, c :: 0 <= a < c < |created| ==> FirstIndex(all, mb, created[a]) < FirstIndex(all, mb, created[c]))
  {
    var mb := MonthBucket(monthOf);
    var all := AllOperations(revenus, depenses);
    var moisData := Totals(all, mb);
    var created := Keys(moisData);
    MonthKeysNotIndex(all, monthOf);
    TotalsDistinct(all, mb);
    ObjectKeysInsertionOrder(moisData);
    TotalsOrder(all, mb);
    forall i | 0 <= i < |created|
      ensures moisData[i].value == SumFor(revenus, mb, created[i]) - SumFor(depenses, mb, created[i])
    {
      GetEntry(moisData, i);
      MonthTotalsGet(revenus, depenses, monthOf, created[i]);
    }
  }

  /**
   * Label `labels[i]` is drawn with the net amount of that same month for
   * every `i` when the months were created in ascending order, and then the
   * sort changes nothing; when they were not, the sorted labels differ from
   * the creation order that the values follow.
   */
  lemma LineChartAligned(revenus: seq<Operation>, depenses: seq<Operation>, monthOf: string -> MonthKey)
    ensures var mb := MonthBucket(monthOf);
      var moisData := Totals(AllOperations(revenus, depenses), mb);
      var line := LineChart(moisData);
      && (line.labels == Keys(moisData) <==> Sorted(Keys(moisData), StringLe))
      && (Sorted(Keys(moisData), StringLe) ==>
            forall i :: 0 <= i < |line.labels| ==>
              line.values[i] == SumFor(revenus, mb, line.labels[i]) - SumFor(depenses, mb, line.labels[i]))
  {
    var mb := MonthBucket(monthOf);
    var moisData := Totals(AllOperations(revenus, depenses), mb);
    MonthTotalsCorrect(revenus, depenses, monthOf);
    ObjectKeysInsertionOrder(moisData);
    SortStringsUnchanged(Keys(moisData));
    LineChartValues(revenus, depenses, monthOf);
  }

  // The series the line chart was meant to show

  /** The months in ascending order, each paired with its own net amount. */
  function MonthlySeries(moisData: Assoc): ChartData {
    var labels := SortStrings(Keys(moisData));
    ChartData(labels, seq(|labels|, i requires 0 <= i < |labels| => GetOr(moisData, labels[i], 0)))
  }

  /**
   * The sorted series: strictly ascending months, exactly those that have a
   * dated record, each with that month's incomes minus its expenses.
   */
  lemma MonthlySeriesCorrect(revenus: seq<Operation>, depenses: seq<Operation>, monthOf: string -> MonthKey)
    ensures var mb := MonthBucket(monthOf);
      var series := MonthlySeries(Totals(AllOperations(revenus, depenses), mb));
      && |series.labels| == |series.values|
      && (forall i, j :: 0 <= i < j < |series.labels| ==> StringLt(series.labels[i], series.labels[j]))
      && (forall k :: k in series.labels <==> Occurs(revenus, mb, k) || Occurs(depenses, mb, k))
      && (forall i :: 0 <= i < |series.labels| ==>
            series.values[i] == SumFor(revenus, mb, series.labels[i]) - SumFor(depenses, mb, series.labels[i]))
  {
    var mb := MonthBucket(monthOf);
    var moisData := Totals(AllOperations(revenus, depenses), mb);
    var series := MonthlySeries(moisData);
    MonthTotalsCorrect(revenus, depenses, monthOf);
    forall k
      ensures k in series.labels <==> k in Keys(moisData)
    {
      assert k in series.labels <==> k in multiset(series.labels);
    }
    forall i | 0 <= i < |series.labels|
      ensures series.values[i] == SumFor(revenus, mb, series.labels[i]) - SumFor(depenses, mb, series.labels[i])
    {
      MonthTotalsGet(revenus, depenses, monthOf, series.labels[i]);
    }
  }
}
