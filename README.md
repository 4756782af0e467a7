# BudgetWise dashboard charts, modelled in Dafny

BudgetWise is a small personal-budget web application. A Flask backend stores
incomes (`revenus`) and expenses (`depenses`). A browser dashboard draws two
charts from them:

- a pie chart of expense totals per category;
- a line chart of the net amount (incomes minus expenses) per month.

This project models `updateCharts` in `static/script.js`, which builds both
charts' data. It also models the checks and request bodies of the two forms
that create or edit a record (`ajouterOperation` and `modifierOperation`).

How the model is built:

- A JavaScript plain object used as a dictionary is a sequence of
  key/value entries in creation order (`JsObject.Assoc`).
- `Object.keys` follows the own-property order of ECMA-262 (2023 edition),
  section 10.1.11.1 (OrdinaryOwnPropertyKeys). Keys that are array indices
  come first, in ascending numeric order. The other keys follow in creation
  order.
- `Object.values` gives the value of each key in that same order.
- `Array.prototype.sort` without a comparison function compares strings by
  the default comparison of ECMA-262 (2023 edition), section 23.1.3.30: the
  model compares character by character, and a proper prefix of a string
  sorts first. The standard leaves the sorting algorithm to the engine; the
  model uses an insertion sort. On distinct keys every correct sort gives the
  same result, because `Strings.SortStrings` ensures a strictly ascending
  permutation.
- Amounts are whole cents (`int`).
- Both `forEach` accumulations are one fold, `Aggregation.Totals`. It is
  parameterised by the record's bucket: its category, or its month. Each
  property the fold builds is checked against `Aggregation.SumFor`, an
  independent sum over the records of a bucket.
- Parsing and formatting a date is a parameter, `monthOf`. It turns a
  `created_at` string into a month label. Every label contains a `-`:
  `YYYY-MM`, or `NaN-NaN` for a date that does not parse.
  `Operations.IsoMonth` is a reference instance for the backend's
  `isoformat()` timestamps.
- `parseFloat` is a parameter of the form model as well.

The files are:

- `wrappers.dfy`: `Option` and `Result`.
- `sorting.dfy`: filter, insertion sort, sortedness and permutation.
- `strings.dfy`: the default sort order on strings.
- `jsobject.dfy`: objects as dictionaries, `o[k]`, `o[k] = (o[k] || 0) + x`,
  `Object.keys` and `Object.values`.
- `operations.dfy`: the records and the bucket of each record.
- `aggregation.dfy`: the two accumulations and what they compute.
- `dashboard.dfy`: `updateCharts` and the data handed to the two charts.
- `scenarios.dfy`: worked inputs with their chart data.
- `form.dfy`: the form checks and payloads.

## Model

| member | source | states |
|---|---|---|
| Dashboard.PieChart | static/script.js:62 | `createPieChart(Object.keys(categories), Object.values(categories))`. `Dashboard.PieChartCorrect` and `Dashboard.PieChartCreationOrder` state what it shows. |
| Dashboard.LineChart | static/script.js:63 | `createLineChart(Object.keys(moisData).sort(), Object.values(moisData))`. `Dashboard.LineChartLabels`, `Dashboard.LineChartValues` and `Dashboard.LineChartAligned` state what it shows. |
| Dashboard.ChartsFor | static/script.js:41-63 | The two charts drawn for two lists that are present. `Dashboard.UpdateCharts` is proved equal to it. |
| Dashboard.MonthlySeries | static/script.js:63 | The corrected line series: sorted months, each with its own value. `Dashboard.MonthlySeriesCorrect` states what it shows. |
| Dashboard.UpdateCharts | static/script.js:34-64 | Nothing is drawn exactly when either list is null or undefined. Otherwise the pie gets the category totals and the line gets the month totals of the incomes followed by the negated expenses. |
| Dashboard.PieChartCorrect | static/script.js:42-47 | The pie has one label per distinct non-empty `categorie` and none for an empty or absent one. The value at the same position is the sum of that category's expense amounts. With no expenses, both arrays are empty. |
| Dashboard.PieChartCreationOrder | static/script.js:62 | When no category name is an array index, the pie labels and values are in creation order. Categories appear in the order of their first expense. |
| Dashboard.LineChartLabels | static/script.js:50-59 | The line labels are exactly the months with at least one income or expense that has a truthy `created_at`. Each appears once, in strictly ascending string order. There are as many values as labels. |
| Dashboard.LineChartValues | static/script.js:50-63 | The line values are each month's incomes minus its expenses. They are listed in the order in which each month's first record comes in `[...revenus, ...depenses]`, not in label order. |
| Dashboard.LineChartAligned | static/script.js:63 | The sort leaves the labels unchanged exactly when the months were created in ascending order. In that case every label is drawn with its own month's net amount. |
| Dashboard.MonthlySeriesCorrect | static/script.js:50-63 | The corrected series has labels in strictly ascending order. They are exactly the months with a dated record. Each label is paired with that month's incomes minus its expenses. |
| Aggregation.Step | static/script.js:44-45 | One `forEach` callback: a record with a bucket adds its amount to that bucket's property, and a record without one changes nothing. The `Aggregation.Totals` lemmas state what the repeated callback computes. |
| Aggregation.Totals | static/script.js:43-47 | The `forEach` over all records, starting from `{}`. It is used at lines 53-59 as well. Its meaning is fixed by `Aggregation.TotalsGet`, `Aggregation.TotalsKeys`, `Aggregation.TotalsDistinct`, `Aggregation.TotalsOrder` and `Aggregation.TotalsSum`. |
| Aggregation.TotalsByCategory | static/script.js:42-47 | The loop over the expenses builds the same object as the category fold. |
| Aggregation.NetByMonth | static/script.js:53-59 | The loop over all operations builds the same object as the month fold. |
| Aggregation.TotalsGet | static/script.js:43-47 | After the fold, `acc[k]` is defined exactly when some record falls in bucket `k`. It then holds the sum of those records' amounts. |
| Aggregation.TotalsKeys | static/script.js:43-47 | Bucket `k` has a property exactly when some record falls in it. |
| Aggregation.TotalsDistinct | static/script.js:45 | No bucket gets two properties. |
| Aggregation.TotalsOrder | static/script.js:45 | Properties are created in the order of each bucket's first record. |
| Aggregation.TotalsSum | static/script.js:43-47 | The property values add up to the amounts of all records that have a bucket. |
| Aggregation.FirstIndex | static/script.js:45 | The result is the position of the first record in bucket `k`, or the length when there is none. No earlier record falls in `k`. |
| Aggregation.SumForPositive | static/script.js:45 | When every amount is positive, a bucket that some record falls in has a positive sum. |
| Aggregation.CategoryOccurs | static/script.js:44 | An expense falls in category `k` exactly when its `categorie` is `k` and `k` is not empty. |
| Aggregation.CategoryTotalsCorrect | static/script.js:42-47 | There is one property per distinct non-empty category. Each holds the sum of that category's amounts. Keys are distinct, and the values add up to all categorised expenses. |
| Aggregation.CategoryTotalsPositive | static/script.js:42-47 | With positive stored amounts, every category total is positive. |
| Aggregation.SumForConcat | static/script.js:51 | A bucket's sum over a concatenation is the sum of the bucket's sums over the parts. |
| Aggregation.OccursConcat | static/script.js:51 | A bucket occurs in a concatenation exactly when it occurs in one of the parts. |
| Aggregation.NegatedMonths | static/script.js:51 | Negating the expenses flips the sign of every month's sum. No expense moves to another month. |
| Aggregation.MonthSplit | static/script.js:51 | A month's sum over all operations is its incomes minus its expenses. The month occurs there exactly when it occurs in one of the two lists. |
| Aggregation.MonthTotalsGet | static/script.js:50-59 | `moisData[k]` is defined exactly when month `k` has an income or an expense. It then holds that month's incomes minus its expenses. |
| Aggregation.MonthKeyNotIndex | static/script.js:56 | A month label is never an array index. |
| Aggregation.MonthKeysNotIndex | static/script.js:56-57 | No property of the month object is named by an array index. |
| Aggregation.MonthTotalsCorrect | static/script.js:50-59 | There is one property per month that has a dated record. Each holds incomes minus expenses. Keys are distinct and are never array indices. |
| Operations.Negated | static/script.js:51 | The copy has the opposite amount and every other field unchanged. |
| Operations.AllOperations | static/script.js:51 | The list is all incomes unchanged, then each expense in order with its amount negated and all else kept. |
| Operations.NegatedAll | static/script.js:51 | The `map` over the expenses that negates each amount. `Operations.AllOperations` states that each expense keeps its position and its other fields with its amount negated. `Aggregation.NegatedMonths` states that every month's sum changes sign. |
| Operations.Truthy | static/script.js:44 | The truthiness test `if (d.categorie)` and `if (op.created_at)`: present and not empty. Its meaning is fixed by `Aggregation.CategoryOccurs` for categories, `Dashboard.LineChartLabels` for dates and `Form.UpdatePayload` for the edit prompt. |
| Operations.CategoryOf | static/script.js:44-45 | The pie bucket of an expense: its truthy `categorie`. `Aggregation.CategoryOccurs` states which expenses fall in which category. |
| Operations.MonthBucket | static/script.js:54-57 | The line bucket of a record: the month of its truthy `created_at`. `Dashboard.LineChartLabels` and `Aggregation.MonthTotalsCorrect` state which months get a property, and `Aggregation.MonthKeysNotIndex` that none of them is an array index. |
| Operations.IsoMonth | static/script.js:55-56 | A reference for `monthOf` on the backend's timestamps. The label is seven characters long, and it is either "NaN-NaN" or the first seven characters of the timestamp. `Operations.IsoMonthOfTimestamp` is its partner. |
| Operations.MonthLabel | static/script.js:56 | The template's label for a four-digit year and a month from 1 to 12: the year's digits, a dash, and the month padded to two digits. It is seven characters long. |
| Operations.Digits | static/script.js:56 | The last `n` decimal digits of a number, as `padStart(2, '0')` writes a month. There are exactly `n` characters. |
| Operations.YearDigits | static/script.js:56 | A four-digit year is written as its four digits, and the first digit is not 0. |
| Operations.MonthDigits | static/script.js:56 | A month from 1 to 12 is written as two digits, "01" to "12". |
| Operations.DigitsOrder | static/script.js:56 | Digit strings of the same length order as their numbers do, and they are equal only for equal numbers. |
| Operations.IsoMonthOfTimestamp | static/script.js:55-56 | A timestamp that starts with a year and a month, as `isoformat()` writes it, has the template's label for that year and month. |
| Operations.MonthLabelChronological | static/script.js:56-63 | The `.sort()` order on month labels is chronological: a label sorts first exactly when its year is earlier, or its year is the same and its month earlier. |
| Operations.NaNMonthLast | static/script.js:55-63 | The "NaN-NaN" label of an unparseable date sorts after every month label. |
| JsObject.Get | static/script.js:45 | `o[k]`, with None for `undefined`. Its meaning is fixed by `JsObject.GetDefined`, `JsObject.GetEntry` and `JsObject.AddToGet`. |
| JsObject.GetOr | static/script.js:45 | `o[k] \|\| d`. `JsObject.GetOrZero` states its value for `d` = 0. |
| JsObject.AddTo | static/script.js:45 | The statement `o[k] = (o[k] \|\| 0) + x`, also at line 57. Its effect is fixed by `JsObject.AddToKeys`, `JsObject.AddToGet`, `JsObject.AddToOthers` and `JsObject.AddToSum`. |
| JsObject.PropertyOrder | static/script.js:62-63 | The order of own keys: array indices ascending, then the other keys as created. `JsObject.ObjectKeysIndexFirst` states it. |
| JsObject.ObjectKeys | static/script.js:62-63 | `Object.keys(o)`. `JsObject.ObjectKeysPermutation`, `JsObject.ObjectKeysDistinct`, `JsObject.ObjectKeysIndexFirst` and `JsObject.ObjectKeysInsertionOrder` fix its meaning. |
| JsObject.ObjectValues | static/script.js:62-63 | `Object.values(o)`. `JsObject.ObjectValuesPaired` and `JsObject.ObjectKeysInsertionOrder` fix its meaning. |
| JsObject.KeysCons | static/script.js:45 | Adding an entry at the front adds its key and its value at the front. |
| JsObject.GetDefined | static/script.js:45 | `o[k]` is defined exactly for the own keys of `o`. |
| JsObject.GetEntry | static/script.js:45 | In an object with distinct keys, the i-th entry's key looks up the i-th entry's value. |
| JsObject.GetOrZero | static/script.js:45 | `o[k] \|\| 0` is `o[k]` when defined and 0 otherwise. |
| JsObject.AddToKeys | static/script.js:45 | The assignment keeps every existing key in place. A new key goes last. |
| JsObject.AddToGet | static/script.js:45 | After the assignment, `o[k]` is the old `o[k] \|\| 0` plus the amount. |
| JsObject.AddToOthers | static/script.js:45 | The assignment leaves every other key's value unchanged. |
| JsObject.AddToSum | static/script.js:57 | The assignment raises the sum of all values by exactly the amount added. |
| JsObject.SplitKeys | static/script.js:62-63 | The array-index keys and the other keys together make up all the keys. |
| JsObject.ObjectKeysPermutation | static/script.js:62-63 | `Object.keys` lists every own key once per property. |
| JsObject.ObjectKeysDistinct | static/script.js:62-63 | When the keys are distinct, `Object.keys` has no repetition. |
| JsObject.ObjectValuesPaired | static/script.js:62-63 | `Object.values` has one entry per key. The i-th value is the one stored under the i-th key of `Object.keys`. |
| JsObject.ObjectKeysIndexFirst | static/script.js:62-63 | Array-index keys come first, in ascending numeric order. The other keys follow in creation order. |
| JsObject.ObjectKeysInsertionOrder | static/script.js:62-63 | Without array-index keys, `Object.keys` and `Object.values` follow creation order. |
| Strings.SortStrings | static/script.js:63 | `.sort()` returns a permutation of the keys in ascending order. It is strictly ascending when the keys are distinct. |
| Strings.SortStringsUnchanged | static/script.js:63 | `.sort()` leaves the keys as they are exactly when they are already in order. |
| Strings.StringLe | static/script.js:63 | The default sort order on strings, compared character by character with a proper prefix first. `Strings.StringLeOrders`, `Strings.StringLeAntisymmetric` and `Strings.StringLtAt` fix its meaning. |
| Strings.StringLeConcat | static/script.js:63 | Strings with prefixes of the same length compare by the prefixes first, then by what follows. |
| Strings.StringLeTotal | static/script.js:63 | Any two strings are comparable. |
| Strings.StringLeTransitive | static/script.js:63 | The string order is transitive. |
| Strings.StringLeAntisymmetric | static/script.js:63 | Two strings that each sort no later than the other are equal. |
| Strings.StringLtAt | static/script.js:63 | Strings that agree up to a position and differ there are ordered by that character. |
| Strings.StringLeOrders | static/script.js:63 | The string order is a total preorder, as the sort needs. |
| Sorting.Filter | static/script.js:62-63 | The filtered sequence keeps exactly the elements that satisfy the predicate. |
| Sorting.FilterKeepsAll | static/script.js:62-63 | Filtering with a predicate every element satisfies keeps the sequence. |
| Sorting.FilterKeepsNone | static/script.js:62-63 | Filtering with a predicate no element satisfies leaves nothing. |
| Sorting.Insert | static/script.js:63 | Inserting adds exactly one occurrence of the element. |
| Sorting.Sort | static/script.js:63 | Sorting returns a permutation of its input. |
| Sorting.InsertSorted | static/script.js:63 | Inserting into a sorted sequence keeps it sorted. |
| Sorting.SortSorted | static/script.js:63 | Sorting under a total, transitive order yields a sorted sequence. |
| Sorting.SortOfSorted | static/script.js:63 | Sorting a sequence already in order changes nothing. |
| Sorting.DistinctCount | static/script.js:62-63 | In a sequence without repetitions, each element occurs at most once. |
| Sorting.DistinctPermutation | static/script.js:62-63 | A permutation of a sequence without repetitions has none either. |
| Scenarios.AddToSecond | static/script.js:45 | Assigning a new key on a one-property object creates a second property after it. |
| Scenarios.TotalsTwo | static/script.js:43-47 | Two records in different buckets give two properties in record order, each with its own amount. |
| Scenarios.TotalsFour | static/script.js:43-47 | Two records in one bucket, one in a second and one in none give two properties. The first holds the first two amounts. |
| Scenarios.TwoNamedProperties | static/script.js:62-63 | An object with two named properties lists them, and their values, in creation order. |
| Scenarios.SortTwo | static/script.js:63 | Two distinct strings sort into ascending order from either order. |
| Scenarios.SortTwoInOrder | static/script.js:63 | Two strings already in order stay as they are. |
| Scenarios.SortTwoSwapped | static/script.js:63 | Two strings in descending order are swapped. |
| Scenarios.GetPair | static/script.js:45 | Each key of a two-property object looks up its own value. |
| Scenarios.SeriesOfDescendingPair | static/script.js:63 | Two months created in descending order appear in the corrected series swapped and each with its own value. |
| Scenarios.LetterFirstNotIndex | static/script.js:62 | A key starting with a non-digit is not an array index. |
| Scenarios.PieChartExample | static/script.js:42-47 | Food 50.00 and 30.00, Transport 20.00, and 10.00 with an empty category give the pie Food 80.00 and Transport 20.00. |
| Scenarios.Months | static/script.js:55-56 | Four ISO timestamps get their `YYYY-MM` labels, and so does "2024-01garbage", whose rest the reference label ignores. |
| Scenarios.JanuaryFirst | static/script.js:63 | "2024-01" sorts before "2024-02", and neither is an array index. |
| Scenarios.LineChartExample | static/script.js:50-63 | An income of 1000.00 in January and expenses of 300.00 in January, 100.00 in February and one undated give January 700.00 and February -100.00. |
| Scenarios.NewestFirstTotals | static/script.js:50-59 | Incomes listed newest first, February 100.00 then January 50.00, create February's property before January's. |
| Scenarios.LineChartMisaligned | static/script.js:63 | For those incomes the line is drawn with labels January, February and values 100.00, 50.00. So January is drawn with February's amount. |
| Scenarios.MonthlySeriesExample | static/script.js:63 | For the same incomes the corrected series pairs January with 50.00 and February with 100.00. |
| Form.DescribedAs | static/script.js:187 | The spread that picks the field for the text. `Form.NewOperationPayload` and `Form.UpdatePayload` state the choice: `source` for an income and `categorie` for anything else, with the other field absent. |
| Form.NewOperationPayload | static/script.js:175-188 | Nothing is sent exactly when the parsed amount is 0 or NaN or the description is empty. Otherwise the body has the type and the parsed amount. The description goes under `source` for "revenu" and under `categorie` for any other type, and the other field is absent. |
| Form.UpdatePayload | static/script.js:222-230 | Nothing is sent exactly when the second prompt returns null or an empty string. The amount is parseFloat of the first answer, or 0 when that answer is null or empty. There is no type field. The text goes under `source` for "revenu" and under `categorie` otherwise, and the other field is absent. |
| Form.NewOperationChecked | static/script.js:179-188 | Every body the creation form sends has a non-zero, non-NaN amount and a non-empty description. |
| Form.NewExpenseCategorised | static/script.js:42-47 | An expense created through the form with a description is counted under that description in the pie. |
| Form.UpdateSkipsAmountCheck | static/script.js:222-230 | The edit prompts send 0 for a cancelled or empty amount and NaN for an unparseable one. On the same input the creation form refuses to send. |

## Left out

- Drawing: the DOM, the tables, `toFixed`, and Chart.js are not modelled. This covers `createPieChart`, `createLineChart` and their placeholder for empty data. The model stops at the label and value arrays handed to them.
- `console.error` on missing data is not modelled. It is a log line with no effect on the result.
- `fetch`, `alert`, `prompt`, `async` and `chargerDonneesCompletes` are not modelled. The form model takes the typed text and the prompt answers as parameters and returns the body it would send.
- Date parsing and the local time zone are not modelled (`new Date`, `getFullYear`, `getMonth`). They are the parameter `monthOf`. `Operations.IsoMonth` reads the month from the text of an ISO timestamp, as the backend writes it. It ignores how a time zone can move a timestamp near a month boundary to another month.
- `Operations.IsoMonth` reads only the first seven characters. It returns "NaN-NaN" only when they are not `YYYY-MM` with a year from 1000 to 9999 and a month from 01 to 12. It ignores the rest of the text, so it also labels strings a real `Date` would reject, such as "2024-01garbage" (`Scenarios.Months`). It also rejects formats a real `Date` accepts.
- Amounts are whole cents. Floating-point rounding and NaN amounts in the charts are not modelled, so the model does not follow the code on an amount that is not a number: the code would add NaN and not 0. The backend stores every amount as a number.
- Aggregation.CategoryTotalsPositive and Aggregation.SumForPositive assume every stored amount is positive. The source never enforces this:
  - the creation form refuses only 0 and NaN (`static/script.js:179`), so a negative amount is sent;
  - the edit prompts send 0 for an empty answer (`static/script.js:222`; see `Form.UpdateSkipsAmountCheck`);
  - the backend stores `float(montant)` unchecked (`app.py:82`, `app.py:88`, `app.py:114`).

  A pie slice of 0 or less can therefore appear. The other lemmas do not need this assumption.
- Keys inherited from `Object.prototype` are not modelled. These include a category named `__proto__` or `constructor`, whose `(o[k] || 0)` reads an inherited value.
- The string order compares characters. JavaScript compares UTF-16 code units, so the two differ only on characters outside the Basic Multilingual Plane.
- The backend (`app.py`: storage, pagination, routes) is not part of this model. No member depends on the order in which it returns records. The inputs of `Scenarios.NewestFirstTotals` follow its newest-first order (`app.py:64-65`).
- The order-independence of the accumulation is not proved. The totals do not depend on record order, but the creation order of the properties, and so the line chart's values, do.
- That the input lists are not mutated holds by construction: the model works on values. `Operations.Negated` and `Operations.AllOperations` state that the expenses' other fields are kept.
- Where the code and a plain reading of the dashboard differ, the model follows the code:
  - a `created_at` that does not parse falls in the "NaN-NaN" month rather than being skipped;
  - expenses are added with their signed amount;
  - the line chart's values are not reordered with its labels (see Findings).

## Findings

| source | as written | input that shows it | evidently intended | confidence | as-written member | corrected member |
|---|---|---|---|---|---|---|
| static/script.js:63 | The labels are `Object.keys(moisData).sort()`, but the values are `Object.values(moisData)` in creation order, so they are not reordered with the labels. | Incomes as the backend returns them, newest first: 100.00 in February 2024, then 50.00 in January 2024. The line gets labels ["2024-01", "2024-02"] and values [100.00, 50.00]. | Each month label is drawn with that month's own net amount. | not executed | Scenarios.LineChartMisaligned | Dashboard.MonthlySeriesCorrect |

`Dashboard.UpdateCharts` keeps the behaviour as written, because that is what
the dashboard draws. `Dashboard.MonthlySeries` is the corrected series.
`Scenarios.MonthlySeriesExample` shows it on the same input.
