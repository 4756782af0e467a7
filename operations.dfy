/**
 * The records the dashboard receives from `GET /api/operations` and the
 * values updateCharts derives from each one: its category, its month label,
 * and the sign-flipped copy of an expense.
 */
module Operations {
  import opened Wrappers
  import opened Strings

  /**
   * One income (`revenu`) or expense (`depense`) record. Amounts are whole
   * cents; a text field that is absent, null or undefined is None. An income
   * carries `source`, an expense `categorie`.
   */
  datatype Operation = Operation(
    id: int,
    montant: int,
    source: Option<string>,
    categorie: Option<string>,
    createdAt: Option<string>)

  /** JavaScript truthiness of a string-valued field: present and not empty. */
  predicate Truthy(s: Option<string>) {
    s.Some? && s.value != ""
  }

  /**
   * A month label `${getFullYear()}-${month padded to two digits}`, or
   * "NaN-NaN" for a date that did not parse. Each of these has a '-'.
   */
  type MonthKey = s: string | '-' in s witness "NaN-NaN"

  /** `{...d, montant: -d.montant}`: a copy of `d` whose amount has the opposite sign. */
  function Negated(d: Operation): (r: Operation)
    ensures r.montant == -d.montant
    ensures r.(montant := d.montant) == d
  {
    d.(montant := -d.montant)
  }

  /** `[...revenus, ...depenses.map(d => ({...d, montant: -d.montant}))]`. */
  function AllOperations(revenus: seq<Operation>, depenses: seq<Operation>): (all: seq<Operation>)
    ensures |all| == |revenus| + |depenses|
    ensures all[..|revenus|] == revenus
    ensures forall i :: 0 <= i < |depenses| ==>
      all[|revenus| + i].montant == -depenses[i].montant &&
      all[|revenus| + i].(montant := depenses[i].montant) == depenses[i]
  {
    revenus + NegatedAll(depenses)
  }

  /** `depenses.map(d => ({...d, montant: -d.montant}))`. */
  function NegatedAll(depenses: seq<Operation>): seq<Operation> {
    seq(|depenses|, i requires 0 <= i < |depenses| => Negated(depenses[i]))
  }

  /** The pie-chart bucket of an expense: its `categorie` when that is truthy. */
  function CategoryOf(d: Operation): Option<string> {
    if Truthy(d.categorie) then Some(d.categorie.value) else None
  }

  /** The line-chart bucket of a record: the month of its `created_at` when that is truthy. */
  function MonthBucket(monthOf: string -> MonthKey): Operation -> Option<string> {
    (op: Operation) => if Truthy(op.createdAt) then Some(monthOf(op.createdAt.value)) else None
  }

  lemma MonthBucketApply(monthOf: string -> MonthKey, op: Operation)
    ensures MonthBucket(monthOf)(op) == if Truthy(op.createdAt) then Some(monthOf(op.createdAt.value)) else None
  {
  }

  /**
   * The month label of a timestamp written `YYYY-MM...` with a year from 1000
   * to 9999 and a month from 01 to 12 (the backend's `isoformat()` output):
   * its first seven characters; "NaN-NaN" for anything else.
   */
  function IsoMonth(createdAt: string): (k: MonthKey)
    ensures |k| == 7
    ensures k == "NaN-NaN" || (|createdAt| >= 7 && k == createdAt[..7])
  {
    if && |createdAt| >= 7
       && '1' <= createdAt[0] <= '9' && IsDigit(createdAt[1]) && IsDigit(createdAt[2]) && IsDigit(createdAt[3])
       && createdAt[4] == '-'
       && ((createdAt[5] == '0' && '1' <= createdAt[6] <= '9') || (createdAt[5] == '1' && '0' <= createdAt[6] <= '2'))
    then
      assert createdAt[..7][4] == '-';
      createdAt[..7]
    else
      "NaN-NaN"
  }

  /** The character of the decimal digit `d`. */
  function DigitChar(d: int): char
    requires 0 <= d < 10
  {
    ('0' as int + d) as char
  }

  /** The last `n` decimal digits of `x`, most significant first. */
  function Digits(x: nat, n: nat): (s: string)
    ensures |s| == n
  {
    if n == 0 then [] else Digits(x / 10, n - 1) + [DigitChar(x % 10)]
  }

  /** 10 to the power `n`. */
  function Pow10(n: nat): nat {
    if n == 0 then 1 else 10 * Pow10(n - 1)
  }

  /**
   * The month label the template `${getFullYear()}-${padStart(getMonth()+1)}`
   * writes for a four-digit year and a month from 1 to 12.
   */
  function MonthLabel(year: nat, month: nat): (k: MonthKey)
    requires 1000 <= year <= 9999 && 1 <= month <= 12
    ensures |k| == 7
  {
    var k := Digits(year, 4) + "-" + Digits(month, 2);
    assert k[4] == '-';
    k
  }

  /**
   * Equal-length digit strings of numbers below 10^n sort as the numbers do,
   * and are equal only for equal numbers.
   */
  lemma {:induction false} DigitsOrder(x: nat, y: nat, n: nat)
    requires x < Pow10(n) && y < Pow10(n)
    ensures StringLe(Digits(x, n), Digits(y, n)) <==> x <= y
    ensures Digits(x, n) == Digits(y, n) <==> x == y
  {
    if n > 0 {
      DigitsOrder(x / 10, y / 10, n - 1);
      StringLeConcat(Digits(x / 10, n - 1), Digits(y / 10, n - 1), [DigitChar(x % 10)], [DigitChar(y % 10)]);
      var a, b := Digits(x, n), Digits(y, n);
      assert a[n - 1] == DigitChar(x % 10) && b[n - 1] == DigitChar(y % 10);
      assert a == b ==> x == y by {
        if a == b {
          assert a[..n - 1] == Digits(x / 10, n - 1) && b[..n - 1] == Digits(y / 10, n - 1);
        }
      }
    }
  }

  /** The characters of a four-digit year. */
  lemma YearDigits(year: nat)
    requires 1000 <= year <= 9999
    ensures Digits(year, 4) == [DigitChar(year / 1000), DigitChar(year / 100 % 10), DigitChar(year / 10 % 10), DigitChar(year % 10)]
    ensures 1 <= year / 1000 <= 9
  {
    assert year / 10 / 10 == year / 100 && year / 100 / 10 == year / 1000 && year / 1000 / 10 == 0;
    assert year / 1000 % 10 == year / 1000;
    assert Digits(year / 1000, 1) == [DigitChar(year / 1000)];
    assert Digits(year / 100, 2) == Digits(year / 1000, 1) + [DigitChar(year / 100 % 10)];
    assert Digits(year / 10, 3) == Digits(year / 100, 2) + [DigitChar(year / 10 % 10)];
  }

  /** The characters of a month number from 1 to 12. */
  lemma MonthDigits(month: nat)
    requires 1 <= month <= 12
    ensures Digits(month, 2) == [DigitChar(month / 10), DigitChar(month % 10)]
    ensures (month / 10 == 0 && 1 <= month % 10 <= 9) || (month / 10 == 1 && month % 10 <= 2)
  {
    assert month / 10 / 10 == 0 && month / 10 % 10 == month / 10;
    assert Digits(month / 10, 1) == [DigitChar(month / 10)];
  }

  /**
   * A timestamp that the backend writes for a year and month, such as
   * "2024-01-15T09:00:00", has that year and month as its label.
   */
  lemma IsoMonthOfTimestamp(year: nat, month: nat, rest: string)
    requires 1000 <= year <= 9999 && 1 <= month <= 12
    ensures IsoMonth(MonthLabel(year, month) + rest) == MonthLabel(year, month)
  {
    var k := MonthLabel(year, month);
    var t := k + rest;
    YearDigits(year);
    MonthDigits(month);
    assert t[..7] == k;
    assert '1' <= t[0] <= '9' && IsDigit(t[1]) && IsDigit(t[2]) && IsDigit(t[3]) && t[4] == '-';
    assert (t[5] == '0' && '1' <= t[6] <= '9') || (t[5] == '1' && '0' <= t[6] <= '2');
  }

  /**
   * The default string order on month labels is chronological order: a label
   * sorts before another exactly when its month comes earlier.
   */
  lemma MonthLabelChronological(y1: nat, m1: nat, y2: nat, m2: nat)
    requires 1000 <= y1 <= 9999 && 1 <= m1 <= 12
    requires 1000 <= y2 <= 9999 && 1 <= m2 <= 12
    ensures StringLt(MonthLabel(y1, m1), MonthLabel(y2, m2)) <==> y1 < y2 || (y1 == y2 && m1 < m2)
  {
    assert Pow10(4) == 10000 && Pow10(2) == 100;
    var a1, a2 := Digits(y1, 4), Digits(y2, 4);
    var b1, b2 := "-" + Digits(m1, 2), "-" + Digits(m2, 2);
    DigitsOrder(y1, y2, 4);
    DigitsOrder(m1, m2, 2);
    DigitsOrder(m2, m1, 2);
    StringLeConcat(a1, a2, b1, b2);
    StringLeConcat("-", "-", Digits(m1, 2), Digits(m2, 2));
    assert MonthLabel(y1, m1) == a1 + b1 && MonthLabel(y2, m2) == a2 + b2;
    assert b1 == b2 <==> Digits(m1, 2) == Digits(m2, 2);
    assert a1 + b1 == a2 + b2 <==> a1 == a2 && b1 == b2 by {
      if a1 + b1 == a2 + b2 {
        assert (a1 + b1)[..4] == a1 && (a2 + b2)[..4] == a2;
        assert (a1 + b1)[4..] == b1 && (a2 + b2)[4..] == b2;
      }
    }
  }

  /** The label of a date that did not parse sorts after every month label. */
  lemma NaNMonthLast(year: nat, month: nat)
    requires 1000 <= year <= 9999 && 1 <= month <= 12
    ensures StringLt(MonthLabel(year, month), "NaN-NaN")
  {
    var k := MonthLabel(year, month);
    YearDigits(year);
    assert k[0] == DigitChar(year / 1000);
    StringLtAt(k, "NaN-NaN", 0);
  }
}
