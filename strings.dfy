/**
 * The string order used by Array.prototype.sort when it is given no
 * comparison function (character by character, a proper prefix first), and
 * the decimal digits that make a property key an array index.
 */
module Strings {
  import opened Sorting

  /** `a` sorts no later than `b`. */
  predicate StringLe(a: string, b: string) {
    a == [] || (b != [] && (a[0] < b[0] || (a[0] == b[0] && StringLe(a[1..], b[1..]))))
  }

  /** `a` sorts strictly before `b`. */
  predicate StringLt(a: string, b: string) {
    StringLe(a, b) && a != b
  }

  lemma {:induction false} StringLeTotal(a: string, b: string)
    ensures StringLe(a, b) || StringLe(b, a)
  {
    if a != [] && b != [] && a[0] == b[0] {
      StringLeTotal(a[1..], b[1..]);
    }
  }

  lemma {:induction false} StringLeTransitive(a: string, b: string, c: string)
    requires StringLe(a, b) && StringLe(b, c)
    ensures StringLe(a, c)
  {
    if a != [] && b != [] && c != [] && a[0] == b[0] == c[0] {
      StringLeTransitive(a[1..], b[1..], c[1..]);
    }
  }

  lemma {:induction false} StringLeAntisymmetric(a: string, b: string)
    requires StringLe(a, b) && StringLe(b, a)
    ensures a == b
  {
    if a != [] && b != [] {
      StringLeAntisymmetric(a[1..], b[1..]);
      assert a == [a[0]] + a[1..] && b == [b[0]] + b[1..];
    }
  }

  /** Strings that agree up to position `i` and differ there are ordered by that character. */
  lemma {:induction false} StringLtAt(a: string, b: string, i: nat)
    requires i < |a| && i < |b| && a[..i] == b[..i] && a[i] < b[i]
    ensures StringLt(a, b) && !StringLe(b, a)
  {
    if i > 0 {
      assert a[0] == a[..i][0] == b[..i][0] == b[0];
      assert a[1..][..i - 1] == a[..i][1..] == b[..i][1..] == b[1..][..i - 1];
      StringLtAt(a[1..], b[1..], i - 1);
    }
  }

  /**
   * Strings that begin with prefixes of the same length compare by their
   * prefixes first and, when those are equal, by what follows.
   */
  lemma {:induction false} StringLeConcat(p: string, q: string, s: string, t: string)
    requires |p| == |q|
    ensures StringLe(p + s, q + t) <==> StringLt(p, q) || (p == q && StringLe(s, t))
  {
    if p != [] {
      assert (p + s)[0] == p[0] && (q + t)[0] == q[0];
      assert (p + s)[1..] == p[1..] + s && (q + t)[1..] == q[1..] + t;
      StringLeConcat(p[1..], q[1..], s, t);
      assert p == [p[0]] + p[1..] && q == [q[0]] + q[1..];
    } else {
      assert p + s == s && q + t == t;
    }
  }

  lemma StringLeOrders()
    ensures Total(StringLe) && Transitive(StringLe)
  {
    forall a, b
      ensures StringLe(a, b) || StringLe(b, a)
    {
      StringLeTotal(a, b);
    }
    forall a, b, c | StringLe(a, b) && StringLe(b, c)
      ensures StringLe(a, c)
    {
      StringLeTransitive(a, b, c);
    }
  }

  /** `keys.sort()` on an array of strings. */
  function SortStrings(keys: seq<string>): (r: seq<string>)
    ensures multiset(r) == multiset(keys)
    ensures Sorted(r, StringLe)
    ensures Distinct(keys) ==> forall i, j :: 0 <= i < j < |r| ==> StringLt(r[i], r[j])
  {
    StringLeOrders();
    SortSorted(keys, StringLe);
    assert Distinct(keys) ==> Distinct(Sort(keys, StringLe)) by {
      if Distinct(keys) {
        DistinctPermutation(keys, Sort(keys, StringLe));
      }
    }
    Sort(keys, StringLe)
  }

  /** Sorting leaves the keys where they are exactly when they are already in order. */
  lemma SortStringsUnchanged(keys: seq<string>)
    ensures SortStrings(keys) == keys <==> Sorted(keys, StringLe)
  {
    if Sorted(keys, StringLe) {
      SortOfSorted(keys, StringLe);
    }
  }

  predicate IsDigit(c: char) {
    '0' <= c <= '9'
  }

  /** The number a string of decimal digits denotes. */
  function DecimalValue(s: string): int {
    if s == [] then 0
    else 10 * DecimalValue(s[..|s| - 1]) + (s[|s| - 1] as int - '0' as int)
  }
}
