/**
 * A plain JavaScript object used as a dictionary from strings to numbers
 * (`const categories = {}`), as the list of its own properties in the order
 * they were created. Object.keys and Object.values follow the property order
 * of ECMA-262 (OrdinaryOwnPropertyKeys): keys that are array indices first,
 * in ascending numeric order, then the other string keys in creation order.
 */
module JsObject {
  import opened Wrappers
  import opened Sorting
  import opened Strings

  /** One own property: its key and the number stored under it. */
  datatype Entry = Entry(key: string, value: int)

  /** The own properties of an object, in creation order. */
  type Assoc = seq<Entry>

  function Keys(m: Assoc): seq<string> {
    seq(|m|, i requires 0 <= i < |m| => m[i].key)
  }

  function Values(m: Assoc): seq<int> {
    seq(|m|, i requires 0 <= i < |m| => m[i].value)
  }

  ghost predicate DistinctKeys(m: Assoc) {
    Distinct(Keys(m))
  }

  function Sum(s: seq<int>): int {
    if s == [] then 0 else s[0] + Sum(s[1..])
  }

  lemma KeysCons(e: Entry, m: Assoc)
    ensures Keys([e] + m) == [e.key] + Keys(m)
    ensures Values([e] + m) == [e.value] + Values(m)
  {
  }

  /** `o[k]`; None stands for `undefined`. */
  function Get(m: Assoc, k: string): Option<int> {
    if m == [] then None
    else if m[0].key == k then Some(m[0].value)
    else Get(m[1..], k)
  }

  /** `o[k]` is defined exactly for the own keys of `o`. */
  lemma {:induction false} GetDefined(m: Assoc, k: string)
    ensures Get(m, k).Some? <==> k in Keys(m)
  {
    if m != [] {
      assert m == [m[0]] + m[1..];
      KeysCons(m[0], m[1..]);
      GetDefined(m[1..], k);
    }
  }

  /** `o[k] || d` for a number-valued property. */
  function GetOr(m: Assoc, k: string, d: int): int {
    match Get(m, k)
    case Some(v) => if v == 0 then d else v
    case None => d
  }

  lemma {:induction false} GetEntry(m: Assoc, i: nat)
    requires DistinctKeys(m) && i < |m|
    ensures Get(m, m[i].key) == Some(m[i].value)
  {
    if i > 0 {
      KeysCons(m[0], m[1..]);
      assert m == [m[0]] + m[1..];
      assert Keys(m)[0] != Keys(m)[i];
      assert DistinctKeys(m[1..]) by {
        forall a, b | 0 <= a < b < |m| - 1
          ensures Keys(m[1..])[a] != Keys(m[1..])[b]
        {
          assert Keys(m[1..])[a] == Keys(m)[a + 1] && Keys(m[1..])[b] == Keys(m)[b + 1];
        }
      }
      GetEntry(m[1..], i - 1);
    }
  }

  /** The statement `o[k] = (o[k] || 0) + x`. */
  function AddTo(m: Assoc, k: string, x: int): Assoc {
    if m == [] then [Entry(k, x)]
    else if m[0].key == k then [Entry(k, m[0].value + x)] + m[1..]
    else [m[0]] + AddTo(m[1..], k, x)
  }

  /** `o[k] || 0` is `o[k]` when it is defined, and 0 when it is not. */
  lemma GetOrZero(m: Assoc, k: string)
    ensures GetOr(m, k, 0) == match Get(m, k) case Some(v) => v case None => 0
  {
  }

  /** Looking up a key in an object whose first property is `e`. */
  lemma GetCons(e: Entry, rest: Assoc, k: string)
    ensures Get([e] + rest, k) == if e.key == k then Some(e.value) else Get(rest, k)
  {
    assert ([e] + rest)[0] == e && ([e] + rest)[1..] == rest;
  }

  /** The assignment on an object whose first property is `e`. */
  lemma AddToCons(e: Entry, rest: Assoc, k: string, x: int)
    ensures AddTo([e] + rest, k, x) ==
              if e.key == k then [Entry(k, e.value + x)] + rest else [e] + AddTo(rest, k, x)
  {
    assert ([e] + rest)[0] == e && ([e] + rest)[1..] == rest;
  }

  /** An existing property keeps its place; a new one is created last. */
  lemma {:induction false} AddToKeys(m: Assoc, k: string, x: int)
    ensures Keys(AddTo(m, k, x)) == if k in Keys(m) then Keys(m) else Keys(m) + [k]
  {
    if m != [] {
      var e, rest := m[0], m[1..];
      assert m == [e] + rest;
      KeysCons(e, rest);
      AddToCons(e, rest, k, x);
      if e.key == k {
        KeysCons(Entry(k, e.value + x), rest);
      } else {
        AddToKeys(rest, k, x);
        KeysCons(e, AddTo(rest, k, x));
      }
    }
  }

  /** After the assignment, `o[k]` is the old `o[k] || 0` plus `x`. */
  lemma {:induction false} AddToGet(m: Assoc, k: string, x: int)
    ensures Get(AddTo(m, k, x), k) == Some(GetOr(m, k, 0) + x)
  {
    GetOrZero(m, k);
    if m != [] {
      var e, rest := m[0], m[1..];
      assert m == [e] + rest;
      AddToCons(e, rest, k, x);
      GetCons(e, rest, k);
      if e.key == k {
        GetCons(Entry(k, e.value + x), rest, k);
      } else {
        GetOrZero(rest, k);
        AddToGet(rest, k, x);
        GetCons(e, AddTo(rest, k, x), k);
      }
    }
  }

  /** The assignment leaves every other property as it was. */
  lemma {:induction false} AddToOthers(m: Assoc, k: string, x: int, k': string)
    requires k' != k
    ensures Get(AddTo(m, k, x), k') == Get(m, k')
  {
    if m != [] {
      var e, rest := m[0], m[1..];
      assert m == [e] + rest;
      if e.key != k {
        AddToOthers(rest, k, x, k');
        assert AddTo(m, k, x) == [e] + AddTo(rest, k, x);
      }
    }
  }

  /** The assignment adds `x` to the sum of the object's values. */
  lemma {:induction false} AddToSum(m: Assoc, k: string, x: int)
    ensures Sum(Values(AddTo(m, k, x))) == Sum(Values(m)) + x
  {
    if m != [] {
      var e, rest := m[0], m[1..];
      assert m == [e] + rest;
      KeysCons(e, rest);
      if e.key == k {
        KeysCons(Entry(k, e.value + x), rest);
      } else {
        AddToSum(rest, k, x);
        KeysCons(e, AddTo(rest, k, x));
      }
    }
  }

  /**
   * A key that is an array index: the canonical decimal form of an integer
   * from 0 to 2^32 - 2.
   */
  predicate IsArrayIndex(k: string) {
    && |k| > 0
    && (forall i :: 0 <= i < |k| ==> IsDigit(k[i]))
    && (k[0] == '0' ==> |k| == 1)
    && DecimalValue(k) < 0xFFFF_FFFF
  }

  predicate IsNamedKey(k: string) {
    !IsArrayIndex(k)
  }

  /** No own key of `m` is an array index. */
  ghost predicate NamedKeysOnly(m: Assoc) {
    forall i :: 0 <= i < |m| ==> IsNamedKey(m[i].key)
  }

  predicate IndexLe(a: string, b: string) {
    DecimalValue(a) <= DecimalValue(b)
  }

  /** The order in which Object.keys lists own keys created in the order `ks`. */
  function PropertyOrder(ks: seq<string>): seq<string> {
    Sort(Filter(ks, IsArrayIndex), IndexLe) + Filter(ks, IsNamedKey)
  }

  /** `Object.keys(o)`. */
  function ObjectKeys(m: Assoc): seq<string> {
    PropertyOrder(Keys(m))
  }

  /** `Object.values(o)`: the value of each key, in the order of Object.keys. */
  function ObjectValues(m: Assoc): seq<int> {
    var ks := ObjectKeys(m);
    seq(|ks|, i requires 0 <= i < |ks| => match Get(m, ks[i]) case Some(v) => v case None => 0)
  }

  lemma {:induction false} SplitKeys(ks: seq<string>)
    ensures multiset(Filter(ks, IsArrayIndex)) + multiset(Filter(ks, IsNamedKey)) == multiset(ks)
  {
    if ks != [] {
      var x, rest := ks[0], ks[1..];
      SplitKeys(rest);
      assert ks == [x] + rest;
      assert Filter(ks, IsArrayIndex) == (if IsArrayIndex(x) then [x] else []) + Filter(rest, IsArrayIndex);
      assert Filter(ks, IsNamedKey) == (if IsNamedKey(x) then [x] else []) + Filter(rest, IsNamedKey);
      assert multiset(ks) == multiset{x} + multiset(rest);
    }
  }

  /** Object.keys lists every own key exactly as often as it exists. */
  lemma ObjectKeysPermutation(m: Assoc)
    ensures multiset(ObjectKeys(m)) == multiset(Keys(m))
    ensures |ObjectKeys(m)| == |m|
  {
    SplitKeys(Keys(m));
    assert |multiset(ObjectKeys(m))| == |multiset(Keys(m))|;
  }

  lemma ObjectKeysDistinct(m: Assoc)
    requires DistinctKeys(m)
    ensures Distinct(ObjectKeys(m))
  {
    ObjectKeysPermutation(m);
    DistinctPermutation(Keys(m), ObjectKeys(m));
  }

  /** Object.keys and Object.values line up: the i-th value is the one stored under the i-th key. */
  lemma ObjectValuesPaired(m: Assoc)
    ensures |ObjectValues(m)| == |ObjectKeys(m)| == |m|
    ensures forall i :: 0 <= i < |m| ==> Get(m, ObjectKeys(m)[i]) == Some(ObjectValues(m)[i])
  {
    ObjectKeysPermutation(m);
    forall i | 0 <= i < |m|
      ensures Get(m, ObjectKeys(m)[i]) == Some(ObjectValues(m)[i])
    {
      assert ObjectKeys(m)[i] in multiset(Keys(m));
      GetDefined(m, ObjectKeys(m)[i]);
    }
  }

  /**
   * The array-index keys come first, in ascending numeric order, and the
   * other keys after them, in creation order.
   */
  lemma ObjectKeysIndexFirst(m: Assoc)
    ensures var ks := ObjectKeys(m); var n := |Filter(Keys(m), IsArrayIndex)|;
      && n <= |ks|
      && (forall i :: 0 <= i < n ==> IsArrayIndex(ks[i]))
      && (forall i, j :: 0 <= i < j < n ==> DecimalValue(ks[i]) <= DecimalValue(ks[j]))
      && ks[n..] == Filter(Keys(m), IsNamedKey)
  {
    var ixs := Filter(Keys(m), IsArrayIndex);
    var sorted := Sort(ixs, IndexLe);
    var ks := ObjectKeys(m);
    assert ks == sorted + Filter(Keys(m), IsNamedKey) && |sorted| == |ixs|;
    SortSorted(ixs, IndexLe);
    forall i | 0 <= i < |sorted|
      ensures IsArrayIndex(sorted[i])
    {
      assert sorted[i] in multiset(ixs);
    }
    forall i | 0 <= i < |sorted|
      ensures ks[i] == sorted[i]
    {
    }
    assert ks[|sorted|..] == Filter(Keys(m), IsNamedKey);
  }

  /** Without array-index keys, Object.keys and Object.values follow creation order. */
  lemma ObjectKeysInsertionOrder(m: Assoc)
    requires DistinctKeys(m)
    requires NamedKeysOnly(m)
    ensures ObjectKeys(m) == Keys(m)
    ensures ObjectValues(m) == Values(m)
  {
    var ks := Keys(m);
    assert forall i :: 0 <= i < |ks| ==> !IsArrayIndex(ks[i]) && IsNamedKey(ks[i]);
    FilterKeepsNone(ks, IsArrayIndex);
    FilterKeepsAll(ks, IsNamedKey);
    assert ObjectKeys(m) == ks;
    forall i | 0 <= i < |m|
      ensures ObjectValues(m)[i] == Values(m)[i]
    {
      GetEntry(m, i);
    }
  }
}
