/**
 * The order in which `Object.keys` and `Object.values` enumerate the own string-keyed
 * properties of a plain object: first every key that is an array index, by ascending
 * numeric value, then every other key in the order it was first created (section
 * 10.1.11.1, OrdinaryOwnPropertyKeys, of ECMA-262).
 */
module ObjectKeys {

  predicate IsDigit(c: char) { '0' <= c <= '9' }

  /** Every character of `s` is a decimal digit. */
  predicate AllDigits(s: string)
  {
    s == [] || (IsDigit(s[|s| - 1]) && AllDigits(s[..|s| - 1]))
  }

  /** The value of a decimal digit string, read left to right. */
  function DecimalValue(s: string): nat
    requires AllDigits(s)
  {
    if s == [] then 0
    else 10 * DecimalValue(s[..|s| - 1]) + (s[|s| - 1] as int - '0' as int)
  }

  /** The largest array index, 2^32 - 2. */
  const MaxArrayIndex: nat := 4294967294

  /**
   * `s` is an array index: the canonical decimal form of an integer from 0 to 2^32 - 2
   * (no sign, no leading zero except "0" itself).
   */
  predicate IsArrayIndex(s: string)
  {
    && |s| > 0
    && AllDigits(s)
    && (|s| == 1 || s[0] != '0')
    && DecimalValue(s) <= MaxArrayIndex
  }

  /** The numeric value of an array-index key. */
  function IndexValue(s: string): nat
    requires IsArrayIndex(s)
  {
    DecimalValue(s)
  }

  /** The array-index keys of `keys`, in their order there. */
  function IndexKeys(keys: seq<string>): (r: seq<string>)
    ensures forall i :: 0 <= i < |r| ==> IsArrayIndex(r[i])
    ensures forall k :: k in r <==> k in keys && IsArrayIndex(k)
  {
    if keys == [] then []
    else
      var last := keys[|keys| - 1];
      IndexKeys(keys[..|keys| - 1]) + (if IsArrayIndex(last) then [last] else [])
  }

  /** The keys of `keys` that are not array indices, in their order there. */
  function NamedKeys(keys: seq<string>): (r: seq<string>)
    ensures forall k :: k in r <==> k in keys && !IsArrayIndex(k)
  {
    if keys == [] then []
    else
      var last := keys[|keys| - 1];
      NamedKeys(keys[..|keys| - 1]) + (if IsArrayIndex(last) then [] else [last])
  }

  /** `t`'s keys are in ascending numeric order. */
  predicate Ascending(t: seq<string>)
    requires forall i :: 0 <= i < |t| ==> IsArrayIndex(t[i])
  {
    forall i, j :: 0 <= i < j < |t| ==> IndexValue(t[i]) <= IndexValue(t[j])
  }

  /** Places the array index `x` into the ascending sequence `t`. */
  function InsertIndex(x: string, t: seq<string>): (r: seq<string>)
    requires IsArrayIndex(x)
    requires forall i :: 0 <= i < |t| ==> IsArrayIndex(t[i])
    ensures multiset(r) == multiset(t) + multiset{x}
    ensures forall i :: 0 <= i < |r| ==> IsArrayIndex(r[i])
  {
    if t == [] then [x]
    else if IndexValue(x) <= IndexValue(t[0]) then [x] + t
    else
      assert t == [t[0]] + t[1..];
      [t[0]] + InsertIndex(x, t[1..])
  }

  /** The array-index keys `t`, rearranged into ascending numeric order. */
  function SortIndices(t: seq<string>): (r: seq<string>)
    requires forall i :: 0 <= i < |t| ==> IsArrayIndex(t[i])
    ensures multiset(r) == multiset(t)
    ensures forall i :: 0 <= i < |r| ==> IsArrayIndex(r[i])
  {
    if t == [] then []
    else
      assert t == t[..|t| - 1] + [t[|t| - 1]];
      InsertIndex(t[|t| - 1], SortIndices(t[..|t| - 1]))
  }

  /**
   * `Object.keys` of an object whose keys were created in the order `insertion`:
   * the array indices ascending, then the other keys in creation order.
   */
  function EnumerationOrder(insertion: seq<string>): seq<string>
  {
    SortIndices(IndexKeys(insertion)) + NamedKeys(insertion)
  }

  predicate Distinct(s: seq<string>)
  {
    forall i, j :: 0 <= i < j < |s| ==> s[i] != s[j]
  }

  lemma InsertIndexAscending(x: string, t: seq<string>)
    requires IsArrayIndex(x)
    requires forall i :: 0 <= i < |t| ==> IsArrayIndex(t[i])
    requires Ascending(t)
    ensures Ascending(InsertIndex(x, t))
  {
    if t != [] && IndexValue(x) > IndexValue(t[0]) {
      InsertIndexAscending(x, t[1..]);
      var r := InsertIndex(x, t);
      assert r == [t[0]] + InsertIndex(x, t[1..]);
      forall j | 0 < j < |r| ensures IndexValue(t[0]) <= IndexValue(r[j]) {
        assert r[j] in multiset(t[1..]) + multiset{x};
      }
    }
  }

  lemma {:induction false} SortIndicesAscending(t: seq<string>)
    requires forall i :: 0 <= i < |t| ==> IsArrayIndex(t[i])
    ensures Ascending(SortIndices(t))
  {
    if t != [] {
      SortIndicesAscending(t[..|t| - 1]);
      InsertIndexAscending(t[|t| - 1], SortIndices(t[..|t| - 1]));
    }
  }

  lemma DistinctCons(a: string, u: seq<string>)
    requires a !in u && Distinct(u)
    ensures Distinct([a] + u)
  {
    var s := [a] + u;
    forall i, j | 0 <= i < j < |s| ensures s[i] != s[j] {
      if i == 0 { assert s[j] == u[j - 1]; }
      else { assert s[i] == u[i - 1] && s[j] == u[j - 1]; }
    }
  }

  lemma DistinctSnoc(u: seq<string>, a: string)
    requires a !in u && Distinct(u)
    ensures Distinct(u + [a])
  {
  }

  lemma DistinctAppend(a: seq<string>, b: seq<string>)
    requires Distinct(a) && Distinct(b)
    requires forall k :: k in a ==> k !in b
    ensures Distinct(a + b)
  {
    var s := a + b;
    forall i, j | 0 <= i < j < |s| ensures s[i] != s[j] {
      if j >= |a| && i < |a| { assert s[i] in a && s[j] == b[j - |a|]; }
      else if i >= |a| { assert s[i] == b[i - |a|] && s[j] == b[j - |a|]; }
    }
  }

  lemma {:induction false} InsertIndexDistinct(x: string, t: seq<string>)
    requires IsArrayIndex(x)
    requires forall i :: 0 <= i < |t| ==> IsArrayIndex(t[i])
    requires x !in t && Distinct(t)
    ensures Distinct(InsertIndex(x, t))
  {
    if t == [] {
    } else if IndexValue(x) <= IndexValue(t[0]) {
      DistinctCons(x, t);
    } else {
      assert t == [t[0]] + t[1..];
      InsertIndexDistinct(x, t[1..]);
      var rest := InsertIndex(x, t[1..]);
      assert t[0] !in multiset(t[1..]) && t[0] != x;
      assert t[0] !in multiset(rest);
      DistinctCons(t[0], rest);
    }
  }

  lemma {:induction false} SortIndicesDistinct(t: seq<string>)
    requires forall i :: 0 <= i < |t| ==> IsArrayIndex(t[i])
    requires Distinct(t)
    ensures Distinct(SortIndices(t))
  {
    if t != [] {
      var p, x := t[..|t| - 1], t[|t| - 1];
      SortIndicesDistinct(p);
      assert x !in multiset(p);
      assert x !in multiset(SortIndices(p));
      InsertIndexDistinct(x, SortIndices(p));
    }
  }

  lemma {:induction false} IndexKeysDistinct(keys: seq<string>)
    requires Distinct(keys)
    ensures Distinct(IndexKeys(keys))
  {
    if keys != [] {
      var p := keys[..|keys| - 1];
      IndexKeysDistinct(p);
      if IsArrayIndex(keys[|keys| - 1]) { DistinctSnoc(IndexKeys(p), keys[|keys| - 1]); }
    }
  }

  lemma {:induction false} NamedKeysDistinct(keys: seq<string>)
    requires Distinct(keys)
    ensures Distinct(NamedKeys(keys))
  {
    if keys != [] {
      var p := keys[..|keys| - 1];
      NamedKeysDistinct(p);
      if !IsArrayIndex(keys[|keys| - 1]) { DistinctSnoc(NamedKeys(p), keys[|keys| - 1]); }
    }
  }

  /**
   * Enumeration lists exactly the created keys, each once when they were created once,
   * the array indices first and ascending.
   */
  lemma EnumerationOrderProperties(insertion: seq<string>)
    ensures var e := EnumerationOrder(insertion);
      && (forall k :: k in e <==> k in insertion)
      && |e| == |insertion|
      && (Distinct(insertion) ==> Distinct(e))
    ensures var s := SortIndices(IndexKeys(insertion));
      && EnumerationOrder(insertion)[..|s|] == s
      && Ascending(s)
      && EnumerationOrder(insertion)[|s|..] == NamedKeys(insertion)
  {
    var s := SortIndices(IndexKeys(insertion));
    var e := EnumerationOrder(insertion);
    SortIndicesAscending(IndexKeys(insertion));
    forall k ensures k in e <==> k in insertion {
      assert k in s <==> k in multiset(IndexKeys(insertion));
    }
    KeySplitLength(insertion);
    assert |s| == |multiset(s)|;
    if Distinct(insertion) {
      IndexKeysDistinct(insertion);
      NamedKeysDistinct(insertion);
      SortIndicesDistinct(IndexKeys(insertion));
      forall k | k in s ensures k !in NamedKeys(insertion) {
        assert k in multiset(IndexKeys(insertion));
      }
      DistinctAppend(s, NamedKeys(insertion));
    }
  }

  lemma {:induction false} KeySplitLength(keys: seq<string>)
    ensures |IndexKeys(keys)| + |NamedKeys(keys)| == |keys|
  {
    if keys != [] { KeySplitLength(keys[..|keys| - 1]); }
  }

  /** With no array-index key, enumeration is creation order. */
  lemma {:induction false} EnumerationWithoutIndices(insertion: seq<string>)
    requires forall i :: 0 <= i < |insertion| ==> !IsArrayIndex(insertion[i])
    ensures EnumerationOrder(insertion) == insertion
  {
    NamedKeysWithoutIndices(insertion);
    IndexKeysWithoutIndices(insertion);
  }

  lemma {:induction false} IndexKeysWithoutIndices(keys: seq<string>)
    requires forall i :: 0 <= i < |keys| ==> !IsArrayIndex(keys[i])
    ensures IndexKeys(keys) == []
  {
    if keys != [] { IndexKeysWithoutIndices(keys[..|keys| - 1]); }
  }

  lemma {:induction false} NamedKeysWithoutIndices(keys: seq<string>)
    requires forall i :: 0 <= i < |keys| ==> !IsArrayIndex(keys[i])
    ensures NamedKeys(keys) == keys
  {
    if keys != [] {
      assert !IsArrayIndex(keys[|keys| - 1]);
      assert forall i :: 0 <= i < |keys| - 1 ==> keys[..|keys| - 1][i] == keys[i];
      NamedKeysWithoutIndices(keys[..|keys| - 1]);
      assert keys == keys[..|keys| - 1] + [keys[|keys| - 1]];
    }
  }


  lemma ExampleKeyKinds()
    ensures IsArrayIndex("10") && IsArrayIndex("2") && !IsArrayIndex("a") && !IsArrayIndex("b")
    ensures IndexValue("10") == 10 && IndexValue("2") == 2
  {
    assert "10"[..1] == "1";
  }

  lemma ExampleIndexKeys()
    ensures IndexKeys(["b", "10", "a", "2"]) == ["10", "2"]
  {
    ExampleKeyKinds();
    assert ["b", "10", "a", "2"][..3] == ["b", "10", "a"];
    assert ["b", "10", "a"][..2] == ["b", "10"];
    assert ["b", "10"][..1] == ["b"];
    assert ["b"][..0] == [];
    assert IndexKeys(["b"]) == [];
    assert IndexKeys(["b", "10"]) == ["10"];
    assert IndexKeys(["b", "10", "a"]) == ["10"];
  }

  lemma ExampleNamedKeys()
    ensures NamedKeys(["b", "10", "a", "2"]) == ["b", "a"]
  {
    ExampleKeyKinds();
    assert ["b", "10", "a", "2"][..3] == ["b", "10", "a"];
    assert ["b", "10", "a"][..2] == ["b", "10"];
    assert ["b", "10"][..1] == ["b"];
    assert ["b"][..0] == [];
    assert NamedKeys(["b"]) == ["b"];
    assert NamedKeys(["b", "10"]) == ["b"];
    assert NamedKeys(["b", "10", "a"]) == ["b", "a"];
  }

  lemma ExampleSort()
    ensures IsArrayIndex("10") && IsArrayIndex("2") && SortIndices(["10", "2"]) == ["2", "10"]
  {
    ExampleKeyKinds();
    assert ["10", "2"][..1] == ["10"];
    assert ["10"][..0] == [];
    assert SortIndices(["10"]) == ["10"];
  }

  /** Keys created as "b", "10", "a", "2" enumerate as "2", "10", "b", "a". */
  lemma EnumerationExample()
    ensures EnumerationOrder(["b", "10", "a", "2"]) == ["2", "10", "b", "a"]
  {
    ExampleIndexKeys();
    ExampleNamedKeys();
    ExampleSort();
  }
}
