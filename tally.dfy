/**
 * Counting by key: `list.reduce((acc, x) => { acc[key(x)] = (acc[key(x)] || 0) + 1;
 * return acc; }, {})`, as both the dashboard (by threat type) and the severity chart (by
 * severity) compute it. The accumulator is modelled as the counts it holds together with
 * the order in which its keys were created; keys that a plain `{}` inherits from
 * `Object.prototype` are treated as absent (see module JsObjectFold for what the code does
 * with them).
 */
module Tally {
  import opened Records
  import ObjectKeys

  datatype Histogram = Histogram(counts: map<string, nat>, order: seq<string>)

  const EmptyHistogram := Histogram(map[], [])

  /** One reducer step: the count of `k` goes up by one, creating a new key at the end. */
  function Bump(h: Histogram, k: string): Histogram
  {
    if k in h.counts then Histogram(h.counts[k := h.counts[k] + 1], h.order)
    else Histogram(h.counts[k := 1], h.order + [k])
  }

  /** The left fold of `Bump` over `keys`, starting from the empty object. */
  function Tally(keys: seq<string>): Histogram
  {
    if keys == [] then EmptyHistogram
    else Bump(Tally(keys[..|keys| - 1]), keys[|keys| - 1])
  }

  /** The keys are recorded once each, and exactly the keys that have a count. */
  ghost predicate WellFormed(h: Histogram)
  {
    && ObjectKeys.Distinct(h.order)
    && (forall k :: k in h.counts <==> k in h.order)
  }

  /** The first position of `k` in `keys`. */
  function FirstIndex(keys: seq<string>, k: string): (r: nat)
    requires k in keys
    ensures r < |keys| && keys[r] == k
    ensures forall j :: 0 <= j < r ==> keys[j] != k
  {
    if keys[0] == k then 0
    else
      assert k in keys[1..];
      1 + FirstIndex(keys[1..], k)
  }

  /** The counts of `keys` (all present in `counts`), in the order of `keys`. */
  function Values(keys: seq<string>, counts: map<string, nat>): (r: seq<nat>)
    requires forall k :: k in keys ==> k in counts
    ensures |r| == |keys|
  {
    if keys == [] then []
    else Values(keys[..|keys| - 1], counts) + [counts[keys[|keys| - 1]]]
  }

  lemma {:induction false} ValuesAt(keys: seq<string>, counts: map<string, nat>, i: nat)
    requires forall k :: k in keys ==> k in counts
    requires i < |keys|
    ensures Values(keys, counts)[i] == counts[keys[i]]
  {
    if i < |keys| - 1 {
      ValuesAt(keys[..|keys| - 1], counts, i);
    }
  }

  function Sum(xs: seq<nat>): nat
  {
    if xs == [] then 0 else Sum(xs[..|xs| - 1]) + xs[|xs| - 1]
  }

  lemma {:induction false} TallyWellFormed(keys: seq<string>)
    ensures WellFormed(Tally(keys))
  {
    if keys != [] {
      var p, k := keys[..|keys| - 1], keys[|keys| - 1];
      TallyWellFormed(p);
      if k !in Tally(p).counts {
        ObjectKeys.DistinctSnoc(Tally(p).order, k);
      }
    }
  }

  /**
   * Every key of the input has a count equal to its number of occurrences, and no other
   * key has one; in particular every count is at least one.
   */
  lemma {:induction false} TallyCounts(keys: seq<string>, k: string)
    ensures k in Tally(keys).counts <==> k in keys
    ensures k in Tally(keys).counts ==> Tally(keys).counts[k] == Occurrences(keys, k) >= 1
  {
    if keys != [] {
      var p := keys[..|keys| - 1];
      TallyCounts(p, k);
      OccurrencesBound(p, k);
      OccurrencesBound(keys, k);
    }
  }

  /** Every listed key occurs in the input. */
  lemma TallyOrderInKeys(keys: seq<string>)
    ensures forall k :: k in Tally(keys).order ==> k in keys
  {
    TallyWellFormed(keys);
    forall k | k in Tally(keys).order ensures k in keys {
      TallyCounts(keys, k);
    }
  }

  /** The keys are listed in the order of their first occurrence in the input. */
  lemma {:induction false} TallyFirstOccurrenceOrder(keys: seq<string>)
    ensures forall k :: k in Tally(keys).order ==> k in keys
    ensures var o := Tally(keys).order;
      forall i, j :: 0 <= i < j < |o| ==> FirstIndex(keys, o[i]) < FirstIndex(keys, o[j])
  {
    TallyOrderInKeys(keys);
    if keys != [] {
      var p, k := keys[..|keys| - 1], keys[|keys| - 1];
      TallyFirstOccurrenceOrder(p);
      assert keys == p + [k];
      TallyOrderStep(p, k);
    }
  }

  /** One reducer step keeps the keys in first-occurrence order. */
  lemma TallyOrderStep(p: seq<string>, k: string)
    requires forall x :: x in Tally(p).order ==> x in p
    requires var o := Tally(p).order;
      forall i, j :: 0 <= i < j < |o| ==> FirstIndex(p, o[i]) < FirstIndex(p, o[j])
    ensures var o := Tally(p + [k]).order;
      forall i, j :: 0 <= i < j < |o| ==> FirstIndex(p + [k], o[i]) < FirstIndex(p + [k], o[j])
  {
    var keys := p + [k];
    assert keys[..|keys| - 1] == p;
    TallyCounts(p, k);
    if k in Tally(p).counts {
      OrderKeptByOldKey(p, Tally(p).order, k);
    } else {
      OrderKeptByNewKey(p, Tally(p).order, k);
    }
  }

  /** Appending an input key that already occurred keeps a first-occurrence order. */
  lemma OrderKeptByOldKey(p: seq<string>, o: seq<string>, k: string)
    requires forall x :: x in o ==> x in p
    requires forall i, j :: 0 <= i < j < |o| ==> FirstIndex(p, o[i]) < FirstIndex(p, o[j])
    ensures forall i, j :: 0 <= i < j < |o| ==> FirstIndex(p + [k], o[i]) < FirstIndex(p + [k], o[j])
  {
    forall x | x in p ensures FirstIndex(p + [k], x) == FirstIndex(p, x) {
      FirstIndexPrefix(p, p + [k], x);
    }
  }

  /** Appending a new input key, listed last, keeps a first-occurrence order. */
  lemma OrderKeptByNewKey(p: seq<string>, o: seq<string>, k: string)
    requires forall x :: x in o ==> x in p
    requires k !in p
    requires forall i, j :: 0 <= i < j < |o| ==> FirstIndex(p, o[i]) < FirstIndex(p, o[j])
    ensures forall i, j :: 0 <= i < j < |o + [k]| ==>
      FirstIndex(p + [k], (o + [k])[i]) < FirstIndex(p + [k], (o + [k])[j])
  {
    var keys, o' := p + [k], o + [k];
    forall x | x in p ensures FirstIndex(keys, x) == FirstIndex(p, x) {
      FirstIndexPrefix(p, keys, x);
    }
    assert forall m :: 0 <= m < |p| ==> keys[m] == p[m] && keys[m] != k;
    assert FirstIndex(keys, k) == |p|;
    forall i, j | 0 <= i < j < |o'| ensures FirstIndex(keys, o'[i]) < FirstIndex(keys, o'[j]) {
      assert o'[i] == o[i];
      if j < |o| {
        assert o'[j] == o[j];
      } else {
        assert FirstIndex(p, o[i]) < |p|;
      }
    }
  }

  /** `TallyFirstOccurrenceOrder`, for a histogram known to be the tally of `keys`. */
  lemma HistogramOrder(keys: seq<string>, h: Histogram)
    requires h == Tally(keys)
    ensures forall k :: k in h.order ==> k in keys
    ensures forall i, j :: 0 <= i < j < |h.order| ==> FirstIndex(keys, h.order[i]) < FirstIndex(keys, h.order[j])
  {
    TallyFirstOccurrenceOrder(keys);
  }

  lemma FirstIndexPrefix(p: seq<string>, keys: seq<string>, x: string)
    requires x in p && p <= keys
    ensures x in keys && FirstIndex(keys, x) == FirstIndex(p, x)
  {
    var a, b := FirstIndex(keys, x), FirstIndex(p, x);
    assert keys[b] == x;
    assert !(a < b);
  }

  /** Counting every record once: the counts add up to the length of the input. */
  lemma {:induction false} TallySum(keys: seq<string>)
    ensures var h := Tally(keys);
      (forall k :: k in h.order ==> k in h.counts) &&
      Sum(Values(h.order, h.counts)) == |keys|
  {
    TallyWellFormed(keys);
    if keys != [] {
      var p := keys[..|keys| - 1];
      TallySum(p);
      TallyWellFormed(p);
      var h, k := Tally(p), keys[|keys| - 1];
      if k in h.counts {
        SumBump(h.order, h.counts, k);
      } else {
        SumNewKey(h.order, h.counts, k);
      }
    }
  }

  /** Creating a key with count one at the end adds one to the sum. */
  lemma SumNewKey(keys: seq<string>, counts: map<string, nat>, k: string)
    requires forall x :: x in keys ==> x in counts
    requires k !in keys
    ensures Sum(Values(keys + [k], counts[k := 1])) == Sum(Values(keys, counts)) + 1
  {
    var c' := counts[k := 1];
    ValuesFrame(keys, counts, k, 1);
    assert Values(keys + [k], c') == Values(keys, c') + [1] by {
      assert (keys + [k])[..|keys|] == keys;
    }
  }

  /** Updating a key that is not listed leaves the listed values unchanged. */
  lemma {:induction false} ValuesFrame(keys: seq<string>, counts: map<string, nat>, k: string, v: nat)
    requires forall k :: k in keys ==> k in counts
    requires k !in keys
    ensures Values(keys, counts[k := v]) == Values(keys, counts)
  {
    if keys != [] { ValuesFrame(keys[..|keys| - 1], counts, k, v); }
  }

  /** Adding one to a key listed once adds one to the sum of the listed values. */
  lemma {:induction false} SumBump(keys: seq<string>, counts: map<string, nat>, k: string)
    requires forall k :: k in keys ==> k in counts
    requires ObjectKeys.Distinct(keys) && k in keys && k in counts
    ensures Sum(Values(keys, counts[k := counts[k] + 1])) == Sum(Values(keys, counts)) + 1
  {
    var p, last := keys[..|keys| - 1], keys[|keys| - 1];
    var c' := counts[k := counts[k] + 1];
    assert Values(keys, c') == Values(p, c') + [c'[last]];
    assert Values(keys, counts) == Values(p, counts) + [counts[last]];
    if last == k {
      assert k !in p;
      ValuesFrame(p, counts, k, counts[k] + 1);
    } else {
      assert k in p;
      SumBump(p, counts, k);
    }
  }

  lemma {:induction false} SumAppend(a: seq<nat>, b: seq<nat>)
    ensures Sum(a + b) == Sum(a) + Sum(b)
  {
    if b != [] {
      SumAppend(a, b[..|b| - 1]);
      assert (a + b)[..|a + b| - 1] == a + b[..|b| - 1];
      assert (a + b)[|a + b| - 1] == b[|b| - 1];
    } else {
      assert a + b == a;
    }
  }

  lemma {:induction false} ValuesAppend(a: seq<string>, b: seq<string>, counts: map<string, nat>)
    requires forall k :: k in a ==> k in counts
    requires forall k :: k in b ==> k in counts
    ensures Values(a + b, counts) == Values(a, counts) + Values(b, counts)
  {
    if b != [] {
      ValuesAppend(a, b[..|b| - 1], counts);
      assert (a + b)[..|a + b| - 1] == a + b[..|b| - 1];
    } else {
      assert a + b == a;
    }
  }

  /** Splitting the keys into array indices and others splits the sum. */
  lemma {:induction false} SumSplit(keys: seq<string>, counts: map<string, nat>)
    requires forall k :: k in keys ==> k in counts
    ensures Sum(Values(keys, counts)) ==
      Sum(Values(ObjectKeys.IndexKeys(keys), counts)) + Sum(Values(ObjectKeys.NamedKeys(keys), counts))
  {
    if keys != [] {
      var p, k := keys[..|keys| - 1], keys[|keys| - 1];
      SumSplit(p, counts);
      var ip, np := ObjectKeys.IndexKeys(p), ObjectKeys.NamedKeys(p);
      assert Values(keys, counts) == Values(p, counts) + [counts[k]];
      SumAppend(Values(p, counts), [counts[k]]);
      assert Sum([counts[k]]) == counts[k];
      if ObjectKeys.IsArrayIndex(k) {
        assert ObjectKeys.IndexKeys(keys) == ip + [k];
        assert ObjectKeys.NamedKeys(keys) == np;
        ValuesAppend(ip, [k], counts);
        SumAppend(Values(ip, counts), [counts[k]]);
      } else {
        assert ObjectKeys.IndexKeys(keys) == ip;
        assert ObjectKeys.NamedKeys(keys) == np + [k];
        ValuesAppend(np, [k], counts);
        SumAppend(Values(np, counts), [counts[k]]);
      }
    }
  }

  /** Putting one key in front adds its value to the sum. */
  lemma SumValuesCons(x: string, t: seq<string>, counts: map<string, nat>)
    requires x in counts && forall k :: k in t ==> k in counts
    ensures Sum(Values([x] + t, counts)) == counts[x] + Sum(Values(t, counts))
  {
    assert Values([x], counts) == [counts[x]];
    assert Sum([counts[x]]) == counts[x];
    ValuesAppend([x], t, counts);
    SumAppend([counts[x]], Values(t, counts));
  }

  lemma {:induction false} SumInsertIndex(x: string, t: seq<string>, counts: map<string, nat>)
    requires ObjectKeys.IsArrayIndex(x)
    requires forall i :: 0 <= i < |t| ==> ObjectKeys.IsArrayIndex(t[i])
    requires x in counts && forall k :: k in t ==> k in counts
    ensures forall k :: k in ObjectKeys.InsertIndex(x, t) ==> k in counts
    ensures Sum(Values(ObjectKeys.InsertIndex(x, t), counts)) == counts[x] + Sum(Values(t, counts))
  {
    var r := ObjectKeys.InsertIndex(x, t);
    forall k | k in r ensures k in counts { assert k in multiset(t) + multiset{x}; }
    if t == [] {
      assert r == [x] + t;
      SumValuesCons(x, t, counts);
    } else if ObjectKeys.IndexValue(x) <= ObjectKeys.IndexValue(t[0]) {
      assert r == [x] + t;
      SumValuesCons(x, t, counts);
    } else {
      var rest := ObjectKeys.InsertIndex(x, t[1..]);
      assert r == [t[0]] + rest;
      assert t == [t[0]] + t[1..];
      SumInsertIndex(x, t[1..], counts);
      SumValuesCons(t[0], rest, counts);
      SumValuesCons(t[0], t[1..], counts);
    }
  }

  lemma {:induction false} SumSortIndices(t: seq<string>, counts: map<string, nat>)
    requires forall i :: 0 <= i < |t| ==> ObjectKeys.IsArrayIndex(t[i])
    requires forall k :: k in t ==> k in counts
    ensures forall k :: k in ObjectKeys.SortIndices(t) ==> k in counts
    ensures Sum(Values(ObjectKeys.SortIndices(t), counts)) == Sum(Values(t, counts))
  {
    var r := ObjectKeys.SortIndices(t);
    forall k | k in r ensures k in counts { assert k in multiset(t); }
    if t != [] {
      var p, x := t[..|t| - 1], t[|t| - 1];
      SumSortIndices(p, counts);
      SumInsertIndex(x, ObjectKeys.SortIndices(p), counts);
      assert Values(t, counts) == Values(p, counts) + [counts[x]];
      SumAppend(Values(p, counts), [counts[x]]);
    }
  }

  /** Enumerating the keys in `Object.keys` order does not change the sum of the values. */
  lemma SumEnumerationOrder(keys: seq<string>, counts: map<string, nat>)
    requires forall k :: k in keys ==> k in counts
    ensures forall k :: k in ObjectKeys.EnumerationOrder(keys) ==> k in counts
    ensures Sum(Values(ObjectKeys.EnumerationOrder(keys), counts)) == Sum(Values(keys, counts))
  {
    ObjectKeys.EnumerationOrderProperties(keys);
    var s := ObjectKeys.SortIndices(ObjectKeys.IndexKeys(keys));
    SumSortIndices(ObjectKeys.IndexKeys(keys), counts);
    ValuesAppend(s, ObjectKeys.NamedKeys(keys), counts);
    SumAppend(Values(s, counts), Values(ObjectKeys.NamedKeys(keys), counts));
    SumSplit(keys, counts);
  }
}
