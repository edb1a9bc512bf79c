/**
 * The dense, position-keyed dicts of the profile script: every dict it builds comes from
 * `dict.fromkeys(range(lo, hi), v)`, so its keys are consecutive integer positions kept
 * in insertion (ascending) order, and counting with `d[k] += v` never adds a key.
 */
module PositionMaps {
  import opened Errors

  /** `list(range(lo, hi))`: lo, lo + 1, ..., hi - 1, and empty when hi <= lo. */
  function Range(lo: int, hi: int): (s: seq<int>)
    ensures |s| == if lo <= hi then hi - lo else 0
    ensures forall i :: 0 <= i < |s| ==> s[i] == lo + i
  {
    seq(if lo <= hi then hi - lo else 0, i => lo + i)
  }

  /** The positions of a dense dict: `range(lo, hi)` holds exactly lo .. hi - 1, each once,
      in ascending order. */
  lemma RangeHoldsKeys(lo: int, hi: int)
    ensures forall k :: k in Range(lo, hi) <==> lo <= k < hi
    ensures forall i, j :: 0 <= i < j < |Range(lo, hi)| ==> Range(lo, hi)[i] < Range(lo, hi)[j]
  {
    var s := Range(lo, hi);
    forall k ensures k in s <==> lo <= k < hi {
      if lo <= k < hi {
        assert s[k - lo] == k;
      }
    }
  }

  /** A dict whose keys are first, first + 1, ..., first + |values| - 1 in this order;
      values[i] is the value stored under key first + i. */
  datatype Dense<V> = Dense(first: int, values: seq<V>) {

    /** `k in d` */
    predicate HasKey(k: int) {
      first <= k < first + |values|
    }

    /** `d[k]` for a key the dict holds. */
    function Get(k: int): (v: V)
      requires HasKey(k)
    {
      values[k - first]
    }

    /** `d.get(k, absent)` */
    function GetOr(k: int, absent: V): (v: V) {
      if HasKey(k) then values[k - first] else absent
    }

    /** `list(d.keys())` */
    function Keys(): (ks: seq<int>) {
      Range(first, first + |values|)
    }

    /** `d[k] = v` for a key the dict already holds. */
    function Set(k: int, v: V): (d: Dense<V>)
      requires HasKey(k)
      ensures d.first == first && |d.values| == |values|
      ensures d.Get(k) == v
      ensures forall p :: HasKey(p) && p != k ==> d.Get(p) == Get(p)
    {
      Dense(first, values[k - first := v])
    }
  }

  /** `dict.fromkeys(range(lo, hi), v)` */
  function FromKeys<V>(lo: int, hi: int, v: V): (d: Dense<V>)
    ensures d.first == lo
    ensures forall k :: d.HasKey(k) <==> lo <= k < hi
    ensures forall i :: 0 <= i < |d.values| ==> d.values[i] == v
  {
    Dense(lo, seq(|Range(lo, hi)|, _ => v))
  }

  /** `sum(values)` */
  function Sum(s: seq<nat>): (total: nat) {
    if s == [] then 0 else Sum(s[..|s| - 1]) + s[|s| - 1]
  }

  /** Raising one value by v raises the sum by exactly v. */
  lemma {:induction false} SumUpdate(s: seq<nat>, i: nat, v: nat)
    requires i < |s|
    ensures Sum(s[i := s[i] + v]) == Sum(s) + v
  {
    var t := s[i := s[i] + v];
    if i < |s| - 1 {
      assert t[..|t| - 1] == s[..|s| - 1][i := s[i] + v];
      SumUpdate(s[..|s| - 1], i, v);
    } else {
      assert t[..|t| - 1] == s[..|s| - 1];
    }
  }

  /** A freshly initialised count dict sums to 0. */
  lemma {:induction false} SumZero(s: seq<nat>)
    requires forall i :: 0 <= i < |s| ==> s[i] == 0
    ensures Sum(s) == 0
  {
    if s != [] {
      SumZero(s[..|s| - 1]);
    }
  }

  /** Extending a prefix by one element adds that element to the sum. */
  lemma SumPrefix(s: seq<nat>, i: nat)
    requires i < |s|
    ensures Sum(s[..i + 1]) == Sum(s[..i]) + s[i]
  {
    assert s[..i + 1][..i] == s[..i];
  }

  /** `d[k] += v`: a key the dict does not hold raises KeyError(k) and is never added;
      otherwise only the value under k changes, and it grows by v. */
  function AddAt(d: Dense<nat>, k: int, v: nat): (r: Result<Dense<nat>>)
    ensures r.Err? <==> !d.HasKey(k)
    ensures r.Err? ==> r.error == KeyError(k)
    ensures r.Ok? ==> r.value.first == d.first && |r.value.values| == |d.values|
    ensures r.Ok? ==> r.value.Get(k) == d.Get(k) + v
    ensures r.Ok? ==> forall p :: d.HasKey(p) && p != k ==> r.value.Get(p) == d.Get(p)
    ensures r.Ok? ==> Sum(r.value.values) == Sum(d.values) + v
  {
    if d.HasKey(k) then
      SumUpdate(d.values, k - d.first, v);
      Ok(d.Set(k, d.Get(k) + v))
    else
      Err(KeyError(k))
  }

  /** The index of the first key in ks outside lo .. hi - 1, or |ks| when there is none:
      the point at which `d[ks[i]] += ...` over a dict keyed lo .. hi - 1 raises KeyError. */
  function FirstOutside(ks: seq<int>, lo: int, hi: int): (n: nat)
    ensures n <= |ks|
    ensures forall i :: 0 <= i < n ==> lo <= ks[i] < hi
    ensures n < |ks| ==> !(lo <= ks[n] < hi)
  {
    if ks == [] || !(lo <= ks[0] < hi) then 0 else 1 + FirstOutside(ks[1..], lo, hi)
  }
}
