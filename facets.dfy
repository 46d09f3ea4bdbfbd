/**
 * The view's filter facets (apps, categories, hosts, levels, tags): a list
 * of schema values narrowed to its string, non-empty elements.
 */
module Facets {
  import opened Attributes

  /** Whether `listToStrings` keeps an element. */
  predicate Kept(v: Value) {
    v.VString? && v.s != ""
  }

  /** Reference definition: the kept elements of `list`, in their original order. */
  function FilterStrings(list: seq<Value>): seq<string> {
    if |list| == 0 then []
    else
      var last := list[|list| - 1];
      FilterStrings(list[..|list| - 1]) + (if Kept(last) then [last.s] else [])
  }

  /** Strictly increasing positions. */
  predicate Increasing(idx: seq<nat>) {
    forall a, b :: 0 <= a < b < |idx| ==> idx[a] < idx[b]
  }

  /** `listToStrings`: loops over the list, appending each kept element. */
  method ListToStrings(list: seq<Value>) returns (strs: seq<string>)
    ensures strs == FilterStrings(list)
  {
    strs := [];
    var i := 0;
    while i < |list|
      invariant 0 <= i <= |list|
      invariant strs == FilterStrings(list[..i])
    {
      var elem := list[i];
      if elem.VString? && elem.s != "" {
        strs := strs + [elem.s];
      }
      assert list[..i + 1][..i] == list[..i];
      i := i + 1;
    }
    assert list[..|list|] == list;
  }

  /** The result is no longer than the list and holds no empty string. */
  lemma {:induction false} FilterStringsBounds(list: seq<Value>)
    ensures |FilterStrings(list)| <= |list|
    ensures forall i :: 0 <= i < |FilterStrings(list)| ==> FilterStrings(list)[i] != ""
  {
    if |list| > 0 {
      FilterStringsBounds(list[..|list| - 1]);
    }
  }

  /** Filtering distributes over concatenation: order is preserved block by block. */
  lemma {:induction false} FilterStringsAppend(a: seq<Value>, b: seq<Value>)
    ensures FilterStrings(a + b) == FilterStrings(a) + FilterStrings(b)
  {
    if |b| == 0 {
      assert a + b == a;
    } else {
      var b' := b[..|b| - 1];
      assert (a + b)[..|a + b| - 1] == a + b';
      FilterStringsAppend(a, b');
    }
  }

  /** A string is in the result exactly when it is non-empty and occurs in the list. */
  lemma {:induction false} FilterStringsMembership(list: seq<Value>, x: string)
    ensures x in FilterStrings(list) <==> x != "" && VString(x) in list
  {
    if |list| > 0 {
      var init := list[..|list| - 1];
      FilterStringsMembership(init, x);
      assert list == init + [list[|list| - 1]];
    }
  }

  /** The result is the subsequence of `list` at exactly the positions of kept
      elements: `idx` lists those positions in increasing order. */
  lemma {:induction false} FilterStringsPositions(list: seq<Value>) returns (idx: seq<nat>)
    ensures |idx| == |FilterStrings(list)|
    ensures Increasing(idx)
    ensures forall k :: 0 <= k < |idx| ==> idx[k] < |list| && list[idx[k]] == VString(FilterStrings(list)[k])
    ensures forall j :: 0 <= j < |list| && Kept(list[j]) ==> j in idx
  {
    if |list| == 0 {
      idx := [];
    } else {
      var n := |list| - 1;
      var init := list[..n];
      var idx' := FilterStringsPositions(init);
      var r, r' := FilterStrings(list), FilterStrings(init);
      assert r == r' + (if Kept(list[n]) then [list[n].s] else []);
      assert forall k :: 0 <= k < |idx'| ==> idx'[k] < n;
      if Kept(list[n]) {
        idx := idx' + [n];
        assert forall k :: 0 <= k < |r'| ==> r[k] == r'[k];
      } else {
        idx := idx';
        assert r == r';
      }
      forall j | 0 <= j < |list| && Kept(list[j]) ensures j in idx {
        if j < n {
          assert init[j] == list[j];
        }
      }
    }
  }

  /** Filtering a filtered list changes nothing. */
  lemma {:induction false} FilterStringsIdempotent(list: seq<Value>)
    ensures FilterStrings(AsValues(FilterStrings(list))) == FilterStrings(list)
  {
    FilterStringsBounds(list);
    FilterStringsOfKept(FilterStrings(list));
  }

  /** A list of non-empty strings passes through unchanged. */
  lemma {:induction false} FilterStringsOfKept(ss: seq<string>)
    requires forall i :: 0 <= i < |ss| ==> ss[i] != ""
    ensures FilterStrings(AsValues(ss)) == ss
  {
    if |ss| > 0 {
      var n := |ss| - 1;
      assert AsValues(ss)[..n] == AsValues(ss[..n]);
      FilterStringsOfKept(ss[..n]);
      assert ss == ss[..n] + [ss[n]];
    }
  }
}
