/**
 * The stream operators of dq/piping/filter.py. `Filter` keeps the items of a
 * stream on which its condition holds. `Transform` updates named fields of
 * every item, in place, and yields the item once per updated field.
 *
 * Conditions and field expressions are Python expressions evaluated with the
 * item in scope; they are given as functions of the item (`cond`) or of the
 * item's fields (`eval`).
 */
module Filtering {
  import opened Ast
  import opened Values

  // ---------------------------------------------------------------------
  // Filter
  // ---------------------------------------------------------------------

  /** `Filter(condition)(stream)`: the items on which the condition holds, in stream order. */
  function Filter<T>(items: seq<T>, cond: T -> bool): (r: seq<T>)
    ensures |r| <= |items|
    ensures forall k :: 0 <= k < |r| ==> cond(r[k])
  {
    if |items| == 0 then []
    else
      var last := items[|items| - 1];
      Filter(items[..|items| - 1], cond) + (if cond(last) then [last] else [])
  }

  /** The positions of the items `Filter` keeps, in increasing order. */
  function Kept<T>(items: seq<T>, cond: T -> bool): seq<nat> {
    if |items| == 0 then []
    else Kept(items[..|items| - 1], cond) + (if cond(items[|items| - 1]) then [|items| - 1] else [])
  }

  /**
   * `Filter` yields exactly the items whose condition holds, each once, in
   * stream order: its output is the input at the increasing positions
   * `Kept`, and a position is kept exactly when the condition holds there.
   */
  lemma {:induction false} FilterPicks<T>(items: seq<T>, cond: T -> bool)
    ensures var r, idx := Filter(items, cond), Kept(items, cond);
            && |idx| == |r|
            && (forall k :: 0 <= k < |idx| ==> idx[k] < |items| && r[k] == items[idx[k]])
            && (forall k, l :: 0 <= k < l < |idx| ==> idx[k] < idx[l])
            && (forall i :: 0 <= i < |items| ==> (cond(items[i]) <==> i in idx))
    decreases |items|
  {
    if |items| > 0 {
      var init := items[..|items| - 1];
      FilterPicks(init, cond);
      var idx0 := Kept(init, cond);
      assert forall k :: 0 <= k < |idx0| ==> idx0[k] < |init|;
      forall i | 0 <= i < |init|
        ensures items[i] == init[i]
      {
      }
    }
  }

  /** An item is in `Filter`'s output exactly when it is in the input and satisfies the condition. */
  lemma {:induction false} FilterMembers<T>(items: seq<T>, cond: T -> bool, x: T)
    ensures x in Filter(items, cond) <==> x in items && cond(x)
    decreases |items|
  {
    if |items| > 0 {
      var init := items[..|items| - 1];
      FilterMembers(init, cond, x);
      assert items == init + [items[|items| - 1]];
    }
  }

  /** `Filter` keeps every occurrence of an item satisfying the condition and none of the others. */
  lemma {:induction false} FilterCounts<T>(items: seq<T>, cond: T -> bool, x: T)
    ensures multiset(Filter(items, cond))[x] == if cond(x) then multiset(items)[x] else 0
    decreases |items|
  {
    if |items| > 0 {
      var init := items[..|items| - 1];
      FilterCounts(init, cond, x);
      assert items == init + [items[|items| - 1]];
    }
  }

  // ---------------------------------------------------------------------
  // Transform
  // ---------------------------------------------------------------------

  /** A stream item: a mutable record of named fields (`item[name]`). */
  class Record {
    var fields: map<string, Value>

    constructor (f: map<string, Value>)
      ensures fields == f
    {
      fields := f;
    }
  }

  /** The keyword arguments of a `Transform`, in the order the dictionary iterates them. */
  type Keywords = seq<(string, Expression)>

  /** Keyword names are the keys of a dictionary: no two are the same. */
  predicate DistinctNames(kws: Keywords) {
    forall a, b :: 0 <= a < b < |kws| ==> kws[a].0 != kws[b].0
  }

  /**
   * The fields after setting each keyword's field, in order, to its
   * expression evaluated on the fields as updated by the keywords before it.
   */
  function ApplyAll(f: map<string, Value>, kws: Keywords, eval: (Expression, map<string, Value>) -> Value)
    : map<string, Value>
  {
    if |kws| == 0 then f
    else
      var g := ApplyAll(f, kws[..|kws| - 1], eval);
      var (name, expr) := kws[|kws| - 1];
      g[name := eval(expr, g)]
  }

  /** The fields of an item that occurs `k` times in the stream, after the stream is through. */
  function ApplyTimes(f: map<string, Value>, kws: Keywords, eval: (Expression, map<string, Value>) -> Value, k: nat)
    : map<string, Value>
  {
    if k == 0 then f else ApplyAll(ApplyTimes(f, kws, eval, k - 1), kws, eval)
  }

  /** `m` copies of `x`. */
  function Copies<T>(x: T, m: nat): (r: seq<T>)
    ensures |r| == m && forall k :: 0 <= k < m ==> r[k] == x
  {
    if m == 0 then [] else Copies(x, m - 1) + [x]
  }

  /** Every item of `s` repeated `m` times in a row. */
  function Repeat<T>(s: seq<T>, m: nat): seq<T> {
    if |s| == 0 then [] else Repeat(s[..|s| - 1], m) + Copies(s[|s| - 1], m)
  }

  /**
   * The inner loop of `Transform` for one item: for every keyword in turn,
   * the item's field is set to the expression evaluated on the item as it is
   * at that point, and the item is yielded.
   */
  method UpdateItem(item: Record, kws: Keywords, eval: (Expression, map<string, Value>) -> Value)
    returns (yielded: seq<Record>)
    modifies item
    ensures item.fields == ApplyAll(old(item.fields), kws, eval)
    ensures yielded == Copies(item, |kws|)
  {
    yielded := [];
    for j := 0 to |kws|
      invariant item.fields == ApplyAll(old(item.fields), kws[..j], eval)
      invariant yielded == Copies(item, j)
    {
      var (name, expr) := kws[j];
      assert kws[..j + 1][..j] == kws[..j];
      item.fields := item.fields[name := eval(expr, item.fields)];
      yielded := yielded + [item];
    }
    assert kws[..|kws|] == kws;
  }

  /**
   * `Transform(**kwargs)(stream)`: every item updated in turn and yielded
   * once per keyword. The same item object occurring several times in the
   * stream is transformed once per occurrence; nothing but the items' fields
   * changes.
   */
  method Transform(stream: seq<Record>, kws: Keywords, eval: (Expression, map<string, Value>) -> Value)
    returns (out: seq<Record>)
    modifies set r | r in stream
    ensures out == Repeat(stream, |kws|)
    ensures forall r :: r in stream ==> r.fields == ApplyTimes(old(r.fields), kws, eval, multiset(stream)[r])
  {
    out := [];
    for i := 0 to |stream|
      invariant out == Repeat(stream[..i], |kws|)
      invariant forall r :: r in stream ==> r.fields == ApplyTimes(old(r.fields), kws, eval, multiset(stream[..i])[r])
    {
      var item := stream[i];
      var yielded := UpdateItem(item, kws, eval);
      out := out + yielded;
      OneMoreOccurrence(stream, i);
      assert stream[..i + 1][..i] == stream[..i];
    }
    assert stream[..|stream|] == stream;
  }

  /** Taking one more item of the stream counts that item once more and no other. */
  lemma OneMoreOccurrence<T>(s: seq<T>, i: nat)
    requires i < |s|
    ensures forall x :: multiset(s[..i + 1])[x] == multiset(s[..i])[x] + (if x == s[i] then 1 else 0)
  {
    assert s[..i + 1] == s[..i] + [s[i]];
  }

  // ---------------------------------------------------------------------
  // Properties of Transform
  // ---------------------------------------------------------------------

  /** Each item is yielded once per keyword: with no keywords, nothing is yielded. */
  lemma {:induction false} RepeatLength<T>(s: seq<T>, m: nat)
    ensures |Repeat(s, m)| == |s| * m
    ensures m == 0 ==> Repeat(s, m) == []
    ensures m == 1 ==> Repeat(s, m) == s
    decreases |s|
  {
    if |s| > 0 {
      var init := s[..|s| - 1];
      RepeatLength(init, m);
      MoreCopies(|init|, m);
      if m == 1 {
        assert Copies(s[|s| - 1], 1) == [s[|s| - 1]];
        assert init + [s[|s| - 1]] == s;
      }
    }
  }

  /** One more item adds `m` more copies. */
  lemma MoreCopies(n: nat, m: nat)
    ensures (n + 1) * m == n * m + m
  {
  }

  /** The names of the keywords. */
  function Names(kws: Keywords): set<string> {
    set k | 0 <= k < |kws| :: kws[k].0
  }

  /**
   * Only the fields the keywords name change: every other field is present
   * after the keywords exactly when it was before, with the same value; the
   * named fields are all present.
   */
  lemma {:induction false} OnlyNamedFieldsChange(f: map<string, Value>, kws: Keywords,
                                                 eval: (Expression, map<string, Value>) -> Value)
    ensures ApplyAll(f, kws, eval).Keys == f.Keys + Names(kws)
    ensures forall key :: key in f && key !in Names(kws) ==> ApplyAll(f, kws, eval)[key] == f[key]
    decreases |kws|
  {
    if |kws| > 0 {
      var init := kws[..|kws| - 1];
      OnlyNamedFieldsChange(f, init, eval);
      assert Names(kws) == Names(init) + {kws[|kws| - 1].0} by {
        forall key | key in Names(kws)
          ensures key in Names(init) + {kws[|kws| - 1].0}
        {
          var k :| 0 <= k < |kws| && kws[k].0 == key;
          if k < |kws| - 1 {
            assert init[k] == kws[k];
          }
        }
        forall key | key in Names(init)
          ensures key in Names(kws)
        {
          var k :| 0 <= k < |init| && init[k].0 == key;
          assert kws[k] == init[k];
        }
      }
    }
  }

  /**
   * With distinct names, the field of keyword `j` ends up holding its
   * expression evaluated on the item as updated by keywords `0 .. j-1` only.
   */
  lemma {:induction false} FieldValue(f: map<string, Value>, kws: Keywords,
                                      eval: (Expression, map<string, Value>) -> Value, j: nat)
    requires DistinctNames(kws) && j < |kws|
    ensures kws[j].0 in ApplyAll(f, kws, eval)
    ensures ApplyAll(f, kws, eval)[kws[j].0] == eval(kws[j].1, ApplyAll(f, kws[..j], eval))
    decreases |kws|
  {
    var init := kws[..|kws| - 1];
    if j < |kws| - 1 {
      assert DistinctNames(init);
      assert init[..j] == kws[..j];
      FieldValue(f, init, eval, j);
    } else {
      assert init == kws[..j];
    }
  }

  /** An item that occurs several times is transformed once per occurrence, in turn. */
  lemma TransformedTwice(f: map<string, Value>, kws: Keywords, eval: (Expression, map<string, Value>) -> Value)
    ensures ApplyTimes(f, kws, eval, 2) == ApplyAll(ApplyAll(f, kws, eval), kws, eval)
  {
    assert ApplyTimes(f, kws, eval, 1) == ApplyAll(f, kws, eval);
  }
}
