/** The three array combinators the stores are written with: `filter`,
    `find` and a `map` that rewrites only the elements a predicate selects. */
module Seqs {
  import opened Wrappers

  /** `s.filter(keep)`: the elements satisfying `keep`, in their original order. */
  function Filter<T>(s: seq<T>, keep: T -> bool): (r: seq<T>)
    ensures |r| <= |s|
    ensures forall i :: 0 <= i < |r| ==> r[i] in s && keep(r[i])
    ensures forall i :: 0 <= i < |s| && keep(s[i]) ==> s[i] in r
    ensures (forall i :: 0 <= i < |s| ==> keep(s[i])) ==> r == s
    ensures (forall i :: 0 <= i < |s| ==> !keep(s[i])) ==> r == []
  {
    if s == [] then []
    else if keep(s[0]) then [s[0]] + Filter(s[1..], keep)
    else Filter(s[1..], keep)
  }

  /** `s.find(pred)`: the first element satisfying `pred`, if any. */
  function FindFirst<T>(s: seq<T>, pred: T -> bool): (r: Option<T>)
    ensures r.None? <==> forall i :: 0 <= i < |s| ==> !pred(s[i])
    ensures r.Some? ==>
      exists i :: 0 <= i < |s| && s[i] == r.value && pred(s[i]) &&
        forall j :: 0 <= j < i ==> !pred(s[j])
  {
    if s == [] then None
    else if pred(s[0]) then Some(s[0])
    else
      var r := FindFirst(s[1..], pred);
      assert forall i :: 0 < i < |s| ==> s[i] == s[1..][i - 1];
      r
  }

  /** `s.map(x => pred(x) ? f(x) : x)`: rewrite the selected elements in place. */
  function MapWhere<T>(s: seq<T>, pred: T -> bool, f: T -> T): (r: seq<T>)
    ensures |r| == |s|
    ensures forall i :: 0 <= i < |s| && pred(s[i]) ==> r[i] == f(s[i])
    ensures forall i :: 0 <= i < |s| && !pred(s[i]) ==> r[i] == s[i]
  {
    if s == [] then []
    else [if pred(s[0]) then f(s[0]) else s[0]] + MapWhere(s[1..], pred, f)
  }

  /** Filtering distributes over concatenation: relative order is kept. */
  lemma {:induction false} FilterConcat<T>(a: seq<T>, b: seq<T>, keep: T -> bool)
    ensures Filter(a + b, keep) == Filter(a, keep) + Filter(b, keep)
  {
    if a == [] {
      assert a + b == b;
    } else {
      assert (a + b)[0] == a[0];
      assert (a + b)[1..] == a[1..] + b;
      FilterConcat(a[1..], b, keep);
    }
  }

  /** Filtering by a predicate and by its negation splits the sequence. */
  lemma {:induction false} FilterPartition<T>(s: seq<T>, keep: T -> bool, drop: T -> bool)
    requires forall x :: drop(x) == !keep(x)
    ensures |Filter(s, keep)| + |Filter(s, drop)| == |s|
  {
    if s != [] {
      FilterPartition(s[1..], keep, drop);
    }
  }

  /** If `keep` holds of `b[i]` whenever it holds of `a[i]`, `b` keeps at least as many. */
  lemma {:induction false} FilterMonotone<T>(a: seq<T>, b: seq<T>, keep: T -> bool)
    requires |a| == |b|
    requires forall i :: 0 <= i < |a| && keep(a[i]) ==> keep(b[i])
    ensures |Filter(a, keep)| <= |Filter(b, keep)|
  {
    if a != [] {
      assert keep(a[0]) ==> keep(b[0]);
      assert forall i :: 0 <= i < |a| - 1 ==> a[1..][i] == a[i + 1] && b[1..][i] == b[i + 1];
      FilterMonotone(a[1..], b[1..], keep);
    }
  }

  /** Rewriting selected elements, by a rewrite that keeps them selected, moves
      the first selected element to its rewritten form and nothing else. */
  lemma {:induction false} FindFirstMapWhere<T>(s: seq<T>, pred: T -> bool, f: T -> T)
    requires forall x :: pred(x) ==> pred(f(x))
    ensures FindFirst(s, pred).None? ==> FindFirst(MapWhere(s, pred, f), pred) == None
    ensures FindFirst(s, pred).Some? ==>
      FindFirst(MapWhere(s, pred, f), pred) == Some(f(FindFirst(s, pred).value))
  {
    if s != [] {
      var r := MapWhere(s, pred, f);
      assert r[1..] == MapWhere(s[1..], pred, f);
      if !pred(s[0]) {
        FindFirstMapWhere(s[1..], pred, f);
      }
    }
  }

  /** Lookups by a predicate that no rewritten element satisfies, before or
      after the rewrite, see the same first match. */
  lemma {:induction false} FindFirstMapWhereOther<T>(s: seq<T>, pred: T -> bool, f: T -> T, q: T -> bool)
    requires forall x :: pred(x) ==> !q(x) && !q(f(x))
    ensures FindFirst(MapWhere(s, pred, f), q) == FindFirst(s, q)
  {
    if s != [] {
      var r := MapWhere(s, pred, f);
      assert r[1..] == MapWhere(s[1..], pred, f);
      FindFirstMapWhereOther(s[1..], pred, f, q);
    }
  }

  /** The first match of a concatenation is found in the prefix when it has one. */
  lemma {:induction false} FindFirstAppend<T>(s: seq<T>, x: T, pred: T -> bool)
    ensures FindFirst(s, pred).Some? ==> FindFirst(s + [x], pred) == FindFirst(s, pred)
    ensures FindFirst(s, pred).None? && pred(x) ==> FindFirst(s + [x], pred) == Some(x)
    ensures FindFirst(s, pred).None? && !pred(x) ==> FindFirst(s + [x], pred) == None
  {
    if s != [] {
      assert (s + [x])[1..] == s[1..] + [x];
      FindFirstAppend(s[1..], x, pred);
    }
  }
}
