/** Generic sequence helpers: Python list slicing, flattening, first-match search. */
module Seqs {
  import opened Wrappers

  function Min(a: int, b: int): int { if a <= b then a else b }

  /** Python's `s[:n]`: a negative `n` counts from the end. */
  function SliceTo<T>(s: seq<T>, n: int): (r: seq<T>)
    ensures |r| <= |s| && r == s[..|r|]
    ensures n >= 0 ==> |r| == Min(n, |s|)
    ensures n < 0 ==> |r| == if |s| + n > 0 then |s| + n else 0
  {
    if n >= 0 then s[..Min(n, |s|)]
    else if |s| + n > 0 then s[..|s| + n]
    else []
  }

  /** The lists one after another (`l.extend(x)` for each `x`). */
  function Concat<T>(ss: seq<seq<T>>): seq<T>
    decreases |ss|
  {
    if |ss| == 0 then [] else Concat(ss[..|ss| - 1]) + ss[|ss| - 1]
  }

  lemma ConcatSnoc<T>(ss: seq<seq<T>>, k: nat)
    requires k < |ss|
    ensures Concat(ss[..k + 1]) == Concat(ss[..k]) + ss[k]
  {
    assert ss[..k + 1][..k] == ss[..k];
  }

  /** The first index at or after `from` whose element satisfies `p`. */
  function FirstIndex<T>(s: seq<T>, p: T -> bool, from: nat): (k: Option<nat>)
    ensures k.Some? ==> from <= k.value < |s| && p(s[k.value])
    ensures k.Some? ==> forall j :: from <= j < k.value ==> !p(s[j])
    ensures k.None? ==> forall j :: from <= j < |s| ==> !p(s[j])
    decreases |s| - from
  {
    if from >= |s| then None
    else if p(s[from]) then Some(from)
    else FirstIndex(s, p, from + 1)
  }

  /** The first match is at `k` when `k` matches and nothing before it does. */
  lemma FirstIndexIs<T>(s: seq<T>, p: T -> bool, from: nat, k: nat)
    requires from <= k < |s| && p(s[k])
    requires forall j :: from <= j < k ==> !p(s[j])
    ensures FirstIndex(s, p, from) == Some(k)
  {
  }

  /** The run from the first element satisfying `open` up to and including the
      first element at or after it satisfying `close`, or to the end. */
  function Block<T>(s: seq<T>, open: T -> bool, close: T -> bool): seq<T> {
    match FirstIndex(s, open, 0)
    case None => []
    case Some(a) =>
      match FirstIndex(s, close, a)
      case Some(e) => s[a..e + 1]
      case None => s[a..]
  }

  /** The block is empty exactly when nothing opens; otherwise it is the
      contiguous run that starts at the first opening element, contains no closing
      element before its last, and ends with a closing element unless it runs to
      the end. */
  lemma BlockShape<T>(s: seq<T>, open: T -> bool, close: T -> bool)
    ensures Block(s, open, close) == [] <==> forall j :: 0 <= j < |s| ==> !open(s[j])
    ensures Block(s, open, close) != [] ==> exists a, e ::
      && 0 <= a < e <= |s| && Block(s, open, close) == s[a..e] && open(s[a])
      && (forall j :: 0 <= j < a ==> !open(s[j]))
      && (forall j :: a <= j < e - 1 ==> !close(s[j]))
      && (e < |s| ==> close(s[e - 1]))
  {
    match FirstIndex(s, open, 0)
    case None =>
    case Some(a) =>
      match FirstIndex(s, close, a)
      case Some(e) =>
        assert Block(s, open, close) == s[a..e + 1];
      case None =>
        assert Block(s, open, close) == s[a..|s|];
        assert forall j :: a <= j < |s| - 1 ==> !close(s[j]);
  }

  /** The line loop that finds a block: a flag set by the first opening element,
      every element appended while it is set, and a `break` at the first closing
      element once it is set. */
  method BlockOf<T>(s: seq<T>, open: T -> bool, close: T -> bool) returns (out: seq<T>)
    ensures out == Block(s, open, close)
  {
    out := [];
    var inBlock := false;
    ghost var start := 0;
    var i := 0;
    while i < |s|
      invariant 0 <= i <= |s|
      invariant !inBlock ==> out == [] && forall j :: 0 <= j < i ==> !open(s[j])
      invariant inBlock ==> && FirstIndex(s, open, 0) == Some(start) && start < i
                            && out == s[start..i]
                            && forall j :: start <= j < i ==> !close(s[j])
    {
      var x := s[i];
      if open(x) && !inBlock {
        FirstIndexIs(s, open, 0, i);
        start := i;
      }
      if open(x) {
        inBlock := true;
      }
      if inBlock {
        assert s[start..i + 1] == s[start..i] + [x];
        out := out + [x];
      }
      if close(x) && inBlock {
        FirstIndexIs(s, close, start, i);
        return;
      }
      i := i + 1;
    }
    if inBlock {
      FirstIndexNone(s, close, start);
      assert out == s[start..];
    } else {
      FirstIndexNone(s, open, 0);
    }
  }

  /** Nothing matches at or after `from`. */
  lemma FirstIndexNone<T>(s: seq<T>, p: T -> bool, from: nat)
    requires forall j :: from <= j < |s| ==> !p(s[j])
    ensures FirstIndex(s, p, from) == None
  {
  }

  /** The value of an option as a list of at most one element. */
  function ToSeq<T>(o: Option<T>): (r: seq<T>)
    ensures |r| <= 1 && (|r| == 1 <==> o.Some?)
    ensures o.Some? ==> r[0] == o.value
  {
    if o.Some? then [o.value] else []
  }

  /** The values `f` gives the elements, with their indices, where it gives one,
      in order: a loop appending `f(i, xs[i])` when it is present. */
  function MapSome<A, B>(f: (nat, A) -> Option<B>, xs: seq<A>): seq<B>
    decreases |xs|
  {
    if |xs| == 0 then [] else MapSome(f, xs[..|xs| - 1]) + ToSeq(f(|xs| - 1, xs[|xs| - 1]))
  }

  /** One more element considered: its value, if any, is appended. */
  lemma MapSomeSnoc<A, B>(f: (nat, A) -> Option<B>, xs: seq<A>, i: nat)
    requires i < |xs|
    ensures MapSome(f, xs[..i + 1]) == MapSome(f, xs[..i]) + ToSeq(f(i, xs[i]))
  {
    assert xs[..i + 1][..i] == xs[..i];
  }

  /** The indices at which `f` gives a value, in increasing order. */
  function SomeIndices<A, B>(f: (nat, A) -> Option<B>, xs: seq<A>): seq<nat>
    decreases |xs|
  {
    if |xs| == 0 then []
    else SomeIndices(f, xs[..|xs| - 1]) + (if f(|xs| - 1, xs[|xs| - 1]).Some? then [|xs| - 1] else [])
  }

  /** `MapSome` keeps exactly the values at `SomeIndices`, in increasing index
      order, and nothing from any other index. */
  lemma {:induction false} MapSomeSelection<A, B>(f: (nat, A) -> Option<B>, xs: seq<A>)
    ensures var out := MapSome(f, xs);
            var idx := SomeIndices(f, xs);
      && |out| == |idx| <= |xs|
      && (forall k :: 0 <= k < |idx| ==> idx[k] < |xs| && f(idx[k], xs[idx[k]]) == Some(out[k]))
      && (forall k, l :: 0 <= k < l < |idx| ==> idx[k] < idx[l])
      && (forall j :: 0 <= j < |xs| && j !in idx ==> f(j, xs[j]).None?)
    decreases |xs|
  {
    if |xs| > 0 {
      var n := |xs| - 1;
      var init := xs[..n];
      MapSomeSelection(f, init);
      var o := f(n, xs[n]);
      var out0 := MapSome(f, init);
      var idx0 := SomeIndices(f, init);
      var idx := SomeIndices(f, xs);
      assert MapSome(f, xs) == out0 + ToSeq(o);
      assert idx == idx0 + (if o.Some? then [n] else []);
      forall k | 0 <= k < |idx0|
        ensures idx[k] < |xs| && f(idx[k], xs[idx[k]]) == Some(MapSome(f, xs)[k])
      {
        assert xs[idx0[k]] == init[idx0[k]];
      }
      forall j | 0 <= j < |xs| && j !in idx
        ensures f(j, xs[j]).None?
      {
        if j < n {
          assert j !in idx0;
          assert xs[j] == init[j];
        }
      }
    }
  }

  /** The map after assigning, in order, the pairs `parse` reads from the
      elements; an element it reads nothing from assigns nothing. */
  function AssignAll<T, K(==), V>(parse: T -> Option<(K, V)>, xs: seq<T>, m: map<K, V>): map<K, V>
    decreases |xs|
  {
    if |xs| == 0 then m
    else
      var before := AssignAll(parse, xs[..|xs| - 1], m);
      var e := parse(xs[|xs| - 1]);
      if e.Some? then before[e.value.0 := e.value.1] else before
  }

  /** One more element assigned. */
  lemma AssignAllSnoc<T, K, V>(parse: T -> Option<(K, V)>, xs: seq<T>, i: nat, m: map<K, V>)
    requires i < |xs|
    ensures AssignAll(parse, xs[..i + 1], m) ==
      if parse(xs[i]).Some? then AssignAll(parse, xs[..i], m)[parse(xs[i]).value.0 := parse(xs[i]).value.1]
      else AssignAll(parse, xs[..i], m)
  {
    assert xs[..i + 1][..i] == xs[..i];
  }

  /** Whether `parse` reads an assignment to `k` from `x`. */
  predicate Assigns<T, K(==), V>(parse: T -> Option<(K, V)>, x: T, k: K) {
    parse(x).Some? && parse(x).value.0 == k
  }

  /** A key no element assigns keeps its status and value. */
  lemma {:induction false} AssignAllUntouched<T, K, V>(parse: T -> Option<(K, V)>, xs: seq<T>, m: map<K, V>, k: K)
    requires forall i :: 0 <= i < |xs| ==> !Assigns(parse, xs[i], k)
    ensures k in AssignAll(parse, xs, m) <==> k in m
    ensures k in m ==> AssignAll(parse, xs, m)[k] == m[k]
    decreases |xs|
  {
    if |xs| > 0 {
      var init := xs[..|xs| - 1];
      assert forall i :: 0 <= i < |init| ==> init[i] == xs[i];
      AssignAllUntouched(parse, init, m, k);
      assert !Assigns(parse, xs[|xs| - 1], k);
    }
  }

  /** The last element assigning a key gives its final value. */
  lemma {:induction false} AssignAllLast<T, K, V>(parse: T -> Option<(K, V)>, xs: seq<T>, m: map<K, V>, k: K, i: nat)
    requires i < |xs| && Assigns(parse, xs[i], k)
    requires forall j :: i < j < |xs| ==> !Assigns(parse, xs[j], k)
    ensures k in AssignAll(parse, xs, m) && AssignAll(parse, xs, m)[k] == parse(xs[i]).value.1
    decreases |xs|
  {
    var n := |xs| - 1;
    if i < n {
      var init := xs[..n];
      assert forall j :: 0 <= j < n ==> init[j] == xs[j];
      AssignAllLast(parse, init, m, k, i);
      assert !Assigns(parse, xs[n], k);
    }
  }

  /** No element occurs twice. */
  predicate NoDuplicates<T(==)>(s: seq<T>) {
    forall i, j :: 0 <= i < j < |s| ==> s[i] != s[j]
  }

  /** The index of the first occurrence of `x`. */
  function Position<T(==)>(xs: seq<T>, x: T): (k: nat)
    requires x in xs
    ensures k < |xs| && xs[k] == x && x !in xs[..k]
    decreases |xs|
  {
    if xs[0] == x then 0 else 1 + Position(xs[1..], x)
  }

  /** Appending keeps the first occurrence of an element already present. */
  lemma {:induction false} PositionAppend<T>(xs: seq<T>, y: T, x: T)
    requires x in xs
    ensures Position(xs + [y], x) == Position(xs, x)
    decreases |xs|
  {
    if xs[0] != x {
      assert (xs + [y])[1..] == xs[1..] + [y];
      PositionAppend(xs[1..], y, x);
    }
  }

  /** The elements in order, each kept at its first occurrence only: a loop
      appending an element when the list does not hold it yet. */
  function Dedup<T(==)>(xs: seq<T>): seq<T>
    decreases |xs|
  {
    if |xs| == 0 then []
    else
      var d := Dedup(xs[..|xs| - 1]);
      if xs[|xs| - 1] in d then d else d + [xs[|xs| - 1]]
  }

  /** The deduplicated list has no duplicates and the same elements, and lists
      them in the order of their first occurrences. */
  lemma {:induction false} DedupSpec<T>(xs: seq<T>)
    ensures NoDuplicates(Dedup(xs))
    ensures forall x :: x in Dedup(xs) <==> x in xs
    ensures forall k, l :: 0 <= k < l < |Dedup(xs)| ==> Position(xs, Dedup(xs)[k]) < Position(xs, Dedup(xs)[l])
    decreases |xs|
  {
    if |xs| > 0 {
      var init := xs[..|xs| - 1];
      var y := xs[|xs| - 1];
      assert xs == init + [y];
      DedupSpec(init);
      var d := Dedup(init);
      forall x | x in init
        ensures Position(xs, x) == Position(init, x)
      {
        PositionAppend(init, y, x);
      }
      if y !in d {
        assert y !in init;
        assert Position(xs, y) == |init|;
      }
    }
  }
}
