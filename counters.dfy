/** Python dicts of counts, `d[k] = d.get(k, 0) + 1`, kept as their items in
    insertion order (the order Python dicts keep). */
module Counters {
  import opened Seqs

  /** The items of a dict of counts, in insertion order. */
  type Counter<K> = seq<(K, nat)>

  /** `list(d.keys())`. */
  function Keys<K>(c: Counter<K>): (ks: seq<K>)
    ensures |ks| == |c| && forall i :: 0 <= i < |c| ==> ks[i] == c[i].0
  {
    seq(|c|, i requires 0 <= i < |c| => c[i].0)
  }

  /** `d.get(k, 0)`. */
  function CountOf<K(==)>(c: Counter<K>, k: K): nat
    decreases |c|
  {
    if |c| == 0 then 0 else if c[0].0 == k then c[0].1 else CountOf(c[1..], k)
  }

  /** `d[k] = d.get(k, 0) + 1`: the count of a present key goes up in place, and
      a new key is appended with count 1. */
  function Bump<K(==)>(c: Counter<K>, k: K): Counter<K>
    decreases |c|
  {
    if |c| == 0 then [(k, 1)]
    else if c[0].0 == k then [(k, c[0].1 + 1)] + c[1..]
    else [c[0]] + Bump(c[1..], k)
  }

  /** `sum(d.values())`. */
  function Total<K>(c: Counter<K>): nat
    decreases |c|
  {
    if |c| == 0 then 0 else c[0].1 + Total(c[1..])
  }

  /** Bumping adds one to the bumped key's count, one to the total, and changes
      no other count; the keys stay in place, with a new key at the end. */
  lemma BumpSpec<K>(c: Counter<K>, k: K)
    ensures forall j :: CountOf(Bump(c, k), j) == CountOf(c, j) + (if j == k then 1 else 0)
    ensures Total(Bump(c, k)) == Total(c) + 1
    ensures Keys(Bump(c, k)) == if k in Keys(c) then Keys(c) else Keys(c) + [k]
  {
    forall j ensures CountOf(Bump(c, k), j) == CountOf(c, j) + (if j == k then 1 else 0) {
      BumpCount(c, k, j);
    }
    BumpTotal(c, k);
    BumpKeys(c, k);
  }

  lemma {:induction false} BumpCount<K>(c: Counter<K>, k: K, j: K)
    ensures CountOf(Bump(c, k), j) == CountOf(c, j) + (if j == k then 1 else 0)
    decreases |c|
  {
    if |c| > 0 && c[0].0 != k {
      BumpCount(c[1..], k, j);
      assert Bump(c, k)[1..] == Bump(c[1..], k);
    }
  }

  lemma {:induction false} BumpTotal<K>(c: Counter<K>, k: K)
    ensures Total(Bump(c, k)) == Total(c) + 1
    decreases |c|
  {
    if |c| > 0 {
      if c[0].0 != k {
        BumpTotal(c[1..], k);
        assert Bump(c, k)[1..] == Bump(c[1..], k);
      } else {
        assert Bump(c, k)[1..] == c[1..];
      }
    }
  }

  lemma {:induction false} BumpKeys<K>(c: Counter<K>, k: K)
    ensures Keys(Bump(c, k)) == if k in Keys(c) then Keys(c) else Keys(c) + [k]
    decreases |c|
  {
    if |c| > 0 {
      assert Keys(c) == [c[0].0] + Keys(c[1..]);
      if c[0].0 != k {
        BumpKeys(c[1..], k);
        assert Keys(Bump(c, k)) == [c[0].0] + Keys(Bump(c[1..], k));
      } else {
        assert Keys(Bump(c, k)) == [k] + Keys(c[1..]);
      }
    }
  }

  /** The counts a loop builds by bumping every element in order. */
  function Tally<K(==)>(xs: seq<K>): Counter<K>
    decreases |xs|
  {
    if |xs| == 0 then [] else Bump(Tally(xs[..|xs| - 1]), xs[|xs| - 1])
  }

  /** One more element tallied. */
  lemma TallySnoc<K>(xs: seq<K>, x: K)
    ensures Tally(xs + [x]) == Bump(Tally(xs), x)
  {
    assert (xs + [x])[..|xs|] == xs;
  }

  /** Every key counts its occurrences; the counts add up to the number of
      elements; the keys are the distinct elements in first-occurrence order. */
  lemma {:induction false} TallySpec<K>(xs: seq<K>)
    ensures forall k :: CountOf(Tally(xs), k) == multiset(xs)[k]
    ensures Total(Tally(xs)) == |xs|
    ensures Keys(Tally(xs)) == Dedup(xs)
    decreases |xs|
  {
    if |xs| > 0 {
      var init := xs[..|xs| - 1];
      assert xs == init + [xs[|xs| - 1]];
      TallySpec(init);
      BumpSpec(Tally(init), xs[|xs| - 1]);
    }
  }
}
