/**
 * Python's list helpers: `list.sort(key=..., reverse=True)`, a sort into
 * non-increasing key order; `xs[:n]`; and `[x for x in xs if keep(x)]`.
 */
module Sorting {
  predicate SortedDesc<T>(s: seq<T>, key: T -> real)
  {
    forall i, j :: 0 <= i < j < |s| ==> key(s[i]) >= key(s[j])
  }

  /** Puts `x` in front of the first element whose key does not exceed its own. */
  function InsertDesc<T>(x: T, s: seq<T>, key: T -> real): (r: seq<T>)
    requires SortedDesc(s, key)
    ensures SortedDesc(r, key)
    ensures multiset(r) == multiset(s) + multiset{x}
    ensures |r| == |s| + 1
    decreases |s|
  {
    if s == [] then [x]
    else if key(s[0]) <= key(x) then [x] + s
    else
      var t := InsertDesc(x, s[1..], key);
      assert s == [s[0]] + s[1..];
      HeadDominates(s, x, t, key);
      SortedCons(s[0], t, key);
      [s[0]] + t
  }

  /** The head of a sorted list dominates any rearrangement of its tail with a smaller element added. */
  lemma {:induction false} HeadDominates<T>(s: seq<T>, x: T, t: seq<T>, key: T -> real)
    requires s != [] && SortedDesc(s, key) && key(s[0]) > key(x)
    requires multiset(t) == multiset(s[1..]) + multiset{x}
    ensures forall k :: 0 <= k < |t| ==> key(s[0]) >= key(t[k])
  {
    forall k | 0 <= k < |t| ensures key(s[0]) >= key(t[k]) {
      assert t[k] in multiset(t);
      if t[k] != x {
        assert t[k] in multiset(s[1..]);
        var j :| 0 <= j < |s[1..]| && s[1..][j] == t[k];
        assert s[j + 1] == t[k];
      }
    }
  }

  lemma {:induction false} SortedCons<T>(a: T, t: seq<T>, key: T -> real)
    requires SortedDesc(t, key) && forall k :: 0 <= k < |t| ==> key(a) >= key(t[k])
    ensures SortedDesc([a] + t, key)
  {
    var r := [a] + t;
    forall i, j | 0 <= i < j < |r| ensures key(r[i]) >= key(r[j]) {
      assert r[j] == t[j - 1];
      if i > 0 { assert r[i] == t[i - 1]; }
    }
  }

  /** Sort into non-increasing key order. */
  function SortDesc<T>(s: seq<T>, key: T -> real): (r: seq<T>)
    ensures SortedDesc(r, key)
    ensures multiset(r) == multiset(s)
    ensures |r| == |s|
    decreases |s|
  {
    if s == [] then []
    else
      assert s == [s[0]] + s[1..];
      InsertDesc(s[0], SortDesc(s[1..], key), key)
  }

  /** `s[:n]`. */
  function Take<T>(s: seq<T>, n: nat): (r: seq<T>)
    ensures |r| <= n && |r| <= |s|
    ensures r == s[..|r|]
    ensures |r| == if n < |s| then n else |s|
  {
    if n < |s| then s[..n] else s
  }

  /** Python's `xs[:n]`, including a negative `n` that drops from the end. */
  function SliceTo<T>(xs: seq<T>, n: int): (r: seq<T>)
    ensures n >= 0 ==> r == Take(xs, n)
    ensures n < 0 ==> r == xs[..if |xs| + n > 0 then |xs| + n else 0]
  {
    if n >= 0 then Take(xs, n) else xs[..if |xs| + n > 0 then |xs| + n else 0]
  }

  /** A prefix of a sorted rearrangement of `all` is sorted, bounded, and drawn from `all`. */
  lemma {:induction false} SlicePrefix<T>(s: seq<T>, n: int, key: T -> real, all: seq<T>)
    requires SortedDesc(s, key) && multiset(s) == multiset(all)
    ensures SortedDesc(SliceTo(s, n), key)
    ensures n >= 0 ==> |SliceTo(s, n)| <= n
    ensures |SliceTo(s, n)| <= |s|
    ensures forall k :: 0 <= k < |SliceTo(s, n)| ==> SliceTo(s, n)[k] in multiset(all)
  {
    var r := SliceTo(s, n);
    assert r == s[..|r|];
    forall k | 0 <= k < |r| ensures r[k] == s[k] && r[k] in multiset(all) {
      assert s[k] in multiset(s);
    }
  }

  /**
   * The first `n` of a sorted rearrangement of `all` are its best entries:
   * `min(n, |all|)` of them for a non-negative `n`, all drawn from `all`, and
   * every entry left out scores no higher than every entry kept.
   */
  lemma {:induction false} TopOf<T>(all: seq<T>, n: int, key: T -> real)
    ensures var r := SliceTo(SortDesc(all, key), n);
      (n >= 0 ==> |r| == if n < |all| then n else |all|)
      && multiset(r) <= multiset(all)
      && forall x, k :: x in multiset(all) - multiset(r) && 0 <= k < |r| ==> key(x) <= key(r[k])
  {
    var s := SortDesc(all, key);
    var r := SliceTo(s, n);
    PrefixRest(s, |r|);
    TopOfRest(all, n, key);
  }

  lemma {:induction false} TopOfRest<T>(all: seq<T>, n: int, key: T -> real)
    ensures var r := SliceTo(SortDesc(all, key), n);
      forall x, k :: x in multiset(all) - multiset(r) && 0 <= k < |r| ==> key(x) <= key(r[k])
  {
    var s := SortDesc(all, key);
    var r := SliceTo(s, n);
    var m := |r|;
    assert r == s[..m];
    PrefixRest(s, m);
    RestBelowPrefix(s, m, key);
    assert forall k :: 0 <= k < m ==> r[k] == s[k];
  }

  /** Splitting a list at `m` splits its multiset. */
  lemma {:induction false} PrefixRest<T>(s: seq<T>, m: nat)
    requires m <= |s|
    ensures multiset(s) - multiset(s[..m]) == multiset(s[m..])
  {
    assert s == s[..m] + s[m..];
  }

  /** In a list sorted by descending key, nothing after position `m` outscores anything before it. */
  lemma {:induction false} RestBelowPrefix<T>(s: seq<T>, m: nat, key: T -> real)
    requires SortedDesc(s, key) && m <= |s|
    ensures forall x, k :: x in multiset(s[m..]) && 0 <= k < m ==> key(x) <= key(s[k])
  {
    forall x, k | x in multiset(s[m..]) && 0 <= k < m ensures key(x) <= key(s[k]) {
      assert x in s[m..];
      var j :| 0 <= j < |s[m..]| && s[m..][j] == x;
      assert s[m + j] == x;
    }
  }

  lemma {:induction false} TakeSorted<T>(s: seq<T>, n: nat, key: T -> real)
    requires SortedDesc(s, key)
    ensures SortedDesc(Take(s, n), key)
  {
  }

  /** `[x for x in xs if keep(x)]`. */
  function Filter<T>(xs: seq<T>, keep: T -> bool): (r: seq<T>)
    ensures |r| <= |xs|
    decreases |xs|
  {
    if xs == [] then []
    else Filter(xs[..|xs| - 1], keep) + (if keep(xs[|xs| - 1]) then [xs[|xs| - 1]] else [])
  }

  /** An element survives the filter exactly when it is listed and kept. */
  lemma {:induction false} FilterMembers<T>(xs: seq<T>, keep: T -> bool, x: T)
    ensures x in Filter(xs, keep) <==> x in xs && keep(x)
    decreases |xs|
  {
    if xs != [] {
      FilterMembers(xs[..|xs| - 1], keep, x);
      assert xs == xs[..|xs| - 1] + [xs[|xs| - 1]];
    }
  }

  /** The membership fact of the filter for every element at once. */
  lemma {:induction false} FilterMembersAll<T>(xs: seq<T>, keep: T -> bool)
    ensures forall x :: x in Filter(xs, keep) <==> x in xs && keep(x)
  {
    forall x ensures x in Filter(xs, keep) <==> x in xs && keep(x) {
      FilterMembers(xs, keep, x);
    }
  }

  /** Each element's contributions, concatenated in list order. */
  function FlatMap<T, U>(xs: seq<T>, f: T -> seq<U>): seq<U>
    decreases |xs|
  {
    if xs == [] then [] else FlatMap(xs[..|xs| - 1], f) + f(xs[|xs| - 1])
  }

  /** Flat-mapping distributes over concatenation. */
  lemma {:induction false} FlatMapConcat<T, U>(a: seq<T>, b: seq<T>, f: T -> seq<U>)
    ensures FlatMap(a + b, f) == FlatMap(a, f) + FlatMap(b, f)
    decreases |b|
  {
    if b == [] {
      assert a + b == a;
    } else {
      var n := |b| - 1;
      assert (a + b)[..|a + b| - 1] == a + b[..n];
      assert (a + b)[|a + b| - 1] == b[n];
      FlatMapConcat(a, b[..n], f);
    }
  }

  /** The filter keeps the whole list exactly when every element is kept, and then returns it as it was. */
  lemma {:induction false} FilterKeepsAll<T>(xs: seq<T>, keep: T -> bool)
    ensures |Filter(xs, keep)| == |xs| <==> forall k :: 0 <= k < |xs| ==> keep(xs[k])
    ensures (forall k :: 0 <= k < |xs| ==> keep(xs[k])) ==> Filter(xs, keep) == xs
    decreases |xs|
  {
    if xs != [] {
      var init := xs[..|xs| - 1];
      FilterKeepsAll(init, keep);
      assert forall k :: 0 <= k < |init| ==> init[k] == xs[k];
      assert xs == init + [xs[|xs| - 1]];
    }
  }

  /** Filtering distributes over concatenation. */
  lemma {:induction false} FilterAppend<T>(a: seq<T>, b: seq<T>, keep: T -> bool)
    ensures Filter(a + b, keep) == Filter(a, keep) + Filter(b, keep)
    decreases |b|
  {
    if b == [] {
      assert a + b == a;
    } else {
      var init := b[..|b| - 1];
      assert (a + b)[..|a + b| - 1] == a + init;
      FilterAppend(a, init, keep);
    }
  }

  /** `r[k]` is `xs[pos[k]]` for increasing positions `pos`: `r` is a subsequence of `xs`. */
  predicate Positions<T(==)>(xs: seq<T>, r: seq<T>, pos: seq<nat>)
  {
    |pos| == |r|
    && (forall k :: 0 <= k < |pos| ==> pos[k] < |xs| && xs[pos[k]] == r[k])
    && (forall i, j :: 0 <= i < j < |pos| ==> pos[i] < pos[j])
  }

  lemma {:induction false} PositionsGrow<T>(xs: seq<T>, r: seq<T>, pos: seq<nat>)
    requires xs != [] && Positions(xs[..|xs| - 1], r, pos)
    ensures Positions(xs, r, pos)
  {
    forall k | 0 <= k < |pos| ensures pos[k] < |xs| && xs[pos[k]] == r[k] {
      assert xs[pos[k]] == xs[..|xs| - 1][pos[k]];
    }
  }

  lemma {:induction false} PositionsSnoc<T>(xs: seq<T>, r: seq<T>, pos: seq<nat>)
    requires xs != [] && Positions(xs[..|xs| - 1], r, pos)
    ensures Positions(xs, r + [xs[|xs| - 1]], pos + [|xs| - 1])
  {
    PositionsGrow(xs, r, pos);
    var r', pos' := r + [xs[|xs| - 1]], pos + [|xs| - 1];
    forall k | 0 <= k < |pos'| ensures pos'[k] < |xs| && xs[pos'[k]] == r'[k] {
      if k < |pos| { assert pos'[k] == pos[k] && r'[k] == r[k]; }
    }
    forall i, j | 0 <= i < j < |pos'| ensures pos'[i] < pos'[j] {
      if j < |pos| { assert pos'[i] == pos[i] && pos'[j] == pos[j]; }
      else { assert pos'[i] == pos[i] < |xs| - 1; }
    }
  }

  /** Every position of `xs` holding a kept element is among `pos`. */
  predicate Covers<T>(xs: seq<T>, pos: seq<nat>, keep: T -> bool)
  {
    forall i :: 0 <= i < |xs| && keep(xs[i]) ==> i in pos
  }

  /** Every survivor of the filter is kept. */
  lemma {:induction false} FilterKept<T>(xs: seq<T>, keep: T -> bool)
    ensures forall k :: 0 <= k < |Filter(xs, keep)| ==> keep(Filter(xs, keep)[k])
  {
    forall k | 0 <= k < |Filter(xs, keep)| ensures keep(Filter(xs, keep)[k]) {
      FilterMembers(xs, keep, Filter(xs, keep)[k]);
    }
  }

  lemma {:induction false} CoversStep<T>(xs: seq<T>, pos0: seq<nat>, keep: T -> bool)
    requires xs != [] && Covers(xs[..|xs| - 1], pos0, keep)
    ensures Covers(xs, if keep(xs[|xs| - 1]) then pos0 + [|xs| - 1] else pos0, keep)
  {
    var n := |xs| - 1;
    var pos := if keep(xs[n]) then pos0 + [n] else pos0;
    forall i | 0 <= i < |xs| && keep(xs[i]) ensures i in pos {
      if i < n {
        assert xs[..n][i] == xs[i];
        assert i in pos0;
      }
    }
  }

  /**
   * The filter is exact: its survivors sit at increasing positions of `xs`,
   * and those positions are all the positions of kept elements.
   */
  lemma {:induction false} FilterExact<T>(xs: seq<T>, keep: T -> bool)
    ensures exists pos: seq<nat> :: Positions(xs, Filter(xs, keep), pos) && Covers(xs, pos, keep)
    decreases |xs|
  {
    if xs == [] {
      assert Positions(xs, Filter(xs, keep), []) && Covers(xs, [], keep);
    } else {
      var n := |xs| - 1;
      var init := xs[..n];
      FilterExact(init, keep);
      var pos0: seq<nat> :| Positions(init, Filter(init, keep), pos0) && Covers(init, pos0, keep);
      CoversStep(xs, pos0, keep);
      if keep(xs[n]) {
        PositionsSnoc(xs, Filter(init, keep), pos0);
        assert Positions(xs, Filter(xs, keep), pos0 + [n]);
      } else {
        PositionsGrow(xs, Filter(init, keep), pos0);
        assert Positions(xs, Filter(xs, keep), pos0);
      }
    }
  }

  /** The survivors keep their order: each comes from a later position than the one before it. */
  lemma {:induction false} FilterOrdered<T>(xs: seq<T>, keep: T -> bool)
    ensures exists pos: seq<nat> :: Positions(xs, Filter(xs, keep), pos)
    decreases |xs|
  {
    if xs == [] {
      assert Positions(xs, Filter(xs, keep), []);
    } else {
      var init := xs[..|xs| - 1];
      FilterOrdered(init, keep);
      var pos0: seq<nat> :| Positions(init, Filter(init, keep), pos0);
      if keep(xs[|xs| - 1]) {
        PositionsSnoc(xs, Filter(init, keep), pos0);
        assert Positions(xs, Filter(xs, keep), pos0 + [|xs| - 1]);
      } else {
        PositionsGrow(xs, Filter(init, keep), pos0);
        assert Positions(xs, Filter(xs, keep), pos0);
      }
    }
  }
}
