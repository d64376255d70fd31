/**
 * Ordering and retrieval shared by the core: a stable ascending order of
 * positions by key (Python's `list.sort`, and the order a distance-ordered
 * query returns), and the filter-then-order-then-take retrieval that
 * `vector_fuzzy_search` and the mentor query perform over (item, distance)
 * pairs. Positions rather than items are ordered, so no equality is needed
 * on the items themselves.
 */
module Ranking {
  datatype Scored<T> = Scored(item: T, distance: real)

  /** Position x precedes y: smaller key, or the same key and an earlier position. */
  predicate Before(keys: seq<real>, x: nat, y: nat)
    requires x < |keys| && y < |keys|
  {
    keys[x] < keys[y] || (keys[x] == keys[y] && x < y)
  }

  /** Positions in range and strictly increasing under Before (so also distinct). */
  predicate Ordered(keys: seq<real>, p: seq<nat>) {
    && (forall k :: 0 <= k < |p| ==> p[k] < |keys|)
    && (forall a, b :: 0 <= a < b < |p| ==> Before(keys, p[a], p[b]))
  }

  predicate IsPermutation(p: seq<nat>, n: nat) {
    && |p| == n
    && (forall k :: 0 <= k < |p| ==> p[k] < n)
    && (forall j :: 0 <= j < n ==> j in p)
    && (forall a, b :: 0 <= a < b < |p| ==> p[a] != p[b])
  }

  function Insert(keys: seq<real>, s: seq<nat>, i: nat): (r: seq<nat>)
    requires i < |keys| && forall k :: 0 <= k < |s| ==> s[k] < |keys|
    ensures |r| == |s| + 1 && multiset(r) == multiset(s) + multiset{i}
  {
    if s == [] then [i]
    else if keys[i] < keys[s[0]] then [i] + s
    else
      assert s == [s[0]] + s[1..];
      [s[0]] + Insert(keys, s[1..], i)
  }

  function SortPrefix(keys: seq<real>, n: nat): (r: seq<nat>)
    requires n <= |keys|
    ensures |r| == n
    ensures forall k :: 0 <= k < n ==> r[k] < n
    ensures forall j :: 0 <= j < n ==> j in r
  {
    if n == 0 then []
    else
      var s := SortPrefix(keys, n - 1);
      var r := Insert(keys, s, n - 1);
      assert forall k :: 0 <= k < n ==> r[k] in multiset(r);
      forall j | 0 <= j < n ensures j in r {
        if j < n - 1 {
          assert j in s;
          assert j in multiset(s);
        }
        assert j in multiset(r);
      }
      r
  }

  /** The positions of `keys` in stable ascending key order. */
  function StableOrder(keys: seq<real>): seq<nat> {
    SortPrefix(keys, |keys|)
  }

  lemma ConsOrdered(keys: seq<real>, x: nat, t: seq<nat>)
    requires x < |keys| && Ordered(keys, t)
    requires forall b :: 0 <= b < |t| ==> Before(keys, x, t[b])
    ensures Ordered(keys, [x] + t)
  {
    var r := [x] + t;
    forall a, b | 0 <= a < b < |r| ensures Before(keys, r[a], r[b]) {
      assert r[b] == t[b - 1];
      if a > 0 {
        assert r[a] == t[a - 1];
      }
    }
  }

  lemma InsertMember(keys: seq<real>, s: seq<nat>, i: nat, x: nat)
    requires i < |keys| && forall k :: 0 <= k < |s| ==> s[k] < |keys|
    requires x in Insert(keys, s, i)
    ensures x == i || x in s
  {
    assert x in multiset(Insert(keys, s, i));
  }

  lemma {:induction false} InsertOrdered(keys: seq<real>, s: seq<nat>, i: nat)
    requires i < |keys| && Ordered(keys, s)
    requires forall k :: 0 <= k < |s| ==> s[k] < i
    ensures Ordered(keys, Insert(keys, s, i))
  {
    if s == [] {
    } else if keys[i] < keys[s[0]] {
      forall b | 0 <= b < |s| ensures Before(keys, i, s[b]) {
        if b > 0 {
          assert Before(keys, s[0], s[b]);
        }
      }
      ConsOrdered(keys, i, s);
    } else {
      var tail := s[1..];
      assert Ordered(keys, tail) by {
        forall a, b | 0 <= a < b < |tail| ensures Before(keys, tail[a], tail[b]) {
          assert tail[a] == s[a + 1] && tail[b] == s[b + 1];
        }
      }
      InsertOrdered(keys, tail, i);
      var t := Insert(keys, tail, i);
      forall b | 0 <= b < |t| ensures Before(keys, s[0], t[b]) {
        InsertMember(keys, tail, i, t[b]);
        if t[b] != i {
          var c :| 0 <= c < |tail| && tail[c] == t[b];
          assert s[c + 1] == t[b];
          assert Before(keys, s[0], s[c + 1]);
        }
      }
      ConsOrdered(keys, s[0], t);
    }
  }

  lemma {:induction false} SortPrefixOrdered(keys: seq<real>, n: nat)
    requires n <= |keys|
    ensures Ordered(keys, SortPrefix(keys, n))
  {
    if n > 0 {
      SortPrefixOrdered(keys, n - 1);
      InsertOrdered(keys, SortPrefix(keys, n - 1), n - 1);
    }
  }

  /** StableOrder is a permutation of the positions, ascending by key, ties in position order. */
  lemma StableOrderCorrect(keys: seq<real>)
    ensures IsPermutation(StableOrder(keys), |keys|)
    ensures Ordered(keys, StableOrder(keys))
  {
    SortPrefixOrdered(keys, |keys|);
  }

  /** The positions of p that are eligible, in the order of p. */
  function Keep(p: seq<nat>, eligible: seq<bool>): (r: seq<nat>)
    requires forall k :: 0 <= k < |p| ==> p[k] < |eligible|
    ensures |r| <= |p|
    ensures forall k :: 0 <= k < |r| ==> r[k] < |eligible| && eligible[r[k]] && r[k] in p
    ensures forall x :: x in p && eligible[x] ==> x in r
  {
    if p == [] then []
    else if eligible[p[0]] then [p[0]] + Keep(p[1..], eligible)
    else Keep(p[1..], eligible)
  }

  lemma {:induction false} KeepOrdered(keys: seq<real>, p: seq<nat>, eligible: seq<bool>)
    requires |eligible| == |keys| && Ordered(keys, p)
    ensures Ordered(keys, Keep(p, eligible))
  {
    if p != [] {
      var tail := p[1..];
      forall a, b | 0 <= a < b < |tail| ensures Before(keys, tail[a], tail[b]) {
        assert tail[a] == p[a + 1] && tail[b] == p[b + 1];
      }
      KeepOrdered(keys, tail, eligible);
      var t := Keep(tail, eligible);
      if eligible[p[0]] {
        forall b | 0 <= b < |t| ensures Before(keys, p[0], t[b]) {
          var c :| 0 <= c < |tail| && tail[c] == t[b];
          assert p[c + 1] == t[b];
        }
        ConsOrdered(keys, p[0], t);
      }
    }
  }

  /** `s[:k]` for k >= 0. */
  function Take<T>(s: seq<T>, k: nat): (r: seq<T>)
    ensures |r| == if k < |s| then k else |s|
    ensures forall m :: 0 <= m < |r| ==> r[m] == s[m]
  {
    if k < |s| then s[..k] else s
  }

  lemma TakeOrdered(keys: seq<real>, p: seq<nat>, k: nat)
    requires Ordered(keys, p)
    ensures Ordered(keys, Take(p, k))
  {
    var r := Take(p, k);
    assert forall m :: 0 <= m < |r| ==> r[m] == p[m];
  }

  /** Filter to eligible positions, order them stably by key, keep at most k. */
  function SelectTop(keys: seq<real>, eligible: seq<bool>, k: nat): seq<nat>
    requires |eligible| == |keys|
  {
    Take(Keep(StableOrder(keys), eligible), k)
  }

  /**
   * SelectTop keeps at most k eligible positions, in ascending key order with
   * ties by position, and leaves out an eligible position only when k were
   * already taken, each no further (by key) than the one left out.
   */
  lemma SelectTopCorrect(keys: seq<real>, eligible: seq<bool>, k: nat)
    requires |eligible| == |keys|
    ensures var r := SelectTop(keys, eligible, k);
            && |r| <= k
            && Ordered(keys, r)
            && (forall m :: 0 <= m < |r| ==> eligible[r[m]])
            && (forall j :: 0 <= j < |keys| && eligible[j] && j !in r ==>
                  |r| == k && forall m :: 0 <= m < |r| ==> Before(keys, r[m], j))
  {
    var p := StableOrder(keys);
    StableOrderCorrect(keys);
    KeepOrdered(keys, p, eligible);
    var f := Keep(p, eligible);
    var r := Take(f, k);
    TakeOrdered(keys, f, k);
    assert forall m :: 0 <= m < |r| ==> r[m] == f[m] && eligible[f[m]];
    forall j | 0 <= j < |keys| && eligible[j]
      ensures j in r || (|r| == k && forall m :: 0 <= m < |r| ==> Before(keys, r[m], j))
    {
      assert j in f;
      var c :| 0 <= c < |f| && f[c] == j;
      if c < k {
        assert r[c] == j;
      } else {
        forall m | 0 <= m < |r| ensures Before(keys, r[m], j) {
          assert r[m] == f[m];
        }
      }
    }
  }

  function Distances<T>(xs: seq<Scored<T>>): (ks: seq<real>)
    ensures |ks| == |xs| && forall j :: 0 <= j < |xs| ==> ks[j] == xs[j].distance
  {
    seq(|xs|, j requires 0 <= j < |xs| => xs[j].distance)
  }

  /** The items at the given positions, in that order. */
  function Arrange<T>(xs: seq<T>, p: seq<nat>): (r: seq<T>)
    requires forall k :: 0 <= k < |p| ==> p[k] < |xs|
    ensures |r| == |p| && forall k :: 0 <= k < |p| ==> r[k] == xs[p[k]]
  {
    seq(|p|, k requires 0 <= k < |p| => xs[p[k]])
  }

  /** Positions chosen by the fuzzy search: distance strictly below the threshold, closest first, at most `limit`. */
  function FuzzyPositions<T>(scored: seq<Scored<T>>, threshold: real, limit: nat): (p: seq<nat>)
    ensures forall k :: 0 <= k < |p| ==> p[k] < |scored|
  {
    var keys := Distances(scored);
    var p := SelectTop(keys, seq(|scored|, j requires 0 <= j < |scored| => keys[j] < threshold), limit);
    SelectTopCorrect(keys, seq(|scored|, j requires 0 <= j < |scored| => keys[j] < threshold), limit);
    p
  }

  /**
   * `vector_fuzzy_search`: `filter(distance < threshold).order_by("distance")[:limit]`
   * over the catalog annotated with each item's distance to the query.
   */
  function FuzzySearch<T>(scored: seq<Scored<T>>, threshold: real, limit: nat): seq<Scored<T>> {
    Arrange(scored, FuzzyPositions(scored, threshold, limit))
  }

  /**
   * The search keeps only items strictly under the threshold, at most `limit`
   * of them, in non-decreasing distance; it misses an item under the threshold
   * only when `limit` items no further away were returned. An empty catalog
   * gives an empty result.
   */
  lemma FuzzySearchCorrect<T>(scored: seq<Scored<T>>, threshold: real, limit: nat)
    ensures var p := FuzzyPositions(scored, threshold, limit);
            var r := FuzzySearch(scored, threshold, limit);
            && |r| <= limit
            && (forall m :: 0 <= m < |r| ==> r[m].distance < threshold)
            && (forall a, b :: 0 <= a < b < |r| ==> r[a].distance <= r[b].distance)
            && (forall a, b :: 0 <= a < b < |p| ==> p[a] != p[b])
            && (forall j :: 0 <= j < |scored| && scored[j].distance < threshold && j !in p ==>
                  |r| == limit && forall m :: 0 <= m < |r| ==> r[m].distance <= scored[j].distance)
            && (scored == [] ==> r == [])
  {
    var keys := Distances(scored);
    var eligible := seq(|scored|, j requires 0 <= j < |scored| => keys[j] < threshold);
    SelectTopCorrect(keys, eligible, limit);
  }

  /** With a positive limit the search comes back empty exactly when no item is under the threshold. */
  lemma FuzzySearchEmpty<T>(scored: seq<Scored<T>>, threshold: real, limit: nat)
    requires limit > 0
    ensures FuzzySearch(scored, threshold, limit) == [] <==>
              forall j :: 0 <= j < |scored| ==> scored[j].distance >= threshold
  {
    FuzzySearchCorrect(scored, threshold, limit);
    var p := FuzzyPositions(scored, threshold, limit);
    var r := FuzzySearch(scored, threshold, limit);
    if r == [] {
      forall j | 0 <= j < |scored| ensures scored[j].distance >= threshold {
        assert j !in p;
      }
    } else {
      assert scored[p[0]] == r[0];
    }
  }

  /** `sorted(xs, key=lambda x: x.distance)`: closest first, ties in their original order. */
  function ClosestFirst<T>(xs: seq<Scored<T>>): seq<Scored<T>> {
    StableOrderCorrect(Distances(xs));
    Arrange(xs, StableOrder(Distances(xs)))
  }

  /** Sorting keeps every element and puts one of minimal distance first. */
  lemma ClosestFirstCorrect<T>(xs: seq<Scored<T>>)
    ensures |ClosestFirst(xs)| == |xs|
    ensures forall k :: 0 <= k < |xs| ==> ClosestFirst(xs)[k] in xs
    ensures forall j :: 0 <= j < |xs| ==> xs[j] in ClosestFirst(xs)
    ensures forall a, b :: 0 <= a < b < |xs| ==> ClosestFirst(xs)[a].distance <= ClosestFirst(xs)[b].distance
    ensures exists p :: IsPermutation(p, |xs|) && ClosestFirst(xs) == Arrange(xs, p)
  {
    var keys := Distances(xs);
    var p := StableOrder(keys);
    StableOrderCorrect(keys);
    var r := ClosestFirst(xs);
    assert IsPermutation(p, |xs|) && r == Arrange(xs, p);
    forall j | 0 <= j < |xs| ensures xs[j] in r {
      assert j in p;
      var k :| 0 <= k < |p| && p[k] == j;
      assert r[k] == xs[j];
    }
    forall a, b | 0 <= a < b < |xs| ensures r[a].distance <= r[b].distance {
      assert Before(keys, p[a], p[b]);
    }
  }
}
