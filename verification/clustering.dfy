/**
 * The greedy, single-pass centroid clustering behind the HR trend views.
 * Items are taken in order; each joins the earliest cluster whose centroid
 * is most similar to it when that similarity reaches 0.85, and otherwise
 * opens a new cluster. A joined cluster's centroid moves by the incremental
 * mean update. Vectors are exact reals, so the centroid is exactly the mean
 * of the members; the cosine similarity is a parameter `sim`. The texts
 * (skill titles or feedback statements) are generic.
 */
module Clustering {
  const SimThreshold: real := 0.85

  /** The embedding width of the vector columns. */
  const Dim: nat := 384

  type Embedding = v: seq<real> | |v| == Dim witness seq(384, k => 0.0)

  /** One clustered item: the user id, its label and its vector. */
  datatype Member<L> = Member(uid: int, text: L, vec: Embedding)

  /** A cluster: its centroid, its members in arrival order and its distinct user ids. */
  datatype Cluster<L> = Cluster(centroid: Embedding, members: seq<Member<L>>, users: set<int>)

  function Zero(): Embedding {
    seq(Dim, k => 0.0)
  }

  function Plus(a: Embedding, b: Embedding): Embedding {
    seq(Dim, k requires 0 <= k < Dim => a[k] + b[k])
  }

  /** `c + (v - c) / n` */
  function MovedToward(c: Embedding, v: Embedding, n: nat): Embedding
    requires n > 0
  {
    seq(Dim, k requires 0 <= k < Dim => c[k] + (v[k] - c[k]) / (n as real))
  }

  /** The sum of the member vectors. */
  function Sum<L>(ms: seq<Member<L>>): Embedding {
    if |ms| == 0 then Zero() else Plus(Sum(ms[..|ms| - 1]), ms[|ms| - 1].vec)
  }

  /** The arithmetic mean of the member vectors. */
  function Mean<L>(ms: seq<Member<L>>): Embedding
    requires |ms| > 0
  {
    seq(Dim, k requires 0 <= k < Dim => Sum(ms)[k] / (|ms| as real))
  }

  /** The distinct user ids of the members. */
  function UidSet<L>(ms: seq<Member<L>>): set<int> {
    if |ms| == 0 then {} else UidSet(ms[..|ms| - 1]) + {ms[|ms| - 1].uid}
  }

  /** What every cluster satisfies: it has a member, its users are its members' ids, its centroid is their mean. */
  predicate ClusterInv<L>(c: Cluster<L>) {
    |c.members| > 0 && c.users == UidSet(c.members) && c.centroid == Mean(c.members)
  }

  /** A new cluster holding one item: `{"centroid": vec.copy(), "members": [item], "users": {uid}}`. */
  function Singleton<L>(m: Member<L>): Cluster<L> {
    Cluster(m.vec, [m], {m.uid})
  }

  /** Append the item, add its user, and move the centroid by the incremental mean step. */
  function Absorb<L>(c: Cluster<L>, m: Member<L>): Cluster<L> {
    Cluster(MovedToward(c.centroid, m.vec, |c.members| + 1), c.members + [m], c.users + {m.uid})
  }

  /** The incremental update on one coordinate: from the mean of n values to the mean of n + 1. */
  lemma MeanStep(s: real, v: real, n: real)
    requires n > 0.0
    ensures s / n + (v - s / n) / (n + 1.0) == (s + v) / (n + 1.0)
  {
    var a := s / n;
    assert a * n == s;
    calc {
      a + (v - a) / (n + 1.0);
      (a * (n + 1.0)) / (n + 1.0) + (v - a) / (n + 1.0);
      (a * (n + 1.0) + (v - a)) / (n + 1.0);
      (a * n + v) / (n + 1.0);
    }
  }

  /** The centroid update keeps the centroid equal to the mean of the members. */
  lemma IncrementalMean<L>(ms: seq<Member<L>>, m: Member<L>)
    requires |ms| > 0
    ensures MovedToward(Mean(ms), m.vec, |ms| + 1) == Mean(ms + [m])
  {
    var all := ms + [m];
    assert all[..|all| - 1] == ms;
    forall k | 0 <= k < Dim ensures MovedToward(Mean(ms), m.vec, |ms| + 1)[k] == Mean(all)[k] {
      assert Sum(all)[k] == Sum(ms)[k] + m.vec[k];
      assert Mean(ms)[k] == Sum(ms)[k] / (|ms| as real);
      assert Mean(all)[k] == Sum(all)[k] / ((|ms| + 1) as real);
      MeanStep(Sum(ms)[k], m.vec[k], |ms| as real);
    }
  }

  /** A singleton's centroid, the item's own vector, is the mean of its one member. */
  lemma SingletonMean<L>(m: Member<L>)
    ensures ClusterInv(Singleton(m))
  {
    assert [m][..0] == [];
    assert UidSet([m]) == {m.uid};
    forall k | 0 <= k < Dim ensures Mean([m])[k] == m.vec[k] {
      assert Sum([m])[k] == 0.0 + m.vec[k];
    }
  }

  lemma AbsorbInv<L>(c: Cluster<L>, m: Member<L>)
    requires ClusterInv(c)
    ensures ClusterInv(Absorb(c, m))
  {
    IncrementalMean(c.members, m);
    var all := c.members + [m];
    assert all[..|all| - 1] == c.members;
  }

  /** A cluster's distinct users number at least one and at most its members. */
  lemma {:induction false} UidSetSize<L>(ms: seq<Member<L>>)
    ensures |UidSet(ms)| <= |ms|
    ensures |ms| > 0 ==> |UidSet(ms)| >= 1
  {
    if |ms| > 0 {
      UidSetSize(ms[..|ms| - 1]);
      assert ms[|ms| - 1].uid in UidSet(ms);
    }
  }

  lemma PopularityBounds<L>(c: Cluster<L>)
    requires ClusterInv(c)
    ensures 1 <= |c.users| <= |c.members|
  {
    UidSetSize(c.members);
  }

  /**
   * The best-index scan `if sim > best_sim: best_sim, best_idx = sim, idx`
   * over a sequence of similarities, starting from (-1, -1.0).
   */
  function Scan(sims: seq<real>): (r: (int, real))
    ensures -1 <= r.0 < |sims|
  {
    if |sims| == 0 then (-1, -1.0)
    else
      var prev := Scan(sims[..|sims| - 1]);
      if sims[|sims| - 1] > prev.1 then (|sims| - 1, sims[|sims| - 1]) else prev
  }

  /**
   * The scan finds the earliest position of the maximum, unless every value
   * is at most -1, when it finds nothing and keeps -1.0.
   */
  lemma {:induction false} ScanCorrect(sims: seq<real>)
    ensures var (i, best) := Scan(sims);
            && (i == -1 <==> forall k :: 0 <= k < |sims| ==> sims[k] <= -1.0)
            && (i == -1 ==> best == -1.0)
            && (i >= 0 ==> best == sims[i] && best > -1.0
                           && (forall k :: 0 <= k < |sims| ==> sims[k] <= best)
                           && (forall k :: 0 <= k < i ==> sims[k] < best))
  {
    if |sims| > 0 {
      var init := sims[..|sims| - 1];
      ScanCorrect(init);
      assert forall k :: 0 <= k < |init| ==> init[k] == sims[k];
    }
  }

  /** Similarity of the item's vector to each cluster's centroid, in cluster order. */
  function Sims<L>(cs: seq<Cluster<L>>, v: Embedding, sim: (Embedding, Embedding) -> real): (r: seq<real>)
    ensures |r| == |cs| && forall k :: 0 <= k < |cs| ==> r[k] == sim(v, cs[k].centroid)
  {
    seq(|cs|, k requires 0 <= k < |cs| => sim(v, cs[k].centroid))
  }

  /** Place one item: into the best cluster when similar enough, else into a new cluster at the end. */
  function Assign<L>(cs: seq<Cluster<L>>, m: Member<L>, sim: (Embedding, Embedding) -> real): seq<Cluster<L>> {
    var (i, best) := Scan(Sims(cs, m.vec, sim));
    if best >= SimThreshold && i >= 0 then cs[i := Absorb(cs[i], m)] else cs + [Singleton(m)]
  }

  /**
   * The item joins the earliest cluster of maximal similarity when that
   * similarity is at least 0.85; otherwise, in particular when there are no
   * clusters yet, it opens a new cluster after the existing ones.
   */
  lemma AssignPlacement<L>(cs: seq<Cluster<L>>, m: Member<L>, sim: (Embedding, Embedding) -> real)
    ensures var sims := Sims(cs, m.vec, sim);
            (exists k :: 0 <= k < |cs| && sims[k] >= SimThreshold) ==>
              exists i :: 0 <= i < |cs| && sims[i] >= SimThreshold
                          && (forall k :: 0 <= k < |cs| ==> sims[k] <= sims[i])
                          && (forall k :: 0 <= k < i ==> sims[k] < sims[i])
                          && Assign(cs, m, sim) == cs[i := Absorb(cs[i], m)]
    ensures var sims := Sims(cs, m.vec, sim);
            (forall k :: 0 <= k < |cs| ==> sims[k] < SimThreshold) ==> Assign(cs, m, sim) == cs + [Singleton(m)]
  {
    var sims := Sims(cs, m.vec, sim);
    ScanCorrect(sims);
    var (i, best) := Scan(sims);
    if exists k :: 0 <= k < |cs| && sims[k] >= SimThreshold {
      var k :| 0 <= k < |cs| && sims[k] >= SimThreshold;
      assert i >= 0;
    }
  }

  /** All items clustered in order. */
  function ClusterAll<L>(items: seq<Member<L>>, sim: (Embedding, Embedding) -> real): seq<Cluster<L>> {
    if |items| == 0 then []
    else Assign(ClusterAll(items[..|items| - 1], sim), items[|items| - 1], sim)
  }

  lemma AssignInv<L>(cs: seq<Cluster<L>>, m: Member<L>, sim: (Embedding, Embedding) -> real)
    requires forall k :: 0 <= k < |cs| ==> ClusterInv(cs[k])
    ensures forall k :: 0 <= k < |Assign(cs, m, sim)| ==> ClusterInv(Assign(cs, m, sim)[k])
  {
    var (i, best) := Scan(Sims(cs, m.vec, sim));
    ScanCorrect(Sims(cs, m.vec, sim));
    if best >= SimThreshold && i >= 0 {
      AbsorbInv(cs[i], m);
    } else {
      SingletonMean(m);
    }
  }

  /** Every cluster produced has a member, the right user set, and the mean of its members as centroid. */
  lemma {:induction false} ClusterAllInv<L>(items: seq<Member<L>>, sim: (Embedding, Embedding) -> real)
    ensures forall k :: 0 <= k < |ClusterAll(items, sim)| ==> ClusterInv(ClusterAll(items, sim)[k])
  {
    if |items| > 0 {
      ClusterAllInv(items[..|items| - 1], sim);
      AssignInv(ClusterAll(items[..|items| - 1], sim), items[|items| - 1], sim);
    }
  }

  /** The number of members over all clusters. */
  function TotalMembers<L>(cs: seq<Cluster<L>>): nat {
    if |cs| == 0 then 0 else TotalMembers(cs[..|cs| - 1]) + |cs[|cs| - 1].members|
  }

  lemma {:induction false} TotalMembersUpdate<L>(cs: seq<Cluster<L>>, i: nat, c: Cluster<L>)
    requires i < |cs|
    ensures TotalMembers(cs[i := c]) + |cs[i].members| == TotalMembers(cs) + |c.members|
  {
    var n := |cs|;
    var init := cs[..n - 1];
    if i < n - 1 {
      TotalMembersUpdate(init, i, c);
      assert cs[i := c][..n - 1] == init[i := c];
    } else {
      assert cs[i := c][..n - 1] == init;
    }
  }

  lemma TotalMembersAppend<L>(cs: seq<Cluster<L>>, c: Cluster<L>)
    ensures TotalMembers(cs + [c]) == TotalMembers(cs) + |c.members|
  {
    assert (cs + [c])[..|cs|] == cs;
  }

  /** Every item lands in exactly one cluster: the member counts add up to the number of items. */
  lemma {:induction false} ClusterAllCount<L>(items: seq<Member<L>>, sim: (Embedding, Embedding) -> real)
    ensures TotalMembers(ClusterAll(items, sim)) == |items|
  {
    if |items| > 0 {
      var init := items[..|items| - 1];
      var m := items[|items| - 1];
      var cs := ClusterAll(init, sim);
      ClusterAllCount(init, sim);
      var (i, best) := Scan(Sims(cs, m.vec, sim));
      ScanCorrect(Sims(cs, m.vec, sim));
      if best >= SimThreshold && i >= 0 {
        TotalMembersUpdate(cs, i, Absorb(cs[i], m));
      } else {
        TotalMembersAppend(cs, Singleton(m));
      }
    }
  }

  /**
   * The clustering loop: for each item, scan the clusters for the best
   * similarity, then grow that cluster in place or append a new one.
   */
  method GreedyCluster<L>(items: seq<Member<L>>, sim: (Embedding, Embedding) -> real)
    returns (clusters: seq<Cluster<L>>)
    ensures clusters == ClusterAll(items, sim)
  {
    clusters := [];
    var n := 0;
    while n < |items|
      invariant 0 <= n <= |items|
      invariant clusters == ClusterAll(items[..n], sim)
    {
      var m := items[n];
      var bestIdx := -1;
      var bestSim := -1.0;
      var idx := 0;
      while idx < |clusters|
        invariant 0 <= idx <= |clusters|
        invariant (bestIdx, bestSim) == Scan(Sims(clusters, m.vec, sim)[..idx])
      {
        var s := sim(m.vec, clusters[idx].centroid);
        assert Sims(clusters, m.vec, sim)[..idx + 1][..idx] == Sims(clusters, m.vec, sim)[..idx];
        if s > bestSim {
          bestSim := s;
          bestIdx := idx;
        }
        idx := idx + 1;
      }
      assert Sims(clusters, m.vec, sim)[..idx] == Sims(clusters, m.vec, sim);
      if bestSim >= SimThreshold && bestIdx >= 0 {
        var cl := clusters[bestIdx];
        var members := cl.members + [m];
        var users := cl.users + {m.uid};
        var centroid := MovedToward(cl.centroid, m.vec, |members|);
        clusters := clusters[bestIdx := Cluster(centroid, members, users)];
      } else {
        clusters := clusters + [Cluster(m.vec, [m], {m.uid})];
      }
      assert items[..n + 1][..n] == items[..n];
      n := n + 1;
    }
    assert items[..n] == items;
  }
}
