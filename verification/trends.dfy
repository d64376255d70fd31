/**
 * The two HR trend endpoints (skill recommendations and negative feedback):
 * parse and clamp the two integer parameters, read the rows of the time
 * window, cluster their vectors greedily, summarise each cluster (distinct
 * users, member count, representative, first samples), and return the most
 * popular clusters first. Both endpoints run the same algorithm; the label
 * type `L` stands for a skill title or a feedback text.
 */
module Trends {
  import opened Wrappers
  import opened JsonValue
  import opened PyStr
  import opened Ranking
  import opened Clustering

  const DaysName := "timeframe_days"
  const TopName := "top_n"

  /** The 400 text for a parameter that is not an integer. */
  function NotAnInteger(name: string): string {
    name + " must be an integer"
  }

  /** `int(raw)` for a JSON request value; a float body value is not modelled. */
  function ParseParam(name: string, raw: Option<Json>, default: int): (r: Result<int, string>)
    ensures r.Failure? ==> r.error == NotAnInteger(name)
    ensures raw.None? ==> r == Success(default)
    ensures raw.Some? && raw.value.JInt? ==> r == Success(raw.value.i)
    ensures raw.Some? && (raw.value.JNull? || raw.value.JList? || raw.value.JObj?) ==> r.Failure?
  {
    match raw
    case None => Success(default)
    case Some(v) =>
      match v
      case JInt(i) => Success(i)
      case JBool(b) => Success(if b then 1 else 0)
      case JStr(s) =>
        (match ParseInt(s)
         case Some(i) => Success(i)
         case None => Failure(NotAnInteger(name)))
      case _ => Failure(NotAnInteger(name))
  }

  /** A parameter sent as the decimal text of an integer reads back as that integer. */
  lemma ParseParamText(name: string, i: int, default: int)
    ensures ParseParam(name, Some(JStr(IntToString(i))), default) == Success(i)
  {
    ParseIntRoundTrip(i);
  }

  /** `max(lo, min(x, hi))` */
  function Clamp(x: int, lo: int, hi: int): (r: int)
    requires lo <= hi
    ensures lo <= r <= hi
    ensures lo <= x <= hi ==> r == x
    ensures x < lo ==> r == lo
    ensures x > hi ==> r == hi
  {
    if x < lo then lo else if x > hi then hi else x
  }

  /** One entry of the `clusters` list of the response. */
  datatype TrendRow<L> = TrendRow(representative: Option<L>, popularityUsers: nat, membersCount: nat, samples: seq<L>)

  /** Similarity of each member to its cluster's centroid, in member order. */
  function MemberSims<L>(c: Cluster<L>, sim: (Embedding, Embedding) -> real): (r: seq<real>)
    ensures |r| == |c.members|
    ensures forall k :: 0 <= k < |r| ==> r[k] == sim(c.members[k].vec, c.centroid)
  {
    seq(|c.members|, k requires 0 <= k < |c.members| => sim(c.members[k].vec, c.centroid))
  }

  /** The label of the first member most similar to the centroid; None when no similarity exceeds -1. */
  function Representative<L>(c: Cluster<L>, sim: (Embedding, Embedding) -> real): Option<L> {
    var i := Scan(MemberSims(c, sim)).0;
    if i == -1 then None else Some(c.members[i].text)
  }

  /** The labels of the members, in member order. */
  function Texts<L>(ms: seq<Member<L>>): (r: seq<L>)
    ensures |r| == |ms| && forall k :: 0 <= k < |ms| ==> r[k] == ms[k].text
  {
    seq(|ms|, k requires 0 <= k < |ms| => ms[k].text)
  }

  function Summary<L>(c: Cluster<L>, sim: (Embedding, Embedding) -> real): TrendRow<L> {
    TrendRow(Representative(c, sim), |c.users|, |c.members|, Texts(Take(c.members, 3)))
  }

  /**
   * A cluster's summary: at least one and at most `members_count` distinct
   * users, the first (at most three) labels as samples, and as
   * representative the earliest member of maximal similarity to the centroid.
   */
  lemma SummaryCorrect<L>(c: Cluster<L>, sim: (Embedding, Embedding) -> real)
    requires ClusterInv(c)
    ensures var t := Summary(c, sim);
            && 1 <= t.popularityUsers <= t.membersCount == |c.members|
            && t.popularityUsers == |UidSet(c.members)|
            && |t.samples| == (if |c.members| < 3 then |c.members| else 3)
            && (forall k :: 0 <= k < |t.samples| ==> t.samples[k] == c.members[k].text)
    ensures var sims := MemberSims(c, sim);
            Representative(c, sim).None? <==> forall k :: 0 <= k < |sims| ==> sims[k] <= -1.0
    ensures var sims := MemberSims(c, sim);
            Representative(c, sim).Some? ==>
              exists i :: 0 <= i < |sims| && Representative(c, sim).value == c.members[i].text
                          && (forall k :: 0 <= k < |sims| ==> sims[k] <= sims[i])
                          && (forall k :: 0 <= k < i ==> sims[k] < sims[i])
  {
    PopularityBounds(c);
    ScanCorrect(MemberSims(c, sim));
  }

  function Summaries<L>(cs: seq<Cluster<L>>, sim: (Embedding, Embedding) -> real): (r: seq<TrendRow<L>>)
    ensures |r| == |cs| && forall k :: 0 <= k < |cs| ==> r[k] == Summary(cs[k], sim)
  {
    seq(|cs|, k requires 0 <= k < |cs| => Summary(cs[k], sim))
  }

  /** The sum of `members_count` over the rows. */
  function CountMembers<L>(rows: seq<TrendRow<L>>): nat {
    if |rows| == 0 then 0 else CountMembers(rows[..|rows| - 1]) + rows[|rows| - 1].membersCount
  }

  lemma {:induction false} SummariesCount<L>(cs: seq<Cluster<L>>, sim: (Embedding, Embedding) -> real)
    ensures CountMembers(Summaries(cs, sim)) == TotalMembers(cs)
  {
    if |cs| > 0 {
      var n := |cs|;
      assert Summaries(cs, sim)[..n - 1] == Summaries(cs[..n - 1], sim);
      SummariesCount(cs[..n - 1], sim);
    }
  }

  /** Before trimming, the `members_count` of all clusters add up to the number of items clustered. */
  lemma ClusterCounts<L>(items: seq<Member<L>>, sim: (Embedding, Embedding) -> real)
    ensures CountMembers(Summaries(ClusterAll(items, sim), sim)) == |items|
  {
    SummariesCount(ClusterAll(items, sim), sim);
    ClusterAllCount(items, sim);
  }

  /** Items yield at least one cluster. */
  lemma ClusterAllNonEmpty<L>(items: seq<Member<L>>, sim: (Embedding, Embedding) -> real)
    requires |items| > 0
    ensures |ClusterAll(items, sim)| > 0
  {
    var cs := ClusterAll(items[..|items| - 1], sim);
    ScanCorrect(Sims(cs, items[|items| - 1].vec, sim));
  }

  /** Sort keys for `sort(key=popularity_users, reverse=True)`: ascending order of the negated popularity. */
  function PopKeys<L>(rows: seq<TrendRow<L>>): (keys: seq<real>)
    ensures |keys| == |rows| && forall k :: 0 <= k < |rows| ==> keys[k] == -(rows[k].popularityUsers as real)
  {
    seq(|rows|, k requires 0 <= k < |rows| => -(rows[k].popularityUsers as real))
  }

  /** The rows by popularity, most popular first (stable), trimmed to `top_n`. */
  function Rank<L>(rows: seq<TrendRow<L>>, topN: nat): seq<TrendRow<L>> {
    StableOrderCorrect(PopKeys(rows));
    Take(Arrange(rows, StableOrder(PopKeys(rows))), topN)
  }

  /**
   * The ranked rows: min(#rows, top_n) of them, each taken from a distinct
   * original position, popularity non-increasing, and rows of equal
   * popularity in their original order.
   */
  lemma RankCorrect<L>(rows: seq<TrendRow<L>>, topN: nat)
    ensures var r := Rank(rows, topN);
            var p := StableOrder(PopKeys(rows));
            && |r| == (if topN < |rows| then topN else |rows|)
            && IsPermutation(p, |rows|)
            && (forall k :: 0 <= k < |r| ==> r[k] == rows[p[k]])
            && (forall a, b :: 0 <= a < b < |r| ==> r[a].popularityUsers >= r[b].popularityUsers)
            && (forall a, b :: 0 <= a < b < |r| && r[a].popularityUsers == r[b].popularityUsers ==> p[a] < p[b])
  {
    var keys := PopKeys(rows);
    var p := StableOrder(keys);
    StableOrderCorrect(keys);
    var r := Rank(rows, topN);
    forall a, b | 0 <= a < b < |r| ensures r[a].popularityUsers >= r[b].popularityUsers {
      assert Before(keys, p[a], p[b]);
    }
  }

  /** Trimming drops only rows no more popular than every row kept. */
  lemma RankComplete<L>(rows: seq<TrendRow<L>>, topN: nat)
    ensures var r := Rank(rows, topN);
            var p := StableOrder(PopKeys(rows));
            forall j :: 0 <= j < |rows| && j !in p[..|r|] ==>
              forall k :: 0 <= k < |r| ==> rows[j].popularityUsers <= r[k].popularityUsers
  {
    var keys := PopKeys(rows);
    var p := StableOrder(keys);
    StableOrderCorrect(keys);
    var r := Rank(rows, topN);
    forall j | 0 <= j < |rows| && j !in p[..|r|]
      ensures forall k :: 0 <= k < |r| ==> rows[j].popularityUsers <= r[k].popularityUsers
    {
      assert j in p;
      var m :| 0 <= m < |p| && p[m] == j;
      assert forall i :: 0 <= i < |r| ==> p[i] in p[..|r|];
      forall k | 0 <= k < |r| ensures rows[j].popularityUsers <= r[k].popularityUsers {
        assert Before(keys, p[k], p[m]);
      }
    }
  }

  /** The items of the rows whose vector could be read, in row order. */
  function Usable<L>(rows: seq<Option<Member<L>>>): (items: seq<Member<L>>)
    ensures |items| <= |rows|
    ensures |items| == 0 <==> forall k :: 0 <= k < |rows| ==> rows[k].None?
  {
    if |rows| == 0 then []
    else
      var init := rows[..|rows| - 1];
      var rest := Usable(init);
      assert forall k :: 0 <= k < |init| ==> init[k] == rows[k];
      match rows[|rows| - 1]
      case None => rest
      case Some(m) => rest + [m]
  }

  datatype Stats = Stats(rowsProcessed: nat, totalRows: nat)

  /** The endpoint's answer: a 400 with an error text, or the window, the clusters and, when nothing was clustered, the stats. */
  datatype Response<L> =
    | BadRequest(error: string)
    | Trends(timeframeDays: int, clusters: seq<TrendRow<L>>, stats: Option<Stats>)

  /**
   * The whole endpoint. `daysRaw` and `topRaw` are the two body values
   * (None when absent); `fetch(days)` is the query of the window, in id
   * order, each row None when its vector cannot be read; `sim` is the
   * cosine similarity.
   */
  function TrendsSpec<L>(daysRaw: Option<Json>, topRaw: Option<Json>,
                         fetch: int -> seq<Option<Member<L>>>, sim: (Embedding, Embedding) -> real): Response<L>
  {
    match ParseParam(DaysName, daysRaw, 7)
    case Failure(e) => BadRequest(e)
    case Success(d) =>
      match ParseParam(TopName, topRaw, 10)
      case Failure(e) => BadRequest(e)
      case Success(t) =>
        var days := Clamp(d, 1, 60);
        var topN := Clamp(t, 1, 200);
        var rows := fetch(days);
        if |rows| == 0 then Trends(days, [], Some(Stats(0, 0)))
        else
          var items := Usable(rows);
          if |items| == 0 then Trends(days, [], Some(Stats(0, |rows|)))
          else Trends(days, Rank(Summaries(ClusterAll(items, sim), sim), topN), None)
  }

  /** A parameter that is not an integer is reported by name, days first, and nothing is read. */
  lemma TrendsErrors<L>(daysRaw: Option<Json>, topRaw: Option<Json>,
                        fetch: int -> seq<Option<Member<L>>>, sim: (Embedding, Embedding) -> real)
    ensures var resp := TrendsSpec(daysRaw, topRaw, fetch, sim);
            && (ParseParam(DaysName, daysRaw, 7).Failure? ==>
                  resp == BadRequest(NotAnInteger(DaysName)))
            && (ParseParam(DaysName, daysRaw, 7).Success? && ParseParam(TopName, topRaw, 10).Failure? ==>
                  resp == BadRequest(NotAnInteger(TopName)))
            && (resp.BadRequest? <==>
                  ParseParam(DaysName, daysRaw, 7).Failure? || ParseParam(TopName, topRaw, 10).Failure?)
  {
  }

  /** Clustering usable items yields between one and top_n summaries, each with 1 <= popularity <= members. */
  lemma RankedClusters<L>(items: seq<Member<L>>, topN: nat, sim: (Embedding, Embedding) -> real)
    requires |items| > 0 && topN >= 1
    ensures var r := Rank(Summaries(ClusterAll(items, sim), sim), topN);
            && 1 <= |r| <= topN
            && forall k :: 0 <= k < |r| ==> 1 <= r[k].popularityUsers <= r[k].membersCount
  {
    var cs := ClusterAll(items, sim);
    var summaries := Summaries(cs, sim);
    ClusterAllNonEmpty(items, sim);
    ClusterAllInv(items, sim);
    RankCorrect(summaries, topN);
    var r := Rank(summaries, topN);
    var p := StableOrder(PopKeys(summaries));
    forall k | 0 <= k < |r| ensures 1 <= r[k].popularityUsers <= r[k].membersCount {
      SummaryCorrect(cs[p[k]], sim);
    }
  }

  /**
   * A successful answer: the window is in [1, 60], at most 200 clusters come
   * back, none exactly when no row had a usable vector (and then with the
   * stats), and every cluster has at least one and at most `members_count`
   * distinct users.
   */
  lemma TrendsCorrect<L>(daysRaw: Option<Json>, topRaw: Option<Json>,
                         fetch: int -> seq<Option<Member<L>>>, sim: (Embedding, Embedding) -> real)
    ensures var resp := TrendsSpec(daysRaw, topRaw, fetch, sim);
            resp.Trends? ==>
              && 1 <= resp.timeframeDays <= 60
              && |resp.clusters| <= 200
              && (resp.clusters == [] <==> |Usable(fetch(resp.timeframeDays))| == 0)
              && (resp.stats.Some? <==> resp.clusters == [])
              && (resp.stats.Some? ==> resp.stats.value.rowsProcessed == 0
                                       && resp.stats.value.totalRows == |fetch(resp.timeframeDays)|)
              && (forall k :: 0 <= k < |resp.clusters| ==>
                    1 <= resp.clusters[k].popularityUsers <= resp.clusters[k].membersCount)
  {
    var resp := TrendsSpec(daysRaw, topRaw, fetch, sim);
    if resp.Trends? {
      var days := Clamp(ParseParam(DaysName, daysRaw, 7).value, 1, 60);
      var topN := Clamp(ParseParam(TopName, topRaw, 10).value, 1, 200);
      var items := Usable(fetch(days));
      if |items| > 0 {
        RankedClusters(items, topN, sim);
      }
    }
  }

  /** The loop collecting the rows whose vector could be read. */
  method CollectItems<L>(rows: seq<Option<Member<L>>>) returns (items: seq<Member<L>>)
    ensures items == Usable(rows)
  {
    items := [];
    var k := 0;
    while k < |rows|
      invariant 0 <= k <= |rows|
      invariant items == Usable(rows[..k])
    {
      assert rows[..k + 1][..k] == rows[..k];
      if rows[k].Some? {
        items := items + [rows[k].value];
      }
      k := k + 1;
    }
    assert rows[..k] == rows;
  }

  /** The result-building loop: one summary per cluster, in cluster order. */
  method Summarize<L>(clusters: seq<Cluster<L>>, sim: (Embedding, Embedding) -> real)
    returns (result: seq<TrendRow<L>>)
    ensures result == Summaries(clusters, sim)
  {
    result := [];
    var c := 0;
    while c < |clusters|
      invariant 0 <= c <= |clusters|
      invariant result == Summaries(clusters[..c], sim)
    {
      var cl := clusters[c];
      var bestText: Option<L> := None;
      var bestSim := -1.0;
      ghost var bestIdx := -1;
      var j := 0;
      while j < |cl.members|
        invariant 0 <= j <= |cl.members|
        invariant (bestIdx, bestSim) == Scan(MemberSims(cl, sim)[..j])
        invariant bestText == if bestIdx == -1 then None else Some(cl.members[bestIdx].text)
      {
        var s := sim(cl.members[j].vec, cl.centroid);
        assert MemberSims(cl, sim)[..j + 1][..j] == MemberSims(cl, sim)[..j];
        if s > bestSim {
          bestSim := s;
          bestIdx := j;
          bestText := Some(cl.members[j].text);
        }
        j := j + 1;
      }
      assert MemberSims(cl, sim)[..j] == MemberSims(cl, sim);
      var samples := Texts(Take(cl.members, 3));
      result := result + [TrendRow(bestText, |cl.users|, |cl.members|, samples)];
      assert Summaries(clusters[..c + 1], sim) == Summaries(clusters[..c], sim) + [Summary(cl, sim)];
      c := c + 1;
    }
    assert clusters[..c] == clusters;
  }

  /** The endpoint as the view runs it: parse, clamp, read, cluster, summarise, sort and trim. */
  method GlobalTrends<L>(daysRaw: Option<Json>, topRaw: Option<Json>,
                         fetch: int -> seq<Option<Member<L>>>, sim: (Embedding, Embedding) -> real)
    returns (resp: Response<L>)
    ensures resp == TrendsSpec(daysRaw, topRaw, fetch, sim)
  {
    var days := ParseParam(DaysName, daysRaw, 7);
    if days.Failure? {
      return BadRequest(days.error);
    }
    var top := ParseParam(TopName, topRaw, 10);
    if top.Failure? {
      return BadRequest(top.error);
    }
    var timeframeDays := Clamp(days.value, 1, 60);
    var topN := Clamp(top.value, 1, 200);
    var rows := fetch(timeframeDays);
    if |rows| == 0 {
      return Trends(timeframeDays, [], Some(Stats(0, 0)));
    }
    var items := CollectItems(rows);
    if |items| == 0 {
      return Trends(timeframeDays, [], Some(Stats(0, |rows|)));
    }
    var clusters := GreedyCluster(items, sim);
    var result := Summarize(clusters, sim);
    result := Rank(result, topN);
    resp := Trends(timeframeDays, result, None);
  }
}
