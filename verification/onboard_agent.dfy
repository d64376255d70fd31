/**
 * The onboarding agent: cached catalog-search tools over the onboarding
 * catalog, the near-exact catalog lookup by title and specialization, and
 * the cached entry point that answers from the catalog when no question is
 * asked and otherwise runs the agent and parses its JSON answer.
 */
module OnboardAgent {
  import opened Wrappers
  import opened JsonValue
  import opened PyStr
  import opened ResponseCache
  import opened Ranking
  import opened Extraction
  import opened Tags

  /** An `OnboardCatalog` row; `id` is its primary key, which decides equality in a set. */
  datatype JobItem = JobItem(id: int, title: string, specialization: Option<string>, tags: seq<string>,
                             checklist: seq<string>, resources: seq<string>)

  /** The embedding column a search compares against. */
  datatype JobField = TitleVector | SpecializationVector | TagsVector

  const Threshold: real := 0.8
  const Limit: nat := 3

  /**
   * `vector_fuzzy_search(query, field)`. `annotate(field, query)` stands for
   * the catalog rows whose `field` embedding is set, each with its cosine
   * distance to the query's embedding, in table order.
   */
  function JobSearch(annotate: (JobField, string) -> seq<Scored<JobItem>>, field: JobField, query: string)
    : seq<Scored<JobItem>>
  {
    FuzzySearch(annotate(field, query), Threshold, Limit)
  }

  /** At most three rows, each under distance 0.8, closest first; none exactly when no row is under 0.8. */
  lemma JobSearchCorrect(annotate: (JobField, string) -> seq<Scored<JobItem>>, field: JobField, query: string)
    ensures var r := JobSearch(annotate, field, query);
            && |r| <= 3
            && (forall m :: 0 <= m < |r| ==> r[m].distance < 0.8)
            && (forall a, b :: 0 <= a < b < |r| ==> r[a].distance <= r[b].distance)
            && (r == [] <==> forall j :: 0 <= j < |annotate(field, query)| ==> annotate(field, query)[j].distance >= 0.8)
  {
    FuzzySearchCorrect(annotate(field, query), Threshold, Limit);
    FuzzySearchEmpty(annotate(field, query), Threshold, Limit);
  }

  /** The text searched for: the tags tool normalises its comma-separated input first. */
  function SearchQuery(field: JobField, input: string): string {
    if field == TagsVector then NormalizeTags(input) else input
  }

  /** The cache key of each search tool. */
  function ToolKey(field: JobField, input: string): string {
    match field
    case TitleVector => "find_similar_job_titles_" + input
    case SpecializationVector => "find_similar_specializations_" + input
    case TagsVector => "find_jobs_with_relevant_tags_" + input
  }

  /** One line per match; `fmt2` renders `1 - distance` with two decimals; a missing specialization prints as None. */
  function Line(field: JobField, m: Scored<JobItem>, fmt2: real -> string): string {
    var tail := " (Similarity: " + fmt2(1.0 - m.distance) + ")";
    match field
    case TagsVector => m.item.title + " - Tags: " + Join(m.item.tags, ", ") + tail
    case _ => m.item.title + " - Specialization: " + ShowOpt(m.item.specialization) + tail
  }

  /** The text a search tool returns: the lines joined by line breaks, so nothing at all when nothing matched. */
  function ToolText(field: JobField, matches: seq<Scored<JobItem>>, fmt2: real -> string): string {
    Join(seq(|matches|, k requires 0 <= k < |matches| => Line(field, matches[k], fmt2)), "\n")
  }

  function ToolResult(field: JobField, input: string, annotate: (JobField, string) -> seq<Scored<JobItem>>,
                      fmt2: real -> string): string
  {
    ToolText(field, JobSearch(annotate, field, SearchQuery(field, input)), fmt2)
  }

  /**
   * A search tool answers with the empty text exactly when no row is close
   * enough; that answer is falsy, so whatever the store held before, storing
   * it never creates a hit: a key that missed still misses, and the search
   * runs again on the next call.
   */
  lemma ToolTextEmptyIffNoMatch(field: JobField, input: string,
                                annotate: (JobField, string) -> seq<Scored<JobItem>>, fmt2: real -> string,
                                store: map<string, Json>)
    ensures var q := SearchQuery(field, input);
            ToolResult(field, input, annotate, fmt2) == "" <==>
              forall j :: 0 <= j < |annotate(field, q)| ==> annotate(field, q)[j].distance >= 0.8
    ensures ToolResult(field, input, annotate, fmt2) == "" ==>
              (Hit(CacheOrCompute(store, ToolKey(field, input), JStr("")).store, ToolKey(field, input))
               <==> Hit(store, ToolKey(field, input)))
  {
    var q := SearchQuery(field, input);
    JobSearchCorrect(annotate, field, q);
    ToolTextEmpty(field, JobSearch(annotate, field, q), fmt2);
  }

  /** The tool text is empty exactly when there are no matches: every line names its job. */
  lemma ToolTextEmpty(field: JobField, matches: seq<Scored<JobItem>>, fmt2: real -> string)
    ensures ToolText(field, matches, fmt2) == "" <==> |matches| == 0
  {
    if |matches| > 0 {
      var lines := seq(|matches|, k requires 0 <= k < |matches| => Line(field, matches[k], fmt2));
      JoinStartsWithFirst(lines, "\n");
      assert |lines[0]| > 0;
    }
  }

  /**
   * `find_similar_job_titles`, `find_similar_specializations` and
   * `find_jobs_with_relevant_tags`.
   */
  method FindJobs(cache: Cache, field: JobField, input: string,
                  annotate: (JobField, string) -> seq<Scored<JobItem>>, fmt2: real -> string)
    returns (r: Json)
    modifies cache
    ensures Cached(r, cache.store)
              == CacheOrCompute(old(cache.store), ToolKey(field, input), JStr(ToolResult(field, input, annotate, fmt2)))
  {
    var key := ToolKey(field, input);
    var cached := cache.Get(key);
    if Truthy(cached) {
      return cached;
    }
    var matches := JobSearch(annotate, field, SearchQuery(field, input));
    var result := Join(seq(|matches|, k requires 0 <= k < |matches| => Line(field, matches[k], fmt2)), "\n");
    cache.Set(key, JStr(result));
    r := JStr(result);
  }

  /** The line break and indentation of the details template. */
  const Indent := "\n        "

  /** `'; '.join(xs) if xs else 'N/A'` and its comma variant. */
  function OrNA(xs: seq<string>, sep: string): string {
    if |xs| > 0 then Join(xs, sep) else "N/A"
  }

  /** The template lines after the title line, each but the first after a line break and indentation. */
  function DetailsLines(m: Scored<JobItem>, fmt2: real -> string): string {
    var job := m.item;
    "Specialization: " + (if TruthyOpt(job.specialization) then job.specialization.value else "N/A")
    + Indent + "Tags: " + OrNA(job.tags, ", ")
    + Indent + "Checklist: " + OrNA(job.checklist, "; ")
    + Indent + "Resources: " + OrNA(job.resources, "; ")
    + Indent + "Similarity: " + fmt2(1.0 - m.distance)
    + Indent
  }

  /** The details of the top match: the template, stripped. */
  function DetailsText(m: Scored<JobItem>, fmt2: real -> string): string {
    Strip(Indent + ("Title: " + m.item.title) + (Indent + DetailsLines(m, fmt2)))
  }

  /** Stripping removes the template's leading indentation: the details begin with the job's title line. */
  lemma DetailsStartWithTitle(m: Scored<JobItem>, fmt2: real -> string)
    ensures "Title: " + m.item.title <= DetailsText(m, fmt2)
  {
    var title := "Title: " + m.item.title;
    var lines := DetailsLines(m, fmt2);
    var rest := Indent + lines;
    assert lines[0] == 'S';
    assert rest[|Indent|] == 'S';
    assert IsBlank(Indent);
    assert (title + rest)[0] == 'T';
    LStripSkips(Indent, title + rest);
    assert Indent + title + rest == Indent + (title + rest);
    RStripKeepsPrefix(title, rest, |Indent|);
  }

  /** `get_job_details`: the details of the closest title, or a not-found message. */
  function JobDetails(jobTitle: string, annotate: (JobField, string) -> seq<Scored<JobItem>>,
                      fmt2: real -> string): string
  {
    DetailsOf(jobTitle, JobSearch(annotate, TitleVector, jobTitle), fmt2)
  }

  /** The answer for the given matches: the details of the first, or the not-found message. */
  function DetailsOf(jobTitle: string, matches: seq<Scored<JobItem>>, fmt2: real -> string): string {
    if |matches| > 0 then DetailsText(matches[0], fmt2) else "No similar job found for '" + jobTitle + "'."
  }

  lemma DetailsOfShape(jobTitle: string, matches: seq<Scored<JobItem>>, fmt2: real -> string)
    ensures |matches| > 0 ==> "Title: " + matches[0].item.title <= DetailsOf(jobTitle, matches, fmt2)
    ensures DetailsOf(jobTitle, matches, fmt2) != ""
  {
    if |matches| > 0 {
      DetailsStartWithTitle(matches[0], fmt2);
    } else {
      assert |DetailsOf(jobTitle, matches, fmt2)| >= |jobTitle|;
    }
  }

  /**
   * The details describe the closest catalog row by title, whose title line
   * they begin with and whose full details they are; the not-found message
   * naming the title is the answer exactly when no title is close enough.
   * Either way the answer is not empty.
   */
  lemma JobDetailsCorrect(jobTitle: string, annotate: (JobField, string) -> seq<Scored<JobItem>>,
                          fmt2: real -> string)
    ensures var matches := JobSearch(annotate, TitleVector, jobTitle);
            && (|matches| > 0 ==> "Title: " + matches[0].item.title <= JobDetails(jobTitle, annotate, fmt2)
                                   && forall k :: 0 <= k < |matches| ==> matches[0].distance <= matches[k].distance)
            && (|matches| == 0 <==> forall j :: 0 <= j < |annotate(TitleVector, jobTitle)| ==>
                                               annotate(TitleVector, jobTitle)[j].distance >= 0.8)
    ensures JobDetails(jobTitle, annotate, fmt2) != ""
    ensures var matches := JobSearch(annotate, TitleVector, jobTitle);
            && (|matches| > 0 ==> JobDetails(jobTitle, annotate, fmt2) == DetailsText(matches[0], fmt2))
            && (|matches| == 0 ==> JobDetails(jobTitle, annotate, fmt2) == "No similar job found for '" + jobTitle + "'.")
  {
    var matches := JobSearch(annotate, TitleVector, jobTitle);
    JobSearchCorrect(annotate, TitleVector, jobTitle);
    DetailsOfShape(jobTitle, matches, fmt2);
    assert JobDetails(jobTitle, annotate, fmt2) == DetailsOf(jobTitle, matches, fmt2);
    forall k | 0 < k < |matches| ensures matches[0].distance <= matches[k].distance {
    }
  }

  /** `get_job_details`, cached by title. */
  method GetJobDetails(cache: Cache, jobTitle: string, annotate: (JobField, string) -> seq<Scored<JobItem>>,
                       fmt2: real -> string)
    returns (r: Json)
    modifies cache
    ensures Cached(r, cache.store)
              == CacheOrCompute(old(cache.store), "get_job_details_" + jobTitle, JStr(JobDetails(jobTitle, annotate, fmt2)))
  {
    var key := "get_job_details_" + jobTitle;
    var cached := cache.Get(key);
    if Truthy(cached) {
      return cached;
    }
    var similarJobs := JobSearch(annotate, TitleVector, jobTitle);
    var result: string;
    if |similarJobs| > 0 {
      result := DetailsText(similarJobs[0], fmt2);
    } else {
      result := "No similar job found for '" + jobTitle + "'.";
    }
    cache.Set(key, JStr(result));
    r := JStr(result);
  }

  /** The primary keys of a search result. */
  function Ids(xs: seq<Scored<JobItem>>): set<int> {
    set k | 0 <= k < |xs| :: xs[k].item.id
  }

  /** The rows of `xs` whose key also occurs in `other`, in the order of `xs`. */
  function Shared(xs: seq<Scored<JobItem>>, other: set<int>): (r: seq<Scored<JobItem>>)
    ensures forall k :: 0 <= k < |r| ==> r[k] in xs && r[k].item.id in other
    ensures forall k :: 0 <= k < |xs| && xs[k].item.id in other ==> xs[k] in r
  {
    if |xs| == 0 then []
    else if xs[0].item.id in other then [xs[0]] + Shared(xs[1..], other)
    else Shared(xs[1..], other)
  }

  /**
   * `set(by_title) & set(by_spec)`: rows are equal when their keys are. Which
   * side's row object (and so which distance) survives the intersection
   * depends on the set implementation; `titleSide` says which one does.
   */
  function Intersect(byTitle: seq<Scored<JobItem>>, bySpec: seq<Scored<JobItem>>, titleSide: bool): seq<Scored<JobItem>> {
    if titleSide then Shared(byTitle, Ids(bySpec)) else Shared(bySpec, Ids(byTitle))
  }

  /** The rows both searches found, given the specialization as passed (a falsy one is searched as "N/A"). */
  function SharedRows(jobTitle: string, specialization: Option<string>,
                      annotate: (JobField, string) -> seq<Scored<JobItem>>, titleSide: bool): seq<Scored<JobItem>>
  {
    var spec := if TruthyOpt(specialization) then specialization.value else "N/A";
    Intersect(JobSearch(annotate, TitleVector, jobTitle), JobSearch(annotate, SpecializationVector, spec), titleSide)
  }

  /** A near-exact match is one under this distance (similarity above 0.9). */
  const NearExact: real := 0.1

  /** The first of the shared rows sorted by distance, when it is a near-exact match. */
  function NearExactPick(shared: seq<Scored<JobItem>>): Option<Scored<JobItem>> {
    var combined := ClosestFirst(shared);
    if |combined| > 0 && combined[0].distance < NearExact then Some(combined[0]) else None
  }

  /**
   * A pick exists exactly when some shared row is under distance 0.1, and
   * it is a shared row no further than any other.
   */
  lemma NearExactPickCorrect(shared: seq<Scored<JobItem>>)
    ensures NearExactPick(shared).Some? <==> exists k :: 0 <= k < |shared| && shared[k].distance < NearExact
    ensures NearExactPick(shared).Some? ==>
              NearExactPick(shared).value in shared
              && forall k :: 0 <= k < |shared| ==> NearExactPick(shared).value.distance <= shared[k].distance
  {
    var combined := ClosestFirst(shared);
    ClosestFirstCorrect(shared);
    forall k | 0 <= k < |shared| ensures combined[0].distance <= shared[k].distance {
      var c :| 0 <= c < |combined| && combined[c] == shared[k];
      assert c == 0 || combined[0].distance <= combined[c].distance;
    }
  }

  function Strings(xs: seq<string>): Json {
    JList(seq(|xs|, k requires 0 <= k < |xs| => JStr(xs[k])))
  }

  /** The catalog answer for a picked row; `fmt1` renders the similarity percentage with one decimal. */
  function CatalogAnswer(m: Scored<JobItem>, fmt1: real -> string): (v: Json)
    ensures Truthy(v)
  {
    JObj([("checklist", Strings(m.item.checklist)),
          ("resources", Strings(m.item.resources)),
          ("explanation", JStr("Near Exact match found in Onboard Catalog with similarity of "
                               + fmt1((1.0 - m.distance) * 100.0) + "%"))])
  }

  /**
   * `get_job_details_title_spec`: the checklist and resources of the closest
   * row found by both searches, when it is a near-exact match.
   */
  function TitleSpecDetails(jobTitle: string, specialization: Option<string>,
                            annotate: (JobField, string) -> seq<Scored<JobItem>>, titleSide: bool, fmt1: real -> string): Option<Json>
  {
    match NearExactPick(SharedRows(jobTitle, specialization, annotate, titleSide))
    case None => None
    case Some(m) => Some(CatalogAnswer(m, fmt1))
  }

  /**
   * The intersection keeps rows of one of the two searches whose key both
   * searches found, and every key both searches found has a row in it,
   * whichever side survives.
   */
  lemma IntersectShared(byTitle: seq<Scored<JobItem>>, bySpec: seq<Scored<JobItem>>, titleSide: bool)
    ensures var shared := Intersect(byTitle, bySpec, titleSide);
            forall k :: 0 <= k < |shared| ==>
              (shared[k] in byTitle || shared[k] in bySpec)
              && shared[k].item.id in Ids(byTitle) && shared[k].item.id in Ids(bySpec)
    ensures var shared := Intersect(byTitle, bySpec, titleSide);
            forall id :: id in Ids(byTitle) && id in Ids(bySpec) ==> id in Ids(shared)
  {
    var shared := Intersect(byTitle, bySpec, titleSide);
    forall k | 0 <= k < |shared| ensures shared[k].item.id in Ids(byTitle) && shared[k].item.id in Ids(bySpec) {
      if titleSide {
        var i :| 0 <= i < |byTitle| && byTitle[i] == shared[k];
        assert shared[k].item.id == byTitle[i].item.id;
      } else {
        var i :| 0 <= i < |bySpec| && bySpec[i] == shared[k];
        assert shared[k].item.id == bySpec[i].item.id;
      }
    }
    forall id | id in Ids(byTitle) && id in Ids(bySpec) ensures id in Ids(shared) {
      var side := if titleSide then byTitle else bySpec;
      assert id in Ids(side);
      var i :| 0 <= i < |side| && side[i].item.id == id;
      assert side[i] in shared;
      var k :| 0 <= k < |shared| && shared[k] == side[i];
      assert shared[k].item.id == id;
    }
  }

  /** Raised for a call with neither a question nor a job title, and by `json.loads`. */
  datatype OnboardError = TitleRequired | MalformedJson

  /** `f"onboard_agent_{job_title}_{specialization}_{query}"` */
  function OnboardCacheKey(query: Option<string>, jobTitle: Option<string>, specialization: Option<string>): string {
    "onboard_agent_" + ShowOpt(jobTitle) + "_" + ShowOpt(specialization) + "_" + ShowOpt(query)
  }

  /** The agent's input: title and specialization, then the question (printed as None when absent), stripped. */
  function FullQuery(query: Option<string>, jobTitle: Option<string>, specialization: Option<string>): string {
    var base := if TruthyOpt(specialization) then ShowOpt(jobTitle) + " - " + specialization.value else ShowOpt(jobTitle);
    Strip(base + ". Extra user query: " + ShowOpt(query))
  }

  /**
   * What `run_onboard_agent` computes on a cache miss. `agent(input)` is the
   * agent run's `output`, if any.
   */
  function OnboardAnswer(query: Option<string>, jobTitle: Option<string>, specialization: Option<string>,
                         annotate: (JobField, string) -> seq<Scored<JobItem>>, titleSide: bool, fmt1: real -> string,
                         agent: string -> Option<string>, parse: string -> Option<Json>): Result<Json, OnboardError>
  {
    if !TruthyOpt(query) && !TruthyOpt(jobTitle) then Failure(TitleRequired)
    else if !TruthyOpt(query) && TitleSpecDetails(jobTitle.value, specialization, annotate, titleSide, fmt1).Some? then
      Success(TitleSpecDetails(jobTitle.value, specialization, annotate, titleSide, fmt1).value)
    else
      match ParseOnce(agent(FullQuery(query, jobTitle, specialization)).GetOr("{}"), parse)
      case None => Failure(MalformedJson)
      case Some(v) => Success(v)
  }

  /**
   * Without a question a job title is required; a near-exact catalog match
   * then answers without running the agent; with a question the catalog
   * lookup is skipped and the agent always runs.
   */
  lemma OnboardAnswerRoutes(query: Option<string>, jobTitle: Option<string>, specialization: Option<string>,
                            annotate: (JobField, string) -> seq<Scored<JobItem>>, titleSide: bool, fmt1: real -> string,
                            agent: string -> Option<string>, other: string -> Option<string>,
                            otherCatalog: (JobField, string) -> seq<Scored<JobItem>>, parse: string -> Option<Json>)
    ensures (OnboardAnswer(query, jobTitle, specialization, annotate, titleSide, fmt1, agent, parse) == Failure(TitleRequired))
              <==> !TruthyOpt(query) && !TruthyOpt(jobTitle)
    ensures !TruthyOpt(query) && TruthyOpt(jobTitle) && TitleSpecDetails(jobTitle.value, specialization, annotate, titleSide, fmt1).Some? ==>
              OnboardAnswer(query, jobTitle, specialization, annotate, titleSide, fmt1, agent, parse)
                == OnboardAnswer(query, jobTitle, specialization, annotate, titleSide, fmt1, other, parse)
                == Success(TitleSpecDetails(jobTitle.value, specialization, annotate, titleSide, fmt1).value)
    ensures TruthyOpt(query) ==>
              OnboardAnswer(query, jobTitle, specialization, annotate, titleSide, fmt1, agent, parse)
                == OnboardAnswer(query, jobTitle, specialization, otherCatalog, titleSide, fmt1, agent, parse)
  {
  }

  /** `run_onboard_agent`: cached by title, specialization and question; only answers produced are stored. */
  method RunOnboardAgent(cache: Cache, query: Option<string>, jobTitle: Option<string>, specialization: Option<string>,
                         annotate: (JobField, string) -> seq<Scored<JobItem>>, titleSide: bool, fmt1: real -> string,
                         agent: string -> Option<string>, parse: string -> Option<Json>)
    returns (r: Result<Json, OnboardError>)
    modifies cache
    ensures var key := OnboardCacheKey(query, jobTitle, specialization);
            Hit(old(cache.store), key) ==> r == Success(old(cache.store)[key]) && cache.store == old(cache.store)
    ensures var key := OnboardCacheKey(query, jobTitle, specialization);
            !Hit(old(cache.store), key) ==>
              r == OnboardAnswer(query, jobTitle, specialization, annotate, titleSide, fmt1, agent, parse)
              && cache.store == if r.Success? then old(cache.store)[key := r.value] else old(cache.store)
  {
    var key := OnboardCacheKey(query, jobTitle, specialization);
    var cached := cache.Get(key);
    if Truthy(cached) {
      return Success(cached);
    }
    if !TruthyOpt(query) {
      if !TruthyOpt(jobTitle) {
        return Failure(TitleRequired);
      }
      var jobDetails := TitleSpecDetails(jobTitle.value, specialization, annotate, titleSide, fmt1);
      if jobDetails.Some? {
        cache.Set(key, jobDetails.value);
        return Success(jobDetails.value);
      }
    }
    var fullQuery := FullQuery(query, jobTitle, specialization);
    var data := agent(fullQuery).GetOr("{}");
    var finalResult := parse(JsonSpan(data));
    if finalResult.None? {
      return Failure(MalformedJson);
    }
    cache.Set(key, finalResult.value);
    r := Success(finalResult.value);
  }
}
