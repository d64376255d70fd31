/**
 * The skill agent: three cached catalog-search tools over the skill catalog
 * and the cached entry point that personalises the query with the user's
 * classified feedback, runs the agent, falls back to summarising the
 * agent's steps when it hit its iteration limit, and parses the JSON answer.
 */
module SkillAgent {
  import opened Wrappers
  import opened JsonValue
  import opened PyStr
  import opened ResponseCache
  import opened Ranking
  import opened Extraction
  import opened Tags

  /** A `SkillCatalog` row. */
  datatype SkillItem = SkillItem(title: string, tags: seq<string>, kind: string, url: string)

  /** The embedding column a search compares against. */
  datatype SkillField = TitleVector | TypeVector | TagsVector

  const Threshold: real := 0.8
  const Limit: nat := 5

  /**
   * `vector_fuzzy_search(query, field)`. `annotate(field, query)` stands for
   * the catalog rows whose `field` embedding is set, each with its cosine
   * distance to the query's embedding, in table order.
   */
  function SkillSearch(annotate: (SkillField, string) -> seq<Scored<SkillItem>>, field: SkillField, query: string)
    : seq<Scored<SkillItem>>
  {
    FuzzySearch(annotate(field, query), Threshold, Limit)
  }

  /**
   * At most five rows come back, each under distance 0.8 (similarity above
   * 0.2), closest first; none come back exactly when no row is under 0.8.
   */
  lemma SkillSearchCorrect(annotate: (SkillField, string) -> seq<Scored<SkillItem>>, field: SkillField, query: string)
    ensures var r := SkillSearch(annotate, field, query);
            && |r| <= 5
            && (forall m :: 0 <= m < |r| ==> r[m].distance < 0.8 && 1.0 - r[m].distance > 0.2)
            && (forall a, b :: 0 <= a < b < |r| ==> r[a].distance <= r[b].distance)
            && (r == [] <==> forall j :: 0 <= j < |annotate(field, query)| ==> annotate(field, query)[j].distance >= 0.8)
  {
    FuzzySearchCorrect(annotate(field, query), Threshold, Limit);
    FuzzySearchEmpty(annotate(field, query), Threshold, Limit);
  }

  /** The text searched for: the tags tool normalises its comma-separated input first. */
  function SearchQuery(field: SkillField, input: string): string {
    if field == TagsVector then NormalizeTags(input) else input
  }

  /** The cache key of each tool. */
  function ToolKey(field: SkillField, input: string): string {
    match field
    case TitleVector => "find_similar_skill_titles_" + input
    case TypeVector => "find_similar_skill_types_" + input
    case TagsVector => "find_skills_with_relevant_tags_" + input
  }

  /** The reply of each tool when nothing is close enough; it quotes the input as given. */
  function NotFound(field: SkillField, input: string): string {
    match field
    case TitleVector => "No similar skills found for '" + input + "'"
    case TypeVector => "No similar skill types found for '" + input + "'"
    case TagsVector => "No skills found with relevant tags for '" + input + "'"
  }

  /**
   * One line per match; `fmt2` renders `1 - distance` with two decimals.
   * The title tool shows at most the first three tags, the tags tool all of them.
   */
  function Line(field: SkillField, m: Scored<SkillItem>, fmt2: real -> string): string {
    var s := m.item;
    var tail := " - URL: " + s.url + " (Similarity: " + fmt2(1.0 - m.distance) + ")";
    match field
    case TitleVector => s.title + " - Type: " + s.kind + " - Tags: " + Join(Take(s.tags, 3), ", ") + tail
    case TypeVector => s.title + " - Type: " + s.kind + tail
    case TagsVector => s.title + " - Tags: " + Join(s.tags, ", ") + " - Type: " + s.kind + tail
  }

  function Lines(field: SkillField, matches: seq<Scored<SkillItem>>, fmt2: real -> string): seq<string> {
    seq(|matches|, k requires 0 <= k < |matches| => Line(field, matches[k], fmt2))
  }

  /** The text a tool returns for the matches found. */
  function ToolText(field: SkillField, input: string, matches: seq<Scored<SkillItem>>, fmt2: real -> string): string {
    if |matches| == 0 then NotFound(field, input) else Join(Lines(field, matches, fmt2), "\n")
  }

  /** What a tool computes on a cache miss. */
  function ToolResult(field: SkillField, input: string, annotate: (SkillField, string) -> seq<Scored<SkillItem>>,
                      fmt2: real -> string): string
  {
    ToolText(field, input, SkillSearch(annotate, field, SearchQuery(field, input)), fmt2)
  }

  /** No tool ever answers with an empty text, so every answer it stores is served from the cache afterwards. */
  lemma ToolTextNonEmpty(field: SkillField, input: string, matches: seq<Scored<SkillItem>>, fmt2: real -> string)
    ensures ToolText(field, input, matches, fmt2) != ""
    ensures Truthy(JStr(ToolText(field, input, matches, fmt2)))
  {
    if |matches| > 0 {
      var lines := Lines(field, matches, fmt2);
      JoinStartsWithFirst(lines, "\n");
      assert |lines[0]| > 0;
    }
  }

  /** None of the texts a line is built from contains a line break. */
  predicate SingleLine(field: SkillField, m: Scored<SkillItem>, fmt2: real -> string) {
    && '\n' !in m.item.title && '\n' !in m.item.kind && '\n' !in m.item.url
    && (forall t :: 0 <= t < |m.item.tags| ==> '\n' !in m.item.tags[t])
    && '\n' !in fmt2(1.0 - m.distance)
  }

  lemma LineHasNoBreak(field: SkillField, m: Scored<SkillItem>, fmt2: real -> string)
    requires SingleLine(field, m, fmt2)
    ensures '\n' !in Line(field, m, fmt2)
  {
    match field
    case TitleVector => JoinAvoids(Take(m.item.tags, 3), ", ", '\n');
    case TypeVector =>
    case TagsVector => JoinAvoids(m.item.tags, ", ", '\n');
  }

  /**
   * When no field contains a line break, a non-empty result reads back as
   * exactly one line per match, in the order the search returned them.
   */
  lemma ToolTextLines(field: SkillField, input: string, matches: seq<Scored<SkillItem>>, fmt2: real -> string)
    requires |matches| > 0
    requires forall k :: 0 <= k < |matches| ==> SingleLine(field, matches[k], fmt2)
    ensures Split(ToolText(field, input, matches, fmt2), '\n') == Lines(field, matches, fmt2)
  {
    var lines := Lines(field, matches, fmt2);
    forall k | 0 <= k < |lines| ensures '\n' !in lines[k] {
      LineHasNoBreak(field, matches[k], fmt2);
    }
    SplitJoin(lines, '\n');
  }

  /**
   * `find_similar_skill_titles`, `find_similar_skill_types` and
   * `find_skills_with_relevant_tags`, which differ only in the column
   * searched, the key prefix and the line format.
   */
  method FindSkills(cache: Cache, field: SkillField, input: string,
                    annotate: (SkillField, string) -> seq<Scored<SkillItem>>, fmt2: real -> string)
    returns (r: Json)
    modifies cache
    ensures Cached(r, cache.store)
              == CacheOrCompute(old(cache.store), ToolKey(field, input), JStr(ToolResult(field, input, annotate, fmt2)))
  {
    var key := ToolKey(field, input);
    var cached := cache.Get(key);
    if Truthy(cached) {
      return cached;
    }
    var matches := SkillSearch(annotate, field, SearchQuery(field, input));
    var result: string;
    if |matches| == 0 {
      result := NotFound(field, input);
    } else {
      result := Join(Lines(field, matches, fmt2), "\n");
    }
    cache.Set(key, JStr(result));
    r := JStr(result);
  }

  /** The strengths and improvements `classify_feedback` extracts (a missing key is an empty list). */
  datatype Classified = Classified(strengths: seq<string>, improvements: seq<string>)

  /** What the agent run hands back: its `output`, if any, and its intermediate steps as text. */
  datatype AgentRun = AgentRun(output: Option<string>, steps: seq<string>)

  /** Raised by `APIUser.objects.get` for an unknown email, and by `json.loads`. */
  datatype SkillError = UserNotFound | MalformedJson

  function FeedbackContext(c: Classified): string {
    "User feedback insights - Strengths: " + Join(c.strengths, ", ")
    + ", Areas for Improvement: " + Join(c.improvements, ", ") + ". "
  }

  /**
   * The query the agent receives: prefixed with the classified feedback
   * when an email is given and the user has feedback. `feedbacksOf(email)`
   * is the user's feedback list, or None for an unknown email.
   */
  function PersonalizedQuery(query: string, email: Option<string>, feedbacksOf: string -> Option<seq<string>>,
                             classify: seq<string> -> Classified): Result<string, SkillError>
  {
    if !TruthyOpt(email) then Success(query)
    else match feedbacksOf(email.value)
      case None => Failure(UserNotFound)
      case Some(fbs) => if |fbs| > 0 then Success(FeedbackContext(classify(fbs)) + query) else Success(query)
  }

  /**
   * The user's own query always ends the agent's input; it is changed
   * exactly when an email is given and that user has feedback, and the
   * classifier is consulted only then.
   */
  lemma PersonalizedQueryCorrect(query: string, email: Option<string>, feedbacksOf: string -> Option<seq<string>>,
                                 classify: seq<string> -> Classified, other: seq<string> -> Classified)
    ensures var q := PersonalizedQuery(query, email, feedbacksOf, classify);
            && (q.Failure? <==> TruthyOpt(email) && feedbacksOf(email.value).None?)
            && (q.Success? ==> |query| <= |q.value| && q.value[|q.value| - |query|..] == query)
            && (q.Success? ==> (q.value == query <==> !(TruthyOpt(email) && |feedbacksOf(email.value).value| > 0)))
            && (q != PersonalizedQuery(query, email, feedbacksOf, other) ==>
                  TruthyOpt(email) && feedbacksOf(email.value).Some? && |feedbacksOf(email.value).value| > 0)
  {
    var q := PersonalizedQuery(query, email, feedbacksOf, classify);
    if q.Success? && q.value != query {
      var fbs := feedbacksOf(email.value).value;
      var ctx := FeedbackContext(classify(fbs));
      assert q.value == ctx + query;
    }
  }

  const MaxIterationsMessage := "Agent stopped due to max iterations."

  function StepLine(i: nat, step: string): string {
    "Step " + NatToString(i + 1) + ": " + step
  }

  /** The steps, numbered from 1, one per line. */
  function StepsText(steps: seq<string>): string {
    Join(seq(|steps|, i requires 0 <= i < |steps| => StepLine(i, steps[i])), "\n")
  }

  const SummaryInstructions := "Compile all gathered information into a JSON format. Do not invent any new resources or use placeholder/examples for resources (so do not give or use example.com or similar urls). The JSON object should have a 'skills' array, where each item has 'title', 'description', 'learning_outcomes', and a 'resources' array. Each resource should have 'title', 'url', and 'type'. Also include an 'explanation' string."

  /** The prompt that asks the summariser to compile the steps into the JSON answer. */
  function SummaryPrompt(steps: seq<string>): string {
    "Based on the reasoning so far:\n" + StepsText(steps) + "\n\n" + SummaryInstructions
  }

  /**
   * When no step contains a line break, the step listing reads back as one
   * line per step, numbered from 1 in order.
   */
  lemma StepsTextLines(steps: seq<string>)
    requires |steps| >= 1
    requires forall i :: 0 <= i < |steps| ==> '\n' !in steps[i]
    ensures var lines := Split(StepsText(steps), '\n');
            && |lines| == |steps|
            && forall i :: 0 <= i < |steps| ==>
                 lines[i] == StepLine(i, steps[i]) && DigitsValue(NatToString(i + 1)) == i + 1
  {
    var lines := seq(|steps|, i requires 0 <= i < |steps| => StepLine(i, steps[i]));
    forall i | 0 <= i < |steps| ensures '\n' !in lines[i] && DigitsValue(NatToString(i + 1)) == i + 1 {
      var d := NatToString(i + 1);
      assert lines[i] == "Step " + d + ": " + steps[i];
      assert forall k :: 0 <= k < |d| ==> d[k] != '\n';
      NatToStringValue(i + 1);
    }
    SplitJoin(lines, '\n');
    assert "\n" == ['\n'];
    assert StepsText(steps) == Join(lines, "\n");
    assert Split(StepsText(steps), '\n') == lines;
  }

  /**
   * The agent's final text: its output (`"{}"` when it has none), or, when
   * it stopped at the iteration limit after taking steps, the summariser's
   * answer to a prompt listing those steps.
   */
  function FinalOutput(run: AgentRun, summarize: string -> string): string {
    var output := run.output.GetOr("{}");
    if output == MaxIterationsMessage && |run.steps| > 0 then summarize(SummaryPrompt(run.steps)) else output
  }

  /** The summariser is consulted only for a run stopped at the limit with steps; otherwise the output stands. */
  lemma FinalOutputFallback(run: AgentRun, summarize: string -> string, other: string -> string)
    ensures FinalOutput(run, summarize) != FinalOutput(run, other) ==>
              run.output == Some(MaxIterationsMessage) && |run.steps| > 0
    ensures run.output.Some? && run.output.value != MaxIterationsMessage ==>
              FinalOutput(run, summarize) == run.output.value
    ensures run.output == Some(MaxIterationsMessage) && run.steps == [] ==>
              FinalOutput(run, summarize) == MaxIterationsMessage
  {
  }

  /** `f"skill_agent_{email}_{query}"`, with the query as the caller gave it. */
  function SkillCacheKey(email: Option<string>, query: string): string {
    "skill_agent_" + ShowOpt(email) + "_" + query
  }

  /** What `run_skill_agent` computes on a cache miss: the parsed answer, or the exception raised. */
  function SkillAnswer(query: string, email: Option<string>, feedbacksOf: string -> Option<seq<string>>,
                       classify: seq<string> -> Classified, agent: string -> AgentRun,
                       summarize: string -> string, parse: string -> Option<Json>): Result<Json, SkillError>
  {
    match PersonalizedQuery(query, email, feedbacksOf, classify)
    case Failure(e) => Failure(e)
    case Success(q) =>
      match ParseOnce(FinalOutput(agent(q), summarize), parse)
      case None => Failure(MalformedJson)
      case Some(v) => Success(v)
  }

  /** `run_skill_agent`: cached by the original query; only a parsed answer is stored. */
  method RunSkillAgent(cache: Cache, query: string, email: Option<string>,
                       feedbacksOf: string -> Option<seq<string>>, classify: seq<string> -> Classified,
                       agent: string -> AgentRun, summarize: string -> string, parse: string -> Option<Json>)
    returns (r: Result<Json, SkillError>)
    modifies cache
    ensures var key := SkillCacheKey(email, query);
            Hit(old(cache.store), key) ==> r == Success(old(cache.store)[key]) && cache.store == old(cache.store)
    ensures var key := SkillCacheKey(email, query);
            !Hit(old(cache.store), key) ==>
              r == SkillAnswer(query, email, feedbacksOf, classify, agent, summarize, parse)
              && cache.store == if r.Success? then old(cache.store)[key := r.value] else old(cache.store)
  {
    var key := SkillCacheKey(email, query);
    var cached := cache.Get(key);
    if Truthy(cached) {
      return Success(cached);
    }
    var input := query;
    if TruthyOpt(email) {
      var user := feedbacksOf(email.value);
      if user.None? {
        return Failure(UserNotFound);
      }
      if |user.value| > 0 {
        var classified := classify(user.value);
        input := FeedbackContext(classified) + query;
      }
    }
    assert PersonalizedQuery(query, email, feedbacksOf, classify) == Success(input);
    var run := agent(input);
    var output := run.output.GetOr("{}");
    if output == MaxIterationsMessage && |run.steps| > 0 {
      output := summarize(SummaryPrompt(run.steps));
    }
    assert output == FinalOutput(run, summarize);
    var finalResult := parse(JsonSpan(output));
    assert finalResult == ParseOnce(FinalOutput(run, summarize), parse);
    if finalResult.None? {
      return Failure(MalformedJson);
    }
    cache.Set(key, finalResult.value);
    r := Success(finalResult.value);
  }
}
