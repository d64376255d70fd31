/**
 * The coordinator: a cached entry point that runs the tool-calling agent,
 * extracts a JSON object from its final text and, when that text is
 * malformed, makes one repair attempt; and the tools it offers the agent,
 * each of which turns every exception of the agent behind it into text.
 */
module Coordinator {
  import opened Wrappers
  import opened JsonValue
  import opened PyStr
  import opened ResponseCache
  import opened Extraction

  /** `f"coordinator_response_{user_email}_{user_input}"` */
  function CacheKey(userEmail: string, userInput: string): (key: string)
    ensures "coordinator_response_" <= key
    ensures |key| == |"coordinator_response_"| + |userEmail| + 1 + |userInput|
  {
    "coordinator_response_" + userEmail + "_" + userInput
  }

  /**
   * Requests from emails of the same length (in particular, from the same
   * user) share a key only when they are the same request.
   */
  lemma CacheKeySeparatesUsers(e1: string, e2: string, i1: string, i2: string)
    requires |e1| == |e2| && CacheKey(e1, i1) == CacheKey(e2, i2)
    ensures e1 == e2 && i1 == i2
  {
    var p := |"coordinator_response_"|;
    assert e1 == CacheKey(e1, i1)[p..p + |e1|];
    assert e2 == CacheKey(e2, i2)[p..p + |e2|];
    assert i1 == CacheKey(e1, i1)[p + |e1| + 1..];
    assert i2 == CacheKey(e2, i2)[p + |e2| + 1..];
  }

  /**
   * Without the equal-length condition the key is ambiguous: an email that
   * contains `_` and an input can share a key with another email and input,
   * so one user can be served another user's cached answer.
   */
  lemma CacheKeyCollision()
    ensures CacheKey("a_b", "c") == CacheKey("a", "b_c")
    ensures "a_b" != "a"
  {
    assert CacheKey("a_b", "c") == "coordinator_response_a_b_c";
    assert CacheKey("a", "b_c") == "coordinator_response_a_b_c";
  }

  /** Raised when the repaired text still does not parse (`json.JSONDecodeError`). */
  datatype CoordinatorError = MalformedJson

  /**
   * `invoke_coordinator`. The agent run is the oracle `execute(email, input)`
   * returning the agent's final text; `repair` is the JSON-repair model and
   * `parse` is `json.loads`. `agentRuns` and `repairCalls` count the calls
   * made to the two models.
   */
  method InvokeCoordinator(cache: Cache, userInput: string, userEmail: string,
                           execute: (string, string) -> string, repair: string -> string,
                           parse: string -> Option<Json>)
    returns (r: Result<Json, CoordinatorError>, agentRuns: nat, repairCalls: nat)
    modifies cache
    ensures var key := CacheKey(userEmail, userInput);
            Hit(old(cache.store), key) ==>
              r == Success(old(cache.store)[key]) && agentRuns == 0 && repairCalls == 0
              && cache.store == old(cache.store)
    ensures var key := CacheKey(userEmail, userInput);
            !Hit(old(cache.store), key) ==>
              agentRuns == 1
              && match ParseWithRepair(execute(userEmail, userInput), repair, parse)
                 case Parsed(v, k) =>
                   r == Success(v) && repairCalls == k && cache.store == old(cache.store)[key := v]
                 case Malformed(k) =>
                   r == Failure(MalformedJson) && repairCalls == k && cache.store == old(cache.store)
  {
    var key := CacheKey(userEmail, userInput);
    var cached := cache.Get(key);
    if Truthy(cached) {
      return Success(cached), 0, 0;
    }
    agentRuns := 1;
    var outputText := execute(userEmail, userInput);
    var jsonStr := JsonSpan(outputText);
    var first := parse(jsonStr);
    if first.Some? {
      cache.Set(key, first.value);
      return Success(first.value), agentRuns, 0;
    }
    repairCalls := 1;
    var fixedJson := repair(jsonStr);
    var second := parse(JsonSpan(fixedJson));
    if second.None? {
      return Failure(MalformedJson), agentRuns, repairCalls;
    }
    cache.Set(key, second.value);
    r := Success(second.value);
  }

  /**
   * Repeating a request whose first answer was stored: the second call runs
   * no model and returns the first answer. A stored answer is truthy unless
   * it is an empty object, list or string, or null, zero or false.
   */
  lemma RepeatedRequest(store: map<string, Json>, userEmail: string, userInput: string,
                        execute: (string, string) -> string, repair: string -> string,
                        parse: string -> Option<Json>)
    requires !Hit(store, CacheKey(userEmail, userInput))
    requires ParseWithRepair(execute(userEmail, userInput), repair, parse).Parsed?
    ensures var v := ParseWithRepair(execute(userEmail, userInput), repair, parse).value;
            var after := store[CacheKey(userEmail, userInput) := v];
            Truthy(v) ==> Hit(after, CacheKey(userEmail, userInput)) && after[CacheKey(userEmail, userInput)] == v
  {
  }

  /** What a sub-agent call did: returned text, or raised an exception with this message. */
  datatype Outcome = Returned(text: string) | Raised(message: string)

  /** `try: return call() except Exception as e: return f"Error in {what}: {e}. {advice}"` */
  function Guarded(what: string, advice: string, o: Outcome): string {
    match o
    case Returned(text) => text
    case Raised(e) => "Error in " + what + ": " + e + ". " + advice
  }

  /** `json_tool`: the input is handed back unchanged. */
  function JsonTool(toolInput: string): (r: string)
    ensures r == toolInput
  {
    toolInput
  }

  /** What `APIUser.objects.get` raises when the email is unknown. */
  const UserMissing := "APIUser matching query does not exist."

  /** The profile fields the onboarding tool forwards. */
  datatype Profile = Profile(jobTitle: Option<string>, specialization: Option<string>)

  /** The names and advice each tool puts into its error text. */
  const OnboardName := "onboarding agent"
  const OnboardAdvice := "Unable to process onboarding request."
  const SkillName := "skill agent"
  const SkillAdvice := "Unable to process skill development request."
  const OpportunityName := "opportunity agent"
  const OpportunityAdvice := "Unable to find mentors."
  const FeedbackName := "feedback agent"
  const FeedbackAdvice := "Unable to classify feedback."
  const SummaryName := "feedback summarization"
  const SummaryAdvice := "Unable to generate feedback insights."

  /**
   * `onboard_agent_tool`: look the user up, then run the onboarding agent
   * on the query with the user's job title and specialization.
   */
  function OnboardAgentTool(query: string, user: Option<Profile>,
                            runOnboard: (string, Option<string>, Option<string>) -> Outcome): string
  {
    var o := match user
      case None => Raised(UserMissing)
      case Some(p) => runOnboard(query, p.jobTitle, p.specialization);
    Guarded(OnboardName, OnboardAdvice, o)
  }

  /** `skill_agent_tool`: run the skill agent for the current user. */
  function SkillAgentTool(query: string, userEmail: string, runSkill: (string, string) -> Outcome): string {
    Guarded(SkillName, SkillAdvice, runSkill(query, userEmail))
  }

  const EmailRequired := "User email required for mentor finding. Please provide user context."

  /** `opportunity_agent_tool`: find mentors for the current user; `find` stands for `str(find_mentors_for_improvements(...))`. */
  function OpportunityAgentTool(userEmail: string, topK: int, find: (string, int) -> Outcome): string {
    if userEmail == "" then EmailRequired
    else Guarded(OpportunityName, OpportunityAdvice, find(userEmail, topK))
  }

  const FeedbacksRequired := "Error: 'feedbacks' must be a list of strings containing specific feedback statements."

  /** The argument as a list of strings, when it is one. */
  function AsStrings(v: Json): (r: Option<seq<string>>)
    ensures r.Some? <==> v.JList? && forall k :: 0 <= k < |v.items| ==> v.items[k].JStr?
    ensures r.Some? ==> |r.value| == |v.items| && forall k :: 0 <= k < |r.value| ==> r.value[k] == v.items[k].s
  {
    if v.JList? && forall k :: 0 <= k < |v.items| ==> v.items[k].JStr? then
      Some(seq(|v.items|, k requires 0 <= k < |v.items| => v.items[k].s))
    else None
  }

  /** `feedback_agent_tool`: classify the statements when they are a list of strings. */
  function FeedbackAgentTool(feedbacks: Json, classify: seq<string> -> Outcome): string {
    match AsStrings(feedbacks)
    case None => FeedbacksRequired
    case Some(fs) => Guarded(FeedbackName, FeedbackAdvice, classify(fs))
  }

  /** `summarise_feedback_tool`: summarise the statements when they are a list of strings. */
  function SummariseFeedbackTool(feedbacks: Json, summarise: seq<string> -> Outcome): string {
    match AsStrings(feedbacks)
    case None => FeedbacksRequired
    case Some(fs) => Guarded(SummaryName, SummaryAdvice, summarise(fs))
  }

  /** A list of strings as the JSON argument the agent passes to a feedback tool. */
  function StringList(fs: seq<string>): (v: Json)
    ensures AsStrings(v) == Some(fs)
  {
    var v := JList(seq(|fs|, k requires 0 <= k < |fs| => JStr(fs[k])));
    assert forall k :: 0 <= k < |fs| ==> v.items[k] == JStr(fs[k]);
    assert AsStrings(v).value == fs;
    v
  }

  /**
   * An exception becomes text that names the tool and carries the
   * exception's message; a returned answer is passed on unchanged.
   */
  lemma GuardedReports(what: string, advice: string, o: Outcome)
    ensures o.Raised? ==> "Error in " + what + ": " + o.message <= Guarded(what, advice, o)
    ensures o.Raised? ==> "Error in " <= Guarded(what, advice, o)
    ensures o.Returned? ==> Guarded(what, advice, o) == o.text
  {
  }

  /** No tool lets an exception of the agent behind it through. */
  lemma ToolsReportErrors(query: string, userEmail: string, topK: int, feedbacks: seq<string>, e: string,
                          runOnboard: (string, Option<string>, Option<string>) -> Outcome, p: Profile,
                          runSkill: (string, string) -> Outcome, find: (string, int) -> Outcome,
                          classify: seq<string> -> Outcome, summarise: seq<string> -> Outcome)
    requires runOnboard(query, p.jobTitle, p.specialization) == Raised(e)
    requires runSkill(query, userEmail) == Raised(e)
    requires find(userEmail, topK) == Raised(e) && userEmail != ""
    requires classify(feedbacks) == Raised(e) && summarise(feedbacks) == Raised(e)
    ensures "Error in " + OnboardName + ": " + e <= OnboardAgentTool(query, Some(p), runOnboard)
    ensures "Error in " + SkillName + ": " + e <= SkillAgentTool(query, userEmail, runSkill)
    ensures "Error in " + OpportunityName + ": " + e <= OpportunityAgentTool(userEmail, topK, find)
    ensures "Error in " + FeedbackName + ": " + e <= FeedbackAgentTool(StringList(feedbacks), classify)
    ensures "Error in " + SummaryName + ": " + e <= SummariseFeedbackTool(StringList(feedbacks), summarise)
  {
    GuardedReports(OnboardName, OnboardAdvice, Raised(e));
    GuardedReports(SkillName, SkillAdvice, Raised(e));
    GuardedReports(OpportunityName, OpportunityAdvice, Raised(e));
    GuardedReports(FeedbackName, FeedbackAdvice, Raised(e));
    GuardedReports(SummaryName, SummaryAdvice, Raised(e));
  }

  /** An unknown user is reported by the onboarding tool, whatever the agent would do. */
  lemma OnboardNeedsUser(query: string, runOnboard: (string, Option<string>, Option<string>) -> Outcome)
    ensures OnboardAgentTool(query, None, runOnboard) == Guarded(OnboardName, OnboardAdvice, Raised(UserMissing))
  {
  }

  /**
   * Input checks come first: a missing email or a feedback argument that is
   * not a list of strings yields the fixed message and the agent behind the
   * tool is never consulted.
   */
  lemma ToolsCheckInput(topK: int, feedbacks: Json, find: (string, int) -> Outcome,
                        classify: seq<string> -> Outcome, summarise: seq<string> -> Outcome)
    ensures OpportunityAgentTool("", topK, find) == EmailRequired
    ensures AsStrings(feedbacks).None? ==>
              FeedbackAgentTool(feedbacks, classify) == FeedbacksRequired
              && SummariseFeedbackTool(feedbacks, summarise) == FeedbacksRequired
    ensures (!feedbacks.JList? || exists k :: 0 <= k < |feedbacks.items| && !feedbacks.items[k].JStr?) ==>
              AsStrings(feedbacks).None?
  {
  }
}
