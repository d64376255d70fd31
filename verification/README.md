# AI-Ascent backend core, modelled in Dafny

This project models the deterministic core of the AI-Ascent HR backend, and proves properties of that model. Each agent's language models, embeddings, vector distances, classifiers and JSON parser become function parameters. What remains is the logic around them, which the model states and proves:

- **HR trend endpoints** (`Clustering`, `Trends`). The two integer parameters are parsed and clamped. The items of a time window are clustered greedily: each joins the most similar centroid at similarity 0.85 or above, or else opens a new cluster. Each cluster is summarised by its distinct users, its member count, a representative and its first three samples. The most popular clusters come first, stably sorted and trimmed to `top_n`. Vectors are exact reals, so the incremental centroid update provably keeps the centroid equal to the mean of the members.
- **Mentor arbitration** (`Mentors`). The improvements worth a search are filtered. For each one, a shortlist of other users ranked by distance is built, gated by the safety check, shown to a model, and the model's loosely typed answer is normalised. Exactly one record comes out per improvement.
- **Coordinator and cached agents** (`ResponseCache`, `Extraction`, `FormatString`, `Coordinator`, `SkillAgent`, `OnboardAgent`, `Tags`):
  - a cache where only a truthy stored value counts as a hit;
  - the first-`{` to last-`}` slice, with Python's negative-index semantics;
  - at most one JSON repair in the coordinator, and none in the skill and onboarding agents; the repair prompt as written, whose template is the span itself, parsed as Python parses format strings;
  - tool wrappers that turn exceptions into text;
  - threshold-then-sort-then-take catalog searches, and comma-separated tag normalisation;
  - the near-exact title/specialization catalog shortcut;
  - the query strings each agent builds.
- **Bias filter** (`Safety`). Statements are partitioned by the classifier's label sequence, and an unknown label aborts the call.

The shared modules are:
- `Wrappers`: `Option` and `Result`.
- `JsonValue`: JSON values and Python truthiness.
- `PyStr`: `strip`, `split`, `join`, `find`, `rfind`, slicing, `str(n)` and `int(text)`.
- `Ranking`: a stable sort by key, and filter-sort-take selection.

Where code works by changing state, the model is imperative:
- the cache is a class holding a `map`;
- the clustering, summary, candidate, per-improvement and label loops are methods with loop invariants.

Each of these is proved equal to a specification function, and the properties are proved about that function.

The onboarding agent's docstring (`agents/agents/onboard.py:240-241`) says a catalog match needs similarity above 0.95. The code accepts distance below 0.1, that is similarity above 0.9. The model follows the code.

## Model

| member | source | states |
|---|---|---|
| PyStr.StripEmptyIffBlank | agents/agents/opportunity.py:114 | `s.strip()` is empty exactly when every character of `s` is white space |
| PyStr.StripTrimmed | agents/agents/skill.py:130 | stripped text neither starts nor ends with white space, and stripping twice changes nothing |
| PyStr.JoinSplit | agents/agents/skill.py:130 | joining the pieces of `s.split(sep)` with `sep` restores `s` |
| PyStr.SplitJoin | agents/agents/skill.py:252-254 | splitting a join of separator-free pieces gives the pieces back |
| PyStr.JoinAvoids | agents/agents/onboard.py:75-80 | a character absent from the pieces and the separator is absent from the join |
| PyStr.Find | agents/agents/cordinator.py:294 | `find` gives the first position of the character, or -1 exactly when it is absent |
| PyStr.RFind | agents/agents/cordinator.py:294 | `rfind` gives the last position of the character, or -1 exactly when it is absent |
| PyStr.NatToStringValue | agents/agents/skill.py:253 | `str(n)` is a digit string that denotes `n` |
| PyStr.ParseIntRoundTrip | api/views/hr_admin.py:30 | `int(str(i)) == i` for every integer, negative ones included |
| Ranking.StableOrderCorrect | api/views/hr_admin.py:144 | the sort order is a permutation of the positions, ascending by key, ties by original position |
| Ranking.SelectTopCorrect | agents/agents/opportunity.py:126-133 | at most k eligible positions in key order; an eligible position is left out only when k positions no further away were kept |
| Ranking.FuzzySearchCorrect | agents/agents/skill.py:53-66 | results are under the threshold, at most `limit`, closest first, and complete up to the limit |
| Ranking.FuzzySearchEmpty | agents/agents/onboard.py:42-55 | with a positive limit the search is empty exactly when no row is under the threshold |
| Ranking.ClosestFirstCorrect | agents/agents/onboard.py:182 | sorting by distance rearranges the rows by a permutation of their positions, so each row keeps its multiplicity, and the result is in non-decreasing distance |
| ResponseCache.HitIgnoresComputation | agents/agents/cordinator.py:282-285 | on a truthy cached value, the answer and the store do not depend on what would have been computed |
| ResponseCache.SecondCall | agents/agents/onboard.py:70-81 | a repeated call returns a truthy first answer unchanged; a falsy one, such as the empty tool text, is recomputed |
| ResponseCache.OtherKeysUntouched | agents/agents/skill.py:90 | a cached operation writes only its own key |
| ResponseCache.Cache.Get | agents/agents/skill.py:76-78 | the lookup answers the stored value, or null when the key is absent, and it is truthy exactly on a hit |
| ResponseCache.Cache.Set | agents/agents/skill.py:90 | storing updates exactly the one key |
| Extraction.JsonSpanCases | agents/agents/cordinator.py:294 | the four cases of the slice: from `{` to the last `}`; empty when `}` comes first; `"}"` when there is no `{` and the text ends in `}`; otherwise empty |
| Extraction.JsonSpanDelimited | agents/agents/cordinator.py:294 | a non-empty span found after a `{` starts with `{` and ends with `}` |
| Extraction.RepairBounded | agents/agents/cordinator.py:293-325 | at most one repair call, none exactly when the first parse succeeds (the repair then plays no part), and failure only when both parses fail |
| Extraction.HumanTemplateAsWritten | agents/agents/cordinator.py:300-319 | the span is the human message template: brace-free text renders unchanged; a malformed brace anywhere raises the format-string error (a lone `}` raises the single-`}` error); a span opening a malformed field or a field other than `json_str` raises, with the missing-variable error when the whole span parses |
| Extraction.AsWrittenAgrees | agents/agents/cordinator.py:293-325 | as written, the repair step agrees with the intended one when the first parse succeeds or the span holds no brace |
| Extraction.ForeignFieldRaises | agents/agents/cordinator.py:300-319 | as written, an unparsable span that opens a field other than `json_str` raises before the repair model is called: with the format-string error when a brace anywhere in it is malformed, and with the missing-variable error otherwise |
| Extraction.MalformedObjectRaises | agents/agents/cordinator.py:300-319 | the object with a trailing comma raises the missing-variable error before any repair call as written, while the intended step makes exactly one repair call |
| Extraction.ClosingBraceRaises | agents/agents/cordinator.py:294-319 | text ending in `}` with no `{` gives the span `}`, which raises before any repair call as written; the intended step makes one repair call |
| Extraction.DoubledCloseRaises | agents/agents/cordinator.py:300-319 | the object followed by a stray `}` raises the single-`}` error before any repair call as written, while the intended step makes exactly one repair call |
| Extraction.TrailingCommaTemplate | agents/agents/cordinator.py:314 | the trailing-comma object parses as a template whose only variable is `"message"` |
| Extraction.DoubledCloseTemplate | agents/agents/cordinator.py:314 | the object with a doubled `}` fails the format-string parse with the single-`}` error |
| FormatString.ParseTemplate | agents/agents/cordinator.py:314 | the template parse: text without braces is one literal with no fields; a lone `}` is rejected |
| FormatString.OpeningField | agents/agents/cordinator.py:314 | a template opening a field at its first character fails as that field fails, or yields that field's name first |
| FormatString.SingleFieldTemplate | agents/agents/cordinator.py:314 | `{name: spec}` with plain name and spec declares exactly the variable `name` |
| FormatString.FieldThenSingleClose | agents/agents/cordinator.py:314 | `{name: spec}}` fails with the single-`}` error |
| Extraction.ParseOnceAgrees | agents/agents/skill.py:268-273 | the single-parse pipeline agrees with the repairing one whenever the first parse succeeds |
| Coordinator.CacheKey | agents/agents/cordinator.py:282 | the key starts with `coordinator_response_` and its length accounts for email, separator and input |
| Coordinator.CacheKeySeparatesUsers | agents/agents/cordinator.py:282 | for emails of one length, equal keys mean the same email and the same input |
| Coordinator.CacheKeyCollision | agents/agents/cordinator.py:282 | without that condition the key is ambiguous: email `a_b` with input `c` and email `a` with input `b_c` share a key, so one user can be served another's cached answer |
| Coordinator.InvokeCoordinator | agents/agents/cordinator.py:268-325 | a hit returns the stored value with no model call; a miss runs the agent once, repairs at most once, and caches only a parsed answer |
| Coordinator.RepeatedRequest | agents/agents/cordinator.py:296 | after a truthy answer is stored, the same request hits and gets that answer |
| Coordinator.JsonTool | agents/agents/cordinator.py:106-109 | the `json` tool returns its input unchanged |
| Coordinator.AsStrings | agents/agents/cordinator.py:209-211 | the argument is accepted exactly when it is a list whose elements are all strings, and then its strings are passed on in order |
| Coordinator.GuardedReports | agents/agents/cordinator.py:130-134 | an exception becomes text starting `Error in <tool>: <message>`; a returned answer passes unchanged |
| Coordinator.ToolsReportErrors | agents/agents/cordinator.py:113-244 | every tool turns its agent's exception into text naming the tool and carrying the message |
| Coordinator.OnboardNeedsUser | agents/agents/cordinator.py:131-132 | an unknown user is reported as the lookup's error text, whatever the agent would do |
| Coordinator.ToolsCheckInput | agents/agents/cordinator.py:183-240 | an empty email or a feedback argument that is not a list of strings gets the fixed message, and the agent behind the tool is not consulted |
| Safety.FirstUnknown | agents/agents/safety.py:55-64 | finds the first position whose label is neither `hate` nor `nothate`, or none exactly when every label is known |
| Safety.SelectMembers | agents/agents/safety.py:57-62 | a statement is in a list exactly when some position holds it with that list's label |
| Safety.SelectPartition | agents/agents/safety.py:52-68 | with every label known, the two lists together are a permutation of the input |
| Safety.SelectPrefix | agents/agents/safety.py:57-62 | the lists built from a prefix are prefixes of the final lists, so input order is kept |
| Safety.BiasFilterCorrect | agents/agents/safety.py:52-68 | succeeds exactly when every label is known, and then splits by label with sizes adding up; otherwise reports the first unknown label and its position |
| Safety.FilterFeedbackForBias | agents/agents/safety.py:52-68 | the loop returns exactly the specified split or the first unknown label |
| Tags.NormalizeTagsNoComma | agents/agents/skill.py:130 | normalised tags contain no comma |
| Tags.NormalizeJoinedTags | agents/agents/onboard.py:116 | trimmed, comma-free tags joined with commas are normalised to the same tags joined with spaces |
| SkillAgent.SkillSearchCorrect | agents/agents/skill.py:53-66 | at most five rows, each under distance 0.8, closest first; empty exactly when no row is under 0.8 |
| SkillAgent.ToolTextNonEmpty | agents/agents/skill.py:81-89 | no skill tool answers with empty text, so every stored answer counts as a hit later |
| SkillAgent.ToolTextLines | agents/agents/skill.py:84-89 | when no field breaks a line, the answer reads back as one line per match, in search order |
| SkillAgent.FindSkills | agents/agents/skill.py:70-91 | the three skill tools behave as get-or-compute under their own key |
| SkillAgent.PersonalizedQueryCorrect | agents/agents/skill.py:236-241 | the query always ends the input; it is prefixed exactly when an email is given and that user has feedback; an unknown user raises |
| SkillAgent.StepsTextLines | agents/agents/skill.py:252-254 | the steps listing has one line per step, numbered from 1 in order |
| SkillAgent.FinalOutputFallback | agents/agents/skill.py:245-265 | the summariser is used only when the output is exactly the iteration-limit message and there are steps |
| SkillAgent.RunSkillAgent | agents/agents/skill.py:223-275 | a hit returns the stored value; a miss personalises, runs, extracts and parses once, and caches only a parsed answer |
| OnboardAgent.JobSearchCorrect | agents/agents/onboard.py:42-55 | at most three rows, each under distance 0.8, closest first; empty exactly when no row is under 0.8 |
| OnboardAgent.ToolTextEmptyIffNoMatch | agents/agents/onboard.py:65-82 | a job tool answers `""` exactly when nothing is close; whatever the store held, storing that `""` never turns a miss into a hit |
| OnboardAgent.FindJobs | agents/agents/onboard.py:65-125 | the three job tools behave as get-or-compute under their own key |
| OnboardAgent.DetailsStartWithTitle | agents/agents/onboard.py:141-151 | after stripping, the details begin with the job's `Title:` line |
| OnboardAgent.JobDetailsCorrect | agents/agents/onboard.py:129-157 | with a match, the answer is exactly the details text of the closest title match; with none, it is exactly `No similar job found for '<title>'.`; the answer is never empty |
| OnboardAgent.GetJobDetails | agents/agents/onboard.py:129-157 | `get_job_details` is get-or-compute under `get_job_details_<title>` |
| OnboardAgent.Shared | agents/agents/onboard.py:181 | keeps exactly the rows whose key is in the other set |
| OnboardAgent.IntersectShared | agents/agents/onboard.py:181 | the intersection holds rows of either search whose key both found, and every such key, whichever side survives |
| OnboardAgent.NearExactPickCorrect | agents/agents/onboard.py:182-195 | a catalog pick exists exactly when some shared row is under distance 0.1, and it is a closest shared row |
| OnboardAgent.CatalogAnswer | agents/agents/onboard.py:187-193 | the catalog answer is a non-empty object, so storing it makes later calls hit |
| OnboardAgent.OnboardAnswerRoutes | agents/agents/onboard.py:248-272 | with neither question nor title it raises; a catalog match answers without the agent; with a question the catalog is not used |
| OnboardAgent.RunOnboardAgent | agents/agents/onboard.py:236-274 | a hit returns the stored value; a miss answers as specified and caches only an answer produced |
| Clustering.IncrementalMean | api/views/hr_admin.py:113-115 | `c + (v - c)/n` turns the mean of n-1 members into the mean of n members |
| Clustering.SingletonMean | api/views/hr_admin.py:117-121 | a new cluster is well formed: its centroid is its one member's vector, and its users are that member's id |
| Clustering.AbsorbInv | api/views/hr_admin.py:109-115 | joining a cluster keeps its users equal to its members' ids and its centroid equal to their mean |
| Clustering.PopularityBounds | api/views/hr_admin.py:126 | a well-formed cluster has at least one and at most `members_count` distinct users |
| Clustering.ScanCorrect | api/views/hr_admin.py:102-108 | the strict `>` scan from -1.0 finds the earliest maximal similarity, or nothing when all are at most -1 |
| Clustering.AssignPlacement | api/views/hr_admin.py:101-121 | an item joins the earliest most-similar cluster when it reaches 0.85, and otherwise opens a new cluster at the end |
| Clustering.ClusterAllInv | api/views/hr_admin.py:101-121 | every cluster produced is non-empty, with users equal to its members' ids and centroid equal to their mean |
| Clustering.ClusterAllCount | api/views/hr_admin.py:101-121 | every item lands in exactly one cluster: member counts add up to the number of items |
| Clustering.GreedyCluster | api/views/hr_admin.py:101-121 | the nested loops compute exactly the specified clustering |
| Trends.ParseParam | api/views/hr_admin.py:27-32 | absent gives the default, an integer is taken as is, and a failure is always `<name> must be an integer` |
| Trends.ParseParamText | api/views/hr_admin.py:30 | a parameter sent as the decimal text of an integer reads back as that integer |
| Trends.Clamp | api/views/hr_admin.py:42-43 | the result lies within the bounds and equals the input when the input does |
| Trends.SummaryCorrect | api/views/hr_admin.py:124-141 | 1 <= popularity <= members; the samples are the first (at most three) labels; the representative is the earliest member most similar to the centroid, or None when no similarity exceeds -1 |
| Trends.ClusterCounts | api/views/hr_admin.py:139 | before trimming, `members_count` adds up to the number of items clustered |
| Trends.ClusterAllNonEmpty | api/views/hr_admin.py:116-121 | a non-empty batch yields at least one cluster |
| Trends.RankCorrect | api/views/hr_admin.py:144-145 | min(#clusters, top_n) rows, from distinct positions, popularity non-increasing, ties in creation order |
| Trends.RankComplete | api/views/hr_admin.py:144-145 | trimming drops only clusters no more popular than every cluster kept |
| Trends.Usable | api/views/hr_admin.py:69-80 | there are no usable items exactly when no row has a readable vector |
| Trends.TrendsErrors | api/views/hr_admin.py:34-39 | a bad `timeframe_days` is reported first, then a bad `top_n`, and a 400 arises only from them |
| Trends.RankedClusters | api/views/hr_admin.py:124-145 | usable items give between 1 and top_n clusters, each with 1 <= popularity <= members |
| Trends.TrendsCorrect | api/views/hr_admin.py:42-88 | window in [1, 60]; at most 200 clusters; none exactly when no row was usable, and then with the stats |
| Trends.CollectItems | api/views/hr_admin.py:66-80 | the loop keeps exactly the readable rows in order |
| Trends.Summarize | api/views/hr_admin.py:124-141 | the loop produces exactly one specified summary per cluster |
| Trends.GlobalTrends | api/views/hr_admin.py:25-151 | the view computes exactly the specified response |
| Mentors.WorthNonBlank | agents/agents/opportunity.py:114 | an entry is worth a search exactly when it is a string that is not all white space |
| Mentors.KeepImprovementsAppend | agents/agents/opportunity.py:111-115 | the filter works piecewise, so kept improvements stay in input order |
| Mentors.KeepImprovementsSound | agents/agents/opportunity.py:111-115 | every kept improvement is a non-blank string entry of the list |
| Mentors.KeepImprovementsComplete | agents/agents/opportunity.py:111-117 | every non-blank string entry is kept; nothing is kept exactly when there is none |
| Mentors.CandidatesCorrect | agents/agents/opportunity.py:126-145 | the shortlist excludes the requester and users without a vector, has at most top_k entries by non-increasing similarity, and is complete up to top_k |
| Mentors.NonEmpty | agents/agents/opportunity.py:64 | exactly the non-empty improvements are joined: each kept entry is a non-empty entry of the input, and every non-empty entry is kept |
| Mentors.NonEmptyAppend | agents/agents/opportunity.py:64 | the filter works piecewise, so kept improvements stay in input order |
| Mentors.ShortlistHead | agents/agents/opportunity.py:64-68 | for one improvement, the prompt reads `Improvements: <it>`, then the header, then the candidate lines |
| Mentors.ShortlistLines | agents/agents/opportunity.py:56-63 | when no field breaks a line, the candidate block has one line per candidate, the k-th tagged `[k]` |
| Mentors.NormalizeIndex | agents/agents/opportunity.py:83-87 | an int index stands, a digit string becomes its value, and any other string or null means no index (intended behaviour, see Findings) |
| Mentors.NormalizeFlag | agents/agents/opportunity.py:89-93 | a truthy `'false'` becomes False, any other truthy flag True, and falsy flags stay |
| Mentors.PickBest | agents/agents/opportunity.py:48-95 | no candidates, or a shortlist that fails the safety gate, means no selection; otherwise the model's answer, normalised |
| Mentors.RecordCorrect | agents/agents/opportunity.py:151-182 | the record is about its improvement; a mentor exactly when no flag is set and the index is in range, copying that candidate; out of range gives the invalid-index reason |
| Mentors.OutcomeAgrees | agents/agents/opportunity.py:83-182 | whenever the code as written does not raise, the intended step yields the same record |
| Mentors.IntegerIndexRaises | agents/agents/opportunity.py:83-85 | an integer index 1 raises as written, but names candidate 1 as intended |
| Mentors.EmptyIndexRaises | agents/agents/opportunity.py:162-163 | an empty-string index raises as written, but means no mentor as intended |
| Mentors.MentorsCorrect | agents/agents/opportunity.py:109-184 | an unknown user fails; no kept improvement gives `[]`; otherwise one record per kept improvement, in order, each about it, and failure only for a negative top_k |
| Mentors.CollectCandidates | agents/agents/opportunity.py:135-145 | the loop builds exactly the specified shortlist |
| Mentors.FindMentorsForImprovements | agents/agents/opportunity.py:98-184 | the loop computes exactly the specified records |

## Left out

- Language models, agent executors and their iteration loop, prompt templates, `classify_feedback`, the prompt-safety check and the hate-speech classifier are not modelled. They become function parameters: the agent's output or steps, the repair answer, the structured selection, the safety verdict and the label sequence.
- Embeddings and pgvector distances are not modelled. Each search takes the catalog rows annotated with their distance to the query. The cosine similarity of the trend views is a function parameter.
- Floating-point arithmetic is not modelled; vectors and distances are exact reals. The `:.1f`, `:.2f` and `round(sim, 3)` renderings are function parameters.
- `json.loads` is not modelled; it is a partial function parameter.
- Cache time-to-live and expiry are not modelled; the cache is a map without a clock.
- The `computed_at` timestamps and the window start computed from the clock are not modelled. The row query is a function of the clamped window.
- `tavily_search` (web search over the network), the agent and model constructors, `agents/agents/feedback.py`, the HTTP views other than the trend endpoints, the URL routing, the permissions and the database models are not modelled: they are I/O, configuration or schema.
- Coordinator.InvokeCoordinator and Extraction.RepairBounded model the intended repair step, in which the extracted span reaches the repair model. As written, the span is itself the template of the repair prompt. An unparsable span with a malformed brace, or with a field other than `json_str`, raises before any repair call, and nothing is cached (see Findings). A span whose only fields are `json_str` is left to the `otherwise` parameter of Extraction.HumanTemplateAsWritten.
- FormatString.ParseTemplate follows the parser of CPython's `str.format`. The LangChain version is not pinned in the repository. The model takes the template variables to be the field names that parse yields, with no further check on them. Versions that also reject variable names holding `.` or `[` raise a different message for such names, but they still raise before the repair call.
- Trends.ParseParam does not model `int()` of a JSON float (truncation toward zero).
- PyStr.IsDigit accepts only ASCII digits. `str.isdigit` and `int()` also accept other Unicode digits, and this is not modelled.
- Mentors.Candidates takes equal distances to come back in table order. SQL leaves the order of ties unspecified.
- Ranking.FuzzySearch and OnboardAgent.JobDetails make the same assumption for the skill and job searches. Rows at equal distance keep table order, and JobDetails describes the first of them. The proved contracts do not depend on this, but the modelled outputs do.
- Mentors.CandidateLine does not model the `'NA'` similarity. A user with a strengths vector always has a distance, so that branch is not reached.
- Mentors.FindMentorsForImprovements uses the intended index normalisation of Mentors.NormalizeIndex. As written, the code raises for a non-zero integer index and for an empty-string index (see Findings).
- OnboardAgent.Intersect does not model which search's row object survives `set & set`, because that depends on Python's set internals; the `titleSide` parameter chooses it. The order in which the set lists equal-distance rows is taken to be that search's order.
- The class-based JSON field types (`strengths` and `improvements` holding non-string values that `join` would reject) are not modelled.

## Findings

| source | as written | input that shows it | evidently intended | confidence | as-written member | corrected member |
|---|---|---|---|---|---|---|
| agents/agents/opportunity.py:83-85 | `best_candidate_index.isdigit()` is called on any truthy index, and the field may hold an `int` | the model returns `best_candidate_index: 1` (a JSON integer) with two or more candidates: `AttributeError`, which the tool wrapper turns into an error text | an integer index selects that candidate | not executed; medium | Mentors.IntegerIndexRaises | Mentors.NormalizeIndex |
| agents/agents/opportunity.py:162-163 | a falsy string index skips the normalisation and reaches `0 <= idx_sel` | `best_candidate_index: ""` with `no_good_mentor` false: `TypeError` comparing int and str | an empty index means no mentor | not executed; low | Mentors.EmptyIndexRaises | Mentors.NormalizeIndex |
| agents/agents/cordinator.py:300-319 | the extracted span is itself the human message template of the repair prompt | agent output `{"message": "hi",}` (a trailing comma): the template has a field `message` that the invocation does not supply, so it raises before the repair model is called and nothing is cached; `{"message": "hi"}}` raises the single-`}` format error at the same point (Extraction.DoubledCloseRaises) | the span passed as the value of a `{json_str}` placeholder, so the repair model receives it | not executed; medium | Extraction.MalformedObjectRaises | Extraction.ParseWithRepair |
