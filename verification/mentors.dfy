/**
 * Mentor matching for a user's improvement areas. For each improvement the
 * user wrote, the other users with a strengths vector are ranked by cosine
 * distance to it, a shortlist of the closest is shown to a language model
 * (after a prompt-safety gate), the model's loosely typed answer is
 * normalised, and exactly one record is produced: the chosen mentor, or a
 * no-mentor record with a reason. The distances, the safety gate, the model
 * and the rounding of similarities are parameters.
 */
module Mentors {
  import opened Wrappers
  import opened JsonValue
  import opened PyStr
  import opened Ranking

  /** A user row as the query reads it. */
  datatype UserRow = UserRow(
    email: string,
    jobTitle: Option<string>,
    specialization: Option<string>,
    strengths: Option<seq<string>>,
    improvements: Option<seq<Json>>,
    hasStrengthsVector: bool)

  /** One shortlisted user, with `similarity_score = 1 - distance`. */
  datatype Candidate = Candidate(
    email: string,
    jobTitle: Option<string>,
    specialization: Option<string>,
    strengths: Option<seq<string>>,
    similarity: real)

  /** `best_candidate_index: Union[str, int, None]` as the model returns it. */
  datatype RawIndex = IdxNull | IdxInt(n: int) | IdxStr(s: string)

  /** `no_good_mentor: Union[str, bool, None]` */
  datatype RawFlag = FlagNull | FlagBool(b: bool) | FlagStr(s: string)

  /** The model's structured answer. */
  datatype RawSelection = RawSelection(index: RawIndex, reason: Option<string>, noGoodMentor: RawFlag)

  /** The answer after normalisation: the index is an integer or absent. */
  datatype Selection = Selection(index: Option<int>, reason: Option<string>, noGoodMentor: RawFlag)

  /** One entry of the result list. */
  datatype MentorRecord =
    | Mentor(email: string, jobTitle: Option<string>, specialization: Option<string>,
             strengths: Option<seq<string>>, canHelpWith: string, reason: string)
    | NoMentor(canHelpWith: string, reason: string)

  /** Why the whole call fails: the user is unknown, or `top_k` is negative (a negative queryset slice). */
  datatype MentorError = UserNotFound | NegativeIndexing

  const NoStrongMentor := "No strong mentor found for this improvement"
  const ChosenByModel := "Chosen by LLM as the best match for this improvement"
  const InvalidIndex := "Invalid candidate index returned by the model"

  predicate FlagTruthy(f: RawFlag) {
    match f
    case FlagNull => false
    case FlagBool(b) => b
    case FlagStr(s) => s != ""
  }

  /** `isinstance(imp, str) and imp.strip()` */
  predicate Worth(j: Json) {
    j.JStr? && |Strip(j.s)| > 0
  }

  /**
   * The improvements worth a search: the string entries that are not blank
   * after stripping, in their original order.
   */
  function KeepImprovements(imps: seq<Json>): seq<string> {
    if |imps| == 0 then []
    else
      var init := KeepImprovements(imps[..|imps| - 1]);
      var last := imps[|imps| - 1];
      if Worth(last) then init + [last.s] else init
  }

  lemma WorthNonBlank(j: Json)
    ensures Worth(j) <==> j.JStr? && !IsBlank(j.s)
  {
    if j.JStr? {
      StripEmptyIffBlank(j.s);
    }
  }

  /** Filtering works piecewise, so the kept strings keep their relative order. */
  lemma {:induction false} KeepImprovementsAppend(a: seq<Json>, b: seq<Json>)
    ensures KeepImprovements(a + b) == KeepImprovements(a) + KeepImprovements(b)
  {
    if |b| == 0 {
      assert a + b == a;
    } else {
      var ab := a + b;
      assert ab[..|ab| - 1] == a + b[..|b| - 1];
      assert ab[|ab| - 1] == b[|b| - 1];
      KeepImprovementsAppend(a, b[..|b| - 1]);
    }
  }

  /** Every kept string is a non-blank string entry of the list. */
  lemma {:induction false} KeepImprovementsSound(imps: seq<Json>)
    ensures forall k :: 0 <= k < |KeepImprovements(imps)| ==>
              !IsBlank(KeepImprovements(imps)[k]) && JStr(KeepImprovements(imps)[k]) in imps
  {
    if |imps| > 0 {
      var init := imps[..|imps| - 1];
      var last := imps[|imps| - 1];
      KeepImprovementsSound(init);
      WorthNonBlank(last);
      var kept := KeepImprovements(imps);
      var ki := KeepImprovements(init);
      forall k | 0 <= k < |kept| ensures !IsBlank(kept[k]) && JStr(kept[k]) in imps {
        if k < |ki| {
          assert kept[k] == ki[k];
          assert JStr(ki[k]) in init;
        } else {
          assert kept[k] == last.s;
        }
      }
    }
  }

  /** Every entry worth a search is kept, and nothing is kept exactly when no entry is. */
  lemma {:induction false} KeepWorthComplete(imps: seq<Json>)
    ensures forall j :: 0 <= j < |imps| && Worth(imps[j]) ==> imps[j].s in KeepImprovements(imps)
    ensures KeepImprovements(imps) == [] <==> forall j :: 0 <= j < |imps| ==> !Worth(imps[j])
  {
    if |imps| > 0 {
      var init := imps[..|imps| - 1];
      var last := imps[|imps| - 1];
      KeepWorthComplete(init);
      var ki := KeepImprovements(init);
      var kept := KeepImprovements(imps);
      assert kept == if Worth(last) then ki + [last.s] else ki;
      forall j | 0 <= j < |imps| && Worth(imps[j]) ensures imps[j].s in kept {
        if j < |init| {
          assert imps[j] == init[j];
          assert init[j].s in ki;
        }
      }
      if kept == [] {
        assert !Worth(last) && ki == [];
        forall j | 0 <= j < |imps| ensures !Worth(imps[j]) {
          if j < |init| {
            assert imps[j] == init[j];
          }
        }
      }
    }
  }

  /** Every non-blank string entry is kept, and the list is empty exactly when there is none. */
  lemma KeepImprovementsComplete(imps: seq<Json>)
    ensures forall j :: 0 <= j < |imps| && imps[j].JStr? && !IsBlank(imps[j].s) ==> imps[j].s in KeepImprovements(imps)
    ensures KeepImprovements(imps) == [] <==>
              forall j :: 0 <= j < |imps| ==> !imps[j].JStr? || IsBlank(imps[j].s)
  {
    KeepWorthComplete(imps);
    forall j | 0 <= j < |imps| ensures Worth(imps[j]) <==> imps[j].JStr? && !IsBlank(imps[j].s) {
      WorthNonBlank(imps[j]);
    }
  }

  /** The requester's improvements, `current_user.improvements or []`, filtered. */
  function ImprovementTexts(u: UserRow): seq<string> {
    match u.improvements
    case None => []
    case Some(imps) => KeepImprovements(imps)
  }

  /** Positions of the users that may mentor (not the requester, with a strengths vector), closest first, at most topK. */
  function CandidatePositions(requester: string, scored: seq<Scored<UserRow>>, topK: nat): (p: seq<nat>)
    ensures forall k :: 0 <= k < |p| ==> p[k] < |scored|
  {
    var keys := Distances(scored);
    var eligible := seq(|scored|, j requires 0 <= j < |scored| =>
                          scored[j].item.email != requester && scored[j].item.hasStrengthsVector);
    SelectTopCorrect(keys, eligible, topK);
    SelectTop(keys, eligible, topK)
  }

  function ToCandidate(s: Scored<UserRow>): Candidate {
    Candidate(s.item.email, s.item.jobTitle, s.item.specialization, s.item.strengths, 1.0 - s.distance)
  }

  /**
   * The shortlist query over the users annotated with their distance to the
   * improvement: exclude the requester and users without a strengths vector,
   * order by distance, slice `[:top_k]`. The order among equal distances is
   * taken to be the table order.
   */
  function Candidates(requester: string, scored: seq<Scored<UserRow>>, topK: nat): (r: seq<Candidate>)
    ensures var p := CandidatePositions(requester, scored, topK);
            |r| == |p| && forall k :: 0 <= k < |p| ==> r[k] == ToCandidate(scored[p[k]])
  {
    var p := CandidatePositions(requester, scored, topK);
    seq(|p|, k requires 0 <= k < |p| => ToCandidate(scored[p[k]]))
  }

  /**
   * The shortlist never holds the requester or a user without a strengths
   * vector, has at most top_k entries, lists them by non-increasing
   * similarity, and leaves out an eligible user only when top_k users at
   * least as similar were listed.
   */
  lemma CandidatesCorrect(requester: string, scored: seq<Scored<UserRow>>, topK: nat)
    ensures var r := Candidates(requester, scored, topK);
            var p := CandidatePositions(requester, scored, topK);
            && |r| <= topK
            && (forall k :: 0 <= k < |r| ==> r[k].email != requester && scored[p[k]].item.hasStrengthsVector)
            && (forall a, b :: 0 <= a < b < |r| ==> r[a].similarity >= r[b].similarity)
            && (forall a, b :: 0 <= a < b < |r| ==> p[a] != p[b])
            && (forall j :: (0 <= j < |scored| && scored[j].item.email != requester
                             && scored[j].item.hasStrengthsVector && j !in p) ==>
                  |r| == topK && forall k :: 0 <= k < |r| ==> r[k].similarity >= 1.0 - scored[j].distance)
  {
    var keys := Distances(scored);
    var eligible := seq(|scored|, j requires 0 <= j < |scored| =>
                          scored[j].item.email != requester && scored[j].item.hasStrengthsVector);
    SelectTopCorrect(keys, eligible, topK);
    var r := Candidates(requester, scored, topK);
    var p := CandidatePositions(requester, scored, topK);
    forall a, b | 0 <= a < b < |r| ensures r[a].similarity >= r[b].similarity && p[a] != p[b] {
      assert Before(keys, p[a], p[b]);
    }
    forall j | 0 <= j < |scored| && eligible[j] && j !in p
      ensures forall k :: 0 <= k < |r| ==> r[k].similarity >= 1.0 - scored[j].distance
    {
      forall k | 0 <= k < |r| ensures r[k].similarity >= 1.0 - scored[j].distance {
        assert Before(keys, p[k], j);
      }
    }
  }

  /** `c.get('strengths') or []` */
  function StrengthsOr(s: Option<seq<string>>): seq<string> {
    match s
    case None => []
    case Some(xs) => xs
  }

  /** `f"[{idx}] job: {job_title} | spec: {specialization} | strengths: {first two} | sim: {round(sim, 3)}"` */
  function CandidateLine(idx: nat, c: Candidate, fmt: real -> string): string {
    "[" + NatToString(idx) + "] job: " + ShowOpt(c.jobTitle) + " | spec: " + ShowOpt(c.specialization)
    + " | strengths: " + Join(Take(StrengthsOr(c.strengths), 2), ", ") + " | sim: " + fmt(c.similarity)
  }

  function CandidateLines(cands: seq<Candidate>, fmt: real -> string): (lines: seq<string>)
    ensures |lines| == |cands| && forall k :: 0 <= k < |cands| ==> lines[k] == CandidateLine(k, cands[k], fmt)
  {
    seq(|cands|, k requires 0 <= k < |cands| => CandidateLine(k, cands[k], fmt))
  }

  /** `[i for i in improvements if i]` */
  function NonEmpty(xs: seq<string>): (r: seq<string>)
    ensures forall k :: 0 <= k < |r| ==> r[k] != "" && r[k] in xs
    ensures forall k :: 0 <= k < |xs| && xs[k] != "" ==> xs[k] in r
  {
    if |xs| == 0 then []
    else
      var front := xs[..|xs| - 1];
      var init := NonEmpty(front);
      assert forall k :: 0 <= k < |init| ==> init[k] in xs;
      assert forall k :: 0 <= k < |front| ==> xs[k] == front[k];
      if xs[|xs| - 1] != "" then init + [xs[|xs| - 1]] else init
  }

  /** The filter works piecewise, so the kept improvements stay in input order. */
  lemma {:induction false} NonEmptyAppend(a: seq<string>, b: seq<string>)
    ensures NonEmpty(a + b) == NonEmpty(a) + NonEmpty(b)
  {
    if |b| == 0 {
      assert a + b == a;
    } else {
      var ab := a + b;
      var front, x := b[..|b| - 1], b[|b| - 1];
      assert ab[..|ab| - 1] == a + front;
      assert ab[|ab| - 1] == x;
      NonEmptyAppend(a, front);
      assert NonEmpty(ab) == if x != "" then NonEmpty(a + front) + [x] else NonEmpty(a + front);
      assert NonEmpty(b) == if x != "" then NonEmpty(front) + [x] else NonEmpty(front);
      if x != "" {
        assert NonEmpty(a) + (NonEmpty(front) + [x]) == NonEmpty(a) + NonEmpty(front) + [x];
      }
    }
  }

  const CandidatesHeader := "\nCandidates:\n"

  /** The text shown to the safety gate and the model. */
  function Shortlist(improvements: seq<string>, cands: seq<Candidate>, fmt: real -> string): string {
    "Improvements: " + Join(NonEmpty(improvements), "; ") + CandidatesHeader + Join(CandidateLines(cands, fmt), "\n")
  }

  /** No field of the candidate and no rendered similarity breaks a line. */
  predicate SingleLineFields(c: Candidate, fmt: real -> string) {
    && '\n' !in ShowOpt(c.jobTitle)
    && '\n' !in ShowOpt(c.specialization)
    && (forall k :: 0 <= k < |StrengthsOr(c.strengths)| ==> '\n' !in StrengthsOr(c.strengths)[k])
    && '\n' !in fmt(c.similarity)
  }

  lemma CandidateLineSingle(idx: nat, c: Candidate, fmt: real -> string)
    requires SingleLineFields(c, fmt)
    ensures '\n' !in CandidateLine(idx, c, fmt)
  {
    var d := NatToString(idx);
    assert forall k :: 0 <= k < |d| ==> d[k] != '\n';
    var st := Take(StrengthsOr(c.strengths), 2);
    JoinAvoids(st, ", ", '\n');
  }

  /** Each candidate line opens with its index tag. */
  lemma CandidateLineTag(idx: nat, c: Candidate, fmt: real -> string)
    ensures "[" + NatToString(idx) + "] job: " <= CandidateLine(idx, c, fmt)
  {
    var tag := "[" + NatToString(idx) + "] job: ";
    var rest := ShowOpt(c.jobTitle) + " | spec: " + ShowOpt(c.specialization)
                + " | strengths: " + Join(Take(StrengthsOr(c.strengths), 2), ", ") + " | sim: " + fmt(c.similarity);
    assert CandidateLine(idx, c, fmt) == tag + rest;
  }

  /** For a single improvement, the improvement line shows it alone. */
  lemma ShortlistHead(imp: string, cands: seq<Candidate>, fmt: real -> string)
    requires imp != ""
    ensures Shortlist([imp], cands, fmt) == "Improvements: " + imp + CandidatesHeader + Join(CandidateLines(cands, fmt), "\n")
  {
    assert [imp][..0] == [];
    assert NonEmpty([imp]) == [imp];
  }

  /**
   * When no field breaks a line, the candidate block is exactly one line
   * per candidate, the k-th tagged `[k]`.
   */
  lemma ShortlistLines(cands: seq<Candidate>, fmt: real -> string)
    requires |cands| >= 1
    requires forall k :: 0 <= k < |cands| ==> SingleLineFields(cands[k], fmt)
    ensures var lines := CandidateLines(cands, fmt);
            && Split(Join(lines, "\n"), '\n') == lines
            && forall k :: 0 <= k < |cands| ==> "[" + NatToString(k) + "] job: " <= lines[k]
  {
    var lines := CandidateLines(cands, fmt);
    forall k | 0 <= k < |cands| ensures '\n' !in lines[k] && "[" + NatToString(k) + "] job: " <= lines[k] {
      CandidateLineSingle(k, cands[k], fmt);
      CandidateLineTag(k, cands[k], fmt);
    }
    SplitJoin(lines, '\n');
    assert "\n" == ['\n'];
  }

  /** `best_candidate_index` normalisation as written: a truthy int has no `isdigit`. */
  function NormalizeIndexAsWritten(i: RawIndex): Result<RawIndex, string> {
    match i
    case IdxInt(n) => if n != 0 then Failure("'int' object has no attribute 'isdigit'") else Success(i)
    case IdxStr(s) => if s == "" then Success(i) else if IsDigits(s) then Success(IdxInt(DigitsValue(s))) else Success(IdxNull)
    case IdxNull => Success(i)
  }

  /** `best_candidate_index` normalisation as intended: an int stands, a digit string becomes its value, any other string means no index. */
  function NormalizeIndex(i: RawIndex): (r: Option<int>)
    ensures i.IdxInt? ==> r == Some(i.n)
    ensures i.IdxStr? ==> (r.Some? <==> IsDigits(i.s) && i.s != "")
    ensures i.IdxStr? && r.Some? ==> r.value == DigitsValue(i.s)
    ensures i.IdxNull? ==> r.None?
  {
    match i
    case IdxInt(n) => Some(n)
    case IdxStr(s) => if s != "" && IsDigits(s) then Some(DigitsValue(s)) else None
    case IdxNull => None
  }

  /** `no_good_mentor` normalisation: a truthy `'false'` becomes False, any other truthy value True; falsy values stay. */
  function NormalizeFlag(f: RawFlag): (r: RawFlag)
    ensures FlagTruthy(f) && f == FlagStr("false") ==> r == FlagBool(false)
    ensures FlagTruthy(f) && f != FlagStr("false") ==> r == FlagBool(true)
    ensures !FlagTruthy(f) ==> r == f
    ensures FlagTruthy(r) <==> FlagTruthy(f) && f != FlagStr("false")
  {
    if FlagTruthy(f) then FlagBool(f != FlagStr("false")) else f
  }

  /**
   * The model is asked only when there are candidates and the shortlist
   * passes the safety gate; its answer is then normalised.
   */
  function PickBest(improvements: seq<string>, cands: seq<Candidate>, safe: string -> bool,
                    model: string -> RawSelection, fmt: real -> string): (r: Option<Selection>)
    ensures |cands| == 0 ==> r.None?
    ensures |cands| > 0 && !safe(Shortlist(improvements, cands, fmt)) ==> r.None?
    ensures |cands| > 0 && safe(Shortlist(improvements, cands, fmt)) ==> r.Some?
    ensures r.Some? ==> var raw := model(Shortlist(improvements, cands, fmt));
              r.value == Selection(NormalizeIndex(raw.index), raw.reason, NormalizeFlag(raw.noGoodMentor))
  {
    if |cands| == 0 then None
    else
      var content := Shortlist(improvements, cands, fmt);
      if !safe(content) then None
      else
        var raw := model(content);
        Some(Selection(NormalizeIndex(raw.index), raw.reason, NormalizeFlag(raw.noGoodMentor)))
  }

  /** The record for one improvement, from the normalised selection (or none). */
  function Record(imp: string, cands: seq<Candidate>, sel: Option<Selection>): MentorRecord {
    match sel
    case None => NoMentor(imp, NoStrongMentor)
    case Some(s) =>
      if FlagTruthy(s.noGoodMentor) || s.index.None? then
        NoMentor(imp, if TruthyOpt(s.reason) then s.reason.value else NoStrongMentor)
      else if 0 <= s.index.value < |cands| then
        var c := cands[s.index.value];
        Mentor(c.email, c.jobTitle, c.specialization, c.strengths, imp,
               if TruthyOpt(s.reason) then s.reason.value else ChosenByModel)
      else NoMentor(imp, InvalidIndex)
  }

  /**
   * Every record is about its improvement. Without a selection the reason is
   * the fixed no-mentor text; a mentor is named exactly when no flag is set
   * and the index is a candidate's, and then the record copies that
   * candidate; an index out of range gets the fixed invalid-index reason.
   */
  lemma RecordCorrect(imp: string, cands: seq<Candidate>, sel: Option<Selection>)
    ensures Record(imp, cands, sel).canHelpWith == imp
    ensures sel.None? ==> Record(imp, cands, sel) == NoMentor(imp, NoStrongMentor)
    ensures Record(imp, cands, sel).Mentor? <==>
              sel.Some? && !FlagTruthy(sel.value.noGoodMentor) && sel.value.index.Some?
              && 0 <= sel.value.index.value < |cands|
    ensures Record(imp, cands, sel).Mentor? ==>
              var c := cands[sel.value.index.value];
              var m := Record(imp, cands, sel);
              m.email == c.email && m.jobTitle == c.jobTitle && m.specialization == c.specialization
              && m.strengths == c.strengths && m.reason != ""
    ensures sel.Some? && !FlagTruthy(sel.value.noGoodMentor) && sel.value.index.Some?
            && !(0 <= sel.value.index.value < |cands|) ==>
              Record(imp, cands, sel) == NoMentor(imp, InvalidIndex)
  {
  }

  /** The selection and record for one improvement, as intended. */
  function Outcome(imp: string, cands: seq<Candidate>, safe: string -> bool,
                   model: string -> RawSelection, fmt: real -> string): MentorRecord {
    Record(imp, cands, PickBest([imp], cands, safe, model, fmt))
  }

  /**
   * The same step as written: the index normalisation can raise, and a
   * falsy string index survives to the range test, where comparing it with
   * an int raises.
   */
  function OutcomeAsWritten(imp: string, cands: seq<Candidate>, safe: string -> bool,
                            model: string -> RawSelection, fmt: real -> string): Result<MentorRecord, string> {
    if |cands| == 0 || !safe(Shortlist([imp], cands, fmt)) then Success(NoMentor(imp, NoStrongMentor))
    else
      var raw := model(Shortlist([imp], cands, fmt));
      match NormalizeIndexAsWritten(raw.index)
      case Failure(e) => Failure(e)
      case Success(idx) =>
        var flag := NormalizeFlag(raw.noGoodMentor);
        if FlagTruthy(flag) || idx.IdxNull? then
          Success(NoMentor(imp, if TruthyOpt(raw.reason) then raw.reason.value else NoStrongMentor))
        else if idx.IdxStr? then Failure("'<=' not supported between instances of 'int' and 'str'")
        else if 0 <= idx.n < |cands| then
          var c := cands[idx.n];
          Success(Mentor(c.email, c.jobTitle, c.specialization, c.strengths, imp,
                         if TruthyOpt(raw.reason) then raw.reason.value else ChosenByModel))
        else Success(NoMentor(imp, InvalidIndex))
  }

  /** Where the code as written does not raise, the intended step gives the same record. */
  lemma OutcomeAgrees(imp: string, cands: seq<Candidate>, safe: string -> bool,
                      model: string -> RawSelection, fmt: real -> string)
    ensures OutcomeAsWritten(imp, cands, safe, model, fmt).Success? ==>
              OutcomeAsWritten(imp, cands, safe, model, fmt).value == Outcome(imp, cands, safe, model, fmt)
  {
    var content := Shortlist([imp], cands, fmt);
    if |cands| > 0 && safe(content) {
      var raw := model(content);
      var sel := Selection(NormalizeIndex(raw.index), raw.reason, NormalizeFlag(raw.noGoodMentor));
      assert PickBest([imp], cands, safe, model, fmt) == Some(sel);
      var written := NormalizeIndexAsWritten(raw.index);
      if written.Success? {
        var idx := written.value;
        assert idx.IdxInt? ==> sel.index == Some(idx.n);
        assert idx.IdxNull? ==> sel.index.None?;
      }
    }
  }

  /**
   * The model names candidate 1 as a JSON integer: the code as written
   * raises, the intended step names that candidate.
   */
  lemma IntegerIndexRaises(imp: string, cands: seq<Candidate>, safe: string -> bool,
                           model: string -> RawSelection, fmt: real -> string)
    requires |cands| >= 2 && safe(Shortlist([imp], cands, fmt))
    requires model(Shortlist([imp], cands, fmt)) == RawSelection(IdxInt(1), None, FlagBool(false))
    ensures OutcomeAsWritten(imp, cands, safe, model, fmt).Failure?
    ensures Outcome(imp, cands, safe, model, fmt)
            == Mentor(cands[1].email, cands[1].jobTitle, cands[1].specialization, cands[1].strengths, imp, ChosenByModel)
  {
  }

  /** An empty-string index with no flag: the code as written raises, the intended step reports no mentor. */
  lemma EmptyIndexRaises(imp: string, cands: seq<Candidate>, safe: string -> bool,
                         model: string -> RawSelection, fmt: real -> string)
    requires |cands| >= 1 && safe(Shortlist([imp], cands, fmt))
    requires model(Shortlist([imp], cands, fmt)) == RawSelection(IdxStr(""), None, FlagBool(false))
    ensures OutcomeAsWritten(imp, cands, safe, model, fmt).Failure?
    ensures Outcome(imp, cands, safe, model, fmt) == NoMentor(imp, NoStrongMentor)
  {
  }

  /**
   * `find_mentors_for_improvements`. `user` is the requester's row (None
   * when the email is unknown) and `annotate(text)` every user with the
   * cosine distance between their strengths and the embedded text.
   */
  function MentorsSpec(user: Option<UserRow>, requester: string, topK: int,
                       annotate: string -> seq<Scored<UserRow>>, safe: string -> bool,
                       model: string -> RawSelection, fmt: real -> string): Result<seq<MentorRecord>, MentorError> {
    match user
    case None => Failure(UserNotFound)
    case Some(u) =>
      var kept := ImprovementTexts(u);
      if |kept| == 0 then Success([])
      else if topK < 0 then Failure(NegativeIndexing)
      else Success(seq(|kept|, k requires 0 <= k < |kept| =>
                         Outcome(kept[k], Candidates(requester, annotate(kept[k]), topK), safe, model, fmt)))
  }

  /**
   * An unknown user fails; with no usable improvement the answer is empty;
   * otherwise (for a non-negative top_k) there is exactly one record per kept
   * improvement, in order, each about its improvement.
   */
  lemma MentorsCorrect(user: Option<UserRow>, requester: string, topK: int,
                       annotate: string -> seq<Scored<UserRow>>, safe: string -> bool,
                       model: string -> RawSelection, fmt: real -> string)
    ensures user.None? ==> MentorsSpec(user, requester, topK, annotate, safe, model, fmt) == Failure(UserNotFound)
    ensures user.Some? && ImprovementTexts(user.value) == [] ==>
              MentorsSpec(user, requester, topK, annotate, safe, model, fmt) == Success([])
    ensures user.Some? && ImprovementTexts(user.value) != [] ==>
              (MentorsSpec(user, requester, topK, annotate, safe, model, fmt).Failure? <==> topK < 0)
    ensures var r := MentorsSpec(user, requester, topK, annotate, safe, model, fmt);
            r.Success? && user.Some? ==>
              var kept := ImprovementTexts(user.value);
              |r.value| == |kept| && forall k :: 0 <= k < |kept| ==> r.value[k].canHelpWith == kept[k]
  {
    var r := MentorsSpec(user, requester, topK, annotate, safe, model, fmt);
    if r.Success? && user.Some? {
      var kept := ImprovementTexts(user.value);
      if |kept| > 0 {
        forall k | 0 <= k < |kept| ensures r.value[k].canHelpWith == kept[k] {
          RecordCorrect(kept[k], Candidates(requester, annotate(kept[k]), topK),
                        PickBest([kept[k]], Candidates(requester, annotate(kept[k]), topK), safe, model, fmt));
        }
      }
    }
  }

  /** The query loop: one shortlist entry per row returned, in order. */
  method CollectCandidates(requester: string, scored: seq<Scored<UserRow>>, topK: nat)
    returns (cands: seq<Candidate>)
    ensures cands == Candidates(requester, scored, topK)
  {
    var rows := CandidatePositions(requester, scored, topK);
    cands := [];
    var k := 0;
    while k < |rows|
      invariant 0 <= k <= |rows|
      invariant |cands| == k
      invariant forall m :: 0 <= m < k ==> cands[m] == ToCandidate(scored[rows[m]])
    {
      var m := scored[rows[k]];
      cands := cands + [Candidate(m.item.email, m.item.jobTitle, m.item.specialization, m.item.strengths, 1.0 - m.distance)];
      k := k + 1;
    }
  }

  /** The per-improvement loop, appending one record per kept improvement. */
  method FindMentorsForImprovements(user: Option<UserRow>, requester: string, topK: int,
                                    annotate: string -> seq<Scored<UserRow>>, safe: string -> bool,
                                    model: string -> RawSelection, fmt: real -> string)
    returns (r: Result<seq<MentorRecord>, MentorError>)
    ensures r == MentorsSpec(user, requester, topK, annotate, safe, model, fmt)
  {
    if user.None? {
      return Failure(UserNotFound);
    }
    var kept := ImprovementTexts(user.value);
    if |kept| == 0 {
      return Success([]);
    }
    if topK < 0 {
      return Failure(NegativeIndexing);
    }
    var selected: seq<MentorRecord> := [];
    var idx := 0;
    while idx < |kept|
      invariant 0 <= idx <= |kept|
      invariant |selected| == idx
      invariant forall m :: 0 <= m < idx ==>
                  selected[m] == Outcome(kept[m], Candidates(requester, annotate(kept[m]), topK), safe, model, fmt)
    {
      var impText := kept[idx];
      var cands := CollectCandidates(requester, annotate(impText), topK);
      var selection := PickBest([impText], cands, safe, model, fmt);
      var rec := Record(impText, cands, selection);
      selected := selected + [rec];
      idx := idx + 1;
    }
    assert selected == seq(|kept|, k requires 0 <= k < |kept| =>
                             Outcome(kept[k], Candidates(requester, annotate(kept[k]), topK), safe, model, fmt));
    r := Success(selected);
  }
}
