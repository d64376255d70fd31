/**
 * Structured-output extraction: the agents cut the JSON object out of the
 * model's text with `text[text.find("{") : text.rfind("}") + 1]` and hand it
 * to `json.loads`, which is modelled as a partial function `parse`. The
 * coordinator makes one repair attempt when parsing fails; the skill and
 * onboarding agents make none.
 */
module Extraction {
  import opened Wrappers
  import opened JsonValue
  import opened PyStr
  import opened FormatString

  /** `text[text.find("{") : text.rfind("}") + 1]` */
  function JsonSpan(text: string): string {
    PySlice(text, Find(text, '{'), RFind(text, '}') + 1)
  }

  /**
   * The three shapes of the slice: the span from the first `{` to the last
   * `}` when the `}` comes later; nothing when it comes earlier or is
   * missing; and, with no `{` at all, the start index -1 counts from the end,
   * so the result is "}" exactly when the text ends in `}`.
   */
  lemma JsonSpanCases(text: string)
    ensures 0 <= Find(text, '{') < RFind(text, '}') ==>
              JsonSpan(text) == text[Find(text, '{')..RFind(text, '}') + 1]
    ensures 0 <= Find(text, '{') && RFind(text, '}') < Find(text, '{') ==> JsonSpan(text) == ""
    ensures Find(text, '{') == -1 && |text| > 0 && text[|text| - 1] == '}' ==> JsonSpan(text) == "}"
    ensures Find(text, '{') == -1 && (|text| == 0 || text[|text| - 1] != '}') ==> JsonSpan(text) == ""
  {
    if Find(text, '{') >= 0 {
      SpanAfterOpen(text, Find(text, '{'), RFind(text, '}'));
    } else {
      SpanWithoutOpen(text, RFind(text, '}'));
    }
  }

  lemma SpanAfterOpen(text: string, i: int, j: int)
    requires i == Find(text, '{') && j == RFind(text, '}') && i >= 0
    ensures i < j ==> JsonSpan(text) == text[i..j + 1]
    ensures j < i ==> JsonSpan(text) == ""
  {
    assert SliceBound(i, |text|) == i;
    assert SliceBound(j + 1, |text|) == j + 1;
  }

  lemma SpanWithoutOpen(text: string, j: int)
    requires Find(text, '{') == -1 && j == RFind(text, '}')
    ensures |text| > 0 && text[|text| - 1] == '}' ==> JsonSpan(text) == "}"
    ensures |text| == 0 || text[|text| - 1] != '}' ==> JsonSpan(text) == ""
  {
    var n := |text|;
    if n > 0 {
      assert SliceBound(-1, n) == n - 1;
      if text[n - 1] == '}' {
        assert j == n - 1;
        assert SliceBound(j + 1, n) == n;
        assert text[n - 1..n] == "}";
      } else {
        assert j != n - 1;
        assert SliceBound(j + 1, n) <= n - 1;
      }
    }
  }

  /** A non-empty span found after a `{` starts with `{` and ends with `}`. */
  lemma JsonSpanDelimited(text: string)
    requires Find(text, '{') >= 0 && JsonSpan(text) != ""
    ensures JsonSpan(text)[0] == '{' && JsonSpan(text)[|JsonSpan(text)| - 1] == '}'
  {
    var i, j := Find(text, '{'), RFind(text, '}');
    SpanAfterOpen(text, i, j);
    assert i != j;
    var span := text[i..j + 1];
    assert span[0] == text[i] && span[|span| - 1] == text[j];
  }

  /** How the payload was obtained, and how many repair calls it took. */
  datatype Parsed = Parsed(value: Json, repairCalls: nat) | Malformed(repairCalls: nat)

  /**
   * Extract and parse; on failure send the extracted span (not the whole
   * text) to the repair model once, re-extract and parse once more.
   */
  function ParseWithRepair(output: string, repair: string -> string, parse: string -> Option<Json>): Parsed {
    var span := JsonSpan(output);
    match parse(span)
    case Some(v) => Parsed(v, 0)
    case None =>
      var fixed := JsonSpan(repair(span));
      match parse(fixed)
      case Some(v) => Parsed(v, 1)
      case None => Malformed(1)
  }

  /**
   * At most one repair call is made; none when the first parse succeeds, in
   * which case the repair model plays no part; a failure is reported only
   * after the repaired text also failed to parse.
   */
  lemma RepairBounded(output: string, repair: string -> string, other: string -> string, parse: string -> Option<Json>)
    ensures ParseWithRepair(output, repair, parse).repairCalls <= 1
    ensures (ParseWithRepair(output, repair, parse).repairCalls == 0) <==> parse(JsonSpan(output)).Some?
    ensures parse(JsonSpan(output)).Some? ==>
              ParseWithRepair(output, repair, parse) == ParseWithRepair(output, other, parse)
                == Parsed(parse(JsonSpan(output)).value, 0)
    ensures ParseWithRepair(output, repair, parse).Malformed? <==>
              (parse(JsonSpan(output)).None? && parse(JsonSpan(repair(JsonSpan(output)))).None?)
  {
  }

  /** Without a repair step a failed parse is the caller's error. */
  function ParseOnce(output: string, parse: string -> Option<Json>): Option<Json> {
    parse(JsonSpan(output))
  }

  /** When the first parse succeeds, the single-attempt and repairing pipelines agree. */
  lemma ParseOnceAgrees(output: string, repair: string -> string, parse: string -> Option<Json>)
    ensures ParseOnce(output, parse).Some? ==>
              ParseWithRepair(output, repair, parse) == Parsed(ParseOnce(output, parse).value, 0)
    ensures ParseOnce(output, parse).None? ==> ParseWithRepair(output, repair, parse).repairCalls == 1
  {
  }

  /** What the repair prompt's human message does when the chain is invoked: it renders to text, or raises. */
  datatype Rendering = Rendered(text: string) | TemplateRaised(message: string)

  /** The only variable the repair chain is invoked with. */
  const SuppliedVariable := "json_str"
  const MissingVariable := "Input to ChatPromptTemplate is missing variables"

  /**
   * A replacement field opens at the first character, and either it is
   * malformed or it names a variable other than `json_str`.
   */
  predicate OpensForeignField(span: string) {
    && |span| >= 2 && span[0] == '{' && span[1] != '{'
    && (ParseField(span, 1).FieldFailed? || ParseField(span, 1).name != SuppliedVariable)
  }

  /**
   * The human message as written: the extracted span is itself the f-string
   * template. Building the prompt parses the whole span, and a malformed
   * brace anywhere raises that parse's error; a well-formed template with a
   * variable other than `json_str` raises at invocation because the variable
   * is not supplied; a template without fields renders its literal text.
   * Templates whose only fields are `json_str` are left to `otherwise`.
   */
  function HumanTemplateAsWritten(span: string, otherwise: string -> Rendering): (r: Rendering)
    ensures '{' !in span && '}' !in span ==> r == Rendered(span)
    ensures span == "}" ==> r == TemplateRaised(SingleClose)
    ensures OpensForeignField(span) ==> r.TemplateRaised?
    ensures ParseTemplate(span).FormatError? ==> r == TemplateRaised(ParseTemplate(span).message)
    ensures OpensForeignField(span) && ParseTemplate(span).Template? ==> r == TemplateRaised(MissingVariable)
  {
    OpeningField(span);
    match ParseTemplate(span)
    case FormatError(e) => TemplateRaised(e)
    case Template(literal, names) =>
      if exists k :: 0 <= k < |names| && names[k] != SuppliedVariable then TemplateRaised(MissingVariable)
      else if |names| == 0 then Rendered(literal)
      else otherwise(span)
  }

  /** The repair step as written: it completes as modelled by `Parsed`, or raises before the repair model is called. */
  datatype RepairAsWritten = Completed(outcome: Parsed) | RaisedBeforeRepair(message: string)

  /** The coordinator's extraction with the repair prompt as written. */
  function ParseWithRepairAsWritten(output: string, repair: string -> string, parse: string -> Option<Json>,
                                    otherwise: string -> Rendering): RepairAsWritten {
    var span := JsonSpan(output);
    match parse(span)
    case Some(v) => Completed(Parsed(v, 0))
    case None =>
      match HumanTemplateAsWritten(span, otherwise)
      case TemplateRaised(e) => RaisedBeforeRepair(e)
      case Rendered(t) =>
        match parse(JsonSpan(repair(t)))
        case Some(v) => Completed(Parsed(v, 1))
        case None => Completed(Malformed(1))
  }

  /**
   * The two agree when the first parse succeeds and when the span holds no
   * brace, the empty span included.
   */
  lemma AsWrittenAgrees(output: string, repair: string -> string, parse: string -> Option<Json>,
                        otherwise: string -> Rendering)
    ensures var span := JsonSpan(output);
            parse(span).Some? || ('{' !in span && '}' !in span) ==>
              ParseWithRepairAsWritten(output, repair, parse, otherwise) == Completed(ParseWithRepair(output, repair, parse))
  {
  }

  /** A malformed object with a trailing comma. */
  const TrailingComma := "{\"message\": \"hi\",}"

  /** A malformed object with a doubled closing brace. */
  const DoubledClose := "{\"message\": \"hi\"}}"

  /**
   * As written, any span that fails to parse and opens a field other than
   * `json_str` raises in the template step, so the repair model is never
   * called: with the error of the format-string parse when a brace anywhere
   * in the span is malformed, and with the missing variable otherwise.
   */
  lemma ForeignFieldRaises(output: string, repair: string -> string, parse: string -> Option<Json>,
                           otherwise: string -> Rendering)
    requires parse(JsonSpan(output)).None? && OpensForeignField(JsonSpan(output))
    ensures var scan := ParseTemplate(JsonSpan(output));
            ParseWithRepairAsWritten(output, repair, parse, otherwise)
              == RaisedBeforeRepair(if scan.FormatError? then scan.message else MissingVariable)
  {
    var span := JsonSpan(output);
    if ParseTemplate(span).FormatError? {
      assert HumanTemplateAsWritten(span, otherwise) == TemplateRaised(ParseTemplate(span).message);
    } else {
      assert HumanTemplateAsWritten(span, otherwise) == TemplateRaised(MissingVariable);
    }
  }

  /** Text that opens with `{` and closes with `}` is its own extracted span. */
  lemma WholeSpan(t: string)
    requires |t| >= 2 && t[0] == '{' && t[|t| - 1] == '}'
    ensures JsonSpan(t) == t
  {
    assert Find(t, '{') == 0;
    assert RFind(t, '}') == |t| - 1;
    SpanAfterOpen(t, 0, |t| - 1);
  }

  /** The trailing-comma object parses as a template with the single variable `"message"` (quotes included). */
  lemma TrailingCommaTemplate()
    ensures ParseTemplate(TrailingComma) == Template("", ["\"message\""])
  {
    SingleFieldTemplate(TrailingComma, 10);
    TrailingCommaKey();
  }

  /** The characters between the opening `{` and the first `:` of the trailing-comma object. */
  lemma TrailingCommaKey()
    ensures TrailingComma[1..10] == "\"message\""
  {
    var key := TrailingComma[1..10];
    assert |key| == 9;
    forall m | 0 <= m < 9
      ensures key[m] == "\"message\""[m]
    {
      assert key[m] == TrailingComma[m + 1];
    }
  }

  /** The doubled closing brace leaves a lone `}` after the first field, which the format-string parse rejects. */
  lemma DoubledCloseTemplate()
    ensures ParseTemplate(DoubledClose) == FormatError(SingleClose)
  {
    FieldThenSingleClose(DoubledClose, 10);
  }

  /**
   * A malformed object reaches the template step as written, which raises
   * before the repair model is called; the intended step makes the repair call.
   */
  lemma MalformedObjectRaises(repair: string -> string, parse: string -> Option<Json>, otherwise: string -> Rendering)
    requires parse(TrailingComma).None?
    ensures ParseWithRepairAsWritten(TrailingComma, repair, parse, otherwise) == RaisedBeforeRepair(MissingVariable)
    ensures ParseWithRepair(TrailingComma, repair, parse).repairCalls == 1
  {
    WholeSpan(TrailingComma);
    TrailingCommaRendering(otherwise);
    RepairBounded(TrailingComma, repair, repair, parse);
  }

  /** The variable `"message"` is not supplied, so the template step raises. */
  lemma TrailingCommaRendering(otherwise: string -> Rendering)
    ensures HumanTemplateAsWritten(TrailingComma, otherwise) == TemplateRaised(MissingVariable)
  {
    TrailingCommaTemplate();
    var names := ParseTemplate(TrailingComma).names;
    assert names[0][0] == '"' != SuppliedVariable[0];
    assert 0 <= 0 < |names| && names[0] != SuppliedVariable;
  }

  /**
   * An object followed by a stray `}` raises the format-string error as
   * written, before the repair model is called; the intended step makes the
   * repair call.
   */
  lemma DoubledCloseRaises(repair: string -> string, parse: string -> Option<Json>, otherwise: string -> Rendering)
    requires parse(DoubledClose).None?
    ensures ParseWithRepairAsWritten(DoubledClose, repair, parse, otherwise) == RaisedBeforeRepair(SingleClose)
    ensures ParseWithRepair(DoubledClose, repair, parse).repairCalls == 1
  {
    WholeSpan(DoubledClose);
    DoubledCloseTemplate();
    RepairBounded(DoubledClose, repair, repair, parse);
  }

  /**
   * Text ending in `}` with no `{` gives the span `"}"`, which the template
   * step as written rejects before the repair model is called.
   */
  lemma ClosingBraceRaises(output: string, repair: string -> string, parse: string -> Option<Json>,
                           otherwise: string -> Rendering)
    requires |output| > 0 && output[|output| - 1] == '}' && '{' !in output
    requires parse("}").None?
    ensures ParseWithRepairAsWritten(output, repair, parse, otherwise) == RaisedBeforeRepair(SingleClose)
    ensures ParseWithRepair(output, repair, parse).repairCalls == 1
  {
    SpanWithoutOpen(output, RFind(output, '}'));
  }
}
