/**
 * Python's format-string parser, `string.Formatter().parse`, as LangChain's
 * f-string prompt templates use it to collect a template's variables. The
 * whole template is scanned when the prompt is built: literal text, `{{` and
 * `}}` escapes, and replacement fields `{name!conversion:spec}`, whose name
 * may hold a `[...]` index and whose spec may nest braces. Any malformed
 * brace makes the parse raise `ValueError` with one of the messages below.
 */
module FormatString {
  const SingleClose := "Single '}' encountered in format string"
  const SingleOpen := "Single '{' encountered in format string"
  const OpenInName := "unexpected '{' in field name"
  const ExpectedClose := "expected '}' before end of string"
  const UnmatchedInSpec := "unmatched '{' in format spec"
  const EndBeforeConversion := "end of string while looking for conversion specifier"
  const ExpectedColon := "expected ':' after conversion specifier"

  /**
   * A whole template: its literal text with the escapes collapsed and the
   * names of its replacement fields in order, or the error the parse raises.
   */
  datatype Scan = Template(literal: string, names: seq<string>) | FormatError(message: string)

  /** A replacement field: its name and the index just past its closing `}`, or the parse error. */
  datatype Field = Field(name: string, next: nat) | FieldFailed(message: string)

  predicate IsBrace(c: char) {
    c == '{' || c == '}'
  }

  /** The first `{` or `}` at or after `i`, or `|s|` when there is none. */
  function NextMarkup(s: string, i: nat): (k: nat)
    requires i <= |s|
    ensures i <= k <= |s|
    ensures k < |s| ==> IsBrace(s[k])
    ensures forall m :: i <= m < k ==> !IsBrace(s[m])
    decreases |s| - i
  {
    if i == |s| || IsBrace(s[i]) then i else NextMarkup(s, i + 1)
  }

  /** The first `]` at or after `i`, or `|s|`: an index in a field name runs up to it. */
  function CloseBracket(s: string, i: nat): (k: nat)
    requires i <= |s|
    ensures i <= k <= |s|
    ensures k < |s| ==> s[k] == ']'
    ensures forall m :: i <= m < k ==> s[m] != ']'
    decreases |s| - i
  {
    if i == |s| || s[i] == ']' then i else CloseBracket(s, i + 1)
  }

  /** A character that ends a field name outside an index. */
  predicate EndsName(c: char) {
    c == '{' || c == '}' || c == ':' || c == '!'
  }

  /** Where the field name starting at `i` ends: the first `{`, `}`, `:` or `!` outside a `[...]` index, or `|s|`. */
  function NameEnd(s: string, i: nat): (k: nat)
    requires i <= |s|
    ensures i <= k <= |s|
    ensures k < |s| ==> EndsName(s[k])
    decreases |s| - i
  {
    if i == |s| || EndsName(s[i]) then i
    else if s[i] == '[' then NameEnd(s, CloseBracket(s, i + 1))
    else NameEnd(s, i + 1)
  }

  /**
   * The index just past the `}` that closes a format spec read from `i`
   * with `depth` braces open, or -1 when the text ends first.
   */
  function SpecEnd(s: string, i: nat, depth: nat): (k: int)
    requires i <= |s| && depth >= 1
    ensures k == -1 || (i < k <= |s| && s[k - 1] == '}')
    decreases |s| - i
  {
    if i == |s| then -1
    else if s[i] == '{' then SpecEnd(s, i + 1, depth + 1)
    else if s[i] == '}' then (if depth == 1 then i + 1 else SpecEnd(s, i + 1, depth - 1))
    else SpecEnd(s, i + 1, depth)
  }

  /** The replacement field whose text starts at `i`, just after its opening `{`. */
  function ParseField(s: string, i: nat): (r: Field)
    requires i <= |s|
    ensures r.Field? ==> i < r.next <= |s| && r.name == s[i..NameEnd(s, i)]
  {
    var j := NameEnd(s, i);
    if j == |s| then FieldFailed(ExpectedClose)
    else if s[j] == '{' then FieldFailed(OpenInName)
    else if s[j] == '}' then Field(s[i..j], j + 1)
    else if s[j] == ':' then
      var e := SpecEnd(s, j + 1, 1);
      if e < 0 then FieldFailed(UnmatchedInSpec) else Field(s[i..j], e)
    else if j + 1 == |s| then FieldFailed(EndBeforeConversion)
    else if j + 2 == |s| then FieldFailed(UnmatchedInSpec)
    else if s[j + 2] == '}' then Field(s[i..j], j + 3)
    else if s[j + 2] != ':' then FieldFailed(ExpectedColon)
    else
      var e := SpecEnd(s, j + 3, 1);
      if e < 0 then FieldFailed(UnmatchedInSpec) else Field(s[i..j], e)
  }

  /** Put a literal piece and field names in front of the rest of a scan; an error stays an error. */
  function Prepend(literal: string, names: seq<string>, rest: Scan): Scan {
    match rest
    case FormatError(_) => rest
    case Template(l, n) => Template(literal + l, names + n)
  }

  /** The parse of `s[i..]`. */
  function ScanFrom(s: string, i: nat): Scan
    requires i <= |s|
    decreases |s| - i
  {
    var k := NextMarkup(s, i);
    if k == |s| then Template(s[i..], [])
    else if s[k] == '}' then
      if k + 1 < |s| && s[k + 1] == '}' then Prepend(s[i..k + 1], [], ScanFrom(s, k + 2))
      else FormatError(SingleClose)
    else if k + 1 == |s| then FormatError(SingleOpen)
    else if s[k + 1] == '{' then Prepend(s[i..k + 1], [], ScanFrom(s, k + 2))
    else
      match ParseField(s, k + 1)
      case FieldFailed(e) => FormatError(e)
      case Field(name, next) => Prepend(s[i..k], [name], ScanFrom(s, next))
  }

  /**
   * `Formatter().parse(s)` consumed in full. Text without braces is one
   * literal with no fields; a lone `}` is rejected.
   */
  function ParseTemplate(s: string): (r: Scan)
    ensures (forall m :: 0 <= m < |s| ==> !IsBrace(s[m])) ==> r == Template(s, [])
    ensures s == "}" ==> r == FormatError(SingleClose)
  {
    ScanFrom(s, 0)
  }

  /**
   * A template that opens a replacement field at its first character: it
   * fails as that field fails, or yields that field's name first.
   */
  lemma OpeningField(s: string)
    ensures |s| >= 2 && s[0] == '{' && s[1] != '{' ==>
              && (ParseField(s, 1).FieldFailed? ==> ParseTemplate(s) == FormatError(ParseField(s, 1).message))
              && (ParseField(s, 1).Field? && ParseTemplate(s).Template? ==>
                    |ParseTemplate(s).names| > 0 && ParseTemplate(s).names[0] == ParseField(s, 1).name)
              && (ParseField(s, 1).Field? ==>
                    (ParseTemplate(s).FormatError? <==> ScanFrom(s, ParseField(s, 1).next).FormatError?))
  {
    if |s| >= 2 && s[0] == '{' && s[1] != '{' {
      assert NextMarkup(s, 0) == 0;
    }
  }

  /** A field name free of terminators and `[` ends at the first terminator. */
  lemma {:induction false} NameEndPlain(s: string, i: nat, j: nat)
    requires i <= j < |s| && EndsName(s[j])
    requires forall m :: i <= m < j ==> !EndsName(s[m]) && s[m] != '['
    ensures NameEnd(s, i) == j
    decreases j - i
  {
    if i < j {
      NameEndPlain(s, i + 1, j);
    }
  }

  /** A format spec free of braces up to a `}` is closed by that `}`. */
  lemma {:induction false} SpecEndPlain(s: string, i: nat, j: nat)
    requires i <= j < |s| && s[j] == '}'
    requires forall m :: i <= m < j ==> !IsBrace(s[m])
    ensures SpecEnd(s, i, 1) == j + 1
    decreases j - i
  {
    if i < j {
      SpecEndPlain(s, i + 1, j);
    }
  }

  /**
   * An object-like template `{name: spec}` whose name and spec are free of
   * special characters declares exactly the variable `name`.
   */
  lemma SingleFieldTemplate(t: string, j: nat)
    requires 1 < j < |t| - 1 && t[0] == '{' && t[j] == ':' && t[|t| - 1] == '}'
    requires forall m :: 1 <= m < j ==> !EndsName(t[m]) && t[m] != '['
    requires forall m :: j < m < |t| - 1 ==> !IsBrace(t[m])
    ensures ParseTemplate(t) == Template("", [t[1..j]])
  {
    NameEndPlain(t, 1, j);
    SpecEndPlain(t, j + 1, |t| - 1);
    assert ParseField(t, 1) == Field(t[1..j], |t|);
    assert NextMarkup(t, 0) == 0;
    assert ScanFrom(t, |t|) == Template("", []);
  }

  /**
   * A template `{name: spec}}`: the field closes at the first `}` of the
   * pair, and the lone `}` left after it is rejected.
   */
  lemma FieldThenSingleClose(t: string, j: nat)
    requires 1 < j < |t| - 2 && t[0] == '{' && t[j] == ':' && t[|t| - 2] == '}' && t[|t| - 1] == '}'
    requires forall m :: 1 <= m < j ==> !EndsName(t[m]) && t[m] != '['
    requires forall m :: j < m < |t| - 2 ==> !IsBrace(t[m])
    ensures ParseTemplate(t) == FormatError(SingleClose)
  {
    NameEndPlain(t, 1, j);
    SpecEndPlain(t, j + 1, |t| - 2);
    assert ParseField(t, 1) == Field(t[1..j], |t| - 1);
    assert NextMarkup(t, 0) == 0;
    assert NextMarkup(t, |t| - 1) == |t| - 1;
    assert ScanFrom(t, |t| - 1) == FormatError(SingleClose);
  }
}
