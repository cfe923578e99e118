/**
  The seven annotation kinds (`SummaryAttribute`, `SummeryAttribute`,
  `RemarksAttribute`, `ExampleAttribute`, `ExceptionAttribute`,
  `ParameterAttribute`, `ReturnsAttribute`, all over `DocsGenAttribute`)
  and their per-dialect renderers.

  The key-value dialect's indentation is an explicit argument of `Render`
  rather than a field written onto the (possibly shared) annotation just
  before it is rendered. Only the summary's YAML line reads it.
*/
module Attributes {
  import opened Wrappers
  import opened Text
  import opened DocTypes

  /** An annotation; every field is init-only, so a value is all there is. */
  datatype Annotation =
    | Summary(message: string)
    | Summery(message: string)
    | Remarks(message: string, docTexts: seq<string>)
    | Example(message: string, code: string)
    | Exception(message: string, memberType: string)
    | Parameter(message: string, parameterName: string, parameterType: string)
    | Returns(message: string)

  // ----- construction -----

  /** The `Message` that a `DocsGenAttribute` constructor stores: `null` (or
      the parameterless constructor, here `None`) becomes the empty string. */
  function MessageOf(message: Option<string>): (r: string)
    ensures message.None? ==> r == ""
    ensures message.Some? ==> r == message.value
  {
    match message
    case None => ""
    case Some(m) => m
  }

  /** A string property assigned verbatim; `null` reads as empty everywhere
      it is used (`IsNullOrEmpty`, interpolation, `AppendLine`). */
  function OrEmpty(s: Option<string>): (r: string)
    ensures s.None? ==> r == ""
    ensures s.Some? ==> r == s.value
  {
    if s.Some? then s.value else ""
  }

  /** `new RemarksAttribute(message, parms)`; a `null` array becomes empty. */
  function NewRemarks(message: Option<string>, parms: Option<seq<string>>): (a: Annotation)
    ensures a.Remarks?
    ensures a.message == MessageOf(message)
    ensures parms.None? ==> a.docTexts == []
    ensures parms.Some? ==> a.docTexts == parms.value
  {
    Remarks(MessageOf(message), if parms.Some? then parms.value else [])
  }

  /** `new ParameterAttribute(name, typeName, message)`; name and type are
      stored as given. `new ParameterAttribute()` is all three `None`. */
  function NewParameter(name: Option<string>, typeName: Option<string>, message: Option<string>): (a: Annotation)
    ensures a.Parameter?
    ensures a.parameterName == OrEmpty(name) && a.parameterType == OrEmpty(typeName)
    ensures a.message == MessageOf(message)
  {
    Parameter(MessageOf(message), OrEmpty(name), OrEmpty(typeName))
  }

  /** `new ExceptionAttribute(message, type)`. */
  function NewException(message: Option<string>, typeName: Option<string>): (a: Annotation)
    ensures a.Exception?
    ensures a.memberType == OrEmpty(typeName) && a.message == MessageOf(message)
  {
    Exception(MessageOf(message), OrEmpty(typeName))
  }

  /** `new ExampleAttribute(message, code)`. */
  function NewExample(message: Option<string>, code: Option<string>): (a: Annotation)
    ensures a.Example?
    ensures a.code == OrEmpty(code) && a.message == MessageOf(message)
  {
    Example(MessageOf(message), OrEmpty(code))
  }

  /** A `null` constructor argument reads as the empty one: the message
      through `message ?? string.Empty`, the Remarks paragraphs through
      `parms ?? new string[0]`, and the name and type strings wherever the
      renderers interpolate or test them. */
  lemma NullArgumentsReadAsEmpty(m: Option<string>, x: Option<string>, y: Option<string>, ps: Option<seq<string>>)
    ensures NewRemarks(None, ps) == NewRemarks(Some(""), ps)
    ensures NewRemarks(m, None) == NewRemarks(m, Some([]))
    ensures NewParameter(None, x, m) == NewParameter(Some(""), x, m)
    ensures NewParameter(x, None, m) == NewParameter(x, Some(""), m)
    ensures NewParameter(x, y, None) == NewParameter(x, y, Some(""))
    ensures NewException(None, x) == NewException(Some(""), x)
    ensures NewException(m, None) == NewException(m, Some(""))
    ensures NewExample(None, x) == NewExample(Some(""), x)
    ensures NewExample(m, None) == NewExample(m, Some(""))
  {
  }

  /** Whatever is passed, the plain text of a message-only annotation is
      the stored message, so a `null` message prints as nothing. */
  lemma MessageIsPlainText(m: Option<string>)
    ensures PlainText(Summary(MessageOf(m))) == PlainText(Returns(MessageOf(m))) == MessageOf(m)
    ensures m.None? ==> PlainText(Summary(MessageOf(m))) == ""
  {
  }

  // ----- text helpers -----

  predicate IsLineBreak(c: char)
  {
    c == '\n' || c == '\r'
  }

  /** The message as one YAML scalar: split on line breaks, empty pieces
      dropped, the rest joined without a separator, which is the message
      with its line-break characters removed. */
  function MessageAllTrim(m: string): (r: string)
    ensures forall k :: 0 <= k < |r| ==> !IsLineBreak(r[k])
    ensures '\n' !in r && '\r' !in r
    ensures |r| <= |m|
    ensures (forall k :: 0 <= k < |m| ==> !IsLineBreak(m[k])) ==> r == m
    decreases |m|
  {
    if |m| == 0 then ""
    else if IsLineBreak(m[|m| - 1]) then MessageAllTrim(m[..|m| - 1])
    else
      assert m[..|m| - 1] + [m[|m| - 1]] == m;
      MessageAllTrim(m[..|m| - 1]) + [m[|m| - 1]]
  }

  predicate NonEmpty(p: string)
  {
    p != ""
  }

  /** The tokens around one Remarks paragraph in the tag dialects, and the
      YAML item marker. */
  const ParaOpen: string := "<para>"
  const ParaClose: string := "</para>"
  const HtmlParaOpen: string := "<p>"
  const HtmlParaClose: string := "</p>"
  const Bullet: string := "- "

  /** What one Remarks paragraph adds in a dialect (`Other`: the plain
      `ToString()`); an empty paragraph adds nothing. */
  function Para(doc: DocType, p: string): (r: string)
    ensures p == "" ==> r == ""
  {
    if p == "" then ""
    else match doc
      case Xml => Line(ParaOpen) + Line(p) + Line(ParaClose)
      case Md => Line(p) + Line(NewLine)
      case Yml => Line(Bullet + p)
      case Html => Line(HtmlParaOpen) + Line(p) + Line(HtmlParaClose)
      case Other => Line(p)
  }

  /** What the `foreach` over `DocTexts` adds in a dialect. */
  function Paragraphs(ps: seq<string>, doc: DocType): string
    decreases |ps|
  {
    if |ps| == 0 then "" else Paragraphs(ps[..|ps| - 1], doc) + Para(doc, ps[|ps| - 1])
  }

  lemma ParagraphsSnoc(ps: seq<string>, p: string, doc: DocType)
    ensures Paragraphs(ps + [p], doc) == Paragraphs(ps, doc) + Para(doc, p)
  {
    assert (ps + [p])[..|ps|] == ps;
  }

  lemma ParagraphsStep(ps: seq<string>, k: nat, doc: DocType)
    requires k < |ps|
    ensures Paragraphs(ps[..k + 1], doc) == Paragraphs(ps[..k], doc) + Para(doc, ps[k])
  {
    assert ps[..k + 1] == ps[..k] + [ps[k]];
    ParagraphsSnoc(ps[..k], ps[k], doc);
  }

  // ----- renderers -----

  /** `SummaryAttribute.ToString(DocType)`. */
  function SummaryText(m: string, doc: DocType, indent: string): string
  {
    match doc
    case Xml => Line("<summary>") + Line(m) + Line("</summary>")
    case Md => Line("##### summary") + Line(m) + Line(NewLine)
    case Yml => Line(indent + "summary: \"" + MessageAllTrim(m) + "\"")
    case Html => Line("<summary>") + Line("<h5>summary</h5>") + Line(m) + Line("</summary>")
    case Other => m
  }

  /** `SummeryAttribute.ToString(DocType)`. */
  function SummeryText(m: string, doc: DocType): string
  {
    match doc
    case Xml => Line("<summery>") + Line(m) + Line("</summery>")
    case Md => Line("##### Summery") + Line(m) + Line(NewLine)
    case Yml => Line("summery: " + m)
    case _ => m
  }

  /** `ReturnsAttribute.ToString(DocType)`. */
  function ReturnsText(m: string, doc: DocType): string
  {
    match doc
    case Xml => Line("<returns>") + Line(m) + Line("</returns>")
    case Md => Line("##### Returns") + Line(m) + Line(NewLine)
    case Yml => Line("returns: " + m)
    case _ => m
  }

  /** `RemarksAttribute.ToString()`. */
  function RemarksPlain(m: string, ps: seq<string>): string
  {
    Line(m) + Line(NewLine) + Paragraphs(ps, Other)
  }

  /** `RemarksAttribute.ToString(DocType)`. */
  function RemarksText(m: string, ps: seq<string>, doc: DocType): string
  {
    match doc
    case Xml => Line("<remarks>") + Line(m) + Paragraphs(ps, Xml) + Line("</remarks>")
    case Md => Line("##### Remarks") + Line(m) + Line(NewLine) + Paragraphs(ps, Md)
    case Yml => Line("remarks: " + m) + Paragraphs(ps, Yml)
    case Html => Line("<summary>") + Line("<h5>Remarks</h5>") + Line(m) + Paragraphs(ps, Html) + Line("</summary>")
    case Other => RemarksPlain(m, ps)
  }

  /** `ExampleAttribute.ToString()`. */
  function ExamplePlain(m: string, code: string): string
  {
    Line(m) + Line(NewLine) + Line(code)
  }

  /** `ExampleAttribute.ToString(DocType)`. */
  function ExampleText(m: string, code: string, doc: DocType): string
  {
    match doc
    case Xml => Line("<example>") + Line(m) + Line("<code>") + Line(code) + Line("</code>") + Line("</example>")
    case Md => Line("##### Example") + Line(m) + Line(NewLine) + Line("```C#" + NewLine + code + NewLine + "```")
    case Yml => Line("example: " + m) + Line("- code: " + code)
    case Html => Line("<summary>") + Line("<h5>Example</h5>") + Line(m) + Line("<code><pre>") + Line(code)
               + Line("</pre></code>") + Line("</summary>")
    case Other => ExamplePlain(m, code)
  }

  /** `ExceptionAttribute.ToString()` as written: the `Type:` line is
      emitted when the type is EMPTY. */
  function ExceptionPlainAsWritten(m: string, t: string): string
  {
    (if t == "" then Line(t + ":") else "") + Line(m)
  }

  /** `ExceptionAttribute.ToString()` as intended: the `Type:` line names
      the exception type when there is one. */
  function ExceptionPlain(m: string, t: string): string
  {
    (if t != "" then Line(t + ":") else "") + Line(m)
  }

  /** The YAML case of `ExceptionAttribute.ToString(DocType)` as written:
      the `- type:` line is emitted when the type is EMPTY. */
  function ExceptionYamlAsWritten(m: string, t: string): string
  {
    Line("exception: " + m) + (if t == "" then Line("- type: " + t) else "")
  }

  /** The YAML case as intended: a `- type:` line when there is a type. */
  function ExceptionYaml(m: string, t: string): string
  {
    Line("exception: " + m) + (if t != "" then Line("- type: " + t) else "")
  }

  /** `ExceptionAttribute.ToString(DocType)` as written: the YAML and
      fallback cases test the type the wrong way round; HTML has no case of
      its own. */
  function ExceptionText(m: string, t: string, doc: DocType): string
  {
    match doc
    case Xml => Line("<exception " + (if t != "" then "cref = \"" + t + "\"" else "") + ">" + m + "</exception>")
    case Md => Line("> " + (if t != "" then "`" + t + "`" else "") + ": " + m)
    case Yml => ExceptionYamlAsWritten(m, t)
    case _ => ExceptionPlainAsWritten(m, t)
  }

  /** `ParameterAttribute.ToString()`. */
  function ParameterPlain(m: string, name: string, typeName: string): string
  {
    typeName + " " + name + ": " + m
  }

  /** The `name = "..."` attribute of a `<param>` tag, present only for a name. */
  function ParamNameAttr(name: string): string
  {
    if name != "" then "name = \"" + name + "\"" else ""
  }

  /** `ParameterAttribute.ToString(DocType)`; HTML has no case of its own. */
  function ParameterText(m: string, name: string, typeName: string, doc: DocType): string
  {
    match doc
    case Xml => Line("<param " + ParamNameAttr(name) + " "
                     + (if typeName != "" then "cref = \"" + typeName + "\"" else "") + " >" + m + "</param>")
    case Md => Line("> **param:** `" + typeName + "` " + name + ": " + m)
    case Yml => Line("param: " + name) + Line("- type: " + typeName) + Line("- message: " + m)
    case _ => ParameterPlain(m, name, typeName)
  }

  /** `ToString(DocType)` of any annotation, with the key-value dialect's
      indentation passed in. */
  function Render(a: Annotation, doc: DocType, indent: string): string
  {
    match a
    case Summary(m) => SummaryText(m, doc, indent)
    case Summery(m) => SummeryText(m, doc)
    case Remarks(m, ps) => RemarksText(m, ps, doc)
    case Example(m, code) => ExampleText(m, code, doc)
    case Exception(m, t) => ExceptionText(m, t, doc)
    case Parameter(m, name, typeName) => ParameterText(m, name, typeName, doc)
    case Returns(m) => ReturnsText(m, doc)
  }

  /** `ToString()` of any annotation: the base class's `Message`, or the
      kind's own override. */
  function PlainText(a: Annotation): string
  {
    match a
    case Summary(m) => m
    case Summery(m) => m
    case Remarks(m, ps) => RemarksPlain(m, ps)
    case Example(m, code) => ExamplePlain(m, code)
    case Exception(m, t) => ExceptionPlainAsWritten(m, t)
    case Parameter(m, name, typeName) => ParameterPlain(m, name, typeName)
    case Returns(m) => m
  }

  /** The tag that encloses a tag-dialect block, for the kinds that have one. */
  function XmlTag(a: Annotation): string
  {
    match a
    case Summary(_) => "summary"
    case Summery(_) => "summery"
    case Remarks(_, _) => "remarks"
    case Example(_, _) => "example"
    case Returns(_) => "returns"
    case _ => ""
  }

  // ----- the imperative renderer -----

  /** One turn of the `foreach` over `DocTexts`: a non-empty paragraph is
      appended in the dialect's form, an empty one is skipped. */
  method AppendPara(sb: StringBuilder, doc: DocType, para: string)
    modifies sb
    ensures sb.content == old(sb.content) + Para(doc, para)
  {
    var s0 := sb.content;
    if para != "" {
      match doc
      case Xml =>
        sb.AppendLine(ParaOpen);
        sb.AppendLine(para);
        sb.AppendLine(ParaClose);
        Regroup3(s0, Line(ParaOpen), Line(para), Line(ParaClose));
      case Md =>
        sb.AppendLine(para);
        sb.AppendLine(NewLine);
        Regroup(s0, Line(para), Line(NewLine));
      case Yml =>
        sb.AppendLine(Bullet + para);
      case Html =>
        sb.AppendLine(HtmlParaOpen);
        sb.AppendLine(para);
        sb.AppendLine(HtmlParaClose);
        Regroup3(s0, Line(HtmlParaOpen), Line(para), Line(HtmlParaClose));
      case Other =>
        sb.AppendLine(para);
    }
  }

  /** The `foreach` over `DocTexts`. */
  method AppendParagraphs(sb: StringBuilder, ps: seq<string>, doc: DocType)
    modifies sb
    ensures sb.content == old(sb.content) + Paragraphs(ps, doc)
  {
    var k := 0;
    while k < |ps|
      invariant 0 <= k <= |ps|
      invariant sb.content == old(sb.content) + Paragraphs(ps[..k], doc)
    {
      AppendPara(sb, doc, ps[k]);
      ParagraphsStep(ps, k, doc);
      Regroup(old(sb.content), Paragraphs(ps[..k], doc), Para(doc, ps[k]));
      k := k + 1;
    }
    assert ps[..|ps|] == ps;
  }

  /** The XML case of `RemarksAttribute.ToString(DocType)`. */
  method RemarksXml(m: string, ps: seq<string>) returns (s: string)
    ensures s == RemarksText(m, ps, Xml)
  {
    var sb := new StringBuilder();
    sb.AppendLine("<remarks>");
    assert sb.content == Line("<remarks>");
    sb.AppendLine(m);
    AppendParagraphs(sb, ps, Xml);
    sb.AppendLine("</remarks>");
    s := sb.ToString();
  }

  /** The Markdown case of `RemarksAttribute.ToString(DocType)`. */
  method RemarksMarkdown(m: string, ps: seq<string>) returns (s: string)
    ensures s == RemarksText(m, ps, Md)
  {
    var sb := new StringBuilder();
    sb.AppendLine("##### Remarks");
    sb.AppendLine(m);
    sb.AppendLine(NewLine);
    AppendParagraphs(sb, ps, Md);
    s := sb.ToString();
  }

  /** The YAML case of `RemarksAttribute.ToString(DocType)`. */
  method RemarksYaml(m: string, ps: seq<string>) returns (s: string)
    ensures s == RemarksText(m, ps, Yml)
  {
    var sb := new StringBuilder();
    sb.AppendLine("remarks: " + m);
    assert sb.content == Line("remarks: " + m);
    AppendParagraphs(sb, ps, Yml);
    s := sb.ToString();
  }

  /** The HTML case of `RemarksAttribute.ToString(DocType)`. */
  method RemarksHtml(m: string, ps: seq<string>) returns (s: string)
    ensures s == RemarksText(m, ps, Html)
  {
    var sb := new StringBuilder();
    sb.AppendLine("<summary>");
    assert sb.content == Line("<summary>");
    sb.AppendLine("<h5>Remarks</h5>");
    sb.AppendLine(m);
    AppendParagraphs(sb, ps, Html);
    sb.AppendLine("</summary>");
    s := sb.ToString();
  }

  /** `RemarksAttribute.ToString()`, which the `default` case returns. */
  method RemarksToPlain(m: string, ps: seq<string>) returns (s: string)
    ensures s == RemarksPlain(m, ps)
  {
    var sb := new StringBuilder();
    sb.AppendLine(m);
    sb.AppendLine(NewLine);
    AppendParagraphs(sb, ps, Other);
    s := sb.ToString();
  }

  /** `RemarksAttribute.ToString(DocType)`: the switch over the dialect. */
  method RemarksToString(m: string, ps: seq<string>, doc: DocType) returns (s: string)
    ensures s == Render(Remarks(m, ps), doc, "")
  {
    match doc
    case Xml => s := RemarksXml(m, ps);
    case Md => s := RemarksMarkdown(m, ps);
    case Yml => s := RemarksYaml(m, ps);
    case Html => s := RemarksHtml(m, ps);
    case Other => s := RemarksToPlain(m, ps);
  }

  // ----- lemmas -----

  /** `DocsGenAttribute.ToString()` is the message, unchanged, for the kinds
      that do not override it. */
  lemma PlainTextIsMessage(a: Annotation)
    requires a.Summary? || a.Summery? || a.Returns?
    ensures PlainText(a) == a.message
  {
  }

  /** Every dialect without a case of its own, and every dialect outside
      the four, falls back to the plain `ToString()`. */
  lemma FallsBackToPlainText(a: Annotation, indent: string)
    ensures Render(a, Other, indent) == PlainText(a)
    ensures (a.Summery? || a.Returns? || a.Exception? || a.Parameter?) ==> Render(a, Html, indent) == PlainText(a)
  {
  }

  /** The indentation reaches the output only through the summary's YAML line. */
  lemma IndentOnlyInYamlSummary(a: Annotation, doc: DocType, i1: string, i2: string)
    requires !(a.Summary? && doc == Yml)
    ensures Render(a, doc, i1) == Render(a, doc, i2)
  {
  }

  /** A tag-dialect block opens and closes with its kind's tag, each on a
      line of its own. */
  lemma XmlBlockBalanced(a: Annotation, indent: string)
    requires a.Summary? || a.Summery? || a.Remarks? || a.Example? || a.Returns?
    ensures StartsWith(Render(a, Xml, indent), Line("<" + XmlTag(a) + ">"))
    ensures EndsWith(Render(a, Xml, indent), Line("</" + XmlTag(a) + ">"))
  {
    match a
    case Summary(m) => TagBlock("summary", "<summary>", "</summary>", Line(m));
    case Summery(m) => TagBlock("summery", "<summery>", "</summery>", Line(m));
    case Returns(m) => TagBlock("returns", "<returns>", "</returns>", Line(m));
    case Remarks(m, ps) => TagBlock("remarks", "<remarks>", "</remarks>", Line(m) + Paragraphs(ps, Xml));
    case Example(m, code) =>
      TagBlock("example", "<example>", "</example>", Line(m) + Line("<code>") + Line(code) + Line("</code>"));
  }

  /** A block between an opening and a closing tag line for one tag. */
  lemma TagBlock(tag: string, open: string, close: string, mid: string)
    requires open == "<" + tag + ">" && close == "</" + tag + ">"
    ensures StartsWith(Line(open) + mid + Line(close), Line("<" + tag + ">"))
    ensures EndsWith(Line(open) + mid + Line(close), Line("</" + tag + ">"))
  {
    Enclosed(open, mid, close);
  }

  /** A line, any text, and a line: the first line opens, the last closes. */
  lemma Enclosed(open: string, mid: string, close: string)
    ensures StartsWith(Line(open) + mid + Line(close), Line(open))
    ensures EndsWith(Line(open) + mid + Line(close), Line(close))
  {
    var x := Line(open) + mid + Line(close);
    assert x[..|Line(open)|] == Line(open);
    assert x[|x| - |Line(close)|..] == Line(close);
  }

  /** Text that differs from `p` at some position inside both does not start with `p`. */
  lemma DiffersAt(s: string, p: string, k: nat)
    requires k < |s| && k < |p| && s[k] != p[k]
    ensures !StartsWith(s, p)
  {
  }

  lemma PrefixOf(a: string, b: string)
    ensures StartsWith(a + b, a)
  {
    assert (a + b)[..|a|] == a;
  }

  /** In HTML, summary, remarks and example are each one `<summary>` block
      headed by an `<h5>` naming the kind. */
  lemma HtmlCardBalanced(a: Annotation, indent: string)
    requires a.Summary? || a.Remarks? || a.Example?
    ensures StartsWith(Render(a, Html, indent), Line("<summary>") + Line("<h5>" + HtmlHeading(a) + "</h5>"))
    ensures EndsWith(Render(a, Html, indent), Line("</summary>"))
  {
    var h := "<h5>" + HtmlHeading(a) + "</h5>";
    match a
    case Summary(m) =>
      assert h == "<h5>summary</h5>";
      Card(h, Line(m));
    case Remarks(m, ps) =>
      assert h == "<h5>Remarks</h5>";
      Card(h, Line(m) + Paragraphs(ps, Html));
    case Example(m, code) =>
      assert h == "<h5>Example</h5>";
      Card(h, Line(m) + Line("<code><pre>") + Line(code) + Line("</pre></code>"));
  }

  /** The heading an HTML card names its kind by. */
  function HtmlHeading(a: Annotation): string
  {
    match a
    case Summary(_) => "summary"
    case Remarks(_, _) => "Remarks"
    case Example(_, _) => "Example"
    case _ => ""
  }

  /** A `<summary>` block with a heading line and any body. */
  lemma Card(heading: string, body: string)
    ensures StartsWith(Line("<summary>") + Line(heading) + body + Line("</summary>"), Line("<summary>") + Line(heading))
    ensures EndsWith(Line("<summary>") + Line(heading) + body + Line("</summary>"), Line("</summary>"))
  {
    Enclosed("<summary>", Line(heading) + body, "</summary>");
    PrefixOf(Line("<summary>") + Line(heading), body + Line("</summary>"));
    assert Line("<summary>") + Line(heading) + body + Line("</summary>")
        == Line("<summary>") + (Line(heading) + body) + Line("</summary>");
  }

  /** The summary's YAML form is a single line: the indentation, the key and
      the message, line breaks removed, in double quotes. */
  lemma YamlSummaryIsOneLine(m: string, indent: string)
    requires '\n' !in indent
    ensures Split(SummaryText(m, Yml, indent), '\n') == [indent + "summary: \"" + MessageAllTrim(m) + "\"", ""]
  {
    var x := indent + "summary: \"" + MessageAllTrim(m) + "\"";
    assert '\n' !in "summary: \"" && '\n' !in "\"";
    NoBreakConcat(indent, "summary: \"");
    NoBreakConcat(indent + "summary: \"", MessageAllTrim(m));
    NoBreakConcat(indent + "summary: \"" + MessageAllTrim(m), "\"");
    LinesOne(x);
    SplitLines([x]);
  }

  /** Empty paragraphs are skipped: `Paragraphs` only sees the kept ones. */
  lemma {:induction false} ParagraphsSkipEmpty(ps: seq<string>, doc: DocType)
    ensures Paragraphs(ps, doc) == Paragraphs(Filter(ps, NonEmpty), doc)
    decreases |ps|
  {
    if |ps| > 0 {
      var init, last := ps[..|ps| - 1], ps[|ps| - 1];
      ParagraphsSkipEmpty(init, doc);
      var fi := Filter(init, NonEmpty);
      if last != "" {
        assert (fi + [last])[..|fi|] == fi;
      } else {
        assert Filter(ps, NonEmpty) == fi + [];
        assert fi + [] == fi;
      }
    }
  }

  /** Remarks render the same, in every dialect, with their empty paragraphs
      removed. */
  lemma RemarksIgnoresEmptyParagraphs(m: string, ps: seq<string>, doc: DocType, indent: string)
    ensures Render(Remarks(m, ps), doc, indent) == Render(Remarks(m, Filter(ps, NonEmpty)), doc, indent)
  {
    ParagraphsSkipEmpty(ps, doc);
    ParagraphsSkipEmpty(ps, Other);
  }

  /** `- p` for each paragraph, in order. */
  function Bullets(ps: seq<string>): (r: seq<string>)
    ensures |r| == |ps|
  {
    seq(|ps|, k requires 0 <= k < |ps| => Bullet + ps[k])
  }

  lemma {:induction false} YamlParagraphsAreBullets(qs: seq<string>)
    requires forall k :: 0 <= k < |qs| ==> qs[k] != ""
    ensures Paragraphs(qs, Yml) == Lines(Bullets(qs))
    decreases |qs|
  {
    if |qs| > 0 {
      var n := |qs| - 1;
      YamlParagraphsAreBullets(qs[..n]);
      assert Bullets(qs)[..n] == Bullets(qs[..n]);
    }
  }

  /** The YAML remarks are the line `remarks: m` followed by one `- p` line
      per non-empty paragraph, in order, and nothing else. */
  lemma YamlRemarksLines(m: string, ps: seq<string>)
    requires '\n' !in m
    requires forall k :: 0 <= k < |ps| ==> '\n' !in ps[k]
    ensures Split(RemarksText(m, ps, Yml), '\n')
         == ["remarks: " + m] + Bullets(Filter(ps, NonEmpty)) + [""]
  {
    var ls := ["remarks: " + m] + Bullets(Filter(ps, NonEmpty));
    YamlRemarksAreLines(m, ps);
    YamlRemarksLinesNoBreak(m, ps);
    SplitLines(ls);
  }

  lemma YamlRemarksAreLines(m: string, ps: seq<string>)
    ensures RemarksText(m, ps, Yml) == Lines(["remarks: " + m] + Bullets(Filter(ps, NonEmpty)))
  {
    var qs := Filter(ps, NonEmpty);
    ParagraphsSkipEmpty(ps, Yml);
    YamlParagraphsAreBullets(qs);
    LinesCons("remarks: " + m, Bullets(qs));
  }

  lemma YamlRemarksLinesNoBreak(m: string, ps: seq<string>)
    requires '\n' !in m
    requires forall k :: 0 <= k < |ps| ==> '\n' !in ps[k]
    ensures var ls := ["remarks: " + m] + Bullets(Filter(ps, NonEmpty));
            forall k :: 0 <= k < |ls| ==> '\n' !in ls[k]
  {
    var qs := Filter(ps, NonEmpty);
    var bs := Bullets(qs);
    var ls := ["remarks: " + m] + bs;
    assert '\n' !in Bullet;
    assert '\n' !in "remarks: ";
    NoBreakConcat("remarks: ", m);
    forall k | 0 <= k < |ls|
      ensures '\n' !in ls[k]
    {
      if k > 0 {
        assert ls[k] == Bullet + qs[k - 1];
        assert qs[k - 1] in ps;
        NoBreakConcat(Bullet, qs[k - 1]);
      }
    }
  }

  lemma NoBreakConcat(a: string, b: string)
    requires '\n' !in a && '\n' !in b
    ensures '\n' !in a + b
  {
  }

  lemma LinesOne(x: string)
    ensures Lines([x]) == Line(x)
  {
    assert [x][..0] == [];
    assert ConcatMap([x], Line) == ConcatMap([], Line) + Line(x);
    assert "" + Line(x) == Line(x);
  }

  lemma LinesTwo(x: string, y: string)
    ensures Lines([x, y]) == Line(x) + Line(y)
  {
    assert [x, y][..1] == [x];
    assert [x][..0] == [];
    assert ConcatMap([x], Line) == ConcatMap([], Line) + Line(x);
    assert "" + Line(x) == Line(x);
    assert ConcatMap([x, y], Line) == ConcatMap([x], Line) + Line(y);
  }

  lemma LinesThree(x: string, y: string, z: string)
    ensures Lines([x, y, z]) == Line(x) + Line(y) + Line(z)
  {
    assert [x, y, z][..2] == [x, y];
    LinesTwo(x, y);
  }

  /** The YAML example is exactly two lines, `example: m` and `- code: c`,
      when neither contains a line break. */
  lemma YamlExampleTwoLines(m: string, code: string)
    requires '\n' !in m && '\n' !in code
    ensures Split(ExampleText(m, code, Yml), '\n') == ["example: " + m, "- code: " + code, ""]
  {
    assert '\n' !in "example: " && '\n' !in "- code: ";
    NoBreakConcat("example: ", m);
    NoBreakConcat("- code: ", code);
    LinesTwo("example: " + m, "- code: " + code);
    SplitLines(["example: " + m, "- code: " + code]);
  }

  /** The YAML parameter is exactly three lines: name, type and message. */
  lemma YamlParameterThreeLines(m: string, name: string, typeName: string)
    requires '\n' !in m && '\n' !in name && '\n' !in typeName
    ensures Split(ParameterText(m, name, typeName, Yml), '\n')
         == ["param: " + name, "- type: " + typeName, "- message: " + m, ""]
  {
    assert '\n' !in "param: " && '\n' !in "- type: " && '\n' !in "- message: ";
    NoBreakConcat("param: ", name);
    NoBreakConcat("- type: ", typeName);
    NoBreakConcat("- message: ", m);
    LinesThree("param: " + name, "- type: " + typeName, "- message: " + m);
    SplitLines(["param: " + name, "- type: " + typeName, "- message: " + m]);
  }

  /** The intended YAML exception: a `- type:` line exactly when the
      exception names a type. */
  lemma YamlExceptionTypeLine(m: string, t: string)
    requires '\n' !in m && '\n' !in t
    ensures Split(ExceptionYaml(m, t), '\n')
         == ["exception: " + m] + (if t != "" then ["- type: " + t] else []) + [""]
  {
    if t != "" {
      YamlTwoLines("exception: ", m, "- type: ", t);
      assert ExceptionYaml(m, t) == Line("exception: " + m) + Line("- type: " + t);
    } else {
      YamlOneLine("exception: ", m);
      var x := Line("exception: " + m);
      assert x + "" == x;
      assert ExceptionYaml(m, t) == x;
    }
  }

  /** As written, the YAML exception drops the type of every exception that
      names one: `Exception("bad index", "ArgumentException")` gives the
      single line `exception: bad index`. */
  lemma YamlExceptionAsWrittenDropsType(m: string, t: string)
    requires '\n' !in m && '\n' !in t && t != ""
    ensures Split(ExceptionYamlAsWritten(m, t), '\n') == ["exception: " + m, ""]
    ensures Split(ExceptionYaml(m, t), '\n') == ["exception: " + m, "- type: " + t, ""]
  {
    YamlOneLine("exception: ", m);
    var x := Line("exception: " + m);
    assert x + "" == x;
    assert ExceptionYamlAsWritten(m, t) == x;
    YamlExceptionTypeLine(m, t);
  }

  /** One `key value` line splits back into itself. */
  lemma YamlOneLine(k: string, v: string)
    requires '\n' !in k && '\n' !in v
    ensures Split(Line(k + v), '\n') == [k + v, ""]
  {
    NoBreakConcat(k, v);
    LinesOne(k + v);
    SplitLines([k + v]);
  }

  /** Two `key value` lines split back into themselves. */
  lemma YamlTwoLines(k1: string, v1: string, k2: string, v2: string)
    requires '\n' !in k1 && '\n' !in v1 && '\n' !in k2 && '\n' !in v2
    ensures Split(Line(k1 + v1) + Line(k2 + v2), '\n') == [k1 + v1, k2 + v2, ""]
  {
    NoBreakConcat(k1, v1);
    NoBreakConcat(k2, v2);
    LinesTwo(k1 + v1, k2 + v2);
    SplitLines([k1 + v1, k2 + v2]);
  }

  /** The intended plain text starts with the type line exactly when there
      is a type, and is the bare message otherwise. */
  lemma ExceptionPlainTypeLine(m: string, t: string)
    ensures t != "" ==> StartsWith(ExceptionPlain(m, t), Line(t + ":"))
    ensures t == "" ==> ExceptionPlain(m, t) == Line(m)
  {
  }

  /** As written, a typed exception loses its type and an untyped one gains
      a stray `:` line: `Exception("boom", "")` prints `:` then `boom`. */
  lemma ExceptionPlainAsWrittenInverted(m: string, t: string)
    ensures t != "" ==> ExceptionPlainAsWritten(m, t) == Line(m) != ExceptionPlain(m, t)
    ensures t == "" ==> ExceptionPlainAsWritten(m, t) == Line(":") + Line(m) != ExceptionPlain(m, t)
  {
  }

  /** What every YAML and HTML document prints for an exception: in YAML,
      the `exception:` line and an empty `- type:` line exactly when the
      exception names no type; in HTML, as in every dialect without a case,
      the plain text, whose `:` line likewise appears only without a type. */
  lemma ExceptionRendersAsWritten(m: string, t: string, indent: string)
    requires '\n' !in m && '\n' !in t
    ensures Split(Render(Exception(m, t), Yml, indent), '\n')
         == ["exception: " + m] + (if t == "" then ["- type: "] else []) + [""]
    ensures Render(Exception(m, t), Html, indent) == PlainText(Exception(m, t))
         == (if t == "" then Line(":") else "") + Line(m)
  {
    assert Render(Exception(m, t), Yml, indent) == ExceptionYamlAsWritten(m, t);
    YamlExceptionAsWrittenLines(m, t);
  }

  lemma YamlExceptionAsWrittenLines(m: string, t: string)
    requires '\n' !in m && '\n' !in t
    ensures Split(ExceptionYamlAsWritten(m, t), '\n')
         == ["exception: " + m] + (if t == "" then ["- type: "] else []) + [""]
  {
    if t == "" {
      YamlTwoLines("exception: ", m, "- type: ", t);
      assert "- type: " + t == "- type: ";
    } else {
      YamlOneLine("exception: ", m);
      var x := Line("exception: " + m);
      assert x + "" == x;
      assert ExceptionYamlAsWritten(m, t) == x;
    }
  }

  /** The tag dialect carries a `cref` attribute exactly when the exception
      names a type. */
  lemma ExceptionCrefIff(m: string, t: string)
    ensures StartsWith(ExceptionText(m, t, Xml), "<exception cref = \"" + t + "\"") <==> t != ""
  {
    var x := ExceptionText(m, t, Xml);
    var p := "<exception cref = \"" + t + "\"";
    if t == "" {
      assert x[11] == '>' && p[11] == 'c';
      DiffersAt(x, p, 11);
    } else {
      assert x == p + (">" + m + "</exception>" + NewLine);
      PrefixOf(p, ">" + m + "</exception>" + NewLine);
    }
  }

  /** Markdown shows the back-quoted type exactly when there is one. */
  lemma ExceptionMarkdownTypeIff(m: string, t: string)
    ensures StartsWith(ExceptionText(m, t, Md), "> `" + t + "`") <==> t != ""
  {
    var y := ExceptionText(m, t, Md);
    var p := "> `" + t + "`";
    if t == "" {
      assert y[2] == ':' && p[2] == '`';
      DiffersAt(y, p, 2);
    } else {
      assert y == p + (": " + m + NewLine);
      PrefixOf(p, ": " + m + NewLine);
    }
  }

  /** The `<param>` tag has a `name` attribute exactly when there is a name. */
  lemma ParameterNameIff(m: string, name: string, typeName: string)
    ensures StartsWith(ParameterText(m, name, typeName, Xml), "<param name = \"" + name + "\"") <==> name != ""
  {
    var rest := " " + (if typeName != "" then "cref = \"" + typeName + "\"" else "") + " >" + m + "</param>" + NewLine;
    assert ParameterText(m, name, typeName, Xml) == "<param " + ParamNameAttr(name) + rest;
    NameAttrPrefixIff(name, rest);
  }

  lemma NameAttrPrefixIff(name: string, rest: string)
    requires |rest| > 0 && rest[0] == ' '
    ensures StartsWith("<param " + ParamNameAttr(name) + rest, "<param name = \"" + name + "\"") <==> name != ""
  {
    var attr := "name = \"" + name + "\"";
    assert "<param " + attr == "<param name = \"" + name + "\"";
    OptionalAttribute("<param ", attr, rest, name != "");
  }

  /** After the name attribute, the `<param>` tag has a `cref` attribute
      exactly when there is a type. */
  lemma ParameterCrefIff(m: string, name: string, typeName: string)
    ensures var pre := "<param " + ParamNameAttr(name) + " ";
            StartsWith(ParameterText(m, name, typeName, Xml), pre + "cref = \"" + typeName + "\"") <==> typeName != ""
  {
    var pre := "<param " + ParamNameAttr(name) + " ";
    var attr := "cref = \"" + typeName + "\"";
    var rest := " >" + m + "</param>" + NewLine;
    var opt := if typeName != "" then attr else "";
    assert ParameterText(m, name, typeName, Xml) == pre + opt + rest;
    OptionalAttribute(pre, attr, rest, typeName != "");
  }

  /** An optional attribute followed by text that cannot begin it: the
      tag starts with the attribute exactly when it is present. */
  lemma OptionalAttribute(pre: string, attr: string, rest: string, present: bool)
    requires |attr| > 0 && |rest| > 0 && rest[0] != attr[0]
    ensures StartsWith(pre + (if present then attr else "") + rest, pre + attr) <==> present
  {
    var p := pre + attr;
    if present {
      assert pre + attr + rest == p + rest;
      PrefixOf(p, rest);
    } else {
      var x := pre + "" + rest;
      assert x[|pre|] == rest[0] && p[|pre|] == attr[0];
      DiffersAt(x, p, |pre|);
    }
  }
}
