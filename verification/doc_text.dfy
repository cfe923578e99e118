/**
  `DocText`: a piece of text with init-only styling flags, rendered per
  dialect. Markdown wraps it in `<u>`, `**`, `*`; XML and HTML in `<u>`,
  `<b>`, `<i>`; the closing tokens come in the reverse order of the opening
  ones. `Line` asks for one trailing line break.
*/
module DocTexts {
  import opened Text
  import opened DocTypes

  datatype DocText = DocText(text: string, bold: bool, italic: bool, underline: bool, line: bool)

  /** `new DocText(text)` and `new DocText()`: no styling, no line break. */
  function FromText(text: string): (d: DocText)
    ensures d.text == text && !d.bold && !d.italic && !d.underline && !d.line
  {
    DocText(text, false, false, false, false)
  }

  /** `ToString()`. */
  function ToString(d: DocText): string
  {
    d.text
  }

  /** The opening tokens in the order they are written, for a dialect whose
      underline, bold and italic tokens are `u`, `b` and `i`. */
  function OpenTokens(d: DocText, u: string, b: string, i: string): seq<string>
  {
    (if d.underline then [u] else []) + (if d.bold then [b] else []) + (if d.italic then [i] else [])
  }

  /** The token that closes an opening token: `</x>` for a tag `<x>`,
      the token itself for a Markdown emphasis marker. */
  function CloseToken(open: string): string
  {
    if |open| > 0 && open[0] == '<' then "</" + open[1..] else open
  }

  function Concat(ss: seq<string>): string
    decreases |ss|
  {
    if |ss| == 0 then "" else ss[0] + Concat(ss[1..])
  }

  function Reverse<T>(xs: seq<T>): (r: seq<T>)
    ensures |r| == |xs|
  {
    seq(|xs|, k requires 0 <= k < |xs| => xs[|xs| - 1 - k])
  }

  function Map<T, U>(f: T -> U, xs: seq<T>): (r: seq<U>)
    ensures |r| == |xs|
  {
    seq(|xs|, k requires 0 <= k < |xs| => f(xs[k]))
  }

  /** `GetMarkdown()`. */
  function GetMarkdown(d: DocText): string
  {
    var openTags := (if d.underline then "<u>" else "") + (if d.bold then "**" else "") + (if d.italic then "*" else "");
    var closeTags := (if d.italic then "*" else "") + (if d.bold then "**" else "") + (if d.underline then "</u>" else "");
    openTags + ToString(d) + closeTags
  }

  /** `GetXml()`, also used for HTML. */
  function GetXml(d: DocText): string
  {
    var openTags := (if d.underline then "<u>" else "") + (if d.bold then "<b>" else "") + (if d.italic then "<i>" else "");
    var closeTags := (if d.italic then "</i>" else "") + (if d.bold then "</b>" else "") + (if d.underline then "</u>" else "");
    openTags + ToString(d) + closeTags
  }

  /** `ToString(DocType)`. */
  function Render(d: DocText, doc: DocType): string
  {
    match doc
    case Xml => if d.line then Line(GetXml(d)) else GetXml(d)
    case Md => if d.line then Line(GetMarkdown(d)) else GetMarkdown(d)
    case Yml => Line(ToString(d))
    case Html => if d.line then Line(GetXml(d)) else GetXml(d)
    case Other => Line(ToString(d))
  }

  // ----- lemmas -----

  /** Markdown styling is the opening tokens, the text, then the matching
      closing tokens in reverse order, so the markers nest. */
  lemma MarkdownTagsNest(d: DocText)
    ensures GetMarkdown(d)
         == Concat(OpenTokens(d, "<u>", "**", "*")) + d.text
          + Concat(Reverse(Map(CloseToken, OpenTokens(d, "<u>", "**", "*"))))
  {
    assert CloseToken("<u>") == "</u>";
    assert CloseToken("**") == "**";
    assert CloseToken("*") == "*";
    NestCases(d, "<u>", "**", "*");
  }

  /** XML/HTML styling is the opening tags, the text, then the matching
      closing tags in reverse order, so the tags are balanced. */
  lemma XmlTagsNest(d: DocText)
    ensures GetXml(d)
         == Concat(OpenTokens(d, "<u>", "<b>", "<i>")) + d.text
          + Concat(Reverse(Map(CloseToken, OpenTokens(d, "<u>", "<b>", "<i>"))))
  {
    assert CloseToken("<u>") == "</u>";
    assert CloseToken("<b>") == "</b>";
    assert CloseToken("<i>") == "</i>";
    NestCases(d, "<u>", "<b>", "<i>");
  }

  /** The token lists unfolded: each flag contributes its own piece. */
  lemma NestCases(d: DocText, u: string, b: string, i: string)
    ensures Concat(OpenTokens(d, u, b, i))
         == (if d.underline then u else "") + (if d.bold then b else "") + (if d.italic then i else "")
    ensures Concat(Reverse(Map(CloseToken, OpenTokens(d, u, b, i))))
         == (if d.italic then CloseToken(i) else "") + (if d.bold then CloseToken(b) else "")
          + (if d.underline then CloseToken(u) else "")
  {
    var U: seq<string> := if d.underline then [u] else [];
    var B: seq<string> := if d.bold then [b] else [];
    var I: seq<string> := if d.italic then [i] else [];
    assert OpenTokens(d, u, b, i) == U + B + I;
    ConcatThree(U, B, I);
    Piece(d.underline, u);
    Piece(d.bold, b);
    Piece(d.italic, i);
    CloseCases(d.underline, d.bold, d.italic, u, b, i);
  }

  /** The closing half of `NestCases`, over the three flags. */
  lemma CloseCases(fu: bool, fb: bool, fi: bool, u: string, b: string, i: string)
    ensures Concat(Reverse(Map(CloseToken, (if fu then [u] else []) + (if fb then [b] else []) + (if fi then [i] else []))))
         == (if fi then CloseToken(i) else "") + (if fb then CloseToken(b) else "") + (if fu then CloseToken(u) else "")
  {
    var U: seq<string> := if fu then [u] else [];
    var B: seq<string> := if fb then [b] else [];
    var I: seq<string> := if fi then [i] else [];
    MapAppend(CloseToken, U + B, I);
    MapAppend(CloseToken, U, B);
    var mU, mB, mI := Map(CloseToken, U), Map(CloseToken, B), Map(CloseToken, I);
    assert mU == (if fu then [CloseToken(u)] else []);
    assert mB == (if fb then [CloseToken(b)] else []);
    assert mI == (if fi then [CloseToken(i)] else []);
    ReverseAppend(mU + mB, mI);
    ReverseAppend(mU, mB);
    assert Reverse(mU) == mU && Reverse(mB) == mB && Reverse(mI) == mI;
    assert Reverse(mU + mB + mI) == mI + mB + mU;
    ConcatThree(mI, mB, mU);
    Piece(fu, CloseToken(u));
    Piece(fb, CloseToken(b));
    Piece(fi, CloseToken(i));
  }

  lemma ConcatThree(x: seq<string>, y: seq<string>, z: seq<string>)
    ensures Concat(x + y + z) == Concat(x) + Concat(y) + Concat(z)
  {
    ConcatAppend(x + y, z);
    ConcatAppend(x, y);
  }

  lemma Piece(flag: bool, t: string)
    ensures Concat(if flag then [t] else []) == (if flag then t else "")
  {
    if flag {
      assert [t][1..] == [];
    }
  }

  lemma {:induction false} ConcatAppend(xs: seq<string>, ys: seq<string>)
    ensures Concat(xs + ys) == Concat(xs) + Concat(ys)
    decreases |xs|
  {
    if |xs| == 0 {
      assert xs + ys == ys;
    } else {
      assert (xs + ys)[1..] == xs[1..] + ys;
      ConcatAppend(xs[1..], ys);
    }
  }

  lemma MapAppend<T, U>(f: T -> U, xs: seq<T>, ys: seq<T>)
    ensures Map(f, xs + ys) == Map(f, xs) + Map(f, ys)
  {
  }

  lemma ReverseAppend<T>(xs: seq<T>, ys: seq<T>)
    ensures Reverse(xs + ys) == Reverse(ys) + Reverse(xs)
  {
  }

  /** Without styling, the Markdown, XML and HTML renderings are the text
      itself, plus one line break exactly when `Line` is set. */
  lemma UnstyledIsText(d: DocText, doc: DocType)
    requires !d.bold && !d.italic && !d.underline
    requires doc == Xml || doc == Md || doc == Html
    ensures Render(d, doc) == d.text + (if d.line then NewLine else "")
  {
  }

  /** A `DocText` made from plain text prints that text, and a line break
      only in the dialects that always add one. */
  lemma FromTextRendersAsText(text: string, doc: DocType)
    ensures Render(FromText(text), doc) == text + (if doc == Yml || doc == Other then NewLine else "")
    ensures ToString(FromText(text)) == text
  {
  }

  /** `Line` adds exactly one line break after the styled text and nothing
      else, in the three dialects that honour styling. */
  lemma LineAddsOneBreak(d: DocText, doc: DocType)
    requires doc == Xml || doc == Md || doc == Html
    ensures Render(d, doc)
         == (if doc == Md then GetMarkdown(d) else GetXml(d)) + (if d.line then NewLine else "")
  {
  }

  /** YAML and any unlisted dialect ignore every flag: the text and one
      line break. */
  lemma YamlIgnoresStyling(d: DocText, doc: DocType)
    requires doc == Yml || doc == Other
    ensures Render(d, doc) == d.text + NewLine
  {
  }

  /** HTML renders exactly as XML. */
  lemma HtmlIsXml(d: DocText)
    ensures Render(d, Html) == Render(d, Xml)
  {
  }
}
