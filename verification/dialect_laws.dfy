/**
  How the dialects' type names relate. The XML and YAML generators share
  one `GetGenericTypeName` except for the spelling of the angle brackets:
  the XML name is the YAML name escaped. The Markdown generator's simpler
  ladder agrees with YAML on the types it handles like the others do, and
  the counterexamples below show each place where it does not.
*/
module DialectLaws {
  import opened Text
  import opened Descriptors
  import opened DocGenerator
  import XmlGenerator
  import YamlGenerator
  import MarkdownGenerator
  import HtmlGenerator

  predicate AngleFree(s: string)
  {
    '<' !in s && '>' !in s
  }

  /** No name in the descriptor (its own, its arguments', its constraints')
      holds an angle bracket, as reflected names do not. */
  predicate AngleFreeDesc(t: TypeDesc)
    decreases t
  {
    AngleFree(t.name) &&
    match t
    case GenericParam(_, cs, _) => forall i :: 0 <= i < |cs| ==> AngleFree(cs[i].name)
    case Generic(_, args) => forall i :: 0 <= i < |args| ==> AngleFreeDesc(args[i])
    case Array(_, args) => forall i :: 0 <= i < |args| ==> AngleFreeDesc(args[i])
    case Plain(_) => true
  }

  /** The fixed constraint texts have no angle brackets. */
  predicate TokensAngleFree()
  {
    AngleFree(ValueTypeType) && AngleFree(DefaultConstructor)
  }

  // ----- helpers about angle-free text -----

  lemma PrefixAngleFree(r: string, s: string)
    requires r <= s && AngleFree(s)
    ensures AngleFree(r)
  {
    assert forall i :: 0 <= i < |r| ==> r[i] == s[i];
  }

  lemma {:induction false} JoinAngleFree(sep: string, xs: seq<string>)
    requires AngleFree(sep)
    requires forall i :: 0 <= i < |xs| ==> AngleFree(xs[i])
    ensures AngleFree(Join(sep, xs))
    decreases |xs|
  {
    if |xs| > 1 {
      JoinAngleFree(sep, xs[..|xs| - 1]);
    }
  }

  /** The named constraints of a parameter whose constraint names are
      angle-free form an angle-free text. */
  lemma ConstraintTextAngleFree(cs: seq<TypeDesc>)
    requires forall i :: 0 <= i < |cs| ==> AngleFree(cs[i].name)
    ensures AngleFree(ConstraintText(cs))
  {
    var kept := Filter(cs, NotValueType);
    forall i | 0 <= i < |kept|
      ensures AngleFree(Names(kept)[i])
    {
      var j :| 0 <= j < |cs| && cs[j] == kept[i];
    }
    JoinAngleFree(",", Names(kept));
  }

  lemma ClauseTextAngleFree(name: string, c: Clause)
    requires AngleFree(name) && TokensAngleFree()
    requires c.Named? ==> AngleFree(c.text)
    ensures AngleFree(ClauseText(name, c))
  {
  }

  lemma EscapeBrackets()
    ensures Escape("<") == "&lt;" && Escape(">") == "&gt;"
  {
  }

  lemma EscapeArraySuffix()
    ensures Escape(">[]") == "&gt;[]"
  {
  }

  /** Escaping text that holds exactly one pair of angle brackets, around `b`. */
  lemma EscapeWrapped(p: string, b: string, q: string)
    requires AngleFree(p) && AngleFree(q)
    ensures Escape(p + "<" + b + ">" + q) == p + "&lt;" + Escape(b) + "&gt;" + q
  {
    EscapeBrackets();
    var x := p + "<";
    EscapeAppend(p, "<");
    assert Escape(x) == p + "&lt;";
    EscapeAppend(x, b);
    var y := x + b;
    EscapeAppend(y, ">");
    var z := y + ">";
    assert Escape(z) == p + "&lt;" + Escape(b) + "&gt;";
    EscapeAppend(z, q);
  }

  // ----- XML names are escaped YAML names -----

  /** `GetGenericTypeName` of the XML generator is that of the YAML
      generator with `<` and `>` escaped. */
  lemma {:induction false} XmlNameIsEscapedYamlName(t: TypeDesc)
    requires AngleFreeDesc(t) && TokensAngleFree()
    ensures XmlGenerator.TypeName(t) == Escape(YamlGenerator.TypeName(t))
    decreases t
  {
    match t
    case GenericParam(n, cs, flags) =>
      ConstraintTextAngleFree(cs);
      ClauseTextAngleFree(n, ClauseOf(ConstraintText(cs), flags));
    case Generic(n, args) =>
      ArgsEscaped(args);
      PrefixAngleFree(StripArity(n), n);
      EscapeWrapped(StripArity(n), Join(",", YamlGenerator.TypeNames(args)), "");
      assert YamlGenerator.TypeName(t) + "" == YamlGenerator.TypeName(t);
      assert XmlGenerator.TypeName(t) + "" == XmlGenerator.TypeName(t);
    case Array(n, args) =>
      ArgsEscaped(args);
      var ys := Join(",", YamlGenerator.TypeNames(args));
      if ys != "" {
        PrefixAngleFree(StripArity(n), n);
        EscapeWrapped("[" + StripArity(n), ys, "]");
        assert "[" + StripArity(n) + "<" + ys + ">]" == "[" + StripArity(n) + "<" + ys + ">" + "]";
        assert XmlGenerator.TypeName(t)
            == "[" + StripArity(n) + "&lt;" + Escape(ys) + "&gt;" + "]";
      } else {
        PrefixAngleFree(StripArity(n), n);
      }
    case Plain(n) =>
  }

  /** The joined argument names, escaped, are the XML generator's joined
      argument names. */
  lemma {:induction false} ArgsEscaped(args: seq<TypeDesc>)
    requires forall i :: 0 <= i < |args| ==> AngleFreeDesc(args[i])
    requires TokensAngleFree()
    ensures Escape(Join(",", YamlGenerator.TypeNames(args))) == Join(",", XmlGenerator.TypeNames(args))
    decreases args
  {
    var ys := YamlGenerator.TypeNames(args);
    var xs := XmlGenerator.TypeNames(args);
    forall i | 0 <= i < |args|
      ensures xs[i] == Escape(ys[i])
    {
      XmlNameIsEscapedYamlName(args[i]);
    }
    EscapeJoin(",", ys, xs);
  }

  /** The type part of a parameter and a method's return type: the same
      relation, including the array case that `GetGenericTypeName` does not
      share. */
  lemma TypeTextsEscaped(t: TypeDesc)
    requires AngleFreeDesc(t) && TokensAngleFree()
    ensures XmlGenerator.ParamTypeText(t) == Escape(YamlGenerator.ParamTypeText(t))
    ensures XmlGenerator.ReturnTypeText(t) == Escape(YamlGenerator.ReturnTypeText(t))
  {
    PrefixAngleFree(StripArity(t.name), t.name);
    match t
    case Generic(_, _) =>
      XmlNameIsEscapedYamlName(t);
    case Array(n, args) =>
      ArgsEscaped(args);
      var ys := Join(",", YamlGenerator.TypeNames(args));
      if ys != "" {
        EscapeArrayOf(StripArity(n), ys);
      }
    case _ =>
  }

  lemma EscapeArrayOf(p: string, b: string)
    requires AngleFree(p)
    ensures Escape(p + "<" + b + ">[]") == p + "&lt;" + Escape(b) + "&gt;[]"
  {
    EscapeBrackets();
    var x := p + "<";
    EscapeAppend(p, "<");
    EscapeAppend(x, b);
    var y := x + b;
    EscapeArraySuffix();
    EscapeAppend(y, ">[]");
  }

  /** The same holds for a parameter's rendering (type, space, name). */
  lemma XmlParamIsEscapedYamlParam(p: ParamInfo)
    requires AngleFreeDesc(p.parameterType) && AngleFree(p.name) && TokensAngleFree()
    ensures XmlGenerator.ParamName(p) == Escape(YamlGenerator.ParamName(p))
  {
    var name := StripArity(p.name);
    PrefixAngleFree(name, p.name);
    TypeTextsEscaped(p.parameterType);
    var y := YamlGenerator.ParamTypeText(p.parameterType);
    var tail := " " + name;
    assert AngleFree(tail);
    EscapeAppend(y, tail);
    assert y + " " + name == y + tail;
    assert XmlGenerator.ParamTypeText(p.parameterType) + " " + name
        == XmlGenerator.ParamTypeText(p.parameterType) + tail;
  }

  /** The record clone method is the one reflected method name with angle
      brackets; the XML and HTML headers' special case for it is exactly
      escaping, so every method name they print is the escaped stripped name. */
  lemma MethodNameIsEscaped(name: string)
    requires AngleFree(StripArity(name)) || StripArity(name) == "<Clone>$"
    ensures MethodName(name) == Escape(StripArity(name))
  {
    if StripArity(name) == "<Clone>$" {
      CloneEscaped();
    }
  }

  lemma CloneEscaped()
    ensures Escape("<Clone>$") == "&lt;Clone&gt;$"
  {
    EscapeOnePair("Clone", "$");
    assert "<Clone>$" == "<" + "Clone" + ">" + "$";
    assert "&lt;Clone&gt;$" == "&lt;" + "Clone" + "&gt;" + "$";
  }

  lemma EscapeOnePair(b: string, q: string)
    requires AngleFree(b) && AngleFree(q)
    ensures Escape("<" + b + ">" + q) == "&lt;" + b + "&gt;" + q
  {
    EscapeBrackets();
    EscapeAppend("<", b);
    var y := "<" + b;
    EscapeAppend(y, ">");
    var z := y + ">";
    assert Escape(z) == "&lt;" + b + "&gt;";
    EscapeAppend(z, q);
  }

  // ----- HTML names are marked-up XML names -----

  /** The markup the HTML generator puts around type names: a `<span>`
      around each constructed name and each constrained parameter, and a
      `<strong>` around each constraint token and each argument list. */
  datatype Markup = Markup(spanOpen: string, spanClose: string, strongOpen: string, strongClose: string)

  const HtmlMarkup: Markup := Markup("<span>", "</span>", "<strong>", "</strong>")
  const NoMarkup: Markup := Markup("", "", "", "")

  function Emphasis(mk: Markup, s: string): string
  {
    mk.strongOpen + s + mk.strongClose
  }

  function EmphasisEach(mk: Markup, ts: seq<string>): (r: seq<string>)
    ensures |r| == |ts|
  {
    seq(|ts|, i requires 0 <= i < |ts| => Emphasis(mk, ts[i]))
  }

  /** The escaped-bracket `GetGenericTypeName` with its markup as a
      parameter: the same clause for a generic parameter, the same argument
      list and the same array test, whatever the markup. */
  function MarkedName(t: TypeDesc, mk: Markup): string
    decreases t
  {
    match t
    case GenericParam(n, cs, flags) =>
      var c := ClauseOf(ConstraintText(cs), flags);
      if c.Bare? then n else mk.spanOpen + n + ":" + Join(",", EmphasisEach(mk, Tokens(c))) + mk.spanClose
    case Generic(n, args) =>
      mk.spanOpen + StripArity(n) + Emphasis(mk, "&lt;" + Join(",", MarkedNames(args, mk)) + "&gt;") + mk.spanClose
    case Array(n, args) =>
      if Join(",", MarkedNames(args, mk)) != "" then
        mk.spanOpen + "[" + StripArity(n) + Emphasis(mk, "&lt;" + Join(",", MarkedNames(args, mk)) + "&gt;") + "]" + mk.spanClose
      else mk.spanOpen + StripArity(n) + mk.spanClose
    case Plain(n) => n
  }

  function MarkedNames(ts: seq<TypeDesc>, mk: Markup): (r: seq<string>)
    ensures |r| == |ts|
    decreases ts
  {
    seq(|ts|, i requires 0 <= i < |ts| => MarkedName(ts[i], mk))
  }

  /** The HTML `GetGenericTypeName` is the XML one with the `<span>` and
      `<strong>` markup added and nothing else changed: both are the one
      marked-up definition, with empty markup for XML. */
  lemma {:induction false} HtmlNameIsMarkedXmlName(t: TypeDesc)
    ensures HtmlGenerator.TypeName(t) == MarkedName(t, HtmlMarkup)
    ensures XmlGenerator.TypeName(t) == MarkedName(t, NoMarkup)
    decreases t
  {
    match t
    case GenericParam(n, cs, flags) =>
      MarkedClause(n, ClauseOf(ConstraintText(cs), flags));
    case Generic(n, args) =>
      MarkedArgs(args);
      MarkedList(StripArity(n), Join(",", HtmlGenerator.TypeNames(args)), Join(",", XmlGenerator.TypeNames(args)));
    case Array(n, args) =>
      MarkedArgs(args);
      MarkedArrayList(StripArity(n), Join(",", HtmlGenerator.TypeNames(args)), Join(",", XmlGenerator.TypeNames(args)));
      MarkedList(StripArity(n), Join(",", HtmlGenerator.TypeNames(args)), Join(",", XmlGenerator.TypeNames(args)));
    case Plain(n) =>
  }

  /** A constrained generic parameter: the tokens in `<strong>`, or bare. */
  lemma MarkedClause(n: string, c: Clause)
    ensures HtmlGenerator.ClauseHtml(n, c)
         == (if c.Bare? then n else HtmlMarkup.spanOpen + n + ":" + Join(",", EmphasisEach(HtmlMarkup, Tokens(c))) + HtmlMarkup.spanClose)
    ensures ClauseText(n, c)
         == (if c.Bare? then n else NoMarkup.spanOpen + n + ":" + Join(",", EmphasisEach(NoMarkup, Tokens(c))) + NoMarkup.spanClose)
  {
    if !c.Bare? {
      MarkedSpan(n, Tokens(c));
    }
  }

  /** A name and its tokens, with and without the markup. */
  lemma MarkedSpan(n: string, ts: seq<string>)
    ensures "<span>" + n + ":" + Join(",", HtmlGenerator.StrongAll(ts)) + "</span>"
         == HtmlMarkup.spanOpen + n + ":" + Join(",", EmphasisEach(HtmlMarkup, ts)) + HtmlMarkup.spanClose
    ensures n + ":" + Join(",", ts)
         == NoMarkup.spanOpen + n + ":" + Join(",", EmphasisEach(NoMarkup, ts)) + NoMarkup.spanClose
  {
    MarkedTokens(ts);
    var x := n + ":" + Join(",", ts);
    assert "" + x + "" == x;
  }

  lemma MarkedTokens(ts: seq<string>)
    ensures HtmlGenerator.StrongAll(ts) == EmphasisEach(HtmlMarkup, ts)
    ensures EmphasisEach(NoMarkup, ts) == ts
  {
    forall i | 0 <= i < |ts|
      ensures EmphasisEach(NoMarkup, ts)[i] == ts[i]
    {
      assert "" + ts[i] + "" == ts[i];
    }
  }

  /** A constructed name and an array name, with and without the markup. */
  lemma MarkedList(s: string, h: string, x: string)
    ensures "<span>" + s + "<strong>&lt;" + h + "&gt;</strong></span>"
         == HtmlMarkup.spanOpen + s + Emphasis(HtmlMarkup, "&lt;" + h + "&gt;") + HtmlMarkup.spanClose
    ensures s + "&lt;" + x + "&gt;"
         == NoMarkup.spanOpen + s + Emphasis(NoMarkup, "&lt;" + x + "&gt;") + NoMarkup.spanClose
    ensures s == NoMarkup.spanOpen + s + NoMarkup.spanClose
  {
    HtmlList("<span>", s, h, "</span>");
    PlainList("", s, x, "");
    MarkedArrayList(s, h, x);
  }

  lemma MarkedArrayList(s: string, h: string, x: string)
    ensures "<span>[" + s + "<strong>&lt;" + h + "&gt;</strong>]</span>"
         == HtmlMarkup.spanOpen + "[" + s + Emphasis(HtmlMarkup, "&lt;" + h + "&gt;") + "]" + HtmlMarkup.spanClose
    ensures "[" + s + "&lt;" + x + "&gt;]"
         == NoMarkup.spanOpen + "[" + s + Emphasis(NoMarkup, "&lt;" + x + "&gt;") + "]" + NoMarkup.spanClose
  {
    HtmlList("<span>[", s, h, "]</span>");
    assert "<span>[" == "<span>" + "[" && "]</span>" == "]" + "</span>";
    PlainList("[", s, x, "]");
  }

  lemma HtmlList(p: string, s: string, h: string, q: string)
    ensures p + s + "<strong>&lt;" + h + "&gt;</strong>" + q
         == p + s + Emphasis(HtmlMarkup, "&lt;" + h + "&gt;") + q
  {
    assert "<strong>&lt;" == "<strong>" + "&lt;";
    assert "&gt;</strong>" == "&gt;" + "</strong>";
  }

  lemma PlainList(p: string, s: string, x: string, q: string)
    ensures p + s + "&lt;" + x + "&gt;" + q
         == p + s + Emphasis(NoMarkup, "&lt;" + x + "&gt;") + q
  {
    var e := "&lt;" + x + "&gt;";
    assert Emphasis(NoMarkup, e) == e;
  }

  lemma {:induction false} MarkedArgs(args: seq<TypeDesc>)
    ensures HtmlGenerator.TypeNames(args) == MarkedNames(args, HtmlMarkup)
    ensures XmlGenerator.TypeNames(args) == MarkedNames(args, NoMarkup)
    decreases args
  {
    forall i | 0 <= i < |args|
      ensures HtmlGenerator.TypeNames(args)[i] == MarkedNames(args, HtmlMarkup)[i]
      ensures XmlGenerator.TypeNames(args)[i] == MarkedNames(args, NoMarkup)[i]
    {
      HtmlNameIsMarkedXmlName(args[i]);
    }
  }

  // ----- Markdown against YAML -----

  /** The types Markdown names like the other dialects: no arrays, no
      `ValueType` constraint, and a parameter without named constraints
      carries at most the reference-type flag. */
  predicate SharedForm(t: TypeDesc)
    decreases t
  {
    match t
    case GenericParam(_, cs, flags) =>
      (forall i :: 0 <= i < |cs| ==> NotValueType(cs[i]))
      && (ConstraintText(cs) != "" || flags <= {ReferenceTypeConstraint})
    case Generic(_, args) => forall i :: 0 <= i < |args| ==> SharedForm(args[i])
    case Array(_, _) => false
    case Plain(_) => true
  }

  lemma {:induction false} FilterKeepsAll<T>(xs: seq<T>, keep: T -> bool)
    requires forall i :: 0 <= i < |xs| ==> keep(xs[i])
    ensures Filter(xs, keep) == xs
    decreases |xs|
  {
    if |xs| > 0 {
      FilterKeepsAll(xs[..|xs| - 1], keep);
      assert xs[..|xs| - 1] + [xs[|xs| - 1]] == xs;
    }
  }

  /** On those types the Markdown `GetGenericTypeName` and the YAML one
      print the same text. */
  lemma {:induction false} MarkdownNameIsYamlName(t: TypeDesc)
    requires SharedForm(t)
    ensures MarkdownGenerator.TypeName(t) == YamlGenerator.TypeName(t)
    decreases t
  {
    match t
    case GenericParam(n, cs, flags) =>
      FilterKeepsAll(cs, NotValueType);
      assert ConstraintText(cs) == MarkdownGenerator.AllConstraintText(cs);
      if ConstraintText(cs) == "" {
        assert flags * {ReferenceTypeConstraint} == flags;
      }
    case Generic(n, args) =>
      var ms := MarkdownGenerator.TypeNames(args);
      var ys := YamlGenerator.TypeNames(args);
      forall i | 0 <= i < |args|
        ensures ms[i] == ys[i]
      {
        MarkdownNameIsYamlName(args[i]);
      }
      assert ms == ys;
    case Plain(_) =>
  }

  /** Markdown does not leave out a `ValueType` constraint. */
  lemma MarkdownShowsValueTypeConstraint(n: string)
    ensures YamlGenerator.TypeName(GenericParam(n, [ValueTypeDesc], {})) == n
    ensures MarkdownGenerator.TypeName(GenericParam(n, [ValueTypeDesc], {})) == n + ":" + ValueTypeDesc.name
  {
    ValueTypeConstraintDropped([]);
    assert [] + [ValueTypeDesc] == [ValueTypeDesc];
    assert Names([ValueTypeDesc]) == [ValueTypeDesc.name];
  }

  /** Markdown does not show the `struct` flag. */
  lemma MarkdownHidesValueTypeFlag(n: string)
    ensures YamlGenerator.TypeName(GenericParam(n, [], {NotNullableValueTypeConstraint})) == n + ":" + ValueTypeType
    ensures MarkdownGenerator.TypeName(GenericParam(n, [], {NotNullableValueTypeConstraint})) == n
  {
    assert Names([]) == [];
    assert Filter([], NotValueType) == [];
  }

  /** Markdown does not show the `new()` flag beside `class`. */
  lemma MarkdownHidesConstructorFlag(n: string)
    ensures YamlGenerator.TypeName(GenericParam(n, [], {ReferenceTypeConstraint, DefaultConstructorConstraint}))
         == n + ":" + ReferenceType + "," + DefaultConstructor
    ensures MarkdownGenerator.TypeName(GenericParam(n, [], {ReferenceTypeConstraint, DefaultConstructorConstraint}))
         == n + ":" + ReferenceType
  {
    assert Names([]) == [];
    assert Filter([], NotValueType) == [];
  }

  /** Markdown has no array case: an array type (whose generic arguments
      reflection leaves empty) keeps its reflected name, arity suffix and
      brackets included, where YAML strips the suffix. */
  lemma MarkdownKeepsArrayName(base: string, suffix: string)
    requires '`' !in base && '`' !in suffix
    ensures YamlGenerator.TypeName(Array(base + "`" + suffix, [])) == base
    ensures MarkdownGenerator.TypeName(Array(base + "`" + suffix, [])) == base + "`" + suffix
  {
    assert YamlGenerator.TypeNames([]) == [];
    SplitAround(base, '`', suffix);
  }
}
