/**
  `HtmlGenerator`: a type's documentation as an HTML page. Type names are
  wrapped in `<span>`, with constraint tokens and argument lists in
  `<strong>` and parameter names in `<label>`; every member is a card with
  a heading, its declaration and a `card-body` holding its annotations.
  The page is reproduced as the generator writes it, including the
  container that is closed with `<div>` and the event heading whose
  `<strong>` is followed by `/strong>`.
*/
module HtmlGenerator {
  import opened Wrappers
  import opened Text
  import opened DocTypes
  import opened Attributes
  import opened Descriptors
  import opened DocGenerator

  /** The font `<link>` line and the `style` block of the page head: fixed
      texts that are not part of this model. */
  const FontLink: string
  const Style: string

  // ----- type names -----

  /** `<strong>` around one constraint token. */
  function Strong(s: string): string
  {
    "<strong>" + s + "</strong>"
  }

  /** The clause's tokens, each in `<strong>`, joined with `,`. */
  function StrongTokens(c: Clause): (r: string)
    ensures r == Join(",", StrongAll(Tokens(c)))
  {
    match c
    case Named(x) => Strong(x)
    case RefCtor => Strong(ReferenceType) + "," + Strong(DefaultConstructor)
    case Ref => Strong(ReferenceType)
    case Value => Strong(ValueTypeType)
    case Ctor => Strong(DefaultConstructor)
    case Bare => ""
  }

  /** The clause of a generic parameter as HTML prints it: the bare name
      when unconstrained, else the name, `:` and the clause's tokens each in
      `<strong>` and joined with `,`, all in one `<span>`. */
  function ClauseHtml(name: string, c: Clause): (r: string)
    ensures c.Bare? ==> r == name
    ensures !c.Bare? ==> r == "<span>" + name + ":" + Join(",", StrongAll(Tokens(c))) + "</span>"
  {
    if c.Bare? then name else "<span>" + name + ":" + StrongTokens(c) + "</span>"
  }

  function StrongAll(ts: seq<string>): (r: seq<string>)
    ensures |r| == |ts|
    ensures forall i :: 0 <= i < |ts| ==> r[i] == Strong(ts[i])
  {
    seq(|ts|, i requires 0 <= i < |ts| => Strong(ts[i]))
  }

  /** `GetGenericTypeName`. */
  function TypeName(t: TypeDesc): string
    decreases t
  {
    match t
    case GenericParam(n, cs, flags) => ClauseHtml(n, ClauseOf(ConstraintText(cs), flags))
    case Generic(n, args) => "<span>" + StripArity(n) + "<strong>&lt;" + Join(",", TypeNames(args)) + "&gt;</strong></span>"
    case Array(n, args) =>
      if Join(",", TypeNames(args)) != "" then "<span>[" + StripArity(n) + "<strong>&lt;" + Join(",", TypeNames(args)) + "&gt;</strong>]</span>"
      else "<span>" + StripArity(n) + "</span>"
    case Plain(n) => n
  }

  /** `Select(p => GetGenericTypeName(p))`: one name per argument, in order. */
  function TypeNames(ts: seq<TypeDesc>): (r: seq<string>)
    ensures |r| == |ts|
    ensures forall i :: 0 <= i < |ts| ==> r[i] == TypeName(ts[i])
    decreases ts
  {
    seq(|ts|, i requires 0 <= i < |ts| => TypeName(ts[i]))
  }

  /** What `GetGenericParemeterTypeName` writes between the opening
      `<span>` and the parameter's name: the type, and the opening `<label>`
      (with the space inside it for an array with generic arguments). */
  function ParamTypeText(t: TypeDesc): string
  {
    match t
    case Generic(n, args) => StripArity(n) + "<strong>&lt;" + Join(",", TypeNames(args)) + "&gt;</strong> <label>"
    case Array(n, args) =>
      if Join(",", TypeNames(args)) != "" then StripArity(n) + "<strong>&lt;" + Join(",", TypeNames(args)) + "&gt;[]</strong><label> "
      else "<strong>" + StripArity(n) + "</strong> <label>"
    case _ => "<strong>" + StripArity(t.name) + "</strong> <label>"
  }

  /** `GetGenericParemeterTypeName`: one `<span>` that ends with the
      parameter's name, without an arity suffix, as the `<label>`'s text. */
  function ParamName(p: ParamInfo): (r: string)
    ensures EndsWith(r, StripArity(p.name) + "</label></span>")
  {
    EndsWithAppend("<span>" + ParamTypeText(p.parameterType), StripArity(p.name), "</label></span>");
    "<span>" + ParamTypeText(p.parameterType) + StripArity(p.name) + "</label></span>"
  }

  function ParamNames(ps: seq<ParamInfo>): (r: seq<string>)
    ensures |r| == |ps|
    ensures forall i :: 0 <= i < |ps| ==> r[i] == ParamName(ps[i])
  {
    seq(|ps|, i requires 0 <= i < |ps| => ParamName(ps[i]))
  }

  /** `returnTypeText` of the methods section; its arguments are the HTML
      type names. */
  function ReturnTypeText(t: TypeDesc): (r: string)
    ensures t.Plain? || t.GenericParam? ==> r == t.name
  {
    match t
    case Generic(n, args) => StripArity(n) + "&lt;" + Join(",", TypeNames(args)) + "&gt;"
    case Array(n, args) =>
      if Join(",", TypeNames(args)) != "" then StripArity(n) + "&lt;" + Join(",", TypeNames(args)) + "&gt;[]"
      else StripArity(n)
    case _ => t.name
  }

  // ----- card headings -----

  function ConstructorHeading(c: ConstructorInfo): string
  {
    "<h3><p><span>" + StripArity(c.declaringTypeName) + "(" + Join(", ", ParamNames(c.parameters)) + ")</p></h3>"
  }

  function MethodHeading(m: MethodInfo): string
  {
    if |m.typeArguments| > 0 then
      "<h3 class=\"card-title\"><p><span>" + MethodName(m.name) + "&lt;" + Join(",", TypeNames(m.typeArguments)) + "&gt;("
      + Join(", ", ParamNames(m.parameters)) + "):<strong>" + ReturnTypeText(m.returnType) + "</strong></span></p></h3>"
    else
      "<h3 class=\"card-title\"><p><span>" + MethodName(m.name) + "(" + Join(", ", ParamNames(m.parameters)) + "):<strong>"
      + ReturnTypeText(m.returnType) + "</strong></span></p></h3>"
  }

  function PropertyHeading(p: PropertyInfo): string
  {
    match p.propertyType
    case Generic(n, args) =>
      "<h3><p><span>" + p.name + ":<strong>" + StripArity(n) + "&lt;" + Join(", ", TypeNames(args)) + "&gt;</strong></span></p></h3>"
    case _ => "<h3><p><span>" + p.name + ":<strong>" + p.propertyType.name + "</strong></span></p></h3>"
  }

  function FieldHeading(f: FieldInfo): string
  {
    match f.fieldType
    case Generic(n, args) =>
      "<h3><p><span>" + StripArity(f.name) + ":<strong>" + StripArity(n) + "&lt;" + Join(", ", TypeNames(args)) + "&gt;</strong></span></p></h3>"
    case _ => "<h3><p><span>" + f.name + ":<strong>" + f.fieldType.name + "</strong></span></p></h3>"
  }

  function EventHeading(e: EventInfo): string
  {
    match e.handlerType
    case Generic(n, args) =>
      "<h3><p><span>" + e.name + ":<strong>" + StripArity(n) + "&lt;" + Join(", ", TypeNames(args)) + "&gt;</strong></span></p></h3>"
    case _ => "<h3><p><span>" + e.name + ":<strong>" + e.handlerTypeText + "/strong></span></p></h3>"
  }

  // ----- the page -----

  const DivOpen: string := "<div>"
  const DivClose: string := "</div>"
  const Rule: string := "<hr/>"
  const CardOpen: string := "<div class=\"card\">"
  const CardBodyOpen: string := "<div class=\"card-body\">"
  const DeclarationHeading: string := "<h5 class=\"declaration\">Declaration</h5>"
  const ConstructorsHeading: string := "<h2>Constructors</h2>"
  const MethodsHeading: string := "<h2>Methods</h2>"
  const PropertiesHeading: string := "<h2>Properties</h2>"
  const FieldsHeading: string := "<h2>Fields</h2>"
  const EventsHeading: string := "<h2>Events</h2>"
  const InheritanceHeading: string := "<h2>Inheritance</h2>"
  const ListOpen: string := "<ul>"
  const ListClose: string := "</ul>"
  const ItemOpen: string := "<li>"
  const ItemClose: string := "</li>"

  /** The lines of a card before its annotations. */
  function CardHead(heading: string, declaration: string): string
  {
    Line(CardOpen) + Line(heading) + Line(DeclarationHeading)
    + Line("<pre><code class=\"hljs\">" + declaration + "</code></pre>") + Line(CardBodyOpen)
  }

  /** One member card: heading, declaration, and the annotations in
      attachment order inside the `card-body`. */
  function Card(heading: string, declaration: string, docs: seq<Annotation>): string
  {
    CardHead(heading, declaration) + DocLines(docs, Html, "") + Line(DivClose) + Line(DivClose)
  }

  function ConstructorCard(c: ConstructorInfo): string
  {
    Card(ConstructorHeading(c), c.declaration, c.docs)
  }

  function MethodCard(m: MethodInfo): string
  {
    Card(MethodHeading(m), m.declaration, m.docs)
  }

  function PropertyCard(p: PropertyInfo): string
  {
    Card(PropertyHeading(p), p.declaration, p.docs)
  }

  function FieldCard(f: FieldInfo): string
  {
    Card(FieldHeading(f), f.declaration, f.docs)
  }

  function EventCard(e: EventInfo): string
  {
    Card(EventHeading(e), e.declaration, e.docs)
  }

  /** The opening lines of a member section. */
  function SectionHead(heading: string): string
  {
    Line(DivOpen) + Line(heading) + Line(Rule)
  }

  /** A member section: nothing for an empty list, else a `<div>` with the
      heading, a rule, the cards, and the closing `</div>`. */
  function Section(items: nat, heading: string, cards: string): (r: string)
    ensures items == 0 ==> r == ""
    ensures items > 0 ==> r == SectionHead(heading) + cards + Line(DivClose)
  {
    if items == 0 then "" else SectionHead(heading) + cards + Line(DivClose)
  }

  function ConstructorsSection(cs: seq<ConstructorInfo>): string
  {
    Section(|cs|, ConstructorsHeading, ConcatMap(cs, ConstructorCard))
  }

  function MethodsSection(ms: seq<MethodInfo>): string
  {
    Section(|ms|, MethodsHeading, ConcatMap(ms, MethodCard))
  }

  function PropertiesSection(ps: seq<PropertyInfo>): string
  {
    Section(|ps|, PropertiesHeading, ConcatMap(ps, PropertyCard))
  }

  function FieldsSection(fs: seq<FieldInfo>): string
  {
    Section(|fs|, FieldsHeading, ConcatMap(fs, FieldCard))
  }

  function EventsSection(es: seq<EventInfo>): string
  {
    Section(|es|, EventsHeading, ConcatMap(es, EventCard))
  }

  /** The line `GetTypeInfo` appends for a parent type. */
  function TypeSpan(t: TypeDesc): string
  {
    match t
    case Generic(n, args) => "<span><b>" + StripArity(n) + "</b><strong>&lt;" + Join(",", TypeNames(args)) + "&gt;</strong></span>"
    case _ => "<span><b>" + t.name + "</b></span>"
  }

  /** One list item of the inheritance card. */
  function ParentItem(p: TypeDesc): string
  {
    Line(ItemOpen) + Line(TypeSpan(p)) + Line(ItemClose)
  }

  function InheritedHead(): string
  {
    Line(InheritanceHeading) + Line(Rule) + Line(CardOpen) + Line(CardBodyOpen) + Line(ListOpen)
  }

  function InheritedTail(): string
  {
    Line(ListClose) + Line(DivClose) + Line(DivClose)
  }

  /** The inheritance card: nothing without parents, else the heading and a
      list with one item per parent. Unlike the member sections it has no
      enclosing `<div>`. */
  function InheritedSection(ps: seq<TypeDesc>): (r: string)
    ensures |ps| == 0 ==> r == ""
  {
    if |ps| == 0 then "" else InheritedHead() + ConcatMap(ps, ParentItem) + InheritedTail()
  }

  /** The `<h1>` heading of the page body. */
  function TypeHeading(t: TypeDesc): string
  {
    match t
    case Generic(n, args) => "<h1>" + StripArity(n) + "<strong>&lt;" + Join(",", TypeNames(args)) + "&gt;</strong></h1>"
    case _ => "<h1>" + t.name + "</h1>"
  }

  function BasicHead(ti: TypeInfo): string
  {
    Line(TypeHeading(ti.desc)) + Line(Rule) + Line(CardOpen)
  }

  function BasicFacts(ti: TypeInfo): string
  {
    Line("<p><strong>Namespace: </strong><span>" + ti.namespace + "</span></p>")
    + Line("<p><strong>Assembly: </strong><span>" + ti.assembly + ".dll</span></p>")
    + Line("<h4>Syntax</h4>")
    + Line("<pre><code class=\"hljs\">" + ti.syntax + "</code></pre>")
    + Line(CardBodyOpen)
  }

  function BasicInfo(ti: TypeInfo): string
  {
    BasicHead(ti) + BasicFacts(ti) + DocLines(ti.docs, Html, "") + Line(DivClose) + Line(DivClose)
  }

  /** The page head, up to and including the container's opening tag. */
  function Preamble(name: string): string
  {
    PageStart(name) + PageHeadEnd()
  }

  /** The doctype, `<html>`, `<head>` and the title: the type's name
      without its arity suffix. */
  function PageStart(name: string): string
  {
    Line("<!DOCTYPE html>") + Line("<html>") + Line("<head>") + Line("<title>" + StripArity(name) + "</title>")
  }

  function PageHeadEnd(): string
  {
    Line(FontLink) + Line(Style) + Line("</head>") + Line("<body>") + Line("<div class=\"container\">")
  }

  /** The closing lines of the page, the container closed with `<div>`. */
  function Postamble(): string
  {
    Line(DivOpen) + Line("</body>") + Line("</html>")
  }

  /** `Generate(type)`. */
  function Document(t: Option<TypeInfo>): string
  {
    if !Valid(t) then Fallback(t) else Page(t.value)
  }

  /** The page of a valid type: head, sections, closing lines. */
  function Page(ti: TypeInfo): string
  {
    Preamble(ti.desc.name) + Body(ti) + Postamble()
  }

  /** The sections inside the container, in the order `Generate` appends them. */
  function Body(ti: TypeInfo): string
  {
    BasicInfo(ti) + InheritedSection(ti.parents)
    + ConstructorsSection(VisibleConstructors(ti.constructors)) + FieldsSection(ti.fields)
    + EventsSection(ti.events) + PropertiesSection(ti.properties) + MethodsSection(ti.methods)
  }

  // ----- the assembler -----

  method AppendCardHead(sb: StringBuilder, heading: string, declaration: string)
    modifies sb
    ensures sb.content == old(sb.content) + CardHead(heading, declaration)
  {
    var s0 := sb.content;
    sb.AppendLine(CardOpen);
    sb.AppendLine(heading);
    sb.AppendLine(DeclarationHeading);
    sb.AppendLine("<pre><code class=\"hljs\">" + declaration + "</code></pre>");
    sb.AppendLine(CardBodyOpen);
    Regroup5(s0, Line(CardOpen), Line(heading), Line(DeclarationHeading),
      Line("<pre><code class=\"hljs\">" + declaration + "</code></pre>"), Line(CardBodyOpen));
  }

  /** One turn of a member loop. */
  method AppendCard(sb: StringBuilder, heading: string, declaration: string, docs: seq<Annotation>)
    modifies sb
    ensures sb.content == old(sb.content) + Card(heading, declaration, docs)
  {
    AppendCardHead(sb, heading, declaration);
    AppendDocs(sb, docs, Html, "");
    sb.AppendLine(DivClose);
    sb.AppendLine(DivClose);
    Regroup4(old(sb.content), CardHead(heading, declaration), DocLines(docs, Html, ""), Line(DivClose), Line(DivClose));
  }

  method AppendSectionHead(sb: StringBuilder, heading: string)
    modifies sb
    ensures sb.content == old(sb.content) + SectionHead(heading)
  {
    sb.AppendLine(DivOpen);
    sb.AppendLine(heading);
    sb.AppendLine(Rule);
    Regroup3(old(sb.content), Line(DivOpen), Line(heading), Line(Rule));
  }

  /** The loop of `GetConstructorsInfo`. */
  method AppendConstructors(cs: seq<ConstructorInfo>, sb: StringBuilder)
    modifies sb
    ensures sb.content == old(sb.content) + ConcatMap(cs, ConstructorCard)
  {
    for i := 0 to |cs|
      invariant sb.content == old(sb.content) + ConcatMap(cs[..i], ConstructorCard)
    {
      var c := cs[i];
      AppendCard(sb, ConstructorHeading(c), c.declaration, c.docs);
      ConcatMapStep(cs, i, ConstructorCard);
      Regroup(old(sb.content), ConcatMap(cs[..i], ConstructorCard), ConstructorCard(c));
    }
    assert cs[..|cs|] == cs;
  }

  /** `GetConstructorsInfo`, given the visible constructors. */
  method GetConstructorsInfo(cs: seq<ConstructorInfo>, sb: StringBuilder)
    modifies sb
    ensures sb.content == old(sb.content) + ConstructorsSection(cs)
  {
    if |cs| > 0 {
      AppendSectionHead(sb, ConstructorsHeading);
      AppendConstructors(cs, sb);
      sb.AppendLine(DivClose);
      Regroup3(old(sb.content), SectionHead(ConstructorsHeading), ConcatMap(cs, ConstructorCard), Line(DivClose));
    }
  }

  /** The loop of `GetMethodsInfo`. */
  method AppendMethods(ms: seq<MethodInfo>, sb: StringBuilder)
    modifies sb
    ensures sb.content == old(sb.content) + ConcatMap(ms, MethodCard)
  {
    for i := 0 to |ms|
      invariant sb.content == old(sb.content) + ConcatMap(ms[..i], MethodCard)
    {
      var m := ms[i];
      AppendCard(sb, MethodHeading(m), m.declaration, m.docs);
      ConcatMapStep(ms, i, MethodCard);
      Regroup(old(sb.content), ConcatMap(ms[..i], MethodCard), MethodCard(m));
    }
    assert ms[..|ms|] == ms;
  }

  /** `GetMethodsInfo`. */
  method GetMethodsInfo(ms: seq<MethodInfo>, sb: StringBuilder)
    modifies sb
    ensures sb.content == old(sb.content) + MethodsSection(ms)
  {
    if |ms| > 0 {
      AppendSectionHead(sb, MethodsHeading);
      AppendMethods(ms, sb);
      sb.AppendLine(DivClose);
      Regroup3(old(sb.content), SectionHead(MethodsHeading), ConcatMap(ms, MethodCard), Line(DivClose));
    }
  }

  /** The loop of `GetPropertiesInfo`. */
  method AppendProperties(ps: seq<PropertyInfo>, sb: StringBuilder)
    modifies sb
    ensures sb.content == old(sb.content) + ConcatMap(ps, PropertyCard)
  {
    for i := 0 to |ps|
      invariant sb.content == old(sb.content) + ConcatMap(ps[..i], PropertyCard)
    {
      var p := ps[i];
      AppendCard(sb, PropertyHeading(p), p.declaration, p.docs);
      ConcatMapStep(ps, i, PropertyCard);
      Regroup(old(sb.content), ConcatMap(ps[..i], PropertyCard), PropertyCard(p));
    }
    assert ps[..|ps|] == ps;
  }

  /** `GetPropertiesInfo`. */
  method GetPropertiesInfo(ps: seq<PropertyInfo>, sb: StringBuilder)
    modifies sb
    ensures sb.content == old(sb.content) + PropertiesSection(ps)
  {
    if |ps| > 0 {
      AppendSectionHead(sb, PropertiesHeading);
      AppendProperties(ps, sb);
      sb.AppendLine(DivClose);
      Regroup3(old(sb.content), SectionHead(PropertiesHeading), ConcatMap(ps, PropertyCard), Line(DivClose));
    }
  }

  /** The loop of `GetFieldsInfo`. */
  method AppendFields(fs: seq<FieldInfo>, sb: StringBuilder)
    modifies sb
    ensures sb.content == old(sb.content) + ConcatMap(fs, FieldCard)
  {
    for i := 0 to |fs|
      invariant sb.content == old(sb.content) + ConcatMap(fs[..i], FieldCard)
    {
      var f := fs[i];
      AppendCard(sb, FieldHeading(f), f.declaration, f.docs);
      ConcatMapStep(fs, i, FieldCard);
      Regroup(old(sb.content), ConcatMap(fs[..i], FieldCard), FieldCard(f));
    }
    assert fs[..|fs|] == fs;
  }

  /** `GetFieldsInfo`. */
  method GetFieldsInfo(fs: seq<FieldInfo>, sb: StringBuilder)
    modifies sb
    ensures sb.content == old(sb.content) + FieldsSection(fs)
  {
    if |fs| > 0 {
      AppendSectionHead(sb, FieldsHeading);
      AppendFields(fs, sb);
      sb.AppendLine(DivClose);
      Regroup3(old(sb.content), SectionHead(FieldsHeading), ConcatMap(fs, FieldCard), Line(DivClose));
    }
  }

  /** The loop of `GetEventsInfo`. */
  method AppendEvents(es: seq<EventInfo>, sb: StringBuilder)
    modifies sb
    ensures sb.content == old(sb.content) + ConcatMap(es, EventCard)
  {
    for i := 0 to |es|
      invariant sb.content == old(sb.content) + ConcatMap(es[..i], EventCard)
    {
      var e := es[i];
      AppendCard(sb, EventHeading(e), e.declaration, e.docs);
      ConcatMapStep(es, i, EventCard);
      Regroup(old(sb.content), ConcatMap(es[..i], EventCard), EventCard(e));
    }
    assert es[..|es|] == es;
  }

  /** `GetEventsInfo`. */
  method GetEventsInfo(es: seq<EventInfo>, sb: StringBuilder)
    modifies sb
    ensures sb.content == old(sb.content) + EventsSection(es)
  {
    if |es| > 0 {
      AppendSectionHead(sb, EventsHeading);
      AppendEvents(es, sb);
      sb.AppendLine(DivClose);
      Regroup3(old(sb.content), SectionHead(EventsHeading), ConcatMap(es, EventCard), Line(DivClose));
    }
  }

  /** `GetTypeInfo`. */
  method GetTypeInfo(t: TypeDesc, sb: StringBuilder)
    modifies sb
    ensures sb.content == old(sb.content) + Line(TypeSpan(t))
  {
    if t.Generic? {
      var name := StripArity(t.name);
      var parmText := Join(",", TypeNames(t.args));
      sb.AppendLine("<span><b>" + name + "</b><strong>&lt;" + parmText + "&gt;</strong></span>");
    } else {
      sb.AppendLine("<span><b>" + t.name + "</b></span>");
    }
  }

  /** One turn of the inheritance loop. */
  method AppendParent(p: TypeDesc, sb: StringBuilder)
    modifies sb
    ensures sb.content == old(sb.content) + ParentItem(p)
  {
    sb.AppendLine(ItemOpen);
    GetTypeInfo(p, sb);
    sb.AppendLine(ItemClose);
    Regroup3(old(sb.content), Line(ItemOpen), Line(TypeSpan(p)), Line(ItemClose));
  }

  method AppendInheritedHead(sb: StringBuilder)
    modifies sb
    ensures sb.content == old(sb.content) + InheritedHead()
  {
    sb.AppendLine(InheritanceHeading);
    sb.AppendLine(Rule);
    sb.AppendLine(CardOpen);
    sb.AppendLine(CardBodyOpen);
    sb.AppendLine(ListOpen);
    Regroup5(old(sb.content), Line(InheritanceHeading), Line(Rule), Line(CardOpen), Line(CardBodyOpen), Line(ListOpen));
  }

  /** The loop of `GetInheritedInfo`. */
  method AppendParents(ps: seq<TypeDesc>, sb: StringBuilder)
    modifies sb
    ensures sb.content == old(sb.content) + ConcatMap(ps, ParentItem)
  {
    for i := 0 to |ps|
      invariant sb.content == old(sb.content) + ConcatMap(ps[..i], ParentItem)
    {
      AppendParent(ps[i], sb);
      ConcatMapStep(ps, i, ParentItem);
      Regroup(old(sb.content), ConcatMap(ps[..i], ParentItem), ParentItem(ps[i]));
    }
    assert ps[..|ps|] == ps;
  }

  /** `GetInheritedInfo`. */
  method GetInheritedInfo(ps: seq<TypeDesc>, sb: StringBuilder)
    modifies sb
    ensures sb.content == old(sb.content) + InheritedSection(ps)
  {
    if |ps| > 0 {
      AppendInheritedHead(sb);
      AppendParents(ps, sb);
      ghost var s2 := sb.content;
      sb.AppendLine(ListClose);
      sb.AppendLine(DivClose);
      sb.AppendLine(DivClose);
      Regroup3(s2, Line(ListClose), Line(DivClose), Line(DivClose));
      Regroup3(old(sb.content), InheritedHead(), ConcatMap(ps, ParentItem), InheritedTail());
    }
  }

  /** The `<h1>` line, the rule and the card's opening tag. */
  method AppendBasicHead(ti: TypeInfo, sb: StringBuilder)
    modifies sb
    ensures sb.content == old(sb.content) + BasicHead(ti)
  {
    var s0 := sb.content;
    if ti.desc.Generic? {
      var name := StripArity(ti.desc.name);
      var parmText := Join(",", TypeNames(ti.desc.args));
      sb.AppendLine("<h1>" + name + "<strong>&lt;" + parmText + "&gt;</strong></h1>");
    } else {
      sb.AppendLine("<h1>" + ti.desc.name + "</h1>");
    }
    assert sb.content == s0 + Line(TypeHeading(ti.desc));
    sb.AppendLine(Rule);
    sb.AppendLine(CardOpen);
    Regroup3(s0, Line(TypeHeading(ti.desc)), Line(Rule), Line(CardOpen));
  }

  /** The namespace, assembly and syntax lines and the `card-body` tag. */
  method AppendBasicFacts(ti: TypeInfo, sb: StringBuilder)
    modifies sb
    ensures sb.content == old(sb.content) + BasicFacts(ti)
  {
    var s0 := sb.content;
    var ns := "<p><strong>Namespace: </strong><span>" + ti.namespace + "</span></p>";
    var asm := "<p><strong>Assembly: </strong><span>" + ti.assembly + ".dll</span></p>";
    var syn := "<pre><code class=\"hljs\">" + ti.syntax + "</code></pre>";
    sb.AppendLine(ns);
    sb.AppendLine(asm);
    sb.AppendLine("<h4>Syntax</h4>");
    sb.AppendLine(syn);
    sb.AppendLine(CardBodyOpen);
    Regroup5(s0, Line(ns), Line(asm), Line("<h4>Syntax</h4>"), Line(syn), Line(CardBodyOpen));
  }

  /** `GetBasicInfo`. */
  method GetBasicInfo(ti: TypeInfo, sb: StringBuilder)
    modifies sb
    ensures sb.content == old(sb.content) + BasicInfo(ti)
  {
    AppendBasicHead(ti, sb);
    AppendBasicFacts(ti, sb);
    AppendDocs(sb, ti.docs, Html, "");
    sb.AppendLine(DivClose);
    sb.AppendLine(DivClose);
    Regroup5(old(sb.content), BasicHead(ti), BasicFacts(ti), DocLines(ti.docs, Html, ""), Line(DivClose), Line(DivClose));
  }

  method AppendPageStart(name: string, sb: StringBuilder)
    modifies sb
    ensures sb.content == old(sb.content) + PageStart(name)
  {
    var s0 := sb.content;
    var title := "<title>" + StripArity(name) + "</title>";
    sb.AppendLine("<!DOCTYPE html>");
    sb.AppendLine("<html>");
    sb.AppendLine("<head>");
    sb.AppendLine(title);
    Regroup4(s0, Line("<!DOCTYPE html>"), Line("<html>"), Line("<head>"), Line(title));
  }

  method AppendPageHeadEnd(sb: StringBuilder)
    modifies sb
    ensures sb.content == old(sb.content) + PageHeadEnd()
  {
    var s0 := sb.content;
    sb.AppendLine(FontLink);
    sb.AppendLine(Style);
    sb.AppendLine("</head>");
    sb.AppendLine("<body>");
    sb.AppendLine("<div class=\"container\">");
    Regroup5(s0, Line(FontLink), Line(Style), Line("</head>"), Line("<body>"), Line("<div class=\"container\">"));
  }

  /** The page head: doctype, `<html>`, the head with the title, font link
      and style, `<body>` and the container. */
  method AppendPreamble(name: string, sb: StringBuilder)
    modifies sb
    ensures sb.content == old(sb.content) + Preamble(name)
  {
    AppendPageStart(name, sb);
    AppendPageHeadEnd(sb);
    Regroup(old(sb.content), PageStart(name), PageHeadEnd());
  }

  method AppendPostamble(sb: StringBuilder)
    modifies sb
    ensures sb.content == old(sb.content) + Postamble()
  {
    sb.AppendLine(DivOpen);
    sb.AppendLine("</body>");
    sb.AppendLine("</html>");
    Regroup3(old(sb.content), Line(DivOpen), Line("</body>"), Line("</html>"));
  }

  /** `Generate(type)`: the fallback text for an invalid type, else the
      page with its sections in a fixed order. */
  method Generate(t: Option<TypeInfo>) returns (s: string)
    ensures !Valid(t) ==> s == Fallback(t)
    ensures s == Document(t)
  {
    if !Valid(t) {
      return Fallback(t);
    }
    var ti := t.value;
    var sb := new StringBuilder();
    var head := Preamble(ti.desc.name);
    AppendPreamble(ti.desc.name, sb);
    assert sb.content == head;
    AppendBody(ti, sb);
    AppendPostamble(sb);
    s := sb.ToString();
    assert s == head + Body(ti) + Postamble();
  }

  /** The section calls of `Generate`. */
  method AppendBody(ti: TypeInfo, sb: StringBuilder)
    modifies sb
    ensures sb.content == old(sb.content) + Body(ti)
  {
    GetBasicInfo(ti, sb);
    GetInheritedInfo(ti.parents, sb);
    GetConstructorsInfo(VisibleConstructors(ti.constructors), sb);
    GetFieldsInfo(ti.fields, sb);
    GetEventsInfo(ti.events, sb);
    GetPropertiesInfo(ti.properties, sb);
    GetMethodsInfo(ti.methods, sb);
    Regroup7(old(sb.content), BasicInfo(ti), InheritedSection(ti.parents),
      ConstructorsSection(VisibleConstructors(ti.constructors)), FieldsSection(ti.fields),
      EventsSection(ti.events), PropertiesSection(ti.properties), MethodsSection(ti.methods));
  }

  // ----- properties of the document -----

  /** A valid type's page starts with the page head and closes with
      `</body>` and `</html>`. */
  lemma DocumentFraming(t: Option<TypeInfo>)
    requires Valid(t)
    ensures StartsWith(Document(t), PageStart(t.value.desc.name))
    ensures EndsWith(Document(t), Postamble())
  {
    var ti := t.value;
    var name := ti.desc.name;
    var x := Preamble(name) + Body(ti);
    assert Document(t) == x + Postamble();
    EndsWithConcat(PageStart(name), PageHeadEnd());
    PrefixExtend(PageStart(name), Preamble(name), Body(ti));
    PrefixExtend(PageStart(name), x, Postamble());
    EndsWithConcat(x, Postamble());
  }

  /** The page head opens with the doctype and ends with a title holding
      the type's name without arity suffix. */
  lemma PageStartShape(name: string)
    ensures StartsWith(PageStart(name), Line("<!DOCTYPE html>"))
    ensures EndsWith(PageStart(name), Line("<title>" + StripArity(name) + "</title>"))
  {
    var l0 := Line("<!DOCTYPE html>");
    var l3 := Line("<title>" + StripArity(name) + "</title>");
    var y := l0 + Line("<html>") + Line("<head>");
    assert PageStart(name) == y + l3;
    EndsWithConcat(y, l3);
    EndsWithConcat(l0, Line("<html>"));
    PrefixExtend(l0, l0 + Line("<html>"), Line("<head>"));
    PrefixExtend(l0, y, l3);
  }

  /** A constructor that is neither public, protected nor static leaves the
      page unchanged. */
  lemma HiddenConstructorIgnored(ti: TypeInfo, c: ConstructorInfo)
    requires !Visible(c)
    ensures Document(Some(ti.(constructors := ti.constructors + [c]))) == Document(Some(ti))
  {
    HiddenConstructorBody(ti, c);
  }

  lemma HiddenConstructorBody(ti: TypeInfo, c: ConstructorInfo)
    requires !Visible(c)
    ensures Body(ti.(constructors := ti.constructors + [c])) == Body(ti)
  {
    VisibleConstructorsSnoc(ti.constructors, c);
  }

  /** A member section is left out exactly when it has no items; a present
      one opens with its `<div>` heading and closes with `</div>`. */
  lemma SectionShape(items: nat, heading: string, cards: string)
    ensures Section(items, heading, cards) == "" <==> items == 0
    ensures items > 0 ==> StartsWith(Section(items, heading, cards), SectionHead(heading))
    ensures items > 0 ==> EndsWith(Section(items, heading, cards), Line(DivClose))
  {
    if items > 0 {
      var x := SectionHead(heading);
      assert |Line(DivOpen)| > 0;
      EndsWithConcat(x, cards);
      PrefixExtend(x, x + cards, Line(DivClose));
      EndsWithConcat(x + cards, Line(DivClose));
    }
  }

  /** The inheritance card is left out exactly when there are no parents; a
      present one opens with its heading and list and closes the list and
      both card `<div>`s. */
  lemma InheritedShape(ps: seq<TypeDesc>)
    ensures InheritedSection(ps) == "" <==> |ps| == 0
    ensures |ps| > 0 ==> StartsWith(InheritedSection(ps), InheritedHead())
    ensures |ps| > 0 ==> EndsWith(InheritedSection(ps), InheritedTail())
  {
    if |ps| > 0 {
      var x := InheritedHead();
      var items := ConcatMap(ps, ParentItem);
      assert |Line(InheritanceHeading)| > 0;
      EndsWithConcat(x, items);
      PrefixExtend(x, x + items, InheritedTail());
      EndsWithConcat(x + items, InheritedTail());
    }
  }

  /** Adding an entry to a section's list adds exactly its card, after the
      others and just before the section's closing tag. */
  lemma SectionSnoc<T>(xs: seq<T>, x: T, f: T -> string, heading: string)
    ensures Section(|xs + [x]|, heading, ConcatMap(xs + [x], f))
      == SectionHead(heading) + ConcatMap(xs, f) + f(x) + Line(DivClose)
  {
    ConcatMapSnoc(xs, x, f);
  }

  /** A visible constructor's card is the last one of its section. */
  lemma VisibleConstructorAppended(cs: seq<ConstructorInfo>, c: ConstructorInfo)
    requires Visible(c)
    ensures ConstructorsSection(VisibleConstructors(cs + [c]))
      == SectionHead(ConstructorsHeading) + ConcatMap(VisibleConstructors(cs), ConstructorCard)
         + ConstructorCard(c) + Line(DivClose)
  {
    VisibleConstructorsSnoc(cs, c);
    SectionSnoc(VisibleConstructors(cs), c, ConstructorCard, ConstructorsHeading);
  }

  /** Adding a method adds exactly its card at the end of its section. */
  lemma MethodAppended(ms: seq<MethodInfo>, m: MethodInfo)
    ensures MethodsSection(ms + [m])
      == SectionHead(MethodsHeading) + ConcatMap(ms, MethodCard) + MethodCard(m) + Line(DivClose)
  {
    SectionSnoc(ms, m, MethodCard, MethodsHeading);
  }

  /** A card's annotations appear in attachment order inside its body. */
  lemma CardAnnotationsInOrder(heading: string, declaration: string, xs: seq<Annotation>, ys: seq<Annotation>)
    ensures Card(heading, declaration, xs + ys)
      == CardHead(heading, declaration) + DocLines(xs, Html, "") + DocLines(ys, Html, "")
         + Line(DivClose) + Line(DivClose)
  {
    var head := CardHead(heading, declaration);
    var a := DocLines(xs, Html, "");
    var b := DocLines(ys, Html, "");
    var d := DocLines(xs + ys, Html, "");
    DocLinesAppend(xs, ys, Html, "");
    assert d == a + b;
    assert Card(heading, declaration, xs + ys) == head + d + Line(DivClose) + Line(DivClose);
    Regroup(head, a, b);
  }
}
