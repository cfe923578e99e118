/**
  `XmlGenerator`: a type's documentation as an XML-like document. Type
  names use the escaped brackets `&lt;` and `&gt;`; every member is a
  `<member name="...">` element holding its declaration and its annotations.
*/
module XmlGenerator {
  import opened Wrappers
  import opened Text
  import opened DocTypes
  import opened Attributes
  import opened Descriptors
  import opened DocGenerator

  // ----- type names -----

  /** `GetGenericTypeName`. */
  function TypeName(t: TypeDesc): string
    decreases t
  {
    match t
    case GenericParam(n, cs, flags) => ClauseText(n, ClauseOf(ConstraintText(cs), flags))
    case Generic(n, args) => StripArity(n) + "&lt;" + Join(",", TypeNames(args)) + "&gt;"
    case Array(n, args) =>
      if Join(",", TypeNames(args)) != "" then "[" + StripArity(n) + "&lt;" + Join(",", TypeNames(args)) + "&gt;]"
      else StripArity(n)
    case Plain(n) => n
  }

  /** `Select(p => GetGenericTypeName(p))`: one name per argument, in order. */
  function TypeNames(ts: seq<TypeDesc>): (r: seq<string>)
    ensures |r| == |ts|
    ensures forall i :: 0 <= i < |ts| ==> r[i] == TypeName(ts[i])
    decreases ts
  {
    seq(|ts|, i requires 0 <= i < |ts| => TypeName(ts[i]))
  }

  /** The type part of `GetGenericParemeterTypeName`: a constructed generic
      type as `GetGenericTypeName` writes it, an array with generic
      arguments with `[]` after them, anything else its stripped name. */
  function ParamTypeText(t: TypeDesc): (r: string)
    ensures t.Generic? ==> r == TypeName(t)
    ensures !t.Generic? && !t.Array? ==> r == StripArity(t.name)
  {
    match t
    case Generic(n, args) => StripArity(n) + "&lt;" + Join(",", TypeNames(args)) + "&gt;"
    case Array(n, args) =>
      if Join(",", TypeNames(args)) != "" then StripArity(n) + "&lt;" + Join(",", TypeNames(args)) + "&gt;[]"
      else StripArity(n)
    case _ => StripArity(t.name)
  }

  /** `GetGenericParemeterTypeName`: the parameter's type, a space, and its
      name without an arity suffix. */
  function ParamName(p: ParamInfo): (r: string)
    ensures EndsWith(r, " " + StripArity(p.name))
    ensures p.parameterType.Generic? ==> r == TypeName(p.parameterType) + " " + StripArity(p.name)
  {
    EndsWithAppend(ParamTypeText(p.parameterType), " ", StripArity(p.name));
    ParamTypeText(p.parameterType) + " " + StripArity(p.name)
  }

  function ParamNames(ps: seq<ParamInfo>): (r: seq<string>)
    ensures |r| == |ps|
    ensures forall i :: 0 <= i < |ps| ==> r[i] == ParamName(ps[i])
  {
    seq(|ps|, i requires 0 <= i < |ps| => ParamName(ps[i]))
  }

  /** `returnTypeText` of the methods section. */
  function ReturnTypeText(t: TypeDesc): (r: string)
    ensures t.Generic? ==> r == TypeName(t)
    ensures t.Plain? || t.GenericParam? ==> r == t.name
  {
    match t
    case Generic(n, args) => StripArity(n) + "&lt;" + Join(",", TypeNames(args)) + "&gt;"
    case Array(n, args) =>
      if Join(",", TypeNames(args)) != "" then StripArity(n) + "&lt;" + Join(",", TypeNames(args)) + "&gt;[]"
      else StripArity(n)
    case _ => t.name
  }

  /** The `T:` name of the documented type and of each parent type. */
  function TypeTitle(t: TypeDesc): (r: string)
    ensures t.Generic? ==> r == TypeName(t)
    ensures !t.Generic? ==> r == t.name
  {
    match t
    case Generic(n, args) => StripArity(n) + "&lt;" + Join(",", TypeNames(args)) + "&gt;"
    case _ => t.name
  }

  // ----- member headers -----

  function ConstructorHeader(c: ConstructorInfo): string
  {
    "<member name=\"C:" + StripArity(c.declaringTypeName) + "(" + Join(", ", ParamNames(c.parameters)) + ")\">"
  }

  function MethodHeader(m: MethodInfo): string
  {
    if |m.typeArguments| > 0 then
      "<member name=\"M:" + MethodName(m.name) + "&lt;" + Join(",", TypeNames(m.typeArguments)) + "&gt;("
      + Join(", ", ParamNames(m.parameters)) + "):" + ReturnTypeText(m.returnType) + "\">"
    else
      "<member name=\"M:" + MethodName(m.name) + "(" + Join(", ", ParamNames(m.parameters)) + "):"
      + ReturnTypeText(m.returnType) + "\">"
  }

  function PropertyHeader(p: PropertyInfo): string
  {
    match p.propertyType
    case Generic(n, args) =>
      "<member name=\"P:" + p.name + ":" + StripArity(n) + "&lt;" + Join(", ", TypeNames(args)) + "&gt;\">"
    case _ => "<member name=\"P:" + p.name + ":" + p.propertyType.name + "\">"
  }

  function FieldHeader(f: FieldInfo): string
  {
    match f.fieldType
    case Generic(n, args) =>
      "<member name=\"F:" + StripArity(f.name) + ":" + StripArity(n) + "&lt;" + Join(", ", TypeNames(args)) + "&gt;\">"
    case _ => "<member name=\"F:" + f.name + ":" + f.fieldType.name + "\">"
  }

  function EventHeader(e: EventInfo): string
  {
    match e.handlerType
    case Generic(n, args) =>
      "<member name=\"M:" + e.name + ":" + StripArity(n) + "&lt;" + Join(", ", TypeNames(args)) + "&gt;\">"
    case _ => "<member name=\"M:" + e.name + ":" + e.handlerTypeText + "\">"
  }

  // ----- the document -----

  const MemberClose: string := "</member>"
  const ConstructorsOpen: string := "<constructors>"
  const ConstructorsClose: string := "</constructors>"
  const MethodsOpen: string := "<methods>"
  const MethodsClose: string := "</methods>"
  const PropertiesOpen: string := "<properties>"
  const PropertiesClose: string := "</properties>"
  const FieldsOpen: string := "<fields>"
  const FieldsClose: string := "</fields>"
  const EventsOpen: string := "<events>"
  const EventsClose: string := "</events>"
  const InheritanceOpen: string := "<inheritance>"
  const InheritanceClose: string := "</inheritance>"
  const MembersOpen: string := "<members>"
  const MembersClose: string := "</members>"
  const DocOpen: string := "<doc>"
  const DocClose: string := "</doc>"
  const TypeInfoClose: string := "</type-info>"

  /** One member element: its header, its declaration, its annotations in
      attachment order, and the closing tag. */
  function MemberBlock(header: string, declaration: string, docs: seq<Annotation>): string
  {
    Line(header) + Line("<declaration>" + declaration + "</declaration>") + DocLines(docs, Xml, "") + Line(MemberClose)
  }

  function ConstructorBlock(c: ConstructorInfo): string
  {
    MemberBlock(ConstructorHeader(c), c.declaration, c.docs)
  }

  function MethodBlock(m: MethodInfo): string
  {
    MemberBlock(MethodHeader(m), m.declaration, m.docs)
  }

  function PropertyBlock(p: PropertyInfo): string
  {
    MemberBlock(PropertyHeader(p), p.declaration, p.docs)
  }

  function FieldBlock(f: FieldInfo): string
  {
    MemberBlock(FieldHeader(f), f.declaration, f.docs)
  }

  function EventBlock(e: EventInfo): string
  {
    MemberBlock(EventHeader(e), e.declaration, e.docs)
  }

  /** `GetTypeInfo` for a parent, followed by the `</member>` the
      inheritance loop adds. */
  function ParentEntry(p: TypeDesc): string
  {
    Line(ParentHead(p)) + Line(MemberClose)
  }

  /** The line `GetTypeInfo` appends. */
  function ParentHead(p: TypeDesc): string
  {
    "<member name=\"T:" + TypeTitle(p) + "\">"
  }

  /** A section: nothing for an empty list, else the opening tag, the
      entries and the closing tag. */
  function Section(items: nat, open: string, entries: string, close: string): (r: string)
    ensures items == 0 ==> r == ""
    ensures items > 0 ==> r == Line(open) + entries + Line(close)
  {
    if items == 0 then "" else Line(open) + entries + Line(close)
  }

  function ConstructorsSection(cs: seq<ConstructorInfo>): string
  {
    Section(|cs|, ConstructorsOpen, ConcatMap(cs, ConstructorBlock), ConstructorsClose)
  }

  function MethodsSection(ms: seq<MethodInfo>): string
  {
    Section(|ms|, MethodsOpen, ConcatMap(ms, MethodBlock), MethodsClose)
  }

  function PropertiesSection(ps: seq<PropertyInfo>): string
  {
    Section(|ps|, PropertiesOpen, ConcatMap(ps, PropertyBlock), PropertiesClose)
  }

  function FieldsSection(fs: seq<FieldInfo>): string
  {
    Section(|fs|, FieldsOpen, ConcatMap(fs, FieldBlock), FieldsClose)
  }

  function EventsSection(es: seq<EventInfo>): string
  {
    Section(|es|, EventsOpen, ConcatMap(es, EventBlock), EventsClose)
  }

  function InheritedSection(ps: seq<TypeDesc>): string
  {
    Section(|ps|, InheritanceOpen, Line(MembersOpen) + ConcatMap(ps, ParentEntry) + Line(MembersClose), InheritanceClose)
  }

  function BasicInfo(ti: TypeInfo): string
  {
    Line("<type-info name=\"T:" + TypeTitle(ti.desc) + "\">")
    + Line("<namespace name=\"" + ti.namespace + "\"></namespace>")
    + Line("<assembly name=\"" + ti.assembly + "\"></assembly>")
    + Line("<syntax>" + ti.syntax + "</syntax>")
    + DocLines(ti.docs, Xml, "")
    + Line(TypeInfoClose)
  }

  /** `Generate(type)`. */
  function Document(t: Option<TypeInfo>): string
  {
    if !Valid(t) then Fallback(t)
    else
      var ti := t.value;
      Line(DocOpen) + BasicInfo(ti) + InheritedSection(ti.parents)
      + ConstructorsSection(VisibleConstructors(ti.constructors)) + FieldsSection(ti.fields)
      + EventsSection(ti.events) + PropertiesSection(ti.properties) + MethodsSection(ti.methods)
      + Line(DocClose)
  }

  // ----- the assembler -----

  method AppendMember(sb: StringBuilder, header: string, declaration: string, docs: seq<Annotation>)
    modifies sb
    ensures sb.content == old(sb.content) + MemberBlock(header, declaration, docs)
  {
    var s0 := sb.content;
    sb.AppendLine(header);
    sb.AppendLine("<declaration>" + declaration + "</declaration>");
    AppendDocs(sb, docs, Xml, "");
    sb.AppendLine(MemberClose);
    Regroup4(s0, Line(header), Line("<declaration>" + declaration + "</declaration>"), DocLines(docs, Xml, ""), Line(MemberClose));
  }

  /** The loop of `GetConstructorsInfo`. */
  method AppendConstructors(cs: seq<ConstructorInfo>, sb: StringBuilder)
    modifies sb
    ensures sb.content == old(sb.content) + ConcatMap(cs, ConstructorBlock)
  {
    for i := 0 to |cs|
      invariant sb.content == old(sb.content) + ConcatMap(cs[..i], ConstructorBlock)
    {
      var c := cs[i];
      AppendMember(sb, ConstructorHeader(c), c.declaration, c.docs);
      ConcatMapStep(cs, i, ConstructorBlock);
      Regroup(old(sb.content), ConcatMap(cs[..i], ConstructorBlock), ConstructorBlock(c));
    }
    assert cs[..|cs|] == cs;
  }

  /** `GetConstructorsInfo`, given the visible constructors. */
  method GetConstructorsInfo(cs: seq<ConstructorInfo>, sb: StringBuilder)
    modifies sb
    ensures sb.content == old(sb.content) + ConstructorsSection(cs)
  {
    if |cs| > 0 {
      sb.AppendLine(ConstructorsOpen);
      AppendConstructors(cs, sb);
      sb.AppendLine(ConstructorsClose);
      Regroup3(old(sb.content), Line(ConstructorsOpen), ConcatMap(cs, ConstructorBlock), Line(ConstructorsClose));
    }
  }

  /** The loop of `GetMethodsInfo`. */
  method AppendMethods(ms: seq<MethodInfo>, sb: StringBuilder)
    modifies sb
    ensures sb.content == old(sb.content) + ConcatMap(ms, MethodBlock)
  {
    for i := 0 to |ms|
      invariant sb.content == old(sb.content) + ConcatMap(ms[..i], MethodBlock)
    {
      var m := ms[i];
      AppendMember(sb, MethodHeader(m), m.declaration, m.docs);
      ConcatMapStep(ms, i, MethodBlock);
      Regroup(old(sb.content), ConcatMap(ms[..i], MethodBlock), MethodBlock(m));
    }
    assert ms[..|ms|] == ms;
  }

  /** `GetMethodsInfo`. */
  method GetMethodsInfo(ms: seq<MethodInfo>, sb: StringBuilder)
    modifies sb
    ensures sb.content == old(sb.content) + MethodsSection(ms)
  {
    if |ms| > 0 {
      sb.AppendLine(MethodsOpen);
      AppendMethods(ms, sb);
      sb.AppendLine(MethodsClose);
      Regroup3(old(sb.content), Line(MethodsOpen), ConcatMap(ms, MethodBlock), Line(MethodsClose));
    }
  }

  /** The loop of `GetPropertiesInfo`. */
  method AppendProperties(ps: seq<PropertyInfo>, sb: StringBuilder)
    modifies sb
    ensures sb.content == old(sb.content) + ConcatMap(ps, PropertyBlock)
  {
    for i := 0 to |ps|
      invariant sb.content == old(sb.content) + ConcatMap(ps[..i], PropertyBlock)
    {
      var p := ps[i];
      AppendMember(sb, PropertyHeader(p), p.declaration, p.docs);
      ConcatMapStep(ps, i, PropertyBlock);
      Regroup(old(sb.content), ConcatMap(ps[..i], PropertyBlock), PropertyBlock(p));
    }
    assert ps[..|ps|] == ps;
  }

  /** `GetPropertiesInfo`. */
  method GetPropertiesInfo(ps: seq<PropertyInfo>, sb: StringBuilder)
    modifies sb
    ensures sb.content == old(sb.content) + PropertiesSection(ps)
  {
    if |ps| > 0 {
      sb.AppendLine(PropertiesOpen);
      AppendProperties(ps, sb);
      sb.AppendLine(PropertiesClose);
      Regroup3(old(sb.content), Line(PropertiesOpen), ConcatMap(ps, PropertyBlock), Line(PropertiesClose));
    }
  }

  /** The loop of `GetFieldsInfo`. */
  method AppendFields(fs: seq<FieldInfo>, sb: StringBuilder)
    modifies sb
    ensures sb.content == old(sb.content) + ConcatMap(fs, FieldBlock)
  {
    for i := 0 to |fs|
      invariant sb.content == old(sb.content) + ConcatMap(fs[..i], FieldBlock)
    {
      var f := fs[i];
      AppendMember(sb, FieldHeader(f), f.declaration, f.docs);
      ConcatMapStep(fs, i, FieldBlock);
      Regroup(old(sb.content), ConcatMap(fs[..i], FieldBlock), FieldBlock(f));
    }
    assert fs[..|fs|] == fs;
  }

  /** `GetFieldsInfo`. */
  method GetFieldsInfo(fs: seq<FieldInfo>, sb: StringBuilder)
    modifies sb
    ensures sb.content == old(sb.content) + FieldsSection(fs)
  {
    if |fs| > 0 {
      sb.AppendLine(FieldsOpen);
      AppendFields(fs, sb);
      sb.AppendLine(FieldsClose);
      Regroup3(old(sb.content), Line(FieldsOpen), ConcatMap(fs, FieldBlock), Line(FieldsClose));
    }
  }

  /** The loop of `GetEventsInfo`. */
  method AppendEvents(es: seq<EventInfo>, sb: StringBuilder)
    modifies sb
    ensures sb.content == old(sb.content) + ConcatMap(es, EventBlock)
  {
    for i := 0 to |es|
      invariant sb.content == old(sb.content) + ConcatMap(es[..i], EventBlock)
    {
      var e := es[i];
      AppendMember(sb, EventHeader(e), e.declaration, e.docs);
      ConcatMapStep(es, i, EventBlock);
      Regroup(old(sb.content), ConcatMap(es[..i], EventBlock), EventBlock(e));
    }
    assert es[..|es|] == es;
  }

  /** `GetEventsInfo`. */
  method GetEventsInfo(es: seq<EventInfo>, sb: StringBuilder)
    modifies sb
    ensures sb.content == old(sb.content) + EventsSection(es)
  {
    if |es| > 0 {
      sb.AppendLine(EventsOpen);
      AppendEvents(es, sb);
      sb.AppendLine(EventsClose);
      Regroup3(old(sb.content), Line(EventsOpen), ConcatMap(es, EventBlock), Line(EventsClose));
    }
  }

  /** `GetTypeInfo`. */
  method GetTypeInfo(p: TypeDesc, sb: StringBuilder)
    modifies sb
    ensures sb.content == old(sb.content) + Line(ParentHead(p))
  {
    if p.Generic? {
      var name := StripArity(p.name);
      var parmText := Join(",", TypeNames(p.args));
      var title := name + "&lt;" + parmText + "&gt;";
      sb.AppendLine("<member name=\"T:" + title + "\">");
    } else {
      sb.AppendLine("<member name=\"T:" + p.name + "\">");
    }
  }

  /** One turn of the inheritance loop. */
  method AppendParent(p: TypeDesc, sb: StringBuilder)
    modifies sb
    ensures sb.content == old(sb.content) + ParentEntry(p)
  {
    GetTypeInfo(p, sb);
    sb.AppendLine(MemberClose);
    Regroup(old(sb.content), Line(ParentHead(p)), Line(MemberClose));
  }

  /** `GetInheritedInfo`. */
  method GetInheritedInfo(ps: seq<TypeDesc>, sb: StringBuilder)
    modifies sb
    ensures sb.content == old(sb.content) + InheritedSection(ps)
  {
    if |ps| > 0 {
      sb.AppendLine(InheritanceOpen);
      ghost var s1 := sb.content;
      sb.AppendLine(MembersOpen);
      ghost var s2 := sb.content;
      for i := 0 to |ps|
        invariant sb.content == s2 + ConcatMap(ps[..i], ParentEntry)
      {
        AppendParent(ps[i], sb);
        ConcatMapStep(ps, i, ParentEntry);
        Regroup(s2, ConcatMap(ps[..i], ParentEntry), ParentEntry(ps[i]));
      }
      assert ps[..|ps|] == ps;
      ghost var entries := ConcatMap(ps, ParentEntry);
      sb.AppendLine(MembersClose);
      Regroup3(s1, Line(MembersOpen), entries, Line(MembersClose));
      ghost var body := Line(MembersOpen) + entries + Line(MembersClose);
      assert sb.content == s1 + body;
      sb.AppendLine(InheritanceClose);
      Regroup3(old(sb.content), Line(InheritanceOpen), body, Line(InheritanceClose));
    }
  }

  /** The first line of `GetBasicInfo`. */
  method AppendTypeInfoHead(t: TypeDesc, sb: StringBuilder)
    modifies sb
    ensures sb.content == old(sb.content) + Line("<type-info name=\"T:" + TypeTitle(t) + "\">")
  {
    if t.Generic? {
      var name := StripArity(t.name);
      var parmText := Join(",", TypeNames(t.args));
      var title := name + "&lt;" + parmText + "&gt;";
      sb.AppendLine("<type-info name=\"T:" + title + "\">");
    } else {
      sb.AppendLine("<type-info name=\"T:" + t.name + "\">");
    }
  }

  /** `GetBasicInfo`. */
  method GetBasicInfo(ti: TypeInfo, sb: StringBuilder)
    modifies sb
    ensures sb.content == old(sb.content) + BasicInfo(ti)
  {
    ghost var s0 := sb.content;
    ghost var head := Line("<type-info name=\"T:" + TypeTitle(ti.desc) + "\">");
    ghost var ns := Line("<namespace name=\"" + ti.namespace + "\"></namespace>");
    ghost var asm := Line("<assembly name=\"" + ti.assembly + "\"></assembly>");
    ghost var syn := Line("<syntax>" + ti.syntax + "</syntax>");
    AppendTypeInfoHead(ti.desc, sb);
    sb.AppendLine("<namespace name=\"" + ti.namespace + "\"></namespace>");
    sb.AppendLine("<assembly name=\"" + ti.assembly + "\"></assembly>");
    sb.AppendLine("<syntax>" + ti.syntax + "</syntax>");
    assert sb.content == s0 + head + ns + asm + syn;
    AppendDocs(sb, ti.docs, Xml, "");
    sb.AppendLine(TypeInfoClose);
    Regroup6(s0, head, ns, asm, syn, DocLines(ti.docs, Xml, ""), Line(TypeInfoClose));
  }

  /** `Generate(type)`: the fallback text for an invalid type, else the
      document with its sections in a fixed order. */
  method Generate(t: Option<TypeInfo>) returns (s: string)
    ensures !Valid(t) ==> s == Fallback(t)
    ensures s == Document(t)
  {
    if !Valid(t) {
      return Fallback(t);
    }
    var ti := t.value;
    var sb := new StringBuilder();
    sb.AppendLine(DocOpen);
    assert sb.content == Line(DocOpen);
    GetBasicInfo(ti, sb);
    GetInheritedInfo(ti.parents, sb);
    GetConstructorsInfo(VisibleConstructors(ti.constructors), sb);
    GetFieldsInfo(ti.fields, sb);
    GetEventsInfo(ti.events, sb);
    GetPropertiesInfo(ti.properties, sb);
    GetMethodsInfo(ti.methods, sb);
    sb.AppendLine(DocClose);
    s := sb.ToString();
  }

  // ----- properties of the document -----

  /** A valid type's document is one `<doc>` element, opened by its type
      information. */
  lemma DocumentFraming(t: Option<TypeInfo>)
    requires Valid(t)
    ensures StartsWith(Document(t), Line(DocOpen) + BasicInfo(t.value))
    ensures EndsWith(Document(t), Line(DocClose))
  {
    var ti := t.value;
    var x1 := Line(DocOpen) + BasicInfo(ti);
    var x2 := x1 + InheritedSection(ti.parents);
    var x3 := x2 + ConstructorsSection(VisibleConstructors(ti.constructors));
    var x4 := x3 + FieldsSection(ti.fields);
    var x5 := x4 + EventsSection(ti.events);
    var x6 := x5 + PropertiesSection(ti.properties);
    var x7 := x6 + MethodsSection(ti.methods);
    assert Document(t) == x7 + Line(DocClose);
    EndsWithConcat(x1, InheritedSection(ti.parents));
    PrefixExtend(x1, x2, ConstructorsSection(VisibleConstructors(ti.constructors)));
    PrefixExtend(x1, x3, FieldsSection(ti.fields));
    PrefixExtend(x1, x4, EventsSection(ti.events));
    PrefixExtend(x1, x5, PropertiesSection(ti.properties));
    PrefixExtend(x1, x6, MethodsSection(ti.methods));
    PrefixExtend(x1, x7, Line(DocClose));
    EndsWithConcat(x7, Line(DocClose));
  }

  /** A constructor that is neither public, protected nor static leaves the
      document unchanged. */
  lemma HiddenConstructorIgnored(ti: TypeInfo, c: ConstructorInfo)
    requires !Visible(c)
    ensures Document(Some(ti.(constructors := ti.constructors + [c]))) == Document(Some(ti))
  {
    VisibleConstructorsSnoc(ti.constructors, c);
  }

  /** A visible constructor is appended as the last entry of the
      constructors section. */
  lemma VisibleConstructorAppended(cs: seq<ConstructorInfo>, c: ConstructorInfo)
    requires Visible(c)
    ensures ConstructorsSection(VisibleConstructors(cs + [c]))
      == Line(ConstructorsOpen) + ConcatMap(VisibleConstructors(cs), ConstructorBlock)
         + ConstructorBlock(c) + Line(ConstructorsClose)
  {
    VisibleConstructorsSnoc(cs, c);
    SectionSnoc(VisibleConstructors(cs), c, ConstructorBlock, ConstructorsOpen, ConstructorsClose);
  }

  /** Adding an entry to a section's list adds exactly its text, after the
      others and just before the closing tag. */
  lemma SectionSnoc<T>(xs: seq<T>, x: T, f: T -> string, open: string, close: string)
    ensures Section(|xs + [x]|, open, ConcatMap(xs + [x], f), close)
      == Line(open) + ConcatMap(xs, f) + f(x) + Line(close)
  {
    ConcatMapSnoc(xs, x, f);
  }

  /** Adding a method adds exactly its element, after the others and just
      before `</methods>`. */
  lemma MethodAppended(ms: seq<MethodInfo>, m: MethodInfo)
    ensures MethodsSection(ms + [m])
      == Line(MethodsOpen) + ConcatMap(ms, MethodBlock) + MethodBlock(m) + Line(MethodsClose)
  {
    SectionSnoc(ms, m, MethodBlock, MethodsOpen, MethodsClose);
  }

  /** A section is left out exactly when it has no entries. */
  lemma SectionEmptyIff(items: nat, open: string, entries: string, close: string)
    ensures Section(items, open, entries, close) == "" <==> items == 0
  {
    assert |Line(open)| > 0;
  }

  /** A member's annotations appear in attachment order: the element for
      `xs + ys` holds the lines for `xs` followed by those for `ys`. */
  lemma MemberAnnotationsInOrder(header: string, declaration: string, xs: seq<Annotation>, ys: seq<Annotation>)
    ensures MemberBlock(header, declaration, xs + ys)
      == Line(header) + Line("<declaration>" + declaration + "</declaration>")
         + DocLines(xs, Xml, "") + DocLines(ys, Xml, "") + Line(MemberClose)
  {
    DocLinesAppend(xs, ys, Xml, "");
  }
}
