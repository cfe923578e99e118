/**
  `YamlGenerator`: a type's documentation as a YAML-like listing. Type
  names use raw `<` and `>`; every member is a `  - kind:` item with a
  `name:` line, a `declaration:` line and its annotations, which are
  rendered with the member indentation (four spaces) or, for the type's
  own annotations, the type indentation (two spaces).
*/
module YamlGenerator {
  import opened Wrappers
  import opened Text
  import opened DocTypes
  import opened Attributes
  import opened Descriptors
  import opened DocGenerator

  /** The indentation handed to a member's annotations. */
  const MemberIndent: string := "    "

  /** The indentation handed to the type's own annotations. */
  const TypeIndent: string := "  "

  // ----- type names -----

  /** `GetGenericTypeName`. */
  function TypeName(t: TypeDesc): string
    decreases t
  {
    match t
    case GenericParam(n, cs, flags) => ClauseText(n, ClauseOf(ConstraintText(cs), flags))
    case Generic(n, args) => StripArity(n) + "<" + Join(",", TypeNames(args)) + ">"
    case Array(n, args) =>
      if Join(",", TypeNames(args)) != "" then "[" + StripArity(n) + "<" + Join(",", TypeNames(args)) + ">]"
      else StripArity(n)
    case Plain(n) => n
  }

  /** `Select(p => GetGenericTypeName(p))`: one name per argument, in order. */
  function TypeNames(ts: seq<TypeDesc>): (r: seq<string>)
    ensures |r| == |ts|
    ensures forall i :: 0 <= i < |ts| ==> r[i] == TypeName(ts[i])
    decreases ts
  {
    seq(|ts|, i requires 0 <= i < |ts| => TypeName(ts[i]))
  }

  /** The type part of `GetGenericParemeterTypeName`: a constructed generic
      type as `GetGenericTypeName` writes it, an array with generic
      arguments with `[]` after them, anything else its stripped name. */
  function ParamTypeText(t: TypeDesc): (r: string)
    ensures t.Generic? ==> r == TypeName(t)
    ensures !t.Generic? && !t.Array? ==> r == StripArity(t.name)
  {
    match t
    case Generic(n, args) => StripArity(n) + "<" + Join(",", TypeNames(args)) + ">"
    case Array(n, args) =>
      if Join(",", TypeNames(args)) != "" then StripArity(n) + "<" + Join(",", TypeNames(args)) + ">[]"
      else StripArity(n)
    case _ => StripArity(t.name)
  }

  /** `GetGenericParemeterTypeName`: the parameter's type, a space, and its
      name without an arity suffix. */
  function ParamName(p: ParamInfo): (r: string)
    ensures EndsWith(r, " " + StripArity(p.name))
    ensures p.parameterType.Generic? ==> r == TypeName(p.parameterType) + " " + StripArity(p.name)
  {
    EndsWithAppend(ParamTypeText(p.parameterType), " ", StripArity(p.name));
    ParamTypeText(p.parameterType) + " " + StripArity(p.name)
  }

  function ParamNames(ps: seq<ParamInfo>): (r: seq<string>)
    ensures |r| == |ps|
    ensures forall i :: 0 <= i < |ps| ==> r[i] == ParamName(ps[i])
  {
    seq(|ps|, i requires 0 <= i < |ps| => ParamName(ps[i]))
  }

  /** `returnTypeText` of the methods section. */
  function ReturnTypeText(t: TypeDesc): (r: string)
    ensures t.Generic? ==> r == TypeName(t)
    ensures t.Plain? || t.GenericParam? ==> r == t.name
  {
    match t
    case Generic(n, args) => StripArity(n) + "<" + Join(",", TypeNames(args)) + ">"
    case Array(n, args) =>
      if Join(",", TypeNames(args)) != "" then StripArity(n) + "<" + Join(",", TypeNames(args)) + ">[]"
      else StripArity(n)
    case _ => t.name
  }

  /** The quoted name `GetTypeInfo` writes after its separator. */
  function TypeTitle(t: TypeDesc): (r: string)
    ensures t.Generic? ==> r == TypeName(t)
    ensures !t.Generic? ==> r == t.name
  {
    match t
    case Generic(n, args) => StripArity(n) + "<" + Join(",", TypeNames(args)) + ">"
    case _ => t.name
  }

  // ----- member items -----

  function ConstructorName(c: ConstructorInfo): string
  {
    "    name: \"" + StripArity(c.declaringTypeName) + "(" + Join(", ", ParamNames(c.parameters)) + ")\""
  }

  /** A generic method's name is stripped and followed by its type
      arguments; a non-generic method's name is written as reflected. */
  function MethodName(m: MethodInfo): string
  {
    if |m.typeArguments| > 0 then
      "    name: \"" + StripArity(m.name) + "<" + Join(",", TypeNames(m.typeArguments)) + ">("
      + Join(", ", ParamNames(m.parameters)) + "): " + ReturnTypeText(m.returnType) + "\""
    else
      "    name: \"" + m.name + "(" + Join(", ", ParamNames(m.parameters)) + "): " + ReturnTypeText(m.returnType) + "\""
  }

  function PropertyName(p: PropertyInfo): string
  {
    match p.propertyType
    case Generic(n, args) => "    name: \"" + p.name + ": " + StripArity(n) + "<" + Join(", ", TypeNames(args)) + ">\""
    case _ => "    name: \"" + p.name + " : " + p.propertyType.name + "\""
  }

  function FieldName(f: FieldInfo): string
  {
    match f.fieldType
    case Generic(n, args) => "    name: \"" + StripArity(f.name) + ": " + StripArity(n) + "<" + Join(", ", TypeNames(args)) + ">\""
    case _ => "    name: \"" + f.name + ": " + f.fieldType.name + "\""
  }

  function EventName(e: EventInfo): string
  {
    match e.handlerType
    case Generic(n, args) => "    name: \"" + e.name + ": " + StripArity(n) + "<" + Join(", ", TypeNames(args)) + ">\""
    case _ => "    name: \"" + e.name + ": " + e.handlerTypeText + "\""
  }

  // ----- the document -----

  const ConstructorItem: string := "  - constructor:"
  const MethodItem: string := "  - method:"
  const PropertyItem: string := "  - property:"
  const FieldItem: string := "  - field:"
  const EventItem: string := "  - event:"
  const ConstructorsHead: string := "constructors:"
  const MethodsHead: string := "methods:"
  const PropertiesHead: string := "properties:"
  const FieldsHead: string := "fields:"
  const EventsHead: string := "events:"
  const InheritedHead: string := "inherited:"
  const ParentSeparator: string := "  - "
  const TypeNameSeparator: string := "  name:"
  const DocumentStart: string := "---"
  const TypeInfoHead: string := "type-info:"

  /** One member item: the item line, the name line, the declaration line,
      then the annotations rendered with the member indentation. */
  function Item(item: string, name: string, declaration: string, docs: seq<Annotation>): string
  {
    Line(item) + Line(name) + Line("    declaration: \"" + declaration + "\"") + DocLines(docs, Yml, MemberIndent)
  }

  function ConstructorBlock(c: ConstructorInfo): string
  {
    Item(ConstructorItem, ConstructorName(c), c.declaration, c.docs)
  }

  function MethodBlock(m: MethodInfo): string
  {
    Item(MethodItem, MethodName(m), m.declaration, m.docs)
  }

  function PropertyBlock(p: PropertyInfo): string
  {
    Item(PropertyItem, PropertyName(p), p.declaration, p.docs)
  }

  function FieldBlock(f: FieldInfo): string
  {
    Item(FieldItem, FieldName(f), f.declaration, f.docs)
  }

  function EventBlock(e: EventInfo): string
  {
    Item(EventItem, EventName(e), e.declaration, e.docs)
  }

  /** The line `GetTypeInfo(type, sb, separator)` appends. */
  function TypeLine(separator: string, t: TypeDesc): string
  {
    Line(separator + " \"" + TypeTitle(t) + "\"")
  }

  function ParentEntry(p: TypeDesc): string
  {
    TypeLine(ParentSeparator, p)
  }

  /** A section: nothing for an empty list, else its header line and entries. */
  function Section(items: nat, head: string, entries: string): (r: string)
    ensures items == 0 ==> r == ""
    ensures items > 0 ==> r == Line(head) + entries
  {
    if items == 0 then "" else Line(head) + entries
  }

  function ConstructorsSection(cs: seq<ConstructorInfo>): string
  {
    Section(|cs|, ConstructorsHead, ConcatMap(cs, ConstructorBlock))
  }

  function MethodsSection(ms: seq<MethodInfo>): string
  {
    Section(|ms|, MethodsHead, ConcatMap(ms, MethodBlock))
  }

  function PropertiesSection(ps: seq<PropertyInfo>): string
  {
    Section(|ps|, PropertiesHead, ConcatMap(ps, PropertyBlock))
  }

  function FieldsSection(fs: seq<FieldInfo>): string
  {
    Section(|fs|, FieldsHead, ConcatMap(fs, FieldBlock))
  }

  function EventsSection(es: seq<EventInfo>): string
  {
    Section(|es|, EventsHead, ConcatMap(es, EventBlock))
  }

  function InheritedSection(ps: seq<TypeDesc>): string
  {
    Section(|ps|, InheritedHead, ConcatMap(ps, ParentEntry))
  }

  function BasicInfo(ti: TypeInfo): string
  {
    Line(DocumentStart) + Line(TypeInfoHead)
    + TypeLine(TypeNameSeparator, ti.desc)
    + Line("  namespace: \"" + ti.namespace + "\"")
    + Line("  assembly: \"" + ti.assembly + "\"")
    + Line("  syntax: \"" + ti.syntax + "\"")
    + DocLines(ti.docs, Yml, TypeIndent)
  }

  /** `Generate(type)`. */
  function Document(t: Option<TypeInfo>): string
  {
    if !Valid(t) then Fallback(t)
    else
      var ti := t.value;
      BasicInfo(ti) + InheritedSection(ti.parents)
      + ConstructorsSection(VisibleConstructors(ti.constructors)) + FieldsSection(ti.fields)
      + EventsSection(ti.events) + PropertiesSection(ti.properties) + MethodsSection(ti.methods)
  }

  // ----- the assembler -----

  /** One turn of a member loop: the item, name and declaration lines, then
      each annotation with the member indentation. */
  method AppendItem(sb: StringBuilder, item: string, name: string, declaration: string, docs: seq<Annotation>)
    modifies sb
    ensures sb.content == old(sb.content) + Item(item, name, declaration, docs)
  {
    var s0 := sb.content;
    sb.AppendLine(item);
    sb.AppendLine(name);
    sb.AppendLine("    declaration: \"" + declaration + "\"");
    AppendDocs(sb, docs, Yml, MemberIndent);
    Regroup4(s0, Line(item), Line(name), Line("    declaration: \"" + declaration + "\""), DocLines(docs, Yml, MemberIndent));
  }

  /** The loop of `GetConstructorsInfo`. */
  method AppendConstructors(cs: seq<ConstructorInfo>, sb: StringBuilder)
    modifies sb
    ensures sb.content == old(sb.content) + ConcatMap(cs, ConstructorBlock)
  {
    for i := 0 to |cs|
      invariant sb.content == old(sb.content) + ConcatMap(cs[..i], ConstructorBlock)
    {
      var c := cs[i];
      AppendItem(sb, ConstructorItem, ConstructorName(c), c.declaration, c.docs);
      ConcatMapStep(cs, i, ConstructorBlock);
      Regroup(old(sb.content), ConcatMap(cs[..i], ConstructorBlock), ConstructorBlock(c));
    }
    assert cs[..|cs|] == cs;
  }

  /** `GetConstructorsInfo`, given the visible constructors. */
  method GetConstructorsInfo(cs: seq<ConstructorInfo>, sb: StringBuilder)
    modifies sb
    ensures sb.content == old(sb.content) + ConstructorsSection(cs)
  {
    if |cs| > 0 {
      sb.AppendLine(ConstructorsHead);
      AppendConstructors(cs, sb);
      Regroup(old(sb.content), Line(ConstructorsHead), ConcatMap(cs, ConstructorBlock));
    }
  }

  /** The loop of `GetMethodsInfo`. */
  method AppendMethods(ms: seq<MethodInfo>, sb: StringBuilder)
    modifies sb
    ensures sb.content == old(sb.content) + ConcatMap(ms, MethodBlock)
  {
    for i := 0 to |ms|
      invariant sb.content == old(sb.content) + ConcatMap(ms[..i], MethodBlock)
    {
      var m := ms[i];
      AppendItem(sb, MethodItem, MethodName(m), m.declaration, m.docs);
      ConcatMapStep(ms, i, MethodBlock);
      Regroup(old(sb.content), ConcatMap(ms[..i], MethodBlock), MethodBlock(m));
    }
    assert ms[..|ms|] == ms;
  }

  /** `GetMethodsInfo`. */
  method GetMethodsInfo(ms: seq<MethodInfo>, sb: StringBuilder)
    modifies sb
    ensures sb.content == old(sb.content) + MethodsSection(ms)
  {
    if |ms| > 0 {
      sb.AppendLine(MethodsHead);
      AppendMethods(ms, sb);
      Regroup(old(sb.content), Line(MethodsHead), ConcatMap(ms, MethodBlock));
    }
  }

  /** The loop of `GetPropertiesInfo`. */
  method AppendProperties(ps: seq<PropertyInfo>, sb: StringBuilder)
    modifies sb
    ensures sb.content == old(sb.content) + ConcatMap(ps, PropertyBlock)
  {
    for i := 0 to |ps|
      invariant sb.content == old(sb.content) + ConcatMap(ps[..i], PropertyBlock)
    {
      var p := ps[i];
      AppendItem(sb, PropertyItem, PropertyName(p), p.declaration, p.docs);
      ConcatMapStep(ps, i, PropertyBlock);
      Regroup(old(sb.content), ConcatMap(ps[..i], PropertyBlock), PropertyBlock(p));
    }
    assert ps[..|ps|] == ps;
  }

  /** `GetPropertiesInfo`. */
  method GetPropertiesInfo(ps: seq<PropertyInfo>, sb: StringBuilder)
    modifies sb
    ensures sb.content == old(sb.content) + PropertiesSection(ps)
  {
    if |ps| > 0 {
      sb.AppendLine(PropertiesHead);
      AppendProperties(ps, sb);
      Regroup(old(sb.content), Line(PropertiesHead), ConcatMap(ps, PropertyBlock));
    }
  }

  /** The loop of `GetFieldsInfo`. */
  method AppendFields(fs: seq<FieldInfo>, sb: StringBuilder)
    modifies sb
    ensures sb.content == old(sb.content) + ConcatMap(fs, FieldBlock)
  {
    for i := 0 to |fs|
      invariant sb.content == old(sb.content) + ConcatMap(fs[..i], FieldBlock)
    {
      var f := fs[i];
      AppendItem(sb, FieldItem, FieldName(f), f.declaration, f.docs);
      ConcatMapStep(fs, i, FieldBlock);
      Regroup(old(sb.content), ConcatMap(fs[..i], FieldBlock), FieldBlock(f));
    }
    assert fs[..|fs|] == fs;
  }

  /** `GetFieldsInfo`. */
  method GetFieldsInfo(fs: seq<FieldInfo>, sb: StringBuilder)
    modifies sb
    ensures sb.content == old(sb.content) + FieldsSection(fs)
  {
    if |fs| > 0 {
      sb.AppendLine(FieldsHead);
      AppendFields(fs, sb);
      Regroup(old(sb.content), Line(FieldsHead), ConcatMap(fs, FieldBlock));
    }
  }

  /** The loop of `GetEventsInfo`. */
  method AppendEvents(es: seq<EventInfo>, sb: StringBuilder)
    modifies sb
    ensures sb.content == old(sb.content) + ConcatMap(es, EventBlock)
  {
    for i := 0 to |es|
      invariant sb.content == old(sb.content) + ConcatMap(es[..i], EventBlock)
    {
      var e := es[i];
      AppendItem(sb, EventItem, EventName(e), e.declaration, e.docs);
      ConcatMapStep(es, i, EventBlock);
      Regroup(old(sb.content), ConcatMap(es[..i], EventBlock), EventBlock(e));
    }
    assert es[..|es|] == es;
  }

  /** `GetEventsInfo`. */
  method GetEventsInfo(es: seq<EventInfo>, sb: StringBuilder)
    modifies sb
    ensures sb.content == old(sb.content) + EventsSection(es)
  {
    if |es| > 0 {
      sb.AppendLine(EventsHead);
      AppendEvents(es, sb);
      Regroup(old(sb.content), Line(EventsHead), ConcatMap(es, EventBlock));
    }
  }

  /** `GetTypeInfo(type, sb, separator)`. */
  method GetTypeInfo(t: TypeDesc, sb: StringBuilder, separator: string)
    modifies sb
    ensures sb.content == old(sb.content) + TypeLine(separator, t)
  {
    if t.Generic? {
      var name := StripArity(t.name);
      var parmText := Join(",", TypeNames(t.args));
      var title := name + "<" + parmText + ">";
      sb.AppendLine(separator + " \"" + title + "\"");
    } else {
      sb.AppendLine(separator + " \"" + t.name + "\"");
    }
  }

  /** `GetInheritedInfo`. */
  method GetInheritedInfo(ps: seq<TypeDesc>, sb: StringBuilder)
    modifies sb
    ensures sb.content == old(sb.content) + InheritedSection(ps)
  {
    if |ps| > 0 {
      ghost var s0 := sb.content;
      sb.AppendLine(InheritedHead);
      AppendParents(ps, sb);
      Regroup(s0, Line(InheritedHead), ConcatMap(ps, ParentEntry));
    }
  }

  /** The loop of `GetInheritedInfo`: one `GetTypeInfo` line per parent. */
  method AppendParents(ps: seq<TypeDesc>, sb: StringBuilder)
    modifies sb
    ensures sb.content == old(sb.content) + ConcatMap(ps, ParentEntry)
  {
    ghost var s1 := sb.content;
    for i := 0 to |ps|
      invariant sb.content == s1 + ConcatMap(ps[..i], ParentEntry)
    {
      GetTypeInfo(ps[i], sb, ParentSeparator);
      ConcatMapStep(ps, i, ParentEntry);
      Regroup(s1, ConcatMap(ps[..i], ParentEntry), ParentEntry(ps[i]));
    }
    assert ps[..|ps|] == ps;
  }

  /** `GetBasicInfo`. */
  method GetBasicInfo(ti: TypeInfo, sb: StringBuilder)
    modifies sb
    ensures sb.content == old(sb.content) + BasicInfo(ti)
  {
    ghost var s0 := sb.content;
    ghost var head := Line(DocumentStart) + Line(TypeInfoHead);
    ghost var title := TypeLine(TypeNameSeparator, ti.desc);
    ghost var ns := Line("  namespace: \"" + ti.namespace + "\"");
    ghost var asm := Line("  assembly: \"" + ti.assembly + "\"");
    ghost var syn := Line("  syntax: \"" + ti.syntax + "\"");
    sb.AppendLine(DocumentStart);
    sb.AppendLine(TypeInfoHead);
    assert sb.content == s0 + head;
    GetTypeInfo(ti.desc, sb, TypeNameSeparator);
    sb.AppendLine("  namespace: \"" + ti.namespace + "\"");
    sb.AppendLine("  assembly: \"" + ti.assembly + "\"");
    sb.AppendLine("  syntax: \"" + ti.syntax + "\"");
    assert sb.content == s0 + head + title + ns + asm + syn;
    AppendDocs(sb, ti.docs, Yml, TypeIndent);
    Regroup6(s0, head, title, ns, asm, syn, DocLines(ti.docs, Yml, TypeIndent));
  }

  /** `Generate(type)`: the fallback text for an invalid type, else the
      listing with its sections in a fixed order. */
  method Generate(t: Option<TypeInfo>) returns (s: string)
    ensures !Valid(t) ==> s == Fallback(t)
    ensures s == Document(t)
  {
    if !Valid(t) {
      return Fallback(t);
    }
    var ti := t.value;
    var sb := new StringBuilder();
    GetBasicInfo(ti, sb);
    assert sb.content == BasicInfo(ti);
    GetInheritedInfo(ti.parents, sb);
    GetConstructorsInfo(VisibleConstructors(ti.constructors), sb);
    GetFieldsInfo(ti.fields, sb);
    GetEventsInfo(ti.events, sb);
    GetPropertiesInfo(ti.properties, sb);
    GetMethodsInfo(ti.methods, sb);
    s := sb.ToString();
  }

  // ----- properties of the document -----

  /** A valid type's document starts a YAML document with the `type-info:`
      mapping and the type's name. */
  lemma DocumentStartsWithTypeInfo(t: Option<TypeInfo>)
    requires Valid(t)
    ensures StartsWith(Document(t), Line(DocumentStart) + Line(TypeInfoHead) + TypeLine(TypeNameSeparator, t.value.desc))
  {
    var ti := t.value;
    var head := Line(DocumentStart) + Line(TypeInfoHead) + TypeLine(TypeNameSeparator, ti.desc);
    var b1 := head + Line("  namespace: \"" + ti.namespace + "\"");
    var b2 := b1 + Line("  assembly: \"" + ti.assembly + "\"");
    var b3 := b2 + Line("  syntax: \"" + ti.syntax + "\"");
    var x1 := b3 + DocLines(ti.docs, Yml, TypeIndent);
    assert x1 == BasicInfo(ti);
    var x2 := x1 + InheritedSection(ti.parents);
    var x3 := x2 + ConstructorsSection(VisibleConstructors(ti.constructors));
    var x4 := x3 + FieldsSection(ti.fields);
    var x5 := x4 + EventsSection(ti.events);
    var x6 := x5 + PropertiesSection(ti.properties);
    assert Document(t) == x6 + MethodsSection(ti.methods);
    EndsWithConcat(head, Line("  namespace: \"" + ti.namespace + "\""));
    PrefixExtend(head, b1, Line("  assembly: \"" + ti.assembly + "\""));
    PrefixExtend(head, b2, Line("  syntax: \"" + ti.syntax + "\""));
    PrefixExtend(head, b3, DocLines(ti.docs, Yml, TypeIndent));
    PrefixExtend(head, x1, InheritedSection(ti.parents));
    PrefixExtend(head, x2, ConstructorsSection(VisibleConstructors(ti.constructors)));
    PrefixExtend(head, x3, FieldsSection(ti.fields));
    PrefixExtend(head, x4, EventsSection(ti.events));
    PrefixExtend(head, x5, PropertiesSection(ti.properties));
    PrefixExtend(head, x6, MethodsSection(ti.methods));
  }

  /** A constructor that is neither public, protected nor static leaves the
      document unchanged. */
  lemma HiddenConstructorIgnored(ti: TypeInfo, c: ConstructorInfo)
    requires !Visible(c)
    ensures Document(Some(ti.(constructors := ti.constructors + [c]))) == Document(Some(ti))
  {
    VisibleConstructorsSnoc(ti.constructors, c);
  }

  /** Adding an entry to a section's list adds exactly its text at the end
      of the section. */
  lemma SectionSnoc<T>(xs: seq<T>, x: T, f: T -> string, head: string)
    ensures Section(|xs + [x]|, head, ConcatMap(xs + [x], f)) == Line(head) + ConcatMap(xs, f) + f(x)
  {
    ConcatMapSnoc(xs, x, f);
  }

  /** A visible constructor is appended as the last item of the
      `constructors:` list. */
  lemma VisibleConstructorAppended(cs: seq<ConstructorInfo>, c: ConstructorInfo)
    requires Visible(c)
    ensures ConstructorsSection(VisibleConstructors(cs + [c]))
      == Line(ConstructorsHead) + ConcatMap(VisibleConstructors(cs), ConstructorBlock) + ConstructorBlock(c)
  {
    VisibleConstructorsSnoc(cs, c);
    SectionSnoc(VisibleConstructors(cs), c, ConstructorBlock, ConstructorsHead);
  }

  /** Adding a method adds exactly its item at the end of `methods:`. */
  lemma MethodAppended(ms: seq<MethodInfo>, m: MethodInfo)
    ensures MethodsSection(ms + [m]) == Line(MethodsHead) + ConcatMap(ms, MethodBlock) + MethodBlock(m)
  {
    SectionSnoc(ms, m, MethodBlock, MethodsHead);
  }

  /** A section is left out exactly when it has no entries. */
  lemma SectionEmptyIff(items: nat, head: string, entries: string)
    ensures Section(items, head, entries) == "" <==> items == 0
  {
    assert |Line(head)| > 0;
  }

  /** An item's annotations appear in attachment order, each with the
      member indentation. */
  lemma ItemAnnotationsInOrder(item: string, name: string, declaration: string, xs: seq<Annotation>, ys: seq<Annotation>)
    ensures Item(item, name, declaration, xs + ys)
      == Line(item) + Line(name) + Line("    declaration: \"" + declaration + "\"")
         + DocLines(xs, Yml, MemberIndent) + DocLines(ys, Yml, MemberIndent)
  {
    DocLinesAppend(xs, ys, Yml, MemberIndent);
  }
}
