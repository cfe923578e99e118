/**
  `MarkdownGenerator`: a type's documentation as Markdown. The type is a
  `#` heading, each member a `###` heading in a `##` section, and every
  annotation is followed by a blank line. Its type names are simpler than
  the other dialects': named constraints are not filtered, only the
  reference-type flag is shown, and arrays have no case of their own.
  There is no constructors section, and events come before fields.
*/
module MarkdownGenerator {
  import opened Wrappers
  import opened Text
  import opened DocTypes
  import opened Attributes
  import opened Descriptors
  import opened DocGenerator

  // ----- type names -----

  /** The constraint names of a generic parameter joined with `,`, without
      leaving out `ValueType`. */
  function AllConstraintText(cs: seq<TypeDesc>): string
  {
    Join(",", Names(cs))
  }

  /** `GetGenericTypeName`. */
  function TypeName(t: TypeDesc): string
    decreases t
  {
    match t
    case GenericParam(n, cs, flags) => ClauseText(n, MarkdownClauseOf(AllConstraintText(cs), flags))
    case Generic(n, args) => StripArity(n) + "<" + Join(",", TypeNames(args)) + ">"
    case _ => t.name
  }

  /** `Select(p => GetGenericTypeName(p))`: one name per argument, in order. */
  function TypeNames(ts: seq<TypeDesc>): (r: seq<string>)
    ensures |r| == |ts|
    ensures forall i :: 0 <= i < |ts| ==> r[i] == TypeName(ts[i])
    decreases ts
  {
    seq(|ts|, i requires 0 <= i < |ts| => TypeName(ts[i]))
  }

  /** `Select(p => p.Name.Split('`')[0])`: the argument names without arity
      suffix, in order. */
  function StrippedNames(ts: seq<TypeDesc>): (r: seq<string>)
    ensures |r| == |ts|
    ensures forall i :: 0 <= i < |ts| ==> r[i] == StripArity(ts[i].name)
  {
    seq(|ts|, i requires 0 <= i < |ts| => StripArity(ts[i].name))
  }

  /** A generic parameter with its named constraints, or `ReferenceType`
      when it has none. */
  function DefaultedClause(name: string, cs: seq<TypeDesc>): (r: string)
    ensures AllConstraintText(cs) == "" ==> r == name + ":" + ReferenceType
    ensures AllConstraintText(cs) != "" ==> r == name + ":" + AllConstraintText(cs)
  {
    name + ":" + (if AllConstraintText(cs) == "" then ReferenceType else AllConstraintText(cs))
  }

  /** The type-argument lambda of a generic method. */
  function MethodTypeArg(p: TypeDesc): string
  {
    if p.GenericParam? then DefaultedClause(StripArity(p.name), p.constraints) else StripArity(p.name)
  }

  function MethodTypeArgs(ts: seq<TypeDesc>): (r: seq<string>)
    ensures |r| == |ts|
    ensures forall i :: 0 <= i < |ts| ==> r[i] == MethodTypeArg(ts[i])
  {
    seq(|ts|, i requires 0 <= i < |ts| => MethodTypeArg(ts[i]))
  }

  /** The type-argument lambda of a generic field type; the names are not
      stripped. */
  function FieldTypeArg(x: TypeDesc): string
  {
    if x.GenericParam? then DefaultedClause(x.name, x.constraints) else x.name
  }

  function FieldTypeArgs(ts: seq<TypeDesc>): (r: seq<string>)
    ensures |r| == |ts|
    ensures forall i :: 0 <= i < |ts| ==> r[i] == FieldTypeArg(ts[i])
  {
    seq(|ts|, i requires 0 <= i < |ts| => FieldTypeArg(ts[i]))
  }

  /** The parameter lambda of the methods section: the type in backticks,
      then the parameter's name as reflected. */
  function ParamName(p: ParamInfo): (r: string)
    ensures EndsWith(r, "` " + p.name)
  {
    var ty :=
      match p.parameterType
      case Generic(n, args) => "`" + StripArity(n) + "<" + Join(",", StrippedNames(args)) + ">"
      case _ => "`" + p.parameterType.name;
    EndsWithAppend(ty, "` ", p.name);
    ty + "` " + p.name
  }

  function ParamNames(ps: seq<ParamInfo>): (r: seq<string>)
    ensures |r| == |ps|
    ensures forall i :: 0 <= i < |ps| ==> r[i] == ParamName(ps[i])
  {
    seq(|ps|, i requires 0 <= i < |ps| => ParamName(ps[i]))
  }

  // ----- member headings -----

  function MethodHeading(m: MethodInfo): string
  {
    var parameters := Join(", ", ParamNames(m.parameters));
    if |m.typeArguments| > 0 then
      var parmText := Join(",", MethodTypeArgs(m.typeArguments));
      match m.returnType
      case Generic(n, args) =>
        "### " + StripArity(m.name) + "`<" + parmText + ">`(" + parameters + "): `" + StripArity(n) + "<" + Join(",", StrippedNames(args)) + ">`"
      case _ =>
        "### " + StripArity(m.name) + "`<" + parmText + ">`(" + parameters + "): `" + m.returnType.name + "`"
    else
      "### " + m.name + "(" + parameters + "): `" + StripArity(m.returnType.name) + "`"
  }

  function PropertyHeading(p: PropertyInfo): string
  {
    match p.propertyType
    case Generic(n, args) => "### " + p.name + ": `" + StripArity(n) + "<" + Join(", ", StrippedNames(args)) + ">`"
    case _ => "### " + p.name + " : `" + p.propertyType.name + "`"
  }

  function FieldHeading(f: FieldInfo): string
  {
    match f.fieldType
    case Generic(n, args) => "### " + StripArity(f.name) + ": `" + StripArity(n) + "<" + Join(", ", FieldTypeArgs(args)) + ">`"
    case _ => "### " + f.name + ": `" + f.fieldType.name + "`"
  }

  function EventHeading(e: EventInfo): string
  {
    match e.handlerType
    case Generic(n, args) => "### " + e.name + ": `" + StripArity(n) + "<" + Join(", ", StrippedNames(args)) + ">`"
    case _ => "### " + e.name + ": `" + e.handlerTypeText + "`"
  }

  // ----- the document -----

  const MethodsHead: string := "## Methods"
  const PropertiesHead: string := "## Properties"
  const FieldsHead: string := "## Fields"
  const EventsHead: string := "## Events"
  const InheritedHead: string := "## Inherited"
  const ParentSeparator: string := "-"
  const TitleSeparator: string := "#"

  /** What one turn of an annotation loop appends: the rendered annotation,
      then a blank line. */
  function DocEntry(d: Annotation): string
  {
    Line(Render(d, Md, "")) + Line("")
  }

  /** A member: its heading, then each annotation followed by a blank line. */
  function Entry(heading: string, docs: seq<Annotation>): string
  {
    Line(heading) + ConcatMap(docs, DocEntry)
  }

  function MethodEntry(m: MethodInfo): string
  {
    Entry(MethodHeading(m), m.docs)
  }

  function PropertyEntry(p: PropertyInfo): string
  {
    Entry(PropertyHeading(p), p.docs)
  }

  function FieldEntry(f: FieldInfo): string
  {
    Entry(FieldHeading(f), f.docs)
  }

  function EventEntry(e: EventInfo): string
  {
    Entry(EventHeading(e), e.docs)
  }

  /** A member section: nothing for an empty list, else the `##` heading,
      a blank line, the entries and a closing blank line. */
  function Section(items: nat, head: string, entries: string): (r: string)
    ensures items == 0 ==> r == ""
    ensures items > 0 ==> r == Line(head) + Line("") + entries + Line("")
  {
    if items == 0 then "" else Line(head) + Line("") + entries + Line("")
  }

  function MethodsSection(ms: seq<MethodInfo>): string
  {
    Section(|ms|, MethodsHead, ConcatMap(ms, MethodEntry))
  }

  function PropertiesSection(ps: seq<PropertyInfo>): string
  {
    Section(|ps|, PropertiesHead, ConcatMap(ps, PropertyEntry))
  }

  function FieldsSection(fs: seq<FieldInfo>): string
  {
    Section(|fs|, FieldsHead, ConcatMap(fs, FieldEntry))
  }

  function EventsSection(es: seq<EventInfo>): string
  {
    Section(|es|, EventsHead, ConcatMap(es, EventEntry))
  }

  /** The name `GetTypeInfo` writes in backticks after its separator. */
  function TypeTitle(t: TypeDesc): (r: string)
    ensures t.Generic? ==> r == TypeName(t)
    ensures !t.Generic? ==> r == t.name
  {
    match t
    case Generic(n, args) => StripArity(n) + "<" + Join(",", TypeNames(args)) + ">"
    case _ => t.name
  }

  /** The line `GetTypeInfo(type, sb, separator)` appends. */
  function TypeLine(separator: string, t: TypeDesc): string
  {
    Line(separator + " `" + TypeTitle(t) + "`")
  }

  function ParentLine(p: TypeDesc): string
  {
    TypeLine(ParentSeparator, p)
  }

  /** The inherited list: nothing without parents, else the heading, a
      blank line and one `-` line per parent, with no closing blank line. */
  function InheritedSection(ps: seq<TypeDesc>): (r: string)
    ensures |ps| == 0 ==> r == ""
    ensures |ps| > 0 ==> r == Line(InheritedHead) + Line("") + ConcatMap(ps, ParentLine)
  {
    if |ps| == 0 then "" else Line(InheritedHead) + Line("") + ConcatMap(ps, ParentLine)
  }

  function BasicInfo(ti: TypeInfo): string
  {
    TypeLine(TitleSeparator, ti.desc) + Line("") + Line("**Namespace:** `" + ti.namespace + "`")
    + ConcatMap(ti.docs, DocEntry)
  }

  /** `Generate(type)`. */
  function Document(t: Option<TypeInfo>): string
  {
    if !Valid(t) then Fallback(t)
    else
      var ti := t.value;
      BasicInfo(ti) + InheritedSection(ti.parents) + EventsSection(ti.events)
      + FieldsSection(ti.fields) + PropertiesSection(ti.properties) + MethodsSection(ti.methods)
  }

  // ----- the assembler -----

  /** The annotation loop of every `Get*Info`: each rendered annotation,
      then a blank line. */
  method AppendDocEntries(sb: StringBuilder, ds: seq<Annotation>)
    modifies sb
    ensures sb.content == old(sb.content) + ConcatMap(ds, DocEntry)
  {
    for i := 0 to |ds|
      invariant sb.content == old(sb.content) + ConcatMap(ds[..i], DocEntry)
    {
      sb.AppendLine(Render(ds[i], Md, ""));
      sb.AppendLine("");
      Regroup(old(sb.content) + ConcatMap(ds[..i], DocEntry), Line(Render(ds[i], Md, "")), Line(""));
      ConcatMapStep(ds, i, DocEntry);
      Regroup(old(sb.content), ConcatMap(ds[..i], DocEntry), DocEntry(ds[i]));
    }
    assert ds[..|ds|] == ds;
  }

  /** One turn of a member loop. */
  method AppendEntry(sb: StringBuilder, heading: string, docs: seq<Annotation>)
    modifies sb
    ensures sb.content == old(sb.content) + Entry(heading, docs)
  {
    sb.AppendLine(heading);
    AppendDocEntries(sb, docs);
    Regroup(old(sb.content), Line(heading), ConcatMap(docs, DocEntry));
  }

  method AppendSectionHead(sb: StringBuilder, head: string)
    modifies sb
    ensures sb.content == old(sb.content) + Line(head) + Line("")
  {
    sb.AppendLine(head);
    sb.AppendLine("");
  }

  /** The loop of `GetMethodsInfo`. */
  method AppendMethods(ms: seq<MethodInfo>, sb: StringBuilder)
    modifies sb
    ensures sb.content == old(sb.content) + ConcatMap(ms, MethodEntry)
  {
    for i := 0 to |ms|
      invariant sb.content == old(sb.content) + ConcatMap(ms[..i], MethodEntry)
    {
      var m := ms[i];
      AppendEntry(sb, MethodHeading(m), m.docs);
      ConcatMapStep(ms, i, MethodEntry);
      Regroup(old(sb.content), ConcatMap(ms[..i], MethodEntry), MethodEntry(m));
    }
    assert ms[..|ms|] == ms;
  }

  /** `GetMethodsInfo`. */
  method GetMethodsInfo(ms: seq<MethodInfo>, sb: StringBuilder)
    modifies sb
    ensures sb.content == old(sb.content) + MethodsSection(ms)
  {
    if |ms| > 0 {
      AppendSectionHead(sb, MethodsHead);
      AppendMethods(ms, sb);
      sb.AppendLine("");
      Regroup4(old(sb.content), Line(MethodsHead), Line(""), ConcatMap(ms, MethodEntry), Line(""));
    }
  }

  /** The loop of `GetPropertiesInfo`. */
  method AppendProperties(ps: seq<PropertyInfo>, sb: StringBuilder)
    modifies sb
    ensures sb.content == old(sb.content) + ConcatMap(ps, PropertyEntry)
  {
    for i := 0 to |ps|
      invariant sb.content == old(sb.content) + ConcatMap(ps[..i], PropertyEntry)
    {
      var p := ps[i];
      AppendEntry(sb, PropertyHeading(p), p.docs);
      ConcatMapStep(ps, i, PropertyEntry);
      Regroup(old(sb.content), ConcatMap(ps[..i], PropertyEntry), PropertyEntry(p));
    }
    assert ps[..|ps|] == ps;
  }

  /** `GetPropertiesInfo`. */
  method GetPropertiesInfo(ps: seq<PropertyInfo>, sb: StringBuilder)
    modifies sb
    ensures sb.content == old(sb.content) + PropertiesSection(ps)
  {
    if |ps| > 0 {
      AppendSectionHead(sb, PropertiesHead);
      AppendProperties(ps, sb);
      sb.AppendLine("");
      Regroup4(old(sb.content), Line(PropertiesHead), Line(""), ConcatMap(ps, PropertyEntry), Line(""));
    }
  }

  /** The loop of `GetFieldsInfo`. */
  method AppendFields(fs: seq<FieldInfo>, sb: StringBuilder)
    modifies sb
    ensures sb.content == old(sb.content) + ConcatMap(fs, FieldEntry)
  {
    for i := 0 to |fs|
      invariant sb.content == old(sb.content) + ConcatMap(fs[..i], FieldEntry)
    {
      var f := fs[i];
      AppendEntry(sb, FieldHeading(f), f.docs);
      ConcatMapStep(fs, i, FieldEntry);
      Regroup(old(sb.content), ConcatMap(fs[..i], FieldEntry), FieldEntry(f));
    }
    assert fs[..|fs|] == fs;
  }

  /** `GetFieldsInfo`. */
  method GetFieldsInfo(fs: seq<FieldInfo>, sb: StringBuilder)
    modifies sb
    ensures sb.content == old(sb.content) + FieldsSection(fs)
  {
    if |fs| > 0 {
      AppendSectionHead(sb, FieldsHead);
      AppendFields(fs, sb);
      sb.AppendLine("");
      Regroup4(old(sb.content), Line(FieldsHead), Line(""), ConcatMap(fs, FieldEntry), Line(""));
    }
  }

  /** The loop of `GetEventsInfo`. */
  method AppendEvents(es: seq<EventInfo>, sb: StringBuilder)
    modifies sb
    ensures sb.content == old(sb.content) + ConcatMap(es, EventEntry)
  {
    for i := 0 to |es|
      invariant sb.content == old(sb.content) + ConcatMap(es[..i], EventEntry)
    {
      var e := es[i];
      AppendEntry(sb, EventHeading(e), e.docs);
      ConcatMapStep(es, i, EventEntry);
      Regroup(old(sb.content), ConcatMap(es[..i], EventEntry), EventEntry(e));
    }
    assert es[..|es|] == es;
  }

  /** `GetEventsInfo`. */
  method GetEventsInfo(es: seq<EventInfo>, sb: StringBuilder)
    modifies sb
    ensures sb.content == old(sb.content) + EventsSection(es)
  {
    if |es| > 0 {
      AppendSectionHead(sb, EventsHead);
      AppendEvents(es, sb);
      sb.AppendLine("");
      Regroup4(old(sb.content), Line(EventsHead), Line(""), ConcatMap(es, EventEntry), Line(""));
    }
  }

  /** `GetTypeInfo(type, sb, separator)`. */
  method GetTypeInfo(t: TypeDesc, sb: StringBuilder, separator: string)
    modifies sb
    ensures sb.content == old(sb.content) + TypeLine(separator, t)
  {
    if t.Generic? {
      var name := StripArity(t.name);
      var parmText := Join(",", TypeNames(t.args));
      var title := name + "<" + parmText + ">";
      sb.AppendLine(separator + " `" + title + "`");
    } else {
      sb.AppendLine(separator + " `" + t.name + "`");
    }
  }

  /** The loop of `GetInheritedInfo`. */
  method AppendParents(ps: seq<TypeDesc>, sb: StringBuilder)
    modifies sb
    ensures sb.content == old(sb.content) + ConcatMap(ps, ParentLine)
  {
    for i := 0 to |ps|
      invariant sb.content == old(sb.content) + ConcatMap(ps[..i], ParentLine)
    {
      GetTypeInfo(ps[i], sb, ParentSeparator);
      ConcatMapStep(ps, i, ParentLine);
      Regroup(old(sb.content), ConcatMap(ps[..i], ParentLine), ParentLine(ps[i]));
    }
    assert ps[..|ps|] == ps;
  }

  /** `GetInheritedInfo`. */
  method GetInheritedInfo(ps: seq<TypeDesc>, sb: StringBuilder)
    modifies sb
    ensures sb.content == old(sb.content) + InheritedSection(ps)
  {
    if |ps| > 0 {
      AppendSectionHead(sb, InheritedHead);
      AppendParents(ps, sb);
      Regroup3(old(sb.content), Line(InheritedHead), Line(""), ConcatMap(ps, ParentLine));
    }
  }

  /** `GetBasicInfo`. */
  method GetBasicInfo(ti: TypeInfo, sb: StringBuilder)
    modifies sb
    ensures sb.content == old(sb.content) + BasicInfo(ti)
  {
    GetTypeInfo(ti.desc, sb, TitleSeparator);
    sb.AppendLine("");
    sb.AppendLine("**Namespace:** `" + ti.namespace + "`");
    AppendDocEntries(sb, ti.docs);
    Regroup4(old(sb.content), TypeLine(TitleSeparator, ti.desc), Line(""),
      Line("**Namespace:** `" + ti.namespace + "`"), ConcatMap(ti.docs, DocEntry));
  }

  /** `Generate(type)`: the fallback text for an invalid type, else the
      Markdown page with its sections in a fixed order. */
  method Generate(t: Option<TypeInfo>) returns (s: string)
    ensures !Valid(t) ==> s == Fallback(t)
    ensures s == Document(t)
  {
    if !Valid(t) {
      return Fallback(t);
    }
    var ti := t.value;
    var sb := new StringBuilder();
    GetBasicInfo(ti, sb);
    assert sb.content == BasicInfo(ti);
    GetInheritedInfo(ti.parents, sb);
    GetEventsInfo(ti.events, sb);
    GetFieldsInfo(ti.fields, sb);
    GetPropertiesInfo(ti.properties, sb);
    GetMethodsInfo(ti.methods, sb);
    s := sb.ToString();
  }

  // ----- properties of the document -----

  /** Constructors never appear in the Markdown page. */
  lemma ConstructorsNotListed(ti: TypeInfo, cs: seq<ConstructorInfo>)
    ensures Document(Some(ti.(constructors := cs))) == Document(Some(ti))
  {
    assert BasicInfo(ti.(constructors := cs)) == BasicInfo(ti);
  }

  /** The page starts with the type's `#` heading and a blank line. */
  lemma DocumentStartsWithTitle(t: Option<TypeInfo>)
    requires Valid(t)
    ensures StartsWith(Document(t), TypeLine(TitleSeparator, t.value.desc) + Line(""))
  {
    var ti := t.value;
    var head := TypeLine(TitleSeparator, ti.desc) + Line("");
    var b1 := head + Line("**Namespace:** `" + ti.namespace + "`");
    var x1 := b1 + ConcatMap(ti.docs, DocEntry);
    assert x1 == BasicInfo(ti);
    var x2 := x1 + InheritedSection(ti.parents);
    var x3 := x2 + EventsSection(ti.events);
    var x4 := x3 + FieldsSection(ti.fields);
    var x5 := x4 + PropertiesSection(ti.properties);
    assert Document(t) == x5 + MethodsSection(ti.methods);
    EndsWithConcat(head, Line("**Namespace:** `" + ti.namespace + "`"));
    PrefixExtend(head, b1, ConcatMap(ti.docs, DocEntry));
    PrefixExtend(head, x1, InheritedSection(ti.parents));
    PrefixExtend(head, x2, EventsSection(ti.events));
    PrefixExtend(head, x3, FieldsSection(ti.fields));
    PrefixExtend(head, x4, PropertiesSection(ti.properties));
    PrefixExtend(head, x5, MethodsSection(ti.methods));
  }

  /** A non-empty member section opens with its heading and a blank line
      and closes with a blank line; an empty one is left out. */
  lemma SectionShape(items: nat, head: string, entries: string)
    ensures Section(items, head, entries) == "" <==> items == 0
    ensures items > 0 ==> StartsWith(Section(items, head, entries), Line(head) + Line(""))
    ensures items > 0 ==> EndsWith(Section(items, head, entries), Line(""))
  {
    if items > 0 {
      var x := Line(head) + Line("");
      EndsWithConcat(x, entries);
      PrefixExtend(x, x + entries, Line(""));
      EndsWithConcat(x + entries, Line(""));
    }
  }

  /** The inherited-types section is left out exactly when there are no
      parents; a present one opens with its heading and a blank line and
      then lists one line per parent. */
  lemma InheritedShape(ps: seq<TypeDesc>)
    ensures InheritedSection(ps) == "" <==> |ps| == 0
    ensures |ps| > 0 ==> StartsWith(InheritedSection(ps), Line(InheritedHead) + Line(""))
    ensures |ps| > 0 ==> EndsWith(InheritedSection(ps), ParentLine(ps[|ps| - 1]))
  {
    if |ps| > 0 {
      var n := |ps| - 1;
      assert ps[..n] + [ps[n]] == ps;
      ConcatMapSnoc(ps[..n], ps[n], ParentLine);
      HeadThenLast(Line(InheritedHead) + Line(""), ConcatMap(ps[..n], ParentLine), ParentLine(ps[n]));
    }
  }

  /** Text made of a head, a middle and a last piece starts with the head
      and ends with the last piece. */
  lemma HeadThenLast(x: string, m: string, last: string)
    ensures StartsWith(x + (m + last), x) && EndsWith(x + (m + last), last)
  {
    EndsWithConcat(x, m + last);
    EndsWithAppend(x, m, last);
    assert x + m + last == x + (m + last);
  }

  /** Adding a method adds exactly its entry before the closing blank line. */
  lemma MethodAppended(ms: seq<MethodInfo>, m: MethodInfo)
    ensures MethodsSection(ms + [m])
      == Line(MethodsHead) + Line("") + ConcatMap(ms, MethodEntry) + MethodEntry(m) + Line("")
  {
    SectionSnoc(ms, m, MethodEntry, MethodsHead);
  }

  /** Adding an item to a section's list adds exactly its entry, after the
      others and before the closing blank line. */
  lemma SectionSnoc<T>(xs: seq<T>, x: T, f: T -> string, head: string)
    ensures Section(|xs + [x]|, head, ConcatMap(xs + [x], f))
      == Line(head) + Line("") + ConcatMap(xs, f) + f(x) + Line("")
  {
    ConcatMapSnoc(xs, x, f);
    var top := Line(head) + Line("");
    Regroup(top, ConcatMap(xs, f), f(x));
  }

  /** A member's annotations appear in attachment order, each followed by a
      blank line. */
  lemma EntryAnnotationsInOrder(heading: string, xs: seq<Annotation>, ys: seq<Annotation>)
    ensures Entry(heading, xs + ys) == Line(heading) + ConcatMap(xs, DocEntry) + ConcatMap(ys, DocEntry)
  {
    ConcatMapAppend(xs, ys, DocEntry);
  }

  /** A generic parameter's name shows only its named constraints (not
      filtered) and the reference-type flag: the value-type and
      default-constructor flags never change it. */
  lemma ParameterFlagsIgnored(n: string, cs: seq<TypeDesc>, flags: set<Flag>)
    ensures TypeName(GenericParam(n, cs, flags))
      == TypeName(GenericParam(n, cs, flags * {ReferenceTypeConstraint}))
    ensures ReferenceTypeConstraint in flags && AllConstraintText(cs) == "" ==>
      TypeName(GenericParam(n, cs, flags)) == n + ":" + ReferenceType
    ensures ReferenceTypeConstraint !in flags && AllConstraintText(cs) == "" ==>
      TypeName(GenericParam(n, cs, flags)) == n
  {
    assert flags * {ReferenceTypeConstraint} * {ReferenceTypeConstraint} == flags * {ReferenceTypeConstraint};
  }

  /** A generic method's type argument is written with `ReferenceType` when
      it has no constraint, whatever its flags: even a `struct` parameter. */
  lemma UnconstrainedTypeArgument(n: string, flags: set<Flag>)
    ensures MethodTypeArg(GenericParam(n, [], flags)) == StripArity(n) + ":" + ReferenceType
  {
    assert Names([]) == [];
  }
}
