/**
  What the four generators share (`DocGenerator`): the validity test and
  the fallback text for a type that cannot be documented, the constructor
  visibility filter, the choice of one constraint clause for a generic
  parameter, and the loop that appends a member's annotations.
*/
module DocGenerator {
  import opened Wrappers
  import opened Text
  import opened DocTypes
  import opened Attributes
  import opened Descriptors

  /** `Reference_Type`. */
  const ReferenceType: string := "ReferenceType"

  /** `ValueType_Type` and `Default_Constructor` are used by the renderers
      but defined outside the modelled files: some fixed texts. */
  const ValueTypeType: string
  const DefaultConstructor: string

  /** `Valid(type)`: a non-null class, enum, interface or value type. */
  predicate Valid(t: Option<TypeInfo>)
  {
    t.Some? && (t.value.isClass || t.value.isEnum || t.value.isInterface || t.value.isValueType)
  }

  /** `type?.ToString() ?? string.Empty`: what `Generate` returns instead of
      a document. */
  function Fallback(t: Option<TypeInfo>): (r: string)
    ensures t.None? ==> r == ""
    ensures t.Some? ==> r == t.value.text
  {
    match t
    case None => ""
    case Some(ti) => ti.text
  }

  // ----- constructors -----

  /** The filter `c.IsStatic || c.IsPublic || c.IsFamily`. */
  predicate Visible(c: ConstructorInfo)
  {
    c.isStatic || c.isPublic || c.isFamily
  }

  /** The constructors a generator lists: the visible ones, in order. */
  function VisibleConstructors(cs: seq<ConstructorInfo>): (r: seq<ConstructorInfo>)
    ensures |r| <= |cs|
    ensures forall i :: 0 <= i < |r| ==> Visible(r[i]) && r[i] in cs
    ensures forall c :: c in cs && Visible(c) ==> c in r
  {
    Filter(cs, Visible)
  }

  /** Adding a private, non-static, non-protected constructor changes
      nothing that is listed; adding a visible one appends it. */
  lemma VisibleConstructorsSnoc(cs: seq<ConstructorInfo>, c: ConstructorInfo)
    ensures !Visible(c) ==> VisibleConstructors(cs + [c]) == VisibleConstructors(cs)
    ensures Visible(c) ==> VisibleConstructors(cs + [c]) == VisibleConstructors(cs) + [c]
  {
    assert (cs + [c])[..|cs|] == cs;
    if !Visible(c) {
      assert Filter(cs, Visible) + [] == Filter(cs, Visible);
    }
  }

  // ----- the constraint clause of a generic parameter -----

  /** `typeof(ValueType)`; constraint types are compared by descriptor. */
  const ValueTypeDesc: TypeDesc := Plain("ValueType")

  predicate NotValueType(c: TypeDesc)
  {
    c != ValueTypeDesc
  }

  /** `Select(x => x.Name)`. */
  function Names(ts: seq<TypeDesc>): (r: seq<string>)
    ensures |r| == |ts|
    ensures forall i :: 0 <= i < |ts| ==> r[i] == ts[i].name
  {
    seq(|ts|, i requires 0 <= i < |ts| => ts[i].name)
  }

  /** The named constraints other than `ValueType`, joined with `,`. */
  function ConstraintText(cs: seq<TypeDesc>): string
  {
    Join(",", Names(Filter(cs, NotValueType)))
  }

  /** A `ValueType` constraint contributes nothing to the named constraints. */
  lemma ValueTypeConstraintDropped(cs: seq<TypeDesc>)
    ensures ConstraintText(cs + [ValueTypeDesc]) == ConstraintText(cs)
    ensures ConstraintText([ValueTypeDesc]) == ""
  {
    assert (cs + [ValueTypeDesc])[..|cs|] == cs;
    assert Filter(cs + [ValueTypeDesc], NotValueType) == Filter(cs, NotValueType) + [];
    assert Filter(cs, NotValueType) + [] == Filter(cs, NotValueType);
    assert [ValueTypeDesc][..0] == [];
  }

  /** The one clause a generic parameter is rendered with. */
  datatype Clause =
    | Named(text: string)   // its named constraints
    | RefCtor               // `class, new()`
    | Ref                   // `class`
    | Value                 // `struct`
    | Ctor                  // `new()`
    | Bare                  // unconstrained

  /** When a clause could describe a parameter with these named constraints
      and flags. */
  predicate Applies(c: Clause, text: string, flags: set<Flag>)
  {
    match c
    case Named(x) => x == text && text != ""
    case RefCtor => ReferenceTypeConstraint in flags && DefaultConstructorConstraint in flags
    case Ref => ReferenceTypeConstraint in flags
    case Value => NotNullableValueTypeConstraint in flags
    case Ctor => DefaultConstructorConstraint in flags
    case Bare => true
  }

  /** The fixed priority: a lower rank wins. */
  function Rank(c: Clause): nat
  {
    match c
    case Named(_) => 0
    case RefCtor => 1
    case Ref => 2
    case Value => 3
    case Ctor => 4
    case Bare => 5
  }

  /** The branch ladder of `GetGenericTypeName` for a generic parameter
      (XML, YAML and HTML): the chosen clause applies, and no applicable
      clause has a higher priority, so it is the single best one. */
  function ClauseOf(text: string, flags: set<Flag>): (c: Clause)
    ensures Applies(c, text, flags)
    ensures forall d :: Applies(d, text, flags) ==> Rank(c) <= Rank(d)
    ensures forall d :: Applies(d, text, flags) && Rank(d) == Rank(c) ==> d == c
  {
    if text != "" then Named(text)
    else if ReferenceTypeConstraint in flags then
      (if DefaultConstructorConstraint in flags then RefCtor else Ref)
    else if NotNullableValueTypeConstraint in flags then Value
    else if DefaultConstructorConstraint in flags then Ctor
    else Bare
  }

  /** The Markdown ladder: named constraints, else the reference flag, else
      the bare name. It is the full ladder run on the reference flag alone,
      so the value-type and default-constructor flags are never shown. */
  function MarkdownClauseOf(text: string, flags: set<Flag>): (c: Clause)
    ensures c == ClauseOf(text, flags * {ReferenceTypeConstraint})
    ensures c.Named? || c.Ref? || c.Bare?
  {
    if text != "" then Named(text)
    else if ReferenceTypeConstraint in flags then Ref
    else Bare
  }

  /** The tokens a clause prints after the parameter name. */
  function Tokens(c: Clause): seq<string>
  {
    match c
    case Named(x) => [x]
    case RefCtor => [ReferenceType, DefaultConstructor]
    case Ref => [ReferenceType]
    case Value => [ValueTypeType]
    case Ctor => [DefaultConstructor]
    case Bare => []
  }

  /** A generic parameter as XML, YAML and Markdown print it: the name, then
      `:` and the clause's tokens joined with `,`, or the bare name. */
  function ClauseText(name: string, c: Clause): (r: string)
    ensures c.Bare? ==> r == name
    ensures !c.Bare? ==> r == name + ":" + Join(",", Tokens(c))
  {
    match c
    case Named(x) => name + ":" + x
    case RefCtor => name + ":" + ReferenceType + "," + DefaultConstructor
    case Ref => name + ":" + ReferenceType
    case Value => name + ":" + ValueTypeType
    case Ctor => name + ":" + DefaultConstructor
    case Bare => name
  }

  /** Named constraints other than `ValueType` decide the clause whatever
      the flags say. */
  lemma NamedConstraintsWin(cs: seq<TypeDesc>, f1: set<Flag>, f2: set<Flag>)
    requires ConstraintText(cs) != ""
    ensures ClauseOf(ConstraintText(cs), f1) == ClauseOf(ConstraintText(cs), f2) == Named(ConstraintText(cs))
  {
  }

  // ----- method names -----

  /** A method's name as the XML and HTML headers print it: without its
      arity suffix, and the record clone method `<Clone>$` escaped. */
  function MethodName(name: string): (r: string)
    ensures StripArity(name) == "<Clone>$" ==> r == "&lt;Clone&gt;$"
    ensures StripArity(name) != "<Clone>$" ==> r == StripArity(name)
  {
    var n := StripArity(name);
    if n == "<Clone>$" then "&lt;Clone&gt;$" else n
  }

  // ----- annotations -----

  /** What the annotation loop of a member appends: each annotation
      rendered in the dialect, one `AppendLine` each, in attachment order. */
  function DocLines(ds: seq<Annotation>, doc: DocType, indent: string): string
    decreases |ds|
  {
    if |ds| == 0 then "" else DocLines(ds[..|ds| - 1], doc, indent) + Line(Render(ds[|ds| - 1], doc, indent))
  }

  lemma DocLinesSnoc(ds: seq<Annotation>, d: Annotation, doc: DocType, indent: string)
    ensures DocLines(ds + [d], doc, indent) == DocLines(ds, doc, indent) + Line(Render(d, doc, indent))
  {
    assert (ds + [d])[..|ds|] == ds;
  }

  lemma DocLinesStep(ds: seq<Annotation>, i: nat, doc: DocType, indent: string)
    requires i < |ds|
    ensures DocLines(ds[..i + 1], doc, indent) == DocLines(ds[..i], doc, indent) + Line(Render(ds[i], doc, indent))
  {
    assert ds[..i + 1] == ds[..i] + [ds[i]];
    DocLinesSnoc(ds[..i], ds[i], doc, indent);
  }

  /** Two lists of annotations render one after the other: attachment order
      is output order. */
  lemma {:induction false} DocLinesAppend(xs: seq<Annotation>, ys: seq<Annotation>, doc: DocType, indent: string)
    ensures DocLines(xs + ys, doc, indent) == DocLines(xs, doc, indent) + DocLines(ys, doc, indent)
    decreases |ys|
  {
    if |ys| == 0 {
      assert xs + ys == xs;
    } else {
      var init, last := ys[..|ys| - 1], ys[|ys| - 1];
      assert xs + ys == (xs + init) + [last];
      assert ys == init + [last];
      DocLinesAppend(xs, init, doc, indent);
      DocLinesSnoc(xs + init, last, doc, indent);
      DocLinesSnoc(init, last, doc, indent);
      Regroup(DocLines(xs, doc, indent), DocLines(init, doc, indent), Line(Render(last, doc, indent)));
    }
  }

  /** `foreach (var doc in GetDocsGenAttributes(m)) sb.AppendLine(doc.ToString(DocumentType))`,
      with the key-value dialect's indentation handed over as an argument. */
  method AppendDocs(sb: StringBuilder, ds: seq<Annotation>, doc: DocType, indent: string)
    modifies sb
    ensures sb.content == old(sb.content) + DocLines(ds, doc, indent)
  {
    for i := 0 to |ds|
      invariant sb.content == old(sb.content) + DocLines(ds[..i], doc, indent)
    {
      sb.AppendLine(Render(ds[i], doc, indent));
      DocLinesStep(ds, i, doc, indent);
      Regroup(old(sb.content), DocLines(ds[..i], doc, indent), Line(Render(ds[i], doc, indent)));
    }
    assert ds[..|ds|] == ds;
  }
}
