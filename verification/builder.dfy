/**
  `DocGeneratorBuilder`: a registry from document types to generator
  factories. `Register<T>(docType)` stores (or replaces) the factory for a
  key and returns the builder itself; `Build(docType)` runs the stored
  factory, or fails with `Invalid DocType` for a key nobody registered.
  A factory `() => new T()` is represented by the generator class `T` it
  instantiates.
*/
module Builder {
  import opened Wrappers
  import opened DocTypes
  import opened Descriptors
  import opened DocGenerator
  import XmlGenerator
  import YamlGenerator
  import HtmlGenerator
  import MarkdownGenerator

  /** The four concrete generator classes. */
  datatype GeneratorKind = XmlGen | YamlGen | HtmlGen | MarkdownGen

  /** Each generator's `DocumentType`. */
  function DocumentType(k: GeneratorKind): (d: DocType)
    ensures d != Other
  {
    match k
    case XmlGen => Xml
    case YamlGen => Yml
    case HtmlGen => Html
    case MarkdownGen => Md
  }

  /** What `Generate(type)` of a generator of this kind returns. */
  function Output(k: GeneratorKind, t: Option<TypeInfo>): string
  {
    match k
    case XmlGen => XmlGenerator.Document(t)
    case YamlGen => YamlGenerator.Document(t)
    case HtmlGen => HtmlGenerator.Document(t)
    case MarkdownGen => MarkdownGenerator.Document(t)
  }

  /** A generator instance, as a factory returns it. */
  class Generator {
    const kind: GeneratorKind

    constructor (k: GeneratorKind)
      ensures kind == k
    {
      kind := k;
    }

    /** `Generate(type)`, dispatched to the concrete generator. */
    method Generate(t: Option<TypeInfo>) returns (s: string)
      ensures s == Output(kind, t)
    {
      match kind
      case XmlGen => s := XmlGenerator.Generate(t);
      case YamlGen => s := YamlGenerator.Generate(t);
      case HtmlGen => s := HtmlGenerator.Generate(t);
      case MarkdownGen => s := MarkdownGenerator.Generate(t);
    }
  }

  /** The error `Build` raises for an unregistered key. */
  const InvalidDocType: string := "Invalid DocType"

  /** `TryGetValue` on the registry, with the exception as a failure. */
  function Lookup(registry: map<DocType, GeneratorKind>, d: DocType): (r: Result<GeneratorKind, string>)
    ensures r.Success? <==> d in registry
    ensures r.Success? ==> r.value == registry[d]
    ensures r.Failure? ==> r.error == InvalidDocType
  {
    if d in registry then Success(registry[d]) else Failure(InvalidDocType)
  }

  class DocGeneratorBuilder {
    /** `docGenerators`. */
    var docGenerators: map<DocType, GeneratorKind>

    constructor ()
      ensures docGenerators == map[]
    {
      docGenerators := map[];
    }

    /** `Register<T>(docType)`: the key now maps to `T`, every other key is
        unchanged, and the builder itself is returned for chaining. */
    method Register(docType: DocType, kind: GeneratorKind) returns (self: DocGeneratorBuilder)
      modifies this
      ensures docGenerators == old(docGenerators)[docType := kind]
      ensures self == this
    {
      docGenerators := docGenerators[docType := kind];
      self := this;
    }

    /** `Build(docType)`: a new generator of the registered kind, or the
        `Invalid DocType` failure; the registry is not changed. */
    method Build(docType: DocType) returns (r: Result<Generator, string>)
      ensures r.Success? <==> docType in docGenerators
      ensures r.Success? ==> fresh(r.value) && Success(r.value.kind) == Lookup(docGenerators, docType)
      ensures r.Failure? ==> r == Failure(InvalidDocType)
    {
      if docType in docGenerators {
        var g := new Generator(docGenerators[docType]);
        r := Success(g);
      } else {
        r := Failure(InvalidDocType);
      }
    }
  }

  // ----- properties of the registry -----

  /** `Build(d)` after `Register<T>(d)` finds `T`, whatever was registered
      before: a later registration replaces an earlier one. */
  lemma RegisterThenLookup(registry: map<DocType, GeneratorKind>, d: DocType, k: GeneratorKind)
    ensures Lookup(registry[d := k], d) == Success(k)
  {
  }

  /** Registering one key leaves the lookup of every other key as it was. */
  lemma RegisterKeepsOthers(registry: map<DocType, GeneratorKind>, d: DocType, k: GeneratorKind, e: DocType)
    requires e != d
    ensures Lookup(registry[d := k], e) == Lookup(registry, e)
  {
  }

  /** Of two registrations of the same key, the last one wins. */
  lemma LastRegistrationWins(registry: map<DocType, GeneratorKind>, d: DocType, k1: GeneratorKind, k2: GeneratorKind)
    ensures registry[d := k1][d := k2] == registry[d := k2]
  {
  }

  /** The usual set-up: each dialect registered under its own
      `DocumentType`. Every one of them builds, and `Other` does not. */
  function Standard(): (m: map<DocType, GeneratorKind>)
    ensures forall k: GeneratorKind :: Lookup(m, DocumentType(k)) == Success(k)
    ensures Lookup(m, Other).Failure?
  {
    map[Xml := XmlGen, Yml := YamlGen, Html := HtmlGen, Md := MarkdownGen]
  }

  /** Every generator answers an invalid type with its fallback text. */
  lemma InvalidTypeFallsBack(k: GeneratorKind, t: Option<TypeInfo>)
    requires !Valid(t)
    ensures Output(k, t) == Fallback(t)
    ensures t.None? ==> Output(k, t) == ""
  {
  }

  /** Chaining `Register` calls and building each registered key. */
  method StandardBuilder() returns (b: DocGeneratorBuilder)
    ensures fresh(b)
    ensures b.docGenerators == Standard()
  {
    b := new DocGeneratorBuilder();
    var b1 := b.Register(Xml, XmlGen);
    var b2 := b1.Register(Yml, YamlGen);
    var b3 := b2.Register(Html, HtmlGen);
    var b4 := b3.Register(Md, MarkdownGen);
    assert b4 == b;
  }
}
