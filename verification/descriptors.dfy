/**
  What the generators read from a reflected type, as plain values. The
  reflection queries (parent types, visible constructors, public and
  protected members, attached annotations, declaration strings) are not
  modelled: their results are the fields below, in the order reflection
  returns them.
*/
module Descriptors {
  import opened Attributes

  /** The `GenericParameterAttributes` flags that the constraint clause tests. */
  datatype Flag =
    | ReferenceTypeConstraint
    | NotNullableValueTypeConstraint
    | DefaultConstructorConstraint

  /** A `Type` as far as the renderers look at it. `name` is `Type.Name`,
      which keeps the arity suffix of a generic type (`List`1`).
      `GenericParam`: `IsGenericParameter`, with the constraint types in
      declaration order and the attribute flags. `Generic`: `IsGenericType`,
      with its type arguments. `Array`: `IsArray`, with whatever
      `GetGenericArguments` returns for it. `Plain`: anything else. */
  datatype TypeDesc =
    | GenericParam(name: string, constraints: seq<TypeDesc>, flags: set<Flag>)
    | Generic(name: string, args: seq<TypeDesc>)
    | Array(name: string, args: seq<TypeDesc>)
    | Plain(name: string)

  /** A `ParameterInfo`: its name and its type. */
  datatype ParamInfo = ParamInfo(name: string, parameterType: TypeDesc)

  /** A `ConstructorInfo`; `declaration` is what `GetConstructorAsString` returns. */
  datatype ConstructorInfo = ConstructorInfo(
    declaringTypeName: string,
    isStatic: bool, isPublic: bool, isFamily: bool,
    parameters: seq<ParamInfo>,
    declaration: string,
    docs: seq<Annotation>)

  /** A `MethodInfo`. It is a generic method (`IsGenericMethod`) exactly when
      it has type arguments. */
  datatype MethodInfo = MethodInfo(
    name: string,
    returnType: TypeDesc,
    parameters: seq<ParamInfo>,
    typeArguments: seq<TypeDesc>,
    declaration: string,
    docs: seq<Annotation>)

  datatype PropertyInfo = PropertyInfo(name: string, propertyType: TypeDesc, declaration: string, docs: seq<Annotation>)

  datatype FieldInfo = FieldInfo(name: string, fieldType: TypeDesc, declaration: string, docs: seq<Annotation>)

  /** An `EventInfo`; `handlerTypeText` is the handler type's `ToString()`
      (its full name), which the non-generic header prints. */
  datatype EventInfo = EventInfo(
    name: string,
    handlerType: TypeDesc,
    handlerTypeText: string,
    declaration: string,
    docs: seq<Annotation>)

  /** The documented type: its descriptor and `ToString()`, the four kind
      flags `Valid` tests, the namespace and assembly names, the `syntax`
      declaration, its own annotations, and its parents and members. */
  datatype TypeInfo = TypeInfo(
    desc: TypeDesc,
    text: string,
    isClass: bool, isEnum: bool, isInterface: bool, isValueType: bool,
    namespace: string,
    assembly: string,
    syntax: string,
    docs: seq<Annotation>,
    parents: seq<TypeDesc>,
    constructors: seq<ConstructorInfo>,
    fields: seq<FieldInfo>,
    events: seq<EventInfo>,
    properties: seq<PropertyInfo>,
    methods: seq<MethodInfo>)
}
