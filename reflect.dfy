/**
 * The reflective metadata the library inspects, as values: classes with a
 * name, modifier bits, kind flags, an optional superclass, direct interfaces
 * and annotations; methods, fields and constructors with their modifiers,
 * parameter types and annotations. The members a class declares are kept in
 * a `Runtime` table next to the types, so that a type never has to contain
 * itself (java.lang.Object declares methods that take an Object).
 */
module Reflect {
  import opened Java
  import Modifiers

  /** The kind tests of java.lang.Class (`isInterface()`, `isEnum()`, ...). */
  datatype ClassFlag =
    | Interface | AnnotationType | Anonymous | ArrayType | EnumType
    | Local | MemberClass | Primitive | Synthetic

  /** org.kasource.commons.jmx.OperationImpact. */
  datatype OperationImpact = Action | ActionInfo | Info | Unknown

  /** The constants of javax.management.MBeanOperationInfo. */
  const INFO: int := 0
  const ACTION: int := 1
  const ACTION_INFO: int := 2
  const UNKNOWN: int := 3

  /** `OperationImpact.getImpact()`: the MBeanOperationInfo constant each value stands for. */
  function ImpactCode(impact: OperationImpact): (code: int)
    ensures 0 <= code <= 3
    ensures (code == UNKNOWN) <==> impact == Unknown
  {
    match impact
    case Action => ACTION
    case ActionInfo => ACTION_INFO
    case Info => INFO
    case Unknown => UNKNOWN
  }

  /** The annotations the JMX layer reads, with their elements; any other annotation is `Custom`. */
  datatype AnnotationKind =
    | JmxBean(objectName: string, description: string)
    | JmxAttribute(description: string)
    | JmxOperation(description: string, impact: OperationImpact)
    | JmxParameter(name: string, description: string)
    | JmxConstructor(description: string)
    | Custom(typeName: string)

  /** An annotation instance and the names of the annotations present on its annotation type. */
  datatype Annotation = Annotation(kind: AnnotationKind, metaAnnotations: set<string>)
  {
    /** `annotationType().getName()` */
    function TypeName(): string
    {
      match kind
      case JmxBean(_, _) => JMX_BEAN
      case JmxAttribute(_) => JMX_ATTRIBUTE
      case JmxOperation(_, _) => JMX_OPERATION
      case JmxParameter(_, _) => JMX_PARAMETER
      case JmxConstructor(_) => JMX_CONSTRUCTOR
      case Custom(n) => n
    }
  }

  const JMX_BEAN := "org.kasource.commons.jmx.annotation.JmxBean"
  const JMX_ATTRIBUTE := "org.kasource.commons.jmx.annotation.JmxAttribute"
  const JMX_OPERATION := "org.kasource.commons.jmx.annotation.JmxOperation"
  const JMX_PARAMETER := "org.kasource.commons.jmx.annotation.JmxParameter"
  const JMX_CONSTRUCTOR := "org.kasource.commons.jmx.annotation.JmxConstructor"

  /** `isAnnotationPresent(type)` over the annotations declared on an element. */
  predicate AnnotationPresent(annotations: seq<Annotation>, typeName: string)
  {
    exists i :: 0 <= i < |annotations| && annotations[i].TypeName() == typeName
  }

  /** Some declared annotation's own type carries the meta annotation `meta`. */
  predicate MetaAnnotationPresent(annotations: seq<Annotation>, meta: string)
  {
    exists i :: 0 <= i < |annotations| && meta in annotations[i].metaAnnotations
  }

  /** A java.lang.Class. */
  datatype Type = Type(
    name: string,
    modifiers: bv32,
    flags: set<ClassFlag>,
    superclass: Option<Type>,
    interfaces: seq<Type>,
    annotations: seq<Annotation>)

  /** `void.class` (`Void.TYPE`). */
  const VOID: Type := Type("void", Modifiers.PUBLIC | Modifiers.FINAL | Modifiers.ABSTRACT, {Primitive}, None, [], [])

  /** A java.lang.reflect.Method. */
  datatype Method = Method(
    declaringClass: string,
    name: string,
    modifiers: bv32,
    parameterTypes: seq<Type>,
    returnType: Type,
    annotations: seq<Annotation>,
    parameterAnnotations: seq<seq<Annotation>>)

  /** A java.lang.reflect.Field. */
  datatype Field = Field(
    declaringClass: string,
    name: string,
    modifiers: bv32,
    fieldType: Type,
    annotations: seq<Annotation>,
    isEnumConstant: bool)

  /** A java.lang.reflect.Constructor. */
  datatype Constructor = Constructor(
    declaringClass: string,
    modifiers: bv32,
    parameterTypes: seq<Type>,
    annotations: seq<Annotation>,
    parameterAnnotations: seq<seq<Annotation>>)

  /**
   * What a class reports about its members: `getDeclaredMethods()`,
   * `getDeclaredFields()` and `getConstructors()` (the public constructors).
   */
  datatype Members = Members(methods: seq<Method>, fields: seq<Field>, constructors: seq<Constructor>)

  /** The members of every loaded class; a class missing from the table declares nothing. */
  datatype Runtime = Runtime(declared: map<Type, Members>)
  {
    function MembersOf(t: Type): Members
    {
      if t in declared then declared[t] else Members([], [], [])
    }
  }

  /**
   * The two JDK services the filters delegate to and that the model takes
   * as given: `a.isAssignableFrom(b)` and `s.matches(regex)`.
   */
  datatype Jvm = Jvm(assignable: (Type, Type) -> bool, matches: (string, string) -> bool)

  /** `t`, `t.getSuperclass()`, its superclass, ... up to the class whose superclass is null. */
  function Superclasses(t: Type): (chain: seq<Type>)
    ensures |chain| >= 1 && chain[0] == t
    ensures chain[|chain| - 1].superclass.None?
    ensures forall i :: 0 <= i < |chain| - 1 ==> chain[i].superclass == Some(chain[i + 1])
    decreases t
  {
    match t.superclass
    case None => [t]
    case Some(s) => [t] + Superclasses(s)
  }

  /**
   * The element-wise test of the Assignable* and ParameterClass filters:
   * equal lengths, then a loop from index `i` on that stops at the first pair
   * failing `rel`.
   */
  function PairwiseFrom<X, Y>(rel: (X, Y) -> bool, xs: seq<X>, ys: seq<Y>, i: nat): bool
    requires |xs| == |ys| && i <= |xs|
    decreases |xs| - i
  {
    i == |xs| || (rel(xs[i], ys[i]) && PairwiseFrom(rel, xs, ys, i + 1))
  }

  predicate Pairwise<X, Y>(rel: (X, Y) -> bool, xs: seq<X>, ys: seq<Y>)
  {
    |xs| == |ys| && PairwiseFrom(rel, xs, ys, 0)
  }

  /** The loop accepts from `i` on exactly when every later pair is related. */
  lemma {:induction false} PairwiseFromIff<X, Y>(rel: (X, Y) -> bool, xs: seq<X>, ys: seq<Y>, i: nat)
    requires |xs| == |ys| && i <= |xs|
    ensures PairwiseFrom(rel, xs, ys, i) <==> forall j :: i <= j < |xs| ==> rel(xs[j], ys[j])
    decreases |xs| - i
  {
    if i < |xs| {
      PairwiseFromIff(rel, xs, ys, i + 1);
    }
  }

  /** Equal lengths and every position related. */
  lemma PairwiseIff<X, Y>(rel: (X, Y) -> bool, xs: seq<X>, ys: seq<Y>)
    ensures Pairwise(rel, xs, ys) <==> |xs| == |ys| && forall j :: 0 <= j < |xs| ==> rel(xs[j], ys[j])
  {
    if |xs| == |ys| {
      PairwiseFromIff(rel, xs, ys, 0);
    }
  }
}
