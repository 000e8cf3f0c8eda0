/**
 * org.kasource.commons.jmx.standard.AnnotatedStandardMBean: a StandardMBean
 * whose descriptions, parameter names and operation impacts come from the
 * Jmx* annotations of the implementation class when they say something,
 * and otherwise are the defaults the JMX layer passes in. Members are looked
 * up again from the MBean's info records; a failing lookup is null.
 */
module StandardMBeans {
  import opened Java
  import opened Reflect
  import MBeanFactory
  import Modifiers

  /** The implementation class, its members, and how a type name in an info record is turned into a class (or not). */
  datatype Implementation = Implementation(implementationClass: Type, runtime: Runtime, classFor: string -> Option<Type>)

  /** The parts of the JMX info records that are consulted. */
  datatype AttributeInfo = AttributeInfo(name: string, description: string, isIs: bool)
  datatype OperationInfo = OperationInfo(name: string, description: string, signature: seq<MBeanFactory.ParameterInfo>, impact: int)
  datatype ConstructorInfo = ConstructorInfo(description: string, signature: seq<MBeanFactory.ParameterInfo>)
  datatype BeanInfo = BeanInfo(description: string)

  /** `getAnnotation(type)`: the first annotation of that type, as its kind. */
  function AnnotationOf(annotations: seq<Annotation>, typeName: string): (r: Option<AnnotationKind>)
    ensures r.None? <==> !AnnotationPresent(annotations, typeName)
    ensures r.Some? ==> exists i :: 0 <= i < |annotations| && annotations[i].TypeName() == typeName && annotations[i].kind == r.value
    decreases |annotations|
  {
    if |annotations| == 0 then None
    else if annotations[0].TypeName() == typeName then Some(annotations[0].kind)
    else
      var r := AnnotationOf(annotations[1..], typeName);
      assert forall i :: 1 <= i < |annotations| ==> annotations[i] == annotations[1..][i - 1];
      r
  }

  /** The classes of the signature's type names; null as soon as one cannot be resolved. */
  function ResolvedTypes(classFor: string -> Option<Type>, signature: seq<MBeanFactory.ParameterInfo>): (r: Option<seq<Type>>)
    ensures r.Some? <==> forall i :: 0 <= i < |signature| ==> classFor(signature[i].typeName).Some?
    ensures r.Some? ==> (|r.value| == |signature| &&
      forall i :: 0 <= i < |signature| ==> r.value[i] == classFor(signature[i].typeName).value)
    decreases |signature|
  {
    if |signature| == 0 then Some([])
    else
      var last := classFor(signature[|signature| - 1].typeName);
      var init := ResolvedTypes(classFor, signature[..|signature| - 1]);
      if init.None? || last.None? then None else Some(init.value + [last.value])
  }

  /** The loop of `getOperationsMethod` / `getConstructor` that fills the `params` array from the signature. */
  method ResolveSignature(impl: Implementation, signature: seq<MBeanFactory.ParameterInfo>) returns (r: Option<seq<Type>>)
    ensures r == ResolvedTypes(impl.classFor, signature)
  {
    var params := new Type[|signature|](_ => VOID);
    for i := 0 to |signature|
      invariant ResolvedTypes(impl.classFor, signature[..i]) == Some(params[..i])
    {
      var c := impl.classFor(signature[i].typeName);
      if c.None? {
        return None;
      }
      assert signature[..i + 1][..i] == signature[..i] && signature[..i + 1][i] == signature[i];
      params[i] := c.value;
      assert params[..i + 1] == params[..i] + [c.value];
    }
    assert signature[..|signature|] == signature;
    assert params[..] == params[..|signature|];
    r := Some(params[..]);
  }

  /**
   * A method declared by `c` itself with that name and parameter list, or
   * null, as `getDeclaredMethod` gives; the model takes the earliest in the
   * list, where the JDK prefers the most specific return type among
   * same-signature (bridge) methods.
   */
  function FirstMethod(methods: seq<Method>, name: string, params: seq<Type>): (r: Option<Method>)
    ensures r.Some? ==> r.value in methods && r.value.name == name && r.value.parameterTypes == params
    ensures r.None? ==> forall m :: m in methods ==> !(m.name == name && m.parameterTypes == params)
    decreases |methods|
  {
    if |methods| == 0 then None
    else if methods[0].name == name && methods[0].parameterTypes == params then Some(methods[0])
    else FirstMethod(methods[1..], name, params)
  }

  function DeclaredMethod(impl: Implementation, name: string, params: seq<Type>): (r: Option<Method>)
    ensures r.Some? ==> r.value in impl.runtime.MembersOf(impl.implementationClass).methods && r.value.name == name && r.value.parameterTypes == params
    ensures r.None? ==> forall m :: m in impl.runtime.MembersOf(impl.implementationClass).methods ==> !(m.name == name && m.parameterTypes == params)
  {
    FirstMethod(impl.runtime.MembersOf(impl.implementationClass).methods, name, params)
  }

  /** The public constructor with that parameter list (`getConstructor`). */
  function FirstConstructor(constructors: seq<Constructor>, params: seq<Type>): (r: Option<Constructor>)
    ensures r.Some? ==> r.value in constructors && r.value.parameterTypes == params
    ensures r.None? ==> forall c :: c in constructors ==> c.parameterTypes != params
    decreases |constructors|
  {
    if |constructors| == 0 then None
    else if constructors[0].parameterTypes == params then Some(constructors[0])
    else FirstConstructor(constructors[1..], params)
  }

  function PublicConstructor(impl: Implementation, params: seq<Type>): (r: Option<Constructor>)
    ensures r.Some? ==> r.value in impl.runtime.MembersOf(impl.implementationClass).constructors && r.value.parameterTypes == params
    ensures r.None? ==> forall c :: c in impl.runtime.MembersOf(impl.implementationClass).constructors ==> c.parameterTypes != params
  {
    FirstConstructor(impl.runtime.MembersOf(impl.implementationClass).constructors, params)
  }

  /** `getOperationsMethod(operation)`: the declared method the operation stands for, or null when any lookup fails. */
  function OperationsMethod(impl: Implementation, operation: OperationInfo): Option<Method>
  {
    var params := ResolvedTypes(impl.classFor, operation.signature);
    if params.None? then None else DeclaredMethod(impl, operation.name, params.value)
  }

  /** `getConstructor(info)`: the constructor the info stands for, or null. */
  function ConstructorFor(impl: Implementation, info: Option<ConstructorInfo>): Option<Constructor>
  {
    if info.None? then None
    else
      var params := ResolvedTypes(impl.classFor, info.value.signature);
      if params.None? then None else PublicConstructor(impl, params.value)
  }

  /** `getGetter(attribute)`: `is<Name>` or `get<Name>` without parameters, or null. */
  function Getter(impl: Implementation, info: AttributeInfo): Option<Method>
  {
    DeclaredMethod(impl, (if info.isIs then "is" else "get") + info.name, [])
  }

  /** "A non-empty annotation value wins, else the default." */
  function NonEmptyOr(value: Option<string>, default: Option<string>): (r: Option<string>)
    ensures value.Some? && value.value != "" ==> r == value
    ensures (value.None? || value.value == "") ==> r == default
  {
    if value.Some? && value.value != "" then value else default
  }

  /** `getDescription(MBeanInfo)`: a non-empty @JmxBean description wins, else the info's description, or null without info. */
  function BeanDescription(impl: Implementation, info: Option<BeanInfo>): (r: Option<string>)
    ensures var bean := AnnotationOf(impl.implementationClass.annotations, JMX_BEAN);
      if bean.Some? && bean.value.JmxBean? && bean.value.description != "" then r == Some(bean.value.description)
      else r == (if info.None? then None else Some(info.value.description))
  {
    var bean := AnnotationOf(impl.implementationClass.annotations, JMX_BEAN);
    NonEmptyOr(if bean.Some? && bean.value.JmxBean? then Some(bean.value.description) else None,
               if info.None? then None else Some(info.value.description))
  }

  /** `getDescription(MBeanAttributeInfo)`: a non-empty @JmxAttribute description on the getter wins, else the default. */
  function AttributeDescription(impl: Implementation, info: Option<AttributeInfo>): (r: Option<string>)
    ensures info.None? ==> r.None?
    ensures info.Some? ==>
      var getter := Getter(impl, info.value);
      var attribute := if getter.Some? then AnnotationOf(getter.value.annotations, JMX_ATTRIBUTE) else None;
      if attribute.Some? && attribute.value.JmxAttribute? && attribute.value.description != "" then r == Some(attribute.value.description)
      else r == Some(info.value.description)
  {
    if info.None? then None
    else
      var getter := Getter(impl, info.value);
      var attribute := if getter.Some? then AnnotationOf(getter.value.annotations, JMX_ATTRIBUTE) else None;
      NonEmptyOr(if attribute.Some? && attribute.value.JmxAttribute? then Some(attribute.value.description) else None,
                 Some(info.value.description))
  }

  /** `getDescription(MBeanOperationInfo)`: the @JmxOperation description whenever the annotation is there, even an empty one. */
  function OperationDescription(impl: Implementation, operation: Option<OperationInfo>): (r: Option<string>)
    ensures operation.None? ==> r.None?
    ensures operation.Some? ==>
      var m := OperationsMethod(impl, operation.value);
      var op := if m.Some? then AnnotationOf(m.value.annotations, JMX_OPERATION) else None;
      r == if op.Some? && op.value.JmxOperation? then Some(op.value.description) else Some(operation.value.description)
  {
    if operation.None? then None
    else
      var m := OperationsMethod(impl, operation.value);
      var op := if m.Some? then AnnotationOf(m.value.annotations, JMX_OPERATION) else None;
      if op.Some? && op.value.JmxOperation? then Some(op.value.description) else Some(operation.value.description)
  }

  /**
   * `getNthJmxParamter`: the first @JmxParameter on parameter `paramNo` of
   * the looked-up member, or null when the member is not found; a position
   * past the member's parameters throws.
   */
  function NthJmxParameter(parameterAnnotations: Option<seq<seq<Annotation>>>, paramNo: nat): (r: Result<Option<AnnotationKind>>)
    ensures parameterAnnotations.None? ==> r == Ok(None)
    ensures parameterAnnotations.Some? ==> (r.Throws? <==> paramNo >= |parameterAnnotations.value|)
    ensures r.Throws? ==> r.exception == IndexOutOfBounds
    ensures r.Ok? && r.value.Some? ==> r.value.value.JmxParameter?
    ensures parameterAnnotations.Some? && paramNo < |parameterAnnotations.value| ==>
      var annotations := parameterAnnotations.value[paramNo];
      (r.value.None? <==> forall i :: 0 <= i < |annotations| ==> !annotations[i].kind.JmxParameter?) &&
      (r.value.Some? ==> (exists i :: 0 <= i < |annotations| && annotations[i].kind == r.value.value &&
                            (forall j :: 0 <= j < i ==> !annotations[j].kind.JmxParameter?)))
  {
    if parameterAnnotations.None? then Ok(None)
    else if paramNo >= |parameterAnnotations.value| then Throws(IndexOutOfBounds)
    else
      var p := MBeanFactory.JmxParameterOf(parameterAnnotations.value[paramNo]);
      Ok(if p.Some? then Some(p.value.kind) else None)
  }

  /** The parameter annotations of the method an operation stands for, or null. */
  function OperationParameterAnnotations(impl: Implementation, operation: OperationInfo): Option<seq<seq<Annotation>>>
  {
    var m := OperationsMethod(impl, operation);
    if m.Some? then Some(m.value.parameterAnnotations) else None
  }

  /** The parameter annotations of the constructor a constructor info stands for, or null. */
  function ConstructorParameterAnnotations(impl: Implementation, info: Option<ConstructorInfo>): Option<seq<seq<Annotation>>>
  {
    var c := ConstructorFor(impl, info);
    if c.Some? then Some(c.value.parameterAnnotations) else None
  }

  /** The @JmxParameter found wins when its name is non-empty, else the default; an index failure propagates. */
  function NameOverride(found: Result<Option<AnnotationKind>>, default: string): (r: Result<Option<string>>)
    requires found.Ok? && found.value.Some? ==> found.value.value.JmxParameter?
    ensures found.Throws? ==> r == Throws(found.exception)
    ensures found.Ok? ==> r.Ok? && r.value.Some?
    ensures found.Ok? && found.value.Some? && found.value.value.name != "" ==> r.value.value == found.value.value.name
    ensures found.Ok? && (found.value.None? || found.value.value.name == "") ==> r.value.value == default
  {
    if found.Throws? then Throws(found.exception)
    else Ok(NonEmptyOr(if found.value.Some? then Some(found.value.value.name) else None, Some(default)))
  }

  /** The same rule for the description of the @JmxParameter found. */
  function DescriptionOverride(found: Result<Option<AnnotationKind>>, default: string): (r: Result<Option<string>>)
    requires found.Ok? && found.value.Some? ==> found.value.value.JmxParameter?
    ensures found.Throws? ==> r == Throws(found.exception)
    ensures found.Ok? ==> r.Ok? && r.value.Some?
    ensures found.Ok? && found.value.Some? && found.value.value.description != "" ==> r.value.value == found.value.value.description
    ensures found.Ok? && (found.value.None? || found.value.value.description == "") ==> r.value.value == default
  {
    if found.Throws? then Throws(found.exception)
    else Ok(NonEmptyOr(if found.value.Some? then Some(found.value.value.description) else None, Some(default)))
  }

  /**
   * `getParameterName(operation, param, paramNo)`: null for a null
   * operation; a non-empty @JmxParameter name on that parameter of the
   * operation's method wins, else the default name; a position past the
   * method's parameters throws.
   */
  function OperationParameterName(impl: Implementation, operation: Option<OperationInfo>, param: MBeanFactory.ParameterInfo, paramNo: nat): (r: Result<Option<string>>)
    ensures operation.None? ==> r == Ok(None)
    ensures operation.Some? && OperationsMethod(impl, operation.value).None? ==> r == Ok(Some(param.name))
    ensures operation.Some? && OperationsMethod(impl, operation.value).Some? ==>
      (r.Throws? <==> paramNo >= |OperationsMethod(impl, operation.value).value.parameterAnnotations|)
    ensures r.Throws? ==> r.exception == IndexOutOfBounds
    ensures operation.Some? && r.Ok? ==> r.value.Some? && (r.value.value == param.name || r.value.value != "")
  {
    if operation.None? then Ok(None)
    else NameOverride(NthJmxParameter(OperationParameterAnnotations(impl, operation.value), paramNo), param.name)
  }

  /** `getDescription(operation, param, paramNo)`: the same rule for the description. */
  function OperationParameterDescription(impl: Implementation, operation: Option<OperationInfo>, param: MBeanFactory.ParameterInfo, paramNo: nat): (r: Result<Option<string>>)
    ensures operation.None? ==> r == Ok(None)
    ensures operation.Some? && OperationsMethod(impl, operation.value).None? ==> r == Ok(Some(param.description))
    ensures operation.Some? && OperationsMethod(impl, operation.value).Some? ==>
      (r.Throws? <==> paramNo >= |OperationsMethod(impl, operation.value).value.parameterAnnotations|)
    ensures r.Throws? ==> r.exception == IndexOutOfBounds
    ensures operation.Some? && r.Ok? ==> r.value.Some? && (r.value.value == param.description || r.value.value != "")
  {
    if operation.None? then Ok(None)
    else DescriptionOverride(NthJmxParameter(OperationParameterAnnotations(impl, operation.value), paramNo), param.description)
  }

  /** `getDescription(MBeanConstructorInfo)`: a non-empty @JmxConstructor description wins, else the default. */
  function ConstructorDescription(impl: Implementation, info: Option<ConstructorInfo>): (r: Option<string>)
    ensures info.None? ==> r.None?
    ensures info.Some? ==>
      var c := ConstructorFor(impl, info);
      var ann := if c.Some? then AnnotationOf(c.value.annotations, JMX_CONSTRUCTOR) else None;
      if ann.Some? && ann.value.JmxConstructor? && ann.value.description != "" then r == Some(ann.value.description)
      else r == Some(info.value.description)
  {
    if info.None? then None
    else
      var c := ConstructorFor(impl, info);
      var ann := if c.Some? then AnnotationOf(c.value.annotations, JMX_CONSTRUCTOR) else None;
      NonEmptyOr(if ann.Some? && ann.value.JmxConstructor? then Some(ann.value.description) else None,
                 Some(info.value.description))
  }

  /**
   * `getDescription(constructor, param, index)`: null only for a null
   * parameter; a constructor that is not found keeps the default, a position
   * past its parameters throws.
   */
  function ConstructorParameterDescription(impl: Implementation, info: Option<ConstructorInfo>, param: Option<MBeanFactory.ParameterInfo>, index: nat): (r: Result<Option<string>>)
    ensures param.None? ==> r == Ok(None)
    ensures param.Some? && ConstructorFor(impl, info).None? ==> r == Ok(Some(param.value.description))
    ensures param.Some? && ConstructorFor(impl, info).Some? ==>
      (r.Throws? <==> index >= |ConstructorFor(impl, info).value.parameterAnnotations|)
    ensures r.Throws? ==> r.exception == IndexOutOfBounds
    ensures param.Some? && r.Ok? ==> r.value.Some? && (r.value.value == param.value.description || r.value.value != "")
  {
    if param.None? then Ok(None)
    else DescriptionOverride(NthJmxParameter(ConstructorParameterAnnotations(impl, info), index), param.value.description)
  }

  /** `getParameterName(constructor, param, index)`: the same rule for the name. */
  function ConstructorParameterName(impl: Implementation, info: Option<ConstructorInfo>, param: Option<MBeanFactory.ParameterInfo>, index: nat): (r: Result<Option<string>>)
    ensures param.None? ==> r == Ok(None)
    ensures param.Some? && ConstructorFor(impl, info).None? ==> r == Ok(Some(param.value.name))
    ensures param.Some? && ConstructorFor(impl, info).Some? ==>
      (r.Throws? <==> index >= |ConstructorFor(impl, info).value.parameterAnnotations|)
    ensures r.Throws? ==> r.exception == IndexOutOfBounds
    ensures param.Some? && r.Ok? ==> r.value.Some? && (r.value.value == param.value.name || r.value.value != "")
  {
    if param.None? then Ok(None)
    else NameOverride(NthJmxParameter(ConstructorParameterAnnotations(impl, info), index), param.value.name)
  }

  /**
   * The standard MBean reports the parameter names and descriptions the
   * dynamic factory builds: given the factory's defaults ("p" + position, an
   * empty description), the override rule yields the factory's
   * `ParameterInfoFor` for the same parameter.
   */
  lemma AgreesWithDynamicFactory(impl: Implementation, operation: OperationInfo, parameter: Type, paramNo: nat)
    requires OperationsMethod(impl, operation).Some?
    requires paramNo < |OperationsMethod(impl, operation).value.parameterAnnotations|
    ensures var annotations := OperationsMethod(impl, operation).value.parameterAnnotations[paramNo];
      var built := MBeanFactory.ParameterInfoFor(parameter, annotations, paramNo);
      var default := MBeanFactory.ParameterInfo("p" + Decimal(paramNo), parameter.name, "");
      OperationParameterName(impl, Some(operation), default, paramNo) == Ok(Some(built.name)) &&
      OperationParameterDescription(impl, Some(operation), default, paramNo) == Ok(Some(built.description))
  {
  }

  /** The impact @JmxOperation sets, unless it says UNKNOWN. */
  function AnnotatedImpact(m: Method): Option<int>
  {
    var op := AnnotationOf(m.annotations, JMX_OPERATION);
    if op.Some? && op.value.JmxOperation? && op.value.impact != Unknown then Some(ImpactCode(op.value.impact)) else None
  }

  /**
   * `getImpact(operation)` as written: the annotation is read from the
   * looked-up method without a null check, so an operation whose method
   * lookup fails throws NullPointerException.
   */
  function ImpactAsWritten(impl: Implementation, operation: Option<OperationInfo>): (r: Result<int>)
    ensures operation.None? ==> r == Ok(UNKNOWN)
    ensures operation.Some? && OperationsMethod(impl, operation.value).None? ==> r == Throws(NullPointer)
  {
    if operation.None? then Ok(UNKNOWN)
    else
      var m := OperationsMethod(impl, operation.value);
      if m.None? then Throws(NullPointer)
      else
        var annotated := AnnotatedImpact(m.value);
        Ok(if annotated.Some? then annotated.value else operation.value.impact)
  }

  /** `getImpact(operation)` with the null check every other override has: a failed lookup keeps the default impact. */
  function Impact(impl: Implementation, operation: Option<OperationInfo>): (r: int)
    ensures operation.None? ==> r == UNKNOWN
    ensures operation.Some? && OperationsMethod(impl, operation.value).None? ==> r == operation.value.impact
  {
    if operation.None? then UNKNOWN
    else
      var m := OperationsMethod(impl, operation.value);
      var annotated := if m.Some? then AnnotatedImpact(m.value) else None;
      if annotated.Some? then annotated.value else operation.value.impact
  }

  /**
   * The impact rule: a found method's @JmxOperation impact wins unless it is
   * UNKNOWN; otherwise the default. Where the written version returns, the
   * corrected one returns the same value.
   */
  lemma ImpactRule(impl: Implementation, operation: OperationInfo)
    ensures var m := OperationsMethod(impl, operation);
      var op := if m.Some? then AnnotationOf(m.value.annotations, JMX_OPERATION) else None;
      if op.Some? && op.value.JmxOperation? && op.value.impact != Unknown
      then Impact(impl, Some(operation)) == ImpactCode(op.value.impact) && Impact(impl, Some(operation)) != UNKNOWN
      else Impact(impl, Some(operation)) == operation.impact
    ensures ImpactAsWritten(impl, Some(operation)).Ok? ==> ImpactAsWritten(impl, Some(operation)).value == Impact(impl, Some(operation))
  {
  }

  /** An operation whose method is not declared by the implementation class: the written `getImpact` throws, the corrected one keeps the default. */
  lemma ImpactOfUndeclaredOperation()
    ensures var impl := Implementation(Type("Example", Modifiers.PUBLIC, {}, None, [], []), Runtime(map[]), (s: string) => None);
      var operation := OperationInfo("reset", "", [], ACTION);
      ImpactAsWritten(impl, Some(operation)) == Throws(NullPointer) && Impact(impl, Some(operation)) == ACTION
  {
    var impl := Implementation(Type("Example", Modifiers.PUBLIC, {}, None, [], []), Runtime(map[]), (s: string) => None);
    var operation := OperationInfo("reset", "", [], ACTION);
    assert ResolvedTypes(impl.classFor, operation.signature) == Some([]);
    assert impl.runtime.MembersOf(impl.implementationClass).methods == [];
  }

  /** Member lookups that fail are swallowed: the defaults are kept rather than an exception raised. */
  lemma FailedLookupKeepsDefaults(impl: Implementation, operation: OperationInfo, attribute: AttributeInfo, param: MBeanFactory.ParameterInfo, paramNo: nat)
    requires OperationsMethod(impl, operation).None?
    requires Getter(impl, attribute).None?
    ensures OperationDescription(impl, Some(operation)) == Some(operation.description)
    ensures AttributeDescription(impl, Some(attribute)) == Some(attribute.description)
    ensures OperationParameterName(impl, Some(operation), param, paramNo) == Ok(Some(param.name))
    ensures OperationParameterDescription(impl, Some(operation), param, paramNo) == Ok(Some(param.description))
  {
  }
}
