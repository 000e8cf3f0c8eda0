/**
 * org.kasource.commons.jmx.dynamic.AnnotationDynamicMBeanFactory: the rules
 * by which a @JmxBean object becomes a DynamicMBeanImpl: which methods are
 * attribute getters and setters and under which attribute name, which are
 * operations and under which key, and how parameters are described.
 * MethodFilterBuilder.java is not part of this model; its filters are built
 * with the shared builder of the other four filter builders.
 */
module MBeanFactory {
  import opened Java
  import opened Reflect
  import opened Filters
  import opened FilterBuilders
  import opened Methods
  import opened Selection
  import opened Introspection
  import opened DynamicMBeans
  import Modifiers

  /** `getAttributeName(getter)`: drop "get" when the name starts with it, otherwise drop two characters ("is"). */
  function AttributeName(name: string): (r: Result<string>)
    ensures StartsWith(name, "get") ==> r == Ok(name[3..])
    ensures !StartsWith(name, "get") && |name| >= 2 ==> r == Ok(name[2..])
    ensures r.Throws? <==> !StartsWith(name, "get") && |name| < 2
    ensures r.Throws? ==> r.exception == IndexOutOfBounds
  {
    var index := if StartsWith(name, "get") then 3 else 2;
    if |name| < index then Throws(IndexOutOfBounds) else Ok(name[index..])
  }

  /** Getter names give back the attribute they were formed from. */
  lemma AttributeNameRoundTrip(attribute: string)
    ensures AttributeName("get" + attribute) == Ok(attribute)
    ensures AttributeName("is" + attribute) == Ok(attribute)
  {
    assert ("get" + attribute)[..3] == "get";
    assert ("get" + attribute)[3..] == attribute;
    assert ("is" + attribute)[..2] == "is";
    assert ("is" + attribute)[0] == 'i';
    assert ("is" + attribute)[2..] == attribute;
  }

  /** The name patterns behave as Java regular expressions do on these two patterns. */
  ghost predicate PrefixPatterns(jvm: Jvm)
  {
    forall s :: (jvm.matches(s, "get.*") ==> StartsWith(s, "get")) && (jvm.matches(s, "is.*") ==> StartsWith(s, "is"))
  }

  /** The filter `GETTER_FILTER` builds to. */
  function GetterFilter(): MethodFilter
  {
    FilterList([
      Leaf(Modifier(Modifiers.PUBLIC)),
      Filters.Or(Leaf(Name("get.*")), Leaf(Name("is.*"))),
      Leaf(NumberOfParameters(0)),
      Negation(Leaf(ReturnType(VOID))),
      Leaf(Annotated(JMX_ATTRIBUTE))])
  }

  /** `GETTER_FILTER`: isPublic, name("get.*").or().name("is.*"), numberOfParameters(0), not().returnType(void), annotated(JmxAttribute). */
  method BuildGetterFilter() returns (r: Result<MethodFilter>)
    ensures r == Ok(GetterFilter())
  {
    var fs := GetterFilter().filters;
    var b := new FilterBuilder<MethodTest>();
    var thrown := b.AddFilter(Leaf(Modifier(Modifiers.PUBLIC)));
    thrown := b.AddFilter(Leaf(Name("get.*")));
    b.Or();
    thrown := b.AddFilter(Leaf(Name("is.*")));
    assert b.filters == fs[..2];
    thrown := b.AddFilter(Leaf(NumberOfParameters(0)));
    assert b.filters == fs[..3];
    b.Not();
    thrown := b.AddFilter(Leaf(ReturnType(VOID)));
    assert b.filters == fs[..4];
    thrown := b.AddFilter(Leaf(Annotated(JMX_ATTRIBUTE)));
    assert b.filters == fs;
    r := b.BuildFilter();
  }

  /** A getter is public, named get* or is*, takes no parameter, does not return void and carries @JmxAttribute. */
  lemma GetterFilterIff(m: Method, jvm: Jvm)
    ensures Methods.Passes(GetterFilter(), m, jvm) <==>
      Modifiers.HasAny(m.modifiers, Modifiers.PUBLIC) &&
      (jvm.matches(m.name, "get.*") || jvm.matches(m.name, "is.*")) &&
      |m.parameterTypes| == 0 &&
      m.returnType != VOID &&
      AnnotationPresent(m.annotations, JMX_ATTRIBUTE)
  {
    var leaf := Tests(m, jvm);
    ListOfFive(Leaf(Modifier(Modifiers.PUBLIC)), Filters.Or(Leaf(Name("get.*")), Leaf(Name("is.*"))),
      Leaf(NumberOfParameters(0)), Negation(Leaf(ReturnType(VOID))), Leaf(Annotated(JMX_ATTRIBUTE)), leaf);
  }

  /** Every getter name has an attribute name (or the patterns would not have matched). */
  lemma GetterNamesFit(m: Method, jvm: Jvm)
    requires PrefixPatterns(jvm) && Methods.Passes(GetterFilter(), m, jvm)
    ensures AttributeName(m.name).Ok?
    ensures StartsWith(m.name, "get") ==> "get" + AttributeName(m.name).value == m.name
  {
    GetterFilterIff(m, jvm);
    if StartsWith(m.name, "get") {
      assert m.name == m.name[..3] + m.name[3..];
    }
  }

  /** The filter for the setter of `attribute` whose getter returns `valueType`. */
  function SetterFilter(attribute: string, valueType: Type): MethodFilter
  {
    FilterList([
      Leaf(Modifier(Modifiers.PUBLIC)),
      Leaf(Name("set" + attribute)),
      Leaf(Signature([valueType])),
      Leaf(ReturnType(VOID)),
      Leaf(Annotated(JMX_ATTRIBUTE))])
  }

  /** isPublic, name("set" + attribute), hasSignature(getter return type), returnType(void), annotated(JmxAttribute). */
  method BuildSetterFilter(attribute: string, valueType: Type) returns (r: Result<MethodFilter>)
    ensures r == Ok(SetterFilter(attribute, valueType))
  {
    var fs := SetterFilter(attribute, valueType).filters;
    var b := new FilterBuilder<MethodTest>();
    var thrown := b.AddFilter(Leaf(Modifier(Modifiers.PUBLIC)));
    thrown := b.AddFilter(Leaf(Name("set" + attribute)));
    assert b.filters == fs[..2];
    thrown := b.AddFilter(Leaf(Signature([valueType])));
    assert b.filters == fs[..3];
    thrown := b.AddFilter(Leaf(ReturnType(VOID)));
    assert b.filters == fs[..4];
    thrown := b.AddFilter(Leaf(Annotated(JMX_ATTRIBUTE)));
    assert b.filters == fs;
    r := b.BuildFilter();
  }

  /** A setter is public, matches "set" + the attribute, takes exactly the getter's return type, returns void and carries @JmxAttribute. */
  lemma SetterFilterIff(attribute: string, valueType: Type, m: Method, jvm: Jvm)
    ensures Methods.Passes(SetterFilter(attribute, valueType), m, jvm) <==>
      Modifiers.HasAny(m.modifiers, Modifiers.PUBLIC) &&
      jvm.matches(m.name, "set" + attribute) &&
      m.parameterTypes == [valueType] &&
      m.returnType == VOID &&
      AnnotationPresent(m.annotations, JMX_ATTRIBUTE)
  {
    ListOfFive(Leaf(Modifier(Modifiers.PUBLIC)), Leaf(Name("set" + attribute)), Leaf(Signature([valueType])),
      Leaf(ReturnType(VOID)), Leaf(Annotated(JMX_ATTRIBUTE)), Tests(m, jvm));
  }

  /** The filter for operations: isPublic, annotated(JmxOperation). */
  function OperationFilter(): MethodFilter
  {
    FilterList([Leaf(Modifier(Modifiers.PUBLIC)), Leaf(Annotated(JMX_OPERATION))])
  }

  method BuildOperationFilter() returns (r: Result<MethodFilter>)
    ensures r == Ok(OperationFilter())
  {
    var b := new FilterBuilder<MethodTest>();
    var thrown := b.AddFilter(Leaf(Modifier(Modifiers.PUBLIC)));
    thrown := b.AddFilter(Leaf(Annotated(JMX_OPERATION)));
    assert b.filters == OperationFilter().filters;
    r := b.BuildFilter();
  }

  /** The methods of the class and its superclasses passing `f`, as `getMethods(f)` finds them. */
  function Found(rt: Runtime, target: Type, f: MethodFilter, jvm: Jvm): set<Method>
  {
    Inherited(target, MethodsPassing(rt, Methods.Accepts(f, jvm)))
  }

  /** The setter candidates of a getter whose attribute is `attribute`. */
  function SetterCandidates(rt: Runtime, target: Type, attribute: string, getter: Method, jvm: Jvm): set<Method>
  {
    Found(rt, target, SetterFilter(attribute, getter.returnType), jvm)
  }

  /** Each getter of `done` is stored under its attribute name, and only such getters are stored. */
  predicate GettersResolved(done: set<Method>, getters: map<string, Method>)
  {
    (forall g :: g in done ==> AttributeName(g.name).Ok? && AttributeName(g.name).value in getters) &&
    (forall k :: k in getters ==> getters[k] in done && AttributeName(getters[k].name) == Ok(k))
  }

  lemma GettersStep(done: set<Method>, getters: map<string, Method>, g: Method)
    requires GettersResolved(done, getters) && AttributeName(g.name).Ok?
    ensures GettersResolved(done + {g}, getters[AttributeName(g.name).value := g])
  {
  }

  /** The setter candidates of every attribute name and getter, as one function. */
  function CandidatesOf(rt: Runtime, target: Type, jvm: Jvm): (string, Method) -> set<Method>
  {
    (k: string, g: Method) => SetterCandidates(rt, target, k, g, jvm)
  }

  /**
   * A getter of `done` with setter candidates has a setter stored under its
   * attribute name, and every stored setter is a candidate of a getter of
   * `done` with that attribute name.
   */
  ghost predicate SettersResolved(candidates: (string, Method) -> set<Method>, done: set<Method>,
                                  getters: map<string, Method>, setters: map<string, Method>)
  {
    (forall g :: (g in done && AttributeName(g.name).Ok? && candidates(AttributeName(g.name).value, g) != {})
       ==> AttributeName(g.name).value in setters) &&
    (forall k :: k in setters ==>
       (k in getters &&
        exists g :: g in done && AttributeName(g.name) == Ok(k) && setters[k] in candidates(k, g)))
  }

  lemma SettersStep(candidates: (string, Method) -> set<Method>, done: set<Method>, getters: map<string, Method>,
                    setters: map<string, Method>, g: Method, setter: Option<Method>)
    requires SettersResolved(candidates, done, getters, setters) && AttributeName(g.name).Ok?
    requires setter.None? <==> candidates(AttributeName(g.name).value, g) == {}
    requires setter.Some? ==> setter.value in candidates(AttributeName(g.name).value, g)
    ensures var k := AttributeName(g.name).value;
      SettersResolved(candidates, done + {g}, getters[k := g], if setter.Some? then setters[k := setter.value] else setters)
  {
    var k := AttributeName(g.name).value;
    var setters' := if setter.Some? then setters[k := setter.value] else setters;
    forall k' | k' in setters'
      ensures exists g' :: g' in done + {g} && AttributeName(g'.name) == Ok(k') && setters'[k'] in candidates(k', g')
    {
      if k' == k && setter.Some? {
        assert g in done + {g};
      } else {
        var g' :| g' in done && AttributeName(g'.name) == Ok(k') && setters[k'] in candidates(k', g');
        assert g' in done + {g};
      }
    }
  }

  /** One turn of the loop of `resolveGettersAndSetters`: store the getter, and a setter candidate if it has one. */
  method ResolveGetter(introspector: ClassIntrospector, jvm: Jvm, ghost done: set<Method>,
                       getters: map<string, Method>, setters: map<string, Method>, getter: Method)
    returns (r: Result<(map<string, Method>, map<string, Method>)>)
    requires GettersResolved(done, getters)
    requires SettersResolved(CandidatesOf(introspector.runtime, introspector.target, jvm), done, getters, setters)
    ensures r.Throws? <==> AttributeName(getter.name).Throws?
    ensures r.Throws? ==> r.exception == IndexOutOfBounds
    ensures r.Ok? ==> GettersResolved(done + {getter}, r.value.0)
    ensures r.Ok? ==> SettersResolved(CandidatesOf(introspector.runtime, introspector.target, jvm), done + {getter}, r.value.0, r.value.1)
  {
    var attributeName := AttributeName(getter.name);
    if attributeName.Throws? {
      return Throws(attributeName.exception);
    }
    var setterFilter := BuildSetterFilter(attributeName.value, getter.returnType);
    var setterCandidates := introspector.GetMethods(Methods.Accepts(setterFilter.value, jvm));
    var setter: Option<Method> := None;
    if setterCandidates != {} {
      var candidate :| candidate in setterCandidates;
      setter := Some(candidate);
    }
    ghost var candidates := CandidatesOf(introspector.runtime, introspector.target, jvm);
    assert setterCandidates == candidates(attributeName.value, getter);
    GettersStep(done, getters, getter);
    SettersStep(candidates, done, getters, setters, getter, setter);
    var setters' := if setter.Some? then setters[attributeName.value := setter.value] else setters;
    r := Ok((getters[attributeName.value := getter], setters'));
  }

  /**
   * `resolveGettersAndSetters`: each getter is stored under its attribute
   * name, and under the same name some setter candidate when there is one.
   * A getter name too short for `substring` throws.
   */
  method ResolveGettersAndSetters(introspector: ClassIntrospector, jvm: Jvm)
    returns (r: Result<(map<string, Method>, map<string, Method>)>)
    ensures var getterSet := Found(introspector.runtime, introspector.target, GetterFilter(), jvm);
      && (r.Throws? <==> exists g :: g in getterSet && AttributeName(g.name).Throws?)
      && (r.Throws? ==> r.exception == IndexOutOfBounds)
      && (r.Ok? ==> GettersResolved(getterSet, r.value.0))
      && (r.Ok? ==> SettersResolved(CandidatesOf(introspector.runtime, introspector.target, jvm), getterSet, r.value.0, r.value.1))
  {
    var getterSet := introspector.GetMethods(Methods.Accepts(GetterFilter(), jvm));
    r := ResolveEach(introspector, jvm, getterSet);
  }

  /** The for loop of `resolveGettersAndSetters` over the getters found. */
  method ResolveEach(introspector: ClassIntrospector, jvm: Jvm, getterSet: set<Method>)
    returns (r: Result<(map<string, Method>, map<string, Method>)>)
    ensures r.Throws? <==> exists g :: g in getterSet && AttributeName(g.name).Throws?
    ensures r.Throws? ==> r.exception == IndexOutOfBounds
    ensures r.Ok? ==> GettersResolved(getterSet, r.value.0)
    ensures r.Ok? ==> SettersResolved(CandidatesOf(introspector.runtime, introspector.target, jvm), getterSet, r.value.0, r.value.1)
  {
    ghost var done: set<Method> := {};
    var remaining := getterSet;
    var getters: map<string, Method> := map[];
    var setters: map<string, Method> := map[];
    while remaining != {}
      invariant remaining <= getterSet && done == getterSet - remaining
      invariant GettersResolved(done, getters)
      invariant SettersResolved(CandidatesOf(introspector.runtime, introspector.target, jvm), done, getters, setters)
      decreases |remaining|
    {
      var getter :| getter in remaining;
      var resolved := ResolveGetter(introspector, jvm, done, getters, setters, getter);
      if resolved.Throws? {
        assert getter in getterSet;
        return Throws(resolved.exception);
      }
      getters, setters := resolved.value.0, resolved.value.1;
      done := done + {getter};
      remaining := remaining - {getter};
    }
    r := Ok((getters, setters));
  }

  /** Every operation of `found` is keyed by its name, and each stored value is an operation of `found` carrying its key. */
  predicate OperationsResolved(found: set<Method>, operations: map<string, Method>)
  {
    && (forall m :: m in found ==> m.name in operations)
    && (forall k :: k in operations ==> operations[k] in found && operations[k].name == k)
  }

  /** `getOperationsMap`: every operation under its method name; of overloads with one name only one is kept. */
  method GetOperationsMap(introspector: ClassIntrospector, jvm: Jvm) returns (operations: map<string, Method>)
    ensures OperationsResolved(Found(introspector.runtime, introspector.target, OperationFilter(), jvm), operations)
  {
    var methods := introspector.GetMethods(Methods.Accepts(OperationFilter(), jvm));
    ghost var all := methods;
    operations := map[];
    while methods != {}
      invariant methods <= all
      invariant forall m :: m in all - methods ==> m.name in operations
      invariant forall k :: k in operations ==> operations[k] in all && operations[k].name == k
      decreases |methods|
    {
      var m :| m in methods;
      operations := operations[m.name := m];
      methods := methods - {m};
    }
  }

  /** An operation is public and carries @JmxOperation. */
  lemma OperationFilterIff(m: Method, jvm: Jvm)
    ensures Methods.Passes(OperationFilter(), m, jvm) <==>
      Modifiers.HasAny(m.modifiers, Modifiers.PUBLIC) && AnnotationPresent(m.annotations, JMX_OPERATION)
  {
    ListPassesIffAll(OperationFilter().filters, Tests(m, jvm));
  }

  /** The position of the first @JmxParameter at or after `i`, or the length when there is none. */
  function FirstJmxParameterFrom(annotations: seq<Annotation>, i: nat): (k: nat)
    requires i <= |annotations|
    ensures i <= k <= |annotations|
    ensures k < |annotations| ==> annotations[k].kind.JmxParameter?
    ensures forall j :: i <= j < k ==> !annotations[j].kind.JmxParameter?
    decreases |annotations| - i
  {
    if i == |annotations| || annotations[i].kind.JmxParameter? then i
    else FirstJmxParameterFrom(annotations, i + 1)
  }

  /** `getJmxParameter(annotations)`: the first @JmxParameter, or null. */
  function JmxParameterOf(annotations: seq<Annotation>): (r: Option<Annotation>)
    ensures r.None? <==> forall i :: 0 <= i < |annotations| ==> !annotations[i].kind.JmxParameter?
    ensures r.Some? ==>
      (r.value.kind.JmxParameter? &&
       exists i :: 0 <= i < |annotations| && annotations[i] == r.value &&
         forall j :: 0 <= j < i ==> !annotations[j].kind.JmxParameter?)
  {
    var k := FirstJmxParameterFrom(annotations, 0);
    if k < |annotations| then Some(annotations[k]) else None
  }

  /** `javax.management.MBeanParameterInfo`: name, type name, description. */
  datatype ParameterInfo = ParameterInfo(name: string, typeName: string, description: string)

  /**
   * `getParamaterInfo(parameter, annotations, index)`: named "p" + index
   * with an empty description unless @JmxParameter says otherwise; its name
   * only when non-empty, its description always.
   */
  function ParameterInfoFor(parameter: Type, annotations: seq<Annotation>, index: nat): (r: ParameterInfo)
    ensures r.typeName == parameter.name
    ensures JmxParameterOf(annotations).None? ==> r.name == "p" + Decimal(index) && r.description == ""
    ensures JmxParameterOf(annotations).Some? ==>
      var p := JmxParameterOf(annotations).value.kind;
      r.name == (if p.name != "" then p.name else "p" + Decimal(index)) && r.description == p.description
  {
    var jmxParameter := JmxParameterOf(annotations);
    var name := if jmxParameter.Some? && jmxParameter.value.kind.name != "" then jmxParameter.value.kind.name else "p" + Decimal(index);
    var description := if jmxParameter.Some? then jmxParameter.value.kind.description else "";
    ParameterInfo(name, parameter.name, description)
  }

  /** Parameters without @JmxParameter at distinct positions get distinct default names `p<i>`. */
  lemma DefaultNamesDistinct(p: Type, pa: seq<Annotation>, i: nat, q: Type, qa: seq<Annotation>, j: nat)
    requires JmxParameterOf(pa).None? && JmxParameterOf(qa).None? && i != j
    ensures ParameterInfoFor(p, pa, i).name != ParameterInfoFor(q, qa, j).name
  {
    if ParameterInfoFor(p, pa, i).name == ParameterInfoFor(q, qa, j).name {
      assert ("p" + Decimal(i))[1..] == Decimal(i);
      assert ("p" + Decimal(j))[1..] == Decimal(j);
      DecimalInjective(i, j);
    }
  }

  /** The first `i` slots hold the infos of their parameters; the rest are still null. */
  ghost predicate FilledUpTo(infos: seq<Option<ParameterInfo>>, parameters: seq<Type>, parameterAnnotations: seq<seq<Annotation>>, i: nat)
  {
    && i <= |infos| && i <= |parameters| && i <= |parameterAnnotations|
    && (forall j :: 0 <= j < i ==> infos[j] == Some(ParameterInfoFor(parameters[j], parameterAnnotations[j], j)))
    && (forall j :: i <= j < |infos| ==> infos[j] == None)
  }

  lemma FillStep(infos: seq<Option<ParameterInfo>>, parameters: seq<Type>, parameterAnnotations: seq<seq<Annotation>>, i: nat, info: ParameterInfo)
    requires FilledUpTo(infos, parameters, parameterAnnotations, i)
    requires i < |infos| && i < |parameters| && i < |parameterAnnotations|
    requires info == ParameterInfoFor(parameters[i], parameterAnnotations[i], i)
    ensures FilledUpTo(infos[i := Some(info)], parameters, parameterAnnotations, i + 1)
  {
  }

  /**
   * `getParamaterInfo(parameters, parameterAnnotations)`: the array is sized
   * by the annotation array and filled for each parameter, so missing
   * annotation rows throw and surplus ones stay null.
   */
  method ParameterInfos(parameters: seq<Type>, parameterAnnotations: seq<seq<Annotation>>) returns (r: Result<seq<Option<ParameterInfo>>>)
    ensures r.Throws? <==> |parameters| > |parameterAnnotations|
    ensures r.Throws? ==> r.exception == IndexOutOfBounds
    ensures r.Ok? ==> |r.value| == |parameterAnnotations|
    ensures r.Ok? ==> forall i :: 0 <= i < |parameters| ==> r.value[i] == Some(ParameterInfoFor(parameters[i], parameterAnnotations[i], i))
    ensures r.Ok? ==> forall i :: |parameters| <= i < |r.value| ==> r.value[i] == None
  {
    var parameterInfo := new Option<ParameterInfo>[|parameterAnnotations|](_ => None);
    for i := 0 to |parameters|
      invariant i <= parameterInfo.Length ==> FilledUpTo(parameterInfo[..], parameters, parameterAnnotations, i)
      invariant i <= parameterInfo.Length
    {
      if i >= |parameterAnnotations| {
        return Throws(IndexOutOfBounds);
      }
      var info := ParameterInfoFor(parameters[i], parameterAnnotations[i], i);
      ghost var before := parameterInfo[..];
      FillStep(before, parameters, parameterAnnotations, i, info);
      parameterInfo[i] := Some(info);
      assert parameterInfo[..] == before[i := Some(info)];
    }
    if |parameters| > |parameterAnnotations| {
      return Throws(IndexOutOfBounds);
    }
    r := Ok(parameterInfo[..]);
  }

  /**
   * `getMBeanFor(object)`: IllegalArgumentException without @JmxBean on the
   * object's class; any later failure (the MBeanInfo could not be built,
   * `info` is `Throws`, or a getter name does not fit) becomes
   * IllegalStateException. A returned MBean invokes on the object and holds
   * the info, the getters and setters `resolveGettersAndSetters` resolves
   * and the operations `getOperationsMap` keys.
   */
  method GetMBeanFor<V, I>(introspector: ClassIntrospector, jvm: Jvm, invoke: Invoker<V>, info: Result<I>)
    returns (r: Result<DynamicMBeanImpl<V, I>>)
    ensures r.Throws? && r.exception == IllegalArgument <==> !AnnotationPresent(introspector.target.annotations, JMX_BEAN)
    ensures r.Throws? && r.exception == IllegalState <==>
      AnnotationPresent(introspector.target.annotations, JMX_BEAN) &&
      (info.Throws? || exists g :: g in Found(introspector.runtime, introspector.target, GetterFilter(), jvm) && AttributeName(g.name).Throws?)
    ensures r.Throws? ==> r.exception in {IllegalArgument, IllegalState}
    ensures r.Ok? ==> info.Ok? && r.value.invoke == invoke && r.value.mBeanInfo == Some(info.value)
    ensures r.Ok? ==> var getterSet := Found(introspector.runtime, introspector.target, GetterFilter(), jvm);
      && r.value.getters.Some? && r.value.setters.Some?
      && GettersResolved(getterSet, r.value.getters.value)
      && SettersResolved(CandidatesOf(introspector.runtime, introspector.target, jvm), getterSet, r.value.getters.value, r.value.setters.value)
    ensures r.Ok? ==>
      && r.value.operations.Some?
      && OperationsResolved(Found(introspector.runtime, introspector.target, OperationFilter(), jvm), r.value.operations.value)
  {
    if !AnnotationPresent(introspector.target.annotations, JMX_BEAN) {
      return Throws(IllegalArgument);
    }
    var mbean := new DynamicMBeanImpl<V, I>(invoke);
    if info.Throws? {
      return Throws(IllegalState);
    }
    mbean.SetMBeanInfo(Some(info.value));
    var resolved := ResolveGettersAndSetters(introspector, jvm);
    if resolved.Throws? {
      return Throws(IllegalState);
    }
    mbean.SetGetters(Some(resolved.value.0));
    mbean.SetSetters(Some(resolved.value.1));
    var operations := GetOperationsMap(introspector, jvm);
    mbean.SetOperations(Some(operations));
    r := Ok(mbean);
  }
}
