/**
 * Method filters (org.kasource.commons.reflection.filter.methods).
 */
module Methods {
  import opened Java
  import opened Reflect
  import opened Filters
  import Modifiers

  /** The leaf method filters. */
  datatype MethodTest =
    | Modifier(mask: bv32)                           // ModifierMethodFilter
    | NumberOfParameters(count: int)                 // NumberOfParametersMethodFilter
    | Signature(types: seq<Type>)                    // SignatureMethodFilter
    | AssignableFromAt(index: nat, superType: Type)  // AssignableFromMethodFilter(index, type)
    | AssignableFromAll(superTypes: seq<Type>)       // AssignableFromMethodFilter(types...)
    | AssignableToAt(index: nat, baseType: Type)     // AssignableToMethodFilter(index, type)
    | AssignableToAll(baseTypes: seq<Type>)          // AssignableToMethodFilter(types...)
    | Name(regex: string)                            // NameMethodFilter
    | Annotated(annotation: string)                  // AnnotatedMethodFilter
    | MetaAnnotated(meta: string)                    // MetaAnnotatedMethodFilter
    | ReturnType(returnType: Type)                   // ReturnTypeMethodFilter
    | ReturnTypeAssignableFrom(superType: Type)      // ReturnTypeAssignableFromMethodFilter

  type MethodFilter = Filter<MethodTest>

  predicate Test(t: MethodTest, m: Method, jvm: Jvm)
  {
    var params := m.parameterTypes;
    match t
    case Modifier(mask) => Modifiers.HasAny(m.modifiers, mask)
    case NumberOfParameters(n) => |params| == n
    case Signature(types) => params == types
    case AssignableFromAt(i, s) => if |params| - 1 < i then false else jvm.assignable(s, params[i])
    case AssignableFromAll(ss) => Pairwise(jvm.assignable, ss, params)
    case AssignableToAt(i, b) => if |params| - 1 < i then false else jvm.assignable(params[i], b)
    case AssignableToAll(bs) => Pairwise(jvm.assignable, params, bs)
    case Name(rx) => jvm.matches(m.name, rx)
    case Annotated(a) => AnnotationPresent(m.annotations, a)
    case MetaAnnotated(meta) => MetaAnnotationPresent(m.annotations, meta)
    case ReturnType(r) => m.returnType == r
    case ReturnTypeAssignableFrom(s) => jvm.assignable(s, m.returnType)
  }

  function Tests(m: Method, jvm: Jvm): MethodTest -> bool
  {
    t => Test(t, m, jvm)
  }

  /** `MethodFilter.passFilter(m)` */
  predicate Passes(f: MethodFilter, m: Method, jvm: Jvm)
  {
    Filters.Passes(f, Tests(m, jvm))
  }

  /** The filter as a predicate on methods, the form ClassIntrospector consumes. */
  function Accepts(f: MethodFilter, jvm: Jvm): Method -> bool
  {
    m => Passes(f, m, jvm)
  }

  /** AssignableFromMethodFilter, index mode: too few parameters fail, otherwise the given type must be assignable from that parameter. */
  lemma AssignableFromAtVerdict(i: nat, s: Type, m: Method, jvm: Jvm)
    ensures i >= |m.parameterTypes| ==> !Passes(Leaf(AssignableFromAt(i, s)), m, jvm)
    ensures i < |m.parameterTypes| ==> (Passes(Leaf(AssignableFromAt(i, s)), m, jvm) <==> jvm.assignable(s, m.parameterTypes[i]))
  {
  }

  /** AssignableFromMethodFilter, array mode: any length mismatch fails, otherwise every position must be assignable-from. */
  lemma AssignableFromAllVerdict(ss: seq<Type>, m: Method, jvm: Jvm)
    ensures Passes(Leaf(AssignableFromAll(ss)), m, jvm) <==>
      |ss| == |m.parameterTypes| && forall j :: 0 <= j < |ss| ==> jvm.assignable(ss[j], m.parameterTypes[j])
  {
    PairwiseIff(jvm.assignable, ss, m.parameterTypes);
  }

  /** AssignableToMethodFilter, index mode: the parameter must be assignable from the given type. */
  lemma AssignableToAtVerdict(i: nat, b: Type, m: Method, jvm: Jvm)
    ensures i >= |m.parameterTypes| ==> !Passes(Leaf(AssignableToAt(i, b)), m, jvm)
    ensures i < |m.parameterTypes| ==> (Passes(Leaf(AssignableToAt(i, b)), m, jvm) <==> jvm.assignable(m.parameterTypes[i], b))
  {
  }

  /** AssignableToMethodFilter, array mode: a length mismatch in either direction fails, otherwise every parameter must be assignable from the given type at its position. */
  lemma AssignableToAllVerdict(bs: seq<Type>, m: Method, jvm: Jvm)
    ensures Passes(Leaf(AssignableToAll(bs)), m, jvm) <==>
      |bs| == |m.parameterTypes| && forall j :: 0 <= j < |bs| ==> jvm.assignable(m.parameterTypes[j], bs[j])
  {
    PairwiseIff(jvm.assignable, m.parameterTypes, bs);
  }

  /** SignatureMethodFilter: exactly the methods with that parameter type sequence. */
  lemma SignatureVerdict(types: seq<Type>, m: Method, jvm: Jvm)
    ensures Passes(Leaf(Signature(types)), m, jvm) <==> m.parameterTypes == types
    ensures |types| != |m.parameterTypes| ==> !Passes(Leaf(Signature(types)), m, jvm)
    ensures (exists j :: 0 <= j < |types| && j < |m.parameterTypes| && types[j] != m.parameterTypes[j]) ==> !Passes(Leaf(Signature(types)), m, jvm)
  {
  }

  /** NumberOfParametersMethodFilter: the count alone decides; n+1 and n-1 parameters fail. */
  lemma CountVerdict(n: int, m: Method, other: Method, jvm: Jvm)
    ensures Passes(Leaf(NumberOfParameters(n)), m, jvm) <==> |m.parameterTypes| == n
    ensures |m.parameterTypes| == n + 1 || |m.parameterTypes| == n - 1 ==> !Passes(Leaf(NumberOfParameters(n)), m, jvm)
    ensures |m.parameterTypes| == |other.parameterTypes| ==>
      Passes(Leaf(NumberOfParameters(n)), m, jvm) == Passes(Leaf(NumberOfParameters(n)), other, jvm)
  {
  }

  /**
   * ModifierMethodFilter: with a mask that leaves the sign bit clear, a
   * member passes exactly when it shares a bit with the mask, so a multi-bit
   * mask passes on any one bit and fails only when no bit is shared; mask 0
   * never passes.
   */
  lemma ModifierVerdict(mask: bv32, m: Method, jvm: Jvm)
    ensures mask & Modifiers.SIGN == 0 ==>
      (Passes(Leaf(Modifier(mask)), m, jvm) <==> m.modifiers & mask != 0)
    ensures !Passes(Leaf(Modifier(0)), m, jvm)
  {
    Modifiers.HasAnyIff(m.modifiers, mask);
  }

  /** MethodFilterList: conjunction of its filters. */
  lemma ListIsConjunction(fs: seq<MethodFilter>, m: Method, jvm: Jvm)
    ensures Passes(FilterList(fs), m, jvm) <==> forall j :: 0 <= j < |fs| ==> Passes(fs[j], m, jvm)
  {
    ListPassesIffAll(fs, Tests(m, jvm));
  }

  /** MethodFilterList stops at the first failure: no filter after it is consulted. */
  lemma ListStopsAtFirstFailure(fs: seq<MethodFilter>, k: nat, rest: seq<MethodFilter>, m: Method, jvm: Jvm)
    requires k < |fs| && !Passes(fs[k], m, jvm)
    ensures !Passes(FilterList(fs), m, jvm)
    ensures !Passes(FilterList(fs[..k + 1] + rest), m, jvm)
  {
    StopsAtFirstFailure(fs, k, rest, Tests(m, jvm));
  }
}
