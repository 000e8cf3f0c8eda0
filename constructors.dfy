/**
 * Constructor filters (org.kasource.commons.reflection.filter.constructors)
 * and the constructor-specific part of ConstructorFilterBuilder.
 */
module Constructors {
  import opened Java
  import opened Reflect
  import opened Filters
  import Modifiers
  import FilterBuilders
  import Classes

  /** The leaf constructor filters. */
  datatype ConstructorTest =
    | Modifier(mask: bv32)                                    // ModifierConstructorFilter
    | NumberOfParameters(count: int)                          // NumberOfParametersConstructorFilter
    | Signature(types: seq<Type>)                             // SignatureConstructorFilter
    | AssignableFromAt(index: nat, superType: Type)           // AssignableFromConstructorFilter(index, type)
    | AssignableFromAll(superTypes: seq<Type>)                // AssignableFromConstructorFilter(types...)
    | AssignableToAt(index: nat, baseType: Type)              // AssignableToConstructorFilter(index, type)
    | AssignableToAll(baseTypes: seq<Type>)                   // AssignableToConstructorFilter(types...)
    | ParameterClassAt(index: nat, classFilter: Classes.ClassFilter)   // ParameterClassFilterConstructorFilter(index, filter)
    | ParameterClasses(classFilters: seq<Classes.ClassFilter>)         // ParameterClassFilterConstructorFilter(filters...)
    | Annotated(annotation: string)                           // AnnotatedConstructorFilter
    | MetaAnnotated(meta: string)                             // MetaAnnotatedConstructorFilter

  type ConstructorFilter = Filter<ConstructorTest>

  predicate Test(t: ConstructorTest, c: Constructor, jvm: Jvm)
  {
    var params := c.parameterTypes;
    match t
    case Modifier(mask) => Modifiers.HasAny(c.modifiers, mask)
    case NumberOfParameters(n) => |params| == n
    case Signature(types) => params == types
    case AssignableFromAt(i, s) => if |params| - 1 < i then false else jvm.assignable(s, params[i])
    case AssignableFromAll(ss) => Pairwise(jvm.assignable, ss, params)
    case AssignableToAt(i, b) => if |params| - 1 < i then false else jvm.assignable(params[i], b)
    case AssignableToAll(bs) => Pairwise(jvm.assignable, params, bs)
    case ParameterClassAt(i, cf) => if |params| - 1 < i then false else Classes.Passes(cf, params[i], jvm)
    case ParameterClasses(cfs) => Pairwise(ClassVerdict(jvm), cfs, params)
    case Annotated(a) => AnnotationPresent(c.annotations, a)
    case MetaAnnotated(m) => MetaAnnotationPresent(c.annotations, m)
  }

  function ClassVerdict(jvm: Jvm): (Classes.ClassFilter, Type) -> bool
  {
    (cf, t) => Classes.Passes(cf, t, jvm)
  }

  function Tests(c: Constructor, jvm: Jvm): ConstructorTest -> bool
  {
    t => Test(t, c, jvm)
  }

  /** `ConstructorFilter.passFilter(c)` */
  predicate Passes(f: ConstructorFilter, c: Constructor, jvm: Jvm)
  {
    Filters.Passes(f, Tests(c, jvm))
  }

  /** Index mode of AssignableFromConstructorFilter: too few parameters fail, otherwise the given type must be assignable from the parameter. */
  lemma AssignableFromAtVerdict(i: nat, s: Type, c: Constructor, jvm: Jvm)
    ensures i >= |c.parameterTypes| ==> !Passes(Leaf(AssignableFromAt(i, s)), c, jvm)
    ensures i < |c.parameterTypes| ==> (Passes(Leaf(AssignableFromAt(i, s)), c, jvm) <==> jvm.assignable(s, c.parameterTypes[i]))
  {
  }

  /** Array mode of AssignableFromConstructorFilter: equal lengths and `given[j].isAssignableFrom(param[j])` at every position. */
  lemma AssignableFromAllVerdict(ss: seq<Type>, c: Constructor, jvm: Jvm)
    ensures Passes(Leaf(AssignableFromAll(ss)), c, jvm) <==>
      |ss| == |c.parameterTypes| && forall j :: 0 <= j < |ss| ==> jvm.assignable(ss[j], c.parameterTypes[j])
  {
    PairwiseIff(jvm.assignable, ss, c.parameterTypes);
  }

  /** Index mode of AssignableToConstructorFilter, the reverse direction: the parameter must be assignable from the given type. */
  lemma AssignableToAtVerdict(i: nat, b: Type, c: Constructor, jvm: Jvm)
    ensures i >= |c.parameterTypes| ==> !Passes(Leaf(AssignableToAt(i, b)), c, jvm)
    ensures i < |c.parameterTypes| ==> (Passes(Leaf(AssignableToAt(i, b)), c, jvm) <==> jvm.assignable(c.parameterTypes[i], b))
  {
  }

  /** Array mode of AssignableToConstructorFilter: equal lengths and `param[j].isAssignableFrom(given[j])` at every position. */
  lemma AssignableToAllVerdict(bs: seq<Type>, c: Constructor, jvm: Jvm)
    ensures Passes(Leaf(AssignableToAll(bs)), c, jvm) <==>
      |bs| == |c.parameterTypes| && forall j :: 0 <= j < |bs| ==> jvm.assignable(c.parameterTypes[j], bs[j])
  {
    PairwiseIff(jvm.assignable, c.parameterTypes, bs);
  }

  /** The array mode is the index mode at every position of a signature of the same length. */
  lemma AssignableFromModesAgree(ss: seq<Type>, c: Constructor, jvm: Jvm)
    ensures Passes(Leaf(AssignableFromAll(ss)), c, jvm) <==>
      |ss| == |c.parameterTypes| && forall j :: 0 <= j < |ss| ==> Passes(Leaf(AssignableFromAt(j, ss[j])), c, jvm)
  {
    AssignableFromAllVerdict(ss, c, jvm);
  }

  /** ParameterClassFilterConstructorFilter in index mode: too few parameters fail, otherwise the class filter decides on that parameter. */
  lemma ParameterClassAtVerdict(i: nat, cf: Classes.ClassFilter, c: Constructor, jvm: Jvm)
    ensures i >= |c.parameterTypes| ==> !Passes(Leaf(ParameterClassAt(i, cf)), c, jvm)
    ensures i < |c.parameterTypes| ==> (Passes(Leaf(ParameterClassAt(i, cf)), c, jvm) <==> Classes.Passes(cf, c.parameterTypes[i], jvm))
  {
  }

  /** List mode: the filter count must equal the parameter count and `filters[j]` must pass `param[j]`; no filters on a no-argument constructor pass. */
  lemma ParameterClassesVerdict(cfs: seq<Classes.ClassFilter>, c: Constructor, jvm: Jvm)
    ensures Passes(Leaf(ParameterClasses(cfs)), c, jvm) <==>
      |cfs| == |c.parameterTypes| && forall j :: 0 <= j < |cfs| ==> Classes.Passes(cfs[j], c.parameterTypes[j], jvm)
    ensures cfs == [] && c.parameterTypes == [] ==> Passes(Leaf(ParameterClasses(cfs)), c, jvm)
  {
    PairwiseIff(ClassVerdict(jvm), cfs, c.parameterTypes);
  }

  /**
   * SignatureConstructorFilter passes exactly the constructors with that
   * parameter type sequence: a shorter or longer signature, or one differing
   * type, fails. An exact signature also passes the count filter for its
   * length.
   */
  lemma SignatureVerdict(types: seq<Type>, c: Constructor, jvm: Jvm)
    ensures Passes(Leaf(Signature(types)), c, jvm) <==> c.parameterTypes == types
    ensures |types| != |c.parameterTypes| ==> !Passes(Leaf(Signature(types)), c, jvm)
    ensures (exists j :: 0 <= j < |types| && j < |c.parameterTypes| && types[j] != c.parameterTypes[j]) ==> !Passes(Leaf(Signature(types)), c, jvm)
    ensures Passes(Leaf(Signature(types)), c, jvm) ==> Passes(Leaf(NumberOfParameters(|types|)), c, jvm)
  {
  }

  /** NumberOfParametersConstructorFilter looks at the parameter count only. */
  lemma CountOnlyMatters(n: int, c: Constructor, d: Constructor, jvm: Jvm)
    requires |c.parameterTypes| == |d.parameterTypes|
    ensures Passes(Leaf(NumberOfParameters(n)), c, jvm) == Passes(Leaf(NumberOfParameters(n)), d, jvm)
    ensures Passes(Leaf(NumberOfParameters(n)), c, jvm) <==> |c.parameterTypes| == n
  {
  }

  /**
   * ModifierConstructorFilter: with a mask that leaves the sign bit clear, a
   * constructor passes exactly when it shares a bit with the mask; a public
   * constructor passes the PUBLIC mask, a private one fails it, and mask 0
   * never passes.
   */
  lemma ModifierVerdict(mask: bv32, c: Constructor, jvm: Jvm)
    ensures mask & Modifiers.SIGN == 0 ==>
      (Passes(Leaf(Modifier(mask)), c, jvm) <==> c.modifiers & mask != 0)
    ensures c.modifiers == Modifiers.PUBLIC ==> Passes(Leaf(Modifier(Modifiers.PUBLIC)), c, jvm)
    ensures c.modifiers == Modifiers.PRIVATE ==> !Passes(Leaf(Modifier(Modifiers.PUBLIC)), c, jvm)
    ensures !Passes(Leaf(Modifier(0)), c, jvm)
  {
    Modifiers.HasAnyIff(c.modifiers, mask);
  }

  /** ConstructorFilterList: conjunction of its filters. */
  lemma ListIsConjunction(fs: seq<ConstructorFilter>, c: Constructor, jvm: Jvm)
    ensures Passes(FilterList(fs), c, jvm) <==> forall j :: 0 <= j < |fs| ==> Passes(fs[j], c, jvm)
  {
    ListPassesIffAll(fs, Tests(c, jvm));
  }

  /** A first failure decides: no filter after it can change the verdict. */
  lemma ListStopsAtFirstFailure(fs: seq<ConstructorFilter>, k: nat, rest: seq<ConstructorFilter>, c: Constructor, jvm: Jvm)
    requires k < |fs| && !Passes(fs[k], c, jvm)
    ensures !Passes(FilterList(fs), c, jvm)
    ensures !Passes(FilterList(fs[..k + 1] + rest), c, jvm)
  {
    StopsAtFirstFailure(fs, k, rest, Tests(c, jvm));
  }

  /** What `isDefault()` adds: NOT of a modifier filter with mask `PUBLIC & PROTECTED & PRIVATE`. */
  function DefaultFilter(): ConstructorFilter
  {
    Negation(Leaf(Modifier(Modifiers.DEFAULT_ACCESS_MASK)))
  }

  lemma DefaultFilterPassesEveryConstructor(c: Constructor, jvm: Jvm)
    ensures Passes(DefaultFilter(), c, jvm)
  {
    Modifiers.DefaultAccessMaskIsZero();
    Modifiers.ZeroMaskNeverPasses(c.modifiers);
  }

  /** A public constructor passes `isDefault()`. */
  lemma PublicConstructorPassesDefault(c: Constructor, jvm: Jvm)
    requires c.modifiers & Modifiers.PUBLIC != 0
    ensures Passes(DefaultFilter(), c, jvm) && !Modifiers.IsPackagePrivate(c.modifiers)
  {
    DefaultFilterPassesEveryConstructor(c, jvm);
  }

  /** Package-private access as evidently intended. */
  function PackagePrivateFilter(): ConstructorFilter
  {
    Negation(Leaf(Modifier(Modifiers.PUBLIC | Modifiers.PROTECTED | Modifiers.PRIVATE)))
  }

  lemma PackagePrivateFilterIff(c: Constructor, jvm: Jvm)
    ensures Passes(PackagePrivateFilter(), c, jvm) <==> Modifiers.IsPackagePrivate(c.modifiers)
  {
    Modifiers.HasAnyIff(c.modifiers, Modifiers.PUBLIC | Modifiers.PROTECTED | Modifiers.PRIVATE);
  }

  /**
   * `ConstructorFilterBuilder.isDefault()` as written: it adds `DefaultFilter()`, the NOT of a modifier
   * filter with mask 0, so the filter it contributes passes every constructor.
   */
  method IsDefault(b: FilterBuilders.FilterBuilder<ConstructorTest>) returns (thrown: Option<Exception>)
    modifies b
    ensures FilterBuilders.Add(old(b.Current()), DefaultFilter()).Ok? ==>
      thrown == None && b.Current() == FilterBuilders.Add(old(b.Current()), DefaultFilter()).value
    ensures FilterBuilders.Add(old(b.Current()), DefaultFilter()).Throws? ==>
      thrown == Some(IndexOutOfBounds) && b.Current() == old(b.Current())
  {
    thrown := b.AddFilter(DefaultFilter());
  }

  /**
   * `ConstructorFilterBuilder.isDefault()` as evidently intended: the same NOT of a modifier filter, its
   * mask the union of the three access bits, so that only package-private
   * constructors pass.
   */
  method IsDefaultIntended(b: FilterBuilders.FilterBuilder<ConstructorTest>) returns (thrown: Option<Exception>)
    modifies b
    ensures FilterBuilders.Add(old(b.Current()), PackagePrivateFilter()).Ok? ==>
      thrown == None && b.Current() == FilterBuilders.Add(old(b.Current()), PackagePrivateFilter()).value
    ensures FilterBuilders.Add(old(b.Current()), PackagePrivateFilter()).Throws? ==>
      thrown == Some(IndexOutOfBounds) && b.Current() == old(b.Current())
  {
    thrown := b.AddFilter(PackagePrivateFilter());
  }

  /**
   * The builder examples: `not().isPublic()` builds one Negation,
   * `isPublic().or().isPrivate().or().isProtected()` one left-folded Or,
   * and two plain filters an AND list.
   */
  lemma BuilderShapes(f: ConstructorFilter, g: ConstructorFilter)
    ensures FilterBuilders.Run(FilterBuilders.State([], FilterBuilders.NONE),
              [FilterBuilders.NotCall, FilterBuilders.AddCall(Leaf(Modifier(Modifiers.PUBLIC)))])
         == Ok(FilterBuilders.State([Negation(Leaf(Modifier(Modifiers.PUBLIC)))], FilterBuilders.NONE))
    ensures FilterBuilders.Run(FilterBuilders.State([], FilterBuilders.NONE),
              [FilterBuilders.AddCall(Leaf(Modifier(Modifiers.PUBLIC))), FilterBuilders.OrCall,
               FilterBuilders.AddCall(Leaf(Modifier(Modifiers.PRIVATE))), FilterBuilders.OrCall,
               FilterBuilders.AddCall(Leaf(Modifier(Modifiers.PROTECTED)))])
         == Ok(FilterBuilders.State([Or(Or(Leaf(Modifier(Modifiers.PUBLIC)), Leaf(Modifier(Modifiers.PRIVATE))), Leaf(Modifier(Modifiers.PROTECTED)))], FilterBuilders.NONE))
    ensures FilterBuilders.Build(FilterBuilders.State([f, g], FilterBuilders.NONE)) == Ok(FilterList([f, g]))
  {
    var e := FilterBuilders.State([], FilterBuilders.NONE);
    var pub := Leaf(Modifier(Modifiers.PUBLIC));
    FilterBuilders.RunFirst(FilterBuilders.State([], FilterBuilders.NOT), FilterBuilders.AddCall(pub), []);
    FilterBuilders.RunFirst(e, FilterBuilders.NotCall, [FilterBuilders.AddCall(pub)]);
    assert [FilterBuilders.NotCall] + [FilterBuilders.AddCall(pub)] == [FilterBuilders.NotCall, FilterBuilders.AddCall(pub)];
    assert [FilterBuilders.AddCall(pub)] + [] == [FilterBuilders.AddCall(pub)];
    assert [] + [Negation(pub)] == [Negation(pub)];
    var ored := Or(Or(pub, Leaf(Modifier(Modifiers.PRIVATE))), Leaf(Modifier(Modifiers.PROTECTED)));
    FilterBuilders.OrFoldsLeft(e, pub, Leaf(Modifier(Modifiers.PRIVATE)), Leaf(Modifier(Modifiers.PROTECTED)));
    assert e.filters + [ored] == [ored];
  }
}
