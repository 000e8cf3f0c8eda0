/**
 * Class filters (org.kasource.commons.reflection.filter.classes) and the
 * class-specific part of ClassFilterBuilder.
 */
module Classes {
  import opened Java
  import opened Reflect
  import opened Filters
  import Modifiers
  import FilterBuilders

  /** The leaf class filters. */
  datatype ClassTest =
    | Modifier(mask: bv32)          // ModifierClassFilter
    | Kind(flag: ClassFlag)         // IsInterface/IsAnnotation/IsAnonymous/... ClassFilter
    | ExtendsType(superType: Type)  // AssignableFromClassFilter
    | SuperType(extendedType: Type) // AssignableToClassFilter
    | Annotated(annotation: string) // AnnotationClassFilter
    | MetaAnnotated(meta: string)   // MetaAnnotatedClassFilter
    | Name(regex: string)           // NameClassFilter

  type ClassFilter = Filter<ClassTest>

  predicate Test(t: ClassTest, c: Type, jvm: Jvm)
  {
    match t
    case Modifier(mask) => Modifiers.HasAny(c.modifiers, mask)
    case Kind(flag) => flag in c.flags
    case ExtendsType(s) => jvm.assignable(s, c)
    case SuperType(e) => jvm.assignable(c, e)
    case Annotated(a) => AnnotationPresent(c.annotations, a)
    case MetaAnnotated(m) => MetaAnnotationPresent(c.annotations, m)
    case Name(rx) => jvm.matches(c.name, rx)
  }

  function Tests(c: Type, jvm: Jvm): ClassTest -> bool
  {
    t => Test(t, c, jvm)
  }

  /** `ClassFilter.passFilter(c)` */
  predicate Passes(f: ClassFilter, c: Type, jvm: Jvm)
  {
    Filters.Passes(f, Tests(c, jvm))
  }

  /** ClassFilterList passes a class exactly when each of its filters does. */
  lemma ListIsConjunction(fs: seq<ClassFilter>, c: Type, jvm: Jvm)
    ensures Passes(FilterList(fs), c, jvm) <==> forall j :: 0 <= j < |fs| ==> Passes(fs[j], c, jvm)
  {
    ListPassesIffAll(fs, Tests(c, jvm));
  }

  /** ModifierClassFilter: passes when a mask bit below the sign bit is shared, fails when none is. */
  lemma ModifierVerdict(mask: bv32, c: Type, jvm: Jvm)
    ensures mask & Modifiers.SIGN == 0 ==>
      (Passes(Leaf(Modifier(mask)), c, jvm) <==> c.modifiers & mask != 0)
    ensures !Passes(Leaf(Modifier(0)), c, jvm)
  {
    Modifiers.HasAnyIff(c.modifiers, mask);
  }

  /** What `isDefault()` adds: NOT of a modifier filter with mask `PUBLIC & PROTECTED & PRIVATE`. */
  function DefaultFilter(): ClassFilter
  {
    Negation(Leaf(Modifier(Modifiers.DEFAULT_ACCESS_MASK)))
  }

  /** The mask is 0, so the modifier filter never passes and its negation passes every class. */
  lemma DefaultFilterPassesEveryClass(c: Type, jvm: Jvm)
    ensures Passes(DefaultFilter(), c, jvm)
  {
    Modifiers.DefaultAccessMaskIsZero();
    Modifiers.ZeroMaskNeverPasses(c.modifiers);
  }

  /** A public class (not package-private) passes `isDefault()`. */
  lemma PublicClassPassesDefault(c: Type, jvm: Jvm)
    requires c.modifiers & Modifiers.PUBLIC != 0
    ensures Passes(DefaultFilter(), c, jvm) && !Modifiers.IsPackagePrivate(c.modifiers)
  {
    DefaultFilterPassesEveryClass(c, jvm);
  }

  /** Package-private access as evidently intended: none of PUBLIC, PROTECTED, PRIVATE. */
  function PackagePrivateFilter(): ClassFilter
  {
    Negation(Leaf(Modifier(Modifiers.PUBLIC | Modifiers.PROTECTED | Modifiers.PRIVATE)))
  }

  lemma PackagePrivateFilterIff(c: Type, jvm: Jvm)
    ensures Passes(PackagePrivateFilter(), c, jvm) <==> Modifiers.IsPackagePrivate(c.modifiers)
  {
    Modifiers.HasAnyIff(c.modifiers, Modifiers.PUBLIC | Modifiers.PROTECTED | Modifiers.PRIVATE);
  }

  /**
   * `ClassFilterBuilder.isDefault()` as written: it adds `DefaultFilter()`, the NOT of a modifier
   * filter with mask 0, so the filter it contributes passes every class.
   */
  method IsDefault(b: FilterBuilders.FilterBuilder<ClassTest>) returns (thrown: Option<Exception>)
    modifies b
    ensures FilterBuilders.Add(old(b.Current()), DefaultFilter()).Ok? ==>
      thrown == None && b.Current() == FilterBuilders.Add(old(b.Current()), DefaultFilter()).value
    ensures FilterBuilders.Add(old(b.Current()), DefaultFilter()).Throws? ==>
      thrown == Some(IndexOutOfBounds) && b.Current() == old(b.Current())
  {
    thrown := b.AddFilter(DefaultFilter());
  }

  /**
   * `ClassFilterBuilder.isDefault()` as evidently intended: the same NOT of a modifier filter, its
   * mask the union of the three access bits, so that only package-private
   * classes pass.
   */
  method IsDefaultIntended(b: FilterBuilders.FilterBuilder<ClassTest>) returns (thrown: Option<Exception>)
    modifies b
    ensures FilterBuilders.Add(old(b.Current()), PackagePrivateFilter()).Ok? ==>
      thrown == None && b.Current() == FilterBuilders.Add(old(b.Current()), PackagePrivateFilter()).value
    ensures FilterBuilders.Add(old(b.Current()), PackagePrivateFilter()).Throws? ==>
      thrown == Some(IndexOutOfBounds) && b.Current() == old(b.Current())
  {
    thrown := b.AddFilter(PackagePrivateFilter());
  }
}
