/**
 * Field filters (org.kasource.commons.reflection.filter.fields) and the
 * field-specific part of the two FieldFilterBuilder classes, which are
 * copies of each other.
 */
module Fields {
  import opened Java
  import opened Reflect
  import opened Filters
  import Modifiers
  import FilterBuilders
  import Classes

  /** The leaf field filters. */
  datatype FieldTest =
    | Modifier(mask: bv32)                      // ModifierFieldFilter
    | Name(regex: string)                       // NameFieldFilter
    | Annotated(annotation: string)             // AnnotatedFieldFilter
    | MetaAnnotated(meta: string)               // MetaAnnotatedFieldFilter
    | ExtendsType(superType: Type)              // AssignableFromFieldFilter
    | SuperType(extendedType: Type)             // AssignableToFieldFilter
    | FieldClass(classFilter: Classes.ClassFilter)  // FieldClassFieldFilter
    | IsEnumConstant                            // IsEnumConstantFieldFilter

  type FieldFilter = Filter<FieldTest>

  predicate Test(t: FieldTest, f: Field, jvm: Jvm)
  {
    match t
    case Modifier(mask) => Modifiers.HasAny(f.modifiers, mask)
    case Name(rx) => jvm.matches(f.name, rx)
    case Annotated(a) => AnnotationPresent(f.annotations, a)
    case MetaAnnotated(m) => MetaAnnotationPresent(f.annotations, m)
    case ExtendsType(s) => jvm.assignable(s, f.fieldType)
    case SuperType(e) => jvm.assignable(f.fieldType, e)
    case FieldClass(cf) => Classes.Passes(cf, f.fieldType, jvm)
    case IsEnumConstant => f.isEnumConstant
  }

  function Tests(f: Field, jvm: Jvm): FieldTest -> bool
  {
    t => Test(t, f, jvm)
  }

  /** `FieldFilter.passFilter(f)` */
  predicate Passes(filter: FieldFilter, f: Field, jvm: Jvm)
  {
    Filters.Passes(filter, Tests(f, jvm))
  }

  /** The filter as a predicate on fields, the form ClassIntrospector consumes. */
  function Accepts(filter: FieldFilter, jvm: Jvm): Field -> bool
  {
    f => Passes(filter, f, jvm)
  }

  /**
   * ModifierFieldFilter: with a mask that leaves the sign bit clear, any one
   * shared bit suffices and no shared bit fails; mask 0 never passes.
   */
  lemma ModifierVerdict(mask: bv32, f: Field, jvm: Jvm)
    ensures mask & Modifiers.SIGN == 0 ==>
      (Passes(Leaf(Modifier(mask)), f, jvm) <==> f.modifiers & mask != 0)
    ensures !Passes(Leaf(Modifier(0)), f, jvm)
  {
    Modifiers.HasAnyIff(f.modifiers, mask);
  }

  /** FieldFilterList: conjunction of its filters. */
  lemma ListIsConjunction(fs: seq<FieldFilter>, f: Field, jvm: Jvm)
    ensures Passes(FilterList(fs), f, jvm) <==> forall j :: 0 <= j < |fs| ==> Passes(fs[j], f, jvm)
  {
    ListPassesIffAll(fs, Tests(f, jvm));
  }

  /** FieldFilterList stops at the first failure: no filter after it is consulted. */
  lemma ListStopsAtFirstFailure(fs: seq<FieldFilter>, k: nat, rest: seq<FieldFilter>, f: Field, jvm: Jvm)
    requires k < |fs| && !Passes(fs[k], f, jvm)
    ensures !Passes(FilterList(fs), f, jvm)
    ensures !Passes(FilterList(fs[..k + 1] + rest), f, jvm)
  {
    StopsAtFirstFailure(fs, k, rest, Tests(f, jvm));
  }

  /** What `isDefault()` adds: NOT of a modifier filter with mask `PUBLIC & PROTECTED & PRIVATE`. */
  function DefaultFilter(): FieldFilter
  {
    Negation(Leaf(Modifier(Modifiers.DEFAULT_ACCESS_MASK)))
  }

  lemma DefaultFilterPassesEveryField(f: Field, jvm: Jvm)
    ensures Passes(DefaultFilter(), f, jvm)
  {
    Modifiers.DefaultAccessMaskIsZero();
    Modifiers.ZeroMaskNeverPasses(f.modifiers);
  }

  /** A public field passes `isDefault()`. */
  lemma PublicFieldPassesDefault(f: Field, jvm: Jvm)
    requires f.modifiers & Modifiers.PUBLIC != 0
    ensures Passes(DefaultFilter(), f, jvm) && !Modifiers.IsPackagePrivate(f.modifiers)
  {
    DefaultFilterPassesEveryField(f, jvm);
  }

  /** Package-private access as evidently intended. */
  function PackagePrivateFilter(): FieldFilter
  {
    Negation(Leaf(Modifier(Modifiers.PUBLIC | Modifiers.PROTECTED | Modifiers.PRIVATE)))
  }

  lemma PackagePrivateFilterIff(f: Field, jvm: Jvm)
    ensures Passes(PackagePrivateFilter(), f, jvm) <==> Modifiers.IsPackagePrivate(f.modifiers)
  {
    Modifiers.HasAnyIff(f.modifiers, Modifiers.PUBLIC | Modifiers.PROTECTED | Modifiers.PRIVATE);
  }

  /**
   * `FieldFilterBuilder.isDefault()` (both copies) as written: it adds `DefaultFilter()`, the NOT of a modifier
   * filter with mask 0, so the filter it contributes passes every field.
   */
  method IsDefault(b: FilterBuilders.FilterBuilder<FieldTest>) returns (thrown: Option<Exception>)
    modifies b
    ensures FilterBuilders.Add(old(b.Current()), DefaultFilter()).Ok? ==>
      thrown == None && b.Current() == FilterBuilders.Add(old(b.Current()), DefaultFilter()).value
    ensures FilterBuilders.Add(old(b.Current()), DefaultFilter()).Throws? ==>
      thrown == Some(IndexOutOfBounds) && b.Current() == old(b.Current())
  {
    thrown := b.AddFilter(DefaultFilter());
  }

  /**
   * `FieldFilterBuilder.isDefault()` (both copies) as evidently intended: the same NOT of a modifier filter, its
   * mask the union of the three access bits, so that only package-private
   * fields pass.
   */
  method IsDefaultIntended(b: FilterBuilders.FilterBuilder<FieldTest>) returns (thrown: Option<Exception>)
    modifies b
    ensures FilterBuilders.Add(old(b.Current()), PackagePrivateFilter()).Ok? ==>
      thrown == None && b.Current() == FilterBuilders.Add(old(b.Current()), PackagePrivateFilter()).value
    ensures FilterBuilders.Add(old(b.Current()), PackagePrivateFilter()).Throws? ==>
      thrown == Some(IndexOutOfBounds) && b.Current() == old(b.Current())
  {
    thrown := b.AddFilter(PackagePrivateFilter());
  }
}
