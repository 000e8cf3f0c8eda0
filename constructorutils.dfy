/**
 * org.kasource.commons.util.reflection.ConstructorUtils: selecting the
 * public constructors of a class by a constructor filter. Filters are
 * given as predicates (for example `Constructors.Accepts(f, jvm)`).
 */
module ConstructorUtils {
  import opened Java
  import opened Reflect
  import opened Selection

  /** `getConstructors(clazz, filter)`: exactly the public constructors that pass the filter. */
  method GetConstructors(rt: Runtime, clazz: Type, accept: Constructor -> bool) returns (cons: set<Constructor>)
    ensures cons == Passing(rt.MembersOf(clazz).constructors, accept)
  {
    cons := CollectPassing(rt.MembersOf(clazz).constructors, accept);
  }

  /** `getConstructor(clazz, filter)`: some passing constructor, or IllegalArgumentException when none passes. */
  method GetConstructor(rt: Runtime, clazz: Type, accept: Constructor -> bool) returns (r: Result<Constructor>)
    ensures r.Throws? <==> forall i :: 0 <= i < |rt.MembersOf(clazz).constructors| ==> !accept(rt.MembersOf(clazz).constructors[i])
    ensures r.Throws? ==> r.exception == IllegalArgument
    ensures r.Ok? ==> r.value in Passing(rt.MembersOf(clazz).constructors, accept)
  {
    var cons := GetConstructors(rt, clazz, accept);
    if cons == {} {
      ghost var all := rt.MembersOf(clazz).constructors;
      assert forall i :: 0 <= i < |all| ==> all[i] !in cons;
      return Throws(IllegalArgument);
    }
    var c :| c in cons;
    r := Ok(c);
  }

  /** A filter that rejects everything gives the empty set, not an error. */
  lemma RejectingFilterGivesEmpty(rt: Runtime, clazz: Type, accept: Constructor -> bool)
    requires forall c :: !accept(c)
    ensures Passing(rt.MembersOf(clazz).constructors, accept) == {}
  {
  }
}
