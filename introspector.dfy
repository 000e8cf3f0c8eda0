/**
 * org.kasource.commons.reflection.ClassIntrospector: the members and
 * interfaces of a target class that pass a filter, either declared by the
 * target itself or collected up its superclass chain. Filters are given as
 * predicates (for example `Methods.Accepts(f, jvm)`); the class metadata
 * comes from `runtime`.
 */
module Introspection {
  import opened Java
  import opened Reflect
  import opened Selection

  /** The declared methods of each class that pass `accept`. */
  function MethodsPassing(rt: Runtime, accept: Method -> bool): Type -> set<Method>
  {
    (t: Type) => Passing(rt.MembersOf(t).methods, accept)
  }

  /** The direct interfaces of each class that pass `accept`. */
  function InterfacesPassing(accept: Type -> bool): Type -> set<Type>
  {
    (t: Type) => Passing(t.interfaces, accept)
  }

  /** The declared fields of each class that pass `accept`. */
  function FieldsPassing(rt: Runtime, accept: Field -> bool): Type -> set<Field>
  {
    (t: Type) => Passing(rt.MembersOf(t).fields, accept)
  }

  /**
   * `getMethods`: a method is found exactly when some class of the
   * superclass chain declares it and it passes; the declared matches are
   * among the found ones.
   */
  lemma MethodsOverChain(rt: Runtime, c: Type, accept: Method -> bool, m: Method)
    ensures m in Inherited(c, MethodsPassing(rt, accept)) <==>
      accept(m) && exists i :: 0 <= i < |Superclasses(c)| && m in rt.MembersOf(Superclasses(c)[i]).methods
    ensures Passing(rt.MembersOf(c).methods, accept) <= Inherited(c, MethodsPassing(rt, accept))
  {
    InheritedIff(c, MethodsPassing(rt, accept), m);
  }

  /** `getInterfaces`: the filtered direct interfaces of the classes of the chain, and nothing else. */
  lemma InterfacesOverChain(c: Type, accept: Type -> bool, x: Type)
    ensures x in Inherited(c, InterfacesPassing(accept)) <==>
      accept(x) && exists i :: 0 <= i < |Superclasses(c)| && x in Superclasses(c)[i].interfaces
    ensures Passing(c.interfaces, accept) <= Inherited(c, InterfacesPassing(accept))
  {
    InheritedIff(c, InterfacesPassing(accept), x);
  }

  /** `getFields`: a field is found exactly when some class of the chain declares it and it passes. */
  lemma FieldsOverChain(rt: Runtime, c: Type, accept: Field -> bool, f: Field)
    ensures f in Inherited(c, FieldsPassing(rt, accept)) <==>
      accept(f) && exists i :: 0 <= i < |Superclasses(c)| && f in rt.MembersOf(Superclasses(c)[i]).fields
    ensures Passing(rt.MembersOf(c).fields, accept) <= Inherited(c, FieldsPassing(rt, accept))
  {
    InheritedIff(c, FieldsPassing(rt, accept), f);
  }

  class ClassIntrospector {
    const target: Type
    const runtime: Runtime

    constructor (target: Type, runtime: Runtime)
      ensures this.target == target && this.runtime == runtime
    {
      this.target := target;
      this.runtime := runtime;
    }

    /** `getDeclaredMethod(name, params)`: a declared method with that name and parameter list, else IllegalArgumentException. */
    method GetDeclaredMethod(name: string, params: seq<Type>) returns (r: Result<Method>)
      ensures r.Ok? ==> r.value in runtime.MembersOf(target).methods && r.value.name == name && r.value.parameterTypes == params
      ensures r.Throws? <==> forall i :: 0 <= i < |runtime.MembersOf(target).methods| ==>
        !(runtime.MembersOf(target).methods[i].name == name && runtime.MembersOf(target).methods[i].parameterTypes == params)
      ensures r.Throws? ==> r.exception == IllegalArgument
    {
      var methods := runtime.MembersOf(target).methods;
      if exists m :: m in methods && m.name == name && m.parameterTypes == params {
        var m :| m in methods && m.name == name && m.parameterTypes == params;
        r := Ok(m);
      } else {
        r := Throws(IllegalArgument);
      }
    }

    /** `getDeclaredMethods(filter)`: exactly the target's declared methods that pass. */
    method GetDeclaredMethods(accept: Method -> bool) returns (matches: set<Method>)
      ensures matches == Passing(runtime.MembersOf(target).methods, accept)
    {
      matches := CollectPassing(runtime.MembersOf(target).methods, accept);
    }

    /** `getMethods(filter)`: the declared matches of the target and of each superclass until there is none. */
    method GetMethods(accept: Method -> bool) returns (matches: set<Method>)
      ensures matches == Inherited(target, MethodsPassing(runtime, accept))
    {
      var part := MethodsPassing(runtime, accept);
      var clazz := target;
      matches := CollectPassing(runtime.MembersOf(clazz).methods, accept);
      while clazz.superclass.Some?
        invariant matches + Inherited(clazz, part) == Inherited(target, part)
        invariant part(clazz) <= matches
        decreases clazz
      {
        clazz := clazz.superclass.value;
        var declared := CollectPassing(runtime.MembersOf(clazz).methods, accept);
        matches := matches + declared;
      }
    }

    /** `getDeclaredInterfaces(filter)`: only the target's direct interfaces that pass. */
    method GetDeclaredInterfaces(accept: Type -> bool) returns (interfacesFound: set<Type>)
      ensures interfacesFound == Passing(target.interfaces, accept)
    {
      interfacesFound := CollectPassing(target.interfaces, accept);
    }

    /** `getInterfaces(filter)`: the passing direct interfaces of the target and of each superclass. */
    method GetInterfaces(accept: Type -> bool) returns (interfacesFound: set<Type>)
      ensures interfacesFound == Inherited(target, InterfacesPassing(accept))
    {
      var part := InterfacesPassing(accept);
      var clazz := target;
      interfacesFound := CollectPassing(clazz.interfaces, accept);
      while clazz.superclass.Some?
        invariant interfacesFound + Inherited(clazz, part) == Inherited(target, part)
        invariant part(clazz) <= interfacesFound
        decreases clazz
      {
        clazz := clazz.superclass.value;
        var declared := CollectPassing(clazz.interfaces, accept);
        interfacesFound := interfacesFound + declared;
      }
    }

    /** `getDeclaredFields(filter)`: exactly the target's declared fields that pass. */
    method GetDeclaredFields(accept: Field -> bool) returns (fields: set<Field>)
      ensures fields == Passing(runtime.MembersOf(target).fields, accept)
    {
      fields := CollectPassing(runtime.MembersOf(target).fields, accept);
    }

    /** `getFields(filter)`: the declared matches of the target and of each superclass. */
    method GetFields(accept: Field -> bool) returns (fields: set<Field>)
      ensures fields == Inherited(target, FieldsPassing(runtime, accept))
    {
      var part := FieldsPassing(runtime, accept);
      var clazz := target;
      fields := CollectPassing(runtime.MembersOf(clazz).fields, accept);
      while clazz.superclass.Some?
        invariant fields + Inherited(clazz, part) == Inherited(target, part)
        invariant part(clazz) <= fields
        decreases clazz
      {
        clazz := clazz.superclass.value;
        var declared := CollectPassing(runtime.MembersOf(clazz).fields, accept);
        fields := fields + declared;
      }
    }

    /** `getConstructors(filter)`: exactly the target's public constructors that pass. */
    method GetConstructors(accept: Constructor -> bool) returns (cons: set<Constructor>)
      ensures cons == Passing(runtime.MembersOf(target).constructors, accept)
    {
      cons := CollectPassing(runtime.MembersOf(target).constructors, accept);
    }

    /** `getConstructor(filter)`: a member of `getConstructors(filter)`, or IllegalArgumentException when that is empty. */
    method GetConstructor(accept: Constructor -> bool) returns (r: Result<Constructor>)
      ensures r.Throws? <==> Passing(runtime.MembersOf(target).constructors, accept) == {}
      ensures r.Throws? ==> r.exception == IllegalArgument
      ensures r.Ok? ==> r.value in Passing(runtime.MembersOf(target).constructors, accept)
    {
      var cons := GetConstructors(accept);
      if cons == {} {
        return Throws(IllegalArgument);
      }
      var c :| c in cons;
      r := Ok(c);
    }
  }
}
