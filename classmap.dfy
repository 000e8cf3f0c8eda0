/**
 * org.kasource.commons.collection.ClassMap: a map keyed by class whose
 * lookup falls back from a class to its direct interfaces and then up the
 * superclass chain. A key mapped to Java `null` is the same as an absent key.
 */
module ClassMaps {
  import opened Java
  import opened Reflect

  /** `getByInterfaces`: the value of the first listed interface that has one. */
  function FirstKeyed<V>(m: map<Type, V>, interfaces: seq<Type>): (r: Option<V>)
    ensures r.None? <==> forall i :: 0 <= i < |interfaces| ==> interfaces[i] !in m
    decreases |interfaces|
  {
    if |interfaces| == 0 then None
    else if interfaces[0] in m then Some(m[interfaces[0]])
    else FirstKeyed(m, interfaces[1..])
  }

  /** The value of the first interface with a value is the one returned. */
  lemma {:induction false} FirstKeyedIsFirst<V>(m: map<Type, V>, interfaces: seq<Type>, k: nat)
    requires k < |interfaces| && interfaces[k] in m
    requires forall i :: 0 <= i < k ==> interfaces[i] !in m
    ensures FirstKeyed(m, interfaces) == Some(m[interfaces[k]])
    decreases k
  {
    if k > 0 {
      FirstKeyedIsFirst(m, interfaces[1..], k - 1);
    }
  }

  /** What one class of the chain contributes: its own key, else (unless excluded) its direct interfaces. */
  function LevelHit<V>(m: map<Type, V>, excludeInterfaces: bool, c: Type): Option<V>
  {
    if c in m then Some(m[c])
    else if excludeInterfaces then None
    else FirstKeyed(m, c.interfaces)
  }

  /** The lookup from `c` upward: the first class of the chain that contributes a value decides. */
  function Resolve<V>(m: map<Type, V>, excludeInterfaces: bool, c: Type): Option<V>
    decreases c
  {
    var hit := LevelHit(m, excludeInterfaces, c);
    if hit.Some? then hit
    else match c.superclass
      case None => None
      case Some(s) => Resolve(m, excludeInterfaces, s)
  }

  /** `get(clazz)`, with the map field unset (`None`) or set. */
  function Lookup<V>(store: Option<map<Type, V>>, excludeInterfaces: bool, c: Type): Option<V>
  {
    if store.None? || |store.value| == 0 then None
    else Resolve(store.value, excludeInterfaces, c)
  }

  /** The first level of the superclass chain that contributes a value. */
  function FirstLevel<V>(m: map<Type, V>, excludeInterfaces: bool, chain: seq<Type>): Option<V>
    decreases |chain|
  {
    if |chain| == 0 then None
    else if LevelHit(m, excludeInterfaces, chain[0]).Some? then LevelHit(m, excludeInterfaces, chain[0])
    else FirstLevel(m, excludeInterfaces, chain[1..])
  }

  /** The lookup is the first contributing level of `Superclasses(c)`. */
  lemma {:induction false} ResolveIsFirstLevel<V>(m: map<Type, V>, excludeInterfaces: bool, c: Type)
    ensures Resolve(m, excludeInterfaces, c) == FirstLevel(m, excludeInterfaces, Superclasses(c))
    decreases c
  {
    var chain := Superclasses(c);
    if LevelHit(m, excludeInterfaces, c).None? {
      match c.superclass
      case None =>
        assert chain == [c];
        assert chain[1..] == [];
      case Some(s) =>
        assert chain[1..] == Superclasses(s);
        ResolveIsFirstLevel(m, excludeInterfaces, s);
    }
  }

  lemma {:induction false} FirstLevelAt<V>(m: map<Type, V>, excludeInterfaces: bool, chain: seq<Type>, k: nat)
    requires k < |chain| && LevelHit(m, excludeInterfaces, chain[k]).Some?
    requires forall i :: 0 <= i < k ==> LevelHit(m, excludeInterfaces, chain[i]).None?
    ensures FirstLevel(m, excludeInterfaces, chain) == LevelHit(m, excludeInterfaces, chain[k])
    decreases k
  {
    if k > 0 {
      FirstLevelAt(m, excludeInterfaces, chain[1..], k - 1);
    }
  }

  lemma {:induction false} FirstLevelNone<V>(m: map<Type, V>, excludeInterfaces: bool, chain: seq<Type>)
    requires forall i :: 0 <= i < |chain| ==> LevelHit(m, excludeInterfaces, chain[i]).None?
    ensures FirstLevel(m, excludeInterfaces, chain).None?
    decreases |chain|
  {
    if |chain| > 0 {
      FirstLevelNone(m, excludeInterfaces, chain[1..]);
    }
  }

  /** An unset or empty map finds nothing, for every class. */
  lemma EmptyFindsNothing<V>(store: Option<map<Type, V>>, excludeInterfaces: bool, c: Type)
    requires store.None? || store.value == map[]
    ensures Lookup(store, excludeInterfaces, c) == None
  {
  }

  /** A direct key hit is returned before any interface or superclass is consulted. */
  lemma DirectHitWins<V>(m: map<Type, V>, excludeInterfaces: bool, c: Type)
    requires c in m
    ensures Lookup(Some(m), excludeInterfaces, c) == Some(m[c])
  {
  }

  /**
   * Unless interfaces are excluded, a class without its own key resolves to
   * the value of its first direct interface that has one, before its
   * superclass is looked at.
   */
  lemma InterfacesBeforeSuperclass<V>(m: map<Type, V>, c: Type, k: nat)
    requires c !in m && k < |c.interfaces| && c.interfaces[k] in m
    requires forall i :: 0 <= i < k ==> c.interfaces[i] !in m
    ensures Lookup(Some(m), false, c) == Some(m[c.interfaces[k]])
  {
    FirstKeyedIsFirst(m, c.interfaces, k);
  }

  /**
   * The nearest level wins: if the `k`-th class up the chain is the first
   * to contribute, its value is the result, whatever farther classes map to.
   */
  lemma NearestLevelWins<V>(m: map<Type, V>, excludeInterfaces: bool, c: Type, k: nat)
    requires k < |Superclasses(c)| && LevelHit(m, excludeInterfaces, Superclasses(c)[k]).Some?
    requires forall i :: 0 <= i < k ==> LevelHit(m, excludeInterfaces, Superclasses(c)[i]).None?
    ensures Lookup(Some(m), excludeInterfaces, c) == LevelHit(m, excludeInterfaces, Superclasses(c)[k])
  {
    ResolveIsFirstLevel(m, excludeInterfaces, c);
    FirstLevelAt(m, excludeInterfaces, Superclasses(c), k);
  }

  /** Nothing on the chain contributes: the lookup gives null. */
  lemma NoLevelNoValue<V>(m: map<Type, V>, excludeInterfaces: bool, c: Type)
    requires forall i :: 0 <= i < |Superclasses(c)| ==> LevelHit(m, excludeInterfaces, Superclasses(c)[i]).None?
    ensures Lookup(Some(m), excludeInterfaces, c) == None
  {
    ResolveIsFirstLevel(m, excludeInterfaces, c);
    FirstLevelNone(m, excludeInterfaces, Superclasses(c));
  }

  /** With interfaces excluded only superclass-chain keys are consulted: whatever is found is the value of one of them. */
  lemma {:induction false} ExcludedFindsOnlyChainKeys<V>(m: map<Type, V>, c: Type)
    ensures Resolve(m, true, c).Some? ==>
      exists i :: 0 <= i < |Superclasses(c)| && Superclasses(c)[i] in m && Resolve(m, true, c) == Some(m[Superclasses(c)[i]])
    decreases c
  {
    var chain := Superclasses(c);
    if c !in m {
      match c.superclass
      case None =>
      case Some(s) =>
        ExcludedFindsOnlyChainKeys(m, s);
        if Resolve(m, true, s).Some? {
          var i :| 0 <= i < |Superclasses(s)| && Superclasses(s)[i] in m && Resolve(m, true, s) == Some(m[Superclasses(s)[i]]);
          assert chain[i + 1] == Superclasses(s)[i];
        }
    } else {
      assert chain[0] == c;
    }
  }

  /** A ClassMap found: the map field (unset = `None`) and the `excludeInterfaces` flag. */
  class ClassMap<V> {
    var store: Option<map<Type, V>>
    var excludeInterfaces: bool

    /** `new ClassMap()` */
    constructor ()
      ensures store == None && !excludeInterfaces
    {
      store := None;
      excludeInterfaces := false;
    }

    /** `new ClassMap(map)` */
    constructor WithMap(m: map<Type, V>)
      ensures store == Some(m) && !excludeInterfaces
    {
      store := Some(m);
      excludeInterfaces := false;
    }

    method SetMap(m: Option<map<Type, V>>)
      modifies this
      ensures store == m && excludeInterfaces == old(excludeInterfaces)
    {
      store := m;
    }

    method IsExcludeInterfaces() returns (b: bool)
      ensures b == excludeInterfaces
    {
      b := excludeInterfaces;
    }

    method SetExcludeInterfaces(b: bool)
      modifies this
      ensures excludeInterfaces == b && store == old(store)
    {
      excludeInterfaces := b;
    }

    /**
     * `getByInterfaces(clazz)`: the loop breaks at the first interface with a
     * value; with the map unset, the first interface looked up throws.
     */
    method GetByInterfaces(c: Type) returns (r: Result<Option<V>>)
      ensures store.None? ==> (r.Throws? <==> |c.interfaces| > 0)
      ensures r.Throws? ==> r.exception == NullPointer
      ensures store.Some? ==> r == Ok(FirstKeyed(store.value, c.interfaces))
      ensures store.None? && |c.interfaces| == 0 ==> r == Ok(None)
    {
      var interfaces := c.interfaces;
      var i := 0;
      while i < |interfaces|
        invariant 0 <= i <= |interfaces|
        invariant store.None? ==> i == 0
        invariant store.Some? ==> FirstKeyed(store.value, interfaces) == FirstKeyed(store.value, interfaces[i..])
      {
        if store.None? {
          return Throws(NullPointer);
        }
        assert interfaces[i..][1..] == interfaces[i + 1..];
        if interfaces[i] in store.value {
          return Ok(Some(store.value[interfaces[i]]));
        }
        i := i + 1;
      }
      r := Ok(None);
    }

    /** `get(clazz)`: the key, then the interfaces, then the same for each superclass in turn. */
    method Get(c: Type) returns (r: Option<V>)
      ensures r == Lookup(store, excludeInterfaces, c)
    {
      if store.None? || |store.value| == 0 {
        return None;
      }
      var m := store.value;
      var classToInspect := c;
      var found := if classToInspect in m then Some(m[classToInspect]) else None;
      if found.None? && !excludeInterfaces {
        var byInterfaces := GetByInterfaces(classToInspect);
        found := byInterfaces.value;
      }
      while found.None? && classToInspect.superclass.Some?
        invariant found == LevelHit(m, excludeInterfaces, classToInspect)
        invariant Resolve(m, excludeInterfaces, c) == Resolve(m, excludeInterfaces, classToInspect)
        decreases classToInspect
      {
        classToInspect := classToInspect.superclass.value;
        found := if classToInspect in m then Some(m[classToInspect]) else None;
        if found.None? && !excludeInterfaces {
          var byInterfaces := GetByInterfaces(classToInspect);
          found := byInterfaces.value;
        }
      }
      r := found;
    }
  }
}
