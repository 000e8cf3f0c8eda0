/**
 * org.kasource.commons.collection.PackageMap: a map keyed by package (or
 * class) name whose lookup falls back to ever shorter dot-prefixes of the
 * name. A key mapped to Java `null` is the same as an absent key.
 */
module PackageMaps {
  import opened Java
  import opened Reflect

  /** `String.lastIndexOf(c)`: the last position of `c`, or -1. */
  function LastIndexOf(s: string, c: char): (r: int)
    ensures -1 <= r < |s|
    ensures r == -1 <==> forall j :: 0 <= j < |s| ==> s[j] != c
    ensures r >= 0 ==> s[r] == c && forall j :: r < j < |s| ==> s[j] != c
    decreases |s|
  {
    if |s| == 0 then -1
    else if s[|s| - 1] == c then |s| - 1
    else LastIndexOf(s[..|s| - 1], c)
  }

  /** The lookup of `get(String)`: the name itself, then the part before its last dot, and so on while that dot is not the first character. */
  function Resolve<V>(m: map<string, V>, name: string): Option<V>
    decreases |name|
  {
    if name in m then Some(m[name])
    else
      var i := LastIndexOf(name, '.');
      if i > 0 then Resolve(m, name[..i]) else None
  }

  /** `get(String)`, with the map field unset (`None`) or set. */
  function Lookup<V>(store: Option<map<string, V>>, name: string): Option<V>
  {
    if store.None? || |store.value| == 0 then None else Resolve(store.value, name)
  }

  /** The prefixes `name[..k]` the lookup consults: the whole name, and every part before a dot that is not the first character. */
  predicate Candidate(name: string, k: int)
  {
    k == |name| || (0 < k < |name| && name[k] == '.')
  }

  /**
   * The lookup yields the value of the LONGEST candidate prefix present in
   * the map, and nothing exactly when no candidate prefix is present.
   */
  lemma {:induction false} LongestCandidateWins<V>(m: map<string, V>, name: string)
    ensures Resolve(m, name).None? <==> forall k :: Candidate(name, k) ==> name[..k] !in m
    ensures Resolve(m, name).Some? ==>
      exists k :: Candidate(name, k) && name[..k] in m && Resolve(m, name) == Some(m[name[..k]]) &&
        forall k' :: Candidate(name, k') && k < k' ==> name[..k'] !in m
    decreases |name|
  {
    assert name[..|name|] == name;
    if name !in m {
      var i := LastIndexOf(name, '.');
      // the candidates of name are the name itself and the candidates of name[..i]
      assert forall k :: Candidate(name, k) && k != |name| ==> 0 < i && k <= i;
      if i > 0 {
        var p := name[..i];
        LongestCandidateWins(m, p);
        assert forall k :: 0 <= k <= i ==> p[..k] == name[..k];
        assert forall k :: Candidate(name, k) && k != |name| ==> Candidate(p, k);
        assert forall k :: Candidate(p, k) ==> Candidate(name, k);
        if Resolve(m, p).Some? {
          var k :| Candidate(p, k) && p[..k] in m && Resolve(m, p) == Some(m[p[..k]]) &&
            forall k' :: Candidate(p, k') && k < k' ==> p[..k'] !in m;
          assert Candidate(name, k) && name[..k] in m && Resolve(m, name) == Some(m[name[..k]]);
        }
      }
    }
  }

  /** A name without a dot (or with only a leading one) finds only its own key. */
  lemma NoDotExactKeyOnly<V>(m: map<string, V>, name: string)
    requires LastIndexOf(name, '.') <= 0
    ensures Resolve(m, name) == if name in m then Some(m[name]) else None
  {
  }

  /** An unset or empty map finds nothing, whatever the name. */
  lemma EmptyFindsNothing<V>(store: Option<map<string, V>>, name: string)
    requires store.None? || store.value == map[]
    ensures Lookup(store, name) == None
  {
  }

  /** A PackageMap object: the map field (unset = `None`). */
  class PackageMap<V> {
    var store: Option<map<string, V>>

    /** `new PackageMap()` */
    constructor ()
      ensures store == None
    {
      store := None;
    }

    /** `new PackageMap(map)` */
    constructor WithMap(m: map<string, V>)
      ensures store == Some(m)
    {
      store := Some(m);
    }

    /** `get(String)`: cut the name at its last dot until a key matches or no dot past position 0 is left. */
    method Get(packageOrClassName: string) returns (r: Option<V>)
      ensures r == Lookup(store, packageOrClassName)
    {
      if store.None? || |store.value| == 0 {
        return None;
      }
      var m := store.value;
      var index := LastIndexOf(packageOrClassName, '.');
      var packageName := packageOrClassName;
      var found := if packageName in m then Some(m[packageName]) else None;
      while found.None? && index > 0
        invariant index == LastIndexOf(packageName, '.')
        invariant found == if packageName in m then Some(m[packageName]) else None
        invariant Resolve(m, packageOrClassName) == Resolve(m, packageName)
        decreases |packageName|
      {
        packageName := packageName[..index];
        found := if packageName in m then Some(m[packageName]) else None;
        index := LastIndexOf(packageName, '.');
      }
      r := found;
    }

    /** `get(Class)`: the lookup of the class's fully qualified name. */
    method GetForClass(c: Type) returns (r: Option<V>)
      ensures r == Lookup(store, c.name)
    {
      r := Get(c.name);
    }
  }
}
