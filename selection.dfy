/**
 * The two shapes shared by the introspection code: the set of members of an
 * array that pass a filter (a HashSet filled by a for loop), and the union
 * of such sets at a class and every one of its superclasses.
 */
module Selection {
  import opened Java
  import opened Reflect

  /** The elements of `xs` that `accept` lets through. */
  function Passing<X>(xs: seq<X>, accept: X -> bool): set<X>
  {
    set x | x in xs && accept(x)
  }

  /** The for loop that adds each passing element to a fresh HashSet. */
  method CollectPassing<X>(xs: seq<X>, accept: X -> bool) returns (matches: set<X>)
    ensures matches == Passing(xs, accept)
  {
    matches := {};
    for i := 0 to |xs|
      invariant matches == Passing(xs[..i], accept)
    {
      assert xs[..i + 1] == xs[..i] + [xs[i]];
      if accept(xs[i]) {
        matches := matches + {xs[i]};
      }
    }
    assert xs[..|xs|] == xs;
  }

  /** The union of `part` at `c` and at every superclass up the chain. */
  function Inherited<X>(c: Type, part: Type -> set<X>): set<X>
    decreases c
  {
    part(c) + match c.superclass
      case None => {}
      case Some(s) => Inherited(s, part)
  }

  lemma {:induction false} InheritedHas<X>(c: Type, part: Type -> set<X>, x: X, i: nat)
    requires i < |Superclasses(c)| && x in part(Superclasses(c)[i])
    ensures x in Inherited(c, part)
    decreases i
  {
    if i > 0 {
      var s := c.superclass.value;
      assert Superclasses(c)[i] == Superclasses(s)[i - 1];
      InheritedHas(s, part, x, i - 1);
    }
  }

  lemma {:induction false} InheritedFrom<X>(c: Type, part: Type -> set<X>, x: X) returns (i: nat)
    requires x in Inherited(c, part)
    ensures i < |Superclasses(c)| && x in part(Superclasses(c)[i])
    decreases c
  {
    if x in part(c) {
      i := 0;
    } else {
      var s := c.superclass.value;
      var j := InheritedFrom(s, part, x);
      assert Superclasses(c)[j + 1] == Superclasses(s)[j];
      i := j + 1;
    }
  }

  /**
   * An element is in the union exactly when it is in the part of some class
   * of `Superclasses(c)`; in particular the union contains `part(c)`.
   */
  lemma InheritedIff<X>(c: Type, part: Type -> set<X>, x: X)
    ensures x in Inherited(c, part) <==>
      exists i :: 0 <= i < |Superclasses(c)| && x in part(Superclasses(c)[i])
    ensures part(c) <= Inherited(c, part)
  {
    if x in Inherited(c, part) {
      var i := InheritedFrom(c, part, x);
    }
    if exists i :: 0 <= i < |Superclasses(c)| && x in part(Superclasses(c)[i]) {
      var i :| 0 <= i < |Superclasses(c)| && x in part(Superclasses(c)[i]);
      InheritedHas(c, part, x, i);
    }
  }
}
