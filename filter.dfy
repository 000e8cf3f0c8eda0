/**
 * The filter combinators every member kind shares: a leaf test, NOT
 * (Negation*Filter), binary OR (Or*Filter) and the AND list (*FilterList),
 * evaluated the way their `passFilter` methods are.
 */
module Filters {

  datatype Filter<L> =
    | Leaf(test: L)
    | Negation(inner: Filter<L>)
    | Or(left: Filter<L>, right: Filter<L>)
    | FilterList(filters: seq<Filter<L>>)

  /** `passFilter`: `leaf` gives the verdict of a leaf test on the inspected element. */
  predicate Passes<L>(f: Filter<L>, leaf: L -> bool)
    decreases f, 1
  {
    match f
    case Leaf(t) => leaf(t)
    case Negation(g) => !Passes(g, leaf)
    case Or(l, r) => Passes(l, leaf) || Passes(r, leaf)
    case FilterList(_) => ListPassesFrom(f, 0, leaf)
  }

  /** The loop of a *FilterList from position `i`: false at the first filter that fails. */
  predicate ListPassesFrom<L>(list: Filter<L>, i: nat, leaf: L -> bool)
    requires list.FilterList? && i <= |list.filters|
    decreases list, 0, |list.filters| - i
  {
    i == |list.filters| || (Passes(list.filters[i], leaf) && ListPassesFrom(list, i + 1, leaf))
  }

  lemma {:induction false} ListPassesFromIff<L>(fs: seq<Filter<L>>, i: nat, leaf: L -> bool)
    requires i <= |fs|
    ensures ListPassesFrom(FilterList(fs), i, leaf) <==> forall j :: i <= j < |fs| ==> Passes(fs[j], leaf)
    decreases |fs| - i
  {
    if i < |fs| {
      ListPassesFromIff(fs, i + 1, leaf);
    }
  }

  /** A list passes exactly when every filter in it passes; in particular the empty list passes everything. */
  lemma ListPassesIffAll<L>(fs: seq<Filter<L>>, leaf: L -> bool)
    ensures Passes(FilterList(fs), leaf) <==> forall j :: 0 <= j < |fs| ==> Passes(fs[j], leaf)
    ensures fs == [] ==> Passes(FilterList(fs), leaf)
  {
    ListPassesFromIff(fs, 0, leaf);
  }

  /**
   * Evaluation runs in array order and stops at the first filter that
   * fails: whatever follows that filter cannot change the verdict.
   */
  lemma {:induction false} StopsAtFirstFailure<L>(fs: seq<Filter<L>>, k: nat, rest: seq<Filter<L>>, leaf: L -> bool)
    requires k < |fs| && !Passes(fs[k], leaf)
    ensures !Passes(FilterList(fs), leaf)
    ensures !Passes(FilterList(fs[..k + 1] + rest), leaf)
  {
    ListPassesIffAll(fs, leaf);
    var g := fs[..k + 1] + rest;
    assert g[k] == fs[k];
    ListPassesIffAll(g, leaf);
  }

  /** A list of five filters, entry by entry. */
  lemma ListOfFive<L>(a: Filter<L>, b: Filter<L>, c: Filter<L>, d: Filter<L>, e: Filter<L>, leaf: L -> bool)
    ensures Passes(FilterList([a, b, c, d, e]), leaf) <==>
      Passes(a, leaf) && Passes(b, leaf) && Passes(c, leaf) && Passes(d, leaf) && Passes(e, leaf)
  {
    var fs := [a, b, c, d, e];
    ListPassesIffAll(fs, leaf);
    assert fs[0] == a && fs[1] == b && fs[2] == c && fs[3] == d && fs[4] == e;
  }

  /** OR: a passing left side decides without the right side; two failing sides fail. */
  lemma OrVerdicts<L>(l: Filter<L>, r: Filter<L>, leaf: L -> bool)
    ensures Passes(l, leaf) ==> Passes(Or(l, r), leaf)
    ensures !Passes(l, leaf) ==> Passes(Or(l, r), leaf) == Passes(r, leaf)
    ensures !Passes(l, leaf) && !Passes(r, leaf) ==> !Passes(Or(l, r), leaf)
  {
  }

  /** NOT inverts the verdict, so negating twice agrees with the inner filter. */
  lemma NegationVerdicts<L>(f: Filter<L>, leaf: L -> bool)
    ensures Passes(Negation(f), leaf) != Passes(f, leaf)
    ensures Passes(Negation(Negation(f)), leaf) == Passes(f, leaf)
  {
  }
}
