/**
 * The fluent filter builders (ClassFilterBuilder, ConstructorFilterBuilder
 * and the two FieldFilterBuilder copies share one shape): a list of filters
 * and a single pending operator that the next added filter consumes.
 */
module FilterBuilders {
  import opened Java
  import opened Filters

  /** The builder's pending operator. */
  datatype Operator = NONE | NOT | OR

  /** The builder's fields as a value. */
  datatype State<L> = State(filters: seq<Filter<L>>, operator: Operator)

  /**
   * `add(filter)`: with NOT pending the filter is appended negated, with OR
   * pending it replaces the last entry by `Or(last, filter)` (on an empty
   * list `filters.get(-1)` throws before anything changes), otherwise it is
   * appended; a consumed operator resets to NONE.
   */
  function Add<L>(s: State<L>, f: Filter<L>): Result<State<L>>
  {
    match s.operator
    case NOT => Ok(State(s.filters + [Negation(f)], NONE))
    case OR =>
      if |s.filters| == 0 then Throws(IndexOutOfBounds)
      else Ok(State(s.filters[..|s.filters| - 1] + [Or(s.filters[|s.filters| - 1], f)], NONE))
    case NONE => Ok(State(s.filters + [f], s.operator))
  }

  /** `build()`: no filter is an error, one filter is returned as it is, more become an AND list. */
  function Build<L>(s: State<L>): Result<Filter<L>>
  {
    if |s.filters| == 0 then Throws(IllegalState)
    else if |s.filters| == 1 then Ok(s.filters[0])
    else Ok(FilterList(s.filters))
  }

  /** One call on the builder. */
  datatype Call<L> = AddCall(filter: Filter<L>) | NotCall | OrCall

  /** The builder after one call. */
  function Step<L>(s: State<L>, c: Call<L>): Result<State<L>>
  {
    match c
    case AddCall(f) => Add(s, f)
    case NotCall => Ok(State(s.filters, NOT))
    case OrCall => Ok(State(s.filters, OR))
  }

  /** A chain of calls; the first exception ends the chain. */
  function Run<L>(s: State<L>, calls: seq<Call<L>>): Result<State<L>>
    decreases |calls|
  {
    if |calls| == 0 then Ok(s)
    else
      match Step(s, calls[0])
      case Throws(e) => Throws(e)
      case Ok(t) => Run(t, calls[1..])
  }

  lemma RunFirst<L>(s: State<L>, c: Call<L>, rest: seq<Call<L>>)
    requires Step(s, c).Ok?
    ensures Run(s, [c] + rest) == Run(Step(s, c).value, rest)
  {
    assert ([c] + rest)[1..] == rest;
  }

  /** Every successful `add` leaves no operator pending; only OR keeps the length, the others add one entry. */
  lemma AddShape<L>(s: State<L>, f: Filter<L>)
    ensures Add(s, f).Ok? ==> Add(s, f).value.operator == NONE
    ensures Add(s, f).Ok? && s.operator == OR ==> |Add(s, f).value.filters| == |s.filters|
    ensures Add(s, f).Ok? && s.operator != OR ==> |Add(s, f).value.filters| == |s.filters| + 1
    ensures Add(s, f).Ok? ==> Add(s, f).value.filters[..|Add(s, f).value.filters| - 1] == s.filters[..|Add(s, f).value.filters| - 1]
    ensures Add(s, f).Throws? <==> s.operator == OR && |s.filters| == 0
  {
  }

  /** Adding with no operator pending only ever appends: the filters come out in insertion order. */
  lemma {:induction false} PlainAddsKeepOrder<L>(s: State<L>, fs: seq<Filter<L>>)
    requires s.operator == NONE
    ensures Run(s, seq(|fs|, i requires 0 <= i < |fs| => AddCall(fs[i]))) == Ok(State(s.filters + fs, NONE))
    decreases |fs|
  {
    var calls := seq(|fs|, i requires 0 <= i < |fs| => AddCall(fs[i]));
    if |fs| == 0 {
      assert s.filters + fs == s.filters;
    } else {
      var t := State(s.filters + [fs[0]], NONE);
      assert Add(s, fs[0]) == Ok(t);
      assert calls[1..] == seq(|fs[1..]|, i requires 0 <= i < |fs[1..]| => AddCall(fs[1..][i]));
      PlainAddsKeepOrder(t, fs[1..]);
      assert t.filters + fs[1..] == s.filters + fs;
    }
  }

  /** `not()` negates the next filter only: the one after it is added plainly. */
  lemma NotWrapsOnlyNext<L>(s: State<L>, f: Filter<L>, g: Filter<L>)
    ensures Run(s, [NotCall, AddCall(f), AddCall(g)]) == Ok(State(s.filters + [Negation(f), g], NONE))
  {
    var t := State(s.filters + [Negation(f)], NONE);
    assert Run(s, [NotCall, AddCall(f), AddCall(g)]) == Run(State(s.filters, NOT), [AddCall(f), AddCall(g)]);
    assert [NotCall, AddCall(f), AddCall(g)][1..] == [AddCall(f), AddCall(g)];
    assert [AddCall(f), AddCall(g)][1..] == [AddCall(g)];
    assert Run(State(s.filters, NOT), [AddCall(f), AddCall(g)]) == Run(t, [AddCall(g)]);
    assert s.filters + [Negation(f)] + [g] == s.filters + [Negation(f), g];
  }

  /** Chained ORs fold to the left and keep the list length: `f.or().g.or().h` is `Or(Or(f, g), h)`. */
  lemma OrFoldsLeft<L>(s: State<L>, f: Filter<L>, g: Filter<L>, h: Filter<L>)
    requires s.operator == NONE
    ensures Run(s, [AddCall(f), OrCall, AddCall(g), OrCall, AddCall(h)])
         == Ok(State(s.filters + [Or(Or(f, g), h)], NONE))
  {
    var s1 := State(s.filters + [f], NONE);
    var s2 := State(s.filters + [Or(f, g)], NONE);
    var s3 := State(s.filters + [Or(Or(f, g), h)], NONE);
    assert (s.filters + [f])[..|s.filters|] == s.filters;
    assert (s.filters + [Or(f, g)])[..|s.filters|] == s.filters;
    RunFirst(State(s2.filters, OR), AddCall(h), []);
    RunFirst(s2, OrCall, [AddCall(h)]);
    RunFirst(State(s1.filters, OR), AddCall(g), [OrCall, AddCall(h)]);
    RunFirst(s1, OrCall, [AddCall(g), OrCall, AddCall(h)]);
    RunFirst(s, AddCall(f), [OrCall, AddCall(g), OrCall, AddCall(h)]);
  }

  /** The operator is one slot: the later of `not()` and `or()` decides what the next add does. */
  lemma LatestOperatorWins<L>(s: State<L>, f: Filter<L>)
    ensures Run(s, [OrCall, NotCall, AddCall(f)]) == Run(s, [NotCall, AddCall(f)])
    ensures Run(s, [NotCall, OrCall, AddCall(f)]) == Run(s, [OrCall, AddCall(f)])
  {
    assert [OrCall, NotCall, AddCall(f)][1..] == [NotCall, AddCall(f)];
    assert [NotCall, AddCall(f)][1..] == [AddCall(f)];
    assert [NotCall, OrCall, AddCall(f)][1..] == [OrCall, AddCall(f)];
    assert [OrCall, AddCall(f)][1..] == [AddCall(f)];
  }

  /** `or()` before any filter: the next add throws IndexOutOfBoundsException and leaves the builder untouched. */
  lemma OrFirstFails<L>(f: Filter<L>)
    ensures Run(State([], NONE), [OrCall, AddCall(f)]) == Throws(IndexOutOfBounds)
  {
    assert [OrCall, AddCall(f)][1..] == [AddCall(f)];
  }

  /**
   * What `build()` returns: an error exactly for the empty builder; otherwise a
   * filter that passes exactly what every collected filter passes, which is the
   * collected filter itself when there is one.
   */
  lemma BuildMeansConjunction<L>(s: State<L>, leaf: L -> bool)
    ensures Build(s) == Throws(IllegalState) <==> |s.filters| == 0
    ensures |s.filters| == 1 ==> Build(s) == Ok(s.filters[0])
    ensures |s.filters| >= 2 ==> Build(s) == Ok(FilterList(s.filters))
    ensures Build(s).Ok? ==> (Passes(Build(s).value, leaf) <==> forall j :: 0 <= j < |s.filters| ==> Passes(s.filters[j], leaf))
  {
    ListPassesIffAll(s.filters, leaf);
  }

  /** A builder object; its methods change `filters` and `operator` as the Java fields are changed. */
  class FilterBuilder<L> {
    var filters: seq<Filter<L>>
    var operator: Operator

    function Current(): State<L>
      reads this
    {
      State(filters, operator)
    }

    constructor ()
      ensures Current() == State([], NONE)
    {
      filters := [];
      operator := NONE;
    }

    /** `add(filter)`; a thrown exception is returned and leaves the fields as they were. */
    method AddFilter(f: Filter<L>) returns (thrown: Option<Exception>)
      modifies this
      ensures Add(old(Current()), f).Ok? ==> thrown == None && Current() == Add(old(Current()), f).value
      ensures Add(old(Current()), f).Throws? ==> thrown == Some(Add(old(Current()), f).exception) && Current() == old(Current())
      ensures old(operator) == NOT ==> thrown == None && filters == old(filters) + [Negation(f)] && operator == NONE
      ensures old(operator) == NONE ==> thrown == None && filters == old(filters) + [f] && operator == NONE
    {
      match operator
      case NOT =>
        filters := filters + [Negation(f)];
        operator := NONE;
        thrown := None;
      case OR =>
        if |filters| == 0 {
          thrown := Some(IndexOutOfBounds);
        } else {
          filters := filters[..|filters| - 1] + [Filters.Or(filters[|filters| - 1], f)];
          operator := NONE;
          thrown := None;
        }
      case NONE =>
        filters := filters + [f];
        thrown := None;
    }

    /** `not()` */
    method Not()
      modifies this
      ensures filters == old(filters) && operator == NOT
    {
      operator := NOT;
    }

    /** `or()` */
    method Or()
      modifies this
      ensures filters == old(filters) && operator == OR
    {
      operator := OR;
    }

    /** `build()` */
    method BuildFilter() returns (r: Result<Filter<L>>)
      ensures r == Build(Current())
      ensures r.Throws? <==> |filters| == 0
    {
      if |filters| == 0 {
        r := Throws(IllegalState);
      } else if |filters| == 1 {
        r := Ok(filters[0]);
      } else {
        r := Ok(FilterList(filters));
      }
    }
  }
}
