/**
  The bounded strategy search: keep the eligible candidates, sort, cut off at max_nodes, then drop
  what is Pareto-dominated inside the cut. Truncating before filtering is sound because the sort
  order places every dominator strictly before everything it dominates.
*/
module Strategy {
  import opened Values
  import opened Sorting

  /** Costs are only compared, so they are integers here; `finite` says the four numbers are finite. */
  datatype Candidate = Candidate(
    id: nat, strategy: nat, cash: int, elapsed: int, risk: int, tickets: int, saving: int,
    prior: int, selfTransfers: int, overnights: int, hardFiltersPass: bool, finite: bool)

  datatype Options = Options(
    threshold: int, maxTickets: int, maxSelfTransfers: int, maxOvernights: int, maxNodes: int,
    mainland: bool, advanced: bool)

  datatype Error = ThresholdInvalid | BudgetInvalid

  const ACTIVE_STRATEGIES := 20
  const LEVELS: seq<nat> := [0, 0, 0, 0, 1, 1, 2, 2, 2, 3, 2, 3, 3, 4, 4, 5, 0, 0, 0, 0]

  predicate Active(strategy: nat) { strategy < ACTIVE_STRATEGIES }

  /** The level table; an unknown strategy has no level, and the filter drops it before asking. */
  function Level(strategy: nat): nat { if Active(strategy) then LEVELS[strategy] else 0 }

  predicate Eligible(x: Candidate, o: Options) {
    && Active(x.strategy)
    && (Level(x.strategy) > 0 ==> x.saving >= o.threshold)
    && ((x.strategy == 10 || x.strategy == 11) ==> o.mainland)
    && (x.strategy == 15 ==> o.advanced)
    && x.hardFiltersPass
    && x.tickets <= o.maxTickets
    && x.selfTransfers <= o.maxSelfTransfers
    && x.overnights <= o.maxOvernights
    && x.finite
  }

  predicate Dominates(b: Candidate, a: Candidate) {
    && b.cash <= a.cash && b.elapsed <= a.elapsed && b.risk <= a.risk
    && (b.cash < a.cash || b.elapsed < a.elapsed || b.risk < a.risk)
  }

  function SearchKey(x: Candidate): seq<int> {
    [x.cash, x.risk, x.elapsed, -x.prior, Level(x.strategy), x.id]
  }

  function OutputKey(x: Candidate): seq<int> { [x.cash, x.elapsed, x.risk, x.id] }

  function Filter(items: seq<Candidate>, o: Options): seq<Candidate> {
    if items == [] then []
    else if Eligible(items[0], o) then [items[0]] + Filter(items[1..], o)
    else Filter(items[1..], o)
  }

  predicate Undominated(x: Candidate, all: seq<Candidate>) {
    forall y :: y in all ==> !Dominates(y, x)
  }

  /** The members of s that nothing in `all` dominates. */
  function Front(s: seq<Candidate>, all: seq<Candidate>): seq<Candidate> {
    if s == [] then []
    else if Undominated(s[0], all) then [s[0]] + Front(s[1..], all)
    else Front(s[1..], all)
  }

  function Take<T>(s: seq<T>, n: int): seq<T>
    requires n >= 0
  {
    if |s| <= n then s else s[..n]
  }

  function Ordered(items: seq<Candidate>, o: Options): seq<Candidate>
    requires o.maxNodes >= 0
  {
    Take(SortBy(SearchKey, Filter(items, o)), o.maxNodes)
  }

  function BoundedStrategySearch(items: seq<Candidate>, o: Options): Result<seq<Candidate>, Error> {
    if o.threshold < 0 then Err(ThresholdInvalid)
    else if o.maxTickets < 1 || o.maxNodes < 1 then Err(BudgetInvalid)
    else Ok(SortBy(OutputKey, Front(Ordered(items, o), Ordered(items, o))))
  }

  /** boundedExpand: the same dominance filter over a ticket limit, without sorting or a node budget. */
  function BoundedExpand(items: seq<Candidate>, maxTickets: int): seq<Candidate> {
    var kept := WithinTickets(items, maxTickets);
    Front(kept, kept)
  }

  function WithinTickets(items: seq<Candidate>, maxTickets: int): seq<Candidate> {
    if items == [] then []
    else if items[0].tickets <= maxTickets then [items[0]] + WithinTickets(items[1..], maxTickets)
    else WithinTickets(items[1..], maxTickets)
  }

  // ----- what the parts keep -----

  lemma {:induction false} FilterMembers(items: seq<Candidate>, o: Options)
    ensures forall x :: x in Filter(items, o) <==> x in items && Eligible(x, o)
  {
    if items != [] { FilterMembers(items[1..], o); }
  }

  lemma {:induction false} FilterMultiset(items: seq<Candidate>, o: Options, x: Candidate)
    ensures multiset(Filter(items, o))[x] == if Eligible(x, o) then multiset(items)[x] else 0
  {
    if items != [] {
      FilterMultiset(items[1..], o, x);
      assert items == [items[0]] + items[1..];
    }
  }

  lemma {:induction false} FrontMembers(s: seq<Candidate>, all: seq<Candidate>)
    ensures forall x :: x in Front(s, all) <==> x in s && Undominated(x, all)
  {
    if s != [] { FrontMembers(s[1..], all); }
  }

  lemma SortByMembers<T>(key: T -> seq<int>, s: seq<T>)
    ensures forall x :: x in SortBy(key, s) <==> x in s
  {
    SortByCorrect(key, s);
    SameMembers(SortBy(key, s), s);
  }

  /** A dominator never sorts at or after what it dominates. */
  lemma DominatorSortsFirst(b: Candidate, a: Candidate)
    requires Dominates(b, a)
    ensures !LexLeq(SearchKey(a), SearchKey(b))
  {
    var p, q := SearchKey(a), SearchKey(b);
    assert p[1..][0] == a.risk && q[1..][0] == b.risk;
    assert p[1..][1..][0] == a.elapsed && q[1..][1..][0] == b.elapsed;
    assert !LexLeq(p[1..][1..], q[1..][1..]) || p[0] != q[0] || p[1] != q[1];
  }

  lemma DominanceTransitive(a: Candidate, b: Candidate, c: Candidate)
    requires Dominates(a, b) && Dominates(b, c)
    ensures Dominates(a, c)
  {}

  /** Membership in the result, said without sorting or filtering inside the cut. */
  lemma SearchMembers(items: seq<Candidate>, o: Options)
    requires BoundedStrategySearch(items, o).Ok?
    ensures forall x :: x in BoundedStrategySearch(items, o).value
                        <==> x in Ordered(items, o) && Undominated(x, Ordered(items, o))
  {
    var cut := Ordered(items, o);
    SortByMembers(OutputKey, Front(cut, cut));
    FrontMembers(cut, cut);
  }

  /** Inside the cut, being undominated there is being undominated among all eligible candidates. */
  lemma CutKeepsDominators(items: seq<Candidate>, o: Options, i: nat, y: Candidate)
    requires o.maxNodes >= 0 && i < |Ordered(items, o)|
    requires y in items && Eligible(y, o) && Dominates(y, Ordered(items, o)[i])
    ensures exists j :: 0 <= j < i && Ordered(items, o)[j] == y
  {
    var sorted := SortBy(SearchKey, Filter(items, o));
    FilterMembers(items, o);
    SortByMembers(SearchKey, Filter(items, o));
    SortByCorrect(SearchKey, Filter(items, o));
    var j :| 0 <= j < |sorted| && sorted[j] == y;
    DominatorSortsFirst(y, sorted[i]);
    LexTotal(SearchKey(y), SearchKey(y));
    assert j < i;
    assert Ordered(items, o)[j] == y;
  }

  // ----- main results -----

  /**
    Exactness. A candidate is returned if and only if it lies in the sorted prefix of max_nodes
    eligible candidates and no eligible candidate at all, kept or cut off, dominates it.
  */
  lemma TruncationIsSound(items: seq<Candidate>, o: Options, x: Candidate)
    requires BoundedStrategySearch(items, o).Ok?
    ensures x in BoundedStrategySearch(items, o).value
            <==> x in Ordered(items, o) && forall y :: y in items && Eligible(y, o) ==> !Dominates(y, x)
  {
    var cut := Ordered(items, o);
    SearchMembers(items, o);
    if x in cut {
      var i :| 0 <= i < |cut| && cut[i] == x;
      forall y | y in items && Eligible(y, o) && Dominates(y, x) ensures y in cut {
        CutKeepsDominators(items, o, i, y);
      }
      FilterMembers(items, o);
      SortByMembers(SearchKey, Filter(items, o));
      forall y | y in cut ensures y in items && Eligible(y, o) {
        assert y in SortBy(SearchKey, Filter(items, o));
      }
    }
  }

  /** An undominated eligible candidate is missing only when max_nodes eligible ones sort no later. */
  lemma MissingOnlyBehindBudget(items: seq<Candidate>, o: Options, x: Candidate) returns (ahead: seq<Candidate>)
    requires BoundedStrategySearch(items, o).Ok?
    requires x in items && Eligible(x, o) && x !in BoundedStrategySearch(items, o).value
    requires forall y :: y in items && Eligible(y, o) ==> !Dominates(y, x)
    ensures |ahead| == o.maxNodes && x !in ahead && multiset(ahead) <= multiset(Filter(items, o))
    ensures forall y :: y in ahead ==> LexLeq(SearchKey(y), SearchKey(x))
  {
    TruncationIsSound(items, o, x);
    var sorted := SortBy(SearchKey, Filter(items, o));
    FilterMembers(items, o);
    SortByMembers(SearchKey, Filter(items, o));
    SortByCorrect(SearchKey, Filter(items, o));
    var j :| 0 <= j < |sorted| && sorted[j] == x;
    ahead := Ordered(items, o);
    assert forall k :: 0 <= k < |ahead| ==> sorted[k] in ahead;
    assert sorted == sorted[..|ahead|] + sorted[|ahead|..];
  }

  /** Coverage: every candidate of the prefix is returned or dominated by a returned one. */
  lemma {:induction false} PrefixIsCovered(items: seq<Candidate>, o: Options, i: nat) returns (r: Candidate)
    requires BoundedStrategySearch(items, o).Ok? && i < |Ordered(items, o)|
    ensures r in BoundedStrategySearch(items, o).value
    ensures r == Ordered(items, o)[i] || Dominates(r, Ordered(items, o)[i])
    decreases i
  {
    var cut := Ordered(items, o);
    r := cut[i];
    TruncationIsSound(items, o, cut[i]);
    if y :| y in items && Eligible(y, o) && Dominates(y, cut[i]) {
      CutKeepsDominators(items, o, i, y);
      var j :| 0 <= j < i && cut[j] == y;
      r := PrefixIsCovered(items, o, j);
      if r != y { DominanceTransitive(r, y, cut[i]); }
    }
  }

  /** The cheapest eligible cash value is always among the results. */
  lemma CheapestIsReturned(items: seq<Candidate>, o: Options, x: Candidate) returns (r: Candidate)
    requires BoundedStrategySearch(items, o).Ok? && x in items && Eligible(x, o)
    ensures r in BoundedStrategySearch(items, o).value && r.cash <= x.cash
  {
    var sorted := SortBy(SearchKey, Filter(items, o));
    FilterMembers(items, o);
    SortByMembers(SearchKey, Filter(items, o));
    SortByCorrect(SearchKey, Filter(items, o));
    HeadIsLeast(SearchKey, sorted, x);
    r := PrefixIsCovered(items, o, 0);
  }

  ghost predicate DistinctIds(items: multiset<Candidate>) {
    forall x, y :: x in items && y in items && x.id == y.id ==> x == y
  }

  /** Determinism: with distinct ids the result does not depend on the order of the input. */
  lemma SearchIgnoresInputOrder(items: seq<Candidate>, other: seq<Candidate>, o: Options)
    requires multiset(items) == multiset(other) && DistinctIds(multiset(items))
    ensures BoundedStrategySearch(items, o) == BoundedStrategySearch(other, o)
  {
    var a, b := Filter(items, o), Filter(other, o);
    forall x ensures multiset(a)[x] == multiset(b)[x] {
      FilterMultiset(items, o, x);
      FilterMultiset(other, o, x);
    }
    assert multiset(a) == multiset(b);
    assert KeyInjectiveOn(SearchKey, multiset(a)) by {
      forall x, y | x in multiset(a) && y in multiset(a) && SearchKey(x) == SearchKey(y) ensures x == y {
        FilterMultiset(items, o, x);
        FilterMultiset(items, o, y);
        assert SearchKey(x)[5] == x.id && SearchKey(y)[5] == y.id;
      }
    }
    SortByPermutation(SearchKey, a, b);
  }

  /** boundedExpand returns exactly the candidates within the ticket limit that none of them dominates. */
  lemma ExpandIsParetoFront(items: seq<Candidate>, maxTickets: int, x: Candidate)
    ensures x in BoundedExpand(items, maxTickets)
            <==> x in items && x.tickets <= maxTickets
                 && forall y :: y in items && y.tickets <= maxTickets ==> !Dominates(y, x)
  {
    var kept := WithinTickets(items, maxTickets);
    TicketMembers(items, maxTickets);
    FrontMembers(kept, kept);
  }

  lemma {:induction false} TicketMembers(items: seq<Candidate>, maxTickets: int)
    ensures forall x :: x in WithinTickets(items, maxTickets) <==> x in items && x.tickets <= maxTickets
  {
    if items != [] { TicketMembers(items[1..], maxTickets); }
  }
}
