/**
  Planning exact searches for a queued signal: a triple loop over routes, dates and stay lengths that
  skips trips ending after the travel window and stops at the query budget. It computes the first
  queries of the lexicographic product of what the campaign and the promotion allow.
*/
module SearchPlanner {
  import opened Values
  import opened Sorting

  /** Dates are day numbers counted from 1970-01-01; airports are their three letters. */
  datatype Route = Route(origin: string, destination: string)

  datatype Trip = Trip(route: Route, date: int, nights: int)

  datatype Slice = Slice(origin: string, destination: string, date: int)

  datatype Query = Query(slices: seq<Slice>)

  datatype Passenger = Passenger(hasType: bool, hasAge: bool)

  datatype Campaign = Campaign(
    origins: seq<string>, destinations: seq<string>, dates: seq<int>, lengths: seq<int>,
    passengers: seq<Passenger>, maxConnections: Option<int>, maxQueries: Option<int>)

  /** The travel window and the trip constraints of a promotion; all absent for other signals. */
  datatype Rules = Rules(
    start: Option<int>, end: Option<int>, blackout: set<int>, weekdays: set<int>,
    roundTrip: bool, minimumStay: Option<int>, maximumStay: Option<int>)

  datatype CampaignError =
    | OriginsInvalid | DestinationsInvalid | DatesInvalid | LengthsInvalid | PassengersInvalid
    | PassengerIdentityInvalid | ConnectionsInvalid | QueryBudgetInvalid

  // ----- validating a campaign -----

  predicate Iata(s: string) { |s| == 3 && forall i :: 0 <= i < 3 ==> 'A' <= s[i] <= 'Z' }

  /** First occurrences, in order. */
  function Uniq<T(==)>(s: seq<T>): seq<T> {
    if s == [] then []
    else
      var front := Uniq(s[..|s| - 1]);
      if s[|s| - 1] in front then front else front + [s[|s| - 1]]
  }

  function DayKey(d: int): seq<int> { [d] }

  function ValidateSearchCampaign(c: Campaign): Result<Campaign, CampaignError> {
    var origins, destinations := Uniq(c.origins), Uniq(c.destinations);
    var dates, lengths := Uniq(c.dates), Uniq(c.lengths);
    if |origins| < 1 || |origins| > 8 || (exists o :: o in origins && !Iata(o)) then Err(OriginsInvalid)
    else if |destinations| < 1 || |destinations| > 16 || (exists d :: d in destinations && !Iata(d))
      then Err(DestinationsInvalid)
    else if |dates| < 1 || |dates| > 32 then Err(DatesInvalid)
    else if |lengths| < 1 || |lengths| > 8 || (exists n :: n in lengths && (n < 0 || n > 30)) then Err(LengthsInvalid)
    else if |c.passengers| < 1 || |c.passengers| > 9 then Err(PassengersInvalid)
    else if exists p :: p in c.passengers && p.hasType == p.hasAge then Err(PassengerIdentityInvalid)
    else if c.maxConnections.Some? && (c.maxConnections.value < 0 || c.maxConnections.value > 3)
      then Err(ConnectionsInvalid)
    else
      var max := if c.maxQueries.Some? then c.maxQueries.value else 6;
      if max < 1 || max > 8 then Err(QueryBudgetInvalid)
      else Ok(Campaign(origins, destinations, SortBy(DayKey, dates), SortBy(DayKey, lengths),
                       c.passengers, c.maxConnections, Some(max)))
  }

  lemma {:induction false} UniqCorrect<T>(s: seq<T>)
    ensures forall x :: x in Uniq(s) <==> x in s
    ensures forall i, j :: 0 <= i < j < |Uniq(s)| ==> Uniq(s)[i] != Uniq(s)[j]
  {
    if s != [] { UniqCorrect(s[..|s| - 1]); }
  }

  lemma {:induction false} DistinctKept<T>(a: seq<T>, b: seq<T>)
    requires multiset(a) == multiset(b)
    requires forall i, j :: 0 <= i < j < |a| ==> a[i] != a[j]
    ensures forall i, j :: 0 <= i < j < |b| ==> b[i] != b[j]
  {
    forall i, j | 0 <= i < j < |b| ensures b[i] != b[j] {
      if b[i] == b[j] {
        assert b == b[..i] + [b[i]] + b[i + 1..j] + [b[j]] + b[j + 1..];
        assert multiset(b)[b[i]] >= 2;
        OnceIfDistinct(a, b[i]);
      }
    }
  }

  lemma {:induction false} OnceIfDistinct<T>(a: seq<T>, x: T)
    requires forall i, j :: 0 <= i < j < |a| ==> a[i] != a[j]
    ensures multiset(a)[x] <= 1
  {
    if a != [] {
      assert a == [a[0]] + a[1..];
      OnceIfDistinct(a[1..], x);
      if x == a[0] { assert x !in a[1..]; }
    }
  }

  /**
    An accepted campaign has the same origins, destinations, dates and lengths, each once, within the
    limits, with dates and lengths strictly ascending.
  */
  lemma ValidCampaign(c: Campaign)
    requires ValidateSearchCampaign(c).Ok?
    ensures var v := ValidateSearchCampaign(c).value;
            && (forall x :: x in v.origins <==> x in c.origins)
              && (forall x :: x in v.destinations <==> x in c.destinations)
            && (forall x :: x in v.dates <==> x in c.dates) && (forall x :: x in v.lengths <==> x in c.lengths)
            && (forall o :: o in v.origins ==> Iata(o)) && (forall d :: d in v.destinations ==> Iata(d))
            && (forall n :: n in v.lengths ==> 0 <= n <= 30) && 1 <= v.maxQueries.value <= 8
            && (forall i, j :: 0 <= i < j < |v.dates| ==> v.dates[i] < v.dates[j])
            && (forall i, j :: 0 <= i < j < |v.lengths| ==> v.lengths[i] < v.lengths[j])
  {
    UniqCorrect(c.origins);
    UniqCorrect(c.destinations);
    UniqCorrect(c.lengths);
    SortedDays(c.dates);
    SortedDays(c.lengths);
  }

  lemma SortedDays(s: seq<int>)
    ensures var v := SortBy(DayKey, Uniq(s));
            && (forall x :: x in v <==> x in s)
            && (forall i, j :: 0 <= i < j < |v| ==> v[i] < v[j])
  {
    var v := SortBy(DayKey, Uniq(s));
    UniqCorrect(s);
    SortByCorrect(DayKey, Uniq(s));
    SameMembers(v, Uniq(s));
    DistinctKept(Uniq(s), v);
    forall i, j | 0 <= i < j < |v| ensures v[i] < v[j] { assert LexLeq(DayKey(v[i]), DayKey(v[j])); }
  }

  // ----- what is allowed -----

  /** 1 for Monday to 7 for Sunday; day 0 was a Thursday. */
  function IsoWeekday(date: int): int { (date + 3) % 7 + 1 }

  predicate RouteAllowed(r: Route, c: Campaign) { r.origin in c.origins && r.destination in c.destinations }

  predicate DateAllowed(d: int, rules: Rules) {
    && (rules.start.Some? ==> d >= rules.start.value)
    && (rules.end.Some? ==> d <= rules.end.value)
    && d !in rules.blackout
    && (rules.weekdays == {} || IsoWeekday(d) in rules.weekdays)
  }

  predicate LengthAllowed(n: int, rules: Rules) {
    && (rules.roundTrip ==> n > 0)
    && (rules.minimumStay.Some? ==> n >= rules.minimumStay.value)
    && (rules.maximumStay.Some? ==> n <= rules.maximumStay.value)
  }

  /** A round trip must be back before the travel window ends. */
  predicate BackInTime(t: Trip, rules: Rules) {
    t.nights > 0 && rules.end.Some? ==> t.date + t.nights <= rules.end.value
  }

  /** Every rule at once: what a planned trip must meet. */
  predicate TripAllowed(t: Trip, c: Campaign, scope: seq<Route>, rules: Rules) {
    && t.route in scope && RouteAllowed(t.route, c)
    && t.date in c.dates && DateAllowed(t.date, rules)
    && t.nights in c.lengths && LengthAllowed(t.nights, rules)
    && BackInTime(t, rules)
  }

  function QueryOf(t: Trip): Query {
    var out := Slice(t.route.origin, t.route.destination, t.date);
    Query(if t.nights > 0 then [out] + [Slice(t.route.destination, t.route.origin, t.date + t.nights)] else [out])
  }

  // ----- the declarative enumeration -----

  function Filter<T>(keep: T -> bool, s: seq<T>): seq<T> {
    if s == [] then []
    else Filter(keep, s[..|s| - 1]) + if keep(s[|s| - 1]) then [s[|s| - 1]] else []
  }

  function ByLength(r: Route, d: int, lengths: seq<int>): (t: seq<Trip>)
    ensures |t| == |lengths| && forall k :: 0 <= k < |t| ==> t[k] == Trip(r, d, lengths[k])
  {
    if lengths == [] then []
    else ByLength(r, d, lengths[..|lengths| - 1]) + [Trip(r, d, lengths[|lengths| - 1])]
  }

  function ByDate(r: Route, dates: seq<int>, lengths: seq<int>): seq<Trip> {
    if dates == [] then []
    else ByDate(r, dates[..|dates| - 1], lengths) + ByLength(r, dates[|dates| - 1], lengths)
  }

  /** The product in lexicographic order. */
  function Trips(routes: seq<Route>, dates: seq<int>, lengths: seq<int>): seq<Trip> {
    if routes == [] then []
    else Trips(routes[..|routes| - 1], dates, lengths) + ByDate(routes[|routes| - 1], dates, lengths)
  }

  function Codes(s: string): (r: seq<int>)
    ensures |r| == |s| && forall i :: 0 <= i < |s| ==> r[i] == s[i] as int
  {
    seq(|s|, i requires 0 <= i < |s| => s[i] as int)
  }

  function RouteKey(r: Route): seq<int> { Codes(r.origin) + Codes(r.destination) }

  function TripKey(t: Trip): seq<int> { RouteKey(t.route) + [t.date, t.nights] }

  function Routes(c: Campaign, scope: seq<Route>): seq<Route> {
    SortBy(RouteKey, Filter(r => RouteAllowed(r, c), scope))
  }

  function Dates(c: Campaign, rules: Rules): seq<int> {
    SortBy(DayKey, Filter(d => DateAllowed(d, rules), c.dates))
  }

  function Lengths(c: Campaign, rules: Rules): seq<int> {
    SortBy(DayKey, Filter(n => LengthAllowed(n, rules), c.lengths))
  }

  function InTime(rules: Rules): Trip -> bool { t => BackInTime(t, rules) }

  /** All candidate trips in order. */
  function Candidates(c: Campaign, scope: seq<Route>, rules: Rules): seq<Trip> {
    Filter(InTime(rules), Trips(Routes(c, scope), Dates(c, rules), Lengths(c, rules)))
  }

  /** A stored budget of zero reads as the default. */
  function Budget(c: Campaign): int { if c.maxQueries.None? || c.maxQueries.value == 0 then 6 else c.maxQueries.value }

  lemma QueryBuilt(t: Trip, slices: seq<Slice>)
    requires |slices| == (if t.nights > 0 then 2 else 1)
             && slices[0] == Slice(t.route.origin, t.route.destination, t.date)
    requires t.nights > 0 ==> slices[1] == Slice(t.route.destination, t.route.origin, t.date + t.nights)
    ensures Query(slices) == QueryOf(t)
  {}

  function QueriesOf(trips: seq<Trip>): (r: seq<Query>)
    ensures |r| == |trips| && forall i :: 0 <= i < |trips| ==> r[i] == QueryOf(trips[i])
  {
    seq(|trips|, i requires 0 <= i < |trips| => QueryOf(trips[i]))
  }

  function First<T>(s: seq<T>, max: int): seq<T> { if |s| <= Max(1, max) then s else s[..Max(1, max)] }

  function Planned(c: Campaign, scope: seq<Route>, rules: Rules): seq<Trip> {
    First(Candidates(c, scope, rules), Budget(c))
  }

  // ----- the loop -----

  predicate Prefix<T(==)>(a: seq<T>, b: seq<T>) { |a| <= |b| && a == b[..|a|] }

  lemma {:induction false} FilterAppend<T>(keep: T -> bool, a: seq<T>, b: seq<T>)
    ensures Filter(keep, a + b) == Filter(keep, a) + Filter(keep, b)
    decreases |b|
  {
    if b == [] {
      assert a + b == a;
    } else {
      FilterAppend(keep, a, b[..|b| - 1]);
      assert (a + b)[..|a + b| - 1] == a + b[..|b| - 1];
    }
  }

  lemma FilterPrefix<T>(keep: T -> bool, a: seq<T>, b: seq<T>)
    requires Prefix(a, b)
    ensures Prefix(Filter(keep, a), Filter(keep, b))
  {
    assert b == a + b[|a|..];
    FilterAppend(keep, a, b[|a|..]);
  }

  lemma {:induction false} ByDatePrefix(r: Route, dates: seq<int>, lengths: seq<int>, j: nat)
    requires j <= |dates|
    ensures Prefix(ByDate(r, dates[..j], lengths), ByDate(r, dates, lengths))
    decreases |dates| - j
  {
    if j == |dates| {
      assert dates[..j] == dates;
    } else {
      assert dates[..j + 1][..j] == dates[..j];
      ByDatePrefix(r, dates, lengths, j + 1);
    }
  }

  lemma {:induction false} TripsPrefix(routes: seq<Route>, dates: seq<int>, lengths: seq<int>, i: nat)
    requires i <= |routes|
    ensures Prefix(Trips(routes[..i], dates, lengths), Trips(routes, dates, lengths))
    decreases |routes| - i
  {
    if i == |routes| {
      assert routes[..i] == routes;
    } else {
      assert routes[..i + 1][..i] == routes[..i];
      TripsPrefix(routes, dates, lengths, i + 1);
    }
  }

  /** The trips before position (i, j, k) of the loop nest. */
  function Before(routes: seq<Route>, dates: seq<int>, lengths: seq<int>, i: nat, j: nat, k: nat): seq<Trip>
    requires i < |routes| && j < |dates| && k <= |lengths|
  {
    Trips(routes[..i], dates, lengths) + ByDate(routes[i], dates[..j], lengths)
      + ByLength(routes[i], dates[j], lengths[..k])
  }

  lemma PrefixExtends<T>(a: seq<T>, x: seq<T>, y: seq<T>)
    requires Prefix(x, y)
    ensures Prefix(a + x, a + y)
  {}

  lemma PrefixTransitive<T>(a: seq<T>, b: seq<T>, c: seq<T>)
    requires Prefix(a, b) && Prefix(b, c)
    ensures Prefix(a, c)
  {}

  lemma InnerPrefix(r: Route, dates: seq<int>, lengths: seq<int>, j: nat, k: nat)
    requires j < |dates| && k <= |lengths|
    ensures Prefix(ByDate(r, dates[..j], lengths) + ByLength(r, dates[j], lengths[..k]), ByDate(r, dates, lengths))
  {
    var inner := ByDate(r, dates[..j], lengths);
    assert dates[..j + 1][..j] == dates[..j];
    ByDatePrefix(r, dates, lengths, j + 1);
    PrefixExtends(inner, ByLength(r, dates[j], lengths[..k]), ByLength(r, dates[j], lengths));
    PrefixTransitive(inner + ByLength(r, dates[j], lengths[..k]), ByDate(r, dates[..j + 1], lengths),
      ByDate(r, dates, lengths));
  }

  lemma BeforeIsPrefix(routes: seq<Route>, dates: seq<int>, lengths: seq<int>, i: nat, j: nat, k: nat)
    requires i < |routes| && j < |dates| && k <= |lengths|
    ensures Prefix(Before(routes, dates, lengths, i, j, k), Trips(routes, dates, lengths))
  {
    var head := Trips(routes[..i], dates, lengths);
    var inner := ByDate(routes[i], dates[..j], lengths) + ByLength(routes[i], dates[j], lengths[..k]);
    InnerPrefix(routes[i], dates, lengths, j, k);
    PrefixExtends(head, inner, ByDate(routes[i], dates, lengths));
    assert routes[..i + 1][..i] == routes[..i];
    TripsPrefix(routes, dates, lengths, i + 1);
    assert Before(routes, dates, lengths, i, j, k) == head + inner;
    PrefixTransitive(head + inner, Trips(routes[..i + 1], dates, lengths), Trips(routes, dates, lengths));
  }

  lemma Advance(keep: Trip -> bool, routes: seq<Route>, dates: seq<int>, lengths: seq<int>, i: nat, j: nat, k: nat)
    requires i < |routes| && j < |dates| && k < |lengths|
    ensures var t := Trip(routes[i], dates[j], lengths[k]);
            Filter(keep, Before(routes, dates, lengths, i, j, k + 1))
            == Filter(keep, Before(routes, dates, lengths, i, j, k)) + if keep(t) then [t] else []
  {
    var t := Trip(routes[i], dates[j], lengths[k]);
    assert lengths[..k + 1][..k] == lengths[..k];
    assert Before(routes, dates, lengths, i, j, k + 1) == Before(routes, dates, lengths, i, j, k) + [t];
    FilterAppend(keep, Before(routes, dates, lengths, i, j, k), [t]);
    assert [t][..0] == [];
  }

  lemma RouteStarts(routes: seq<Route>, dates: seq<int>, lengths: seq<int>, i: nat)
    requires i < |routes|
    ensures Trips(routes[..i], dates, lengths)
            + ByDate(routes[i], dates[..0], lengths) == Trips(routes[..i], dates, lengths)
  {}

  lemma RouteEnds(routes: seq<Route>, dates: seq<int>, lengths: seq<int>, i: nat)
    requires i < |routes|
    ensures Trips(routes[..i], dates, lengths)
            + ByDate(routes[i], dates[..|dates|], lengths) == Trips(routes[..i + 1], dates, lengths)
  {
    assert dates[..|dates|] == dates;
    assert routes[..i + 1][..i] == routes[..i];
  }

  lemma BeforeStarts(routes: seq<Route>, dates: seq<int>, lengths: seq<int>, i: nat, j: nat)
    requires i < |routes| && j < |dates|
    ensures Before(routes, dates, lengths, i, j, 0) == Trips(routes[..i], dates, lengths)
            + ByDate(routes[i], dates[..j], lengths)
  {}

  lemma BeforeEnds(routes: seq<Route>, dates: seq<int>, lengths: seq<int>, i: nat, j: nat)
    requires i < |routes| && j < |dates|
    ensures Before(routes, dates, lengths, i, j, |lengths|)
            == Trips(routes[..i], dates, lengths) + ByDate(routes[i], dates[..j + 1], lengths)
  {
    assert lengths[..|lengths|] == lengths;
    assert dates[..j + 1][..j] == dates[..j];
  }

  lemma QueriesSnoc(trips: seq<Trip>, t: Trip)
    ensures QueriesOf(trips + [t]) == QueriesOf(trips) + [QueryOf(t)]
  {}

  /** A break in the loop nest leaves exactly the planned trips. */
  lemma StopsAtBudget(keep: Trip -> bool, routes: seq<Route>, dates: seq<int>, lengths: seq<int>, max: int, i: nat,
    j: nat, k: nat)
    requires i < |routes| && j < |dates| && k <= |lengths|
    requires |Filter(keep, Before(routes, dates, lengths, i, j, k))| == Max(1, max)
    ensures Filter(keep, Before(routes, dates, lengths, i, j, k))
            == First(Filter(keep, Trips(routes, dates, lengths)), max)
  {
    BeforeIsPrefix(routes, dates, lengths, i, j, k);
    FilterPrefix(keep, Before(routes, dates, lengths, i, j, k), Trips(routes, dates, lengths));
  }

  method PlanSearchesForQueue(c: Campaign, scope: seq<Route>, rules: Rules) returns (queries: seq<Query>)
    ensures queries == QueriesOf(Planned(c, scope, rules))
  {
    queries := Enumerate(Routes(c, scope), Dates(c, rules), Lengths(c, rules), rules, Budget(c));
  }

  method Enumerate(routes: seq<Route>, dates: seq<int>, lengths: seq<int>, rules: Rules, max: int)
    returns (queries: seq<Query>)
    ensures queries == QueriesOf(First(Filter(InTime(rules), Trips(routes, dates, lengths)), max))
  {
    queries := [];
    ghost var keep := InTime(rules);
    ghost var trips: seq<Trip> := [];
    ghost var target := First(Filter(keep, Trips(routes, dates, lengths)), max);
    label outer:
    for i := 0 to |routes|
      invariant trips == Filter(keep, Trips(routes[..i], dates, lengths))
      invariant queries == QueriesOf(trips) && |queries| < Max(1, max)
    {
      RouteStarts(routes, dates, lengths, i);
      for j := 0 to |dates|
        invariant trips == Filter(keep, Trips(routes[..i], dates, lengths) + ByDate(routes[i], dates[..j], lengths))
        invariant queries == QueriesOf(trips) && |queries| < Max(1, max)
      {
        BeforeStarts(routes, dates, lengths, i, j);
        for k := 0 to |lengths|
          invariant trips == Filter(keep, Before(routes, dates, lengths, i, j, k))
          invariant queries == QueriesOf(trips) && |queries| < Max(1, max)
        {
          var origin, destination, date, nights := routes[i].origin, routes[i].destination, dates[j], lengths[k];
          Advance(keep, routes, dates, lengths, i, j, k);
          var slices := [Slice(origin, destination, date)];
          if nights > 0 {
            var back := date + nights;
            if rules.end.Some? && back > rules.end.value { continue; }
            slices := slices + [Slice(destination, origin, back)];
          }
          ghost var t := Trip(routes[i], date, nights);
          QueryBuilt(t, slices);
          QueriesSnoc(trips, t);
          queries, trips := queries + [Query(slices)], trips + [t];
          if |queries| >= max {
            StopsAtBudget(keep, routes, dates, lengths, max, i, j, k + 1);
            assert trips == target;
            break outer;
          }
        }
        BeforeEnds(routes, dates, lengths, i, j);
      }
      RouteEnds(routes, dates, lengths, i);
    }
    assert routes[..|routes|] == routes;
    assert trips == target;
  }

  // ----- what the plan is -----

  lemma {:induction false} FilterMembers<T>(keep: T -> bool, s: seq<T>)
    ensures forall x :: x in Filter(keep, s) <==> x in s && keep(x)
  {
    if s != [] {
      FilterMembers(keep, s[..|s| - 1]);
      assert s == s[..|s| - 1] + [s[|s| - 1]];
    }
  }

  lemma {:induction false} ByDateMembers(r: Route, dates: seq<int>, lengths: seq<int>, t: Trip)
    ensures t in ByDate(r, dates, lengths) <==> t.route == r && t.date in dates && t.nights in lengths
  {
    if dates != [] {
      ByDateMembers(r, dates[..|dates| - 1], lengths, t);
      var d := dates[|dates| - 1];
      assert dates == dates[..|dates| - 1] + [d];
      assert t in ByLength(r, d, lengths) <==> t.route == r && t.date == d && t.nights in lengths by {
        if t.route == r && t.date == d && t.nights in lengths {
          var k :| 0 <= k < |lengths| && lengths[k] == t.nights;
          assert ByLength(r, d, lengths)[k] == t;
        }
      }
    }
  }

  lemma {:induction false} TripsMembers(routes: seq<Route>, dates: seq<int>, lengths: seq<int>, t: Trip)
    ensures t in Trips(routes, dates, lengths) <==> t.route in routes && t.date in dates && t.nights in lengths
  {
    if routes != [] {
      TripsMembers(routes[..|routes| - 1], dates, lengths, t);
      ByDateMembers(routes[|routes| - 1], dates, lengths, t);
      assert routes == routes[..|routes| - 1] + [routes[|routes| - 1]];
    }
  }

  /** The candidates are exactly the trips that meet every rule. */
  lemma CandidatesAreAllowed(c: Campaign, scope: seq<Route>, rules: Rules, t: Trip)
    ensures t in Candidates(c, scope, rules) <==> TripAllowed(t, c, scope, rules)
  {
    var routes, dates, lengths := Routes(c, scope), Dates(c, rules), Lengths(c, rules);
    FilterMembers(InTime(rules), Trips(routes, dates, lengths));
    TripsMembers(routes, dates, lengths, t);
    RoutesMembers(c, scope, t.route);
    DaysMembers(d => DateAllowed(d, rules), c.dates, t.date);
    DaysMembers(n => LengthAllowed(n, rules), c.lengths, t.nights);
  }

  lemma RoutesMembers(c: Campaign, scope: seq<Route>, r: Route)
    ensures r in Routes(c, scope) <==> r in scope && RouteAllowed(r, c)
  {
    var kept := Filter(x => RouteAllowed(x, c), scope);
    FilterMembers(x => RouteAllowed(x, c), scope);
    SortByCorrect(RouteKey, kept);
    SameMembers(SortBy(RouteKey, kept), kept);
  }

  lemma DaysMembers(keep: int -> bool, s: seq<int>, d: int)
    ensures d in SortBy(DayKey, Filter(keep, s)) <==> d in s && keep(d)
  {
    FilterMembers(keep, s);
    SortByCorrect(DayKey, Filter(keep, s));
    SameMembers(SortBy(DayKey, Filter(keep, s)), Filter(keep, s));
  }

  // ----- the order of the plan -----

  lemma {:induction false} LexAppend(a: seq<int>, b: seq<int>, x: seq<int>, y: seq<int>)
    requires |a| == |b| && LexLeq(a, b) && (a == b ==> LexLeq(x, y))
    ensures LexLeq(a + x, b + y)
  {
    if a == [] {
      assert a + x == x && b + y == y;
    } else {
      assert (a + x)[1..] == a[1..] + x && (b + y)[1..] == b[1..] + y;
      if a[0] == b[0] {
        assert a == [a[0]] + a[1..] && b == [b[0]] + b[1..];
        LexAppend(a[1..], b[1..], x, y);
      }
    }
  }

  /** Airports have three letters, so comparing concatenated pairs compares routes. */
  predicate RouteOk(r: Route) { |r.origin| == 3 && |r.destination| == 3 }

  lemma TripOrder(a: Trip, b: Trip)
    requires RouteOk(a.route) && RouteOk(b.route) && LexLeq(RouteKey(a.route), RouteKey(b.route))
    requires RouteKey(a.route) == RouteKey(b.route) ==> a.date < b.date || (a.date == b.date && a.nights <= b.nights)
    ensures LexLeq(TripKey(a), TripKey(b))
  {
    LexAppend(RouteKey(a.route), RouteKey(b.route), [a.date, a.nights], [b.date, b.nights]);
  }

  ghost predicate Ascending(s: seq<int>) { forall i, j :: 0 <= i < j < |s| ==> s[i] < s[j] }

  ghost predicate AscendingRoutes(s: seq<Route>) {
    && (forall r :: r in s ==> RouteOk(r))
    && (forall i, j :: 0 <= i < j < |s| ==> LexLeq(RouteKey(s[i]), RouteKey(s[j])) && RouteKey(s[i]) != RouteKey(s[j]))
  }

  lemma {:induction false} ByDateSorted(r: Route, dates: seq<int>, lengths: seq<int>)
    requires RouteOk(r) && Ascending(dates) && Ascending(lengths)
    ensures SortedBy(TripKey, ByDate(r, dates, lengths))
  {
    LexTotal(RouteKey(r), RouteKey(r));
    if dates != [] {
      var front, d := dates[..|dates| - 1], dates[|dates| - 1];
      ByDateSorted(r, front, lengths);
      var a, b := ByDate(r, front, lengths), ByLength(r, d, lengths);
      assert SortedBy(TripKey, b) by {
        forall i, j | 0 <= i < j < |b| ensures LexLeq(TripKey(b[i]), TripKey(b[j])) { TripOrder(b[i], b[j]); }
      }
      forall x, y | x in a && y in b ensures LexLeq(TripKey(x), TripKey(y)) {
        ByDateMembers(r, front, lengths, x);
        TripOrder(x, y);
      }
      SortedAppend(TripKey, a, b);
    }
  }

  lemma {:induction false} TripsSorted(routes: seq<Route>, dates: seq<int>, lengths: seq<int>)
    requires AscendingRoutes(routes) && Ascending(dates) && Ascending(lengths)
    ensures SortedBy(TripKey, Trips(routes, dates, lengths))
  {
    if routes != [] {
      var front, r := routes[..|routes| - 1], routes[|routes| - 1];
      TripsSorted(front, dates, lengths);
      ByDateSorted(r, dates, lengths);
      forall x, y | x in Trips(front, dates, lengths) && y in ByDate(r, dates, lengths)
        ensures LexLeq(TripKey(x), TripKey(y)) {
        TripsMembers(front, dates, lengths, x);
        ByDateMembers(r, dates, lengths, y);
        var m :| 0 <= m < |front| && front[m] == x.route;
        assert routes[m] in routes && r in routes;
        TripOrder(x, y);
      }
      SortedAppend(TripKey, Trips(front, dates, lengths), ByDate(r, dates, lengths));
    }
  }

  lemma SortedAppend<T>(key: T -> seq<int>, a: seq<T>, b: seq<T>)
    requires SortedBy(key, a) && SortedBy(key, b)
    requires forall x, y :: x in a && y in b ==> LexLeq(key(x), key(y))
    ensures SortedBy(key, a + b)
  {
    forall i, j | 0 <= i < j < |a + b| ensures LexLeq(key((a + b)[i]), key((a + b)[j])) {
      if j < |a| {
        assert LexLeq(key(a[i]), key(a[j]));
      } else if i >= |a| {
        assert LexLeq(key(b[i - |a|]), key(b[j - |a|]));
      } else {
        assert a[i] in a && b[j - |a|] in b;
      }
    }
  }

  lemma {:induction false} FilteredIn<T>(keep: T -> bool, s: seq<T>, x: T)
    requires x in Filter(keep, s)
    ensures x in s
  {
    if x !in Filter(keep, s[..|s| - 1]) {
      assert x == s[|s| - 1];
    } else {
      FilteredIn(keep, s[..|s| - 1], x);
    }
  }

  lemma {:induction false} FilterSorted<T>(key: T -> seq<int>, keep: T -> bool, s: seq<T>)
    requires SortedBy(key, s)
    ensures SortedBy(key, Filter(keep, s))
  {
    if s != [] {
      var front, last := s[..|s| - 1], s[|s| - 1];
      FilterSorted(key, keep, front);
      FilterMembers(keep, front);
      forall x | x in front ensures LexLeq(key(x), key(last)) {
        var i :| 0 <= i < |front| && front[i] == x;
        assert LexLeq(key(s[i]), key(s[|s| - 1]));
      }
      var tail := if keep(last) then [last] else [];
      forall x, y | x in Filter(keep, front) && y in tail ensures LexLeq(key(x), key(y)) {
        FilteredIn(keep, front, x);
      }
      SortedAppend(key, Filter(keep, front), tail);
    }
  }

  lemma KeyTellsRoute(a: Route, b: Route)
    requires RouteOk(a) && RouteOk(b) && RouteKey(a) == RouteKey(b)
    ensures a == b
  {
    forall i | 0 <= i < 3 ensures a.origin[i] == b.origin[i] && a.destination[i] == b.destination[i] {
      assert RouteKey(a)[i] == RouteKey(b)[i] && RouteKey(a)[i + 3] == RouteKey(b)[i + 3];
    }
  }

  /** A stored campaign is a validated one; a scope that repeats a route repeats its trips. */
  ghost predicate Stored(c: Campaign, scope: seq<Route>) {
    && Ascending(c.dates) && Ascending(c.lengths)
    && (forall o :: o in c.origins ==> Iata(o)) && (forall d :: d in c.destinations ==> Iata(d))
    && (forall i, j :: 0 <= i < j < |scope| ==> scope[i] != scope[j])
  }

  lemma {:induction false} FilterDistinct<T>(keep: T -> bool, s: seq<T>)
    requires forall i, j :: 0 <= i < j < |s| ==> s[i] != s[j]
    ensures forall i, j :: 0 <= i < j < |Filter(keep, s)| ==> Filter(keep, s)[i] != Filter(keep, s)[j]
  {
    if s != [] {
      FilterDistinct(keep, s[..|s| - 1]);
      FilterMembers(keep, s[..|s| - 1]);
    }
  }

  lemma RoutesAscend(c: Campaign, scope: seq<Route>)
    requires Stored(c, scope)
    ensures AscendingRoutes(Routes(c, scope))
  {
    var kept := Filter(r => RouteAllowed(r, c), scope);
    var routes := Routes(c, scope);
    FilterDistinct(r => RouteAllowed(r, c), scope);
    SortByCorrect(RouteKey, kept);
    DistinctKept(kept, routes);
    forall r | r in routes ensures RouteOk(r) { RoutesMembers(c, scope, r); }
    forall i, j | 0 <= i < j < |routes| ensures RouteKey(routes[i]) != RouteKey(routes[j]) {
      assert routes[i] in routes && routes[j] in routes;
      if RouteKey(routes[i]) == RouteKey(routes[j]) { KeyTellsRoute(routes[i], routes[j]); }
    }
  }

  lemma DaysAscend(keep: int -> bool, s: seq<int>)
    requires Ascending(s)
    ensures Ascending(SortBy(DayKey, Filter(keep, s)))
  {
    var kept := Filter(keep, s);
    var days := SortBy(DayKey, kept);
    FilterDistinct(keep, s);
    SortByCorrect(DayKey, kept);
    DistinctKept(kept, days);
    forall i, j | 0 <= i < j < |days| ensures days[i] < days[j] { assert LexLeq(DayKey(days[i]), DayKey(days[j])); }
  }

  lemma CandidatesSorted(c: Campaign, scope: seq<Route>, rules: Rules)
    requires Stored(c, scope)
    ensures SortedBy(TripKey, Candidates(c, scope, rules))
  {
    RoutesAscend(c, scope);
    DaysAscend(d => DateAllowed(d, rules), c.dates);
    DaysAscend(n => LengthAllowed(n, rules), c.lengths);
    var trips := Trips(Routes(c, scope), Dates(c, rules), Lengths(c, rules));
    TripsSorted(Routes(c, scope), Dates(c, rules), Lengths(c, rules));
    FilterSorted(TripKey, InTime(rules), trips);
  }

  /**
    The plan meets every rule and stays within the budget; it is complete when it stays below the
    budget; and no allowed trip that is left out sorts before one that is planned.
  */
  lemma PlanIsExact(c: Campaign, scope: seq<Route>, rules: Rules, t: Trip)
    ensures var plan := Planned(c, scope, rules);
            && |plan| <= Max(1, Budget(c))
            && (t in plan ==> TripAllowed(t, c, scope, rules))
            && (|plan| < Max(1, Budget(c)) ==> (t in plan <==> TripAllowed(t, c, scope, rules)))
    ensures var plan := Planned(c, scope, rules);
            Stored(c, scope) && TripAllowed(t, c, scope, rules) && t !in plan
            ==> SortedBy(TripKey, plan) && forall p :: p in plan ==> LexLeq(TripKey(p), TripKey(t))
  {
    var all, plan := Candidates(c, scope, rules), Planned(c, scope, rules);
    CandidatesAreAllowed(c, scope, rules, t);
    if t in plan {
      var i :| 0 <= i < |plan| && plan[i] == t;
      assert all[i] == t;
    }
    if Stored(c, scope) && t in all && t !in plan {
      CandidatesSorted(c, scope, rules);
      var n :| 0 <= n < |all| && all[n] == t;
      assert n >= |plan|;
    }
  }

  /** Different trips are different queries, so the queries carry no less than the trips. */
  lemma QueryTellsTrip(a: Trip, b: Trip)
    requires a.nights >= 0 && b.nights >= 0 && QueryOf(a) == QueryOf(b)
    ensures a == b
  {
    assert QueryOf(a).slices[0] == QueryOf(b).slices[0];
    if a.nights > 0 { assert QueryOf(a).slices[1] == QueryOf(b).slices[1]; }
  }
}
