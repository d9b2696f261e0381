/**
  When an offer whose expiry has been recorded for a result becomes a support of that result again, and
  what holds of runs in which none does. Such an offer is never due again, so its expiry goes unnoticed.
*/
module SupportRevival {
  import V = Verification
  import Promotion
  import opened ProviderResults
  import opened OfferLifecycle
  import opened CacheAgreement

  /** Events retire supports: no offer with an event for a result supports it. */
  ghost predicate NoneRevived(t: Tables) { forall e {:trigger e in t.events} :: e in t.events ==> NotRevived(t, e) }

  predicate NotRevived(t: Tables, e: (Key, nat)) { e.1 !in SupportsOf(t, e.0) }

  /** A recomputation that reads at a time before the expiry of an offer with an event, and names that offer. */
  ghost predicate NamesRetired(t: Tables, k: Key, rows: seq<Offer>, now: int) {
    exists o :: && (k, o) in t.events && o in t.offers && !Expired(t.offers[o].expiry, now)
                && o in NamedIds(t, k, rows, now)
  }

  /** Such a recomputation, or the event of an expiry whose offer another recomputation has named since. */
  ghost predicate Revives(s: Lane, a: Action) {
    match a
    case Refresh(now, k, rows) => NamesRetired(s.t, k, rows, now)
    case Recheck(token, rows) =>
      token in s.flights && NamesRetired(s.t, s.flights[token].key, rows, s.flights[token].now)
    case Rotate(token) => token in s.flights && s.flights[token].offer in SupportsOf(s.t, s.flights[token].key)
    case _ => false
  }

  lemma RecomputeRevivesIff(t: Tables, k: Key, rows: seq<Offer>, now: int)
    requires CacheOk(t) && NoneRevived(t) && RowsOf(t, k, rows)
    ensures NoneRevived(Recompute(t, k, rows, now)) <==> !NamesRetired(t, k, rows, now)
  {
    var u := Recompute(t, k, rows, now);
    RecomputeRecordsNamed(t, k, rows, now);
    if o :| (k, o) in t.events && o in t.offers && !Expired(t.offers[o].expiry, now) && o in NamedIds(t, k, rows, now) {
      assert (k, o) in u.events && !NotRevived(u, (k, o));
    } else {
      forall e | e in u.events ensures NotRevived(u, e) {
        assert NotRevived(t, e) && EventOk(t, e);
        if e.0 == k {
          assert e == (k, e.1);
          if Expired(t.offers[e.1].expiry, now) { SupportsNotExpired(t, k, rows, now, e.1); }
        }
      }
    }
  }

  lemma RotateRevivesIff(t: Tables, f: Flight)
    requires NoneRevived(t)
    ensures NoneRevived(RotateTables(t, f)) <==> f.offer !in SupportsOf(t, f.key)
  {
    var u := RotateTables(t, f);
    assert (f.key, f.offer) in u.events;
    forall e | e in u.events && e != (f.key, f.offer) ensures NotRevived(u, e) { assert NotRevived(t, e); }
  }

  lemma BatchRevivesNone(t: Tables, f: Flight, visible: bool)
    requires NoneRevived(t) && f.key in t.results
    ensures NoneRevived(BatchTables(t, f, visible))
  {
    var u := BatchTables(t, f, visible);
    forall e | e in u.events ensures NotRevived(u, e) { assert e in t.events ==> NotRevived(t, e); }
  }

  lemma SameSupportsReviveNone(t: Tables, u: Tables)
    requires NoneRevived(t) && u.supports == t.supports && u.events.Keys == t.events.Keys
    ensures NoneRevived(u)
  {
    forall e | e in u.events ensures NotRevived(u, e) { assert NotRevived(t, e); }
  }

  /** The other steps write neither supports nor new events. */
  lemma SupportsUntouched(s: Lane, a: Action)
    requires !a.Refresh? && !a.Recheck? && !a.Batch? && !a.Rotate?
    ensures Apply(s, a).t.supports == s.t.supports && Apply(s, a).t.events.Keys == s.t.events.Keys
  {
    match a {
      case IngestOffer(o) => assert Apply(s, a).t == Ingest(s.t, o);
      case LinkOffers(k, job) => assert Apply(s, a).t == LinkJob(s.t, k, job);
      case Trigger(token, k) => assert Apply(s, a) == TriggerStep(s, token, k);
      case Select(token, o) => assert Apply(s, a) == SelectStep(s, token, o);
      case Reprice(now, e, jobs, errors) => assert Apply(s, a) == RepriceStep(s, e, now, jobs, errors);
      case CorrectionEnqueue(now, e) => assert Apply(s, a) == CorrectionEnqueueStep(s, e, now);
      case CorrectionMark(e) => assert Apply(s, a) == CorrectionMarkStep(s, e);
      case _ =>
    }
  }

  /** Exactly these steps revive an offer. */
  lemma StepRevivesIff(s: Lane, a: Action)
    requires Reachable(s) && Enabled(s, a) && NoneRevived(s.t)
    ensures NoneRevived(Apply(s, a).t) <==> !Revives(s, a)
  {
    ReachableLaneOk(s);
    StepRevives(s, a);
  }

  lemma StepRevives(s: Lane, a: Action)
    requires LaneOk(s) && Enabled(s, a) && NoneRevived(s.t)
    ensures NoneRevived(Apply(s, a).t) <==> !Revives(s, a)
  {
    match a {
      case Refresh(now, k, rows) => RecomputeRevivesIff(s.t, k, rows, now);
      case Recheck(token, rows) => RecomputeRevivesIff(s.t, s.flights[token].key, rows, s.flights[token].now);
      case Rotate(token) => RotateRevivesIff(s.t, s.flights[token]);
      case Batch(token) => BatchRevivesNone(s.t, s.flights[token], s.flights[token].stage.visible);
      case _ =>
        SupportsUntouched(s, a);
        SameSupportsReviveNone(s.t, Apply(s, a).t);
    }
  }

  ghost predicate NeverRevives(s: Lane, acts: seq<Action>)
    decreases |acts|
  {
    acts == [] || (!Revives(s, acts[0]) && NeverRevives(Apply(s, acts[0]), acts[1..]))
  }

  lemma {:induction false} RunRevivesNone(s: Lane, acts: seq<Action>)
    requires LaneOk(s) && NoneRevived(s.t) && Legal(s, acts) && NeverRevives(s, acts)
    ensures NoneRevived(Run(s, acts).t)
    decreases |acts|
  {
    if acts != [] {
      StepRevives(s, acts[0]);
      StepKeepsLane(s, acts[0]);
      RunRevivesNone(Apply(s, acts[0]), acts[1..]);
    }
  }

  lemma EventStays(s: Lane, a: Action, e: (Key, nat))
    requires e in s.t.events
    ensures e in Apply(s, a).t.events
  {}

  lemma {:induction false} EventsStay(s: Lane, acts: seq<Action>, e: (Key, nat))
    requires e in s.t.events
    ensures e in Run(s, acts).t.events
    decreases |acts|
  {
    if acts != [] {
      EventStays(s, acts[0], e);
      EventsStay(Apply(s, acts[0]), acts[1..], e);
    }
  }

  /** Over every run without such a step, an offer with an event is never again a support of that result. */
  lemma EventsRetireSupports(s: Lane, acts: seq<Action>, e: (Key, nat))
    requires Reachable(s) && NoneRevived(s.t) && Legal(s, acts) && NeverRevives(s, acts) && e in s.t.events
    ensures e in Run(s, acts).t.events && e.1 !in SupportsOf(Run(s, acts).t, e.0)
  {
    ReachableLaneOk(s);
    EventsStay(s, acts, e);
    RunRevivesNone(s, acts);
    assert NotRevived(Run(s, acts).t, e);
  }

  /** So the support a call selects has no event, however its statements interleave with the rest. */
  lemma EventsAreNew(s: Lane, acts: seq<Action>, token: nat, o: nat)
    requires Reachable(s) && NoneRevived(s.t) && Legal(s, acts) && NeverRevives(s, acts)
    requires Enabled(Run(s, acts), Select(token, o))
    ensures (Run(s, acts).searches[token].key, o) !in Run(s, acts).t.events
  {
    ReachableLaneOk(s);
    RunRevivesNone(s, acts);
    var u := Run(s, acts);
    assert (u.searches[token].key, o) in u.t.events ==> NotRevived(u.t, (u.searches[token].key, o));
  }

  /** The stored verdict of a quiet lane over such a run: a CONFIRMED is what a fresh verification says. */
  lemma QuietConfirmedAgrees(constraints: map<nat, Promotion.Constraint>, acts: seq<Action>, now: int, k: Key,
    rows: seq<Offer>)
    requires Legal(Start(constraints), acts) && NeverRevives(Start(constraints), acts)
    requires var s := Run(Start(constraints), acts);
             && Chosen(s.t, now, Quiet) && k in s.t.results && s.t.results[k].state.Confirmed? && RowsOf(s.t, k, rows)
    ensures var s := Run(Start(constraints), acts);
            && V.Verify(EvidenceOf(Eligible(rows, ConstraintFor(s.t, k.queue))), now, V.TOLERANCE).state.Confirmed?
            && SupportsLast(s.t, k, now)
  {
    var s := Run(Start(constraints), acts);
    assert ReachedBy(s, constraints, acts);
    RunRevivesNone(Start(constraints), acts);
    assert !RetiredSupport(s.t, k, now) by {
      forall o | o in SupportsOf(s.t, k) ensures (k, o) !in s.t.events {
        assert (k, o) in s.t.events ==> NotRevived(s.t, (k, o));
      }
    }
    QuietLaneAgrees(s, now, k, rows);
    QuietSupportsLastIff(s, now, k);
  }

  // ----- runs whose recomputations of one result come in the order of their times -----

  /** A recomputation reads at no earlier time than the one before it of the same key. */
  predicate InOrder(t: Tables, k: Key, now: int) { k in t.answers ==> t.answers[k].at <= now }

  predicate InOrderStep(s: Lane, a: Action) {
    match a
    case Refresh(now, k, _) => InOrder(s.t, k, now)
    case Recheck(token, _) => token in s.flights ==> InOrder(s.t, s.flights[token].key, s.flights[token].now)
    case _ => true
  }

  predicate InTimeOrder(s: Lane, acts: seq<Action>)
    decreases |acts|
  {
    acts == [] || (InOrderStep(s, acts[0]) && InTimeOrder(Apply(s, acts[0]), acts[1..]))
  }

  /** The last recomputation of the key read at a time when the offer had expired. */
  ghost predicate AnsweredPast(t: Tables, k: Key, o: nat) {
    k in t.answers && o in t.offers && Expired(t.offers[o].expiry, t.answers[k].at)
  }

  ghost predicate EventsPast(t: Tables) {
    forall e {:trigger e in t.events} :: e in t.events ==> AnsweredPast(t, e.0, e.1)
  }

  ghost predicate FlightPast(t: Tables, f: Flight) { f.stage.Selected? || AnsweredPast(t, f.key, f.offer) }

  ghost predicate FlightsPast(s: Lane) {
    forall token {:trigger s.flights[token]} :: token in s.flights ==> FlightPast(s.t, s.flights[token])
  }

  /** Such a recomputation does not name what the last one found expired. */
  lemma InOrderNamesNoneRetired(t: Tables, k: Key, rows: seq<Offer>, now: int)
    requires EventsPast(t) && InOrder(t, k, now)
    ensures !NamesRetired(t, k, rows, now)
  {
    forall o | (k, o) in t.events && o in t.offers ensures Expired(t.offers[o].expiry, now) {
      assert AnsweredPast(t, (k, o).0, (k, o).1);
    }
  }

  lemma PastStays(t: Tables, k: Key, rows: seq<Offer>, now: int, x: Key, o: nat)
    requires AnsweredPast(t, x, o) && InOrder(t, k, now)
    ensures AnsweredPast(Recompute(t, k, rows, now), x, o)
  {}

  lemma PastKept(t: Tables, u: Tables, k: Key, o: nat)
    requires AnsweredPast(t, k, o) && u.answers == t.answers && Grows(t, u)
    ensures AnsweredPast(u, k, o)
  {}

  /** What an expired support was answered with: nothing that names it. */
  lemma PastIsNoSupport(t: Tables, k: Key, o: nat)
    requires CacheOk(t) && k in t.results && AnsweredPast(t, k, o)
    ensures o !in SupportsOf(t, k)
  {
    assert ResultOk(t, k);
  }

  lemma InOrderRevivesNone(s: Lane, a: Action)
    requires LaneOk(s) && Enabled(s, a) && InOrderStep(s, a) && EventsPast(s.t) && FlightsPast(s)
    ensures !Revives(s, a)
  {
    match a {
      case Refresh(now, k, rows) => InOrderNamesNoneRetired(s.t, k, rows, now);
      case Recheck(token, rows) => InOrderNamesNoneRetired(s.t, s.flights[token].key, rows, s.flights[token].now);
      case Rotate(token) =>
        assert FlightPast(s.t, s.flights[token]) && FlightOk(s.t, s.flights[token]);
        PastIsNoSupport(s.t, s.flights[token].key, s.flights[token].offer);
      case _ =>
    }
  }

  lemma RecomputePasts(s: Lane, k: Key, rows: seq<Offer>, now: int)
    requires EventsPast(s.t) && FlightsPast(s) && InOrder(s.t, k, now)
    ensures EventsPast(Recompute(s.t, k, rows, now))
    ensures forall token :: token in s.flights ==> FlightPast(Recompute(s.t, k, rows, now), s.flights[token])
  {
    forall e | e in s.t.events ensures AnsweredPast(Recompute(s.t, k, rows, now), e.0, e.1) {
      PastStays(s.t, k, rows, now, e.0, e.1);
    }
    forall token | token in s.flights ensures FlightPast(Recompute(s.t, k, rows, now), s.flights[token]) {
      assert FlightPast(s.t, s.flights[token]);
      if !s.flights[token].stage.Selected? {
        PastStays(s.t, k, rows, now, s.flights[token].key, s.flights[token].offer);
      }
    }
  }

  lemma RecheckPasts(s: Lane, token: nat, rows: seq<Offer>)
    requires LaneOk(s) && Enabled(s, Recheck(token, rows)) && InOrderStep(s, Recheck(token, rows))
    requires EventsPast(s.t) && FlightsPast(s)
    ensures EventsPast(RecheckStep(s, token, rows).t) && FlightsPast(RecheckStep(s, token, rows))
  {
    var f, u := s.flights[token], RecheckStep(s, token, rows);
    assert FlightOk(s.t, f);
    RecomputePasts(s, f.key, rows, f.now);
    forall x | x in u.flights ensures FlightPast(u.t, u.flights[x]) {
      assert x != token ==> u.flights[x] == s.flights[x];
    }
  }

  /** Recording an expiry, or nothing, adds no more than the event of its flight. */
  lemma RecordedPasts(s: Lane, u: Lane, token: nat)
    requires FlightsPast(s) && EventsPast(s.t) && token in s.flights && !s.flights[token].stage.Selected?
    requires u.t.answers == s.t.answers && u.t.offers == s.t.offers
    requires u.t.events.Keys == s.t.events.Keys + {(s.flights[token].key, s.flights[token].offer)}
    requires u.flights == s.flights - {token}
    ensures EventsPast(u.t) && FlightsPast(u)
  {
    assert FlightPast(s.t, s.flights[token]);
    forall x | x in u.flights ensures FlightPast(u.t, u.flights[x]) {
      assert u.flights[x] == s.flights[x] && FlightPast(s.t, s.flights[x]);
    }
    forall e | e in u.t.events ensures AnsweredPast(u.t, e.0, e.1) {
      assert e in s.t.events ==> AnsweredPast(s.t, e.0, e.1);
    }
  }

  lemma KeptPasts(s: Lane, u: Lane)
    requires FlightsPast(s) && EventsPast(s.t) && u.t.answers == s.t.answers && Grows(s.t, u.t)
    requires u.t.events.Keys == s.t.events.Keys
    requires forall x :: x in u.flights ==> (x in s.flights && SameProgress(s.flights[x], u.flights[x]))
                                            || u.flights[x].stage.Selected?
    ensures EventsPast(u.t) && FlightsPast(u)
  {
    forall e | e in u.t.events ensures AnsweredPast(u.t, e.0, e.1) { PastKept(s.t, u.t, e.0, e.1); }
    forall x | x in u.flights ensures FlightPast(u.t, u.flights[x]) {
      if !u.flights[x].stage.Selected? {
        assert FlightPast(s.t, s.flights[x]);
        PastKept(s.t, u.t, u.flights[x].key, u.flights[x].offer);
      }
    }
  }

  predicate SameProgress(f: Flight, g: Flight) {
    f.key == g.key && f.offer == g.offer && (f.stage.Selected? ==> g.stage.Selected?)
  }

  lemma QuietStepGrows(s: Lane, a: Action)
    requires LaneOk(s) && !a.Refresh? && !a.Recheck? && !a.Batch? && !a.Rotate?
    ensures Grows(s.t, Apply(s, a).t)
  {
    match a {
      case IngestOffer(o) => IngestGrows(s.t, o);
      case LinkOffers(k, job) => LinkGrows(s.t, k, job);
      case Trigger(token, k) => assert Apply(s, a) == TriggerStep(s, token, k);
      case Select(token, o) => assert Apply(s, a) == SelectStep(s, token, o);
      case Reprice(now, e, jobs, errors) => assert Apply(s, a) == RepriceStep(s, e, now, jobs, errors);
      case CorrectionMark(e) => assert Apply(s, a) == CorrectionMarkStep(s, e);
      case CorrectionEnqueue(now, e) => assert Apply(s, a) == CorrectionEnqueueStep(s, e, now);
      case _ =>
    }
  }

  lemma QuietStepPasts(s: Lane, a: Action)
    requires LaneOk(s) && Enabled(s, a) && EventsPast(s.t) && FlightsPast(s)
    requires !a.Refresh? && !a.Recheck? && !a.Batch? && !a.Rotate?
    ensures EventsPast(Apply(s, a).t) && FlightsPast(Apply(s, a))
  {
    SupportsUntouched(s, a);
    QuietStepGrows(s, a);
    VerdictsKept(s, a);
    FlightsProgress(s, a);
    KeptPasts(s, Apply(s, a));
  }

  lemma FlightsProgress(s: Lane, a: Action)
    requires Enabled(s, a) && !a.Refresh? && !a.Recheck? && !a.Batch? && !a.Rotate?
    ensures forall x :: x in Apply(s, a).flights ==>
              (x in s.flights && SameProgress(s.flights[x], Apply(s, a).flights[x]))
              || Apply(s, a).flights[x].stage.Selected?
  {
    match a {
      case Trigger(token, k) => assert Apply(s, a) == TriggerStep(s, token, k);
      case Select(token, o) => assert Apply(s, a) == SelectStep(s, token, o);
      case Count(token) => assert Apply(s, a) == CountStep(s, token);
      case _ =>
    }
  }

  lemma OrderedStepPasts(s: Lane, a: Action)
    requires LaneOk(s) && Enabled(s, a) && InOrderStep(s, a) && EventsPast(s.t) && FlightsPast(s)
    ensures EventsPast(Apply(s, a).t) && FlightsPast(Apply(s, a))
  {
    match a {
      case Refresh(now, k, rows) => RecomputePasts(s, k, rows, now);
      case Recheck(token, rows) => RecheckPasts(s, token, rows);
      case Rotate(token) => RecordedPasts(s, Apply(s, a), token);
      case Batch(token) => RecordedPasts(s, Apply(s, a), token);
      case _ => QuietStepPasts(s, a);
    }
  }

  lemma {:induction false} OrderedRunRevivesNone(s: Lane, acts: seq<Action>)
    requires LaneOk(s) && EventsPast(s.t) && FlightsPast(s) && Legal(s, acts) && InTimeOrder(s, acts)
    ensures NeverRevives(s, acts)
    decreases |acts|
  {
    if acts != [] {
      InOrderRevivesNone(s, acts[0]);
      OrderedStepPasts(s, acts[0]);
      StepKeepsLane(s, acts[0]);
      OrderedRunRevivesNone(Apply(s, acts[0]), acts[1..]);
    }
  }

  /** In runs that recompute each result in the order of the times read, no offer is revived. */
  lemma OrderedNeverRevives(constraints: map<nat, Promotion.Constraint>, acts: seq<Action>)
    requires Legal(Start(constraints), acts) && InTimeOrder(Start(constraints), acts)
    ensures NeverRevives(Start(constraints), acts) && NoneRevived(Run(Start(constraints), acts).t)
  {
    OrderedRunRevivesNone(Start(constraints), acts);
    RunRevivesNone(Start(constraints), acts);
  }
}
