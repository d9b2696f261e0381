/**
  What every run of the expiry lane keeps about the stored verdicts, and when they agree with a
  verification run afresh over all linked offers.
*/
module CacheAgreement {
  import V = Verification
  import opened ProviderResults
  import opened OfferLifecycle

  // ----- the invariant of the tables -----

  /** The last recomputation of a key answered what was true, at the time it read, of the offers linked now. */
  ghost predicate AnswerOk(t: Tables, k: Key) {
    && k in t.answers && t.answers[k].serial <= t.recomputes
    && (t.answers[k].state.Confirmed? ==> ConfirmedAt(t, k, t.answers[k].at))
    && (t.answers[k].state.Probable? && k !in t.unsynced ==> !ConfirmedAt(t, k, t.answers[k].at))
  }

  /** A result row certifies itself, was fresh when it was answered, and only CONFIRMED is ever overwritten. */
  ghost predicate ResultOk(t: Tables, k: Key)
    requires k in t.results
  {
    && SelfCertified(t, k) && AnswerOk(t, k)
    && (forall id :: id in SupportsOf(t, k) && id in t.offers ==> V.Fresh(t.offers[id].expiry, t.answers[k].at))
    && (t.results[k].state.Confirmed? ==> t.answers[k].state.Confirmed?)
  }

  /** An event is about an offer that expires. */
  ghost predicate EventOk(t: Tables, e: (Key, nat)) { e.1 in t.offers && t.offers[e.1].expiry.ExpiresAt? }

  ghost predicate ForeignKeys(t: Tables) {
    && KeyedById(t)
    && (forall p :: p in t.links ==> p.1 in t.offers)
    && t.supports.Keys <= t.results.Keys
  }

  ghost predicate ResultsOk(t: Tables) { forall k {:trigger ResultOk(t, k)} :: k in t.results ==> ResultOk(t, k) }

  ghost predicate EventsOk(t: Tables) { forall e {:trigger EventOk(t, e)} :: e in t.events ==> EventOk(t, e) }

  ghost predicate CacheOk(t: Tables) { ForeignKeys(t) && ResultsOk(t) && EventsOk(t) }

  // ----- what only adding offers and links keeps -----

  /** Later times only lose live evidence. */
  lemma NeverPromotes(t: Tables, k: Key, earlier: int, later: int)
    requires earlier <= later && ConfirmedAt(t, k, later)
    ensures ConfirmedAt(t, k, earlier)
  {
    assert V.LiveSet(LinkedEvidence(t, k), later) <= V.LiveSet(LinkedEvidence(t, k), earlier);
  }

  /** Offers and links are immutable and only added. */
  ghost predicate Grows(t: Tables, u: Tables) {
    && t.constraints == u.constraints && t.recomputes <= u.recomputes
    && (forall id :: id in t.offers ==> id in u.offers && u.offers[id] == t.offers[id])
    && (forall p :: p in t.links ==> p in u.links && u.links[p] == t.links[p])
  }

  lemma EvidenceGrows(t: Tables, u: Tables, k: Key)
    requires Grows(t, u)
    ensures Linked(t, k) <= Linked(u, k) && LinkedEvidence(t, k) <= LinkedEvidence(u, k)
  {
    forall id | id in Linked(t, k) ensures id in Linked(u, k) {
      var p :| && p in t.links && p.0 == k.queue && t.links[p] == k.fingerprint
               && p.1 in t.offers && t.offers[p.1].live && p.1 == id;
      assert p in u.links;
    }
  }

  /** More evidence never demotes. */
  lemma NeverDemotes(t: Tables, u: Tables, k: Key, at: int)
    requires LinkedEvidence(t, k) <= LinkedEvidence(u, k) && ConfirmedAt(t, k, at)
    ensures ConfirmedAt(u, k, at)
  {
    assert V.LiveSet(LinkedEvidence(t, k), at) <= V.LiveSet(LinkedEvidence(u, k), at);
  }

  /** The rows of a key are kept, and nothing linked to it appears unless it is unsynced. */
  ghost predicate KeepsResult(t: Tables, u: Tables, k: Key) {
    && k in t.results && k in u.results && u.results[k] == t.results[k]
    && SupportsOf(u, k) == SupportsOf(t, k) && KeepsAnswer(t, u, k)
  }

  ghost predicate KeepsAnswer(t: Tables, u: Tables, k: Key) {
    && (k in t.answers ==> k in u.answers && u.answers[k] == t.answers[k])
    && (k in t.unsynced ==> k in u.unsynced)
    && (k !in u.unsynced ==> LinkedEvidence(u, k) == LinkedEvidence(t, k))
  }

  ghost predicate KeepsResults(t: Tables, u: Tables) {
    forall k {:trigger KeepsResult(t, u, k)} :: k in u.results ==> KeepsResult(t, u, k)
  }

  lemma KeptAnswerOk(t: Tables, u: Tables, k: Key)
    requires Grows(t, u) && KeepsAnswer(t, u, k) && AnswerOk(t, k)
    ensures AnswerOk(u, k)
  {
    EvidenceGrows(t, u, k);
    if t.answers[k].state.Confirmed? { NeverDemotes(t, u, k, t.answers[k].at); }
  }

  lemma KeptResultOk(t: Tables, u: Tables, k: Key)
    requires Grows(t, u) && KeepsResult(t, u, k) && KeyedById(t) && ResultOk(t, k)
    ensures ResultOk(u, k)
  {
    EvidenceGrows(t, u, k);
    KeptAnswerOk(t, u, k);
    if t.results[k].state.Confirmed? { assert SupportEvidence(u, k) == SupportEvidence(t, k); }
  }

  lemma KeptResultsOk(t: Tables, u: Tables)
    requires KeyedById(t) && ResultsOk(t) && Grows(t, u) && KeepsResults(t, u)
    ensures ResultsOk(u)
  {
    forall k | k in u.results ensures ResultOk(u, k) {
      assert KeepsResult(t, u, k) && ResultOk(t, k);
      KeptResultOk(t, u, k);
    }
  }

  lemma KeptEventsOk(t: Tables, u: Tables)
    requires EventsOk(t) && Grows(t, u) && u.events.Keys == t.events.Keys
    ensures EventsOk(u)
  {
    forall e | e in u.events ensures EventOk(u, e) { assert EventOk(t, e); }
  }

  lemma IngestOk(t: Tables, o: Offer)
    requires CacheOk(t)
    ensures CacheOk(Ingest(t, o))
  {
    IngestGrows(t, o);
    IngestKeys(t, o);
    IngestKeepsResults(t, o);
    KeptResultsOk(t, Ingest(t, o));
    KeptEventsOk(t, Ingest(t, o));
  }

  lemma IngestKeepsResults(t: Tables, o: Offer)
    requires ForeignKeys(t)
    ensures KeepsResults(t, Ingest(t, o))
  {
    forall k | k in t.results ensures KeepsResult(t, Ingest(t, o), k) { IngestLinksNothing(t, o, k); }
  }

  lemma IngestGrows(t: Tables, o: Offer)
    requires ForeignKeys(t)
    ensures Grows(t, Ingest(t, o))
  {
    assert forall id :: id in t.offers ==> Ingest(t, o).offers[id] == t.offers[id];
  }

  lemma IngestKeys(t: Tables, o: Offer)
    requires ForeignKeys(t)
    ensures ForeignKeys(Ingest(t, o))
  {}

  lemma IngestLinksNothing(t: Tables, o: Offer, k: Key)
    requires ForeignKeys(t)
    ensures Linked(Ingest(t, o), k) == Linked(t, k)
    ensures LinkedEvidence(Ingest(t, o), k) == LinkedEvidence(t, k)
  {}

  lemma LinkOk(t: Tables, k: Key, job: nat)
    requires CacheOk(t)
    ensures CacheOk(LinkJob(t, k, job))
  {
    var u := LinkJob(t, k, job);
    forall x | x in u.results ensures KeepsResult(t, u, x) {
      if x !in u.unsynced {
        KnownLinksUntouched(t, k, job, x);
        assert LinkedEvidence(u, x) == LinkedEvidence(t, x);
      }
    }
    LinkGrows(t, k, job);
    KeptResultsOk(t, u);
    KeptEventsOk(t, u);
  }

  lemma LinkGrows(t: Tables, k: Key, job: nat)
    requires ForeignKeys(t)
    ensures Grows(t, LinkJob(t, k, job)) && ForeignKeys(LinkJob(t, k, job))
  {}

  /** New links land on one key, which is then unsynced. */
  lemma KnownLinksUntouched(t: Tables, k: Key, job: nat, x: Key)
    requires x !in LinkJob(t, k, job).unsynced
    ensures Linked(LinkJob(t, k, job), x) == Linked(t, x)
  {
    var u := LinkJob(t, k, job);
    forall id ensures id in Linked(u, x) <==> id in Linked(t, x) {
      if id in Linked(u, x) {
        assert (x.queue, id) in u.links && u.links[(x.queue, id)] == x.fingerprint;
        assert (x.queue, id) in t.links;
      }
      if id in Linked(t, x) {
        assert (x.queue, id) in t.links && t.links[(x.queue, id)] == x.fingerprint;
        assert (x.queue, id) in u.links;
      }
    }
  }

  // ----- what a recomputation keeps -----

  lemma RecomputeOk(t: Tables, k: Key, rows: seq<Offer>, now: int)
    requires CacheOk(t) && RowsOf(t, k, rows)
    ensures CacheOk(Recompute(t, k, rows, now))
  {
    RecomputedOthersOk(t, k, rows, now);
    RecomputedResultOk(t, k, rows, now);
    RecomputedEventsOk(t, k, rows, now);
  }

  lemma RecomputedOthersOk(t: Tables, k: Key, rows: seq<Offer>, now: int)
    requires CacheOk(t)
    ensures ForeignKeys(Recompute(t, k, rows, now))
    ensures forall x :: x in t.results && x != k ==> ResultOk(Recompute(t, k, rows, now), x)
  {
    var u := Recompute(t, k, rows, now);
    forall x | x in t.results && x != k ensures ResultOk(u, x) {
      RecomputeLinksNothing(t, k, rows, now, x);
      assert ResultOk(t, x);
      KeptResultOk(t, u, x);
    }
  }

  lemma RecomputedResultOk(t: Tables, k: Key, rows: seq<Offer>, now: int)
    requires KeyedById(t) && RowsOf(t, k, rows)
    ensures ResultOk(Recompute(t, k, rows, now), k)
  {
    RecomputeCertifies(t, k, rows, now);
  }

  lemma RecomputedEventsOk(t: Tables, k: Key, rows: seq<Offer>, now: int)
    requires KeyedById(t) && EventsOk(t)
    ensures EventsOk(Recompute(t, k, rows, now))
  {
    KeptEventsOk(t, Recompute(t, k, rows, now));
  }

  lemma SupportsNotExpired(t: Tables, k: Key, rows: seq<Offer>, now: int, o: nat)
    requires KeyedById(t) && RowsOf(t, k, rows) && o in t.offers && Expired(t.offers[o].expiry, now)
    ensures o !in SupportsOf(Recompute(t, k, rows, now), k)
  {
    RecomputeCertifies(t, k, rows, now);
  }

  // ----- what recording an expiry keeps -----

  /** The offer of an expiry call had run out at its time. */
  ghost predicate RunOut(t: Tables, f: Flight) { f.offer in t.offers && Expired(t.offers[f.offer].expiry, f.now) }

  lemma RotateOk(t: Tables, f: Flight)
    requires CacheOk(t) && RunOut(t, f)
    ensures CacheOk(RotateTables(t, f))
  {
    var u := RotateTables(t, f);
    LinksAlone(t, u);
    forall k | k in u.results ensures ResultOk(u, k) { SameResultOk(t, u, k); }
    forall e | e in u.events ensures EventOk(u, e) { assert e in t.events ==> EventOk(t, e); }
  }

  /** Tables that differ in results, supports and events only link the same evidence. */
  ghost predicate SameLinks(t: Tables, u: Tables) {
    u == t.(events := u.events, results := u.results, supports := u.supports)
  }

  lemma LinksAlone(t: Tables, u: Tables)
    requires SameLinks(t, u)
    ensures forall k :: Linked(u, k) == Linked(t, k) && LinkedEvidence(u, k) == LinkedEvidence(t, k)
  {
    forall k ensures Linked(u, k) == Linked(t, k) && LinkedEvidence(u, k) == LinkedEvidence(t, k) {
      assert Linked(u, k) == Linked(t, k);
    }
  }

  lemma SameResultOk(t: Tables, u: Tables, k: Key)
    requires SameLinks(t, u) && ResultsOk(t) && KeyedById(t) && k in t.results && k in u.results
    requires u.results[k] == t.results[k] && SupportsOf(u, k) == SupportsOf(t, k)
    ensures ResultOk(u, k)
  {
    assert ResultOk(t, k);
    LinksAlone(t, u);
    KeptResultOk(t, u, k);
  }

  lemma BatchOk(t: Tables, f: Flight, visible: bool)
    requires CacheOk(t) && RunOut(t, f) && f.key in t.results
    ensures CacheOk(BatchTables(t, f, visible))
  {
    var u := BatchTables(t, f, visible);
    forall k | k in u.results ensures ResultOk(u, k) {
      if k == f.key { DemotedResultOk(t, f, visible); } else { SameResultOk(t, u, k); }
    }
    forall e | e in u.events ensures EventOk(u, e) { assert e in t.events ==> EventOk(t, e); }
  }

  lemma DemotedResultOk(t: Tables, f: Flight, visible: bool)
    requires CacheOk(t) && f.key in t.results
    ensures ResultOk(BatchTables(t, f, visible), f.key)
  {
    var u := BatchTables(t, f, visible);
    assert ResultOk(t, f.key);
    LinksAlone(t, u);
    KeptAnswerOk(t, u, f.key);
  }

  /** Rewriting the progress fields of events touches nothing the cache depends on. */
  lemma EventEditOk(t: Tables, u: Tables)
    requires CacheOk(t) && u == t.(events := u.events) && u.events.Keys == t.events.Keys
    ensures CacheOk(u)
  {
    forall k | k in u.results ensures ResultOk(u, k) { SameResultOk(t, u, k); }
    KeptEventsOk(t, u);
  }

  // ----- what the calls in flight know -----

  /** What is known between the statements of an expiry call. */
  ghost predicate FlightOk(t: Tables, f: Flight) {
    && RunOut(t, f) && f.key in t.results
    && (f.stage.Answered? || f.stage.Counted? ==> AnsweredProbable(t, f))
  }

  /** Its own recomputation answered PROBABLE; a CONFIRMED on record must come from a later one. */
  ghost predicate AnsweredProbable(t: Tables, f: Flight)
    requires f.stage.Answered? || f.stage.Counted?
  {
    && f.key in t.answers && f.stage.serial <= t.answers[f.key].serial
    && (t.answers[f.key].state.Confirmed? ==> f.stage.serial < t.answers[f.key].serial)
  }

  ghost predicate FlightsOk(s: Lane) {
    forall token {:trigger s.flights[token]} :: token in s.flights ==> FlightOk(s.t, s.flights[token])
  }

  /** A call that searches for supports to expire does so under a stored result. */
  ghost predicate SearchOk(t: Tables, x: Search) { x.Found? ==> x.key in t.results }

  ghost predicate SearchesOk(s: Lane) {
    forall token {:trigger s.searches[token]} :: token in s.searches ==> SearchOk(s.t, s.searches[token])
  }

  ghost predicate LaneOk(s: Lane) { CacheOk(s.t) && SearchesOk(s) && FlightsOk(s) }

  /** What an uninterrupted call finds: an expired support of a confirmed result. */
  lemma ChosenExpires(t: Tables, now: int, k: Key, o: nat)
    requires Chosen(t, now, Expire(k, o))
    ensures k in t.results && t.results[k].state.Confirmed? && o in SupportsOf(t, k)
    ensures o in t.offers && Expired(t.offers[o].expiry, now)
    ensures exists p :: p in Due(t, now) && p.0 == k
  {
    var p :| FirstDue(t, p, now) && p.0 == k;
    assert IsDue(t, p.0, p.1, now);
  }

  lemma FlightKept(t: Tables, u: Tables, f: Flight)
    requires FlightOk(t, f) && Grows(t, u) && f.key in u.results
    requires f.key in t.answers ==> f.key in u.answers && u.answers[f.key] == t.answers[f.key]
    ensures FlightOk(u, f)
  {}

  lemma FlightRecomputed(t: Tables, k: Key, rows: seq<Offer>, now: int, f: Flight)
    requires CacheOk(t) && FlightOk(t, f)
    ensures FlightOk(Recompute(t, k, rows, now), f)
  {
    if f.key == k { assert ResultOk(t, k); }
  }

  /** After its own recomputation the call knows the answer. */
  lemma RecheckFlight(s: Lane, token: nat, rows: seq<Offer>)
    requires LaneOk(s) && Enabled(s, Recheck(token, rows))
    ensures FlightOk(RecheckStep(s, token, rows).t, RecheckStep(s, token, rows).flights[token])
  {
    assert FlightOk(s.t, s.flights[token]);
  }

  lemma SelectedFlight(s: Lane, token: nat, o: nat)
    requires LaneOk(s) && Enabled(s, Select(token, o))
    ensures FlightOk(s.t, SelectStep(s, token, o).flights[token])
  {
    assert SearchOk(s.t, s.searches[token]);
  }

  lemma FlightIngested(t: Tables, o: Offer, f: Flight)
    requires CacheOk(t) && FlightOk(t, f)
    ensures FlightOk(Ingest(t, o), f)
  {
    IngestGrows(t, o);
    FlightKept(t, Ingest(t, o), f);
  }

  lemma FlightLinked(t: Tables, k: Key, job: nat, f: Flight)
    requires CacheOk(t) && FlightOk(t, f)
    ensures FlightOk(LinkJob(t, k, job), f)
  {
    LinkGrows(t, k, job);
    FlightKept(t, LinkJob(t, k, job), f);
  }

  /** Recording an expiry, or editing events, leaves what another call knows. */
  lemma FlightRecorded(t: Tables, g: Flight, visible: bool, f: Flight)
    requires FlightOk(t, f) && g.key in t.results
    ensures FlightOk(BatchTables(t, g, visible), f)
  {
    FlightKept(t, BatchTables(t, g, visible), f);
  }

  lemma FlightEdited(t: Tables, u: Tables, f: Flight)
    requires FlightOk(t, f) && u == t.(events := u.events)
    ensures FlightOk(u, f)
  {
    FlightKept(t, u, f);
  }

  lemma StepKeepsFlight(s: Lane, a: Action, token: nat)
    requires LaneOk(s) && Enabled(s, a) && token in Apply(s, a).flights
    ensures FlightOk(Apply(s, a).t, Apply(s, a).flights[token])
  {
    match a {
      case IngestOffer(o) => FlightIngested(s.t, o, s.flights[token]);
      case LinkOffers(k, job) => FlightLinked(s.t, k, job, s.flights[token]);
      case Refresh(now, k, rows) => FlightRecomputed(s.t, k, rows, now, s.flights[token]);
      case Select(x, o) => SelectKeepsFlight(s, x, o, token);
      case Recheck(x, rows) => RecheckKeepsFlight(s, x, rows, token);
      case Count(x) => CountKeepsFlight(s, x, token);
      case Batch(x) => FlightRecorded(s.t, s.flights[x], s.flights[x].stage.visible, s.flights[token]);
      case Rotate(x) => FlightEdited(s.t, RotateTables(s.t, s.flights[x]), s.flights[token]);
      case Reprice(_, _, _, _) => EditKeepsFlight(s, a, token);
      case CorrectionMark(_) => EditKeepsFlight(s, a, token);
      case _ => OthersKeepFlight(s, a, token);
    }
  }

  lemma SelectKeepsFlight(s: Lane, x: nat, o: nat, token: nat)
    requires LaneOk(s) && Enabled(s, Select(x, o)) && token in SelectStep(s, x, o).flights
    ensures FlightOk(s.t, SelectStep(s, x, o).flights[token])
  {
    if x == token { SelectedFlight(s, x, o); } else { assert FlightOk(s.t, s.flights[token]); }
  }

  lemma CountKeepsFlight(s: Lane, x: nat, token: nat)
    requires FlightsOk(s) && Enabled(s, Count(x)) && token in s.flights
    ensures FlightOk(s.t, CountStep(s, x).flights[token])
  {
    assert FlightOk(s.t, s.flights[token]);
  }

  lemma EditKeepsFlight(s: Lane, a: Action, token: nat)
    requires FlightsOk(s) && (a.Reprice? || a.CorrectionMark?) && token in Apply(s, a).flights
    ensures FlightOk(Apply(s, a).t, Apply(s, a).flights[token])
  {
    assert FlightOk(s.t, s.flights[token]);
    if a.Reprice? {
      FlightEdited(s.t, RepriceStep(s, a.event, a.now, a.jobs, a.errors).t, s.flights[token]);
    } else {
      FlightEdited(s.t, CorrectionMarkStep(s, a.event).t, s.flights[token]);
    }
  }

  lemma OthersKeepFlight(s: Lane, a: Action, token: nat)
    requires FlightsOk(s) && (a.Mail? || a.Begin? || a.Trigger? || a.CorrectionEnqueue?) && token in Apply(s, a).flights
    ensures FlightOk(Apply(s, a).t, Apply(s, a).flights[token])
  {
    assert Apply(s, a).t == s.t && Apply(s, a).flights == s.flights;
    assert FlightOk(s.t, s.flights[token]);
  }

  lemma RecheckKeepsFlight(s: Lane, x: nat, rows: seq<Offer>, token: nat)
    requires LaneOk(s) && Enabled(s, Recheck(x, rows)) && token in s.flights
    ensures FlightOk(RecheckStep(s, x, rows).t, RecheckStep(s, x, rows).flights[token])
  {
    if x == token {
      RecheckFlight(s, token, rows);
    } else {
      FlightRecomputed(s.t, s.flights[x].key, rows, s.flights[x].now, s.flights[token]);
    }
  }

  lemma StepKeepsCache(s: Lane, a: Action)
    requires LaneOk(s) && Enabled(s, a)
    ensures CacheOk(Apply(s, a).t)
  {
    match a {
      case Mail(_) =>
      case IngestOffer(o) => IngestOk(s.t, o);
      case LinkOffers(k, job) => LinkOk(s.t, k, job);
      case Refresh(now, k, rows) => RecomputeOk(s.t, k, rows, now);
      case Recheck(token, rows) => RecomputeOk(s.t, s.flights[token].key, rows, s.flights[token].now);
      case Rotate(token) => RotateOk(s.t, s.flights[token]);
      case Batch(token) => BatchOk(s.t, s.flights[token], s.flights[token].stage.visible);
      case Reprice(_, _, _, _) => EventEditOk(s.t, Apply(s, a).t);
      case CorrectionMark(_) => EventEditOk(s.t, Apply(s, a).t);
      case _ => assert Apply(s, a).t == s.t;
    }
  }

  /** A result row, once written, is there for good. */
  lemma ResultsStay(s: Lane, a: Action)
    ensures s.t.results.Keys <= Apply(s, a).t.results.Keys
  {
    match a {
      case IngestOffer(o) => assert Apply(s, a).t == Ingest(s.t, o);
      case LinkOffers(k, job) => assert Apply(s, a).t == LinkJob(s.t, k, job);
      case _ =>
    }
  }

  lemma StepKeepsSearch(s: Lane, a: Action, token: nat)
    requires SearchesOk(s) && Enabled(s, a) && token in Apply(s, a).searches
    ensures SearchOk(Apply(s, a).t, Apply(s, a).searches[token])
  {
    ResultsStay(s, a);
    match a {
      case Begin(_, x) => assert x != token ==> SearchOk(s.t, s.searches[token]);
      case Trigger(x, k) =>
        if x == token { TriggerHasResult(s, x, k); } else { assert SearchOk(s.t, s.searches[token]); }
      case _ => assert Apply(s, a).searches[token] == s.searches[token] && SearchOk(s.t, s.searches[token]);
    }
  }

  lemma TriggerHasResult(s: Lane, token: nat, k: Key)
    requires Enabled(s, Trigger(token, k))
    ensures k in s.t.results
  {
    var now := s.searches[token].now;
    var p :| FirstDue(s.t, p, now) && p.0 == k;
    assert IsDue(s.t, p.0, p.1, now);
  }

  lemma StepKeepsLane(s: Lane, a: Action)
    requires LaneOk(s) && Enabled(s, a)
    ensures LaneOk(Apply(s, a))
  {
    StepKeepsCache(s, a);
    forall token | token in Apply(s, a).searches ensures SearchOk(Apply(s, a).t, Apply(s, a).searches[token]) {
      StepKeepsSearch(s, a, token);
    }
    forall token | token in Apply(s, a).flights ensures FlightOk(Apply(s, a).t, Apply(s, a).flights[token]) {
      StepKeepsFlight(s, a, token);
    }
  }

  lemma {:induction false} RunKeepsLane(s: Lane, acts: seq<Action>)
    requires LaneOk(s) && Legal(s, acts)
    ensures LaneOk(Run(s, acts))
    decreases |acts|
  {
    if acts != [] {
      StepKeepsLane(s, acts[0]);
      RunKeepsLane(Apply(s, acts[0]), acts[1..]);
    }
  }

  lemma ReachableLaneOk(s: Lane)
    requires Reachable(s)
    ensures LaneOk(s)
  {
    var constraints, acts :| ReachedBy(s, constraints, acts);
    RunKeepsLane(Start(constraints), acts);
  }

  // ----- main results about the cache -----

  /** A demotion's batch replaced a CONFIRMED that the last recomputation of the key had answered. */
  predicate Overwritten(t: Tables, k: Key) {
    k in t.results && t.results[k].state.Probable? && k in t.answers && t.answers[k].state.Confirmed?
  }

  // A CONFIRMED row agrees as long as its supports last, and after that as long as other offers sustain it.

  /** A support that has expired but was recorded before: no call will ever find it due again. */
  ghost predicate RetiredSupport(t: Tables, k: Key, now: int) {
    exists o :: o in SupportsOf(t, k) && o in t.offers && Expired(t.offers[o].expiry, now) && (k, o) in t.events
  }

  /** Live offers confirm the result, and not all of them are supports on record. */
  ghost predicate OthersSustain(t: Tables, k: Key, now: int) {
    var live, s := V.LiveSet(LinkedEvidence(t, k), now), SupportEvidence(t, k);
    || (exists a :: a in live && a.provider.Airline? && a !in s)
    || (exists a, b :: a in live && b in live && V.Agree(a, b, V.TOLERANCE) && !(a in s && b in s))
  }

  /** Whether the supports on record still confirm on their own. */
  ghost predicate SupportsLast(t: Tables, k: Key, now: int) {
    V.Certifies(V.LiveSet(SupportEvidence(t, k), now), V.TOLERANCE)
  }

  lemma LiveSupport(t: Tables, k: Key, now: int, o: nat)
    requires CacheOk(t) && k in t.results && t.results[k].state.Confirmed? && o in SupportsOf(t, k)
    ensures o in t.offers && t.offers[o].live && t.offers[o].id == o
    ensures V.Live(AsEvidence(t.offers[o]), now) <==> !Expired(t.offers[o].expiry, now)
    ensures AsEvidence(t.offers[o]) in SupportEvidence(t, k)
  {
    assert ResultOk(t, k);
    assert o in Linked(t, k);
  }

  lemma CertifiesMonotone(less: set<V.Evidence>, more: set<V.Evidence>)
    requires less <= more && V.Certifies(less, V.TOLERANCE)
    ensures V.Certifies(more, V.TOLERANCE)
  {}

  /** They last exactly as long as none of them has expired: no support can be spared. */
  lemma SupportsLastIff(t: Tables, k: Key, now: int)
    requires CacheOk(t) && k in t.results && t.results[k].state.Confirmed?
    ensures SupportsLast(t, k, now)
      <==> forall o :: o in SupportsOf(t, k) && o in t.offers ==> !Expired(t.offers[o].expiry, now)
  {
    assert ResultOk(t, k);
    var all := SupportEvidence(t, k);
    var live := V.LiveSet(all, now);
    if o :| o in SupportsOf(t, k) && o in t.offers && Expired(t.offers[o].expiry, now) {
      LiveSupport(t, k, now, o);
      var e := AsEvidence(t.offers[o]);
      if V.Certifies(live, V.TOLERANCE) { CertifiesMonotone(live, all - {e}); }
    } else {
      forall e | e in all ensures V.Live(e, now) {
        var o :| o in SupportsOf(t, k) && o in t.offers && e == AsEvidence(t.offers[o]);
        LiveSupport(t, k, now, o);
      }
      assert live == all;
    }
  }

  /** When no support is due, an expired one has an event. */
  lemma NotDueMeansRetired(t: Tables, k: Key, now: int)
    requires CacheOk(t) && k in t.results && t.results[k].state.Confirmed? && Due(t, now) == {}
    ensures RetiredSupport(t, k, now) <==>
            exists o :: o in SupportsOf(t, k) && o in t.offers && Expired(t.offers[o].expiry, now)
  {
    if o :| o in SupportsOf(t, k) && o in t.offers && Expired(t.offers[o].expiry, now) {
      LiveSupport(t, k, now, o);
      assert IsDue(t, k, o, now) ==> (k, o) in Due(t, now);
    }
  }

  /** A result is confirmed exactly when its supports last or others sustain it. */
  lemma ConfirmedBySupportsOrOthers(t: Tables, k: Key, now: int)
    requires CacheOk(t) && k in t.results && t.results[k].state.Confirmed?
    ensures ConfirmedAt(t, k, now) <==> SupportsLast(t, k, now) || OthersSustain(t, k, now)
  {
    assert ResultOk(t, k);
    var live, s := V.LiveSet(LinkedEvidence(t, k), now), SupportEvidence(t, k);
    var lasting := V.LiveSet(s, now);
    assert lasting <= live;
    if SupportsLast(t, k, now) { CertifiesMonotone(lasting, live); }
    assert forall e :: e in live && e in s ==> e in lasting;
  }

  /**
    Cache agreement. In every reachable state in which a call at `now` finds nothing to do, a stored
    CONFIRMED is what verifyMultiProvider run afresh at `now` over all linked eligible offers says, in any
    order of the rows, exactly when none of its supports expired after an event had been recorded for it, or
    offers beyond its supports sustain it. A stored PROBABLE is what it says, too, at all times from the
    last recomputation of its key on, unless the key got a link that no recomputation has read, or a batch
    overwrote a later CONFIRMED.
  */
  lemma QuietLaneAgrees(s: Lane, now: int, k: Key, rows: seq<Offer>)
    requires Reachable(s) && Chosen(s.t, now, Quiet) && k in s.t.results && RowsOf(s.t, k, rows)
    ensures var afresh := V.Verify(EvidenceOf(Eligible(rows, ConstraintFor(s.t, k.queue))), now, V.TOLERANCE).state;
            && (s.t.results[k].state.Confirmed? ==>
                  (afresh.Confirmed? <==> !RetiredSupport(s.t, k, now) || OthersSustain(s.t, k, now)))
            && (s.t.results[k].state.Probable? && k !in s.t.unsynced && !Overwritten(s.t, k) ==>
                  k in s.t.answers && (now >= s.t.answers[k].at ==> afresh.Probable?))
  {
    ReachableLaneOk(s);
    QuietTablesAgree(s.t, now, k, rows);
  }

  lemma QuietTablesAgree(t: Tables, now: int, k: Key, rows: seq<Offer>)
    requires CacheOk(t) && Chosen(t, now, Quiet) && k in t.results && RowsOf(t, k, rows)
    ensures var afresh := V.Verify(EvidenceOf(Eligible(rows, ConstraintFor(t, k.queue))), now, V.TOLERANCE).state;
            && (t.results[k].state.Confirmed? ==>
                  (afresh.Confirmed? <==> !RetiredSupport(t, k, now) || OthersSustain(t, k, now)))
            && (t.results[k].state.Probable? && k !in t.unsynced && !Overwritten(t, k) ==>
                  k in t.answers && (now >= t.answers[k].at ==> afresh.Probable?))
  {
    ConfirmedAtIsVerify(t, k, rows, now);
    assert ResultOk(t, k);
    if t.results[k].state.Confirmed? {
      NotDueMeansRetired(t, k, now);
      SupportsLastIff(t, k, now);
      ConfirmedBySupportsOrOthers(t, k, now);
    } else if k !in t.unsynced && !Overwritten(t, k) && now >= t.answers[k].at && ConfirmedAt(t, k, now) {
      NeverPromotes(t, k, t.answers[k].at, now);
    }
  }

  /**
    And the supports alone, which are what the stored row shows for its verdict, still confirm at a quiet
    `now` if and only if none of them expired after an event had been recorded for it.
  */
  lemma QuietSupportsLastIff(s: Lane, now: int, k: Key)
    requires Reachable(s) && Chosen(s.t, now, Quiet) && k in s.t.results && s.t.results[k].state.Confirmed?
    ensures SupportsLast(s.t, k, now) <==> !RetiredSupport(s.t, k, now)
  {
    ReachableLaneOk(s);
    NotDueMeansRetired(s.t, k, now);
    SupportsLastIff(s.t, k, now);
  }

  /**
    Exactly. A synced PROBABLE agrees with a fresh verification at all times from the last recomputation of
    its key on, if and only if no batch overwrote what that recomputation answered.
  */
  lemma ProbableAgreesIff(s: Lane, k: Key)
    requires Reachable(s) && k in s.t.results && s.t.results[k].state.Probable? && k !in s.t.unsynced
    ensures k in s.t.answers
    ensures (forall at :: at >= s.t.answers[k].at ==> !ConfirmedAt(s.t, k, at)) <==> !Overwritten(s.t, k)
  {
    ReachableLaneOk(s);
    assert ResultOk(s.t, k);
    if !Overwritten(s.t, k) {
      forall at | at >= s.t.answers[k].at ensures !ConfirmedAt(s.t, k, at) {
        if ConfirmedAt(s.t, k, at) { NeverPromotes(s.t, k, s.t.answers[k].at, at); }
      }
    }
  }

  /** A recomputation later than the call's own answered CONFIRMED, and no later one took that back. */
  predicate PromotedSince(t: Tables, f: Flight) {
    && (f.stage.Answered? || f.stage.Counted?)
    && f.key in t.answers && t.answers[f.key].serial > f.stage.serial && t.answers[f.key].state.Confirmed?
  }

  /** And a batch overwrites exactly then: a promoting recomputation landed between its own recomputation and it. */
  lemma BatchOverwritesIff(s: Lane, token: nat)
    requires Reachable(s) && Enabled(s, Batch(token))
    ensures Overwritten(Apply(s, Batch(token)).t, s.flights[token].key) <==> PromotedSince(s.t, s.flights[token])
  {
    ReachableLaneOk(s);
    assert FlightOk(s.t, s.flights[token]);
  }

  lemma RecomputeRestores(t: Tables, k: Key, rows: seq<Offer>, now: int, x: Key)
    requires Overwritten(Recompute(t, k, rows, now), x)
    ensures Overwritten(t, x)
  {}

  lemma BatchOverwritesOnly(t: Tables, f: Flight, visible: bool, k: Key)
    requires f.key in t.results && Overwritten(BatchTables(t, f, visible), k)
    ensures Overwritten(t, k) || k == f.key
  {}

  /** Nothing else overwrites a verdict. */
  lemma OnlyBatchesOverwrite(s: Lane, a: Action, k: Key)
    requires Reachable(s) && Enabled(s, a) && Overwritten(Apply(s, a).t, k) && !Overwritten(s.t, k)
    ensures a.Batch? && s.flights[a.token].key == k && PromotedSince(s.t, s.flights[a.token])
  {
    match a {
      case Refresh(now, x, rows) => RecomputeRestores(s.t, x, rows, now, k);
      case Recheck(token, rows) => RecomputeRestores(s.t, s.flights[token].key, rows, s.flights[token].now, k);
      case Batch(token) =>
        BatchOverwritesOnly(s.t, s.flights[token], s.flights[token].stage.visible, k);
        BatchOverwritesIff(s, token);
      case _ => VerdictsKept(s, a);
    }
  }

  lemma VerdictsKept(s: Lane, a: Action)
    requires !a.Refresh? && !a.Recheck? && !a.Batch?
    ensures Apply(s, a).t.results == s.t.results && Apply(s, a).t.answers == s.t.answers
  {
    match a {
      case Mail(_) =>
      case IngestOffer(o) => assert Apply(s, a).t == Ingest(s.t, o);
      case LinkOffers(k, job) => assert Apply(s, a).t == LinkJob(s.t, k, job);
      case Rotate(token) => if AtStage(s, token, a) { assert Apply(s, a).t == RotateTables(s.t, s.flights[token]); }
      case Reprice(now, e, jobs, errors) => assert Apply(s, a) == RepriceStep(s, e, now, jobs, errors);
      case CorrectionMark(e) => assert Apply(s, a) == CorrectionMarkStep(s, e);
      case Trigger(token, k) => assert Apply(s, a) == TriggerStep(s, token, k);
      case Select(token, o) => assert Apply(s, a) == SelectStep(s, token, o);
      case Count(token) => if AtStage(s, token, a) { assert Apply(s, a).t == s.t; }
      case CorrectionEnqueue(now, e) => assert Apply(s, a) == CorrectionEnqueueStep(s, e, now);
      case _ =>
    }
  }

  /**
    Self-certification over runs: a CONFIRMED row's supports, and nothing else, make a fresh
    verification confirm at every time before the earliest of their expiries.
  */
  lemma SupportsConfirmUntilExpiry(s: Lane, k: Key, now: int, supports: seq<Offer>)
    requires Reachable(s) && k in s.t.results && s.t.results[k].state.Confirmed?
    requires forall o :: o in supports <==> o.id in SupportsOf(s.t, k) && o.id in s.t.offers && o == s.t.offers[o.id]
    requires forall o :: o in supports ==> !Expired(o.expiry, now)
    ensures V.Verify(EvidenceOf(supports), now, V.TOLERANCE).state.Confirmed?
    ensures SelfCertified(s.t, k)
  {
    ReachableLaneOk(s);
    assert ResultOk(s.t, k);
    SupportsConfirm(s.t, k, now, supports);
  }

  lemma SupportsConfirm(t: Tables, k: Key, now: int, supports: seq<Offer>)
    requires k in t.results && ResultOk(t, k) && t.results[k].state.Confirmed?
    requires forall o :: o in supports <==> o.id in SupportsOf(t, k) && o.id in t.offers && o == t.offers[o.id]
    requires KeyedById(t) && forall o :: o in supports ==> !Expired(o.expiry, now)
    ensures V.Verify(EvidenceOf(supports), now, V.TOLERANCE).state.Confirmed?
  {
    var evidence := EvidenceOf(supports);
    V.VerdictMeaning(evidence, now, V.TOLERANCE);
    forall e | e in SupportEvidence(t, k) ensures e in V.LiveSet(V.Elements(evidence), now) {
      var id :| id in SupportsOf(t, k) && id in t.offers && e == AsEvidence(t.offers[id]);
      assert t.offers[id] in supports && V.Fresh(t.offers[id].expiry, t.answers[k].at);
      EvidenceAmong(supports, t.offers[id]);
    }
    CertifiesMonotone(SupportEvidence(t, k), V.LiveSet(V.Elements(evidence), now));
  }

  lemma EvidenceAmong(supports: seq<Offer>, o: Offer)
    requires o in supports
    ensures AsEvidence(o) in V.Elements(EvidenceOf(supports))
  {
    var i :| 0 <= i < |supports| && supports[i] == o;
    assert EvidenceOf(supports)[i] == AsEvidence(o);
  }
}
