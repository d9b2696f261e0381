/** With time standing still and nothing else running, the expiry lane goes quiet. */
module LaneProgress {
  import V = Verification
  import opened ProviderResults
  import opened OfferLifecycle
  import opened CacheAgreement

  function Work(t: Tables, now: int): nat { |Pending(t)| + |Due(t, now)| }

  lemma SmallerSet<T>(a: set<T>, b: set<T>, x: T)
    requires a <= b && x in b && x !in a
    ensures |a| < |b|
  {
    assert b == a + {x} + (b - a - {x});
  }

  // ----- finishing an event -----

  lemma FinishesOne(s: Lane, e: (Key, nat), now: int, jobs: nat, errors: nat)
    requires e in s.t.events && (IsPending(s.t.events[e]) ==> Demoted(s.t, e))
    ensures var u := Finish(s, e, now, jobs, errors).t;
            Pending(u) == Pending(s.t) - {e} && u == s.t.(events := u.events) && u.events.Keys == s.t.events.Keys
  {
    FinishSettles(s, e, now, jobs, errors);
  }

  lemma FinishSettles(s: Lane, e: (Key, nat), now: int, jobs: nat, errors: nat)
    requires e in s.t.events && (IsPending(s.t.events[e]) ==> Demoted(s.t, e))
    ensures var u := Finish(s, e, now, jobs, errors).t;
            && u == s.t.(events := u.events) && u.events.Keys == s.t.events.Keys && !IsPending(u.events[e])
            && forall x :: x in u.events && x != e ==> u.events[x] == s.t.events[x]
  {
    var repriced := if s.t.events[e].reprice.RepricePending? then RepriceStep(s, e, now, jobs, errors) else s;
    if s.t.events[e].reprice.RepricePending? { RepriceSettles(s, e, now, jobs, errors); }
    if s.t.events[e].correction.CorrectionPending? { CorrectionSettles(repriced, e, now); }
  }

  /** Only that event changes, and of it only how far it has got. */
  ghost predicate EditsOnly(t: Tables, u: Tables, e: (Key, nat))
    requires e in t.events
  {
    && u == t.(events := u.events) && u.events.Keys == t.events.Keys
    && u.events[e].newState == t.events[e].newState
    && forall x :: x in u.events && x != e ==> u.events[x] == t.events[x]
  }

  lemma RepriceSettles(s: Lane, e: (Key, nat), now: int, jobs: nat, errors: nat)
    requires Demoted(s.t, e)
    ensures var u := RepriceStep(s, e, now, jobs, errors).t;
            && EditsOnly(s.t, u, e) && !u.events[e].reprice.RepricePending?
            && u.events[e].correction == s.t.events[e].correction
  {}

  lemma CorrectionSettles(s: Lane, e: (Key, nat), now: int)
    requires Demoted(s.t, e)
    ensures var u := CorrectionMarkStep(CorrectionEnqueueStep(s, e, now), e).t;
            && EditsOnly(s.t, u, e) && !u.events[e].correction.CorrectionPending?
            && u.events[e].reprice == s.t.events[e].reprice
  {
    assert CorrectionEnqueueStep(s, e, now).t == s.t;
  }

  lemma DueAfterEvents(t: Tables, u: Tables, now: int)
    requires u == t.(events := u.events) && u.events.Keys == t.events.Keys
    ensures Due(u, now) == Due(t, now)
  {
    forall k, o ensures (k, o) in Due(u, now) <==> (k, o) in Due(t, now) {
      assert (k, o) in u.events <==> (k, o) in t.events;
    }
  }

  // ----- expiring a support -----

  lemma ExpireTablesOk(t: Tables, k: Key, o: nat, rows: seq<Offer>, now: int, visible: bool)
    requires CacheOk(t) && Chosen(t, now, Expire(k, o)) && RowsOf(t, k, rows)
    ensures CacheOk(ExpireTables(t, k, o, rows, now, visible))
  {
    ChosenExpires(t, now, k, o);
    RecomputeOk(t, k, rows, now);
    SupportsNotExpired(t, k, rows, now, o);
    var r, f := Recompute(t, k, rows, now), NewFlight(t, k, o, now);
    if Demotes(t, k, rows, now) { BatchOk(r, f, visible); } else { RotateOk(r, f); }
  }

  /** Recording an expiry over r changes no support, no other result, and adds its event. */
  ghost predicate RecordsOver(r: Tables, u: Tables, f: Flight) {
    && u.offers == r.offers && (forall x :: SupportsOf(u, x) == SupportsOf(r, x))
    && u.results.Keys == r.results.Keys && (forall x :: x in r.results && x != f.key ==> u.results[x] == r.results[x])
    && u.events.Keys == r.events.Keys + {(f.key, f.offer)}
  }

  lemma BatchOver(r: Tables, f: Flight, visible: bool)
    requires f.key in r.results && SupportsOf(r, f.key) == map[]
    ensures RecordsOver(r, BatchTables(r, f, visible), f)
  {}

  lemma RotateOver(r: Tables, f: Flight)
    ensures RecordsOver(r, RotateTables(r, f), f)
  {}

  lemma ExpireRecords(t: Tables, k: Key, o: nat, rows: seq<Offer>, now: int, visible: bool)
    requires KeyedById(t) && RowsOf(t, k, rows)
    ensures RecordsOver(Recompute(t, k, rows, now), ExpireTables(t, k, o, rows, now, visible), NewFlight(t, k, o, now))
  {
    var r, f := Recompute(t, k, rows, now), NewFlight(t, k, o, now);
    ProbableHasNoSupports(t, k, rows, now);
    if Demotes(t, k, rows, now) { BatchOver(r, f, visible); } else { RotateOver(r, f); }
  }

  lemma ProbableHasNoSupports(t: Tables, k: Key, rows: seq<Offer>, now: int)
    requires KeyedById(t) && RowsOf(t, k, rows)
    ensures Demotes(t, k, rows, now) ==> SupportsOf(Recompute(t, k, rows, now), k) == map[]
  {
    RecomputeCertifies(t, k, rows, now);
  }

  lemma StillDue(t: Tables, k: Key, o: nat, rows: seq<Offer>, now: int, visible: bool, p: (Key, nat))
    requires CacheOk(t) && RowsOf(t, k, rows) && p in Due(ExpireTables(t, k, o, rows, now, visible), now)
    ensures p in Due(t, now) && p.0 != k
  {
    ExpireRecords(t, k, o, rows, now, visible);
    assert IsDue(ExpireTables(t, k, o, rows, now, visible), p.0, p.1, now);
    if p.0 == k { SupportsNotExpired(t, k, rows, now, p.1); } else { assert IsDue(t, p.0, p.1, now); }
  }

  /** An expiry clears every due pair of its key, and adds none. */
  lemma ExpiryClearsKey(t: Tables, k: Key, o: nat, rows: seq<Offer>, now: int, visible: bool)
    requires CacheOk(t) && Chosen(t, now, Expire(k, o)) && RowsOf(t, k, rows)
    ensures |Due(ExpireTables(t, k, o, rows, now, visible), now)| < |Due(t, now)|
  {
    ChosenExpires(t, now, k, o);
    var u := ExpireTables(t, k, o, rows, now, visible);
    forall p | p in Due(u, now) ensures p in Due(t, now) && p.0 != k { StillDue(t, k, o, rows, now, visible, p); }
    var p :| p in Due(t, now) && p.0 == k;
    SmallerSet(Due(u, now), Due(t, now), p);
  }

  lemma AddedPends(t: Tables, e: (Key, nat), x: LifeEvent)
    requires Pending(t) == {}
    ensures Pending(t.(events := AddEvent(t, e, x))) == if e !in t.events && IsPending(x) then {e} else {}
  {
    forall y | y in t.events ensures !IsPending(t.events[y]) { assert y !in Pending(t); }
  }

  /** What a call records: a pending event only for a demotion. */
  ghost predicate Recorded(x: LifeEvent, demotes: bool) {
    if demotes then x.newState.Probable? else !IsPending(x)
  }

  lemma ExpiryEvents(t: Tables, k: Key, o: nat, rows: seq<Offer>, now: int, visible: bool) returns (x: LifeEvent)
    ensures ExpireTables(t, k, o, rows, now, visible).events == AddEvent(t, (k, o), x)
    ensures Recorded(x, Demotes(t, k, rows, now))
  {
    var r, f := Recompute(t, k, rows, now), NewFlight(t, k, o, now);
    assert r.events == t.events;
    if Demotes(t, k, rows, now) {
      x := LifeEvent(V.Probable, EffectiveAt(r, o), f.providers, visible, CorrectionPending, RepricePending, now);
    } else {
      x := LifeEvent(V.Confirmed, EffectiveAt(r, o), f.providers, false, CorrectionNotRequired, RepriceNotRequired,
        now);
    }
  }

  /** Only a demotion that found no event leaves one pending. */
  lemma ExpiryPends(t: Tables, k: Key, o: nat, rows: seq<Offer>, now: int, visible: bool)
    requires Pending(t) == {}
    ensures var u := ExpireTables(t, k, o, rows, now, visible);
            && (k, o) in u.events && (IsPending(u.events[(k, o)]) ==> Demoted(u, (k, o)))
            && Pending(u) <= (if Demotes(t, k, rows, now) then {(k, o)} else {})
  {
    var u := ExpireTables(t, k, o, rows, now, visible);
    var x := ExpiryEvents(t, k, o, rows, now, visible);
    AddedPends(t, (k, o), x);
    assert Pending(u) == Pending(t.(events := u.events));
    assert (k, o) in t.events ==> (k, o) !in Pending(t);
  }

  // ----- calls -----

  /** Every pending event is a demotion's. */
  ghost predicate PendingDemoted(t: Tables) { forall e :: e in t.events && IsPending(t.events[e]) ==> Demoted(t, e) }

  /** Finishing an event keeps the cache, and asks nothing more of any support. */
  lemma FinishKeepsCache(s: Lane, e: (Key, nat), now: int, jobs: nat, errors: nat)
    requires CacheOk(s.t) && e in s.t.events && (IsPending(s.t.events[e]) ==> Demoted(s.t, e))
    ensures var u := Finish(s, e, now, jobs, errors).t;
            CacheOk(u) && Pending(u) == Pending(s.t) - {e} && Due(u, now) == Due(s.t, now)
  {
    var u := Finish(s, e, now, jobs, errors).t;
    FinishesOne(s, e, now, jobs, errors);
    DueAfterEvents(s.t, u, now);
    EventEditOk(s.t, u);
  }

  lemma FinishKeepsDemotions(s: Lane, e: (Key, nat), now: int, jobs: nat, errors: nat)
    requires PendingDemoted(s.t) && e in s.t.events
    ensures PendingDemoted(Finish(s, e, now, jobs, errors).t)
  {
    FinishSettles(s, e, now, jobs, errors);
    var u := Finish(s, e, now, jobs, errors).t;
    forall x | x in u.events && IsPending(u.events[x]) ensures Demoted(u, x) {
      assert x != e && Demoted(s.t, x);
    }
  }

  lemma ResumeMakesProgress(s: Lane, e: (Key, nat), now: int, jobs: nat, errors: nat)
    requires CacheOk(s.t) && PendingDemoted(s.t) && e in Pending(s.t)
    ensures var u := Finish(s, e, now, jobs, errors).t;
            CacheOk(u) && PendingDemoted(u) && Work(u, now) < Work(s.t, now)
  {
    FinishKeepsCache(s, e, now, jobs, errors);
    FinishKeepsDemotions(s, e, now, jobs, errors);
    SmallerSet(Pending(s.t) - {e}, Pending(s.t), e);
  }

  lemma ExpireMakesProgress(s: Lane, k: Key, o: nat, rows: seq<Offer>, now: int, jobs: nat, errors: nat)
    requires CacheOk(s.t) && Chosen(s.t, now, Expire(k, o)) && RowsOf(s.t, k, rows)
    ensures var u := Call(s, now, Expire(k, o), rows, jobs, errors).t;
            CacheOk(u) && PendingDemoted(u) && Work(u, now) < Work(s.t, now)
  {
    var visible := Visible(s.box, ItineraryOf(k));
    var u := ExpireStep(s, k, o, rows, now);
    ExpiryClearsKey(s.t, k, o, rows, now, visible);
    ExpireTablesOk(s.t, k, o, rows, now, visible);
    ExpiryPends(s.t, k, o, rows, now, visible);
    if Demotes(s.t, k, rows, now) {
      FinishKeepsCache(u, (k, o), now, jobs, errors);
      NothingPends(Finish(u, (k, o), now, jobs, errors).t);
    } else {
      NothingPends(u.t);
    }
  }

  lemma NothingPends(t: Tables)
    requires Pending(t) <= {}
    ensures PendingDemoted(t) && |Pending(t)| == 0
  {
    forall e | e in t.events ensures !IsPending(t.events[e]) { assert e !in Pending(t); }
  }

  /** Every call that reports work leaves strictly less work, with time standing still. */
  lemma CallMakesProgress(s: Lane, now: int, c: Choice, rows: seq<Offer>, jobs: nat, errors: nat)
    requires CacheOk(s.t) && PendingDemoted(s.t) && Chosen(s.t, now, c) && !c.Quiet?
    requires c.Expire? ==> RowsOf(s.t, c.key, rows)
    ensures var u := Call(s, now, c, rows, jobs, errors).t;
            CacheOk(u) && PendingDemoted(u) && Work(u, now) < Work(s.t, now)
  {
    match c {
      case Resume(e) => ResumeMakesProgress(s, e, now, jobs, errors);
      case Expire(k, o) => ExpireMakesProgress(s, k, o, rows, now, jobs, errors);
    }
  }

  /** States reached by n successive working calls at one time. */
  ghost predicate WorkingCalls(states: seq<Lane>, now: int) {
    |states| <= 1 || (WorkingCall(states[0], states[1], now) && WorkingCalls(states[1..], now))
  }

  ghost predicate WorkingCall(s: Lane, u: Lane, now: int) {
    exists c, rows, jobs: nat, errors: nat ::
      && Chosen(s.t, now, c) && !c.Quiet? && (c.Expire? ==> RowsOf(s.t, c.key, rows))
      && u == Call(s, now, c, rows, jobs, errors)
  }

  lemma WorkingCallProgress(s: Lane, u: Lane, now: int)
    requires CacheOk(s.t) && PendingDemoted(s.t) && WorkingCall(s, u, now)
    ensures CacheOk(u.t) && PendingDemoted(u.t) && Work(u.t, now) < Work(s.t, now)
  {
    var c, rows, jobs: nat, errors: nat :|
      && Chosen(s.t, now, c) && !c.Quiet? && (c.Expire? ==> RowsOf(s.t, c.key, rows))
      && u == Call(s, now, c, rows, jobs, errors);
    CallMakesProgress(s, now, c, rows, jobs, errors);
  }

  lemma {:induction false} CallsBounded(states: seq<Lane>, now: int)
    requires states != [] && CacheOk(states[0].t) && PendingDemoted(states[0].t)
    requires WorkingCalls(states, now)
    ensures |states| - 1 <= Work(states[0].t, now)
    decreases |states|
  {
    if |states| > 1 {
      WorkingCallProgress(states[0], states[1], now);
      CallsBounded(states[1..], now);
    }
  }

  lemma StepPendingDemoted(s: Lane, a: Action)
    requires PendingDemoted(s.t)
    ensures PendingDemoted(Apply(s, a).t)
  {
    var u := Apply(s, a).t;
    forall e | e in u.events && IsPending(u.events[e]) ensures Demoted(u, e) {
      assert e in s.t.events && IsPending(s.t.events[e]) ==> Demoted(s.t, e);
    }
  }

  lemma {:induction false} RunPendingDemoted(s: Lane, acts: seq<Action>)
    requires PendingDemoted(s.t)
    ensures PendingDemoted(Run(s, acts).t)
    decreases |acts|
  {
    if acts != [] {
      StepPendingDemoted(s, acts[0]);
      RunPendingDemoted(Apply(s, acts[0]), acts[1..]);
    }
  }

  /** The lane goes quiet: from any reachable state there are at most Work successive working calls. */
  lemma LaneGoesQuiet(states: seq<Lane>, now: int)
    requires states != [] && Reachable(states[0]) && WorkingCalls(states, now)
    ensures |states| - 1 <= Work(states[0].t, now)
  {
    ReachableLaneOk(states[0]);
    var constraints, acts :| ReachedBy(states[0], constraints, acts);
    RunPendingDemoted(Start(constraints), acts);
    CallsBounded(states, now);
  }
}
