/**
  The expiry lane: when a recorded support of a CONFIRMED result expires, re-evaluate the result, and
  either rotate its supports or demote it, silence its unsent DEAL notifications and correct the ones
  that may have been seen. A call does at most one item, in several statements; other invocations may
  run between any two of them, a call may crash after any of them, and a later call resumes its event.
*/
module OfferLifecycle {
  import opened Sorting
  import V = Verification
  import Q = LeaseQueue
  import Promotion
  import opened ProviderResults
  import O = Outbox

  /** How far an expiry call has got; `serial` is that of its own recomputation. */
  datatype Stage = Selected | Rotating | Answered(serial: nat) | Counted(serial: nat, visible: bool)

  /** A call that found an expired support, between two of its statements; `now` is the time it was given. */
  datatype Flight = Flight(key: Key, offer: nat, now: int, providers: set<V.Provider>, stage: Stage)

  /** A call before that: it found no pending event, and then perhaps a result with a due support. */
  datatype Search = Started(now: int) | Found(key: Key, now: int)

  datatype Lane = Lane(t: Tables, box: O.Box, searches: map<nat, Search>, flights: map<nat, Flight>)

  // ----- what the lane selects -----

  predicate IsPending(e: LifeEvent) { e.correction.CorrectionPending? || e.reprice.RepricePending? }

  function Pending(t: Tables): set<(Key, nat)> { set e | e in t.events && IsPending(t.events[e]) }

  predicate Expired(x: V.Expiry, now: int) { x.ExpiresAt? && x.at <= now }

  /** Supports of CONFIRMED results that have expired and have no event yet. */
  function Due(t: Tables, now: int): set<(Key, nat)> {
    set k, o | k in t.results && k in t.supports && o in t.supports[k] && IsDue(t, k, o, now) :: (k, o)
  }

  predicate IsDue(t: Tables, k: Key, o: nat, now: int) {
    && k in t.results && t.results[k].state.Confirmed? && o in SupportsOf(t, k)
    && o in t.offers && t.offers[o].live && Expired(t.offers[o].expiry, now) && (k, o) !in t.events
  }

  function EventOrder(t: Tables, e: (Key, nat)): seq<int>
    requires e in t.events
  {
    [t.events[e].createdAt, e.0.queue, e.0.fingerprint, e.1]
  }

  function TriggerOrder(t: Tables, p: (Key, nat)): seq<int>
    requires p.0 in t.results && p.1 in t.offers && t.offers[p.1].expiry.ExpiresAt?
  {
    [t.offers[p.1].expiry.at, t.results[p.0].updatedAt, p.0.queue, p.0.fingerprint]
  }

  function SupportOrder(s: map<nat, Role>, o: nat): seq<int>
    requires o in s
  {
    [if s[o] == Primary then 0 else 1, o]
  }

  datatype Choice = Quiet | Resume(event: (Key, nat)) | Expire(key: Key, offer: nat)

  /** The first support of a result, primary before the others, that has expired. */
  ghost predicate FirstExpired(t: Tables, k: Key, o: nat, now: int) {
    var s := SupportsOf(t, k);
    && o in s && o in t.offers && Expired(t.offers[o].expiry, now)
    && forall x :: x in s && x in t.offers && Expired(t.offers[x].expiry, now) ==>
         LexLeq(SupportOrder(s, o), SupportOrder(s, x))
  }

  ghost predicate FirstPending(t: Tables, e: (Key, nat)) {
    e in Pending(t) && forall x :: x in Pending(t) ==> LexLeq(EventOrder(t, e), EventOrder(t, x))
  }

  ghost predicate FirstDue(t: Tables, p: (Key, nat), now: int) {
    p in Due(t, now) && forall x :: x in Due(t, now) ==> LexLeq(TriggerOrder(t, p), TriggerOrder(t, x))
  }

  /** A pending event first; else the result that a due support of which expired first. */
  ghost predicate Chosen(t: Tables, now: int, c: Choice) {
    if Pending(t) != {} then c.Resume? && FirstPending(t, c.event)
    else if Due(t, now) == {} then c.Quiet?
    else c.Expire? && FirstExpired(t, c.key, c.offer, now) && FirstDueKey(t, c.key, now)
  }

  ghost predicate FirstDueKey(t: Tables, k: Key, now: int) { exists p :: FirstDue(t, p, now) && p.0 == k }

  // ----- the statements of a call -----

  function ItineraryOf(k: Key): O.Itinerary { O.Direct(k) }

  function DealsOf(box: O.Box, i: O.Itinerary): set<O.IntentId> {
    set id | id in box.intents && box.intents[id].cls == O.Deal && box.intents[id].itinerary == i
  }

  predicate Seen(box: O.Box, id: O.IntentId) {
    id in box.queue.rows && (box.queue.rows[id].state == Q.Leased || box.queue.rows[id].state == Q.Done)
  }

  /** Some DEAL of the itinerary is being sent or was delivered. */
  predicate Visible(box: O.Box, i: O.Itinerary) { exists id :: id in DealsOf(box, i) && Seen(box, id) }

  function AddEvent(t: Tables, e: (Key, nat), x: LifeEvent): map<(Key, nat), LifeEvent> {
    if e in t.events then t.events else t.events[e := x]
  }

  function EffectiveAt(t: Tables, o: nat): int {
    if o in t.offers && t.offers[o].expiry.ExpiresAt? then t.offers[o].expiry.at else 0
  }

  function SupportProviders(t: Tables, k: Key): set<V.Provider> {
    set o | o in SupportsOf(t, k) && o in t.offers :: t.offers[o].provider
  }

  function NewFlight(t: Tables, k: Key, o: nat, now: int): Flight {
    Flight(k, o, now, SupportProviders(t, k), Selected)
  }

  /** The recomputation sustained CONFIRMED: the expiry is recorded and asks for nothing. */
  function RotateTables(t: Tables, f: Flight): Tables {
    t.(events := AddEvent(t, (f.key, f.offer),
         LifeEvent(V.Confirmed, EffectiveAt(t, f.offer), f.providers, false, CorrectionNotRequired, RepriceNotRequired,
           f.now)))
  }

  /** The batch of a demotion rewrites the result, whatever it says by now. */
  function BatchTables(t: Tables, f: Flight, visible: bool): Tables
    requires f.key in t.results
  {
    t.(events := AddEvent(t, (f.key, f.offer),
         LifeEvent(V.Probable, EffectiveAt(t, f.offer), f.providers, visible, CorrectionPending, RepricePending,
           f.now)),
       results := t.results[f.key := t.results[f.key].(state := V.Probable, reason := SupportExpired,
         updatedAt := f.now)],
       supports := t.supports[f.key := map[]])
  }

  /** Unprojected DEAL intents are marked as projected, and unsent DEAL rows are cancelled. */
  function Suppress(box: O.Box, i: O.Itinerary): O.Box {
    O.Box(O.Mark(box.intents, DealsOf(box, i)), Q.CancelStep(box.queue, DealsOf(box, i)), box.batches)
  }

  function RepriceOutcome(jobs: nat, errors: nat): RepriceState {
    if jobs > 0 && errors > 0 then RepricePartial else if jobs > 0 then RepriceEnqueued else RepriceFailed
  }

  predicate Demoted(t: Tables, e: (Key, nat)) { e in t.events && t.events[e].newState.Probable? }

  /** Whoever read the event as pending may write its outcome, however late. */
  function RepriceStep(s: Lane, e: (Key, nat), now: int, jobs: nat, errors: nat): Lane {
    if Demoted(s.t, e) then
      s.(t := s.t.(events := s.t.events[e := s.t.events[e].(reprice := RepriceOutcome(jobs, errors))]),
         box := if errors > 0 then O.Enqueue(s.box, now, O.AdminRefresh(e.0, e.1), ItineraryOf(e.0), O.Admin)
           else s.box)
    else s
  }

  function CorrectionEnqueueStep(s: Lane, e: (Key, nat), now: int): Lane {
    if Demoted(s.t, e) && s.t.events[e].hadVisible then
      s.(box := O.Enqueue(s.box, now, O.Correction(e.0, e.1), ItineraryOf(e.0), O.Deal))
    else s
  }

  function CorrectionMarkStep(s: Lane, e: (Key, nat)): Lane {
    if Demoted(s.t, e) then
      s.(t := s.t.(events := s.t.events[e := s.t.events[e].(correction :=
           if s.t.events[e].hadVisible then CorrectionEnqueued else CorrectionNotRequired)]))
    else s
  }

  // ----- uninterrupted calls -----

  /** finishLifecycleEvent does what the event it read still asks for. */
  function Finish(s: Lane, e: (Key, nat), now: int, jobs: nat, errors: nat): Lane {
    if e !in s.t.events then s
    else
      var repriced := if s.t.events[e].reprice.RepricePending? then RepriceStep(s, e, now, jobs, errors) else s;
      if s.t.events[e].correction.CorrectionPending?
      then CorrectionMarkStep(CorrectionEnqueueStep(repriced, e, now), e) else repriced
  }

  predicate Demotes(t: Tables, k: Key, rows: seq<Offer>, now: int) {
    Recompute(t, k, rows, now).results[k].state.Probable?
  }

  /** The tables after an expiry that nothing interrupted. */
  function ExpireTables(t: Tables, k: Key, o: nat, rows: seq<Offer>, now: int, visible: bool): Tables {
    var r := Recompute(t, k, rows, now);
    if Demotes(t, k, rows, now) then BatchTables(r, NewFlight(t, k, o, now), visible)
      else RotateTables(r, NewFlight(t, k, o, now))
  }

  function ExpireStep(s: Lane, k: Key, o: nat, rows: seq<Offer>, now: int): Lane {
    s.(t := ExpireTables(s.t, k, o, rows, now, Visible(s.box, ItineraryOf(k))),
       box := if Demotes(s.t, k, rows, now) then Suppress(s.box, ItineraryOf(k)) else s.box)
  }

  /** One uninterrupted call of expireLiveProviderOffers; `rows` are what its recomputation reads. */
  function Call(s: Lane, now: int, c: Choice, rows: seq<Offer>, jobs: nat, errors: nat): Lane {
    match c
    case Quiet => s
    case Resume(e) => Finish(s, e, now, jobs, errors)
    case Expire(k, o) =>
      var u := ExpireStep(s, k, o, rows, now);
      if Demotes(s.t, k, rows, now) then Finish(u, (k, o), now, jobs, errors) else u
  }

  // ----- runs: the statements interleaved with everything else that writes the tables -----

  datatype Action =
    | Mail(a: O.Action)
    | IngestOffer(o: Offer)
    | LinkOffers(key: Key, job: nat)
    | Refresh(now: int, key: Key, rows: seq<Offer>)
    | Begin(now: int, token: nat)
    | Trigger(token: nat, key: Key)
    | Select(token: nat, offer: nat)
    | Recheck(token: nat, rows: seq<Offer>)
    | Rotate(token: nat)
    | Count(token: nat)
    | Batch(token: nat)
    | Reprice(now: int, event: (Key, nat), jobs: nat, errors: nat)
    | CorrectionEnqueue(now: int, event: (Key, nat))
    | CorrectionMark(event: (Key, nat))

  predicate AtStage(s: Lane, token: nat, a: Action) {
    token in s.flights &&
    match a
    case Recheck(_, _) => s.flights[token].stage.Selected?
    case Rotate(_) => s.flights[token].stage.Rotating?
    case Count(_) => s.flights[token].stage.Answered?
    case Batch(_) => s.flights[token].stage.Counted? && s.flights[token].key in s.t.results
    case _ => false
  }

  function RecheckStep(s: Lane, token: nat, rows: seq<Offer>): Lane
    requires token in s.flights
  {
    var f := s.flights[token];
    var t := Recompute(s.t, f.key, rows, f.now);
    s.(t := t, flights := s.flights[token := f.(stage :=
         if t.results[f.key].state.Confirmed? then Rotating else Answered(t.recomputes))])
  }

  function CountStep(s: Lane, token: nat): Lane
    requires token in s.flights && s.flights[token].stage.Answered?
  {
    var f := s.flights[token];
    s.(flights := s.flights[token := f.(stage := Counted(f.stage.serial, Visible(s.box, ItineraryOf(f.key))))])
  }

  function BatchStep(s: Lane, token: nat): Lane
    requires token in s.flights && s.flights[token].stage.Counted? && s.flights[token].key in s.t.results
  {
    var f := s.flights[token];
    s.(t := BatchTables(s.t, f, f.stage.visible), box := Suppress(s.box, ItineraryOf(f.key)),
       flights := s.flights - {token})
  }

  function TriggerStep(s: Lane, token: nat, k: Key): Lane {
    if token in s.searches then s.(searches := s.searches[token := Found(k, s.searches[token].now)]) else s
  }

  function SelectStep(s: Lane, token: nat, o: nat): Lane {
    if token in s.searches && s.searches[token].Found? then
      var f := NewFlight(s.t, s.searches[token].key, o, s.searches[token].now);
      s.(searches := s.searches - {token}, flights := s.flights[token := f])
    else s
  }

  function Apply(s: Lane, a: Action): Lane {
    match a
    case Mail(m) => s.(box := O.Apply(s.box, m))
    case IngestOffer(o) => s.(t := Ingest(s.t, o))
    case LinkOffers(k, job) => s.(t := LinkJob(s.t, k, job))
    case Refresh(now, k, rows) => s.(t := Recompute(s.t, k, rows, now))
    case Begin(now, token) => s.(searches := s.searches[token := Started(now)])
    case Trigger(token, k) => TriggerStep(s, token, k)
    case Select(token, o) => SelectStep(s, token, o)
    case Recheck(token, rows) => if AtStage(s, token, a) then RecheckStep(s, token, rows) else s
    case Rotate(token) =>
      if AtStage(s, token, a) then s.(t := RotateTables(s.t, s.flights[token]), flights := s.flights - {token}) else s
    case Count(token) => if AtStage(s, token, a) then CountStep(s, token) else s
    case Batch(token) => if AtStage(s, token, a) then BatchStep(s, token) else s
    case Reprice(now, e, jobs, errors) => RepriceStep(s, e, now, jobs, errors)
    case CorrectionEnqueue(now, e) => CorrectionEnqueueStep(s, e, now)
    case CorrectionMark(e) => CorrectionMarkStep(s, e)
  }

  /**
    The program order of each call. Every step brings a time of its own, and nothing orders these times: one
    invocation may have read its clock long before another, and act after it. A correction is marked only
    after it was enqueued.
  */
  ghost predicate Enabled(s: Lane, a: Action) {
    match a
    case Mail(m) => O.Enabled(s.box, m)
    case Refresh(now, k, rows) => RowsOf(s.t, k, rows)
    case Begin(now, token) => token !in s.searches && token !in s.flights && Pending(s.t) == {}
    case Trigger(token, k) =>
      token in s.searches && s.searches[token].Started? && FirstDueKey(s.t, k, s.searches[token].now)
    case Select(token, o) =>
      token in s.searches && s.searches[token].Found?
        && FirstExpired(s.t, s.searches[token].key, o, s.searches[token].now)
    case Recheck(token, rows) => AtStage(s, token, a) && RowsOf(s.t, s.flights[token].key, rows)
    case Rotate(token) => AtStage(s, token, a)
    case Count(token) => AtStage(s, token, a)
    case Batch(token) => AtStage(s, token, a)
    case CorrectionMark(e) =>
      Demoted(s.t, e) && s.t.events[e].hadVisible ==> O.Correction(e.0, e.1) in s.box.intents
    case _ => true
  }

  function Run(s: Lane, acts: seq<Action>): Lane
    decreases |acts|
  {
    if acts == [] then s else Run(Apply(s, acts[0]), acts[1..])
  }

  ghost predicate Legal(s: Lane, acts: seq<Action>)
    decreases |acts|
  {
    acts == [] || (Enabled(s, acts[0]) && Legal(Apply(s, acts[0]), acts[1..]))
  }

  function Start(constraints: map<nat, Promotion.Constraint>): Lane {
    Lane(Tables(map[], constraints, map[], map[], map[], map[], {}, 0, map[]), O.EMPTY, map[], map[])
  }

  /** Some run from an empty store, with some promotion constraints, leads to this state. */
  ghost predicate Reachable(s: Lane) { exists constraints, acts :: ReachedBy(s, constraints, acts) }

  ghost predicate ReachedBy(s: Lane, constraints: map<nat, Promotion.Constraint>, acts: seq<Action>) {
    Legal(Start(constraints), acts) && s == Run(Start(constraints), acts)
  }

  lemma {:induction false} LaneAppend(s: Lane, x: seq<Action>, y: seq<Action>)
    requires Legal(s, x) && Legal(Run(s, x), y)
    ensures Legal(s, x + y) && Run(s, x + y) == Run(Run(s, x), y)
    decreases |x|
  {
    if x == [] {
      assert x + y == y;
    } else {
      LaneAppend(Apply(s, x[0]), x[1..], y);
      assert (x + y)[0] == x[0] && (x + y)[1..] == x[1..] + y;
    }
  }

  lemma LaneStep(s: Lane, acts: seq<Action>, a: Action)
    requires Legal(s, acts) && Enabled(Run(s, acts), a)
    ensures Legal(s, acts + [a]) && Run(s, acts + [a]) == Apply(Run(s, acts), a)
  {
    assert [a][1..] == [];
    LaneAppend(s, acts, [a]);
  }

  /** What is reachable stays reachable. */
  lemma ReachableRun(s: Lane, acts: seq<Action>)
    requires Reachable(s) && Legal(s, acts)
    ensures Reachable(Run(s, acts))
  {
    var constraints, before :| ReachedBy(s, constraints, before);
    LaneAppend(Start(constraints), before, acts);
    assert ReachedBy(Run(s, acts), constraints, before + acts);
  }
}
