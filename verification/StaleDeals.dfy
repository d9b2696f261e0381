/**
  What a demotion means for notifications, over whole runs of the lane: which DEALs that were announced
  before it can still reach a reader after it, when the correction is sent, and when a stale DEAL goes out
  without one. The visible count and the batch of updates are separate statements.
*/
module StaleDeals {
  import V = Verification
  import Q = LeaseQueue
  import opened ProviderResults
  import O = Outbox
  import opened OfferLifecycle
  import opened CacheAgreement

  // ----- the outbox inside a run of the lane -----

  lemma SilentLaneStep(s: Lane, a: Action, id: O.IntentId)
    requires Enabled(s, a) && id in s.box.intents && !O.CanStillSend(s.box, id)
    ensures id in Apply(s, a).box.intents && !O.CanStillSend(Apply(s, a).box, id)
    ensures O.Delivered(Apply(s, a).box, id) <==> O.Delivered(s.box, id)
  {
    match a {
      case Mail(m) => O.SilentStep(s.box, m, id);
      case Batch(token) => SilentSuppress(s.box, ItineraryOf(s.flights[token].key), id);
      case Reprice(now, e, jobs, errors) => assert Apply(s, a) == RepriceStep(s, e, now, jobs, errors);
      case CorrectionEnqueue(now, e) => assert Apply(s, a) == CorrectionEnqueueStep(s, e, now);
      case CorrectionMark(e) => assert Apply(s, a).box == s.box;
      case Rotate(_) => assert Apply(s, a).box == s.box;
      case _ => TablesOnly(s, a);
    }
  }

  lemma SilentSuppress(b: O.Box, i: O.Itinerary, id: O.IntentId)
    requires id in b.intents && !O.CanStillSend(b, id)
    ensures var c := Suppress(b, i);
            id in c.intents && !O.CanStillSend(c, id) && (O.Delivered(c, id) <==> O.Delivered(b, id))
  {
    assert O.InBatch(Suppress(b, i), id) <==> O.InBatch(b, id);
  }

  /** An intent that can no longer be sent stays unsent, whatever the lane and the outbox do. */
  lemma {:induction false} SilentLaneForever(s: Lane, acts: seq<Action>, id: O.IntentId)
    requires Legal(s, acts) && id in s.box.intents && !O.CanStillSend(s.box, id)
    ensures id in Run(s, acts).box.intents && !O.CanStillSend(Run(s, acts).box, id)
    ensures O.Delivered(Run(s, acts).box, id) <==> O.Delivered(s.box, id)
    decreases |acts|
  {
    if acts != [] {
      SilentLaneStep(s, acts[0], id);
      SilentLaneForever(Apply(s, acts[0]), acts[1..], id);
    }
  }

  lemma MailQueueOk(b: O.Box, m: O.Action)
    requires Q.QueueOk(b.queue) && O.Enabled(b, m)
    ensures Q.QueueOk(O.Apply(b, m).queue)
  {
    O.QueueSimulates(b, m);
    Q.ApplyOk(b.queue, Q.Notifications, O.QueueAction(b, m));
  }

  lemma SuppressQueueOk(b: O.Box, i: O.Itinerary)
    requires Q.QueueOk(b.queue)
    ensures Q.QueueOk(Suppress(b, i).queue)
  {
    Q.ApplyOk(b.queue, Q.Notifications, Q.Cancel(0, DealsOf(b, i)));
  }

  lemma LaneQueueOk(s: Lane, a: Action)
    requires Q.QueueOk(s.box.queue) && Enabled(s, a)
    ensures Q.QueueOk(Apply(s, a).box.queue)
  {
    match a {
      case Mail(m) => MailQueueOk(s.box, m);
      case Batch(token) => SuppressQueueOk(s.box, ItineraryOf(s.flights[token].key));
      case _ =>
    }
  }

  lemma {:induction false} RunQueueOk(s: Lane, acts: seq<Action>)
    requires Q.QueueOk(s.box.queue) && Legal(s, acts)
    ensures Q.QueueOk(Run(s, acts).box.queue)
    decreases |acts|
  {
    if acts != [] {
      LaneQueueOk(s, acts[0]);
      RunQueueOk(Apply(s, acts[0]), acts[1..]);
    }
  }

  function Mails(acts: seq<O.Action>): (r: seq<Action>) {
    if acts == [] then [] else [Mail(acts[0])] + Mails(acts[1..])
  }

  /** A run of the outbox alone is a run of the lane. */
  lemma {:induction false} MailRun(s: Lane, acts: seq<O.Action>)
    requires O.Legal(s.box, acts)
    ensures Legal(s, Mails(acts)) && Run(s, Mails(acts)) == s.(box := O.Run(s.box, acts))
    decreases |acts|
  {
    if acts != [] {
      var m := Mails(acts);
      assert m[0] == Mail(acts[0]) && m[1..] == Mails(acts[1..]);
      MailRun(Apply(s, m[0]), acts[1..]);
    }
  }

  // ----- which older DEALs can still be delivered after a demotion -----

  /** Held in an interrupted projection: read as a batch, not yet inserted. */
  ghost predicate InFlight(b: O.Box, id: O.IntentId) { id !in b.queue.rows && O.InBatch(b, id) }

  lemma SuppressedDeal(b: O.Box, i: O.Itinerary, id: O.IntentId)
    requires id in DealsOf(b, i)
    ensures var c := Suppress(b, i);
            && id in c.intents
            && (O.Delivered(c, id) <==> O.Delivered(b, id))
            && (O.Delivered(c, id) || O.CanStillSend(c, id) <==> Seen(b, id) || InFlight(b, id))
  {
    var c := Suppress(b, i);
    assert c.batches == b.batches;
    assert O.InBatch(c, id) <==> O.InBatch(b, id);
  }

  /** What a demotion leaves alone: all but the unsent DEALs of the itinerary. */
  lemma SuppressSparesOthers(b: O.Box, i: O.Itinerary, id: O.IntentId)
    requires id !in DealsOf(b, i) || (id in b.queue.rows && (Seen(b, id) || b.queue.rows[id].state == Q.Dead))
    ensures var c := Suppress(b, i);
            && (id in c.queue.rows <==> id in b.queue.rows) && (id in c.intents <==> id in b.intents)
            && (id in b.queue.rows ==> c.queue.rows[id] == b.queue.rows[id])
            && (id in b.intents && id !in DealsOf(b, i) ==> c.intents[id] == b.intents[id])
  {}

  ghost predicate DeliveredAfter(s: Lane, acts: seq<Action>, id: O.IntentId) {
    Legal(s, acts) && O.Delivered(Run(s, acts).box, id)
  }

  /** The batch of a demotion. */
  ghost predicate Demotion(s: Lane, a: Action) { a.Batch? && Enabled(s, a) }

  function DemotedKey(s: Lane, a: Action): Key
    requires a.Batch? && a.token in s.flights
  {
    s.flights[a.token].key
  }

  /** The deals announced for its itinerary before the batch. */
  function OlderDeals(s: Lane, a: Action): set<O.IntentId>
    requires a.Batch? && a.token in s.flights
  {
    DealsOf(s.box, ItineraryOf(DemotedKey(s, a)))
  }

  /**
    Stale-deal safety, exactly. After the batch of a demotion an older DEAL can end up DELIVERED in some
    run if and only if it was SENDING or DELIVERED then, or an interrupted projection held it.
  */
  lemma StaleDealIff(s: Lane, a: Action, id: O.IntentId)
    requires Reachable(s) && Demotion(s, a) && id in OlderDeals(s, a)
    ensures (exists after :: DeliveredAfter(Apply(s, a), after, id)) <==> Seen(s.box, id) || InFlight(s.box, id)
  {
    ReachableQueueOk(s);
    StaleDealFrom(s, a, id);
  }

  lemma ReachableQueueOk(s: Lane)
    requires Reachable(s)
    ensures Q.QueueOk(s.box.queue)
  {
    var constraints, acts :| ReachedBy(s, constraints, acts);
    RunQueueOk(Start(constraints), acts);
  }

  lemma StaleDealFrom(s: Lane, a: Action, id: O.IntentId)
    requires Q.QueueOk(s.box.queue) && Demotion(s, a) && id in OlderDeals(s, a)
    ensures (exists after :: DeliveredAfter(Apply(s, a), after, id)) <==> Seen(s.box, id) || InFlight(s.box, id)
  {
    var u := Apply(s, a);
    SuppressedDeal(s.box, ItineraryOf(DemotedKey(s, a)), id);
    LaneQueueOk(s, a);
    O.DeliverableIff(u.box, id);
    if mails :| O.DeliveredBy(u.box, mails, id) {
      MailRun(u, mails);
      assert DeliveredAfter(u, Mails(mails), id);
    } else if after :| DeliveredAfter(u, after, id) {
      SilentLaneForever(u, after, id);
    }
  }

  /** With redundant evidence an expiry only rotates: its recomputation leaves CONFIRMED on fresh supports. */
  lemma RotationIsFresh(s: Lane, token: nat, rows: seq<Offer>)
    requires Reachable(s) && Enabled(s, Recheck(token, rows))
    requires !Demotes(s.t, s.flights[token].key, rows, s.flights[token].now)
    ensures var f := s.flights[token]; var u := Apply(s, Recheck(token, rows));
            && u.box == s.box && u.t.results[f.key].state.Confirmed? && u.flights[token] == f.(stage := Rotating)
            && (forall id :: id in SupportsOf(u.t, f.key) ==> id in u.t.offers && V.Fresh(u.t.offers[id].expiry, f.now))
            && f.offer !in SupportsOf(u.t, f.key)
  {
    ReachableLaneOk(s);
    var f := s.flights[token];
    assert FlightOk(s.t, f);
    RecomputeCertifies(s.t, f.key, rows, f.now);
    SupportsNotExpired(s.t, f.key, rows, f.now, f.offer);
  }

  /** And recording it moves nothing in the outbox, changes no verdict, and asks for nothing. */
  lemma RotationIsSilent(s: Lane, token: nat)
    requires Reachable(s) && Enabled(s, Rotate(token))
    ensures var f := s.flights[token]; var u := Apply(s, Rotate(token));
            && u.box == s.box && u.t.results == s.t.results && u.t.supports == s.t.supports
            && ((f.key, f.offer) !in s.t.events ==>
                  Records(u.t, f, V.Confirmed, false) && !IsPending(u.t.events[(f.key, f.offer)]))
  {
    ReachableLaneOk(s);
    assert FlightOk(s.t, s.flights[token]);
  }

  /** The event of an expiry names its offer's end, its providers and what was visible. */
  ghost predicate Records(t: Tables, f: Flight, state: V.State, visible: bool) {
    var e := (f.key, f.offer);
    && e in t.events && t.events[e].newState == state && t.events[e].hadVisible == visible
    && t.events[e].providers == f.providers && t.events[e].createdAt == f.now
    && f.offer in t.offers && t.offers[f.offer].expiry == V.ExpiresAt(t.events[e].effectiveAt)
  }

  // ----- corrections -----

  /**
    A correction intent exists only for an event whose reader may have seen a DEAL; its state agrees. The
    event of a rotation says that nothing was seen, and asks for nothing.
  */
  ghost predicate CorrectionOk(s: Lane, e: (Key, nat)) {
    var intent := O.Correction(e.0, e.1);
    && (intent in s.box.intents ==> e in s.t.events && s.t.events[e].hadVisible)
    && (e in s.t.events ==>
          match s.t.events[e].correction
          case CorrectionPending => s.t.events[e].newState.Probable?
          case CorrectionNotRequired => !s.t.events[e].hadVisible
          case CorrectionEnqueued =>
            s.t.events[e].newState.Probable? && s.t.events[e].hadVisible && intent in s.box.intents)
  }

  ghost predicate CorrectionsOk(s: Lane) { forall e {:trigger CorrectionOk(s, e)} :: CorrectionOk(s, e) }

  /** What a step does to the event e and its correction intent, as far as corrections care. */
  ghost predicate EventKept(s: Lane, u: Lane, e: (Key, nat)) {
    && e in s.t.events && e in u.t.events
    && u.t.events[e].hadVisible == s.t.events[e].hadVisible
    && u.t.events[e].newState == s.t.events[e].newState
    && u.t.events[e].createdAt == s.t.events[e].createdAt
    && (!s.t.events[e].correction.CorrectionPending? ==> !u.t.events[e].correction.CorrectionPending?)
    && (O.Correction(e.0, e.1) in s.box.intents ==> O.Correction(e.0, e.1) in u.box.intents)
  }

  lemma MailKeepsCorrection(b: O.Box, m: O.Action, e: (Key, nat))
    ensures O.Correction(e.0, e.1) in O.Apply(b, m).intents <==> O.Correction(e.0, e.1) in b.intents
  {}

  /** The steps that write the tables of offers and verdicts leave events and the outbox alone. */
  lemma TablesOnly(s: Lane, a: Action)
    requires
      || a.IngestOffer? || a.LinkOffers? || a.Refresh? || a.Begin? || a.Trigger? || a.Select? || a.Recheck?
      || a.Count?
    ensures Apply(s, a).t.events == s.t.events && Apply(s, a).box == s.box
  {
    match a {
      case IngestOffer(o) => assert Ingest(s.t, o).events == s.t.events;
      case LinkOffers(k, job) => assert LinkJob(s.t, k, job).events == s.t.events;
      case Trigger(token, k) => assert Apply(s, a) == TriggerStep(s, token, k);
      case Select(token, o) => assert Apply(s, a) == SelectStep(s, token, o);
      case Refresh(now, k, rows) => RecomputeKeepsEvents(s.t, k, rows, now);
      case Recheck(token, rows) =>
        if AtStage(s, token, a) { RecomputeKeepsEvents(s.t, s.flights[token].key, rows, s.flights[token].now); }
      case _ =>
    }
  }

  lemma RecomputeKeepsEvents(t: Tables, k: Key, rows: seq<Offer>, now: int)
    ensures Recompute(t, k, rows, now).events == t.events
  {}

  lemma RecordingKeepsCorrection(s: Lane, a: Action, e: (Key, nat))
    requires CorrectionOk(s, e) && (a.Rotate? || a.Batch?) && Enabled(s, a)
    ensures CorrectionOk(Apply(s, a), e)
  {
    assert Apply(s, a).box.intents.Keys == s.box.intents.Keys;
  }

  lemma MarkKeepsCorrection(s: Lane, a: Action, e: (Key, nat))
    requires CorrectionOk(s, e) && a.CorrectionMark? && Enabled(s, a)
    ensures CorrectionOk(Apply(s, a), e)
  {
    assert Apply(s, a).t.events.Keys == s.t.events.Keys;
  }

  lemma StepKeepsCorrection(s: Lane, a: Action, e: (Key, nat))
    requires CorrectionOk(s, e) && Enabled(s, a)
    ensures CorrectionOk(Apply(s, a), e)
  {
    match a {
      case Mail(m) => MailKeepsCorrection(s.box, m, e);
      case Rotate(_) => RecordingKeepsCorrection(s, a, e);
      case Batch(_) => RecordingKeepsCorrection(s, a, e);
      case CorrectionMark(_) => MarkKeepsCorrection(s, a, e);
      case Reprice(_, _, _, _) =>
      case CorrectionEnqueue(_, _) =>
      case _ => TablesOnly(s, a);
    }
  }

  lemma StepKeepsEvent(s: Lane, a: Action, e: (Key, nat))
    requires e in s.t.events
    ensures EventKept(s, Apply(s, a), e)
  {
    match a {
      case Mail(m) => MailKeepsCorrection(s.box, m, e);
      case Rotate(_) => RecordingKeepsEvent(s, a, e);
      case Batch(_) => RecordingKeepsEvent(s, a, e);
      case Reprice(now, x, jobs, errors) => RepriceKeepsEvent(s, x, now, jobs, errors, e);
      case CorrectionEnqueue(_, _) => assert Apply(s, a).t == s.t;
      case CorrectionMark(x) => MarkKeepsEvent(s, x, e);
      case _ => TablesOnly(s, a);
    }
  }

  lemma RecordingKeepsEvent(s: Lane, a: Action, e: (Key, nat))
    requires e in s.t.events && (a.Rotate? || a.Batch?)
    ensures EventKept(s, Apply(s, a), e)
  {
    assert Apply(s, a).t.events[e] == s.t.events[e];
  }

  lemma RepriceKeepsEvent(s: Lane, x: (Key, nat), now: int, jobs: nat, errors: nat, e: (Key, nat))
    requires e in s.t.events
    ensures EventKept(s, RepriceStep(s, x, now, jobs, errors), e)
  {
    RepriceKeepsIntents(s, x, now, jobs, errors);
    if Demoted(s.t, x) {
      var events := s.t.events[x := s.t.events[x].(reprice := RepriceOutcome(jobs, errors))];
      assert RepriceStep(s, x, now, jobs, errors).t.events == events;
      assert events[e] == s.t.events[e] || events[e] == s.t.events[e].(reprice := RepriceOutcome(jobs, errors));
    }
  }

  lemma RepriceKeepsIntents(s: Lane, x: (Key, nat), now: int, jobs: nat, errors: nat)
    ensures s.box.intents.Keys <= RepriceStep(s, x, now, jobs, errors).box.intents.Keys
  {}

  lemma MarkKeepsEvent(s: Lane, x: (Key, nat), e: (Key, nat))
    requires e in s.t.events
    ensures EventKept(s, CorrectionMarkStep(s, x), e)
  {
    if Demoted(s.t, x) {
      var marked := if s.t.events[x].hadVisible then CorrectionEnqueued else CorrectionNotRequired;
      var events := s.t.events[x := s.t.events[x].(correction := marked)];
      assert CorrectionMarkStep(s, x).t.events == events;
      assert events[e] == s.t.events[e] || events[e] == s.t.events[e].(correction := marked);
    }
  }

  lemma {:induction false} RunKeepsEvent(s: Lane, acts: seq<Action>, e: (Key, nat))
    requires Legal(s, acts) && e in s.t.events && CorrectionOk(s, e)
    ensures EventKept(s, Run(s, acts), e) && CorrectionOk(Run(s, acts), e)
    decreases |acts|
  {
    if acts != [] {
      StepKeepsEvent(s, acts[0], e);
      StepKeepsCorrection(s, acts[0], e);
      RunKeepsEvent(Apply(s, acts[0]), acts[1..], e);
    }
  }

  lemma {:induction false} RunKeepsCorrections(s: Lane, acts: seq<Action>)
    requires CorrectionsOk(s) && Legal(s, acts)
    ensures CorrectionsOk(Run(s, acts))
    decreases |acts|
  {
    if acts != [] {
      forall e ensures CorrectionOk(Apply(s, acts[0]), e) { StepKeepsCorrection(s, acts[0], e); }
      RunKeepsCorrections(Apply(s, acts[0]), acts[1..]);
    }
  }

  lemma ReachableCorrectionsOk(s: Lane)
    requires Reachable(s)
    ensures CorrectionsOk(s)
  {
    var constraints, acts :| ReachedBy(s, constraints, acts);
    RunKeepsCorrections(Start(constraints), acts);
  }

  // ----- corrections, by the event on record -----

  predicate Settled(s: Lane, e: (Key, nat)) { e in s.t.events && !s.t.events[e].correction.CorrectionPending? }

  /**
    Exactly one correction, for every event of every reachable state, however often finishing it was cut
    short and resumed: once it is settled, its correction intent exists if and only if it says that a DEAL
    was visible; before that the intent never exists without such an event. (Intents are keyed by id, so
    there is never a second one.)
  */
  lemma CorrectedIffRecorded(s: Lane, e: (Key, nat))
    requires Reachable(s)
    ensures O.Correction(e.0, e.1) in s.box.intents ==> e in s.t.events && s.t.events[e].hadVisible
    ensures Settled(s, e) ==> (O.Correction(e.0, e.1) in s.box.intents <==> s.t.events[e].hadVisible)
  {
    ReachableCorrectionsOk(s);
    assert CorrectionOk(s, e);
  }

  /** A quiet lane has settled the correction of every event. */
  lemma QuietMeansSettled(s: Lane, now: int, e: (Key, nat))
    requires Chosen(s.t, now, Quiet) && e in s.t.events
    ensures Settled(s, e) && !s.t.events[e].reprice.RepricePending?
  {
    assert e !in Pending(s.t);
  }

  // ----- from the count of a demotion to its batch -----

  /** A call counts at s, the steps `mid` happen, and its batch runs on the flight the count left. */
  ghost predicate CountThenBatch(s: Lane, token: nat, mid: seq<Action>) {
    && Enabled(s, Count(token)) && Legal(Apply(s, Count(token)), mid)
    && var b := AtBatch(s, token, mid);
       Enabled(b, Batch(token)) && b.flights[token] == Apply(s, Count(token)).flights[token]
  }

  function AtBatch(s: Lane, token: nat, mid: seq<Action>): Lane { Run(Apply(s, Count(token)), mid) }

  function AfterBatch(s: Lane, token: nat, mid: seq<Action>): Lane { Apply(AtBatch(s, token, mid), Batch(token)) }

  function EventOf(s: Lane, token: nat): (Key, nat)
    requires token in s.flights
  {
    (s.flights[token].key, s.flights[token].offer)
  }

  predicate VisibleTo(s: Lane, token: nat)
    requires token in s.flights
  {
    Visible(s.box, ItineraryOf(s.flights[token].key))
  }

  /** What the event says after the batch: the batch inserts or ignores, so the first recorder decides. */
  predicate OnRecord(s: Lane, token: nat, mid: seq<Action>)
    requires token in s.flights
  {
    var b, e := AtBatch(s, token, mid), EventOf(s, token);
    if e in b.t.events then b.t.events[e].hadVisible else VisibleTo(s, token)
  }

  lemma ReachableAtBatch(s: Lane, token: nat, mid: seq<Action>)
    requires Reachable(s) && CountThenBatch(s, token, mid)
    ensures Reachable(AtBatch(s, token, mid)) && Reachable(AfterBatch(s, token, mid))
  {
    LaneStep(s, [], Count(token));
    ReachableRun(s, [] + [Count(token)]);
    ReachableRun(Apply(s, Count(token)), mid);
    LaneStep(AtBatch(s, token, mid), [], Batch(token));
    ReachableRun(AtBatch(s, token, mid), [] + [Batch(token)]);
  }

  /** The batch demotes; its event is the one on record, or else a new one that says what the count saw. */
  lemma BatchDemotes(s: Lane, token: nat, mid: seq<Action>)
    requires Reachable(s) && CountThenBatch(s, token, mid)
    ensures var b := AtBatch(s, token, mid); var u := AfterBatch(s, token, mid); var e := EventOf(s, token);
            && u.t.results[e.0].state.Probable? && SupportsOf(u.t, e.0) == map[]
            && e in u.t.events && u.t.events[e].hadVisible == OnRecord(s, token, mid)
            && (e in b.t.events ==> u.t.events[e] == b.t.events[e])
            && (e !in b.t.events ==>
                  && Records(u.t, s.flights[token], V.Probable, VisibleTo(s, token))
                  && u.t.events[e].correction.CorrectionPending? && u.t.events[e].reprice.RepricePending?
                  && O.Correction(e.0, e.1) !in u.box.intents)
  {
    ReachableAtBatch(s, token, mid);
    var b := AtBatch(s, token, mid);
    ReachableLaneOk(b);
    assert FlightOk(b.t, b.flights[token]);
    CorrectedIffRecorded(b, EventOf(s, token));
    assert AfterBatch(s, token, mid).box.intents.Keys == b.box.intents.Keys;
  }

  /**
    After any batch, in every later state: the event says for good what it said after the batch, and once
    settled the correction exists if and only if that is that a DEAL was visible.
  */
  lemma CorrectedAfterBatch(s: Lane, token: nat, mid: seq<Action>, after: seq<Action>)
    requires Reachable(s) && CountThenBatch(s, token, mid) && Legal(AfterBatch(s, token, mid), after)
    ensures var u := Run(AfterBatch(s, token, mid), after); var e := EventOf(s, token);
            && e in u.t.events && u.t.events[e].hadVisible == OnRecord(s, token, mid)
            && (O.Correction(e.0, e.1) in u.box.intents ==> OnRecord(s, token, mid))
            && (Settled(u, e) ==> (O.Correction(e.0, e.1) in u.box.intents <==> OnRecord(s, token, mid)))
  {
    BatchDemotes(s, token, mid);
    ReachableAtBatch(s, token, mid);
    var u := AfterBatch(s, token, mid);
    ReachableCorrectionsOk(u);
    assert CorrectionOk(u, EventOf(s, token));
    RunKeepsEvent(u, after, EventOf(s, token));
    ReachableRun(u, after);
    CorrectedIffRecorded(Run(u, after), EventOf(s, token));
  }

  /** Delivered, and no correction although the event is settled. */
  ghost predicate Uncorrected(s: Lane, after: seq<Action>, e: (Key, nat), id: O.IntentId) {
    DeliveredAfter(s, after, id) && Settled(Run(s, after), e) && O.Correction(e.0, e.1) !in Run(s, after).box.intents
  }

  /** Sendable or unannounced at the count, and leased before the batch. */
  ghost predicate LeasedInBetween(s: Lane, b: Lane, id: O.IntentId) {
    Seen(b.box, id) && !Seen(s.box, id) && (id in s.box.intents ==> O.CanStillSend(s.box, id))
  }

  /**
    When the correction of a stale DEAL is lost. If another call recorded the event first: that record says
    nothing was visible, and by the batch the DEAL is being sent, delivered or held by an interrupted
    projection, whatever this call counted. If not: this call counted nothing, and the DEAL was leased since
    or held.
  */
  ghost predicate Lost(s: Lane, token: nat, mid: seq<Action>, id: O.IntentId)
    requires token in s.flights
  {
    var b, e := AtBatch(s, token, mid), EventOf(s, token);
    if e in b.t.events then !b.t.events[e].hadVisible && (InFlight(b.box, id) || Seen(b.box, id))
    else !VisibleTo(s, token) && (InFlight(b.box, id) || LeasedInBetween(s, b, id))
  }

  /** A stale DEAL can go out uncorrected after a demotion exactly then. */
  lemma StaleDealUncorrectedIff(s: Lane, token: nat, mid: seq<Action>, id: O.IntentId)
    requires Reachable(s) && CountThenBatch(s, token, mid)
    requires id in OlderDeals(AtBatch(s, token, mid), Batch(token))
    ensures (exists after :: Uncorrected(AfterBatch(s, token, mid), after, EventOf(s, token), id))
            <==> Lost(s, token, mid, id)
  {
    var b, u, e := AtBatch(s, token, mid), AfterBatch(s, token, mid), EventOf(s, token);
    ReachableAtBatch(s, token, mid);
    StaleDealIff(b, Batch(token), id);
    if after :| Uncorrected(u, after, e, id) {
      CorrectedAfterBatch(s, token, mid, after);
      assert DeliveredAfter(u, after, id);
      if !VisibleTo(s, token) && Seen(b.box, id) { SeenWasSendable(s, token, mid, id); }
    } else if Lost(s, token, mid, id) {
      var deliver :| DeliveredAfter(u, deliver, id);
      var after := SettleThenDeliver(s, token, mid, id, deliver);
    }
  }

  /** With nothing visible at the count, a DEAL seen at the batch was sendable or unannounced. */
  lemma SeenWasSendable(s: Lane, token: nat, mid: seq<Action>, id: O.IntentId)
    requires Reachable(s) && CountThenBatch(s, token, mid) && !VisibleTo(s, token)
    requires id in OlderDeals(AtBatch(s, token, mid), Batch(token)) && Seen(AtBatch(s, token, mid).box, id)
    ensures LeasedInBetween(s, AtBatch(s, token, mid), id)
  {
    var c := Apply(s, Count(token));
    assert c.box == s.box;
    ReachableRowsHaveIntents(s);
    if id in s.box.intents {
      RunKeepsIntent(c, mid, id);
      assert id in DealsOf(s.box, ItineraryOf(s.flights[token].key));
      if !O.CanStillSend(s.box, id) { SilentLaneForever(c, mid, id); }
    }
  }

  ghost predicate RowsHaveIntents(b: O.Box) { forall id :: id in b.queue.rows ==> id in b.intents }

  lemma StepRowsHaveIntents(s: Lane, a: Action)
    requires RowsHaveIntents(s.box) && Enabled(s, a)
    ensures RowsHaveIntents(Apply(s, a).box)
  {
    match a {
      case Mail(m) => MailRowsHaveIntents(s.box, m);
      case Batch(_) =>
      case Reprice(_, _, _, _) =>
      case CorrectionEnqueue(_, _) =>
      case CorrectionMark(_) =>
      case Rotate(_) =>
      case _ => TablesOnly(s, a);
    }
  }

  lemma MailRowsHaveIntents(b: O.Box, m: O.Action)
    requires RowsHaveIntents(b) && O.Enabled(b, m)
    ensures RowsHaveIntents(O.Apply(b, m))
  {}

  lemma {:induction false} RunRowsHaveIntents(s: Lane, acts: seq<Action>)
    requires RowsHaveIntents(s.box) && Legal(s, acts)
    ensures RowsHaveIntents(Run(s, acts).box)
    decreases |acts|
  {
    if acts != [] {
      StepRowsHaveIntents(s, acts[0]);
      RunRowsHaveIntents(Apply(s, acts[0]), acts[1..]);
    }
  }

  lemma ReachableRowsHaveIntents(s: Lane)
    requires Reachable(s)
    ensures RowsHaveIntents(s.box)
  {
    var constraints, acts :| ReachedBy(s, constraints, acts);
    RunRowsHaveIntents(Start(constraints), acts);
  }

  /** Class and itinerary of an intent never change. */
  ghost predicate SameIntent(b: O.Box, c: O.Box, id: O.IntentId) {
    id in b.intents && id in c.intents && c.intents[id].cls == b.intents[id].cls
      && c.intents[id].itinerary == b.intents[id].itinerary
  }

  lemma MailKeepsIntent(b: O.Box, m: O.Action, id: O.IntentId)
    requires id in b.intents
    ensures SameIntent(b, O.Apply(b, m), id)
  {}

  lemma StepKeepsIntent(s: Lane, a: Action, id: O.IntentId)
    requires id in s.box.intents
    ensures SameIntent(s.box, Apply(s, a).box, id)
  {
    match a {
      case Mail(m) => MailKeepsIntent(s.box, m, id);
      case Batch(_) =>
      case Reprice(_, _, _, _) =>
      case CorrectionEnqueue(_, _) =>
      case CorrectionMark(_) =>
      case Rotate(_) =>
      case _ => TablesOnly(s, a);
    }
  }

  lemma {:induction false} RunKeepsIntent(s: Lane, acts: seq<Action>, id: O.IntentId)
    requires id in s.box.intents
    ensures SameIntent(s.box, Run(s, acts).box, id)
    decreases |acts|
  {
    if acts != [] {
      StepKeepsIntent(s, acts[0], id);
      RunKeepsIntent(Apply(s, acts[0]), acts[1..], id);
    }
  }

  /** Marking settles an event that saw nothing, and touches nothing else. */
  lemma MarkSettles(s: Lane, e: (Key, nat))
    requires Reachable(s) && e in s.t.events && !s.t.events[e].hadVisible
    ensures Enabled(s, CorrectionMark(e)) && Settled(CorrectionMarkStep(s, e), e)
    ensures CorrectionMarkStep(s, e).box == s.box
  {
    ReachableCorrectionsOk(s);
    assert CorrectionOk(s, e);
  }

  /** The event can be settled at once without a correction, and the DEAL delivered all the same. */
  lemma SettleThenDeliver(s: Lane, token: nat, mid: seq<Action>, id: O.IntentId, deliver: seq<Action>)
    returns (after: seq<Action>)
    requires Reachable(s) && CountThenBatch(s, token, mid) && !OnRecord(s, token, mid)
    requires id in OlderDeals(AtBatch(s, token, mid), Batch(token))
    requires DeliveredAfter(AfterBatch(s, token, mid), deliver, id)
    ensures Uncorrected(AfterBatch(s, token, mid), after, EventOf(s, token), id)
  {
    BatchDemotes(s, token, mid);
    ReachableAtBatch(s, token, mid);
    BatchKeepsIntent(AtBatch(s, token, mid), token, id);
    after := MarkThenDeliver(AfterBatch(s, token, mid), EventOf(s, token), id, deliver);
    CorrectedAfterBatch(s, token, mid, after);
  }

  lemma BatchKeepsIntent(b: Lane, token: nat, id: O.IntentId)
    requires Enabled(b, Batch(token)) && id in b.box.intents
    ensures id in Apply(b, Batch(token)).box.intents
  {
    StepKeepsIntent(b, Batch(token), id);
  }

  lemma MarkThenDeliver(u: Lane, e: (Key, nat), id: O.IntentId, deliver: seq<Action>) returns (after: seq<Action>)
    requires Reachable(u) && e in u.t.events && !u.t.events[e].hadVisible && id in u.box.intents
    requires DeliveredAfter(u, deliver, id)
    ensures DeliveredAfter(u, after, id) && Settled(Run(u, after), e)
  {
    var mark := CorrectionMark(e);
    MarkSettles(u, e);
    LaneStep(u, [], mark);
    var v := CorrectionMarkStep(u, e);
    var mails := MailsDeliver(u, deliver, id);
    MailRun(v, mails);
    after := [mark] + Mails(mails);
    assert [] + [mark] == [mark];
    LaneAppend(u, [mark], Mails(mails));
  }

  /** Whatever run delivers it, steps of the outbox alone can. */
  lemma MailsDeliver(u: Lane, deliver: seq<Action>, id: O.IntentId) returns (mails: seq<O.Action>)
    requires Reachable(u) && id in u.box.intents && DeliveredAfter(u, deliver, id)
    ensures O.DeliveredBy(u.box, mails, id)
  {
    ReachableQueueOk(u);
    O.DeliverableIff(u.box, id);
    if !O.Delivered(u.box, id) && !O.CanStillSend(u.box, id) { SilentLaneForever(u, deliver, id); }
    mails :| O.DeliveredBy(u.box, mails, id);
  }

  /**
    No silent stale deal, otherwise: if an older DEAL is DELIVERED in a later state, and its correction was
    not lost in one of those two ways, then the event on record says it was visible, and once the lane is
    quiet the correction exists.
  */
  lemma DeliveredStaleDealIsCorrected(
    s: Lane, token: nat, mid: seq<Action>, after: seq<Action>, id: O.IntentId, later: int)
    requires Reachable(s) && CountThenBatch(s, token, mid)
    requires id in OlderDeals(AtBatch(s, token, mid), Batch(token)) && !Lost(s, token, mid, id)
    requires DeliveredAfter(AfterBatch(s, token, mid), after, id)
    requires Chosen(Run(AfterBatch(s, token, mid), after).t, later, Quiet)
    ensures OnRecord(s, token, mid)
    ensures var e := EventOf(s, token);
            O.Correction(e.0, e.1) in Run(AfterBatch(s, token, mid), after).box.intents
  {
    var e, u := EventOf(s, token), AfterBatch(s, token, mid);
    StaleDealUncorrectedIff(s, token, mid, id);
    CorrectedAfterBatch(s, token, mid, after);
    QuietMeansSettled(Run(u, after), later, e);
    assert Uncorrected(u, after, e, id) <==> O.Correction(e.0, e.1) !in Run(u, after).box.intents;
  }

  // ----- what the count can miss -----

  /** A DEAL announced by the count is one at the batch. */
  lemma StaysOlderDeal(s: Lane, token: nat, mid: seq<Action>, id: O.IntentId)
    requires CountThenBatch(s, token, mid) && id in DealsOf(s.box, ItineraryOf(s.flights[token].key))
    ensures id in OlderDeals(AtBatch(s, token, mid), Batch(token))
  {
    RunKeepsIntent(Apply(s, Count(token)), mid, id);
  }

  ghost predicate Escapes(s: Lane, token: nat, id: O.IntentId, mid: seq<Action>, after: seq<Action>) {
    && CountThenBatch(s, token, mid) && id in OlderDeals(AtBatch(s, token, mid), Batch(token))
    && Uncorrected(AfterBatch(s, token, mid), after, EventOf(s, token), id)
  }

  /** The same, where the call's own batch records the event. */
  ghost predicate EscapesOwnCount(s: Lane, token: nat, id: O.IntentId, mid: seq<Action>, after: seq<Action>) {
    Escapes(s, token, id, mid, after) && EventOf(s, token) !in AtBatch(s, token, mid).t.events
  }

  /**
    Judged at the count: a DEAL announced by then can go out uncorrected after a demotion that records its
    own count, in some continuation, if and only if nothing was visible and that DEAL could still be sent.
  */
  lemma CountMissesIff(s: Lane, token: nat, id: O.IntentId)
    requires Reachable(s) && Enabled(s, Count(token)) && EventOf(s, token) !in s.t.events
    requires id in DealsOf(s.box, ItineraryOf(s.flights[token].key))
    ensures (exists mid, after :: EscapesOwnCount(s, token, id, mid, after))
            <==> !VisibleTo(s, token) && O.CanStillSend(s.box, id)
  {
    if mid, after :| EscapesOwnCount(s, token, id, mid, after) {
      StaleDealUncorrectedIff(s, token, mid, id);
      if !O.CanStillSend(s.box, id) {
        ReachableQueueOk(s);
        var c := Apply(s, Count(token));
        SilentLaneForever(c, mid, id);
        SilentIsNotInFlight(AtBatch(s, token, mid).box, id);
      }
    } else if !VisibleTo(s, token) && O.CanStillSend(s.box, id) {
      var mid, after := Escape(s, token, id);
    }
  }

  lemma SilentIsNotInFlight(b: O.Box, id: O.IntentId)
    requires id in b.intents && !O.CanStillSend(b, id)
    ensures !InFlight(b, id) && (Seen(b, id) ==> O.Delivered(b, id))
  {}

  /** Let the outbox deliver it between the count and the batch. */
  lemma Escape(s: Lane, token: nat, id: O.IntentId) returns (mid: seq<Action>, after: seq<Action>)
    requires Reachable(s) && Enabled(s, Count(token)) && EventOf(s, token) !in s.t.events
    requires id in DealsOf(s.box, ItineraryOf(s.flights[token].key))
    requires !VisibleTo(s, token) && O.CanStillSend(s.box, id)
    ensures EscapesOwnCount(s, token, id, mid, after)
  {
    ReachableQueueOk(s);
    O.DeliverableIff(s.box, id);
    var mails :| O.DeliveredBy(s.box, mails, id);
    mid := Mails(mails);
    MailsInBetween(s, token, mails);
    StaysOlderDeal(s, token, mid, id);
    StaleDealUncorrectedIff(s, token, mid, id);
    assert LeasedInBetween(s, AtBatch(s, token, mid), id);
    after :| Uncorrected(AfterBatch(s, token, mid), after, EventOf(s, token), id);
  }

  /** Steps of the outbox alone can fall between a count and its batch. */
  lemma MailsInBetween(s: Lane, token: nat, mails: seq<O.Action>)
    requires Reachable(s) && Enabled(s, Count(token)) && O.Legal(s.box, mails)
    ensures AtBatch(s, token, Mails(mails)) == CountStep(s, token).(box := O.Run(s.box, mails))
    ensures CountThenBatch(s, token, Mails(mails))
  {
    ReachableLaneOk(s);
    assert FlightOk(s.t, s.flights[token]);
    MailRun(CountStep(s, token), mails);
    BatchFollows(s, token, O.Run(s.box, mails));
  }

  lemma BatchFollows(s: Lane, token: nat, box: O.Box)
    requires token in s.flights && s.flights[token].stage.Answered? && s.flights[token].key in s.t.results
    ensures Enabled(CountStep(s, token).(box := box), Batch(token))
  {}
}
