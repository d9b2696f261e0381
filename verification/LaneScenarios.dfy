/** Concrete runs of the lane in which the code misses what it aims at, and two offers to run them on. */
module LaneScenarios {
  import opened Values
  import opened Sorting
  import V = Verification
  import Q = LeaseQueue
  import opened ProviderResults
  import O = Outbox
  import opened OfferLifecycle
  import opened CacheAgreement
  import opened SupportRevival
  import opened StaleDeals
  import opened FirstRecorder
  import opened LaneRuns

  // ----- one airline-direct offer, confirmed until time 10 -----

  const K0 := Key(0, 0)
  const E0 := (K0, 0 as nat)
  const FIRST := Offer(0, 0, V.Airline(0), 100.0, "", V.ExpiresAt(10), true, 0, 0, None)
  const SECOND := Offer(1, 0, V.Airline(1), 90.0, "", V.NoExpiry, true, 1, 0, None)

  /** Only the first offer is known and linked, nothing has expired, and the verdict is CONFIRMED. */
  ghost predicate HoldsFirst(t: Tables) {
    && t.offers == map[0 := FIRST] && t.links == map[(0, 0) := 0] && t.constraints == map[]
    && t.events == map[] && t.results.Keys == {K0} && t.results[K0].state.Confirmed?
    && t.supports == map[K0 := map[0 := Primary]]
  }

  /** The tables holding that offer, linked and not judged yet. */
  function LinkedFirst(): Tables {
    Tables(map[0 := FIRST], map[], map[(0, 0) := 0], map[], map[], map[], {K0}, 0, map[])
  }

  lemma LinkedFirstIsReached()
    ensures Legal(Start(map[]), [IngestOffer(FIRST), LinkOffers(K0, 0)])
    ensures Run(Start(map[]), [IngestOffer(FIRST), LinkOffers(K0, 0)]) == Lane(LinkedFirst(), O.EMPTY, map[], map[])
  {
    var t := Apply(Start(map[]), IngestOffer(FIRST)).t;
    FirstLinks(t);
    TwoSteps(Start(map[]), IngestOffer(FIRST), LinkOffers(K0, 0));
  }

  lemma FirstLinks(t: Tables)
    requires t.offers == map[0 := FIRST] && t.links == map[]
    ensures LinkJob(t, K0, 0) == t.(links := map[(0, 0) := 0], unsynced := t.unsynced + {K0})
  {
    assert JobOffers(t, 0, 0) == {0};
    assert (0, 0) !in t.links;
    assert LinkJob(t, K0, 0).links == map[(0, 0) := 0];
    assert (0, 0) in (map id | id in JobOffers(t, 0, 0) :: (0, id) := 0).Keys;
  }

  lemma FirstRows(t: Tables)
    requires t.offers == map[0 := FIRST] && t.links == map[(0, 0) := 0]
    ensures RowsOf(t, K0, [FIRST])
  {
    assert Linked(t, K0) == {0} by { assert (0, 0) in t.links; }
  }

  lemma FirstVerdict(now: int)
    ensures var a := Assess([FIRST], None, now);
            && (a.row.state.Confirmed? <==> now < 10)
            && a.supports == if now < 10 then map[0 := Primary] else map[]
  {
    var one := [FIRST];
    var evidence := EvidenceOf(one);
    assert one[1..] == [] && evidence[1..] == [];
    assert Eligible(one, None) == one;
    assert FreshOffers(one, now) == if now < 10 then one else [];
    assert V.LiveEvidence(evidence, now) == if now < 10 then evidence else [];
    assert AmongIds(one, [0]) == one;
  }

  predicate Idle(s: Lane) { s.searches == map[] && s.flights == map[] }

  lemma ConfirmedOnce() returns (acts: seq<Action>)
    ensures Legal(Start(map[]), acts)
    ensures var s := Run(Start(map[]), acts);
            s.box == O.EMPTY && Idle(s) && HoldsFirst(s.t)
  {
    LinkedFirstIsReached();
    acts := [IngestOffer(FIRST), LinkOffers(K0, 0)];
    FirstRows(LinkedFirst());
    FirstVerdict(0);
    LaneStep(Start(map[]), acts, Refresh(0, K0, [FIRST]));
    acts := acts + [Refresh(0, K0, [FIRST])];
  }

  /** At time 10 the lane selects that offer. */
  lemma FirstIsSelected(t: Tables)
    requires HoldsFirst(t)
    ensures Chosen(t, 10, Expire(K0, 0))
  {
    assert IsDue(t, K0, 0, 10);
    assert (K0, 0) in Due(t, 10);
    assert Pending(t) == {} && Due(t, 10) == {(K0, 0)};
    LexTotal(SupportOrder(SupportsOf(t, K0), 0), SupportOrder(SupportsOf(t, K0), 0));
    LexTotal(TriggerOrder(t, (K0, 0)), TriggerOrder(t, (K0, 0)));
    assert FirstDue(t, (K0, 0), 10);
  }

  /** A call has recomputed and answered PROBABLE; it counts next. */
  ghost predicate AnsweredFirst(s: Lane) {
    && s.t.offers == map[0 := FIRST] && s.t.links == map[(0, 0) := 0] && s.t.constraints == map[]
    && s.t.events == map[] && s.t.results.Keys == {K0} && s.t.results[K0].state.Probable?
    && s.t.supports == map[K0 := map[]]
    && 0 in s.flights && s.flights[0].key == K0 && s.flights[0].offer == 0 && s.flights[0].stage.Answered?
  }

  lemma AnswerFirst(s: Lane) returns (acts: seq<Action>)
    requires HoldsFirst(s.t) && Idle(s)
    ensures Legal(s, acts) && AnsweredFirst(Run(s, acts)) && Run(s, acts).box == s.box
  {
    FirstIsSelected(s.t);
    FirstRows(s.t);
    FirstIsDemoted(s.t);
    RecheckIsRun(s, 10, 0, K0, 0, [FIRST]);
    acts := SelectActions(10, 0, K0, 0) + [Recheck(0, [FIRST])];
  }

  lemma FirstIsDemoted(t: Tables)
    requires HoldsFirst(t)
    ensures var r := Recompute(t, K0, [FIRST], 10);
            && r.offers == t.offers && r.links == t.links && r.constraints == map[]
              && r.events == map[]
            && r.results.Keys == {K0} && r.results[K0].state.Probable? && r.supports == map[K0 := map[]]
  {
    FirstVerdict(10);
    assert ConstraintFor(t, 0) == None;
  }

  // ----- a call replies that it found nothing, while another result is due -----

  const K1 := Key(1, 0)

  /** The first offer supports two results, confirmed at 0 and at 1. */
  ghost predicate HoldsFirstTwice(t: Tables) {
    && t.offers == map[0 := FIRST] && t.links == map[(0, 0) := 0, (1, 0) := 0] && t.constraints == map[]
    && t.events == map[] && t.results.Keys == {K0, K1}
    && t.results[K0].state.Confirmed? && t.results[K0].updatedAt == 0
    && t.results[K1].state.Confirmed? && t.results[K1].updatedAt == 1
    && t.supports == map[K0 := map[0 := Primary], K1 := map[0 := Primary]]
  }

  lemma FirstRowsOfBoth(t: Tables)
    requires t.offers == map[0 := FIRST] && t.links == map[(0, 0) := 0, (1, 0) := 0]
    ensures RowsOf(t, K0, [FIRST]) && RowsOf(t, K1, [FIRST])
  {
    assert (0, 0) in t.links && (1, 0) in t.links;
    assert Linked(t, K0) == {0} && Linked(t, K1) == {0};
  }

  lemma FirstLinksTwice(t: Tables)
    requires t.offers == map[] && t.links == map[]
    ensures var u := LinkJob(LinkJob(Ingest(t, FIRST), K0, 0), K1, 0);
            && u.offers == map[0 := FIRST] && u.links == map[(0, 0) := 0, (1, 0) := 0]
            && u == t.(offers := u.offers, links := u.links, unsynced := u.unsynced)
  {
    var v := Ingest(t, FIRST);
    FirstLinks(v);
    assert JobOffers(LinkJob(v, K0, 0), 0, 0) == {0};
  }

  lemma FirstIsJudgedTwice(t: Tables)
    requires t.offers == map[0 := FIRST] && t.links == map[(0, 0) := 0, (1, 0) := 0] && t.constraints == map[]
    requires t.events == map[] && t.results == map[] && t.supports == map[]
    ensures RowsOf(t, K0, [FIRST]) && RowsOf(Recompute(t, K0, [FIRST], 0), K1, [FIRST])
    ensures HoldsFirstTwice(Recompute(Recompute(t, K0, [FIRST], 0), K1, [FIRST], 1))
  {
    var u := Recompute(t, K0, [FIRST], 0);
    FirstRowsOfBoth(t);
    FirstJudged(t, K0, 0);
    FirstRowsOfBoth(u);
    FirstJudged(u, K1, 1);
  }

  lemma FirstJudged(t: Tables, k: Key, now: int)
    requires t.constraints == map[] && now < 10
    ensures var r := Recompute(t, k, [FIRST], now);
            && r.results.Keys == t.results.Keys + {k}
            && (forall x :: x in t.results && x != k ==> r.results[x] == t.results[x])
            && r.results[k].state.Confirmed? && r.results[k].updatedAt == now
            && r.supports == t.supports[k := map[0 := Primary]]
            && r.offers == t.offers && r.links == t.links && r.constraints == t.constraints && r.events == t.events
  {
    FirstVerdict(now);
    assert ConstraintFor(t, k.queue) == None;
  }

  lemma ConfirmedTwice() returns (acts: seq<Action>)
    ensures Legal(Start(map[]), acts)
    ensures Idle(Run(Start(map[]), acts)) && HoldsFirstTwice(Run(Start(map[]), acts).t)
  {
    var start := Start(map[]);
    var a1, a2, a3 := IngestOffer(FIRST), LinkOffers(K0, 0), LinkOffers(K1, 0);
    TwoSteps(start, a1, a2);
    LaneStep(start, [a1, a2], a3);
    FirstLinksTwice(start.t);
    var t := LinkJob(LinkJob(Ingest(start.t, FIRST), K0, 0), K1, 0);
    FirstIsJudgedTwice(t);
    var u := start.(t := t);
    TwoSteps(u, Refresh(0, K0, [FIRST]), Refresh(1, K1, [FIRST]));
    LaneAppend(start, [a1, a2] + [a3], [Refresh(0, K0, [FIRST]), Refresh(1, K1, [FIRST])]);
    acts := [a1, a2] + [a3] + [Refresh(0, K0, [FIRST]), Refresh(1, K1, [FIRST])];
  }

  lemma FirstTriggers(t: Tables)
    requires HoldsFirstTwice(t)
    ensures Pending(t) == {} && FirstDueKey(t, K0, 10)
  {
    var p, q := (K0, 0 as nat), (K1, 0 as nat);
    assert IsDue(t, K0, 0, 10) && IsDue(t, K1, 0, 10);
    assert p in Due(t, 10) && q in Due(t, 10);
    assert Due(t, 10) == {p, q};
    LexTotal(TriggerOrder(t, p), TriggerOrder(t, p));
    assert TriggerOrder(t, p)[1..][0] == 0 && TriggerOrder(t, q)[1..][0] == 1;
    assert LexLeq(TriggerOrder(t, p), TriggerOrder(t, q));
    assert FirstDue(t, p, 10);
  }

  lemma OtherStaysDue(t: Tables)
    requires HoldsFirstTwice(t)
    ensures RowsOf(t, K0, [FIRST])
    ensures var r := Recompute(t, K0, [FIRST], 10); SupportsOf(r, K0) == map[] && (K1, 0) in Due(r, 10)
  {
    FirstRowsOfBoth(t);
    FirstVerdict(10);
    assert ConstraintFor(t, 0) == None;
    assert IsDue(Recompute(t, K0, [FIRST], 10), K1, 0, 10);
  }

  /**
    Concretely: a call finds K0 due; before it reads the supports of K0 a projection recomputes that result,
    and they are gone. The call replies that there was nothing to do, although K1 is due.
  */
  lemma NothingFoundWhileDue() returns (acts: seq<Action>, token: nat)
    ensures Legal(Start(map[]), acts)
    ensures var s := Run(Start(map[]), acts);
            && token in s.searches && s.searches[token] == Found(K0, 10)
            && (forall o :: !Enabled(s, Select(token, o))) && Due(s.t, 10) != {}
  {
    acts := ConfirmedTwice();
    token := 0;
    var rest := LateSupports(Run(Start(map[]), acts));
    LaneAppend(Start(map[]), acts, rest);
    acts := acts + rest;
  }

  lemma LateSupports(s: Lane) returns (acts: seq<Action>)
    requires Idle(s) && HoldsFirstTwice(s.t)
    ensures Legal(s, acts)
    ensures var u := Run(s, acts);
            && 0 in u.searches && u.searches[0] == Found(K0, 10)
            && (forall o :: !Enabled(u, Select(0, o))) && Due(u.t, 10) != {}
  {
    var find, refresh := [Begin(10, 0), Trigger(0, K0)], Refresh(10, K0, [FIRST]);
    FirstTriggers(s.t);
    TwoSteps(s, Begin(10, 0), Trigger(0, K0));
    OtherStaysDue(s.t);
    LaneStep(s, find, refresh);
    acts := find + [refresh];
    NothingSelectable(Run(s, acts));
  }

  lemma NothingSelectable(s: Lane)
    requires 0 in s.searches && s.searches[0] == Found(K0, 10) && SupportsOf(s.t, K0) == map[]
    ensures forall o :: !Enabled(s, Select(0, o))
  {}

  // ----- a batch overwrites a confirmation that came in between -----

  lemma SecondLinks(t: Tables)
    requires t.offers == map[0 := FIRST, 1 := SECOND] && t.links == map[(0, 0) := 0]
    ensures LinkJob(t, K0, 1).links == map[(0, 0) := 0, (0, 1) := 0]
  {
    assert JobOffers(t, 0, 1) == {1};
    assert (0, 1) !in t.links;
  }

  lemma BothRows(t: Tables)
    requires t.offers == map[0 := FIRST, 1 := SECOND] && t.links == map[(0, 0) := 0, (0, 1) := 0]
    ensures RowsOf(t, K0, [FIRST, SECOND])
  {
    assert (0, 0) in t.links && (0, 1) in t.links;
    assert Linked(t, K0) == {0, 1};
  }

  lemma BothVerdict()
    ensures Eligible([FIRST, SECOND], None) == [FIRST, SECOND]
    ensures V.Verify(EvidenceOf([FIRST, SECOND]), 10, V.TOLERANCE).state.Confirmed?
    ensures Assess([FIRST, SECOND], None, 10).row.state.Confirmed?
  {
    var both := [FIRST, SECOND];
    assert both[1..] == [SECOND] && [SECOND][1..] == [];
    assert Eligible([SECOND], None) == [SECOND];
    var evidence := EvidenceOf(both);
    assert evidence[1..][1..] == [];
    assert V.LiveEvidence(evidence[1..], 10) == [evidence[1]];
    assert V.LiveEvidence(evidence, 10) == [evidence[1]];
  }

  /** A job brings a second offer. */
  lemma SecondArrives(t: Tables)
    requires t.offers == map[0 := FIRST] && t.links == map[(0, 0) := 0]
    ensures var u := LinkJob(Ingest(t, SECOND), K0, 1);
            && u.offers == map[0 := FIRST, 1 := SECOND] && u.links == map[(0, 0) := 0, (0, 1) := 0]
            && u == t.(offers := u.offers, links := u.links, unsynced := u.unsynced)
  {
    SecondLinks(Ingest(t, SECOND));
  }

  /** Its projection confirms the result again. */
  lemma SecondConfirms(t: Tables)
    requires t.constraints == map[] && t.results.Keys == {K0} && t.supports == map[K0 := map[]]
    ensures var v := Recompute(t, K0, [FIRST, SECOND], 10);
            && v.results.Keys == {K0} && v.results[K0].state.Confirmed?
            && v.supports.Keys == {K0} && K0 !in v.unsynced
  {
    BothVerdict();
    assert ConstraintFor(t, 0) == None;
  }

  /** All of that while the call pauses. */
  lemma PromoteBetween(s: Lane) returns (acts: seq<Action>)
    requires AnsweredFirst(s)
    ensures Legal(s, acts)
    ensures var u := Run(s, acts);
            && u.box == s.box && u.flights == s.flights && u.t.events == map[] && u.t.constraints == map[]
            && u.t.offers == map[0 := FIRST, 1 := SECOND] && u.t.links == map[(0, 0) := 0, (0, 1) := 0]
            && u.t.results.Keys == {K0} && u.t.results[K0].state.Confirmed? && u.t.supports.Keys == {K0}
              && K0 !in u.t.unsynced
  {
    var a1, a2, a3 := IngestOffer(SECOND), LinkOffers(K0, 1), Refresh(10, K0, [FIRST, SECOND]);
    SecondArrives(s.t);
    TwoSteps(s, a1, a2);
    BothRows(Run(s, [a1, a2]).t);
    SecondConfirms(Run(s, [a1, a2]).t);
    LaneStep(s, [a1, a2], a3);
    acts := [a1, a2] + [a3];
  }

  /** What counting and batching leave of the tables, with nothing in the outbox. */
  ghost predicate Batched(u: Lane, b: Lane) {
    && b.t == u.t.(events := b.t.events, results := b.t.results, supports := b.t.supports)
    && b.t.events.Keys == {E0} && !b.t.events[E0].hadVisible && Demoted(b.t, E0)
    && b.t.supports == map[K0 := map[]] && b.t.results.Keys == {K0} && b.t.results[K0].state.Probable?
  }

  /** The paused call then counts and writes its batch. */
  lemma BatchIt(u: Lane) returns (acts: seq<Action>)
    requires u.box == O.EMPTY && u.t.events == map[] && u.t.results.Keys == {K0} && u.t.supports.Keys == {K0}
    requires 0 in u.flights && u.flights[0].key == K0 && u.flights[0].offer == 0 && u.flights[0].stage.Answered?
    ensures Legal(u, acts) && Batched(u, Run(u, acts))
  {
    assert !Visible(u.box, ItineraryOf(K0));
    TwoSteps(u, Count(0), Batch(0));
    acts := [Count(0), Batch(0)];
  }

  /** And its event is settled: the lane is quiet. */
  lemma SettleIt(u: Lane, b: Lane) returns (acts: seq<Action>)
    requires Batched(u, b)
    ensures Legal(b, acts)
    ensures var v := Run(b, acts);
            && Chosen(v.t, 10, Quiet)
            && v.t == u.t.(events := v.t.events, results := v.t.results, supports := v.t.supports)
            && v.t.results == b.t.results && v.t.supports == b.t.supports
            && v.t.events.Keys == {E0} && !IsPending(v.t.events[E0])
  {
    TwoSteps(b, Reprice(10, E0, 1, 0), CorrectionMark(E0));
    acts := [Reprice(10, E0, 1, 0), CorrectionMark(E0)];
    var v := Run(b, acts);
    assert v.t.events.Keys == {E0} && !IsPending(v.t.events[E0]);
    assert Pending(v.t) == {} && Due(v.t, 10) == {};
  }

  /**
    Concretely, agreement fails: the lane is quiet and the key synced, the stored verdict is PROBABLE, and a
    fresh verification over the linked offers says CONFIRMED.
  */
  lemma BatchOverwritesConfirmed() returns (acts: seq<Action>)
    ensures Legal(Start(map[]), acts)
    ensures var s := Run(Start(map[]), acts);
            && Chosen(s.t, 10, Quiet) && K0 in s.t.results && K0 !in s.t.unsynced
            && s.t.results[K0].state.Probable? && RowsOf(s.t, K0, [FIRST, SECOND]) && ConstraintFor(s.t, 0) == None
    ensures V.Verify(EvidenceOf(Eligible([FIRST, SECOND], None)), 10, V.TOLERANCE).state.Confirmed?
  {
    var start := Start(map[]);
    acts := ConfirmedOnce();
    var answer := AnswerFirst(Run(start, acts));
    LaneAppend(start, acts, answer);
    acts := acts + answer;
    var promote := PromoteBetween(Run(start, acts));
    LaneAppend(start, acts, promote);
    acts := acts + promote;
    var u := Run(start, acts);
    var batch := BatchIt(u);
    LaneAppend(start, acts, batch);
    acts := acts + batch;
    var settle := SettleIt(u, Run(start, acts));
    LaneAppend(start, acts, settle);
    acts := acts + settle;
    BothRows(Run(start, acts).t);
    BothVerdict();
  }

  /** The other way a PROBABLE lags: a key was judged without offers, then linked to one, and the projection crashed. */
  lemma CrashedProjectionLags() returns (acts: seq<Action>)
    ensures Legal(Start(map[]), acts)
    ensures var s := Run(Start(map[]), acts);
            && Chosen(s.t, 0, Quiet) && K0 in s.t.results && K0 in s.t.unsynced
            && s.t.results[K0].state.Probable? && RowsOf(s.t, K0, [FIRST]) && ConstraintFor(s.t, 0) == None
    ensures V.Verify(EvidenceOf(Eligible([FIRST], None)), 0, V.TOLERANCE).state.Confirmed?
  {
    var start := Start(map[]);
    var a1, a2, a3 := Refresh(0, K0, []), IngestOffer(FIRST), LinkOffers(K0, 0);
    JudgedEmpty();
    TwoSteps(start, a1, a2);
    LaneStep(start, [a1, a2], a3);
    acts := [a1, a2] + [a3];
    var s := Run(start, acts);
    assert Pending(s.t) == {} && Due(s.t, 0) == {};
    FirstRows(s.t);
    FirstConfirms();
  }

  /** Judged without offers, then linked to one. */
  lemma JudgedEmpty()
    ensures RowsOf(Start(map[]).t, K0, [])
    ensures var t := LinkJob(Ingest(Recompute(Start(map[]).t, K0, [], 0), FIRST), K0, 0);
            && t.offers == map[0 := FIRST] && t.links == map[(0, 0) := 0] && t.constraints == map[]
            && t.events == map[] && K0 in t.results && t.results[K0].state.Probable? && t.supports == map[K0 := map[]]
            && K0 in t.unsynced
  {
    assert Linked(Start(map[]).t, K0) == {};
    FirstLinks(Ingest(Recompute(Start(map[]).t, K0, [], 0), FIRST));
  }

  lemma FirstConfirms()
    ensures V.Verify(EvidenceOf(Eligible([FIRST], None)), 0, V.TOLERANCE).state.Confirmed?
  {
    FirstVerdict(0);
    assert [FIRST][1..] == [];
    assert Eligible([FIRST], None) == [FIRST];
  }

  // ----- a stale DEAL goes out without a correction -----

  /** A DEAL of the key is announced at time 0, and a projection has read it. */
  lemma ProjectionReads() returns (acts: seq<Action>)
    ensures Legal(Start(map[]), acts)
    ensures var s := Run(Start(map[]), acts);
            && HoldsFirst(s.t) && Idle(s)
            && s.box.intents == map[O.Business(0) := O.Intent(O.Direct(K0), O.Deal, false, 0)]
            && s.box.queue.rows == map[] && s.box.batches == map[0 := {O.Business(0)}]
  {
    var id := O.Business(0);
    acts := ConfirmedOnce();
    var s := Run(Start(map[]), acts);
    var announce, read := Mail(O.Announce(0, 0, O.Direct(K0), O.Deal)), Mail(O.BatchRead(0, 0, 1, {id}));
    var b := Apply(s, announce).box;
    assert O.Unprojected(b) == map[id := 0];
    assert Q.Oldest(O.Unprojected(b), 1, {id});
    TwoSteps(s, announce, read);
    LaneAppend(Start(map[]), acts, [announce, read]);
    acts := acts + [announce, read];
  }

  /**
    Concretely: a projection has read a DEAL when the expiry demotes its itinerary, and inserts it after. Nothing
    was visible, so no correction is sent, and yet the DEAL is delivered.
  */
  lemma InFlightDealEscapes() returns (before: seq<Action>, mid: seq<Action>, after: seq<Action>)
    ensures Legal(Start(map[]), before)
    ensures var s := Run(Start(map[]), before);
            0 in s.flights && EscapesOwnCount(s, 0, O.Business(0), mid, after)
              && InFlight(AtBatch(s, 0, mid).box, O.Business(0))
  {
    var id := O.Business(0);
    before := ProjectionReads();
    var answer := AnswerFirst(Run(Start(map[]), before));
    LaneAppend(Start(map[]), before, answer);
    before := before + answer;
    var s := Run(Start(map[]), before);
    assert ReachedBy(s, map[], before);
    mid := [];
    MailsInBetween(s, 0, []);
    assert 0 in s.box.batches && id in s.box.batches[0] && InFlight(s.box, id);
    assert !VisibleTo(s, 0);
    StaleDealUncorrectedIff(s, 0, mid, id);
    after :| Uncorrected(AfterBatch(s, 0, mid), after, EventOf(s, 0), id);
  }

  /** Concretely: a DEAL is queued at the count, leased and delivered before the batch, and never corrected. */
  lemma LeasedDealEscapes() returns (before: seq<Action>, mid: seq<Action>, after: seq<Action>)
    ensures Legal(Start(map[]), before)
    ensures var s := Run(Start(map[]), before);
            && 0 in s.flights && O.Business(0) in s.box.queue.rows && s.box.queue.rows[O.Business(0)].state == Q.Pending
            && EscapesOwnCount(s, 0, O.Business(0), mid, after) && !InFlight(AtBatch(s, 0, mid).box, O.Business(0))
  {
    var id := O.Business(0);
    before := ProjectionReads();
    var insert := Mail(O.BatchInsert(0, 0, true));
    LaneStep(Start(map[]), before, insert);
    before := before + [insert];
    var answer := AnswerFirst(Run(Start(map[]), before));
    LaneAppend(Start(map[]), before, answer);
    before := before + answer;
    var s := Run(Start(map[]), before);
    assert ReachedBy(s, map[], before);
    assert !VisibleTo(s, 0);
    mid, after := EscapeLeased(s, id);
  }

  lemma EscapeLeased(s: Lane, id: O.IntentId) returns (mid: seq<Action>, after: seq<Action>)
    requires Reachable(s) && 0 in s.flights && s.flights[0].stage.Answered? && EventOf(s, 0) !in s.t.events
    requires id in DealsOf(s.box, ItineraryOf(s.flights[0].key)) && !VisibleTo(s, 0)
    requires id in s.box.queue.rows && O.CanStillSend(s.box, id)
    ensures EscapesOwnCount(s, 0, id, mid, after) && !InFlight(AtBatch(s, 0, mid).box, id)
  {
    mid, after := Escape(s, 0, id);
    RowsStay(Apply(s, Count(0)), mid, id);
  }

  lemma RowStays(s: Lane, a: Action, id: O.IntentId)
    requires Enabled(s, a) && id in s.box.queue.rows
    ensures id in Apply(s, a).box.queue.rows
  {
    match a {
      case Mail(m) =>
        O.QueueSimulates(s.box, m);
        Q.ApplyChanges(s.box.queue, Q.Notifications, O.QueueAction(s.box, m), id);
      case _ =>
    }
  }

  lemma {:induction false} RowsStay(s: Lane, acts: seq<Action>, id: O.IntentId)
    requires Legal(s, acts) && id in s.box.queue.rows
    ensures id in Run(s, acts).box.queue.rows
    decreases |acts|
  {
    if acts != [] {
      RowStays(s, acts[0], id);
      RowsStay(Apply(s, acts[0]), acts[1..], id);
    }
  }

  // ----- a recomputation at an earlier time revives an expired support -----

  /** The first offer was demoted at 10, its event is settled, and nothing else is known. */
  ghost predicate DemotedFirst(t: Tables) {
    && t.offers == map[0 := FIRST] && t.links == map[(0, 0) := 0] && t.constraints == map[]
    && t.events.Keys == {E0} && !IsPending(t.events[E0]) && t.results.Keys == {K0} && t.supports == map[K0 := map[]]
  }

  lemma DemotedOnce() returns (acts: seq<Action>)
    ensures Legal(Start(map[]), acts) && DemotedFirst(Run(Start(map[]), acts).t)
  {
    acts := ConfirmedOnce();
    var answer := AnswerFirst(Run(Start(map[]), acts));
    LaneAppend(Start(map[]), acts, answer);
    acts := acts + answer;
    var u := Run(Start(map[]), acts);
    var batch := BatchIt(u);
    LaneAppend(Start(map[]), acts, batch);
    acts := acts + batch;
    var b := Run(Start(map[]), acts);
    var settle := SettleIt(u, b);
    LaneAppend(Start(map[]), acts, settle);
    acts := acts + settle;
  }

  lemma QuietForever(t: Tables, now: int)
    requires t.events.Keys == {E0} && !IsPending(t.events[E0])
    requires forall k :: SupportsOf(t, k).Keys <= if k == K0 then {0} else {}
    ensures Chosen(t, now, Quiet)
  {
    assert Pending(t) == {};
    forall k, o: nat ensures !IsDue(t, k, o, now) { assert IsDue(t, k, o, now) ==> (k, o) == E0; }
    assert Due(t, now) == {};
  }

  lemma FirstIsRevived(t: Tables)
    requires DemotedFirst(t)
    ensures var r := Recompute(t, K0, [FIRST], 9);
            && r.offers == t.offers && r.links == t.links && r.constraints == map[] && r.events == t.events
            && r.results.Keys == {K0} && r.results[K0].state.Confirmed? && r.supports == map[K0 := map[0 := Primary]]
            && K0 !in r.unsynced && K0 in r.answers && r.answers[K0].state.Confirmed?
  {
    FirstVerdict(9);
    assert ConstraintFor(t, 0) == None;
  }

  /**
    Concretely, a stored CONFIRMED is wrong: a projection that fixed its time at 9 recomputes after the offer
    was demoted at 10. At every later time the lane is quiet, the key is synced and its last answer not
    overwritten, and a fresh verification over the linked offers says PROBABLE.
  */
  lemma ConfirmedRevived() returns (acts: seq<Action>)
    ensures Legal(Start(map[]), acts)
    ensures var s := Run(Start(map[]), acts);
            && K0 in s.t.results && s.t.results[K0].state.Confirmed? && K0 !in s.t.unsynced && !Overwritten(s.t, K0)
            && RowsOf(s.t, K0, [FIRST]) && ConstraintFor(s.t, 0) == None
            && forall now :: now >= 10 ==> Chosen(s.t, now, Quiet) && RetiredSupport(s.t, K0, now)
    ensures forall now :: now >= 10 ==>
              V.Verify(EvidenceOf(Eligible([FIRST], None)), now, V.TOLERANCE).state.Probable?
  {
    acts := DemotedOnce();
    var t := Run(Start(map[]), acts).t;
    FirstRows(t);
    FirstIsRevived(t);
    LaneStep(Start(map[]), acts, Refresh(9, K0, [FIRST]));
    acts := acts + [Refresh(9, K0, [FIRST])];
    var u := Run(Start(map[]), acts).t;
    FirstRows(u);
    forall now | now >= 10
      ensures Chosen(u, now, Quiet) && RetiredSupport(u, K0, now)
      ensures V.Verify(EvidenceOf(Eligible([FIRST], None)), now, V.TOLERANCE).state.Probable?
    {
      QuietForever(u, now);
      FirstVerdict(now);
      assert 0 in SupportsOf(u, K0) && (K0, 0) in u.events;
      assert Eligible([FIRST], None) == [FIRST] by { assert [FIRST][1..] == []; }
    }
  }

  /** A support that was revived, beside another offer. */
  lemma BothAreRevived(t: Tables)
    requires t.events.Keys == {E0} && t.constraints == map[]
    requires t.results.Keys == {K0} && t.supports == map[K0 := map[]]
    ensures var r := Recompute(t, K0, [FIRST, SECOND], 9);
            && r.offers == t.offers && r.links == t.links && r.constraints == map[] && r.events == t.events
            && r.results.Keys == {K0} && r.results[K0].state.Confirmed? && r.supports.Keys == {K0}
            && r.supports[K0].Keys == {0}
  {
    assert ConstraintFor(t, 0) == None;
    var both := [FIRST, SECOND];
    assert both[1..] == [SECOND] && [SECOND][1..] == [];
    assert Eligible([SECOND], None) == [SECOND] && Eligible(both, None) == both;
    var evidence := EvidenceOf(both);
    assert V.LiveEvidence(evidence, 9)[0] == evidence[0];
  }

  /**
    Concretely, the same can go well: another airline-direct offer sustains the result, although its only
    recorded support has expired after its event.
  */
  lemma RevivedButSustained() returns (acts: seq<Action>)
    ensures Legal(Start(map[]), acts)
    ensures var s := Run(Start(map[]), acts);
            && K0 in s.t.results && s.t.results[K0].state.Confirmed?
            && RowsOf(s.t, K0, [FIRST, SECOND]) && ConstraintFor(s.t, 0) == None
            && Chosen(s.t, 10, Quiet) && RetiredSupport(s.t, K0, 10)
    ensures V.Verify(EvidenceOf(Eligible([FIRST, SECOND], None)), 10, V.TOLERANCE).state.Confirmed?
  {
    acts := DemotedOnce();
    var both := SecondAfterAll(Run(Start(map[]), acts));
    LaneAppend(Start(map[]), acts, both);
    acts := acts + both;
    BothVerdict();
  }

  /** The second offer arrives, and the projection that fixed its time at 9 recomputes over both. */
  lemma SecondAfterAll(s: Lane) returns (acts: seq<Action>)
    requires DemotedFirst(s.t)
    ensures Legal(s, acts)
    ensures var t := Run(s, acts).t;
            && K0 in t.results && t.results[K0].state.Confirmed?
            && RowsOf(t, K0, [FIRST, SECOND]) && ConstraintFor(t, 0) == None
            && Chosen(t, 10, Quiet) && RetiredSupport(t, K0, 10)
  {
    var a1, a2, a3 := IngestOffer(SECOND), LinkOffers(K0, 1), Refresh(9, K0, [FIRST, SECOND]);
    SecondArrives(s.t);
    TwoSteps(s, a1, a2);
    var u := LinkJob(Ingest(s.t, SECOND), K0, 1);
    BothRows(u);
    LaneStep(s, [a1, a2], a3);
    acts := [a1, a2] + [a3];
    assert Run(s, acts).t == Recompute(u, K0, [FIRST, SECOND], 9);
    BothStayQuiet(u);
  }

  lemma BothStayQuiet(t: Tables)
    requires t.offers == map[0 := FIRST, 1 := SECOND] && t.links == map[(0, 0) := 0, (0, 1) := 0]
    requires t.constraints == map[] && t.results.Keys == {K0} && t.supports == map[K0 := map[]]
    requires t.events.Keys == {E0} && !IsPending(t.events[E0])
    ensures var v := Recompute(t, K0, [FIRST, SECOND], 9);
            && K0 in v.results && v.results[K0].state.Confirmed?
            && RowsOf(v, K0, [FIRST, SECOND]) && ConstraintFor(v, 0) == None
            && Chosen(v, 10, Quiet) && RetiredSupport(v, K0, 10)
  {
    BothAreRevived(t);
    var v := Recompute(t, K0, [FIRST, SECOND], 9);
    BothRows(v);
    QuietForever(v, 10);
    assert 0 in SupportsOf(v, K0) && (K0, 0) in v.events;
  }

  // ----- a rotation records the event first -----

  const LATER := Offer(1, 0, V.Airline(1), 90.0, "", V.ExpiresAt(12), true, 0, 0, None)

  /** Both offers are linked, and the first one supports a CONFIRMED. */
  ghost predicate HoldsTwo(t: Tables) {
    && t.offers == map[0 := FIRST, 1 := LATER] && t.links == map[(0, 0) := 0, (0, 1) := 0] && t.constraints == map[]
    && t.events == map[] && t.results.Keys == {K0} && t.results[K0].state.Confirmed?
    && t.supports == map[K0 := map[0 := Primary]]
  }

  lemma TwoArrive(t: Tables)
    requires t.offers == map[] && t.links == map[]
    ensures var u := LinkJob(Ingest(Ingest(t, FIRST), LATER), K0, 0);
            && u.offers == map[0 := FIRST, 1 := LATER] && u.links == map[(0, 0) := 0, (0, 1) := 0]
            && u == t.(offers := u.offers, links := u.links, unsynced := u.unsynced)
  {
    var v := Ingest(Ingest(t, FIRST), LATER);
    assert v.offers == map[0 := FIRST, 1 := LATER];
    assert JobOffers(v, 0, 0) == {0, 1};
  }

  lemma TwoRows(t: Tables)
    requires t.offers == map[0 := FIRST, 1 := LATER] && t.links == map[(0, 0) := 0, (0, 1) := 0]
    ensures RowsOf(t, K0, [FIRST, LATER])
  {
    assert (0, 0) in t.links && (0, 1) in t.links;
    assert Linked(t, K0) == {0, 1};
  }

  /** The first offer supports the result before 10, the other one from then on, and nothing from 12 on. */
  lemma TwoVerdict(now: int)
    ensures var a := Assess([FIRST, LATER], None, now);
            && (a.row.state.Confirmed? <==> now < 12)
            && (now < 10 ==> a.supports == map[0 := Primary]) && (now >= 12 ==> a.supports == map[])
  {
    var two, second := [FIRST, LATER], [LATER];
    assert two[1..] == second && second[1..] == [];
    assert Eligible(second, None) == second;
    assert Eligible(two, None) == [FIRST] + second == two;
    TwoLive(now);
    TwoFresh(now);
    assert AmongIds(second, [0]) == [] && AmongIds(two, [0]) == [FIRST];
  }

  lemma TwoLive(now: int)
    ensures var e := EvidenceOf([FIRST, LATER]);
            V.LiveEvidence(e, now) == if now < 10 then e else if now < 12 then [e[1]] else []
  {
    var e := EvidenceOf([FIRST, LATER]);
    assert e[1..] == [e[1]] && e[1..][1..] == [];
    assert V.LiveEvidence(e[1..], now) == if now < 12 then [e[1]] else [];
    assert [e[0]] + [e[1]] == e;
  }

  lemma TwoFresh(now: int)
    ensures FreshOffers([FIRST, LATER], now) == if now < 10 then [FIRST, LATER] else if now < 12 then [LATER] else []
  {
    var two, second := [FIRST, LATER], [LATER];
    assert two[1..] == second && second[1..] == [];
    assert FreshOffers(second, now) == if now < 12 then second else [];
  }

  lemma ConfirmedByTwo() returns (acts: seq<Action>)
    ensures Legal(Start(map[]), acts)
    ensures var s := Run(Start(map[]), acts); s.box == O.EMPTY && Idle(s) && HoldsTwo(s.t)
  {
    var start := Start(map[]);
    var a1, a2, a3, a4 := IngestOffer(FIRST), IngestOffer(LATER), LinkOffers(K0, 0), Refresh(0, K0, [FIRST, LATER]);
    TwoSteps(start, a1, a2);
    LaneStep(start, [a1, a2], a3);
    acts := [a1, a2] + [a3];
    TwoArrive(start.t);
    TwoAreJudged(LinkJob(Ingest(Ingest(start.t, FIRST), LATER), K0, 0));
    LaneStep(start, acts, a4);
    acts := acts + [a4];
  }

  lemma TwoAreJudged(t: Tables)
    requires t.offers == map[0 := FIRST, 1 := LATER] && t.links == map[(0, 0) := 0, (0, 1) := 0]
    requires t.constraints == map[] && t.events == map[] && t.results == map[] && t.supports == map[]
    ensures RowsOf(t, K0, [FIRST, LATER]) && HoldsTwo(Recompute(t, K0, [FIRST, LATER], 0))
  {
    TwoRows(t);
    TwoVerdict(0);
    assert ConstraintFor(t, 0) == None;
  }

  /** A DEAL of the itinerary is announced, queued and leased. */
  lemma DealIsSent(s: Lane) returns (acts: seq<Action>)
    requires s.box == O.EMPTY
    ensures Legal(s, acts)
    ensures var u := Run(s, acts);
            && u == s.(box := u.box) && O.Business(0) in DealsOf(u.box, ItineraryOf(K0))
            && O.Business(0) in u.box.queue.rows && u.box.queue.rows[O.Business(0)].state == Q.Leased
  {
    var mails := SendDeal();
    MailRun(s, mails);
    acts := Mails(mails);
  }

  lemma SendDeal() returns (mails: seq<O.Action>)
    ensures O.Legal(O.EMPTY, mails)
    ensures var b := O.Run(O.EMPTY, mails);
            O.Business(0) in DealsOf(b, ItineraryOf(K0)) && O.Business(0) in b.queue.rows
              && b.queue.rows[O.Business(0)].state == Q.Leased
  {
    var id := O.Business(0);
    var announce := O.Announce(0, 0, O.Direct(K0), O.Deal);
    var b1 := O.Apply(O.EMPTY, announce);
    var read := O.BatchRead(0, 0, 1, {id});
    assert O.Unprojected(b1) == map[id := 0];
    assert Q.Oldest(O.Unprojected(b1), 1, {id});
    O.TwoSteps(O.EMPTY, announce, read);
    var b2 := O.Apply(b1, read);
    var insert := O.BatchInsert(0, 0, true);
    var b3 := O.Apply(b2, insert);
    assert b3.queue.rows[id] == Q.FreshRow(Q.NewRow(false, 0));
    var lease := O.LeaseAll(b3, id, 0, 0);
    O.TwoSteps(b2, insert, lease);
    O.RunAppend(O.EMPTY, [announce, read], [insert, lease]);
    mails := [announce, read] + [insert, lease];
  }

  lemma TwoIsSelected(t: Tables, now: int)
    requires HoldsTwo(t) && now >= 10
    ensures Chosen(t, now, Expire(K0, 0))
  {
    assert IsDue(t, K0, 0, now);
    assert (K0, 0) in Due(t, now);
    assert Pending(t) == {} && Due(t, now) == {(K0, 0)};
    LexTotal(SupportOrder(SupportsOf(t, K0), 0), SupportOrder(SupportsOf(t, K0), 0));
    LexTotal(TriggerOrder(t, (K0, 0)), TriggerOrder(t, (K0, 0)));
    assert FirstDue(t, (K0, 0), now);
  }

  /** Two calls select the same expiry, at 10 and at 15. */
  lemma BothSelect(s: Lane) returns (acts: seq<Action>)
    requires HoldsTwo(s.t) && Idle(s)
    ensures Legal(s, acts)
    ensures var u := Run(s, acts);
            && u.t == s.t && u.box == s.box && u.searches == map[] && u.flights.Keys == {0, 1}
            && FlightAt(u.flights[0], 10) && FlightAt(u.flights[1], 15)
  {
    TwoIsSelected(s.t, 10);
    SelectIsRun(s, 10, 0, K0, 0);
    var u := Run(s, SelectActions(10, 0, K0, 0));
    TwoIsSelected(u.t, 15);
    SelectIsRun(u, 15, 1, K0, 0);
    LaneAppend(s, SelectActions(10, 0, K0, 0), SelectActions(15, 1, K0, 0));
    acts := SelectActions(10, 0, K0, 0) + SelectActions(15, 1, K0, 0);
  }

  predicate FlightAt(f: Flight, now: int) { f.key == K0 && f.offer == 0 && f.now == now && f.stage.Selected? }

  lemma TwoRecomputed(t: Tables, now: int)
    requires t.constraints == map[] && t.results.Keys == {K0} && t.supports.Keys == {K0}
    ensures var r := Recompute(t, K0, [FIRST, LATER], now);
            && r.offers == t.offers && r.links == t.links && r.constraints == map[] && r.events == t.events
            && r.results.Keys == {K0} && r.supports.Keys == {K0} && (r.results[K0].state.Confirmed? <==> now < 12)
  {
    TwoVerdict(now);
    assert ConstraintFor(t, 0) == None;
  }

  /** One of them recomputes. */
  lemma OneRechecks(s: Lane, token: nat, now: int)
    requires token in s.flights && FlightAt(s.flights[token], now)
    requires s.t.offers == map[0 := FIRST, 1 := LATER] && s.t.links == map[(0, 0) := 0, (0, 1) := 0]
    requires s.t.constraints == map[] && s.t.results.Keys == {K0} && s.t.supports.Keys == {K0}
    ensures Enabled(s, Recheck(token, [FIRST, LATER]))
    ensures var u := Apply(s, Recheck(token, [FIRST, LATER]));
            && u == s.(t := u.t, flights := s.flights[token := u.flights[token]])
            && u.t.offers == s.t.offers && u.t.links == s.t.links && u.t.constraints == map[]
            && u.t.events == s.t.events && u.t.results.Keys == {K0} && u.t.supports.Keys == {K0}
            && u.flights[token].key == K0 && u.flights[token].offer == 0
            && (now < 12 ==> u.flights[token].stage.Rotating?) && (now >= 12 ==> u.flights[token].stage.Answered?)
  {
    TwoRows(s.t);
    TwoRecomputed(s.t, now);
  }

  /** The earlier one rotates; the later one answers PROBABLE and counts next. */
  lemma BothRecheck(s: Lane) returns (acts: seq<Action>)
    requires HoldsTwo(s.t) && s.flights.Keys == {0, 1} && FlightAt(s.flights[0], 10) && FlightAt(s.flights[1], 15)
    ensures Legal(s, acts) && RotatesAlongside(Run(s, acts), 1, 0)
    ensures Run(s, acts).box == s.box && Run(s, acts).flights[1].key == K0
  {
    var first, second := Recheck(0, [FIRST, LATER]), Recheck(1, [FIRST, LATER]);
    OneRechecks(s, 0, 10);
    var u := Apply(s, first);
    assert u.flights[1] == s.flights[1];
    OneRechecks(u, 1, 15);
    TwoSteps(s, first, second);
    acts := [first, second];
    NextSteps(Apply(u, second));
  }

  lemma NextSteps(s: Lane)
    requires 0 in s.flights && s.flights[0].key == K0 && s.flights[0].offer == 0 && s.flights[0].stage.Rotating?
    requires 1 in s.flights && s.flights[1].key == K0 && s.flights[1].offer == 0 && s.flights[1].stage.Answered?
    requires E0 !in s.t.events
    ensures RotatesAlongside(s, 1, 0)
  {}

  /** Both calls have recomputed, and the DEAL is still being sent. */
  ghost predicate BothAnswered(s: Lane) {
    && RotatesAlongside(s, 1, 0) && s.flights[1].key == K0 && O.Business(0) in DealsOf(s.box, ItineraryOf(K0))
    && O.Business(0) in s.box.queue.rows && s.box.queue.rows[O.Business(0)].state == Q.Leased
  }

  lemma BothAnswer() returns (acts: seq<Action>)
    ensures Legal(Start(map[]), acts) && BothAnswered(Run(Start(map[]), acts))
  {
    acts := ConfirmedByTwo();
    var send := DealIsSent(Run(Start(map[]), acts));
    LaneAppend(Start(map[]), acts, send);
    acts := acts + send;
    var pick := BothSelect(Run(Start(map[]), acts));
    LaneAppend(Start(map[]), acts, pick);
    acts := acts + pick;
    var check := BothRecheck(Run(Start(map[]), acts));
    LaneAppend(Start(map[]), acts, check);
    acts := acts + check;
  }

  /**
    Concretely: a DEAL is being sent when a demotion counts, and the demotion sees it. But another call, that
    read its clock before the second offer expired, records the same expiry as a rotation first. The
    demotion's event is ignored; the DEAL is stale, and its correction is never sent.
  */
  lemma RotationRecordsFirst() returns (before: seq<Action>, mid: seq<Action>, after: seq<Action>)
    ensures Legal(Start(map[]), before)
    ensures var s := Run(Start(map[]), before);
            1 in s.flights && VisibleTo(s, 1) && Escapes(s, 1, O.Business(0), mid, after) && !OnRecord(s, 1, mid)
  {
    before := BothAnswer();
    mid, after := HideDealAfter(before);
  }

  lemma HideDealAfter(before: seq<Action>) returns (mid: seq<Action>, after: seq<Action>)
    requires Legal(Start(map[]), before) && BothAnswered(Run(Start(map[]), before))
    ensures var s := Run(Start(map[]), before);
            1 in s.flights && VisibleTo(s, 1) && Escapes(s, 1, O.Business(0), mid, after) && !OnRecord(s, 1, mid)
  {
    RunReaches(before);
    mid, after := HideDeal(Run(Start(map[]), before));
  }

  lemma RunReaches(acts: seq<Action>)
    requires Legal(Start(map[]), acts)
    ensures Reachable(Run(Start(map[]), acts))
  {
    assert ReachedBy(Run(Start(map[]), acts), map[], acts);
  }

  lemma HideDeal(s: Lane) returns (mid: seq<Action>, after: seq<Action>)
    requires Reachable(s) && BothAnswered(s)
    ensures VisibleTo(s, 1) && Escapes(s, 1, O.Business(0), mid, after) && !OnRecord(s, 1, mid)
  {
    var id := O.Business(0);
    assert Seen(s.box, id) && O.CanStillSend(s.box, id);
    RotationHidesIff(s, 1, 0, id);
    var mails, last :| O.Legal(s.box, mails) && Escapes(s, 1, id, [Rotate(0)] + Mails(mails), last);
    mid, after := [Rotate(0)] + Mails(mails), last;
    RotationInBetween(s, 1, 0, mails);
  }
}
