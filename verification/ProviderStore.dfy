/**
  The provider tables as the program updates them: ingesting offers, projecting finished jobs,
  recomputing verdicts and running the expiry lane. Each method is the specified step.
*/
module ProviderStore {
  import opened Values
  import opened Sorting
  import V = Verification
  import Promotion
  import opened ProviderResults
  import O = Outbox
  import Q = LeaseQueue
  import N = NotificationStore
  import opened OfferLifecycle
  import opened CacheAgreement
  import opened LaneProgress

  datatype IngestError = OfferInvalid | ProviderAccessNotReady | CarrierExcluded | StructureTooLarge | OfferIdConflict

  const MAX_STRUCTURE := 65536

  /** A search plan, as stored and as selected for one key. */
  datatype StoredPlan = StoredPlan(key: Key, provider: V.Provider, createdAt: int)

  datatype Plan = Plan(id: nat, provider: V.Provider, createdAt: int)

  /** How many of the plans get a job; the others fail to enqueue. */
  function Enqueued(plans: seq<Plan>, failing: set<nat>): (n: nat)
    ensures n <= |plans|
  {
    if plans == [] then 0
    else Enqueued(plans[..|plans| - 1], failing) + if plans[|plans| - 1].id in failing then 0 else 1
  }

  /** What is tried for an event: the best plans of its key, preferring the providers that supported it. */
  ghost predicate Tried(stored: map<nat, StoredPlan>, k: Key, supporting: set<V.Provider>, chosen: seq<Plan>) {
    exists plans :: PlansOf(stored, k, plans) && chosen == RepricePlans(plans, supporting)
  }

  ghost predicate PlansOf(stored: map<nat, StoredPlan>, k: Key, plans: seq<Plan>) {
    && (forall p :: p in plans <==> p.id in stored && stored[p.id].key == k && p == PlanOf(stored, p.id))
    && forall i, j :: 0 <= i < j < |plans| ==> plans[i].id != plans[j].id
  }

  function PlanOf(stored: map<nat, StoredPlan>, id: nat): Plan
    requires id in stored
  {
    Plan(id, stored[id].provider, stored[id].createdAt)
  }

  /** A key with a least value, as `ORDER BY ... LIMIT 1` selects it. */
  method LeastKey<T(==)>(order: map<T, seq<int>>) returns (x: T)
    requires order != map[]
    ensures x in order && forall y :: y in order ==> LexLeq(order[x], order[y])
  {
    x :| x in order;
    LexTotal(order[x], order[x]);
    var rest := order.Keys;
    while rest != {}
      invariant x in order && rest <= order.Keys
      invariant LexLeq(order[x], order[x])
      invariant forall y :: y in order.Keys - rest ==> LexLeq(order[x], order[y])
      decreases |rest|
    {
      var y :| y in rest;
      LexTotal(order[x], order[y]);
      if !LexLeq(order[x], order[y]) {
        forall z | z in order.Keys - rest ensures LexLeq(order[y], order[z]) {
          LexTransitive(order[y], order[x], order[z]);
        }
        LexTotal(order[y], order[y]);
        x := y;
      }
      rest := rest - {y};
    }
  }

  function PlanOrder(p: Plan, supporting: set<V.Provider>): seq<int> {
    [if p.provider in supporting then 0 else 1, p.createdAt, p.id]
  }

  /** The first n plans of a ranked list whose providers are new. */
  function FirstOfEach(ranked: seq<Plan>, seen: set<V.Provider>, n: nat): seq<Plan> {
    if ranked == [] || n == 0 then []
    else if ranked[0].provider in seen then FirstOfEach(ranked[1..], seen, n)
    else [ranked[0]] + FirstOfEach(ranked[1..], seen + {ranked[0].provider}, n - 1)
  }

  function Ranking(supporting: set<V.Provider>): Plan -> seq<int> { p => PlanOrder(p, supporting) }

  function RepricePlans(plans: seq<Plan>, supporting: set<V.Provider>): seq<Plan> {
    FirstOfEach(SortBy(Ranking(supporting), plans), {}, 2)
  }

  function Providers(plans: seq<Plan>): set<V.Provider> { set p | p in plans :: p.provider }

  lemma ProvidersSnoc(plans: seq<Plan>, p: Plan)
    ensures Providers(plans + [p]) == Providers(plans) + {p.provider}
  {}

  method ChooseRepricePlans(plans: seq<Plan>, supporting: set<V.Provider>) returns (chosen: seq<Plan>)
    ensures chosen == RepricePlans(plans, supporting)
  {
    var ranked := SortBy(Ranking(supporting), plans);
    chosen := [];
    assert ranked[0..] == ranked && Providers([]) == {};
    var i := 0;
    while i < |ranked| && |chosen| < 2
      invariant i <= |ranked| && |chosen| <= 2
      invariant chosen + FirstOfEach(ranked[i..], Providers(chosen), 2 - |chosen|) == RepricePlans(plans, supporting)
    {
      assert ranked[i..][1..] == ranked[i + 1..];
      if ranked[i].provider !in Providers(chosen) {
        ProvidersSnoc(chosen, ranked[i]);
        chosen := chosen + [ranked[i]];
      }
      i := i + 1;
    }
  }

  /** At most n plans of distinct new providers, each ahead of every plan of its own or of a left-out provider. */
  ghost predicate BestOf(key: Plan -> seq<int>, ranked: seq<Plan>, seen: set<V.Provider>, n: nat, r: seq<Plan>) {
    && |r| <= n && (forall i :: 0 <= i < |r| ==> r[i] in ranked && r[i].provider !in seen)
    && (forall i, j :: 0 <= i < j < |r| ==> r[i].provider != r[j].provider)
    && (|r| < n ==> forall p :: p in ranked ==> p.provider in seen || p.provider in Providers(r))
    && (forall i, p :: 0 <= i < |r| && p in ranked && AheadOf(r[i], p, seen, Providers(r)) ==>
      LexLeq(key(r[i]), key(p)))
  }

  predicate AheadOf(c: Plan, p: Plan, seen: set<V.Provider>, taken: set<V.Provider>) {
    p.provider == c.provider || (p.provider !in seen && p.provider !in taken)
  }

  lemma FirstIsBest(key: Plan -> seq<int>, ranked: seq<Plan>, seen: set<V.Provider>, n: nat, more: seq<Plan>)
    requires SortedBy(key, ranked) && ranked != [] && ranked[0].provider !in seen && n > 0
    requires BestOf(key, ranked[1..], seen + {ranked[0].provider}, n - 1, more)
    ensures BestOf(key, ranked, seen, n, [ranked[0]] + more)
  {
    var r := [ranked[0]] + more;
    assert ranked == [ranked[0]] + ranked[1..];
    assert Providers(r) == {ranked[0].provider} + Providers(more);
    forall i, p | 0 <= i < |r| && p in ranked && AheadOf(r[i], p, seen, Providers(r))
      ensures LexLeq(key(r[i]), key(p)) {
      if i == 0 { HeadIsLeast(key, ranked, p); } else { LaterIsBest(key, ranked, seen, n, more, i - 1, p); }
    }
  }

  lemma LaterIsBest(key: Plan -> seq<int>, ranked: seq<Plan>, seen: set<V.Provider>, n: nat, more: seq<Plan>, i: nat,
    p: Plan)
    requires ranked != [] && n > 0 && i < |more| && p in ranked
    requires BestOf(key, ranked[1..], seen + {ranked[0].provider}, n - 1, more)
    requires AheadOf(more[i], p, seen, {ranked[0].provider} + Providers(more))
    ensures LexLeq(key(more[i]), key(p))
  {
    assert ranked == [ranked[0]] + ranked[1..];
    assert more[i].provider in Providers(more);
    assert AheadOf(more[i], p, seen + {ranked[0].provider}, Providers(more));
  }

  lemma SkippedIsBest(key: Plan -> seq<int>, ranked: seq<Plan>, seen: set<V.Provider>, n: nat, r: seq<Plan>)
    requires ranked != [] && ranked[0].provider in seen && BestOf(key, ranked[1..], seen, n, r)
    ensures BestOf(key, ranked, seen, n, r)
  {
    assert ranked == [ranked[0]] + ranked[1..];
    forall i, p | 0 <= i < |r| && p in ranked && AheadOf(r[i], p, seen, Providers(r))
      ensures LexLeq(key(r[i]), key(p)) {
      assert r[i].provider !in seen && p != ranked[0];
    }
  }

  lemma {:induction false} FirstOfEachIsBest(key: Plan -> seq<int>, ranked: seq<Plan>, seen: set<V.Provider>, n: nat)
    requires SortedBy(key, ranked)
    ensures BestOf(key, ranked, seen, n, FirstOfEach(ranked, seen, n))
  {
    if ranked != [] && n > 0 {
      var rest := ranked[1..];
      TailSorted(key, ranked);
      assert ranked == [ranked[0]] + rest;
      if ranked[0].provider in seen {
        FirstOfEachIsBest(key, rest, seen, n);
        SkippedIsBest(key, ranked, seen, n, FirstOfEach(rest, seen, n));
      } else {
        FirstOfEachIsBest(key, rest, seen + {ranked[0].provider}, n - 1);
        FirstIsBest(key, ranked, seen, n, FirstOfEach(rest, seen + {ranked[0].provider}, n - 1));
      }
    }
  }

  /**
    At most two plans, of different providers, each the best ranked of its provider; a provider that
    is left out ranks behind both, and none is left out while there is room.
  */
  lemma RepricePlansAreBest(plans: seq<Plan>, supporting: set<V.Provider>)
    ensures var r := RepricePlans(plans, supporting);
            && |r| <= 2 && (forall i :: 0 <= i < |r| ==> r[i] in plans)
            && (|r| == 2 ==> r[0].provider != r[1].provider)
            && (|r| < 2 ==> forall p :: p in plans ==> p.provider in Providers(r))
            && (forall i, p :: 0 <= i < |r| && p in plans && AheadOf(r[i], p, {}, Providers(r))
                  ==> LexLeq(PlanOrder(r[i], supporting), PlanOrder(p, supporting)))
  {
    var order := Ranking(supporting);
    SortByCorrect(order, plans);
    SameMembers(SortBy(order, plans), plans);
    FirstOfEachIsBest(order, SortBy(order, plans), {}, 2);
  }

  /** The row of a verdict over the linked offers, and the ids of the offers that support it. */
  method AssessRows(linked: seq<Offer>, c: Option<Promotion.Constraint>, now: int)
    returns (row: ResultRow, supporting: seq<nat>)
    ensures Assess(linked, c, now) == Assessment(row, Roles(supporting, row.best))
  {
    row := ResultRow(V.Probable, Verdict(V.NoLiveConfirmation), None, 0, 0, now);
    supporting := [];
    assert Roles([], None) == map[];
    if linked == [] { return; }
    var eligible := Eligible(linked, c);
    if eligible == [] {
      var unverified := exists i :: 0 <= i < |linked| && Decision(linked[i], c).Unverified?;
      row := row.(reason := if unverified then ConstraintUnverified else ConstraintMismatch);
      return;
    }
    var verdict := V.VerifyMultiProvider(EvidenceOf(eligible), now, V.TOLERANCE);
    var current := FreshOffers(eligible, now);
    var pool := if verdict.state.Confirmed? && verdict.supports != [] then AmongIds(current, verdict.supports)
      else current;
    var best := if pool == [] then None else Some(Cheapest(pool).id);
    var providers := set o | o in current :: o.provider;
    row := ResultRow(verdict.state, Verdict(verdict.reason), best, |current|, |providers|, now);
    if verdict.state.Confirmed? { supporting := verdict.supports; }
    assert Roles([], best) == map[];
  }

  class Store {
    const mail: N.Store
    var offers: map<nat, Offer>
    var constraints: map<nat, Promotion.Constraint>
    var links: map<(nat, nat), nat>
    var results: map<Key, ResultRow>
    var supports: map<Key, map<nat, Role>>
    var events: map<(Key, nat), LifeEvent>
    var plans: map<nat, StoredPlan>
    // What no statement reads: links not judged yet, answers given, and the calls other invocations are in.
    ghost var unsynced: set<Key>
    ghost var recomputes: nat
    ghost var answers: map<Key, Answer>
    ghost var searches: map<nat, Search>
    ghost var flights: map<nat, Flight>

    ghost function T(): Tables
      reads this
    {
      Tables(offers, constraints, links, results, supports, events, unsynced, recomputes, answers)
    }

    ghost function Snapshot(): Lane
      reads this, mail
    {
      Lane(T(), mail.Snapshot(), searches, flights)
    }

    constructor (constraints: map<nat, Promotion.Constraint>, mail: N.Store)
      ensures T() == Start(constraints).t && searches == map[] && flights == map[] && this.mail == mail
    {
      this.mail := mail;
      this.constraints := constraints;
      offers, links, results, supports, events, plans := map[], map[], map[], map[], map[], map[];
      unsynced, recomputes, answers, searches, flights := {}, 0, map[], map[], map[];
    }

    /** A known id is accepted again only with the same content hash and query; it is never rewritten. */
    method IngestOfferSnapshot(o: Offer, accessReady: bool, lccExcluded: bool, structureLength: nat)
      returns (r: Result<bool, IngestError>)
      modifies this`offers
      ensures r.Ok? <==>
                && o.total >= 0.0 && accessReady && !lccExcluded && structureLength <= MAX_STRUCTURE
                && (old(o.id in offers) ==>
                      old(offers)[o.id].hash == o.hash && old(offers)[o.id].fingerprint == o.fingerprint)
      ensures r.Err? ==> unchanged(this)
      ensures r.Ok? ==> T() == Ingest(old(T()), o) && r.value == old(o.id in offers)
    {
      if o.total < 0.0 { return Err(OfferInvalid); }
      if !accessReady { return Err(ProviderAccessNotReady); }
      if lccExcluded { return Err(CarrierExcluded); }
      if structureLength > MAX_STRUCTURE { return Err(StructureTooLarge); }
      if o.id in offers {
        if offers[o.id].hash != o.hash || offers[o.id].fingerprint != o.fingerprint { return Err(OfferIdConflict); }
        return Ok(true);
      }
      offers := offers[o.id := o];
      r := Ok(false);
    }

    /** The join of links and live offers, row by row. */
    method SelectLinked(k: Key) returns (rows: seq<Offer>)
      requires KeyedById(T())
      ensures RowsOf(T(), k, rows)
    {
      rows := [];
      var rest := links.Keys;
      ghost var done: set<nat> := {};
      while rest != {}
        invariant rest <= links.Keys
        invariant forall o :: o in rows <==> o.id in done && o.id in offers && o == offers[o.id]
        invariant forall i, j :: 0 <= i < j < |rows| ==> rows[i].id != rows[j].id
        invariant done == set p | p in links.Keys - rest && p.0 == k.queue && links[p] == k.fingerprint
                                  && p.1 in offers && offers[p.1].live :: p.1
        decreases |rest|
      {
        var p :| p in rest;
        if p.0 == k.queue && links[p] == k.fingerprint && p.1 in offers && offers[p.1].live {
          assert p.1 !in done;
          rows := rows + [offers[p.1]];
          done := done + {p.1};
        }
        rest := rest - {p};
      }
      assert done == Linked(T(), k);
    }

    /** The old supports of the result go, and each distinct id is inserted with its role. */
    method WriteVerificationSupports(k: Key, ids: seq<nat>, best: Option<nat>)
      modifies this`supports
      ensures supports == old(supports)[k := Roles(ids, best)]
    {
      var rows: map<nat, Role> := map[];
      for i := 0 to |ids|
        invariant rows == Roles(ids[..i], best)
      {
        assert ids[..i + 1] == ids[..i] + [ids[i]];
        rows := rows[ids[i] := if Some(ids[i]) == best then Primary else Support];
      }
      assert ids[..|ids|] == ids;
      supports := supports[k := rows];
    }

    /** Upsert the result row and replace its supports. */
    method WriteVerdict(k: Key, row: ResultRow, supporting: seq<nat>, now: int)
      modifies this`results, this`supports, this`unsynced, this`recomputes, this`answers
      ensures T() == WithVerdict(old(T()), k, Assessment(row, Roles(supporting, row.best)), now)
    {
      results := results[k := row];
      WriteVerificationSupports(k, supporting, row.best);
      unsynced := unsynced - {k};
      recomputes := recomputes + 1;
      answers := answers[k := Answer(recomputes, now, row.state)];
    }

    method RecomputeCandidateVerification(k: Key, now: int) returns (state: V.State, ghost rows: seq<Offer>)
      requires KeyedById(T())
      modifies this`results, this`supports, this`unsynced, this`recomputes, this`answers
      ensures RowsOf(old(T()), k, rows) && T() == Recompute(old(T()), k, rows, now)
      ensures state == T().results[k].state
    {
      var linked := SelectLinked(k);
      rows := linked;
      var row, supporting := AssessRows(linked, if k.queue in constraints then Some(constraints[k.queue])
        else None, now);
      WriteVerdict(k, row, supporting, now);
      state := row.state;
    }

    /** The inserts of one consumer: links that exist are ignored. */
    method LinkJobOffers(k: Key, job: nat)
      modifies this`links, this`unsynced
      ensures T() == LinkJob(old(T()), k, job)
    {
      var found := set id | id in offers && offers[id].live && offers[id].job == job
        && offers[id].fingerprint == k.fingerprint;
      var current := map id | id in found :: (k.queue, id) := k.fingerprint;
      assert found == JobOffers(T(), k.fingerprint, job);
      unsynced := if current.Keys <= links.Keys then unsynced else unsynced + {k};
      links := current + links;
    }

    /** Link one consumer's offers; recompute unless its key was done already. */
    method ProjectConsumer(k: Key, seen: set<Key>, job: nat, now: int)
      requires CacheOk(T()) && AllProjected(T(), seen, job, now)
      modifies this`links, this`results, this`supports, this`unsynced, this`recomputes, this`answers
      ensures CacheOk(T()) && AllProjected(T(), seen + {k}, job, now) && unsynced <= old(unsynced)
      ensures forall x :: x != k || x in seen ==>
                (x in results <==> x in old(results)) && (x in results ==> results[x] == old(results)[x])
    {
      ghost var t := T();
      LinkOk(t, k, job);
      LinkJobOffers(k, job);
      LinkKeepsProjections(t, k, job, now, seen);
      if k in seen {
        assert Projected(T(), k, job, now);
        return;
      }
      ghost var u := T();
      var state;
      ghost var rows;
      state, rows := RecomputeCandidateVerification(k, now);
      RecomputeOk(u, k, rows, now);
      RecomputeProjects(u, k, rows, now, job, seen);
    }

    /** Every consumer's key ends up linked to the job's offers and holding the verdict over all its links. */
    method ProjectProviderJobResults(job: nat, consumers: seq<Key>, now: int) returns (projected: nat)
      requires CacheOk(T())
      modifies this`links, this`results, this`supports, this`unsynced, this`recomputes, this`answers
      ensures CacheOk(T()) && unsynced <= old(unsynced)
      ensures AllProjected(T(), (set k | k in consumers), job, now)
      ensures projected == |set k | k in consumers|
      ensures forall k :: k !in consumers ==>
              (k in results <==> k in old(results)) && (k in results ==> results[k] == old(results)[k])
    {
      projected := 0;
      var seen: set<Key> := {};
      for i := 0 to |consumers|
        invariant CacheOk(T()) && unsynced <= old(unsynced)
        invariant seen == set k | k in consumers[..i]
        invariant projected == |seen| && AllProjected(T(), seen, job, now)
        invariant forall k :: k !in seen ==>
                  (k in results <==> k in old(results)) && (k in results ==> results[k] == old(results)[k])
      {
        assert consumers[..i + 1] == consumers[..i] + [consumers[i]];
        ProjectConsumer(consumers[i], seen, job, now);
        if consumers[i] !in seen {
          seen := seen + {consumers[i]};
          projected := projected + 1;
        }
      }
      assert consumers[..|consumers|] == consumers;
    }

    /** The search plans of a key, in some order: the ranking does not depend on it. */
    method SelectPlans(k: Key) returns (rows: seq<Plan>)
      ensures PlansOf(plans, k, rows)
    {
      rows := [];
      var rest := plans.Keys;
      while rest != {}
        invariant rest <= plans.Keys
        invariant forall p ::
                    p in rows <==> p.id in plans.Keys - rest && plans[p.id].key == k && p == PlanOf(plans, p.id)
        invariant forall i, j :: 0 <= i < j < |rows| ==> rows[i].id != rows[j].id
        decreases |rest|
      {
        var id :| id in rest;
        if plans[id].key == k {
          assert forall p :: p in rows ==> p.id != id;
          rows := rows + [PlanOf(plans, id)];
        }
        rest := rest - {id};
      }
    }

    /** One reprice: each chosen plan gets a job or an error, and no plan at all is an error. */
    method Reprice(e: (Key, nat), failing: set<nat>, now: int) returns (jobs: nat, errors: nat, ghost chosen: seq<Plan>)
      requires Demoted(T(), e)
      modifies this`events, mail
      ensures Snapshot() == RepriceStep(old(Snapshot()), e, now, jobs, errors)
      ensures Tried(plans, e.0, old(events)[e].providers, chosen)
      ensures jobs == Enqueued(chosen, failing) && errors == if chosen == [] then 1 else |chosen| - jobs
    {
      var rows := SelectPlans(e.0);
      var picked := ChooseRepricePlans(rows, events[e].providers);
      chosen := picked;
      jobs, errors := 0, if picked == [] then 1 else 0;
      for i := 0 to |picked|
        invariant jobs == Enqueued(picked[..i], failing) && jobs + errors == if picked == [] then 1 else i
      {
        assert picked[..i + 1][..i] == picked[..i];
        if picked[i].id in failing { errors := errors + 1; } else { jobs := jobs + 1; }
      }
      assert picked[..|picked|] == picked;
      events := events[e := events[e].(reprice := RepriceOutcome(jobs, errors))];
      if errors > 0 { mail.EnqueueAlertIntent(O.AdminRefresh(e.0, e.1), O.Direct(e.0), O.Admin, now); }
    }

    /** Resume or start the reprice and the correction of one event. */
    method FinishLifecycleEvent(e: (Key, nat), failing: set<nat>, now: int)
      returns (jobs: nat, errors: nat, ghost chosen: seq<Plan>)
      requires e in events && (IsPending(events[e]) ==> Demoted(T(), e))
      modifies this`events, mail
      ensures Snapshot() == Finish(old(Snapshot()), e, now, jobs, errors)
      ensures old(events[e].reprice.RepricePending?) ==>
                && Tried(plans, e.0, old(events)[e].providers, chosen)
                && jobs == Enqueued(chosen, failing) && errors == if chosen == [] then 1 else |chosen| - jobs
    {
      jobs, errors, chosen := 0, 0, [];
      var settle := events[e].correction.CorrectionPending?;
      if events[e].reprice.RepricePending? { jobs, errors, chosen := Reprice(e, failing, now); }
      if settle {
        if events[e].hadVisible { mail.EnqueueAlertIntent(O.Correction(e.0, e.1), O.Direct(e.0), O.Deal, now); }
        var settled := if events[e].hadVisible then CorrectionEnqueued else CorrectionNotRequired;
        events := events[e := events[e].(correction := settled)];
      }
    }

    method RecordRotation(f: Flight)
      requires f.offer in offers && offers[f.offer].expiry.ExpiresAt?
      modifies this`events
      ensures T() == RotateTables(old(T()), f)
    {
      if (f.key, f.offer) !in events {
        events := events[(f.key, f.offer) := LifeEvent(
          V.Confirmed, offers[f.offer].expiry.at, f.providers, false, CorrectionNotRequired, RepriceNotRequired,
            f.now)];
      }
    }

    /** The batch of updates of a demotion. */
    method Demote(f: Flight, visible: bool)
      requires f.key in results && f.offer in offers && offers[f.offer].expiry.ExpiresAt?
      modifies this`events, this`results, this`supports, mail
      ensures T() == BatchTables(old(T()), f, visible)
      ensures mail.Snapshot() == Suppress(old(mail.Snapshot()), ItineraryOf(f.key))
    {
      if (f.key, f.offer) !in events {
        events := events[(f.key, f.offer) := LifeEvent(
          V.Probable, offers[f.offer].expiry.at, f.providers, visible, CorrectionPending, RepricePending, f.now)];
      }
      results := results[f.key := results[f.key].(state := V.Probable, reason := SupportExpired, updatedAt := f.now)];
      supports := supports[f.key := map[]];
      Silence(f.key);
    }

    /** Mark the unprojected DEAL intents of the itinerary and cancel its unsent DEAL rows. */
    method Silence(k: Key)
      modifies mail
      ensures mail.Snapshot() == Suppress(old(mail.Snapshot()), ItineraryOf(k))
    {
      var deals := set id | id in mail.intents && mail.intents[id].cls == O.Deal
        && mail.intents[id].itinerary == O.Direct(k);
      assert deals == DealsOf(mail.Snapshot(), ItineraryOf(k));
      mail.intents := map id | id in mail.intents ::
        if id in deals then mail.intents[id].(projected := true) else mail.intents[id];
      mail.rows := map id | id in mail.rows :: if id in deals then Q.CancelRow(mail.rows[id]) else mail.rows[id];
    }

    method CountVisible(k: Key) returns (visible: bool)
      ensures visible <==> Visible(mail.Snapshot(), ItineraryOf(k))
    {
      var seen := set id | id in mail.intents && mail.intents[id].cls == O.Deal
        && mail.intents[id].itinerary == O.Direct(k)
                           && id in mail.rows && (mail.rows[id].state == Q.Leased || mail.rows[id].state == Q.Done);
      assert forall id :: id in seen <==> id in DealsOf(mail.Snapshot(), ItineraryOf(k)) && Seen(mail.Snapshot(), id);
      visible := seen != {};
    }

    method SelectPending() returns (r: Option<(Key, nat)>)
      ensures r.None? ==> Pending(T()) == {}
      ensures r.Some? ==> FirstPending(T(), r.value)
    {
      var pending := map e | e in events
        && IsPending(events[e]) :: [events[e].createdAt, e.0.queue, e.0.fingerprint, e.1];
      assert pending.Keys == Pending(T());
      if pending == map[] { return None; }
      var e := LeastKey(pending);
      r := Some(e);
    }

    method SelectExpired(k: Key, o: nat, now: int) returns (first: nat)
      requires k in supports && o in supports[k] && o in offers && Expired(offers[o].expiry, now)
      ensures FirstExpired(T(), k, first, now)
    {
      var expired := map x | x in supports[k] && x in offers
        && Expired(offers[x].expiry, now) :: SupportOrder(supports[k], x);
      assert o in expired;
      first := LeastKey(expired);
      forall x | x in supports[k] && x in offers && Expired(offers[x].expiry, now)
        ensures LexLeq(SupportOrder(supports[k], first), SupportOrder(supports[k], x))
      {
        assert x in expired;
      }
    }

    /** The key of the first due pair, and the first expired support of that key. */
    method SelectDue(now: int) returns (r: Option<(Key, nat)>)
      ensures r.None? ==> Due(T(), now) == {}
      ensures r.Some? ==> FirstExpired(T(), r.value.0, r.value.1, now)
      ensures r.Some? ==> FirstDueKey(T(), r.value.0, now)
    {
      var due := map k, o | k in results && k in supports && o in supports[k]
                            && results[k].state.Confirmed? && o in offers && offers[o].live
                            && Expired(offers[o].expiry, now) && (k, o) !in events
        :: (k, o) := [offers[o].expiry.at, results[k].updatedAt, k.queue, k.fingerprint];
      assert due.Keys == Due(T(), now);
      if due == map[] { return None; }
      var trigger := LeastKey(due);
      var o := SelectExpired(trigger.0, trigger.1, now);
      assert FirstDue(T(), trigger, now);
      r := Some((trigger.0, o));
    }

    /** What a call remembers of its selection: the expired offer and the providers behind the result. */
    method TakeOff(k: Key, o: nat, now: int) returns (f: Flight)
      ensures f == NewFlight(T(), k, o, now)
    {
      var providers := if k in supports then set x | x in supports[k] && x in offers :: offers[x].provider else {};
      f := Flight(k, o, now, providers, Selected);
    }

    /** An event asks for nothing unless it records a demotion. */
    ghost predicate EventSettled(e: (Key, nat))
      reads this
    {
      e in events && IsPending(events[e]) ==> Demoted(T(), e)
    }

    /** The rest of a call that found an expired support, with nothing in between. */
    method ExpireSupport(k: Key, o: nat, failing: set<nat>, now: int)
      returns (jobs: nat, errors: nat, ghost rows: seq<Offer>)
      requires KeyedById(T()) && o in offers && offers[o].expiry.ExpiresAt?
      requires EventSettled((k, o))
      modifies this`events, this`results, this`supports, this`unsynced, this`recomputes, this`answers, mail
      ensures RowsOf(old(T()), k, rows)
      ensures Snapshot() == Call(old(Snapshot()), now, Expire(k, o), rows, jobs, errors)
    {
      jobs, errors := 0, 0;
      var f := TakeOff(k, o, now);
      var state;
      state, rows := RecomputeCandidateVerification(k, now);
      CallRecords(old(Snapshot()), now, k, o, rows);
      if state.Confirmed? {
        RecordRotation(f);
        return;
      }
      jobs, errors := DemoteAndFinish(f, failing, now);
    }

    /** Count, write the batch, and finish the event. */
    method DemoteAndFinish(f: Flight, failing: set<nat>, now: int) returns (jobs: nat, errors: nat)
      requires f.key in results && f.offer in offers && offers[f.offer].expiry.ExpiresAt?
      requires EventSettled((f.key, f.offer))
      modifies this`events, this`results, this`supports, mail
      ensures var s := old(Snapshot()); var i := ItineraryOf(f.key);
              Snapshot() == Finish(
                s.(t := BatchTables(s.t, f, Visible(s.box, i)), box := Suppress(s.box, i)), (f.key, f.offer), now, jobs,
                errors)
    {
      var visible := CountVisible(f.key);
      Demote(f, visible);
      ghost var chosen;
      jobs, errors, chosen := FinishLifecycleEvent((f.key, f.offer), failing, now);
    }

    /** One call of the lane does one chosen item: a pending event first, else the first due expiry. */
    method ExpireLiveProviderOffers(failing: set<nat>, now: int)
      returns (processed: nat, resumed: nat, jobs: nat, errors: nat, ghost c: Choice, ghost rows: seq<Offer>)
      requires CacheOk(T()) && PendingDemoted(T())
      modifies this`events, this`results, this`supports, this`unsynced, this`recomputes, this`answers, mail
      ensures Chosen(old(T()), now, c) && (c.Expire? ==> RowsOf(old(T()), c.key, rows))
      ensures Snapshot() == Call(old(Snapshot()), now, c, rows, jobs, errors)
      ensures processed == (if c.Expire? then 1 else 0) && resumed == (if c.Resume? then 1 else 0)
    {
      processed, resumed, jobs, errors, c, rows := 0, 0, 0, 0, Quiet, [];
      var pending := SelectPending();
      if pending.Some? {
        c, resumed := Resume(pending.value), 1;
        ghost var chosen;
        jobs, errors, chosen := FinishLifecycleEvent(pending.value, failing, now);
        return;
      }
      var due := SelectDue(now);
      if due.Some? {
        c := Expire(due.value.0, due.value.1);
        processed := 1;
        ChosenExpires(T(), now, due.value.0, due.value.1);
        jobs, errors, rows := ExpireSupport(due.value.0, due.value.1, failing, now);
      }
    }
  }

  /** A call that expires a support: recompute, then rotate, or demote and finish. */
  lemma CallRecords(s: Lane, now: int, k: Key, o: nat, rows: seq<Offer>)
    ensures var r := Recompute(s.t, k, rows, now); var f := NewFlight(s.t, k, o, now); var i := ItineraryOf(k);
            forall jobs: nat, errors: nat ::
              Call(s, now, Expire(k, o), rows, jobs, errors) ==
              if r.results[k].state.Probable? then
                Finish(s.(t := BatchTables(r, f, Visible(s.box, i)), box := Suppress(s.box, i)), (k, o), now, jobs,
                  errors)
              else s.(t := RotateTables(r, f))
  {
    assert NewFlight(s.t, k, o, now).offer == o && NewFlight(s.t, k, o, now).key == k;
  }

  /** What projecting a job has achieved for a key: linked, synced, and the verdict over all links. */
  ghost predicate Projected(t: Tables, k: Key, job: nat, now: int) {
    && k !in t.unsynced && k in t.results
    && (t.results[k].state.Confirmed? <==> ConfirmedAt(t, k, now))
    && JobLinked(t, k, job)
  }

  ghost predicate JobLinked(t: Tables, k: Key, job: nat) {
    forall id :: id in JobOffers(t, k.fingerprint, job) ==> (k.queue, id) in t.links
  }

  ghost predicate AllProjected(t: Tables, keys: set<Key>, job: nat, now: int) {
    forall k {:trigger Projected(t, k, job, now)} :: k in keys ==> Projected(t, k, job, now)
  }

  /** Linking more of a job's offers takes nothing away from the keys already projected. */
  lemma LinkKeepsProjections(t: Tables, k: Key, job: nat, now: int, seen: set<Key>)
    requires AllProjected(t, seen, job, now)
    ensures AllProjected(LinkJob(t, k, job), seen, job, now) && JobLinked(LinkJob(t, k, job), k, job)
  {
    forall x | x in seen ensures Projected(LinkJob(t, k, job), x, job, now) {
      assert Projected(t, x, job, now);
      LinkKeepsProjection(t, k, job, now, x);
    }
  }

  lemma LinkKeepsProjection(t: Tables, k: Key, job: nat, now: int, x: Key)
    requires Projected(t, x, job, now)
    ensures Projected(LinkJob(t, k, job), x, job, now)
  {
    assert JobOffers(t, k.fingerprint, job) == JobOffers(LinkJob(t, k, job), k.fingerprint, job);
    KnownLinksUntouched(t, k, job, x);
    assert LinkedEvidence(LinkJob(t, k, job), x) == LinkedEvidence(t, x);
  }

  lemma RecomputeProjects(t: Tables, k: Key, rows: seq<Offer>, now: int, job: nat, seen: set<Key>)
    requires KeyedById(t) && RowsOf(t, k, rows) && AllProjected(t, seen, job, now) && JobLinked(t, k, job) && k !in seen
    ensures AllProjected(Recompute(t, k, rows, now), seen + {k}, job, now)
  {
    var u := Recompute(t, k, rows, now);
    RecomputeCertifies(t, k, rows, now);
    assert JobLinked(u, k, job);
    forall x | x in seen ensures Projected(u, x, job, now) {
      assert Projected(t, x, job, now);
      RecomputeLinksNothing(t, k, rows, now, x);
    }
  }
}
