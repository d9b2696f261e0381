/**
  Verification results as a cache: each (queue, query) row stores the verdict over its linked live
  offers together with the few offers that justified it.
*/
module ProviderResults {
  import opened Values
  import Promotion
  import V = Verification

  datatype Key = Key(queue: nat, fingerprint: nat)

  datatype Offer = Offer(
    id: nat, fingerprint: nat, provider: V.Provider, total: real, currency: string, expiry: V.Expiry,
    live: bool, job: nat, hash: nat, structure: Option<Promotion.Structure>)

  datatype Role = Primary | Support

  datatype Reason = Verdict(r: V.Reason) | ConstraintUnverified | ConstraintMismatch | SupportExpired

  datatype ResultRow = ResultRow(
    state: V.State, reason: Reason, best: Option<nat>, liveCount: nat, providerCount: nat, updatedAt: int)

  datatype CorrectionState = CorrectionPending | CorrectionNotRequired | CorrectionEnqueued

  datatype RepriceState = RepricePending | RepriceNotRequired | RepriceEnqueued | RepricePartial | RepriceFailed

  datatype LifeEvent = LifeEvent(
    newState: V.State, effectiveAt: int, providers: set<V.Provider>, hadVisible: bool,
    correction: CorrectionState, reprice: RepriceState, createdAt: int)

  /** What the last recomputation of a key answered, when, and which one it was. */
  datatype Answer = Answer(serial: nat, at: int, state: V.State)

  /**
    The tables. links is keyed by (queue, offer) as in the schema; an absent supports row means none.
    The last three are auxiliary variables that no statement reads: the keys that got a new link and no
    recomputation since, the number of recomputations so far, and the last answer of each key.
  */
  datatype Tables = Tables(
    offers: map<nat, Offer>,
    constraints: map<nat, Promotion.Constraint>,
    links: map<(nat, nat), nat>,
    results: map<Key, ResultRow>,
    supports: map<Key, map<nat, Role>>,
    events: map<(Key, nat), LifeEvent>,
    unsynced: set<Key>,
    recomputes: nat,
    answers: map<Key, Answer>)

  // ----- reading the tables -----

  function AsEvidence(o: Offer): V.Evidence {
    V.Evidence(o.id, o.provider, V.LiveOffer, o.total, o.fingerprint, o.expiry, true)
  }

  /** The ids the join of links and live offers yields for a key. */
  function Linked(t: Tables, k: Key): set<nat> {
    set p | p in t.links && p.0 == k.queue && t.links[p] == k.fingerprint && p.1 in t.offers
      && t.offers[p.1].live :: p.1
  }

  /** The rows of that join in some order: the database promises none. */
  ghost predicate RowsOf(t: Tables, k: Key, rows: seq<Offer>) {
    && (forall i, j :: 0 <= i < j < |rows| ==> rows[i].id != rows[j].id)
    && (forall o :: o in rows ==> o.id in Linked(t, k) && o == t.offers[o.id])
    && (forall id :: id in Linked(t, k) ==> t.offers[id] in rows)
  }

  function ConstraintFor(t: Tables, queue: nat): Option<Promotion.Constraint> {
    if queue in t.constraints then Some(t.constraints[queue]) else None
  }

  function Decision(o: Offer, c: Option<Promotion.Constraint>): Promotion.Decision {
    match c
    case None => Promotion.Pass
    case Some(x) => Promotion.Decide(o.structure, o.currency, x)
  }

  predicate Passes(o: Offer, c: Option<Promotion.Constraint>) { Decision(o, c) == Promotion.Pass }

  function SupportsOf(t: Tables, k: Key): map<nat, Role> {
    if k in t.supports then t.supports[k] else map[]
  }

  // ----- recomputing one verdict -----

  function Eligible(rows: seq<Offer>, c: Option<Promotion.Constraint>): seq<Offer> {
    if rows == [] then []
    else if Passes(rows[0], c) then [rows[0]] + Eligible(rows[1..], c)
    else Eligible(rows[1..], c)
  }

  function FreshOffers(rows: seq<Offer>, now: int): seq<Offer> {
    if rows == [] then []
    else if V.Fresh(rows[0].expiry, now) then [rows[0]] + FreshOffers(rows[1..], now)
    else FreshOffers(rows[1..], now)
  }

  function AmongIds(rows: seq<Offer>, ids: seq<nat>): seq<Offer> {
    if rows == [] then []
    else if rows[0].id in ids then [rows[0]] + AmongIds(rows[1..], ids)
    else AmongIds(rows[1..], ids)
  }

  function EvidenceOf(rows: seq<Offer>): (r: seq<V.Evidence>)
    ensures |r| == |rows| && forall i :: 0 <= i < |rows| ==> r[i] == AsEvidence(rows[i])
  {
    seq(|rows|, i requires 0 <= i < |rows| => AsEvidence(rows[i]))
  }

  predicate Cheaper(a: Offer, b: Offer) { a.total < b.total || (a.total == b.total && a.id <= b.id) }

  /** The head of the list sorted by total, then id. */
  function Cheapest(rows: seq<Offer>): (r: Offer)
    requires rows != []
    ensures r in rows && forall o :: o in rows ==> Cheaper(r, o)
  {
    if |rows| == 1 then rows[0]
    else
      var r := Cheapest(rows[1..]);
      assert rows == [rows[0]] + rows[1..];
      if Cheaper(rows[0], r) then rows[0] else r
  }

  datatype Assessment = Assessment(row: ResultRow, supports: map<nat, Role>)

  function Roles(ids: seq<nat>, best: Option<nat>): map<nat, Role> {
    map id | id in ids :: if Some(id) == best then Primary else Support
  }

  function Assess(rows: seq<Offer>, c: Option<Promotion.Constraint>, now: int): Assessment {
    var eligible := Eligible(rows, c);
    if rows == [] then
      Assessment(ResultRow(V.Probable, Verdict(V.NoLiveConfirmation), None, 0, 0, now), map[])
    else if eligible == [] then
      var unverified := exists i :: 0 <= i < |rows| && Decision(rows[i], c).Unverified?;
      var reason := if unverified then ConstraintUnverified else ConstraintMismatch;
      Assessment(ResultRow(V.Probable, reason, None, 0, 0, now), map[])
    else
      var verdict := V.Verify(EvidenceOf(eligible), now, V.TOLERANCE);
      var current := FreshOffers(eligible, now);
      var pool := if verdict.state.Confirmed? && verdict.supports != [] then AmongIds(current, verdict.supports)
        else current;
      var best := if pool == [] then None else Some(Cheapest(pool).id);
      var providers := set o | o in current :: o.provider;
      Assessment(
        ResultRow(verdict.state, Verdict(verdict.reason), best, |current|, |providers|, now),
        if verdict.state.Confirmed? then Roles(verdict.supports, best) else map[])
  }

  function WithVerdict(t: Tables, k: Key, a: Assessment, now: int): Tables {
    t.(results := t.results[k := a.row], supports := t.supports[k := a.supports],
       unsynced := t.unsynced - {k}, recomputes := t.recomputes + 1,
       answers := t.answers[k := Answer(t.recomputes + 1, now, a.row.state)])
  }

  function Recompute(t: Tables, k: Key, rows: seq<Offer>, now: int): Tables {
    WithVerdict(t, k, Assess(rows, ConstraintFor(t, k.queue), now), now)
  }

  // ----- the other steps that write these tables -----

  /** A known offer id is immutable; an unknown one is inserted. */
  function Ingest(t: Tables, o: Offer): Tables {
    if o.id in t.offers then t else t.(offers := t.offers[o.id := o])
  }

  /** The live offers a finished job found for a query. */
  function JobOffers(t: Tables, fingerprint: nat, job: nat): set<nat> {
    set id | id in t.offers && t.offers[id].live && t.offers[id].job == job && t.offers[id].fingerprint == fingerprint
  }

  /** Links them to the queue; links that exist stay as they are, and only a new one calls for a recomputation. */
  function LinkJob(t: Tables, k: Key, job: nat): Tables {
    var current := map id | id in JobOffers(t, k.fingerprint, job) :: (k.queue, id) := k.fingerprint;
    t.(links := current + t.links,
       unsynced := if current.Keys <= t.links.Keys then t.unsynced else t.unsynced + {k})
  }

  // ----- the specification the cache stands for -----

  /** All linked offers that pass the promotion constraint, as evidence. */
  ghost function LinkedEvidence(t: Tables, k: Key): set<V.Evidence> {
    set id | id in Linked(t, k) && Passes(t.offers[id], ConstraintFor(t, k.queue)) :: AsEvidence(t.offers[id])
  }

  /** Whether a verification run afresh at `now` over all of it would confirm. */
  ghost predicate ConfirmedAt(t: Tables, k: Key, now: int) {
    V.Certifies(V.LiveSet(LinkedEvidence(t, k), now), V.TOLERANCE)
  }

  /** That predicate is the verdict of verifyMultiProvider on the eligible rows, in any order. */
  lemma ConfirmedAtIsVerify(t: Tables, k: Key, rows: seq<Offer>, now: int)
    requires RowsOf(t, k, rows)
    ensures V.Verify(EvidenceOf(Eligible(rows, ConstraintFor(t, k.queue))), now, V.TOLERANCE).state.Confirmed?
            <==> ConfirmedAt(t, k, now)
  {
    var eligible := Eligible(rows, ConstraintFor(t, k.queue));
    EligibleEvidence(t, k, rows);
    V.VerdictMeaning(EvidenceOf(eligible), now, V.TOLERANCE);
  }

  lemma EligibleEvidence(t: Tables, k: Key, rows: seq<Offer>)
    requires RowsOf(t, k, rows)
    ensures V.Elements(EvidenceOf(Eligible(rows, ConstraintFor(t, k.queue)))) == LinkedEvidence(t, k)
  {
    var c := ConstraintFor(t, k.queue);
    var eligible := Eligible(rows, c);
    EligibleMembers(rows, c);
    var evidence := EvidenceOf(eligible);
    forall e ensures e in V.Elements(evidence) <==> e in LinkedEvidence(t, k) {
      if e in V.Elements(evidence) {
        var i :| 0 <= i < |evidence| && evidence[i] == e;
        assert eligible[i] in rows;
      }
      if e in LinkedEvidence(t, k) {
        var id :| id in Linked(t, k) && Passes(t.offers[id], c) && e == AsEvidence(t.offers[id]);
        var i :| 0 <= i < |eligible| && eligible[i] == t.offers[id];
        assert evidence[i] == e;
      }
    }
  }

  lemma {:induction false} EligibleMembers(rows: seq<Offer>, c: Option<Promotion.Constraint>)
    ensures forall o :: o in Eligible(rows, c) <==> o in rows && Passes(o, c)
  {
    if rows != [] { EligibleMembers(rows[1..], c); }
  }

  lemma {:induction false} FreshMembers(rows: seq<Offer>, now: int)
    ensures forall o :: o in FreshOffers(rows, now) <==> o in rows && V.Fresh(o.expiry, now)
  {
    if rows != [] { FreshMembers(rows[1..], now); }
  }

  lemma {:induction false} AmongMembers(rows: seq<Offer>, ids: seq<nat>)
    ensures forall o :: o in AmongIds(rows, ids) <==> o in rows && o.id in ids
  {
    if rows != [] { AmongMembers(rows[1..], ids); }
  }

  // ----- what a recomputation leaves behind -----

  ghost predicate KeyedById(t: Tables) {
    forall id :: id in t.offers ==> t.offers[id].id == id
  }

  /** The recorded supports of a key, as evidence. */
  ghost function SupportEvidence(t: Tables, k: Key): set<V.Evidence> {
    set id | id in SupportsOf(t, k) && id in t.offers :: AsEvidence(t.offers[id])
  }

  /**
    A CONFIRMED row carries supports that confirm on their own for as long as all of them are fresh, and
    none of them can be spared; they are linked and eligible; exactly one of them is PRIMARY, it is the
    stored best offer and the cheapest support. A PROBABLE row carries no supports.
  */
  ghost predicate SelfCertified(t: Tables, k: Key)
    requires k in t.results
  {
    var s := SupportsOf(t, k);
    && (t.results[k].state.Probable? ==> s == map[])
    && (t.results[k].state.Confirmed? ==>
          && s.Keys <= Linked(t, k)
          && SupportEvidence(t, k) <= LinkedEvidence(t, k)
          && V.Certifies(SupportEvidence(t, k), V.TOLERANCE) && V.Minimal(SupportEvidence(t, k), V.TOLERANCE)
          && t.results[k].best.Some? && t.results[k].best.value in s
          && (forall id :: id in s ==> (s[id] == Primary <==> t.results[k].best == Some(id)))
          && (forall id :: id in s ==> Cheaper(t.offers[t.results[k].best.value], t.offers[id])))
  }

  /** The ids the verdict of a recomputation names. */
  ghost function NamedIds(t: Tables, k: Key, rows: seq<Offer>, now: int): set<nat> {
    var verdict := V.Verify(EvidenceOf(Eligible(rows, ConstraintFor(t, k.queue))), now, V.TOLERANCE);
    set id | id in verdict.supports
  }

  /** A recomputation records what the verdict names, for a PROBABLE verdict nothing. */
  lemma RecomputeRecordsNamed(t: Tables, k: Key, rows: seq<Offer>, now: int)
    ensures SupportsOf(Recompute(t, k, rows, now), k).Keys == NamedIds(t, k, rows, now)
  {
    var eligible := Eligible(rows, ConstraintFor(t, k.queue));
    if eligible == [] {
      assert EvidenceOf(eligible) == [];
      assert V.LiveEvidence([], now) == [];
    }
  }

  lemma RecomputeCertifies(t: Tables, k: Key, rows: seq<Offer>, now: int)
    requires KeyedById(t) && RowsOf(t, k, rows)
    ensures var u := Recompute(t, k, rows, now);
            && SelfCertified(u, k)
            && (u.results[k].state.Confirmed? <==> ConfirmedAt(u, k, now))
            && (forall id :: id in SupportsOf(u, k) ==> V.Fresh(u.offers[id].expiry, now))
  {
    var u := Recompute(t, k, rows, now);
    var c := ConstraintFor(t, k.queue);
    var eligible := Eligible(rows, c);
    assert Linked(u, k) == Linked(t, k);
    assert LinkedEvidence(u, k) == LinkedEvidence(t, k);
    ConfirmedAtIsVerify(t, k, rows, now);
    EligibleMembers(rows, c);
    if eligible != [] && u.results[k].state.Confirmed? {
      NamedSupports(t, k, rows, now);
      SupportsAreRows(t, k, rows, now);
    }
  }

  /** The supports of a confirming assessment, in terms of the rows. */
  lemma NamedSupports(t: Tables, k: Key, rows: seq<Offer>, now: int)
    requires KeyedById(t) && RowsOf(t, k, rows)
    requires Assess(rows, ConstraintFor(t, k.queue), now).row.state.Confirmed?
    ensures SelfCertified(Recompute(t, k, rows, now), k)
  {
    var u := Recompute(t, k, rows, now);
    var c := ConstraintFor(t, k.queue);
    RecomputeLinksNothing(t, k, rows, now, k);
    SupportsAreRows(t, k, rows, now);
    PrimaryIsCheapest(t, k, rows, now);
    SupportsCertifyAlone(t, k, rows, now);
    SupportsAreEvidence(t, k, rows, now);
    assert SupportEvidence(u, k) == IdEvidence(t, u.supports[k].Keys);
  }

  lemma RecomputeLinksNothing(t: Tables, k: Key, rows: seq<Offer>, now: int, x: Key)
    ensures Linked(Recompute(t, k, rows, now), x) == Linked(t, x)
    ensures LinkedEvidence(Recompute(t, k, rows, now), x) == LinkedEvidence(t, x)
  {}

  lemma SupportsAreEvidence(t: Tables, k: Key, rows: seq<Offer>, now: int)
    requires KeyedById(t) && RowsOf(t, k, rows)
    requires Assess(rows, ConstraintFor(t, k.queue), now).row.state.Confirmed?
    ensures IdEvidence(t, Assess(rows, ConstraintFor(t, k.queue), now).supports.Keys) <= LinkedEvidence(t, k)
  {
    EligibleMembers(rows, ConstraintFor(t, k.queue));
    SupportsAreRows(t, k, rows, now);
  }

  ghost function IdEvidence(t: Tables, ids: set<nat>): set<V.Evidence> {
    set id | id in ids && id in t.offers :: AsEvidence(t.offers[id])
  }

  /** The recorded supports are the evidence the verdict names. */
  lemma SupportsAreNamed(t: Tables, k: Key, rows: seq<Offer>, now: int)
    requires KeyedById(t) && RowsOf(t, k, rows)
    requires Assess(rows, ConstraintFor(t, k.queue), now).row.state.Confirmed?
    ensures var evidence := EvidenceOf(Eligible(rows, ConstraintFor(t, k.queue)));
            IdEvidence(t, Assess(rows, ConstraintFor(t, k.queue), now).supports.Keys)
            == V.Named(evidence, V.Verify(evidence, now, V.TOLERANCE).supports)
  {
    var c := ConstraintFor(t, k.queue);
    var eligible := Eligible(rows, c);
    EligibleMembers(rows, c);
    var evidence := EvidenceOf(eligible);
    var named := V.Named(evidence, V.Verify(evidence, now, V.TOLERANCE).supports);
    var all := IdEvidence(t, Assess(rows, c, now).supports.Keys);
    forall e | e in named ensures e in all {
      var i :| 0 <= i < |evidence| && evidence[i] == e;
      assert eligible[i] in rows && eligible[i].id == e.id;
    }
    forall e | e in all ensures e in named {
      var id :| id in Assess(rows, c, now).supports && id in t.offers && e == AsEvidence(t.offers[id]);
      var o := NamedRow(rows, c, now, id);
      var i :| 0 <= i < |eligible| && eligible[i] == o;
      assert evidence[i] == e;
    }
  }

  lemma SupportsCertifyAlone(t: Tables, k: Key, rows: seq<Offer>, now: int)
    requires KeyedById(t) && RowsOf(t, k, rows)
    requires Assess(rows, ConstraintFor(t, k.queue), now).row.state.Confirmed?
    ensures var all := IdEvidence(t, Assess(rows, ConstraintFor(t, k.queue), now).supports.Keys);
            V.Certifies(all, V.TOLERANCE) && V.Minimal(all, V.TOLERANCE)
  {
    var eligible := Eligible(rows, ConstraintFor(t, k.queue));
    EligibleMembers(rows, ConstraintFor(t, k.queue));
    EvidenceIds(eligible);
    V.SupportsCertify(EvidenceOf(eligible), now, V.TOLERANCE);
    V.SupportsMinimal(EvidenceOf(eligible), now, V.TOLERANCE);
    SupportsAreNamed(t, k, rows, now);
  }

  lemma EvidenceIds(rows: seq<Offer>)
    requires forall a, b :: a in rows && b in rows && a.id == b.id ==> a == b
    ensures V.DistinctIds(EvidenceOf(rows))
  {
    var evidence := EvidenceOf(rows);
    forall a, b | a in evidence && b in evidence && a.id == b.id ensures a == b {
      var i :| 0 <= i < |evidence| && evidence[i] == a;
      var j :| 0 <= j < |evidence| && evidence[j] == b;
      assert rows[i].id == rows[j].id;
    }
  }

  /** Each support of a confirming assessment is an eligible, linked, fresh row. */
  lemma SupportsAreRows(t: Tables, k: Key, rows: seq<Offer>, now: int)
    requires KeyedById(t) && RowsOf(t, k, rows)
    requires Assess(rows, ConstraintFor(t, k.queue), now).row.state.Confirmed?
    ensures var a := Assess(rows, ConstraintFor(t, k.queue), now);
            a.supports != map[] &&
            forall id :: id in a.supports
              ==> && id in Linked(t, k) && t.offers[id] in Eligible(rows, ConstraintFor(t, k.queue))
                  && V.Fresh(t.offers[id].expiry, now)
  {
    var c := ConstraintFor(t, k.queue);
    EligibleMembers(rows, c);
    SupportsNamed(rows, c, now);
    forall id | id in Assess(rows, c, now).supports
      ensures && id in Linked(t, k) && t.offers[id] in Eligible(rows, c) && V.Fresh(t.offers[id].expiry, now)
    {
      var o := NamedRow(rows, c, now, id);
    }
  }

  ghost predicate DistinctRows(rows: seq<Offer>) {
    forall a, b :: a in rows && b in rows && a.id == b.id ==> a == b
  }

  lemma SupportsNamed(rows: seq<Offer>, c: Option<Promotion.Constraint>, now: int)
    requires DistinctRows(rows) && Assess(rows, c, now).row.state.Confirmed?
    ensures Assess(rows, c, now).supports != map[]
  {
    var evidence := EvidenceOf(Eligible(rows, c));
    EligibleMembers(rows, c);
    EvidenceIds(Eligible(rows, c));
    V.SupportsCertify(evidence, now, V.TOLERANCE);
    assert V.Verify(evidence, now, V.TOLERANCE).supports[0] in Assess(rows, c, now).supports;
  }

  /** The row behind a support id. */
  lemma NamedRow(rows: seq<Offer>, c: Option<Promotion.Constraint>, now: int, id: nat) returns (o: Offer)
    requires DistinctRows(rows) && Assess(rows, c, now).row.state.Confirmed? && id in Assess(rows, c, now).supports
    ensures o in rows && o in Eligible(rows, c) && o.id == id && V.Fresh(o.expiry, now)
  {
    var eligible := Eligible(rows, c);
    var evidence := EvidenceOf(eligible);
    EligibleMembers(rows, c);
    EvidenceIds(eligible);
    V.SupportsCertify(evidence, now, V.TOLERANCE);
    var e :| e in V.Named(evidence, V.Verify(evidence, now, V.TOLERANCE).supports) && e.id == id;
    var i :| 0 <= i < |evidence| && evidence[i] == e;
    o := eligible[i];
  }

  lemma PrimaryIsCheapest(t: Tables, k: Key, rows: seq<Offer>, now: int)
    requires KeyedById(t) && RowsOf(t, k, rows)
    requires Assess(rows, ConstraintFor(t, k.queue), now).row.state.Confirmed?
    ensures var a := Assess(rows, ConstraintFor(t, k.queue), now);
            && a.row.best.Some? && a.row.best.value in a.supports && a.row.best.value in t.offers
            && (forall id :: id in a.supports ==> (a.supports[id] == Primary <==> a.row.best == Some(id)))
            && (forall id :: id in a.supports ==> id in t.offers && Cheaper(t.offers[a.row.best.value], t.offers[id]))
  {
    var c := ConstraintFor(t, k.queue);
    var eligible := Eligible(rows, c);
    var a := Assess(rows, c, now);
    SupportsAreRows(t, k, rows, now);
    EligibleMembers(rows, c);
    var verdict := V.Verify(EvidenceOf(eligible), now, V.TOLERANCE);
    var current := FreshOffers(eligible, now);
    FreshMembers(eligible, now);
    AmongMembers(current, verdict.supports);
    var pool := AmongIds(current, verdict.supports);
    var id :| id in a.supports;
    assert t.offers[id] in pool;
    assert verdict.supports != [];
    assert forall o :: o in pool ==> o.id in a.supports && t.offers[o.id] == o;
  }

  /** The rows a verdict may rest on: eligible and fresh. */
  ghost function FreshEligible(rows: seq<Offer>, c: Option<Promotion.Constraint>, now: int): set<Offer> {
    set o | o in rows && Passes(o, c) && V.Fresh(o.expiry, now)
  }

  /**
    The other columns: how many offers are fresh and eligible, of how many providers, and the best of
    them; while PROBABLE the best is the cheapest of all.
  */
  lemma AssessColumns(rows: seq<Offer>, c: Option<Promotion.Constraint>, now: int)
    requires Distinct(rows)
    ensures var row := Assess(rows, c, now).row; var current := FreshEligible(rows, c, now);
            && row.liveCount == |current| && row.providerCount == |set o | o in current :: o.provider|
            && (row.state.Probable? ==> BestIsCheapest(row.best, current))
  {
    var current := FreshOffers(Eligible(rows, c), now);
    FreshEligibleRows(rows, c, now);
    if Eligible(rows, c) == [] { assert current == []; }
    assert (set o | o in current :: o.provider) == set o | o in FreshEligible(rows, c, now) :: o.provider;
    if current != [] {
      var best := Cheapest(current);
      assert best in FreshEligible(rows, c, now);
    }
  }

  ghost predicate BestIsCheapest(best: Option<nat>, current: set<Offer>) {
    if current == {} then best.None?
    else exists o :: o in current && best == Some(o.id) && forall x :: x in current ==> Cheaper(o, x)
  }

  lemma FreshEligibleRows(rows: seq<Offer>, c: Option<Promotion.Constraint>, now: int)
    requires Distinct(rows)
    ensures var current := FreshOffers(Eligible(rows, c), now);
            && (forall o :: o in current <==> o in FreshEligible(rows, c, now))
            && |current| == |FreshEligible(rows, c, now)|
  {
    var eligible := Eligible(rows, c);
    var current := FreshOffers(eligible, now);
    EligibleMembers(rows, c);
    FreshMembers(eligible, now);
    EligibleDistinct(rows, c);
    FreshDistinct(eligible, now);
    CountDistinct(current);
    assert (set o | o in current) == FreshEligible(rows, c, now);
  }

  ghost predicate Distinct(rows: seq<Offer>) { forall i, j :: 0 <= i < j < |rows| ==> rows[i].id != rows[j].id }

  lemma {:induction false} EligibleDistinct(rows: seq<Offer>, c: Option<Promotion.Constraint>)
    requires Distinct(rows)
    ensures Distinct(Eligible(rows, c))
  {
    if rows != [] {
      EligibleDistinct(rows[1..], c);
      EligibleMembers(rows[1..], c);
      assert forall o :: o in rows[1..] ==> o.id != rows[0].id;
    }
  }

  lemma {:induction false} FreshDistinct(rows: seq<Offer>, now: int)
    requires Distinct(rows)
    ensures Distinct(FreshOffers(rows, now))
  {
    if rows != [] {
      FreshDistinct(rows[1..], now);
      FreshMembers(rows[1..], now);
      assert forall o :: o in rows[1..] ==> o.id != rows[0].id;
    }
  }

  lemma {:induction false} CountDistinct(rows: seq<Offer>)
    requires Distinct(rows)
    ensures |set o | o in rows| == |rows|
  {
    if rows != [] {
      CountDistinct(rows[1..]);
      assert (set o | o in rows) == {rows[0]} + set o | o in rows[1..];
      assert rows[0] !in rows[1..];
    }
  }

  /** State and reason do not depend on the order in which the rows came back. */
  lemma AssessIgnoresOrder(a: seq<Offer>, b: seq<Offer>, c: Option<Promotion.Constraint>, now: int)
    requires forall o :: o in a <==> o in b
    ensures Assess(a, c, now).row.state == Assess(b, c, now).row.state
    ensures Assess(a, c, now).row.reason == Assess(b, c, now).row.reason
  {
    var ea, eb := Eligible(a, c), Eligible(b, c);
    EligibleMembers(a, c);
    EligibleMembers(b, c);
    if a != [] { assert a[0] in b; }
    if b != [] { assert b[0] in a; }
    if ea != [] { assert ea[0] in eb; }
    if eb != [] { assert eb[0] in ea; }
    FewerEvidence(ea, eb);
    FewerEvidence(eb, ea);
    V.VerdictIgnoresOrder(EvidenceOf(ea), EvidenceOf(eb), now, V.TOLERANCE);
    SameUnverified(a, b, c);
    SameUnverified(b, a, c);
  }

  lemma FewerEvidence(a: seq<Offer>, b: seq<Offer>)
    requires forall o :: o in a ==> o in b
    ensures V.Elements(EvidenceOf(a)) <= V.Elements(EvidenceOf(b))
  {
    forall e | e in V.Elements(EvidenceOf(a)) ensures e in V.Elements(EvidenceOf(b)) {
      var i :| 0 <= i < |a| && EvidenceOf(a)[i] == e;
      assert a[i] in b;
      var j :| 0 <= j < |b| && b[j] == a[i];
      assert EvidenceOf(b)[j] == e;
    }
  }

  lemma SameUnverified(a: seq<Offer>, b: seq<Offer>, c: Option<Promotion.Constraint>)
    requires forall o :: o in a ==> o in b
    ensures (exists i :: 0 <= i < |a| && Decision(a[i], c).Unverified?)
            ==> (exists i :: 0 <= i < |b| && Decision(b[i], c).Unverified?)
  {
    if i :| 0 <= i < |a| && Decision(a[i], c).Unverified? {
      assert a[i] in b;
    }
  }
}
