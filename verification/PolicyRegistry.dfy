/**
  Readiness facets from travel policies: each requirement is resolved against the latest record of its
  policy, and the facets carry the earliest expiry of the records used. POLICY_FRESH should stay true
  until then; it does except for policies that ask to be watched more closely near the event.
*/
module PolicyRegistry {
  import opened Values

  datatype Status = Current | RecheckRequired | Stale

  datatype Decision = Clear | RequiresDocument | Blocked | Unresolved

  /** Times are milliseconds; lengths are hours, and a watch window that is absent or zero is off. */
  datatype Policy = Policy(
    id: nat, code: nat, documentClass: nat, observed: int, from: Option<int>, to: Option<int>,
    ttl: real, watch: Option<real>, decision: Decision, status: Status)

  const HOUR := 3600000.0

  predicate Watching(p: Policy, event: int, now: int) {
    p.watch.Some? && p.watch.value != 0.0 && (event - now) as real <= p.watch.value * HOUR
  }

  function Shorter(p: Policy): real
    requires p.watch.Some?
  {
    if p.ttl <= p.watch.value then p.ttl else p.watch.value
  }

  /** The event may have no readable time. */
  predicate PolicyUsable(p: Policy, event: Option<int>, now: int) {
    && p.status == Current
    && event.Some?
    && (p.from.Some? ==> event.value >= p.from.value)
    && (p.to.Some? ==> event.value < p.to.value)
    && (now - p.observed) as real <= p.ttl * HOUR
    && !(Watching(p, event.value, now) && (now - p.observed) as real > Shorter(p) * HOUR)
  }

  /** The end of the TTL, or the last instant before an earlier end of effect. */
  function PolicyExpiry(p: Policy): int {
    var ttl := (p.observed as real + p.ttl * HOUR).Floor;
    if p.to.Some? && p.to.value < ttl then p.to.value - 1 else ttl
  }

  // ----- resolving requirements -----

  datatype Selector = FirstDeparture | FirstArrival | FinalDeparture | FinalArrival

  datatype Requirement = Requirement(code: nat, selector: Selector)

  datatype Segment = Segment(departing: Option<int>, arriving: Option<int>)

  function EventFrom(segments: seq<Segment>, selector: Selector): Option<int>
    requires segments != []
  {
    var last := segments[|segments| - 1];
    match selector
    case FirstDeparture => segments[0].departing
    case FirstArrival => segments[0].arriving
    case FinalDeparture => last.departing
    case FinalArrival => last.arriving
  }

  predicate Matches(p: Policy, code: nat, documentClass: nat) { p.code == code && p.documentClass == documentClass }

  /** What `ORDER BY observed_at DESC LIMIT 1` can return. */
  ghost predicate Latest(registry: seq<Policy>, code: nat, documentClass: nat, found: Option<Policy>) {
    match found
    case None => forall p :: p in registry ==> !Matches(p, code, documentClass)
    case Some(x) => x in registry && Matches(x, code, documentClass)
                    && forall p :: p in registry && Matches(p, code, documentClass) ==> p.observed <= x.observed
  }

  method SelectLatest(registry: seq<Policy>, code: nat, documentClass: nat) returns (found: Option<Policy>)
    ensures Latest(registry, code, documentClass, found)
  {
    found := None;
    for i := 0 to |registry|
      invariant Latest(registry[..i], code, documentClass, found)
    {
      assert registry[..i + 1] == registry[..i] + [registry[i]];
      if Matches(registry[i], code, documentClass) && (found.None? || registry[i].observed > found.value.observed) {
        found := Some(registry[i]);
      }
    }
    assert registry[..|registry|] == registry;
  }

  datatype FacetStatus = Pass | Fail | Unknown | StaleFacet

  datatype Facets = Facets(document: FacetStatus, policy: FacetStatus, observedAt: int, expiresAt: int)

  datatype Error = RequirementCountInvalid | TicketsNotFound | SegmentsRequired | EventTimeInvalid

  /** A requirement with the time of its event and the record it was resolved to. */
  datatype Resolved = Resolved(event: int, policy: Option<Policy>)

  predicate FreshNow(r: Resolved, now: int) { r.policy.Some? && PolicyUsable(r.policy.value, Some(r.event), now) }

  predicate Blocks(r: Resolved, now: int) { FreshNow(r, now) && r.policy.value.decision == Blocked }

  predicate ClearNow(r: Resolved, now: int) { FreshNow(r, now) && r.policy.value.decision == Clear }

  const FALLBACK := 900000

  /** The earliest expiry of the records used, or the fallback if none was found. */
  ghost predicate EarliestExpiry(used: seq<Resolved>, now: int, expiry: int) {
    && (forall i :: 0 <= i < |used| && used[i].policy.Some? ==> expiry <= PolicyExpiry(used[i].policy.value))
    && ((exists i :: 0 <= i < |used| && used[i].policy.Some? && expiry == PolicyExpiry(used[i].policy.value))
        || (expiry == now + FALLBACK && forall i :: 0 <= i < |used| ==> used[i].policy.None?))
  }

  ghost predicate EarliestSoFar(used: seq<Resolved>, expiry: Option<int>) {
    match expiry
    case None => forall i :: 0 <= i < |used| ==> used[i].policy.None?
    case Some(e) =>
      && (forall i :: 0 <= i < |used| && used[i].policy.Some? ==> e <= PolicyExpiry(used[i].policy.value))
      && exists i :: 0 <= i < |used| && used[i].policy.Some? && e == PolicyExpiry(used[i].policy.value)
  }

  lemma ExpirySnoc(used: seq<Resolved>, step: Resolved, expiry: Option<int>)
    requires EarliestSoFar(used, expiry)
    ensures EarliestSoFar(used + [step],
              if step.policy.None? then expiry
              else Some(if expiry.None? then PolicyExpiry(step.policy.value)
                else Min(expiry.value, PolicyExpiry(step.policy.value))))
  {
    var all := used + [step];
    assert all[|used|] == step && forall i :: 0 <= i < |used| ==> all[i] == used[i];
    if expiry.Some? {
      var i :| 0 <= i < |used| && used[i].policy.Some? && expiry.value == PolicyExpiry(used[i].policy.value);
      assert all[i] == used[i];
    }
  }

  ghost predicate Resolves(requirements: seq<Requirement>, segments: seq<Segment>, registry: seq<Policy>,
    documentClass: nat, used: seq<Resolved>) {
    && segments != [] && |used| == |requirements|
    && forall i :: 0 <= i < |used| ==>
         Some(used[i].event) == EventFrom(segments, requirements[i].selector)
         && Latest(registry, requirements[i].code, documentClass, used[i].policy)
  }

  /** The facets a resolution stands for. */
  ghost predicate FacetsOf(used: seq<Resolved>, now: int, f: Facets) {
    && f.observedAt == now && EarliestExpiry(used, now, f.expiresAt)
    && (f.policy == Pass <==> forall i :: 0 <= i < |used| ==> FreshNow(used[i], now))
    && (f.policy != Pass ==> f.policy == StaleFacet)
    && (f.document == Fail <==> exists i :: 0 <= i < |used| && Blocks(used[i], now))
    && (f.document == Pass <==> forall i :: 0 <= i < |used| ==> ClearNow(used[i], now))
    && (f.document == Pass || f.document == Fail || f.document == Unknown)
  }

  ghost predicate Flags(used: seq<Resolved>, now: int, allFresh: bool, allClear: bool, blocked: bool) {
    && (allFresh <==> forall i :: 0 <= i < |used| ==> FreshNow(used[i], now))
    && (allClear <==> forall i :: 0 <= i < |used| ==> ClearNow(used[i], now))
    && (blocked <==> exists i :: 0 <= i < |used| && Blocks(used[i], now))
  }

  lemma FlagsSnoc(used: seq<Resolved>, step: Resolved, now: int)
    ensures forall fresh', clear', blocked' :: Flags(used, now, fresh', clear', blocked') ==>
              Flags(used + [step], now, fresh' && FreshNow(step, now), clear' && ClearNow(step, now), blocked'
                || Blocks(step, now))
  {
    var all := used + [step];
    assert all[|used|] == step && forall i :: 0 <= i < |used| ==> all[i] == used[i];
    if i :| 0 <= i < |used| && Blocks(used[i], now) { assert Blocks(all[i], now); }
  }

  lemma ResolvesSnoc(
    requirements: seq<Requirement>, n: nat, segments: seq<Segment>, registry: seq<Policy>, documentClass: nat,
    used: seq<Resolved>, step: Resolved)
    requires n < |requirements| && Resolves(requirements[..n], segments, registry, documentClass, used)
    requires Some(step.event) == EventFrom(segments, requirements[n].selector)
    requires Latest(registry, requirements[n].code, documentClass, step.policy)
    ensures Resolves(requirements[..n + 1], segments, registry, documentClass, used + [step])
  {
    assert requirements[..n + 1] == requirements[..n] + [requirements[n]];
  }

  /** The loop over the requirements with its running flags. */
  method EnrichItineraryPolicy(
    requirements: seq<Requirement>, tickets: seq<seq<Segment>>, documentClass: nat, registry: seq<Policy>, now: int)
    returns (r: Result<Facets, Error>, used: seq<Resolved>)
    ensures r.Ok? ==>
            Resolves(requirements, Flatten(tickets), registry, documentClass, used) && FacetsOf(used, now, r.value)
    ensures r.Ok? <==> 1 <= |requirements| <= 8 && tickets != [] && Flatten(tickets) != []
                       && forall i :: 0 <= i < |requirements| ==>
                         EventFrom(Flatten(tickets), requirements[i].selector).Some?
  {
    used := [];
    if |requirements| < 1 || |requirements| > 8 { return Err(RequirementCountInvalid), used; }
    if tickets == [] { return Err(TicketsNotFound), used; }
    var segments := Flatten(tickets);
    if segments == [] { return Err(SegmentsRequired), used; }
    var allFresh, allClear, blocked := true, true, false;
    var expiry: Option<int> := None;
    for n := 0 to |requirements|
      invariant Resolves(requirements[..n], segments, registry, documentClass, used)
      invariant Flags(used, now, allFresh, allClear, blocked)
      invariant EarliestSoFar(used, expiry)
    {
      var event := EventFrom(segments, requirements[n].selector);
      if event.None? { return Err(EventTimeInvalid), used; }
      var p := SelectLatest(registry, requirements[n].code, documentClass);
      var step := Resolved(event.value, p);
      var usable := FreshNow(step, now);
      allFresh := allFresh && usable;
      allClear := allClear && usable && p.value.decision == Clear;
      blocked := blocked || (usable && p.value.decision == Blocked);
      ExpirySnoc(used, step, expiry);
      FlagsSnoc(used, step, now);
      if p.Some? {
        expiry := Some(if expiry.None? then PolicyExpiry(p.value) else Min(expiry.value, PolicyExpiry(p.value)));
      }
      ResolvesSnoc(requirements, n, segments, registry, documentClass, used, step);
      used := used + [step];
    }
    assert requirements[..|requirements|] == requirements;
    r := Ok(Facets(if blocked then Fail else if allClear then Pass else Unknown, if allFresh then Pass else StaleFacet,
                   now, if expiry.Some? then expiry.value else now + FALLBACK));
  }

  function Flatten(tickets: seq<seq<Segment>>): seq<Segment> {
    if tickets == [] then [] else tickets[0] + Flatten(tickets[1..])
  }

  // ----- does POLICY_FRESH last until its expiry? -----

  /** The policy is close enough to the event, and old enough, to need a recheck within its TTL. */
  predicate WatchLapsed(p: Policy, event: int, now: int) {
    Watching(p, event, now) && (now - p.observed) as real > Shorter(p) * HOUR
  }

  /** Before its expiry, a policy once usable can only fall to its watch window. */
  lemma UsableLater(p: Policy, event: int, now: int, later: int)
    requires PolicyUsable(p, Some(event), now) && now <= later < PolicyExpiry(p)
    ensures PolicyUsable(p, Some(event), later) <==> !WatchLapsed(p, event, later)
  {
    var end := p.observed as real + p.ttl * HOUR;
    assert later <= end.Floor;
    assert later as real <= end;
  }

  /** Watch windows do not reopen. */
  lemma LapseStays(p: Policy, event: int, now: int, later: int)
    requires WatchLapsed(p, event, now) && now <= later
    ensures WatchLapsed(p, event, later)
  {}

  /** No watch window, or one at least as long as the TTL, never lapses within the TTL. */
  lemma LongWatchNeverLapses(p: Policy, event: int, now: int)
    requires p.watch.None? || p.watch.value == 0.0 || p.watch.value >= p.ttl
    requires (now - p.observed) as real <= p.ttl * HOUR
    ensures !WatchLapsed(p, event, now)
  {}

  /**
    Soundness of the expiry, exactly. When POLICY_FRESH is written as PASS, every policy used stays usable
    at all times before expires_at if and only if, at the last of those times, no policy with a watch
    window shorter than its TTL has lapsed.
  */
  lemma FreshUntilExpiryIff(used: seq<Resolved>, now: int, f: Facets)
    requires FacetsOf(used, now, f) && f.policy == Pass
    ensures (forall later, i :: now <= later < f.expiresAt && 0 <= i < |used| ==> FreshNow(used[i], later))
            <==> now >= f.expiresAt
                 || forall i :: 0 <= i < |used| ==> !WatchLapsed(used[i].policy.value, used[i].event, f.expiresAt - 1)
  {
    if now < f.expiresAt {
      var last := f.expiresAt - 1;
      forall i | 0 <= i < |used|
        ensures FreshNow(used[i], last) <==> !WatchLapsed(used[i].policy.value, used[i].event, last) {
        assert FreshNow(used[i], now);
        UsableLater(used[i].policy.value, used[i].event, now, last);
      }
      forall later, i | now <= later < f.expiresAt && 0 <= i < |used| && FreshNow(used[i], last)
        ensures FreshNow(used[i], later) {
        assert FreshNow(used[i], now);
        UsableLater(used[i].policy.value, used[i].event, now, last);
        UsableLater(used[i].policy.value, used[i].event, now, later);
        if WatchLapsed(used[i].policy.value, used[i].event, later) {
          LapseStays(used[i].policy.value, used[i].event, later, last);
        }
      }
    }
  }

  /** So the facet is sound for policies without a watch window or with one at least as long as the TTL. */
  lemma FreshUntilExpiry(used: seq<Resolved>, now: int, f: Facets, later: int, i: nat)
    requires FacetsOf(used, now, f) && f.policy == Pass && now <= later < f.expiresAt && i < |used|
    requires var p := used[i].policy; p.Some? ==>
             p.value.watch.None? || p.value.watch.value == 0.0 || p.value.watch.value >= p.value.ttl
    ensures FreshNow(used[i], later)
  {
    assert FreshNow(used[i], now);
    var p := used[i].policy.value;
    UsableLater(p, used[i].event, now, later);
    assert later as real <= p.observed as real + p.ttl * HOUR;
    LongWatchNeverLapses(p, used[i].event, later);
  }

  /** It is unsound for a short watch window: a day of TTL, six hours of watch, an event in eighteen hours. */
  lemma ShortWatchExpiresEarly()
    ensures var p := Policy(0, 0, 0, 0, None, None, 24.0, Some(6.0), Clear, Current);
            PolicyUsable(p, Some(64800000), 0) && 43200001 < PolicyExpiry(p)
              && !PolicyUsable(p, Some(64800000), 43200001)
  {}
}
