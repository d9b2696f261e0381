/**
  The multi-provider verdict: a fare is CONFIRMED by one live airline-direct offer, or by two live
  offers of different providers for the same query whose prices agree within the tolerance.
*/
module Verification {
  import opened Values

  /** A provider name; the constructor says whether it starts with "airline:". */
  datatype Provider = Airline(name: nat) | Seller(name: nat)

  /** An expiry time may be missing, or present but not a readable date (then it is never fresh). */
  datatype Expiry = NoExpiry | ExpiresAt(at: int) | Unreadable

  datatype Kind = LiveOffer | CachedFare | Social | Promotion | SellerReadback

  /** A price of 0.0 stands for a missing or zero price: neither can take part in a match. */
  datatype Evidence = Evidence(
    id: nat, provider: Provider, kind: Kind, price: real, fingerprint: nat, expiry: Expiry, coverageAllowed: bool)

  datatype State = Probable | Confirmed

  datatype Reason = AirlineDirect | IndependentLiveMatch | SingleLiveSource | NoLiveConfirmation

  datatype Verdict = Verdict(state: State, reason: Reason, supports: seq<nat>)

  const TOLERANCE: real := 0.03

  predicate Fresh(e: Expiry, now: int) {
    match e
    case NoExpiry => true
    case ExpiresAt(t) => t > now
    case Unreadable => false
  }

  predicate Live(e: Evidence, now: int) {
    e.kind == LiveOffer && e.coverageAllowed && Fresh(e.expiry, now)
  }

  function Abs(x: real): real { if x < 0.0 then -x else x }

  function Larger(x: real, y: real): real { if x >= y then x else y }

  predicate Agree(a: Evidence, b: Evidence, tolerance: real) {
    && a.provider != b.provider && a.price != 0.0 && b.price != 0.0 && a.fingerprint == b.fingerprint
    && Abs(a.price - b.price) / Larger(a.price, b.price) <= tolerance
  }

  // ----- what the program computes, in the order it looks -----

  function LiveEvidence(evidence: seq<Evidence>, now: int): seq<Evidence> {
    if evidence == [] then []
    else if Live(evidence[0], now) then [evidence[0]] + LiveEvidence(evidence[1..], now)
    else LiveEvidence(evidence[1..], now)
  }

  /** The first airline-direct position at or after i, or |live|. */
  function AirlineFrom(live: seq<Evidence>, i: nat): (r: nat)
    requires i <= |live|
    ensures i <= r <= |live| && (r < |live| ==> live[r].provider.Airline?)
    ensures forall k :: i <= k < r ==> !live[k].provider.Airline?
    decreases |live| - i
  {
    if i == |live| || live[i].provider.Airline? then i else AirlineFrom(live, i + 1)
  }

  /** The first position at or after j that agrees with position i, or |live|. */
  function PartnerFrom(live: seq<Evidence>, i: nat, j: nat, tolerance: real): (r: nat)
    requires i < |live| && j <= |live|
    ensures j <= r <= |live| && (r < |live| ==> Agree(live[i], live[r], tolerance))
    ensures forall k :: j <= k < r ==> !Agree(live[i], live[k], tolerance)
    decreases |live| - j
  {
    if j == |live| || Agree(live[i], live[j], tolerance) then j else PartnerFrom(live, i, j + 1, tolerance)
  }

  /** The lexicographically first agreeing pair (i, j) with i < j, looking from position i on. */
  function PairFrom(live: seq<Evidence>, i: nat, tolerance: real): (r: Option<(nat, nat)>)
    requires i <= |live|
    ensures r.Some? ==> i <= r.value.0 < r.value.1 < |live| && Agree(live[r.value.0], live[r.value.1], tolerance)
    ensures r.None? ==> forall a, b :: i <= a < b < |live| ==> !Agree(live[a], live[b], tolerance)
    decreases |live| - i
  {
    if i == |live| then None
    else
      var j := PartnerFrom(live, i, i + 1, tolerance);
      if j < |live| then Some((i, j)) else PairFrom(live, i + 1, tolerance)
  }

  function Verify(evidence: seq<Evidence>, now: int, tolerance: real): Verdict {
    var live := LiveEvidence(evidence, now);
    var direct := AirlineFrom(live, 0);
    if direct < |live| then Verdict(Confirmed, AirlineDirect, [live[direct].id])
    else
      match PairFrom(live, 0, tolerance)
      case Some((i, j)) => Verdict(Confirmed, IndependentLiveMatch, [live[i].id, live[j].id])
      case None => Verdict(Probable, if live == [] then NoLiveConfirmation else SingleLiveSource, [])
  }

  /** The loops of the program compute the specified verdict. */
  method VerifyMultiProvider(evidence: seq<Evidence>, now: int, tolerance: real) returns (v: Verdict)
    ensures v == Verify(evidence, now, tolerance)
  {
    var live := LiveEvidence(evidence, now);
    var direct := 0;
    while direct < |live| && !live[direct].provider.Airline?
      invariant direct <= |live| && AirlineFrom(live, 0) == AirlineFrom(live, direct)
    {
      direct := direct + 1;
    }
    if direct < |live| {
      return Verdict(Confirmed, AirlineDirect, [live[direct].id]);
    }
    var i := 0;
    while i < |live|
      invariant i <= |live| && PairFrom(live, 0, tolerance) == PairFrom(live, i, tolerance)
    {
      var j := i + 1;
      while j < |live|
        invariant i < j <= |live|
        invariant PartnerFrom(live, i, i + 1, tolerance) == PartnerFrom(live, i, j, tolerance)
      {
        if Agree(live[i], live[j], tolerance) {
          return Verdict(Confirmed, IndependentLiveMatch, [live[i].id, live[j].id]);
        }
        j := j + 1;
      }
      i := i + 1;
    }
    v := Verdict(Probable, if live == [] then NoLiveConfirmation else SingleLiveSource, []);
  }

  // ----- what the verdict means, without an order -----

  /** A set of evidence that confirms, as long as all of it is live. */
  ghost predicate Certifies(s: set<Evidence>, tolerance: real) {
    || (exists a :: a in s && a.provider.Airline?)
    || (exists a, b :: a in s && b in s && Agree(a, b, tolerance))
  }

  ghost function LiveSet(s: set<Evidence>, now: int): set<Evidence> {
    set e | e in s && Live(e, now)
  }

  ghost function Elements(evidence: seq<Evidence>): set<Evidence> { set e | e in evidence }

  lemma {:induction false} LiveEvidenceMembers(evidence: seq<Evidence>, now: int)
    ensures forall e :: e in LiveEvidence(evidence, now) <==> e in evidence && Live(e, now)
  {
    if evidence != [] { LiveEvidenceMembers(evidence[1..], now); }
  }

  lemma AgreeSymmetric(a: Evidence, b: Evidence, tolerance: real)
    ensures Agree(a, b, tolerance) == Agree(b, a, tolerance)
  {
    assert Abs(a.price - b.price) == Abs(b.price - a.price);
    assert Larger(a.price, b.price) == Larger(b.price, a.price);
  }

  /** The search finds an agreeing pair whenever two live elements agree, in either order. */
  lemma PairSearchComplete(live: seq<Evidence>, a: Evidence, b: Evidence, tolerance: real)
    requires a in live && b in live && Agree(a, b, tolerance)
    ensures PairFrom(live, 0, tolerance).Some?
  {
    AgreeSymmetric(a, b, tolerance);
    var i :| 0 <= i < |live| && live[i] == a;
    var j :| 0 <= j < |live| && live[j] == b;
    assert i < j || j < i;
  }

  /** CONFIRMED exactly when the live part of the evidence certifies, as a set. */
  lemma VerdictMeaning(evidence: seq<Evidence>, now: int, tolerance: real)
    ensures Verify(evidence, now, tolerance).state.Confirmed?
            <==> Certifies(LiveSet(Elements(evidence), now), tolerance)
  {
    var live := LiveEvidence(evidence, now);
    LiveEvidenceMembers(evidence, now);
    var s := LiveSet(Elements(evidence), now);
    assert forall e :: e in s <==> e in live;
    if a, b :| a in s && b in s && Agree(a, b, tolerance) {
      PairSearchComplete(live, a, b, tolerance);
    }
    var direct := AirlineFrom(live, 0);
    if direct < |live| { assert live[direct] in s; }
    if p: (nat, nat) :| PairFrom(live, 0, tolerance) == Some(p) {
      assert live[p.0] in s && live[p.1] in s;
    }
  }

  /** State and reason depend on the set of evidence only: neither order nor repetition matters. */
  lemma VerdictIgnoresOrder(a: seq<Evidence>, b: seq<Evidence>, now: int, tolerance: real)
    requires Elements(a) == Elements(b)
    ensures Verify(a, now, tolerance).state == Verify(b, now, tolerance).state
    ensures Verify(a, now, tolerance).reason == Verify(b, now, tolerance).reason
  {
    VerdictMeaning(a, now, tolerance);
    VerdictMeaning(b, now, tolerance);
    LiveEvidenceMembers(a, now);
    LiveEvidenceMembers(b, now);
    var la, lb := LiveEvidence(a, now), LiveEvidence(b, now);
    assert forall e :: e in la <==> e in Elements(a) && Live(e, now);
    assert forall e :: e in lb <==> e in Elements(b) && Live(e, now);
    var i, j := AirlineFrom(la, 0), AirlineFrom(lb, 0);
    if i < |la| { assert la[i] in lb; }
    if j < |lb| { assert lb[j] in la; }
    if la != [] { assert la[0] in lb; }
    if lb != [] { assert lb[0] in la; }
  }

  /** More evidence never demotes, and a later time never promotes. */
  lemma VerdictMonotone(less: seq<Evidence>, more: seq<Evidence>, later: int, earlier: int, tolerance: real)
    requires Elements(less) <= Elements(more) && earlier <= later
    requires Verify(less, later, tolerance).state.Confirmed?
    ensures Verify(more, earlier, tolerance).state.Confirmed?
  {
    VerdictMeaning(less, later, tolerance);
    VerdictMeaning(more, earlier, tolerance);
    var s, t := LiveSet(Elements(less), later), LiveSet(Elements(more), earlier);
    assert s <= t;
  }

  /** The evidence behind the ids a verdict names. */
  ghost function Named(evidence: seq<Evidence>, ids: seq<nat>): set<Evidence> {
    set e | e in evidence && e.id in ids
  }

  ghost predicate DistinctIds(evidence: seq<Evidence>) {
    forall a, b :: a in evidence && b in evidence && a.id == b.id ==> a == b
  }

  /**
    A verdict certifies itself: the evidence it names is live, is enough on its own, and a PROBABLE
    verdict names nothing.
  */
  lemma SupportsCertify(evidence: seq<Evidence>, now: int, tolerance: real)
    requires DistinctIds(evidence)
    ensures var v := Verify(evidence, now, tolerance);
            var named := Named(evidence, v.supports);
            && (v.state.Probable? ==> v.supports == [])
            && (v.state.Confirmed? ==> v.supports != [] && Certifies(named, tolerance))
            && (forall e :: e in named ==> Live(e, now))
            && (forall id :: id in v.supports ==> exists e :: e in named && e.id == id)
  {
    var live := LiveEvidence(evidence, now);
    LiveEvidenceMembers(evidence, now);
    var v := Verify(evidence, now, tolerance);
    var direct := AirlineFrom(live, 0);
    if direct < |live| {
      assert live[direct] in Named(evidence, v.supports);
    } else if p: (nat, nat) :| PairFrom(live, 0, tolerance) == Some(p) {
      assert live[p.0] in Named(evidence, v.supports) && live[p.1] in Named(evidence, v.supports);
    }
  }

  /** Evidence none of which can be spared. */
  ghost predicate Minimal(s: set<Evidence>, tolerance: real) {
    forall e :: e in s ==> !Certifies(s - {e}, tolerance)
  }

  /** A verdict names no more than it needs: one airline-direct offer, or two sellers. */
  lemma SupportsMinimal(evidence: seq<Evidence>, now: int, tolerance: real)
    requires DistinctIds(evidence) && Verify(evidence, now, tolerance).state.Confirmed?
    ensures Minimal(Named(evidence, Verify(evidence, now, tolerance).supports), tolerance)
  {
    var live := LiveEvidence(evidence, now);
    LiveEvidenceMembers(evidence, now);
    var named := Named(evidence, Verify(evidence, now, tolerance).supports);
    var direct := AirlineFrom(live, 0);
    if direct < |live| {
      NamedOne(evidence, live[direct]);
    } else if p: (nat, nat) :| PairFrom(live, 0, tolerance) == Some(p) {
      NamedTwo(evidence, live[p.0], live[p.1]);
    }
  }

  lemma NamedOne(evidence: seq<Evidence>, a: Evidence)
    requires DistinctIds(evidence) && a in evidence
    ensures Named(evidence, [a.id]) == {a}
  {}

  lemma NamedTwo(evidence: seq<Evidence>, a: Evidence, b: Evidence)
    requires DistinctIds(evidence) && a in evidence && b in evidence
    ensures Named(evidence, [a.id, b.id]) == {a, b}
  {}
}
