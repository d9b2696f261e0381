/** The constraints a promotion puts on the live offers that may verify it. */
module Promotion {
  import opened Values

  /** Flight tokens are upper-case alphanumeric; the empty token stands for a missing one. */
  datatype Segment = Segment(number: string, carrier: string)

  datatype Structure = Structure(
    slices: seq<seq<Segment>>, couponApplied: bool, fareBrand: Option<string>, baggageBundle: Option<string>)

  /** The tokens of eligibleFlights are non-empty: empty ones are dropped when the constraint is read. */
  datatype Constraint = Constraint(
    eligibleFlights: seq<string>, currency: Option<string>, couponRequired: bool,
    fareBrand: Option<string>, baggageBundle: Option<string>)

  datatype Decision = Pass | Mismatch(reason: string) | Unverified(reason: string)

  predicate SegmentAllowed(s: Segment, eligible: seq<string>) {
    && s.number != ""
    && (s.number in eligible || (s.carrier != "" && s.carrier + s.number in eligible))
  }

  predicate SliceAllowed(slice: seq<Segment>, eligible: seq<string>) {
    slice != [] && forall j :: 0 <= j < |slice| ==> SegmentAllowed(slice[j], eligible)
  }

  /** No restriction, or a flown structure all of whose segments are on eligible flights. */
  predicate FlightsPass(structure: Option<Structure>, eligible: seq<string>) {
    || eligible == []
    || (&& structure.Some? && structure.value.slices != []
        && forall i :: 0 <= i < |structure.value.slices| ==> SliceAllowed(structure.value.slices[i], eligible))
  }

  /** Nested loops with early exits and a counter, against the quantified rule. */
  method OfferMatchesEligibleFlights(structure: Option<Structure>, eligible: seq<string>) returns (ok: bool)
    ensures ok <==> FlightsPass(structure, eligible)
  {
    if eligible == [] { return true; }
    if structure.None? || structure.value.slices == [] { return false; }
    var slices := structure.value.slices;
    var count := 0;
    for i := 0 to |slices|
      invariant count >= i
      invariant forall k :: 0 <= k < i ==> SliceAllowed(slices[k], eligible)
    {
      var slice := slices[i];
      if slice == [] { return false; }
      for j := 0 to |slice|
        invariant count >= i + j
        invariant forall k :: 0 <= k < j ==> SegmentAllowed(slice[k], eligible)
      {
        if !SegmentAllowed(slice[j], eligible) { return false; }
        count := count + 1;
      }
    }
    ok := count > 0;
  }

  function Decide(structure: Option<Structure>, currency: string, c: Constraint): Decision {
    if !FlightsPass(structure, c.eligibleFlights) then Mismatch("PROMOTION_FLIGHT_NUMBER_MISMATCH")
    else if c.currency.Some? && currency != c.currency.value then Mismatch("PROMOTION_SALES_CURRENCY_MISMATCH")
    else if c.couponRequired && !(structure.Some? && structure.value.couponApplied)
    then Unverified("PROMOTION_COUPON_UNVERIFIED")
    else
      var brand := Checked(if structure.Some? then structure.value.fareBrand else None, c.fareBrand,
                           Unverified("PROMOTION_FARE_BRAND_UNVERIFIED"), Mismatch("PROMOTION_FARE_BRAND_MISMATCH"));
      if brand != Pass then brand
      else Checked(if structure.Some? then structure.value.baggageBundle else None, c.baggageBundle,
                   Unverified("PROMOTION_BAGGAGE_BUNDLE_UNVERIFIED"), Mismatch("PROMOTION_BAGGAGE_BUNDLE_MISMATCH"))
  }

  /** A required attribute that was not observed is unverified; one observed differently is a mismatch. */
  function Checked(observed: Option<string>, required: Option<string>, unseen: Decision, wrong: Decision): Decision {
    if required.None? then Pass
    else if observed.None? then unseen
    else if observed != required then wrong
    else Pass
  }

  /** An offer passes exactly when every constraint the promotion states is met by what was observed. */
  lemma PassMeansAllMet(structure: Option<Structure>, currency: string, c: Constraint)
    ensures Decide(structure, currency, c) == Pass
            <==> && FlightsPass(structure, c.eligibleFlights)
                 && (c.currency.Some? ==> c.currency.value == currency)
                 && (c.couponRequired ==> structure.Some? && structure.value.couponApplied)
                 && (c.fareBrand.Some? ==> structure.Some? && structure.value.fareBrand == c.fareBrand)
                 && (c.baggageBundle.Some? ==> structure.Some? && structure.value.baggageBundle == c.baggageBundle)
  {}
}
