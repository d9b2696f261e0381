/**
  The event of an expiry is inserted once and later inserts are ignored: whose count it carries, and how a
  rotation that records it first hides what a demotion counted.
*/
module FirstRecorder {
  import Promotion
  import opened ProviderResults
  import O = Outbox
  import opened OfferLifecycle
  import opened CacheAgreement
  import opened StaleDeals

  // ----- runs, cut before a step -----

  lemma {:induction false} RunCut(s: Lane, acts: seq<Action>, i: nat)
    requires Legal(s, acts) && i < |acts|
    ensures Legal(s, acts[..i]) && Enabled(Run(s, acts[..i]), acts[i])
    ensures Run(s, acts[..i + 1]) == Apply(Run(s, acts[..i]), acts[i])
    decreases i
  {
    if i == 0 {
      assert acts[..1][1..] == [];
      assert acts[..0] == [];
    } else {
      RunCut(Apply(s, acts[0]), acts[1..], i - 1);
      assert acts[..i][1..] == acts[1..][..i - 1] && acts[..i + 1][1..] == acts[1..][..i];
    }
  }

  /** The state before step i of a run. */
  function PrefixRun(s: Lane, acts: seq<Action>, i: nat): Lane
    requires i <= |acts|
  {
    Run(s, acts[..i])
  }

  // ----- whose count an event carries -----

  /** The step that records the event e, and what it records as visible. */
  ghost predicate RecordsFirst(s: Lane, a: Action, e: (Key, nat), visible: bool) {
    && e !in s.t.events && (a.Rotate? || a.Batch?) && Enabled(s, a) && EventOf(s, a.token) == e
    && (a.Rotate? ==> !visible) && (a.Batch? ==> visible == s.flights[a.token].stage.visible)
  }

  lemma StepRecords(s: Lane, a: Action, e: (Key, nat))
    requires Enabled(s, a) && e !in s.t.events && e in Apply(s, a).t.events
    ensures RecordsFirst(s, a, e, Apply(s, a).t.events[e].hadVisible)
  {
    match a {
      case Mail(_) =>
      case Rotate(token) => assert Apply(s, a).t == RotateTables(s.t, s.flights[token]);
      case Batch(token) =>
        assert Apply(s, a).t == BatchTables(s.t, s.flights[token], s.flights[token].stage.visible);
      case Reprice(_, _, _, _) =>
      case CorrectionEnqueue(_, _) =>
      case CorrectionMark(_) =>
      case _ => TablesOnly(s, a);
    }
  }

  /** What an event says was visible is what its first recorder wrote, in every run. */
  lemma {:induction false} RecordedByFirst(s: Lane, acts: seq<Action>, e: (Key, nat)) returns (i: nat)
    requires Legal(s, acts) && CorrectionsOk(s) && e !in s.t.events && e in Run(s, acts).t.events
    ensures i < |acts| && RecordsFirst(PrefixRun(s, acts, i), acts[i], e, Run(s, acts).t.events[e].hadVisible)
    decreases |acts|
  {
    var u, rest := Apply(s, acts[0]), acts[1..];
    forall x ensures CorrectionOk(u, x) { StepKeepsCorrection(s, acts[0], x); }
    if e in u.t.events {
      i := 0;
      StepRecords(s, acts[0], e);
      assert CorrectionOk(u, e);
      RunKeepsEvent(u, rest, e);
      assert acts[..0] == [];
    } else {
      var j := RecordedByFirst(u, rest, e);
      i := j + 1;
      assert acts[..i][0] == acts[0] && acts[..i][1..] == rest[..j];
    }
  }

  /** A flight that has counted, and the state in which it did. */
  ghost predicate CountedThere(s: Lane, a: Action, f: Flight, token: nat) {
    && a == Count(token) && Enabled(s, a)
    && s.flights[token].key == f.key && s.flights[token].offer == f.offer
    && f.stage.Counted? && f.stage.visible == VisibleTo(s, token)
  }

  lemma FlightStep(s: Lane, a: Action, token: nat)
    requires Enabled(s, a) && token in Apply(s, a).flights && Apply(s, a).flights[token].stage.Counted?
    ensures (token in s.flights && s.flights[token] == Apply(s, a).flights[token])
            || CountedThere(s, a, Apply(s, a).flights[token], token)
  {
    match a {
      case Select(x, o) => assert Apply(s, a) == SelectStep(s, x, o);
      case Count(x) => assert Apply(s, a) == CountStep(s, x);
      case Recheck(x, rows) => assert Apply(s, a) == RecheckStep(s, x, rows);
      case Reprice(now, e, jobs, errors) => assert Apply(s, a) == RepriceStep(s, e, now, jobs, errors);
      case _ =>
    }
  }

  lemma {:induction false} CountedInRun(s: Lane, acts: seq<Action>, n: nat, token: nat) returns (j: nat)
    requires Legal(s, acts) && n <= |acts| && s.flights == map[]
    requires token in PrefixRun(s, acts, n).flights && PrefixRun(s, acts, n).flights[token].stage.Counted?
    ensures j < n && CountedThere(PrefixRun(s, acts, j), acts[j], PrefixRun(s, acts, n).flights[token], token)
    decreases n
  {
    assert acts[..0] == [];
    RunCut(s, acts, n - 1);
    FlightStep(PrefixRun(s, acts, n - 1), acts[n - 1], token);
    j := n - 1;
    if !CountedThere(PrefixRun(s, acts, j), acts[j], PrefixRun(s, acts, n).flights[token], token) {
      j := CountedInRun(s, acts, n - 1, token);
    }
  }

  /**
    In every run: an event says that a DEAL was visible exactly if the call that recorded it first was a
    demotion, and a DEAL of its itinerary was SENDING or DELIVERED when that call counted. A rotation never
    says so.
  */
  lemma FirstCountDecides(constraints: map<nat, Promotion.Constraint>, acts: seq<Action>, e: (Key, nat))
    returns (i: nat, j: nat)
    requires Legal(Start(constraints), acts) && e in Run(Start(constraints), acts).t.events
    ensures var s := Start(constraints);
            && i < |acts| && RecordsFirst(PrefixRun(s, acts, i), acts[i], e, Run(s, acts).t.events[e].hadVisible)
            && (acts[i].Batch? ==>
                  && j < i && acts[j] == Count(acts[i].token) && acts[i].token in PrefixRun(s, acts, j).flights
                  && EventOf(PrefixRun(s, acts, j), acts[i].token) == e
                  && (Run(s, acts).t.events[e].hadVisible <==> VisibleTo(PrefixRun(s, acts, j), acts[i].token)))
  {
    var s := Start(constraints);
    i := RecordedByFirst(s, acts, e);
    j := 0;
    if acts[i].Batch? { j := CountedInRun(s, acts, i, acts[i].token); }
  }

  // ----- a rotation records the event between a demotion's count and its batch -----

  /** The state in which the batch then runs. */
  function HiddenAtBatch(s: Lane, token: nat, other: nat, mails: seq<O.Action>): Lane
    requires token in s.flights && s.flights[token].stage.Answered? && other in s.flights
  {
    var c := CountStep(s, token);
    c.(t := RotateTables(s.t, s.flights[other]), flights := c.flights - {other}, box := O.Run(s.box, mails))
  }

  /** Two calls hold the same expiry: one has answered PROBABLE and counts next, the other rotates next. */
  ghost predicate RotatesAlongside(s: Lane, token: nat, other: nat) {
    && Enabled(s, Count(token)) && Enabled(s, Rotate(other)) && EventOf(s, other) == EventOf(s, token)
    && EventOf(s, token) !in s.t.events
  }

  lemma RotationInBetween(s: Lane, token: nat, other: nat, mails: seq<O.Action>)
    requires Reachable(s) && RotatesAlongside(s, token, other) && O.Legal(s.box, mails)
    ensures var mid := [Rotate(other)] + Mails(mails);
            CountThenBatch(s, token, mid) && AtBatch(s, token, mid) == HiddenAtBatch(s, token, other, mails)
  {
    ReachableLaneOk(s);
    assert FlightOk(s.t, s.flights[token]);
    RotatedInBetween(s, token, other, mails);
  }

  lemma RotatedInBetween(s: Lane, token: nat, other: nat, mails: seq<O.Action>)
    requires RotatesAlongside(s, token, other) && O.Legal(s.box, mails) && s.flights[token].key in s.t.results
    ensures var mid := [Rotate(other)] + Mails(mails);
            CountThenBatch(s, token, mid) && AtBatch(s, token, mid) == HiddenAtBatch(s, token, other, mails)
  {
    RotateThenMails(s, token, other, mails);
    HiddenBatchFollows(s, token, other, mails);
    assert Apply(s, Count(token)) == CountStep(s, token);
  }

  lemma RotateThenMails(s: Lane, token: nat, other: nat, mails: seq<O.Action>)
    requires RotatesAlongside(s, token, other) && O.Legal(s.box, mails)
    ensures var mid := [Rotate(other)] + Mails(mails);
            && Legal(CountStep(s, token), mid)
            && Run(CountStep(s, token), mid) == HiddenAtBatch(s, token, other, mails)
  {
    var c := CountStep(s, token);
    var r := c.(t := RotateTables(s.t, s.flights[other]), flights := c.flights - {other});
    RotateAfterCount(s, token, other);
    LaneStep(c, [], Rotate(other));
    assert [] + [Rotate(other)] == [Rotate(other)];
    MailRun(r, mails);
    LaneAppend(c, [Rotate(other)], Mails(mails));
  }

  lemma HiddenBatchFollows(s: Lane, token: nat, other: nat, mails: seq<O.Action>)
    requires RotatesAlongside(s, token, other) && s.flights[token].key in s.t.results
    ensures var b := HiddenAtBatch(s, token, other, mails);
            Enabled(b, Batch(token)) && b.flights[token] == CountStep(s, token).flights[token]
  {}

  lemma RotateAfterCount(s: Lane, token: nat, other: nat)
    requires RotatesAlongside(s, token, other)
    ensures var c := CountStep(s, token);
            && Enabled(c, Rotate(other))
            && Apply(c, Rotate(other)) == c.(t := RotateTables(s.t, s.flights[other]), flights := c.flights - {other})
  {
    assert CountStep(s, token).flights[other] == s.flights[other];
  }

  /**
    Then whatever the demotion counts is lost: a DEAL announced by then can go out uncorrected, with the
    outbox running in between, if and only if it was delivered already or could still be sent.
  */
  lemma RotationHidesIff(s: Lane, token: nat, other: nat, id: O.IntentId)
    requires Reachable(s) && RotatesAlongside(s, token, other)
    requires id in DealsOf(s.box, ItineraryOf(s.flights[token].key))
    ensures (exists mails, after :: O.Legal(s.box, mails)
                                    && Escapes(s, token, id, [Rotate(other)] + Mails(mails), after))
            <==> O.Delivered(s.box, id) || O.CanStillSend(s.box, id)
  {
    ReachableQueueOk(s);
    O.DeliverableIff(s.box, id);
    if mails, after :| O.Legal(s.box, mails) && Escapes(s, token, id, [Rotate(other)] + Mails(mails), after) {
      var mid := [Rotate(other)] + Mails(mails);
      RotationInBetween(s, token, other, mails);
      StaleDealUncorrectedIff(s, token, mid, id);
      if !O.Delivered(s.box, id) && !O.CanStillSend(s.box, id) {
        O.SilentForever(s.box, mails, id);
        SilentIsNotInFlight(O.Run(s.box, mails), id);
      }
    } else if mails :| O.DeliveredBy(s.box, mails, id) {
      var after := EscapeHidden(s, token, other, mails, id);
    }
  }

  lemma EscapeHidden(s: Lane, token: nat, other: nat, mails: seq<O.Action>, id: O.IntentId)
    returns (after: seq<Action>)
    requires Reachable(s) && RotatesAlongside(s, token, other) && O.DeliveredBy(s.box, mails, id)
    requires id in DealsOf(s.box, ItineraryOf(s.flights[token].key))
    ensures Escapes(s, token, id, [Rotate(other)] + Mails(mails), after)
  {
    var mid := [Rotate(other)] + Mails(mails);
    RotationInBetween(s, token, other, mails);
    StaysOlderDeal(s, token, mid, id);
    HiddenIsLost(s, token, other, mails, id);
    StaleDealUncorrectedIff(s, token, mid, id);
    after :| Uncorrected(AfterBatch(s, token, mid), after, EventOf(s, token), id);
  }

  lemma HiddenIsLost(s: Lane, token: nat, other: nat, mails: seq<O.Action>, id: O.IntentId)
    requires RotatesAlongside(s, token, other) && O.Delivered(O.Run(s.box, mails), id)
    requires AtBatch(s, token, [Rotate(other)] + Mails(mails)) == HiddenAtBatch(s, token, other, mails)
    ensures Lost(s, token, [Rotate(other)] + Mails(mails), id)
  {}
}
