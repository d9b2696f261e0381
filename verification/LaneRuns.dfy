/** Uninterrupted calls as runs of the lane. */
module LaneRuns {
  import opened ProviderResults
  import opened OfferLifecycle

  // ----- an uninterrupted call is a run -----

  function FinishActions(s: Lane, e: (Key, nat), now: int, jobs: nat, errors: nat): seq<Action> {
    if e !in s.t.events then []
    else
      (if s.t.events[e].reprice.RepricePending? then [Reprice(now, e, jobs, errors)] else [])
      + (if s.t.events[e].correction.CorrectionPending? then [CorrectionEnqueue(now, e), CorrectionMark(e)]
        else [])
  }

  lemma OneStep(s: Lane, a: Action)
    requires Enabled(s, a)
    ensures Legal(s, [a]) && Run(s, [a]) == Apply(s, a)
  {
    assert [a][1..] == [];
  }

  lemma TwoSteps(s: Lane, a: Action, b: Action)
    requires Enabled(s, a) && Enabled(Apply(s, a), b)
    ensures Legal(s, [a, b]) && Run(s, [a, b]) == Apply(Apply(s, a), b)
  {
    OneStep(s, a);
    OneStep(Apply(s, a), b);
    LaneAppend(s, [a], [b]);
    assert [a] + [b] == [a, b];
  }

  lemma CorrectionIsRun(s: Lane, e: (Key, nat), now: int)
    ensures var acts := [CorrectionEnqueue(now, e), CorrectionMark(e)];
            Legal(s, acts) && Run(s, acts) == CorrectionMarkStep(CorrectionEnqueueStep(s, e, now), e)
  {
    TwoSteps(s, CorrectionEnqueue(now, e), CorrectionMark(e));
  }

  lemma FinishIsRun(s: Lane, e: (Key, nat), now: int, jobs: nat, errors: nat)
    ensures Legal(s, FinishActions(s, e, now, jobs, errors))
    ensures Run(s, FinishActions(s, e, now, jobs, errors)) == Finish(s, e, now, jobs, errors)
  {
    if e in s.t.events {
      var first: seq<Action> := if s.t.events[e].reprice.RepricePending? then [Reprice(now, e, jobs, errors)] else [];
      if first != [] { OneStep(s, Reprice(now, e, jobs, errors)); }
      var u := Run(s, first);
      if s.t.events[e].correction.CorrectionPending? {
        CorrectionIsRun(u, e, now);
        LaneAppend(s, first, [CorrectionEnqueue(now, e), CorrectionMark(e)]);
      } else {
        assert first + [] == first;
      }
    }
  }

  function CallActions(s: Lane, now: int, token: nat, c: Choice, rows: seq<Offer>, jobs: nat,
    errors: nat): seq<Action> {
    match c
    case Quiet => []
    case Resume(e) => FinishActions(s, e, now, jobs, errors)
    case Expire(k, o) =>
      SelectActions(now, token, k, o) + [Recheck(token, rows)] + RecordActions(s, now, token, k, rows)
      + if Demotes(s.t, k, rows, now)
        then FinishActions(ExpireStep(s, k, o, rows, now), (k, o), now, jobs, errors) else []
  }

  /** How a call finds its support. */
  function SelectActions(now: int, token: nat, k: Key, o: nat): seq<Action> {
    [Begin(now, token), Trigger(token, k), Select(token, o)]
  }

  lemma SelectIsRun(s: Lane, now: int, token: nat, k: Key, o: nat)
    requires token !in s.searches && token !in s.flights && Chosen(s.t, now, Expire(k, o))
    ensures Legal(s, SelectActions(now, token, k, o))
    ensures Run(s, SelectActions(now, token, k, o)) == s.(flights := s.flights[token := NewFlight(s.t, k, o, now)])
  {
    TwoSteps(s, Begin(now, token), Trigger(token, k));
    var u := s.(searches := s.searches[token := Found(k, now)]);
    assert Run(s, [Begin(now, token), Trigger(token, k)]) == u by {
      assert s.searches[token := Started(now)][token := Found(k, now)] == s.searches[token := Found(k, now)];
    }
    LaneStep(s, [Begin(now, token), Trigger(token, k)], Select(token, o));
    assert [Begin(now, token), Trigger(token, k)] + [Select(token, o)] == SelectActions(now, token, k, o);
    assert u.searches - {token} == s.searches;
  }

  /** The flight after the call's own recomputation. */
  function Rechecked(s: Lane, now: int, token: nat, k: Key, o: nat, rows: seq<Offer>): Lane {
    var r := Recompute(s.t, k, rows, now);
    s.(t := r, flights := s.flights[token := NewFlight(s.t, k, o, now).(stage :=
      if r.results[k].state.Confirmed? then Rotating else Answered(r.recomputes))])
  }

  lemma RecheckIsRun(s: Lane, now: int, token: nat, k: Key, o: nat, rows: seq<Offer>)
    requires token !in s.searches && token !in s.flights && Chosen(s.t, now, Expire(k, o)) && RowsOf(s.t, k, rows)
    ensures var first := SelectActions(now, token, k, o) + [Recheck(token, rows)];
            Legal(s, first) && Run(s, first) == Rechecked(s, now, token, k, o, rows)
  {
    SelectIsRun(s, now, token, k, o);
    LaneStep(s, SelectActions(now, token, k, o), Recheck(token, rows));
    RecheckSteps(s, now, token, k, o, rows);
  }

  lemma RecheckSteps(s: Lane, now: int, token: nat, k: Key, o: nat, rows: seq<Offer>)
    ensures var u := s.(flights := s.flights[token := NewFlight(s.t, k, o, now)]);
            Apply(u, Recheck(token, rows)) == Rechecked(s, now, token, k, o, rows)
  {
    var u := s.(flights := s.flights[token := NewFlight(s.t, k, o, now)]);
    var g := Rechecked(s, now, token, k, o, rows).flights[token];
    assert u.flights[token := g] == s.flights[token := g];
  }

  /** How a call records its expiry. */
  function RecordActions(s: Lane, now: int, token: nat, k: Key, rows: seq<Offer>): seq<Action> {
    if Demotes(s.t, k, rows, now) then [Count(token), Batch(token)] else [Rotate(token)]
  }

  lemma RecordIsRun(s: Lane, now: int, token: nat, k: Key, o: nat, rows: seq<Offer>)
    requires token !in s.flights
    ensures var u := Rechecked(s, now, token, k, o, rows); var rest := RecordActions(s, now, token, k, rows);
            Legal(u, rest) && Run(u, rest) == ExpireStep(s, k, o, rows, now)
  {
    var u := Rechecked(s, now, token, k, o, rows);
    assert u.flights - {token} == s.flights;
    if Demotes(s.t, k, rows, now) {
      var c := CountStep(u, token);
      assert c.flights - {token} == s.flights;
      TwoSteps(u, Count(token), Batch(token));
    } else {
      OneStep(u, Rotate(token));
    }
  }

  lemma ExpireIsRun(s: Lane, now: int, token: nat, k: Key, o: nat, rows: seq<Offer>)
    requires token !in s.searches && token !in s.flights
    requires Chosen(s.t, now, Expire(k, o)) && RowsOf(s.t, k, rows)
    ensures var acts := SelectActions(now, token, k, o) + [Recheck(token, rows)]
                        + RecordActions(s, now, token, k, rows);
            Legal(s, acts) && Run(s, acts) == ExpireStep(s, k, o, rows, now)
  {
    RecheckIsRun(s, now, token, k, o, rows);
    RecordIsRun(s, now, token, k, o, rows);
    LaneAppend(s, SelectActions(now, token, k, o) + [Recheck(token, rows)], RecordActions(s, now, token, k, rows));
  }

  /** So everything proved of runs holds of sequences of calls, with anything in between. */
  lemma CallIsRun(s: Lane, now: int, token: nat, c: Choice, rows: seq<Offer>, jobs: nat, errors: nat)
    requires token !in s.searches && token !in s.flights && Chosen(s.t, now, c)
    requires c.Expire? ==> RowsOf(s.t, c.key, rows)
    ensures Legal(s, CallActions(s, now, token, c, rows, jobs, errors))
    ensures Run(s, CallActions(s, now, token, c, rows, jobs, errors)) == Call(s, now, c, rows, jobs, errors)
  {
    match c {
      case Quiet =>
      case Resume(e) => FinishIsRun(s, e, now, jobs, errors);
      case Expire(k, o) =>
        ExpireIsRun(s, now, token, k, o, rows);
        var acts := SelectActions(now, token, k, o) + [Recheck(token, rows)] + RecordActions(s, now, token, k, rows);
        if Demotes(s.t, k, rows, now) {
          var u := ExpireStep(s, k, o, rows, now);
          FinishIsRun(u, (k, o), now, jobs, errors);
          LaneAppend(s, acts, FinishActions(u, (k, o), now, jobs, errors));
        } else {
          assert acts + [] == acts;
        }
    }
  }
}
