/**
  One agency inventory offer: its row, its recheck queue row, its checkout job and the evidence about it
  move together. Completions check a lease and then write without a guard, so they are several steps here;
  an expiry may fall between them. Rows of different offers never touch each other.
*/
module Agency {
  import opened Values
  import Q = LeaseQueue

  datatype OfferState = Claimed | SellerConfirmed | CheckoutReproduced | Expired | SoldOut

  /** Deadlines that are missing or not readable dates are None. */
  datatype Deadlines = Deadlines(booking: Option<int>, payment: Option<int>, ticketing: Option<int>)

  datatype Offer = Offer(state: OfferState, price: int, seats: Option<nat>, deadlines: Deadlines, currency: string)

  datatype WorkState = Pending | Leased | Done | Dead

  datatype Work = Work(state: WorkState, attempts: nat, claimedBy: Option<nat>, leaseUntil: Option<int>,
    availableAt: int)

  datatype Outcome = Confirmed | NoSeats | Required(retryable: bool)

  /** What a worker read back; `blocked` is an anonymous payment, or a total without taxes or fees. */
  datatype Readback = Readback(
    id: nat, worker: nat, hash: nat, price: int, seats: Option<nat>, deadlines: Deadlines, currency: string,
      blocked: bool)

  /** Evidence is immutable: who read back which content, and what came of it. */
  datatype Evidence = Evidence(worker: nat, hash: nat, outcome: Outcome)

  /** A completion, a projection or an expiry between two of its statements. */
  datatype Flight =
    | RecheckChecked(r: Readback, outcome: Outcome)
    | RecheckWritten(r: Readback, outcome: Outcome)
    | RecheckAcked
    | CheckoutChecked(r: Readback, outcome: Outcome, attempts: nat)
    | CheckoutWritten(r: Readback, outcome: Outcome, attempts: nat)
    | Projecting
    | Expiring(reason: Reason, now: int)

  /** The rows of one offer; rechecks and checkouts are the evidence tables, by evidence id. */
  datatype Case = Case(
    offer: Offer, queue: Option<Work>, job: Option<Work>,
    rechecks: map<nat, Evidence>, checkouts: map<nat, Evidence>, flights: map<nat, Flight>)

  // ----- why an offer expires -----

  datatype Reason = SeatsExhausted | BookingPassed | PaymentPassed | TicketingPassed

  datatype Expiry = Expiry(reason: Reason, effectiveAt: int, newState: OfferState)

  function Candidate(d: Option<int>, reason: Reason, now: int): seq<(int, Reason)> {
    if d.Some? && d.value <= now then [(d.value, reason)] else []
  }

  /** The first entry with the least time, as a stable sort puts it. */
  function Earliest(c: seq<(int, Reason)>): (i: nat)
    requires c != []
    ensures i < |c| && forall j :: 0 <= j < |c| ==> c[i].0 <= c[j].0 && (j < i ==> c[i].0 < c[j].0)
  {
    if |c| == 1 then 0
    else
      var i := Earliest(c[..|c| - 1]);
      assert forall j :: 0 <= j < |c| - 1 ==> c[..|c| - 1][j] == c[j];
      if c[|c| - 1].0 < c[i].0 then |c| - 1 else i
  }

  function PassedDeadlines(d: Deadlines, now: int): seq<(int, Reason)> {
    Candidate(d.booking, BookingPassed, now) + Candidate(d.payment, PaymentPassed, now)
      + Candidate(d.ticketing, TicketingPassed, now)
  }

  function ExpiryReason(seats: Option<nat>, d: Deadlines, now: int): Option<Expiry> {
    if seats == Some(0) then Some(Expiry(SeatsExhausted, now, SoldOut))
    else
      var passed := PassedDeadlines(d, now);
      if passed == [] then None else Some(Expiry(passed[Earliest(passed)].1, passed[Earliest(passed)].0, Expired))
  }

  /** The push loop over the three deadlines. */
  method AgencyOfferExpiryReason(seats: Option<nat>, d: Deadlines, now: int) returns (r: Option<Expiry>)
    ensures r == ExpiryReason(seats, d, now)
  {
    if seats == Some(0) { return Some(Expiry(SeatsExhausted, now, SoldOut)); }
    var rows := [(d.booking, BookingPassed), (d.payment, PaymentPassed), (d.ticketing, TicketingPassed)];
    var candidates: seq<(int, Reason)> := [];
    for i := 0 to 3
      invariant candidates == (if i >= 1 then Candidate(d.booking, BookingPassed, now) else [])
                              + (if i >= 2 then Candidate(d.payment, PaymentPassed, now) else [])
                              + (if i >= 3 then Candidate(d.ticketing, TicketingPassed, now) else [])
    {
      var (value, reason) := rows[i];
      if value.Some? && value.value <= now { candidates := candidates + [(value.value, reason)]; }
    }
    if candidates == [] { return None; }
    var first := candidates[Earliest(candidates)];
    r := Some(Expiry(first.1, first.0, Expired));
  }

  function DeadlineOf(d: Deadlines, r: Reason): Option<int> {
    match r
    case BookingPassed => d.booking
    case PaymentPassed => d.payment
    case TicketingPassed => d.ticketing
    case SeatsExhausted => None
  }

  function Rank(r: Reason): nat {
    match r case SeatsExhausted => 0 case BookingPassed => 1 case PaymentPassed => 2 case TicketingPassed => 3
  }

  predicate HasPassed(d: Deadlines, r: Reason, now: int) { DeadlineOf(d, r).Some? && DeadlineOf(d, r).value <= now }

  /** The loop collects exactly the passed deadlines, in the order they are listed. */
  lemma PassedMeaning(d: Deadlines, now: int)
    ensures var c := PassedDeadlines(d, now);
            && (forall i :: 0 <= i < |c| ==> HasPassed(d, c[i].1, now) && DeadlineOf(d, c[i].1).value == c[i].0)
            && (forall i, j :: 0 <= i < j < |c| ==> Rank(c[i].1) < Rank(c[j].1))
            && (forall r :: HasPassed(d, r, now) ==> (DeadlineOf(d, r).value, r) in c)
  {
    var b, p, t := Candidate(d.booking, BookingPassed, now), Candidate(d.payment, PaymentPassed, now),
      Candidate(d.ticketing, TicketingPassed, now);
    forall r | HasPassed(d, r, now) ensures (DeadlineOf(d, r).value, r) in b + p + t {
      match r {
        case BookingPassed => assert (b + p + t)[0] == (d.booking.value, r);
        case PaymentPassed => assert (b + p + t)[|b|] == (d.payment.value, r);
        case TicketingPassed => assert (b + p + t)[|b| + |p|] == (d.ticketing.value, r);
      }
    }
  }

  /**
    An offer expires exactly when its seats are exhausted or a deadline has passed; exhausted seats win,
    otherwise the named deadline is the earliest, and of equal ones the first in the order booking,
    payment, ticketing.
  */
  lemma ExpiryMeaning(seats: Option<nat>, d: Deadlines, now: int)
    ensures ExpiryReason(seats, d, now).Some? <==> seats == Some(0) || exists r :: HasPassed(d, r, now)
    ensures ExpiryReason(seats, d, now).Some? ==>
              var x := ExpiryReason(seats, d, now).value;
              if seats == Some(0) then x == Expiry(SeatsExhausted, now, SoldOut)
              else
                && x.newState == Expired && HasPassed(d, x.reason, now)
                  && x.effectiveAt == DeadlineOf(d, x.reason).value
                && forall r :: HasPassed(d, r, now) ==>
                     x.effectiveAt <= DeadlineOf(d, r).value
                       && (x.effectiveAt == DeadlineOf(d, r).value ==> Rank(x.reason) <= Rank(r))
  {
    PassedMeaning(d, now);
    var c := PassedDeadlines(d, now);
    if c != [] {
      var i := Earliest(c);
      forall r | HasPassed(d, r, now)
        ensures c[i].0 <= DeadlineOf(d, r).value && (c[i].0 == DeadlineOf(d, r).value ==> Rank(c[i].1) <= Rank(r))
      {
        var j :| 0 <= j < |c| && c[j] == (DeadlineOf(d, r).value, r);
      }
    }
  }

  // ----- steps -----

  predicate Over(s: OfferState) { s == Expired || s == SoldOut }

  /** The lease subqueries: not over, seats left, no deadline passed. */
  predicate Open(o: Offer, now: int) { !Over(o.state) && ExpiryReason(o.seats, o.deadlines, now).None? }

  function Or<T>(a: Option<T>, b: Option<T>): Option<T> { if a.Some? then a else b }

  /** COALESCE of what was read back over what was stored. */
  function Merge(a: Deadlines, b: Deadlines): Deadlines {
    Deadlines(Or(a.booking, b.booking), Or(a.payment, b.payment), Or(a.ticketing, b.ticketing))
  }

  function Judge(r: Readback, currency: string, deadlines: Deadlines, now: int): Outcome {
    if r.currency != currency || r.blocked then Required(true)
    else if r.seats == Some(0) then NoSeats
    else if PassedDeadlines(deadlines, now) != [] then Required(false)
    else Confirmed
  }

  /** A checkout does not read a ticketing deadline back. */
  function CheckoutDeadlines(r: Readback): Deadlines { r.deadlines.(ticketing := None) }

  predicate LiveLease(w: Option<Work>, worker: nat, now: int) {
    w.Some? && w.value.state == Leased && w.value.claimedBy == Some(worker)
    && w.value.leaseUntil.Some? && w.value.leaseUntil.value > now
  }

  function Reclaim(w: Option<Work>, now: int): Option<Work> {
    if w.Some? && w.value.state == Leased && w.value.leaseUntil.Some? && w.value.leaseUntil.value <= now
    then Some(w.value.(state := Pending, claimedBy := None, leaseUntil := None)) else w
  }

  function Grant(w: Option<Work>, worker: nat, now: int, seconds: int): Option<Work> {
    if w.Some? && w.value.state == Pending && w.value.availableAt <= now
    then Some(w.value.(state := Leased, claimedBy := Some(worker), leaseUntil := Some(now + 1000 * seconds),
      attempts := w.value.attempts + 1))
    else w
  }

  /** `retryable` decides with the attempts the caller read. */
  function Settle(w: Work, outcome: Outcome, attempts: nat, now: int): Work {
    if !outcome.Required? then w.(state := Done, leaseUntil := None)
    else if outcome.retryable && attempts < 5 then
      w.(state := Pending, claimedBy := None, leaseUntil := None, availableAt := now + 1000 * Q.Delay(attempts))
    else w.(state := Dead, leaseUntil := None)
  }

  function Kill(w: Option<Work>): Option<Work> {
    if w.Some? && (w.value.state == Pending || w.value.state == Leased)
    then Some(w.value.(state := Dead, claimedBy := None, leaseUntil := None)) else w
  }

  datatype AckReply = AckFails | AckPasses(queue: Option<Work>)

  /** ackCandidateSignal for a worker, atomically: a repeated acknowledgement passes without a change. */
  function AckSignal(w: Option<Work>, worker: nat, outcome: Outcome, now: int): AckReply {
    if w.None? then AckFails
    else if (w.value.state == Done || w.value.state == Dead) && w.value.claimedBy == Some(worker) then AckPasses(w)
    else if !LiveLease(w, worker, now) then AckFails
    else AckPasses(Some(Settle(w.value, outcome, w.value.attempts, now)))
  }

  function BeginRecheck(c: Case, now: int, token: nat, r: Readback): Case {
    if r.id !in c.rechecks && LiveLease(c.queue, r.worker, now) then
      var outcome := Judge(r, c.offer.currency, Merge(r.deadlines, c.offer.deadlines), now);
      c.(rechecks := c.rechecks[r.id := Evidence(r.worker, r.hash, outcome)],
        flights := c.flights[token := RecheckChecked(r, outcome)])
    else c
  }

  function BeginCheckout(c: Case, now: int, token: nat, r: Readback): Case {
    if r.id !in c.checkouts && LiveLease(c.job, r.worker, now)
       && (c.offer.state == SellerConfirmed || c.offer.state == CheckoutReproduced) then
      var outcome := Judge(r, c.offer.currency, Merge(CheckoutDeadlines(r), c.offer.deadlines), now);
      c.(checkouts := c.checkouts[r.id := Evidence(r.worker, r.hash, outcome)],
         flights := c.flights[token := CheckoutChecked(r, outcome, c.job.value.attempts)])
    else c
  }

  /** The update of the offer row after the checks: it is not guarded by the offer's state. */
  function WrittenOffer(o: Offer, r: Readback, deadlines: Deadlines, outcome: Outcome, state: OfferState): Offer {
    match outcome
    case Confirmed => o.(state := state, price := r.price, seats := Or(r.seats, o.seats),
      deadlines := Merge(deadlines, o.deadlines))
    case NoSeats => o.(state := SoldOut, seats := Some(0))
    case Required(_) => o
  }

  function WriteOffer(c: Case, token: nat): Case {
    if token !in c.flights then c
    else
      match c.flights[token]
      case RecheckChecked(r, outcome) =>
        c.(offer := WrittenOffer(c.offer, r, r.deadlines, outcome, SellerConfirmed),
           flights := c.flights[token := RecheckWritten(r, outcome)])
      case CheckoutChecked(r, outcome, attempts) =>
        c.(offer := WrittenOffer(c.offer, r, CheckoutDeadlines(r), outcome, CheckoutReproduced),
           flights := c.flights[token := CheckoutWritten(r, outcome, attempts)])
      case _ => c
  }

  function AckRecheck(c: Case, now: int, token: nat): Case {
    if token in c.flights && c.flights[token].RecheckWritten? then
      var f := c.flights[token];
      match AckSignal(c.queue, f.r.worker, f.outcome, now)
      case AckFails => c.(flights := c.flights - {token})
      case AckPasses(queue) =>
        c.(queue := queue,
           flights := if f.outcome.Confirmed? then c.flights[token := RecheckAcked] else c.flights - {token})
    else c
  }

  function EnqueueJob(c: Case, now: int, token: nat): Case {
    if token in c.flights && c.flights[token].RecheckAcked? then
      c.(job := if c.job.None? then Some(Work(Pending, 0, None, None, now)) else c.job, flights := c.flights - {token})
    else c
  }

  /** ackCheckoutJob: guarded by nothing, and with the attempts read at the check. */
  function AckCheckout(c: Case, now: int, token: nat): Case {
    if token in c.flights && c.flights[token].CheckoutWritten? then
      var f := c.flights[token];
      c.(job := if c.job.Some? then Some(Settle(c.job.value, f.outcome, f.attempts, now)) else None,
         flights := c.flights - {token})
    else c
  }

  function LeaseQueueStep(c: Case, now: int, worker: nat, seller: bool, chosen: bool): Case {
    var queue := Reclaim(c.queue, now);
    c.(queue := if chosen && (seller ==> Open(c.offer, now)) then Grant(queue, worker, now, 90) else queue)
  }

  function LeaseJobStep(c: Case, now: int, worker: nat, chosen: bool): Case {
    var job := Reclaim(c.job, now);
    c.(job := if chosen && Open(c.offer, now) then Grant(job, worker, now, 120) else job)
  }

  function AckQueueStep(c: Case, now: int, worker: nat, outcome: Outcome): Case {
    match AckSignal(c.queue, worker, outcome, now)
    case AckFails => c
    case AckPasses(queue) => c.(queue := queue)
  }

  predicate ExpiryFires(c: Case, now: int) {
    !Over(c.offer.state) && ExpiryReason(c.offer.seats, c.offer.deadlines, now).Some?
  }

  function StateFor(r: Reason): OfferState { if r.SeatsExhausted? then SoldOut else Expired }

  /** The batch of an expiry: only the offer row is guarded by its state. */
  function ExpireRows(c: Case, r: Reason): Case {
    c.(offer := if Over(c.offer.state) then c.offer else c.offer.(state := StateFor(r)),
       queue := Kill(c.queue), job := Kill(c.job))
  }

  /** The expiry reads the overdue row in one statement and writes its batch in another. */
  function BeginExpire(c: Case, now: int, token: nat): Case {
    if ExpiryFires(c, now) then
      var reason := ExpiryReason(c.offer.seats, c.offer.deadlines, now).value.reason;
      c.(flights := c.flights[token := Expiring(reason, now)])
    else c
  }

  function EndExpire(c: Case, token: nat): Case {
    if token in c.flights && c.flights[token].Expiring? then
      ExpireRows(c, c.flights[token].reason).(flights := c.flights - {token})
    else c
  }

  /** An expiry with nothing in between. */
  function ExpireStep(c: Case, now: int): Case {
    if ExpiryFires(c, now) then ExpireRows(c, ExpiryReason(c.offer.seats, c.offer.deadlines, now).value.reason) else c
  }

  /** The domain event of an offer is projected into the queue if seats are known to be left and nothing is over. */
  function BeginProjection(c: Case, now: int, token: nat): Case {
    if Open(c.offer, now) && c.offer.seats.Some? then c.(flights := c.flights[token := Projecting]) else c
  }

  function EndProjection(c: Case, now: int, token: nat): Case {
    if token in c.flights && c.flights[token].Projecting? then
      c.(queue := if c.queue.None? then Some(Work(Pending, 0, None, None, now)) else c.queue,
         flights := c.flights - {token})
    else c
  }

  /** A repeated ingest: a confirmed offer stays confirmed unless what is ingested is over; anything else restarts. */
  function IngestStep(c: Case, now: int, seats: Option<nat>, deadlines: Deadlines): Case {
    var over := ExpiryReason(seats, deadlines, now);
    c.(offer := c.offer.(seats := seats, deadlines := deadlines,
         state := if over.Some? then over.value.newState
                  else if c.offer.state == SellerConfirmed || c.offer.state == CheckoutReproduced then c.offer.state
                  else Claimed))
  }

  datatype Action =
    | LeaseSignal(now: int, worker: nat, seller: bool, chosen: bool)
    | AckQueue(now: int, worker: nat, outcome: Outcome)
    | StartRecheck(now: int, token: nat, r: Readback)
    | WriteRow(token: nat)
    | FinishRecheck(now: int, token: nat)
    | AddJob(now: int, token: nat)
    | LeaseJob(now: int, worker: nat, chosen: bool)
    | StartCheckout(now: int, token: nat, r: Readback)
    | FinishCheckout(now: int, token: nat)
    | StartProjection(now: int, token: nat)
    | FinishProjection(now: int, token: nat)
    | Crash(token: nat)
    | StartExpire(now: int, token: nat)
    | FinishExpire(token: nat)
    | Ingest(now: int, seats: Option<nat>, deadlines: Deadlines)

  function Apply(c: Case, a: Action): Case {
    match a
    case LeaseSignal(now, worker, seller, chosen) => LeaseQueueStep(c, now, worker, seller, chosen)
    case AckQueue(now, worker, outcome) => AckQueueStep(c, now, worker, outcome)
    case StartRecheck(now, token, r) => BeginRecheck(c, now, token, r)
    case WriteRow(token) => WriteOffer(c, token)
    case FinishRecheck(now, token) => AckRecheck(c, now, token)
    case AddJob(now, token) => EnqueueJob(c, now, token)
    case LeaseJob(now, worker, chosen) => LeaseJobStep(c, now, worker, chosen)
    case StartCheckout(now, token, r) => BeginCheckout(c, now, token, r)
    case FinishCheckout(now, token) => AckCheckout(c, now, token)
    case StartProjection(now, token) => BeginProjection(c, now, token)
    case FinishProjection(now, token) => EndProjection(c, now, token)
    case Crash(token) => c.(flights := c.flights - {token})
    case StartExpire(now, token) => BeginExpire(c, now, token)
    case FinishExpire(token) => EndExpire(c, token)
    case Ingest(now, seats, deadlines) => IngestStep(c, now, seats, deadlines)
  }

  function Run(c: Case, acts: seq<Action>): Case
    decreases |acts|
  {
    if acts == [] then c else Run(Apply(c, acts[0]), acts[1..])
  }

  ghost predicate NoIngest(acts: seq<Action>) { forall i :: 0 <= i < |acts| ==> !acts[i].Ingest? }

  // ----- expiry freezes the offer -----

  /** The states the expiry must freeze. */
  datatype Status = Status(offer: OfferState, queue: Option<WorkState>, job: Option<WorkState>)

  function StateOf(w: Option<Work>): Option<WorkState> { if w.Some? then Some(w.value.state) else None }

  function StatusOf(c: Case): Status { Status(c.offer.state, StateOf(c.queue), StateOf(c.job)) }

  predicate Settled(w: Option<Work>) { w.Some? ==> w.value.state == Done || w.value.state == Dead }

  predicate AllOver(c: Case) { Over(c.offer.state) && Settled(c.queue) && Settled(c.job) }

  /** A flight whose next statements would move a frozen row. */
  predicate Armed(c: Case, f: Flight) {
    match f
    case RecheckChecked(_, outcome) => outcome.Confirmed? || (outcome.NoSeats? && c.offer.state != SoldOut)
    case RecheckWritten(r, outcome) => outcome.Confirmed? && c.job.None? && c.queue.Some?
      && c.queue.value.claimedBy == Some(r.worker)
    case RecheckAcked => c.job.None?
    case CheckoutChecked(_, outcome, attempts) =>
      || outcome.Confirmed?
      || (outcome.NoSeats? && c.offer.state != SoldOut)
      || (c.job.Some? && Settle(c.job.value, outcome, attempts, 0).state != c.job.value.state)
    case CheckoutWritten(_, outcome, attempts) => c.job.Some?
      && Settle(c.job.value, outcome, attempts, 0).state != c.job.value.state
    case Projecting => c.queue.None?
    case Expiring(_, _) => false
  }

  ghost predicate Calm(c: Case) { AllOver(c) && forall token :: token in c.flights ==> !Armed(c, c.flights[token]) }

  lemma CalmStep(c: Case, a: Action)
    requires Calm(c) && !a.Ingest?
    ensures Calm(Apply(c, a)) && StatusOf(Apply(c, a)) == StatusOf(c)
  {
    match a {
      case WriteRow(token) => CalmWrite(c, token);
      case FinishRecheck(now, token) => CalmRecheck(c, now, token);
      case FinishCheckout(now, token) => CalmCheckout(c, now, token);
      case _ =>
    }
  }

  lemma CalmWrite(c: Case, token: nat)
    requires Calm(c)
    ensures Calm(WriteOffer(c, token)) && StatusOf(WriteOffer(c, token)) == StatusOf(c)
  {}

  lemma CalmRecheck(c: Case, now: int, token: nat)
    requires Calm(c)
    ensures Calm(AckRecheck(c, now, token)) && StatusOf(AckRecheck(c, now, token)) == StatusOf(c)
  {}

  lemma CalmCheckout(c: Case, now: int, token: nat)
    requires Calm(c)
    ensures Calm(AckCheckout(c, now, token)) && StatusOf(AckCheckout(c, now, token)) == StatusOf(c)
  {}

  lemma {:induction false} CalmRun(c: Case, acts: seq<Action>)
    requires Calm(c) && NoIngest(acts)
    ensures StatusOf(Run(c, acts)) == StatusOf(c)
    decreases |acts|
  {
    if acts != [] {
      CalmStep(c, acts[0]);
      CalmRun(Apply(c, acts[0]), acts[1..]);
    }
  }

  lemma RunTwo(c: Case, a: Action, b: Action)
    ensures Run(c, [a]) == Apply(c, a) && Run(c, [a, b]) == Apply(Apply(c, a), b)
  {
    assert [a][1..] == [] && [a, b][1..] == [b] && [b][1..] == [];
    assert Run(c, [a, b]) == Run(Apply(c, a), [b]) == Run(Apply(Apply(c, a), b), []);
  }

  /** The statements left in an armed flight move a frozen row. */
  lemma ArmedMoves(c: Case, token: nat) returns (acts: seq<Action>)
    requires AllOver(c) && token in c.flights && Armed(c, c.flights[token])
    ensures NoIngest(acts) && StatusOf(Run(c, acts)) != StatusOf(c)
  {
    var first, second;
    match c.flights[token] {
      case RecheckChecked(_, _) => first, second := WriteRow(token), Crash(token);
      case RecheckWritten(_, _) => first, second := FinishRecheck(0, token), AddJob(0, token);
      case RecheckAcked => first, second := AddJob(0, token), Crash(token);
      case CheckoutChecked(_, _, _) => first, second := WriteRow(token), FinishCheckout(0, token);
      case CheckoutWritten(_, _, _) => first, second := FinishCheckout(0, token), Crash(token);
      case Projecting => first, second := FinishProjection(0, token), Crash(token);
    }
    RunTwo(c, first, second);
    acts := [first, second];
  }

  /**
    Expiry freezes the offer, exactly: after the batch of an expiry no later steps except an ingest change the
    state of the offer, its queue row or its checkout job, if and only if no armed completion or projection is
    in flight.
  */
  lemma ExpiryFreezesIff(c: Case, token: nat)
    requires token in c.flights && c.flights[token].Expiring?
    ensures var u := EndExpire(c, token);
            && AllOver(u)
            && ((forall acts :: NoIngest(acts) ==> StatusOf(Run(u, acts)) == StatusOf(u))
                <==> forall other :: other in u.flights ==> !Armed(u, u.flights[other]))
  {
    var u := EndExpire(c, token);
    if Calm(u) {
      forall acts | NoIngest(acts) ensures StatusOf(Run(u, acts)) == StatusOf(u) { CalmRun(u, acts); }
    } else {
      var other :| other in u.flights && Armed(u, u.flights[other]);
      var acts := ArmedMoves(u, other);
    }
  }

  /** Both statements of an expiry with nothing in between. */
  lemma ExpiryIsRun(c: Case, now: int, token: nat)
    requires token !in c.flights
    ensures Run(c, [StartExpire(now, token), FinishExpire(token)]) == ExpireStep(c, now)
  {
    RunTwo(c, StartExpire(now, token), FinishExpire(token));
    if ExpiryFires(c, now) { assert BeginExpire(c, now, token).flights - {token} == c.flights; }
  }

  /** In particular, with nothing in flight the freeze is unconditional, and all three rows are over. */
  lemma QuietExpiryFreezes(c: Case, now: int, acts: seq<Action>)
    requires ExpiryFires(c, now) && c.flights == map[] && NoIngest(acts)
    ensures var u := Run(ExpireStep(c, now), acts);
            StatusOf(u) == StatusOf(ExpireStep(c, now)) && AllOver(u)
  {
    CalmRun(ExpireStep(c, now), acts);
  }

  // ----- whether an offer is still overdue when its expiry is written -----

  predicate Overdue(o: Offer, now: int) { ExpiryReason(o.seats, o.deadlines, now).Some? }

  /** A step that rewrites seats or deadlines so that nothing is overdue at `now` any more. */
  predicate Lifts(c: Case, a: Action, now: int) {
    match a
    case Ingest(_, seats, deadlines) => ExpiryReason(seats, deadlines, now).None?
    case WriteRow(token) => token in c.flights && LiftedBy(c.offer, c.flights[token], now)
    case _ => false
  }

  /** A confirming readback whose seats and deadlines, where it has them, replace what was overdue. */
  predicate LiftedBy(o: Offer, f: Flight, now: int) {
    match f
    case RecheckChecked(r, outcome) =>
      outcome.Confirmed? && ExpiryReason(Or(r.seats, o.seats), Merge(r.deadlines, o.deadlines), now).None?
    case CheckoutChecked(r, outcome, _) =>
      outcome.Confirmed? && ExpiryReason(Or(r.seats, o.seats), Merge(CheckoutDeadlines(r), o.deadlines), now).None?
    case _ => false
  }

  lemma StaysOverdueIff(c: Case, a: Action, now: int)
    requires Overdue(c.offer, now)
    ensures Overdue(Apply(c, a).offer, now) <==> !Lifts(c, a, now)
  {
    match a {
      case WriteRow(token) => WriteStaysOverdueIff(c, token, now);
      case Ingest(_, _, _) =>
      case _ => TermsUntouched(c, a);
    }
  }

  lemma WriteStaysOverdueIff(c: Case, token: nat, now: int)
    requires Overdue(c.offer, now)
    ensures Overdue(WriteOffer(c, token).offer, now)
            <==> !(token in c.flights && LiftedBy(c.offer, c.flights[token], now))
  {}

  lemma TermsUntouched(c: Case, a: Action)
    requires !a.WriteRow? && !a.Ingest?
    ensures Apply(c, a).offer.seats == c.offer.seats && Apply(c, a).offer.deadlines == c.offer.deadlines
  {}

  predicate NeverLifted(c: Case, acts: seq<Action>, now: int)
    decreases |acts|
  {
    acts == [] || (!Lifts(c, acts[0], now) && NeverLifted(Apply(c, acts[0]), acts[1..], now))
  }

  /**
    What an expiry writes off was overdue when it was read, and still is at its batch unless an ingest or a
    confirming completion in between lifted the deadlines or seats: the batch does not look again.
  */
  lemma {:induction false} ExpiredWhileOverdue(c: Case, now: int, acts: seq<Action>)
    requires Overdue(c.offer, now) && NeverLifted(c, acts, now)
    ensures Overdue(Run(c, acts).offer, now)
    decreases |acts|
  {
    if acts != [] {
      StaysOverdueIff(c, acts[0], now);
      ExpiredWhileOverdue(Apply(c, acts[0]), now, acts[1..]);
    }
  }

  /** Concretely: the booking deadline is extended after the expiry read it, and the offer is expired all the same. */
  lemma ExtendedYetExpired() returns (acts: seq<Action>)
    ensures var o := Offer(Claimed, 100, Some(5), Deadlines(Some(10), None, None), "TWD");
            var c := Run(FirstIngest(o, 0), acts);
            && |acts| == 3 && acts[0] == StartExpire(10, 0) && acts[1].Ingest? && acts[2] == FinishExpire(0)
            && c.offer.state == Expired && !Overdue(c.offer, 10)
  {
    var c := FirstIngest(Offer(Claimed, 100, Some(5), Deadlines(Some(10), None, None), "TWD"), 0);
    var extend := Ingest(10, Some(5), Deadlines(Some(20), None, None));
    acts := [StartExpire(10, 0), extend, FinishExpire(0)];
    RunThree(c, acts[0], acts[1], acts[2]);
    assert acts == [acts[0], acts[1], acts[2]];
    ExtendedThenExpired(c, Apply(Apply(c, acts[0]), extend));
  }

  lemma RunThree(c: Case, x: Action, y: Action, z: Action)
    ensures Run(c, [x, y, z]) == Apply(Apply(Apply(c, x), y), z)
  {
    RunTwo(c, x, y);
    RunTwo(Run(c, [x, y]), z, z);
    RunAppend(c, [x, y], [z]);
    assert [x, y] + [z] == [x, y, z];
  }

  lemma ExtendedThenExpired(c: Case, d: Case)
    requires c.offer == Offer(Claimed, 100, Some(5), Deadlines(Some(10), None, None), "TWD")
    requires d == IngestStep(BeginExpire(c, 10, 0), 10, Some(5), Deadlines(Some(20), None, None))
    ensures EndExpire(d, 0).offer.state == Expired && !Overdue(EndExpire(d, 0).offer, 10)
  {
    assert ExpiryFires(c, 10);
    assert d.flights[0] == Expiring(BookingPassed, 10);
  }

  function FirstState(o: Offer, now: int): OfferState {
    if ExpiryReason(o.seats, o.deadlines, now).Some? then ExpiryReason(o.seats, o.deadlines, now).value.newState
      else Claimed
  }

  function FirstIngest(o: Offer, now: int): Case {
    Case(o.(state := FirstState(o, now)), None, None, map[], map[], map[])
  }

  /** The race, concretely: a recheck passes its checks at 9, the offer expires at 10, the recheck then confirms it. */
  lemma LateRecheckRevives() returns (before: seq<Action>, after: seq<Action>)
    ensures var o := Offer(Claimed, 100, Some(5), Deadlines(Some(10), None, None), "TWD");
            var c := Run(FirstIngest(o, 0), before);
            && NoIngest(before) && NoIngest(after) && ExpiryFires(c, 10)
            && ExpireStep(c, 10).offer.state == Expired && Run(ExpireStep(c, 10), after).offer.state == SellerConfirmed
  {
    var c := FirstIngest(Offer(Claimed, 100, Some(5), Deadlines(Some(10), None, None), "TWD"), 0);
    var r := Readback(0, 7, 0, 100, None, Deadlines(None, None, None), "TWD", false);
    before := [StartProjection(0, 0), FinishProjection(0, 0), LeaseSignal(9, 7, true, true), StartRecheck(9, 1, r)];
    after := [WriteRow(1)];
    RunTwo(c, before[0], before[1]);
    var d := Apply(Apply(c, before[0]), before[1]);
    RunTwo(d, before[2], before[3]);
    assert before == [before[0], before[1]] + [before[2], before[3]];
    RunAppend(c, [before[0], before[1]], [before[2], before[3]]);
    LateWriteRevives(Run(c, before), r);
  }

  lemma LateWriteRevives(e: Case, r: Readback)
    requires 1 in e.flights && e.flights[1] == RecheckChecked(r, Confirmed)
    requires !Over(e.offer.state) && e.offer.seats == Some(5) && e.offer.deadlines == Deadlines(Some(10), None, None)
    ensures ExpiryFires(e, 10) && ExpireStep(e, 10).offer.state == Expired
    ensures Run(ExpireStep(e, 10), [WriteRow(1)]).offer.state == SellerConfirmed
  {
    RunTwo(ExpireStep(e, 10), WriteRow(1), WriteRow(1));
  }

  lemma {:induction false} RunAppend(c: Case, x: seq<Action>, y: seq<Action>)
    ensures Run(c, x + y) == Run(Run(c, x), y)
    decreases |x|
  {
    if x == [] {
      assert x + y == y;
    } else {
      RunAppend(Apply(c, x[0]), x[1..], y);
      assert (x + y)[0] == x[0] && (x + y)[1..] == x[1..] + y;
    }
  }

  /**
    A confirmation is not overdue the moment it is written: the offer it leaves would expire at once if and
    only if the stored seats were exhausted and the readback did not say otherwise.
  */
  lemma ConfirmationNotOverdue(o: Offer, r: Readback, d: Deadlines, now: int, state: OfferState)
    requires Judge(r, o.currency, Merge(d, o.deadlines), now).Confirmed?
    ensures var w := WrittenOffer(o, r, d, Confirmed, state);
            ExpiryReason(w.seats, w.deadlines, now).Some? <==> r.seats.None? && o.seats == Some(0)
  {}

  // ----- confirmation needs evidence -----

  ghost predicate SellerEvidence(c: Case) { exists id :: id in c.rechecks && c.rechecks[id].outcome.Confirmed? }

  ghost predicate CheckoutEvidence(c: Case) { exists id :: id in c.checkouts && c.checkouts[id].outcome.Confirmed? }

  /** Flights that only a confirming recheck can have started. */
  predicate AfterConfirmation(f: Flight) {
    match f
    case RecheckChecked(_, outcome) => outcome.Confirmed?
    case RecheckWritten(_, outcome) => outcome.Confirmed?
    case Projecting => false
    case Expiring(_, _) => false
    case _ => true
  }

  predicate ReproducesCheckout(f: Flight) { f.CheckoutChecked? && f.outcome.Confirmed? }

  ghost predicate Backed(c: Case) {
    && (c.offer.state == SellerConfirmed || c.offer.state == CheckoutReproduced || c.job.Some? ==> SellerEvidence(c))
    && (c.offer.state == CheckoutReproduced ==> CheckoutEvidence(c))
    && (forall token :: token in c.flights && AfterConfirmation(c.flights[token]) ==> SellerEvidence(c))
    && (forall token :: token in c.flights && ReproducesCheckout(c.flights[token]) ==> CheckoutEvidence(c))
  }

  /** Evidence is only added. */
  lemma EvidenceStays(c: Case, a: Action)
    ensures SellerEvidence(c) ==> SellerEvidence(Apply(c, a))
    ensures CheckoutEvidence(c) ==> CheckoutEvidence(Apply(c, a))
  {
    var u := Apply(c, a);
    if id :| id in c.rechecks && c.rechecks[id].outcome.Confirmed? { assert u.rechecks[id] == c.rechecks[id]; }
    if id :| id in c.checkouts && c.checkouts[id].outcome.Confirmed? { assert u.checkouts[id] == c.checkouts[id]; }
  }

  lemma StepBacked(c: Case, a: Action)
    requires Backed(c)
    ensures Backed(Apply(c, a))
  {
    match a {
      case StartRecheck(now, token, r) => RecheckBacked(c, now, token, r);
      case StartCheckout(now, token, r) => CheckoutBacked(c, now, token, r);
      case WriteRow(token) => WriteBacked(c, token);
      case FinishRecheck(now, token) => AckBacked(c, now, token);
      case AddJob(now, token) => JobBacked(c, now, token);
      case FinishCheckout(now, token) => FinishBacked(c, now, token);
      case _ => OtherBacked(c, a);
    }
  }

  lemma RecheckBacked(c: Case, now: int, token: nat, r: Readback)
    requires Backed(c)
    ensures Backed(BeginRecheck(c, now, token, r))
  {
    var u := BeginRecheck(c, now, token, r);
    EvidenceStays(c, StartRecheck(now, token, r));
    if u != c { assert r.id in u.rechecks; }
  }

  lemma CheckoutBacked(c: Case, now: int, token: nat, r: Readback)
    requires Backed(c)
    ensures Backed(BeginCheckout(c, now, token, r))
  {
    var u := BeginCheckout(c, now, token, r);
    EvidenceStays(c, StartCheckout(now, token, r));
    if u != c { assert r.id in u.checkouts; }
  }

  lemma AckBacked(c: Case, now: int, token: nat)
    requires Backed(c)
    ensures Backed(AckRecheck(c, now, token))
  {}

  lemma JobBacked(c: Case, now: int, token: nat)
    requires Backed(c)
    ensures Backed(EnqueueJob(c, now, token))
  {}

  lemma WriteBacked(c: Case, token: nat)
    requires Backed(c)
    ensures Backed(WriteOffer(c, token))
  {}

  lemma FinishBacked(c: Case, now: int, token: nat)
    requires Backed(c)
    ensures Backed(AckCheckout(c, now, token))
  {}

  /** The remaining steps start no completion and confirm nothing. */
  lemma OtherBacked(c: Case, a: Action)
    requires Backed(c)
    requires a.LeaseSignal? || a.AckQueue? || a.LeaseJob? || a.StartProjection? || a.FinishProjection? || a.Crash?
             || a.StartExpire? || a.FinishExpire? || a.Ingest?
    ensures Backed(Apply(c, a))
  {
    var u := Apply(c, a);
    assert u.rechecks == c.rechecks && u.checkouts == c.checkouts;
    assert SellerEvidence(u) <==> SellerEvidence(c);
    assert CheckoutEvidence(u) <==> CheckoutEvidence(c);
    assert forall token :: token in u.flights ==>
      || u.flights[token] == Projecting || u.flights[token].Expiring?
      || (token in c.flights && u.flights[token] == c.flights[token]);
  }

  /**
    Over every run, ingests included: an offer is SELLER_CONFIRMED, has a checkout job or is
    CHECKOUT_REPRODUCED only with a recheck that ended SELLER_CONFIRMED, and CHECKOUT_REPRODUCED only
    with a checkout that reproduced it as well.
  */
  lemma {:induction false} ConfirmationIsBacked(o: Offer, now: int, acts: seq<Action>)
    ensures var c := Run(FirstIngest(o, now), acts);
            && (c.offer.state == SellerConfirmed || c.offer.state == CheckoutReproduced || c.job.Some? ==>
              SellerEvidence(c))
            && (c.offer.state == CheckoutReproduced ==> CheckoutEvidence(c))
  {
    ExpiryMeaning(o.seats, o.deadlines, now);
    RunBacked(FirstIngest(o, now), acts);
  }

  lemma {:induction false} RunBacked(c: Case, acts: seq<Action>)
    requires Backed(c)
    ensures Backed(Run(c, acts))
    decreases |acts|
  {
    if acts != [] {
      StepBacked(c, acts[0]);
      RunBacked(Apply(c, acts[0]), acts[1..]);
    }
  }

  // ----- one job per offer, and its retries -----

  /** An offer's checkout job is created once: no later step, in any run, resets it or its attempts. */
  lemma {:induction false} JobNeverRestarts(c: Case, acts: seq<Action>)
    requires c.job.Some?
    ensures Run(c, acts).job.Some? && Run(c, acts).job.value.attempts >= c.job.value.attempts
    decreases |acts|
  {
    if acts != [] {
      var u := Apply(c, acts[0]);
      assert u.job.Some? && u.job.value.attempts >= c.job.value.attempts;
      JobNeverRestarts(u, acts[1..]);
    }
  }

  /**
    After an acknowledgement the work can be leased at t if and only if its failure was retryable below five
    attempts and the backoff is over, which takes between 30 and 240 seconds.
  */
  lemma RetryWaits(w: Work, outcome: Outcome, attempts: nat, now: int, worker: nat, t: int, seconds: int)
    requires w.state == Leased && 1 <= attempts
    ensures var settled := Settle(w, outcome, attempts, now);
            var leased := Grant(Reclaim(Some(settled), t), worker, t, seconds).value.state == Leased;
            && (leased <==> outcome == Required(true) && attempts < 5 && t >= settled.availableAt)
            && (outcome == Required(true) && attempts < 5 ==>
                  now + 30000 <= settled.availableAt <= now + 240000)
  {
    if attempts < 5 {
      assert Q.Delay(attempts) == if attempts == 1 then 30 else if attempts == 2 then 60 else if attempts == 3 then 120
        else 240 by {
        Q.DelayTable();
      }
    }
  }

  // ----- offers with unknown seats -----

  ghost predicate SeatsUnknown(acts: seq<Action>) {
    forall i :: 0 <= i < |acts| && acts[i].Ingest? ==> acts[i].seats.None?
  }

  /** Nothing was ever queued for the offer. */
  predicate Untouched(c: Case) {
    c.offer.seats.None? && c.queue.None? && c.job.None? && c.rechecks == map[] && c.checkouts == map[]
      && forall token :: token in c.flights ==> c.flights[token].Expiring?
  }

  lemma {:induction false} UntouchedRun(c: Case, acts: seq<Action>)
    requires Untouched(c) && SeatsUnknown(acts)
    ensures Untouched(Run(c, acts))
    decreases |acts|
  {
    if acts != [] {
      assert Untouched(Apply(c, acts[0]));
      UntouchedRun(Apply(c, acts[0]), acts[1..]);
    }
  }

  /** An offer whose seats no ingest states is never queued, rechecked or checked out: unknown reads as zero. */
  lemma UnknownSeatsNeverRechecked(o: Offer, now: int, acts: seq<Action>)
    requires o.seats.None? && SeatsUnknown(acts)
    ensures var c := Run(FirstIngest(o, now), acts);
            && c.queue.None? && c.job.None? && c.rechecks == map[] && c.checkouts == map[]
            && c.offer.state != SellerConfirmed && c.offer.state != CheckoutReproduced
  {
    UntouchedRun(FirstIngest(o, now), acts);
    ConfirmationIsBacked(o, now, acts);
  }

  // ----- the rows of one offer as the program updates them -----

  datatype Refusal =
    | ImmutableConflict | PartnerNotEnabled | LiveLeaseRequired | UrlNotAllowed | SellerConfirmationRequired

  datatype Reply = AlreadyRecorded(outcome: Outcome) | Recorded(outcome: Outcome) | Refused(why: Refusal)

  /** Evidence under a known id: the same worker and content get its outcome again, others a conflict. */
  function Repeated(e: Evidence, r: Readback): Reply {
    if e.worker == r.worker && e.hash == r.hash then AlreadyRecorded(e.outcome) else Refused(ImmutableConflict)
  }

  function RecheckRefusal(c: Case, r: Readback, partnerReady: bool, urlAllowed: bool, now: int): Option<Refusal> {
    if !partnerReady then Some(PartnerNotEnabled)
    else if !LiveLease(c.queue, r.worker, now) then Some(LiveLeaseRequired)
    else if !urlAllowed then Some(UrlNotAllowed) else None
  }

  function CheckoutRefusal(c: Case, r: Readback, partnerReady: bool, urlAllowed: bool, now: int): Option<Refusal> {
    if !partnerReady then Some(PartnerNotEnabled)
    else if !LiveLease(c.job, r.worker, now) then Some(LiveLeaseRequired)
    else if !urlAllowed then Some(UrlNotAllowed)
    else if c.offer.state != SellerConfirmed && c.offer.state != CheckoutReproduced
      then Some(SellerConfirmationRequired)
    else None
  }

  class Rows {
    var offer: Offer
    var queue: Option<Work>
    var job: Option<Work>
    var rechecks: map<nat, Evidence>
    var checkouts: map<nat, Evidence>
    ghost var flights: map<nat, Flight>

    ghost function Snapshot(): Case
      reads this
    {
      Case(offer, queue, job, rechecks, checkouts, flights)
    }

    constructor (o: Offer, now: int)
      ensures Snapshot() == FirstIngest(o, now)
    {
      offer, queue, job, rechecks, checkouts, flights := o.(state := FirstState(o, now)), None, None, map[], map[],
        map[];
    }

    method ExpireAgencyOffer(now: int) returns (expired: bool)
      modifies this
      ensures expired <==> ExpiryFires(old(Snapshot()), now)
      ensures Snapshot() == ExpireStep(old(Snapshot()), now)
    {
      if Over(offer.state) { return false; }
      var x := AgencyOfferExpiryReason(offer.seats, offer.deadlines, now);
      if x.None? { return false; }
      assert x.value.newState == StateFor(x.value.reason);
      offer := offer.(state := x.value.newState);
      queue, job := Kill(queue), Kill(job);
      expired := true;
    }

    method LeaseAgencyRecheck(now: int, worker: nat, chosen: bool)
      modifies this`queue
      ensures Snapshot() == LeaseQueueStep(old(Snapshot()), now, worker, true, chosen)
    {
      queue := Reclaim(queue, now);
      if chosen && Open(offer, now) { queue := Grant(queue, worker, now, 90); }
    }

    method LeaseAgencyCheckout(now: int, worker: nat, chosen: bool)
      modifies this`job
      ensures Snapshot() == LeaseJobStep(old(Snapshot()), now, worker, chosen)
    {
      job := Reclaim(job, now);
      if chosen && Open(offer, now) { job := Grant(job, worker, now, 120); }
    }

    method EnqueueAgencyCheckoutJob(now: int)
      modifies this`job
      ensures job == if old(job).None? then Some(Work(Pending, 0, None, None, now)) else old(job)
    {
      if job.None? { job := Some(Work(Pending, 0, None, None, now)); }
    }

    /** Evidence under a known id is answered from the table; otherwise the checks come in this order. */
    method CompleteAgencyRecheck(r: Readback, partnerReady: bool, urlAllowed: bool, now: int, ghost token: nat)
      returns (reply: Reply)
      requires token !in flights
      modifies this
      ensures old(r.id in rechecks) ==> reply == Repeated(old(rechecks)[r.id], r)
      ensures old(r.id !in rechecks) ==>
                (match RecheckRefusal(old(Snapshot()), r, partnerReady, urlAllowed, now)
                 case Some(why) => reply == Refused(why)
                 case None => r.id in rechecks && reply == Recorded(rechecks[r.id].outcome))
      ensures !reply.Recorded? ==> unchanged(this)
      ensures reply.Recorded? ==>
                Snapshot() == EnqueueJob(AckRecheck(WriteOffer(BeginRecheck(old(Snapshot()), now, token, r), token),
                  now, token), now, token)
    {
      if r.id in rechecks { return Repeated(rechecks[r.id], r); }
      if !partnerReady { return Refused(PartnerNotEnabled); }
      if !LiveLease(queue, r.worker, now) { return Refused(LiveLeaseRequired); }
      if !urlAllowed { return Refused(UrlNotAllowed); }
      var outcome := Judge(r, offer.currency, Merge(r.deadlines, offer.deadlines), now);
      rechecks := rechecks[r.id := Evidence(r.worker, r.hash, outcome)];
      offer := WrittenOffer(offer, r, r.deadlines, outcome, SellerConfirmed);
      queue := Some(Settle(queue.value, outcome, queue.value.attempts, now));
      if outcome.Confirmed? { EnqueueAgencyCheckoutJob(now); }
      assert flights[token := RecheckChecked(r, outcome)][token := RecheckWritten(r,
        outcome)][token := RecheckAcked] - {token} == flights;
      assert flights[token := RecheckChecked(r, outcome)][token := RecheckWritten(r, outcome)] - {token} == flights;
      reply := Recorded(outcome);
    }

    method AckCheckoutJob(outcome: Outcome, attempts: nat, now: int)
      requires job.Some?
      modifies this`job
      ensures job == Some(Settle(old(job).value, outcome, attempts, now))
    {
      job := Some(Settle(job.value, outcome, attempts, now));
    }

    method CompleteAgencyCheckout(r: Readback, partnerReady: bool, urlAllowed: bool, now: int, ghost token: nat)
      returns (reply: Reply)
      requires token !in flights
      modifies this
      ensures old(r.id in checkouts) ==> reply == Repeated(old(checkouts)[r.id], r)
      ensures old(r.id !in checkouts) ==>
                (match CheckoutRefusal(old(Snapshot()), r, partnerReady, urlAllowed, now)
                 case Some(why) => reply == Refused(why)
                 case None => r.id in checkouts && reply == Recorded(checkouts[r.id].outcome))
      ensures !reply.Recorded? ==> unchanged(this)
      ensures reply.Recorded? ==>
                Snapshot() == AckCheckout(WriteOffer(BeginCheckout(old(Snapshot()), now, token, r), token), now, token)
    {
      if r.id in checkouts { return Repeated(checkouts[r.id], r); }
      if !partnerReady { return Refused(PartnerNotEnabled); }
      if !LiveLease(job, r.worker, now) { return Refused(LiveLeaseRequired); }
      if !urlAllowed { return Refused(UrlNotAllowed); }
      if offer.state != SellerConfirmed
        && offer.state != CheckoutReproduced { return Refused(SellerConfirmationRequired); }
      var attempts := job.value.attempts;
      var outcome := Judge(r, offer.currency, Merge(CheckoutDeadlines(r), offer.deadlines), now);
      checkouts := checkouts[r.id := Evidence(r.worker, r.hash, outcome)];
      offer := WrittenOffer(offer, r, CheckoutDeadlines(r), outcome, CheckoutReproduced);
      AckCheckoutJob(outcome, attempts, now);
      assert flights[token := CheckoutChecked(r, outcome, attempts)][token := CheckoutWritten(r, outcome,
        attempts)] - {token} == flights;
      reply := Recorded(outcome);
    }

    method IngestAgencyOffer(seats: Option<nat>, deadlines: Deadlines, now: int)
      modifies this`offer
      ensures Snapshot() == IngestStep(old(Snapshot()), now, seats, deadlines)
    {
      var over := AgencyOfferExpiryReason(seats, deadlines, now);
      var state := offer.state;
      if over.Some? { state := over.value.newState; }
      else if state != SellerConfirmed && state != CheckoutReproduced { state := Claimed; }
      offer := offer.(seats := seats, deadlines := deadlines, state := state);
    }
  }
}
