/**
  The reconciling client of the access review service: each mutation is sent at most once, and a lost or
  conflicting reply is settled by reading back. The server may apply or drop a mutation whatever it
  replies, and any reply may be lost; nobody else writes the record. Readbacks that arrive are true.
*/
module AccessReview {
  import opened Values

  datatype Item = Audit | Review

  /** What the server holds for an item, against what the record says. */
  datatype Held = Absent | Exact | Mismatch

  /** A reply that arrives carries a status; None is a transport failure. */
  datatype Sent = Mutation(item: Item, status: Option<nat>) | Readback(item: Item, seen: Option<Held>)

  datatype Error =
    | ReadbackTransportUnknown | TransportUnknown | ReadbackMismatch | MutationRejected | PostReadbackMismatch
    | AuditPrestateMismatch | PrestateMismatch

  datatype Done = Written | Reconciled

  datatype Action = WouldWrite | Existing | Mutated(how: Done)

  predicate Success(status: nat) { 200 <= status < 300 }

  class Server {
    var audit: Held
    var review: Held
    ghost var log: seq<Sent>

    function Holds(item: Item): Held
      reads this
    {
      if item.Audit? then audit else review
    }

    /** A mutation is applied to an absent item or not; it never overwrites. */
    method Mutate(item: Item) returns (status: Option<nat>)
      modifies this
      ensures log == old(log) + [Mutation(item, status)]
      ensures Holds(item) == old(Holds(item)) || (old(Holds(item)).Absent? && Holds(item).Exact?)
      ensures forall other :: other != item ==> Holds(other) == old(Holds(other))
    {
      var applied: bool := *;
      if applied {
        if item.Audit? && audit.Absent? { audit := Exact; }
        if item.Review? && review.Absent? { review := Exact; }
      }
      status := *;
      log := log + [Mutation(item, status)];
    }

    method ReadBack(item: Item) returns (seen: Option<Held>)
      modifies this`log
      ensures log == old(log) + [Readback(item, seen)]
      ensures seen.Some? ==> seen.value == Holds(item)
    {
      seen := *;
      if seen.Some? { seen := Some(Holds(item)); }
      log := log + [Readback(item, seen)];
    }
  }

  ghost predicate MutatesOnce(sent: seq<Sent>, item: Item) {
    forall i, j :: 0 <= i < j < |sent| ==>
      !(sent[i].Mutation? && sent[i].item == item && sent[j].Mutation? && sent[j].item == item)
  }

  ghost predicate NoMutation(sent: seq<Sent>, item: Item) {
    forall i :: 0 <= i < |sent| ==> !(sent[i].Mutation? && sent[i].item == item)
  }

  /** At most one mutation of the item, then at most one readback of it. */
  ghost predicate Exchange(sent: seq<Sent>, item: Item) {
    && |sent| <= 2 && (sent != [] ==> sent[0].Mutation? && sent[0].item == item)
    && (|sent| == 2 ==> sent[1].Readback? && sent[1].item == item)
  }

  /** One mutation, then a readback unless the reply was a plain rejection. */
  method MutateOnceThenReconcile(server: Server, item: Item) returns (r: Result<Done, Error>, ghost sent: seq<Sent>)
    modifies server
    ensures server.log == old(server.log) + sent && sent != [] && Exchange(sent, item)
    ensures r.Ok? ==> server.Holds(item).Exact? && |sent| == 2 && sent[1] == Readback(item, Some(Exact))
    ensures r == Ok(Written) ==> sent[0].status.Some? && Success(sent[0].status.value)
    ensures r == Ok(Reconciled) ==> sent[0].status.None? || sent[0].status == Some(409)
    ensures r == Err(TransportUnknown) ==> sent[0].status.None? && server.Holds(item).Absent?
    ensures r == Err(MutationRejected) ==> sent[0].status.Some? && !Success(sent[0].status.value)
    ensures server.Holds(item) == old(server.Holds(item))
            || (old(server.Holds(item)).Absent? && server.Holds(item).Exact?)
    ensures forall other :: other != item ==> server.Holds(other) == old(server.Holds(other))
  {
    var status := server.Mutate(item);
    sent := [Mutation(item, status)];
    if status.Some? && !Success(status.value) && status.value != 409 { return Err(MutationRejected), sent; }
    var seen := server.ReadBack(item);
    sent := sent + [Readback(item, seen)];
    if seen.None? { return Err(ReadbackTransportUnknown), sent; }
    if status.None? {
      r := if seen.value.Exact? then Ok(Reconciled)
        else Err(if seen.value.Absent? then TransportUnknown else ReadbackMismatch);
    } else if status.value == 409 {
      r := if seen.value.Exact? then Ok(Reconciled) else Err(MutationRejected);
    } else {
      r := if seen.value.Exact? then Ok(Written) else Err(PostReadbackMismatch);
    }
  }

  /** Each mutation of the review comes after a readback that found the audit exact. */
  ghost predicate AuditFirst(sent: seq<Sent>) {
    forall i :: 0 <= i < |sent| && sent[i].Mutation? && sent[i].item.Review? ==>
      exists j :: 0 <= j < i && sent[j] == Readback(Audit, Some(Exact))
  }

  /** What the messages of one record must obey. */
  ghost predicate Proper(sent: seq<Sent>) {
    MutatesOnce(sent, Audit) && MutatesOnce(sent, Review) && AuditFirst(sent)
  }

  lemma AuditPartProper(x: Option<Held>, audit: seq<Sent>)
    requires Exchange(audit, Audit)
    ensures Proper([Readback(Audit, x)] + audit) && NoMutation([Readback(Audit, x)] + audit, Review)
    ensures audit == [] ==> NoMutation([Readback(Audit, x)] + audit, Audit)
  {}

  lemma ReviewPartProper(first: seq<Sent>, y: Option<Held>, review: seq<Sent>)
    requires Proper(first) && NoMutation(first, Review) && Exchange(review, Review)
    requires exists j :: 0 <= j < |first| && first[j] == Readback(Audit, Some(Exact))
    ensures Proper(first + ([Readback(Review, y)] + review))
    ensures NoMutation(first, Audit) ==> NoMutation(first + ([Readback(Review, y)] + review), Audit)
    ensures review == [] ==> NoMutation(first + ([Readback(Review, y)] + review), Review)
  {
    var all := first + ([Readback(Review, y)] + review);
    var j :| 0 <= j < |first| && first[j] == Readback(Audit, Some(Exact));
    assert all[j] == first[j];
    assert forall i :: 0 <= i < |first| ==> all[i] == first[i];
    assert forall i :: |first| <= i < |all| && all[i].Mutation? ==> i == |first| + 1 && all[i].item == Review;
  }

  /**
    Processing a record sends at most one audit and one review mutation, each only for an item that was
    absent, and the review never before an exact readback of the audit. A normal return (not a dry run)
    means the server holds both exactly; what is exact stays exact and is never sent again, so a
    repeated run after any failure sends nothing further for it.
  */
  method ProcessRecord(server: Server, dryRun: bool) returns (r: Result<(Action, Action), Error>, ghost sent: seq<Sent>)
    modifies server
    ensures server.log == old(server.log) + sent && Proper(sent)
    ensures dryRun || !old(server.audit).Absent? ==> NoMutation(sent, Audit)
    ensures dryRun || !old(server.review).Absent? ==> NoMutation(sent, Review)
    ensures r.Ok? && !dryRun ==> server.audit.Exact? && server.review.Exact?
    ensures r.Ok? && dryRun ==>
            (r.value.0 == Existing <==> server.audit.Exact?) && (r.value.1 == Existing ==> server.review.Exact?)
    ensures server.audit == old(server.audit) || (!dryRun && old(server.audit).Absent? && server.audit.Exact?)
    ensures server.review == old(server.review) || (!dryRun && old(server.review).Absent? && server.review.Exact?)
    ensures old(server.audit).Mismatch? ==> r.Err?
    ensures old(server.review).Mismatch? && !dryRun ==> r.Err?
  {
    var auditSeen := server.ReadBack(Audit);
    AuditPartProper(auditSeen, []);
    sent := [Readback(Audit, auditSeen)] + [];
    if auditSeen.None? { return Err(ReadbackTransportUnknown), sent; }
    if auditSeen.value.Mismatch? { return Err(AuditPrestateMismatch), sent; }
    var auditAction := Existing;
    if auditSeen.value.Absent? {
      if dryRun { return Ok((WouldWrite, WouldWrite)), sent; }
      var how;
      ghost var audit;
      how, audit := MutateOnceThenReconcile(server, Audit);
      AuditPartProper(auditSeen, audit);
      assert server.Holds(Review) == server.review;
      sent := [Readback(Audit, auditSeen)] + audit;
      if how.Err? { return Err(how.error), sent; }
      auditAction := Mutated(how.value);
    }
    assert sent[|sent| - 1] == Readback(Audit, Some(Exact));
    ghost var first := sent;
    var reviewSeen := server.ReadBack(Review);
    ReviewPartProper(first, reviewSeen, []);
    sent := first + ([Readback(Review, reviewSeen)] + []);
    if reviewSeen.None? { return Err(ReadbackTransportUnknown), sent; }
    if reviewSeen.value.Mismatch? { return Err(PrestateMismatch), sent; }
    if !reviewSeen.value.Absent? || dryRun {
      return Ok((auditAction, if reviewSeen.value.Absent? then WouldWrite else Existing)), sent;
    }
    var how;
    ghost var review;
    how, review := MutateOnceThenReconcile(server, Review);
    ReviewPartProper(first, reviewSeen, review);
    sent := first + ([Readback(Review, reviewSeen)] + review);
    assert server.Holds(Audit) == server.audit;
    r := if how.Err? then Err(how.error) else Ok((auditAction, Mutated(how.value)));
  }
}
