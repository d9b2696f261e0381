/** The notification tables as the program updates them, one method per exported function. */
module NotificationStore {
  import opened Values
  import Q = LeaseQueue
  import opened Outbox

  datatype Reply = AckDelivered | AckRetry | AckDead

  datatype AckError = NotFound | LeaseRequired

  /** What makes a domain event unique: its type and its entity. */
  datatype Name = Name(eventType: nat, entity: nat)

  class Store {
    var intents: map<IntentId, Intent>
    var rows: map<IntentId, Q.Row>
    // The reads other invocations still hold: no statement reads these.
    ghost var acks: map<nat, Q.Ack<IntentId>>
    ghost var batches: map<nat, set<IntentId>>

    ghost function Snapshot(): Box
      reads this
    {
      Box(intents, Q.Queue(rows, acks), batches)
    }

    constructor ()
      ensures Snapshot() == EMPTY
    {
      intents, rows, acks, batches := map[], map[], map[], map[];
    }

    method EnqueueAlertIntent(id: IntentId, itinerary: Itinerary, cls: Class, now: int)
      modifies this
      ensures Snapshot() == Enqueue(old(Snapshot()), now, id, itinerary, cls)
    {
      if id !in intents {
        intents := intents[id := Intent(itinerary, cls, false, now)];
      }
    }

    method ProjectAlertIntents(now: int, limit: nat, production: bool, ghost token: nat) returns (picked: set<IntentId>)
      requires token !in batches
      modifies this
      ensures Q.Oldest(Unprojected(old(Snapshot())), limit, picked)
      ensures Snapshot()
              == MarkBatch(InsertBatch(ReadBatch(old(Snapshot()), now, token, picked), now, token, production), now,
                token)
    {
      var candidates := map id | id in intents && !intents[id].projected :: intents[id].createdAt;
      picked := Q.PickOldest(candidates, limit);
      var added := map id | id in picked && id in intents :: Q.NewRow(intents[id].cls == Deal && !production, now);
      rows := (map id | id in added :: Q.FreshRow(added[id])) + rows;
      intents := map id | id in intents :: if id in picked then intents[id].(projected := true) else intents[id];
      assert batches == batches[token := picked] - {token};
      assert added == BatchRows(old(Snapshot()), picked, now, production);
    }

    method LeaseNotifications(now: int, worker: nat, limit: nat, seconds: nat) returns (leased: set<IntentId>)
      modifies this
      ensures Q.Picks(old(Snapshot()).queue, now, limit, leased)
      ensures Snapshot() == old(Snapshot()).(queue := Q.LeaseStep(old(Snapshot()).queue, now, worker, seconds, leased))
    {
      rows, leased := Q.LeaseRows(rows, now, worker, limit, seconds, Snapshot().queue);
    }

    /** Both halves of an acknowledgement without interference in between. */
    method AckNotification(id: IntentId, worker: nat, ok: bool, retryable: bool, now: int, ghost token: nat)
      returns (r: Result<Reply, AckError>)
      requires token !in acks
      modifies this
      ensures old(id !in rows) ==> r == Err(NotFound) && unchanged(this)
      ensures old(id in rows && !Q.LiveLease(rows[id], worker, now)) ==>
                unchanged(this) && r == RepeatedReply(old(rows)[id], worker)
      ensures old(id in rows && Q.LiveLease(rows[id], worker, now)) ==>
                && Snapshot() == WriteAck(old(Snapshot()).(queue :=
                     Q.ReadAckStep(old(Snapshot()).queue, Q.Notifications, now, token, id, worker, ok, retryable)), now,
                       token)
                && r == Ok(match Q.Decide(Q.Notifications, old(rows)[id].attempts, ok, retryable, now)
                           case Deliver => AckDelivered case Retry(_, _) => AckRetry case Kill(_) => AckDead)
    {
      if id !in rows { return Err(NotFound); }
      var row := rows[id];
      if !Q.LiveLease(row, worker, now) { return RepeatedReply(row, worker); }
      assert acks[token := Q.Ack(id, worker, row.attempts,
        Q.Decide(Q.Notifications, row.attempts, ok, retryable, now))] - {token} == acks;
      var verdict := Q.Decide(Q.Notifications, row.attempts, ok, retryable, now);
      rows := rows[id := Q.SettleRow(row, verdict, row.attempts, now)];
      match verdict {
        case Deliver => r := Ok(AckDelivered);
        case Retry(_, _) => r := Ok(AckRetry);
        case Kill(_) =>
          if id in intents && intents[id].cls == Deal {
            EnqueueAlertIntent(AdminDelivery(id), Other(0), Admin, now);
          }
          r := Ok(AckDead);
      }
    }
  }

  ghost predicate Named(rows: map<nat, Q.Row>, names: map<Name, nat>) {
    && names.Values == rows.Keys
    && forall a, b :: a in names && b in names && names[a] == names[b] ==> a == b
  }

  lemma AppendStaysNamed(rows: map<nat, Q.Row>, names: map<Name, nat>, name: Name, id: nat)
    requires Named(rows, names) && name !in names && id !in rows
    ensures Named(rows[id := Q.FreshRow(Q.NewRow(false, id))], names[name := id])
  {
    var more := names[name := id];
    assert forall x :: x in names ==> more[x] == names[x];
    assert more[name] == id;
    forall v ensures v in more.Values <==> v in names.Values + {id} {
      if v in names.Values {
        var x :| x in names && names[x] == v;
        assert more[x] == v;
      }
    }
  }

  /** The domain outbox: the same queue without backoff, and every dead event raises an ADMIN intent. */
  class DomainEvents {
    var rows: map<nat, Q.Row>
    var names: map<Name, nat>
    var nextId: nat
    var alerts: set<nat>
    ghost var acks: map<nat, Q.Ack<nat>>

    ghost function Snapshot(): Q.Queue<nat>
      reads this
    {
      Q.Queue(rows, acks)
    }

    /** Ids are assigned in increasing order, the lease query orders by them, and each row has one name. */
    ghost predicate ById()
      reads this
    {
      && (forall id :: id in rows ==> id < nextId && rows[id].rank == id)
      && Named(rows, names)
    }

    constructor ()
      ensures Snapshot() == Q.Empty() && names == map[] && alerts == {} && ById()
    {
      rows, names, nextId, alerts, acks := map[], map[], 0, {}, map[];
    }

    /**
      An event of a known type and entity is ignored, whatever has become of its row. Any other is appended after
      every row in the order of the lease query.
    */
    method AppendDomainEvent(name: Name, now: int) returns (ghost id: nat)
      requires ById()
      modifies this
      ensures ById() && alerts == old(alerts)
      ensures name in old(names) ==> unchanged(this)
      ensures name !in old(names) ==>
                && names == old(names)[name := id] && (forall other :: other in old(rows) ==> other < id)
                && Snapshot() == Q.InsertStep(old(Snapshot()), now, map[id := Q.NewRow(false, id)])
    {
      id := nextId;
      if name in names { return; }
      AppendStaysNamed(rows, names, name, nextId);
      rows := rows[nextId := Q.FreshRow(Q.NewRow(false, nextId))];
      names := names[name := nextId];
      nextId := nextId + 1;
      assert rows == (map k | k in map[id := Q.NewRow(false, id)] :: Q.FreshRow(Q.NewRow(false, id))) + old(rows);
    }

    /** Of the due events, those with the smallest ids are claimed. */
    method ClaimDomainEvents(now: int, worker: nat, limit: nat, seconds: nat) returns (claimed: set<nat>)
      requires ById()
      modifies this
      ensures ById() && Q.Picks(old(Snapshot()), now, limit, claimed) && alerts == old(alerts) && names == old(names)
      ensures forall a, b :: a in claimed && b in Q.DueKeys(old(Snapshot()), now) && b !in claimed ==> a < b
      ensures Snapshot() == Q.LeaseStep(old(Snapshot()), now, worker, seconds, claimed)
    {
      rows, claimed := Q.LeaseRows(rows, now, worker, limit, seconds, Snapshot());
    }

    method AckDomainEvent(id: nat, worker: nat, ok: bool, now: int, ghost token: nat)
      returns (r: Result<Reply, AckError>)
      requires token !in acks
      modifies this
      ensures old(id !in rows) ==> r == Err(NotFound) && unchanged(this)
      ensures old(id in rows && !Q.LiveLease(rows[id], worker, now)) ==>
                unchanged(this) && r == RepeatedReply(old(rows)[id], worker)
      ensures old(id in rows && Q.LiveLease(rows[id], worker, now)) ==>
                && Snapshot() == Q.WriteAckStep(
                     Q.ReadAckStep(old(Snapshot()), Q.DomainEvents, now, token, id, worker, ok, true), now, token)
                && names == old(names)
                && alerts == (if rows[id].state == Q.Dead then old(alerts) + {id} else old(alerts))
                && r == Ok(if ok then AckDelivered else if old(rows)[id].attempts < 5 then AckRetry else AckDead)
    {
      if id !in rows { return Err(NotFound); }
      var row := rows[id];
      if !Q.LiveLease(row, worker, now) { return RepeatedReply(row, worker); }
      var verdict := Q.Decide(Q.DomainEvents, row.attempts, ok, true, now);
      assert acks[token := Q.Ack(id, worker, row.attempts, verdict)] - {token} == acks;
      rows := rows[id := Q.SettleRow(row, verdict, row.attempts, now)];
      if verdict.Kill? { alerts := alerts + {id}; }
      r := Ok(if verdict.Deliver? then AckDelivered else if verdict.Retry? then AckRetry else AckDead);
    }
  }

  /** Without a live lease, the worker that settled the row gets its state again, and any other an error. */
  function RepeatedReply(row: Q.Row, worker: nat): Result<Reply, AckError> {
    if (row.state == Q.Done || row.state == Q.Dead) && row.claimedBy == Some(worker)
    then Ok(if row.state == Q.Done then AckDelivered else AckDead)
    else Err(LeaseRequired)
  }
}
