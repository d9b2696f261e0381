/**
  Alert intents and the notification outbox. Intents are projected into the outbox in three micro-steps
  (read a batch, insert its rows, mark its intents); the outbox itself is a lease queue.
*/
module Outbox {
  import opened Values
  import Q = LeaseQueue
  import opened ProviderResults

  /** The itinerary an alert is about: the direct itinerary of a verification key, or any other. */
  datatype Itinerary = Direct(key: Key) | Other(n: nat)

  datatype Class = Deal | Admin

  /** Intent ids are built from what they report, so equal ids mean the same report. */
  datatype IntentId =
    | Business(n: nat)
    | Correction(key: Key, offer: nat)
    | AdminRefresh(key: Key, offer: nat)
    | AdminDelivery(of: IntentId)

  datatype Intent = Intent(itinerary: Itinerary, cls: Class, projected: bool, createdAt: int)

  datatype Box = Box(intents: map<IntentId, Intent>, queue: Q.Queue<IntentId>, batches: map<nat, set<IntentId>>)

  // ----- steps -----

  /** Enqueueing an existing intent does nothing. */
  function Enqueue(b: Box, now: int, id: IntentId, itinerary: Itinerary, cls: Class): Box {
    if id in b.intents then b else b.(intents := b.intents[id := Intent(itinerary, cls, false, now)])
  }

  function Unprojected(b: Box): map<IntentId, int> {
    map id | id in b.intents && !b.intents[id].projected :: b.intents[id].createdAt
  }

  function ReadBatch(b: Box, now: int, token: nat, picked: set<IntentId>): Box {
    b.(batches := b.batches[token := picked])
  }

  function Mark(intents: map<IntentId, Intent>, ids: set<IntentId>): map<IntentId, Intent> {
    map id | id in intents :: if id in ids then intents[id].(projected := true) else intents[id]
  }

  /** Outside production only ADMIN intents become sendable; DEAL rows are held. */
  function BatchRows(b: Box, ids: set<IntentId>, now: int, production: bool): map<IntentId, Q.NewRow> {
    map id | id in ids && id in b.intents :: Q.NewRow(b.intents[id].cls == Deal && !production, now)
  }

  function InsertBatch(b: Box, now: int, token: nat, production: bool): Box {
    b.(queue := if token in b.batches then Q.InsertStep(b.queue, now, BatchRows(b, b.batches[token], now, production))
                else b.queue)
  }

  function MarkBatch(b: Box, now: int, token: nat): Box {
    if token in b.batches
    then b.(intents := Mark(b.intents, b.batches[token]), batches := b.batches - {token}) else b
  }

  /** After the guarded update, a terminal failure of a DEAL raises an ADMIN intent, whether or not the update hit. */
  function WriteAck(b: Box, now: int, token: nat): Box {
    var settled := b.(queue := Q.WriteAckStep(b.queue, now, token));
    if token in b.queue.acks && b.queue.acks[token].verdict.Kill? && IsDeal(b, b.queue.acks[token].key)
    then Enqueue(settled, now, AdminDelivery(b.queue.acks[token].key), Other(0), Admin)
    else settled
  }

  predicate IsDeal(b: Box, id: IntentId) { id in b.intents && b.intents[id].cls == Deal }

  datatype Action =
    | Announce(now: int, n: nat, itinerary: Itinerary, cls: Class)
    | BatchRead(now: int, token: nat, limit: nat, picked: set<IntentId>)
    | BatchInsert(now: int, token: nat, production: bool)
    | BatchMark(now: int, token: nat)
    | BatchDrop(now: int, token: nat)
    | AckWrite(now: int, token: nat)
    | Plain(step: Q.Action<IntentId>)

  /** Plain covers leasing, the read half of an acknowledgement and a lost acknowledgement. */
  predicate PlainStep(a: Q.Action<IntentId>) { a.LeaseBatch? || a.ReadAck? || a.DropAck? }

  function Apply(b: Box, a: Action): Box {
    match a
    case Announce(now, n, itinerary, cls) => Enqueue(b, now, Business(n), itinerary, cls)
    case BatchRead(now, token, _, picked) => ReadBatch(b, now, token, picked)
    case BatchInsert(now, token, production) => InsertBatch(b, now, token, production)
    case BatchMark(now, token) => MarkBatch(b, now, token)
    case BatchDrop(now, token) => b.(batches := b.batches - {token})
    case AckWrite(now, token) => WriteAck(b, now, token)
    case Plain(step) => b.(queue := Q.Apply(b.queue, Q.Notifications, step))
  }

  /** A projection marks a batch only after it inserted its rows. */
  ghost predicate Enabled(b: Box, a: Action) {
    && (a.BatchRead? ==> Q.Oldest(Unprojected(b), a.limit, a.picked))
    && (a.BatchMark? && a.token in b.batches ==> forall id :: id in b.batches[a.token] ==> id in b.queue.rows)
    && (a.Plain? ==> PlainStep(a.step) && Q.Enabled(b.queue, a.step))
  }

  function Run(b: Box, acts: seq<Action>): Box
    decreases |acts|
  {
    if acts == [] then b else Run(Apply(b, acts[0]), acts[1..])
  }

  ghost predicate Legal(b: Box, acts: seq<Action>)
    decreases |acts|
  {
    acts == [] || (Enabled(b, acts[0]) && Legal(Apply(b, acts[0]), acts[1..]))
  }

  // ----- every outbox run is a run of its lease queue -----

  /** The step of the lease queue inside a step of the outbox; any other step cancels nothing. */
  ghost function QueueAction(b: Box, a: Action): Q.Action<IntentId> {
    match a
    case BatchInsert(now, token, production) =>
      if token in b.batches then Q.Insert(now, BatchRows(b, b.batches[token], now, production)) else Q.Cancel(now, {})
    case AckWrite(now, token) => Q.WriteAck(now, token)
    case Plain(step) => step
    case _ => Q.Cancel(0, {})
  }

  lemma QueueSimulates(b: Box, a: Action)
    requires Enabled(b, a)
    ensures Q.Enabled(b.queue, QueueAction(b, a))
    ensures Apply(b, a).queue == Q.Apply(b.queue, Q.Notifications, QueueAction(b, a))
  {
    assert Q.CancelStep(b.queue, {}).rows == b.queue.rows;
  }

  // ----- which notifications can still go out -----

  ghost predicate InBatch(b: Box, id: IntentId) {
    exists token :: token in b.batches && id in b.batches[token]
  }

  /** Queued or being sent, or not yet in the outbox but due to be projected into it. */
  ghost predicate CanStillSend(b: Box, id: IntentId) {
    if id in b.queue.rows then b.queue.rows[id].state == Q.Pending || b.queue.rows[id].state == Q.Leased
    else id in b.intents && (!b.intents[id].projected || InBatch(b, id))
  }

  predicate Delivered(b: Box, id: IntentId) { id in b.queue.rows && b.queue.rows[id].state == Q.Done }

  /** A silenced intent stays silenced under every step of the outbox. */
  lemma SilentStep(b: Box, a: Action, id: IntentId)
    requires Enabled(b, a) && id in b.intents && !CanStillSend(b, id)
    ensures id in Apply(b, a).intents && !CanStillSend(Apply(b, a), id)
    ensures Delivered(Apply(b, a), id) <==> Delivered(b, id)
  {
    QueueSimulates(b, a);
    if id in b.queue.rows {
      Q.ApplyChanges(b.queue, Q.Notifications, QueueAction(b, a), id);
    } else if a.BatchRead? {
      assert id !in a.picked;
    }
  }

  lemma {:induction false} SilentForever(b: Box, acts: seq<Action>, id: IntentId)
    requires Legal(b, acts) && id in b.intents && !CanStillSend(b, id)
    ensures id in Run(b, acts).intents && !CanStillSend(Run(b, acts), id)
    ensures Delivered(Run(b, acts), id) <==> Delivered(b, id)
    decreases |acts|
  {
    if acts != [] {
      SilentStep(b, acts[0], id);
      SilentForever(Apply(b, acts[0]), acts[1..], id);
    }
  }

  lemma {:induction false} RunAppend(b: Box, x: seq<Action>, y: seq<Action>)
    requires Legal(b, x) && Legal(Run(b, x), y)
    ensures Legal(b, x + y) && Run(b, x + y) == Run(Run(b, x), y)
    decreases |x|
  {
    if x == [] {
      assert x + y == y;
    } else {
      RunAppend(Apply(b, x[0]), x[1..], y);
      assert (x + y)[0] == x[0] && (x + y)[1..] == x[1..] + y;
    }
  }

  lemma OneStep(b: Box, a: Action)
    requires Enabled(b, a)
    ensures Legal(b, [a]) && Run(b, [a]) == Apply(b, a)
  {
    assert [a][1..] == [];
  }

  lemma TwoSteps(b: Box, a1: Action, a2: Action)
    requires Enabled(b, a1) && Enabled(Apply(b, a1), a2)
    ensures Legal(b, [a1, a2]) && Run(b, [a1, a2]) == Apply(Apply(b, a1), a2)
  {
    OneStep(b, a1);
    OneStep(Apply(b, a1), a2);
    RunAppend(b, [a1], [a2]);
    assert [a1] + [a2] == [a1, a2];
  }

  /** Leasing everything that is due at t leases a row that is. */
  lemma LeaseAll(b: Box, id: IntentId, worker: nat, t: int) returns (a: Action)
    requires id in b.queue.rows && Q.Due(Q.ReclaimRow(b.queue.rows[id], t), t)
    ensures Enabled(b, a)
    ensures var c := Apply(b, a);
            && id in c.queue.rows && c.queue.rows[id] == Q.GrantRow(Q.ReclaimRow(b.queue.rows[id], t), worker, t, 60)
            && c.queue.acks == b.queue.acks && c.intents == b.intents
  {
    var due := Q.DueKeys(b.queue, t);
    assert id in due;
    a := Plain(Q.LeaseBatch(t, worker, 60, |due|, due));
  }

  lemma AcknowledgeDelivers(b: Box, id: IntentId, t: int)
    requires id in b.queue.rows && Q.LiveLease(b.queue.rows[id], 0, t)
    ensures var acts := [Plain(Q.ReadAck(t, 0, id, 0, true, true)), AckWrite(t, 0)];
            Legal(b, acts) && Delivered(Run(b, acts), id)
  {
    TwoSteps(b, Plain(Q.ReadAck(t, 0, id, 0, true, true)), AckWrite(t, 0));
  }

  /** A row that is pending or leased can be driven to DELIVERED: lease everything due, late enough, and acknowledge. */
  lemma RowCanBeDelivered(b: Box, id: IntentId) returns (acts: seq<Action>)
    requires Q.QueueOk(b.queue) && id in b.queue.rows
    requires b.queue.rows[id].state == Q.Pending || b.queue.rows[id].state == Q.Leased
    ensures Legal(b, acts) && Delivered(Run(b, acts), id)
  {
    var r := b.queue.rows[id];
    assert Q.RowOk(r);
    var t := Max(if r.nextAttempt.Some? then r.nextAttempt.value else 0,
                 if r.leaseUntil.Some? then r.leaseUntil.value else 0);
    var lease := LeaseAll(b, id, 0, t);
    OneStep(b, lease);
    AcknowledgeDelivers(Apply(b, lease), id, t);
    var ack := [Plain(Q.ReadAck(t, 0, id, 0, true, true)), AckWrite(t, 0)];
    RunAppend(b, [lease], ack);
    acts := [lease] + ack;
  }

  /** An intent whose projection is pending can be projected in production mode. */
  lemma IntentCanBeQueued(b: Box, id: IntentId) returns (acts: seq<Action>)
    requires Q.QueueOk(b.queue) && id in b.intents && id !in b.queue.rows
    requires !b.intents[id].projected || InBatch(b, id)
    ensures Legal(b, acts) && Q.QueueOk(Run(b, acts).queue)
    ensures id in Run(b, acts).queue.rows && Run(b, acts).queue.rows[id].state == Q.Pending
    ensures Run(b, acts).queue.rows[id].nextAttempt.None?
    ensures id in Run(b, acts).intents && Run(b, acts).intents[id].cls == b.intents[id].cls
  {
    var now := 0;
    var token: nat;
    var c := b;
    acts := [];
    if InBatch(b, id) {
      token :| token in b.batches && id in b.batches[token];
    } else {
      token := 0;
      var all := Unprojected(b);
      var read := BatchRead(now, token, |all.Keys|, all.Keys);
      OneStep(b, read);
      c, acts := Apply(b, read), [read];
    }
    var write := BatchInsert(now, token, true);
    OneStep(c, write);
    RunAppend(b, acts, [write]);
    acts := acts + [write];
    QueueSimulates(c, write);
    Q.ApplyOk(c.queue, Q.Notifications, QueueAction(c, write));
  }

  ghost predicate DeliveredBy(b: Box, acts: seq<Action>, id: IntentId) {
    Legal(b, acts) && Delivered(Run(b, acts), id)
  }

  /** Exactness: an intent can end up DELIVERED exactly when it already is, or can still be sent. */
  lemma DeliverableIff(b: Box, id: IntentId)
    requires Q.QueueOk(b.queue) && id in b.intents
    ensures (exists acts :: DeliveredBy(b, acts, id)) <==> Delivered(b, id) || CanStillSend(b, id)
  {
    if Delivered(b, id) {
      assert DeliveredBy(b, [], id);
    } else if CanStillSend(b, id) {
      var acts := [];
      var c := b;
      if id !in b.queue.rows {
        acts := IntentCanBeQueued(b, id);
        c := Run(b, acts);
      }
      var rest := RowCanBeDelivered(c, id);
      RunAppend(b, acts, rest);
      assert DeliveredBy(b, acts + rest, id);
    } else if acts :| DeliveredBy(b, acts, id) {
      SilentForever(b, acts, id);
    }
  }

  // ----- alerts about failed deliveries -----

  /** Each delivery-failure alert names a DEAD DEAL row. */
  ghost predicate AlertsBacked(b: Box) {
    && (forall id :: id in b.queue.rows ==> id in b.intents)
    && (forall token :: token in b.queue.acks ==> b.queue.acks[token].key in b.queue.rows)
    && (forall id :: AdminDelivery(id) in b.intents ==> DeadDeal(b, id))
    && (forall id :: AdminDelivery(id) in b.intents ==> b.intents[AdminDelivery(id)].cls == Admin)
  }

  ghost predicate DeadDeal(b: Box, id: IntentId) {
    id in b.queue.rows && b.queue.rows[id].state == Q.Dead && IsDeal(b, id)
  }

  /** A terminal failure is written while its worker still holds the row. */
  ghost predicate KillsHit(b: Box, a: Action) {
    Killing(b, a) ==> Q.Guard(b.queue, b.queue.acks[a.token]) || DeadDeal(b, b.queue.acks[a.token].key)
  }

  /** A terminal failure of a DEAL is about to be written. */
  predicate Killing(b: Box, a: Action) {
    && a.AckWrite? && a.token in b.queue.acks && b.queue.acks[a.token].verdict.Kill?
    && IsDeal(b, b.queue.acks[a.token].key)
  }

  lemma DeadDealsStay(b: Box, a: Action, id: IntentId)
    requires Enabled(b, a) && DeadDeal(b, id)
    ensures DeadDeal(Apply(b, a), id)
  {
    QueueSimulates(b, a);
    Q.ApplyChanges(b.queue, Q.Notifications, QueueAction(b, a), id);
  }

  lemma RowsStayBacked(b: Box, a: Action)
    requires AlertsBacked(b) && Enabled(b, a)
    ensures var c := Apply(b, a);
            && (forall id :: id in c.queue.rows ==> id in c.intents)
            && (forall token :: token in c.queue.acks ==> c.queue.acks[token].key in c.queue.rows)
  {}

  /** The only step that raises such an alert, and what it reports. */
  lemma NewAlerts(b: Box, a: Action, id: IntentId)
    requires AdminDelivery(id) in Apply(b, a).intents
    ensures AdminDelivery(id) in b.intents || (Killing(b, a) && b.queue.acks[a.token].key == id)
    ensures AdminDelivery(id) !in b.intents ==> Apply(b, a).intents[AdminDelivery(id)].cls == Admin
    ensures AdminDelivery(id) in b.intents ==>
            Apply(b, a).intents[AdminDelivery(id)].cls == b.intents[AdminDelivery(id)].cls
  {}

  lemma KillOutcome(b: Box, a: Action)
    requires AlertsBacked(b) && Enabled(b, a) && Killing(b, a)
    ensures var id := b.queue.acks[a.token].key;
            AdminDelivery(id) in Apply(b, a).intents && (DeadDeal(Apply(b, a), id) <==> KillsHit(b, a))
  {
    Q.ApplyChanges(b.queue, Q.Notifications, QueueAction(b, a), b.queue.acks[a.token].key);
  }

  /** The alerts stay backed by dead rows exactly in the steps whose terminal failures hit. */
  lemma AlertsStep(b: Box, a: Action)
    requires AlertsBacked(b) && Enabled(b, a)
    ensures AlertsBacked(Apply(b, a)) <==> KillsHit(b, a)
  {
    var c := Apply(b, a);
    RowsStayBacked(b, a);
    if Killing(b, a) { KillOutcome(b, a); }
    if KillsHit(b, a) {
      forall id | AdminDelivery(id) in c.intents
        ensures DeadDeal(c, id) && c.intents[AdminDelivery(id)].cls == Admin
      {
        NewAlerts(b, a, id);
        if AdminDelivery(id) in b.intents { DeadDealsStay(b, a, id); }
      }
    }
  }

  ghost predicate AllKillsHit(b: Box, acts: seq<Action>)
    decreases |acts|
  {
    acts == [] || (KillsHit(b, acts[0]) && AllKillsHit(Apply(b, acts[0]), acts[1..]))
  }

  lemma {:induction false} AlertsRun(b: Box, acts: seq<Action>)
    requires AlertsBacked(b) && Legal(b, acts) && AllKillsHit(b, acts)
    ensures AlertsBacked(Run(b, acts))
    decreases |acts|
  {
    if acts != [] {
      AlertsStep(b, acts[0]);
      AlertsRun(Apply(b, acts[0]), acts[1..]);
    }
  }

  /**
    Delivery-failure alerts never outnumber dead DEAL rows and are never about each other, over every
    run in which terminal failures are written under the lease they were read in.
  */
  lemma AlertsBounded(acts: seq<Action>, alerts: set<IntentId>, dead: set<IntentId>)
    requires Legal(EMPTY, acts) && AllKillsHit(EMPTY, acts)
    requires alerts == set id | id in Run(EMPTY, acts).intents && id.AdminDelivery?
    requires dead == set id | id in Run(EMPTY, acts).queue.rows && DeadDeal(Run(EMPTY, acts), id)
    ensures |alerts| <= |dead|
    ensures forall id :: id in alerts ==> id.of in dead && !id.of.AdminDelivery?
  {
    AlertsRun(EMPTY, acts);
    var named := set id | id in alerts :: id.of;
    SameSize(alerts, named);
    assert named <= dead;
    SubsetSize(named, dead);
  }

  const EMPTY := Box(map[], Q.Queue(map[], map[]), map[])

  /**
    Without that hypothesis the alert can be false: the lease runs out between the read and the
    update, another worker takes the row, and the failure is reported for a row that is being sent.
  */
  lemma LostLeaseRaisesFalseAlert() returns (acts: seq<Action>)
    ensures Legal(EMPTY, acts)
    ensures var b := Run(EMPTY, acts);
            AdminDelivery(Business(0)) in b.intents && Business(0) in b.queue.rows &&
            b.queue.rows[Business(0)].state == Q.Leased
  {
    var id := Business(0);
    var announce := Announce(0, 0, Other(0), Deal);
    OneStep(EMPTY, announce);
    var b1 := Apply(EMPTY, announce);
    Q.ApplyOk(EMPTY.queue, Q.Notifications, QueueAction(EMPTY, announce));
    QueueSimulates(EMPTY, announce);
    var queued := IntentCanBeQueued(b1, id);
    var b2 := Run(b1, queued);
    RunAppend(EMPTY, [announce], queued);
    var rest := FailTooLate(b2, id);
    RunAppend(EMPTY, [announce] + queued, rest);
    acts := [announce] + queued + rest;
  }

  /** Lease, read the failure, let the lease run out, lease again, write. */
  lemma FailTooLate(b: Box, id: IntentId) returns (acts: seq<Action>)
    requires IsDeal(b, id) && id in b.queue.rows
    requires b.queue.rows[id].state == Q.Pending && b.queue.rows[id].nextAttempt.None?
    ensures Legal(b, acts)
    ensures var c := Run(b, acts);
            AdminDelivery(id) in c.intents && id in c.queue.rows && c.queue.rows[id].state == Q.Leased
  {
    var first := ReadFailure(b, id);
    var second := WriteLate(Run(b, first), id);
    RunAppend(b, first, second);
    acts := first + second;
  }

  /** Leased until 60000 to worker 0, whose terminal failure was read but not written. */
  ghost predicate FailureRead(b: Box, id: IntentId) {
    && IsDeal(b, id) && id in b.queue.rows
    && b.queue.rows[id].state == Q.Leased && b.queue.rows[id].leaseUntil == Some(60000)
      && b.queue.rows[id].nextAttempt.None?
    && 0 in b.queue.acks && b.queue.acks[0].key == id && b.queue.acks[0].worker == 0 && b.queue.acks[0].verdict.Kill?
  }

  lemma ReadFailure(b: Box, id: IntentId) returns (acts: seq<Action>)
    requires IsDeal(b, id) && id in b.queue.rows
    requires b.queue.rows[id].state == Q.Pending && b.queue.rows[id].nextAttempt.None?
    ensures Legal(b, acts) && FailureRead(Run(b, acts), id)
  {
    var lease := LeaseAll(b, id, 0, 0);
    var read := Plain(Q.ReadAck(0, 0, id, 0, false, false));
    TwoSteps(b, lease, read);
    acts := [lease, read];
  }

  lemma WriteLate(b: Box, id: IntentId) returns (acts: seq<Action>)
    requires FailureRead(b, id)
    ensures Legal(b, acts)
    ensures var c := Run(b, acts);
            AdminDelivery(id) in c.intents && id in c.queue.rows && c.queue.rows[id].state == Q.Leased
  {
    var again := LeaseAll(b, id, 1, 60000);
    TwoSteps(b, again, AckWrite(60000, 0));
    acts := [again, AckWrite(60000, 0)];
  }

  lemma {:induction false} SameSize(alerts: set<IntentId>, named: set<IntentId>)
    requires forall id :: id in alerts ==> id.AdminDelivery?
    requires named == set id | id in alerts :: id.of
    ensures |alerts| == |named|
  {
    if alerts != {} {
      var a :| a in alerts;
      var rest := alerts - {a};
      var others := set id | id in rest :: id.of;
      forall id | id in rest ensures id.of != a.of { assert id == AdminDelivery(id.of); }
      assert named == others + {a.of};
      SameSize(rest, others);
    }
  }

  lemma {:induction false} SubsetSize<T>(a: set<T>, b: set<T>)
    requires a <= b
    ensures |a| <= |b|
  {
    assert b == a + (b - a);
  }
}
