/**
  The leased retry queue shared by the notification and the domain outbox: reclaim expired leases,
  lease due rows, and acknowledge in two micro-steps (read and decide, then a guarded update), so
  that leases, reclaims and acknowledgements of several workers interleave freely.
*/
module LeaseQueue {
  import opened Values

  datatype State = Pending | Leased | Done | Dead | Cancelled | Held

  /** How a lease ended; `read` is the attempt count the acknowledging worker had read. */
  datatype Outcome = Expired | Delivered | Retried(read: nat, delay: int) | Failed(read: nat, retryable: bool)

  datatype Ending = Ending(at: int, outcome: Outcome)

  /** One grant of a row to a worker: part of the auxiliary log, which no step of the program reads. */
  datatype Lease = Lease(worker: nat, from: int, until: int, ending: Option<Ending>)

  /** `rank` is what the lease query orders by: a notification's creation time, a domain event's id. */
  datatype Row = Row(
    state: State, attempts: nat, claimedBy: Option<nat>, leaseUntil: Option<int>, nextAttempt: Option<int>,
    rank: int, log: seq<Lease>)

  datatype Verdict = Deliver | Retry(next: Option<int>, delay: int) | Kill(retryable: bool)

  /** An acknowledgement between its read and its guarded update. */
  datatype Ack<K> = Ack(key: K, worker: nat, read: nat, verdict: Verdict)

  datatype Queue<!K> = Queue(rows: map<K, Row>, acks: map<nat, Ack<K>>)

  /** Domain events retry at once and ignore `retryable`; notifications back off. */
  datatype Policy = Notifications | DomainEvents

  const MAX_ATTEMPTS := 5

  function Pow2(n: nat): nat { if n == 0 then 1 else 2 * Pow2(n - 1) }

  /** Seconds to wait after a failure of the given attempt. */
  function Delay(attempts: nat): int { Min(3600, 30 * Pow2(Max(0, attempts - 1))) }

  // ----- steps -----

  function CloseLast(log: seq<Lease>, at: int, outcome: Outcome): seq<Lease> {
    if log == [] then []
    else log[..|log| - 1] + [log[|log| - 1].(ending := Some(Ending(at, outcome)))]
  }

  function ReclaimRow(r: Row, now: int): Row {
    if r.state == Leased && r.leaseUntil.Some? && r.leaseUntil.value <= now then
      r.(state := Pending, claimedBy := None, leaseUntil := None, log := CloseLast(r.log, now, Expired))
    else r
  }

  predicate Due(r: Row, now: int) {
    r.state == Pending && (r.nextAttempt.Some? ==> r.nextAttempt.value <= now)
  }

  function GrantRow(r: Row, worker: nat, now: int, seconds: nat): Row {
    r.(state := Leased, claimedBy := Some(worker), leaseUntil := Some(now + 1000 * seconds), attempts := r.attempts + 1,
       log := r.log + [Lease(worker, now, now + 1000 * seconds, None)])
  }

  /** The due rows after reclaiming. */
  ghost function DueKeys<K>(q: Queue<K>, now: int): set<K> {
    set k | k in q.rows && Due(ReclaimRow(q.rows[k], now), now)
  }

  /** What `ORDER BY created_at LIMIT n` can return: ties are broken arbitrarily. */
  ghost predicate Oldest<K>(created: map<K, int>, limit: nat, picked: set<K>) {
    && picked <= created.Keys
    && |picked| == Min(limit, |created.Keys|)
    && forall a, b :: a in picked && b in created.Keys - picked ==> created[a] <= created[b]
  }

  ghost predicate Picks<K>(q: Queue<K>, now: int, limit: nat, picked: set<K>) {
    && picked <= DueKeys(q, now)
    && |picked| == Min(limit, |DueKeys(q, now)|)
    && forall a, b :: a in picked && b in DueKeys(q, now) && b !in picked ==> q.rows[a].rank <= q.rows[b].rank
  }

  method OldestOf<K>(created: map<K, int>, rest: set<K>) returns (k: K)
    requires rest != {} && rest <= created.Keys
    ensures k in rest && forall b :: b in rest ==> created[k] <= created[b]
  {
    k :| k in rest;
    var others := rest - {k};
    while others != {}
      invariant k in rest && others <= rest
      invariant forall b :: b in rest - others ==> created[k] <= created[b]
      decreases |others|
    {
      var b :| b in others;
      if created[b] < created[k] { k := b; }
      others := others - {b};
    }
  }

  /** Selection by repeatedly taking an oldest remaining candidate. */
  method PickOldest<K>(created: map<K, int>, limit: nat) returns (picked: set<K>)
    ensures Oldest(created, limit, picked)
  {
    picked := {};
    var rest := created.Keys;
    while rest != {} && |picked| < limit
      invariant picked + rest == created.Keys && picked !! rest && |picked| <= limit
      invariant forall a, b :: a in picked && b in rest ==> created[a] <= created[b]
      decreases |rest|
    {
      var k := OldestOf(created, rest);
      picked, rest := picked + {k}, rest - {k};
    }
    assert created.Keys - picked == rest;
    assert |created.Keys| == |picked| + |rest|;
  }

  function LeaseStep<K>(q: Queue<K>, now: int, worker: nat, seconds: nat, picked: set<K>): Queue<K> {
    q.(rows := map k | k in q.rows ::
         var r := ReclaimRow(q.rows[k], now);
         if k in picked then GrantRow(r, worker, now, seconds) else r)
  }

  /** The two update statements of a lease call: reclaim what ran out, then grant what the subquery picks. */
  method LeaseRows<K>(rows: map<K, Row>, now: int, worker: nat, limit: nat, seconds: nat, ghost q: Queue<K>)
    returns (after: map<K, Row>, leased: set<K>)
    requires q.rows == rows
    ensures Picks(q, now, limit, leased) && after == LeaseStep(q, now, worker, seconds, leased).rows
  {
    var reclaimed := map k | k in rows :: ReclaimRow(rows[k], now);
    var due := map k | k in reclaimed && Due(reclaimed[k], now) :: reclaimed[k].rank;
    assert due.Keys == DueKeys(q, now);
    leased := PickOldest(due, limit);
    after := map k | k in reclaimed ::
      if k in leased then GrantRow(reclaimed[k], worker, now, seconds) else reclaimed[k];
  }

  predicate LiveLease(r: Row, worker: nat, now: int) {
    r.state == Leased && r.claimedBy == Some(worker) && r.leaseUntil.Some? && r.leaseUntil.value > now
  }

  function Decide(policy: Policy, attempts: nat, ok: bool, retryable: bool, now: int): Verdict {
    if ok then Deliver
    else if (policy.DomainEvents? || retryable) && attempts < MAX_ATTEMPTS then
      if policy.DomainEvents? then Retry(None, 0) else Retry(Some(now + 1000 * Delay(attempts)), Delay(attempts))
    else Kill(policy.DomainEvents? || retryable)
  }

  /** The read half: nothing is recorded when the worker holds no live lease. */
  function ReadAckStep<K>(q: Queue<K>, policy: Policy, now: int, token: nat, k: K, worker: nat, ok: bool,
    retryable: bool): Queue<K> {
    if k in q.rows && LiveLease(q.rows[k], worker, now) then
      var attempts := q.rows[k].attempts;
      q.(acks := q.acks[token := Ack(k, worker, attempts, Decide(policy, attempts, ok, retryable, now))])
    else q
  }

  function SettleRow(r: Row, a: Verdict, read: nat, now: int): Row {
    match a
    case Deliver => r.(state := Done, leaseUntil := None, log := CloseLast(r.log, now, Delivered))
    case Retry(next, delay) =>
      r.(state := Pending, claimedBy := None, leaseUntil := None,
         nextAttempt := if next.Some? then next else r.nextAttempt, log := CloseLast(r.log, now, Retried(read, delay)))
    case Kill(retryable) => r.(state := Dead, leaseUntil := None, log := CloseLast(r.log, now, Failed(read, retryable)))
  }

  /** The guard of the update: the row is still leased to that worker, under this or a later lease. */
  predicate Guard<K>(q: Queue<K>, a: Ack<K>) {
    a.key in q.rows && q.rows[a.key].state == Leased && q.rows[a.key].claimedBy == Some(a.worker)
  }

  function WriteAckStep<K>(q: Queue<K>, now: int, token: nat): Queue<K> {
    if token !in q.acks then q
    else
      var a := q.acks[token];
      q.(acks := q.acks - {token},
         rows := if Guard(q, a) then q.rows[a.key := SettleRow(q.rows[a.key], a.verdict, a.read, now)] else q.rows)
  }

  /** New rows start held or pending; inserting an existing key does nothing. */
  function InsertStep<K>(q: Queue<K>, now: int, added: map<K, NewRow>): Queue<K> {
    q.(rows := (map k | k in added :: FreshRow(added[k])) + q.rows)
  }

  datatype NewRow = NewRow(held: bool, rank: int)

  function FreshRow(x: NewRow): Row { Row(if x.held then Held else Pending, 0, None, None, None, x.rank, []) }

  function CancelRow(r: Row): Row {
    if r.state == Pending || r.state == Held then r.(state := Cancelled, leaseUntil := None) else r
  }

  function CancelStep<K>(q: Queue<K>, keys: set<K>): Queue<K> {
    q.(rows := map k | k in q.rows :: if k in keys then CancelRow(q.rows[k]) else q.rows[k])
  }

  datatype Action<!K> =
    | LeaseBatch(now: int, worker: nat, seconds: nat, limit: nat, picked: set<K>)
    | ReadAck(now: int, token: nat, key: K, worker: nat, ok: bool, retryable: bool)
    | WriteAck(now: int, token: nat)
    | DropAck(now: int, token: nat)
    | Insert(now: int, rows: map<K, NewRow>)
    | Cancel(now: int, keys: set<K>)

  /** DropAck: the invocation holding the acknowledgement crashed before its update. */
  function Apply<K>(q: Queue<K>, policy: Policy, a: Action<K>): Queue<K> {
    match a
    case LeaseBatch(now, worker, seconds, _, picked) => LeaseStep(q, now, worker, seconds, picked)
    case ReadAck(now, token, k, worker, ok, retryable) => ReadAckStep(q, policy, now, token, k, worker, ok, retryable)
    case WriteAck(now, token) => WriteAckStep(q, now, token)
    case DropAck(now, token) => q.(acks := q.acks - {token})
    case Insert(now, rows) => InsertStep(q, now, rows)
    case Cancel(_, keys) => CancelStep(q, keys)
  }

  /** A lease takes rows the subquery can return. Each invocation brings a time of its own, in no order. */
  ghost predicate Enabled<K>(q: Queue<K>, a: Action<K>) {
    a.LeaseBatch? ==> Picks(q, a.now, a.limit, a.picked)
  }

  function Run<K>(q: Queue<K>, policy: Policy, acts: seq<Action<K>>): Queue<K>
    decreases |acts|
  {
    if acts == [] then q else Run(Apply(q, policy, acts[0]), policy, acts[1..])
  }

  ghost predicate Legal<K>(q: Queue<K>, policy: Policy, acts: seq<Action<K>>)
    decreases |acts|
  {
    acts == [] || (Enabled(q, acts[0]) && Legal(Apply(q, policy, acts[0]), policy, acts[1..]))
  }

  function Empty<K>(): Queue<K> { Queue(map[], map[]) }

  // ----- the log of a row tells the truth -----

  /** Every lease but the last has ended. */
  ghost predicate LogClosed(log: seq<Lease>) { forall i :: 0 <= i < |log| - 1 ==> log[i].ending.Some? }

  ghost predicate LeaseOk(l: Lease) {
    l.ending.Some? && l.ending.value.outcome.Expired? ==> l.until <= l.ending.value.at
  }

  /** A row is leased exactly while its last lease is open, and to the worker of that lease. */
  ghost predicate RowOk(r: Row) {
    && |r.log| == r.attempts
    && LogClosed(r.log)
    && (forall i :: 0 <= i < |r.log| ==> LeaseOk(r.log[i]))
    && (r.state == Leased <==> r.log != [] && r.log[|r.log| - 1].ending.None?)
    && (r.state == Leased ==>
          && r.claimedBy == Some(r.log[|r.log| - 1].worker)
          && r.leaseUntil == Some(r.log[|r.log| - 1].until))
  }

  ghost predicate QueueOk<K>(q: Queue<K>) { forall k :: k in q.rows ==> RowOk(q.rows[k]) }

  lemma CloseLastOk(r: Row, now: int, outcome: Outcome)
    requires RowOk(r) && r.state == Leased
    requires outcome.Expired? ==> r.log[|r.log| - 1].until <= now
    ensures var log := CloseLast(r.log, now, outcome);
            && |log| == |r.log| && LogClosed(log) && log[|log| - 1].ending.Some?
            && (forall i :: 0 <= i < |log| ==> LeaseOk(log[i]))
            && (forall i :: 0 <= i < |log| - 1 ==> log[i] == r.log[i])
            && log[|log| - 1] == r.log[|log| - 1].(ending := Some(Ending(now, outcome)))
  {}

  lemma ReclaimOk(r: Row, now: int)
    requires RowOk(r)
    ensures RowOk(ReclaimRow(r, now))
  {
    if ReclaimRow(r, now) != r { CloseLastOk(r, now, Expired); }
  }

  function OutcomeOf(v: Verdict, read: nat): Outcome {
    match v
    case Deliver => Delivered
    case Retry(_, delay) => Retried(read, delay)
    case Kill(retryable) => Failed(read, retryable)
  }

  /** Everything one step can do to one row. */
  datatype Change = Same | Reclaimed | Granted(worker: nat, seconds: nat) | SettledBy(v: Verdict, read: nat) | Withdrawn

  function Changed(r: Row, c: Change, now: int): Row {
    match c
    case Same => r
    case Reclaimed => ReclaimRow(r, now)
    case Granted(worker, seconds) => GrantRow(ReclaimRow(r, now), worker, now, seconds)
    case SettledBy(v, read) => SettleRow(r, v, read, now)
    case Withdrawn => CancelRow(r)
  }

  function ChangeOf<K>(q: Queue<K>, a: Action<K>, k: K): Change {
    match a
    case LeaseBatch(_, worker, seconds, _, picked) => if k in picked then Granted(worker, seconds) else Reclaimed
    case WriteAck(_, token) =>
      if token in q.acks && q.acks[token].key == k && Guard(q, q.acks[token])
      then SettledBy(q.acks[token].verdict, q.acks[token].read) else Same
    case Cancel(_, keys) => if k in keys then Withdrawn else Same
    case _ => Same
  }

  lemma ApplyChanges<K>(q: Queue<K>, policy: Policy, a: Action<K>, k: K)
    requires k in q.rows
    ensures k in Apply(q, policy, a).rows
    ensures Apply(q, policy, a).rows[k] == Changed(q.rows[k], ChangeOf(q, a, k), a.now)
  {}

  /** The changes a row in this state can undergo. */
  ghost predicate Possible(r: Row, c: Change, now: int) {
    && (c.SettledBy? ==> r.state == Leased)
    && (c.Granted? ==> Due(ReclaimRow(r, now), now))
  }

  lemma ChangeOk(r: Row, c: Change, now: int)
    requires RowOk(r) && Possible(r, c, now)
    ensures RowOk(Changed(r, c, now))
  {
    match c {
      case Same =>
      case Reclaimed => ReclaimOk(r, now);
      case Granted(worker, seconds) =>
        ReclaimOk(r, now);
        GrantOk(ReclaimRow(r, now), worker, now, seconds);
      case SettledBy(v, read) => CloseLastOk(r, now, OutcomeOf(v, read));
      case Withdrawn =>
    }
  }

  lemma GrantOk(r: Row, worker: nat, now: int, seconds: nat)
    requires RowOk(r) && Due(r, now)
    ensures RowOk(GrantRow(r, worker, now, seconds))
  {}

  lemma ApplyOk<K>(q: Queue<K>, policy: Policy, a: Action<K>)
    requires QueueOk(q) && Enabled(q, a)
    ensures QueueOk(Apply(q, policy, a))
  {
    var u := Apply(q, policy, a);
    forall k | k in u.rows ensures RowOk(u.rows[k]) {
      if k in q.rows {
        ApplyChanges(q, policy, a, k);
        ChangeOk(q.rows[k], ChangeOf(q, a, k), a.now);
      }
    }
  }

  lemma {:induction false} RunOk<K>(q: Queue<K>, policy: Policy, acts: seq<Action<K>>)
    requires QueueOk(q) && Legal(q, policy, acts)
    ensures QueueOk(Run(q, policy, acts))
    decreases |acts|
  {
    if acts != [] {
      ApplyOk(q, policy, acts[0]);
      RunOk(Apply(q, policy, acts[0]), policy, acts[1..]);
    }
  }

  lemma DelayTable()
    ensures Delay(1) == 30 && Delay(2) == 60 && Delay(3) == 120 && Delay(4) == 240
  {
    assert Pow2(1) == 2 && Pow2(2) == 4 && Pow2(3) == 8;
  }

  lemma {:induction false} RunAppend<K>(q: Queue<K>, policy: Policy, a: seq<Action<K>>, b: seq<Action<K>>)
    requires Legal(q, policy, a) && Legal(Run(q, policy, a), policy, b)
    ensures Legal(q, policy, a + b) && Run(q, policy, a + b) == Run(Run(q, policy, a), policy, b)
    decreases |a|
  {
    if a == [] {
      assert a + b == b;
    } else {
      RunAppend(Apply(q, policy, a[0]), policy, a[1..], b);
      assert (a + b)[0] == a[0] && (a + b)[1..] == a[1..] + b;
    }
  }

  lemma OneStep<K>(q: Queue<K>, policy: Policy, a: Action<K>)
    requires Enabled(q, a)
    ensures Legal(q, policy, [a]) && Run(q, policy, [a]) == Apply(q, policy, a)
  {
    assert [a][1..] == [];
  }

  lemma TwoSteps<K>(q: Queue<K>, policy: Policy, a: Action<K>, b: Action<K>)
    requires Enabled(q, a) && Enabled(Apply(q, policy, a), b)
    ensures Legal(q, policy, [a, b]) && Run(q, policy, [a, b]) == Apply(Apply(q, policy, a), policy, b)
  {
    var u := Apply(q, policy, a);
    assert [a, b][1..] == [b] && [b][1..] == [];
    assert Run(q, policy, [a, b]) == Run(u, policy, [b]) == Run(Apply(u, policy, b), policy, []);
  }

  // ----- fencing -----

  /** A guarded update changes at most its own row, and that only while its worker holds the last lease. */
  lemma AckIsFenced<K>(q: Queue<K>, now: int, token: nat, k: K)
    requires QueueOk(q) && k in q.rows && WriteAckStep(q, now, token).rows[k] != q.rows[k]
    ensures token in q.acks && q.acks[token].key == k
    ensures q.rows[k].state == Leased
    ensures var l := q.rows[k].log[q.rows[k].attempts - 1]; l.ending.None? && l.worker == q.acks[token].worker
  {}

  predicate Settled(s: State) { s == Done || s == Dead || s == Cancelled }

  /**
    Settled rows never change again, and held rows are at most cancelled: neither is ever leased,
    however rows are inserted later (the deployment mode only enters through `held`).
  */
  lemma {:induction false} SettledForever<K>(q: Queue<K>, policy: Policy, acts: seq<Action<K>>, k: K)
    requires Legal(q, policy, acts) && k in q.rows
    requires Settled(q.rows[k].state) || q.rows[k].state == Held
    ensures k in Run(q, policy, acts).rows
    ensures var r := Run(q, policy, acts).rows[k];
            && (Settled(q.rows[k].state) ==> r == q.rows[k])
            && (q.rows[k].state == Held ==> r == q.rows[k] || r == CancelRow(q.rows[k]))
    decreases |acts|
  {
    if acts != [] {
      var u := Apply(q, policy, acts[0]);
      assert k in u.rows && (u.rows[k] == q.rows[k] || (q.rows[k].state == Held && u.rows[k] == CancelRow(q.rows[k])));
      SettledForever(u, policy, acts[1..], k);
    }
  }
}
