/** How often a row of the lease queue is retried, and how long it waits. */
module RetryBounds {
  import opened Values
  import opened LeaseQueue

  // ----- what the log of every row records -----

  predicate RetriedEntry(l: Lease) { l.ending.Some? && l.ending.value.outcome.Retried? }

  predicate FailedEntry(l: Lease) { l.ending.Some? && l.ending.value.outcome.Failed? }

  function Read(l: Lease): nat
    requires RetriedEntry(l) || FailedEntry(l)
  {
    l.ending.value.outcome.read
  }

  /** Seconds a retry waits. */
  function RetryDelay(policy: Policy, attempts: nat): int { if policy.DomainEvents? then 0 else Delay(attempts) }

  /** Entry i of a log: a retry names an attempt below the limit, and only the last lease ends for good. */
  ghost predicate EntryOk(policy: Policy, l: Lease, i: nat, last: bool) {
    && (RetriedEntry(l) ==>
          && 1 <= Read(l) < MAX_ATTEMPTS && Read(l) <= i + 1
          && l.ending.value.outcome.delay == RetryDelay(policy, Read(l)))
    && (FailedEntry(l) ==> last && Read(l) <= i + 1 && (l.ending.value.outcome.retryable ==> Read(l) >= MAX_ATTEMPTS))
    && (l.ending.Some? && l.ending.value.outcome.Delivered? ==> last)
  }

  ghost predicate RetryOk(policy: Policy, r: Row) {
    && (forall i :: 0 <= i < |r.log| ==> EntryOk(policy, r.log[i], i, i == |r.log| - 1))
    && (r.log != [] && r.log[|r.log| - 1].ending.Some? && r.state == Pending ==>
          !FailedEntry(r.log[|r.log| - 1]) && !r.log[|r.log| - 1].ending.value.outcome.Delivered?)
    && (r.state == Dead ==> r.log != [] && FailedEntry(r.log[|r.log| - 1]))
  }

  ghost predicate AckOk(policy: Policy, r: Row, read: nat, v: Verdict) {
    && 1 <= read <= r.attempts
    && (v.Retry? ==> read < MAX_ATTEMPTS && v.delay == RetryDelay(policy, read))
    && (v.Kill? && v.retryable ==> read >= MAX_ATTEMPTS)
  }

  ghost predicate LogsOk<K>(policy: Policy, q: Queue<K>) {
    && QueueOk(q)
    && (forall k :: k in q.rows ==> RetryOk(policy, q.rows[k]))
    && (forall t :: t in q.acks ==> HeldAckOk(policy, q, q.acks[t]))
  }

  ghost predicate HeldAckOk<K>(policy: Policy, q: Queue<K>, a: Ack<K>) {
    a.key in q.rows && AckOk(policy, q.rows[a.key], a.read, a.verdict)
  }

  lemma ReclaimRetryOk(policy: Policy, r: Row, now: int)
    requires RowOk(r) && RetryOk(policy, r)
    ensures RetryOk(policy, ReclaimRow(r, now)) && ReclaimRow(r, now).attempts == r.attempts
  {
    if ReclaimRow(r, now) != r { CloseLastOk(r, now, Expired); }
  }

  lemma GrantRetryOk(policy: Policy, r: Row, worker: nat, now: int, seconds: nat)
    requires RetryOk(policy, r) && |r.log| == r.attempts && Due(r, now)
    ensures RetryOk(policy, GrantRow(r, worker, now, seconds))
  {}

  lemma SettleRetryOk(policy: Policy, r: Row, v: Verdict, read: nat, now: int)
    requires RowOk(r) && RetryOk(policy, r) && r.state == Leased && AckOk(policy, r, read, v)
    ensures RetryOk(policy, SettleRow(r, v, read, now))
  {
    CloseLastOk(r, now, OutcomeOf(v, read));
  }

  lemma ChangeRetryOk(policy: Policy, r: Row, c: Change, now: int)
    requires RowOk(r) && RetryOk(policy, r) && Possible(r, c, now)
    requires c.SettledBy? ==> AckOk(policy, r, c.read, c.v)
    ensures RetryOk(policy, Changed(r, c, now)) && Changed(r, c, now).attempts >= r.attempts
  {
    match c {
      case Same =>
      case Reclaimed => ReclaimRetryOk(policy, r, now);
      case Granted(worker, seconds) =>
        ReclaimRetryOk(policy, r, now);
        ReclaimOk(r, now);
        GrantRetryOk(policy, ReclaimRow(r, now), worker, now, seconds);
      case SettledBy(v, read) => SettleRetryOk(policy, r, v, read, now);
      case Withdrawn =>
    }
  }

  lemma StepRowLog<K>(policy: Policy, q: Queue<K>, a: Action<K>, k: K)
    requires LogsOk(policy, q) && Enabled(q, a) && k in q.rows
    ensures k in Apply(q, policy, a).rows && RetryOk(policy, Apply(q, policy, a).rows[k])
    ensures Apply(q, policy, a).rows[k].attempts >= q.rows[k].attempts
  {
    var c := ChangeOf(q, a, k);
    assert c.SettledBy? ==> HeldAckOk(policy, q, q.acks[a.token]);
    ApplyChanges(q, policy, a, k);
    ChangeRetryOk(policy, q.rows[k], c, a.now);
  }

  lemma StepHeldAck<K>(policy: Policy, q: Queue<K>, a: Action<K>, t: nat)
    requires LogsOk(policy, q) && Enabled(q, a) && t in Apply(q, policy, a).acks
    ensures HeldAckOk(policy, Apply(q, policy, a), Apply(q, policy, a).acks[t])
  {
    var ack := Apply(q, policy, a).acks[t];
    if t in q.acks && q.acks[t] == ack {
      assert HeldAckOk(policy, q, ack);
      StepRowLog(policy, q, a, ack.key);
    } else {
      assert RowOk(q.rows[a.key]);
    }
  }

  lemma StepLogsOk<K>(policy: Policy, q: Queue<K>, a: Action<K>)
    requires LogsOk(policy, q) && Enabled(q, a)
    ensures LogsOk(policy, Apply(q, policy, a))
  {
    var u := Apply(q, policy, a);
    ApplyOk(q, policy, a);
    forall k | k in u.rows ensures RetryOk(policy, u.rows[k]) {
      if k in q.rows { StepRowLog(policy, q, a, k); }
    }
    forall t | t in u.acks ensures HeldAckOk(policy, u, u.acks[t]) { StepHeldAck(policy, q, a, t); }
  }

  // ----- recorded reads stay distinct, exactly -----

  ghost predicate ReadsDistinct(log: seq<Lease>) {
    forall i, j :: 0 <= i < j < |log| && RetriedEntry(log[i]) && RetriedEntry(log[j]) ==> Read(log[i]) != Read(log[j])
  }

  ghost predicate Recorded(log: seq<Lease>, read: nat) {
    exists i :: 0 <= i < |log| && RetriedEntry(log[i]) && Read(log[i]) == read
  }

  ghost predicate AllDistinct<K>(q: Queue<K>) { forall k :: k in q.rows ==> ReadsDistinct(q.rows[k].log) }

  /** A retry hits whose attempt is on record already: its worker acknowledged that lease twice. */
  ghost predicate Repeats<K>(q: Queue<K>, a: Action<K>) {
    && a.WriteAck? && a.token in q.acks && Guard(q, q.acks[a.token]) && q.acks[a.token].verdict.Retry?
    && Recorded(q.rows[q.acks[a.token].key].log, q.acks[a.token].read)
  }

  /** What closing or adding a lease does to the recorded reads. */
  lemma ClosedReads(log: seq<Lease>, at: int, outcome: Outcome)
    requires log != [] && log[|log| - 1].ending.None?
    ensures var u := CloseLast(log, at, outcome);
            if outcome.Retried? then
              && (forall read :: Recorded(u, read) <==> Recorded(log, read) || read == outcome.read)
              && (ReadsDistinct(u) <==> ReadsDistinct(log) && !Recorded(log, outcome.read))
            else
              && (forall read :: Recorded(u, read) <==> Recorded(log, read))
              && (ReadsDistinct(u) <==> ReadsDistinct(log))
  {
    var u, n := CloseLast(log, at, outcome), |log| - 1;
    assert forall i :: 0 <= i < n ==> u[i] == log[i];
    assert u[n].ending == Some(Ending(at, outcome));
    if outcome.Retried? {
      assert Recorded(u, outcome.read) by { assert RetriedEntry(u[n]); }
      if Recorded(log, outcome.read) {
        var i :| 0 <= i < |log| && RetriedEntry(log[i]) && Read(log[i]) == outcome.read;
        assert u[i] == log[i] && Read(u[n]) == outcome.read;
      }
      if ReadsDistinct(u) { DistinctFront(log, u); }
    } else {
      if ReadsDistinct(u) { DistinctFront(log, u); }
    }
    forall read | Recorded(log, read) ensures Recorded(u, read) {
      var i :| 0 <= i < |log| && RetriedEntry(log[i]) && Read(log[i]) == read;
      assert u[i] == log[i];
    }
  }

  lemma DistinctFront(log: seq<Lease>, u: seq<Lease>)
    requires log != [] && |u| == |log| && log[|log| - 1].ending.None? && ReadsDistinct(u)
    requires forall i :: 0 <= i < |log| - 1 ==> u[i] == log[i]
    ensures ReadsDistinct(log)
  {
    forall i, j | 0 <= i < j < |log| && RetriedEntry(log[i]) && RetriedEntry(log[j])
      ensures Read(log[i]) != Read(log[j]) {
      assert u[i] == log[i] && u[j] == log[j];
    }
  }

  lemma GrantedReads(log: seq<Lease>, l: Lease)
    requires l.ending.None?
    ensures (forall read :: Recorded(log + [l], read) <==> Recorded(log, read))
            && (ReadsDistinct(log + [l]) <==> ReadsDistinct(log))
  {
    var u := log + [l];
    assert u[|log|] == l && forall i :: 0 <= i < |log| ==> u[i] == log[i];
    if ReadsDistinct(u) {
      forall i, j | 0 <= i < j < |log| && RetriedEntry(log[i]) && RetriedEntry(log[j])
        ensures Read(log[i]) != Read(log[j]) {
        assert u[i] == log[i] && u[j] == log[j];
      }
    }
    forall read | Recorded(log, read) ensures Recorded(u, read) {
      var i :| 0 <= i < |log| && RetriedEntry(log[i]) && Read(log[i]) == read;
      assert u[i] == log[i];
    }
  }

  lemma ReclaimedReads(r: Row, now: int)
    requires RowOk(r)
    ensures (forall read :: Recorded(ReclaimRow(r, now).log, read) <==> Recorded(r.log, read))
    ensures ReadsDistinct(ReclaimRow(r, now).log) <==> ReadsDistinct(r.log)
  {
    if ReclaimRow(r, now) != r { ClosedReads(r.log, now, Expired); }
  }

  /** A change records at most one read: that of the retry it writes. */
  lemma ChangeReads(r: Row, c: Change, now: int)
    requires RowOk(r) && Possible(r, c, now)
    ensures var u := Changed(r, c, now).log;
            if c.SettledBy? && c.v.Retry? then
              && (forall read :: Recorded(u, read) <==> Recorded(r.log, read) || read == c.read)
              && (ReadsDistinct(u) <==> ReadsDistinct(r.log) && !Recorded(r.log, c.read))
            else
              && (forall read :: Recorded(u, read) <==> Recorded(r.log, read))
              && (ReadsDistinct(u) <==> ReadsDistinct(r.log))
  {
    match c {
      case Same =>
      case Reclaimed => ReclaimedReads(r, now);
      case Granted(worker, seconds) =>
        ReclaimedReads(r, now);
        GrantedReads(ReclaimRow(r, now).log, Lease(worker, now, now + 1000 * seconds, None));
      case SettledBy(v, read) => ClosedReads(r.log, now, OutcomeOf(v, read));
      case Withdrawn =>
    }
  }

  /** Exactly: reads stay distinct in a step if and only if it is not a retry whose read is on record. */
  lemma ReadsStayDistinctIff<K>(policy: Policy, q: Queue<K>, a: Action<K>)
    requires LogsOk(policy, q) && AllDistinct(q) && Enabled(q, a)
    ensures AllDistinct(Apply(q, policy, a)) <==> !Repeats(q, a)
  {
    var u := Apply(q, policy, a);
    forall k | k in q.rows
      ensures k in u.rows
      ensures ReadsDistinct(u.rows[k].log) <==> !(Repeats(q, a) && q.acks[a.token].key == k)
    {
      ApplyChanges(q, policy, a, k);
      ChangeReads(q.rows[k], ChangeOf(q, a, k), a.now);
    }
    forall k | k in u.rows && k !in q.rows ensures ReadsDistinct(u.rows[k].log) {
      assert u.rows[k].log == [];
    }
  }

  /** Runs without such a step. */
  ghost predicate NeverRepeats<K>(q: Queue<K>, policy: Policy, acts: seq<Action<K>>)
    decreases |acts|
  {
    acts == [] || (!Repeats(q, acts[0]) && NeverRepeats(Apply(q, policy, acts[0]), policy, acts[1..]))
  }

  lemma {:induction false} RunLogsDistinct<K>(policy: Policy, q: Queue<K>, acts: seq<Action<K>>)
    requires LogsOk(policy, q) && AllDistinct(q) && Legal(q, policy, acts) && NeverRepeats(q, policy, acts)
    ensures LogsOk(policy, Run(q, policy, acts)) && AllDistinct(Run(q, policy, acts))
    decreases |acts|
  {
    if acts != [] {
      StepLogsOk(policy, q, acts[0]);
      ReadsStayDistinctIff(policy, q, acts[0]);
      RunLogsDistinct(policy, Apply(q, policy, acts[0]), acts[1..]);
    }
  }

  // ----- bounded retries -----

  function Retries(log: seq<Lease>): nat {
    if log == [] then 0
    else Retries(log[..|log| - 1]) + if RetriedEntry(log[|log| - 1]) then 1 else 0
  }

  /** Total scheduled backoff in seconds. */
  function Backoff(log: seq<Lease>): int {
    if log == [] then 0
    else Backoff(log[..|log| - 1]) + if RetriedEntry(log[|log| - 1]) then log[|log| - 1].ending.value.outcome.delay
      else 0
  }

  /** The attempts that retries on record name. */
  function ReadSet(log: seq<Lease>): set<nat> { set i | 0 <= i < |log| && RetriedEntry(log[i]) :: Read(log[i]) }

  /** The backoff of one retry for each attempt in the set. */
  function Weight(policy: Policy, named: set<nat>): int {
    (if 1 in named then RetryDelay(policy, 1) else 0) + (if 2 in named then RetryDelay(policy, 2) else 0)
    + (if 3 in named then RetryDelay(policy, 3) else 0) + (if 4 in named then RetryDelay(policy, 4) else 0)
  }

  ghost predicate EntriesOk(policy: Policy, log: seq<Lease>) {
    forall i :: 0 <= i < |log| && RetriedEntry(log[i]) ==>
      1 <= Read(log[i]) < MAX_ATTEMPTS && log[i].ending.value.outcome.delay == RetryDelay(policy, Read(log[i]))
  }

  lemma ReadSetSnoc(front: seq<Lease>, l: Lease)
    ensures ReadSet(front + [l]) == ReadSet(front) + if RetriedEntry(l) then {Read(l)} else {}
  {
    var log := front + [l];
    assert log[|front|] == l && forall i :: 0 <= i < |front| ==> log[i] == front[i];
    forall read | read in ReadSet(front) ensures read in ReadSet(log) {
      var i :| 0 <= i < |front| && RetriedEntry(front[i]) && Read(front[i]) == read;
      assert log[i] == front[i];
    }
    if RetriedEntry(l) { assert Read(log[|front|]) in ReadSet(log); }
  }

  lemma WeightGrows(policy: Policy, named: set<nat>, read: nat)
    requires 1 <= read <= 4 && read !in named
    ensures Weight(policy, named + {read}) == Weight(policy, named) + RetryDelay(policy, read)
  {}

  lemma LastReadIsNew(front: seq<Lease>, l: Lease)
    requires ReadsDistinct(front + [l]) && RetriedEntry(l)
    ensures ReadsDistinct(front) && Read(l) !in ReadSet(front)
  {
    var log := front + [l];
    assert log[|front|] == l && forall i :: 0 <= i < |front| ==> log[i] == front[i];
    forall i | 0 <= i < |front| && RetriedEntry(front[i]) ensures Read(front[i]) != Read(l) {
      assert log[i] == front[i] && log[|front|] == l;
    }
  }

  /** The retries are as many as the attempts they name, and wait what those wait. */
  ghost predicate Weighed(policy: Policy, log: seq<Lease>) {
    ReadSet(log) <= {1, 2, 3, 4} && Retries(log) == |ReadSet(log)| && Backoff(log) == Weight(policy, ReadSet(log))
  }

  lemma WeighedSnoc(policy: Policy, front: seq<Lease>, l: Lease)
    requires Weighed(policy, front)
    requires RetriedEntry(l) ==>
               && 1 <= Read(l) <= 4 && Read(l) !in ReadSet(front)
               && l.ending.value.outcome.delay == RetryDelay(policy, Read(l))
    ensures Weighed(policy, front + [l])
  {
    ReadSetSnoc(front, l);
    BackoffSnoc(front, l);
    if RetriedEntry(l) { WeightGrows(policy, ReadSet(front), Read(l)); }
  }

  lemma {:induction false} DistinctBackoff(policy: Policy, log: seq<Lease>)
    requires ReadsDistinct(log) && EntriesOk(policy, log)
    ensures Weighed(policy, log)
    decreases |log|
  {
    if log == [] {
      assert ReadSet(log) == {};
    } else {
      var front, l := log[..|log| - 1], log[|log| - 1];
      assert log == front + [l];
      FrontDistinct(policy, front, l);
      DistinctBackoff(policy, front);
      WeighedSnoc(policy, front, l);
    }
  }

  lemma BackoffSnoc(front: seq<Lease>, l: Lease)
    ensures Retries(front + [l]) == Retries(front) + if RetriedEntry(l) then 1 else 0
    ensures Backoff(front + [l]) == Backoff(front) + if RetriedEntry(l) then l.ending.value.outcome.delay else 0
  {
    assert (front + [l])[..|front + [l]| - 1] == front;
  }

  lemma FrontDistinct(policy: Policy, front: seq<Lease>, l: Lease)
    requires ReadsDistinct(front + [l]) && EntriesOk(policy, front + [l])
    ensures ReadsDistinct(front) && EntriesOk(policy, front)
    ensures RetriedEntry(l) ==>
              && 1 <= Read(l) <= 4 && Read(l) !in ReadSet(front)
              && l.ending.value.outcome.delay == RetryDelay(policy, Read(l))
  {
    var log := front + [l];
    assert log[|front|] == l && forall i :: 0 <= i < |front| ==> log[i] == front[i];
    if RetriedEntry(l) { LastReadIsNew(front, l); }
  }

  lemma SmallSet(named: set<nat>)
    requires named <= {1, 2, 3, 4}
    ensures |named| <= 4 && (|named| == 4 ==> named == {1, 2, 3, 4})
  {
    var missing := {1, 2, 3, 4} - named;
    assert named + missing == {1, 2, 3, 4};
    assert |named| + |missing| == 4;
    if |named| == 4 { assert missing == {}; }
  }

  /**
    In every run without a repeated retry, whatever else interleaves, a row is retried at most 4 times,
    waits at most 450 seconds in all, and no delay reaches the cap of 3600 seconds.
  */
  lemma RetriesBounded<K>(policy: Policy, acts: seq<Action<K>>, k: K)
    requires Legal(Empty(), policy, acts) && NeverRepeats(Empty(), policy, acts) && k in Run(Empty(), policy, acts).rows
    ensures var log := Run(Empty(), policy, acts).rows[k].log;
            && Retries(log) <= 4 && Backoff(log) <= 450
            && forall i :: 0 <= i < |log| && RetriedEntry(log[i]) ==> log[i].ending.value.outcome.delay <= 240
  {
    RunLogsDistinct(policy, Empty(), acts);
    RowBounded(policy, Run(Empty(), policy, acts).rows[k]);
  }

  lemma RowEntries(policy: Policy, r: Row)
    requires RetryOk(policy, r)
    ensures EntriesOk(policy, r.log)
  {
    forall i | 0 <= i < |r.log| && RetriedEntry(r.log[i])
      ensures 1 <= Read(r.log[i]) < MAX_ATTEMPTS
      ensures r.log[i].ending.value.outcome.delay == RetryDelay(policy, Read(r.log[i]))
    {
      assert EntryOk(policy, r.log[i], i, i == |r.log| - 1);
    }
  }

  lemma RowBounded(policy: Policy, r: Row)
    requires RetryOk(policy, r) && ReadsDistinct(r.log)
    ensures Retries(r.log) <= 4 && Backoff(r.log) <= 450
    ensures forall i :: 0 <= i < |r.log| && RetriedEntry(r.log[i]) ==> r.log[i].ending.value.outcome.delay <= 240
  {
    RowEntries(policy, r);
    DistinctBackoff(policy, r.log);
    SmallSet(ReadSet(r.log));
    DelayTable();
  }

  /**
    A row that died of retryable failures alone was leased exactly 5 times, and a notification waited
    exactly 450 seconds.
  */
  lemma DeadAfterFive<K>(policy: Policy, acts: seq<Action<K>>, k: K)
    requires Legal(Empty(), policy, acts) && NeverRepeats(Empty(), policy, acts) && k in Run(Empty(), policy, acts).rows
    requires DiedRetrying(Run(Empty(), policy, acts).rows[k])
    ensures Run(Empty(), policy, acts).rows[k].attempts == MAX_ATTEMPTS
    ensures policy.Notifications? ==> Backoff(Run(Empty(), policy, acts).rows[k].log) == 450
  {
    RunLogsDistinct(policy, Empty(), acts);
    RowDead(policy, Run(Empty(), policy, acts).rows[k]);
  }

  /** Every lease ended in a retryable failure. */
  ghost predicate DiedRetrying(r: Row) {
    && r.state == Dead
    && forall i :: 0 <= i < |r.log| ==>
         RetriedEntry(r.log[i]) || (FailedEntry(r.log[i]) && r.log[i].ending.value.outcome.retryable)
  }

  lemma {:induction false} AllRetried(log: seq<Lease>)
    requires forall i :: 0 <= i < |log| ==> RetriedEntry(log[i])
    ensures Retries(log) == |log|
    decreases |log|
  {
    if log != [] { AllRetried(log[..|log| - 1]); }
  }

  lemma RowDead(policy: Policy, r: Row)
    requires RetryOk(policy, r) && ReadsDistinct(r.log) && DiedRetrying(r) && |r.log| == r.attempts
    ensures r.attempts == MAX_ATTEMPTS && (policy.Notifications? ==> Backoff(r.log) == 450)
  {
    var n := |r.log|;
    assert EntryOk(policy, r.log[n - 1], n - 1, true);
    forall i | 0 <= i < n - 1 ensures RetriedEntry(r.log[i]) { assert EntryOk(policy, r.log[i], i, false); }
    AllRetried(r.log[..n - 1]);
    RowEntries(policy, r);
    DistinctBackoff(policy, r.log);
    SmallSet(ReadSet(r.log));
    DelayTable();
  }

  // ----- one acknowledgement per worker and row is enough -----

  /** No worker holds two acknowledgements of one row at once; different workers may. */
  ghost predicate Serial<K>(q: Queue<K>, a: Action<K>) {
    a.ReadAck? ==> forall t :: t in q.acks && t != a.token ==> q.acks[t].key != a.key || q.acks[t].worker != a.worker
  }

  ghost predicate SerialRun<K>(q: Queue<K>, policy: Policy, acts: seq<Action<K>>)
    decreases |acts|
  {
    acts == [] || (Serial(q, acts[0]) && SerialRun(Apply(q, policy, acts[0]), policy, acts[1..]))
  }

  /** The attempt an acknowledgement read names its worker's lease, and no retry on record names it. */
  ghost predicate AckOwned(r: Row, worker: nat, read: nat) {
    && 1 <= read <= |r.log| && r.log[read - 1].worker == worker && !Recorded(r.log, read)
  }

  ghost predicate AckHeld<K>(q: Queue<K>, a: Ack<K>) { a.key in q.rows && AckOwned(q.rows[a.key], a.worker, a.read) }

  ghost predicate AcksOwned<K>(q: Queue<K>) {
    (forall t {:trigger AckHeld(q, q.acks[t])} :: t in q.acks ==> AckHeld(q, q.acks[t])) && OnePerWorker(q)
  }

  /** The workers of earlier leases never change. */
  lemma ChangeKeepsWorkers(r: Row, c: Change, now: int)
    requires RowOk(r) && Possible(r, c, now)
    ensures |Changed(r, c, now).log| >= |r.log|
    ensures forall i :: 0 <= i < |r.log| ==> Changed(r, c, now).log[i].worker == r.log[i].worker
  {}

  /** What a worker reads from a live lease is on record nowhere. */
  lemma ReadIsNew(policy: Policy, r: Row, worker: nat, now: int)
    requires RowOk(r) && RetryOk(policy, r) && LiveLease(r, worker, now)
    ensures AckOwned(r, worker, r.attempts)
  {
    forall i | 0 <= i < |r.log| && RetriedEntry(r.log[i]) ensures Read(r.log[i]) != r.attempts {
      assert EntryOk(policy, r.log[i], i, i == |r.log| - 1);
    }
  }

  lemma ChangeKeepsOwner(r: Row, c: Change, now: int, worker: nat, read: nat)
    requires RowOk(r) && Possible(r, c, now) && AckOwned(r, worker, read)
    requires c.SettledBy? && c.v.Retry? ==> c.read != read
    ensures AckOwned(Changed(r, c, now), worker, read)
  {
    ChangeKeepsWorkers(r, c, now);
    ChangeReads(r, c, now);
  }

  lemma HeldAckStays<K>(policy: Policy, q: Queue<K>, a: Action<K>, t: nat)
    requires LogsOk(policy, q) && AcksOwned(q) && Enabled(q, a) && t in q.acks && (a.WriteAck? ==> a.token != t)
    ensures AckHeld(Apply(q, policy, a), q.acks[t])
  {
    var ack := q.acks[t];
    assert AckHeld(q, ack);
    var c := ChangeOf(q, a, ack.key);
    ApplyChanges(q, policy, a, ack.key);
    if c.SettledBy? { assert AckHeld(q, q.acks[a.token]); }
    ChangeKeepsOwner(q.rows[ack.key], c, a.now, ack.worker, ack.read);
  }

  lemma StepKeepsOwner<K>(policy: Policy, q: Queue<K>, a: Action<K>, t: nat)
    requires LogsOk(policy, q) && AcksOwned(q) && Enabled(q, a) && t in Apply(q, policy, a).acks
    ensures AckHeld(Apply(q, policy, a), Apply(q, policy, a).acks[t])
  {
    var ack := Apply(q, policy, a).acks[t];
    if t in q.acks && q.acks[t] == ack {
      HeldAckStays(policy, q, a, t);
    } else {
      ReadIsNew(policy, q.rows[a.key], a.worker, a.now);
    }
  }

  ghost predicate OnePerWorker<K>(q: Queue<K>) {
    forall s, t :: s in q.acks && t in q.acks && s != t ==>
      q.acks[s].key != q.acks[t].key || q.acks[s].worker != q.acks[t].worker
  }

  lemma StepOnePerWorker<K>(policy: Policy, q: Queue<K>, a: Action<K>)
    requires OnePerWorker(q) && Serial(q, a)
    ensures OnePerWorker(Apply(q, policy, a))
  {}

  lemma StepAcksOwned<K>(policy: Policy, q: Queue<K>, a: Action<K>)
    requires LogsOk(policy, q) && AcksOwned(q) && Enabled(q, a) && Serial(q, a)
    ensures AcksOwned(Apply(q, policy, a)) && !Repeats(q, a)
  {
    var u := Apply(q, policy, a);
    forall t | t in u.acks ensures AckHeld(u, u.acks[t]) { StepKeepsOwner(policy, q, a, t); }
    StepOnePerWorker(policy, q, a);
    assert a.WriteAck? && a.token in q.acks ==> AckHeld(q, q.acks[a.token]);
  }

  lemma {:induction false} SerialFrom<K>(policy: Policy, q: Queue<K>, acts: seq<Action<K>>)
    requires LogsOk(policy, q) && AcksOwned(q) && Legal(q, policy, acts) && SerialRun(q, policy, acts)
    ensures NeverRepeats(q, policy, acts)
    decreases |acts|
  {
    if acts != [] {
      StepAcksOwned(policy, q, acts[0]);
      StepLogsOk(policy, q, acts[0]);
      SerialFrom(policy, Apply(q, policy, acts[0]), acts[1..]);
    }
  }

  /**
    So the bounds hold whenever no worker acknowledges one row twice at once: leases running out between
    read and update, and other workers acknowledging in between, change nothing.
  */
  lemma SerialNeverRepeats<K>(policy: Policy, acts: seq<Action<K>>)
    requires Legal(Empty(), policy, acts) && SerialRun(Empty(), policy, acts)
    ensures NeverRepeats(Empty(), policy, acts)
  {
    SerialFrom(policy, Empty(), acts);
  }

  // ----- why one worker must not acknowledge a row twice at once -----

  /** Row 0 is leased to worker 0, who still holds n acknowledgements read in its first lease. */
  ghost predicate Loaded(q: Queue<nat>, n: nat, retries: nat) {
    && q.rows.Keys == {0}
    && q.rows[0].state == Leased && q.rows[0].claimedBy == Some(0)
    && q.rows[0].leaseUntil.Some? && q.rows[0].leaseUntil.value > 30000
    && q.rows[0].log != [] && Retries(q.rows[0].log) == retries && !RetriedEntry(q.rows[0].log[|q.rows[0].log| - 1])
    && forall t: nat :: t < n ==> t in q.acks && q.acks[t] == Ack(0, 0, 1, Retry(Some(30000), 30))
  }

  /** One of the stale retries is written: the row is pending again, and due. */
  lemma OverlapWrite(q: Queue<nat>, n: nat, retries: nat)
    requires n > 0 && Loaded(q, n, retries)
    ensures var p := WriteAckStep(q, 30000, n - 1);
            && p.rows.Keys == {0} && p.rows[0].state == Pending
              && p.rows[0].nextAttempt == Some(30000)
            && p.rows[0].log != [] && Retries(p.rows[0].log) == retries + 1
            && forall t: nat :: t < n - 1 ==> t in p.acks && p.acks[t] == Ack(0, 0, 1, Retry(Some(30000), 30))
  {
    var old0, log := q.rows[0].log, WriteAckStep(q, 30000, n - 1).rows[0].log;
    assert log == CloseLast(old0, 30000, Retried(1, 30));
    assert log[..|log| - 1] == old0[..|old0| - 1];
  }

  /** And leased to the same worker again. */
  lemma OverlapLease(p: Queue<nat>)
    requires p.rows.Keys == {0} && p.rows[0].state == Pending
             && p.rows[0].nextAttempt == Some(30000)
    ensures Picks(p, 30000, 1, {0})
    ensures var r := LeaseStep(p, 30000, 0, 60, {0}).rows[0];
            && r.state == Leased && r.claimedBy == Some(0) && r.leaseUntil == Some(90000)
            && r.log != [] && !RetriedEntry(r.log[|r.log| - 1]) && Retries(r.log) == Retries(p.rows[0].log)
  {
    assert Due(ReclaimRow(p.rows[0], 30000), 30000);
    assert DueKeys(p, 30000) == {0};
    var r := LeaseStep(p, 30000, 0, 60, {0}).rows[0];
    assert r.log[..|r.log| - 1] == p.rows[0].log;
  }

  lemma OverlapStep(q: Queue<nat>, n: nat, retries: nat) returns (acts: seq<Action<nat>>)
    requires n > 0 && Loaded(q, n, retries)
    ensures Legal(q, Notifications, acts) && Loaded(Run(q, Notifications, acts), n - 1, retries + 1)
  {
    var write, lease := WriteAck(30000, n - 1), LeaseBatch(30000, 0, 60, 1, {0 as nat});
    var p := WriteAckStep(q, 30000, n - 1);
    OverlapWrite(q, n, retries);
    OverlapLease(p);
    acts := [write, lease];
    TwoSteps(q, Notifications, write, lease);
  }

  lemma {:induction false} OverlapAll(q: Queue<nat>, n: nat, retries: nat) returns (acts: seq<Action<nat>>)
    requires Loaded(q, n, retries)
    ensures Legal(q, Notifications, acts) && Loaded(Run(q, Notifications, acts), 0, retries + n)
    decreases n
  {
    acts := [];
    if n > 0 {
      var first := OverlapStep(q, n, retries);
      var rest := OverlapAll(Run(q, Notifications, first), n - 1, retries + 1);
      RunAppend(q, Notifications, first, rest);
      acts := first + rest;
    }
  }

  /** n reads of one live lease, all before any update. */
  lemma {:induction false} ReadMany(q: Queue<nat>, n: nat, m: nat) returns (acts: seq<Action<nat>>)
    requires Loaded(q, n, 0) && q.rows[0].attempts == 1
    ensures Legal(q, Notifications, acts) && Loaded(Run(q, Notifications, acts), n + m, 0)
    decreases m
  {
    acts := [];
    if m > 0 {
      var read := ReadAck(0, n, 0 as nat, 0, false, true);
      var p := Apply(q, Notifications, read);
      assert Pow2(0) == 1 && Delay(1) == 30;
      assert p.acks[n] == Ack(0, 0, 1, Retry(Some(30000), 30));
      var rest := ReadMany(p, n + 1, m - 1);
      acts := [read] + rest;
      assert acts[1..] == rest;
    }
  }

  /** Insert row 0 and lease it to worker 0. */
  lemma FirstLease() returns (acts: seq<Action<nat>>)
    ensures Legal(Empty(), Notifications, acts)
    ensures var q := Run(Empty(), Notifications, acts); Loaded(q, 0, 0) && q.rows[0].attempts == 1
  {
    var q0: Queue<nat> := Empty();
    var insert, lease := Insert(0, map[0 as nat := NewRow(false, 0)]), LeaseBatch(0, 0, 60, 1, {0 as nat});
    var q1 := Apply(q0, Notifications, insert);
    assert q1.rows == map[0 as nat := Row(Pending, 0, None, None, None, 0, [])];
    assert DueKeys(q1, 0) == {0};
    assert Picks(q1, 0, 1, {0});
    var q2 := Apply(q1, Notifications, lease);
    assert q2.rows[0].log == [Lease(0, 0, 60000, None)];
    assert Retries(q2.rows[0].log) == 0 by { assert q2.rows[0].log[..0] == []; }
    acts := [insert, lease];
    assert acts[1..] == [lease] && acts[1..][1..] == [];
    assert Run(q0, Notifications, acts) == Run(q1, Notifications, acts[1..]) == q2;
  }

  /**
    The bound fails when one worker's acknowledgements of one row overlap: a worker that reads n times
    within its first lease can have its row retried n times, because the guard compares the worker and
    not the lease. Every retry but the first is then a repeated one.
  */
  lemma OverlappingAcksRetryForever(n: nat) returns (acts: seq<Action<nat>>)
    ensures Legal(Empty(), Notifications, acts) && 0 in Run(Empty(), Notifications, acts).rows
    ensures Retries(Run(Empty(), Notifications, acts).rows[0].log) == n
  {
    var start := FirstLease();
    var q := Run(Empty(), Notifications, start);
    var taken := ReadMany(q, 0, n);
    var writes := OverlapAll(Run(q, Notifications, taken), n, 0);
    RunAppend(q, Notifications, taken, writes);
    RunAppend(Empty(), Notifications, start, taken + writes);
    acts := start + (taken + writes);
  }
}
