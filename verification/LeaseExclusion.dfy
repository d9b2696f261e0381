/** When two leases of one row can be live at the same time, although every call brings a time of its own. */
module LeaseExclusion {
  import opened Values
  import opened LeaseQueue

  /** The time from which a lease entitles its worker no more. */
  function End(l: Lease): int { if l.ending.Some? then Min(l.until, l.ending.value.at) else l.until }

  /** The times at which a lease entitles its worker: granted, not run out, not ended. */
  predicate LiveAt(l: Lease, t: int) { l.from <= t < End(l) }

  ghost predicate Overlap(a: Lease, b: Lease) { exists t :: LiveAt(a, t) && LiveAt(b, t) }

  ghost predicate Excluded(log: seq<Lease>) { forall i, j :: 0 <= i < j < |log| ==> !Overlap(log[i], log[j]) }

  ghost predicate AllExcluded<K>(q: Queue<K>) { forall k :: k in q.rows ==> Excluded(q.rows[k].log) }

  /** A grant whose interval, from the time its call brings, meets an earlier lease of the row. */
  predicate GrantsInto(r: Row, now: int, seconds: nat) {
    exists i :: 0 <= i < |r.log| && Max(r.log[i].from, now) < Min(End(r.log[i]), now + 1000 * seconds)
  }

  ghost predicate Backdates<K>(q: Queue<K>, a: Action<K>) {
    a.LeaseBatch?
    && exists k :: k in a.picked && k in q.rows && GrantsInto(ReclaimRow(q.rows[k], a.now), a.now, a.seconds)
  }

  lemma OverlapIff(a: Lease, b: Lease)
    ensures Overlap(a, b) <==> Max(a.from, b.from) < Min(End(a), End(b))
  {
    var t := Max(a.from, b.from);
    if t < Min(End(a), End(b)) { assert LiveAt(a, t) && LiveAt(b, t); }
  }

  /** Ending a lease only shortens it. */
  lemma ClosedExcludes(log: seq<Lease>, at: int, outcome: Outcome)
    requires Excluded(log) && (log != [] ==> log[|log| - 1].ending.None?)
    ensures Excluded(CloseLast(log, at, outcome))
  {
    var u := CloseLast(log, at, outcome);
    forall i, j | 0 <= i < j < |u| ensures !Overlap(u[i], u[j]) {
      OverlapIff(u[i], u[j]);
      OverlapIff(log[i], log[j]);
    }
  }

  lemma GrantExcludesIff(r: Row, worker: nat, now: int, seconds: nat)
    requires Excluded(r.log)
    ensures Excluded(GrantRow(r, worker, now, seconds).log) <==> !GrantsInto(r, now, seconds)
  {
    var l := Lease(worker, now, now + 1000 * seconds, None);
    var u := r.log + [l];
    assert u[|r.log|] == l && forall i :: 0 <= i < |r.log| ==> u[i] == r.log[i];
    forall i | 0 <= i < |r.log|
      ensures Overlap(u[i], l) <==> Max(r.log[i].from, now) < Min(End(r.log[i]), now + 1000 * seconds)
    {
      OverlapIff(u[i], l);
    }
    if GrantsInto(r, now, seconds) {
      var i :| 0 <= i < |r.log| && Max(r.log[i].from, now) < Min(End(r.log[i]), now + 1000 * seconds);
      assert Overlap(u[i], u[|r.log|]);
    } else {
      forall i, j | 0 <= i < j < |u| ensures !Overlap(u[i], u[j]) {
        if j < |r.log| { assert !Overlap(r.log[i], r.log[j]); }
      }
    }
  }

  lemma ChangeExcludes(r: Row, c: Change, now: int)
    requires RowOk(r) && Excluded(r.log) && Possible(r, c, now)
    ensures Excluded(Changed(r, c, now).log) <==> !(c.Granted? && GrantsInto(ReclaimRow(r, now), now, c.seconds))
  {
    match c {
      case Same =>
      case Reclaimed => if ReclaimRow(r, now) != r { ClosedExcludes(r.log, now, Expired); }
      case Granted(worker, seconds) =>
        if ReclaimRow(r, now) != r { ClosedExcludes(r.log, now, Expired); }
        GrantExcludesIff(ReclaimRow(r, now), worker, now, seconds);
      case SettledBy(v, read) => ClosedExcludes(r.log, now, OutcomeOf(v, read));
      case Withdrawn =>
    }
  }

  /** Exactly: a step makes two leases of one row live at one time if and only if it grants into an earlier lease. */
  lemma StaysExcludedIff<K>(q: Queue<K>, policy: Policy, a: Action<K>)
    requires QueueOk(q) && AllExcluded(q) && Enabled(q, a)
    ensures AllExcluded(Apply(q, policy, a)) <==> !Backdates(q, a)
  {
    var u := Apply(q, policy, a);
    forall k | k in q.rows
      ensures k in u.rows
      ensures Excluded(u.rows[k].log) <==>
              !(a.LeaseBatch? && k in a.picked && GrantsInto(ReclaimRow(q.rows[k], a.now), a.now, a.seconds))
    {
      ApplyChanges(q, policy, a, k);
      ChangeExcludes(q.rows[k], ChangeOf(q, a, k), a.now);
    }
    forall k | k in u.rows && k !in q.rows ensures Excluded(u.rows[k].log) { assert u.rows[k].log == []; }
  }

  ghost predicate NeverBackdates<K>(q: Queue<K>, policy: Policy, acts: seq<Action<K>>)
    decreases |acts|
  {
    acts == [] || (!Backdates(q, acts[0]) && NeverBackdates(Apply(q, policy, acts[0]), policy, acts[1..]))
  }

  lemma {:induction false} RunExcludes<K>(q: Queue<K>, policy: Policy, acts: seq<Action<K>>)
    requires QueueOk(q) && AllExcluded(q) && Legal(q, policy, acts) && NeverBackdates(q, policy, acts)
    ensures AllExcluded(Run(q, policy, acts))
    decreases |acts|
  {
    if acts != [] {
      ApplyOk(q, policy, acts[0]);
      StaysExcludedIff(q, policy, acts[0]);
      RunExcludes(Apply(q, policy, acts[0]), policy, acts[1..]);
    }
  }

  /** Over every run without such a grant, whatever interleaves: no two leases of one row are ever live at one time. */
  lemma LeasesExclude<K>(policy: Policy, acts: seq<Action<K>>, k: K, i: nat, j: nat, t: int)
    requires Legal(Empty(), policy, acts) && NeverBackdates(Empty(), policy, acts)
    requires k in Run(Empty(), policy, acts).rows && i < j < |Run(Empty(), policy, acts).rows[k].log|
    ensures var log := Run(Empty(), policy, acts).rows[k].log; !(LiveAt(log[i], t) && LiveAt(log[j], t))
  {
    RunExcludes(Empty(), policy, acts);
    var log := Run(Empty(), policy, acts).rows[k].log;
    assert !Overlap(log[i], log[j]);
  }

  /** In the order of the steps, whatever times they bring: at most the last lease of a row is open. */
  lemma OneOpenLease<K>(policy: Policy, acts: seq<Action<K>>, k: K, i: nat)
    requires Legal(Empty(), policy, acts) && k in Run(Empty(), policy, acts).rows
    requires i < |Run(Empty(), policy, acts).rows[k].log|
    ensures var r := Run(Empty(), policy, acts).rows[k];
            r.log[i].ending.None? <==> i == |r.log| - 1 && r.state == Leased
  {
    RunOk(Empty(), policy, acts);
    assert RowOk(Run(Empty(), policy, acts).rows[k]);
  }

  /** The calls bring times in order. */
  ghost predicate Clocked<K>(acts: seq<Action<K>>) { forall i, j :: 0 <= i < j < |acts| ==> acts[i].now <= acts[j].now }

  ghost predicate EndedBy<K>(q: Queue<K>, now: int) {
    forall k, i :: k in q.rows && 0 <= i < |q.rows[k].log| && q.rows[k].log[i].ending.Some?
      ==> q.rows[k].log[i].ending.value.at <= now
  }

  lemma StepEndedBy<K>(q: Queue<K>, policy: Policy, a: Action<K>)
    requires QueueOk(q) && EndedBy(q, a.now) && Enabled(q, a)
    ensures EndedBy(Apply(q, policy, a), a.now) && !Backdates(q, a)
  {
    var u := Apply(q, policy, a);
    forall k, i | k in u.rows && 0 <= i < |u.rows[k].log| && u.rows[k].log[i].ending.Some?
      ensures u.rows[k].log[i].ending.value.at <= a.now
    {
      if k in q.rows { ApplyChanges(q, policy, a, k); }
    }
    GrantsForward(q, a);
  }

  lemma GrantsForward<K>(q: Queue<K>, a: Action<K>)
    requires QueueOk(q) && EndedBy(q, a.now) && Enabled(q, a)
    ensures !Backdates(q, a)
  {
    if a.LeaseBatch? {
      forall k | k in a.picked && k in q.rows ensures !GrantsInto(ReclaimRow(q.rows[k], a.now), a.now, a.seconds) {
        ReclaimOk(q.rows[k], a.now);
      }
    }
  }

  lemma {:induction false} ClockedFrom<K>(q: Queue<K>, policy: Policy, acts: seq<Action<K>>)
    requires QueueOk(q) && Legal(q, policy, acts) && Clocked(acts) && (acts != [] ==> EndedBy(q, acts[0].now))
    ensures NeverBackdates(q, policy, acts)
    decreases |acts|
  {
    if acts != [] {
      ApplyOk(q, policy, acts[0]);
      StepEndedBy(q, policy, acts[0]);
      ClockedFrom(Apply(q, policy, acts[0]), policy, acts[1..]);
    }
  }

  /** So when the calls bring times in order, leases exclude each other in every run. */
  lemma ClockedNeverBackdates<K>(policy: Policy, acts: seq<Action<K>>)
    requires Legal(Empty(), policy, acts) && Clocked(acts)
    ensures NeverBackdates(Empty(), policy, acts)
  {
    ClockedFrom(Empty(), policy, acts);
  }

  // ----- an event claimed twice for the same instant -----

  /** The only event is leased to worker 0 for the first minute. */
  function ClaimedOnce(): Queue<nat> {
    Queue(map[0 as nat := Row(Leased, 1, Some(0), Some(60000), None, 0, [Lease(0, 0, 60000, None)])], map[])
  }

  /** And released for a retry after half of it. */
  function Released(): Queue<nat> {
    var l := Lease(0, 0, 60000, Some(Ending(30000, Retried(1, 0))));
    Queue(map[0 as nat := Row(Pending, 1, None, None, None, 0, [l])], map[])
  }

  lemma ClaimOnce() returns (acts: seq<Action<nat>>)
    ensures Legal(Empty(), DomainEvents, acts) && Run(Empty(), DomainEvents, acts) == ClaimedOnce()
  {
    var q0: Queue<nat> := Empty();
    var insert, lease := Insert(0, map[0 as nat := NewRow(false, 0)]), LeaseBatch(0, 0, 60, 1, {0 as nat});
    var q1 := Apply(q0, DomainEvents, insert);
    assert q1.rows == map[0 as nat := Row(Pending, 0, None, None, None, 0, [])];
    assert DueKeys(q1, 0) == {0};
    TwoSteps(q0, DomainEvents, insert, lease);
    assert Apply(q1, DomainEvents, lease).rows[0].log == [Lease(0, 0, 60000, None)];
    assert Apply(q1, DomainEvents, lease).rows == ClaimedOnce().rows;
    acts := [insert, lease];
  }

  lemma ReleaseIt() returns (acts: seq<Action<nat>>)
    ensures Legal(ClaimedOnce(), DomainEvents, acts) && Run(ClaimedOnce(), DomainEvents, acts) == Released()
  {
    var read, write := ReadAck(30000, 0, 0 as nat, 0, false, true), WriteAck(30000, 0);
    TwoSteps(ClaimedOnce(), DomainEvents, read, write);
    var q := Apply(ClaimedOnce(), DomainEvents, read);
    assert q.acks == map[0 := Ack(0, 0, 1, Retry(None, 0))];
    assert q.acks - {0} == map[];
    assert Apply(q, DomainEvents, write).rows[0].log == Released().rows[0].log;
    assert Apply(q, DomainEvents, write).rows == Released().rows;
    acts := [read, write];
  }

  lemma ClaimAgain()
    ensures var a := LeaseBatch(10000, 1, 60, 1, {0 as nat});
            && Enabled(Released(), a)
            && Apply(Released(), DomainEvents, a).rows.Keys == {0}
            && Apply(Released(), DomainEvents, a).rows[0].log == Released().rows[0].log + [Lease(1, 10000, 70000, None)]
  {
    assert DueKeys(Released(), 10000) == {0};
  }

  lemma Extended(acts: seq<Action<nat>>, a: Action<nat>) returns (all: seq<Action<nat>>)
    requires Legal(Empty(), DomainEvents, acts) && Run(Empty(), DomainEvents, acts) == Released()
    requires Enabled(Released(), a)
    ensures Legal(Empty(), DomainEvents, all) && Run(Empty(), DomainEvents, all) == Apply(Released(), DomainEvents, a)
  {
    OneStep(Released(), DomainEvents, a);
    RunAppend(Empty(), DomainEvents, acts, [a]);
    all := acts + [a];
  }

  /** Concretely, out of order: the event is released at 30 seconds, and a call that began at 10 then claims it. */
  lemma BackdatedClaimOverlaps() returns (acts: seq<Action<nat>>)
    ensures Legal(Empty(), DomainEvents, acts) && 0 in Run(Empty(), DomainEvents, acts).rows
    ensures var log := Run(Empty(), DomainEvents, acts).rows[0].log;
            |log| == 2 && LiveAt(log[0], 20000) && LiveAt(log[1], 20000) && log[0].worker != log[1].worker
  {
    var before := ReachReleased();
    ClaimAgain();
    acts := Extended(before, LeaseBatch(10000, 1, 60, 1, {0 as nat}));
  }

  lemma ReachReleased() returns (acts: seq<Action<nat>>)
    ensures Legal(Empty(), DomainEvents, acts) && Run(Empty(), DomainEvents, acts) == Released()
  {
    var claim := ClaimOnce();
    var release := ReleaseIt();
    RunAppend(Empty(), DomainEvents, claim, release);
    acts := claim + release;
  }
}
