/**
  Scheduling fetches of one source: a fetch is due when the interval has passed since the last attempt,
  and its job id is the source and the number of the interval it falls into. Inserting an existing id
  is ignored, so an id that was used before loses the fetch.
*/
module Scheduler {
  import opened Values

  datatype Health = Keep | Boost | Downshift | Quarantine

  /** One fetch that was found due: when, with which interval, and whether its job was inserted. */
  datatype Fetch = Fetch(at: int, interval: int, bucket: int, inserted: bool)

  datatype Source = Source(last: Option<int>, jobs: set<int>, fetches: seq<Fetch>)

  const DEFAULT_INTERVAL := 300000

  /** A stored interval of zero reads as the default. */
  function DueInterval(stored: int, health: Health): int {
    var base := if stored == 0 then DEFAULT_INTERVAL else stored;
    match health
    case Boost => Max(60000, base / 2)
    case Downshift => Max(base, base * 4)
    case _ => base
  }

  function Bucket(ms: int, interval: int): int
    requires interval > 0
  {
    ms / interval
  }

  predicate Due(s: Source, now: int, interval: int) { s.last.Some? ==> now - s.last.value >= interval }

  /** One scheduling pass over the source. */
  function Tick(s: Source, now: int, stored: int, health: Health): Source
    requires stored >= 0
  {
    var interval := DueInterval(stored, health);
    if health.Quarantine? || !Due(s, now, interval) then s
    else
      var bucket := Bucket(now, interval);
      Source(Some(now), s.jobs + {bucket}, s.fetches + [Fetch(now, interval, bucket, bucket !in s.jobs)])
  }

  /** Completing a fetch counts as an attempt too. */
  function Complete(s: Source, now: int): Source { s.(last := Some(now)) }

  datatype Action = Schedule(now: int, stored: nat, health: Health) | Completed(now: int)

  function Apply(s: Source, a: Action): Source {
    match a
    case Schedule(now, stored, health) => Tick(s, now, stored, health)
    case Completed(now) => Complete(s, now)
  }

  function Run(s: Source, acts: seq<Action>): Source
    decreases |acts|
  {
    if acts == [] then s else Apply(Run(s, acts[..|acts| - 1]), acts[|acts| - 1])
  }

  const NEW := Source(None, {}, [])

  /** A completion that brings a time before a fetch: the source looks less recently attempted than it was. */
  predicate Regresses(s: Source, a: Action) {
    a.Completed? && exists i :: 0 <= i < |s.fetches| && a.now < s.fetches[i].at
  }

  /** A run without such a completion; otherwise the times the steps bring need no order. */
  predicate Regular(acts: seq<Action>)
    decreases |acts|
  {
    acts == [] ||
    (var front := acts[..|acts| - 1];
     Regular(front) && !Regresses(Run(NEW, front), acts[|acts| - 1]) && acts[|acts| - 1].now >= 0)
  }

  // ----- what every run keeps -----

  /** Each fetch is one of its own interval after every earlier one, and the jobs are the fetches' buckets. */
  ghost predicate SourceOk(s: Source) {
    && (forall i, j :: 0 <= i < j < |s.fetches| ==> s.fetches[j].at - s.fetches[i].at >= s.fetches[j].interval)
    && (forall i :: 0 <= i < |s.fetches| ==> FetchOk(s, i))
    && (forall b :: b in s.jobs <==> UsedBefore(s.fetches, |s.fetches|, b))
  }

  ghost predicate FetchOk(s: Source, i: nat)
    requires i < |s.fetches|
  {
    var f := s.fetches[i];
    && f.interval > 0 && f.bucket == Bucket(f.at, f.interval) && f.at >= 0
    && s.last.Some? && f.at <= s.last.value
    && (f.inserted <==> !UsedBefore(s.fetches, i, f.bucket))
  }

  ghost predicate UsedBefore(fetches: seq<Fetch>, n: nat, bucket: int)
    requires n <= |fetches|
  {
    exists i :: 0 <= i < n && fetches[i].bucket == bucket
  }

  lemma UsedExtends(fetches: seq<Fetch>, f: Fetch, n: nat, b: int)
    requires n <= |fetches|
    ensures UsedBefore(fetches + [f], n, b) <==> UsedBefore(fetches, n, b)
    ensures UsedBefore(fetches + [f], |fetches| + 1, b) <==> UsedBefore(fetches, |fetches|, b) || f.bucket == b
  {
    var all := fetches + [f];
    assert forall i :: 0 <= i < |fetches| ==> all[i] == fetches[i];
    assert all[|fetches|] == f;
  }

  lemma StepOk(s: Source, a: Action)
    requires SourceOk(s) && a.now >= 0 && !Regresses(s, a)
    ensures SourceOk(Apply(s, a))
  {
    var u := Apply(s, a);
    if u.fetches == s.fetches {
      forall i | 0 <= i < |u.fetches| ensures FetchOk(u, i) { assert FetchOk(s, i); }
    } else {
      var f := u.fetches[|s.fetches|];
      assert u.fetches == s.fetches + [f];
      forall i | 0 <= i < |s.fetches| ensures f.at - s.fetches[i].at >= f.interval { assert FetchOk(s, i); }
      forall i | 0 <= i < |u.fetches| ensures FetchOk(u, i) {
        UsedExtends(s.fetches, f, if i < |s.fetches| then i else |s.fetches|, u.fetches[i].bucket);
        if i < |s.fetches| { assert FetchOk(s, i); }
      }
      forall b ensures b in u.jobs <==> UsedBefore(u.fetches, |u.fetches|, b) {
        UsedExtends(s.fetches, f, |s.fetches|, b);
      }
    }
  }

  /** Exactly the regressing completions make a source look older than its last fetch. */
  lemma StaysOkIff(s: Source, a: Action)
    requires SourceOk(s) && a.now >= 0
    ensures SourceOk(Apply(s, a)) <==> !Regresses(s, a)
  {
    if !Regresses(s, a) {
      StepOk(s, a);
    } else {
      var i :| 0 <= i < |s.fetches| && a.now < s.fetches[i].at;
      assert !FetchOk(Apply(s, a), i);
    }
  }

  lemma {:induction false} RunOk(acts: seq<Action>)
    requires Regular(acts)
    ensures SourceOk(Run(NEW, acts))
    decreases |acts|
  {
    if acts != [] {
      var front := acts[..|acts| - 1];
      RunOk(front);
      StepOk(Run(NEW, front), acts[|acts| - 1]);
    }
  }

  // ----- how often a source is fetched -----

  function CountIn(fetches: seq<Fetch>, from: int, length: int): nat {
    if fetches == [] then 0
    else
      CountIn(fetches[..|fetches| - 1], from, length)
      + if from <= fetches[|fetches| - 1].at <= from + length then 1 else 0
  }

  function Times(n: nat, gap: int): int { if n == 0 then 0 else Times(n - 1, gap) + gap }

  lemma {:induction false} TimesMeaning(n: nat, gap: int)
    ensures Times(n, gap) == n * gap
  {
    if n > 0 {
      TimesMeaning(n - 1, gap);
      assert n * gap == (n - 1) * gap + gap;
    }
  }

  /** With gaps of at least `gap`, the last of n fetches in a window comes at least n - 1 gaps after its start. */
  lemma {:induction false} SpacedCount(fetches: seq<Fetch>, gap: int, from: int, length: int) returns (k: nat)
    requires gap > 0 && length >= 0 && CountIn(fetches, from, length) >= 1
    requires forall i, j :: 0 <= i < j < |fetches| ==> fetches[j].at - fetches[i].at >= gap
    ensures k < |fetches| && fetches[k].at <= from + length
    ensures Times(CountIn(fetches, from, length) - 1, gap) <= fetches[k].at - from
    decreases |fetches|
  {
    var front, last := fetches[..|fetches| - 1], |fetches| - 1;
    if from <= fetches[last].at <= from + length {
      if CountIn(front, from, length) >= 1 { var m := SpacedCount(front, gap, from, length); }
      k := last;
    } else {
      k := SpacedCount(front, gap, from, length);
    }
  }

  /** In regular runs with intervals of at least `gap`, a window of length W holds at most W / gap + 1 fetches. */
  lemma FetchRateBounded(acts: seq<Action>, gap: int, from: int, length: int)
    requires Regular(acts) && gap > 0 && length >= 0
    requires forall i :: 0 <= i < |Run(NEW, acts).fetches| ==> Run(NEW, acts).fetches[i].interval >= gap
    ensures CountIn(Run(NEW, acts).fetches, from, length) <= length / gap + 1
  {
    RunOk(acts);
    SpacedBound(Run(NEW, acts).fetches, gap, from, length);
  }

  /** Whatever the health says, a source stored at `base` is fetched no more often than boosting allows. */
  lemma RateUnderAnyHealth(acts: seq<Action>, base: nat, from: int, length: int)
    requires Regular(acts) && base > 0 && length >= 0
    requires forall i :: 0 <= i < |acts| && acts[i].Schedule? ==> acts[i].stored == base
    ensures CountIn(Run(NEW, acts).fetches, from, length) <= length / Min(base, Max(60000, base / 2)) + 1
  {
    IntervalsAtLeast(acts, base);
    FetchRateBounded(acts, Min(base, Max(60000, base / 2)), from, length);
  }

  lemma {:induction false} IntervalsAtLeast(acts: seq<Action>, base: nat)
    requires base > 0 && forall i :: 0 <= i < |acts| && acts[i].Schedule? ==> acts[i].stored == base
    ensures forall i :: 0 <= i < |Run(NEW, acts).fetches| ==>
            Run(NEW, acts).fetches[i].interval >= Min(base, Max(60000, base / 2))
    decreases |acts|
  {
    if acts != [] { IntervalsAtLeast(acts[..|acts| - 1], base); }
  }

  lemma SpacedBound(fetches: seq<Fetch>, gap: int, from: int, length: int)
    requires gap > 0 && length >= 0
    requires forall i, j :: 0 <= i < j < |fetches| ==> fetches[j].at - fetches[i].at >= gap
    ensures CountIn(fetches, from, length) <= length / gap + 1
  {
    var n := CountIn(fetches, from, length);
    if n >= 1 {
      var k := SpacedCount(fetches, gap, from, length);
      TimesBound(n - 1, gap, length);
    } else {
      TimesBound(0, gap, length);
    }
  }

  lemma TimesBound(n: nat, gap: int, length: int)
    requires gap > 0 && Times(n, gap) <= length
    ensures n <= length / gap
  {
    TimesMeaning(n, gap);
    DivideBound(n, gap, length);
  }

  lemma MultiplyMonotone(a: int, b: int, d: int)
    requires a <= b && d > 0
    ensures a * d <= b * d
  {}

  lemma DivideBound(n: int, gap: int, length: int)
    requires gap > 0 && n * gap <= length
    ensures n <= length / gap
  {
    var q := length / gap;
    assert length < q * gap + gap == (q + 1) * gap;
    if n >= q + 1 { MultiplyMonotone(q + 1, n, gap); }
  }

  /**
    Otherwise it can hold more: an earlier fetch is reported complete with the time 200 seconds, after one was
    scheduled at 599, and with the same interval of five minutes another one is scheduled a second later.
  */
  lemma RegressedFetchTooSoon()
    ensures var acts := [Schedule(599000, 300000, Keep), Completed(200000), Schedule(600000, 300000, Keep)];
            var fetches := Run(NEW, acts).fetches;
            && |fetches| == 2 && fetches[0].inserted && fetches[1].inserted && CountIn(fetches, 599000, 1000) == 2
  {
    var a, b, c := Schedule(599000, 300000, Keep), Completed(200000), Schedule(600000, 300000, Keep);
    RunThree(a, b, c);
    RegressedFetches();
    CountPair(Fetch(599000, 300000, 1, true), Fetch(600000, 300000, 2, true));
  }

  lemma RunThree(a: Action, b: Action, c: Action)
    ensures Run(NEW, [a, b, c]) == Apply(Apply(Apply(NEW, a), b), c)
  {
    var acts := [a, b, c];
    var one, two := acts[..1], acts[..2];
    assert one[..0] == [] && two[..1] == one && acts[..2] == two;
    assert Run(NEW, one) == Apply(Run(NEW, one[..0]), a);
    assert Run(NEW, two) == Apply(Run(NEW, one), b);
  }

  lemma RegressedFetches()
    ensures Tick(Complete(Tick(NEW, 599000, 300000, Keep), 200000), 600000, 300000, Keep).fetches
         == [Fetch(599000, 300000, 1, true), Fetch(600000, 300000, 2, true)]
  {
    assert Bucket(599000, 300000) == 1 && Bucket(600000, 300000) == 2;
    assert Tick(NEW, 599000, 300000, Keep) == Source(Some(599000), {1}, [Fetch(599000, 300000, 1, true)]);
  }

  lemma CountPair(x: Fetch, y: Fetch)
    requires x.at == 599000 && y.at == 600000
    ensures CountIn([x, y], 599000, 1000) == 2
  {
    assert [x, y][..1] == [x] && [x][..0] == [];
    assert CountIn([x], 599000, 1000) == 1;
  }

  // ----- no due fetch is lost while the interval does not grow -----

  lemma BucketAdvances(earlier: int, later: int, wide: int, narrow: int)
    requires 0 <= earlier && 0 < narrow <= wide && later - earlier >= narrow
    ensures Bucket(earlier, wide) < Bucket(later, narrow)
  {
    QuotientShrinks(earlier, wide, narrow);
    QuotientSteps(earlier, narrow);
    QuotientGrows(earlier + narrow, later, narrow);
  }

  lemma QuotientSteps(x: int, d: int)
    requires d > 0
    ensures (x + d) / d >= x / d + 1
  {
    var q := x / d;
    assert (q + 1) * d == q * d + d <= x + d;
    DivideBound(q + 1, d, x + d);
  }

  lemma QuotientShrinks(x: int, wide: int, narrow: int)
    requires 0 <= x && 0 < narrow <= wide
    ensures x / wide <= x / narrow
  {
    var q := x / wide;
    DivideBound(0, wide, x);
    assert q * narrow <= q * wide <= x by { Products(q, narrow, wide); }
    DivideBound(q, narrow, x);
  }

  lemma Products(q: int, a: int, b: int)
    requires q >= 0 && a <= b
    ensures q * a <= q * b
  {}

  lemma QuotientGrows(x: int, y: int, d: int)
    requires x <= y && d > 0
    ensures x / d <= y / d
  {
    DivideBound(x / d, d, y);
  }

  /**
    A due fetch is lost only to an earlier fetch of the same bucket number that used a shorter interval;
    so with a fixed, or never growing, interval every due fetch gets a job id never used before.
  */
  lemma LostOnlyAfterGrowth(acts: seq<Action>, n: nat)
    requires Regular(acts) && n < |Run(NEW, acts).fetches|
    ensures var fetches := Run(NEW, acts).fetches;
            !fetches[n].inserted <==>
            exists i :: 0 <= i < n && fetches[i].interval < fetches[n].interval
              && fetches[i].bucket == fetches[n].bucket
  {
    var s := Run(NEW, acts);
    RunOk(acts);
    assert FetchOk(s, n);
    forall i | 0 <= i < n && s.fetches[i].bucket == s.fetches[n].bucket
      ensures s.fetches[i].interval < s.fetches[n].interval {
      assert FetchOk(s, i);
      if s.fetches[i].interval >= s.fetches[n].interval {
        BucketAdvances(s.fetches[i].at, s.fetches[n].at, s.fetches[i].interval, s.fetches[n].interval);
      }
    }
  }

  /** It does happen when the interval grows: five minutes, then a downshift to twenty. */
  lemma DownshiftLosesFetch()
    ensures var acts := [Schedule(600000, 300000, Keep), Schedule(2400000, 300000, Downshift)];
            Regular(acts) && |Run(NEW, acts).fetches| == 2 && !Run(NEW, acts).fetches[1].inserted
  {
    var acts := [Schedule(600000, 300000, Keep), Schedule(2400000, 300000, Downshift)];
    assert acts[..1] == [acts[0]] && acts[..1][..0] == [];
    assert Regular(acts[..1][..0]) && Regular(acts[..1]);
    assert Run(NEW, acts[..1]) == Apply(Run(NEW, []), acts[0]) == Tick(NEW, 600000, 300000, Keep);
    assert Bucket(600000, 300000) == 2 && Bucket(2400000, 1200000) == 2;
  }
}
