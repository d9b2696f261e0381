/**
  The search budget of one provider in one usage window. A request reads the counters, then updates
  them conditionally, then inserts its job; requests of several workers interleave with each other and
  with order confirmations, which raise the limit while requests are in flight.
*/
module ProviderPricing {
  import opened Values

  /** The pricing policy: fixed during a window. Zero or negative budgets and caps count as absent. */
  datatype Policy = Policy(budget: Option<real>, threshold: int, hardCap: Option<int>)

  /** Where a request is between its statements; `limit` is the limit it computed when it read. */
  datatype Phase = Looked(job: nat, limit: int) | Refused(job: nat) | Granted(job: nat)

  /** One successful conditional update, and the order count at that moment: an auxiliary log. */
  datatype Grant = Grant(job: nat, orders: nat)

  datatype Window = Window(
    searches: nat, orders: nat, open: bool, jobs: set<nat>, requests: map<nat, Phase>, grants: seq<Grant>)

  function Ratio(p: Policy, orders: nat): int { Max(1, orders) * p.threshold }

  /** The smallest of the ratio, the budget and the cap, as far as they apply. */
  function Capped(p: Policy, ratio: int): real {
    var budget := if p.budget.Some? && p.budget.value > 0.0 then p.budget.value else ratio as real;
    var limit := if ratio as real <= budget then ratio as real else budget;
    if p.hardCap.Some? && p.hardCap.value > 0 && p.hardCap.value as real < limit then p.hardCap.value as real else limit
  }

  function EffectiveLimit(p: Policy, orders: nat): int { Max(0, Capped(p, Ratio(p, orders)).Floor) }

  // ----- micro-steps -----

  datatype Action =
    | Look(r: nat, job: nat)
    | Try(r: nat)
    | Open(r: nat)
    | InsertJob(r: nat)
    | Crash(r: nat)
    | ConfirmOrder

  /** A request whose job exists is answered at once; otherwise the counters are read and checked. */
  function LookStep(s: Window, p: Policy, r: nat, job: nat): Window {
    if job in s.jobs then s
    else
      var limit := EffectiveLimit(p, s.orders);
      s.(requests := s.requests[r := if s.open || s.searches >= limit then Refused(job) else Looked(job, limit)])
  }

  /** UPDATE ... WHERE circuit_state='CLEAR' AND search_count<?, with the limit that was read. */
  function TryStep(s: Window, r: nat): Window {
    if r in s.requests && s.requests[r].Looked? then
      var q := s.requests[r];
      if !s.open && s.searches < q.limit then
        s.(searches := s.searches + 1, grants := s.grants + [Grant(q.job, s.orders)],
          requests := s.requests[r := Granted(q.job)])
      else s.(requests := s.requests[r := Refused(q.job)])
    else s
  }

  function OpenStep(s: Window, r: nat): Window {
    if r in s.requests && s.requests[r].Refused? then s.(open := true, requests := s.requests - {r}) else s
  }

  /** INSERT OR IGNORE. */
  function InsertJobStep(s: Window, r: nat): Window {
    if r in s.requests && s.requests[r].Granted?
    then s.(jobs := s.jobs + {s.requests[r].job}, requests := s.requests - {r}) else s
  }

  function ConfirmStep(s: Window): Window { s.(orders := s.orders + 1, open := false) }

  function Apply(s: Window, p: Policy, a: Action): Window {
    match a
    case Look(r, job) => LookStep(s, p, r, job)
    case Try(r) => TryStep(s, r)
    case Open(r) => OpenStep(s, r)
    case InsertJob(r) => InsertJobStep(s, r)
    case Crash(r) => s.(requests := s.requests - {r})
    case ConfirmOrder => ConfirmStep(s)
  }

  /** A new request has an id of its own. */
  predicate Enabled(s: Window, a: Action) { a.Look? ==> a.r !in s.requests }

  function Run(s: Window, p: Policy, acts: seq<Action>): Window
    decreases |acts|
  {
    if acts == [] then s else Run(Apply(s, p, acts[0]), p, acts[1..])
  }

  predicate Legal(s: Window, p: Policy, acts: seq<Action>)
    decreases |acts|
  {
    acts == [] || (Enabled(s, acts[0]) && Legal(Apply(s, p, acts[0]), p, acts[1..]))
  }

  const START := Window(0, 0, false, {}, map[], [])

  // ----- the limit moves up only -----

  lemma LimitMonotone(p: Policy, orders: nat, more: nat)
    requires p.threshold > 0 && orders <= more
    ensures EffectiveLimit(p, orders) <= EffectiveLimit(p, more)
  {
    MultiplyMonotone(Max(1, orders), Max(1, more), p.threshold);
    CappedMonotone(p, Ratio(p, orders), Ratio(p, more));
  }

  lemma MultiplyMonotone(a: int, b: int, n: int)
    requires a <= b && n > 0
    ensures a * n <= b * n
  {}

  lemma CappedMonotone(p: Policy, a: int, b: int)
    requires a <= b
    ensures Capped(p, a).Floor <= Capped(p, b).Floor
  {
    assert Capped(p, a) <= Capped(p, b);
  }

  /** A number of searches is within the limit exactly when it is within each constraint that applies. */
  lemma LimitMeaning(p: Policy, orders: nat, n: nat)
    requires p.threshold > 0
    ensures n <= EffectiveLimit(p, orders)
            <==> (&& n <= Max(1, orders) * p.threshold
                  && (p.budget.Some? && p.budget.value > 0.0 ==> n as real <= p.budget.value)
                  && (p.hardCap.Some? && p.hardCap.value > 0 ==> n <= p.hardCap.value))
  {
    MultiplyMonotone(0, Max(1, orders), p.threshold);
    CappedMeaning(p, Ratio(p, orders), n);
  }

  lemma CappedMeaning(p: Policy, ratio: int, n: nat)
    requires ratio >= 0
    ensures n <= Max(0, Capped(p, ratio).Floor)
            <==> (&& n <= ratio
                  && (p.budget.Some? && p.budget.value > 0.0 ==> n as real <= p.budget.value)
                  && (p.hardCap.Some? && p.hardCap.value > 0 ==> n <= p.hardCap.value))
  {
    assert Capped(p, ratio) >= 0.0;
    assert n as real <= Capped(p, ratio) <==> n <= Capped(p, ratio).Floor;
  }

  // ----- every grant was within the limit of its moment -----

  ghost predicate GrantOk(p: Policy, s: Window, i: nat)
    requires i < |s.grants|
  {
    s.grants[i].orders <= s.orders && i < EffectiveLimit(p, s.grants[i].orders)
  }

  function GrantedJobs(s: Window): set<nat> { set i | 0 <= i < |s.grants| :: s.grants[i].job }

  ghost predicate Budgeted(p: Policy, s: Window) {
    && s.searches == |s.grants|
    && (forall i :: 0 <= i < |s.grants| ==> GrantOk(p, s, i))
    && (forall r :: r in s.requests && s.requests[r].Looked? ==> s.requests[r].limit <= EffectiveLimit(p, s.orders))
    && (forall r :: r in s.requests && s.requests[r].Granted? ==> s.requests[r].job in GrantedJobs(s))
    && s.jobs <= GrantedJobs(s)
  }

  lemma StepBudgeted(p: Policy, s: Window, a: Action)
    requires p.threshold > 0 && Budgeted(p, s)
    ensures Budgeted(p, Apply(s, p, a))
  {
    var u := Apply(s, p, a);
    if u.grants == s.grants {
      forall i | 0 <= i < |u.grants| ensures GrantOk(p, u, i) { assert GrantOk(p, s, i); }
    }
    match a {
      case Try(r) => if u.searches > s.searches { TryGrants(p, s, r); }
      case ConfirmOrder => LimitMonotone(p, s.orders, s.orders + 1);
      case _ =>
    }
  }

  lemma TryGrants(p: Policy, s: Window, r: nat)
    requires p.threshold > 0 && Budgeted(p, s) && TryStep(s, r).searches > s.searches
    ensures Budgeted(p, TryStep(s, r))
  {
    var u := TryStep(s, r);
    var g := Grant(s.requests[r].job, s.orders);
    assert u.grants == s.grants + [g] && u.grants[|s.grants|] == g;
    assert GrantedJobs(u) == GrantedJobs(s) + {g.job} by {
      forall job | job in GrantedJobs(s) ensures job in GrantedJobs(u) {
        var i :| 0 <= i < |s.grants| && s.grants[i].job == job;
        assert u.grants[i] == s.grants[i];
      }
      forall job | job in GrantedJobs(u) ensures job in GrantedJobs(s) + {g.job} {
        var i :| 0 <= i < |u.grants| && u.grants[i].job == job;
        if i < |s.grants| { assert u.grants[i] == s.grants[i]; }
      }
    }
    forall i | 0 <= i < |u.grants| ensures GrantOk(p, u, i) {
      if i < |s.grants| { assert GrantOk(p, s, i) && u.grants[i] == s.grants[i]; }
    }
  }

  lemma {:induction false} RunBudgeted(p: Policy, s: Window, acts: seq<Action>)
    requires p.threshold > 0 && Budgeted(p, s)
    ensures Budgeted(p, Run(s, p, acts))
    decreases |acts|
  {
    if acts != [] {
      StepBudgeted(p, s, acts[0]);
      RunBudgeted(p, Apply(s, p, acts[0]), acts[1..]);
    }
  }

  lemma {:induction false} DistinctJobs(grants: seq<Grant>, jobs: set<nat>)
    requires jobs <= set i | 0 <= i < |grants| :: grants[i].job
    ensures |jobs| <= |grants|
    decreases |grants|
  {
    if grants != [] {
      var last := grants[|grants| - 1].job;
      var front := grants[..|grants| - 1];
      forall job | job in jobs - {last} ensures job in set i | 0 <= i < |front| :: front[i].job {
        var i :| 0 <= i < |grants| && grants[i].job == job;
        assert front[i].job == job;
      }
      DistinctJobs(front, jobs - {last});
      assert jobs <= (jobs - {last}) + {last};
      CardinalityBound(jobs, jobs - {last}, last);
    } else {
      assert jobs == {};
    }
  }

  lemma CardinalityBound(a: set<nat>, b: set<nat>, x: nat)
    requires a <= b + {x}
    ensures |a| <= |b| + 1
  {
    var both := b + {x};
    assert both == a + (both - a);
  }

  /**
    The budget holds under every interleaving: the counter equals the grants made, each grant was
    within the limit at its own order count (so the counter never exceeds the current limit), and the
    jobs inserted never outnumber the grants.
  */
  lemma BudgetNeverExceeded(p: Policy, acts: seq<Action>)
    requires p.threshold > 0
    ensures var s := Run(START, p, acts);
            && s.searches == |s.grants| && s.searches <= EffectiveLimit(p, s.orders) && |s.jobs| <= s.searches
            && forall i :: 0 <= i < |s.grants| ==> i < EffectiveLimit(p, s.grants[i].orders)
  {
    RunBudgeted(p, START, acts);
    BudgetedMeans(p, Run(START, p, acts));
  }

  lemma BudgetedMeans(p: Policy, s: Window)
    requires p.threshold > 0 && Budgeted(p, s)
    ensures s.searches <= EffectiveLimit(p, s.orders) && |s.jobs| <= s.searches
    ensures forall i :: 0 <= i < |s.grants| ==> i < EffectiveLimit(p, s.grants[i].orders)
  {
    DistinctJobs(s.grants, s.jobs);
    forall i | 0 <= i < |s.grants| ensures i < EffectiveLimit(p, s.grants[i].orders) { assert GrantOk(p, s, i); }
    if s.grants != [] {
      assert GrantOk(p, s, |s.grants| - 1);
      LimitMonotone(p, s.grants[|s.grants| - 1].orders, s.orders);
    }
  }

  // ----- when an open circuit tells the truth -----

  /** The circuit is open only if the limit is reached. */
  predicate OpenIsTrue(p: Policy, s: Window) { s.open ==> s.searches >= EffectiveLimit(p, s.orders) }

  /** No request in flight works with an outdated limit. */
  ghost predicate Current(p: Policy, s: Window) {
    forall r :: r in s.requests ==>
      && (s.requests[r].Looked? ==> s.requests[r].limit == EffectiveLimit(p, s.orders))
      && (s.requests[r].Refused? ==> s.searches >= EffectiveLimit(p, s.orders))
  }

  ghost predicate NoConfirm(acts: seq<Action>) { ConfirmOrder !in acts }

  lemma StepOpenIsTrue(p: Policy, s: Window, a: Action)
    requires OpenIsTrue(p, s) && !a.ConfirmOrder? && (Current(p, s) || s.searches >= EffectiveLimit(p, s.orders))
    ensures var u := Apply(s, p, a);
            OpenIsTrue(p, u) && u.orders == s.orders && u.searches >= s.searches
            && (Current(p, s) ==> Current(p, u))
  {}

  lemma {:induction false} RunOpenIsTrue(p: Policy, s: Window, acts: seq<Action>)
    requires OpenIsTrue(p, s) && NoConfirm(acts) && (Current(p, s) || s.searches >= EffectiveLimit(p, s.orders))
    ensures OpenIsTrue(p, Run(s, p, acts))
    decreases |acts|
  {
    if acts != [] {
      assert acts[0] in acts;
      StepOpenIsTrue(p, s, acts[0]);
      RunOpenIsTrue(p, Apply(s, p, acts[0]), acts[1..]);
    }
  }

  /** A confirmation makes a request in flight misleading: refused already, or holding a lower limit. */
  predicate Stale(p: Policy, s: Window, r: nat) {
    r in s.requests
    && (s.requests[r].Refused? || (s.requests[r].Looked? && s.requests[r].limit < EffectiveLimit(p, s.orders + 1)))
  }

  ghost predicate Misleads(p: Policy, s: Window, acts: seq<Action>) {
    NoConfirm(acts) && Legal(ConfirmStep(s), p, acts) && !OpenIsTrue(p, Run(ConfirmStep(s), p, acts))
  }

  /**
    Exactly when an order confirmation can be followed, with no further confirmation, by a circuit that
    is open although searches are left: the new limit leaves room and a stale request is in flight.
  */
  lemma MisleadsIff(p: Policy, s: Window)
    requires p.threshold > 0 && Budgeted(p, s)
    ensures (exists acts :: Misleads(p, s, acts))
            <==> s.searches < EffectiveLimit(p, s.orders + 1) && exists r :: Stale(p, s, r)
  {
    var u := ConfirmStep(s);
    if s.searches < EffectiveLimit(p, s.orders + 1) && exists r :: Stale(p, s, r) {
      var r :| Stale(p, s, r);
      var acts := Mislead(p, u, r);
      assert Misleads(p, s, acts);
    } else if acts :| Misleads(p, s, acts) {
      if u.searches < EffectiveLimit(p, u.orders) {
        LimitMonotone(p, s.orders, s.orders + 1);
        forall r | r in u.requests && u.requests[r].Looked? ensures u.requests[r].limit == EffectiveLimit(p, u.orders) {
          assert !Stale(p, s, r);
        }
        forall r | r in u.requests ensures !u.requests[r].Refused? { assert !Stale(p, s, r); }
      }
      RunOpenIsTrue(p, u, acts);
    }
  }

  lemma {:induction false} RunAppend(s: Window, p: Policy, x: seq<Action>, y: seq<Action>)
    requires Legal(s, p, x) && Legal(Run(s, p, x), p, y)
    ensures Legal(s, p, x + y) && Run(s, p, x + y) == Run(Run(s, p, x), p, y)
    decreases |x|
  {
    if x == [] {
      assert x + y == y;
    } else {
      RunAppend(Apply(s, p, x[0]), p, x[1..], y);
      assert (x + y)[0] == x[0] && (x + y)[1..] == x[1..] + y;
    }
  }

  lemma RunSteps(s: Window, p: Policy, a: Action, b: Action)
    requires Enabled(s, a) && Enabled(Apply(s, p, a), b)
    ensures Legal(s, p, [a, b]) && Run(s, p, [a, b]) == Apply(Apply(s, p, a), p, b)
  {
    var u := Apply(s, p, a);
    assert [a, b][1..] == [b] && [b][1..] == [];
    assert Run(s, p, [a, b]) == Run(u, p, [b]) == Run(Apply(u, p, b), p, []);
  }

  lemma {:induction false} FreshId(used: set<nat>) returns (n: nat)
    ensures n !in used && forall m :: m in used ==> m < n
  {
    if used == {} {
      n := 0;
    } else {
      var m :| m in used;
      var k := FreshId(used - {m});
      n := if m < k then k else m + 1;
      assert used == (used - {m}) + {m};
    }
  }

  /** Grant searches to other requests until the stale one fails, then let it open the circuit. */
  lemma {:induction false} Mislead(p: Policy, u: Window, r: nat) returns (acts: seq<Action>)
    requires p.threshold > 0 && !u.open && u.searches < EffectiveLimit(p, u.orders)
    requires r in u.requests && !u.requests[r].Granted?
    requires u.requests[r].Looked? ==> u.requests[r].limit < EffectiveLimit(p, u.orders)
    ensures NoConfirm(acts) && Legal(u, p, acts) && !OpenIsTrue(p, Run(u, p, acts))
    decreases EffectiveLimit(p, u.orders) - u.searches
  {
    if u.requests[r].Refused? || u.searches >= u.requests[r].limit {
      acts := [Try(r), Open(r)];
      RunSteps(u, p, Try(r), Open(r));
    } else {
      var other := FreshId(u.requests.Keys);
      var job := FreshId(u.jobs);
      var v := Apply(Apply(u, p, Look(other, job)), p, Try(other));
      RunSteps(u, p, Look(other, job), Try(other));
      var rest := Mislead(p, v, r);
      RunAppend(u, p, [Look(other, job), Try(other)], rest);
      acts := [Look(other, job), Try(other)] + rest;
    }
  }

  /** Concretely: a search is refused at the limit, orders raise the limit, and the refusal then opens the circuit. */
  lemma StaleRefusalOpensCircuit() returns (acts: seq<Action>)
    ensures Legal(START, Policy(None, 1, None), acts)
    ensures !OpenIsTrue(Policy(None, 1, None), Run(START, Policy(None, 1, None), acts))
  {
    var p := Policy(None, 1, None);
    RunSteps(START, p, Look(0, 0), Try(0));
    var s := Run(START, p, [Look(0, 0), Try(0)]);
    RunSteps(s, p, Look(1, 1), ConfirmOrder);
    var u := Run(s, p, [Look(1, 1), ConfirmOrder]);
    RunSteps(u, p, ConfirmOrder, Open(1));
    RunAppend(START, p, [Look(0, 0), Try(0)], [Look(1, 1), ConfirmOrder]);
    RunAppend(START, p, [Look(0, 0), Try(0)] + [Look(1, 1), ConfirmOrder], [ConfirmOrder, Open(1)]);
    acts := [Look(0, 0), Try(0)] + [Look(1, 1), ConfirmOrder] + [ConfirmOrder, Open(1)];
    assert Capped(p, 1) == 1.0 && Capped(p, 2) == 2.0;
  }

  /** Confirmations that reach no stale request while searches are left. */
  ghost predicate CleanRun(s: Window, p: Policy, acts: seq<Action>)
    decreases |acts|
  {
    acts == [] ||
    (&& (acts[0].ConfirmOrder? ==> s.searches >= EffectiveLimit(p, s.orders + 1) || forall r :: !Stale(p, s, r))
     && CleanRun(Apply(s, p, acts[0]), p, acts[1..]))
  }

  /** What clean runs keep: a refusal in flight is as true as an open circuit. */
  ghost predicate Honest(p: Policy, s: Window) {
    OpenIsTrue(p, s) && (Current(p, s) || s.searches >= EffectiveLimit(p, s.orders))
  }

  /** In every clean run, whatever else interleaves, the circuit is open only if the limit is reached. */
  lemma {:induction false} CleanRunIsHonest(p: Policy, s: Window, acts: seq<Action>)
    requires p.threshold > 0 && Budgeted(p, s) && Honest(p, s) && CleanRun(s, p, acts)
    ensures Honest(p, Run(s, p, acts))
    decreases |acts|
  {
    if acts != [] {
      var u := Apply(s, p, acts[0]);
      StepBudgeted(p, s, acts[0]);
      if acts[0].ConfirmOrder? {
        LimitMonotone(p, s.orders, s.orders + 1);
        if s.searches < EffectiveLimit(p, s.orders + 1) {
          forall r | r in u.requests
            ensures !u.requests[r].Refused?
                    && (u.requests[r].Looked? ==> u.requests[r].limit == EffectiveLimit(p, u.orders))
          {
            assert !Stale(p, s, r);
          }
        }
      } else {
        StepOpenIsTrue(p, s, acts[0]);
      }
      CleanRunIsHonest(p, u, acts[1..]);
    }
  }

  // ----- one request at a time -----

  /** enqueueProviderSearch without interference: read, update, then insert the job or open the circuit. */
  function Request(s: Window, p: Policy, r: nat, job: nat): Window {
    InsertJobStep(OpenStep(TryStep(LookStep(s, p, r, job), r), r), r)
  }

  datatype Call = Enqueue(job: nat) | Order

  function Serial(p: Policy, calls: seq<Call>): Window {
    if calls == [] then START
    else
      var s := Serial(p, calls[..|calls| - 1]);
      match calls[|calls| - 1]
      case Enqueue(job) => Request(s, p, 0, job)
      case Order => ConfirmStep(s)
  }

  /** What holds between calls that do not overlap. */
  ghost predicate Idle(p: Policy, s: Window) {
    s.requests == map[] && Budgeted(p, s) && OpenIsTrue(p, s)
  }

  lemma RequestOutcome(p: Policy, s: Window, job: nat)
    requires p.threshold > 0 && Idle(p, s)
    ensures var u := Request(s, p, 0, job);
            && u.requests == map[] && OpenIsTrue(p, u)
            && (job in u.jobs <==> job in s.jobs || s.searches < EffectiveLimit(p, s.orders))
            && (u.open <==> s.open || (job !in s.jobs && s.searches >= EffectiveLimit(p, s.orders)))
  {
    assert s.requests[0 := Refused(job)] - {0} == map[];
    assert s.requests[0 := Looked(job, EffectiveLimit(p, s.orders))][0 := Granted(job)] - {0} == map[];
  }

  lemma RequestBudgeted(p: Policy, s: Window, job: nat)
    requires p.threshold > 0 && Budgeted(p, s)
    ensures Budgeted(p, Request(s, p, 0, job))
  {
    StepBudgeted(p, s, Look(0, job));
    StepBudgeted(p, LookStep(s, p, 0, job), Try(0));
    StepBudgeted(p, TryStep(LookStep(s, p, 0, job), 0), Open(0));
    StepBudgeted(p, OpenStep(TryStep(LookStep(s, p, 0, job), 0), 0), InsertJob(0));
  }

  lemma {:induction false} SerialIdle(p: Policy, calls: seq<Call>)
    requires p.threshold > 0
    ensures Idle(p, Serial(p, calls))
  {
    if calls != [] {
      var s := Serial(p, calls[..|calls| - 1]);
      SerialIdle(p, calls[..|calls| - 1]);
      match calls[|calls| - 1] {
        case Enqueue(job) =>
          RequestBudgeted(p, s, job);
          RequestOutcome(p, s, job);
        case Order => StepBudgeted(p, s, ConfirmOrder);
      }
    }
  }

  /**
    Without concurrency the circuit tells the truth, and a search is refused if and only if its job is
    new and the limit at the current order count is reached.
  */
  lemma SerialRefusesExactlyAtLimit(p: Policy, calls: seq<Call>, job: nat)
    requires p.threshold > 0
    ensures var s := Serial(p, calls);
            var u := Request(s, p, 0, job);
            && OpenIsTrue(p, s)
            && (job in u.jobs <==> job in s.jobs || s.searches < EffectiveLimit(p, s.orders))
            && (u.open <==> s.open || (job !in s.jobs && s.searches >= EffectiveLimit(p, s.orders)))
  {
    SerialIdle(p, calls);
    RequestOutcome(p, Serial(p, calls), job);
  }

  /** A confirmation reopens the window exactly when the new limit leaves room: the next new search is granted. */
  lemma OrderReopensIff(p: Policy, calls: seq<Call>, job: nat)
    requires p.threshold > 0
    ensures var s := Serial(p, calls);
            var u := Serial(p, calls + [Order]);
            && u.orders == s.orders + 1 && u.searches == s.searches && !u.open
            && (job in Request(u, p, 0, job).jobs <==> job in s.jobs || s.searches < EffectiveLimit(p, s.orders + 1))
  {
    assert (calls + [Order])[..|calls + [Order]| - 1] == calls;
    SerialIdle(p, calls + [Order]);
    RequestOutcome(p, Serial(p, calls + [Order]), job);
  }

  datatype Reply = NotReady | AlreadyQueued | Queued(limit: int, searches: nat) | CircuitOpen

  /** The usage window and the jobs table as the program updates them. */
  class Usage {
    const p: Policy
    var searches: nat
    var orders: nat
    var open: bool
    var jobs: set<nat>
    ghost var requests: map<nat, Phase>
    ghost var grants: seq<Grant>

    ghost function Snapshot(): Window
      reads this
    {
      Window(searches, orders, open, jobs, requests, grants)
    }

    constructor (p: Policy)
      ensures Snapshot() == START && this.p == p
    {
      this.p := p;
      searches, orders, open, jobs, requests, grants := 0, 0, false, {}, map[], [];
    }

    /** `ready`: the query is valid, and the provider's access, capability and mode allow the search. */
    method EnqueueProviderSearch(job: nat, ready: bool, ghost r: nat) returns (reply: Reply)
      requires r !in requests
      modifies this
      ensures !ready ==> reply.NotReady? && unchanged(this)
      ensures ready ==> !reply.NotReady? && Snapshot() == Request(old(Snapshot()), p, r, job)
      ensures ready ==> (reply.AlreadyQueued? <==> job in old(jobs))
      ensures reply.Queued? ==> job in jobs && searches == old(searches) + 1 == reply.searches <= reply.limit
      ensures reply.CircuitOpen? ==> open && searches == old(searches) && jobs == old(jobs)
    {
      if !ready { return NotReady; }
      if job in jobs { return AlreadyQueued; }
      var limit := EffectiveLimit(p, orders);
      assert requests[r := Refused(job)] - {r} == requests;
      assert requests[r := Looked(job, limit)][r := Granted(job)] - {r} == requests;
      if open || searches >= limit {
        open := true;
        return CircuitOpen;
      }
      searches := searches + 1;
      grants := grants + [Grant(job, orders)];
      jobs := jobs + {job};
      reply := Queued(limit, searches);
    }

    method RecordProviderConfirmedOrder()
      modifies this
      ensures Snapshot() == ConfirmStep(old(Snapshot()))
    {
      orders, open := orders + 1, false;
    }
  }
}
