/**
  The shared session budget (agent/internal/sessionlimit/budget.go) and the update lease
  that the update runtime keeps on it (agent/internal/update/runtime.go).
 */
module SessionBudget {

  const MAX_ACTIVITIES: nat := 128

  datatype Counters = Counters(used: nat, maximum: int, maintenance: bool, activities: nat) {
    predicate CanAcquire() {
      !maintenance && used < maximum
    }

    predicate CanStartActivity() {
      !maintenance && activities < MAX_ACTIVITIES
    }

    predicate Quiescent() {
      !maintenance && used == 0 && activities == 0
    }

    function Released(): Counters {
      if used > 0 then this.(used := used - 1) else this
    }
  }

  /** The mutex-guarded object; each method is one critical section. */
  class Budget {
    var used: nat
    var maximum: int
    var maintenance: bool
    var activities: nat

    function State(): Counters
      reads this
    {
      Counters(used, maximum, maintenance, activities)
    }

    constructor (maximum: int)
      ensures State() == Counters(0, maximum, false, 0)
    {
      this.used, this.maximum, this.maintenance, this.activities := 0, maximum, false, 0;
    }

    method Acquire() returns (ok: bool)
      modifies this
      ensures ok == old(State()).CanAcquire()
      ensures State() == if ok then old(State()).(used := old(used) + 1) else old(State())
    {
      if maintenance || used >= maximum {
        return false;
      }
      used := used + 1;
      return true;
    }

    method Release()
      modifies this
      ensures State() == old(State()).Released()
    {
      if used > 0 {
        used := used - 1;
      }
    }

    method AcquireActivity() returns (release: ActivityRelease?)
      modifies this
      ensures release != null <==> old(State()).CanStartActivity()
      ensures release != null ==> fresh(release) && !release.done && release.budget == this
      ensures State() == if release != null then old(State()).(activities := old(activities) + 1) else old(State())
    {
      if maintenance || activities >= MAX_ACTIVITIES {
        return null;
      }
      activities := activities + 1;
      release := new ActivityRelease(this);
    }

    method TryMaintenance() returns (ok: bool)
      modifies this
      ensures ok == old(State()).Quiescent()
      ensures State() == if ok then old(State()).(maintenance := true) else old(State())
    {
      if maintenance || used != 0 || activities != 0 {
        return false;
      }
      maintenance := true;
      return true;
    }

    method EndMaintenance()
      modifies this
      ensures State() == old(State()).(maintenance := false)
    {
      maintenance := false;
    }
  }

  /** The closure that AcquireActivity returns, with its `sync.Once`. */
  class ActivityRelease {
    const budget: Budget
    var done: bool

    constructor (budget: Budget)
      ensures this.budget == budget && !done
    {
      this.budget, this.done := budget, false;
    }

    /** Safe to call more than once: only the first call gives the activity back. */
    method Run()
      requires !done ==> budget.activities > 0
      modifies this, budget
      ensures done
      ensures budget.State() == if old(done) then old(budget.State())
                                else old(budget.State()).(activities := old(budget.activities) - 1)
    {
      if !done {
        done := true;
        budget.activities := budget.activities - 1;
      }
    }
  }

  // ---------------------------------------------------------------- the update lease

  /** The budget together with everything that holds or may return a part of it. */
  datatype Node = Node(
    budget: Counters,
    sessions: nat,          // sessions and executions that have acquired and not yet released
    open: set<nat>,         // activity closures that have not fired
    lease: bool,            // Runtime.lease
    supported: bool)        // Runtime.capabilities.Supported

  datatype Event =
    | AcquireSession
    | ReleaseSession
    | StartActivity(id: nat)
    | RunRelease(id: nat)                                // any closure, any number of times
    | Recheck(installed: bool, active: bool)             // newRuntime and Recheck
    | Begin                                              // take the lease, keep it to supersede, or refuse
    | ReleaseLease                                       // Begin's failure paths and its journal poll
    | ResumeStatus(failedAtOriginal: bool)
    | Confirm(accepted: bool)

  predicate Init(n: Node) {
    n == Node(Counters(0, n.budget.maximum, false, 0), 0, {}, false, false)
  }

  predicate Enabled(n: Node, e: Event) {
    match e
    case ReleaseSession => n.sessions > 0
    case StartActivity(id) => id !in n.open
    case _ => true
  }

  function EndLease(n: Node): Node {
    if n.lease then n.(budget := n.budget.(maintenance := false), lease := false) else n
  }

  function Apply(n: Node, e: Event): Node
    requires Enabled(n, e)
  {
    match e
    case AcquireSession =>
      if !n.budget.CanAcquire() then n
      else n.(budget := n.budget.(used := n.budget.used + 1), sessions := n.sessions + 1)
    case ReleaseSession => n.(budget := n.budget.Released(), sessions := n.sessions - 1)
    case StartActivity(id) =>
      if !n.budget.CanStartActivity() then n
      else n.(budget := n.budget.(activities := n.budget.activities + 1), open := n.open + {id})
    case RunRelease(id) =>
      if id !in n.open || n.budget.activities == 0 then n
      else n.(budget := n.budget.(activities := n.budget.activities - 1), open := n.open - {id})
    case Recheck(installed, active) =>
      if n.supported then n
      else if !installed then n.(lease := false)
      else if !active then n.(supported := true, lease := false)
      else if n.budget.Quiescent() then n.(budget := n.budget.(maintenance := true), supported := true, lease := true)
      else n.(lease := false)
    case Begin =>
      if !n.supported || n.lease then n
      else if n.budget.Quiescent() then n.(budget := n.budget.(maintenance := true), lease := true)
      else n
    case ReleaseLease => EndLease(n)
    case ResumeStatus(failed) => if failed then EndLease(n) else n
    case Confirm(accepted) => if accepted then EndLease(n) else n
  }

  predicate Possible(n: Node, events: seq<Event>)
    decreases |events|
  {
    events == [] || (Enabled(n, events[0]) && Possible(Apply(n, events[0]), events[1..]))
  }

  function After(n: Node, events: seq<Event>): Node
    requires Possible(n, events)
    decreases |events|
  {
    if events == [] then n else After(Apply(n, events[0]), events[1..])
  }

  /** The lease is the maintenance flag, and it excludes all work. */
  predicate LeaseInv(n: Node) {
    && n.lease == n.budget.maintenance
    && (n.lease ==> n.supported && n.budget.used == 0 && n.budget.activities == 0)
    && n.budget.used == n.sessions && n.budget.activities == |n.open|
    && n.budget.activities <= MAX_ACTIVITIES
    && (n.sessions > 0 ==> n.sessions <= n.budget.maximum)
  }

  lemma StepKeepsLease(n: Node, e: Event)
    requires LeaseInv(n) && Enabled(n, e)
    ensures LeaseInv(Apply(n, e))
    ensures e.ReleaseSession? ==> n.budget.used > 0
    ensures e.RunRelease? && e.id in n.open ==> n.budget.activities > 0
  {
    if e.RunRelease? && e.id in n.open {
      assert n.open == (n.open - {e.id}) + {e.id};
    }
  }

  lemma {:induction false} RunKeepsLease(n: Node, events: seq<Event>)
    requires LeaseInv(n) && Possible(n, events)
    ensures LeaseInv(After(n, events))
    decreases |events|
  {
    if events != [] {
      StepKeepsLease(n, events[0]);
      RunKeepsLease(Apply(n, events[0]), events[1..]);
    }
  }

  /** In every reachable state the lease equals the maintenance flag; while it is held there is no
      session and no unreleased activity, and none can be admitted. */
  lemma LeaseExcludesWork(start: Node, events: seq<Event>)
    requires Init(start) && Possible(start, events)
    ensures var n := After(start, events);
            && n.lease == n.budget.maintenance
            && (n.lease ==> n.sessions == 0 && n.open == {})
            && (n.lease ==> Apply(n, AcquireSession) == n)
            && (n.lease ==> forall id :: id !in n.open ==> Apply(n, StartActivity(id)) == n)
  {
    RunKeepsLease(start, events);
    var n := After(start, events);
    assert n.budget.activities == 0 ==> n.open == {};
  }

  /** In every reachable state: Begin leaves the lease held exactly if the node is supported and either held it
      already or was quiescent, and then takes it without touching any counter. */
  lemma BeginTakesLease(start: Node, events: seq<Event>)
    requires Init(start) && Possible(start, events)
    ensures var n := After(start, events); var t := Apply(n, Begin);
            && (t.lease <==> n.supported && (n.lease || (n.sessions == 0 && n.open == {})))
            && t.budget == n.budget.(maintenance := t.lease)
  {
    RunKeepsLease(start, events);
    assert |After(start, events).open| == 0 <==> After(start, events).open == {};
  }

  /** In every reachable state: after an accepted confirmation, a release, or the report of a failure at the
      original, no lease is held, and admission depends on the limits alone. */
  lemma LeaseIsReturned(start: Node, events: seq<Event>, e: Event)
    requires Init(start) && Possible(start, events)
    requires e == Confirm(true) || e == ReleaseLease || e == ResumeStatus(true)
    ensures var n := After(start, events); var t := Apply(n, e);
            && !t.lease && t.sessions == n.sessions && t.open == n.open
            && (t.budget.CanAcquire() <==> n.sessions < n.budget.maximum)
            && (t.budget.CanStartActivity() <==> |n.open| < MAX_ACTIVITIES)
  {
    RunKeepsLease(start, events);
  }

  /** In every reachable state: a node that finds an unfinished update is supported exactly once it holds the
      lease, and takes it exactly if it is quiescent. */
  lemma RecheckTakesLease(start: Node, events: seq<Event>)
    requires Init(start) && Possible(start, events) && !After(start, events).supported
    ensures var n := After(start, events); var t := Apply(n, Recheck(true, true));
            && t.supported == t.lease && (t.lease <==> n.sessions == 0 && n.open == {})
    ensures Apply(After(start, events), Recheck(true, false)).supported
    ensures forall active :: !Apply(After(start, events), Recheck(false, active)).supported
  {
    RunKeepsLease(start, events);
    assert |After(start, events).open| == 0 <==> After(start, events).open == {};
  }

  /** In every reachable state: an admitted session or activity is counted, and its release takes it back. */
  lemma AdmissionIsCounted(start: Node, events: seq<Event>, id: nat)
    requires Init(start) && Possible(start, events) && id !in After(start, events).open
    ensures var n := After(start, events); n.budget.CanAcquire() ==>
              var t := Apply(n, AcquireSession);
              t.sessions == n.sessions + 1 && Enabled(t, ReleaseSession) && Apply(t, ReleaseSession) == n
    ensures var n := After(start, events); n.budget.CanStartActivity() ==>
              var t := Apply(n, StartActivity(id));
              id in t.open && Apply(t, RunRelease(id)) == n && Apply(n, RunRelease(id)) == n
  {
    var n := After(start, events);
    assert (n.open + {id}) - {id} == n.open;
  }
}
