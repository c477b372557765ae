/** internal/exec/session.go: the debug Plan of one executable Session, compiled
    on first use by one caller at a time and leased to debug runtimes. */
module DebugPlans {
  import opened Base
  import opened Lifecycle

  type PlanRef = nat

  /** The fields `mu` protects. Channels are numbered in the order they are
      made; `closed` is the set of those already closed. */
  datatype Plans = Plans(
    debugPlan: Option<PlanRef>,
    compiling: bool,
    compileDone: Option<Channel>,
    failure: Option<Errors>,
    runtimes: nat,
    runtimeDone: Option<Channel>,
    closed: set<Channel>,
    made: nat)

  const NO_PLANS := Plans(None, false, None, None, 0, None, {}, 0)

  predicate OpenChannel(p: Plans, c: Option<Channel>) {
    c.Some? ==> c.value !in p.closed && c.value < p.made
  }

  /** The representation invariant: a channel is open exactly while what it
      announces is in progress, so no close of a nil or closed channel. */
  predicate PlansOk(p: Plans) {
    && p.compiling == p.compileDone.Some?
    && (p.runtimes == 0 <==> p.runtimeDone.None?)
    && OpenChannel(p, p.compileDone) && OpenChannel(p, p.runtimeDone)
    && (p.compileDone.Some? && p.runtimeDone.Some? ==> p.compileDone.value != p.runtimeDone.value)
    && (forall c <- p.closed :: c < p.made)
    && (p.runtimes > 0 ==> p.debugPlan.Some?)
    && (p.debugPlan.Some? ==> !p.compiling)
  }

  /** What one locked look of acquireDebugRuntimeTarget decides. */
  datatype Look =
    | Closing
    | Lease(plan: PlanRef)
    | CompileFailed(err: Errors)
    | Await(done: Channel)
    | Compile(done: Channel)

  function LookAt(p: Plans, accepting: bool): Look
    requires PlansOk(p)
  {
    if !accepting then Closing
    else if p.debugPlan.Some? then Lease(p.debugPlan.value)
    else if p.failure.Some? then CompileFailed(p.failure.value)
    else if p.compiling then Await(p.compileDone.value)
    else Compile(p.made)
  }

  function AddLease(p: Plans): Plans {
    if p.runtimes == 0 then p.(runtimes := 1, runtimeDone := Some(p.made), made := p.made + 1)
    else p.(runtimes := p.runtimes + 1)
  }

  function AfterLook(p: Plans, accepting: bool): (q: Plans)
    requires PlansOk(p)
    ensures PlansOk(q)
  {
    match LookAt(p, accepting)
    case Lease(_) => AddLease(p)
    case Compile(done) => p.(compiling := true, compileDone := Some(done), made := p.made + 1)
    case _ => p
  }

  /** A compilation returned `plan` and `err`; no plan at all is an error. */
  predicate Failed(plan: Option<PlanRef>, err: Errors) { err != [] || plan.None? }

  /** The error recorded for a failed compilation. */
  const NO_PLAN_ERROR: Errors := [0]

  function Failure(err: Errors): Errors { if err == [] then NO_PLAN_ERROR else err }

  /** The locked section after a compilation. A failure other than the caller's
      own cancellation is remembered for every later caller. */
  function AfterCompile(p: Plans, accepting: bool, plan: Option<PlanRef>, err: Errors, cancelled: bool): (q: Plans)
    requires PlansOk(p) && p.compiling
    ensures PlansOk(q) && !q.compiling
  {
    var kept :=
      if !Failed(plan, err) && accepting then AddLease(p.(debugPlan := plan))
      else if Failed(plan, err) && !cancelled then p.(failure := Some(Failure(err)))
      else p;
    kept.(compiling := false, compileDone := None, closed := kept.closed + {p.compileDone.value})
  }

  /** The compiled plan is closed by its compiler instead of being kept. */
  predicate Discards(accepting: bool, plan: Option<PlanRef>, err: Errors) {
    plan.Some? && (err != [] || !accepting)
  }

  function Release(p: Plans): (q: Plans)
    requires PlansOk(p)
    ensures PlansOk(q) && q.debugPlan == p.debugPlan && q.compiling == p.compiling
  {
    if p.runtimes == 0 then p
    else if p.runtimes == 1 then
      p.(runtimes := 0, runtimeDone := None, closed := p.closed + {p.runtimeDone.value})
    else p.(runtimes := p.runtimes - 1)
  }

  predicate Reached(c: Option<Channel>, closed: set<Channel>) { c.None? || c.value in closed }

  /** Leasing and releasing are inverse on the count, and a lease is only
      released silently when there is none. */
  lemma LeaseThenRelease(p: Plans)
    requires PlansOk(p) && p.debugPlan.Some?
    ensures Release(AddLease(p)).runtimes == p.runtimes
    ensures Release(AddLease(p)).runtimeDone == p.runtimeDone
    ensures Release(p).runtimes == p.runtimes <==> p.runtimes == 0
  {
  }

  class DebugPlanOwner {
    const children: Gate
    var debugPlan: Option<PlanRef>
    var compiling: bool
    var compileDone: Option<Channel>
    var failure: Option<Errors>
    var runtimes: nat
    var runtimeDone: Option<Channel>
    var closed: set<Channel>
    var made: nat

    ghost function View(): Plans
      reads this
    {
      Plans(debugPlan, compiling, compileDone, failure, runtimes, runtimeDone, closed, made)
    }

    ghost predicate Valid()
      reads this, children, children.close
    {
      children.Valid() && PlansOk(View())
    }

    ghost predicate Admits()
      reads children, children.close
    {
      Reply(children.View(), BeginCreateOp)
    }

    constructor (children: Gate)
      requires children.Valid()
      ensures Valid() && View() == NO_PLANS && this.children == children
    {
      this.children := children;
      debugPlan, compiling, compileDone, failure := None, false, None, None;
      runtimes, runtimeDone, closed, made := 0, None, {}, 0;
    }

    method NewDebugRuntimeTarget()
      modifies this
      ensures View() == AddLease(old(View()))
    {
      if runtimes == 0 {
        runtimeDone, made := Some(made), made + 1;
      }
      runtimes := runtimes + 1;
    }

    /** One turn of the acquire loop up to its unlock. */
    method LookForPlan() returns (look: Look)
      requires Valid()
      modifies this
      ensures Valid()
      ensures look == LookAt(old(View()), Admits())
      ensures View() == AfterLook(old(View()), Admits())
    {
      var accepting := children.Accepting();
      if !accepting { return Closing; }
      if debugPlan.Some? {
        NewDebugRuntimeTarget();
        return Lease(debugPlan.value);
      }
      if failure.Some? { return CompileFailed(failure.value); }
      if compiling { return Await(compileDone.value); }
      look := Compile(made);
      compiling, compileDone, made := true, Some(made), made + 1;
    }

    method FinishCompile(plan: Option<PlanRef>, err: Errors, cancelled: bool) returns (leased: bool, discard: bool)
      requires Valid() && compiling
      modifies this
      ensures Valid()
      ensures View() == AfterCompile(old(View()), Admits(), plan, err, cancelled)
      ensures leased <==> !Failed(plan, err) && Admits()
      ensures discard <==> Discards(Admits(), plan, err)
    {
      var accepting := children.Accepting();
      var failed := err != [] || plan.None?;
      leased := false;
      ghost var before := View();
      var done := compileDone.value;
      if !failed && accepting {
        debugPlan := plan;
        NewDebugRuntimeTarget();
        leased := true;
      } else if failed && !cancelled {
        failure := Some(if err == [] then NO_PLAN_ERROR else err);
      }
      compiling, closed, compileDone := false, closed + {done}, None;
      discard := (err != [] || !accepting) && plan.Some?;
      assert View() == AfterCompile(before, accepting, plan, err, cancelled);
    }

    method ReleaseDebugRuntime()
      requires Valid()
      modifies this
      ensures Valid() && View() == Release(old(View()))
    {
      if runtimes == 0 { return; }
      runtimes := runtimes - 1;
      if runtimes == 0 {
        closed := closed + {runtimeDone.value};
        runtimeDone := None;
      }
    }

    /** The channels releasePlans blocks on. */
    method CapturePlanWaits() returns (compile: Option<Channel>, leases: Option<Channel>)
      requires Valid()
      ensures Reached(compile, closed) <==> !View().compiling
      ensures Reached(leases, closed) <==> View().runtimes == 0
      ensures compile == compileDone && leases == runtimeDone
    {
      compile, leases := compileDone, runtimeDone;
    }

    method TakeDebugPlan() returns (plan: Option<PlanRef>)
      requires Valid() && runtimes == 0
      modifies this
      ensures Valid() && plan == old(debugPlan) && View() == old(View()).(debugPlan := None)
    {
      plan, debugPlan := debugPlan, None;
    }
  }
}
