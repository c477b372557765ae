/** internal/lifecycle: the one-owner close operation and the create/close
    gate. `CloseOperation` and `Gate` are the source's objects; the pure
    `GateState` functions specify every method, and the lemmas speak about
    arbitrary runs of gate operations by arbitrary callers. */
module Lifecycle {
  import opened Base

  /** A close operation is idle, committed by one owner, or published. */
  datatype Phase = Idle | Started | Finished(result: Errors)

  /** Channels are numbered in the order they are made. */
  type Channel = nat

  /** `made` counts the channels ever made for creator bursts and `closed`
      is the set of those already closed. */
  datatype GateState = GateState(
    phase: Phase,
    creating: nat,
    createsDone: Option<Channel>,
    closed: set<Channel>,
    made: nat)

  const FRESH_GATE := GateState(Idle, 0, None, {}, 0)

  datatype GateOp =
    | BeginCreateOp
    | EndCreateOp
    | BeginCloseOp
    | WaitForCreatesOp
    | FinishCloseOp(err: Errors)
    | WaitCloseOp

  /** The calls that panic, including closing a nil or closed channel. */
  predicate Panics(g: GateState, op: GateOp) {
    match op
    case BeginCreateOp => false
    case EndCreateOp =>
      g.creating == 0 ||
      (g.creating == 1 && (g.createsDone.None? || g.createsDone.value in g.closed))
    case BeginCloseOp => false
    case WaitForCreatesOp => g.phase.Idle?
    case FinishCloseOp(_) => g.creating != 0 || !g.phase.Started?
    case WaitCloseOp => g.phase.Idle?
  }

  function Apply(g: GateState, op: GateOp): GateState
    requires !Panics(g, op)
  {
    match op
    case BeginCreateOp =>
      if !g.phase.Idle? then g
      else if g.creating == 0 then g.(creating := 1, createsDone := Some(g.made), made := g.made + 1)
      else g.(creating := g.creating + 1)
    case EndCreateOp =>
      if g.creating == 1 then
        g.(creating := 0, createsDone := None, closed := g.closed + {g.createsDone.value})
      else g.(creating := g.creating - 1)
    case BeginCloseOp => if g.phase.Idle? then g.(phase := Started) else g
    case WaitForCreatesOp => g
    case FinishCloseOp(err) => g.(phase := Finished(err))
    case WaitCloseOp => g
  }

  /** What the call reports to its caller. */
  predicate Reply(g: GateState, op: GateOp) {
    match op
    case BeginCreateOp => g.phase.Idle?
    case EndCreateOp => g.creating == 1
    case BeginCloseOp => g.phase.Idle?
    case _ => true
  }

  /** The representation invariant of a gate. */
  predicate GateOk(g: GateState) {
    && (g.creating == 0 <==> g.createsDone.None?)
    && (g.createsDone.Some? ==> g.createsDone.value !in g.closed && g.createsDone.value < g.made)
    && (forall c <- g.closed :: c < g.made)
    && (g.phase.Finished? ==> g.creating == 0)
  }

  // ---------------------------------------------------------------- runs

  /** `ops` runs from `g` without a panic. */
  predicate Runs(g: GateState, ops: seq<GateOp>)
    decreases |ops|
  {
    ops == [] || (!Panics(g, ops[0]) && Runs(Apply(g, ops[0]), ops[1..]))
  }

  function After(g: GateState, ops: seq<GateOp>): GateState
    requires Runs(g, ops)
    decreases |ops|
  {
    if ops == [] then g else After(Apply(g, ops[0]), ops[1..])
  }

  /** How many BeginClose calls of the run were told they own teardown. */
  function Owners(g: GateState, ops: seq<GateOp>): nat
    requires Runs(g, ops)
    decreases |ops|
  {
    if ops == [] then 0
    else (if ops[0].BeginCloseOp? && Reply(g, ops[0]) then 1 else 0) + Owners(Apply(g, ops[0]), ops[1..])
  }

  /** How many BeginCreate calls of the run were admitted. */
  function Admitted(g: GateState, ops: seq<GateOp>): nat
    requires Runs(g, ops)
    decreases |ops|
  {
    if ops == [] then 0
    else (if ops[0].BeginCreateOp? && Reply(g, ops[0]) then 1 else 0) + Admitted(Apply(g, ops[0]), ops[1..])
  }

  /** The representation invariant holds after every run of a fresh gate. */
  lemma {:induction false} GateStaysOk(g: GateState, ops: seq<GateOp>)
    requires GateOk(g) && Runs(g, ops)
    ensures GateOk(After(g, ops))
    decreases |ops|
  {
    if ops != [] { GateStaysOk(Apply(g, ops[0]), ops[1..]); }
  }

  /** Exactly one BeginClose owns teardown in a run that commits close. */
  lemma {:induction false} OneCloseOwner(g: GateState, ops: seq<GateOp>)
    requires Runs(g, ops)
    ensures Owners(g, ops) == if g.phase.Idle? && !After(g, ops).phase.Idle? then 1 else 0
    decreases |ops|
  {
    if ops != [] {
      CommittedStays(Apply(g, ops[0]), ops[1..]);
      OneCloseOwner(Apply(g, ops[0]), ops[1..]);
    }
  }

  /** Commitment is permanent, and a published result never changes. */
  lemma {:induction false} CommittedStays(g: GateState, ops: seq<GateOp>)
    requires Runs(g, ops)
    ensures !g.phase.Idle? ==> !After(g, ops).phase.Idle?
    ensures g.phase.Finished? ==> After(g, ops).phase == g.phase
    decreases |ops|
  {
    if ops != [] { CommittedStays(Apply(g, ops[0]), ops[1..]); }
  }

  /** Once close is committed nobody is admitted and the creators only leave. */
  lemma {:induction false} NoAdmissionAfterCommit(g: GateState, ops: seq<GateOp>)
    requires !g.phase.Idle? && Runs(g, ops)
    ensures Admitted(g, ops) == 0
    ensures After(g, ops).creating <= g.creating
    decreases |ops|
  {
    if ops != [] { NoAdmissionAfterCommit(Apply(g, ops[0]), ops[1..]); }
  }

  /** What a WaitForCreates caller that captured `done` is blocked on. */
  predicate Released(done: Option<Channel>, g: GateState) {
    done.None? || done.value in g.closed
  }

  /** WaitForCreates, called after close committed, captures the channel of the
      current burst and blocks on it. In every later state it is released
      exactly when no admitted creator is left, although a new channel is made
      for every burst of creators. */
  lemma {:induction false} WaitForCreatesExact(g: GateState, ops: seq<GateOp>)
    requires GateOk(g) && !g.phase.Idle? && Runs(g, ops)
    ensures Released(g.createsDone, After(g, ops)) <==> After(g, ops).creating == 0
  {
    WaiterInvariant(g, g.createsDone, ops);
  }

  lemma {:induction false} WaiterInvariant(g: GateState, done: Option<Channel>, ops: seq<GateOp>)
    requires GateOk(g) && !g.phase.Idle? && Runs(g, ops)
    requires done == g.createsDone || (done.Some? && done.value in g.closed && g.creating == 0)
    ensures Released(done, After(g, ops)) <==> After(g, ops).creating == 0
    decreases |ops|
  {
    if ops != [] { WaiterInvariant(Apply(g, ops[0]), done, ops[1..]); }
  }

  // ------------------------------------------------- abstraction for clients

  /** The view the close protocols take of a gate: its phase and the set of
      calls currently admitted. */
  datatype Admission = Admission(phase: Phase, holders: set<nat>)

  const OPEN_ADMISSION := Admission(Idle, {})

  ghost predicate Abstracts(a: Admission, g: GateState) {
    GateOk(g) && g.phase == a.phase && g.creating == |a.holders|
  }

  function Admit(a: Admission, call: nat): Admission {
    if a.phase.Idle? then a.(holders := a.holders + {call}) else a
  }

  function Leave(a: Admission, call: nat): Admission { a.(holders := a.holders - {call}) }

  function Commit(a: Admission): Admission { if a.phase.Idle? then a.(phase := Started) else a }

  function Publish(a: Admission, err: Errors): Admission { a.(phase := Finished(err)) }

  /** Each gate method refines the corresponding set operation: a fresh call
      enters and an admitted call leaves. Leaving panics exactly when nobody is
      admitted, publishing exactly when somebody still is or close is not
      running, and both waits exactly before close has begun. */
  lemma GateRefinesAdmission(a: Admission, g: GateState, call: nat, err: Errors)
    requires Abstracts(a, g)
    ensures call !in a.holders ==> Abstracts(Admit(a, call), Apply(g, BeginCreateOp))
    ensures Panics(g, EndCreateOp) <==> a.holders == {}
    ensures Panics(g, WaitForCreatesOp) <==> a.phase.Idle?
    ensures Panics(g, WaitCloseOp) <==> a.phase.Idle?
    ensures call in a.holders ==>
              !Panics(g, EndCreateOp) && Abstracts(Leave(a, call), Apply(g, EndCreateOp))
              && (Reply(g, EndCreateOp) <==> Leave(a, call).holders == {})
    ensures Abstracts(Commit(a), Apply(g, BeginCloseOp))
    ensures Panics(g, FinishCloseOp(err)) <==> a.holders != {} || !a.phase.Started?
    ensures !Panics(g, FinishCloseOp(err)) ==> Abstracts(Publish(a, err), Apply(g, FinishCloseOp(err)))
  {
    assert call in a.holders ==> |a.holders - {call}| == |a.holders| - 1;
  }

  // ------------------------------------------------------------ the objects

  /** What a Wait caller sees at one look: it keeps blocking, receives the
      published result, or gives up because its own context was cancelled. */
  datatype WaitResult = Blocked | Delivered(err: Errors) | Abandoned

  /** One committed teardown operation. */
  class CloseOperation {
    var phase: Phase
    var doneMade: bool
    var doneClosed: bool

    ghost predicate Valid()
      reads this
    {
      doneMade == !phase.Idle? && doneClosed == phase.Finished?
    }

    constructor ()
      ensures Valid() && phase == Idle
    {
      phase, doneMade, doneClosed := Idle, false, false;
    }

    method Begin() returns (owner: bool)
      requires Valid()
      modifies this
      ensures Valid()
      ensures owner == old(phase).Idle?
      ensures phase == if owner then Started else old(phase)
    {
      if phase != Idle { return false; }
      phase, doneMade := Started, true;
      return true;
    }

    /** Finish panics outside teardown: only the owner may call it, once. */
    method Finish(err: Errors)
      requires Valid() && phase.Started?
      modifies this
      ensures Valid() && phase == Finished(err)
    {
      phase, doneClosed := Finished(err), true;
    }

    /** One look of Wait. The published result wins over cancellation, and a
        caller blocked on the channel wakes exactly when it is published. */
    method Wait(cancelled: bool) returns (r: WaitResult)
      requires Valid() && !phase.Idle?
      ensures forall err :: r == Delivered(err) <==> phase == Finished(err)
      ensures r.Abandoned? <==> cancelled && phase.Started?
    {
      match phase
      case Finished(err) => r := Delivered(err);
      case Started =>
        if doneClosed || !cancelled { r := Blocked; } else { r := Abandoned; }
    }
  }

  /** Coordinates child creation against one committed parent close. */
  class Gate {
    const close: CloseOperation
    var creating: nat
    var createsDone: Option<Channel>
    var closed: set<Channel>
    var made: nat

    ghost function View(): GateState
      reads this, close
    {
      GateState(close.phase, creating, createsDone, closed, made)
    }

    ghost predicate Valid()
      reads this, close
    {
      close.Valid() && GateOk(View())
    }

    constructor ()
      ensures Valid() && fresh(close) && View() == FRESH_GATE
    {
      close := new CloseOperation();
      creating, createsDone, closed, made := 0, None, {}, 0;
    }

    method BeginCreate() returns (admitted: bool)
      requires Valid()
      modifies this
      ensures Valid()
      ensures admitted == Reply(old(View()), BeginCreateOp)
      ensures View() == Apply(old(View()), BeginCreateOp)
    {
      if !close.phase.Idle? { return false; }
      if creating == 0 {
        createsDone, made := Some(made), made + 1;
      }
      creating := creating + 1;
      return true;
    }

    method EndCreate() returns (idle: bool)
      requires Valid() && creating != 0
      modifies this
      ensures Valid() && !Panics(old(View()), EndCreateOp)
      ensures idle == Reply(old(View()), EndCreateOp)
      ensures View() == Apply(old(View()), EndCreateOp)
    {
      creating := creating - 1;
      if creating != 0 { return false; }
      closed := closed + {createsDone.value};
      createsDone := None;
      return true;
    }

    method BeginClose() returns (owner: bool)
      requires Valid()
      modifies this, close
      ensures Valid()
      ensures owner == Reply(old(View()), BeginCloseOp)
      ensures View() == Apply(old(View()), BeginCloseOp)
    {
      owner := close.Begin();
    }

    method Accepting() returns (r: bool)
      requires Valid()
      ensures r <==> Reply(View(), BeginCreateOp)
    {
      r := close.phase.Idle?;
    }

    method Idle() returns (r: bool)
      requires Valid()
      ensures r <==> View().createsDone.None?
    {
      r := creating == 0;
    }

    /** The locked part of WaitForCreates: the channel the caller blocks on. */
    method CaptureCreates() returns (done: Option<Channel>)
      requires Valid() && !close.phase.Idle?
      ensures done == View().createsDone
      ensures Released(done, View()) <==> View().creating == 0
    {
      done := createsDone;
    }

    method FinishClose(err: Errors)
      requires Valid() && !Panics(View(), FinishCloseOp(err))
      modifies close
      ensures Valid()
      ensures View() == Apply(old(View()), FinishCloseOp(err))
    {
      close.Finish(err);
    }
  }
}
