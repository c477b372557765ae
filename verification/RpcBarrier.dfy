/** internal/lsp/rpc_handler.go: the chain of barriers that orders lifecycle
    messages. A message waits for the done channel of the last lifecycle message
    before it; a waiting message whose context is cancelled gives up instead,
    and a lifecycle message closes its own channel either way. */
module RpcBarrier {
  import opened Base

  datatype Message = Message(lifecycle: bool, request: bool)

  datatype Phase = Queued | Handling | Finished | Skipped

  /** Messages in arrival order with their phases, the cancelled requests, and
      whether the connection's own context was cancelled. */
  datatype State = State(messages: seq<Message>, phases: seq<Phase>, cancelled: set<nat>, disconnected: bool)

  const INIT := State([], [], {}, false)

  predicate Over(p: Phase) { p.Finished? || p.Skipped? }

  predicate Begun(p: Phase) { p.Handling? || p.Finished? }

  /** The last lifecycle message that arrived before `i`: the tail it saw. */
  function Barrier(messages: seq<Message>, i: nat): (b: Option<nat>)
    requires i <= |messages|
    ensures b.Some? ==> b.value < i && messages[b.value].lifecycle
    ensures forall k :: 0 <= k < i && messages[k].lifecycle ==> b.Some? && k <= b.value
  {
    if i == 0 then None else if messages[i - 1].lifecycle then Some(i - 1) else Barrier(messages, i - 1)
  }

  predicate Formed(st: State) { |st.messages| == |st.phases| }

  /** The channel the message waits on is closed. */
  predicate Passable(st: State, i: nat)
    requires Formed(st) && i <= |st.messages|
  {
    var b := Barrier(st.messages, i);
    b.Some? ==> Over(st.phases[b.value])
  }

  datatype Step =
    | Arrive(message: Message)
    | Cancel(i: nat)
    | Disconnect
    | Start(i: nat)
    | Skip(i: nat)
    | Finish(i: nat)

  predicate At(st: State, i: nat, p: Phase) { Formed(st) && i < |st.messages| && st.phases[i] == p }

  predicate Enabled(st: State, step: Step) {
    && Formed(st)
    && match step
       case Arrive(_) => true
       case Cancel(i) => i < |st.messages| && st.messages[i].request
       case Disconnect => true
       case Start(i) => At(st, i, Queued) && Passable(st, i)
       case Skip(i) => At(st, i, Queued) && (i in st.cancelled || st.disconnected)
       case Finish(i) => At(st, i, Handling)
  }

  function Next(st: State, step: Step): State
    requires Enabled(st, step)
  {
    match step
    case Arrive(m) => st.(messages := st.messages + [m], phases := st.phases + [Queued])
    case Cancel(i) => st.(cancelled := st.cancelled + {i})
    case Disconnect => st.(disconnected := true)
    case Start(i) => st.(phases := st.phases[i := Handling])
    case Skip(i) => st.(phases := st.phases[i := Skipped])
    case Finish(i) => st.(phases := st.phases[i := Finished])
  }

  // --------------------------------------------------------------- invariant

  ghost predicate Inv(st: State) {
    && Formed(st)
    && (forall i :: 0 <= i < |st.messages| && Begun(st.phases[i]) ==> Passable(st, i))
    && (forall i :: 0 <= i < |st.messages| && st.phases[i].Skipped? ==> i in st.cancelled || st.disconnected)
    && (forall k <- st.cancelled :: k < |st.messages| && st.messages[k].request)
  }

  lemma {:induction false} BarrierPrefix(messages: seq<Message>, m: Message, i: nat)
    requires i <= |messages|
    ensures Barrier(messages + [m], i) == Barrier(messages, i)
  {
    if i > 0 { BarrierPrefix(messages, m, i - 1); }
  }

  lemma StepKeeps(st: State, step: Step)
    requires Inv(st) && Enabled(st, step)
    ensures Inv(Next(st, step))
  {
    var b := Next(st, step);
    forall i | 0 <= i < |b.messages| && Begun(b.phases[i]) ensures Passable(b, i) {
      if step.Arrive? {
        BarrierPrefix(st.messages, step.message, i);
        assert i < |st.messages| && Passable(st, i);
      } else {
        assert Passable(st, i);
      }
    }
  }

  ghost predicate CanStep(a: State, b: State) { exists step :: Enabled(a, step) && b == Next(a, step) }

  ghost predicate IsRun(run: seq<State>) {
    && run != [] && run[0] == INIT
    && forall i :: 0 <= i < |run| - 1 ==> CanStep(run[i], run[i + 1])
  }

  lemma {:induction false} RunInv(run: seq<State>, i: nat)
    requires IsRun(run) && i < |run|
    ensures Inv(run[i])
  {
    hide Inv, Enabled, Next;
    if i == 0 {
      InitInv();
    } else {
      RunInv(run, i - 1);
      assert CanStep(run[i - 1], run[i - 1 + 1]);
      var step :| Enabled(run[i - 1], step) && run[i] == Next(run[i - 1], step);
      StepKeeps(run[i - 1], step);
    }
  }

  lemma InitInv()
    ensures Inv(INIT)
  {
  }

  // ------------------------------------------------------------------- order

  /** No lifecycle message strictly between the two was given up. */
  ghost predicate Unbroken(st: State, j: nat, i: nat)
    requires Formed(st) && i <= |st.messages|
  {
    forall k :: j < k < i && st.messages[k].lifecycle ==> !st.phases[k].Skipped?
  }

  lemma {:induction false} OverBefore(st: State, j: nat, i: nat)
    requires Inv(st) && j < i < |st.messages| && Begun(st.phases[i]) && st.messages[j].lifecycle && Unbroken(st, j, i)
    ensures Over(st.phases[j])
    decreases i
  {
    assert Passable(st, i);
    var b := Barrier(st.messages, i).value;
    if b != j { OverBefore(st, j, b); }
  }

  /** In every run, a handler that has started finds every earlier lifecycle
      message over, unless a lifecycle message in between was given up. */
  lemma OverUnlessGivenUp(run: seq<State>, t: nat, j: nat, i: nat)
    requires IsRun(run) && t < |run| && j < i < |run[t].messages|
    requires Formed(run[t]) && Begun(run[t].phases[i]) && run[t].messages[j].lifecycle && Unbroken(run[t], j, i)
    ensures Over(run[t].phases[j])
  {
    RunInv(run, t);
    OverBefore(run[t], j, i);
  }

  /** While nothing is cancelled, lifecycle messages are handled one at a time
      in arrival order, and every handler starts only after all lifecycle
      messages that arrived before it have finished. */
  lemma OrderedWhileUncancelled(run: seq<State>, t: nat, j: nat, i: nat)
    requires IsRun(run) && t < |run| && run[t].cancelled == {} && !run[t].disconnected && j < i < |run[t].messages|
    requires Formed(run[t]) && Begun(run[t].phases[i]) && run[t].messages[j].lifecycle
    ensures run[t].phases[j].Finished?
  {
    RunInv(run, t);
    OverUnlessGivenUp(run, t, j, i);
  }

  // -------------------------------------------------------------- overtaking

  ghost predicate Reachable(st: State) { exists run :: IsRun(run) && run[|run| - 1] == st }

  lemma Reached(st: State, step: Step)
    requires Reachable(st) && Enabled(st, step)
    ensures Reachable(Next(st, step))
  {
    hide Enabled, Next;
    var run :| IsRun(run) && run[|run| - 1] == st;
    var more := run + [Next(st, step)];
    forall i | 0 <= i < |more| - 1 ensures CanStep(more[i], more[i + 1]) {
      if i < |run| - 1 {
        assert CanStep(run[i], run[i + 1]);
      } else {
        assert CanStep(st, Next(st, step));
      }
    }
    assert IsRun(more);
  }

  lemma {:induction false} AllArrive(messages: seq<Message>) returns (st: State)
    ensures Reachable(st) && Formed(st) && st.messages == messages && st.cancelled == {} && !st.disconnected
    ensures forall i :: 0 <= i < |messages| ==> st.phases[i] == Queued
  {
    if messages == [] {
      st := INIT;
      assert IsRun([INIT]);
    } else {
      var before := AllArrive(messages[..|messages| - 1]);
      Reached(before, Arrive(messages[|messages| - 1]));
      st := Next(before, Arrive(messages[|messages| - 1]));
    }
  }

  /** From `a` to `b` the queued lifecycle messages can be handled in order. */
  lemma {:induction false} SettleRange(st: State, a: nat, b: nat) returns (done: State)
    requires Reachable(st) && Formed(st) && a <= b <= |st.messages| && Passable(st, a)
    requires forall x :: a <= x < b ==> st.phases[x] == Queued
    ensures Reachable(done) && Formed(done) && done.messages == st.messages && done.cancelled == st.cancelled
    ensures done.disconnected == st.disconnected
    ensures Passable(done, b)
    ensures forall x :: 0 <= x < |st.messages| && !(a <= x < b) ==> done.phases[x] == st.phases[x]
    decreases b - a
  {
    if a == b {
      done := st;
    } else {
      var mid := SettleRange(st, a, b - 1);
      if st.messages[b - 1].lifecycle {
        assert mid.phases[b - 1] == Queued;
        Reached(mid, Start(b - 1));
        var started := Next(mid, Start(b - 1));
        Reached(started, Finish(b - 1));
        done := Next(started, Finish(b - 1));
      } else {
        done := mid;
      }
    }
  }

  /** `k` was given up while `j` is being handled: `i` runs all the same. */
  lemma OvertakenAfter(given: State, j: nat, k: nat, i: nat) returns (st: State)
    requires Reachable(given) && Formed(given) && j < k < i < |given.messages| && given.messages[k].lifecycle
    requires At(given, j, Handling) && At(given, k, Skipped)
    requires forall x :: k < x < |given.messages| ==> given.phases[x] == Queued
    ensures Reachable(st) && st.messages == given.messages
    ensures st.cancelled == given.cancelled && st.disconnected == given.disconnected
    ensures At(st, j, Handling) && At(st, k, Skipped) && At(st, i, Handling)
  {
    assert Passable(given, k + 1);
    var settled := SettleRange(given, k + 1, i);
    Reached(settled, Start(i));
    st := Next(settled, Start(i));
  }

  /** All messages have arrived and `j` is being handled. */
  lemma HandlingOnly(messages: seq<Message>, j: nat) returns (st: State)
    requires j < |messages|
    ensures Reachable(st) && st.messages == messages && st.cancelled == {} && !st.disconnected && At(st, j, Handling)
    ensures forall x :: j < x < |messages| ==> st.phases[x] == Queued
  {
    var arrived := AllArrive(messages);
    var settled := SettleRange(arrived, 0, j);
    Reached(settled, Start(j));
    st := Next(settled, Start(j));
  }

  /** The exception is real, for every arrival sequence: if a lifecycle request
      stands between a lifecycle message and a later one, cancelling it lets the
      later handler run while the earlier one is still being handled. */
  lemma CancelledRequestOvertakes(messages: seq<Message>, j: nat, k: nat, i: nat) returns (st: State)
    requires j < k < i < |messages| && messages[j].lifecycle && messages[k].lifecycle && messages[k].request
    ensures Reachable(st) && st.messages == messages && st.cancelled == {k} && !st.disconnected
    ensures At(st, j, Handling) && At(st, k, Skipped) && At(st, i, Handling)
  {
    var started := HandlingOnly(messages, j);
    Reached(started, Cancel(k));
    var cancelled := Next(started, Cancel(k));
    Reached(cancelled, Skip(k));
    st := OvertakenAfter(Next(cancelled, Skip(k)), j, k, i);
  }

  /** A lost connection gives up any message in between, request or not. */
  lemma LostConnectionOvertakes(messages: seq<Message>, j: nat, k: nat, i: nat) returns (st: State)
    requires j < k < i < |messages| && messages[j].lifecycle && messages[k].lifecycle
    ensures Reachable(st) && st.messages == messages && st.cancelled == {} && st.disconnected
    ensures At(st, j, Handling) && At(st, k, Skipped) && At(st, i, Handling)
  {
    var started := HandlingOnly(messages, j);
    Reached(started, Disconnect);
    var lost := Next(started, Disconnect);
    Reached(lost, Skip(k));
    st := OvertakenAfter(Next(lost, Skip(k)), j, k, i);
  }

  /** A state these messages can lead to in which the handler of `i` started. */
  ghost predicate Starts(st: State, messages: seq<Message>, i: nat, lost: bool)
    requires i < |messages|
  {
    Reachable(st) && Formed(st) && st.messages == messages && (st.disconnected ==> lost) && Begun(st.phases[i])
  }

  /** In every state these messages can lead to, connected or (if `lost`) not,
      the handler of `i` starts only once `j` is over. */
  ghost predicate AlwaysAfter(messages: seq<Message>, j: nat, i: nat, lost: bool)
    requires j < i < |messages|
  {
    forall st :: Starts(st, messages, i, lost) ==> Over(st.phases[j])
  }

  /** What can be given up: a request, or with the connection lost anything. */
  predicate MayGiveUp(m: Message, lost: bool) { m.lifecycle && (m.request || lost) }

  /** Exactly when a handler is ordered after an earlier lifecycle message: if
      and only if no lifecycle message between them is one that can be given
      up, which is a request on a live connection and any once it is lost. */
  lemma HandledAfterEarlierLifecycle(messages: seq<Message>, j: nat, i: nat, lost: bool)
    requires j < i < |messages| && messages[j].lifecycle
    ensures AlwaysAfter(messages, j, i, lost) <==> forall k :: j < k < i ==> !MayGiveUp(messages[k], lost)
  {
    if k :| j < k < i && MayGiveUp(messages[k], lost) {
      var st: State;
      if messages[k].request {
        st := CancelledRequestOvertakes(messages, j, k, i);
      } else {
        st := LostConnectionOvertakes(messages, j, k, i);
      }
      assert Starts(st, messages, i, lost) && !Over(st.phases[j]);
    } else {
      forall st | Starts(st, messages, i, lost) ensures Over(st.phases[j]) {
        var run :| IsRun(run) && run[|run| - 1] == st;
        RunInv(run, |run| - 1);
        NotGivenUp(st, j, i, lost);
        OverUnlessGivenUp(run, |run| - 1, j, i);
      }
    }
  }

  lemma NotGivenUp(st: State, j: nat, i: nat, lost: bool)
    requires Inv(st) && j < i < |st.messages| && (st.disconnected ==> lost)
    requires forall k :: j < k < i ==> !MayGiveUp(st.messages[k], lost)
    ensures Unbroken(st, j, i)
  {
    hide Passable;
    forall k | j < k < i && st.messages[k].lifecycle ensures !st.phases[k].Skipped? {
      assert !MayGiveUp(st.messages[k], lost);
    }
  }

  // -------------------------------------------------------------- the object

  class Dispatcher {
    ghost var messages: seq<Message>
    var arrived: nat
    var tail: Option<nat>

    ghost predicate Valid()
      reads this
    {
      arrived == |messages| && tail == Barrier(messages, |messages|)
    }

    constructor ()
      ensures Valid() && messages == []
    {
      messages, arrived, tail := [], 0, None;
    }

    /** The locked part of Handle: the message gets the current tail as its
        barrier, and a lifecycle message becomes the next tail. */
    method Accept(message: Message) returns (barrier: Option<nat>)
      requires Valid()
      modifies this
      ensures Valid() && messages == old(messages) + [message]
      ensures barrier == Barrier(messages, |old(messages)|)
    {
      barrier := tail;
      BarrierPrefix(messages, message, |messages|);
      messages := messages + [message];
      if message.lifecycle { tail := Some(arrived); }
      arrived := arrived + 1;
    }
  }
}
