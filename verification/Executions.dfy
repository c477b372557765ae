/** internal/exec/execution.go: the one-shot life cycle of an Execution and what
    its watchers see. */
module Executions {
  import opened EventStreams

  datatype Status = IsCreated | IsRunning | IsCompleted | IsFailed | IsCancelled

  predicate Terminal(s: Status) { s.IsCompleted? || s.IsFailed? || s.IsCancelled? }

  /** `worker` is the pending run goroutine, `cancelled` whether the runtime was
      cancelled, and `doneCloses` how often runDone was closed. */
  datatype Execution = Execution(status: Status, stream: Stream, worker: bool, cancelled: bool, doneCloses: nat)

  function NewExecution(): Execution {
    Execution(IsCreated, Publish(SILENT, Created, false), false, false, 0)
  }

  predicate Formed(e: Execution) { e.stream.live <= e.stream.all.Keys }

  function Finish(e: Execution, status: Status, kind: Kind): Execution
    requires Formed(e)
  {
    e.(status := status, stream := Publish(e.stream, kind, true), doneCloses := e.doneCloses + 1)
  }

  function Start(e: Execution): Execution
    requires Formed(e)
  {
    if !e.status.IsCreated? then e
    else e.(status := IsRunning, stream := Publish(e.stream, Started, false), worker := true)
  }

  function Cancel(e: Execution): Execution
    requires Formed(e)
  {
    if e.status.IsCreated? then Finish(e, IsCancelled, Cancelled).(cancelled := true)
    else if e.status.IsRunning? then e.(cancelled := true)
    else e
  }

  /** How the runtime's run ended. */
  datatype Outcome = Succeeded | ContextCancelled | Erred

  function Settled(e: Execution, outcome: Outcome): Execution
    requires Formed(e)
  {
    var n := e.(worker := false);
    if !e.status.IsRunning? then n
    else if outcome.Succeeded? then Finish(n, IsCompleted, Completed)
    else if outcome.ContextCancelled? && e.cancelled then Finish(n, IsCancelled, Cancelled)
    else Finish(n, IsFailed, Failed)
  }

  function Watch(e: Execution): Execution {
    if Terminal(e.status) then e else e.(stream := Subscribe(e.stream))
  }

  datatype Step =
    | StartStep
    | CancelStep
    | RunEnds(outcome: Outcome)
    | WatchStep
    | UnwatchStep(id: WatcherId)
    | ReceiveStep(id: WatcherId)
    | SettleStep

  predicate Enabled(e: Execution, step: Step) {
    && Formed(e)
    && match step
       case RunEnds(_) => e.worker
       case ReceiveStep(id) => id in e.stream.all && e.stream.all[id].buffer != []
       case SettleStep => e.doneCloses > 0
       case _ => true
  }

  function Next(e: Execution, step: Step): Execution
    requires Enabled(e, step)
  {
    match step
    case StartStep => Start(e)
    case CancelStep => Cancel(e)
    case RunEnds(outcome) => Settled(e, outcome)
    case WatchStep => Watch(e)
    case UnwatchStep(id) => e.(stream := Unsubscribe(e.stream, id))
    case ReceiveStep(id) => e.(stream := Receive(e.stream, id))
    case SettleStep => e.(stream := CloseAll(e.stream))
  }

  // --------------------------------------------------------------- invariant

  function KindOf(s: Status): Kind {
    match s
    case IsCreated => Created
    case IsRunning => Started
    case IsCompleted => Completed
    case IsFailed => Failed
    case IsCancelled => Cancelled
  }

  /** The events so far are those of the states passed through. */
  ghost predicate HistoryOk(e: Execution) {
    var h := e.stream.history;
    && 1 <= |h| <= 3 && h[|h| - 1].kind == KindOf(e.status)
    && (e.status.IsCreated? ==> |h| == 1) && (e.status.IsRunning? ==> |h| == 2)
    && (forall i :: 0 <= i < |h| - 1 ==> !TerminalKind(h[i].kind))
    && e.doneCloses == (if Terminal(e.status) then 1 else 0)
    && (e.worker ==> !e.status.IsCreated?) && (e.status.IsRunning? ==> e.worker)
  }

  /** Nobody lags, and whoever finished has seen the terminal event. */
  ghost predicate WatchersOk(e: Execution) {
    && (forall id <- e.stream.all :: e.stream.all[id].from >= 1 && !e.stream.all[id].ending.Lagged?)
    && (forall id <- e.stream.all :: e.stream.all[id].ending.Finished? ==>
          Terminal(e.status) && e.stream.all[id].from + |Seen(e.stream.all[id])| == |e.stream.history|)
    && (Terminal(e.status) ==> e.stream.live == {})
  }

  ghost predicate Sound(e: Execution) { Inv(e.stream) && HistoryOk(e) && WatchersOk(e) }

  /** A publication before the third event finds room in every buffer. */
  lemma RoomyPublish(e: Execution, kind: Kind, terminal: bool)
    requires Sound(e) && !Terminal(e.status)
    ensures var s := Publish(e.stream, kind, terminal);
            && Inv(s) && (terminal ==> s.live == {})
            && (forall id <- s.all :: s.all[id].from >= 1 && !s.all[id].ending.Lagged?)
            && (forall id <- s.all :: s.all[id].ending.Finished? ==>
                  terminal && s.all[id].from + |Seen(s.all[id])| == |s.history|)
  {
    hide Offer, Inv, Seen;
    LiveKnown(e.stream);
    var s := Publish(e.stream, kind, terminal);
    PublishKeeps(e.stream, kind, terminal);
    forall id | id in s.all
      ensures s.all[id].from >= 1 && !s.all[id].ending.Lagged?
      ensures s.all[id].ending.Finished? ==> terminal && s.all[id].from + |Seen(s.all[id])| == |s.history|
    {
      if id in e.stream.live {
        WatcherOf(e.stream, id);
        RoomyOffer(e.stream.all[id], e.stream.history, kind, terminal);
      }
    }
  }

  lemma WatcherOf(s: Stream, id: WatcherId)
    requires Inv(s) && id in s.live
    ensures id in s.all && WatcherOk(s.all[id], s.history, true)
  {
  }

  lemma RoomyOffer(w: Watcher, history: seq<Event>, kind: Kind, terminal: bool)
    requires WatcherOk(w, history, true) && w.from >= 1 && |history| <= 2
    ensures var o := Offer(w, Event(|history| + 1, kind), terminal);
            && o.from >= 1 && !o.ending.Lagged?
            && (o.ending.Finished? ==> terminal && o.from + |Seen(o)| == |history| + 1)
  {
    assert |w.buffer| <= |Seen(w)|;
  }

  lemma NewSound()
    ensures Sound(NewExecution())
  {
    PublishKeeps(SILENT, Created, false);
  }

  lemma LifecycleKeeps(e: Execution, step: Step)
    requires Sound(e) && Enabled(e, step) && (step.StartStep? || step.CancelStep? || step.RunEnds?)
    ensures Sound(Next(e, step))
  {
    hide WatcherOk, Offer, Inv;
    var b := Next(e, step);
    if b.stream != e.stream {
      RoomyPublish(e, KindOf(b.status), Terminal(b.status));
      assert b.stream == Publish(e.stream, KindOf(b.status), Terminal(b.status));
    }
  }

  lemma ReaderKeeps(e: Execution, step: Step)
    requires Sound(e) && Enabled(e, step) && !step.StartStep? && !step.CancelStep? && !step.RunEnds?
    ensures Sound(Next(e, step))
  {
    hide WatcherOk, Inv;
    match step
    case WatchStep => SubscribeKeeps(e.stream);
    case UnwatchStep(id) => UnsubscribeKeeps(e.stream, id);
    case ReceiveStep(id) => ReceiveKeeps(e.stream, id);
    case SettleStep => CloseAllKeeps(e.stream);
  }

  // -------------------------------------------------------------------- runs

  ghost predicate CanStep(a: Execution, b: Execution) { exists step :: Enabled(a, step) && b == Next(a, step) }

  ghost predicate IsRun(run: seq<Execution>) {
    && run != [] && run[0] == NewExecution()
    && forall i :: 0 <= i < |run| - 1 ==> CanStep(run[i], run[i + 1])
  }

  lemma StepKeeps(a: Execution, b: Execution)
    requires Sound(a) && CanStep(a, b)
    ensures Sound(b)
  {
    hide Sound, Next, Enabled;
    var step :| Enabled(a, step) && b == Next(a, step);
    if step.StartStep? || step.CancelStep? || step.RunEnds? { LifecycleKeeps(a, step); } else { ReaderKeeps(a, step); }
  }

  lemma {:induction false} RunSound(run: seq<Execution>, i: nat)
    requires IsRun(run) && i < |run|
    ensures Sound(run[i])
  {
    hide Sound, CanStep;
    if i == 0 {
      NewSound();
    } else {
      RunSound(run, i - 1);
      StepKeeps(run[i - 1], run[i - 1 + 1]);
    }
  }

  /** In every run, what a watcher has seen, read or buffered, is exactly the
      events after its Current one in order: all of them while it watches, all
      to the terminal one if it finished, a prefix if it was cancelled. No
      watcher of an Execution ever lags, and no channel is closed twice. */
  lemma WatchersSeeEverything(run: seq<Execution>, i: nat, id: WatcherId)
    requires IsRun(run) && i < |run| && id in run[i].stream.all
    ensures var w := run[i].stream.all[id];
            var h := run[i].stream.history;
            && w.from + |Seen(w)| <= |h| && Seen(w) == h[w.from..w.from + |Seen(w)|]
            && (forall k :: 0 <= k < |Seen(w)| ==> Seen(w)[k].sequence == w.from + k + 1)
            && !w.ending.Lagged? && w.errors == 0 && w.closes <= 1
            && (w.ending.Live? || w.ending.Finished? ==> w.from + |Seen(w)| == |h|)
            && (w.ending.Finished? ==> 0 < |h| && TerminalKind(h[|h| - 1].kind))
  {
    RunSound(run, i);
    assert WatcherOk(run[i].stream.all[id], run[i].stream.history, id in run[i].stream.live);
  }

  /** Events are only added, and a terminal state admits no more of them. */
  ghost predicate Follows(a: Execution, b: Execution) {
    && a.stream.history <= b.stream.history
    && (Terminal(a.status) ==> b.status == a.status && b.stream.history == a.stream.history)
  }

  lemma StepFollows(a: Execution, step: Step)
    requires Enabled(a, step)
    ensures Follows(a, Next(a, step))
  {
    hide Offered, Remaining;
  }

  lemma AnyStepFollows(a: Execution, b: Execution)
    requires CanStep(a, b)
    ensures Follows(a, b)
  {
    hide Enabled, Next, Follows;
    var step :| Enabled(a, step) && b == Next(a, step);
    StepFollows(a, step);
  }

  lemma {:induction false} RunFollows(run: seq<Execution>, i: nat, j: nat)
    requires IsRun(run) && i <= j < |run|
    ensures Follows(run[i], run[j])
    decreases j
  {
    hide CanStep;
    if i < j {
      RunFollows(run, i, j - 1);
      AnyStepFollows(run[j - 1], run[j - 1 + 1]);
    }
  }

  /** A terminal state is entered and published once: in every later state of
      the run it is the same, no event follows it, and runDone is closed exactly
      when it is entered. */
  lemma TerminalForGood(run: seq<Execution>, i: nat, j: nat)
    requires IsRun(run) && i <= j < |run|
    ensures run[i].stream.history <= run[j].stream.history
    ensures run[j].doneCloses == if Terminal(run[j].status) then 1 else 0
    ensures Terminal(run[i].status) ==>
              run[j].status == run[i].status && run[j].stream.history == run[i].stream.history
  {
    RunSound(run, j);
    RunFollows(run, i, j);
  }

  // -------------------------------------------------------------- the object

  datatype StartResult = StartedRun | AlreadyRunning | AlreadyTerminal

  class ExecutionResource {
    const events: Publisher
    var status: Status
    var worker: bool
    var cancelled: bool
    var doneCloses: nat

    ghost function View(): Execution
      reads this, events
    {
      Execution(status, events.View(), worker, cancelled, doneCloses)
    }

    ghost predicate Valid()
      reads this, events
    {
      events.Valid() && Formed(View())
    }

    constructor ()
      ensures Valid() && fresh(events) && View() == NewExecution()
    {
      events := new Publisher();
      status, worker, cancelled, doneCloses := IsCreated, false, false, 0;
      new;
      events.PublishEvent(Created, false);
    }

    method StartRun() returns (r: StartResult)
      requires Valid()
      modifies this, events
      ensures Valid() && View() == Start(old(View()))
      ensures r.StartedRun? <==> old(status).IsCreated?
      ensures r.AlreadyRunning? <==> old(status).IsRunning?
    {
      match status
      case IsCreated =>
        status := IsRunning;
        events.PublishEvent(Started, false);
        worker := true;
        r := StartedRun;
      case IsRunning => r := AlreadyRunning;
      case _ => r := AlreadyTerminal;
    }

    method CancelRun()
      requires Valid()
      modifies this, events
      ensures Valid() && View() == Cancel(old(View()))
    {
      if status.IsCreated? {
        cancelled, status := true, IsCancelled;
        events.PublishEvent(Cancelled, true);
        doneCloses := doneCloses + 1;
      } else if status.IsRunning? {
        cancelled := true;
      }
    }

    method FinishRun(outcome: Outcome)
      requires Valid()
      modifies this, events
      ensures Valid() && View() == Settled(old(View()), outcome)
    {
      worker := false;
      if !status.IsRunning? { return; }
      var kind := Failed;
      if outcome.Succeeded? {
        status, kind := IsCompleted, Completed;
      } else if outcome.ContextCancelled? && cancelled {
        status, kind := IsCancelled, Cancelled;
      } else {
        status := IsFailed;
      }
      events.PublishEvent(kind, true);
      doneCloses := doneCloses + 1;
    }
  }
}
