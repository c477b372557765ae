/** internal/debug/session_commands.go, session_lifecycle.go and session_watch.go:
    the resumable life cycle of a debug Session, its command workers and its
    termination. */
module DebugSessions {
  import opened Base
  import opened EventStreams

  datatype Status = IsCreated | IsRunning | IsStopped | IsCompleted | IsFailed | IsTerminated

  predicate Terminal(s: Status) { s.IsCompleted? || s.IsFailed? || s.IsTerminated? }

  /** Why the runtime reported an event. */
  datatype Reason = Entry | Breakpoint | StepDone | Pause | RuntimeError | RunCompleted | RunTerminated | Unknown

  /** What a command returned: an error with or without an event, no event at
      all, or an event with its reason and whether it carries an error. */
  datatype Result = CommandError | NoEvent | Reported(reason: Reason, failed: bool)

  /** `pending` are the commands whose result was not applied yet, each with
      whether it resumed from a runtime error; `workers` are pending terminate
      goroutines; `asked` (history) is the number of events when termination
      was first requested. */
  datatype Session = Session(
    status: Status,
    afterError: bool,
    terminating: bool,
    closing: bool,
    pending: map<nat, bool>,
    workers: nat,
    stream: Stream,
    doneCloses: nat,
    asked: Option<nat>)

  function NewSession(): Session {
    Session(IsCreated, false, false, false, map[], 0, Publish(SILENT, Created, false), 0, None)
  }

  predicate Formed(d: Session) { d.stream.live <= d.stream.all.Keys }

  function Enter(d: Session, status: Status, kind: Kind): Session
    requires Formed(d)
  {
    var n := d.(status := status, afterError := false, stream := Publish(d.stream, kind, Terminal(status)));
    if Terminal(status) then n.(doneCloses := d.doneCloses + 1) else n
  }

  datatype CommandReply = Accepted | SessionRunning | SessionTerminal

  function CommandOutcome(d: Session, expected: Status): CommandReply {
    if d.terminating || d.closing then SessionTerminal
    else if d.status != expected then (if d.status.IsRunning? then SessionRunning else SessionTerminal)
    else Accepted
  }

  /** startCommand up to its unlock; `resumed` was read before, under an earlier
      lock, so it is whatever the caller saw then. */
  function StartCommand(d: Session, expected: Status, command: nat, resumed: bool): Session
    requires Formed(d)
  {
    if !CommandOutcome(d, expected).Accepted? then d
    else Enter(d, IsRunning, Running).(pending := d.pending[command := resumed])
  }

  function ApplyEvent(d: Session, reason: Reason, failed: bool, resumed: bool): Session
    requires Formed(d)
  {
    match reason
    case RuntimeError => Enter(d, IsStopped, Stopped).(afterError := true)
    case RunCompleted => Enter(d, IsCompleted, Completed)
    case RunTerminated =>
      if resumed && failed && !d.terminating then Enter(d, IsFailed, Failed) else Enter(d, IsTerminated, Terminated)
    case Unknown => Enter(d, IsFailed, Failed)
    case _ => Enter(d, IsStopped, Stopped)
  }

  /** runCommand after its command returned. */
  function ApplyResult(d: Session, command: nat, result: Result): Session
    requires Formed(d) && command in d.pending
  {
    var n := d.(pending := d.pending - {command});
    if !d.status.IsRunning? then n
    else
      match result
      case CommandError => if d.terminating then Enter(n, IsTerminated, Terminated) else Enter(n, IsFailed, Failed)
      case NoEvent => Enter(n, IsFailed, Failed)
      case Reported(reason, failed) => ApplyEvent(n, reason, failed, d.pending[command])
  }

  function RequestTermination(d: Session): Session {
    if Terminal(d.status) || d.terminating then d
    else d.(terminating := true, workers := d.workers + 1, asked := Some(|d.stream.history|))
  }

  /** terminate after the runtime was closed. */
  function Terminate(d: Session): Session
    requires Formed(d) && d.workers > 0
  {
    var n := d.(workers := d.workers - 1);
    if Terminal(d.status) then n else Enter(n, IsTerminated, Terminated)
  }

  function Watch(d: Session): Session {
    if Terminal(d.status) then d else d.(stream := Subscribe(d.stream))
  }

  datatype Step =
    | StartStep(command: nat)
    | ResumeStep(command: nat, resumed: bool)
    | ResultStep(command: nat, result: Result)
    | RequestStep
    | TerminateStep
    | BeginCloseStep
    | SettleStep
    | WatchStep
    | UnwatchStep(id: WatcherId)
    | ReceiveStep(id: WatcherId)

  predicate Enabled(d: Session, step: Step) {
    && Formed(d)
    && match step
       case StartStep(c) => c !in d.pending
       case ResumeStep(c, _) => c !in d.pending
       case ResultStep(c, _) => c in d.pending
       case TerminateStep => d.workers > 0
       case SettleStep => d.closing && d.doneCloses > 0
       case ReceiveStep(id) => id in d.stream.all && d.stream.all[id].buffer != []
       case _ => true
  }

  function Next(d: Session, step: Step): Session
    requires Enabled(d, step)
  {
    match step
    case StartStep(c) => StartCommand(d, IsCreated, c, false)
    case ResumeStep(c, resumed) => StartCommand(d, IsStopped, c, resumed)
    case ResultStep(c, result) => ApplyResult(d, c, result)
    case RequestStep => RequestTermination(d)
    case TerminateStep => Terminate(d)
    case BeginCloseStep => d.(closing := true)
    case SettleStep => d.(stream := CloseAll(d.stream))
    case WatchStep => Watch(d)
    case UnwatchStep(id) => d.(stream := Unsubscribe(d.stream, id))
    case ReceiveStep(id) => d.(stream := Receive(d.stream, id))
  }

  // --------------------------------------------------------------- invariant

  function KindOf(s: Status): Kind {
    match s
    case IsCreated => Created
    case IsRunning => Running
    case IsStopped => Stopped
    case IsCompleted => Completed
    case IsFailed => Failed
    case IsTerminated => Terminated
  }

  /** A session that is not over is running exactly while one result is due. */
  ghost predicate CommandsOk(d: Session) {
    && (!Terminal(d.status) ==> (d.status.IsRunning? <==> d.pending != map[]))
    && (forall c, e :: c in d.pending && e in d.pending ==> c == e)
  }

  /** The last event is that of the current state; terminal events come last. */
  ghost predicate HistoryOk(d: Session) {
    var h := d.stream.history;
    && 1 <= |h| && h[|h| - 1].kind == KindOf(d.status)
    && (forall i :: 0 <= i < |h| - 1 ==> !TerminalKind(h[i].kind))
    && d.doneCloses == (if Terminal(d.status) then 1 else 0)
  }

  /** Once termination was requested no event says Running. */
  ghost predicate AskedOk(d: Session) {
    && (d.terminating <==> d.asked.Some?)
    && (d.asked.Some? ==> forall i :: d.asked.value <= i < |d.stream.history| ==> !d.stream.history[i].kind.Running?)
  }

  ghost predicate WatchersOk(d: Session) {
    && (forall id <- d.stream.all :: d.stream.all[id].ending.Finished? ==>
          Terminal(d.status) && d.stream.all[id].from + |Seen(d.stream.all[id])| == |d.stream.history|)
    && (Terminal(d.status) ==> d.stream.live == {})
  }

  ghost predicate Sound(d: Session) {
    Inv(d.stream) && CommandsOk(d) && HistoryOk(d) && AskedOk(d) && WatchersOk(d)
  }

  lemma NewSound()
    ensures Sound(NewSession())
  {
    PublishKeeps(SILENT, Created, false);
  }

  /** Entering a state publishes it, and only then. */
  lemma EnterKeeps(d: Session, status: Status)
    requires Inv(d.stream) && HistoryOk(d) && WatchersOk(d) && !Terminal(d.status)
    ensures var n := Enter(d, status, KindOf(status)); Inv(n.stream) && HistoryOk(n) && WatchersOk(n)
  {
    hide WatcherOk, Offer;
    PublishKeeps(d.stream, KindOf(status), Terminal(status));
    var n := Enter(d, status, KindOf(status));
    forall id | id in n.stream.all && n.stream.all[id].ending.Finished?
      ensures Terminal(status) && n.stream.all[id].from + |Seen(n.stream.all[id])| == |n.stream.history|
    {
      if id in d.stream.live {
        LiveWatcher(d.stream, id);
        OfferOk(d.stream.all[id], d.stream.history, KindOf(status), Terminal(status));
        OfferFrom(d.stream.all[id], Event(|d.stream.history| + 1, KindOf(status)), Terminal(status));
      }
    }
  }

  lemma OfferFrom(w: Watcher, e: Event, terminal: bool)
    requires w.ending.Live?
    ensures Offer(w, e, terminal).from == w.from && (Offer(w, e, terminal).ending.Finished? ==> terminal)
    ensures Offer(w, e, terminal).ending.Finished? || Offer(w, e, terminal).ending.Lagged?
          || Offer(w, e, terminal).ending.Live?
  {
  }

  lemma StartKeeps(d: Session, expected: Status, c: nat, resumed: bool)
    requires Sound(d) && (expected.IsCreated? || expected.IsStopped?) && c !in d.pending
    ensures Sound(StartCommand(d, expected, c, resumed))
  {
    hide Inv, Publish;
    if CommandOutcome(d, expected).Accepted? { EnterKeeps(d, IsRunning); }
  }

  /** A result that still matters enters one state and publishes it. */
  lemma ResultEnters(d: Session, c: nat, result: Result)
    requires Formed(d) && c in d.pending && d.status.IsRunning?
    ensures var b := ApplyResult(d, c, result);
            && !b.status.IsRunning?
            && b == Enter(d.(pending := d.pending - {c}), b.status, KindOf(b.status)).(afterError := b.afterError)
  {
    hide Publish, ApplyEvent;
    if result.Reported? {
      EventEnters(d.(pending := d.pending - {c}), result.reason, result.failed, d.pending[c]);
    }
  }

  lemma EventEnters(d: Session, reason: Reason, failed: bool, resumed: bool)
    requires Formed(d)
    ensures var b := ApplyEvent(d, reason, failed, resumed);
            && !b.status.IsRunning? && b == Enter(d, b.status, KindOf(b.status)).(afterError := b.afterError)
  {
    hide Publish;
  }

  lemma EnteredPending(d: Session, status: Status)
    requires Formed(d)
    ensures var n := Enter(d, status, KindOf(status)); n.pending == d.pending && n.status == status
  {
    hide Publish;
  }

  lemma ResultKeeps(d: Session, c: nat, result: Result)
    requires Sound(d) && c in d.pending
    ensures Formed(d) && Sound(ApplyResult(d, c, result))
  {
    hide Inv, Publish, Enter;
    FormedOf(d);
    var n := d.(pending := d.pending - {c});
    assert n.pending == map[];
    if d.status.IsRunning? {
      var status := ApplyResult(d, c, result).status;
      ResultEnters(d, c, result);
      hide ApplyResult, ApplyEvent;
      EnterKeeps(n, status);
      EnterAsked(n, status);
      EnteredPending(n, status);
    }
  }

  lemma FormedOf(d: Session)
    requires Inv(d.stream)
    ensures Formed(d)
  {
  }

  lemma EnterAsked(d: Session, status: Status)
    requires Formed(d) && AskedOk(d) && !status.IsRunning?
    ensures AskedOk(Enter(d, status, KindOf(status)))
  {
  }

  lemma TerminationKeeps(d: Session)
    requires Sound(d)
    ensures Formed(d) && Sound(RequestTermination(d)) && (d.workers > 0 ==> Sound(Terminate(d)))
  {
    assert Formed(d);
    if !Terminal(d.status) && d.workers > 0 {
      var n := d.(workers := d.workers - 1);
      EnterKeeps(n, IsTerminated);
      EnterAsked(n, IsTerminated);
    }
    hide Inv, Publish;
  }

  lemma ReaderKeeps(d: Session, step: Step)
    requires Sound(d) && Enabled(d, step)
    requires step.BeginCloseStep? || step.SettleStep? || step.WatchStep? || step.UnwatchStep? || step.ReceiveStep?
    ensures Sound(Next(d, step))
  {
    hide WatcherOk, Inv;
    match step
    case BeginCloseStep =>
    case WatchStep => SubscribeKeeps(d.stream);
    case UnwatchStep(id) => UnsubscribeKeeps(d.stream, id);
    case ReceiveStep(id) => ReceiveKeeps(d.stream, id);
    case SettleStep => CloseAllKeeps(d.stream);
  }

  // -------------------------------------------------------------------- runs

  ghost predicate CanStep(a: Session, b: Session) { exists step :: Enabled(a, step) && b == Next(a, step) }

  ghost predicate IsRun(run: seq<Session>) {
    && run != [] && run[0] == NewSession()
    && forall i :: 0 <= i < |run| - 1 ==> CanStep(run[i], run[i + 1])
  }

  lemma StepKeeps(a: Session, step: Step)
    requires Sound(a) && Enabled(a, step)
    ensures Sound(Next(a, step))
  {
    hide Sound, StartCommand, ApplyResult, RequestTermination, Terminate;
    match step
    case StartStep(c) => StartKeeps(a, IsCreated, c, false);
    case ResumeStep(c, resumed) => StartKeeps(a, IsStopped, c, resumed);
    case ResultStep(c, result) => ResultKeeps(a, c, result);
    case RequestStep => TerminationKeeps(a);
    case TerminateStep => TerminationKeeps(a);
    case _ => ReaderKeeps(a, step);
  }

  lemma {:induction false} RunSound(run: seq<Session>, i: nat)
    requires IsRun(run) && i < |run|
    ensures Sound(run[i])
  {
    hide Sound, Enabled, Next;
    if i == 0 {
      NewSound();
    } else {
      RunSound(run, i - 1);
      assert CanStep(run[i - 1], run[i - 1 + 1]);
      var step :| Enabled(run[i - 1], step) && run[i] == Next(run[i - 1], step);
      StepKeeps(run[i - 1], step);
    }
  }

  /** In every run a session that is not over is running exactly when the result
      of exactly one command is still due. */
  lemma RunningIsOnePending(run: seq<Session>, i: nat)
    requires IsRun(run) && i < |run|
    ensures !Terminal(run[i].status) ==> (run[i].status.IsRunning? <==> |run[i].pending| == 1)
    ensures |run[i].pending| <= 1
  {
    RunSound(run, i);
    if run[i].pending != map[] {
      var c :| c in run[i].pending;
      assert run[i].pending.Keys == {c};
      assert |run[i].pending| == |run[i].pending.Keys|;
    }
  }

  /** Events are only added, and a terminal state admits no more of them. */
  ghost predicate Follows(a: Session, b: Session) {
    && a.stream.history <= b.stream.history
    && (Terminal(a.status) ==> b.status == a.status && b.stream.history == a.stream.history)
  }

  lemma StepFollows(a: Session, step: Step)
    requires Enabled(a, step)
    ensures Follows(a, Next(a, step))
  {
    hide Offered, Remaining;
  }

  lemma AnyStepFollows(a: Session, b: Session)
    requires CanStep(a, b)
    ensures Follows(a, b)
  {
    hide Enabled, Next, Follows;
    var step :| Enabled(a, step) && b == Next(a, step);
    StepFollows(a, step);
  }

  lemma {:induction false} RunFollows(run: seq<Session>, i: nat, j: nat)
    requires IsRun(run) && i <= j < |run|
    ensures Follows(run[i], run[j])
    decreases j
  {
    hide CanStep;
    if i < j {
      RunFollows(run, i, j - 1);
      AnyStepFollows(run[j - 1], run[j - 1 + 1]);
    }
  }

  /** A terminal state is published once and for good: in every later state of
      the run it is the same and no event follows it, however late a command
      result or a terminate worker arrives, and terminalDone is closed exactly
      once. */
  lemma TerminalForGood(run: seq<Session>, i: nat, j: nat)
    requires IsRun(run) && i <= j < |run|
    ensures run[i].stream.history <= run[j].stream.history
    ensures run[j].doneCloses == if Terminal(run[j].status) then 1 else 0
    ensures forall k :: 0 <= k < |run[j].stream.history| && TerminalKind(run[j].stream.history[k].kind) ==>
              k == |run[j].stream.history| - 1
    ensures Terminal(run[i].status) ==>
              run[j].status == run[i].status && run[j].stream.history == run[i].stream.history
  {
    RunSound(run, j);
    hide Inv;
    RunFollows(run, i, j);
  }

  /** No Running event follows a termination request. */
  lemma NoRunningAfterRequest(run: seq<Session>, i: nat, k: nat)
    requires IsRun(run) && i < |run| && run[i].asked.Some? && run[i].asked.value <= k < |run[i].stream.history|
    ensures !run[i].stream.history[k].kind.Running?
  {
    RunSound(run, i);
  }

  /** Every watcher sees consecutive events from its Current one on. It ends by
      the terminal event, by a cancel or close, or by one lag error at the first
      event that did not fit a full buffer. */
  lemma WatchersSeeInOrder(run: seq<Session>, i: nat, id: WatcherId)
    requires IsRun(run) && i < |run| && id in run[i].stream.all
    ensures var w := run[i].stream.all[id];
            var h := run[i].stream.history;
            && w.from + |Seen(w)| <= |h| && Seen(w) == h[w.from..w.from + |Seen(w)|]
            && (forall k :: 0 <= k < |Seen(w)| ==> Seen(w)[k].sequence == w.from + k + 1)
            && w.closes == (if w.ending.Live? then 0 else 1) && w.errors == (if w.ending.Lagged? then 1 else 0)
            && (w.ending.Live? || w.ending.Finished? ==> w.from + |Seen(w)| == |h|)
            && (w.ending.Finished? ==> 0 < |h| && TerminalKind(h[|h| - 1].kind))
            && (w.ending.Lagged? ==> w.from + |Seen(w)| < |h| && w.queued == BUFFER)
  {
    RunSound(run, i);
    assert WatcherOk(run[i].stream.all[id], run[i].stream.history, id in run[i].stream.live);
  }

  // -------------------------------------------------------------- the object

  class DebugSession {
    const events: Publisher
    var status: Status
    var afterError: bool
    var terminating: bool
    var closing: bool
    var doneCloses: nat
    ghost var pending: map<nat, bool>
    ghost var workers: nat
    ghost var asked: Option<nat>

    ghost function View(): Session
      reads this, events
    {
      Session(status, afterError, terminating, closing, pending, workers, events.View(), doneCloses, asked)
    }

    ghost predicate Valid()
      reads this, events
    {
      events.Valid() && Formed(View())
    }

    constructor ()
      ensures Valid() && fresh(events) && View() == NewSession()
    {
      events := new Publisher();
      status, afterError, terminating, closing, doneCloses := IsCreated, false, false, false, 0;
      pending, workers, asked := map[], 0, None;
      new;
      events.PublishEvent(Created, false);
    }

    method EnterStatus(s: Status, kind: Kind)
      requires Valid()
      modifies this, events
      ensures Valid() && View() == Enter(old(View()), s, kind)
    {
      status, afterError := s, false;
      events.PublishEvent(kind, Terminal(s));
      if Terminal(s) { doneCloses := doneCloses + 1; }
    }

    method StartCommandLocked(expected: Status, ghost command: nat, ghost resumed: bool) returns (r: CommandReply)
      requires Valid()
      modifies this, events
      ensures Valid() && r == CommandOutcome(old(View()), expected)
      ensures View() == StartCommand(old(View()), expected, command, resumed)
    {
      if terminating || closing { return SessionTerminal; }
      if status != expected {
        if status.IsRunning? { return SessionRunning; }
        return SessionTerminal;
      }
      EnterStatus(IsRunning, Running);
      pending := pending[command := resumed];
      return Accepted;
    }

    method ApplyRuntimeEvent(reason: Reason, failed: bool, resumed: bool)
      requires Valid()
      modifies this, events
      ensures Valid() && View() == ApplyEvent(old(View()), reason, failed, resumed)
    {
      match reason
      case RuntimeError =>
        EnterStatus(IsStopped, Stopped);
        afterError := true;
      case RunCompleted => EnterStatus(IsCompleted, Completed);
      case RunTerminated =>
        if resumed && failed && !terminating {
          EnterStatus(IsFailed, Failed);
        } else {
          EnterStatus(IsTerminated, Terminated);
        }
      case Unknown => EnterStatus(IsFailed, Failed);
      case _ => EnterStatus(IsStopped, Stopped);
    }

    method RunCommand(command: nat, resumed: bool, result: Result)
      requires Valid() && command in pending && pending[command] == resumed
      modifies this, events
      ensures Valid() && View() == ApplyResult(old(View()), command, result)
    {
      pending := pending - {command};
      if !status.IsRunning? { return; }
      match result
      case CommandError =>
        if terminating { EnterStatus(IsTerminated, Terminated); } else { EnterStatus(IsFailed, Failed); }
      case NoEvent => EnterStatus(IsFailed, Failed);
      case Reported(reason, failed) => ApplyRuntimeEvent(reason, failed, resumed);
    }

    method RequestTerminationLocked() returns (spawn: bool)
      requires Valid()
      modifies this
      ensures Valid() && View() == RequestTermination(old(View())) && spawn == (workers > old(workers))
    {
      if Terminal(status) || terminating { return false; }
      terminating := true;
      asked, workers := Some(|events.history|), workers + 1;
      return true;
    }

    method TerminateLocked()
      requires Valid() && workers > 0
      modifies this, events
      ensures Valid() && View() == Terminate(old(View()))
    {
      workers := workers - 1;
      if !Terminal(status) { EnterStatus(IsTerminated, Terminated); }
    }
  }
}
