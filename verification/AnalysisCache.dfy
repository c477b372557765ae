/** internal/language/analysis_cache.go and service.go: editor overlays, the
    analysis cache and its workers. Which workspace document a path resolves to
    may change at any time, and several spellings of a path may resolve to one
    document. */
module AnalysisCache {
  import opened Base

  type Path = string
  type WorkspaceId = nat
  type Call = nat
  type EntryRef = nat

  /** A document URI; `path` is what it decodes to, if it does. */
  datatype Uri = Uri(name: string, path: Option<Path>)

  datatype SnapshotId = OverlayId(generation: nat) | WorkspaceDocument(workspace: WorkspaceId, generation: nat)

  /** What a snapshot identifier stands for. */
  datatype Content = Content(text: string, version: Option<int>)

  datatype Source = Source(path: Path, text: string, version: Option<int>)

  datatype Snapshot = Snapshot(id: SnapshotId, uri: Uri, source: Source)

  datatype Overlay = Overlay(path: Path, version: int, text: string, generation: nat)

  /** The workspace document an absolute path resolves to. */
  datatype Retained = Retained(workspace: WorkspaceId, generation: nat, text: string)

  /** The analysis of one path and text, as the compiler returned it. */
  datatype Analysis = Analysis(path: Path, text: string)

  /** A cache entry; its worker fills in the outcome and closes `ready`. */
  datatype Entry = Entry(snapshot: Snapshot, ready: bool, analysis: Option<Analysis>, err: Errors)

  /** The part `Service.mu` protects; `entries` holds every entry ever made. */
  datatype Service = Service(
    overlays: map<Uri, Overlay>,
    cache: map<Uri, EntryRef>,
    entries: map<EntryRef, Entry>,
    generation: nat)

  const NO_DOCUMENTS := Service(map[], map[], map[], 0)

  // -------------------------------------------------------------- operations

  function OpenDocument(s: Service, uri: Uri, version: int, text: string): Service {
    if uri.path.None? then s
    else s.(generation := s.generation + 1,
            overlays := s.overlays[uri := Overlay(uri.path.value, version, text, s.generation + 1)],
            cache := s.cache - {uri})
  }

  datatype ChangeResult = Changed | NoChanges | NotOpen | StaleVersion

  function ChangeOutcome(s: Service, uri: Uri, version: int, changes: seq<string>): ChangeResult {
    if changes == [] then NoChanges
    else if uri !in s.overlays then NotOpen
    else if version <= s.overlays[uri].version then StaleVersion
    else Changed
  }

  function ChangeDocument(s: Service, uri: Uri, version: int, changes: seq<string>): Service {
    if !ChangeOutcome(s, uri, version, changes).Changed? then s
    else s.(generation := s.generation + 1,
            overlays := s.overlays[uri := s.overlays[uri].(
              version := version, text := changes[|changes| - 1], generation := s.generation + 1)],
            cache := s.cache - {uri})
  }

  function CloseDocument(s: Service, uri: Uri): Service {
    s.(overlays := s.overlays - {uri}, cache := s.cache - {uri})
  }

  /** The first half of resolveSnapshot, under the read lock. */
  function FromOverlay(s: Service, uri: Uri): Option<Snapshot> {
    if uri.path.None? || uri !in s.overlays then None else
    var o := s.overlays[uri];
    Some(Snapshot(OverlayId(o.generation), uri, Source(o.path, o.text, Some(o.version))))
  }

  /** The second half, after the lock is released: LookupDocument. */
  function FromShelf(shelf: map<Path, Retained>, uri: Uri): Option<Snapshot> {
    if uri.path.None? || uri.path.value !in shelf then None else
    var d := shelf[uri.path.value];
    Some(Snapshot(WorkspaceDocument(d.workspace, d.generation), uri, Source(uri.path.value, d.text, None)))
  }

  /** Both halves at one moment: the overlay wins over the document. */
  function Resolve(s: Service, shelf: map<Path, Retained>, uri: Uri): Option<Snapshot> {
    if FromOverlay(s, uri).Some? then FromOverlay(s, uri) else FromShelf(shelf, uri)
  }

  /** snapshotCurrentLocked. */
  predicate Current(s: Service, shelf: map<Path, Retained>, snap: Snapshot) {
    match snap.id
    case OverlayId(g) => snap.uri in s.overlays && s.overlays[snap.uri].generation == g
    case WorkspaceDocument(w, g) =>
      && snap.uri !in s.overlays && snap.source.path in shelf
      && shelf[snap.source.path].workspace == w && shelf[snap.source.path].generation == g
  }

  predicate Reuses(s: Service, snap: Snapshot) {
    snap.uri in s.cache && s.cache[snap.uri] in s.entries && s.entries[s.cache[snap.uri]].snapshot.id == snap.id
  }

  /** The locked part of analyzedDocument for a current snapshot: reuse the
      entry of that snapshot or start one. */
  function Attach(s: Service, snap: Snapshot, spare: EntryRef): Service {
    if Reuses(s, snap) then s
    else s.(cache := s.cache[snap.uri := spare], entries := s.entries[spare := Entry(snap, false, None, [])])
  }

  function Attached(s: Service, snap: Snapshot, spare: EntryRef): EntryRef {
    if Reuses(s, snap) then s.cache[snap.uri] else spare
  }

  /** runAnalysis: publish the outcome, and drop the entry if it is still the
      cached one but no longer current. */
  function FinishAnalysis(s: Service, shelf: map<Path, Retained>, e: EntryRef, ok: bool, err: Errors): Service
    requires e in s.entries
  {
    var snap := s.entries[e].snapshot;
    var outcome := if ok then Some(Analysis(snap.source.path, snap.source.text)) else None;
    var n := s.(entries := s.entries[e := Entry(snap, true, outcome, err)]);
    if snap.uri in s.cache && s.cache[snap.uri] == e && !Current(s, shelf, snap)
    then n.(cache := s.cache - {snap.uri})
    else n
  }

  // ------------------------------------------------------------------- steps

  datatype Pc =
    | Resolving(uri: Uri)
    | LookingUp(uri: Uri)
    | Resolved(snapshot: Snapshot)
    | Waiting(uri: Uri, entry: EntryRef)
    | Returned(uri: Uri, snapshot: Snapshot, analysis: Analysis)
    | Refused(uri: Uri)

  predicate InFlight(pc: Pc) { pc.Resolving? || pc.LookingUp? || pc.Resolved? || pc.Waiting? }

  /** `known` is history: what every identifier ever handed out stands for. */
  datatype State = State(
    service: Service,
    shelf: map<Path, Retained>,
    calls: map<Call, Pc>,
    known: map<SnapshotId, Content>)

  const INIT := State(NO_DOCUMENTS, map[], map[], map[])

  datatype Step =
    | Open(uri: Uri, version: int, text: string)
    | Change(uri: Uri, version: int, changes: seq<string>)
    | CloseOverlay(uri: Uri)
    | Reconcile(shelf: map<Path, Retained>)
    | Begin(call: Call, uri: Uri)
    | ReadOverlay(call: Call)
    | LookupDocument(call: Call)
    | AttachStep(call: Call, spare: EntryRef)
    | FinishStep(e: EntryRef, ok: bool, err: Errors)
    | Deliver(call: Call)
    | Cancel(call: Call)

  function ShelfContent(d: Retained): Content { Content(d.text, None) }

  function ShelfId(d: Retained): SnapshotId { WorkspaceDocument(d.workspace, d.generation) }

  /** A workspace generation names one text for good, as
      WorkspaceDocuments.GenerationIdentifies proves, under any path that the
      lookup cleans to its document's. */
  ghost predicate Agrees(shelf: map<Path, Retained>, known: map<SnapshotId, Content>) {
    && (forall p <- shelf :: ShelfId(shelf[p]) in known ==> known[ShelfId(shelf[p])] == ShelfContent(shelf[p]))
    && (forall p, q :: p in shelf && q in shelf && ShelfId(shelf[p]) == ShelfId(shelf[q]) ==>
          shelf[p].text == shelf[q].text)
  }

  ghost predicate Learned(shelf: map<Path, Retained>, known: map<SnapshotId, Content>, more: map<SnapshotId, Content>) {
    && (forall id <- known :: id in more && more[id] == known[id])
    && (forall p <- shelf :: ShelfId(shelf[p]) in more && more[ShelfId(shelf[p])] == ShelfContent(shelf[p]))
    && (forall id <- more :: id in known || id.WorkspaceDocument?)
  }

  function Learn(s: Service, known: map<SnapshotId, Content>, uri: Uri): map<SnapshotId, Content>
    requires uri in s.overlays
  {
    var o := s.overlays[uri];
    known[OverlayId(o.generation) := Content(o.text, Some(o.version))]
  }

  predicate At(st: State, call: Call) { call in st.calls }

  ghost predicate Next(a: State, step: Step, b: State) {
    match step
    case Open(uri, version, text) =>
      b == a.(service := OpenDocument(a.service, uri, version, text),
              known := if uri.path.Some?
                       then Learn(OpenDocument(a.service, uri, version, text), a.known, uri) else a.known)
    case Change(uri, version, changes) =>
      var s := ChangeDocument(a.service, uri, version, changes);
      b == a.(service := s,
              known := if ChangeOutcome(a.service, uri, version, changes).Changed?
                       then Learn(s, a.known, uri) else a.known)
    case CloseOverlay(uri) => b == a.(service := CloseDocument(a.service, uri))
    case Reconcile(shelf) =>
      Agrees(shelf, a.known) && Learned(shelf, a.known, b.known) && b == a.(shelf := shelf, known := b.known)
    case Begin(call, uri) => call !in a.calls && b == a.(calls := a.calls[call := Resolving(uri)])
    case ReadOverlay(call) =>
      && At(a, call) && a.calls[call].Resolving?
      && var uri := a.calls[call].uri;
         var snap := FromOverlay(a.service, uri);
         b == a.(calls := a.calls[call :=
              if uri.path.None? then Refused(uri) else if snap.Some? then Resolved(snap.value) else LookingUp(uri)])
    case LookupDocument(call) =>
      && At(a, call) && a.calls[call].LookingUp?
      && var uri := a.calls[call].uri;
         var snap := FromShelf(a.shelf, uri);
         b == a.(calls := a.calls[call := if snap.None? then Refused(uri) else Resolved(snap.value)])
    case AttachStep(call, spare) =>
      && At(a, call) && a.calls[call].Resolved? && spare !in a.service.entries
      && var snap := a.calls[call].snapshot;
         if !Current(a.service, a.shelf, snap) then b == a.(calls := a.calls[call := Resolving(snap.uri)])
         else b == a.(service := Attach(a.service, snap, spare),
                      calls := a.calls[call := Waiting(snap.uri, Attached(a.service, snap, spare))])
    case FinishStep(e, ok, err) =>
      && e in a.service.entries && !a.service.entries[e].ready
      && b == a.(service := FinishAnalysis(a.service, a.shelf, e, ok, err))
    case Deliver(call) =>
      && At(a, call) && a.calls[call].Waiting? && a.calls[call].entry in a.service.entries
      && var e := a.service.entries[a.calls[call].entry];
         && e.ready
         && b == a.(calls := a.calls[call :=
              if e.analysis.Some? then Returned(a.calls[call].uri, e.snapshot, e.analysis.value)
              else Refused(a.calls[call].uri)])
    case Cancel(call) =>
      At(a, call) && InFlight(a.calls[call]) && b == a.(calls := a.calls[call := Refused(UriOf(a.calls[call]))])
  }

  function UriOf(pc: Pc): Uri { if pc.Resolved? then pc.snapshot.uri else pc.uri }

  // --------------------------------------------------------------- invariant

  /** A snapshot carries exactly what its identifier stands for. */
  ghost predicate Genuine(known: map<SnapshotId, Content>, snap: Snapshot) {
    && snap.id in known && known[snap.id] == Content(snap.source.text, snap.source.version)
    && snap.uri.path == Some(snap.source.path)
  }

  ghost predicate OverlaysOk(s: Service, known: map<SnapshotId, Content>) {
    && (forall uri <- s.overlays ::
          var o := s.overlays[uri];
          && o.generation <= s.generation && uri.path == Some(o.path)
          && OverlayId(o.generation) in known && known[OverlayId(o.generation)] == Content(o.text, Some(o.version)))
    && (forall id <- known :: id.OverlayId? ==> id.generation <= s.generation)
  }

  ghost predicate ShelfOk(shelf: map<Path, Retained>, known: map<SnapshotId, Content>) {
    forall p <- shelf :: ShelfId(shelf[p]) in known && known[ShelfId(shelf[p])] == ShelfContent(shelf[p])
  }

  ghost predicate EntriesOk(s: Service, known: map<SnapshotId, Content>) {
    && (forall e <- s.entries :: Genuine(known, s.entries[e].snapshot))
    && (forall e <- s.entries :: s.entries[e].analysis.Some? ==>
          s.entries[e].analysis.value == Analysis(s.entries[e].snapshot.source.path, s.entries[e].snapshot.source.text))
    && (forall uri <- s.cache :: s.cache[uri] in s.entries && s.entries[s.cache[uri]].snapshot.uri == uri)
  }

  ghost predicate CallOk(s: Service, known: map<SnapshotId, Content>, pc: Pc) {
    match pc
    case Resolved(snap) => Genuine(known, snap)
    case Waiting(uri, e) => e in s.entries && s.entries[e].snapshot.uri == uri
    case Returned(uri, snap, analysis) =>
      Genuine(known, snap) && snap.uri == uri && analysis == Analysis(snap.source.path, snap.source.text)
    case _ => true
  }

  ghost predicate CallsOk(s: Service, known: map<SnapshotId, Content>, calls: map<Call, Pc>) {
    forall c <- calls :: CallOk(s, known, calls[c])
  }

  ghost predicate Inv(st: State) {
    && OverlaysOk(st.service, st.known) && ShelfOk(st.shelf, st.known)
    && EntriesOk(st.service, st.known) && CallsOk(st.service, st.known, st.calls)
  }

  /** Identifiers keep their meaning as more of them become known. */
  ghost predicate Extends(known: map<SnapshotId, Content>, more: map<SnapshotId, Content>) {
    forall id <- known :: id in more && more[id] == known[id]
  }

  /** Entries are never rewritten except by their own worker's outcome. */
  ghost predicate EntriesKept(a: Service, b: Service) {
    forall e <- a.entries :: e in b.entries && b.entries[e].snapshot == a.entries[e].snapshot
  }

  lemma CallsKept(a: State, b: State)
    requires CallsOk(a.service, a.known, a.calls) && Extends(a.known, b.known) && EntriesKept(a.service, b.service)
    ensures CallsOk(b.service, b.known, a.calls)
  {
    forall c | c in a.calls ensures CallOk(b.service, b.known, a.calls[c]) {
      assert CallOk(a.service, a.known, a.calls[c]);
    }
  }

  /** An overlay gets a generation nobody had before. */
  lemma OverlayLearned(s: Service, known: map<SnapshotId, Content>, uri: Uri, o: Overlay)
    requires OverlaysOk(s, known) && uri.path == Some(o.path) && o.generation == s.generation + 1
    ensures var n := s.(generation := s.generation + 1, overlays := s.overlays[uri := o], cache := s.cache - {uri});
            OverlaysOk(n, Learn(n, known, uri)) && Extends(known, Learn(n, known, uri))
  {
  }

  lemma EntriesLearned(s: Service, n: Service, known: map<SnapshotId, Content>, more: map<SnapshotId, Content>)
    requires EntriesOk(s, known) && Extends(known, more) && n.entries == s.entries
    requires forall uri <- n.cache :: uri in s.cache && n.cache[uri] == s.cache[uri]
    ensures EntriesOk(n, more)
  {
  }

  lemma EditKeeps(a: State, step: Step, b: State)
    requires Inv(a) && (step.Open? || step.Change? || step.CloseOverlay?) && Next(a, step, b)
    ensures Inv(b) && Extends(a.known, b.known) && EntriesKept(a.service, b.service) && b.calls == a.calls
  {
    hide CallsOk, EntriesOk;
    if step.Open? && step.uri.path.Some? {
      OverlayLearned(a.service, a.known, step.uri, b.service.overlays[step.uri]);
    } else if step.Change? && ChangeOutcome(a.service, step.uri, step.version, step.changes).Changed? {
      OverlayLearned(a.service, a.known, step.uri, b.service.overlays[step.uri]);
    }
    EntriesLearned(a.service, b.service, a.known, b.known);
    CallsKept(a, b);
  }

  lemma ReconcileKeeps(a: State, step: Step, b: State)
    requires Inv(a) && step.Reconcile? && Next(a, step, b)
    ensures Inv(b) && Extends(a.known, b.known) && EntriesKept(a.service, b.service) && b.calls == a.calls
  {
    hide CallsOk;
    CallsKept(a, b);
  }

  lemma FinishKeeps(a: State, step: Step, b: State)
    requires Inv(a) && step.FinishStep? && Next(a, step, b)
    ensures Inv(b) && Extends(a.known, b.known) && EntriesKept(a.service, b.service) && b.calls == a.calls
  {
    hide CallsOk, Current;
    CallsKept(a, b);
  }

  /** Equal identifiers under one URI are equal snapshots. */
  lemma SnapshotIdentified(known: map<SnapshotId, Content>, x: Snapshot, y: Snapshot)
    requires Genuine(known, x) && Genuine(known, y) && x.id == y.id && x.uri == y.uri
    ensures x == y
  {
  }

  lemma AttachKeeps(a: State, step: Step, b: State)
    requires Inv(a) && step.AttachStep? && Next(a, step, b)
    ensures Inv(b) && Extends(a.known, b.known) && EntriesKept(a.service, b.service)
    ensures b.calls[step.call].Waiting? ==>
              && Current(a.service, a.shelf, a.calls[step.call].snapshot)
              && b.service.entries[b.calls[step.call].entry].snapshot == a.calls[step.call].snapshot
  {
    hide CallsOk, Current;
    var snap := a.calls[step.call].snapshot;
    assert Genuine(a.known, snap) by { CallAt(a, step.call); }
    assert EntriesKept(a.service, b.service);
    CallsKept(a, b);
    CallMoves(b.service, b.known, a.calls, step.call, b.calls[step.call]);
  }

  lemma CallAt(a: State, c: Call)
    requires CallsOk(a.service, a.known, a.calls) && c in a.calls
    ensures CallOk(a.service, a.known, a.calls[c])
  {
  }

  lemma CallMoves(s: Service, known: map<SnapshotId, Content>, calls: map<Call, Pc>, c: Call, pc: Pc)
    requires CallsOk(s, known, calls) && CallOk(s, known, pc)
    ensures CallsOk(s, known, calls[c := pc])
  {
  }

  lemma CallStepKeeps(a: State, step: Step, b: State)
    requires Inv(a) && (step.Begin? || step.ReadOverlay? || step.LookupDocument? || step.Deliver? || step.Cancel?)
    requires Next(a, step, b)
    ensures Inv(b) && b.known == a.known && b.service == a.service
  {
    hide CallsOk;
    if step.Deliver? { CallAt(a, step.call); }
    assert CallOk(a.service, a.known, b.calls[step.call]);
    CallMoves(a.service, a.known, a.calls, step.call, b.calls[step.call]);
  }

  // -------------------------------------------------------------------- runs

  ghost predicate CanStep(a: State, b: State) { exists step :: Next(a, step, b) }

  ghost predicate IsRun(run: seq<State>) {
    && run != [] && run[0] == INIT
    && forall i :: 0 <= i < |run| - 1 ==> CanStep(run[i], run[i + 1])
  }

  /** How one step moves one call. */
  ghost predicate CallFollows(a: State, b: State, c: Call) {
    c in b.calls ==>
      || (c in a.calls && b.calls[c] == a.calls[c])
      || b.calls[c].Resolving? || b.calls[c].LookingUp? || b.calls[c].Refused? || b.calls[c].Resolved?
      || (b.calls[c].Waiting? && c in a.calls && a.calls[c].Resolved? && Confirmed(a, b, c))
      || (b.calls[c].Returned? && c in a.calls && a.calls[c].Waiting? && Handed(a, b, c))
  }

  /** The call was attached to an entry for a snapshot current at that moment. */
  ghost predicate Confirmed(a: State, b: State, c: Call)
    requires c in a.calls && a.calls[c].Resolved? && c in b.calls && b.calls[c].Waiting?
  {
    && Current(a.service, a.shelf, a.calls[c].snapshot)
    && b.calls[c].entry in b.service.entries
    && b.service.entries[b.calls[c].entry].snapshot == a.calls[c].snapshot
  }

  ghost predicate Handed(a: State, b: State, c: Call)
    requires c in a.calls && a.calls[c].Waiting? && c in b.calls && b.calls[c].Returned?
  {
    && a.calls[c].entry in a.service.entries
    && b.calls[c].snapshot == a.service.entries[a.calls[c].entry].snapshot
  }

  lemma StepKeeps(a: State, step: Step, b: State)
    requires Inv(a) && Next(a, step, b)
    ensures Inv(b) && EntriesKept(a.service, b.service)
  {
    hide Inv, Next, Extends;
    if step.Open? || step.Change? || step.CloseOverlay? { EditKeeps(a, step, b); }
    else if step.Reconcile? { ReconcileKeeps(a, step, b); }
    else if step.FinishStep? { FinishKeeps(a, step, b); }
    else if step.AttachStep? { AttachKeeps(a, step, b); }
    else { CallStepKeeps(a, step, b); }
  }

  lemma StepFollows(a: State, step: Step, b: State, c: Call)
    requires Inv(a) && Next(a, step, b)
    ensures CallFollows(a, b, c)
  {
    hide Inv, Current;
    if step.AttachStep? && step.call == c { AttachKeeps(a, step, b); }
  }

  lemma AnyStep(a: State, b: State, c: Call)
    requires Inv(a) && CanStep(a, b)
    ensures Inv(b) && EntriesKept(a.service, b.service) && CallFollows(a, b, c)
  {
    hide Inv, Next, CallFollows, EntriesKept;
    var step :| Next(a, step, b);
    StepKeeps(a, step, b);
    StepFollows(a, step, b, c);
  }

  lemma {:induction false} RunInv(run: seq<State>, i: nat)
    requires IsRun(run) && i < |run|
    ensures Inv(run[i])
  {
    hide CanStep;
    if i > 0 {
      RunInv(run, i - 1);
      hide Inv;
      AnyStep(run[i - 1], run[i - 1 + 1], 0);
    }
  }

  /** Snapshot `snap` was current at step `i`, while the call was in flight. */
  ghost predicate CurrentDuring(run: seq<State>, i: nat, c: Call, snap: Snapshot) {
    i < |run| && c in run[i].calls && InFlight(run[i].calls[c]) && Current(run[i].service, run[i].shelf, snap)
  }

  lemma {:induction false} WaitsForCurrent(run: seq<State>, j: nat, c: Call) returns (i: nat)
    requires IsRun(run) && j < |run| && c in run[j].calls && run[j].calls[c].Waiting?
    ensures i <= j && run[j].calls[c].entry in run[j].service.entries
    ensures CurrentDuring(run, i, c, run[j].service.entries[run[j].calls[c].entry].snapshot)
    decreases j
  {
    hide CanStep, Inv, Current;
    RunInv(run, j - 1);
    AnyStep(run[j - 1], run[j - 1 + 1], c);
    if c in run[j - 1].calls && run[j].calls[c] == run[j - 1].calls[c] {
      i := WaitsForCurrent(run, j - 1, c);
    } else {
      i := j - 1;
    }
  }

  lemma {:induction false} ReturnsCurrent(run: seq<State>, j: nat, c: Call) returns (i: nat)
    requires IsRun(run) && j < |run| && c in run[j].calls && run[j].calls[c].Returned?
    ensures i <= j && CurrentDuring(run, i, c, run[j].calls[c].snapshot)
    decreases j
  {
    hide CanStep, Inv, Current;
    RunInv(run, j - 1);
    AnyStep(run[j - 1], run[j - 1 + 1], c);
    if c in run[j - 1].calls && run[j].calls[c] == run[j - 1].calls[c] {
      i := ReturnsCurrent(run, j - 1, c);
    } else {
      i := WaitsForCurrent(run, j - 1, c);
    }
  }

  /** In every run, an analysis that is returned is the analysis of exactly the
      text and path of a snapshot of the asked URI that was current at some
      moment of the call. */
  lemma ReturnedAnalysisIsCurrent(run: seq<State>, j: nat, c: Call)
    requires IsRun(run) && j < |run| && c in run[j].calls && run[j].calls[c].Returned?
    ensures var r := run[j].calls[c];
            && r.snapshot.uri == r.uri
            && r.analysis == Analysis(r.snapshot.source.path, r.snapshot.source.text)
            && exists i :: 0 <= i <= j && CurrentDuring(run, i, c, r.snapshot)
  {
    hide CanStep, Current;
    RunInv(run, j);
    assert CallOk(run[j].service, run[j].known, run[j].calls[c]) by { CallAt(run[j], c); }
    var i := ReturnsCurrent(run, j, c);
  }

  // ------------------------------------------------------------------- cache

  /** The cached entry of `uri`, if it is for the snapshot current there. */
  predicate Useful(s: Service, shelf: map<Path, Retained>, uri: Uri) {
    uri in s.cache && s.cache[uri] in s.entries && Current(s, shelf, s.entries[s.cache[uri]].snapshot)
  }

  /** Snapshots current under one URI at one moment have one identifier. */
  lemma CurrentUnique(st: State, x: Snapshot, y: Snapshot)
    requires Inv(st) && Genuine(st.known, x) && Genuine(st.known, y) && x.uri == y.uri
    requires Current(st.service, st.shelf, x) && Current(st.service, st.shelf, y)
    ensures x == y
  {
    hide EntriesOk, CallsOk;
  }

  /** A genuine snapshot is current exactly if its URI resolves to it now. */
  lemma CurrentIsResolved(st: State, snap: Snapshot)
    requires Inv(st) && Genuine(st.known, snap)
    ensures Current(st.service, st.shelf, snap) <==> Resolve(st.service, st.shelf, snap.uri) == Some(snap)
  {
    hide EntriesOk, CallsOk;
    var now := Resolve(st.service, st.shelf, snap.uri);
    if now.Some? && now.value.id == snap.id {
      ResolvedGenuine(st, snap.uri);
      SnapshotIdentified(st.known, now.value, snap);
    }
  }

  lemma ResolvedGenuine(st: State, uri: Uri)
    requires Inv(st) && Resolve(st.service, st.shelf, uri).Some?
    ensures Genuine(st.known, Resolve(st.service, st.shelf, uri).value)
  {
    hide EntriesOk, CallsOk;
  }

  lemma AttachLeavesUseful(a: State, snap: Snapshot, spare: EntryRef, uri: Uri)
    requires Inv(a) && Useful(a.service, a.shelf, uri) && Genuine(a.known, snap) && Current(a.service, a.shelf, snap)
    ensures var b := Attach(a.service, snap, spare);
            uri in b.cache && b.cache[uri] == a.service.cache[uri]
  {
    hide Current, OverlaysOk, ShelfOk, CallsOk;
    if snap.uri == uri { CurrentUnique(a, a.service.entries[a.service.cache[uri]].snapshot, snap); }
  }

  /** No step but closing the document removes or replaces a cache entry whose
      snapshot is current before and after it. */
  lemma StepLeavesUseful(a: State, step: Step, b: State, uri: Uri)
    requires Inv(a) && Next(a, step, b) && step != CloseOverlay(uri)
    requires Useful(a.service, a.shelf, uri)
    requires Current(b.service, b.shelf, a.service.entries[a.service.cache[uri]].snapshot)
    ensures uri in b.service.cache && b.service.cache[uri] == a.service.cache[uri]
  {
    hide Inv, Next, Useful, Current;
    if step.Open? || step.Change? {
      EditLeavesUseful(a, step, b, uri);
    } else if step.AttachStep? {
      AttachStepLeavesUseful(a, step, b, uri);
    } else {
      OtherLeavesUseful(a, step, b, uri);
    }
  }

  lemma AttachStepLeavesUseful(a: State, step: Step, b: State, uri: Uri)
    requires Inv(a) && Next(a, step, b) && step.AttachStep? && Useful(a.service, a.shelf, uri)
    ensures uri in b.service.cache && b.service.cache[uri] == a.service.cache[uri]
  {
    hide Inv, Attach, Attached, Current;
    var snap := a.calls[step.call].snapshot;
    if Current(a.service, a.shelf, snap) {
      GenuineCall(a, step.call);
      AttachLeavesUseful(a, snap, step.spare, uri);
    }
  }

  lemma OtherLeavesUseful(a: State, step: Step, b: State, uri: Uri)
    requires Next(a, step, b) && !step.Open? && !step.Change? && !step.AttachStep? && step != CloseOverlay(uri)
    requires Useful(a.service, a.shelf, uri)
    requires Current(b.service, b.shelf, a.service.entries[a.service.cache[uri]].snapshot)
    ensures uri in b.service.cache && b.service.cache[uri] == a.service.cache[uri]
  {
    hide Agrees, Learned, FromOverlay, FromShelf, Attach, Attached, OpenDocument, ChangeDocument;
  }

  /** The step is not the one that closes this document. */
  ghost predicate StepsElsewhere(a: State, b: State, uri: Uri) {
    exists step :: step != CloseOverlay(uri) && Next(a, step, b)
  }

  /** The snapshot stays current from `i` to `j`, and the document is not closed. */
  ghost predicate StaysCurrent(run: seq<State>, i: nat, j: nat, snap: Snapshot)
    requires i <= j < |run|
  {
    && (forall k :: i <= k <= j ==> Current(run[k].service, run[k].shelf, snap))
    && (forall k :: i <= k < j ==> StepsElsewhere(run[k], run[k + 1], snap.uri))
  }

  lemma AnyStepLeavesUseful(a: State, b: State, uri: Uri)
    requires Inv(a) && StepsElsewhere(a, b, uri) && Useful(a.service, a.shelf, uri)
    requires Current(b.service, b.shelf, a.service.entries[a.service.cache[uri]].snapshot)
    ensures Useful(b.service, b.shelf, uri) && b.service.cache[uri] == a.service.cache[uri]
    ensures b.service.entries[b.service.cache[uri]].snapshot == a.service.entries[a.service.cache[uri]].snapshot
  {
    hide Inv, Next, Current;
    var step :| step != CloseOverlay(uri) && Next(a, step, b);
    StepLeavesUseful(a, step, b, uri);
    StepKeeps(a, step, b);
  }

  lemma CurrentUpTo(run: seq<State>, i: nat, j: nat, snap: Snapshot)
    requires i < j < |run| && StaysCurrent(run, i, j, snap)
    ensures StaysCurrent(run, i, j - 1, snap) && Current(run[j].service, run[j].shelf, snap)
    ensures StepsElsewhere(run[j - 1], run[j], snap.uri)
  {
    hide Current, StepsElsewhere;
    assert StepsElsewhere(run[j - 1], run[j - 1 + 1], snap.uri);
  }

  lemma CachedUnder(st: State, uri: Uri)
    requires Inv(st) && Useful(st.service, st.shelf, uri)
    ensures st.service.entries[st.service.cache[uri]].snapshot.uri == uri
  {
  }

  /** In every run, as long as the snapshot of a cache entry stays current and
      its document is not closed, no worker and no other call removes or replaces
      the entry. In particular a worker of an older snapshot never touches a
      newer entry. */
  lemma {:induction false} UsefulEntryStays(run: seq<State>, i: nat, j: nat, uri: Uri)
    requires IsRun(run) && i <= j < |run| && Useful(run[i].service, run[i].shelf, uri)
    requires StaysCurrent(run, i, j, run[i].service.entries[run[i].service.cache[uri]].snapshot)
    ensures Useful(run[j].service, run[j].shelf, uri) && run[j].service.cache[uri] == run[i].service.cache[uri]
    ensures run[j].service.entries[run[j].service.cache[uri]].snapshot
            == run[i].service.entries[run[i].service.cache[uri]].snapshot
    decreases j
  {
    hide Inv, IsRun, Current, StepsElsewhere, StaysCurrent;
    if i < j {
      var snap := run[i].service.entries[run[i].service.cache[uri]].snapshot;
      RunInv(run, i);
      RunInv(run, j - 1);
      CachedUnder(run[i], uri);
      CurrentUpTo(run, i, j, snap);
      UsefulEntryStays(run, i, j - 1, uri);
      AnyStepLeavesUseful(run[j - 1], run[j], uri);
    }
  }

  lemma GenuineCall(a: State, c: Call)
    requires Inv(a) && c in a.calls && a.calls[c].Resolved?
    ensures Genuine(a.known, a.calls[c].snapshot)
  {
    CallAt(a, c);
  }

  lemma EditLeavesUseful(a: State, step: Step, b: State, uri: Uri)
    requires Inv(a) && Next(a, step, b) && (step.Open? || step.Change?)
    requires Useful(a.service, a.shelf, uri)
    requires Current(b.service, b.shelf, a.service.entries[a.service.cache[uri]].snapshot)
    ensures uri in b.service.cache && b.service.cache[uri] == a.service.cache[uri]
  {
    hide ShelfOk, CallsOk;
  }

  // -------------------------------------------------------------- the object

  class LanguageService {
    var overlays: map<Uri, Overlay>
    var cache: map<Uri, EntryRef>
    var entries: map<EntryRef, Entry>
    var generation: nat

    ghost function View(): Service
      reads this
    {
      Service(overlays, cache, entries, generation)
    }

    constructor ()
      ensures View() == NO_DOCUMENTS
    {
      overlays, cache, entries, generation := map[], map[], map[], 0;
    }

    method Open(uri: Uri, version: int, text: string) returns (ok: bool)
      modifies this
      ensures View() == OpenDocument(old(View()), uri, version, text) && ok == uri.path.Some?
    {
      if uri.path.None? { return false; }
      generation := generation + 1;
      overlays := overlays[uri := Overlay(uri.path.value, version, text, generation)];
      cache := cache - {uri};
      return true;
    }

    method Change(uri: Uri, version: int, changes: seq<string>) returns (r: ChangeResult)
      modifies this
      ensures r == ChangeOutcome(old(View()), uri, version, changes)
      ensures View() == ChangeDocument(old(View()), uri, version, changes)
    {
      if changes == [] { return NoChanges; }
      if uri !in overlays { return NotOpen; }
      var document := overlays[uri];
      if version <= document.version { return StaleVersion; }
      generation := generation + 1;
      document := document.(version := version, text := changes[|changes| - 1], generation := generation);
      overlays := overlays[uri := document];
      cache := cache - {uri};
      return Changed;
    }

    method Close(uri: Uri)
      modifies this
      ensures View() == CloseDocument(old(View()), uri)
    {
      overlays := overlays - {uri};
      cache := cache - {uri};
    }

    method SnapshotCurrent(shelf: map<Path, Retained>, snap: Snapshot) returns (r: bool)
      ensures r <==> Current(View(), shelf, snap)
    {
      if snap.id.OverlayId? { return snap.uri in overlays && overlays[snap.uri].generation == snap.id.generation; }
      if snap.uri in overlays { return false; }
      if snap.source.path !in shelf { return false; }
      var found := shelf[snap.source.path];
      return found.workspace == snap.id.workspace && found.generation == snap.id.generation;
    }

    /** The locked part of analyzedDocument: None means resolve again. */
    method AttachEntry(shelf: map<Path, Retained>, snap: Snapshot, spare: EntryRef) returns (e: Option<EntryRef>)
      requires spare !in entries && forall uri <- cache :: cache[uri] in entries
      modifies this
      ensures e.Some? <==> Current(old(View()), shelf, snap)
      ensures e.None? ==> View() == old(View())
      ensures e.Some? ==> View() == Attach(old(View()), snap, spare) && e.value == Attached(old(View()), snap, spare)
    {
      var current := SnapshotCurrent(shelf, snap);
      if !current { return None; }
      if snap.uri in cache && entries[cache[snap.uri]].snapshot.id == snap.id { return Some(cache[snap.uri]); }
      entries := entries[spare := Entry(snap, false, None, [])];
      cache := cache[snap.uri := spare];
      return Some(spare);
    }

    method RunAnalysis(shelf: map<Path, Retained>, e: EntryRef, ok: bool, err: Errors)
      requires e in entries && !entries[e].ready
      modifies this
      ensures View() == FinishAnalysis(old(View()), shelf, e, ok, err)
    {
      var snap := entries[e].snapshot;
      var current := SnapshotCurrent(shelf, snap);
      if snap.uri in cache && cache[snap.uri] == e && !current { cache := cache - {snap.uri}; }
      var outcome := if ok then Some(Analysis(snap.source.path, snap.source.text)) else None;
      entries := entries[e := Entry(snap, true, outcome, err)];
    }
  }
}
