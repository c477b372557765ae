/** internal/workspace/refresh.go and workspace.go: the retained documents of one
    workspace, their derived order and file list, revisions and generations.
    What the filesystem holds is an input; a file is named by its path. */
module WorkspaceDocuments {
  import opened Base

  type Path = string

  datatype File = File(path: Path)

  datatype Document = Document(
    file: File, loaded: bool, text: string, diagnostics: seq<string>, revision: nat, generation: nat)

  /** Everything but revision and generation. */
  predicate SameState(a: Document, b: Document) {
    a.file == b.file && a.loaded == b.loaded && a.text == b.text && a.diagnostics == b.diagnostics
  }

  datatype State = Opening | Ready | Failed | Closed

  datatype Workspace = Workspace(
    state: State,
    closing: bool,
    documents: map<Path, Document>,
    explicitPaths: set<Path>,
    order: seq<Path>,
    files: seq<File>,
    next: nat)

  const FRESH := Workspace(Opening, false, map[], {}, [], [], 0)

  // ------------------------------------------------------------ sorted paths

  /** The byte order of strings. */
  predicate Less(a: Path, b: Path) {
    if b == [] then false
    else if a == [] then true
    else if a[0] != b[0] then a[0] < b[0]
    else Less(a[1..], b[1..])
  }

  lemma {:induction false} LessIrreflexive(a: Path)
    ensures !Less(a, a)
  {
    if a != [] { LessIrreflexive(a[1..]); }
  }

  lemma {:induction false} LessTotal(a: Path, b: Path)
    ensures Less(a, b) || Less(b, a) || a == b
    ensures !(Less(a, b) && Less(b, a)) && !Less(a, a)
    decreases |a|
  {
    LessIrreflexive(a);
    if a != [] && b != [] {
      LessTotal(a[1..], b[1..]);
      if a[0] == b[0] {
        assert a == [a[0]] + a[1..] && b == [b[0]] + b[1..];
      }
    }
  }

  lemma {:induction false} LessTransitive(a: Path, b: Path, c: Path)
    requires Less(a, b) && Less(b, c)
    ensures Less(a, c)
    decreases |a|
  {
    if a != [] && a[0] == b[0] == c[0] { LessTransitive(a[1..], b[1..], c[1..]); }
  }

  predicate Ascending(paths: seq<Path>) { forall i, j :: 0 <= i < j < |paths| ==> Less(paths[i], paths[j]) }

  ghost predicate Lists(paths: seq<Path>, keys: set<Path>) { forall p :: p in paths <==> p in keys }

  /** A set has one ascending list. */
  lemma {:induction false} AscendingUnique(a: seq<Path>, b: seq<Path>, keys: set<Path>)
    requires Ascending(a) && Ascending(b) && Lists(a, keys) && Lists(b, keys)
    ensures a == b
    decreases |a|
  {
    assert a != [] ==> a[0] in keys;
    assert b != [] ==> b[0] in keys;
    if a != [] {
      assert a[0] in keys && a[0] in b;
      HeadIsLeast(a, b[0]);
      HeadIsLeast(b, a[0]);
      LessTotal(a[0], b[0]);
      TailLists(a, keys);
      TailLists(b, keys);
      AscendingUnique(a[1..], b[1..], keys - {a[0]});
    }
  }

  lemma HeadIsLeast(paths: seq<Path>, p: Path)
    requires Ascending(paths) && p in paths
    ensures p == paths[0] || Less(paths[0], p)
  {
  }

  lemma TailLists(paths: seq<Path>, keys: set<Path>)
    requires paths != [] && Ascending(paths) && Lists(paths, keys)
    ensures Ascending(paths[1..]) && Lists(paths[1..], keys - {paths[0]})
  {
    forall p ensures p in paths[1..] <==> p in keys - {paths[0]} {
      LessTotal(paths[0], paths[0]);
      if p in paths[1..] { HeadBelow(paths, p); }
    }
  }

  lemma HeadBelow(paths: seq<Path>, p: Path)
    requires paths != [] && Ascending(paths) && p in paths[1..]
    ensures Less(paths[0], p) && p in paths
  {
    var i :| 0 <= i < |paths[1..]| && paths[1..][i] == p;
    assert paths[i + 1] == p;
  }

  /** Insertion keeps a list ascending. */
  function Insert(paths: seq<Path>, p: Path): seq<Path> {
    if paths == [] || Less(p, paths[0]) then [p] + paths else [paths[0]] + Insert(paths[1..], p)
  }

  lemma {:induction false} InsertAscending(paths: seq<Path>, p: Path)
    requires Ascending(paths) && p !in paths
    ensures Ascending(Insert(paths, p)) && forall q :: q in Insert(paths, p) <==> q in paths || q == p
  {
    if paths == [] {
    } else if Less(p, paths[0]) {
      forall j | 0 <= j < |paths| ensures Less(p, paths[j]) {
        if j > 0 { LessTransitive(p, paths[0], paths[j]); }
      }
    } else {
      LessTotal(p, paths[0]);
      InsertAscending(paths[1..], p);
      var rest := Insert(paths[1..], p);
      forall j | 0 <= j < |rest| ensures Less(paths[0], rest[j]) {
        assert rest[j] in rest;
        if rest[j] != p { HeadBelow(paths, rest[j]); }
      }
      assert paths == [paths[0]] + paths[1..];
    }
  }

  /** sort.Strings of the keys. */
  method SortPaths(keys: set<Path>) returns (paths: seq<Path>)
    ensures Ascending(paths) && Lists(paths, keys)
  {
    paths := [];
    var remaining := keys;
    while remaining != {}
      invariant remaining <= keys && Ascending(paths) && Lists(paths, keys - remaining)
      decreases |remaining|
    {
      var p :| p in remaining;
      InsertAscending(paths, p);
      paths := Insert(paths, p);
      remaining := remaining - {p};
    }
  }

  // ----------------------------------------------------------- reconciliation

  function FilesOf(order: seq<Path>, documents: map<Path, Document>): seq<File>
    requires forall p <- order :: p in documents
  {
    seq(|order|, i requires 0 <= i < |order| => documents[order[i]].file)
  }

  /** Order and files are the sorted document map, each under its own path. */
  ghost predicate Indexed(w: Workspace) {
    && Ascending(w.order) && Lists(w.order, w.documents.Keys)
    && w.files == FilesOf(w.order, w.documents)
    && forall p <- w.documents :: w.documents[p].file == File(p)
  }

  /** What discovery found under a subtree. */
  datatype Content = Content(documents: map<Path, Document>, order: seq<Path>, files: seq<File>)

  /** Discovery lists exactly the documents it found, each once and named by
      its own path. */
  ghost predicate ContentOk(c: Content) {
    && Lists(c.order, c.documents.Keys)
    && (forall i, j :: 0 <= i < j < |c.order| ==> c.order[i] != c.order[j])
    && (forall p <- c.documents :: c.documents[p].file == File(p))
  }

  predicate InSubtree(p: Path, subtree: Path) {
    subtree == "." || p == subtree || (|p| > |subtree| && p[..|subtree|] == subtree && p[|subtree|] == '/')
  }

  /** The documents with the last generation given out. */
  datatype Shelf = Shelf(documents: map<Path, Document>, next: nat)

  /** A discovered document is retained unless its state is already there. */
  function Put(s: Shelf, p: Path, d: Document): Shelf {
    if p in s.documents && SameState(s.documents[p], d) then s
    else
      var revised := if p in s.documents then d.(revision := s.documents[p].revision + 1) else d;
      Shelf(s.documents[p := revised.(generation := s.next + 1)], s.next + 1)
  }

  function Members(order: seq<Path>): set<Path> { set p | p in order }

  lemma MembersAppend(order: seq<Path>, p: Path)
    ensures Members(order + [p]) == Members(order) + {p}
  {
  }

  function PutAll(s: Shelf, order: seq<Path>, found: map<Path, Document>): Shelf
    requires forall p <- order :: p in found
    decreases |order|
  {
    if order == [] then s else PutAll(Put(s, order[0], found[order[0]]), order[1..], found)
  }

  /** What a reconciled subtree no longer holds is dropped. */
  function Prune(documents: map<Path, Document>, subtree: Path, found: map<Path, Document>): map<Path, Document> {
    map p | p in documents && (!InSubtree(p, subtree) || p in found) :: documents[p]
  }

  function ReconciledTree(w: Workspace, subtree: Path, c: Content): Shelf
    requires forall p <- c.order :: p in c.documents
  {
    PutAll(Shelf(Prune(w.documents, subtree, c.documents), w.next), c.order, c.documents)
  }

  function ReconciledDocument(w: Workspace, p: Path, found: Option<Document>): Shelf {
    match found
    case None => Shelf(w.documents - {p}, w.next)
    case Some(d) => Put(Shelf(w.documents, w.next), p, d)
  }

  function NumberAll(order: seq<Path>, documents: map<Path, Document>, next: nat): Shelf
    requires forall p <- order :: p in documents
    decreases |order|
  {
    if order == [] then Shelf(documents, next)
    else NumberAll(order[1..], documents[order[0] := documents[order[0]].(generation := next + 1)], next + 1)
  }

  // ------------------------------------------------------------ what Put does

  /** Every document of `b` was in `a`, or carries a later generation. */
  ghost predicate Derives(a: Shelf, b: Shelf) {
    && a.next <= b.next
    && forall p <- b.documents ::
         (p in a.documents && b.documents[p] == a.documents[p]) || a.next < b.documents[p].generation <= b.next
  }

  /** Each retained document has a generation of its own that was given out. */
  ghost predicate Numbered(s: Shelf) {
    && (forall p <- s.documents :: s.documents[p].generation <= s.next)
    && (forall p, q :: p in s.documents && q in s.documents ==>
          s.documents[p].generation == s.documents[q].generation ==> p == q)
  }

  /** A document that stays keeps its revision, or gets a higher one along with
      a new state. */
  ghost predicate Revises(a: Shelf, b: Shelf) {
    forall p :: p in a.documents && p in b.documents ==>
      b.documents[p] == a.documents[p] || b.documents[p].revision > a.documents[p].revision
  }

  ghost predicate Outside(a: Shelf, b: Shelf, keys: set<Path>) {
    forall p :: p !in keys ==>
      (p in a.documents <==> p in b.documents) && (p in a.documents ==> b.documents[p] == a.documents[p])
  }

  lemma PutNumbered(s: Shelf, p: Path, d: Document)
    requires Numbered(s)
    ensures Numbered(Put(s, p, d))
  {
  }

  lemma PutKeeps(s: Shelf, p: Path, d: Document)
    ensures Derives(s, Put(s, p, d)) && Revises(s, Put(s, p, d)) && Outside(s, Put(s, p, d), {p})
    ensures p in Put(s, p, d).documents && SameState(Put(s, p, d).documents[p], d)
    ensures Put(s, p, d).documents.Keys == s.documents.Keys + {p}
  {
  }

  lemma DerivesTransitive(a: Shelf, b: Shelf, c: Shelf)
    requires Derives(a, b) && Derives(b, c)
    ensures Derives(a, c)
  {
  }

  lemma RevisesTransitive(a: Shelf, b: Shelf, c: Shelf)
    requires Revises(a, b) && Revises(b, c) && a.documents.Keys <= b.documents.Keys
    ensures Revises(a, c)
  {
  }

  lemma {:induction false} PutAllNumbered(s: Shelf, order: seq<Path>, found: map<Path, Document>)
    requires Numbered(s) && (forall p <- order :: p in found)
    ensures Numbered(PutAll(s, order, found))
    decreases |order|
  {
    hide Numbered, Put;
    if order != [] {
      PutNumbered(s, order[0], found[order[0]]);
      PutAllNumbered(Put(s, order[0], found[order[0]]), order[1..], found);
    }
  }

  lemma {:induction false} PutAllKeeps(s: Shelf, order: seq<Path>, found: map<Path, Document>)
    requires forall p <- order :: p in found
    ensures Derives(s, PutAll(s, order, found)) && Revises(s, PutAll(s, order, found))
    ensures PutAll(s, order, found).documents.Keys == s.documents.Keys + Members(order)
    decreases |order|
  {
    hide Derives, Revises, Put, Outside, SameState;
    if order == [] {
      KeepsItself(s);
      assert Members(order) == {};
    } else {
      var t := Put(s, order[0], found[order[0]]);
      PutKeeps(s, order[0], found[order[0]]);
      PutAllKeeps(t, order[1..], found);
      DerivesTransitive(s, t, PutAll(s, order, found));
      RevisesTransitive(s, t, PutAll(s, order, found));
      assert Members(order) == {order[0]} + Members(order[1..]);
    }
  }

  lemma KeepsItself(s: Shelf)
    ensures Derives(s, s) && Revises(s, s)
  {
  }

  lemma {:induction false} PutAllOutside(s: Shelf, order: seq<Path>, found: map<Path, Document>)
    requires forall p <- order :: p in found
    ensures Outside(s, PutAll(s, order, found), Members(order))
    decreases |order|
  {
    if order != [] {
      PutKeeps(s, order[0], found[order[0]]);
      PutAllOutside(Put(s, order[0], found[order[0]]), order[1..], found);
      assert forall p :: p !in order ==> p !in order[1..] && p != order[0];
    }
  }

  lemma {:induction false} PutAllStates(s: Shelf, order: seq<Path>, found: map<Path, Document>, p: Path)
    requires (forall q <- order :: q in found) && p in order
    requires forall i, j :: 0 <= i < j < |order| ==> order[i] != order[j]
    ensures p in PutAll(s, order, found).documents && SameState(PutAll(s, order, found).documents[p], found[p])
    decreases |order|
  {
    var t := Put(s, order[0], found[order[0]]);
    PutKeeps(s, order[0], found[order[0]]);
    if p == order[0] {
      assert p !in order[1..];
      PutAllOutside(t, order[1..], found);
    } else {
      PutAllStates(t, order[1..], found, p);
    }
  }

  lemma PruneKeeps(documents: map<Path, Document>, next: nat, subtree: Path, found: map<Path, Document>)
    requires Numbered(Shelf(documents, next))
    ensures var s := Shelf(Prune(documents, subtree, found), next);
            Numbered(s) && Derives(Shelf(documents, next), s) && Revises(Shelf(documents, next), s)
  {
  }

  /** Reconciling a subtree with what was found there: outside it nothing moves,
      inside it exactly the found documents are retained, in the found state. */
  lemma TreeReconciled(w: Workspace, subtree: Path, c: Content)
    requires Numbered(Shelf(w.documents, w.next)) && ContentOk(c)
    requires forall p <- c.documents :: InSubtree(p, subtree)
    ensures var s := ReconciledTree(w, subtree, c);
            && Numbered(s) && Derives(Shelf(w.documents, w.next), s) && Revises(Shelf(w.documents, w.next), s)
            && (forall p :: !InSubtree(p, subtree) ==>
                  (p in s.documents <==> p in w.documents) && (p in w.documents ==> s.documents[p] == w.documents[p]))
            && (forall p :: InSubtree(p, subtree) ==> (p in s.documents <==> p in c.documents))
            && (forall p <- c.documents :: SameState(s.documents[p], c.documents[p]))
  {
    hide InSubtree, Numbered, Derives, Revises;
    var before := Shelf(w.documents, w.next);
    var pruned := Shelf(Prune(w.documents, subtree, c.documents), w.next);
    PruneKeeps(w.documents, w.next, subtree, c.documents);
    PutAllNumbered(pruned, c.order, c.documents);
    PutAllKeeps(pruned, c.order, c.documents);
    PutAllOutside(pruned, c.order, c.documents);
    PutAllRevises(before, pruned, ReconciledTree(w, subtree, c));
    DerivesTransitive(before, pruned, ReconciledTree(w, subtree, c));
    forall p | p in c.documents
      ensures p in c.order && SameState(ReconciledTree(w, subtree, c).documents[p], c.documents[p]) {
      PutAllStates(pruned, c.order, c.documents, p);
    }
  }

  /** A document that pruning dropped is not found again, so what stays through
      both steps was there in between. */
  lemma PutAllRevises(a: Shelf, b: Shelf, c: Shelf)
    requires Revises(a, b) && Revises(b, c)
    requires forall p :: p in a.documents && p in c.documents ==> p in b.documents
    ensures Revises(a, c)
  {
  }

  // ------------------------------------------------------------- first content

  lemma {:induction false} NumberAllNumbers(order: seq<Path>, documents: map<Path, Document>, next: nat)
    requires forall p <- order :: p in documents
    requires forall i, j :: 0 <= i < j < |order| ==> order[i] != order[j]
    ensures var s := NumberAll(order, documents, next);
            && s.documents.Keys == documents.Keys && s.next == next + |order|
            && (forall p <- documents :: SameState(s.documents[p], documents[p]))
            && (forall p <- documents :: p !in order ==> s.documents[p] == documents[p])
            && (forall i :: 0 <= i < |order| ==> s.documents[order[i]].generation == next + 1 + i)
    decreases |order|
  {
    if order != [] {
      var more := documents[order[0] := documents[order[0]].(generation := next + 1)];
      NumberAllNumbers(order[1..], more, next + 1);
      var s := NumberAll(order, documents, next);
      assert order[0] !in order[1..];
      forall i | 0 <= i < |order| ensures s.documents[order[i]].generation == next + 1 + i {
        if i > 0 { assert order[1..][i - 1] == order[i]; }
      }
    }
  }

  lemma FirstContent(c: Content, next: nat)
    requires ContentOk(c)
    ensures (forall p <- c.order :: p in c.documents)
    ensures var s := NumberAll(c.order, c.documents, next);
            && Numbered(s) && Derives(Shelf(map[], next), s) && s.documents.Keys == c.documents.Keys
            && (forall p <- c.documents :: SameState(s.documents[p], c.documents[p]))
  {
    NumberAllNumbers(c.order, c.documents, next);
    var s := NumberAll(c.order, c.documents, next);
    forall p | p in s.documents ensures exists i :: 0 <= i < |c.order| && c.order[i] == p { assert p in c.order; }
  }

  // -------------------------------------------------------------------- steps

  datatype Step =
    | SetReadyStep(content: Content)
    | SetFailedStep
    | MarkClosingStep
    | CloseStep
    | DocumentStep(path: Path, selected: bool, found: Option<Document>)
    | TreeStep(subtree: Path, content: Content)

  function ShelfOf(w: Workspace): Shelf { Shelf(w.documents, w.next) }

  /** New documents are stored; order and files are rebuilt only if a path came
      or went. */
  ghost predicate Stored(a: Workspace, s: Shelf, b: Workspace) {
    && b == a.(documents := s.documents, next := s.next,
               order := b.order, files := b.files, explicitPaths := b.explicitPaths)
    && if s.documents.Keys == a.documents.Keys then b.order == a.order && b.files == a.files
       else Ascending(b.order) && Lists(b.order, b.documents.Keys) && b.files == FilesOf(b.order, b.documents)
  }

  predicate Accepts(w: Workspace) { w.state.Ready? && !w.closing }

  const CLOSED := Workspace(Closed, true, map[], {}, [], [], 0)

  /** The inputs discovery may supply. */
  ghost predicate InputOk(step: Step) {
    match step
    case SetReadyStep(c) => ContentOk(c) && Ascending(c.order) && c.files == FilesOf(c.order, c.documents)
    case DocumentStep(p, _, found) => found.Some? ==> found.value.file == File(p)
    case TreeStep(subtree, c) => ContentOk(c) && forall p <- c.documents :: InSubtree(p, subtree)
    case _ => true
  }

  ghost predicate Next(a: Workspace, step: Step, b: Workspace)
    requires InputOk(step)
  {
    match step
    case SetReadyStep(c) =>
      && a.state.Opening? && (forall p <- c.order :: p in c.documents)
      && var s := NumberAll(c.order, c.documents, a.next);
         b == a.(state := Ready, documents := s.documents, next := s.next, order := c.order, files := c.files)
    case SetFailedStep =>
      a.state.Opening? && b == a.(state := Failed, documents := map[], explicitPaths := {}, order := [], files := [])
    case MarkClosingStep => b == a.(closing := true)
    case CloseStep => b == if a.state.Closed? then a else CLOSED.(closing := a.closing)
    case DocumentStep(p, selected, found) =>
      if !Accepts(a) then b == a
      else Stored(a, ReconciledDocument(a, p, found), b)
           && b.explicitPaths == if selected && found.Some? then a.explicitPaths + {p} else a.explicitPaths
    case TreeStep(subtree, c) =>
      if !Accepts(a) then b == a
      else
        && (forall p <- c.order :: p in c.documents)
        && Stored(a, ReconciledTree(a, subtree, c), b) && b.explicitPaths == a.explicitPaths
  }

  ghost predicate Inv(w: Workspace) {
    && Indexed(w) && Numbered(ShelfOf(w))
    && (!w.state.Ready? ==> w.documents == map[])
  }

  /** An unchanged set of paths keeps its order and files, since a file is named
      by its path. */
  lemma StoredIndexed(a: Workspace, s: Shelf, b: Workspace)
    requires Indexed(a) && Stored(a, s, b) && forall p <- s.documents :: s.documents[p].file == File(p)
    ensures Indexed(b)
  {
    if s.documents.Keys == a.documents.Keys {
      forall i | 0 <= i < |a.order| ensures a.documents[a.order[i]].file == b.documents[a.order[i]].file {
        assert a.order[i] in a.order;
      }
    }
  }

  lemma DocumentReconciled(a: Workspace, p: Path, found: Option<Document>)
    requires Numbered(ShelfOf(a)) && (forall q <- a.documents :: a.documents[q].file == File(q))
    requires found.Some? ==> found.value.file == File(p)
    ensures var s := ReconciledDocument(a, p, found);
            && Numbered(s) && Derives(ShelfOf(a), s) && Revises(ShelfOf(a), s) && Outside(ShelfOf(a), s, {p})
            && (forall q <- s.documents :: s.documents[q].file == File(q))
            && (p in s.documents <==> found.Some?) && (found.Some? ==> SameState(s.documents[p], found.value))
  {
    if found.Some? {
      PutNumbered(ShelfOf(a), p, found.value);
      PutKeeps(ShelfOf(a), p, found.value);
    }
  }

  /** What one step keeps of the documents retained before. */
  ghost predicate Continues(a: Workspace, b: Workspace) {
    && (a.state.Closed? ==> b.state.Closed?)
    && ((b.state.Closed? && b.documents == map[]) || Derives(ShelfOf(a), ShelfOf(b)))
  }

  lemma DocumentKeeps(a: Workspace, step: Step, b: Workspace)
    requires Inv(a) && step.DocumentStep? && InputOk(step) && Next(a, step, b)
    ensures Inv(b) && Continues(a, b) && Revises(ShelfOf(a), ShelfOf(b))
  {
    hide Numbered, Derives, Revises, Put, Ascending;
    KeepsItself(ShelfOf(a));
    if Accepts(a) {
      DocumentReconciled(a, step.path, step.found);
      StoredIndexed(a, ReconciledDocument(a, step.path, step.found), b);
    }
  }

  lemma TreeKeeps(a: Workspace, step: Step, b: Workspace)
    requires Inv(a) && step.TreeStep? && InputOk(step) && Next(a, step, b)
    ensures Inv(b) && Continues(a, b) && Revises(ShelfOf(a), ShelfOf(b))
    ensures forall p :: !InSubtree(p, step.subtree) ==>
              (p in a.documents <==> p in b.documents) && (p in a.documents ==> b.documents[p] == a.documents[p])
  {
    hide Numbered, Derives, Revises, PutAll, Ascending, InSubtree;
    KeepsItself(ShelfOf(a));
    if Accepts(a) {
      TreeReconciled(a, step.subtree, step.content);
      StoredIndexed(a, ReconciledTree(a, step.subtree, step.content), b);
    }
  }

  lemma OtherKeeps(a: Workspace, step: Step, b: Workspace)
    requires Inv(a) && !step.DocumentStep? && !step.TreeStep? && InputOk(step) && Next(a, step, b)
    ensures Inv(b) && Continues(a, b) && Revises(ShelfOf(a), ShelfOf(b))
  {
    KeepsItself(ShelfOf(a));
    if step.SetReadyStep? { FirstContent(step.content, a.next); FirstFiles(step.content, a.next); }
  }

  lemma FirstFiles(c: Content, next: nat)
    requires ContentOk(c) && c.files == FilesOf(c.order, c.documents)
    ensures (forall p <- c.order :: p in c.documents && p in NumberAll(c.order, c.documents, next).documents)
    ensures c.files == FilesOf(c.order, NumberAll(c.order, c.documents, next).documents)
  {
    FirstContent(c, next);
  }

  ghost predicate CanStep(a: Workspace, b: Workspace) { exists step :: InputOk(step) && Next(a, step, b) }

  ghost predicate IsRun(run: seq<Workspace>) {
    && run != [] && run[0] == FRESH
    && forall i :: 0 <= i < |run| - 1 ==> CanStep(run[i], run[i + 1])
  }

  lemma StepKeeps(a: Workspace, b: Workspace)
    requires Inv(a) && CanStep(a, b)
    ensures Inv(b) && Continues(a, b) && Revises(ShelfOf(a), ShelfOf(b))
  {
    hide Inv, Continues, Revises, Next, InputOk;
    var step :| InputOk(step) && Next(a, step, b);
    if step.DocumentStep? { DocumentKeeps(a, step, b); }
    else if step.TreeStep? { TreeKeeps(a, step, b); }
    else { OtherKeeps(a, step, b); }
  }

  /** In every state of every run order and files are the sorted document map
      and every retained document has its own generation. */
  lemma {:induction false} RunInv(run: seq<Workspace>, i: nat)
    requires IsRun(run) && i < |run|
    ensures Inv(run[i])
  {
    hide CanStep;
    if i > 0 {
      RunInv(run, i - 1);
      StepKeeps(run[i - 1], run[i - 1 + 1]);
    }
  }

  lemma ContinuesTransitive(a: Workspace, b: Workspace, c: Workspace)
    requires Continues(a, b) && Continues(b, c) && (c.state.Closed? ==> c.documents == map[])
    ensures Continues(a, c)
  {
    if !b.state.Closed? && !c.state.Closed? { DerivesTransitive(ShelfOf(a), ShelfOf(b), ShelfOf(c)); }
  }

  lemma {:induction false} RunContinues(run: seq<Workspace>, i: nat, j: nat)
    requires IsRun(run) && i <= j < |run|
    ensures Continues(run[i], run[j])
    decreases j
  {
    hide CanStep, Continues, Indexed, Numbered;
    if i == j {
      ContinuesItself(run[i]);
    } else {
      RunContinues(run, i, j - 1);
      RunInv(run, j - 1);
      RunInv(run, j);
      StepKeeps(run[j - 1], run[j - 1 + 1]);
      ContinuesTransitive(run[i], run[j - 1], run[j]);
    }
  }

  lemma ContinuesItself(a: Workspace)
    ensures Continues(a, a)
  {
  }

  /** Over a whole run a generation names one retained document: the same path,
      text and revision wherever it shows up, however often the path was
      deleted and recreated in between. */
  lemma GenerationIdentifies(run: seq<Workspace>, i: nat, j: nat, p: Path, q: Path)
    requires IsRun(run) && i <= j < |run| && p in run[i].documents && q in run[j].documents
    requires run[i].documents[p].generation == run[j].documents[q].generation
    ensures p == q && run[i].documents[p] == run[j].documents[q]
  {
    hide CanStep, Indexed;
    RunInv(run, i);
    RunInv(run, j);
    RunContinues(run, i, j);
  }

  /** While a path stays present its revision never falls, and grows strictly
      whenever the document changes. */
  lemma {:induction false} RevisionsGrow(run: seq<Workspace>, i: nat, j: nat, p: Path)
    requires IsRun(run) && i <= j < |run| && forall k :: i <= k <= j ==> p in run[k].documents
    ensures run[i].documents[p] == run[j].documents[p] || run[i].documents[p].revision < run[j].documents[p].revision
    decreases j
  {
    hide CanStep, Inv, Continues;
    if i < j {
      RevisionsGrow(run, i, j - 1, p);
      RunInv(run, j - 1);
      StepKeeps(run[j - 1], run[j - 1 + 1]);
    }
  }

  // ---------------------------------------------------------------- the object

  class Retained {
    var state: State
    var closing: bool
    var documents: map<Path, Document>
    var explicitPaths: set<Path>
    var order: seq<Path>
    var files: seq<File>
    var next: nat

    ghost function View(): Workspace
      reads this
    {
      Workspace(state, closing, documents, explicitPaths, order, files, next)
    }

    constructor ()
      ensures View() == FRESH
    {
      state, closing, documents, explicitPaths, order, files, next := Opening, false, map[], {}, [], [], 0;
    }

    method RebuildIndexes()
      modifies `order, `files
      ensures Ascending(order) && Lists(order, documents.Keys) && files == FilesOf(order, documents)
    {
      var paths := SortPaths(documents.Keys);
      var listed: seq<File> := [];
      for i := 0 to |paths|
        invariant |listed| == i && forall k :: 0 <= k < i ==> listed[k] == documents[paths[k]].file
      {
        assert paths[i] in paths;
        listed := listed + [documents[paths[i]].file];
      }
      order, files := paths, listed;
    }

    method SetReady(c: Content)
      requires state.Opening? && InputOk(SetReadyStep(c))
      modifies this
      ensures Next(old(View()), SetReadyStep(c), View())
    {
      var numbered := c.documents;
      for i := 0 to |c.order|
        invariant forall p <- c.order :: p in numbered
        invariant NumberAll(c.order[i..], numbered, next) == NumberAll(c.order, c.documents, old(next))
        invariant state == old(state) && closing == old(closing) && explicitPaths == old(explicitPaths)
      {
        assert c.order[i] in c.order && c.order[i..][1..] == c.order[i + 1..];
        next := next + 1;
        numbered := numbered[c.order[i] := numbered[c.order[i]].(generation := next)];
      }
      files, documents, order, state := c.files, numbered, c.order, Ready;
    }

    /** The locked part of reconcileDocument. */
    method ReconcileDocument(p: Path, selected: bool, found: Option<Document>) returns (r: Option<Document>)
      requires InputOk(DocumentStep(p, selected, found))
      modifies this
      ensures Next(old(View()), DocumentStep(p, selected, found), View())
      ensures Accepts(old(View())) ==>
              (r.Some? <==> found.Some?) && (r.Some? ==> p in documents && documents[p] == r.value)
    {
      if closing || !state.Ready? { return None; }
      if found.None? {
        if p in documents {
          documents := documents - {p};
          RebuildIndexes();
        } else {
          assert documents - {p} == documents;
        }
        return None;
      }
      if selected { explicitPaths := explicitPaths + {p}; }
      var revised := found.value;
      if p in documents && SameState(documents[p], revised) { return Some(documents[p]); }
      var present := p in documents;
      if present { revised := revised.(revision := documents[p].revision + 1); }
      next := next + 1;
      revised := revised.(generation := next);
      documents := documents[p := revised];
      if !present {
        RebuildIndexes();
      } else {
        assert documents.Keys == old(documents).Keys;
      }
      return Some(revised);
    }

    /** The first loop of applyContentLocked: what is gone is dropped. */
    method PruneSubtree(subtree: Path, c: Content) returns (changed: bool)
      modifies `documents
      ensures documents == Prune(old(documents), subtree, c.documents)
      ensures changed <==> documents.Keys != old(documents).Keys
    {
      changed := false;
      var remaining := documents.Keys;
      ghost var before := documents;
      while remaining != {}
        invariant remaining <= before.Keys && remaining <= documents.Keys <= before.Keys
        invariant forall p <- documents :: documents[p] == before[p]
        invariant forall p <- before.Keys - remaining ::
                  p in documents <==> (!InSubtree(p, subtree) || p in c.documents)
        invariant changed <==> documents.Keys != before.Keys
        decreases |remaining|
      {
        var p :| p in remaining;
        if InSubtree(p, subtree) && p !in c.documents {
          documents := documents - {p};
          changed := true;
        }
        remaining := remaining - {p};
      }
    }

    /** One turn of the second loop: a found document is stored unless it is
        already there. */
    method StoreOne(p: Path, d: Document) returns (added: bool)
      modifies `documents, `next
      ensures Shelf(documents, next) == Put(Shelf(old(documents), old(next)), p, d)
      ensures added == (p !in old(documents))
    {
      if p in documents && SameState(documents[p], d) { return false; }
      var revised := d;
      added := p !in documents;
      if !added { revised := revised.(revision := documents[p].revision + 1); }
      next := next + 1;
      documents := documents[p := revised.(generation := next)];
    }

    method StoreFound(c: Content) returns (added: bool)
      requires forall p <- c.order :: p in c.documents
      modifies `documents, `next
      ensures Shelf(documents, next) == PutAll(Shelf(old(documents), old(next)), c.order, c.documents)
      ensures added <==> !(Members(c.order) <= old(documents).Keys)
    {
      hide Put, Derives, Revises, Outside, SameState;
      added := false;
      ghost var before := documents;
      assert c.order[0..] == c.order;
      for i := 0 to |c.order|
        invariant PutAll(Shelf(documents, next), c.order[i..], c.documents)
                  == PutAll(Shelf(before, old(next)), c.order, c.documents)
        invariant documents.Keys == before.Keys + Members(c.order[..i])
        invariant added <==> !(Members(c.order[..i]) <= before.Keys)
      {
        var p := c.order[i];
        assert p in c.order && c.order[i..][1..] == c.order[i + 1..] && c.order[..i + 1] == c.order[..i] + [p];
        MembersAppend(c.order[..i], p);
        PutKeeps(Shelf(documents, next), p, c.documents[p]);
        var one := StoreOne(p, c.documents[p]);
        if one { added := true; }
      }
      assert c.order[..|c.order|] == c.order;
    }

    method ApplyContent(subtree: Path, c: Content)
      requires Accepts(View()) && InputOk(TreeStep(subtree, c))
      modifies this
      ensures Next(old(View()), TreeStep(subtree, c), View())
    {
      hide PutAll, Prune, InSubtree;
      ghost var before := documents;
      var removed := PruneSubtree(subtree, c);
      ghost var pruned := documents;
      var added := StoreFound(c);
      PutAllKeeps(Shelf(pruned, old(next)), c.order, c.documents);
      MembershipChanges(before, subtree, c);
      if removed || added { RebuildIndexes(); }
    }

    method Close()
      modifies this
      ensures Next(old(View()), CloseStep, View())
    {
      if state.Closed? { return; }
      files, documents, explicitPaths, order, next, state := [], map[], {}, [], 0, Closed;
    }
  }

  /** Paths come or go exactly if a loop of applyContentLocked noticed. */
  lemma MembershipChanges(documents: map<Path, Document>, subtree: Path, c: Content)
    requires ContentOk(c)
    ensures var pruned := Prune(documents, subtree, c.documents);
            pruned.Keys + Members(c.order) == documents.Keys <==>
            pruned.Keys == documents.Keys && Members(c.order) <= pruned.Keys
  {
    var pruned := Prune(documents, subtree, c.documents);
    if pruned.Keys + Members(c.order) == documents.Keys {
      forall p | p in documents ensures p in pruned { if p in Members(c.order) { assert p in c.documents; } }
    }
  }
}
