/**
  What builds do to one root's shard of the index: all at once, and one store transaction at a
  time, with builds that die half way and invalidations that run beside them.
*/
module CodeBuilds {
  import opened Basics
  import opened Windows
  import opened CodeStore

  /**
    A file as it was discovered.  `seen` is its state when its turn to be read comes, which may be
    another by then, or `None` if it cannot be read.
  */
  datatype FileInfo = FileInfo(path: string, mtime: int, size: nat, seen: Option<FileMeta>) {
    function Meta(): FileMeta { FileMeta(mtime, size) }
    predicate Edited() { seen.Some? && seen.value != Meta() }
  }

  datatype FileText = FileText(lines: seq<string>, symbols: seq<Symbol>)

  /**
    What a path's bytes decode to, `None` for binary or non-UTF-8 bytes.  That it depends on the
    path, the time stamp and the size alone is the assumption behind incremental indexing.
  */
  type Decoder = (string, FileMeta) -> Option<FileText>

  predicate Textual(f: FileInfo, decode: Decoder) { f.seen.Some? && decode(f.path, f.seen.value).Some? }

  function TextOf(f: FileInfo, decode: Decoder): FileText
    requires Textual(f, decode)
  {
    decode(f.path, f.seen.value).value
  }

  function WindowOf(text: FileText, k: nat): Chunk
    requires k < WindowCount(|text.lines|)
  {
    WindowAt(text.lines, text.symbols, k)
  }

  function ChunkSet(text: FileText): set<Chunk> { WindowsFrom(text, 0) }

  function FirstWindows(text: FileText, k: nat): set<Chunk>
    requires k <= WindowCount(|text.lines|)
  {
    set j | 0 <= j < k :: WindowOf(text, j)
  }

  function WindowsFrom(text: FileText, k: nat): set<Chunk> { set j | k <= j < WindowCount(|text.lines|) :: WindowOf(text, j) }

  // ----- what a build means for one path -----

  function IndexedEntry(prev: Entry, f: FileInfo, decode: Decoder): Entry {
    if Textual(f, decode) then Entry(ChunkSet(TextOf(f, decode)), Some(f.Meta())) else prev
  }

  function BuildEntry(force: bool, prev: Entry, info: Option<FileInfo>, decode: Decoder): Entry {
    if force then (if info.None? then ABSENT else IndexedEntry(ABSENT, info.value, decode))
    else if info.None? then (if prev.meta.Some? then ABSENT else prev)
    else if prev.meta == Some(info.value.Meta()) then prev
    else IndexedEntry(prev, info.value, decode)
  }

  function InfoFor(files: seq<FileInfo>, path: string): (r: Option<FileInfo>)
    ensures r.Some? ==> r.value in files && r.value.path == path
    ensures r.None? ==> forall i :: 0 <= i < |files| ==> files[i].path != path
  {
    if files == [] then None
    else if files[0].path == path then Some(files[0])
    else InfoFor(files[1..], path)
  }

  ghost predicate DistinctPaths(files: seq<FileInfo>) {
    forall i, j :: 0 <= i < j < |files| ==> files[i].path != files[j].path
  }

  lemma {:induction false} InfoForAt(files: seq<FileInfo>, i: nat)
    requires DistinctPaths(files) && i < |files|
    ensures InfoFor(files, files[i].path) == Some(files[i])
    decreases |files|
  {
    if i > 0 {
      assert files[0].path != files[i].path;
      InfoForAt(files[1..], i - 1);
    }
  }

  /** A root's shard: what the store says about each path. */
  type Shard = string -> Entry

  function Empty(): Shard { (_: string) => ABSENT }

  function Put(shard: Shard, path: string, e: Entry): Shard { (p: string) => if p == path then e else shard(p) }

  ghost predicate SameShard(a: Shard, b: Shard) { forall p :: a(p) == b(p) }

  function Build(shard: Shard, force: bool, files: seq<FileInfo>, decode: Decoder): Shard {
    (p: string) => BuildEntry(force, shard(p), InfoFor(files, p), decode)
  }

  // ----- incremental against forced, on any shard whatsoever -----

  /** A file that cannot be indexed now, at a path the store knows something about. */
  ghost predicate Stale(shard: Shard, f: FileInfo, decode: Decoder) { !Textual(f, decode) && shard(f.path) != ABSENT }

  /** A discovered file recorded as it is now, whose chunks are not those of its text. */
  ghost predicate Torn(shard: Shard, f: FileInfo, decode: Decoder) {
    Textual(f, decode) && shard(f.path).meta == Some(f.Meta()) && shard(f.path).chunks != ChunkSet(TextOf(f, decode))
  }

  /** Chunks at a path that was not discovered and has no recorded state. */
  ghost predicate Orphaned(shard: Shard, files: seq<FileInfo>, path: string) {
    InfoFor(files, path).None? && shard(path).meta.None? && shard(path).chunks != {}
  }

  ghost predicate Agrees(shard: Shard, files: seq<FileInfo>, decode: Decoder) {
    SameShard(Build(shard, false, files, decode), Build(shard, true, files, decode))
  }

  lemma AgreesAt(shard: Shard, files: seq<FileInfo>, p: string, decode: Decoder)
    ensures Build(shard, false, files, decode)(p) == Build(shard, true, files, decode)(p)
      <==> !Orphaned(shard, files, p)
           && (InfoFor(files, p).Some? ==> !Stale(shard, InfoFor(files, p).value, decode) && !Torn(shard, InfoFor(files, p).value, decode))
  {
  }

  /**
    Whatever is stored, an incremental build gives what a forced one gives exactly when no
    discovered file is stale or torn and no path is orphaned.
  */
  lemma AgreesExactly(shard: Shard, files: seq<FileInfo>, decode: Decoder)
    requires DistinctPaths(files)
    ensures Agrees(shard, files, decode)
      <==> (forall i :: 0 <= i < |files| ==> !Stale(shard, files[i], decode) && !Torn(shard, files[i], decode))
           && (forall p :: !Orphaned(shard, files, p))
  {
    hide Stale, Torn, Orphaned, Build;
    var inc, full := Build(shard, false, files, decode), Build(shard, true, files, decode);
    forall p { AgreesAt(shard, files, p, decode); }
    forall i | 0 <= i < |files| ensures InfoFor(files, files[i].path) == Some(files[i]) { InfoForAt(files, i); }
    if Agrees(shard, files, decode) {
      forall p ensures !Orphaned(shard, files, p) { assert inc(p) == full(p); }
      forall i | 0 <= i < |files| ensures !Stale(shard, files[i], decode) && !Torn(shard, files[i], decode) {
        assert inc(files[i].path) == full(files[i].path);
      }
    }
  }

  /**
    A file that is indexed ends up recorded as it was discovered, with exactly the chunks its text
    is cut into; an incremental build touches no file that is recorded as it is now.
  */
  lemma BuiltExactly(shard: Shard, force: bool, files: seq<FileInfo>, decode: Decoder, i: nat)
    requires DistinctPaths(files) && i < |files| && Textual(files[i], decode)
    ensures var f, text := files[i], TextOf(files[i], decode); var e := Build(shard, force, files, decode)(f.path);
      if force || shard(f.path).meta != Some(FileMeta(f.mtime, f.size)) then
        && e.meta == Some(FileMeta(f.mtime, f.size))
        && forall c :: c in e.chunks <==> c in FileChunks(text.lines, text.symbols)
      else e == shard(f.path)
  {
    InfoForAt(files, i);
    var f, text := files[i], TextOf(files[i], decode);
    var cut := FileChunks(text.lines, text.symbols);
    assert Build(shard, force, files, decode)(f.path) == BuildEntry(force, shard(f.path), Some(f), decode);
    forall c | c in ChunkSet(text) ensures c in cut {
      var k :| 0 <= k < WindowCount(|text.lines|) && c == WindowOf(text, k);
      assert cut[k] == c;
    }
    forall c | c in cut ensures c in ChunkSet(text) {
      var k :| 0 <= k < |cut| && cut[k] == c;
      assert c == WindowOf(text, k);
    }
  }

  /** Behind a build, the next incremental one finds nothing to index but files that are no readable text. */
  lemma NothingLeftToIndex(shard: Shard, force: bool, files: seq<FileInfo>, decode: Decoder)
    requires DistinctPaths(files)
    ensures forall f :: f in ToIndex(Build(shard, force, files, decode), files) <==>
              f in files && !Textual(f, decode) && (force || shard(f.path).meta != Some(FileMeta(f.mtime, f.size)))
  {
    var built := Build(shard, force, files, decode);
    forall f | f in files
      ensures Changed(built, f) <==> !Textual(f, decode) && (force || shard(f.path).meta != Some(FileMeta(f.mtime, f.size)))
    {
      var i :| 0 <= i < |files| && files[i] == f;
      InfoForAt(files, i);
      assert built(f.path) == BuildEntry(force, shard(f.path), Some(f), decode);
    }
  }

  /** A second incremental build over the same files changes nothing, whatever was stored before the first. */
  lemma UpdateIdempotent(shard: Shard, files: seq<FileInfo>, decode: Decoder)
    ensures var once := Build(shard, false, files, decode); SameShard(Build(once, false, files, decode), once)
  {
    hide ChunkSet;
    var once := Build(shard, false, files, decode);
    forall p ensures Build(once, false, files, decode)(p) == once(p) {
      assert once(p) == BuildEntry(false, shard(p), InfoFor(files, p), decode);
    }
  }

  // ----- a build as transactions -----

  datatype Todo = Wipe | Remove(path: string) | Index(file: FileInfo)

  /** What the builder is in the middle of; `done` chunks of the file are saved. */
  datatype Doing = Nothing | Removing(path: string) | Indexing(file: FileInfo, done: nat)

  /**
    The store and everybody at work on it: the build, and the invalidations that have dropped a
    path's chunks and not yet its state.  `torn` is history, read by no step: the paths somebody
    left half-written, or recorded under a state other than the one that was read.
  */
  datatype World = World(shard: Shard, doing: Doing, queue: seq<Todo>, leaving: multiset<string>, torn: set<string>) {
    predicate Idle() { doing == Nothing && queue == [] }
    predicate Quiet() { Idle() && leaving == multiset{} }
  }

  datatype Step =
    | Begin(force: bool, files: seq<FileInfo>, gone: seq<string>)  // a build is started and reads the recorded state
    | Write              // its next transaction
    | Die                // its next store call raises: the build ends there
    | Drop(path: string)    // an invalidation removes the chunks of a path
    | Forget(path: string)  // and then its recorded state
    | Leave(path: string)   // or its second call raises

  predicate Changed(shard: Shard, f: FileInfo) { shard(f.path).meta != Some(f.Meta()) }

  function ToIndex(shard: Shard, files: seq<FileInfo>): (r: seq<FileInfo>)
    ensures forall f :: f in r <==> f in files && Changed(shard, f)
  {
    if files == [] then [] else (if Changed(shard, files[0]) then [files[0]] else []) + ToIndex(shard, files[1..])
  }

  function Removals(gone: seq<string>): seq<Todo> { seq(|gone|, i requires 0 <= i < |gone| => Remove(gone[i])) }

  function Indexings(files: seq<FileInfo>): seq<Todo> { seq(|files|, i requires 0 <= i < |files| => Index(files[i])) }

  function Planned(shard: Shard, force: bool, files: seq<FileInfo>, gone: seq<string>): seq<Todo> {
    if force then [Wipe] + Indexings(files) else Removals(gone) + Indexings(ToIndex(shard, files))
  }

  /** `gone` lists the recorded paths that were not discovered. */
  ghost predicate Vanished(shard: Shard, files: seq<FileInfo>, gone: seq<string>) {
    forall p :: p in gone <==> shard(p).meta.Some? && InfoFor(files, p).None?
  }

  ghost predicate CanBegin(w: World, force: bool, files: seq<FileInfo>, gone: seq<string>) {
    w.Idle() && DistinctPaths(files) && (!force ==> Vanished(w.shard, files, gone))
  }

  function Begun(w: World, force: bool, files: seq<FileInfo>, gone: seq<string>): World {
    w.(queue := Planned(w.shard, force, files, gone))
  }

  /** One transaction of the build. */
  function Written(w: World, decode: Decoder): World {
    match w.doing
    case Removing(p) => w.(shard := Put(w.shard, p, Entry(w.shard(p).chunks, None)), doing := Nothing)
    case Indexing(f, k) =>
      if Textual(f, decode) && k < WindowCount(|TextOf(f, decode).lines|) then
        w.(shard := Put(w.shard, f.path, Entry(w.shard(f.path).chunks + {WindowOf(TextOf(f, decode), k)}, w.shard(f.path).meta)),
           doing := Indexing(f, k + 1))
      else
        w.(shard := Put(w.shard, f.path, Entry(w.shard(f.path).chunks, Some(f.Meta()))), doing := Nothing,
           torn := if f.path in w.leaving || f.Edited() then w.torn + {f.path} else w.torn)
    case Nothing =>
      if w.queue == [] then w else
      match w.queue[0]
      case Wipe => w.(shard := Empty(), queue := w.queue[1..], torn := {})
      case Remove(p) => Emptied(w, p).(doing := Removing(p), queue := w.queue[1..])
      case Index(f) =>
        if Textual(f, decode) then Emptied(w, f.path).(doing := Indexing(f, 0), queue := w.queue[1..])
        else w.(queue := w.queue[1..])
  }

  function Emptied(w: World, p: string): World {
    w.(shard := Put(w.shard, p, Entry({}, w.shard(p).meta)), torn := w.torn - {p})
  }

  function Next(w: World, step: Step, decode: Decoder): World {
    match step
    case Begin(force, files, gone) => Begun(w, force, files, gone)
    case Write => Written(w, decode)
    case Die => w.(doing := Nothing, queue := [], torn := w.torn + Half(w.doing))
    case Drop(p) =>
      var dropped := Emptied(w, p).(leaving := w.leaving + multiset{p});
      if w.doing.Indexing? && w.doing.file.path == p && w.doing.done > 0 then dropped.(torn := w.torn + {p}) else dropped
    case Forget(p) =>
      w.(shard := Put(w.shard, p, Entry(w.shard(p).chunks, None)), leaving := w.leaving - multiset{p})
    case Leave(p) => w.(leaving := w.leaving - multiset{p}, torn := w.torn + {p})
  }

  function Half(doing: Doing): set<string> {
    match doing
    case Nothing => {}
    case Removing(p) => {p}
    case Indexing(f, _) => {f.path}
  }

  ghost predicate Enabled(w: World, step: Step) {
    match step
    case Begin(force, files, gone) => CanBegin(w, force, files, gone)
    case Write => !w.Idle()
    case Die => true
    case Drop(_) => true
    case Forget(p) => p in w.leaving
    case Leave(p) => p in w.leaving
  }

  function Init(): World { World(Empty(), Nothing, [], multiset{}, {}) }

  function Run(w: World, steps: seq<Step>, decode: Decoder): World
    decreases |steps|
  {
    if steps == [] then w else Next(Run(w, steps[..|steps| - 1], decode), steps[|steps| - 1], decode)
  }

  ghost predicate Lawful(w: World, steps: seq<Step>, decode: Decoder) {
    forall i :: 0 <= i < |steps| ==> Enabled(Run(w, steps[..i], decode), steps[i])
  }

  // ----- what every run keeps -----

  /** An entry that is absent, or exactly what its recorded state decodes to. */
  ghost predicate FaithfulAt(e: Entry, p: string, decode: Decoder) {
    match e.meta
    case None => e == ABSENT
    case Some(m) => decode(p, m).Some? && e.chunks == ChunkSet(decode(p, m).value)
  }

  ghost predicate Faithful(shard: Shard, decode: Decoder) { forall p :: FaithfulAt(shard(p), p, decode) }

  /** What a path that is not torn holds, whoever is at work on it. */
  ghost predicate WholeAt(w: World, p: string, decode: Decoder) {
    var e := w.shard(p);
    if w.doing.Indexing? && w.doing.file.path == p then
      Textual(w.doing.file, decode) && w.doing.done <= WindowCount(|TextOf(w.doing.file, decode).lines|)
      && e.chunks == FirstWindows(TextOf(w.doing.file, decode), w.doing.done)
    else if w.doing == Removing(p) || p in w.leaving then e.chunks == {}
    else FaithfulAt(e, p, decode)
  }

  ghost predicate Whole(w: World, decode: Decoder) { forall p :: p !in w.torn ==> WholeAt(w, p, decode) }

  ghost predicate Sound(w: World, decode: Decoder) {
    w.doing.Indexing? ==> Textual(w.doing.file, decode) && w.doing.done <= WindowCount(|TextOf(w.doing.file, decode).lines|)
  }

  lemma NextSound(w: World, step: Step, decode: Decoder)
    requires Sound(w, decode) && Enabled(w, step)
    ensures Sound(Next(w, step, decode), decode)
  {
  }

  lemma OneMoreWindow(text: FileText, k: nat)
    requires k < WindowCount(|text.lines|)
    ensures FirstWindows(text, k + 1) == FirstWindows(text, k) + {WindowOf(text, k)}
    ensures WindowsFrom(text, k) == {WindowOf(text, k)} + WindowsFrom(text, k + 1)
  {
  }

  lemma AllTheWindows(text: FileText)
    ensures FirstWindows(text, 0) == {} && FirstWindows(text, WindowCount(|text.lines|)) == ChunkSet(text)
    ensures WindowsFrom(text, WindowCount(|text.lines|)) == {}
  {
  }

  lemma WrittenKeepsWhole(w: World, p: string, decode: Decoder)
    requires Sound(w, decode) && (p !in w.torn ==> WholeAt(w, p, decode))
    ensures p !in Written(w, decode).torn ==> WholeAt(Written(w, decode), p, decode)
  {
    hide WindowCount, WindowOf, FirstWindows, ChunkSet;
    if w.doing.Indexing? {
      var text := TextOf(w.doing.file, decode);
      AllTheWindows(text);
      if w.doing.done < WindowCount(|text.lines|) { OneMoreWindow(text, w.doing.done); }
    } else if w.doing == Nothing && w.queue != [] && w.queue[0].Index? && Textual(w.queue[0].file, decode) {
      AllTheWindows(TextOf(w.queue[0].file, decode));
    }
  }

  lemma NextKeepsWholeAt(w: World, step: Step, p: string, decode: Decoder)
    requires Sound(w, decode) && (p !in w.torn ==> WholeAt(w, p, decode)) && Enabled(w, step)
    ensures p !in Next(w, step, decode).torn ==> WholeAt(Next(w, step, decode), p, decode)
  {
    hide WindowCount, WindowOf, FirstWindows, ChunkSet, Written, Planned;
    if step.Write? { WrittenKeepsWhole(w, p, decode); }
    if step.Drop? && w.doing.Indexing? { AllTheWindows(TextOf(w.doing.file, decode)); }
  }

  lemma NextKeepsWhole(w: World, step: Step, decode: Decoder)
    requires Sound(w, decode) && Whole(w, decode) && Enabled(w, step)
    ensures Whole(Next(w, step, decode), decode)
  {
    hide Sound, WholeAt, Next, Enabled;
    forall p | p !in Next(w, step, decode).torn ensures WholeAt(Next(w, step, decode), p, decode) {
      NextKeepsWholeAt(w, step, p, decode);
    }
  }

  /** Whatever builds and invalidations did, side by side and broken off anywhere: only torn paths can lie. */
  lemma {:induction false} EveryRunKeepsWhole(steps: seq<Step>, decode: Decoder)
    requires Lawful(Init(), steps, decode)
    ensures Sound(Run(Init(), steps, decode), decode) && Whole(Run(Init(), steps, decode), decode)
    decreases |steps|
  {
    if steps != [] {
      var before := steps[..|steps| - 1];
      forall i | 0 <= i < |before| ensures Enabled(Run(Init(), before[..i], decode), before[i]) { assert before[..i] == steps[..i]; }
      EveryRunKeepsWhole(before, decode);
      assert Enabled(Run(Init(), before, decode), steps[|steps| - 1]);
      NextSound(Run(Init(), before, decode), steps[|steps| - 1], decode);
      NextKeepsWhole(Run(Init(), before, decode), steps[|steps| - 1], decode);
    }
  }

  /** A shard without torn paths that nobody is at work on tells the truth about every path. */
  lemma HistoryIsFaithful(steps: seq<Step>, decode: Decoder)
    requires Lawful(Init(), steps, decode) && Run(Init(), steps, decode).Quiet() && Run(Init(), steps, decode).torn == {}
    ensures Faithful(Run(Init(), steps, decode).shard, decode)
  {
    var w := Run(Init(), steps, decode);
    EveryRunKeepsWhole(steps, decode);
    forall p ensures FaithfulAt(w.shard(p), p, decode) { WholeIsFaithful(w, p, decode); }
  }

  lemma WholeIsFaithful(w: World, p: string, decode: Decoder)
    requires Whole(w, decode) && w.Quiet() && p !in w.torn
    ensures FaithfulAt(w.shard(p), p, decode)
  {
    assert WholeAt(w, p, decode);
  }

  /** A path is settled if it is not orphaned and not torn as a discovered file. */
  ghost predicate Settled(shard: Shard, files: seq<FileInfo>, p: string, decode: Decoder) {
    !Orphaned(shard, files, p) && (InfoFor(files, p).Some? ==> !Torn(shard, InfoFor(files, p).value, decode))
  }

  /** A path at which a file is discovered that is edited before its turn. */
  predicate EditedIn(files: seq<FileInfo>, p: string) { InfoFor(files, p).Some? && InfoFor(files, p).value.Edited() }

  /**
    After any run, an incremental build gives what a forced one gives exactly when no discovered
    file is stale, and neither a torn path nor one edited during the comparison itself is orphaned
    or holds other chunks than its file has.
  */
  lemma IncrementalIsRebuild(steps: seq<Step>, files: seq<FileInfo>, decode: Decoder)
    requires DistinctPaths(files) && Lawful(Init(), steps, decode) && Run(Init(), steps, decode).Quiet()
    ensures var w := Run(Init(), steps, decode);
      Agrees(w.shard, files, decode)
      <==> (forall i :: 0 <= i < |files| ==> !Stale(w.shard, files[i], decode))
           && (forall p :: p in w.torn || EditedIn(files, p) ==> Settled(w.shard, files, p, decode))
  {
    hide Stale, Agrees, Run, Sound, Settled, WholeAt, FaithfulAt, EditedIn;
    var w := Run(Init(), steps, decode);
    EveryRunKeepsWhole(steps, decode);
    SettledExactly(w.shard, files, decode);
    forall p | p !in w.torn && !EditedIn(files, p) ensures Settled(w.shard, files, p, decode) {
      WholeIsFaithful(w, p, decode);
      FaithfulIsSettled(w.shard, files, p, decode);
    }
  }

  lemma SettledExactly(shard: Shard, files: seq<FileInfo>, decode: Decoder)
    requires DistinctPaths(files)
    ensures Agrees(shard, files, decode)
      <==> (forall i :: 0 <= i < |files| ==> !Stale(shard, files[i], decode)) && (forall p :: Settled(shard, files, p, decode))
  {
    hide Stale, Torn, Orphaned, Agrees, InfoFor;
    AgreesExactly(shard, files, decode);
    forall i | 0 <= i < |files| ensures InfoFor(files, files[i].path) == Some(files[i]) { InfoForAt(files, i); }
    if forall p :: Settled(shard, files, p, decode) {
      forall p ensures !Orphaned(shard, files, p) { assert Settled(shard, files, p, decode); }
      forall i | 0 <= i < |files| ensures !Torn(shard, files[i], decode) { assert Settled(shard, files, files[i].path, decode); }
    }
  }

  lemma FaithfulIsSettled(shard: Shard, files: seq<FileInfo>, p: string, decode: Decoder)
    requires FaithfulAt(shard(p), p, decode) && !EditedIn(files, p)
    ensures Settled(shard, files, p, decode)
  {
  }

  /** In particular when every discovered file is readable text and stays as it is, and no path is torn. */
  lemma AllTextAgrees(steps: seq<Step>, files: seq<FileInfo>, decode: Decoder)
    requires DistinctPaths(files) && Lawful(Init(), steps, decode) && Run(Init(), steps, decode).Quiet()
    requires Run(Init(), steps, decode).torn == {} && forall i :: 0 <= i < |files| ==> Textual(files[i], decode) && !files[i].Edited()
    ensures Agrees(Run(Init(), steps, decode).shard, files, decode)
  {
    IncrementalIsRebuild(steps, files, decode);
  }

  // ----- transaction by transaction, a build comes to what it means -----

  function Writes(w: World, n: nat, decode: Decoder): World {
    if n == 0 then w else Written(Writes(w, n - 1, decode), decode)
  }

  function TodoEntry(e: Entry, todo: Todo, p: string, decode: Decoder): Entry {
    match todo
    case Wipe => ABSENT
    case Remove(q) => if q == p then ABSENT else e
    case Index(f) => if f.path == p then IndexedEntry(e, f, decode) else e
  }

  function QueueEntry(e: Entry, queue: seq<Todo>, p: string, decode: Decoder): Entry
    decreases |queue|
  {
    if queue == [] then e else QueueEntry(TodoEntry(e, queue[0], p, decode), queue[1..], p, decode)
  }

  /** What a path will hold once the build has done what it is doing. */
  function Pending(w: World, p: string, decode: Decoder): Entry {
    var e := w.shard(p);
    match w.doing
    case Nothing => e
    case Removing(q) => if q == p then Entry(e.chunks, None) else e
    case Indexing(f, k) =>
      if f.path == p && Textual(f, decode) then Entry(e.chunks + WindowsFrom(TextOf(f, decode), k), Some(f.Meta())) else e
  }

  /** And once it has worked off its queue. */
  function Eventually(w: World, p: string, decode: Decoder): Entry { QueueEntry(Pending(w, p, decode), w.queue, p, decode) }

  /** No transaction changes what the build will come to. */
  lemma WrittenConserves(w: World, p: string, decode: Decoder)
    requires Sound(w, decode)
    ensures Eventually(Written(w, decode), p, decode) == Eventually(w, p, decode)
  {
    hide WindowCount, WindowOf, FirstWindows, WindowsFrom;
    var e := w.shard(p);
    if w.doing.Indexing? {
      var text := TextOf(w.doing.file, decode);
      AllTheWindows(text);
      if w.doing.done < WindowCount(|text.lines|) {
        OneMoreWindow(text, w.doing.done);
        assert (e.chunks + {WindowOf(text, w.doing.done)}) + WindowsFrom(text, w.doing.done + 1) == e.chunks + WindowsFrom(text, w.doing.done);
      } else {
        assert e.chunks + WindowsFrom(text, w.doing.done) == e.chunks;
      }
    } else if w.doing == Nothing && w.queue != [] && w.queue[0].Index? && Textual(w.queue[0].file, decode) {
      var text := TextOf(w.queue[0].file, decode);
      var none: set<Chunk> := {};
      assert none + WindowsFrom(text, 0) == WindowsFrom(text, 0);
    }
  }

  /** How many transactions a build still has to make, give or take files it skips. */
  function TodoWork(todo: Todo, decode: Decoder): nat {
    match todo
    case Wipe => 1
    case Remove(_) => 2
    case Index(f) => if Textual(f, decode) then 2 + WindowCount(|TextOf(f, decode).lines|) else 1
  }

  function QueueWork(queue: seq<Todo>, decode: Decoder): nat
    decreases |queue|
  {
    if queue == [] then 0 else TodoWork(queue[0], decode) + QueueWork(queue[1..], decode)
  }

  function Work(w: World, decode: Decoder): nat
    requires Sound(w, decode)
  {
    QueueWork(w.queue, decode) + match w.doing
      case Nothing => 0
      case Removing(_) => 1
      case Indexing(f, k) => 1 + WindowCount(|TextOf(f, decode).lines|) - k
  }

  /** Every transaction is progress, and the work runs out just when the build is done. */
  lemma WrittenWorks(w: World, decode: Decoder)
    requires Sound(w, decode)
    ensures Sound(Written(w, decode), decode)
    ensures Work(Written(w, decode), decode) == if w.Idle() then 0 else Work(w, decode) - 1
  {
    hide WindowCount, WindowOf;
  }

  lemma {:induction false} WritesConserve(w: World, n: nat, p: string, decode: Decoder)
    requires Sound(w, decode)
    ensures Sound(Writes(w, n, decode), decode) && Eventually(Writes(w, n, decode), p, decode) == Eventually(w, p, decode)
    ensures Work(Writes(w, n, decode), decode) == if n <= Work(w, decode) then Work(w, decode) - n else 0
  {
    hide Eventually, Written, Sound, Work;
    if n > 0 {
      WritesConserve(w, n - 1, p, decode);
      WrittenConserves(Writes(w, n - 1, decode), p, decode);
      WrittenWorks(Writes(w, n - 1, decode), decode);
      WorkLeft(Writes(w, n - 1, decode), decode);
    }
  }

  lemma WorkLeft(w: World, decode: Decoder)
    requires Sound(w, decode)
    ensures w.Idle() <==> Work(w, decode) == 0
  {
  }

  lemma {:induction false} RemovalsEntry(e: Entry, gone: seq<string>, rest: seq<Todo>, p: string, decode: Decoder)
    ensures QueueEntry(e, Removals(gone) + rest, p, decode) == QueueEntry(if p in gone then ABSENT else e, rest, p, decode)
    decreases |gone|
  {
    if gone == [] {
      assert Removals(gone) + rest == rest;
    } else {
      var queue := Removals(gone) + rest;
      assert queue[1..] == Removals(gone[1..]) + rest;
      RemovalsEntry(TodoEntry(e, queue[0], p, decode), gone[1..], rest, p, decode);
    }
  }

  lemma {:induction false} IndexingsEntry(e: Entry, files: seq<FileInfo>, p: string, decode: Decoder)
    requires DistinctPaths(files)
    ensures QueueEntry(e, Indexings(files), p, decode)
         == if InfoFor(files, p).Some? then IndexedEntry(e, InfoFor(files, p).value, decode) else e
    decreases |files|
  {
    hide IndexedEntry;
    if files != [] {
      var queue := Indexings(files);
      assert queue[1..] == Indexings(files[1..]);
      IndexingsEntry(TodoEntry(e, queue[0], p, decode), files[1..], p, decode);
      assert forall f :: f in files[1..] ==> f.path != files[0].path;
    }
  }

  lemma {:induction false} ToIndexDistinct(shard: Shard, files: seq<FileInfo>)
    requires DistinctPaths(files)
    ensures DistinctPaths(ToIndex(shard, files))
    decreases |files|
  {
    if files != [] {
      ToIndexDistinct(shard, files[1..]);
      assert forall f :: f in ToIndex(shard, files[1..]) ==> f in files[1..] && f.path != files[0].path;
    }
  }

  lemma {:induction false} ToIndexEntry(shard: Shard, files: seq<FileInfo>, p: string)
    requires DistinctPaths(files)
    ensures var info := InfoFor(files, p); InfoFor(ToIndex(shard, files), p) == if info.Some? && Changed(shard, info.value) then info else None
    decreases |files|
  {
    hide Changed;
    if files != [] {
      ToIndexEntry(shard, files[1..], p);
      if files[0].path == p {
        assert InfoFor(files[1..], p).None? by { assert forall f :: f in files[1..] ==> f.path != files[0].path; }
      }
      var rest := ToIndex(shard, files[1..]);
      assert ([files[0]] + rest)[1..] == rest && [] + rest == rest;
    }
  }

  /** The plan of a build comes to exactly what the build means. */
  lemma PlanIsBuild(w: World, force: bool, files: seq<FileInfo>, gone: seq<string>, p: string, decode: Decoder)
    requires CanBegin(w, force, files, gone)
    ensures Eventually(Begun(w, force, files, gone), p, decode) == Build(w.shard, force, files, decode)(p)
  {
    hide IndexedEntry;
    var e := w.shard(p);
    if force {
      var queue := Planned(w.shard, true, files, gone);
      assert queue[1..] == Indexings(files);
      IndexingsEntry(ABSENT, files, p, decode);
    } else {
      RemovalsEntry(e, gone, Indexings(ToIndex(w.shard, files)), p, decode);
      ToIndexDistinct(w.shard, files);
      ToIndexEntry(w.shard, files, p);
      IndexingsEntry(if p in gone then ABSENT else e, ToIndex(w.shard, files), p, decode);
    }
  }

  /** Left alone, a build of `n` transactions ends, and then every path is as the build means it. */
  lemma BuildCompletes(w: World, force: bool, files: seq<FileInfo>, gone: seq<string>, n: nat, decode: Decoder)
    requires CanBegin(w, force, files, gone)
    ensures Sound(Begun(w, force, files, gone), decode)
    ensures var r := Writes(Begun(w, force, files, gone), n, decode);
      && (r.Idle() <==> n >= Work(Begun(w, force, files, gone), decode))
      && (r.Idle() ==> SameShard(r.shard, Build(w.shard, force, files, decode)))
  {
    hide Written, Build, Work;
    var b := Begun(w, force, files, gone);
    assert Sound(b, decode);
    var r := Writes(b, n, decode);
    WritesConserve(b, n, "", decode);
    WorkLeft(r, decode);
    if r.Idle() {
      forall p ensures r.shard(p) == Build(w.shard, force, files, decode)(p) {
        WritesConserve(b, n, p, decode);
        PlanIsBuild(w, force, files, gone, p, decode);
      }
    }
  }

  ghost predicate EditedPath(files: seq<FileInfo>, p: string) { exists f :: f in files && f.path == p && f.Edited() }

  /** The build works on `files` only, and all that is torn is files it found edited. */
  ghost predicate OnlyEdited(w: World, files: seq<FileInfo>) {
    && (forall p :: p in w.torn ==> EditedPath(files, p))
    && (w.doing.Indexing? ==> w.doing.file in files)
    && (forall i :: 0 <= i < |w.queue| && w.queue[i].Index? ==> w.queue[i].file in files)
  }

  /** A forced build forgets what was torn before it: afterwards only files edited meanwhile are. */
  lemma {:induction false} ForcedHeals(w: World, files: seq<FileInfo>, n: nat, decode: Decoder)
    requires CanBegin(w, true, files, []) && w.leaving == multiset{}
    ensures var r := Writes(Begun(w, true, files, []), n, decode);
      r.leaving == multiset{} && (if n == 0 then r == Begun(w, true, files, []) else OnlyEdited(r, files))
  {
    hide Written, OnlyEdited;
    if n > 0 {
      ForcedHeals(w, files, n - 1, decode);
      var before := Writes(Begun(w, true, files, []), n - 1, decode);
      if n == 1 { FirstWipe(before, files, decode); } else { UndisturbedWrite(before, files, decode); }
    }
  }

  lemma FirstWipe(w: World, files: seq<FileInfo>, decode: Decoder)
    requires w.leaving == multiset{} && w.doing == Nothing && w.queue == [Wipe] + Indexings(files)
    ensures Written(w, decode).leaving == multiset{} && OnlyEdited(Written(w, decode), files)
  {
    assert w.queue[1..] == Indexings(files);
  }

  lemma UndisturbedWrite(w: World, files: seq<FileInfo>, decode: Decoder)
    requires w.leaving == multiset{} && OnlyEdited(w, files)
    ensures Written(w, decode).leaving == multiset{} && OnlyEdited(Written(w, decode), files)
  {
    hide WindowOf, TextOf, Textual;
  }

  // ----- four runs in which an incremental build goes wrong -----

  lemma OneMoreStep(steps: seq<Step>, step: Step, decode: Decoder)
    requires Lawful(Init(), steps, decode) && Enabled(Run(Init(), steps, decode), step)
    ensures Lawful(Init(), steps + [step], decode) && Run(Init(), steps + [step], decode) == Next(Run(Init(), steps, decode), step, decode)
  {
    hide Enabled, Next;
    var longer := steps + [step];
    assert longer[..|steps|] == steps;
    forall i | 0 <= i < |longer| ensures Enabled(Run(Init(), longer[..i], decode), longer[i]) {
      if i < |steps| { assert longer[..i] == steps[..i]; }
    }
  }

  /** The first transactions of a first build of one file: chunks gone, first window saved. */
  function Started(f: FileInfo): seq<Step> { [] + [Begin(false, [f], [])] + [Write] + [Write] }

  lemma StartedState(f: FileInfo, decode: Decoder)
    requires Textual(f, decode) && TextOf(f, decode).lines != []
    ensures Lawful(Init(), Started(f), decode)
    ensures var w := Run(Init(), Started(f), decode);
      && w.doing == Indexing(f, 1) && w.queue == [] && w.leaving == multiset{} && w.torn == {}
      && w.shard(f.path) == Entry({WindowOf(TextOf(f, decode), 0)}, None)
  {
    hide WindowOf, Run, Lawful;
    assert Lawful(Init(), [], decode) && Run(Init(), [], decode) == Init() by { NoSteps(decode); }
    var steps: seq<Step> := [];
    BeginOne(f);
    OneMoreStep(steps, Begin(false, [f], []), decode);
    OneMoreStep(steps + [Begin(false, [f], [])], Write, decode);
    OneMoreStep(steps + [Begin(false, [f], [])] + [Write], Write, decode);
  }

  lemma NoSteps(decode: Decoder)
    ensures Lawful(Init(), [], decode) && Run(Init(), [], decode) == Init()
  {
  }

  lemma BeginOne(f: FileInfo)
    ensures CanBegin(Init(), false, [f], []) && Begun(Init(), false, [f], []).queue == [Index(f)]
  {
    assert ToIndex(Init().shard, [f]) == [f];
  }

  /** The store raises, the file is deleted: its chunks stay through every incremental build. */
  lemma DiedThenDeleted(f: FileInfo, decode: Decoder)
    requires Textual(f, decode) && TextOf(f, decode).lines != []
    ensures var steps := Started(f) + [Die]; var w := Run(Init(), steps, decode);
      Lawful(Init(), steps, decode) && w.Quiet() && w.torn == {f.path} && !Agrees(w.shard, [], decode)
  {
    hide WindowOf, Run, Lawful;
    StartedState(f, decode);
    OneMoreStep(Started(f), Die, decode);
    var w := Run(Init(), Started(f) + [Die], decode);
    AgreesAt(w.shard, [], f.path, decode);
  }

  /**
    A changed file's build dies behind the delete and the file comes back as it was, time stamp
    included: it counts as unchanged and stays without chunks.
  */
  lemma DiedThenRestored(before: seq<Step>, f: FileInfo, g: FileInfo, decode: Decoder)
    requires Lawful(Init(), before, decode) && Run(Init(), before, decode).Quiet()
    requires Run(Init(), before, decode).shard(f.path).meta == Some(f.Meta()) && Vanished(Run(Init(), before, decode).shard, [g], [])
    requires Textual(f, decode) && TextOf(f, decode).lines != []
    requires Textual(g, decode) && g.path == f.path && g.Meta() != f.Meta()
    ensures var steps := before + [Begin(false, [g], [])] + [Write] + [Die]; var w := Run(Init(), steps, decode);
      Lawful(Init(), steps, decode) && w.Quiet() && !Stale(w.shard, f, decode) && !Agrees(w.shard, [f], decode)
  {
    hide Run, Lawful;
    var w := Run(Init(), before, decode);
    assert ToIndex(w.shard, [g]) == [g];
    assert Begun(w, false, [g], []).queue == [Index(g)];
    OneMoreStep(before, Begin(false, [g], []), decode);
    OneMoreStep(before + [Begin(false, [g], [])], Write, decode);
    OneMoreStep(before + [Begin(false, [g], [])] + [Write], Die, decode);
    var r := Run(Init(), before + [Begin(false, [g], [])] + [Write] + [Die], decode);
    assert WindowOf(TextOf(f, decode), 0) in ChunkSet(TextOf(f, decode));
    AgreesAt(r.shard, [f], f.path, decode);
  }

  /** An invalidation between two transactions of a build: the file ends up recorded, and without chunks. */
  lemma InvalidatedMidway(f: FileInfo, decode: Decoder)
    requires Textual(f, decode) && 0 < |TextOf(f, decode).lines| <= CHUNK_SIZE
    ensures var steps := Started(f) + [Drop(f.path)] + [Forget(f.path)] + [Write]; var w := Run(Init(), steps, decode);
      Lawful(Init(), steps, decode) && w.Quiet() && !Stale(w.shard, f, decode) && !Agrees(w.shard, [f], decode)
  {
    hide Run, Lawful;
    StartedState(f, decode);
    OneMoreStep(Started(f), Drop(f.path), decode);
    OneMoreStep(Started(f) + [Drop(f.path)], Forget(f.path), decode);
    OneMoreStep(Started(f) + [Drop(f.path)] + [Forget(f.path)], Write, decode);
    var r := Run(Init(), Started(f) + [Drop(f.path)] + [Forget(f.path)] + [Write], decode);
    assert WindowOf(TextOf(f, decode), 0) in ChunkSet(TextOf(f, decode));
    AgreesAt(r.shard, [f], f.path, decode);
  }

  /**
    A file is edited between its discovery and its turn and then comes back as it was discovered:
    nothing was raised, nothing invalidated, and it counts as unchanged with the other text's chunks.
  */
  lemma EditedThenRestored(f: FileInfo, g: FileInfo, decode: Decoder)
    requires Textual(f, decode) && f.Edited() && 0 < |TextOf(f, decode).lines| <= CHUNK_SIZE
    requires g == f.(seen := Some(f.Meta())) && Textual(g, decode)
    requires ChunkSet(TextOf(g, decode)) != {WindowOf(TextOf(f, decode), 0)}
    ensures var steps := Started(f) + [Write]; var w := Run(Init(), steps, decode);
      && Lawful(Init(), steps, decode) && w.Quiet() && w.torn == {f.path}
      && !FaithfulAt(w.shard(f.path), f.path, decode) && !Stale(w.shard, g, decode) && !Agrees(w.shard, [g], decode)
  {
    hide Run, Lawful, ChunkSet, WindowOf;
    StartedState(f, decode);
    OneMoreStep(Started(f), Write, decode);
    var w := Run(Init(), Started(f) + [Write], decode);
    assert w.shard(f.path) == Entry({WindowOf(TextOf(f, decode), 0)}, Some(f.Meta()));
    AgreesAt(w.shard, [g], f.path, decode);
  }
}
