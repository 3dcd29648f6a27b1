/** The chunk store as three tables, and what each of its operations does to one file of one root. */
module CodeStore {
  import opened Basics
  import opened Windows

  datatype Row = Row(root: string, path: string, chunk: Chunk)
  datatype FileMeta = FileMeta(mtime: int, size: nat)
  type Vector = seq<int>

  datatype Tables = Tables(chunks: map<nat, Row>, vectors: map<nat, Vector>, meta: map<(string, string), FileMeta>)

  /** What the store says about one file: its chunks and its recorded state. */
  datatype Entry = Entry(chunks: set<Chunk>, meta: Option<FileMeta>)

  const ABSENT := Entry({}, None)

  predicate Belongs(row: Row, root: string, path: string) { row.root == root && row.path == path }

  function RowsOf(t: Tables, root: string, path: string): set<nat> {
    set id | id in t.chunks && Belongs(t.chunks[id], root, path)
  }

  function MetaOf(t: Tables, root: string, path: string): Option<FileMeta> {
    if (root, path) in t.meta then Some(t.meta[(root, path)]) else None
  }

  function EntryOf(t: Tables, root: string, path: string): Entry {
    Entry(set id | id in RowsOf(t, root, path) :: t.chunks[id].chunk, MetaOf(t, root, path))
  }

  /** No file has the same chunk stored twice. */
  ghost predicate NoTwins(t: Tables, root: string) {
    forall i, j :: i in t.chunks && j in t.chunks && i != j && t.chunks[i].root == root ==> t.chunks[i] != t.chunks[j]
  }

  /** The vectors without a chunk. */
  function Orphans(t: Tables): set<nat> { t.vectors.Keys - t.chunks.Keys }

  // ----- the table operations -----

  function InsertRow(t: Tables, id: nat, row: Row): Tables { t.(chunks := t.chunks[id := row]) }

  function DropRows(t: Tables, ids: set<nat>): Tables { t.(chunks := t.chunks - ids, vectors := t.vectors - ids) }

  function DropFile(t: Tables, root: string, path: string): Tables { DropRows(t, RowsOf(t, root, path)) }

  function RowsIn(t: Tables, root: string): set<nat> { set id | id in t.chunks && t.chunks[id].root == root }

  function MetaIn(t: Tables, root: string): set<(string, string)> { set k | k in t.meta && k.0 == root }

  function ClearRoot(t: Tables, root: string): Tables {
    DropRows(t, RowsIn(t, root)).(meta := t.meta - MetaIn(t, root))
  }

  function PutMeta(t: Tables, root: string, path: string, m: FileMeta): Tables { t.(meta := t.meta[(root, path) := m]) }

  function DropMeta(t: Tables, root: string, path: string): Tables { t.(meta := t.meta - {(root, path)}) }

  lemma InsertRowEntry(t: Tables, id: nat, row: Row, root: string, path: string)
    requires id !in t.chunks
    ensures EntryOf(InsertRow(t, id, row), root, path)
         == if Belongs(row, root, path) then Entry(EntryOf(t, root, path).chunks + {row.chunk}, MetaOf(t, root, path)) else EntryOf(t, root, path)
  {
    var t' := InsertRow(t, id, row);
    assert RowsOf(t', root, path) == RowsOf(t, root, path) + (if Belongs(row, root, path) then {id} else {});
    forall i | i in RowsOf(t, root, path) ensures t'.chunks[i] == t.chunks[i] {}
    if Belongs(row, root, path) {
      assert t'.chunks[id].chunk == row.chunk && id in RowsOf(t', root, path);
    }
    var a, b := EntryOf(t, root, path).chunks, EntryOf(t', root, path).chunks;
    forall c | c in a ensures c in b {
      var i :| i in RowsOf(t, root, path) && t.chunks[i].chunk == c;
      assert i in RowsOf(t', root, path) && t'.chunks[i].chunk == c;
    }
  }

  lemma DropFileEntry(t: Tables, root: string, path: string, r: string, p: string)
    ensures EntryOf(DropFile(t, root, path), r, p)
         == if r == root && p == path then Entry({}, MetaOf(t, r, p)) else EntryOf(t, r, p)
  {
    var t' := DropFile(t, root, path);
    assert RowsOf(t', r, p) == if r == root && p == path then {} else RowsOf(t, r, p);
  }

  lemma ClearRootEntry(t: Tables, root: string, r: string, p: string)
    ensures EntryOf(ClearRoot(t, root), r, p) == if r == root then ABSENT else EntryOf(t, r, p)
  {
    var t' := ClearRoot(t, root);
    assert RowsOf(t', r, p) == if r == root then {} else RowsOf(t, r, p);
  }

  /** Whether the next access to the database raises, by a list of what the coming ones will do. */
  predicate Raises(faults: seq<bool>) { faults != [] && faults[0] }

  function Rest(faults: seq<bool>): seq<bool> { if faults == [] then [] else faults[1..] }

  class CodebaseStore {
    var chunks: map<nat, Row>
    var vectors: map<nat, Vector>
    var meta: map<(string, string), FileMeta>
    var faults: seq<bool>     // what the coming accesses to the database do; once it runs out, none raises
    const hasVectors: bool

    constructor (hasVectors: bool)
      ensures All() == Tables(map[], map[], map[]) && faults == []
    {
      chunks, vectors, meta, faults := map[], map[], map[], [];
      this.hasVectors := hasVectors;
    }

    function All(): Tables
      reads this
    {
      Tables(chunks, vectors, meta)
    }

    /** One transaction or query is opened; if it raises, nothing of it happens. */
    method Access() returns (ok: bool)
      modifies this`faults
      ensures ok == !Raises(old(faults)) && faults == Rest(old(faults))
    {
      ok := faults == [] || !faults[0];
      if faults != [] { faults := faults[1..]; }
    }

    /**
      `row` is inserted under a row id the database picks; ids of deleted rows may come back.  The
      row is then read back, which may raise when the insertion did not.
    */
    method SaveChunk(id: nat, row: Row) returns (ok: bool)
      requires id !in chunks
      modifies this`chunks, this`faults
      ensures All() == if Raises(old(faults)) then old(All()) else InsertRow(old(All()), id, row)
      ensures ok == (!Raises(old(faults)) && !Raises(Rest(old(faults))))
      ensures faults == if Raises(old(faults)) then Rest(old(faults)) else Rest(Rest(old(faults)))
    {
      ok := Access();
      if ok {
        chunks := chunks[id := row];
        ok := Access();
      }
    }

    method DeleteChunksForFile(path: string, root: string) returns (ok: bool, count: nat)
      modifies this`chunks, this`vectors, this`faults
      ensures ok == !Raises(old(faults)) && faults == Rest(old(faults))
      ensures All() == if ok then DropFile(old(All()), root, path) else old(All())
      ensures count == if ok then |RowsOf(old(All()), root, path)| else 0
    {
      count := 0;
      ok := Access();
      if ok {
        var ids := RowsOf(All(), root, path);
        count := |ids|;
        vectors := vectors - ids;
        chunks := chunks - ids;
      }
    }

    method Clear(root: Option<string>) returns (ok: bool, count: nat)
      modifies this
      ensures ok == !Raises(old(faults)) && faults == Rest(old(faults))
      ensures All() == if !ok then old(All()) else if root.None? then Tables(map[], map[], map[]) else ClearRoot(old(All()), root.value)
    {
      count := 0;
      ok := Access();
      if ok {
        match root
        case None =>
          count := |chunks|;
          chunks, vectors, meta := map[], map[], map[];
        case Some(r) =>
          var ids, keys := RowsIn(All(), r), MetaIn(All(), r);
          count := |ids|;
          vectors := vectors - ids;
          meta := meta - keys;
          chunks := chunks - ids;
      }
    }

    method ClearFileIndexState(root: Option<string>) returns (ok: bool)
      modifies this`meta, this`faults
      ensures ok == !Raises(old(faults)) && faults == Rest(old(faults))
      ensures meta == if !ok then old(meta) else if root.None? then map[] else old(meta) - MetaIn(old(All()), root.value)
    {
      ok := Access();
      if ok {
        match root
        case None => meta := map[];
        case Some(r) => meta := meta - MetaIn(All(), r);
      }
    }

    method SaveEmbedding(id: nat, v: Vector) returns (ok: bool)
      modifies this`vectors, this`faults
      ensures ok == (!hasVectors || !Raises(old(faults)))
      ensures faults == if hasVectors then Rest(old(faults)) else old(faults)
      ensures vectors == if hasVectors && ok then old(vectors)[id := v] else old(vectors)
    {
      if !hasVectors { return true; }
      ok := Access();
      if ok { vectors := vectors[id := v]; }
    }

    method GetFileIndexState(root: string) returns (ok: bool, state: map<string, FileMeta>)
      modifies this`faults
      ensures ok == !Raises(old(faults)) && faults == Rest(old(faults))
      ensures ok ==> forall p :: p in state <==> MetaOf(All(), root, p).Some?
      ensures ok ==> forall p :: p in state ==> MetaOf(All(), root, p) == Some(state[p])
    {
      state := map[];
      ok := Access();
      if ok { state := map k | k in meta && k.0 == root :: k.1 := meta[k]; }
    }

    method SaveFileIndexState(path: string, m: FileMeta, root: string) returns (ok: bool)
      modifies this`meta, this`faults
      ensures ok == !Raises(old(faults)) && faults == Rest(old(faults))
      ensures All() == if ok then PutMeta(old(All()), root, path, m) else old(All())
    {
      ok := Access();
      if ok { meta := meta[(root, path) := m]; }
    }

    method DeleteFileIndexState(path: string, root: string) returns (ok: bool)
      modifies this`meta, this`faults
      ensures ok == !Raises(old(faults)) && faults == Rest(old(faults))
      ensures All() == if ok then DropMeta(old(All()), root, path) else old(All())
    {
      ok := Access();
      if ok { meta := meta - {(root, path)}; }
    }
  }
}

/** The indexer: builds that run to their end, and builds the database stops half way. */
module CodeIndexer {
  import opened Basics
  import opened Windows
  import opened CodeStore
  import opened CodeBuilds

  // ----- one file's entry changes, everything else stays -----

  ghost predicate OnlyFile(before: Tables, after: Tables, root: string, path: string, e: Entry) {
    && EntryOf(after, root, path) == e
    && forall r, p :: r != root || p != path ==> EntryOf(after, r, p) == EntryOf(before, r, p)
  }

  /** The rows and recorded states of a root, as a shard. */
  ghost predicate Shows(t: Tables, root: string, shard: Shard) { forall p :: EntryOf(t, root, p) == shard(p) }

  ghost predicate OtherRootsSame(before: Tables, after: Tables, root: string) {
    forall r, p :: r != root ==> EntryOf(after, r, p) == EntryOf(before, r, p)
  }

  lemma DropOnly(t: Tables, root: string, path: string)
    ensures OnlyFile(t, DropFile(t, root, path), root, path, Entry({}, MetaOf(t, root, path)))
  {
    forall r, p { DropFileEntry(t, root, path, r, p); }
  }

  lemma InsertOnly(t: Tables, id: nat, root: string, path: string, chunk: Chunk)
    requires id !in t.chunks
    ensures OnlyFile(t, InsertRow(t, id, Row(root, path, chunk)), root, path, Entry(EntryOf(t, root, path).chunks + {chunk}, MetaOf(t, root, path)))
  {
    forall r, p { InsertRowEntry(t, id, Row(root, path, chunk), r, p); }
  }

  lemma VectorsOnly(t: Tables, t': Tables)
    requires t'.chunks == t.chunks && t'.meta == t.meta
    ensures forall r, p :: EntryOf(t', r, p) == EntryOf(t, r, p)
  {
    forall r, p ensures EntryOf(t', r, p) == EntryOf(t, r, p) { assert RowsOf(t', r, p) == RowsOf(t, r, p); }
  }

  lemma MetaOnly(t: Tables, t': Tables, root: string, path: string)
    requires t'.chunks == t.chunks
    requires forall r, p :: r != root || p != path ==> MetaOf(t', r, p) == MetaOf(t, r, p)
    ensures OnlyFile(t, t', root, path, Entry(EntryOf(t, root, path).chunks, MetaOf(t', root, path)))
  {
    forall r, p ensures EntryOf(t', r, p) == Entry(EntryOf(t, r, p).chunks, MetaOf(t', r, p)) {
      assert RowsOf(t', r, p) == RowsOf(t, r, p);
    }
  }

  lemma ToIndexNone(shard: Shard)
    ensures ToIndex(shard, []) == []
  {
  }

  lemma DiscoveredExactly(files: seq<FileInfo>, p: string)
    requires DistinctPaths(files)
    ensures InfoFor(files, p).Some? <==> p in set f | f in files :: f.path
  {
    if p in set f | f in files :: f.path {
      var i :| 0 <= i < |files| && files[i].path == p;
      InfoForAt(files, i);
    }
  }

  /** Two changes to one file are one change. */
  lemma OnlyTwice(a: Tables, b: Tables, c: Tables, root: string, path: string, d: Entry, e: Entry)
    requires OnlyFile(a, b, root, path, d) && OnlyFile(b, c, root, path, e)
    ensures OnlyFile(a, c, root, path, e)
  {
  }

  lemma OnlyShows(t: Tables, t': Tables, root: string, path: string, shard: Shard, e: Entry)
    requires Shows(t, root, shard) && OnlyFile(t, t', root, path, e)
    ensures Shows(t', root, Put(shard, path, e))
  {
    hide EntryOf;
  }

  lemma NewRowNoTwins(t: Tables, root: string, id: nat, row: Row)
    requires NoTwins(t, root) && id !in t.chunks && row.root == root && row.chunk !in EntryOf(t, root, row.path).chunks
    ensures NoTwins(InsertRow(t, id, row), root)
  {
    forall i | i in t.chunks ensures t.chunks[i] != row {
      assert Belongs(t.chunks[i], root, row.path) ==> i in RowsOf(t, root, row.path);
    }
  }

  lemma WindowIsNew(text: FileText, k: nat)
    requires k < WindowCount(|text.lines|)
    ensures WindowOf(text, k) !in FirstWindows(text, k)
  {
  }

  /** What is left of an entry after `n` of the two transactions that remove it. */
  function Removed(e: Entry, n: nat): Entry { if n == 0 then e else if n == 1 then Entry({}, e.meta) else ABSENT }

  lemma RemoveWrites(w: World, p: string, n: nat, decode: Decoder)
    requires w.doing == Nothing && w.queue != [] && w.queue[0] == Remove(p) && n <= 2
    ensures SameShard(Writes(w, n, decode).shard, Put(w.shard, p, Removed(w.shard(p), n)))
    ensures n == 2 ==> Writes(w, n, decode).doing == Nothing && Writes(w, n, decode).queue == w.queue[1..]
  {
    assert Writes(w, 0, decode) == w;
    assert Writes(w, 1, decode) == Written(w, decode);
    assert Writes(w, 2, decode) == Written(Written(w, decode), decode);
  }

  lemma {:induction false} WritesAdd(w: World, m: nat, n: nat, decode: Decoder)
    ensures Writes(w, m + n, decode) == Writes(Writes(w, m, decode), n, decode)
  {
    hide Written;
    if n > 0 { WritesAdd(w, m, n - 1, decode); }
  }

  lemma {:induction false} ToIndexSnoc(shard: Shard, files: seq<FileInfo>, f: FileInfo)
    ensures ToIndex(shard, files + [f]) == ToIndex(shard, files) + if Changed(shard, f) then [f] else []
    decreases |files|
  {
    if files == [] {
      assert files + [f] == [f];
    } else {
      assert (files + [f])[1..] == files[1..] + [f];
      ToIndexSnoc(shard, files[1..], f);
    }
  }

  /** One more window of a file is stored, in the tables and in the world of steps. */
  lemma WindowSaved(before: Tables, t: Tables, id: nat, root: string, f: FileInfo, n: nat, meta: Option<FileMeta>, w: World, decode: Decoder)
    requires Textual(f, decode) && n < WindowCount(|TextOf(f, decode).lines|) && id !in t.chunks
    requires w.doing == Indexing(f, n) && Shows(t, root, w.shard) && NoTwins(t, root)
    requires OnlyFile(before, t, root, f.path, Entry(FirstWindows(TextOf(f, decode), n), meta))
    ensures var text := TextOf(f, decode); var t' := InsertRow(t, id, Row(root, f.path, WindowOf(text, n)));
      && NoTwins(t', root) && Orphans(t') <= Orphans(t) && Shows(t', root, Written(w, decode).shard)
      && OnlyFile(before, t', root, f.path, Entry(FirstWindows(text, n + 1), meta))
    ensures Written(w, decode).doing == Indexing(f, n + 1) && Written(w, decode).queue == w.queue
  {
    hide EntryOf, NoTwins, WindowCount, WindowOf, FirstWindows;
    var text := TextOf(f, decode);
    var chunk := WindowOf(text, n);
    var t' := InsertRow(t, id, Row(root, f.path, chunk));
    WindowIsNew(text, n);
    NewRowNoTwins(t, root, id, Row(root, f.path, chunk));
    InsertOnly(t, id, root, f.path, chunk);
    OneMoreWindow(text, n);
    var e := Entry(EntryOf(t, root, f.path).chunks + {chunk}, MetaOf(t, root, f.path));
    EntryMeta(t, root, f.path);
    OnlyTwice(before, t, t', root, f.path, Entry(FirstWindows(text, n), meta), e);
    OnlyShows(t, t', root, f.path, w.shard, e);
  }

  lemma RootsTwice(a: Tables, b: Tables, c: Tables, root: string)
    requires OtherRootsSame(a, b, root) && OtherRootsSame(b, c, root)
    ensures OtherRootsSame(a, c, root)
  {
    hide EntryOf;
  }

  /** A path is removed, or half of it, in the tables and in the world of steps. */
  lemma PathRemoved(t: Tables, t': Tables, root: string, path: string, w: World, n: nat, decode: Decoder)
    requires Shows(t, root, w.shard) && w.doing == Nothing && w.queue != [] && w.queue[0] == Remove(path) && n <= 2
    requires OnlyFile(t, t', root, path, Removed(EntryOf(t, root, path), n))
    ensures Shows(t', root, Writes(w, n, decode).shard) && OtherRootsSame(t, t', root)
    ensures n == 2 ==> Writes(w, n, decode).doing == Nothing && Writes(w, n, decode).queue == w.queue[1..]
    ensures forall p :: EntryOf(t', root, p) == if p == path then Removed(EntryOf(t, root, p), n) else EntryOf(t, root, p)
  {
    hide EntryOf;
    RemoveWrites(w, path, n, decode);
    OnlyShows(t, t', root, path, w.shard, Removed(w.shard(path), n));
  }

  /** Clearing a root empties its shard and nothing else. */
  lemma RootCleared(t: Tables, root: string)
    ensures var t' := ClearRoot(t, root);
      && Shows(t', root, Empty()) && OtherRootsSame(t, t', root)
      && (NoTwins(t, root) ==> NoTwins(t', root)) && Orphans(t') <= Orphans(t)
    ensures ClearRoot(t, root).meta - MetaIn(ClearRoot(t, root), root) == ClearRoot(t, root).meta
  {
    forall r, p { ClearRootEntry(t, root, r, p); }
  }

  lemma WipeWrites(w: World, files: seq<FileInfo>, decode: Decoder)
    requires w.doing == Nothing && w.queue == [Wipe] + Indexings(files)
    ensures Writes(w, 1, decode).shard == Empty() && Writes(w, 1, decode).doing == Nothing && Writes(w, 1, decode).queue == Indexings(files)
  {
    WritesOne(w, decode);
    assert w.queue[1..] == Indexings(files);
  }

  lemma WritesNone(w: World, decode: Decoder)
    ensures Writes(w, 0, decode) == w
  {
  }

  lemma WritesOne(w: World, decode: Decoder)
    ensures Writes(w, 1, decode) == Written(w, decode)
  {
    assert Writes(w, 0, decode) == w;
  }

  lemma OnlyRoot(t: Tables, t': Tables, root: string, path: string, e: Entry)
    requires OnlyFile(t, t', root, path, e)
    ensures OtherRootsSame(t, t', root)
  {
  }

  lemma SameRoots(t: Tables, root: string)
    ensures OtherRootsSame(t, t, root)
  {
  }

  /** A file that is no readable text is passed over. */
  lemma FileSkipped(t: Tables, root: string, f: FileInfo, shard: Shard, decode: Decoder)
    ensures !Textual(f, decode) ==> OnlyFile(t, t, root, f.path, IndexedEntry(EntryOf(t, root, f.path), f, decode))
  {
  }

  /** The first transaction of a file: its old chunks go. */
  lemma FileDropped(t: Tables, root: string, f: FileInfo, w: World, decode: Decoder)
    requires Textual(f, decode) && w.doing == Nothing && w.queue != [] && w.queue[0] == Index(f) && Shows(t, root, w.shard)
    requires NoTwins(t, root)
    ensures var t' := DropFile(t, root, f.path); var e := Entry({}, Written(w, decode).shard(f.path).meta);
      && NoTwins(t', root) && Orphans(t') <= Orphans(t) && OnlyFile(t, t', root, f.path, e) && OtherRootsSame(t, t', root)
      && Shows(t', root, Written(w, decode).shard) && Written(w, decode).shard(f.path).chunks == {}
    ensures Written(w, decode).doing == Indexing(f, 0) && Written(w, decode).queue == w.queue[1..]
  {
    hide EntryOf;
    DropOnly(t, root, f.path);
    EntryMeta(t, root, f.path);
    OnlyShows(t, DropFile(t, root, f.path), root, f.path, w.shard, Entry({}, MetaOf(t, root, f.path)));
  }

  lemma VectorsSaved(before: Tables, t: Tables, t': Tables, root: string, path: string, shard: Shard, e: Entry)
    requires t'.chunks == t.chunks && t'.meta == t.meta && OnlyFile(before, t, root, path, e) && Shows(t, root, shard)
    ensures OnlyFile(before, t', root, path, e) && Shows(t', root, shard) && OtherRootsSame(before, t', root)
    ensures NoTwins(t, root) ==> NoTwins(t', root)
  {
    VectorsOnly(t, t');
  }

  /** Vectors of rows that are there orphan nothing. */
  lemma StillNoOrphans(t: Tables, t': Tables, saved: seq<nat>, n: nat)
    requires n <= |saved| && forall i :: 0 <= i < |saved| ==> saved[i] in t.chunks
    requires t'.chunks == t.chunks && t'.vectors.Keys == t.vectors.Keys + (set i | 0 <= i < n :: saved[i])
    ensures Orphans(t') <= Orphans(t)
  {
  }

  /** The last transaction of a file: its state is recorded. */
  lemma FileRecorded(before: Tables, t: Tables, root: string, f: FileInfo, w: World, meta: Option<FileMeta>, decode: Decoder)
    requires Textual(f, decode) && w.doing == Indexing(f, WindowCount(|TextOf(f, decode).lines|)) && Shows(t, root, w.shard)
    requires OnlyFile(before, t, root, f.path, Entry(ChunkSet(TextOf(f, decode)), meta))
    requires NoTwins(t, root)
    ensures var t' := PutMeta(t, root, f.path, f.Meta());
      && NoTwins(t', root) && Orphans(t') <= Orphans(t) && OtherRootsSame(before, t', root)
      && OnlyFile(before, t', root, f.path, IndexedEntry(EntryOf(before, root, f.path), f, decode))
      && Shows(t', root, Written(w, decode).shard)
    ensures Written(w, decode).doing == Nothing && Written(w, decode).queue == w.queue
  {
    hide EntryOf, WindowCount, ChunkSet;
    var t' := PutMeta(t, root, f.path, f.Meta());
    MetaOnly(t, t', root, f.path);
    var e := Entry(EntryOf(t, root, f.path).chunks, MetaOf(t', root, f.path));
    OnlyTwice(before, t, t', root, f.path, Entry(ChunkSet(TextOf(f, decode)), meta), e);
    OnlyShows(t, t', root, f.path, w.shard, e);
  }

  lemma EntryMeta(t: Tables, root: string, path: string)
    ensures EntryOf(t, root, path).meta == MetaOf(t, root, path)
  {
  }

  lemma WindowBounds(total: nat, n: nat)
    requires n <= WindowCount(total)
    ensures CHUNK_SIZE * n < total <==> n < WindowCount(total)
  {
  }

  /** A path without chunks is one with no window saved. */
  lemma NothingSaved(t: Tables, root: string, path: string, shard: Shard)
    requires Shows(t, root, shard) && shard(path).chunks == {}
    ensures OnlyFile(t, t, root, path, Entry({}, shard(path).meta))
  {
    assert EntryOf(t, root, path) == shard(path);
  }

  lemma LastWindow(total: nat, n: nat)
    requires n <= WindowCount(total) && Min(CHUNK_SIZE * n, total) == total
    ensures n == WindowCount(total)
  {
  }

  // ----- a file's rows and their vectors -----

  /** What the embedder makes of the texts of one file's chunks; fewer vectors, or none, if it gives up. */
  type Embedder = (string, seq<seq<string>>) -> seq<Vector>

  /** The texts of a file's chunks, in order. */
  function ChunkTexts(text: FileText): (r: seq<seq<string>>)
    ensures |r| == WindowCount(|text.lines|)
  {
    seq(WindowCount(|text.lines|), k requires 0 <= k < WindowCount(|text.lines|) => WindowOf(text, k).lines)
  }

  /** `saved` are, in order, the rows of the first chunks of a file. */
  ghost predicate RowsSaved(t: Tables, root: string, path: string, text: FileText, saved: seq<nat>)
    requires |saved| <= WindowCount(|text.lines|)
  {
    && (forall i :: 0 <= i < |saved| ==> saved[i] in t.chunks && t.chunks[saved[i]] == Row(root, path, WindowOf(text, i)))
    && forall i, j :: 0 <= i < j < |saved| ==> saved[i] != saved[j]
  }

  /** The first `n` of the saved rows have their vector, each its own. */
  ghost predicate Given(vectors: map<nat, Vector>, saved: seq<nat>, embeddings: seq<Vector>, n: nat)
    requires n <= |saved| && n <= |embeddings|
  {
    forall i :: 0 <= i < n ==> saved[i] in vectors && vectors[saved[i]] == embeddings[i]
  }

  /** Each chunk of a file is stored in a row that carries the vector computed from the text of that very chunk. */
  ghost predicate Carries(t: Tables, root: string, path: string, text: FileText, embeddings: seq<Vector>) {
    forall k: nat :: k < WindowCount(|text.lines|) && k < |embeddings| ==> HasVector(t, Row(root, path, WindowOf(text, k)), embeddings[k])
  }

  /** The row is stored, and `v` under its id. */
  ghost predicate HasVector(t: Tables, row: Row, v: Vector) {
    exists id :: id in t.chunks && t.chunks[id] == row && id in t.vectors && t.vectors[id] == v
  }

  lemma OneMoreRow(t: Tables, id: nat, root: string, path: string, text: FileText, saved: seq<nat>)
    requires |saved| < WindowCount(|text.lines|) && RowsSaved(t, root, path, text, saved) && id !in t.chunks
    ensures RowsSaved(InsertRow(t, id, Row(root, path, WindowOf(text, |saved|))), root, path, text, saved + [id])
  {
    hide WindowOf, WindowCount;
  }

  lemma SavedCarry(t: Tables, root: string, path: string, text: FileText, saved: seq<nat>, embeddings: seq<Vector>, n: nat)
    requires |saved| == WindowCount(|text.lines|) && RowsSaved(t, root, path, text, saved)
    requires n <= |saved| && n <= |embeddings| && (n == |saved| || n == |embeddings|) && Given(t.vectors, saved, embeddings, n)
    ensures Carries(t, root, path, text, embeddings)
  {
    hide WindowOf, WindowCount;
    forall k: nat | k < WindowCount(|text.lines|) && k < |embeddings|
      ensures HasVector(t, Row(root, path, WindowOf(text, k)), embeddings[k])
    {
      assert saved[k] in t.chunks;
    }
  }

  lemma NoRowYet(t: Tables, root: string, path: string, text: FileText)
    ensures RowsSaved(t, root, path, text, [])
  {
  }

  lemma TextsSnoc(text: FileText, n: nat)
    requires n < WindowCount(|text.lines|)
    ensures ChunkTexts(text)[..n + 1] == ChunkTexts(text)[..n] + [WindowOf(text, n).lines]
  {
  }

  lemma SavedAreThere(t: Tables, root: string, path: string, text: FileText, saved: seq<nat>)
    requires |saved| <= WindowCount(|text.lines|) && RowsSaved(t, root, path, text, saved)
    ensures forall i :: 0 <= i < |saved| ==> saved[i] in t.chunks
    ensures forall i, j :: 0 <= i < j < |saved| ==> saved[i] != saved[j]
  {
  }

  lemma SameRows(t: Tables, t': Tables, root: string, path: string, text: FileText, saved: seq<nat>)
    requires |saved| <= WindowCount(|text.lines|) && RowsSaved(t, root, path, text, saved) && t'.chunks == t.chunks
    ensures RowsSaved(t', root, path, text, saved)
  {
  }

  // ----- the indexer -----

  class CodebaseIndexer {
    const store: CodebaseStore
    const root: string

    constructor (store: CodebaseStore, root: string)
      ensures this.store == store && this.root == root
    {
      this.store, this.root := store, root;
    }

    ghost predicate Valid()
      reads store
    {
      NoTwins(store.All(), root)
    }

    /** This root's shard, with nobody at work on it. */
    ghost function Here(): World
      reads store
    {
      var t, r := store.All(), root;
      World((p: string) => EntryOf(t, r, p), Nothing, [], multiset{}, {})
    }

    /** A row id no row has; like the database, one above the largest. */
    method NextRowId() returns (id: nat)
      ensures id !in store.chunks
    {
      id := 1;
      var rest := store.chunks.Keys;
      while rest != {}
        invariant forall k :: k in store.chunks ==> k in rest || k < id
        decreases |rest|
      {
        var k :| k in rest;
        if k >= id { id := k + 1; }
        rest := rest - {k};
      }
    }

    /** The window that begins at `start`, with a few lines of the next as context, and where the next one begins. */
    method Cut(text: FileText, start: nat, ghost n: nat) returns (chunk: Chunk, next: nat)
      requires n < WindowCount(|text.lines|) && start == CHUNK_SIZE * n
      ensures chunk == WindowOf(text, n) && next == Min(CHUNK_SIZE * (n + 1), |text.lines|) && next > start
    {
      var total := |text.lines|;
      var end := if start + CHUNK_SIZE < total then start + CHUNK_SIZE else total;
      var last;
      if end < total {
        last := if end + CHUNK_OVERLAP < total then end + CHUNK_OVERLAP else total;
        next := end;
      } else {
        last := end;
        next := total;
      }
      chunk := Chunk(start + 1, last, text.lines[start..last], SymbolsInRange(text.symbols, start + 1, last), total);
    }

    /** The window loop: cut and save chunk after chunk, one transaction each. */
    method SaveWindows(f: FileInfo, text: FileText, ghost decode: Decoder, ghost w: World)
      returns (ok: bool, saved: seq<nat>, texts: seq<seq<string>>, ghost n: nat)
      requires Textual(f, decode) && text == TextOf(f, decode)
      requires Valid() && Shows(store.All(), root, w.shard) && w.doing == Indexing(f, 0) && w.shard(f.path).chunks == {}
      modifies store
      ensures Valid() && Orphans(store.All()) <= old(Orphans(store.All())) && n <= WindowCount(|text.lines|) && (ok ==> n == WindowCount(|text.lines|))
      ensures Shows(store.All(), root, Writes(w, n, decode).shard)
      ensures Writes(w, n, decode).doing == Indexing(f, n) && Writes(w, n, decode).queue == w.queue
      ensures OnlyFile(old(store.All()), store.All(), root, f.path, Entry(FirstWindows(text, n), w.shard(f.path).meta))
      ensures ok ==> |saved| == WindowCount(|text.lines|) && RowsSaved(store.All(), root, f.path, text, saved) && texts == ChunkTexts(text)
      ensures old(store.faults) == [] ==> ok && store.faults == []
    {
      hide EntryOf, OnlyFile, Shows, NoTwins, Orphans, Textual, TextOf, WindowOf, FirstWindows, WindowCount, Written, RowsSaved, ChunkTexts, InsertRow;
      ghost var cur, before, meta := w, store.All(), w.shard(f.path).meta;
      AllTheWindows(text);
      NothingSaved(before, root, f.path, w.shard);
      saved, texts, n := [], [], 0;
      NoRowYet(before, root, f.path, text);
      assert ChunkTexts(text)[..0] == [];
      var start := 0;
      WindowBounds(|text.lines|, n);
      while start < |text.lines|
        invariant n <= WindowCount(|text.lines|) && start == Min(CHUNK_SIZE * n, |text.lines|)
        invariant start < |text.lines| ==> n < WindowCount(|text.lines|)
        invariant cur == Writes(w, n, decode) && cur.doing == Indexing(f, n) && cur.queue == w.queue
        invariant Valid() && Orphans(store.All()) <= old(Orphans(store.All())) && Shows(store.All(), root, cur.shard)
        invariant OnlyFile(before, store.All(), root, f.path, Entry(FirstWindows(text, n), meta))
        invariant |saved| == n && RowsSaved(store.All(), root, f.path, text, saved) && texts == ChunkTexts(text)[..n]
        invariant old(store.faults) == [] ==> store.faults == []
        decreases |text.lines| - start
      {
        var chunk, next := Cut(text, start, n);
        var id := NextRowId();
        ghost var t, raises := store.All(), Raises(store.faults);
        WindowSaved(before, t, id, root, f, n, meta, cur, decode);
        OneMoreRow(t, id, root, f.path, text, saved);
        TextsSnoc(text, n);
        ok := store.SaveChunk(id, Row(root, f.path, chunk));
        if !raises {
          cur := Written(cur, decode);
          n := n + 1;
        }
        if !ok { return; }
        saved, texts := saved + [id], texts + [chunk.lines];
        start := next;
        WindowBounds(|text.lines|, n);
      }
      LastWindow(|text.lines|, n);
      assert ChunkTexts(text)[..n] == ChunkTexts(text);
      ok := true;
    }

    /**
      Vectors for the first `n` of the saved rows, as far as the embedder and the database get: a
      failure here stops nothing else, and nobody asks whether the rows are still there.
    */
    method SaveVectors(saved: seq<nat>, embeddings: seq<Vector>) returns (ghost n: nat)
      requires forall i, j :: 0 <= i < j < |saved| ==> saved[i] != saved[j]
      modifies store`vectors, store`faults
      ensures n <= |saved| && n <= |embeddings| && (old(store.faults) == [] && store.hasVectors ==> n == |saved| || n == |embeddings|)
      ensures Given(store.vectors, saved, embeddings, n)
      ensures store.vectors.Keys == old(store.vectors.Keys) + (set i | 0 <= i < n :: saved[i])
      ensures forall id :: id in old(store.vectors) && (forall i :: 0 <= i < n ==> saved[i] != id) ==> store.vectors[id] == old(store.vectors)[id]
      ensures old(store.faults) == [] ==> store.faults == []
    {
      n := 0;
      var i, ok := 0, true;
      while i < |saved| && i < |embeddings| && ok
        invariant n <= i <= |saved| && i <= |embeddings| && (ok && store.hasVectors ==> n == i)
        invariant Given(store.vectors, saved, embeddings, n)
        invariant store.vectors.Keys == old(store.vectors.Keys) + (set k | 0 <= k < n :: saved[k])
        invariant forall id :: id in old(store.vectors) && (forall k :: 0 <= k < n ==> saved[k] != id) ==> store.vectors[id] == old(store.vectors)[id]
        invariant !store.hasVectors ==> n == 0
        invariant old(store.faults) == [] ==> store.faults == [] && ok
        decreases |saved| - i
      {
        ok := store.SaveEmbedding(saved[i], embeddings[i]);
        if ok && store.hasVectors {
          assert (set k | 0 <= k < n + 1 :: saved[k]) == (set k | 0 <= k < n :: saved[k]) + {saved[n]};
          n := n + 1;
        }
        i := i + 1;
      }
    }

    /** The part of indexing a file behind the decoding: chunks out, windows in, vectors as far as they go, state last. */
    method Reindex(f: FileInfo, text: FileText, ghost decode: Decoder, embed: Embedder, ghost w: World) returns (ok: bool, ghost n: nat)
      requires Textual(f, decode) && text == TextOf(f, decode)
      requires Valid() && Shows(store.All(), root, w.shard) && w.doing == Nothing && w.queue != [] && w.queue[0] == Index(f)
      modifies store
      ensures Valid() && Orphans(store.All()) <= old(Orphans(store.All())) && Shows(store.All(), root, Writes(w, n, decode).shard) && OtherRootsSame(old(store.All()), store.All(), root)
      ensures ok ==> Writes(w, n, decode).doing == Nothing && Writes(w, n, decode).queue == w.queue[1..]
      ensures ok ==> OnlyFile(old(store.All()), store.All(), root, f.path, IndexedEntry(old(EntryOf(store.All(), root, f.path)), f, decode))
      ensures old(store.faults) == [] ==> ok && store.faults == []
      ensures old(store.faults) == [] && store.hasVectors ==>
                Carries(store.All(), root, f.path, text, embed(f.path, ChunkTexts(text)))
    {
      hide EntryOf, OnlyFile, Shows, NoTwins, Orphans, Textual, TextOf, WindowOf, FirstWindows, WindowCount, ChunkSet, Written,
        OtherRootsSame, IndexedEntry, DropFile, PutMeta, RowsSaved, ChunkTexts, Carries, Given;
      ghost var before, cur, meta := store.All(), Written(w, decode), Written(w, decode).shard(f.path).meta;
      WritesOne(w, decode);
      SameRoots(before, root);
      FileDropped(before, root, f, w, decode);
      var count, saved, texts;
      ok, count := store.DeleteChunksForFile(f.path, root);
      if !ok { n := 0; return; }
      ghost var t, m := store.All(), 0;
      ok, saved, texts, m := SaveWindows(f, text, decode, cur);
      n := 1 + m;
      WritesAdd(w, 1, m, decode);
      ghost var u := store.All();
      OnlyTwice(before, t, u, root, f.path, Entry({}, meta), Entry(FirstWindows(text, m), meta));
      OnlyRoot(before, u, root, f.path, Entry(FirstWindows(text, m), meta));
      if !ok { return; }
      SavedAreThere(u, root, f.path, text, saved);
      var embeddings := embed(f.path, texts);
      ghost var vectors := SaveVectors(saved, embeddings);
      StillNoOrphans(u, store.All(), saved, vectors);
      AllTheWindows(text);
      VectorsSaved(before, u, store.All(), root, f.path, Writes(w, n, decode).shard, Entry(ChunkSet(text), meta));
      FileRecorded(before, store.All(), root, f, Writes(w, n, decode), meta, decode);
      ok := store.SaveFileIndexState(f.path, f.Meta(), root);
      if old(store.faults) == [] && store.hasVectors {
        SameRows(u, store.All(), root, f.path, text, saved);
        SavedCarry(store.All(), root, f.path, text, saved, embeddings, vectors);
      }
      if ok { n := n + 1; }
    }

    /**
      `n` is how many steps of the build were made, all of them unless the database raised; if it
      never does, every chunk's row has the vector of its own text, as far as the embedder got.
    */
    method IndexFile(f: FileInfo, decode: Decoder, embed: Embedder, ghost w: World) returns (ok: bool, ghost n: nat)
      requires Valid() && Shows(store.All(), root, w.shard) && w.doing == Nothing && w.queue != [] && w.queue[0] == Index(f)
      modifies store
      ensures Valid() && Orphans(store.All()) <= old(Orphans(store.All())) && Shows(store.All(), root, Writes(w, n, decode).shard) && OtherRootsSame(old(store.All()), store.All(), root)
      ensures ok ==> Writes(w, n, decode).doing == Nothing && Writes(w, n, decode).queue == w.queue[1..]
      ensures ok ==> OnlyFile(old(store.All()), store.All(), root, f.path, IndexedEntry(old(EntryOf(store.All(), root, f.path)), f, decode))
      ensures old(store.faults) == [] ==> ok && store.faults == []
      ensures old(store.faults) == [] && store.hasVectors && Textual(f, decode) ==>
                Carries(store.All(), root, f.path, TextOf(f, decode), embed(f.path, ChunkTexts(TextOf(f, decode))))
    {
      hide EntryOf, OnlyFile, Shows, NoTwins, Orphans, IndexedEntry, OtherRootsSame, ChunkSet, Carries, ChunkTexts;
      ok, n := true, 1;
      WritesOne(w, decode);
      FileSkipped(store.All(), root, f, w.shard, decode);
      SameRoots(store.All(), root);
      if f.seen.None? { return; }
      var text := decode(f.path, f.seen.value);
      if text.None? { return; }
      ok, n := Reindex(f, text.value, decode, embed, w);
    }

    /** `n` counts the transactions made: both, unless the database raised. */
    method InvalidatePath(path: string) returns (ok: bool, ghost n: nat)
      requires Valid()
      modifies store
      ensures Valid() && Orphans(store.All()) <= old(Orphans(store.All())) && n <= 2 && (ok <==> n == 2)
      ensures OnlyFile(old(store.All()), store.All(), root, path, Removed(old(EntryOf(store.All(), root, path)), n))
      ensures old(store.faults) == [] ==> ok && store.faults == []
    {
      ghost var before := store.All();
      EntryMeta(before, root, path);
      n := 0;
      var count;
      ok, count := store.DeleteChunksForFile(path, root);
      if !ok { return; }
      DropOnly(before, root, path);
      n := 1;
      ghost var t := store.All();
      ok := store.DeleteFileIndexState(path, root);
      if !ok { return; }
      MetaOnly(t, store.All(), root, path);
      n := 2;
    }

    /** A set of paths in some order. */
    method Listed(paths: set<string>) returns (r: seq<string>)
      ensures forall p :: p in r <==> p in paths
    {
      r := [];
      var rest := paths;
      while rest != {}
        invariant rest <= paths && forall p :: p in r <==> p in paths - rest
        decreases |rest|
      {
        var path :| path in rest;
        r := r + [path];
        rest := rest - {path};
      }
    }

    /** The difference between the recorded state and the files on disk. */
    method Plan(files: seq<FileInfo>) returns (ok: bool, todo: seq<FileInfo>, gone: seq<string>)
      requires DistinctPaths(files)
      modifies store`faults
      ensures ok ==> todo == ToIndex(Here().shard, files) && Vanished(Here().shard, files, gone)
      ensures old(store.faults) == [] ==> ok && store.faults == []
    {
      hide RowsOf, ToIndex, InfoFor;
      todo, gone := [], [];
      var state;
      ok, state := store.GetFileIndexState(root);
      if !ok { return; }
      ghost var shard := Here().shard;
      assert forall p :: shard(p).meta == if p in state then Some(state[p]) else None;
      var current := set f | f in files :: f.path;
      assert files[..0] == [];
      ToIndexNone(shard);
      for i := 0 to |files|
        invariant todo == ToIndex(shard, files[..i]) && (old(store.faults) == [] ==> store.faults == [])
      {
        var f := files[i];
        assert files[..i + 1] == files[..i] + [f];
        ToIndexSnoc(shard, files[..i], f);
        if f.path !in state || state[f.path] != f.Meta() { todo := todo + [f]; }
      }
      assert files[..|files|] == files;
      gone := Listed(state.Keys - current);
      forall p ensures p in current <==> InfoFor(files, p).Some? { DiscoveredExactly(files, p); }
    }

    method RemoveAll(paths: seq<string>, ghost rest: seq<Todo>, ghost decode: Decoder, ghost w: World) returns (ok: bool, ghost n: nat)
      requires Valid() && Shows(store.All(), root, w.shard) && w.doing == Nothing && w.queue == Removals(paths) + rest
      modifies store
      ensures Valid() && Orphans(store.All()) <= old(Orphans(store.All())) && Shows(store.All(), root, Writes(w, n, decode).shard) && OtherRootsSame(old(store.All()), store.All(), root)
      ensures ok ==> Writes(w, n, decode).doing == Nothing && Writes(w, n, decode).queue == rest
      ensures ok ==> forall p :: EntryOf(store.All(), root, p) == if p in paths then ABSENT else old(EntryOf(store.All(), root, p))
      ensures old(store.faults) == [] ==> ok && store.faults == []
    {
      hide EntryOf, Written, NoTwins, Orphans, OtherRootsSame;
      ghost var before, cur := store.All(), w;
      ok, n := true, 0;
      SameRoots(before, root);
      for i := 0 to |paths|
        invariant Valid() && Orphans(store.All()) <= old(Orphans(store.All())) && cur == Writes(w, n, decode) && cur.doing == Nothing && cur.queue == Removals(paths[i..]) + rest
        invariant Shows(store.All(), root, cur.shard) && OtherRootsSame(before, store.All(), root)
        invariant forall p :: EntryOf(store.All(), root, p) == if p in paths[..i] then ABSENT else EntryOf(before, root, p)
        invariant old(store.faults) == [] ==> store.faults == []
      {
        ghost var t, m := store.All(), 0;
        assert paths[i..] == [paths[i]] + paths[i + 1..] && paths[..i + 1] == paths[..i] + [paths[i]];
        assert cur.queue[0] == Remove(paths[i]) && cur.queue[1..] == Removals(paths[i + 1..]) + rest;
        ok, m := InvalidatePath(paths[i]);
        PathRemoved(t, store.All(), root, paths[i], cur, m, decode);
        RootsTwice(before, t, store.All(), root);
        WritesAdd(w, n, m, decode);
        n := n + m;
        cur := Writes(cur, m, decode);
        if !ok { return; }
      }
      assert paths[..|paths|] == paths && Removals(paths[|paths|..]) + rest == rest;
    }

    method IndexAll(todo: seq<FileInfo>, decode: Decoder, embed: Embedder, ghost w: World) returns (ok: bool, ghost n: nat)
      requires Valid() && DistinctPaths(todo) && Shows(store.All(), root, w.shard) && w.doing == Nothing && w.queue == Indexings(todo)
      modifies store
      ensures Valid() && Orphans(store.All()) <= old(Orphans(store.All())) && Shows(store.All(), root, Writes(w, n, decode).shard) && OtherRootsSame(old(store.All()), store.All(), root)
      ensures ok ==> Writes(w, n, decode).Idle()
      ensures ok ==> forall p :: EntryOf(store.All(), root, p) == IndexedIf(old(EntryOf(store.All(), root, p)), InfoFor(todo, p), decode)
      ensures old(store.faults) == [] ==> ok && store.faults == []
    {
      hide EntryOf, IndexedEntry, NoTwins, Orphans, OtherRootsSame, Shows, Writes;
      ghost var before, cur := store.All(), w;
      ok, n := true, 0;
      SameRoots(before, root);
      WritesNone(w, decode);
      for i := 0 to |todo|
        invariant Valid() && Orphans(store.All()) <= old(Orphans(store.All())) && cur == Writes(w, n, decode) && cur.doing == Nothing && cur.queue == Indexings(todo[i..])
        invariant Shows(store.All(), root, cur.shard) && OtherRootsSame(before, store.All(), root)
        invariant forall p :: EntryOf(store.All(), root, p) == IndexedIf(EntryOf(before, root, p), InfoFor(todo[..i], p), decode)
        invariant old(store.faults) == [] ==> store.faults == []
      {
        ghost var t, m := store.All(), 0;
        assert todo[i..] == [todo[i]] + todo[i + 1..];
        assert cur.queue[0] == Index(todo[i]) && cur.queue[1..] == Indexings(todo[i + 1..]);
        ok, m := IndexFile(todo[i], decode, embed, cur);
        RootsTwice(before, t, store.All(), root);
        WritesAdd(w, n, m, decode);
        n := n + m;
        cur := Writes(cur, m, decode);
        if !ok { return; }
        forall p { InfoForNext(todo, i, p); }
        NotYetListed(todo, i);
      }
      assert todo[..|todo|] == todo;
    }

    /**
      A build: to its end, or up to the store call that raises, whatever call that is.  `n` is how
      many of its steps were made; the tables are at every exit what that many steps leave.
    */
    method RunBuild(force: bool, files: seq<FileInfo>, decode: Decoder, embed: Embedder)
      returns (ok: bool, ghost gone: seq<string>, ghost n: nat)
      requires Valid() && DistinctPaths(files)
      modifies store
      ensures Valid() && Orphans(store.All()) <= old(Orphans(store.All())) && OtherRootsSame(old(store.All()), store.All(), root)
      ensures ok ==> forall p :: EntryOf(store.All(), root, p) == BuildEntry(force, old(EntryOf(store.All(), root, p)), InfoFor(files, p), decode)
      ensures store.All() == old(store.All())
        || (CanBegin(old(Here()), force, files, gone)
            && Shows(store.All(), root, Writes(Begun(old(Here()), force, files, gone), n, decode).shard))
      ensures old(store.faults) == [] ==> ok
    {
      hide EntryOf, IndexedEntry, NoTwins, Orphans, OtherRootsSame, Writes, Written;
      ghost var before, w, m := store.All(), Here(), 0;
      SameRoots(before, root);
      n, gone := 0, [];
      var todo := files;
      if force {
        var count;
        ok, count := store.Clear(Some(root));
        if !ok { return; }
        RootCleared(before, root);
        w, n := Begun(w, true, files, []), 1;
        ghost var t := store.All();
        WipeWrites(w, files, decode);
        ok := store.ClearFileIndexState(Some(root));
        assert store.meta == before.meta - MetaIn(before, root);
        if !ok { return; }
      } else {
        var vanished;
        ok, todo, vanished := Plan(files);
        if !ok { return; }
        gone := vanished;
        w := Begun(w, false, files, gone);
        ok, n := RemoveAll(vanished, Indexings(todo), decode, w);
        if !ok { return; }
        ToIndexDistinct(old(Here()).shard, files);
      }
      ghost var t := store.All();
      ok, m := IndexAll(todo, decode, embed, Writes(w, n, decode));
      WritesAdd(w, n, m, decode);
      RootsTwice(before, t, store.All(), root);
      n := n + m;
      if ok {
        forall p ensures EntryOf(store.All(), root, p) == BuildEntry(force, EntryOf(before, root, p), InfoFor(files, p), decode) {
          BuildCompletes(old(Here()), force, files, gone, n, decode);
        }
      }
    }
  }

  function IndexedIf(prev: Entry, info: Option<FileInfo>, decode: Decoder): Entry {
    if info.Some? then IndexedEntry(prev, info.value, decode) else prev
  }

  lemma NotYetListed(files: seq<FileInfo>, i: nat)
    requires DistinctPaths(files) && i < |files|
    ensures InfoFor(files[..i], files[i].path).None?
  {
  }

  lemma InfoForNext(files: seq<FileInfo>, i: nat, p: string)
    requires DistinctPaths(files) && i < |files|
    ensures InfoFor(files[..i + 1], p) == if files[i].path == p then Some(files[i]) else InfoFor(files[..i], p)
  {
    var longer := files[..i + 1];
    if files[i].path == p {
      InfoForAt(longer, i);
    } else if InfoFor(files[..i], p).Some? {
      var j :| 0 <= j < i && files[j] == InfoFor(files[..i], p).value;
      InfoForAt(longer, j);
    } else {
      assert forall j :: 0 <= j < i ==> files[..i][j] == longer[j];
    }
  }
}
