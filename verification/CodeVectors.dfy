/**
  The rows and vectors behind a shard.  Every root keeps its rows in the same table and its vectors
  in another, row id by row id; a build saves a file's chunks, then their vectors, and an
  invalidation may fall in between.
*/
module CodeVectors {
  import opened Basics
  import opened Windows
  import opened CodeStore
  import opened CodeBuilds

  /** A row of this root, or of another one. */
  datatype Owned = Mine(path: string, chunk: Chunk) | Foreign

  /** `saved` are the row ids of the file being indexed; the first `embedded` of them have their vector. */
  datatype Disk = Disk(base: World, rows: map<nat, Owned>, vectors: set<nat>, saved: seq<nat>, embedded: nat)

  datatype Move =
    | Base(step: Step, id: nat)      // a step of the world; `id` is what the database picks if a row is inserted
    | Embed                          // the vector of the next saved row is stored
    | ForeignSave(id: nat)           // another root's build does the same things
    | ForeignEmbed(id: nat)
    | ForeignDrop(ids: set<nat>)

  /** The build is about to save a chunk. */
  predicate Saving(w: World, decode: Decoder) {
    w.doing.Indexing? && Textual(w.doing.file, decode) && w.doing.done < WindowCount(|TextOf(w.doing.file, decode).lines|)
  }

  function RowsAt(d: Disk, p: string): set<nat> { set id | id in d.rows && d.rows[id].Mine? && d.rows[id].path == p }

  function MyRows(d: Disk): set<nat> { set id | id in d.rows && d.rows[id].Mine? }

  /** Rows go together with their vectors. */
  function Gone(d: Disk, ids: set<nat>): Disk { d.(rows := d.rows - ids, vectors := d.vectors - ids) }

  /** What one transaction of the build does to rows, vectors and its list of saved rows. */
  function AfterWrite(d: Disk, id: nat, decode: Decoder): Disk {
    if Saving(d.base, decode) then
      var f := d.base.doing.file;
      d.(rows := d.rows[id := Mine(f.path, WindowOf(TextOf(f, decode), d.base.doing.done))], saved := d.saved + [id])
    else if d.base.doing.Indexing? then d.(saved := [], embedded := 0)
    else if d.base.doing == Nothing && d.base.queue != [] then
      match d.base.queue[0]
      case Wipe => Gone(d, MyRows(d))
      case Remove(p) => Gone(d, RowsAt(d, p))
      case Index(f) => if Textual(f, decode) then Gone(d, RowsAt(d, f.path)) else d
    else d
  }

  function After(d: Disk, step: Step, id: nat, decode: Decoder): Disk {
    match step
    case Write => AfterWrite(d, id, decode)
    case Die => d.(saved := [], embedded := 0)
    case Drop(p) => Gone(d, RowsAt(d, p))
    case _ => d
  }

  function Moved(d: Disk, m: Move, decode: Decoder): Disk {
    match m
    case Base(step, id) => After(d, step, id, decode).(base := Next(d.base, step, decode))
    case Embed => if d.embedded < |d.saved| then d.(vectors := d.vectors + {d.saved[d.embedded]}, embedded := d.embedded + 1) else d
    case ForeignSave(id) => d.(rows := d.rows[id := Foreign])
    case ForeignEmbed(id) => d.(vectors := d.vectors + {id})
    case ForeignDrop(ids) => Gone(d, ids)
  }

  /** Fresh ids are free, and vectors come when every chunk of the file is saved. */
  ghost predicate CanMove(d: Disk, m: Move, decode: Decoder) {
    match m
    case Base(step, id) => Enabled(d.base, step) && (step.Write? && Saving(d.base, decode) ==> id !in d.rows)
    case Embed => d.base.doing.Indexing? && !Saving(d.base, decode) && d.embedded < |d.saved|
    case ForeignSave(id) => id !in d.rows
    case ForeignEmbed(_) => true
    case ForeignDrop(ids) => forall id :: id in ids ==> id in d.rows && d.rows[id].Foreign?
  }

  function Start(): Disk { Disk(Init(), map[], {}, [], 0) }

  function RunDisk(moves: seq<Move>, decode: Decoder): Disk
    decreases |moves|
  {
    if moves == [] then Start() else Moved(RunDisk(Front(moves), decode), Last(moves), decode)
  }

  ghost predicate Legal(moves: seq<Move>, decode: Decoder)
    decreases |moves|
  {
    moves == [] || (Legal(Front(moves), decode) && CanMove(RunDisk(Front(moves), decode), Last(moves), decode))
  }

  // ----- it is the world of steps, with rows -----

  function StepsOf(moves: seq<Move>): seq<Step>
    decreases |moves|
  {
    if moves == [] then [] else StepsOf(Front(moves)) + match Last(moves) case Base(step, _) => [step] case _ => []
  }

  /** Each path's rows hold exactly the chunks the shard has there. */
  ghost predicate RowsShow(d: Disk) { forall p :: (set id | id in RowsAt(d, p) :: d.rows[id].chunk) == d.base.shard(p).chunks }

  /**
    While a file is indexed and its path is not torn, its saved rows are all there, one per window;
    otherwise nothing is saved.
  */
  ghost predicate SavedThere(d: Disk, decode: Decoder) {
    && d.embedded <= |d.saved|
    && (!d.base.doing.Indexing? ==> d.saved == [])
    && (d.base.doing.Indexing? ==> |d.saved| == d.base.doing.done)
    && (d.base.doing.Indexing? && d.base.doing.file.path !in d.base.torn && Sound(d.base, decode) ==>
          (forall i :: 0 <= i < |d.saved| ==>
             d.saved[i] in d.rows && d.rows[d.saved[i]] == Mine(d.base.doing.file.path, WindowOf(TextOf(d.base.doing.file, decode), i))))
  }

  lemma GoneShow(d: Disk, p: string, q: string)
    ensures RowsAt(Gone(d, RowsAt(d, p)), q) == if q == p then {} else RowsAt(d, q)
    ensures RowsAt(Gone(d, MyRows(d)), q) == {}
  {
  }

  lemma InsertShow(d: Disk, id: nat, r: Owned, q: string)
    requires id !in d.rows
    ensures var d' := d.(rows := d.rows[id := r]);
      (set i | i in RowsAt(d', q) :: d'.rows[i].chunk)
      == (set i | i in RowsAt(d, q) :: d.rows[i].chunk) + if r.Mine? && r.path == q then {r.chunk} else {}
  {
    var d' := d.(rows := d.rows[id := r]);
    assert RowsAt(d', q) == RowsAt(d, q) + if r.Mine? && r.path == q then {id} else {};
    var a, b := (set i | i in RowsAt(d, q) :: d.rows[i].chunk), (set i | i in RowsAt(d', q) :: d'.rows[i].chunk);
    forall c | c in a ensures c in b {
      var i :| i in RowsAt(d, q) && d.rows[i].chunk == c;
      assert i in RowsAt(d', q) && d'.rows[i].chunk == c;
    }
    if r.Mine? && r.path == q { assert id in RowsAt(d', q) && d'.rows[id].chunk == r.chunk; }
  }

  lemma SameRowsShow(d: Disk, d': Disk, q: string)
    requires RowsAt(d', q) == RowsAt(d, q) && forall id :: id in RowsAt(d, q) ==> d'.rows[id] == d.rows[id]
    ensures (set id | id in RowsAt(d', q) :: d'.rows[id].chunk) == (set id | id in RowsAt(d, q) :: d.rows[id].chunk)
  {
  }

  lemma WriteShows(d: Disk, id: nat, q: string, decode: Decoder)
    requires Sound(d.base, decode) && RowsShow(d) && (Saving(d.base, decode) ==> id !in d.rows)
    ensures var d' := Moved(d, Base(Write, id), decode);
      (set i | i in RowsAt(d', q) :: d'.rows[i].chunk) == d'.base.shard(q).chunks
  {
    hide WindowOf, WindowCount, TextOf;
    var d' := Moved(d, Base(Write, id), decode);
    if Saving(d.base, decode) {
      var f := d.base.doing.file;
      InsertShow(d, id, Mine(f.path, WindowOf(TextOf(f, decode), d.base.doing.done)), q);
    } else if d.base.doing == Nothing && d.base.queue != [] {
      match d.base.queue[0]
      case Wipe => GoneShow(d, q, q);
      case Remove(p) =>
        GoneShow(d, p, q);
        SameRowsShow(Gone(d, RowsAt(d, p)), d', q);
      case Index(f) =>
        if Textual(f, decode) {
          GoneShow(d, f.path, q);
          SameRowsShow(Gone(d, RowsAt(d, f.path)), d', q);
        } else {
          SameRowsShow(d, d', q);
        }
    }
  }

  lemma MoveShows(d: Disk, m: Move, decode: Decoder)
    requires Sound(d.base, decode) && RowsShow(d) && CanMove(d, m, decode)
    ensures RowsShow(Moved(d, m, decode))
  {
    hide Written, AfterWrite;
    var d' := Moved(d, m, decode);
    forall q ensures (set i | i in RowsAt(d', q) :: d'.rows[i].chunk) == d'.base.shard(q).chunks {
      match m
      case Base(step, id) =>
        match step {
          case Write => WriteShows(d, id, q, decode);
          case Drop(p) =>
            GoneShow(d, p, q);
            SameRowsShow(Gone(d, RowsAt(d, p)), d', q);
          case _ => SameRowsShow(d, d', q);
        }
      case ForeignSave(id) => InsertShow(d, id, Foreign, q);
      case ForeignDrop(ids) => SameRowsShow(d, d', q);
      case _ => SameRowsShow(d, d', q);
    }
  }

  lemma MoveKeepsSaved(d: Disk, m: Move, decode: Decoder)
    requires Sound(d.base, decode) && SavedThere(d, decode) && CanMove(d, m, decode)
    ensures SavedThere(Moved(d, m, decode), decode)
  {
    hide WindowOf, WindowCount, TextOf, Planned;
    if m.Base? && m.step.Write? { WriteKeepsSaved(d, m.id, decode); }
  }

  lemma WriteKeepsSaved(d: Disk, id: nat, decode: Decoder)
    requires Sound(d.base, decode) && SavedThere(d, decode) && (Saving(d.base, decode) ==> id !in d.rows)
    ensures SavedThere(Moved(d, Base(Write, id), decode), decode)
  {
    hide WindowOf, WindowCount, TextOf, Sound;
    assert Sound(d.base, decode);
    var d' := Moved(d, Base(Write, id), decode);
    if Saving(d.base, decode) {
      forall i | 0 <= i < |d.saved| ensures d'.saved[i] == d.saved[i] {}
    }
  }

  lemma {:induction false} StepsAreLawful(moves: seq<Move>, decode: Decoder)
    requires Legal(moves, decode)
    ensures Lawful(Init(), StepsOf(moves), decode) && RunDisk(moves, decode).base == Run(Init(), StepsOf(moves), decode)
    decreases |moves|
  {
    hide Enabled, Next, After;
    if moves == [] {
      NoSteps(decode);
    } else {
      StepsAreLawful(Front(moves), decode);
      match Last(moves)
      case Base(step, _) => OneMoreStep(StepsOf(Front(moves)), step, decode);
      case _ => assert StepsOf(Front(moves)) + [] == StepsOf(Front(moves));
    }
  }

  /**
    In every run: what happens to the shard is a run of the world of steps, each path's rows hold
    exactly its chunks, and the rows saved for the file being indexed are there unless it is torn.
  */
  lemma {:induction false} EveryRunShows(moves: seq<Move>, decode: Decoder)
    requires Legal(moves, decode)
    ensures RunDisk(moves, decode).base == Run(Init(), StepsOf(moves), decode)
    ensures Sound(RunDisk(moves, decode).base, decode) && RowsShow(RunDisk(moves, decode)) && SavedThere(RunDisk(moves, decode), decode)
    decreases |moves|
  {
    hide Sound, RowsShow, SavedThere, Moved, Run;
    if moves == [] {
      StartShows(decode);
    } else {
      StepsAreLawful(moves, decode);
      EveryRunShows(Front(moves), decode);
      EveryRunKeepsWhole(StepsOf(moves), decode);
      MoveShows(RunDisk(Front(moves), decode), Last(moves), decode);
      MoveKeepsSaved(RunDisk(Front(moves), decode), Last(moves), decode);
    }
  }

  lemma StartShows(decode: Decoder)
    ensures Start().base == Run(Init(), StepsOf([]), decode) && Sound(Start().base, decode) && RowsShow(Start()) && SavedThere(Start(), decode)
  {
  }

  // ----- vectors without a row -----

  predicate Orphan(d: Disk, id: nat) { id in d.vectors && id !in d.rows }

  /** The move stores a vector under an id no row has. */
  predicate Misses(d: Disk, m: Move, id: nat) {
    && id !in d.rows
    && (m == ForeignEmbed(id) || (m.Embed? && d.embedded < |d.saved| && d.saved[d.embedded] == id))
  }

  /** The move inserts a row under the id. */
  predicate Inserts(d: Disk, m: Move, id: nat, decode: Decoder) {
    m == ForeignSave(id) || (m == Base(Write, id) && Saving(d.base, decode))
  }

  lemma OrphanStep(d: Disk, m: Move, id: nat, decode: Decoder)
    requires CanMove(d, m, decode)
    ensures Orphan(Moved(d, m, decode), id) <==> Misses(d, m, id) || (Orphan(d, id) && !Inserts(d, m, id, decode))
  {
    hide WindowOf, TextOf, Saving, Next;
  }

  ghost predicate MissedAt(moves: seq<Move>, k: nat, id: nat, decode: Decoder) {
    k < |moves| && Misses(RunDisk(moves[..k], decode), moves[k], id)
  }

  ghost predicate InsertedAt(moves: seq<Move>, k: nat, id: nat, decode: Decoder) {
    k < |moves| && Inserts(RunDisk(moves[..k], decode), moves[k], id, decode)
  }

  /** At some move a vector was stored under the id without a row, and no row has come under it since. */
  ghost predicate Stranded(moves: seq<Move>, id: nat, decode: Decoder) {
    exists k: nat :: MissedAt(moves, k, id, decode) && forall j: nat :: k < j ==> !InsertedAt(moves, j, id, decode)
  }

  /** Over all runs, builds of other roots included: that is exactly when a vector has no chunk. */
  lemma {:induction false} OrphanExactly(moves: seq<Move>, id: nat, decode: Decoder)
    requires Legal(moves, decode)
    ensures Orphan(RunDisk(moves, decode), id) <==> Stranded(moves, id, decode)
    decreases |moves|
  {
    hide Orphan, Misses, Inserts, Moved, CanMove;
    if moves == [] {
      NothingStored(id);
    } else {
      OrphanExactly(Front(moves), id, decode);
      OrphanStep(RunDisk(Front(moves), decode), Last(moves), id, decode);
      StrandedSnoc(moves, id, decode);
    }
  }

  lemma NothingStored(id: nat)
    ensures !Orphan(Start(), id)
  {
  }

  lemma StrandedSnoc(moves: seq<Move>, id: nat, decode: Decoder)
    requires moves != []
    ensures var d := RunDisk(Front(moves), decode);
      Stranded(moves, id, decode)
      <==> Misses(d, Last(moves), id) || (Stranded(Front(moves), id, decode) && !Inserts(d, Last(moves), id, decode))
  {
    hide Misses, Inserts, RunDisk;
    var n, front := |moves| - 1, Front(moves);
    forall k: nat | k < n ensures front[..k] == moves[..k] && front[k] == moves[k] {}
    assert moves[..n] == front;
    assert forall k: nat :: k < n ==> (MissedAt(front, k, id, decode) <==> MissedAt(moves, k, id, decode));
    assert forall k: nat :: k < n ==> (InsertedAt(front, k, id, decode) <==> InsertedAt(moves, k, id, decode));
    if Misses(RunDisk(front, decode), Last(moves), id) { assert MissedAt(moves, n, id, decode); }
    if Stranded(front, id, decode) && !Inserts(RunDisk(front, decode), Last(moves), id, decode) {
      var k: nat :| MissedAt(front, k, id, decode) && forall j: nat :: k < j ==> !InsertedAt(front, j, id, decode);
      assert MissedAt(moves, k, id, decode);
      forall j: nat | k < j ensures !InsertedAt(moves, j, id, decode) {}
    }
    if Stranded(moves, id, decode) {
      var k: nat :| MissedAt(moves, k, id, decode) && forall j: nat :: k < j ==> !InsertedAt(moves, j, id, decode);
      if k < n {
        assert !InsertedAt(moves, n, id, decode);
        assert MissedAt(front, k, id, decode);
        forall j: nat | k < j ensures !InsertedAt(front, j, id, decode) { assert !InsertedAt(moves, j, id, decode); }
      }
    }
  }

  /** A vector of this root's build only ever misses its row in a file an invalidation has torn. */
  lemma MissesOnlyWhenTorn(moves: seq<Move>, id: nat, decode: Decoder)
    requires Legal(moves, decode) && CanMove(RunDisk(moves, decode), Embed, decode) && Misses(RunDisk(moves, decode), Embed, id)
    ensures var w := RunDisk(moves, decode).base; w.doing.Indexing? && w.doing.file.path in w.torn
  {
    EveryRunShows(moves, decode);
  }

  /** So where no vector is stored for a torn path, and other roots store none without a row, every vector has its chunk. */
  lemma NoOrphans(moves: seq<Move>, decode: Decoder)
    requires Legal(moves, decode)
    requires forall k: nat :: k < |moves| && moves[k].Embed? ==>
      var w := RunDisk(moves[..k], decode).base; w.doing.Indexing? ==> w.doing.file.path !in w.torn
    requires forall k: nat :: k < |moves| && moves[k].ForeignEmbed? ==> moves[k].id in RunDisk(moves[..k], decode).rows
    ensures RunDisk(moves, decode).vectors <= RunDisk(moves, decode).rows.Keys
  {
    forall id | id in RunDisk(moves, decode).vectors ensures id in RunDisk(moves, decode).rows {
      OrphanExactly(moves, id, decode);
      if Stranded(moves, id, decode) {
        var k: nat :| MissedAt(moves, k, id, decode);
        LegalPrefix(moves, k, decode);
        if moves[k].Embed? { MissesOnlyWhenTorn(moves[..k], id, decode); }
      }
    }
  }

  lemma {:induction false} LegalPrefix(moves: seq<Move>, k: nat, decode: Decoder)
    requires Legal(moves, decode) && k < |moves|
    ensures Legal(moves[..k], decode) && CanMove(RunDisk(moves[..k], decode), moves[k], decode)
    decreases |moves|
  {
    if k == |moves| - 1 {
      assert moves[..k] == Front(moves);
    } else {
      assert Front(moves)[..k] == moves[..k];
      LegalPrefix(Front(moves), k, decode);
    }
  }

  // ----- an invalidation between a row and its vector -----

  lemma OneMoreMove(moves: seq<Move>, m: Move, decode: Decoder)
    requires Legal(moves, decode) && CanMove(RunDisk(moves, decode), m, decode)
    ensures Legal(moves + [m], decode) && RunDisk(moves + [m], decode) == Moved(RunDisk(moves, decode), m, decode)
  {
    assert Front(moves + [m]) == moves;
  }

  /** A file of one window, up to its row being saved under id 1. */
  function RowSaved(f: FileInfo): seq<Move> { [] + [Base(Begin(false, [f], []), 0)] + [Base(Write, 0)] + [Base(Write, 1)] }

  lemma RowSavedState(f: FileInfo, decode: Decoder)
    requires Textual(f, decode) && 0 < |TextOf(f, decode).lines| <= CHUNK_SIZE
    ensures Legal(RowSaved(f), decode)
    ensures var d := RunDisk(RowSaved(f), decode);
      && d.base.doing == Indexing(f, 1) && d.base.queue == [] && d.base.leaving == multiset{}
      && d.rows == map[1 := Mine(f.path, WindowOf(TextOf(f, decode), 0))] && d.vectors == {} && d.saved == [1] && d.embedded == 0
  {
    hide RunDisk, Legal, WindowOf;
    var none: seq<Move> := [];
    assert Legal(none, decode) && RunDisk(none, decode) == Start() by { NoMoves(decode); }
    BeginOne(f);
    OneMoreMove(none, Base(Begin(false, [f], []), 0), decode);
    OneMoreMove(none + [Base(Begin(false, [f], []), 0)], Base(Write, 0), decode);
    OneMoreMove(none + [Base(Begin(false, [f], []), 0)] + [Base(Write, 0)], Base(Write, 1), decode);
    assert [] + [1] == [1];
  }

  lemma NoMoves(decode: Decoder)
    ensures Legal([], decode) && RunDisk([], decode) == Start()
  {
  }

  /**
    The row goes before its vector comes: the vector stays, and even a forced build, which deletes
    the vectors of the rows it finds, leaves it.
  */
  lemma InvalidatedBeforeEmbedding(f: FileInfo, decode: Decoder)
    requires Textual(f, decode) && 0 < |TextOf(f, decode).lines| <= CHUNK_SIZE
    ensures var moves := RowSaved(f) + [Base(Drop(f.path), 0)] + [Base(Forget(f.path), 0)] + [Embed] + [Base(Write, 0)];
      var rebuilt := moves + [Base(Begin(true, [], []), 0)] + [Base(Write, 0)];
      && Legal(rebuilt, decode)
      && RunDisk(moves, decode).base.Quiet() && Orphan(RunDisk(moves, decode), 1)
      && RunDisk(rebuilt, decode).base.Quiet() && Orphan(RunDisk(rebuilt, decode), 1)
  {
    hide RunDisk, Legal, WindowOf;
    RowSavedState(f, decode);
    var a := RowSaved(f);
    OneMoreMove(a, Base(Drop(f.path), 0), decode);
    var b := a + [Base(Drop(f.path), 0)];
    assert RunDisk(b, decode).rows == map[] && RunDisk(b, decode).saved == [1];
    OneMoreMove(b, Base(Forget(f.path), 0), decode);
    var c := b + [Base(Forget(f.path), 0)];
    OneMoreMove(c, Embed, decode);
    var e := c + [Embed];
    assert RunDisk(e, decode).vectors == {1} && RunDisk(e, decode).rows == map[];
    OneMoreMove(e, Base(Write, 0), decode);
    var g := e + [Base(Write, 0)];
    OneMoreMove(g, Base(Begin(true, [], []), 0), decode);
    OneMoreMove(g + [Base(Begin(true, [], []), 0)], Base(Write, 0), decode);
  }
}
