/**
  One batch of tool calls: a serial prepare phase, then every prepared call executed as its own
  task under per-path write locks, with all interleavings of those tasks.
*/
module ToolBatch {
  import opened Basics

  // ----- argument values -----

  /** What the JSON reader gives back; of a number only whether it counts as false matters. */
  datatype Json =
    | Null | Bool(flag: bool) | Number(zero: bool) | Text(text: string)
    | Array(items: seq<Json>) | Object(members: map<string, Json>)

  /** Python's truth of a value. */
  predicate True(v: Json) {
    match v
    case Null => false
    case Bool(flag) => flag
    case Number(zero) => !zero
    case Text(text) => text != ""
    case Array(items) => items != []
    case Object(members) => members != map[]
  }

  /** A value `dict` takes as one entry: two things, the first of which can be a key. */
  predicate IsPair(v: Json) {
    match v
    case Text(text) => |text| == 2
    case Array(items) => |items| == 2 && !items[0].Array? && !items[0].Object?
    case Object(members) => |members| == 2
    case _ => false
  }

  /** `dict(v)` succeeds. */
  predicate DictTakes(v: Json) {
    match v
    case Object(_) => true
    case Array(items) => forall i :: 0 <= i < |items| ==> IsPair(items[i])
    case Text(text) => text == ""
    case _ => false
  }

  // ----- which calls take a lock -----

  const WRITE_TOOLS: set<string> := {"write_file", "edit_file"}
  const PATH_KEYS: seq<string> := ["file_path", "path", "target_file"]

  predicate Truthy(args: map<string, Json>, key: string) { key in args && True(args[key]) }

  function FirstTruthy(args: map<string, Json>, keys: seq<string>): Option<Json> {
    if keys == [] then None
    else if Truthy(args, keys[0]) then Some(args[keys[0]])
    else FirstTruthy(args, keys[1..])
  }

  /** The lock lookup asks its arguments for keys; arguments that have none to ask for make it raise. */
  datatype Lookup = Unlocked | Locked(path: string) | NoKeys

  function LockFor(name: string, args: Json): Lookup {
    if name !in WRITE_TOOLS then Unlocked
    else if !args.Object? then NoKeys
    else match FirstTruthy(args.members, PATH_KEYS)
      case Some(Text(path)) => Locked(path)
      case _ => Unlocked
  }

  /**
    A lock is taken on `p` exactly when a write tool names `p` under the first key that says
    anything, and the lookup raises exactly for a write tool whose arguments are no object.
  */
  lemma LockForExact(name: string, args: Json, p: string)
    ensures LockFor(name, args) == Locked(p) <==>
      && name in WRITE_TOOLS && p != "" && args.Object?
      && exists j :: 0 <= j < |PATH_KEYS| && PATH_KEYS[j] in args.members && args.members[PATH_KEYS[j]] == Text(p)
                     && forall i :: 0 <= i < j ==> !Truthy(args.members, PATH_KEYS[i])
    ensures LockFor(name, args) == NoKeys <==> name in WRITE_TOOLS && !args.Object?
  {
    if args.Object? { FirstTruthyExact(args.members, PATH_KEYS, Text(p)); }
  }

  lemma {:induction false} FirstTruthyExact(args: map<string, Json>, keys: seq<string>, v: Json)
    ensures FirstTruthy(args, keys) == Some(v) <==>
      exists j :: 0 <= j < |keys| && Truthy(args, keys[j]) && args[keys[j]] == v && forall i :: 0 <= i < j ==> !Truthy(args, keys[i])
  {
    hide True;
    if keys != [] {
      FirstTruthyExact(args, keys[1..], v);
      if Truthy(args, keys[0]) {
      } else if FirstTruthy(args, keys) == Some(v) {
        var j :| 0 <= j < |keys[1..]| && Truthy(args, keys[1..][j]) && args[keys[1..][j]] == v
                 && forall i :: 0 <= i < j ==> !Truthy(args, keys[1..][i]);
        assert keys[1..][j] == keys[j + 1];
        assert forall i :: 0 < i < j + 1 ==> keys[i] == keys[1..][i - 1];
      } else {
        forall j | 0 <= j < |keys| && Truthy(args, keys[j]) && args[keys[j]] == v
          ensures exists i :: 0 <= i < j && Truthy(args, keys[i])
        {
          assert j > 0 && keys[j] == keys[1..][j - 1];
          var i :| 0 <= i < j - 1 && Truthy(args, keys[1..][i]);
          assert Truthy(args, keys[i + 1]);
        }
      }
    }
  }

  // ----- prepare -----

  datatype RawArgs = Encoded(text: string) | Dict(args: map<string, Json>) | NoArgs
  datatype Rule = Deny | Ask | OtherRule

  /**
    What reading an argument text comes to: a value, the decode error the caller expects, or
    another exception, such as for a number or a nesting beyond the reader's limits.
  */
  datatype Read = Value(json: Json) | Undecodable | Throws
  type Reader = string -> Read

  /** What the collaborators answer for one call. */
  datatype Checks = Checks(rule: Rule, gater: bool, allowed: bool, hooks: bool, blocked: bool, breakerOpen: bool) {
    predicate Prompts() { rule == Ask && gater }
  }

  datatype Why = Cancelled | Malformed | Denied | UserDenied | HookBlocked | CircuitOpen
  datatype Prepared = Short(why: Why) | Ready(name: string, args: Json)

  datatype ToolCall = ToolCall(id: string, name: string, raw: RawArgs)

  function ReadArgs(raw: RawArgs, reader: Reader, blank: string -> bool): Read {
    match raw
    case Encoded(text) => if blank(text) then Value(Object(map[])) else reader(text)
    case Dict(args) => Value(Object(args))
    case NoArgs => Value(Object(map[]))
  }

  /** One call, uncancelled; `None` if an exception gets out: the reader's, or that of copying the arguments into a prompt. */
  function Prepare(call: ToolCall, checks: Checks, reader: Reader, blank: string -> bool): Option<Prepared> {
    match ReadArgs(call.raw, reader, blank)
    case Throws => None
    case Undecodable => Some(Short(Malformed))
    case Value(args) =>
      if checks.rule == Deny then Some(Short(Denied))
      else if checks.Prompts() && !DictTakes(args) then None
      else if checks.Prompts() && !checks.allowed then Some(Short(UserDenied))
      else if checks.hooks && call.name != "" && checks.blocked then Some(Short(HookBlocked))
      else if call.name != "" && checks.breakerOpen then Some(Short(CircuitOpen))
      else Some(Ready(call.name, args))
  }

  /** A call as the prepare loop meets it: with the cancel flag it reads. */
  datatype Arriving = Arriving(call: ToolCall, cancelled: bool, checks: Checks)

  function PrepareOne(a: Arriving, reader: Reader, blank: string -> bool): Option<Prepared> {
    if a.cancelled then Some(Short(Cancelled)) else Prepare(a.call, a.checks, reader, blank)
  }

  /** The whole phase: a slot per call in call order, or nothing if any call makes it raise. */
  function PreparedAll(arriving: seq<Arriving>, reader: Reader, blank: string -> bool): Option<seq<Prepared>>
    decreases |arriving|
  {
    if arriving == [] then Some([])
    else
      var before := PreparedAll(Front(arriving), reader, blank);
      var last := PrepareOne(Last(arriving), reader, blank);
      if before.None? || last.None? then None else Some(before.value + [last.value])
  }

  /** Slot by slot. */
  lemma {:induction false} PreparedAllExactly(arriving: seq<Arriving>, reader: Reader, blank: string -> bool)
    ensures var r := PreparedAll(arriving, reader, blank);
      && (r.None? <==> exists i :: 0 <= i < |arriving| && PrepareOne(arriving[i], reader, blank).None?)
      && (r.Some? ==> |r.value| == |arriving| && forall i :: 0 <= i < |arriving| ==> PrepareOne(arriving[i], reader, blank) == Some(r.value[i]))
    decreases |arriving|
  {
    hide PrepareOne;
    if arriving != [] {
      PreparedAllExactly(Front(arriving), reader, blank);
      assert Last(arriving) == arriving[|arriving| - 1];
      assert forall i :: 0 <= i < |Front(arriving)| ==> Front(arriving)[i] == arriving[i];
    }
  }

  /** The serial phase; the tail behind a cancellation still gets one slot per call, a call that raises ends it. */
  method PrepareAll(arriving: seq<Arriving>, reader: Reader, blank: string -> bool) returns (prepared: Option<seq<Prepared>>)
    ensures prepared == PreparedAll(arriving, reader, blank)
  {
    var slots := [];
    for i := 0 to |arriving|
      invariant PreparedAll(arriving[..i], reader, blank) == Some(slots)
    {
      assert Front(arriving[..i + 1]) == arriving[..i] && Last(arriving[..i + 1]) == arriving[i];
      if arriving[i].cancelled {
        slots := slots + [Short(Cancelled)];
      } else {
        match Prepare(arriving[i].call, arriving[i].checks, reader, blank) {
          case None =>
            RaisesForGood(arriving, i + 1, reader, blank);
            return None;
          case Some(p) => slots := slots + [p];
        }
      }
    }
    assert arriving[..|arriving|] == arriving;
    prepared := Some(slots);
  }

  lemma {:induction false} RaisesForGood(arriving: seq<Arriving>, n: nat, reader: Reader, blank: string -> bool)
    requires n <= |arriving| && PreparedAll(arriving[..n], reader, blank).None?
    ensures PreparedAll(arriving, reader, blank).None?
    decreases |arriving|
  {
    if n == |arriving| {
      assert arriving[..n] == arriving;
    } else {
      assert Front(arriving)[..n] == arriving[..n];
      RaisesForGood(Front(arriving), n, reader, blank);
    }
  }

  /** The lock table, filled on demand. */
  class Lock {
    var locked: bool
    constructor ()
      ensures !locked
    { locked := false; }
  }

  class LockTable {
    var locks: map<string, Lock>

    constructor ()
      ensures locks == map[]
    { locks := map[]; }

    /** `ok` is false when the lookup raises. */
    method WriteLockFor(name: string, args: Json) returns (ok: bool, lock: Lock?)
      modifies this
      ensures ok <==> LockFor(name, args) != NoKeys
      ensures lock != null <==> LockFor(name, args).Locked?
      ensures lock == null ==> locks == old(locks)
      ensures lock != null ==> var p := LockFor(name, args).path;
                && p in locks && locks[p] == lock
                && (if p in old(locks) then locks == old(locks) else fresh(lock) && locks == old(locks)[p := lock])
    {
      ok, lock := true, null;
      match LockFor(name, args)
      case NoKeys => ok := false;
      case Unlocked =>
      case Locked(p) =>
        if p in locks {
          lock := locks[p];
        } else {
          lock := new Lock();
          locks := locks[p := lock];
        }
    }
  }

  // ----- execute: every interleaving -----

  /** A prepared call as the execute phase sees it. */
  datatype Job =
    | Refused(result: string)   // short-circuited: returned verbatim, never dispatched
    | Free                      // dispatched without a lock
    | Writes(path: string)      // dispatched under the lock of `path`
    | Crashes                   // its lock lookup raises: never dispatched

  datatype Task = NotStarted | Waiting | Running(seen: string) | Finished(result: string) | Raised {
    predicate Over() { Finished? || Raised? }
  }

  /** An `asyncio` lock: its flag and its first-in first-out queue. */
  datatype LockState = LockState(locked: bool, waiters: seq<nat>)

  datatype Batch = Batch(
    jobs: seq<Job>,
    tasks: seq<Task>,
    locks: map<string, LockState>,
    files: map<string, string>,
    started: nat,
    dispatched: seq<nat>,
    loose: set<string>)       // what lock-free tools have written

  /** What write tool `i` makes of a file's content: the new content and the result it reports. */
  type Effect = (nat, string) -> (string, string)

  /** What a lock-free tool does in the end: its result, and the files it may have written all the same. */
  datatype Loose = Loose(answer: string, writes: map<string, string>)

  datatype Step =
    | Start                                // the next task runs for the first time
    | Resume(i: nat)                       // a woken waiter takes its lock
    | Complete(i: nat, loose: Loose)       // a dispatch ends

  function LockOf(b: Batch, p: string): LockState {
    if p in b.locks then b.locks[p] else LockState(false, [])
  }

  function ContentOf(files: map<string, string>, p: string): string {
    if p in files then files[p] else ""
  }

  function Init(jobs: seq<Job>, files: map<string, string>): Batch {
    Batch(jobs, seq(|jobs|, _ => NotStarted), map[], files, 0, [], {})
  }

  predicate Enabled(b: Batch, step: Step)
    requires |b.tasks| == |b.jobs|
  {
    match step
    case Start => b.started < |b.jobs|
    case Resume(i) =>
      && i < |b.jobs| && b.jobs[i].Writes? && b.tasks[i].Waiting?
      && var l := LockOf(b, b.jobs[i].path); !l.locked && l.waiters != [] && l.waiters[0] == i
    case Complete(i, _) => i < |b.jobs| && b.tasks[i].Running?
  }

  function Enter(b: Batch, i: nat, p: string, rest: seq<nat>): Batch
    requires i < |b.tasks|
  {
    b.(tasks := b.tasks[i := Running(ContentOf(b.files, p))],
       locks := b.locks[p := LockState(true, rest)],
       dispatched := b.dispatched + [i])
  }

  function Park(b: Batch, i: nat, p: string): Batch
    requires i < |b.tasks|
  {
    b.(tasks := b.tasks[i := Waiting], locks := b.locks[p := LockOf(b, p).(waiters := LockOf(b, p).waiters + [i])])
  }

  function Next(b: Batch, effect: Effect, step: Step): Batch
    requires |b.tasks| == |b.jobs|
  {
    if !Enabled(b, step) then b
    else
      match step
      case Start =>
        var i := b.started;
        var b' := b.(started := i + 1);
        (match b.jobs[i]
         case Refused(r) => b'.(tasks := b.tasks[i := Finished(r)])
         case Crashes => b'.(tasks := b.tasks[i := Raised])
         case Free => b'.(tasks := b.tasks[i := Running("")], dispatched := b.dispatched + [i])
         case Writes(p) =>
           var l := LockOf(b, p);
           if !l.locked && l.waiters == [] then Enter(b', i, p, [])
           else Park(b', i, p))
      case Resume(i) =>
        Enter(b, i, b.jobs[i].path, LockOf(b, b.jobs[i].path).waiters[1..])
      case Complete(i, loose) =>
        (match b.jobs[i]
         case Writes(p) =>
           var out := effect(i, b.tasks[i].seen);
           b.(tasks := b.tasks[i := Finished(out.1)], files := b.files[p := out.0],
              locks := b.locks[p := LockOf(b, p).(locked := false)])
         case _ =>
           b.(tasks := b.tasks[i := Finished(loose.answer)], files := b.files + loose.writes, loose := b.loose + loose.writes.Keys))
  }

  function Run(b: Batch, effect: Effect, steps: seq<Step>): (r: Batch)
    requires |b.tasks| == |b.jobs|
    ensures |r.tasks| == |r.jobs| && r.jobs == b.jobs
    decreases |steps|
  {
    if steps == [] then b else Next(Run(b, effect, steps[..|steps| - 1]), effect, steps[|steps| - 1])
  }

  predicate Done(b: Batch) { forall i :: 0 <= i < |b.tasks| ==> b.tasks[i].Over() }

  /** The awaiting caller gets the first exception; the other tasks run on without it. */
  predicate AnyRaised(b: Batch) { exists i :: 0 <= i < |b.tasks| && b.tasks[i].Raised? }

  // ----- the simple form: the same calls one after another -----

  /** Content of `p` once the first `k` calls have run, strictly in call order. */
  function SerialContent(jobs: seq<Job>, effect: Effect, files: map<string, string>, p: string, k: nat): string
    requires k <= |jobs|
  {
    if k == 0 then ContentOf(files, p)
    else if jobs[k - 1] == Writes(p) then effect(k - 1, SerialContent(jobs, effect, files, p, k - 1)).0
    else SerialContent(jobs, effect, files, p, k - 1)
  }

  function SerialResult(jobs: seq<Job>, effect: Effect, files: map<string, string>, i: nat): string
    requires i < |jobs| && jobs[i].Writes?
  {
    effect(i, SerialContent(jobs, effect, files, jobs[i].path, i)).1
  }

  lemma {:induction false} SerialGap(jobs: seq<Job>, effect: Effect, files: map<string, string>, p: string, a: nat, b: nat)
    requires a <= b <= |jobs| && forall i :: a <= i < b ==> jobs[i] != Writes(p)
    ensures SerialContent(jobs, effect, files, p, a) == SerialContent(jobs, effect, files, p, b)
    decreases b
  {
    if a < b { SerialGap(jobs, effect, files, p, a, b - 1); }
  }

  // ----- what every reachable state keeps -----

  ghost predicate StartedInOrder(b: Batch) {
    && |b.tasks| == |b.jobs| && b.started <= |b.jobs|
    && (forall i :: 0 <= i < |b.tasks| ==> (b.tasks[i].NotStarted? <==> i >= b.started))
    && forall i :: 0 <= i < |b.tasks| ==> (b.tasks[i].Raised? <==> i < b.started && b.jobs[i].Crashes?)
  }

  predicate Entered(t: Task) { t.Running? || t.Finished? }

  /** A same-path write enters only behind finished predecessors. */
  ghost predicate Ordered(b: Batch)
    requires |b.tasks| == |b.jobs|
  {
    forall i, j :: 0 <= i < j < |b.jobs| && b.jobs[i].Writes? && b.jobs[i] == b.jobs[j] && Entered(b.tasks[j])
      ==> b.tasks[i].Finished?
  }

  ghost predicate Ascending(xs: seq<nat>) { forall i, j :: 0 <= i < j < |xs| ==> xs[i] < xs[j] }

  ghost predicate OnPath(b: Batch, p: string, i: int) { 0 <= i < |b.jobs| && b.jobs[i] == Writes(p) }

  /** The queue of `p` is its waiting writes in call order; the flag is up while one of its writes runs. */
  ghost predicate LockOk(b: Batch, p: string)
    requires |b.tasks| == |b.jobs|
  {
    var l := LockOf(b, p);
    && Ascending(l.waiters)
    && (forall i :: i in l.waiters ==> OnPath(b, p, i) && b.tasks[i].Waiting?)
    && (forall i: nat :: OnPath(b, p, i) && b.tasks[i].Waiting? ==> i in l.waiters)
    && (forall i: nat :: OnPath(b, p, i) && b.tasks[i].Running? ==> l.locked)
    && (l.locked ==> exists i: nat :: OnPath(b, p, i) && b.tasks[i].Running?)
  }

  ghost predicate LocksOk(b: Batch)
    requires |b.tasks| == |b.jobs|
  {
    && (forall p :: LockOk(b, p))
    && (forall i :: 0 <= i < |b.jobs| && b.tasks[i].Waiting? ==> b.jobs[i].Writes?)
  }

  ghost predicate DispatchedOk(b: Batch)
    requires |b.tasks| == |b.jobs|
  {
    && (forall i, j :: 0 <= i < j < |b.dispatched| ==> b.dispatched[i] != b.dispatched[j])
    && (forall i: nat :: i in b.dispatched <==> i < |b.jobs| && !b.jobs[i].Refused? && Entered(b.tasks[i]))
  }

  /** Every write on `p` below `k` is finished and none from `k` on is. */
  ghost predicate Boundary(b: Batch, p: string, k: nat)
    requires |b.tasks| == |b.jobs|
  {
    forall i :: 0 <= i < |b.jobs| && b.jobs[i] == Writes(p) ==> (b.tasks[i].Finished? <==> i < k)
  }

  /** A write to a path that no lock-free tool has written. */
  ghost predicate LockedWrite(b: Batch, i: nat)
    requires i < |b.jobs|
  {
    b.jobs[i].Writes? && b.jobs[i].path !in b.loose
  }

  ghost predicate SerialSoFar(b: Batch, effect: Effect, files: map<string, string>)
    requires |b.tasks| == |b.jobs|
  {
    && (forall p, k: nat :: p !in b.loose && k <= |b.jobs| && Boundary(b, p, k) ==>
          ContentOf(b.files, p) == SerialContent(b.jobs, effect, files, p, k))
    && (forall i :: 0 <= i < |b.jobs| && LockedWrite(b, i) && b.tasks[i].Running? ==>
          b.tasks[i].seen == SerialContent(b.jobs, effect, files, b.jobs[i].path, i))
    && (forall i :: 0 <= i < |b.jobs| && LockedWrite(b, i) && b.tasks[i].Finished? ==>
          b.tasks[i].result == SerialResult(b.jobs, effect, files, i))
    && (forall i :: 0 <= i < |b.jobs| && b.jobs[i].Refused? ==> !b.tasks[i].Running?)
    && (forall i :: 0 <= i < |b.jobs| && b.jobs[i].Refused? && b.tasks[i].Finished? ==> b.tasks[i].result == b.jobs[i].result)
  }

  ghost predicate Inv(b: Batch, effect: Effect, files: map<string, string>) {
    StartedInOrder(b) && Ordered(b) && LocksOk(b) && DispatchedOk(b) && SerialSoFar(b, effect, files)
  }

  lemma InitInv(jobs: seq<Job>, effect: Effect, files: map<string, string>)
    ensures Inv(Init(jobs, files), effect, files)
  {
    var b := Init(jobs, files);
    forall p, k: nat | k <= |jobs| && Boundary(b, p, k)
      ensures ContentOf(b.files, p) == SerialContent(jobs, effect, files, p, k)
    {
      SerialGap(jobs, effect, files, p, 0, k);
    }
  }

  /** The moment a write takes its lock: everything earlier on the path is done, nothing later has begun. */
  ghost predicate MayEnter(b: Batch, i: nat)
    requires |b.tasks| == |b.jobs|
  {
    && i < |b.jobs| && b.jobs[i].Writes?
    && forall j :: 0 <= j < |b.jobs| && j != i && b.jobs[j] == b.jobs[i] ==>
         if j < i then b.tasks[j].Finished? else !Entered(b.tasks[j])
  }

  lemma ResumeMayEnter(b: Batch, i: nat)
    requires StartedInOrder(b) && Ordered(b) && LocksOk(b) && Enabled(b, Resume(i))
    ensures MayEnter(b, i)
  {
    var p := b.jobs[i].path;
    var ws := LockOf(b, p).waiters;
    assert LockOk(b, p) && OnPath(b, p, i);
    forall j | 0 <= j < |b.jobs| && j != i && b.jobs[j] == b.jobs[i]
      ensures if j < i then b.tasks[j].Finished? else !Entered(b.tasks[j])
    {
      assert OnPath(b, p, j);
      assert j in ws ==> exists k :: 0 <= k < |ws| && ws[k] == j;
    }
  }

  lemma StartMayEnter(b: Batch, p: string)
    requires StartedInOrder(b) && Ordered(b) && LocksOk(b) && b.started < |b.jobs| && b.jobs[b.started] == Writes(p)
    requires !LockOf(b, p).locked && LockOf(b, p).waiters == []
    ensures MayEnter(b, b.started)
  {
    assert LockOk(b, p);
    forall j | 0 <= j < |b.jobs| && j != b.started && b.jobs[j] == b.jobs[b.started]
      ensures if j < b.started then b.tasks[j].Finished? else !Entered(b.tasks[j])
    {
      assert OnPath(b, p, j);
    }
  }

  lemma EnterSeesSerial(b: Batch, effect: Effect, files: map<string, string>, i: nat)
    requires StartedInOrder(b) && SerialSoFar(b, effect, files) && MayEnter(b, i) && !Entered(b.tasks[i]) && LockedWrite(b, i)
    ensures ContentOf(b.files, b.jobs[i].path) == SerialContent(b.jobs, effect, files, b.jobs[i].path, i)
  {
    assert Boundary(b, b.jobs[i].path, i);
  }

  /** A lock is unaffected by a step that leaves it and the tasks of its path alone. */
  lemma LockOkCarries(b: Batch, r: Batch, p: string)
    requires |b.tasks| == |b.jobs| && r.jobs == b.jobs && |r.tasks| == |r.jobs|
    requires LockOk(b, p) && LockOf(r, p) == LockOf(b, p)
    requires forall i: nat :: OnPath(b, p, i) && (Entered(b.tasks[i]) || b.tasks[i].Waiting? || Entered(r.tasks[i]) || r.tasks[i].Waiting?)
               ==> (r.tasks[i].Waiting? <==> b.tasks[i].Waiting?) && (r.tasks[i].Running? <==> b.tasks[i].Running?)
    ensures LockOk(r, p)
  {
    if LockOf(r, p).locked {
      var i: nat :| OnPath(b, p, i) && b.tasks[i].Running?;
      assert OnPath(r, p, i) && r.tasks[i].Running?;
    }
    forall i: nat | OnPath(r, p, i) ensures OnPath(b, p, i) {}
  }

  lemma EnterLockOk(b: Batch, i: nat, rest: seq<nat>)
    requires |b.tasks| == |b.jobs| && MayEnter(b, i) && !Entered(b.tasks[i])
    requires LockOk(b, b.jobs[i].path)
    requires var ws := LockOf(b, b.jobs[i].path).waiters; if ws != [] && ws[0] == i then rest == ws[1..] else rest == ws && i !in ws
    ensures LockOk(Enter(b, i, b.jobs[i].path, rest), b.jobs[i].path)
  {
    var p := b.jobs[i].path;
    var r := Enter(b, i, p, rest);
    var ws := LockOf(b, p).waiters;
    assert OnPath(r, p, i) && r.tasks[i].Running?;
    forall x | x in rest ensures x in ws && x != i {
      if ws != [] && ws[0] == i {
        var j :| 0 <= j < |rest| && rest[j] == x;
        assert ws[0] < ws[j + 1] == x;
      }
    }
    forall j: nat | OnPath(r, p, j) ensures OnPath(b, p, j) {}
  }

  lemma QueueLockOk(b: Batch, p: string)
    requires StartedInOrder(b) && LockOk(b, p) && b.started < |b.jobs| && b.jobs[b.started] == Writes(p)
    ensures LockOk(Park(b.(started := b.started + 1), b.started, p), p)
  {
    var ws := LockOf(b, p).waiters;
    var r := Park(b.(started := b.started + 1), b.started, p);
    forall j | j in ws ensures j < b.started { assert OnPath(b, p, j); }
    var queue := LockOf(r, p).waiters;
    assert queue == ws + [b.started] && queue[|ws|] == b.started;
    assert Ascending(queue) by { assert forall k :: 0 <= k < |ws| ==> queue[k] == ws[k] && ws[k] in ws; }
    forall x | x in queue ensures OnPath(r, p, x) && r.tasks[x].Waiting? {
      if x != b.started { assert x in ws && OnPath(b, p, x); }
    }
    forall j: nat | OnPath(r, p, j) && r.tasks[j].Waiting? ensures j in queue {
      if j != b.started {
        assert OnPath(b, p, j) && j in ws;
        var k :| 0 <= k < |ws| && ws[k] == j;
        assert queue[k] == j;
      }
    }
    forall j: nat | OnPath(r, p, j) ensures OnPath(b, p, j) {}
    if LockOf(b, p).locked {
      var i: nat :| OnPath(b, p, i) && b.tasks[i].Running?;
      assert OnPath(r, p, i) && r.tasks[i].Running?;
    }
  }

  lemma CompleteLockOk(b: Batch, effect: Effect, i: nat, loose: Loose)
    requires StartedInOrder(b) && Ordered(b) && i < |b.jobs| && b.tasks[i].Running? && b.jobs[i].Writes?
    requires LockOk(b, b.jobs[i].path)
    ensures LockOk(Next(b, effect, Complete(i, loose)), b.jobs[i].path)
  {
    var p := b.jobs[i].path;
    var r := Next(b, effect, Complete(i, loose));
    forall j: nat | OnPath(r, p, j) ensures OnPath(b, p, j) && !r.tasks[j].Running? {
      assert j < i ==> b.tasks[j].Finished?;
      assert j > i ==> !Entered(b.tasks[j]);
    }
  }

  lemma StepKeepsLocks(b: Batch, effect: Effect, step: Step, p: string)
    requires StartedInOrder(b) && Ordered(b) && LocksOk(b)
    ensures LockOk(Next(b, effect, step), p)
  {
    hide LockOk, Ordered;
    var r := Next(b, effect, step);
    assert LockOk(b, p);
    if Enabled(b, step) {
      match step
      case Start =>
        var i := b.started;
        if b.jobs[i] == Writes(p) {
          if !LockOf(b, p).locked && LockOf(b, p).waiters == [] {
            StartMayEnter(b, p);
            var b' := b.(started := i + 1);
            LockOkCarries(b, b', p);
            EnterLockOk(b', i, []);
          } else {
            QueueLockOk(b, p);
          }
        } else {
          LockOkCarries(b, r, p);
        }
      case Resume(i) =>
        if b.jobs[i] == Writes(p) {
          ResumeMayEnter(b, i);
          EnterLockOk(b, i, LockOf(b, p).waiters[1..]);
        } else {
          LockOkCarries(b, r, p);
        }
      case Complete(i, loose) =>
        if b.jobs[i] == Writes(p) { CompleteLockOk(b, effect, i, loose); } else { LockOkCarries(b, r, p); }
    }
  }

  lemma StepKeepsStarted(b: Batch, effect: Effect, step: Step)
    requires StartedInOrder(b)
    ensures StartedInOrder(Next(b, effect, step))
  {
  }

  /** Only task `i` moves, and if it enters it may. */
  lemma OrderCarries(b: Batch, r: Batch, i: nat)
    requires |b.tasks| == |b.jobs| && r.jobs == b.jobs && |r.tasks| == |r.jobs| && i < |b.jobs| && Ordered(b)
    requires forall j :: 0 <= j < |b.jobs| && j != i ==> r.tasks[j] == b.tasks[j]
    requires b.tasks[i].Finished? ==> r.tasks[i].Finished?
    requires b.jobs[i].Writes? && Entered(r.tasks[i]) ==> Entered(b.tasks[i]) || MayEnter(b, i)
    ensures Ordered(r)
  {
  }

  lemma StepKeepsOrder(b: Batch, effect: Effect, step: Step)
    requires StartedInOrder(b) && Ordered(b) && LocksOk(b)
    ensures StartedInOrder(Next(b, effect, step)) && Ordered(Next(b, effect, step))
  {
    hide Ordered, LocksOk, MayEnter;
    StepKeepsStarted(b, effect, step);
    if Enabled(b, step) {
      match step
      case Start =>
        if b.jobs[b.started].Writes? {
          var p := b.jobs[b.started].path;
          if !LockOf(b, p).locked && LockOf(b, p).waiters == [] { StartMayEnter(b, p); }
        }
        OrderCarries(b, Next(b, effect, step), b.started);
      case Resume(i) =>
        ResumeMayEnter(b, i);
        OrderCarries(b, Next(b, effect, step), i);
      case Complete(i, _) => OrderCarries(b, Next(b, effect, step), i);
    }
  }

  lemma StepKeepsDispatched(b: Batch, effect: Effect, files: map<string, string>, step: Step)
    requires StartedInOrder(b) && DispatchedOk(b)
    requires forall i :: 0 <= i < |b.jobs| && b.jobs[i].Refused? ==> !b.tasks[i].Running?
    ensures DispatchedOk(Next(b, effect, step))
  {
    if Enabled(b, step) {
      var r := Next(b, effect, step);
      var i := if step.Start? then b.started else step.i;
      assert forall j: nat :: j < |b.jobs| && j != i ==> r.tasks[j] == b.tasks[j];
      if r.dispatched != b.dispatched {
        assert r.dispatched == b.dispatched + [i] && i !in b.dispatched;
        OneMore(b.dispatched, i);
      } else {
        assert !b.jobs[i].Refused? ==> (Entered(r.tasks[i]) <==> Entered(b.tasks[i]));
      }
    }
  }

  lemma OneMore(xs: seq<nat>, i: nat)
    ensures forall j :: j in xs + [i] <==> j in xs || j == i
  {
    assert (xs + [i])[|xs|] == i;
    forall j | j in xs ensures j in xs + [i] {
      var k :| 0 <= k < |xs| && xs[k] == j;
      assert (xs + [i])[k] == j;
    }
  }

  /** A content boundary after a completed write is the serial content with that write applied. */
  lemma CompletedContent(b: Batch, effect: Effect, files: map<string, string>, i: nat, loose: Loose, k: nat)
    requires StartedInOrder(b) && Ordered(b) && SerialSoFar(b, effect, files)
    requires i < |b.jobs| && LockedWrite(b, i) && b.tasks[i].Running? && k <= |b.jobs|
    requires Boundary(Next(b, effect, Complete(i, loose)), b.jobs[i].path, k)
    ensures ContentOf(Next(b, effect, Complete(i, loose)).files, b.jobs[i].path) == SerialContent(b.jobs, effect, files, b.jobs[i].path, k)
  {
    var p := b.jobs[i].path;
    var r := Next(b, effect, Complete(i, loose));
    assert i < k;
    forall j | i + 1 <= j < k ensures b.jobs[j] != Writes(p) {
      if b.jobs[j] == Writes(p) {
        assert r.tasks[j].Finished?;
        assert Entered(b.tasks[j]);
        assert false;
      }
    }
    SerialGap(b.jobs, effect, files, p, i + 1, k);
  }

  /** Any other step neither moves the boundary nor touches the file. */
  lemma OtherContent(b: Batch, effect: Effect, step: Step, p: string, k: nat)
    requires StartedInOrder(b) && p !in Next(b, effect, step).loose && Boundary(Next(b, effect, step), p, k)
    requires Enabled(b, step) && step.Complete? ==> b.jobs[step.i] != Writes(p)
    ensures p !in b.loose && Boundary(b, p, k) && ContentOf(Next(b, effect, step).files, p) == ContentOf(b.files, p)
  {
    var r := Next(b, effect, step);
    forall i | 0 <= i < |b.jobs| && b.jobs[i] == Writes(p) ensures b.tasks[i].Finished? <==> i < k {
      assert r.tasks[i].Finished? <==> b.tasks[i].Finished?;
    }
  }

  lemma StepKeepsContent(b: Batch, effect: Effect, files: map<string, string>, step: Step, p: string, k: nat)
    requires StartedInOrder(b) && Ordered(b) && SerialSoFar(b, effect, files) && k <= |b.jobs|
    requires p !in Next(b, effect, step).loose && |Next(b, effect, step).tasks| == |b.jobs| && Next(b, effect, step).jobs == b.jobs
    requires Boundary(Next(b, effect, step), p, k)
    ensures ContentOf(Next(b, effect, step).files, p) == SerialContent(b.jobs, effect, files, p, k)
  {
    if Enabled(b, step) && step.Complete? && b.jobs[step.i] == Writes(p) {
      CompletedContent(b, effect, files, step.i, step.loose, k);
    } else {
      OtherContent(b, effect, step, p, k);
    }
  }

  lemma StepKeepsResults(b: Batch, effect: Effect, files: map<string, string>, step: Step)
    requires Inv(b, effect, files)
    ensures |Next(b, effect, step).tasks| == |Next(b, effect, step).jobs| && Next(b, effect, step).jobs == b.jobs
    ensures var r := Next(b, effect, step);
      forall i :: 0 <= i < |r.jobs| ==>
        && (LockedWrite(r, i) && r.tasks[i].Running? ==> r.tasks[i].seen == SerialContent(r.jobs, effect, files, r.jobs[i].path, i))
        && (LockedWrite(r, i) && r.tasks[i].Finished? ==> r.tasks[i].result == SerialResult(r.jobs, effect, files, i))
        && (r.jobs[i].Refused? ==> !r.tasks[i].Running? && (r.tasks[i].Finished? ==> r.tasks[i].result == r.jobs[i].result))
  {
    hide LockOk, DispatchedOk, SerialContent;
    if Enabled(b, step) {
      match step
      case Start =>
        var i := b.started;
        if b.jobs[i].Writes? && !LockOf(b, b.jobs[i].path).locked && LockOf(b, b.jobs[i].path).waiters == [] {
          StartMayEnter(b, b.jobs[i].path);
          if LockedWrite(b, i) { EnterSeesSerial(b, effect, files, i); }
        }
      case Resume(i) =>
        ResumeMayEnter(b, i);
        if LockedWrite(b, i) { EnterSeesSerial(b, effect, files, i); }
      case Complete(_, _) =>
    }
  }

  lemma StepKeepsInv(b: Batch, effect: Effect, files: map<string, string>, step: Step)
    requires Inv(b, effect, files)
    ensures Inv(Next(b, effect, step), effect, files) && Next(b, effect, step).jobs == b.jobs
  {
    var r := Next(b, effect, step);
    StepKeepsOrder(b, effect, step);
    StepKeepsDispatched(b, effect, files, step);
    StepKeepsResults(b, effect, files, step);
    forall p ensures LockOk(r, p) { StepKeepsLocks(b, effect, step, p); }
    forall p, k: nat | p !in r.loose && k <= |r.jobs| && Boundary(r, p, k)
      ensures ContentOf(r.files, p) == SerialContent(r.jobs, effect, files, p, k)
    {
      StepKeepsContent(b, effect, files, step, p, k);
    }
  }

  lemma {:induction false} EveryRunKeepsInv(jobs: seq<Job>, effect: Effect, files: map<string, string>, steps: seq<Step>)
    ensures Inv(Run(Init(jobs, files), effect, steps), effect, files)
    decreases |steps|
  {
    if steps == [] {
      InitInv(jobs, effect, files);
    } else {
      EveryRunKeepsInv(jobs, effect, files, steps[..|steps| - 1]);
      StepKeepsInv(Run(Init(jobs, files), effect, steps[..|steps| - 1]), effect, files, steps[|steps| - 1]);
    }
  }

  // ----- the promises -----

  /** No two writes on one path are ever in progress together, and a later one never overtakes an earlier one. */
  lemma SamePathExclusive(jobs: seq<Job>, effect: Effect, files: map<string, string>, steps: seq<Step>, i: nat, j: nat)
    requires i < j < |jobs| && jobs[i].Writes? && jobs[i] == jobs[j]
    ensures var b := Run(Init(jobs, files), effect, steps);
            Entered(b.tasks[j]) ==> b.tasks[i].Finished?
  {
    EveryRunKeepsInv(jobs, effect, files, steps);
  }

  /** Each call that is neither short-circuited nor crashes is dispatched exactly once; the batch raises exactly if one crashes. */
  lemma DispatchedOnce(jobs: seq<Job>, effect: Effect, files: map<string, string>, steps: seq<Step>, i: nat)
    requires i < |jobs| && Done(Run(Init(jobs, files), effect, steps))
    ensures var b := Run(Init(jobs, files), effect, steps);
            multiset(b.dispatched)[i] == if jobs[i].Refused? || jobs[i].Crashes? then 0 else 1
    ensures AnyRaised(Run(Init(jobs, files), effect, steps)) <==> exists j :: 0 <= j < |jobs| && jobs[j].Crashes?
  {
    EveryRunKeepsInv(jobs, effect, files, steps);
    var b := Run(Init(jobs, files), effect, steps);
    CountDistinct(b.dispatched, i);
    RaisedExactly(b);
  }

  lemma RaisedExactly(b: Batch)
    requires StartedInOrder(b) && Done(b)
    ensures AnyRaised(b) <==> exists j :: 0 <= j < |b.jobs| && b.jobs[j].Crashes?
  {
  }

  lemma {:induction false} CountDistinct(xs: seq<nat>, x: nat)
    requires forall i, j :: 0 <= i < j < |xs| ==> xs[i] != xs[j]
    ensures multiset(xs)[x] == if x in xs then 1 else 0
  {
    if xs != [] {
      assert xs == [xs[0]] + xs[1..];
      assert forall i :: 0 <= i < |xs[1..]| ==> xs[1..][i] == xs[i + 1];
      CountDistinct(xs[1..], x);
    }
  }

  /**
    However the tasks interleave, a finished batch has left every file that only write tools wrote
    as running the calls one after another in call order would, and each such write reports the
    serial result; results are in call order, one per call, and a short-circuited call reports
    its own result.
  */
  lemma BatchIsSerial(jobs: seq<Job>, effect: Effect, files: map<string, string>, steps: seq<Step>)
    requires Done(Run(Init(jobs, files), effect, steps))
    ensures var b := Run(Init(jobs, files), effect, steps);
            && |b.tasks| == |jobs|
            && (forall p :: p !in b.loose ==> ContentOf(b.files, p) == SerialContent(jobs, effect, files, p, |jobs|))
            && (forall i :: 0 <= i < |jobs| && LockedWrite(b, i) ==> b.tasks[i] == Finished(SerialResult(jobs, effect, files, i)))
            && (forall i :: 0 <= i < |jobs| && jobs[i].Refused? ==> b.tasks[i] == Finished(jobs[i].result))
  {
    EveryRunKeepsInv(jobs, effect, files, steps);
    DoneIsSerial(Run(Init(jobs, files), effect, steps), effect, files);
  }

  lemma DoneIsSerial(b: Batch, effect: Effect, files: map<string, string>)
    requires Inv(b, effect, files) && Done(b)
    ensures |b.tasks| == |b.jobs|
    ensures forall p :: p !in b.loose ==> ContentOf(b.files, p) == SerialContent(b.jobs, effect, files, p, |b.jobs|)
    ensures forall i :: 0 <= i < |b.jobs| && LockedWrite(b, i) ==> b.tasks[i] == Finished(SerialResult(b.jobs, effect, files, i))
    ensures forall i :: 0 <= i < |b.jobs| && b.jobs[i].Refused? ==> b.tasks[i] == Finished(b.jobs[i].result)
  {
    forall p ensures Boundary(b, p, |b.jobs|) {}
  }

  /**
    A write waits for nothing but earlier unfinished writes to its own path: as soon as there are
    none it may take its lock.
  */
  lemma WaitsOnlyForItsPath(jobs: seq<Job>, effect: Effect, files: map<string, string>, steps: seq<Step>, i: nat)
    requires i < |jobs| && Run(Init(jobs, files), effect, steps).tasks[i].Waiting?
    ensures jobs[i].Writes?
    ensures var b := Run(Init(jobs, files), effect, steps);
            Enabled(b, Resume(i)) || exists j :: 0 <= j < i && jobs[j] == jobs[i] && !b.tasks[j].Finished?
  {
    EveryRunKeepsInv(jobs, effect, files, steps);
    hide Run;
    WaitsAt(Run(Init(jobs, files), effect, steps), i);
  }

  lemma WaitsAt(b: Batch, i: nat)
    requires StartedInOrder(b) && Ordered(b) && LocksOk(b) && i < |b.jobs| && b.tasks[i].Waiting?
    ensures b.jobs[i].Writes? && (Enabled(b, Resume(i)) || exists j :: 0 <= j < i && b.jobs[j] == b.jobs[i] && !b.tasks[j].Finished?)
  {
    var p := b.jobs[i].path;
    assert LockOk(b, p) && OnPath(b, p, i);
    var l := LockOf(b, p);
    if l.locked {
      var j: nat :| OnPath(b, p, j) && b.tasks[j].Running?;
      assert j < i;
    } else if l.waiters[0] != i {
      var h := l.waiters[0];
      assert h in l.waiters && OnPath(b, p, h);
      var n :| 0 <= n < |l.waiters| && l.waiters[n] == i;
      assert h < i;
    }
  }

  lemma RunStarted(jobs: seq<Job>, effect: Effect, files: map<string, string>, steps: seq<Step>)
    ensures StartedInOrder(Run(Init(jobs, files), effect, steps))
  {
    EveryRunKeepsInv(jobs, effect, files, steps);
  }

  lemma FreeStep(b: Batch, effect: Effect, step: Step, i: nat)
    requires StartedInOrder(b) && i < |b.jobs| && b.jobs[i].Free? && Next(b, effect, step).tasks[i].Finished?
    ensures if b.tasks[i].Finished? then Next(b, effect, step).tasks[i] == b.tasks[i]
            else step.Complete? && step.i == i && b.tasks[i].Running? && Next(b, effect, step).tasks[i].result == step.loose.answer
  {
  }

  lemma LooseStep(b: Batch, effect: Effect, step: Step, p: string)
    requires |b.tasks| == |b.jobs|
    requires p in Next(b, effect, step).loose && p !in b.loose
    ensures step.Complete? && step.i < |b.jobs| && !b.jobs[step.i].Writes? && b.tasks[step.i].Running? && p in step.loose.writes
  {
  }

  /** What a lock-free tool reports is what its own dispatch ended with. */
  lemma {:induction false} FreeAnswer(jobs: seq<Job>, effect: Effect, files: map<string, string>, steps: seq<Step>, i: nat)
      returns (k: nat)
    requires i < |jobs| && jobs[i].Free? && Run(Init(jobs, files), effect, steps).tasks[i].Finished?
    ensures k < |steps| && Run(Init(jobs, files), effect, steps[..k]).tasks[i].Running?
    ensures steps[k].Complete? && steps[k].i == i
            && Run(Init(jobs, files), effect, steps).tasks[i].result == steps[k].loose.answer
    decreases |steps|
  {
    hide Next, StartedInOrder;
    if steps == [] {
      assert false;
    } else {
      var front := steps[..|steps| - 1];
      var b := Run(Init(jobs, files), effect, front);
      RunStarted(jobs, effect, files, front);
      FreeStep(b, effect, steps[|front|], i);
      if b.tasks[i].Finished? {
        k := FreeAnswer(jobs, effect, files, front, i);
        assert front[..k] == steps[..k];
      } else {
        k := |front|;
      }
    }
  }

  /** The files counted as written without a lock are only those a lock-free tool did write. */
  lemma {:induction false} LooseComesFrom(jobs: seq<Job>, effect: Effect, files: map<string, string>, steps: seq<Step>, p: string)
      returns (k: nat)
    requires p in Run(Init(jobs, files), effect, steps).loose
    ensures k < |steps| && steps[k].Complete? && p in steps[k].loose.writes
    ensures steps[k].i < |jobs| && !jobs[steps[k].i].Writes? && Run(Init(jobs, files), effect, steps[..k]).tasks[steps[k].i].Running?
    decreases |steps|
  {
    hide Next, StartedInOrder;
    if steps == [] {
      assert false;
    } else {
      var front := steps[..|steps| - 1];
      var b := Run(Init(jobs, files), effect, front);
      RunStarted(jobs, effect, files, front);
      if p in b.loose {
        k := LooseComesFrom(jobs, effect, files, front, p);
        assert front[..k] == steps[..k];
      } else {
        LooseStep(b, effect, steps[|front|], p);
        k := |front|;
      }
    }
  }

  /** The batch never gets stuck: until every call has finished, some task can move. */
  lemma NeverStuck(jobs: seq<Job>, effect: Effect, files: map<string, string>, steps: seq<Step>)
    requires !Done(Run(Init(jobs, files), effect, steps))
    ensures exists step :: Enabled(Run(Init(jobs, files), effect, steps), step)
  {
    EveryRunKeepsInv(jobs, effect, files, steps);
    var b := Run(Init(jobs, files), effect, steps);
    var i :| 0 <= i < |b.tasks| && !b.tasks[i].Over();
    match b.tasks[i]
    case NotStarted => assert Enabled(b, Start);
    case Running(_) => assert Enabled(b, Complete(i, Loose("", map[])));
    case Waiting =>
      var p := b.jobs[i].path;
      assert LockOk(b, p) && OnPath(b, p, i);
      if LockOf(b, p).locked {
        var j: nat :| OnPath(b, p, j) && b.tasks[j].Running?;
        assert Enabled(b, Complete(j, Loose("", map[])));
      } else {
        var h := LockOf(b, p).waiters[0];
        assert h in LockOf(b, p).waiters;
        assert Enabled(b, Resume(h));
      }
  }

  // ----- and it finishes -----

  function Left(t: Task): nat {
    match t case NotStarted => 3 case Waiting => 2 case Running(_) => 1 case _ => 0
  }

  function Work(tasks: seq<Task>): nat {
    if tasks == [] then 0 else Left(tasks[0]) + Work(tasks[1..])
  }

  lemma {:induction false} WorkDrops(tasks: seq<Task>, i: nat, t: Task)
    requires i < |tasks| && Left(t) < Left(tasks[i])
    ensures Work(tasks[i := t]) < Work(tasks)
  {
    if i == 0 {
      assert tasks[0 := t][1..] == tasks[1..];
    } else {
      assert tasks[i := t][1..] == tasks[1..][i - 1 := t];
      WorkDrops(tasks[1..], i - 1, t);
    }
  }

  /** Every enabled step uses up work, so a batch of `n` calls ends within `3 * n` effective steps. */
  lemma StepUsesWork(b: Batch, effect: Effect, step: Step)
    requires StartedInOrder(b) && Enabled(b, step)
    ensures Work(Next(b, effect, step).tasks) < Work(b.tasks)
  {
    var i := if step.Start? then b.started else step.i;
    WorkDrops(b.tasks, i, Next(b, effect, step).tasks[i]);
  }
}
