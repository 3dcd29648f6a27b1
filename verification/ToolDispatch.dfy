/**
  From tool call to dispatch: the serial prepare phase with its consent prompts, answered while it
  waits, and then the execute phase over the jobs that the prepared calls stand for.
*/
module ToolDispatch {
  import opened Basics
  import Consent
  import B = ToolBatch

  /** What stands between one call and its dispatch, the user's answer apart. */
  datatype Gates = Gates(rule: B.Rule, gater: bool, hooks: bool, blocked: bool, breakerOpen: bool)

  datatype Setup = Setup(
    calls: seq<B.ToolCall>, gates: nat -> Gates, reader: B.Reader, blank: string -> bool,
    report: B.Why -> string, files: map<string, string>, effect: B.Effect)

  /** `Broken`: an exception got out of the prepare phase. */
  datatype Phase = Preparing(waiting: Option<nat>) | Executing(batch: B.Batch) | Broken

  /** `log` is all that ever happened to the consent gate; `asked` says which request belongs to which call. */
  datatype World = World(
    log: seq<Consent.Step>, prepared: seq<B.Prepared>, cancelled: set<nat>, asked: map<nat, nat>, phase: Phase)

  datatype Step =
    | Answering(c: Consent.Step)     // prompts, answers, timers, and what other runs ask for
    | Prepare(cancelFlag: bool)      // the prepare loop moves; the flag as it reads it
    | Execute(t: B.Step)

  function Gate(w: World): Consent.Gate { Consent.Run(w.log, |w.log|) }

  function ReadOf(s: Setup, i: nat): B.Read
    requires i < |s.calls|
  {
    B.ReadArgs(s.calls[i].raw, s.reader, s.blank)
  }

  predicate Prompts(s: Setup, i: nat) { s.gates(i).rule == B.Ask && s.gates(i).gater }

  /** The prepare phase raises at call `i`: its reader does, or its arguments do not copy into a prompt. */
  predicate Stops(s: Setup, i: nat)
    requires i < |s.calls|
  {
    ReadOf(s, i).Throws? || (ReadOf(s, i).Value? && Prompts(s, i) && !B.DictTakes(ReadOf(s, i).json))
  }

  predicate Asks(s: Setup, i: nat)
    requires i < |s.calls|
  {
    ReadOf(s, i).Value? && Prompts(s, i) && B.DictTakes(ReadOf(s, i).json)
  }

  function ChecksOf(s: Setup, i: nat, allowed: bool): B.Checks {
    var g := s.gates(i);
    B.Checks(g.rule, g.gater, allowed, g.hooks, g.blocked, g.breakerOpen)
  }

  function Settled(s: Setup, i: nat, allowed: bool): B.Prepared
    requires i < |s.calls| && !Stops(s, i)
  {
    B.Prepare(s.calls[i], ChecksOf(s, i, allowed), s.reader, s.blank).value
  }

  /** A write call runs under the lock of the path it names, or crashes looking for it; any other call runs under none. */
  function JobOf(s: Setup, p: B.Prepared): B.Job {
    match p
    case Short(why) => B.Refused(s.report(why))
    case Ready(name, args) =>
      match B.LockFor(name, args)
      case Unlocked => B.Free
      case Locked(path) => B.Writes(path)
      case NoKeys => B.Crashes
  }

  function Jobs(s: Setup, prepared: seq<B.Prepared>): (r: seq<B.Job>)
    ensures |r| == |prepared| && forall i :: 0 <= i < |r| ==> r[i] == JobOf(s, prepared[i])
  {
    seq(|prepared|, i requires 0 <= i < |prepared| => JobOf(s, prepared[i]))
  }

  function Init(): World { World([], [], {}, map[], Preparing(None)) }

  function Prepared(s: Setup, w: World, p: B.Prepared): World {
    w.(prepared := w.prepared + [p], phase := Preparing(None))
  }

  function MoveOn(s: Setup, w: World, waiting: Option<nat>, cancelFlag: bool): World {
    var i := |w.prepared|;
    match waiting
    case Some(r) =>
      if i < |s.calls| && !Stops(s, i) && r < |Gate(w).requests| && Gate(w).requests[r].phase.Returned?
      then Prepared(s, w, Settled(s, i, Gate(w).requests[r].phase.result)) else w
    case None =>
      if i >= |s.calls| then w.(phase := Executing(B.Init(Jobs(s, w.prepared), s.files)))
      else if cancelFlag then Prepared(s, w, B.Short(B.Cancelled)).(cancelled := w.cancelled + {i})
      else if Stops(s, i) then w.(phase := Broken)
      else if Asks(s, i) then
        var r := |Gate(w).requests|;
        w.(log := w.log + [Consent.Begin], asked := w.asked[i := r], phase := Preparing(Some(r)))
      else Prepared(s, w, Settled(s, i, false))
  }

  function Next(s: Setup, w: World, step: Step): World {
    match step
    case Answering(c) => w.(log := w.log + [c])
    case Prepare(cancelFlag) => if w.phase.Preparing? then MoveOn(s, w, w.phase.waiting, cancelFlag) else w
    case Execute(t) =>
      if w.phase.Executing? && |w.phase.batch.tasks| == |w.phase.batch.jobs|
      then w.(phase := Executing(B.Next(w.phase.batch, s.effect, t))) else w
  }

  function Run(s: Setup, steps: seq<Step>): World
    decreases |steps|
  {
    if steps == [] then Init() else Next(s, Run(s, Front(steps)), Last(steps))
  }

  // ----- what every run keeps -----

  predicate Answered(w: World, r: nat) { r < |Gate(w).requests| && Gate(w).requests[r].phase.Returned? }

  /** A prepared call, against its cancel flag and its own request. */
  predicate CallOk(s: Setup, w: World, i: nat)
    requires i < |w.prepared| && i < |s.calls|
  {
    if i in w.cancelled then i !in w.asked && w.prepared[i] == B.Short(B.Cancelled)
    else if Stops(s, i) then false
    else if Asks(s, i) then
      i in w.asked && Answered(w, w.asked[i]) && w.prepared[i] == Settled(s, i, Gate(w).requests[w.asked[i]].phase.result)
    else i !in w.asked && w.prepared[i] == Settled(s, i, false)
  }

  /** Requests belong to calls that have come up, and are all different. */
  ghost predicate AskedOk(s: Setup, w: World) {
    && (forall i :: i in w.asked ==> i < |w.prepared| + (if w.phase.Preparing? && w.phase.waiting.Some? then 1 else 0))
    && (forall i :: i in w.asked ==> w.asked[i] < |Gate(w).requests|)
    && (forall i, j :: i in w.asked && j in w.asked && i != j ==> w.asked[i] != w.asked[j])
  }

  ghost predicate PhaseOk(s: Setup, w: World) {
    match w.phase
    case Preparing(None) => true
    case Preparing(Some(r)) =>
      var i := |w.prepared|;
      i < |s.calls| && Asks(s, i) && i in w.asked && w.asked[i] == r
    case Executing(b) => |w.prepared| == |s.calls| && b.jobs == Jobs(s, w.prepared) && B.Inv(b, s.effect, s.files)
    case Broken => |w.prepared| < |s.calls| && |w.prepared| !in w.cancelled && Stops(s, |w.prepared|)
  }

  ghost predicate Ok(s: Setup, w: World) {
    && |w.prepared| <= |s.calls|
    && (forall i :: i in w.cancelled ==> i < |w.prepared|)
    && AskedOk(s, w) && PhaseOk(s, w)
    && forall i :: 0 <= i < |w.prepared| ==> CallOk(s, w, i)
  }

  lemma GateSnoc(w: World, c: Consent.Step)
    ensures Gate(w.(log := w.log + [c])) == Consent.Next(Gate(w), c)
  {
    Consent.RunSnoc(w.log, c);
  }

  lemma GateGrows(w: World, c: Consent.Step)
    ensures |Gate(w).requests| <= |Gate(w.(log := w.log + [c])).requests|
  {
    GateSnoc(w, c);
  }

  lemma AnsweredStays(w: World, c: Consent.Step, r: nat)
    requires Answered(w, r)
    ensures Answered(w.(log := w.log + [c]), r)
    ensures Gate(w.(log := w.log + [c])).requests[r] == Gate(w).requests[r]
  {
    var longer := w.log + [c];
    Consent.RunPrefix(w.log, [c], |w.log|);
    Consent.ReturnedIsFinal(longer, |longer|, r);
  }

  /** More consent history changes nothing about the calls already prepared. */
  lemma LogKeeps(s: Setup, w: World, c: Consent.Step)
    requires Ok(s, w)
    ensures Ok(s, w.(log := w.log + [c]))
  {
    var w' := w.(log := w.log + [c]);
    GateGrows(w, c);
    forall i | 0 <= i < |w'.prepared| ensures CallOk(s, w', i) {
      assert CallOk(s, w, i);
      if i !in w.cancelled && Asks(s, i) { AnsweredStays(w, c, w.asked[i]); }
    }
  }

  lemma PreparedKeeps(s: Setup, w: World, w': World)
    requires Ok(s, w) && w.phase.Preparing? && |w.prepared| < |s.calls|
    requires w'.log == w.log && w'.asked == w.asked && w'.phase == Preparing(None)
    requires |w'.prepared| == |w.prepared| + 1 && Front(w'.prepared) == w.prepared
    requires w'.cancelled == w.cancelled || w'.cancelled == w.cancelled + {|w.prepared|}
    requires CallOk(s, w', |w.prepared|)
    ensures Ok(s, w')
  {
    forall i | 0 <= i < |w'.prepared| ensures CallOk(s, w', i) {
      if i < |w.prepared| {
        assert w'.prepared[i] == Front(w'.prepared)[i];
        assert CallOk(s, w, i);
      }
    }
  }

  lemma AskKeeps(s: Setup, w: World)
    requires Ok(s, w) && w.phase == Preparing(None) && |w.prepared| < |s.calls| && Asks(s, |w.prepared|)
    ensures Ok(s, MoveOn(s, w, None, false))
  {
    var i, r := |w.prepared|, |Gate(w).requests|;
    var mid := w.(log := w.log + [Consent.Begin]);
    LogKeeps(s, w, Consent.Begin);
    GateSnoc(w, Consent.Begin);
    var w' := MoveOn(s, w, None, false);
    assert Gate(w') == Gate(mid) && |Gate(mid).requests| == r + 1;
    forall j | 0 <= j < |w'.prepared| ensures CallOk(s, w', j) { assert CallOk(s, mid, j); }
  }

  lemma MoveOnKeeps(s: Setup, w: World, cancelFlag: bool)
    requires Ok(s, w) && w.phase.Preparing?
    ensures Ok(s, MoveOn(s, w, w.phase.waiting, cancelFlag))
  {
    var w', i := MoveOn(s, w, w.phase.waiting, cancelFlag), |w.prepared|;
    if w.phase.waiting.Some? {
      if w' != w { PreparedKeeps(s, w, w'); }
    } else if i >= |s.calls| {
      B.InitInv(Jobs(s, w.prepared), s.effect, s.files);
      forall j | 0 <= j < |w'.prepared| ensures CallOk(s, w', j) { assert CallOk(s, w, j); }
    } else if !cancelFlag && Stops(s, i) {
      forall j | 0 <= j < |w'.prepared| ensures CallOk(s, w', j) { assert CallOk(s, w, j); }
    } else if !cancelFlag && Asks(s, i) {
      AskKeeps(s, w);
    } else {
      PreparedKeeps(s, w, w');
    }
  }

  lemma ExecuteKeeps(s: Setup, w: World, t: B.Step)
    requires Ok(s, w)
    ensures Ok(s, Next(s, w, Execute(t)))
  {
    var w' := Next(s, w, Execute(t));
    if w.phase.Executing? {
      B.StepKeepsInv(w.phase.batch, s.effect, s.files, t);
      forall i | 0 <= i < |w'.prepared| ensures CallOk(s, w', i) { assert CallOk(s, w, i); }
    }
  }

  lemma {:induction false} EveryRunOk(s: Setup, steps: seq<Step>)
    ensures Ok(s, Run(s, steps))
    decreases |steps|
  {
    if steps != [] {
      EveryRunOk(s, Front(steps));
      var w := Run(s, Front(steps));
      match Last(steps)
      case Answering(c) => LogKeeps(s, w, c);
      case Prepare(cancelFlag) => if w.phase.Preparing? { MoveOnKeeps(s, w, cancelFlag); }
      case Execute(t) => ExecuteKeeps(s, w, t);
    }
  }

  // ----- the promise -----

  /** The user said yes to this call's own prompt, first thing, before the prompt failed or ran out of time. */
  ghost predicate Granted(w: World, i: nat) {
    i in w.asked && Consent.FirstAnswer(w.log, |w.log|, w.asked[i], true) && !Consent.GaveUp(w.log, |w.log|, w.asked[i])
  }

  /** Everything that must hold for call `i` to be let through. */
  ghost predicate LetThrough(s: Setup, w: World, i: nat)
    requires i < |s.calls|
  {
    && i !in w.cancelled && ReadOf(s, i).Value? && s.gates(i).rule != B.Deny
    && (Prompts(s, i) ==> B.DictTakes(ReadOf(s, i).json) && Granted(w, i))
    && (s.calls[i].name != "" ==> !(s.gates(i).hooks && s.gates(i).blocked) && !s.gates(i).breakerOpen)
  }

  lemma ReadyExactly(s: Setup, w: World, i: nat)
    requires Ok(s, w) && i < |w.prepared|
    ensures w.prepared[i].Ready? <==> LetThrough(s, w, i)
    ensures w.prepared[i].Ready? ==> w.prepared[i] == B.Ready(s.calls[i].name, ReadOf(s, i).json)
  {
    assert CallOk(s, w, i);
    if i !in w.cancelled && Asks(s, i) { Consent.GrantedExactly(w.log, w.asked[i]); }
  }

  /** The arguments a call comes with, as far as they can be read: none, or blank text, count as an empty object. */
  ghost predicate ReadAs(s: Setup, i: nat, args: B.Json)
    requires i < |s.calls|
  {
    match s.calls[i].raw
    case NoArgs => args == B.Object(map[])
    case Dict(given) => args == B.Object(given)
    case Encoded(text) => if s.blank(text) then args == B.Object(map[]) else s.reader(text) == B.Value(args)
  }

  /**
    Why a call was turned down, in the order in which its gates are asked: it came after a cancel;
    its text does not decode; a rule denies it; its own prompt was not granted; a hook blocks it;
    its circuit is open. A call that none of this meets is let through, with the arguments it came with.
  */
  lemma RefusedBecause(s: Setup, w: World, i: nat)
    requires Ok(s, w) && i < |w.prepared|
    ensures var g := s.gates(i); var p := w.prepared[i]; var named := s.calls[i].name != "";
      if i in w.cancelled then p == B.Short(B.Cancelled)
      else if s.calls[i].raw.Encoded? && !s.blank(s.calls[i].raw.text) && s.reader(s.calls[i].raw.text) == B.Undecodable then
        p == B.Short(B.Malformed)
      else if g.rule == B.Deny then p == B.Short(B.Denied)
      else if g.rule == B.Ask && g.gater && !Granted(w, i) then p == B.Short(B.UserDenied)
      else if g.hooks && named && g.blocked then p == B.Short(B.HookBlocked)
      else if named && g.breakerOpen then p == B.Short(B.CircuitOpen)
      else p.Ready? && p.name == s.calls[i].name && ReadAs(s, i, p.args)
  {
    assert CallOk(s, w, i);
    if i !in w.cancelled && Asks(s, i) { Consent.GrantedExactly(w.log, w.asked[i]); }
  }

  /** What the agent is told of a call that was turned down is the report of that reason. */
  lemma RefusalIsReported(s: Setup, steps: seq<Step>, i: nat)
    requires Run(s, steps).phase.Executing? && B.Done(Run(s, steps).phase.batch)
    requires i < |s.calls|
    ensures var w := Run(s, steps);
      && |w.prepared| == |w.phase.batch.tasks| == |s.calls|
      && (w.prepared[i].Short? ==> w.phase.batch.tasks[i] == B.Finished(s.report(w.prepared[i].why)))
  {
    BatchOfCallsIsSerial(s, steps);
    var w := Run(s, steps);
    assert Jobs(s, w.prepared)[i] == JobOf(s, w.prepared[i]);
  }

  /** The lock lookup of call `i` raises: it writes, and its arguments are no object. */
  predicate Keyless(s: Setup, i: nat)
    requires i < |s.calls|
  {
    ReadOf(s, i).Value? && B.LockFor(s.calls[i].name, ReadOf(s, i).json) == B.NoKeys
  }

  /**
    In every run of both phases: a call that has been dispatched was let through, its prompt being
    its own, and its lock lookup did not raise; at the end the calls dispatched are exactly those,
    each once.
  */
  lemma DispatchedExactly(s: Setup, steps: seq<Step>, i: nat)
    requires Run(s, steps).phase.Executing? && i < |s.calls|
    ensures var w := Run(s, steps); var b := w.phase.batch;
      && |b.tasks| == |b.jobs| == |s.calls|
      && (i in b.dispatched ==> LetThrough(s, w, i) && !Keyless(s, i))
      && (B.Done(b) ==> multiset(b.dispatched)[i] == if LetThrough(s, w, i) && !Keyless(s, i) then 1 else 0)
      && (forall j :: i in w.asked && j in w.asked && i != j ==> w.asked[i] != w.asked[j])
  {
    var w := Run(s, steps);
    var b := w.phase.batch;
    EveryRunOk(s, steps);
    ReadyExactly(s, w, i);
    assert b.jobs[i] == JobOf(s, w.prepared[i]);
    B.CountDistinct(b.dispatched, i);
  }

  // ----- when the batch raises -----

  /** The batch has come to an end: it raised while preparing, or all its tasks are over. */
  predicate Over(w: World) { w.phase.Broken? || (w.phase.Executing? && B.Done(w.phase.batch)) }

  predicate Raised(w: World) { w.phase.Broken? || (w.phase.Executing? && B.AnyRaised(w.phase.batch)) }

  /** A call on which the batch fails, whatever becomes of the others. */
  ghost predicate Fatal(s: Setup, w: World, i: nat)
    requires i < |s.calls|
  {
    i !in w.cancelled && (Stops(s, i) || (LetThrough(s, w, i) && Keyless(s, i)))
  }

  /** An exception gets out of a batch exactly if one of its calls is of that kind. */
  lemma RaisesExactly(s: Setup, steps: seq<Step>)
    requires Over(Run(s, steps))
    ensures Raised(Run(s, steps)) <==> exists i :: 0 <= i < |s.calls| && Fatal(s, Run(s, steps), i)
  {
    hide LetThrough, Stops, Keyless;
    var w := Run(s, steps);
    EveryRunOk(s, steps);
    if w.phase.Broken? {
      assert Fatal(s, w, |w.prepared|);
    } else {
      var b := w.phase.batch;
      B.RaisedExactly(b);
      forall i | 0 <= i < |s.calls| ensures b.jobs[i].Crashes? <==> Fatal(s, w, i) { CrashesExactly(s, w, i); }
    }
  }

  lemma CrashesExactly(s: Setup, w: World, i: nat)
    requires Ok(s, w) && w.phase.Executing? && i < |s.calls|
    ensures w.phase.batch.jobs[i].Crashes? <==> Fatal(s, w, i)
  {
    ReadyExactly(s, w, i);
    assert CallOk(s, w, i);
    assert w.phase.batch.jobs[i] == JobOf(s, w.prepared[i]);
    if i !in w.cancelled { assert !Stops(s, i); }
  }

  // ----- the same prepare phase as the loop over the calls -----

  /** A call as the loop met it in the end: its flag, and what its own prompt came to. */
  function ArrivedAt(s: Setup, w: World, i: nat): B.Arriving
    requires i < |s.calls|
  {
    var answered := i in w.asked && Answered(w, w.asked[i]);
    B.Arriving(s.calls[i], i in w.cancelled, ChecksOf(s, i, answered && Gate(w).requests[w.asked[i]].phase.result))
  }

  function Arrived(s: Setup, w: World): (r: seq<B.Arriving>)
    ensures |r| == |s.calls| && forall i :: 0 <= i < |r| ==> r[i] == ArrivedAt(s, w, i)
  {
    seq(|s.calls|, i requires 0 <= i < |s.calls| => ArrivedAt(s, w, i))
  }

  /** What the loop makes of the calls as they arrived is what is executed, or that it raises. */
  lemma LoopPrepares(s: Setup, steps: seq<Step>)
    ensures var w := Run(s, steps);
      && (w.phase.Executing? ==> B.PreparedAll(Arrived(s, w), s.reader, s.blank) == Some(w.prepared))
      && (w.phase.Broken? ==> B.PreparedAll(Arrived(s, w), s.reader, s.blank) == None)
  {
    hide Arrived;
    var w := Run(s, steps);
    EveryRunOk(s, steps);
    B.PreparedAllExactly(Arrived(s, w), s.reader, s.blank);
    if w.phase.Executing? {
      forall i | 0 <= i < |s.calls| ensures B.PrepareOne(Arrived(s, w)[i], s.reader, s.blank) == Some(w.prepared[i]) {
        assert CallOk(s, w, i);
      }
      var r := B.PreparedAll(Arrived(s, w), s.reader, s.blank);
      assert r.Some? && r.value == w.prepared;
    } else if w.phase.Broken? {
      assert B.PrepareOne(Arrived(s, w)[|w.prepared|], s.reader, s.blank).None?;
    }
  }

  /** While a write tool is being dispatched, the lock of its own path is held, and by nobody else. */
  lemma RunsUnderItsLock(s: Setup, steps: seq<Step>, i: nat, path: string)
    requires Run(s, steps).phase.Executing? && i < |s.calls| && ReadOf(s, i).Value?
    requires B.LockFor(s.calls[i].name, ReadOf(s, i).json) == B.Locked(path)
    requires |Run(s, steps).phase.batch.tasks| == |s.calls| && Run(s, steps).phase.batch.tasks[i].Running?
    ensures var w := Run(s, steps); var b := w.phase.batch;
      && LetThrough(s, w, i) && |b.jobs| == |s.calls| && B.LockOf(b, path).locked
      && forall j :: 0 <= j < |s.calls| && j != i && b.jobs[j] == B.Writes(path) ==> !b.tasks[j].Running?
  {
    var w := Run(s, steps);
    var b := w.phase.batch;
    EveryRunOk(s, steps);
    ReadyExactly(s, w, i);
    assert b.jobs[i] == JobOf(s, w.prepared[i]);
    assert B.LockOk(b, path) && B.OnPath(b, path, i);
  }

  /** The finished batch has run the writes that were let through in call order, and nothing else. */
  lemma BatchOfCallsIsSerial(s: Setup, steps: seq<Step>)
    requires Run(s, steps).phase.Executing? && B.Done(Run(s, steps).phase.batch)
    ensures var w := Run(s, steps); var b := w.phase.batch; var jobs := Jobs(s, w.prepared);
      && |b.tasks| == |jobs| == |s.calls|
      && b.jobs == jobs
      && (forall p :: p !in b.loose ==> B.ContentOf(b.files, p) == B.SerialContent(jobs, s.effect, s.files, p, |jobs|))
      && (forall i :: 0 <= i < |jobs| && B.LockedWrite(b, i) ==> b.tasks[i] == B.Finished(B.SerialResult(jobs, s.effect, s.files, i)))
      && (forall i :: 0 <= i < |jobs| && jobs[i].Refused? ==> b.tasks[i] == B.Finished(jobs[i].result))
      && (forall i :: 0 <= i < |jobs| ==> (jobs[i].Refused? <==> !LetThrough(s, w, i)))
  {
    var w := Run(s, steps);
    var b := w.phase.batch;
    EveryRunOk(s, steps);
    B.DoneIsSerial(b, s.effect, s.files);
    forall i | 0 <= i < |w.prepared| ensures Jobs(s, w.prepared)[i].Refused? <==> !LetThrough(s, w, i) { ReadyExactly(s, w, i); }
  }
}
