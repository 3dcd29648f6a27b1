/**
  What a call of the admission machine gets, one step at a time and over whole runs: the permit it
  asks for, the reason it is refused, and who is woken when a permit comes back.
*/
module AdmissionOutcomes {
  import opened SeqSums
  import opened Admission

  /** The semaphore a call that is still on its way asks next. */
  function Wanted(call: Call): nat
    requires call.phase.Trying? || call.phase.Sleeping?
  {
    call.SemAt(call.phase.tier)
  }

  /** This step lets call `c` look at its tier's semaphore: for the first time, or after a wake. */
  predicate Asks(sys: System, step: Step, c: nat) {
    && c < |sys.calls|
    && (var p := sys.calls[c].phase;
        (step == Try(c) && p.Trying?) || (step == Resume(c) && p.Sleeping? && p.fut == Woken))
  }

  /** This step finds the deadline of call `c` passed. */
  predicate OutOfTime(sys: System, step: Step, c: nat) {
    && c < |sys.calls|
    && (var p := sys.calls[c].phase;
        (step == Expire(c) && p.Trying?) || (step == Resume(c) && p.Sleeping? && p.fut == Cancelled))
  }

  // ----- the step of the call itself -----

  /**
    A call that asks is refused for shutdown exactly if the semaphore is closed, free permits or
    not; takes a permit exactly if it is open and has one; and lines up behind everybody otherwise.
  */
  lemma AskedExactly(sys: System, step: Step, c: nat)
    requires Shape(sys) && Asks(sys, step, c)
    ensures Wanted(sys.calls[c]) < |sys.sems| == |Next(sys, step).sems| && c < |Next(sys, step).calls|
    ensures var t := sys.calls[c].phase.tier; var u := Wanted(sys.calls[c]); var sem := sys.sems[u];
            var r := Next(sys, step); var p := r.calls[c].phase;
            && t < 3 && r.calls[c] == sys.calls[c].(phase := p)
            && (sem.closed ==> p == Refused(Shutdown))
            && (!sem.closed && sem.value > 0 ==>
                  p == (if t == 2 then Admitted else Trying(t + 1)) && r.sems[u].value == sem.value - 1)
            && (!sem.closed && sem.value == 0 ==>
                  p == Sleeping(t, Pending) && r.sems[u].value == 0 && r.sems[u].waiters == sem.waiters + [c])
  {
    var call := sys.calls[c];
    var t := call.phase.tier;
    var u := Wanted(call);
    assert CallOk(sys, call) && SemOk(sys, u);
    if step.Try? {
      NotAsleepIsLoose(sys, c);
      if sys.sems[u].closed { RefuseShape(sys, c, t, Shutdown); }
    } else {
      NotQueued(sys, c);
      UnqueueShape(sys, c);
      if sys.sems[u].closed { RefuseShape(Unqueue(sys, c, u), c, t, Shutdown); }
    }
  }

  /** A woken call is in no queue, so leaving its queue changes nothing. */
  lemma NotQueued(sys: System, c: nat)
    requires Shape(sys) && c < |sys.calls| && sys.calls[c].phase.Sleeping? && sys.calls[c].phase.fut == Woken
    requires Wanted(sys.calls[c]) < |sys.sems|
    ensures Unqueue(sys, c, Wanted(sys.calls[c])) == sys
  {
    var u := Wanted(sys.calls[c]);
    NotAsleepIsLoose(sys, c);
    AbsentStays(sys.sems[u].waiters, c);
  }

  lemma {:induction false} AbsentStays(xs: seq<nat>, x: nat)
    requires x !in xs
    ensures Without(xs, x) == xs
  {
    if xs != [] {
      AbsentStays(xs[1..], x);
      assert xs == [xs[0]] + xs[1..];
    }
  }

  lemma OutOfTimeRefuses(sys: System, step: Step, c: nat)
    requires Shape(sys) && OutOfTime(sys, step, c)
    ensures c < |Next(sys, step).calls| && Next(sys, step).calls[c] == sys.calls[c].(phase := Refused(Timeout))
  {
    var t := sys.calls[c].phase.tier;
    assert CallOk(sys, sys.calls[c]);
    if step.Expire? {
      NotAsleepIsLoose(sys, c);
      RefuseShape(sys, c, t, Timeout);
    } else {
      UnqueueShape(sys, c);
      RefuseShape(Unqueue(sys, c, Wanted(sys.calls[c])), c, t, Timeout);
    }
  }

  // ----- the steps of everybody else -----

  /** What may befall a call that neither asks nor runs out of time in this step. */
  predicate Bystands(sys: System, step: Step, c: nat, r: System)
    requires c < |sys.calls|
  {
    && c < |r.calls|
    && (var p := sys.calls[c].phase; var p' := r.calls[c].phase;
        && r.calls[c] == sys.calls[c].(phase := p')
        && (p' == p
            || (step == TimerFires(c) && p.Sleeping? && p' == Sleeping(p.tier, Cancelled))
            || (step == Release(c) && p == Admitted && p' == Released)
            || (sys.calls[c].Blocked() && p' == Sleeping(p.tier, Woken))))
  }

  lemma BystanderSteps(sys: System, step: Step, c: nat)
    requires Shape(sys) && c < |sys.calls| && !Asks(sys, step, c) && !OutOfTime(sys, step, c)
    ensures Bystands(sys, step, c, Next(sys, step))
  {
    hide SemOk, Attempt, Refuse, ReleaseGuard, CloseSem;
    match step
    case Try(d) =>
      if d < |sys.calls| && CallOk(sys, sys.calls[d]) && sys.calls[d].phase.Trying? {
        NotAsleepIsLoose(sys, d);
        AttemptOnlyWakes(sys, d, sys.calls[d].phase.tier, c);
      }
    case Expire(d) =>
      if d < |sys.calls| && CallOk(sys, sys.calls[d]) && sys.calls[d].phase.Trying? {
        NotAsleepIsLoose(sys, d);
        RefuseShape(sys, d, sys.calls[d].phase.tier, Timeout);
      }
    case Resume(d) =>
      if d < |sys.calls| && CallOk(sys, sys.calls[d]) && sys.calls[d].phase.Sleeping? && sys.calls[d].phase.fut != Pending {
        ResumeOnlyWakes(sys, d, c);
      }
    case Release(d) =>
      if d < |sys.calls| && CallOk(sys, sys.calls[d]) && sys.calls[d].phase == Admitted { GuardOnlyWakes(sys, d); }
    case Close(s) => if s < |sys.sems| { CloseShape(sys, s); }
    case Connect(_, _) =>
    case EnsureSession(_, _) =>
    case RemoveSession(_, _) =>
    case Admit(_, _) =>
    case TimerFires(_) =>
  }

  lemma AttemptOnlyWakes(sys: System, d: nat, t: nat, c: nat)
    requires Shape(sys) && d < |sys.calls| && CallOk(sys, sys.calls[d]) && Loose(sys, d) && t < 3
    requires c < |sys.calls| && c != d
    ensures c < |Attempt(sys, d, t).calls|
    ensures Attempt(sys, d, t).calls[c] == sys.calls[c]
            || (sys.calls[c].Blocked() && Attempt(sys, d, t).calls[c] == sys.calls[c].(phase := Sleeping(sys.calls[c].phase.tier, Woken)))
  {
    if sys.sems[sys.calls[d].SemAt(t)].closed { RefuseShape(sys, d, t, Shutdown); }
  }

  lemma ResumeOnlyWakes(sys: System, d: nat, c: nat)
    requires Shape(sys) && d < |sys.calls| && CallOk(sys, sys.calls[d]) && sys.calls[d].phase.Sleeping? && sys.calls[d].phase.fut != Pending
    requires c < |sys.calls| && c != d
    ensures Bystands(sys, Resume(d), c, Next(sys, Resume(d)))
  {
    hide Shape, Attempt, Refuse;
    var t := sys.calls[d].phase.tier;
    UnqueueShape(sys, d);
    var out := Unqueue(sys, d, sys.calls[d].SemAt(t));
    if sys.calls[d].phase.fut == Cancelled { RefuseShape(out, d, t, Timeout); } else { AttemptOnlyWakes(out, d, t, c); }
  }

  lemma OnlyWokeTwice(a: System, b: System, c: System)
    requires OnlyWoke(a, b) && OnlyWoke(b, c)
    ensures OnlyWoke(a, c)
  {
  }

  lemma GuardOnlyWakes(sys: System, d: nat)
    requires Shape(sys) && d < |sys.calls| && CallOk(sys, sys.calls[d]) && sys.calls[d].phase == Admitted
    ensures OnlyWoke(SetPhase(sys, d, Released), ReleaseGuard(sys, d))
  {
    hide ReleaseSem, OnlyWoke;
    var call := sys.calls[d];
    var s0 := SetPhase(sys, d, Released);
    NotAsleepIsLoose(sys, d);
    SetPhaseShape(sys, d, Released);
    ReleaseShape(s0, call.global);
    var s1 := ReleaseSem(s0, call.global);
    WokeKeepsCount(s0, s1);
    ReleaseShape(s1, call.conn);
    var s2 := ReleaseSem(s1, call.conn);
    WokeKeepsCount(s1, s2);
    ReleaseShape(s2, call.session);
    OnlyWokeTwice(s0, s1, s2);
    OnlyWokeTwice(s0, s2, ReleaseSem(s2, call.session));
  }

  lemma WokeKeepsCount(a: System, b: System)
    requires OnlyWoke(a, b)
    ensures |b.sems| == |a.sems| && |b.calls| == |a.calls|
  {
  }

  // ----- refusals -----

  /** Whether a call is refused, and why, read off the step that did it. */
  lemma RefusedExactly(sys: System, step: Step, c: nat)
    requires Shape(sys) && c < |sys.calls| && !sys.calls[c].phase.Refused?
    ensures c < |Next(sys, step).calls|
    ensures Next(sys, step).calls[c].phase == Refused(Shutdown)
            <==> Asks(sys, step, c) && Wanted(sys.calls[c]) < |sys.sems| && sys.sems[Wanted(sys.calls[c])].closed
    ensures Next(sys, step).calls[c].phase == Refused(Timeout) <==> OutOfTime(sys, step, c)
  {
    hide Next, Shape;
    if Asks(sys, step, c) {
      AskedExactly(sys, step, c);
    } else if OutOfTime(sys, step, c) {
      OutOfTimeRefuses(sys, step, c);
    } else {
      BystanderSteps(sys, step, c);
    }
  }

  /** A refusal at the end of a run goes back to the one step that decided it. */
  lemma {:induction false} RefusalHasItsStep(globalCap: nat, steps: seq<Step>, c: nat) returns (i: nat)
    requires c < |Run(Init(globalCap), steps).calls| && Run(Init(globalCap), steps).calls[c].phase.Refused?
    ensures i < |steps| && c < |Run(Init(globalCap), steps[..i]).calls|
    ensures var sys := Run(Init(globalCap), steps[..i]);
            match Run(Init(globalCap), steps).calls[c].phase.why
            case Timeout => OutOfTime(sys, steps[i], c)
            case Shutdown => Asks(sys, steps[i], c) && Wanted(sys.calls[c]) < |sys.sems| && sys.sems[Wanted(sys.calls[c])].closed
    decreases |steps|
  {
    hide Next, Shape, Asks, OutOfTime;
    if steps == [] {
      assert false;
    } else {
      var front := steps[..|steps| - 1];
      var step := steps[|steps| - 1];
      var sys := Run(Init(globalCap), front);
      EveryRunKeepsLedger(globalCap, front);
      if c < |sys.calls| && sys.calls[c].phase.Refused? {
        FinishedStays(sys, step, c);
        i := RefusalHasItsStep(globalCap, front, c);
        assert front[..i] == steps[..i];
      } else {
        i := |front|;
        NewCallsAreTrying(sys, step, c);
        RefusedExactly(sys, step, c);
      }
    }
  }

  /** Two states with as many calls and the same semaphores, up to permits and queues. */
  predicate SameBuild(a: System, b: System) {
    && |b.calls| == |a.calls| && |b.sems| == |a.sems| && b.conns == a.conns
    && forall u: nat :: u < |a.sems| ==> SameSem(a.sems[u], b.sems[u]) && b.sems[u].closed == a.sems[u].closed
  }

  lemma ReleaseBuilds(sys: System, s: nat)
    requires s < |sys.sems|
    ensures SameBuild(sys, ReleaseSem(sys, s))
  {
  }

  lemma BuildTwice(a: System, b: System, c: System)
    requires SameBuild(a, b) && SameBuild(b, c)
    ensures SameBuild(a, c)
  {
  }

  lemma RefuseBuilds(sys: System, c: nat, t: nat, why: Overloaded)
    requires c < |sys.calls| && CallOk(sys, sys.calls[c])
    ensures SameBuild(sys, Refuse(sys, c, t, why))
  {
    var call := sys.calls[c];
    var s0 := SetPhase(sys, c, Refused(why));
    if t >= 1 {
      ReleaseBuilds(s0, call.session);
      var s1 := ReleaseSem(s0, call.session);
      ReleaseBuilds(s1, call.conn);
      hide ReleaseSem;
      BuildTwice(s0, s1, ReleaseSem(s1, call.conn));
    }
  }

  lemma GuardBuilds(sys: System, c: nat)
    requires c < |sys.calls| && CallOk(sys, sys.calls[c])
    ensures SameBuild(sys, ReleaseGuard(sys, c))
  {
    hide ReleaseSem;
    var call := sys.calls[c];
    var s0 := SetPhase(sys, c, Released);
    ReleaseBuilds(s0, call.global);
    var s1 := ReleaseSem(s0, call.global);
    ReleaseBuilds(s1, call.conn);
    var s2 := ReleaseSem(s1, call.conn);
    ReleaseBuilds(s2, call.session);
    BuildTwice(s0, s1, s2);
    BuildTwice(s0, s2, ReleaseSem(s2, call.session));
  }

  lemma AttemptBuilds(sys: System, c: nat, t: nat)
    requires c < |sys.calls| && CallOk(sys, sys.calls[c]) && t < 3
    ensures SameBuild(sys, Attempt(sys, c, t))
  {
    hide Refuse;
    if sys.sems[sys.calls[c].SemAt(t)].closed { RefuseBuilds(sys, c, t, Shutdown); }
  }

  /** A step of a call, or of its timer, makes and closes nothing. */
  lemma CallStepBuilds(sys: System, step: Step)
    requires step.Try? || step.Expire? || step.TimerFires? || step.Resume? || step.Release?
    ensures SameBuild(sys, Next(sys, step))
  {
    hide Attempt, Refuse, ReleaseGuard;
    var c := step.c;
    if c < |sys.calls| && CallOk(sys, sys.calls[c]) {
      match sys.calls[c].phase
      case Trying(t) => AttemptBuilds(sys, c, t); RefuseBuilds(sys, c, t, Timeout);
      case Sleeping(t, _) =>
        var out := Unqueue(sys, c, sys.calls[c].SemAt(t));
        AttemptBuilds(out, c, t);
        RefuseBuilds(out, c, t, Timeout);
      case Admitted => GuardBuilds(sys, c);
      case Released =>
      case Refused(_) =>
    }
  }

  /** Calls are added one at a time, about to ask their first tier. */
  lemma NewCallsAreTrying(sys: System, step: Step, c: nat)
    requires c < |Next(sys, step).calls|
    ensures c < |sys.calls| || Next(sys, step).calls[c].phase == Trying(0)
  {
    hide Attempt, Refuse, ReleaseGuard, CloseSem;
    if step.Try? || step.Expire? || step.TimerFires? || step.Resume? || step.Release? {
      CallStepBuilds(sys, step);
    } else if step.Close? && step.s < |sys.sems| {
      CloseBuilds(sys, step.s, 0);
    }
  }

  // ----- closing -----

  lemma CloseBuilds(sys: System, s: nat, u: nat)
    requires s < |sys.sems|
    ensures |CloseSem(sys, s).sems| == |sys.sems| && |CloseSem(sys, s).calls| == |sys.calls|
    ensures u < |sys.sems| ==> (CloseSem(sys, s).sems[u].closed <==> sys.sems[u].closed || u == s)
  {
    WakeAllCalls(sys.(sems := sys.sems[s := sys.sems[s].(closed := true, waiters := [])]), sys.sems[s].waiters);
  }

  /** A semaphore is closed by `Close` alone, and for good. */
  lemma ClosedExactly(sys: System, step: Step, u: nat)
    requires u < |sys.sems|
    ensures u < |Next(sys, step).sems| && (Next(sys, step).sems[u].closed <==> sys.sems[u].closed || step == Close(u))
  {
    hide Attempt, Refuse, ReleaseGuard, CloseSem;
    if step.Try? || step.Expire? || step.TimerFires? || step.Resume? || step.Release? {
      CallStepBuilds(sys, step);
    } else if step.Close? && step.s < |sys.sems| {
      CloseBuilds(sys, step.s, u);
    }
  }

  /** Permits can be added to what call `c` holds at `u` only by asking `u` while it is open. */
  lemma HoldsNoMore(sys: System, step: Step, c: nat, u: nat)
    requires Shape(sys) && u < |sys.sems| && sys.sems[u].closed && c < |sys.calls|
    ensures c < |Next(sys, step).calls| && HeldBy(u)(Next(sys, step).calls[c]) <= HeldBy(u)(sys.calls[c])
  {
    hide Next, Shape;
    if Asks(sys, step, c) {
      AskedExactly(sys, step, c);
    } else if OutOfTime(sys, step, c) {
      OutOfTimeRefuses(sys, step, c);
    } else {
      BystanderSteps(sys, step, c);
    }
  }

  lemma {:induction false} SumNoMore(xs: seq<Call>, ys: seq<Call>, f: Call -> nat)
    requires |xs| <= |ys|
    requires forall i: nat :: i < |xs| ==> f(ys[i]) <= f(xs[i])
    requires forall i: nat :: |xs| <= i < |ys| ==> f(ys[i]) == 0
    ensures Sum(ys, f) <= Sum(xs, f)
  {
    if xs == [] {
      SumZero(ys, f);
    } else {
      assert f(ys[0]) <= f(xs[0]);
      var xs', ys' := xs[1..], ys[1..];
      forall i: nat | i < |xs'| ensures f(ys'[i]) <= f(xs'[i]) { assert xs'[i] == xs[i + 1] && ys'[i] == ys[i + 1]; }
      forall i: nat | |xs'| <= i < |ys'| ensures f(ys'[i]) == 0 { assert ys'[i] == ys[i + 1]; }
      SumNoMore(xs', ys', f);
    }
  }

  lemma ClosedStepGrowsNoMore(sys: System, step: Step, u: nat)
    requires Shape(sys) && u < |sys.sems| && sys.sems[u].closed
    ensures Held(Next(sys, step), u) <= Held(sys, u)
  {
    var r := Next(sys, step);
    CallsStay(sys, step);
    hide Next, Shape;
    forall c: nat | c < |sys.calls| ensures HeldBy(u)(r.calls[c]) <= HeldBy(u)(sys.calls[c]) { HoldsNoMore(sys, step, c, u); }
    forall c: nat | |sys.calls| <= c < |r.calls| ensures HeldBy(u)(r.calls[c]) == 0 { NewCallsAreTrying(sys, step, c); }
    SumNoMore(sys.calls, r.calls, HeldBy(u));
  }

  lemma CallsStay(sys: System, step: Step)
    ensures |sys.calls| <= |Next(sys, step).calls|
  {
    hide Attempt, Refuse, ReleaseGuard, CloseSem;
    if step.Try? || step.Expire? || step.TimerFires? || step.Resume? || step.Release? {
      CallStepBuilds(sys, step);
    } else if step.Close? && step.s < |sys.sems| {
      CloseBuilds(sys, step.s, 0);
    }
  }

  /** Once closed, a semaphore stays closed and its permits only run out, whatever happens next. */
  lemma {:induction false} ClosedRunsDry(sys: System, steps: seq<Step>, u: nat)
    requires Shape(sys) && u < |sys.sems| && sys.sems[u].closed
    ensures var r := Run(sys, steps); Shape(r) && u < |r.sems| && r.sems[u].closed && Held(r, u) <= Held(sys, u)
    decreases |steps|
  {
    if steps != [] {
      var front := steps[..|steps| - 1];
      ClosedRunsDry(sys, front, u);
      var mid := Run(sys, front);
      NextShape(mid, steps[|front|]);
      ClosedExactly(mid, steps[|front|], u);
      ClosedStepGrowsNoMore(mid, steps[|front|], u);
    }
  }

  lemma {:induction false} RunAppend(sys: System, before: seq<Step>, after: seq<Step>)
    ensures Run(sys, before + after) == Run(Run(sys, before), after)
    decreases |after|
  {
    if after == [] {
      assert before + after == before;
    } else {
      var all := before + after;
      assert all[..|all| - 1] == before + after[..|after| - 1];
      RunAppend(sys, before, after[..|after| - 1]);
    }
  }

  /**
    From the moment a semaphore is closed: its permits only run out, and every call that asks it,
    first or after a wake, is refused for shutdown, whether or not a permit is free.
  */
  lemma AfterClose(globalCap: nat, before: seq<Step>, u: nat, after: seq<Step>)
    requires u < |Run(Init(globalCap), before).sems|
    ensures var r := Run(Init(globalCap), before + [Close(u)] + after);
            && u < |r.sems| && r.sems[u].closed
            && Held(r, u) <= Held(Run(Init(globalCap), before), u)
            && forall step: Step, c: nat :: Asks(r, step, c) && Wanted(r.calls[c]) == u ==>
                 c < |Next(r, step).calls| && Next(r, step).calls[c].phase == Refused(Shutdown)
  {
    hide Next, Held, Run, Shape;
    EveryRunKeepsLedger(globalCap, before);
    var sys := Run(Init(globalCap), before);
    RunSnoc(Init(globalCap), before, Close(u));
    RunAppend(Init(globalCap), before + [Close(u)], after);
    ShutHolds(sys, u);
    ClosedRunsDry(Next(sys, Close(u)), after, u);
    var r := Run(Next(sys, Close(u)), after);
    forall step: Step, c: nat | Asks(r, step, c) && Wanted(r.calls[c]) == u
      ensures c < |Next(r, step).calls| && Next(r, step).calls[c].phase == Refused(Shutdown)
    {
      AskedExactly(r, step, c);
    }
  }

  lemma ShutHolds(sys: System, u: nat)
    requires Shape(sys) && u < |sys.sems|
    ensures var shut := Next(sys, Close(u));
            Shape(shut) && u < |shut.sems| && shut.sems[u].closed && Held(shut, u) <= Held(sys, u)
  {
    NextShape(sys, Close(u));
    ClosedExactly(sys, Close(u), u);
    CloseShape(sys, u);
    SumNoMore(sys.calls, Next(sys, Close(u)).calls, HeldBy(u));
  }

  // ----- who is woken -----

  /** `d` is in the queue `ws`, and nobody ahead of it is still asleep. */
  predicate Heads(sys: System, ws: seq<nat>, d: nat) {
    exists i: nat :: i < |ws| && ws[i] == d && forall j: nat :: j < i ==> !(ws[j] < |sys.calls| && sys.calls[ws[j]].Blocked())
  }

  predicate FirstInLine(sys: System, u: nat, d: nat)
    requires u < |sys.sems|
  {
    Heads(sys, sys.sems[u].waiters, d)
  }

  /** From `sys` to `r` one permit came back to every open semaphore of `us`; what that did to sleeper `d` of `u`. */
  predicate Served(sys: System, r: System, d: nat, u: nat, us: set<nat>)
    requires d < |sys.calls| && u < |sys.sems|
  {
    && d < |r.calls| && |r.sems| == |sys.sems| && r.sems[u].closed == sys.sems[u].closed
    && (var hit := u in us && !sys.sems[u].closed;
        && r.sems[u].value == sys.sems[u].value + (if hit then 1 else 0)
        && r.calls[d] == WokenIf(sys.calls[d], hit && FirstInLine(sys, u, d)))
    && (u !in us ==> r.sems[u] == sys.sems[u] && (FirstInLine(r, u, d) <==> FirstInLine(sys, u, d)))
  }

  predicate SleepsAt(sys: System, d: nat, u: nat) {
    d < |sys.calls| && u < |sys.sems| && sys.calls[d].Blocked() && Wanted(sys.calls[d]) == u
  }

  /** `release` wakes the sleeper at the head of the line and leaves the other lines alone. */
  lemma ReleaseServes(sys: System, s: nat, d: nat, u: nat)
    requires Shape(sys) && s < |sys.sems| && SleepsAt(sys, d, u)
    ensures Served(sys, ReleaseSem(sys, s), d, u, {s})
  {
    assert SemOk(sys, s) && SemOk(sys, u) && Queued(sys, d);
    hide Shape, ReleaseSem;
    if sys.sems[s].closed {
      ClosedReleaseIsNoOp(sys, s);
    } else if u == s {
      OwnReleaseServes(sys, d, u);
    } else {
      OtherReleaseServes(sys, s, d, u);
    }
  }

  lemma ClosedReleaseIsNoOp(sys: System, s: nat)
    requires s < |sys.sems| && sys.sems[s].closed
    ensures ReleaseSem(sys, s) == sys
  {
  }

  lemma OwnReleaseServes(sys: System, d: nat, u: nat)
    requires u < |sys.sems| && SemOk(sys, u) && SleepsAt(sys, d, u) && !sys.sems[u].closed && d in sys.sems[u].waiters
    ensures Served(sys, ReleaseSem(sys, u), d, u, {u})
  {
    hide SemOk, ReleaseSem, FirstPending;
    var k := ReleaseFrame(sys, u);
    var ws := sys.sems[u].waiters;
    var i :| 0 <= i < |ws| && ws[i] == d;
    assert k <= i;
    if ws[k] == d {
      assert FirstInLine(sys, u, d);
    } else {
      assert !FirstInLine(sys, u, d);
    }
  }

  lemma OtherReleaseServes(sys: System, s: nat, d: nat, u: nat)
    requires s < |sys.sems| && SleepsAt(sys, d, u) && u != s && SemOk(sys, s) && SemOk(sys, u) && !sys.sems[s].closed
    ensures Served(sys, ReleaseSem(sys, s), d, u, {s})
  {
    hide ReleaseSem, FirstPending;
    var r := ReleaseSem(sys, s);
    var k := ReleaseFrame(sys, s);
    var ws := sys.sems[s].waiters;
    if k < |ws| {
      assert ws[k] in ws;
      assert WaiterOk(sys, s, ws[k]);
    }
    forall w | w in sys.sems[u].waiters
      ensures (w < |r.calls| && r.calls[w].Blocked()) <==> (w < |sys.calls| && sys.calls[w].Blocked())
    {
      assert WaiterOk(sys, u, w);
    }
    SameLine(sys, r, sys.sems[u].waiters, d);
  }

  lemma SameLine(a: System, b: System, ws: seq<nat>, d: nat)
    requires forall w :: w in ws ==> ((w < |b.calls| && b.calls[w].Blocked()) <==> (w < |a.calls| && a.calls[w].Blocked()))
    ensures Heads(b, ws, d) <==> Heads(a, ws, d)
  {
  }

  /** One more release, of another semaphore, serves one more line. */
  lemma ServedMore(sys: System, m: System, d: nat, u: nat, us: set<nat>, s: nat)
    requires SleepsAt(sys, d, u) && Served(sys, m, d, u, us)
    requires Shape(m) && s < |m.sems| && s !in us
    ensures Served(sys, ReleaseSem(m, s), d, u, us + {s})
  {
    hide FirstInLine;
    if m.calls[d].Blocked() {
      ReleaseServes(m, s, d, u);
    } else {
      ReleaseShape(m, s);
      assert u in us && u != s;
      OtherSemSame(m, s, u);
    }
  }

  lemma OtherSemSame(sys: System, s: nat, u: nat)
    requires s < |sys.sems| && u < |sys.sems| && u != s
    ensures |ReleaseSem(sys, s).sems| == |sys.sems| && ReleaseSem(sys, s).sems[u] == sys.sems[u]
  {
  }

  /** A phase change of a call that sleeps neither before nor after serves nobody. */
  lemma PhaseServes(sys: System, c: nat, p: Phase, d: nat, u: nat)
    requires SleepsAt(sys, d, u) && c < |sys.calls| && !sys.calls[c].Blocked() && !(p.Sleeping? && p.fut == Pending)
    ensures Served(sys, SetPhase(sys, c, p), d, u, {})
  {
    var r := SetPhase(sys, c, p);
    assert forall w: nat :: w < |sys.calls| ==> r.calls[w].Blocked() == sys.calls[w].Blocked();
  }

  lemma RefuseServes(sys: System, c: nat, t: nat, why: Overloaded, d: nat, u: nat) returns (us: set<nat>)
    requires Shape(sys) && c < |sys.calls| && CallOk(sys, sys.calls[c]) && Loose(sys, c) && !sys.calls[c].Blocked()
    requires SleepsAt(sys, d, u)
    ensures Served(sys, Refuse(sys, c, t, why), d, u, us)
  {
    hide ReleaseSem, Served, FirstInLine;
    var call := sys.calls[c];
    var s0 := SetPhase(sys, c, Refused(why));
    SetPhaseShape(sys, c, Refused(why));
    PhaseServes(sys, c, Refused(why), d, u);
    us := {};
    if t >= 1 {
      ServedMore(sys, s0, d, u, us, call.session);
      us := us + {call.session};
      if t >= 2 {
        ReleaseShape(s0, call.session);
        OnlyWokeKeepsSems(s0, ReleaseSem(s0, call.session));
        ServedMore(sys, ReleaseSem(s0, call.session), d, u, us, call.conn);
        us := us + {call.conn};
      }
    }
  }

  lemma OnlyWokeKeepsSems(a: System, b: System)
    requires OnlyWoke(a, b)
    ensures |b.sems| == |a.sems|
  {
  }

  lemma GuardServes(sys: System, c: nat, d: nat, u: nat) returns (us: set<nat>)
    requires Shape(sys) && c < |sys.calls| && CallOk(sys, sys.calls[c]) && sys.calls[c].phase == Admitted
    requires SleepsAt(sys, d, u)
    ensures Served(sys, ReleaseGuard(sys, c), d, u, us)
  {
    hide ReleaseSem, Served, FirstInLine, OnlyWoke;
    var call := sys.calls[c];
    var s0 := SetPhase(sys, c, Released);
    NotAsleepIsLoose(sys, c);
    SetPhaseShape(sys, c, Released);
    PhaseServes(sys, c, Released, d, u);
    var none: set<nat> := {};
    ServedMore(sys, s0, d, u, none, call.global);
    ReleaseShape(s0, call.global);
    var s1 := ReleaseSem(s0, call.global);
    OnlyWokeKeepsSems(s0, s1);
    ServedMore(sys, s1, d, u, none + {call.global}, call.conn);
    ReleaseShape(s1, call.conn);
    var s2 := ReleaseSem(s1, call.conn);
    OnlyWokeKeepsSems(s1, s2);
    us := none + {call.global} + {call.conn} + {call.session};
    ServedMore(sys, s2, d, u, none + {call.global} + {call.conn}, call.session);
  }

  /** What a step must leave of sleeper `d` of `u`. */
  predicate WokenWell(sys: System, r: System, closes: bool, d: nat, u: nat)
    requires d < |sys.calls| && u < |sys.sems|
  {
    && d < |r.calls| && u < |r.sems|
    && r.calls[d] == WokenIf(sys.calls[d], closes || (r.sems[u].value > sys.sems[u].value && FirstInLine(sys, u, d)))
  }

  lemma ServedIsWoken(sys: System, r: System, d: nat, u: nat, us: set<nat>)
    requires SleepsAt(sys, d, u) && Shape(sys) && Served(sys, r, d, u, us)
    ensures WokenWell(sys, r, false, d, u)
  {
    assert SemOk(sys, u) && Queued(sys, d);
  }

  lemma AttemptServes(sys: System, c: nat, t: nat, d: nat, u: nat)
    requires Shape(sys) && c < |sys.calls| && CallOk(sys, sys.calls[c]) && Loose(sys, c) && t < 3 && !sys.calls[c].Blocked()
    requires SleepsAt(sys, d, u)
    ensures WokenWell(sys, Attempt(sys, c, t), false, d, u)
  {
    hide FirstInLine, Refuse;
    if sys.sems[sys.calls[c].SemAt(t)].closed {
      var us := RefuseServes(sys, c, t, Shutdown, d, u);
      ServedIsWoken(sys, Refuse(sys, c, t, Shutdown), d, u, us);
    }
  }

  /** Leaving a queue moves nobody who is asleep out of turn. */
  lemma UnqueueKeepsLine(sys: System, c: nat, s: nat, u: nat, d: nat)
    requires s < |sys.sems| && u < |sys.sems| && c < |sys.calls| && !sys.calls[c].Blocked() && d != c
    ensures FirstInLine(Unqueue(sys, c, s), u, d) <==> FirstInLine(sys, u, d)
  {
    if s == u { WithoutKeepsLine(sys, sys.sems[u].waiters, c, d); }
  }

  lemma {:induction false} WithoutKeepsLine(sys: System, ws: seq<nat>, c: nat, d: nat)
    requires c < |sys.calls| && !sys.calls[c].Blocked() && d != c
    ensures Heads(sys, Without(ws, c), d) <==> Heads(sys, ws, d)
  {
    if ws != [] {
      HeadsStep(sys, ws[0], ws[1..], d);
      assert ws == [ws[0]] + ws[1..];
      if ws[0] != c {
        WithoutKeepsLine(sys, ws[1..], c, d);
        HeadsStep(sys, ws[0], Without(ws[1..], c), d);
      }
    }
  }

  lemma HeadsStep(sys: System, w: nat, ws: seq<nat>, d: nat)
    ensures Heads(sys, [w] + ws, d) <==> w == d || (!(w < |sys.calls| && sys.calls[w].Blocked()) && Heads(sys, ws, d))
  {
    var all := [w] + ws;
    if Heads(sys, all, d) && w != d {
      var i: nat :| i < |all| && all[i] == d && forall j: nat :: j < i ==> !(all[j] < |sys.calls| && sys.calls[all[j]].Blocked());
      assert all[0] == w;
      assert ws[i - 1] == d;
      forall j: nat | j < i - 1 ensures !(ws[j] < |sys.calls| && sys.calls[ws[j]].Blocked()) { assert ws[j] == all[j + 1]; }
    }
    if w == d { assert all[0] == d; }
    if !(w < |sys.calls| && sys.calls[w].Blocked()) && Heads(sys, ws, d) {
      var i: nat :| i < |ws| && ws[i] == d && forall j: nat :: j < i ==> !(ws[j] < |sys.calls| && sys.calls[ws[j]].Blocked());
      assert all[i + 1] == d;
      forall j: nat | j < i + 1 ensures !(all[j] < |sys.calls| && sys.calls[all[j]].Blocked()) {
        if j > 0 { assert all[j] == ws[j - 1]; }
      }
    }
  }

  lemma ResumeServes(sys: System, c: nat, d: nat, u: nat)
    requires Shape(sys) && SleepsAt(sys, d, u)
    requires c < |sys.calls| && CallOk(sys, sys.calls[c]) && sys.calls[c].phase.Sleeping? && sys.calls[c].phase.fut != Pending
    ensures WokenWell(sys, Next(sys, Resume(c)), false, d, u)
  {
    hide FirstInLine, Refuse, Attempt;
    var t := sys.calls[c].phase.tier;
    var s := sys.calls[c].SemAt(t);
    var out := Unqueue(sys, c, s);
    UnqueueShape(sys, c);
    UnqueueKeepsLine(sys, c, s, u, d);
    if sys.calls[c].phase.fut == Cancelled {
      var us := RefuseServes(out, c, t, Timeout, d, u);
      ServedIsWoken(out, Refuse(out, c, t, Timeout), d, u, us);
    } else {
      AttemptServes(out, c, t, d, u);
    }
  }

  lemma CloseWakes(sys: System, s: nat, d: nat, u: nat)
    requires Shape(sys) && SleepsAt(sys, d, u) && s < |sys.sems|
    ensures WokenWell(sys, CloseSem(sys, s), s == u, d, u)
  {
    hide FirstInLine;
    assert SemOk(sys, s) && Queued(sys, d);
    WakeAllCalls(sys.(sems := sys.sems[s := sys.sems[s].(closed := true, waiters := [])]), sys.sems[s].waiters);
    if d in sys.sems[s].waiters { assert WaiterOk(sys, s, d); }
  }

  /**
    A sleeper whose timer stays quiet is woken in exactly two cases: its semaphore is closed, or a
    permit of it comes back and everybody ahead in its queue is done sleeping.
  */
  lemma WokenExactly(sys: System, step: Step, d: nat)
    requires Shape(sys) && d < |sys.calls| && sys.calls[d].Blocked() && step != TimerFires(d)
    ensures var u := Wanted(sys.calls[d]);
            u < |sys.sems| && WokenWell(sys, Next(sys, step), step == Close(u), d, u)
  {
    hide FirstInLine, SemOk, Attempt, Refuse, ReleaseGuard, CloseSem, Shape;
    assert CallOk(sys, sys.calls[d]) by { ShapeOfCall(sys, d); }
    var u := Wanted(sys.calls[d]);
    match step
    case Try(c) =>
      if c < |sys.calls| && CallOk(sys, sys.calls[c]) && sys.calls[c].phase.Trying? {
        NotAsleepIsLoose(sys, c);
        AttemptServes(sys, c, sys.calls[c].phase.tier, d, u);
      }
    case Expire(c) =>
      if c < |sys.calls| && CallOk(sys, sys.calls[c]) && sys.calls[c].phase.Trying? {
        NotAsleepIsLoose(sys, c);
        var us := RefuseServes(sys, c, sys.calls[c].phase.tier, Timeout, d, u);
        ServedIsWoken(sys, Next(sys, step), d, u, us);
      }
    case Resume(c) =>
      if c < |sys.calls| && CallOk(sys, sys.calls[c]) && sys.calls[c].phase.Sleeping? && sys.calls[c].phase.fut != Pending {
        ResumeServes(sys, c, d, u);
      }
    case Release(c) =>
      if c < |sys.calls| && CallOk(sys, sys.calls[c]) && sys.calls[c].phase == Admitted {
        var us := GuardServes(sys, c, d, u);
        ServedIsWoken(sys, Next(sys, step), d, u, us);
      }
    case Close(s) => if s < |sys.sems| { CloseWakes(sys, s, d, u); }
    case Connect(_, _) =>
    case EnsureSession(_, _) =>
    case RemoveSession(_, _) =>
    case Admit(_, _) =>
    case TimerFires(_) =>
  }

  lemma ShapeOfCall(sys: System, c: nat)
    requires Shape(sys) && c < |sys.calls|
    ensures CallOk(sys, sys.calls[c])
  {
  }

  // ----- the configured limits -----

  /** The limits each connection of a run was set up with, in order: per session, then per connection. */
  function Limits(steps: seq<Step>): seq<(nat, nat)>
    decreases |steps|
  {
    if steps == [] then []
    else
      var front := Limits(steps[..|steps| - 1]);
      match steps[|steps| - 1]
      case Connect(sMax, cMax) => front + [(sMax, cMax)]
      case _ => front
  }

  /** Connection `k` has its own connection semaphore and session semaphores, sized by `limit`. */
  predicate Sized(sys: System, k: nat, limit: (nat, nat))
    requires k < |sys.conns|
  {
    var conn := sys.conns[k];
    && conn.connSem < |sys.sems| && sys.sems[conn.connSem].cap == limit.1 && conn.sessionMax == limit.0
    && forall sid :: sid in conn.sessions ==> conn.sessions[sid] < |sys.sems| && sys.sems[conn.sessions[sid]].cap == limit.0
  }

  /** No two connections, and no two sessions, share a semaphore. */
  predicate Apart(sys: System) {
    && (forall j: nat, k: nat :: j < |sys.conns| && k < |sys.conns| && j != k ==> sys.conns[j].connSem != sys.conns[k].connSem)
    && (forall j: nat, k: nat, a, b :: j < |sys.conns| && k < |sys.conns|
          && a in sys.conns[j].sessions && b in sys.conns[k].sessions && sys.conns[j].sessions[a] == sys.conns[k].sessions[b]
          ==> j == k && a == b)
  }

  /** Call `c` runs on behalf of some connection, under that connection's limit per session. */
  predicate Hosted(sys: System, call: Call) {
    && call.global == 0 && call.session < |sys.sems|
    && exists k: nat :: k < |sys.conns| && call.conn == sys.conns[k].connSem && sys.sems[call.session].cap == sys.conns[k].sessionMax
  }

  predicate Configured(sys: System, globalCap: nat, limits: seq<(nat, nat)>) {
    && |sys.sems| > 0 && sys.sems[0].cap == globalCap && |sys.conns| == |limits|
    && (forall k: nat :: k < |sys.conns| ==> Sized(sys, k, limits[k]))
    && Apart(sys)
    && (forall c: nat :: c < |sys.calls| ==> Hosted(sys, sys.calls[c]))
  }

  lemma ConfigKept(a: System, b: System, globalCap: nat, limits: seq<(nat, nat)>)
    requires Configured(a, globalCap, limits) && b.conns == a.conns && |b.sems| == |a.sems| && |b.calls| == |a.calls|
    requires forall u: nat :: u < |a.sems| ==> b.sems[u].cap == a.sems[u].cap
    requires forall c: nat :: c < |a.calls| ==> b.calls[c] == a.calls[c].(phase := b.calls[c].phase)
    ensures Configured(b, globalCap, limits)
  {
    forall k: nat | k < |b.conns| ensures Sized(b, k, limits[k]) { assert Sized(a, k, limits[k]); }
    forall c: nat | c < |b.calls| ensures Hosted(b, b.calls[c]) { assert Hosted(a, a.calls[c]); }
  }

  /** A new semaphore is nobody's yet. */
  lemma ConfigNewSem(a: System, sem: Sem, globalCap: nat, limits: seq<(nat, nat)>)
    requires Configured(a, globalCap, limits)
    ensures Configured(a.(sems := a.sems + [sem]), globalCap, limits)
  {
    var b := a.(sems := a.sems + [sem]);
    forall k: nat | k < |b.conns| ensures Sized(b, k, limits[k]) { assert Sized(a, k, limits[k]); }
    forall c: nat | c < |b.calls| ensures Hosted(b, b.calls[c]) { assert Hosted(a, a.calls[c]); }
  }

  lemma SameCalls(sys: System, step: Step)
    requires Shape(sys) && (step.Try? || step.Expire? || step.TimerFires? || step.Resume? || step.Release?)
    ensures |Next(sys, step).calls| == |sys.calls|
    ensures var r := Next(sys, step); forall c: nat :: c < |sys.calls| ==> r.calls[c] == sys.calls[c].(phase := r.calls[c].phase)
  {
    CallStepBuilds(sys, step);
    hide Next, Shape;
    forall c: nat | c < |sys.calls| ensures Next(sys, step).calls[c] == sys.calls[c].(phase := Next(sys, step).calls[c].phase) {
      if Asks(sys, step, c) {
        AskedExactly(sys, step, c);
      } else if OutOfTime(sys, step, c) {
        OutOfTimeRefuses(sys, step, c);
      } else {
        BystanderSteps(sys, step, c);
      }
    }
  }

  lemma ConnectConfigures(sys: System, sMax: nat, cMax: nat, globalCap: nat, limits: seq<(nat, nat)>)
    requires Configured(sys, globalCap, limits)
    ensures Configured(Next(sys, Connect(sMax, cMax)), globalCap, limits + [(sMax, cMax)])
  {
    var r := Next(sys, Connect(sMax, cMax));
    var n := |sys.conns|;
    var all := limits + [(sMax, cMax)];
    forall k: nat | k < |r.conns| ensures Sized(r, k, all[k]) { if k < n { assert Sized(sys, k, limits[k]); } }
    forall c: nat | c < |r.calls| ensures Hosted(r, r.calls[c]) {
      assert Hosted(sys, sys.calls[c]);
      var k: nat :| k < n && sys.calls[c].conn == sys.conns[k].connSem && sys.sems[sys.calls[c].session].cap == sys.conns[k].sessionMax;
      assert r.conns[k] == sys.conns[k];
    }
    assert Apart(r) by {
      forall k: nat | k < n ensures r.conns[k] == sys.conns[k] && r.conns[k].connSem < |sys.sems| { assert Sized(sys, k, limits[k]); }
      assert r.conns[n].connSem == |sys.sems| && r.conns[n].sessions == map[];
      forall j: nat, k: nat | j < |r.conns| && k < |r.conns| && j != k ensures r.conns[j].connSem != r.conns[k].connSem {
        if j < n && k < n { assert sys.conns[j].connSem != sys.conns[k].connSem; }
      }
    }
  }

  lemma SessionConfigures(sys: System, k: nat, sid: string, globalCap: nat, limits: seq<(nat, nat)>)
    requires Configured(sys, globalCap, limits)
    ensures Configured(Next(sys, EnsureSession(k, sid)), globalCap, limits)
    ensures Configured(Next(sys, RemoveSession(k, sid)), globalCap, limits)
  {
    forall r | r == Next(sys, EnsureSession(k, sid)) || r == Next(sys, RemoveSession(k, sid))
      ensures Configured(r, globalCap, limits)
    {
      forall j: nat | j < |r.conns| ensures Sized(r, j, limits[j]) { assert Sized(sys, j, limits[j]); }
      assert Apart(r) by { SessionsApart(sys, k, sid, r, limits); }
      forall c: nat | c < |r.calls| ensures Hosted(r, r.calls[c]) {
        assert Hosted(sys, sys.calls[c]);
        var j: nat :| j < |sys.conns| && sys.calls[c].conn == sys.conns[j].connSem && sys.sems[sys.calls[c].session].cap == sys.conns[j].sessionMax;
        assert r.conns[j].connSem == sys.conns[j].connSem;
      }
    }
  }

  lemma SessionsExist(sys: System, j: nat, limit: (nat, nat))
    requires j < |sys.conns| && Sized(sys, j, limit)
    ensures forall a :: a in sys.conns[j].sessions ==> sys.conns[j].sessions[a] < |sys.sems|
  {
  }

  lemma ConnSemsKept(sys: System, k: nat, sid: string, r: System)
    requires r == Next(sys, EnsureSession(k, sid)) || r == Next(sys, RemoveSession(k, sid))
    ensures |r.conns| == |sys.conns| && forall j: nat :: j < |sys.conns| ==> r.conns[j].connSem == sys.conns[j].connSem
  {
  }

  /** A session is bound to what it was bound to, or it has just been bound to a new semaphore. */
  lemma SessionKept(sys: System, k: nat, sid: string, r: System, i: nat, a: string)
    requires r == Next(sys, EnsureSession(k, sid)) || r == Next(sys, RemoveSession(k, sid))
    requires i < |sys.conns| == |r.conns| && a in r.conns[i].sessions
    ensures (a in sys.conns[i].sessions && r.conns[i].sessions[a] == sys.conns[i].sessions[a])
            || (i == k && a == sid && r.conns[i].sessions[a] == |sys.sems|)
  {
  }

  lemma SessionsApart(sys: System, k: nat, sid: string, r: System, limits: seq<(nat, nat)>)
    requires Apart(sys) && |sys.conns| == |limits| && forall j: nat :: j < |sys.conns| ==> Sized(sys, j, limits[j])
    requires r == Next(sys, EnsureSession(k, sid)) || r == Next(sys, RemoveSession(k, sid))
    ensures Apart(r)
  {
    ConnSemsKept(sys, k, sid, r);
    hide Next, Sized;
    forall j: nat | j < |sys.conns|
      ensures forall a :: a in sys.conns[j].sessions ==> sys.conns[j].sessions[a] < |sys.sems|
    {
      SessionsExist(sys, j, limits[j]);
    }
    forall i: nat, j: nat, a, b | i < |r.conns| && j < |r.conns| && a in r.conns[i].sessions && b in r.conns[j].sessions
        && r.conns[i].sessions[a] == r.conns[j].sessions[b]
      ensures i == j && a == b
    {
      SessionKept(sys, k, sid, r, i, a);
      SessionKept(sys, k, sid, r, j, b);
    }
  }

  lemma AdmitConfigures(sys: System, k: nat, sid: string, globalCap: nat, limits: seq<(nat, nat)>)
    requires Configured(sys, globalCap, limits)
    ensures Configured(Next(sys, Admit(k, sid)), globalCap, limits)
  {
    if k < |sys.conns| {
      assert Sized(sys, k, limits[k]);
      var r := Next(sys, Admit(k, sid));
      forall j: nat | j < |r.conns| ensures Sized(r, j, limits[j]) { assert Sized(sys, j, limits[j]); }
      forall c: nat | c < |r.calls| ensures Hosted(r, r.calls[c]) {
        if c < |sys.calls| {
          assert Hosted(sys, sys.calls[c]);
        } else {
          assert r.calls[c].conn == r.conns[k].connSem;
        }
      }
    }
  }

  /** In every run each tier has the capacity it was configured with, and every call runs under its own tiers. */
  lemma {:induction false} TiersAsConfigured(globalCap: nat, steps: seq<Step>)
    ensures Configured(Run(Init(globalCap), steps), globalCap, Limits(steps))
    decreases |steps|
  {
    if steps != [] {
      var front := steps[..|steps| - 1];
      var step := steps[|steps| - 1];
      TiersAsConfigured(globalCap, front);
      EveryRunKeepsLedger(globalCap, front);
      StepConfigures(Run(Init(globalCap), front), step, globalCap, Limits(front));
    }
  }

  lemma StepConfigures(sys: System, step: Step, globalCap: nat, limits: seq<(nat, nat)>)
    requires Shape(sys) && Configured(sys, globalCap, limits)
    ensures Configured(Next(sys, step), globalCap, if step.Connect? then limits + [(step.sessionMax, step.connMax)] else limits)
  {
    hide Configured, Shape, Attempt, Refuse, ReleaseGuard, CloseSem;
    match step
    case Connect(sMax, cMax) => ConnectConfigures(sys, sMax, cMax, globalCap, limits);
    case EnsureSession(k, sid) => SessionConfigures(sys, k, sid, globalCap, limits);
    case RemoveSession(k, sid) => SessionConfigures(sys, k, sid, globalCap, limits);
    case Admit(k, sid) => AdmitConfigures(sys, k, sid, globalCap, limits);
    case Close(s) =>
      if s < |sys.sems| {
        CloseShape(sys, s);
        ConfigKept(sys, CloseSem(sys, s), globalCap, limits);
      }
    case _ =>
      CallStepBuilds(sys, step);
      SameCalls(sys, step);
      ConfigKept(sys, Next(sys, step), globalCap, limits);
  }

  /** The calls a semaphore's owner sees running: those it admitted that have not been released. */
  function RunningUnder(sys: System, u: nat): nat {
    Sum(sys.calls, (c: Call) => if c.phase == Admitted && (c.session == u || c.conn == u || c.global == u) then 1 else 0)
  }

  lemma {:induction false} SumBelow<T>(xs: seq<T>, f: T -> nat, g: T -> nat)
    requires forall x :: f(x) <= g(x)
    ensures Sum(xs, f) <= Sum(xs, g)
  {
    if xs != [] {
      assert f(xs[0]) <= g(xs[0]);
      SumBelow(xs[1..], f, g);
    }
  }

  /**
    However the run went: at most `globalCap` calls run at once in the process, at most the second
    limit of each connection on that connection, and at most its first in each of its bound sessions.
  */
  lemma LimitsHold(globalCap: nat, steps: seq<Step>)
    ensures var sys := Run(Init(globalCap), steps);
            && RunningUnder(sys, 0) <= globalCap && |sys.conns| == |Limits(steps)|
            && forall k: nat :: k < |sys.conns| ==>
                 && RunningUnder(sys, sys.conns[k].connSem) <= Limits(steps)[k].1
                 && forall sid :: sid in sys.conns[k].sessions ==> RunningUnder(sys, sys.conns[k].sessions[sid]) <= Limits(steps)[k].0
  {
    hide Run;
    var sys := Run(Init(globalCap), steps);
    TiersAsConfigured(globalCap, steps);
    forall u: nat | u < |sys.sems| ensures RunningUnder(sys, u) <= sys.sems[u].cap {
      NeverOversubscribed(globalCap, steps, u);
      SumBelow(sys.calls, (c: Call) => if c.phase == Admitted && (c.session == u || c.conn == u || c.global == u) then 1 else 0, HeldBy(u));
    }
    forall k: nat | k < |sys.conns|
      ensures && RunningUnder(sys, sys.conns[k].connSem) <= Limits(steps)[k].1
              && forall sid :: sid in sys.conns[k].sessions ==> RunningUnder(sys, sys.conns[k].sessions[sid]) <= Limits(steps)[k].0
    {
      assert Sized(sys, k, Limits(steps)[k]);
    }
  }

  /**
    A call is admitted under its connection and under the semaphore its session is bound to; after
    the session is unbound it gets one of the session's size that no session and no other call uses.
  */
  lemma AdmittedUnder(globalCap: nat, steps: seq<Step>, k: nat, sid: string)
    requires k < |Run(Init(globalCap), steps).conns|
    ensures var sys := Run(Init(globalCap), steps); var r := Next(sys, Admit(k, sid));
            && |r.calls| == |sys.calls| + 1 && r.conns == sys.conns
            && (var call := r.calls[|sys.calls|];
                && call.phase == Trying(0) && call.conn == sys.conns[k].connSem && call.session < |r.sems|
                && (sid in sys.conns[k].sessions ==> call.session == sys.conns[k].sessions[sid])
                && (sid !in sys.conns[k].sessions ==>
                      && |Limits(steps)| == |sys.conns| && r.sems[call.session].cap == Limits(steps)[k].0
                      && (forall j: nat, x :: j < |sys.conns| && x in sys.conns[j].sessions ==> sys.conns[j].sessions[x] != call.session)
                      && (forall c: nat :: c < |sys.calls| ==> sys.calls[c].session != call.session)))
  {
    hide Run;
    var sys := Run(Init(globalCap), steps);
    TiersAsConfigured(globalCap, steps);
    EveryRunKeepsLedger(globalCap, steps);
    forall j: nat | j < |sys.conns|
      ensures Sized(sys, j, Limits(steps)[j])
      ensures forall x :: x in sys.conns[j].sessions ==> sys.conns[j].sessions[x] < |sys.sems|
    {
    }
    forall c: nat | c < |sys.calls| ensures sys.calls[c].session < |sys.sems| { assert CallOk(sys, sys.calls[c]); }
  }
}
