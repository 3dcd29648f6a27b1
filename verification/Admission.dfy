/**
  Three-tier admission of tool calls.

  A call takes one permit from a session semaphore, then one from a connection semaphore, then
  one from the process-wide semaphore, all against one deadline.  `System` is the state shared by
  every call of every connection; `Next` is one uninterrupted stretch of code between two awaits.
*/
module Admission {
  import opened SeqSums

  datatype Overloaded = Timeout | Shutdown

  /** The future a sleeping call awaits: untouched, woken, or cancelled by the deadline timer. */
  datatype Fut = Pending | Woken | Cancelled

  datatype Phase =
    | Trying(tier: nat)               // about to ask tier `tier`, holding every lower tier
    | Sleeping(tier: nat, fut: Fut)   // parked in tier `tier`'s queue, holding every lower tier
    | Admitted                        // guard handed out: all three permits held
    | Released                        // guard released
    | Refused(why: Overloaded)

  datatype Call = Call(session: nat, conn: nat, global: nat, phase: Phase) {
    function SemAt(tier: nat): nat {
      if tier == 0 then session else if tier == 1 then conn else global
    }

    function Acquired(): nat {
      match phase
      case Trying(t) => t
      case Sleeping(t, _) => t
      case Admitted => 3
      case Released => 0
      case Refused(_) => 0
    }

    predicate Live() { phase.Trying? || phase.Sleeping? || phase.Admitted? }
    predicate Blocked() { phase.Sleeping? && phase.fut == Pending }
  }

  datatype Sem = Sem(cap: nat, tier: nat, value: nat, closed: bool, waiters: seq<nat>)

  datatype Conn = Conn(connSem: nat, sessionMax: nat, sessions: map<string, nat>)

  /** `sems[0]` is the process-wide semaphore. */
  datatype System = System(sems: seq<Sem>, calls: seq<Call>, conns: seq<Conn>)

  // ----- counting permits and sleepers -----

  function HeldBy(s: nat): Call -> nat {
    (c: Call) =>
      if (c.Acquired() >= 1 && c.session == s) || (c.Acquired() >= 2 && c.conn == s) || (c.Acquired() >= 3 && c.global == s)
      then 1 else 0
  }

  function AsleepAt(s: nat, fut: Fut): Call -> nat {
    (c: Call) => if c.phase.Sleeping? && c.phase.fut == fut && c.SemAt(c.phase.tier) == s then 1 else 0
  }

  function Held(sys: System, s: nat): nat { Sum(sys.calls, HeldBy(s)) }
  function PendingAt(sys: System, s: nat): nat { Sum(sys.calls, AsleepAt(s, Pending)) }
  function WokenAt(sys: System, s: nat): nat { Sum(sys.calls, AsleepAt(s, Woken)) }

  // ----- the semaphore operations, on the shared state -----

  /** Where the wake loop of `release` stops: the first future nobody has completed. */
  function FirstPending(futs: seq<Fut>): (k: nat)
    ensures k <= |futs|
    ensures forall i :: 0 <= i < k ==> futs[i] != Pending
    ensures k < |futs| ==> futs[k] == Pending
  {
    if futs == [] || futs[0] == Pending then 0 else 1 + FirstPending(futs[1..])
  }

  function FutOf(sys: System, c: nat): Fut {
    if c < |sys.calls| && sys.calls[c].phase.Sleeping? then sys.calls[c].phase.fut else Cancelled
  }

  function Futs(sys: System, waiters: seq<nat>): (r: seq<Fut>)
    ensures |r| == |waiters|
  {
    seq(|waiters|, i requires 0 <= i < |waiters| => FutOf(sys, waiters[i]))
  }

  function SetPhase(sys: System, c: nat, p: Phase): System
    requires c < |sys.calls|
  {
    sys.(calls := sys.calls[c := sys.calls[c].(phase := p)])
  }

  function Wake(sys: System, c: nat): System {
    if c < |sys.calls| && sys.calls[c].Blocked() then SetPhase(sys, c, Sleeping(sys.calls[c].phase.tier, Woken)) else sys
  }

  function ReleaseSem(sys: System, s: nat): System
    requires s < |sys.sems|
  {
    var sem := sys.sems[s];
    if sem.closed then sys
    else
      var k := FirstPending(Futs(sys, sem.waiters));
      var rest := if k < |sem.waiters| then sem.waiters[k + 1..] else [];
      var freed := sys.(sems := sys.sems[s := sem.(value := sem.value + 1, waiters := rest)]);
      if k < |sem.waiters| then Wake(freed, sem.waiters[k]) else freed
  }

  function WakeAll(sys: System, waiters: seq<nat>): System
    decreases |waiters|
  {
    if waiters == [] then sys else WakeAll(Wake(sys, waiters[0]), waiters[1..])
  }

  function CloseSem(sys: System, s: nat): System
    requires s < |sys.sems|
  {
    var sem := sys.sems[s];
    WakeAll(sys.(sems := sys.sems[s := sem.(closed := true, waiters := [])]), sem.waiters)
  }

  /** `admit` gives up at tier `t`: session and connection permits already taken go back, in that order. */
  function Refuse(sys: System, c: nat, t: nat, why: Overloaded): System
    requires c < |sys.calls|
    requires sys.calls[c].session < |sys.sems| && sys.calls[c].conn < |sys.sems|
  {
    var call := sys.calls[c];
    var s0 := SetPhase(sys, c, Refused(why));
    var s1 := if t >= 1 then ReleaseSem(s0, call.session) else s0;
    if t >= 2 then ReleaseSem(s1, call.conn) else s1
  }

  /** `AdmitGuard.release`, the first time: global, then connection, then session. */
  function ReleaseGuard(sys: System, c: nat): System
    requires c < |sys.calls| && CallOk(sys, sys.calls[c])
  {
    var call := sys.calls[c];
    ReleaseSem(ReleaseSem(ReleaseSem(SetPhase(sys, c, Released), call.global), call.conn), call.session)
  }

  /** One pass of the loop in `acquire`, at tier `t`. */
  function Attempt(sys: System, c: nat, t: nat): System
    requires c < |sys.calls|
    requires forall u: nat :: u < 3 ==> sys.calls[c].SemAt(u) < |sys.sems|
    requires t < 3
  {
    var s := sys.calls[c].SemAt(t);
    var sem := sys.sems[s];
    assert sys.calls[c].SemAt(0) < |sys.sems| && sys.calls[c].SemAt(1) < |sys.sems|;
    if sem.closed then Refuse(sys, c, t, Shutdown)
    else if sem.value > 0 then
      SetPhase(sys.(sems := sys.sems[s := sem.(value := sem.value - 1)]), c, if t == 2 then Admitted else Trying(t + 1))
    else
      SetPhase(sys.(sems := sys.sems[s := sem.(waiters := sem.waiters + [c])]), c, Sleeping(t, Pending))
  }

  /** The `finally` of the sleep: drop this call from the queue if it is still there. */
  function Unqueue(sys: System, c: nat, s: nat): System
    requires s < |sys.sems|
  {
    sys.(sems := sys.sems[s := sys.sems[s].(waiters := Without(sys.sems[s].waiters, c))])
  }

  function Without(xs: seq<nat>, x: nat): (r: seq<nat>)
    ensures forall y :: y in r ==> y in xs
  {
    if xs == [] then [] else if xs[0] == x then xs[1..] else [xs[0]] + Without(xs[1..], x)
  }

  // ----- the transition system -----

  datatype Step =
    | Connect(sessionMax: nat, connMax: nat)
    | EnsureSession(conn: nat, sid: string)
    | RemoveSession(conn: nat, sid: string)
    | Admit(conn: nat, sid: string)
    | Try(c: nat)           // the next tier is asked before the deadline
    | Expire(c: nat)        // the next tier is asked after the deadline
    | TimerFires(c: nat)    // the deadline timer hits a sleeping call
    | Resume(c: nat)        // a woken or cancelled call runs again
    | Release(c: nat)       // the guard's release is called
    | Close(s: nat)

  function NewSem(cap: nat, tier: nat): Sem { Sem(cap, tier, cap, false, []) }

  function Init(globalCap: nat): System { System([NewSem(globalCap, 2)], [], []) }

  predicate CallOk(sys: System, call: Call) {
    && call.session < |sys.sems| && sys.sems[call.session].tier == 0
    && call.conn < |sys.sems| && sys.sems[call.conn].tier == 1
    && call.global < |sys.sems| && sys.sems[call.global].tier == 2
    && (call.phase.Trying? || call.phase.Sleeping? ==> call.phase.tier < 3)
  }

  predicate ConnOk(sys: System, k: Conn) {
    && k.connSem < |sys.sems| && sys.sems[k.connSem].tier == 1
    && forall sid :: sid in k.sessions ==> k.sessions[sid] < |sys.sems| && sys.sems[k.sessions[sid]].tier == 0
  }

  function Next(sys: System, step: Step): System {
    match step
    case Connect(sMax, cMax) =>
      System(sys.sems + [NewSem(cMax, 1)], sys.calls, sys.conns + [Conn(|sys.sems|, sMax, map[])])
    case EnsureSession(k, sid) =>
      if k >= |sys.conns| || sid in sys.conns[k].sessions then sys
      else
        System(sys.sems + [NewSem(sys.conns[k].sessionMax, 0)], sys.calls,
               sys.conns[k := sys.conns[k].(sessions := sys.conns[k].sessions[sid := |sys.sems|])])
    case RemoveSession(k, sid) =>
      if k >= |sys.conns| then sys
      else sys.(conns := sys.conns[k := sys.conns[k].(sessions := sys.conns[k].sessions - {sid})])
    case Admit(k, sid) =>
      if k >= |sys.conns| then sys
      else if sid in sys.conns[k].sessions then
        sys.(calls := sys.calls + [Call(sys.conns[k].sessions[sid], sys.conns[k].connSem, 0, Trying(0))])
      else  // a straggler after unbind gets a private, untracked semaphore
        sys.(sems := sys.sems + [NewSem(sys.conns[k].sessionMax, 0)],
             calls := sys.calls + [Call(|sys.sems|, sys.conns[k].connSem, 0, Trying(0))])
    case Try(c) =>
      if c < |sys.calls| && CallOk(sys, sys.calls[c]) && sys.calls[c].phase.Trying?
      then Attempt(sys, c, sys.calls[c].phase.tier) else sys
    case Expire(c) =>
      if c < |sys.calls| && CallOk(sys, sys.calls[c]) && sys.calls[c].phase.Trying?
      then Refuse(sys, c, sys.calls[c].phase.tier, Timeout) else sys
    case TimerFires(c) =>
      if c < |sys.calls| && sys.calls[c].phase.Sleeping?
      then SetPhase(sys, c, Sleeping(sys.calls[c].phase.tier, Cancelled)) else sys
    case Resume(c) =>
      if c < |sys.calls| && CallOk(sys, sys.calls[c]) && sys.calls[c].phase.Sleeping? && sys.calls[c].phase.fut != Pending then
        var t := sys.calls[c].phase.tier;
        var out := Unqueue(sys, c, sys.calls[c].SemAt(t));
        if sys.calls[c].phase.fut == Cancelled then Refuse(out, c, t, Timeout) else Attempt(out, c, t)
      else sys
    case Release(c) =>
      if c < |sys.calls| && CallOk(sys, sys.calls[c]) && sys.calls[c].phase == Admitted then
        ReleaseGuard(sys, c)
      else sys
    case Close(s) =>
      if s < |sys.sems| then CloseSem(sys, s) else sys
  }

  function Run(sys: System, steps: seq<Step>): System
    decreases |steps|
  {
    if steps == [] then sys else Next(Run(sys, steps[..|steps| - 1]), steps[|steps| - 1])
  }

  // ----- what every reachable state keeps -----

  predicate NoDup(xs: seq<nat>) { forall i, j :: 0 <= i < j < |xs| ==> xs[i] != xs[j] }

  predicate WaiterOk(sys: System, s: nat, w: nat) {
    && w < |sys.calls| && sys.calls[w].phase.Sleeping? && sys.calls[w].phase.fut != Woken
    && sys.calls[w].SemAt(sys.calls[w].phase.tier) == s
  }

  predicate SemOk(sys: System, s: nat)
    requires s < |sys.sems|
  {
    var sem := sys.sems[s];
    sem.tier < 3 && (sem.closed ==> sem.waiters == []) && NoDup(sem.waiters) && forall w :: w in sem.waiters ==> WaiterOk(sys, s, w)
  }

  /** A call nobody has woken is in the queue of the semaphore it sleeps on. */
  predicate Queued(sys: System, c: nat)
    requires c < |sys.calls|
  {
    sys.calls[c].Blocked() ==>
      var s := sys.calls[c].SemAt(sys.calls[c].phase.tier);
      s < |sys.sems| && c in sys.sems[s].waiters
  }

  predicate Shape(sys: System) {
    && |sys.sems| > 0 && sys.sems[0].tier == 2
    && (forall s: nat :: s < |sys.sems| ==> SemOk(sys, s))
    && (forall c: nat :: c < |sys.calls| ==> CallOk(sys, sys.calls[c]) && Queued(sys, c))
    && (forall k: nat :: k < |sys.conns| ==> ConnOk(sys, sys.conns[k]))
  }

  /** Free permits plus held permits are the capacity; after a close they can only be fewer. */
  predicate LedgerAt(sys: System, u: nat)
    requires u < |sys.sems|
  {
    && sys.sems[u].value + Held(sys, u) <= sys.sems[u].cap
    && (!sys.sems[u].closed ==> sys.sems[u].value + Held(sys, u) == sys.sems[u].cap)
  }

  predicate Ledger(sys: System) {
    forall s: nat :: s < |sys.sems| ==> LedgerAt(sys, s)
  }

  lemma PhaseCounts(sys: System, c: nat, p: Phase, s: nat)
    requires c < |sys.calls|
    ensures var call' := sys.calls[c].(phase := p); var sys' := SetPhase(sys, c, p);
            && Held(sys', s) + HeldBy(s)(sys.calls[c]) == Held(sys, s) + HeldBy(s)(call')
            && PendingAt(sys', s) + AsleepAt(s, Pending)(sys.calls[c]) == PendingAt(sys, s) + AsleepAt(s, Pending)(call')
            && WokenAt(sys', s) + AsleepAt(s, Woken)(sys.calls[c]) == WokenAt(sys, s) + AsleepAt(s, Woken)(call')
  {
    var call' := sys.calls[c].(phase := p);
    SumUpdate(sys.calls, c, call', HeldBy(s));
    SumUpdate(sys.calls, c, call', AsleepAt(s, Pending));
    SumUpdate(sys.calls, c, call', AsleepAt(s, Woken));
  }

  /** A sleeper is blocked somewhere exactly when the pending count there is positive. */
  lemma PendingMeansQueued(sys: System, s: nat)
    requires Shape(sys) && s < |sys.sems|
    ensures PendingAt(sys, s) > 0 <==> FirstPending(Futs(sys, sys.sems[s].waiters)) < |sys.sems[s].waiters|
  {
    var ws := sys.sems[s].waiters;
    var k := FirstPending(Futs(sys, ws));
    assert SemOk(sys, s);
    if PendingAt(sys, s) > 0 {
      var c := SumWitness(sys.calls, AsleepAt(s, Pending));
      assert Queued(sys, c);
      var i :| 0 <= i < |ws| && ws[i] == c;
      assert Futs(sys, ws)[i] == Pending;
    }
    if k < |ws| {
      assert ws[k] in ws;
      assert WaiterOk(sys, s, ws[k]);
      assert Futs(sys, ws)[k] == Pending;
      TermBelowSum(sys.calls, ws[k], AsleepAt(s, Pending));
    }
  }

  /** Two states with the same calls except that some blocked ones were woken. */
  predicate OnlyWoke(sys: System, sys': System) {
    && |sys'.calls| == |sys.calls| && sys'.conns == sys.conns && |sys'.sems| == |sys.sems|
    && (forall s: nat :: s < |sys.sems| ==> SameSem(sys.sems[s], sys'.sems[s]))
    && (forall c: nat :: c < |sys.calls| ==>
          sys'.calls[c] == sys.calls[c]
          || (sys.calls[c].Blocked() && sys'.calls[c] == sys.calls[c].(phase := Sleeping(sys.calls[c].phase.tier, Woken))))
  }

  predicate SameSem(a: Sem, b: Sem) { a.cap == b.cap && a.tier == b.tier }

  /** `release` on an open semaphore, spelled out: position `k` of the queue is where it stops. */
  lemma ReleaseFrame(sys: System, s: nat) returns (k: nat)
    requires s < |sys.sems| && !sys.sems[s].closed && SemOk(sys, s)
    ensures var ws := sys.sems[s].waiters; var r := ReleaseSem(sys, s);
            && k <= |ws| && r.conns == sys.conns && |r.sems| == |sys.sems|
            && (forall u: nat :: u < |sys.sems| && u != s ==> r.sems[u] == sys.sems[u])
            && r.sems[s] == sys.sems[s].(value := sys.sems[s].value + 1, waiters := if k < |ws| then ws[k + 1..] else [])
            && (forall i: nat :: i < k ==> ws[i] < |sys.calls| && !sys.calls[ws[i]].Blocked())
            && (k < |ws| ==> ws[k] < |sys.calls| && sys.calls[ws[k]].Blocked()
                             && r.calls == SetPhase(sys, ws[k], Sleeping(sys.calls[ws[k]].phase.tier, Woken)).calls)
            && (k == |ws| ==> r.calls == sys.calls)
            && k == FirstPending(Futs(sys, ws))
  {
    var ws := sys.sems[s].waiters;
    k := FirstPending(Futs(sys, ws));
    forall i: nat | i < |ws| ensures WaiterOk(sys, s, ws[i]) && FutOf(sys, ws[i]) == Futs(sys, ws)[i] {
      assert ws[i] in ws;
    }
  }

  lemma ReleaseSemOk(sys: System, s: nat, u: nat)
    requires s < |sys.sems| && !sys.sems[s].closed && SemOk(sys, s)
    requires u < |sys.sems| && SemOk(sys, u)
    ensures |ReleaseSem(sys, s).sems| == |sys.sems| && SemOk(ReleaseSem(sys, s), u)
  {
    var k := ReleaseFrame(sys, s);
    var r := ReleaseSem(sys, s);
    var ws := sys.sems[s].waiters;
    forall w | w in r.sems[u].waiters ensures WaiterOk(r, u, w) {
      assert w in sys.sems[u].waiters;
      assert WaiterOk(sys, u, w);
      if k < |ws| {
        assert ws[k] in ws;
        assert WaiterOk(sys, s, ws[k]);
      }
    }
  }

  lemma ReleaseCallOk(sys: System, s: nat, c: nat)
    requires s < |sys.sems| && !sys.sems[s].closed && SemOk(sys, s)
    requires c < |sys.calls| && CallOk(sys, sys.calls[c]) && Queued(sys, c)
    ensures var r := ReleaseSem(sys, s); |r.calls| == |sys.calls| && CallOk(r, r.calls[c]) && Queued(r, c)
  {
    var k := ReleaseFrame(sys, s);
    var r := ReleaseSem(sys, s);
    var ws := sys.sems[s].waiters;
    if r.calls[c].Blocked() && sys.calls[c].SemAt(sys.calls[c].phase.tier) == s {
      var i :| 0 <= i < |ws| && ws[i] == c;
      assert i > k;
      assert ws[k + 1..][i - k - 1] == c;
    }
  }

  lemma ReleaseShape(sys: System, s: nat)
    requires Shape(sys) && s < |sys.sems|
    ensures Shape(ReleaseSem(sys, s)) && OnlyWoke(sys, ReleaseSem(sys, s))
  {
    var r := ReleaseSem(sys, s);
    assert SemOk(sys, s);
    if !sys.sems[s].closed {
      var k := ReleaseFrame(sys, s);
      forall u: nat | u < |r.sems| ensures SemOk(r, u) { ReleaseSemOk(sys, s, u); }
      forall c: nat | c < |r.calls| ensures CallOk(r, r.calls[c]) && Queued(r, c) { ReleaseCallOk(sys, s, c); }
      forall j: nat | j < |r.conns| ensures ConnOk(r, r.conns[j]) {
        assert ConnOk(sys, sys.conns[j]);
      }
    }
  }

  /** What `release` of semaphore `s` does to the books of semaphore `u`. */
  predicate ReleaseBooks(sys: System, r: System, s: nat, u: nat)
    requires s < |sys.sems| == |r.sems| && u < |sys.sems|
  {
    var hit := u == s && !sys.sems[s].closed;
    var wakes := hit && PendingAt(sys, s) > 0;
    && r.sems[u].closed == sys.sems[u].closed
    && r.sems[u].value == sys.sems[u].value + (if hit then 1 else 0)
    && Held(r, u) == Held(sys, u)
    && PendingAt(r, u) + (if wakes then 1 else 0) == PendingAt(sys, u)
    && WokenAt(r, u) == WokenAt(sys, u) + (if wakes then 1 else 0)
  }

  /** `release`: one permit comes back, and one sleeper is woken if there is one. */
  lemma ReleaseEffect(sys: System, s: nat, u: nat)
    requires Shape(sys) && s < |sys.sems| && u < |sys.sems|
    ensures var r := ReleaseSem(sys, s); |r.sems| == |sys.sems| && ReleaseBooks(sys, r, s, u)
  {
    assert SemOk(sys, s);
    if !sys.sems[s].closed {
      var k := ReleaseFrame(sys, s);
      PendingMeansQueued(sys, s);
      var ws := sys.sems[s].waiters;
      if k < |ws| {
        assert ws[k] in ws;
        assert WaiterOk(sys, s, ws[k]);
        PhaseCounts(sys, ws[k], Sleeping(sys.calls[ws[k]].phase.tier, Woken), u);
      }
    }
  }

  // ----- one step at a time -----

  /** While somebody sleeps untouched, every free permit has a woken call on its way to it. */
  predicate NoIdleAt(sys: System, u: nat)
    requires u < |sys.sems|
  {
    PendingAt(sys, u) > 0 ==> sys.sems[u].value <= WokenAt(sys, u)
  }

  /** Call `c` is in nobody's queue. */
  predicate Loose(sys: System, c: nat) {
    forall s: nat :: s < |sys.sems| ==> c !in sys.sems[s].waiters
  }

  lemma NotAsleepIsLoose(sys: System, c: nat)
    requires Shape(sys) && c < |sys.calls|
    requires !sys.calls[c].phase.Sleeping? || sys.calls[c].phase.fut == Woken
    ensures Loose(sys, c)
  {
    forall s: nat | s < |sys.sems| ensures c !in sys.sems[s].waiters {
      assert SemOk(sys, s);
      assert c in sys.sems[s].waiters ==> WaiterOk(sys, s, c);
    }
  }

  lemma SetPhaseShape(sys: System, c: nat, p: Phase)
    requires Shape(sys) && c < |sys.calls| && Loose(sys, c)
    requires (p.Trying? || p.Sleeping? ==> p.tier < 3) && (p.Sleeping? ==> p.fut != Pending)
    ensures Shape(SetPhase(sys, c, p)) && Loose(SetPhase(sys, c, p), c)
  {
    var r := SetPhase(sys, c, p);
    forall s: nat | s < |r.sems| ensures SemOk(r, s) {
      assert SemOk(sys, s);
      forall w | w in r.sems[s].waiters ensures WaiterOk(r, s, w) { assert WaiterOk(sys, s, w); }
    }
    forall d: nat | d < |r.calls| ensures CallOk(r, r.calls[d]) && Queued(r, d) {
      assert CallOk(sys, sys.calls[d]) && Queued(sys, d);
    }
    forall k: nat | k < |r.conns| ensures ConnOk(r, r.conns[k]) { assert ConnOk(sys, sys.conns[k]); }
  }

  /** The same, boiled down to what the two invariants read. */
  lemma ReleaseTotals(sys: System, s: nat, u: nat)
    requires Shape(sys) && s < |sys.sems| && u < |sys.sems|
    ensures var r := ReleaseSem(sys, s);
            && Shape(r) && |r.sems| == |sys.sems| && |r.calls| == |sys.calls|
            && r.sems[u].closed == sys.sems[u].closed && r.sems[u].cap == sys.sems[u].cap && r.sems[u].tier == sys.sems[u].tier
            && r.sems[u].value + Held(r, u) == sys.sems[u].value + Held(sys, u) + (if u == s && !sys.sems[s].closed then 1 else 0)
            && (NoIdleAt(sys, u) ==> NoIdleAt(r, u))
  {
    ReleaseShape(sys, s);
    ReleaseEffect(sys, s, u);
    assert SameSem(sys.sems[u], ReleaseSem(sys, s).sems[u]);
  }

  /** Giving up at tier `t` returns exactly what the call held, to every semaphore still open. */
  predicate GaveBack(sys: System, r: System, call: Call, u: nat)
    requires u < |sys.sems| == |r.sems|
  {
    && r.sems[u].closed == sys.sems[u].closed && r.sems[u].cap == sys.sems[u].cap
    && r.sems[u].value == sys.sems[u].value + (if sys.sems[u].closed then 0 else HeldBy(u)(call))
    && Held(r, u) + HeldBy(u)(call) == Held(sys, u)
  }

  lemma RefuseShape(sys: System, c: nat, t: nat, why: Overloaded)
    requires Shape(sys) && c < |sys.calls| && CallOk(sys, sys.calls[c]) && Loose(sys, c)
    ensures Shape(Refuse(sys, c, t, why)) && OnlyWoke(SetPhase(sys, c, Refused(why)), Refuse(sys, c, t, why))
  {
    var call := sys.calls[c];
    var s0 := SetPhase(sys, c, Refused(why));
    SetPhaseShape(sys, c, Refused(why));
    if t >= 1 {
      ReleaseShape(s0, call.session);
      if t >= 2 { ReleaseShape(ReleaseSem(s0, call.session), call.conn); }
    }
  }

  lemma PermitsAtTier(call: Call, u: nat)
    requires call.Acquired() < 3
    ensures HeldBy(u)(call) == if (call.Acquired() >= 1 && call.session == u) || (call.Acquired() >= 2 && call.conn == u) then 1 else 0
  {
  }

  /** Marking a call refused takes its permits out of the count before they are given back. */
  lemma RefusedPhase(sys: System, c: nat, why: Overloaded, u: nat)
    requires Shape(sys) && c < |sys.calls| && Loose(sys, c) && u < |sys.sems| && !sys.calls[c].Blocked()
    ensures var s0 := SetPhase(sys, c, Refused(why));
            && Shape(s0) && s0.sems == sys.sems
            && Held(s0, u) + HeldBy(u)(sys.calls[c]) == Held(sys, u)
            && PendingAt(s0, u) == PendingAt(sys, u)
            && WokenAt(s0, u) + AsleepAt(u, Woken)(sys.calls[c]) == WokenAt(sys, u)
  {
    SetPhaseShape(sys, c, Refused(why));
    PhaseCounts(sys, c, Refused(why), u);
  }

  /** What a refusal must leave behind at `u`, given the system `r` it ends in. */
  predicate RefusedWell(sys: System, r: System, call: Call, u: nat)
    requires u < |sys.sems|
  {
    && |r.sems| == |sys.sems| && GaveBack(sys, r, call, u)
    && (NoIdleAt(sys, u) && (AsleepAt(u, Woken)(call) == 0 || sys.sems[u].closed) ==> NoIdleAt(r, u))
  }

  /** From `a` to `b`, `n` permits came back to `u`, unless it is closed. */
  predicate Freed(a: System, b: System, u: nat, n: nat) {
    && u < |a.sems| == |b.sems|
    && b.sems[u].closed == a.sems[u].closed && b.sems[u].cap == a.sems[u].cap
    && b.sems[u].value == a.sems[u].value + (if a.sems[u].closed then 0 else n)
    && Held(b, u) == Held(a, u) && PendingAt(b, u) <= PendingAt(a, u)
    && (NoIdleAt(a, u) ==> NoIdleAt(b, u))
  }

  lemma ReleaseFrees(sys: System, s: nat, u: nat)
    requires Shape(sys) && s < |sys.sems| && u < |sys.sems|
    ensures Shape(ReleaseSem(sys, s)) && Freed(sys, ReleaseSem(sys, s), u, if s == u then 1 else 0)
  {
    ReleaseTotals(sys, s, u);
    ReleaseEffect(sys, s, u);
    hide Shape, Held, PendingAt, WokenAt, ReleaseSem;
  }

  lemma FreedTwice(a: System, b: System, c: System, u: nat, n: nat, m: nat)
    requires Freed(a, b, u, n) && Freed(b, c, u, m)
    ensures Freed(a, c, u, n + m)
  {
    hide Held, PendingAt, WokenAt;
  }

  lemma RefuseFrees(sys: System, s0: System, call: Call, u: nat)
    requires CallOk(sys, call) && u < |sys.sems| && Shape(s0) && s0.sems == sys.sems && call.Acquired() < 3
    ensures var s1 := if call.Acquired() >= 1 then ReleaseSem(s0, call.session) else s0;
      && |s1.sems| == |sys.sems|
      && Freed(s0, if call.Acquired() >= 2 then ReleaseSem(s1, call.conn) else s1, u, HeldBy(u)(call))
  {
    PermitsAtTier(call, u);
    hide Shape, HeldBy, ReleaseSem, Freed;
    if call.Acquired() == 0 {
      NothingFreed(s0, u);
    } else {
      ReleaseFrees(s0, call.session, u);
      FreedKeepsCount(s0, ReleaseSem(s0, call.session), u, if call.session == u then 1 else 0);
      if call.Acquired() == 2 {
        ReleaseFrees(ReleaseSem(s0, call.session), call.conn, u);
        FreedTwice(s0, ReleaseSem(s0, call.session), ReleaseSem(ReleaseSem(s0, call.session), call.conn), u,
                   if call.session == u then 1 else 0, if call.conn == u then 1 else 0);
      }
    }
  }

  lemma NothingFreed(sys: System, u: nat)
    requires u < |sys.sems|
    ensures Freed(sys, sys, u, 0)
  {
  }

  lemma FreedKeepsCount(a: System, b: System, u: nat, n: nat)
    requires Freed(a, b, u, n)
    ensures |b.sems| == |a.sems|
  {
  }

  lemma FreedIsRefused(sys: System, s0: System, r: System, call: Call, u: nat)
    requires u < |sys.sems| && s0.sems == sys.sems && Freed(s0, r, u, HeldBy(u)(call))
    requires Held(s0, u) + HeldBy(u)(call) == Held(sys, u) && PendingAt(s0, u) == PendingAt(sys, u)
    requires WokenAt(s0, u) + AsleepAt(u, Woken)(call) == WokenAt(sys, u) && (sys.sems[u].closed ==> PendingAt(sys, u) == 0)
    ensures RefusedWell(sys, r, call, u)
  {
    hide Held, PendingAt, WokenAt, HeldBy, AsleepAt;
  }

  lemma RefuseBooks(sys: System, c: nat, t: nat, why: Overloaded, u: nat)
    requires Shape(sys) && c < |sys.calls| && CallOk(sys, sys.calls[c]) && Loose(sys, c)
    requires !sys.calls[c].Blocked() && sys.calls[c].Acquired() == t < 3
    requires u < |sys.sems|
    ensures RefusedWell(sys, Refuse(sys, c, t, why), sys.calls[c], u)
  {
    var call := sys.calls[c];
    var s0 := SetPhase(sys, c, Refused(why));
    RefusedPhase(sys, c, why, u);
    RefuseFrees(sys, s0, call, u);
    if sys.sems[u].closed { ClosedHasNoSleepers(sys, u); }
    hide Shape, Held, PendingAt, WokenAt, HeldBy, AsleepAt, ReleaseSem, Freed, RefusedWell;
    FreedIsRefused(sys, s0, Refuse(sys, c, t, why), call, u);
  }

  lemma ClosedHasNoSleepers(sys: System, u: nat)
    requires Shape(sys) && u < |sys.sems| && sys.sems[u].closed
    ensures PendingAt(sys, u) == 0
  {
    assert SemOk(sys, u);
    PendingMeansQueued(sys, u);
  }

  lemma AttemptShape(sys: System, c: nat, t: nat)
    requires Shape(sys) && c < |sys.calls| && CallOk(sys, sys.calls[c]) && Loose(sys, c) && t < 3
    ensures Shape(Attempt(sys, c, t)) && |Attempt(sys, c, t).sems| == |sys.sems|
  {
    var s := sys.calls[c].SemAt(t);
    var sem := sys.sems[s];
    if sem.closed {
      RefuseShape(sys, c, t, Shutdown);
    } else if sem.value > 0 {
      var p := if t == 2 then Admitted else Trying(t + 1);
      SetPhaseShape(sys, c, p);
      ValueShape(SetPhase(sys, c, p), s, sem.value - 1);
    } else {
      SleepShape(sys, c, t);
    }
  }

  /** One pass of `acquire` keeps the capacity accounted for and leaves no new idle permit. */
  lemma AttemptBooks(sys: System, c: nat, t: nat, u: nat)
    requires Shape(sys) && c < |sys.calls| && CallOk(sys, sys.calls[c]) && Loose(sys, c)
    requires sys.calls[c].phase == Trying(t) || sys.calls[c].phase == Sleeping(t, Woken)
    requires u < |sys.sems| && t < 3
    ensures |Attempt(sys, c, t).sems| == |sys.sems|
    ensures LedgerAt(sys, u) ==> LedgerAt(Attempt(sys, c, t), u)
    ensures NoIdleAt(sys, u) ==> NoIdleAt(Attempt(sys, c, t), u)
  {
    var s := sys.calls[c].SemAt(t);
    var sem := sys.sems[s];
    if sem.closed {
      RefuseBooks(sys, c, t, Shutdown, u);
    } else if sem.value > 0 {
      PhaseCounts(sys, c, if t == 2 then Admitted else Trying(t + 1), u);
    } else {
      PhaseCounts(sys, c, Sleeping(t, Pending), u);
    }
  }

  lemma ValueShape(sys: System, s: nat, v: nat)
    requires Shape(sys) && s < |sys.sems|
    ensures Shape(sys.(sems := sys.sems[s := sys.sems[s].(value := v)]))
  {
    var r := sys.(sems := sys.sems[s := sys.sems[s].(value := v)]);
    forall u: nat | u < |r.sems| ensures SemOk(r, u) {
      assert SemOk(sys, u);
      forall w | w in r.sems[u].waiters ensures WaiterOk(r, u, w) { assert WaiterOk(sys, u, w); }
    }
    forall d: nat | d < |r.calls| ensures CallOk(r, r.calls[d]) && Queued(r, d) {
      assert CallOk(sys, sys.calls[d]) && Queued(sys, d);
    }
    forall k: nat | k < |r.conns| ensures ConnOk(r, r.conns[k]) { assert ConnOk(sys, sys.conns[k]); }
  }

  lemma SleepShape(sys: System, c: nat, t: nat)
    requires Shape(sys) && c < |sys.calls| && CallOk(sys, sys.calls[c]) && Loose(sys, c) && t < 3
    requires !sys.sems[sys.calls[c].SemAt(t)].closed
    ensures var s := sys.calls[c].SemAt(t);
            Shape(SetPhase(sys.(sems := sys.sems[s := sys.sems[s].(waiters := sys.sems[s].waiters + [c])]), c, Sleeping(t, Pending)))
  {
    var s := sys.calls[c].SemAt(t);
    var r := SetPhase(sys.(sems := sys.sems[s := sys.sems[s].(waiters := sys.sems[s].waiters + [c])]), c, Sleeping(t, Pending));
    forall u: nat | u < |r.sems| ensures SemOk(r, u) {
      assert SemOk(sys, u);
      forall w | w in r.sems[u].waiters ensures WaiterOk(r, u, w) {
        if w != c { assert WaiterOk(sys, u, w); }
      }
    }
    forall d: nat | d < |r.calls| ensures CallOk(r, r.calls[d]) && Queued(r, d) {
      assert CallOk(sys, sys.calls[d]) && Queued(sys, d);
      if d == c { assert r.sems[s].waiters[|sys.sems[s].waiters|] == c; }
    }
    forall k: nat | k < |r.conns| ensures ConnOk(r, r.conns[k]) { assert ConnOk(sys, sys.conns[k]); }
  }

  lemma {:induction false} WithoutDropsIt(xs: seq<nat>, x: nat)
    requires NoDup(xs)
    ensures NoDup(Without(xs, x)) && forall y :: y in Without(xs, x) <==> y in xs && y != x
  {
    if xs != [] {
      var rest := xs[1..];
      assert xs == [xs[0]] + rest;
      assert NoDup(rest) by {
        assert forall i :: 0 <= i < |rest| ==> rest[i] == xs[i + 1];
      }
      assert xs[0] !in rest;
      WithoutDropsIt(rest, x);
      var r := Without(xs, x);
      assert xs[0] != x ==> forall i :: 1 <= i < |r| ==> r[i] in rest;
    }
  }

  lemma UnqueueShape(sys: System, c: nat)
    requires Shape(sys) && c < |sys.calls| && sys.calls[c].phase.Sleeping? && sys.calls[c].phase.fut != Pending
    requires sys.calls[c].SemAt(sys.calls[c].phase.tier) < |sys.sems|
    ensures var r := Unqueue(sys, c, sys.calls[c].SemAt(sys.calls[c].phase.tier)); Shape(r) && Loose(r, c)
  {
    var s := sys.calls[c].SemAt(sys.calls[c].phase.tier);
    var r := Unqueue(sys, c, s);
    assert SemOk(sys, s);
    WithoutDropsIt(sys.sems[s].waiters, c);
    forall u: nat | u < |r.sems| ensures SemOk(r, u) && c !in r.sems[u].waiters {
      assert SemOk(sys, u);
      forall w | w in r.sems[u].waiters ensures WaiterOk(r, u, w) { assert WaiterOk(sys, u, w); }
      if c in sys.sems[u].waiters { assert WaiterOk(sys, u, c); }
    }
    forall d: nat | d < |r.calls| ensures CallOk(r, r.calls[d]) && Queued(r, d) {
      assert CallOk(sys, sys.calls[d]) && Queued(sys, d);
    }
    forall k: nat | k < |r.conns| ensures ConnOk(r, r.conns[k]) { assert ConnOk(sys, sys.conns[k]); }
  }

  predicate SleepsOnly(sys: System, ws: seq<nat>, s: nat) {
    forall w :: w in ws ==> w < |sys.calls| && (sys.calls[w].Blocked() ==> sys.calls[w].SemAt(sys.calls[w].phase.tier) == s)
  }

  function WokenIf(call: Call, wake: bool): Call {
    if wake && call.Blocked() then call.(phase := Sleeping(call.phase.tier, Woken)) else call
  }

  lemma {:induction false} WakeAllCalls(sys: System, ws: seq<nat>)
    ensures var r := WakeAll(sys, ws);
            && r.sems == sys.sems && r.conns == sys.conns && |r.calls| == |sys.calls|
            && forall c: nat :: c < |sys.calls| ==> r.calls[c] == WokenIf(sys.calls[c], c in ws)
    decreases |ws|
  {
    if ws != [] {
      assert ws == [ws[0]] + ws[1..];
      WakeAllCalls(Wake(sys, ws[0]), ws[1..]);
    }
  }

  lemma {:induction false} WakeAllBooks(sys: System, ws: seq<nat>, s: nat, u: nat)
    requires SleepsOnly(sys, ws, s)
    ensures Held(WakeAll(sys, ws), u) == Held(sys, u)
    ensures u != s ==> PendingAt(WakeAll(sys, ws), u) == PendingAt(sys, u) && WokenAt(WakeAll(sys, ws), u) == WokenAt(sys, u)
    decreases |ws|
  {
    if ws != [] {
      var sys' := Wake(sys, ws[0]);
      assert ws[0] in ws;
      if sys.calls[ws[0]].Blocked() {
        PhaseCounts(sys, ws[0], Sleeping(sys.calls[ws[0]].phase.tier, Woken), u);
      }
      assert forall w :: w in ws[1..] ==> w in ws;
      WakeAllBooks(sys', ws[1..], s, u);
    }
  }

  lemma CloseShape(sys: System, s: nat)
    requires Shape(sys) && s < |sys.sems|
    ensures Shape(CloseSem(sys, s)) && OnlyWoke(sys, CloseSem(sys, s))
  {
    var r := CloseSem(sys, s);
    var shut := sys.(sems := sys.sems[s := sys.sems[s].(closed := true, waiters := [])]);
    WakeAllCalls(shut, sys.sems[s].waiters);
    forall u: nat | u < |r.sems| ensures SemOk(r, u) {
      assert SemOk(sys, u) && SemOk(sys, s);
      forall w | w in r.sems[u].waiters ensures WaiterOk(r, u, w) {
        assert WaiterOk(sys, u, w);
        assert w in sys.sems[s].waiters ==> WaiterOk(sys, s, w);
      }
    }
    forall d: nat | d < |r.calls| ensures CallOk(r, r.calls[d]) && Queued(r, d) {
      assert CallOk(sys, sys.calls[d]) && Queued(sys, d);
    }
    forall k: nat | k < |r.conns| ensures ConnOk(r, r.conns[k]) { assert ConnOk(sys, sys.conns[k]); }
  }

  /** `close` wakes every sleeper, moves no permit, and cannot strand anybody. */
  lemma CloseBooks(sys: System, s: nat, u: nat)
    requires Shape(sys) && s < |sys.sems| && u < |sys.sems|
    ensures |CloseSem(sys, s).sems| == |sys.sems|
    ensures LedgerAt(sys, u) ==> LedgerAt(CloseSem(sys, s), u)
    ensures NoIdleAt(sys, u) ==> NoIdleAt(CloseSem(sys, s), u)
  {
    var ws := sys.sems[s].waiters;
    var shut := sys.(sems := sys.sems[s := sys.sems[s].(closed := true, waiters := [])]);
    assert SemOk(sys, s);
    assert SleepsOnly(shut, ws, s) by {
      forall w | w in ws ensures WaiterOk(sys, s, w) {}
    }
    WakeAllCalls(shut, ws);
    WakeAllBooks(shut, ws, s, u);
    CloseShape(sys, s);
    if u == s { ClosedHasNoSleepers(CloseSem(sys, s), s); }
  }

  /** A semaphore nobody refers to yet has no holder and no sleeper. */
  lemma UnusedSem(sys: System, u: nat)
    requires Shape(sys) && u >= |sys.sems|
    ensures Held(sys, u) == 0 && PendingAt(sys, u) == 0 && WokenAt(sys, u) == 0
  {
    forall c: nat | c < |sys.calls|
      ensures HeldBy(u)(sys.calls[c]) == 0 && AsleepAt(u, Pending)(sys.calls[c]) == 0 && AsleepAt(u, Woken)(sys.calls[c]) == 0
    {
      assert CallOk(sys, sys.calls[c]);
    }
    SumZero(sys.calls, HeldBy(u));
    SumZero(sys.calls, AsleepAt(u, Pending));
    SumZero(sys.calls, AsleepAt(u, Woken));
  }

  lemma NewSemShape(sys: System, cap: nat, tier: nat)
    requires Shape(sys) && tier < 3
    ensures Shape(sys.(sems := sys.sems + [NewSem(cap, tier)]))
  {
    var r := sys.(sems := sys.sems + [NewSem(cap, tier)]);
    forall u: nat | u < |r.sems| ensures SemOk(r, u) {
      if u < |sys.sems| {
        assert SemOk(sys, u);
        forall w | w in r.sems[u].waiters ensures WaiterOk(r, u, w) { assert WaiterOk(sys, u, w); }
      }
    }
    forall d: nat | d < |r.calls| ensures CallOk(r, r.calls[d]) && Queued(r, d) {
      assert CallOk(sys, sys.calls[d]) && Queued(sys, d);
    }
    forall k: nat | k < |r.conns| ensures ConnOk(r, r.conns[k]) { assert ConnOk(sys, sys.conns[k]); }
  }

  lemma NewCallShape(sys: System, call: Call)
    requires Shape(sys) && CallOk(sys, call) && call.phase == Trying(0)
    ensures Shape(sys.(calls := sys.calls + [call]))
  {
    var r := sys.(calls := sys.calls + [call]);
    forall u: nat | u < |r.sems| ensures SemOk(r, u) {
      assert SemOk(sys, u);
      forall w | w in r.sems[u].waiters ensures WaiterOk(r, u, w) { assert WaiterOk(sys, u, w); }
    }
    forall d: nat | d < |r.calls| ensures CallOk(r, r.calls[d]) && Queued(r, d) {
      if d < |sys.calls| { assert CallOk(sys, sys.calls[d]) && Queued(sys, d); }
    }
    forall k: nat | k < |r.conns| ensures ConnOk(r, r.conns[k]) { assert ConnOk(sys, sys.conns[k]); }
  }

  lemma ConnsShape(sys: System, conns: seq<Conn>)
    requires Shape(sys) && forall k: nat :: k < |conns| ==> ConnOk(sys, conns[k])
    ensures Shape(sys.(conns := conns))
  {
    var r := sys.(conns := conns);
    forall u: nat | u < |r.sems| ensures SemOk(r, u) {
      assert SemOk(sys, u);
      forall w | w in r.sems[u].waiters ensures WaiterOk(r, u, w) { assert WaiterOk(sys, u, w); }
    }
    forall d: nat | d < |r.calls| ensures CallOk(r, r.calls[d]) && Queued(r, d) {
      assert CallOk(sys, sys.calls[d]) && Queued(sys, d);
    }
    forall k: nat | k < |r.conns| ensures ConnOk(r, r.conns[k]) { assert ConnOk(sys, conns[k]); }
  }

  lemma NextShape(sys: System, step: Step)
    requires Shape(sys)
    ensures Shape(Next(sys, step)) && |Next(sys, step).sems| >= |sys.sems|
  {
    match step
    case Connect(sMax, cMax) =>
      NewSemShape(sys, cMax, 1);
      var r := sys.(sems := sys.sems + [NewSem(cMax, 1)]);
      forall k: nat | k < |Next(sys, step).conns| ensures ConnOk(r, Next(sys, step).conns[k]) {
        if k < |sys.conns| { assert ConnOk(sys, sys.conns[k]); }
      }
      ConnsShape(r, Next(sys, step).conns);
    case EnsureSession(j, sid) =>
      if j < |sys.conns| && sid !in sys.conns[j].sessions {
        NewSemShape(sys, sys.conns[j].sessionMax, 0);
        var r := sys.(sems := sys.sems + [NewSem(sys.conns[j].sessionMax, 0)]);
        forall k: nat | k < |Next(sys, step).conns| ensures ConnOk(r, Next(sys, step).conns[k]) {
          assert ConnOk(sys, sys.conns[k]);
        }
        ConnsShape(r, Next(sys, step).conns);
      }
    case RemoveSession(j, sid) =>
      if j < |sys.conns| {
        forall k: nat | k < |Next(sys, step).conns| ensures ConnOk(sys, Next(sys, step).conns[k]) {
          assert ConnOk(sys, sys.conns[k]);
        }
        ConnsShape(sys, Next(sys, step).conns);
      }
    case Admit(j, sid) =>
      if j < |sys.conns| {
        assert ConnOk(sys, sys.conns[j]);
        if sid in sys.conns[j].sessions {
          NewCallShape(sys, Call(sys.conns[j].sessions[sid], sys.conns[j].connSem, 0, Trying(0)));
        } else {
          NewSemShape(sys, sys.conns[j].sessionMax, 0);
          NewCallShape(sys.(sems := sys.sems + [NewSem(sys.conns[j].sessionMax, 0)]),
                       Call(|sys.sems|, sys.conns[j].connSem, 0, Trying(0)));
        }
      }
    case Try(c) =>
      if c < |sys.calls| && sys.calls[c].phase.Trying? {
        NotAsleepIsLoose(sys, c);
        if CallOk(sys, sys.calls[c]) { AttemptShape(sys, c, sys.calls[c].phase.tier); }
      }
    case Expire(c) =>
      if c < |sys.calls| && sys.calls[c].phase.Trying? {
        NotAsleepIsLoose(sys, c);
        if CallOk(sys, sys.calls[c]) { RefuseShape(sys, c, sys.calls[c].phase.tier, Timeout); }
      }
    case TimerFires(c) => TimerShape(sys, c);
    case Resume(c) =>
      if c < |sys.calls| && CallOk(sys, sys.calls[c]) && sys.calls[c].phase.Sleeping? && sys.calls[c].phase.fut != Pending {
        var t := sys.calls[c].phase.tier;
        UnqueueShape(sys, c);
        var out := Unqueue(sys, c, sys.calls[c].SemAt(t));
        if sys.calls[c].phase.fut == Cancelled { RefuseShape(out, c, t, Timeout); } else { AttemptShape(out, c, t); }
      }
    case Release(c) => GuardReleaseShape(sys, c);
    case Close(s) => if s < |sys.sems| { CloseShape(sys, s); }
  }

  lemma TimerShape(sys: System, c: nat)
    requires Shape(sys)
    ensures Shape(Next(sys, TimerFires(c)))
  {
    if c < |sys.calls| && sys.calls[c].phase.Sleeping? {
      var r := Next(sys, TimerFires(c));
      forall u: nat | u < |r.sems| ensures SemOk(r, u) {
        assert SemOk(sys, u);
        forall w | w in r.sems[u].waiters ensures WaiterOk(r, u, w) { assert WaiterOk(sys, u, w); }
      }
      forall d: nat | d < |r.calls| ensures CallOk(r, r.calls[d]) && Queued(r, d) {
        assert CallOk(sys, sys.calls[d]) && Queued(sys, d);
      }
      forall k: nat | k < |r.conns| ensures ConnOk(r, r.conns[k]) { assert ConnOk(sys, sys.conns[k]); }
    }
  }

  lemma GuardReleaseShape(sys: System, c: nat)
    requires Shape(sys)
    ensures Shape(Next(sys, Release(c))) && |Next(sys, Release(c)).sems| == |sys.sems|
  {
    if c < |sys.calls| && CallOk(sys, sys.calls[c]) && sys.calls[c].phase == Admitted {
      var call := sys.calls[c];
      NotAsleepIsLoose(sys, c);
      SetPhaseShape(sys, c, Released);
      var s0 := SetPhase(sys, c, Released);
      ReleaseShape(s0, call.global);
      var s1 := ReleaseSem(s0, call.global);
      ReleaseShape(s1, call.conn);
      ReleaseShape(ReleaseSem(s1, call.conn), call.session);
    }
  }

  lemma GuardReleaseBooks(sys: System, c: nat, u: nat)
    requires Shape(sys) && u < |sys.sems|
    ensures |Next(sys, Release(c)).sems| == |sys.sems|
    ensures LedgerAt(sys, u) ==> LedgerAt(Next(sys, Release(c)), u)
    ensures NoIdleAt(sys, u) ==> NoIdleAt(Next(sys, Release(c)), u)
  {
    if c < |sys.calls| && CallOk(sys, sys.calls[c]) && sys.calls[c].phase == Admitted {
      GuardTotals(sys, c, u);
    }
  }

  function OneIf(b: bool): nat { if b then 1 else 0 }

  lemma ReleaseTwo(sys: System, a: nat, b: nat, u: nat)
    requires Shape(sys) && u < |sys.sems| && a < |sys.sems| && b < |sys.sems|
    ensures var r := ReleaseSem(ReleaseSem(sys, a), b); var open := !sys.sems[u].closed;
            && |r.sems| == |sys.sems| && r.sems[u].closed == sys.sems[u].closed && r.sems[u].cap == sys.sems[u].cap
            && r.sems[u].value + Held(r, u) == sys.sems[u].value + Held(sys, u) + OneIf(u == a && open) + OneIf(u == b && open)
            && (NoIdleAt(sys, u) ==> NoIdleAt(r, u))
  {
    ReleaseTotals(sys, a, u);
    ReleaseTotals(ReleaseSem(sys, a), b, u);
  }

  lemma ReleaseThree(sys: System, a: nat, b: nat, d: nat, u: nat)
    requires Shape(sys) && u < |sys.sems| && a < |sys.sems| && b < |sys.sems| && d < |sys.sems|
    ensures var r := ReleaseSem(ReleaseSem(ReleaseSem(sys, a), b), d); var open := !sys.sems[u].closed;
            && |r.sems| == |sys.sems| && r.sems[u].closed == sys.sems[u].closed && r.sems[u].cap == sys.sems[u].cap
            && r.sems[u].value + Held(r, u)
               == sys.sems[u].value + Held(sys, u) + OneIf(u == a && open) + OneIf(u == b && open) + OneIf(u == d && open)
            && (NoIdleAt(sys, u) ==> NoIdleAt(r, u))
  {
    ReleaseTotals(sys, a, u);
    ReleaseTwo(ReleaseSem(sys, a), b, d, u);
  }

  lemma HeldInThree(sys: System, call: Call, u: nat)
    requires CallOk(sys, call) && call.phase == Admitted
    ensures HeldBy(u)(call) == OneIf(u == call.global) + OneIf(u == call.conn) + OneIf(u == call.session)
  {
    assert call.session != call.conn && call.session != call.global && call.conn != call.global;
  }

  /** Releasing a guard moves its three permits from held to free, except into a closed semaphore. */
  lemma GuardTotals(sys: System, c: nat, u: nat)
    requires Shape(sys) && u < |sys.sems| && c < |sys.calls| && CallOk(sys, sys.calls[c]) && sys.calls[c].phase == Admitted
    ensures var r := ReleaseGuard(sys, c);
            && |r.sems| == |sys.sems| && r.sems[u].closed == sys.sems[u].closed && r.sems[u].cap == sys.sems[u].cap
            && r.sems[u].value + Held(r, u) + (if sys.sems[u].closed then HeldBy(u)(sys.calls[c]) else 0) == sys.sems[u].value + Held(sys, u)
            && (NoIdleAt(sys, u) ==> NoIdleAt(r, u))
  {
    var call := sys.calls[c];
    var s0 := SetPhase(sys, c, Released);
    HeldInThree(sys, call, u);
    assert NoIdleAt(sys, u) ==> NoIdleAt(s0, u) by { PhaseCounts(sys, c, Released, u); }
    assert Held(s0, u) + HeldBy(u)(call) == Held(sys, u) by { PhaseCounts(sys, c, Released, u); }
    assert Shape(s0) by {
      NotAsleepIsLoose(sys, c);
      SetPhaseShape(sys, c, Released);
    }
    ReleaseThree(s0, call.global, call.conn, call.session, u);
  }

  /** The deadline timer reaches a call that a release has already woken but that has not run yet. */
  predicate LateTimer(sys: System, step: Step) {
    step.TimerFires? && step.c < |sys.calls| && sys.calls[step.c].phase.Sleeping? && sys.calls[step.c].phase.fut == Woken
  }

  /** It is late where another call sleeps untouched and every free permit has just one woken call coming. */
  predicate LosesWake(sys: System, step: Step, u: nat) {
    && LateTimer(sys, step) && sys.calls[step.c].SemAt(sys.calls[step.c].phase.tier) == u
    && u < |sys.sems| && PendingAt(sys, u) > 0 && sys.sems[u].value == WokenAt(sys, u)
  }

  lemma StepBooks(sys: System, step: Step, u: nat)
    requires Shape(sys) && u < |sys.sems|
    ensures |Next(sys, step).sems| >= |sys.sems|
    ensures LedgerAt(sys, u) ==> LedgerAt(Next(sys, step), u)
    ensures NoIdleAt(sys, u) && !LosesWake(sys, step, u) ==> NoIdleAt(Next(sys, step), u)
  {
    hide Shape, SemOk, Attempt, Refuse, ReleaseGuard, CloseSem, Unqueue;
    match step
    case Connect(_, _) =>
    case EnsureSession(_, _) =>
    case RemoveSession(_, _) =>
    case Admit(j, sid) =>
      if j < |sys.conns| {
        var call := Next(sys, step).calls[|sys.calls|];
        SumSnoc(sys.calls, call, HeldBy(u));
        SumSnoc(sys.calls, call, AsleepAt(u, Pending));
        SumSnoc(sys.calls, call, AsleepAt(u, Woken));
      }
    case Try(c) =>
      if c < |sys.calls| && CallOk(sys, sys.calls[c]) && sys.calls[c].phase.Trying? {
        NotAsleepIsLoose(sys, c);
        AttemptBooks(sys, c, sys.calls[c].phase.tier, u);
      }
    case Expire(c) =>
      if c < |sys.calls| && CallOk(sys, sys.calls[c]) && sys.calls[c].phase.Trying? {
        NotAsleepIsLoose(sys, c);
        RefuseBooks(sys, c, sys.calls[c].phase.tier, Timeout, u);
      }
    case TimerFires(c) =>
      if c < |sys.calls| && sys.calls[c].phase.Sleeping? {
        PhaseCounts(sys, c, Sleeping(sys.calls[c].phase.tier, Cancelled), u);
      }
    case Resume(c) =>
      if c < |sys.calls| && CallOk(sys, sys.calls[c]) && sys.calls[c].phase.Sleeping? && sys.calls[c].phase.fut != Pending {
        ResumeBooks(sys, c, u);
      }
    case Release(c) => GuardReleaseBooks(sys, c, u);
    case Close(s) => if s < |sys.sems| { CloseBooks(sys, s, u); }
  }

  lemma ResumeBooks(sys: System, c: nat, u: nat)
    requires Shape(sys) && u < |sys.sems|
    requires c < |sys.calls| && CallOk(sys, sys.calls[c]) && sys.calls[c].phase.Sleeping? && sys.calls[c].phase.fut != Pending
    ensures |Next(sys, Resume(c)).sems| == |sys.sems|
    ensures LedgerAt(sys, u) ==> LedgerAt(Next(sys, Resume(c)), u)
    ensures NoIdleAt(sys, u) ==> NoIdleAt(Next(sys, Resume(c)), u)
  {
    hide SemOk, Attempt, Refuse;
    var t := sys.calls[c].phase.tier;
    UnqueueShape(sys, c);
    var out := Unqueue(sys, c, sys.calls[c].SemAt(t));
    assert out.calls == sys.calls && out.sems[u].value == sys.sems[u].value;
    assert out.sems[u].closed == sys.sems[u].closed && out.sems[u].cap == sys.sems[u].cap;
    if sys.calls[c].phase.fut == Cancelled {
      RefuseBooks(out, c, t, Timeout, u);
    } else {
      AttemptBooks(out, c, t, u);
    }
  }

  lemma StepKeepsLedger(sys: System, step: Step)
    requires Shape(sys) && Ledger(sys)
    ensures Shape(Next(sys, step)) && Ledger(Next(sys, step))
  {
    NextShape(sys, step);
    var r := Next(sys, step);
    forall u: nat | u < |r.sems| ensures LedgerAt(r, u) {
      if u < |sys.sems| {
        assert LedgerAt(sys, u);
        StepBooks(sys, step, u);
      } else {
        FreshSemBooks(sys, step, u);
      }
    }
    assert forall u: nat :: u < |r.sems| ==> LedgerAt(r, u);
  }

  lemma FreshSemBooks(sys: System, step: Step, u: nat)
    requires Shape(sys) && |sys.sems| <= u < |Next(sys, step).sems|
    ensures LedgerAt(Next(sys, step), u) && NoIdleAt(Next(sys, step), u)
  {
    UnusedSem(sys, u);
    StepSemCount(sys, step);
    if step.Admit? {
      var call := Next(sys, step).calls[|sys.calls|];
      SumSnoc(sys.calls, call, HeldBy(u));
      SumSnoc(sys.calls, call, AsleepAt(u, Pending));
    }
  }

  /** Only connecting, binding a session and admitting a straggler create semaphores. */
  lemma StepSemCount(sys: System, step: Step)
    requires Shape(sys)
    ensures step.Connect? || step.EnsureSession? || step.Admit? || |Next(sys, step).sems| == |sys.sems|
  {
    assert |sys.sems| > 0;
    if !(step.Connect? || step.EnsureSession? || step.Admit?) {
      StepSemCountRest(sys, step);
    }
  }

  lemma StepSemCountRest(sys: System, step: Step)
    requires Shape(sys) && !(step.Connect? || step.EnsureSession? || step.Admit?)
    ensures |Next(sys, step).sems| == |sys.sems|
  {
    match step
    case RemoveSession(_, _) =>
    case Try(c) => if c < |sys.calls| && sys.calls[c].phase.Trying? { NotAsleepIsLoose(sys, c); AttemptShape(sys, c, sys.calls[c].phase.tier); }
    case Expire(c) => if c < |sys.calls| && CallOk(sys, sys.calls[c]) && sys.calls[c].phase.Trying? { RefuseSems(sys, c, sys.calls[c].phase.tier, Timeout); }
    case TimerFires(_) =>
    case Resume(c) => if c < |sys.calls| && CallOk(sys, sys.calls[c]) && sys.calls[c].phase.Sleeping? && sys.calls[c].phase.fut != Pending { ResumeBooks(sys, c, 0); }
    case Release(c) => GuardReleaseShape(sys, c);
    case Close(s) => if s < |sys.sems| { CloseShape(sys, s); }
  }

  lemma RefuseSems(sys: System, c: nat, t: nat, why: Overloaded)
    requires c < |sys.calls| && CallOk(sys, sys.calls[c])
    ensures |Refuse(sys, c, t, why).sems| == |sys.sems|
  {
  }

  // ----- the promises -----

  /** Every run, whatever the interleaving of admits, timeouts, closes and releases, keeps the books. */
  lemma {:induction false} EveryRunKeepsLedger(globalCap: nat, steps: seq<Step>)
    ensures Shape(Run(Init(globalCap), steps)) && Ledger(Run(Init(globalCap), steps))
    decreases |steps|
  {
    if steps != [] {
      EveryRunKeepsLedger(globalCap, steps[..|steps| - 1]);
      StepKeepsLedger(Run(Init(globalCap), steps[..|steps| - 1]), steps[|steps| - 1]);
    }
  }

  /** In particular nobody ever holds more permits than there are, open or closed. */
  lemma NeverOversubscribed(globalCap: nat, steps: seq<Step>, u: nat)
    requires u < |Run(Init(globalCap), steps).sems|
    ensures Held(Run(Init(globalCap), steps), u) <= Run(Init(globalCap), steps).sems[u].cap
  {
    var sys := Run(Init(globalCap), steps);
    assert LedgerAt(sys, u) by { EveryRunKeepsLedger(globalCap, steps); }
  }

  /** No step of the run is a timer that loses a wake of `u`. */
  predicate KeepsWakes(sys: System, steps: seq<Step>, u: nat) {
    forall i: nat :: i < |steps| ==> !LosesWake(Run(sys, steps[..i]), steps[i], u)
  }

  /** At no moment of the run does a free permit of `u` lie beside a sleeper without a woken call on its way. */
  predicate NeverIdle(sys: System, steps: seq<Step>, u: nat) {
    forall k: nat :: k <= |steps| && u < |Run(sys, steps[..k]).sems| ==> NoIdleAt(Run(sys, steps[..k]), u)
  }

  /** The exact price of late timers: permits are never idle unless one of them comes at the wrong moment. */
  lemma {:induction false} NoIdlePermit(globalCap: nat, steps: seq<Step>, u: nat)
    ensures NeverIdle(Init(globalCap), steps, u) <==> KeepsWakes(Init(globalCap), steps, u)
    decreases |steps|
  {
    hide LosesWake, NoIdleAt;
    var sys := Init(globalCap);
    if steps == [] {
      FirstIsServed(globalCap, u);
    } else {
      var n := |steps| - 1;
      var before := steps[..n];
      NoIdlePermit(globalCap, before, u);
      assert steps[..n + 1] == steps;
      assert forall k: nat :: k <= n ==> before[..k] == steps[..k];
      EveryRunKeepsLedger(globalCap, before);
      LastStepKeepsExactly(Run(sys, before), steps[n], u);
      NeverIdleSnoc(sys, steps, u);
      KeepsWakesSnoc(sys, steps, u);
    }
  }

  lemma FirstIsServed(globalCap: nat, u: nat)
    ensures NeverIdle(Init(globalCap), [], u)
  {
    var none: seq<Step> := [];
    assert none[..0] == none;
    if u == 0 { assert PendingAt(Init(globalCap), 0) == 0; }
  }

  lemma NeverIdleSnoc(sys: System, steps: seq<Step>, u: nat)
    requires steps != []
    ensures var s := Run(sys, steps); var before := steps[..|steps| - 1];
            NeverIdle(sys, steps, u) <==> NeverIdle(sys, before, u) && (u < |s.sems| ==> NoIdleAt(s, u))
  {
    hide NoIdleAt, Run;
    var n := |steps| - 1;
    var before := steps[..n];
    assert steps[..n + 1] == steps && steps[..n] == before[..n];
    assert forall k: nat :: k <= n ==> before[..k] == steps[..k];
    if NeverIdle(sys, before, u) && (u < |Run(sys, steps).sems| ==> NoIdleAt(Run(sys, steps), u)) {
      forall k: nat | k <= |steps| && u < |Run(sys, steps[..k]).sems| ensures NoIdleAt(Run(sys, steps[..k]), u) {
        if k <= n { assert before[..k] == steps[..k]; }
      }
    }
    if NeverIdle(sys, steps, u) {
      forall k: nat | k <= n && u < |Run(sys, before[..k]).sems| ensures NoIdleAt(Run(sys, before[..k]), u) {
        assert before[..k] == steps[..k];
      }
    }
  }

  lemma KeepsWakesSnoc(sys: System, steps: seq<Step>, u: nat)
    requires steps != []
    ensures var n := |steps| - 1;
            KeepsWakes(sys, steps, u) <==> KeepsWakes(sys, steps[..n], u) && !LosesWake(Run(sys, steps[..n]), steps[n], u)
  {
    hide LosesWake, Run;
    var n := |steps| - 1;
    var before := steps[..n];
    forall i: nat | i < n ensures before[..i] == steps[..i] && before[i] == steps[i] {}
    if KeepsWakes(sys, steps, u) {
      forall i: nat | i < n ensures !LosesWake(Run(sys, before[..i]), before[i], u) { assert before[..i] == steps[..i]; }
    }
    if KeepsWakes(sys, before, u) && !LosesWake(Run(sys, before), steps[n], u) {
      forall i: nat | i < |steps| ensures !LosesWake(Run(sys, steps[..i]), steps[i], u) {
        if i < n { assert before[..i] == steps[..i]; }
      }
    }
  }

  /** From a state with no idle permit at `u`, one step leads to such a state exactly when it loses no wake there. */
  lemma LastStepKeepsExactly(sys: System, step: Step, u: nat)
    requires Shape(sys)
    ensures (u < |sys.sems| ==> NoIdleAt(sys, u)) ==>
      ((u < |Next(sys, step).sems| ==> NoIdleAt(Next(sys, step), u)) <==> !LosesWake(sys, step, u))
  {
    hide Shape;
    if u < |sys.sems| {
      StepBooks(sys, step, u);
      if LosesWake(sys, step, u) { LateTimerLosesWake(sys, step.c); }
    } else if u < |Next(sys, step).sems| {
      FreshSemBooks(sys, step, u);
    }
  }

  /** A late timer loses the wake: exactly when it leaves a free permit idle beside a sleeper. */
  lemma LateTimerLosesWake(sys: System, c: nat)
    requires Shape(sys) && LateTimer(sys, TimerFires(c))
    ensures var u := sys.calls[c].SemAt(sys.calls[c].phase.tier);
            u < |sys.sems| && (NoIdleAt(sys, u) ==> (NoIdleAt(Next(sys, TimerFires(c)), u) <==> !LosesWake(sys, TimerFires(c), u)))
  {
    assert CallOk(sys, sys.calls[c]);
    var u := sys.calls[c].SemAt(sys.calls[c].phase.tier);
    PhaseCounts(sys, c, Sleeping(sys.calls[c].phase.tier, Cancelled), u);
  }

  lemma NoIdleAtEnd(globalCap: nat, steps: seq<Step>, u: nat)
    requires KeepsWakes(Init(globalCap), steps, u) && u < |Run(Init(globalCap), steps).sems|
    ensures NoIdleAt(Run(Init(globalCap), steps), u)
  {
    NoIdlePermit(globalCap, steps, u);
    assert steps[..|steps|] == steps;
  }

  /** A free permit, a call asleep for it, and no woken call to take it. */
  predicate IdleAt(sys: System, u: nat) {
    u < |sys.sems| && sys.sems[u].value > 0 && PendingAt(sys, u) > 0 && WokenAt(sys, u) == 0
  }

  /**
    Fixed order plus no idle permit: as long as no timer of the run lost a wake, some live call
    can move, whatever has been closed.
  */
  lemma NotAllBlocked(globalCap: nat, steps: seq<Step>)
    requires forall u: nat :: KeepsWakes(Init(globalCap), steps, u)
    requires forall u: nat :: u < |Run(Init(globalCap), steps).sems| ==> Run(Init(globalCap), steps).sems[u].cap >= 1
    requires exists c: nat :: c < |Run(Init(globalCap), steps).calls| && Run(Init(globalCap), steps).calls[c].Live()
    ensures exists c: nat :: c < |Run(Init(globalCap), steps).calls|
              && Run(Init(globalCap), steps).calls[c].Live() && !Run(Init(globalCap), steps).calls[c].Blocked()
  {
    var sys := Run(Init(globalCap), steps);
    forall u: nat ensures !IdleAt(sys, u) {
      if u < |sys.sems| { NoIdleAtEnd(globalCap, steps, u); }
    }
    var c: nat :| c < |sys.calls| && sys.calls[c].Live();
    var d := MovesUnlessIdle(globalCap, steps, c);
  }

  /** In any run at all, the only way for every live call to be blocked is a permit lying idle. */
  lemma MovesUnlessIdle(globalCap: nat, steps: seq<Step>, c: nat) returns (d: nat)
    requires forall u: nat :: u < |Run(Init(globalCap), steps).sems| ==> Run(Init(globalCap), steps).sems[u].cap >= 1
    requires c < |Run(Init(globalCap), steps).calls| && Run(Init(globalCap), steps).calls[c].Live()
    requires forall u: nat :: !IdleAt(Run(Init(globalCap), steps), u)
    ensures d < |Run(Init(globalCap), steps).calls|
              && Run(Init(globalCap), steps).calls[d].Live() && !Run(Init(globalCap), steps).calls[d].Blocked()
  {
    EveryRunKeepsLedger(globalCap, steps);
    d := SomeoneMoves(Run(Init(globalCap), steps), c);
  }

  /** Follow the chain: a blocked call waits for a permit whose holder is at a strictly later tier. */
  lemma {:induction false} SomeoneMoves(sys: System, c: nat) returns (d: nat)
    requires Shape(sys) && Ledger(sys) && c < |sys.calls| && sys.calls[c].Live()
    requires forall u: nat :: u < |sys.sems| ==> sys.sems[u].cap >= 1 && !IdleAt(sys, u)
    ensures d < |sys.calls| && sys.calls[d].Live() && !sys.calls[d].Blocked()
    decreases 3 - sys.calls[c].Acquired()
  {
    if !sys.calls[c].Blocked() {
      d := c;
    } else {
      var u := BlockedOn(sys, c);
      if sys.sems[u].value > 0 {
        d := SumWitness(sys.calls, AsleepAt(u, Woken));
      } else {
        var h := SumWitness(sys.calls, HeldBy(u));
        assert CallOk(sys, sys.calls[c]) && CallOk(sys, sys.calls[h]);
        d := SomeoneMoves(sys, h);
      }
    }
  }

  lemma BlockedOn(sys: System, c: nat) returns (u: nat)
    requires Shape(sys) && Ledger(sys) && c < |sys.calls| && sys.calls[c].Blocked()
    requires forall u: nat :: u < |sys.sems| ==> sys.sems[u].cap >= 1 && !IdleAt(sys, u)
    ensures u < |sys.sems| && u == sys.calls[c].SemAt(sys.calls[c].phase.tier) && sys.sems[u].tier == sys.calls[c].phase.tier < 3
    ensures sys.sems[u].value > 0 ==> WokenAt(sys, u) > 0
    ensures sys.sems[u].value == 0 ==> Held(sys, u) >= 1
  {
    assert CallOk(sys, sys.calls[c]);
    u := sys.calls[c].SemAt(sys.calls[c].phase.tier);
    TermBelowSum(sys.calls, c, AsleepAt(u, Pending));
    if sys.sems[u].closed { ClosedHasNoSleepers(sys, u); }
    assert !IdleAt(sys, u) && LedgerAt(sys, u);
  }

  /** With nobody mid-wake, a semaphore somebody sleeps on has no free permit. */
  lemma QuiescentIsFull(globalCap: nat, steps: seq<Step>, u: nat)
    requires KeepsWakes(Init(globalCap), steps, u) && u < |Run(Init(globalCap), steps).sems|
    requires PendingAt(Run(Init(globalCap), steps), u) > 0 && WokenAt(Run(Init(globalCap), steps), u) == 0
    ensures Run(Init(globalCap), steps).sems[u].value == 0
    ensures Held(Run(Init(globalCap), steps), u) == Run(Init(globalCap), steps).sems[u].cap
  {
    var sys := Run(Init(globalCap), steps);
    assert LedgerAt(sys, u) && (sys.sems[u].closed ==> PendingAt(sys, u) == 0) by {
      EveryRunKeepsLedger(globalCap, steps);
      if sys.sems[u].closed { ClosedHasNoSleepers(sys, u); }
    }
    NoIdleAtEnd(globalCap, steps, u);
  }

  // ----- refusals and guards -----

  lemma RefusalGivesBack(sys: System, step: Step, c: nat, u: nat)
    requires Shape(sys) && c < |sys.calls| && u < |sys.sems|
    requires !sys.calls[c].phase.Refused?
    requires c < |Next(sys, step).calls| && Next(sys, step).calls[c].phase.Refused?
    ensures |Next(sys, step).sems| == |sys.sems| && GaveBack(sys, Next(sys, step), sys.calls[c], u)
    ensures HeldBy(u)(Next(sys, step).calls[c]) == 0
  {
    hide SemOk, Attempt, Refuse, GaveBack;
    assert CallOk(sys, sys.calls[c]);
    match step
    case Try(d) =>
      if d < |sys.calls| && CallOk(sys, sys.calls[d]) && sys.calls[d].phase.Trying? {
        NotAsleepIsLoose(sys, d);
        AttemptRefusal(sys, d, sys.calls[d].phase.tier, c, u);
      }
    case Expire(d) =>
      if d < |sys.calls| && CallOk(sys, sys.calls[d]) && sys.calls[d].phase.Trying? {
        NotAsleepIsLoose(sys, d);
        TimeoutRefusal(sys, d, sys.calls[d].phase.tier, c, u);
      }
    case Resume(d) =>
      if d < |sys.calls| && CallOk(sys, sys.calls[d]) && sys.calls[d].phase.Sleeping? && sys.calls[d].phase.fut != Pending {
        ResumeRefusal(sys, d, c, u);
      }
    case Release(d) => GuardReleaseCalls(sys, d);
    case Close(s) => if s < |sys.sems| { CloseShape(sys, s); }
    case Connect(_, _) =>
    case EnsureSession(_, _) =>
    case RemoveSession(_, _) =>
    case Admit(_, _) =>
    case TimerFires(_) =>
  }

  lemma TimeoutRefusal(sys: System, d: nat, t: nat, c: nat, u: nat)
    requires Shape(sys) && d < |sys.calls| && CallOk(sys, sys.calls[d]) && Loose(sys, d)
    requires !sys.calls[d].Blocked() && sys.calls[d].Acquired() == t < 3
    requires c < |sys.calls| && u < |sys.sems| && !sys.calls[c].phase.Refused?
    requires c < |Refuse(sys, d, t, Timeout).calls| && Refuse(sys, d, t, Timeout).calls[c].phase.Refused?
    ensures c == d && |Refuse(sys, d, t, Timeout).sems| == |sys.sems| && GaveBack(sys, Refuse(sys, d, t, Timeout), sys.calls[c], u)
  {
    RefuseShape(sys, d, t, Timeout);
    RefuseBooks(sys, d, t, Timeout, u);
  }

  lemma ResumeRefusal(sys: System, d: nat, c: nat, u: nat)
    requires Shape(sys) && c < |sys.calls| && u < |sys.sems| && !sys.calls[c].phase.Refused?
    requires d < |sys.calls| && CallOk(sys, sys.calls[d]) && sys.calls[d].phase.Sleeping? && sys.calls[d].phase.fut != Pending
    requires c < |Next(sys, Resume(d)).calls| && Next(sys, Resume(d)).calls[c].phase.Refused?
    ensures |Next(sys, Resume(d)).sems| == |sys.sems| && GaveBack(sys, Next(sys, Resume(d)), sys.calls[c], u)
  {
    hide SemOk, Attempt, Refuse;
    var t := sys.calls[d].phase.tier;
    UnqueueShape(sys, d);
    var out := Unqueue(sys, d, sys.calls[d].SemAt(t));
    assert out.calls == sys.calls && out.sems[u].value == sys.sems[u].value && out.sems[u].closed == sys.sems[u].closed;
    if sys.calls[d].phase.fut == Cancelled {
      TimeoutRefusal(out, d, t, c, u);
    } else {
      AttemptRefusal(out, d, t, c, u);
    }
  }

  lemma AttemptRefusal(sys: System, d: nat, t: nat, c: nat, u: nat)
    requires Shape(sys) && d < |sys.calls| && CallOk(sys, sys.calls[d]) && Loose(sys, d) && t < 3
    requires sys.calls[d].phase == Trying(t) || sys.calls[d].phase == Sleeping(t, Woken)
    requires c < |sys.calls| && u < |sys.sems| && !sys.calls[c].phase.Refused?
    requires c < |Attempt(sys, d, t).calls| && Attempt(sys, d, t).calls[c].phase.Refused?
    ensures c == d && |Attempt(sys, d, t).sems| == |sys.sems| && GaveBack(sys, Attempt(sys, d, t), sys.calls[c], u)
    ensures Attempt(sys, d, t).calls[c].phase == Refused(Shutdown)
  {
    if sys.sems[sys.calls[d].SemAt(t)].closed {
      RefuseShape(sys, d, t, Shutdown);
      RefuseBooks(sys, d, t, Shutdown, u);
    }
  }

  lemma GuardReleaseCalls(sys: System, d: nat)
    requires Shape(sys)
    ensures |Next(sys, Release(d)).calls| == |sys.calls|
    ensures forall c: nat :: c < |sys.calls| ==> var p := Next(sys, Release(d)).calls[c].phase;
              p == sys.calls[c].phase || (p.Sleeping? && sys.calls[c].Blocked())
              || (c == d && p == Released && sys.calls[c].phase == Admitted)
  {
    if d < |sys.calls| && CallOk(sys, sys.calls[d]) && sys.calls[d].phase == Admitted {
      var call := sys.calls[d];
      var s0 := SetPhase(sys, d, Released);
      NotAsleepIsLoose(sys, d);
      SetPhaseShape(sys, d, Released);
      var s1 := ReleaseSem(s0, call.global);
      ReleaseShape(s0, call.global);
      ReleaseShape(s1, call.conn);
      ReleaseShape(ReleaseSem(s1, call.conn), call.session);
    }
  }

  /** A finished call is never touched again. */
  lemma FinishedStays(sys: System, step: Step, c: nat)
    requires Shape(sys) && c < |sys.calls| && (sys.calls[c].phase == Released || sys.calls[c].phase.Refused?)
    ensures c < |Next(sys, step).calls| && Next(sys, step).calls[c] == sys.calls[c]
  {
    hide SemOk, Attempt, Refuse;
    match step
    case Try(d) =>
      if d < |sys.calls| && CallOk(sys, sys.calls[d]) && sys.calls[d].phase.Trying? {
        NotAsleepIsLoose(sys, d);
        AttemptCalls(sys, d, sys.calls[d].phase.tier, c);
      }
    case Expire(d) =>
      if d < |sys.calls| && CallOk(sys, sys.calls[d]) && sys.calls[d].phase.Trying? {
        NotAsleepIsLoose(sys, d);
        RefuseShape(sys, d, sys.calls[d].phase.tier, Timeout);
      }
    case Resume(d) =>
      if d < |sys.calls| && CallOk(sys, sys.calls[d]) && sys.calls[d].phase.Sleeping? && sys.calls[d].phase.fut != Pending {
        var t := sys.calls[d].phase.tier;
        UnqueueShape(sys, d);
        var out := Unqueue(sys, d, sys.calls[d].SemAt(t));
        if sys.calls[d].phase.fut == Cancelled { RefuseShape(out, d, t, Timeout); } else { AttemptCalls(out, d, t, c); }
      }
    case Release(d) => GuardReleaseCalls(sys, d); GuardReleaseKeeps(sys, d, c);
    case Close(s) => if s < |sys.sems| { CloseShape(sys, s); }
    case Connect(_, _) =>
    case EnsureSession(_, _) =>
    case RemoveSession(_, _) =>
    case Admit(_, _) =>
    case TimerFires(_) =>
  }

  lemma AttemptCalls(sys: System, d: nat, t: nat, c: nat)
    requires Shape(sys) && d < |sys.calls| && CallOk(sys, sys.calls[d]) && Loose(sys, d) && t < 3
    requires c < |sys.calls| && c != d && !sys.calls[c].Blocked()
    ensures c < |Attempt(sys, d, t).calls| && Attempt(sys, d, t).calls[c] == sys.calls[c]
  {
    if sys.sems[sys.calls[d].SemAt(t)].closed { RefuseShape(sys, d, t, Shutdown); }
  }

  lemma GuardReleaseKeeps(sys: System, d: nat, c: nat)
    requires Shape(sys) && c < |sys.calls| && !sys.calls[c].Blocked() && sys.calls[c].phase != Admitted
    ensures c < |Next(sys, Release(d)).calls| && Next(sys, Release(d)).calls[c] == sys.calls[c]
  {
    if d < |sys.calls| && CallOk(sys, sys.calls[d]) && sys.calls[d].phase == Admitted {
      var call := sys.calls[d];
      var s0 := SetPhase(sys, d, Released);
      NotAsleepIsLoose(sys, d);
      SetPhaseShape(sys, d, Released);
      var s1 := ReleaseSem(s0, call.global);
      ReleaseShape(s0, call.global);
      ReleaseShape(s1, call.conn);
      ReleaseShape(ReleaseSem(s1, call.conn), call.session);
    }
  }

  /** However much happens in between, releasing a released guard again changes nothing at all. */
  lemma {:induction false} SecondReleaseIsNoOp(sys: System, steps: seq<Step>, c: nat)
    requires Shape(sys) && c < |sys.calls| && sys.calls[c].phase == Released
    ensures Shape(Run(sys, steps)) && c < |Run(sys, steps).calls| && Run(sys, steps).calls[c].phase == Released
    ensures Next(Run(sys, steps), Release(c)) == Run(sys, steps)
    decreases |steps|
  {
    if steps != [] {
      SecondReleaseIsNoOp(sys, steps[..|steps| - 1], c);
      NextShape(Run(sys, steps[..|steps| - 1]), steps[|steps| - 1]);
      FinishedStays(Run(sys, steps[..|steps| - 1]), steps[|steps| - 1], c);
    }
  }

  lemma RunSnoc(sys: System, steps: seq<Step>, step: Step)
    ensures Run(sys, steps + [step]) == Next(Run(sys, steps), step)
  {
    assert (steps + [step])[..|steps|] == steps;
  }

  function ThreeCalls(): seq<Step> {
    [Connect(1, 1), EnsureSession(0, "s"), Admit(0, "s"), Admit(0, "s"), Admit(0, "s")]
  }

  /** One session permit: the first call holds it, the next two queue behind it. */
  function TwoQueued(): seq<Step> {
    ThreeCalls() + [Try(0)] + [Try(0)] + [Try(0)] + [Try(1)] + [Try(2)]
  }

  function Small(values: (nat, nat, nat), waiters: seq<nat>, a: Phase, b: Phase, c: Phase): System {
    System([Sem(1, 2, values.2, false, []), Sem(1, 1, values.1, false, []), Sem(1, 0, values.0, false, waiters)],
           [Call(2, 1, 0, a), Call(2, 1, 0, b), Call(2, 1, 0, c)],
           [Conn(1, 1, map["s" := 2])])
  }

  lemma ThreeCallsState()
    ensures Run(Init(1), ThreeCalls()) == Small((1, 1, 1), [], Trying(0), Trying(0), Trying(0))
  {
    var steps := ThreeCalls();
    forall k: nat | k < |steps| ensures Run(Init(1), steps[..k + 1]) == Next(Run(Init(1), steps[..k]), steps[k]) {
      assert steps[..k + 1][..k] == steps[..k];
    }
    assert Run(Init(1), steps[..0]) == Init(1);
    var bound := System([NewSem(1, 2), NewSem(1, 1), NewSem(1, 0)], [], [Conn(1, 1, map["s" := 2])]);
    assert Run(Init(1), steps[..2]) == bound;
    assert Run(Init(1), steps[..3]).calls == [Call(2, 1, 0, Trying(0))];
    assert Run(Init(1), steps[..5]) == Small((1, 1, 1), [], Trying(0), Trying(0), Trying(0));
    assert steps[..5] == steps;
  }

  lemma TwoQueuedState()
    ensures Run(Init(1), TwoQueued()) == Small((0, 0, 0), [1, 2], Admitted, Sleeping(0, Pending), Sleeping(0, Pending))
  {
    ThreeCallsState();
    var s0 := ThreeCalls();
    RunSnoc(Init(1), s0, Try(0));
    assert Run(Init(1), s0 + [Try(0)]) == Small((0, 1, 1), [], Trying(1), Trying(0), Trying(0));
    RunSnoc(Init(1), s0 + [Try(0)], Try(0));
    assert Run(Init(1), s0 + [Try(0)] + [Try(0)]) == Small((0, 0, 1), [], Trying(2), Trying(0), Trying(0));
    RunSnoc(Init(1), s0 + [Try(0)] + [Try(0)], Try(0));
    var s3 := s0 + [Try(0)] + [Try(0)] + [Try(0)];
    assert Run(Init(1), s3) == Small((0, 0, 0), [], Admitted, Trying(0), Trying(0));
    RunSnoc(Init(1), s3, Try(1));
    var none: seq<nat> := [];
    assert none + [1] == [1];
    assert Run(Init(1), s3 + [Try(1)]) == Small((0, 0, 0), [1], Admitted, Sleeping(0, Pending), Trying(0));
    RunSnoc(Init(1), s3 + [Try(1)], Try(2));
    assert [1] + [2] == [1, 2];
  }

  lemma HolderLeaves()
    ensures Next(Small((0, 0, 0), [1, 2], Admitted, Sleeping(0, Pending), Sleeping(0, Pending)), Release(0))
         == Small((1, 1, 1), [2], Released, Sleeping(0, Woken), Sleeping(0, Pending))
  {
    var y0 := Small((0, 0, 0), [1, 2], Admitted, Sleeping(0, Pending), Sleeping(0, Pending));
    var r2 := ReleaseSem(ReleaseSem(SetPhase(y0, 0, Released), 0), 1);
    assert r2 == Small((0, 1, 1), [1, 2], Released, Sleeping(0, Pending), Sleeping(0, Pending));
    assert Futs(r2, [1, 2])[0] == Pending;
    assert [1, 2][1..] == [2];
  }

  lemma WokenGivesUp()
    ensures var y := Small((1, 1, 1), [2], Released, Sleeping(0, Woken), Sleeping(0, Pending));
            Next(Next(y, TimerFires(1)), Resume(1)) == Small((1, 1, 1), [2], Released, Refused(Timeout), Sleeping(0, Pending))
  {
    assert Without([2], 1) == [2];
  }

  /**
    The holder releases, the woken call's timer fires before it runs, and it gives up without
    passing the wake on: a free permit, a sleeper nobody will wake, and no other live call.
  */
  lemma LostWake()
    ensures exists steps :: var sys := Run(Init(1), steps);
              && |sys.sems| == 3 && |sys.calls| == 3 && sys.sems[2].value == 1 && sys.sems[2].cap == 1
              && sys.calls[2].Blocked() && sys.calls[2].SemAt(0) == 2 && !sys.calls[0].Live() && !sys.calls[1].Live()
  {
    TwoQueuedState();
    var s1 := TwoQueued() + [Release(0)];
    RunSnoc(Init(1), TwoQueued(), Release(0));
    HolderLeaves();
    RunSnoc(Init(1), s1, TimerFires(1));
    RunSnoc(Init(1), s1 + [TimerFires(1)], Resume(1));
    WokenGivesUp();
    var steps := s1 + [TimerFires(1)] + [Resume(1)];
    assert Run(Init(1), steps) == Small((1, 1, 1), [2], Released, Refused(Timeout), Sleeping(0, Pending));
  }
}

/** The two classes of the source; where the wake loop of `release` stops is shared with the state machine. */
module AdmissionObjects {
  import opened Admission

  /** The future a sleeper awaits. */
  class Waiter {
    var state: Fut
    constructor ()
      ensures state == Pending
    { state := Pending; }
  }

  datatype Pass = Got | Closed | Sleep(w: Waiter)

  class ClosableSemaphore {
    var value: nat
    var waiters: seq<Waiter>
    var closed: bool

    constructor (value: nat)
      ensures this.value == value && waiters == [] && !closed
    {
      this.value, waiters, closed := value, [], false;
    }

    ghost predicate Valid()
      reads this
    {
      forall i, j :: 0 <= i < j < |waiters| ==> waiters[i] != waiters[j]
    }

    /** The states of the queued futures, head first. */
    ghost function States(): (r: seq<Fut>)
      reads this, waiters
      ensures |r| == |waiters|
    {
      seq(|waiters|, i requires 0 <= i < |waiters| reads this, waiters => waiters[i].state)
    }

    method Close()
      requires Valid()
      modifies this, waiters
      ensures closed && waiters == [] && value == old(value) && Valid()
      ensures forall w :: w in old(waiters) ==> w.state == (if old(w.state) == Pending then Woken else old(w.state))
    {
      closed := true;
      var i := 0;
      while i < |waiters|
        invariant 0 <= i <= |waiters| && waiters == old(waiters) && value == old(value) && closed
        invariant forall j :: 0 <= j < i ==> waiters[j].state == (if old(waiters[j].state) == Pending then Woken else old(waiters[j].state))
        invariant forall j :: i <= j < |waiters| ==> waiters[j].state == old(waiters[j].state)
        modifies waiters
      {
        if waiters[i].state == Pending { waiters[i].state := Woken; }
        i := i + 1;
      }
      waiters := [];
    }

    /** One pass of the loop in `acquire`; `Sleep` hands back the future the caller awaits. */
    method Attempt() returns (p: Pass)
      requires Valid()
      modifies this
      ensures Valid() && closed == old(closed)
      ensures p.Closed? <==> old(closed)
      ensures p.Got? <==> !old(closed) && old(value) > 0
      ensures value == if p.Got? then old(value) - 1 else old(value)
      ensures waiters == if p.Sleep? then old(waiters) + [p.w] else old(waiters)
      ensures p.Sleep? ==> fresh(p.w) && p.w.state == Pending
    {
      if closed { return Closed; }
      if value > 0 {
        value := value - 1;
        return Got;
      }
      var w := new Waiter();
      waiters := waiters + [w];
      return Sleep(w);
    }

    /** One permit back and the first untouched sleeper woken; finished futures ahead of it are dropped. */
    method Release()
      requires Valid()
      modifies this, waiters
      ensures Valid() && closed == old(closed)
      ensures old(closed) ==> value == old(value) && waiters == old(waiters) && forall w :: w in waiters ==> w.state == old(w.state)
      ensures !old(closed) ==> value == old(value) + 1
      ensures !old(closed) ==> var k := FirstPending(old(States())); var ws := old(waiters);
                && waiters == (if k < |ws| then ws[k + 1..] else [])
                && forall i :: 0 <= i < |ws| ==> ws[i].state == (if i == k then Woken else old(ws[i].state))
    {
      if closed { return; }
      value := value + 1;
      ghost var ws := waiters;
      ghost var states := States();
      ghost var n := 0;
      while waiters != []
        invariant n <= |ws| && waiters == ws[n..]
        invariant ws == old(waiters) && value == old(value) + 1 && !closed && states == old(States())
        invariant forall i :: 0 <= i < |ws| ==> ws[i].state == old(ws[i].state) && ws[i].state == states[i]
        invariant FirstPending(states) >= n
        modifies this, ws
        decreases |waiters|
      {
        var w := waiters[0];
        waiters := waiters[1..];
        if w.state == Pending {
          w.state := Woken;
          FirstPendingIs(states, n);
          return;
        }
        FirstPendingBeyond(states, n);
        n := n + 1;
      }
    }
  }

  lemma FirstPendingIs(states: seq<Fut>, n: nat)
    requires n < |states| && states[n] == Pending && FirstPending(states) >= n
    ensures FirstPending(states) == n
  {
  }

  lemma FirstPendingBeyond(states: seq<Fut>, n: nat)
    requires n < |states| && states[n] != Pending && FirstPending(states) >= n
    ensures FirstPending(states) > n
  {
  }

  class AdmitGuard {
    const session: ClosableSemaphore
    const conn: ClosableSemaphore
    const global: ClosableSemaphore
    var released: bool

    constructor (session: ClosableSemaphore, conn: ClosableSemaphore, global: ClosableSemaphore)
      ensures this.session == session && this.conn == conn && this.global == global && !released
    {
      this.session, this.conn, this.global, released := session, conn, global, false;
    }

    /** Frees one permit at each open scope the first time, nothing ever after. */
    method Release()
      requires session.Valid() && conn.Valid() && global.Valid()
      requires session != conn && session != global && conn != global
      requires forall w :: w in session.waiters ==> w !in conn.waiters && w !in global.waiters
      requires forall w :: w in conn.waiters ==> w !in global.waiters
      modifies this, session, conn, global, session.waiters, conn.waiters, global.waiters
      ensures released
      ensures global.value == old(global.value) + (if old(released) || old(global.closed) then 0 else 1)
      ensures conn.value == old(conn.value) + (if old(released) || old(conn.closed) then 0 else 1)
      ensures session.value == old(session.value) + (if old(released) || old(session.closed) then 0 else 1)
      ensures old(released) ==> unchanged(this, session, conn, global) && unchanged(old(session.waiters + conn.waiters + global.waiters))
    {
      hide FirstPending;
      if released { return; }
      released := true;
      global.Release();
      conn.Release();
      session.Release();
    }
  }
}
