/**
  Consent for tools under an `ask` rule: each request parks a future until the user answers, a
  timer fires, or everything is cancelled.
*/
module Consent {
  import opened Basics

  datatype Fut = Unset | Answered(allow: bool) | Expired

  // ----- the gater and the server-side registry -----

  class Future {
    var state: Fut
    constructor ()
      ensures state == Unset
    { state := Unset; }
  }

  function Denied(f: Fut): Fut { if f == Unset then Answered(false) else f }

  /** `set_result` guarded by `done`. */
  method DenyIfOpen(f: Future) returns (hit: bool)
    modifies f
    ensures hit == (old(f.state) == Unset) && f.state == Denied(old(f.state))
  {
    hit := f.state == Unset;
    if hit { f.state := Answered(false); }
  }

  class PermissionGater {
    var pending: map<string, Future>

    constructor ()
      ensures pending == map[]
    { pending := map[]; }

    ghost predicate Valid()
      reads this
    {
      forall a, b :: a in pending && b in pending && a != b ==> pending[a] != pending[b]
    }

    /** The first thing `request_consent` does with its fresh id. */
    method Park(id: string) returns (f: Future)
      requires Valid() && id !in pending
      modifies this
      ensures Valid() && fresh(f) && f.state == Unset && pending == old(pending)[id := f]
    {
      f := new Future();
      pending := pending[id := f];
    }

    method Forget(id: string)
      requires Valid()
      modifies this
      ensures Valid() && pending == old(pending) - {id}
    {
      pending := pending - {id};
    }

    /** Sets an open future; an id that is pending but already decided is still claimed, unchanged. */
    method Resolve(id: string, decision: bool) returns (claimed: bool)
      requires Valid()
      modifies pending.Values
      ensures claimed <==> id in pending
      ensures forall k :: k in pending ==>
        pending[k].state == if k == id && old(pending[k].state) == Unset then Answered(decision) else old(pending[k].state)
    {
      if id !in pending { return false; }
      if pending[id].state != Unset { return true; }
      pending[id].state := Answered(decision);
      claimed := true;
    }

    /** The ids whose futures are still open. */
    ghost function OpenIds(): set<string>
      reads this, pending.Values
    {
      set k | k in pending && pending[k].state == Unset
    }

    method CancelAll() returns (count: nat)
      requires Valid()
      modifies pending.Values
      ensures forall k :: k in pending ==> pending[k].state == Denied(old(pending[k].state))
      ensures count == |old(OpenIds())|
    {
      count := 0;
      var rest := pending.Keys;
      ghost var hits: set<string> := {};
      while rest != {}
        invariant rest <= pending.Keys && hits !! rest && count == |hits|
        invariant forall k :: k in rest ==> pending[k].state == old(pending[k].state)
        invariant forall k :: k in pending && k !in rest ==> pending[k].state == Denied(old(pending[k].state))
        invariant forall k :: k in hits <==> k in pending && k !in rest && old(pending[k].state) == Unset
        decreases |rest|
      {
        var k :| k in rest;
        assert forall j :: j in pending && j != k ==> pending[j] != pending[k];
        var hit := DenyIfOpen(pending[k]);
        if hit {
          count := count + 1;
          hits := hits + {k};
        }
        rest := rest - {k};
      }
      assert hits == old(OpenIds());
    }
  }

  /** The server's record of live gaters: one per session, and the slot older readers look at. */
  class GaterRegistry {
    var gaters: map<string, PermissionGater>
    var legacy: PermissionGater?

    constructor ()
      ensures gaters == map[] && legacy == null
    { gaters, legacy := map[], null; }

    /** The gaters an answer can still reach. */
    ghost function Reachable(): set<PermissionGater?>
      reads this
    {
      (set k | k in gaters :: gaters[k]) + if legacy == null then {} else {legacy}
    }

    method RegisterGater(session: string, gater: PermissionGater)
      modifies this
      ensures gaters == old(gaters)[session := gater] && legacy == gater
      ensures gater in Reachable()
    {
      gaters := gaters[session := gater];
      legacy := gater;
    }

    /** The gater of `session` is also registered for another one. */
    ghost predicate Shared(session: string)
      requires session in gaters
      reads this
    {
      exists k :: k in gaters && k != session && gaters[k] == gaters[session]
    }

    /** A finished run's gater is out of reach by every path, unless another session has it too; nobody else's is. */
    method UnregisterGater(session: string)
      modifies this
      ensures gaters == old(gaters) - {session}
      ensures session in old(gaters) ==>
        Reachable() == if old(Shared(session)) then old(Reachable()) else old(Reachable()) - {old(gaters)[session]}
      ensures legacy == if session in old(gaters) && old(legacy) == old(gaters)[session] then null else old(legacy)
    {
      if session in gaters {
        var gater := gaters[session];
        gaters := gaters - {session};
        if legacy == gater { legacy := null; }
        forall x | x in old(Reachable()) && x != gater ensures x in Reachable() {
          if x != old(legacy) {
            var k :| k in old(gaters) && old(gaters)[k] == x;
            assert k in gaters && gaters[k] == x;
          }
        }
        if old(Shared(session)) {
          var k :| k in old(gaters) && k != session && old(gaters)[k] == gater;
          assert k in gaters && gaters[k] == gater;
        }
      }
    }
  }

  /** Where a walk over the live gaters stops: the first that knows the id. */
  ghost function FirstOwner(gaters: seq<PermissionGater>, id: string): (j: nat)
    reads gaters
    ensures j <= |gaters| && forall i :: 0 <= i < j ==> id !in gaters[i].pending
    ensures j < |gaters| ==> id in gaters[j].pending
  {
    if gaters == [] || id in gaters[0].pending then 0 else 1 + FirstOwner(gaters[1..], id)
  }

  /**
    Offers the answer to the run-scoped gaters in turn, the legacy slot last, and stops at the
    first that claims the id; no future of any other request changes.
  */
  method ResolveAny(gaters: seq<PermissionGater>, id: string, decision: bool) returns (claimed: bool)
    requires forall g :: g in gaters ==> g.Valid()
    modifies set g, k | g in gaters && k in g.pending :: g.pending[k]
    ensures claimed <==> FirstOwner(gaters, id) < |gaters|
    ensures forall g, k :: g in gaters && k in g.pending ==>
      g.pending[k].state == if claimed && g.pending[k] == gaters[FirstOwner(gaters, id)].pending[id] && old(g.pending[k].state) == Unset
                            then Answered(decision) else old(g.pending[k].state)
  {
    ghost var j := FirstOwner(gaters, id);
    for i := 0 to |gaters|
      invariant i <= j
      invariant forall g, k :: g in gaters && k in g.pending ==> g.pending[k].state == old(g.pending[k].state)
    {
      claimed := gaters[i].Resolve(id, decision);
      if claimed { return; }
    }
    claimed := false;
  }

  // ----- every interleaving of many requests -----

  datatype Phase = Emitting | Waiting | Leaving(result: bool) | Returned(result: bool)

  datatype Request = Request(fut: Fut, phase: Phase)

  /** Request `i` is pending from its first step until it is forgotten. */
  datatype Gate = Gate(requests: seq<Request>, pending: set<nat>)

  datatype Step =
    | Begin                          // a tool call asks for consent
    | Emitted(i: nat)                // the prompt went out
    | EmitFails(i: nat)              // or it could not
    | Resolve(i: nat, allow: bool)   // the user answers
    | CancelAll
    | TimerFires(i: nat, keeps: bool)  // the timeout elapses; up to Python 3.11 an answer already there still counts
    | Wake(i: nat)                   // the waiting task runs with its answer
    | Forget(i: nat)                 // the pending entry is dropped and the call returns

  function Init(): Gate { Gate([], {}) }

  function Decide(r: Request, allow: bool): Request { if r.fut == Unset then r.(fut := Answered(allow)) else r }

  predicate Enabled(g: Gate, step: Step) {
    match step
    case Begin => true
    case Emitted(i) => i < |g.requests| && g.requests[i].phase.Emitting?
    case EmitFails(i) => i < |g.requests| && g.requests[i].phase.Emitting?
    case Resolve(i, _) => i < |g.requests| && i in g.pending
    case CancelAll => true
    case TimerFires(i, _) => i < |g.requests| && g.requests[i].phase.Waiting?
    case Wake(i) => i < |g.requests| && g.requests[i].phase.Waiting? && g.requests[i].fut.Answered?
    case Forget(i) => i < |g.requests| && g.requests[i].phase.Leaving?
  }

  function Next(g: Gate, step: Step): Gate {
    if !Enabled(g, step) then g
    else
      match step
      case Begin => Gate(g.requests + [Request(Unset, Emitting)], g.pending + {|g.requests|})
      case Emitted(i) => g.(requests := g.requests[i := g.requests[i].(phase := Waiting)])
      case EmitFails(i) => g.(requests := g.requests[i := g.requests[i].(phase := Leaving(false))])
      case Resolve(i, allow) => g.(requests := g.requests[i := Decide(g.requests[i], allow)])
      case CancelAll =>
        g.(requests := seq(|g.requests|, i requires 0 <= i < |g.requests| =>
                             if i in g.pending then Decide(g.requests[i], false) else g.requests[i]))
      case TimerFires(i, keeps) =>
        var fut := if g.requests[i].fut == Unset then Expired else g.requests[i].fut;
        g.(requests := g.requests[i := Request(fut, Leaving(keeps && fut.Answered? && fut.allow))])
      case Wake(i) => g.(requests := g.requests[i := g.requests[i].(phase := Leaving(g.requests[i].fut.allow))])
      case Forget(i) =>
        Gate(g.requests[i := g.requests[i].(phase := Returned(g.requests[i].phase.result))], g.pending - {i})
  }

  function Run(steps: seq<Step>, n: nat): Gate
    requires n <= |steps|
  {
    if n == 0 then Init() else Next(Run(steps, n - 1), steps[n - 1])
  }

  lemma {:induction false} RunPrefix(steps: seq<Step>, more: seq<Step>, n: nat)
    requires n <= |steps|
    ensures Run(steps + more, n) == Run(steps, n)
  {
    if n > 0 { RunPrefix(steps, more, n - 1); }
  }

  lemma RunSnoc(steps: seq<Step>, step: Step)
    ensures Run(steps + [step], |steps| + 1) == Next(Run(steps, |steps|), step)
  {
    RunPrefix(steps, [step], |steps|);
  }

  /** This step answers request `i` while it is pending. */
  predicate Answers(g: Gate, step: Step, i: nat, allow: bool) {
    i < |g.requests| && i in g.pending && (step == Resolve(i, allow) || (step.CancelAll? && !allow))
  }

  /** This step ends the wait of request `i` without an answer: no prompt, or no time left. */
  predicate GivesUp(g: Gate, step: Step, i: nat) {
    && Enabled(g, step)
    && (step == EmitFails(i) || (step.TimerFires? && step.i == i && !(step.keeps && g.requests[i].fut.Answered?)))
  }

  ghost predicate AnswersAt(steps: seq<Step>, k: int, i: nat, allow: bool) {
    0 <= k < |steps| && Answers(Run(steps, k), steps[k], i, allow)
  }

  ghost predicate GivesUpAt(steps: seq<Step>, k: int, i: nat) { 0 <= k < |steps| && GivesUp(Run(steps, k), steps[k], i) }

  ghost predicate Quiet(steps: seq<Step>, n: int, i: nat) {
    forall j :: 0 <= j < n ==> !AnswersAt(steps, j, i, true) && !AnswersAt(steps, j, i, false) && !GivesUpAt(steps, j, i)
  }

  /** The first thing to happen to request `i` among the first `n` steps is this answer. */
  ghost predicate FirstAnswer(steps: seq<Step>, n: nat, i: nat, allow: bool) {
    exists k :: 0 <= k < n && AnswersAt(steps, k, i, allow) && Quiet(steps, k, i)
  }

  ghost predicate GaveUp(steps: seq<Step>, n: nat, i: nat) { exists k :: 0 <= k < n && GivesUpAt(steps, k, i) }

  /** What a request's state says about its history. */
  datatype Past = Past(gaveUp: bool, quiet: bool, allowed: bool, denied: bool)

  predicate Tells(r: Request, isPending: bool, past: Past) {
    && (isPending <==> !r.phase.Returned?)
    && (r.phase.Emitting? || r.phase.Waiting? ==>
          !past.gaveUp
          && (match r.fut
              case Unset => past.quiet
              case Answered(allow) => if allow then past.allowed else past.denied
              case Expired => false))
    && (r.phase.Leaving? || r.phase.Returned? ==>
          if r.phase.result then past.allowed && !past.gaveUp else past.denied || past.gaveUp)
  }

  ghost function PastOf(steps: seq<Step>, n: nat, i: nat): Past {
    Past(GaveUp(steps, n, i), Quiet(steps, n, i), FirstAnswer(steps, n, i, true), FirstAnswer(steps, n, i, false))
  }

  ghost predicate Story(steps: seq<Step>, n: nat, i: nat)
    requires n <= |steps| && i < |Run(steps, n).requests|
  {
    Tells(Run(steps, n).requests[i], i in Run(steps, n).pending, PastOf(steps, n, i))
  }

  lemma NotBothFirst(steps: seq<Step>, a: int, b: int, i: nat)
    requires AnswersAt(steps, a, i, true) && Quiet(steps, a, i) && AnswersAt(steps, b, i, false)
    ensures !Quiet(steps, b, i)
  {
  }

  lemma OneFirstAnswer(steps: seq<Step>, n: nat, i: nat)
    ensures !(FirstAnswer(steps, n, i, true) && FirstAnswer(steps, n, i, false))
  {
    forall a, b | AnswersAt(steps, a, i, true) && Quiet(steps, a, i) && AnswersAt(steps, b, i, false) ensures !Quiet(steps, b, i) {
      NotBothFirst(steps, a, b, i);
    }
  }

  lemma HistoryGrows(steps: seq<Step>, n: nat, i: nat)
    requires 0 < n <= |steps|
    ensures FirstAnswer(steps, n - 1, i, true) ==> FirstAnswer(steps, n, i, true)
    ensures FirstAnswer(steps, n - 1, i, false) ==> FirstAnswer(steps, n, i, false)
    ensures GaveUp(steps, n, i) <==> GaveUp(steps, n - 1, i) || GivesUpAt(steps, n - 1, i)
    ensures Quiet(steps, n, i) <==>
      Quiet(steps, n - 1, i) && !AnswersAt(steps, n - 1, i, true) && !AnswersAt(steps, n - 1, i, false) && !GivesUpAt(steps, n - 1, i)
  {
  }

  lemma {:induction false} EveryRequestTellsItsStory(steps: seq<Step>, n: nat, i: nat)
    requires n <= |steps| && i < |Run(steps, n).requests|
    ensures Story(steps, n, i) && forall p :: p in Run(steps, n).pending ==> p < |Run(steps, n).requests|
  {
    hide FirstAnswer, GaveUp;
    if n > 0 {
      PendingBounded(steps, n);
      PendingBounded(steps, n - 1);
      HistoryGrows(steps, n, i);
      if i < |Run(steps, n - 1).requests| {
        EveryRequestTellsItsStory(steps, n - 1, i);
        StoryGoesOn(steps, n, i);
      } else {
        NothingBeforeBegin(steps, n - 1, i);
      }
    }
  }

  lemma {:induction false} PendingBounded(steps: seq<Step>, n: nat)
    requires n <= |steps|
    ensures forall p :: p in Run(steps, n).pending ==> p < |Run(steps, n).requests|
  {
    if n > 0 { PendingBounded(steps, n - 1); }
  }

  lemma {:induction false} NothingBeforeBegin(steps: seq<Step>, n: nat, i: nat)
    requires n <= |steps| && i >= |Run(steps, n).requests|
    ensures Quiet(steps, n, i) && !GaveUp(steps, n, i)
  {
    if n > 0 {
      NothingBeforeBegin(steps, n - 1, i);
      HistoryGrows(steps, n, i);
    }
  }

  /** One more step, as the history sees it. */
  predicate Extends(g: Gate, step: Step, i: nat, p: Past, q: Past) {
    && (q.gaveUp <==> p.gaveUp || GivesUp(g, step, i))
    && (q.quiet <==> p.quiet && !Answers(g, step, i, true) && !Answers(g, step, i, false) && !GivesUp(g, step, i))
    && (p.allowed || (p.quiet && Answers(g, step, i, true)) ==> q.allowed)
    && (p.denied || (p.quiet && Answers(g, step, i, false)) ==> q.denied)
  }

  lemma TellsOn(g: Gate, step: Step, i: nat, p: Past, q: Past)
    requires i < |g.requests| && Extends(g, step, i, p, q) && Tells(g.requests[i], i in g.pending, p)
    ensures i < |Next(g, step).requests| && Tells(Next(g, step).requests[i], i in Next(g, step).pending, q)
  {
  }

  lemma StoryGoesOn(steps: seq<Step>, n: nat, i: nat)
    requires 0 < n <= |steps| && i < |Run(steps, n - 1).requests| && i < |Run(steps, n).requests|
    requires Story(steps, n - 1, i)
    ensures Story(steps, n, i)
  {
    HistoryGrows(steps, n, i);
    FirstAnswerNow(steps, n, i, true);
    FirstAnswerNow(steps, n, i, false);
    hide FirstAnswer, GaveUp, Quiet, Answers, GivesUp, Tells, Next;
    TellsOn(Run(steps, n - 1), steps[n - 1], i, PastOf(steps, n - 1, i), PastOf(steps, n, i));
  }

  lemma FirstAnswerNow(steps: seq<Step>, n: nat, i: nat, allow: bool)
    requires 0 < n <= |steps|
    ensures AnswersAt(steps, n - 1, i, allow) && Quiet(steps, n - 1, i) ==> FirstAnswer(steps, n, i, allow)
  {
  }

  /**
    Consent is granted exactly when the first answer to the request was an allow and neither a
    failed prompt nor the timer ended it; and a request that has returned is no longer pending.
  */
  lemma GrantedExactly(steps: seq<Step>, i: nat)
    requires i < |Run(steps, |steps|).requests| && Run(steps, |steps|).requests[i].phase.Returned?
    ensures Run(steps, |steps|).requests[i].phase.result <==> FirstAnswer(steps, |steps|, i, true) && !GaveUp(steps, |steps|, i)
    ensures i !in Run(steps, |steps|).pending
  {
    EveryRequestTellsItsStory(steps, |steps|, i);
    OneFirstAnswer(steps, |steps|, i);
  }

  /** Once returned, nothing can change the outcome, not even an answer that arrives late. */
  lemma ReturnedIsFinal(steps: seq<Step>, n: nat, i: nat)
    requires 0 < n <= |steps| && i < |Run(steps, n - 1).requests| && Run(steps, n - 1).requests[i].phase.Returned?
    ensures i < |Run(steps, n).requests| && Run(steps, n).requests[i] == Run(steps, n - 1).requests[i]
  {
    EveryRequestTellsItsStory(steps, n - 1, i);
  }
}
