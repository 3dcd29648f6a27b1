/**
  The per-session cancellation registry: live tokens, tombstones for cancels that came first, and
  a set-once closed flag.
*/
module CancelRegistry {

  const MAX_TOMBSTONES: nat := 8192

  datatype State<T> = State(live: map<string, T>, pending: set<string>, closed: bool)

  /** A state change together with the tokens it sets. */
  datatype Change<T> = Change(state: State<T>, fires: set<T>)

  function Registered<T>(s: State<T>, id: string, token: T): Change<T> {
    if s.closed then Change(s, {token})
    else Change(s.(live := s.live[id := token], pending := s.pending - {id}), if id in s.pending then {token} else {})
  }

  /** `stale` is the tombstone evicted when the set is full. */
  function Cancelled<T>(s: State<T>, id: string, stale: string): Change<T> {
    if id in s.live then Change(s.(live := s.live - {id}), {s.live[id]})
    else Change(s.(pending := (if |s.pending| >= MAX_TOMBSTONES then s.pending - {stale} else s.pending) + {id}), {})
  }

  function Deregistered<T>(s: State<T>, id: string): Change<T> { Change(s.(live := s.live - {id}), {}) }

  function AllCancelled<T>(s: State<T>): Change<T> { Change(State(map[], {}, true), s.live.Values) }

  // ----- the class -----

  class Token {
    var isSet: bool
    constructor ()
      ensures !isSet
    { isSet := false; }
  }

  class Registry {
    var live: map<string, Token>
    var pending: set<string>
    var closed: bool

    constructor ()
      ensures All() == State(map[], {}, false)
    {
      live, pending, closed := map[], {}, false;
    }

    function All(): State<Token>
      reads this
    {
      State(live, pending, closed)
    }

    method Register(id: string, token: Token) returns (preCancelled: bool)
      modifies this, token
      ensures var c := Registered(old(All()), id, token);
              All() == c.state && preCancelled == (token in c.fires) && token.isSet == (old(token.isSet) || preCancelled)
    {
      if closed {
        token.isSet := true;
        return true;
      }
      preCancelled := id in pending;
      if preCancelled {
        pending := pending - {id};
        token.isSet := true;
      }
      live := live[id := token];
      // the second look at `closed` after the insert cannot find it set: nothing ran in between
      assert id !in old(pending) ==> old(pending) - {id} == old(pending);
    }

    method Cancel(id: string) returns (hit: bool, ghost stale: string)
      modifies this, set k | k in live :: live[k]
      ensures var c := Cancelled(old(All()), id, stale);
              All() == c.state && hit == (id in old(live)) && (|old(pending)| >= MAX_TOMBSTONES && !hit ==> stale in old(pending))
      ensures forall k :: k in old(live) ==>
        old(live)[k].isSet == (old(live[k].isSet) || old(live)[k] in Cancelled(old(All()), id, stale).fires)
    {
      stale := "";
      if id in live {
        var token := live[id];
        live := live - {id};
        token.isSet := true;
        return true, stale;
      }
      if |pending| >= MAX_TOMBSTONES {
        var s :| s in pending;
        stale := s;
        pending := pending - {s};
      }
      pending := pending + {id};
      hit := false;
    }

    method Deregister(id: string)
      modifies this`live
      ensures All() == Deregistered(old(All()), id).state
    {
      live := live - {id};
    }

    method CancelAll() returns (count: nat)
      modifies this, set k | k in live :: live[k]
      ensures All() == AllCancelled(old(All())).state && count == |old(live)|
      ensures forall t :: t in AllCancelled(old(All())).fires ==> t.isSet
    {
      closed := true;
      count := 0;
      var ids := live.Keys;
      while ids != {}
        invariant ids <= live.Keys && live == old(live) && closed && count + |ids| == |live.Keys|
        invariant forall k :: k in live && k !in ids ==> live[k].isSet
        modifies set k | k in live :: live[k]
        decreases |ids|
      {
        var id :| id in ids;
        live[id].isSet := true;
        count := count + 1;
        ids := ids - {id};
      }
      live, pending := map[], {};
    }
  }

  // ----- runs -----

  datatype Op =
    | Register(id: string, token: nat)
    | Cancel(id: string, stale: string)
    | Deregister(id: string)
    | CancelAll

  /** The registry with every token ever set. */
  datatype World = World(reg: State<nat>, fired: set<nat>)

  function Effect(s: State<nat>, op: Op): Change<nat> {
    match op
    case Register(id, token) => Registered(s, id, token)
    case Cancel(id, stale) => Cancelled(s, id, stale)
    case Deregister(id) => Deregistered(s, id)
    case CancelAll => AllCancelled(s)
  }

  function Apply(w: World, op: Op): World {
    var c := Effect(w.reg, op);
    World(c.state, w.fired + c.fires)
  }

  function Run(ops: seq<Op>, n: nat): World
    requires n <= |ops|
  {
    if n == 0 then World(State(map[], {}, false), {}) else Apply(Run(ops, n - 1), ops[n - 1])
  }

  /** A full tombstone set evicts a tombstone it really holds. */
  ghost predicate Legal(r: State<nat>, op: Op) {
    op.Cancel? && |r.pending| >= MAX_TOMBSTONES ==> op.stale in r.pending
  }

  ghost predicate LegalAt(ops: seq<Op>, n: int) { 0 <= n < |ops| && Legal(Run(ops, n).reg, ops[n]) }

  ghost predicate Sound(r: State<nat>) {
    r.live.Keys !! r.pending && |r.pending| <= MAX_TOMBSTONES && (r.closed ==> r.live == map[])
  }

  lemma CancelSound(r: State<nat>, id: string, stale: string)
    requires Sound(r) && (|r.pending| >= MAX_TOMBSTONES ==> stale in r.pending)
    ensures Sound(Cancelled(r, id, stale).state)
  {
    var kept := if |r.pending| >= MAX_TOMBSTONES then r.pending - {stale} else r.pending;
    assert |kept| <= MAX_TOMBSTONES - 1;
    assert |kept + {id}| <= |kept| + 1;
  }

  lemma RegisterSound(r: State<nat>, id: string, token: nat)
    requires Sound(r)
    ensures Sound(Registered(r, id, token).state)
  {
    if id in r.pending { assert |r.pending - {id}| < |r.pending|; } else { assert r.pending - {id} == r.pending; }
  }

  lemma EffectSound(r: State<nat>, op: Op)
    requires Sound(r) && Legal(r, op)
    ensures Sound(Effect(r, op).state)
  {
    match op
    case Register(id, token) => RegisterSound(r, id, token);
    case Cancel(id, stale) => CancelSound(r, id, stale);
    case Deregister(_) =>
    case CancelAll =>
  }

  /** Live ids and tombstones never overlap, tombstones are bounded, and a closed registry holds nothing live. */
  lemma {:induction false} RegistryInvariant(ops: seq<Op>, n: nat)
    requires n <= |ops| && forall k :: 0 <= k < n ==> LegalAt(ops, k)
    ensures Sound(Run(ops, n).reg)
  {
    if n > 0 {
      RegistryInvariant(ops, n - 1);
      assert LegalAt(ops, n - 1);
      EffectSound(Run(ops, n - 1).reg, ops[n - 1]);
    }
  }

  /** After teardown every later token starts set and nothing is ever live again. */
  lemma {:induction false} ClosedForGood(ops: seq<Op>, j: nat, n: nat)
    requires j < n <= |ops| && ops[j].CancelAll?
    ensures Run(ops, n).reg.closed && Run(ops, n).reg.live == map[]
    ensures ops[n - 1].Register? ==> ops[n - 1].token in Run(ops, n).fired
    decreases n
  {
    if n > j + 1 { ClosedForGood(ops, j, n - 1); }
  }

  // ----- when is a call's token set? -----

  ghost predicate CancelsAt(ops: seq<Op>, j: int, id: string) { 0 <= j < |ops| && ops[j].Cancel? && ops[j].id == id }
  ghost predicate ClosesAt(ops: seq<Op>, j: int) { 0 <= j < |ops| && ops[j].CancelAll? }
  ghost predicate DeregistersAt(ops: seq<Op>, j: int, id: string) { 0 <= j < |ops| && ops[j] == Deregister(id) }

  /** Step `k` throws the tombstone of `id` out to make room for another. */
  ghost predicate EvictsAt(ops: seq<Op>, k: int, id: string) {
    0 <= k < |ops| && ops[k].Cancel? && ops[k].id != id && ops[k].stale == id
    && ops[k].id !in Run(ops, k).reg.live && |Run(ops, k).reg.pending| >= MAX_TOMBSTONES
  }

  /** A cancel before step `n` whose tombstone has survived to it. */
  ghost predicate Tombstoned(ops: seq<Op>, n: nat, id: string) {
    exists j :: 0 <= j < n && CancelsAt(ops, j, id) && forall k :: j < k < n ==> !EvictsAt(ops, k, id)
  }

  ghost predicate Closed(ops: seq<Op>, n: nat) { exists j :: 0 <= j < n && ClosesAt(ops, j) }

  /** A cancel or a teardown between steps `i` and `n`, with no deregistration in between. */
  ghost predicate StoppedAfter(ops: seq<Op>, i: nat, n: nat, id: string) {
    exists j :: i < j < n && (CancelsAt(ops, j, id) || ClosesAt(ops, j)) && !LeftBy(ops, i, j, id)
  }

  ghost predicate LeftBy(ops: seq<Op>, i: nat, n: int, id: string) { exists k :: i < k < n && DeregistersAt(ops, k, id) }

  /** Call `id` registers once, at step `i`, with a token of its own. */
  ghost predicate RegistersOnce(ops: seq<Op>, i: nat, id: string, token: nat) {
    && i < |ops| && ops[i] == Register(id, token)
    && forall k :: 0 <= k < |ops| && k != i && ops[k].Register? ==> ops[k].id != id && ops[k].token != token
  }

  lemma {:induction false} BeforeRegistration(ops: seq<Op>, i: nat, id: string, token: nat, n: nat)
    requires RegistersOnce(ops, i, id, token) && n <= i
    ensures var w := Run(ops, n);
            && id !in w.reg.live && token !in w.reg.live.Values && token !in w.fired
            && (w.reg.closed <==> Closed(ops, n))
            && (!w.reg.closed ==> (id in w.reg.pending <==> Tombstoned(ops, n, id)))
  {
    if n > 0 {
      BeforeRegistration(ops, i, id, token, n - 1);
      var op := ops[n - 1];
      var r := Run(ops, n - 1).reg;
      if Closed(ops, n - 1) { assert Closed(ops, n); }
      if op.CancelAll? { assert ClosesAt(ops, n - 1); }
      if CancelsAt(ops, n - 1, id) {
        assert Tombstoned(ops, n, id);
      } else if !Run(ops, n).reg.closed {
        TombstoneStep(ops, n, id);
      }
    }
  }

  lemma TombstoneStep(ops: seq<Op>, n: nat, id: string)
    requires 0 < n <= |ops| && !CancelsAt(ops, n - 1, id)
    ensures Tombstoned(ops, n, id) <==> Tombstoned(ops, n - 1, id) && !EvictsAt(ops, n - 1, id)
  {
    if Tombstoned(ops, n, id) {
      var j :| 0 <= j < n && CancelsAt(ops, j, id) && forall k :: j < k < n ==> !EvictsAt(ops, k, id);
      assert j < n - 1;
    }
  }

  ghost predicate FiredAtStart(ops: seq<Op>, i: nat, id: string) { Closed(ops, i) || Tombstoned(ops, i, id) }

  /** What is known of call `id` once it has registered. */
  ghost predicate Tracked(ops: seq<Op>, i: nat, id: string, token: nat, n: nat)
    requires i < n <= |ops|
  {
    var w := Run(ops, n);
    && (token in w.fired <==> FiredAtStart(ops, i, id) || StoppedAfter(ops, i, n, id))
    && (forall x :: x in w.reg.live && w.reg.live[x] == token ==> x == id)
    && (token !in w.fired && !LeftBy(ops, i, n, id) ==> id in w.reg.live && w.reg.live[id] == token)
    && (id in w.reg.live ==> w.reg.live[id] == token && !LeftBy(ops, i, n, id))
  }

  lemma AtRegistration(ops: seq<Op>, i: nat, id: string, token: nat)
    requires RegistersOnce(ops, i, id, token)
    ensures Tracked(ops, i, id, token, i + 1)
  {
    BeforeRegistration(ops, i, id, token, i);
    var r := Run(ops, i).reg;
    assert forall x :: x in r.live ==> r.live[x] in r.live.Values;
    assert FiredAtStart(ops, i, id) <==> r.closed || id in r.pending || Tombstoned(ops, i, id);
  }

  lemma RegisteredStep(ops: seq<Op>, i: nat, id: string, token: nat, n: nat)
    requires RegistersOnce(ops, i, id, token) && i < n < |ops| && Tracked(ops, i, id, token, n)
    ensures Tracked(ops, i, id, token, n + 1)
  {
    StoppedStep(ops, i, n + 1, id);
    LeftStep(ops, i, n + 1, id);
    assert ops[n].Register? ==> ops[n].id != id && ops[n].token != token;
    hide FiredAtStart, StoppedAfter, LeftBy, RegistersOnce;
    var r := Run(ops, n).reg;
    assert forall x :: x in r.live ==> r.live[x] in r.live.Values;
  }

  lemma LeftStep(ops: seq<Op>, i: nat, n: nat, id: string)
    requires i + 1 < n <= |ops|
    ensures LeftBy(ops, i, n, id) <==> LeftBy(ops, i, n - 1, id) || DeregistersAt(ops, n - 1, id)
  {
  }

  lemma {:induction false} AfterRegistration(ops: seq<Op>, i: nat, id: string, token: nat, n: nat)
    requires RegistersOnce(ops, i, id, token) && i < n <= |ops|
    ensures Tracked(ops, i, id, token, n)
    decreases n
  {
    hide Tracked;
    if n == i + 1 {
      AtRegistration(ops, i, id, token);
    } else {
      AfterRegistration(ops, i, id, token, n - 1);
      RegisteredStep(ops, i, id, token, n - 1);
    }
  }

  lemma StoppedStep(ops: seq<Op>, i: nat, n: nat, id: string)
    requires i + 1 < n <= |ops|
    ensures StoppedAfter(ops, i, n, id) <==>
      StoppedAfter(ops, i, n - 1, id) || ((CancelsAt(ops, n - 1, id) || ClosesAt(ops, n - 1)) && !LeftBy(ops, i, n - 1, id))
  {
  }

  /**
    A call's token is set exactly when the registry had been closed before it registered, a cancel
    before it left a tombstone nobody evicted, or a cancel or teardown came after it and before any
    deregistration.
  */
  lemma TokenSetExactly(ops: seq<Op>, i: nat, id: string, token: nat)
    requires RegistersOnce(ops, i, id, token)
    ensures token in Run(ops, |ops|).fired <==>
      Closed(ops, i) || Tombstoned(ops, i, id) || StoppedAfter(ops, i, |ops|, id)
  {
    AfterRegistration(ops, i, id, token, |ops|);
  }

  /** The race, in either order: cancel and register have both happened, so the call is cancelled. */
  lemma EitherOrderCancels(ops: seq<Op>, i: nat, j: nat, id: string, token: nat)
    requires RegistersOnce(ops, i, id, token) && CancelsAt(ops, j, id)
    requires forall k :: 0 <= k < |ops| ==> !EvictsAt(ops, k, id)
    requires i < j ==> !LeftBy(ops, i, j, id)
    ensures token in Run(ops, |ops|).fired
  {
    TokenSetExactly(ops, i, id, token);
    assert j < i ==> Tombstoned(ops, i, id);
  }
}
