/** WebSocket fan-out: sequence numbers, the history ring, drop-oldest queues, and resume replay. */
module WsFanout {
  import opened Basics

  const RING: nat := 512
  const DEPTH: nat := 256

  /** What handlers emit: an event, or a notification already in wire shape. */
  datatype Envelope = Event(event: string, data: string) | Notification(name: string, params: string)
  datatype Payload = Payload(name: string, params: string, number: nat)

  function Stamped(env: Envelope, number: nat): Payload {
    match env
    case Event(e, d) => Payload(e, d, number)
    case Notification(m, p) => Payload(m, p, number)
  }

  /** A client that reads `p` learns of `env`: an event by its name and data, a notification by its own. */
  predicate Tells(p: Payload, env: Envelope) {
    && (env.Event? ==> p.name == env.event && p.params == env.data)
    && (env.Notification? ==> p.name == env.name && p.params == env.params)
  }

  function LastN<T>(s: seq<T>, n: nat): (r: seq<T>)
    ensures |r| == if |s| <= n then |s| else n
  {
    if |s| <= n then s else s[|s| - n..]
  }

  /** A bounded deque and a drop-oldest queue behave alike: the newest items survive. */
  function Pushed<T>(s: seq<T>, x: T, bound: nat): seq<T> { LastN(s + [x], bound) }

  lemma PushedOne<T>(s: seq<T>, x: T, bound: nat)
    requires |s| <= bound
    ensures Pushed(s, x, bound) == if |s| == bound then (s + [x])[1..] else s + [x]
  {
  }

  /** The retained broadcasts past a cursor, oldest first. */
  function Newer(history: seq<(nat, Payload)>, since: nat): seq<Payload> {
    if history == [] then []
    else (if history[0].0 > since then [history[0].1] else []) + Newer(history[1..], since)
  }

  /**
    Everything the manager keeps; `delivered` records what each sender has taken off its queue.
  */
  datatype Hub = Hub(
    nextSeq: nat,
    history: seq<(nat, Payload)>,
    queues: map<nat, seq<Payload>>,
    delivered: map<nat, seq<Payload>>)

  datatype Step =
    | Emit(env: Envelope)            // a handler emits; the manager listens only while somebody is connected
    | Join(c: nat)
    | Replay(c: nat, since: nat)
    | Deliver(c: nat)
    | Leave(c: nat)

  function Next(h: Hub, step: Step): Hub {
    match step
    case Emit(env) =>
      var p := Stamped(env, h.nextSeq + 1);
      if h.queues == map[] then h else
      h.(nextSeq := h.nextSeq + 1,
         history := Pushed(h.history, (h.nextSeq + 1, p), RING),
         queues := map c | c in h.queues :: Pushed(h.queues[c], p, DEPTH))
    case Join(c) =>
      if c in h.queues then h else h.(queues := h.queues[c := []], delivered := h.delivered[c := []])
    case Replay(c, since) =>
      if c !in h.queues then h else h.(queues := h.queues[c := LastN(h.queues[c] + Newer(h.history, since), DEPTH)])
    case Deliver(c) =>
      if c !in h.queues || c !in h.delivered || h.queues[c] == [] then h
      else h.(queues := h.queues[c := h.queues[c][1..]], delivered := h.delivered[c := h.delivered[c] + [h.queues[c][0]]])
    case Leave(c) => h.(queues := h.queues - {c}, delivered := h.delivered - {c})
  }

  function Init(): Hub { Hub(0, [], map[], map[]) }

  function Run(h: Hub, steps: seq<Step>): Hub
    decreases |steps|
  {
    if steps == [] then h else Next(Run(h, steps[..|steps| - 1]), steps[|steps| - 1])
  }

  // ----- the manager -----

  class WsManager {
    var nextSeq: nat
    var history: seq<(nat, Payload)>
    var clients: set<nat>
    var queues: map<nat, seq<Payload>>
    ghost var delivered: map<nat, seq<Payload>>
    var listening: bool      // whether `OnEvent` is registered with the server

    constructor ()
      ensures Valid() && All() == Init() && !listening
    {
      nextSeq, history, clients, queues, delivered, listening := 0, [], {}, map[], map[], false;
    }

    ghost function All(): Hub
      reads this
    {
      Hub(nextSeq, history, queues, delivered)
    }

    ghost predicate Valid()
      reads this
    {
      && clients == queues.Keys == delivered.Keys && (listening <==> clients != {})
      && |history| <= RING && forall c :: c in queues ==> |queues[c]| <= DEPTH
    }

    /** Put, and if the queue is full drop its oldest item first. */
    method Enqueue(c: nat, p: Payload)
      requires c in queues ==> |queues[c]| <= DEPTH
      modifies this`queues
      ensures queues == if c in old(queues) then old(queues)[c := Pushed(old(queues)[c], p, DEPTH)] else old(queues)
    {
      if c !in queues { return; }
      var q := queues[c];
      if |q| < DEPTH {
        queues := queues[c := q + [p]];
      } else {
        q := q[1..];
        queues := queues[c := q + [p]];
        assert q + [p] == LastN(old(queues)[c] + [p], DEPTH);
      }
    }

    /** What the server does with an emitted event: hand it to the listener, if there is one. */
    method Notify(env: Envelope)
      requires Valid()
      modifies this
      ensures Valid() && clients == old(clients) && All() == Next(old(All()), Emit(env))
      ensures !old(listening) ==> All() == old(All())
    {
      if listening {
        OnEvent(env);
      } else {
        assert queues == map[];
      }
    }

    method OnEvent(env: Envelope)
      requires Valid() && listening
      modifies this
      ensures Valid() && clients == old(clients) && nextSeq == old(nextSeq) + 1 && All() == Next(old(All()), Emit(env))
    {
      var payload;
      match env {
        case Event(e, d) => payload := Payload(e, d, 0);
        case Notification(m, p) => payload := Payload(m, p, 0);
      }
      nextSeq := nextSeq + 1;
      payload := payload.(number := nextSeq);
      history := history + [(nextSeq, payload)];
      if |history| > RING { history := history[1..]; }
      PushedOne(old(history), (nextSeq, payload), RING);
      assert payload == Stamped(env, nextSeq);
      hide LastN, Pushed, Stamped;
      FanOut(payload);
    }

    method FanOut(payload: Payload)
      requires clients == queues.Keys && forall c :: c in queues ==> |queues[c]| <= DEPTH
      modifies this`queues
      ensures queues == map c | c in old(queues) :: Pushed(old(queues)[c], payload, DEPTH)
      ensures forall c :: c in queues ==> |queues[c]| <= DEPTH
    {
      var rest := clients;
      while rest != {}
        invariant rest <= clients && queues.Keys == clients
        invariant forall c :: c in queues ==> queues[c] == if c in rest then old(queues)[c] else Pushed(old(queues)[c], payload, DEPTH)
        decreases |rest|
      {
        var c :| c in rest;
        Enqueue(c, payload);
        rest := rest - {c};
      }
    }

    /** The part of `on_connect` before the ready frame is sent. */
    method Connect(c: nat)
      requires Valid() && c !in clients
      modifies this
      ensures Valid() && All() == Next(old(All()), Join(c)) && clients == old(clients) + {c} && listening
    {
      clients := clients + {c};
      if !listening { listening := true; }
      queues := queues[c := []];
      delivered := delivered[c := []];
    }

    /** The part of `on_connect` after it: one pass over the ring, with no await inside. */
    method ReplaySince(c: nat, since: nat)
      requires Valid()
      modifies this`queues
      ensures Valid() && All() == Next(old(All()), Replay(c, since))
    {
      if c !in queues {
        return;
      }
      ghost var q := queues[c];
      assert q + Newer(history[..0], since) == q;
      for i := 0 to |history|
        invariant c in queues && queues == old(queues)[c := LastN(q + Newer(history[..i], since), DEPTH)]
      {
        NewerSnoc(history[..i], history[i], since);
        assert history[..i + 1] == history[..i] + [history[i]];
        if history[i].0 > since {
          LastNSnoc(q + Newer(history[..i], since), history[i].1, DEPTH);
          assert q + Newer(history[..i], since) + [history[i].1] == q + Newer(history[..i + 1], since);
          Enqueue(c, history[i].1);
        } else {
          assert q + Newer(history[..i], since) == q + Newer(history[..i + 1], since);
        }
      }
      assert history[..|history|] == history;
    }

    /** The sender task takes the head of its queue. */
    method TakeNext(c: nat) returns (p: Option<Payload>)
      requires Valid()
      modifies this
      ensures Valid() && All() == Next(old(All()), Deliver(c))
      ensures p.Some? <==> c in old(queues) && old(queues)[c] != []
      ensures p.Some? ==> p.value == old(queues)[c][0]
    {
      if c !in queues || queues[c] == [] { return None; }
      p := Some(queues[c][0]);
      delivered := delivered[c := delivered[c] + [queues[c][0]]];
      queues := queues[c := queues[c][1..]];
    }

    method Disconnect(c: nat)
      requires Valid()
      modifies this
      ensures Valid() && All() == Next(old(All()), Leave(c)) && clients == old(clients) - {c}
      ensures listening <==> exists d :: d in old(clients) && d != c
    {
      clients := clients - {c};
      queues := queues - {c};
      delivered := delivered - {c};
      if clients == {} && listening { listening := false; }
      assert forall d :: d in old(clients) && d != c ==> d in clients;
    }
  }

  lemma LastNSnoc<T>(s: seq<T>, x: T, n: nat)
    requires n > 0
    ensures Pushed(LastN(s, n), x, n) == LastN(s + [x], n)
  {
  }

  lemma {:induction false} NewerSnoc(history: seq<(nat, Payload)>, x: (nat, Payload), since: nat)
    ensures Newer(history + [x], since) == Newer(history, since) + (if x.0 > since then [x.1] else [])
    decreases |history|
  {
    if history == [] {
      assert history + [x] == [x] && [x][1..] == [];
    } else {
      assert (history + [x])[1..] == history[1..] + [x];
      NewerSnoc(history[1..], x, since);
    }
  }

  // ----- every run -----

  /** The ring holds the newest broadcasts, numbered consecutively up to the counter. */
  ghost predicate RingOk(h: Hub) {
    && |h.history| == (if h.nextSeq < RING then h.nextSeq else RING)
    && forall i :: 0 <= i < |h.history| ==>
         h.history[i].0 == h.nextSeq - |h.history| + 1 + i && h.history[i].1.number == h.history[i].0
  }

  ghost predicate QueueOk(h: Hub, c: nat)
    requires c in h.queues && c in h.delivered
  {
    |h.queues[c]| <= DEPTH && UpTo(h.queues[c], h.nextSeq) && UpTo(h.delivered[c], h.nextSeq)
  }

  ghost predicate HubOk(h: Hub) {
    RingOk(h) && h.queues.Keys == h.delivered.Keys && forall c :: c in h.queues ==> QueueOk(h, c)
  }

  ghost predicate UpTo(s: seq<Payload>, n: nat) { forall i :: 0 <= i < |s| ==> 1 <= s[i].number <= n }

  lemma {:induction false} NewerIsSuffix(history: seq<(nat, Payload)>, first: nat, since: nat)
    requires forall i :: 0 <= i < |history| ==> history[i].0 == first + i
    ensures var skip := if since < first then 0 else if since - first + 1 < |history| then since - first + 1 else |history|;
            |Newer(history, since)| == |history| - skip
            && forall i :: 0 <= i < |Newer(history, since)| ==> Newer(history, since)[i] == history[skip + i].1
    decreases |history|
  {
    if history != [] {
      forall i | 0 <= i < |history[1..]| ensures history[1..][i].0 == first + 1 + i { assert history[1..][i] == history[i + 1]; }
      NewerIsSuffix(history[1..], first + 1, since);
    }
  }

  lemma NewerUpTo(h: Hub, since: nat)
    requires RingOk(h)
    ensures UpTo(Newer(h.history, since), h.nextSeq)
    ensures forall i :: 0 <= i < |Newer(h.history, since)| ==>
              Newer(h.history, since)[i].number == h.nextSeq - |Newer(h.history, since)| + 1 + i
    ensures |Newer(h.history, since)| == Missed(h, since)
  {
    NewerIsSuffix(h.history, h.nextSeq - |h.history| + 1, since);
  }

  /** How many retained broadcasts lie past the cursor. */
  function Missed(h: Hub, since: nat): nat {
    if since >= h.nextSeq then 0
    else if h.nextSeq - since < |h.history| then h.nextSeq - since
    else |h.history|
  }

  lemma EmitKeepsRing(h: Hub, env: Envelope)
    requires RingOk(h)
    ensures RingOk(Next(h, Emit(env)))
  {
    if h.queues != map[] {
      var h' := Next(h, Emit(env));
      var all := h.history + [(h.nextSeq + 1, Stamped(env, h.nextSeq + 1))];
      assert h'.history == LastN(all, RING);
      var k := |all| - |h'.history|;
      assert forall i :: 0 <= i < |h'.history| ==> h'.history[i] == all[k + i];
    }
  }

  lemma StepKeepsQueue(h: Hub, step: Step, c: nat)
    requires HubOk(h) && c in Next(h, step).queues && c in Next(h, step).delivered
    ensures QueueOk(Next(h, step), c)
  {
    assert c in h.queues ==> QueueOk(h, c);
    match step
    case Replay(d, since) => NewerUpTo(h, since);
    case Emit(env) =>
      var all := h.queues[c] + [Stamped(env, h.nextSeq + 1)];
      assert UpTo(all, h.nextSeq + 1);
    case _ =>
  }

  lemma StepKeepsHub(h: Hub, step: Step)
    requires HubOk(h)
    ensures HubOk(Next(h, step))
  {
    var h' := Next(h, step);
    forall c | c in h'.queues && c in h'.delivered ensures QueueOk(h', c) { StepKeepsQueue(h, step, c); }
    if step.Emit? { EmitKeepsRing(h, step.env); }
  }

  lemma {:induction false} EveryRunKeepsHub(steps: seq<Step>)
    ensures HubOk(Run(Init(), steps))
    decreases |steps|
  {
    if steps != [] {
      EveryRunKeepsHub(steps[..|steps| - 1]);
      StepKeepsHub(Run(Init(), steps[..|steps| - 1]), steps[|steps| - 1]);
    }
  }

  // ----- what a client sees -----

  /** Everything delivered to a client and still queued for it, in order. */
  function Sent(h: Hub, c: nat): seq<Payload>
    requires c in h.queues && c in h.delivered
  {
    h.delivered[c] + h.queues[c]
  }

  ghost predicate Increasing(s: seq<Payload>) { forall i, j :: 0 <= i < j < |s| ==> s[i].number < s[j].number }

  ghost predicate Consecutive(s: seq<Payload>, first: nat) { forall i :: 0 <= i < |s| ==> s[i].number == first + i }

  /** Broadcasts, deliveries and other clients' doings never disorder a client's stream, overflow or not. */
  lemma StaysIncreasing(h: Hub, step: Step, c: nat)
    requires HubOk(h) && c in h.queues && Increasing(Sent(h, c))
    requires step != Leave(c) && !(step.Replay? && step.c == c)
    ensures c in Next(h, step).queues && c in Next(h, step).delivered && Increasing(Sent(Next(h, step), c))
  {
    var h' := Next(h, step);
    match step
    case Emit(env) =>
      var p := Stamped(env, h.nextSeq + 1);
      var all := h.delivered[c] + (h.queues[c] + [p]);
      assert Increasing(all) by { assert all == Sent(h, c) + [p]; }
      DropInside(h.delivered[c], h.queues[c] + [p], DEPTH);
    case Deliver(d) =>
      if d == c && h.queues[c] != [] {
        assert h.queues[c] == [h.queues[c][0]] + h.queues[c][1..];
        assert Sent(h', c) == Sent(h, c);
      }
    case _ =>
  }

  lemma DropInside(a: seq<Payload>, b: seq<Payload>, n: nat)
    requires Increasing(a + b)
    ensures Increasing(a + LastN(b, n))
  {
    var s, t := a + b, a + LastN(b, n);
    var k := |s| - |t|;
    forall i, j | 0 <= i < j < |t| ensures t[i].number < t[j].number {
      var x, y := if i < |a| then i else i + k, if j < |a| then j else j + k;
      assert t[i] == s[x] && t[j] == s[y] && x < y;
    }
  }

  /** The heart of a replay: `news`, ending at `top`, spliced behind what was queued and delivered before. */
  lemma SplicedIncreasing(done: seq<Payload>, q: seq<Payload>, news: seq<Payload>, top: nat)
    requires Increasing(done + q) && |q| <= DEPTH
    requires done + q != [] ==> (done + q)[|done + q| - 1].number == top
    requires forall i :: 0 <= i < |news| ==> news[i].number == top - |news| + 1 + i
    ensures Increasing(done + LastN(q + news, DEPTH)) <==>
      news == [] || done + q == [] || (|news| >= DEPTH && (done == [] || done[|done| - 1].number + DEPTH <= top))
  {
    var q' := LastN(q + news, DEPTH);
    var sent := done + q';
    var m := |news|;
    if m == 0 {
      assert q + news == q && q' == q;
    } else if m >= DEPTH {
      assert q' == news[m - DEPTH..];
      OntoFreshQueue(done, q, q', top);
    } else if q != [] {
      OntoOldQueue(done, q, news, q', top);
    } else {
      assert q + news == news && q' == news;
      if done != [] {
        assert done + q == done;
        assert sent[|done| - 1] == done[|done| - 1] && sent[|done|] == news[0];
      }
    }
  }

  lemma OntoOldQueue(done: seq<Payload>, q: seq<Payload>, news: seq<Payload>, q': seq<Payload>, top: nat)
    requires q != [] && 0 < |news| < DEPTH && q' == LastN(q + news, DEPTH) && |q| <= DEPTH
    requires (done + q)[|done + q| - 1].number == top && news[0].number == top - |news| + 1
    ensures !Increasing(done + q')
  {
    var sent, keep := done + q', |q'| - |news|;
    assert (done + q)[|done + q| - 1] == q[|q| - 1];
    assert keep > 0 && q'[keep - 1] == q[|q| - 1] && q'[keep] == news[0];
    assert sent[|done| + keep - 1] == q'[keep - 1] && sent[|done| + keep] == q'[keep];
  }

  lemma OntoFreshQueue(done: seq<Payload>, q: seq<Payload>, q': seq<Payload>, top: nat)
    requires Increasing(done + q) && |q'| == DEPTH
    requires forall i :: 0 <= i < DEPTH ==> q'[i].number == top - DEPTH + 1 + i
    ensures Increasing(done + q') <==> done == [] || done[|done| - 1].number + DEPTH <= top
  {
    var sent := done + q';
    assert forall i :: 0 <= i < |done| ==> (done + q)[i] == done[i];
    if done != [] {
      assert sent[|done| - 1] == done[|done| - 1] && sent[|done|] == q'[0];
    }
  }

  /**
    A replay leaves a client's stream increasing exactly when it replays nothing, or nothing was
    sent before it, or it pushes every earlier queued copy out and starts past the last delivery.
  */
  lemma ReplayIncreasingExactly(h: Hub, c: nat, since: nat)
    requires HubOk(h) && c in h.queues && Increasing(Sent(h, c))
    requires Sent(h, c) != [] ==> Sent(h, c)[|Sent(h, c)| - 1].number == h.nextSeq
    ensures var m := Missed(h, since); var done := h.delivered[c];
            Increasing(Sent(Next(h, Replay(c, since)), c)) <==>
              m == 0 || Sent(h, c) == []
              || (m >= DEPTH && (done == [] || done[|done| - 1].number + DEPTH <= h.nextSeq))
  {
    assert QueueOk(h, c);
    NewerUpTo(h, since);
    SplicedIncreasing(h.delivered[c], h.queues[c], Newer(h.history, since), h.nextSeq);
  }

  predicate EndsAt(s: seq<Payload>, n: nat) { s == [] || s[|s| - 1].number == n }

  /** Whatever was sent to a client last is the newest broadcast there has been. */
  ghost predicate UpToDate(h: Hub) { forall c :: c in h.queues && c in h.delivered ==> EndsAt(Sent(h, c), h.nextSeq) }

  lemma SplicedEndsAt(done: seq<Payload>, q: seq<Payload>, news: seq<Payload>, top: nat)
    requires EndsAt(done + q, top) && |q| <= DEPTH && EndsAt(news, top)
    ensures EndsAt(done + LastN(q + news, DEPTH), top)
  {
    if news == [] {
      assert q + news == q;
    } else {
      var all := q + news;
      assert all[|all| - 1] == news[|news| - 1] && LastN(all, DEPTH)[|LastN(all, DEPTH)| - 1] == all[|all| - 1];
    }
  }

  lemma ReplayKeepsUpToDate(h: Hub, c: nat, since: nat)
    requires RingOk(h) && c in h.queues && c in h.delivered && QueueOk(h, c) && EndsAt(Sent(h, c), h.nextSeq)
    ensures EndsAt(Sent(Next(h, Replay(c, since)), c), h.nextSeq)
  {
    NewerUpTo(h, since);
    SplicedEndsAt(h.delivered[c], h.queues[c], Newer(h.history, since), h.nextSeq);
  }

  lemma StepKeepsUpToDate(h: Hub, step: Step, c: nat)
    requires RingOk(h) && c in Next(h, step).queues && c in Next(h, step).delivered
    requires c in h.queues ==> c in h.delivered && QueueOk(h, c) && EndsAt(Sent(h, c), h.nextSeq)
    ensures EndsAt(Sent(Next(h, step), c), Next(h, step).nextSeq)
  {
    hide RingOk, QueueOk;
    match step
    case Emit(env) =>
    case Replay(d, since) => if d == c && c in h.queues { ReplayKeepsUpToDate(h, c, since); }
    case Deliver(d) =>
      if d == c && h.queues[c] != [] { assert h.delivered[c] + [h.queues[c][0]] + h.queues[c][1..] == Sent(h, c); }
    case _ =>
  }

  lemma {:induction false} EveryRunUpToDate(steps: seq<Step>)
    ensures UpToDate(Run(Init(), steps))
    decreases |steps|
  {
    if steps != [] {
      var h, step := Run(Init(), steps[..|steps| - 1]), steps[|steps| - 1];
      EveryRunUpToDate(steps[..|steps| - 1]);
      EveryRunKeepsHub(steps[..|steps| - 1]);
      forall c | c in Next(h, step).queues && c in Next(h, step).delivered ensures EndsAt(Sent(Next(h, step), c), Next(h, step).nextSeq) {
        assert c in h.queues ==> QueueOk(h, c) && EndsAt(Sent(h, c), h.nextSeq);
        StepKeepsUpToDate(h, step, c);
      }
    }
  }

  /** In every run, a replay keeps an increasing stream increasing exactly under those conditions. */
  lemma ReplayInRunsExactly(steps: seq<Step>, c: nat, since: nat)
    requires c in Run(Init(), steps).queues && c in Run(Init(), steps).delivered && Increasing(Sent(Run(Init(), steps), c))
    ensures var h := Run(Init(), steps); var m := Missed(h, since); var done := h.delivered[c];
            Increasing(Sent(Next(h, Replay(c, since)), c)) <==>
              m == 0 || Sent(h, c) == []
              || (m >= DEPTH && (done == [] || done[|done| - 1].number + DEPTH <= h.nextSeq))
  {
    EveryRunKeepsHub(steps);
    EveryRunUpToDate(steps);
    ReplayIncreasingExactly(Run(Init(), steps), c, since);
  }

  lemma JoinThenReplay(h: Hub, c: nat, since: nat)
    requires HubOk(h) && c !in h.queues
    ensures var r := Next(Next(h, Join(c)), Replay(c, since));
            c in r.queues && c in r.delivered && Sent(r, c) == LastN(Newer(h.history, since), DEPTH) && r.nextSeq == h.nextSeq
  {
    var news := Newer(h.history, since);
    var none: seq<Payload> := [];
    assert none + news == news;
    assert none + LastN(news, DEPTH) == LastN(news, DEPTH);
  }

  /** Replayed right after joining: exactly the newest missed broadcasts, at most a queue's worth, without a gap. */
  lemma ResumeAfterJoin(h: Hub, c: nat, since: nat)
    requires HubOk(h) && c !in h.queues
    ensures var r := Next(Next(h, Join(c)), Replay(c, since)); var n := if Missed(h, since) < DEPTH then Missed(h, since) else DEPTH;
            && c in r.queues && c in r.delivered && |Sent(r, c)| == n && r.nextSeq == h.nextSeq
            && Consecutive(Sent(r, c), h.nextSeq - n + 1)
  {
    JoinThenReplay(h, c, since);
    NewerUpTo(h, since);
  }

  lemma ResumedHub(h: Hub, c: nat, since: nat)
    requires HubOk(h)
    ensures HubOk(Next(Next(h, Join(c)), Replay(c, since)))
  {
    StepKeepsHub(h, Join(c));
    StepKeepsHub(Next(h, Join(c)), Replay(c, since));
  }

  /** Steps that leave client `c` connected and do not replay to it again. */
  ghost predicate Leaves(steps: seq<Step>, c: nat) {
    exists i :: 0 <= i < |steps| && (steps[i] == Leave(c) || (steps[i].Replay? && steps[i].c == c))
  }

  /** No broadcast finds the client's queue full. */
  ghost predicate KeepsUp(h: Hub, steps: seq<Step>, c: nat) {
    forall i :: 0 <= i < |steps| && steps[i].Emit? && c in Run(h, steps[..i]).queues ==> |Run(h, steps[..i]).queues[c]| < DEPTH
  }

  /**
    Resume, over a whole run: whatever came before, a client that joins, replays at once and then
    keeps up has been sent every numbered event past its cursor (or the newest that were kept),
    each once, in order, up to the present.
  */
  lemma {:induction false} ResumedStreamIsGapless(before: seq<Step>, c: nat, since: nat, after: seq<Step>)
    requires c !in Run(Init(), before).queues && !Leaves(after, c)
    requires KeepsUp(Resumed(before, c, since), after, c)
    ensures var h := Run(Init(), before); var r := Run(Resumed(before, c, since), after);
            var n := if Missed(h, since) < DEPTH then Missed(h, since) else DEPTH; var first := h.nextSeq - n + 1;
            && HubOk(r) && c in r.queues && c in r.delivered && first >= 1
            && Consecutive(Sent(r, c), first) && |Sent(r, c)| == r.nextSeq + 1 - first
    decreases |after|
  {
    var h := Run(Init(), before);
    EveryRunKeepsHub(before);
    if after == [] {
      ResumeAfterJoin(h, c, since);
      ResumedHub(h, c, since);
    } else {
      var front, last := after[..|after| - 1], after[|after| - 1];
      assert !Leaves(front, c) && last != Leave(c) && !(last.Replay? && last.c == c) by {
        forall i | 0 <= i < |front| ensures front[i] == after[i] {}
      }
      assert KeepsUp(Resumed(before, c, since), front, c) by {
        forall i | 0 <= i < |front| ensures front[..i] == after[..i] {}
      }
      ResumedStreamIsGapless(before, c, since, front);
      var r := Run(Resumed(before, c, since), front);
      assert last.Emit? ==> |r.queues[c]| < DEPTH by { assert after[..|front|] == front; }
      StepKeepsHub(r, last);
      OneMoreSent(r, last, c);
    }
  }

  function Resumed(before: seq<Step>, c: nat, since: nat): Hub { Next(Next(Run(Init(), before), Join(c)), Replay(c, since)) }

  lemma OneMoreSent(r: Hub, step: Step, c: nat)
    requires HubOk(r) && c in r.queues && step != Leave(c) && !(step.Replay? && step.c == c)
    requires step.Emit? ==> |r.queues[c]| < DEPTH
    ensures c in Next(r, step).queues && c in Next(r, step).delivered
    ensures var r' := Next(r, step);
            (if step.Emit? then Sent(r', c) == Sent(r, c) + [Stamped(step.env, r.nextSeq + 1)] && r'.nextSeq == r.nextSeq + 1
             else Sent(r', c) == Sent(r, c) && r'.nextSeq == r.nextSeq)
  {
    if step.Deliver? && step.c == c && r.queues[c] != [] {
      assert r.queues[c] == [r.queues[c][0]] + r.queues[c][1..];
    }
  }

  // ----- what a reconnecting client gets of what was emitted -----

  /** All that was emitted in `steps`, heard or not. */
  function Emitted(steps: seq<Step>): seq<Envelope>
    decreases |steps|
  {
    if steps == [] then [] else Emitted(Front(steps)) + if Last(steps).Emit? then [Last(steps).env] else []
  }

  /** What of it found the manager listening. */
  function Heard(h: Hub, steps: seq<Step>): seq<Envelope>
    decreases |steps|
  {
    if steps == [] then []
    else Heard(h, Front(steps)) + if Last(steps).Emit? && Run(h, Front(steps)).queues != map[] then [Last(steps).env] else []
  }

  /** Somebody was connected at each emission. */
  ghost predicate AlwaysHeard(h: Hub, steps: seq<Step>) {
    forall i :: 0 <= i < |steps| && steps[i].Emit? ==> Run(h, steps[..i]).queues != map[]
  }

  function StampedAll(envs: seq<Envelope>, first: nat): (r: seq<Payload>)
    ensures |r| == |envs| && forall i :: 0 <= i < |r| ==> r[i] == Stamped(envs[i], first + i)
    ensures forall i :: 0 <= i < |r| ==> Tells(r[i], envs[i]) && r[i].number == first + i
  {
    seq(|envs|, i requires 0 <= i < |envs| => Stamped(envs[i], first + i))
  }

  function Entries(ps: seq<Payload>): (r: seq<(nat, Payload)>)
    ensures |r| == |ps| && forall i :: 0 <= i < |r| ==> r[i] == (ps[i].number, ps[i])
  {
    seq(|ps|, i requires 0 <= i < |ps| => (ps[i].number, ps[i]))
  }

  lemma {:induction false} HeardOrNot(h: Hub, steps: seq<Step>)
    ensures |Heard(h, steps)| <= |Emitted(steps)|
    ensures |Heard(h, steps)| == |Emitted(steps)| <==> AlwaysHeard(h, steps)
    ensures AlwaysHeard(h, steps) ==> Heard(h, steps) == Emitted(steps)
    decreases |steps|
  {
    if steps != [] {
      HeardOrNot(h, Front(steps));
      AlwaysHeardStep(h, steps);
      hide AlwaysHeard, Run;
    }
  }

  lemma AlwaysHeardStep(h: Hub, steps: seq<Step>)
    requires steps != []
    ensures AlwaysHeard(h, steps) <==> AlwaysHeard(h, Front(steps)) && (Last(steps).Emit? ==> Run(h, Front(steps)).queues != map[])
  {
    hide Run;
    var front, n := Front(steps), |steps| - 1;
    assert steps[..n] == front;
    forall i | 0 <= i < n ensures front[..i] == steps[..i] && front[i] == steps[i] {}
  }

  /** `g` is what `h` has become once `heard` has been numbered. */
  ghost predicate Holds(h: Hub, g: Hub, heard: seq<Envelope>) {
    && g.nextSeq == h.nextSeq + |heard|
    && (|h.history| <= RING ==> g.history == LastN(h.history + Entries(StampedAll(heard, h.nextSeq + 1)), RING))
  }

  lemma OneMoreEntry(heard: seq<Envelope>, env: Envelope, first: nat)
    ensures Entries(StampedAll(heard + [env], first))
         == Entries(StampedAll(heard, first)) + [(first + |heard|, Stamped(env, first + |heard|))]
  {
  }

  lemma StepHolds(h: Hub, g: Hub, heard: seq<Envelope>, step: Step)
    requires Holds(h, g, heard)
    ensures Holds(h, Next(g, step), heard + if step.Emit? && g.queues != map[] then [step.env] else [])
  {
    hide StampedAll, Entries, Newer;
    if step.Emit? && g.queues != map[] {
      var before, entry := Entries(StampedAll(heard, h.nextSeq + 1)), (g.nextSeq + 1, Stamped(step.env, g.nextSeq + 1));
      assert Next(g, step).nextSeq == g.nextSeq + 1 && Next(g, step).history == Pushed(g.history, entry, RING);
      hide Next, Pushed, LastN, Stamped;
      OneMoreEntry(heard, step.env, h.nextSeq + 1);
      assert h.history + (before + [entry]) == h.history + before + [entry];
      LastNSnoc(h.history + before, entry, RING);
    } else {
      assert heard + [] == heard;
    }
  }

  /** The counter and the ring know exactly what was heard. */
  lemma {:induction false} RingHoldsHeard(h: Hub, steps: seq<Step>)
    ensures Holds(h, Run(h, steps), Heard(h, steps))
    decreases |steps|
  {
    if steps == [] {
      assert h.history + Entries(StampedAll([], h.nextSeq + 1)) == h.history;
    } else {
      hide Holds, Next;
      RingHoldsHeard(h, Front(steps));
      StepHolds(h, Run(h, Front(steps)), Heard(h, Front(steps)), Last(steps));
    }
  }

  /** Each of `ps` carries the number under which it was heard, and tells of just that emission. */
  ghost predicate Told(ps: seq<Payload>, heard: seq<Envelope>) {
    forall p :: p in ps ==> 1 <= p.number <= |heard| && Tells(p, heard[p.number - 1])
  }

  /** Everything the manager keeps or has sent is told right. */
  ghost predicate HubTold(h: Hub, heard: seq<Envelope>) {
    && h.nextSeq == |heard|
    && (forall e :: e in h.history ==> Told([e.1], heard))
    && (forall c :: c in h.queues ==> Told(h.queues[c], heard))
    && (forall c :: c in h.delivered ==> Told(h.delivered[c], heard))
  }

  lemma ToldMore(ps: seq<Payload>, heard: seq<Envelope>, env: Envelope)
    requires Told(ps, heard)
    ensures Told(ps, heard + [env])
  {
  }

  lemma {:induction false} NewerComesFrom(history: seq<(nat, Payload)>, since: nat)
    ensures forall p :: p in Newer(history, since) ==> exists e :: e in history && e.1 == p
  {
    if history != [] {
      NewerComesFrom(history[1..], since);
      forall p | p in Newer(history, since) ensures exists e :: e in history && e.1 == p {
        if p in Newer(history[1..], since) {
          var e :| e in history[1..] && e.1 == p;
          assert e in history;
        } else {
          assert history[0] in history && history[0].1 == p;
        }
      }
    }
  }

  lemma EmitTold(h: Hub, heard: seq<Envelope>, env: Envelope)
    requires HubTold(h, heard) && h.queues != map[]
    ensures HubTold(Next(h, Emit(env)), heard + [env])
  {
    var h' := Next(h, Emit(env));
    var p := Stamped(env, h.nextSeq + 1);
    var heard' := heard + [env];
    assert Told([p], heard') by { assert heard'[p.number - 1] == env; }
    forall e | e in h'.history ensures Told([e.1], heard') {
      if e in h.history { ToldMore([e.1], heard, env); }
    }
    forall c | c in h'.queues ensures Told(h'.queues[c], heard') {
      ToldMore(h.queues[c], heard, env);
      assert forall q :: q in h'.queues[c] ==> q in h.queues[c] || q in [p];
    }
    forall c | c in h'.delivered ensures Told(h'.delivered[c], heard') { ToldMore(h.delivered[c], heard, env); }
  }

  lemma ReplayTold(h: Hub, heard: seq<Envelope>, c: nat, since: nat)
    requires HubTold(h, heard)
    ensures HubTold(Next(h, Replay(c, since)), heard)
  {
    if c in h.queues {
      var news := Newer(h.history, since);
      NewerComesFrom(h.history, since);
      assert Told(news, heard) by {
        forall p | p in news ensures 1 <= p.number <= |heard| && Tells(p, heard[p.number - 1]) {
          var e :| e in h.history && e.1 == p;
          assert Told([e.1], heard) && p in [e.1];
        }
      }
      hide Newer;
      assert forall p :: p in LastN(h.queues[c] + news, DEPTH) ==> p in h.queues[c] || p in news;
    }
  }

  lemma DeliverTold(h: Hub, heard: seq<Envelope>, c: nat)
    requires HubTold(h, heard)
    ensures HubTold(Next(h, Deliver(c)), heard)
  {
    if c in h.queues && c in h.delivered && h.queues[c] != [] {
      assert h.queues[c][0] in h.queues[c];
      assert Told(h.delivered[c] + [h.queues[c][0]], heard);
    }
  }

  /**
    In every run, whatever any client was sent or still has queued is one of the emissions that
    found the manager listening, under the number it was heard as, with that emission's own name
    and parameters.
  */
  lemma {:induction false} EverythingSentWasHeard(steps: seq<Step>)
    ensures HubTold(Run(Init(), steps), Heard(Init(), steps))
    decreases |steps|
  {
    if steps != [] {
      var h, heard, step := Run(Init(), Front(steps)), Heard(Init(), Front(steps)), Last(steps);
      EverythingSentWasHeard(Front(steps));
      hide HubTold, Heard, Run;
      assert Heard(Init(), steps) == heard + (if step.Emit? && h.queues != map[] then [step.env] else []) by { HeardStep(Init(), steps); }
      assert Run(Init(), steps) == Next(h, step) by { RunStep(Init(), steps); }
      StepTold(h, heard, step);
    }
  }

  lemma HeardStep(h: Hub, steps: seq<Step>)
    requires steps != []
    ensures Heard(h, steps) == Heard(h, Front(steps)) + (if Last(steps).Emit? && Run(h, Front(steps)).queues != map[] then [Last(steps).env] else [])
  {
  }

  lemma RunStep(h: Hub, steps: seq<Step>)
    requires steps != []
    ensures Run(h, steps) == Next(Run(h, Front(steps)), Last(steps))
  {
  }

  lemma StepTold(h: Hub, heard: seq<Envelope>, step: Step)
    requires HubTold(h, heard)
    ensures HubTold(Next(h, step), heard + (if step.Emit? && h.queues != map[] then [step.env] else []))
  {
    assert heard + [] == heard;
    match step
    case Emit(env) => if h.queues != map[] { EmitTold(h, heard, env); }
    case Replay(c, since) => ReplayTold(h, heard, c, since);
    case Deliver(c) => DeliverTold(h, heard, c);
    case Join(c) =>
    case Leave(c) =>
  }

  lemma {:induction false} NewerAppend(a: seq<(nat, Payload)>, b: seq<(nat, Payload)>, since: nat)
    ensures Newer(a + b, since) == Newer(a, since) + Newer(b, since)
    decreases |a|
  {
    if a == [] {
      assert a + b == b;
    } else {
      assert (a + b)[1..] == a[1..] + b;
      NewerAppend(a[1..], b, since);
    }
  }

  lemma {:induction false} NewerNone(a: seq<(nat, Payload)>, since: nat)
    requires forall i :: 0 <= i < |a| ==> a[i].0 <= since
    ensures Newer(a, since) == []
  {
    if a != [] { NewerNone(a[1..], since); }
  }

  lemma {:induction false} NewerAll(ps: seq<Payload>, since: nat)
    requires forall i :: 0 <= i < |ps| ==> ps[i].number > since
    ensures Newer(Entries(ps), since) == ps
    decreases |ps|
  {
    if ps != [] {
      assert Entries(ps)[1..] == Entries(ps[1..]);
      NewerAll(ps[1..], since);
      assert ps == [ps[0]] + ps[1..];
    }
  }

  /** Of old entries and new ones, the ring keeps the newest, and a replay finds the new ones among them. */
  lemma NewerInRing(earlier: seq<(nat, Payload)>, ps: seq<Payload>, since: nat)
    requires (forall i :: 0 <= i < |earlier| ==> earlier[i].0 <= since) && forall i :: 0 <= i < |ps| ==> ps[i].number > since
    ensures Newer(LastN(earlier + Entries(ps), RING), since) == LastN(ps, RING)
  {
    var all := earlier + Entries(ps);
    if |ps| >= RING {
      assert LastN(all, RING) == Entries(LastN(ps, RING));
      NewerAll(LastN(ps, RING), since);
    } else {
      var kept := LastN(all, RING);
      var rest := kept[..|kept| - |ps|];
      assert kept == rest + Entries(ps);
      assert forall i :: 0 <= i < |rest| ==> rest[i].0 <= since;
      hide LastN, Entries;
      NewerAppend(rest, Entries(ps), since);
      NewerNone(rest, since);
      NewerAll(ps, since);
      assert [] + ps == ps;
    }
  }

  lemma LastOfLast(ps: seq<Payload>)
    ensures LastN(LastN(ps, RING), DEPTH) == LastN(ps, DEPTH)
  {
  }

  /**
    A client whose cursor stood at the counter after `before` and that comes back after `away` is
    sent the newest of what was heard meanwhile, whatever the others did.
  */
  lemma ResumeSendsHeard(before: seq<Step>, away: seq<Step>, c: nat)
    requires c !in Run(Run(Init(), before), away).queues
    ensures var h := Run(Init(), before); var r := Next(Next(Run(h, away), Join(c)), Replay(c, h.nextSeq));
      c in r.queues && c in r.delivered && Sent(r, c) == LastN(StampedAll(Heard(h, away), h.nextSeq + 1), DEPTH)
  {
    hide HubOk, Holds, Run, Heard, Next, Sent, StampedAll, LastN;
    var h := Run(Init(), before);
    EveryRunKeepsHub(before);
    RunKeepsHub(h, away);
    RingHoldsHeard(h, away);
    ReplayOfHeld(h, Run(h, away), Heard(h, away), c);
  }

  lemma ReplayOfHeld(h: Hub, g: Hub, heard: seq<Envelope>, c: nat)
    requires HubOk(h) && HubOk(g) && Holds(h, g, heard) && c !in g.queues
    ensures var r := Next(Next(g, Join(c)), Replay(c, h.nextSeq));
      c in r.queues && c in r.delivered && Sent(r, c) == LastN(StampedAll(heard, h.nextSeq + 1), DEPTH)
  {
    var ps := StampedAll(heard, h.nextSeq + 1);
    assert |h.history| <= RING && forall i :: 0 <= i < |h.history| ==> h.history[i].0 <= h.nextSeq;
    assert g.history == LastN(h.history + Entries(ps), RING);
    JoinThenReplay(g, c, h.nextSeq);
    hide Newer, LastN, Next, HubOk, Holds, Entries;
    NewerInRing(h.history, ps, h.nextSeq);
    LastOfLast(ps);
  }

  lemma {:induction false} RunKeepsHub(h: Hub, steps: seq<Step>)
    requires HubOk(h)
    ensures HubOk(Run(h, steps))
    decreases |steps|
  {
    if steps != [] {
      RunKeepsHub(h, Front(steps));
      StepKeepsHub(Run(h, Front(steps)), Last(steps));
    }
  }

  /**
    The promise of resume, that a returning client gets what was emitted while it was away, each
    event once and in order: it is kept exactly when that is no more than a queue holds and
    somebody else was connected all along.
  */
  lemma ResumeKeepsPromiseExactly(before: seq<Step>, away: seq<Step>, c: nat)
    requires c !in Run(Run(Init(), before), away).queues
    ensures var h := Run(Init(), before); var r := Next(Next(Run(h, away), Join(c)), Replay(c, h.nextSeq));
      && c in r.queues && c in r.delivered
      && (Sent(r, c) == StampedAll(Emitted(away), h.nextSeq + 1) <==> |Emitted(away)| <= DEPTH && AlwaysHeard(h, away))
  {
    hide AlwaysHeard, StampedAll, LastN, Sent, Heard, Emitted, Next, Run;
    var h := Run(Init(), before);
    ResumeSendsHeard(before, away, c);
    HeardOrNot(h, away);
    AllSentExactly(Heard(h, away), Emitted(away), h.nextSeq + 1);
  }

  lemma AllSentExactly(heard: seq<Envelope>, emitted: seq<Envelope>, first: nat)
    requires |heard| <= |emitted| && (|heard| == |emitted| ==> heard == emitted)
    ensures LastN(StampedAll(heard, first), DEPTH) == StampedAll(emitted, first) <==> |emitted| <= DEPTH && |heard| == |emitted|
  {
  }

  lemma OneEmission(a: Envelope)
    ensures Next(Hub(0, [], map[7 := []], map[7 := []]), Emit(a)) == Hub(1, [(1, Stamped(a, 1))], map[7 := [Stamped(a, 1)]], map[7 := []])
  {
    var h: Hub := Hub(0, [], map[7 := []], map[7 := []]);
    assert 7 in h.queues;
    assert Pushed(h.history, (1, Stamped(a, 1)), RING) == [(1, Stamped(a, 1))];
    assert Pushed(h.queues[7], Stamped(a, 1), DEPTH) == [Stamped(a, 1)];
  }

  lemma FirstJoin()
    ensures Run(Init(), []) == Init() && Next(Init(), Join(7)) == Hub(0, [], map[7 := []], map[7 := []])
  {
  }

  lemma AfterTheOnlyClientLeft(a: Envelope)
    ensures Run(Init(), [Join(7), Emit(a), Leave(7)]) == Hub(1, [(1, Stamped(a, 1))], map[], map[])
  {
    hide *;
    var s1, s2 := [Join(7)], [Join(7), Emit(a)];
    RunSnoc(Init(), [], Join(7));
    RunSnoc(Init(), s1, Emit(a));
    RunSnoc(Init(), s2, Leave(7));
    assert [] + [Join(7)] == s1 && s1 + [Emit(a)] == s2 && s2 + [Leave(7)] == [Join(7), Emit(a), Leave(7)];
    FirstJoin();
    OneEmission(a);
    LeaveAlone(a);
  }

  lemma LeaveAlone(a: Envelope)
    ensures Next(Hub(1, [(1, Stamped(a, 1))], map[7 := [Stamped(a, 1)]], map[7 := []]), Leave(7)) == Hub(1, [(1, Stamped(a, 1))], map[], map[])
  {
    var queues: map<nat, seq<Payload>> := map[7 := [Stamped(a, 1)]];
    var delivered: map<nat, seq<Payload>> := map[7 := []];
    assert queues - {7} == map[] && delivered - {7} == map[];
  }

  /** The only client goes and comes back: what was emitted meanwhile is lost, and the numbers do not show it. */
  lemma SoleClientLosesEvents(a: Envelope, b: Envelope)
    ensures var h := Run(Init(), [Join(7), Emit(a), Leave(7)]);
      var r := Next(Next(Run(h, [Emit(b)]), Join(7)), Replay(7, 1));
      h.nextSeq == 1 && 7 in r.queues && 7 in r.delivered && Sent(r, 7) == [] && r.nextSeq == 1
  {
    AfterTheOnlyClientLeft(a);
    var h := Hub(1, [(1, Stamped(a, 1))], map[], map[]);
    RunSnoc(h, [], Emit(b));
    assert [] + [Emit(b)] == [Emit(b)];
    assert Run(h, [Emit(b)]) == h;
    assert Newer(h.history[1..], 1) == [];
    assert Newer(h.history, 1) == [];
  }

  /** A broadcast between joining and replaying is queued twice. */
  lemma BroadcastBeforeReplayDuplicates(env: Envelope)
    ensures var h := Run(Init(), [Join(7), Emit(env), Replay(7, 0)]);
            7 in h.queues && h.queues[7] == [Stamped(env, 1), Stamped(env, 1)]
  {
    var p := Stamped(env, 1);
    var none: seq<Payload> := [];
    assert none + [p] == [p];
    RunSnoc(Init(), [], Join(7));
    RunSnoc(Init(), [Join(7)], Emit(env));
    RunSnoc(Init(), [Join(7), Emit(env)], Replay(7, 0));
    assert [] + [Join(7)] == [Join(7)];
    assert [Join(7)] + [Emit(env)] == [Join(7), Emit(env)];
    assert [Join(7), Emit(env)] + [Replay(7, 0)] == [Join(7), Emit(env), Replay(7, 0)];
    var h2 := Run(Init(), [Join(7), Emit(env)]);
    assert h2.history == [(1, p)] && h2.queues[7] == [p];
    assert Newer(h2.history[1..], 0) == [];
    assert Newer(h2.history, 0) == [p];
    assert [p] + [p] == [p, p];
  }

  lemma RunSnoc(h: Hub, steps: seq<Step>, step: Step)
    ensures Run(h, steps + [step]) == Next(Run(h, steps), step)
  {
    assert (steps + [step])[..|steps|] == steps;
  }
}
