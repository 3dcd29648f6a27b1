/** Forwarded tool calls: progress frames racing one response, and the adapters a stream passes through. */
module CallStream {
  import opened Basics

  datatype Frame = Frame(kind: string, body: string)
  datatype ToolProgress = Custom(subkind: string, payload: string)

  datatype ToolError = NotFound(tool: string) | Failure(code: string, detail: string)

  /** A stream item: any number of progress items, then one terminal carrying a value or an error. */
  datatype Item<+V> = Progress(p: ToolProgress) | Terminal(result: Result<V, ToolError>)

  function ProgressFromFrame(f: Frame): ToolProgress { Custom(f.kind, f.body) }

  function Lifted<V>(frames: seq<Frame>): (r: seq<Item<V>>)
    ensures |r| == |frames| && forall i :: 0 <= i < |r| ==> r[i] == Progress(ProgressFromFrame(frames[i]))
  {
    seq(|frames|, i requires 0 <= i < |frames| => Progress(ProgressFromFrame(frames[i])))
  }

  /** `Progress* Terminal` */
  ghost predicate WellFormed<V>(items: seq<Item<V>>) {
    |items| > 0 && items[|items| - 1].Terminal? && forall i :: 0 <= i < |items| - 1 ==> items[i].Progress?
  }

  // ----- type erasure -----

  datatype Block = Block(text: string)
  datatype Encoded = Encoded(tool: string, value: string, blocks: seq<Block>, card: Option<string>)

  /** What an output knows about itself: its JSON form or why it has none, its own blocks, its card. */
  datatype Output = Output(encoded: Result<string, string>, custom: seq<Block>, card: Option<string>)

  function Erased(item: Item<Output>, tool: string, extract: string -> seq<Block>): Item<Encoded> {
    match item
    case Progress(p) => Progress(p)
    case Terminal(Err(e)) => Terminal(Err(e))
    case Terminal(Ok(out)) =>
      match out.encoded
      case Err(why) => Terminal(Err(Failure("output_encoding", why)))
      case Ok(value) => Terminal(Ok(Encoded(tool, value, if out.custom != [] then out.custom else extract(value), out.card)))
  }

  function ErasedAll(items: seq<Item<Output>>, tool: string, extract: string -> seq<Block>): (r: seq<Item<Encoded>>)
    ensures |r| == |items| && forall i :: 0 <= i < |r| ==> r[i] == Erased(items[i], tool, extract)
  {
    seq(|items|, i requires 0 <= i < |items| => Erased(items[i], tool, extract))
  }

  lemma ErasedKeepsShape(items: seq<Item<Output>>, tool: string, extract: string -> seq<Block>)
    ensures WellFormed(items) <==> WellFormed(ErasedAll(items, tool, extract))
  {
    var out := ErasedAll(items, tool, extract);
    assert forall k :: 0 <= k < |items| ==> (items[k].Progress? <==> out[k].Progress?);
  }

  /** One item out for one item in, of the same kind; progress and errors pass untouched. */
  method EraseStream(items: seq<Item<Output>>, tool: string, extract: string -> seq<Block>) returns (out: seq<Item<Encoded>>)
    ensures out == ErasedAll(items, tool, extract)
    ensures WellFormed(items) <==> WellFormed(out)
  {
    out := [];
    for i := 0 to |items|
      invariant |out| == i
      invariant forall k :: 0 <= k < i ==> out[k] == Erased(items[k], tool, extract)
    {
      match items[i]
      case Progress(p) => out := out + [Progress(p)];
      case Terminal(Err(e)) => out := out + [Terminal(Err(e))];
      case Terminal(Ok(o)) =>
        match o.encoded {
          case Err(why) => out := out + [Terminal(Err(Failure("output_encoding", why)))];
          case Ok(value) =>
            out := out + [Terminal(Ok(Encoded(tool, value, if o.custom != [] then o.custom else extract(value), o.card)))];
        }
    }
    ErasedKeepsShape(items, tool, extract);
  }

  // ----- the race -----

  /** Which of the two awaited tasks a wait cycle found finished. */
  datatype Wake = FrameOnly | ResponseOnly | Both

  /** How the progress iterator ends once its frames are spent. */
  datatype ProgressEnd = Exhausted | Raises

  /** `Open` while the schedule has brought no end, `Crashed` when an exception leaves the generator. */
  datatype Outcome = Open | Ended | Crashed

  datatype Stream<+V> = Stream(items: seq<Item<V>>, outcome: Outcome)

  /** What the request task comes to. */
  datatype Reply = Envelope(body: Result<string, ToolError>) | Transport(error: ToolError) | Raised

  /** The decoder of a success body; `None` when it raises. */
  type Decoder = string -> Option<Result<Encoded, ToolError>>

  function TerminalItem(reply: Reply, decode: Decoder): Option<Result<Encoded, ToolError>> {
    match reply
    case Envelope(Ok(value)) => decode(value)
    case Envelope(Err(e)) => Some(Err(e))
    case Transport(e) => Some(Err(e))
    case Raised => None
  }

  /** The first cycle in which the response is there. */
  function Arrival(wakes: seq<Wake>): (k: nat)
    ensures k <= |wakes|
    ensures forall i :: 0 <= i < k ==> wakes[i].FrameOnly?
    ensures k < |wakes| ==> !wakes[k].FrameOnly?
  {
    if wakes == [] || !wakes[0].FrameOnly? then 0 else 1 + Arrival(wakes[1..])
  }

  function Shorter(a: nat, b: nat): nat { if a < b then a else b }

  /** One forwarded call: its subscription, its parameters' encoding, its frames, its reply, its schedule. */
  datatype Forwarding = Forwarding(
    subscribed: bool, encoding: Option<string>, frames: seq<Frame>, end: ProgressEnd, reply: Reply, wakes: seq<Wake>)
  {
    /** The progress iterator raises in a cycle that finds no response yet. */
    predicate ProgressFirst() { end.Raises? && |frames| < Arrival(wakes) }
    predicate Answers() { !ProgressFirst() && Arrival(wakes) < |wakes| }
    function Seen(): seq<Frame> { frames[..Shorter(Arrival(wakes), |frames|)] }
  }

  /**
    The generator.  Whatever the schedule, the consumer has seen the frames that came in before
    the response, in order, then the one terminal made from the response, then nothing.  An
    exception gets out exactly when progress raises first, or the response is an exception or
    cannot be decoded.
  */
  method RequestStream(f: Forwarding, decode: Decoder) returns (items: seq<Item<Encoded>>, outcome: Outcome)
    ensures outcome.Ended? <==> f.Answers() && TerminalItem(f.reply, decode).Some?
    ensures outcome.Crashed? <==> f.ProgressFirst() || (f.Answers() && TerminalItem(f.reply, decode).None?)
    ensures items == Lifted<Encoded>(f.Seen()) + (if outcome.Ended? then [Terminal(TerminalItem(f.reply, decode).value)] else [])
  {
    items := [];
    var taken := 0;
    var progressDone := false;
    var i := 0;
    while i < |f.wakes|
      invariant i <= |f.wakes| && Arrival(f.wakes) >= i
      invariant taken == Shorter(i, |f.frames|) && (progressDone <==> i > |f.frames|)
      invariant items == Lifted<Encoded>(f.frames[..taken])
      invariant f.end.Raises? ==> i <= |f.frames|
    {
      if !f.wakes[i].FrameOnly? {
        // with progress done this is the bare await of the request, else it has priority over a frame
        items, outcome := Finish(items, f.reply, decode);
        return;
      }
      if !progressDone {
        if taken < |f.frames| {
          items := items + [Progress(ProgressFromFrame(f.frames[taken]))];
          taken := taken + 1;
        } else if f.end.Raises? {
          return items, Crashed;
        } else {
          progressDone := true;
        }
      }
      i := i + 1;
    }
    outcome := Open;
  }

  method Finish(before: seq<Item<Encoded>>, reply: Reply, decode: Decoder) returns (items: seq<Item<Encoded>>, outcome: Outcome)
    ensures outcome == if TerminalItem(reply, decode).Some? then Ended else Crashed
    ensures items == before + (if outcome.Ended? then [Terminal(TerminalItem(reply, decode).value)] else [])
  {
    match TerminalItem(reply, decode)
    case None => items, outcome := before, Crashed;
    case Some(result) => items, outcome := before + [Terminal(result)], Ended;
  }

  function Yielding(item: Item<Encoded>, rest: Stream<Encoded>): Stream<Encoded> { Stream([item] + rest.items, rest.outcome) }

  /** The race wait cycle by wait cycle, as a consumer who reads on sees it. */
  function Race(frames: seq<Frame>, end: ProgressEnd, reply: Reply, wakes: seq<Wake>, decode: Decoder): Stream<Encoded>
    decreases |wakes|
  {
    if wakes == [] then Stream([], Open)
    else if !wakes[0].FrameOnly? then
      match TerminalItem(reply, decode)
      case None => Stream([], Crashed)
      case Some(result) => Stream([Terminal(result)], Ended)
    else if frames != [] then Yielding(Progress(ProgressFromFrame(frames[0])), Race(frames[1..], end, reply, wakes[1..], decode))
    else if end.Raises? then Stream([], Crashed)
    else Race(frames, end, reply, wakes[1..], decode)
  }

  /** What a consumer gets from a forwarded call. */
  function Forwarded(f: Forwarding, decode: Decoder): Stream<Encoded> {
    if !f.subscribed then Stream([], Crashed)
    else if f.encoding.Some? then Stream([Terminal(Err(Failure("request_encoding", f.encoding.value)))], Ended)
    else Race(f.frames, f.end, f.reply, f.wakes, decode)
  }

  /** The frames seen, the terminal if there is one, and how it ended, all from where the response arrives. */
  function InFull(f: Forwarding, decode: Decoder): Stream<Encoded> {
    var terminal := TerminalItem(f.reply, decode);
    var ended := f.Answers() && terminal.Some?;
    Stream(Lifted<Encoded>(f.Seen()) + (if ended then [Terminal(terminal.value)] else []),
           if ended then Ended else if f.ProgressFirst() || f.Answers() then Crashed else Open)
  }

  /** Cycle by cycle the race comes to just that. */
  lemma {:induction false} RaceInFull(f: Forwarding, decode: Decoder)
    ensures Race(f.frames, f.end, f.reply, f.wakes, decode) == InFull(f, decode)
    decreases |f.wakes|
  {
    hide TerminalItem;
    if f.wakes != [] && f.wakes[0].FrameOnly? {
      if f.frames != [] {
        var g := f.(frames := f.frames[1..], wakes := f.wakes[1..]);
        RaceInFull(g, decode);
        assert f.Seen() == [f.frames[0]] + g.Seen();
        assert Lifted<Encoded>(f.Seen()) == [Progress(ProgressFromFrame(f.frames[0]))] + Lifted<Encoded>(g.Seen());
        assert f.Answers() == g.Answers() && f.ProgressFirst() == g.ProgressFirst();
      } else if f.end.Exhausted? {
        RaceInFull(f.(wakes := f.wakes[1..]), decode);
      }
    }
  }

  /** The layer-3 assembler: subscribe, encode the parameters, then let the race run. */
  method DispatchViaConnection(f: Forwarding, decode: Decoder) returns (items: seq<Item<Encoded>>, outcome: Outcome)
    ensures Stream(items, outcome) == Forwarded(f, decode)
    ensures WellFormed(items) <==> outcome.Ended?
  {
    if !f.subscribed {
      return [], Crashed;
    }
    if f.encoding.Some? {
      return [Terminal(Err(Failure("request_encoding", f.encoding.value)))], Ended;
    }
    items, outcome := RequestStream(f, decode);
    RaceInFull(f, decode);
    ForwardedShape(f, decode);
  }

  /** A forwarded stream is progress items; the one terminal is there, and last, exactly when it ended. */
  lemma ForwardedShape(f: Forwarding, decode: Decoder)
    ensures WellFormed(Forwarded(f, decode).items) <==> Forwarded(f, decode).outcome.Ended?
    ensures !Forwarded(f, decode).outcome.Ended? ==> forall i :: 0 <= i < |Forwarded(f, decode).items| ==> Forwarded(f, decode).items[i].Progress?
  {
    var s := Forwarded(f, decode);
    RaceInFull(f, decode);
    if s.items != [] { assert s.outcome.Ended? ==> s.items[|s.items| - 1].Terminal?; }
  }

  // ----- resolution and dispatch -----

  /** A resolved tool: one of this process, with the typed stream it produces, or one behind a connection. */
  datatype Handle = Local(typed: seq<Item<Output>>, outcome: Outcome) | Remote(call: Forwarding)

  type Registry = map<(string, string), Handle>

  function Resolve(local: Registry, remote: Option<Registry>, session: string, tool: string): Option<Handle> {
    if (session, tool) in local then Some(local[(session, tool)])
    else if remote.Some? && (session, tool) in remote.value then Some(remote.value[(session, tool)])
    else None
  }

  /** `out` is `item` on the wire: the same progress or error, or the output under the tool's name, with its own blocks if it has any. */
  predicate IsErased(item: Item<Output>, out: Item<Encoded>, tool: string, extract: string -> seq<Block>) {
    match item
    case Progress(p) => out == Progress(p)
    case Terminal(Err(e)) => out == Terminal(Err(e))
    case Terminal(Ok(o)) =>
      out.Terminal? &&
      if o.encoded.Err? then out.result == Err(Failure("output_encoding", o.encoded.error))
      else
        out.result.Ok? && out.result.value.tool == tool && out.result.value.value == o.encoded.value && out.result.value.card == o.card
        && out.result.value.blocks == if o.custom == [] then extract(o.encoded.value) else o.custom
  }

  /** The stream is that of the handle: its own, item by item on the wire, or the forwarded call's. */
  predicate StreamsFrom(handle: Handle, s: Stream<Encoded>, tool: string, extract: string -> seq<Block>, decode: Decoder) {
    match handle
    case Local(typed, end) =>
      s.outcome == end && |s.items| == |typed| && forall i :: 0 <= i < |typed| ==> IsErased(typed[i], s.items[i], tool, extract)
    case Remote(call) => s == Forwarded(call, decode)
  }

  /** A tool of this process hides one of the same name behind a connection; one in neither registry is not found. */
  predicate Serves(local: Registry, remote: Option<Registry>, session: string, tool: string,
                   extract: string -> seq<Block>, decode: Decoder, s: Stream<Encoded>) {
    var key := (session, tool);
    if key in local then StreamsFrom(local[key], s, tool, extract, decode)
    else if remote.Some? && key in remote.value then StreamsFrom(remote.value[key], s, tool, extract, decode)
    else s == Stream([Terminal(Err(NotFound(tool)))], Ended)
  }

  /** Over every pair of registries: the stream dispatched is that of the tool registered for the session. */
  lemma DispatchFinds(local: Registry, remote: Option<Registry>, session: string, tool: string,
                      extract: string -> seq<Block>, decode: Decoder)
    ensures Serves(local, remote, session, tool, extract, decode,
                   Dispatched(Resolve(local, remote, session, tool), tool, extract, decode))
    ensures Resolve(local, remote, session, tool).None? <==>
      (session, tool) !in local && (remote.None? || (session, tool) !in remote.value)
  {
    match Resolve(local, remote, session, tool)
    case Some(Local(typed, _)) =>
      var out := ErasedAll(typed, tool, extract);
      forall i | 0 <= i < |typed| ensures IsErased(typed[i], out[i], tool, extract) {}
    case _ =>
  }

  /** `resolve_and_dispatch`, read to the end of the schedule. */
  method ResolveAndDispatch(local: Registry, remote: Option<Registry>, session: string, tool: string,
                            extract: string -> seq<Block>, decode: Decoder)
    returns (items: seq<Item<Encoded>>, outcome: Outcome)
    ensures Stream(items, outcome) == Dispatched(Resolve(local, remote, session, tool), tool, extract, decode)
    ensures WellFormed(items) <==> Completes(Resolve(local, remote, session, tool), decode)
    ensures Serves(local, remote, session, tool, extract, decode, Stream(items, outcome))
  {
    DispatchFinds(local, remote, session, tool, extract, decode);
    match Resolve(local, remote, session, tool)
    case None =>
      items, outcome := [Terminal(Err(NotFound(tool)))], Ended;
    case Some(Local(typed, end)) =>
      items := EraseStream(typed, tool, extract);
      outcome := end;
    case Some(Remote(call)) =>
      items, outcome := DispatchViaConnection(call, decode);
      CompletesExactly(call, decode);
  }

  function Dispatched(handle: Option<Handle>, tool: string, extract: string -> seq<Block>, decode: Decoder): Stream<Encoded> {
    match handle
    case None => Stream([Terminal(Err(NotFound(tool)))], Ended)
    case Some(Local(typed, end)) => Stream(ErasedAll(typed, tool, extract), end)
    case Some(Remote(call)) => Forwarded(call, decode)
  }

  /**
    What must be so for the caller to get `Progress* Terminal`: nothing for an unknown tool, a
    well-formed stream from a tool of this process, and from a forwarded call that the
    subscription stands and, unless its parameters cannot be encoded, that the response comes
    before any exception of the progress iterator, is no exception itself, and can be decoded.
  */
  ghost predicate Completes(handle: Option<Handle>, decode: Decoder) {
    match handle
    case None => true
    case Some(Local(typed, _)) => WellFormed(typed)
    case Some(Remote(f)) =>
      f.subscribed && (f.encoding.Some? ||
        (Arrival(f.wakes) < |f.wakes| && (f.end.Raises? ==> Arrival(f.wakes) <= |f.frames|)
         && !f.reply.Raised? && (f.reply.Envelope? && f.reply.body.Ok? ==> decode(f.reply.body.value).Some?)))
  }

  lemma CompletesExactly(f: Forwarding, decode: Decoder)
    ensures Forwarded(f, decode).outcome.Ended? <==> Completes(Some(Remote(f)), decode)
  {
    RaceInFull(f, decode);
  }

  /** Over every pair of registries and every schedule: the caller gets `Progress* Terminal` exactly then. */
  lemma DispatchIsWellFormed(local: Registry, remote: Option<Registry>, session: string, tool: string,
                             extract: string -> seq<Block>, decode: Decoder)
    ensures var handle := Resolve(local, remote, session, tool);
      WellFormed(Dispatched(handle, tool, extract, decode).items) <==> Completes(handle, decode)
  {
    match Resolve(local, remote, session, tool)
    case None =>
    case Some(Local(typed, _)) => ErasedKeepsShape(typed, tool, extract);
    case Some(Remote(f)) => {
      ForwardedShape(f, decode);
      CompletesExactly(f, decode);
    }
  }

  /** What a response means to the caller: the decoded body, or the error it or its transport brought. */
  predicate MeansReply(reply: Reply, decode: Decoder, result: Result<Encoded, ToolError>) {
    match reply
    case Envelope(Ok(body)) => decode(body) == Some(result)
    case Envelope(Err(e)) => result == Err(e)
    case Transport(e) => result == Err(e)
    case Raised => false
  }

  /** When nothing raises, what arrives is the frames before the response, in order, and what the response means. */
  lemma ForwardedInFull(f: Forwarding, decode: Decoder)
    requires f.subscribed && f.encoding.None? && Completes(Some(Remote(f)), decode)
    ensures var items := Forwarded(f, decode).items; var n := Shorter(Arrival(f.wakes), |f.frames|);
      && |items| == n + 1 && items[n].Terminal? && MeansReply(f.reply, decode, items[n].result)
      && forall i :: 0 <= i < n ==> items[i] == Progress(Custom(f.frames[i].kind, f.frames[i].body))
  {
    CompletesExactly(f, decode);
    RaceInFull(f, decode);
  }

  /** When something does, it is nothing if there was no subscription, one error if the parameters had no encoding, else the frames up to there. */
  lemma ForwardedInPart(f: Forwarding, decode: Decoder)
    ensures var s := Forwarded(f, decode); var n := Shorter(Arrival(f.wakes), |f.frames|);
      && (!f.subscribed ==> s == Stream([], Crashed))
      && (f.subscribed && f.encoding.Some? ==> s == Stream([Terminal(Err(Failure("request_encoding", f.encoding.value)))], Ended))
      && (f.subscribed && f.encoding.None? && !Completes(Some(Remote(f)), decode) ==>
            (|s.items| == n && (forall i :: 0 <= i < n ==> s.items[i] == Progress(Custom(f.frames[i].kind, f.frames[i].body)))
             && s.outcome == if Arrival(f.wakes) < |f.wakes| || (f.end.Raises? && |f.frames| < Arrival(f.wakes)) then Crashed else Open))
  {
    CompletesExactly(f, decode);
    RaceInFull(f, decode);
  }

  /** The response task fails while progress is still coming: the stream stops without a terminal. */
  lemma RaisingRequestHasNoTerminal(frame: Frame, decode: Decoder)
    ensures Forwarded(Forwarding(true, None, [frame], Exhausted, Raised, [FrameOnly, ResponseOnly]), decode)
         == Stream([Progress(ProgressFromFrame(frame))], Crashed)
  {
    var wakes := [FrameOnly, ResponseOnly];
    assert wakes[1..] == [ResponseOnly] && [frame][1..] == [];
    assert Race([], Exhausted, Raised, [ResponseOnly], decode) == Stream([], Crashed);
  }
}
