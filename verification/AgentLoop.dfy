/**
  One turn of the agent: ask the model, run the tools it calls, feed the results back, until it
  answers without calls, the iteration budget runs out, the user cancels, the model fails, or an
  exception gets out of a tool batch.
*/
module AgentLoop {
  import opened Basics
  import opened Messages
  import opened Text
  import Compaction
  import Convert

  const KEEP_RECENT := 4
  const MIN_STEPS := 3

  /** `preThreshold` is the token limit for the history check before the turn, when that check is on. */
  datatype Config = Config(prompt: string, maxIterations: int, window: nat, percent: nat, preThreshold: Option<int>)

  datatype Reply = Fails | Replies(text: string, calls: seq<RawCall>, promptTokens: nat)

  /** What running the tool calls of one reply comes to. */
  datatype Batch = Results(of: nat -> string) | Raises

  /** What the collaborators do in one iteration: flag reads, notes, the model, generated ids, the tool batch. */
  datatype Turn = Turn(
    cancelBefore: bool, notes: seq<string>, reply: Reply, minted: nat -> string,
    batch: Batch, cancelAfter: bool, interjections: seq<string>)

  type Script = nat -> Turn

  /** What the turn starts from; `historyTokens` is the estimate for the whole history. */
  datatype Input = Input(history: seq<Message>, historyTokens: nat, user: string)

  datatype Reason = MaxIterations | Interrupted
  datatype Event = TurnStart | TurnDone(iterations: nat) | TurnAbort(reason: Reason) | TurnError

  datatype Ending = Going | Done(text: string) | Cancelled | Failed | Raised

  /** The variables of the loop, and what it has sent out: model payloads, persisted rows, lifecycle events. */
  datatype State = State(
    messages: seq<Message>, persisted: seq<Message>, payloads: seq<seq<Message>>, events: seq<Event>,
    lastPrompt: Option<nat>, compactions: nat, iterations: nat, ending: Ending)

  // ----- one iteration, as a function -----

  function Users(texts: seq<string>): (r: seq<Message>)
    ensures |r| == |texts| && forall i :: 0 <= i < |r| ==> r[i] == User(texts[i])
  {
    seq(|texts|, i requires 0 <= i < |texts| => User(texts[i]))
  }

  predicate ShouldCompact(config: Config, last: Option<nat>, iteration: nat) {
    last.Some? && config.window != 0 && iteration >= MIN_STEPS && last.value > config.window * config.percent / 100
  }

  /** The list after the check inside the loop. */
  function Squeezed(config: Config, ms: seq<Message>): seq<Message> {
    var shorter := Compaction.Compacted(ms, config.window / 2, KEEP_RECENT);
    if |shorter| < |ms| then shorter else ms
  }

  function BeforeCall(config: Config, st: State, iteration: nat): seq<Message> {
    if ShouldCompact(config, st.lastPrompt, iteration) then Squeezed(config, st.messages) else st.messages
  }

  function Take(n: nat, f: nat -> string): (r: seq<string>)
    ensures |r| == n && forall i :: 0 <= i < n ==> r[i] == f(i)
  {
    seq(n, i requires 0 <= i < n => f(i))
  }

  /** The assistant message once its calls have ids. */
  function FilledReply(turn: Turn): seq<RawCall>
    requires turn.reply.Replies?
  {
    Filled(turn.reply.calls, Take(|turn.reply.calls|, turn.minted))
  }

  /** One row per call, unless the batch raises. */
  function ToolRows(turn: Turn): seq<Message>
    requires turn.reply.Replies?
  {
    var calls := Canonical(FilledReply(turn));
    match turn.batch
    case Results(of) => ToolMessages(calls, Take(|calls|, of))
    case Raises => []
  }

  function Ended(st: State, ending: Ending, events: seq<Event>): State {
    st.(ending := ending, events := st.events + events)
  }

  /** The state once iteration `st.iterations` has called the model. */
  function Asked(config: Config, st: State, turn: Turn): State {
    var sent := BeforeCall(config, st, st.iterations);
    st.(messages := sent, payloads := st.payloads + [sent + Users(turn.notes)], iterations := st.iterations + 1,
        compactions := st.compactions + if |sent| < |st.messages| then 1 else 0)
  }

  /** The state once the model has replied; the row is stored before ids are filled in. */
  function Answered(st: State, turn: Turn): State
    requires turn.reply.Replies?
  {
    var reply := turn.reply;
    st.(messages := st.messages + [Assistant(reply.text, FilledReply(turn))],
        persisted := st.persisted + [Assistant(reply.text, reply.calls)],
        lastPrompt := if reply.promptTokens == 0 then None else Some(reply.promptTokens))
  }

  function Extended(st: State, rows: seq<Message>): State {
    st.(messages := st.messages + rows, persisted := st.persisted + rows)
  }

  /** From the reply to the end of the iteration. */
  function Resolved(st: State, turn: Turn): State
    requires turn.reply.Replies?
  {
    var answered := Answered(st, turn);
    var tools := ToolRows(turn);
    if Canonical(FilledReply(turn)) == [] then Ended(answered, Done(turn.reply.text), [TurnDone(st.iterations)])
    else if turn.batch.Raises? then Ended(answered, Raised, [])
    else if turn.cancelAfter then Ended(Extended(answered, tools), Cancelled, [])
    else Extended(Extended(answered, tools), Users(turn.interjections))
  }

  function Iterate(config: Config, st: State, turn: Turn): State {
    if turn.cancelBefore then Ended(st.(iterations := st.iterations + 1), Cancelled, [])
    else if turn.reply.Fails? then Ended(Asked(config, st, turn), Failed, [TurnError])
    else Resolved(Asked(config, st, turn), turn)
  }

  function StartHistory(config: Config, input: Input): seq<Message> {
    match config.preThreshold
    case Some(limit) => if input.historyTokens > limit then Compaction.Compacted(input.history, limit, KEEP_RECENT) else input.history
    case None => input.history
  }

  function Start(config: Config, input: Input): State {
    State([System(config.prompt)] + StartHistory(config, input) + [User(input.user)], [User(input.user)], [], [TurnStart], None, 0, 0, Going)
  }

  /** The state after at most `n` iterations. */
  function After(config: Config, input: Input, script: Script, n: nat): State {
    if n == 0 then Start(config, input)
    else
      var st := After(config, input, script, n - 1);
      if st.ending.Going? then Iterate(config, st, script(n - 1)) else st
  }

  function Budget(config: Config): nat { if config.maxIterations < 0 then 0 else config.maxIterations }

  function StopText(n: int): string {
    "I stopped after reaching the " + (if n < 0 then "-" + Decimal(-n) else Decimal(n)) + "-iteration limit before producing a final answer."
  }

  /** What is left to do behind the loop. */
  function Finished(config: Config, st: State): State {
    match st.ending
    case Going =>
      var final := Assistant(StopText(config.maxIterations), []);
      st.(messages := st.messages + [final], persisted := st.persisted + [final], events := st.events + [TurnAbort(MaxIterations)])
    case Cancelled => st.(events := st.events + [TurnAbort(Interrupted)])
    case _ => st
  }

  function Outcome(config: Config, input: Input, script: Script): State {
    Finished(config, After(config, input, script, Budget(config)))
  }

  // ----- the loop -----

  method CompactInLoop(config: Config, messages: seq<Message>, last: Option<nat>, iteration: nat)
    returns (sent: seq<Message>, shrunk: bool)
    ensures sent == (if ShouldCompact(config, last, iteration) then Squeezed(config, messages) else messages)
    ensures shrunk <==> |sent| < |messages|
  {
    sent, shrunk := messages, false;
    if last.Some? && config.window != 0 && ShouldCompact(config, last, iteration) {
      var compacted := Compaction.CompactHistory(messages, config.window / 2, KEEP_RECENT);
      if |compacted| < |messages| {
        sent, shrunk := compacted, true;
      }
    }
  }

  /** Extracts the calls of a reply, runs them if there are any, and lines the results up with them. */
  method CallTools(turn: Turn) returns (filled: seq<RawCall>, called: bool, tools: seq<Message>)
    requires turn.reply.Replies?
    ensures filled == FilledReply(turn) && tools == ToolRows(turn)
    ensures called <==> Canonical(filled) != []
  {
    var raw := new RawCall[|turn.reply.calls|](i requires 0 <= i < |turn.reply.calls| => turn.reply.calls[i]);
    assert raw[..] == turn.reply.calls;
    var calls := ExtractToolCalls(raw, Take(raw.Length, turn.minted));
    filled := raw[..];
    called, tools := calls != [], [];
    match turn.batch
    case Raises =>
    case Results(of) =>
      for i := 0 to |calls|
        invariant |tools| == i && forall k :: 0 <= k < i ==> tools[k] == Tool(calls[k].id, calls[k].name, of(k))
      {
        tools := tools + [Tool(calls[i].id, calls[i].name, of(i))];
      }
  }

  method Run(config: Config, input: Input, script: Script) returns (st: State)
    ensures st == Outcome(config, input, script)
  {
    st := RunLoop(config, input, script);
    if st.ending.Going? {
      var final := Assistant(StopText(config.maxIterations), []);
      st := st.(messages := st.messages + [final], persisted := st.persisted + [final], events := st.events + [TurnAbort(MaxIterations)]);
    } else if st.ending.Cancelled? {
      st := st.(events := st.events + [TurnAbort(Interrupted)]);
    }
  }

  method RunLoop(config: Config, input: Input, script: Script) returns (st: State)
    ensures st == After(config, input, script, Budget(config))
  {
    var history := input.history;
    if config.preThreshold.Some? && input.historyTokens > config.preThreshold.value {
      history := Compaction.CompactHistory(history, config.preThreshold.value, KEEP_RECENT);
    }
    st := State([System(config.prompt)] + history + [User(input.user)], [User(input.user)], [], [TurnStart], None, 0, 0, Going);
    var k := 0;
    while k < Budget(config) && st.ending.Going?
      invariant k <= Budget(config)
      invariant st == After(config, input, script, k)
    {
      st := RunIteration(config, st, script(k));
      k := k + 1;
    }
    EndedStays(config, input, script, k, Budget(config));
  }

  method RunIteration(config: Config, before: State, turn: Turn) returns (st: State)
    ensures st == Iterate(config, before, turn)
  {
    st := before.(iterations := before.iterations + 1);
    if turn.cancelBefore {
      return st.(ending := Cancelled);
    }
    var sent, shrunk := CompactInLoop(config, st.messages, st.lastPrompt, before.iterations);
    st := st.(messages := sent, compactions := st.compactions + if shrunk then 1 else 0);
    st := st.(payloads := st.payloads + [sent + Users(turn.notes)]);
    if turn.reply.Fails? {
      return st.(ending := Failed, events := st.events + [TurnError]);
    }
    st := Resolve(st, turn);
  }

  method Resolve(before: State, turn: Turn) returns (st: State)
    requires turn.reply.Replies?
    ensures st == Resolved(before, turn)
  {
    st := before.(lastPrompt := if turn.reply.promptTokens == 0 then None else Some(turn.reply.promptTokens));
    st := st.(persisted := st.persisted + [Assistant(turn.reply.text, turn.reply.calls)]);
    var filled, called, tools := CallTools(turn);
    st := st.(messages := st.messages + [Assistant(turn.reply.text, filled)]);
    if !called {
      return st.(ending := Done(turn.reply.text), events := st.events + [TurnDone(st.iterations)]);
    }
    if turn.batch.Raises? {
      return st.(ending := Raised);
    }
    st := st.(messages := st.messages + tools, persisted := st.persisted + tools);
    if turn.cancelAfter {
      return st.(ending := Cancelled);
    }
    var more := Users(turn.interjections);
    st := st.(messages := st.messages + more, persisted := st.persisted + more);
  }

  lemma {:induction false} EndedStays(config: Config, input: Input, script: Script, k: nat, n: nat)
    requires k <= n && (k == n || !After(config, input, script, k).ending.Going?)
    ensures After(config, input, script, n) == After(config, input, script, k)
  {
    if k < n { EndedStays(config, input, script, k, n - 1); }
  }

  // ----- every list the loop builds is paired -----

  ghost predicate MintsIds(script: Script) { forall k: nat, i: nat :: !Blank(script(k).minted(i)) }

  ghost predicate AllPaired(lists: seq<seq<Message>>) { forall i :: 0 <= i < |lists| ==> WellPaired(lists[i]) }

  lemma {:induction false} UsersPaired(texts: seq<string>)
    ensures WellPaired(Users(texts))
    decreases |texts|
  {
    if texts != [] {
      var before := texts[..|texts| - 1];
      UsersPaired(before);
      assert Front(Users(texts)) == Users(before);
    }
  }

  lemma RowsAnswer(turn: Turn) returns (results: seq<string>)
    requires turn.reply.Replies? && (turn.batch.Raises? ==> NamedIds(turn.reply.calls) == [])
    ensures |results| == |Canonical(FilledReply(turn))| && ToolRows(turn) == ToolMessages(Canonical(FilledReply(turn)), results)
  {
    hide FilledReply;
    ToolRowsEmpty(turn);
    results := if turn.batch.Raises? then [] else Take(|Canonical(FilledReply(turn))|, turn.batch.of);
  }

  lemma AnswersPaired(ms: seq<Message>, turn: Turn)
    requires WellPaired(ms) && turn.reply.Replies? && forall i: nat :: !Blank(turn.minted(i))
    requires turn.batch.Raises? ==> NamedIds(turn.reply.calls) == []
    ensures WellPaired(ms + [Assistant(turn.reply.text, FilledReply(turn))] + ToolRows(turn))
  {
    hide WellPaired, ToolRows, Canonical, NamedIds, Filled, ToolMessages;
    var filled := FilledReply(turn);
    FilledHaveIds(turn.reply.calls, Take(|turn.reply.calls|, turn.minted));
    var results := RowsAnswer(turn);
    AnsweredGroup(turn.reply.text, filled, results);
    var group := [Assistant(turn.reply.text, filled)] + ToolRows(turn);
    PairedAppend(ms, group);
    assert ms + group == ms + [Assistant(turn.reply.text, filled)] + ToolRows(turn);
  }

  lemma BeforeCallPaired(config: Config, st: State, iteration: nat)
    requires WellPaired(st.messages)
    ensures WellPaired(BeforeCall(config, st, iteration))
  {
    Compaction.CompactionKeepsPairing(st.messages, config.window / 2, KEEP_RECENT);
  }

  lemma ResolvedPaired(st: State, turn: Turn)
    requires WellPaired(st.messages) && turn.reply.Replies? && forall i: nat :: !Blank(turn.minted(i))
    ensures Resolved(st, turn).ending == Raised || WellPaired(Resolved(st, turn).messages)
  {
    ToolRowsEmpty(turn);
    if turn.batch.Raises? && NamedIds(turn.reply.calls) != [] { return; }
    var answered := st.messages + [Assistant(turn.reply.text, FilledReply(turn))];
    AnswersPaired(st.messages, turn);
    UsersPaired(turn.interjections);
    PairedAppend(answered + ToolRows(turn), Users(turn.interjections));
    assert answered + [] == answered;
  }

  lemma AskedPaired(config: Config, st: State, turn: Turn)
    requires WellPaired(st.messages) && AllPaired(st.payloads)
    ensures WellPaired(Asked(config, st, turn).messages) && AllPaired(Asked(config, st, turn).payloads)
  {
    var sent := BeforeCall(config, st, st.iterations);
    BeforeCallPaired(config, st, st.iterations);
    UsersPaired(turn.notes);
    PairedAppend(sent, Users(turn.notes));
  }

  lemma IterationStaysPaired(config: Config, st: State, turn: Turn)
    requires WellPaired(st.messages) && AllPaired(st.payloads) && forall i: nat :: !Blank(turn.minted(i))
    ensures Iterate(config, st, turn).ending == Raised || WellPaired(Iterate(config, st, turn).messages)
    ensures AllPaired(Iterate(config, st, turn).payloads)
  {
    AskedPaired(config, st, turn);
    if turn.reply.Replies? { ResolvedPaired(Asked(config, st, turn), turn); }
  }

  lemma StartPaired(config: Config, input: Input)
    requires WellPaired(input.history)
    ensures WellPaired(Start(config, input).messages)
  {
    if config.preThreshold.Some? { Compaction.CompactionKeepsPairing(input.history, config.preThreshold.value, KEEP_RECENT); }
    var system := [System(config.prompt)];
    assert Front(system) == [];
    UserPaired(input.user);
    PairedAppend(system, StartHistory(config, input));
    PairedAppend(system + StartHistory(config, input), [User(input.user)]);
  }

  lemma {:induction false} LoopStaysPaired(config: Config, input: Input, script: Script, n: nat)
    requires WellPaired(input.history) && MintsIds(script)
    ensures var st := After(config, input, script, n); (st.ending == Raised || WellPaired(st.messages)) && AllPaired(st.payloads)
  {
    hide Iterate;
    if n == 0 {
      StartPaired(config, input);
    } else {
      LoopStaysPaired(config, input, script, n - 1);
      var st := After(config, input, script, n - 1);
      if st.ending.Going? {
        IterationStaysPaired(config, st, script(n - 1));
      }
    }
  }

  /**
    From a well-paired history, whatever the model, the tools, the user and compaction do: every
    list sent to the model is well paired, and so is the final list unless a tool batch raised;
    what the transport makes of a sent list answers every tool use at once and drops no result.
  */
  lemma EveryListIsPaired(config: Config, input: Input, script: Script, i: nat, mint: Convert.Mint)
    requires WellPaired(input.history) && MintsIds(script)
    ensures Outcome(config, input, script).ending == Raised || WellPaired(Outcome(config, input, script).messages)
    ensures AllPaired(Outcome(config, input, script).payloads)
    ensures i < |Outcome(config, input, script).payloads| ==>
      Convert.WirePaired(Convert.Converted(Convert.Remaining(Outcome(config, input, script).payloads[i]), mint))
  {
    var st := After(config, input, script, Budget(config));
    LoopStaysPaired(config, input, script, Budget(config));
    if st.ending.Going? {
      var final := [Assistant(StopText(config.maxIterations), [])];
      assert Front(final) == [];
      PairedAppend(st.messages, final);
    }
    if i < |st.payloads| { Convert.RequestIsPaired(st.payloads[i], mint); }
  }

  // ----- how the turn ends -----

  /** How one iteration ends, from its script alone. */
  function EndingOf(turn: Turn): Ending {
    if turn.cancelBefore then Cancelled
    else match turn.reply
      case Fails => Failed
      case Replies(text, calls, _) =>
        if NamedIds(calls) == [] then Done(text)
        else if turn.batch.Raises? then Raised
        else if turn.cancelAfter then Cancelled else Going
  }

  /** The iteration gets to its tool batch, and an exception gets out of it. */
  predicate BatchRaises(turn: Turn) { EndingOf(turn) == Raised }

  ghost predicate GoesOn(script: Script, n: nat) { forall k: nat :: k < n ==> EndingOf(script(k)).Going? }

  lemma FilledFront(calls: seq<RawCall>, minted: seq<string>)
    requires |minted| == |calls| && calls != []
    ensures Front(Filled(calls, minted)) == Filled(Front(calls), Front(minted))
    ensures Last(Filled(calls, minted)) == FilledCall(Last(calls), Last(minted))
    ensures Last(Filled(calls, minted)).Named() == Last(calls).Named()
  {
  }

  lemma {:induction false} FilledNames(calls: seq<RawCall>, minted: seq<string>)
    requires |minted| == |calls|
    ensures |NamedIds(Filled(calls, minted))| == |NamedIds(calls)|
    decreases |calls|
  {
    hide Filled, FilledCall;
    if calls != [] {
      FilledFront(calls, minted);
      FilledNames(Front(calls), Front(minted));
    }
  }

  lemma ToolRowsEmpty(turn: Turn)
    requires turn.reply.Replies?
    ensures |Canonical(FilledReply(turn))| == |NamedIds(turn.reply.calls)|
    ensures |ToolRows(turn)| == if turn.batch.Raises? then 0 else |NamedIds(turn.reply.calls)|
  {
    FilledNames(turn.reply.calls, Take(|turn.reply.calls|, turn.minted));
    CanonicalIds(FilledReply(turn));
  }

  function Closing(ending: Ending, iterations: nat): seq<Event> {
    match ending
    case Going => []
    case Done(_) => [TurnDone(iterations)]
    case Cancelled => []
    case Failed => [TurnError]
    case Raised => []
  }

  /** The loop's counters and events against the script. */
  ghost predicate Tracks(st: State, script: Script, n: nat) {
    && st.events == [TurnStart] + Closing(st.ending, st.iterations)
    && st.iterations - 1 <= |st.payloads| <= st.iterations <= n
    && (if st.ending.Going? then st.iterations == n && |st.payloads| == n && GoesOn(script, n) else
          st.iterations > 0 && st.ending == EndingOf(script(st.iterations - 1)) && GoesOn(script, st.iterations - 1))
  }

  /** The rows one iteration stores. */
  function RowsOf(turn: Turn): seq<Message> {
    if turn.cancelBefore || turn.reply.Fails? then []
    else
      [Assistant(turn.reply.text, turn.reply.calls)] + ToolRows(turn)
      + (if EndingOf(turn).Going? then Users(turn.interjections) else [])
  }

  lemma ResolvedTracks(st: State, turn: Turn)
    requires st.ending.Going? && turn.reply.Replies? && !turn.cancelBefore
    ensures var next := Resolved(st, turn);
      && next.ending == EndingOf(turn)
      && next.iterations == st.iterations && next.payloads == st.payloads
      && next.events == st.events + Closing(EndingOf(turn), st.iterations)
      && next.persisted == st.persisted + RowsOf(turn)
  {
    hide ToolRows, FilledReply, Users;
    ToolRowsEmpty(turn);
    assert st.events + [] == st.events;
  }

  lemma OneIterationTracks(config: Config, st: State, turn: Turn)
    requires st.ending.Going?
    ensures var next := Iterate(config, st, turn);
      && next.ending == EndingOf(turn)
      && next.iterations == st.iterations + 1
      && next.events == st.events + Closing(EndingOf(turn), st.iterations + 1)
      && next.persisted == st.persisted + RowsOf(turn)
      && next.payloads == st.payloads + if turn.cancelBefore then [] else [BeforeCall(config, st, st.iterations) + Users(turn.notes)]
  {
    hide Resolved, BeforeCall, ToolRows, Users, FilledReply;
    if !turn.cancelBefore && turn.reply.Replies? {
      ResolvedTracks(Asked(config, st, turn), turn);
      hide EndingOf, RowsOf;
    }
    assert st.events + [] == st.events && st.persisted + [] == st.persisted && st.payloads + [] == st.payloads;
  }

  lemma GoesOnStep(script: Script, n: nat)
    ensures GoesOn(script, n + 1) <==> GoesOn(script, n) && EndingOf(script(n)).Going?
  {
  }

  lemma {:induction false} LoopTracks(config: Config, input: Input, script: Script, n: nat)
    ensures Tracks(After(config, input, script, n), script, n)
  {
    if n > 0 {
      LoopTracks(config, input, script, n - 1);
      TrackStep(config, After(config, input, script, n - 1), script, n - 1);
    }
  }

  lemma TrackStep(config: Config, st: State, script: Script, n: nat)
    requires Tracks(st, script, n)
    ensures Tracks(if st.ending.Going? then Iterate(config, st, script(n)) else st, script, n + 1)
  {
    if st.ending.Going? {
      OneIterationTracks(config, st, script(n));
      GoesOnStep(script, n);
    }
  }

  /** The event that closes a turn, if there is one. */
  function ClosingEvents(ending: Ending, iterations: nat): seq<Event> {
    match ending
    case Going => [TurnAbort(MaxIterations)]
    case Done(_) => [TurnDone(iterations)]
    case Cancelled => [TurnAbort(Interrupted)]
    case Failed => [TurnError]
    case Raised => []
  }

  /** No iteration that is reached has a tool batch that raises. */
  ghost predicate NoneRaises(script: Script, n: nat) { forall k: nat :: k < n && GoesOn(script, k) ==> !BatchRaises(script(k)) }

  /**
    A turn starts with one event and ends with exactly one, chosen by the first iteration that
    does not go on, or by the budget if there is none, if and only if no tool batch raises; if one
    does, it ends with none.  The model is called at most once per iteration, and never beyond the
    budget.
  */
  lemma OneClosingEvent(config: Config, input: Input, script: Script)
    ensures var st := Outcome(config, input, script);
      && st.events == [TurnStart] + ClosingEvents(st.ending, st.iterations)
      && |ClosingEvents(st.ending, st.iterations)| == (if NoneRaises(script, Budget(config)) then 1 else 0)
      && |st.payloads| <= st.iterations <= Budget(config)
      && (st.ending.Going? <==> GoesOn(script, Budget(config)))
      && (st.ending.Going? ==> st.iterations == |st.payloads| == Budget(config))
    ensures forall k: nat :: k < Budget(config) && GoesOn(script, k) && !EndingOf(script(k)).Going? ==>
      Outcome(config, input, script).iterations == k + 1 && Outcome(config, input, script).ending == EndingOf(script(k))
  {
    LoopTracks(config, input, script, Budget(config));
  }

  // ----- what is stored -----

  /** The rows of the first `n` iterations, as far as the turn gets. */
  ghost function Rows(script: Script, n: nat): seq<Message> {
    if n == 0 then [] else Rows(script, n - 1) + (if GoesOn(script, n - 1) then RowsOf(script(n - 1)) else [])
  }

  lemma RowsGrow(script: Script, n: nat)
    ensures Rows(script, n + 1) == Rows(script, n) + if GoesOn(script, n) then RowsOf(script(n)) else []
  {
  }

  lemma StartStores(config: Config, input: Input, script: Script)
    ensures After(config, input, script, 0).persisted == [User(input.user)] + Rows(script, 0)
  {
    assert Rows(script, 0) == [];
  }

  lemma {:induction false} LoopStores(config: Config, input: Input, script: Script, n: nat)
    ensures After(config, input, script, n).persisted == [User(input.user)] + Rows(script, n)
  {
    hide Iterate, Rows, Start, GoesOn;
    StartStores(config, input, script);
    if n > 0 {
      LoopStores(config, input, script, n - 1);
      LoopTracks(config, input, script, n - 1);
      StoreStep(config, After(config, input, script, n - 1), script, n - 1, [User(input.user)]);
    }
  }

  lemma StoreStep(config: Config, st: State, script: Script, n: nat, first: seq<Message>)
    requires Tracks(st, script, n) && st.persisted == first + Rows(script, n)
    ensures (if st.ending.Going? then Iterate(config, st, script(n)) else st).persisted == first + Rows(script, n + 1)
  {
    hide Iterate, RowsOf;
    StillGoing(st, script, n);
    RowsGrow(script, n);
    if st.ending.Going? {
      OneIterationTracks(config, st, script(n));
      assert first + Rows(script, n) + RowsOf(script(n)) == first + (Rows(script, n) + RowsOf(script(n)));
    }
  }

  lemma StillGoing(st: State, script: Script, n: nat)
    requires Tracks(st, script, n)
    ensures st.ending.Going? <==> GoesOn(script, n)
  {
    if GoesOn(script, n) && st.iterations > 0 {
      assert EndingOf(script(st.iterations - 1)).Going?;
    }
  }

  function ClosingRow(config: Config, ending: Ending): seq<Message> {
    if ending.Going? then [Assistant(StopText(config.maxIterations), [])] else []
  }

  /** Same replies, tools, flags and interjections; the notes may differ. */
  ghost predicate SameButNotes(a: Script, b: Script) {
    forall k: nat :: b(k) == a(k).(notes := b(k).notes)
  }

  lemma SameEndings(a: Script, b: Script)
    requires SameButNotes(a, b)
    ensures forall k: nat :: EndingOf(a(k)) == EndingOf(b(k))
  {
    forall k: nat ensures EndingOf(a(k)) == EndingOf(b(k)) { SameRowsOf(a(k), b(k)); }
  }

  lemma {:induction false} SameRows(a: Script, b: Script, n: nat)
    requires SameButNotes(a, b)
    ensures Rows(a, n) == Rows(b, n) && (GoesOn(a, n) <==> GoesOn(b, n))
  {
    hide RowsOf, EndingOf;
    SameEndings(a, b);
    if n > 0 {
      SameRows(a, b, n - 1);
      SameRowsOf(a(n - 1), b(n - 1));
    }
  }

  lemma SameRowsOf(a: Turn, b: Turn)
    requires b == a.(notes := b.notes)
    ensures RowsOf(a) == RowsOf(b) && EndingOf(a) == EndingOf(b)
  {
  }

  /**
    What a turn stores, how it ends and what it reports depend only on the user message, the
    budget and what the model, the tools and the user did: notes leave no trace in it, nor do
    the history, the context window or any compaction.
  */
  lemma StoredIgnoresNotesAndCompaction(c1: Config, i1: Input, s1: Script, c2: Config, i2: Input, s2: Script)
    requires c1.maxIterations == c2.maxIterations && i1.user == i2.user && SameButNotes(s1, s2)
    ensures var a, b := Outcome(c1, i1, s1), Outcome(c2, i2, s2);
      a.persisted == b.persisted && a.events == b.events && a.ending == b.ending && a.iterations == b.iterations
    ensures var st := Outcome(c1, i1, s1);
      st.persisted == [User(i1.user)] + Rows(s1, Budget(c1)) + ClosingRow(c1, st.ending)
  {
    var n := Budget(c1);
    LoopStores(c1, i1, s1, n);
    LoopStores(c2, i2, s2, n);
    LoopTracks(c1, i1, s1, n);
    LoopTracks(c2, i2, s2, n);
    SameRows(s1, s2, n);
    SameEnding(After(c1, i1, s1, n), After(c2, i2, s2, n), s1, s2, n);
  }

  lemma SameEnding(a: State, b: State, s1: Script, s2: Script, n: nat)
    requires Tracks(a, s1, n) && Tracks(b, s2, n) && SameButNotes(s1, s2)
    ensures a.iterations == b.iterations && a.ending == b.ending && a.events == b.events
  {
    forall k: nat ensures EndingOf(s1(k)) == EndingOf(s2(k)) {
      SameRowsOf(s1(k), s2(k));
    }
    if !a.ending.Going? && !b.ending.Going? {
      assert !EndingOf(s1(a.iterations - 1)).Going?;
      assert !EndingOf(s2(b.iterations - 1)).Going?;
    }
  }

  // ----- notes reach the model and nothing else -----

  /** `p` is the list of iteration `i` with that iteration's notes behind it. */
  predicate IsPayload(config: Config, input: Input, script: Script, i: nat, p: seq<Message>) {
    p == BeforeCall(config, After(config, input, script, i), i) + Users(script(i).notes)
  }

  lemma PayloadsGrow(config: Config, input: Input, script: Script, n: nat, p: seq<seq<Message>>, q: seq<seq<Message>>)
    requires p == After(config, input, script, n).payloads && q == After(config, input, script, n + 1).payloads
    ensures q == p || (|p| == n && |q| == n + 1 && q[..n] == p && IsPayload(config, input, script, n, q[n]))
  {
    var st := After(config, input, script, n);
    LoopTracks(config, input, script, n);
    if st.ending.Going? { OneIterationTracks(config, st, script(n)); }
  }

  lemma PayloadIsNext(config: Config, input: Input, script: Script, n: nat, i: nat, p: seq<seq<Message>>, q: seq<seq<Message>>)
    requires n > 0 && p == After(config, input, script, n - 1).payloads && q == After(config, input, script, n).payloads
    requires i < |p| ==> IsPayload(config, input, script, i, p[i])
    ensures i < |q| ==> IsPayload(config, input, script, i, q[i])
  {
    hide IsPayload, Iterate, Start;
    PayloadsGrow(config, input, script, n - 1, p, q);
    if i < |p| {
      assert q[i] == p[i];
    }
  }

  lemma {:induction false} PayloadIs(config: Config, input: Input, script: Script, n: nat, q: seq<seq<Message>>, i: nat)
    requires q == After(config, input, script, n).payloads
    ensures i < |q| ==> IsPayload(config, input, script, i, q[i])
    decreases n
  {
    if n > 0 {
      var p := After(config, input, script, n - 1).payloads;
      PayloadIs(config, input, script, n - 1, p, i);
      PayloadIsNext(config, input, script, n, i, p, q);
    }
  }

  lemma IterateWithoutNotes(config: Config, a: State, b: State, ta: Turn, tb: Turn)
    requires b == a.(payloads := b.payloads) && tb == ta.(notes := tb.notes)
    ensures Iterate(config, b, tb) == Iterate(config, a, ta).(payloads := Iterate(config, b, tb).payloads)
  {
  }

  lemma {:induction false} LoopWithoutNotes(config: Config, input: Input, a: Script, b: Script, n: nat)
    requires SameButNotes(a, b)
    ensures After(config, input, b, n) == After(config, input, a, n).(payloads := After(config, input, b, n).payloads)
  {
    if n > 0 {
      LoopWithoutNotes(config, input, a, b, n - 1);
      assert b(n - 1) == a(n - 1).(notes := b(n - 1).notes);
      IterateWithoutNotes(config, After(config, input, a, n - 1), After(config, input, b, n - 1), a(n - 1), b(n - 1));
    }
  }

  /** Changing the notes changes the tail of each list sent to the model, and nothing else anywhere. */
  lemma NotesAreEphemeral(config: Config, input: Input, a: Script, b: Script)
    requires SameButNotes(a, b)
    ensures Outcome(config, input, b) == Outcome(config, input, a).(payloads := Outcome(config, input, b).payloads)
    ensures var p, q := Outcome(config, input, a).payloads, Outcome(config, input, b).payloads;
      forall i :: 0 <= i < |p| && i < |q| ==>
        var sent := BeforeCall(config, After(config, input, a, i), i);
        p[i] == sent + Users(a(i).notes) && q[i] == sent + Users(b(i).notes)
  {
    var n := Budget(config);
    LoopWithoutNotes(config, input, a, b, n);
    var p, q := After(config, input, a, n).payloads, After(config, input, b, n).payloads;
    forall i | 0 <= i < |p| && i < |q|
      ensures p[i] == BeforeCall(config, After(config, input, a, i), i) + Users(a(i).notes)
      ensures q[i] == BeforeCall(config, After(config, input, a, i), i) + Users(b(i).notes)
    {
      PayloadIs(config, input, a, n, p, i);
      PayloadIs(config, input, b, n, q, i);
      LoopWithoutNotes(config, input, a, b, i);
    }
  }

  // ----- what is stored is paired only if the model sent ids -----

  predicate IdsMatch(tools: seq<Message>, owed: seq<string>)
    requires |tools| <= |owed| && forall i :: 0 <= i < |tools| ==> tools[i].Tool?
  {
    forall i :: 0 <= i < |tools| ==> tools[i].callId == owed[i]
  }

  lemma {:induction false} MatchOrNone(owed: seq<string>, tools: seq<Message>)
    requires |tools| <= |owed| && forall i :: 0 <= i < |tools| ==> tools[i].Tool?
    ensures Scan(owed, tools) == if IdsMatch(tools, owed) then Some(owed[|tools|..]) else None
    decreases |tools|
  {
    if tools != [] {
      MatchOrNone(owed, Front(tools));
      assert IdsMatch(tools, owed) <==> IdsMatch(Front(tools), owed) && Last(tools).callId == owed[|tools| - 1];
      var left := owed[|tools| - 1..];
      assert left != [] && left[0] == owed[|tools| - 1] && left[1..] == owed[|tools|..];
    }
  }

  lemma SnocEqual(a: seq<string>, b: seq<string>, x: string, y: string)
    requires |a| == |b|
    ensures a + [x] == b + [y] <==> a == b && x == y
  {
    if a + [x] == b + [y] {
      assert a == (a + [x])[..|a|] && b == (b + [y])[..|b|];
      assert x == (a + [x])[|a|] && y == (b + [y])[|b|];
    }
  }

  lemma CallsHaveIdsStep(calls: seq<RawCall>)
    requires calls != []
    ensures CallsHaveIds(calls) <==> CallsHaveIds(Front(calls)) && (Last(calls).Named() ==> !Blank(Last(calls).id))
  {
    assert forall i :: 0 <= i < |Front(calls)| ==> Front(calls)[i] == calls[i];
  }

  lemma MintedDiffers(call: RawCall, minted: string)
    requires !Blank(minted)
    ensures FilledCall(call, minted).id == call.id <==> (call.Named() ==> !Blank(call.id))
  {
  }

  lemma {:induction false} FilledIdsExactly(calls: seq<RawCall>, minted: seq<string>)
    requires |minted| == |calls| && MintedIds(minted)
    ensures NamedIds(Filled(calls, minted)) == NamedIds(calls) <==> CallsHaveIds(calls)
    decreases |calls|
  {
    hide Filled, CallsHaveIds, Blank, FilledCall, NamedIds;
    if calls == [] {
      NoCallsFilled(minted);
    } else {
      FilledFront(calls, minted);
      FilledIdsExactly(Front(calls), Front(minted));
      FilledNames(Front(calls), Front(minted));
      CallsHaveIdsStep(calls);
      NamedIdsStep(calls);
      NamedIdsStep(Filled(calls, minted));
      MintedDiffers(Last(calls), Last(minted));
      assert minted[|minted| - 1] == Last(minted);
      SnocEqual(NamedIds(Filled(Front(calls), Front(minted))), NamedIds(Front(calls)),
                FilledCall(Last(calls), Last(minted)).id, Last(calls).id);
    }
  }

  lemma NoCallsFilled(minted: seq<string>)
    requires minted == []
    ensures Filled([], minted) == [] && CallsHaveIds([])
  {
  }

  lemma NamedIdsStep(calls: seq<RawCall>)
    requires calls != []
    ensures NamedIds(calls) == if Last(calls).Named() then NamedIds(Front(calls)) + [Last(calls).id] else NamedIds(Front(calls))
  {
  }

  /** If the model replied, it gave every named call an id. */
  predicate IdsGiven(turn: Turn) { turn.cancelBefore || turn.reply.Fails? || CallsHaveIds(turn.reply.calls) }

  /** ... in each of the first `n` iterations that is reached. */
  ghost predicate AllGiven(script: Script, n: nat) { forall k: nat :: k < n && GoesOn(script, k) ==> IdsGiven(script(k)) }

  lemma RowIds(turn: Turn)
    requires turn.reply.Replies? && turn.batch.Results?
    ensures var tools, ids := ToolRows(turn), NamedIds(FilledReply(turn));
      |tools| == |ids| && forall i :: 0 <= i < |tools| ==> tools[i].Tool? && tools[i].callId == ids[i]
  {
    CanonicalIds(FilledReply(turn));
  }

  lemma IdsMatchExactly(turn: Turn)
    requires turn.reply.Replies? && turn.batch.Results? && forall i: nat :: !Blank(turn.minted(i))
    ensures var tools, owed := ToolRows(turn), NamedIds(turn.reply.calls);
      && |tools| == |owed| && (forall i :: 0 <= i < |tools| ==> tools[i].Tool?)
      && (IdsMatch(tools, owed) <==> CallsHaveIds(turn.reply.calls))
  {
    ToolRowsEmpty(turn);
    RowIds(turn);
    FilledIdsExactly(turn.reply.calls, Take(|turn.reply.calls|, turn.minted));
    MatchMeansEqual(ToolRows(turn), NamedIds(FilledReply(turn)), NamedIds(turn.reply.calls));
  }

  lemma MatchMeansEqual(tools: seq<Message>, ids: seq<string>, owed: seq<string>)
    requires |tools| == |ids| == |owed|
    requires forall i :: 0 <= i < |tools| ==> tools[i].Tool? && tools[i].callId == ids[i]
    ensures IdsMatch(tools, owed) <==> ids == owed
  {
    if IdsMatch(tools, owed) {
      forall i | 0 <= i < |ids| ensures ids[i] == owed[i] { assert tools[i].callId == owed[i]; }
    }
  }

  lemma HeadThenTools(text: string, calls: seq<RawCall>, tools: seq<Message>)
    requires |tools| == |NamedIds(calls)| && forall i :: 0 <= i < |tools| ==> tools[i].Tool?
    ensures Scan([], [Assistant(text, calls)] + tools) == if IdsMatch(tools, NamedIds(calls)) then Some([]) else None
  {
    AssistantOwes(text, calls);
    ScanAppend([], [Assistant(text, calls)], tools);
    MatchOrNone(NamedIds(calls), tools);
    assert NamedIds(calls)[|tools|..] == [];
  }

  lemma {:induction false} NobodyNamed(calls: seq<RawCall>)
    requires NamedIds(calls) == []
    ensures CallsHaveIds(calls)
    decreases |calls|
  {
    if calls != [] {
      NobodyNamed(Front(calls));
      CallsHaveIdsStep(calls);
    }
  }

  lemma GroupPairedExactly(turn: Turn)
    requires turn.reply.Replies? && !turn.cancelBefore && !BatchRaises(turn) && forall i: nat :: !Blank(turn.minted(i))
    ensures Scan([], [Assistant(turn.reply.text, turn.reply.calls)] + ToolRows(turn))
         == if CallsHaveIds(turn.reply.calls) then Some([]) else None
  {
    if turn.batch.Raises? {
      NobodyNamed(turn.reply.calls);
      AssistantOwes(turn.reply.text, turn.reply.calls);
      assert [Assistant(turn.reply.text, turn.reply.calls)] + [] == [Assistant(turn.reply.text, turn.reply.calls)];
    } else {
      IdsMatchExactly(turn);
      HeadThenTools(turn.reply.text, turn.reply.calls, ToolRows(turn));
    }
  }

  /** What one iteration stores is paired, broken for good, or, behind a batch that raised, still owes every answer. */
  lemma RowsOfPairedExactly(turn: Turn)
    requires forall i: nat :: !Blank(turn.minted(i))
    ensures !BatchRaises(turn) ==> Scan([], RowsOf(turn)) == if IdsGiven(turn) then Some([]) else None
    ensures BatchRaises(turn) ==> Scan([], RowsOf(turn)) == Some(NamedIds(turn.reply.calls)) && NamedIds(turn.reply.calls) != []
  {
    if !turn.cancelBefore && turn.reply.Replies? {
      var row := [Assistant(turn.reply.text, turn.reply.calls)];
      if BatchRaises(turn) {
        AssistantOwes(turn.reply.text, turn.reply.calls);
        assert row + [] + [] == row;
      } else {
        GroupPairedExactly(turn);
        UsersPaired(turn.interjections);
        var group := row + ToolRows(turn);
        ScanAppend([], group, Users(turn.interjections));
        assert group + [] == group;
      }
    }
  }

  lemma AllGivenStep(script: Script, n: nat)
    ensures AllGiven(script, n + 1) <==> AllGiven(script, n) && (GoesOn(script, n) ==> IdsGiven(script(n)))
  {
  }

  lemma NoneRaisesStep(script: Script, n: nat)
    ensures NoneRaises(script, n + 1) <==> NoneRaises(script, n) && (GoesOn(script, n) ==> !BatchRaises(script(n)))
    ensures GoesOn(script, n) ==> NoneRaises(script, n)
  {
  }

  lemma JoinScans(a: seq<Message>, b: seq<Message>, okA: bool, r: Option<seq<string>>)
    requires Scan([], a) == if okA then Some([]) else None
    requires Scan([], b) == r
    ensures Scan([], a + b) == if okA then r else None
  {
    ScanAppend([], a, b);
  }

  lemma RowsPairedNext(script: Script, n: nat)
    requires MintsIds(script) && Paired(Rows(script, n)) == (AllGiven(script, n) && NoneRaises(script, n))
    requires NoneRaises(script, n) ==> Scan([], Rows(script, n)) == if AllGiven(script, n) then Some([]) else None
    ensures Paired(Rows(script, n + 1)) == (AllGiven(script, n + 1) && NoneRaises(script, n + 1))
    ensures NoneRaises(script, n + 1) ==> Scan([], Rows(script, n + 1)) == if AllGiven(script, n + 1) then Some([]) else None
  {
    hide RowsOf, IdsGiven, AllGiven, NoneRaises, GoesOn, BatchRaises, Rows;
    RowsGrow(script, n);
    AllGivenStep(script, n);
    NoneRaisesStep(script, n);
    RowsOfPairedExactly(script(n));
    if GoesOn(script, n) {
      JoinScans(Rows(script, n), RowsOf(script(n)), AllGiven(script, n), Scan([], RowsOf(script(n))));
    } else {
      assert Rows(script, n) + [] == Rows(script, n);
    }
  }

  lemma NoRowsPaired(script: Script)
    ensures AllGiven(script, 0) && NoneRaises(script, 0) && Scan([], Rows(script, 0)) == Some([]) && Paired(Rows(script, 0))
  {
  }

  lemma {:induction false} RowsPairedExactly(script: Script, n: nat)
    requires MintsIds(script)
    ensures Paired(Rows(script, n)) == (AllGiven(script, n) && NoneRaises(script, n))
    ensures NoneRaises(script, n) ==> Scan([], Rows(script, n)) == if AllGiven(script, n) then Some([]) else None
  {
    hide *;
    if n == 0 {
      NoRowsPaired(script);
    } else {
      RowsPairedExactly(script, n - 1);
      RowsPairedNext(script, n - 1);
    }
  }

  lemma HaveIdsAppend(a: seq<Message>, b: seq<Message>)
    requires HaveIds(a) && HaveIds(b)
    ensures HaveIds(a + b)
  {
  }

  lemma RowsOfHaveIds(turn: Turn)
    requires IdsGiven(turn)
    ensures HaveIds(RowsOf(turn))
  {
    if !turn.cancelBefore && turn.reply.Replies? {
      HaveIdsAppend([Assistant(turn.reply.text, turn.reply.calls)], ToolRows(turn));
    }
  }

  lemma RowsHaveIdsNext(script: Script, n: nat)
    requires HaveIds(Rows(script, n)) && (GoesOn(script, n) ==> IdsGiven(script(n)))
    ensures HaveIds(Rows(script, n + 1))
  {
    RowsGrow(script, n);
    if GoesOn(script, n) {
      RowsOfHaveIds(script(n));
      HaveIdsAppend(Rows(script, n), RowsOf(script(n)));
    }
  }

  lemma {:induction false} RowsHaveIds(script: Script, n: nat)
    requires AllGiven(script, n)
    ensures HaveIds(Rows(script, n))
  {
    hide RowsOf, EndingOf;
    if n > 0 {
      AllGivenStep(script, n - 1);
      RowsHaveIds(script, n - 1);
      RowsHaveIdsNext(script, n - 1);
    }
  }

  /**
    The reply is stored before ids are generated for calls that came without one, and before its
    tool batch runs, so the stored conversation pairs calls with results exactly if every reply
    carried its ids and no batch raised.
  */
  lemma StoredIsPairedExactly(config: Config, input: Input, script: Script)
    requires MintsIds(script)
    ensures Paired(Outcome(config, input, script).persisted)
      <==> AllGiven(script, Budget(config)) && NoneRaises(script, Budget(config))
    ensures AllGiven(script, Budget(config)) && NoneRaises(script, Budget(config)) ==> WellPaired(Outcome(config, input, script).persisted)
  {
    hide AllGiven, NoneRaises, Iterate, Rows;
    var n := Budget(config);
    var st := After(config, input, script, n);
    LoopStores(config, input, script, n);
    RowsPairedExactly(script, n);
    UserPaired(input.user);
    ScanAppend([], [User(input.user)], Rows(script, n));
    if AllGiven(script, n) { RowsHaveIds(script, n); }
    var final := ClosingRow(config, st.ending);
    ScanAppend([], st.persisted, final);
    ClosingRowPaired(config, st.ending);
    assert st.persisted + [] == st.persisted;
    assert Outcome(config, input, script).persisted == st.persisted + final;
  }

  lemma ClosingRowPaired(config: Config, ending: Ending)
    ensures Scan([], ClosingRow(config, ending)) == Some([]) && HaveIds(ClosingRow(config, ending))
  {
    var final := ClosingRow(config, ending);
    if ending.Going? { assert Front(final) == []; }
  }

  function OneCall(call: RawCall, batch: Batch): Turn { Turn(false, [], Replies("", [call], 0), i => "toolu_1", batch, false, []) }

  lemma OneCallReached(call: RawCall, batch: Batch)
    requires call.Named()
    ensures var turn := OneCall(call, batch); turn.reply.calls[0].Named() && NamedIds(turn.reply.calls) == [call.id]
    ensures MintsIds(k => OneCall(call, batch)) && GoesOn(k => OneCall(call, batch), 0)
  {
    assert Front([call]) == [];
    assert "toolu_1"[0] == 't';
  }

  /** One reply with one call that has a name and no id, answered under a generated id. */
  lemma StoredUnpaired()
    ensures var script: Script := k => OneCall(RawCall("", "read_file", "", ""), Results(i => "ok"));
      !Paired(Outcome(Config("", 1, 0, 0, None), Input([], 0, "hi"), script).persisted)
  {
    var call, batch := RawCall("", "read_file", "", ""), Results(i => "ok");
    var script: Script := k => OneCall(call, batch);
    assert "read_file"[0] == 'r';
    OneCallReached(call, batch);
    assert !IdsGiven(script(0));
    StoredIsPairedExactly(Config("", 1, 0, 0, None), Input([], 0, "hi"), script);
  }

  /** One reply with one call, id and all, whose batch raises: the stored call has no answer, and no event closes the turn. */
  lemma StoredUnanswered(call: RawCall)
    requires call.Named()
    ensures var script: Script := k => OneCall(call, Raises);
      var st := Outcome(Config("", 1, 0, 0, None), Input([], 0, "hi"), script);
      st.ending == Raised && !Paired(st.persisted) && st.events == [TurnStart]
  {
    var script: Script := k => OneCall(call, Raises);
    var config, input := Config("", 1, 0, 0, None), Input([], 0, "hi");
    OneCallReached(call, Raises);
    assert BatchRaises(script(0));
    StoredIsPairedExactly(config, input, script);
    OneClosingEvent(config, input, script);
  }

  // ----- what is stored is what was said -----

  /** Until something is compacted away, the list is what the turn started from and then what it stored. */
  predicate Records(st: State, before: seq<Message>) { st.compactions == 0 ==> st.messages == before + st.persisted }

  lemma AskedRecords(config: Config, st: State, turn: Turn, before: seq<Message>)
    requires Records(st, before)
    ensures Records(Asked(config, st, turn), before)
  {
  }

  lemma ResolvedRecords(st: State, turn: Turn, before: seq<Message>)
    requires turn.reply.Replies? && CallsHaveIds(turn.reply.calls) && Records(st, before)
    ensures Records(Resolved(st, turn), before)
  {
    assert FilledReply(turn) == turn.reply.calls;
    hide FilledReply, ToolRows;
    var row, tools, more := [Assistant(turn.reply.text, turn.reply.calls)], ToolRows(turn), Users(turn.interjections);
    assert before + st.persisted + row == before + (st.persisted + row);
    assert before + (st.persisted + row) + tools == before + (st.persisted + row + tools);
    assert before + (st.persisted + row + tools) + more == before + (st.persisted + row + tools + more);
  }

  lemma {:induction false} LoopRecords(config: Config, input: Input, script: Script, n: nat)
    requires AllGiven(script, n)
    ensures Records(After(config, input, script, n), [System(config.prompt)] + StartHistory(config, input))
  {
    hide Iterate, AllGiven, GoesOn, IdsGiven;
    if n > 0 {
      AllGivenStep(script, n - 1);
      LoopRecords(config, input, script, n - 1);
      LoopTracks(config, input, script, n - 1);
      var st := After(config, input, script, n - 1);
      StillGoing(st, script, n - 1);
      if st.ending.Going? {
        IterateRecords(config, st, script(n - 1), [System(config.prompt)] + StartHistory(config, input));
      }
    }
  }

  lemma IterateRecords(config: Config, st: State, turn: Turn, before: seq<Message>)
    requires Records(st, before) && IdsGiven(turn)
    ensures Records(Iterate(config, st, turn), before)
  {
    AskedRecords(config, st, turn, before);
    if !turn.cancelBefore && turn.reply.Replies? { ResolvedRecords(Asked(config, st, turn), turn, before); }
  }

  /**
    If every reply carried its ids and nothing was compacted inside the turn, the list the turn
    ends with is the prompt, the history it started from, and exactly the rows it stored.
  */
  lemma StoredIsWhatWasSaid(config: Config, input: Input, script: Script)
    requires AllGiven(script, Budget(config)) && Outcome(config, input, script).compactions == 0
    ensures Outcome(config, input, script).messages ==
      [System(config.prompt)] + StartHistory(config, input) + Outcome(config, input, script).persisted
  {
    LoopRecords(config, input, script, Budget(config));
    var st, before := After(config, input, script, Budget(config)), [System(config.prompt)] + StartHistory(config, input);
    var final := ClosingRow(config, st.ending);
    assert before + st.persisted + final == before + (st.persisted + final);
  }

  // ----- row by row -----

  /** How many rows iteration `k` stores: the reply, an answer per named call, the interjections. */
  function Stores(turn: Turn): nat {
    if turn.cancelBefore || turn.reply.Fails? then 0
    else
      var named := Rank(turn.reply.calls, |turn.reply.calls|);
      if named == 0 then 1
      else if turn.batch.Raises? then 1
      else 1 + named + if turn.cancelAfter then 0 else |turn.interjections|
  }

  function StoredBefore(script: Script, k: nat): nat {
    if k == 0 then 1 else StoredBefore(script, k - 1) + Stores(script(k - 1))
  }

  /** The answer to entry `i` of a reply: under its id or the generated one, its name, and the result of its own place. */
  function AnswerTo(turn: Turn, i: nat): Message
    requires turn.reply.Replies? && turn.batch.Results? && i < |turn.reply.calls|
  {
    var call := turn.reply.calls[i];
    Tool(if Blank(call.id) then turn.minted(i) else call.id, call.Name(), turn.batch.of(Rank(turn.reply.calls, i)))
  }

  ghost predicate HoldsAnswers(rows: seq<Message>, at: nat, turn: Turn)
    requires turn.reply.Replies? && turn.batch.Results?
  {
    var calls := turn.reply.calls;
    forall i :: 0 <= i < |calls| && calls[i].Named() ==>
      Rank(calls, i) < Rank(calls, |calls|) && at + Rank(calls, i) < |rows| && rows[at + Rank(calls, i)] == AnswerTo(turn, i)
  }

  /** From place `at` on, the rows hold one iteration: its reply as it came, its answers, its interjections, in order. */
  ghost predicate HoldsTurn(rows: seq<Message>, at: nat, turn: Turn)
    requires turn.reply.Replies?
  {
    var calls := turn.reply.calls;
    var named := Rank(calls, |calls|);
    && at + Stores(turn) <= |rows| && Stores(turn) >= 1
    && rows[at] == Assistant(turn.reply.text, calls)
    && (Stores(turn) > 1 ==>
          (turn.batch.Results? && HoldsAnswers(rows, at + 1, turn)
           && forall j :: 0 <= j < Stores(turn) - 1 - named ==> rows[at + 1 + named + j] == User(turn.interjections[j])))
  }

  lemma AnswerRow(turn: Turn, i: nat)
    requires turn.reply.Replies? && turn.batch.Results? && i < |turn.reply.calls| && turn.reply.calls[i].Named()
    ensures Rank(turn.reply.calls, i) < Rank(turn.reply.calls, |turn.reply.calls|) == |ToolRows(turn)|
    ensures ToolRows(turn)[Rank(turn.reply.calls, i)] == AnswerTo(turn, i)
  {
    var calls, minted := turn.reply.calls, Take(|turn.reply.calls|, turn.minted);
    RankFilled(calls, minted, i);
    RankFilled(calls, minted, |calls|);
    NamedAt(Filled(calls, minted), i);
  }

  lemma RowsOfCount(turn: Turn)
    ensures |RowsOf(turn)| == Stores(turn)
  {
    if !turn.cancelBefore && turn.reply.Replies? {
      ToolRowsEmpty(turn);
      NamedCount(turn.reply.calls);
    }
  }

  lemma RowsOfHoldsTurn(turn: Turn)
    requires !turn.cancelBefore && turn.reply.Replies?
    ensures HoldsTurn(RowsOf(turn), 0, turn)
  {
    hide Rank, ToolRows, AnswerTo;
    RowsOfCount(turn);
    ToolRowsEmpty(turn);
    NamedCount(turn.reply.calls);
    if Stores(turn) > 1 { RowsOfHoldAnswers(turn, RowsOf(turn)); }
  }

  lemma RowsOfHoldAnswers(turn: Turn, rows: seq<Message>)
    requires turn.reply.Replies? && turn.batch.Results? && |rows| >= 1 + |ToolRows(turn)| && rows[1..1 + |ToolRows(turn)|] == ToolRows(turn)
    ensures HoldsAnswers(rows, 1, turn)
  {
    hide ToolRows, AnswerTo, Rank;
    var calls, tools := turn.reply.calls, ToolRows(turn);
    forall i | 0 <= i < |calls| && calls[i].Named()
      ensures Rank(calls, i) < Rank(calls, |calls|) && 1 + Rank(calls, i) < |rows| && rows[1 + Rank(calls, i)] == AnswerTo(turn, i)
    {
      AnswerRow(turn, i);
      assert rows[1 + Rank(calls, i)] == rows[1..1 + |tools|][Rank(calls, i)];
    }
  }

  lemma HoldsShifted(rows: seq<Message>, at: nat, part: seq<Message>, turn: Turn)
    requires turn.reply.Replies? && HoldsTurn(part, 0, turn) && |part| == Stores(turn)
    requires at + |part| <= |rows| && rows[at..at + |part|] == part
    ensures HoldsTurn(rows, at, turn)
  {
    assert forall j :: 0 <= j < |part| ==> rows[at + j] == part[j];
  }

  /** The rows of the first `n` iterations begin with those of the first `k`, and hold iteration `k` at its place. */
  lemma {:induction false} RowsHoldTurn(script: Script, n: nat, k: nat, first: seq<Message>)
    requires k < n && GoesOn(script, k) && |first| == 1
    ensures var rows := first + Rows(script, n);
      && StoredBefore(script, k) + Stores(script(k)) <= |rows|
      && rows[StoredBefore(script, k)..StoredBefore(script, k) + Stores(script(k))] == RowsOf(script(k))
    decreases n
  {
    hide RowsOf, GoesOn, Stores;
    RowsGrow(script, n - 1);
    RowsCount(script, k, first);
    RowsOfCount(script(k));
    if k < n - 1 {
      RowsHoldTurn(script, n - 1, k, first);
      assert first + Rows(script, n) == first + Rows(script, n - 1) + if GoesOn(script, n - 1) then RowsOf(script(n - 1)) else [];
    } else {
      assert first + Rows(script, n) == first + Rows(script, k) + RowsOf(script(k));
    }
  }

  lemma NoRows(script: Script)
    ensures Rows(script, 0) == []
  {
  }

  lemma {:induction false} RowsCount(script: Script, k: nat, first: seq<Message>)
    requires GoesOn(script, k) && |first| == 1
    ensures |first + Rows(script, k)| == StoredBefore(script, k)
  {
    hide RowsOf, Stores, Rows, EndingOf;
    if k == 0 {
      NoRows(script);
    } else {
      RowsGrow(script, k - 1);
      RowsCount(script, k - 1, first);
      RowsOfCount(script(k - 1));
    }
  }

  /**
    What a turn stores, row by row: behind the user message, for each iteration that is reached and
    replies, the reply as it came, then for each named call in order the result at its place among
    the named calls, then the interjections.
  */
  lemma StoredRowByRow(config: Config, input: Input, script: Script, k: nat)
    requires k < Budget(config) && GoesOn(script, k) && !script(k).cancelBefore && script(k).reply.Replies?
    ensures HoldsTurn(Outcome(config, input, script).persisted, StoredBefore(script, k), script(k))
  {
    hide RowsOf, Iterate, Stores, GoesOn, HoldsTurn, Rows;
    var n, first := Budget(config), [User(input.user)];
    var st := After(config, input, script, n);
    LoopStores(config, input, script, n);
    var rows, final, part := first + Rows(script, n), ClosingRow(config, st.ending), RowsOf(script(k));
    assert Outcome(config, input, script).persisted == rows + final;
    RowsHoldTurn(script, n, k, first);
    RowsOfHoldsTurn(script(k));
    RowsOfCount(script(k));
    var at := StoredBefore(script, k);
    assert (rows + final)[at..at + |part|] == rows[at..at + |part|];
    HoldsShifted(rows + final, at, part, script(k));
  }

  /** And that is all: the user message in front, and, if the budget ran out, one closing row at the end. */
  lemma StoredEnds(config: Config, input: Input, script: Script)
    ensures var st := Outcome(config, input, script);
      && st.persisted != [] && st.persisted[0] == User(input.user)
      && (if st.ending.Going? then
            |st.persisted| == StoredBefore(script, Budget(config)) + 1 && Last(st.persisted) == Assistant(StopText(config.maxIterations), [])
          else st.iterations > 0 && |st.persisted| == StoredBefore(script, st.iterations))
  {
    hide RowsOf, Iterate, Stores, Rows;
    var n, first := Budget(config), [User(input.user)];
    var st := After(config, input, script, n);
    LoopStores(config, input, script, n);
    LoopTracks(config, input, script, n);
    if st.ending.Going? {
      RowsCount(script, n, first);
    } else {
      RowsStop(script, st.iterations, n);
      RowsCount(script, st.iterations - 1, first);
      RowsGrow(script, st.iterations - 1);
      RowsOfCount(script(st.iterations - 1));
    }
    assert st.persisted + [] == st.persisted;
  }

  /** Behind the first iteration that does not go on, nothing is stored. */
  lemma {:induction false} RowsStop(script: Script, m: nat, n: nat)
    requires 0 < m <= n && !EndingOf(script(m - 1)).Going?
    ensures Rows(script, n) == Rows(script, m)
    decreases n
  {
    if m < n {
      RowsStop(script, m, n - 1);
      assert !GoesOn(script, n - 1);
      RowsGrow(script, n - 1);
    }
  }

  // ----- the running list, iteration by iteration -----

  /** The prompt size the model reported last before iteration `k`, zero if it reported none. */
  function ReportedBefore(script: Script, k: nat): nat {
    if k > 0 && script(k - 1).reply.Replies? then script(k - 1).reply.promptTokens else 0
  }

  /** From the fourth iteration on, the list is up for compaction once the reported prompt is past its share of the window. */
  predicate Presses(config: Config, script: Script, k: nat) {
    k >= 3 && config.window > 0 && ReportedBefore(script, k) > 0
    && ReportedBefore(script, k) > config.window * config.percent / 100
  }

  lemma ReportedLast(config: Config, input: Input, script: Script, k: nat)
    requires GoesOn(script, k)
    ensures var last := After(config, input, script, k).lastPrompt;
      last == if ReportedBefore(script, k) == 0 then None else Some(ReportedBefore(script, k))
    ensures After(config, input, script, k).ending.Going? && After(config, input, script, k).iterations == k
  {
    hide ToolRows, FilledReply, BeforeCall, StartHistory;
    LoopTracks(config, input, script, k);
    StillGoing(After(config, input, script, k), script, k);
    if k > 0 {
      LoopTracks(config, input, script, k - 1);
      StillGoing(After(config, input, script, k - 1), script, k - 1);
      assert EndingOf(script(k - 1)).Going?;
    }
  }

  /** What iteration `k` sends, its notes apart: the list, or its compaction to half the window if it presses and that is shorter. */
  function SentIn(config: Config, script: Script, k: nat, list: seq<Message>): seq<Message> {
    var compacted := Compaction.Compacted(list, config.window / 2, 4);
    if Presses(config, script, k) && |compacted| < |list| then compacted else list
  }

  /** The list grows by one reply with its ids filled in, its answers and its interjections, exactly as stored but for those ids. */
  ghost predicate GrowsBy(list: seq<Message>, sent: seq<Message>, turn: Turn)
    requires turn.reply.Replies?
  {
    var calls := turn.reply.calls;
    && |list| == |sent| + Stores(turn) && |sent| < |list| && list[..|sent|] == sent
    && list[|sent|].Assistant? && list[|sent|].text == turn.reply.text && |list[|sent|].calls| == |calls|
    && (forall i :: 0 <= i < |calls| ==>
          list[|sent|].calls[i] == if calls[i].Named() && Blank(calls[i].id) then calls[i].(id := turn.minted(i)) else calls[i])
    && HoldsTurn(list[|sent| := Assistant(turn.reply.text, calls)], |sent|, turn)
  }

  lemma ResolvedGrows(st: State, turn: Turn)
    requires turn.reply.Replies? && !turn.cancelBefore
    ensures GrowsBy(Resolved(st, turn).messages, st.messages, turn)
  {
    hide HoldsTurn, Stores, RowsOf;
    RowsOfHoldsTurn(turn);
    RowsOfCount(turn);
    ResolvedList(st, turn);
    var sent, part, filled := st.messages, RowsOf(turn), Assistant(turn.reply.text, FilledReply(turn));
    SwapHead(sent, part, filled);
    HoldsShifted(sent + part, |sent|, part, turn);
  }

  lemma ResolvedList(st: State, turn: Turn)
    requires turn.reply.Replies? && !turn.cancelBefore
    ensures RowsOf(turn) != [] && RowsOf(turn)[0] == Assistant(turn.reply.text, turn.reply.calls)
    ensures Resolved(st, turn).messages == st.messages + [Assistant(turn.reply.text, FilledReply(turn))] + RowsOf(turn)[1..]
  {
    hide FilledReply, ToolRows, Users, NamedIds, Canonical;
    ToolRowsEmpty(turn);
    var answered := st.messages + [Assistant(turn.reply.text, FilledReply(turn))];
    var head, tools := Assistant(turn.reply.text, turn.reply.calls), ToolRows(turn);
    var more := if EndingOf(turn).Going? then Users(turn.interjections) else [];
    assert RowsOf(turn) == [head] + tools + more;
    BehindHead(head, answered, tools, more);
    assert Resolved(st, turn).messages == answered + tools + more;
  }

  lemma BehindHead(head: Message, answered: seq<Message>, tools: seq<Message>, more: seq<Message>)
    ensures ([head] + tools + more)[0] == head && ([head] + tools + more)[1..] == tools + more
    ensures answered + tools + more == answered + (tools + more) && answered + [] == answered && answered + tools + [] == answered + tools
  {
  }

  lemma SwapHead(sent: seq<Message>, part: seq<Message>, head: Message)
    requires part != []
    ensures var list := sent + [head] + part[1..];
      && |list| == |sent| + |part| && list[..|sent|] == sent && list[|sent|] == head
      && list[|sent| := part[0]] == sent + part && (sent + part)[|sent|..|sent| + |part|] == part
  {
  }

  /**
    The list and what is sent of it, iteration by iteration: it starts as the prompt, the history,
    compacted if that check is on and the history is over its limit, and the user message; each
    iteration that is reached sends it, or its compaction, with the notes of that iteration behind it, and goes on
    from what was sent with the reply, its answers and the interjections.
  */
  lemma ListGrows(config: Config, input: Input, script: Script, k: nat)
    requires k < Budget(config) && GoesOn(script, k) && !script(k).cancelBefore
    ensures var before, after := After(config, input, script, k), After(config, input, script, k + 1);
      var sent := SentIn(config, script, k, before.messages);
      && |after.payloads| == k + 1 && after.payloads[..k] == before.payloads
      && |after.payloads[k]| == |sent| + |script(k).notes| && after.payloads[k][..|sent|] == sent
      && (forall j :: 0 <= j < |script(k).notes| ==> after.payloads[k][|sent| + j] == User(script(k).notes[j]))
      && (script(k).reply.Replies? ==> GrowsBy(after.messages, sent, script(k)))
      && after.compactions == before.compactions + if |sent| < |before.messages| then 1 else 0
  {
    hide GrowsBy, Resolved, RowsOf;
    var before := After(config, input, script, k);
    var turn := script(k);
    ReportedLast(config, input, script, k);
    LoopTracks(config, input, script, k);
    assert BeforeCall(config, before, k) == SentIn(config, script, k, before.messages);
    OneIterationTracks(config, before, turn);
    if turn.reply.Replies? {
      ResolvedGrows(Asked(config, before, turn), turn);
      ResolvedCounts(Asked(config, before, turn), turn);
    }
  }

  lemma ResolvedCounts(st: State, turn: Turn)
    requires turn.reply.Replies?
    ensures Resolved(st, turn).compactions == st.compactions
  {
    hide ToolRows, FilledReply;
  }

  lemma ListStarts(config: Config, input: Input, script: Script)
    ensures var list := After(config, input, script, 0).messages;
      var history := match config.preThreshold
        case Some(limit) => if input.historyTokens > limit then Compaction.Compacted(input.history, limit, 4) else input.history
        case None => input.history;
      && |list| == |history| + 2 && list[0] == System(config.prompt) && list[1..|history| + 1] == history
      && list[|history| + 1] == User(input.user)
  {
  }
}
