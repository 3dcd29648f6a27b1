/** Turning the conversation into the block form that the Anthropic messages API takes. */
module Convert {
  import opened Basics
  import opened Messages
  import opened Text

  datatype Block =
    | TextB(text: string)
    | ToolUse(id: string, name: string, input: string)
    | ToolResult(id: string, content: string)

  datatype Wire = WireUser(blocks: seq<Block>) | WireAssistant(blocks: seq<Block>)

  // ----- pulling the system prompt out -----

  /** The text of the first system message that has any. */
  function Prompt(ms: seq<Message>): string
    decreases |ms|
  {
    if ms == [] then ""
    else if Prompt(Front(ms)) == "" && Last(ms).System? then Last(ms).text
    else Prompt(Front(ms))
  }

  function Remaining(ms: seq<Message>): seq<Message>
    decreases |ms|
  {
    if ms == [] then []
    else if Prompt(Front(ms)) == "" && Last(ms).System? then Remaining(Front(ms))
    else Remaining(Front(ms)) + [Last(ms)]
  }

  method ExtractSystemPrompt(ms: seq<Message>) returns (system: string, remaining: seq<Message>)
    ensures system == Prompt(ms) && remaining == Remaining(ms)
  {
    system, remaining := "", [];
    for i := 0 to |ms|
      invariant system == Prompt(ms[..i]) && remaining == Remaining(ms[..i])
    {
      assert Front(ms[..i + 1]) == ms[..i] && Last(ms[..i + 1]) == ms[i];
      if ms[i].System? && system == "" {
        system := ms[i].text;
      } else {
        remaining := remaining + [ms[i]];
      }
    }
    assert ms[..|ms|] == ms;
  }

  /** The prompt is the text of some system message, with only empty system messages before it. */
  lemma {:induction false} PromptIsFirst(ms: seq<Message>, i: nat)
    requires i < |ms| && ms[i].System? && ms[i].text != ""
    requires forall k :: 0 <= k < i && ms[k].System? ==> ms[k].text == ""
    ensures Prompt(ms) == ms[i].text
    decreases |ms|
  {
    if i < |ms| - 1 {
      PromptIsFirst(Front(ms), i);
    } else {
      NoPrompt(Front(ms));
    }
  }

  lemma {:induction false} NoPrompt(ms: seq<Message>)
    requires forall k :: 0 <= k < |ms| && ms[k].System? ==> ms[k].text == ""
    ensures Prompt(ms) == ""
    decreases |ms|
  {
    if ms != [] { NoPrompt(Front(ms)); }
  }

  /** The messages that are not system messages, in order. */
  function NonSystem(ms: seq<Message>): seq<Message> {
    if ms == [] then [] else (if ms[0].System? then [] else [ms[0]]) + NonSystem(ms[1..])
  }

  lemma {:induction false} NonSystemAppend(a: seq<Message>, b: seq<Message>)
    ensures NonSystem(a + b) == NonSystem(a) + NonSystem(b)
    decreases |a|
  {
    if a == [] {
      assert a + b == b;
    } else {
      assert (a + b)[1..] == a[1..] + b;
      NonSystemAppend(a[1..], b);
    }
  }

  predicate Promptless(ms: seq<Message>) { forall k :: 0 <= k < |ms| && ms[k].System? ==> ms[k].text == "" }

  lemma {:induction false} RemainingWithoutPrompt(ms: seq<Message>)
    requires Promptless(ms)
    ensures Remaining(ms) == NonSystem(ms)
    decreases |ms|
  {
    if ms != [] {
      NoPrompt(Front(ms));
      RemainingWithoutPrompt(Front(ms));
      NonSystemAppend(Front(ms), [Last(ms)]);
      assert Front(ms) + [Last(ms)] == ms && [Last(ms)][1..] == [];
    }
  }

  lemma PromptAt(ms: seq<Message>, i: nat)
    requires i < |ms| && ms[i].System? && ms[i].text != "" && Promptless(ms[..i])
    ensures Prompt(ms) == ms[i].text
  {
    assert forall k :: 0 <= k < i && ms[k].System? ==> ms[..i][k].text == "";
    PromptIsFirst(ms, i);
  }

  /** Behind the message the prompt comes from everything stays, before it everything but the empty system messages. */
  lemma {:induction false} RemainingBehindPrompt(ms: seq<Message>, i: nat)
    requires i < |ms| && ms[i].System? && ms[i].text != "" && Promptless(ms[..i])
    ensures Remaining(ms) == NonSystem(ms[..i]) + ms[i + 1..]
    decreases |ms|
  {
    hide NonSystem;
    if i < |ms| - 1 {
      assert Front(ms)[..i] == ms[..i];
      RemainingBehindPrompt(Front(ms), i);
      PromptAt(Front(ms), i);
      hide Promptless, Prompt;
      assert ms[i + 1..] == Front(ms)[i + 1..] + [Last(ms)];
      assert NonSystem(ms[..i]) + Front(ms)[i + 1..] + [Last(ms)] == NonSystem(ms[..i]) + ms[i + 1..];
    } else {
      assert Front(ms) == ms[..i] && ms[i + 1..] == [];
      NoPrompt(Front(ms));
      RemainingWithoutPrompt(Front(ms));
    }
  }

  lemma {:induction false} RemainingPaired(ms: seq<Message>)
    requires Scan([], ms).Some? && HaveIds(ms)
    ensures Scan([], Remaining(ms)) == Scan([], ms) && HaveIds(Remaining(ms))
    decreases |ms|
  {
    if ms != [] {
      assert forall k :: 0 <= k < |Front(ms)| ==> Front(ms)[k] == ms[k];
      RemainingPaired(Front(ms));
      var before := Remaining(Front(ms));
      assert Front(before + [Last(ms)]) == before;
    }
  }

  // ----- the conversion -----

  /** The loop's variables: messages so far, tool results waiting to be flushed, tool-use ids emitted. */
  datatype State = State(result: seq<Wire>, pending: seq<Block>, emitted: set<string>)

  /** Generated ids, by message and position in its call list. */
  type Mint = (nat, nat) -> string

  function Flushed(st: State): State {
    if st.pending == [] then st else st.(result := st.result + [WireUser(st.pending)], pending := [])
  }

  function UseId(call: RawCall, minted: string): string { if Blank(call.id) then minted else call.id }

  function UseOf(call: RawCall, minted: string): seq<Block> {
    if call.Named() then [ToolUse(UseId(call, minted), call.Name(), call.args)] else []
  }

  /** The tool-use blocks of message number `n`. */
  function Uses(calls: seq<RawCall>, n: nat, mint: Mint): seq<Block>
    decreases |calls|
  {
    if calls == [] then [] else Uses(Front(calls), n, mint) + UseOf(Last(calls), mint(n, |calls| - 1))
  }

  function AssistantBlocks(text: string, uses: seq<Block>): (r: seq<Block>)
    ensures r != []
  {
    if text != "" then [TextB(text)] + uses else if uses == [] then [TextB("")] else uses
  }

  function IdsOfUses(blocks: seq<Block>): seq<string>
    decreases |blocks|
  {
    if blocks == [] then [] else IdsOfUses(Front(blocks)) + (if Last(blocks).ToolUse? then [Last(blocks).id] else [])
  }

  function IdsOfResults(blocks: seq<Block>): seq<string>
    decreases |blocks|
  {
    if blocks == [] then [] else IdsOfResults(Front(blocks)) + (if Last(blocks).ToolResult? then [Last(blocks).id] else [])
  }

  function UseSet(blocks: seq<Block>): set<string>
    decreases |blocks|
  {
    if blocks == [] then {} else UseSet(Front(blocks)) + (if Last(blocks).ToolUse? then {Last(blocks).id} else {})
  }

  function StepOver(before: State, m: Message, n: nat, mint: Mint): State {
    var st := if m.Tool? then before else Flushed(before);
    match m
    case User(text) => st.(result := st.result + [WireUser([TextB(text)])])
    case System(text) => st.(result := st.result + [WireUser([TextB(text)])])
    case Assistant(text, calls) =>
      var uses := Uses(calls, n, mint);
      st.(result := st.result + [WireAssistant(AssistantBlocks(text, uses))], emitted := st.emitted + UseSet(uses))
    case Tool(callId, _, text) =>
      var id := if Blank(callId) then mint(n, 0) else callId;
      if id in st.emitted then st.(pending := st.pending + [ToolResult(id, text)]) else st
  }

  function Fold(ms: seq<Message>, mint: Mint): State
    decreases |ms|
  {
    if ms == [] then State([], [], {}) else StepOver(Fold(Front(ms), mint), Last(ms), |ms| - 1, mint)
  }

  function Converted(ms: seq<Message>, mint: Mint): seq<Wire> { Flushed(Fold(ms, mint)).result }

  method ToolUses(calls: seq<RawCall>, n: nat, mint: Mint) returns (uses: seq<Block>, ids: set<string>)
    ensures uses == Uses(calls, n, mint) && ids == UseSet(uses)
  {
    uses, ids := [], {};
    for i := 0 to |calls|
      invariant uses == Uses(calls[..i], n, mint)
      invariant ids == UseSet(uses)
    {
      var call := calls[i];
      var name := if call.topName != "" then call.topName else call.fnName;
      UsesSnoc(calls, i, n, mint);
      hide Uses, UseSet;
      if !Blank(name) {
        var id := if Blank(call.id) then mint(n, i) else call.id;
        UseSetSnoc(uses, ToolUse(id, name, call.args));
        ids := ids + {id};
        uses := uses + [ToolUse(id, name, call.args)];
      }
    }
    assert calls[..|calls|] == calls;
  }

  lemma UsesSnoc(calls: seq<RawCall>, i: nat, n: nat, mint: Mint)
    requires i < |calls|
    ensures Uses(calls[..i + 1], n, mint) == Uses(calls[..i], n, mint) + UseOf(calls[i], mint(n, i))
  {
    assert Front(calls[..i + 1]) == calls[..i];
  }

  lemma UseSetSnoc(uses: seq<Block>, use: Block)
    requires use.ToolUse?
    ensures UseSet(uses + [use]) == UseSet(uses) + {use.id}
  {
    assert Front(uses + [use]) == uses;
  }

  method ConvertMessages(ms: seq<Message>, mint: Mint) returns (result: seq<Wire>)
    ensures result == Converted(ms, mint)
  {
    result := [];
    var pending: seq<Block> := [];
    var emitted: set<string> := {};
    for i := 0 to |ms|
      invariant State(result, pending, emitted) == Fold(ms[..i], mint)
    {
      assert Front(ms[..i + 1]) == ms[..i] && Last(ms[..i + 1]) == ms[i];
      var m := ms[i];
      if !m.Tool? && pending != [] {
        result := result + [WireUser(pending)];
        pending := [];
      }
      match m {
        case User(text) =>
          result := result + [WireUser([TextB(text)])];
        case Assistant(text, calls) =>
          var uses, ids := ToolUses(calls, i, mint);
          emitted := emitted + ids;
          var blocks := if text != "" then [TextB(text)] + uses else uses;
          if blocks == [] {
            blocks := [TextB("")];
          }
          result := result + [WireAssistant(blocks)];
        case Tool(callId, _, text) =>
          var id := if Blank(callId) then mint(i, 0) else callId;
          if id in emitted {
            pending := pending + [ToolResult(id, text)];
          }
        case System(text) =>
          result := result + [WireUser([TextB(text)])];
      }
    }
    assert ms[..|ms|] == ms;
    if pending != [] {
      result := result + [WireUser(pending)];
    }
  }

  // ----- what the API demands of the output -----

  function UseIds(w: Wire): seq<string> { if w.WireAssistant? then IdsOfUses(w.blocks) else [] }

  function ResultIds(w: Wire): seq<string> { if w.WireUser? then IdsOfResults(w.blocks) else [] }

  predicate OnlyResults(blocks: seq<Block>) { forall k :: 0 <= k < |blocks| ==> blocks[k].ToolResult? }

  /** Message `i` answers exactly the tool uses of the message before it, and does nothing else. */
  predicate AnswersBefore(out: seq<Wire>, i: nat)
    requires i < |out|
  {
    && ResultIds(out[i]) == (if i == 0 then [] else UseIds(out[i - 1]))
    && (ResultIds(out[i]) != [] ==> OnlyResults(out[i].blocks))
  }

  predicate Chained(out: seq<Wire>) { forall i :: 0 <= i < |out| ==> AnswersBefore(out, i) }

  /** The tool uses of the last message. */
  function OpenIds(out: seq<Wire>): seq<string> { if out == [] then [] else UseIds(Last(out)) }

  /**
    Every message with tool uses is followed at once by a message made of exactly their results,
    in order, and there are no other results.
  */
  predicate WirePaired(out: seq<Wire>) { Chained(out) && OpenIds(out) == [] }

  // ----- reading the output back -----

  function BackBlocks(blocks: seq<Block>): seq<Message>
    decreases |blocks|
  {
    if blocks == [] then []
    else BackBlocks(Front(blocks)) + match Last(blocks)
      case TextB(text) => [User(text)]
      case ToolResult(id, content) => [Tool(id, "", content)]
      case ToolUse(_, _, _) => []
  }

  function BackCalls(blocks: seq<Block>): seq<RawCall>
    decreases |blocks|
  {
    if blocks == [] then []
    else BackCalls(Front(blocks)) + match Last(blocks)
      case ToolUse(id, name, input) => [RawCall(id, name, "", input)]
      case _ => []
  }

  function BackOne(w: Wire): seq<Message> {
    match w
    case WireUser(blocks) => BackBlocks(blocks)
    case WireAssistant(blocks) => [Assistant(if blocks != [] && blocks[0].TextB? then blocks[0].text else "", BackCalls(blocks))]
  }

  function Back(out: seq<Wire>): seq<Message>
    decreases |out|
  {
    if out == [] then [] else Back(Front(out)) + BackOne(Last(out))
  }

  /** A call list as the wire carries it: named calls only, with their names at the top. */
  function NormalCalls(calls: seq<RawCall>): seq<RawCall>
    decreases |calls|
  {
    if calls == [] then []
    else NormalCalls(Front(calls)) + (if Last(calls).Named() then [RawCall(Last(calls).id, Last(calls).Name(), "", Last(calls).args)] else [])
  }

  /** A message up to what the wire form has no place for. */
  function Normal(m: Message): Message {
    match m
    case System(text) => User(text)
    case User(text) => m
    case Assistant(text, calls) => Assistant(text, NormalCalls(calls))
    case Tool(id, _, text) => Tool(id, "", text)
  }

  function NormalAll(ms: seq<Message>): (r: seq<Message>)
    ensures |r| == |ms| && forall i :: 0 <= i < |r| ==> r[i] == Normal(ms[i])
  {
    seq(|ms|, i requires 0 <= i < |ms| => Normal(ms[i]))
  }

  // ----- proofs -----

  predicate Covers(ids: set<string>, owed: seq<string>) { forall k :: 0 <= k < |owed| ==> owed[k] in ids }

  /** What the loop keeps while `owed` results are still to come and `back` has been read. */
  predicate Inv(st: State, owed: seq<string>, back: seq<Message>) {
    && Chained(st.result)
    && OpenIds(st.result) == IdsOfResults(st.pending) + owed
    && OnlyResults(st.pending)
    && Covers(st.emitted, owed)
    && Back(st.result) + BackBlocks(st.pending) == back
  }

  lemma AppendWire(out: seq<Wire>, w: Wire)
    requires Chained(out) && ResultIds(w) == OpenIds(out) && (ResultIds(w) != [] ==> OnlyResults(w.blocks))
    ensures Chained(out + [w]) && Back(out + [w]) == Back(out) + BackOne(w)
  {
    var longer := out + [w];
    assert Front(longer) == out && Last(longer) == w;
    forall i | 0 <= i < |longer| ensures AnswersBefore(longer, i) {
      if i < |out| { assert AnswersBefore(out, i); }
    }
  }

  lemma {:induction false} ResultsOnly(blocks: seq<Block>)
    requires OnlyResults(blocks)
    ensures |IdsOfResults(blocks)| == |blocks|
    decreases |blocks|
  {
    if blocks != [] { ResultsOnly(Front(blocks)); }
  }

  lemma FlushKeeps(st: State, back: seq<Message>)
    requires Inv(st, [], back)
    ensures Inv(Flushed(st), [], back) && Flushed(st).pending == [] && Flushed(st).emitted == st.emitted
  {
    if st.pending != [] {
      AppendWire(st.result, WireUser(st.pending));
    }
  }

  lemma {:induction false} UsesCarryCalls(calls: seq<RawCall>, n: nat, mint: Mint)
    requires CallsHaveIds(calls)
    ensures IdsOfUses(Uses(calls, n, mint)) == NamedIds(calls)
    ensures BackCalls(Uses(calls, n, mint)) == NormalCalls(calls)
    ensures Covers(UseSet(Uses(calls, n, mint)), NamedIds(calls))
    ensures forall k :: 0 <= k < |Uses(calls, n, mint)| ==> Uses(calls, n, mint)[k].ToolUse?
    decreases |calls|
  {
    if calls != [] {
      assert forall i :: 0 <= i < |Front(calls)| ==> Front(calls)[i] == calls[i];
      UsesCarryCalls(Front(calls), n, mint);
      var before, use := Uses(Front(calls), n, mint), UseOf(Last(calls), mint(n, |calls| - 1));
      if use != [] {
        assert Front(before + use) == before && Last(before + use) == use[0];
      } else {
        assert before + use == before;
      }
    }
  }

  lemma {:induction false} TextInFront(text: string, blocks: seq<Block>)
    ensures IdsOfUses([TextB(text)] + blocks) == IdsOfUses(blocks)
    ensures BackCalls([TextB(text)] + blocks) == BackCalls(blocks)
    decreases |blocks|
  {
    var all := [TextB(text)] + blocks;
    if blocks == [] {
      assert Front(all) == [];
    } else {
      assert Front(all) == [TextB(text)] + Front(blocks) && Last(all) == Last(blocks);
      TextInFront(text, Front(blocks));
    }
  }

  lemma AssistantCarries(text: string, calls: seq<RawCall>, n: nat, mint: Mint)
    requires CallsHaveIds(calls)
    ensures var w := WireAssistant(AssistantBlocks(text, Uses(calls, n, mint)));
      UseIds(w) == NamedIds(calls) && BackOne(w) == [Assistant(text, NormalCalls(calls))]
  {
    UsesCarryCalls(calls, n, mint);
    TextInFront(text, Uses(calls, n, mint));
    if text == "" && Uses(calls, n, mint) == [] { TextInFront("", []); }
  }

  lemma StepText(st: State, text: string, back: seq<Message>)
    requires Inv(st, [], back) && st.pending == []
    ensures Inv(st.(result := st.result + [WireUser([TextB(text)])]), [], back + [User(text)])
  {
    assert Front([TextB(text)]) == [];
    AppendWire(st.result, WireUser([TextB(text)]));
  }

  lemma AppendAssistant(st: State, w: Wire, emitted: set<string>, back: seq<Message>, m: Message)
    requires Inv(st, [], back) && st.pending == [] && w.WireAssistant? && BackOne(w) == [m] && Covers(emitted, UseIds(w))
    ensures Inv(State(st.result + [w], [], emitted), UseIds(w), back + [m])
  {
    AppendWire(st.result, w);
    assert Last(st.result + [w]) == w;
    assert IdsOfResults([]) + UseIds(w) == UseIds(w);
  }

  lemma StepAssistant(st: State, text: string, calls: seq<RawCall>, n: nat, mint: Mint, back: seq<Message>)
    requires Inv(st, [], back) && st.pending == [] && CallsHaveIds(calls)
    ensures Inv(StepOver(st, Assistant(text, calls), n, mint), NamedIds(calls), back + [Assistant(text, NormalCalls(calls))])
  {
    var w := WireAssistant(AssistantBlocks(text, Uses(calls, n, mint)));
    var emitted := st.emitted + UseSet(Uses(calls, n, mint));
    AssistantCarries(text, calls, n, mint);
    assert Covers(emitted, NamedIds(calls)) by { UsesCarryCalls(calls, n, mint); }
    AppendAssistant(st, w, emitted, back, Assistant(text, NormalCalls(calls)));
    assert StepOver(st, Assistant(text, calls), n, mint) == State(st.result + [w], [], emitted);
  }

  lemma StepTool(st: State, m: Message, n: nat, mint: Mint, owed: seq<string>, back: seq<Message>)
    requires m.Tool? && owed != [] && owed[0] == m.callId && !Blank(m.callId) && Inv(st, owed, back)
    ensures Inv(StepOver(st, m, n, mint), owed[1..], back + [Normal(m)])
  {
    var pending := st.pending + [ToolResult(m.callId, m.text)];
    assert Front(pending) == st.pending;
    assert StepOver(st, m, n, mint) == st.(pending := pending);
    assert [owed[0]] + owed[1..] == owed;
    assert BackBlocks(pending) == BackBlocks(st.pending) + [Normal(m)];
  }

  lemma StepKeeps(st: State, m: Message, n: nat, mint: Mint, owed: seq<string>, back: seq<Message>)
    requires Inv(st, owed, back) && AfterMessage(owed, m).Some?
    requires m.Assistant? ==> CallsHaveIds(m.calls)
    requires forall k :: 0 <= k < |owed| ==> !Blank(owed[k])
    ensures Inv(StepOver(st, m, n, mint), AfterMessage(owed, m).value, back + [Normal(m)])
  {
    if m.Tool? {
      StepTool(st, m, n, mint, owed, back);
    } else {
      FlushKeeps(st, back);
      var flushed := Flushed(st);
      if m.Assistant? {
        StepAssistant(flushed, m.text, m.calls, n, mint, back);
        assert StepOver(flushed, m, n, mint) == StepOver(st, m, n, mint);
      } else {
        StepText(flushed, m.text, back);
      }
    }
  }

  lemma {:induction false} NamedIdsFilled(calls: seq<RawCall>)
    requires CallsHaveIds(calls)
    ensures forall k :: 0 <= k < |NamedIds(calls)| ==> !Blank(NamedIds(calls)[k])
    decreases |calls|
  {
    if calls != [] {
      assert forall i :: 0 <= i < |Front(calls)| ==> Front(calls)[i] == calls[i];
      NamedIdsFilled(Front(calls));
    }
  }

  predicate NoneBlank(ids: seq<string>) { forall k :: 0 <= k < |ids| ==> !Blank(ids[k]) }

  lemma {:induction false} OwedFilled(ms: seq<Message>)
    requires Scan([], ms).Some? && HaveIds(ms)
    ensures NoneBlank(Scan([], ms).value)
    decreases |ms|
  {
    if ms != [] {
      assert forall i :: 0 <= i < |Front(ms)| ==> Front(ms)[i] == ms[i];
      OwedFilled(Front(ms));
      if Last(ms).Assistant? { NamedIdsFilled(Last(ms).calls); }
    }
  }

  lemma NormalSnoc(ms: seq<Message>)
    requires ms != []
    ensures NormalAll(ms) == NormalAll(Front(ms)) + [Normal(Last(ms))]
  {
  }

  lemma FoldStep(ms: seq<Message>, mint: Mint)
    requires ms != [] && Scan([], ms).Some? && HaveIds(ms)
    requires Inv(Fold(Front(ms), mint), Scan([], Front(ms)).value, NormalAll(Front(ms)))
    ensures Inv(Fold(ms, mint), Scan([], ms).value, NormalAll(ms))
  {
    FrontHasIds(ms);
    OwedFilled(Front(ms));
    NormalSnoc(ms);
    StepKeeps(Fold(Front(ms), mint), Last(ms), |ms| - 1, mint, Scan([], Front(ms)).value, NormalAll(Front(ms)));
  }

  lemma FrontHasIds(ms: seq<Message>)
    requires ms != [] && HaveIds(ms)
    ensures HaveIds(Front(ms)) && (Last(ms).Assistant? ==> CallsHaveIds(Last(ms).calls))
  {
    assert forall i :: 0 <= i < |Front(ms)| ==> Front(ms)[i] == ms[i];
  }

  lemma {:induction false} FoldKeeps(ms: seq<Message>, mint: Mint)
    requires Scan([], ms).Some? && HaveIds(ms)
    ensures Inv(Fold(ms, mint), Scan([], ms).value, NormalAll(ms))
    decreases |ms|
  {
    if ms != [] {
      FrontHasIds(ms);
      FoldKeeps(Front(ms), mint);
      FoldStep(ms, mint);
    }
  }

  /**
    A well-paired conversation converts to a well-paired one, and nothing is lost on the way:
    reading the blocks back gives every message, tool results included, in order.
  */
  lemma ConversionKeepsPairing(ms: seq<Message>, mint: Mint)
    requires WellPaired(ms)
    ensures WirePaired(Converted(ms, mint))
    ensures Back(Converted(ms, mint)) == NormalAll(ms)
  {
    FoldKeeps(ms, mint);
    FlushKeeps(Fold(ms, mint), NormalAll(ms));
  }

  /** The same for the whole list sent, once its system prompt is taken out. */
  lemma RequestIsPaired(ms: seq<Message>, mint: Mint)
    requires WellPaired(ms)
    ensures WirePaired(Converted(Remaining(ms), mint))
  {
    RemainingPaired(ms);
    ConversionKeepsPairing(Remaining(ms), mint);
  }

  /**
    A whole request, read back: the messages the prompt was not taken from, in order, all of them
    from the prompt's on, and before it all but the empty system messages.
  */
  lemma RequestReadsBack(ms: seq<Message>, i: nat, mint: Mint)
    requires WellPaired(ms) && i < |ms| && ms[i].System? && ms[i].text != "" && Promptless(ms[..i])
    ensures Prompt(ms) == ms[i].text
    ensures Back(Converted(Remaining(ms), mint)) == NormalAll(NonSystem(ms[..i]) + ms[i + 1..])
  {
    PromptAt(ms, i);
    RemainingBehindPrompt(ms, i);
    RemainingPaired(ms);
    ConversionKeepsPairing(Remaining(ms), mint);
  }

  lemma PromptlessReadsBack(ms: seq<Message>, mint: Mint)
    requires WellPaired(ms) && Promptless(ms)
    ensures Prompt(ms) == "" && Back(Converted(Remaining(ms), mint)) == NormalAll(NonSystem(ms))
  {
    NoPrompt(ms);
    RemainingWithoutPrompt(ms);
    RemainingPaired(ms);
    ConversionKeepsPairing(Remaining(ms), mint);
  }

  /** A call as the wire carries it stands at its rank among the named ones. */
  lemma {:induction false} NormalCallAt(calls: seq<RawCall>, i: nat)
    requires i < |calls| && calls[i].Named()
    ensures |NormalCalls(calls)| == Rank(calls, |calls|) && Rank(calls, i) < |NormalCalls(calls)|
    ensures NormalCalls(calls)[Rank(calls, i)] == RawCall(calls[i].id, calls[i].Name(), "", calls[i].args)
    decreases |calls|
  {
    hide Rank;
    var n := |calls| - 1;
    NormalCount(calls);
    NormalCount(Front(calls));
    RankPrefix(calls, n, n);
    RankPrefix(calls, n, i);
    RankLast(calls);
    if i < n { NormalCallAt(Front(calls), i); }
  }

  lemma {:induction false} NormalCount(calls: seq<RawCall>)
    ensures |NormalCalls(calls)| == Rank(calls, |calls|)
    decreases |calls|
  {
    if calls != [] {
      NormalCount(Front(calls));
      RankPrefix(calls, |calls| - 1, |calls| - 1);
    }
  }

  // ----- any conversation at all -----

  function AllUses(out: seq<Wire>): set<string>
    decreases |out|
  {
    if out == [] then {} else AllUses(Front(out)) + (if Last(out).WireAssistant? then UseSet(Last(out).blocks) else {})
  }

  /** Each result names a tool use of an earlier message. */
  predicate Grounded(out: seq<Wire>) { forall i :: 0 <= i < |out| ==> Covers(AllUses(out[..i]), ResultIds(out[i])) }

  predicate GroundedState(st: State) {
    && Grounded(st.result) && st.emitted == AllUses(st.result)
    && OnlyResults(st.pending) && Covers(st.emitted, IdsOfResults(st.pending))
  }

  lemma AppendGrounded(out: seq<Wire>, w: Wire)
    requires Grounded(out) && Covers(AllUses(out), ResultIds(w))
    ensures Grounded(out + [w])
    ensures AllUses(out + [w]) == AllUses(out) + (if w.WireAssistant? then UseSet(w.blocks) else {})
  {
    var longer := out + [w];
    assert Front(longer) == out;
    forall i | 0 <= i < |longer| ensures Covers(AllUses(longer[..i]), ResultIds(longer[i])) {
      assert longer[..i] == out[..i];
      assert out[..|out|] == out;
    }
  }

  lemma {:induction false} SameUses(text: string, blocks: seq<Block>)
    ensures UseSet([TextB(text)] + blocks) == UseSet(blocks)
    decreases |blocks|
  {
    var all := [TextB(text)] + blocks;
    if blocks == [] {
      assert Front(all) == [];
    } else {
      assert Front(all) == [TextB(text)] + Front(blocks) && Last(all) == Last(blocks);
      SameUses(text, Front(blocks));
    }
  }

  lemma FlushGrounded(st: State)
    requires GroundedState(st)
    ensures GroundedState(Flushed(st)) && Flushed(st).pending == []
  {
    if st.pending != [] { AppendGrounded(st.result, WireUser(st.pending)); }
  }

  lemma BlocksSameUses(text: string, uses: seq<Block>)
    ensures UseSet(AssistantBlocks(text, uses)) == UseSet(uses)
  {
    SameUses(text, uses);
    SameUses("", []);
    assert [TextB("")] + [] == [TextB("")];
  }

  lemma PlainGrounded(st: State, m: Message, n: nat, mint: Mint)
    requires GroundedState(st) && st.pending == [] && !m.Tool?
    ensures GroundedState(StepOver(st, m, n, mint))
  {
    if m.Assistant? {
      BlocksSameUses(m.text, Uses(m.calls, n, mint));
      AppendGrounded(st.result, WireAssistant(AssistantBlocks(m.text, Uses(m.calls, n, mint))));
    } else {
      assert Front([TextB(m.text)]) == [];
      AppendGrounded(st.result, WireUser([TextB(m.text)]));
    }
  }

  lemma ToolGrounded(st: State, m: Message, n: nat, mint: Mint)
    requires GroundedState(st) && m.Tool?
    ensures GroundedState(StepOver(st, m, n, mint))
  {
    var id := if Blank(m.callId) then mint(n, 0) else m.callId;
    assert Front(st.pending + [ToolResult(id, m.text)]) == st.pending;
  }

  lemma {:induction false} FoldGrounded(ms: seq<Message>, mint: Mint)
    ensures GroundedState(Fold(ms, mint))
    decreases |ms|
  {
    if ms != [] {
      var st, m, n := Fold(Front(ms), mint), Last(ms), |ms| - 1;
      FoldGrounded(Front(ms), mint);
      if m.Tool? {
        ToolGrounded(st, m, n, mint);
      } else {
        FlushGrounded(st);
        PlainGrounded(Flushed(st), m, n, mint);
        assert StepOver(Flushed(st), m, n, mint) == StepOver(st, m, n, mint);
      }
    }
  }

  /** Whatever the conversation, no result goes out whose tool use did not go out before it. */
  lemma NoOrphans(ms: seq<Message>, mint: Mint)
    ensures Grounded(Converted(ms, mint))
  {
    FoldGrounded(ms, mint);
    FlushGrounded(Fold(ms, mint));
  }

  /** A result is dropped exactly when its id is none of the tool uses sent so far. */
  lemma DroppedExactly(ms: seq<Message>, m: Message, mint: Mint)
    requires m.Tool? && !Blank(m.callId)
    ensures Fold(ms + [m], mint) == Fold(ms, mint) <==> m.callId !in AllUses(Flushed(Fold(ms, mint)).result)
  {
    FoldGrounded(ms, mint);
    FlushGrounded(Fold(ms, mint));
    assert Front(ms + [m]) == ms;
    var st := Fold(ms, mint);
    assert |(st.pending + [ToolResult(m.callId, m.text)])| != |st.pending|;
  }

  // ----- message by message, whatever the conversation -----

  /** The text if there is any, then one tool use per named call, in order; an empty text if there is neither. */
  ghost predicate SaysAssistant(blocks: seq<Block>, text: string, calls: seq<RawCall>, n: nat, mint: Mint) {
    var named, first := Rank(calls, |calls|), if text != "" then 1 else 0;
    && |blocks| == (if first + named == 0 then 1 else first + named)
    && (first + named == 0 || text != "" ==> blocks[0] == TextB(text))
    && (forall i :: 0 <= i < |calls| && calls[i].Named() ==>
          Rank(calls, i) < named
          && blocks[first + Rank(calls, i)] == ToolUse(if Blank(calls[i].id) then mint(n, i) else calls[i].id, calls[i].Name(), calls[i].args))
  }

  lemma {:induction false} UsesCount(calls: seq<RawCall>, n: nat, mint: Mint)
    ensures |Uses(calls, n, mint)| == Rank(calls, |calls|)
    decreases |calls|
  {
    hide Rank, Blank;
    if calls == [] {
      NormalCount(calls);
    } else {
      UsesCount(Front(calls), n, mint);
      RankPrefix(calls, |calls| - 1, |calls| - 1);
      RankLast(calls);
      assert |UseOf(Last(calls), mint(n, |calls| - 1))| == if Last(calls).Named() then 1 else 0;
    }
  }

  lemma {:induction false} UseAt(calls: seq<RawCall>, i: nat, n: nat, mint: Mint)
    requires i < |calls| && calls[i].Named()
    ensures |Uses(calls, n, mint)| == Rank(calls, |calls|) && Rank(calls, i) < Rank(calls, |calls|)
    ensures Uses(calls, n, mint)[Rank(calls, i)] == ToolUse(if Blank(calls[i].id) then mint(n, i) else calls[i].id, calls[i].Name(), calls[i].args)
    decreases |calls|
  {
    hide Rank;
    var m := |calls| - 1;
    UsesCount(calls, n, mint);
    UsesCount(Front(calls), n, mint);
    RankPrefix(calls, m, m);
    RankPrefix(calls, m, i);
    RankLast(calls);
    if i < m { UseAt(Front(calls), i, n, mint); }
  }

  lemma BlocksSay(text: string, calls: seq<RawCall>, n: nat, mint: Mint)
    ensures SaysAssistant(AssistantBlocks(text, Uses(calls, n, mint)), text, calls, n, mint)
  {
    hide Rank, Uses;
    UsesCount(calls, n, mint);
    forall i | 0 <= i < |calls| && calls[i].Named()
      ensures Rank(calls, i) < Rank(calls, |calls|)
      ensures Uses(calls, n, mint)[Rank(calls, i)] == ToolUse(if Blank(calls[i].id) then mint(n, i) else calls[i].id, calls[i].Name(), calls[i].args)
    {
      UseAt(calls, i, n, mint);
    }
  }

  /** The output ends in a message of tool results. */
  predicate EndsInResults(out: seq<Wire>) {
    out != [] && Last(out).WireUser? && Last(out).blocks != [] && Last(Last(out).blocks).ToolResult?
  }

  /** What has been flushed never ends in results: something else is written right behind them. */
  lemma {:induction false} FlushedIsFollowed(ms: seq<Message>, mint: Mint)
    ensures !EndsInResults(Fold(ms, mint).result) && OnlyResults(Fold(ms, mint).pending)
    decreases |ms|
  {
    if ms != [] { FlushedIsFollowed(Front(ms), mint); }
  }

  predicate UseIn(blocks: seq<Block>, id: string) { exists b :: 0 <= b < |blocks| && blocks[b].ToolUse? && blocks[b].id == id }

  lemma {:induction false} AllUsesExactly(out: seq<Wire>, id: string)
    ensures id in AllUses(out) <==> exists w :: 0 <= w < |out| && out[w].WireAssistant? && UseIn(out[w].blocks, id)
    decreases |out|
  {
    hide UseIn;
    if out != [] {
      AllUsesExactly(Front(out), id);
      if Last(out).WireAssistant? { UseSetExactly(Last(out).blocks, id); }
      var n := |out| - 1;
      assert forall w :: 0 <= w < n ==> Front(out)[w] == out[w];
      assert out[n] == Last(out);
    }
  }

  lemma {:induction false} UseSetExactly(blocks: seq<Block>, id: string)
    ensures id in UseSet(blocks) <==> UseIn(blocks, id)
    decreases |blocks|
  {
    if blocks != [] {
      UseSetExactly(Front(blocks), id);
      assert forall b :: 0 <= b < |blocks| - 1 ==> Front(blocks)[b] == blocks[b];
    }
  }

  /**
    One more message, whatever came before: a text message is one more message of that text, an
    assistant message one that says what it says; a tool result whose tool use has gone out joins
    the results at the end or begins them, and any other tool result changes nothing.
  */
  lemma OneMoreMessage(ms: seq<Message>, m: Message, mint: Mint)
    ensures var out, longer := Converted(ms, mint), Converted(ms + [m], mint);
      match m
      case User(text) => longer == out + [WireUser([TextB(text)])]
      case System(text) => longer == out + [WireUser([TextB(text)])]
      case Assistant(text, calls) =>
        |longer| == |out| + 1 && Front(longer) == out && Last(longer).WireAssistant?
        && SaysAssistant(Last(longer).blocks, text, calls, |ms|, mint)
      case Tool(callId, _, text) =>
        var id := if Blank(callId) then mint(|ms|, 0) else callId;
        longer == if id !in AllUses(out) then out
                  else if EndsInResults(out) then Front(out) + [WireUser(Last(out).blocks + [ToolResult(id, text)])]
                  else out + [WireUser([ToolResult(id, text)])]
  {
    hide SaysAssistant, AllUses, Uses, UseSet;
    var st := Fold(ms, mint);
    assert Front(ms + [m]) == ms && Last(ms + [m]) == m;
    FlushedIsFollowed(ms, mint);
    FoldGrounded(ms, mint);
    FlushGrounded(st);
    match m
    case Assistant(text, calls) => BlocksSay(text, calls, |ms|, mint);
    case Tool(callId, _, text) =>
      var id := if Blank(callId) then mint(|ms|, 0) else callId;
      assert Flushed(st).emitted == st.emitted;
      var r := ToolResult(id, text);
      if st.pending != [] {
        var out := st.result + [WireUser(st.pending)];
        assert Front(out) == st.result && Last(out) == WireUser(st.pending) && Last(st.pending).ToolResult?;
      } else {
        assert st.pending + [r] == [r];
      }
    case _ =>
  }
}
