/**
  From provider stream events to one assistant message: the adapter that turns events into
  chunks, and the assembler that merges chunk deltas into text and tool calls.
*/
module Assembly {
  import opened Basics
  import opened Text

  datatype Event =
    | MessageStart(inputTokens: nat)
    | ToolStart(index: nat, id: string, name: string)
    | ThinkingStart
    | TextDelta(text: string)
    | JsonDelta(index: nat, piece: string)
    | MessageDelta(stopReason: Option<string>, outputTokens: nat)
    | Ignored   // every other event, block start or delta

  datatype ToolDelta = ToolDelta(index: nat, id: Option<string>, name: string, args: string)
  datatype Usage = Usage(prompt: nat, completion: nat, total: nat, thinking: nat)
  datatype Chunk = Chunk(delta: string, deltas: seq<ToolDelta>, usage: Option<Usage>, finish: string)

  datatype Slot = Slot(id: string, name: string, args: string)
  datatype Response = Response(text: string, calls: seq<Slot>, finish: string, usage: Option<Usage>)

  const EMPTY_SLOT := Slot("", "", "")
  const EMPTY_CHUNK := Chunk("", [], None, "")

  function FinishReason(stop: Option<string>): string {
    match stop
    case Some("tool_use") => "tool_calls"
    case Some("max_tokens") => "length"
    case _ => "stop"
  }

  // ----- the adapter -----

  /** The prompt size announced last. */
  function InputTokens(events: seq<Event>): nat
    decreases |events|
  {
    if events == [] then 0
    else if Last(events).MessageStart? then Last(events).inputTokens
    else InputTokens(Front(events))
  }

  function ThinkingCount(events: seq<Event>): nat
    decreases |events|
  {
    if events == [] then 0 else ThinkingCount(Front(events)) + (if Last(events).ThinkingStart? then 1 else 0)
  }

  /** The id the latest tool block at `index` announced, if any did. */
  function BlockId(events: seq<Event>, index: nat): string
    decreases |events|
  {
    if events == [] then ""
    else if Last(events).ToolStart? && Last(events).index == index then Last(events).id
    else BlockId(Front(events), index)
  }

  /** What the adapter yields for `e` once it has seen `before`. */
  function Emit(before: seq<Event>, e: Event): seq<Chunk> {
    match e
    case MessageStart(_) => []
    case ToolStart(i, id, name) => [EMPTY_CHUNK.(deltas := [ToolDelta(i, Some(id), name, "")])]
    case ThinkingStart => [EMPTY_CHUNK]
    case TextDelta(text) => [EMPTY_CHUNK.(delta := text)]
    case JsonDelta(i, piece) => [EMPTY_CHUNK.(deltas := [ToolDelta(i, Some(BlockId(before, i)), "", piece)])]
    case MessageDelta(stop, out) =>
      var input := InputTokens(before);
      [EMPTY_CHUNK.(finish := FinishReason(stop), usage := Some(Usage(input, out, input + out, ThinkingCount(before))))]
    case Ignored => []
  }

  function Chunks(events: seq<Event>): seq<Chunk>
    decreases |events|
  {
    if events == [] then [] else Chunks(Front(events)) + Emit(Front(events), Last(events))
  }

  method StreamToChunks(events: seq<Event>) returns (chunks: seq<Chunk>)
    ensures chunks == Chunks(events)
  {
    chunks := [];
    var inputTokens := 0;
    var blocks: map<nat, string> := map[];
    var thinking := 0;
    for n := 0 to |events|
      invariant chunks == Chunks(events[..n])
      invariant inputTokens == InputTokens(events[..n]) && thinking == ThinkingCount(events[..n])
      invariant forall i: nat :: BlockId(events[..n], i) == if i in blocks then blocks[i] else ""
    {
      var e := events[n];
      assert Front(events[..n + 1]) == events[..n] && Last(events[..n + 1]) == e;
      match e {
        case MessageStart(tokens) => inputTokens := tokens;
        case ToolStart(i, id, name) =>
          blocks := blocks[i := id];
          chunks := chunks + [EMPTY_CHUNK.(deltas := [ToolDelta(i, Some(id), name, "")])];
        case ThinkingStart =>
          thinking := thinking + 1;
          chunks := chunks + [EMPTY_CHUNK];
        case TextDelta(text) => chunks := chunks + [EMPTY_CHUNK.(delta := text)];
        case JsonDelta(i, piece) =>
          var id := if i in blocks then blocks[i] else "";
          chunks := chunks + [EMPTY_CHUNK.(deltas := [ToolDelta(i, Some(id), "", piece)])];
        case MessageDelta(stop, out) =>
          var usage := Usage(inputTokens, out, inputTokens + out, thinking);
          chunks := chunks + [EMPTY_CHUNK.(finish := FinishReason(stop), usage := Some(usage))];
        case Ignored =>
      }
    }
    assert events[..|events|] == events;
  }

  // ----- the accumulator -----

  function Padded(slots: seq<Slot>, index: nat): (r: seq<Slot>)
    ensures |r| > index && slots <= r
    ensures forall j :: |slots| <= j < |r| ==> r[j] == EMPTY_SLOT
    ensures |r| == if |slots| > index then |slots| else index + 1
    decreases if |slots| <= index then index + 1 - |slots| else 0
  {
    if |slots| <= index then Padded(slots + [EMPTY_SLOT], index) else slots
  }

  function Edited(s: Slot, d: ToolDelta): Slot {
    Slot(if d.id.Some? && d.id.value != "" then d.id.value else s.id, s.name + d.name, s.args + d.args)
  }

  function Merged(slots: seq<Slot>, d: ToolDelta): seq<Slot> {
    var p := Padded(slots, d.index);
    p[d.index := Edited(p[d.index], d)]
  }

  /** The list of partial calls both assemblers grow and edit in place. */
  class Accumulator {
    var slots: seq<Slot>

    constructor ()
      ensures slots == []
    { slots := []; }

    method Pad(index: nat)
      modifies this
      ensures slots == Padded(old(slots), index)
    {
      while |slots| <= index
        invariant Padded(slots, index) == Padded(old(slots), index)
      {
        slots := slots + [EMPTY_SLOT];
      }
    }

    /** The agent core's merge. */
    method Merge(d: ToolDelta)
      modifies this
      ensures slots == Merged(old(slots), d)
    {
      Pad(d.index);
      var target := slots[d.index];
      var id := match d.id case Some(i) => i case None => "";
      if id != "" { target := target.(id := id); }
      if d.name != "" { target := target.(name := target.name + d.name); } else { assert target.name + d.name == target.name; }
      target := target.(args := target.args + d.args);
      slots := slots[d.index := target];
    }

    /** The client's merge, which first asks whether the delta has an id at all. */
    method MergeInClient(d: ToolDelta)
      modifies this
      ensures slots == Merged(old(slots), d)
    {
      Pad(d.index);
      if d.id.Some? && d.id.value != "" { slots := slots[d.index := slots[d.index].(id := d.id.value)]; }
      if d.name != "" { slots := slots[d.index := slots[d.index].(name := slots[d.index].name + d.name)]; }
      else { assert slots[d.index].name + d.name == slots[d.index].name; }
      slots := slots[d.index := slots[d.index].(args := slots[d.index].args + d.args)];
    }

    method MergeAll(deltas: seq<ToolDelta>, ghost done: seq<ToolDelta>)
      requires slots == Slots(done)
      modifies this
      ensures slots == Slots(done + deltas)
    {
      hide Slots, Merged;
      assert done + deltas[..0] == done;
      for k := 0 to |deltas|
        invariant slots == Slots(done + deltas[..k])
      {
        SlotsSnoc(done + deltas[..k], deltas[k]);
        assert done + deltas[..k] + [deltas[k]] == done + deltas[..k + 1];
        Merge(deltas[k]);
      }
      assert deltas[..|deltas|] == deltas;
    }

    method MergeInClientAll(deltas: seq<ToolDelta>, ghost done: seq<ToolDelta>)
      requires slots == Slots(done)
      modifies this
      ensures slots == Slots(done + deltas)
    {
      hide Slots, Merged;
      assert done + deltas[..0] == done;
      for k := 0 to |deltas|
        invariant slots == Slots(done + deltas[..k])
      {
        SlotsSnoc(done + deltas[..k], deltas[k]);
        assert done + deltas[..k] + [deltas[k]] == done + deltas[..k + 1];
        MergeInClient(deltas[k]);
      }
      assert deltas[..|deltas|] == deltas;
    }
  }

  function Slots(deltas: seq<ToolDelta>): seq<Slot>
    decreases |deltas|
  {
    if deltas == [] then [] else Merged(Slots(Front(deltas)), Last(deltas))
  }

  lemma SlotsSnoc(deltas: seq<ToolDelta>, d: ToolDelta)
    ensures Slots(deltas + [d]) == Merged(Slots(deltas), d)
  {
    assert Front(deltas + [d]) == deltas;
  }

  function Deltas(chunks: seq<Chunk>): seq<ToolDelta>
    decreases |chunks|
  {
    if chunks == [] then [] else Deltas(Front(chunks)) + Last(chunks).deltas
  }

  function ChunkText(chunks: seq<Chunk>): string
    decreases |chunks|
  {
    if chunks == [] then "" else ChunkText(Front(chunks)) + Last(chunks).delta
  }

  function ChunkFinish(chunks: seq<Chunk>): string
    decreases |chunks|
  {
    if chunks == [] then "stop" else if Last(chunks).finish != "" then Last(chunks).finish else ChunkFinish(Front(chunks))
  }

  function ChunkUsage(chunks: seq<Chunk>): Option<Usage>
    decreases |chunks|
  {
    if chunks == [] then None else if Last(chunks).usage.Some? then Last(chunks).usage else ChunkUsage(Front(chunks))
  }

  /** A padding slot nothing was ever merged into, or one with arguments only. */
  predicate Ghost(s: Slot) { Blank(s.id) && Blank(s.name) }

  function Solid(slots: seq<Slot>): seq<Slot>
    decreases |slots|
  {
    if slots == [] then [] else Solid(Front(slots)) + (if Ghost(Last(slots)) then [] else [Last(slots)])
  }

  function Assembled(chunks: seq<Chunk>): Response {
    Response(ChunkText(chunks), Solid(Slots(Deltas(chunks))), ChunkFinish(chunks), ChunkUsage(chunks))
  }

  method KeepSolid(slots: seq<Slot>) returns (calls: seq<Slot>)
    ensures calls == Solid(slots)
  {
    calls := [];
    for i := 0 to |slots|
      invariant calls == Solid(slots[..i])
    {
      assert Front(slots[..i + 1]) == slots[..i];
      if !Blank(slots[i].id) || !Blank(slots[i].name) { calls := calls + [slots[i]]; }
    }
    assert slots[..|slots|] == slots;
  }

  /** The agent core's assembler. */
  method AssembleChunks(chunks: seq<Chunk>) returns (r: Response)
    ensures r == Assembled(chunks)
  {
    var text, finish, usage := "", "stop", None;
    var acc := new Accumulator();
    for n := 0 to |chunks|
      invariant text == ChunkText(chunks[..n]) && finish == ChunkFinish(chunks[..n]) && usage == ChunkUsage(chunks[..n])
      invariant acc.slots == Slots(Deltas(chunks[..n]))
    {
      var c := chunks[n];
      assert Front(chunks[..n + 1]) == chunks[..n];
      text := text + c.delta;
      if c.usage.Some? { usage := c.usage; }
      if c.finish != "" { finish := c.finish; }
      acc.MergeAll(c.deltas, Deltas(chunks[..n]));
    }
    assert chunks[..|chunks|] == chunks;
    var calls := KeepSolid(acc.slots);
    r := Response(text, calls, finish, usage);
  }

  /** The client's assembler: the same response. */
  method AssembleInClient(chunks: seq<Chunk>) returns (r: Response)
    ensures r == Assembled(chunks)
  {
    var parts: seq<string>, finish, usage := [], "stop", None;
    ghost var text := "";
    var acc := new Accumulator();
    for n := 0 to |chunks|
      invariant Joined(parts) == ChunkText(chunks[..n]) && finish == ChunkFinish(chunks[..n]) && usage == ChunkUsage(chunks[..n])
      invariant acc.slots == Slots(Deltas(chunks[..n]))
    {
      var c := chunks[n];
      assert Front(chunks[..n + 1]) == chunks[..n];
      if c.delta != "" {
        assert Front(parts + [c.delta]) == parts;
        parts := parts + [c.delta];
      }
      if c.usage.Some? { usage := c.usage; }
      if c.finish != "" { finish := c.finish; }
      acc.MergeInClientAll(c.deltas, Deltas(chunks[..n]));
    }
    assert chunks[..|chunks|] == chunks;
    var calls := KeepSolid(acc.slots);
    r := Response(Joined(parts), calls, finish, usage);
  }

  function Joined(parts: seq<string>): string
    decreases |parts|
  {
    if parts == [] then "" else Joined(Front(parts)) + Last(parts)
  }

  // ----- what the events say, index by index -----

  function TextOf(events: seq<Event>): string {
    if events == [] then "" else (if events[0].TextDelta? then events[0].text else "") + TextOf(events[1..])
  }

  predicate StartsAt(e: Event, index: nat) { e.ToolStart? && e.index == index }
  predicate JsonAt(e: Event, index: nat) { e.JsonDelta? && e.index == index }

  function NameOf(events: seq<Event>, index: nat): string {
    if events == [] then "" else (if StartsAt(events[0], index) then events[0].name else "") + NameOf(events[1..], index)
  }

  function ArgsOf(events: seq<Event>, index: nat): string {
    if events == [] then "" else (if JsonAt(events[0], index) then events[0].piece else "") + ArgsOf(events[1..], index)
  }

  /** The last non-empty id a tool block at `index` announced. */
  function IdOf(events: seq<Event>, index: nat): string {
    if events == [] then ""
    else if IdOf(events[1..], index) != "" then IdOf(events[1..], index)
    else if StartsAt(events[0], index) then events[0].id
    else ""
  }

  function CallAt(events: seq<Event>, index: nat): Slot { Slot(IdOf(events, index), NameOf(events, index), ArgsOf(events, index)) }

  /** One past the largest index any tool event names. */
  function Width(events: seq<Event>): nat {
    if events == [] then 0
    else
      var rest := Width(events[1..]);
      if (events[0].ToolStart? || events[0].JsonDelta?) && events[0].index >= rest then events[0].index + 1 else rest
  }

  /** The real calls among the first `n` indexes, in index order. */
  function CallsOf(events: seq<Event>, n: nat): seq<Slot> {
    if n == 0 then [] else CallsOf(events, n - 1) + (if Ghost(CallAt(events, n - 1)) then [] else [CallAt(events, n - 1)])
  }

  lemma {:induction false} TextAppend(a: seq<Event>, b: seq<Event>)
    ensures TextOf(a + b) == TextOf(a) + TextOf(b)
    decreases |a|
  {
    if a == [] {
      assert a + b == b;
    } else {
      assert (a + b)[1..] == a[1..] + b;
      TextAppend(a[1..], b);
    }
  }

  lemma {:induction false} NameAppend(a: seq<Event>, b: seq<Event>, i: nat)
    ensures NameOf(a + b, i) == NameOf(a, i) + NameOf(b, i)
    decreases |a|
  {
    if a == [] {
      assert a + b == b;
    } else {
      assert (a + b)[1..] == a[1..] + b;
      NameAppend(a[1..], b, i);
    }
  }

  lemma {:induction false} ArgsAppend(a: seq<Event>, b: seq<Event>, i: nat)
    ensures ArgsOf(a + b, i) == ArgsOf(a, i) + ArgsOf(b, i)
    decreases |a|
  {
    if a == [] {
      assert a + b == b;
    } else {
      assert (a + b)[1..] == a[1..] + b;
      ArgsAppend(a[1..], b, i);
    }
  }

  lemma {:induction false} IdAppend(a: seq<Event>, b: seq<Event>, i: nat)
    ensures IdOf(a + b, i) == if IdOf(b, i) != "" then IdOf(b, i) else IdOf(a, i)
    decreases |a|
  {
    if a == [] {
      assert a + b == b;
    } else {
      assert (a + b)[1..] == a[1..] + b;
      IdAppend(a[1..], b, i);
    }
  }

  lemma ProjectAppend(a: seq<Event>, b: seq<Event>, i: nat)
    ensures TextOf(a + b) == TextOf(a) + TextOf(b)
    ensures NameOf(a + b, i) == NameOf(a, i) + NameOf(b, i)
    ensures ArgsOf(a + b, i) == ArgsOf(a, i) + ArgsOf(b, i)
    ensures IdOf(a + b, i) == if IdOf(b, i) != "" then IdOf(b, i) else IdOf(a, i)
  {
    hide TextOf, NameOf, ArgsOf, IdOf;
    TextAppend(a, b);
    NameAppend(a, b, i);
    ArgsAppend(a, b, i);
    IdAppend(a, b, i);
  }

  lemma {:induction false} WidthAppend(a: seq<Event>, b: seq<Event>)
    ensures Width(a + b) == if Width(a) >= Width(b) then Width(a) else Width(b)
    decreases |a|
  {
    if a == [] {
      assert a + b == b;
    } else {
      assert (a + b)[1..] == a[1..] + b;
      WidthAppend(a[1..], b);
    }
  }

  lemma {:induction false} BeyondWidth(events: seq<Event>, i: nat)
    requires i >= Width(events)
    ensures CallAt(events, i) == EMPTY_SLOT
  {
    if events != [] { BeyondWidth(events[1..], i); }
  }

  /** A block id the adapter remembers is one the accumulator already has. */
  lemma {:induction false} BlockIdKnown(events: seq<Event>, i: nat)
    ensures BlockId(events, i) != "" ==> BlockId(events, i) == IdOf(events, i)
    decreases |events|
  {
    if events != [] {
      BlockIdKnown(Front(events), i);
      assert events == Front(events) + [Last(events)];
      ProjectAppend(Front(events), [Last(events)], i);
    }
  }

  /** The deltas `e` adds to the stream. */
  function NewDeltas(before: seq<Event>, e: Event): seq<ToolDelta> {
    match e
    case ToolStart(i, id, name) => [ToolDelta(i, Some(id), name, "")]
    case JsonDelta(i, piece) => [ToolDelta(i, Some(BlockId(before, i)), "", piece)]
    case _ => []
  }

  lemma OneMoreEvent(before: seq<Event>, e: Event)
    ensures Deltas(Chunks(before + [e])) == Deltas(Chunks(before)) + NewDeltas(before, e)
    ensures ChunkText(Chunks(before + [e])) == ChunkText(Chunks(before)) + TextOf([e])
  {
    assert Front(before + [e]) == before;
    var cs, emitted := Chunks(before), Emit(before, e);
    assert Chunks(before + [e]) == cs + emitted;
    assert TextOf([e][1..]) == "";
    if emitted == [] {
      assert cs + emitted == cs;
    } else {
      assert Front(cs + emitted) == cs && Last(cs + emitted) == emitted[0];
    }
  }

  /** Adding `e` edits the call at its index the way merging its delta edits the slot. */
  lemma EventEdits(before: seq<Event>, e: Event, i: nat)
    ensures var add := NewDeltas(before, e);
            CallAt(before + [e], i) == if add != [] && add[0].index == i then Edited(CallAt(before, i), add[0]) else CallAt(before, i)
  {
    ProjectAppend(before, [e], i);
    BlockIdKnown(before, i);
    Singles(e, i);
    hide TextOf, NameOf, ArgsOf, IdOf, BlockId;
  }

  lemma WidthOne(e: Event)
    ensures Width([e]) == if e.ToolStart? || e.JsonDelta? then e.index + 1 else 0
  {
    assert [e][1..] == [];
  }

  predicate TouchesIndex(e: Event) { e.ToolStart? || e.JsonDelta? }

  ghost predicate SlotsMatch(events: seq<Event>, slots: seq<Slot>) {
    |slots| == Width(events) && forall i :: 0 <= i < |slots| ==> slots[i] == CallAt(events, i)
  }

  lemma WidthGrows(before: seq<Event>, e: Event)
    ensures Width(before + [e]) == if TouchesIndex(e) && e.index >= Width(before) then e.index + 1 else Width(before)
  {
    WidthAppend(before, [e]);
    WidthOne(e);
  }

  lemma MergedMatches(before: seq<Event>, e: Event, slots: seq<Slot>)
    requires SlotsMatch(before, slots) && TouchesIndex(e)
    ensures SlotsMatch(before + [e], Merged(slots, NewDeltas(before, e)[0]))
  {
    WidthGrows(before, e);
    var d := NewDeltas(before, e)[0];
    var merged := Merged(slots, d);
    forall i: nat | i < |merged| ensures merged[i] == CallAt(before + [e], i) {
      EventEdits(before, e, i);
      if i >= Width(before) { BeyondWidth(before, i); }
    }
  }

  lemma OtherMatches(before: seq<Event>, e: Event, slots: seq<Slot>)
    requires SlotsMatch(before, slots) && !TouchesIndex(e)
    ensures SlotsMatch(before + [e], slots)
  {
    WidthGrows(before, e);
    forall i: nat | i < |slots| ensures slots[i] == CallAt(before + [e], i) { EventEdits(before, e, i); }
  }

  lemma SlotsStep(before: seq<Event>, e: Event)
    requires SlotsMatch(before, Slots(Deltas(Chunks(before))))
    ensures SlotsMatch(before + [e], Slots(Deltas(Chunks(before + [e]))))
  {
    OneMoreEvent(before, e);
    var had, add := Deltas(Chunks(before)), NewDeltas(before, e);
    if TouchesIndex(e) {
      MergedMatches(before, e, Slots(had));
      assert Front(had + add) == had && Last(had + add) == add[0];
    } else {
      OtherMatches(before, e, Slots(had));
      assert had + add == had;
    }
  }

  lemma NoSlots()
    ensures SlotsMatch([], Slots(Deltas(Chunks([]))))
  {
    assert Deltas(Chunks([])) == [];
  }

  /** The accumulator holds, at every index, exactly what the events say about it. */
  lemma {:induction false} SlotsAreCalls(events: seq<Event>)
    ensures SlotsMatch(events, Slots(Deltas(Chunks(events))))
    decreases |events|
  {
    hide SlotsMatch, Slots, Deltas, Chunks;
    if events == [] {
      NoSlots();
    } else {
      SlotsAreCalls(Front(events));
      SlotsStep(Front(events), Last(events));
      assert Front(events) + [Last(events)] == events;
    }
  }

  lemma {:induction false} TextCollected(events: seq<Event>)
    ensures ChunkText(Chunks(events)) == TextOf(events)
    decreases |events|
  {
    if events != [] {
      var before, e := Front(events), Last(events);
      TextCollected(before);
      OneMoreEvent(before, e);
      TextAppend(before, [e]);
      assert before + [e] == events;
    }
  }

  lemma {:induction false} SolidIsCalls(events: seq<Event>, slots: seq<Slot>)
    requires forall i :: 0 <= i < |slots| ==> slots[i] == CallAt(events, i)
    ensures Solid(slots) == CallsOf(events, |slots|)
    decreases |slots|
  {
    if slots != [] { SolidIsCalls(events, Front(slots)); }
  }

  /**
    For every event stream: the text is all text deltas in order, and the calls are, in index
    order, one per index that announced an id or a name, with its JSON pieces concatenated.
  */
  lemma AssembledFromEvents(events: seq<Event>)
    ensures Assembled(Chunks(events)).text == TextOf(events)
    ensures Assembled(Chunks(events)).calls == CallsOf(events, Width(events))
  {
    SlotsAreCalls(events);
    TextCollected(events);
    SolidIsCalls(events, Slots(Deltas(Chunks(events))));
  }

  // ----- why the stream ended and what it cost -----

  /** `n` is the last of the events that satisfy `p`. */
  ghost predicate IsLast(events: seq<Event>, p: Event -> bool, n: nat) {
    n < |events| && p(events[n]) && forall m :: n < m < |events| ==> !p(events[m])
  }

  /** `at` lists, in order, exactly the events that satisfy `p`. */
  ghost predicate Lists(events: seq<Event>, p: Event -> bool, at: seq<nat>) {
    && (forall k :: 0 <= k < |at| ==> at[k] < |events| && p(events[at[k]]))
    && (forall j, k :: 0 <= j < k < |at| ==> at[j] < at[k])
    && forall n: nat :: n < |events| && p(events[n]) ==> n in at
  }

  lemma ListsSnoc(events: seq<Event>, p: Event -> bool, at: seq<nat>)
    requires events != [] && Lists(Front(events), p, at)
    ensures Lists(events, p, at + (if p(Last(events)) then [|events| - 1] else []))
  {
    var more := at + (if p(Last(events)) then [|events| - 1] else []);
    forall n: nat | n < |events| && p(events[n]) ensures n in more {
      if n < |events| - 1 {
        assert Front(events)[n] == events[n];
      } else {
        assert more[|at|] == n;
      }
    }
  }

  function Starts(): Event -> bool { (e: Event) => e.MessageStart? }
  function Stops(): Event -> bool { (e: Event) => e.MessageDelta? }
  function Thinks(): Event -> bool { (e: Event) => e.ThinkingStart? }

  lemma {:induction false} InputExactly(events: seq<Event>)
    ensures (forall n :: 0 <= n < |events| ==> !events[n].MessageStart?) ==> InputTokens(events) == 0
    ensures forall n: nat :: IsLast(events, Starts(), n) ==> InputTokens(events) == events[n].inputTokens
    decreases |events|
  {
    if events != [] && !Last(events).MessageStart? {
      InputExactly(Front(events));
      forall n: nat | IsLast(events, Starts(), n) ensures InputTokens(events) == events[n].inputTokens {
        assert IsLast(Front(events), Starts(), n);
      }
    }
  }

  lemma {:induction false} ThinkingExactly(events: seq<Event>) returns (at: seq<nat>)
    ensures Lists(events, Thinks(), at) && ThinkingCount(events) == |at|
    decreases |events|
  {
    at := [];
    if events != [] {
      at := ThinkingExactly(Front(events));
      ListsSnoc(events, Thinks(), at);
      if Last(events).ThinkingStart? { at := at + [|events| - 1]; }
    }
  }

  lemma OneMoreEnd(before: seq<Event>, e: Event)
    ensures var cs, cs' := Chunks(before), Chunks(before + [e]);
            if e.MessageDelta? then
              var input := InputTokens(before);
              && ChunkFinish(cs') == FinishReason(e.stopReason)
              && ChunkUsage(cs') == Some(Usage(input, e.outputTokens, input + e.outputTokens, ThinkingCount(before)))
            else ChunkFinish(cs') == ChunkFinish(cs) && ChunkUsage(cs') == ChunkUsage(cs)
  {
    hide InputTokens, ThinkingCount, BlockId;
    assert Front(before + [e]) == before;
    var cs, emitted := Chunks(before), Emit(before, e);
    assert Chunks(before + [e]) == cs + emitted;
    if emitted == [] {
      assert cs + emitted == cs;
    } else {
      assert Front(cs + emitted) == cs && Last(cs + emitted) == emitted[0];
    }
  }

  lemma {:induction false} NoEnd(events: seq<Event>)
    requires forall n :: 0 <= n < |events| ==> !events[n].MessageDelta?
    ensures ChunkFinish(Chunks(events)) == "stop" && ChunkUsage(Chunks(events)) == None
    decreases |events|
  {
    if events != [] {
      NoEnd(Front(events));
      OneMoreEnd(Front(events), Last(events));
      assert Front(events) + [Last(events)] == events;
    }
  }

  lemma {:induction false} LastEnd(events: seq<Event>, n: nat)
    requires IsLast(events, Stops(), n)
    ensures var input := InputTokens(events[..n]); var e := events[n];
            && ChunkFinish(Chunks(events)) == FinishReason(e.stopReason)
            && ChunkUsage(Chunks(events)) == Some(Usage(input, e.outputTokens, input + e.outputTokens, ThinkingCount(events[..n])))
    decreases |events|
  {
    hide InputTokens, ThinkingCount, ChunkFinish, ChunkUsage, Chunks, FinishReason;
    var before := Front(events);
    OneMoreEnd(before, Last(events));
    assert before + [Last(events)] == events;
    if n == |events| - 1 {
      assert before == events[..n];
    } else {
      assert IsLast(before, Stops(), n);
      LastEnd(before, n);
      assert before[..n] == events[..n];
    }
  }

  /** No final event: the response has no usage, and counts as stopped by itself. */
  lemma UnendedResponse(events: seq<Event>)
    requires forall n :: 0 <= n < |events| ==> !events[n].MessageDelta?
    ensures Assembled(Chunks(events)).finish == "stop" && Assembled(Chunks(events)).usage == None
  {
    NoEnd(events);
  }

  /**
    The last final event decides. Its stop reason is passed on under the name the agent knows; the
    completion tokens are its own, the prompt tokens those of the last start before it, the total
    their sum, and the thinking blocks those opened before it.
  */
  lemma EndedResponse(events: seq<Event>, n: nat) returns (thinking: seq<nat>)
    requires IsLast(events, Stops(), n)
    ensures Lists(events[..n], Thinks(), thinking)
    ensures var r := Assembled(Chunks(events)); var stop := events[n].stopReason;
            && (r.finish == "tool_calls" <==> stop == Some("tool_use"))
            && (r.finish == "length" <==> stop == Some("max_tokens"))
            && (r.finish == "stop" <==> stop != Some("tool_use") && stop != Some("max_tokens"))
            && r.usage.Some? && var u := r.usage.value;
               && u.completion == events[n].outputTokens && u.total == u.prompt + u.completion && u.thinking == |thinking|
               && (forall m: nat :: IsLast(events[..n], Starts(), m) ==> u.prompt == events[m].inputTokens)
               && ((forall m :: 0 <= m < n ==> !events[m].MessageStart?) ==> u.prompt == 0)
  {
    LastEnd(events, n);
    hide Chunks, ChunkFinish, ChunkUsage, InputTokens, ThinkingCount;
    thinking := ThinkingExactly(events[..n]);
    InputExactly(events[..n]);
    Reasons(events[n].stopReason);
  }

  lemma Reasons(stop: Option<string>)
    ensures FinishReason(stop) == if stop == Some("tool_use") then "tool_calls" else if stop == Some("max_tokens") then "length" else "stop"
  {
    assert "tool_calls" != "length" && "tool_calls" != "stop" && "length" != "stop";
  }

  // ----- what the adapter yields -----

  function Yields(): Event -> bool { (e: Event) => !e.MessageStart? && !e.Ignored? }

  /** What a chunk passes on of event `n`. */
  ghost predicate PassesOn(events: seq<Event>, n: nat, c: Chunk)
    requires n < |events|
  {
    match events[n]
    case TextDelta(text) => c.delta == text && c.deltas == [] && c.usage == None && c.finish == ""
    case ThinkingStart => c.delta == "" && c.deltas == [] && c.usage == None && c.finish == ""
    case ToolStart(i, id, name) => c.delta == "" && c.deltas == [ToolDelta(i, Some(id), name, "")] && c.usage == None && c.finish == ""
    case JsonDelta(i, piece) =>
      && c.delta == "" && c.usage == None && c.finish == ""
      && |c.deltas| == 1 && c.deltas[0].index == i && c.deltas[0].name == "" && c.deltas[0].args == piece && c.deltas[0].id.Some?
      && (forall m: nat :: IsLast(events[..n], OpensAt(i), m) ==> c.deltas[0].id.value == events[m].id)
      && ((forall m :: 0 <= m < n ==> !StartsAt(events[m], i)) ==> c.deltas[0].id.value == "")
    case MessageDelta(_, _) => c.delta == "" && c.deltas == [] && c.usage.Some? && c.finish != ""
    case _ => false
  }

  function OpensAt(i: nat): Event -> bool { (e: Event) => StartsAt(e, i) }

  lemma {:induction false} BlockIdExactly(events: seq<Event>, i: nat)
    ensures (forall n :: 0 <= n < |events| ==> !StartsAt(events[n], i)) ==> BlockId(events, i) == ""
    ensures forall n: nat :: IsLast(events, OpensAt(i), n) ==> BlockId(events, i) == events[n].id
    decreases |events|
  {
    if events != [] && !StartsAt(Last(events), i) {
      BlockIdExactly(Front(events), i);
      forall n: nat | IsLast(events, OpensAt(i), n) ensures BlockId(events, i) == events[n].id {
        assert IsLast(Front(events), OpensAt(i), n);
      }
    }
  }

  /** One chunk for each event that carries something, in order, with what that event carries. */
  lemma {:induction false} ChunksExactly(events: seq<Event>) returns (at: seq<nat>)
    ensures Lists(events, Yields(), at) && |Chunks(events)| == |at|
    ensures forall k :: 0 <= k < |at| ==> PassesOn(events, at[k], Chunks(events)[k])
    decreases |events|
  {
    hide BlockId, InputTokens, ThinkingCount;
    at := [];
    if events != [] {
      var before := Front(events);
      var seen := ChunksExactly(before);
      ListsSnoc(events, Yields(), seen);
      at := seen + if Yields()(Last(events)) then [|events| - 1] else [];
      forall k | 0 <= k < |at| ensures PassesOn(events, at[k], Chunks(events)[k]) {
        if k < |seen| {
          assert before[..at[k]] == events[..at[k]];
        } else {
          assert events[..|events| - 1] == before;
          EmitPassesOn(events);
        }
      }
    }
  }

  lemma EmitPassesOn(events: seq<Event>)
    requires events != [] && Yields()(Last(events))
    ensures |Emit(Front(events), Last(events))| == 1 && PassesOn(events, |events| - 1, Emit(Front(events), Last(events))[0])
  {
    hide InputTokens, ThinkingCount;
    if Last(events).JsonDelta? {
      BlockIdExactly(Front(events), Last(events).index);
    }
  }

  lemma {:induction false} CallsBeyondWidth(events: seq<Event>, n: nat)
    requires n >= Width(events)
    ensures CallsOf(events, n) == CallsOf(events, Width(events))
    decreases n
  {
    hide Width, CallAt;
    if n > Width(events) {
      BeyondWidth(events, n - 1);
      CallsBeyondWidth(events, n - 1);
    }
  }

  lemma {:induction false} SameCalls(a: seq<Event>, b: seq<Event>, n: nat)
    requires forall i: nat :: i < n ==> CallAt(a, i) == CallAt(b, i)
    ensures CallsOf(a, n) == CallsOf(b, n)
  {
    if n > 0 { SameCalls(a, b, n - 1); }
  }

  /** The message depends on nothing but the text and what each index says. */
  lemma OnlyProjectionsMatter(a: seq<Event>, b: seq<Event>)
    requires TextOf(a) == TextOf(b) && forall i: nat :: CallAt(a, i) == CallAt(b, i)
    ensures Assembled(Chunks(a)).text == Assembled(Chunks(b)).text && Assembled(Chunks(a)).calls == Assembled(Chunks(b)).calls
  {
    AssembledFromEvents(a);
    AssembledFromEvents(b);
    var n := if Width(a) >= Width(b) then Width(a) else Width(b);
    CallsBeyondWidth(a, n);
    CallsBeyondWidth(b, n);
    SameCalls(a, b, n);
  }

  /** Neighbouring events that do not concern the same index, nor both carry text, may swap. */
  lemma SwapChangesNothing(a: seq<Event>, x: Event, y: Event, b: seq<Event>)
    requires !(x.TextDelta? && y.TextDelta?)
    requires TouchesIndex(x) && TouchesIndex(y) ==> x.index != y.index
    ensures var one, two := Assembled(Chunks(a + [x, y] + b)), Assembled(Chunks(a + [y, x] + b));
            one.text == two.text && one.calls == two.calls
  {
    forall i: nat ensures CallAt(a + [x, y] + b, i) == CallAt(a + [y, x] + b, i) { SwapAt(a, x, y, b, i); }
    SwapAt(a, x, y, b, 0);
    hide CallAt, TextOf, Chunks, Assembled, TouchesIndex;
    OnlyProjectionsMatter(a + [x, y] + b, a + [y, x] + b);
  }

  lemma SwapAt(a: seq<Event>, x: Event, y: Event, b: seq<Event>, i: nat)
    requires !(x.TextDelta? && y.TextDelta?)
    requires TouchesIndex(x) && TouchesIndex(y) ==> x.index != y.index
    ensures CallAt(a + [x, y] + b, i) == CallAt(a + [y, x] + b, i)
    ensures TextOf(a + [x, y] + b) == TextOf(a + [y, x] + b)
  {
    PairInside(a, x, y, b, i);
    PairInside(a, y, x, b, i);
    SinglesCommute(x, y, i);
    hide TextOf, NameOf, ArgsOf, IdOf, TouchesIndex;
  }

  lemma SinglesCommute(x: Event, y: Event, i: nat)
    requires !(x.TextDelta? && y.TextDelta?)
    requires TouchesIndex(x) && TouchesIndex(y) ==> x.index != y.index
    ensures TextOf([x]) + TextOf([y]) == TextOf([y]) + TextOf([x])
    ensures NameOf([x], i) + NameOf([y], i) == NameOf([y], i) + NameOf([x], i)
    ensures ArgsOf([x], i) + ArgsOf([y], i) == ArgsOf([y], i) + ArgsOf([x], i)
    ensures IdOf([x], i) == "" || IdOf([y], i) == ""
  {
    Singles(x, i);
    Singles(y, i);
    hide TextOf, NameOf, ArgsOf, IdOf;
    assert forall s: string :: "" + s == s && s + "" == s;
  }

  lemma PairInside(a: seq<Event>, x: Event, y: Event, b: seq<Event>, i: nat)
    ensures var e := a + [x, y] + b;
            && TextOf(e) == TextOf(a) + (TextOf([x]) + TextOf([y])) + TextOf(b)
            && NameOf(e, i) == NameOf(a, i) + (NameOf([x], i) + NameOf([y], i)) + NameOf(b, i)
            && ArgsOf(e, i) == ArgsOf(a, i) + (ArgsOf([x], i) + ArgsOf([y], i)) + ArgsOf(b, i)
            && IdOf(e, i) == if IdOf(b, i) != "" then IdOf(b, i) else if IdOf([y], i) != "" then IdOf([y], i)
                             else if IdOf([x], i) != "" then IdOf([x], i) else IdOf(a, i)
  {
    hide TextOf, NameOf, ArgsOf, IdOf;
    assert [x, y] == [x] + [y];
    ProjectAppend([x], [y], i);
    ProjectAppend(a, [x, y], i);
    ProjectAppend(a + [x, y], b, i);
  }

  lemma Singles(e: Event, i: nat)
    ensures TextOf([e]) == if e.TextDelta? then e.text else ""
    ensures NameOf([e], i) == if StartsAt(e, i) then e.name else ""
    ensures ArgsOf([e], i) == if JsonAt(e, i) then e.piece else ""
    ensures IdOf([e], i) == if StartsAt(e, i) then e.id else ""
  {
    assert [e][1..] == [];
  }

  /** Splitting a JSON piece or a text delta in two changes nothing. */
  lemma ResplitChangesNothing(a: seq<Event>, whole: Event, x: Event, y: Event, b: seq<Event>)
    requires (exists i: nat, p, q :: whole == JsonDelta(i, p + q) && x == JsonDelta(i, p) && y == JsonDelta(i, q))
          || (exists p, q :: whole == TextDelta(p + q) && x == TextDelta(p) && y == TextDelta(q))
    ensures var one, two := Assembled(Chunks(a + [whole] + b)), Assembled(Chunks(a + [x, y] + b));
            one.text == two.text && one.calls == two.calls
  {
    forall i: nat ensures TextOf(a + [whole] + b) == TextOf(a + [x, y] + b) && CallAt(a + [whole] + b, i) == CallAt(a + [x, y] + b, i) {
      PairInside(a, x, y, b, i);
      ProjectAppend(a, [whole], i);
      ProjectAppend(a + [whole], b, i);
      Singles(whole, i);
      Singles(x, i);
      Singles(y, i);
      assert TextOf([whole]) == TextOf([x]) + TextOf([y]) && NameOf([x], i) + NameOf([y], i) == NameOf([whole], i);
      assert ArgsOf([whole], i) == ArgsOf([x], i) + ArgsOf([y], i);
    }
    assert TextOf(a + [whole] + b) == TextOf(a + [x, y] + b) by { assert CallAt(a + [whole] + b, 0) == CallAt(a + [x, y] + b, 0); }
    OnlyProjectionsMatter(a + [whole] + b, a + [x, y] + b);
  }

  // ----- well-behaved streams -----

  /** Every tool block has a name and an index of its own. */
  ghost predicate NamedBlocks(events: seq<Event>) {
    && (forall n :: 0 <= n < |events| && events[n].ToolStart? ==> !Blank(events[n].name))
    && (forall m, n :: 0 <= m < n < |events| && events[m].ToolStart? && events[n].ToolStart? ==> events[m].index != events[n].index)
  }

  lemma {:induction false} NoStartNoCall(events: seq<Event>, i: nat)
    requires forall n :: 0 <= n < |events| ==> !StartsAt(events[n], i)
    ensures IdOf(events, i) == "" && NameOf(events, i) == ""
  {
    if events != [] {
      assert !StartsAt(events[0], i);
      forall n | 0 <= n < |events[1..]| ensures !StartsAt(events[1..][n], i) { assert events[1..][n] == events[n + 1]; }
      NoStartNoCall(events[1..], i);
    }
  }

  lemma {:induction false} OneStart(events: seq<Event>, n: nat)
    requires n < |events| && events[n].ToolStart?
    requires forall m :: 0 <= m < |events| && m != n ==> !StartsAt(events[m], events[n].index)
    ensures IdOf(events, events[n].index) == events[n].id && NameOf(events, events[n].index) == events[n].name
  {
    var i := events[n].index;
    var a, b := events[..n], events[n + 1..];
    assert events == a + [events[n]] + b;
    forall m | 0 <= m < |a| ensures !StartsAt(a[m], i) {}
    forall m | 0 <= m < |b| ensures !StartsAt(b[m], i) { assert b[m] == events[n + 1 + m]; }
    NoStartNoCall(a, i);
    NoStartNoCall(b, i);
    ProjectAppend(a, [events[n]], i);
    ProjectAppend(a + [events[n]], b, i);
    assert [events[n]][1..] == [];
  }

  /** On such a stream a call comes out exactly for each tool block, under its own id and name. */
  lemma OneCallPerBlock(events: seq<Event>, i: nat)
    requires NamedBlocks(events)
    ensures !Ghost(CallAt(events, i)) <==> exists n :: 0 <= n < |events| && StartsAt(events[n], i)
    ensures forall n :: 0 <= n < |events| && StartsAt(events[n], i) ==>
              CallAt(events, i) == Slot(events[n].id, events[n].name, ArgsOf(events, i))
  {
    if n :| 0 <= n < |events| && StartsAt(events[n], i) {
      OneStart(events, n);
    } else {
      NoStartNoCall(events, i);
    }
  }
}
