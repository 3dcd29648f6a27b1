/** Shortening a conversation: old turns become one summary, system messages and recent turns stay. */
module Compaction {
  import opened Basics
  import opened Messages
  import opened Text

  // ----- estimating tokens -----

  predicate IsCjk(c: char) {
    var n := c as int;
    0x4E00 <= n <= 0x9FFF || 0x3400 <= n <= 0x4DBF || 0xF900 <= n <= 0xFAFF
  }

  function CountCjk(text: string): (n: nat)
    ensures n <= |text|
    decreases |text|
  {
    if text == "" then 0 else CountCjk(Front(text)) + if IsCjk(Last(text)) then 1 else 0
  }

  function EstimateTokens(text: string): nat {
    var cjk := CountCjk(text);
    (|text| - cjk) / 4 + cjk + cjk / 2
  }

  function Tokens(ms: seq<Message>): nat
    decreases |ms|
  {
    if ms == [] then 0 else Tokens(Front(ms)) + EstimateTokens(Last(ms).text)
  }

  // ----- system messages and turns -----

  /** The system messages of `ms`, or all the others, in order. */
  function Pick(ms: seq<Message>, system: bool): seq<Message>
    decreases |ms|
  {
    if ms == [] then [] else Pick(Front(ms), system) + (if Last(ms).System? == system then [Last(ms)] else [])
  }

  predicate All(ms: seq<Message>, system: bool) { forall i :: 0 <= i < |ms| ==> ms[i].System? == system }

  lemma {:induction false} PickAppend(a: seq<Message>, b: seq<Message>, system: bool)
    ensures Pick(a + b, system) == Pick(a, system) + Pick(b, system)
    decreases |b|
  {
    if b == [] {
      assert a + b == a;
    } else {
      assert Front(a + b) == a + Front(b) && Last(a + b) == Last(b);
      PickAppend(a, Front(b), system);
    }
  }

  lemma {:induction false} PickAll(ms: seq<Message>, system: bool)
    requires All(ms, system)
    ensures Pick(ms, system) == ms
    decreases |ms|
  {
    if ms != [] {
      assert All(Front(ms), system) by { assert forall i :: 0 <= i < |Front(ms)| ==> Front(ms)[i] == ms[i]; }
      PickAll(Front(ms), system);
      assert Front(ms) + [Last(ms)] == ms;
    }
  }

  lemma PickNone(ms: seq<Message>, system: bool)
    requires All(ms, system)
    ensures Pick(ms, !system) == []
  {
    PickAll(ms, system);
    PickShape(ms, system);
  }

  lemma {:induction false} PickShape(ms: seq<Message>, system: bool)
    ensures All(Pick(ms, system), system)
    ensures |Pick(ms, system)| + |Pick(ms, !system)| == |ms|
    decreases |ms|
  {
    if ms != [] { PickShape(Front(ms), system); }
  }

  // ----- turn boundaries -----

  /** Where the user messages are. */
  function Starts(turns: seq<Message>): seq<nat>
    decreases |turns|
  {
    if turns == [] then [] else Starts(Front(turns)) + (if Last(turns).User? then [|turns| - 1] else [])
  }

  lemma {:induction false} StartsExact(turns: seq<Message>)
    ensures forall k :: 0 <= k < |Starts(turns)| ==> Starts(turns)[k] < |turns| && turns[Starts(turns)[k]].User?
    ensures forall j, k :: 0 <= j < k < |Starts(turns)| ==> Starts(turns)[j] < Starts(turns)[k]
    decreases |turns|
  {
    if turns != [] { StartsExact(Front(turns)); }
  }

  lemma {:induction false} StartOf(turns: seq<Message>, i: nat) returns (k: nat)
    requires i < |turns| && turns[i].User?
    ensures k < |Starts(turns)| && Starts(turns)[k] == i
    decreases |turns|
  {
    if i < |turns| - 1 {
      k := StartOf(Front(turns), i);
    } else {
      k := |Starts(turns)| - 1;
    }
  }

  /** One half-open range per user message, up to the next one or the end. */
  function Boundaries(turns: seq<Message>): (r: seq<(nat, nat)>)
    ensures |r| == |Starts(turns)|
    ensures forall k :: 0 <= k < |r| ==> r[k].0 == Starts(turns)[k] && r[k].0 < r[k].1 <= |turns|
  {
    StartsExact(turns);
    var starts := Starts(turns);
    seq(|starts|, k requires 0 <= k < |starts| => (starts[k], if k + 1 < |starts| then starts[k + 1] else |turns|))
  }

  /** No user message strictly between `lo` and `hi`. */
  predicate Userless(turns: seq<Message>, lo: int, hi: int)
    requires -1 <= lo && hi <= |turns|
  {
    forall i :: lo < i < hi ==> !turns[i].User?
  }

  /** The ranges tile the list from its first user message to its end, and each holds exactly one, in front. */
  predicate Tiles(turns: seq<Message>, b: seq<(nat, nat)>) {
    && (forall k :: 0 <= k < |b| ==> b[k].0 < b[k].1 <= |turns| && turns[b[k].0].User? && Userless(turns, b[k].0, b[k].1))
    && (forall j, k :: 0 <= j && k == j + 1 < |b| ==> b[j].1 == b[k].0)
    && (if b == [] then Userless(turns, -1, |turns|) else b[|b| - 1].1 == |turns| && Userless(turns, -1, b[0].0))
  }

  lemma Gap(turns: seq<Message>, lo: int, hi: int)
    requires -1 <= lo && hi <= |turns|
    requires forall k :: 0 <= k < |Starts(turns)| ==> !(lo < Starts(turns)[k] < hi)
    ensures Userless(turns, lo, hi)
  {
    forall i | lo < i < hi ensures !turns[i].User? {
      if turns[i].User? { var k := StartOf(turns, i); }
    }
  }

  lemma RangeHoldsOne(turns: seq<Message>, k: nat)
    requires k < |Starts(turns)|
    ensures turns[Boundaries(turns)[k].0].User? && Userless(turns, Boundaries(turns)[k].0, Boundaries(turns)[k].1)
  {
    var lo, hi := Boundaries(turns)[k].0, Boundaries(turns)[k].1;
    StartsExact(turns);
    forall j | 0 <= j < |Starts(turns)| ensures !(lo < Starts(turns)[j] < hi) { NotBetween(turns, k, j); }
    Gap(turns, lo, hi);
  }

  lemma NotBetween(turns: seq<Message>, k: nat, j: nat)
    requires k < |Starts(turns)| && j < |Starts(turns)|
    ensures !(Boundaries(turns)[k].0 < Starts(turns)[j] < Boundaries(turns)[k].1)
  {
    StartsExact(turns);
    var starts := Starts(turns);
    assert j < k ==> starts[j] < starts[k];
    assert j > k + 1 ==> starts[k + 1] < starts[j];
  }

  lemma RangesMeet(turns: seq<Message>)
    ensures var b := Boundaries(turns);
      && (forall j, k :: 0 <= j && k == j + 1 < |b| ==> b[j].1 == b[k].0)
      && (if b == [] then Userless(turns, -1, |turns|) else b[|b| - 1].1 == |turns| && Userless(turns, -1, b[0].0))
  {
    StartsExact(turns);
    Gap(turns, -1, if Starts(turns) == [] then |turns| else Starts(turns)[0]);
  }

  lemma BoundariesTile(turns: seq<Message>)
    ensures Tiles(turns, Boundaries(turns))
  {
    var b := Boundaries(turns);
    forall k | 0 <= k < |b| ensures turns[b[k].0].User? && Userless(turns, b[k].0, b[k].1) { RangeHoldsOne(turns, k); }
    RangesMeet(turns);
  }

  lemma EndNotBefore(turns: seq<Message>, b: seq<(nat, nat)>, c: seq<(nat, nat)>, k: nat)
    requires Tiles(turns, b) && Tiles(turns, c) && k < |b| && k < |c| && b[k].0 == c[k].0
    ensures b[k].1 >= c[k].1
  {
    if k < |b| - 1 {
      assert turns[b[k + 1].0].User?;
    }
  }

  lemma {:induction false} SameRange(turns: seq<Message>, b: seq<(nat, nat)>, c: seq<(nat, nat)>, k: nat)
    requires Tiles(turns, b) && Tiles(turns, c) && k < |b| && k < |c|
    ensures b[k] == c[k]
  {
    if k == 0 {
      assert turns[b[0].0].User? && turns[c[0].0].User?;
    } else {
      SameRange(turns, b, c, k - 1);
      assert b[k - 1].1 == b[k].0 && c[k - 1].1 == c[k].0;
    }
    EndNotBefore(turns, b, c, k);
    EndNotBefore(turns, c, b, k);
  }

  lemma NotLonger(turns: seq<Message>, b: seq<(nat, nat)>, c: seq<(nat, nat)>)
    requires Tiles(turns, b) && Tiles(turns, c)
    ensures |b| <= |c|
  {
    if b != [] {
      assert turns[b[0].0].User?;
    }
    forall j | 0 <= j < |b| - 1 ensures b[j].1 < |turns| {
      assert b[j].1 == b[j + 1].0;
    }
    if 0 < |c| <= |b| {
      SameRange(turns, b, c, |c| - 1);
    }
  }

  /** There is only one way to tile a list. */
  lemma TilingUnique(turns: seq<Message>, b: seq<(nat, nat)>, c: seq<(nat, nat)>)
    requires Tiles(turns, b) && Tiles(turns, c)
    ensures b == c
  {
    NotLonger(turns, b, c);
    NotLonger(turns, c, b);
    forall k | 0 <= k < |b| ensures b[k] == c[k] { SameRange(turns, b, c, k); }
  }

  method FindTurnBoundaries(turns: seq<Message>) returns (boundaries: seq<(nat, nat)>)
    ensures boundaries == Boundaries(turns)
    ensures Tiles(turns, boundaries)
  {
    hide Tiles, Userless;
    boundaries := [];
    var start := -1;
    for i := 0 to |turns|
      invariant var starts := Starts(turns[..i]);
                && |boundaries| == (if start == -1 then 0 else |starts| - 1)
                && (start == -1 <==> starts == [])
                && (start != -1 ==> start == starts[|starts| - 1])
                && forall k :: 0 <= k < |boundaries| ==> boundaries[k] == (starts[k], starts[k + 1])
    {
      assert Front(turns[..i + 1]) == turns[..i] && Last(turns[..i + 1]) == turns[i];
      if turns[i].User? {
        if start != -1 {
          boundaries := boundaries + [(start, i)];
        }
        start := i;
      }
    }
    assert turns[..|turns|] == turns;
    if start != -1 {
      boundaries := boundaries + [(start, |turns|)];
    }
    BoundariesTile(turns);
  }

  // ----- summarising -----

  /** `shown` is `text`, or its first `n` characters and an ellipsis if it has more than that. */
  predicate Abridges(text: string, n: nat, shown: string) {
    if |text| <= n then shown == text
    else |shown| == n + 3 && shown[..n] == text[..n] && shown[n..] == "..."
  }

  function Cut(text: string, n: nat): (shown: string)
    ensures Abridges(text, n, shown)
  {
    if |text| > n then text[..n] + "..." else text
  }

  /** The user text of a group: the last one, shortened. */
  function UserText(group: seq<Message>): string
    decreases |group|
  {
    if group == [] then "" else if Last(group).User? then Cut(Last(group).text, 200) else UserText(Front(group))
  }

  function AssistantParts(group: seq<Message>): seq<string>
    decreases |group|
  {
    if group == [] then []
    else AssistantParts(Front(group)) + (if Last(group).Assistant? && Last(group).text != "" then [Cut(Last(group).text, 150)] else [])
  }

  function ToolCount(group: seq<Message>): nat
    decreases |group|
  {
    if group == [] then 0 else ToolCount(Front(group)) + if Last(group).Tool? then 1 else 0
  }

  function Join(parts: seq<string>, sep: string): string
    decreases |parts|
  {
    if parts == [] then "" else if |parts| == 1 then parts[0] else Join(Front(parts), sep) + sep + Last(parts)
  }

  function SummaryLine(user: string, parts: seq<string>, tools: nat): string {
    "User: " + user
    + (if parts != [] then " \U{2192} Assistant: " + Join(if |parts| > 2 then parts[..2] else parts, "; ") else "")
    + (if tools != 0 then " [" + Decimal(tools) + " tool call(s)]" else "")
  }

  function GroupLine(group: seq<Message>): string {
    SummaryLine(UserText(group), AssistantParts(group), ToolCount(group))
  }

  function Lines(groups: seq<seq<Message>>): (r: seq<string>)
    ensures |r| == |groups|
    decreases |groups|
  {
    if groups == [] then [] else Lines(Front(groups)) + [GroupLine(Last(groups))]
  }

  function Summary(groups: seq<seq<Message>>): string { Join(Lines(groups), "\n") }

  method SummariseGroup(group: seq<Message>) returns (line: string)
    ensures line == GroupLine(group)
  {
    var user, tools, parts := "", 0, [];
    for i := 0 to |group|
      invariant user == UserText(group[..i])
      invariant parts == AssistantParts(group[..i])
      invariant tools == ToolCount(group[..i])
    {
      assert Front(group[..i + 1]) == group[..i] && Last(group[..i + 1]) == group[i];
      var msg := group[i];
      if msg.User? {
        user := Cut(msg.text, 200);
      } else if msg.Assistant? {
        if msg.text != "" {
          parts := parts + [Cut(msg.text, 150)];
        }
      } else if msg.Tool? {
        tools := tools + 1;
      }
    }
    assert group[..|group|] == group;
    line := SummaryLine(user, parts, tools);
  }

  method SummariseOldTurns(groups: seq<seq<Message>>) returns (summary: string)
    ensures summary == Summary(groups)
  {
    var parts := [];
    for i := 0 to |groups|
      invariant parts == Lines(groups[..i])
    {
      assert Front(groups[..i + 1]) == groups[..i] && Last(groups[..i + 1]) == groups[i];
      var line := SummariseGroup(groups[i]);
      parts := parts + [line];
    }
    assert groups[..|groups|] == groups;
    summary := Join(parts, "\n");
  }

  lemma {:induction false} SummaryNonEmpty(groups: seq<seq<Message>>)
    requires groups != []
    ensures Summary(groups) != ""
  {
    assert GroupLine(Last(groups))[0] == 'U';
  }

  // ----- compacting -----

  const SUMMARY_HEADER := "[Conversation summary (compacted)]\n"

  /** How many of `n` turns are old. */
  function OldCount(n: nat, keepRecent: int): (k: nat)
    ensures k <= n
  {
    if keepRecent >= n then 0 else if keepRecent <= 0 then n else n - keepRecent
  }

  function Slices(turns: seq<Message>, ranges: seq<(nat, nat)>): (r: seq<seq<Message>>)
    requires forall k :: 0 <= k < |ranges| ==> ranges[k].0 < ranges[k].1 <= |turns|
    ensures |r| == |ranges|
  {
    seq(|ranges|, k requires 0 <= k < |ranges| => turns[ranges[k].0..ranges[k].1])
  }

  function Groups(turns: seq<Message>, n: nat): (r: seq<seq<Message>>)
    requires n <= |Starts(turns)|
    ensures |r| == n
  {
    Slices(turns, Boundaries(turns)[..n])
  }

  function Recent(turns: seq<Message>, cut: nat): (r: seq<Message>)
    requires cut <= |Starts(turns)|
    ensures |r| <= |turns|
  {
    if cut < |Starts(turns)| then turns[Boundaries(turns)[cut].0..] else []
  }

  function SummaryMessage(groups: seq<seq<Message>>): Message { User(SUMMARY_HEADER + Summary(groups)) }

  /** There is something to shorten, and it is worth it. */
  predicate Compacts(ms: seq<Message>, maxTokens: int, keepRecent: int) {
    var turns := Pick(ms, false);
    Tokens(turns) > maxTokens && turns != [] && OldCount(|Starts(turns)|, keepRecent) > 0
  }

  function Shortened(system: seq<Message>, turns: seq<Message>, keepRecent: int): seq<Message> {
    var cut := OldCount(|Starts(turns)|, keepRecent);
    if cut == 0 then system + turns else system + [SummaryMessage(Groups(turns, cut))] + Recent(turns, cut)
  }

  function Compacted(ms: seq<Message>, maxTokens: int, keepRecent: int): seq<Message> {
    var system, turns := Pick(ms, true), Pick(ms, false);
    if turns == [] then system
    else if Tokens(turns) <= maxTokens then ms
    else Shortened(system, turns, keepRecent)
  }

  method Separate(ms: seq<Message>) returns (system: seq<Message>, turns: seq<Message>)
    ensures system == Pick(ms, true) && turns == Pick(ms, false)
  {
    system, turns := [], [];
    for i := 0 to |ms|
      invariant system == Pick(ms[..i], true) && turns == Pick(ms[..i], false)
    {
      assert Front(ms[..i + 1]) == ms[..i] && Last(ms[..i + 1]) == ms[i];
      if ms[i].System? {
        system := system + [ms[i]];
      } else {
        turns := turns + [ms[i]];
      }
    }
    assert ms[..|ms|] == ms;
  }

  method CutGroups(turns: seq<Message>, ranges: seq<(nat, nat)>) returns (groups: seq<seq<Message>>)
    requires forall k :: 0 <= k < |ranges| ==> ranges[k].0 < ranges[k].1 <= |turns|
    ensures groups == Slices(turns, ranges)
  {
    groups := [];
    for k := 0 to |ranges|
      invariant |groups| == k && forall j :: 0 <= j < k ==> groups[j] == turns[ranges[j].0..ranges[j].1]
    {
      groups := groups + [turns[ranges[k].0..ranges[k].1]];
    }
  }

  method Split(turns: seq<Message>, keepRecent: int) returns (groups: seq<seq<Message>>, recent: seq<Message>)
    ensures groups == Groups(turns, OldCount(|Starts(turns)|, keepRecent))
    ensures recent == Recent(turns, OldCount(|Starts(turns)|, keepRecent))
  {
    hide Tiles, Starts, Slices;
    var boundaries := FindTurnBoundaries(turns);
    var recentStart := if |boundaries| - keepRecent > 0 then |boundaries| - keepRecent else 0;
    var earlier := if recentStart < |boundaries| then boundaries[..recentStart] else boundaries;
    assert earlier == boundaries[..OldCount(|boundaries|, keepRecent)];
    recent := if recentStart < |boundaries| then turns[boundaries[recentStart].0..] else [];
    groups := CutGroups(turns, earlier);
  }

  method WithSummary(system: seq<Message>, groups: seq<seq<Message>>, recent: seq<Message>) returns (result: seq<Message>)
    requires groups != []
    ensures result == system + [SummaryMessage(groups)] + recent
  {
    var summary := SummariseOldTurns(groups);
    SummaryNonEmpty(groups);
    result := system;
    if summary != "" {
      result := result + [User(SUMMARY_HEADER + summary)];
    }
    result := result + recent;
  }

  method Shorten(system: seq<Message>, turns: seq<Message>, keepRecent: int) returns (result: seq<Message>)
    ensures result == Shortened(system, turns, keepRecent)
  {
    var groups, recent := Split(turns, keepRecent);
    if groups == [] {
      result := system + turns;
    } else {
      result := WithSummary(system, groups, recent);
    }
  }

  method CompactTurns(ms: seq<Message>, maxTokens: int, keepRecent: int) returns (result: seq<Message>)
    ensures result == Compacted(ms, maxTokens, keepRecent)
  {
    var system, turns := Separate(ms);
    var current := SumTokens(turns);
    if turns == [] {
      result := system;
    } else if current <= maxTokens {
      result := ms;
    } else {
      result := Shorten(system, turns, keepRecent);
    }
  }

  method CompactHistory(ms: seq<Message>, maxTokens: int, keepRecent: int) returns (result: seq<Message>)
    ensures result == Compacted(ms, maxTokens, keepRecent)
  {
    if ms == [] {
      result := [];
    } else {
      result := CompactTurns(ms, maxTokens, keepRecent);
    }
  }

  method SumTokens(turns: seq<Message>) returns (total: nat)
    ensures total == Tokens(turns)
  {
    total := 0;
    for i := 0 to |turns|
      invariant total == Tokens(turns[..i])
    {
      assert Front(turns[..i + 1]) == turns[..i] && Last(turns[..i + 1]) == turns[i];
      total := total + EstimateTokens(turns[i].text);
    }
    assert turns[..|turns|] == turns;
  }

  // ----- what a token estimate counts -----

  /** `at` lists, in order, exactly the positions of the ideographs. */
  ghost predicate CjkAt(text: string, at: seq<nat>) {
    && (forall k :: 0 <= k < |at| ==> at[k] < |text| && IsCjk(text[at[k]]))
    && (forall j, k :: 0 <= j < k < |at| ==> at[j] < at[k])
    && forall i: nat :: i < |text| && IsCjk(text[i]) ==> i in at
  }

  lemma CjkSnoc(text: string, at: seq<nat>)
    requires text != "" && CjkAt(Front(text), at)
    ensures CjkAt(text, at + (if IsCjk(Last(text)) then [|text| - 1] else []))
  {
    hide IsCjk;
    var more := at + (if IsCjk(Last(text)) then [|text| - 1] else []);
    forall i: nat | i < |text| && IsCjk(text[i]) ensures i in more {
      if i < |text| - 1 {
        assert Front(text)[i] == text[i];
      } else {
        assert more[|at|] == i;
      }
    }
  }

  lemma {:induction false} CjkExactly(text: string) returns (at: seq<nat>)
    ensures CjkAt(text, at) && CountCjk(text) == |at|
    decreases |text|
  {
    at := [];
    if text != "" {
      at := CjkExactly(Front(text));
      CjkSnoc(text, at);
      if IsCjk(Last(text)) { at := at + [|text| - 1]; }
    }
  }

  lemma {:induction false} TokensAppend(a: seq<Message>, b: seq<Message>)
    ensures Tokens(a + b) == Tokens(a) + Tokens(b)
    decreases |b|
  {
    if b == [] {
      assert a + b == a;
    } else {
      assert Front(a + b) == a + Front(b) && Last(a + b) == Last(b);
      TokensAppend(a, Front(b));
    }
  }

  /**
    A list weighs what its messages weigh; a message a quarter of a token for each plain character,
    rounded down, and one and a half for each ideograph, rounded down.
  */
  lemma TokensExactly(before: seq<Message>, m: Message, after: seq<Message>) returns (cjk: seq<nat>, plain: nat, ideographs: nat)
    ensures Tokens(before + [m] + after) == Tokens(before) + (plain + ideographs) + Tokens(after)
    ensures CjkAt(m.text, cjk) && |cjk| <= |m.text|
    ensures 4 * plain <= |m.text| - |cjk| < 4 * plain + 4
    ensures 2 * ideographs <= 3 * |cjk| < 2 * ideographs + 2
  {
    TokensAppend(before + [m], after);
    TokensAppend(before, [m]);
    assert Front([m]) == [];
    cjk := CjkExactly(m.text);
    plain, ideographs := (|m.text| - |cjk|) / 4, |cjk| + |cjk| / 2;
  }

  // ----- what a summary says -----

  /** `at` lists, in order, exactly the positions of `ms` that satisfy `p`. */
  ghost predicate Lists(ms: seq<Message>, p: Message -> bool, at: seq<nat>) {
    && (forall k :: 0 <= k < |at| ==> at[k] < |ms| && p(ms[at[k]]))
    && (forall j, k :: 0 <= j < k < |at| ==> at[j] < at[k])
    && forall i: nat :: i < |ms| && p(ms[i]) ==> i in at
  }

  /** Listing one message more. */
  lemma ListsSnoc(ms: seq<Message>, p: Message -> bool, at: seq<nat>)
    requires ms != [] && Lists(Front(ms), p, at)
    ensures Lists(ms, p, at + (if p(Last(ms)) then [|ms| - 1] else []))
  {
    var more := at + (if p(Last(ms)) then [|ms| - 1] else []);
    forall i: nat | i < |ms| && p(ms[i]) ensures i in more {
      if i < |ms| - 1 {
        assert Front(ms)[i] == ms[i];
      } else {
        assert more[|at|] == i;
      }
    }
  }

  function IsKind(system: bool): Message -> bool { (m: Message) => m.System? == system }
  function Speaks(): Message -> bool { (m: Message) => m.Assistant? && m.text != "" }
  function IsTool(): Message -> bool { (m: Message) => m.Tool? }

  /** Separating picks each message of its kind once, in order, and no other. */
  lemma {:induction false} PickExactly(ms: seq<Message>, system: bool) returns (at: seq<nat>)
    ensures Lists(ms, IsKind(system), at) && |Pick(ms, system)| == |at|
    ensures forall k :: 0 <= k < |at| ==> Pick(ms, system)[k] == ms[at[k]]
    decreases |ms|
  {
    at := [];
    if ms != [] {
      at := PickExactly(Front(ms), system);
      ListsSnoc(ms, IsKind(system), at);
      if Last(ms).System? == system { at := at + [|ms| - 1]; }
    }
  }

  lemma {:induction false} PartsExactly(group: seq<Message>) returns (at: seq<nat>)
    ensures Lists(group, Speaks(), at) && |AssistantParts(group)| == |at|
    ensures forall k :: 0 <= k < |at| ==> Abridges(group[at[k]].text, 150, AssistantParts(group)[k])
    decreases |group|
  {
    at := [];
    if group != [] {
      at := PartsExactly(Front(group));
      ListsSnoc(group, Speaks(), at);
      if Last(group).Assistant? && Last(group).text != "" { at := at + [|group| - 1]; }
    }
  }

  lemma {:induction false} ToolsExactly(group: seq<Message>) returns (at: seq<nat>)
    ensures Lists(group, IsTool(), at) && ToolCount(group) == |at|
    decreases |group|
  {
    at := [];
    if group != [] {
      at := ToolsExactly(Front(group));
      ListsSnoc(group, IsTool(), at);
      if Last(group).Tool? { at := at + [|group| - 1]; }
    }
  }

  /** A turn: a user message and what follows it up to the next one. */
  predicate Turn(group: seq<Message>) { group != [] && group[0].User? && Userless(group, 0, |group|) }

  lemma {:induction false} TurnUser(group: seq<Message>)
    requires Turn(group)
    ensures Abridges(group[0].text, 200, UserText(group))
    decreases |group|
  {
    if |group| > 1 {
      assert Turn(Front(group));
      TurnUser(Front(group));
    }
  }

  /**
    The line of a turn: what the user said, up to 200 characters of it; the first two answers that
    say anything, up to 150 characters each; and how many tool results there were.
  */
  lemma LineExactly(group: seq<Message>)
      returns (user: string, said: seq<nat>, shown: seq<string>, tools: seq<nat>)
    requires Turn(group)
    ensures Abridges(group[0].text, 200, user)
    ensures Lists(group, Speaks(), said) && |shown| == |said|
    ensures forall k :: 0 <= k < |said| ==> Abridges(group[said[k]].text, 150, shown[k])
    ensures Lists(group, IsTool(), tools)
    ensures GroupLine(group) ==
      "User: " + user
      + (if |shown| == 0 then "" else if |shown| == 1 then " \U{2192} Assistant: " + shown[0]
         else " \U{2192} Assistant: " + (shown[0] + "; " + shown[1]))
      + (if |tools| == 0 then "" else " [" + Decimal(|tools|) + " tool call(s)]")
  {
    user, shown := UserText(group), AssistantParts(group);
    TurnUser(group);
    said := PartsExactly(group);
    tools := ToolsExactly(group);
    if |shown| >= 2 {
      assert Front(shown[..2]) == [shown[0]];
      assert Join(shown[..2], "; ") == shown[0] + "; " + shown[1];
    }
    hide Decimal, Lists, Abridges;
    LineForm(user, shown, |tools|);
  }

  lemma LineForm(user: string, shown: seq<string>, n: nat)
    requires |shown| >= 2 ==> Join(shown[..2], "; ") == shown[0] + "; " + shown[1]
    ensures SummaryLine(user, shown, n) ==
      "User: " + user
      + (if |shown| == 0 then "" else if |shown| == 1 then " \U{2192} Assistant: " + shown[0]
         else " \U{2192} Assistant: " + (shown[0] + "; " + shown[1]))
      + (if n == 0 then "" else " [" + Decimal(n) + " tool call(s)]")
  {
    if |shown| >= 2 { assert |shown| > 2 || shown[..2] == shown; }
  }

  /** A summary is its turns' lines, each on a line of its own. */
  lemma SummaryGrows(groups: seq<seq<Message>>, group: seq<Message>)
    ensures Summary(groups + [group]) == if groups == [] then GroupLine(group) else Summary(groups) + "\n" + GroupLine(group)
  {
    assert Front(groups + [group]) == groups;
    assert Front(Lines(groups + [group])) == Lines(groups);
  }

  // ----- what is returned -----

  function Flat(groups: seq<seq<Message>>): seq<Message>
    decreases |groups|
  {
    if groups == [] then [] else Flat(Front(groups)) + Last(groups)
  }

  /** Where the first `n` of the ranges end. */
  function Reach(b: seq<(nat, nat)>, n: nat): nat
    requires n <= |b| && b != []
  {
    if n == 0 then b[0].0 else b[n - 1].1
  }

  lemma GroupIsTurn(turns: seq<Message>, k: nat)
    requires k < |Starts(turns)|
    ensures var b := Boundaries(turns); Turn(turns[b[k].0..b[k].1])
  {
    RangeHoldsOne(turns, k);
    var lo, hi := Boundaries(turns)[k].0, Boundaries(turns)[k].1;
    var g := turns[lo..hi];
    forall i | 0 < i < |g| ensures !g[i].User? { assert g[i] == turns[lo + i]; }
  }

  lemma FlatSnoc(groups: seq<seq<Message>>, group: seq<Message>)
    ensures Flat(groups + [group]) == Flat(groups) + group
  {
    assert Front(groups + [group]) == groups;
  }

  lemma SliceJoin(turns: seq<Message>, i: nat, j: nat, k: nat)
    requires i <= j <= k <= |turns|
    ensures turns[i..j] + turns[j..k] == turns[i..k]
  {
  }

  lemma SlicesSnoc(turns: seq<Message>, b: seq<(nat, nat)>, n: nat)
    requires n < |b| && forall k :: 0 <= k < |b| ==> b[k].0 < b[k].1 <= |turns|
    ensures Slices(turns, b[..n + 1]) == Slices(turns, b[..n]) + [turns[b[n].0..b[n].1]]
  {
  }

  /** Ranges that tile are in bounds, and each begins where those before it end. */
  lemma TilesMeet(turns: seq<Message>, b: seq<(nat, nat)>, n: nat)
    requires Tiles(turns, b) && n < |b|
    ensures (forall k :: 0 <= k < |b| ==> b[k].0 < b[k].1 <= |turns|) && Reach(b, n) == b[n].0 && Reach(b, n + 1) == b[n].1
  {
  }

  lemma {:induction false} SlicesFlat(turns: seq<Message>, b: seq<(nat, nat)>, n: nat)
    requires Tiles(turns, b) && b != [] && n <= |b|
    requires forall k :: 0 <= k < |b| ==> b[k].0 < b[k].1 <= |turns|
    ensures b[0].0 <= Reach(b, n) <= |turns| && Flat(Slices(turns, b[..n])) == turns[b[0].0..Reach(b, n)]
    decreases n
  {
    hide Tiles, Slices, Flat;
    if n == 0 {
      assert Slices(turns, b[..0]) == [];
      NothingFlat();
      assert turns[b[0].0..b[0].0] == [];
    } else {
      SlicesFlat(turns, b, n - 1);
      TilesMeet(turns, b, n - 1);
      SlicesSnoc(turns, b, n - 1);
      FlatSnoc(Slices(turns, b[..n - 1]), turns[b[n - 1].0..b[n - 1].1]);
      SliceJoin(turns, b[0].0, b[n - 1].0, b[n - 1].1);
    }
  }

  lemma NothingFlat()
    ensures Flat([]) == []
  {
  }

  lemma RecentIsRest(turns: seq<Message>, cut: nat)
    requires 0 < cut <= |Starts(turns)|
    ensures var b := Boundaries(turns); Reach(b, cut) <= |turns| && Recent(turns, cut) == turns[Reach(b, cut)..]
  {
    BoundariesTile(turns);
  }

  /** The groups summarised are whole turns, and with what is kept they are the conversation. */
  lemma GroupsAndRecent(turns: seq<Message>, cut: nat)
    requires 0 < cut <= |Starts(turns)|
    ensures var b := Boundaries(turns);
            && (forall k :: 0 <= k < cut ==> Turn(Groups(turns, cut)[k]))
            && Userless(turns, -1, b[0].0) && Flat(Groups(turns, cut)) + Recent(turns, cut) == turns[b[0].0..]
  {
    var b := Boundaries(turns);
    BoundariesTile(turns);
    forall k | 0 <= k < cut ensures Turn(Groups(turns, cut)[k]) {
      GroupIsTurn(turns, k);
      assert b[..cut][k] == b[k];
    }
    hide Slices, Flat, Turn, Recent;
    RecentIsRest(turns, cut);
    SlicesFlat(turns, b, cut);
    SliceJoin(turns, b[0].0, Reach(b, cut), |turns|);
    assert turns[..|turns|] == turns;
  }

  /**
    What is returned, case by case. With no turn, or within the budget, the list itself; over it,
    with no more user turns than are to be kept, the system messages and then the turns. Otherwise
    the system messages, then one user message with the summary of the older turns, then the rest:
    older turns and rest are the conversation from its first user message on, and the rest holds
    as many user turns as are to be kept.
  */
  lemma CompactedExactly(ms: seq<Message>, maxTokens: int, keepRecent: int)
      returns (earlier: seq<seq<Message>>, recent: seq<Message>)
    ensures var system, turns := Pick(ms, true), Pick(ms, false); var r := Compacted(ms, maxTokens, keepRecent);
      && (turns == [] || Tokens(turns) <= maxTokens ==> r == ms)
      && (Tokens(turns) > maxTokens && (|Starts(turns)| <= keepRecent || Starts(turns) == []) ==> r == system + turns)
      && (Tokens(turns) > maxTokens && |Starts(turns)| > keepRecent && Starts(turns) != [] ==>
            && r == system + [User("[Conversation summary (compacted)]\n" + Summary(earlier))] + recent
            && Older(turns, earlier, recent) && |Starts(recent)| == if keepRecent < 0 then 0 else keepRecent)
  {
    hide Tokens, Starts, Groups, Recent, Boundaries, Pick, Summary, Older;
    var system, turns := Pick(ms, true), Pick(ms, false);
    earlier, recent := [], [];
    NoTurns(ms);
    if Tokens(turns) > maxTokens && |Starts(turns)| > keepRecent && Starts(turns) != [] {
      var cut := OldCount(|Starts(turns)|, keepRecent);
      earlier, recent := Groups(turns, cut), Recent(turns, cut);
      GroupsAreOlder(turns, cut);
      assert SUMMARY_HEADER == "[Conversation summary (compacted)]\n";
    }
  }

  lemma GroupsAreOlder(turns: seq<Message>, cut: nat)
    requires 0 < cut <= |Starts(turns)|
    ensures Older(turns, Groups(turns, cut), Recent(turns, cut)) && |Starts(Recent(turns, cut))| == |Starts(turns)| - cut
  {
    hide Starts, Groups, Recent;
    GroupsAndRecent(turns, cut);
    RecentTurns(turns, cut);
    assert 0 <= Boundaries(turns)[0].0 <= |turns|;
  }

  /** `earlier` are whole turns, `recent` is empty or starts with one, and together they are the conversation from its first. */
  predicate Older(turns: seq<Message>, earlier: seq<seq<Message>>, recent: seq<Message>) {
    && (forall k :: 0 <= k < |earlier| ==> Turn(earlier[k])) && (recent != [] ==> recent[0].User?)
    && exists i :: 0 <= i <= |turns| && Userless(turns, -1, i) && Flat(earlier) + recent == turns[i..]
  }

  lemma NoTurns(ms: seq<Message>)
    ensures Tokens([]) == 0 && Starts([]) == []
    ensures Pick(ms, false) == [] ==> Pick(ms, true) == ms
  {
    var at := PickExactly(ms, false);
    if Pick(ms, false) == [] {
      forall i | 0 <= i < |ms| ensures ms[i].System? == true {
        assert IsKind(false)(ms[i]) ==> i in at;
      }
      PickAll(ms, true);
    }
  }

  // ----- what compacting keeps -----

  function Shift(starts: seq<nat>, n: nat): (r: seq<nat>)
    ensures |r| == |starts| && forall k :: 0 <= k < |r| ==> r[k] == starts[k] + n
  {
    seq(|starts|, k requires 0 <= k < |starts| => starts[k] + n)
  }

  lemma {:induction false} StartsAppend(a: seq<Message>, b: seq<Message>)
    ensures Starts(a + b) == Starts(a) + Shift(Starts(b), |a|)
    decreases |b|
  {
    if b == [] {
      assert a + b == a;
    } else {
      assert Front(a + b) == a + Front(b) && Last(a + b) == Last(b);
      StartsAppend(a, Front(b));
    }
  }

  /** The recent part is the suffix that starts at a user message and holds exactly the newest turns. */
  lemma RecentTurns(turns: seq<Message>, cut: nat)
    requires cut <= |Starts(turns)|
    ensures var r := Recent(turns, cut);
            && r == turns[|turns| - |r|..]
            && |Starts(r)| == |Starts(turns)| - cut
            && (r != [] ==> r[0].User?)
            && (cut > 0 ==> |r| < |turns|)
  {
    StartsExact(turns);
    if cut < |Starts(turns)| {
      var s := Starts(turns)[cut];
      var a, b := turns[..s], turns[s..];
      assert turns == a + b;
      StartsAppend(a, b);
      StartsExact(a);
      StartsExact(b);
      assert b[0].User? && Starts(b)[0] == 0;
      assert Starts(turns)[|Starts(a)|] == s;
      assert |Starts(a)| == cut;
    }
  }

  lemma PickParts(system: seq<Message>, rest: seq<Message>)
    requires All(system, true) && All(rest, false)
    ensures Pick(system + rest, true) == system && Pick(system + rest, false) == rest
  {
    PickAppend(system, rest, true);
    PickAppend(system, rest, false);
    PickAll(system, true);
    PickAll(rest, false);
    PickNone(system, true);
    PickNone(rest, false);
  }

  /** `r` is the system messages `system`, one summary, and the newest `kept` turns of `turns`, verbatim. */
  predicate Shape(system: seq<Message>, turns: seq<Message>, kept: nat, r: seq<Message>) {
    && |system| < |r| && r[..|system|] == system
    && r[|system|].User? && SUMMARY_HEADER <= r[|system|].text
    && var recent := r[|system| + 1..];
    && |recent| < |turns| && recent == turns[|turns| - |recent|..]
    && |Starts(recent)| == kept
    && (recent != [] ==> recent[0].User?)
  }

  function Kept(keepRecent: int): nat { if keepRecent < 0 then 0 else keepRecent }

  /** What a shortened list looks like, whatever the summary says. */
  lemma CompactedShape(ms: seq<Message>, maxTokens: int, keepRecent: int)
    requires Compacts(ms, maxTokens, keepRecent)
    ensures Shape(Pick(ms, true), Pick(ms, false), Kept(keepRecent), Compacted(ms, maxTokens, keepRecent))
  {
    hide Pick, Tokens, Starts, Groups, Recent, Summary, Boundaries;
    var system, turns := Pick(ms, true), Pick(ms, false);
    var cut := OldCount(|Starts(turns)|, keepRecent);
    var summary, recent := SummaryMessage(Groups(turns, cut)), Recent(turns, cut);
    assert Compacted(ms, maxTokens, keepRecent) == system + [summary] + recent;
    assert summary.User? && SUMMARY_HEADER <= summary.text;
    RecentTurns(turns, cut);
    Assemble(system, summary, recent);
  }

  lemma Assemble(system: seq<Message>, summary: Message, recent: seq<Message>)
    ensures var r := system + [summary] + recent;
            r[..|system|] == system && r[|system|] == summary && r[|system| + 1..] == recent
  {
  }

  lemma NotCompacted(ms: seq<Message>, maxTokens: int, keepRecent: int)
    requires !Compacts(ms, maxTokens, keepRecent)
    ensures var r := Compacted(ms, maxTokens, keepRecent);
      r == ms || r == Pick(ms, true) + Pick(ms, false)
  {
  }

  /** Compacting never makes a list longer. */
  lemma NeverGrows(ms: seq<Message>, maxTokens: int, keepRecent: int)
    ensures |Compacted(ms, maxTokens, keepRecent)| <= |ms|
  {
    PickShape(ms, true);
    if Compacts(ms, maxTokens, keepRecent) {
      CompactedShape(ms, maxTokens, keepRecent);
    } else {
      NotCompacted(ms, maxTokens, keepRecent);
    }
  }

  lemma TurnsAfterSummary(summary: Message, recent: seq<Message>)
    requires summary.User? && (recent != [] ==> recent[0].User?)
    ensures var rest := [summary] + recent;
      && |Starts(rest)| == 1 + |Starts(recent)|
      && Groups(rest, 1) == [[summary]]
      && Recent(rest, 1) == recent
  {
    var rest := [summary] + recent;
    assert Front([summary]) == [];
    StartsAppend([summary], recent);
    StartsExact(recent);
    assert Starts(rest)[0] == 0;
    if recent != [] {
      var k := StartOf(recent, 0);
      assert Starts(rest)[1] == 1;
    }
    var b := Boundaries(rest);
    assert b[0] == (0, 1);
    assert Groups(rest, 1)[0] == rest[0..1] == [summary];
  }

  /**
    Compacting again with the same arguments never shortens the list again; the most it does is
    to summarise the summary, which then holds at most 200 characters of the first one.
  */
  lemma CompactTwice(ms: seq<Message>, maxTokens: int, keepRecent: int)
    ensures var once := Compacted(ms, maxTokens, keepRecent);
      var twice := Compacted(once, maxTokens, keepRecent);
      var i := |Pick(ms, true)|;
      twice == once || (Compacts(ms, maxTokens, keepRecent) && i < |once| && twice == once[i := SummaryMessage([[once[i]]])])
  {
    var system, turns := Pick(ms, true), Pick(ms, false);
    PickShape(ms, true);
    PickShape(ms, false);
    if Compacts(ms, maxTokens, keepRecent) {
      var once := Compacted(ms, maxTokens, keepRecent);
      CompactedShape(ms, maxTokens, keepRecent);
      ShortenAgain(system, turns, once, maxTokens, keepRecent);
    } else if turns != [] && Tokens(turns) > maxTokens {
      PickParts(system, turns);
    } else if turns == [] {
      PickAll(system, true);
      PickNone(system, true);
    }
  }

  lemma ShortenAgain(system: seq<Message>, turns: seq<Message>, once: seq<Message>, maxTokens: int, keepRecent: int)
    requires All(system, true) && All(turns, false)
    requires Shape(system, turns, Kept(keepRecent), once)
    ensures var twice := Compacted(once, maxTokens, keepRecent);
      twice == once || twice == once[|system| := SummaryMessage([[once[|system|]]])]
  {
    var summary, recent := once[|system|], once[|system| + 1..];
    assert once == system + ([summary] + recent);
    SplitAgain(system, summary, recent, maxTokens, keepRecent);
    ReplaceMiddle(system, summary, SummaryMessage([[summary]]), recent);
  }

  lemma ReplaceMiddle(a: seq<Message>, x: Message, y: Message, b: seq<Message>)
    ensures (a + ([x] + b))[|a| := y] == a + [y] + b
  {
  }

  lemma SplitAgain(system: seq<Message>, summary: Message, recent: seq<Message>, maxTokens: int, keepRecent: int)
    requires All(system, true) && All(recent, false)
    requires summary.User? && (recent != [] ==> recent[0].User?) && |Starts(recent)| == Kept(keepRecent)
    ensures var once := system + ([summary] + recent);
      var twice := Compacted(once, maxTokens, keepRecent);
      twice == once || twice == system + [SummaryMessage([[summary]])] + recent
  {
    var rest := [summary] + recent;
    PickParts(system, rest);
    ShortenSummary(system, summary, recent, keepRecent);
  }

  lemma ShortenSummary(system: seq<Message>, summary: Message, recent: seq<Message>, keepRecent: int)
    requires summary.User? && (recent != [] ==> recent[0].User?) && |Starts(recent)| == Kept(keepRecent)
    ensures Shortened(system, [summary] + recent, keepRecent) == system + [SummaryMessage([[summary]])] + recent
  {
    TurnsAfterSummary(summary, recent);
    assert OldCount(|Starts([summary] + recent)|, keepRecent) == 1;
  }

  // ----- the token budget -----

  lemma PickedParts(system: seq<Message>, turns: seq<Message>)
    requires All(system, true) && All(turns, false)
    ensures Pick(system + turns, false) == turns
  {
    PickParts(system, turns);
  }

  /**
    The budget is met exactly if the conversation was within it, or there is something to
    summarise and the summary and what is kept verbatim are together within it.
  */
  lemma BudgetMetExactly(ms: seq<Message>, maxTokens: int, keepRecent: int)
      returns (earlier: seq<seq<Message>>, recent: seq<Message>)
    ensures var turns := Pick(ms, false);
      && (Tokens(Pick(Compacted(ms, maxTokens, keepRecent), false)) <= maxTokens <==>
            Tokens(turns) <= maxTokens
            || (|Starts(turns)| > keepRecent && Starts(turns) != []
                && Tokens([User("[Conversation summary (compacted)]\n" + Summary(earlier))]) + Tokens(recent) <= maxTokens))
      && (Tokens(turns) > maxTokens && |Starts(turns)| > keepRecent && Starts(turns) != [] ==>
            Older(turns, earlier, recent) && |Starts(recent)| == if keepRecent < 0 then 0 else keepRecent)
  {
    earlier, recent := CompactedExactly(ms, maxTokens, keepRecent);
    PickShape(ms, true);
    PickShape(ms, false);
    hide Compacted, Summary, Tokens, Starts, Pick;
    var system, turns := Pick(ms, true), Pick(ms, false);
    NoTurns(ms);
    if Tokens(turns) > maxTokens {
      if |Starts(turns)| <= keepRecent || Starts(turns) == [] {
        PickedParts(system, turns);
      } else {
        var summary := User("[Conversation summary (compacted)]\n" + Summary(earlier));
        assert All([summary] + recent, false) by { OlderHasNoSystem(turns, earlier, recent); }
        assert system + [summary] + recent == system + ([summary] + recent);
        PickedParts(system, [summary] + recent);
        TokensAppend([summary], recent);
      }
    }
  }

  lemma OlderHasNoSystem(turns: seq<Message>, earlier: seq<seq<Message>>, recent: seq<Message>)
    requires All(turns, false) && Older(turns, earlier, recent)
    ensures All(recent, false)
  {
    var i :| 0 <= i <= |turns| && Userless(turns, -1, i) && Flat(earlier) + recent == turns[i..];
    forall k | 0 <= k < |recent| ensures !recent[k].System? {
      assert recent[k] == (Flat(earlier) + recent)[|Flat(earlier)| + k] == turns[i + |Flat(earlier)| + k];
    }
  }

  lemma OneIdeograph()
    ensures EstimateTokens("\U{4E00}") == 1
  {
    var text, none := "\U{4E00}", "";
    assert Front(text) == none && IsCjk(Last(text));
  }

  lemma OneMessage(m: Message)
    requires m.User?
    ensures Pick([m], false) == [m] && Starts([m]) == [0] && Tokens([m]) == EstimateTokens(m.text)
  {
    hide EstimateTokens;
    assert Front([m]) == [];
  }

  /** The smallest list that stays over budget: one message, which is to be kept. */
  lemma BudgetMissed(keepRecent: int)
    requires keepRecent >= 1
    ensures Tokens(Pick(Compacted([User("\U{4E00}")], 0, keepRecent), false)) > 0
  {
    hide Compacted, Pick, Starts, Tokens, EstimateTokens, Summary;
    OneIdeograph();
    OneMessage(User("\U{4E00}"));
    var earlier, recent := BudgetMetExactly([User("\U{4E00}")], 0, keepRecent);
  }

  // ----- compacting keeps the pairing -----

  lemma {:induction false} SystemFree(ms: seq<Message>)
    requires Scan([], ms).Some?
    ensures Scan([], Pick(ms, false)) == Scan([], ms)
    decreases |ms|
  {
    if ms != [] {
      SystemFree(Front(ms));
      var before := Pick(Front(ms), false);
      if !Last(ms).System? {
        assert Front(before + [Last(ms)]) == before;
      } else {
        assert Pick(ms, false) == before;
      }
    }
  }

  lemma {:induction false} SystemPaired(system: seq<Message>)
    requires All(system, true)
    ensures WellPaired(system)
    decreases |system|
  {
    if system != [] {
      SystemPaired(Front(system));
    }
  }

  lemma {:induction false} PickHaveIds(ms: seq<Message>, system: bool)
    requires HaveIds(ms)
    ensures HaveIds(Pick(ms, system))
    decreases |ms|
  {
    if ms != [] {
      assert forall i :: 0 <= i < |Front(ms)| ==> Front(ms)[i] == ms[i];
      PickHaveIds(Front(ms), system);
    }
  }

  /** Cutting in front of a user message keeps the rest paired. */
  lemma SuffixPaired(turns: seq<Message>, s: nat)
    requires WellPaired(turns) && s < |turns| && turns[s].User?
    ensures WellPaired(turns[s..])
  {
    ScanPrefixes(turns, s);
    ScanPrefixes(turns, s + 1);
    PrefixStep(turns, s);
    ScanAppend([], turns[..s], turns[s..]);
    assert turns[..s] + turns[s..] == turns;
  }

  /** From a well-paired list, whatever compaction returns is well paired. */
  lemma CompactionKeepsPairing(ms: seq<Message>, maxTokens: int, keepRecent: int)
    requires WellPaired(ms)
    ensures WellPaired(Compacted(ms, maxTokens, keepRecent))
  {
    var system, turns := Pick(ms, true), Pick(ms, false);
    PickShape(ms, true);
    SystemPaired(system);
    SystemFree(ms);
    PickHaveIds(ms, false);
    if Compacts(ms, maxTokens, keepRecent) {
      CompactedShape(ms, maxTokens, keepRecent);
      ShapePaired(system, turns, Kept(keepRecent), Compacted(ms, maxTokens, keepRecent));
    } else {
      NotCompacted(ms, maxTokens, keepRecent);
      PairedAppend(system, turns);
    }
  }

  lemma ShapePaired(system: seq<Message>, turns: seq<Message>, kept: nat, r: seq<Message>)
    requires WellPaired(system) && WellPaired(turns) && Shape(system, turns, kept, r)
    ensures WellPaired(r)
  {
    var summary, recent := r[|system|], r[|system| + 1..];
    if recent != [] { SuffixPaired(turns, |turns| - |recent|); }
    UserPaired(summary.text);
    PairedAppend([summary], recent);
    PairedAppend(system, [summary] + recent);
    assert r == system + ([summary] + recent);
  }
}
