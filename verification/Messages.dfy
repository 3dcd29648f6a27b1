/** The conversation list, and what it means for tool calls and tool results to be paired in it. */
module Messages {
  import opened Basics
  import opened Text

  /** One entry of an assistant message's `tool_calls`; the name may sit at the top or inside `function`. */
  datatype RawCall = RawCall(id: string, topName: string, fnName: string, args: string) {
    function Name(): string { if topName != "" then topName else fnName }
    predicate Named() { !Blank(Name()) }
  }

  datatype Message =
    | System(text: string)
    | User(text: string)
    | Assistant(text: string, calls: seq<RawCall>)
    | Tool(callId: string, name: string, text: string)

  /** The ids of the calls that have a name, in order. */
  function NamedIds(calls: seq<RawCall>): seq<string>
    decreases |calls|
  {
    if calls == [] then [] else NamedIds(Front(calls)) + (if Last(calls).Named() then [Last(calls).id] else [])
  }

  /** Reading on from a point where results for `owed` are still to come; `None` if the list breaks the pairing. */
  function AfterMessage(owed: seq<string>, m: Message): Option<seq<string>> {
    match m
    case Tool(id, _, _) => if owed != [] && owed[0] == id then Some(owed[1..]) else None
    case Assistant(_, calls) => if owed == [] then Some(NamedIds(calls)) else None
    case _ => if owed == [] then Some([]) else None
  }

  function Scan(owed: seq<string>, ms: seq<Message>): Option<seq<string>>
    decreases |ms|
  {
    if ms == [] then Some(owed)
    else match Scan(owed, Front(ms))
      case None => None
      case Some(o) => AfterMessage(o, Last(ms))
  }

  predicate Paired(ms: seq<Message>) { Scan([], ms) == Some([]) }

  /** Every named call carries an id. */
  predicate CallsHaveIds(calls: seq<RawCall>) { forall i :: 0 <= i < |calls| && calls[i].Named() ==> !Blank(calls[i].id) }

  predicate HaveIds(ms: seq<Message>) { forall i :: 0 <= i < |ms| && ms[i].Assistant? ==> CallsHaveIds(ms[i].calls) }

  predicate WellPaired(ms: seq<Message>) { Paired(ms) && HaveIds(ms) }

  lemma {:induction false} ScanAppend(owed: seq<string>, a: seq<Message>, b: seq<Message>)
    ensures Scan(owed, a + b) == match Scan(owed, a) case None => None case Some(o) => Scan(o, b)
    decreases |b|
  {
    if b == [] {
      assert a + b == a;
    } else {
      assert Front(a + b) == a + Front(b) && Last(a + b) == Last(b);
      ScanAppend(owed, a, Front(b));
    }
  }

  lemma PairedAppend(a: seq<Message>, b: seq<Message>)
    requires WellPaired(a) && WellPaired(b)
    ensures WellPaired(a + b)
  {
    ScanAppend([], a, b);
  }

  lemma UserPaired(text: string)
    ensures WellPaired([User(text)])
  {
    assert Front([User(text)]) == [];
  }

  // ----- the same, position by position -----

  predicate AnsweredAt(ms: seq<Message>, i: nat)
    requires i < |ms| && ms[i].Assistant?
  {
    var ids := NamedIds(ms[i].calls);
    i + |ids| < |ms| && forall k :: i < k <= i + |ids| ==> ms[k].Tool? && ms[k].callId == ids[k - i - 1]
  }

  /** A tool message stands among the answers right behind some assistant message. */
  ghost predicate AskedAt(ms: seq<Message>, i: nat)
    requires i < |ms|
  {
    exists a: nat :: a < i && ms[a].Assistant? && i - a <= |NamedIds(ms[a].calls)|
  }

  /** After `n` messages, some answers to the calls at `a` are still to come. */
  predicate Open(ms: seq<Message>, n: nat, a: nat)
    requires n <= |ms|
  {
    a < n && ms[a].Assistant? && n - a - 1 < |NamedIds(ms[a].calls)|
  }

  /** ... and they are `o`. */
  predicate OwedFrom(ms: seq<Message>, n: nat, a: nat, o: seq<string>)
    requires n <= |ms|
  {
    Open(ms, n, a) && o == NamedIds(ms[a].calls)[n - a - 1..]
  }

  function Owed(ms: seq<Message>, n: nat): Option<seq<string>>
    requires n <= |ms|
  {
    Scan([], ms[..n])
  }

  lemma PrefixStep(ms: seq<Message>, n: nat)
    requires n < |ms|
    ensures Owed(ms, n + 1) == match Owed(ms, n) case None => None case Some(o) => AfterMessage(o, ms[n])
  {
    assert Front(ms[..n + 1]) == ms[..n] && Last(ms[..n + 1]) == ms[n];
  }

  lemma {:induction false} ScanPrefixes(ms: seq<Message>, n: nat)
    requires Scan([], ms).Some? && n <= |ms|
    ensures Owed(ms, n).Some?
    decreases |ms| - n
  {
    if n == |ms| {
      assert ms[..n] == ms;
    } else {
      ScanPrefixes(ms, n + 1);
      PrefixStep(ms, n);
    }
  }

  lemma {:induction false} OwedHasOrigin(ms: seq<Message>, n: nat) returns (a: nat)
    requires n <= |ms| && Owed(ms, n).Some? && Owed(ms, n).value != []
    ensures OwedFrom(ms, n, a, Owed(ms, n).value)
  {
    if n == 0 {
    } else {
      PrefixStep(ms, n - 1);
      if ms[n - 1].Assistant? {
        a := n - 1;
      } else {
        a := OwedHasOrigin(ms, n - 1);
      }
    }
  }

  lemma AnswerComesOff(ms: seq<Message>, n: nat, owed: seq<string>)
    requires Paired(ms) && n <= |ms| && Owed(ms, n) == Some(owed) && owed != []
    ensures n < |ms| && ms[n].Tool? && ms[n].callId == owed[0] && Owed(ms, n + 1) == Some(owed[1..])
  {
    assert ms[..|ms|] == ms;
    ScanPrefixes(ms, n + 1);
    PrefixStep(ms, n);
  }

  /** Owed answers come off one at a time. */
  lemma {:induction false} AnswersFollow(ms: seq<Message>, n: nat, owed: seq<string>, j: nat)
    requires Paired(ms) && n <= |ms| && Owed(ms, n) == Some(owed) && j <= |owed|
    ensures n + j <= |ms| && Owed(ms, n + j) == Some(owed[j..])
    ensures j < |owed| ==> n + j < |ms| && ms[n + j].Tool? && ms[n + j].callId == owed[j]
    decreases j
  {
    if j == 0 {
      assert owed[0..] == owed;
    } else {
      AnswersFollow(ms, n, owed, j - 1);
      assert owed[j - 1..][1..] == owed[j..];
      AnswerComesOff(ms, n + j - 1, owed[j - 1..]);
    }
    if j < |owed| { AnswerComesOff(ms, n + j, owed[j..]); }
  }

  lemma CallsAreOwed(ms: seq<Message>, i: nat)
    requires Paired(ms) && i < |ms| && ms[i].Assistant?
    ensures Owed(ms, i + 1) == Some(NamedIds(ms[i].calls))
  {
    ScanPrefixes(ms, i + 1);
    PrefixStep(ms, i);
  }

  /**
    Each assistant message is followed at once by exactly one tool message per named call, in
    order and with matching ids, and there are no other tool messages.
  */
  ghost predicate Pointwise(ms: seq<Message>) {
    && (forall i: nat :: i < |ms| && ms[i].Assistant? ==> AnsweredAt(ms, i))
    && (forall i: nat :: i < |ms| && ms[i].Tool? ==> AskedAt(ms, i))
  }

  lemma OpenMeansTool(ms: seq<Message>, n: nat, a: nat)
    requires Pointwise(ms) && n < |ms| && Open(ms, n, a)
    ensures ms[n].Tool? && ms[n].callId == NamedIds(ms[a].calls)[n - a - 1]
  {
    assert AnsweredAt(ms, a);
  }

  lemma OneOpen(ms: seq<Message>, n: nat, a: nat, b: nat)
    requires Pointwise(ms) && n <= |ms| && Open(ms, n, a) && Open(ms, n, b)
    ensures a == b
  {
    if a < b {
      OpenMeansTool(ms, b, a);
    } else if b < a {
      OpenMeansTool(ms, a, b);
    }
  }

  ghost predicate NoneOpen(ms: seq<Message>, n: nat)
    requires n <= |ms|
  {
    forall a: nat :: a < n ==> !Open(ms, n, a)
  }

  /** `o` is owed after `n` messages, from the calls at `a` unless nothing is owed. */
  ghost predicate Settled(ms: seq<Message>, n: nat, o: seq<string>, a: nat)
    requires n <= |ms|
  {
    && Owed(ms, n) == Some(o)
    && (if o == [] then NoneOpen(ms, n) else OwedFrom(ms, n, a, o))
  }

  lemma ToolIsOwed(ms: seq<Message>, n: nat, o: seq<string>, a: nat)
    requires Pointwise(ms) && n < |ms| && ms[n].Tool? && Settled(ms, n, o, a)
    ensures OwedFrom(ms, n, a, o) && o[0] == ms[n].callId
  {
    assert AskedAt(ms, n);
    var asker: nat :| asker < n && ms[asker].Assistant? && n - asker <= |NamedIds(ms[asker].calls)|;
    assert Open(ms, n, asker);
    OpenMeansTool(ms, n, a);
  }

  lemma NoOtherOpen(ms: seq<Message>, n: nat, a: nat, b: nat)
    requires Pointwise(ms) && n < |ms| && ms[n].Tool? && Open(ms, n, a) && !Open(ms, n + 1, a) && b < n + 1
    ensures !Open(ms, n + 1, b)
  {
    if Open(ms, n + 1, b) { OneOpen(ms, n, a, b); }
  }

  lemma StepOverTool(ms: seq<Message>, n: nat, o: seq<string>, a: nat)
    requires Pointwise(ms) && n < |ms| && ms[n].Tool? && Settled(ms, n, o, a)
    ensures o != [] && Settled(ms, n + 1, o[1..], a)
  {
    ToolIsOwed(ms, n, o, a);
    PrefixStep(ms, n);
    var next := n + 1;
    if o[1..] == [] {
      forall b: nat | b < next ensures !Open(ms, next, b) { NoOtherOpen(ms, n, a, b); }
    }
  }

  lemma StepOverOther(ms: seq<Message>, n: nat, o: seq<string>, a: nat)
    requires Pointwise(ms) && n < |ms| && !ms[n].Tool? && Settled(ms, n, o, a)
    ensures Settled(ms, n + 1, if ms[n].Assistant? then NamedIds(ms[n].calls) else [], n)
  {
    PrefixStep(ms, n);
    if o != [] {
      OpenMeansTool(ms, n, a);
    }
    var next := n + 1;
    forall b: nat | b < n ensures !Open(ms, next, b) {
      assert !Open(ms, n, b);
    }
  }

  lemma {:induction false} PointwiseScan(ms: seq<Message>, n: nat) returns (o: seq<string>, a: nat)
    requires Pointwise(ms) && n <= |ms|
    ensures Settled(ms, n, o, a)
  {
    if n == 0 {
      assert ms[..0] == [];
      o, a := [], 0;
    } else {
      o, a := PointwiseScan(ms, n - 1);
      if ms[n - 1].Tool? {
        StepOverTool(ms, n - 1, o, a);
        o := o[1..];
      } else {
        StepOverOther(ms, n - 1, o, a);
        o, a := if ms[n - 1].Assistant? then NamedIds(ms[n - 1].calls) else [], n - 1;
      }
    }
  }

  lemma PairedIsPointwise(ms: seq<Message>)
    requires Paired(ms)
    ensures Pointwise(ms)
  {
    forall i: nat | i < |ms| && ms[i].Assistant? ensures AnsweredAt(ms, i) {
      var ids := NamedIds(ms[i].calls);
      CallsAreOwed(ms, i);
      AnswersFollow(ms, i + 1, ids, |ids|);
      forall k: nat | i < k <= i + |ids| ensures ms[k].Tool? && ms[k].callId == ids[k - i - 1] {
        AnswersFollow(ms, i + 1, ids, k - i - 1);
      }
    }
    forall i: nat | i < |ms| && ms[i].Tool? ensures AskedAt(ms, i) {
      ScanPrefixes(ms, i + 1);
      PrefixStep(ms, i);
      var a := OwedHasOrigin(ms, i);
    }
  }

  lemma NothingOpenAtEnd(ms: seq<Message>, a: nat)
    requires Pointwise(ms)
    ensures !Open(ms, |ms|, a)
  {
    if a < |ms| && ms[a].Assistant? {
      assert AnsweredAt(ms, a);
    }
  }

  lemma PointwiseIsPaired(ms: seq<Message>)
    requires Pointwise(ms)
    ensures Paired(ms)
  {
    var o, a := PointwiseScan(ms, |ms|);
    assert ms[..|ms|] == ms;
    NothingOpenAtEnd(ms, a);
  }

  /** Reading the list once with a list of owed ids decides the position-by-position statement. */
  lemma PairedExactly(ms: seq<Message>)
    ensures Paired(ms) <==> Pointwise(ms)
  {
    if Paired(ms) { PairedIsPointwise(ms); }
    if Pointwise(ms) { PointwiseIsPaired(ms); }
  }

  // ----- extracting calls and answering them -----

  /** A call as the agent core dispatches it. */
  datatype Call = Call(id: string, name: string, args: string)

  function FilledCall(c: RawCall, minted: string): RawCall {
    if c.Named() && Blank(c.id) then c.(id := minted) else c
  }

  /** The calls once every named one has an id; `minted[i]` is the id generated for entry `i`. */
  function Filled(calls: seq<RawCall>, minted: seq<string>): (r: seq<RawCall>)
    requires |minted| == |calls|
    ensures |r| == |calls| && forall i :: 0 <= i < |r| ==> r[i] == FilledCall(calls[i], minted[i])
  {
    seq(|calls|, i requires 0 <= i < |calls| => FilledCall(calls[i], minted[i]))
  }

  /** The named calls in canonical form. */
  function Canonical(calls: seq<RawCall>): seq<Call>
    decreases |calls|
  {
    if calls == [] then []
    else Canonical(Front(calls)) + (if Last(calls).Named() then [Call(Last(calls).id, Last(calls).Name(), Last(calls).args)] else [])
  }

  predicate MintedIds(minted: seq<string>) { forall i :: 0 <= i < |minted| ==> !Blank(minted[i]) }

  /** Normalises the calls, skips nameless ones, and writes generated ids back into the message. */
  method ExtractToolCalls(raw: array<RawCall>, minted: seq<string>) returns (out: seq<Call>)
    requires |minted| == raw.Length
    modifies raw
    ensures raw[..] == Filled(old(raw[..]), minted)
    ensures out == Canonical(raw[..])
  {
    out := [];
    for i := 0 to raw.Length
      invariant forall k :: 0 <= k < raw.Length ==> raw[k] == if k < i then FilledCall(old(raw[k]), minted[k]) else old(raw[k])
      invariant out == Canonical(raw[..i])
    {
      var call := raw[i];
      var name := if call.topName != "" then call.topName else call.fnName;
      ghost var before := raw[..i];
      if !Blank(name) {
        var id := call.id;
        if Blank(id) {
          id := minted[i];
          raw[i] := call.(id := id);
        }
        out := out + [Call(id, name, call.args)];
      }
      assert raw[..i] == before;
      assert Front(raw[..i + 1]) == before && Last(raw[..i + 1]) == raw[i];
    }
    assert raw[..raw.Length] == raw[..];
  }

  /** How many of the first `i` entries have a name. */
  function Rank(calls: seq<RawCall>, i: nat): nat
    requires i <= |calls|
  {
    if i == 0 then 0 else Rank(calls, i - 1) + if calls[i - 1].Named() then 1 else 0
  }

  lemma {:induction false} RankPrefix(calls: seq<RawCall>, n: nat, i: nat)
    requires i <= n <= |calls|
    ensures Rank(calls[..n], i) == Rank(calls, i)
  {
    if i > 0 { RankPrefix(calls, n, i - 1); }
  }

  lemma {:induction false} RankGrows(calls: seq<RawCall>, i: nat, j: nat)
    requires i <= j <= |calls|
    ensures Rank(calls, i) <= Rank(calls, j)
    decreases j
  {
    if i < j { RankGrows(calls, i, j - 1); }
  }

  lemma RankLast(calls: seq<RawCall>)
    requires calls != []
    ensures Rank(calls, |calls|) == Rank(calls, |calls| - 1) + if Last(calls).Named() then 1 else 0
  {
  }

  /**
    Each entry with a name is, at its rank among those, a canonical call and an owed id with that
    entry's id, name and arguments; and there are no others.
  */
  lemma {:induction false} NamedAt(calls: seq<RawCall>, i: nat)
    requires i < |calls| && calls[i].Named()
    ensures |NamedIds(calls)| == |Canonical(calls)| == Rank(calls, |calls|) && Rank(calls, i) < Rank(calls, |calls|)
    ensures Canonical(calls)[Rank(calls, i)] == Call(calls[i].id, calls[i].Name(), calls[i].args)
    ensures NamedIds(calls)[Rank(calls, i)] == calls[i].id
    decreases |calls|
  {
    hide Rank;
    var n := |calls| - 1;
    NamedCount(calls);
    NamedCount(Front(calls));
    RankPrefix(calls, n, n);
    RankPrefix(calls, n, i);
    RankLast(calls);
    if i < n { NamedAt(Front(calls), i); }
  }

  lemma {:induction false} NamedCount(calls: seq<RawCall>)
    ensures |NamedIds(calls)| == |Canonical(calls)| == Rank(calls, |calls|)
    decreases |calls|
  {
    if calls != [] {
      NamedCount(Front(calls));
      RankPrefix(calls, |calls| - 1, |calls| - 1);
    }
  }

  /** Filling in ids moves nothing. */
  lemma {:induction false} RankFilled(calls: seq<RawCall>, minted: seq<string>, i: nat)
    requires |minted| == |calls| && i <= |calls|
    ensures Rank(Filled(calls, minted), i) == Rank(calls, i)
  {
    if i > 0 { RankFilled(calls, minted, i - 1); }
  }

  function ToolMessages(calls: seq<Call>, results: seq<string>): (r: seq<Message>)
    requires |results| == |calls|
    ensures |r| == |calls| && forall i :: 0 <= i < |r| ==> r[i] == Tool(calls[i].id, calls[i].name, results[i])
  {
    seq(|calls|, i requires 0 <= i < |calls| => Tool(calls[i].id, calls[i].name, results[i]))
  }

  lemma {:induction false} CanonicalIds(calls: seq<RawCall>)
    ensures |Canonical(calls)| == |NamedIds(calls)|
    ensures forall i :: 0 <= i < |Canonical(calls)| ==> Canonical(calls)[i].id == NamedIds(calls)[i]
    decreases |calls|
  {
    if calls != [] { CanonicalIds(Front(calls)); }
  }

  lemma {:induction false} AnswersScan(owed: seq<string>, tools: seq<Message>)
    requires |tools| <= |owed| && forall i :: 0 <= i < |tools| ==> tools[i].Tool? && tools[i].callId == owed[i]
    ensures Scan(owed, tools) == Some(owed[|tools|..])
    decreases |tools|
  {
    if tools != [] { AnswersScan(owed, Front(tools)); }
  }

  lemma FilledHaveIds(calls: seq<RawCall>, minted: seq<string>)
    requires |minted| == |calls| && MintedIds(minted)
    ensures CallsHaveIds(Filled(calls, minted))
  {
  }

  /** An assistant message and one result per extracted call form a complete group. */
  lemma AnsweredGroup(text: string, calls: seq<RawCall>, results: seq<string>)
    requires CallsHaveIds(calls) && |results| == |Canonical(calls)|
    ensures WellPaired([Assistant(text, calls)] + ToolMessages(Canonical(calls), results))
  {
    var head, tools := [Assistant(text, calls)], ToolMessages(Canonical(calls), results);
    CanonicalIds(calls);
    AssistantOwes(text, calls);
    AnswersScan(NamedIds(calls), tools);
    assert NamedIds(calls)[|tools|..] == [];
    ScanAppend([], head, tools);
  }

  lemma AssistantOwes(text: string, calls: seq<RawCall>)
    ensures Scan([], [Assistant(text, calls)]) == Some(NamedIds(calls))
  {
    assert Front([Assistant(text, calls)]) == [] && Scan([], []) == Some([]);
  }
}
