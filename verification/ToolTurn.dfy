/**
  The turn and its tool batches together: the batch of each reply is a run of both phases over the
  calls extracted from that reply, with its own consent prompts, cancel flags and interleavings.
*/
module ToolTurn {
  import opened Basics
  import opened Messages
  import opened Text
  import opened AgentLoop
  import B = ToolBatch
  import D = ToolDispatch

  /** The calls of a reply as the prepare phase gets them. */
  function CallsOf(turn: Turn): (r: seq<B.ToolCall>)
    requires turn.reply.Replies?
    ensures |r| == |Canonical(FilledReply(turn))|
  {
    var calls := Canonical(FilledReply(turn));
    seq(|calls|, i requires 0 <= i < |calls| => B.ToolCall(calls[i].id, calls[i].name, B.Encoded(calls[i].args)))
  }

  datatype Play = Play(setup: D.Setup, steps: seq<D.Step>) {
    function End(): D.World { D.Run(setup, steps) }
  }

  /** The batch of `turn` is what the run comes to: an exception, or the result of each task. */
  ghost predicate Plays(turn: Turn, play: Play)
    requires turn.reply.Replies?
  {
    && play.setup.calls == CallsOf(turn) && D.Over(play.End())
    && (turn.batch.Raises? <==> D.Raised(play.End()))
    && (turn.batch.Results? && play.End().phase.Executing? ==>
          (forall i :: 0 <= i < |CallsOf(turn)| && i < |play.End().phase.batch.tasks| ==>
             play.End().phase.batch.tasks[i] == B.Finished(turn.batch.of(i))))
  }

  /** Iteration `k` is reached and gets as far as running tools. */
  ghost predicate RunsTools(script: Script, k: nat) {
    GoesOn(script, k) && !script(k).cancelBefore && script(k).reply.Replies? && NamedIds(script(k).reply.calls) != []
  }

  ghost predicate Played(script: Script, plays: nat -> Play, n: nat) {
    forall k: nat :: k < n && RunsTools(script, k) ==> Plays(script(k), plays(k))
  }

  ghost predicate HasFatalCall(play: Play) { exists i :: 0 <= i < |play.setup.calls| && D.Fatal(play.setup, play.End(), i) }

  ghost predicate NoFatalCall(script: Script, plays: nat -> Play, n: nat) {
    forall k: nat :: k < n && RunsTools(script, k) ==> !HasFatalCall(plays(k))
  }

  lemma RaisesAsPlayed(script: Script, plays: nat -> Play, n: nat)
    requires Played(script, plays, n)
    ensures NoneRaises(script, n) <==> NoFatalCall(script, plays, n)
  {
    forall k: nat | k < n && GoesOn(script, k)
      ensures BatchRaises(script(k)) <==> RunsTools(script, k) && HasFatalCall(plays(k))
    {
      if RunsTools(script, k) {
        assert Plays(script(k), plays(k));
        D.RaisesExactly(plays(k).setup, plays(k).steps);
      }
    }
  }

  /**
    What a turn stores is paired exactly if every reply carried its ids and no call of a reply was
    of the kind an exception gets out of: arguments whose reading raises, arguments a prompt
    cannot copy, or arguments of a write tool that was let through which are no object.
  */
  lemma StoredIsPairedExactly(config: Config, input: Input, script: Script, plays: nat -> Play)
    requires MintsIds(script) && Played(script, plays, Budget(config))
    ensures Paired(Outcome(config, input, script).persisted)
      <==> AllGiven(script, Budget(config)) && NoFatalCall(script, plays, Budget(config))
  {
    RaisesAsPlayed(script, plays, Budget(config));
    AgentLoop.StoredIsPairedExactly(config, input, script);
  }

  /** And a turn is closed by exactly one event exactly if there is no such call, by none otherwise. */
  lemma TurnCloses(config: Config, input: Input, script: Script, plays: nat -> Play)
    requires Played(script, plays, Budget(config))
    ensures var events := Outcome(config, input, script).events;
      && events != [] && events[0] == TurnStart
      && |events| == (if NoFatalCall(script, plays, Budget(config)) then 2 else 1)
  {
    hide Outcome;
    RaisesAsPlayed(script, plays, Budget(config));
    AgentLoop.OneClosingEvent(config, input, script);
  }

  /** Entry `i` of a reply is, at its place among the named ones, the call its batch prepares. */
  lemma CallAtRank(turn: Turn, i: nat)
    requires turn.reply.Replies? && i < |turn.reply.calls| && turn.reply.calls[i].Named()
    ensures var call := turn.reply.calls[i]; var r := Rank(turn.reply.calls, i);
      r < |CallsOf(turn)| == Rank(turn.reply.calls, |turn.reply.calls|)
      && CallsOf(turn)[r] == B.ToolCall(if Blank(call.id) then turn.minted(i) else call.id, call.Name(), B.Encoded(call.args))
  {
    var calls, minted := turn.reply.calls, Take(|turn.reply.calls|, turn.minted);
    RankFilled(calls, minted, i);
    RankFilled(calls, minted, |calls|);
    NamedAt(Filled(calls, minted), i);
  }

  lemma BatchFinished(turn: Turn, play: Play, r: nat)
    requires turn.reply.Replies? && Plays(turn, play) && !HasFatalCall(play) && r < |CallsOf(turn)|
    ensures turn.batch.Results? && play.End().phase.Executing? && r < |play.End().phase.batch.tasks|
    ensures play.End().phase.batch.tasks[r] == B.Finished(turn.batch.of(r))
  {
    D.EveryRunOk(play.setup, play.steps);
    D.RaisesExactly(play.setup, play.steps);
  }

  /**
    From call to answer: for each named call of a reply whose batch is run and has no fatal call,
    the batch prepares that call, its task finishes, and the row stored for it, at its place behind
    the reply, is under its id and name and holds the result of that very task.
  */
  lemma AnswerComesFromItsTask(config: Config, input: Input, script: Script, plays: nat -> Play, k: nat, i: nat)
    requires Played(script, plays, Budget(config)) && k < Budget(config) && RunsTools(script, k) && !HasFatalCall(plays(k))
    requires i < |script(k).reply.calls| && script(k).reply.calls[i].Named()
    ensures var calls := script(k).reply.calls;
      var r, at := Rank(calls, i), StoredBefore(script, k) + 1 + Rank(calls, i);
      var id := if Blank(calls[i].id) then script(k).minted(i) else calls[i].id;
      var end, rows := plays(k).End(), Outcome(config, input, script).persisted;
      && r < |plays(k).setup.calls| && plays(k).setup.calls[r] == B.ToolCall(id, calls[i].Name(), B.Encoded(calls[i].args))
      && end.phase.Executing? && r < |end.phase.batch.tasks| && end.phase.batch.tasks[r].Finished?
      && at < |rows| && rows[at] == Tool(id, calls[i].Name(), end.phase.batch.tasks[r].result)
  {
    hide Outcome, HasFatalCall, GoesOn, Rank, CallsOf, Plays;
    var turn := script(k);
    assert Plays(turn, plays(k));
    CallAtRank(turn, i);
    SetupIsCalls(turn, plays(k));
    BatchFinished(turn, plays(k), Rank(turn.reply.calls, i));
    StoredRowByRow(config, input, script, k);
  }

  lemma SetupIsCalls(turn: Turn, play: Play)
    requires turn.reply.Replies? && Plays(turn, play)
    ensures play.setup.calls == CallsOf(turn)
  {
  }

  /** A call of `write_file` with the arguments `[]`: read without complaint, let through, and fatal. */
  lemma ArrayArgumentsRaise(s: D.Setup, steps: seq<D.Step>)
    requires s.calls == [B.ToolCall("a", "write_file", B.Encoded("[]"))]
    requires !s.blank("[]") && s.reader("[]") == B.Value(B.Array([]))
    requires s.gates(0) == D.Gates(B.OtherRule, false, false, false, false)
    requires D.Over(D.Run(s, steps)) && D.Run(s, steps).cancelled == {}
    ensures D.Raised(D.Run(s, steps)) && D.LetThrough(s, D.Run(s, steps), 0)
  {
    assert D.ReadOf(s, 0) == B.Value(B.Array([]));
    assert D.Fatal(s, D.Run(s, steps), 0);
    D.RaisesExactly(s, steps);
  }

  /** A turn whose only reply makes that call: it stores a call without an answer, and no event closes it. */
  lemma ArrayArgumentsEndTheTurn(play: Play, batch: Batch)
    requires play.setup.calls == [B.ToolCall("a", "write_file", B.Encoded("[]"))]
    requires !play.setup.blank("[]") && play.setup.reader("[]") == B.Value(B.Array([]))
    requires play.setup.gates(0) == D.Gates(B.OtherRule, false, false, false, false)
    requires play.End().cancelled == {} && Plays(OneCall(RawCall("a", "write_file", "", "[]"), batch), play)
    ensures var script: Script := k => OneCall(RawCall("a", "write_file", "", "[]"), batch);
      var st := Outcome(Config("", 1, 0, 0, None), Input([], 0, "hi"), script);
      AllGiven(script, 1) && st.ending == Raised && !Paired(st.persisted) && st.events == [TurnStart]
  {
    ArrayArgumentsRaise(play.setup, play.steps);
    assert "write_file"[0] == 'w' && "a"[0] == 'a';
    StoredUnanswered(RawCall("a", "write_file", "", "[]"));
  }

  /** Such runs there are: the call arrives uncancelled, is prepared, and its task crashes. */
  lemma ArrayArgumentsRun(s: D.Setup)
    requires s.calls == [B.ToolCall("a", "write_file", B.Encoded("[]"))]
    requires !s.blank("[]") && s.reader("[]") == B.Value(B.Array([]))
    requires s.gates(0) == D.Gates(B.OtherRule, false, false, false, false)
    ensures var steps := [D.Prepare(false), D.Prepare(false), D.Execute(B.Start)];
      D.Over(D.Run(s, steps)) && D.Run(s, steps).cancelled == {} && D.Raised(D.Run(s, steps))
  {
    var one, two, three := [D.Prepare(false)], [D.Prepare(false), D.Prepare(false)], [D.Prepare(false), D.Prepare(false), D.Execute(B.Start)];
    assert Front(one) == [] && Front(two) == one && Front(three) == two;
    assert D.Run(s, []) == D.Init();
    var args := B.Array([]);
    assert D.ReadOf(s, 0) == B.Value(args);
    assert D.Run(s, one).prepared == [B.Ready("write_file", args)];
    assert D.Run(s, two).phase == D.Executing(B.Init(D.Jobs(s, [B.Ready("write_file", args)]), s.files));
    assert D.Run(s, three).phase.batch.tasks == [B.Raised] && D.Run(s, three).phase.batch.tasks[0].Raised?;
  }
}
