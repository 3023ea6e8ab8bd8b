/** What every run of the agent loop keeps, whatever the environment does. */
module AgentRuns {
  import opened Text
  import opened AgentTypes
  import opened AgentSpec
  import opened AgentPhases

  /** A reply ends in an assistant message, and its stream starts at most once before it finishes. */
  predicate TurnOk(turn: Turn) {
    turn.final.Assistant? && Starts(UpToFinish(turn.stream)) <= 1
  }

  ghost predicate ScriptOk(script: seq<Turn>) {
    forall k :: 0 <= k < |script| ==> TurnOk(script[k])
  }

  lemma ScriptTail(script: seq<Turn>)
    requires script != [] && ScriptOk(script)
    ensures TurnOk(script[0]) && ScriptOk(script[1..])
  {}

  // ----- The parts of a turn -----

  /** The events of a reply and its tool calls, and the messages they end. */
  function TurnEvents(l: Loop, mode: ToolMode, tools: seq<string>, turn: Turn): (seq<Event>, seq<Message>) {
    var reply := StreamReply(l.context, turn.stream, turn.final);
    if EndsRun(turn.final) then (reply.events, [turn.final])
    else
      var phase := ExecuteToolCalls(mode, tools, CallsOf(turn.final), turn.calls);
      (reply.events + phase.events, [turn.final] + phase.results)
  }

  function TurnResults(mode: ToolMode, tools: seq<string>, turn: Turn): seq<Message> {
    if EndsRun(turn.final) then [] else ExecuteToolCalls(mode, tools, CallsOf(turn.final), turn.calls).results
  }

  lemma TurnInner(l: Loop, mode: ToolMode, tools: seq<string>, turn: Turn)
    requires TurnOk(turn)
    ensures
      var (events, ended) := TurnEvents(l, mode, tools, turn);
      Inner(IN_TURN, events, IN_TURN, ended)
    ensures TurnEvents(l, mode, tools, turn).1 == [turn.final] + TurnResults(mode, tools, turn)
  {
    ReplyAddsFinal(l.context, turn.stream, turn.final);
    if !EndsRun(turn.final) {
      ToolPhaseInner(mode, tools, CallsOf(turn.final), turn.calls);
      var reply := StreamReply(l.context, turn.stream, turn.final);
      var phase := ExecuteToolCalls(mode, tools, CallsOf(turn.final), turn.calls);
      InnerConcat(IN_TURN, reply.events, IN_TURN, [turn.final], phase.events, IN_TURN, phase.results);
    }
  }

  /** The loop after some events, which ended some messages. */
  function Added(l: Loop, events: seq<Event>, ended: seq<Message>): Loop {
    l.(context := l.context + ended, newMessages := l.newMessages + ended, events := l.events + events)
  }

  lemma AddedTwice(l: Loop, e: seq<Event>, m: seq<Message>, e': seq<Event>, m': seq<Message>)
    ensures Added(Added(l, e, m), e', m') == Added(l, e + e', m + m')
  {
    assert l.events + e + e' == l.events + (e + e');
    assert l.context + m + m' == l.context + (m + m');
    assert l.newMessages + m + m' == l.newMessages + (m + m');
  }

  lemma ReplyAdds(l: Loop, turn: Turn)
    requires TurnOk(turn)
    ensures TakeReply(l, turn) == Added(l, StreamReply(l.context, turn.stream, turn.final).events, [turn.final])
  {
    ReplyAddsFinal(l.context, turn.stream, turn.final);
  }

  /** A turn adds its reply and its tool results to both message lists, and its events, and then ends. */
  lemma TurnAdds(l: Loop, mode: ToolMode, tools: seq<string>, turn: Turn)
    requires TurnOk(turn)
    ensures
      var (events, ended) := TurnEvents(l, mode, tools, turn);
      TakeTurn(l, mode, tools, turn) == EndTurn(Added(l, events, ended), turn.final, TurnResults(mode, tools, turn))
  {
    ReplyAdds(l, turn);
    if !EndsRun(turn.final) {
      var reply := StreamReply(l.context, turn.stream, turn.final);
      var phase := ExecuteToolCalls(mode, tools, CallsOf(turn.final), turn.calls);
      AddedTwice(l, reply.events, [turn.final], phase.events, phase.results);
    }
  }

  function BeginEvents(l: Loop, first: bool): seq<Event> {
    if first then Announce(l.pending) else [TurnStart] + Announce(l.pending)
  }

  lemma BeginAdds(l: Loop, first: bool)
    ensures
      BeginTurn(l, first) == l.(
        context := l.context + l.pending, newMessages := l.newMessages + l.pending, pending := [],
        events := l.events + BeginEvents(l, first), injected := l.injected + [Poll(l.from, l.pending)],
        requests := l.requests + [l.context + l.pending])
  {
    assert l.events + [TurnStart] + Announce(l.pending) == l.events + ([TurnStart] + Announce(l.pending));
  }

  /** Polling touches neither the messages of the loop nor what is recorded of its turns. */
  lemma PollsOnly(l: Loop, turn: Turn)
    ensures
      var next := AfterTurn(l, turn).0;
      && next.context == l.context && next.newMessages == l.newMessages && next.events == l.events
      && next.injected == l.injected && next.requests == l.requests && next.snapshots == l.snapshots
  {}

  // ----- The event grammar -----

  function BeforeTurn(first: bool): Phase { if first then IN_TURN else BETWEEN }

  lemma BeginGrammar(l: Loop, first: bool)
    requires AdvanceAll(Before, l.events) == BeforeTurn(first)
    ensures AdvanceAll(Before, BeginTurn(l, first).events) == IN_TURN
  {
    BeginAdds(l, first);
    AnnounceInner(l.pending);
    AdvanceConcat(Before, l.events, BeginEvents(l, first));
    if !first {
      AdvanceOne(BETWEEN, TurnStart);
      AdvanceConcat(BETWEEN, [TurnStart], Announce(l.pending));
    }
  }

  lemma AdvanceOne(g: Phase, e: Event)
    ensures AdvanceAll(g, [e]) == Advance(g, e)
  {
    assert [e][..0] == [];
    assert AdvanceAll(g, []) == g;
  }

  lemma TurnGrammar(l: Loop, mode: ToolMode, tools: seq<string>, turn: Turn)
    requires TurnOk(turn) && AdvanceAll(Before, l.events) == IN_TURN
    ensures AdvanceAll(Before, TakeTurn(l, mode, tools, turn).events) == BETWEEN
  {
    var events := TurnEvents(l, mode, tools, turn).0;
    var end := TurnEnd(turn.final, TurnResults(mode, tools, turn));
    TurnAdds(l, mode, tools, turn);
    TurnInner(l, mode, tools, turn);
    AdvanceConcat(Before, l.events, events);
    AdvanceConcat(Before, l.events + events, [end]);
    AdvanceOne(IN_TURN, end);
  }

  lemma CloseGrammar(l: Loop)
    requires AdvanceAll(Before, l.events) == BETWEEN
    ensures AdvanceAll(Before, Close(l).events) == After
  {
    AdvanceConcat(Before, l.events, [AgentEnd(l.newMessages)]);
    AdvanceOne(BETWEEN, AgentEnd(l.newMessages));
  }

  /** Every run's events are in the grammar; a run that no exception cuts short ends with exactly one agent end. */
  lemma {:induction false} RunGrammar(l: Loop, first: bool, mode: ToolMode, tools: seq<string>, script: seq<Turn>)
    requires ScriptOk(script) && AdvanceAll(Before, l.events) == BeforeTurn(first)
    ensures
      var (r, ending) := RunTurns(l, first, mode, tools, script);
      AdvanceAll(Before, r.events) == if ending == Thrown then IN_TURN else After
    decreases |script|
  {
    BeginGrammar(l, first);
    if script != [] {
      ScriptTail(script);
      var begun := BeginTurn(l, first);
      var taken := TakeTurn(begun, mode, tools, script[0]);
      TurnGrammar(begun, mode, tools, script[0]);
      if EndsRun(script[0].final) {
        CloseGrammar(taken);
      } else {
        var (next, again) := AfterTurn(taken, script[0]);
        PollsOnly(taken, script[0]);
        if again {
          RunGrammar(next, false, mode, tools, script[1..]);
        } else {
          CloseGrammar(next);
        }
      }
    }
  }

  // ----- The two transcripts -----

  /** The loop's two lists and the messages ended agree. */
  ghost predicate Agree(l: Loop, start: seq<Message>) {
    l.context == start + l.newMessages && Ended(l.events) == l.newMessages
  }

  /** A recorded turn end: a turn-end event stands there, and the messages ended up to it are the loop's. */
  ghost predicate SnapshotOk(events: seq<Event>, s: Snapshot, start: seq<Message>) {
    && 0 < s.at <= |events| && events[s.at - 1].TurnEnd?
    && s.context == start + s.newMessages && Ended(events[..s.at]) == s.newMessages
  }

  ghost predicate Recorded(snapshots: seq<Snapshot>, at: nat) {
    exists n :: 0 <= n < |snapshots| && snapshots[n].at == at
  }

  /** The snapshots are right, and there is one for every turn end. */
  ghost predicate SnapshotsOk(events: seq<Event>, snapshots: seq<Snapshot>, start: seq<Message>) {
    && (forall n {:trigger SnapshotOk(events, snapshots[n], start)} :: 0 <= n < |snapshots| ==>
          SnapshotOk(events, snapshots[n], start))
    && (forall k {:trigger Recorded(snapshots, k + 1)} :: 0 <= k < |events| && events[k].TurnEnd? ==>
          Recorded(snapshots, k + 1))
  }

  lemma SnapshotsExtend(events: seq<Event>, snapshots: seq<Snapshot>, more: seq<Event>, start: seq<Message>)
    requires SnapshotsOk(events, snapshots, start) && forall k :: 0 <= k < |more| ==> !more[k].TurnEnd?
    ensures SnapshotsOk(events + more, snapshots, start)
  {
    var all := events + more;
    forall n | 0 <= n < |snapshots|
      ensures SnapshotOk(all, snapshots[n], start)
    {
      assert SnapshotOk(events, snapshots[n], start);
      assert all[..snapshots[n].at] == events[..snapshots[n].at];
    }
    assert forall k :: |events| <= k < |all| ==> all[k] == more[k - |events|];
    forall k | 0 <= k < |all| && all[k].TurnEnd?
      ensures Recorded(snapshots, k + 1)
    {
      assert k < |events| && events[k] == all[k];
    }
  }

  lemma SnapshotTaken(events: seq<Event>, snapshots: seq<Snapshot>, end: Event, s: Snapshot, start: seq<Message>)
    requires SnapshotsOk(events, snapshots, start) && end.TurnEnd? && s.at == |events| + 1
    requires s.context == start + s.newMessages && Ended(events) == s.newMessages
    ensures SnapshotsOk(events + [end], snapshots + [s], start) && Ended(events + [end]) == Ended(events)
  {
    var all, taken := events + [end], snapshots + [s];
    assert all[..s.at] == all && all[..|all| - 1] == events;
    assert Ended(all) == Ended(events) + [];
    forall n | 0 <= n < |taken|
      ensures SnapshotOk(all, taken[n], start)
    {
      if n < |snapshots| {
        assert SnapshotOk(events, snapshots[n], start);
        assert all[..taken[n].at] == events[..taken[n].at];
      }
    }
    forall k | 0 <= k < |all| && all[k].TurnEnd?
      ensures Recorded(taken, k + 1)
    {
      if k < |events| {
        assert Recorded(snapshots, k + 1);
        var n :| 0 <= n < |snapshots| && snapshots[n].at == k + 1;
        assert taken[n].at == k + 1;
      } else {
        assert taken[|snapshots|].at == k + 1;
      }
    }
  }

  ghost predicate TranscriptOk(l: Loop, start: seq<Message>) {
    Agree(l, start) && SnapshotsOk(l.events, l.snapshots, start)
  }

  lemma AddInner(l: Loop, events: seq<Event>, ended: seq<Message>, start: seq<Message>)
    requires TranscriptOk(l, start) && Ended(events) == ended && forall k :: 0 <= k < |events| ==> !events[k].TurnEnd?
    ensures TranscriptOk(Added(l, events, ended), start)
  {
    SnapshotsExtend(l.events, l.snapshots, events, start);
    EndedConcat(l.events, events);
    assert start + l.newMessages + ended == start + (l.newMessages + ended);
  }

  lemma AddTurnEnd(l: Loop, m: Message, results: seq<Message>, start: seq<Message>)
    requires TranscriptOk(l, start)
    ensures TranscriptOk(EndTurn(l, m, results), start)
  {
    SnapshotTaken(l.events, l.snapshots, TurnEnd(m, results), Snapshot(|l.events| + 1, l.context, l.newMessages),
                  start);
  }

  lemma BeginTranscript(l: Loop, first: bool, start: seq<Message>)
    requires TranscriptOk(l, start)
    ensures TranscriptOk(BeginTurn(l, first), start)
  {
    BeginAdds(l, first);
    BeginEnded(l, first);
    AddInner(l, BeginEvents(l, first), l.pending, start);
  }

  lemma BeginEnded(l: Loop, first: bool)
    ensures Ended(BeginEvents(l, first)) == l.pending
    ensures forall k :: 0 <= k < |BeginEvents(l, first)| ==> !BeginEvents(l, first)[k].TurnEnd?
  {
    AnnounceInner(l.pending);
    EndedAfter(TurnStart, Announce(l.pending));
  }

  lemma EndedOne(e: Event)
    requires !e.MessageEnd?
    ensures Ended([e]) == []
  {
    assert [e][..0] == [];
    assert Ended([e]) == Ended([]) + [];
  }

  lemma EndedAfter(e: Event, events: seq<Event>)
    requires !e.MessageEnd?
    ensures Ended([e] + events) == Ended(events)
  {
    EndedConcat([e], events);
    EndedOne(e);
    assert [] + Ended(events) == Ended(events);
  }

  lemma TurnTranscript(l: Loop, mode: ToolMode, tools: seq<string>, turn: Turn, start: seq<Message>)
    requires TurnOk(turn) && TranscriptOk(l, start)
    ensures TranscriptOk(TakeTurn(l, mode, tools, turn), start)
  {
    var (events, ended) := TurnEvents(l, mode, tools, turn);
    TurnAdds(l, mode, tools, turn);
    TurnInner(l, mode, tools, turn);
    AddInner(l, events, ended, start);
    AddTurnEnd(Added(l, events, ended), turn.final, TurnResults(mode, tools, turn), start);
  }

  lemma CloseTranscript(l: Loop, start: seq<Message>)
    requires TranscriptOk(l, start)
    ensures TranscriptOk(Close(l), start)
  {
    var end := AgentEnd(l.newMessages);
    assert [end][..0] == [] && Ended([end]) == [] + [];
    AddInner(l, [end], [], start);
    assert l.context + [] == l.context && l.newMessages + [] == l.newMessages;
  }

  lemma {:induction false} RunTranscript(l: Loop, first: bool, mode: ToolMode, tools: seq<string>, script: seq<Turn>,
                                         start: seq<Message>)
    requires ScriptOk(script) && TranscriptOk(l, start)
    ensures TranscriptOk(RunTurns(l, first, mode, tools, script).0, start)
    decreases |script|
  {
    BeginTranscript(l, first, start);
    if script != [] {
      ScriptTail(script);
      var begun := BeginTurn(l, first);
      var taken := TakeTurn(begun, mode, tools, script[0]);
      TurnTranscript(begun, mode, tools, script[0], start);
      if EndsRun(script[0].final) {
        CloseTranscript(taken, start);
      } else {
        var (next, again) := AfterTurn(taken, script[0]);
        PollsOnly(taken, script[0]);
        if again {
          RunTranscript(next, false, mode, tools, script[1..], start);
        } else {
          CloseTranscript(next, start);
        }
      }
    }
  }
}
