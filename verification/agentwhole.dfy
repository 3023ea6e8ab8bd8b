/** Whole runs of the agent loop, from a prompt or from the transcript. */
module AgentWholeRuns {
  import opened Text
  import opened AgentTypes
  import opened AgentSpec
  import opened AgentPhases
  import opened AgentRuns
  import opened AgentConversation
  import opened AgentQueues
  import opened AgentBounds
  import opened AgentToolEvents

  /** The loop as a run finds it: in its first turn, with the prompts in both message lists and nothing polled yet. */
  ghost predicate AtStart(l: Loop, start: seq<Message>) {
    && l.context == start + l.newMessages && l.pending == [] && l.arrived == NOTHING
    && l.polls == [] && l.requests == [] && l.snapshots == []
    && AdvanceAll(Before, l.events) == IN_TURN && Ended(l.events) == l.newMessages
    && TurnStarts(l.events) == 1
    && (forall k :: 0 <= k < |l.events| ==> !l.events[k].TurnEnd?)
    && TurnToolStarts(l.events) == [] && TurnToolEnds(l.events) == []
    && |l.injected| == 1 && l.injected[0].messages == l.newMessages
  }

  lemma {:induction false} AnnouncedOnly(messages: seq<Message>)
    ensures forall k :: 0 <= k < |Announce(messages)| ==> IsInner(Announce(messages)[k])
    ensures TurnStarts(Announce(messages)) == 0
  {
    AnnounceInner(messages);
    NoTurns(Announce(messages));
  }

  lemma OpeningEvents(messages: seq<Message>)
    ensures
      var events := [AgentStart, TurnStart] + Announce(messages);
      && AdvanceAll(Before, events) == IN_TURN && Ended(events) == messages && TurnStarts(events) == 1
      && TurnToolStarts(events) == [] && TurnToolEnds(events) == []
      && forall k :: 0 <= k < |events| ==> !events[k].TurnEnd?
  {
    var opening := [AgentStart, TurnStart];
    OpeningQuiet(messages);
    AnnounceInner(messages);
    AnnouncedOnly(messages);
    OpeningPair();
    AdvanceConcat(Before, opening, Announce(messages));
    EndedConcat(opening, Announce(messages));
    TurnsConcat(opening, Announce(messages));
    assert [] + messages == messages;
  }

  lemma OpeningQuiet(messages: seq<Message>)
    ensures
      var events := [AgentStart, TurnStart] + Announce(messages);
      TurnToolStarts(events) == [] && TurnToolEnds(events) == []
  {
    TurnOpens([AgentStart]);
    assert [AgentStart] + [TurnStart] == [AgentStart, TurnStart];
    AnnounceToolless(messages);
    QuietGrows([AgentStart, TurnStart], Announce(messages));
  }

  lemma OpeningPair()
    ensures AdvanceAll(Before, [AgentStart, TurnStart]) == IN_TURN
    ensures Ended([AgentStart, TurnStart]) == [] && TurnStarts([AgentStart, TurnStart]) == 1
  {
    var one := [AgentStart];
    assert AdvanceAll(Before, one + [TurnStart]) == IN_TURN by {
      AdvanceOne(Before, AgentStart);
      AdvanceOne(BETWEEN, TurnStart);
      AdvanceConcat(Before, one, [TurnStart]);
    }
    assert Ended(one + [TurnStart]) == [] by {
      EndedOne(AgentStart);
      EndedOne(TurnStart);
      EndedConcat(one, [TurnStart]);
    }
    assert TurnStarts(one + [TurnStart]) == 1 by {
      NoTurns(one);
      TurnsAppend(one, TurnStart);
    }
    assert one + [TurnStart] == [AgentStart, TurnStart];
  }

  /** Both kinds of run start so. */
  lemma RunsStart(context: seq<Message>, prompts: seq<Message>, from: Source, steering: Queue, followUp: Queue,
                  skipPoll: bool)
    ensures AtStart(StartPrompts(context, prompts, from, steering, followUp, skipPoll), context)
    ensures AtStart(StartContinue(context, steering, followUp), context)
  {
    OpeningEvents(prompts);
    OpeningEvents([]);
    assert [AgentStart, TurnStart] + Announce([]) == [AgentStart, TurnStart];
    assert context + [] == context;
  }

  function First(l: Loop, initial: Arrivals): Loop { PollSteering(Arrive(l, initial)) }

  lemma FirstPoll(l: Loop, initial: Arrivals)
    ensures
      var f := First(l, initial);
      && f.context == l.context && f.newMessages == l.newMessages && f.events == l.events
      && f.injected == l.injected && f.requests == l.requests && f.snapshots == l.snapshots && !f.skipPoll
  {}

  /** The events of every run are in the grammar, with exactly one agent end, at the very end, unless the model call
      throws. */
  lemma WholeGrammar(l: Loop, initial: Arrivals, mode: ToolMode, tools: seq<string>, script: seq<Turn>,
                     start: seq<Message>)
    requires AtStart(l, start) && ScriptOk(script)
    ensures
      var (r, ending) := RunLoop(l, initial, mode, tools, script);
      AdvanceAll(Before, r.events) == if ending == Thrown then IN_TURN else After
  {
    FirstPoll(l, initial);
    RunGrammar(First(l, initial), true, mode, tools, script);
  }

  /** At every turn end of every run the calls of the reply have been started each once since the turn's start, in
      source order, and ended each once, in the order of the results, each after its start. */
  lemma WholeTools(l: Loop, initial: Arrivals, mode: ToolMode, tools: seq<string>, script: seq<Turn>,
                   start: seq<Message>)
    requires AtStart(l, start) && ScriptOk(script)
    ensures
      var events := RunLoop(l, initial, mode, tools, script).0.events;
      && AllTurnToolsOk(events)
      && forall k: nat, id {:trigger EndedBy(events, k, id)} :: k <= |events| ==> EndedBy(events, k, id)
  {
    var events := RunLoop(l, initial, mode, tools, script).0.events;
    FirstPoll(l, initial);
    RunTooled(First(l, initial), true, mode, tools, script);
    WholeGrammar(l, initial, mode, tools, script, start);
    forall k: nat, id | k <= |events|
      ensures EndedBy(events, k, id)
    {
      EndsFollowStarts(events, k, id);
    }
  }

  /** The turn has ended the call `id` at most as often as it has started it. */
  predicate EndedBy(events: seq<Event>, k: nat, id: string)
    requires k <= |events|
  {
    multiset(TurnToolEnds(events[..k]))[id] <= multiset(TurnToolStarts(events[..k]))[id]
  }

  lemma WholeTranscript(l: Loop, initial: Arrivals, mode: ToolMode, tools: seq<string>, script: seq<Turn>,
                        start: seq<Message>)
    requires AtStart(l, start) && ScriptOk(script)
    ensures TranscriptOk(RunLoop(l, initial, mode, tools, script).0, start)
  {
    FirstPoll(l, initial);
    assert TranscriptOk(First(l, initial), start);
    RunTranscript(First(l, initial), true, mode, tools, script, start);
  }

  /** At every turn end of every run the agent's transcript, reduced from the events alone, is the loop's transcript,
      which is the starting one and the new messages; and no call is pending then. */
  lemma TranscriptsAgree(st: AgentState, l: Loop, initial: Arrivals, mode: ToolMode, tools: seq<string>,
                         script: seq<Turn>, k: nat) returns (n: nat)
    requires AtStart(l, st.messages) && ScriptOk(script)
    requires st.pendingToolCalls == {} && st.streamingMessage == None
    requires k < |RunLoop(l, initial, mode, tools, script).0.events|
    requires RunLoop(l, initial, mode, tools, script).0.events[k].TurnEnd?
    ensures
      var r := RunLoop(l, initial, mode, tools, script).0;
      var reduced := ReduceAll(st, r.events[..k + 1]);
      && n < |r.snapshots| && r.snapshots[n].at == k + 1
      && reduced.messages == r.snapshots[n].context == st.messages + r.snapshots[n].newMessages
      && reduced.pendingToolCalls == {} && reduced.streamingMessage == None
  {
    var r := RunLoop(l, initial, mode, tools, script).0;
    WholeTranscript(l, initial, mode, tools, script, st.messages);
    WholeGrammar(l, initial, mode, tools, script, st.messages);
    n := SnapshotFor(st, r.events, r.snapshots, k);
    TurnEndIsQuiet(st, r.events, k);
  }

  lemma SnapshotFor(st: AgentState, events: seq<Event>, snapshots: seq<Snapshot>, k: nat) returns (n: nat)
    requires SnapshotsOk(events, snapshots, st.messages) && k < |events| && events[k].TurnEnd?
    ensures n < |snapshots| && snapshots[n].at == k + 1
    ensures
      ReduceAll(st, events[..k + 1]).messages == snapshots[n].context == st.messages + snapshots[n].newMessages
  {
    assert Recorded(snapshots, k + 1);
    n :| 0 <= n < |snapshots| && snapshots[n].at == k + 1;
    assert SnapshotOk(events, snapshots[n], st.messages);
    ReducedMessages(st, events[..k + 1]);
  }

  /** After every run the agent's transcript is the loop's. */
  lemma FinalTranscriptsAgree(st: AgentState, l: Loop, initial: Arrivals, mode: ToolMode, tools: seq<string>,
                              script: seq<Turn>)
    requires AtStart(l, st.messages) && ScriptOk(script)
    ensures
      var r := RunLoop(l, initial, mode, tools, script).0;
      ReduceAll(st, r.events).messages == r.context == st.messages + r.newMessages
  {
    WholeTranscript(l, initial, mode, tools, script, st.messages);
    ReducedMessages(st, RunLoop(l, initial, mode, tools, script).0.events);
  }

  /** From a well-formed conversation and plain messages, every request of every run is well-formed. */
  lemma WholeTalk(l: Loop, initial: Arrivals, mode: ToolMode, tools: seq<string>, script: seq<Turn>,
                  start: seq<Message>)
    requires AtStart(l, start) && ScriptOk(script) && PlainScript(script) && PlainArrivals(initial)
    requires WellFormed(start) && AllPlain(l.newMessages) && PlainQueues(l)
    ensures var (r, ending) := RunLoop(l, initial, mode, tools, script); TalkEnds(r, ending)
  {
    OwePlain(l.newMessages);
    OweConcat(CLEAR, start, l.newMessages);
    ArriveTalk(l, initial);
    PollTalk(Arrive(l, initial));
    RunTalk(First(l, initial), true, mode, tools, script);
  }

  lemma WholeBound(l: Loop, initial: Arrivals, mode: ToolMode, tools: seq<string>, script: seq<Turn>,
                   start: seq<Message>)
    requires AtStart(l, start) && ScriptOk(script)
    ensures
      var r := RunLoop(l, initial, mode, tools, script).0;
      TurnStarts(r.events) <= 1 + CallTurns(r.events) + Drained(r.polls)
  {
    FirstPoll(l, initial);
    RunIsBounded(First(l, initial), true, mode, tools, script);
  }

  /** A run ends of itself when it has one reply more than replies with tool calls and messages to drain. */
  lemma WholeEnds(l: Loop, initial: Arrivals, mode: ToolMode, tools: seq<string>, script: seq<Turn>)
    requires Measure(l, script) + |initial.steering| + |initial.followUp| < |script|
    ensures RunLoop(l, initial, mode, tools, script).1 != Thrown
  {
    DrainSplits(Arrive(l, initial).steering);
    RunEnds(First(l, initial), true, mode, tools, script);
  }

  lemma WholeWeave(l: Loop, initial: Arrivals, mode: ToolMode, tools: seq<string>, script: seq<Turn>,
                   start: seq<Message>)
    requires AtStart(l, start) && ScriptOk(script)
    ensures
      var r := RunLoop(l, initial, mode, tools, script).0;
      r.newMessages == Weave(r.injected, Replies(r.events))
  {
    FirstPoll(l, initial);
    NoReplies(l.events);
    assert l.injected[..0] == [] && Weave([], []) == [];
    assert [] + l.newMessages == l.newMessages;
    RunWeaves(First(l, initial), true, mode, tools, script);
  }

  /** What a run injects from a queue, and what it leaves in it, is what it started with and what arrived. */
  ghost predicate Conserves(l: Loop, r: Loop) {
    && From(r.injected, Steering) + r.steering.messages
       == From(l.injected, Steering) + (l.steering.messages + r.arrived.steering)
    && From(r.injected, FollowUp) + r.followUp.messages
       == From(l.injected, FollowUp) + (l.followUp.messages + r.arrived.followUp)
  }

  lemma WholeConserves(l: Loop, initial: Arrivals, mode: ToolMode, tools: seq<string>, script: seq<Turn>,
                       start: seq<Message>)
    requires AtStart(l, start)
    ensures Conserves(l, RunLoop(l, initial, mode, tools, script).0)
  {
    var before := Arrivals(l.steering.messages, l.followUp.messages);
    var steering, followUp := From(l.injected, Steering), From(l.injected, FollowUp);
    NothingPolled(l, before);
    ArriveKeeps(l, initial, before);
    PollsKeep(Arrive(l, initial), before);
    PollsAccount(Arrive(l, initial), Steering, steering);
    PollsAccount(Arrive(l, initial), FollowUp, followUp);
    RunConserves(First(l, initial), true, mode, tools, script, before, steering, followUp);
    var r := RunLoop(l, initial, mode, tools, script).0;
    Assoc(steering, From(r.polls, Steering), r.steering.messages);
    Assoc(followUp, From(r.polls, FollowUp), r.followUp.messages);
  }

  lemma NothingPolled(l: Loop, before: Arrivals)
    requires l.polls == [] && l.pending == [] && l.arrived == NOTHING
    requires before == Arrivals(l.steering.messages, l.followUp.messages)
    ensures QueuesKept(l, before) && BothAccounted(l, From(l.injected, Steering), From(l.injected, FollowUp))
  {
    assert before.steering + [] == before.steering && before.followUp + [] == before.followUp;
    assert [] + l.steering.messages == l.steering.messages && [] + l.followUp.messages == l.followUp.messages;
  }

  /** A run that completes has just found both queues empty. */
  lemma WholeCompletes(l: Loop, initial: Arrivals, mode: ToolMode, tools: seq<string>, script: seq<Turn>)
    returns (n: nat)
    requires l.snapshots == [] && RunLoop(l, initial, mode, tools, script).1 == Completed
    ensures 0 < n <= |script| && |RunLoop(l, initial, mode, tools, script).0.snapshots| == n
    ensures Settled(RunLoop(l, initial, mode, tools, script).0, script[n - 1])
  {
    FirstPoll(l, initial);
    n := RunCompletes(First(l, initial), true, mode, tools, script);
  }

  // ----- A run that leaves steering behind -----

  /** One reply without calls, and a steering message that comes between the two polls after it. */
  function LateSteering(reply: string, late: Message): seq<Turn> {
    [Turn([], Assistant([TextBlock(reply)], Stop, None), [], NOTHING, Arrivals([late], []))]
  }

  /** The run completes, and the message stays queued. */
  lemma LateSteeringStays(context: seq<Message>, prompts: seq<Message>, reply: string, late: Message, mode: ToolMode,
                          tools: seq<string>)
    ensures
      var l := StartPrompts(context, prompts, Prompt, Queue(All, []), Queue(All, []), false);
      var (r, ending) := RunLoop(l, NOTHING, mode, tools, LateSteering(reply, late));
      ending == Completed && r.steering.messages == [late]
  {
    var l := StartPrompts(context, prompts, Prompt, Queue(All, []), Queue(All, []), false);
    var script := LateSteering(reply, late);
    assert [TextBlock(reply)][..0] == [] && Calls([]) == [];
    OneReplyCompletes(l, mode, tools, script);
    var n := WholeCompletes(l, NOTHING, mode, tools, script);
    assert n == 1;
  }

  lemma OneReplyCompletes(l: Loop, mode: ToolMode, tools: seq<string>, script: seq<Turn>)
    requires |script| == 1 && !EndsRun(script[0].final) && CallsOf(script[0].final) == []
    requires l.steering.messages == l.followUp.messages == [] && !l.skipPoll
    requires script[0].beforeSteering == NOTHING && script[0].beforeFollowUp.followUp == []
    ensures RunLoop(l, NOTHING, mode, tools, script).1 == Completed
  {
    var first := First(l, NOTHING);
    DrainSplits(Arrive(l, NOTHING).steering);
    TurnOnly(first, true, mode, tools, script[0]);
    var taken := TakeTurn(BeginTurn(first, true), mode, tools, script[0]);
    var polled := PollSteering(Arrive(taken, NOTHING));
    DrainSplits(Arrive(taken, NOTHING).steering);
    DrainSplits(Arrive(polled, script[0].beforeFollowUp).followUp);
    assert AfterTurn(taken, script[0]).1 == false;
  }
}
