/** Messages and events of the agent loop, the state that the agent reduces from the events, and the event grammar. */
module AgentTypes {
  import opened Text

  datatype Block = TextBlock(text: string) | ToolCall(id: string, name: string, arguments: string)

  datatype StopReason = Stop | Length | ToolUse | ErrorStop | Aborted

  /** What a tool call comes to: content, details and the error flag. */
  datatype Outcome = Outcome(content: string, details: string, isError: bool)

  datatype Message =
    | User(text: string)
    | Custom(text: string)
    | Assistant(content: seq<Block>, stopReason: StopReason, errorMessage: Option<string>)
    | ToolResult(toolCallId: string, toolName: string, outcome: Outcome)

  datatype Event =
    | AgentStart
    | AgentEnd(messages: seq<Message>)
    | TurnStart
    | TurnEnd(message: Message, toolResults: seq<Message>)
    | MessageStart(message: Message)
    | MessageUpdate(message: Message)
    | MessageEnd(message: Message)
    | ToolStart(toolCallId: string, toolName: string)
    | ToolUpdate(toolCallId: string)
    | ToolEnd(toolCallId: string, toolName: string, outcome: Outcome)

  /** The tool calls of a content list, in order. */
  function Calls(content: seq<Block>): seq<Block> {
    if content == [] then []
    else
      var rest := Calls(content[..|content| - 1]);
      if content[|content| - 1].ToolCall? then rest + [content[|content| - 1]] else rest
  }

  function ToolCalls(m: Message): seq<Block> {
    if m.Assistant? then Calls(m.content) else []
  }

  /** The ids of tool calls, in order. */
  function CallIds(calls: seq<Block>): seq<string> {
    if calls == [] then []
    else
      var last := calls[|calls| - 1];
      CallIds(calls[..|calls| - 1]) + if last.ToolCall? then [last.id] else []
  }

  /** The ids of tool calls, with multiplicity. */
  function Ids(calls: seq<Block>): multiset<string> { multiset(CallIds(calls)) }

  /** The ids that tool results answer, in order. */
  function ResultIds(results: seq<Message>): seq<string> {
    if results == [] then []
    else
      var last := results[|results| - 1];
      ResultIds(results[..|results| - 1]) + if last.ToolResult? then [last.toolCallId] else []
  }

  /** The same, with multiplicity. */
  function ToolIds(results: seq<Message>): multiset<string> { multiset(ResultIds(results)) }

  // ----- The agent's state, reduced from the events -----

  datatype AgentState = AgentState(messages: seq<Message>, streamingMessage: Option<Message>,
                                   pendingToolCalls: set<string>, errorMessage: Option<string>)

  function Reduce(st: AgentState, e: Event): AgentState {
    match e
    case MessageStart(m) => st.(streamingMessage := Some(m))
    case MessageUpdate(m) => st.(streamingMessage := Some(m))
    case MessageEnd(m) => st.(streamingMessage := None, messages := st.messages + [m])
    case ToolStart(id, _) => st.(pendingToolCalls := st.pendingToolCalls + {id})
    case ToolEnd(id, _, _) => st.(pendingToolCalls := st.pendingToolCalls - {id})
    case TurnEnd(m, _) =>
      if m.Assistant? && m.errorMessage.Some? && m.errorMessage.value != "" then st.(errorMessage := m.errorMessage)
      else st
    case AgentEnd(_) => st.(streamingMessage := None)
    case _ => st
  }

  function ReduceAll(st: AgentState, events: seq<Event>): AgentState {
    if events == [] then st else Reduce(ReduceAll(st, events[..|events| - 1]), events[|events| - 1])
  }

  lemma {:induction false} ReduceConcat(st: AgentState, a: seq<Event>, b: seq<Event>)
    ensures ReduceAll(st, a + b) == ReduceAll(ReduceAll(st, a), b)
    decreases |b|
  {
    if b == [] {
      assert a + b == a;
    } else {
      ReduceConcat(st, a, b[..|b| - 1]);
      assert (a + b)[..|a + b| - 1] == a + b[..|b| - 1];
    }
  }

  /** The messages that the events end, in order. */
  function Ended(events: seq<Event>): seq<Message> {
    if events == [] then []
    else
      var last := events[|events| - 1];
      Ended(events[..|events| - 1]) + if last.MessageEnd? then [last.message] else []
  }

  lemma {:induction false} EndedConcat(a: seq<Event>, b: seq<Event>)
    ensures Ended(a + b) == Ended(a) + Ended(b)
    decreases |b|
  {
    if b == [] {
      assert a + b == a;
    } else {
      EndedConcat(a, b[..|b| - 1]);
      assert (a + b)[..|a + b| - 1] == a + b[..|b| - 1];
    }
  }

  /** The reduced transcript is the transcript before and the messages ended since. */
  lemma {:induction false} ReducedMessages(st: AgentState, events: seq<Event>)
    ensures ReduceAll(st, events).messages == st.messages + Ended(events)
    decreases |events|
  {
    if events == [] {
      assert st.messages + [] == st.messages;
    } else {
      ReducedMessages(st, events[..|events| - 1]);
    }
  }

  // ----- The event grammar -----

  /** Before the run, in it (in a turn or between turns, with a message open or not, and tool calls running), after it,
      or out of the grammar. */
  datatype Phase = Before | Running(inTurn: bool, open: bool, tools: multiset<string>) | After | Bad

  const BETWEEN := Running(false, false, multiset{})
  const IN_TURN := Running(true, false, multiset{})

  function Advance(g: Phase, e: Event): Phase {
    match e
    case AgentStart => if g == Before then BETWEEN else Bad
    case AgentEnd(_) => if g == BETWEEN then After else Bad
    case TurnStart => if g == BETWEEN then IN_TURN else Bad
    case TurnEnd(_, _) => if g == IN_TURN then BETWEEN else Bad
    case MessageStart(_) => if g.Running? && g.inTurn && !g.open then g.(open := true) else Bad
    case MessageUpdate(_) => if g.Running? && g.inTurn && g.open then g else Bad
    case MessageEnd(_) => if g.Running? && g.inTurn && g.open then g.(open := false) else Bad
    case ToolStart(id, _) => if g.Running? && g.inTurn && !g.open then g.(tools := g.tools + multiset{id}) else Bad
    case ToolUpdate(id) => if g.Running? && g.inTurn && id in g.tools then g else Bad
    case ToolEnd(id, _, _) =>
      if g.Running? && g.inTurn && !g.open && id in g.tools then g.(tools := g.tools - multiset{id}) else Bad
  }

  function AdvanceAll(g: Phase, events: seq<Event>): Phase {
    if events == [] then g else Advance(AdvanceAll(g, events[..|events| - 1]), events[|events| - 1])
  }

  lemma {:induction false} AdvanceConcat(g: Phase, a: seq<Event>, b: seq<Event>)
    ensures AdvanceAll(g, a + b) == AdvanceAll(AdvanceAll(g, a), b)
    decreases |b|
  {
    if b == [] {
      assert a + b == a;
    } else {
      AdvanceConcat(g, a, b[..|b| - 1]);
      assert (a + b)[..|a + b| - 1] == a + b[..|b| - 1];
    }
  }

  /** An agent whose pending calls are among those that a phase of the grammar has running, and which has a streaming
      message just if a message is open in it. */
  ghost predicate Tracks(st: AgentState, g: Phase) {
    && (forall id :: id in st.pendingToolCalls ==> g.Running? && id in g.tools)
    && (st.streamingMessage.Some? <==> g.Running? && g.open)
  }

  /** On any events of the grammar the agent's pending calls are among the grammar's running ones, and it has a
      streaming message exactly while one is open; in particular no call is pending and no message is streaming
      between turns. */
  lemma {:induction false} ReducerTracksGrammar(st: AgentState, g: Phase, events: seq<Event>)
    requires Tracks(st, g) && !AdvanceAll(g, events).Bad?
    ensures Tracks(ReduceAll(st, events), AdvanceAll(g, events))
    decreases |events|
  {
    if events != [] {
      var before := events[..|events| - 1];
      ReducerTracksGrammar(st, g, before);
      StepTracks(ReduceAll(st, before), AdvanceAll(g, before), events[|events| - 1]);
    }
  }

  lemma StepTracks(st: AgentState, g: Phase, e: Event)
    requires Tracks(st, g) && !Advance(g, e).Bad?
    ensures Tracks(Reduce(st, e), Advance(g, e))
  {}

  /** An agent whose pending calls are exactly those running, each of which runs once. */
  ghost predicate Pends(st: AgentState, g: Phase) {
    forall id {:trigger id in st.pendingToolCalls} ::
      (id in st.pendingToolCalls <==> g.Running? && id in g.tools) && (g.Running? ==> g.tools[id] <= 1)
  }

  /** The event, if it starts a call, starts one whose id is not running already. */
  predicate StartsAnew(g: Phase, e: Event) { e.ToolStart? && g.Running? ==> e.toolCallId !in g.tools }

  predicate AllStartAnew(g: Phase, events: seq<Event>) {
    events == [] || (AllStartAnew(g, events[..|events| - 1])
                     && StartsAnew(AdvanceAll(g, events[..|events| - 1]), events[|events| - 1]))
  }

  /** As long as no call is started while one of its id is running, the agent's pending calls are exactly those
      running. */
  lemma {:induction false} PendingIsRunning(st: AgentState, g: Phase, events: seq<Event>)
    requires Pends(st, g) && !AdvanceAll(g, events).Bad? && AllStartAnew(g, events)
    ensures Pends(ReduceAll(st, events), AdvanceAll(g, events))
    decreases |events|
  {
    if events != [] {
      var before := events[..|events| - 1];
      PendingIsRunning(st, g, before);
      StepPends(ReduceAll(st, before), AdvanceAll(g, before), events[|events| - 1]);
    }
  }

  lemma StepPends(st: AgentState, g: Phase, e: Event)
    requires Pends(st, g) && !Advance(g, e).Bad? && StartsAnew(g, e)
    ensures Pends(Reduce(st, e), Advance(g, e))
  {
    var st', g' := Reduce(st, e), Advance(g, e);
    forall id
      ensures (id in st'.pendingToolCalls <==> g'.Running? && id in g'.tools) && (g'.Running? ==> g'.tools[id] <= 1)
    {
      assert id in st.pendingToolCalls <==> g.Running? && id in g.tools;
    }
  }

  /** With two running calls of one id the agent forgets both when the first one ends. */
  lemma SameIdForgotten(st: AgentState, id: string, name: string, outcome: Outcome)
    requires st.pendingToolCalls == {}
    ensures
      var events := [ToolStart(id, name), ToolStart(id, name), ToolEnd(id, name, outcome)];
      && AdvanceAll(IN_TURN, events) == Running(true, false, multiset{id})
      && ReduceAll(st, events).pendingToolCalls == {}
  {
    var start, end := ToolStart(id, name), ToolEnd(id, name, outcome);
    var one, two, three := multiset{} + multiset{id}, multiset{id} + multiset{id}, [start, start, end];
    assert [start][..0] == [] && [start, start][..1] == [start] && three[..2] == [start, start];
    assert AdvanceAll(IN_TURN, []) == IN_TURN && ReduceAll(st, []) == st;
    assert one == multiset{id} && two - multiset{id} == multiset{id};
    assert AdvanceAll(IN_TURN, [start]) == Running(true, false, one);
    assert AdvanceAll(IN_TURN, [start, start]) == Running(true, false, two);
    assert ReduceAll(st, [start]).pendingToolCalls == {id};
    assert ReduceAll(st, [start, start]).pendingToolCalls == {id};
  }

  lemma {:induction false} PrefixNotBad(g: Phase, events: seq<Event>, k: nat)
    requires k <= |events| && !AdvanceAll(g, events).Bad?
    ensures !AdvanceAll(g, events[..k]).Bad?
    decreases |events|
  {
    if k == |events| {
      assert events[..k] == events;
    } else {
      PrefixNotBad(g, events[..|events| - 1], k);
      assert events[..|events| - 1][..k] == events[..k];
    }
  }

  /** At every turn end of a run in the grammar the agent has no pending tool call and no streaming message. */
  lemma TurnEndIsQuiet(st: AgentState, events: seq<Event>, k: nat)
    requires st.pendingToolCalls == {} && st.streamingMessage == None
    requires !AdvanceAll(Before, events).Bad? && k < |events| && events[k].TurnEnd?
    ensures
      var at := ReduceAll(st, events[..k + 1]);
      at.pendingToolCalls == {} && at.streamingMessage == None
  {
    PrefixNotBad(Before, events, k + 1);
    ReducerTracksGrammar(st, Before, events[..k + 1]);
    assert events[..k + 1][..k] == events[..k] && events[..k + 1][k] == events[k];
  }
}
