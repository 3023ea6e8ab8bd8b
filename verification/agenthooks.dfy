/** A hook after a tool call that throws: it cuts its turn short and leaves calls unanswered in the transcript. */
module AgentHooks {
  import opened Text
  import opened AgentTypes
  import opened AgentSpec
  import opened AgentPhases
  import opened AgentRuns
  import opened AgentConversation
  import opened AgentQueues
  import opened AgentWholeRuns
  import opened AgentSessions

  // ----- The tool phase up to the throw -----

  /** The executed call whose hook throws: in sequential execution a call that is prepared, in parallel execution one of
      the running calls. */
  predicate Throws(mode: ToolMode, tools: seq<string>, calls: seq<Block>, scripts: seq<CallScript>, k: nat)
    requires AllCalls(calls)
  {
    if mode == SequentialMode then k < |calls| && Prepare(tools, calls[k], ScriptAt(scripts, k)).Prepared?
    else k < |PrepareAll(tools, calls, scripts, |calls|).running|
  }

  /** What is emitted and which results are given before call `k` has run and the hook after it throws. */
  function CutPhase(mode: ToolMode, tools: seq<string>, calls: seq<Block>, scripts: seq<CallScript>, k: nat): ToolPhase
    requires AllCalls(calls) && Throws(mode, tools, calls, scripts, k)
  {
    if mode == SequentialMode then
      var before, call, script := Sequential(tools, calls, scripts, k), calls[k], ScriptAt(scripts, k);
      var running := [RunningCall(0, call, script)];
      ToolPhase(before.events + ([ToolStart(call.id, call.name)] + Updates(script.updates, running)), before.results,
                [])
    else
      var prepared := PrepareAll(tools, calls, scripts, |calls|);
      var running := prepared.running;
      var (events, results) := FinishAll(running, k);
      ToolPhase(prepared.events + (events + Updates(running[k].script.updates, running[k..])),
                prepared.results + results, [])
  }

  lemma SequentialCutInner(tools: seq<string>, calls: seq<Block>, scripts: seq<CallScript>, k: nat)
    requires AllCalls(calls) && Throws(SequentialMode, tools, calls, scripts, k)
    ensures
      var r := CutPhase(SequentialMode, tools, calls, scripts, k);
      Inner(IN_TURN, r.events, Calling(multiset{calls[k].id}), r.results)
  {
    var before, call, script := Sequential(tools, calls, scripts, k), calls[k], ScriptAt(scripts, k);
    var g, running := Calling(multiset{call.id}), [RunningCall(0, call, script)];
    SequentialInner(tools, calls, scripts, k);
    OneCall(call.id, call.name);
    InnerOne(IN_TURN, ToolStart(call.id, call.name));
    UpdatesInner(script.updates, running, g);
    InnerThen(IN_TURN, [ToolStart(call.id, call.name)], g, Updates(script.updates, running), g, []);
    InnerConcat(IN_TURN, before.events, IN_TURN, before.results,
                [ToolStart(call.id, call.name)] + Updates(script.updates, running), g, []);
    assert before.results + [] == before.results;
  }

  lemma AwaitedInner(running: seq<RunningCall>, k: nat)
    requires AllRunning(running) && k < |running|
    ensures
      var (events, results) := FinishAll(running, k);
      Inner(Calling(RunIds(running)), events + Updates(running[k].script.updates, running[k..]),
            Calling(RunIds(running[k..])), results)
  {
    var (events, results) := FinishAll(running, k);
    var g := Calling(RunIds(running[k..]));
    FinishInner(running, k);
    InRunIds(running[k..]);
    UpdatesInner(running[k].script.updates, running[k..], g);
    InnerConcat(Calling(RunIds(running)), events, g, results, Updates(running[k].script.updates, running[k..]), g, []);
    assert results + [] == results;
  }

  lemma ParallelCutInner(tools: seq<string>, calls: seq<Block>, scripts: seq<CallScript>, k: nat)
    requires AllCalls(calls) && Throws(ParallelMode, tools, calls, scripts, k)
    ensures
      var r := CutPhase(ParallelMode, tools, calls, scripts, k);
      var running := PrepareAll(tools, calls, scripts, |calls|).running;
      Inner(IN_TURN, r.events, Calling(RunIds(running[k..])), r.results)
  {
    var prepared := PrepareAll(tools, calls, scripts, |calls|);
    var running := prepared.running;
    var (events, results) := FinishAll(running, k);
    PrepareInner(tools, calls, scripts, |calls|);
    AwaitedInner(running, k);
    InnerConcat(IN_TURN, prepared.events, Calling(RunIds(running)), prepared.results,
                events + Updates(running[k].script.updates, running[k..]), Calling(RunIds(running[k..])), results);
  }

  // ----- What stays unanswered -----

  lemma IdsSplit(calls: seq<Block>, k: nat)
    requires AllCalls(calls) && k < |calls|
    ensures multiset(CallIds(calls[..k])) + multiset{calls[k].id} <= Ids(calls)
  {
    CallIdsPrefix(calls, k + 1);
    PrefixIds(calls, k + 1);
  }

  lemma {:induction false} PrefixIds(calls: seq<Block>, k: nat)
    requires AllCalls(calls) && k <= |calls|
    ensures Ids(calls[..k]) <= Ids(calls)
    decreases |calls| - k
  {
    if k == |calls| {
      assert calls[..k] == calls;
    } else {
      CallIdsPrefix(calls, k + 1);
      PrefixIds(calls, k + 1);
    }
  }

  /** The results answer some of the calls, but not all. */
  ghost predicate LeavesOwed(results: seq<Message>, calls: seq<Block>) {
    AllResults(results) && ToolIds(results) < Ids(calls)
  }

  lemma SequentialLeavesOwed(tools: seq<string>, calls: seq<Block>, scripts: seq<CallScript>, k: nat)
    requires AllCalls(calls) && Throws(SequentialMode, tools, calls, scripts, k)
    ensures LeavesOwed(CutPhase(SequentialMode, tools, calls, scripts, k).results, calls)
  {
    SequentialResults(tools, calls, scripts, k);
    IdsSplit(calls, k);
    OneLeft(multiset(CallIds(calls[..k])), Ids(calls), calls[k].id);
  }

  lemma OneLeft(some: multiset<string>, all: multiset<string>, id: string)
    requires some + multiset{id} <= all
    ensures some < all
  {
    assert some[id] < (some + multiset{id})[id] <= all[id];
  }

  lemma AwaitedIds(running: seq<RunningCall>, k: nat)
    requires AllRunning(running) && k < |running|
    ensures
      var results := FinishAll(running, k).1;
      AllResults(results) && ToolIds(results) + multiset{running[k].call.id} <= RunIds(running)
  {
    FinishResults(running, k);
    PrefixAndOne(IdsOf(running), k);
  }

  lemma PrefixAndOne(ids: seq<string>, k: nat)
    requires k < |ids|
    ensures multiset(ids[..k]) + multiset{ids[k]} <= multiset(ids)
  {
    assert ids[..k + 1] == ids[..k] + [ids[k]];
    assert ids == ids[..k + 1] + ids[k + 1..];
  }

  lemma ParallelLeavesOwed(tools: seq<string>, calls: seq<Block>, scripts: seq<CallScript>, k: nat)
    requires AllCalls(calls) && Throws(ParallelMode, tools, calls, scripts, k)
    ensures LeavesOwed(CutPhase(ParallelMode, tools, calls, scripts, k).results, calls)
  {
    var prepared := PrepareAll(tools, calls, scripts, |calls|);
    var running := prepared.running;
    var results := FinishAll(running, k).1;
    assert calls[..|calls|] == calls;
    PrepareInner(tools, calls, scripts, |calls|);
    AwaitedIds(running, k);
    ToolIdsConcat(prepared.results, results);
    SomeLeft(ToolIds(prepared.results), ToolIds(results), RunIds(running), running[k].call.id);
  }

  lemma SomeLeft(a: multiset<string>, b: multiset<string>, c: multiset<string>, id: string)
    requires b + multiset{id} <= c
    ensures a + b < a + c
  {
    OneLeft(b, c, id);
    assert b[id] < c[id];
    assert (a + b)[id] < (a + c)[id];
  }

  lemma CutInner(mode: ToolMode, tools: seq<string>, calls: seq<Block>, scripts: seq<CallScript>, k: nat)
    requires AllCalls(calls) && Throws(mode, tools, calls, scripts, k)
    ensures
      var r := CutPhase(mode, tools, calls, scripts, k);
      && LeavesOwed(r.results, calls) && Ended(r.events) == r.results
      && exists left: multiset<string> :: AdvanceAll(IN_TURN, r.events) == Calling(left)
  {
    if mode == SequentialMode {
      SequentialLeavesOwed(tools, calls, scripts, k);
      SequentialCutInner(tools, calls, scripts, k);
    } else {
      ParallelLeavesOwed(tools, calls, scripts, k);
      ParallelCutInner(tools, calls, scripts, k);
    }
  }

  // ----- The session after the throw -----

  /** The events of the turn that is cut short. */
  function CutEvents(begun: Loop, setup: Setup, turn: Turn, k: nat): seq<Event>
    requires Throws(setup.mode, setup.tools, CallsOf(turn.final), turn.calls, k)
  {
    StreamReply(begun.context, turn.stream, turn.final).events
    + CutPhase(setup.mode, setup.tools, CallsOf(turn.final), turn.calls, k).events
  }

  /** A run all of whose scripted turns end is followed by `turn`, in which the hook after call `k` throws: the agent
      reduces the events so far, and then fails. */
  function AfterCut(s: Session, l: Loop, env: Environment, setup: Setup, turn: Turn, k: nat): AgentState
    requires Throws(setup.mode, setup.tools, CallsOf(turn.final), turn.calls, k)
  {
    var begun := RunLoop(l, env.initial, setup.mode, setup.tools, env.script).0;
    FinishRun(FailRun(ReduceAll(BeginRun(s.state), begun.events + CutEvents(begun, setup, turn, k)), env))
  }

  lemma CutTranscript(s: Session, l: Loop, env: Environment, setup: Setup, turn: Turn, k: nat)
    requires AtStart(l, s.state.messages) && ScriptOk(env.script) && TurnOk(turn)
    requires RunLoop(l, env.initial, setup.mode, setup.tools, env.script).1 == Thrown
    requires Throws(setup.mode, setup.tools, CallsOf(turn.final), turn.calls, k)
    ensures
      var begun := RunLoop(l, env.initial, setup.mode, setup.tools, env.script).0;
      var results := CutPhase(setup.mode, setup.tools, CallsOf(turn.final), turn.calls, k).results;
      AfterCut(s, l, env, setup, turn, k).messages
      == begun.context + ([turn.final] + results) + [FailureMessage(env)]
  {
    var begun := RunLoop(l, env.initial, setup.mode, setup.tools, env.script).0;
    var cut := CutPhase(setup.mode, setup.tools, CallsOf(turn.final), turn.calls, k);
    var reply := StreamReply(begun.context, turn.stream, turn.final).events;
    FinalTranscriptsAgree(BeginRun(s.state), l, env.initial, setup.mode, setup.tools, env.script);
    ReplyAddsFinal(begun.context, turn.stream, turn.final);
    CutInner(setup.mode, setup.tools, CallsOf(turn.final), turn.calls, k);
    EndedConcat(reply, cut.events);
    ReducedMessages(ReduceAll(BeginRun(s.state), begun.events), CutEvents(begun, setup, turn, k));
    ReduceConcat(BeginRun(s.state), begun.events, CutEvents(begun, setup, turn, k));
  }

  lemma OwedBreaks(context: seq<Message>, final: Message, results: seq<Message>, failure: Message)
    requires WellFormed(context) && final.Assistant? && LeavesOwed(results, CallsOf(final)) && !failure.ToolResult?
    ensures !WellFormed(context + ([final] + results) + [failure])
  {
    var ids, before := Ids(CallsOf(final)), context + ([final] + results);
    OweReply(context, final, results);
    OweResults(ids, results);
    StillOwes(ToolIds(results), ids);
    assert (before + [failure])[..|before|] == before;
  }

  lemma NothingLeft(answered: multiset<string>, all: multiset<string>)
    requires answered <= all && all - answered == multiset{}
    ensures answered == all
  {
    forall id
      ensures answered[id] == all[id]
    {
      assert (all - answered)[id] == 0;
    }
  }

  lemma StillOwes(answered: multiset<string>, all: multiset<string>)
    requires answered < all
    ensures all - answered != multiset{}
  {
    if all - answered == multiset{} {
      NothingLeft(answered, all);
    }
  }

  /** A hook after a call that throws always leaves the agent with an ill-formed conversation: its call, at least, stays
      unanswered under the failure message. The requests made until then are well-formed. */
  lemma ThrowingHookBreaks(s: Session, l: Loop, env: Environment, setup: Setup, turn: Turn, k: nat)
    requires AtStart(l, s.state.messages) && TurnOk(turn) && PlainEnvironment(env)
    requires RunLoop(l, env.initial, setup.mode, setup.tools, env.script).1 == Thrown
    requires Throws(setup.mode, setup.tools, CallsOf(turn.final), turn.calls, k)
    requires AllPlain(l.newMessages) && PlainQueues(l) && WellFormed(s.state.messages)
    ensures !WellFormed(AfterCut(s, l, env, setup, turn, k).messages)
    ensures RequestsOk(RunLoop(l, env.initial, setup.mode, setup.tools, env.script).0.requests)
  {
    var begun := RunLoop(l, env.initial, setup.mode, setup.tools, env.script).0;
    var cut := CutPhase(setup.mode, setup.tools, CallsOf(turn.final), turn.calls, k);
    WholeTalk(l, env.initial, setup.mode, setup.tools, env.script, s.state.messages);
    CutTranscript(s, l, env, setup, turn, k);
    CutInner(setup.mode, setup.tools, CallsOf(turn.final), turn.calls, k);
    OwedBreaks(begun.context, turn.final, cut.results, FailureMessage(env));
  }
}
