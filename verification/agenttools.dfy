/** The tool events of a run: each call of a reply is started once, in source order, and ended once, with its result. */
module AgentToolEvents {
  import opened Text
  import opened AgentTypes
  import opened AgentSpec
  import opened AgentPhases
  import opened AgentRuns

  /** The ids of the calls that the events start, in order. */
  function ToolStarts(events: seq<Event>): seq<string> {
    if events == [] then []
    else
      var last := events[|events| - 1];
      ToolStarts(events[..|events| - 1]) + if last.ToolStart? then [last.toolCallId] else []
  }

  /** The ids of the calls that the events end, in order. */
  function ToolEnds(events: seq<Event>): seq<string> {
    if events == [] then []
    else
      var last := events[|events| - 1];
      ToolEnds(events[..|events| - 1]) + if last.ToolEnd? then [last.toolCallId] else []
  }

  lemma {:induction false} StartsConcat(a: seq<Event>, b: seq<Event>)
    ensures ToolStarts(a + b) == ToolStarts(a) + ToolStarts(b)
    decreases |b|
  {
    if b == [] {
      assert a + b == a;
    } else {
      StartsConcat(a, b[..|b| - 1]);
      assert (a + b)[..|a + b| - 1] == a + b[..|b| - 1];
    }
  }

  lemma {:induction false} EndsConcat(a: seq<Event>, b: seq<Event>)
    ensures ToolEnds(a + b) == ToolEnds(a) + ToolEnds(b)
    decreases |b|
  {
    if b == [] {
      assert a + b == a;
    } else {
      EndsConcat(a, b[..|b| - 1]);
      assert (a + b)[..|a + b| - 1] == a + b[..|b| - 1];
    }
  }

  /** The events start just the calls `starts` and end just the calls `ends`. */
  ghost predicate Tooled(events: seq<Event>, starts: seq<string>, ends: seq<string>) {
    ToolStarts(events) == starts && ToolEnds(events) == ends
  }

  lemma TooledConcat(a: seq<Event>, s: seq<string>, e: seq<string>, b: seq<Event>, s': seq<string>, e': seq<string>)
    requires Tooled(a, s, e) && Tooled(b, s', e')
    ensures Tooled(a + b, s + s', e + e')
  {
    StartsConcat(a, b);
    EndsConcat(a, b);
  }

  lemma Plus(x: seq<string>)
    ensures [] + x == x && x + [] == x
  {}

  lemma TooledOne(e: Event)
    ensures Tooled([e], if e.ToolStart? then [e.toolCallId] else [], if e.ToolEnd? then [e.toolCallId] else [])
  {
    assert [e][..0] == [];
    assert ToolStarts([]) == [] && ToolEnds([]) == [];
    Plus(if e.ToolStart? then [e.toolCallId] else []);
    Plus(if e.ToolEnd? then [e.toolCallId] else []);
  }

  /** Events that start and end no call. */
  ghost predicate Toolless(events: seq<Event>) {
    forall k :: 0 <= k < |events| ==> !events[k].ToolStart? && !events[k].ToolEnd?
  }

  lemma {:induction false} TooledNone(events: seq<Event>)
    requires Toolless(events)
    ensures Tooled(events, [], [])
    decreases |events|
  {
    if events != [] {
      TooledNone(events[..|events| - 1]);
    }
  }

  // ----- Tool phases -----

  lemma {:induction false} UpdatesToolless(us: seq<nat>, running: seq<RunningCall>)
    requires AllRunning(running)
    ensures Toolless(Updates(us, running))
    decreases |us|
  {
    if us != [] {
      UpdatesToolless(us[..|us| - 1], running);
    }
  }

  /** A report ends its call once. */
  lemma ReportTooled(call: Block, outcome: Outcome, script: CallScript, others: seq<RunningCall>)
    requires call.ToolCall? && AllRunning(others)
    ensures Tooled(Report(call, outcome, script, others), [], [call.id])
  {
    var end := ToolEnd(call.id, call.name, outcome);
    UpdatesToolless(script.moreUpdates, others);
    UpdatesToolless(script.lastUpdates, others);
    ReportTail(end, Updates(script.moreUpdates, others), Updates(script.lastUpdates, others), ResultOf(call, outcome));
  }

  lemma TooledThen(a: seq<Event>, starts: seq<string>, ends: seq<string>, b: seq<Event>)
    requires Tooled(a, starts, ends) && Toolless(b)
    ensures Tooled(a + b, starts, ends)
  {
    TooledNone(b);
    TooledConcat(a, starts, ends, b, [], []);
    Plus(starts);
    Plus(ends);
  }

  lemma ReportTail(end: Event, a: seq<Event>, b: seq<Event>, m: Message)
    requires end.ToolEnd? && Toolless(a) && Toolless(b)
    ensures Tooled([end] + a + [MessageStart(m)] + b + [MessageEnd(m)], [], [end.toolCallId])
  {
    var ends := [end.toolCallId];
    TooledOne(end);
    TooledThen([end], [], ends, a);
    TooledThen([end] + a, [], ends, [MessageStart(m)]);
    TooledThen([end] + a + [MessageStart(m)], [], ends, b);
    TooledThen([end] + a + [MessageStart(m)] + b, [], ends, [MessageEnd(m)]);
  }

  /** A call on its own: started once and ended once. */
  lemma StartedAndEnded(start: Event, updates: seq<Event>, report: seq<Event>, id: string)
    requires start.ToolStart? && start.toolCallId == id && Toolless(updates) && Tooled(report, [], [id])
    ensures Tooled([start] + updates + report, [id], [id])
  {
    TooledOne(start);
    TooledNone(updates);
    TooledConcat([start], [id], [], updates, [], []);
    TooledConcat([start] + updates, [id], [], report, [], [id]);
    Plus([id]);
  }

  lemma SequentialCallTooled(tools: seq<string>, call: Block, script: CallScript)
    requires call.ToolCall?
    ensures Tooled(SequentialCall(tools, call, script).0, [call.id], [call.id])
  {
    var start := ToolStart(call.id, call.name);
    match Prepare(tools, call, script)
    case Immediate(outcome) =>
      ReportTooled(call, outcome, script, []);
      StartedAndEnded(start, [], Report(call, outcome, script, []), call.id);
      assert [start] + [] == [start];
    case Prepared =>
      var running := [RunningCall(0, call, script)];
      UpdatesToolless(script.updates, running);
      ReportTooled(call, Finalize(script), script, []);
      StartedAndEnded(start, Updates(script.updates, running), Report(call, Finalize(script), script, []), call.id);
  }

  lemma {:induction false} SequentialTooled(tools: seq<string>, calls: seq<Block>, scripts: seq<CallScript>, k: nat)
    requires AllCalls(calls) && k <= |calls|
    ensures Tooled(Sequential(tools, calls, scripts, k).events, CallIds(calls[..k]), CallIds(calls[..k]))
  {
    if k > 0 {
      var ids, id := CallIds(calls[..k - 1]), calls[k - 1].id;
      SequentialTooled(tools, calls, scripts, k - 1);
      SequentialCallTooled(tools, calls[k - 1], ScriptAt(scripts, k - 1));
      CallIdsPrefix(calls, k);
      TooledConcat(Sequential(tools, calls, scripts, k - 1).events, ids, ids,
                   SequentialCall(tools, calls[k - 1], ScriptAt(scripts, k - 1)).0, [id], [id]);
    }
  }

  /** One more call is prepared: it is started, and ended just if its outcome is immediate. */
  lemma PrepareTooled(b: ToolPhase, r: ToolPhase, tools: seq<string>, call: Block, script: CallScript,
                      starts: seq<string>)
    requires call.ToolCall? && Tooled(b.events, starts, ResultIds(b.results))
    requires
      match Prepare(tools, call, script)
      case Immediate(outcome) =>
        && r.events == b.events + ([ToolStart(call.id, call.name)] + Report(call, outcome, script, []))
        && r.results == b.results + [ResultOf(call, outcome)]
      case Prepared => r.events == b.events + [ToolStart(call.id, call.name)] && r.results == b.results
    ensures Tooled(r.events, starts + [call.id], ResultIds(r.results))
  {
    var start, ends := ToolStart(call.id, call.name), ResultIds(b.results);
    match Prepare(tools, call, script)
    case Immediate(outcome) =>
      ReportTooled(call, outcome, script, []);
      StartedAndEnded(start, [], Report(call, outcome, script, []), call.id);
      assert [start] + [] == [start];
      TooledConcat(b.events, starts, ends, [start] + Report(call, outcome, script, []), [call.id], [call.id]);
      ResultIdsAppend(b.results, ResultOf(call, outcome));
    case Prepared =>
      TooledOne(start);
      TooledConcat(b.events, starts, ends, [start], [call.id], []);
      Plus(ends);
  }

  lemma {:induction false} PrepareAllTooled(tools: seq<string>, calls: seq<Block>, scripts: seq<CallScript>, k: nat)
    requires AllCalls(calls) && k <= |calls|
    ensures
      var r := PrepareAll(tools, calls, scripts, k);
      Tooled(r.events, CallIds(calls[..k]), ResultIds(r.results))
  {
    if k > 0 {
      PrepareAllTooled(tools, calls, scripts, k - 1);
      CallIdsPrefix(calls, k);
      PrepareTooled(PrepareAll(tools, calls, scripts, k - 1), PrepareAll(tools, calls, scripts, k), tools,
                    calls[k - 1], ScriptAt(scripts, k - 1), CallIds(calls[..k - 1]));
    }
  }

  lemma AwaitTooled(running: seq<RunningCall>, k: nat)
    requires AllRunning(running) && 0 < k <= |running|
    ensures Tooled(AwaitEvents(running, k), [], [running[k - 1].call.id])
  {
    var r := running[k - 1];
    UpdatesToolless(r.script.updates, running[k - 1..]);
    TooledNone(Updates(r.script.updates, running[k - 1..]));
    ReportTooled(r.call, Finalize(r.script), r.script, running[k..]);
    TooledConcat(Updates(r.script.updates, running[k - 1..]), [], [],
                 Report(r.call, Finalize(r.script), r.script, running[k..]), [], [r.call.id]);
    Plus([r.call.id]);
  }

  lemma {:induction false} FinishAllTooled(running: seq<RunningCall>, k: nat)
    requires AllRunning(running) && k <= |running|
    ensures var (events, results) := FinishAll(running, k); Tooled(events, [], ResultIds(results))
  {
    if k > 0 {
      var (events, results) := FinishAll(running, k - 1);
      var r := running[k - 1];
      FinishAllTooled(running, k - 1);
      AwaitTooled(running, k);
      TooledConcat(events, [], ResultIds(results), AwaitEvents(running, k), [], [r.call.id]);
      ResultIdsAppend(results, ResultOf(r.call, Finalize(r.script)));
    }
  }

  lemma ParallelTooled(tools: seq<string>, calls: seq<Block>, scripts: seq<CallScript>)
    requires AllCalls(calls)
    ensures
      var r := Parallel(tools, calls, scripts);
      Tooled(r.events, CallIds(calls[..|calls|]), ResultIds(r.results))
  {
    var prepared := PrepareAll(tools, calls, scripts, |calls|);
    var (events, results) := FinishAll(prepared.running, |prepared.running|);
    PrepareAllTooled(tools, calls, scripts, |calls|);
    FinishAllTooled(prepared.running, |prepared.running|);
    TooledConcat(prepared.events, CallIds(calls[..|calls|]), ResultIds(prepared.results), events, [],
                 ResultIds(results));
    Plus(CallIds(calls[..|calls|]));
    ResultIdsConcat(prepared.results, results);
  }

  /** In either mode the calls are started each once, in source order, and ended each once, in the order of their
      results, which answer the same calls. */
  lemma EachCallStartsAndEnds(mode: ToolMode, tools: seq<string>, calls: seq<Block>, scripts: seq<CallScript>)
    requires AllCalls(calls)
    ensures
      var r := ExecuteToolCalls(mode, tools, calls, scripts);
      && ToolStarts(r.events) == CallIds(calls) && ToolEnds(r.events) == ResultIds(r.results)
      && multiset(ToolStarts(r.events)) == multiset(ToolEnds(r.events))
  {
    assert calls[..|calls|] == calls;
    ToolPhaseInner(mode, tools, calls, scripts);
    if mode == SequentialMode {
      SequentialTooled(tools, calls, scripts, |calls|);
      SequentialResults(tools, calls, scripts, |calls|);
    } else {
      ParallelTooled(tools, calls, scripts);
    }
  }

  // ----- What the grammar means for tool events -----

  function Times(m: multiset<string>, id: string): nat { m[id] }

  /** What runs now and has ended is what ran at first and was started, each id as often. */
  ghost predicate Accounted(now: multiset<string>, ends: seq<string>, first: multiset<string>, starts: seq<string>) {
    forall id {:trigger Times(now, id)} :: Times(now, id) + multiset(ends)[id] == first[id] + multiset(starts)[id]
  }

  lemma OneStarts(now: multiset<string>, ends: seq<string>, first: multiset<string>, starts: seq<string>, id: string)
    requires Accounted(now, ends, first, starts)
    ensures Accounted(now + multiset{id}, ends, first, starts + [id])
  {
    forall i
      ensures Times(now + multiset{id}, i) + multiset(ends)[i] == first[i] + multiset(starts + [id])[i]
    {
      assert Times(now, i) + multiset(ends)[i] == first[i] + multiset(starts)[i];
      assert multiset(starts + [id]) == multiset(starts) + multiset{id};
    }
  }

  lemma OneEnds(now: multiset<string>, ends: seq<string>, first: multiset<string>, starts: seq<string>, id: string)
    requires Accounted(now, ends, first, starts) && id in now
    ensures Accounted(now - multiset{id}, ends + [id], first, starts)
  {
    forall i
      ensures Times(now - multiset{id}, i) + multiset(ends + [id])[i] == first[i] + multiset(starts)[i]
    {
      assert Times(now, i) + multiset(ends)[i] == first[i] + multiset(starts)[i];
      assert multiset(ends + [id]) == multiset(ends) + multiset{id};
    }
  }

  lemma StepAccounts(g: Phase, e: Event, ends: seq<string>, first: multiset<string>, starts: seq<string>)
    requires g.Running? && Advance(g, e).Running? && Accounted(g.tools, ends, first, starts)
    ensures
      Accounted(Advance(g, e).tools, ends + (if e.ToolEnd? then [e.toolCallId] else []), first,
                starts + if e.ToolStart? then [e.toolCallId] else [])
  {
    Plus(ends);
    Plus(starts);
    if e.ToolStart? {
      OneStarts(g.tools, ends, first, starts, e.toolCallId);
    } else if e.ToolEnd? {
      OneEnds(g.tools, ends, first, starts, e.toolCallId);
    } else {
      SameTools(g, e);
    }
  }

  lemma SameTools(g: Phase, e: Event)
    requires g.Running? && Advance(g, e).Running? && !e.ToolStart? && !e.ToolEnd?
    ensures Advance(g, e).tools == g.tools
  {}

  // ----- Turns and runs -----

  /** The calls started in the turn that the events are in. */
  function TurnToolStarts(events: seq<Event>): seq<string> {
    if events == [] then []
    else
      var last := events[|events| - 1];
      if last.TurnStart? then []
      else TurnToolStarts(events[..|events| - 1]) + if last.ToolStart? then [last.toolCallId] else []
  }

  /** The calls ended in the turn that the events are in. */
  function TurnToolEnds(events: seq<Event>): seq<string> {
    if events == [] then []
    else
      var last := events[|events| - 1];
      if last.TurnStart? then []
      else TurnToolEnds(events[..|events| - 1]) + if last.ToolEnd? then [last.toolCallId] else []
  }

  function ToolsOf(g: Phase): multiset<string> { if g.Running? then g.tools else multiset{} }

  lemma NothingAccounted()
    ensures Accounted(multiset{}, [], multiset{}, [])
  {}

  lemma TurnStepAccounts(g: Phase, e: Event, ends: seq<string>, starts: seq<string>)
    requires !Advance(g, e).Bad? && Accounted(ToolsOf(g), ends, multiset{}, starts) && !e.TurnStart?
    ensures
      Accounted(ToolsOf(Advance(g, e)), ends + (if e.ToolEnd? then [e.toolCallId] else []), multiset{},
                starts + if e.ToolStart? then [e.toolCallId] else [])
  {
    if g.Running? && Advance(g, e).Running? {
      StepAccounts(g, e, ends, multiset{}, starts);
    } else {
      Plus(ends);
      Plus(starts);
    }
  }

  /** In every trace of the grammar, what runs is what the turn has started and not ended. */
  lemma {:induction false} TurnToolsAccounted(events: seq<Event>)
    requires !AdvanceAll(Before, events).Bad?
    ensures
      Accounted(ToolsOf(AdvanceAll(Before, events)), TurnToolEnds(events), multiset{}, TurnToolStarts(events))
    decreases |events|
  {
    if events == [] {
      NothingAccounted();
    } else {
      var before, e := events[..|events| - 1], events[|events| - 1];
      if e.TurnStart? {
        NothingAccounted();
      } else {
        TurnToolsAccounted(before);
        TurnStepAccounts(AdvanceAll(Before, before), e, TurnToolEnds(before), TurnToolStarts(before));
      }
    }
  }

  /** At no point of a trace of the grammar has a turn ended more calls of an id than it started: every end comes
      after a start of its own. */
  lemma EndsFollowStarts(events: seq<Event>, k: nat, id: string)
    requires k <= |events| && !AdvanceAll(Before, events).Bad?
    ensures multiset(TurnToolEnds(events[..k]))[id] <= multiset(TurnToolStarts(events[..k]))[id]
  {
    PrefixNotBad(Before, events, k);
    TurnToolsAccounted(events[..k]);
    var now := ToolsOf(AdvanceAll(Before, events[..k]));
    assert Times(now, id) + multiset(TurnToolEnds(events[..k]))[id]
           == multiset{}[id] + multiset(TurnToolStarts(events[..k]))[id];
  }

  ghost predicate InnerEvents(events: seq<Event>) {
    forall k :: 0 <= k < |events| ==> IsInner(events[k])
  }

  lemma {:induction false} TurnStartsGrow(a: seq<Event>, b: seq<Event>)
    requires InnerEvents(b)
    ensures TurnToolStarts(a + b) == TurnToolStarts(a) + ToolStarts(b)
    decreases |b|
  {
    if b == [] {
      assert a + b == a;
    } else {
      TurnStartsGrow(a, b[..|b| - 1]);
      assert (a + b)[..|a + b| - 1] == a + b[..|b| - 1];
    }
  }

  lemma {:induction false} TurnEndsGrow(a: seq<Event>, b: seq<Event>)
    requires InnerEvents(b)
    ensures TurnToolEnds(a + b) == TurnToolEnds(a) + ToolEnds(b)
    decreases |b|
  {
    if b == [] {
      assert a + b == a;
    } else {
      TurnEndsGrow(a, b[..|b| - 1]);
      assert (a + b)[..|a + b| - 1] == a + b[..|b| - 1];
    }
  }

  /** Event `k`, if it ends a turn: since the turn's start the calls of its reply were started each once, in source
      order, and ended each once, in the order of its results; none were if the reply failed or was aborted. */
  ghost predicate TurnToolsOk(events: seq<Event>, k: nat)
    requires k < |events|
  {
    events[k].TurnEnd? ==>
      var m := events[k].message;
      && TurnToolStarts(events[..k]) == (if EndsRun(m) then [] else CallIds(CallsOf(m)))
      && TurnToolEnds(events[..k]) == ResultIds(events[k].toolResults)
  }

  ghost predicate AllTurnToolsOk(events: seq<Event>) {
    forall k {:trigger TurnToolsOk(events, k)} :: 0 <= k < |events| ==> TurnToolsOk(events, k)
  }

  lemma ToolsOkGrows(events: seq<Event>, more: seq<Event>)
    requires AllTurnToolsOk(events) && forall k :: 0 <= k < |more| ==> !more[k].TurnEnd?
    ensures AllTurnToolsOk(events + more)
  {
    var all := events + more;
    forall k | 0 <= k < |all|
      ensures TurnToolsOk(all, k)
    {
      if k < |events| {
        assert TurnToolsOk(events, k);
        assert all[..k] == events[..k];
      } else {
        assert all[k] == more[k - |events|];
      }
    }
  }

  lemma ToolsOkEnds(events: seq<Event>, m: Message, results: seq<Message>)
    requires AllTurnToolsOk(events)
    requires TurnToolStarts(events) == if EndsRun(m) then [] else CallIds(CallsOf(m))
    requires TurnToolEnds(events) == ResultIds(results)
    ensures AllTurnToolsOk(events + [TurnEnd(m, results)])
  {
    var all := events + [TurnEnd(m, results)];
    forall k | 0 <= k < |all|
      ensures TurnToolsOk(all, k)
    {
      if k < |events| {
        assert TurnToolsOk(events, k);
        assert all[..k] == events[..k];
      } else {
        assert all[..k] == events;
      }
    }
  }

  /** In a turn in which no call has been started or ended yet. */
  ghost predicate NoToolsYet(l: Loop) {
    AllTurnToolsOk(l.events) && TurnToolStarts(l.events) == [] && TurnToolEnds(l.events) == []
  }

  lemma {:induction false} AnnounceToolless(messages: seq<Message>)
    ensures Toolless(Announce(messages)) && InnerEvents(Announce(messages))
    decreases |messages|
  {
    if messages != [] {
      AnnounceToolless(messages[..|messages| - 1]);
    }
  }

  lemma {:induction false} StreamToolless(context: seq<Message>, stream: seq<StreamEvent>)
    ensures Toolless(StreamAll(context, stream).events)
    decreases |stream|
  {
    if stream != [] {
      StreamToolless(context, stream[..|stream| - 1]);
    }
  }

  lemma ReplyToolless(context: seq<Message>, stream: seq<StreamEvent>, final: Message)
    ensures Toolless(StreamReply(context, stream, final).events)
  {
    StreamToolless(context, UpToFinish(stream));
  }

  lemma TurnOpens(events: seq<Event>)
    ensures TurnToolStarts(events + [TurnStart]) == [] && TurnToolEnds(events + [TurnStart]) == []
  {}

  lemma QuietGrows(events: seq<Event>, more: seq<Event>)
    requires Toolless(more) && InnerEvents(more)
    ensures TurnToolStarts(events + more) == TurnToolStarts(events)
    ensures TurnToolEnds(events + more) == TurnToolEnds(events)
  {
    TooledNone(more);
    TurnStartsGrow(events, more);
    TurnEndsGrow(events, more);
    Plus(TurnToolStarts(events));
    Plus(TurnToolEnds(events));
  }

  lemma BeginToolless(l: Loop, first: bool)
    requires AllTurnToolsOk(l.events) && (first ==> NoToolsYet(l))
    ensures NoToolsYet(BeginTurn(l, first))
  {
    var started := if first then l.events else l.events + [TurnStart];
    AnnounceToolless(l.pending);
    if !first {
      TurnOpens(l.events);
      ToolsOkGrows(l.events, [TurnStart]);
    }
    QuietGrows(started, Announce(l.pending));
    ToolsOkGrows(started, Announce(l.pending));
  }

  lemma PhaseTooled(l: Loop, mode: ToolMode, tools: seq<string>, turn: Turn)
    requires TurnOk(turn)
    ensures
      var events := TurnEvents(l, mode, tools, turn).0;
      Tooled(events, if EndsRun(turn.final) then [] else CallIds(CallsOf(turn.final)),
             ResultIds(TurnResults(mode, tools, turn)))
  {
    var reply := StreamReply(l.context, turn.stream, turn.final).events;
    ReplyToolless(l.context, turn.stream, turn.final);
    TooledNone(reply);
    if !EndsRun(turn.final) {
      var phase := ExecuteToolCalls(mode, tools, CallsOf(turn.final), turn.calls);
      EachCallStartsAndEnds(mode, tools, CallsOf(turn.final), turn.calls);
      TooledConcat(reply, [], [], phase.events, CallIds(CallsOf(turn.final)), ResultIds(phase.results));
      Plus(CallIds(CallsOf(turn.final)));
      Plus(ResultIds(phase.results));
    }
  }

  lemma TurnTooled(l: Loop, mode: ToolMode, tools: seq<string>, turn: Turn)
    requires TurnOk(turn) && NoToolsYet(l)
    ensures AllTurnToolsOk(TakeTurn(l, mode, tools, turn).events)
  {
    var events := TurnEvents(l, mode, tools, turn).0;
    TurnAdds(l, mode, tools, turn);
    TurnInner(l, mode, tools, turn);
    PhaseTooled(l, mode, tools, turn);
    TurnStartsGrow(l.events, events);
    TurnEndsGrow(l.events, events);
    Plus(ToolStarts(events));
    Plus(ToolEnds(events));
    ToolsOkGrows(l.events, events);
    ToolsOkEnds(l.events + events, turn.final, TurnResults(mode, tools, turn));
  }

  /** At every turn end of every run: since the turn's start each call of the reply was started once and ended once. */
  lemma {:induction false} RunTooled(l: Loop, first: bool, mode: ToolMode, tools: seq<string>, script: seq<Turn>)
    requires ScriptOk(script) && AllTurnToolsOk(l.events) && (first ==> NoToolsYet(l))
    ensures AllTurnToolsOk(RunTurns(l, first, mode, tools, script).0.events)
    decreases |script|
  {
    BeginToolless(l, first);
    if script != [] {
      ScriptTail(script);
      var begun := BeginTurn(l, first);
      var taken := TakeTurn(begun, mode, tools, script[0]);
      TurnTooled(begun, mode, tools, script[0]);
      ToolsOkGrows(taken.events, [AgentEnd(taken.newMessages)]);
      if !EndsRun(script[0].final) {
        var (next, again) := AfterTurn(taken, script[0]);
        PollsOnly(taken, script[0]);
        if again {
          RunTooled(next, false, mode, tools, script[1..]);
        }
      }
    }
  }
}
