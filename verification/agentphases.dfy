/** What the parts of a turn emit: announcements, streamed replies and tool phases. */
module AgentPhases {
  import opened Text
  import opened AgentTypes
  import opened AgentSpec

  /** An event that belongs inside a turn. */
  predicate IsInner(e: Event) {
    !(e.AgentStart? || e.AgentEnd? || e.TurnStart? || e.TurnEnd?)
  }

  /** Events of the inside of a turn, which lead from one phase of the grammar to another and end just `ended`. */
  ghost predicate Inner(from: Phase, events: seq<Event>, to: Phase, ended: seq<Message>) {
    && (forall k :: 0 <= k < |events| ==> IsInner(events[k]))
    && AdvanceAll(from, events) == to
    && Ended(events) == ended
  }

  lemma InnerConcat(g: Phase, a: seq<Event>, h: Phase, x: seq<Message>, b: seq<Event>, i: Phase, y: seq<Message>)
    requires Inner(g, a, h, x) && Inner(h, b, i, y)
    ensures Inner(g, a + b, i, x + y)
  {
    AdvanceConcat(g, a, b);
    EndedConcat(a, b);
  }

  lemma InnerThen(g: Phase, a: seq<Event>, h: Phase, b: seq<Event>, i: Phase, y: seq<Message>)
    requires Inner(g, a, h, []) && Inner(h, b, i, y)
    ensures Inner(g, a + b, i, y)
  {
    InnerConcat(g, a, h, [], b, i, y);
    assert [] + y == y;
  }

  lemma InnerNone(g: Phase)
    ensures Inner(g, [], g, [])
  {}

  lemma InnerOne(g: Phase, e: Event)
    requires IsInner(e)
    ensures Inner(g, [e], Advance(g, e), if e.MessageEnd? then [e.message] else [])
  {
    assert [e][..0] == [];
    assert AdvanceAll(g, []) == g && Ended([]) == [];
    assert AdvanceAll(g, [e]) == Advance(AdvanceAll(g, [e][..0]), e);
    assert Ended([e]) == Ended([e][..0]) + if e.MessageEnd? then [e.message] else [];
  }

  // ----- Announcements -----

  lemma {:induction false} AnnounceInner(messages: seq<Message>)
    ensures Inner(IN_TURN, Announce(messages), IN_TURN, messages)
    decreases |messages|
  {
    if messages == [] {
      InnerNone(IN_TURN);
    } else {
      var before, last := messages[..|messages| - 1], messages[|messages| - 1];
      AnnounceInner(before);
      InnerOne(IN_TURN, MessageStart(last));
      InnerOne(STREAMING, MessageEnd(last));
      InnerThen(IN_TURN, [MessageStart(last)], STREAMING, [MessageEnd(last)], IN_TURN, [last]);
      assert [MessageStart(last)] + [MessageEnd(last)] == [MessageStart(last), MessageEnd(last)];
      InnerConcat(IN_TURN, Announce(before), IN_TURN, before, [MessageStart(last), MessageEnd(last)], IN_TURN,
                  [last]);
      assert before + [last] == messages;
    }
  }

  // ----- Streamed replies -----

  function Starts(stream: seq<StreamEvent>): nat {
    if stream == [] then 0
    else Starts(stream[..|stream| - 1]) + if stream[|stream| - 1].Started? then 1 else 0
  }

  const STREAMING := IN_TURN.(open := true)

  /** The phase after so many starts. */
  function PhaseAfterStarts(n: nat): Phase {
    if n == 0 then IN_TURN else if n == 1 then STREAMING else Bad
  }

  /** The partial message that a stream sent last. */
  function LastPartial(stream: seq<StreamEvent>): Option<Message> {
    if stream == [] then None
    else
      match stream[|stream| - 1]
      case Started(partial) => Some(partial)
      case Delta(partial) => Some(partial)
      case Finished => LastPartial(stream[..|stream| - 1])
  }

  /** Each start after the first leaves a stale partial message in the transcript, and breaks the event grammar. */
  lemma {:induction false} StreamShape(context: seq<Message>, stream: seq<StreamEvent>)
    ensures
      var r, n := StreamAll(context, stream), Starts(stream);
      && (r.added <==> n > 0)
      && |r.context| == |context| + n
      && r.context[..|context|] == context
      && (n > 0 ==> LastPartial(stream) == Some(r.context[|r.context| - 1]))
      && Inner(IN_TURN, r.events, PhaseAfterStarts(n), [])
    decreases |stream|
  {
    if stream == [] {
      InnerNone(IN_TURN);
    } else {
      var before, e := stream[..|stream| - 1], stream[|stream| - 1];
      StreamShape(context, before);
      var r, g := StreamAll(context, before), PhaseAfterStarts(Starts(before));
      match e
      case Started(p) =>
        InnerOne(g, MessageStart(p));
        InnerThen(IN_TURN, r.events, g, [MessageStart(p)], Advance(g, MessageStart(p)), []);
        assert (r.context + [p])[..|context|] == context;
      case Delta(p) =>
        if r.added && r.context != [] {
          InnerOne(g, MessageUpdate(p));
          InnerThen(IN_TURN, r.events, g, [MessageUpdate(p)], Advance(g, MessageUpdate(p)), []);
            assert r.context[|r.context| - 1 := p][..|context|] == context;
        }
      case Finished =>
    }
  }

  /** A reply adds exactly its final message to the transcript, within the grammar, exactly when its stream starts at
      most once before it finishes. */
  lemma ReplyAddsFinal(context: seq<Message>, stream: seq<StreamEvent>, final: Message)
    ensures
      var r, n := StreamReply(context, stream, final), Starts(UpToFinish(stream));
      && (n <= 1 ==> r.context == context + [final] && Inner(IN_TURN, r.events, IN_TURN, [final]))
      && (n > 1 ==> |r.context| > |context| + 1 && AdvanceAll(IN_TURN, r.events) == Bad)
  {
    var s, n := StreamAll(context, UpToFinish(stream)), Starts(UpToFinish(stream));
    StreamShape(context, UpToFinish(stream));
    if n == 0 {
      FinishUnstarted(s, final);
      assert s.context == context;
    } else {
      FinishStarted(s, final, PhaseAfterStarts(n));
      if n == 1 {
        assert s.context[..|context|] == context;
        assert s.context[|s.context| - 1 := final] == context + [final];
      }
    }
  }

  lemma FinishUnstarted(s: Streamed, final: Message)
    requires !s.added && Inner(IN_TURN, s.events, IN_TURN, [])
    ensures Inner(IN_TURN, Finish(s, final).events, IN_TURN, [final])
  {
    AnnounceInner([final]);
    assert [final][..0] == [] && Announce([]) == [];
    assert Announce([final]) == [] + [MessageStart(final), MessageEnd(final)];
    assert [] + [MessageStart(final), MessageEnd(final)] == [MessageStart(final), MessageEnd(final)];
    InnerThen(IN_TURN, s.events, IN_TURN, [MessageStart(final), MessageEnd(final)], IN_TURN, [final]);
  }

  lemma FinishStarted(s: Streamed, final: Message, g: Phase)
    requires s.added && s.context != [] && Inner(IN_TURN, s.events, g, [])
    ensures Inner(IN_TURN, Finish(s, final).events, Advance(g, MessageEnd(final)), [final])
  {
    InnerOne(g, MessageEnd(final));
    InnerThen(IN_TURN, s.events, g, [MessageEnd(final)], Advance(g, MessageEnd(final)), [final]);
  }

  // ----- Tool phases -----

  function Calling(tools: multiset<string>): Phase { Running(true, false, tools) }

  function IdsOf(running: seq<RunningCall>): (r: seq<string>)
    requires AllRunning(running)
    ensures |r| == |running| && forall k :: 0 <= k < |r| ==> r[k] == running[k].call.id
  {
    seq(|running|, k requires 0 <= k < |running| => running[k].call.id)
  }

  function RunIds(running: seq<RunningCall>): multiset<string>
    requires AllRunning(running)
  {
    multiset(IdsOf(running))
  }

  ghost predicate AllIn(running: seq<RunningCall>, tools: multiset<string>)
    requires AllRunning(running)
  {
    forall k :: 0 <= k < |running| ==> running[k].call.id in tools
  }

  lemma {:induction false} UpdatesInner(us: seq<nat>, running: seq<RunningCall>, g: Phase)
    requires AllRunning(running) && g.Running? && g.inTurn && AllIn(running, g.tools)
    ensures Inner(g, Updates(us, running), g, [])
    decreases |us|
  {
    if us == [] {
      InnerNone(g);
    } else {
      var before, u := us[..|us| - 1], us[|us| - 1];
      UpdatesInner(before, running, g);
      if u < |running| {
        InnerOne(g, ToolUpdate(running[u].call.id));
        InnerThen(g, Updates(before, running), g, [ToolUpdate(running[u].call.id)], g, []);
      } else {
        assert Updates(us, running) == Updates(before, running) + [];
        assert Updates(before, running) + [] == Updates(before, running);
      }
    }
  }

  lemma ReportInner(call: Block, outcome: Outcome, script: CallScript, others: seq<RunningCall>,
                    tools: multiset<string>)
    requires call.ToolCall? && AllRunning(others) && call.id in tools && AllIn(others, tools - multiset{call.id})
    ensures
      Inner(Calling(tools), Report(call, outcome, script, others), Calling(tools - multiset{call.id}),
            [ResultOf(call, outcome)])
  {
    var g, h := Calling(tools), Calling(tools - multiset{call.id});
    var open, m := h.(open := true), ResultOf(call, outcome);
    var a, b := Updates(script.moreUpdates, others), Updates(script.lastUpdates, others);
    InnerOne(g, ToolEnd(call.id, call.name, outcome));
    UpdatesInner(script.moreUpdates, others, h);
    InnerThen(g, [ToolEnd(call.id, call.name, outcome)], h, a, h, []);
    InnerOne(h, MessageStart(m));
    InnerThen(g, [ToolEnd(call.id, call.name, outcome)] + a, h, [MessageStart(m)], open, []);
    UpdatesInner(script.lastUpdates, others, open);
    InnerThen(g, [ToolEnd(call.id, call.name, outcome)] + a + [MessageStart(m)], open, b, open, []);
    InnerOne(open, MessageEnd(m));
    InnerThen(g, [ToolEnd(call.id, call.name, outcome)] + a + [MessageStart(m)] + b, open, [MessageEnd(m)], h, [m]);
  }

  lemma OneCall(id: string, name: string)
    ensures Advance(IN_TURN, ToolStart(id, name)) == Calling(multiset{id})
    ensures Calling(multiset{id} - multiset{id}) == IN_TURN
  {
    assert multiset{} + multiset{id} == multiset{id};
    assert multiset{id} - multiset{id} == multiset{};
  }

  lemma SequentialCallInner(tools: seq<string>, call: Block, script: CallScript)
    requires call.ToolCall?
    ensures
      var (events, result) := SequentialCall(tools, call, script);
      Inner(IN_TURN, events, IN_TURN, [result]) && result.ToolResult? && result.toolCallId == call.id
  {
    OneCall(call.id, call.name);
    InnerOne(IN_TURN, ToolStart(call.id, call.name));
    match Prepare(tools, call, script)
    case Immediate(outcome) =>
      InnerNone(Calling(multiset{call.id}));
      ReportedAlone(call, outcome, script, []);
    case Prepared =>
      UpdatesInner(script.updates, [RunningCall(0, call, script)], Calling(multiset{call.id}));
      ReportedAlone(call, Finalize(script), script, Updates(script.updates, [RunningCall(0, call, script)]));
  }

  lemma ReportedAlone(call: Block, outcome: Outcome, script: CallScript, updates: seq<Event>)
    requires call.ToolCall? && Inner(Calling(multiset{call.id}), updates, Calling(multiset{call.id}), [])
    ensures
      var start := [ToolStart(call.id, call.name)];
      && Inner(IN_TURN, start + updates + Report(call, outcome, script, []), IN_TURN, [ResultOf(call, outcome)])
      && (updates == [] ==> start + updates == start)
  {
    var start, g := [ToolStart(call.id, call.name)], Calling(multiset{call.id});
    OneCall(call.id, call.name);
    InnerOne(IN_TURN, start[0]);
    InnerThen(IN_TURN, start, g, updates, g, []);
    ReportInner(call, outcome, script, [], multiset{call.id});
    InnerThen(IN_TURN, start + updates, g, Report(call, outcome, script, []), IN_TURN, [ResultOf(call, outcome)]);
  }

  lemma ResultIdsAppend(results: seq<Message>, m: Message)
    requires m.ToolResult?
    ensures ResultIds(results + [m]) == ResultIds(results) + [m.toolCallId]
    ensures ToolIds(results + [m]) == ToolIds(results) + multiset{m.toolCallId}
  {
    assert (results + [m])[..|results|] == results;
  }

  lemma {:induction false} ResultIdsConcat(a: seq<Message>, b: seq<Message>)
    ensures ResultIds(a + b) == ResultIds(a) + ResultIds(b)
    decreases |b|
  {
    if b == [] {
      assert a + b == a;
    } else {
      ResultIdsConcat(a, b[..|b| - 1]);
      assert (a + b)[..|a + b| - 1] == a + b[..|b| - 1];
    }
  }

  lemma CallIdsPrefix(calls: seq<Block>, k: nat)
    requires AllCalls(calls) && 0 < k <= |calls|
    ensures CallIds(calls[..k]) == CallIds(calls[..k - 1]) + [calls[k - 1].id]
    ensures Ids(calls[..k]) == Ids(calls[..k - 1]) + multiset{calls[k - 1].id}
  {
    assert calls[..k][..k - 1] == calls[..k - 1];
  }

  ghost predicate AllResults(results: seq<Message>) {
    forall k :: 0 <= k < |results| ==> results[k].ToolResult?
  }

  lemma {:induction false} SequentialInner(tools: seq<string>, calls: seq<Block>, scripts: seq<CallScript>, k: nat)
    requires AllCalls(calls) && k <= |calls|
    ensures
      var r := Sequential(tools, calls, scripts, k);
      Inner(IN_TURN, r.events, IN_TURN, r.results)
  {
    if k == 0 {
      InnerNone(IN_TURN);
    } else {
      SequentialInner(tools, calls, scripts, k - 1);
      var before := Sequential(tools, calls, scripts, k - 1);
      var (events, result) := SequentialCall(tools, calls[k - 1], ScriptAt(scripts, k - 1));
      SequentialCallInner(tools, calls[k - 1], ScriptAt(scripts, k - 1));
      InnerConcat(IN_TURN, before.events, IN_TURN, before.results, events, IN_TURN, [result]);
    }
  }

  /** Sequential execution answers each call in turn, in source order. */
  lemma {:induction false} SequentialResults(tools: seq<string>, calls: seq<Block>, scripts: seq<CallScript>, k: nat)
    requires AllCalls(calls) && k <= |calls|
    ensures
      var results := Sequential(tools, calls, scripts, k).results;
      AllResults(results) && ResultIds(results) == CallIds(calls[..k])
  {
    if k > 0 {
      SequentialResults(tools, calls, scripts, k - 1);
      SequentialCallInner(tools, calls[k - 1], ScriptAt(scripts, k - 1));
      var result := SequentialCall(tools, calls[k - 1], ScriptAt(scripts, k - 1)).1;
      OneMoreAnswer(Sequential(tools, calls, scripts, k - 1).results, calls, k, result);
    }
  }

  lemma OneMoreAnswer(results: seq<Message>, calls: seq<Block>, k: nat, m: Message)
    requires AllCalls(calls) && 0 < k <= |calls|
    requires AllResults(results) && ResultIds(results) == CallIds(calls[..k - 1])
    requires m.ToolResult? && m.toolCallId == calls[k - 1].id
    ensures AllResults(results + [m]) && ResultIds(results + [m]) == CallIds(calls[..k])
  {
    ResultIdsAppend(results, m);
    CallIdsPrefix(calls, k);
  }

  lemma RunIdsAppend(running: seq<RunningCall>, r: RunningCall)
    requires AllRunning(running) && r.call.ToolCall?
    ensures RunIds(running + [r]) == RunIds(running) + multiset{r.call.id}
  {
    assert IdsOf(running + [r]) == IdsOf(running) + [r.call.id];
  }

  lemma RunIdsFirst(running: seq<RunningCall>, k: nat)
    requires AllRunning(running) && 0 < k <= |running|
    ensures RunIds(running[k - 1..]) == multiset{running[k - 1].call.id} + RunIds(running[k..])
    ensures AllIn(running[k - 1..], RunIds(running[k - 1..]))
    ensures AllIn(running[k..], RunIds(running[k..]))
  {
    var all, rest := running[k - 1..], running[k..];
    assert all == [running[k - 1]] + rest;
    assert IdsOf(all) == [running[k - 1].call.id] + IdsOf(rest);
    InRunIds(all);
    InRunIds(rest);
  }

  lemma InRunIds(running: seq<RunningCall>)
    requires AllRunning(running)
    ensures AllIn(running, RunIds(running))
  {
    forall k | 0 <= k < |running|
      ensures running[k].call.id in RunIds(running)
    {
      assert IdsOf(running)[k] in multiset(IdsOf(running));
    }
  }

  /** Preparing calls leaves exactly the prepared ones running; the results so far answer the others. */
  lemma {:induction false} PrepareInner(tools: seq<string>, calls: seq<Block>, scripts: seq<CallScript>, k: nat)
    requires AllCalls(calls) && k <= |calls|
    ensures
      var r := PrepareAll(tools, calls, scripts, k);
      && Inner(IN_TURN, r.events, Calling(RunIds(r.running)), r.results)
      && AllResults(r.results) && ToolIds(r.results) + RunIds(r.running) == Ids(calls[..k])
  {
    if k == 0 {
      InnerNone(IN_TURN);
      assert IdsOf([]) == [];
    } else {
      PrepareInner(tools, calls, scripts, k - 1);
      PrepareOne(tools, calls, scripts, k);
      CallIdsPrefix(calls, k);
    }
  }

  lemma PrepareOne(tools: seq<string>, calls: seq<Block>, scripts: seq<CallScript>, k: nat)
    requires AllCalls(calls) && 0 < k <= |calls|
    requires
      var b := PrepareAll(tools, calls, scripts, k - 1);
      Inner(IN_TURN, b.events, Calling(RunIds(b.running)), b.results)
    ensures
      var b := PrepareAll(tools, calls, scripts, k - 1);
      var r := PrepareAll(tools, calls, scripts, k);
      && Inner(IN_TURN, r.events, Calling(RunIds(r.running)), r.results)
      && (AllResults(b.results) ==> AllResults(r.results))
      && ToolIds(r.results) + RunIds(r.running) == ToolIds(b.results) + RunIds(b.running) + multiset{calls[k - 1].id}
  {
    var b := PrepareAll(tools, calls, scripts, k - 1);
    var call, script := calls[k - 1], ScriptAt(scripts, k - 1);
    match Prepare(tools, call, script)
    case Immediate(outcome) => ReportedAtOnce(b, call, outcome, script);
    case Prepared => LeftRunning(b, RunningCall(k - 1, call, script));
  }

  lemma ReportedAtOnce(b: ToolPhase, call: Block, outcome: Outcome, script: CallScript)
    requires AllRunning(b.running) && call.ToolCall?
    requires Inner(IN_TURN, b.events, Calling(RunIds(b.running)), b.results)
    ensures
      var more := [ToolStart(call.id, call.name)] + Report(call, outcome, script, []);
      Inner(IN_TURN, b.events + more, Calling(RunIds(b.running)), b.results + [ResultOf(call, outcome)])
    ensures ToolIds(b.results + [ResultOf(call, outcome)]) == ToolIds(b.results) + multiset{call.id}
  {
    var ids := RunIds(b.running);
    StartedAndReported(ids, call, outcome, script);
    InnerConcat(IN_TURN, b.events, Calling(ids), b.results,
                [ToolStart(call.id, call.name)] + Report(call, outcome, script, []), Calling(ids),
                [ResultOf(call, outcome)]);
    ResultIdsAppend(b.results, ResultOf(call, outcome));
  }

  lemma StartedAndReported(ids: multiset<string>, call: Block, outcome: Outcome, script: CallScript)
    requires call.ToolCall?
    ensures
      Inner(Calling(ids), [ToolStart(call.id, call.name)] + Report(call, outcome, script, []), Calling(ids),
            [ResultOf(call, outcome)])
  {
    var one := multiset{call.id};
    InnerOne(Calling(ids), ToolStart(call.id, call.name));
    ReportInner(call, outcome, script, [], ids + one);
    assert ids + one - one == ids;
    InnerThen(Calling(ids), [ToolStart(call.id, call.name)], Calling(ids + one), Report(call, outcome, script, []),
              Calling(ids), [ResultOf(call, outcome)]);
  }

  lemma LeftRunning(b: ToolPhase, r: RunningCall)
    requires AllRunning(b.running) && r.call.ToolCall?
    requires Inner(IN_TURN, b.events, Calling(RunIds(b.running)), b.results)
    ensures
      Inner(IN_TURN, b.events + [ToolStart(r.call.id, r.call.name)], Calling(RunIds(b.running + [r])), b.results)
    ensures RunIds(b.running + [r]) == RunIds(b.running) + multiset{r.call.id}
  {
    var start := [ToolStart(r.call.id, r.call.name)];
    InnerOne(Calling(RunIds(b.running)), start[0]);
    RunIdsAppend(b.running, r);
    InnerConcat(IN_TURN, b.events, Calling(RunIds(b.running)), b.results, start, Calling(RunIds(b.running + [r])), []);
    assert b.results + [] == b.results;
  }

  /** The events of awaiting running call `k - 1`. */
  function AwaitEvents(running: seq<RunningCall>, k: nat): seq<Event>
    requires AllRunning(running) && 0 < k <= |running|
  {
    var r := running[k - 1];
    Updates(r.script.updates, running[k - 1..]) + Report(r.call, Finalize(r.script), r.script, running[k..])
  }

  lemma FinishOne(running: seq<RunningCall>, k: nat)
    requires AllRunning(running) && 0 < k <= |running|
    ensures
      var r := running[k - 1];
      Inner(Calling(RunIds(running[k - 1..])), AwaitEvents(running, k), Calling(RunIds(running[k..])),
            [ResultOf(r.call, Finalize(r.script))])
  {
    var r := running[k - 1];
    var now, left := RunIds(running[k - 1..]), RunIds(running[k..]);
    RunIdsFirst(running, k);
    assert now - multiset{r.call.id} == left;
    UpdatesInner(r.script.updates, running[k - 1..], Calling(now));
    ReportInner(r.call, Finalize(r.script), r.script, running[k..], now);
    InnerThen(Calling(now), Updates(r.script.updates, running[k - 1..]), Calling(now),
              Report(r.call, Finalize(r.script), r.script, running[k..]), Calling(left),
              [ResultOf(r.call, Finalize(r.script))]);
  }

  lemma FinishMore(running: seq<RunningCall>, k: nat, events: seq<Event>, results: seq<Message>)
    requires AllRunning(running) && 0 < k <= |running|
    requires Inner(Calling(RunIds(running)), events, Calling(RunIds(running[k - 1..])), results)
    ensures
      var r := running[k - 1];
      Inner(Calling(RunIds(running)), events + AwaitEvents(running, k), Calling(RunIds(running[k..])),
            results + [ResultOf(r.call, Finalize(r.script))])
  {
    var r := running[k - 1];
    FinishOne(running, k);
    InnerConcat(Calling(RunIds(running)), events, Calling(RunIds(running[k - 1..])), results, AwaitEvents(running, k),
                Calling(RunIds(running[k..])), [ResultOf(r.call, Finalize(r.script))]);
  }

  /** Awaiting the running calls ends them one by one. */
  lemma {:induction false} FinishInner(running: seq<RunningCall>, k: nat)
    requires AllRunning(running) && k <= |running|
    ensures
      var (events, results) := FinishAll(running, k);
      Inner(Calling(RunIds(running)), events, Calling(RunIds(running[k..])), results)
  {
    if k == 0 {
      InnerNone(Calling(RunIds(running)));
      assert running[0..] == running;
    } else {
      FinishInner(running, k - 1);
      var (events, results) := FinishAll(running, k - 1);
      FinishMore(running, k, events, results);
    }
  }

  lemma {:induction false} FinishResults(running: seq<RunningCall>, k: nat)
    requires AllRunning(running) && k <= |running|
    ensures
      var results := FinishAll(running, k).1;
      AllResults(results) && ResultIds(results) == IdsOf(running)[..k]
  {
    if k > 0 {
      FinishResults(running, k - 1);
      OneMoreFinished(running, k, FinishAll(running, k - 1).1);
    }
  }

  lemma OneMoreFinished(running: seq<RunningCall>, k: nat, results: seq<Message>)
    requires AllRunning(running) && 0 < k <= |running|
    requires AllResults(results) && ResultIds(results) == IdsOf(running)[..k - 1]
    ensures
      var more := results + [ResultOf(running[k - 1].call, Finalize(running[k - 1].script))];
      AllResults(more) && ResultIds(more) == IdsOf(running)[..k]
  {
    var r := running[k - 1];
    ResultIdsAppend(results, ResultOf(r.call, Finalize(r.script)));
    assert IdsOf(running)[..k] == IdsOf(running)[..k - 1] + [r.call.id];
  }

  /** Either mode answers every call exactly once, inside the turn. */
  lemma ToolPhaseInner(mode: ToolMode, tools: seq<string>, calls: seq<Block>, scripts: seq<CallScript>)
    requires AllCalls(calls)
    ensures
      var r := ExecuteToolCalls(mode, tools, calls, scripts);
      && Inner(IN_TURN, r.events, IN_TURN, r.results)
      && AllResults(r.results) && ToolIds(r.results) == Ids(calls)
  {
    assert calls[..|calls|] == calls;
    if mode == SequentialMode {
      SequentialInner(tools, calls, scripts, |calls|);
      SequentialResults(tools, calls, scripts, |calls|);
    } else {
      ParallelInner(tools, calls, scripts);
      ParallelResults(tools, calls, scripts);
    }
  }

  lemma ParallelInner(tools: seq<string>, calls: seq<Block>, scripts: seq<CallScript>)
    requires AllCalls(calls)
    ensures var r := Parallel(tools, calls, scripts); Inner(IN_TURN, r.events, IN_TURN, r.results)
  {
    var prepared := PrepareAll(tools, calls, scripts, |calls|);
    var running := prepared.running;
    var (events, results) := FinishAll(running, |running|);
    PrepareInner(tools, calls, scripts, |calls|);
    FinishInner(running, |running|);
    assert running[|running|..] == [] && IdsOf([]) == [];
    InnerConcat(IN_TURN, prepared.events, Calling(RunIds(running)), prepared.results, events, IN_TURN, results);
  }

  lemma ParallelResults(tools: seq<string>, calls: seq<Block>, scripts: seq<CallScript>)
    requires AllCalls(calls)
    ensures var r := Parallel(tools, calls, scripts); AllResults(r.results) && ToolIds(r.results) == Ids(calls)
  {
    var prepared := PrepareAll(tools, calls, scripts, |calls|);
    var running := prepared.running;
    var results := FinishAll(running, |running|).1;
    PrepareInner(tools, calls, scripts, |calls|);
    FinishResults(running, |running|);
    assert IdsOf(running)[..|running|] == IdsOf(running);
    ToolIdsConcat(prepared.results, results);
    assert calls[..|calls|] == calls;
  }

  lemma ToolIdsConcat(a: seq<Message>, b: seq<Message>)
    ensures ToolIds(a + b) == ToolIds(a) + ToolIds(b)
  {
    ResultIdsConcat(a, b);
  }
}
