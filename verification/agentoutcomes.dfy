/** What each tool call comes to: which calls run their tool, and what the results and the events tell of them. */
module AgentOutcomes {
  import opened Text
  import opened AgentTypes
  import opened AgentSpec
  import opened AgentOrder

  // ----- One call -----

  /** The tool is known, its arguments are valid, and the hook before the call does not block it. */
  predicate MayRun(b: Batch, k: nat)
    requires BatchOk(b) && k < |b.calls|
  {
    b.calls[k].name in b.tools && ScriptAt(b.scripts, k).invalid.None? && ScriptAt(b.scripts, k).blocked.None?
  }

  /** What the tool did, with what the hook after the call puts in its place. */
  ghost predicate IsWhatToolDid(script: CallScript, o: Outcome) {
    var over := match script.overriding case None => Override(None, None, None) case Some(over) => over;
    && (match over.content
        case Some(content) => o.content == content
        case None =>
          match script.executed case Returned(content, _) => o.content == content case Threw(m) => o.content == m)
    && (match over.details
        case Some(details) => o.details == details
        case None =>
          match script.executed case Returned(_, details) => o.details == details case Threw(_) => o.details == "{}")
    && (match over.isError
        case Some(isError) => o.isError == isError
        case None => o.isError == script.executed.Threw?)
  }

  /** Why a call does not run: an unknown tool before invalid arguments before the hook. */
  ghost predicate IsRefusal(b: Batch, k: nat, message: string)
    requires BatchOk(b) && k < |b.calls|
  {
    var script := ScriptAt(b.scripts, k);
    if b.calls[k].name !in b.tools then message == "Tool " + b.calls[k].name + " not found"
    else if script.invalid.Some? then message == script.invalid.value
    else if script.blocked.Some? && script.blocked.value != "" then message == script.blocked.value
    else message == "Tool execution was blocked"
  }

  /** The result is that of call `k`: what its tool did, if it may run, and else an error that says why not. */
  ghost predicate IsResultOf(b: Batch, k: nat, m: Message)
    requires BatchOk(b) && k < |b.calls|
  {
    && m.ToolResult? && m.toolCallId == b.calls[k].id && m.toolName == b.calls[k].name
    && if MayRun(b, k) then IsWhatToolDid(ScriptAt(b.scripts, k), m.outcome)
       else m.outcome.isError && m.outcome.details == "{}" && IsRefusal(b, k, m.outcome.content)
  }

  lemma PreparedIffMayRun(b: Batch, k: nat)
    requires BatchOk(b) && k < |b.calls|
    ensures IsImmediate(b, k) <==> !MayRun(b, k)
  {}

  lemma FinalizeIsWhatToolDid(script: CallScript)
    ensures IsWhatToolDid(script, Finalize(script))
  {}

  lemma AnswerIsResult(b: Batch, k: nat)
    requires BatchOk(b) && k < |b.calls|
    ensures IsResultOf(b, k, Answer(b, k))
  {
    PreparedIffMayRun(b, k);
    FinalizeIsWhatToolDid(ScriptAt(b.scripts, k));
  }

  // ----- All results -----

  ghost predicate AreResultsOf(b: Batch, order: seq<nat>, results: seq<Message>)
    requires BatchOk(b)
  {
    && InBatch(b, order) && |results| == |order|
    && forall i {:trigger results[i]} :: 0 <= i < |order| ==> IsResultOf(b, order[i], results[i])
  }

  /** First the calls that do not run and then those that do, each in source order. */
  ghost predicate RefusedFirst(b: Batch, order: seq<nat>)
    requires BatchOk(b) && InBatch(b, order)
  {
    forall i, j :: 0 <= i < j < |order| ==>
      (MayRun(b, order[i]) ==> MayRun(b, order[j]))
      && (MayRun(b, order[i]) == MayRun(b, order[j]) ==> order[i] < order[j])
  }

  ghost predicate Ascending(ks: seq<nat>, k: nat) {
    (forall i :: 0 <= i < |ks| ==> ks[i] < k) && forall i, j :: 0 <= i < j < |ks| ==> ks[i] < ks[j]
  }

  lemma {:induction false} OrdersAscend(b: Batch, k: nat)
    requires BatchOk(b) && k <= |b.calls|
    ensures Ascending(Immediates(b, k), k) && Ascending(PreparedOnes(b, k), k)
    ensures forall i :: 0 <= i < |Immediates(b, k)| ==> !MayRun(b, Immediates(b, k)[i])
    ensures forall i :: 0 <= i < |PreparedOnes(b, k)| ==> MayRun(b, PreparedOnes(b, k)[i])
  {
    if k > 0 {
      OrdersAscend(b, k - 1);
      PreparedIffMayRun(b, k - 1);
    }
  }

  lemma AnswersAreResults(b: Batch, order: seq<nat>)
    requires BatchOk(b) && InBatch(b, order)
    ensures AreResultsOf(b, order, Answers(b, order))
  {
    forall i | 0 <= i < |order|
      ensures IsResultOf(b, order[i], Answers(b, order)[i])
    {
      AnswerIsResult(b, order[i]);
    }
  }

  lemma ParallelComesTo(b: Batch, order: seq<nat>)
    requires BatchOk(b) && order == Order(b, |b.calls|)
    ensures AreResultsOf(b, order, Parallel(b.tools, b.calls, b.scripts).results) && RefusedFirst(b, order)
  {
    ParallelOrder(b);
    AnswersAreResults(b, order);
    OrderRefusesFirst(b, order);
  }

  lemma OrderRefusesFirst(b: Batch, order: seq<nat>)
    requires BatchOk(b) && order == Order(b, |b.calls|)
    ensures RefusedFirst(b, order)
  {
    OrdersAscend(b, |b.calls|);
  }

  /** In either mode each call has one result, which holds what its tool did exactly when the tool is known, the
      arguments are valid and the call is not blocked, and which is else an error that says why not. The results stand
      in source order, or in parallel execution with those of the calls that do not run first. */
  lemma EachCallComesTo(mode: ToolMode, b: Batch) returns (order: seq<nat>)
    requires BatchOk(b)
    ensures AreResultsOf(b, order, ExecuteToolCalls(mode, b.tools, b.calls, b.scripts).results)
    ensures multiset(order) == multiset(SourceOrder(|b.calls|))
    ensures if mode == SequentialMode then order == SourceOrder(|b.calls|) else RefusedFirst(b, order)
  {
    var n := |b.calls|;
    if mode == SequentialMode {
      order := SourceOrder(n);
      SequentialOrder(b, n);
      AnswersAreResults(b, order);
    } else {
      order := Order(b, n);
      ParallelComesTo(b, order);
      OrderIsPermutation(b, n);
    }
  }

  // ----- What the events tell -----

  /** The results that the tool ends among the events tell of, in order. */
  function EndedAs(events: seq<Event>): seq<Message> {
    if events == [] then []
    else
      var last := events[|events| - 1];
      EndedAs(events[..|events| - 1])
      + if last.ToolEnd? then [ToolResult(last.toolCallId, last.toolName, last.outcome)] else []
  }

  lemma {:induction false} EndedAsConcat(a: seq<Event>, b: seq<Event>)
    ensures EndedAs(a + b) == EndedAs(a) + EndedAs(b)
    decreases |b|
  {
    if b == [] {
      assert a + b == a;
    } else {
      EndedAsConcat(a, b[..|b| - 1]);
      assert (a + b)[..|a + b| - 1] == a + b[..|b| - 1];
    }
  }

  /** Updates come from calls with these ids only. */
  ghost predicate UpdatedBy(events: seq<Event>, ids: set<string>) {
    forall k :: 0 <= k < |events| && events[k].ToolUpdate? ==> events[k].toolCallId in ids
  }

  /** The events tell of these results, and updates come from calls with these ids only. */
  ghost predicate Tells(events: seq<Event>, ids: set<string>, results: seq<Message>) {
    EndedAs(events) == results && UpdatedBy(events, ids)
  }

  lemma TellsConcat(a: seq<Event>, b: seq<Event>, ids: set<string>, r: seq<Message>, r': seq<Message>)
    requires Tells(a, ids, r) && Tells(b, ids, r')
    ensures Tells(a + b, ids, r + r')
  {
    EndedAsConcat(a, b);
  }

  lemma {:induction false} TellsNothing(events: seq<Event>, ids: set<string>)
    requires forall k :: 0 <= k < |events| ==> !events[k].ToolEnd?
    requires UpdatedBy(events, ids)
    ensures Tells(events, ids, [])
    decreases |events|
  {
    if events != [] {
      TellsNothing(events[..|events| - 1], ids);
    }
  }

  lemma TellsThen(a: seq<Event>, b: seq<Event>, ids: set<string>, r: seq<Message>)
    requires Tells(a, ids, r) && Tells(b, ids, [])
    ensures Tells(a + b, ids, r)
  {
    TellsConcat(a, b, ids, r, []);
    assert r + [] == r;
  }

  lemma TellsAfter(a: seq<Event>, b: seq<Event>, ids: set<string>, r: seq<Message>)
    requires Tells(a, ids, []) && Tells(b, ids, r)
    ensures Tells(a + b, ids, r)
  {
    TellsConcat(a, b, ids, [], r);
    assert [] + r == r;
  }

  ghost predicate AllOf(running: seq<RunningCall>, ids: set<string>) {
    forall k :: 0 <= k < |running| ==> running[k].call.ToolCall? && running[k].call.id in ids
  }

  lemma {:induction false} UpdatesTell(us: seq<nat>, running: seq<RunningCall>, ids: set<string>)
    requires AllRunning(running) && AllOf(running, ids)
    ensures Tells(Updates(us, running), ids, [])
    decreases |us|
  {
    if us == [] {
      TellsNothing([], ids);
    } else {
      var u := us[|us| - 1];
      var one := if u < |running| then [ToolUpdate(running[u].call.id)] else [];
      UpdatesTell(us[..|us| - 1], running, ids);
      TellsNothing(one, ids);
      TellsThen(Updates(us[..|us| - 1], running), one, ids, []);
    }
  }

  lemma EndTells(call: Block, outcome: Outcome, ids: set<string>)
    requires call.ToolCall?
    ensures Tells([ToolEnd(call.id, call.name, outcome)], ids, [ResultOf(call, outcome)])
  {
    var end := ToolEnd(call.id, call.name, outcome);
    assert [end][..0] == [] && EndedAs([]) == [];
    assert [] + [ResultOf(call, outcome)] == [ResultOf(call, outcome)];
  }

  lemma OtherTells(e: Event, ids: set<string>)
    requires !e.ToolEnd? && !e.ToolUpdate?
    ensures Tells([e], ids, [])
  {
    TellsNothing([e], ids);
  }

  lemma ReportTells(call: Block, outcome: Outcome, script: CallScript, others: seq<RunningCall>, ids: set<string>)
    requires call.ToolCall? && AllRunning(others) && AllOf(others, ids)
    ensures Tells(Report(call, outcome, script, others), ids, [ResultOf(call, outcome)])
  {
    UpdatesTell(script.moreUpdates, others, ids);
    UpdatesTell(script.lastUpdates, others, ids);
    EndTells(call, outcome, ids);
    ReportParts(ToolEnd(call.id, call.name, outcome), Updates(script.moreUpdates, others),
                Updates(script.lastUpdates, others), ResultOf(call, outcome), ids);
  }

  lemma ReportParts(end: Event, a: seq<Event>, b: seq<Event>, m: Message, ids: set<string>)
    requires Tells([end], ids, [m]) && Tells(a, ids, []) && Tells(b, ids, [])
    ensures Tells([end] + a + [MessageStart(m)] + b + [MessageEnd(m)], ids, [m])
  {
    OtherTells(MessageStart(m), ids);
    OtherTells(MessageEnd(m), ids);
    TellsThen([end], a, ids, [m]);
    TellsThen([end] + a, [MessageStart(m)], ids, [m]);
    TellsThen([end] + a + [MessageStart(m)], b, ids, [m]);
    TellsThen([end] + a + [MessageStart(m)] + b, [MessageEnd(m)], ids, [m]);
  }

  /** The ids of the calls that may run. */
  function IdsRun(b: Batch): set<string>
    requires BatchOk(b)
  {
    set k: nat | k < |b.calls| && MayRun(b, k) :: b.calls[k].id
  }

  lemma StartTells(call: Block, ids: set<string>)
    requires call.ToolCall?
    ensures Tells([ToolStart(call.id, call.name)], ids, [])
  {
    OtherTells(ToolStart(call.id, call.name), ids);
  }

  lemma SequentialCallTells(b: Batch, k: nat, ids: set<string>)
    requires BatchOk(b) && k < |b.calls| && ids == IdsRun(b)
    ensures
      var (events, result) := SequentialCall(b.tools, b.calls[k], ScriptAt(b.scripts, k));
      Tells(events, ids, [result])
  {
    var call, script := b.calls[k], ScriptAt(b.scripts, k);
    var start := [ToolStart(call.id, call.name)];
    StartTells(call, ids);
    match Prepare(b.tools, call, script)
    case Immediate(outcome) =>
      ReportTells(call, outcome, script, [], ids);
      TellsAfter(start, Report(call, outcome, script, []), ids, [ResultOf(call, outcome)]);
    case Prepared =>
      PreparedIffMayRun(b, k);
      var running := [RunningCall(0, call, script)];
      assert AllOf(running, ids);
      UpdatesTell(script.updates, running, ids);
      TellsThen(start, Updates(script.updates, running), ids, []);
      ReportTells(call, Finalize(script), script, [], ids);
      TellsAfter(start + Updates(script.updates, running), Report(call, Finalize(script), script, []), ids,
                 [ResultOf(call, Finalize(script))]);
  }

  ghost predicate PhaseTells(p: ToolPhase, ids: set<string>) { Tells(p.events, ids, p.results) }

  lemma SequentialStep(b: Batch, k: nat, p: ToolPhase, ids: set<string>)
    requires BatchOk(b) && k < |b.calls| && ids == IdsRun(b) && PhaseTells(p, ids)
    ensures
      var (events, result) := SequentialCall(b.tools, b.calls[k], ScriptAt(b.scripts, k));
      PhaseTells(ToolPhase(p.events + events, p.results + [result], []), ids)
  {
    var (events, result) := SequentialCall(b.tools, b.calls[k], ScriptAt(b.scripts, k));
    SequentialCallTells(b, k, ids);
    TellsConcat(p.events, events, ids, p.results, [result]);
  }

  lemma SequentialUnfolds(b: Batch, k: nat)
    requires BatchOk(b) && k < |b.calls|
    ensures
      var p := Sequential(b.tools, b.calls, b.scripts, k);
      var (events, result) := SequentialCall(b.tools, b.calls[k], ScriptAt(b.scripts, k));
      Sequential(b.tools, b.calls, b.scripts, k + 1) == ToolPhase(p.events + events, p.results + [result], [])
  {}

  lemma {:induction false} SequentialTells(b: Batch, k: nat, ids: set<string>)
    requires BatchOk(b) && k <= |b.calls| && ids == IdsRun(b)
    ensures PhaseTells(Sequential(b.tools, b.calls, b.scripts, k), ids)
  {
    if k == 0 {
      TellsNothing([], ids);
    } else {
      SequentialTells(b, k - 1, ids);
      SequentialStep(b, k - 1, Sequential(b.tools, b.calls, b.scripts, k - 1), ids);
      SequentialUnfolds(b, k - 1);
    }
  }

  /** One more call is prepared. */
  ghost predicate OneMore(b: Batch, k: nat, p: ToolPhase, q: ToolPhase)
    requires BatchOk(b) && k < |b.calls|
  {
    var call, script := b.calls[k], ScriptAt(b.scripts, k);
    var start := [ToolStart(call.id, call.name)];
    match Prepare(b.tools, call, script)
    case Immediate(outcome) =>
      && q.events == p.events + (start + Report(call, outcome, script, []))
      && q.results == p.results + [ResultOf(call, outcome)] && q.running == p.running
    case Prepared =>
      q.events == p.events + start && q.results == p.results && q.running == p.running + [RunningCall(k, call, script)]
  }

  lemma PrepareTells(b: Batch, k: nat, p: ToolPhase, q: ToolPhase, ids: set<string>)
    requires BatchOk(b) && k < |b.calls| && ids == IdsRun(b) && OneMore(b, k, p, q)
    requires PhaseTells(p, ids) && AllOf(p.running, ids)
    ensures PhaseTells(q, ids) && AllOf(q.running, ids)
  {
    var call, script := b.calls[k], ScriptAt(b.scripts, k);
    var start := [ToolStart(call.id, call.name)];
    StartTells(call, ids);
    PreparedIffMayRun(b, k);
    match Prepare(b.tools, call, script)
    case Immediate(outcome) =>
      ReportTells(call, outcome, script, [], ids);
      TellsAfter(start, Report(call, outcome, script, []), ids, [ResultOf(call, outcome)]);
      TellsConcat(p.events, start + Report(call, outcome, script, []), ids, p.results, [ResultOf(call, outcome)]);
    case Prepared => TellsThen(p.events, start, ids, p.results);
  }

  lemma PrepareAllUnfolds(b: Batch, k: nat)
    requires BatchOk(b) && k < |b.calls|
    ensures OneMore(b, k, PrepareAll(b.tools, b.calls, b.scripts, k), PrepareAll(b.tools, b.calls, b.scripts, k + 1))
  {}

  lemma {:induction false} PrepareAllTells(b: Batch, k: nat, ids: set<string>)
    requires BatchOk(b) && k <= |b.calls| && ids == IdsRun(b)
    ensures
      var r := PrepareAll(b.tools, b.calls, b.scripts, k);
      PhaseTells(r, ids) && AllOf(r.running, ids)
  {
    if k == 0 {
      TellsNothing([], ids);
    } else {
      PrepareAllTells(b, k - 1, ids);
      PrepareAllUnfolds(b, k - 1);
      PrepareTells(b, k - 1, PrepareAll(b.tools, b.calls, b.scripts, k - 1),
                   PrepareAll(b.tools, b.calls, b.scripts, k), ids);
    }
  }

  lemma {:induction false} FinishAllTells(running: seq<RunningCall>, k: nat, ids: set<string>)
    requires AllRunning(running) && AllOf(running, ids) && k <= |running|
    ensures var (events, results) := FinishAll(running, k); Tells(events, ids, results)
  {
    if k == 0 {
      TellsNothing([], ids);
    } else {
      var (events, results) := FinishAll(running, k - 1);
      var r := running[k - 1];
      var updates := Updates(r.script.updates, running[k - 1..]);
      var report := Report(r.call, Finalize(r.script), r.script, running[k..]);
      FinishAllTells(running, k - 1, ids);
      UpdatesTell(r.script.updates, running[k - 1..], ids);
      ReportTells(r.call, Finalize(r.script), r.script, running[k..], ids);
      TellsAfter(updates, report, ids, [ResultOf(r.call, Finalize(r.script))]);
      TellsConcat(events, updates + report, ids, results, [ResultOf(r.call, Finalize(r.script))]);
    }
  }

  /** In either mode the tool ends tell of just the results, in their order, and no update comes from a call that does
      not run. */
  lemma EventsTellResults(mode: ToolMode, b: Batch)
    requires BatchOk(b)
    ensures
      var r := ExecuteToolCalls(mode, b.tools, b.calls, b.scripts);
      Tells(r.events, IdsRun(b), r.results)
  {
    var ids, n := IdsRun(b), |b.calls|;
    if mode == SequentialMode {
      SequentialTells(b, n, ids);
    } else {
      var prepared := PrepareAll(b.tools, b.calls, b.scripts, n);
      var (events, results) := FinishAll(prepared.running, |prepared.running|);
      PrepareAllTells(b, n, ids);
      FinishAllTells(prepared.running, |prepared.running|, ids);
      TellsConcat(prepared.events, events, ids, prepared.results, results);
    }
  }

  /** A call that may not run, and shares its id with none that may, makes no update. */
  lemma RefusedIsSilent(mode: ToolMode, b: Batch, k: nat, j: nat)
    requires BatchOk(b) && k < |b.calls| && !MayRun(b, k)
    requires forall i: nat :: i < |b.calls| && b.calls[i].id == b.calls[k].id ==> !MayRun(b, i)
    requires j < |ExecuteToolCalls(mode, b.tools, b.calls, b.scripts).events|
    ensures ExecuteToolCalls(mode, b.tools, b.calls, b.scripts).events[j] != ToolUpdate(b.calls[k].id)
  {
    EventsTellResults(mode, b);
  }

  // ----- The events of sequential execution -----

  function Repeated(e: Event, n: nat): seq<Event> { if n == 0 then [] else Repeated(e, n - 1) + [e] }

  /** How many updates the one running call makes. */
  function Made(us: seq<nat>): nat { multiset(us)[0] }

  lemma MadeStep(us: seq<nat>)
    requires us != []
    ensures Made(us) == Made(us[..|us| - 1]) + if us[|us| - 1] == 0 then 1 else 0
  {
    assert us == us[..|us| - 1] + [us[|us| - 1]];
  }

  lemma OwnUpdate(us: seq<nat>, r: RunningCall)
    requires r.call.ToolCall? && us != []
    ensures
      Updates(us, [r])
      == Updates(us[..|us| - 1], [r]) + if us[|us| - 1] == 0 then [ToolUpdate(r.call.id)] else []
  {}

  lemma RepeatedStep(e: Event, n: nat, more: bool)
    ensures Repeated(e, n) + (if more then [e] else []) == Repeated(e, if more then n + 1 else n)
  {}

  /** Updates of the one call that is running: one for each that its tool makes. */
  lemma {:induction false} OwnUpdates(us: seq<nat>, r: RunningCall)
    requires r.call.ToolCall?
    ensures Updates(us, [r]) == Repeated(ToolUpdate(r.call.id), Made(us))
    decreases |us|
  {
    if us != [] {
      OwnUpdates(us[..|us| - 1], r);
      OwnUpdate(us, r);
      MadeStep(us);
      RepeatedStep(ToolUpdate(r.call.id), Made(us[..|us| - 1]), us[|us| - 1] == 0);
    }
  }

  lemma {:induction false} NobodyUpdates(us: seq<nat>)
    ensures Updates(us, []) == []
    decreases |us|
  {
    if us != [] {
      NobodyUpdates(us[..|us| - 1]);
    }
  }

  /** A call on its own: its start, the updates its tool makes if it runs, its end, and its result as a message. */
  function CallTold(b: Batch, k: nat, m: Message): seq<Event>
    requires BatchOk(b) && k < |b.calls| && m.ToolResult?
  {
    var call := b.calls[k];
    [ToolStart(call.id, call.name)]
    + Repeated(ToolUpdate(call.id), if MayRun(b, k) then Made(ScriptAt(b.scripts, k).updates) else 0)
    + [ToolEnd(m.toolCallId, m.toolName, m.outcome), MessageStart(m), MessageEnd(m)]
  }

  lemma LoneReport(call: Block, outcome: Outcome, script: CallScript)
    requires call.ToolCall?
    ensures
      var m := ResultOf(call, outcome);
      Report(call, outcome, script, []) == [ToolEnd(call.id, call.name, outcome), MessageStart(m), MessageEnd(m)]
  {
    NobodyUpdates(script.moreUpdates);
    NobodyUpdates(script.lastUpdates);
  }

  lemma SequentialCallTold(b: Batch, k: nat)
    requires BatchOk(b) && k < |b.calls|
    ensures
      var (events, result) := SequentialCall(b.tools, b.calls[k], ScriptAt(b.scripts, k));
      events == CallTold(b, k, result)
  {
    var call, script := b.calls[k], ScriptAt(b.scripts, k);
    PreparedIffMayRun(b, k);
    match Prepare(b.tools, call, script)
    case Immediate(outcome) =>
      LoneReport(call, outcome, script);
      assert [ToolStart(call.id, call.name)] + [] == [ToolStart(call.id, call.name)];
    case Prepared =>
      LoneReport(call, Finalize(script), script);
      OwnUpdates(script.updates, RunningCall(0, call, script));
  }

  /** The calls one after another. */
  function CallsTold(b: Batch, results: seq<Message>): seq<Event>
    requires BatchOk(b) && |results| <= |b.calls| && forall k :: 0 <= k < |results| ==> results[k].ToolResult?
  {
    if results == [] then []
    else CallsTold(b, results[..|results| - 1]) + CallTold(b, |results| - 1, results[|results| - 1])
  }

  ghost predicate IsTold(b: Batch, p: ToolPhase, k: nat)
    requires BatchOk(b) && k <= |b.calls|
  {
    && |p.results| == k && (forall i :: 0 <= i < k ==> p.results[i].ToolResult?)
    && p.events == CallsTold(b, p.results)
  }

  lemma OneMoreTold(b: Batch, k: nat, p: ToolPhase, events: seq<Event>, result: Message, q: ToolPhase)
    requires BatchOk(b) && k < |b.calls| && IsTold(b, p, k) && result.ToolResult?
    requires events == CallTold(b, k, result) && q == ToolPhase(p.events + events, p.results + [result], [])
    ensures IsTold(b, q, k + 1)
  {
    assert q.results[..k] == p.results;
  }

  lemma SequentialNextTold(b: Batch, k: nat)
    requires BatchOk(b) && k < |b.calls| && IsTold(b, Sequential(b.tools, b.calls, b.scripts, k), k)
    ensures IsTold(b, Sequential(b.tools, b.calls, b.scripts, k + 1), k + 1)
  {
    var (events, result) := SequentialCall(b.tools, b.calls[k], ScriptAt(b.scripts, k));
    SequentialCallTold(b, k);
    SequentialUnfolds(b, k);
    OneMoreTold(b, k, Sequential(b.tools, b.calls, b.scripts, k), events, result,
                Sequential(b.tools, b.calls, b.scripts, k + 1));
  }

  /** Sequential execution tells of one call after another, in source order: each whole before the next starts. */
  lemma {:induction false} SequentialTold(b: Batch, k: nat)
    requires BatchOk(b) && k <= |b.calls|
    ensures IsTold(b, Sequential(b.tools, b.calls, b.scripts, k), k)
  {
    if k > 0 {
      SequentialTold(b, k - 1);
      SequentialNextTold(b, k - 1);
    }
  }
}
