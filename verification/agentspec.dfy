/** The agent loop as a function of what its environment does: model replies, tool calls, hooks, arriving messages. */
module AgentSpec {
  import opened Text
  import opened AgentTypes

  // ----- One model reply -----

  /** A stream event: a start, any of the deltas, or the terminal done or error. Partials are assistant messages. */
  datatype StreamEvent = Started(partial: Message) | Delta(partial: Message) | Finished

  /** What a reply leaves behind: the transcript and the events emitted. */
  datatype Streamed = Streamed(context: seq<Message>, events: seq<Event>, added: bool)

  function StreamStep(r: Streamed, e: StreamEvent): Streamed {
    match e
    case Started(partial) => Streamed(r.context + [partial], r.events + [MessageStart(partial)], true)
    case Delta(partial) =>
      if r.added && r.context != [] then
        Streamed(r.context[|r.context| - 1 := partial], r.events + [MessageUpdate(partial)], true)
      else r
    case Finished => r
  }

  /** The first terminal event from `j` on, or the end of the stream. */
  function FinishFrom(stream: seq<StreamEvent>, j: nat): (r: nat)
    requires j <= |stream|
    ensures j <= r <= |stream|
    decreases |stream| - j
  {
    if j == |stream| || stream[j].Finished? then j else FinishFrom(stream, j + 1)
  }

  /** The stream events up to the first terminal one; the loop leaves the stream there. */
  function UpToFinish(stream: seq<StreamEvent>): seq<StreamEvent> { stream[..FinishFrom(stream, 0)] }

  function StreamAll(context: seq<Message>, stream: seq<StreamEvent>): Streamed {
    if stream == [] then Streamed(context, [], false)
    else StreamStep(StreamAll(context, stream[..|stream| - 1]), stream[|stream| - 1])
  }

  /** The final message replaces the partial one, or is added when the stream never started. */
  function Finish(r: Streamed, final: Message): Streamed {
    if r.added && r.context != [] then
      Streamed(r.context[|r.context| - 1 := final], r.events + [MessageEnd(final)], true)
    else Streamed(r.context + [final], r.events + [MessageStart(final), MessageEnd(final)], true)
  }

  function StreamReply(context: seq<Message>, stream: seq<StreamEvent>, final: Message): Streamed {
    Finish(StreamAll(context, UpToFinish(stream)), final)
  }

  // ----- Tool calls -----

  datatype Override = Override(content: Option<string>, details: Option<string>, isError: Option<bool>)

  /** A tool returns content and details, or throws. */
  datatype Execution = Returned(content: string, details: string) | Threw(message: string)

  /** What the environment does to one tool call: argument validation may throw, the hook before may block with a
      reason, the tool returns or throws, the hook after may override parts of it, and updates of running calls are
      emitted before the call ends, and between the events that report its result. */
  datatype CallScript = CallScript(invalid: Option<string>, blocked: Option<string>, executed: Execution,
                                   overriding: Option<Override>, updates: seq<nat>, moreUpdates: seq<nat>,
                                   lastUpdates: seq<nat>)

  const SILENT := CallScript(None, None, Returned("", ""), None, [], [], [])

  function ScriptAt(scripts: seq<CallScript>, k: nat): CallScript {
    if k < |scripts| then scripts[k] else SILENT
  }

  datatype Preparation = Immediate(outcome: Outcome) | Prepared

  function ErrorOutcome(message: string): Outcome { Outcome(message, "{}", true) }

  function Prepare(tools: seq<string>, call: Block, script: CallScript): Preparation
    requires call.ToolCall?
  {
    if call.name !in tools then Immediate(ErrorOutcome("Tool " + call.name + " not found"))
    else if script.invalid.Some? then Immediate(ErrorOutcome(script.invalid.value))
    else if script.blocked.Some? then
      Immediate(ErrorOutcome(if script.blocked.value == "" then "Tool execution was blocked" else script.blocked.value))
    else Prepared
  }

  function Or<T>(a: Option<T>, b: T): T { if a.Some? then a.value else b }

  /** A tool that throws gives an error outcome. */
  function Executed(script: CallScript): Outcome {
    match script.executed
    case Returned(content, details) => Outcome(content, details, false)
    case Threw(message) => ErrorOutcome(message)
  }

  /** The hook after a call overrides field by field. */
  function Finalize(script: CallScript): Outcome {
    var executed := Executed(script);
    if script.overriding.None? then executed
    else
      var o := script.overriding.value;
      Outcome(Or(o.content, executed.content), Or(o.details, executed.details), Or(o.isError, executed.isError))
  }

  function ResultOf(call: Block, outcome: Outcome): Message
    requires call.ToolCall?
  {
    ToolResult(call.id, call.name, outcome)
  }

  datatype RunningCall = RunningCall(index: nat, call: Block, script: CallScript)

  /** Updates of calls that are still running. */
  function Updates(us: seq<nat>, running: seq<RunningCall>): seq<Event>
    requires forall k :: 0 <= k < |running| ==> running[k].call.ToolCall?
  {
    if us == [] then []
    else
      var u := us[|us| - 1];
      Updates(us[..|us| - 1], running) + if u < |running| then [ToolUpdate(running[u].call.id)] else []
  }

  /** The report of a call's outcome, with updates of the calls that go on running. */
  function Report(call: Block, outcome: Outcome, script: CallScript, others: seq<RunningCall>): seq<Event>
    requires call.ToolCall? && forall k :: 0 <= k < |others| ==> others[k].call.ToolCall?
  {
    var m := ResultOf(call, outcome);
    [ToolEnd(call.id, call.name, outcome)] + Updates(script.moreUpdates, others)
    + [MessageStart(m)] + Updates(script.lastUpdates, others) + [MessageEnd(m)]
  }

  ghost predicate AllCalls(calls: seq<Block>) {
    forall k :: 0 <= k < |calls| ==> calls[k].ToolCall?
  }

  ghost predicate AllRunning(running: seq<RunningCall>) {
    forall k :: 0 <= k < |running| ==> running[k].call.ToolCall?
  }

  datatype ToolPhase = ToolPhase(events: seq<Event>, results: seq<Message>, running: seq<RunningCall>)

  /** One call, from its start to the report of its result. */
  function SequentialCall(tools: seq<string>, call: Block, script: CallScript): (seq<Event>, Message)
    requires call.ToolCall?
  {
    var start := [ToolStart(call.id, call.name)];
    match Prepare(tools, call, script)
    case Immediate(outcome) => (start + Report(call, outcome, script, []), ResultOf(call, outcome))
    case Prepared =>
      (start + Updates(script.updates, [RunningCall(0, call, script)]) + Report(call, Finalize(script), script, []),
       ResultOf(call, Finalize(script)))
  }

  /** The first `k` calls, each finished before the next starts. */
  function Sequential(tools: seq<string>, calls: seq<Block>, scripts: seq<CallScript>, k: nat): ToolPhase
    requires AllCalls(calls) && k <= |calls|
  {
    if k == 0 then ToolPhase([], [], [])
    else
      var before := Sequential(tools, calls, scripts, k - 1);
      var (events, result) := SequentialCall(tools, calls[k - 1], ScriptAt(scripts, k - 1));
      ToolPhase(before.events + events, before.results + [result], [])
  }

  /** Preparing the first `k` calls: immediate outcomes are reported at once, the other calls are left running. */
  function PrepareAll(tools: seq<string>, calls: seq<Block>, scripts: seq<CallScript>, k: nat): (r: ToolPhase)
    requires AllCalls(calls) && k <= |calls|
    ensures AllRunning(r.running)
  {
    if k == 0 then ToolPhase([], [], [])
    else
      var before := PrepareAll(tools, calls, scripts, k - 1);
      var call, script := calls[k - 1], ScriptAt(scripts, k - 1);
      var start := [ToolStart(call.id, call.name)];
      match Prepare(tools, call, script)
      case Immediate(outcome) =>
        ToolPhase(before.events + (start + Report(call, outcome, script, [])),
                  before.results + [ResultOf(call, outcome)], before.running)
      case Prepared =>
        ToolPhase(before.events + start, before.results, before.running + [RunningCall(k - 1, call, script)])
  }

  /** Awaiting the first `k` running calls in order, while the later ones run on. */
  function FinishAll(running: seq<RunningCall>, k: nat): (seq<Event>, seq<Message>)
    requires AllRunning(running) && k <= |running|
  {
    if k == 0 then ([], [])
    else
      var (events, results) := FinishAll(running, k - 1);
      var r := running[k - 1];
      var outcome := Finalize(r.script);
      (events + (Updates(r.script.updates, running[k - 1..]) + Report(r.call, outcome, r.script, running[k..])),
       results + [ResultOf(r.call, outcome)])
  }

  function Parallel(tools: seq<string>, calls: seq<Block>, scripts: seq<CallScript>): ToolPhase
    requires AllCalls(calls)
  {
    var prepared := PrepareAll(tools, calls, scripts, |calls|);
    var (events, results) := FinishAll(prepared.running, |prepared.running|);
    ToolPhase(prepared.events + events, prepared.results + results, [])
  }

  datatype ToolMode = SequentialMode | ParallelMode

  function ExecuteToolCalls(mode: ToolMode, tools: seq<string>, calls: seq<Block>, scripts: seq<CallScript>): ToolPhase
    requires AllCalls(calls)
  {
    if mode == SequentialMode then Sequential(tools, calls, scripts, |calls|) else Parallel(tools, calls, scripts)
  }

  // ----- The queues -----

  datatype QueueMode = All | OneAtATime

  datatype Queue = Queue(mode: QueueMode, messages: seq<Message>)

  function Enqueue(q: Queue, arrivals: seq<Message>): Queue { q.(messages := q.messages + arrivals) }

  /** The messages drained, and the queue left. */
  function Drain(q: Queue): (seq<Message>, Queue) {
    if q.mode == All then (q.messages, q.(messages := []))
    else if q.messages == [] then ([], q)
    else ([q.messages[0]], q.(messages := q.messages[1..]))
  }

  // ----- The loop -----

  /** Messages that arrive in the two queues while the loop waits. */
  datatype Arrivals = Arrivals(steering: seq<Message>, followUp: seq<Message>)

  const NOTHING := Arrivals([], [])

  /** One turn of the environment: a reply, its tool calls, and what arrives before each of the two polls. */
  datatype Turn = Turn(stream: seq<StreamEvent>, final: Message, calls: seq<CallScript>, beforeSteering: Arrivals,
                       beforeFollowUp: Arrivals)

  datatype Source = Prompt | Steering | FollowUp

  datatype Poll = Poll(source: Source, messages: seq<Message>)

  /** A turn end: how many events there were, and the two message lists of the loop. */
  datatype Snapshot = Snapshot(at: nat, context: seq<Message>, newMessages: seq<Message>)

  /** The loop's variables, and a record of the run: what arrived in the queues, its events, injected messages, polls,
      model requests and turn ends. */
  datatype Loop = Loop(context: seq<Message>, newMessages: seq<Message>, pending: seq<Message>, from: Source,
                       steering: Queue, followUp: Queue, skipPoll: bool, arrived: Arrivals,
                       events: seq<Event>, injected: seq<Poll>, polls: seq<Poll>, requests: seq<seq<Message>>,
                       snapshots: seq<Snapshot>)

  function Emit(l: Loop, events: seq<Event>): Loop { l.(events := l.events + events) }

  function Arrive(l: Loop, a: Arrivals): Loop {
    l.(steering := Enqueue(l.steering, a.steering), followUp := Enqueue(l.followUp, a.followUp),
       arrived := Arrivals(l.arrived.steering + a.steering, l.arrived.followUp + a.followUp))
  }

  /** The steering poll; the first one of a run may be skipped. */
  function PollSteering(l: Loop): Loop {
    if l.skipPoll then l.(skipPoll := false, pending := [], from := Steering)
    else
      var (drained, left) := Drain(l.steering);
      l.(steering := left, pending := drained, from := Steering, polls := l.polls + [Poll(Steering, drained)])
  }

  function PollFollowUp(l: Loop): Loop {
    var (drained, left) := Drain(l.followUp);
    l.(followUp := left, pending := drained, from := FollowUp, polls := l.polls + [Poll(FollowUp, drained)])
  }

  /** A message start and end for each of a list of messages. */
  function Announce(messages: seq<Message>): seq<Event> {
    if messages == [] then []
    else
      var last := messages[|messages| - 1];
      Announce(messages[..|messages| - 1]) + [MessageStart(last), MessageEnd(last)]
  }

  /** Pending messages enter the transcript before the next reply. */
  function InjectPending(l: Loop): Loop {
    l.(events := l.events + Announce(l.pending), context := l.context + l.pending,
       newMessages := l.newMessages + l.pending, injected := l.injected + [Poll(l.from, l.pending)], pending := [])
  }

  /** The first steps of a turn, up to the model request. */
  function BeginTurn(l: Loop, first: bool): Loop {
    var started := InjectPending(if first then l else Emit(l, [TurnStart]));
    started.(requests := started.requests + [started.context])
  }

  function TakeReply(l: Loop, turn: Turn): Loop {
    var r := StreamReply(l.context, turn.stream, turn.final);
    l.(context := r.context, events := l.events + r.events, newMessages := l.newMessages + [turn.final])
  }

  function TakeToolPhase(l: Loop, phase: ToolPhase): Loop {
    l.(events := l.events + phase.events, context := l.context + phase.results,
       newMessages := l.newMessages + phase.results)
  }

  function EndTurn(l: Loop, message: Message, results: seq<Message>): Loop {
    l.(events := l.events + [TurnEnd(message, results)],
       snapshots := l.snapshots + [Snapshot(|l.events| + 1, l.context, l.newMessages)])
  }

  predicate EndsRun(final: Message) {
    final.Assistant? && (final.stopReason == ErrorStop || final.stopReason == Aborted)
  }

  lemma {:induction false} CallsAreCalls(content: seq<Block>)
    ensures AllCalls(Calls(content))
    decreases |content|
  {
    if content != [] {
      CallsAreCalls(content[..|content| - 1]);
    }
  }

  function CallsOf(final: Message): (calls: seq<Block>)
    ensures AllCalls(calls)
  {
    if final.Assistant? then CallsAreCalls(final.content);
    ToolCalls(final)
    else []
  }

  /** A reply's turn, up to its end. */
  function TakeTurn(l: Loop, mode: ToolMode, tools: seq<string>, turn: Turn): Loop {
    var replied := TakeReply(l, turn);
    if EndsRun(turn.final) then EndTurn(replied, turn.final, [])
    else
      var phase := ExecuteToolCalls(mode, tools, CallsOf(turn.final), turn.calls);
      EndTurn(TakeToolPhase(replied, phase), turn.final, phase.results)
  }

  datatype Ending = Completed | Failed | Thrown

  function Close(l: Loop): Loop { Emit(l, [AgentEnd(l.newMessages)]) }

  /** The polls after a turn, and whether they or the reply's tool calls ask for another turn. */
  function AfterTurn(l: Loop, turn: Turn): (Loop, bool) {
    var polled := PollSteering(Arrive(l, turn.beforeSteering));
    if CallsOf(turn.final) != [] || polled.pending != [] then (polled, true)
    else
      var followed := PollFollowUp(Arrive(polled, turn.beforeFollowUp));
      (followed, followed.pending != [])
  }

  /** The loop from the start of a turn: with no reply left the model call throws. */
  function RunTurns(l: Loop, first: bool, mode: ToolMode, tools: seq<string>, script: seq<Turn>): (Loop, Ending)
    decreases |script|
  {
    var begun := BeginTurn(l, first);
    if script == [] then (begun, Thrown)
    else
      var taken := TakeTurn(begun, mode, tools, script[0]);
      if EndsRun(script[0].final) then (Close(taken), Failed)
      else
        var (next, again) := AfterTurn(taken, script[0]);
        if again then RunTurns(next, false, mode, tools, script[1..]) else (Close(next), Completed)
  }

  /** A run that starts with prompts. */
  function StartPrompts(context: seq<Message>, prompts: seq<Message>, from: Source, steering: Queue, followUp: Queue,
                        skipPoll: bool): Loop
  {
    Loop(context + prompts, prompts, [], from, steering, followUp, skipPoll, NOTHING,
         [AgentStart, TurnStart] + Announce(prompts), [Poll(from, prompts)], [], [], [])
  }

  /** A run that continues from the transcript. */
  function StartContinue(context: seq<Message>, steering: Queue, followUp: Queue): Loop {
    Loop(context, [], [], Prompt, steering, followUp, false, NOTHING, [AgentStart, TurnStart], [Poll(Prompt, [])],
         [], [], [])
  }

  /** The whole loop; messages may also arrive before its first steering poll. */
  function RunLoop(l: Loop, initial: Arrivals, mode: ToolMode, tools: seq<string>, script: seq<Turn>): (Loop, Ending) {
    RunTurns(PollSteering(Arrive(l, initial)), true, mode, tools, script)
  }
}
