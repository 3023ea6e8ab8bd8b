/** The agent and its loop as they run: queues, reduced state and run variables changed in place. */
module Agents {
  import opened Text
  import opened AgentTypes
  import opened AgentSpec
  import opened AgentSessions

  class PendingMessageQueue {
    var mode: QueueMode
    var messages: seq<Message>

    ghost function Contents(): Queue
      reads this
    {
      Queue(mode, messages)
    }

    constructor (mode: QueueMode)
      ensures Contents() == Queue(mode, [])
    {
      this.mode := mode;
      messages := [];
    }

    method Enqueue(m: Message)
      modifies `messages
      ensures Contents() == AgentSpec.Enqueue(old(Contents()), [m])
    {
      messages := messages + [m];
    }

    method HasItems() returns (r: bool)
      ensures r <==> messages != []
    {
      r := |messages| > 0;
    }

    method Drain() returns (drained: seq<Message>)
      modifies `messages
      ensures (drained, Contents()) == AgentSpec.Drain(old(Contents()))
    {
      if mode == All {
        drained := messages;
        messages := [];
        return;
      }
      if |messages| == 0 {
        return [];
      }
      drained := [messages[0]];
      messages := messages[1..];
    }

    method Clear()
      modifies `messages
      ensures Contents() == Queue(old(mode), [])
    {
      messages := [];
    }
  }

  lemma ReduceAppend(st: AgentState, events: seq<Event>, e: Event)
    ensures ReduceAll(st, events + [e]) == Reduce(ReduceAll(st, events), e)
  {
    assert (events + [e])[..|events|] == events;
  }

  /** The agent reduced the run's events, and its listeners heard them. */
  ghost predicate Mirrors(st: AgentState, heard: seq<Event>, before: Session, events: seq<Event>) {
    forall reduced: AgentState {:trigger Reduced(reduced, before, events)} ::
      Reduced(reduced, before, events) ==> st == reduced && heard == before.heard + events
  }

  ghost predicate Reduced(reduced: AgentState, before: Session, events: seq<Event>) {
    reduced == ReduceAll(BeginRun(before.state), events)
  }

  lemma MirrorsMeans(st: AgentState, heard: seq<Event>, before: Session, events: seq<Event>)
    requires Mirrors(st, heard, before, events)
    ensures st == ReduceAll(BeginRun(before.state), events) && heard == before.heard + events
  {
    assert Reduced(ReduceAll(BeginRun(before.state), events), before, events);
  }

  lemma MirrorsNext(st: AgentState, heard: seq<Event>, before: Session, events: seq<Event>, e: Event)
    requires Mirrors(st, heard, before, events)
    ensures Mirrors(Reduce(st, e), heard + [e], before, events + [e])
  {
    MirrorsMeans(st, heard, before, events);
    ReduceAppend(BeginRun(before.state), events, e);
    assert before.heard + events + [e] == before.heard + (events + [e]);
  }

  lemma HeardIs(before: seq<Event>, r: Loop, ending: Ending, env: Environment)
    ensures
      before + Heard(r, ending, env)
      == if ending == Thrown then before + r.events + [AgentEnd([FailureMessage(env)])] else before + r.events
  {}

  lemma MirrorsNone(before: Session)
    ensures Mirrors(BeginRun(before.state), before.heard, before, [])
  {
    assert before.heard + [] == before.heard;
  }

  ghost function AllEnqueued(before: Session, arrived: Arrivals): Arrivals {
    Arrivals(before.enqueued.steering + arrived.steering, before.enqueued.followUp + arrived.followUp)
  }

  lemma EnqueuedMore(before: Session, arrived: Arrivals, a: Arrivals)
    ensures
      AllEnqueued(before, Arrivals(arrived.steering + a.steering, arrived.followUp + a.followUp))
      == Arrivals(AllEnqueued(before, arrived).steering + a.steering,
                  AllEnqueued(before, arrived).followUp + a.followUp)
    ensures
      a.steering == [] ==> AllEnqueued(before, arrived).steering + a.steering == AllEnqueued(before, arrived).steering
    ensures
      a.followUp == [] ==> AllEnqueued(before, arrived).followUp + a.followUp == AllEnqueued(before, arrived).followUp
  {}

  lemma EnqueuesNothing(q: Queue)
    ensures AgentSpec.Enqueue(q, []) == q
  {
    assert q.messages + [] == q.messages;
  }

  lemma NothingArrives(l: Loop)
    ensures Arrive(l, NOTHING) == l
  {
    EnqueuesNothing(l.steering);
    EnqueuesNothing(l.followUp);
    assert l.arrived.steering + [] == l.arrived.steering && l.arrived.followUp + [] == l.arrived.followUp;
  }

  lemma ArriveSteering(l: Loop, ms: seq<Message>, k: nat)
    requires k < |ms|
    ensures
      Arrive(Arrive(l, Arrivals(ms[..k], [])), Arrivals([ms[k]], [])) == Arrive(l, Arrivals(ms[..k + 1], []))
  {
    assert ms[..k + 1] == ms[..k] + [ms[k]];
    Appended(l.steering.messages, ms, k);
    Appended(l.arrived.steering, ms, k);
  }

  lemma ArriveFollowUp(l: Loop, steering: seq<Message>, ms: seq<Message>, k: nat)
    requires k < |ms|
    ensures
      Arrive(Arrive(l, Arrivals(steering, ms[..k])), Arrivals([], [ms[k]]))
      == Arrive(l, Arrivals(steering, ms[..k + 1]))
  {
    Appended(l.followUp.messages, ms, k);
    Appended(l.arrived.followUp, ms, k);
    assert l.steering.messages + steering + [] == l.steering.messages + steering;
    assert l.arrived.steering + steering + [] == l.arrived.steering + steering;
  }

  lemma Appended<T>(a: seq<T>, ms: seq<T>, k: nat)
    requires k < |ms|
    ensures a + ms[..k] + [ms[k]] == a + ms[..k + 1] && a + ms[..k] + [] == a + ms[..k]
  {}

  lemma EmitTwice(l: Loop, a: seq<Event>, b: seq<Event>)
    ensures Emit(Emit(l, a), b) == Emit(l, a + b)
    ensures Emit(l, []) == l
  {
    assert l.events + a + b == l.events + (a + b);
    assert l.events + [] == l.events;
  }

  lemma AnnounceNext(messages: seq<Message>, k: nat)
    requires k < |messages|
    ensures
      Announce(messages[..k + 1]) == Announce(messages[..k]) + ([MessageStart(messages[k])] + [MessageEnd(messages[k])])
  {
    assert messages[..k + 1][..k] == messages[..k];
  }

  lemma UpdatesNext(us: seq<nat>, running: seq<RunningCall>, k: nat)
    requires AllRunning(running) && k < |us|
    ensures
      Updates(us[..k + 1], running)
      == Updates(us[..k], running) + if us[k] < |running| then [ToolUpdate(running[us[k]].call.id)] else []
  {
    assert us[..k + 1][..k] == us[..k];
  }

  class Agent {
    var messages: seq<Message>
    var isStreaming: bool
    var streamingMessage: Option<Message>
    var pendingToolCalls: set<string>
    var errorMessage: Option<string>
    var activeRun: bool
    /** What the listeners were given. */
    var heard: seq<Event>
    const tools: seq<string>
    const toolExecution: ToolMode
    const steeringQueue: PendingMessageQueue
    const followUpQueue: PendingMessageQueue
    ghost var enqueued: Arrivals
    ghost var injected: seq<Poll>

    ghost predicate Valid() { steeringQueue != followUpQueue }

    ghost function State(): AgentState
      reads this
    {
      AgentState(messages, streamingMessage, pendingToolCalls, errorMessage)
    }

    ghost function SessionNow(): Session
      reads this, steeringQueue, followUpQueue
    {
      Session(State(), steeringQueue.Contents(), followUpQueue.Contents(), heard, enqueued, injected)
    }

    ghost function SetupNow(): Setup { Setup(toolExecution, tools) }

    constructor (messages: seq<Message>, tools: seq<string>, toolExecution: ToolMode, steeringMode: QueueMode,
                 followUpMode: QueueMode)
      ensures Valid() && fresh(steeringQueue) && fresh(followUpQueue) && !activeRun && !isStreaming
      ensures SetupNow() == Setup(toolExecution, tools)
      ensures
        SessionNow() == Session(AgentState(messages, None, {}, None), Queue(steeringMode, []), Queue(followUpMode, []),
                                [], NOTHING, [])
    {
      this.messages := messages;
      isStreaming, streamingMessage, pendingToolCalls, errorMessage := false, None, {}, None;
      activeRun, heard := false, [];
      this.tools := tools;
      this.toolExecution := toolExecution;
      steeringQueue := new PendingMessageQueue(steeringMode);
      followUpQueue := new PendingMessageQueue(followUpMode);
      enqueued, injected := NOTHING, [];
    }

    method Steer(m: Message)
      requires Valid()
      modifies steeringQueue, `enqueued
      ensures SessionNow() == AfterSteer(old(SessionNow()), m)
    {
      steeringQueue.Enqueue(m);
      enqueued := enqueued.(steering := enqueued.steering + [m]);
    }

    method FollowUp(m: Message)
      requires Valid()
      modifies followUpQueue, `enqueued
      ensures SessionNow() == AfterFollowUp(old(SessionNow()), m)
    {
      followUpQueue.Enqueue(m);
      enqueued := enqueued.(followUp := enqueued.followUp + [m]);
    }

    /** Reduces the state for an event, and hands the event to the listeners; outside a run that last step throws. */
    method ProcessEvents(e: Event) returns (delivered: bool)
      modifies `messages, `streamingMessage, `pendingToolCalls, `errorMessage, `heard
      ensures State() == Reduce(old(State()), e)
      ensures delivered == activeRun && heard == if delivered then old(heard) + [e] else old(heard)
    {
      match e {
        case MessageStart(m) => streamingMessage := Some(m);
        case MessageUpdate(m) => streamingMessage := Some(m);
        case MessageEnd(m) =>
          streamingMessage := None;
          messages := messages + [m];
        case ToolStart(id, _) => pendingToolCalls := pendingToolCalls + {id};
        case ToolEnd(id, _, _) => pendingToolCalls := pendingToolCalls - {id};
        case TurnEnd(m, _) =>
          if m.Assistant? && m.errorMessage.Some? && m.errorMessage.value != "" {
            errorMessage := m.errorMessage;
          }
        case AgentEnd(_) => streamingMessage := None;
        case _ =>
      }
      if activeRun {
        heard := heard + [e];
      }
      delivered := activeRun;
    }

    method HandleRunFailure(env: Environment)
      requires activeRun
      modifies `messages, `streamingMessage, `pendingToolCalls, `errorMessage, `heard
      ensures State() == FailRun(old(State()), env)
      ensures heard == old(heard) + [AgentEnd([FailureMessage(env)])]
    {
      var m := FailureMessage(env);
      messages := messages + [m];
      errorMessage := m.errorMessage;
      var _ := ProcessEvents(AgentEnd([m]));
    }

    method FinishRun()
      modifies `isStreaming, `streamingMessage, `pendingToolCalls, `activeRun
      ensures State() == AgentSessions.FinishRun(old(State())) && !isStreaming && !activeRun
    {
      isStreaming := false;
      streamingMessage := None;
      pendingToolCalls := {};
      activeRun := false;
    }

    /** Runs the loop, from prompts or from the transcript, and settles its failure. */
    method RunWithLifecycle(prompts: Option<seq<Message>>, ghost from: Source, skipInitialSteeringPoll: bool,
                            env: Environment)
      requires Valid() && !activeRun
      requires
        prompts.None? ==> !skipInitialSteeringPoll && messages != [] && !messages[|messages| - 1].Assistant?
      modifies this, steeringQueue, followUpQueue
      ensures !activeRun && !isStreaming
      ensures
        SessionNow() == Settle(old(SessionNow()),
                               if prompts.Some? then
                                 PromptStart(old(SessionNow()), prompts.value, from, skipInitialSteeringPoll)
                               else ContinueStart(old(SessionNow())), env, SetupNow())
    {
      activeRun := true;
      isStreaming := true;
      streamingMessage := None;
      errorMessage := None;
      var run := new LoopRun(this, old(SessionNow()), if prompts.Some? then from else Source.Prompt,
                             skipInitialSteeringPoll);
      var ending;
      if prompts.Some? {
        ending := run.RunAgentLoop(prompts.value, from, env);
      } else {
        ending := run.RunAgentLoopContinue(env);
      }
      SettleRun(run, ending, env,
                if prompts.Some? then PromptStart(old(SessionNow()), prompts.value, from, skipInitialSteeringPoll)
                else ContinueStart(old(SessionNow())));
    }

    /** The end of a run that started as `start`: its failure, if the model call threw, and the idle state. */
    method SettleRun(run: LoopRun, ending: Ending, env: Environment, ghost start: Loop)
      requires run.Valid() && run.agent == this
      requires (run.log, ending) == AgentSpec.RunLoop(start, env.initial, toolExecution, tools, env.script)
      modifies this
      ensures !activeRun && !isStreaming && SessionNow() == Settle(run.before, start, env, SetupNow())
    {
      injected := injected + run.log.injected;
      MirrorsMeans(State(), heard, run.before, run.log.events);
      HeardIs(run.before.heard, run.log, ending, env);
      if ending == Thrown {
        HandleRunFailure(env);
      }
      FinishRun();
    }

    method Prompt(prompts: seq<Message>, env: Environment) returns (reply: Reply)
      requires Valid()
      modifies this, steeringQueue, followUpQueue
      ensures reply == if old(activeRun) then Refused(BUSY) else Ran
      ensures reply.Refused? ==> SessionNow() == old(SessionNow()) && activeRun == old(activeRun)
      ensures reply.Ran? ==> SessionNow() == AfterPrompt(old(SessionNow()), prompts, env, SetupNow()) && !activeRun
    {
      if activeRun {
        return Refused(BUSY);
      }
      RunWithLifecycle(Some(prompts), Source.Prompt, false, env);
      reply := Ran;
    }

    method Continue(env: Environment) returns (reply: Reply)
      requires Valid()
      modifies this, steeringQueue, followUpQueue
      ensures old(activeRun) ==> reply == Refused(BUSY_CONTINUE) && SessionNow() == old(SessionNow()) && activeRun
      ensures
        !old(activeRun) ==> (SessionNow(), reply) == AfterContinue(old(SessionNow()), env, SetupNow()) && !activeRun
    {
      if activeRun {
        return Refused(BUSY_CONTINUE);
      }
      if |messages| == 0 {
        return Refused(NOTHING_TO_CONTINUE);
      }
      if messages[|messages| - 1].Assistant? {
        reply := RunQueued(env);
      } else {
        RunContinuation(env);
        reply := Ran;
      }
    }

    method RunContinuation(env: Environment)
      requires Valid() && !activeRun && messages != [] && !messages[|messages| - 1].Assistant?
      modifies this, steeringQueue, followUpQueue
      ensures SessionNow() == ResumeTranscript(old(SessionNow()), env, SetupNow()) && !activeRun
    {
      RunWithLifecycle(None, Source.Prompt, false, env);
    }

    /** Continues after an assistant message with what is queued, steering first. */
    method RunQueued(env: Environment) returns (reply: Reply)
      requires Valid() && !activeRun && messages != [] && messages[|messages| - 1].Assistant?
      modifies this, steeringQueue, followUpQueue
      ensures (SessionNow(), reply) == AfterContinue(old(SessionNow()), env, SetupNow()) && !activeRun
    {
      ghost var s := SessionNow();
      ContinueWays(s, env, SetupNow());
      var queuedSteering := steeringQueue.Drain();
      if |queuedSteering| > 0 {
        RunWithLifecycle(Some(queuedSteering), Steering, true, env);
        assert SessionNow() == RunSteering(s, env, SetupNow());
        return Ran;
      }
      assert SessionNow() == s;
      var queuedFollowUps := followUpQueue.Drain();
      if |queuedFollowUps| > 0 {
        RunWithLifecycle(Some(queuedFollowUps), Source.FollowUp, false, env);
        assert SessionNow() == RunFollowUps(s, env, SetupNow());
        return Ran;
      }
      assert SessionNow() == s;
      reply := Refused(LAST_IS_ASSISTANT);
    }
  }

  /** The variables of one run: the loop's context, the messages it adds, and the flag of its first steering poll. */
  class LoopRun {
    const agent: Agent
    var context: seq<Message>
    var newMessages: seq<Message>
    var skipInitialSteeringPoll: bool
    ghost var log: Loop
    ghost const before: Session

    ghost predicate Valid()
      reads this, agent, agent.steeringQueue, agent.followUpQueue
    {
      && agent.Valid() && agent.activeRun && agent.injected == before.injected
      && log.context == context && log.newMessages == newMessages && log.skipPoll == skipInitialSteeringPoll
      && log.steering == agent.steeringQueue.Contents() && log.followUp == agent.followUpQueue.Contents()
      && Mirrors(agent.State(), agent.heard, before, log.events)
      && agent.enqueued == AllEnqueued(before, log.arrived)
    }

    /** The run before its first event. */
    ghost predicate Blank(from: Source) reads this {
      log == Loop(context, [], [], from, log.steering, log.followUp, skipInitialSteeringPoll, NOTHING,
                  [], [], [], [], [])
    }

    constructor (agent: Agent, ghost before: Session, ghost from: Source, skip: bool)
      requires agent.Valid() && agent.activeRun
      requires
        agent.SessionNow() == before.(state := BeginRun(before.state))
      ensures this.agent == agent && this.before == before
      ensures context == agent.messages && skipInitialSteeringPoll == skip
      ensures Valid() && Blank(from)
    {
      this.agent := agent;
      this.before := before;
      context, newMessages, skipInitialSteeringPoll := agent.messages, [], skip;
      log := Loop(agent.messages, [], [], from, agent.steeringQueue.Contents(), agent.followUpQueue.Contents(), skip,
                  NOTHING, [], [], [], [], []);
      MirrorsNone(before);
      assert before.enqueued.steering + [] == before.enqueued.steering;
      assert before.enqueued.followUp + [] == before.enqueued.followUp;
    }

    // ----- What the loop asks of the agent -----

    method Send(e: Event)
      requires Valid()
      modifies `log, agent
      ensures Valid() && log == Emit(old(log), [e])
    {
      MirrorsNext(agent.State(), agent.heard, before, log.events, e);
      var _ := agent.ProcessEvents(e);
      log := Emit(log, [e]);
    }

    /** The environment steers the agent and queues follow-ups while the loop waits. */
    method Wait(a: Arrivals)
      requires Valid()
      modifies `log, agent, agent.steeringQueue, agent.followUpQueue
      ensures Valid() && log == Arrive(old(log), a)
    {
      assert Arrive(log, Arrivals([], [])) == log by {
        NothingArrives(log);
      }
      for k := 0 to |a.steering|
        invariant Valid() && log == Arrive(old(log), Arrivals(a.steering[..k], []))
      {
        SteerOnce(a.steering[k]);
        ArriveSteering(old(log), a.steering, k);
      }
      assert a.steering[..|a.steering|] == a.steering && a.followUp[..0] == [];
      for k := 0 to |a.followUp|
        invariant Valid() && log == Arrive(old(log), Arrivals(a.steering, a.followUp[..k]))
      {
        FollowUpOnce(a.followUp[k]);
        ArriveFollowUp(old(log), a.steering, a.followUp, k);
      }
      assert a.followUp[..|a.followUp|] == a.followUp;
    }

    method SteerOnce(m: Message)
      requires Valid()
      modifies `log, agent, agent.steeringQueue
      ensures Valid() && log == Arrive(old(log), Arrivals([m], []))
    {
      EnqueuedMore(before, log.arrived, Arrivals([m], []));
      EnqueuesNothing(log.followUp);
      agent.Steer(m);
      log := Arrive(log, Arrivals([m], []));
    }

    method FollowUpOnce(m: Message)
      requires Valid()
      modifies `log, agent, agent.followUpQueue
      ensures Valid() && log == Arrive(old(log), Arrivals([], [m]))
    {
      EnqueuedMore(before, log.arrived, Arrivals([], [m]));
      EnqueuesNothing(log.steering);
      agent.FollowUp(m);
      log := Arrive(log, Arrivals([], [m]));
    }

    method GetSteeringMessages() returns (drained: seq<Message>)
      requires Valid()
      modifies `log, `skipInitialSteeringPoll, agent.steeringQueue
      ensures Valid() && log == PollSteering(old(log)) && drained == log.pending
    {
      log := PollSteering(log);
      if skipInitialSteeringPoll {
        skipInitialSteeringPoll := false;
        return [];
      }
      drained := agent.steeringQueue.Drain();
    }

    method GetFollowUpMessages() returns (drained: seq<Message>)
      requires Valid()
      modifies `log, agent.followUpQueue
      ensures Valid() && log == PollFollowUp(old(log)) && drained == log.pending
    {
      log := PollFollowUp(log);
      drained := agent.followUpQueue.Drain();
    }

    // ----- One model reply -----

    /** Asks the model and streams its reply into the context; without a reply the model call throws. The stream is
        left at its first terminal event; one that just stops is finished in the same way. */
    method StreamAssistantResponse(turn: Option<Turn>) returns (reply: Option<Message>)
      requires Valid()
      modifies `context, `log, agent
      ensures Valid()
      ensures
        var asked := old(log).(requests := old(log).requests + [old(context)]);
        if turn.None? then log == asked && reply == None
        else log == Replied(asked, turn.value) && reply == Some(turn.value.final)
    {
      log := log.(requests := log.requests + [context]);
      if turn.None? {
        return None;
      }
      ghost var asked := log;
      var stream := turn.value.stream;
      var addedPartial := false;
      var j := 0;
      ghost var so := StreamAll(context, []);
      EmitTwice(asked, [], []);
      while j < |stream| && !stream[j].Finished?
        invariant Valid() && 0 <= j <= |stream| && FinishFrom(stream, 0) == FinishFrom(stream, j)
        invariant so == StreamAll(asked.context, stream[..j]) && addedPartial == so.added
        invariant addedPartial ==> context != []
        invariant log == Streaming(asked, so)
      {
        StreamNext(asked.context, stream, j);
        addedPartial := TakeStreamEvent(stream[j], addedPartial, asked, so);
        so := StreamStep(so, stream[j]);
        j := j + 1;
      }
      assert UpToFinish(stream) == stream[..j];
      FinishReply(turn.value.final, addedPartial, asked, so);
      reply := Some(turn.value.final);
    }

    method TakeStreamEvent(e: StreamEvent, addedPartial: bool, ghost asked: Loop, ghost so: Streamed)
      returns (added: bool)
      requires Valid() && log == Streaming(asked, so) && addedPartial == so.added && (addedPartial ==> context != [])
      requires !e.Finished?
      modifies `context, `log, agent
      ensures Valid() && log == Streaming(asked, StreamStep(so, e)) && added == StreamStep(so, e).added
      ensures added ==> context != []
    {
      added := addedPartial;
      match e {
        case Started(partial) =>
          context := context + [partial];
          log := log.(context := context);
          added := true;
          StreamingMore(asked, so, [MessageStart(partial)]);
          Send(MessageStart(partial));
        case Delta(partial) =>
          if addedPartial {
            context := context[|context| - 1 := partial];
            log := log.(context := context);
            StreamingMore(asked, so, [MessageUpdate(partial)]);
            Send(MessageUpdate(partial));
          }
      }
    }

    /** The final message replaces the partial one, or is added with its start when the stream never started. */
    method FinishReply(final: Message, addedPartial: bool, ghost asked: Loop, ghost so: Streamed)
      requires Valid() && log == Streaming(asked, so) && addedPartial == so.added && (addedPartial ==> context != [])
      modifies `context, `log, agent
      ensures Valid() && log == Streaming(asked, Finish(so, final))
    {
      if addedPartial {
        context := context[|context| - 1 := final];
        StreamingMore(asked, so, [MessageEnd(final)]);
      } else {
        context := context + [final];
        StreamingMore(asked, so, [MessageStart(final), MessageEnd(final)]);
        StreamingMore(asked, so, [MessageStart(final)]);
      }
      log := log.(context := context);
      ghost var streamed := log;
      if !addedPartial {
        Send(MessageStart(final));
      }
      Send(MessageEnd(final));
      EmitTwice(streamed, [MessageStart(final)], [MessageEnd(final)]);
      assert [MessageStart(final)] + [MessageEnd(final)] == [MessageStart(final), MessageEnd(final)];
    }

    // ----- Tool calls -----

    /** Updates of running calls; they come from the tools, not from the loop. */
    method SendUpdates(us: seq<nat>, running: seq<RunningCall>)
      requires Valid() && AllRunning(running)
      modifies `log, agent
      ensures Valid() && log == Emit(old(log), Updates(us, running))
    {
      EmitTwice(log, [], []);
      for k := 0 to |us|
        invariant Valid() && log == Emit(old(log), Updates(us[..k], running))
      {
        UpdatesNext(us, running, k);
        if us[k] < |running| {
          Send(ToolUpdate(running[us[k]].call.id));
          EmitTwice(old(log), Updates(us[..k], running), [ToolUpdate(running[us[k]].call.id)]);
        } else {
          EmitTwice(Emit(old(log), Updates(us[..k], running)), [], []);
          EmitTwice(old(log), Updates(us[..k], running), []);
        }
      }
      assert us[..|us|] == us;
    }

    method PrepareToolCall(call: Block, script: CallScript) returns (p: Preparation)
      requires call.ToolCall?
      ensures p == Prepare(agent.tools, call, script)
    {
      var found := false;
      for k := 0 to |agent.tools|
        invariant found <==> call.name in agent.tools[..k]
      {
        if agent.tools[k] == call.name {
          found := true;
        }
      }
      if !found {
        return Immediate(ErrorOutcome("Tool " + call.name + " not found"));
      }
      if script.invalid.Some? {
        return Immediate(ErrorOutcome(script.invalid.value));
      }
      if script.blocked.Some? {
        var reason := script.blocked.value;
        if reason == "" {
          reason := "Tool execution was blocked";
        }
        return Immediate(ErrorOutcome(reason));
      }
      p := Prepared;
    }

    method EmitToolCallOutcome(call: Block, outcome: Outcome, script: CallScript, others: seq<RunningCall>)
      returns (m: Message)
      requires Valid() && call.ToolCall? && AllRunning(others)
      modifies `log, agent
      ensures Valid() && log == Emit(old(log), Report(call, outcome, script, others)) && m == ResultOf(call, outcome)
    {
      ghost var l := log;
      m := ResultOf(call, outcome);
      Send(ToolEnd(call.id, call.name, outcome));
      ghost var events := [ToolEnd(call.id, call.name, outcome)];
      SendUpdates(script.moreUpdates, others);
      EmitTwice(l, events, Updates(script.moreUpdates, others));
      events := events + Updates(script.moreUpdates, others);
      Send(MessageStart(m));
      EmitTwice(l, events, [MessageStart(m)]);
      events := events + [MessageStart(m)];
      SendUpdates(script.lastUpdates, others);
      EmitTwice(l, events, Updates(script.lastUpdates, others));
      events := events + Updates(script.lastUpdates, others);
      Send(MessageEnd(m));
      EmitTwice(l, events, [MessageEnd(m)]);
    }

    /** A tool runs, with its updates, and the updates of the calls that run beside it. */
    method ExecutePreparedToolCall(script: CallScript, running: seq<RunningCall>) returns (executed: Outcome)
      requires Valid() && AllRunning(running)
      modifies `log, agent
      ensures Valid() && log == Emit(old(log), Updates(script.updates, running)) && executed == Executed(script)
    {
      SendUpdates(script.updates, running);
      match script.executed {
        case Returned(content, details) => executed := Outcome(content, details, false);
        case Threw(message) => executed := ErrorOutcome(message);
      }
    }

    method FinalizeExecutedToolCall(call: Block, executed: Outcome, script: CallScript, others: seq<RunningCall>)
      returns (m: Message)
      requires Valid() && call.ToolCall? && AllRunning(others) && executed == Executed(script)
      modifies `log, agent
      ensures Valid() && log == Emit(old(log), Report(call, Finalize(script), script, others))
      ensures m == ResultOf(call, Finalize(script))
    {
      var result := executed;
      if script.overriding.Some? {
        var after := script.overriding.value;
        if after.content.Some? {
          result := result.(content := after.content.value);
        }
        if after.details.Some? {
          result := result.(details := after.details.value);
        }
        if after.isError.Some? {
          result := result.(isError := after.isError.value);
        }
      }
      m := EmitToolCallOutcome(call, result, script, others);
    }

    method ExecuteToolCallsSequential(calls: seq<Block>, scripts: seq<CallScript>) returns (results: seq<Message>)
      requires Valid() && AllCalls(calls)
      modifies `log, agent
      ensures Valid()
      ensures
        var phase := Sequential(agent.tools, calls, scripts, |calls|);
        log == Emit(old(log), phase.events) && results == phase.results
    {
      results := [];
      EmitTwice(log, [], []);
      for k := 0 to |calls|
        invariant Valid()
        invariant
          var phase := Sequential(agent.tools, calls, scripts, k);
          log == Emit(old(log), phase.events) && results == phase.results
      {
        var m := ExecuteOne(calls[k], ScriptAt(scripts, k));
        results := results + [m];
        EmitTwice(old(log), Sequential(agent.tools, calls, scripts, k).events,
                  SequentialCall(agent.tools, calls[k], ScriptAt(scripts, k)).0);
      }
    }

    /** One call of sequential execution. */
    method ExecuteOne(call: Block, script: CallScript) returns (m: Message)
      requires Valid() && call.ToolCall?
      modifies `log, agent
      ensures Valid()
      ensures
        var (events, result) := SequentialCall(agent.tools, call, script);
        log == Emit(old(log), events) && m == result
    {
      ghost var l := log;
      var start := ToolStart(call.id, call.name);
      Send(start);
      var preparation := PrepareToolCall(call, script);
      match preparation {
        case Immediate(outcome) =>
          m := EmitToolCallOutcome(call, outcome, script, []);
          EmitTwice(l, [start], Report(call, outcome, script, []));
        case Prepared =>
          ghost var updates := Updates(script.updates, [RunningCall(0, call, script)]);
          var executed := ExecutePreparedToolCall(script, [RunningCall(0, call, script)]);
          EmitTwice(l, [start], updates);
          m := FinalizeExecutedToolCall(call, executed, script, []);
          EmitTwice(l, [start] + updates, Report(call, Finalize(script), script, []));
      }
    }

    /** Prepares the calls in turn, reports immediate outcomes at once, and awaits the other calls in order. */
    method ExecuteToolCallsParallel(calls: seq<Block>, scripts: seq<CallScript>) returns (results: seq<Message>)
      requires Valid() && AllCalls(calls)
      modifies `log, agent
      ensures Valid()
      ensures
        var phase := Parallel(agent.tools, calls, scripts);
        log == Emit(old(log), phase.events) && results == phase.results
    {
      results := [];
      var running: seq<RunningCall> := [];
      EmitTwice(log, [], []);
      for k := 0 to |calls|
        invariant Valid()
        invariant
          var phase := PrepareAll(agent.tools, calls, scripts, k);
          log == Emit(old(log), phase.events) && results == phase.results && running == phase.running
      {
        ghost var phase := PrepareAll(agent.tools, calls, scripts, k);
        results, running := PrepareNext(calls[k], ScriptAt(scripts, k), k, results, running, old(log), phase);
      }
      ghost var prepared := PrepareAll(agent.tools, calls, scripts, |calls|);
      label Preparing:
      EmitTwice(log, [], []);
      assert results + [] == results;
      for k := 0 to |running|
        invariant Valid() && AllRunning(running)
        invariant
          var (events, finished) := FinishAll(running, k);
          log == Emit(old@Preparing(log), events) && results == prepared.results + finished
      {
        var m := AwaitNext(running, k, old@Preparing(log));
        results := results + [m];
        assert prepared.results + FinishAll(running, k).1 + [m] == prepared.results + (FinishAll(running, k).1 + [m]);
      }
      EmitTwice(old(log), prepared.events, FinishAll(running, |running|).0);
    }

    method PrepareNext(call: Block, script: CallScript, k: nat, results: seq<Message>, running: seq<RunningCall>,
                       ghost l: Loop, ghost phase: ToolPhase)
      returns (moreResults: seq<Message>, moreRunning: seq<RunningCall>)
      requires Valid() && call.ToolCall? && log == Emit(l, phase.events)
      requires results == phase.results && running == phase.running
      modifies `log, agent
      ensures Valid()
      ensures
        var start := [ToolStart(call.id, call.name)];
        match Prepare(agent.tools, call, script)
        case Immediate(outcome) =>
          && log == Emit(l, phase.events + (start + Report(call, outcome, script, [])))
          && moreResults == results + [ResultOf(call, outcome)] && moreRunning == running
        case Prepared =>
          && log == Emit(l, phase.events + start)
          && moreResults == results && moreRunning == running + [RunningCall(k, call, script)]
    {
      var start := ToolStart(call.id, call.name);
      ghost var now := log;
      moreResults, moreRunning := results, running;
      Send(start);
      var preparation := PrepareToolCall(call, script);
      match preparation {
        case Immediate(outcome) =>
          var m := EmitToolCallOutcome(call, outcome, script, []);
          EmitTwice(now, [start], Report(call, outcome, script, []));
          EmitTwice(l, phase.events, [start] + Report(call, outcome, script, []));
          moreResults := results + [m];
        case Prepared =>
          EmitTwice(l, phase.events, [start]);
          moreRunning := running + [RunningCall(k, call, script)];
      }
    }

    method AwaitNext(running: seq<RunningCall>, k: nat, ghost l: Loop) returns (m: Message)
      requires Valid() && AllRunning(running) && k < |running| && log == Emit(l, FinishAll(running, k).0)
      modifies `log, agent
      ensures Valid() && log == Emit(l, FinishAll(running, k + 1).0)
      ensures m == ResultOf(running[k].call, Finalize(running[k].script))
    {
      var r := running[k];
      ghost var now := log;
      ghost var updates := Updates(r.script.updates, running[k..]);
      var executed := ExecutePreparedToolCall(r.script, running[k..]);
      m := FinalizeExecutedToolCall(r.call, executed, r.script, running[k + 1..]);
      EmitTwice(now, updates, Report(r.call, Finalize(r.script), r.script, running[k + 1..]));
      EmitTwice(l, FinishAll(running, k).0, updates + Report(r.call, Finalize(r.script), r.script, running[k + 1..]));
    }

    method ExecuteToolCalls(calls: seq<Block>, scripts: seq<CallScript>) returns (results: seq<Message>)
      requires Valid() && AllCalls(calls)
      modifies `log, agent
      ensures Valid()
      ensures
        var phase := AgentSpec.ExecuteToolCalls(agent.toolExecution, agent.tools, calls, scripts);
        log == Emit(old(log), phase.events) && results == phase.results
    {
      if agent.toolExecution == SequentialMode {
        results := ExecuteToolCallsSequential(calls, scripts);
      } else {
        results := ExecuteToolCallsParallel(calls, scripts);
      }
    }

    // ----- The loop -----

    /** Pending messages are announced and enter both message lists. */
    method InjectPendingMessages(pending: seq<Message>)
      requires Valid() && pending == log.pending
      modifies `context, `newMessages, `log, agent
      ensures Valid() && log == InjectPending(old(log))
    {
      if |pending| > 0 {
        InjectedNone(log);
        for k := 0 to |pending|
          invariant Valid() && log == Injected(old(log), pending[..k])
        {
          AnnounceNext(pending, k);
          InjectedNext(old(log), pending, k);
          AnnounceOne(pending[k]);
          context := context + [pending[k]];
          newMessages := newMessages + [pending[k]];
          log := log.(context := context, newMessages := newMessages);
        }
        assert pending[..|pending|] == pending;
      } else {
        InjectedNone(log);
      }
      log := log.(injected := log.injected + [Poll(log.from, pending)], pending := []);
    }

    method AnnounceOne(m: Message)
      requires Valid()
      modifies `log, agent
      ensures Valid() && log == Emit(old(log), [MessageStart(m)] + [MessageEnd(m)])
    {
      ghost var l := log;
      Send(MessageStart(m));
      Send(MessageEnd(m));
      EmitTwice(l, [MessageStart(m)], [MessageEnd(m)]);
    }

    /** The reply's tool calls and their results, up to the end of the turn. */
    method AnswerToolCalls(message: Message, scripts: seq<CallScript>) returns (hasMoreToolCalls: bool)
      requires Valid()
      modifies `context, `newMessages, `log, agent
      ensures Valid() && (hasMoreToolCalls <==> CallsOf(message) != [])
      ensures
        var phase := AgentSpec.ExecuteToolCalls(agent.toolExecution, agent.tools, CallsOf(message), scripts);
        log == EndTurn(TakeToolPhase(old(log), phase), message, phase.results)
    {
      var toolCalls := CallsOf(message);
      hasMoreToolCalls := |toolCalls| > 0;
      var toolResults: seq<Message> := [];
      if hasMoreToolCalls {
        toolResults := ExecuteToolCalls(toolCalls, scripts);
        context := context + toolResults;
        newMessages := newMessages + toolResults;
        log := log.(context := context, newMessages := newMessages);
      } else {
        NoCalls(old(log), agent.toolExecution, agent.tools, scripts);
      }
      SendTurnEnd(message, toolResults);
    }

    method SendTurnEnd(message: Message, results: seq<Message>)
      requires Valid()
      modifies `log, agent
      ensures Valid() && log == EndTurn(old(log), message, results)
    {
      log := log.(snapshots := log.snapshots + [Snapshot(|log.events| + 1, context, newMessages)]);
      Send(TurnEnd(message, results));
    }

    /** One round of the inner loop, up to the turn's end; it may end the run. */
    method RunTurn(firstTurn: bool, pendingMessages: seq<Message>, turn: Option<Turn>)
      returns (ended: Option<Ending>, hasMoreToolCalls: bool)
      requires Valid() && pendingMessages == log.pending
      modifies `context, `newMessages, `log, agent
      ensures Valid()
      ensures turn.None? ==> ended == Some(Thrown) && log == BeginTurn(old(log), firstTurn)
      ensures
        turn.Some? ==>
          var taken := TakeTurn(BeginTurn(old(log), firstTurn), agent.toolExecution, agent.tools, turn.value);
          if EndsRun(turn.value.final) then ended == Some(Failed) && log == Close(taken)
          else ended == None && log == taken && (hasMoreToolCalls <==> CallsOf(turn.value.final) != [])
    {
      ghost var begun := BeginTurn(log, firstTurn);
      hasMoreToolCalls := false;
      if !firstTurn {
        Send(TurnStart);
      }
      InjectPendingMessages(pendingMessages);
      var reply := StreamAssistantResponse(turn);
      if reply.None? {
        return Some(Thrown), false;
      }
      var message := reply.value;
      newMessages := newMessages + [message];
      log := log.(newMessages := newMessages);
      assert log == TakeReply(begun, turn.value);
      if EndsRun(message) {
        SendTurnEnd(message, []);
        Send(AgentEnd(newMessages));
        return Some(Failed), false;
      }
      hasMoreToolCalls := AnswerToolCalls(message, turn.value.calls);
      ended := None;
    }

    /** A round, and the steering poll after it. */
    method RunRound(firstTurn: bool, pendingMessages: seq<Message>, script: seq<Turn>, i: nat,
                    ghost goal: (Loop, Ending), ghost setup: Setup)
      returns (ended: Option<Ending>, hasMoreToolCalls: bool, pending: seq<Message>)
      requires Valid() && pendingMessages == log.pending && setup == agent.SetupNow()
      requires Leads(goal, log, firstTurn, setup, script, i, true)
      modifies this, agent, agent.steeringQueue, agent.followUpQueue
      ensures Valid()
      ensures ended.Some? ==> (log, ended.value) == goal
      ensures
        ended.None? ==>
          i < |script| && pending == log.pending
          && Leads(goal, log, false, setup, script, i + 1, hasMoreToolCalls || pending != [])
    {
      LeadsOverTurn(goal, log, firstTurn, setup, script, i);
      pending := [];
      ended, hasMoreToolCalls := RunTurn(firstTurn, pendingMessages, if i < |script| then Some(script[i]) else None);
      if ended.None? {
        Wait(script[i].beforeSteering);
        pending := GetSteeringMessages();
      }
    }

    /** The follow-up poll, when the agent would stop. */
    method PollFollowUps(script: seq<Turn>, i: nat, ghost goal: (Loop, Ending), ghost setup: Setup)
      returns (followUps: seq<Message>)
      requires Valid() && Leads(goal, log, false, setup, script, i, false)
      modifies `log, agent, agent.steeringQueue, agent.followUpQueue
      ensures Valid() && followUps == log.pending
      ensures
        if followUps != [] then Leads(goal, log, false, setup, script, i, true) else goal == (Close(log), Completed)
    {
      LeadsOverFollowUp(goal, log, false, setup, script, i);
      Wait(script[i - 1].beforeFollowUp);
      followUps := GetFollowUpMessages();
    }

    /** The loop proper. It ends by itself, by a failed or aborted reply, or by a model call that throws. */
    method RunLoop(env: Environment) returns (ending: Ending)
      requires Valid()
      modifies this, agent, agent.steeringQueue, agent.followUpQueue
      ensures Valid()
      ensures
        (log, ending) == AgentSpec.RunLoop(old(log), env.initial, agent.toolExecution, agent.tools, env.script)
    {
      Wait(env.initial);
      var pendingMessages := GetSteeringMessages();
      ghost var setup := agent.SetupNow();
      ghost var goal := RunTurns(log, true, setup.mode, setup.tools, env.script);
      LeadsFromStart(log, setup, env.script);
      ending := RunRounds(pendingMessages, env.script, goal, setup);
    }

    /** The two nested loops of turns: tool calls and steering inside, follow-ups outside. */
    method RunRounds(initialMessages: seq<Message>, script: seq<Turn>, ghost goal: (Loop, Ending), ghost setup: Setup)
      returns (ending: Ending)
      requires Valid() && initialMessages == log.pending && setup == agent.SetupNow()
      requires Leads(goal, log, true, setup, script, 0, true)
      modifies this, agent, agent.steeringQueue, agent.followUpQueue
      ensures Valid() && (log, ending) == goal
    {
      var pendingMessages := initialMessages;
      var firstTurn := true;
      var i := 0;
      while true
        invariant Valid() && pendingMessages == log.pending && i <= |script|
        invariant Leads(goal, log, firstTurn, setup, script, i, true)
        decreases |script| - i
      {
        var hasMoreToolCalls := true;
        ghost var start := i;
        while hasMoreToolCalls || |pendingMessages| > 0
          invariant Valid() && pendingMessages == log.pending && start <= i <= |script|
          invariant hasMoreToolCalls || start < i
          invariant Leads(goal, log, firstTurn, setup, script, i, hasMoreToolCalls || pendingMessages != [])
          invariant start < i ==> !firstTurn
          decreases |script| - i
        {
          var ended;
          ended, hasMoreToolCalls, pendingMessages := RunRound(firstTurn, pendingMessages, script, i, goal, setup);
          if ended.Some? {
            return ended.value;
          }
          firstTurn := false;
          i := i + 1;
        }
        var followUpMessages := PollFollowUps(script, i, goal, setup);
        if |followUpMessages| > 0 {
          pendingMessages := followUpMessages;
          continue;
        }
        break;
      }
      Send(AgentEnd(newMessages));
      ending := Completed;
    }

    method RunAgentLoop(prompts: seq<Message>, ghost from: Source, env: Environment) returns (ending: Ending)
      requires Valid() && Blank(from)
      modifies this, agent, agent.steeringQueue, agent.followUpQueue
      ensures Valid()
      ensures
        var start := StartPrompts(old(context), prompts, from, old(log).steering, old(log).followUp,
                                  old(skipInitialSteeringPoll));
        (log, ending) == AgentSpec.RunLoop(start, env.initial, agent.toolExecution, agent.tools, env.script)
    {
      newMessages := prompts;
      context := context + prompts;
      log := log.(context := context, newMessages := newMessages, injected := [Poll(from, prompts)]);
      SendOpening();
      ghost var opening := log;
      EmitTwice(log, [], []);
      for k := 0 to |prompts|
        invariant Valid() && log == Emit(opening, Announce(prompts[..k]))
        invariant context == opening.context && newMessages == opening.newMessages
        invariant skipInitialSteeringPoll == opening.skipPoll
      {
        AnnounceNext(prompts, k);
        AnnounceOne(prompts[k]);
        EmitTwice(opening, Announce(prompts[..k]), [MessageStart(prompts[k])] + [MessageEnd(prompts[k])]);
      }
      assert prompts[..|prompts|] == prompts;
      ending := RunLoop(env);
    }

    method SendOpening()
      requires Valid() && log.events == []
      modifies `log, agent
      ensures Valid() && log == old(log).(events := [AgentStart, TurnStart])
    {
      Send(AgentStart);
      Send(TurnStart);
      assert [] + [AgentStart] + [TurnStart] == [AgentStart, TurnStart];
    }

    /** Continues from the transcript; an empty one, or one that ends with an assistant message, throws. */
    method RunAgentLoopContinue(env: Environment) returns (ending: Ending)
      requires Valid() && Blank(Source.Prompt) && !skipInitialSteeringPoll
      modifies this, agent, agent.steeringQueue, agent.followUpQueue
      ensures Valid()
      ensures
        if old(context) == [] || old(context)[|old(context)| - 1].Assistant? then ending == Thrown && log == old(log)
        else (log, ending) == AgentSpec.RunLoop(StartContinue(old(context), old(log).steering, old(log).followUp),
                                                env.initial, agent.toolExecution, agent.tools, env.script)
    {
      if |context| == 0 || context[|context| - 1].Assistant? {
        return Thrown;
      }
      log := log.(injected := [Poll(Source.Prompt, [])]);
      SendOpening();
      ending := RunLoop(env);
    }
  }

  /** The loop when some pending messages have been injected. */
  ghost function Injected(l: Loop, ms: seq<Message>): Loop {
    l.(events := l.events + Announce(ms), context := l.context + ms, newMessages := l.newMessages + ms)
  }

  lemma InjectedNone(l: Loop)
    ensures Injected(l, []) == l
  {
    assert l.events + [] == l.events && l.context + [] == l.context && l.newMessages + [] == l.newMessages;
  }

  lemma InjectedNext(l: Loop, ms: seq<Message>, k: nat)
    requires k < |ms|
    ensures
      var now := Injected(l, ms[..k]);
      && Injected(l, ms[..k + 1]).context == now.context + [ms[k]]
      && Injected(l, ms[..k + 1]).newMessages == now.newMessages + [ms[k]]
      && Injected(l, ms[..k + 1]).events == now.events + ([MessageStart(ms[k])] + [MessageEnd(ms[k])])
  {
    AnnounceNext(ms, k);
    Appended(l.context, ms, k);
    Appended(l.newMessages, ms, k);
    EmitTwice(l, Announce(ms[..k]), [MessageStart(ms[k])] + [MessageEnd(ms[k])]);
  }

  lemma NoCalls(l: Loop, mode: ToolMode, tools: seq<string>, scripts: seq<CallScript>)
    ensures
      var phase := AgentSpec.ExecuteToolCalls(mode, tools, [], scripts);
      phase.results == [] && TakeToolPhase(l, phase) == l
  {
    assert l.events + [] == l.events && l.context + [] == l.context && l.newMessages + [] == l.newMessages;
  }

  /** The rest of a run: another turn, or, with nothing pending, the follow-up poll after turn `i - 1`. */
  ghost function Rest(l: Loop, first: bool, setup: Setup, script: seq<Turn>, i: nat, more: bool): (Loop, Ending)
    requires i <= |script| && (!more ==> 0 < i)
  {
    if more then RunTurns(l, first, setup.mode, setup.tools, script[i..])
    else
      var followed := PollFollowUp(Arrive(l, script[i - 1].beforeFollowUp));
      if followed.pending != [] then RunTurns(followed, false, setup.mode, setup.tools, script[i..])
      else (Close(followed), Completed)
  }

  ghost predicate IsRest(goal: (Loop, Ending), l: Loop, first: bool, setup: Setup, script: seq<Turn>, i: nat,
                         more: bool)
  {
    i <= |script| && (!more ==> 0 < i) && goal == Rest(l, first, setup, script, i, more)
  }

  /** From here the run goes on to `goal`. */
  ghost predicate Leads(goal: (Loop, Ending), l: Loop, first: bool, setup: Setup, script: seq<Turn>, i: nat,
                        more: bool)
  {
    && i <= |script| && (!more ==> 0 < i)
    && forall r: (Loop, Ending) {:trigger IsRest(r, l, first, setup, script, i, more)} ::
         IsRest(r, l, first, setup, script, i, more) ==> goal == r
  }

  lemma LeadsTo(goal: (Loop, Ending), l: Loop, first: bool, setup: Setup, script: seq<Turn>, i: nat, more: bool)
    requires i <= |script| && (!more ==> 0 < i)
    ensures Leads(goal, l, first, setup, script, i, more) <==> goal == Rest(l, first, setup, script, i, more)
  {
    assert IsRest(Rest(l, first, setup, script, i, more), l, first, setup, script, i, more);
  }

  lemma LeadsFromStart(l: Loop, setup: Setup, script: seq<Turn>)
    ensures Leads(RunTurns(l, true, setup.mode, setup.tools, script), l, true, setup, script, 0, true)
  {
    assert script[0..] == script;
    LeadsTo(RunTurns(l, true, setup.mode, setup.tools, script), l, true, setup, script, 0, true);
  }

  /** One turn of the loop. */
  lemma LeadsOverTurn(goal: (Loop, Ending), l: Loop, first: bool, setup: Setup, script: seq<Turn>, i: nat)
    requires Leads(goal, l, first, setup, script, i, true)
    ensures i == |script| ==> goal == (BeginTurn(l, first), Thrown)
    ensures
      i < |script| ==>
        var taken := TakeTurn(BeginTurn(l, first), setup.mode, setup.tools, script[i]);
        var polled := PollSteering(Arrive(taken, script[i].beforeSteering));
        if EndsRun(script[i].final) then goal == (Close(taken), Failed)
        else Leads(goal, polled, false, setup, script, i + 1, CallsOf(script[i].final) != [] || polled.pending != [])
  {
    LeadsTo(goal, l, first, setup, script, i, true);
    if i < |script| {
      assert script[i..][1..] == script[i + 1..];
      var taken := TakeTurn(BeginTurn(l, first), setup.mode, setup.tools, script[i]);
      var polled := PollSteering(Arrive(taken, script[i].beforeSteering));
      LeadsTo(goal, polled, false, setup, script, i + 1, CallsOf(script[i].final) != [] || polled.pending != []);
    }
  }

  /** The follow-up poll. */
  lemma LeadsOverFollowUp(goal: (Loop, Ending), l: Loop, first: bool, setup: Setup, script: seq<Turn>, i: nat)
    requires Leads(goal, l, first, setup, script, i, false)
    ensures
      var followed := PollFollowUp(Arrive(l, script[i - 1].beforeFollowUp));
      if followed.pending != [] then Leads(goal, followed, false, setup, script, i, true)
      else goal == (Close(followed), Completed)
  {
    LeadsTo(goal, l, first, setup, script, i, false);
    LeadsTo(goal, PollFollowUp(Arrive(l, script[i - 1].beforeFollowUp)), false, setup, script, i, true);
  }

  /** The loop while a reply is streaming. */
  ghost function Streaming(l: Loop, so: Streamed): Loop { l.(context := so.context, events := l.events + so.events) }

  lemma StreamingMore(l: Loop, so: Streamed, more: seq<Event>)
    ensures l.events + so.events + more == l.events + (so.events + more)
  {}

  ghost function Replied(l: Loop, turn: Turn): Loop { Streaming(l, StreamReply(l.context, turn.stream, turn.final)) }

  lemma StreamNext(context: seq<Message>, stream: seq<StreamEvent>, j: nat)
    requires j < |stream|
    ensures StreamAll(context, stream[..j + 1]) == StreamStep(StreamAll(context, stream[..j]), stream[j])
  {
    assert stream[..j + 1][..j] == stream[..j];
  }
}
