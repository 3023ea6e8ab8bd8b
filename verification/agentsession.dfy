/** The agent between runs: what prompts, continuations and queued messages make of its transcript and its queues. */
module AgentSessions {
  import opened Text
  import opened AgentTypes
  import opened AgentSpec
  import opened AgentRuns
  import opened AgentConversation
  import opened AgentQueues
  import opened AgentWholeRuns

  /** The idle agent, with a record of what its listeners heard, what was enqueued, and what its runs injected. */
  datatype Session = Session(state: AgentState, steering: Queue, followUp: Queue, heard: seq<Event>, enqueued: Arrivals,
                             injected: seq<Poll>)

  /** What the environment does during a run: the messages that arrive before the first poll, the model replies and the
      rest, and, should the model call throw, its error and whether the run was aborted. */
  datatype Environment = Environment(initial: Arrivals, script: seq<Turn>, failure: string, aborted: bool)

  datatype Setup = Setup(mode: ToolMode, tools: seq<string>)

  function FailureMessage(env: Environment): Message {
    Assistant([TextBlock("")], if env.aborted then Aborted else ErrorStop, Some(env.failure))
  }

  /** A run starts without a streaming message or an error. */
  function BeginRun(st: AgentState): AgentState { st.(streamingMessage := None, errorMessage := None) }

  /** A model call that throws leaves a failure message in the transcript, announced by nothing but an agent end. */
  function FailRun(st: AgentState, env: Environment): AgentState {
    var m := FailureMessage(env);
    Reduce(st.(messages := st.messages + [m], errorMessage := m.errorMessage), AgentEnd([m]))
  }

  function FinishRun(st: AgentState): AgentState { st.(streamingMessage := None, pendingToolCalls := {}) }

  function AfterRun(st: AgentState, r: Loop, ending: Ending, env: Environment): AgentState {
    var reduced := ReduceAll(BeginRun(st), r.events);
    FinishRun(if ending == Thrown then FailRun(reduced, env) else reduced)
  }

  function Heard(r: Loop, ending: Ending, env: Environment): seq<Event> {
    r.events + if ending == Thrown then [AgentEnd([FailureMessage(env)])] else []
  }

  /** The session after a run that started as `l`. */
  function Settle(s: Session, l: Loop, env: Environment, setup: Setup): Session {
    var (r, ending) := RunLoop(l, env.initial, setup.mode, setup.tools, env.script);
    Session(AfterRun(s.state, r, ending, env), r.steering, r.followUp, s.heard + Heard(r, ending, env),
            Arrivals(s.enqueued.steering + r.arrived.steering, s.enqueued.followUp + r.arrived.followUp),
            s.injected + r.injected)
  }

  /** The loop as a prompt starts it. */
  function PromptStart(s: Session, prompts: seq<Message>, from: Source, skipPoll: bool): Loop {
    StartPrompts(s.state.messages, prompts, from, s.steering, s.followUp, skipPoll)
  }

  function ContinueStart(s: Session): Loop { StartContinue(s.state.messages, s.steering, s.followUp) }

  datatype Reply = Ran | Refused(error: string)

  const NOTHING_TO_CONTINUE := "No messages to continue from"
  const LAST_IS_ASSISTANT := "Cannot continue from message role: assistant"
  const BUSY :=
    "Agent is already processing a prompt. Use steer() or followUp() to queue messages, or wait for completion."
  const BUSY_CONTINUE := "Agent is already processing. Wait for completion before continuing."

  function AfterPrompt(s: Session, prompts: seq<Message>, env: Environment, setup: Setup): Session {
    Settle(s, PromptStart(s, prompts, Prompt, false), env, setup)
  }

  /** A run of what is drained from the steering queue; the run's own first steering poll is skipped. */
  function RunSteering(s: Session, env: Environment, setup: Setup): Session {
    var (steering, left) := Drain(s.steering);
    var drained := s.(steering := left);
    Settle(drained, PromptStart(drained, steering, Steering, true), env, setup)
  }

  function RunFollowUps(s: Session, env: Environment, setup: Setup): Session {
    var (followUp, later) := Drain(s.followUp);
    var drained := s.(followUp := later);
    Settle(drained, PromptStart(drained, followUp, FollowUp, false), env, setup)
  }

  function ResumeTranscript(s: Session, env: Environment, setup: Setup): Session {
    Settle(s, ContinueStart(s), env, setup)
  }

  /** How a session continues: after an assistant message with what is queued, steering first; else from the
      transcript. */
  datatype Way = Refuse(error: string) | WithSteering | WithFollowUps | WithTranscript

  function WayOn(s: Session): Way {
    var messages := s.state.messages;
    if messages == [] then Refuse(NOTHING_TO_CONTINUE)
    else if !messages[|messages| - 1].Assistant? then WithTranscript
    else if Drain(s.steering).0 != [] then WithSteering
    else if Drain(s.followUp).0 != [] then WithFollowUps
    else Refuse(LAST_IS_ASSISTANT)
  }

  function AfterContinue(s: Session, env: Environment, setup: Setup): (Session, Reply) {
    match WayOn(s)
    case Refuse(error) => (s, Refused(error))
    case WithSteering => (RunSteering(s, env, setup), Ran)
    case WithFollowUps => (RunFollowUps(s, env, setup), Ran)
    case WithTranscript => (ResumeTranscript(s, env, setup), Ran)
  }

  lemma ContinueWays(s: Session, env: Environment, setup: Setup)
    requires s.state.messages != [] && s.state.messages[|s.state.messages| - 1].Assistant?
    ensures
      AfterContinue(s, env, setup) == if Drain(s.steering).0 != [] then (RunSteering(s, env, setup), Ran)
                                      else if Drain(s.followUp).0 != [] then (RunFollowUps(s, env, setup), Ran)
                                      else (s, Refused(LAST_IS_ASSISTANT))
  {}

  function AfterSteer(s: Session, m: Message): Session {
    s.(steering := Enqueue(s.steering, [m]), enqueued := s.enqueued.(steering := s.enqueued.steering + [m]))
  }

  function AfterFollowUp(s: Session, m: Message): Session {
    s.(followUp := Enqueue(s.followUp, [m]), enqueued := s.enqueued.(followUp := s.enqueued.followUp + [m]))
  }

  datatype Operation =
    | DoPrompt(prompts: seq<Message>, env: Environment, setup: Setup)
    | DoContinue(env: Environment, setup: Setup)
    | DoSteer(message: Message)
    | DoFollowUp(message: Message)

  function Operate(s: Session, op: Operation): Session {
    match op
    case DoPrompt(prompts, env, setup) => AfterPrompt(s, prompts, env, setup)
    case DoContinue(env, setup) => AfterContinue(s, env, setup).0
    case DoSteer(m) => AfterSteer(s, m)
    case DoFollowUp(m) => AfterFollowUp(s, m)
  }

  function OperateAll(s: Session, ops: seq<Operation>): Session {
    if ops == [] then s else Operate(OperateAll(s, ops[..|ops| - 1]), ops[|ops| - 1])
  }

  // ----- Queue conservation over a session -----

  ghost predicate NothingLost(s: Session) {
    && From(s.injected, Steering) + s.steering.messages == s.enqueued.steering
    && From(s.injected, FollowUp) + s.followUp.messages == s.enqueued.followUp
  }

  lemma {:induction false} FromConcat(a: seq<Poll>, b: seq<Poll>, source: Source)
    ensures From(a + b, source) == From(a, source) + From(b, source)
    decreases |b|
  {
    if b == [] {
      assert a + b == a;
    } else {
      var front, last := b[..|b| - 1], b[|b| - 1];
      FromConcat(a, front, source);
      FromAppend(a + front, last, source);
      FromAppend(front, last, source);
      assert front + [last] == b;
      assert a + front + [last] == a + b;
      Assoc(From(a, source), From(front, source), if last.source == source then last.messages else []);
    }
  }

  /** One source: earlier injections, the run's injections and the queue it leaves, against what was enqueued. */
  lemma OneSource(a: seq<Message>, b: seq<Message>, left: seq<Message>, first: seq<Message>, queued: seq<Message>,
                  arrived: seq<Message>, enqueued: seq<Message>)
    requires b + left == first + (queued + arrived) && a + (first + queued) == enqueued
    ensures a + b + left == enqueued + arrived
  {
    Assoc(a, b, left);
    Assoc(first, queued, arrived);
    Assoc(a, first + queued, arrived);
  }

  /** A run keeps the balance when what it starts with, injected and queued, is what was there before. */
  lemma SettleLosesNothing(s: Session, l: Loop, env: Environment, setup: Setup, start: seq<Message>)
    requires AtStart(l, start)
    requires From(s.injected, Steering) + (From(l.injected, Steering) + l.steering.messages) == s.enqueued.steering
    requires From(s.injected, FollowUp) + (From(l.injected, FollowUp) + l.followUp.messages) == s.enqueued.followUp
    ensures NothingLost(Settle(s, l, env, setup))
  {
    WholeConserves(l, env.initial, setup.mode, setup.tools, env.script, start);
    var r := RunLoop(l, env.initial, setup.mode, setup.tools, env.script).0;
    FromConcat(s.injected, r.injected, Steering);
    FromConcat(s.injected, r.injected, FollowUp);
    OneSource(From(s.injected, Steering), From(r.injected, Steering), r.steering.messages, From(l.injected, Steering),
              l.steering.messages, r.arrived.steering, s.enqueued.steering);
    OneSource(From(s.injected, FollowUp), From(r.injected, FollowUp), r.followUp.messages, From(l.injected, FollowUp),
              l.followUp.messages, r.arrived.followUp, s.enqueued.followUp);
  }

  lemma StartInjects(s: Session, prompts: seq<Message>, from: Source, skipPoll: bool, source: Source)
    ensures
      From(PromptStart(s, prompts, from, skipPoll).injected, source) == if from == source then prompts else []
    ensures From(ContinueStart(s).injected, source) == []
  {
    FromAppend([], Poll(from, prompts), source);
    FromAppend([], Poll(Prompt, []), source);
    assert [] + [Poll(from, prompts)] == [Poll(from, prompts)];
    assert [] + [Poll(Prompt, [])] == [Poll(Prompt, [])];
    assert [] + prompts == prompts;
  }

  /** A run started with messages drained from `from`, or with none of them. */
  lemma PromptLosesNothing(s: Session, prompts: seq<Message>, from: Source, skipPoll: bool, env: Environment,
                           setup: Setup)
    requires
      From(s.injected, Steering) + ((if from == Steering then prompts else []) + s.steering.messages)
      == s.enqueued.steering
    requires
      From(s.injected, FollowUp) + ((if from == FollowUp then prompts else []) + s.followUp.messages)
      == s.enqueued.followUp
    ensures NothingLost(Settle(s, PromptStart(s, prompts, from, skipPoll), env, setup))
  {
    RunsStart(s.state.messages, prompts, from, s.steering, s.followUp, skipPoll);
    StartInjects(s, prompts, from, skipPoll, Steering);
    StartInjects(s, prompts, from, skipPoll, FollowUp);
    SettleLosesNothing(s, PromptStart(s, prompts, from, skipPoll), env, setup, s.state.messages);
  }

  lemma NoneFirst(q: seq<Message>)
    ensures [] + q == q
  {}

  lemma RunSteeringLosesNothing(s: Session, env: Environment, setup: Setup)
    requires NothingLost(s)
    ensures NothingLost(RunSteering(s, env, setup))
  {
    var (steering, left) := Drain(s.steering);
    DrainSplits(s.steering);
    NoneFirst(s.followUp.messages);
    PromptLosesNothing(s.(steering := left), steering, Steering, true, env, setup);
  }

  lemma RunFollowUpsLosesNothing(s: Session, env: Environment, setup: Setup)
    requires NothingLost(s)
    ensures NothingLost(RunFollowUps(s, env, setup))
  {
    var (followUp, later) := Drain(s.followUp);
    DrainSplits(s.followUp);
    NoneFirst(s.steering.messages);
    PromptLosesNothing(s.(followUp := later), followUp, FollowUp, false, env, setup);
  }

  lemma ResumeLosesNothing(s: Session, env: Environment, setup: Setup)
    requires NothingLost(s)
    ensures NothingLost(ResumeTranscript(s, env, setup))
  {
    NoneFirst(s.steering.messages);
    NoneFirst(s.followUp.messages);
    RunsStart(s.state.messages, [], Prompt, s.steering, s.followUp, false);
    StartInjects(s, [], Prompt, false, Steering);
    StartInjects(s, [], Prompt, false, FollowUp);
    SettleLosesNothing(s, ContinueStart(s), env, setup, s.state.messages);
  }

  lemma ContinueLosesNothing(s: Session, env: Environment, setup: Setup)
    requires NothingLost(s)
    ensures NothingLost(AfterContinue(s, env, setup).0)
  {
    match WayOn(s)
    case Refuse(error) =>
    case WithSteering => RunSteeringLosesNothing(s, env, setup);
    case WithFollowUps => RunFollowUpsLosesNothing(s, env, setup);
    case WithTranscript => ResumeLosesNothing(s, env, setup);
  }

  lemma OperateLosesNothing(s: Session, op: Operation)
    requires NothingLost(s)
    ensures NothingLost(Operate(s, op))
  {
    match op
    case DoPrompt(prompts, env, setup) =>
      NoneFirst(s.steering.messages);
      NoneFirst(s.followUp.messages);
      PromptLosesNothing(s, prompts, Prompt, false, env, setup);
    case DoContinue(env, setup) =>
      ContinueLosesNothing(s, env, setup);
    case DoSteer(m) =>
      Assoc(From(s.injected, Steering), s.steering.messages, [m]);
    case DoFollowUp(m) =>
      Assoc(From(s.injected, FollowUp), s.followUp.messages, [m]);
  }

  /** Over any prompts, continuations and queued messages, and in both drain modes, what the runs injected from a queue
      and what is still queued is what was enqueued: in order, each once. */
  lemma {:induction false} SessionLosesNothing(s: Session, ops: seq<Operation>)
    requires NothingLost(s)
    ensures NothingLost(OperateAll(s, ops))
    decreases |ops|
  {
    if ops != [] {
      SessionLosesNothing(s, ops[..|ops| - 1]);
      OperateLosesNothing(OperateAll(s, ops[..|ops| - 1]), ops[|ops| - 1]);
    }
  }

  // ----- The transcript after a run -----

  ghost predicate Idle(st: AgentState) { st.pendingToolCalls == {} && st.streamingMessage == None }

  /** After a run the agent is idle again, and its transcript is the one before, the run's new messages and, if the
      model call threw, the failure message. */
  lemma TranscriptAfterRun(s: Session, l: Loop, env: Environment, setup: Setup)
    requires AtStart(l, s.state.messages) && ScriptOk(env.script)
    ensures
      var (r, ending) := RunLoop(l, env.initial, setup.mode, setup.tools, env.script);
      var after := Settle(s, l, env, setup).state;
      && Idle(after) && r.context == s.state.messages + r.newMessages
      && after.messages == r.context + (if ending == Thrown then [FailureMessage(env)] else [])
      && (ending == Thrown ==> after.errorMessage == Some(env.failure))
  {
    var (r, ending) := RunLoop(l, env.initial, setup.mode, setup.tools, env.script);
    FinalTranscriptsAgree(BeginRun(s.state), l, env.initial, setup.mode, setup.tools, env.script);
    assert r.context + [] == r.context;
  }

  /** A run leaves a well-formed conversation in the agent, also when the model call threw; the exception is a failed or
      aborted last reply with tool calls in it. */
  lemma ConversationAfterRun(s: Session, l: Loop, env: Environment, setup: Setup)
    requires AtStart(l, s.state.messages) && ScriptOk(env.script) && PlainScript(env.script)
    requires PlainArrivals(env.initial) && AllPlain(l.newMessages) && PlainQueues(l) && WellFormed(s.state.messages)
    ensures
      var (r, ending) := RunLoop(l, env.initial, setup.mode, setup.tools, env.script);
      && RequestsOk(r.requests) && AllPlain(r.steering.messages) && AllPlain(r.followUp.messages)
      && (ending != Failed ==> WellFormed(Settle(s, l, env, setup).state.messages))
      && (ending == Failed ==>
            LastReplyDecides(r) && Settle(s, l, env, setup).state.messages == r.context)
  {
    var (r, ending) := RunLoop(l, env.initial, setup.mode, setup.tools, env.script);
    WholeTalk(l, env.initial, setup.mode, setup.tools, env.script, s.state.messages);
    TranscriptAfterRun(s, l, env, setup);
    assert r.context + [] == r.context;
    if ending == Thrown {
      FailureIsPlain(env);
      OwePlain([FailureMessage(env)]);
      OweConcat(CLEAR, r.context, [FailureMessage(env)]);
    }
  }

  lemma FailureIsPlain(env: Environment)
    ensures PlainMessage(FailureMessage(env))
  {
    assert [TextBlock("")][..0] == [];
    assert Calls([]) == [];
  }

  // ----- The conversation over a session -----

  ghost predicate PlainEnvironment(env: Environment) {
    ScriptOk(env.script) && PlainScript(env.script) && PlainArrivals(env.initial)
  }

  /** An operation with plain messages, in an environment of well-behaved replies and plain arrivals. */
  ghost predicate PlainOperation(op: Operation) {
    match op
    case DoPrompt(prompts, env, _) => AllPlain(prompts) && PlainEnvironment(env)
    case DoContinue(env, _) => PlainEnvironment(env)
    case DoSteer(m) => PlainMessage(m)
    case DoFollowUp(m) => PlainMessage(m)
  }

  /** A well-formed transcript, and plain messages in the queues. */
  ghost predicate Talks(s: Session) {
    WellFormed(s.state.messages) && AllPlain(s.steering.messages) && AllPlain(s.followUp.messages)
  }

  /** A run as it starts: the session, the loop, and what is around it. */
  datatype Launch = Launch(session: Session, start: Loop, env: Environment, setup: Setup) {
    function Outcome(): (Loop, Ending) { RunLoop(start, env.initial, setup.mode, setup.tools, env.script) }
  }

  /** The run that an operation makes, if it makes one. */
  function LaunchOf(s: Session, op: Operation): Option<Launch> {
    match op
    case DoPrompt(prompts, env, setup) => Some(Launch(s, PromptStart(s, prompts, Prompt, false), env, setup))
    case DoContinue(env, setup) =>
      (match WayOn(s)
       case Refuse(_) => None
       case WithSteering =>
         var drained := s.(steering := Drain(s.steering).1);
         Some(Launch(drained, PromptStart(drained, Drain(s.steering).0, Steering, true), env, setup))
       case WithFollowUps =>
         var drained := s.(followUp := Drain(s.followUp).1);
         Some(Launch(drained, PromptStart(drained, Drain(s.followUp).0, FollowUp, false), env, setup))
       case WithTranscript => Some(Launch(s, ContinueStart(s), env, setup)))
    case DoSteer(_) => None
    case DoFollowUp(_) => None
  }

  lemma OperateLaunches(s: Session, op: Operation)
    ensures
      var run := LaunchOf(s, op);
      run.Some? ==> Operate(s, op) == Settle(run.value.session, run.value.start, run.value.env, run.value.setup)
  {}

  /** The run fails with tool calls in its last reply. */
  predicate FailsWithCalls(run: Launch) {
    var (r, ending) := run.Outcome();
    ending == Failed && r.newMessages != [] && CallIds(CallsOf(r.newMessages[|r.newMessages| - 1])) != []
  }

  /** A run that may be launched: from a well-formed transcript, with plain messages all round. */
  ghost predicate Launchable(run: Launch) {
    && AtStart(run.start, run.session.state.messages) && Talks(run.session) && PlainEnvironment(run.env)
    && AllPlain(run.start.newMessages) && PlainQueues(run.start)
  }

  lemma DrainPlain(q: Queue)
    requires AllPlain(q.messages)
    ensures AllPlain(Drain(q).0) && AllPlain(Drain(q).1.messages)
  {}

  lemma PromptLaunchable(s: Session, prompts: seq<Message>, from: Source, skipPoll: bool, env: Environment,
                         setup: Setup)
    requires Talks(s) && AllPlain(prompts) && PlainEnvironment(env)
    ensures Launchable(Launch(s, PromptStart(s, prompts, from, skipPoll), env, setup))
    ensures Launchable(Launch(s, ContinueStart(s), env, setup))
  {
    RunsStart(s.state.messages, prompts, from, s.steering, s.followUp, skipPoll);
  }

  lemma OperationLaunchable(s: Session, op: Operation)
    requires Talks(s) && PlainOperation(op)
    ensures LaunchOf(s, op).Some? ==> Launchable(LaunchOf(s, op).value)
  {
    match op
    case DoPrompt(prompts, env, setup) => PromptLaunchable(s, prompts, Prompt, false, env, setup);
    case DoContinue(env, setup) =>
      DrainPlain(s.steering);
      DrainPlain(s.followUp);
      match WayOn(s) {
        case Refuse(_) =>
        case WithSteering =>
          PromptLaunchable(s.(steering := Drain(s.steering).1), Drain(s.steering).0, Steering, true, env, setup);
        case WithFollowUps =>
          PromptLaunchable(s.(followUp := Drain(s.followUp).1), Drain(s.followUp).0, FollowUp, false, env, setup);
        case WithTranscript => PromptLaunchable(s, [], Prompt, false, env, setup);
      }
    case DoSteer(_) =>
    case DoFollowUp(_) =>
  }

  lemma LaunchTalks(run: Launch)
    requires Launchable(run)
    ensures RequestsOk(run.Outcome().0.requests)
    ensures Talks(Settle(run.session, run.start, run.env, run.setup)) <==> !FailsWithCalls(run)
  {
    ConversationAfterRun(run.session, run.start, run.env, run.setup);
  }

  /** The requests of the run that the operation makes are well-formed. */
  ghost predicate RequestsOfOk(s: Session, op: Operation) {
    LaunchOf(s, op).Some? ==> RequestsOk(LaunchOf(s, op).value.Outcome().0.requests)
  }

  predicate EndsWell(s: Session, op: Operation) {
    LaunchOf(s, op).Some? ==> !FailsWithCalls(LaunchOf(s, op).value)
  }

  /** An operation sends only well-formed requests, and leaves a well-formed transcript exactly when its run does not
      fail with calls in its last reply. */
  lemma OperateTalks(s: Session, op: Operation)
    requires Talks(s) && PlainOperation(op)
    ensures RequestsOfOk(s, op) && (Talks(Operate(s, op)) <==> EndsWell(s, op))
  {
    OperationLaunchable(s, op);
    OperateLaunches(s, op);
    if LaunchOf(s, op).Some? {
      LaunchTalks(LaunchOf(s, op).value);
    }
  }

  ghost predicate PlainSession(ops: seq<Operation>) {
    forall k {:trigger PlainOperation(ops[k])} :: 0 <= k < |ops| ==> PlainOperation(ops[k])
  }

  /** Before each operation up to the last the runs so far have ended well. */
  predicate AllEndWell(s: Session, ops: seq<Operation>) {
    ops == [] || (AllEndWell(s, ops[..|ops| - 1]) && EndsWell(OperateAll(s, ops[..|ops| - 1]), ops[|ops| - 1]))
  }

  ghost predicate AllRequestsOk(s: Session, ops: seq<Operation>) {
    ops == []
    || (AllRequestsOk(s, ops[..|ops| - 1]) && RequestsOfOk(OperateAll(s, ops[..|ops| - 1]), ops[|ops| - 1]))
  }

  /** Over any plain prompts, continuations and queued messages: as long as no run fails with calls in its last reply,
      every request of every run is well-formed, and so is the transcript after each. */
  lemma {:induction false} SessionTalks(s: Session, ops: seq<Operation>)
    requires Talks(s) && PlainSession(ops) && AllEndWell(s, ops)
    ensures Talks(OperateAll(s, ops)) && AllRequestsOk(s, ops)
    decreases |ops|
  {
    if ops != [] {
      var before := ops[..|ops| - 1];
      assert forall k :: 0 <= k < |before| ==> before[k] == ops[k];
      assert PlainOperation(ops[|ops| - 1]);
      SessionTalks(s, before);
      OperateTalks(OperateAll(s, before), ops[|ops| - 1]);
    }
  }
}
