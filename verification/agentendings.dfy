/** How runs go on and end, what a reply's events tell, and what the agent makes of a failure and a continuation. */
module AgentEndings {
  import opened Text
  import opened AgentTypes
  import opened AgentSpec
  import opened AgentQueues
  import opened AgentRuns
  import opened AgentWholeRuns
  import opened AgentSessions
  import opened AgentPolls

  // ----- The end of a run -----

  /** A reply that failed or was aborted. */
  predicate IsBroken(m: Message) {
    m.Assistant? && m.stopReason in {ErrorStop, Aborted}
  }

  /** A run of `n` turns of the script, the last of which broke if and only if the run failed. */
  ghost predicate EndsSo(l: Loop, r: Loop, ending: Ending, script: seq<Turn>, n: nat) {
    && n <= |script| && |r.snapshots| == |l.snapshots| + n
    && (forall i :: 0 <= i < n - 1 ==> !IsBroken(script[i].final))
    && (n > 0 ==> (IsBroken(script[n - 1].final) <==> ending.Failed?))
    && match ending
       case Thrown => n == |script|
       case Completed => n > 0 && EndsTelling(r)
       case Failed => n > 0 && EndsTelling(r) && EndsInTurn(r, script[n - 1].final)
  }

  /** The last event is the agent's end, with the run's new messages. */
  ghost predicate EndsTelling(r: Loop) {
    r.events != [] && r.events[|r.events| - 1] == AgentEnd(r.newMessages)
  }

  /** The last turn ends with its reply and no results, and nothing but the agent's end comes after it. */
  ghost predicate EndsInTurn(r: Loop, final: Message) {
    && |r.events| >= 2 && r.events[|r.events| - 2] == TurnEnd(final, [])
    && r.newMessages != [] && r.newMessages[|r.newMessages| - 1] == final
  }

  lemma BrokenTurn(l: Loop, mode: ToolMode, tools: seq<string>, turn: Turn)
    requires EndsRun(turn.final)
    ensures EndsInTurn(Close(TakeTurn(l, mode, tools, turn)), turn.final)
  {}

  lemma TurnSnapshots(l: Loop, first: bool, mode: ToolMode, tools: seq<string>, turn: Turn)
    ensures |BeginTurn(l, first).snapshots| == |l.snapshots|
    ensures |TakeTurn(BeginTurn(l, first), mode, tools, turn).snapshots| == |l.snapshots| + 1
  {}

  lemma OneMoreTurn(l: Loop, next: Loop, r: Loop, ending: Ending, script: seq<Turn>, n: nat)
    requires script != [] && !IsBroken(script[0].final) && |next.snapshots| == |l.snapshots| + 1
    requires EndsSo(next, r, ending, script[1..], n) && (n == 0 ==> ending.Thrown?)
    ensures EndsSo(l, r, ending, script, n + 1)
  {
    forall i | 0 <= i < n
      ensures !IsBroken(script[i].final)
    {
      assert i > 0 ==> script[i] == script[1..][i - 1];
    }
    assert n > 0 ==> script[1..][n - 1] == script[n];
  }

  /** A run fails exactly when a reply failed or was aborted, right after that reply and without its tool calls; it
      throws exactly when it needs one more reply than there are. */
  lemma {:induction false} RunEndsSo(l: Loop, first: bool, mode: ToolMode, tools: seq<string>, script: seq<Turn>)
    returns (n: nat)
    ensures
      var (r, ending) := RunTurns(l, first, mode, tools, script);
      EndsSo(l, r, ending, script, n) && (n == 0 ==> ending.Thrown?)
    decreases |script|
  {
    if script == [] {
      n := 0;
    } else {
      var taken := TakeTurn(BeginTurn(l, first), mode, tools, script[0]);
      TurnSnapshots(l, first, mode, tools, script[0]);
      n := 1;
      if EndsRun(script[0].final) {
        BrokenTurn(BeginTurn(l, first), mode, tools, script[0]);
      } else {
        var (next, again) := AfterTurn(taken, script[0]);
        PollsOnly(taken, script[0]);
        if again {
          var later := RunEndsSo(next, false, mode, tools, script[1..]);
          OneMoreTurn(l, next, RunTurns(next, false, mode, tools, script[1..]).0,
                      RunTurns(next, false, mode, tools, script[1..]).1, script, later);
          n := later + 1;
        }
      }
    }
  }

  // ----- The calls of a reply -----

  /** A reply's calls are those of its content, in order. */
  lemma {:induction false} CallsOfParts(a: seq<Block>, b: seq<Block>)
    ensures Calls(a + b) == Calls(a) + Calls(b)
    ensures |b| == 1 ==> Calls(b) == if b[0].ToolCall? then b else []
    decreases |b|
  {
    if b == [] {
      assert a + b == a;
    } else {
      CallsOfParts(a, b[..|b| - 1]);
      assert (a + b)[..|a + b| - 1] == a + b[..|b| - 1];
      if |b| == 1 {
        assert b == [b[0]] && b[..0] == [];
      }
    }
  }

  // ----- The events of a reply -----

  /** What the start of a message and its growth are announced by. */
  function Told(stream: seq<StreamEvent>): seq<Event> {
    if stream == [] then []
    else
      var last := stream[|stream| - 1];
      Told(stream[..|stream| - 1])
      + match last
        case Started(partial) => [MessageStart(partial)]
        case Delta(partial) => [MessageUpdate(partial)]
        case Finished => []
  }

  /** Deltas before the message starts. */
  ghost predicate NotStarted(stream: seq<StreamEvent>) {
    forall k :: 0 <= k < |stream| ==> !stream[k].Started?
  }

  /** Nothing is told before the first start, and everything from it on. */
  lemma {:induction false} StreamTells(context: seq<Message>, early: seq<StreamEvent>, stream: seq<StreamEvent>)
    requires NotStarted(early) && (stream != [] ==> stream[0].Started?)
    ensures
      var r := StreamAll(context, early + stream);
      r.events == Told(stream) && r.added == (stream != []) && (stream != [] ==> r.context != [])
    ensures stream == [] ==> StreamAll(context, early + stream).context == context
    decreases |stream|, |early|
  {
    var all := early + stream;
    if stream != [] {
      assert all[..|all| - 1] == early + stream[..|stream| - 1];
      StreamTells(context, early, stream[..|stream| - 1]);
      StreamStepTells(StreamAll(context, all[..|all| - 1]), stream[|stream| - 1], Told(stream[..|stream| - 1]));
    } else if early != [] {
      assert all == early && early[..|early| - 1] + [] == early[..|early| - 1];
      StreamTells(context, early[..|early| - 1], []);
    }
  }

  lemma StreamStepTells(r: Streamed, e: StreamEvent, told: seq<Event>)
    requires r.events == told && (r.added ==> r.context != []) && (e.Started? || r.added)
    ensures
      var s := StreamStep(r, e);
      && s.added && s.context != []
      && s.events == told + match e
                            case Started(partial) => [MessageStart(partial)]
                            case Delta(partial) => [MessageUpdate(partial)]
                            case Finished => []
  {
    assert told + [] == told;
  }

  lemma {:induction false} FinishIs(stream: seq<StreamEvent>, j: nat, k: nat)
    requires j <= k <= |stream| && (k < |stream| ==> stream[k].Finished?)
    requires forall i :: j <= i < k ==> !stream[i].Finished?
    ensures FinishFrom(stream, j) == k
    decreases k - j
  {
    if j < k {
      FinishIs(stream, j + 1, k);
    }
  }

  /** A reply's events: of its stream, from the first start up to the first finish, a start and an update for each
      partial message; and then the end of the final message, which is started then if nothing was. */
  lemma ReplyTells(context: seq<Message>, early: seq<StreamEvent>, stream: seq<StreamEvent>, late: seq<StreamEvent>,
                   final: Message)
    requires NotStarted(early) && (stream != [] ==> stream[0].Started?) && (late != [] ==> late[0].Finished?)
    requires forall k :: 0 <= k < |early + stream| ==> !(early + stream)[k].Finished?
    ensures
      var r := StreamReply(context, early + stream + late, final);
      r.events == if stream == [] then [MessageStart(final), MessageEnd(final)] else Told(stream) + [MessageEnd(final)]
  {
    var whole := early + stream + late;
    FinishIs(whole, 0, |early + stream|);
    assert whole[..|early + stream|] == early + stream;
    StreamTells(context, early, stream);
    assert [] + [MessageStart(final), MessageEnd(final)] == [MessageStart(final), MessageEnd(final)];
  }

  // ----- Failures -----

  /** The error a turn end leaves in the agent. */
  function ErrorOf(e: Event): Option<string> {
    if e.TurnEnd? && e.message.Assistant? && e.message.errorMessage != Some("") then e.message.errorMessage else None
  }

  /** The agent's error is that of the last turn that had one, or the one it had before. */
  lemma {:induction false} LastErrorStays(st: AgentState, events: seq<Event>, k: nat)
    requires k <= |events| && forall i :: k <= i < |events| ==> ErrorOf(events[i]).None?
    ensures
      ReduceAll(st, events).errorMessage
      == if k > 0 && ErrorOf(events[k - 1]).Some? then ErrorOf(events[k - 1])
         else ReduceAll(st, events[..k]).errorMessage
    decreases |events| - k
  {
    if k == |events| {
      assert events[..k] == events;
    } else {
      LastErrorStays(st, events, k + 1);
      assert events[..k + 1][..k] == events[..k];
    }
  }

  predicate TellsStreaming(e: Event) {
    e.MessageStart? || e.MessageUpdate? || e.MessageEnd? || e.AgentEnd?
  }

  /** What the agent shows as streaming is the partial message last told, until a message or the run ends. */
  lemma {:induction false} LastPartialStreams(st: AgentState, events: seq<Event>, k: nat)
    requires 0 < k <= |events| && TellsStreaming(events[k - 1])
    requires forall i :: k <= i < |events| ==> !TellsStreaming(events[i])
    ensures
      ReduceAll(st, events).streamingMessage
      == if events[k - 1].MessageStart? || events[k - 1].MessageUpdate? then Some(events[k - 1].message) else None
    decreases |events|
  {
    if k < |events| {
      LastPartialStreams(st, events[..|events| - 1], k);
    }
  }

  /** A model call that throws leaves, as the last message of the transcript and all of what the last agent end tells,
      a reply that is aborted just if the run was, and its error is the agent's. */
  lemma FailureIsTold(s: Session, l: Loop, env: Environment, setup: Setup)
    requires AtStart(l, s.state.messages) && ScriptOk(env.script)
    requires RunLoop(l, env.initial, setup.mode, setup.tools, env.script).1 == Thrown
    ensures
      var after := Settle(s, l, env, setup);
      var n := |after.state.messages|;
      && n > 0 && after.state.messages[n - 1].Assistant?
      && after.state.messages[n - 1].stopReason == (if env.aborted then Aborted else ErrorStop)
      && after.state.messages[n - 1].errorMessage == Some(env.failure) == after.state.errorMessage
      && after.heard != [] && after.heard[|after.heard| - 1] == AgentEnd([after.state.messages[n - 1]])
  {
    TranscriptAfterRun(s, l, env, setup);
  }

  /** After a run that did not throw the agent's error is that of its last turn that had one, and none if no turn had:
      not that of an earlier run. Its listeners have heard just the run's events. */
  lemma ErrorAfterRun(s: Session, l: Loop, env: Environment, setup: Setup, k: nat)
    requires RunLoop(l, env.initial, setup.mode, setup.tools, env.script).1 != Thrown
    requires
      var events := RunLoop(l, env.initial, setup.mode, setup.tools, env.script).0.events;
      && k <= |events| && (forall i :: k <= i < |events| ==> ErrorOf(events[i]).None?)
      && (k > 0 ==> ErrorOf(events[k - 1]).Some?)
    ensures
      var events := RunLoop(l, env.initial, setup.mode, setup.tools, env.script).0.events;
      && Settle(s, l, env, setup).state.errorMessage == (if k == 0 then None else ErrorOf(events[k - 1]))
      && Settle(s, l, env, setup).heard == s.heard + events
  {
    var events := RunLoop(l, env.initial, setup.mode, setup.tools, env.script).0.events;
    LastErrorStays(BeginRun(s.state), events, k);
    assert events[..0] == [] && events + [] == events;
  }

  // ----- Continuing -----

  /** The polls that a run injects before its first model request, in a session that had injected `before`: what the
      run starts with, and what its own first poll took. */
  ghost predicate StartsWith(before: seq<Poll>, after: seq<Poll>, source: Source, messages: seq<Message>) {
    |after| > |before| + 1 && before == after[..|before|] && after[|before|] == Poll(source, messages)
  }

  lemma {:induction false} RunInjectsFirst(l: Loop, first: bool, mode: ToolMode, tools: seq<string>, script: seq<Turn>)
    ensures
      var r := RunTurns(l, first, mode, tools, script).0;
      l.injected + [Poll(l.from, l.pending)] <= r.injected
    decreases |script|
  {
    var begun := BeginTurn(l, first);
    assert begun.injected == l.injected + [Poll(l.from, l.pending)];
    if script != [] {
      TurnOnly(l, first, mode, tools, script[0]);
      var taken := TakeTurn(begun, mode, tools, script[0]);
      if !EndsRun(script[0].final) {
        var (next, again) := AfterTurn(taken, script[0]);
        PollsOnly(taken, script[0]);
        if again {
          RunInjectsFirst(next, false, mode, tools, script[1..]);
        }
      }
    }
  }

  lemma SettleStartsWith(s: Session, l: Loop, env: Environment, setup: Setup)
    requires |l.injected| == 1
    ensures
      var after := Settle(s, l, env, setup).injected;
      && StartsWith(s.injected, after, l.injected[0].source, l.injected[0].messages)
      && (l.skipPoll ==> after[|s.injected| + 1] == Poll(Steering, []))
  {
    var f := First(l, env.initial);
    FirstPoll(l, env.initial);
    RunInjectsFirst(f, true, setup.mode, setup.tools, env.script);
    var r := RunLoop(l, env.initial, setup.mode, setup.tools, env.script).0;
    assert (l.injected + [Poll(f.from, f.pending)])[0] == l.injected[0] == r.injected[0];
    assert (l.injected + [Poll(f.from, f.pending)])[1] == r.injected[1];
  }

  /** How a session continues: after an assistant message with the front of the steering queue, whose first poll is
      then skipped, else with the front of the follow-ups, else not at all; after any other message from the
      transcript, with nothing new; and not at all from nothing. */
  ghost predicate ContinuesSo(s: Session, after: Session, reply: Reply) {
    var n := |s.state.messages|;
    if n == 0 then after == s && reply == Refused("No messages to continue from")
    else if !s.state.messages[n - 1].Assistant? then reply.Ran? && StartsWith(s.injected, after.injected, Prompt, [])
    else if s.steering.messages != [] then
      && reply.Ran?
      && StartsWith(s.injected, after.injected, Steering, s.steering.messages[..FrontOf(s.steering)])
      && after.injected[|s.injected| + 1] == Poll(Steering, [])
    else if s.followUp.messages != [] then
      && reply.Ran?
      && StartsWith(s.injected, after.injected, FollowUp, s.followUp.messages[..FrontOf(s.followUp)])
    else after == s && reply == Refused("Cannot continue from message role: assistant")
  }

  lemma ContinueContinuesSo(s: Session, env: Environment, setup: Setup)
    ensures var (after, reply) := AfterContinue(s, env, setup); ContinuesSo(s, after, reply)
  {
    DrainTakes(s.steering, Steering);
    DrainTakes(s.followUp, FollowUp);
    match WayOn(s)
    case Refuse(_) =>
    case WithSteering =>
      var drained := s.(steering := Drain(s.steering).1);
      SettleStartsWith(drained, PromptStart(drained, Drain(s.steering).0, Steering, true), env, setup);
    case WithFollowUps =>
      var drained := s.(followUp := Drain(s.followUp).1);
      SettleStartsWith(drained, PromptStart(drained, Drain(s.followUp).0, FollowUp, false), env, setup);
    case WithTranscript => SettleStartsWith(s, ContinueStart(s), env, setup);
  }
}
