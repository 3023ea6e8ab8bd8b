/** How much the polls of a queue take: one message at a time, or all of them. */
module AgentPolls {
  import opened Text
  import opened AgentTypes
  import opened AgentSpec
  import opened AgentQueues
  import opened AgentWholeRuns
  import opened AgentSessions

  // ----- One poll -----

  /** What a poll finds in a queue, takes from it, and leaves. */
  datatype Taking = Taking(source: Source, before: Queue, taken: seq<Message>, after: Queue)

  /** How many messages the front of a queue is: all there are, or one if there is any. */
  function FrontOf(q: Queue): (k: nat)
    ensures k <= |q.messages|
  {
    match q.mode
    case All => |q.messages|
    case OneAtATime => if q.messages == [] then 0 else 1
  }

  /** A poll takes the front, and leaves the rest. */
  ghost predicate TakesRight(t: Taking) {
    && t.taken == t.before.messages[..FrontOf(t.before)]
    && t.after == Queue(t.before.mode, t.before.messages[FrontOf(t.before)..])
  }

  lemma DrainTakes(q: Queue, source: Source)
    ensures TakesRight(Taking(source, q, Drain(q).0, Drain(q).1))
  {
    assert q.messages[..|q.messages|] == q.messages && q.messages[|q.messages|..] == [];
    assert q.messages[..0] == [] && q.messages[0..] == q.messages;
  }

  // ----- Every poll of a run -----

  /** The polls after a turn, as the queues see them. */
  function TurnTakings(l: Loop, turn: Turn): seq<Taking> {
    var arrived := Arrive(l, turn.beforeSteering);
    var polled := PollSteering(arrived);
    SteeringTaking(arrived)
    + if CallsOf(turn.final) != [] || polled.pending != [] then []
      else FollowUpTaking(Arrive(polled, turn.beforeFollowUp))
  }

  function SteeringTaking(l: Loop): seq<Taking> {
    var polled := PollSteering(l);
    if l.skipPoll then [] else [Taking(Steering, l.steering, polled.pending, polled.steering)]
  }

  function FollowUpTaking(l: Loop): seq<Taking> {
    var polled := PollFollowUp(l);
    [Taking(FollowUp, l.followUp, polled.pending, polled.followUp)]
  }

  function TurnsTakings(l: Loop, first: bool, mode: ToolMode, tools: seq<string>, script: seq<Turn>): seq<Taking>
    decreases |script|
  {
    if script == [] || EndsRun(script[0].final) then []
    else
      var taken := TakeTurn(BeginTurn(l, first), mode, tools, script[0]);
      var (next, again) := AfterTurn(taken, script[0]);
      TurnTakings(taken, script[0]) + if again then TurnsTakings(next, false, mode, tools, script[1..]) else []
  }

  function RunTakings(l: Loop, initial: Arrivals, mode: ToolMode, tools: seq<string>, script: seq<Turn>): seq<Taking> {
    SteeringTaking(Arrive(l, initial)) + TurnsTakings(First(l, initial), true, mode, tools, script)
  }

  /** The modes of the two queues. */
  datatype Modes = Modes(steering: QueueMode, followUp: QueueMode)

  function ModesOf(l: Loop): Modes { Modes(l.steering.mode, l.followUp.mode) }

  /** The poll on record is the taking, and takes as much as its queue's mode says. */
  ghost predicate Matches(modes: Modes, p: Poll, t: Taking) {
    && p == Poll(t.source, t.taken) && TakesRight(t)
    && match t.source
       case Steering => t.before.mode == modes.steering
       case FollowUp => t.before.mode == modes.followUp
       case Prompt => false
  }

  ghost predicate AllMatch(modes: Modes, polls: seq<Poll>, ts: seq<Taking>) {
    |polls| == |ts| && forall k {:trigger polls[k]} :: 0 <= k < |ts| ==> Matches(modes, polls[k], ts[k])
  }

  lemma MatchConcat(modes: Modes, p: seq<Poll>, t: seq<Taking>, p': seq<Poll>, t': seq<Taking>)
    requires AllMatch(modes, p, t) && AllMatch(modes, p', t')
    ensures AllMatch(modes, p + p', t + t')
  {}

  /** What is polled next adds to the record just the takings. */
  ghost predicate Polls(l: Loop, next: Loop, ts: seq<Taking>) {
    && ModesOf(next) == ModesOf(l) && l.polls <= next.polls
    && AllMatch(ModesOf(l), next.polls[|l.polls|..], ts)
  }

  lemma PollsThen(a: Loop, b: Loop, c: Loop, t: seq<Taking>, t': seq<Taking>)
    requires Polls(a, b, t) && Polls(b, c, t')
    ensures Polls(a, c, t + t')
  {
    MatchConcat(ModesOf(a), b.polls[|a.polls|..], t, c.polls[|b.polls|..], t');
    assert c.polls[|a.polls|..] == b.polls[|a.polls|..] + c.polls[|b.polls|..];
  }

  lemma PollsNothing(a: Loop, b: Loop)
    requires ModesOf(b) == ModesOf(a) && b.polls == a.polls
    ensures Polls(a, b, [])
  {}

  lemma SteeringPolls(l: Loop)
    ensures Polls(l, PollSteering(l), SteeringTaking(l))
  {
    DrainTakes(l.steering, Steering);
  }

  lemma FollowUpPolls(l: Loop)
    ensures Polls(l, PollFollowUp(l), FollowUpTaking(l))
  {
    DrainTakes(l.followUp, FollowUp);
  }

  lemma AfterTurnPolls(l: Loop, turn: Turn)
    ensures Polls(l, AfterTurn(l, turn).0, TurnTakings(l, turn))
  {
    var arrived := Arrive(l, turn.beforeSteering);
    var polled := PollSteering(arrived);
    PollsNothing(l, arrived);
    SteeringPolls(arrived);
    PollsThen(l, arrived, polled, [], SteeringTaking(arrived));
    assert [] + SteeringTaking(arrived) == SteeringTaking(arrived) == SteeringTaking(arrived) + [];
    if !(CallsOf(turn.final) != [] || polled.pending != []) {
      var again := Arrive(polled, turn.beforeFollowUp);
      PollsNothing(polled, again);
      PollsThen(l, polled, again, SteeringTaking(arrived), []);
      FollowUpPolls(again);
      PollsThen(l, again, PollFollowUp(again), SteeringTaking(arrived), FollowUpTaking(again));
    }
  }

  lemma {:induction false} TurnsPoll(l: Loop, first: bool, mode: ToolMode, tools: seq<string>, script: seq<Turn>)
    ensures
      Polls(l, RunTurns(l, first, mode, tools, script).0, TurnsTakings(l, first, mode, tools, script))
    decreases |script|
  {
    var begun := BeginTurn(l, first);
    if script == [] {
      TurnOnly(l, first, mode, tools, Turn([], User(""), [], NOTHING, NOTHING));
      PollsNothing(l, begun);
    } else {
      var taken := TakeTurn(begun, mode, tools, script[0]);
      TurnOnly(l, first, mode, tools, script[0]);
      if EndsRun(script[0].final) {
        PollsNothing(l, Close(taken));
      } else {
        PollsNothing(l, taken);
        var (next, again) := AfterTurn(taken, script[0]);
        AfterTurnPolls(taken, script[0]);
        PollsThen(l, taken, next, [], TurnTakings(taken, script[0]));
        assert [] + TurnTakings(taken, script[0]) == TurnTakings(taken, script[0]);
        if again {
          TurnsPoll(next, false, mode, tools, script[1..]);
          PollsThen(l, next, RunTurns(next, false, mode, tools, script[1..]).0, TurnTakings(taken, script[0]),
                    TurnsTakings(next, false, mode, tools, script[1..]));
        } else {
          PollsNothing(next, Close(next));
          PollsThen(l, next, Close(next), TurnTakings(taken, script[0]), []);
        }
      }
    }
  }

  /** Every poll of every run takes as much from its queue as the queue's mode says: one message at most, or all. */
  lemma RunPolls(l: Loop, initial: Arrivals, mode: ToolMode, tools: seq<string>, script: seq<Turn>)
    requires l.polls == []
    ensures
      AllMatch(ModesOf(l), RunLoop(l, initial, mode, tools, script).0.polls,
               RunTakings(l, initial, mode, tools, script))
  {
    var arrived := Arrive(l, initial);
    var r := RunLoop(l, initial, mode, tools, script).0;
    SteeringPolls(arrived);
    TurnsPoll(First(l, initial), true, mode, tools, script);
    PollsThen(arrived, First(l, initial), r, SteeringTaking(arrived),
              TurnsTakings(First(l, initial), true, mode, tools, script));
    assert r.polls[0..] == r.polls;
  }

  // ----- Every injection of a session -----

  /** No more than one message at a time comes from the source. */
  ghost predicate OneByOne(polls: seq<Poll>, source: Source) {
    forall k :: 0 <= k < |polls| && polls[k].source == source ==> |polls[k].messages| <= 1
  }

  ghost predicate OneByOneIn(l: Loop, source: Source) {
    OneByOne(l.injected, source) && (l.from == source ==> |l.pending| <= 1)
  }

  /** Of the queues that work one at a time, nothing is injected but one at a time. */
  ghost predicate Dosed(l: Loop) {
    && (l.steering.mode.OneAtATime? ==> OneByOneIn(l, Steering))
    && (l.followUp.mode.OneAtATime? ==> OneByOneIn(l, FollowUp))
  }

  lemma PollsDose(l: Loop)
    requires Dosed(l) && l.pending == []
    ensures Dosed(PollSteering(l)) && Dosed(PollFollowUp(l))
    ensures ModesOf(PollSteering(l)) == ModesOf(PollFollowUp(l)) == ModesOf(l)
  {
    DrainTakes(l.steering, Steering);
    DrainTakes(l.followUp, FollowUp);
  }

  lemma AfterTurnDoses(l: Loop, turn: Turn)
    requires Dosed(l) && l.pending == []
    ensures Dosed(AfterTurn(l, turn).0) && ModesOf(AfterTurn(l, turn).0) == ModesOf(l)
  {
    var arrived := Arrive(l, turn.beforeSteering);
    PollsDose(arrived);
    var polled := PollSteering(arrived);
    if polled.pending == [] {
      PollsDose(Arrive(polled, turn.beforeFollowUp));
    }
  }

  lemma TurnDoses(l: Loop, first: bool, mode: ToolMode, tools: seq<string>, turn: Turn)
    requires Dosed(l)
    ensures
      var begun := BeginTurn(l, first);
      var taken := TakeTurn(begun, mode, tools, turn);
      && Dosed(begun) && Dosed(taken) && taken.pending == [] && ModesOf(begun) == ModesOf(taken) == ModesOf(l)
  {
    TurnOnly(l, first, mode, tools, turn);
  }

  lemma {:induction false} RunDoses(l: Loop, first: bool, mode: ToolMode, tools: seq<string>, script: seq<Turn>)
    requires Dosed(l)
    ensures
      var r := RunTurns(l, first, mode, tools, script).0;
      Dosed(r) && ModesOf(r) == ModesOf(l)
    decreases |script|
  {
    if script == [] {
      TurnDoses(l, first, mode, tools, Turn([], User(""), [], NOTHING, NOTHING));
    } else {
      TurnDoses(l, first, mode, tools, script[0]);
      if !EndsRun(script[0].final) {
        var taken := TakeTurn(BeginTurn(l, first), mode, tools, script[0]);
        AfterTurnDoses(taken, script[0]);
        var (next, again) := AfterTurn(taken, script[0]);
        if again {
          RunDoses(next, false, mode, tools, script[1..]);
        }
      }
    }
  }

  lemma LoopDoses(l: Loop, initial: Arrivals, mode: ToolMode, tools: seq<string>, script: seq<Turn>)
    requires Dosed(l) && l.pending == []
    ensures
      var r := RunLoop(l, initial, mode, tools, script).0;
      Dosed(r) && ModesOf(r) == ModesOf(l)
  {
    PollsDose(Arrive(l, initial));
    RunDoses(First(l, initial), true, mode, tools, script);
  }

  /** The same of all that the agent's runs have injected. */
  ghost predicate SessionDosed(s: Session) {
    && (s.steering.mode.OneAtATime? ==> OneByOne(s.injected, Steering))
    && (s.followUp.mode.OneAtATime? ==> OneByOne(s.injected, FollowUp))
  }

  ghost predicate StaysDosed(s: Session, next: Session) {
    SessionDosed(next) && next.steering.mode == s.steering.mode && next.followUp.mode == s.followUp.mode
  }

  lemma SettleDoses(s: Session, l: Loop, env: Environment, setup: Setup)
    requires SessionDosed(s) && Dosed(l) && l.pending == [] && ModesOf(l) == Modes(s.steering.mode, s.followUp.mode)
    ensures StaysDosed(s, Settle(s, l, env, setup))
  {
    LoopDoses(l, env.initial, setup.mode, setup.tools, env.script);
  }

  lemma PromptDoses(s: Session, prompts: seq<Message>, from: Source, skipPoll: bool, env: Environment, setup: Setup)
    requires SessionDosed(s)
    requires from == Steering && s.steering.mode.OneAtATime? ==> |prompts| <= 1
    requires from == FollowUp && s.followUp.mode.OneAtATime? ==> |prompts| <= 1
    ensures StaysDosed(s, Settle(s, PromptStart(s, prompts, from, skipPoll), env, setup))
  {
    SettleDoses(s, PromptStart(s, prompts, from, skipPoll), env, setup);
  }

  lemma ContinueDoses(s: Session, env: Environment, setup: Setup)
    requires SessionDosed(s)
    ensures StaysDosed(s, AfterContinue(s, env, setup).0)
  {
    match WayOn(s)
    case Refuse(_) =>
    case WithSteering =>
      DrainTakes(s.steering, Steering);
      PromptDoses(s.(steering := Drain(s.steering).1), Drain(s.steering).0, Steering, true, env, setup);
    case WithFollowUps =>
      DrainTakes(s.followUp, FollowUp);
      PromptDoses(s.(followUp := Drain(s.followUp).1), Drain(s.followUp).0, FollowUp, false, env, setup);
    case WithTranscript => SettleDoses(s, ContinueStart(s), env, setup);
  }

  lemma OperateDoses(s: Session, op: Operation)
    requires SessionDosed(s)
    ensures StaysDosed(s, Operate(s, op))
  {
    match op
    case DoPrompt(prompts, env, setup) => PromptDoses(s, prompts, Prompt, false, env, setup);
    case DoContinue(env, setup) => ContinueDoses(s, env, setup);
    case DoSteer(m) =>
    case DoFollowUp(m) =>
  }

  /** Over any operations a queue that works one at a time gives every turn one message at most. */
  lemma {:induction false} SessionInjectsOneByOne(s: Session, ops: seq<Operation>)
    requires SessionDosed(s)
    ensures StaysDosed(s, OperateAll(s, ops))
    decreases |ops|
  {
    if ops != [] {
      SessionInjectsOneByOne(s, ops[..|ops| - 1]);
      OperateDoses(OperateAll(s, ops[..|ops| - 1]), ops[|ops| - 1]);
    }
  }
}
