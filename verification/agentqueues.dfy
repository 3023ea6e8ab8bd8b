/** Queued messages: none is lost, repeated or reordered between the queues and the transcript. */
module AgentQueues {
  import opened Text
  import opened AgentTypes
  import opened AgentSpec
  import opened AgentPhases
  import opened AgentRuns

  /** The messages of the polls of one source, in order. */
  function From(polls: seq<Poll>, source: Source): seq<Message> {
    if polls == [] then []
    else
      var last := polls[|polls| - 1];
      From(polls[..|polls| - 1], source) + if last.source == source then last.messages else []
  }

  lemma FromAppend(polls: seq<Poll>, p: Poll, source: Source)
    ensures From(polls + [p], source) == From(polls, source) + if p.source == source then p.messages else []
  {
    assert (polls + [p])[..|polls|] == polls;
  }

  lemma Assoc<T>(a: seq<T>, b: seq<T>, c: seq<T>)
    ensures a + b + c == a + (b + c)
  {}

  // ----- One queue -----

  /** Draining takes the messages from the front, and takes none only from an empty queue. */
  lemma DrainSplits(q: Queue)
    ensures
      var (drained, left) := Drain(q);
      && drained + left.messages == q.messages && left.mode == q.mode
      && (drained == [] <==> q.messages == [])
  {}

  /** What was drained and what is still queued is what was enqueued. */
  ghost predicate Kept(polls: seq<Poll>, source: Source, queued: seq<Message>, enqueued: seq<Message>) {
    From(polls, source) + queued == enqueued
  }

  lemma KeptByEnqueue(polls: seq<Poll>, source: Source, q: Queue, enqueued: seq<Message>, more: seq<Message>)
    requires Kept(polls, source, q.messages, enqueued)
    ensures Kept(polls, source, Enqueue(q, more).messages, enqueued + more)
  {
    Assoc(From(polls, source), q.messages, more);
  }

  lemma KeptByDrain(polls: seq<Poll>, source: Source, q: Queue, enqueued: seq<Message>)
    requires Kept(polls, source, q.messages, enqueued)
    ensures Kept(polls + [Poll(source, Drain(q).0)], source, Drain(q).1.messages, enqueued)
  {
    FromAppend(polls, Poll(source, Drain(q).0), source);
    DrainSplits(q);
    Assoc(From(polls, source), Drain(q).0, Drain(q).1.messages);
  }

  lemma KeptByOther(polls: seq<Poll>, source: Source, queued: seq<Message>, enqueued: seq<Message>, p: Poll)
    requires Kept(polls, source, queued, enqueued) && p.source != source
    ensures Kept(polls + [p], source, queued, enqueued)
  {
    FromAppend(polls, p, source);
  }

  // ----- Both queues of a run -----

  /** Everything enqueued in the two queues since they held `before` was drained by a poll or is still queued. */
  ghost predicate QueuesKept(l: Loop, before: Arrivals) {
    && Kept(l.polls, Steering, l.steering.messages, before.steering + l.arrived.steering)
    && Kept(l.polls, FollowUp, l.followUp.messages, before.followUp + l.arrived.followUp)
  }

  lemma ArriveKeeps(l: Loop, a: Arrivals, before: Arrivals)
    requires QueuesKept(l, before)
    ensures QueuesKept(Arrive(l, a), before)
  {
    KeptByEnqueue(l.polls, Steering, l.steering, before.steering + l.arrived.steering, a.steering);
    KeptByEnqueue(l.polls, FollowUp, l.followUp, before.followUp + l.arrived.followUp, a.followUp);
    Assoc(before.steering, l.arrived.steering, a.steering);
    Assoc(before.followUp, l.arrived.followUp, a.followUp);
  }

  lemma PollsKeep(l: Loop, before: Arrivals)
    requires QueuesKept(l, before)
    ensures QueuesKept(PollSteering(l), before) && QueuesKept(PollFollowUp(l), before)
  {
    KeptByDrain(l.polls, Steering, l.steering, before.steering + l.arrived.steering);
    KeptByOther(l.polls, FollowUp, l.followUp.messages, before.followUp + l.arrived.followUp,
                Poll(Steering, Drain(l.steering).0));
    KeptByDrain(l.polls, FollowUp, l.followUp, before.followUp + l.arrived.followUp);
    KeptByOther(l.polls, Steering, l.steering.messages, before.steering + l.arrived.steering,
                Poll(FollowUp, Drain(l.followUp).0));
  }

  lemma AfterTurnKeeps(l: Loop, turn: Turn, before: Arrivals)
    requires QueuesKept(l, before)
    ensures QueuesKept(AfterTurn(l, turn).0, before)
  {
    ArriveKeeps(l, turn.beforeSteering, before);
    PollsKeep(Arrive(l, turn.beforeSteering), before);
    var polled := PollSteering(Arrive(l, turn.beforeSteering));
    ArriveKeeps(polled, turn.beforeFollowUp, before);
    PollsKeep(Arrive(polled, turn.beforeFollowUp), before);
  }

  /** A turn touches neither the queues nor the polls. */
  lemma TurnOnly(l: Loop, first: bool, mode: ToolMode, tools: seq<string>, turn: Turn)
    ensures
      var begun := BeginTurn(l, first);
      var taken := TakeTurn(begun, mode, tools, turn);
      && begun.steering == l.steering && begun.followUp == l.followUp && begun.arrived == l.arrived
      && begun.polls == l.polls && begun.pending == [] && begun.skipPoll == l.skipPoll
      && begun.injected == l.injected + [Poll(l.from, l.pending)]
      && taken.steering == l.steering && taken.followUp == l.followUp && taken.arrived == l.arrived
      && taken.polls == l.polls && taken.pending == [] && taken.skipPoll == l.skipPoll
      && taken.injected == begun.injected
  {}

  // ----- From the polls into the transcript -----

  function Waiting(l: Loop, source: Source): seq<Message> {
    if l.from == source then l.pending else []
  }

  /** What was polled since the injections were `start` is injected or waiting, in order. */
  ghost predicate Accounted(l: Loop, source: Source, start: seq<Message>) {
    From(l.injected, source) + Waiting(l, source) == start + From(l.polls, source)
  }

  lemma InjectAccounts(l: Loop, begun: Loop, source: Source, start: seq<Message>)
    requires Accounted(l, source, start)
    requires begun.polls == l.polls && begun.pending == [] && begun.injected == l.injected + [Poll(l.from, l.pending)]
    ensures Accounted(begun, source, start)
  {
    FromAppend(l.injected, Poll(l.from, l.pending), source);
    assert From(begun.injected, source) + [] == From(begun.injected, source);
  }

  lemma PollsAccount(l: Loop, source: Source, start: seq<Message>)
    requires Accounted(l, source, start) && l.pending == []
    ensures Accounted(PollSteering(l), source, start) && Accounted(PollFollowUp(l), source, start)
  {
    PollAccounts(l, source, start, PollSteering(l), Drain(l.steering).0);
    PollAccounts(l, source, start, PollFollowUp(l), Drain(l.followUp).0);
  }

  lemma PollAccounts(l: Loop, source: Source, start: seq<Message>, next: Loop, drained: seq<Message>)
    requires Accounted(l, source, start) && l.pending == [] && next.injected == l.injected
    requires
      || (next.polls == l.polls && next.pending == [])
      || (next.polls == l.polls + [Poll(next.from, drained)] && next.pending == drained)
    ensures Accounted(next, source, start)
  {
    var a := From(l.injected, source);
    assert a + [] == a;
    if next.polls != l.polls || next.pending != [] {
      FromAppend(l.polls, Poll(next.from, drained), source);
      Assoc(start, From(l.polls, source), if next.from == source then drained else []);
    }
  }

  lemma AfterTurnAccounts(l: Loop, turn: Turn, source: Source, start: seq<Message>)
    requires Accounted(l, source, start) && l.pending == []
    ensures Accounted(AfterTurn(l, turn).0, source, start)
  {
    var arrived := Arrive(l, turn.beforeSteering);
    assert Accounted(arrived, source, start);
    PollsAccount(arrived, source, start);
    var polled := PollSteering(arrived);
    if polled.pending == [] {
      assert Accounted(Arrive(polled, turn.beforeFollowUp), source, start);
      PollsAccount(Arrive(polled, turn.beforeFollowUp), source, start);
    }
  }

  ghost predicate BothAccounted(l: Loop, steering: seq<Message>, followUp: seq<Message>) {
    Accounted(l, Steering, steering) && Accounted(l, FollowUp, followUp)
  }

  /** Nothing is lost in a queue, and nothing polled is lost either. */
  ghost predicate Balanced(l: Loop, before: Arrivals, steering: seq<Message>, followUp: seq<Message>) {
    QueuesKept(l, before) && BothAccounted(l, steering, followUp)
  }

  /** At the end of a run: everything that was polled is injected. */
  ghost predicate Conserved(r: Loop, before: Arrivals, steering: seq<Message>, followUp: seq<Message>) {
    && r.pending == [] && QueuesKept(r, before)
    && From(r.injected, Steering) == steering + From(r.polls, Steering)
    && From(r.injected, FollowUp) == followUp + From(r.polls, FollowUp)
  }

  lemma AllInjected(l: Loop, before: Arrivals, steering: seq<Message>, followUp: seq<Message>)
    requires Balanced(l, before, steering, followUp) && l.pending == []
    ensures Conserved(l, before, steering, followUp) && Conserved(Close(l), before, steering, followUp)
  {
    assert From(l.injected, Steering) + [] == From(l.injected, Steering);
    assert From(l.injected, FollowUp) + [] == From(l.injected, FollowUp);
  }

  lemma TurnBalanced(l: Loop, first: bool, mode: ToolMode, tools: seq<string>, turn: Turn, before: Arrivals,
                     steering: seq<Message>, followUp: seq<Message>)
    requires Balanced(l, before, steering, followUp)
    ensures
      var begun := BeginTurn(l, first);
      var taken := TakeTurn(begun, mode, tools, turn);
      && Balanced(begun, before, steering, followUp) && begun.pending == []
      && Balanced(taken, before, steering, followUp) && taken.pending == []
  {
    var begun := BeginTurn(l, first);
    var taken := TakeTurn(begun, mode, tools, turn);
    TurnOnly(l, first, mode, tools, turn);
    InjectAccounts(l, begun, Steering, steering);
    InjectAccounts(l, begun, FollowUp, followUp);
    InjectAccounts(l, taken, Steering, steering);
    InjectAccounts(l, taken, FollowUp, followUp);
  }

  lemma AfterTurnBalanced(l: Loop, turn: Turn, before: Arrivals, steering: seq<Message>, followUp: seq<Message>)
    requires Balanced(l, before, steering, followUp) && l.pending == []
    ensures Balanced(AfterTurn(l, turn).0, before, steering, followUp)
    ensures !AfterTurn(l, turn).1 ==> AfterTurn(l, turn).0.pending == []
  {
    AfterTurnKeeps(l, turn, before);
    AfterTurnAccounts(l, turn, Steering, steering);
    AfterTurnAccounts(l, turn, FollowUp, followUp);
  }

  /** In every run, however it ends and in both drain modes, the messages injected from a queue since the start and
      those still queued are the messages enqueued: in order, each once. */
  lemma {:induction false} RunConserves(l: Loop, first: bool, mode: ToolMode, tools: seq<string>, script: seq<Turn>,
                                        before: Arrivals, steering: seq<Message>, followUp: seq<Message>)
    requires Balanced(l, before, steering, followUp)
    ensures Conserved(RunTurns(l, first, mode, tools, script).0, before, steering, followUp)
    decreases |script|
  {
    var begun := BeginTurn(l, first);
    if script == [] {
      TurnBalanced(l, first, mode, tools, Turn([], User(""), [], NOTHING, NOTHING), before, steering, followUp);
      AllInjected(begun, before, steering, followUp);
    } else {
      var taken := TakeTurn(begun, mode, tools, script[0]);
      TurnBalanced(l, first, mode, tools, script[0], before, steering, followUp);
      AllInjected(taken, before, steering, followUp);
      if !EndsRun(script[0].final) {
        var (next, again) := AfterTurn(taken, script[0]);
        AfterTurnBalanced(taken, script[0], before, steering, followUp);
        if again {
          RunConserves(next, false, mode, tools, script[1..], before, steering, followUp);
        } else {
          AllInjected(next, before, steering, followUp);
        }
      }
    }
  }

  // ----- When a run completes -----

  /** The last two polls asked both queues and got nothing. */
  ghost predicate AskedBoth(polls: seq<Poll>) {
    |polls| >= 2 && polls[|polls| - 2..] == [Poll(Steering, []), Poll(FollowUp, [])]
  }

  /** After `turn` both queues were just found empty; only steering that arrived between the two polls can be queued. */
  ghost predicate Settled(r: Loop, turn: Turn) {
    && AskedBoth(r.polls) && CallsOf(turn.final) == []
    && r.followUp.messages == [] && r.steering.messages == turn.beforeFollowUp.steering
  }

  lemma CompletedTurn(l: Loop, turn: Turn)
    requires !l.skipPoll
    ensures
      var (next, again) := AfterTurn(l, turn);
      && !next.skipPoll
      && (!again ==> Settled(Close(next), turn))
  {
    var polled := PollSteering(Arrive(l, turn.beforeSteering));
    DrainSplits(Arrive(l, turn.beforeSteering).steering);
    DrainSplits(Arrive(polled, turn.beforeFollowUp).followUp);
  }

  lemma TurnCounts(l: Loop, first: bool, mode: ToolMode, tools: seq<string>, turn: Turn)
    ensures
      var taken := TakeTurn(BeginTurn(l, first), mode, tools, turn);
      taken.skipPoll == l.skipPoll && |AfterTurn(taken, turn).0.snapshots| == |l.snapshots| + 1
  {
    PollsOnly(TakeTurn(BeginTurn(l, first), mode, tools, turn), turn);
  }

  /** A run that completes has just found both queues empty after a reply without tool calls. All that can be queued
      then is steering that arrived between those two last polls. */
  lemma {:induction false} RunCompletes(l: Loop, first: bool, mode: ToolMode, tools: seq<string>, script: seq<Turn>)
    returns (n: nat)
    requires !l.skipPoll && RunTurns(l, first, mode, tools, script).1 == Completed
    ensures 0 < n <= |script| && |RunTurns(l, first, mode, tools, script).0.snapshots| == |l.snapshots| + n
    ensures Settled(RunTurns(l, first, mode, tools, script).0, script[n - 1])
    decreases |script|
  {
    var taken := TakeTurn(BeginTurn(l, first), mode, tools, script[0]);
    TurnCounts(l, first, mode, tools, script[0]);
    CompletedTurn(taken, script[0]);
    var (next, again) := AfterTurn(taken, script[0]);
    n := 1;
    if again {
      var later := RunCompletes(next, false, mode, tools, script[1..]);
      n := later + 1;
    }
  }

  // ----- What the transcript is made of -----

  /** The reply and the tool results of each turn. */
  function Replies(events: seq<Event>): seq<seq<Message>> {
    if events == [] then []
    else
      var last := events[|events| - 1];
      Replies(events[..|events| - 1]) + if last.TurnEnd? then [[last.message] + last.toolResults] else []
  }

  lemma {:induction false} RepliesConcat(a: seq<Event>, b: seq<Event>)
    ensures Replies(a + b) == Replies(a) + Replies(b)
    decreases |b|
  {
    if b == [] {
      assert a + b == a;
    } else {
      RepliesConcat(a, b[..|b| - 1]);
      assert (a + b)[..|a + b| - 1] == a + b[..|b| - 1];
    }
  }

  lemma {:induction false} NoReplies(events: seq<Event>)
    requires forall k :: 0 <= k < |events| ==> !events[k].TurnEnd?
    ensures Replies(events) == []
    decreases |events|
  {
    if events != [] {
      NoReplies(events[..|events| - 1]);
    }
  }

  /** The first injection, and then by turns an injection and a turn's messages. */
  function Weave(injected: seq<Poll>, replies: seq<seq<Message>>): seq<Message>
    decreases |injected| + |replies|
  {
    if replies != [] && |replies| + 1 >= |injected| then
      Weave(injected, replies[..|replies| - 1]) + replies[|replies| - 1]
    else if injected == [] then []
    else Weave(injected[..|injected| - 1], replies) + injected[|injected| - 1].messages
  }

  /** Between turns: one injection more than replies. */
  ghost predicate Woven(l: Loop) {
    && |l.injected| == |Replies(l.events)| + 1
    && l.newMessages == Weave(l.injected, Replies(l.events))
  }

  lemma WeaveInjection(injected: seq<Poll>, p: Poll, replies: seq<seq<Message>>)
    requires |injected| == |replies| + 1
    ensures Weave(injected + [p], replies) == Weave(injected, replies) + p.messages
  {
    assert (injected + [p])[..|injected|] == injected;
  }

  lemma WeaveReply(injected: seq<Poll>, replies: seq<seq<Message>>, r: seq<Message>)
    requires |injected| == |replies| + 2
    ensures Weave(injected, replies + [r]) == Weave(injected, replies) + r
  {
    assert (replies + [r])[..|replies|] == replies;
  }

  /** A reply is awaited. */
  ghost predicate WovenInTurn(l: Loop) {
    && |l.injected| == |Replies(l.events)| + 2
    && l.newMessages == Weave(l.injected, Replies(l.events))
  }

  lemma BeginWeaves(l: Loop, first: bool)
    requires Woven(l)
    ensures WovenInTurn(BeginTurn(l, first))
  {
    BeginAdds(l, first);
    AnnounceInner(l.pending);
    RepliesConcat(l.events, BeginEvents(l, first));
    NoReplies(BeginEvents(l, first));
    assert Replies(l.events) + [] == Replies(l.events);
    WeaveInjection(l.injected, Poll(l.from, l.pending), Replies(l.events));
  }

  lemma TurnWeaves(l: Loop, mode: ToolMode, tools: seq<string>, turn: Turn)
    requires WovenInTurn(l) && TurnOk(turn)
    ensures Woven(TakeTurn(l, mode, tools, turn))
  {
    var (events, ended) := TurnEvents(l, mode, tools, turn);
    TurnAdds(l, mode, tools, turn);
    TurnInner(l, mode, tools, turn);
    TurnReplies(l.events, events, turn.final, TurnResults(mode, tools, turn));
    WeaveReply(l.injected, Replies(l.events), ended);
  }

  lemma TurnReplies(before: seq<Event>, events: seq<Event>, m: Message, results: seq<Message>)
    requires forall k :: 0 <= k < |events| ==> IsInner(events[k])
    ensures Replies(before + events + [TurnEnd(m, results)]) == Replies(before) + [[m] + results]
  {
    var end := [TurnEnd(m, results)];
    assert (before + events + end)[..|before + events|] == before + events;
    RepliesConcat(before, events);
    NoReplies(events);
    assert Replies(before) + [] == Replies(before);
  }

  lemma CloseWeaves(l: Loop)
    requires Woven(l)
    ensures Woven(Close(l))
  {
    RepliesConcat(l.events, [AgentEnd(l.newMessages)]);
    NoReplies([AgentEnd(l.newMessages)]);
    assert Replies(l.events) + [] == Replies(l.events);
  }

  /** What a run adds to the transcript is, by turns, what it injects and the turn's reply with its results: so the
      injected messages are where the model sees them, before the next reply. */
  lemma {:induction false} RunWeaves(l: Loop, first: bool, mode: ToolMode, tools: seq<string>, script: seq<Turn>)
    requires ScriptOk(script) && Woven(l)
    ensures
      var r := RunTurns(l, first, mode, tools, script).0;
      r.newMessages == Weave(r.injected, Replies(r.events))
    decreases |script|
  {
    BeginWeaves(l, first);
    if script != [] {
      ScriptTail(script);
      var begun := BeginTurn(l, first);
      var taken := TakeTurn(begun, mode, tools, script[0]);
      TurnWeaves(begun, mode, tools, script[0]);
      CloseWeaves(taken);
      if !EndsRun(script[0].final) {
        var (next, again) := AfterTurn(taken, script[0]);
        PollsOnly(taken, script[0]);
        CloseWeaves(next);
        if again {
          RunWeaves(next, false, mode, tools, script[1..]);
        }
      }
    }
  }
}
