/** How many turns a run takes, and why it ends. */
module AgentBounds {
  import opened Text
  import opened AgentTypes
  import opened AgentSpec
  import opened AgentPhases
  import opened AgentRuns
  import opened AgentQueues

  function TurnStarts(events: seq<Event>): nat {
    if events == [] then 0
    else TurnStarts(events[..|events| - 1]) + if events[|events| - 1].TurnStart? then 1 else 0
  }

  predicate EndsWithCalls(e: Event) { e.TurnEnd? && CallsOf(e.message) != [] }

  /** The turns whose reply contains tool calls. */
  function CallTurns(events: seq<Event>): nat {
    if events == [] then 0
    else CallTurns(events[..|events| - 1]) + if EndsWithCalls(events[|events| - 1]) then 1 else 0
  }

  function Drained(polls: seq<Poll>): nat {
    if polls == [] then 0 else Drained(polls[..|polls| - 1]) + |polls[|polls| - 1].messages|
  }

  lemma DrainedAppend(polls: seq<Poll>, p: Poll)
    ensures Drained(polls + [p]) == Drained(polls) + |p.messages|
  {
    assert (polls + [p])[..|polls|] == polls;
  }

  lemma {:induction false} TurnsConcat(a: seq<Event>, b: seq<Event>)
    ensures TurnStarts(a + b) == TurnStarts(a) + TurnStarts(b) && CallTurns(a + b) == CallTurns(a) + CallTurns(b)
    decreases |b|
  {
    if b == [] {
      assert a + b == a;
    } else {
      TurnsConcat(a, b[..|b| - 1]);
      assert (a + b)[..|a + b| - 1] == a + b[..|b| - 1];
    }
  }

  lemma {:induction false} NoTurns(events: seq<Event>)
    requires forall k :: 0 <= k < |events| ==> !events[k].TurnStart? && !events[k].TurnEnd?
    ensures TurnStarts(events) == 0 && CallTurns(events) == 0
    decreases |events|
  {
    if events != [] {
      NoTurns(events[..|events| - 1]);
    }
  }

  lemma TurnsAppend(events: seq<Event>, e: Event)
    ensures TurnStarts(events + [e]) == TurnStarts(events) + if e.TurnStart? then 1 else 0
    ensures CallTurns(events + [e]) == CallTurns(events) + if EndsWithCalls(e) then 1 else 0
  {
    assert (events + [e])[..|events|] == events;
  }

  /** The turns started, and the one that starts next. */
  function WithNext(l: Loop, first: bool): nat { TurnStarts(l.events) + if first then 0 else 1 }

  /** Every turn after the first has a reply with tool calls or a drained message to account for it. */
  ghost predicate Bounded(l: Loop, first: bool) {
    WithNext(l, first) <= 1 + CallTurns(l.events) + Drained(l.polls)
  }

  lemma BeginTurns(l: Loop, first: bool)
    ensures
      var begun := BeginTurn(l, first);
      TurnStarts(begun.events) == WithNext(l, first) && CallTurns(begun.events) == CallTurns(l.events)
      && begun.polls == l.polls
  {
    AnnounceInner(l.pending);
    NoTurns(Announce(l.pending));
    TurnsAppend(l.events, TurnStart);
    TurnsConcat(if first then l.events else l.events + [TurnStart], Announce(l.pending));
  }

  lemma TurnTurns(l: Loop, mode: ToolMode, tools: seq<string>, turn: Turn)
    requires TurnOk(turn)
    ensures
      var taken := TakeTurn(l, mode, tools, turn);
      && TurnStarts(taken.events) == TurnStarts(l.events)
      && CallTurns(taken.events) == CallTurns(l.events) + (if CallsOf(turn.final) != [] then 1 else 0)
      && taken.polls == l.polls
  {
    var events := TurnEvents(l, mode, tools, turn).0;
    TurnAdds(l, mode, tools, turn);
    TurnInner(l, mode, tools, turn);
    NoTurns(events);
    TurnsConcat(l.events, events);
    TurnsAppend(l.events + events, TurnEnd(turn.final, TurnResults(mode, tools, turn)));
  }

  lemma PollsDrained(l: Loop, turn: Turn)
    ensures
      var (next, again) := AfterTurn(l, turn);
      && Drained(next.polls) >= Drained(l.polls)
      && (again ==> CallsOf(turn.final) != [] || Drained(next.polls) > Drained(l.polls))
  {
    var arrived := Arrive(l, turn.beforeSteering);
    var polled := PollSteering(arrived);
    var again := Arrive(polled, turn.beforeFollowUp);
    DrainedAppend(l.polls, Poll(Steering, Drain(arrived.steering).0));
    DrainedAppend(polled.polls, Poll(FollowUp, Drain(again.followUp).0));
  }

  /** The turns of a run are at most one more than its replies with tool calls and the messages drained from the
      queues. */
  lemma {:induction false} RunIsBounded(l: Loop, first: bool, mode: ToolMode, tools: seq<string>, script: seq<Turn>)
    requires ScriptOk(script) && Bounded(l, first)
    ensures
      var r := RunTurns(l, first, mode, tools, script).0;
      TurnStarts(r.events) <= 1 + CallTurns(r.events) + Drained(r.polls)
    decreases |script|
  {
    BeginTurns(l, first);
    if script != [] {
      ScriptTail(script);
      var begun := BeginTurn(l, first);
      var taken := TakeTurn(begun, mode, tools, script[0]);
      TurnTurns(begun, mode, tools, script[0]);
      TurnsAppend(taken.events, AgentEnd(taken.newMessages));
      if !EndsRun(script[0].final) {
        var (next, again) := AfterTurn(taken, script[0]);
        PollsDrained(taken, script[0]);
        PollsOnly(taken, script[0]);
        if again {
          RunIsBounded(next, false, mode, tools, script[1..]);
        }
      }
    }
  }

  // ----- Termination -----

  /** The replies with tool calls that the environment has to give, and the messages it has to enqueue. */
  function Fuel(script: seq<Turn>): nat {
    if script == [] then 0 else FuelOf(script[0]) + Fuel(script[1..])
  }

  function FuelOf(turn: Turn): nat {
    (if CallsOf(turn.final) != [] then 1 else 0)
    + |turn.beforeSteering.steering| + |turn.beforeSteering.followUp|
    + |turn.beforeFollowUp.steering| + |turn.beforeFollowUp.followUp|
  }

  /** What can still keep the loop going. */
  function Measure(l: Loop, script: seq<Turn>): nat {
    |l.steering.messages| + |l.followUp.messages| + Fuel(script)
  }

  lemma AfterTurnDecreases(l: Loop, turn: Turn)
    ensures
      var (next, again) := AfterTurn(l, turn);
      again ==>
        |next.steering.messages| + |next.followUp.messages|
        < |l.steering.messages| + |l.followUp.messages| + FuelOf(turn)
  {
    var arrived := Arrive(l, turn.beforeSteering);
    var polled := PollSteering(arrived);
    DrainSplits(arrived.steering);
    DrainSplits(Arrive(polled, turn.beforeFollowUp).followUp);
  }

  /** Every turn after the first uses up some of the measure: so a run gets by with one reply more than there are
      replies with tool calls and messages to drain, and ends of itself. */
  lemma {:induction false} RunEnds(l: Loop, first: bool, mode: ToolMode, tools: seq<string>, script: seq<Turn>)
    requires Measure(l, script) < |script|
    ensures RunTurns(l, first, mode, tools, script).1 != Thrown
    decreases |script|
  {
    var taken := TakeTurn(BeginTurn(l, first), mode, tools, script[0]);
    TurnOnly(l, first, mode, tools, script[0]);
    if !EndsRun(script[0].final) {
      var (next, again) := AfterTurn(taken, script[0]);
      AfterTurnDecreases(taken, script[0]);
      if again {
        RunEnds(next, false, mode, tools, script[1..]);
      }
    }
  }
}
