/** The conversation that the model sees: every tool call is answered before anything else is said. */
module AgentConversation {
  import opened Text
  import opened AgentTypes
  import opened AgentSpec
  import opened AgentPhases
  import opened AgentRuns

  /** The tool calls not yet answered, or a conversation out of order. */
  datatype Debt = Debt(owed: multiset<string>) | Broken

  const CLEAR := Debt(multiset{})

  function Owe(d: Debt, m: Message): Debt {
    if d == Broken then Broken
    else if m.ToolResult? then (if m.toolCallId in d.owed then Debt(d.owed - multiset{m.toolCallId}) else Broken)
    else if d.owed != multiset{} then Broken
    else Debt(Ids(CallsOf(m)))
  }

  function OweAll(d: Debt, ms: seq<Message>): Debt {
    if ms == [] then d else Owe(OweAll(d, ms[..|ms| - 1]), ms[|ms| - 1])
  }

  /** Every tool call is answered before any other message. */
  predicate WellFormed(ms: seq<Message>) { OweAll(CLEAR, ms) == CLEAR }

  lemma {:induction false} OweConcat(d: Debt, a: seq<Message>, b: seq<Message>)
    ensures OweAll(d, a + b) == OweAll(OweAll(d, a), b)
    decreases |b|
  {
    if b == [] {
      assert a + b == a;
    } else {
      OweConcat(d, a, b[..|b| - 1]);
      assert (a + b)[..|a + b| - 1] == a + b[..|b| - 1];
    }
  }

  lemma OneLess(owed: multiset<string>, answered: multiset<string>, id: string)
    requires answered + multiset{id} <= owed
    ensures answered <= owed && id in owed - answered
    ensures owed - answered - multiset{id} == owed - (answered + multiset{id})
  {
    assert (answered + multiset{id})[id] <= owed[id];
  }

  lemma {:induction false} OweResults(owed: multiset<string>, results: seq<Message>)
    requires AllResults(results) && ToolIds(results) <= owed
    ensures OweAll(Debt(owed), results) == Debt(owed - ToolIds(results))
    decreases |results|
  {
    if results == [] {
      assert owed - multiset{} == owed;
    } else {
      var before, last := results[..|results| - 1], results[|results| - 1];
      assert before + [last] == results;
      ResultIdsAppend(before, last);
      OneLess(owed, ToolIds(before), last.toolCallId);
      OweResults(owed, before);
      OweOne(owed - ToolIds(before), last);
    }
  }

  lemma OweOne(owed: multiset<string>, m: Message)
    requires m.ToolResult? && m.toolCallId in owed
    ensures Owe(Debt(owed), m) == Debt(owed - multiset{m.toolCallId})
  {}

  /** A message that leaves nothing to answer: what prompts and queued messages are. */
  predicate PlainMessage(m: Message) { !m.ToolResult? && CallsOf(m) == [] }

  ghost predicate AllPlain(ms: seq<Message>) {
    forall k :: 0 <= k < |ms| ==> PlainMessage(ms[k])
  }

  lemma {:induction false} OwePlain(ms: seq<Message>)
    requires AllPlain(ms)
    ensures OweAll(CLEAR, ms) == CLEAR
    decreases |ms|
  {
    if ms != [] {
      OwePlain(ms[..|ms| - 1]);
      assert Ids([]) == multiset{};
    }
  }

  // ----- What well-formed means -----

  lemma {:induction false} BrokenStays(d: Debt, ms: seq<Message>, k: nat)
    requires k <= |ms| && OweAll(d, ms[..k]) == Broken
    ensures OweAll(d, ms) == Broken
    decreases |ms| - k
  {
    if k == |ms| {
      assert ms[..k] == ms;
    } else {
      assert ms[..k + 1][..k] == ms[..k];
      BrokenStays(d, ms, k + 1);
    }
  }

  lemma OneMore(ms: seq<Message>, k: nat)
    requires k < |ms|
    ensures OweAll(CLEAR, ms[..k + 1]) == Owe(OweAll(CLEAR, ms[..k]), ms[k])
  {
    assert ms[..k + 1][..k] == ms[..k];
  }

  lemma NotBrokenAt(ms: seq<Message>, k: nat)
    requires WellFormed(ms) && k <= |ms|
    ensures OweAll(CLEAR, ms[..k]) != Broken
    ensures k == |ms| ==> OweAll(CLEAR, ms[..k]) == CLEAR
  {
    if OweAll(CLEAR, ms[..k]) == Broken {
      BrokenStays(CLEAR, ms, k);
    }
    if k == |ms| {
      assert ms[..k] == ms;
    }
  }

  /** While calls are owed, the next message answers one of them. */
  lemma NextAnswers(ms: seq<Message>, k: nat, owed: multiset<string>)
    requires WellFormed(ms) && k <= |ms| && OweAll(CLEAR, ms[..k]) == Debt(owed) && owed != multiset{}
    ensures k < |ms| && ms[k].ToolResult? && ms[k].toolCallId in owed
    ensures OweAll(CLEAR, ms[..k + 1]) == Debt(owed - multiset{ms[k].toolCallId})
  {
    NotBrokenAt(ms, k);
    OneMore(ms, k);
    NotBrokenAt(ms, k + 1);
  }

  lemma MoveOne(owed: multiset<string>, id: string)
    requires id in owed
    ensures multiset{id} + (owed - multiset{id}) == owed
  {}

  /** When nothing is owed, the next message is no tool result. */
  lemma NothingToAnswer(ms: seq<Message>, k: nat)
    requires WellFormed(ms) && k < |ms| && OweAll(CLEAR, ms[..k]) == CLEAR
    ensures !ms[k].ToolResult?
  {
    NotBrokenAt(ms, k + 1);
    OneMore(ms, k);
  }

  lemma OneResult(m: Message, results: seq<Message>)
    requires m.ToolResult?
    ensures ToolIds([m] + results) == multiset{m.toolCallId} + ToolIds(results)
  {
    ResultIdsAppend([], m);
    assert [] + [m] == [m];
    assert ToolIds([]) == multiset{};
    ToolIdsConcat([m], results);
  }

  lemma SliceCons<T>(s: seq<T>, i: nat, j: nat)
    requires i < j <= |s|
    ensures s[i..j] == [s[i]] + s[i + 1..j]
  {}

  /** What is owed before message `i` is answered from there on, up to the first message that answers nothing. */
  lemma {:induction false} AnsweredFrom(ms: seq<Message>, i: nat, owed: multiset<string>) returns (j: nat)
    requires WellFormed(ms) && i <= |ms| && OweAll(CLEAR, ms[..i]) == Debt(owed)
    ensures i <= j <= |ms| && AllResults(ms[i..j]) && ToolIds(ms[i..j]) == owed
    ensures j < |ms| ==> !ms[j].ToolResult?
    decreases |ms| - i
  {
    if owed == multiset{} {
      j := i;
      assert ms[i..j] == [];
      if j < |ms| {
        NothingToAnswer(ms, j);
      }
    } else {
      NextAnswers(ms, i, owed);
      var m := ms[i];
      j := AnsweredFrom(ms, i + 1, owed - multiset{m.toolCallId});
      AnsweredOneMore(ms, i, j, owed);
    }
  }

  lemma AnsweredOneMore(ms: seq<Message>, i: nat, j: nat, owed: multiset<string>)
    requires i < j <= |ms| && ms[i].ToolResult? && ms[i].toolCallId in owed
    requires AllResults(ms[i + 1..j]) && ToolIds(ms[i + 1..j]) == owed - multiset{ms[i].toolCallId}
    ensures AllResults(ms[i..j]) && ToolIds(ms[i..j]) == owed
  {
    SliceCons(ms, i, j);
    OneResult(ms[i], ms[i + 1..j]);
    MoveOne(owed, ms[i].toolCallId);
  }

  lemma {:induction false} AsManyIds(results: seq<Message>)
    requires AllResults(results)
    ensures |ResultIds(results)| == |results|
    decreases |results|
  {
    if results != [] {
      AsManyIds(results[..|results| - 1]);
    }
  }

  lemma SameLength(a: seq<string>, b: seq<string>)
    requires multiset(a) == multiset(b)
    ensures |a| == |b|
  {
    assert |multiset(a)| == |a| && |multiset(b)| == |b|;
  }

  /** The next `n` messages answer exactly the ids, and the message after them answers nothing. */
  ghost predicate AnsweredNext(ms: seq<Message>, i: nat, ids: seq<string>) {
    && i + |ids| <= |ms|
    && AllResults(ms[i..i + |ids|])
    && multiset(ResultIds(ms[i..i + |ids|])) == multiset(ids)
    && (i + |ids| < |ms| ==> !ms[i + |ids|].ToolResult?)
  }

  lemma AnsweredExactly(ms: seq<Message>, i: nat, j: nat, ids: seq<string>)
    requires i <= j <= |ms| && AllResults(ms[i..j]) && ToolIds(ms[i..j]) == multiset(ids)
    requires j < |ms| ==> !ms[j].ToolResult?
    ensures AnsweredNext(ms, i, ids)
  {
    AsManyIds(ms[i..j]);
    SameLength(ResultIds(ms[i..j]), ids);
  }

  /** In a well-formed conversation each assistant message is followed, before any other message, by tool results whose
      ids are a permutation of its call ids. */
  lemma EachCallAnswered(ms: seq<Message>, i: nat)
    requires WellFormed(ms) && i < |ms| && ms[i].Assistant?
    ensures AnsweredNext(ms, i + 1, CallIds(CallsOf(ms[i])))
  {
    var calls := CallsOf(ms[i]);
    NotBrokenAt(ms, i);
    OneMore(ms, i);
    NotBrokenAt(ms, i + 1);
    var j := AnsweredFrom(ms, i + 1, Ids(calls));
    AnsweredExactly(ms, i + 1, j, CallIds(calls));
  }

  // ----- Every run -----

  ghost predicate PlainQueues(l: Loop) {
    AllPlain(l.pending) && AllPlain(l.steering.messages) && AllPlain(l.followUp.messages)
  }

  ghost predicate PlainArrivals(a: Arrivals) { AllPlain(a.steering) && AllPlain(a.followUp) }

  predicate PlainScriptAt(script: seq<Turn>, k: nat)
    requires k < |script|
  {
    && (forall j | 0 <= j < |script[k].beforeSteering.steering| :: PlainMessage(script[k].beforeSteering.steering[j]))
    && (forall j | 0 <= j < |script[k].beforeSteering.followUp| :: PlainMessage(script[k].beforeSteering.followUp[j]))
    && (forall j | 0 <= j < |script[k].beforeFollowUp.steering| :: PlainMessage(script[k].beforeFollowUp.steering[j]))
    && (forall j | 0 <= j < |script[k].beforeFollowUp.followUp| :: PlainMessage(script[k].beforeFollowUp.followUp[j]))
  }

  ghost predicate PlainScript(script: seq<Turn>) {
    forall k {:trigger PlainScriptAt(script, k)} :: 0 <= k < |script| ==> PlainScriptAt(script, k)
  }

  lemma PlainScriptStep(script: seq<Turn>)
    requires script != [] && PlainScript(script)
    ensures PlainArrivals(script[0].beforeSteering) && PlainArrivals(script[0].beforeFollowUp)
    ensures PlainScript(script[1..])
  {
    assert PlainScriptAt(script, 0);
    forall k | 0 <= k < |script| - 1
      ensures PlainScriptAt(script[1..], k)
    {
      assert PlainScriptAt(script, k + 1);
    }
  }

  ghost predicate RequestsOk(requests: seq<seq<Message>>) {
    forall k :: 0 <= k < |requests| ==> WellFormed(requests[k])
  }

  ghost predicate TalkOk(l: Loop) { WellFormed(l.context) && PlainQueues(l) && RequestsOk(l.requests) }

  lemma ArriveTalk(l: Loop, a: Arrivals)
    requires TalkOk(l) && PlainArrivals(a)
    ensures TalkOk(Arrive(l, a))
  {}

  lemma PollTalk(l: Loop)
    requires TalkOk(l)
    ensures TalkOk(PollSteering(l)) && TalkOk(PollFollowUp(l))
  {}

  lemma AfterTurnTalk(l: Loop, turn: Turn)
    requires TalkOk(l) && PlainArrivals(turn.beforeSteering) && PlainArrivals(turn.beforeFollowUp)
    ensures TalkOk(AfterTurn(l, turn).0)
  {
    ArriveTalk(l, turn.beforeSteering);
    PollTalk(Arrive(l, turn.beforeSteering));
    var polled := PollSteering(Arrive(l, turn.beforeSteering));
    ArriveTalk(polled, turn.beforeFollowUp);
    PollTalk(Arrive(polled, turn.beforeFollowUp));
  }

  lemma BeginTalk(l: Loop, first: bool)
    requires TalkOk(l)
    ensures TalkOk(BeginTurn(l, first))
  {
    BeginAdds(l, first);
    OwePlain(l.pending);
    OweConcat(CLEAR, l.context, l.pending);
  }

  lemma OweReply(context: seq<Message>, final: Message, results: seq<Message>)
    requires WellFormed(context) && final.Assistant?
    ensures OweAll(CLEAR, context + ([final] + results)) == OweAll(Debt(Ids(CallsOf(final))), results)
  {
    OweConcat(CLEAR, context, [final] + results);
    OweConcat(CLEAR, [final], results);
    assert [final][..0] == [];
    assert OweAll(CLEAR, [final]) == Owe(CLEAR, final);
  }

  lemma AnsweredReply(context: seq<Message>, final: Message, results: seq<Message>)
    requires WellFormed(context) && final.Assistant?
    requires AllResults(results) && ToolIds(results) == Ids(CallsOf(final))
    ensures WellFormed(context + ([final] + results))
  {
    var ids := Ids(CallsOf(final));
    OweReply(context, final, results);
    OweResults(ids, results);
    assert ids - ids == multiset{};
  }

  lemma UnansweredReply(context: seq<Message>, final: Message)
    requires WellFormed(context) && final.Assistant?
    ensures WellFormed(context + ([final] + [])) <==> CallIds(CallsOf(final)) == []
  {
    OweReply(context, final, []);
    EmptyIds(CallIds(CallsOf(final)));
  }

  /** A turn that is not cut short answers its calls; one that ends the run leaves them unanswered. */
  lemma TurnTalk(l: Loop, mode: ToolMode, tools: seq<string>, turn: Turn)
    requires TalkOk(l) && TurnOk(turn)
    ensures
      var r := TakeTurn(l, mode, tools, turn);
      && (WellFormed(r.context) <==> !EndsRun(turn.final) || CallIds(CallsOf(turn.final)) == [])
      && PlainQueues(r) && RequestsOk(r.requests)
  {
    TurnAdds(l, mode, tools, turn);
    TurnInner(l, mode, tools, turn);
    if EndsRun(turn.final) {
      UnansweredReply(l.context, turn.final);
    } else {
      ToolPhaseInner(mode, tools, CallsOf(turn.final), turn.calls);
      AnsweredReply(l.context, turn.final, TurnResults(mode, tools, turn));
    }
  }

  lemma EmptyIds(ids: seq<string>)
    ensures multiset(ids) == multiset{} <==> ids == []
  {
    if ids != [] {
      assert ids[0] in multiset(ids);
    }
  }

  /** The run's last message is a failed or aborted reply, and the conversation is well-formed just if it has no
      calls. */
  ghost predicate LastReplyDecides(r: Loop) {
    && r.newMessages != []
    && var last := r.newMessages[|r.newMessages| - 1];
    && EndsRun(last)
    && (WellFormed(r.context) <==> CallIds(CallsOf(last)) == [])
  }

  lemma FailedTalk(l: Loop, mode: ToolMode, tools: seq<string>, turn: Turn)
    requires TalkOk(l) && TurnOk(turn) && EndsRun(turn.final)
    ensures TalkEnds(Close(TakeTurn(l, mode, tools, turn)), Failed)
  {
    TurnTalk(l, mode, tools, turn);
    TurnAdds(l, mode, tools, turn);
    TurnInner(l, mode, tools, turn);
  }

  /** A run keeps its requests well-formed, leaves only plain messages queued, and leaves a well-formed conversation
      or a last reply that decides. */
  ghost predicate TalkEnds(r: Loop, ending: Ending) {
    && RequestsOk(r.requests)
    && AllPlain(r.steering.messages) && AllPlain(r.followUp.messages)
    && (ending != Failed ==> WellFormed(r.context))
    && (ending == Failed ==> LastReplyDecides(r))
  }

  lemma ClosedTalk(l: Loop)
    requires TalkOk(l)
    ensures TalkEnds(Close(l), Completed) && TalkEnds(l, Thrown)
  {}

  /** From a well-formed conversation and plain messages, every model request of every run is well-formed. The run
      leaves a well-formed conversation too, unless its last reply failed or was aborted with calls in it. */
  lemma {:induction false} RunTalk(l: Loop, first: bool, mode: ToolMode, tools: seq<string>, script: seq<Turn>)
    requires ScriptOk(script) && PlainScript(script) && TalkOk(l)
    ensures
      var (r, ending) := RunTurns(l, first, mode, tools, script);
      TalkEnds(r, ending)
    decreases |script|
  {
    BeginTalk(l, first);
    var begun := BeginTurn(l, first);
    ClosedTalk(begun);
    if script != [] {
      ScriptTail(script);
      PlainScriptStep(script);
      var taken := TakeTurn(begun, mode, tools, script[0]);
      TurnTalk(begun, mode, tools, script[0]);
      if EndsRun(script[0].final) {
        FailedTalk(begun, mode, tools, script[0]);
      } else {
        AfterTurnTalk(taken, script[0]);
        var (next, again) := AfterTurn(taken, script[0]);
        ClosedTalk(next);
        if again {
          RunTalk(next, false, mode, tools, script[1..]);
        }
      }
    }
  }

  // ----- A reply that breaks the conversation -----

  /** A failed reply with a tool call in it breaks every well-formed conversation that it ends. */
  lemma FailedCallBreaks(context: seq<Message>, id: string, name: string, arguments: string)
    requires WellFormed(context)
    ensures
      var final := Assistant([ToolCall(id, name, arguments)], ErrorStop, None);
      EndsRun(final) && !WellFormed(context + [final])
  {
    var call := ToolCall(id, name, arguments);
    var final := Assistant([call], ErrorStop, None);
    UnansweredReply(context, final);
    assert [call][..0] == [];
    assert Calls([]) == [] && CallIds([]) == [];
    assert Calls([call]) == [] + [call] == [call];
    assert CallIds([call]) == [] + [id];
    assert [final] + [] == [final];
  }
}
