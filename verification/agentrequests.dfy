/** What the model is asked: each request of a run is the transcript so far and the messages injected since. */
module AgentRequests {
  import opened Text
  import opened AgentTypes
  import opened AgentSpec
  import opened AgentPhases
  import opened AgentRuns
  import opened AgentQueues
  import opened AgentWholeRuns

  /** The lists that a run leaves behind: its requests, what it injected before each, the replies with their tool
      results, and the transcripts at the turn ends. The first injection is what the run starts with. */
  datatype Exchange = Exchange(requests: seq<seq<Message>>, injected: seq<Poll>, replies: seq<seq<Message>>,
                               transcripts: seq<Snapshot>)

  ghost function ExchangeOf(l: Loop): Exchange { Exchange(l.requests, l.injected, Replies(l.events), l.snapshots) }

  /** The transcript at the end of turn `k - 1`, or at the start. */
  function TranscriptAt(x: Exchange, start: seq<Message>, k: nat): seq<Message>
    requires k <= |x.transcripts|
  {
    if k == 0 then start else x.transcripts[k - 1].context
  }

  /** Request `k` is the transcript before the turn and the messages injected in it. */
  ghost predicate Asks(x: Exchange, start: seq<Message>, k: nat) {
    && k < |x.requests| && k + 1 < |x.injected| && k <= |x.transcripts|
    && x.requests[k] == TranscriptAt(x, start, k) + x.injected[k + 1].messages
  }

  /** The transcript after turn `k` is its request, the reply, and the reply's tool results. */
  ghost predicate Gets(x: Exchange, k: nat) {
    && k < |x.requests| && k < |x.replies| && k < |x.transcripts|
    && x.transcripts[k].context == x.requests[k] + x.replies[k]
  }

  ghost predicate AllAsk(x: Exchange, start: seq<Message>) {
    forall k: nat {:trigger Asks(x, start, k)} :: k < |x.requests| ==> Asks(x, start, k)
  }

  ghost predicate AllGet(x: Exchange) {
    forall k: nat {:trigger Gets(x, k)} :: k < |x.transcripts| ==> Gets(x, k)
  }

  /** After `n` whole turns. */
  ghost predicate Answered(x: Exchange, start: seq<Message>, context: seq<Message>, n: nat) {
    && |x.requests| == |x.replies| == |x.transcripts| == n && |x.injected| == n + 1
    && context == TranscriptAt(x, start, n) && AllAsk(x, start) && AllGet(x)
  }

  /** In turn `n`, with its reply awaited. */
  ghost predicate Awaiting(x: Exchange, start: seq<Message>, context: seq<Message>, n: nat) {
    && |x.replies| == |x.transcripts| == n && |x.requests| == n + 1 && |x.injected| == n + 2
    && context == x.requests[n] && AllAsk(x, start) && AllGet(x)
  }

  lemma OneMoreRequest(x: Exchange, start: seq<Message>, context: seq<Message>, n: nat, p: Poll)
    requires Answered(x, start, context, n)
    ensures
      var asked := context + p.messages;
      Awaiting(x.(requests := x.requests + [asked], injected := x.injected + [p]), start, asked, n)
  {
    var y := x.(requests := x.requests + [context + p.messages], injected := x.injected + [p]);
    forall k: nat | k < |y.requests|
      ensures Asks(y, start, k)
    {
      assert k < n ==> Asks(x, start, k);
    }
    forall k: nat | k < |y.transcripts|
      ensures Gets(y, k)
    {
      assert Gets(x, k);
    }
  }

  lemma OneMoreReply(x: Exchange, start: seq<Message>, context: seq<Message>, n: nat, reply: seq<Message>, s: Snapshot)
    requires Awaiting(x, start, context, n) && s.context == context + reply
    ensures
      Answered(x.(replies := x.replies + [reply], transcripts := x.transcripts + [s]), start, s.context, n + 1)
  {
    var y := x.(replies := x.replies + [reply], transcripts := x.transcripts + [s]);
    forall k: nat | k < |y.requests|
      ensures Asks(y, start, k)
    {
      assert Asks(x, start, k);
    }
    forall k: nat | k < |y.transcripts|
      ensures Gets(y, k)
    {
      assert k < n ==> Gets(x, k);
    }
  }

  ghost predicate LoopAnswered(l: Loop, start: seq<Message>) {
    Answered(ExchangeOf(l), start, l.context, |l.snapshots|)
  }

  ghost predicate LoopAwaiting(l: Loop, start: seq<Message>) {
    Awaiting(ExchangeOf(l), start, l.context, |l.snapshots|)
  }

  lemma NoNewReplies(events: seq<Event>, more: seq<Event>)
    requires forall k :: 0 <= k < |more| ==> !more[k].TurnEnd?
    ensures Replies(events + more) == Replies(events)
  {
    RepliesConcat(events, more);
    NoReplies(more);
    assert Replies(events) + [] == Replies(events);
  }

  lemma BeginAsks(l: Loop, first: bool, start: seq<Message>)
    requires LoopAnswered(l, start)
    ensures LoopAwaiting(BeginTurn(l, first), start)
  {
    BeginAdds(l, first);
    AnnounceInner(l.pending);
    NoNewReplies(l.events, BeginEvents(l, first));
    OneMoreRequest(ExchangeOf(l), start, l.context, |l.snapshots|, Poll(l.from, l.pending));
  }

  lemma TurnGets(l: Loop, mode: ToolMode, tools: seq<string>, turn: Turn, start: seq<Message>)
    requires LoopAwaiting(l, start) && TurnOk(turn)
    ensures LoopAnswered(TakeTurn(l, mode, tools, turn), start)
  {
    var (events, ended) := TurnEvents(l, mode, tools, turn);
    var taken := TakeTurn(l, mode, tools, turn);
    TurnAdds(l, mode, tools, turn);
    TurnInner(l, mode, tools, turn);
    TurnReplies(l.events, events, turn.final, TurnResults(mode, tools, turn));
    OneMoreReply(ExchangeOf(l), start, l.context, |l.snapshots|, ended, taken.snapshots[|l.snapshots|]);
  }

  lemma CloseAnswered(l: Loop, start: seq<Message>)
    requires LoopAnswered(l, start)
    ensures LoopAnswered(Close(l), start)
  {
    NoNewReplies(l.events, [AgentEnd(l.newMessages)]);
  }

  /** In every run each model request is the transcript at the last turn end and the messages injected since, and the
      transcript at each turn end is the turn's request, its reply and its tool results: the model sees all that came
      before, in order, and nothing else. */
  lemma {:induction false} RunAsks(l: Loop, first: bool, mode: ToolMode, tools: seq<string>, script: seq<Turn>,
                                   start: seq<Message>)
    requires ScriptOk(script) && LoopAnswered(l, start)
    ensures
      var (r, ending) := RunTurns(l, first, mode, tools, script);
      if ending == Thrown then LoopAwaiting(r, start) else LoopAnswered(r, start)
    decreases |script|
  {
    BeginAsks(l, first, start);
    if script != [] {
      ScriptTail(script);
      var begun := BeginTurn(l, first);
      var taken := TakeTurn(begun, mode, tools, script[0]);
      TurnGets(begun, mode, tools, script[0], start);
      CloseAnswered(taken, start);
      if !EndsRun(script[0].final) {
        var (next, again) := AfterTurn(taken, script[0]);
        PollsOnly(taken, script[0]);
        CloseAnswered(next, start);
        if again {
          RunAsks(next, false, mode, tools, script[1..], start);
        }
      }
    }
  }

  /** The same of whole runs, from the transcript and the prompts on. */
  lemma WholeAsks(l: Loop, initial: Arrivals, mode: ToolMode, tools: seq<string>, script: seq<Turn>,
                  start: seq<Message>)
    requires AtStart(l, start) && ScriptOk(script)
    ensures
      var (r, ending) := RunLoop(l, initial, mode, tools, script);
      if ending == Thrown then LoopAwaiting(r, start + l.newMessages) else LoopAnswered(r, start + l.newMessages)
  {
    FirstPoll(l, initial);
    NoReplies(l.events);
    RunAsks(First(l, initial), true, mode, tools, script, start + l.newMessages);
  }
}
