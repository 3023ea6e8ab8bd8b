/** The order of tool results in the two execution modes. */
module AgentOrder {
  import opened Text
  import opened AgentTypes
  import opened AgentSpec

  /** The tools, calls and scripts of a tool phase. */
  datatype Batch = Batch(tools: seq<string>, calls: seq<Block>, scripts: seq<CallScript>)

  ghost predicate BatchOk(b: Batch) { AllCalls(b.calls) }

  predicate IsImmediate(b: Batch, k: nat)
    requires BatchOk(b) && k < |b.calls|
  {
    Prepare(b.tools, b.calls[k], ScriptAt(b.scripts, k)).Immediate?
  }

  /** The result of call `k`, whenever it is given. */
  function Answer(b: Batch, k: nat): Message
    requires BatchOk(b) && k < |b.calls|
  {
    var script := ScriptAt(b.scripts, k);
    ResultOf(b.calls[k], match Prepare(b.tools, b.calls[k], script)
                         case Immediate(outcome) => outcome
                         case Prepared => Finalize(script))
  }

  ghost predicate InBatch(b: Batch, ks: seq<nat>) {
    forall i :: 0 <= i < |ks| ==> ks[i] < |b.calls|
  }

  function Answers(b: Batch, ks: seq<nat>): (r: seq<Message>)
    requires BatchOk(b) && InBatch(b, ks)
    ensures |r| == |ks| && forall i :: 0 <= i < |ks| ==> r[i] == Answer(b, ks[i])
  {
    if ks == [] then [] else Answers(b, ks[..|ks| - 1]) + [Answer(b, ks[|ks| - 1])]
  }

  lemma AnswersAppend(b: Batch, ks: seq<nat>, k: nat)
    requires BatchOk(b) && InBatch(b, ks) && k < |b.calls|
    ensures Answers(b, ks + [k]) == Answers(b, ks) + [Answer(b, k)]
  {
    assert (ks + [k])[..|ks|] == ks;
  }

  function SourceOrder(k: nat): (r: seq<nat>)
    ensures |r| == k && forall i :: 0 <= i < k ==> r[i] == i
  {
    if k == 0 then [] else SourceOrder(k - 1) + [k - 1]
  }

  /** The calls below `k` that are answered while preparing, and the others. */
  function Immediates(b: Batch, k: nat): (r: seq<nat>)
    requires BatchOk(b) && k <= |b.calls|
    ensures InBatch(b, r)
  {
    if k == 0 then []
    else if IsImmediate(b, k - 1) then Immediates(b, k - 1) + [k - 1]
    else Immediates(b, k - 1)
  }

  function PreparedOnes(b: Batch, k: nat): (r: seq<nat>)
    requires BatchOk(b) && k <= |b.calls|
    ensures InBatch(b, r) && forall i :: 0 <= i < |r| ==> r[i] < k
  {
    if k == 0 then []
    else if IsImmediate(b, k - 1) then PreparedOnes(b, k - 1)
    else PreparedOnes(b, k - 1) + [k - 1]
  }

  /** The order of parallel results: immediate outcomes, then prepared calls. */
  function Order(b: Batch, k: nat): (r: seq<nat>)
    requires BatchOk(b) && k <= |b.calls|
    ensures InBatch(b, r)
  {
    Immediates(b, k) + PreparedOnes(b, k)
  }

  // ----- The results -----

  /** Sequential results are the answers in source order. */
  lemma {:induction false} SequentialOrder(b: Batch, k: nat)
    requires BatchOk(b) && k <= |b.calls|
    ensures Sequential(b.tools, b.calls, b.scripts, k).results == Answers(b, SourceOrder(k))
  {
    if k > 0 {
      SequentialOrder(b, k - 1);
      AnswersAppend(b, SourceOrder(k - 1), k - 1);
    }
  }

  ghost predicate RunningAre(b: Batch, running: seq<RunningCall>, ks: seq<nat>)
    requires BatchOk(b) && InBatch(b, ks)
  {
    && |running| == |ks|
    && forall i :: 0 <= i < |ks| ==> running[i] == RunningCall(ks[i], b.calls[ks[i]], ScriptAt(b.scripts, ks[i]))
  }

  lemma RunningAppend(b: Batch, running: seq<RunningCall>, ks: seq<nat>, k: nat)
    requires BatchOk(b) && InBatch(b, ks) && RunningAre(b, running, ks) && k < |b.calls|
    ensures RunningAre(b, running + [RunningCall(k, b.calls[k], ScriptAt(b.scripts, k))], ks + [k])
  {}

  /** One more call: its result if it is immediate, and otherwise one more running call. */
  ghost predicate PreparesOne(b: Batch, p: ToolPhase, q: ToolPhase, k: nat)
    requires BatchOk(b) && k < |b.calls|
  {
    if IsImmediate(b, k) then q.results == p.results + [Answer(b, k)] && q.running == p.running
    else q.results == p.results && q.running == p.running + [RunningCall(k, b.calls[k], ScriptAt(b.scripts, k))]
  }

  lemma PreparingStep(b: Batch, k: nat)
    requires BatchOk(b) && k < |b.calls|
    ensures
      PreparesOne(b, PrepareAll(b.tools, b.calls, b.scripts, k), PrepareAll(b.tools, b.calls, b.scripts, k + 1), k)
  {}

  /** Preparing the first `k` calls gave `p`: the immediate answers, and the other calls running. */
  ghost predicate Prepares(b: Batch, p: ToolPhase, k: nat)
    requires BatchOk(b) && k <= |b.calls|
  {
    p.results == Answers(b, Immediates(b, k)) && RunningAre(b, p.running, PreparedOnes(b, k))
  }

  lemma PreparesNext(b: Batch, p: ToolPhase, q: ToolPhase, k: nat)
    requires BatchOk(b) && k < |b.calls| && Prepares(b, p, k)
    requires PreparesOne(b, p, q, k)
    ensures Prepares(b, q, k + 1)
  {
    if IsImmediate(b, k) {
      AnswersAppend(b, Immediates(b, k), k);
    } else {
      RunningAppend(b, p.running, PreparedOnes(b, k), k);
    }
  }

  lemma PreparingNext(b: Batch, k: nat)
    requires BatchOk(b) && k < |b.calls| && Prepares(b, PrepareAll(b.tools, b.calls, b.scripts, k), k)
    ensures Prepares(b, PrepareAll(b.tools, b.calls, b.scripts, k + 1), k + 1)
  {
    PreparingStep(b, k);
    PreparesNext(b, PrepareAll(b.tools, b.calls, b.scripts, k), PrepareAll(b.tools, b.calls, b.scripts, k + 1), k);
  }

  lemma {:induction false} PreparingOrder(b: Batch, k: nat)
    requires BatchOk(b) && k <= |b.calls|
    ensures Prepares(b, PrepareAll(b.tools, b.calls, b.scripts, k), k)
  {
    if k > 0 {
      PreparingOrder(b, k - 1);
      PreparingNext(b, k - 1);
    }
  }

  ghost predicate NoneImmediate(b: Batch, ks: seq<nat>)
    requires BatchOk(b) && InBatch(b, ks)
  {
    forall i :: 0 <= i < |ks| ==> !IsImmediate(b, ks[i])
  }

  lemma {:induction false} PreparedAreNotImmediate(b: Batch, k: nat)
    requires BatchOk(b) && k <= |b.calls|
    ensures NoneImmediate(b, PreparedOnes(b, k))
  {
    if k > 0 {
      PreparedAreNotImmediate(b, k - 1);
    }
  }

  /** One more running call is awaited. */
  lemma FinishingNext(b: Batch, running: seq<RunningCall>, ks: seq<nat>, n: nat, results: seq<Message>)
    requires BatchOk(b) && InBatch(b, ks) && RunningAre(b, running, ks) && NoneImmediate(b, ks) && n < |ks|
    requires results == Answers(b, ks[..n])
    ensures
      && running[n].call.ToolCall?
      && results + [ResultOf(running[n].call, Finalize(running[n].script))] == Answers(b, ks[..n + 1])
  {
    assert !IsImmediate(b, ks[n]);
    AnswersAppend(b, ks[..n], ks[n]);
    assert ks[..n + 1] == ks[..n] + [ks[n]];
  }

  lemma {:induction false} FinishingOrder(b: Batch, running: seq<RunningCall>, ks: seq<nat>, n: nat)
    requires BatchOk(b) && InBatch(b, ks) && AllRunning(running) && RunningAre(b, running, ks) && NoneImmediate(b, ks)
    requires n <= |ks|
    ensures FinishAll(running, n).1 == Answers(b, ks[..n])
  {
    if n > 0 {
      FinishingOrder(b, running, ks, n - 1);
      FinishingNext(b, running, ks, n - 1, FinishAll(running, n - 1).1);
    }
  }

  lemma AnswersConcat(b: Batch, x: seq<nat>, y: seq<nat>)
    requires BatchOk(b) && InBatch(b, x) && InBatch(b, y)
    ensures Answers(b, x + y) == Answers(b, x) + Answers(b, y)
  {
    var all := Answers(b, x + y);
    forall i | 0 <= i < |all|
      ensures all[i] == (Answers(b, x) + Answers(b, y))[i]
    {
      assert all[i] == Answer(b, (x + y)[i]);
    }
  }

  /** Parallel results are the answers of the immediate outcomes and then those of the prepared calls, each in source
      order. */
  lemma ParallelOrder(b: Batch)
    requires BatchOk(b)
    ensures Parallel(b.tools, b.calls, b.scripts).results == Answers(b, Order(b, |b.calls|))
  {
    var n := |b.calls|;
    var prepared := PrepareAll(b.tools, b.calls, b.scripts, n);
    PreparingOrder(b, n);
    var ks := PreparedOnes(b, n);
    PreparedAreNotImmediate(b, n);
    FinishingOrder(b, prepared.running, ks, |ks|);
    assert ks[..|ks|] == ks;
    AnswersConcat(b, Immediates(b, n), ks);
  }

  // ----- The order -----

  /** The indices of two lists are, each as often, those of a third. */
  ghost predicate Splits(source: seq<nat>, a: seq<nat>, b: seq<nat>) {
    forall i {:trigger Times(source, i)} :: Times(source, i) == Times(a, i) + Times(b, i)
  }

  function Times(s: seq<nat>, i: nat): nat { multiset(s)[i] }

  lemma OneMoreIndex(a: seq<nat>, b: seq<nat>, source: seq<nat>, k: nat)
    requires Splits(source, a, b)
    ensures Splits(source + [k], a + [k], b) && Splits(source + [k], a, b + [k])
  {
    forall i: nat
      ensures Times(source + [k], i) == Times(a + [k], i) + Times(b, i) == Times(a, i) + Times(b + [k], i)
    {
      assert Times(source, i) == Times(a, i) + Times(b, i);
    }
  }

  lemma {:induction false} EachIndexOnce(b: Batch, k: nat)
    requires BatchOk(b) && k <= |b.calls|
    ensures Splits(SourceOrder(k), Immediates(b, k), PreparedOnes(b, k))
  {
    if k > 0 {
      EachIndexOnce(b, k - 1);
      OneMoreIndex(Immediates(b, k - 1), PreparedOnes(b, k - 1), SourceOrder(k - 1), k - 1);
    }
  }

  lemma SplitsConcat(source: seq<nat>, a: seq<nat>, b: seq<nat>)
    requires Splits(source, a, b)
    ensures multiset(a + b) == multiset(source)
  {
    forall i: nat
      ensures multiset(a + b)[i] == multiset(source)[i]
    {
      assert Times(source, i) == Times(a, i) + Times(b, i);
    }
  }

  /** Every call is answered exactly once. */
  lemma OrderIsPermutation(b: Batch, k: nat)
    requires BatchOk(b) && k <= |b.calls|
    ensures multiset(Order(b, k)) == multiset(SourceOrder(k))
  {
    EachIndexOnce(b, k);
    SplitsConcat(SourceOrder(k), Immediates(b, k), PreparedOnes(b, k));
  }

  /** No immediate outcome follows a prepared call. */
  ghost predicate Straight(b: Batch, k: nat)
    requires BatchOk(b) && k <= |b.calls|
  {
    forall i, j :: 0 <= i < j < k && IsImmediate(b, j) ==> IsImmediate(b, i)
  }

  lemma {:induction false} NonePrepared(b: Batch, k: nat)
    requires BatchOk(b) && k <= |b.calls|
    ensures PreparedOnes(b, k) == [] <==> forall i :: 0 <= i < k ==> IsImmediate(b, i)
  {
    if k > 0 {
      NonePrepared(b, k - 1);
    }
  }

  lemma OrderGrows(b: Batch, k: nat)
    requires BatchOk(b) && 0 < k <= |b.calls| && (IsImmediate(b, k - 1) ==> PreparedOnes(b, k - 1) == [])
    ensures Order(b, k) == Order(b, k - 1) + [k - 1]
  {
    if IsImmediate(b, k - 1) {
      assert Immediates(b, k - 1) + [k - 1] + [] == Immediates(b, k - 1) + [] + [k - 1];
    } else {
      assert Immediates(b, k) + (PreparedOnes(b, k - 1) + [k - 1])
             == Immediates(b, k) + PreparedOnes(b, k - 1) + [k - 1];
    }
  }

  lemma OrderBreaks(b: Batch, k: nat)
    requires BatchOk(b) && 0 < k <= |b.calls| && IsImmediate(b, k - 1) && PreparedOnes(b, k - 1) != []
    ensures Order(b, k) != SourceOrder(k)
  {
    var order, prepared := Order(b, k), PreparedOnes(b, k - 1);
    assert order[|order| - 1] == prepared[|prepared| - 1] < k - 1;
    assert SourceOrder(k)[k - 1] == k - 1;
  }

  lemma SameButLast<T>(a: seq<T>, b: seq<T>, x: T)
    ensures a + [x] == b + [x] <==> a == b
  {
    if a + [x] == b + [x] {
      assert a == (a + [x])[..|a + [x]| - 1] == (b + [x])[..|b + [x]| - 1] == b;
    }
  }

  lemma StraightGrows(b: Batch, k: nat)
    requires BatchOk(b) && 0 < k <= |b.calls|
    ensures
      Straight(b, k) <==> Straight(b, k - 1) && (IsImmediate(b, k - 1) ==> PreparedOnes(b, k - 1) == [])
  {
    NonePrepared(b, k - 1);
  }

  lemma OrderStep(b: Batch, k: nat)
    requires BatchOk(b) && 0 < k <= |b.calls|
    ensures
      Order(b, k) == SourceOrder(k)
      <==> Order(b, k - 1) == SourceOrder(k - 1) && (IsImmediate(b, k - 1) ==> PreparedOnes(b, k - 1) == [])
  {
    if IsImmediate(b, k - 1) && PreparedOnes(b, k - 1) != [] {
      OrderBreaks(b, k);
    } else {
      OrderGrows(b, k);
      SameButLast(Order(b, k - 1), SourceOrder(k - 1), k - 1);
    }
  }

  /** Parallel results are in source order exactly when no immediate outcome follows a prepared call. */
  lemma {:induction false} InOrderIffStraight(b: Batch, k: nat)
    requires BatchOk(b) && k <= |b.calls|
    ensures Order(b, k) == SourceOrder(k) <==> Straight(b, k)
  {
    if k > 0 {
      InOrderIffStraight(b, k - 1);
      OrderStep(b, k);
      StraightGrows(b, k);
    }
  }

  ghost predicate DistinctIds(calls: seq<Block>)
    requires AllCalls(calls)
  {
    forall i, j :: 0 <= i < j < |calls| ==> calls[i].id != calls[j].id
  }

  /** With distinct call ids, both modes give the same results exactly when no immediate outcome follows a prepared
      call. */
  lemma ModesAgreeIffStraight(b: Batch)
    requires BatchOk(b)
    ensures
      var sequential := Sequential(b.tools, b.calls, b.scripts, |b.calls|).results;
      var parallel := Parallel(b.tools, b.calls, b.scripts).results;
      && (Straight(b, |b.calls|) ==> parallel == sequential)
      && (DistinctIds(b.calls) && parallel == sequential ==> Straight(b, |b.calls|))
  {
    var n := |b.calls|;
    SequentialOrder(b, n);
    ParallelOrder(b);
    InOrderIffStraight(b, n);
    if DistinctIds(b.calls) && Answers(b, Order(b, n)) == Answers(b, SourceOrder(n)) {
      SameAnswers(b, Order(b, n), SourceOrder(n));
    }
  }

  lemma SameAnswers(b: Batch, x: seq<nat>, y: seq<nat>)
    requires BatchOk(b) && InBatch(b, x) && InBatch(b, y) && DistinctIds(b.calls) && Answers(b, x) == Answers(b, y)
    ensures x == y
  {
    assert |x| == |Answers(b, x)| == |y|;
    forall i | 0 <= i < |x|
      ensures x[i] == y[i]
    {
      assert Answer(b, x[i]) == Answers(b, x)[i] == Answers(b, y)[i] == Answer(b, y[i]);
    }
  }

  // ----- A batch out of order -----

  /** A call of a known tool, and then one of an unknown tool. */
  function KnownThenUnknown(known: string, unknown: string, first: string, second: string): Batch {
    Batch([known], [ToolCall(first, known, "{}"), ToolCall(second, unknown, "{}")], [])
  }

  lemma UnknownIsImmediate(b: Batch, known: string, unknown: string, first: string, second: string)
    requires b == KnownThenUnknown(known, unknown, first, second) && known != unknown
    ensures BatchOk(b) && !IsImmediate(b, 0) && IsImmediate(b, 1)
  {
    assert known in b.tools;
  }

  /** Its parallel results come in the other order. */
  lemma UnknownToolComesFirst(known: string, unknown: string, first: string, second: string)
    requires known != unknown
    ensures
      var b := KnownThenUnknown(known, unknown, first, second);
      var results := Parallel(b.tools, b.calls, b.scripts).results;
      |results| == 2 && results[0].ToolResult? && results[0].toolCallId == second
      && results[1].ToolResult? && results[1].toolCallId == first
  {
    var b := KnownThenUnknown(known, unknown, first, second);
    UnknownIsImmediate(b, known, unknown, first, second);
    ReversedOrder(b);
    ParallelOrder(b);
  }

  lemma ReversedOrder(b: Batch)
    requires BatchOk(b) && |b.calls| == 2 && !IsImmediate(b, 0) && IsImmediate(b, 1)
    ensures Order(b, 2) == [1, 0]
  {
    assert Immediates(b, 0) == [] && PreparedOnes(b, 0) == [];
    assert Immediates(b, 1) == Immediates(b, 0) && PreparedOnes(b, 1) == PreparedOnes(b, 0) + [0];
    assert Immediates(b, 2) == [1] && PreparedOnes(b, 2) == [0];
  }
}
