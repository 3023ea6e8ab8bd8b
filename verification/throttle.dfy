/** When the updater sends: what a push needs to send at once, over every history and every clock. */
module Throttling {
  import opened Text
  import opened StreamingMerge
  import opened StreamUpdating

  /** The time at which a history last sent a text, or 0. */
  function LastSendTime(o: Options, startAt: int, ops: seq<Op>): int {
    if ops == [] then 0
    else
      var before := ops[..|ops| - 1];
      if |Run(o, startAt, ops).sent| > |Run(o, startAt, before).sent| then ops[|ops| - 1].sentAt
      else LastSendTime(o, startAt, before)
  }

  /** The text last sent, or nothing. */
  function LastSent(sent: seq<string>): string { if sent == [] then "" else sent[|sent| - 1] }

  lemma {:induction false} LastSendTimeIs(o: Options, startAt: int, ops: seq<Op>)
    ensures Run(o, startAt, ops).lastSentAt == LastSendTime(o, startAt, ops)
    decreases |ops|
  {
    if ops != [] {
      LastSendTimeIs(o, startAt, ops[..|ops| - 1]);
    }
  }

  /** Enough of the text is new: enough characters, and if boundaries are preferred one of them at its end or so many
      characters that it does not matter. A text that does not extend the one sent last is new altogether. */
  ghost predicate IsNewEnough(o: Options, last: string, text: string) {
    last <= text ==>
      var grown := |text| - |last|;
      && o.minNewChars <= grown
      && (o.preferNaturalBoundary ==> AtBoundary(text) || o.forceSendChars <= grown)
  }

  /** The first delay is over, and so is the interval since the last text was sent. */
  ghost predicate IsTime(o: Options, startAt: int, lastSendTime: int, now: int) {
    (o.minDelayMs == 0 || startAt + o.minDelayMs <= now) && lastSendTime + o.minIntervalMs <= now
  }

  lemma ShouldSendIff(o: Options, startAt: int, v: View, text: string, now: int)
    ensures
      ShouldSend(o, startAt, v, text, false, now) <==>
        && v.sentCount < o.maxUpdates && IsTime(o, startAt, v.lastSentAt, now)
        && IsNewEnough(o, v.lastSentText, text)
  {}

  lemma OneMore(o: Options, startAt: int, ops: seq<Op>, op: Op)
    ensures Run(o, startAt, ops + [op]) == Step(o, startAt, Run(o, startAt, ops), op)
  {
    assert (ops + [op])[..|ops|] == ops;
  }

  /** A push sends the merge of all that was pushed, and nothing else, exactly when the push adds something to it, no
      more than the allowed texts were sent, it is time, and enough of the text is new. */
  lemma PushSendsIff(o: Options, startAt: int, ops: seq<Op>, text: string, now: int, sentAt: int)
    ensures
      var sent, merged := Run(o, startAt, ops).sent, Merge(Fold(ops), text);
      Run(o, startAt, ops + [Push(text, now, sentAt)]).sent
      == if merged != Fold(ops) && |sent| < o.maxUpdates && IsTime(o, startAt, LastSendTime(o, startAt, ops), now)
            && IsNewEnough(o, LastSent(sent), merged) then sent + [merged] else sent
  {
    var v := Run(o, startAt, ops);
    OneMore(o, startAt, ops, Push(text, now, sentAt));
    UpdaterRefinesFold(o, startAt, ops);
    LastSendTimeIs(o, startAt, ops);
    MergeEmpty(Fold(ops));
    MergeGrows(Fold(ops), text);
    ShouldSendIff(o, startAt, v, Merge(Fold(ops), text), now);
  }

  /** A flush sends what is pending, whatever the time, unless the allowed texts were all sent. */
  lemma FlushSendsIff(o: Options, startAt: int, ops: seq<Op>, now: int, sentAt: int)
    ensures
      var sent := Run(o, startAt, ops).sent;
      Run(o, startAt, ops + [Flush(now, sentAt)]).sent
      == if LastSent(sent) != Fold(ops) && |sent| < o.maxUpdates then sent + [Fold(ops)] else sent
  {
    OneMore(o, startAt, ops, Flush(now, sentAt));
    UpdaterRefinesFold(o, startAt, ops);
  }

  /** Trimming takes the whitespace at the end, and no more. */
  lemma {:induction false} TrimEndIff(s: string, t: string)
    ensures
      TrimEnd(s) == t <==>
        && t <= s && (forall k :: |t| <= k < |s| ==> IsWhitespace(s[k]))
        && (t != "" ==> !IsWhitespace(t[|t| - 1]))
    decreases |s|
  {
    if s != "" && IsWhitespace(s[|s| - 1]) {
      TrimEndIff(s[..|s| - 1], t);
      if t <= s && t != s {
        assert t == s[..|t|] == s[..|s| - 1][..|t|];
      }
    } else if t <= s && t != s {
      assert |t| <= |s| - 1;
    }
  }
}
