/** The throttled updater: which of the merged snapshots are sent, and why none of their text is lost. */
module StreamUpdating {
  import opened Text
  import opened StreamingMerge

  // ----- Natural boundaries -----

  function TrimEnd(s: string): string {
    if s != "" && IsWhitespace(s[|s| - 1]) then TrimEnd(s[..|s| - 1]) else s
  }

  /** . ? ! ; newline, and the ideographic full stop, exclamation mark, question mark and semicolon. */
  predicate IsSentenceBoundary(c: char) {
    c in {'.', '?', '!', ';', '\n', '\U{3002}', '\U{FF01}', '\U{FF1F}', '\U{FF1B}'}
  }

  /** Closing quotes and brackets. */
  predicate IsClosable(c: char) {
    c in {'"', '\'', ')', ']', '}', '\U{3011}', '\U{300D}', '\U{300F}'}
  }

  /** The trimmed text ends with a sentence boundary, up to closing quotes and brackets. */
  predicate AtBoundary(text: string) {
    var t := TrimEnd(text);
    exists i | 0 <= i < |t| :: IsSentenceBoundary(t[i]) && forall j | i < j < |t| :: IsClosable(t[j])
  }

  method EndsWithNaturalBoundary(text: string) returns (r: bool)
    ensures r == AtBoundary(text)
  {
    var trimmed := TrimEnd(text);
    if trimmed == "" {
      return false;
    }
    var lastChar := trimmed[|trimmed| - 1];
    if IsSentenceBoundary(lastChar) {
      return true;
    }
    if IsClosable(lastChar) {
      var i := |trimmed| - 2;
      while i >= 0
        invariant -1 <= i <= |trimmed| - 2
        invariant forall j | i < j < |trimmed| :: IsClosable(trimmed[j])
        invariant forall j | i < j < |trimmed| :: !IsSentenceBoundary(trimmed[j])
      {
        var c := trimmed[i];
        if IsSentenceBoundary(c) {
          return true;
        }
        if !IsClosable(c) {
          return false;
        }
        i := i - 1;
      }
    }
    return false;
  }

  // ----- The updater's state -----

  datatype Options = Options(forceSendChars: int, maxUpdates: int, minDelayMs: int, minIntervalMs: int,
                             minNewChars: int, preferNaturalBoundary: bool)

  /** The closed-over variables, and the texts handed to the replacer so far. */
  datatype View = View(pendingText: string, lastSentText: string, sentCount: nat, lastSentAt: int, sentAny: bool,
                       sent: seq<string>)

  const INITIAL := View("", "", 0, 0, false, [])

  predicate ShouldSend(o: Options, startAt: int, v: View, text: string, force: bool, now: int) {
    var isAppendOnly := v.lastSentText <= text;
    var newChars := if isAppendOnly then |text| - |v.lastSentText| else |text|;
    && v.sentCount < o.maxUpdates
    && (!force ==>
          && (o.minDelayMs != 0 ==> now - startAt >= o.minDelayMs)
          && (isAppendOnly ==> newChars >= o.minNewChars)
          && (isAppendOnly && o.preferNaturalBoundary ==> AtBoundary(text) || newChars >= o.forceSendChars)
          && now - v.lastSentAt >= o.minIntervalMs)
  }

  function Send(v: View, text: string, sentAt: int): View {
    View("", text, v.sentCount + 1, sentAt, true, v.sent + [text])
  }

  /** The text shown or about to be shown. */
  function Base(v: View): string { if v.pendingText != "" then v.pendingText else v.lastSentText }

  /** A push of a normalised snapshot; the clock is read when the throttle decides and again when a text is sent. */
  function PushView(o: Options, startAt: int, v: View, normalized: string, now: int, sentAt: int): View {
    var merged := Merge(Base(v), normalized);
    if normalized == "" || merged == "" || merged == v.lastSentText || merged == v.pendingText then v
    else if ShouldSend(o, startAt, v, merged, false, now) then Send(v, merged, sentAt)
    else v.(pendingText := merged)
  }

  function FlushView(o: Options, startAt: int, v: View, now: int, sentAt: int): View {
    if v.pendingText != "" && v.pendingText != v.lastSentText && ShouldSend(o, startAt, v, v.pendingText, true, now)
    then Send(v, v.pendingText, sentAt)
    else v
  }

  class StreamUpdater {
    const options: Options
    const startAt: int
    var pendingText: string
    var lastSentText: string
    var sentCount: nat
    var lastSentAt: int
    var sentAny: bool
    var sent: seq<string>

    constructor (options: Options, startAt: int)
      ensures this.options == options && this.startAt == startAt && Now() == INITIAL
    {
      this.options, this.startAt := options, startAt;
      pendingText, lastSentText, sentCount, lastSentAt, sentAny, sent := "", "", 0, 0, false, [];
    }

    function Now(): View
      reads this
    {
      View(pendingText, lastSentText, sentCount, lastSentAt, sentAny, sent)
    }

    method QueueSend(text: string, sentAt: int)
      modifies this
      ensures Now() == Send(old(Now()), text, sentAt).(pendingText := old(pendingText))
    {
      lastSentAt := sentAt;
      lastSentText := text;
      sentCount := sentCount + 1;
      sentAny := true;
      sent := sent + [text];
    }

    method ShouldSendNow(text: string, force: bool, now: int) returns (r: bool)
      ensures r == ShouldSend(options, startAt, Now(), text, force, now)
    {
      if sentCount >= options.maxUpdates {
        return false;
      }
      if !force && options.minDelayMs != 0 && now - startAt < options.minDelayMs {
        return false;
      }
      var isAppendOnly := lastSentText <= text;
      var newChars := if isAppendOnly then |text| - |lastSentText| else |text|;
      if !force && isAppendOnly && newChars < options.minNewChars {
        return false;
      }
      if !force && isAppendOnly && options.preferNaturalBoundary {
        var atBoundary := EndsWithNaturalBoundary(text);
        if !atBoundary && newChars < options.forceSendChars {
          return false;
        }
      }
      if !force && now - lastSentAt < options.minIntervalMs {
        return false;
      }
      return true;
    }

    method Push(normalized: string, now: int, sentAt: int)
      modifies this
      ensures Now() == PushView(options, startAt, old(Now()), normalized, now, sentAt)
    {
      if normalized == "" {
        return;
      }
      var base := if pendingText != "" then pendingText else lastSentText;
      var merged := MergeStreamingText(base, normalized);
      if merged == "" || merged == lastSentText || merged == pendingText {
        return;
      }
      pendingText := merged;
      var send := ShouldSendNow(pendingText, false, now);
      if !send {
        return;
      }
      var toSend := pendingText;
      pendingText := "";
      QueueSend(toSend, sentAt);
    }

    method Flush(now: int, sentAt: int)
      modifies this
      ensures Now() == FlushView(options, startAt, old(Now()), now, sentAt)
    {
      if pendingText != "" && pendingText != lastSentText {
        var send := ShouldSendNow(pendingText, true, now);
        if send {
          var toSend := pendingText;
          pendingText := "";
          QueueSend(toSend, sentAt);
        }
      }
    }
  }

  // ----- Every history -----

  datatype Op = Push(text: string, now: int, sentAt: int) | Flush(now: int, sentAt: int)

  function Step(o: Options, startAt: int, v: View, op: Op): View {
    match op
    case Push(text, now, sentAt) => PushView(o, startAt, v, text, now, sentAt)
    case Flush(now, sentAt) => FlushView(o, startAt, v, now, sentAt)
  }

  function Run(o: Options, startAt: int, ops: seq<Op>): View {
    if ops == [] then INITIAL else Step(o, startAt, Run(o, startAt, ops[..|ops| - 1]), ops[|ops| - 1])
  }

  /** What a reader who saw every snapshot would have: the left fold of the merge. */
  function Fold(ops: seq<Op>): string {
    if ops == [] then ""
    else
      var before := Fold(ops[..|ops| - 1]);
      match ops[|ops| - 1]
      case Push(text, _, _) => Merge(before, text)
      case Flush(_, _) => before
  }

  /** Each text sent contains the one sent before it, and is longer. */
  ghost predicate Growing(sent: seq<string>) {
    forall k :: 0 < k < |sent| ==> GrowsAt(sent, k)
  }

  ghost predicate GrowsAt(sent: seq<string>, k: nat)
    requires 0 < k < |sent|
  {
    Contains(sent[k], sent[k - 1]) && |sent[k - 1]| < |sent[k]|
  }

  ghost predicate Refines(o: Options, v: View, fold: string) {
    && Base(v) == fold
    && (v.pendingText != "" ==> Contains(v.pendingText, v.lastSentText) && |v.lastSentText| < |v.pendingText|)
    && v.lastSentText == (if v.sent == [] then "" else v.sent[|v.sent| - 1])
    && v.sentCount == |v.sent| && (v.sentAny <==> v.sent != [])
    && (v.sent == [] || v.sentCount <= o.maxUpdates)
    && Growing(v.sent)
  }

  lemma MergeEmpty(p: string)
    ensures Merge(p, "") == p && Merge("", p) == p
  {
    ContainsAt(p, "", 0);
  }

  /** A merge that differs from what it extends is longer. */
  lemma MergeGrows(p: string, n: string)
    ensures Contains(Merge(p, n), p) && (Merge(p, n) != p ==> |p| < |Merge(p, n)|)
  {
    MergeContainsBoth(p, n);
    if |Merge(p, n)| <= |p| {
      ContainsAntisymmetric(Merge(p, n), p);
    }
  }

  lemma SendRefines(o: Options, v: View, fold: string, text: string, sentAt: int)
    requires Refines(o, v, fold) && v.sentCount < o.maxUpdates
    requires Contains(text, v.lastSentText) && |v.lastSentText| < |text|
    ensures Refines(o, Send(v, text, sentAt), text)
  {
    var sent := v.sent + [text];
    forall k | 0 < k < |sent|
      ensures GrowsAt(sent, k)
    {
      assert k < |v.sent| ==> GrowsAt(v.sent, k);
    }
  }

  lemma PushRefines(o: Options, startAt: int, v: View, fold: string, text: string, now: int, sentAt: int)
    requires Refines(o, v, fold)
    ensures Refines(o, PushView(o, startAt, v, text, now, sentAt), Merge(fold, text))
  {
    var merged := Merge(fold, text);
    MergeEmpty(fold);
    MergeGrows(fold, text);
    if text != "" && merged != fold {
      if v.pendingText != "" {
        ContainsTransitive(merged, fold, v.lastSentText);
      }
      assert Contains(merged, v.lastSentText) && |v.lastSentText| < |merged|;
      if ShouldSend(o, startAt, v, merged, false, now) {
        SendRefines(o, v, fold, merged, sentAt);
      }
    }
  }

  lemma FlushRefines(o: Options, startAt: int, v: View, fold: string, now: int, sentAt: int)
    requires Refines(o, v, fold)
    ensures Refines(o, FlushView(o, startAt, v, now, sentAt), fold)
  {
    if v.pendingText != "" && ShouldSend(o, startAt, v, v.pendingText, true, now) {
      SendRefines(o, v, fold, v.pendingText, sentAt);
    }
  }

  /** For every history of pushes and flushes and every clock: what is shown or pending is the fold of the merge, the
      texts sent grow, and there are never more of them than allowed. */
  lemma {:induction false} UpdaterRefinesFold(o: Options, startAt: int, ops: seq<Op>)
    ensures Refines(o, Run(o, startAt, ops), Fold(ops))
  {
    if ops != [] {
      var before := ops[..|ops| - 1];
      UpdaterRefinesFold(o, startAt, before);
      match ops[|ops| - 1]
      case Push(text, now, sentAt) => PushRefines(o, startAt, Run(o, startAt, before), Fold(before), text, now, sentAt);
      case Flush(now, sentAt) => FlushRefines(o, startAt, Run(o, startAt, before), Fold(before), now, sentAt);
    }
  }

  /** A final flush shows the whole fold exactly when nothing was pending or the cap was not yet reached. */
  lemma FlushCompletes(o: Options, startAt: int, ops: seq<Op>, now: int, sentAt: int)
    ensures
      var v := Run(o, startAt, ops);
      Run(o, startAt, ops + [Flush(now, sentAt)]).lastSentText == Fold(ops) <==>
        v.pendingText == "" || v.sentCount < o.maxUpdates
  {
    UpdaterRefinesFold(o, startAt, ops);
    assert (ops + [Flush(now, sentAt)])[..|ops|] == ops;
  }

  /** No snapshot is lost in the fold. */
  lemma {:induction false} FoldContainsEverySnapshot(ops: seq<Op>, k: nat)
    requires k < |ops| && ops[k].Push?
    ensures Contains(Fold(ops), ops[k].text)
  {
    var before := ops[..|ops| - 1];
    if k == |ops| - 1 {
      MergeContainsBoth(Fold(before), ops[k].text);
    } else {
      FoldContainsEverySnapshot(before, k);
      match ops[|ops| - 1]
      case Push(text, _, _) =>
        MergeContainsBoth(Fold(before), text);
        ContainsTransitive(Fold(ops), Fold(before), ops[k].text);
      case Flush(_, _) =>
    }
  }

  /** When every snapshot extends the one before it, the fold is the last snapshot: nothing is doubled. */
  lemma {:induction false} GrowingSnapshots(ops: seq<Op>)
    requires ops != [] && forall k :: 0 <= k < |ops| ==> ops[k].Push?
    requires forall k :: 0 < k < |ops| ==> ops[k - 1].text <= ops[k].text
    ensures Fold(ops) == ops[|ops| - 1].text
  {
    var before := ops[..|ops| - 1];
    if before == [] {
      MergeEmpty(ops[0].text);
    } else {
      GrowingSnapshots(before);
      MergeGrowth(Fold(before), ops[|ops| - 1].text);
    }
  }
}
