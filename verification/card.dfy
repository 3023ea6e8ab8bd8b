/** A streamed card: a remote element updated by numbered requests, any of which may fail. Calls are serial. */
module CardSessions {
  import opened StreamingMerge

  datatype Request = Content(sequence: nat, text: string, accepted: bool)
                   | Settings(sequence: nat, finalText: string, accepted: bool)

  /** The session's fields, and the requests sent so far. */
  datatype Card = Card(placeholderText: string, currentText: string, sequence: nat, log: seq<Request>)

  function Opened(placeholder: string): Card { Card(placeholder, placeholder, 1, []) }

  function BaseText(c: Card): string {
    if c.currentText == c.placeholderText then "" else c.currentText
  }

  function SendContent(c: Card, text: string, accepted: bool): Card {
    var log := c.log + [Content(c.sequence + 1, text, accepted)];
    if accepted then c.(currentText := text, sequence := c.sequence + 1, log := log) else c.(log := log)
  }

  function SendSettings(c: Card, accepted: bool): Card {
    c.(sequence := if accepted then c.sequence + 1 else c.sequence,
       log := c.log + [Settings(c.sequence + 1, c.currentText, accepted)])
  }

  /** An update with the sanitised text, whose request the remote side would accept or not; and whether it succeeds. */
  function UpdateCard(c: Card, safeText: string, accepted: bool): (Card, bool) {
    var merged := Merge(BaseText(c), safeText);
    if merged == "" || merged == BaseText(c) || merged == c.currentText then (c, true)
    else (SendContent(c, merged, accepted), accepted)
  }

  function CloseCard(c: Card, sanitize: string -> string, finalText: string, content: bool, settings: bool)
    : (Card, bool)
  {
    var (c', updated) := UpdateCard(c, sanitize(Merge(BaseText(c), finalText)), content);
    if updated then (SendSettings(c', settings), settings) else (c', false)
  }

  /** Merging twice with the same base is merging once. */
  lemma MergeAgain(base: string, text: string)
    ensures Merge(base, Merge(base, text)) == Merge(base, text)
  {
    MergeContainsBoth(base, text);
  }

  class CardSession {
    const sanitize: string -> string
    const placeholderText: string
    var currentText: string
    var sequence: nat
    var log: seq<Request>
    /** The session stands in the map of open sessions. */
    var registered: bool

    constructor (sanitize: string -> string, initialText: string)
      ensures this.sanitize == sanitize && Now() == Opened(initialText) && registered
    {
      this.sanitize, placeholderText, registered := sanitize, initialText, true;
      currentText, sequence, log := initialText, 1, [];
    }

    function Now(): Card
      reads this
    {
      Card(placeholderText, currentText, sequence, log)
    }

    method UpdateCardKitSession(text: string, accepted: bool) returns (ok: bool)
      modifies `currentText, `sequence, `log
      ensures (Now(), ok) == UpdateCard(old(Now()), sanitize(text), accepted)
    {
      ghost var c := Now();
      var safeText := sanitize(text);
      var baseText := if currentText == placeholderText then "" else currentText;
      assert baseText == BaseText(c);
      var merged := MergeStreamingText(baseText, safeText);
      if merged == "" || merged == baseText {
        return true;
      }
      var liveBaseText := if currentText == placeholderText then "" else currentText;
      var nextText := MergeStreamingText(liveBaseText, merged);
      MergeAgain(baseText, safeText);
      assert nextText == merged;
      if nextText == "" || nextText == currentText {
        return true;
      }
      var nextSequence := sequence + 1;
      log := log + [Content(nextSequence, nextText, accepted)];
      if !accepted {
        assert Now() == SendContent(c, merged, false);
        return false;
      }
      currentText := nextText;
      sequence := nextSequence;
      assert Now() == SendContent(c, merged, true);
      return true;
    }

    method CloseCardKitSession(finalText: string, content: bool, settings: bool) returns (ok: bool)
      modifies this
      ensures (Now(), ok) == CloseCard(old(Now()), sanitize, finalText, content, settings) && !registered
    {
      ghost var c := Now();
      var baseText := if currentText == placeholderText then "" else currentText;
      assert baseText == BaseText(c);
      var mergedFinal := MergeStreamingText(baseText, finalText);
      var updated := UpdateCardKitSession(mergedFinal, content);
      ghost var c' := Now();
      assert (c', updated) == UpdateCard(c, sanitize(mergedFinal), content);
      if !updated {
        registered := false;
        return false;
      }
      var nextSequence := sequence + 1;
      log := log + [Settings(nextSequence, currentText, settings)];
      if !settings {
        assert Now() == SendSettings(c', false);
        registered := false;
        return false;
      }
      sequence := nextSequence;
      assert Now() == SendSettings(c', true);
      registered := false;
      return true;
    }
  }

  // ----- Every history of serial calls -----

  datatype Call = Update(text: string, accepted: bool) | Close(finalText: string, content: bool, settings: bool)

  function Step(c: Card, sanitize: string -> string, call: Call): Card {
    match call
    case Update(text, accepted) => UpdateCard(c, sanitize(text), accepted).0
    case Close(finalText, content, settings) => CloseCard(c, sanitize, finalText, content, settings).0
  }

  function Run(placeholder: string, sanitize: string -> string, calls: seq<Call>): Card {
    if calls == [] then Opened(placeholder)
    else Step(Run(placeholder, sanitize, calls[..|calls| - 1]), sanitize, calls[|calls| - 1])
  }

  /** The requests that the remote side accepted. */
  function Accepted(log: seq<Request>): seq<Request> {
    if log == [] then []
    else
      var last := log[|log| - 1];
      Accepted(log[..|log| - 1]) + if last.accepted then [last] else []
  }

  /** The text that the remote card shows: the last accepted content, or the placeholder. */
  function Shown(placeholder: string, log: seq<Request>): string {
    if log == [] then placeholder
    else
      var last := log[|log| - 1];
      if last.Content? && last.accepted then last.text else Shown(placeholder, log[..|log| - 1])
  }

  /** Request `k` carries the number after those of the accepted requests before it, and a content request keeps what
      the card shows, unless that is the placeholder. */
  ghost predicate RequestOk(placeholder: string, log: seq<Request>, k: nat)
    requires k < |log|
  {
    var shown := Shown(placeholder, log[..k]);
    && log[k].sequence == 2 + |Accepted(log[..k])|
    && (log[k].Content? ==> log[k].text != shown && (shown == placeholder || Contains(log[k].text, shown)))
    && (log[k].Settings? ==> log[k].finalText == shown)
  }

  ghost predicate CardOk(c: Card) {
    && c.sequence == 1 + |Accepted(c.log)|
    && c.currentText == Shown(c.placeholderText, c.log)
    && forall k :: 0 <= k < |c.log| ==> RequestOk(c.placeholderText, c.log, k)
  }

  lemma AppendRequest(c: Card, r: Request)
    requires CardOk(c) && r.sequence == c.sequence + 1
    requires r.Content? ==>
      r.text != c.currentText && (c.currentText == c.placeholderText || Contains(r.text, c.currentText))
    requires r.Settings? ==> r.finalText == c.currentText
    ensures forall k :: 0 <= k < |c.log + [r]| ==> RequestOk(c.placeholderText, c.log + [r], k)
    ensures Accepted(c.log + [r]) == Accepted(c.log) + if r.accepted then [r] else []
    ensures Shown(c.placeholderText, c.log + [r])
            == if r.Content? && r.accepted then r.text else Shown(c.placeholderText, c.log)
  {
    var log := c.log + [r];
    assert log[..|c.log|] == c.log;
    forall k | 0 <= k < |log|
      ensures RequestOk(c.placeholderText, log, k)
    {
      if k < |c.log| {
        assert RequestOk(c.placeholderText, c.log, k);
        assert log[..k] == c.log[..k];
      }
    }
  }

  lemma UpdateKeepsCard(c: Card, safeText: string, accepted: bool)
    requires CardOk(c)
    ensures CardOk(UpdateCard(c, safeText, accepted).0)
  {
    var merged := Merge(BaseText(c), safeText);
    MergeContainsBoth(BaseText(c), safeText);
    if merged != "" && merged != BaseText(c) && merged != c.currentText {
      AppendRequest(c, Content(c.sequence + 1, merged, accepted));
    }
  }

  lemma CloseKeepsCard(c: Card, sanitize: string -> string, finalText: string, content: bool, settings: bool)
    requires CardOk(c)
    ensures CardOk(CloseCard(c, sanitize, finalText, content, settings).0)
  {
    var safeText := sanitize(Merge(BaseText(c), finalText));
    var (c', updated) := UpdateCard(c, safeText, content);
    UpdateKeepsCard(c, safeText, content);
    if updated {
      AppendRequest(c', Settings(c'.sequence + 1, c'.currentText, settings));
    }
  }

  /** For every serial history and every pattern of failures the session agrees with the remote card, and every request
      is numbered right and keeps what the card shows. */
  lemma {:induction false} SessionAgreesWithCard(placeholder: string, sanitize: string -> string, calls: seq<Call>)
    ensures
      var c := Run(placeholder, sanitize, calls);
      CardOk(c) && c.placeholderText == placeholder
  {
    if calls != [] {
      var before := calls[..|calls| - 1];
      SessionAgreesWithCard(placeholder, sanitize, before);
      var c := Run(placeholder, sanitize, before);
      match calls[|calls| - 1]
      case Update(text, accepted) => UpdateKeepsCard(c, sanitize(text), accepted);
      case Close(finalText, content, settings) => CloseKeepsCard(c, sanitize, finalText, content, settings);
    }
  }

  lemma {:induction false} AcceptedNumbers(placeholder: string, log: seq<Request>, k: nat)
    requires forall j :: 0 <= j < |log| ==> RequestOk(placeholder, log, j)
    requires k < |Accepted(log)|
    ensures Accepted(log)[k].sequence == 2 + k && Accepted(log)[k].accepted
  {
    var n := |log| - 1;
    assert RequestOk(placeholder, log, n);
    if k < |Accepted(log[..n])| {
      forall j | 0 <= j < n
        ensures RequestOk(placeholder, log[..n], j)
      {
        assert RequestOk(placeholder, log, j);
        assert log[..n][..j] == log[..j];
      }
      AcceptedNumbers(placeholder, log[..n], k);
    }
  }

  /** The accepted requests on a card are numbered 2, 3, 4, ... with no gap and no repeat. */
  lemma AcceptedAreConsecutive(placeholder: string, sanitize: string -> string, calls: seq<Call>, k: nat)
    requires k < |Accepted(Run(placeholder, sanitize, calls).log)|
    ensures Accepted(Run(placeholder, sanitize, calls).log)[k].sequence == 2 + k
  {
    SessionAgreesWithCard(placeholder, sanitize, calls);
    AcceptedNumbers(placeholder, Run(placeholder, sanitize, calls).log, k);
  }

  /** An update that reports success leaves the sanitised text on the card. */
  lemma SuccessfulUpdateShows(c: Card, safeText: string, accepted: bool)
    requires CardOk(c)
    ensures
      var (c', ok) := UpdateCard(c, safeText, accepted);
      ok ==> Contains(Shown(c'.placeholderText, c'.log), safeText)
  {
    UpdateKeepsCard(c, safeText, accepted);
    MergeContainsBoth(BaseText(c), safeText);
    if Merge(BaseText(c), safeText) == "" {
      assert safeText == "";
      ContainsAt(c.currentText, safeText, 0);
    }
  }

  /** There is nothing to send exactly when the text is contained in the card's. */
  lemma NothingToSend(base: string, text: string)
    ensures Merge(base, text) == "" || Merge(base, text) == base <==> Contains(base, text)
  {
    MergeIsEitherIff(base, text);
    MergeContainsBoth(base, text);
    if Merge(base, text) == "" {
      ContainsAt(base, text, 0);
    }
  }

  /** What an update sends: the merge, exactly when the text is not contained in the card's and the merge is not the
      placeholder that the card shows. It fails exactly when that request is rejected. */
  lemma UpdateSendsIff(c: Card, safeText: string, accepted: bool)
    ensures
      var (c', ok) := UpdateCard(c, safeText, accepted);
      var merged := Merge(BaseText(c), safeText);
      && c'.log == (if !Contains(BaseText(c), safeText) && merged != c.currentText
                    then c.log + [Content(c.sequence + 1, merged, accepted)] else c.log)
      && (ok <==> accepted || c'.log == c.log)
  {
    NothingToSend(BaseText(c), safeText);
  }

  /** A close that reports success leaves the final text on the card, merged with what it showed and sanitised, and has
      announced it in the settings; one that does not has failed at one of its two requests, and shows what it showed
      or the final text. */
  lemma CloseShows(c: Card, sanitize: string -> string, finalText: string, content: bool, settings: bool)
    requires CardOk(c)
    ensures
      var (c', ok) := CloseCard(c, sanitize, finalText, content, settings);
      var merged := Merge(BaseText(c), finalText);
      var shown := Shown(c'.placeholderText, c'.log);
      && Contains(merged, finalText) && Contains(merged, BaseText(c))
      && (ok ==> Contains(shown, sanitize(merged)) && c'.log != []
                 && c'.log[|c'.log| - 1] == Settings(c'.sequence, shown, true))
      && (!ok ==> c'.log != [] && !c'.log[|c'.log| - 1].accepted)
      && (shown == c.currentText || Contains(shown, sanitize(merged)))
  {
    var safeText := sanitize(Merge(BaseText(c), finalText));
    var c' := UpdateCard(c, safeText, content).0;
    MergeContainsBoth(BaseText(c), finalText);
    SuccessfulUpdateShows(c, safeText, content);
    UpdateSendsIff(c, safeText, content);
    UpdateKeepsCard(c, safeText, content);
    CloseKeepsCard(c, sanitize, finalText, content, settings);
  }

  /** As long as no accepted text coincides with the placeholder, nothing that the card has shown is lost. */
  lemma {:induction false} ShownGrows(placeholder: string, log: seq<Request>, i: nat, j: nat)
    requires forall k :: 0 <= k < |log| ==> RequestOk(placeholder, log, k)
    requires forall k :: 0 <= k < |log| && log[k].Content? && log[k].accepted ==> log[k].text != placeholder
    requires i <= j <= |log| && Shown(placeholder, log[..i]) != placeholder
    ensures Shown(placeholder, log[..j]) != placeholder
    ensures Contains(Shown(placeholder, log[..j]), Shown(placeholder, log[..i]))
  {
    var before := Shown(placeholder, log[..i]);
    if i == j {
      assert before[0..|before|] == before;
      ContainsAt(before, before, 0);
    } else {
      ShownGrows(placeholder, log, i, j - 1);
      assert RequestOk(placeholder, log, j - 1);
      assert log[..j][..j - 1] == log[..j - 1];
      if log[j - 1].Content? && log[j - 1].accepted {
        ContainsTransitive(log[j - 1].text, Shown(placeholder, log[..j - 1]), before);
      }
    }
  }

  // ----- When something shown is lost -----

  /** An accepted update that sends a text keeps what the card shows exactly when that is not the placeholder, or the
      new text repeats it. */
  lemma UpdateKeepsShownIff(c: Card, safeText: string)
    ensures
      var c' := UpdateCard(c, safeText, true).0;
      c'.log != c.log ==>
        (Contains(c'.currentText, c.currentText) <==>
           c.currentText != c.placeholderText || Contains(safeText, c.placeholderText))
  {
    MergeContainsBoth(BaseText(c), safeText);
    MergeGrowth("", safeText);
  }

  /** The initial placeholder has been replaced. */
  ghost predicate Begun(log: seq<Request>, i: int) {
    exists k :: 0 <= k < i && k < |log| && log[k].Content? && log[k].accepted
  }

  /** Every text that the card shows, once the initial placeholder is replaced, is kept in all that it shows later. */
  ghost predicate KeepsAll(placeholder: string, log: seq<Request>) {
    forall i, j {:trigger KeepsFrom(placeholder, log, i, j)} ::
      0 <= i <= j <= |log| && Begun(log, i) ==> KeepsFrom(placeholder, log, i, j)
  }

  predicate KeepsFrom(placeholder: string, log: seq<Request>, i: nat, j: nat)
    requires i <= |log| && j <= |log|
  {
    Contains(Shown(placeholder, log[..j]), Shown(placeholder, log[..i]))
  }

  /** Request `k`, if it changes a card that shows the placeholder again, repeats the placeholder in its text. */
  predicate RepeatsPlaceholder(placeholder: string, log: seq<Request>, k: nat)
    requires k < |log|
  {
    log[k].Content? && log[k].accepted && Shown(placeholder, log[..k]) == placeholder ==>
      Contains(log[k].text, placeholder)
  }

  ghost predicate AllRepeat(placeholder: string, log: seq<Request>) {
    forall k {:trigger RepeatsPlaceholder(placeholder, log, k)} ::
      0 <= k < |log| && Begun(log, k) ==> RepeatsPlaceholder(placeholder, log, k)
  }

  ghost predicate AllOk(placeholder: string, log: seq<Request>) {
    forall k {:trigger RequestOk(placeholder, log, k)} :: 0 <= k < |log| ==> RequestOk(placeholder, log, k)
  }

  lemma ShownNext(placeholder: string, log: seq<Request>, k: nat)
    requires k < |log|
    ensures
      Shown(placeholder, log[..k + 1])
      == if log[k].Content? && log[k].accepted then log[k].text else Shown(placeholder, log[..k])
  {
    assert log[..k + 1][..k] == log[..k];
  }

  lemma BegunStays(log: seq<Request>, i: int, k: int)
    requires Begun(log, i) && i <= k
    ensures Begun(log, k)
  {
    var b :| 0 <= b < i && b < |log| && log[b].Content? && log[b].accepted;
    assert 0 <= b < k;
  }

  lemma KeepsItself(placeholder: string, log: seq<Request>, i: nat)
    requires i <= |log|
    ensures KeepsFrom(placeholder, log, i, i)
  {
    ContainsItself(Shown(placeholder, log[..i]));
  }

  lemma KeepsNext(placeholder: string, log: seq<Request>, i: nat, k: nat)
    requires AllOk(placeholder, log) && AllRepeat(placeholder, log)
    requires i <= k < |log| && Begun(log, i) && KeepsFrom(placeholder, log, i, k)
    ensures KeepsFrom(placeholder, log, i, k + 1)
  {
    BegunStays(log, i, k);
    assert RequestOk(placeholder, log, k) && RepeatsPlaceholder(placeholder, log, k);
    ShownNext(placeholder, log, k);
    if log[k].Content? && log[k].accepted {
      ContainsTransitive(log[k].text, Shown(placeholder, log[..k]), Shown(placeholder, log[..i]));
    }
  }

  lemma {:induction false} KeepsUpTo(placeholder: string, log: seq<Request>, i: nat, j: nat)
    requires AllOk(placeholder, log) && AllRepeat(placeholder, log) && i <= j <= |log| && Begun(log, i)
    ensures KeepsFrom(placeholder, log, i, j)
  {
    if i == j {
      KeepsItself(placeholder, log, i);
    } else {
      KeepsUpTo(placeholder, log, i, j - 1);
      KeepsNext(placeholder, log, i, j - 1);
    }
  }

  lemma LostUnlessRepeated(placeholder: string, log: seq<Request>, k: nat)
    requires KeepsAll(placeholder, log) && k < |log| && Begun(log, k)
    ensures RepeatsPlaceholder(placeholder, log, k)
  {
    assert KeepsFrom(placeholder, log, k, k + 1);
    ShownNext(placeholder, log, k);
  }

  /** Over a whole serial history nothing that has replaced the initial placeholder is ever lost exactly when every
      request that changes a card showing the placeholder again repeats it. */
  lemma NothingLostIff(placeholder: string, sanitize: string -> string, calls: seq<Call>)
    ensures
      var log := Run(placeholder, sanitize, calls).log;
      KeepsAll(placeholder, log) <==> AllRepeat(placeholder, log)
  {
    var log := Run(placeholder, sanitize, calls).log;
    SessionAgreesWithCard(placeholder, sanitize, calls);
    if KeepsAll(placeholder, log) {
      forall k | 0 <= k < |log| && Begun(log, k)
        ensures RepeatsPlaceholder(placeholder, log, k)
      {
        LostUnlessRepeated(placeholder, log, k);
      }
    }
    if AllRepeat(placeholder, log) {
      forall i, j | 0 <= i <= j <= |log| && Begun(log, i)
        ensures KeepsFrom(placeholder, log, i, j)
      {
        KeepsUpTo(placeholder, log, i, j);
      }
    }
  }

  /** A text that coincides with the placeholder is taken for it: the next update drops it. */
  lemma PlaceholderCoincidence()
    ensures
      var calls := [Update("a", true), Update("ab", true), Update("x", true)];
      var c := Run("ab", (t: string) => t, calls);
      c.currentText == "x" && Accepted(c.log) == c.log && |c.log| == 3 && !Contains("x", "ab")
  {
    var id := (t: string) => t;
    var calls := [Update("a", true), Update("ab", true), Update("x", true)];
    assert calls[..2] == [Update("a", true), Update("ab", true)];
    assert calls[..2][..1] == [Update("a", true)];
    assert calls[..2][..1][..0] == [];
    var c1 := Card("ab", "a", 2, [Content(2, "a", true)]);
    var c2 := Card("ab", "ab", 3, [Content(2, "a", true), Content(3, "ab", true)]);
    MergeGrowth("", "a");
    MergeGrowth("a", "ab");
    MergeGrowth("", "x");
    assert Run("ab", id, calls[..2][..1]) == c1;
    assert Run("ab", id, calls[..2]) == c2;
  }
}
