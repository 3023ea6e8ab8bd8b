/** The duplicate filter: a map in insertion order, pruned by age from its oldest entry and capped in size. */
module DuplicateFiltering {

  const TTL_MS: int := 10 * 60 * 1000
  const MAX_KEYS: int := 5000

  datatype Entry = Entry(key: string, time: int)

  predicate HasKey(entries: seq<Entry>, key: string) {
    exists j | 0 <= j < |entries| :: entries[j].key == key
  }

  /** Pruning stops at the first entry that is not too old. */
  function Prune(entries: seq<Entry>, now: int): seq<Entry> {
    if entries != [] && now - entries[0].time > TTL_MS then Prune(entries[1..], now) else entries
  }

  /** The entries after a key is marked, and whether it was a duplicate. The program takes an empty oldest key for a
      missing one, and then evicts nothing. */
  function Mark(entries: seq<Entry>, key: string, now: int): (seq<Entry>, bool) {
    var pruned := Prune(entries, now);
    if HasKey(pruned, key) then (pruned, true)
    else
      var grown := pruned + [Entry(key, now)];
      (if |grown| > MAX_KEYS && grown[0].key != "" then grown[1..] else grown, false)
  }

  class DuplicateFilter {
    /** The map's entries in insertion order. */
    var entries: seq<Entry>

    constructor ()
      ensures entries == []
    {
      entries := [];
    }

    method PruneProcessedMessages(now: int)
      modifies this
      ensures entries == Prune(old(entries), now)
    {
      while entries != []
        invariant Prune(entries, now) == Prune(old(entries), now)
        decreases |entries|
      {
        if now - entries[0].time <= TTL_MS {
          break;
        }
        entries := entries[1..];
      }
    }

    method MarkIfDuplicate(messageKey: string, now: int) returns (duplicate: bool)
      modifies this
      ensures (entries, duplicate) == Mark(old(entries), messageKey, now)
    {
      PruneProcessedMessages(now);
      if HasKey(entries, messageKey) {
        return true;
      }
      entries := entries + [Entry(messageKey, now)];
      if |entries| > MAX_KEYS {
        var oldestKey := entries[0].key;
        if oldestKey != "" {
          entries := entries[1..];
        }
      }
      return false;
    }
  }

  /** The key of an incoming message is never empty. */
  function MessageKey(conversationKey: string, messageId: string): (r: string)
    ensures r != ""
  {
    conversationKey + ":" + messageId
  }

  /** Messages differ in their keys if they differ at all, as long as no message id holds a colon. */
  lemma MessageKeysDiffer(conversation: string, id: string, conversation': string, id': string)
    requires ':' !in id && ':' !in id'
    ensures
      MessageKey(conversation, id) == MessageKey(conversation', id') <==> conversation == conversation' && id == id'
  {
    var a, b := MessageKey(conversation, id), MessageKey(conversation', id');
    assert a[|conversation|] == ':' && forall k :: |conversation| < k < |a| ==> a[k] in id;
    assert b[|conversation'|] == ':' && forall k :: |conversation'| < k < |b| ==> b[k] in id';
    if a == b {
      assert |conversation| == |conversation'|;
      assert a[..|conversation|] == conversation && b[..|conversation|] == conversation';
      assert a[|conversation| + 1..] == id && b[|conversation| + 1..] == id';
    }
  }

  // ----- Every history -----

  /** The filter's entries after a history of marks, and all the entries it ever accepted. */
  datatype History = History(entries: seq<Entry>, accepted: seq<Entry>)

  function RunOne(h: History, call: Entry): History {
    var (entries, duplicate) := Mark(h.entries, call.key, call.time);
    History(entries, if duplicate then h.accepted else h.accepted + [call])
  }

  function Run(calls: seq<Entry>): History {
    if calls == [] then History([], [])
    else
      RunOne(Run(calls[..|calls| - 1]), calls[|calls| - 1])
  }

  predicate NoLater(a: Entry, b: Entry) { a.time <= b.time }

  ghost predicate SortedByTime(entries: seq<Entry>) {
    forall i, j {:trigger NoLater(entries[i], entries[j])} :: 0 <= i < j < |entries| ==> NoLater(entries[i], entries[j])
  }

  /** The clock does not run backwards, and no key is empty. */
  ghost predicate Regular(calls: seq<Entry>) {
    && SortedByTime(calls)
    && (forall i :: 0 <= i < |calls| ==> calls[i].key != "")
  }

  /** How many of the first accepted entries are too old. */
  function Expired(accepted: seq<Entry>, now: int): (n: nat)
    ensures n <= |accepted|
    ensures forall j :: 0 <= j < n ==> now - accepted[j].time > TTL_MS
    ensures n < |accepted| ==> now - accepted[n].time <= TTL_MS
  {
    if accepted != [] && now - accepted[0].time > TTL_MS then
      var n := 1 + Expired(accepted[1..], now);
      assert forall j :: 1 <= j < n ==> accepted[j] == accepted[1..][j - 1];
      n
    else 0
  }

  /** The first accepted entry that is neither too old nor pushed out by 5000 later ones. */
  function WindowStart(accepted: seq<Entry>, now: int): (d: nat)
    ensures d <= |accepted|
  {
    var n := Expired(accepted, now);
    if |accepted| - MAX_KEYS > n then |accepted| - MAX_KEYS else n
  }

  lemma {:induction false} PruneIsDrop(entries: seq<Entry>, now: int)
    ensures Prune(entries, now) == entries[Expired(entries, now)..]
    decreases |entries|
  {
    if entries != [] && now - entries[0].time > TTL_MS {
      PruneIsDrop(entries[1..], now);
    }
  }

  lemma ExpiredIs(accepted: seq<Entry>, now: int, n: nat)
    requires n <= |accepted|
    requires forall j :: 0 <= j < n ==> now - accepted[j].time > TTL_MS
    requires n < |accepted| ==> now - accepted[n].time <= TTL_MS
    ensures Expired(accepted, now) == n
  {}

  lemma ExpiredOfSuffix(accepted: seq<Entry>, d: nat, now: int)
    requires SortedByTime(accepted) && d <= |accepted|
    ensures Expired(accepted[d..], now) == if Expired(accepted, now) > d then Expired(accepted, now) - d else 0
  {
    var n := Expired(accepted, now);
    if n < d < |accepted| {
      assert NoLater(accepted[n], accepted[d]);
    }
    ExpiredIs(accepted[d..], now, if n > d then n - d else 0);
  }

  lemma ExpiredLater(accepted: seq<Entry>, before: int, now: int)
    requires before <= now
    ensures Expired(accepted, before) <= Expired(accepted, now)
  {}

  /** Pruning a window at a later time gives the window at that time. */
  lemma PruneWindow(accepted: seq<Entry>, before: int, now: int)
    requires SortedByTime(accepted) && before <= now
    ensures
      Prune(accepted[WindowStart(accepted, before)..], now)
      == accepted[WindowStart(accepted, now)..]
  {
    var d := WindowStart(accepted, before);
    PruneIsDrop(accepted[d..], now);
    ExpiredOfSuffix(accepted, d, now);
    ExpiredLater(accepted, before, now);
  }

  /** The last call's time, or any time at all when there was none. */
  function LastTime(calls: seq<Entry>): int {
    if calls == [] then 0 else calls[|calls| - 1].time
  }

  /** The stored map is the window of the accepted history, as of the last prune. */
  ghost predicate Windowed(h: History, now: int) {
    && SortedByTime(h.accepted)
    && (forall j :: 0 <= j < |h.accepted| ==> h.accepted[j].time <= now && h.accepted[j].key != "")
    && h.entries == h.accepted[WindowStart(h.accepted, now)..]
  }

  lemma AcceptKeepsWindow(accepted: seq<Entry>, call: Entry)
    requires SortedByTime(accepted) && call.key != ""
    requires forall j :: 0 <= j < |accepted| ==> accepted[j].time <= call.time && accepted[j].key != ""
    ensures
      var grown := accepted[WindowStart(accepted, call.time)..] + [call];
      (if |grown| > MAX_KEYS && grown[0].key != "" then grown[1..] else grown)
      == (accepted + [call])[WindowStart(accepted + [call], call.time)..]
  {
    var d := WindowStart(accepted, call.time);
    var n := Expired(accepted, call.time);
    var all := accepted + [call];
    ExpiredIs(all, call.time, n);
    assert accepted[d..] + [call] == all[d..];
  }

  lemma AppendSorted(accepted: seq<Entry>, call: Entry)
    requires SortedByTime(accepted)
    requires forall j :: 0 <= j < |accepted| ==> accepted[j].time <= call.time
    ensures SortedByTime(accepted + [call])
  {
    var all := accepted + [call];
    forall i, j | 0 <= i < j < |all|
      ensures NoLater(all[i], all[j])
    {
      assert j < |accepted| ==> NoLater(accepted[i], accepted[j]);
    }
  }

  lemma AcceptedWindow(accepted: seq<Entry>, call: Entry, next: History)
    requires SortedByTime(accepted) && call.key != ""
    requires forall j :: 0 <= j < |accepted| ==> accepted[j].time <= call.time && accepted[j].key != ""
    requires next.accepted == accepted + [call]
    requires
      var grown := accepted[WindowStart(accepted, call.time)..] + [call];
      next.entries == if |grown| > MAX_KEYS && grown[0].key != "" then grown[1..] else grown
    ensures Windowed(next, call.time)
  {
    AcceptKeepsWindow(accepted, call);
    AppendSorted(accepted, call);
  }

  lemma OneKeepsWindow(h: History, before: int, call: Entry)
    requires Windowed(h, before) && before <= call.time && call.key != ""
    ensures Windowed(RunOne(h, call), call.time)
  {
    PruneWindow(h.accepted, before, call.time);
    var pruned := Prune(h.entries, call.time);
    var next := RunOne(h, call);
    if HasKey(pruned, call.key) {
      assert next == History(pruned, h.accepted);
    } else {
      AcceptedWindow(h.accepted, call, next);
    }
  }

  /** The stored map is always the window of the accepted entries as of the last prune, although pruning stops at the
      first fresh entry. */
  lemma {:induction false} StoredIsWindow(calls: seq<Entry>)
    requires Regular(calls)
    ensures Run(calls).accepted != [] ==> calls != []
    ensures Windowed(Run(calls), LastTime(calls))
  {
    if calls != [] {
      var before := calls[..|calls| - 1];
      var call := calls[|calls| - 1];
      RegularBefore(calls);
      StoredIsWindow(before);
      if before == [] {
        OneKeepsWindow(History([], []), call.time, call);
      } else {
        OneKeepsWindow(Run(before), LastTime(before), call);
      }
    }
  }

  lemma RegularBefore(calls: seq<Entry>)
    requires Regular(calls) && calls != []
    ensures
      var before := calls[..|calls| - 1];
      Regular(before) && calls[|calls| - 1].key != "" && (before != [] ==> LastTime(before) <= LastTime(calls))
  {
    var before := calls[..|calls| - 1];
    assert forall i, j :: 0 <= i < j < |before| ==> NoLater(calls[i], calls[j]);
    assert |calls| > 1 ==> NoLater(calls[|calls| - 2], calls[|calls| - 1]);
  }

  ghost predicate InWindow(accepted: seq<Entry>, key: string, now: int) {
    exists j :: 0 <= j < |accepted| && |accepted| - MAX_KEYS <= j && accepted[j].key == key
                && now - accepted[j].time <= TTL_MS
  }

  lemma WindowHasKey(accepted: seq<Entry>, key: string, now: int)
    requires SortedByTime(accepted)
    ensures HasKey(accepted[WindowStart(accepted, now)..], key) <==> InWindow(accepted, key, now)
  {
    var d, n := WindowStart(accepted, now), Expired(accepted, now);
    var window := accepted[d..];
    if HasKey(window, key) {
      var i :| 0 <= i < |window| && window[i].key == key;
      assert accepted[d + i] == window[i];
      assert n == d + i || NoLater(accepted[n], accepted[d + i]);
    }
    if InWindow(accepted, key, now) {
      var j :| 0 <= j < |accepted| && |accepted| - MAX_KEYS <= j && accepted[j].key == key
               && now - accepted[j].time <= TTL_MS;
      assert window[j - d] == accepted[j];
    }
  }

  /** The filter's answer is the window's. */
  ghost predicate AnswersByWindow(h: History, key: string, now: int) {
    Mark(h.entries, key, now).1 <==> InWindow(h.accepted, key, now)
  }

  lemma WindowMarks(h: History, before: int, key: string, now: int)
    requires Windowed(h, before) && before <= now
    ensures AnswersByWindow(h, key, now)
  {
    var accepted := h.accepted;
    PruneWindow(accepted, before, now);
    WindowHasKey(accepted, key, now);
  }

  lemma NothingMarked(key: string, now: int)
    ensures AnswersByWindow(History([], []), key, now)
  {}

  /** A key is a duplicate exactly when one of the last 5000 accepted entries has it and is not too old. */
  lemma DuplicateIffInWindow(calls: seq<Entry>, key: string, now: int)
    requires Regular(calls) && (calls != [] ==> LastTime(calls) <= now)
    ensures AnswersByWindow(Run(calls), key, now)
  {
    if calls == [] {
      NothingMarked(key, now);
    } else {
      StoredIsWindow(calls);
      WindowMarks(Run(calls), LastTime(calls), key, now);
    }
  }

  // ----- Any clock -----

  predicate IsFresh(e: Entry, now: int) { now - e.time <= TTL_MS }

  /** The key stands in the map at or after a fresh entry. */
  ghost predicate StandsFresh(entries: seq<Entry>, key: string, now: int) {
    exists i, j {:trigger IsFresh(entries[i], now), entries[j].key} ::
      0 <= i <= j < |entries| && IsFresh(entries[i], now) && entries[j].key == key
  }

  /** Whatever the clock does, a key is a duplicate exactly when it stands in the map at or after a fresh entry. */
  lemma DuplicateIffStandsFresh(entries: seq<Entry>, key: string, now: int)
    ensures Mark(entries, key, now).1 <==> StandsFresh(entries, key, now)
  {
    var n := Expired(entries, now);
    var left := entries[n..];
    PruneIsDrop(entries, now);
    if HasKey(left, key) {
      var k :| 0 <= k < |left| && left[k].key == key;
      assert IsFresh(entries[n], now) && entries[n + k].key == key;
    }
    if StandsFresh(entries, key, now) {
      var i, j :| 0 <= i <= j < |entries| && IsFresh(entries[i], now) && entries[j].key == key;
      assert left[j - n].key == key;
    }
  }

  /** No key stands twice in the map. */
  ghost predicate DistinctKeys(entries: seq<Entry>) {
    forall i, j :: 0 <= i < j < |entries| ==> entries[i].key != entries[j].key
  }

  lemma MarkKeepsDistinct(entries: seq<Entry>, key: string, now: int)
    requires DistinctKeys(entries)
    ensures DistinctKeys(Mark(entries, key, now).0)
  {
    PruneIsDrop(entries, now);
  }

  /** No history, with any clock and any keys, makes a key stand twice. */
  lemma {:induction false} StoredAreDistinct(calls: seq<Entry>)
    ensures DistinctKeys(Run(calls).entries)
    decreases |calls|
  {
    if calls != [] {
      var before, call := calls[..|calls| - 1], calls[|calls| - 1];
      StoredAreDistinct(before);
      MarkKeepsDistinct(Run(before).entries, call.key, call.time);
    }
  }

  /** A key past its time is still a duplicate exactly when a fresh entry stands before it. */
  lemma StaleIffFreshBefore(calls: seq<Entry>, j: nat, now: int)
    requires j < |Run(calls).entries| && !IsFresh(Run(calls).entries[j], now)
    ensures
      var entries := Run(calls).entries;
      Mark(entries, entries[j].key, now).1 <==> exists i :: 0 <= i < j && IsFresh(entries[i], now)
  {
    StoredAreDistinct(calls);
    StaleInMap(Run(calls).entries, j, now);
  }

  lemma StaleInMap(entries: seq<Entry>, j: nat, now: int)
    requires DistinctKeys(entries) && j < |entries| && !IsFresh(entries[j], now)
    ensures Mark(entries, entries[j].key, now).1 <==> exists i :: 0 <= i < j && IsFresh(entries[i], now)
  {
    DuplicateIffStandsFresh(entries, entries[j].key, now);
    if StandsFresh(entries, entries[j].key, now) {
      var i, k :| 0 <= i <= k < |entries| && IsFresh(entries[i], now) && entries[k].key == entries[j].key;
      assert k == j;
    }
  }

  /** One mark keeps the cap, except when the oldest key left is empty and is taken for a missing one. */
  lemma CapUnlessOldestIsEmpty(entries: seq<Entry>, key: string, now: int)
    requires |entries| <= MAX_KEYS
    ensures
      var pruned := Prune(entries, now);
      |Mark(entries, key, now).0| <= MAX_KEYS <==>
        !(!HasKey(pruned, key) && |pruned| == MAX_KEYS && pruned[0].key == "")
  {
    PruneIsDrop(entries, now);
  }

  /** A clock that runs backwards keeps an entry past its time: pruning never gets to it. */
  lemma BackwardClockKeepsOldKeys()
    ensures
      var h := Run([Entry("a", 100), Entry("b", 0)]);
      Mark(h.entries, "b", 600050).1 && 600050 - 0 > TTL_MS
  {
    var calls := [Entry("a", 100), Entry("b", 0)];
    assert calls[..1] == [Entry("a", 100)];
    assert calls[..1][..0] == [];
    var h1 := History([Entry("a", 100)], [Entry("a", 100)]);
    assert Run(calls[..1]) == h1;
    assert !HasKey(h1.entries, "b");
    assert h1.entries + [Entry("b", 0)] == calls;
    assert Run(calls).entries == calls;
    assert calls[1].key == "b";
    assert HasKey(calls, "b");
  }
}
