/**
 * Readers of the event log: a polling cursor over `list_after` (src/minion/events.py) and
 * the WebSocket that replays and then follows live messages (src/minion/api.py).
 */
module Replay {
  import opened Events
  import opened EventLog

  // ---- Polling ----

  /** One poll: the log as it is at that moment and the page size asked for. */
  datatype Poll = Poll(log: seq<Event>, limit: nat)

  /** The log only grows between polls. */
  ghost predicate Growing(polls: seq<Poll>) {
    forall i, j :: 0 <= i < j < |polls| && j == i + 1 ==> Extends(polls[i], polls[j])
  }

  predicate Extends(a: Poll, b: Poll) {
    a.log <= b.log
  }

  function NextCursor(cursor: nat, page: seq<Stored>): int {
    if page == [] then cursor else page[|page| - 1].sequence
  }

  /** Cursor after polling, starting from `start` and continuing from the last row returned. */
  function Cursor(start: nat, polls: seq<Poll>): (c: nat)
    ensures c >= start
    ensures polls != [] && start <= |polls[0].log| && Growing(polls) ==> c <= |polls[|polls| - 1].log|
  {
    hide Growing;
    if polls == [] then start
    else
      var n := |polls| - 1;
      GrowingPrefix(polls);
      var c := Cursor(start, polls[..n]);
      PageOf(polls[n].log, c, polls[n].limit);
      NextCursor(c, ListAfter(polls[n].log, c, polls[n].limit))
  }

  /** All pages returned, one after another. */
  function Pages(start: nat, polls: seq<Poll>): seq<Stored> {
    if polls == [] then []
    else
      var n := |polls| - 1;
      Pages(start, polls[..n]) + ListAfter(polls[n].log, Cursor(start, polls[..n]), polls[n].limit)
  }

  lemma GrowingPrefix(polls: seq<Poll>)
    requires polls != []
    ensures Growing(polls) ==> Growing(polls[..|polls| - 1])
    ensures Growing(polls) && |polls| > 1 ==> polls[|polls| - 2].log <= polls[|polls| - 1].log
  {
    if Growing(polls) {
      var p := polls[..|polls| - 1];
      forall i, j | 0 <= i < j < |p| && j == i + 1 ensures Extends(p[i], p[j]) {
        assert Extends(polls[i], polls[j]);
      }
      if |polls| > 1 {
        assert Extends(polls[|polls| - 2], polls[|polls| - 1]);
      }
    }
  }

  /** One page starts right after the cursor and ends at the new one. */
  lemma PageOf(log: seq<Event>, cursor: nat, limit: nat)
    ensures var page := ListAfter(log, cursor, limit);
      && cursor <= NextCursor(cursor, page)
      && (cursor <= |log| ==> NextCursor(cursor, page) <= |log| && page == Numbered(log, cursor, NextCursor(cursor, page)))
      && (cursor < |log| && limit > 0 ==> cursor < NextCursor(cursor, page))
      && (|page| < limit && cursor <= |log| ==> NextCursor(cursor, page) == |log|)
  {
  }

  /**
   * Polling from the last returned sequence while others append yields every event between
   * the first and the last cursor exactly once and in order, whatever the page sizes.
   */
  lemma {:induction false} PollingIsExact(start: nat, polls: seq<Poll>)
    requires polls != [] && Growing(polls) && start <= |polls[0].log|
    ensures var log := polls[|polls| - 1].log;
      && Cursor(start, polls) <= |log|
      && Pages(start, polls) == Numbered(log, start, Cursor(start, polls))
  {
    hide Growing, ListAfter, Numbered;
    var n := |polls| - 1;
    GrowingPrefix(polls);
    var log, c := polls[n].log, Cursor(start, polls[..n]);
    PageOf(log, c, polls[n].limit);
    if n == 0 {
      assert polls[..0] == [];
      assert Pages(start, polls[..0]) == [] && c == start;
    } else {
      PollingIsExact(start, polls[..n]);
      NumberedExtends(polls[n - 1].log, log, start, c);
      NumberedSplits(log, start, c, Cursor(start, polls));
    }
  }

  lemma NumberedExtends(a: seq<Event>, b: seq<Event>, from: nat, to: nat)
    requires a <= b && from <= to <= |a|
    ensures Numbered(a, from, to) == Numbered(b, from, to)
  {
  }

  lemma NumberedSplits(log: seq<Event>, from: nat, mid: nat, to: nat)
    requires from <= mid <= to <= |log|
    ensures Numbered(log, from, mid) + Numbered(log, mid, to) == Numbered(log, from, to)
  {
  }

  /** A poll with a positive limit makes progress until the cursor is at the end of the log. */
  lemma PollingAdvances(start: nat, polls: seq<Poll>)
    requires polls != [] && Growing(polls) && start <= |polls[0].log|
    ensures var n, log := |polls| - 1, polls[|polls| - 1].log;
      polls[n].limit > 0 && Cursor(start, polls[..n]) < |log| ==>
        Cursor(start, polls[..n]) < Cursor(start, polls) <= |log|
  {
    hide Growing;
    var n := |polls| - 1;
    PageOf(polls[n].log, Cursor(start, polls[..n]), polls[n].limit);
  }

  // ---- The WebSocket ----

  const REPLAY_LIMIT := 500

  ghost predicate Increasing(sent: seq<Stored>, after: int) {
    && (forall i :: 0 <= i < |sent| ==> after < sent[i].sequence)
    && (forall i, j :: 0 <= i < j < |sent| ==> sent[i].sequence < sent[j].sequence)
  }

  /** Larger than the cursor, every replayed row and every live message before it. */
  ghost predicate Highest(after: int, replay: seq<Stored>, live: seq<Stored>, i: nat)
    requires i < |live|
  {
    && after < live[i].sequence
    && (forall j :: 0 <= j < |replay| ==> replay[j].sequence < live[i].sequence)
    && (forall j :: 0 <= j < i ==> live[j].sequence < live[i].sequence)
  }

  /** The live messages that go out: those larger than everything before them. */
  ghost function Records(after: int, replay: seq<Stored>, live: seq<Stored>): seq<Stored> {
    if live == [] then []
    else
      var n := |live| - 1;
      Records(after, replay, live[..n]) + if Highest(after, replay, live, n) then [live[n]] else []
  }

  ghost predicate AtMost(sent: seq<Stored>, top: int) {
    forall i :: 0 <= i < |sent| ==> sent[i].sequence <= top
  }

  /**
   * The delivery loop, for any live input: lost, duplicated or reordered messages included.
   * What is sent strictly increases above `after`, and a live message is sent exactly when
   * its sequence is the highest so far.
   */
  method TaskEvents(log: seq<Event>, after: int, live: seq<Stored>) returns (sent: seq<Stored>)
    ensures Increasing(sent, after)
    ensures var replay := ListAfter(log, after, REPLAY_LIMIT);
      sent == replay + Records(after, replay, live)
  {
    hide ListAfter, Highest, Records, Increasing, AtMost;
    var replay := ListAfter(log, after, REPLAY_LIMIT);
    PageIncreases(log, after, REPLAY_LIMIT);
    var last := after;
    sent := [];
    for i := 0 to |replay|
      invariant sent == replay[..i]
      invariant last == if i == 0 then after else replay[i - 1].sequence
    {
      PageStep(log, after, REPLAY_LIMIT, i);
      sent := sent + [replay[i]];
      last := if replay[i].sequence > last then replay[i].sequence else last;
    }
    assert sent == replay;
    LastIsTop(log, after, REPLAY_LIMIT);
    NothingLive(after, replay, live);
    for i := 0 to |live|
      invariant sent == replay + Records(after, replay, live[..i])
      invariant Increasing(sent, after)
      invariant after <= last && AtMost(sent, last) && AtMost(live[..i], last) && AtMost(replay, last)
      invariant last == after || Reaches(replay, last) || Reaches(live[..i], last)
    {
      LiveStep(after, replay, live, i, last, sent);
      if live[i].sequence <= last {
        continue;
      }
      sent := sent + [live[i]];
      last := live[i].sequence;
    }
    assert live[..|live|] == live;
  }

  ghost predicate Reaches(sent: seq<Stored>, top: int) {
    exists i :: 0 <= i < |sent| && sent[i].sequence == top
  }

  lemma PageIncreases(log: seq<Event>, after: int, limit: nat)
    ensures Increasing(ListAfter(log, after, limit), after)
  {
  }

  lemma PageStep(log: seq<Event>, after: int, limit: nat, i: nat)
    requires i < |ListAfter(log, after, limit)|
    ensures var page := ListAfter(log, after, limit);
      page[i].sequence > if i == 0 then after else page[i - 1].sequence
  {
  }

  lemma LastIsTop(log: seq<Event>, after: int, limit: nat)
    ensures var page := ListAfter(log, after, limit);
      var last := if page == [] then after else page[|page| - 1].sequence;
      after <= last && AtMost(page, last) && (last == after || Reaches(page, last))
  {
    var page := ListAfter(log, after, limit);
    if page != [] {
      assert page[|page| - 1].sequence == page[|page| - 1].sequence;
    }
  }

  lemma NothingLive(after: int, replay: seq<Stored>, live: seq<Stored>)
    ensures live[..0] == [] && Records(after, replay, live[..0]) == []
    ensures forall top :: AtMost(live[..0], top)
  {
  }

  lemma LiveStep(after: int, replay: seq<Stored>, live: seq<Stored>, i: nat, last: int, sent: seq<Stored>)
    requires i < |live| && Increasing(sent, after) && AtMost(sent, last)
    requires after <= last && AtMost(live[..i], last) && AtMost(replay, last)
    requires last == after || Reaches(replay, last) || Reaches(live[..i], last)
    ensures Records(after, replay, live[..i + 1]) ==
      Records(after, replay, live[..i]) + if live[i].sequence <= last then [] else [live[i]]
    ensures live[i].sequence <= last ==>
      AtMost(live[..i + 1], last) && (Reaches(live[..i], last) ==> Reaches(live[..i + 1], last))
    ensures live[i].sequence > last ==>
      && Increasing(sent + [live[i]], after) && AtMost(sent + [live[i]], live[i].sequence)
      && AtMost(live[..i + 1], live[i].sequence) && Reaches(live[..i + 1], live[i].sequence)
      && AtMost(replay, live[i].sequence)
  {
    var seen := live[..i + 1];
    assert seen[..i] == live[..i];
    assert seen[i] == live[i];
    HighestIsAbove(after, replay, live, i, last);
    assert Highest(after, replay, seen, i) <==> Highest(after, replay, live, i);
    assert Reaches(live[..i], last) ==> Reaches(seen, last) by {
      if Reaches(live[..i], last) {
        var j :| 0 <= j < i && live[..i][j].sequence == last;
        assert seen[j].sequence == last;
      }
    }
  }

  lemma HighestIsAbove(after: int, replay: seq<Stored>, live: seq<Stored>, i: nat, last: int)
    requires i < |live|
    requires after <= last && AtMost(live[..i], last) && AtMost(replay, last)
    requires last == after || Reaches(replay, last) || Reaches(live[..i], last)
    ensures Highest(after, replay, live, i) <==> live[i].sequence > last
  {
    if live[i].sequence > last {
      forall j | 0 <= j < i ensures live[j].sequence < live[i].sequence {
        assert live[..i][j].sequence <= last;
      }
    } else if Reaches(live[..i], last) {
      var j :| 0 <= j < i && live[..i][j].sequence == last;
      assert live[j].sequence == last;
    }
  }

  /**
   * With live messages in order from event `first + 1` on, the client sees the whole log
   * beyond its cursor if and only if the replayed page reaches up to the first live message.
   * The page ends at the log as queried, or 500 events after the cursor.
   */
  lemma WebSocketIsGapFreeExactly(log: seq<Event>, queried: nat, first: nat, after: nat)
    requires after <= queried <= |log| && first <= |log|
    ensures var replay := ListAfter(log[..queried], after, REPLAY_LIMIT);
      var sent := replay + Records(after, replay, Numbered(log, first, |log|));
      sent == Numbered(log, after, |log|) <==> first <= queried && first <= after + 500
  {
    hide Records;
    var page := Clamp(after + REPLAY_LIMIT, 0, queried);
    var replay := ListAfter(log[..queried], after, REPLAY_LIMIT);
    assert replay == Numbered(log, after, page);
    RecordsOfLive(log, after, page, first, |log|);
    if first <= page {
      NumberedSplits(log, after, page, |log|);
    }
  }

  /**
   * A client more than 500 events behind gets the next 500 and then what is live: the event
   * right after the replayed page, and all others up to the first live one, never reach it.
   */
  lemma LongBacklogIsCut(log: seq<Event>, first: nat, after: nat)
    requires after + 500 < first <= |log|
    ensures var replay := ListAfter(log[..first], after, REPLAY_LIMIT);
      var sent := replay + Records(after, replay, Numbered(log, first, |log|));
      && sent == Numbered(log, after, after + 500) + Numbered(log, first, |log|)
      && sent != Numbered(log, after, |log|)
      && forall i :: 0 <= i < |sent| ==> sent[i].sequence <= after + 500 || first < sent[i].sequence
  {
    hide Records;
    var replay := ListAfter(log[..first], after, REPLAY_LIMIT);
    assert replay == Numbered(log, after, after + REPLAY_LIMIT);
    RecordsOfLive(log, after, after + REPLAY_LIMIT, first, |log|);
  }

  /** Of an in-order feed, what goes out is the part beyond the replayed page. */
  lemma {:induction false} RecordsOfLive(log: seq<Event>, after: nat, page: nat, first: nat, to: nat)
    requires after <= page <= |log| && first <= to <= |log|
    ensures var from := Clamp(page, first, to);
      Records(after, Numbered(log, after, page), Numbered(log, first, to)) == Numbered(log, from, to)
  {
    hide Highest;
    if first < to {
      RecordsOfLive(log, after, page, first, to - 1);
      var replay, live := Numbered(log, after, page), Numbered(log, first, to);
      assert live[..to - first - 1] == Numbered(log, first, to - 1);
      NextIsRecord(log, after, page, first, to);
    }
  }

  lemma NextIsRecord(log: seq<Event>, after: nat, page: nat, first: nat, to: nat)
    requires after <= page <= |log| && first < to <= |log|
    ensures Highest(after, Numbered(log, after, page), Numbered(log, first, to), to - first - 1) <==> page < to
  {
    var replay := Numbered(log, after, page);
    if after < page {
      assert replay[page - after - 1].sequence == page;
    }
  }
}
