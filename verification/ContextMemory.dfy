/**
 * Session memory over the event log (src/minion/runtime/context.py): which events become
 * summary lines, compaction by any number of interleaved executors, and the window of
 * recent events shown to the model.
 */
module ContextMemory {
  import opened Prelude
  import opened Events
  import opened SummaryText
  import opened Compaction
  import EventLog

  datatype Settings = Settings(threshold: nat, recentEvents: nat, maxChars: nat)

  const LINE_CHARS := 1200
  const COMPACTION_LIMIT := 10_000
  const WINDOW_LIMIT := 1000

  const REPORTED_TOOLS: set<string> :=
    {"write_file", "apply_patch", "checkpoint", "git_diff", "run_command"}

  /** Event types whose whole payload goes into the summary. */
  predicate Noted(kind: EventType) {
    kind.UserMessage? || kind.AgentMessage? || kind.ToolFailed? || kind.CheckpointCreated?
    || kind.SkillActivated? || kind.RepositoryIndexed?
  }

  function TypeName(kind: EventType): string
    requires Noted(kind)
  {
    match kind
    case UserMessage => "user.message"
    case AgentMessage => "agent.message"
    case ToolFailed => "tool.failed"
    case CheckpointCreated => "checkpoint.created"
    case SkillActivated => "skill.activated"
    case RepositoryIndexed => "repository.indexed"
  }

  function Cut(s: string, n: nat): string {
    if |s| <= n then s else s[..n]
  }

  predicate Important(e: Event) {
    Noted(e.kind) || (e.kind.ToolCompleted? && e.tool in REPORTED_TOOLS)
  }

  /** The summary line of an important event. */
  function LineOf(sequence: nat, e: Event): string
    requires Important(e)
  {
    if Noted(e.kind) then "#" + Decimal(sequence) + " " + TypeName(e.kind) + ": " + Cut(e.json, LINE_CHARS)
    else "#" + Decimal(sequence) + " tool.completed " + e.tool + ": " + Cut(e.output, LINE_CHARS)
  }

  /** Lines of the events numbered from + 1 to `end`. */
  function Lines(log: seq<Event>, from: nat, end: nat): seq<string>
    requires from <= end <= |log|
    decreases end
  {
    if from == end then []
    else Lines(log, from, end - 1) + if Important(log[end - 1]) then [LineOf(end, log[end - 1])] else []
  }

  lemma {:induction false} LinesAreLines(log: seq<Event>, from: nat, end: nat)
    requires from <= end <= |log|
    ensures AreLines(Lines(log, from, end))
    decreases end
  {
    hide Important;
    if from < end {
      LinesAreLines(log, from, end - 1);
      if Important(log[end - 1]) {
        assert IsLine(LineOf(end, log[end - 1]));
      }
    }
  }

  /** Lines of adjacent ranges are the lines of the whole range. */
  lemma {:induction false} LinesSplit(log: seq<Event>, from: nat, mid: nat, end: nat)
    requires from <= mid <= end <= |log|
    ensures Lines(log, from, mid) + Lines(log, mid, end) == Lines(log, from, end)
    decreases end
  {
    hide Important, LineOf;
    if mid < end {
      LinesSplit(log, from, mid, end - 1);
      assert Lines(log, from, mid) + (Lines(log, mid, end - 1) + if Important(log[end - 1]) then [LineOf(end, log[end - 1])] else [])
        == Lines(log, from, end);
    }
  }

  lemma {:induction false} LinesOfPrefix(a: seq<Event>, b: seq<Event>, from: nat, end: nat)
    requires a <= b && from <= end <= |a|
    ensures Lines(a, from, end) == Lines(b, from, end)
    decreases end
  {
    hide Important, LineOf;
    if from < end {
      LinesOfPrefix(a, b, from, end - 1);
    }
  }

  // ---- One compaction ----

  function Through(settings: Settings, last: nat): nat {
    if last > settings.recentEvents then last - settings.recentEvents else 0
  }

  /** Neither early return is taken. */
  predicate Due(settings: Settings, summary: string, last: nat) {
    last >= settings.threshold && Through(settings, last) > CompactedThrough(summary)
  }

  /** A compaction is due from the threshold on, when more events lie beyond the watermark than stay in view. */
  lemma DueExactly(settings: Settings, summary: string, last: nat)
    ensures Due(settings, summary, last) <==>
      last >= settings.threshold && last > CompactedThrough(summary) + settings.recentEvents
    ensures Due(settings, summary, last) ==> Through(settings, last) == last - settings.recentEvents
  {
    hide CompactedThrough;
  }

  /** End of the range that is really listed: at most 10,000 events. */
  function ListedTo(previous: nat, through: nat): nat {
    if through - previous > COMPACTION_LIMIT then previous + COMPACTION_LIMIT else through
  }

  /** The summary that a compaction leaves, from the session row it has read. */
  function Compacted(settings: Settings, log: seq<Event>, summary: string, last: nat): string
    requires last <= |log|
  {
    if !Due(settings, summary, last) then summary
    else
      var previous, through := CompactedThrough(summary), Through(settings, last);
      NewSummary(PriorBody(summary), Lines(log, previous, ListedTo(previous, through)), through)
  }

  /** The session row with its event log, as one executor works on it. */
  class ContextManager {
    const settings: Settings
    var summary: string
    var log: seq<Event>

    constructor (settings: Settings)
      ensures this.settings == settings && summary == "" && log == []
    {
      this.settings := settings;
      summary := "";
      log := [];
    }

    /** Other writers append between two statements of this executor. */
    method Interfere(arrivals: seq<Event>)
      modifies `log
      ensures log == old(log) + arrivals
    {
      log := log + arrivals;
    }

    /**
     * `maybe_compact`. The session row is read first; `arrivals` reach the log before the
     * events are listed.
     */
    method MaybeCompact(arrivals: seq<Event>)
      modifies this
      ensures summary == Compacted(settings, old(log), old(summary), |old(log)|)
      ensures if Due(settings, old(summary), |old(log)|)
        then log == old(log) + arrivals + [Plain(ContextCompacted)]
        else log == old(log)
      ensures log != old(log) <==>
        |old(log)| >= settings.threshold && |old(log)| > CompactedThrough(old(summary)) + settings.recentEvents
    {
      hide CompactedThrough, PriorBody, Nonempty, Join, Strip, Last, Marker, Important, LineOf;
      ghost var before := log;
      DueExactly(settings, summary, |log|);
      var last := |log|;
      if last < settings.threshold {
        return;
      }
      var through := if last > settings.recentEvents then last - settings.recentEvents else 0;
      var previous := CompactedThrough(summary);
      if through <= previous {
        return;
      }
      Interfere(arrivals);
      var events := EventLog.ListAfter(log, previous, COMPACTION_LIMIT);
      var important: seq<string> := [];
      var end := ListedTo(previous, through);
      var i := 0;
      while i < |events|
        invariant 0 <= i <= |events|
        invariant previous + i <= end
        invariant important == Lines(log, previous, previous + i)
      {
        if events[i].sequence > through {
          break;
        }
        if Important(events[i].event) {
          important := important + [LineOf(events[i].sequence, events[i].event)];
        }
        i := i + 1;
      }
      assert previous + i == end;
      LinesOfPrefix(before, log, previous, end);
      var merged := Last(Strip(Join(Nonempty([PriorBody(summary)] + important))), BODY_CHARS);
      summary := Strip(merged + "\n" + Marker(through));
      log := log + [Plain(ContextCompacted)];
    }

    /** The events `build_messages` shows, with no append between its reads. */
    method RecentEvents() returns (recent: seq<EventLog.Stored>)
      ensures |recent| <= settings.recentEvents && |recent| <= 1000
      ensures forall i :: 0 <= i < |recent| ==>
        && CompactedThrough(summary) < recent[i].sequence <= |log|
        && recent[i].event == log[recent[i].sequence - 1]
      ensures forall i :: 0 < i < |recent| ==> recent[i].sequence == recent[i - 1].sequence + 1
      ensures |log| <= Floor(settings, log, summary) + 1000 ==>
        forall n :: Floor(settings, log, summary) < n <= |log| ==> EventLog.Listed(recent, n)
      ensures recent == Window(settings, log, summary)
    {
      hide CompactedThrough;
      WindowIsSuffixExactly(settings, log, summary);
      WindowLists(settings, log, summary);
      var compacted := CompactedThrough(summary);
      var floor := if |log| > settings.recentEvents then |log| - settings.recentEvents else 0;
      floor := if compacted > floor then compacted else floor;
      recent := EventLog.ListAfter(log, floor, WINDOW_LIMIT);
    }
  }

  // ---- The recent window ----

  function Floor(settings: Settings, log: seq<Event>, summary: string): nat {
    var floor := Through(settings, |log|);
    if CompactedThrough(summary) > floor then CompactedThrough(summary) else floor
  }

  function Window(settings: Settings, log: seq<Event>, summary: string): seq<EventLog.Stored> {
    EventLog.ListAfter(log, Floor(settings, log, summary), WINDOW_LIMIT)
  }

  /**
   * The window holds no compacted event, is contiguous and never longer than the setting;
   * it is the end of the log exactly when at most 1000 events lie beyond its floor, and it
   * meets the summary without a hole exactly when the watermark is not behind the floor.
   */
  lemma WindowIsSuffixExactly(settings: Settings, log: seq<Event>, summary: string)
    ensures var floor, window := Floor(settings, log, summary), Window(settings, log, summary);
      && |window| <= settings.recentEvents && |window| <= 1000
      && floor >= CompactedThrough(summary) && floor + settings.recentEvents >= |log|
      && (floor == CompactedThrough(summary) || floor + settings.recentEvents == |log|)
      && (forall i :: 0 <= i < |window| ==>
            && window[i] == EventLog.Stored(floor + i + 1, log[floor + i])
            && window[i].sequence > CompactedThrough(summary))
      && (floor + |window| >= |log| <==> |log| <= floor + 1000)
      && (floor == CompactedThrough(summary) <==> Through(settings, |log|) <= CompactedThrough(summary))
  {
    hide CompactedThrough;
  }

  /** A window that is not cut off lists every event beyond its floor. */
  lemma WindowLists(settings: Settings, log: seq<Event>, summary: string)
    ensures |log| <= Floor(settings, log, summary) + WINDOW_LIMIT ==>
      forall n :: Floor(settings, log, summary) < n <= |log| ==> EventLog.Listed(Window(settings, log, summary), n)
  {
    hide CompactedThrough;
    var floor, window := Floor(settings, log, summary), Window(settings, log, summary);
    if |log| <= floor + WINDOW_LIMIT {
      forall n | floor < n <= |log| ensures EventLog.Listed(window, n) {
        assert window[n - floor - 1].sequence == n;
      }
    }
  }

  const ELISION := "\n...[middle context elided]...\n"

  /** The budget applied to the user message. */
  function Elided(settings: Settings, user: string): string {
    if |user| <= settings.maxChars then user
    else
      var tail := settings.maxChars / 2;
      user[..settings.maxChars - tail] + ELISION + if tail == 0 then user else user[|user| - tail..]
  }

  /** An oversized text is cut to the budget exactly when the budget is at least 2. */
  lemma PromptIsBounded(settings: Settings, user: string)
    ensures |user| <= settings.maxChars ==> Elided(settings, user) == user
    ensures |user| > settings.maxChars ==>
      (|Elided(settings, user)| == settings.maxChars + |ELISION| <==> settings.maxChars >= 2)
  {
  }

  /** What an oversized text is cut to: its two halves of the budget with a mark in between. */
  lemma PromptKeepsBothEnds(settings: Settings, user: string)
    requires |user| > settings.maxChars
    ensures var (e, k) := (Elided(settings, user), (settings.maxChars + 1) / 2);
      && k <= |e| && e[..k] == user[..k]
      && (settings.maxChars >= 2 ==>
            var j := settings.maxChars - k;
            && (j == k || j == k - 1) && e[|e| - j..] == user[|user| - j..]
            && e[k..|e| - j] == "\n...[middle context elided]...\n")
      && (settings.maxChars < 2 ==> e[k..] == "\n...[middle context elided]...\n" + user)
  {
    var tail := settings.maxChars / 2;
    var k := settings.maxChars - tail;
    assert k == (settings.maxChars + 1) / 2;
    var e := Elided(settings, user);
    if tail == 0 {
      assert e == user[..k] + (ELISION + user);
    } else {
      assert e == user[..k] + ELISION + user[|user| - tail..];
    }
  }
}
