/**
 * Compaction by several executors of one task (src/minion/runtime/context.py,
 * `maybe_compact`): each reads the session row, lists events and later overwrites the
 * summary, with no version check, while anybody appends.
 */
module CompactionRuns {
  import opened Events
  import opened SummaryText
  import opened Compaction
  import opened ContextMemory

  /** What an executor read of the session row before it lists and writes. */
  datatype Draft = Draft(summary: string, last: nat)

  datatype Memory = Memory(log: seq<Event>, summary: string, drafts: map<nat, Draft>)

  datatype Step =
    | Append(event: Event)
    | ReadSession(executor: nat)
    | Store(executor: nat)

  const INITIAL := Memory([], "", map[])

  predicate Enabled(m: Memory, step: Step) {
    step.Store? ==> step.executor in m.drafts && m.drafts[step.executor].last <= |m.log|
  }

  function Apply(settings: Settings, m: Memory, step: Step): Memory
    requires Enabled(m, step)
  {
    match step
    case Append(e) => m.(log := m.log + [e])
    case ReadSession(c) => m.(drafts := m.drafts[c := Draft(m.summary, |m.log|)])
    case Store(c) =>
      var d := m.drafts[c];
      Memory(m.log,
             if Due(settings, d.summary, d.last) then Compacted(settings, m.log, d.summary, d.last) else m.summary,
             map x | x in m.drafts && x != c :: m.drafts[x])
  }

  ghost predicate Follows(settings: Settings, m: Memory, step: Step, n: Memory) {
    Enabled(m, step) && n == Apply(settings, m, step)
  }

  ghost predicate IsRun(settings: Settings, run: seq<Memory>, steps: seq<Step>) {
    && |run| == |steps| + 1
    && run[0] == INITIAL
    && forall i, j :: 0 <= i < j < |run| && j == i + 1 ==> Follows(settings, run[i], steps[i], run[j])
  }

  /** A line with no marker of its own and no white space at its end. */
  ghost predicate TidyLine(line: string) {
    !HasMarker(line) && EndsTight(line)
  }

  ghost predicate TidyEvent(sequence: nat, e: Event) {
    Important(e) ==> TidyLine(LineOf(sequence, e))
  }

  ghost predicate TidyLog(log: seq<Event>) {
    forall i :: 0 <= i < |log| ==> TidyEvent(i + 1, log[i])
  }

  /** No important event of the range lies beyond the 10,000 that are listed. */
  ghost predicate Lossless(settings: Settings, m: Memory, step: Step)
    requires Enabled(m, step)
  {
    step.Store? && Due(settings, m.drafts[step.executor].summary, m.drafts[step.executor].last) ==>
      var d := m.drafts[step.executor];
      var previous, through := CompactedThrough(d.summary), Through(settings, d.last);
      Lines(m.log, ListedTo(previous, through), through) == []
  }

  /** The summary that compacting events 1..w in one go leaves. */
  function SummaryAt(log: seq<Event>, w: nat): string
    requires w <= |log|
  {
    if w == 0 then "" else Stamped(Kept(Merged("", Lines(log, 0, w))), w)
  }

  ghost predicate Canonical(settings: Settings, log: seq<Event>, summary: string, last: nat) {
    exists w :: 0 <= w <= Through(settings, last) && w <= |log| && IsAt(log, summary, w)
  }

  predicate IsAt(log: seq<Event>, summary: string, w: nat)
    requires w <= |log|
  {
    summary == SummaryAt(log, w) && CompactedThrough(summary) == w
  }

  ghost predicate Sound(settings: Settings, m: Memory) {
    && Canonical(settings, m.log, m.summary, |m.log|)
    && forall c :: c in m.drafts ==>
         m.drafts[c].last <= |m.log| && Canonical(settings, m.log, m.drafts[c].summary, m.drafts[c].last)
  }

  // ---- One compaction of a canonical summary ----

  lemma {:induction false} TidyLines(log: seq<Event>, from: nat, end: nat)
    requires TidyLog(log) && from <= end <= |log|
    ensures AreLines(Lines(log, from, end)) && Unmarked(Lines(log, from, end)) && AllTidy([Lines(log, from, end)])
    decreases end
  {
    hide Important, LineOf, HasMarker, EndsTight, IsLine;
    LinesAreLines(log, from, end);
    if from < end {
      TidyLines(log, from, end - 1);
      var rest := Lines(log, from, end - 1);
      assert AllTidy([rest]);
      assert forall j :: 0 <= j < |rest| ==> EndsTight([rest][0][j]);
      assert TidyEvent(end, log[end - 1]);
    }
  }

  /** Merging tidy lines in two steps is merging them in one. */
  lemma MergeInSteps(a: seq<string>, b: seq<string>)
    requires AreLines(a) && AreLines(b) && AllTidy([a]) && AllTidy([b])
    ensures Merged(Merged("", a), b) == Merged("", a + b)
  {
    hide Merged, RStrip, Join, Added, IsSpace, IsLine;
    assert EndsTight("") && StartsTight("");
    MergedIsTight("", a);
    MergedIs("", a);
    MergedIs(Merged("", a), b);
    MergedIs("", a + b);
    if a == [] {
      assert [] + b == b;
      JoinOfOne("");
      BlankIsStripped("");
      MergedIs("", b);
    } else if b == [] {
      assert a + [] == a;
    } else {
      JoinSplits(a, b);
      JoinStarts(a);
      AddedStarts(b);
      RStripTail(Join(a), Added(b));
      JoinEndsTight(a);
      AddedEndsAsJoin(a);
    }
  }

  lemma JoinEndsTight(lines: seq<string>)
    requires lines != [] && AreLines(lines) && AllTidy([lines])
    ensures EndsTight(Join(lines))
  {
    hide Join, EndsTight;
    assert EndsTight([lines][0][|lines| - 1]);
    EndOfJoin(lines);
  }

  lemma SummaryAtParses(log: seq<Event>, w: nat)
    requires TidyLog(log) && w <= |log|
    ensures IsAt(log, SummaryAt(log, w), w)
    ensures PriorBody(SummaryAt(log, w)) == Kept(Merged("", Lines(log, 0, w)))
  {
    hide Merged, HasMarker, PriorBody, Kept, Stamped, IsLine, FirstFrom, Lines;
    if w == 0 {
      EmptySummary();
      EmptyMerge(log);
    } else {
      var lines := Lines(log, 0, w);
      TidyLines(log, 0, w);
      EmptyHasNoMarker();
      MergingMakesNoMarker("", lines);
      WatermarkParsesExactly(Kept(Merged("", lines)), w);
      MergedIsTight("", lines);
      KeptIsTight(Merged("", lines));
      BodyIsRecovered(Kept(Merged("", lines)), w);
    }
  }

  lemma EmptySummary()
    ensures CompactedThrough("") == 0 && PriorBody("") == "" && Kept("") == ""
  {
  }

  lemma EmptyMerge(log: seq<Event>)
    ensures Merged("", Lines(log, 0, 0)) == ""
  {
    MergedIs("", []);
  }

  /** Compacting a canonical summary gives the canonical summary of the new watermark. */
  lemma CompactionIsCanonical(settings: Settings, log: seq<Event>, w: nat, last: nat)
    requires TidyLog(log) && w <= |log| && last <= |log|
    requires Due(settings, SummaryAt(log, w), last)
    requires w < Through(settings, last) && Lines(log, ListedTo(w, Through(settings, last)), Through(settings, last)) == []
    ensures Compacted(settings, log, SummaryAt(log, w), last) == SummaryAt(log, Through(settings, last))
  {
    hide Merged, PriorBody, Kept, Stamped, AreLines, EndsTight, StartsTight, CompactedThrough, NewSummary, Lines;
    hide SummaryAt, TidyLog, AllTidy, Unmarked;
    var through := Through(settings, last);
    var listed := Lines(log, w, ListedTo(w, through));
    SummaryAtParses(log, w);
    LinesSplit(log, w, ListedTo(w, through), through);
    assert listed + [] == listed;
    LinesSplit(log, 0, w, through);
    TidyLines(log, 0, w);
    TidyLines(log, w, through);
    var done := Lines(log, 0, w);
    MergeInSteps(done, listed);
    MergedIsTight("", done);
    StepKeeps(Merged("", done), listed);
    NewSummaryIsStamped(Kept(Merged("", done)), listed, through);
    SummaryAtIs(log, through);
  }

  lemma SummaryAtIs(log: seq<Event>, w: nat)
    requires 0 < w <= |log|
    ensures SummaryAt(log, w) == Stamped(Kept(Merged("", Lines(log, 0, w))), w)
  {
  }

  // ---- Every interleaving ----

  lemma CanonicalGrows(settings: Settings, log: seq<Event>, more: seq<Event>, summary: string, last: nat)
    requires Canonical(settings, log, summary, last)
    ensures Canonical(settings, log + more, summary, last)
  {
    hide CompactedThrough, Merged, Kept, Stamped, Lines;
    var w :| 0 <= w <= Through(settings, last) && w <= |log| && IsAt(log, summary, w);
    LinesOfPrefix(log, log + more, 0, w);
    assert IsAt(log + more, summary, w);
  }

  lemma CanonicalLater(settings: Settings, log: seq<Event>, summary: string, last: nat, later: nat)
    requires Canonical(settings, log, summary, last) && last <= later
    ensures Canonical(settings, log, summary, later)
  {
    hide IsAt;
    var w :| 0 <= w <= Through(settings, last) && w <= |log| && IsAt(log, summary, w);
    assert 0 <= w <= Through(settings, later) && w <= |log| && IsAt(log, summary, w);
  }

  lemma StoreIsCanonical(settings: Settings, m: Memory, c: nat)
    requires Sound(settings, m) && TidyLog(m.log) && Enabled(m, Store(c)) && Lossless(settings, m, Store(c))
    ensures var d := m.drafts[c];
      && Canonical(settings, m.log, d.summary, d.last)
      && (Due(settings, d.summary, d.last) ==>
            && CompactedThrough(d.summary) < Through(settings, d.last) <= |m.log|
            && Compacted(settings, m.log, d.summary, d.last) == SummaryAt(m.log, Through(settings, d.last))
            && CompactedThrough(Compacted(settings, m.log, d.summary, d.last)) == Through(settings, d.last)
            && Canonical(settings, m.log, Compacted(settings, m.log, d.summary, d.last), |m.log|))
  {
    hide CompactedThrough, SummaryAt, Lines, Compacted, ListedTo, TidyLog;
    var d := m.drafts[c];
    var w :| 0 <= w <= Through(settings, d.last) && w <= |m.log| && IsAt(m.log, d.summary, w);
    if Due(settings, d.summary, d.last) {
      CompactionIsCanonical(settings, m.log, w, d.last);
      SummaryAtParses(m.log, Through(settings, d.last));
      assert IsAt(m.log, SummaryAt(m.log, Through(settings, d.last)), Through(settings, d.last));
    }
  }

  lemma StepIsSound(settings: Settings, m: Memory, step: Step)
    requires Sound(settings, m) && TidyLog(m.log) && Enabled(m, step) && Lossless(settings, m, step)
    ensures Sound(settings, Apply(settings, m, step))
  {
    hide Canonical, TidyLog, Due, Compacted, CompactedThrough, Lines, ListedTo;
    match step {
      case Append(e) => AppendIsSound(settings, m, e);
      case ReadSession(c) =>
      case Store(c) => StoreIsCanonical(settings, m, c);
    }
  }

  lemma AppendIsSound(settings: Settings, m: Memory, e: Event)
    requires Sound(settings, m)
    ensures Sound(settings, m.(log := m.log + [e]))
  {
    hide Canonical;
    CanonicalGrows(settings, m.log, [e], m.summary, |m.log|);
    CanonicalLater(settings, m.log + [e], m.summary, |m.log|, |m.log| + 1);
    forall c | c in m.drafts ensures Canonical(settings, m.log + [e], m.drafts[c].summary, m.drafts[c].last) {
      CanonicalGrows(settings, m.log, [e], m.drafts[c].summary, m.drafts[c].last);
    }
  }

  /** Every step of the run keeps the log tidy and drops no important event. */
  ghost predicate Proper(settings: Settings, run: seq<Memory>, steps: seq<Step>)
    requires IsRun(settings, run, steps)
  {
    && TidyLog(run[|steps|].log)
    && forall i :: 0 <= i < |steps| ==> Harmless(settings, run[i], steps[i])
  }

  ghost predicate Harmless(settings: Settings, m: Memory, step: Step) {
    Enabled(m, step) && Lossless(settings, m, step)
  }

  lemma {:induction false} LogGrows(settings: Settings, run: seq<Memory>, steps: seq<Step>, i: nat, j: nat)
    requires IsRun(settings, run, steps) && i <= j < |run|
    ensures run[i].log <= run[j].log
    decreases j
  {
    hide Enabled, Due, Compacted;
    if i < j {
      LogGrows(settings, run, steps, i, j - 1);
      assert Follows(settings, run[j - 1], steps[j - 1], run[j]);
    }
  }

  lemma TidyPrefix(a: seq<Event>, b: seq<Event>)
    requires a <= b && TidyLog(b)
    ensures TidyLog(a)
  {
    hide TidyEvent;
    forall i | 0 <= i < |a| ensures TidyEvent(i + 1, a[i]) {
      assert TidyEvent(i + 1, b[i]);
    }
  }

  lemma {:induction false} RunIsSound(settings: Settings, run: seq<Memory>, steps: seq<Step>, i: nat)
    requires IsRun(settings, run, steps) && Proper(settings, run, steps) && i < |run|
    ensures Sound(settings, run[i]) && TidyLog(run[i].log)
  {
    hide Sound, TidyLog, Apply, Enabled, Lossless;
    LogGrows(settings, run, steps, i, |steps|);
    TidyPrefix(run[i].log, run[|steps|].log);
    if i == 0 {
      InitialIsSound(settings);
    } else {
      RunIsSound(settings, run, steps, i - 1);
      assert Follows(settings, run[i - 1], steps[i - 1], run[i]);
      assert Harmless(settings, run[i - 1], steps[i - 1]);
      StepIsSound(settings, run[i - 1], steps[i - 1]);
    }
  }

  lemma InitialIsSound(settings: Settings)
    ensures Sound(settings, INITIAL)
  {
    hide CompactedThrough, SummaryAt;
    SummaryAtParses([], 0);
    assert SummaryAt([], 0) == "" by { EmptyAt(); }
    assert 0 <= 0 <= Through(settings, 0) && 0 <= |INITIAL.log| && IsAt(INITIAL.log, INITIAL.summary, 0);
  }

  lemma EmptyAt()
    ensures SummaryAt([], 0) == ""
  {
  }

  /**
   * In every reachable state, whatever appends, reads and overwriting stores of any number
   * of executors came before, the summary is the one-shot summary of the events up to the
   * watermark it shows, and that watermark leaves the recent events out.
   */
  lemma SummaryDependsOnWatermarkOnly(settings: Settings, run: seq<Memory>, steps: seq<Step>, i: nat)
    requires IsRun(settings, run, steps) && Proper(settings, run, steps) && i < |run|
    ensures var m := run[i];
      && CompactedThrough(m.summary) <= Through(settings, |m.log|) <= |m.log|
      && m.summary == SummaryAt(m.log, CompactedThrough(m.summary))
  {
    hide CompactedThrough, SummaryAt, TidyLog;
    RunIsSound(settings, run, steps, i);
    var m := run[i];
    var w :| 0 <= w <= Through(settings, |m.log|) && w <= |m.log| && IsAt(m.log, m.summary, w);
  }

  // ---- Overlapping compactions ----

  /** A step that stores works on the watermark that is still the current one. */
  predicate OnCurrent(settings: Settings, m: Memory, step: Step) {
    RangeOf(settings, m, step) != [] ==>
      CompactedThrough(m.drafts[step.executor].summary) == CompactedThrough(m.summary)
  }

  /** Every executor between its read and its store has read the current summary. */
  ghost predicate UpToDate(m: Memory) {
    forall c :: c in m.drafts ==> m.drafts[c].summary == m.summary
  }

  /** A due store leaves the watermark its draft aimed at, and so lowers it exactly when that is below the one shown. */
  lemma WatermarkFallsExactly(settings: Settings, m: Memory, c: nat)
    requires Sound(settings, m) && TidyLog(m.log) && Harmless(settings, m, Store(c))
    requires Due(settings, m.drafts[c].summary, m.drafts[c].last)
    ensures var after := CompactedThrough(Apply(settings, m, Store(c)).summary);
      && after == Through(settings, m.drafts[c].last)
      && (after < CompactedThrough(m.summary) <==> Through(settings, m.drafts[c].last) < CompactedThrough(m.summary))
  {
    hide CompactedThrough, Compacted, Lines, ListedTo, TidyLog, Canonical, SummaryAt, Due;
    StoreIsCanonical(settings, m, c);
  }

  /** Ranges of events the run has compacted, in order. */
  function Ranges(settings: Settings, run: seq<Memory>, steps: seq<Step>): seq<(nat, nat)>
    requires |run| == |steps| + 1
  {
    if steps == [] then []
    else
      var n := |steps| - 1;
      Ranges(settings, run[..n + 1], steps[..n]) + RangeOf(settings, run[n], steps[n])
  }

  /** The range (previous, through] a step compacts, if it stores a summary. */
  function RangeOf(settings: Settings, m: Memory, step: Step): seq<(nat, nat)> {
    if step.Store? && step.executor in m.drafts && Due(settings, m.drafts[step.executor].summary, m.drafts[step.executor].last)
    then [(CompactedThrough(m.drafts[step.executor].summary), Through(settings, m.drafts[step.executor].last))]
    else []
  }

  /** Consecutive, disjoint, nonempty ranges that cover (0, end]. */
  predicate Tiles(ranges: seq<(nat, nat)>, end: nat) {
    if ranges == [] then end == 0
    else
      var last := ranges[|ranges| - 1];
      last.0 < last.1 == end && Tiles(ranges[..|ranges| - 1], last.0)
  }

  /** A step that stores moves the watermark to the end of its range, any other leaves it. */
  lemma StepEnds(settings: Settings, m: Memory, step: Step)
    requires Sound(settings, m) && TidyLog(m.log) && Harmless(settings, m, step)
    ensures var after := CompactedThrough(Apply(settings, m, step).summary);
      var r := RangeOf(settings, m, step);
      if r == [] then after == CompactedThrough(m.summary)
      else |r| == 1 && r[0].0 < r[0].1 == after
  {
    hide CompactedThrough, Compacted, Lines, ListedTo, TidyLog, Canonical, SummaryAt;
    if step.Store? {
      StoreIsCanonical(settings, m, step.executor);
    }
  }

  /** Where the last compacted range ends. */
  function LastEnd(ranges: seq<(nat, nat)>): nat {
    if ranges == [] then 0 else ranges[|ranges| - 1].1
  }

  lemma TilesEnd(ranges: seq<(nat, nat)>, end: nat)
    requires Tiles(ranges, end)
    ensures LastEnd(ranges) == end
  {
  }

  /** The watermark is the end of the last range, overlaps or not. */
  lemma {:induction false} LastRangeEndsAtWatermark(settings: Settings, run: seq<Memory>, steps: seq<Step>)
    requires IsRun(settings, run, steps) && Proper(settings, run, steps)
    ensures LastEnd(Ranges(settings, run, steps)) == CompactedThrough(run[|steps|].summary)
    decreases |steps|
  {
    hide Sound, TidyLog, Apply, Enabled, Lossless, RangeOf, CompactedThrough;
    if steps == [] {
      EmptySummary();
    } else {
      var n := |steps| - 1;
      RunIsSound(settings, run, steps, n);
      PrefixIsProper(settings, run, steps);
      LastRangeEndsAtWatermark(settings, run[..n + 1], steps[..n]);
      assert Follows(settings, run[n], steps[n], run[n + 1]);
      assert Harmless(settings, run[n], steps[n]);
      StepEnds(settings, run[n], steps[n]);
    }
  }

  ghost predicate AllOnCurrent(settings: Settings, run: seq<Memory>, steps: seq<Step>)
    requires |run| == |steps| + 1
  {
    forall i :: 0 <= i < |steps| ==> OnCurrent(settings, run[i], steps[i])
  }

  /**
   * The compacted ranges tile the log - consecutive, disjoint, covering exactly
   * 1..watermark - if and only if every store worked on the current watermark.
   */
  lemma {:induction false} CompactionsTileExactly(settings: Settings, run: seq<Memory>, steps: seq<Step>)
    requires IsRun(settings, run, steps) && Proper(settings, run, steps)
    ensures Tiles(Ranges(settings, run, steps), CompactedThrough(run[|steps|].summary)) <==>
      AllOnCurrent(settings, run, steps)
    decreases |steps|
  {
    hide Sound, TidyLog, Apply, Enabled, Lossless, RangeOf, CompactedThrough, OnCurrent, LastEnd;
    if steps == [] {
      EmptySummary();
    } else {
      var n := |steps| - 1;
      RunIsSound(settings, run, steps, n);
      PrefixIsProper(settings, run, steps);
      CompactionsTileExactly(settings, run[..n + 1], steps[..n]);
      LastRangeEndsAtWatermark(settings, run[..n + 1], steps[..n]);
      assert Follows(settings, run[n], steps[n], run[n + 1]);
      assert Harmless(settings, run[n], steps[n]);
      StepEnds(settings, run[n], steps[n]);
      OnCurrentIs(settings, run[n], steps[n]);
      AllSplits(settings, run, steps);
      var before, r := Ranges(settings, run[..n + 1], steps[..n]), RangeOf(settings, run[n], steps[n]);
      if r != [] {
        assert (before + r)[..|before + r| - 1] == before;
        if Tiles(before, r[0].0) {
          TilesEnd(before, r[0].0);
        }
      } else {
        assert before + r == before;
      }
    }
  }

  lemma OnCurrentIs(settings: Settings, m: Memory, step: Step)
    ensures var r := RangeOf(settings, m, step);
      OnCurrent(settings, m, step) <==> r == [] || r[0].0 == CompactedThrough(m.summary)
  {
    hide CompactedThrough, Due;
  }

  lemma AllSplits(settings: Settings, run: seq<Memory>, steps: seq<Step>)
    requires |run| == |steps| + 1 && steps != []
    ensures var n := |steps| - 1;
      AllOnCurrent(settings, run, steps) <==>
        AllOnCurrent(settings, run[..n + 1], steps[..n]) && OnCurrent(settings, run[n], steps[n])
  {
    hide OnCurrent;
    var n := |steps| - 1;
    if AllOnCurrent(settings, run[..n + 1], steps[..n]) && OnCurrent(settings, run[n], steps[n]) {
      forall i | 0 <= i < |steps| ensures OnCurrent(settings, run[i], steps[i]) {
        if i < n {
          assert OnCurrent(settings, run[..n + 1][i], steps[..n][i]);
        }
      }
    }
    if AllOnCurrent(settings, run, steps) {
      forall i | 0 <= i < n ensures OnCurrent(settings, run[..n + 1][i], steps[..n][i]) {
        assert OnCurrent(settings, run[i], steps[i]);
      }
    }
  }

  /** In particular when every executor always works on the current summary. */
  lemma CompactionsTile(settings: Settings, run: seq<Memory>, steps: seq<Step>)
    requires IsRun(settings, run, steps) && Proper(settings, run, steps)
    requires forall i :: 0 <= i < |run| ==> UpToDate(run[i])
    ensures Tiles(Ranges(settings, run, steps), CompactedThrough(run[|steps|].summary))
  {
    hide CompactedThrough, Ranges, Proper;
    CompactionsTileExactly(settings, run, steps);
    forall i | 0 <= i < |steps| ensures OnCurrent(settings, run[i], steps[i]) {
      assert UpToDate(run[i]);
    }
  }

  lemma PrefixIsProper(settings: Settings, run: seq<Memory>, steps: seq<Step>)
    requires IsRun(settings, run, steps) && Proper(settings, run, steps) && steps != []
    ensures var n := |steps| - 1;
      IsRun(settings, run[..n + 1], steps[..n]) && Proper(settings, run[..n + 1], steps[..n])
  {
    hide Follows, Harmless, TidyLog;
    var n := |steps| - 1;
    var r, s := run[..n + 1], steps[..n];
    forall i, j | 0 <= i < j < |r| && j == i + 1 ensures Follows(settings, r[i], s[i], r[j]) {
      assert Follows(settings, run[i], steps[i], run[j]);
    }
    assert IsRun(settings, r, s);
    LogGrows(settings, run, steps, n, n + 1);
    TidyPrefix(run[n].log, run[n + 1].log);
    forall i | 0 <= i < |s| ensures Harmless(settings, r[i], s[i]) {
      assert Harmless(settings, run[i], steps[i]);
    }
  }

  /**
   * Overlapping compactions can move the watermark back: from any sound state in which one
   * is due, an executor that read the session earlier overwrites a later summary.
   */
  lemma OverlapMovesWatermarkBack(settings: Settings, m: Memory, early: nat, late: nat, e: Event) returns (run: seq<Memory>)
    requires Sound(settings, m) && TidyLog(m.log + [e]) && early != late
    requires Due(settings, m.summary, |m.log|) && |m.log| + 1 <= CompactedThrough(m.summary) + COMPACTION_LIMIT
    ensures |run| == 6 && run[0] == m
    ensures Follows(settings, run[0], ReadSession(early), run[1])
    ensures Follows(settings, run[1], Append(e), run[2])
    ensures Follows(settings, run[2], ReadSession(late), run[3])
    ensures Follows(settings, run[3], Store(late), run[4])
    ensures Follows(settings, run[4], Store(early), run[5])
    ensures CompactedThrough(run[5].summary) < CompactedThrough(run[4].summary)
  {
    hide CompactedThrough, Canonical, Compacted, Lines, SummaryAt, TidyLog;
    TidyPrefix(m.log, m.log + [e]);
    var m1 := Apply(settings, m, ReadSession(early));
    StepIsSound(settings, m, ReadSession(early));
    var m2 := Apply(settings, m1, Append(e));
    StepIsSound(settings, m1, Append(e));
    var m3 := Apply(settings, m2, ReadSession(late));
    StepIsSound(settings, m2, ReadSession(late));
    NothingDropped(m3.log, CompactedThrough(m.summary), Through(settings, |m3.log|));
    NothingDropped(m3.log, CompactedThrough(m.summary), Through(settings, |m.log|));
    StoreIsCanonical(settings, m3, late);
    StepIsSound(settings, m3, Store(late));
    var m4 := Apply(settings, m3, Store(late));
    StoreIsCanonical(settings, m4, early);
    run := [m, m1, m2, m3, m4, Apply(settings, m4, Store(early))];
  }

  /** A range of at most 10,000 events is listed whole. */
  lemma NothingDropped(log: seq<Event>, previous: nat, through: nat)
    requires previous <= through <= |log| && through - previous <= COMPACTION_LIMIT
    ensures Lines(log, ListedTo(previous, through), through) == []
  {
  }

  /**
   * A longer range is summarised in full exactly when what lies beyond its first 10,000
   * events holds nothing important.
   */
  lemma NothingDroppedExactly(log: seq<Event>, previous: nat, through: nat)
    requires previous <= through <= |log|
    ensures Lines(log, previous, ListedTo(previous, through)) == Lines(log, previous, through) <==>
      forall i :: previous + 10_000 <= i < through ==> !Important(log[i])
  {
    hide Important, Lines;
    var end := ListedTo(previous, through);
    LinesSplit(log, previous, end, through);
    NoLinesExactly(log, end, through);
    assert |Lines(log, previous, end)| + |Lines(log, end, through)| == |Lines(log, previous, through)|;
  }

  lemma {:induction false} NoLinesExactly(log: seq<Event>, from: nat, end: nat)
    requires from <= end <= |log|
    ensures Lines(log, from, end) == [] <==> forall i :: from <= i < end ==> !Important(log[i])
    decreases end
  {
    hide Important;
    if from < end {
      NoLinesExactly(log, from, end - 1);
    }
  }

  const BUSY := Plain(AgentStep)

  /** 10,000 events that no summary mentions, an important one and one more. */
  function BusyLog(e: Event): (log: seq<Event>)
    ensures |log| == COMPACTION_LIMIT + 2 && log[COMPACTION_LIMIT] == e
  {
    seq(COMPACTION_LIMIT, _ => BUSY) + [e, BUSY]
  }

  /** The run in which these events are appended and nothing else happens. */
  lemma {:induction false} Appended(settings: Settings, events: seq<Event>) returns (run: seq<Memory>, steps: seq<Step>)
    ensures IsRun(settings, run, steps) && |steps| == |events| && run[|steps|] == Memory(events, "", map[])
    decreases |events|
  {
    if events == [] {
      run, steps := [INITIAL], [];
    } else {
      var n := |events| - 1;
      run, steps := Appended(settings, events[..n]);
      assert events == events[..n] + [events[n]];
      run, steps := Lengthened(settings, run, steps, Append(events[n]));
    }
  }

  lemma Lengthened(settings: Settings, run: seq<Memory>, steps: seq<Step>, step: Step)
    returns (longer: seq<Memory>, more: seq<Step>)
    requires IsRun(settings, run, steps) && Enabled(run[|steps|], step)
    ensures IsRun(settings, longer, more) && more == steps + [step]
    ensures longer == run + [Apply(settings, run[|steps|], step)]
  {
    hide Apply, Enabled;
    longer, more := run + [Apply(settings, run[|steps|], step)], steps + [step];
    forall i, j | 0 <= i < j < |longer| && j == i + 1 ensures Follows(settings, longer[i], more[i], longer[j]) {
      if j < |run| {
        assert Follows(settings, run[i], steps[i], run[j]);
      }
    }
  }

  /**
   * A reachable run that loses an important event: the range 1..10,001 is compacted, its last
   * event is important, and the summary is a watermark with nothing before it.
   */
  lemma ImportantEventDropped(e: Event) returns (run: seq<Memory>, steps: seq<Step>)
    requires Important(e)
    ensures IsRun(TWO_EVENTS, run, steps) && |steps| == COMPACTION_LIMIT + 4
    ensures RangeOf(TWO_EVENTS, run[|steps| - 1], steps[|steps| - 1]) == [(0, COMPACTION_LIMIT + 1)]
    ensures run[|steps|].log[COMPACTION_LIMIT] == e
    ensures run[|steps|].summary == Stamped("", COMPACTION_LIMIT + 1)
    ensures Lines(run[|steps|].log, 0, COMPACTION_LIMIT + 1) != []
  {
    hide CompactedThrough, NewSummary, Lines, IsRun, Important, Stamped, Kept, Merged;
    var log := BusyLog(e);
    EmptySummary();
    run, steps := Appended(TWO_EVENTS, log);
    var m := run[|steps|];
    run, steps := Lengthened(TWO_EVENTS, run, steps, ReadSession(0));
    var read := Apply(TWO_EVENTS, m, ReadSession(0));
    run, steps := Lengthened(TWO_EVENTS, run, steps, Store(0));
    NoLinesExactly(log, 0, COMPACTION_LIMIT);
    NoLinesExactly(log, 0, COMPACTION_LIMIT + 1);
    assert !Important(BUSY) by { BusyIsUnimportant(); }
    EmptyMerge(log);
    assert Lines(log, 0, 0) == [] by { NoLinesExactly(log, 0, 0); }
    NewSummaryIsStamped("", [], COMPACTION_LIMIT + 1);
  }

  lemma BusyIsUnimportant()
    ensures !Important(BUSY)
  {
  }

  // ---- A marker in a payload ----

  lemma {:induction false} SearchFinds(text: string, k: nat)
    requires forall i :: 0 <= i < |text| ==> text[i] != '['
    ensures CompactedThrough(text + Marker(k)) == k
  {
    hide DigitsAt, Marker, DigitRun;
    var s := text + Marker(k);
    MarkerStands(text, k);
    forall i | 0 <= i < |text| ensures !MarkerAt(s, i) {
      assert s[i] == text[i];
      if i + |OPENING| <= |s| {
        assert s[i..i + |OPENING|][0] == s[i];
      }
    }
    hide MarkerAt;
    FirstIsAfter(s, 0, |text|);
    DecimalParsesBack(k);
  }

  const TWO_EVENTS := Settings(2, 1, 0)

  function Quote(k: nat): Event {
    Event(UserMessage, Marker(k), "", false, "")
  }

  /** The line of a first message that quotes a marker. */
  lemma QuotedLine(k: nat)
    requires |Marker(k)| <= LINE_CHARS
    ensures Important(Quote(k)) && LineOf(1, Quote(k)) == "#1 user.message: " + Marker(k)
  {
    assert Decimal(1) == "1" by {
      assert DigitChar(1) == '1';
    }
    assert "#" + "1" + " " + "user.message" + ": " == "#1 user.message: ";
  }

  /**
   * A user message that quotes a marker is enough: after the first compaction, which covered
   * event 1, the summary claims to be compacted through the quoted number.
   */
  lemma QuotedMarkerMisleads(k: nat, e: Event) returns (run: seq<Memory>, steps: seq<Step>)
    requires |Marker(k)| <= LINE_CHARS
    ensures IsRun(TWO_EVENTS, run, steps) && |steps| == 4
    ensures RangeOf(TWO_EVENTS, run[3], steps[3]) == [(0, 1)]
    ensures CompactedThrough(run[4].summary) == k
  {
    hide CompactedThrough, Marker, NewSummary, Important, LineOf, PriorBody;
    steps := [Append(Quote(k)), Append(e), ReadSession(0), Store(0)];
    var m1 := Apply(TWO_EVENTS, INITIAL, steps[0]);
    var m2 := Apply(TWO_EVENTS, m1, steps[1]);
    var m3 := Apply(TWO_EVENTS, m2, steps[2]);
    EmptySummary();
    var m4 := Apply(TWO_EVENTS, m3, steps[3]);
    run := [INITIAL, m1, m2, m3, m4];
    QuotedLine(k);
    assert m3.drafts[0] == Draft("", 2) && m3.log == [Quote(k), e];
    assert Lines(m3.log, 0, 1) == [LineOf(1, m3.log[0])] by {
      assert Lines(m3.log, 0, 0) == [];
    }
    assert m4.summary == NewSummary("", ["#1 user.message: " + Marker(k)], 1);
    StoredQuote(k);
  }

  lemma StoredQuote(k: nat)
    requires |Marker(k)| <= LINE_CHARS
    ensures CompactedThrough(NewSummary("", ["#1 user.message: " + Marker(k)], 1)) == k
  {
    hide CompactedThrough, Marker, NewSummary, Merged, Stamped, RStrip, LStrip, HasMarker;
    var line := "#1 user.message: " + Marker(k);
    assert Join([line]) == line;
    MarkerIsTight(k);
    assert line[|line| - 1] == Marker(k)[|Marker(k)| - 1];
    TightEnd(line);
    MergedIs("", [line]);
    TightStart(line);
    NewSummaryIsStamped("", [line], 1);
    assert Kept(line) == line;
    SearchFinds("#1 user.message: ", k);
    QuoteHasMarker(k);
    StampedSearch(line, 1);
  }

  lemma QuoteHasMarker(k: nat)
    ensures HasMarker("#1 user.message: " + Marker(k))
  {
    hide MarkerAt, Marker;
    MarkerStands("#1 user.message: ", k);
    HasMarkerAt("#1 user.message: " + Marker(k), |"#1 user.message: "|);
  }

  /** The search stops at the first marker, which is the body's. */
  lemma StampedSearch(body: string, n: nat)
    requires HasMarker(body)
    ensures CompactedThrough(Stamped(body, n)) == CompactedThrough(body)
  {
    hide CompactedThrough, Marker, HasMarker;
    EmptyHasNoMarker();
    FirstWithBreak(body);
    MarkersOfLines(body, "");
    assert body + "\n" + "" == body + "\n";
    FirstOfMarked(body + "\n", Marker(n));
  }
}
