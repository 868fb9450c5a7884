/**
 * What a summary says (src/minion/runtime/context.py, `maybe_compact`): which events leave a
 * line, what the line shows, and that the line is in the stored summary.
 */
module Remembered {
  import opened Events
  import opened Text
  import opened SummaryText
  import opened Compaction
  import opened ContextMemory
  import opened CompactionRuns

  /** Events whose whole payload is summarised, by the name under which it is. */
  predicate Headed(kind: EventType, heading: string) {
    || (kind == UserMessage && heading == "user.message")
    || (kind == AgentMessage && heading == "agent.message")
    || (kind == ToolFailed && heading == "tool.failed")
    || (kind == CheckpointCreated && heading == "checkpoint.created")
    || (kind == SkillActivated && heading == "skill.activated")
    || (kind == RepositoryIndexed && heading == "repository.indexed")
  }

  /** A finished call of a tool that writes, checks or shows the work. */
  predicate Reported(e: Event) {
    && e.kind == ToolCompleted
    && e.tool in {"write_file", "apply_patch", "checkpoint", "git_diff", "run_command"}
  }

  /** `s` shows the first 1200 characters of `whole`. */
  predicate Shows(s: string, whole: string) {
    s == if |whole| <= 1200 then whole else whole[..1200]
  }

  /** The line that the event numbered `sequence` is to leave. */
  ghost predicate LineFor(sequence: nat, e: Event, line: string) {
    || (exists heading, s ::
          Headed(e.kind, heading) && Shows(s, e.json) && line == "#" + Decimal(sequence) + " " + heading + ": " + s)
    || (exists s ::
          Reported(e) && Shows(s, e.output) && line == "#" + Decimal(sequence) + " tool.completed " + e.tool + ": " + s)
  }

  /** One event leaves exactly the line it is to leave, or none if there is no such line. */
  lemma EventLeavesLine(log: seq<Event>, k: nat)
    requires k < |log|
    ensures var lines := Lines(log, k, k + 1);
      && |lines| <= 1
      && (forall line :: line in lines <==> LineFor(k + 1, log[k], line))
  {
    var e := log[k];
    assert Lines(log, k, k) == [];
    var lines := Lines(log, k, k + 1);
    forall line | LineFor(k + 1, e, line) ensures line in lines {
      assert line == LineOf(k + 1, e);
    }
    if Important(e) {
      LineIsLineFor(k + 1, e);
    }
  }

  lemma LineIsLineFor(sequence: nat, e: Event)
    requires Important(e)
    ensures LineFor(sequence, e, LineOf(sequence, e))
  {
    if Noted(e.kind) {
      assert Headed(e.kind, TypeName(e.kind)) && Shows(Cut(e.json, LINE_CHARS), e.json);
    } else {
      assert Reported(e) && Shows(Cut(e.output, LINE_CHARS), e.output);
    }
  }

  /** The lines of a range hold the line of each of its events. */
  lemma LineIsListed(log: seq<Event>, from: nat, k: nat, end: nat, line: string)
    requires from <= k < end <= |log| && LineFor(k + 1, log[k], line)
    ensures line in Lines(log, from, end)
  {
    hide Lines, LineFor;
    EventLeavesLine(log, k);
    LinesSplit(log, from, k, end);
    LinesSplit(log, k, k + 1, end);
    assert line in Lines(log, k, end);
  }

  lemma ContainsPart(a: string, part: string, b: string)
    ensures Contains(a + part + b, part)
  {
    var s := a + part + b;
    assert s[|a|..|a| + |part|] == part;
    assert StartsAt(s, |a|, part);
  }

  lemma ContainsWithin(a: string, s: string, b: string, part: string)
    requires Contains(s, part)
    ensures Contains(a + s + b, part)
  {
    var i :| 0 <= i <= |s| && StartsAt(s, i, part);
    assert (a + s + b)[|a| + i..|a| + i + |part|] == s[i..i + |part|];
    assert StartsAt(a + s + b, |a| + i, part);
  }

  lemma {:induction false} JoinContains(lines: seq<string>, line: string)
    requires line in lines
    ensures Contains(Join(lines), line)
  {
    hide Contains;
    var n := |lines| - 1;
    assert lines == lines[..n] + [lines[n]];
    if n == 0 {
      ContainsPart("", line, "");
      assert "" + line + "" == line;
    } else if line == lines[n] {
      ContainsPart(Join(lines[..n]) + "\n", line, "");
      assert Join(lines[..n]) + "\n" + line + "" == Join(lines);
    } else {
      JoinContains(lines[..n], line);
      ContainsWithin("", Join(lines[..n]), "\n" + lines[n], line);
      assert "" + Join(lines[..n]) + ("\n" + lines[n]) == Join(lines);
    }
  }

  /** As long as they fit, the summary of 1..w is all the lines, joined, above the watermark. */
  lemma SummaryHoldsLines(log: seq<Event>, w: nat)
    requires TidyLog(log) && 0 < w <= |log| && |Join(Lines(log, 0, w))| <= 12_000
    ensures SummaryAt(log, w) == Stamped(Join(Lines(log, 0, w)), w)
  {
    hide TidyLog, Merged, Join, Lines, Stamped, LStrip, RStrip;
    var lines := Lines(log, 0, w);
    TidyLines(log, 0, w);
    SummaryAtIs(log, w);
    EmptyIsTight();
    MergedIs("", lines);
    if lines == [] {
      JoinOfOne("");
      EmptyKept();
    } else {
      JoinEndsTight(lines);
      TightEnd(Join(lines));
      JoinStarts(lines);
      KeptWhole(Join(lines));
    }
  }

  lemma EmptyIsTight()
    ensures StartsTight("") && EndsTight("")
  {
  }

  lemma EmptyKept()
    ensures Kept("") == ""
  {
  }

  lemma KeptWhole(text: string)
    requires text != "" && text[0] == '#' && |text| <= 12_000
    ensures Kept(text) == text
  {
  }

  lemma StampedContains(body: string, n: nat, part: string)
    requires body != "" && Contains(body, part)
    ensures Contains(Stamped(body, n), part)
  {
    ContainsWithin("", body, "\n" + Marker(n), part);
    assert "" + body + ("\n" + Marker(n)) == Stamped(body, n);
  }

  /**
   * Nothing that was worth a line is forgotten: in every reachable state, while the lines up
   * to the watermark fit into 12,000 characters, the summary shows the line of each event up
   * to there: messages, failures and milestones with their payload, and finished writing and
   * checking tools with what they put out.
   */
  lemma CompactedIsRemembered(settings: Settings, run: seq<Memory>, steps: seq<CompactionRuns.Step>, i: nat, k: nat, line: string)
    requires IsRun(settings, run, steps) && Proper(settings, run, steps) && i < |run|
    requires k < CompactedThrough(run[i].summary) <= |run[i].log|
    requires |Join(Lines(run[i].log, 0, CompactedThrough(run[i].summary)))| <= 12_000
    requires LineFor(k + 1, run[i].log[k], line)
    ensures Contains(run[i].summary, line)
  {
    hide CompactedThrough, SummaryAt, TidyLog, Lines, Join, Contains, Stamped, IsRun, Proper, LineFor;
    var m := run[i];
    var w := CompactedThrough(m.summary);
    SummaryDependsOnWatermarkOnly(settings, run, steps, i);
    RunIsSound(settings, run, steps, i);
    SummaryHoldsLines(m.log, w);
    LineIsListed(m.log, 0, k, w, line);
    JoinContains(Lines(m.log, 0, w), line);
    TidyLines(m.log, 0, w);
    JoinStarts(Lines(m.log, 0, w));
    StampedContains(Join(Lines(m.log, 0, w)), w, line);
  }

  /** The successful `run_command` of a task leaves its output, up to 1200 characters, in such a summary. */
  lemma CommandOutputIsRemembered(settings: Settings, run: seq<Memory>, steps: seq<CompactionRuns.Step>, i: nat, k: nat)
    requires IsRun(settings, run, steps) && Proper(settings, run, steps) && i < |run|
    requires k < CompactedThrough(run[i].summary) <= |run[i].log|
    requires |Join(Lines(run[i].log, 0, CompactedThrough(run[i].summary)))| <= 12_000
    requires ShowsSuccess(run[i].log[k], "run_command") && |run[i].log[k].output| <= 1200
    ensures Contains(run[i].summary, run[i].log[k].output)
  {
    hide CompactedThrough, Lines, Join, Contains, IsRun, Proper;
    var e := run[i].log[k];
    var head := "#" + Decimal(k + 1) + " tool.completed " + e.tool + ": ";
    assert Reported(e) && Shows(e.output, e.output);
    assert head + e.output == "#" + Decimal(k + 1) + " tool.completed " + e.tool + ": " + e.output;
    assert LineFor(k + 1, e, head + e.output);
    CompactedIsRemembered(settings, run, steps, i, k, head + e.output);
    ContainsSuffix(run[i].summary, head, e.output);
  }

  lemma ContainsSuffix(s: string, a: string, b: string)
    requires Contains(s, a + b)
    ensures Contains(s, b)
  {
    var i :| 0 <= i <= |s| && StartsAt(s, i, a + b);
    assert s[i + |a|..i + |a| + |b|] == s[i..i + |a + b|][|a|..];
    assert StartsAt(s, i + |a|, b);
  }
}
