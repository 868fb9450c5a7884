/**
 * Repeated compaction against compaction in one go (src/minion/runtime/context.py,
 * `maybe_compact`): appending batch after batch to a truncated summary body loses nothing
 * that truncating once at the end would have kept, up to white space at batch boundaries.
 */
module Compaction {
  import opened SummaryText

  const BODY_CHARS := 12_000

  /** What truncation keeps of a text: its last characters, left-stripped. */
  function Kept(text: string): string {
    LStrip(Last(text, BODY_CHARS))
  }

  /** A line of the summary: it starts with `#`. */
  predicate IsLine(line: string) {
    line != "" && line[0] == '#'
  }

  ghost predicate AreLines(lines: seq<string>) {
    forall i :: 0 <= i < |lines| ==> IsLine(lines[i])
  }

  /** The nonempty parts, joined: the body so far and the new lines. */
  function Merged(prior: string, lines: seq<string>): string {
    Strip(Join(Nonempty([prior] + lines)))
  }

  /** The summary that one compaction stores. */
  function NewSummary(prior: string, lines: seq<string>, through: nat): string {
    Strip(Last(Merged(prior, lines), BODY_CHARS) + "\n" + Marker(through))
  }

  /** The untruncated body, one batch after another. */
  function Full(batches: seq<seq<string>>): string {
    if batches == [] then ""
    else Merged(Full(batches[..|batches| - 1]), batches[|batches| - 1])
  }

  /** All lines of all batches. */
  function Flatten(batches: seq<seq<string>>): seq<string> {
    if batches == [] then []
    else Flatten(batches[..|batches| - 1]) + batches[|batches| - 1]
  }

  /** The body a single compaction of all the lines gives. */
  function OneShot(batches: seq<seq<string>>): string {
    Kept(Merged("", Flatten(batches)))
  }

  /** The stored summary after compacting the batches up to the given watermarks. */
  function Summary(batches: seq<seq<string>>, marks: seq<nat>): string
    requires |marks| == |batches|
  {
    if batches == [] then ""
    else
      var n := |batches| - 1;
      NewSummary(PriorBody(Summary(batches[..n], marks[..n])), batches[n], marks[n])
  }

  ghost predicate AllLines(batches: seq<seq<string>>) {
    forall i :: 0 <= i < |batches| ==> AreLines(batches[i])
  }

  // ---- Joining ----

  /** The part of the text that a batch of lines adds. */
  function Added(lines: seq<string>): string {
    if lines == [] then "" else "\n" + Join(lines)
  }

  lemma {:induction false} NonemptyOfLines(prior: string, lines: seq<string>)
    requires AreLines(lines)
    ensures Nonempty([prior] + lines) == (if prior == "" then [] else [prior]) + lines
  {
    if lines == [] {
      assert [prior] + lines == [prior];
      assert [prior][..0] == [];
    } else {
      var n := |lines| - 1;
      var parts := [prior] + lines;
      assert parts[..|parts| - 1] == [prior] + lines[..n];
      NonemptyOfLines(prior, lines[..n]);
      assert lines == lines[..n] + [lines[n]];
    }
  }

  lemma {:induction false} JoinSplits(a: seq<string>, b: seq<string>)
    requires a != []
    ensures Join(a + b) == Join(a) + Added(b)
  {
    if b == [] {
      assert a + b == a;
    } else {
      var n := |b| - 1;
      assert (a + b)[..|a + b| - 1] == a + b[..n];
      JoinSplits(a, b[..n]);
      AddedStep(b);
    }
  }

  lemma AddedStep(b: seq<string>)
    requires b != []
    ensures Added(b) == Added(b[..|b| - 1]) + "\n" + b[|b| - 1]
  {
    var rest, last := b[..|b| - 1], b[|b| - 1];
    if rest == [] {
      assert "" + "\n" + last == "\n" + last;
    } else {
      assert "\n" + Join(rest) + "\n" + last == "\n" + (Join(rest) + "\n" + last);
    }
  }

  lemma {:induction false} JoinStarts(lines: seq<string>)
    requires lines != [] && AreLines(lines)
    ensures Join(lines) != "" && Join(lines)[0] == '#'
  {
    if |lines| > 1 {
      JoinStarts(lines[..|lines| - 1]);
    }
  }

  lemma AddedStarts(lines: seq<string>)
    requires lines != [] && AreLines(lines)
    ensures |Added(lines)| >= 2 && Added(lines)[1] == '#' && |RStrip(Added(lines))| >= 2
  {
    JoinStarts(lines);
    NonblankStays(Added(lines), 1);
  }

  /** With a body in front, merging appends; without one it only trims the joined lines. */
  lemma MergedIs(prior: string, lines: seq<string>)
    requires AreLines(lines) && StartsTight(prior) && EndsTight(prior)
    ensures prior != "" && lines != [] ==> Merged(prior, lines) == prior + RStrip(Added(lines))
    ensures lines == [] ==> Merged(prior, lines) == prior
    ensures prior == "" ==> Merged(prior, lines) == RStrip(Join(lines))
  {
    hide Nonempty, Join, LStrip, RStrip, Added;
    NonemptyOfLines(prior, lines);
    if lines == [] {
      JoinOfOne(prior);
      StripTight(prior);
    } else if prior == "" {
      assert [] + lines == lines;
      JoinStarts(lines);
      StripStarted(Join(lines));
    } else {
      JoinOfOne(prior);
      JoinSplits([prior], lines);
      AddedStarts(lines);
      RStripTail(prior, Added(lines));
      StripStarted(prior + Added(lines));
    }
  }

  lemma JoinOfOne(s: string)
    ensures Join([]) == "" && Join([s]) == s
    ensures [s] + [] == [s]
  {
  }

  lemma StripTight(s: string)
    requires StartsTight(s) && EndsTight(s)
    ensures Strip(s) == s
  {
  }

  lemma StripStarted(s: string)
    requires s != "" && StartsTight(s)
    ensures Strip(s) == RStrip(s) != ""
  {
    hide LStrip, RStrip;
    NonblankStays(s, 0);
    RStripIsPrefix(s);
    assert RStrip(s)[0] == s[0];
    TightStart(RStrip(s));
  }

  lemma TightStart(s: string)
    requires StartsTight(s)
    ensures LStrip(s) == s
  {
  }

  // ---- Truncation ----

  lemma MergedIsTight(prior: string, lines: seq<string>)
    ensures StartsTight(Merged(prior, lines)) && EndsTight(Merged(prior, lines))
  {
    hide Nonempty, Join;
    StripIsTight(Join(Nonempty([prior] + lines)));
  }

  lemma StripIsTight(s: string)
    ensures StartsTight(Strip(s)) && EndsTight(Strip(s))
  {
    LStripIsSuffix(RStrip(s));
  }

  lemma KeptIsTight(text: string)
    requires EndsTight(text)
    ensures StartsTight(Kept(text)) && EndsTight(Kept(text))
    ensures Kept(text) == "" <==> text == ""
    ensures |Kept(text)| <= BODY_CHARS && Kept(text) == text[|text| - |Kept(text)|..]
  {
    hide LStrip;
    var tail := Last(text, BODY_CHARS);
    var r := LStrip(tail);
    if tail != "" {
      assert tail[|tail| - 1] == text[|text| - 1];
      NonblankStays(tail, |tail| - 1);
      LStripIsSuffix(tail);
      assert tail[|tail| - |r|..] == text[|text| - |r|..];
    }
  }

  /** Truncating before appending changes nothing once the result is truncated again. */
  lemma TruncationCommutes(text: string, more: string)
    requires EndsTight(text) && text != ""
    ensures Kept(Kept(text) + more) == Kept(text + more)
  {
    hide LStrip;
    var kept, whole := Kept(text), text + more;
    KeptIsTight(text);
    var from := |text| - |kept|;
    assert kept + more == whole[from..];
    var start := if |whole| <= BODY_CHARS then 0 else |whole| - BODY_CHARS;
    assert Last(whole, BODY_CHARS) == whole[start..];
    if start >= from {
      assert whole[from..][start - from..] == whole[start..];
      assert Last(kept + more, BODY_CHARS) == whole[start..];
    } else {
      assert Last(kept + more, BODY_CHARS) == whole[from..];
      BlankGap(text, from, start);
      assert whole[start..][..from - start] == text[start..from];
      assert whole[start..][from - start..] == whole[from..];
      LStripDrop(whole[start..], from - start);
    }
  }

  /** What `Kept` drops beyond the plain truncation is blank. */
  lemma BlankGap(text: string, from: nat, start: nat)
    requires EndsTight(text) && from == |text| - |Kept(text)|
    requires start < from && (start == 0 || |text| <= start + BODY_CHARS)
    requires |text| <= start + BODY_CHARS
    ensures start <= from <= |text| && AllSpace(text[start..from])
  {
    hide LStrip;
    var tail := Last(text, BODY_CHARS);
    LStripIsSuffix(tail);
    var cut := |text| - |tail|;
    var blank := tail[..|tail| - |LStrip(tail)|];
    assert |Kept(text)| == |LStrip(tail)|;
    assert cut <= start && from == cut + |blank|;
    forall i | 0 <= i < from - start ensures IsSpace(text[start..from][i]) {
      assert text[start..from][i] == blank[start - cut + i];
    }
  }

  /** One more batch: truncated and untruncated bodies stay in step. */
  lemma StepKeeps(full: string, lines: seq<string>)
    requires AreLines(lines) && StartsTight(full) && EndsTight(full)
    ensures Kept(Merged(Kept(full), lines)) == Kept(Merged(full, lines))
  {
    hide Kept, Merged, Added, LStrip, RStrip;
    KeptIsTight(full);
    MergedIs(full, lines);
    MergedIs(Kept(full), lines);
    if lines == [] {
      KeptTwice(full);
    } else if full != "" {
      TruncationCommutes(full, RStrip(Added(lines)));
    }
  }

  lemma KeptTwice(text: string)
    requires EndsTight(text)
    ensures Kept(Kept(text)) == Kept(text)
  {
    KeptIsTight(text);
  }

  /**
   * Exactly what is kept: the longest end of the text of at most 12,000 characters that does
   * not begin with white space.
   */
  lemma KeptExactly(text: string)
    ensures exists from :: 0 <= from <= |text| && Kept(text) == text[from..] && KeptFrom(text, from)
  {
    hide LStrip;
    var tail := Last(text, BODY_CHARS);
    LStripIsSuffix(tail);
    var from := |text| - |LStrip(tail)|;
    var cut := |text| - |tail|;
    assert tail == text[cut..];
    assert text[cut..from] == tail[..|tail| - |LStrip(tail)|];
    assert KeptFrom(text, from);
  }

  predicate KeptFrom(text: string, from: nat)
    requires from <= |text|
  {
    && |text| - from <= 12_000
    && (from < |text| ==> !IsSpace(text[from]))
    && AllSpace(text[if |text| <= 12_000 then 0 else |text| - 12_000..from])
  }

  /** The stored text, character for character. */
  lemma StoredText(prior: string, lines: seq<string>, through: nat)
    ensures NewSummary(prior, lines, through) ==
      (if Kept(Merged(prior, lines)) == "" then "" else Kept(Merged(prior, lines)) + "\n")
      + "[compacted-through:" + Decimal(through) + "]"
  {
    hide Kept, Merged, NewSummary;
    NewSummaryIsStamped(prior, lines, through);
    var body := Kept(Merged(prior, lines));
    if body != "" {
      assert body + "\n" + ("[compacted-through:" + Decimal(through) + "]")
        == body + "\n" + "[compacted-through:" + Decimal(through) + "]";
    }
  }

  /** Lines are joined by line breaks and by nothing else. */
  lemma JoinOfBoth(a: seq<string>, b: seq<string>)
    requires a != [] && b != []
    ensures Join(a + b) == Join(a) + "\n" + Join(b)
    ensures forall s :: Join([s]) == s
  {
    hide Join;
    JoinSplits(a, b);
    assert Join(a) + ("\n" + Join(b)) == Join(a) + "\n" + Join(b);
    forall s ensures Join([s]) == s {
      JoinOfOne(s);
    }
  }

  /** A compaction stores the kept part of the merged text under its watermark. */
  lemma NewSummaryIsStamped(prior: string, lines: seq<string>, through: nat)
    ensures NewSummary(prior, lines, through) == Stamped(Kept(Merged(prior, lines)), through)
  {
    hide Merged, LStrip, RStrip, Marker, Stamped;
    MergedIsTight(prior, lines);
    StampIsStrip(Merged(prior, lines), through);
  }

  lemma StampIsStrip(text: string, through: nat)
    requires EndsTight(text)
    ensures Strip(Last(text, BODY_CHARS) + "\n" + Marker(through)) == Stamped(Kept(text), through)
  {
    hide LStrip, RStrip, Marker, Last;
    KeptIsTight(text);
    MarkerIsTight(through);
    LastIsEmpty(text);
    StripStamp(Last(text, BODY_CHARS), Marker(through));
  }

  lemma StripStamp(tail: string, m: string)
    requires m != "" && !IsSpace(m[0]) && !IsSpace(m[|m| - 1])
    requires LStrip(tail) == "" ==> tail == ""
    ensures Strip(tail + "\n" + m) == if tail == "" then m else LStrip(tail) + "\n" + m
  {
    hide LStrip, RStrip;
    var s := tail + "\n" + m;
    assert s == tail + ("\n" + m);
    assert s[|s| - 1] == m[|m| - 1];
    TightEnd(s);
    if tail == "" {
      assert s[1..] == m && s[..1] == "\n";
      LStripIsUnique(s, 1);
    } else {
      LStripPrefix(tail, "\n" + m);
    }
  }

  lemma LastIsEmpty(text: string)
    ensures Last(text, BODY_CHARS) == "" <==> text == ""
  {
  }

  /** Left-stripping a text with a nonblank head only strips the head. */
  lemma LStripPrefix(a: string, b: string)
    requires LStrip(a) != ""
    ensures LStrip(a + b) == LStrip(a) + b
  {
    hide LStrip;
    LStripIsSuffix(a);
    var blank := |a| - |LStrip(a)|;
    assert (a + b)[..blank] == a[..blank];
    assert (a + b)[blank..] == LStrip(a) + b;
    LStripIsUnique(a + b, blank);
  }

  lemma MarkerIsTight(n: nat)
    ensures !IsSpace(Marker(n)[0]) && !IsSpace(Marker(n)[|Marker(n)| - 1])
  {
  }

  lemma TightEnd(s: string)
    requires EndsTight(s)
    ensures RStrip(s) == s
  {
  }

  // ---- Any number of compactions ----

  lemma {:induction false} FullIsTight(batches: seq<seq<string>>)
    ensures StartsTight(Full(batches)) && EndsTight(Full(batches))
  {
    hide Merged;
    if batches != [] {
      MergedIsTight(Full(batches[..|batches| - 1]), batches[|batches| - 1]);
    }
  }

  /**
   * After any sequence of compactions, at any watermarks, the body is what one truncation of
   * the untruncated text would have kept: truncating early never costs a character.
   */
  lemma {:induction false} TruncatingEarlyIsHarmless(batches: seq<seq<string>>, marks: seq<nat>)
    requires |marks| == |batches| && AllLines(batches)
    ensures PriorBody(Summary(batches, marks)) == Kept(Full(batches))
    ensures batches != [] ==> Summary(batches, marks) == Stamped(Kept(Full(batches)), marks[|marks| - 1])
  {
    hide PriorBody, Kept, Merged, NewSummary, Stamped;
    if batches == [] {
      NoSummaryYet();
    } else {
      var n := |batches| - 1;
      TruncatingEarlyIsHarmless(batches[..n], marks[..n]);
      var full := Full(batches[..n]);
      FullIsTight(batches[..n]);
      StepKeeps(full, batches[n]);
      NewSummaryIsStamped(Kept(full), batches[n], marks[n]);
      MergedIsTight(full, batches[n]);
      KeptIsTight(Merged(full, batches[n]));
      BodyIsRecovered(Kept(Merged(full, batches[n])), marks[n]);
    }
  }

  lemma NoSummaryYet()
    ensures PriorBody("") == "" == Kept("")
  {
  }

  // ---- One shot ----

  /** Some batch has lines. */
  ghost predicate Inhabited(batches: seq<seq<string>>) {
    Flatten(batches) != []
  }

  /**
   * Every batch boundary within the last `window` characters of the joined text follows a
   * nonblank character.
   */
  ghost predicate Clean(batches: seq<seq<string>>, window: int)
    decreases |batches|
  {
    if window <= 0 || !Inhabited(batches) then true
    else
      var n := |batches| - 1;
      if batches[n] == [] then Clean(batches[..n], window)
      else EndsTight(Join(batches[n])) && Clean(batches[..n], window - |Added(batches[n])|)
  }

  /** Batch boundaries before the last inhabited batch, within what truncation keeps. */
  ghost predicate CleanBoundaries(batches: seq<seq<string>>)
    decreases |batches|
  {
    if !Inhabited(batches) then true
    else
      var n := |batches| - 1;
      if batches[n] == [] then CleanBoundaries(batches[..n])
      else Clean(batches[..n], BODY_CHARS - |RStrip(Added(batches[n]))|)
  }

  /** The last characters of both texts agree once left-stripped. */
  predicate SameTail(a: string, b: string, window: int) {
    window <= 0 || LStrip(Last(a, window)) == LStrip(Last(b, window))
  }

  lemma FlattenLines(batches: seq<seq<string>>)
    requires AllLines(batches)
    ensures AreLines(Flatten(batches))
  {
  }

  lemma JoinFlatten(batches: seq<seq<string>>)
    requires batches != [] && AllLines(batches)
    ensures var n := |batches| - 1;
      Join(Flatten(batches)) ==
        if Inhabited(batches[..n]) then Join(Flatten(batches[..n])) + Added(batches[n]) else Join(batches[n])
  {
    hide Join, Added, AreLines;
    var n := |batches| - 1;
    var before := Flatten(batches[..n]);
    assert Flatten(batches) == before + batches[n];
    hide Flatten;
    if before != [] {
      JoinSplits(before, batches[n]);
    } else {
      assert before + batches[n] == batches[n];
    }
  }

  lemma {:induction false} FullIsEmptyExactly(batches: seq<seq<string>>)
    requires AllLines(batches)
    ensures Full(batches) == "" <==> !Inhabited(batches)
    ensures Join(Flatten(batches)) == "" <==> !Inhabited(batches)
  {
    hide Merged, Join, AreLines;
    FlattenLines(batches);
    JoinOfOne("");
    if Inhabited(batches) {
      JoinStarts(Flatten(batches));
    }
    if batches != [] {
      var n := |batches| - 1;
      FullIsEmptyExactly(batches[..n]);
      FullIsTight(batches[..n]);
      MergedIs(Full(batches[..n]), batches[n]);
      if batches[n] != [] {
        JoinStarts(batches[n]);
        NonblankStays(Join(batches[n]), 0);
      }
    }
  }

  /** A text that ends tight and one that does not have different last characters. */
  lemma TailsDiffer(a: string, b: string, window: nat)
    requires a != "" && EndsTight(a) && !EndsTight(b) && window > 0
    ensures !SameTail(a, b, window)
  {
    hide LStrip;
    var x, y := Last(a, window), Last(b, window);
    NonblankStays(x, |x| - 1);
    LStripIsSuffix(x);
    LStripIsSuffix(y);
  }

  /** A common ending takes its share of the window. */
  lemma TailShifts(a: string, b: string, more: string, window: nat)
    requires a != "" && EndsTight(a) && window > 0
    ensures SameTail(a + more, b + more, window) <==> SameTail(a, b, window - |more|)
  {
    hide LStrip, Last;
    LastOfSum(a, more, window);
    LastOfSum(b, more, window);
    if window > |more| {
      LastEnds(a, window - |more|);
      NonblankStays(Last(a, window - |more|), |Last(a, window - |more|)| - 1);
      StripsAgree(Last(a, window - |more|), Last(b, window - |more|), more);
    }
  }

  lemma LastEnds(a: string, n: nat)
    requires a != "" && n > 0
    ensures Last(a, n) != "" && Last(a, n)[|Last(a, n)| - 1] == a[|a| - 1]
  {
  }

  lemma StripsAgree(x: string, y: string, more: string)
    requires LStrip(x) != ""
    ensures LStrip(x + more) == LStrip(y + more) <==> LStrip(x) == LStrip(y)
  {
    hide LStrip;
    LStripPrefix(x, more);
    if LStrip(y) == "" {
      LStripIsSuffix(y);
      assert (y + more)[..|y|] == y[..|y|] && (y + more)[|y|..] == more;
      LStripDrop(y + more, |y|);
    } else {
      LStripPrefix(y, more);
      SameFront(LStrip(x), LStrip(y), more);
    }
  }

  lemma LastOfSum(a: string, b: string, window: nat)
    ensures window <= |b| ==> Last(a + b, window) == Last(b, window)
    ensures window > |b| ==> Last(a + b, window) == Last(a, window - |b|) + b
  {
  }

  lemma SameFront(a: string, b: string, more: string)
    ensures a + more == b + more <==> a == b
  {
    if a + more == b + more {
      assert |a| == |b|;
      assert a == (a + more)[..|a|] && b == (b + more)[..|b|];
    }
  }

  lemma AddedEndsAsJoin(lines: seq<string>)
    requires lines != [] && AreLines(lines)
    ensures EndsTight(Added(lines)) <==> EndsTight(Join(lines))
    ensures EndsTight(Join(lines)) ==> RStrip(Added(lines)) == Added(lines) && RStrip(Join(lines)) == Join(lines)
  {
    hide Join;
    JoinStarts(lines);
    assert Added(lines)[|Added(lines)| - 1] == Join(lines)[|Join(lines)| - 1];
  }

  /** Full and joined texts agree on a window exactly when its boundaries are clean. */
  lemma {:induction false} TailsAgreeExactly(batches: seq<seq<string>>, window: int)
    requires AllLines(batches)
    ensures SameTail(Full(batches), Join(Flatten(batches)), window) <==> Clean(batches, window)
    decreases |batches|
  {
    hide Merged, Join, AreLines, LStrip, RStrip, Last, Added, SameTail, Flatten, Full;
    FullIsEmptyExactly(batches);
    if window <= 0 || !Inhabited(batches) {
      SameIsSame(Full(batches), window);
      NoWindow(Full(batches), Join(Flatten(batches)), window);
    } else {
      FlattenEmpty();
      var n := |batches| - 1;
      TailsAgreeExactly(batches[..n], if batches[n] == [] then window else window - |Added(batches[n])|);
      TailsStep(batches, window);
    }
  }

  lemma SameIsSame(a: string, window: int)
    ensures SameTail(a, a, window)
  {
  }

  lemma NoWindow(a: string, b: string, window: int)
    ensures window <= 0 ==> SameTail(a, b, window)
  {
  }

  lemma FlattenEmpty()
    ensures !Inhabited([])
  {
  }

  lemma FullStep(batches: seq<seq<string>>)
    requires batches != [] && AllLines(batches)
    ensures var n := |batches| - 1;
      && Full(batches) ==
         (if batches[n] == [] then Full(batches[..n])
          else if Inhabited(batches[..n]) then Full(batches[..n]) + RStrip(Added(batches[n]))
          else RStrip(Join(batches[n])))
      && (batches[n] == [] ==> Flatten(batches) == Flatten(batches[..n]))
  {
    hide Merged, Join, AreLines, RStrip, Added;
    var n := |batches| - 1;
    FullIsTight(batches[..n]);
    FullIsEmptyExactly(batches[..n]);
    MergedIs(Full(batches[..n]), batches[n]);
  }

  lemma TailsStep(batches: seq<seq<string>>, window: int)
    requires AllLines(batches) && window > 0 && batches != []
    ensures var n := |batches| - 1;
      var full, joined := Full(batches[..n]), Join(Flatten(batches[..n]));
      SameTail(Full(batches), Join(Flatten(batches)), window) <==>
        if batches[n] == [] then SameTail(full, joined, window)
        else EndsTight(Join(batches[n])) && SameTail(full, joined, window - |Added(batches[n])|)
  {
    hide Merged, Join, AreLines, LStrip, RStrip, Last, Added, SameTail, Flatten, Full;
    var n := |batches| - 1;
    FullStep(batches);
    if batches[n] != [] {
      FullIsTight(batches);
      FullIsTight(batches[..n]);
      FullIsEmptyExactly(batches);
      FullIsEmptyExactly(batches[..n]);
      JoinFlatten(batches);
      AddedEndsAsJoin(batches[n]);
      AddedStarts(batches[n]);
      JoinStarts(batches[n]);
      LastInhabits(batches);
      EndOfSum(Join(Flatten(batches[..n])), Added(batches[n]));
      if !EndsTight(Join(batches[n])) {
        TailsDiffer(Full(batches), Join(Flatten(batches)), window);
      } else if Inhabited(batches[..n]) {
        TailShifts(Full(batches[..n]), Join(Flatten(batches[..n])), Added(batches[n]), window);
      } else {
        SameIsSame(Full(batches), window);
        SameIsSame("", window - |Added(batches[n])|);
      }
    }
  }

  lemma LastInhabits(batches: seq<seq<string>>)
    requires batches != [] && batches[|batches| - 1] != []
    ensures Inhabited(batches)
  {
  }

  lemma EndOfSum(a: string, b: string)
    requires b != ""
    ensures EndsTight(a + b) <==> EndsTight(b)
  {
  }

  /**
   * Compacting batch by batch gives the body that one compaction of all lines gives if and
   * only if no batch boundary within the kept text follows white space.
   */
  lemma {:induction false} IncrementalIsOneShotExactly(batches: seq<seq<string>>)
    requires AllLines(batches)
    ensures Kept(Full(batches)) == OneShot(batches) <==> CleanBoundaries(batches)
    decreases |batches|
  {
    hide Merged, Join, AreLines, LStrip, RStrip, Last, Added, Flatten, Full, Clean;
    FullIsEmptyExactly(batches);
    FlattenLines(batches);
    MergedIs("", Flatten(batches));
    BlankIsStripped("");
    if Inhabited(batches) {
      FlattenEmpty();
      var n := |batches| - 1;
      FullStep(batches);
      if batches[n] == [] {
        IncrementalIsOneShotExactly(batches[..n]);
      } else {
        OneShotStep(batches);
      }
    }
  }

  lemma OneShotStep(batches: seq<seq<string>>)
    requires AllLines(batches) && batches != [] && batches[|batches| - 1] != []
    ensures var n := |batches| - 1;
      Kept(Full(batches)) == OneShot(batches) <==>
        Clean(batches[..n], BODY_CHARS - |RStrip(Added(batches[n]))|)
  {
    hide Merged, Join, AreLines, LStrip, RStrip, Last, Added, Flatten, Full, Clean, SameTail;
    var n := |batches| - 1;
    var full, joined, added := Full(batches[..n]), Join(Flatten(batches[..n])), Added(batches[n]);
    FullStep(batches);
    FullIsTight(batches[..n]);
    FullIsEmptyExactly(batches[..n]);
    JoinFlatten(batches);
    FlattenLines(batches);
    MergedIs("", Flatten(batches));
    AddedStarts(batches[n]);
    TailsAgreeExactly(batches[..n], BODY_CHARS - |RStrip(added)|);
    if Inhabited(batches[..n]) {
      RStripTail(joined, added);
      TailShifts(full, joined, RStrip(added), BODY_CHARS);
      KeptIsTail(full + RStrip(added), joined + RStrip(added));
    } else {
      SameIsSame("", BODY_CHARS - |RStrip(added)|);
    }
  }

  lemma KeptIsTail(a: string, b: string)
    ensures SameTail(a, b, BODY_CHARS) <==> Kept(a) == Kept(b)
  {
  }

  ghost predicate AllTidy(batches: seq<seq<string>>) {
    forall i, j :: 0 <= i < |batches| && 0 <= j < |batches[i]| ==> EndsTight(batches[i][j])
  }

  /** Lines without trailing white space make every boundary clean. */
  lemma TidyLinesAreClean(batches: seq<seq<string>>)
    requires AllLines(batches) && AllTidy(batches)
    ensures CleanBoundaries(batches)
  {
    hide Inhabited, Clean;
    FlattenEmpty();
    if batches != [] {
      var n := |batches| - 1;
      TidyLinesAreClean(batches[..n]);
      TidyIsClean(batches[..n], BODY_CHARS - |RStrip(Added(batches[n]))|);
    }
  }

  lemma {:induction false} TidyIsClean(batches: seq<seq<string>>, window: int)
    requires AllLines(batches) && AllTidy(batches)
    ensures Clean(batches, window)
    decreases |batches|
  {
    hide Inhabited, Join, Added, EndsTight, IsLine;
    FlattenEmpty();
    if window > 0 && batches != [] {
      var n := |batches| - 1;
      TidyIsClean(batches[..n], if batches[n] == [] then window else window - |Added(batches[n])|);
      if batches[n] != [] {
        assert EndsTight(batches[n][|batches[n]| - 1]);
        LastIsLine(batches[n]);
        EndOfJoin(batches[n]);
      }
    }
  }

  lemma LastIsLine(lines: seq<string>)
    requires AreLines(lines) && lines != []
    ensures lines[|lines| - 1] != ""
  {
    assert IsLine(lines[|lines| - 1]);
  }

  lemma EndOfJoin(lines: seq<string>)
    requires lines != [] && EndsTight(lines[|lines| - 1])
    ensures lines[|lines| - 1] != "" ==> EndsTight(Join(lines))
  {
  }

  /** Two batches whose boundary follows white space: the space is lost. */
  lemma BoundarySpaceIsLost(a: string, b: string)
    requires IsLine(a) && !EndsTight(a) && IsLine(b) && |b| + 1 < BODY_CHARS
    ensures Kept(Full([[a], [b]])) != OneShot([[a], [b]])
  {
    assert Join([a]) == a && Added([b]) == "\n" + b;
    hide Full, OneShot, Kept, Added, RStrip, EndsTight;
    var batches := [[a], [b]];
    assert batches[..1] == [[a]] && [[a]][..0] == [];
    LastInhabits(batches);
    LastInhabits([[a]]);
    IncrementalIsOneShotExactly(batches);
  }

  // ---- Markers ----

  ghost predicate Unmarked(lines: seq<string>) {
    forall i :: 0 <= i < |lines| ==> !HasMarker(lines[i])
  }

  /** A body holds a marker only if the body before it or one of the new lines did. */
  lemma MergingMakesNoMarker(prior: string, lines: seq<string>)
    requires AreLines(lines) && !HasMarker(prior) && Unmarked(lines)
    ensures !HasMarker(Merged(prior, lines)) && !HasMarker(Kept(Merged(prior, lines)))
  {
    hide HasMarker, Join, Nonempty, LStrip, RStrip;
    NonemptyOfLines(prior, lines);
    var parts := Nonempty([prior] + lines);
    MarkersOfJoin(parts);
    StrippingMakesNoMarker(Join(parts));
    KeepingMakesNoMarker(Merged(prior, lines));
  }

  lemma StrippingMakesNoMarker(s: string)
    requires !HasMarker(s)
    ensures !HasMarker(RStrip(s)) && !HasMarker(LStrip(s)) && !HasMarker(Strip(s))
  {
    hide HasMarker, LStrip, RStrip;
    var r := RStrip(s);
    RStripIsPrefix(s);
    LStripIsSuffix(s);
    LStripIsSuffix(r);
    PartsOf(s, |r|);
    PartsOf(s, |s| - |LStrip(s)|);
    PartsOf(r, |r| - |LStrip(r)|);
  }

  lemma PartsOf(s: string, i: nat)
    requires i <= |s|
    ensures HasMarker(s[..i]) || HasMarker(s[i..]) ==> HasMarker(s)
  {
    MarkersOfParts(s[..i], s[i..]);
    assert s[..i] + s[i..] == s;
  }

  lemma KeepingMakesNoMarker(text: string)
    requires !HasMarker(text)
    ensures !HasMarker(Kept(text))
  {
    hide HasMarker, LStrip;
    if |text| > BODY_CHARS {
      PartsOf(text, |text| - BODY_CHARS);
    }
    StrippingMakesNoMarker(Last(text, BODY_CHARS));
  }
}
