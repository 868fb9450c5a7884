/**
 * The text of a session summary: trimming, joining, and the watermark that is printed into
 * the text as `[compacted-through:N]` and searched for again
 * (src/minion/runtime/context.py, `_compacted_through` and the tail of `maybe_compact`).
 */
module SummaryText {

  /** `str.isspace()` for one character, which `strip()` and `\s` both use. */
  predicate IsSpace(c: char) {
    var n := c as int;
    9 <= n <= 13 || 28 <= n <= 32 || n == 133 || n == 160 || n == 5760 || 8192 <= n <= 8202
    || n == 8232 || n == 8233 || n == 8239 || n == 8287 || n == 12288
  }

  /** The characters `str.isspace` is true of. */
  const SPACES: set<char> := {
    '\t', '\n', '\U{0B}', '\U{0C}', '\r', '\U{1C}', '\U{1D}', '\U{1E}', '\U{1F}', ' ', '\U{85}', '\U{A0}',
    '\U{1680}', '\U{2000}', '\U{2001}', '\U{2002}', '\U{2003}', '\U{2004}', '\U{2005}', '\U{2006}', '\U{2007}',
    '\U{2008}', '\U{2009}', '\U{200A}', '\U{2028}', '\U{2029}', '\U{202F}', '\U{205F}', '\U{3000}'
  }

  lemma SpacesExactly(c: char)
    ensures IsSpace(c) <==> c in SPACES
  {
  }

  predicate AllSpace(s: string) {
    forall i :: 0 <= i < |s| ==> IsSpace(s[i])
  }

  predicate StartsTight(s: string) {
    s == "" || !IsSpace(s[0])
  }

  predicate EndsTight(s: string) {
    s == "" || !IsSpace(s[|s| - 1])
  }

  /** `lstrip()`: the longest suffix that starts tight. */
  function LStrip(s: string): (r: string)
    ensures |r| <= |s| && StartsTight(r)
  {
    if StartsTight(s) then s else LStrip(s[1..])
  }

  /** `rstrip()`: the longest prefix that ends tight. */
  function RStrip(s: string): (r: string)
    ensures |r| <= |s| && EndsTight(r)
  {
    if EndsTight(s) then s else RStrip(s[..|s| - 1])
  }

  lemma {:induction false} LStripIsSuffix(s: string)
    ensures var blank := |s| - |LStrip(s)|;
      LStrip(s) == s[blank..] && AllSpace(s[..blank])
  {
    if StartsTight(s) {
      assert s[0..] == s;
    } else {
      LStripIsSuffix(s[1..]);
      var blank := |s| - |LStrip(s)|;
      assert s[1..][blank - 1..] == s[blank..] && s[..blank] == [s[0]] + s[1..][..blank - 1];
    }
  }

  lemma {:induction false} RStripIsPrefix(s: string)
    ensures var n := |RStrip(s)|;
      RStrip(s) == s[..n] && AllSpace(s[n..])
  {
    if EndsTight(s) {
      assert s[..|s|] == s;
    } else {
      var rest, n := s[..|s| - 1], |RStrip(s)|;
      RStripIsPrefix(rest);
      assert rest[..n] == s[..n] && s[n..] == rest[n..] + [s[|s| - 1]];
    }
  }

  function Strip(s: string): string {
    LStrip(RStrip(s))
  }

  /** Leading white space does not survive `lstrip`. */
  lemma {:induction false} LStripIsUnique(s: string, i: nat)
    requires i <= |s| && AllSpace(s[..i]) && StartsTight(s[i..])
    ensures LStrip(s) == s[i..]
  {
    if i == 0 {
      assert s[0..] == s;
    } else {
      assert s[0] == s[..i][0];
      assert s[1..][..i - 1] == s[..i][1..] && s[1..][i - 1..] == s[i..];
      LStripIsUnique(s[1..], i - 1);
    }
  }

  lemma {:induction false} RStripIsUnique(s: string, i: nat)
    requires i <= |s| && AllSpace(s[i..]) && EndsTight(s[..i])
    ensures RStrip(s) == s[..i]
    decreases |s|
  {
    if i == |s| {
      assert s[..i] == s;
    } else {
      var n := |s| - 1;
      assert s[n] == s[i..][n - i];
      assert s[..n][i..] == s[i..][..n - i] && s[..n][..i] == s[..i];
      RStripIsUnique(s[..n], i);
    }
  }

  /** A nonblank character survives stripping on either side. */
  lemma {:induction false} NonblankStays(s: string, i: nat)
    requires i < |s| && !IsSpace(s[i])
    ensures |RStrip(s)| > i && |LStrip(s)| >= |s| - i
  {
    LStripKeeps(s, i);
    if !EndsTight(s) {
      NonblankStays(s[..|s| - 1], i);
    }
  }

  lemma {:induction false} LStripKeeps(s: string, i: nat)
    requires i < |s| && !IsSpace(s[i])
    ensures |LStrip(s)| >= |s| - i
  {
    if !StartsTight(s) {
      LStripKeeps(s[1..], i - 1);
    }
  }

  /** Leading blank characters do not change what `lstrip` leaves. */
  lemma {:induction false} LStripDrop(s: string, i: nat)
    requires i <= |s| && AllSpace(s[..i])
    ensures LStrip(s) == LStrip(s[i..])
  {
    if i == 0 {
      assert s[0..] == s;
    } else {
      assert s[0] == s[..i][0];
      assert s[1..][..i - 1] == s[..i][1..] && s[1..][i - 1..] == s[i..];
      LStripDrop(s[1..], i - 1);
    }
  }

  /** Right-stripping a text with a nonblank tail only strips the tail. */
  lemma RStripTail(a: string, b: string)
    requires RStrip(b) != ""
    ensures RStrip(a + b) == a + RStrip(b)
  {
    hide RStrip;
    RStripIsPrefix(b);
    var n := |a| + |RStrip(b)|;
    assert (a + b)[n..] == b[|RStrip(b)|..];
    assert (a + b)[..n] == a + RStrip(b);
    RStripIsUnique(a + b, n);
  }

  lemma BlankIsStripped(s: string)
    requires AllSpace(s)
    ensures RStrip(s) == ""
  {
    assert s[0..] == s && s[..0] == "";
    RStripIsUnique(s, 0);
  }

  /** `s[-n:]` for positive n. */
  function Last(s: string, n: nat): (r: string)
    ensures |r| <= n && |r| <= |s|
  {
    if |s| <= n then s else s[|s| - n..]
  }

  /** `"\n".join(parts)`. */
  function Join(parts: seq<string>): string {
    if parts == [] then ""
    else if |parts| == 1 then parts[0]
    else Join(parts[..|parts| - 1]) + "\n" + parts[|parts| - 1]
  }

  predicate IsNonempty(s: string) {
    s != ""
  }

  /** `[part for part in parts if part]`. */
  function Nonempty(parts: seq<string>): seq<string> {
    if parts == [] then []
    else Nonempty(parts[..|parts| - 1]) + if IsNonempty(parts[|parts| - 1]) then [parts[|parts| - 1]] else []
  }

  // ---- The watermark ----

  const OPENING := "[compacted-through:"

  predicate IsDigit(c: char) {
    '0' <= c <= '9'
  }

  function DigitChar(d: nat): (c: char)
    requires d < 10
    ensures IsDigit(c) && DigitValue(c) == d
  {
    (d as char) + '0'
  }

  function DigitValue(c: char): (d: nat)
    requires IsDigit(c)
    ensures d < 10
  {
    (c - '0') as nat
  }

  predicate AllDigits(s: string) {
    forall i :: 0 <= i < |s| ==> IsDigit(s[i])
  }

  /** Decimal printing of a natural number. */
  function Decimal(n: nat): (s: string)
    ensures s != "" && AllDigits(s)
  {
    if n < 10 then [DigitChar(n)] else Decimal(n / 10) + [DigitChar(n % 10)]
  }

  /** `int(s)` for a digit string. */
  function Value(s: string): nat
    requires AllDigits(s)
  {
    if s == "" then 0 else Value(s[..|s| - 1]) * 10 + DigitValue(s[|s| - 1])
  }

  lemma {:induction false} DecimalParsesBack(n: nat)
    ensures Value(Decimal(n)) == n
  {
    if n < 10 {
      assert Decimal(n)[..0] == "";
    } else {
      DecimalParsesBack(n / 10);
      assert Decimal(n)[..|Decimal(n)| - 1] == Decimal(n / 10);
    }
  }

  function Power10(k: nat): nat {
    if k == 0 then 1 else 10 * Power10(k - 1)
  }

  lemma DigitValues(d: nat)
    requires d < 10
    ensures IsDigit("0123456789"[d]) && DigitValue("0123456789"[d]) == d
  {
    assert "0123456789" == ['0', '1', '2', '3', '4', '5', '6', '7', '8', '9'];
  }

  /** Digits count by position, in tens. */
  lemma {:induction false} ValueIsPositional(a: string, b: string)
    requires AllDigits(a) && AllDigits(b)
    ensures AllDigits(a + b) && Value(a + b) == Value(a) * Power10(|b|) + Value(b)
    decreases |b|
  {
    if b == "" {
      assert a + b == a;
    } else {
      var n := |b| - 1;
      ValueIsPositional(a, b[..n]);
      assert (a + b)[..|a + b| - 1] == a + b[..n];
      TimesTen(Value(a), Power10(n));
    }
  }

  lemma TimesTen(m: nat, n: nat)
    ensures m * (10 * n) == 10 * (m * n)
  {
  }

  /** No number is printed with a leading zero. */
  lemma {:induction false} NoLeadingZero(n: nat)
    ensures n > 0 ==> Decimal(n)[0] != '0'
    ensures Decimal(0) == "0"
  {
    if n >= 10 {
      NoLeadingZero(n / 10);
    }
  }

  function Marker(n: nat): (m: string)
    ensures m != "" && m[0] == '[' && m[|m| - 1] == ']'
  {
    OPENING + Decimal(n) + "]"
  }

  /** Length of the run of digits at position i: what `\d+` takes. */
  function DigitRun(s: string, i: nat): (n: nat)
    requires i <= |s|
    ensures i + n <= |s|
    ensures AllDigits(s[i..i + n])
    ensures i + n < |s| ==> !IsDigit(s[i + n])
    decreases |s| - i
  {
    if i < |s| && IsDigit(s[i]) then
      var n := 1 + DigitRun(s, i + 1);
      assert s[i..i + n] == [s[i]] + s[i + 1..i + n];
      n
    else 0
  }

  lemma {:induction false} DigitRunIsUnique(s: string, i: nat, n: nat)
    requires i + n < |s| && AllDigits(s[i..i + n]) && !IsDigit(s[i + n])
    ensures DigitRun(s, i) == n
    decreases n
  {
    if n > 0 {
      assert s[i..i + n][0] == s[i];
      assert s[i + 1..i + 1 + (n - 1)] == s[i..i + n][1..];
      DigitRunIsUnique(s, i + 1, n - 1);
    }
  }

  lemma {:induction false} DigitRunShifts(a: string, b: string, i: nat)
    requires i <= |b|
    ensures DigitRun(a + b, |a| + i) == DigitRun(b, i)
    decreases |b| - i
  {
    if i < |b| && IsDigit(b[i]) {
      DigitRunShifts(a, b, i + 1);
    }
  }

  /** A marker with these digits stands at position i. */
  predicate MarkerAt(s: string, i: nat) {
    && i + |OPENING| <= |s|
    && s[i..i + |OPENING|] == OPENING
    && var k := i + |OPENING|;
    var n := DigitRun(s, k);
    n > 0 && k + n < |s| && s[k + n] == ']'
  }

  function DigitsAt(s: string, i: nat): (d: string)
    requires MarkerAt(s, i)
    ensures AllDigits(d)
  {
    var k := i + |OPENING|;
    s[k..k + DigitRun(s, k)]
  }

  /** One past the closing bracket. */
  function MarkerEnd(s: string, i: nat): (e: nat)
    requires MarkerAt(s, i)
    ensures i < e <= |s|
  {
    var k := i + |OPENING|;
    k + DigitRun(s, k) + 1
  }

  predicate HasMarker(s: string) {
    exists i :: 0 <= i <= |s| && MarkerAt(s, i)
  }

  /** `re.search`: the value of the first marker at or after i, or 0. */
  function FirstFrom(s: string, i: nat): nat
    requires i <= |s|
    decreases |s| - i
  {
    if i == |s| then 0
    else if MarkerAt(s, i) then Value(DigitsAt(s, i))
    else FirstFrom(s, i + 1)
  }

  /** `_compacted_through`. */
  function CompactedThrough(summary: string): nat {
    FirstFrom(summary, 0)
  }

  /** A marker ends the text from i on; only white space follows it. */
  predicate FinalMarkerAt(s: string, i: nat) {
    MarkerAt(s, i) && AllSpace(s[MarkerEnd(s, i)..])
  }

  /** Where `\n?\[compacted-through:\d+\]\s*$` first matches at or after i, or the end. */
  function FinalMatchFrom(s: string, i: nat): (r: nat)
    requires i <= |s|
    ensures i <= r <= |s|
    decreases |s| - i
  {
    if i == |s| then i
    else if FinalMarkerAt(s, i) || (s[i] == '\n' && FinalMarkerAt(s, i + 1)) then i
    else FinalMatchFrom(s, i + 1)
  }

  /** `re.sub` of the final marker by nothing. */
  function PriorBody(summary: string): string {
    summary[..FinalMatchFrom(summary, 0)]
  }

  // ---- Printing and parsing ----

  /** A body followed by its watermark, as the summary is stored. */
  function Stamped(body: string, n: nat): string {
    if body == "" then Marker(n) else body + "\n" + Marker(n)
  }

  lemma MarkerStands(body: string, n: nat)
    ensures MarkerAt(body + Marker(n), |body|)
    ensures DigitsAt(body + Marker(n), |body|) == Decimal(n)
    ensures MarkerEnd(body + Marker(n), |body|) == |body + Marker(n)|
  {
    var s := body + Marker(n);
    var k := |body| + |OPENING|;
    assert s[k..k + |Decimal(n)|] == Decimal(n);
    assert s[|body|..k] == OPENING;
    DigitRunIsUnique(s, k, |Decimal(n)|);
  }

  /** A marker that ends within the first part stands there whatever follows. */
  lemma MarkerInPrefix(a: string, b: string, i: nat)
    requires i <= |a|
    ensures MarkerAt(a, i) ==>
      && MarkerAt(a + b, i)
      && DigitsAt(a + b, i) == DigitsAt(a, i)
      && MarkerEnd(a + b, i) == MarkerEnd(a, i)
    ensures MarkerAt(a + b, i) && MarkerEnd(a + b, i) <= |a| ==> MarkerAt(a, i)
  {
    var s, k := a + b, i + |OPENING|;
    if MarkerAt(a, i) {
      var n := DigitRun(a, k);
      assert s[i..k] == a[i..k] && s[k..k + n] == a[k..k + n];
      DigitRunIsUnique(s, k, n);
    } else if MarkerAt(s, i) && MarkerEnd(s, i) <= |a| {
      var n := DigitRun(s, k);
      assert s[i..k] == a[i..k] && s[k..k + n] == a[k..k + n];
      DigitRunIsUnique(a, k, n);
    }
  }

  lemma MarkerInSuffix(a: string, b: string, i: nat)
    ensures MarkerAt(b, i) <==> MarkerAt(a + b, |a| + i)
  {
    hide DigitRun;
    var s, k := a + b, i + |OPENING|;
    if k <= |b| {
      assert s[|a| + i..|a| + k] == b[i..k];
      DigitRunShifts(a, b, k);
    }
  }

  /** No character of a marker is a line break. */
  lemma MarkerHasNoBreak(s: string, i: nat, j: nat)
    requires MarkerAt(s, i) && i <= j < MarkerEnd(s, i)
    ensures s[j] != '\n'
  {
    var k := i + |OPENING|;
    if j < k {
      assert s[i..k][j - i] == OPENING[j - i];
      OpeningHasNoBreak(j - i);
    } else if j < k + DigitRun(s, k) {
      assert s[k..k + DigitRun(s, k)][j - k] == s[j];
    }
  }

  lemma OpeningHasNoBreak(i: nat)
    requires i < |OPENING|
    ensures OPENING[i] != '\n'
  {
    assert OPENING == ['[', 'c', 'o', 'm', 'p', 'a', 'c', 't', 'e', 'd', '-', 't', 'h', 'r', 'o', 'u', 'g', 'h', ':'];
  }

  /** Joining two texts by a line break makes no new marker. */
  lemma MarkersOfLines(a: string, b: string)
    ensures HasMarker(a + "\n" + b) <==> HasMarker(a) || HasMarker(b)
  {
    hide MarkerAt, MarkerEnd, DigitsAt;
    var s := a + "\n" + b;
    assert s == a + ("\n" + b) == (a + "\n") + b;
    if HasMarker(s) {
      var i :| 0 <= i <= |s| && MarkerAt(s, i);
      MarkerSide(a, b, i);
    }
    if HasMarker(a) {
      var i :| 0 <= i <= |a| && MarkerAt(a, i);
      MarkerInPrefix(a, "\n" + b, i);
      assert 0 <= i <= |s| && MarkerAt(s, i);
    }
    if HasMarker(b) {
      var i :| 0 <= i <= |b| && MarkerAt(b, i);
      MarkerInSuffix(a + "\n", b, i);
      assert 0 <= |a| + 1 + i <= |s| && MarkerAt(s, |a| + 1 + i);
    }
  }

  lemma MarkerSide(a: string, b: string, i: nat)
    requires MarkerAt(a + "\n" + b, i)
    ensures HasMarker(a) || HasMarker(b)
  {
    hide MarkerAt, MarkerEnd, DigitsAt, HasMarker;
    var s := a + "\n" + b;
    assert s == a + ("\n" + b) == (a + "\n") + b;
    assert s[|a|] == '\n';
    if i <= |a| && |a| < MarkerEnd(s, i) {
      MarkerHasNoBreak(s, i, |a|);
      assert false;
    } else if i <= |a| {
      MarkerInPrefix(a, "\n" + b, i);
      HasMarkerAt(a, i);
    } else {
      MarkerInSuffix(a + "\n", b, i - |a| - 1);
      HasMarkerAt(b, i - |a| - 1);
    }
  }

  lemma HasMarkerAt(s: string, i: nat)
    requires MarkerAt(s, i)
    ensures HasMarker(s)
  {
    assert 0 <= i <= |s|;
  }

  /** Cutting a text at either end makes no new marker. */
  lemma MarkersOfParts(a: string, b: string)
    ensures HasMarker(a) || HasMarker(b) ==> HasMarker(a + b)
  {
    hide MarkerAt, MarkerEnd, DigitsAt;
    var s := a + b;
    if HasMarker(a) {
      var i :| 0 <= i <= |a| && MarkerAt(a, i);
      MarkerInPrefix(a, b, i);
      assert 0 <= i <= |s| && MarkerAt(s, i);
    } else if HasMarker(b) {
      var i :| 0 <= i <= |b| && MarkerAt(b, i);
      MarkerInSuffix(a, b, i);
      assert 0 <= |a| + i <= |s| && MarkerAt(s, |a| + i);
    }
  }

  lemma {:induction false} MarkersOfJoin(parts: seq<string>)
    ensures HasMarker(Join(parts)) <==> exists i :: 0 <= i < |parts| && HasMarker(parts[i])
  {
    hide HasMarker;
    if parts == [] {
      EmptyHasNoMarker();
    } else if |parts| > 1 {
      var rest, last := parts[..|parts| - 1], parts[|parts| - 1];
      MarkersOfJoin(rest);
      MarkersOfLines(Join(rest), last);
      if HasMarker(Join(rest)) {
        var i :| 0 <= i < |rest| && HasMarker(rest[i]);
        assert HasMarker(parts[i]);
      }
    }
  }

  lemma EmptyHasNoMarker()
    ensures !HasMarker("")
  {
  }

  // ---- Round trips ----

  lemma {:induction false} FirstIsAfter(s: string, i: nat, j: nat)
    requires i <= j <= |s|
    requires forall k :: i <= k < j ==> !MarkerAt(s, k)
    ensures FirstFrom(s, i) == FirstFrom(s, j)
    decreases j - i
  {
    if i < j {
      FirstIsAfter(s, i + 1, j);
    }
  }

  /** With no marker in the text, the search finds the one appended. */
  lemma UnmarkedParses(text: string, n: nat)
    requires !HasMarker(text)
    requires text == "" || text[|text| - 1] == '\n'
    ensures CompactedThrough(text + Marker(n)) == n
  {
    hide MarkerEnd, DigitsAt, HasMarker;
    var s := text + Marker(n);
    MarkerStands(text, n);
    forall k | 0 <= k < |text| ensures !MarkerAt(s, k) {
      if MarkerAt(s, k) {
        NotAcross(text, Marker(n), k);
      }
    }
    hide MarkerAt;
    FirstIsAfter(s, 0, |text|);
    DecimalParsesBack(n);
  }

  lemma NotAcross(text: string, more: string, k: nat)
    requires k < |text| && text[|text| - 1] == '\n' && MarkerAt(text + more, k)
    ensures HasMarker(text) && MarkerAt(text, k)
  {
    hide MarkerAt, MarkerEnd, DigitsAt, HasMarker;
    if MarkerEnd(text + more, k) > |text| {
      MarkerHasNoBreak(text + more, k, |text| - 1);
      assert false;
    } else {
      MarkerInPrefix(text, more, k);
      HasMarkerAt(text, k);
    }
  }

  lemma {:induction false} FirstInPrefix(a: string, b: string, i: nat)
    requires i <= |a| && exists k :: i <= k <= |a| && MarkerAt(a, k)
    requires a != "" && a[|a| - 1] == '\n'
    ensures FirstFrom(a + b, i) == FirstFrom(a, i)
    decreases |a| - i
  {
    hide MarkerAt, MarkerEnd, DigitsAt;
    var k :| i <= k <= |a| && MarkerAt(a, k);
    EndOfTextIsNoMarker(a);
    MarkerInPrefix(a, b, i);
    if !MarkerAt(a, i) {
      if MarkerAt(a + b, i) {
        NotAcross(a, b, i);
      }
      FirstInPrefix(a, b, i + 1);
    }
  }

  lemma EndOfTextIsNoMarker(a: string)
    ensures !MarkerAt(a, |a|)
  {
  }

  /**
   * The watermark parses back exactly when the body in front of it has no marker of its own
   * or its first marker happens to show the same number.
   */
  lemma WatermarkParsesExactly(body: string, n: nat)
    ensures CompactedThrough(Stamped(body, n)) == n <==> !HasMarker(body) || CompactedThrough(body) == n
  {
    hide MarkerAt, MarkerEnd, DigitsAt, HasMarker, FirstFrom;
    if body == "" {
      EmptyHasNoMarker();
      UnmarkedParses("", n);
      assert "" + Marker(n) == Marker(n);
    } else {
      var text := body + "\n";
      MarkersOfLines(body, "");
      EmptyHasNoMarker();
      assert body + "\n" + "" == text;
      if HasMarker(body) {
        FirstWithBreak(body);
        FirstOfMarked(text, Marker(n));
      } else {
        UnmarkedParses(text, n);
      }
    }
  }

  lemma FirstOfMarked(text: string, more: string)
    requires HasMarker(text) && text != "" && text[|text| - 1] == '\n'
    ensures CompactedThrough(text + more) == CompactedThrough(text)
  {
    FirstInPrefix(text, more, 0);
  }

  lemma FirstWithBreak(body: string)
    requires HasMarker(body)
    ensures CompactedThrough(body + "\n") == CompactedThrough(body)
  {
    FirstWithBreakFrom(body, 0);
  }

  lemma {:induction false} FirstWithBreakFrom(body: string, i: nat)
    requires i <= |body|
    ensures FirstFrom(body + "\n", i) == FirstFrom(body, i)
    decreases |body| - i
  {
    hide MarkerAt, MarkerEnd, DigitsAt;
    var s := body + "\n";
    if i == |body| {
      BreakIsNoMarker(s, |body|);
    } else {
      MarkerInPrefix(body, "\n", i);
      if MarkerAt(s, i) && MarkerEnd(s, i) > |body| {
        MarkerHasNoBreak(s, i, |body|);
        assert false;
      }
      FirstWithBreakFrom(body, i + 1);
    }
  }

  lemma BreakIsNoMarker(s: string, i: nat)
    requires i < |s| && s[i] == '\n'
    ensures !MarkerAt(s, i)
  {
  }

  /** The final marker is always found again, whatever the body holds. */
  lemma BodyIsRecovered(body: string, n: nat)
    requires EndsTight(body)
    ensures PriorBody(Stamped(body, n)) == body
  {
    hide MarkerAt, MarkerEnd, DigitsAt;
    var s := Stamped(body, n);
    if body == "" {
      assert "" + Marker(n) == s;
      MarkerStands("", n);
    } else {
      MarkerStands(body + "\n", n);
      forall k | 0 <= k < |body| ensures !FinalMarkerAt(s, k) {
        NotFinal(body + "\n", n, k);
      }
      BreakIsNoMarker(s, |body|);
      assert s[|body|] == '\n' && FinalMarkerAt(s, |body| + 1);
      NoEarlierMatch(s, 0, |body|);
      assert s[..|body|] == body;
    }
  }

  lemma NotFinal(text: string, n: nat, k: nat)
    requires k < |text| && text[|text| - 1] == '\n'
    ensures !FinalMarkerAt(text + Marker(n), k)
  {
    hide MarkerAt, MarkerEnd, Marker;
    var s := text + Marker(n);
    if MarkerAt(s, k) {
      if MarkerEnd(s, k) >= |text| {
        MarkerHasNoBreak(s, k, |text| - 1);
        assert false;
      } else {
        assert s[MarkerEnd(s, k)..][|s| - 1 - MarkerEnd(s, k)] == Marker(n)[|Marker(n)| - 1];
      }
    }
  }

  lemma {:induction false} NoEarlierMatch(s: string, i: nat, j: nat)
    requires i <= j < |s|
    requires forall k :: i <= k <= j ==> !FinalMarkerAt(s, k)
    requires s[j] == '\n' && FinalMarkerAt(s, j + 1)
    ensures FinalMatchFrom(s, i) == j
    decreases j - i
  {
    hide FinalMarkerAt;
    if i < j {
      NoEarlierMatch(s, i + 1, j);
    }
  }
}
