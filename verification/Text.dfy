/** The string operations the index applies to paths, symbols and import tokens. */
module Text {

  type Path = string

  function LowerChar(c: char): char {
    if 'A' <= c <= 'Z' then c - 'A' + 'a' else c
  }

  /** `lower()` on ASCII letters. */
  function Lower(s: string): string {
    seq(|s|, i requires 0 <= i < |s| => LowerChar(s[i]))
  }

  /** The two letters are one in lower and upper case. */
  predicate CaseTwins(a: char, b: char) {
    || ('A' <= a <= 'Z' && b as int == a as int + 32)
    || ('A' <= b <= 'Z' && a as int == b as int + 32)
  }

  ghost predicate SameButCase(s: string, t: string) {
    |s| == |t| && forall i :: 0 <= i < |s| ==> s[i] == t[i] || CaseTwins(s[i], t[i])
  }

  /** Lower-casing makes two texts equal exactly when only the case of letters told them apart. */
  lemma LowerForgetsCaseExactly(s: string, t: string)
    ensures Lower(s) == Lower(t) <==> SameButCase(s, t)
    ensures forall i :: 0 <= i < |s| ==> !('A' <= Lower(s)[i] <= 'Z')
  {
    if Lower(s) == Lower(t) {
      assert |Lower(s)| == |s| && |Lower(t)| == |t|;
      forall i | 0 <= i < |s| ensures s[i] == t[i] || CaseTwins(s[i], t[i]) {
        assert Lower(s)[i] == LowerChar(s[i]) && Lower(t)[i] == LowerChar(t[i]);
      }
    }
  }

  predicate StartsAt(s: string, i: nat, part: string) {
    i + |part| <= |s| && s[i..i + |part|] == part
  }

  /** `part in s`. */
  predicate Contains(s: string, part: string) {
    exists i :: 0 <= i <= |s| && StartsAt(s, i, part)
  }

  /** `s.replace(from, to)` for single characters. */
  function Replace(s: string, from: char, to: char): string {
    seq(|s|, i requires 0 <= i < |s| => if s[i] == from then to else s[i])
  }

  /** `s.lstrip("./")`. */
  function StripDotSlash(s: string): string {
    if s != [] && (s[0] == '.' || s[0] == '/') then StripDotSlash(s[1..]) else s
  }

  /** `s.removesuffix(suffix)`. */
  function RemoveSuffix(s: string, suffix: string): string {
    if |suffix| <= |s| && s[|s| - |suffix|..] == suffix then s[..|s| - |suffix|] else s
  }

  /** What follows the last `c`: `s.split(c)[-1]`. */
  function AfterLast(s: string, c: char): (r: string)
    ensures |r| <= |s|
  {
    if s == [] || s[|s| - 1] == c then []
    else AfterLast(s[..|s| - 1], c) + [s[|s| - 1]]
  }

  /** What precedes the last component, including the final `/` (empty when there is none). */
  function Directory(s: string): string {
    s[..|s| - |AfterLast(s, '/')|]
  }

  /** `Path(s).name`: the last component that is neither empty nor ".". */
  function Name(s: string): string {
    var last := AfterLast(s, '/');
    if last != [] && last != "." then last
    else if |last| + 1 <= |s| then Name(s[..|s| - |last| - 1])
    else []
  }

  /** Length of a component without its suffix: a leading or trailing dot starts none. */
  function StemLength(name: string): nat
    ensures StemLength(name) <= |name|
  {
    var ext := |AfterLast(name, '.')|;
    if 0 < ext && ext + 1 < |name| then |name| - ext - 1 else |name|
  }

  /** `Path(s).stem`. */
  function Stem(s: string): string {
    Name(s)[..StemLength(Name(s))]
  }

  /** `Path(s).suffix`. */
  function Suffix(s: string): string {
    Name(s)[StemLength(Name(s))..]
  }

  /** `str(Path(s).with_suffix(""))` for a tracked path, which ends in a real component. */
  function WithoutSuffix(s: string): string {
    Directory(s) + AfterLast(s, '/')[..StemLength(AfterLast(s, '/'))]
  }
}
