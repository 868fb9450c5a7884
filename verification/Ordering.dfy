/** The orders in which the index lists paths: by name, or by descending rank and then name. */
module Ordering {
  import opened Text

  /** Python's order on strings: by code point, a prefix before its extensions. */
  predicate Lexical(a: string, b: string) {
    if b == [] then false
    else if a == [] then true
    else if a[0] != b[0] then a[0] < b[0]
    else Lexical(a[1..], b[1..])
  }

  /** The texts first differ at position i, or `a` ends there. */
  predicate DecidedAt(a: string, b: string, i: nat) {
    && i <= |a| && i < |b| && a[..i] == b[..i]
    && (i == |a| || a[i] < b[i])
  }

  /** What the order says: `a` is a proper prefix of `b`, or has the smaller character where they first differ. */
  lemma {:induction false} LexicalExactly(a: string, b: string)
    ensures Lexical(a, b) <==> exists i :: DecidedAt(a, b, i)
    decreases |a|
  {
    if b != [] {
      assert forall i: nat :: DecidedAt(a, b, i) && i > 0 ==> a[..i][0] == b[..i][0];
      if a == [] || a[0] != b[0] {
        assert Lexical(a, b) ==> DecidedAt(a, b, 0);
      } else {
        LexicalExactly(a[1..], b[1..]);
        if i: nat :| DecidedAt(a[1..], b[1..], i) {
          assert a[..i + 1] == [a[0]] + a[1..][..i] && b[..i + 1] == [b[0]] + b[1..][..i];
          assert DecidedAt(a, b, i + 1);
        }
        if i: nat :| DecidedAt(a, b, i) {
          assert i > 0;
          assert a[1..][..i - 1] == a[..i][1..] && b[1..][..i - 1] == b[..i][1..];
          assert DecidedAt(a[1..], b[1..], i - 1);
        }
      }
    }
  }

  /** `ranks.get(path, 0.0)`. */
  function RankOf(ranks: map<Path, real>, p: Path): real {
    if p in ranks then ranks[p] else 0.0
  }

  /** The sort key `(-rank, path)`; with no ranks this is the order of `sorted(paths)`. */
  predicate Precedes(ranks: map<Path, real>, a: Path, b: Path) {
    || RankOf(ranks, a) > RankOf(ranks, b)
    || (RankOf(ranks, a) == RankOf(ranks, b) && Lexical(a, b))
  }

  ghost predicate InOrder(ranks: map<Path, real>, paths: seq<Path>) {
    forall i, j :: 0 <= i < j < |paths| ==> Precedes(ranks, paths[i], paths[j])
  }

  /** Higher ranks come first, and equal ranks in the order of the names; without a rank a path counts as 0. */
  lemma OrderMeans(ranks: map<Path, real>, paths: seq<Path>, i: nat, j: nat)
    requires InOrder(ranks, paths) && i < j < |paths|
    ensures var r, s := if paths[i] in ranks then ranks[paths[i]] else 0.0, if paths[j] in ranks then ranks[paths[j]] else 0.0;
      r > s || (r == s && exists k :: DecidedAt(paths[i], paths[j], k))
  {
    assert Precedes(ranks, paths[i], paths[j]);
    LexicalExactly(paths[i], paths[j]);
  }

  lemma {:induction false} LexicalTotal(a: string, b: string)
    ensures a != b ==> Lexical(a, b) || Lexical(b, a)
    ensures !(Lexical(a, b) && Lexical(b, a))
    ensures !Lexical(a, a)
    decreases |a|
  {
    if a != [] && b != [] && a[0] == b[0] {
      LexicalTotal(a[1..], b[1..]);
      assert a == [a[0]] + a[1..] && b == [b[0]] + b[1..];
    }
    if a != [] {
      LexicalTotal(a[1..], a[1..]);
    }
  }

  lemma {:induction false} LexicalTransitive(a: string, b: string, c: string)
    requires Lexical(a, b) && Lexical(b, c)
    ensures Lexical(a, c)
    decreases |a|
  {
    if a != [] && a[0] == b[0] && b[0] == c[0] {
      LexicalTransitive(a[1..], b[1..], c[1..]);
    }
  }

  lemma PrecedesTransitive(ranks: map<Path, real>, a: Path, b: Path, c: Path)
    requires Precedes(ranks, a, b) && Precedes(ranks, b, c)
    ensures Precedes(ranks, a, c)
  {
    if Lexical(a, b) && Lexical(b, c) {
      LexicalTransitive(a, b, c);
    }
  }

  /** An ordered list has no duplicates. */
  lemma OrderedIsDistinct(ranks: map<Path, real>, paths: seq<Path>)
    requires InOrder(ranks, paths)
    ensures forall i, j :: 0 <= i < j < |paths| ==> paths[i] != paths[j]
  {
    forall i, j | 0 <= i < j < |paths|
      ensures paths[i] != paths[j]
    {
      assert Precedes(ranks, paths[i], paths[j]);
      LexicalTotal(paths[i], paths[i]);
    }
  }

  /** There is only one way to list a set of paths in order. */
  lemma {:induction false} OrderIsUnique(ranks: map<Path, real>, a: seq<Path>, b: seq<Path>)
    requires InOrder(ranks, a) && InOrder(ranks, b)
    requires forall x :: x in a <==> x in b
    ensures a == b
    decreases |a|
  {
    hide Precedes;
    if a == [] {
      if b != [] {
        HasMember(b);
      }
    } else {
      assert a[0] in b && b[0] in a;
      OrderedIsDistinct(ranks, a);
      OrderedIsDistinct(ranks, b);
      if a[0] != b[0] {
        PrecedesTransitive(ranks, a[0], b[0], a[0]);
        PrecedesIrreflexive(ranks, a[0]);
      }
      SameTail(a, b);
      SameTail(b, a);
      OrderIsUnique(ranks, a[1..], b[1..]);
    }
  }

  lemma HasMember(b: seq<Path>)
    requires b != []
    ensures exists x :: x in b
  {
    assert b[0] in b;
  }

  lemma SameTail(a: seq<Path>, b: seq<Path>)
    requires a != [] && b != [] && a[0] == b[0]
    requires forall x :: x in a ==> x in b
    requires forall i, j :: 0 <= i < j < |a| ==> a[i] != a[j]
    ensures forall x :: x in a[1..] ==> x in b[1..]
  {
    forall x | x in a[1..] ensures x in b[1..] {
      var i :| 0 <= i < |a[1..]| && a[1..][i] == x;
      assert a[i + 1] == x && a[0] != a[i + 1];
      assert x in a;
      var j :| 0 <= j < |b| && b[j] == x;
      assert b[1..][j - 1] == x;
    }
  }

  lemma PrecedesIrreflexive(ranks: map<Path, real>, a: Path)
    ensures !Precedes(ranks, a, a)
  {
    LexicalTotal(a, a);
  }

  method First(ranks: map<Path, real>, s: set<Path>) returns (m: Path)
    requires s != {}
    ensures m in s && forall x :: x in s && x != m ==> Precedes(ranks, m, x)
  {
    hide Precedes;
    m :| m in s;
    var rest := s - {m};
    while rest != {}
      invariant rest <= s && m in s && m !in rest
      invariant forall x :: x in s && x !in rest && x != m ==> Precedes(ranks, m, x)
      decreases rest
    {
      var x :| x in rest;
      rest := rest - {x};
      PrecedesTotal(ranks, m, x);
      if Precedes(ranks, x, m) {
        forall y | y in s && y !in rest && y != x && y != m ensures Precedes(ranks, x, y) {
          PrecedesTransitive(ranks, x, m, y);
        }
        m := x;
      }
    }
  }

  lemma PrecedesTotal(ranks: map<Path, real>, a: Path, b: Path)
    requires a != b
    ensures Precedes(ranks, a, b) || Precedes(ranks, b, a)
  {
    LexicalTotal(a, b);
  }

  /** `sorted(s, key=...)`. */
  method Sort(ranks: map<Path, real>, s: set<Path>) returns (r: seq<Path>)
    ensures InOrder(ranks, r)
    ensures forall x :: x in r <==> x in s
  {
    hide Precedes;
    r := [];
    var rest := s;
    while rest != {}
      invariant rest <= s
      invariant forall x :: x in r <==> x in s && x !in rest
      invariant InOrder(ranks, r)
      invariant forall i, x :: 0 <= i < |r| && x in rest ==> Precedes(ranks, r[i], x)
      decreases rest
    {
      var m := First(ranks, rest);
      r := r + [m];
      rest := rest - {m};
    }
  }
}
