/** Reverse-dependency blast radius (src/minion/runtime/code_index.py, `impact_analysis`). */
module Impact {
  import opened Ordering
  import opened Text

  type Edges = map<Path, seq<Path>>

  const MAX_DEPTH := 5

  function Clip(depth: int): nat {
    if depth < 0 then 0 else if depth > MAX_DEPTH then MAX_DEPTH else depth
  }

  /** The file is meant by its path or by a symbol it defines. */
  predicate Matches(path: Path, symbols: seq<string>, target: string) {
    Contains(Lower(path), Lower(target)) || SymbolMatches(symbols, target)
  }

  predicate SymbolMatches(symbols: seq<string>, target: string) {
    exists i :: 0 <= i < |symbols| && Lower(symbols[i]) == Lower(target)
  }

  function Matched(facts: map<Path, seq<string>>, target: string): set<Path> {
    set p | p in facts && Matches(p, facts[p], target)
  }

  /** A target means a file exactly when it is part of its path or names one of its symbols, whatever the case. */
  lemma MatchesExactly(path: Path, symbols: seq<string>, target: string)
    ensures Matches(path, symbols, target) <==>
      || (exists a, part, b :: path == a + part + b && SameButCase(part, target))
      || (exists i :: 0 <= i < |symbols| && SameButCase(symbols[i], target))
  {
    forall i | 0 <= i < |symbols|
      ensures Lower(symbols[i]) == Lower(target) <==> SameButCase(symbols[i], target)
    {
      LowerForgetsCaseExactly(symbols[i], target);
    }
    hide Contains, Lower, SameButCase;
    PartExactly(path, target);
  }

  lemma LowerOfPart(s: string, i: nat, n: nat)
    requires i + n <= |s|
    ensures |Lower(s)| == |s| && Lower(s[i..i + n]) == Lower(s)[i..i + n]
  {
  }

  lemma PartExactly(path: Path, target: string)
    ensures Contains(Lower(path), Lower(target)) <==>
      exists a, part, b :: path == a + part + b && SameButCase(part, target)
  {
    LowerOfPart(target, 0, |target|);
    LowerOfPart(path, 0, |path|);
    hide Lower, SameButCase;
    if Contains(Lower(path), Lower(target)) {
      var i :| 0 <= i <= |Lower(path)| && StartsAt(Lower(path), i, Lower(target));
      var part := path[i..i + |target|];
      LowerOfPart(path, i, |target|);
      LowerForgetsCaseExactly(part, target);
      assert path == path[..i] + part + path[i + |target|..];
    }
    if a, part, b :| path == a + part + b && SameButCase(part, target) {
      LowerForgetsCaseExactly(part, target);
      LowerOfPart(path, |a|, |part|);
      assert path[|a|..|a| + |part|] == part;
      assert StartsAt(Lower(path), |a|, Lower(target));
    }
  }

  // ---- Specification by chains of dependencies ----

  /** `b` imports `a`. */
  predicate Link(edges: Edges, a: Path, b: Path) {
    b in edges && a in edges[b]
  }

  /** Each file of the chain depends on the one before it; the chain starts at a target file. */
  ghost predicate Chain(edges: Edges, from: set<Path>, p: seq<Path>) {
    && |p| > 0
    && p[0] in from
    && forall i, j :: 0 <= i < j < |p| && j == i + 1 ==> Link(edges, p[i], p[j])
  }

  /** Some chain of at most `d` steps ends in `v`. */
  ghost predicate Within(edges: Edges, from: set<Path>, v: Path, d: nat) {
    exists p :: Chain(edges, from, p) && |p| <= d + 1 && p[|p| - 1] == v
  }

  /** The shortest chain to `v` has exactly `d` steps. */
  ghost predicate AtDistance(edges: Edges, from: set<Path>, v: Path, d: nat) {
    && (exists p :: Chain(edges, from, p) && |p| == d + 1 && p[|p| - 1] == v)
    && (forall p :: Chain(edges, from, p) && p[|p| - 1] == v ==> |p| >= d + 1)
  }

  /** Some chain ends in `v`: the reverse transitive closure. */
  ghost predicate Affected(edges: Edges, from: set<Path>, v: Path) {
    exists p :: Chain(edges, from, p) && p[|p| - 1] == v
  }

  // ---- The same by breadth ----

  function Dependents(edges: Edges, s: set<Path>): set<Path> {
    set v | v in edges && exists t :: t in edges[v] && t in s
  }

  function Ball(edges: Edges, from: set<Path>, d: nat): set<Path> {
    if d == 0 then from
    else Ball(edges, from, d - 1) + Dependents(edges, Ball(edges, from, d - 1))
  }

  lemma {:induction false} BallSound(edges: Edges, from: set<Path>, d: nat, v: Path) returns (p: seq<Path>)
    requires v in Ball(edges, from, d)
    ensures Chain(edges, from, p) && |p| <= d + 1 && p[|p| - 1] == v
    ensures d > 0 && v !in Ball(edges, from, d - 1) ==> |p| == d + 1
    decreases d
  {
    if d == 0 {
      p := [v];
    } else if v in Ball(edges, from, d - 1) {
      p := BallSound(edges, from, d - 1, v);
    } else {
      var t :| t in edges[v] && t in Ball(edges, from, d - 1);
      var q := BallSound(edges, from, d - 1, t);
      p := q + [v];
      forall i, j | 0 <= i < j < |p| && j == i + 1 ensures Link(edges, p[i], p[j]) {
        if j < |q| {
          assert Link(edges, q[i], q[j]);
        }
      }
    }
  }

  lemma {:induction false} BallComplete(edges: Edges, from: set<Path>, p: seq<Path>)
    requires Chain(edges, from, p)
    ensures p[|p| - 1] in Ball(edges, from, |p| - 1)
    decreases |p|
  {
    if |p| > 1 {
      var q := p[..|p| - 1];
      forall i, j | 0 <= i < j < |q| && j == i + 1 ensures Link(edges, q[i], q[j]) {
        assert Link(edges, p[i], p[j]);
      }
      BallComplete(edges, from, q);
      assert q[|q| - 1] == p[|p| - 2];
    }
  }

  lemma {:induction false} BallGrows(edges: Edges, from: set<Path>, d: nat, e: nat)
    requires d <= e
    ensures Ball(edges, from, d) <= Ball(edges, from, e)
    decreases e
  {
    if d < e {
      BallGrows(edges, from, d, e - 1);
    }
  }

  lemma {:induction false} BallStops(edges: Edges, from: set<Path>, d: nat, e: nat)
    requires d <= e && Ball(edges, from, d + 1) == Ball(edges, from, d)
    ensures Ball(edges, from, e) == Ball(edges, from, d)
    decreases e
  {
    if d < e {
      BallStops(edges, from, d, e - 1);
    }
  }

  /** A layer of the search is exactly the files at one distance. */
  lemma LayerIsDistance(edges: Edges, from: set<Path>, d: nat, v: Path)
    requires d > 0
    ensures v in Ball(edges, from, d) - Ball(edges, from, d - 1) <==> AtDistance(edges, from, v, d)
  {
    hide Ball;
    if v in Ball(edges, from, d) && v !in Ball(edges, from, d - 1) {
      var p := BallSound(edges, from, d, v);
      forall q | Chain(edges, from, q) && q[|q| - 1] == v ensures |q| >= d + 1 {
        BallComplete(edges, from, q);
        if |q| < d + 1 {
          BallGrows(edges, from, |q| - 1, d - 1);
        }
      }
    }
    if AtDistance(edges, from, v, d) {
      var p :| Chain(edges, from, p) && |p| == d + 1 && p[|p| - 1] == v;
      BallComplete(edges, from, p);
      if v in Ball(edges, from, d - 1) {
        var q := BallSound(edges, from, d - 1, v);
      }
    }
  }

  lemma BallIsWithin(edges: Edges, from: set<Path>, d: nat, v: Path)
    ensures v in Ball(edges, from, d) <==> Within(edges, from, v, d)
  {
    if v in Ball(edges, from, d) {
      var p := BallSound(edges, from, d, v);
    }
    if Within(edges, from, v, d) {
      var p :| Chain(edges, from, p) && |p| <= d + 1 && p[|p| - 1] == v;
      BallComplete(edges, from, p);
      BallGrows(edges, from, |p| - 1, d);
    }
  }

  /** A search that finds nothing new has found everything. */
  lemma StoppedBallIsClosure(edges: Edges, from: set<Path>, d: nat, v: Path)
    requires Ball(edges, from, d + 1) == Ball(edges, from, d)
    ensures v in Ball(edges, from, d) <==> Affected(edges, from, v)
  {
    if v in Ball(edges, from, d) {
      var p := BallSound(edges, from, d, v);
    }
    if Affected(edges, from, v) {
      var p :| Chain(edges, from, p) && p[|p| - 1] == v;
      BallComplete(edges, from, p);
      if |p| - 1 <= d {
        BallGrows(edges, from, |p| - 1, d);
      } else {
        BallStops(edges, from, d, |p| - 1);
      }
    }
  }

  // ---- The loops ----

  method TargetFiles(facts: map<Path, seq<string>>, target: string) returns (files: set<Path>)
    ensures files == Matched(facts, target)
  {
    files := set p | p in facts && Contains(Lower(p), Lower(target));
    var rest := facts.Keys;
    while rest != {}
      invariant rest <= facts.Keys
      invariant files == set p | p in facts &&
        (Contains(Lower(p), Lower(target)) || (p !in rest && SymbolMatches(facts[p], target)))
      decreases rest
    {
      hide Contains, SymbolMatches;
      var p :| p in rest;
      rest := rest - {p};
      if SymbolMatches(facts[p], target) {
        files := files + {p};
      }
    }
  }

  /** The `reverse` dictionary; a missing key means the empty set. */
  function Sources(reverse: map<Path, set<Path>>, p: Path): set<Path> {
    if p in reverse then reverse[p] else {}
  }

  ghost predicate Reverses(reverse: map<Path, set<Path>>, edges: Edges, done: set<Path>) {
    forall p, v :: v in Sources(reverse, p) <==> v in done && v in edges && p in edges[v]
  }

  method BuildReverse(edges: Edges) returns (reverse: map<Path, set<Path>>)
    ensures Reverses(reverse, edges, edges.Keys)
  {
    reverse := map[];
    var rest := edges.Keys;
    while rest != {}
      invariant rest <= edges.Keys
      invariant Reverses(reverse, edges, edges.Keys - rest)
      decreases rest
    {
      var source :| source in rest;
      rest := rest - {source};
      reverse := AddReverse(reverse, source, edges[source]);
    }
  }

  method AddReverse(reverse: map<Path, set<Path>>, source: Path, targets: seq<Path>) returns (r: map<Path, set<Path>>)
    ensures forall p, v :: v in Sources(r, p) <==> v in Sources(reverse, p) || (v == source && p in targets)
  {
    r := reverse;
    for j := 0 to |targets|
      invariant forall p, v :: v in Sources(r, p) <==> v in Sources(reverse, p) || (v == source && p in targets[..j])
    {
      r := r[targets[j] := Sources(r, targets[j]) + {source}];
      assert targets[..j + 1] == targets[..j] + [targets[j]];
    }
    assert targets[..|targets|] == targets;
  }

  method NextLayer(edges: Edges, reverse: map<Path, set<Path>>, frontier: set<Path>) returns (next: set<Path>)
    requires Reverses(reverse, edges, edges.Keys)
    ensures next == Dependents(edges, frontier)
  {
    next := {};
    var rest := frontier;
    while rest != {}
      invariant rest <= frontier
      invariant forall v :: v in next <==> v in edges && exists t :: t in edges[v] && t in frontier && t !in rest
      decreases rest
    {
      var current :| current in rest;
      rest := rest - {current};
      ghost var before := next;
      next := next + Sources(reverse, current);
      forall v | v in edges && exists t :: t in edges[v] && t in frontier && t !in rest
        ensures v in next
      {
        var t :| t in edges[v] && t in frontier && t !in rest;
        if t != current {
          assert v in before;
        }
      }
    }
  }

  /** `impact_analysis`: matched files, layers nearest first, and all impacted files. */
  method ImpactAnalysis(facts: map<Path, seq<string>>, edges: Edges, ranks: map<Path, real>, target: string, depth: int := 2)
    returns (matched: seq<Path>, layers: seq<seq<Path>>, impacted: seq<Path>)
    ensures InOrder(map[], matched) && forall v :: v in matched <==> v in Matched(facts, target)
    ensures |layers| <= 5 && (if depth < 0 then layers == [] else |layers| <= depth)
    ensures forall i :: 0 <= i < |layers| ==>
      && layers[i] != [] && InOrder(ranks, layers[i])
      && forall v :: v in layers[i] <==> AtDistance(edges, Matched(facts, target), v, i + 1)
    ensures InOrder(map[], impacted)
    ensures forall v :: v in impacted <==>
      v !in Matched(facts, target) && Within(edges, Matched(facts, target), v, |layers|)
    ensures |layers| < 5 && |layers| < depth ==> forall v :: v in impacted <==>
      v !in Matched(facts, target) && Affected(edges, Matched(facts, target), v)
  {
    hide Matched, AtDistance, Within, Affected, InOrder, Dependents;
    var files := TargetFiles(facts, target);
    var reverse := BuildReverse(edges);
    var seen, frontier := files, files;
    layers := [];
    var stopped := false;
    for i := 0 to Clip(depth)
      invariant |layers| <= i && (!stopped ==> |layers| == i)
      invariant seen == Ball(edges, files, |layers|)
      invariant frontier == if |layers| == 0 then files else seen - Ball(edges, files, |layers| - 1)
      invariant stopped ==> |layers| < Clip(depth) && Ball(edges, files, |layers| + 1) == seen
      invariant forall k :: 0 <= k < |layers| ==>
        && layers[k] != [] && InOrder(ranks, layers[k])
        && forall v :: v in layers[k] <==> AtDistance(edges, files, v, k + 1)
    {
      if !stopped {
        var next := NextLayer(edges, reverse, frontier);
        FrontierSuffices(edges, files, |layers|, frontier);
        next := next - seen;
        if next == {} {
          stopped := true;
          BallGrows(edges, files, |layers|, |layers| + 1);
          NothingLeft(Ball(edges, files, |layers| + 1), Ball(edges, files, |layers|));
        } else {
          var ordered := Sort(ranks, next);
          forall v ensures v in ordered <==> AtDistance(edges, files, v, |layers| + 1) {
            LayerIsDistance(edges, files, |layers| + 1, v);
          }
          layers := layers + [ordered];
          seen := seen + next;
          frontier := next;
        }
      }
    }
    matched := Sort(map[], files);
    impacted := Sort(map[], seen - files);
    forall v ensures v in seen <==> Within(edges, files, v, |layers|) {
      BallIsWithin(edges, files, |layers|, v);
    }
    if |layers| < Clip(depth) {
      forall v ensures v in seen <==> Affected(edges, files, v) {
        StoppedBallIsClosure(edges, files, |layers|, v);
      }
    }
  }

  lemma NothingLeft(a: set<Path>, b: set<Path>)
    requires a - b == {}
    ensures a <= b
  {
    forall v | v in a ensures v in b {
      assert v in b || v in a - b;
    }
  }

  /** Looking only at the last layer finds all new dependents. */
  lemma FrontierSuffices(edges: Edges, from: set<Path>, d: nat, frontier: set<Path>)
    requires frontier == if d == 0 then from else Ball(edges, from, d) - Ball(edges, from, d - 1)
    ensures Dependents(edges, frontier) - Ball(edges, from, d) == Ball(edges, from, d + 1) - Ball(edges, from, d)
  {
    if d > 0 {
      assert Ball(edges, from, d) == Ball(edges, from, d - 1) + Dependents(edges, Ball(edges, from, d - 1));
    }
  }
}
