/** Mass and contraction of the ranks computed by `PageRank.Compute`. */
module RankTheorems {
  import opened PageRank
  import opened Text

  // ---- Exchanging the sum over incoming edges with the sum over outgoing edges ----

  /** Edges of one source that end in `targets`, counted target by target. */
  function Hits(ends: seq<Path>, targets: seq<Path>): nat {
    if targets == [] then 0
    else Hits(ends, targets[..|targets| - 1]) + Count(ends, targets[|targets| - 1])
  }

  /** Summed over the receivers. */
  function Received(edges: map<Path, seq<Path>>, rank: map<Path, real>, sources: seq<Path>, targets: seq<Path>): real
    requires forall u :: u in sources ==> u in edges && u in rank
  {
    if targets == [] then 0.0
    else Received(edges, rank, sources, targets[..|targets| - 1])
         + Inflow(edges, rank, sources, targets[|targets| - 1])
  }

  /** Summed over the senders. */
  function Sent(edges: map<Path, seq<Path>>, rank: map<Path, real>, sources: seq<Path>, targets: seq<Path>): real
    requires forall u :: u in sources ==> u in edges && u in rank
  {
    if sources == [] then 0.0
    else
      var u := sources[|sources| - 1];
      Sent(edges, rank, sources[..|sources| - 1], targets)
      + Times(Hits(edges[u], targets), Share(edges, rank, u))
  }

  lemma TimesAdds(m: nat, n: nat, x: real)
    ensures Times(m + n, x) == Times(m, x) + Times(n, x)
  {
  }

  lemma {:induction false} ReceivedFromNobody(edges: map<Path, seq<Path>>, rank: map<Path, real>, targets: seq<Path>)
    ensures Received(edges, rank, [], targets) == 0.0
  {
    if targets != [] {
      ReceivedFromNobody(edges, rank, targets[..|targets| - 1]);
    }
  }

  lemma {:induction false} LastSender(edges: map<Path, seq<Path>>, rank: map<Path, real>, sources: seq<Path>, targets: seq<Path>)
    requires sources != [] && forall u :: u in sources ==> u in edges && u in rank
    ensures var u := sources[|sources| - 1];
      Received(edges, rank, sources, targets)
      == Received(edges, rank, sources[..|sources| - 1], targets) + Times(Hits(edges[u], targets), Share(edges, rank, u))
  {
    hide Times, Share, Count;
    var u := sources[|sources| - 1];
    if targets == [] {
      TimesStep(0, Share(edges, rank, u));
    } else {
      var rest := targets[..|targets| - 1];
      LastSender(edges, rank, sources, rest);
      TimesAdds(Hits(edges[u], rest), Count(edges[u], targets[|targets| - 1]), Share(edges, rank, u));
    }
  }

  /** What is received is what is sent. */
  lemma {:induction false} Exchange(edges: map<Path, seq<Path>>, rank: map<Path, real>, sources: seq<Path>, targets: seq<Path>)
    requires forall u :: u in sources ==> u in edges && u in rank
    ensures Received(edges, rank, sources, targets) == Sent(edges, rank, sources, targets)
  {
    hide Times, Share, Hits;
    if sources == [] {
      ReceivedFromNobody(edges, rank, targets);
    } else {
      LastSender(edges, rank, sources, targets);
      Exchange(edges, rank, sources[..|sources| - 1], targets);
    }
  }

  // ---- How many edges of a source stay inside the node list ----

  ghost predicate Distinct(nodes: seq<Path>) {
    forall i, j :: 0 <= i < j < |nodes| ==> nodes[i] != nodes[j]
  }

  lemma {:induction false} CountOfDistinct(nodes: seq<Path>, v: Path)
    requires Distinct(nodes)
    ensures Count(nodes, v) == if v in nodes then 1 else 0
  {
    if nodes != [] {
      var rest := nodes[..|nodes| - 1];
      CountOfDistinct(rest, v);
      assert nodes == rest + [nodes[|nodes| - 1]];
    }
  }

  lemma {:induction false} HitsOfLastEnd(ends: seq<Path>, targets: seq<Path>)
    requires ends != []
    ensures Hits(ends, targets) == Hits(ends[..|ends| - 1], targets) + Count(targets, ends[|ends| - 1])
  {
    if targets != [] {
      HitsOfLastEnd(ends, targets[..|targets| - 1]);
    }
  }

  lemma {:induction false} HitsOfNothing(targets: seq<Path>)
    ensures Hits([], targets) == 0
  {
    if targets != [] {
      HitsOfNothing(targets[..|targets| - 1]);
    }
  }

  /** No edge is counted twice, and all are counted exactly when none leaves the node list. */
  lemma {:induction false} HitsBound(ends: seq<Path>, nodes: seq<Path>)
    requires Distinct(nodes)
    ensures Hits(ends, nodes) <= |ends|
    ensures Hits(ends, nodes) == |ends| <==> forall v :: v in ends ==> v in nodes
  {
    if ends == [] {
      HitsOfNothing(nodes);
    } else {
      var rest, v := ends[..|ends| - 1], ends[|ends| - 1];
      HitsBound(rest, nodes);
      HitsOfLastEnd(ends, nodes);
      CountOfDistinct(nodes, v);
      assert ends == rest + [v];
    }
  }

  // ---- Mass ----

  /** The source passes on all of its rank: it has edges and they all end at nodes. */
  ghost predicate Keeps(nodes: seq<Path>, edges: map<Path, seq<Path>>, u: Path)
    requires u in edges
  {
    edges[u] != [] && forall v :: v in edges[u] ==> v in nodes
  }

  lemma PartOf(rank: real, hits: nat, degree: real)
    requires rank >= 0.0 && degree >= 1.0 && hits as real <= degree
    ensures 0.0 <= Times(hits, rank / degree) <= rank
    ensures hits as real == degree ==> Times(hits, rank / degree) == rank
    ensures rank > 0.0 && hits as real < degree ==> Times(hits, rank / degree) < rank
  {
    var q := rank / degree;
    assert q * degree == rank;
    assert q >= 0.0;
    Monotone(q, hits as real, degree);
  }

  lemma Monotone(q: real, a: real, b: real)
    requires q >= 0.0 && 0.0 <= a <= b
    ensures 0.0 <= a * q <= b * q
    ensures q > 0.0 && a < b ==> a * q < b * q
  {
  }

  lemma SenderKeepsOrLoses(nodes: seq<Path>, edges: map<Path, seq<Path>>, rank: map<Path, real>, u: Path)
    requires Distinct(nodes) && u in edges && u in rank && rank[u] >= 0.0
    ensures var sent := Times(Hits(edges[u], nodes), Share(edges, rank, u));
      && 0.0 <= sent <= rank[u]
      && (Keeps(nodes, edges, u) ==> sent == rank[u])
      && (!Keeps(nodes, edges, u) && rank[u] > 0.0 ==> sent < rank[u])
  {
    hide Times;
    HitsBound(edges[u], nodes);
    PartOf(rank[u], Hits(edges[u], nodes), Degree(edges[u]));
  }

  lemma {:induction false} SentBound(nodes: seq<Path>, edges: map<Path, seq<Path>>, rank: map<Path, real>, sources: seq<Path>)
    requires Distinct(nodes)
    requires forall u :: u in sources ==> u in edges && u in rank && rank[u] >= 0.0
    ensures 0.0 <= Sent(edges, rank, sources, nodes) <= Total(sources, rank)
    ensures (forall u :: u in sources ==> Keeps(nodes, edges, u)) ==>
      Sent(edges, rank, sources, nodes) == Total(sources, rank)
    ensures (exists u :: u in sources && !Keeps(nodes, edges, u) && rank[u] > 0.0) ==>
      Sent(edges, rank, sources, nodes) < Total(sources, rank)
  {
    hide Times, Share, Hits, Keeps;
    if sources != [] {
      var rest, u := sources[..|sources| - 1], sources[|sources| - 1];
      SentBound(nodes, edges, rank, rest);
      SenderKeepsOrLoses(nodes, edges, rank, u);
      assert sources == rest + [u];
    }
  }

  lemma {:induction false} TotalOfNext(nodes: seq<Path>, edges: map<Path, seq<Path>>, rank: map<Path, real>, prefix: seq<Path>)
    requires forall u :: u in nodes ==> u in edges && u in rank
    requires nodes != [] && forall v :: v in prefix ==> v in nodes
    ensures Total(prefix, NextRank(nodes, edges, rank))
      == Times(|prefix|, (1.0 - DAMPING) / |nodes| as real) + DAMPING * Received(edges, rank, nodes, prefix)
  {
    hide Inflow;
    var base := (1.0 - DAMPING) / |nodes| as real;
    if prefix == [] {
    } else {
      var rest, v := prefix[..|prefix| - 1], prefix[|prefix| - 1];
      TotalOfNext(nodes, edges, rank, rest);
      TimesStep(|prefix|, base);
    }
  }

  lemma WholeTimes(n: nat, x: real)
    requires n > 0
    ensures Times(n, x / n as real) == x
  {
  }

  /** Mass of one iteration: the undamped part plus the damped part of what was sent. */
  lemma MassOfNext(nodes: seq<Path>, edges: map<Path, seq<Path>>, rank: map<Path, real>)
    requires nodes != [] && forall u :: u in nodes ==> u in edges && u in rank
    ensures Total(nodes, NextRank(nodes, edges, rank)) == 1.0 - DAMPING + DAMPING * Sent(edges, rank, nodes, nodes)
  {
    hide NextRank, Received, Sent, Total, Times;
    TotalOfNext(nodes, edges, rank, nodes);
    WholeTimes(|nodes|, 1.0 - DAMPING);
    Exchange(edges, rank, nodes, nodes);
  }

  lemma {:induction false} InflowNonnegative(edges: map<Path, seq<Path>>, rank: map<Path, real>, sources: seq<Path>, v: Path)
    requires forall u :: u in sources ==> u in edges && u in rank && rank[u] >= 0.0
    ensures Inflow(edges, rank, sources, v) >= 0.0
  {
    if sources != [] {
      InflowNonnegative(edges, rank, sources[..|sources| - 1], v);
      var u := sources[|sources| - 1];
      assert Share(edges, rank, u) >= 0.0;
      Monotone(Share(edges, rank, u), 0.0, Count(edges[u], v) as real);
    }
  }

  /** Every file keeps at least its undamped share of the mass. */
  lemma {:induction false} RankFloor(nodes: seq<Path>, edges: map<Path, seq<Path>>, k: nat, v: Path)
    requires Graph(nodes, edges) && v in nodes
    ensures Iterate(nodes, edges, Uniform(nodes), k)[v] >= 0.15 / |nodes| as real > 0.0
  {
    hide Inflow;
    if k == 0 {
      assert 1.0 / |nodes| as real >= (1.0 - DAMPING) / |nodes| as real by { Fractions(|nodes|); }
    } else {
      var before := Iterate(nodes, edges, Uniform(nodes), k - 1);
      forall u | u in nodes ensures before[u] >= 0.0 {
        RankFloor(nodes, edges, k - 1, u);
      }
      InflowNonnegative(edges, before, nodes, v);
    }
    Fractions(|nodes|);
  }

  // ---- Who has more than the floor ----

  /** Some file of the list imports `v`. */
  ghost predicate Imported(edges: map<Path, seq<Path>>, sources: seq<Path>, v: Path)
    requires forall u :: u in sources ==> u in edges
  {
    exists u :: u in sources && v in edges[u]
  }

  lemma {:induction false} CountPositive(targets: seq<Path>, v: Path)
    ensures Count(targets, v) > 0 <==> v in targets
  {
    if targets != [] {
      CountPositive(targets[..|targets| - 1], v);
      assert targets == targets[..|targets| - 1] + [targets[|targets| - 1]];
    }
  }

  lemma {:induction false} InflowPositive(edges: map<Path, seq<Path>>, rank: map<Path, real>, sources: seq<Path>, v: Path)
    requires forall u :: u in sources ==> u in edges && u in rank && rank[u] > 0.0
    ensures Inflow(edges, rank, sources, v) >= 0.0
    ensures Inflow(edges, rank, sources, v) > 0.0 <==> Imported(edges, sources, v)
  {
    if sources != [] {
      var rest, u := sources[..|sources| - 1], sources[|sources| - 1];
      InflowPositive(edges, rank, rest, v);
      assert sources == rest + [u];
      CountPositive(edges[u], v);
      assert Share(edges, rank, u) > 0.0;
      if Count(edges[u], v) > 0 {
        Monotone(Share(edges, rank, u), 0.0, Count(edges[u], v) as real);
      }
    }
  }

  /** After at least one iteration a file has rank exactly 0.15/n if and only if no indexed file imports it. */
  lemma UnimportedRankExactly(nodes: seq<Path>, edges: map<Path, seq<Path>>, k: nat, v: Path)
    requires Graph(nodes, edges) && v in nodes && k > 0
    ensures Iterate(nodes, edges, Uniform(nodes), k)[v] == 0.15 / |nodes| as real <==> !Imported(edges, nodes, v)
  {
    hide Inflow, Imported;
    var before := Iterate(nodes, edges, Uniform(nodes), k - 1);
    forall u | u in nodes ensures before[u] > 0.0 {
      RankFloor(nodes, edges, k - 1, u);
    }
    InflowPositive(edges, before, nodes, v);
  }

  lemma Fractions(n: nat)
    requires n > 0
    ensures 1.0 / n as real >= (1.0 - DAMPING) / n as real > 0.0
  {
  }

  lemma {:induction false} UniformMass(nodes: seq<Path>, prefix: seq<Path>)
    requires nodes != [] && forall v :: v in prefix ==> v in nodes
    ensures Total(prefix, Uniform(nodes)) == Times(|prefix|, 1.0 / |nodes| as real)
  {
    if prefix != [] {
      UniformMass(nodes, prefix[..|prefix| - 1]);
      TimesStep(|prefix|, 1.0 / |nodes| as real);
    }
  }

  /** The total rank never exceeds one. */
  lemma {:induction false} MassAtMostOne(nodes: seq<Path>, edges: map<Path, seq<Path>>, k: nat)
    requires Graph(nodes, edges) && nodes != []
    ensures Total(nodes, Iterate(nodes, edges, Uniform(nodes), k)) <= 1.0
  {
    hide Total, NextRank;
    if k == 0 {
      UniformMass(nodes, nodes);
      WholeTimes(|nodes|, 1.0);
    } else {
      var before := Iterate(nodes, edges, Uniform(nodes), k - 1);
      MassAtMostOne(nodes, edges, k - 1);
      forall u | u in nodes ensures before[u] >= 0.0 {
        RankFloor(nodes, edges, k - 1, u);
      }
      SentBound(nodes, edges, before, nodes);
      MassOfNext(nodes, edges, before);
    }
  }

  /**
   * After at least one iteration the total is exactly one if and only if no file dangles and
   * no edge leaves the file set.
   */
  lemma {:induction false} MassExactlyOne(nodes: seq<Path>, edges: map<Path, seq<Path>>, k: nat)
    requires Graph(nodes, edges) && nodes != [] && k > 0
    ensures Total(nodes, Iterate(nodes, edges, Uniform(nodes), k)) == 1.0
      <==> forall u :: u in nodes ==> Keeps(nodes, edges, u)
  {
    hide Total, NextRank, Keeps;
    var before := Iterate(nodes, edges, Uniform(nodes), k - 1);
    MassAtMostOne(nodes, edges, k - 1);
    forall u | u in nodes ensures before[u] > 0.0 {
      RankFloor(nodes, edges, k - 1, u);
    }
    SentBound(nodes, edges, before, nodes);
    MassOfNext(nodes, edges, before);
    if k == 1 {
      UniformMass(nodes, nodes);
      WholeTimes(|nodes|, 1.0);
    } else {
      MassExactlyOne(nodes, edges, k - 1);
    }
  }

  // ---- Contraction ----

  function Abs(x: real): real {
    if x < 0.0 then -x else x
  }

  /** Pointwise distance of two rank vectors. */
  function Gap(nodes: seq<Path>, r: map<Path, real>, s: map<Path, real>): map<Path, real>
    requires forall u :: u in nodes ==> u in r && u in s
  {
    map v | v in nodes :: Abs(r[v] - s[v])
  }

  function Distance(nodes: seq<Path>, r: map<Path, real>, s: map<Path, real>): real
    requires forall u :: u in nodes ==> u in r && u in s
  {
    Total(nodes, Gap(nodes, r, s))
  }

  lemma ShareGap(edges: map<Path, seq<Path>>, r: map<Path, real>, s: map<Path, real>, d: map<Path, real>, u: Path, n: nat)
    requires u in edges && u in r && u in s && u in d && d[u] == Abs(r[u] - s[u])
    ensures Abs(Times(n, Share(edges, r, u)) - Times(n, Share(edges, s, u))) == Times(n, Share(edges, d, u))
  {
    var g := Degree(edges[u]);
    assert r[u] / g - s[u] / g == (r[u] - s[u]) / g;
    var x := (r[u] - s[u]) / g;
    assert n as real * (r[u] / g) - n as real * (s[u] / g) == n as real * x;
    if r[u] >= s[u] {
      assert x >= 0.0 && n as real * x >= 0.0;
    } else {
      assert x < 0.0 && n as real * x <= 0.0;
      assert n as real * (-x) == -(n as real * x);
    }
  }

  lemma {:induction false} InflowGap(nodes: seq<Path>, edges: map<Path, seq<Path>>, r: map<Path, real>, s: map<Path, real>, d: map<Path, real>, sources: seq<Path>, v: Path)
    requires forall u :: u in sources ==> u in edges && u in r && u in s && u in d && d[u] == Abs(r[u] - s[u])
    ensures Abs(Inflow(edges, r, sources, v) - Inflow(edges, s, sources, v)) <= Inflow(edges, d, sources, v)
  {
    hide Times, Share, Count;
    if sources != [] {
      var u := sources[|sources| - 1];
      InflowGap(nodes, edges, r, s, d, sources[..|sources| - 1], v);
      ShareGap(edges, r, s, d, u, Count(edges[u], v));
    }
  }

  lemma {:induction false} NextGapBound(nodes: seq<Path>, edges: map<Path, seq<Path>>, r: map<Path, real>, s: map<Path, real>, prefix: seq<Path>)
    requires forall u :: u in nodes ==> u in edges && u in r && u in s
    requires forall v :: v in prefix ==> v in nodes
    ensures Total(prefix, Gap(nodes, NextRank(nodes, edges, r), NextRank(nodes, edges, s)))
      <= DAMPING * Received(edges, Gap(nodes, r, s), nodes, prefix)
  {
    hide Inflow;
    if prefix != [] {
      var v := prefix[|prefix| - 1];
      NextGapBound(nodes, edges, r, s, prefix[..|prefix| - 1]);
      InflowGap(nodes, edges, r, s, Gap(nodes, r, s), nodes, v);
    }
  }

  /** One iteration brings any two rank vectors closer by the damping factor. */
  lemma NextContracts(nodes: seq<Path>, edges: map<Path, seq<Path>>, r: map<Path, real>, s: map<Path, real>)
    requires Distinct(nodes) && forall u :: u in nodes ==> u in edges && u in r && u in s
    ensures Distance(nodes, NextRank(nodes, edges, r), NextRank(nodes, edges, s)) <= 0.85 * Distance(nodes, r, s)
  {
    hide NextRank, Received, Sent, Total;
    var d := Gap(nodes, r, s);
    assert forall v :: v in nodes ==> v in NextRank(nodes, edges, r) && v in NextRank(nodes, edges, s) by {
      NextDomain(nodes, edges, r);
      NextDomain(nodes, edges, s);
    }
    NextGapBound(nodes, edges, r, s, nodes);
    Exchange(edges, d, nodes, nodes);
    SentBound(nodes, edges, d, nodes);
  }

  lemma NextDomain(nodes: seq<Path>, edges: map<Path, seq<Path>>, r: map<Path, real>)
    requires forall u :: u in nodes ==> u in edges && u in r
    ensures NextRank(nodes, edges, r).Keys == set v | v in nodes
  {
  }

  function Pow(x: real, k: nat): real {
    if k == 0 then 1.0 else x * Pow(x, k - 1)
  }

  ghost predicate Fixed(nodes: seq<Path>, edges: map<Path, seq<Path>>, r: map<Path, real>)
    requires forall u :: u in nodes ==> u in edges && u in r
  {
    forall v :: v in nodes ==> NextRank(nodes, edges, r)[v] == r[v]
  }

  lemma {:induction false} DistanceOfSame(nodes: seq<Path>, r: map<Path, real>, s: map<Path, real>, t: map<Path, real>)
    requires forall u :: u in nodes ==> u in r && u in s && u in t && s[u] == t[u]
    ensures Distance(nodes, r, s) == Distance(nodes, r, t)
  {
    assert Gap(nodes, r, s) == Gap(nodes, r, t);
  }

  /** After k iterations the ranks are within 0.85^k of the initial distance to a fixed point. */
  lemma {:induction false} Converges(nodes: seq<Path>, edges: map<Path, seq<Path>>, r: map<Path, real>, fixpoint: map<Path, real>, k: nat)
    requires Distinct(nodes) && forall u :: u in nodes ==> u in edges && u in r && u in fixpoint
    requires Fixed(nodes, edges, fixpoint)
    ensures Distance(nodes, Iterate(nodes, edges, r, k), fixpoint) <= Pow(0.85, k) * Distance(nodes, r, fixpoint)
  {
    hide NextRank, Distance, Gap;
    if k > 0 {
      var before := Iterate(nodes, edges, r, k - 1);
      Converges(nodes, edges, r, fixpoint, k - 1);
      NextContracts(nodes, edges, before, fixpoint);
      NextDomain(nodes, edges, before);
      NextDomain(nodes, edges, fixpoint);
      DistanceOfSame(nodes, NextRank(nodes, edges, before), NextRank(nodes, edges, fixpoint), fixpoint);
      PowStep(k, Distance(nodes, r, fixpoint), Distance(nodes, before, fixpoint));
    }
  }

  lemma PowStep(k: nat, d: real, e: real)
    requires k > 0 && e <= Pow(DAMPING, k - 1) * d
    ensures DAMPING * e <= Pow(DAMPING, k) * d
  {
    assert Pow(DAMPING, k) * d == DAMPING * (Pow(DAMPING, k - 1) * d);
  }

  lemma {:induction false} PowAdds(x: real, a: nat, b: nat)
    ensures Pow(x, a + b) == Pow(x, a) * Pow(x, b)
    decreases a
  {
    if a > 0 {
      PowAdds(x, a - 1, b);
      Regroup(x, Pow(x, a - 1), Pow(x, b));
    }
  }

  lemma Regroup(x: real, y: real, z: real)
    ensures x * (y * z) == x * y * z
  {
  }

  /** 0.85^20 is less than 0.039. */
  lemma TwentyIterations()
    ensures 0.0 < Pow(0.85, 20) < 0.039
  {
    PowAdds(0.85, 1, 1);
    PowAdds(0.85, 2, 2);
    PowAdds(0.85, 1, 4);
    PowAdds(0.85, 5, 5);
    PowAdds(0.85, 10, 10);
    assert Pow(0.85, 0) == 1.0 && Pow(0.85, 1) == 0.85;
    assert Pow(0.85, 5) == 0.4437053125;
    assert Pow(0.85, 10) == 0.4437053125 * 0.4437053125;
  }

  lemma DistanceNonnegative(nodes: seq<Path>, r: map<Path, real>, s: map<Path, real>)
    requires forall u :: u in nodes ==> u in r && u in s
    ensures Distance(nodes, r, s) >= 0.0
  {
    TotalNonnegative(nodes, Gap(nodes, r, s));
  }

  lemma NearAfterTwenty(nodes: seq<Path>, edges: map<Path, seq<Path>>, fixpoint: map<Path, real>)
    requires Graph(nodes, edges) && (forall u :: u in nodes ==> u in fixpoint) && Fixed(nodes, edges, fixpoint)
    ensures forall u :: u in nodes ==> u in Uniform(nodes) && u in Iterate(nodes, edges, Uniform(nodes), 20)
    ensures Distance(nodes, Iterate(nodes, edges, Uniform(nodes), 20), fixpoint) <= 0.039 * Distance(nodes, Uniform(nodes), fixpoint)
  {
    hide Fixed, Pow, Distance, Iterate;
    TwentyIterations();
    NearAfter(nodes, edges, fixpoint, 20, 0.039);
  }

  lemma NearAfter(nodes: seq<Path>, edges: map<Path, seq<Path>>, fixpoint: map<Path, real>, k: nat, factor: real)
    requires Graph(nodes, edges) && (forall u :: u in nodes ==> u in fixpoint) && Fixed(nodes, edges, fixpoint)
    requires 0.0 < Pow(0.85, k) < factor
    ensures forall u :: u in nodes ==> u in Uniform(nodes) && u in Iterate(nodes, edges, Uniform(nodes), k)
    ensures Distance(nodes, Iterate(nodes, edges, Uniform(nodes), k), fixpoint) <= factor * Distance(nodes, Uniform(nodes), fixpoint)
  {
    hide Fixed, Pow, Distance, Iterate;
    Converges(nodes, edges, Uniform(nodes), fixpoint, k);
    DistanceNonnegative(nodes, Uniform(nodes), fixpoint);
    Monotone(Distance(nodes, Uniform(nodes), fixpoint), Pow(0.85, k), factor);
  }

  lemma {:induction false} ZeroTotal(nodes: seq<Path>, d: map<Path, real>, v: Path)
    requires v in nodes && forall u :: u in nodes ==> u in d && d[u] >= 0.0
    ensures 0.0 <= d[v] <= Total(nodes, d)
  {
    var rest, u := nodes[..|nodes| - 1], nodes[|nodes| - 1];
    assert nodes == rest + [u];
    if v in rest {
      ZeroTotal(rest, d, v);
    }
    TotalNonnegative(rest, d);
  }

  lemma {:induction false} TotalNonnegative(nodes: seq<Path>, d: map<Path, real>)
    requires forall u :: u in nodes ==> u in d && d[u] >= 0.0
    ensures Total(nodes, d) >= 0.0
  {
    if nodes != [] {
      TotalNonnegative(nodes[..|nodes| - 1], d);
    }
  }

  /** There is at most one fixed point, so the iteration has at most one limit. */
  lemma FixedPointUnique(nodes: seq<Path>, edges: map<Path, seq<Path>>, r: map<Path, real>, s: map<Path, real>, v: Path)
    requires Distinct(nodes) && forall u :: u in nodes ==> u in edges && u in r && u in s
    requires Fixed(nodes, edges, r) && Fixed(nodes, edges, s) && v in nodes
    ensures r[v] == s[v]
  {
    hide NextRank, Total;
    NextContracts(nodes, edges, r, s);
    NextDomain(nodes, edges, r);
    NextDomain(nodes, edges, s);
    assert Gap(nodes, NextRank(nodes, edges, r), NextRank(nodes, edges, s)) == Gap(nodes, r, s);
    ZeroTotal(nodes, Gap(nodes, r, s), v);
  }
}
