/**
 * File ranks (src/minion/runtime/code_index.py, `_pagerank`), with real numbers for floats.
 *
 * The loops of `Compute` are proved against the one-step map `NextRank`; the lemmas bound
 * the mass of the ranks and show that the map contracts.
 */
module PageRank {
  import opened Text

  const DAMPING: real := 0.85

  /** The keys of `edges` in their dictionary order are `nodes`. */
  ghost predicate Graph(nodes: seq<Path>, edges: map<Path, seq<Path>>) {
    && (forall i, j :: 0 <= i < j < |nodes| ==> nodes[i] != nodes[j])
    && (forall v :: v in edges <==> v in nodes)
  }

  function Count(targets: seq<Path>, v: Path): nat {
    if targets == [] then 0
    else Count(targets[..|targets| - 1], v) + if targets[|targets| - 1] == v then 1 else 0
  }

  function Degree(targets: seq<Path>): real {
    if |targets| <= 1 then 1.0 else |targets| as real
  }

  /** What `u` passes along each of its edges. */
  function Share(edges: map<Path, seq<Path>>, rank: map<Path, real>, u: Path): real
    requires u in edges && u in rank
  {
    rank[u] / Degree(edges[u])
  }

  function Times(n: nat, x: real): real {
    n as real * x
  }

  /** Everything the sources pass to `v`. */
  function Inflow(edges: map<Path, seq<Path>>, rank: map<Path, real>, sources: seq<Path>, v: Path): real
    requires forall u :: u in sources ==> u in edges && u in rank
  {
    if sources == [] then 0.0
    else
      var u := sources[|sources| - 1];
      Inflow(edges, rank, sources[..|sources| - 1], v) + Times(Count(edges[u], v), Share(edges, rank, u))
  }

  /** One iteration. */
  function NextRank(nodes: seq<Path>, edges: map<Path, seq<Path>>, rank: map<Path, real>): map<Path, real>
    requires forall u :: u in nodes ==> u in edges && u in rank
  {
    map v | v in nodes :: Damped(|nodes|, Inflow(edges, rank, nodes, v))
  }

  /** A rank is one n-th of the undamped mass plus the damped inflow. */
  function Damped(n: nat, inflow: real): real
    requires n > 0
  {
    (1.0 - DAMPING) / n as real + DAMPING * inflow
  }

  function Uniform(nodes: seq<Path>): map<Path, real> {
    map v | v in nodes :: 1.0 / |nodes| as real
  }

  function Iterate(nodes: seq<Path>, edges: map<Path, seq<Path>>, rank: map<Path, real>, k: nat): (r: map<Path, real>)
    requires forall u :: u in nodes ==> u in edges && u in rank
    ensures forall u :: u in nodes ==> u in r
  {
    if k == 0 then rank else NextRank(nodes, edges, Iterate(nodes, edges, rank, k - 1))
  }

  function Total(nodes: seq<Path>, rank: map<Path, real>): real
    requires forall u :: u in nodes ==> u in rank
  {
    if nodes == [] then 0.0
    else Total(nodes[..|nodes| - 1], rank) + rank[nodes[|nodes| - 1]]
  }

  // ---- The loops ----

  function Repeat(u: Path, n: nat): seq<Path> {
    if n == 0 then [] else Repeat(u, n - 1) + [u]
  }

  /** The `incoming` list of `v`: each source once per edge to `v`, in source order. */
  function Incoming(edges: map<Path, seq<Path>>, sources: seq<Path>, v: Path): seq<Path>
    requires forall u :: u in sources ==> u in edges
  {
    if sources == [] then []
    else
      var u := sources[|sources| - 1];
      Incoming(edges, sources[..|sources| - 1], v) + Repeat(u, Count(edges[u], v))
  }

  function ShareSum(edges: map<Path, seq<Path>>, rank: map<Path, real>, list: seq<Path>): real
    requires forall u :: u in list ==> u in edges && u in rank
  {
    if list == [] then 0.0
    else ShareSum(edges, rank, list[..|list| - 1]) + Share(edges, rank, list[|list| - 1])
  }

  lemma {:induction false} RepeatMembers(u: Path, n: nat)
    ensures |Repeat(u, n)| == n
    ensures forall w :: w in Repeat(u, n) ==> w == u
  {
    if n > 0 {
      RepeatMembers(u, n - 1);
    }
  }

  lemma {:induction false} IncomingMembers(edges: map<Path, seq<Path>>, sources: seq<Path>, v: Path)
    requires forall u :: u in sources ==> u in edges
    ensures forall w :: w in Incoming(edges, sources, v) ==> w in sources
  {
    if sources != [] {
      var u := sources[|sources| - 1];
      IncomingMembers(edges, sources[..|sources| - 1], v);
      RepeatMembers(u, Count(edges[u], v));
    }
  }

  lemma TimesStep(n: nat, x: real)
    ensures Times(0, x) == 0.0
    ensures n > 0 ==> Times(n, x) == Times(n - 1, x) + x
  {
  }

  lemma {:induction false} ShareSumRepeat(edges: map<Path, seq<Path>>, rank: map<Path, real>, list: seq<Path>, u: Path, n: nat)
    requires forall w :: w in list ==> w in edges && w in rank
    requires u in edges && u in rank
    ensures forall w :: w in list + Repeat(u, n) ==> w in edges && w in rank
    ensures ShareSum(edges, rank, list + Repeat(u, n)) == ShareSum(edges, rank, list) + Times(n, Share(edges, rank, u))
  {
    hide Times, Share;
    RepeatMembers(u, n);
    TimesStep(n, Share(edges, rank, u));
    if n == 0 {
      assert list + Repeat(u, n) == list;
    } else {
      ShareSumRepeat(edges, rank, list, u, n - 1);
      var longer := list + Repeat(u, n);
      assert longer[..|longer| - 1] == list + Repeat(u, n - 1);
      assert longer[|longer| - 1] == u;
    }
  }

  /** Walking the incoming list adds up the inflow. */
  lemma {:induction false} IncomingCarriesInflow(edges: map<Path, seq<Path>>, rank: map<Path, real>, sources: seq<Path>, v: Path)
    requires forall u :: u in sources ==> u in edges && u in rank
    ensures forall w :: w in Incoming(edges, sources, v) ==> w in edges && w in rank
    ensures ShareSum(edges, rank, Incoming(edges, sources, v)) == Inflow(edges, rank, sources, v)
  {
    hide Times, Share, Count, Repeat;
    IncomingMembers(edges, sources, v);
    if sources != [] {
      var u := sources[|sources| - 1];
      IncomingCarriesInflow(edges, rank, sources[..|sources| - 1], v);
      ShareSumRepeat(edges, rank, Incoming(edges, sources[..|sources| - 1], v), u, Count(edges[u], v));
    }
  }

  lemma CountStep(targets: seq<Path>, j: nat, v: Path)
    requires j < |targets|
    ensures Count(targets[..j + 1], v) == Count(targets[..j], v) + if targets[j] == v then 1 else 0
  {
    assert targets[..j + 1][..j] == targets[..j];
  }

  method AddSource(incoming: map<Path, seq<Path>>, source: Path, targets: seq<Path>) returns (r: map<Path, seq<Path>>)
    ensures r.Keys == incoming.Keys
    ensures forall v :: v in incoming ==> r[v] == incoming[v] + Repeat(source, Count(targets, v))
  {
    r := incoming;
    for j := 0 to |targets|
      invariant r.Keys == incoming.Keys
      invariant forall v :: v in incoming ==> r[v] == incoming[v] + Repeat(source, Count(targets[..j], v))
    {
      var target := targets[j];
      forall v | v in incoming
        ensures Count(targets[..j + 1], v) == Count(targets[..j], v) + if target == v then 1 else 0
      {
        CountStep(targets, j, v);
      }
      if target in r {
        r := r[target := r[target] + [source]];
      }
    }
    assert targets[..|targets|] == targets;
  }

  method BuildIncoming(nodes: seq<Path>, edges: map<Path, seq<Path>>) returns (incoming: map<Path, seq<Path>>)
    requires Graph(nodes, edges)
    ensures incoming.Keys == edges.Keys
    ensures forall v :: v in edges ==> incoming[v] == Incoming(edges, nodes, v)
  {
    hide Count, Repeat;
    incoming := map v | v in edges :: [];
    for i := 0 to |nodes|
      invariant incoming.Keys == edges.Keys
      invariant forall v :: v in edges ==> incoming[v] == Incoming(edges, nodes[..i], v)
    {
      incoming := AddSource(incoming, nodes[i], edges[nodes[i]]);
      assert nodes[..i + 1][..i] == nodes[..i];
    }
    assert nodes[..|nodes|] == nodes;
  }

  /** One pass over the nodes. */
  method Pass(nodes: seq<Path>, edges: map<Path, seq<Path>>, rank: map<Path, real>, incoming: map<Path, seq<Path>>)
    returns (next: map<Path, real>)
    requires Graph(nodes, edges) && rank.Keys == edges.Keys == incoming.Keys
    requires forall v :: v in edges ==> incoming[v] == Incoming(edges, nodes, v)
    ensures next.Keys == edges.Keys
    ensures next == NextRank(nodes, edges, rank)
  {
    hide Inflow, Incoming, ShareSum, Damped;
    next := map[];
    for i := 0 to |nodes|
      invariant forall v :: v in next <==> v in nodes[..i]
      invariant forall v :: v in next ==> next[v] == Damped(|nodes|, Inflow(edges, rank, nodes, v))
    {
      var node := nodes[i];
      IncomingCarriesInflow(edges, rank, nodes, node);
      var contribution := Contribution(edges, rank, incoming[node]);
      next := next[node := Damped(|nodes|, contribution)];
      assert nodes[..i + 1] == nodes[..i] + [node];
    }
    assert nodes[..|nodes|] == nodes;
  }

  /** `_pagerank`. */
  method Compute(nodes: seq<Path>, edges: map<Path, seq<Path>>, iterations: nat := 20)
    returns (rank: map<Path, real>)
    requires Graph(nodes, edges)
    ensures rank.Keys == edges.Keys
    ensures rank == Iterate(nodes, edges, Uniform(nodes), iterations)
  {
    hide NextRank;
    if |nodes| == 0 {
      EmptyIterates(nodes, edges, iterations);
      return map[];
    }
    rank := map v | v in nodes :: 1.0 / |nodes| as real;
    var incoming := BuildIncoming(nodes, edges);
    for k := 0 to iterations
      invariant rank.Keys == edges.Keys
      invariant rank == Iterate(nodes, edges, Uniform(nodes), k)
    {
      rank := Pass(nodes, edges, rank, incoming);
    }
  }

  method Contribution(edges: map<Path, seq<Path>>, rank: map<Path, real>, list: seq<Path>) returns (sum: real)
    requires forall u :: u in list ==> u in edges && u in rank
    ensures sum == ShareSum(edges, rank, list)
  {
    sum := 0.0;
    for i := 0 to |list|
      invariant sum == ShareSum(edges, rank, list[..i])
    {
      var outDegree := if |edges[list[i]]| <= 1 then 1 else |edges[list[i]]|;
      sum := sum + rank[list[i]] / outDegree as real;
      assert list[..i + 1][..i] == list[..i];
    }
    assert list[..|list|] == list;
  }

  lemma {:induction false} EmptyIterates(nodes: seq<Path>, edges: map<Path, seq<Path>>, k: nat)
    requires nodes == []
    ensures Iterate(nodes, edges, Uniform(nodes), k) == map[]
  {
    if k > 0 {
      EmptyIterates(nodes, edges, k - 1);
    }
  }
}
