/**
 * The content-addressed object cache (src/minion/runtime/code_index.py, `_parse_object` and
 * `ensure_index`). SHA-256 is taken as injective, and the extraction of symbols, imports
 * and preview from a text is a parameter.
 */
module IndexCache {
  import opened Prelude
  import opened Ordering
  import opened Text
  import Dependencies
  import PageRank
  import RankTheorems

  newtype Byte = x: int | 0 <= x < 256

  type Bytes = seq<Byte>

  datatype Digest = Sha256(content: Bytes)

  datatype Symbol = Symbol(name: string, kind: string, line: nat, signature: string)

  /** `symbols` and `imports` see the lower-case suffix of the path and the text. */
  datatype Parser = Parser(
    symbols: (string, Bytes) -> seq<Symbol>,
    imports: (string, Bytes) -> seq<string>,
    preview: Bytes -> string)

  datatype Facts = Facts(
    path: Path,
    digest: Digest,
    size: nat,
    symbols: seq<Symbol>,
    imports: seq<string>,
    preview: string)

  /** A tracked path and its bytes; None when it is no regular file or cannot be read. */
  datatype File = File(path: Path, data: Option<Bytes>)

  const TEXT_SUFFIXES: set<string> := {
    ".py", ".pyi", ".js", ".jsx", ".ts", ".tsx", ".java", ".kt", ".kts",
    ".go", ".rs", ".c", ".cc", ".cpp", ".cxx", ".h", ".hpp", ".cs", ".rb",
    ".php", ".swift", ".scala", ".sql", ".proto", ".graphql", ".md", ".mdx",
    ".toml", ".yaml", ".yml", ".json", ".xml", ".gradle", ".sh", ".bash"
  }
  const ALWAYS_TEXT_NAMES: set<string> := {
    "Dockerfile", "Makefile", "BUILD", "WORKSPACE", "go.mod", "go.sum",
    "pom.xml", "package.json", "pyproject.toml", "requirements.txt"
  }
  const MAX_INDEXED_FILE_BYTES := 1_000_000
  const SNIFFED_BYTES := 8192

  function LowerSuffix(path: Path): string {
    Lower(Suffix(path))
  }

  predicate Indexable(path: Path) {
    Name(path) in ALWAYS_TEXT_NAMES || LowerSuffix(path) in TEXT_SUFFIXES
  }

  predicate LooksBinary(data: Bytes) {
    0 in (if |data| <= SNIFFED_BYTES then data else data[..SNIFFED_BYTES])
  }

  predicate Parsable(f: File) {
    && Indexable(f.path)
    && f.data.Some?
    && |f.data.value| <= MAX_INDEXED_FILE_BYTES
    && !LooksBinary(f.data.value)
  }

  /** What parsing the bytes under this path yields. */
  function Parse(parser: Parser, path: Path, data: Bytes): Facts {
    Facts(path, Sha256(data), |data|, parser.symbols(LowerSuffix(path), data),
          parser.imports(LowerSuffix(path), data), parser.preview(data))
  }

  type Objects = map<Digest, Facts>

  /** Progress of one build over the tracked files. */
  datatype Build = Build(
    objects: Objects,
    order: seq<Path>,
    facts: map<Path, Facts>,
    parsed: nat,
    reused: nat)

  function IndexFile(parser: Parser, b: Build, f: File): Build {
    if !Parsable(f) then b
    else
      var digest := Sha256(f.data.value);
      if digest in b.objects then
        b.(order := b.order + [f.path],
           facts := b.facts[f.path := b.objects[digest].(path := f.path)],
           reused := b.reused + 1)
      else
        var cold := Parse(parser, f.path, f.data.value);
        b.(objects := b.objects[digest := cold],
           order := b.order + [f.path],
           facts := b.facts[f.path := cold],
           parsed := b.parsed + 1)
  }

  function IndexFiles(parser: Parser, objects: Objects, tree: seq<File>): Build {
    if tree == [] then Build(objects, [], map[], 0, 0)
    else IndexFile(parser, IndexFiles(parser, objects, tree[..|tree| - 1]), tree[|tree| - 1])
  }

  // ---- What the build must agree with: parsing every file, no cache ----

  function ParsablePaths(tree: seq<File>): seq<Path> {
    if tree == [] then []
    else ParsablePaths(tree[..|tree| - 1]) + if Parsable(tree[|tree| - 1]) then [tree[|tree| - 1].path] else []
  }

  function FreshFacts(parser: Parser, tree: seq<File>): map<Path, Facts> {
    if tree == [] then map[]
    else
      var rest, f := FreshFacts(parser, tree[..|tree| - 1]), tree[|tree| - 1];
      if Parsable(f) then rest[f.path := Parse(parser, f.path, f.data.value)] else rest
  }

  /** Digests of the files that are indexed. */
  function Digests(tree: seq<File>): set<Digest> {
    set f | f in tree && Parsable(f) :: Sha256(f.data.value)
  }

  ghost predicate DistinctPaths(tree: seq<File>) {
    forall i, j :: 0 <= i < j < |tree| ==> tree[i].path != tree[j].path
  }

  /** Every stored object is what parsing its content under some path gave. */
  ghost predicate ObjectsOk(parser: Parser, objects: Objects) {
    forall d :: d in objects ==> objects[d] == Parse(parser, objects[d].path, d.content)
  }

  /** Both suffixes lead to the same symbols and imports for these bytes. */
  predicate SameExtraction(parser: Parser, a: Path, b: Path, data: Bytes) {
    && parser.symbols(LowerSuffix(a), data) == parser.symbols(LowerSuffix(b), data)
    && parser.imports(LowerSuffix(a), data) == parser.imports(LowerSuffix(b), data)
  }

  /**
   * The path under which the bytes with this digest were first parsed: that of the stored
   * object, or of the first file of the tree with these bytes.
   */
  function Origin(objects: Objects, tree: seq<File>, d: Digest): Option<Path> {
    if d in objects then Some(objects[d].path)
    else if tree == [] then None
    else
      var n := |tree| - 1;
      var earlier := Origin(objects, tree[..n], d);
      if earlier.Some? then earlier
      else if Parsable(tree[n]) && Sha256(tree[n].data.value) == d then Some(tree[n].path)
      else None
  }

  /** The file's bytes were not seen before, or extract the same under the path they were seen at. */
  predicate ExtractsAlike(parser: Parser, objects: Objects, tree: seq<File>, i: nat)
    requires i < |tree|
  {
    Parsable(tree[i]) ==>
      match Origin(objects, tree[..i], Sha256(tree[i].data.value))
      case None => true
      case Some(path) => SameExtraction(parser, path, tree[i].path, tree[i].data.value)
  }

  ghost predicate AllExtractAlike(parser: Parser, objects: Objects, tree: seq<File>) {
    forall i :: 0 <= i < |tree| ==> ExtractsAlike(parser, objects, tree, i)
  }

  predicate Twins(f: File, g: File) {
    Parsable(f) && Parsable(g) && f.data == g.data
  }

  /** Equal bytes occur only under equal suffixes, in the store and in the tree. */
  ghost predicate SuffixConsistent(objects: Objects, tree: seq<File>) {
    && (forall i :: 0 <= i < |tree| && Parsable(tree[i]) && Sha256(tree[i].data.value) in objects ==>
          LowerSuffix(objects[Sha256(tree[i].data.value)].path) == LowerSuffix(tree[i].path))
    && (forall i, j :: 0 <= i < |tree| && 0 <= j < |tree| && Twins(tree[i], tree[j]) ==>
          LowerSuffix(tree[i].path) == LowerSuffix(tree[j].path))
  }

  // ---- Properties of one build ----

  lemma {:induction false} BuildKeepsObjects(parser: Parser, objects: Objects, tree: seq<File>)
    requires ObjectsOk(parser, objects)
    ensures var b := IndexFiles(parser, objects, tree);
      && ObjectsOk(parser, b.objects)
      && (forall d :: d in objects ==> d in b.objects && b.objects[d] == objects[d])
      && b.objects.Keys == objects.Keys + Digests(tree)
  {
    hide Parsable, Parse;
    if tree == [] {
      assert Digests(tree) == {};
    } else {
      var rest, f := tree[..|tree| - 1], tree[|tree| - 1];
      BuildKeepsObjects(parser, objects, rest);
      assert tree == rest + [f];
      DigestsStep(rest, f);
      ParsePath(parser, f);
    }
  }

  lemma DigestsStep(rest: seq<File>, f: File)
    ensures Digests(rest + [f]) == Digests(rest) + if Parsable(f) then {Sha256(f.data.value)} else {}
  {
    hide LowerSuffix, Indexable, LooksBinary;
    forall d | d in Digests(rest + [f]) ensures d in Digests(rest) + if Parsable(f) then {Sha256(f.data.value)} else {} {
      var g :| g in rest + [f] && Parsable(g) && d == Sha256(g.data.value);
      assert g in rest || g == f;
    }
    forall d | d in Digests(rest) ensures d in Digests(rest + [f]) {
      var g :| g in rest && Parsable(g) && d == Sha256(g.data.value);
      assert g in rest + [f];
    }
    assert f in rest + [f];
  }

  lemma ParsePath(parser: Parser, f: File)
    ensures f.data.Some? ==> Parse(parser, f.path, f.data.value).path == f.path
    ensures Parsable(f) ==> f.data.Some?
  {
  }

  /** Accounting: every indexed file is parsed or reused, and only unseen contents are parsed. */
  lemma {:induction false} BuildCounts(parser: Parser, objects: Objects, tree: seq<File>)
    ensures var b := IndexFiles(parser, objects, tree);
      && b.order == ParsablePaths(tree)
      && b.parsed + b.reused == |b.order|
      && b.parsed == |b.objects| - |objects|
  {
    hide Parsable, Parse;
    if tree != [] {
      BuildCounts(parser, objects, tree[..|tree| - 1]);
    }
  }

  /** Parsed files are exactly the distinct contents the store did not have. */
  lemma ParsedAreNewContents(parser: Parser, objects: Objects, tree: seq<File>)
    requires ObjectsOk(parser, objects)
    ensures IndexFiles(parser, objects, tree).parsed == |Digests(tree) - objects.Keys|
  {
    BuildCounts(parser, objects, tree);
    BuildKeepsObjects(parser, objects, tree);
    hide *;
    NewElements(objects.Keys, Digests(tree));
  }

  lemma NewElements(a: set<Digest>, b: set<Digest>)
    ensures |a + b| == |a| + |b - a|
  {
    assert a + b == a + (b - a);
  }

  ghost predicate Distinct(order: seq<Path>) {
    forall i, j :: 0 <= i < j < |order| ==> order[i] != order[j]
  }

  /** The indexed paths are listed once each, in tracking order. */
  lemma {:induction false} OrderIsDistinct(tree: seq<File>)
    requires DistinctPaths(tree)
    ensures Distinct(ParsablePaths(tree))
    ensures forall p :: p in ParsablePaths(tree) ==> HasPath(tree, p)
  {
    hide Parsable;
    if tree != [] {
      var rest, f := tree[..|tree| - 1], tree[|tree| - 1];
      OrderIsDistinct(rest);
      assert tree[|tree| - 1].path == f.path;
      forall p | HasPath(rest, p) ensures HasPath(tree, p) && p != f.path {
        var i :| 0 <= i < |rest| && rest[i].path == p;
        assert tree[i].path == p;
      }
      assert f.path !in ParsablePaths(rest);
    }
  }

  ghost predicate HasPath(tree: seq<File>, p: Path) {
    exists i :: 0 <= i < |tree| && tree[i].path == p
  }

  lemma {:induction false} FactsCoverOrder(parser: Parser, objects: Objects, tree: seq<File>)
    ensures forall p :: p in IndexFiles(parser, objects, tree).facts <==> p in ParsablePaths(tree)
    ensures forall p :: p in FreshFacts(parser, tree) <==> p in ParsablePaths(tree)
  {
    hide Parsable, Parse;
    if tree != [] {
      FactsCoverOrder(parser, objects, tree[..|tree| - 1]);
    }
  }

  /** A reused object equals a fresh parse exactly when its old and new suffix extract alike. */
  lemma ReuseIsExact(parser: Parser, stored: Facts, path: Path, data: Bytes)
    requires stored == Parse(parser, stored.path, data)
    ensures stored.(path := path) == Parse(parser, path, data) <==> SameExtraction(parser, stored.path, path, data)
  {
  }

  /** What a build has in its store for a digest comes from the origin of that digest. */
  lemma {:induction false} OriginIsStored(parser: Parser, objects: Objects, tree: seq<File>, d: Digest)
    ensures var b := IndexFiles(parser, objects, tree);
      && (d in b.objects <==> Origin(objects, tree, d).Some?)
      && (d in b.objects ==> b.objects[d].path == Origin(objects, tree, d).value)
  {
    hide LowerSuffix, Indexable, LooksBinary;
    if tree != [] {
      OriginIsStored(parser, objects, tree[..|tree| - 1], d);
    }
  }

  /**
   * A build over any store equals a cold parse of every file if and only if every file's
   * bytes extract alike under its own path and under the path they were first seen at.
   */
  lemma {:induction false} CacheIsTransparentExactly(parser: Parser, objects: Objects, tree: seq<File>)
    requires ObjectsOk(parser, objects) && DistinctPaths(tree)
    ensures IndexFiles(parser, objects, tree).facts == FreshFacts(parser, tree) <==>
      AllExtractAlike(parser, objects, tree)
    decreases |tree|
  {
    hide Parsable, SameExtraction, Parse, ObjectsOk, ExtractsAlike;
    if tree != [] {
      var n := |tree| - 1;
      CacheIsTransparentExactly(parser, objects, tree[..n]);
      BuildKeepsObjects(parser, objects, tree[..n]);
      LastFileExact(parser, objects, tree);
      AlikeSplits(parser, objects, tree);
    }
  }

  lemma AlikeSplits(parser: Parser, objects: Objects, tree: seq<File>)
    requires tree != []
    ensures var n := |tree| - 1;
      AllExtractAlike(parser, objects, tree) <==>
        AllExtractAlike(parser, objects, tree[..n]) && ExtractsAlike(parser, objects, tree, n)
  {
    hide SameExtraction, Parsable, Origin;
    var n := |tree| - 1;
    var rest := tree[..n];
    forall i | 0 <= i < n
      ensures ExtractsAlike(parser, objects, tree, i) <==> ExtractsAlike(parser, objects, rest, i)
    {
      assert rest[..i] == tree[..i];
    }
    hide ExtractsAlike;
    if AllExtractAlike(parser, objects, rest) && ExtractsAlike(parser, objects, tree, n) {
      forall i | 0 <= i < |tree| ensures ExtractsAlike(parser, objects, tree, i) {
        if i < n {
          assert ExtractsAlike(parser, objects, rest, i);
        }
      }
    }
    if AllExtractAlike(parser, objects, tree) {
      forall i | 0 <= i < n ensures ExtractsAlike(parser, objects, rest, i) {
        assert ExtractsAlike(parser, objects, tree, i);
      }
    }
  }

  lemma LastFileExact(parser: Parser, objects: Objects, tree: seq<File>)
    requires tree != [] && DistinctPaths(tree)
    requires ObjectsOk(parser, IndexFiles(parser, objects, tree[..|tree| - 1]).objects)
    ensures IndexFiles(parser, objects, tree).facts == FreshFacts(parser, tree) <==>
      && IndexFiles(parser, objects, tree[..|tree| - 1]).facts == FreshFacts(parser, tree[..|tree| - 1])
      && ExtractsAlike(parser, objects, tree, |tree| - 1)
  {
    hide SameExtraction, Indexable, LooksBinary, Origin;
    var rest, f := tree[..|tree| - 1], tree[|tree| - 1];
    var b := IndexFiles(parser, objects, rest);
    var cold := FreshFacts(parser, rest);
    FactsCoverOrder(parser, objects, rest);
    OrderIsDistinct(rest);
    assert !HasPath(rest, f.path) by {
      forall i | 0 <= i < |rest| ensures rest[i].path != f.path {
        assert tree[i].path != tree[|tree| - 1].path;
      }
    }
    if Parsable(f) {
      var d := Sha256(f.data.value);
      OriginIsStored(parser, objects, rest, d);
      if d in b.objects {
        ReuseIsExact(parser, b.objects[d], f.path, f.data.value);
        MapsAgree(b.facts, cold, f.path, b.objects[d].(path := f.path), Parse(parser, f.path, f.data.value));
      } else {
        MapsAgree(b.facts, cold, f.path, Parse(parser, f.path, f.data.value), Parse(parser, f.path, f.data.value));
      }
    }
  }

  lemma MapsAgree(a: map<Path, Facts>, b: map<Path, Facts>, p: Path, x: Facts, y: Facts)
    requires p !in a && p !in b
    ensures a[p := x] == b[p := y] <==> a == b && x == y
  {
    if a[p := x] == b[p := y] {
      assert a[p := x][p] == b[p := y][p];
      assert a.Keys == a[p := x].Keys - {p} && b.Keys == b[p := y].Keys - {p};
      forall q | q in a ensures a[q] == b[q] {
        assert a[p := x][q] == b[p := y][q];
      }
    }
  }

  /** Equal bytes under equal suffixes only: the store then never shows in the result. */
  lemma ConsistentCacheIsTransparent(parser: Parser, objects: Objects, tree: seq<File>)
    requires ObjectsOk(parser, objects) && DistinctPaths(tree) && SuffixConsistent(objects, tree)
    ensures IndexFiles(parser, objects, tree).facts == FreshFacts(parser, tree)
  {
    hide IndexFiles, FreshFacts, Parsable, LowerSuffix, ExtractsAlike;
    forall i | 0 <= i < |tree| ensures ExtractsAlike(parser, objects, tree, i) {
      ConsistentExtractsAlike(parser, objects, tree, i);
    }
    CacheIsTransparentExactly(parser, objects, tree);
  }

  lemma ConsistentExtractsAlike(parser: Parser, objects: Objects, tree: seq<File>, i: nat)
    requires SuffixConsistent(objects, tree) && i < |tree|
    ensures ExtractsAlike(parser, objects, tree, i)
  {
    hide LowerSuffix, Indexable, LooksBinary, Origin;
    if Parsable(tree[i]) {
      var d := Sha256(tree[i].data.value);
      var path := Origin(objects, tree[..i], d);
      OriginIsSeen(objects, tree[..i], d);
      if path.Some? && d !in objects {
        var j :| 0 <= j < i && FirstSeen(tree[..i][j], d, path.value);
        assert Twins(tree[j], tree[i]);
      }
    }
  }

  predicate FirstSeen(f: File, d: Digest, path: Path) {
    Parsable(f) && Sha256(f.data.value) == d && f.path == path
  }

  /** An origin is the path of the stored object or of an earlier file with these bytes. */
  lemma {:induction false} OriginIsSeen(objects: Objects, tree: seq<File>, d: Digest)
    ensures var path := Origin(objects, tree, d);
      path.Some? ==>
        if d in objects then path.value == objects[d].path
        else exists j :: 0 <= j < |tree| && FirstSeen(tree[j], d, path.value)
  {
    hide Parsable;
    if tree != [] && d !in objects {
      var n := |tree| - 1;
      OriginIsSeen(objects, tree[..n], d);
      if Origin(objects, tree[..n], d).Some? {
        var j :| 0 <= j < n && FirstSeen(tree[..n][j], d, Origin(objects, tree[..n], d).value);
        assert FirstSeen(tree[j], d, Origin(objects, tree[..n], d).value);
      } else if Origin(objects, tree, d).Some? {
        assert FirstSeen(tree[n], d, Origin(objects, tree, d).value);
      }
    }
  }

  // ---- Manifests ----

  datatype Manifest = Manifest(
    order: seq<Path>,
    facts: map<Path, Facts>,
    edges: map<Path, seq<Path>>,
    ranks: map<Path, real>)

  function ImportsOf(facts: map<Path, Facts>): (r: map<Path, seq<string>>)
    ensures r.Keys == facts.Keys
  {
    map p | p in facts :: facts[p].imports
  }

  /** Edges and ranks follow from order and facts. */
  ghost predicate Derived(m: Manifest) {
    && EdgesOk(ImportsOf(m.facts), m.edges)
    && PageRank.Graph(m.order, m.edges)
    && m.ranks == PageRank.Iterate(m.order, m.edges, PageRank.Uniform(m.order), 20)
  }

  /** The manifest of a tree, said without any store. */
  ghost predicate Describes(parser: Parser, tree: seq<File>, m: Manifest) {
    m.order == ParsablePaths(tree) && m.facts == FreshFacts(parser, tree) && Derived(m)
  }

  /** The manifest that a build over the store `objects` leaves. */
  ghost predicate BuiltFrom(parser: Parser, objects: Objects, tree: seq<File>, m: Manifest) {
    m.order == ParsablePaths(tree) && m.facts == IndexFiles(parser, objects, tree).facts && Derived(m)
  }

  /** A manifest is that of a cold build exactly when the store was transparent for its tree. */
  lemma BuiltIsColdExactly(parser: Parser, objects: Objects, tree: seq<File>, m: Manifest)
    requires ObjectsOk(parser, objects) && DistinctPaths(tree) && BuiltFrom(parser, objects, tree, m)
    ensures Describes(parser, tree, m) <==> AllExtractAlike(parser, objects, tree)
  {
    hide ObjectsOk, DistinctPaths, AllExtractAlike, IndexFiles, FreshFacts, ParsablePaths, Derived;
    CacheIsTransparentExactly(parser, objects, tree);
  }

  ghost predicate EdgesOk(imports: map<Path, seq<string>>, edges: map<Path, seq<Path>>) {
    && edges.Keys == imports.Keys
    && forall source :: source in imports ==>
         && InOrder(map[], edges[source])
         && forall target :: target in edges[source] <==> Dependencies.DependsOn(imports, source, target)
  }

  /** A regular file of at most 1,000,000 bytes, with no zero byte among its first 8192, known by name or suffix. */
  ghost predicate WorthIndexing(f: File) {
    && (Name(f.path) in ALWAYS_TEXT_NAMES || Lower(Suffix(f.path)) in TEXT_SUFFIXES)
    && f.data.Some? && |f.data.value| <= 1_000_000
    && forall i :: 0 <= i < |f.data.value| && i < 8192 ==> f.data.value[i] != 0
  }

  lemma ParsableExactly(f: File)
    ensures Parsable(f) <==> WorthIndexing(f)
  {
    if f.data.Some? {
      var data := f.data.value;
      var head := if |data| <= SNIFFED_BYTES then data else data[..SNIFFED_BYTES];
      if i :| 0 <= i < |data| && i < 8192 && data[i] == 0 {
        assert head[i] == 0;
      }
    }
  }

  /** Every suffix for which imports are extracted is indexed. */
  lemma ExtractedSuffixesAreIndexed(path: Path)
    requires Lower(Suffix(path)) in {
      ".py", ".pyi", ".js", ".jsx", ".ts", ".tsx", ".go", ".java", ".kt", ".kts", ".scala",
      ".c", ".cc", ".cpp", ".cxx", ".h", ".hpp"}
    ensures Indexable(path)
  {
  }

  /** Files are listed in the order in which they are tracked. */
  lemma {:induction false} OrderFollowsTree(a: seq<File>, b: seq<File>)
    ensures ParsablePaths(a + b) == ParsablePaths(a) + ParsablePaths(b)
    ensures forall f :: ParsablePaths([f]) == if Parsable(f) then [f.path] else []
  {
    hide Parsable;
    forall f ensures ParsablePaths([f]) == if Parsable(f) then [f.path] else [] {
      assert [f][..0] == [];
    }
    if b == [] {
      assert a + b == a;
    } else {
      var n := |b| - 1;
      assert (a + b)[..|a + b| - 1] == a + b[..n];
      OrderFollowsTree(a, b[..n]);
    }
  }

  /**
   * What a manifest says of each tracked file: nothing, if it is not worth indexing, and
   * otherwise its digest and size and what its own text and suffix yield.
   */
  lemma ManifestSaysExactly(parser: Parser, tree: seq<File>, m: Manifest, i: nat)
    requires Describes(parser, tree, m) && DistinctPaths(tree) && i < |tree|
    ensures tree[i].path in m.facts <==> WorthIndexing(tree[i])
    ensures tree[i].path in m.facts ==>
      var data, suffix := tree[i].data.value, Lower(Suffix(tree[i].path));
      m.facts[tree[i].path] == Facts(tree[i].path, Sha256(data), |data|, parser.symbols(suffix, data),
                                     parser.imports(suffix, data), parser.preview(data))
  {
    hide Derived, Parse, Parsable, WorthIndexing;
    FreshFactsAt(parser, tree, i);
    ParsableExactly(tree[i]);
    ParseIs(parser, tree[i]);
  }

  lemma ParseIs(parser: Parser, f: File)
    ensures f.data.Some? ==> var data, suffix := f.data.value, Lower(Suffix(f.path));
      Parse(parser, f.path, data) ==
        Facts(f.path, Sha256(data), |data|, parser.symbols(suffix, data), parser.imports(suffix, data), parser.preview(data))
  {
  }

  lemma {:induction false} FreshFactsAt(parser: Parser, tree: seq<File>, i: nat)
    requires DistinctPaths(tree) && i < |tree|
    ensures tree[i].path in FreshFacts(parser, tree) <==> Parsable(tree[i])
    ensures Parsable(tree[i]) ==>
      tree[i].data.Some? && FreshFacts(parser, tree)[tree[i].path] == Parse(parser, tree[i].path, tree[i].data.value)
    decreases |tree|
  {
    hide Parse, Indexable, LooksBinary;
    var n := |tree| - 1;
    var rest := tree[..n];
    if i < n {
      FreshFactsAt(parser, rest, i);
      assert tree[i].path != tree[n].path;
    } else {
      FactsCoverOrder(parser, map[], rest);
      OrderIsDistinct(rest);
      assert !HasPath(rest, tree[n].path) by {
        forall j | 0 <= j < n ensures rest[j].path != tree[n].path {
          assert tree[j].path != tree[n].path;
        }
      }
    }
  }

  /** After its 20 iterations a manifest has come within 3.9 percent of the initial distance to a fixed point. */
  lemma ManifestIsNearFixpoint(m: Manifest, fixpoint: map<Path, real>)
    requires Derived(m) && forall u :: u in m.order ==> u in fixpoint
    requires RankTheorems.Fixed(m.order, m.edges, fixpoint)
    ensures forall v :: v in m.order ==> v in m.ranks && v in PageRank.Uniform(m.order)
    ensures RankTheorems.Distance(m.order, m.ranks, fixpoint)
      <= 0.039 * RankTheorems.Distance(m.order, PageRank.Uniform(m.order), fixpoint)
  {
    hide InOrder, EdgesOk, RankTheorems.Fixed, RankTheorems.Distance, PageRank.Iterate, PageRank.Uniform;
    RankTheorems.NearAfterTwenty(m.order, m.edges, fixpoint);
  }

  /** A tree has one manifest, whatever the store held when it was built. */
  lemma ManifestIsUnique(parser: Parser, tree: seq<File>, m: Manifest, n: Manifest)
    requires Describes(parser, tree, m) && Describes(parser, tree, n)
    ensures m == n
  {
    hide InOrder, FreshFacts, ParsablePaths, Dependencies.DependsOn;
    forall source | source in m.edges ensures m.edges[source] == n.edges[source] {
      OrderIsUnique(map[], m.edges[source], n.edges[source]);
    }
    assert m.edges == n.edges;
  }

  /**
   * Ranks of a manifest sum to one exactly when every indexed file resolves at least one
   * dependency, since resolved edges never leave the file set.
   */
  lemma ManifestMass(m: Manifest)
    requires Derived(m) && m.order != []
    ensures forall v :: v in m.order ==> v in m.ranks
    ensures PageRank.Total(m.order, m.ranks) <= 1.0
    ensures PageRank.Total(m.order, m.ranks) == 1.0
      <==> forall u :: u in m.order ==> m.edges[u] != []
  {
    hide InOrder;
    RankTheorems.MassAtMostOne(m.order, m.edges, 20);
    RankTheorems.MassExactlyOne(m.order, m.edges, 20);
    forall u | u in m.order ensures RankTheorems.Keeps(m.order, m.edges, u) <==> m.edges[u] != [] {
      forall v | v in m.edges[u] ensures v in m.order {
        assert Dependencies.DependsOn(ImportsOf(m.facts), u, v);
      }
    }
  }

  type Head = string

  /** Every stored manifest was built from the store of that moment and the tree its commit had. */
  ghost predicate AllBuilt(parser: Parser, stores: map<Head, Objects>, trees: map<Head, seq<File>>,
                           manifests: map<Head, Manifest>)
  {
    && trees.Keys == manifests.Keys == stores.Keys
    && forall h :: h in manifests ==> IsBuilt(parser, stores[h], trees[h], manifests[h])
  }

  ghost predicate IsBuilt(parser: Parser, objects: Objects, tree: seq<File>, m: Manifest) {
    ObjectsOk(parser, objects) && DistinctPaths(tree) && BuiltFrom(parser, objects, tree, m)
  }

  lemma BuildOneMore(parser: Parser, stores: map<Head, Objects>, trees: map<Head, seq<File>>,
                     manifests: map<Head, Manifest>, head: Head, objects: Objects, tree: seq<File>, m: Manifest)
    requires AllBuilt(parser, stores, trees, manifests) && IsBuilt(parser, objects, tree, m)
    ensures AllBuilt(parser, stores[head := objects], trees[head := tree], manifests[head := m])
  {
    hide IsBuilt;
    assert stores[head := objects].Keys == stores.Keys + {head};
    assert trees[head := tree].Keys == trees.Keys + {head};
    assert manifests[head := m].Keys == manifests.Keys + {head};
  }

  lemma BuiltHead(parser: Parser, stores: map<Head, Objects>, trees: map<Head, seq<File>>,
                  manifests: map<Head, Manifest>, head: Head, tree: seq<File>)
    requires AllBuilt(parser, stores, trees, manifests)
    requires head in trees ==> trees[head] == tree
    ensures head in trees <==> head in manifests
    ensures head in stores <==> head in manifests
    ensures head in manifests ==>
      && IsBuilt(parser, stores[head], tree, manifests[head])
      && manifests[head := manifests[head]] == manifests && trees[head := tree] == trees
      && stores[head := stores[head]] == stores
  {
    hide IsBuilt;
  }

  /** What a caller learns from `ensure_index`. */
  datatype IndexedRepository = IndexedRepository(head: Head, parsedFiles: nat, reusedFiles: nat)

  /** The persistent index of one repository. */
  class RepositoryContextIndex {
    const parser: Parser
    var objects: Objects
    var manifests: map<Head, Manifest>
    /** The tree each indexed commit had and the objects stored when it was indexed. */
    ghost var trees: map<Head, seq<File>>
    ghost var stores: map<Head, Objects>

    ghost predicate Valid()
      reads this
    {
      ObjectsOk(parser, objects) && AllBuilt(parser, stores, trees, manifests)
    }

    constructor (parser: Parser)
      ensures Valid() && this.parser == parser && objects == map[] && manifests == map[]
    {
      this.parser := parser;
      objects := map[];
      manifests := map[];
      trees := map[];
      stores := map[];
    }

    /** `_parse_object` and the object lookup for one file. */
    method AddFile(b: Build, f: File) returns (r: Build)
      ensures r == IndexFile(parser, b, f)
    {
      if !Parsable(f) {
        return b;
      }
      var digest := Sha256(f.data.value);
      var facts: Facts;
      r := b;
      if digest in r.objects {
        facts := r.objects[digest].(path := f.path);
        r := r.(reused := r.reused + 1);
      } else {
        facts := Parse(parser, f.path, f.data.value);
        r := r.(objects := r.objects[digest := facts], parsed := r.parsed + 1);
      }
      r := r.(order := r.order + [f.path], facts := r.facts[f.path := facts]);
    }

    /** `ensure_index` of a worktree that matches its HEAD. */
    method EnsureIndex(head: Head, tree: seq<File>) returns (r: IndexedRepository)
      requires Valid()
      requires DistinctPaths(tree)
      requires head in trees ==> trees[head] == tree
      modifies this
      ensures Valid()
      ensures r.head == head
      ensures head in manifests && head in stores
      ensures manifests == old(manifests)[head := manifests[head]] && trees == old(trees)[head := tree]
      ensures r.parsedFiles + r.reusedFiles == |manifests[head].facts|
      ensures if head in old(manifests)
        then r.parsedFiles == 0 && manifests == old(manifests) && objects == old(objects) && stores == old(stores)
        else
          && r.parsedFiles == |Digests(tree) - old(objects).Keys|
          && objects.Keys == old(objects).Keys + Digests(tree)
          && stores == old(stores)[head := old(objects)]
      ensures Describes(parser, tree, manifests[head]) <==> AllExtractAlike(parser, stores[head], tree)
    {
      hide ObjectsOk, Digests, DistinctPaths, AllBuilt, BuiltFrom, Describes, AllExtractAlike;
      BuiltHead(parser, stores, trees, manifests, head, tree);
      if head in manifests {
        BuiltIsColdExactly(parser, stores[head], tree, manifests[head]);
        return IndexedRepository(head, 0, |manifests[head].facts|);
      }
      var m, b := BuildManifest(tree);
      BuiltIsColdExactly(parser, objects, tree, m);
      BuildOneMore(parser, stores, trees, manifests, head, objects, tree, m);
      manifests := manifests[head := m];
      trees := trees[head := tree];
      stores := stores[head := objects];
      objects := b.objects;
      return IndexedRepository(head, b.parsed, b.reused);
    }

    /** The locked part: facts, edges and ranks of the tree, and the objects to store. */
    method BuildManifest(tree: seq<File>) returns (m: Manifest, b: Build)
      requires ObjectsOk(parser, objects) && DistinctPaths(tree)
      ensures BuiltFrom(parser, objects, tree, m)
      ensures ObjectsOk(parser, b.objects)
      ensures b.objects.Keys == objects.Keys + Digests(tree)
      ensures b.parsed + b.reused == |m.facts|
      ensures b.parsed == |Digests(tree) - objects.Keys|
    {
      hide Parsable, IndexFiles, BuiltFrom, ObjectsOk, Digests, ParsablePaths;
      hide DistinctPaths, ImportsOf, InOrder, Dependencies.DependsOn, PageRank.Iterate, PageRank.Uniform;
      b := BuildTree(tree);
      BuildFacts(parser, objects, tree);
      var edges := Dependencies.Resolve(ImportsOf(b.facts));
      var ranks := PageRank.Compute(b.order, edges);
      m := Manifest(b.order, b.facts, edges, ranks);
      DerivesFrom(parser, objects, tree, m);
    }

    /** The loop over the tracked files; objects are written at the end of the locked build. */
    method BuildTree(tree: seq<File>) returns (b: Build)
      ensures b == IndexFiles(parser, objects, tree)
    {
      hide IndexFile;
      b := Build(objects, [], map[], 0, 0);
      for i := 0 to |tree|
        invariant b == IndexFiles(parser, objects, tree[..i])
      {
        b := AddFile(b, tree[i]);
        assert tree[..i + 1][..i] == tree[..i];
      }
      assert tree[..|tree|] == tree;
    }
  }

  /** What one build comes to. */
  lemma BuildFacts(parser: Parser, objects: Objects, tree: seq<File>)
    requires ObjectsOk(parser, objects) && DistinctPaths(tree)
    ensures var b := IndexFiles(parser, objects, tree);
      && b.order == ParsablePaths(tree)
      && b.facts.Keys == (set p | p in b.order)
      && b.parsed + b.reused == |b.facts|
      && b.parsed == |Digests(tree) - objects.Keys|
      && b.objects.Keys == objects.Keys + Digests(tree)
      && ObjectsOk(parser, b.objects)
      && Distinct(b.order)
  {
    hide IndexFiles, ParsablePaths, Digests, ObjectsOk, DistinctPaths, Distinct, FreshFacts, HasPath;
    var b := IndexFiles(parser, objects, tree);
    BuildCounts(parser, objects, tree);
    BuildKeepsObjects(parser, objects, tree);
    ParsedAreNewContents(parser, objects, tree);
    OrderIsDistinct(tree);
    FactsCoverOrder(parser, objects, tree);
    assert b.facts.Keys == (set p | p in b.order);
    DistinctSize(b.order);
  }

  lemma {:induction false} DistinctSize(order: seq<Path>)
    requires Distinct(order)
    ensures |set p | p in order| == |order|
  {
    if order != [] {
      var rest, last := order[..|order| - 1], order[|order| - 1];
      DistinctSize(rest);
      assert (set p | p in order) == (set p | p in rest) + {last};
    }
  }

  lemma DerivesFrom(parser: Parser, objects: Objects, tree: seq<File>, m: Manifest)
    requires m.order == ParsablePaths(tree) && m.facts == IndexFiles(parser, objects, tree).facts
    requires EdgesOk(ImportsOf(m.facts), m.edges) && PageRank.Graph(m.order, m.edges)
    requires m.ranks == PageRank.Iterate(m.order, m.edges, PageRank.Uniform(m.order), 20)
    ensures BuiltFrom(parser, objects, tree, m)
  {
  }

  /**
   * Equal suffixes are needed: for any bytes first indexed under one path and then met under
   * a path with another suffix, some extraction makes the second file inherit wrong facts.
   */
  lemma SuffixesMatter(a: Path, b: Path, data: Bytes) returns (parser: Parser, objects: Objects)
    requires Parsable(File(a, Some(data))) && Parsable(File(b, Some(data)))
    requires LowerSuffix(a) != LowerSuffix(b)
    ensures objects == IndexFiles(parser, map[], [File(a, Some(data))]).objects
    ensures IndexFiles(parser, objects, [File(b, Some(data))]).facts != FreshFacts(parser, [File(b, Some(data))])
  {
    hide LowerSuffix, Indexable, LooksBinary;
    var found := [Symbol("f", "function", 1, "def f():")];
    var suffix := LowerSuffix(a);
    parser := Parser((s, d) => if s == suffix then found else [], (s, d) => [], d => "");
    var first, second := [File(a, Some(data))], [File(b, Some(data))];
    assert first[..0] == [] && second[..0] == [];
    objects := IndexFiles(parser, map[], first).objects;
    assert IndexFiles(parser, map[], first) == IndexFile(parser, Build(map[], [], map[], 0, 0), first[0]);
    assert objects == map[Sha256(data) := Parse(parser, a, data)];
    assert objects[Sha256(data)].symbols == found;
    assert IndexFiles(parser, objects, second) == IndexFile(parser, Build(objects, [], map[], 0, 0), second[0]);
    assert IndexFiles(parser, objects, second).facts[b].symbols == found;
    assert FreshFacts(parser, second)[b].symbols == [];
  }
}
