/** In-repository dependency edges (src/minion/runtime/code_index.py, `_resolve_dependency_edges`). */
module Dependencies {
  import opened Ordering
  import opened Text

  /** Import tokens of every indexed file. */
  type Imports = map<Path, seq<string>>

  // ---- Definition by names ----

  function StemName(path: Path): string {
    Lower(Stem(path))
  }

  function SlashModule(path: Path): string {
    Lower(Replace(WithoutSuffix(path), '\\', '/'))
  }

  function DottedModule(path: Path): string {
    Lower(Replace(Replace(WithoutSuffix(path), '\\', '/'), '/', '.'))
  }

  function Normalized(token: string): string {
    Lower(Replace(StripDotSlash(token), '\\', '/'))
  }

  function Dotted(token: string): string {
    Replace(Normalized(token), '/', '.')
  }

  /** The keys under which one import token is looked up. */
  function Keys(token: string): set<string> {
    {
      Normalized(token),
      Dotted(token),
      RemoveSuffix(Normalized(token), "/index"),
      RemoveSuffix(Dotted(token), ".index"),
      Stem(Normalized(token)),
      AfterLast(Normalized(token), '/'),
      AfterLast(Dotted(token), '.')
    }
  }

  /** A key names a file by its stem or by either spelling of its module. */
  predicate Names(key: string, path: Path) {
    key == StemName(path) || key == SlashModule(path) || key == DottedModule(path)
  }

  ghost predicate TokenNames(token: string, path: Path) {
    exists key :: key in Keys(token) && Names(key, path)
  }

  /** The naive definition: `source` depends on another indexed file that one of its imports names. */
  ghost predicate DependsOn(files: Imports, source: Path, target: Path) {
    && source in files
    && target in files
    && target != source
    && exists k :: 0 <= k < |files[source]| && TokenNames(files[source][k], target)
  }

  // ---- The lookup index ----

  /** A `defaultdict(set)`; a missing key means the empty set. */
  type Lookup = map<string, set<Path>>

  function At(m: Lookup, key: string): set<Path> {
    if key in m then m[key] else {}
  }

  function Insert(m: Lookup, key: string, path: Path): Lookup {
    m[key := At(m, key) + {path}]
  }

  ghost predicate StemIndex(m: Lookup, files: set<Path>) {
    forall key, p :: p in At(m, key) <==> p in files && key == StemName(p)
  }

  ghost predicate ModuleIndex(m: Lookup, files: set<Path>) {
    forall key, p :: p in At(m, key) <==> p in files && (key == SlashModule(p) || key == DottedModule(p))
  }

  method BuildIndex(files: set<Path>) returns (byStem: Lookup, byModule: Lookup)
    ensures StemIndex(byStem, files) && ModuleIndex(byModule, files)
  {
    hide StemName, SlashModule, DottedModule;
    byStem, byModule := map[], map[];
    var rest := files;
    assert files - rest == {};
    while rest != {}
      invariant rest <= files
      invariant StemIndex(byStem, files - rest) && ModuleIndex(byModule, files - rest)
      decreases rest
    {
      var path :| path in rest;
      ghost var done := files - rest;
      StemInsert(byStem, done, path);
      ModuleInsert(byModule, done, path);
      rest := rest - {path};
      assert files - rest == done + {path};
      byStem := Insert(byStem, StemName(path), path);
      byModule := Insert(byModule, SlashModule(path), path);
      byModule := Insert(byModule, DottedModule(path), path);
    }
    assert files - rest == files;
  }

  lemma StemInsert(m: Lookup, done: set<Path>, path: Path)
    requires StemIndex(m, done)
    ensures StemIndex(Insert(m, StemName(path), path), done + {path})
  {
    hide StemName;
    var n := Insert(m, StemName(path), path);
    forall key, p ensures p in At(n, key) <==> p in done + {path} && key == StemName(p) {
      assert p in At(m, key) <==> p in done && key == StemName(p);
    }
  }

  lemma ModuleInsert(m: Lookup, done: set<Path>, path: Path)
    requires ModuleIndex(m, done)
    ensures ModuleIndex(Insert(Insert(m, SlashModule(path), path), DottedModule(path), path), done + {path})
  {
    hide SlashModule, DottedModule;
    var n := Insert(Insert(m, SlashModule(path), path), DottedModule(path), path);
    forall key, p ensures p in At(n, key) <==> p in done + {path} && (key == SlashModule(p) || key == DottedModule(p)) {
      assert p in At(m, key) <==> p in done && (key == SlashModule(p) || key == DottedModule(p));
    }
  }

  method Candidates(byStem: Lookup, byModule: Lookup, token: string, ghost files: set<Path>) returns (found: set<Path>)
    requires StemIndex(byStem, files) && ModuleIndex(byModule, files)
    ensures forall p :: p in found <==> p in files && TokenNames(token, p)
  {
    hide StemName, SlashModule, DottedModule, Keys;
    found := {};
    var rest := Keys(token);
    while rest != {}
      invariant rest <= Keys(token)
      invariant forall p :: p in found <==>
        p in files && exists key :: key in Keys(token) && key !in rest && Names(key, p)
      decreases rest
    {
      var key :| key in rest;
      rest := rest - {key};
      ghost var before := found;
      found := found + At(byStem, key) + At(byModule, key);
      forall p ensures p in found <==> p in files && exists k :: k in Keys(token) && k !in rest && Names(k, p) {
        if p in files && exists k :: k in Keys(token) && k !in rest && Names(k, p) {
          var k :| k in Keys(token) && k !in rest && Names(k, p);
          assert k == key || p in before;
        }
      }
    }
  }

  method Targets(byStem: Lookup, byModule: Lookup, source: Path, tokens: seq<string>, ghost files: set<Path>)
    returns (found: set<Path>)
    requires StemIndex(byStem, files) && ModuleIndex(byModule, files)
    ensures forall p :: p in found <==>
      p in files && p != source && exists k :: 0 <= k < |tokens| && TokenNames(tokens[k], p)
  {
    hide StemIndex, ModuleIndex, TokenNames;
    found := {};
    for i := 0 to |tokens|
      invariant forall p :: p in found <==>
        p in files && p != source && exists k :: 0 <= k < i && TokenNames(tokens[k], p)
    {
      var candidates := Candidates(byStem, byModule, tokens[i], files);
      found := found + (candidates - {source});
    }
  }

  /** `_resolve_dependency_edges`. */
  method Resolve(files: Imports) returns (edges: map<Path, seq<Path>>)
    ensures edges.Keys == files.Keys
    ensures forall source :: source in files ==>
      && InOrder(map[], edges[source])
      && forall target :: target in edges[source] <==> DependsOn(files, source, target)
  {
    hide StemIndex, ModuleIndex, TokenNames, InOrder;
    var byStem, byModule := BuildIndex(files.Keys);
    edges := map[];
    var rest := files.Keys;
    while rest != {}
      invariant rest <= files.Keys
      invariant edges.Keys == files.Keys - rest
      invariant forall source :: source in edges ==>
        && InOrder(map[], edges[source])
        && forall target :: target in edges[source] <==> DependsOn(files, source, target)
      decreases rest
    {
      var source :| source in rest;
      var found := Targets(byStem, byModule, source, files[source], files.Keys);
      var sorted := Sort(map[], found);
      edges := edges[source := sorted];
      rest := rest - {source};
    }
  }
}
