/**
 * Which files an import names (src/minion/runtime/code_index.py, `_resolve_dependency_edges`),
 * said in terms of packages, modules and file names instead of the keys that are looked up.
 */
module ImportNames {
  import opened Text
  import opened Dependencies

  predicate Without(s: string, c: char) {
    forall i :: 0 <= i < |s| ==> s[i] != c
  }

  // ---- Strings ----

  lemma {:induction false} AfterLastIs(a: string, c: char, b: string)
    requires Without(b, c)
    ensures AfterLast(a + [c] + b, c) == b
    decreases |b|
  {
    var s := a + [c] + b;
    if b != [] {
      var n := |b| - 1;
      AfterLastIs(a, c, b[..n]);
      assert s[..|s| - 1] == a + [c] + b[..n];
      assert b == b[..n] + [b[n]];
    }
  }

  lemma {:induction false} AfterLastWhole(b: string, c: char)
    requires Without(b, c)
    ensures AfterLast(b, c) == b
  {
    if b != [] {
      AfterLastWhole(b[..|b| - 1], c);
    }
  }

  /** A directory prefix: empty, or ending in `/`. */
  predicate IsDirectory(dir: string) {
    dir == [] || dir[|dir| - 1] == '/'
  }

  /** A file name: base and suffix, both nonempty, the base without dots. */
  predicate IsFileName(base: string, ext: string) {
    && base != [] && Without(base, '/') && Without(base, '.')
    && ext != [] && Without(ext, '/') && Without(ext, '.')
  }

  lemma LastComponent(dir: string, name: string)
    requires IsDirectory(dir) && Without(name, '/')
    ensures AfterLast(dir + name, '/') == name
  {
    if dir == [] {
      AfterLastWhole(name, '/');
      assert dir + name == name;
    } else {
      AfterLastIs(dir[..|dir| - 1], '/', name);
      assert dir[..|dir| - 1] + ['/'] + name == dir + name;
    }
  }

  /** `dir/base.ext` has stem `base`, suffix `.ext`, and `dir/base` is it without the suffix. */
  lemma PathParts(dir: string, base: string, ext: string)
    requires IsDirectory(dir) && IsFileName(base, ext)
    ensures var path := dir + base + "." + ext;
      Stem(path) == base && Suffix(path) == "." + ext && WithoutSuffix(path) == dir + base
  {
    hide AfterLast, Without;
    var path, name := dir + base + "." + ext, base + "." + ext;
    assert path == dir + name;
    assert Without(name, '/') by { NoSlash(base, ext); }
    LastComponent(dir, name);
    AfterLastIs(base, '.', ext);
    assert base + ['.'] + ext == name;
    assert |name| >= 3;
    assert Name(path) == name;
    assert StemLength(name) == |base|;
    assert name[..|base|] == base && name[|base|..] == "." + ext;
    assert path[..|dir|] == dir;
  }

  lemma NoSlash(base: string, ext: string)
    requires Without(base, '/') && Without(ext, '/')
    ensures Without(base + "." + ext, '/')
  {
  }

  // ---- What a file is called ----

  /** The three names of `dir/base.ext`. */
  lemma FileNames(dir: string, base: string, ext: string)
    requires IsDirectory(dir) && IsFileName(base, ext)
    ensures var path := dir + base + "." + ext;
      && StemName(path) == Lower(base)
      && SlashModule(path) == Lower(Replace(dir + base, '\\', '/'))
      && DottedModule(path) == Lower(Replace(Replace(dir + base, '\\', '/'), '/', '.'))
  {
    hide Stem, Suffix, WithoutSuffix, Lower, Replace;
    PathParts(dir, base, ext);
  }

  // ---- What a token names ----

  /** Leading dots and slashes of a token, as in relative imports, make no difference. */
  lemma {:induction false} LeadingDotsAreIgnored(prefix: string, rest: string, path: Path)
    requires forall i :: 0 <= i < |prefix| ==> prefix[i] == '.' || prefix[i] == '/'
    ensures TokenNames(prefix + rest, path) <==> TokenNames(rest, path)
  {
    StripPrefix(prefix, rest);
    assert Keys(prefix + rest) == Keys(rest) by { KeysOfStripped(prefix + rest, rest); }
  }

  lemma {:induction false} StripPrefix(prefix: string, rest: string)
    requires forall i :: 0 <= i < |prefix| ==> prefix[i] == '.' || prefix[i] == '/'
    ensures StripDotSlash(prefix + rest) == StripDotSlash(rest)
  {
    if prefix == [] {
      assert prefix + rest == rest;
    } else {
      assert (prefix + rest)[1..] == prefix[1..] + rest;
      StripPrefix(prefix[1..], rest);
    }
  }

  lemma KeysOfStripped(a: string, b: string)
    requires Normalized(a) == Normalized(b)
    ensures Keys(a) == Keys(b)
  {
    hide Normalized;
  }

  lemma {:induction false} StripKeepsCase(s: string, t: string)
    requires SameButCase(s, t)
    ensures SameButCase(StripDotSlash(s), StripDotSlash(t))
  {
    if s != [] && (s[0] == '.' || s[0] == '/') {
      assert s[1..] == s[1..] && |t| > 0 && t[0] == s[0];
      StripKeepsCase(s[1..], t[1..]);
    } else if s != [] {
      assert !(t[0] == '.' || t[0] == '/');
    }
  }

  /** Nor does the case of its letters. */
  lemma CaseIsIgnored(token: string, other: string, path: Path)
    requires SameButCase(token, other)
    ensures TokenNames(token, path) <==> TokenNames(other, path)
  {
    StripKeepsCase(token, other);
    var s, t := Replace(StripDotSlash(token), '\\', '/'), Replace(StripDotSlash(other), '\\', '/');
    assert SameButCase(s, t);
    LowerForgetsCaseExactly(s, t);
    KeysOfStripped(token, other);
  }

  lemma NamedByKey(token: string, key: string, path: Path)
    requires key in Keys(token) && Names(key, path)
    ensures TokenNames(token, path)
  {
  }

  /** The string has no suffix to speak of. */
  lemma StemOfWord(dir: string, name: string)
    requires IsDirectory(dir) && name != [] && Without(name, '/') && Without(name, '.')
    ensures Stem(dir + name) == name
  {
    hide AfterLast;
    LastComponent(dir, name);
    AfterLastWhole(name, '.');
    assert name[0] != '.';
    assert Name(dir + name) == name;
  }

  /** A word with no separators names the files whose stem or module it is, and no others. */
  lemma WordImportExactly(token: string, path: Path)
    requires token != [] && Without(token, '/') && Without(token, '.') && Without(token, '\\')
    ensures TokenNames(token, path) <==> Names(Lower(token), path)
  {
    hide Names, AfterLast, Stem, Without;
    var t := Lower(token);
    assert Normalized(token) == t && Dotted(token) == t && Without(t, '/') && Without(t, '.') by { PlainWord(token); }
    StemOfWord([], t);
    assert [] + t == t;
    AfterLastWhole(t, '/');
    AfterLastWhole(t, '.');
    NoSuffix(t, "/index", '/');
    NoSuffix(t, ".index", '.');
    assert Keys(token) == {t};
  }

  lemma PlainWord(token: string)
    requires token != [] && Without(token, '/') && Without(token, '.') && Without(token, '\\')
    ensures var t := Lower(token);
      Normalized(token) == t && Dotted(token) == t && t != [] && Without(t, '/') && Without(t, '.')
  {
    assert StripDotSlash(token) == token;
    assert Replace(token, '\\', '/') == token;
    assert Replace(Lower(token), '/', '.') == Lower(token);
  }

  lemma NoSuffix(s: string, suffix: string, c: char)
    requires suffix != [] && suffix[0] == c && Without(s, c)
    ensures RemoveSuffix(s, suffix) == s
  {
    assert |suffix| <= |s| ==> s[|s| - |suffix|..][0] == s[|s| - |suffix|];
  }

  /**
   * A dotted import names the files that its last component, its package or the whole of it
   * names by stem or module, and no others.
   */
  lemma DottedImportExactly(token: string, package: string, name: string, path: Path)
    requires Normalized(token) == package + "." + name && Without(Normalized(token), '/')
    requires package != [] && name != [] && Without(name, '.')
    ensures TokenNames(token, path) <==>
      Names(package + "." + name, path) || Names(package, path) || Names(name, path)
  {
    hide Names, AfterLast, Stem, Normalized, Replace;
    var t := package + "." + name;
    NoChange(t);
    DottedParts(package, name);
    NoSuffix(t, "/index", '/');
    AfterLastWhole(t, '/');
    assert RemoveSuffix(t, ".index") == t || RemoveSuffix(t, ".index") == package by { IndexOfDotted(package, name); }
    assert Keys(token) == {t, package, name};
  }

  lemma NoChange(t: string)
    requires Without(t, '/')
    ensures Replace(t, '/', '.') == t
  {
  }

  lemma DottedParts(package: string, name: string)
    requires Without(package + "." + name, '/') && package != [] && name != [] && Without(name, '.')
    ensures var t := package + "." + name; Stem(t) == package && AfterLast(t, '.') == name
  {
    hide AfterLast, Without;
    var t := package + "." + name;
    AfterLastIs(package, '.', name);
    assert package + ['.'] + name == t;
    AfterLastWhole(t, '/');
    assert |t| >= 3;
    assert Name(t) == t;
    assert StemLength(t) == |package|;
    assert t[..|package|] == package;
  }

  lemma IndexOfDotted(package: string, name: string)
    requires Without(name, '.')
    ensures var t := package + "." + name; RemoveSuffix(t, ".index") == if name == "index" then package else t
  {
    var t := package + "." + name;
    assert name == "index" ==> t[|t| - 6..] == ".index";
    if |".index"| <= |t| && t[|t| - |".index"|..] == ".index" {
      AfterLastIs(package, '.', name);
      AfterLastIs(t[..|t| - 6], '.', "index");
      assert t == t[..|t| - 6] + ['.'] + "index" == package + ['.'] + name;
      assert t[..|package|] == package;
    }
  }

  /**
   * A path import without suffix names the files that the whole path, with slashes or dots,
   * or its last component names; after a final `index` also those of the directory.
   */
  lemma PathImportExactly(token: string, place: string, name: string, path: Path)
    requires Normalized(token) == place + "/" + name && Without(Normalized(token), '.')
    requires name != [] && Without(name, '/')
    ensures TokenNames(token, path) <==>
      || Names(place + "/" + name, path) || Names(Replace(place + "/" + name, '/', '.'), path) || Names(name, path)
      || (name == "index" && (Names(place, path) || Names(Replace(place, '/', '.'), path)))
  {
    hide Names, AfterLast, Stem, Normalized, Replace;
    var n := place + "/" + name;
    var d := Replace(place, '/', '.') + "." + name;
    assert Replace(n, '/', '.') == d && Without(name, '.') by { Undotted(place, name); }
    assert Stem(n) == name && AfterLast(n, '/') == name by {
      assert n == (place + "/") + name;
      StemOfWord(place + "/", name);
      LastComponent(place + "/", name);
    }
    assert AfterLast(d, '.') == name by {
      AfterLastIs(Replace(place, '/', '.'), '.', name);
      assert Replace(place, '/', '.') + ['.'] + name == d;
    }
    IndexOfDotted(Replace(place, '/', '.'), name);
    IndexOfPath(place, name);
    if name == "index" {
      assert Keys(token) == {n, d, name, place, Replace(place, '/', '.')};
    } else {
      assert Keys(token) == {n, d, name};
    }
  }

  lemma Undotted(place: string, name: string)
    requires Without(place + "/" + name, '.') && Without(name, '/')
    ensures Replace(place + "/" + name, '/', '.') == Replace(place, '/', '.') + "." + name
    ensures Without(name, '.')
  {
    var n := place + "/" + name;
    forall i | 0 <= i < |name| ensures name[i] != '.' {
      assert n[|place| + 1 + i] == name[i];
    }
  }

  lemma IndexOfPath(place: string, name: string)
    requires Without(name, '/')
    ensures var t := place + "/" + name; RemoveSuffix(t, "/index") == if name == "index" then place else t
  {
    var t := place + "/" + name;
    assert name == "index" ==> t[|t| - 6..] == "/index";
    if |"/index"| <= |t| && t[|t| - |"/index"|..] == "/index" {
      AfterLastIs(place, '/', name);
      AfterLastIs(t[..|t| - 6], '/', "index");
      assert t == t[..|t| - 6] + ['/'] + "index" == place + ['/'] + name;
      assert t[..|place|] == place;
    }
  }

  /** A path import that spells out the suffix names the files with that stem as well. */
  lemma SuffixedImport(token: string, dir: string, base: string, ext: string, path: Path)
    requires Normalized(token) == dir + base + "." + ext && IsDirectory(dir) && IsFileName(base, ext)
    requires StemName(path) == base
    ensures TokenNames(token, path)
  {
    hide Normalized, Stem, Names;
    PathParts(dir, base, ext);
    assert Stem(Normalized(token)) in Keys(token);
    assert Names(base, path) by { StemNames(path); }
    NamedByKey(token, base, path);
  }

  lemma StemNames(path: Path)
    ensures Names(StemName(path), path)
  {
  }

  // ---- Edges ----

  /**
   * A dotted import of `package.base` is an edge to every other indexed file `dir/base.ext`,
   * in whatever directory and with whatever suffix.
   */
  lemma DottedImportIsEdge(files: Imports, source: Path, k: nat, package: string, dir: string, base: string, ext: string)
    requires IsDirectory(dir) && IsFileName(base, ext) && package != []
    requires var target := dir + base + "." + ext; target in files && target != source
    requires source in files && k < |files[source]|
    requires Normalized(files[source][k]) == package + "." + Lower(base)
    requires Without(Normalized(files[source][k]), '/')
    ensures DependsOn(files, source, dir + base + "." + ext)
  {
    hide Normalized, StemName, SlashModule, DottedModule, TokenNames;
    var target := dir + base + "." + ext;
    FileNames(dir, base, ext);
    assert Without(Lower(base), '.') && Lower(base) != [];
    DottedImportExactly(files[source][k], package, Lower(base), target);
    StemNames(target);
  }

  /** The layout of this repository: `minion.runtime.agent` is `src/minion/runtime/agent.py`. */
  lemma PackageImportIsEdge(files: Imports, source: Path, k: nat)
    requires "src/minion/runtime/agent.py" in files && source != "src/minion/runtime/agent.py"
    requires source in files && k < |files[source]| && files[source][k] == "minion.runtime.agent"
    ensures DependsOn(files, source, "src/minion/runtime/agent.py")
  {
    var token := "minion.runtime.agent";
    assert StripDotSlash(token) == token;
    assert Replace(token, '\\', '/') == token;
    assert Lower(token) == token && token == "minion.runtime" + "." + "agent" && Lower("agent") == "agent";
    assert "src/minion/runtime/" + "agent" + "." + "py" == "src/minion/runtime/agent.py";
    DottedImportIsEdge(files, source, k, "minion.runtime", "src/minion/runtime/", "agent", "py");
  }
}
