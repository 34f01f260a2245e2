/**
 * The dependency scan of `resolveModules`, the same in plugins/use-node.js/index.js and
 * bak/v0.11.4/use-node.js.ts: `lookupFile` finds the project's `package.json` under the root or
 * the working directory, and each key of its `dependencies` is sorted into the CommonJS or the
 * ES-module list by the `type` field of the package's own `package.json`.
 */
module PackageDeps {
  import opened Js
  import opened FileSystem

  /**
   * `lookupFile(filename, paths)`: the first `path.join(p, filename)` that exists, trying the
   * candidates in the order given; `None` (`undefined`) when none does.
   */
  function FirstFound(filename: string, paths: seq<string>, present: set<string>): (r: Option<string>)
    ensures r.Some? ==>
      exists i :: 0 <= i < |paths| && r.value == PathJoin(paths[i], filename) && r.value in present
                  && forall j :: 0 <= j < i ==> PathJoin(paths[j], filename) !in present
    ensures r.None? <==> forall i :: 0 <= i < |paths| ==> PathJoin(paths[i], filename) !in present
  {
    if paths == [] then None
    else if PathJoin(paths[0], filename) in present then Some(PathJoin(paths[0], filename))
    else
      var r := FirstFound(filename, paths[1..], present);
      assert forall i :: 1 <= i < |paths| ==> paths[i] == paths[1..][i - 1];
      r
  }

  /** The root is tried before the working directory: a manifest under the root always wins. */
  lemma RootFirst(filename: string, root: string, cwd: string, present: set<string>)
    ensures PathJoin(root, filename) in present ==> FirstFound(filename, [root, cwd], present) == Some(PathJoin(root, filename))
    ensures PathJoin(root, filename) !in present ==>
      FirstFound(filename, [root, cwd], present) == (if PathJoin(cwd, filename) in present then Some(PathJoin(cwd, filename)) else None)
  {
    assert [root, cwd][1..] == [cwd];
    assert [cwd][1..] == [];
  }

  /** The `lookupFile` loop. */
  method LookupFile(fs: Disk, filename: string, paths: seq<string>) returns (r: Option<string>)
    ensures r == FirstFound(filename, paths, fs.Paths())
  {
    var i := 0;
    while i < |paths|
      invariant 0 <= i <= |paths|
      invariant FirstFound(filename, paths[i..], fs.Paths()) == FirstFound(filename, paths, fs.Paths())
    {
      var filepath := PathJoin(paths[i], filename);
      if fs.Exists(filepath) {
        return Some(filepath);
      }
      assert paths[i..][1..] == paths[i + 1..];
      i := i + 1;
    }
    return None;
  }

  /**
   * What the scan consults: the two search roots, the paths that exist, each manifest's `type`
   * field (`require(pkgId).type`) and the keys of its `dependencies` (`Object.keys(pkg.dependencies || {})`).
   */
  datatype Scan = Scan(root: string, cwd: string, present: set<string>,
                       typeOf: string -> Slot<string>, depKeys: string -> seq<string>)

  /** `[root, cwd].map(r => `${r}/node_modules/${name}`)`. */
  function PackageDirs(s: Scan, name: string): seq<string>
  {
    [s.root + "/node_modules/" + name, s.cwd + "/node_modules/" + name]
  }

  /** A dependency is an ES module exactly when its manifest is found and says `"type": "module"`. */
  function IsEsm(s: Scan, name: string): bool
  {
    match FirstFound("package.json", PackageDirs(s, name), s.present)
    case Some(p) => s.typeOf(p) == Has("module")
    case None => false
  }

  /**
   * The copy under the root shadows the one under the working directory: only when the root has
   * none is the working directory's manifest consulted.
   */
  lemma IsEsmRootFirst(s: Scan, name: string)
    ensures var atRoot := PathJoin(s.root + "/node_modules/" + name, "package.json");
      var atCwd := PathJoin(s.cwd + "/node_modules/" + name, "package.json");
      IsEsm(s, name) <==> if atRoot in s.present then s.typeOf(atRoot) == Has("module")
                          else atCwd in s.present && s.typeOf(atCwd) == Has("module")
  {
    RootFirst("package.json", s.root + "/node_modules/" + name, s.cwd + "/node_modules/" + name, s.present);
  }

  /** The dependencies of the project manifest; none when there is no manifest. */
  function ManifestDeps(s: Scan): seq<string>
  {
    match FirstFound("package.json", [s.root, s.cwd], s.present)
    case Some(p) => s.depKeys(p)
    case None => []
  }

  /** The names that pass `test` (`keep`) or fail it (`!keep`), in their original order. */
  function Select(names: seq<string>, test: string -> bool, keep: bool): (r: seq<string>)
    ensures |r| <= |names|
    ensures forall n :: n in r <==> n in names && test(n) == keep
  {
    if names == [] then []
    else (if test(names[0]) == keep then [names[0]] else []) + Select(names[1..], test, keep)
  }

  lemma {:induction false} SelectAppend(a: seq<string>, b: seq<string>, test: string -> bool, keep: bool)
    ensures Select(a + b, test, keep) == Select(a, test, keep) + Select(b, test, keep)
  {
    if a == [] {
      assert a + b == b;
    } else {
      assert (a + b)[1..] == a[1..] + b;
      SelectAppend(a[1..], b, test, keep);
    }
  }

  /** Every name lands in exactly one of the two selections, duplicates included. */
  lemma {:induction false} SelectPartition(names: seq<string>, test: string -> bool)
    ensures multiset(Select(names, test, false)) + multiset(Select(names, test, true)) == multiset(names)
  {
    if names != [] {
      var x, rest := names[0], names[1..];
      SelectPartition(rest, test);
      assert names == [x] + rest;
      assert Select(names, test, false) == (if test(x) == false then [x] else []) + Select(rest, test, false);
      assert Select(names, test, true) == (if test(x) == true then [x] else []) + Select(rest, test, true);
      assert multiset(names) == multiset{x} + multiset(rest);
    }
  }

  function EsmTest(s: Scan): string -> bool
  {
    n => IsEsm(s, n)
  }

  /** `ESM_deps`: the ES-module dependencies, in manifest order. */
  function EsmDeps(s: Scan, names: seq<string>): (r: seq<string>)
    ensures forall n :: n in r <==> n in names && IsEsm(s, n)
  {
    Select(names, EsmTest(s), true)
  }

  /** The CommonJS dependencies, in manifest order. */
  function CjsDeps(s: Scan, names: seq<string>): (r: seq<string>)
    ensures forall n :: n in r <==> n in names && !IsEsm(s, n)
  {
    Select(names, EsmTest(s), false)
  }

  /** Every dependency lands in exactly one of the two lists, duplicates included. */
  lemma PartitionCounts(s: Scan, names: seq<string>)
    ensures multiset(CjsDeps(s, names)) + multiset(EsmDeps(s, names)) == multiset(names)
  {
    SelectPartition(names, EsmTest(s));
  }

  /** One more name goes to exactly one of the two lists. */
  lemma DepsStep(s: Scan, names: seq<string>, name: string)
    ensures CjsDeps(s, names + [name]) == CjsDeps(s, names) + (if IsEsm(s, name) then [] else [name])
    ensures EsmDeps(s, names + [name]) == EsmDeps(s, names) + (if IsEsm(s, name) then [name] else [])
  {
    SelectAppend(names, [name], EsmTest(s), true);
    SelectAppend(names, [name], EsmTest(s), false);
    SelectOne(name, EsmTest(s), true);
    SelectOne(name, EsmTest(s), false);
  }

  lemma SelectOne(name: string, test: string -> bool, keep: bool)
    ensures Select([name], test, keep) == if test(name) == keep then [name] else []
  {
    assert [name][1..] == [];
  }

  /** The loop of `resolveModules` over the manifest's dependency keys. */
  method SortDependencies(fs: Disk, s: Scan, keys: seq<string>) returns (cjs: seq<string>, esm: seq<string>)
    requires s.present == fs.Paths()
    ensures cjs == CjsDeps(s, keys) && esm == EsmDeps(s, keys)
  {
    cjs, esm := [], [];
    var i := 0;
    while i < |keys|
      invariant 0 <= i <= |keys|
      invariant cjs == CjsDeps(s, keys[..i]) && esm == EsmDeps(s, keys[..i])
    {
      var name := keys[i];
      var found := LookupFile(fs, "package.json", PackageDirs(s, name));
      assert keys[..i + 1] == keys[..i] + [name];
      DepsStep(s, keys[..i], name);
      if found.Some? && s.typeOf(found.value) == Has("module") {
        esm := esm + [name];
      } else {
        cjs := cjs + [name];
      }
      i := i + 1;
    }
    assert keys[..i] == keys;
  }

  /** `resolveModules`' scan: the CommonJS and the ES-module dependencies of the project manifest, in manifest order. */
  method ScanDependencies(fs: Disk, s: Scan) returns (cjs: seq<string>, esm: seq<string>)
    requires s.present == fs.Paths()
    ensures cjs == CjsDeps(s, ManifestDeps(s)) && esm == EsmDeps(s, ManifestDeps(s))
  {
    var pkgId := LookupFile(fs, "package.json", [s.root, s.cwd]);
    if pkgId.None? {
      return [], [];
    }
    cjs, esm := SortDependencies(fs, s, s.depKeys(pkgId.value));
  }
}
