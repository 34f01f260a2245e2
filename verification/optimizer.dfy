/**
 * src/optimizer.ts: the pre-bundling plugin. Its esbuild plugin claims bare imports for one of
 * two namespaces: CommonJS modules are loaded through a `require` wrapper, ES modules are bundled
 * into the cache directory. Its `config` hook wipes Vite's dependency cache whenever the
 * `nodeIntegration` flag differs from the one recorded on the previous run.
 */
module Optimizer {
  import opened Js
  import opened FileSystem
  import opened Utils
  import opened ViteConfig
  import opened Snippets

  const PreBundleCjs := "pre-bundle-cjs"
  const PreBundleEsm := "pre-bundle-esm"
  const CacheDirName := ".vite-electron-renderer"
  const EsbuildPluginName := "vite-plugin-target:optimizer:esbuild"

  // ---------------------------------------------------------------- onResolve

  /** `\w` of a regular expression. */
  predicate IsWordChar(c: char)
  {
    ('a' <= c <= 'z') || ('A' <= c <= 'Z') || ('0' <= c <= '9') || c == '_'
  }

  /**
   * The `onResolve` filter `/^[\w@]/`: what esbuild hands the callback at all. Relative,
   * absolute and virtual (`\0`) ids never pass it.
   */
  function IsBareImport(id: string): (r: bool)
    ensures r ==> id != [] && id[0] != '.' && id[0] != '/' && id[0] != '\0'
  {
    |id| > 0 && (IsWordChar(id[0]) || id[0] == '@')
  }

  /** `path.basename(p)` of a normalised path. */
  function Basename(p: string): (r: string)
    ensures |r| <= |p| && r == p[|p| - |r|..]
    ensures forall k :: 0 <= k < |r| ==> r[k] != '/'
  {
    match LastSlash(p)
    case None => p
    case Some(i) => p[i + 1..]
  }

  /**
   * `path.extname(filename) === '.mjs'`: the base name ends in `.mjs` with something before the
   * dot (a leading dot starts a hidden name, not an extension).
   */
  function HasMjsExtension(filename: string): (r: bool)
    ensures r ==> |filename| > 4 && filename[|filename| - 4..] == ".mjs" && filename[|filename| - 5] != '/'
  {
    var b := Basename(filename);
    if |b| > 4 && b[|b| - 4..] == ".mjs" then
      assert filename[|filename| - 4..] == b[|b| - 4..];
      assert filename[|filename| - 5] == b[|b| - 5];
      true
    else false
  }

  /** A value of the user's `modules` map: `'commonjs'`, `'module'` or `false`. */
  datatype UserType = CommonJs | EsModule | ViteDefault

  /** The `{ path, namespace }` an `onResolve` callback returns. */
  datatype Claim = Claim(path: string, namespace: string)

  /**
   * The questions the callback asks the disk and Node: `fs.existsSync(p)`, the `type` field of the
   * manifest at `p`, and `cjs_require.resolve(p)` (`None` when it throws).
   */
  datatype Probes = Probes(
    present: string -> bool,
    packageType: string -> Slot<string>,
    resolveFile: string -> Option<string>)

  function ModulePath(nodeModulesPath: string, id: string): string
  {
    PathJoin(nodeModulesPath, id)
  }

  function PackageJsonPath(nodeModulesPath: string, id: string): string
  {
    PathJoin(ModulePath(nodeModulesPath, id), "package.json")
  }

  /** The namespace the callback picks once the user's `modules` map has no say. */
  function DetectNamespace(nodeModulesPath: string, id: string, probes: Probes): (ns: string)
    ensures ns == PreBundleCjs || ns == PreBundleEsm
    ensures probes.present(PackageJsonPath(nodeModulesPath, id)) ==>
      (ns == PreBundleCjs <==> probes.packageType(PackageJsonPath(nodeModulesPath, id)) != Has("module"))
    ensures !probes.present(PackageJsonPath(nodeModulesPath, id)) ==>
      (ns == PreBundleCjs <==>
        probes.resolveFile(ModulePath(nodeModulesPath, id)).Some?
        && !HasMjsExtension(probes.resolveFile(ModulePath(nodeModulesPath, id)).value))
  {
    var packageJson := PackageJsonPath(nodeModulesPath, id);
    var isCjsModule :=
      if probes.present(packageJson) then probes.packageType(packageJson) != Has("module")
      else match probes.resolveFile(ModulePath(nodeModulesPath, id))
        case None => false
        case Some(filename) => !HasMjsExtension(filename);
    if isCjsModule then PreBundleCjs else PreBundleEsm
  }

  /**
   * The `onResolve` callback; `None` leaves the import to Vite's own pre-bundling. Built-in
   * names are never claimed, the user's `modules` entry is consulted next, and only then the
   * disk; a claimed import keeps its specifier as the path.
   */
  function OnResolve(id: string, electronBuiltins: seq<string>, modules: map<string, UserType>,
                     nodeModulesPath: string, probes: Probes): (r: Option<Claim>)
    ensures r.Some? ==> r.value.path == id && IsBareImport(id) && id !in electronBuiltins
    ensures r.Some? ==> r.value.namespace == PreBundleCjs || r.value.namespace == PreBundleEsm
    ensures id in electronBuiltins ==> r.None?
    ensures IsBareImport(id) && id !in electronBuiltins && id in modules ==>
      (r.None? <==> modules[id] == ViteDefault)
      && (modules[id] == CommonJs ==> r == Some(Claim(id, PreBundleCjs)))
      && (modules[id] == EsModule ==> r == Some(Claim(id, PreBundleEsm)))
    ensures IsBareImport(id) && id !in electronBuiltins && id !in modules ==>
      r == Some(Claim(id, DetectNamespace(nodeModulesPath, id, probes)))
  {
    if !IsBareImport(id) || id in electronBuiltins then None
    else if id in modules then
      match modules[id]
      case ViteDefault => None
      case CommonJs => Some(Claim(id, PreBundleCjs))
      case EsModule => Some(Claim(id, PreBundleEsm))
    else Some(Claim(id, DetectNamespace(nodeModulesPath, id, probes)))
  }

  /** The user's `modules` entry is read before the disk: with one, no probe can change the answer. */
  lemma OverrideBeforeProbing(id: string, electronBuiltins: seq<string>, modules: map<string, UserType>,
                              nodeModulesPath: string, probes: Probes, other: Probes)
    requires id in modules
    ensures OnResolve(id, electronBuiltins, modules, nodeModulesPath, probes)
         == OnResolve(id, electronBuiltins, modules, nodeModulesPath, other)
  {
  }

  /** A built-in name is left to Vite whatever the user's `modules` map says about it. */
  lemma BuiltinsNeverClaimed(builtinModules: seq<string>, id: string, modules: map<string, UserType>,
                             nodeModulesPath: string, probes: Probes)
    requires id in Builtins(builtinModules) || id == "electron"
    ensures OnResolve(id, ElectronBuiltins(builtinModules), modules, nodeModulesPath, probes).None?
  {
    assert ElectronBuiltins(builtinModules)[0] == "electron";
    if id != "electron" {
      var i :| 0 <= i < |Builtins(builtinModules)| && Builtins(builtinModules)[i] == id;
      assert ElectronBuiltins(builtinModules)[i + 1] == id;
    }
  }

  /** A manifest on disk decides alone: how the directory itself resolves is never asked. */
  lemma ManifestDecides(nodeModulesPath: string, id: string, probes: Probes, resolveFile: string -> Option<string>)
    requires probes.present(PackageJsonPath(nodeModulesPath, id))
    ensures DetectNamespace(nodeModulesPath, id, probes)
         == DetectNamespace(nodeModulesPath, id, probes.(resolveFile := resolveFile))
  {
  }

  // ---------------------------------------------------------------- onLoad, CommonJS

  // Each comment line of the template is one line of text in the source; the pieces below are
  // concatenated only so that the verifier can see, piece by piece, that no line feed occurs.
  const UseComment := "// Use \"__cjs_require\" " + "avoid esbuild " + "parse \"require\""
  const AliasLine := "const __cjs_require = require;"
  const PerformanceComment := "// If a module is a CommonJs, " + "use the \"require\" loading " + "it can bring better performance."
  const NativeComment := "// Especially it is " + "a C/C++ module, this can " + "avoid a lot of trouble."

  function CjsRequireLine(id: string): string
  {
    "const _M_ = __cjs_require(\"" + id + "\");"
  }

  /** The lines of the template before lib-esm's text. */
  function CjsPreludeLines(id: string): seq<string>
  {
    [UseComment, AliasLine, "", PerformanceComment, NativeComment, CjsRequireLine(id)]
  }

  /**
   * The `contents` the CommonJS `onLoad` callback returns for `id`, given lib-esm's export text:
   * the template, which opens with a line feed and closes with a line feed and two spaces, trimmed.
   */
  function CjsContents(id: string, exports: string): string
  {
    Trim("\n" + Join(CjsPreludeLines(id), "\n") + "\n" + exports + "\n  ")
  }

  /**
   * The CommonJS `onLoad` callback: lib-esm is asked for the exports of every own property name
   * of the required module. Read line by line, the contents define `__cjs_require`, require the
   * module through it, and then carry lib-esm's lines.
   */
  function OnLoadCjs(id: string, ownNames: string -> seq<string>, libEsm: LibEsm): (r: string)
    ensures NoNewline(id) && TrimEnd(libEsm(ownNames(id), None)) != [] ==>
      Lines(r) == CjsPreludeLines(id) + Lines(TrimEnd(libEsm(ownNames(id), None)))
  {
    var exports := libEsm(ownNames(id), None);
    if NoNewline(id) && TrimEnd(exports) != [] then
      CjsContentsLines(id, exports);
      CjsContents(id, exports)
    else CjsContents(id, exports)
  }

  /** Lines with no line feed, a line feed, then more text: the lines come first. */
  lemma {:induction false} LinesPrefix(parts: seq<string>, rest: string)
    requires |parts| >= 1
    requires forall i :: 0 <= i < |parts| ==> NoNewline(parts[i])
    ensures Lines(Join(parts, "\n") + "\n" + rest) == parts + Lines(rest)
  {
    if |parts| == 1 {
      LinesCons(parts[0], rest);
    } else {
      var tail := Join(parts[1..], "\n");
      calc {
        Lines(Join(parts, "\n") + "\n" + rest);
        { assert Join(parts, "\n") == parts[0] + "\n" + tail;
          RegroupLines(parts[0], tail, rest); }
        Lines(parts[0] + "\n" + (tail + "\n" + rest));
        { LinesCons(parts[0], tail + "\n" + rest); }
        [parts[0]] + Lines(tail + "\n" + rest);
        { LinesPrefix(parts[1..], rest); }
        [parts[0]] + (parts[1..] + Lines(rest));
        { assert parts == [parts[0]] + parts[1..]; }
        parts + Lines(rest);
      }
    }
  }

  lemma RegroupLines(a: string, b: string, c: string)
    ensures (a + "\n" + b) + "\n" + c == a + "\n" + (b + "\n" + c)
  {
  }

  lemma NoNewlineConcat3(a: string, b: string, c: string)
    requires NoNewline(a) && NoNewline(b) && NoNewline(c)
    ensures NoNewline(a + b + c)
  {
  }

  lemma CjsPreludeOneLine(id: string)
    requires NoNewline(id)
    ensures forall i :: 0 <= i < |CjsPreludeLines(id)| ==> NoNewline(CjsPreludeLines(id)[i])
  {
    NoNewlineConcat3("// Use \"__cjs_require\" ", "avoid esbuild ", "parse \"require\"");
    assert NoNewline(AliasLine);
    NoNewlineConcat3("// If a module is a CommonJs, ", "use the \"require\" loading ", "it can bring better performance.");
    NoNewlineConcat3("// Especially it is ", "a C/C++ module, this can ", "avoid a lot of trouble.");
    NoNewlineConcat3("const _M_ = __cjs_require(\"", id, "\");");
  }

  /**
   * Read line by line, the CommonJS contents define `__cjs_require`, require the module through
   * it, and then carry lib-esm's export text with only its trailing whitespace trimmed.
   */
  lemma CjsContentsLines(id: string, exports: string)
    requires NoNewline(id)
    requires TrimEnd(exports) != []
    ensures Lines(CjsContents(id, exports)) == CjsPreludeLines(id) + Lines(TrimEnd(exports))
  {
    CjsContentsLayout(id, exports);
    CjsPreludeOneLine(id);
    LinesPrefix(CjsPreludeLines(id), TrimEnd(exports));
  }

  /** Trimming takes off the template's opening line feed and the closing whitespace. */
  lemma CjsContentsLayout(id: string, exports: string)
    requires TrimEnd(exports) != []
    ensures CjsContents(id, exports) == Join(CjsPreludeLines(id), "\n") + "\n" + TrimEnd(exports)
  {
    CjsPreludeStart(id);
    TrimCjsFrame(Join(CjsPreludeLines(id), "\n"), exports);
  }

  lemma CjsPreludeStart(id: string)
    ensures var p := Join(CjsPreludeLines(id), "\n"); p != [] && p[0] == '/'
  {
    var lines := CjsPreludeLines(id);
    JoinHead(lines, "\n");
    assert lines[0][0] == '/';
  }

  /** The CommonJS template's frame: a line feed before, a line feed and two spaces after. */
  lemma TrimCjsFrame(prelude: string, exports: string)
    requires prelude != [] && !IsWhitespace(prelude[0])
    requires TrimEnd(exports) != []
    ensures Trim("\n" + prelude + "\n" + exports + "\n  ") == prelude + "\n" + TrimEnd(exports)
  {
    TrimTemplate("\n", prelude, exports, "\n  ");
  }

  // ---------------------------------------------------------------- onLoad, ES modules

  /** A value in esbuild's build options. */
  datatype BuildValue = Text(s: string) | Flag(b: bool) | Names(list: seq<string>) | OtherValue(json: string)

  /** `path.join(cache_dir, id, 'index.js')`: where an ES module is bundled to. */
  function EsmOutfile(cacheDir: string, id: string): string
  {
    PathJoin(PathJoin(cacheDir, id), "index.js")
  }

  /** The options the ES `onLoad` callback passes to esbuild before the user's are spread over them. */
  function EsmDefaults(id: string, outfile: string, electronBuiltins: seq<string>): (r: map<string, BuildValue>)
    ensures "outfile" in r && r["outfile"] == Text(outfile)
    ensures "external" in r && r["external"] == Names(electronBuiltins)
    ensures "entryPoints" in r && r["entryPoints"] == Names([id])
    ensures "format" in r && r["format"] == Text("esm")
  {
    map["entryPoints" := Names([id]), "outfile" := Text(outfile), "format" := Text("esm"),
        "target" := Text("node14"), "bundle" := Flag(true), "metafile" := Flag(true),
        "external" := Names(electronBuiltins)]
  }

  /** `{ entryPoints, outfile, format, target, bundle, metafile, external, ...buildOptions }`. */
  function EsmBuildOptions(id: string, outfile: string, electronBuiltins: seq<string>, user: map<string, BuildValue>)
    : (r: map<string, BuildValue>)
    ensures forall k :: k in r <==> k in user || k in EsmDefaults(id, outfile, electronBuiltins)
    ensures forall k :: k in user ==> r[k] == user[k]
    ensures "outfile" !in user ==> "outfile" in r && r["outfile"] == Text(outfile)
    ensures "external" !in user ==> "external" in r && r["external"] == Names(electronBuiltins)
    ensures "entryPoints" !in user ==> "entryPoints" in r && r["entryPoints"] == Names([id])
    ensures "format" !in user ==> "format" in r && r["format"] == Text("esm")
  {
    EsmDefaults(id, outfile, electronBuiltins) + user
  }

  /** `path.dirname(path.join(a, b))` is `a` when `b` is a single segment. */
  lemma DirnameOfJoin(a: string, b: string)
    requires |a| > 0 && forall k :: 0 <= k < |b| ==> b[k] != '/'
    ensures Dirname(PathJoin(a, b)) == a
  {
    var p := PathJoin(a, b);
    var i := LastSlash(p);
    assert p[|a|] == '/';
    if i.None? || i.value < |a| {
      assert false;
    }
    if i.value > |a| {
      assert false;
    }
    assert p[..|a|] == a;
  }

  lemma EsmOutfileDir(cacheDir: string, id: string)
    requires |cacheDir| > 0
    ensures Dirname(EsmOutfile(cacheDir, id)) == PathJoin(cacheDir, id)
  {
    DirnameOfJoin(PathJoin(cacheDir, id), "index.js");
  }

  // ---------------------------------------------------------------- config

  /** The text of `_metadata.json`: `JSON.stringify(metadata, null, 2)`. */
  const MetadataNote := "Record the last nodeIntegration value compared to the new value and decide whether to clear the `.vite` directory cache."

  function MetadataText(nodeIntegration: bool, timestamp: nat): string
  {
    "{\n  \"// nodeIntegration\": \"" + MetadataNote + "\",\n  \"nodeIntegration\": "
    + (if nodeIntegration then "true" else "false") + ",\n  \"timestamp\": " + NatToString(timestamp) + "\n}"
  }

  function MetafilePath(cacheDir: string): string
  {
    PathJoin(cacheDir, "_metadata.json")
  }

  /** `node_modules/.vite`: Vite's own dependency cache. */
  function ViteCacheDir(nodeModulesPath: string): string
  {
    PathJoin(nodeModulesPath, ".vite")
  }

  /**
   * The `nodeIntegration` recorded on disk: `None` when there is no metafile, when it cannot be
   * read or parsed, or when its value is not a boolean. `readFlag` is `JSON.parse` followed by the
   * lookup.
   */
  function StoredFlag(files: map<string, string>, metafile: string, readFlag: string -> Option<bool>): Option<bool>
  {
    if metafile in files then readFlag(files[metafile]) else None
  }

  /** The metafile lives in the plugin's own cache directory, outside Vite's. */
  lemma MetafileOutsideViteCache(nodeModulesPath: string)
    ensures !Under(MetafilePath(PathJoin(nodeModulesPath, CacheDirName)), ViteCacheDir(nodeModulesPath))
  {
    var m := MetafilePath(PathJoin(nodeModulesPath, CacheDirName));
    var v := ViteCacheDir(nodeModulesPath) + "/";
    var n := |nodeModulesPath|;
    assert m[n + 6] == CacheDirName[5] == '-';
    assert |v| == n + 7 && v[n + 6] == '/';
  }

  /** The files after a flag change: Vite's cache gone, the new metadata written. */
  function InvalidatedFiles(files: map<string, string>, nodeModulesPath: string, nodeIntegration: bool, timestamp: nat)
    : (r: map<string, string>)
    ensures MetafilePath(PathJoin(nodeModulesPath, CacheDirName)) in r
    ensures r[MetafilePath(PathJoin(nodeModulesPath, CacheDirName))] == MetadataText(nodeIntegration, timestamp)
    ensures forall p :: p in r ==> !Under(p, ViteCacheDir(nodeModulesPath))
    ensures forall p :: p in files && !Under(p, ViteCacheDir(nodeModulesPath)) ==> p in r
    ensures forall p :: p in r && p != MetafilePath(PathJoin(nodeModulesPath, CacheDirName)) ==> p in files && r[p] == files[p]
  {
    MetafileOutsideViteCache(nodeModulesPath);
    RemoveFilesUnder(files, ViteCacheDir(nodeModulesPath))
      [MetafilePath(PathJoin(nodeModulesPath, CacheDirName)) := MetadataText(nodeIntegration, timestamp)]
  }

  /** The directories after a flag change: Vite's cache gone, the plugin's cache directory present. */
  function InvalidatedDirs(files: map<string, string>, dirs: set<string>, nodeModulesPath: string): set<string>
  {
    var cacheDir := PathJoin(nodeModulesPath, CacheDirName);
    var kept := RemoveDirsUnder(dirs, ViteCacheDir(nodeModulesPath));
    if cacheDir in RemoveFilesUnder(files, ViteCacheDir(nodeModulesPath)) || cacheDir in kept then kept
    else kept + DirChain(cacheDir)
  }

  /**
   * Once the metadata is written, the next start with the same flag reads it back and leaves the
   * disk alone, provided `JSON.parse` reads back what `JSON.stringify` wrote.
   */
  lemma RerunIsNoOp(files: map<string, string>, nodeModulesPath: string, nodeIntegration: bool, timestamp: nat,
                    readFlag: string -> Option<bool>)
    requires readFlag(MetadataText(nodeIntegration, timestamp)) == Some(nodeIntegration)
    ensures StoredFlag(InvalidatedFiles(files, nodeModulesPath, nodeIntegration, timestamp),
                       MetafilePath(PathJoin(nodeModulesPath, CacheDirName)), readFlag) == Some(nodeIntegration)
  {
  }

  /** `config.optimizeDeps` after the hook pushed the esbuild plugin. */
  function WithEsbuildPlugin(optimizeDeps: Slot<OptimizeDeps>): (r: OptimizeDeps)
    ensures r.esbuildOptions.Has? && r.esbuildOptions.value.plugins.Has?
    ensures var plugins := r.esbuildOptions.value.plugins.value;
      |plugins| >= 1 && plugins[|plugins| - 1] == EsbuildPluginName
    ensures optimizeDeps.Has? && optimizeDeps.value.esbuildOptions.Has? && optimizeDeps.value.esbuildOptions.value.plugins.Has? ==>
      r.esbuildOptions.value.plugins.value == optimizeDeps.value.esbuildOptions.value.plugins.value + [EsbuildPluginName]
    ensures (optimizeDeps.Nullish() || optimizeDeps.value.esbuildOptions.Nullish()
             || optimizeDeps.value.esbuildOptions.value.plugins.Nullish()) ==>
      r.esbuildOptions.value.plugins.value == [EsbuildPluginName]
  {
    var od := OrDefault(optimizeDeps, EmptyOptimizeDeps).value;
    var eo := OrDefault(od.esbuildOptions, EsbuildOptions(Undefined)).value;
    var plugins := OrDefault(eo.plugins, []).value;
    od.(esbuildOptions := Has(eo.(plugins := Has(plugins + [EsbuildPluginName]))))
  }

  /** The module-level state of src/optimizer.ts and the plugin's options. */
  /**
   * The module-level `let node_modules_path` and `let cache_dir` of src/optimizer.ts: one pair for
   * the whole module, shared by every plugin the `optimizer` factory returns and by their esbuild
   * plugins, and `undefined` until a `config` hook assigns them.
   */
  class OptimizerState {
    var nodeModulesPath: Slot<string>
    var cacheDir: Slot<string>

    constructor ()
      ensures nodeModulesPath == Undefined && cacheDir == Undefined
    {
      nodeModulesPath, cacheDir := Undefined, Undefined;
    }
  }

  /** One plugin returned by `optimizer(options, nodeIntegration)`, over the module's shared state. */
  class PreBundle {
    const nodeIntegration: bool
    const readFlag: string -> Option<bool>
    const shared: OptimizerState

    constructor (nodeIntegration: bool, readFlag: string -> Option<bool>, shared: OptimizerState)
      ensures this.nodeIntegration == nodeIntegration && this.readFlag == readFlag && this.shared == shared
    {
      this.nodeIntegration, this.readFlag, this.shared := nodeIntegration, readFlag, shared;
    }

    /**
     * The `config` hook. `ok` is false when no `node_modules` directory is found: the hook has
     * then set `node_modules_path` to `undefined`, and `path.join` throws before anything else is
     * changed. Otherwise the esbuild plugin is registered and, when the recorded flag differs
     * from the current one, Vite's cache is removed and the metadata rewritten with the clock
     * reading `now`.
     */
    method Config(config: UserConfig, findNodeModules: string -> seq<string>, cwd: string, fs: Disk, now: nat)
      returns (ok: bool)
      modifies shared`nodeModulesPath, shared`cacheDir, config`optimizeDeps, fs
      ensures ok <==> |findNodeModules(RootDir(config.root, cwd))| > 0
      ensures !ok ==>
        shared.nodeModulesPath == Undefined && shared.cacheDir == old(shared.cacheDir)
        && config.optimizeDeps == old(config.optimizeDeps) && fs.files == old(fs.files) && fs.dirs == old(fs.dirs)
      ensures ok ==> var nm := findNodeModules(RootDir(config.root, cwd))[0];
        shared.nodeModulesPath == Has(nm)
        && shared.cacheDir == Has(PathJoin(nm, CacheDirName))
        && config.optimizeDeps == Has(WithEsbuildPlugin(old(config.optimizeDeps)))
      ensures ok ==> var nm := findNodeModules(RootDir(config.root, cwd))[0];
        StoredFlag(old(fs.files), MetafilePath(PathJoin(nm, CacheDirName)), readFlag) == Some(nodeIntegration) ==>
          fs.files == old(fs.files) && fs.dirs == old(fs.dirs)
      ensures ok ==> var nm := findNodeModules(RootDir(config.root, cwd))[0];
        StoredFlag(old(fs.files), MetafilePath(PathJoin(nm, CacheDirName)), readFlag) != Some(nodeIntegration) ==>
          fs.files == InvalidatedFiles(old(fs.files), nm, nodeIntegration, now)
          && fs.dirs == InvalidatedDirs(old(fs.files), old(fs.dirs), nm)
    {
      var found := findNodeModules(RootDir(config.root, cwd));
      if |found| == 0 {
        shared.nodeModulesPath := Undefined;
        return false;
      }
      var nodeModulesPath := found[0];
      var cacheDir := PathJoin(nodeModulesPath, CacheDirName);
      shared.nodeModulesPath := Has(nodeModulesPath);
      shared.cacheDir := Has(cacheDir);

      var od := OrDefault(config.optimizeDeps, EmptyOptimizeDeps).value;
      var eo := OrDefault(od.esbuildOptions, EsbuildOptions(Undefined)).value;
      var plugins := OrDefault(eo.plugins, []).value;
      config.optimizeDeps := Has(od.(esbuildOptions := Has(eo.(plugins := Has(plugins + [EsbuildPluginName])))));

      var metafile := MetafilePath(cacheDir);
      var stored: Option<bool> := None;
      if fs.Exists(metafile) && metafile in fs.files {
        stored := readFlag(fs.files[metafile]);
      }
      if stored != Some(nodeIntegration) {
        fs.RemoveRecursive(ViteCacheDir(nodeModulesPath));
        EnsureDir(fs, cacheDir);
        fs.WriteFile(metafile, MetadataText(nodeIntegration, now));
        MetafileOutsideViteCache(nodeModulesPath);
      }
      return true;
    }

    /**
     * The ES-module `onLoad` callback. `esbuild` is the bundler: given the build options it
     * either fails (`None`) or yields the bundle it writes to the options' `outfile`. The callback
     * answers with the text at its own `outfile` path, `None` when reading that fails. Before a
     * `config` hook has set `cache_dir`, `path.join` throws and nothing happens (`None`).
     */
    method OnLoadEsm(fs: Disk, id: string, electronBuiltins: seq<string>, user: map<string, BuildValue>,
                     esbuild: map<string, BuildValue> -> Option<string>) returns (r: Option<string>)
      modifies fs
      ensures !shared.cacheDir.Has? ==> r.None? && fs.files == old(fs.files) && fs.dirs == old(fs.dirs)
      ensures shared.cacheDir.Has? ==> var outdir := Dirname(EsmOutfile(shared.cacheDir.value, id));
        fs.dirs == old(fs.dirs) + (if old(fs.Exists(outdir)) then {} else DirChain(outdir))
      ensures shared.cacheDir.Has? ==>
        var options := EsmBuildOptions(id, EsmOutfile(shared.cacheDir.value, id), electronBuiltins, user);
        esbuild(options).None? ==> r.None? && fs.files == old(fs.files)
      ensures shared.cacheDir.Has? ==>
        var options := EsmBuildOptions(id, EsmOutfile(shared.cacheDir.value, id), electronBuiltins, user);
        esbuild(options).Some? && options["outfile"].Text? ==>
          fs.files == old(fs.files)[options["outfile"].s := esbuild(options).value]
      ensures shared.cacheDir.Has? ==>
        var options := EsmBuildOptions(id, EsmOutfile(shared.cacheDir.value, id), electronBuiltins, user);
        esbuild(options).Some? && !options["outfile"].Text? ==> fs.files == old(fs.files)
      ensures shared.cacheDir.Has? ==>
        var options := EsmBuildOptions(id, EsmOutfile(shared.cacheDir.value, id), electronBuiltins, user);
        (esbuild(options).Some? && "outfile" !in user) ==> r == Some(esbuild(options).value)
      ensures r.Some? ==>
        shared.cacheDir.Has? && EsmOutfile(shared.cacheDir.value, id) in fs.files
        && r.value == fs.files[EsmOutfile(shared.cacheDir.value, id)]
    {
      if !shared.cacheDir.Has? {
        return None;
      }
      var cacheDir := shared.cacheDir.value;
      var outfile := EsmOutfile(cacheDir, id);
      EnsureDir(fs, Dirname(outfile));
      var options := EsmBuildOptions(id, outfile, electronBuiltins, user);
      var bundle := esbuild(options);
      if bundle.None? {
        return None;
      }
      if options["outfile"].Text? {
        fs.WriteFile(options["outfile"].s, bundle.value);
      }
      if outfile in fs.files {
        r := Some(fs.files[outfile]);
      } else {
        r := None;
      }
    }
  }
}
