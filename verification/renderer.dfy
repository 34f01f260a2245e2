/**
 * src/index.ts: the `renderer` plugin. Its `config` hook sets the build defaults and installs one
 * alias whose regular expression catches `electron`, every public built-in module and every key of
 * `options.resolve`, with or without `node:`. The alias's `customResolver` writes an ES-module
 * file for the module into a cache directory once, and remembers the file per module.
 */
module Renderer {
  import opened Js
  import opened FileSystem
  import opened Utils
  import opened ViteConfig
  import opened ConfigMerge
  import opened Snippets

  const CacheDirName := ".vite-electron-renderer"

  /** What a user `options.resolve[id]()` produced. */
  datatype UserResolution =
    | NodePlatform            // `{ platform: 'node' }`
    | Snippet(text: string)   // a string, used as the module text
    | Unusable                // anything else: `fs.writeFileSync` rejects it

  /** The names in the alias regular expression: `electron`, the public built-ins, the resolve keys. */
  function AliasNames(builtinModules: seq<string>, resolveKeys: seq<string>): seq<string>
  {
    ["electron"] + Unprefixed(builtinModules) + resolveKeys
  }

  /** The alias `config` installs: `find` the regular expression, `replacement` `'$1'`, with a custom resolver. */
  function RendererAlias(builtinModules: seq<string>, resolveKeys: seq<string>): Alias
  {
    Alias(NodeOptional(AliasNames(builtinModules, resolveKeys)), "$1", true)
  }

  /**
   * Every entry of `builtins`, with or without `node:`, is caught by the alias, and `'$1'` hands
   * the resolver the bare public name.
   */
  lemma AliasCatchesBuiltins(builtinModules: seq<string>, resolveKeys: seq<string>, s: string)
    requires forall m :: m in builtinModules ==> !StartsWith(m, "node:")
    requires s in Builtins(builtinModules)
    ensures AliasMatches(RendererAlias(builtinModules, resolveKeys).find, s)
    ensures CaptureName(AliasNames(builtinModules, resolveKeys), s).value in Unprefixed(builtinModules)
  {
    var names := AliasNames(builtinModules, resolveKeys);
    BuiltinsMembership(builtinModules, s);
    if StartsWith(s, "node:") && IsPublicBuiltin(builtinModules, s[5..]) {
      assert s[5..] in names;
    } else {
      assert IsPublicBuiltin(builtinModules, s);
      assert s in names;
    }
  }

  /** `path.join(find_node_modules(root)?.[0] ?? cwd, '.vite-electron-renderer')`. */
  function CacheDir(nodeModulesDirs: seq<string>, cwd: string): (r: string)
    ensures |nodeModulesDirs| > 0 ==> r == nodeModulesDirs[0] + "/" + CacheDirName
    ensures |nodeModulesDirs| == 0 ==> r == cwd + "/" + CacheDirName
  {
    PathJoin(if |nodeModulesDirs| > 0 then nodeModulesDirs[0] else cwd, CacheDirName)
  }

  /** `path.join(cacheDir, source) + '.mjs'`. */
  function ArtifactPath(cacheDir: string, source: string): (r: string)
    ensures |r| > 4 && r[|r| - 4..] == ".mjs" && StartsWith(r, cacheDir + "/")
  {
    var r := PathJoin(cacheDir, source) + ".mjs";
    assert r == (cacheDir + "/") + (source + ".mjs");
    r
  }

  /**
   * `config.build` after the hook: `freeze` defaulted on every output, `ignore` covering
   * `electronBuiltins`. Unlike the `build-config` plugin, this hook sets no `cssCodeSplit` or
   * `assetsDir` default.
   */
  function RendererBuild(build: Slot<BuildOptions>, builtinModules: seq<string>): (r: BuildOptions)
    ensures r.cssCodeSplit == OrDefault(build, EmptyBuild).value.cssCodeSplit
    ensures r.assetsDir == OrDefault(build, EmptyBuild).value.assetsDir
    ensures r.rollupOptions.Has? && r.rollupOptions.value.output.Has? && r.commonjsOptions.Has?
  {
    FreezeAndIgnore(OrDefault(build, EmptyBuild).value, ElectronBuiltins(builtinModules))
  }

  /**
   * After the hook every output object has a `freeze` (a user's is kept), the user's `external`
   * is kept, and `electron` and every built-in are ignored by the CommonJS plugin, whatever form
   * `ignore` had.
   */
  lemma RendererBuildEffects(build: Slot<BuildOptions>, builtinModules: seq<string>, id: string)
    ensures var r := RendererBuild(build, builtinModules);
      var before := RollupOf(OrDefault(build, EmptyBuild).value); var output := r.rollupOptions.value.output.value;
      r.rollupOptions.value.external == before.external
      && (output.Single? ==> output.options.freeze.Has?)
      && (output.Many? ==> forall k :: 0 <= k < |output.list| ==> output.list[k].freeze.Has?)
      && (before.output.Has? && before.output.value.Single? && before.output.value.options.freeze.Has? ==>
            output.options.freeze == before.output.value.options.freeze)
      && (id in ElectronBuiltins(builtinModules) ==>
        match r.commonjsOptions.value.ignore
        case IgnoreList(ids) => id in ids
        case IgnoreFn(test) => test(id) == ReturnsTrue
        case NoIgnore => false)
  {
    FreezeAndIgnoreEffects(OrDefault(build, EmptyBuild).value, ElectronBuiltins(builtinModules), id);
  }

  /** The plugin's closure and the oracles it consults. */
  class RendererPlugin {
    const builtinModules: seq<string>
    /** `Object.keys(options.resolve ?? {})`. */
    const resolveKeys: seq<string>
    /** `options.resolve[id]()`, awaited. */
    const userResolve: string -> UserResolution
    /** The fixed `electron` module text. */
    const electronTemplate: string
    /** `Object.getOwnPropertyNames(require(id))`. */
    const ownNames: string -> seq<string>
    const libEsm: LibEsm

    var cacheDir: string
    /** Source name to the artifact file it was resolved to. */
    var moduleCache: map<string, string>
    /** The sources `options.resolve` was consulted for, in call order. */
    ghost var resolveLog: seq<string>

    /** Every remembered artifact path is non-empty, so a lookup hit is never mistaken for a miss. */
    predicate Valid()
      reads this
    {
      forall s :: s in moduleCache ==> moduleCache[s] != ""
    }

    constructor (builtinModules: seq<string>, resolveKeys: seq<string>, userResolve: string -> UserResolution,
                 electronTemplate: string, ownNames: string -> seq<string>, libEsm: LibEsm)
      ensures this.builtinModules == builtinModules && this.resolveKeys == resolveKeys
      ensures this.userResolve == userResolve && this.electronTemplate == electronTemplate
      ensures this.ownNames == ownNames && this.libEsm == libEsm
      ensures moduleCache == map[] && resolveLog == [] && Valid()
    {
      this.builtinModules, this.resolveKeys, this.userResolve := builtinModules, resolveKeys, userResolve;
      this.electronTemplate, this.ownNames, this.libEsm := electronTemplate, ownNames, libEsm;
      cacheDir := "";
      moduleCache := map[];
      resolveLog := [];
    }

    /** The module text written for `source`, or `None` when the user's resolver gives something unusable. */
    function ArtifactText(source: string): (r: Option<string>)
      reads this
      ensures source == "electron" ==> r == Some(electronTemplate)
      ensures source != "electron" && source in Unprefixed(builtinModules) ==>
        r == Some(GetSnippets(source, ownNames, libEsm))
      ensures r.None? <==> source != "electron" && source !in Unprefixed(builtinModules) && userResolve(source).Unusable?
    {
      if source == "electron" then Some(electronTemplate)
      else if source in Unprefixed(builtinModules) then Some(GetSnippets(source, ownNames, libEsm))
      else match userResolve(source)
        case NodePlatform => Some(GetSnippets(source, ownNames, libEsm))
        case Snippet(text) => Some(text)
        case Unusable => None
    }

    /** Whether resolving `source` consults `options.resolve`. */
    predicate AsksUser(source: string)
      reads this
    {
      source != "electron" && source !in Unprefixed(builtinModules)
    }

    /** The `config` hook. */
    method Config(config: UserConfig, findNodeModules: string -> seq<string>, cwd: string)
      modifies this`cacheDir, config`base, config`build, config`resolve
      ensures cacheDir == CacheDir(findNodeModules(OrDefault(old(config.root), cwd).value), cwd)
      ensures config.base == OrDefault(old(config.base), "./")
      ensures config.build == Has(RendererBuild(old(config.build), builtinModules))
      ensures config.resolve == Has(ResolveWithAliases(old(config.resolve), [RendererAlias(builtinModules, resolveKeys)]))
    {
      var root := OrDefault(config.root, cwd).value;
      var dirs := findNodeModules(root);
      cacheDir := PathJoin(if |dirs| > 0 then dirs[0] else cwd, CacheDirName);
      config.base := OrDefault(config.base, "./");
      var build := OrDefault(config.build, EmptyBuild).value;
      var ro := OrDefault(build.rollupOptions, EmptyRollup).value;
      ro := SetOutputFreeze(ro);
      build := WithIgnore(build.(rollupOptions := Has(ro)), ElectronBuiltins(builtinModules));
      config.build := Has(build);
      ModifyAlias(config, [RendererAlias(builtinModules, resolveKeys)]);
    }

    /**
     * `customResolver(source)`: `Some(id)` is the `{ id }` it resolves to, `None` a rejected
     * promise. A remembered source is answered from `moduleCache` without touching the disk or
     * the user's resolver; otherwise the artifact is written only when nothing exists at its path.
     */
    method CustomResolver(fs: Disk, source: string) returns (r: Option<string>)
      requires Valid()
      modifies this`moduleCache, this`resolveLog, fs
      ensures Valid()
      ensures source in old(moduleCache) ==>
        r == Some(old(moduleCache)[source]) && moduleCache == old(moduleCache) && resolveLog == old(resolveLog)
        && fs.files == old(fs.files) && fs.dirs == old(fs.dirs)
      ensures source !in old(moduleCache) && old(fs.Exists(ArtifactPath(cacheDir, source))) ==>
        r == Some(ArtifactPath(cacheDir, source))
        && moduleCache == old(moduleCache)[source := ArtifactPath(cacheDir, source)]
        && resolveLog == old(resolveLog) && fs.files == old(fs.files) && fs.dirs == old(fs.dirs)
      ensures source !in old(moduleCache) && !old(fs.Exists(ArtifactPath(cacheDir, source))) ==>
        resolveLog == old(resolveLog) + (if AsksUser(source) then [source] else [])
        && (old(fs.Exists(Dirname(ArtifactPath(cacheDir, source)))) ==> fs.dirs == old(fs.dirs))
        && (!old(fs.Exists(Dirname(ArtifactPath(cacheDir, source)))) ==>
              fs.dirs == old(fs.dirs) + DirChain(Dirname(ArtifactPath(cacheDir, source))))
      ensures (source !in old(moduleCache) && !old(fs.Exists(ArtifactPath(cacheDir, source)))
               && ArtifactText(source).Some?) ==>
        r == Some(ArtifactPath(cacheDir, source))
        && moduleCache == old(moduleCache)[source := ArtifactPath(cacheDir, source)]
        && fs.files == old(fs.files)[ArtifactPath(cacheDir, source) := ArtifactText(source).value]
      ensures (source !in old(moduleCache) && !old(fs.Exists(ArtifactPath(cacheDir, source)))
               && ArtifactText(source).None?) ==>
        r.None? && moduleCache == old(moduleCache) && fs.files == old(fs.files)
    {
      if source in moduleCache && moduleCache[source] != "" {
        return Some(moduleCache[source]);
      }
      var id := PathJoin(cacheDir, source) + ".mjs";
      if !fs.Exists(id) {
        var snippets: Option<string>;
        if source == "electron" {
          snippets := Some(electronTemplate);
        } else if source in Unprefixed(builtinModules) {
          snippets := Some(GetSnippets(source, ownNames, libEsm));
        } else {
          resolveLog := resolveLog + [source];
          var result := userResolve(source);
          if result.NodePlatform? {
            snippets := Some(GetSnippets(source, ownNames, libEsm));
          } else if result.Snippet? {
            snippets := Some(result.text);
          } else {
            snippets := None;
          }
        }
        EnsureDir(fs, Dirname(id));
        if snippets.None? {
          return None;
        }
        fs.WriteFile(id, snippets.value);
      }
      moduleCache := moduleCache[source := id];
      return Some(id);
    }
  }
}
