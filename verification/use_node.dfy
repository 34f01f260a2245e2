/**
 * plugins/use-node.js/index.js: a single plugin that takes over the built-in modules and the
 * CommonJS dependencies of `package.json`. `configResolved` collects them, `resolveId` claims
 * them (with or without `node:`), `load` serves each as an ES-module snippet that `require`s it,
 * and the build `config` keeps them external with a CommonJS output.
 */
module UseNode {
  import opened Js
  import opened FileSystem
  import opened Utils
  import opened ViteConfig
  import opened ConfigMerge
  import opened Snippets
  import opened PackageDeps

  // ---------------------------------------------------------------- the built-in table as written

  /** An element of the `builtins` array as line 171 fills it: a string or a two-element array. */
  datatype Entry = Name(name: string) | Pair(bare: string, prefixed: string)

  /**
   * `builtins.push(...builtins.map(m => [m, `node:${m}`]))`: the public names, then one
   * `[m, 'node:' + m]` array per name; no `node:` string is pushed on its own.
   */
  function BuiltinsAsWritten(builtinModules: seq<string>): (r: seq<Entry>)
    ensures var names := Unprefixed(builtinModules);
      |r| == 2 * |names|
      && (forall i :: 0 <= i < |names| ==> r[i] == Name(names[i]))
      && (forall i :: 0 <= i < |names| ==> r[|names| + i] == Pair(names[i], "node:" + names[i]))
  {
    var names := Unprefixed(builtinModules);
    seq(|names|, i requires 0 <= i < |names| => Name(names[i]))
    + seq(|names|, i requires 0 <= i < |names| => Pair(names[i], "node:" + names[i]))
  }

  /** As written, `builtins.includes(s)` is false for every `node:` string. */
  lemma AsWrittenLacksPrefixed(builtinModules: seq<string>, s: string)
    requires forall m :: m in builtinModules ==> !StartsWith(m, "node:")
    requires StartsWith(s, "node:")
    ensures Name(s) !in BuiltinsAsWritten(builtinModules)
  {
    var names := Unprefixed(builtinModules);
    var r := BuiltinsAsWritten(builtinModules);
    forall k | 0 <= k < |r| ensures r[k] != Name(s) {
      if k < |names| {
        assert names[k] in names;
      }
    }
  }

  /** With `builtinModules = ['fs']`, `node:fs` is in the flat table but not among the strings as written. */
  lemma AsWrittenCounterexample()
    ensures "node:fs" in Builtins(["fs"])
    ensures Name("node:fs") !in BuiltinsAsWritten(["fs"])
  {
    BuiltinsMembership(["fs"], "node:fs");
    assert "node:fs"[5..] == "fs" && StartsWith("node:fs", "node:");
    assert "fs"[..1][0] == 'f';
    assert IsPublicBuiltin(["fs"], "fs");
    AsWrittenLacksPrefixed(["fs"], "node:fs");
  }

  // ---------------------------------------------------------------- resolveModules

  /** What `resolveModules` returns. */
  datatype Resolved = Resolved(builtins: seq<string>, dependencies: seq<string>, esmDeps: seq<string>)

  /**
   * One call of `options.resolve(dependencies)`. The hook is handed the live `dependencies` array:
   * `edited` is what that array holds when the call returns (the hook may push into it or splice
   * it), `result` is what the call returns (an array, or a falsy value).
   */
  datatype HookCall = HookCall(edited: seq<string>, result: Slot<seq<string>>)

  /** `options.resolve`: absent, or a function of the CommonJS list. */
  type ResolveHook = Option<seq<string> -> HookCall>

  /**
   * `resolveModules(config, options)`, with the flat built-in table of src/utils.ts in place of
   * the pairs line 171 pushes. Without `options.resolve`, the CommonJS and the ES-module lists
   * together hold each manifest dependency exactly as often as the manifest does.
   */
  function ResolvedModules(builtinModules: seq<string>, s: Scan, hook: ResolveHook): (r: Resolved)
    ensures r.builtins == Builtins(builtinModules)
    ensures hook.None? ==> multiset(r.dependencies) + multiset(r.esmDeps) == multiset(ManifestDeps(s))
  {
    PartitionCounts(s, ManifestDeps(s));
    var deps := CjsDeps(s, ManifestDeps(s));
    var replaced :=
      if hook.None? then deps
      else if hook.value(deps).result.Has? then hook.value(deps).result.value
      else hook.value(deps).edited;
    Resolved(Builtins(builtinModules), replaced, EsmDeps(s, ManifestDeps(s)))
  }

  /**
   * Without `options.resolve`, every manifest dependency is either a CommonJS dependency or an
   * ES-module one, never both, and none is lost.
   */
  lemma ResolvedPartition(builtinModules: seq<string>, s: Scan)
    ensures var r := ResolvedModules(builtinModules, s, None);
      multiset(r.dependencies) + multiset(r.esmDeps) == multiset(ManifestDeps(s))
      && (forall n :: n in r.dependencies ==> n in ManifestDeps(s) && !IsEsm(s, n))
      && (forall n :: n in r.esmDeps ==> n in ManifestDeps(s) && IsEsm(s, n))
  {
    PartitionCounts(s, ManifestDeps(s));
  }

  /**
   * `options.resolve` sees the CommonJS list. A truthy result replaces it entirely; after a falsy
   * one the list is what the hook left in the array it was handed, so edits made in place are
   * kept, and a hook that neither edits nor returns anything leaves the list as it was. The
   * built-ins and the ES-module list are the same either way.
   */
  lemma ResolveHookEffect(builtinModules: seq<string>, s: Scan, f: seq<string> -> HookCall)
    ensures var with := ResolvedModules(builtinModules, s, Some(f));
      var without := ResolvedModules(builtinModules, s, None);
      var call := f(without.dependencies);
      with.builtins == without.builtins && with.esmDeps == without.esmDeps
      && (call.result.Has? ==> with.dependencies == call.result.value)
      && (!call.result.Has? ==> with.dependencies == call.edited)
      && (!call.result.Has? && call.edited == without.dependencies ==> with.dependencies == without.dependencies)
  {
  }

  /** The body of `resolveModules`. */
  method ResolveModules(fs: Disk, builtinModules: seq<string>, s: Scan, hook: ResolveHook) returns (r: Resolved)
    requires s.present == fs.Paths()
    ensures r == ResolvedModules(builtinModules, s, hook)
  {
    var builtins := PublicBuiltins(builtinModules);
    builtins := builtins + NodePrefixed(builtins);
    var dependencies, esmDeps := ScanDependencies(fs, s);
    if hook.Some? {
      var call := hook.value(dependencies);
      dependencies := call.edited;
      if call.result.Has? {
        dependencies := call.result.value;
      }
    }
    r := Resolved(builtins, dependencies, esmDeps);
  }

  // ---------------------------------------------------------------- the plugin

  /** The closure of `useNodeJs(options)`. */
  class UseNodePlugin {
    const builtinModules: seq<string>
    const hook: ResolveHook
    /** `path.join(__dirname, 'electron-renderer.js')`. */
    const electronjs: string
    var builtins: seq<string>
    var dependencies: seq<string>
    var esmDeps: seq<string>
    /** `CJS_modules`: what `resolveId` and `load` take over. */
    var cjsModules: seq<string>
    const moduleCache: ModuleCache

    constructor (builtinModules: seq<string>, hook: ResolveHook, pluginDir: string, objectKeys: string -> seq<string>)
      ensures this.builtinModules == builtinModules && this.hook == hook
      ensures electronjs == PathJoin(pluginDir, "electron-renderer.js")
      ensures builtins == [] && dependencies == [] && esmDeps == [] && cjsModules == []
      ensures fresh(moduleCache) && moduleCache.objectKeys == objectKeys
      ensures moduleCache.entries == map[] && moduleCache.requireLog == [] && moduleCache.Valid()
    {
      this.builtinModules, this.hook := builtinModules, hook;
      electronjs := PathJoin(pluginDir, "electron-renderer.js");
      builtins, dependencies, esmDeps, cjsModules := [], [], [], [];
      moduleCache := new ModuleCache(objectKeys);
    }

    /**
     * `config(config, env)`. Serving: `node` conditions by default, an `electron` alias to the
     * plugin's `electron-renderer.js`, and `electron` kept out of pre-bundling. Building:
     * `external` widened by `CJS_modules` as it stands, then `electron`, and `format` defaulted
     * to `'cjs'`.
     */
    method Config(config: UserConfig, env: Command)
      modifies config`resolve, config`optimizeDeps, config`build
      ensures env == Serve ==>
        config.resolve == Has(ElectronAliasResolve(old(config.resolve), electronjs))
        && config.optimizeDeps == Has(ExcludeElectron(old(config.optimizeDeps)))
        && config.build == old(config.build)
      ensures env == Build ==>
        config.build == Has(ExternalBuild(old(config.build), cjsModules + ["electron"]))
        && config.resolve == old(config.resolve) && config.optimizeDeps == old(config.optimizeDeps)
    {
      if env == Serve {
        ServeElectron(config, electronjs);
      } else {
        SetExternalBuild(config, cjsModules + ["electron"]);
      }
    }

    /**
     * `configResolved(config)`: the resolved lists are pushed onto the closure's, then
     * `builtins.concat(dependencies)` of the grown lists onto `CJS_modules`.
     */
    method ConfigResolved(fs: Disk, s: Scan)
      requires s.present == fs.Paths()
      modifies this`builtins, this`dependencies, this`esmDeps, this`cjsModules
      ensures var r := ResolvedModules(builtinModules, s, hook);
        builtins == old(builtins) + r.builtins && dependencies == old(dependencies) + r.dependencies
        && esmDeps == old(esmDeps) + r.esmDeps
      ensures cjsModules == old(cjsModules) + builtins + dependencies
    {
      var resolved := ResolveModules(fs, builtinModules, s, hook);
      builtins := builtins + resolved.builtins;
      dependencies := dependencies + resolved.dependencies;
      esmDeps := esmDeps + resolved.esmDeps;
      cjsModules := cjsModules + (builtins + dependencies);
    }

    /** `resolveId(source)`: the first `node:` is removed, and the result is claimed when it is in `CJS_modules`. */
    function ResolveId(source: string): (r: Option<string>)
      reads this`cjsModules
      ensures r.Some? <==> ReplaceFirst(source, "node:", "") in cjsModules
      ensures r.Some? ==> r.value == ReplaceFirst(source, "node:", "")
    {
      var id := ReplaceFirst(source, "node:", "");
      if id in cjsModules then Some(id) else None
    }

    /** A module of `CJS_modules` is claimed under its own name, with or without `node:`. */
    lemma ResolveIdModule(m: string)
      requires m in cjsModules && forall k :: !OccursAt(m, "node:", k)
      ensures ResolveId(m) == Some(m) && ResolveId("node:" + m) == Some(m)
    {
      ReplaceFirstAbsent(m, "node:", "");
      ReplaceFirstAtStart("node:", m, "");
      assert "" + m == m;
    }

    /**
     * `load(id)`: `None` for an id outside `CJS_modules`; otherwise the module's snippet, taken
     * from the cache or built after one `require` and then cached.
     */
    method Load(id: string) returns (r: Option<string>)
      requires moduleCache.Valid()
      modifies moduleCache
      ensures moduleCache.Valid()
      ensures r.Some? <==> id in cjsModules
      ensures r.Some? ==> r.value == ModuleSnippet(id, moduleCache.objectKeys(id))
      ensures moduleCache.entries ==
        (if id in cjsModules then old(moduleCache.entries)[id := ModuleSnippet(id, moduleCache.objectKeys(id))]
         else old(moduleCache.entries))
      ensures moduleCache.requireLog ==
        old(moduleCache.requireLog) + (if id in cjsModules && id !in old(moduleCache.entries) then [id] else [])
    {
      if id !in cjsModules {
        return None;
      }
      var cached := moduleCache.Get(id);
      if cached != "" {
        return Some(cached);
      }
      var snippet := moduleCache.Require(id);
      return Some(snippet);
    }
  }

  /**
   * Vite runs `config` before `configResolved`, so a fresh plugin's build makes only `electron`
   * external when the user gave no `external`.
   */
  lemma FreshBuildExternal(build: Slot<BuildOptions>)
    requires RollupOf(OrDefault(build, EmptyBuild).value).external.NoExternal?
    ensures ExternalBuild(build, [] + ["electron"]).rollupOptions.value.external == ExternalList([Id("electron")])
  {
    assert Ids(["electron"]) == [Id("electron")];
  }

  /** With the flat table, `configResolved` puts every public built-in into `CJS_modules` in both forms. */
  lemma ResolvedBuiltinsBothForms(builtinModules: seq<string>, s: Scan, hook: ResolveHook, m: string)
    requires IsPublicBuiltin(builtinModules, m)
    ensures var r := ResolvedModules(builtinModules, s, hook);
      m in r.builtins && ("node:" + m) in r.builtins
  {
    BuiltinsMembership(builtinModules, m);
    BuiltinsMembership(builtinModules, "node:" + m);
    assert ("node:" + m)[5..] == m;
  }
}
