/**
 * index.js: the first generation of the plugin, four Vite plugins sharing one closure. The
 * `node.js` plugin resolves built-in modules and `package.json` dependencies to themselves and
 * loads each as an ES-module snippet that `require`s it; the `build` plugin keeps them external
 * and defaults the output format to CommonJS; the `polyfill-exports` plugin defines `exports` in
 * `index.html` for a CommonJS build; the `serve` plugin points `electron` at the package's
 * renderer shim.
 */
module LegacyRenderer {
  import opened Js
  import opened FileSystem
  import opened Utils
  import opened ViteConfig
  import opened ConfigMerge
  import opened Html
  import opened Snippets

  /** `names.map(e => [e, 'node:' + e]).flat()`: each name directly followed by its `node:` form. */
  function Paired(names: seq<string>): (r: seq<string>)
    ensures |r| == 2 * |names|
    ensures forall i :: 0 <= i < |names| ==> r[2 * i] == names[i] && r[2 * i + 1] == "node:" + names[i]
  {
    if names == [] then []
    else
      var rest := Paired(names[1..]);
      assert forall i :: 1 <= i < |names| ==> rest[2 * (i - 1)] == names[i];
      [names[0], "node:" + names[0]] + rest
  }

  lemma PairedMembership(names: seq<string>, s: string)
    ensures s in Paired(names) <==> s in names || (StartsWith(s, "node:") && s[5..] in names)
  {
    var r := Paired(names);
    if s in r {
      var k :| 0 <= k < |r| && r[k] == s;
      var i := k / 2;
      if k % 2 == 0 {
        assert k == 2 * i;
      } else {
        assert k == 2 * i + 1;
        assert s[5..] == names[i];
      }
    }
    if s in names {
      var i :| 0 <= i < |names| && names[i] == s;
      assert r[2 * i] == s;
    }
    if StartsWith(s, "node:") && s[5..] in names {
      var i :| 0 <= i < |names| && names[i] == s[5..];
      assert s == "node:" + s[5..];
      assert r[2 * i + 1] == s;
    }
  }

  /** The build plugin's `electronBuiltins`: paired built-ins, then `electron`, then the dependencies. */
  function ExternalNames(builtins: seq<string>, dependencies: seq<string>): (r: seq<string>)
    ensures |r| == 2 * |builtins| + 1 + |dependencies|
    ensures r[2 * |builtins|] == "electron" && r[2 * |builtins| + 1..] == dependencies
    ensures forall i :: 0 <= i < |builtins| ==> r[2 * i] == builtins[i] && r[2 * i + 1] == "node:" + builtins[i]
  {
    Paired(builtins) + ["electron"] + dependencies
  }

  /** Every built-in name is external with and without `node:`, and so are `electron` and every dependency. */
  lemma ExternalNamesMembership(builtins: seq<string>, dependencies: seq<string>, s: string)
    ensures s in ExternalNames(builtins, dependencies) <==>
      s in builtins || (StartsWith(s, "node:") && s[5..] in builtins) || s == "electron" || s in dependencies
  {
    PairedMembership(builtins, s);
  }

  /** `if (!slot) slot = d` on a string option: `undefined`, `null` and `''` are replaced. */
  function TruthyOr(s: Slot<string>, d: string): (r: Slot<string>)
    ensures s.Has? && s.value != "" ==> r == s
    ensures !(s.Has? && s.value != "") ==> r == Has(d)
  {
    if s.Has? && s.value != "" then s else Has(d)
  }

  /** `if (slot === undefined) slot = d`: only `undefined` is replaced, `null` is kept. */
  function UndefinedOr<T>(s: Slot<T>, d: T): (r: Slot<T>)
    ensures s.Undefined? ==> r == Has(d)
    ensures !s.Undefined? ==> r == s
  {
    if s.Undefined? then Has(d) else s
  }

  /** `config.build` after the build plugin's `config` hook. */
  function LegacyBuild(build: Slot<BuildOptions>, names: seq<string>): (r: BuildOptions)
    ensures build.Has? ==> r.commonjsOptions == build.value.commonjsOptions
    ensures r.assetsDir == UndefinedOr(OrDefault(build, EmptyBuild).value.assetsDir, "")
    ensures r.cssCodeSplit == UndefinedOr(OrDefault(build, EmptyBuild).value.cssCodeSplit, false)
    ensures r.rollupOptions == Has(ExternalAndFormat(RollupOf(OrDefault(build, EmptyBuild).value), names))
  {
    var b := OrDefault(build, EmptyBuild).value;
    b.(assetsDir := UndefinedOr(b.assetsDir, ""), cssCodeSplit := UndefinedOr(b.cssCodeSplit, false),
       rollupOptions := Has(ExternalAndFormat(RollupOf(b), names)))
  }

  const PolyfillScript := "<script>var exports = typeof module !== 'undefined' ? module.exports : {};</script>"

  /** The closure shared by the four plugins. */
  class LegacyPlugin {
    /** `builtinModules.filter(e => !e.startsWith('_'))`. */
    const builtins: seq<string>
    /** `options.dependencies || []`, then the `package.json` dependencies pushed onto it. */
    var dependencies: seq<string>
    const moduleCache: ModuleCache
    /** `config.build.rollupOptions.output` of the resolved configuration. */
    var output: Slot<Output>

    constructor (builtinModules: seq<string>, dependencies: Slot<seq<string>>, objectKeys: string -> seq<string>)
      ensures builtins == Unprefixed(builtinModules)
      ensures this.dependencies == (if dependencies.Has? then dependencies.value else [])
      ensures fresh(moduleCache) && moduleCache.objectKeys == objectKeys
      ensures moduleCache.entries == map[] && moduleCache.requireLog == [] && moduleCache.Valid()
      ensures output == Undefined
    {
      builtins := Unprefixed(builtinModules);
      this.dependencies := if dependencies.Has? then dependencies.value else [];
      moduleCache := new ModuleCache(objectKeys);
      output := Undefined;
    }

    /** `builtins.concat(dependencies)`: the ids the plugin takes over. */
    function Modules(): seq<string>
      reads this`dependencies
    {
      builtins + dependencies
    }

    /**
     * The `node.js` plugin's `configResolved`: when `root/package.json` exists, the keys of its
     * `dependencies` (`depKeys`) are appended.
     */
    method ConfigResolvedNode(fs: Disk, root: string, depKeys: string -> seq<string>)
      modifies this`dependencies
      ensures var pkgId := PathJoin(root, "package.json");
        dependencies == old(dependencies) + (if fs.Exists(pkgId) then depKeys(pkgId) else [])
    {
      var pkgId := PathJoin(root, "package.json");
      if fs.Exists(pkgId) {
        dependencies := dependencies + depKeys(pkgId);
      }
    }

    /** `resolveId(source)`: the first `node:` is removed, and the result is claimed when it is a module of the plugin. */
    function ResolveId(source: string): (r: Option<string>)
      reads this`dependencies
      ensures r.Some? <==> ReplaceFirst(source, "node:", "") in Modules()
      ensures r.Some? ==> r.value == ReplaceFirst(source, "node:", "")
    {
      var id := ReplaceFirst(source, "node:", "");
      if id in Modules() then Some(id) else None
    }

    /** A built-in is claimed under its own name, with or without `node:`. */
    lemma ResolveIdBuiltin(b: string)
      requires b in builtins && forall k :: !OccursAt(b, "node:", k)
      ensures ResolveId(b) == Some(b) && ResolveId("node:" + b) == Some(b)
    {
      ReplaceFirstAbsent(b, "node:", "");
      ReplaceFirstAtStart("node:", b, "");
      assert "" + b == b;
    }

    /**
     * `load(id)`: `None` for an id the plugin does not own; otherwise the module's snippet,
     * taken from the cache or built after one `require` and then cached.
     */
    method Load(id: string) returns (r: Option<string>)
      requires moduleCache.Valid()
      modifies moduleCache
      ensures moduleCache.Valid()
      ensures r.Some? <==> id in Modules()
      ensures r.Some? ==> r.value == ModuleSnippet(id, moduleCache.objectKeys(id))
      ensures moduleCache.entries ==
        (if id in Modules() then old(moduleCache.entries)[id := ModuleSnippet(id, moduleCache.objectKeys(id))]
         else old(moduleCache.entries))
      ensures moduleCache.requireLog ==
        old(moduleCache.requireLog) + (if id in Modules() && id !in old(moduleCache.entries) then [id] else [])
    {
      if id !in Modules() {
        return None;
      }
      var cached := moduleCache.Get(id);
      if cached != "" {
        return Some(cached);
      }
      var snippet := moduleCache.Require(id);
      return Some(snippet);
    }

    /** The serve plugin's `config` hook; `electronjs` is the package's `electron-renderer.js`. */
    method ServeConfig(config: UserConfig, electronjs: string)
      modifies config`resolve, config`optimizeDeps
      ensures config.resolve == Has(ElectronAliasResolve(old(config.resolve), electronjs))
      ensures config.optimizeDeps == Has(ExcludeElectron(old(config.optimizeDeps)))
    {
      ServeElectron(config, electronjs);
    }

    /** The build plugin's `config` hook. */
    method BuildConfig(config: UserConfig)
      modifies config`base, config`build
      ensures config.base == TruthyOr(old(config.base), "./")
      ensures config.build == Has(LegacyBuild(old(config.build), ExternalNames(builtins, dependencies)))
    {
      if !(config.base.Has? && config.base.value != "") {
        config.base := Has("./");
      }
      var b := OrDefault(config.build, EmptyBuild).value;
      if b.assetsDir.Undefined? {
        b := b.(assetsDir := Has(""));
      }
      if b.cssCodeSplit.Undefined? {
        b := b.(cssCodeSplit := Has(false));
      }
      var ro := OrDefault(b.rollupOptions, EmptyRollup).value;
      ro := ro.(output := OrDefault(ro.output, Single(EmptyOutput)));
      var names := Paired(builtins) + ["electron"] + dependencies;
      ro := ro.(external := WithExternal(names, ro.external));
      var given := ro.output;
      ro := SetOutputFormat(ro);
      assert FormatOutputs(given) == FormatOutputs(OrDefault(OrDefault(b.rollupOptions, EmptyRollup).value.output, Single(EmptyOutput)));
      config.build := Has(b.(rollupOptions := Has(ro)));
    }

    /** The `polyfill-exports` plugin's `configResolved`. */
    method ConfigResolvedPolyfill(resolvedOutput: Slot<Output>)
      modifies this`output
      ensures output == resolvedOutput
    {
      output := resolvedOutput;
    }

    /**
     * `transformIndexHtml(html)`: for a CommonJS output, the polyfill and a line feed go right
     * before the first closing head tag (a page without one is returned as it is); otherwise the
     * page is left to Vite (`None`).
     */
    method TransformIndexHtml(html: string) returns (r: Option<string>)
      ensures r.None? <==> !IsCjsOutput(output)
      ensures r.Some? && FindTag(html, 0, true).None? ==> r.value == html
      ensures r.Some? && FindTag(html, 0, true).Some? ==>
        var i := FindTag(html, 0, true).value.0;
        r.value == html[..i] + PolyfillScript + "\n" + html[i..]
    {
      if output.Nullish() {
        return None;
      }
      var isCjs :=
        match output.value
        case Many(os) => exists k :: 0 <= k < |os| && IsCommonJsFormat(os[k].format)
        case Single(o) => IsCommonJsFormat(o.format);
      if isCjs {
        return Some(InsertBeforeClosingHead(html, PolyfillScript + "\n"));
      }
      return None;
    }
  }
}
