/**
 * src/build-config.ts: the `builtins` plugin, which points `electron` (and, with Node
 * integration, every built-in module) at the package's pre-built ES modules through
 * `resolve.alias`, and the `build-config` plugin, which sets the build defaults Electron needs.
 */
module BuildConfig {
  import opened Js
  import opened Utils
  import opened ViteConfig
  import opened ConfigMerge

  const BuiltinsDir := "vite-plugin-electron-renderer/builtins/"

  /** `electronBuiltins.filter(m => m !== 'electron').filter(m => !m.startsWith('node:'))`. */
  function BareNames(names: seq<string>): (r: seq<string>)
    ensures |r| <= |names|
    ensures forall m :: m in r <==> m in names && m != "electron" && !StartsWith(m, "node:")
  {
    if names == [] then []
    else if names[0] == "electron" || StartsWith(names[0], "node:") then BareNames(names[1..])
    else [names[0]] + BareNames(names[1..])
  }

  lemma {:induction false} BareNamesAppend(a: seq<string>, b: seq<string>)
    ensures BareNames(a + b) == BareNames(a) + BareNames(b)
  {
    if a == [] {
      assert a + b == b;
    } else {
      assert (a + b)[1..] == a[1..] + b;
      BareNamesAppend(a[1..], b);
    }
  }

  lemma {:induction false} BareNamesOfPrefixed(names: seq<string>)
    ensures BareNames(NodePrefixed(names)) == []
  {
    if names != [] {
      assert NodePrefixed(names)[1..] == NodePrefixed(names[1..]);
      BareNamesOfPrefixed(names[1..]);
    }
  }

  lemma {:induction false} BareNamesKeeps(names: seq<string>)
    requires forall m :: m in names ==> m != "electron" && !StartsWith(m, "node:")
    ensures BareNames(names) == names
  {
    if names != [] {
      assert names[0] in names;
      assert forall m :: m in names[1..] ==> m in names;
      BareNamesKeeps(names[1..]);
    }
  }

  /**
   * With Node's real table (no module is called `electron` or begins with `node:`), the alias
   * names are exactly the public built-in names, in `builtinModules` order.
   */
  lemma BareNamesOfElectronBuiltins(builtinModules: seq<string>)
    requires "electron" !in builtinModules
    requires forall m :: m in builtinModules ==> !StartsWith(m, "node:")
    ensures BareNames(ElectronBuiltins(builtinModules)) == Unprefixed(builtinModules)
  {
    BareNamesAppend(["electron"], Builtins(builtinModules));
    assert ["electron"] + Builtins(builtinModules) == ElectronBuiltins(builtinModules);
    BareNamesOfBuiltins(builtinModules);
  }

  lemma UnprefixedBare(builtinModules: seq<string>)
    requires "electron" !in builtinModules
    requires forall m :: m in builtinModules ==> !StartsWith(m, "node:")
    ensures BareNames(Unprefixed(builtinModules)) == Unprefixed(builtinModules)
  {
    BareNamesKeeps(Unprefixed(builtinModules));
  }

  lemma BareNamesOfBuiltins(builtinModules: seq<string>)
    requires "electron" !in builtinModules
    requires forall m :: m in builtinModules ==> !StartsWith(m, "node:")
    ensures BareNames(Builtins(builtinModules)) == Unprefixed(builtinModules)
  {
    var names := Unprefixed(builtinModules);
    var prefixed := NodePrefixed(names);
    assert Builtins(builtinModules) == names + prefixed;
    BareNamesAppend(names, prefixed);
    BareNamesOfPrefixed(names);
    UnprefixedBare(builtinModules);
    assert names + [] == names;
  }

  /** The `{ find: /^(node:)?m$/, replacement: 'vite-plugin-electron-renderer/builtins/m' }` aliases. */
  function ModuleAliases(names: seq<string>): (r: seq<Alias>)
    ensures |r| == |names|
    ensures forall i :: 0 <= i < |r| ==> r[i] == Alias(NodeOptional([names[i]]), BuiltinsDir + names[i], false)
  {
    seq(|names|, i requires 0 <= i < |names| => Alias(NodeOptional([names[i]]), BuiltinsDir + names[i], false))
  }

  /** The alias list of the `builtins` plugin. */
  function BuiltinAliases(nodeIntegration: bool, builtinModules: seq<string>): (r: seq<Alias>)
    ensures |r| >= 1 && r[0] == Alias(Literal("electron"), BuiltinsDir + "electron", false)
    ensures !nodeIntegration ==> |r| == 1
    ensures nodeIntegration ==> r[1..] == ModuleAliases(BareNames(ElectronBuiltins(builtinModules)))
  {
    [Alias(Literal("electron"), BuiltinsDir + "electron", false)]
    + (if nodeIntegration then ModuleAliases(BareNames(ElectronBuiltins(builtinModules))) else [])
  }

  /** A module alias applies to its own name, with or without `node:`, and to nothing else. */
  lemma ModuleAliasMatches(m: string, source: string)
    ensures AliasMatches(NodeOptional([m]), source) <==> source == m || source == "node:" + m
  {
    CaptureNameMatches([m], source);
  }

  /**
   * With Node integration and Node's real table, there is one module alias per public built-in
   * name in table order, and an import is caught by the alias of `m` exactly when it is `m` or
   * `node:m`.
   */
  lemma BuiltinAliasesCover(builtinModules: seq<string>, i: nat, source: string)
    requires "electron" !in builtinModules
    requires forall m :: m in builtinModules ==> !StartsWith(m, "node:")
    requires i < |Unprefixed(builtinModules)|
    ensures var r := BuiltinAliases(true, builtinModules); var m := Unprefixed(builtinModules)[i];
      |r| == 1 + |Unprefixed(builtinModules)|
      && r[i + 1].replacement == BuiltinsDir + m
      && (AliasMatches(r[i + 1].find, source) <==> source == m || source == "node:" + m)
  {
    BareNamesOfElectronBuiltins(builtinModules);
    var r := BuiltinAliases(true, builtinModules);
    assert r[i + 1] == r[1..][i];
    ModuleAliasMatches(Unprefixed(builtinModules)[i], source);
  }

  /** `config.build` after the `build-config` plugin's `config` hook. */
  function BuildConfigBuild(build: Slot<BuildOptions>, nodeIntegration: bool, builtinModules: seq<string>): (r: BuildOptions)
    ensures r.cssCodeSplit == BuildDefaults(build).cssCodeSplit && r.assetsDir == BuildDefaults(build).assetsDir
    ensures !nodeIntegration && build.Has? ==>
      r.rollupOptions == build.value.rollupOptions && r.commonjsOptions == build.value.commonjsOptions
    ensures !nodeIntegration && build.Nullish() ==> r.rollupOptions == Undefined && r.commonjsOptions == Undefined
    ensures nodeIntegration ==> r == FreezeAndIgnore(BuildDefaults(build), ElectronBuiltins(builtinModules))
  {
    var b := BuildDefaults(build);
    if nodeIntegration then FreezeAndIgnore(b, ElectronBuiltins(builtinModules)) else b
  }

  /**
   * With Node integration, the hook leaves every output object with a `freeze`, keeps a `freeze`
   * the user set, keeps the user's `external`, and makes the CommonJS plugin ignore `electron`
   * and every built-in, whatever form `ignore` had.
   */
  lemma BuildConfigNodeIntegration(build: Slot<BuildOptions>, builtinModules: seq<string>, id: string)
    ensures var r := BuildConfigBuild(build, true, builtinModules);
      var before := RollupOf(BuildDefaults(build)); var output := r.rollupOptions.value.output.value;
      r.rollupOptions.value.external == before.external
      && (output.Single? ==> output.options.freeze.Has?)
      && (output.Many? ==> forall k :: 0 <= k < |output.list| ==> output.list[k].freeze.Has?)
      && (before.output.Has? && before.output.value.Single? && before.output.value.options.freeze.Has? ==>
            output.options.freeze == before.output.value.options.freeze)
      && (id in ElectronBuiltins(builtinModules) ==>
        match r.commonjsOptions.value.ignore
        case IgnoreList(ids) => id in ids
        case IgnoreFn(test) => test(id) == ReturnsTrue
        case NoIgnore => false)
  {
    FreezeAndIgnoreEffects(BuildDefaults(build), ElectronBuiltins(builtinModules), id);
  }

  /** The `builtins` plugin's `config` hook. */
  method BuiltinsConfig(config: UserConfig, nodeIntegration: bool, builtinModules: seq<string>)
    modifies config`resolve
    ensures config.resolve == Has(ResolveWithAliases(old(config.resolve), BuiltinAliases(nodeIntegration, builtinModules)))
  {
    var aliases := [Alias(Literal("electron"), BuiltinsDir + "electron", false)];
    if nodeIntegration {
      aliases := aliases + ModuleAliases(BareNames(ElectronBuiltins(builtinModules)));
    }
    assert aliases == BuiltinAliases(nodeIntegration, builtinModules);
    ModifyAlias(config, aliases);
  }

  /** The `build-config` plugin's `config` hook. */
  method BuildConfigHook(config: UserConfig, nodeIntegration: bool, builtinModules: seq<string>)
    modifies config`base, config`build
    ensures config.base == OrDefault(old(config.base), "./")
    ensures config.build == Has(BuildConfigBuild(old(config.build), nodeIntegration, builtinModules))
  {
    config.base := OrDefault(config.base, "./");
    var given := config.build;
    var build := OrDefault(config.build, EmptyBuild).value;
    build := build.(cssCodeSplit := OrDefault(build.cssCodeSplit, false));
    build := build.(assetsDir := OrDefault(build.assetsDir, ""));
    assert build == BuildDefaults(given);
    if nodeIntegration {
      var ro := OrDefault(build.rollupOptions, EmptyRollup).value;
      var output := ro.output;
      ro := ro.(output := OrDefault(ro.output, Single(EmptyOutput)));
      assert FreezeOutputs(ro.output) == FreezeOutputs(output);
      ro := SetOutputFreeze(ro);
      build := WithIgnore(build.(rollupOptions := Has(ro)), ElectronBuiltins(builtinModules));
    }
    config.build := Has(build);
  }
}
