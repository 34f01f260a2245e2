/**
 * Helpers that widen or default union-typed build options. `setOutputFreeze`, `withIgnore` and
 * `modifyAlias` appear word for word in src/build-config.ts and src/index.ts; the `external`
 * widening and the `format` default appear in index.js, plugins/use-node.js/index.js and
 * bak/v0.11.4/use-node.js.ts.
 */
module ConfigMerge {
  import opened Js
  import opened ViteConfig

  // ---------------------------------------------------------------- build defaults

  /**
   * `config.build ??= {}; build.cssCodeSplit ??= false; build.assetsDir ??= ''`: CSS in one file
   * and assets next to `index.html`, unless the user chose otherwise.
   */
  function BuildDefaults(build: Slot<BuildOptions>): (r: BuildOptions)
    ensures r.cssCodeSplit.Has? && r.assetsDir.Has?
    ensures build.Has? && build.value.cssCodeSplit.Has? ==> r.cssCodeSplit == build.value.cssCodeSplit
    ensures build.Has? && build.value.assetsDir.Has? ==> r.assetsDir == build.value.assetsDir
    ensures (build.Nullish() || build.value.cssCodeSplit.Nullish()) ==> r.cssCodeSplit == Has(false)
    ensures (build.Nullish() || build.value.assetsDir.Nullish()) ==> r.assetsDir == Has("")
    ensures build.Has? ==> r.rollupOptions == build.value.rollupOptions && r.commonjsOptions == build.value.commonjsOptions
    ensures build.Nullish() ==> r.rollupOptions == Undefined && r.commonjsOptions == Undefined
  {
    var b := OrDefault(build, EmptyBuild).value;
    b.(cssCodeSplit := OrDefault(b.cssCodeSplit, false), assetsDir := OrDefault(b.assetsDir, ""))
  }

  // ---------------------------------------------------------------- output.freeze

  /** `o.freeze ??= false`. */
  function FreezeDefault(o: OutputOptions): (r: OutputOptions)
    ensures r.freeze.Has?
    ensures o.freeze.Has? ==> r.freeze == o.freeze
    ensures o.freeze.Nullish() ==> r.freeze == Has(false)
    ensures r.format == o.format && r.others == o.others
  {
    o.(freeze := OrDefault(o.freeze, false))
  }

  /** The output after `setOutputFreeze`: created as `{}` when absent, `freeze` defaulted on every output object. */
  function FreezeOutputs(output: Slot<Output>): (r: Output)
    ensures output.Nullish() ==> r == Single(FreezeDefault(EmptyOutput))
    ensures output.Has? && output.value.Single? ==> r == Single(FreezeDefault(output.value.options))
    ensures output.Has? && output.value.Many? ==>
      r.Many? && |r.list| == |output.value.list|
      && forall i :: 0 <= i < |r.list| ==> r.list[i] == FreezeDefault(output.value.list[i])
  {
    match output
    case Has(Many(os)) => Many(seq(|os|, i requires 0 <= i < |os| => FreezeDefault(os[i])))
    case Has(Single(o)) => Single(FreezeDefault(o))
    case _ => Single(FreezeDefault(EmptyOutput))
  }

  /** `setOutputFreeze(rollupOptions)`: walks an array of outputs and defaults `freeze` on each. */
  method SetOutputFreeze(ro: RollupOptions) returns (r: RollupOptions)
    ensures r == ro.(output := Has(FreezeOutputs(ro.output)))
  {
    var output := OrDefault(ro.output, Single(EmptyOutput));
    if output.value.Many? {
      var os := output.value.list;
      var i := 0;
      while i < |os|
        invariant 0 <= i <= |os| == |output.value.list|
        invariant forall k :: 0 <= k < i ==> os[k] == FreezeDefault(output.value.list[k])
        invariant forall k :: i <= k < |os| ==> os[k] == output.value.list[k]
      {
        os := os[i := FreezeDefault(os[i])];
        i := i + 1;
      }
      assert os == FreezeOutputs(ro.output).list;
      r := ro.(output := Has(Many(os)));
    } else {
      r := ro.(output := Has(Single(FreezeDefault(output.value.options))));
    }
  }

  // ---------------------------------------------------------------- output.format

  /** `if (o.format === undefined) o.format = 'cjs'`: only an undefined format is replaced, `null` is kept. */
  function FormatDefault(o: OutputOptions): (r: OutputOptions)
    ensures o.format.Undefined? ==> r.format == Has("cjs")
    ensures !o.format.Undefined? ==> r.format == o.format
    ensures r.freeze == o.freeze && r.others == o.others
  {
    if o.format.Undefined? then o.(format := Has("cjs")) else o
  }

  /** The output after `setOutputFormat`: created as `{}` when absent, `format` defaulted on every output object. */
  function FormatOutputs(output: Slot<Output>): (r: Output)
    ensures output.Nullish() ==> r == Single(EmptyOutput.(format := Has("cjs")))
    ensures output.Has? && output.value.Single? ==> r == Single(FormatDefault(output.value.options))
    ensures output.Has? && output.value.Many? ==>
      r.Many? && |r.list| == |output.value.list|
      && forall i :: 0 <= i < |r.list| ==> r.list[i] == FormatDefault(output.value.list[i])
  {
    match output
    case Has(Many(os)) => Many(seq(|os|, i requires 0 <= i < |os| => FormatDefault(os[i])))
    case Has(Single(o)) => Single(FormatDefault(o))
    case _ => Single(FormatDefault(EmptyOutput))
  }

  /** `setOutputFormat(rollupOptions)`: walks an array of outputs and defaults `format` on each. */
  method SetOutputFormat(ro: RollupOptions) returns (r: RollupOptions)
    ensures r == ro.(output := Has(FormatOutputs(ro.output)))
  {
    var output := OrDefault(ro.output, Single(EmptyOutput));
    if output.value.Many? {
      var os := output.value.list;
      var i := 0;
      while i < |os|
        invariant 0 <= i <= |os| == |output.value.list|
        invariant forall k :: 0 <= k < i ==> os[k] == FormatDefault(output.value.list[k])
        invariant forall k :: i <= k < |os| ==> os[k] == output.value.list[k]
      {
        if os[i].format.Undefined? {
          os := os[i := os[i].(format := Has("cjs"))];
        }
        i := i + 1;
      }
      assert os == FormatOutputs(ro.output).list;
      r := ro.(output := Has(Many(os)));
    } else {
      r := ro.(output := Has(Single(FormatDefault(output.value.options))));
    }
  }

  // ---------------------------------------------------------------- external

  function Ids(names: seq<string>): (r: seq<ExternalItem>)
    ensures |r| == |names| && forall i :: 0 <= i < |r| ==> r[i] == Id(names[i])
  {
    seq(|names|, i requires 0 <= i < |names| => Id(names[i]))
  }

  /**
   * `withExternal`: an array, string or RegExp becomes `names.concat(external)`, a predicate is
   * wrapped so that every name is external, and an absent value becomes `names`.
   */
  function WithExternal(names: seq<string>, external: External): (r: External)
    ensures external.ExternalFn? ==>
      r.ExternalFn? && forall source :: r.test(source) == (source in names || external.test(source))
    ensures !external.ExternalFn? ==> r.ExternalList? && |names| <= |r.items| && r.items[..|names|] == Ids(names)
    ensures external.ExternalList? ==> r.ExternalList? && r.items[|names|..] == external.items
    ensures external.ExternalId? ==> r.ExternalList? && r.items[|names|..] == [Id(external.id)]
    ensures external.ExternalPattern? ==> r.ExternalList? && r.items[|names|..] == [Pattern(external.regexp)]
    ensures external.NoExternal? ==> r == ExternalList(Ids(names))
  {
    match external
    case ExternalList(items) => ExternalList(Ids(names) + items)
    case ExternalId(id) => ExternalList(Ids(names) + [Id(id)])
    case ExternalPattern(re) => ExternalList(Ids(names) + [Pattern(re)])
    case ExternalFn(original) => ExternalFn(source => if source in names then true else original(source))
    case NoExternal => ExternalList(Ids(names))
  }

  /**
   * `rollupOptions.external = withExternal(external)` followed by `setOutputFormat(rollupOptions)`:
   * the step index.js, plugins/use-node.js/index.js and bak/v0.11.4/use-node.js.ts apply to the
   * Rollup options of a build.
   */
  function ExternalAndFormat(ro: RollupOptions, names: seq<string>): RollupOptions
  {
    RollupOptions(WithExternal(names, ro.external), Has(FormatOutputs(ro.output)))
  }

  /**
   * After the step every listed name is external whatever form `external` had, every output
   * object has a format, and a format the user gave (even `null`) is kept.
   */
  lemma ExternalAndFormatEffects(ro: RollupOptions, names: seq<string>, id: string)
    ensures var r := ExternalAndFormat(ro, names); var output := r.output.value;
      (output.Single? ==> !output.options.format.Undefined?)
      && (output.Many? ==> forall k :: 0 <= k < |output.list| ==> !output.list[k].format.Undefined?)
      && (ro.output.Has? && ro.output.value.Single? && !ro.output.value.options.format.Undefined? ==>
            output.options.format == ro.output.value.options.format)
      && (id in names ==>
        match r.external
        case ExternalList(items) => Id(id) in items
        case ExternalFn(test) => test(id)
        case _ => false)
  {
    var r := ExternalAndFormat(ro, names);
    if id in names && r.external.ExternalList? {
      var i :| 0 <= i < |names| && names[i] == id;
      assert r.external.items[i] == Ids(names)[i];
    }
  }

  /**
   * `build ??= {}; build.rollupOptions ??= {}`, then the external and format step: the build
   * branch of plugins/use-node.js/index.js and bak/v0.11.4/use-node.js.ts.
   */
  function ExternalBuild(build: Slot<BuildOptions>, names: seq<string>): (r: BuildOptions)
    ensures build.Has? ==> r == build.value.(rollupOptions := r.rollupOptions)
    ensures build.Nullish() ==> r == EmptyBuild.(rollupOptions := r.rollupOptions)
    ensures r.rollupOptions == Has(ExternalAndFormat(RollupOf(OrDefault(build, EmptyBuild).value), names))
  {
    var b := OrDefault(build, EmptyBuild).value;
    b.(rollupOptions := Has(ExternalAndFormat(RollupOf(b), names)))
  }

  /** The build branch of plugins/use-node.js/index.js and bak/v0.11.4/use-node.js.ts applied to `config.build`. */
  method SetExternalBuild(config: UserConfig, names: seq<string>)
    modifies config`build
    ensures config.build == Has(ExternalBuild(old(config.build), names))
  {
    var b := OrDefault(config.build, EmptyBuild).value;
    var ro := RollupOf(b);
    ro := ro.(external := WithExternal(names, ro.external));
    var given := ro.output;
    ro := SetOutputFormat(ro);
    assert FormatOutputs(given) == FormatOutputs(RollupOf(b).output);
    config.build := Has(b.(rollupOptions := Has(ro)));
  }

  // ---------------------------------------------------------------- commonjsOptions.ignore

  /** The predicate `withIgnore` installs over a user predicate. */
  function IgnoreWrapper(names: seq<string>, user: string -> IgnoreAnswer): (r: string -> IgnoreAnswer)
    ensures forall id :: r(id) != ReturnsOther
    ensures forall id :: r(id) == ReturnsTrue <==> user(id) == ReturnsTrue || id in names
  {
    id => if user(id) == ReturnsTrue then ReturnsTrue else if id in names then ReturnsTrue else ReturnsFalse
  }

  /** The `ignore` option a build configuration holds. */
  function IgnoreAfter(b: BuildOptions): Ignore
  {
    if b.commonjsOptions.Has? then b.commonjsOptions.value.ignore else NoIgnore
  }

  /**
   * `withIgnore`: absent `ignore` becomes `names`, an array gets `names` appended after its own
   * entries, a predicate is wrapped.
   */
  function WithIgnore(b: BuildOptions, names: seq<string>): (r: BuildOptions)
    ensures r.cssCodeSplit == b.cssCodeSplit && r.assetsDir == b.assetsDir && r.rollupOptions == b.rollupOptions
    ensures r.commonjsOptions.Has?
    ensures IgnoreAfter(b).NoIgnore? ==> r.commonjsOptions.value.ignore == IgnoreList(names)
    ensures IgnoreAfter(b).IgnoreList? ==> r.commonjsOptions.value.ignore == IgnoreList(IgnoreAfter(b).ids + names)
    ensures IgnoreAfter(b).IgnoreFn? ==> r.commonjsOptions.value.ignore == IgnoreFn(IgnoreWrapper(names, IgnoreAfter(b).test))
  {
    var cjs := OrDefault(b.commonjsOptions, EmptyCommonjs).value;
    var ignore :=
      match cjs.ignore
      case NoIgnore => IgnoreList(names)
      case IgnoreList(ids) => IgnoreList(ids + names)
      case IgnoreFn(user) => IgnoreFn(IgnoreWrapper(names, user));
    b.(commonjsOptions := Has(cjs.(ignore := ignore)))
  }

  // ---------------------------------------------------------------- freeze + ignore

  /** The Rollup options of a build configuration, `{}` when absent. */
  function RollupOf(b: BuildOptions): RollupOptions
  {
    OrDefault(b.rollupOptions, EmptyRollup).value
  }

  /**
   * `rollupOptions ??= {}; setOutputFreeze(rollupOptions); withIgnore(build)`, the step
   * src/build-config.ts (with Node integration) and src/index.ts apply to `config.build`.
   */
  function FreezeAndIgnore(b: BuildOptions, names: seq<string>): (r: BuildOptions)
    ensures r.cssCodeSplit == b.cssCodeSplit && r.assetsDir == b.assetsDir
    ensures r.rollupOptions == Has(RollupOf(b).(output := Has(FreezeOutputs(RollupOf(b).output))))
    ensures r.commonjsOptions.Has?
  {
    var ro := RollupOf(b);
    WithIgnore(b.(rollupOptions := Has(ro.(output := Has(FreezeOutputs(ro.output))))), names)
  }

  /**
   * After the step every output object has a `freeze`, and every listed name is ignored by the
   * CommonJS plugin, whatever form `ignore` had.
   */
  lemma FreezeAndIgnoreEffects(b: BuildOptions, names: seq<string>, id: string)
    ensures var r := FreezeAndIgnore(b, names); var output := r.rollupOptions.value.output.value;
      (output.Single? ==> output.options.freeze.Has?)
      && (output.Many? ==> forall k :: 0 <= k < |output.list| ==> output.list[k].freeze.Has?)
      && (id in names ==>
        match r.commonjsOptions.value.ignore
        case IgnoreList(ids) => id in ids
        case IgnoreFn(test) => test(id) == ReturnsTrue
        case NoIgnore => false)
  {
    var ro := RollupOf(b);
    var before := b.(rollupOptions := Has(ro.(output := Has(FreezeOutputs(ro.output)))));
    var r := FreezeAndIgnore(b, names);
    if id in names && IgnoreAfter(before).IgnoreList? {
      assert r.commonjsOptions.value.ignore.ids == IgnoreAfter(before).ids + names;
    }
  }

  // ---------------------------------------------------------------- resolve.alias

  /** `Object.entries(alias).reduce(...)`: object entries become `{ find, replacement }` in key order. */
  function RecordToAliases(pairs: seq<(string, string)>): (r: seq<Alias>)
    ensures |r| == |pairs|
    ensures forall i :: 0 <= i < |r| ==> r[i] == Alias(Literal(pairs[i].0), pairs[i].1, false)
  {
    if pairs == [] then [] else [Alias(Literal(pairs[0].0), pairs[0].1, false)] + RecordToAliases(pairs[1..])
  }

  /** The aliases already configured, as an array. */
  function ExistingAliases(resolve: Slot<ResolveOptions>): seq<Alias>
  {
    if resolve.Nullish() then []
    else match resolve.value.alias
      case Has(AliasList(entries)) => entries
      case Has(AliasRecord(pairs)) => RecordToAliases(pairs)
      case _ => []
  }

  /** `config.resolve` after `modifyAlias(config, aliases)`. */
  function ResolveWithAliases(resolve: Slot<ResolveOptions>, aliases: seq<Alias>): (r: ResolveOptions)
    ensures r.alias.Has? && r.alias.value.AliasList?
    ensures |r.alias.value.entries| == |ExistingAliases(resolve)| + |aliases|
    ensures r.alias.value.entries[..|ExistingAliases(resolve)|] == ExistingAliases(resolve)
    ensures r.alias.value.entries[|ExistingAliases(resolve)|..] == aliases
  {
    var existing := ExistingAliases(resolve);
    var entries := existing + aliases;
    assert entries[..|existing|] == existing && entries[|existing|..] == aliases;
    OrDefault(resolve, EmptyResolve).value.(alias := Has(AliasList(entries)))
  }

  /** `modifyAlias(config, aliases)`: normalises an object-form alias and appends after the existing ones. */
  method ModifyAlias(config: UserConfig, aliases: seq<Alias>)
    modifies config`resolve
    ensures config.resolve == Has(ResolveWithAliases(old(config.resolve), aliases))
  {
    var resolve := OrDefault(config.resolve, EmptyResolve).value;
    var alias := OrDefault(resolve.alias, AliasList([])).value;
    if alias.AliasRecord? {
      alias := AliasList(RecordToAliases(alias.pairs));
    }
    config.resolve := Has(resolve.(alias := Has(AliasList(alias.entries + aliases))));
  }

  // ---------------------------------------------------------------- serve-mode defaults

  /** `resolve ??= {}; resolve.conditions ??= ['node']`: a user's own conditions survive. */
  function NodeConditions(resolve: Slot<ResolveOptions>): (r: ResolveOptions)
    ensures resolve.Has? ==> r.alias == resolve.value.alias
    ensures resolve.Nullish() ==> r.alias == Undefined
    ensures resolve.Has? && resolve.value.conditions.Has? ==> r.conditions == resolve.value.conditions
    ensures !(resolve.Has? && resolve.value.conditions.Has?) ==> r.conditions == Has(["node"])
  {
    var ro := OrDefault(resolve, EmptyResolve).value;
    ro.(conditions := OrDefault(ro.conditions, ["node"]))
  }

  /** `optimizeDeps ??= {}; optimizeDeps.exclude ??= []; optimizeDeps.exclude.push('electron')`. */
  function ExcludeElectron(optimizeDeps: Slot<OptimizeDeps>): (r: OptimizeDeps)
    ensures optimizeDeps.Has? ==> r.esbuildOptions == optimizeDeps.value.esbuildOptions
    ensures r.exclude.Has? && |r.exclude.value| >= 1 && r.exclude.value[|r.exclude.value| - 1] == "electron"
    ensures optimizeDeps.Has? && optimizeDeps.value.exclude.Has? ==>
      r.exclude.value == optimizeDeps.value.exclude.value + ["electron"]
    ensures !(optimizeDeps.Has? && optimizeDeps.value.exclude.Has?) ==> r.exclude.value == ["electron"]
  {
    var od := OrDefault(optimizeDeps, EmptyOptimizeDeps).value;
    od.(exclude := Has(OrDefault(od.exclude, []).value + ["electron"]))
  }

  predicate HasKey(pairs: seq<(string, string)>, key: string)
  {
    exists i :: 0 <= i < |pairs| && pairs[i].0 == key
  }

  /**
   * `object[key] = value` on an object's entries in key order: an existing key keeps its place
   * and takes the value, a new key goes last, and every other entry is untouched.
   */
  function SetKey(pairs: seq<(string, string)>, key: string, value: string): (r: seq<(string, string)>)
    ensures |r| >= |pairs|
    ensures exists i :: 0 <= i < |r| && r[i] == (key, value)
    ensures forall i :: 0 <= i < |r| && r[i].0 == key ==> r[i].1 == value
    ensures forall i :: 0 <= i < |pairs| ==> r[i].0 == pairs[i].0 && (pairs[i].0 != key ==> r[i] == pairs[i])
    ensures HasKey(pairs, key) ==> |r| == |pairs|
    ensures !HasKey(pairs, key) ==> r == pairs + [(key, value)]
  {
    if HasKey(pairs, key) then
      var r := seq(|pairs|, i requires 0 <= i < |pairs| => if pairs[i].0 == key then (key, value) else pairs[i]);
      var k :| 0 <= k < |pairs| && pairs[k].0 == key;
      assert r[k] == (key, value);
      r
    else
      var r := pairs + [(key, value)];
      assert r[|pairs|] == (key, value);
      r
  }

  /**
   * The `resolve` step of the serve branch of plugins/use-node.js/index.js's `config`: `node`
   * conditions by default, then an `electron` alias to `target`, pushed onto an alias array or
   * set as a key of an alias object.
   */
  function ElectronAliasResolve(resolve: Slot<ResolveOptions>, target: string): (r: ResolveOptions)
    ensures r.conditions == NodeConditions(resolve).conditions
    ensures r.alias.Has?
  {
    var ro := NodeConditions(resolve);
    match OrDefault(ro.alias, AliasList([])).value
    case AliasList(entries) => ro.(alias := Has(AliasList(entries + [Alias(Literal("electron"), target, false)])))
    case AliasRecord(pairs) => ro.(alias := Has(AliasRecord(SetKey(pairs, "electron", target))))
  }

  /**
   * After the step the `electron` alias is configured and every alias the user had for another
   * `find` is still there; an alias array keeps its order and gets the new alias last.
   */
  lemma ElectronAliasEffect(resolve: Slot<ResolveOptions>, target: string)
    ensures var after := ExistingAliases(Has(ElectronAliasResolve(resolve, target)));
      Alias(Literal("electron"), target, false) in after
      && (forall a :: a in ExistingAliases(resolve) && a.find != Literal("electron") ==> a in after)
      && (!(resolve.Has? && resolve.value.alias.Has? && resolve.value.alias.value.AliasRecord?) ==>
            after == ExistingAliases(resolve) + [Alias(Literal("electron"), target, false)])
  {
    var alias := OrDefault(NodeConditions(resolve).alias, AliasList([])).value;
    if alias.AliasRecord? {
      RecordAliasSet(alias.pairs, "electron", target);
    }
  }

  /**
   * The `config` of the serving plugin of index.js and the serve branch of
   * plugins/use-node.js/index.js: `node` conditions, an `electron` alias to `electronjs`, and
   * `electron` kept out of pre-bundling.
   */
  method ServeElectron(config: UserConfig, electronjs: string)
    modifies config`resolve, config`optimizeDeps
    ensures config.resolve == Has(ElectronAliasResolve(old(config.resolve), electronjs))
    ensures config.optimizeDeps == Has(ExcludeElectron(old(config.optimizeDeps)))
  {
    var resolve := OrDefault(config.resolve, EmptyResolve).value;
    resolve := resolve.(conditions := OrDefault(resolve.conditions, ["node"]));
    var alias := OrDefault(resolve.alias, AliasList([])).value;
    if alias.AliasList? {
      alias := AliasList(alias.entries + [Alias(Literal("electron"), electronjs, false)]);
    } else {
      alias := AliasRecord(SetKey(alias.pairs, "electron", electronjs));
    }
    config.resolve := Has(resolve.(alias := Has(alias)));
    var od := OrDefault(config.optimizeDeps, EmptyOptimizeDeps).value;
    var exclude := OrDefault(od.exclude, []).value;
    config.optimizeDeps := Has(od.(exclude := Has(exclude + ["electron"])));
  }

  /** The serve branch of bak/v0.11.4/use-node.js.ts's `config`: `node` conditions and `electron` kept out of pre-bundling. */
  method ServeDefaults(config: UserConfig)
    modifies config`resolve, config`optimizeDeps
    ensures config.resolve == Has(NodeConditions(old(config.resolve)))
    ensures config.optimizeDeps == Has(ExcludeElectron(old(config.optimizeDeps)))
  {
    var resolve := OrDefault(config.resolve, EmptyResolve).value;
    config.resolve := Has(resolve.(conditions := OrDefault(resolve.conditions, ["node"])));
    var od := OrDefault(config.optimizeDeps, EmptyOptimizeDeps).value;
    var exclude := OrDefault(od.exclude, []).value;
    config.optimizeDeps := Has(od.(exclude := Has(exclude + ["electron"])));
  }

  /** Setting a key of an alias object adds its alias and keeps the aliases of the other keys. */
  lemma RecordAliasSet(pairs: seq<(string, string)>, key: string, value: string)
    ensures Alias(Literal(key), value, false) in RecordToAliases(SetKey(pairs, key, value))
    ensures forall a :: a in RecordToAliases(pairs) && a.find != Literal(key) ==> a in RecordToAliases(SetKey(pairs, key, value))
  {
    var out := SetKey(pairs, key, value);
    var k :| 0 <= k < |out| && out[k] == (key, value);
    assert RecordToAliases(out)[k] == Alias(Literal(key), value, false);
    forall a | a in RecordToAliases(pairs) && a.find != Literal(key) ensures a in RecordToAliases(out) {
      var i :| 0 <= i < |pairs| && RecordToAliases(pairs)[i] == a;
      assert RecordToAliases(out)[i] == a;
    }
  }
}
