/**
 * The parts of Vite's and Rollup's user configuration that the plugins read or write.
 * Union-typed options become datatypes; the configuration object handed to a `config`
 * hook is a class whose fields the hooks reassign.
 */
module ViteConfig {
  import opened Js

  /** One Rollup output object; `others` stands for every option the plugins never touch. */
  datatype OutputOptions = OutputOptions(format: Slot<string>, freeze: Slot<bool>, others: map<string, string>)

  /** `rollupOptions.output`: a single object or an array of them. */
  datatype Output = Single(options: OutputOptions) | Many(list: seq<OutputOptions>)

  datatype ExternalItem = Id(id: string) | Pattern(regexp: string)

  /** `rollupOptions.external`: absent (undefined or null), a string, a RegExp, an array, or a predicate on ids. */
  datatype External =
    | NoExternal
    | ExternalId(id: string)
    | ExternalPattern(regexp: string)
    | ExternalList(items: seq<ExternalItem>)
    | ExternalFn(test: string -> bool)

  /** What a user `commonjsOptions.ignore` predicate returns: only the boolean `true` counts as a yes. */
  datatype IgnoreAnswer = ReturnsTrue | ReturnsFalse | ReturnsOther

  /** `commonjsOptions.ignore`: absent (any falsy value), an array of ids, or a predicate. */
  datatype Ignore = NoIgnore | IgnoreList(ids: seq<string>) | IgnoreFn(test: string -> IgnoreAnswer)

  datatype CommonjsOptions = CommonjsOptions(ignore: Ignore)

  datatype RollupOptions = RollupOptions(external: External, output: Slot<Output>)

  datatype BuildOptions = BuildOptions(
    cssCodeSplit: Slot<bool>,
    assetsDir: Slot<string>,
    rollupOptions: Slot<RollupOptions>,
    commonjsOptions: Slot<CommonjsOptions>)

  /** What `{}` is for each object-valued option. */
  const EmptyOutput := OutputOptions(Undefined, Undefined, map[])
  const EmptyRollup := RollupOptions(NoExternal, Undefined)
  const EmptyBuild := BuildOptions(Undefined, Undefined, Undefined, Undefined)
  const EmptyCommonjs := CommonjsOptions(NoIgnore)

  /**
   * The `find` of an alias: a string (matches that id and anything below it), or the
   * regular expression `^(?:node:)?(n1|n2|...)$` over a list of names.
   */
  datatype AliasFind = Literal(name: string) | NodeOptional(names: seq<string>)

  datatype Alias = Alias(find: AliasFind, replacement: string, customResolver: bool)

  /** `resolve.alias`: an array of aliases, or an object from `find` to `replacement` (its entries in key order). */
  datatype AliasOption = AliasList(entries: seq<Alias>) | AliasRecord(pairs: seq<(string, string)>)

  /** `resolve`: the aliases and the export conditions. */
  datatype ResolveOptions = ResolveOptions(alias: Slot<AliasOption>, conditions: Slot<seq<string>>)

  datatype EsbuildOptions = EsbuildOptions(plugins: Slot<seq<string>>)

  /** `optimizeDeps`: the esbuild options of the pre-bundler and the ids it must not pre-bundle. */
  datatype OptimizeDeps = OptimizeDeps(esbuildOptions: Slot<EsbuildOptions>, exclude: Slot<seq<string>>)

  const EmptyResolve := ResolveOptions(Undefined, Undefined)
  const EmptyOptimizeDeps := OptimizeDeps(Undefined, Undefined)

  /** `env.command` of the `config` hook. */
  datatype Command = Serve | Build

  /** The user configuration object that every `config` hook receives and mutates. */
  class UserConfig {
    var root: Slot<string>
    var base: Slot<string>
    var build: Slot<BuildOptions>
    var resolve: Slot<ResolveOptions>
    var optimizeDeps: Slot<OptimizeDeps>

    constructor (root0: Slot<string>, base0: Slot<string>, build0: Slot<BuildOptions>,
                 resolve0: Slot<ResolveOptions>, optimizeDeps0: Slot<OptimizeDeps>)
      ensures root == root0 && base == base0 && build == build0
      ensures resolve == resolve0 && optimizeDeps == optimizeDeps0
    {
      root, base, build := root0, base0, build0;
      resolve, optimizeDeps := resolve0, optimizeDeps0;
    }
  }

  /** What the regular expression `^(?:node:)?(n1|n2|...)$` captures in `source`, if it matches. */
  function CaptureName(names: seq<string>, source: string): (r: Option<string>)
    ensures r.Some? ==> r.value in names
    ensures r.Some? ==> source == r.value || source == "node:" + r.value
  {
    if StartsWith(source, "node:") && source[5..] in names then
      assert source == "node:" + source[5..];
      Some(source[5..])
    else if source in names then Some(source)
    else None
  }

  /** The regular expression matches exactly the names, each optionally preceded by one `node:`. */
  lemma CaptureNameMatches(names: seq<string>, source: string)
    ensures CaptureName(names, source).Some? <==>
      exists n :: n in names && (source == n || source == "node:" + n)
  {
    if n :| n in names && (source == n || source == "node:" + n) {
      if source == "node:" + n {
        assert StartsWith(source, "node:") && source[5..] == n;
      }
    }
  }

  /** Whether an alias applies to an import, as Rollup's alias plugin decides. */
  predicate AliasMatches(find: AliasFind, source: string)
  {
    match find
    case Literal(name) => source == name || StartsWith(source, name + "/")
    case NodeOptional(names) => CaptureName(names, source).Some?
  }

  /** `['cjs', 'commonjs'].includes(format)`. */
  predicate IsCommonJsFormat(format: Slot<string>)
  {
    format == Has("cjs") || format == Has("commonjs")
  }

  /** The output objects configured: the single one, the array's, or none. */
  function OutputObjects(output: Slot<Output>): seq<OutputOptions>
  {
    match output
    case Has(Single(o)) => [o]
    case Has(Many(os)) => os
    case _ => []
  }

  /**
   * Whether the configured output is CommonJS: there is an output and its format, or the
   * format of one of the array's outputs, is `cjs` or `commonjs`. Without an output, or with an
   * empty array, it is not.
   */
  function IsCjsOutput(output: Slot<Output>): (r: bool)
    ensures r <==> exists k :: 0 <= k < |OutputObjects(output)| && IsCommonJsFormat(OutputObjects(output)[k].format)
  {
    match output
    case Has(Single(o)) =>
      assert OutputObjects(output)[0] == o;
      IsCommonJsFormat(o.format)
    case Has(Many(os)) =>
      assert OutputObjects(output) == os;
      exists i :: 0 <= i < |os| && IsCommonJsFormat(os[i].format)
    case _ => false
  }
}
