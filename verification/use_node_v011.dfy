/**
 * bak/v0.11.4/use-node.js.ts: the earlier form of the `use-node.js` plugin, a `resolveId` plugin
 * and a main plugin sharing one closure. In serve mode, or when the host marks the plugin as
 * running in a worker, `resolveId` hands a built-in module back behind a `\0` prefix and `load`
 * strips it and serves a snippet that `require`s the module; in a worker build each snippet's
 * holder variable gets a numbered suffix. The build `config` keeps the built-ins external with a
 * CommonJS output when Node integration is on.
 */
module UseNodeV011 {
  import opened Js
  import opened Utils
  import opened FileSystem
  import opened ViteConfig
  import opened ConfigMerge
  import opened Snippets
  import opened PackageDeps

  /** What stops Vite from prefixing `/@fs/` to an id that names a file in the root. */
  const Prefix := "\0"

  /** `builtins`: the public names, `electron`, then the public names with `node:`. */
  function Table(builtinModules: seq<string>): (r: seq<string>)
    ensures var names := Unprefixed(builtinModules);
      |r| == 2 * |names| + 1 && r[|names|] == "electron"
  {
    var names := Unprefixed(builtinModules);
    names + ["electron"] + NodePrefixed(names)
  }

  /** The table holds `electron` and exactly the strings of the flat table of src/utils.ts. */
  lemma TableMembership(builtinModules: seq<string>, s: string)
    ensures s in Table(builtinModules) <==> s == "electron" || s in Builtins(builtinModules)
  {
    var names := Unprefixed(builtinModules);
    assert Table(builtinModules) == names + (["electron"] + NodePrefixed(names));
    assert Builtins(builtinModules) == names + NodePrefixed(names);
  }

  /** What `resolveModules(root)` returns. */
  datatype Resolved = Resolved(builtins: seq<string>, cjsDeps: seq<string>, esmDeps: seq<string>)

  function ResolvedModules(builtinModules: seq<string>, s: Scan): Resolved
  {
    Resolved(Table(builtinModules), CjsDeps(s, ManifestDeps(s)), EsmDeps(s, ManifestDeps(s)))
  }

  /** Every manifest dependency is in exactly one of the two lists, and the built-ins are not affected by the scan. */
  lemma ResolvedPartition(builtinModules: seq<string>, s: Scan)
    ensures var r := ResolvedModules(builtinModules, s);
      multiset(r.cjsDeps) + multiset(r.esmDeps) == multiset(ManifestDeps(s))
      && (forall n :: n in r.esmDeps <==> n in ManifestDeps(s) && IsEsm(s, n))
      && (forall n :: n in r.cjsDeps <==> n in ManifestDeps(s) && !IsEsm(s, n))
  {
    PartitionCounts(s, ManifestDeps(s));
  }

  /** The body of `resolveModules(root)`. */
  method ResolveModules(fs: Disk, builtinModules: seq<string>, s: Scan) returns (r: Resolved)
    requires s.present == fs.Paths()
    ensures r == ResolvedModules(builtinModules, s)
  {
    var builtins := PublicBuiltins(builtinModules);
    builtins := builtins + ["electron"] + NodePrefixed(builtins);
    var cjsDeps, esmDeps := ScanDependencies(fs, s);
    r := Resolved(builtins, cjsDeps, esmDeps);
  }

  // ---------------------------------------------------------------- the snippet

  /** `typeof workerCount === 'number' ? `$${workerCount}` : ''`. */
  function Suffix(workerCount: Option<nat>): string
  {
    if workerCount.Some? then "$" + NatToString(workerCount.value) else ""
  }

  /** Different worker counts give different suffixes, so the holder variables never clash. */
  lemma SuffixInjective(a: nat, b: nat)
    requires Suffix(Some(a)) == Suffix(Some(b))
    ensures a == b
  {
    assert Suffix(Some(a))[1..] == NatToString(a);
    assert Suffix(Some(b))[1..] == NatToString(b);
    NatToStringInjective(a, b);
  }

  /** The first line of the snippet: `const _M_<suffix> = require("<id>");`. */
  function HolderLine(suffix: string, id: string): string
  {
    "const _M_" + suffix + " = require(\"" + id + "\");"
  }

  /**
   * The snippet as the source builds it: the holder line and lib-esm's exports in a template
   * literal, trimmed. The trim takes off only the framing line feeds and the exports' trailing
   * white space.
   */
  function WorkerTemplate(id: string, suffix: string, exports: string): (r: string)
    ensures r == WorkerSnippet(id, suffix, exports)
  {
    var h := HolderLine(suffix, id);
    assert h[0] == 'c' && h[|h| - 1] == ';';
    HolderTemplateTrim(h, exports);
    Trim("\n" + h + "\n" + exports + "\n")
  }

  /** What the template comes to: the holder line, then the exports without trailing whitespace. */
  function WorkerSnippet(id: string, suffix: string, exports: string): string
  {
    if TrimEnd(exports) == [] then HolderLine(suffix, id) else HolderLine(suffix, id) + "\n" + TrimEnd(exports)
  }

  /** The worker template's frame with the holder line left abstract. */
  lemma HolderTemplateTrim(h: string, exports: string)
    requires h != [] && !IsWhitespace(h[0]) && !IsWhitespace(h[|h| - 1])
    ensures Trim("\n" + h + "\n" + exports + "\n") ==
      if TrimEnd(exports) == [] then h else h + "\n" + TrimEnd(exports)
  {
    if TrimEnd(exports) == [] {
      var w := "\n" + exports + "\n";
      assert exports[0..] == exports;
      assert AllWhitespace(w) by {
        forall i | 0 <= i < |w| ensures IsWhitespace(w[i]) {
          if 0 < i < |w| - 1 {
            assert w[i] == exports[i - 1];
          }
        }
      }
      assert "\n" + h + "\n" + exports + "\n" == "\n" + h + w;
      TrimFramed("\n", h, w);
    } else {
      TrimTemplate("\n", h, exports, "\n");
    }
  }

  lemma HolderLineOneLine(suffix: string, id: string)
    requires NoNewline(suffix) && NoNewline(id)
    ensures NoNewline(HolderLine(suffix, id))
  {
    NoNewlineConcat("const _M_", suffix);
    NoNewlineConcat("const _M_" + suffix, " = require(\"");
    NoNewlineConcat("const _M_" + suffix + " = require(\"", id);
    NoNewlineConcat("const _M_" + suffix + " = require(\"" + id, "\");");
  }

  /** Read line by line, the snippet is the holder line followed by lib-esm's export lines. */
  lemma WorkerSnippetLines(id: string, suffix: string, exports: string)
    requires NoNewline(suffix) && NoNewline(id)
    ensures Lines(WorkerSnippet(id, suffix, exports)) ==
      [HolderLine(suffix, id)] + (if TrimEnd(exports) == [] then [] else Lines(TrimEnd(exports)))
  {
    HolderLineOneLine(suffix, id);
    var h := HolderLine(suffix, id);
    if TrimEnd(exports) == [] {
      assert FirstNewline(h).None?;
    } else {
      LinesCons(h, TrimEnd(exports));
    }
  }

  lemma WorkerSnippetNonEmpty(id: string, suffix: string, exports: string)
    ensures WorkerSnippet(id, suffix, exports) != ""
  {
    assert HolderLine(suffix, id)[0] == 'c';
  }

  /** `plugin.api.count` read as a number, `undefined` as 0. */
  function CountValue(count: Option<nat>): nat
  {
    if count.Some? then count.value else 0
  }

  // ---------------------------------------------------------------- the plugins

  /** The closure of `useNodeJs(options)` and the host's `api` objects. */
  class UseNodeV011Plugin {
    const builtinModules: seq<string>
    const nodeIntegration: bool
    /** `pluginResolveId.api?.isWorker` and `plugin.api?.isWorker`, set by the host. */
    const resolverInWorker: bool
    const inWorker: bool
    /** The fixed `electron` module text the cache starts with. */
    const electronTemplate: string
    /** `Object.keys(createRequire(import.meta.url)(id))`. */
    const objectKeys: string -> seq<string>
    const libEsm: LibEsm

    /** `env.command`, unset until `config` runs. */
    var command: Option<Command>
    var builtins: seq<string>
    var cjsDeps: seq<string>
    var esmDeps: seq<string>
    var moduleCache: map<string, string>
    /** `plugin.api.count`. */
    var count: Option<nat>
    /** The ids whose snippet `load` built, in call order. */
    ghost var synthesised: seq<string>
    /** The suffixes the worker counter handed out, in call order. */
    ghost var holders: seq<string>

    /**
     * `electron` keeps its template; every other entry was built once; no entry is empty; the
     * counter has handed out `$0`, `$1`, … up to its current value.
     */
    ghost predicate Valid()
      reads this
    {
      "electron" in moduleCache && moduleCache["electron"] == electronTemplate
      && (forall x :: x in moduleCache ==> moduleCache[x] != "")
      && (forall x :: x in synthesised <==> x in moduleCache && x != "electron")
      && NoDuplicates(synthesised)
      && CounterValid()
    }

    ghost predicate CounterValid()
      reads this`count, this`holders
    {
      |holders| == CountValue(count) && forall i :: 0 <= i < |holders| ==> holders[i] == Suffix(Some(i))
    }

    /** The suffixes handed out are pairwise different. */
    lemma HoldersDistinct()
      requires CounterValid()
      ensures forall i, j :: 0 <= i < j < |holders| ==> holders[i] != holders[j]
    {
      forall i, j | 0 <= i < j < |holders| ensures holders[i] != holders[j] {
        if holders[i] == holders[j] {
          SuffixInjective(i, j);
        }
      }
    }

    constructor (builtinModules: seq<string>, nodeIntegration: bool, resolverInWorker: bool, inWorker: bool,
                 electronTemplate: string, objectKeys: string -> seq<string>, libEsm: LibEsm)
      requires electronTemplate != ""
      ensures this.builtinModules == builtinModules && this.nodeIntegration == nodeIntegration
      ensures this.resolverInWorker == resolverInWorker && this.inWorker == inWorker
      ensures this.electronTemplate == electronTemplate && this.objectKeys == objectKeys && this.libEsm == libEsm
      ensures command.None? && builtins == [] && cjsDeps == [] && esmDeps == [] && count.None?
      ensures moduleCache == map["electron" := electronTemplate] && synthesised == [] && holders == []
      ensures Valid()
    {
      this.builtinModules, this.nodeIntegration := builtinModules, nodeIntegration;
      this.resolverInWorker, this.inWorker := resolverInWorker, inWorker;
      this.electronTemplate, this.objectKeys, this.libEsm := electronTemplate, objectKeys, libEsm;
      command := None;
      builtins, cjsDeps, esmDeps := [], [], [];
      moduleCache := map["electron" := electronTemplate];
      count := None;
      synthesised, holders := [], [];
    }

    /**
     * The main plugin's `config(config, env)`: the modules of the root are resolved and pushed.
     * Serving: `node` conditions by default and `electron` kept out of pre-bundling. In a build
     * with Node integration the built-ins become external and the format CommonJS.
     */
    method Config(config: UserConfig, env: Command, fs: Disk, cwd: string,
                  typeOf: string -> Slot<string>, depKeys: string -> seq<string>)
      modifies this`command, this`builtins, this`cjsDeps, this`esmDeps, config`build, config`resolve, config`optimizeDeps
      ensures command == Some(env)
      ensures var r := ResolvedModules(builtinModules, Scan(RootDir(old(config.root), cwd), cwd, fs.Paths(), typeOf, depKeys));
        builtins == old(builtins) + r.builtins && cjsDeps == old(cjsDeps) + r.cjsDeps && esmDeps == old(esmDeps) + r.esmDeps
      ensures env == Build && nodeIntegration ==> config.build == Has(ExternalBuild(old(config.build), builtins))
      ensures !(env == Build && nodeIntegration) ==> config.build == old(config.build)
      ensures env == Serve ==>
        config.resolve == Has(NodeConditions(old(config.resolve)))
        && config.optimizeDeps == Has(ExcludeElectron(old(config.optimizeDeps)))
      ensures env == Build ==> config.resolve == old(config.resolve) && config.optimizeDeps == old(config.optimizeDeps)
    {
      command := Some(env);
      var scan := Scan(RootDir(config.root, cwd), cwd, fs.Paths(), typeOf, depKeys);
      var resolved := ResolveModules(fs, builtinModules, scan);
      Push(resolved);
      EditConfig(config, env);
    }

    /** The branches of `config` that edit the user configuration, after the modules were pushed. */
    method EditConfig(config: UserConfig, env: Command)
      modifies config`build, config`resolve, config`optimizeDeps
      ensures env == Build && nodeIntegration ==> config.build == Has(ExternalBuild(old(config.build), builtins))
      ensures !(env == Build && nodeIntegration) ==> config.build == old(config.build)
      ensures env == Serve ==>
        config.resolve == Has(NodeConditions(old(config.resolve)))
        && config.optimizeDeps == Has(ExcludeElectron(old(config.optimizeDeps)))
      ensures env == Build ==> config.resolve == old(config.resolve) && config.optimizeDeps == old(config.optimizeDeps)
    {
      if env == Serve {
        ServeDefaults(config);
      } else if nodeIntegration {
        SetExternalBuild(config, builtins);
      }
    }

    /** `builtins.push(...)`, `cjsDeps.push(...)`, `esmDeps.push(...)` with what `resolveModules` returned. */
    method Push(r: Resolved)
      modifies this`builtins, this`cjsDeps, this`esmDeps
      ensures builtins == old(builtins) + r.builtins && cjsDeps == old(cjsDeps) + r.cjsDeps
      ensures esmDeps == old(esmDeps) + r.esmDeps
    {
      builtins := builtins + r.builtins;
      cjsDeps := cjsDeps + r.cjsDeps;
      esmDeps := esmDeps + r.esmDeps;
    }

    /** Whether the hooks act: in serve mode, or when the host says the plugin runs in a worker. */
    predicate Serving(worker: bool)
      reads this`command
    {
      command == Some(Serve) || worker
    }

    /**
     * `resolveId(source)`: when serving, an ES-module dependency is left to the optimizer and a
     * built-in comes back behind the prefix; anything else is left to Vite.
     */
    function ResolveId(source: string): (r: Option<string>)
      requires command.Some?
      reads this`command, this`esmDeps, this`builtins
      ensures r.Some? <==> Serving(resolverInWorker) && source !in esmDeps && source in builtins
      ensures r.Some? ==> r.value == Prefix + source
    {
      if Serving(resolverInWorker) && source !in esmDeps && source in builtins then Some(Prefix + source)
      else None
    }

    /** `load` strips the prefix `resolveId` added: a claimed id comes back as the original specifier. */
    lemma PrefixRoundTrip(source: string)
      requires command.Some? && ResolveId(source).Some?
      ensures ReplaceFirst(ResolveId(source).value, Prefix, "") == source
      ensures ReplaceFirst(ResolveId(source).value, Prefix, "") in builtins
    {
      ReplaceFirstAtStart(Prefix, source, "");
      assert "" + source == source;
    }

    /** `getWorkerIncrementCount()` answers: a number in a worker build, `undefined` otherwise. */
    predicate Counting()
      reads this`command
    {
      command == Some(Build) && inWorker
    }

    /** The holder suffix the next snippet gets. */
    function NextSuffix(): string
      reads this`command, this`count
    {
      if Counting() then Suffix(Some(CountValue(count))) else ""
    }

    /** `getWorkerIncrementCount()`: `count ??= 0; return count++` in a worker build. */
    method GetWorkerIncrementCount() returns (n: Option<nat>)
      requires CounterValid()
      modifies this`count, this`holders
      ensures CounterValid()
      ensures Suffix(n) == old(NextSuffix())
      ensures Counting() ==>
        n == Some(CountValue(old(count))) && count == Some(n.value + 1) && holders == old(holders) + [Suffix(n)]
      ensures !Counting() ==> n.None? && count == old(count) && holders == old(holders)
    {
      if command == Some(Build) && inWorker {
        var current := if count.Some? then count.value else 0;
        n := Some(current);
        count := Some(current + 1);
        holders := holders + [Suffix(n)];
      } else {
        n := None;
      }
    }

    /** The snippet for `id`: lib-esm's exports for its keys, with the holder suffix as `conflict`. */
    method BuildSnippet(id: string, suffix: string) returns (snippet: string)
      ensures snippet == WorkerSnippet(id, suffix, libEsm(objectKeys(id), Some(suffix)))
      ensures snippet != ""
    {
      var result := libEsm(objectKeys(id), Some(suffix));
      snippet := WorkerTemplate(id, suffix, result);
      WorkerSnippetNonEmpty(id, suffix, result);
    }

    /**
     * The main plugin's `load(id)`. When serving, the prefix is stripped; a built-in is answered
     * from the cache, or its snippet is built once (with the next holder suffix) and cached.
     * `electron` is always answered with its template.
     */
    method Load(id: string) returns (r: Option<string>)
      requires Valid() && command.Some?
      modifies this`moduleCache, this`count, this`synthesised, this`holders
      ensures Valid()
      ensures !Serving(inWorker) ==> r.None?
      ensures Serving(inWorker) ==> (r.Some? <==> ReplaceFirst(id, Prefix, "") in builtins)
      ensures var key := ReplaceFirst(id, Prefix, "");
        !(Serving(inWorker) && key in builtins && key !in old(moduleCache)) ==>
          moduleCache == old(moduleCache) && count == old(count) && synthesised == old(synthesised)
          && holders == old(holders)
          && (r.Some? ==> r.value == old(moduleCache)[key])
      ensures var key := ReplaceFirst(id, Prefix, "");
        Serving(inWorker) && key in builtins && key !in old(moduleCache) ==>
          key != "electron"
          && r == Some(WorkerSnippet(key, old(NextSuffix()), libEsm(objectKeys(key), Some(old(NextSuffix())))))
          && moduleCache == old(moduleCache)[key := r.value]
          && synthesised == old(synthesised) + [key]
          && (Counting() ==> count == Some(CountValue(old(count)) + 1) && holders == old(holders) + [old(NextSuffix())])
          && (!Counting() ==> count == old(count) && holders == old(holders))
    {
      if !(command.value == Serve || inWorker) {
        return None;
      }
      var key := ReplaceFirst(id, Prefix, "");
      if key !in builtins {
        return None;
      }
      var cached := if key in moduleCache then moduleCache[key] else "";
      if cached != "" {
        return Some(cached);
      }
      var workerCount := GetWorkerIncrementCount();
      var suffix := if workerCount.Some? then "$" + NatToString(workerCount.value) else "";
      var snippet := BuildSnippet(key, suffix);
      NoDuplicatesAppend(synthesised, key);
      moduleCache := moduleCache[key := snippet];
      synthesised := synthesised + [key];
      return Some(snippet);
    }
  }
}
