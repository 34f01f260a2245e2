# vite-plugin-electron-renderer, modelled in Dafny

vite-plugin-electron-renderer lets the renderer process of an Electron application, built with
Vite, import Node built-in modules, `electron` and CommonJS packages as if they were ES modules.
It does this in four ways:

- it keeps those modules external in the Rollup build and switches the output to CommonJS;
- it puts aliases or `resolveId`/`load` hooks in front of them that serve a small ES-module
  snippet, which `require`s the module and re-exports its keys;
- it pre-bundles dependencies through an esbuild plugin;
- it injects `exports`/`require` shims into `index.html`.

This project models the deterministic logic around that I/O, one Dafny module per source file:

| source file | module | form |
|---|---|---|
| src/utils.ts | `Utils` | functions on the name table, `EnsureDir` method on the disk |
| src/build-config.ts | `BuildConfig` | alias-list functions, `config` hooks as methods on `ViteConfig.UserConfig` |
| src/index.ts | `Renderer` | class `RendererPlugin`: `config` and the alias's `customResolver` |
| src/optimizer.ts | `Optimizer` | the `onResolve` decision and `onLoad` contents as functions, class `OptimizerState` for the module-level paths, class `PreBundle` for `config`/`onLoad` |
| src/cjs-shim.ts | `CjsShimPlugin` | class `CjsShim`: `config`, `configResolved`, `transformIndexHtml` |
| index.js | `LegacyRenderer` | class `LegacyPlugin`: the closure shared by the four plugins |
| plugins/use-node.js/index.js | `UseNode` | class `UseNodePlugin`, `ResolveModules` method |
| bak/v0.11.4/use-node.js.ts | `UseNodeV011` | class `UseNodeV011Plugin`, with the worker counter |

Helpers shared by several source files live in their own modules:

- `Js` holds JavaScript's nullish slots and `??=`, and the string operations `String.replace`
  (first occurrence), `trim` (ECMAScript white space), `join` and `split('\n')`.
- `FileSystem` is the disk: a class `Disk` holding a file map and a directory set.
- `ViteConfig` holds the union-typed Vite and Rollup options, and the class `UserConfig` whose
  fields the hooks reassign.
- `ConfigMerge` holds `setOutputFreeze`, `withIgnore`, `modifyAlias`, `withExternal`,
  `setOutputFormat`, and the serve-mode `resolve`/`optimizeDeps` defaults.
- `Html` holds the head-tag regular expressions, as a scanner for the set of strings they
  match.
- `Snippets` holds the re-export snippets and the per-id snippet cache (class `ModuleCache`).
- `PackageDeps` holds `lookupFile` and the `package.json` dependency partition.

Everything outside the process becomes a parameter of the model:

- `builtinModules` is a `seq<string>`.
- `require(id)` followed by `Object.keys` is a function from id to keys.
- `lib-esm` is a function from (names, conflict) to text.
- The disk is a `Disk`.
- `find_node_modules`, `cjs_require.resolve` and a manifest's `type` field are functions.
- `Date.now()` is a number passed in.
- `__dirname` is the plugin directory passed to the constructor.
- The `electron` module templates are string parameters.

## Model

| member | source | states |
|---|---|---|
| Utils.Unprefixed | src/utils.ts:4 | the filtered names are exactly the entries not starting with `_`, none starts with `_`, no longer than the input |
| Utils.UnprefixedDistributes | src/utils.ts:4 | the filter keeps order: filtering a concatenation is concatenating the filtered parts |
| Utils.PublicBuiltins | src/utils.ts:4 | the filtering loop computes exactly `Unprefixed` |
| Utils.NodePrefixed | src/utils.ts:4 | same length, entry i is `node:` + name i |
| Utils.Builtins | src/utils.ts:4 | `builtins` has twice the filtered length; its first half is the filtered names in order, its second half the same names with `node:` |
| Utils.ElectronBuiltins | src/utils.ts:5 | `electronBuiltins` is `electron` at index 0 followed by all of `builtins`, length one more |
| Utils.BuiltinsMembership | src/utils.ts:4 | a string is in `builtins` iff it is a public name, or `node:` followed by a public name |
| Utils.EnsureDir | src/utils.ts:7-11 | afterwards something exists at the path, as `existsSync` reports it; when something was already there the disk is unchanged, and when nothing was, its directory chain is added |
| FileSystem.Disk.RemoveRecursive | src/optimizer.ts:56 | `rmSync(recursive, force)`: exactly the files and directories under the path are gone, everything else is kept |
| BuildConfig.BareNames | src/build-config.ts:21-23 | the two filters keep exactly the names that are neither `electron` nor `node:`-prefixed |
| BuildConfig.BareNamesAppend | src/build-config.ts:21-23 | the filters keep table order |
| BuildConfig.BareNamesOfElectronBuiltins | src/build-config.ts:21-23 | applied to `electronBuiltins`, the filters give back exactly the public built-in names in order |
| BuildConfig.ModuleAliases | src/build-config.ts:24-27 | one alias per name, in order, with replacement `vite-plugin-electron-renderer/builtins/<m>` |
| BuildConfig.BuiltinAliases | src/build-config.ts:15-28 | the list starts with the `electron` alias; exactly one alias without `nodeIntegration`; with it, one more alias per public built-in in table order |
| BuildConfig.ModuleAliasMatches | src/build-config.ts:25 | the alias for `m` matches exactly `m` and `node:m` |
| BuildConfig.BuiltinAliasesCover | src/build-config.ts:21-27 | with `nodeIntegration`, the i-th public built-in has its alias at index i+1 and that alias matches the name with and without `node:` |
| BuildConfig.BuildConfigBuild | src/build-config.ts:43-67 | `cssCodeSplit`/`assetsDir` defaults as in `BuildDefaults`; without `nodeIntegration`, `rollupOptions` and `commonjsOptions` stay as the user left them; with it, the build is `FreezeAndIgnore` of the defaulted build over `electronBuiltins` |
| BuildConfig.BuildConfigNodeIntegration | src/build-config.ts:56-67 | with `nodeIntegration`, every output object has a `freeze` and a user `freeze` is kept, `external` is kept, and `electron` and every built-in are ignored by the CommonJS plugin whatever form `ignore` had |
| BuildConfig.BuiltinsConfig | src/build-config.ts:14-34 | the `builtins` plugin appends the alias list after the user's aliases |
| BuildConfig.BuildConfigHook | src/build-config.ts:39-68 | `base` defaults to `./` only when nullish, and `build` becomes `BuildConfigBuild` of the old value |
| ConfigMerge.BuildDefaults | src/build-config.ts:43-54 | `cssCodeSplit` becomes `false` and `assetsDir` becomes `''` only when nullish; user values and the other fields survive |
| ConfigMerge.FreezeDefault | src/build-config.ts:77 | `freeze` becomes `false` only when nullish; `format` and the other fields are kept |
| ConfigMerge.FreezeOutputs | src/build-config.ts:73-82 | a missing output becomes `{ freeze: false }`; a single output or each element of an array gets `FreezeDefault`, and the array keeps its length |
| ConfigMerge.SetOutputFreeze | src/build-config.ts:73-82 | the in-place loop leaves exactly `FreezeOutputs` in `output` and changes nothing else |
| ConfigMerge.FormatDefault | index.js:177 | `format` becomes `cjs` only when undefined (`null` is kept); the other fields are kept |
| ConfigMerge.FormatOutputs | index.js:174-183 | a single output or each element of an array gets `FormatDefault`, and the array keeps its length |
| ConfigMerge.SetOutputFormat | bak/v0.11.4/use-node.js.ts:181-190 | the in-place loop leaves exactly `FormatOutputs` in `output` |
| ConfigMerge.WithExternal | index.js:148-171 | an array, string or RegExp becomes the names followed by the user's items; a function is wrapped to accept every name and otherwise delegate; an absent value becomes the names |
| ConfigMerge.ExternalAndFormatEffects | bak/v0.11.4/use-node.js.ts:134-140 | after `withExternal` and `setOutputFormat`, every listed name is external whatever form `external` had, every output has a format, and a user format is kept |
| ConfigMerge.ExternalBuild | plugins/use-node.js/index.js:46-84 | `build ??= {}` keeps every other build field; the Rollup options get the external and format step |
| ConfigMerge.SetExternalBuild | bak/v0.11.4/use-node.js.ts:136-139 | `config.build` becomes `ExternalBuild` of its old value |
| ConfigMerge.IgnoreWrapper | src/build-config.ts:88-94 | the wrapped `ignore` returns `true` iff the user predicate returned exactly `true` or the id is a listed name, and nothing else |
| ConfigMerge.WithIgnore | src/build-config.ts:84-102 | an absent `ignore` becomes the names, an array gets the names appended after its entries, and a function is wrapped by `IgnoreWrapper`; the other build fields are kept |
| ConfigMerge.FreezeAndIgnore | src/index.ts:128-135 | the renderer hook's `rollupOptions ??= {}`, `setOutputFreeze` and `withIgnore`, with the other build fields kept |
| ConfigMerge.FreezeAndIgnoreEffects | src/index.ts:133-135 | afterwards every output has a `freeze`, and every listed name is ignored whatever form `ignore` had |
| ConfigMerge.RecordToAliases | src/build-config.ts:107-111 | object entries become `{ find, replacement }` aliases in key order |
| ConfigMerge.ResolveWithAliases | src/build-config.ts:104-113 | the alias list is the user's aliases (object form converted) followed by the new ones, in order |
| ConfigMerge.ModifyAlias | src/build-config.ts:104-113 | `config.resolve` becomes `ResolveWithAliases` of its old value |
| ConfigMerge.NodeConditions | bak/v0.11.4/use-node.js.ts:123-124 | `conditions` defaults to `['node']` only when absent; the alias is kept |
| ConfigMerge.ExcludeElectron | index.js:122-125 | `electron` is appended last to `optimizeDeps.exclude`; user excludes and the esbuild options are kept |
| ConfigMerge.SetKey | index.js:118 | assigning a key of an alias object: the key maps to the value, other entries are kept in place, and a new key goes last |
| ConfigMerge.RecordAliasSet | index.js:118 | after the assignment the `electron` alias is among the record's aliases, and every alias for another key survives |
| ConfigMerge.ElectronAliasResolve | index.js:107-119 | the serve `resolve` has the `conditions` of `NodeConditions` and an alias |
| ConfigMerge.ElectronAliasEffect | index.js:113-119 | the `electron` alias is configured, every other user alias survives, and an alias array gets it appended last |
| ConfigMerge.ServeElectron | index.js:105-126 | the serve hook leaves `resolve` as `ElectronAliasResolve` and `optimizeDeps` as `ExcludeElectron` of the old values |
| ConfigMerge.ServeDefaults | bak/v0.11.4/use-node.js.ts:122-132 | the serve branch leaves `resolve` as `NodeConditions` and `optimizeDeps` as `ExcludeElectron` of the old values |
| ViteConfig.CaptureName | src/index.ts:138-140 | what the expression `^(?:node:)?(…)$` over the names captures is one of the names, and the source is that name with or without one `node:` |
| ViteConfig.CaptureNameMatches | src/index.ts:138 | the expression matches iff the source is a listed name, optionally preceded by one `node:` |
| Renderer.AliasCatchesBuiltins | src/index.ts:137-140 | every entry of `builtins`, with or without `node:`, is caught by the renderer alias, and `$1` hands the resolver the bare public name |
| Renderer.CacheDir | src/index.ts:120-123 | the cache directory is the first `node_modules` directory found, or the cwd, joined with `.vite-electron-renderer` |
| Renderer.ArtifactPath | src/index.ts:144 | the artifact lies inside the cache directory and ends in `.mjs` |
| Renderer.RendererBuild | src/index.ts:128-135 | `config.build` is created when absent and gets Rollup and CommonJS options; the user's `cssCodeSplit` and `assetsDir` are kept, since this hook sets no default for them |
| Renderer.RendererBuildEffects | src/index.ts:128-135 | every output object has a `freeze` and a user `freeze` is kept, `external` is kept, and `electron` and every built-in are ignored whatever form `ignore` had |
| Renderer.RendererPlugin.ArtifactText | src/index.ts:149-160 | `electron` gets its template and a public built-in gets `getSnippets`; the user's resolver decides the rest, and only an unusable user result gives nothing to write |
| Renderer.RendererPlugin.Config | src/index.ts:119-185 | sets `cacheDir`; `base ??= './'`; `build` gets freeze and ignore; the renderer alias is appended after the user's aliases |
| Renderer.RendererPlugin.CustomResolver | src/index.ts:141-175 | a remembered source returns its id without touching the disk or the user's resolver; an existing artifact is never rewritten; otherwise its directory is ensured and the chosen text written; the user's resolver is asked only for a non-built-in |
| Optimizer.DetectNamespace | src/optimizer.ts:98-125 | with a manifest, CommonJS iff its `type` is not `module`; without one, CommonJS iff the module resolves to a file not ending in `.mjs`, and ES module when resolution fails |
| Optimizer.HasMjsExtension | src/optimizer.ts:114 | `path.extname` is `.mjs` only for a file name that ends in `.mjs` with something other than `/` before the dot |
| Optimizer.IsBareImport | src/optimizer.ts:75 | the filter `^[\w@]` never lets a relative, absolute or `\0`-prefixed id through |
| Optimizer.OnResolve | src/optimizer.ts:74-126 | only bare ids outside `electronBuiltins` are claimed, always with their own id as path; a user entry decides before the disk (`false` leaves the id to Vite) |
| Optimizer.BuiltinsNeverClaimed | src/optimizer.ts:77-80 | `electron` and every `builtins` entry are left to Vite, whatever the user's `modules` map says |
| Optimizer.OverrideBeforeProbing | src/optimizer.ts:82-96 | with a user entry, no answer of the disk or of `require.resolve` changes the result |
| Optimizer.ManifestDecides | src/optimizer.ts:106-110 | when the manifest exists, how the module directory resolves is never consulted |
| Optimizer.CjsContentsLines | src/optimizer.ts:131-144 | line by line, the CommonJS contents define `__cjs_require`, require the id through it, then carry lib-esm's text with trailing white space trimmed |
| Optimizer.OnLoadCjs | src/optimizer.ts:127-145 | lib-esm is asked for the module's own property names; read line by line, the contents are the `__cjs_require` prelude and then lib-esm's lines |
| Optimizer.EsmBuildOptions | src/optimizer.ts:154-163 | the user's build options override every default; unless overridden, `outfile`, `external` (`electronBuiltins`), `entryPoints` and `format: 'esm'` are set |
| Optimizer.EsmOutfileDir | src/optimizer.ts:151-152 | the directory ensured for an ES module is `cache_dir/<id>` |
| Optimizer.MetafileOutsideViteCache | src/optimizer.ts:48-56 | the metafile is not under `node_modules/.vite`, so removing Vite's cache never removes it |
| Optimizer.InvalidatedFiles | src/optimizer.ts:55-63 | after a flag change no file is left under `.vite`, the metafile holds the new flag, and every other file is kept |
| Optimizer.RerunIsNoOp | src/optimizer.ts:50-55 | assuming the `JSON.parse` reading (the `readFlag` parameter) gives back the flag from the metadata text the hook writes, the next start with the same flag reads that flag back |
| Optimizer.WithEsbuildPlugin | src/optimizer.ts:34-37 | the esbuild plugin is appended last to the user's esbuild plugins, or is the only one |
| Optimizer.OptimizerState.constructor | src/optimizer.ts:16-17 | the module-level `node_modules_path` and `cache_dir` start `undefined`; every plugin and esbuild plugin of the module shares this one object |
| Optimizer.PreBundle.Config | src/optimizer.ts:30-64 | no `node_modules` found means failure, with `node_modules_path` set to `undefined` and nothing else changed; otherwise both shared paths are set and the plugin registered; a stored flag equal to the current one leaves the disk alone, and any other value invalidates it |
| Optimizer.PreBundle.OnLoadEsm | src/optimizer.ts:147-166 | with `cache_dir` still `undefined` nothing happens and there is no answer; otherwise the outfile's directory is ensured and esbuild's bundle written to the options' `outfile`; the answer is the text at the plugin's own outfile path |
| Html.FindTag | src/cjs-shim.ts:45 | the first (leftmost) match of the head-tag expression from a position, or no match anywhere |
| Html.InsertAfterHead | src/cjs-shim.ts:70-76 | a page without an opening head tag is unchanged; otherwise the text sits right after the first one, with everything before and after it unchanged |
| Html.InsertBeforeClosingHead | index.js:207 | a page without a closing head tag is unchanged; otherwise the text sits right before the first one, with everything before and after it unchanged |
| Html.FirstHeadStable | src/cjs-shim.ts:70-76 | text inserted after the first `<head>` leaves that tag the first match |
| Html.InsertAfterHeadTwice | src/cjs-shim.ts:70-76 | two insertions after the first `<head>` leave the second inserted text before the first |
| CjsShimPlugin.RewriteRequest | src/cjs-shim.ts:58-62 | a request starting with `./` is redirected to `./<assetsDir>/…`; any other request is left alone |
| CjsShimPlugin.ShimHtml | src/cjs-shim.ts:42-79 | no answer unless the output is CommonJS; a page without a head tag comes back unchanged |
| CjsShimPlugin.ShimHtmlPlacement | src/cjs-shim.ts:45-78 | the page becomes: everything up to the first `<head>`, the exports shim, the require-id shim when `assetsDir` is non-empty, then the rest of the page unchanged |
| ViteConfig.IsCjsOutput | src/cjs-shim.ts:26-38 | the output is CommonJS iff one of the configured output objects has format `cjs` or `commonjs`; no output, or an empty array, is not |
| CjsShimPlugin.CjsShim.Config | src/cjs-shim.ts:10-22 | `config.build` becomes `BuildDefaults` of its old value |
| CjsShimPlugin.CjsShim.ConfigResolved | src/cjs-shim.ts:23-41 | `isCjs` becomes true when the output, or one of the array's outputs, has format `cjs`/`commonjs`, and is never cleared |
| CjsShimPlugin.CjsShim.TransformIndexHtml | src/cjs-shim.ts:42-79 | the step-by-step insertions compute exactly `ShimHtml` |
| Snippets.NamedKeys | index.js:86-88 | the named keys are the keys other than `default`, in order |
| Snippets.MemberLines | index.js:86-89 | one `export const k = _M_.k;` per named key, in key order |
| Snippets.TemplateSnippet | index.js:90-94 | the trimmed template equals the require line, the default block and the member lines joined by line feeds |
| Snippets.ModuleSnippetLines | index.js:84-94 | read line by line, the snippet is the require line, the two default lines, then one line per named key |
| Snippets.ModuleSnippetExports | index.js:85-94 | the snippet has exactly one default export, and one `export const` per key other than `default` |
| Snippets.ModuleSnippet | index.js:80-84 | a snippet is never empty and opens with the line that requires the module, so a cached one is never mistaken for a miss |
| Snippets.SnippetCacheHit | index.js:80-81 | a cache hit returns the snippet built for that id |
| Snippets.SnippetCacheInsert | index.js:96 | storing the snippet for a new id keeps the cache consistent with one `require` per id |
| Snippets.ModuleCache.Get | index.js:80-81 | a hit gives the stored snippet (never empty), a miss gives `''` |
| Snippets.ModuleCache.Require | index.js:83-97 | the snippet for the id is built after one logged `require`, and stored |
| Snippets.GetSnippets | src/index.ts:231-236 | `getSnippets` opens with the `avoid_parse_require` line, and every later line is lib-esm's |
| PackageDeps.FirstFound | plugins/use-node.js/index.js:211-218 | the first directory, in the order given, whose file exists; nothing iff none has it |
| PackageDeps.RootFirst | plugins/use-node.js/index.js:178 | the root is tried before the cwd |
| PackageDeps.LookupFile | plugins/use-node.js/index.js:211-218 | the loop computes exactly `FirstFound` over the disk |
| PackageDeps.IsEsmRootFirst | plugins/use-node.js/index.js:182-189 | a dependency is an ES module iff its manifest under the root says `type: module`, or, when the root has none, its manifest under the cwd does |
| PackageDeps.Select | plugins/use-node.js/index.js:181-196 | keeps the names whose test has the given outcome, in order |
| PackageDeps.SelectPartition | plugins/use-node.js/index.js:181-196 | the two selections together hold every name exactly as often as the input |
| PackageDeps.PartitionCounts | plugins/use-node.js/index.js:181-196 | every dependency lands in exactly one of the CommonJS and ES-module lists |
| PackageDeps.DepsStep | plugins/use-node.js/index.js:186-195 | one loop step appends the dependency to the ES-module list iff its manifest says `type: module`, else to the CommonJS list |
| PackageDeps.SortDependencies | plugins/use-node.js/index.js:181-196 | the loop yields exactly the two order-preserving lists |
| PackageDeps.ScanDependencies | plugins/use-node.js/index.js:177-197 | the lists for the dependencies of the first `package.json` found |
| LegacyRenderer.Paired | index.js:149 | each built-in is directly followed by its `node:` form, twice the length |
| LegacyRenderer.ExternalNames | index.js:149-151 | the build plugin's names: the paired built-ins, then `electron`, then the dependencies |
| LegacyRenderer.ExternalNamesMembership | index.js:149-151 | a name is external iff it is a built-in with or without `node:`, `electron`, or a dependency |
| LegacyRenderer.TruthyOr | index.js:133 | `if (!base)`: `undefined`, `null` and `''` are replaced, any other value kept |
| LegacyRenderer.UndefinedOr | index.js:139 | `=== undefined`: only `undefined` is replaced, `null` is kept |
| LegacyRenderer.LegacyBuild | index.js:135-183 | `assetsDir`/`cssCodeSplit` defaulted only when undefined, then the external and format step over the external names |
| LegacyRenderer.LegacyPlugin.constructor | index.js:10-13 | the public built-ins, `options.dependencies` or `[]`, and an empty snippet cache |
| LegacyRenderer.LegacyPlugin.ConfigResolvedNode | index.js:23-31 | the keys of `root/package.json`'s dependencies are appended when the file exists |
| LegacyRenderer.LegacyPlugin.ResolveId | index.js:32-36 | the first `node:` is removed, and the result is returned iff it is a built-in or a dependency |
| LegacyRenderer.LegacyPlugin.ResolveIdBuiltin | index.js:33-35 | a built-in resolves to itself with and without `node:` |
| LegacyRenderer.LegacyPlugin.Load | index.js:78-98 | only owned ids get a snippet; a cached snippet is returned unchanged; `require` runs once per id |
| LegacyRenderer.LegacyPlugin.ServeConfig | index.js:105-126 | the serve plugin's `config`: `ElectronAliasResolve` and `ExcludeElectron` |
| LegacyRenderer.LegacyPlugin.BuildConfig | index.js:131-184 | `base` defaulted when falsy, `build` becomes `LegacyBuild` over the external names |
| LegacyRenderer.LegacyPlugin.TransformIndexHtml | index.js:191-209 | no answer unless some output is CommonJS; otherwise the polyfill and a line feed go right before the first `</head>`, and a page without one is unchanged |
| UseNode.BuiltinsAsWritten | plugins/use-node.js/index.js:171 | as written: the public names, then one `[m, 'node:' + m]` array per name |
| UseNode.AsWrittenLacksPrefixed | plugins/use-node.js/index.js:171 | as written, no `node:` string is a member of `builtins` |
| UseNode.AsWrittenCounterexample | plugins/use-node.js/index.js:171 | with `builtinModules = ['fs']`, `node:fs` is in the flat table but not in the table as written |
| UseNode.ResolvedPartition | plugins/use-node.js/index.js:178-197 | without `options.resolve`, each manifest dependency is in exactly one list, with the right manifest type |
| UseNode.ResolvedModules | plugins/use-node.js/index.js:168-209 | the built-in list is the corrected flat table of src/utils.ts:4, not the pairs of line 171; without `options.resolve` the two dependency lists hold each manifest dependency exactly as often as the manifest |
| UseNode.ResolveHookEffect | plugins/use-node.js/index.js:199-202 | a truthy `options.resolve` result replaces the CommonJS list entirely; after a falsy one the list is what the hook left in the array it was handed, so edits in place are kept; the built-ins and ES-module list are unaffected |
| UseNode.ResolveModules | plugins/use-node.js/index.js:168-209 | the body computes exactly `ResolvedModules`, so with the corrected flat built-in table |
| UseNode.UseNodePlugin.Config | plugins/use-node.js/index.js:20-86 | serve: `ElectronAliasResolve` and `ExcludeElectron`, build untouched; build: `ExternalBuild` over `CJS_modules` plus `electron`, resolve and optimizeDeps untouched |
| UseNode.UseNodePlugin.ConfigResolved | plugins/use-node.js/index.js:87-93 | the resolved lists, with the corrected flat built-in table, are pushed and `CJS_modules` gets `builtins ++ dependencies` appended |
| UseNode.UseNodePlugin.ResolveId | plugins/use-node.js/index.js:94-99 | the first `node:` is removed, and the result is returned iff it is in `CJS_modules` |
| UseNode.UseNodePlugin.ResolveIdModule | plugins/use-node.js/index.js:97-98 | a module resolves to itself with and without `node:` |
| UseNode.UseNodePlugin.Load | plugins/use-node.js/index.js:141-160 | only ids in `CJS_modules` get a snippet; memoised per id with one `require` per id |
| UseNode.FreshBuildExternal | plugins/use-node.js/index.js:52 | since `config` runs before `configResolved`, a fresh plugin's build makes only `electron` external |
| UseNode.ResolvedBuiltinsBothForms | src/utils.ts:4 | with the flat table, every public built-in is in `builtins` in both forms |
| UseNodeV011.TableMembership | bak/v0.11.4/use-node.js.ts:269 | the table holds exactly `electron` and the strings of the flat table |
| UseNodeV011.Table | bak/v0.11.4/use-node.js.ts:269 | twice as many entries as public names, plus one, with `electron` right after the public names |
| UseNodeV011.ResolvedPartition | bak/v0.11.4/use-node.js.ts:279-292 | each dependency is in exactly one list: ES module iff its manifest is found with `type: module` |
| UseNodeV011.ResolveModules | bak/v0.11.4/use-node.js.ts:266-300 | the body computes exactly `ResolvedModules` |
| UseNodeV011.SuffixInjective | bak/v0.11.4/use-node.js.ts:230 | different worker counts give different `$n` suffixes |
| UseNodeV011.WorkerTemplate | bak/v0.11.4/use-node.js.ts:239-242 | the trimmed template is the holder line, then lib-esm's text with trailing white space trimmed |
| UseNodeV011.WorkerSnippetLines | bak/v0.11.4/use-node.js.ts:239-242 | the first line of the snippet is `const _M_<suffix> = require("<id>");` |
| UseNodeV011.WorkerSnippetNonEmpty | bak/v0.11.4/use-node.js.ts:227 | a snippet is never empty, so a cached one is never mistaken for a miss |
| UseNodeV011.UseNodeV011Plugin.HoldersDistinct | bak/v0.11.4/use-node.js.ts:252-258 | the holder suffixes handed out are pairwise distinct |
| UseNodeV011.UseNodeV011Plugin.constructor | bak/v0.11.4/use-node.js.ts:87-92 | empty lists, no counter, and a cache holding only the `electron` template |
| UseNodeV011.UseNodeV011Plugin.Config | bak/v0.11.4/use-node.js.ts:111-156 | records the command and pushes the resolved lists; serve applies `NodeConditions` and `ExcludeElectron`; a build with `nodeIntegration` applies `ExternalBuild` over `builtins`; nothing else changes |
| UseNodeV011.UseNodeV011Plugin.ResolveId | bak/v0.11.4/use-node.js.ts:101-106 | returns `\0` + source iff serving (or in a worker), the source is not an ES-module dependency and it is a built-in |
| UseNodeV011.UseNodeV011Plugin.PrefixRoundTrip | bak/v0.11.4/use-node.js.ts:224 | `load` strips the prefix `resolveId` added and gets back the original built-in |
| UseNodeV011.UseNodeV011Plugin.GetWorkerIncrementCount | bak/v0.11.4/use-node.js.ts:252-258 | in a worker build it returns 0, 1, … and advances the counter; otherwise it returns nothing and changes nothing |
| UseNodeV011.UseNodeV011Plugin.BuildSnippet | bak/v0.11.4/use-node.js.ts:237-242 | the snippet uses lib-esm's text generated with the holder suffix as `conflict` |
| UseNodeV011.UseNodeV011Plugin.Load | bak/v0.11.4/use-node.js.ts:193-249 | inactive outside serve/worker; answers iff the unprefixed id is a built-in; `electron` and cached ids are served from the cache, and a new id is synthesised once with the next suffix |

## Left out

- The file system, `require`, `createRequire`, `package.json` reads and `esbuild.build` are
  parameters of the model: the `Disk` object, functions from id to keys or manifest type,
  `cjs_require.resolve` as a function that may fail, and esbuild as a function from build
  options to an optional bundle.
- `lib-esm`'s export text is an uninterpreted function of (names, conflict). Contracts about
  snippets built with it state only the part the plugin writes.
- The fixed `electron` module templates are string parameters, not their text: src/index.ts:22-85,
  and electron-renderer.js, which index.js and plugins/use-node.js/index.js point the alias at.
  Their runtime behaviour depends on browser or worker globals.
- The runtime patch of `Module._resolveFilename` inside the require-id shim is not executed. Its
  string rewrite is modelled by `CjsShimPlugin.RewriteRequest`; its insertion into the page is
  modelled.
- install.js, install.mjs and vite.config.ts are not part of this model. They are build scripts
  that write files around lib-esm.
- Vite and Rollup hook order is not modelled: each hook is a method callable in any order. The
  one order effect the source relies on is stated by `UseNode.FreshBuildExternal`.
- Console and COLOURS logging are not modelled. `Date.now()` is a number parameter.
- Regular expressions are not modelled as such. The alias expression and the head-tag
  expressions are modelled by the sets of strings they match. User keys are not escaped in
  src/index.ts:138, and the model treats them as literal names.
- A `$` pattern in text passed to `String.replace` is not interpreted. The model inserts the
  shim and polyfill text literally.
- `path.join`, `path.resolve` and `normalizePath` are modelled as concatenation with `/`
  (`Js.PathJoin`) and a given root (`FileSystem.RootDir`). `.`/`..` segments and duplicate
  slashes are not normalised.
- `JSON.stringify` of the metadata is modelled by a fixed text. `JSON.parse` followed by the
  `nodeIntegration` lookup is a parameter. Extra keys merged by `Object.assign` are not modelled.
- `ConfigMerge.WithExternal`: a Rollup `external` function's `importer` and `isResolved`
  arguments are not modelled, because the wrapper only passes them through.
- The commented-out worker configuration at bak/v0.11.4/use-node.js.ts:142-153 is not part of
  this model, because it has no effect.
- `UseNodeV011.UseNodeV011Plugin.ResolveId` and `UseNodeV011.UseNodeV011Plugin.Load` require
  `config` to have run. The source reads `env.command` and throws before then.
- `UseNodeV011.UseNodeV011Plugin.constructor` requires a non-empty `electron` template. The
  source's template is a fixed non-empty string.
- `Optimizer.PreBundle.OnLoadEsm` does not model what esbuild does beyond writing one bundle
  to the options' `outfile`.
- `Optimizer.OnResolve` takes the filter `^[\w@]` as a test on the first character; the rest of
  esbuild's filter machinery is not modelled.
- `Optimizer.OnResolve` takes `node_modules_path` as a string. Before a `config` hook has set it,
  or after one that found no `node_modules`, `path.join` throws in the source (src/optimizer.ts:102).
  The model has no error path there.
- `Renderer.RendererPlugin.CustomResolver` treats one call as one step. In the source, the
  `await` on `options.resolve[source]()` (src/index.ts:154) lets two resolutions of the same
  source run interleaved. Both can miss the memo and the disk check, and both then write. So
  "an existing artifact is never rewritten" holds only for calls made one after another.
- `Snippets.ModuleCache.Require` takes `require(id)` to succeed (index.js:83,
  plugins/use-node.js/index.js:145). A module that fails to load throws in the source, and the
  `Load` methods built on it have no error path for that.
- `Snippets.GetSnippets` and `Optimizer.OnLoadCjs` take `require(module)` to succeed
  (src/index.ts:232, src/optimizer.ts:132). A module that fails to load throws in the source.
- `PackageDeps.ScanDependencies` and `Optimizer.DetectNamespace` take every `package.json` read
  to succeed (plugins/use-node.js/index.js:180 and 187, src/optimizer.ts:107). A malformed
  manifest throws in the source.
- `FileSystem.Disk.WriteFile`, `FileSystem.Disk.MakeDirs` and `FileSystem.Disk.RemoveRecursive`
  always succeed: `writeFileSync`, `mkdirSync` and `rmSync` are taken not to throw. In the source,
  EACCES, ENOSPC and a file among a directory's ancestors make them throw. The callers
  (`Renderer.RendererPlugin.CustomResolver`, `Optimizer.PreBundle.Config`,
  `Optimizer.PreBundle.OnLoadEsm`) therefore have no error path for a failed write.
- `Utils.EnsureDir` does not tell a file at the directory's path apart from a directory, as
  `existsSync` (src/utils.ts:8) does not. It then leaves the disk unchanged. The source's next
  `writeFileSync` under that path (src/index.ts:163, src/optimizer.ts:62) throws ENOTDIR. In the
  model, that write succeeds and stores the text under a path below a file.
- The test files, examples and `.d.ts` files are not part of this model.

## Findings

| source | as written | input that shows it | evidently intended | confidence | as-written member | corrected member |
|---|---|---|---|---|---|---|
| plugins/use-node.js/index.js:171 | `builtins.push(...builtins.map(m => [m, 'node:' + m]))` pushes two-element arrays, not strings, so no `node:` string is ever a member of `builtins` (and so of `CJS_modules`) | `builtinModules = ['fs']`: `builtins` is `['fs', ['fs', 'node:fs']]`, and `builtins.includes('node:fs')` is false | the flat table of src/utils.ts:4, `['fs', 'node:fs']`. Because `resolveId` removes one `node:` before the lookup, `node:fs` itself is still claimed. The difference shows for an id that still carries `node:` after one removal (`node:node:fs` gives undefined as written, `node:fs` with the flat table). It also shows in the `external` of a `config` that runs after a `configResolved`, which gets the arrays instead of `node:fs` | not executed | UseNode.AsWrittenCounterexample | Utils.BuiltinsMembership |
