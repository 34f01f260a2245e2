/**
 * src/cjs-shim.ts: when the renderer is built as CommonJS, `index.html` gets a script that
 * defines `exports` and, when assets live in a sub-directory, a script that redirects relative
 * `require` calls into that directory. Both go right after the first opening head tag.
 */
module CjsShimPlugin {
  import opened Js
  import opened ViteConfig
  import opened ConfigMerge
  import opened Html

  /** The `shim-exports` script. */
  const ExportsShim := "<script id=\"shim-exports\">var exports = typeof module !== 'undefined' ? module.exports : {};</script>"

  /** The `shim-require-id` script, up to the directory it writes into its rewrite. */
  const RequireIdShimHead :=
    "<script id=\"shim-require-id\">\n; (function () {\n  if (typeof require !== 'function') return;\n"
    + "  var Module = require('module');\n  var _resolveFilename = Module._resolveFilename;\n"
    + "  Module._resolveFilename = function (request, parent, isMain, options) {\n"
    + "    // \"assetsDir\" is always at the same level as \"index.html\"\n    var prefix = './';\n"
    + "    if (request.startsWith(prefix)) {\n      try {\n        // TODO: The way is more elegant.\n"
    + "        var newRequest = request.replace(prefix, prefix + '"

  /** The `shim-require-id` script after the directory. */
  const RequireIdShimTail :=
    "');\n        return _resolveFilename.call(this, newRequest, parent, isMain, options);\n"
    + "      } catch (error) { }\n    }\n"
    + "    return _resolveFilename.call(this, request, parent, isMain, options);\n  };\n})();\n</script>"

  /** The `shim-require-id` script for an assets directory. */
  function RequireIdShim(assetsDir: string): string
  {
    RequireIdShimHead + assetsDir + "/" + RequireIdShimTail
  }

  /**
   * What the require-id shim does to a module request inside Electron: a request relative to
   * the page is redirected into the assets directory, any other request is left alone.
   */
  function RewriteRequest(request: string, assetsDir: string): (r: string)
    ensures !StartsWith(request, "./") ==> r == request
    ensures StartsWith(request, "./") ==> r == "./" + assetsDir + "/" + request[2..]
  {
    if StartsWith(request, "./") then
      assert request == "./" + request[2..];
      ReplaceFirstAtStart("./", request[2..], "./" + assetsDir + "/");
      ReplaceFirst(request, "./", "./" + assetsDir + "/")
    else request
  }

  /**
   * What `transformIndexHtml` makes of a page: nothing unless the output is CommonJS; otherwise
   * the require-id shim (for a non-empty assets directory) and then the exports shim, each right
   * after the first opening head tag.
   */
  function ShimHtml(isCjs: bool, assetsDir: string, html: string): (r: Option<string>)
    ensures r.None? <==> !isCjs
    ensures isCjs && FindTag(html, 0, false).None? ==> r == Some(html)
  {
    if !isCjs then None
    else
      var withRequire := if assetsDir != "" then InsertAfterHead(html, "\n" + RequireIdShim(assetsDir)) else html;
      Some(InsertAfterHead(withRequire, "\n" + ExportsShim))
  }

  /** What goes after the head tag: the exports shim, then the require-id shim when there is an assets directory. */
  function ShimBlock(assetsDir: string): string
  {
    ("\n" + ExportsShim) + (if assetsDir != "" then "\n" + RequireIdShim(assetsDir) else "")
  }

  /**
   * Where the shims land: both directly after the first opening head tag, the exports shim
   * first (it was inserted last at the same place), everything else of the page unchanged.
   */
  lemma ShimHtmlPlacement(assetsDir: string, html: string)
    requires FindTag(html, 0, false).Some?
    ensures var e := FindTag(html, 0, false).value.1;
      ShimHtml(true, assetsDir, html) == Some(html[..e] + ShimBlock(assetsDir) + html[e..])
  {
    var require := if assetsDir != "" then "\n" + RequireIdShim(assetsDir) else "";
    SpliceAfterHead(html, "\n" + ExportsShim, require, assetsDir != "");
  }

  /** Inserting `require` (when there is one) and then `exports` after the head tag puts `exports` first. */
  lemma SpliceAfterHead(html: string, exports: string, require: string, withRequire: bool)
    requires FindTag(html, 0, false).Some?
    ensures var e := FindTag(html, 0, false).value.1;
      InsertAfterHead(if withRequire then InsertAfterHead(html, require) else html, exports)
      == html[..e] + (exports + (if withRequire then require else "")) + html[e..]
  {
    var e := FindTag(html, 0, false).value.1;
    if withRequire {
      InsertAfterHeadTwice(html, require, exports);
      Regroup(html[..e], exports, require, html[e..]);
    } else {
      assert exports + "" == exports;
    }
  }

  lemma Regroup(a: string, b: string, c: string, d: string)
    ensures a + b + c + d == a + (b + c) + d
  {
  }

  /** The plugin's closure: the resolved configuration it keeps and the `isCjs` flag. */
  class CjsShim {
    /** Set once a resolved configuration had a CommonJS output; never cleared. */
    var isCjs: bool
    /** `config.build.assetsDir` of the resolved configuration. */
    var assetsDir: string

    constructor ()
      ensures !isCjs && assetsDir == ""
    {
      isCjs := false;
      assetsDir := "";
    }

    /** The `config` hook: assets next to `index.html` and one CSS file unless the user chose otherwise. */
    method Config(config: UserConfig)
      modifies config`build
      ensures config.build == Has(BuildDefaults(old(config.build)))
    {
      var build := OrDefault(config.build, EmptyBuild).value;
      build := build.(cssCodeSplit := OrDefault(build.cssCodeSplit, false));
      build := build.(assetsDir := OrDefault(build.assetsDir, ""));
      config.build := Has(build);
    }

    /** The `configResolved` hook. */
    method ConfigResolved(output: Slot<Output>, resolvedAssetsDir: string)
      modifies this
      ensures isCjs == (old(isCjs) || IsCjsOutput(output))
      ensures assetsDir == resolvedAssetsDir
    {
      assetsDir := resolvedAssetsDir;
      if output.Has? {
        var found :=
          match output.value
          case Many(os) => exists i :: 0 <= i < |os| && IsCommonJsFormat(os[i].format)
          case Single(o) => IsCommonJsFormat(o.format);
        if found {
          isCjs := true;
        }
      }
    }

    /** The `transformIndexHtml` hook; `None` leaves the page to Vite unchanged. */
    method TransformIndexHtml(html: string) returns (r: Option<string>)
      ensures r == ShimHtml(isCjs, assetsDir, html)
    {
      if !isCjs {
        return None;
      }
      var page := html;
      if assetsDir != "" {
        page := InsertAfterHead(page, "\n" + RequireIdShim(assetsDir));
      }
      page := InsertAfterHead(page, "\n" + ExportsShim);
      return Some(page);
    }
  }
}
