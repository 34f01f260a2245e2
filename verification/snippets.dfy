/**
 * The ES-module text the plugins serve in place of a CommonJS module: it `require`s the module
 * and re-exports it. index.js and plugins/use-node.js/index.js spell the exports out one per key;
 * src/index.ts hands the key list to `lib-esm`.
 */
module Snippets {
  import opened Js

  /**
   * `libEsm({ exports: names, conflict })`'s `exports` text; `None` when no `conflict` is
   * passed. lib-esm is not part of this model, so its output is a parameter.
   */
  type LibEsm = (seq<string>, Option<string>) -> string

  // ---------------------------------------------------------------- index.js, plugins/use-node.js

  function RequireLine(id: string): string
  {
    "const _M_ = require(\"" + id + "\");"
  }

  const DefaultHolderLine := "const _D_ = _M_.default || _M_;"
  const DefaultExportLine := "export { _D_ as default };"

  function MemberLine(attr: string): string
  {
    "export const " + attr + " = _M_." + attr + ";"
  }

  /** `Object.keys(nodeModule).filter(n => n !== 'default')`. */
  function NamedKeys(keys: seq<string>): (r: seq<string>)
    ensures |r| <= |keys|
    ensures forall k :: k in r <==> k in keys && k != "default"
    ensures "default" !in keys ==> r == keys
  {
    if keys == [] then []
    else if keys[0] == "default" then NamedKeys(keys[1..])
    else [keys[0]] + NamedKeys(keys[1..])
  }

  /** One `export const` line per named key, in key order. */
  function MemberLines(keys: seq<string>): (r: seq<string>)
    ensures |r| == |NamedKeys(keys)|
    ensures forall i :: 0 <= i < |r| ==> r[i] == MemberLine(NamedKeys(keys)[i])
  {
    var names := NamedKeys(keys);
    seq(|names|, i requires 0 <= i < |names| => MemberLine(names[i]))
  }

  /**
   * The `load` snippet as the source builds it: the require line, the default block and the
   * member lines in a template literal framed by line feeds, then trimmed. The trim removes only
   * the framing line feeds: the result is the snippet's lines joined.
   */
  function TemplateSnippet(id: string, keys: seq<string>): (r: string)
    ensures r == ModuleSnippet(id, keys)
  {
    MemberLinesEndInSemicolon(keys);
    TemplateTrim(RequireLine(id), DefaultHolderLine, DefaultExportLine, MemberLines(keys));
    Trim("\n" + RequireLine(id) + "\n" + DefaultHolderLine + "\n" + DefaultExportLine + "\n"
         + Join(MemberLines(keys), "\n") + "\n")
  }

  /**
   * The snippet's lines joined. It is never the empty string, so a cached snippet always reads
   * as present, and it opens with the line that requires the module.
   */
  function ModuleSnippet(id: string, keys: seq<string>): (r: string)
    ensures r != "" && |r| >= |RequireLine(id)| && r[..|RequireLine(id)|] == RequireLine(id)
  {
    assert SnippetLines(id, keys)[0] == RequireLine(id);
    JoinHead(SnippetLines(id, keys), "\n");
    Join(SnippetLines(id, keys), "\n")
  }

  lemma MemberLinesEndInSemicolon(keys: seq<string>)
    ensures var m := MemberLines(keys);
      forall i :: 0 <= i < |m| ==> m[i] != [] && !IsWhitespace(m[i][|m[i]| - 1])
  {
    var m := MemberLines(keys);
    forall i | 0 <= i < |m| ensures m[i] != [] && !IsWhitespace(m[i][|m[i]| - 1]) {
      assert m[i][|m[i]| - 1] == ';';
    }
  }

  /** The template's shape with its pieces left abstract. */
  lemma TemplateTrim(r: string, h: string, e: string, m: seq<string>)
    requires r != [] && !IsWhitespace(r[0])
    requires e != [] && !IsWhitespace(e[|e| - 1])
    requires forall i :: 0 <= i < |m| ==> m[i] != [] && !IsWhitespace(m[i][|m[i]| - 1])
    ensures Trim("\n" + r + "\n" + h + "\n" + e + "\n" + Join(m, "\n") + "\n") == Join([r, h, e] + m, "\n")
  {
    var head := Join([r, h, e], "\n");
    HeadJoin(r, h, e);
    if m == [] {
      assert [r, h, e] + m == [r, h, e];
      assert "\n" + r + "\n" + h + "\n" + e + "\n" + Join(m, "\n") + "\n" == "\n" + head + "\n\n";
      TrimFramed("\n", head, "\n\n");
    } else {
      TemplateTrimMembers(r, h, e, m);
    }
  }

  lemma HeadJoin(r: string, h: string, e: string)
    requires r != [] && e != []
    ensures Join([r, h, e], "\n") == r + "\n" + h + "\n" + e
    ensures Join([r, h, e], "\n")[0] == r[0]
    ensures var j := Join([r, h, e], "\n"); j[|j| - 1] == e[|e| - 1]
  {
    assert [r, h, e][1..] == [h, e] && [h, e][1..] == [e];
    assert Join([e], "\n") == e;
    assert Join([h, e], "\n") == h + "\n" + e;
  }

  lemma TemplateTrimMembers(r: string, h: string, e: string, m: seq<string>)
    requires r != [] && !IsWhitespace(r[0])
    requires m != [] && m[|m| - 1] != [] && !IsWhitespace(m[|m| - 1][|m[|m| - 1]| - 1])
    requires e != []
    ensures Trim("\n" + r + "\n" + h + "\n" + e + "\n" + Join(m, "\n") + "\n") == Join([r, h, e] + m, "\n")
  {
    HeadJoin(r, h, e);
    JoinAppend([r, h, e], m, "\n");
    var all := Join([r, h, e] + m, "\n");
    assert "\n" + r + "\n" + h + "\n" + e + "\n" + Join(m, "\n") + "\n" == "\n" + all + "\n";
    assert ([r, h, e] + m)[|[r, h, e] + m| - 1] == m[|m| - 1];
    JoinEndsWithLast([r, h, e] + m, "\n");
    assert all[0] == r[0];
    TrimFramed("\n", all, "\n");
  }

  lemma NoNewlineConcat(a: string, b: string)
    requires NoNewline(a) && NoNewline(b)
    ensures NoNewline(a + b)
  {
  }

  lemma RequireLineOneLine(id: string)
    requires NoNewline(id)
    ensures NoNewline(RequireLine(id))
  {
    NoNewlineConcat("const _M_ = require(\"", id);
    NoNewlineConcat("const _M_ = require(\"" + id, "\");");
  }

  lemma MemberLineOneLine(k: string)
    requires NoNewline(k)
    ensures NoNewline(MemberLine(k))
  {
    NoNewlineConcat("export const ", k);
    NoNewlineConcat("export const " + k, " = _M_.");
    NoNewlineConcat("export const " + k + " = _M_.", k);
    NoNewlineConcat("export const " + k + " = _M_." + k, ";");
  }

  /** The lines the snippet is made of. */
  function SnippetLines(id: string, keys: seq<string>): seq<string>
  {
    [RequireLine(id), DefaultHolderLine, DefaultExportLine] + MemberLines(keys)
  }

  lemma SnippetLinesOneLine(id: string, keys: seq<string>)
    requires NoNewline(id) && forall i :: 0 <= i < |keys| ==> NoNewline(keys[i])
    ensures forall i :: 0 <= i < |SnippetLines(id, keys)| ==> NoNewline(SnippetLines(id, keys)[i])
  {
    var m := MemberLines(keys);
    var parts := SnippetLines(id, keys);
    RequireLineOneLine(id);
    assert NoNewline(DefaultHolderLine) && NoNewline(DefaultExportLine);
    forall i | 0 <= i < |parts| ensures NoNewline(parts[i]) {
      if i >= 3 {
        var k := NamedKeys(keys)[i - 3];
        assert k in keys;
        MemberLineOneLine(k);
        assert parts[i] == m[i - 3] == MemberLine(k);
      }
    }
  }

  /**
   * Read back line by line, the snippet is the require line, the two default-export lines and
   * one member line per key other than `default`, in key order; nothing is lost to the trim.
   */
  lemma ModuleSnippetLines(id: string, keys: seq<string>)
    requires NoNewline(id) && forall i :: 0 <= i < |keys| ==> NoNewline(keys[i])
    ensures Lines(ModuleSnippet(id, keys)) == SnippetLines(id, keys)
  {
    SnippetLinesOneLine(id, keys);
    LinesJoin(SnippetLines(id, keys));
  }

  lemma MemberLineShape(k: string)
    ensures StartsWith(MemberLine(k), "export const ") && MemberLine(k) != DefaultExportLine
  {
    var p := "export const ";
    assert MemberLine(k) == p + (k + " = _M_." + k + ";");
    assert MemberLine(k)[7] == 'c' != DefaultExportLine[7];
  }

  lemma SnippetLinesExports(id: string, keys: seq<string>)
    ensures var lines := SnippetLines(id, keys);
      |lines| == 3 + |NamedKeys(keys)|
      && (forall j :: 0 <= j < |lines| ==> (lines[j] == DefaultExportLine <==> j == 2))
      && (forall j :: 0 <= j < |lines| ==> (StartsWith(lines[j], "export const ") <==> j >= 3))
  {
    var lines := SnippetLines(id, keys);
    var p := "export const ";
    assert lines[0][0] == 'c' != p[0];
    assert lines[1][0] == 'c' != p[0];
    assert lines[2][7] == '{' != p[7];
    assert lines[0] != DefaultExportLine && lines[1] != DefaultExportLine;
    forall j | 3 <= j < |lines| ensures lines[j] != DefaultExportLine && StartsWith(lines[j], p) {
      MemberLineShape(NamedKeys(keys)[j - 3]);
    }
  }

  /**
   * Exactly one line is the default export, and the lines that export a named binding are
   * exactly the member lines: as many as there are keys other than `default`.
   */
  lemma ModuleSnippetExports(id: string, keys: seq<string>)
    requires NoNewline(id) && forall i :: 0 <= i < |keys| ==> NoNewline(keys[i])
    ensures var lines := Lines(ModuleSnippet(id, keys));
      |lines| == 3 + |NamedKeys(keys)|
      && (forall j :: 0 <= j < |lines| ==> (lines[j] == DefaultExportLine <==> j == 2))
      && (forall j :: 0 <= j < |lines| ==> (StartsWith(lines[j], "export const ") <==> j >= 3))
  {
    ModuleSnippetLines(id, keys);
    SnippetLinesExports(id, keys);
  }

  predicate NoDuplicates(s: seq<string>)
  {
    forall i, j :: 0 <= i < j < |s| ==> s[i] != s[j]
  }

  lemma NoDuplicatesAppend(s: seq<string>, x: string)
    requires NoDuplicates(s) && x !in s
    ensures NoDuplicates(s + [x])
  {
    forall i, j | 0 <= i < j < |s + [x]| ensures (s + [x])[i] != (s + [x])[j] {
      if j == |s| {
        assert (s + [x])[i] == s[i];
      }
    }
  }

  /** A snippet cache: each entry is its module's snippet, and `require` ran exactly once per entry. */
  ghost predicate SnippetCache(cache: map<string, string>, log: seq<string>, objectKeys: string -> seq<string>)
  {
    (forall x :: x in cache ==> cache[x] == ModuleSnippet(x, objectKeys(x)))
    && (forall x :: x in log <==> x in cache)
    && NoDuplicates(log)
  }

  lemma SnippetCacheInsert(cache: map<string, string>, log: seq<string>, objectKeys: string -> seq<string>, id: string)
    requires SnippetCache(cache, log, objectKeys) && id !in cache
    ensures SnippetCache(cache[id := ModuleSnippet(id, objectKeys(id))], log + [id], objectKeys)
  {
    NoDuplicatesAppend(log, id);
  }

  /** A cached snippet is the module's snippet and never the empty string, so `if (cache)` always takes a hit. */
  lemma SnippetCacheHit(cache: map<string, string>, log: seq<string>, objectKeys: string -> seq<string>, id: string)
    requires SnippetCache(cache, log, objectKeys) && id in cache
    ensures cache[id] == ModuleSnippet(id, objectKeys(id)) && cache[id] != ""
  {
  }

  /** The `moduleCache` Map of the `load` hooks in index.js and plugins/use-node.js/index.js. */
  class ModuleCache {
    /** `Object.keys(require(id))`. */
    const objectKeys: string -> seq<string>
    var entries: map<string, string>
    /** The ids `require` loaded, in call order. */
    ghost var requireLog: seq<string>

    /** Each entry is its module's snippet, and `require` ran exactly once per entry. */
    ghost predicate Valid()
      reads this
    {
      SnippetCache(entries, requireLog, objectKeys)
    }

    constructor (objectKeys: string -> seq<string>)
      ensures this.objectKeys == objectKeys && entries == map[] && requireLog == []
      ensures Valid()
    {
      this.objectKeys := objectKeys;
      entries := map[];
      requireLog := [];
    }

    /** `moduleCache.get(id)`, with `undefined` read as the empty string: a hit is never empty. */
    method Get(id: string) returns (cached: string)
      requires Valid()
      ensures id in entries ==> cached == ModuleSnippet(id, objectKeys(id)) && cached != ""
      ensures id !in entries ==> cached == ""
    {
      cached := "";
      if id in entries {
        cached := entries[id];
        SnippetCacheHit(entries, requireLog, objectKeys, id);
      }
    }

    /** A miss: `require` the module once, build its snippet from the template and `set` it. */
    method Require(id: string) returns (snippet: string)
      requires Valid() && id !in entries
      modifies this
      ensures Valid()
      ensures snippet == ModuleSnippet(id, objectKeys(id))
      ensures entries == old(entries)[id := snippet] && requireLog == old(requireLog) + [id]
    {
      SnippetCacheInsert(entries, requireLog, objectKeys, id);
      requireLog := requireLog + [id];
      var keys := objectKeys(id);
      snippet := TemplateSnippet(id, keys);
      entries := entries[id := snippet];
    }
  }

  // ---------------------------------------------------------------- src/index.ts

  function AvoidParseLine(name: string): string
  {
    "const avoid_parse_require = require; " + "const _M_ = avoid_parse_require(\"" + name + "\");"
  }

  lemma AvoidParseLineOneLine(name: string)
    ensures NoNewline(name) ==> NoNewline(AvoidParseLine(name))
  {
    if NoNewline(name) {
      var open1, open2 := "const avoid_parse_require = require; ", "const _M_ = avoid_parse_require(\"";
      NoNewlineConcat(open1, open2);
      NoNewlineConcat(open1 + open2, name);
      NoNewlineConcat(open1 + open2 + name, "\");");
    }
  }

  /**
   * `getSnippets(module)`: lib-esm's export text for `Object.getOwnPropertyNames(require(module))`
   * after one line that requires the module. Read line by line, the first line requires the
   * module and every later line is lib-esm's.
   */
  function GetSnippets(name: string, ownNames: string -> seq<string>, libEsm: LibEsm): (r: string)
    ensures NoNewline(name) ==> Lines(r) == [AvoidParseLine(name)] + Lines(libEsm(ownNames(name), None))
  {
    AvoidParseLineOneLine(name);
    if NoNewline(name) then
      LinesCons(AvoidParseLine(name), libEsm(ownNames(name), None));
      AvoidParseLine(name) + "\n" + libEsm(ownNames(name), None)
    else
      AvoidParseLine(name) + "\n" + libEsm(ownNames(name), None)
  }
}
