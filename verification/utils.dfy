/**
 * src/utils.ts: the tables of module names that must stay external, and `ensureDir`.
 * `builtinModules` (what Node reports as its built-in modules) is a parameter.
 */
module Utils {
  import opened Js
  import opened FileSystem

  /** A name `builtinModules` lists that is not an internal `_`-module. */
  predicate IsPublicBuiltin(builtinModules: seq<string>, m: string)
  {
    m in builtinModules && !StartsWith(m, "_")
  }

  /** `builtinModules.filter(m => !m.startsWith('_'))`. */
  function Unprefixed(builtinModules: seq<string>): (r: seq<string>)
    ensures |r| <= |builtinModules|
    ensures forall m :: m in r <==> IsPublicBuiltin(builtinModules, m)
    ensures forall i :: 0 <= i < |r| ==> !StartsWith(r[i], "_")
  {
    if builtinModules == [] then []
    else if StartsWith(builtinModules[0], "_") then Unprefixed(builtinModules[1..])
    else [builtinModules[0]] + Unprefixed(builtinModules[1..])
  }

  /** The filter keeps the order of `builtinModules`: it takes what precedes an element before it. */
  lemma {:induction false} UnprefixedDistributes(a: seq<string>, b: seq<string>)
    ensures Unprefixed(a + b) == Unprefixed(a) + Unprefixed(b)
  {
    if a != [] {
      assert (a + b)[1..] == a[1..] + b;
      UnprefixedDistributes(a[1..], b);
    } else {
      assert a + b == b;
    }
  }

  /** The `filter` loop over `builtinModules`. */
  method PublicBuiltins(builtinModules: seq<string>) returns (names: seq<string>)
    ensures names == Unprefixed(builtinModules)
  {
    names := [];
    var i := 0;
    while i < |builtinModules|
      invariant 0 <= i <= |builtinModules|
      invariant names == Unprefixed(builtinModules[..i])
    {
      assert builtinModules[..i + 1] == builtinModules[..i] + [builtinModules[i]];
      UnprefixedDistributes(builtinModules[..i], [builtinModules[i]]);
      if !StartsWith(builtinModules[i], "_") {
        names := names + [builtinModules[i]];
      }
      i := i + 1;
    }
    assert builtinModules[..i] == builtinModules;
  }

  /** `names.map(m => 'node:' + m)`. */
  function NodePrefixed(names: seq<string>): (r: seq<string>)
    ensures |r| == |names|
    ensures forall i :: 0 <= i < |r| ==> r[i] == "node:" + names[i]
  {
    seq(|names|, i requires 0 <= i < |names| => "node:" + names[i])
  }

  /** `builtins`: the public names, then the same names with `node:` in front, in the same order. */
  function Builtins(builtinModules: seq<string>): (r: seq<string>)
    ensures |r| == 2 * |Unprefixed(builtinModules)|
    ensures r[..|Unprefixed(builtinModules)|] == Unprefixed(builtinModules)
    ensures forall i :: |Unprefixed(builtinModules)| <= i < |r| ==>
      r[i] == "node:" + Unprefixed(builtinModules)[i - |Unprefixed(builtinModules)|]
  {
    var names := Unprefixed(builtinModules);
    names + NodePrefixed(names)
  }

  /** `electronBuiltins`: `electron` followed by every entry of `builtins`. */
  function ElectronBuiltins(builtinModules: seq<string>): (r: seq<string>)
    ensures |r| == |Builtins(builtinModules)| + 1
    ensures r[0] == "electron" && r[1..] == Builtins(builtinModules)
  {
    ["electron"] + Builtins(builtinModules)
  }

  /** A string is in `builtins` exactly when it is a public built-in name, with or without `node:`. */
  lemma BuiltinsMembership(builtinModules: seq<string>, s: string)
    ensures s in Builtins(builtinModules) <==>
      IsPublicBuiltin(builtinModules, s)
      || (StartsWith(s, "node:") && IsPublicBuiltin(builtinModules, s[5..]))
  {
    var names := Unprefixed(builtinModules);
    var b := Builtins(builtinModules);
    if s in b {
      var i :| 0 <= i < |b| && b[i] == s;
      if i >= |names| {
        assert s == "node:" + names[i - |names|];
        assert s[5..] == names[i - |names|];
      } else {
        assert s == names[i];
      }
    }
    if StartsWith(s, "node:") && IsPublicBuiltin(builtinModules, s[5..]) {
      var j :| 0 <= j < |names| && names[j] == s[5..];
      assert s == "node:" + s[5..];
      assert b[|names| + j] == s;
    }
    if IsPublicBuiltin(builtinModules, s) {
      var j :| 0 <= j < |names| && names[j] == s;
      assert b[j] == s;
    }
  }

  /** `ensureDir(dir)`: the directory is created (with its ancestors) only when nothing exists at `dir`. */
  method EnsureDir(fs: Disk, dir: string)
    modifies fs`dirs
    ensures fs.Exists(dir)
    ensures old(fs.Exists(dir)) ==> fs.dirs == old(fs.dirs)
    ensures !old(fs.Exists(dir)) ==> fs.dirs == old(fs.dirs) + DirChain(dir)
  {
    if !fs.Exists(dir) {
      fs.MakeDirs(dir);
    }
  }
}
