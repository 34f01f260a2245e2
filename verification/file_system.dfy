/**
 * The part of Node's `fs` and `path` modules the plugin uses, as a disk holding text files
 * and directories named by their full path.
 */
module FileSystem {
  import opened Js

  /** `path` lies at or below `dir`. */
  predicate Under(path: string, dir: string)
  {
    path == dir || StartsWith(path, dir + "/")
  }

  /** The directories `mkdirSync(dir, { recursive: true })` makes sure of: `dir` and every ancestor named in it. */
  function DirChain(dir: string): (r: set<string>)
    ensures dir in r
  {
    {dir} + set i | 0 < i < |dir| && dir[i] == '/' :: dir[..i]
  }

  /** The files left after `rmSync(dir, { recursive: true, force: true })`. */
  function RemoveFilesUnder(files: map<string, string>, dir: string): (r: map<string, string>)
    ensures forall p :: p in r <==> p in files && !Under(p, dir)
    ensures forall p :: p in r ==> r[p] == files[p]
  {
    map p | p in files && !Under(p, dir) :: files[p]
  }

  function RemoveDirsUnder(dirs: set<string>, dir: string): (r: set<string>)
    ensures forall p :: p in r <==> p in dirs && !Under(p, dir)
  {
    set p | p in dirs && !Under(p, dir)
  }

  /** Index of the last `/` in `p`, if any. */
  function LastSlash(p: string): (r: Option<nat>)
    ensures r.Some? ==> r.value < |p| && p[r.value] == '/'
    ensures r.Some? ==> forall k :: r.value < k < |p| ==> p[k] != '/'
    ensures r.None? ==> forall k :: 0 <= k < |p| ==> p[k] != '/'
  {
    if |p| == 0 then None
    else if p[|p| - 1] == '/' then Some(|p| - 1)
    else LastSlash(p[..|p| - 1])
  }

  /** `path.dirname(p)` for a normalised path. */
  function Dirname(p: string): string
  {
    match LastSlash(p)
    case None => "."
    case Some(0) => "/"
    case Some(i) => p[..i]
  }

  /** `config.root ? path.resolve(config.root) : process.cwd()`. */
  function RootDir(root: Slot<string>, cwd: string): string
  {
    if root.Has? && root.value != "" then
      (if StartsWith(root.value, "/") then root.value else PathJoin(cwd, root.value))
    else cwd
  }

  /** The disk: every path that exists is either a file with its text or a directory. */
  class Disk {
    var files: map<string, string>
    var dirs: set<string>

    constructor (files0: map<string, string>, dirs0: set<string>)
      ensures files == files0 && dirs == dirs0
    {
      files := files0;
      dirs := dirs0;
    }

    /** `fs.existsSync(p)`: true for a file and for a directory. */
    predicate Exists(p: string)
      reads this
    {
      p in files || p in dirs
    }

    /** Every path that exists. */
    function Paths(): (r: set<string>)
      reads this
      ensures forall p :: p in r <==> Exists(p)
    {
      files.Keys + dirs
    }

    /** `fs.mkdirSync(dir, { recursive: true })`. */
    method MakeDirs(dir: string)
      modifies this`dirs
      ensures dirs == old(dirs) + DirChain(dir)
    {
      dirs := dirs + DirChain(dir);
    }

    /** `fs.writeFileSync(p, text)`. */
    method WriteFile(p: string, text: string)
      modifies this`files
      ensures files == old(files)[p := text]
    {
      files := files[p := text];
    }

    /** `fs.rmSync(dir, { recursive: true, force: true })`: no error when nothing is there. */
    method RemoveRecursive(dir: string)
      modifies this
      ensures files == RemoveFilesUnder(old(files), dir)
      ensures dirs == RemoveDirsUnder(old(dirs), dir)
    {
      files := RemoveFilesUnder(files, dir);
      dirs := RemoveDirsUnder(dirs, dir);
    }
  }
}
