/** The disk as the judge sees it through Node's `fs` module: regular files with
    their text, and directories. Errors carry Node's error codes. */
module FileStore {
  import opened Js
  import opened Paths

  datatype FsError =
    | NoEntry(syscall: string, path: Path)       // ENOENT
    | IsDirectory(syscall: string, path: Path)   // EISDIR
    | InvalidArgType(argument: string)           // ERR_INVALID_ARG_TYPE: `undefined` given
  {
    function Code(): string {
      match this
      case NoEntry(_, _) => "ENOENT"
      case IsDirectory(_, _) => "EISDIR"
      case InvalidArgType(_) => "ERR_INVALID_ARG_TYPE"
    }

    /** The `message` of the error object Node throws. */
    function Message(): string {
      match this
      case NoEntry(call, p) => "ENOENT: no such file or directory, " + call + " '" + p + "'"
      case IsDirectory(call, p) => "EISDIR: illegal operation on a directory, " + call + " '" + p + "'"
      case InvalidArgType(arg) =>
        "The \"" + arg + "\" argument must be of type string or an instance of " +
        (if arg == "path" then "Buffer or URL" else "Buffer, TypedArray, or DataView") +
        ". Received undefined"
    }
  }

  /** `p` is the directory `d` itself or lies somewhere below it. */
  predicate Under(p: Path, d: Path) {
    p == d || (|d| + 1 <= |p| && p[..|d| + 1] == d + "/")
  }

  /** The files left after `fs.rm(d, {recursive: true, force: true})`: exactly
      those not under `d`, with their contents. */
  function FilesOutside(files: map<Path, string>, d: Path): (r: map<Path, string>)
    ensures forall p :: p in r <==> p in files && !Under(p, d)
    ensures forall p :: p in r ==> r[p] == files[p]
  {
    map p | p in files && !Under(p, d) :: files[p]
  }

  /** The directories left after the same call. */
  function DirsOutside(dirs: set<Path>, d: Path): (r: set<Path>)
    ensures forall p :: p in r <==> p in dirs && !Under(p, d)
  {
    set p | p in dirs && !Under(p, d)
  }

  /** Why `fs.writeFileSync(p, data)` throws, if it does: `data` is checked
      before the file is opened; a directory cannot be opened for writing; the
      parent directory must exist. */
  function WriteError(dirs: set<Path>, p: Path, data: Option<string>): (r: Option<FsError>)
    ensures r.None? <==> data.Some? && p !in dirs && Dirname(p) in dirs
  {
    if data.None? then Some(InvalidArgType("data"))
    else if p in dirs then Some(IsDirectory("open", p))
    else if Dirname(p) !in dirs then Some(NoEntry("open", p))
    else None
  }

  /** What `fs.readFile(p, 'utf8')` settles to: the file's text, or the error it
      rejects with (an `undefined` path is refused before anything is opened). */
  function ReadResult(files: map<Path, string>, dirs: set<Path>, p: Option<Path>): (r: Result<string, FsError>)
    ensures r.Ok? <==> p.Some? && p.value in files
    ensures r.Ok? ==> r.value == files[p.value]
    ensures p.None? ==> r == Err(InvalidArgType("path"))
  {
    if p.None? then Err(InvalidArgType("path"))
    else if p.value in files then Ok(files[p.value])
    else if p.value in dirs then Err(IsDirectory("read", p.value))
    else Err(NoEntry("open", p.value))
  }

  /** What `fs.unlink(p)` fails with, if it does. */
  function UnlinkError(files: map<Path, string>, dirs: set<Path>, p: Path): (r: Option<FsError>)
    ensures r.None? <==> p in files
    ensures r.Some? && r.value.Code() == "ENOENT" <==> p !in files && p !in dirs
  {
    if p in files then None
    else if p in dirs then Some(IsDirectory("unlink", p))
    else Some(NoEntry("unlink", p))
  }

  /** A file that a child process (a compiler, or the shell performing a `>`
      redirect) writes: it appears only when its directory exists. */
  function Deposit(files: map<Path, string>, dirs: set<Path>, target: Path, text: Option<string>): (r: map<Path, string>)
    ensures r.Keys == if text.Some? && Dirname(target) in dirs && target !in dirs then files.Keys + {target} else files.Keys
    ensures forall p :: p in files && p != target ==> r[p] == files[p]
    ensures target in r && text.Some? && Dirname(target) in dirs && target !in dirs ==> r[target] == text.value
  {
    if text.Some? && Dirname(target) in dirs && target !in dirs then files[target := text.value] else files
  }

  /** Every file of `files0` outside `touched` is still there, with its text. */
  ghost predicate KeepsOutside(files0: map<Path, string>, files: map<Path, string>, touched: iset<Path>) {
    forall p :: p in files0 && p !in touched ==> p in files && files[p] == files0[p]
  }

  /** Every file of `files` that `files0` lacks lies in `created`. */
  ghost predicate CreatesWithin(files0: map<Path, string>, files: map<Path, string>, created: iset<Path>) {
    forall p :: p in files && p !in files0 ==> p in created
  }

  /** Two steps that each keep what lies outside `touched`, and each create
      only files in `created`, do so together. */
  lemma FrameTrans(f0: map<Path, string>, f1: map<Path, string>, f2: map<Path, string>,
                   touched: iset<Path>, created: iset<Path>)
    requires KeepsOutside(f0, f1, touched) && KeepsOutside(f1, f2, touched)
    requires CreatesWithin(f0, f1, created) && CreatesWithin(f1, f2, created)
    ensures KeepsOutside(f0, f2, touched) && CreatesWithin(f0, f2, created)
  {
  }

  /** A frame stays a frame when more may be touched or created. */
  lemma FrameWiden(f0: map<Path, string>, f1: map<Path, string>,
                   touched: iset<Path>, touched': iset<Path>, created: iset<Path>, created': iset<Path>)
    requires KeepsOutside(f0, f1, touched) && CreatesWithin(f0, f1, created)
    requires touched <= touched' && created <= created'
    ensures KeepsOutside(f0, f1, touched') && CreatesWithin(f0, f1, created')
  {
  }

  /** Writing one file touches and creates only that file. */
  lemma WriteFrame(f: map<Path, string>, p: Path, text: string)
    ensures KeepsOutside(f, f[p := text], iset{p}) && CreatesWithin(f, f[p := text], iset{p})
  {
  }

  /** Writing `x`, taking a step, then unlinking `x` again touches `x` besides
      what the step touches, and leaves no new file the step would not. */
  lemma WrittenAndUnlinked(f0: map<Path, string>, f: map<Path, string>, x: Path, text: string,
                           touched: iset<Path>, created: iset<Path>)
    requires KeepsOutside(f0[x := text], f, touched) && CreatesWithin(f0[x := text], f, created)
    ensures KeepsOutside(f0, f - {x}, touched + iset{x}) && CreatesWithin(f0, f - {x}, created)
  {
  }

  class FileSystem {
    var files: map<Path, string>
    var dirs: set<Path>

    constructor (files: map<Path, string>, dirs: set<Path>)
      ensures this.files == files && this.dirs == dirs
    {
      this.files := files;
      this.dirs := dirs;
    }

    /** `fs.writeFileSync(p, data)`: on success the file holds exactly `data`. */
    method WriteFileSync(p: Path, data: Option<string>) returns (err: Option<FsError>)
      modifies this
      ensures err == WriteError(old(dirs), p, data)
      ensures files == if err.None? then old(files)[p := data.value] else old(files)
      ensures dirs == old(dirs)
    {
      err := WriteError(dirs, p, data);
      if err.None? {
        files := files[p := data.value];
      }
    }

    /** `fs.unlink(p)`: removes a regular file; refuses a directory or a
        missing entry. */
    method Unlink(p: Path) returns (err: Option<FsError>)
      modifies this
      ensures err == UnlinkError(old(files), old(dirs), p)
      ensures files == old(files) - {p}
      ensures dirs == old(dirs)
    {
      err := UnlinkError(files, dirs, p);
      files := files - {p};
    }

    /** `fs.rm(d, {recursive: true, force: true})`: removes `d` and everything
        below it; a missing `d` is no error, so it never fails. */
    method RemoveTree(d: Path)
      modifies this
      ensures files == FilesOutside(old(files), d)
      ensures dirs == DirsOutside(old(dirs), d)
    {
      files := FilesOutside(files, d);
      dirs := DirsOutside(dirs, d);
    }

    /** The file a child process writes, as `Deposit` describes. */
    method Spawned(target: Path, text: Option<string>)
      modifies this
      ensures files == Deposit(old(files), old(dirs), target, text)
      ensures dirs == old(dirs)
    {
      files := Deposit(files, dirs, target, text);
    }
  }

  /** A path under `d` starts with `d`. */
  lemma UnderIndex(p: Path, d: Path, k: int)
    requires Under(p, d) && 0 <= k < |d|
    ensures p[k] == d[k]
  {
    if p != d {
      assert p[..|d| + 1][k] == (d + "/")[k];
    }
  }

  /** `path.join(d, name)` lies under `d`. */
  lemma JoinIsUnder(d: Path, name: string)
    ensures Under(Join(d, name), d)
  {
    if name != "" {
      assert Join(d, name)[..|d| + 1] == d + "/";
    }
  }

  /** No path lies under two of the codes, inputs and outputs directories. */
  lemma WorkingTreesDisjoint(p: Path)
    ensures !(Under(p, CodesDir) && Under(p, OutputsDir))
    ensures !(Under(p, InputsDir) && Under(p, OutputsDir))
    ensures !(Under(p, CodesDir) && Under(p, InputsDir))
  {
    if Under(p, CodesDir) {
      UnderIndex(p, CodesDir, 5);
    }
    if Under(p, InputsDir) {
      UnderIndex(p, InputsDir, 5);
    }
    if Under(p, OutputsDir) {
      UnderIndex(p, OutputsDir, 5);
    }
  }

}
