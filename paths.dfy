/** POSIX path handling as Node's `path` module does it for the paths the judge
    builds, and the fixed directories of a deployment whose server directory is
    `/app`. */
module Paths {
  import opened Js

  type Path = string

  /** The server directory. cleanupFiles.js and executepython.js name it
      outright; the other files reach the same directory through `__dirname`. */
  const ServerRoot: Path := "/app"
  /** Where source files are written (generatefile.js). */
  const CodesDir: Path := "/app/codes"
  /** Where stdin files are written (generateInputFile.js). */
  const InputsDir: Path := "/app/inputs"
  /** Where compiled C/C++ binaries go (execute/executec.js, execute/executecpp.js). */
  const OutputsDir: Path := "/app/execute/outputs"
  /** The server process's working directory, against which the shell resolves
      a relative redirect target. */
  const WorkingDir: Path := "."

  /** Index of the last `c` in `s`, or -1. */
  function LastIndexOf(s: string, c: char): (r: int)
    ensures -1 <= r < |s|
    ensures r >= 0 ==> s[r] == c
    ensures forall k :: r < k < |s| ==> s[k] != c
  {
    if s == [] then -1
    else if s[|s| - 1] == c then |s| - 1
    else LastIndexOf(s[..|s| - 1], c)
  }

  /** `path.join(dir, name)` for a directory without a trailing separator; an
      empty name adds nothing. */
  function Join(dir: Path, name: string): Path {
    if name == "" then dir else dir + "/" + name
  }

  /** A joined path starts with its directory. */
  lemma JoinKeepsDir(dir: Path, name: string, k: nat)
    requires k < |dir|
    ensures Join(dir, name)[k] == dir[k]
  {
    if name != "" {
      assert Join(dir, name) == dir + ("/" + name);
    }
  }

  /** `path.basename(p)`: the text after the last separator. */
  function Basename(p: Path): string {
    p[LastIndexOf(p, '/') + 1..]
  }

  /** `path.dirname(p)`: the text before the last separator, "/" when that
      separator is the root and "." when there is none. */
  function Dirname(p: Path): Path {
    var i := LastIndexOf(p, '/');
    if i < 0 then "." else if i == 0 then "/" else p[..i]
  }

  /** `path.basename(p).split(".")[0]`, the job id both routes recover from a
      source path (server/index.js:284, 506; execute/executec.js:17;
      execute/executecpp.js:22). */
  function JobId(p: Path): string {
    SplitHead(Basename(p), '.')
  }

  lemma LastSeparatorOfJoin(dir: Path, name: string)
    requires name != "" && '/' !in name
    ensures LastIndexOf(Join(dir, name), '/') == |dir|
  {
    var p := Join(dir, name);
    assert p[|dir|] == '/';
    forall k | |dir| < k < |p| ensures p[k] != '/' {
      assert p[k] == name[k - |dir| - 1];
    }
  }

  /** `path.basename` undoes `path.join` for a plain file name. */
  lemma BasenameOfJoin(dir: Path, name: string)
    requires name != "" && '/' !in name
    ensures Basename(Join(dir, name)) == name
  {
    LastSeparatorOfJoin(dir, name);
  }

  /** `path.dirname` undoes `path.join` for a plain file name. */
  lemma DirnameOfJoin(dir: Path, name: string)
    requires dir != "" && name != "" && '/' !in name
    ensures Dirname(Join(dir, name)) == dir
  {
    LastSeparatorOfJoin(dir, name);
  }

  /** Different names give different paths in one directory. */
  lemma JoinInjective(dir: Path, a: string, b: string)
    requires a != "" && b != "" && a != b
    ensures Join(dir, a) != Join(dir, b)
  {
    assert Join(dir, a)[|dir| + 1..] == a;
    assert Join(dir, b)[|dir| + 1..] == b;
  }

  /** The job-id derivation recovers the id from a file named `<id>.<ext>` in
      any directory, whatever the extension. */
  lemma {:induction false} JobIdOfJoin(dir: Path, id: string, ext: string)
    requires '.' !in id && '/' !in id && '/' !in ext
    ensures JobId(Join(dir, id + "." + ext)) == id
  {
    var name := id + "." + ext;
    assert name[|id|] == '.';
    assert '/' !in name by {
      forall k | 0 <= k < |name| ensures name[k] != '/' {
        if k < |id| { assert name[k] == id[k]; }
        else if k > |id| { assert name[k] == ext[k - |id| - 1]; }
      }
    }
    BasenameOfJoin(dir, name);
    var r := SplitHead(name, '.');
    forall k | 0 <= k < |id| ensures name[k] != '.' {
      assert name[k] == id[k];
    }
    assert name[..|id|] == id;
  }
}
