/** cleanupFiles.js: unlink the files a finished job may have left, one at a
    time, each failure caught on its own. */
module Cleanup {
  import opened Js
  import opened Paths
  import opened FileStore
  import Generate
  import ExecuteC
  import ExecuteCpp

  /** The destructured argument; any property may be missing. */
  datatype JobDescriptor = JobDescriptor(
    language: Option<string>, jobId: Option<string>,
    sourceFilename: Option<string>, inputFilename: Option<string>, outputFilename: Option<string>)

  /** The paths unlinked, in order, once the source path could be built: the
      source, the input and the output when their names are truthy, `Main.class`
      for Java, and `<jobId>.out` under the outputs directory for C and C++. */
  function Targets(job: JobDescriptor): seq<Path>
    requires job.sourceFilename.Some?
  {
    [Join(CodesDir, job.sourceFilename.value)]
    + (if Truthy(job.inputFilename) then [Join(InputsDir, job.inputFilename.value)] else [])
    + (if Truthy(job.outputFilename) then [Join(OutputsDir, job.outputFilename.value)] else [])
    + (if job.language == Some("java") then [Join(CodesDir, "Main.class")] else [])
    + (if job.language == Some("cpp") || job.language == Some("c") then [Join(OutputsDir, Interpolate(job.jobId) + ".out")] else [])
  }

  /** One `try { await fs.unlink(p) } catch (err) { ... }` block: ENOENT is
      silent, any other error is logged and swallowed. */
  method TryUnlink(fs: FileSystem, p: Path) returns (logged: Option<FsError>)
    modifies fs
    ensures fs.files == old(fs.files) - {p}
    ensures fs.dirs == old(fs.dirs)
    ensures logged.Some? <==> p !in old(fs.files) && p in old(fs.dirs)
    ensures logged.Some? ==> logged.value == IsDirectory("unlink", p)
  {
    var err := fs.Unlink(p);
    if err.Some? && err.value.Code() != "ENOENT" {
      logged := err;
    } else {
      logged := None;
    }
  }

  /** After unlinking `done` in order, starting from `files0` and `dirs0`:
      those paths are gone, nothing else changed, and the log holds exactly the
      EISDIR refusals met so far. */
  ghost predicate Progress(files0: map<Path, string>, dirs0: set<Path>, done: seq<Path>,
                           files: map<Path, string>, dirs: set<Path>, log: seq<FsError>)
  {
    && files == files0 - (set t | t in done)
    && dirs == dirs0
    && (forall e :: e in log ==> e.IsDirectory? && e.path in done && e.path in dirs0)
    && (forall t :: t in done && t in dirs0 && t !in files0 ==> IsDirectory("unlink", t) in log)
  }

  /** One unlink block, logging what it must. */
  method Step(fs: FileSystem, p: Path, log: seq<FsError>,
              ghost files0: map<Path, string>, ghost dirs0: set<Path>, ghost done: seq<Path>)
    returns (log': seq<FsError>)
    requires Progress(files0, dirs0, done, fs.files, fs.dirs, log)
    modifies fs
    ensures Progress(files0, dirs0, done + [p], fs.files, fs.dirs, log')
  {
    var e := TryUnlink(fs, p);
    log' := if e.Some? then log + [e.value] else log;
    assert (set t | t in done + [p]) == (set t | t in done) + {p};
    forall t | t in done + [p] && t in dirs0 && t !in files0 ensures IsDirectory("unlink", t) in log' {
      if t !in done {
        assert t == p;
      }
    }
  }

  /** cleanupFiles(job): resolves whatever happens. When the source name is
      missing, building its path throws before anything is unlinked and the
      outer catch logs that error. Otherwise exactly the targets are removed,
      and the errors logged are the EISDIR refusals for targets that are
      directories. Nothing else on disk changes. */
  method CleanupFiles(fs: FileSystem, job: JobDescriptor) returns (log: seq<FsError>)
    modifies fs
    ensures fs.dirs == old(fs.dirs)
    ensures job.sourceFilename.None? ==> fs.files == old(fs.files) && log == [InvalidArgType("path")]
    ensures job.sourceFilename.Some? ==> fs.files == old(fs.files) - set t | t in Targets(job)
    ensures job.sourceFilename.Some? ==>
      forall e :: e in log ==> e.IsDirectory? && e.path in Targets(job) && e.path in old(fs.dirs)
    ensures job.sourceFilename.Some? ==>
      forall t :: t in Targets(job) && t in old(fs.dirs) && t !in old(fs.files) ==> IsDirectory("unlink", t) in log
  {
    if job.sourceFilename.None? {
      return [InvalidArgType("path")];
    }
    ghost var files0, dirs0 := fs.files, fs.dirs;
    ghost var done: seq<Path> := [];
    log := [];
    assert fs.files == files0 - (set t | t in done);
    log := Step(fs, Join(CodesDir, job.sourceFilename.value), log, files0, dirs0, done);
    done := done + [Join(CodesDir, job.sourceFilename.value)];
    if Truthy(job.inputFilename) {
      log := Step(fs, Join(InputsDir, job.inputFilename.value), log, files0, dirs0, done);
      done := done + [Join(InputsDir, job.inputFilename.value)];
    }
    if Truthy(job.outputFilename) {
      log := Step(fs, Join(OutputsDir, job.outputFilename.value), log, files0, dirs0, done);
      done := done + [Join(OutputsDir, job.outputFilename.value)];
    }
    if job.language == Some("java") {
      log := Step(fs, Join(CodesDir, "Main.class"), log, files0, dirs0, done);
      done := done + [Join(CodesDir, "Main.class")];
    }
    if job.language == Some("cpp") || job.language == Some("c") {
      log := Step(fs, Join(OutputsDir, Interpolate(job.jobId) + ".out"), log, files0, dirs0, done);
      done := done + [Join(OutputsDir, Interpolate(job.jobId) + ".out")];
    }
    assert done == Targets(job);
  }

  /** For a job named after its UUID, the binary the C or C++ runner wrote is
      never among the targets, whether or not the `<jobId>.out` output name is
      given: cleanup leaves it on disk. */
  lemma CleanupMissesBinary(job: JobDescriptor, id: string)
    requires Generate.IsUuid(id)
    requires job.language == Some("c") || job.language == Some("cpp")
    requires job.jobId == Some(id) && job.sourceFilename.Some?
    requires job.outputFilename.None? || job.outputFilename == Some(id + ".out")
    ensures job.language == Some("c") ==> ExecuteC.BinaryPath(Generate.CodeFilePath(id, "c")) !in Targets(job)
    ensures job.language == Some("cpp") ==> ExecuteCpp.BinaryPath(Generate.CodeFilePath(id, "cpp")) !in Targets(job)
  {
    var language := job.language.value;
    var name := if language == "c" then id else id + ".exe";
    var binary := Join(OutputsDir, name);
    var out := Join(OutputsDir, id + ".out");
    assert binary == if language == "c" then ExecuteC.BinaryPath(Generate.CodeFilePath(id, "c"))
                     else ExecuteCpp.BinaryPath(Generate.CodeFilePath(id, "cpp")) by {
      Generate.JobIdOfCodeFile(id, language);
    }
    assert binary != out by {
      Generate.UuidIsPlainName(id);
      assert name != id + ".out" by {
        if language != "c" {
          assert name[|id| + 1] != (id + ".out")[|id| + 1];
        }
      }
      JoinInjective(OutputsDir, name, id + ".out");
    }
    JoinIsUnder(OutputsDir, name);
    if binary in Targets(job) {
      TargetsUnderOutputs(job, binary);
    }
  }

  /** The only targets under the outputs directory are the named output file
      and `<jobId>.out`. */
  lemma TargetsUnderOutputs(job: JobDescriptor, t: Path)
    requires job.sourceFilename.Some? && t in Targets(job) && Under(t, OutputsDir)
    ensures || t == Join(OutputsDir, Interpolate(job.jobId) + ".out")
            || (Truthy(job.outputFilename) && t == Join(OutputsDir, job.outputFilename.value))
  {
    WorkingTreesDisjoint(t);
    JoinIsUnder(CodesDir, job.sourceFilename.value);
    JoinIsUnder(CodesDir, "Main.class");
    if Truthy(job.inputFilename) {
      JoinIsUnder(InputsDir, job.inputFilename.value);
    }
  }
}
