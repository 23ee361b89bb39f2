/** The `switch (language)` both routes share (server/index.js:210-226 and
    410-426): which runner is called and with which arguments, and the value a
    route's `catch` receives when something fails. */
module Dispatch {
  import opened Js
  import opened Paths
  import opened FileStore
  import opened Exec
  import Generate
  import ExecuteC
  import ExecuteCpp
  import ExecuteJava
  import ExecutePython

  /** The exec calls one runner invocation makes. C and C++ make one (`build`,
      the whole `&&` line); Java makes `build` (javac) and then `run` (java);
      Python makes `run` only. */
  datatype Processes = Processes(build: Exec, run: Exec)

  /** A value a route's `catch` receives: an object with some of the properties
      the routes look at, a bare string, or any other value. */
  datatype Caught =
    | Thrown(error: Option<string>, message: Option<string>, details: Option<string>,
             stdout: Option<string>, stderr: Option<string>)
    | ThrownString(text: string)
    | ThrownOther

  /** The plain object a runner rejects with has no `message`. */
  function FromRejection(r: Rejection): Caught {
    Thrown(Some(r.error), None, r.details, r.stdout, r.stderr)
  }

  /** An Error thrown by `fs` has a `message` and none of the runner properties. */
  function FromFsError(e: FsError): Caught {
    Thrown(None, Some(e.Message()), None, None, None)
  }

  /** The Error `/submit` throws for a language no runner handles. */
  const UnsupportedMessage: string := "Unsupported language for submission testing."

  /** Where the C or C++ runner leaves its binary. */
  function BinaryPath(language: string, filePath: Path): Path {
    if language == "c" then ExecuteC.BinaryPath(filePath) else ExecuteCpp.BinaryPath(filePath)
  }

  /** How the runner for `language` settles when a route calls it with a source
      path and an input path: C and C++ drop the third argument; Java and
      Python get no output path, so they read `undefined` and never resolve. */
  function Settle(language: string, filePath: Path, inputFilePath: Path, procs: Processes): (r: Settled)
    requires language in Generate.Languages
    ensures language == "java" || language == "python" ==> r.Rejected?
    ensures language == "c" ==> (r.Resolved? <==> !procs.build.failed && procs.build.stderr == "")
    ensures language == "cpp" ==> (r.Resolved? <==> !procs.build.failed)
    ensures r.Resolved? ==> r.output == procs.build.stdout
  {
    var undefinedRead: Result<string, FsError> := Err(InvalidArgType("path"));
    if language == "c" then ExecuteC.Classify(filePath, inputFilePath, procs.build)
    else if language == "cpp" then ExecuteCpp.Classify(filePath, inputFilePath, procs.build)
    else if language == "java" then
      ExecuteJava.Classify(filePath, Some(inputFilePath), None, procs.build, procs.run, undefinedRead)
    else
      ExecutePython.Classify(filePath, Some(inputFilePath), None, procs.run, undefinedRead)
  }

  /** Without an output path, the Java and Python runners always reject, with
      a bare label and no streams; the label is "Compilation Error" exactly
      when javac failed, and "Output Read Error" exactly when the processes
      succeeded. */
  lemma JavaPythonLabels(language: string, filePath: Path, inputFilePath: Path, procs: Processes)
    requires language == "java" || language == "python"
    ensures var r := Settle(language, filePath, inputFilePath, procs);
      && r.Rejected? && r.reason.stdout.None? && r.reason.stderr.None?
      && r.reason.error in {"Compilation Error", "Runtime Error", "Output Read Error"}
      && (r.reason.error == "Compilation Error" <==> language == "java" && procs.build.failed)
      && (r.reason.error == "Output Read Error" <==>
            !procs.run.failed && procs.run.stderr == "" && (language == "java" ==> !procs.build.failed))
  {
    assert "Output Read Error"[0] != "Compilation Error"[0];
    assert "Runtime Error" != "Compilation Error" && "Runtime Error" != "Output Read Error";
  }

  /** The files a runner call may create. */
  function Artifacts(language: string, filePath: Path): set<Path> {
    if language == "c" || language == "cpp" then {BinaryPath(language, filePath)}
    else if language == "java" then {ExecuteJava.ClassFile(filePath), Interpolate(None)}
    else {Interpolate(None)}
  }

  /** The files a runner call for a supported language may create. */
  ghost function ArtifactsOf(language: string, filePath: Path): iset<Path> {
    iset p | language in Generate.Languages && p in Artifacts(language, filePath)
  }

  /** What a runner call for a supported language may overwrite or remove:
      the files it may create, and for Java everything under the source's
      directory. */
  ghost function RunnerTouched(language: string, filePath: Path): iset<Path> {
    iset p | language in Generate.Languages
             && (p in Artifacts(language, filePath) || (language == "java" && Under(p, Dirname(filePath))))
  }

  /** The files after the runner for `language` ran: the C and C++ build
      writes the binary; javac writes the class file and, when it succeeds,
      the run's redirect writes its stdout, after which the source's
      directory is removed; Python's redirect writes its stdout. */
  function RunnerFiles(files: map<Path, string>, dirs: set<Path>, language: string, filePath: Path, procs: Processes)
    : map<Path, string>
  {
    if language == "c" || language == "cpp" then Deposit(files, dirs, BinaryPath(language, filePath), procs.build.wrote)
    else if language == "java" then
      FilesOutside(
        if procs.build.failed then files
        else Deposit(Deposit(files, dirs, ExecuteJava.ClassFile(filePath), procs.build.wrote), dirs, Interpolate(None), procs.run.wrote),
        Dirname(filePath))
    else Deposit(files, dirs, Interpolate(None), procs.run.wrote)
  }

  /** The directories after the runner: only Java's removes any. */
  function RunnerDirs(dirs: set<Path>, language: string, filePath: Path): set<Path> {
    if language == "java" then DirsOutside(dirs, Dirname(filePath)) else dirs
  }

  /** What a runner call's command lines do to the files, apart from what
      the submitted program itself reads, writes or deletes: new files are
      among its artifacts; a file disappears only under a Java source's
      directory; every file that is not an artifact keeps its text. */
  lemma RunnerEffect(files: map<Path, string>, dirs: set<Path>, language: string, filePath: Path, procs: Processes)
    requires language in Generate.Languages
    ensures var after := RunnerFiles(files, dirs, language, filePath, procs);
      && (forall p :: p in after && p !in files ==> p in Artifacts(language, filePath))
      && (forall p :: p in files && p !in after ==> language == "java" && Under(p, Dirname(filePath)))
      && (forall p :: p in files && p in after && p !in Artifacts(language, filePath) ==> after[p] == files[p])
  {
    if language == "java" && !procs.build.failed {
      var classFile := ExecuteJava.ClassFile(filePath);
      var built := Deposit(files, dirs, classFile, procs.build.wrote);
      var ran := Deposit(built, dirs, Interpolate(None), procs.run.wrote);
      assert forall p :: p in ran && p !in files ==> p == classFile || p == Interpolate(None);
      assert forall p :: p in files && p != classFile && p != Interpolate(None) ==> ran[p] == files[p];
    }
  }

  /** So a runner call, apart from what the submitted program itself does,
      touches only what `RunnerTouched` names, and creates only its
      artifacts. */
  lemma RunnerFrame(files: map<Path, string>, dirs: set<Path>, language: string, filePath: Path, procs: Processes)
    requires language in Generate.Languages
    ensures KeepsOutside(files, RunnerFiles(files, dirs, language, filePath, procs), RunnerTouched(language, filePath))
    ensures CreatesWithin(files, RunnerFiles(files, dirs, language, filePath, procs), ArtifactsOf(language, filePath))
  {
    RunnerEffect(files, dirs, language, filePath, procs);
  }

  /** `await executeX(filePath, inputFilePath[, outputPath])` for a supported
      language: it settles as `Settle` says and leaves the files and
      directories as `RunnerFiles` and `RunnerDirs` say. */
  method Invoke(fs: FileSystem, language: string, filePath: Path, inputFilePath: Path, procs: Processes)
    returns (r: Settled)
    requires language in Generate.Languages
    modifies fs
    ensures r == Settle(language, filePath, inputFilePath, procs)
    ensures fs.files == RunnerFiles(old(fs.files), old(fs.dirs), language, filePath, procs)
    ensures fs.dirs == RunnerDirs(old(fs.dirs), language, filePath)
  {
    if language == "c" || language == "cpp" {
      fs.Spawned(BinaryPath(language, filePath), procs.build.wrote);
      if language == "c" {
        r := ExecuteC.Classify(filePath, inputFilePath, procs.build);
      } else {
        r := ExecuteCpp.Classify(filePath, inputFilePath, procs.build);
      }
    } else if language == "java" {
      r := ExecuteJava.Execute(fs, filePath, Some(inputFilePath), None, procs.build, procs.run);
    } else {
      r := ExecutePython.Execute(fs, filePath, Some(inputFilePath), None, procs.run);
    }
  }

  /** The files of one job never collide: the input file is not the source,
      not a runner artifact and not under the codes directory, and the source
      sits directly in the codes directory. */
  lemma JobPathsDisjoint(codeId: string, inputId: string, language: string)
    requires Generate.IsUuid(codeId) && Generate.IsUuid(inputId)
    ensures Generate.InputFilePath(inputId) != Generate.CodeFilePath(codeId, language)
    ensures Generate.InputFilePath(inputId) !in Artifacts(language, Generate.CodeFilePath(codeId, language))
    ensures !Under(Generate.InputFilePath(inputId), CodesDir)
    ensures Dirname(Generate.CodeFilePath(codeId, language)) == CodesDir
    ensures JobId(Generate.CodeFilePath(codeId, language)) == codeId
  {
    Generate.InputNeverSourceFile(inputId, codeId, language);
    Generate.JobIdOfCodeFile(codeId, language);
    var input := Generate.InputFilePath(inputId);
    var source := Generate.CodeFilePath(codeId, language);
    assert input[5] == 'i';
    assert ExecuteJava.ClassFile(source)[5] == 'c';
    forall a | a in Artifacts(language, source) ensures a != input {
      if language == "c" || language == "cpp" {
        BinaryPlacement(codeId, inputId, language);
      }
    }
  }

  /** The binary a C or C++ runner writes sits directly in the outputs
      directory and is neither the source, nor the input, nor the
      `<jobId>.out` the routes delete. */
  lemma BinaryPlacement(codeId: string, inputId: string, language: string)
    requires Generate.IsUuid(codeId) && Generate.IsUuid(inputId)
    requires language == "c" || language == "cpp"
    ensures var binary := BinaryPath(language, Generate.CodeFilePath(codeId, language));
      && binary != Generate.CodeFilePath(codeId, language)
      && binary != Join(OutputsDir, codeId + ".out")
      && binary != Generate.InputFilePath(inputId)
      && Dirname(binary) == OutputsDir
  {
    var source := Generate.CodeFilePath(codeId, language);
    var name := if language == "c" then codeId else codeId + ".exe";
    var binary := BinaryPath(language, source);
    assert binary == Join(OutputsDir, name) by {
      Generate.JobIdOfCodeFile(codeId, language);
    }
    assert Dirname(binary) == OutputsDir by {
      Generate.UuidIsPlainName(codeId);
      assert '/' !in name by {
        forall k | 0 <= k < |name| ensures name[k] != '/' {
          if k < |codeId| { assert name[k] == codeId[k]; }
        }
      }
      DirnameOfJoin(OutputsDir, name);
    }
    assert binary[5] == 'e' by {
      JoinKeepsDir(OutputsDir, name, 5);
    }
    assert source[5] == 'c' by {
      JoinKeepsDir(CodesDir, Generate.CodeFileName(codeId, language), 5);
    }
    assert Generate.InputFilePath(inputId)[5] == 'i' by {
      JoinKeepsDir(InputsDir, inputId + ".txt", 5);
    }
    assert binary != Join(OutputsDir, codeId + ".out") by {
      var out := Join(OutputsDir, codeId + ".out");
      if language == "cpp" {
        assert binary[|OutputsDir| + 1 + |codeId| + 1] == 'e';
        assert out[|OutputsDir| + 1 + |codeId| + 1] == 'o';
      } else {
        assert |binary| < |out|;
      }
    }
  }
}
