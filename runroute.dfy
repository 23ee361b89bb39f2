/** `POST /run` (server/index.js:184-308): materialise the source and the stdin
    text, call the runner for the language, answer with its output or with a
    status and message derived from what was thrown, then delete what the
    route believes the job left behind. */
module RunRoute {
  import opened Js
  import opened Paths
  import opened FileStore
  import opened Exec
  import opened Generate
  import opened Dispatch

  /** The request body's fields; any may be missing. */
  datatype RunRequest = RunRequest(language: Option<string>, code: Option<string>, input: Option<string>)

  /** `{ output }`, or `{ success, error }` where `success` may be absent. */
  datatype Body = OutputBody(output: string) | ErrorBody(success: Option<bool>, error: string)

  datatype Response = Response(status: int, body: Body)

  const ConfigurationMessage: string :=
    "Server configuration error: Compiler/Interpreter not found or path issue. Please contact administrator."
  const UnknownMessage: string := "An unknown error occurred during execution."

  /** The destructuring default: only a missing `language` becomes "cpp". */
  function RequestLanguage(req: RunRequest): string {
    req.language.GetOr("cpp")
  }

  /** An error text the route blames on the server rather than on the code. */
  predicate PointsAtConfiguration(e: string) {
    Includes(e, "command not found") || Includes(e, "No such file or directory")
  }

  /** `<lead><trimmed text>`, added only for a string that is not blank. */
  function StreamNote(lead: string, s: Option<string>): string {
    if s.Some? && Trim(s.value) != "" then lead + Trim(s.value) else ""
  }

  datatype Failure = Failure(status: int, message: string)

  /** The catch block's answer. A truthy `error` property is the user's fault
      (400) unless it mentions a missing command or file; otherwise a truthy
      `message`, a thrown string or anything else is the server's (500). The
      trimmed stderr and stdout of a thrown object are appended; its `details`
      never are. */
  function RunFailure(c: Caught): (r: Failure)
    ensures r.status == 400 <==> c.Thrown? && Truthy(c.error) && !PointsAtConfiguration(c.error.value)
    ensures r.status == 400 || r.status == 500
  {
    match c
    case Thrown(_, _, _, stdout, stderr) =>
      var head := Headline(c);
      Failure(head.status, head.message + StreamNote("\nStderr: ", stderr) + StreamNote("\nStdout: ", stdout))
    case ThrownString(text) => Failure(500, text)
    case ThrownOther => Failure(500, UnknownMessage)
  }

  /** The status and message a thrown object gets before its streams are
      appended. */
  function Headline(c: Caught): Failure
    requires c.Thrown?
  {
    if Truthy(c.error) then
      (if PointsAtConfiguration(c.error.value) then Failure(500, ConfigurationMessage) else Failure(400, c.error.value))
    else if Truthy(c.message) then Failure(500, c.message.value)
    else Failure(500, UnknownMessage)
  }

  /** The first half of the catch block for a thrown object: the status and
      message are set from its `error` or its `message`. */
  method MapHeadline(err: Caught) returns (statusCode: int, errorMessage: string)
    requires err.Thrown?
    ensures Failure(statusCode, errorMessage) == Headline(err)
  {
    errorMessage := UnknownMessage;
    statusCode := 500;
    if Truthy(err.error) {
      errorMessage := err.error.value;
      statusCode := 400;
      if PointsAtConfiguration(err.error.value) {
        errorMessage := ConfigurationMessage;
        statusCode := 500;
      }
    } else if Truthy(err.message) {
      errorMessage := err.message.value;
      statusCode := 500;
    }
  }

  /** The second half: the trimmed streams are appended to the message. */
  method AppendStreams(message: string, stderr: Option<string>, stdout: Option<string>) returns (errorMessage: string)
    ensures errorMessage == message + StreamNote("\nStderr: ", stderr) + StreamNote("\nStdout: ", stdout)
  {
    assert Trim("") == "" by { assert IsBlank(""); }
    errorMessage := message;
    if Truthy(stderr) && Trim(stderr.value) != "" {
      errorMessage := errorMessage + ("\nStderr: " + Trim(stderr.value));
    }
    assert errorMessage == message + StreamNote("\nStderr: ", stderr);
    if Truthy(stdout) && Trim(stdout.value) != "" {
      errorMessage := errorMessage + ("\nStdout: " + Trim(stdout.value));
    }
  }

  /** The catch block as written: the status and message are updated step by
      step. */
  method MapError(err: Caught) returns (statusCode: int, errorMessage: string)
    ensures Failure(statusCode, errorMessage) == RunFailure(err)
  {
    if err.Thrown? {
      statusCode, errorMessage := MapHeadline(err);
      errorMessage := AppendStreams(errorMessage, err.stderr, err.stdout);
    } else if err.ThrownString? {
      errorMessage := err.text;
      statusCode := 500;
    } else {
      errorMessage := UnknownMessage;
      statusCode := 500;
    }
  }

  /** How the `try` block ends: with the runner's output, at the
      unsupported-language `return`, or by throwing. */
  datatype Attempt = Output(text: string) | Unsupported | Failed(caught: Caught)

  /** Both writes of the `try` block succeed. */
  predicate Materialised(dirs: set<Path>, language: string, code: string, input: Option<string>,
                         codeId: string, inputId: string)
  {
    && WriteError(dirs, CodeFilePath(codeId, language), Some(code)).None?
    && WriteError(dirs, InputFilePath(inputId), input).None?
  }

  /** The `try` block's outcome for a present code text. The writes never
      change the directories, so both are judged against the directories at
      the start. */
  function Attempted(dirs: set<Path>, language: string, code: string, input: Option<string>,
                     codeId: string, inputId: string, procs: Processes): (r: Attempt)
    ensures r.Output? || r.Unsupported? ==> Materialised(dirs, language, code, input, codeId, inputId)
    ensures r.Output? ==> language in Languages
    ensures r.Unsupported? <==> Materialised(dirs, language, code, input, codeId, inputId) && language !in Languages
  {
    var codeError := WriteError(dirs, CodeFilePath(codeId, language), Some(code));
    var inputError := WriteError(dirs, InputFilePath(inputId), input);
    if codeError.Some? then Failed(FromFsError(codeError.value))
    else if inputError.Some? then Failed(FromFsError(inputError.value))
    else if language !in Languages then Unsupported
    else
      match Settle(language, CodeFilePath(codeId, language), InputFilePath(inputId), procs)
      case Resolved(output) => Output(output)
      case Rejected(reason) => Failed(FromRejection(reason))
  }

  /** The response the `try`/`catch` pair sends. */
  function Respond(a: Attempt): (r: Response)
    ensures r.status == 200 <==> a.Output?
    ensures a.Output? ==> r.body == OutputBody(a.text)
    ensures a.Unsupported? ==> r == Response(400, ErrorBody(None, "Unsupported language"))
    ensures a.Failed? ==> r == Response(RunFailure(a.caught).status, ErrorBody(Some(false), RunFailure(a.caught).message))
  {
    match a
    case Output(text) => Response(200, OutputBody(text))
    case Unsupported => Response(400, ErrorBody(None, "Unsupported language"))
    case Failed(c) =>
      var f := RunFailure(c);
      Response(f.status, ErrorBody(Some(false), f.message))
  }

  /** The files a `/run` job may create, overwrite or remove: its input
      file and its source, the `<jobId>.out` the `finally` block lists for C
      and C++, the files its runner may create, and, once a Java job has
      reached its runner, everything under the codes directory. Apart from
      what the submitted program itself does, every other file keeps its
      text. */
  predicate Touchable(dirs: set<Path>, language: string, code: string, input: Option<string>,
                      codeId: string, inputId: string, p: Path)
  {
    var source := CodeFilePath(codeId, language);
    || p == InputFilePath(inputId) || p == source
    || (language in {"cpp", "c"} && p == Join(OutputsDir, codeId + ".out"))
    || (language in Languages && p in Artifacts(language, source))
    || (language == "java" && Materialised(dirs, language, code, input, codeId, inputId) && Under(p, CodesDir))
  }

  ghost function Touched(dirs: set<Path>, language: string, code: string, input: Option<string>,
                         codeId: string, inputId: string): iset<Path>
  {
    iset p | Touchable(dirs, language, code, input, codeId, inputId, p)
  }

  /** The new files a job may leave behind: its source, and what its runner
      may create. */
  ghost function Creatable(language: string, codeId: string): iset<Path> {
    iset p | p == CodeFilePath(codeId, language) || (language in Languages && p in Artifacts(language, CodeFilePath(codeId, language)))
  }

  /** The source and input writes, and the runner, stay within the job's
      files. */
  lemma JobFrames(dirs: set<Path>, language: string, code: string, input: Option<string>, codeId: string, inputId: string)
    ensures var T := Touched(dirs, language, code, input, codeId, inputId);
      var C := Creatable(language, codeId) + iset{InputFilePath(inputId)};
      && iset{CodeFilePath(codeId, language), InputFilePath(inputId)} <= T
      && iset{CodeFilePath(codeId, language), InputFilePath(inputId)} <= C
    ensures IsUuid(codeId) && language in Languages && Materialised(dirs, language, code, input, codeId, inputId) ==>
      && RunnerTouched(language, CodeFilePath(codeId, language)) <= Touched(dirs, language, code, input, codeId, inputId)
      && ArtifactsOf(language, CodeFilePath(codeId, language)) <= Creatable(language, codeId)
  {
    if IsUuid(codeId) {
      JobIdOfCodeFile(codeId, language);
    }
  }

  /** The paths among `ps` that are not null. */
  function Present(ps: seq<Option<Path>>): (r: set<Path>)
    ensures forall i :: 0 <= i < |ps| && ps[i].Some? ==> ps[i].value in r
    ensures forall p :: p in r ==> Some(p) in ps
  {
    if ps == [] then {}
    else Present(ps[..|ps| - 1]) + (if ps[|ps| - 1].Some? then {ps[|ps| - 1].value} else {})
  }

  /** The list the `finally` block collects: the input path always (it may be
      null), the source for C, C++ and Python, and `outputs/<jobId>.out` for C
      and C++. */
  function FilesToDelete(language: string, filePath: Option<Path>, inputFilePath: Option<Path>): seq<Option<Path>> {
    [inputFilePath]
    + (if filePath.Some? && language in {"cpp", "c", "python"} then [filePath] else [])
    + (if filePath.Some? && language in {"cpp", "c"} then [Some(Join(OutputsDir, JobId(filePath.value) + ".out"))] else [])
  }

  lemma CompiledListing(language: string, filePath: Path, inputFilePath: Option<Path>, jobId: string)
    requires language == "c" || language == "cpp"
    requires JobId(filePath) == jobId
    ensures FilesToDelete(language, Some(filePath), inputFilePath)
      == [inputFilePath, Some(filePath), Some(Join(OutputsDir, jobId + ".out"))]
  {
  }

  /** What the `finally` block of one `/run` job lists, given the paths the
      `try` block recorded: the input whenever it was written, the source
      exactly for C, C++ and Python, and never the C or C++ binary. */
  lemma ListedPaths(language: string, codeId: string, inputId: string,
                    filePath: Option<Path>, inputFilePath: Option<Path>)
    requires IsUuid(codeId) && IsUuid(inputId)
    requires filePath.Some? ==> filePath.value == CodeFilePath(codeId, language)
    requires inputFilePath.Some? ==> inputFilePath.value == InputFilePath(inputId) && filePath.Some?
    ensures var listed := FilesToDelete(language, filePath, inputFilePath);
      && (inputFilePath.Some? ==> Some(InputFilePath(inputId)) in listed)
      && (filePath.Some? ==> (Some(CodeFilePath(codeId, language)) in listed <==> language in {"cpp", "c", "python"}))
      && ((language == "c" || language == "cpp") ==> Some(BinaryPath(language, CodeFilePath(codeId, language))) !in listed)
  {
    var listed := FilesToDelete(language, filePath, inputFilePath);
    var source := CodeFilePath(codeId, language);
    assert listed[0] == inputFilePath;
    if language == "c" || language == "cpp" {
      var binary := BinaryPath(language, source);
      assert binary != source && binary != InputFilePath(inputId) && binary != Join(OutputsDir, codeId + ".out") by {
        BinaryPlacement(codeId, inputId, language);
      }
      if filePath.Some? {
        assert JobId(source) == codeId by {
          JobIdOfCodeFile(codeId, language);
        }
        CompiledListing(language, source, inputFilePath, codeId);
      }
    } else if filePath.Some? && language == "python" {
      assert listed[1] == filePath;
    } else if filePath.Some? {
      assert InputFilePath(inputId) != source by {
        JobPathsDisjoint(codeId, inputId, language);
      }
    }
  }

  /** `for (const file of filesToDelete) if (file) fs.unlink(file)`. */
  method UnlinkAll(fs: FileSystem, filesToDelete: seq<Option<Path>>)
    modifies fs
    ensures fs.files == old(fs.files) - Present(filesToDelete)
    ensures fs.dirs == old(fs.dirs)
  {
    for i := 0 to |filesToDelete|
      invariant fs.files == old(fs.files) - Present(filesToDelete[..i])
      invariant fs.dirs == old(fs.dirs)
    {
      assert filesToDelete[..i + 1][..i] == filesToDelete[..i];
      if filesToDelete[i].Some? {
        var err := fs.Unlink(filesToDelete[i].value);
      }
    }
    assert filesToDelete[..|filesToDelete|] == filesToDelete;
  }

  /** The files the `finally` block leaves: those it does not list and that
      do not lie under the removed Java directory, each with its text. */
  function FinallyFiles(files: map<Path, string>, language: string, filePath: Option<Path>,
                        inputFilePath: Option<Path>, jobDirForJava: Option<Path>): map<Path, string>
  {
    var unlinked := files - Present(FilesToDelete(language, filePath, inputFilePath));
    if jobDirForJava.Some? && language == "java" then FilesOutside(unlinked, jobDirForJava.value) else unlinked
  }

  /** The `finally` block: unlink the collected paths, then, for Java, remove
      the recorded directory recursively. */
  method Finally(fs: FileSystem, language: string, filePath: Option<Path>, inputFilePath: Option<Path>,
                 jobDirForJava: Option<Path>)
    modifies fs
    ensures fs.files == FinallyFiles(old(fs.files), language, filePath, inputFilePath, jobDirForJava)
    ensures fs.dirs == if jobDirForJava.Some? && language == "java" then DirsOutside(old(fs.dirs), jobDirForJava.value)
                       else old(fs.dirs)
  {
    var filesToDelete: seq<Option<Path>> := [inputFilePath];
    if filePath.Some? && language in {"cpp", "c", "python"} {
      filesToDelete := filesToDelete + [filePath];
    }
    if filePath.Some? && language in {"cpp", "c"} {
      var jobId := JobId(filePath.value);
      filesToDelete := filesToDelete + [Some(Join(OutputsDir, jobId + ".out"))];
    }
    assert filesToDelete == FilesToDelete(language, filePath, inputFilePath);
    UnlinkAll(fs, filesToDelete);
    if jobDirForJava.Some? && language == "java" {
      fs.RemoveTree(jobDirForJava.value);
    }
  }

  /** The source path the `try` block records: set once its write succeeded. */
  function RecordedSource(dirs: set<Path>, language: string, code: string, codeId: string): Option<Path> {
    if WriteError(dirs, CodeFilePath(codeId, language), Some(code)).None? then Some(CodeFilePath(codeId, language)) else None
  }

  /** The input path the `try` block records: set once both writes succeeded. */
  function RecordedInput(dirs: set<Path>, language: string, code: string, input: Option<string>,
                         codeId: string, inputId: string): Option<Path> {
    if Materialised(dirs, language, code, input, codeId, inputId) then Some(InputFilePath(inputId)) else None
  }

  /** The directory the `try` block records for Java: the source's, once both
      writes succeeded. */
  function RecordedJobDir(dirs: set<Path>, language: string, code: string, input: Option<string>,
                          codeId: string, inputId: string): Option<Path> {
    if Materialised(dirs, language, code, input, codeId, inputId) && language == "java" then Some(CodesDir) else None
  }

  /** The files the `try` block leaves: the source once its write succeeds,
      the input once its write succeeds too, and then, for a supported
      language, what the runner leaves. */
  function TriedFiles(files: map<Path, string>, dirs: set<Path>, language: string, code: string, input: Option<string>,
                      codeId: string, inputId: string, procs: Processes): map<Path, string>
  {
    var source := CodeFilePath(codeId, language);
    if WriteError(dirs, source, Some(code)).Some? then files
    else if WriteError(dirs, InputFilePath(inputId), input).Some? then files[source := code]
    else
      var written := files[source := code][InputFilePath(inputId) := input.value];
      if language in Languages then RunnerFiles(written, dirs, language, source, procs) else written
  }

  /** The directories after the `try` block, and after the whole job: only a
      Java job that reached its runner removes any, the codes directory's. */
  function JobDirs(dirs: set<Path>, language: string, code: string, input: Option<string>,
                   codeId: string, inputId: string): set<Path> {
    if RecordedJobDir(dirs, language, code, input, codeId, inputId).Some? then DirsOutside(dirs, CodesDir) else dirs
  }

  /** The files one `/run` job with a present code text leaves: the `try`
      block's, less what the `finally` block removes. */
  function RunFiles(files: map<Path, string>, dirs: set<Path>, language: string, code: string, input: Option<string>,
                    codeId: string, inputId: string, procs: Processes): map<Path, string>
  {
    FinallyFiles(TriedFiles(files, dirs, language, code, input, codeId, inputId, procs), language,
                 RecordedSource(dirs, language, code, codeId),
                 RecordedInput(dirs, language, code, input, codeId, inputId),
                 RecordedJobDir(dirs, language, code, input, codeId, inputId))
  }

  /** The `try` block touches only the job's files, and creates only its
      source, its input and runner artifacts. */
  lemma TriedFrame(files: map<Path, string>, dirs: set<Path>, language: string, code: string, input: Option<string>,
                   codeId: string, inputId: string, procs: Processes)
    requires IsUuid(codeId)
    ensures var tried := TriedFiles(files, dirs, language, code, input, codeId, inputId, procs);
      && KeepsOutside(files, tried, Touched(dirs, language, code, input, codeId, inputId))
      && CreatesWithin(files, tried, Creatable(language, codeId) + iset{InputFilePath(inputId)})
  {
    var source := CodeFilePath(codeId, language);
    var inputPath := InputFilePath(inputId);
    var T := Touched(dirs, language, code, input, codeId, inputId);
    var C := Creatable(language, codeId) + iset{inputPath};
    JobFrames(dirs, language, code, input, codeId, inputId);
    if WriteError(dirs, source, Some(code)).None? {
      var f1 := files[source := code];
      WriteFrame(files, source, code);
      FrameWiden(files, f1, iset{source}, T, iset{source}, C);
      if WriteError(dirs, inputPath, input).None? {
        var written := f1[inputPath := input.value];
        WriteFrame(f1, inputPath, input.value);
        FrameWiden(f1, written, iset{inputPath}, T, iset{inputPath}, C);
        FrameTrans(files, f1, written, T, C);
        if language in Languages {
          var after := RunnerFiles(written, dirs, language, source, procs);
          RunnerFrame(written, dirs, language, source, procs);
          FrameWiden(written, after, RunnerTouched(language, source), T, ArtifactsOf(language, source), C);
          FrameTrans(files, written, after, T, C);
        }
      }
    }
  }

  /** Every path the `finally` block lists is one the job may touch. */
  lemma ListedTouchable(dirs: set<Path>, language: string, code: string, input: Option<string>,
                        codeId: string, inputId: string)
    requires IsUuid(codeId)
    ensures forall p :: Some(p) in FilesToDelete(language, RecordedSource(dirs, language, code, codeId),
                                                 RecordedInput(dirs, language, code, input, codeId, inputId)) ==>
      Touchable(dirs, language, code, input, codeId, inputId, p)
  {
    JobIdOfCodeFile(codeId, language);
  }

  /** The `finally` block removes only what it lists and, for Java, what
      lies under the recorded directory; it creates nothing and changes no
      text. */
  lemma FinallyFrame(files: map<Path, string>, language: string, filePath: Option<Path>,
                     inputFilePath: Option<Path>, jobDirForJava: Option<Path>)
    ensures var after := FinallyFiles(files, language, filePath, inputFilePath, jobDirForJava);
      && KeepsOutside(files, after, iset p | Some(p) in FilesToDelete(language, filePath, inputFilePath)
                                           || (jobDirForJava.Some? && language == "java" && Under(p, jobDirForJava.value)))
      && CreatesWithin(files, after, iset{})
  {
  }

  /** Apart from what the submitted program itself does, a `/run` job
      changes or removes only the files it may touch, and the
      only new files it leaves are its source and runner artifacts: the input
      file is always gone again. */
  lemma RunFrame(files: map<Path, string>, dirs: set<Path>, language: string, code: string, input: Option<string>,
                 codeId: string, inputId: string, procs: Processes)
    requires IsUuid(codeId) && IsUuid(inputId)
    ensures var after := RunFiles(files, dirs, language, code, input, codeId, inputId, procs);
      && KeepsOutside(files, after, Touched(dirs, language, code, input, codeId, inputId))
      && CreatesWithin(files, after, Creatable(language, codeId))
  {
    var tried := TriedFiles(files, dirs, language, code, input, codeId, inputId, procs);
    var after := RunFiles(files, dirs, language, code, input, codeId, inputId, procs);
    var filePath := RecordedSource(dirs, language, code, codeId);
    var inputFilePath := RecordedInput(dirs, language, code, input, codeId, inputId);
    var jobDir := RecordedJobDir(dirs, language, code, input, codeId, inputId);
    var T := Touched(dirs, language, code, input, codeId, inputId);
    var C := Creatable(language, codeId) + iset{InputFilePath(inputId)};
    var L := iset p | Some(p) in FilesToDelete(language, filePath, inputFilePath)
                    || (jobDir.Some? && language == "java" && Under(p, jobDir.value));
    TriedFrame(files, dirs, language, code, input, codeId, inputId, procs);
    FinallyFrame(tried, language, filePath, inputFilePath, jobDir);
    assert L <= T by {
      ListedTouchable(dirs, language, code, input, codeId, inputId);
    }
    FrameWiden(tried, after, L, T, iset{}, C);
    FrameTrans(files, tried, after, T, C);
    RunRemovesInput(files, dirs, language, code, input, codeId, inputId, procs);
  }

  /** The input file a job writes is gone when the job ends: it survives
      only if it was there before. */
  lemma RunRemovesInput(files: map<Path, string>, dirs: set<Path>, language: string, code: string, input: Option<string>,
                        codeId: string, inputId: string, procs: Processes)
    requires IsUuid(codeId) && IsUuid(inputId)
    ensures InputFilePath(inputId) in RunFiles(files, dirs, language, code, input, codeId, inputId, procs) ==>
      InputFilePath(inputId) in files
  {
    var inputPath := InputFilePath(inputId);
    var filePath := RecordedSource(dirs, language, code, codeId);
    var inputFilePath := RecordedInput(dirs, language, code, input, codeId, inputId);
    if Materialised(dirs, language, code, input, codeId, inputId) {
      assert FilesToDelete(language, filePath, inputFilePath)[0] == Some(inputPath);
    } else {
      JobPathsDisjoint(codeId, inputId, language);
    }
  }

  /** What becomes of a written source: C, C++ and Python sources are
      unlinked; an unsupported language's source stays, as does a Java source
      whose input write failed (no directory was recorded). */
  lemma RunSourceFate(files: map<Path, string>, dirs: set<Path>, language: string, code: string, input: Option<string>,
                      codeId: string, inputId: string, procs: Processes)
    requires IsUuid(codeId) && IsUuid(inputId)
    requires WriteError(dirs, CodeFilePath(codeId, language), Some(code)).None?
    ensures var after := RunFiles(files, dirs, language, code, input, codeId, inputId, procs);
      var source := CodeFilePath(codeId, language);
      && (language in {"cpp", "c", "python"} ==> source !in after)
      && (language !in Languages ==> source in after && after[source] == code)
      && (language == "java" && !Materialised(dirs, language, code, input, codeId, inputId) ==>
            source in after && after[source] == code)
  {
    var source := CodeFilePath(codeId, language);
    var inputFilePath := RecordedInput(dirs, language, code, input, codeId, inputId);
    var tried := TriedFiles(files, dirs, language, code, input, codeId, inputId, procs);
    assert RunFiles(files, dirs, language, code, input, codeId, inputId, procs)
        == FinallyFiles(tried, language, Some(source), inputFilePath, RecordedJobDir(dirs, language, code, input, codeId, inputId));
    ListedPaths(language, codeId, inputId, Some(source), inputFilePath);
    if language !in Languages || (language == "java" && !Materialised(dirs, language, code, input, codeId, inputId)) {
      JobPathsDisjoint(codeId, inputId, language);
      assert source in tried && tried[source] == code;
    }
  }

  /** A C or C++ job that reached its runner leaves the binary the compiler
      wrote: the `finally` block never lists it. */
  lemma RunKeepsBinary(files: map<Path, string>, dirs: set<Path>, language: string, code: string, input: Option<string>,
                       codeId: string, inputId: string, procs: Processes)
    requires IsUuid(codeId) && IsUuid(inputId)
    requires language == "c" || language == "cpp"
    requires Materialised(dirs, language, code, input, codeId, inputId)
    requires procs.build.wrote.Some? && OutputsDir in dirs
    requires BinaryPath(language, CodeFilePath(codeId, language)) !in dirs
    ensures var after := RunFiles(files, dirs, language, code, input, codeId, inputId, procs);
      var binary := BinaryPath(language, CodeFilePath(codeId, language));
      binary in after && after[binary] == procs.build.wrote.value
  {
    var source := CodeFilePath(codeId, language);
    var inputPath := InputFilePath(inputId);
    var binary := BinaryPath(language, source);
    var tried := TriedFiles(files, dirs, language, code, input, codeId, inputId, procs);
    assert RunFiles(files, dirs, language, code, input, codeId, inputId, procs)
        == FinallyFiles(tried, language, Some(source), Some(inputPath), None);
    TriedBinary(files, dirs, language, code, input, codeId, inputId, procs);
    ListedPaths(language, codeId, inputId, Some(source), Some(inputPath));
  }

  /** The binary the compiler wrote is among the files the `try` block
      leaves. */
  lemma TriedBinary(files: map<Path, string>, dirs: set<Path>, language: string, code: string, input: Option<string>,
                    codeId: string, inputId: string, procs: Processes)
    requires IsUuid(codeId) && IsUuid(inputId)
    requires language == "c" || language == "cpp"
    requires Materialised(dirs, language, code, input, codeId, inputId)
    requires procs.build.wrote.Some? && OutputsDir in dirs
    requires BinaryPath(language, CodeFilePath(codeId, language)) !in dirs
    ensures var tried := TriedFiles(files, dirs, language, code, input, codeId, inputId, procs);
      var binary := BinaryPath(language, CodeFilePath(codeId, language));
      binary in tried && tried[binary] == procs.build.wrote.value
  {
    var source := CodeFilePath(codeId, language);
    var written := files[source := code][InputFilePath(inputId) := input.value];
    assert TriedFiles(files, dirs, language, code, input, codeId, inputId, procs)
        == RunnerFiles(written, dirs, language, source, procs);
    BinaryPlacement(codeId, inputId, language);
  }

  /** A Java job that reached its runner takes the whole codes directory
      with it: other jobs' sources and every file below it. */
  lemma JavaRunTakesCodesDir(files: map<Path, string>, dirs: set<Path>, code: string, input: Option<string>,
                             codeId: string, inputId: string, procs: Processes)
    requires Materialised(dirs, "java", code, input, codeId, inputId)
    ensures CodesDir !in JobDirs(dirs, "java", code, input, codeId, inputId)
    ensures forall p :: p in RunFiles(files, dirs, "java", code, input, codeId, inputId, procs) ==> !Under(p, CodesDir)
  {
    assert Under(CodesDir, CodesDir);
  }

  /** The first two statements of the `try` block: write the source, then
      the input; the first write that throws ends the block. Each path is
      recorded only when its write succeeded. */
  method WriteJobFiles(fs: FileSystem, language: string, code: string, input: Option<string>,
                       codeId: string, inputId: string)
    returns (filePath: Option<Path>, inputFilePath: Option<Path>, error: Option<FsError>)
    requires IsUuid(codeId) && IsUuid(inputId)
    modifies fs
    ensures filePath == RecordedSource(old(fs.dirs), language, code, codeId)
    ensures inputFilePath == RecordedInput(old(fs.dirs), language, code, input, codeId, inputId)
    ensures error == if filePath.None? then WriteError(old(fs.dirs), CodeFilePath(codeId, language), Some(code))
                     else WriteError(old(fs.dirs), InputFilePath(inputId), input)
    ensures fs.files == if inputFilePath.Some? then old(fs.files)[CodeFilePath(codeId, language) := code][InputFilePath(inputId) := input.value]
                        else if filePath.Some? then old(fs.files)[CodeFilePath(codeId, language) := code]
                        else old(fs.files)
    ensures fs.dirs == old(fs.dirs)
  {
    filePath, inputFilePath, error := None, None, None;
    var generated := GenerateFile(fs, language, code, codeId);
    if generated.Err? {
      error := Some(generated.error);
      return;
    }
    filePath := Some(generated.value);
    var generatedInput := GenerateInputFile(fs, input, inputId);
    if generatedInput.Err? {
      error := Some(generatedInput.error);
      return;
    }
    inputFilePath := Some(generatedInput.value);
  }

  /** The `try` block: write the source, write the input, then call the runner
      for a supported language. It leaves the files `TriedFiles` describes,
      and so touches nothing outside the job's own files. */
  method TryBlock(fs: FileSystem, language: string, code: string, input: Option<string>,
                  codeId: string, inputId: string, procs: Processes)
    returns (attempt: Attempt, filePath: Option<Path>, inputFilePath: Option<Path>, jobDirForJava: Option<Path>)
    requires IsUuid(codeId) && IsUuid(inputId)
    modifies fs
    ensures attempt == Attempted(old(fs.dirs), language, code, input, codeId, inputId, procs)
    ensures filePath == RecordedSource(old(fs.dirs), language, code, codeId)
    ensures inputFilePath == RecordedInput(old(fs.dirs), language, code, input, codeId, inputId)
    ensures jobDirForJava == RecordedJobDir(old(fs.dirs), language, code, input, codeId, inputId)
    ensures fs.files == TriedFiles(old(fs.files), old(fs.dirs), language, code, input, codeId, inputId, procs)
    ensures fs.dirs == JobDirs(old(fs.dirs), language, code, input, codeId, inputId)
    ensures KeepsOutside(old(fs.files), fs.files, Touched(old(fs.dirs), language, code, input, codeId, inputId))
    ensures CreatesWithin(old(fs.files), fs.files, Creatable(language, codeId) + iset{InputFilePath(inputId)})
  {
    TriedFrame(fs.files, fs.dirs, language, code, input, codeId, inputId, procs);
    var error;
    jobDirForJava := None;
    filePath, inputFilePath, error := WriteJobFiles(fs, language, code, input, codeId, inputId);
    if error.Some? {
      attempt := Failed(FromFsError(error.value));
      return;
    }
    if language == "java" {
      jobDirForJava := Some(Dirname(filePath.value));
    }
    if language !in Languages {
      attempt := Unsupported;
      return;
    }
    JobPathsDisjoint(codeId, inputId, language);
    var settled := Invoke(fs, language, filePath.value, inputFilePath.value, procs);
    attempt := if settled.Resolved? then Output(settled.output) else Failed(FromRejection(settled.reason));
  }

  /** The `try` block followed by the `finally` block, for a present code
      text; the response is computed in between and touches no file, so it is
      left to `Run`. The job leaves the files `RunFiles` describes. */
  method TryFinally(fs: FileSystem, language: string, code: string, input: Option<string>,
                    codeId: string, inputId: string, procs: Processes) returns (attempt: Attempt)
    requires IsUuid(codeId) && IsUuid(inputId)
    modifies fs
    ensures attempt == Attempted(old(fs.dirs), language, code, input, codeId, inputId, procs)
    ensures fs.files == RunFiles(old(fs.files), old(fs.dirs), language, code, input, codeId, inputId, procs)
    ensures fs.dirs == JobDirs(old(fs.dirs), language, code, input, codeId, inputId)
  {
    var filePath, inputFilePath, jobDirForJava;
    attempt, filePath, inputFilePath, jobDirForJava := TryBlock(fs, language, code, input, codeId, inputId, procs);
    Finally(fs, language, filePath, inputFilePath, jobDirForJava);
  }

  /** `POST /run`. Without a truthy `code` the route answers 400 at once and
      touches nothing. Otherwise the answer is the `try`/`catch` outcome, the
      disk is left as `RunFiles` and `JobDirs` describe, and so, apart from
      what the submitted program itself does, every file the job may not
      touch keeps its text and the only new files are the job's source and
      runner artifacts. The response is built here after
      `TryFinally` returns; it reads no file, so this order is the same as the
      source's. */
  method Run(fs: FileSystem, req: RunRequest, codeId: string, inputId: string, procs: Processes)
    returns (resp: Response)
    requires IsUuid(codeId) && IsUuid(inputId)
    modifies fs
    ensures !Truthy(req.code) ==>
      resp == Response(400, ErrorBody(Some(false), "Code is required")) && fs.files == old(fs.files) && fs.dirs == old(fs.dirs)
    ensures Truthy(req.code) ==>
      && resp == Respond(Attempted(old(fs.dirs), RequestLanguage(req), req.code.value, req.input, codeId, inputId, procs))
      && fs.files == RunFiles(old(fs.files), old(fs.dirs), RequestLanguage(req), req.code.value, req.input, codeId, inputId, procs)
      && fs.dirs == JobDirs(old(fs.dirs), RequestLanguage(req), req.code.value, req.input, codeId, inputId)
    ensures Truthy(req.code) ==>
      && KeepsOutside(old(fs.files), fs.files, Touched(old(fs.dirs), RequestLanguage(req), req.code.value, req.input, codeId, inputId))
      && CreatesWithin(old(fs.files), fs.files, Creatable(RequestLanguage(req), codeId))
  {
    var language := RequestLanguage(req);
    if !Truthy(req.code) {
      return Response(400, ErrorBody(Some(false), "Code is required"));
    }
    RunFrame(fs.files, fs.dirs, language, req.code.value, req.input, codeId, inputId, procs);
    var attempt := TryFinally(fs, language, req.code.value, req.input, codeId, inputId, procs);
    match attempt {
      case Output(text) =>
        resp := Response(200, OutputBody(text));
      case Unsupported =>
        resp := Response(400, ErrorBody(None, "Unsupported language"));
      case Failed(err) =>
        var statusCode, errorMessage := MapError(err);
        resp := Response(statusCode, ErrorBody(Some(false), errorMessage));
    }
  }

  /** A label of at most 17 characters that does not begin with "c" blames
      the user: it is too short to hold "No such file or directory", and the
      only 17-character text holding "command not found" is that text. */
  lemma ShortLabelBlamesTheUser(e: string)
    requires |e| <= 17 && e != [] && e[0] != 'c'
    ensures !PointsAtConfiguration(e)
  {
  }

  /** A Java or Python job never gets its output back: the routes never pass
      an output path, so the runner reads `undefined` and fails. Whatever the
      processes do, the answer is a 400 carrying a bare label, and with
      processes that succeed that label is "Output Read Error". The compiler's
      and the program's diagnostics (the rejection's `details`) are never
      shown. */
  lemma JavaPythonOnlyLabels(dirs: set<Path>, language: string, code: string, input: Option<string>,
                             codeId: string, inputId: string, procs: Processes)
    requires language == "java" || language == "python"
    requires Materialised(dirs, language, code, input, codeId, inputId)
    ensures var r := Respond(Attempted(dirs, language, code, input, codeId, inputId, procs));
      && r.status == 400
      && r.body.ErrorBody?
      && r.body.error in {"Compilation Error", "Runtime Error", "Output Read Error"}
      && (r.body.error == "Compilation Error" <==> language == "java" && procs.build.failed)
      && (r.body.error == "Output Read Error" <==>
            !procs.run.failed && procs.run.stderr == "" && (language == "java" ==> !procs.build.failed))
  {
    var settled := Settle(language, CodeFilePath(codeId, language), InputFilePath(inputId), procs);
    JavaPythonLabels(language, CodeFilePath(codeId, language), InputFilePath(inputId), procs);
    var a := Attempted(dirs, language, code, input, codeId, inputId, procs);
    assert a == Failed(FromRejection(settled.reason));
    var e := settled.reason.error;
    assert Headline(a.caught) == Failure(400, e) by {
      ShortLabelBlamesTheUser(e);
    }
    assert RunFailure(a.caught) == Failure(400, e);
  }

  /** A request without `input`: the input write throws Node's TypeError,
      which the route answers with 500 and that error's message. */
  lemma MissingInputIsServerError(dirs: set<Path>, language: string, code: string,
                                  codeId: string, inputId: string, procs: Processes)
    requires WriteError(dirs, CodeFilePath(codeId, language), Some(code)).None?
    ensures Respond(Attempted(dirs, language, code, None, codeId, inputId, procs))
      == Response(500, ErrorBody(Some(false), InvalidArgType("data").Message()))
  {
    var a := Attempted(dirs, language, code, None, codeId, inputId, procs);
    assert a == Failed(FromFsError(InvalidArgType("data")));
    var m := InvalidArgType("data").Message();
    assert m[0] == 'T';
    assert Headline(a.caught) == Failure(500, m);
    assert RunFailure(a.caught) == Failure(500, m);
  }

  /** A thrown object whose `error` mentions a missing command or file gets
      the configuration message and 500, whatever else it carries. */
  lemma ConfigurationHeadline(c: Caught)
    requires c.Thrown? && c.error.Some? && PointsAtConfiguration(c.error.value)
    ensures Headline(c) == Failure(500, ConfigurationMessage)
  {
    assert c.error.value != "";
  }

  /** Text that mentions a missing file is not blank. */
  lemma MissingFileNotBlank(s: string)
    requires Includes(s, "No such file or directory")
    ensures Trim(s) != ""
  {
    assert !IsTrimmable("No such file or directory"[0]);
    IncludesNonBlank(s, "No such file or directory");
  }

  /** A C or C++ runner whose command line fails with "No such file or
      directory" on stderr (a missing header, say) is blamed on the server:
      exec's message repeats stderr, so the route answers 500 with its
      configuration message, followed by the trimmed stderr (and, for C, the
      stdout). */
  lemma CompileFailureBlamesServer(language: string, source: Path, inputPath: Path, procs: Processes)
    requires language == "c" || language == "cpp"
    requires procs.build.failed && Includes(procs.build.stderr, "No such file or directory")
    ensures RunFailure(FromRejection(Settle(language, source, inputPath, procs).reason))
      == Failure(500, ConfigurationMessage + ("\nStderr: " + Trim(procs.build.stderr))
                      + (if language == "c" then StreamNote("\nStdout: ", Some(procs.build.stdout)) else ""))
  {
    var command := Render(if language == "c" then ExecuteC.Command(source, inputPath) else ExecuteCpp.Command(source, inputPath));
    var settled := Settle(language, source, inputPath, procs);
    var c := FromRejection(settled.reason);
    assert c.stderr == Some(procs.build.stderr) && c.stdout == if language == "c" then Some(procs.build.stdout) else None;
    assert Headline(c) == Failure(500, ConfigurationMessage) by {
      assert settled.reason.error == FailureMessage(command, procs.build);
      FailureMessageShowsStderr(command, procs.build, "No such file or directory");
      ConfigurationHeadline(c);
    }
    assert StreamNote("\nStderr: ", Some(procs.build.stderr)) == "\nStderr: " + Trim(procs.build.stderr) by {
      MissingFileNotBlank(procs.build.stderr);
    }
  }

  /** The same, for a `/run` job whose files were written. */
  lemma MissingHeaderBlamesServer(dirs: set<Path>, language: string, code: string, input: Option<string>,
                                  codeId: string, inputId: string, procs: Processes)
    requires language == "c" || language == "cpp"
    requires Materialised(dirs, language, code, input, codeId, inputId)
    requires procs.build.failed && Includes(procs.build.stderr, "No such file or directory")
    ensures Respond(Attempted(dirs, language, code, input, codeId, inputId, procs))
      == Response(500, ErrorBody(Some(false),
           ConfigurationMessage + ("\nStderr: " + Trim(procs.build.stderr))
           + (if language == "c" then StreamNote("\nStdout: ", Some(procs.build.stdout)) else "")))
  {
    var source := CodeFilePath(codeId, language);
    var inputPath := InputFilePath(inputId);
    var c := FromRejection(Settle(language, source, inputPath, procs).reason);
    assert Attempted(dirs, language, code, input, codeId, inputId, procs) == Failed(c);
    CompileFailureBlamesServer(language, source, inputPath, procs);
  }

  /** A compile that only warns fails a C job, which rejects on any stderr,
      and passes a C++ job, which looks at the exit status alone. */
  lemma WarningsFailOnlyC(dirs: set<Path>, code: string, input: Option<string>,
                          codeId: string, inputId: string, procs: Processes)
    requires Materialised(dirs, "c", code, input, codeId, inputId)
    requires Materialised(dirs, "cpp", code, input, codeId, inputId)
    requires !procs.build.failed && procs.build.stderr != ""
    ensures Respond(Attempted(dirs, "c", code, input, codeId, inputId, procs)).status != 200
    ensures Respond(Attempted(dirs, "cpp", code, input, codeId, inputId, procs)) == Response(200, OutputBody(procs.build.stdout))
  {
  }

  /** The `details` a runner attaches to its rejection never reach the
      response. */
  lemma DetailsNeverShown(c: Caught, details: Option<string>)
    requires c.Thrown?
    ensures RunFailure(c.(details := details)) == RunFailure(c)
  {
  }
}
