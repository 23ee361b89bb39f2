/** `POST /submit` (server/index.js:372-521): write the source, look up the
    problem and its test cases, run every test case through the runner for
    the language and compare trimmed outputs, save the submission with its
    verdict, then delete what the route believes the job left behind. */
module SubmitRoute {
  import opened Js
  import opened Paths
  import opened FileStore
  import opened Exec
  import opened Generate
  import opened Dispatch
  import RunRoute

  /** The request body's fields; any may be missing. */
  datatype SubmitRequest = SubmitRequest(code: Option<string>, language: Option<string>, problemId: Option<string>)

  /** A stored test case: its stdin text and its expected output. */
  datatype TestCase = TestCase(input: string, output: string)

  /** What `Problem.findById` and `Testcase.find` give: the problem's test
      cases in the order the database returns them, no such problem, or the
      message of the error a query throws (an id that is not an ObjectId, say). */
  datatype Lookup = Found(testCases: seq<TestCase>) | NoProblem | LookupFailed(message: string)

  /** What one test case draws from outside the route: the UUID naming its
      input file and the exec calls its runner invocation makes. */
  datatype CaseRun = CaseRun(inputId: string, procs: Processes)

  /** `executionErrorDetails`. */
  datatype ExecutionError = ExecutionError(error: string, stderr: string, stdout: string)

  /** One element pushed to `results`; `failure` holds the error, stderr and
      stdout properties a failed run adds. */
  datatype CaseRecord = CaseRecord(input: string, expected: string, actual: string, passed: bool,
                                   failure: Option<ExecutionError>)

  /** An element of the saved submission's `results`: the schema keeps these
      four properties and drops the rest. */
  datatype StoredResult = StoredResult(input: string, expected: string, actual: string, passed: bool)

  /** `{ success: true, verdict, results }` or `{ success: false, error }`,
      the latter with `details` from the outer `catch`. */
  datatype SubmitBody = Judged(verdict: string, results: seq<StoredResult>) | Refused(error: string, details: Option<string>)

  datatype SubmitResponse = SubmitResponse(status: int, body: SubmitBody)

  const SubmissionFailed: string := "Internal server error during submission process."

  /** The outer `catch`: 500 with the thrown error's message as `details`. */
  function ServerError(details: string): SubmitResponse {
    SubmitResponse(500, Refused(SubmissionFailed, Some(details)))
  }

  /** `code`, `language` and `problemId` are all truthy. */
  predicate Complete(req: SubmitRequest) {
    Truthy(req.code) && Truthy(req.language) && Truthy(req.problemId)
  }

  /** One draw per test case, each a v4 UUID. */
  predicate Drawn(lookup: Lookup, runs: seq<CaseRun>) {
    && (lookup.Found? ==> |lookup.testCases| <= |runs|)
    && forall k :: 0 <= k < |runs| ==> IsUuid(runs[k].inputId)
  }

  /** What the `switch` of the inner `try` gives: the runner's output, or
      the value thrown, an Error of its own for a language no runner handles.
      Only a compiled language can produce output: the Java and Python
      runners are called without an output path. */
  function CaseOutcome(language: string, filePath: Path, inputFilePath: Path, procs: Processes): (r: Result<string, Caught>)
    ensures language !in Languages ==> r == Err(Thrown(None, Some(UnsupportedMessage), None, None, None))
    ensures r.Ok? <==> || (language == "c" && !procs.build.failed && procs.build.stderr == "")
                       || (language == "cpp" && !procs.build.failed)
    ensures r.Ok? ==> r.value == procs.build.stdout
  {
    if language !in Languages then Err(Thrown(None, Some(UnsupportedMessage), None, None, None))
    else
      match Settle(language, filePath, inputFilePath, procs)
      case Resolved(output) => Ok(output)
      case Rejected(reason) => Err(FromRejection(reason))
  }

  /** The inner `catch`'s `executionErrorDetails`: `error || message ||
      "Unknown execution error"`, and each stream or "". The recorded error
      is never empty, and a runner's label is kept as it is. */
  function Details(c: Caught): (r: ExecutionError)
    ensures r.error != ""
    ensures c.Thrown? && Truthy(c.error) ==> r.error == c.error.value
  {
    match c
    case Thrown(error, message, _, stdout, stderr) =>
      ExecutionError(if Truthy(error) then error.value else if Truthy(message) then message.value else "Unknown execution error",
                     if Truthy(stderr) then stderr.value else "",
                     if Truthy(stdout) then stdout.value else "")
    case _ => ExecutionError("Unknown execution error", "", "")
  }

  /** The record pushed for one test case. */
  function Judge(tc: TestCase, outcome: Result<string, Caught>): CaseRecord {
    match outcome
    case Err(c) => CaseRecord(tc.input, Trim(tc.output), "Execution Error", false, Some(Details(c)))
    case Ok(actualOutput) =>
      CaseRecord(tc.input, Trim(tc.output), Trim(actualOutput), Trim(actualOutput) == Trim(tc.output), None)
  }

  /** What a record says. The expected text is the trimmed test output. A
      failed run records "Execution Error" as its output and never passes; a
      run that produced output records it trimmed, and passes exactly when
      that is the expected text. */
  lemma JudgeMeaning(tc: TestCase, outcome: Result<string, Caught>)
    ensures var r := Judge(tc, outcome);
      && r.input == tc.input && r.expected == Trim(tc.output)
      && (r.failure.Some? <==> outcome.Err?)
      && (outcome.Err? ==> r.actual == "Execution Error" && r.failure == Some(Details(outcome.error)))
      && (outcome.Ok? ==> r.actual == Trim(outcome.value))
      && (r.passed <==> r.failure.None? && r.actual == r.expected)
      && IsTrimmed(r.expected) && (r.failure.None? ==> IsTrimmed(r.actual))
  {
    TrimShape(tc.output);
    if outcome.Ok? {
      TrimShape(outcome.value);
    }
  }

  /** `generateInputFile(testCase.input)` does not throw. */
  predicate InputWritable(dirs: set<Path>, tc: TestCase, run: CaseRun) {
    WriteError(dirs, InputFilePath(run.inputId), Some(tc.input)).None?
  }

  /** The record a test case gets once its input file is written. */
  function Record(language: string, filePath: Path, tc: TestCase, run: CaseRun): CaseRecord {
    Judge(tc, CaseOutcome(language, filePath, InputFilePath(run.inputId), run.procs))
  }

  /** The index of the first test case from `from` on whose input file
      cannot be written, or the number of test cases when there is none. */
  function FirstUnwritable(dirs: set<Path>, cases: seq<TestCase>, runs: seq<CaseRun>, from: nat): (k: nat)
    requires from <= |cases| <= |runs|
    ensures from <= k <= |cases|
    ensures forall j :: from <= j < k ==> InputWritable(dirs, cases[j], runs[j])
    ensures k < |cases| ==> !InputWritable(dirs, cases[k], runs[k])
    decreases |cases| - from
  {
    if from == |cases| || !InputWritable(dirs, cases[from], runs[from]) then from
    else FirstUnwritable(dirs, cases, runs, from + 1)
  }

  /** The records of the first `n` test cases, in order. */
  function Records(language: string, filePath: Path, cases: seq<TestCase>, runs: seq<CaseRun>, n: nat): (rs: seq<CaseRecord>)
    requires n <= |cases| <= |runs|
  {
    seq(n, k requires 0 <= k < n => Record(language, filePath, cases[k], runs[k]))
  }

  lemma RecordsGrow(language: string, filePath: Path, cases: seq<TestCase>, runs: seq<CaseRun>, n: nat)
    requires n < |cases| <= |runs|
    ensures Records(language, filePath, cases, runs, n + 1)
         == Records(language, filePath, cases, runs, n) + [Record(language, filePath, cases[n], runs[n])]
  {
  }

  /** The loop over the test cases, judged against the directories at its
      start: one record per test case, in order, or the error of the first
      input file that cannot be written, which leaves the loop for the outer
      `catch`. */
  function Tested(dirs: set<Path>, language: string, filePath: Path, cases: seq<TestCase>, runs: seq<CaseRun>)
    : Result<seq<CaseRecord>, FsError>
    requires |cases| <= |runs|
  {
    var k := FirstUnwritable(dirs, cases, runs, 0);
    if k < |cases| then Err(WriteError(dirs, InputFilePath(runs[k].inputId), Some(cases[k].input)).value)
    else Ok(Records(language, filePath, cases, runs, |cases|))
  }

  predicate AllPassed(rs: seq<CaseRecord>) {
    forall k :: 0 <= k < |rs| ==> rs[k].passed
  }

  /** `allPassed ? "Accepted" : "Wrong Answer"`. */
  function Verdict(allPassed: bool): string {
    if allPassed then "Accepted" else "Wrong Answer"
  }

  /** The saved `results`: each record cut down to the schema's four properties. */
  function Stored(rs: seq<CaseRecord>): (s: seq<StoredResult>)
    ensures |s| == |rs|
    ensures forall k :: 0 <= k < |rs| ==> s[k] == StoredResult(rs[k].input, rs[k].expected, rs[k].actual, rs[k].passed)
  {
    seq(|rs|, k requires 0 <= k < |rs| => StoredResult(rs[k].input, rs[k].expected, rs[k].actual, rs[k].passed))
  }

  /** The message of the ValidationError `save()` throws for a language
      outside the schema's enum. */
  function ValidationMessage(language: string): string {
    "Submission validation failed: language: `" + language + "` is not a valid enum value for path `language`."
  }

  /** The answer to a complete request. A source that cannot be written, a
      failed query or an input file that cannot be written is a 500; a
      missing problem a 404. Otherwise every test case is judged, and the
      submission is saved, which the schema refuses for a language outside
      its enum (a 500); a saved submission is answered with 200, its verdict
      and its results. */
  function Judgement(dirs: set<Path>, language: string, code: string, lookup: Lookup, codeId: string, runs: seq<CaseRun>)
    : (r: SubmitResponse)
    requires Drawn(lookup, runs)
    ensures r.status == 200 || r.status == 404 || r.status == 500
    ensures r.status == 200 <==> r.body.Judged?
    ensures r.status == 200 ==> language in Languages && lookup.Found?
    ensures r.status == 404 <==> WriteError(dirs, CodeFilePath(codeId, language), Some(code)).None? && lookup.NoProblem?
  {
    var filePath := CodeFilePath(codeId, language);
    var codeError := WriteError(dirs, filePath, Some(code));
    if codeError.Some? then ServerError(codeError.value.Message())
    else
      match lookup
      case NoProblem => SubmitResponse(404, Refused("Problem not found", None))
      case LookupFailed(message) => ServerError(message)
      case Found(cases) =>
        match Tested(dirs, language, filePath, cases, runs)
        case Err(e) => ServerError(e.Message())
        case Ok(rs) =>
          if language !in Languages then ServerError(ValidationMessage(language))
          else SubmitResponse(200, Judged(Verdict(AllPassed(rs)), Stored(rs)))
  }

  /** An input file lies in the inputs directory, which is not under the
      codes directory. */
  lemma InputPlacement(id: string)
    requires IsUuid(id)
    ensures Under(InputFilePath(id), InputsDir) && !Under(InputFilePath(id), CodesDir)
    ensures Dirname(InputFilePath(id)) == InputsDir && !Under(InputsDir, CodesDir)
  {
    InputNeverSourceFile(id, id, "c");
    JoinIsUnder(InputsDir, id + ".txt");
    WorkingTreesDisjoint(InputFilePath(id));
    if Under(InputsDir, CodesDir) {
      UnderIndex(InputsDir, CodesDir, 5);
    }
  }

  /** So the Java runner's removal of the codes directory cannot change
      whether an input file can be written. */
  lemma InputWriteOutsideCodes(dirs: set<Path>, id: string, data: Option<string>)
    requires IsUuid(id)
    ensures WriteError(DirsOutside(dirs, CodesDir), InputFilePath(id), data) == WriteError(dirs, InputFilePath(id), data)
  {
    InputPlacement(id);
  }

  /** No runner artifact lies in the inputs directory. */
  lemma ArtifactsOutsideInputs(codeId: string, language: string, p: Path)
    requires IsUuid(codeId) && p in Artifacts(language, CodeFilePath(codeId, language))
    ensures !Under(p, InputsDir)
  {
    var source := CodeFilePath(codeId, language);
    WorkingTreesDisjoint(p);
    if language == "c" || language == "cpp" {
      JoinIsUnder(OutputsDir, JobId(source));
      JoinIsUnder(OutputsDir, JobId(source) + ".exe");
    } else if p == ExecuteJava.ClassFile(source) {
      JobIdOfCodeFile(codeId, language);
      JoinIsUnder(CodesDir, ExecuteJava.ClassName + ".class");
    } else if Under(p, InputsDir) {
      UnderIndex(p, InputsDir, 0);
    }
  }

  /** The directories as the loop leaves them: as they were, or, for Java,
      without the codes directory and what lies under it. */
  predicate Pruned(dirs: set<Path>, dirs0: set<Path>, language: string) {
    dirs == dirs0 || (language == "java" && dirs == DirsOutside(dirs0, CodesDir))
  }

  /** What the loop keeps true of the disk, against the files and directories
      it started with: the directories are `Pruned`, no new file lies in the
      inputs directory, a source in a language other than Java keeps its
      text, a C or C++ binary already on disk stays, and once a build has
      written one (`built`) it is on disk. */
  ghost predicate Kept(files0: map<Path, string>, dirs0: set<Path>, files: map<Path, string>, dirs: set<Path>,
                       language: string, filePath: Path, built: bool)
  {
    var binary := BinaryPath(language, filePath);
    && Pruned(dirs, dirs0, language)
    && (forall p :: p in files && Under(p, InputsDir) ==> p in files0)
    && (language != "java" && filePath in files0 ==> filePath in files && files[filePath] == files0[filePath])
    && ((language == "c" || language == "cpp") && binary in files0 ==> binary in files)
    && ((language == "c" || language == "cpp") && built && OutputsDir in dirs0 && binary !in dirs0 ==> binary in files)
  }

  /** Writing a file outside the codes and outputs directories, running a
      step that keeps what the loop keeps, and unlinking that file again,
      keeps it too. */
  lemma KeptAround(files0: map<Path, string>, dirs0: set<Path>, files: map<Path, string>, dirs: set<Path>,
                   files2: map<Path, string>, dirs2: set<Path>, language: string, filePath: Path,
                   input: Path, data: string, built: bool, wrote: bool)
    requires Kept(files0, dirs0, files, dirs, language, filePath, built)
    requires Kept(files[input := data], dirs, files2, dirs2, language, filePath, wrote)
    requires input != filePath && input != BinaryPath(language, filePath)
    ensures Kept(files0, dirs0, files2 - {input}, dirs2, language, filePath, built || wrote)
  {
    if language == "java" && dirs2 != dirs {
      assert dirs2 == DirsOutside(dirs0, CodesDir);
    }
  }

  /** What a runner call leaves on disk, as `Invoke` states it, keeps what
      the loop keeps. */
  lemma RunnerKeeps(files0: map<Path, string>, dirs0: set<Path>, files: map<Path, string>, dirs: set<Path>,
                    language: string, codeId: string, wrote: Option<string>)
    requires IsUuid(codeId) && language in Languages
    requires var filePath := CodeFilePath(codeId, language);
      && (language == "c" || language == "cpp" ==> files == Deposit(files0, dirs0, BinaryPath(language, filePath), wrote))
      && dirs == (if language == "java" then DirsOutside(dirs0, Dirname(filePath)) else dirs0)
      && (forall p :: p in files && p !in files0 ==> p in Artifacts(language, filePath))
      && (forall p :: p in files0 && p !in files ==> language == "java")
      && (forall p :: p in files0 && p in files && p !in Artifacts(language, filePath) ==> files[p] == files0[p])
    ensures Kept(files0, dirs0, files, dirs, language, CodeFilePath(codeId, language), wrote.Some?)
  {
    var filePath := CodeFilePath(codeId, language);
    JobIdOfCodeFile(codeId, language);
    if language == "c" || language == "cpp" {
      BinaryPlacement(codeId, codeId, language);
    }
    forall p | p in files && Under(p, InputsDir) ensures p in files0 {
      if p !in files0 {
        ArtifactsOutsideInputs(codeId, language, p);
      }
    }
  }

  /** The inner `try`/`catch`: call the runner, or throw for another
      language, and keep the runner's output or the details of what it threw.
      It keeps what the loop keeps: runner artifacts lie outside the inputs
      directory, and only the Java runner removes anything, the codes
      directory. It touches only what the runner may touch. */
  method TryRunner(fs: FileSystem, language: string, filePath: Path, inputFilePath: Path, procs: Processes,
                   ghost codeId: string)
    returns (actualOutput: string, executionErrorDetails: Option<ExecutionError>)
    requires IsUuid(codeId) && filePath == CodeFilePath(codeId, language)
    modifies fs
    ensures var outcome := CaseOutcome(language, filePath, inputFilePath, procs);
      && executionErrorDetails == (if outcome.Err? then Some(Details(outcome.error)) else None)
      && actualOutput == (if outcome.Ok? then outcome.value else "Execution Error")
    ensures Kept(old(fs.files), old(fs.dirs), fs.files, fs.dirs, language, filePath, procs.build.wrote.Some?)
    ensures KeepsOutside(old(fs.files), fs.files, RunnerTouched(language, filePath))
    ensures CreatesWithin(old(fs.files), fs.files, ArtifactsOf(language, filePath))
  {
    if language in Languages {
      ghost var files0, dirs0 := fs.files, fs.dirs;
      var settled := Invoke(fs, language, filePath, inputFilePath, procs);
      RunnerEffect(files0, dirs0, language, filePath, procs);
      RunnerFrame(files0, dirs0, language, filePath, procs);
      RunnerKeeps(files0, dirs0, fs.files, fs.dirs, language, codeId, procs.build.wrote);
      if settled.Resolved? {
        actualOutput, executionErrorDetails := settled.output, None;
      } else {
        executionErrorDetails := Some(Details(FromRejection(settled.reason)));
        actualOutput := "Execution Error";
      }
    } else {
      executionErrorDetails := Some(Details(Thrown(None, Some(UnsupportedMessage), None, None, None)));
      actualOutput := "Execution Error";
    }
  }

  /** The disk side of one pass of the loop body: write the input file (its
      error propagates), run the inner `try`/`catch`, and unlink the input
      file in the `finally`. Whether the write throws depends only on the
      directories the loop started with (`dirs0`); the pass keeps what the
      loop keeps, and touches only its input file and what the runner may
      touch. */
  method ExerciseCase(fs: FileSystem, language: string, filePath: Path, tc: TestCase, run: CaseRun,
                      ghost codeId: string, ghost files0: map<Path, string>, ghost dirs0: set<Path>, ghost built: bool)
    returns (writeError: Option<FsError>, actualOutput: string, executionErrorDetails: Option<ExecutionError>)
    requires IsUuid(codeId) && IsUuid(run.inputId) && filePath == CodeFilePath(codeId, language)
    requires Kept(files0, dirs0, fs.files, fs.dirs, language, filePath, built)
    modifies fs
    ensures writeError == WriteError(dirs0, InputFilePath(run.inputId), Some(tc.input))
    ensures writeError.None? ==>
      var outcome := CaseOutcome(language, filePath, InputFilePath(run.inputId), run.procs);
      && executionErrorDetails == (if outcome.Err? then Some(Details(outcome.error)) else None)
      && actualOutput == (if outcome.Ok? then outcome.value else "Execution Error")
    ensures Kept(files0, dirs0, fs.files, fs.dirs, language, filePath, built || (writeError.None? && run.procs.build.wrote.Some?))
    ensures KeepsOutside(old(fs.files), fs.files, RunnerTouched(language, filePath) + iset{InputFilePath(run.inputId)})
    ensures CreatesWithin(old(fs.files), fs.files, ArtifactsOf(language, filePath))
  {
    ghost var inputPath := InputFilePath(run.inputId);
    assert WriteError(fs.dirs, inputPath, Some(tc.input)) == WriteError(dirs0, inputPath, Some(tc.input)) by {
      InputWriteOutsideCodes(dirs0, run.inputId, Some(tc.input));
    }
    CaseInputApart(codeId, run.inputId, language);
    ghost var files1, dirs1 := fs.files, fs.dirs;
    actualOutput, executionErrorDetails := "", None;
    var generated := GenerateInputFile(fs, Some(tc.input), run.inputId);
    if generated.Err? {
      return Some(generated.error), actualOutput, executionErrorDetails;
    }
    writeError := None;
    var inputFilePath := generated.value;
    actualOutput, executionErrorDetails := TryRunner(fs, language, filePath, inputFilePath, run.procs, codeId);
    ghost var files2 := fs.files;
    KeptAround(files0, dirs0, files1, dirs1, fs.files, fs.dirs, language, filePath, inputFilePath, tc.input,
               built, run.procs.build.wrote.Some?);
    var unlinkError := fs.Unlink(inputFilePath);
    WrittenAndUnlinked(files1, files2, inputFilePath, tc.input, RunnerTouched(language, filePath), ArtifactsOf(language, filePath));
  }

  /** A test case's input file is neither the source nor the C/C++ binary. */
  lemma CaseInputApart(codeId: string, inputId: string, language: string)
    requires IsUuid(codeId) && IsUuid(inputId)
    ensures var filePath := CodeFilePath(codeId, language);
      InputFilePath(inputId) != filePath && InputFilePath(inputId) != BinaryPath(language, filePath)
  {
    var filePath := CodeFilePath(codeId, language);
    var inputPath := InputFilePath(inputId);
    JobPathsDisjoint(codeId, inputId, language);
    if language == "c" || language == "cpp" {
      BinaryPlacement(codeId, inputId, language);
    } else {
      assert BinaryPath(language, filePath) == ExecuteCpp.BinaryPath(filePath);
      JoinIsUnder(OutputsDir, JobId(filePath) + ".exe");
      InputPlacement(inputId);
      WorkingTreesDisjoint(inputPath);
    }
  }

  /** One pass of the loop body, and the record it builds. Its outcome
      depends only on the directories the loop started with (`dirs0`), it
      keeps what the loop keeps, and it touches only its input file and what
      the runner may touch. */
  method JudgeCase(fs: FileSystem, language: string, filePath: Path, tc: TestCase, run: CaseRun,
                   ghost codeId: string, ghost files0: map<Path, string>, ghost dirs0: set<Path>, ghost built: bool)
    returns (r: Result<CaseRecord, FsError>)
    requires IsUuid(codeId) && IsUuid(run.inputId) && filePath == CodeFilePath(codeId, language)
    requires Kept(files0, dirs0, fs.files, fs.dirs, language, filePath, built)
    modifies fs
    ensures r == if InputWritable(dirs0, tc, run) then Ok(Record(language, filePath, tc, run))
                 else Err(WriteError(dirs0, InputFilePath(run.inputId), Some(tc.input)).value)
    ensures Kept(files0, dirs0, fs.files, fs.dirs, language, filePath, built || (r.Ok? && run.procs.build.wrote.Some?))
    ensures KeepsOutside(old(fs.files), fs.files, RunnerTouched(language, filePath) + iset{InputFilePath(run.inputId)})
    ensures CreatesWithin(old(fs.files), fs.files, ArtifactsOf(language, filePath))
  {
    var writeError, actualOutput, executionErrorDetails := ExerciseCase(fs, language, filePath, tc, run, codeId, files0, dirs0, built);
    if writeError.Some? {
      return Err(writeError.value);
    }
    if executionErrorDetails.Some? {
      r := Ok(CaseRecord(tc.input, Trim(tc.output), actualOutput, false, executionErrorDetails));
    } else {
      var passed := Trim(actualOutput) == Trim(tc.output);
      r := Ok(CaseRecord(tc.input, Trim(tc.output), Trim(actualOutput), passed, None));
    }
  }

  /** The search from `from` stops at `i` when every test case before `i`
      can be written and `i` cannot, or is past the end. */
  lemma {:induction false} FirstUnwritableIs(dirs: set<Path>, cases: seq<TestCase>, runs: seq<CaseRun>, from: nat, i: nat)
    requires from <= i <= |cases| <= |runs|
    requires forall k :: from <= k < i ==> InputWritable(dirs, cases[k], runs[k])
    requires i < |cases| ==> !InputWritable(dirs, cases[i], runs[i])
    ensures FirstUnwritable(dirs, cases, runs, from) == i
    decreases i - from
  {
    if from < i {
      FirstUnwritableIs(dirs, cases, runs, from + 1, i);
    }
  }

  lemma AllPassedGrow(rs: seq<CaseRecord>, r: CaseRecord)
    ensures AllPassed(rs + [r]) <==> AllPassed(rs) && r.passed
  {
    assert forall k :: 0 <= k < |rs| ==> (rs + [r])[k] == rs[k];
    assert (rs + [r])[|rs|] == r;
  }

  lemma AnyBuiltGrow(runs: seq<CaseRun>, n: nat)
    requires n < |runs|
    ensures AnyBuilt(runs, n + 1) <==> AnyBuilt(runs, n) || runs[n].procs.build.wrote.Some?
  {
  }

  /** Some test case among the first `n` has a build that writes a binary. */
  predicate AnyBuilt(runs: seq<CaseRun>, n: nat) {
    exists k :: 0 <= k < n && k < |runs| && runs[k].procs.build.wrote.Some?
  }

  /** The loop after `i` test cases: each of their input files could be
      written, `results` holds their records in order, `allPassed` says
      whether every one passed, and the disk is as `Kept` says. */
  ghost predicate Progress(files0: map<Path, string>, dirs0: set<Path>, files: map<Path, string>, dirs: set<Path>,
                           language: string, filePath: Path, cases: seq<TestCase>, runs: seq<CaseRun>,
                           i: nat, results: seq<CaseRecord>, allPassed: bool)
  {
    && i <= |cases| <= |runs|
    && (forall k :: 0 <= k < i ==> InputWritable(dirs0, cases[k], runs[k]))
    && results == Records(language, filePath, cases, runs, i)
    && (allPassed <==> AllPassed(results))
    && Kept(files0, dirs0, files, dirs, language, filePath, AnyBuilt(runs, i))
  }

  lemma WritableGrows(dirs0: set<Path>, cases: seq<TestCase>, runs: seq<CaseRun>, i: nat)
    requires i < |cases| <= |runs|
    requires forall k :: 0 <= k < i ==> InputWritable(dirs0, cases[k], runs[k])
    requires InputWritable(dirs0, cases[i], runs[i])
    ensures forall k :: 0 <= k < i + 1 ==> InputWritable(dirs0, cases[k], runs[k])
  {
  }

  /** One more test case whose input file could be written, recorded and
      pushed, and the disk kept as the loop keeps it. */
  lemma ProgressGrows(files0: map<Path, string>, dirs0: set<Path>, files: map<Path, string>, dirs: set<Path>,
                      language: string, filePath: Path, cases: seq<TestCase>, runs: seq<CaseRun>,
                      i: nat, results: seq<CaseRecord>, allPassed: bool, r: CaseRecord)
    requires Progress(files0, dirs0, files, dirs, language, filePath, cases, runs, i, results, allPassed)
    requires i < |cases| && InputWritable(dirs0, cases[i], runs[i])
    requires r == Record(language, filePath, cases[i], runs[i])
    requires Kept(files0, dirs0, files, dirs, language, filePath, AnyBuilt(runs, i) || runs[i].procs.build.wrote.Some?)
    ensures Progress(files0, dirs0, files, dirs, language, filePath, cases, runs, i + 1, results + [r], allPassed && r.passed)
  {
    WritableGrows(dirs0, cases, runs, i);
    RecordsGrow(language, filePath, cases, runs, i);
    AllPassedGrow(results, r);
    KeptGrows(files0, dirs0, files, dirs, language, filePath, runs, i);
  }

  /** The disk part of one more test case: a binary this one's build wrote
      counts from now on. */
  lemma KeptGrows(files0: map<Path, string>, dirs0: set<Path>, files: map<Path, string>, dirs: set<Path>,
                  language: string, filePath: Path, runs: seq<CaseRun>, i: nat)
    requires i < |runs|
    requires Kept(files0, dirs0, files, dirs, language, filePath, AnyBuilt(runs, i) || runs[i].procs.build.wrote.Some?)
    ensures Kept(files0, dirs0, files, dirs, language, filePath, AnyBuilt(runs, i + 1))
  {
    AnyBuiltGrow(runs, i);
  }

  /** What the loop keeps without a build holds whatever was built. */
  lemma KeptWithoutBuild(files0: map<Path, string>, dirs0: set<Path>, files: map<Path, string>, dirs: set<Path>,
                         language: string, filePath: Path, built: bool)
    requires Kept(files0, dirs0, files, dirs, language, filePath, built)
    ensures Kept(files0, dirs0, files, dirs, language, filePath, false)
  {
  }

  /** The loop stops at test case `i` exactly as `Tested` says when its
      input file cannot be written. */
  lemma TestedStops(files0: map<Path, string>, dirs0: set<Path>, files: map<Path, string>, dirs: set<Path>,
                    language: string, filePath: Path, cases: seq<TestCase>, runs: seq<CaseRun>,
                    i: nat, results: seq<CaseRecord>, allPassed: bool)
    requires Progress(files0, dirs0, files, dirs, language, filePath, cases, runs, i, results, allPassed)
    requires i < |cases| && !InputWritable(dirs0, cases[i], runs[i])
    ensures Tested(dirs0, language, filePath, cases, runs) == Err(WriteError(dirs0, InputFilePath(runs[i].inputId), Some(cases[i].input)).value)
  {
    FirstUnwritableIs(dirs0, cases, runs, 0, i);
  }

  /** A loop that got through every test case ends as `Tested` says. */
  lemma TestedCompletes(files0: map<Path, string>, dirs0: set<Path>, files: map<Path, string>, dirs: set<Path>,
                        language: string, filePath: Path, cases: seq<TestCase>, runs: seq<CaseRun>,
                        results: seq<CaseRecord>, allPassed: bool)
    requires Progress(files0, dirs0, files, dirs, language, filePath, cases, runs, |cases|, results, allPassed)
    ensures Tested(dirs0, language, filePath, cases, runs) == Ok(results)
  {
    FirstUnwritableIs(dirs0, cases, runs, 0, |cases|);
  }

  /** `p` is the input file of one of the first `n` test cases. */
  predicate AmongInputs(runs: seq<CaseRun>, n: nat, p: Path) {
    exists k :: 0 <= k < n && k < |runs| && p == InputFilePath(runs[k].inputId)
  }

  /** What the loop over `n` test cases may touch: their input files and
      what the runner may touch. */
  ghost function LoopTouched(language: string, filePath: Path, runs: seq<CaseRun>, n: nat): iset<Path> {
    iset p | AmongInputs(runs, n, p) || p in RunnerTouched(language, filePath)
  }

  /** One test case's pass touches only what the loop may touch. */
  lemma CaseWithinLoop(language: string, filePath: Path, runs: seq<CaseRun>, n: nat, i: nat)
    requires i < n && i < |runs|
    ensures RunnerTouched(language, filePath) + iset{InputFilePath(runs[i].inputId)} <= LoopTouched(language, filePath, runs, n)
  {
    assert AmongInputs(runs, n, InputFilePath(runs[i].inputId));
  }

  /** One more pass keeps the loop within what it may touch and create. */
  lemma LoopFrameGrows(files0: map<Path, string>, files: map<Path, string>, files': map<Path, string>,
                       language: string, filePath: Path, runs: seq<CaseRun>, n: nat, i: nat)
    requires i < n && i < |runs|
    requires KeepsOutside(files0, files, LoopTouched(language, filePath, runs, n))
    requires CreatesWithin(files0, files, ArtifactsOf(language, filePath))
    requires KeepsOutside(files, files', RunnerTouched(language, filePath) + iset{InputFilePath(runs[i].inputId)})
    requires CreatesWithin(files, files', ArtifactsOf(language, filePath))
    ensures KeepsOutside(files0, files', LoopTouched(language, filePath, runs, n))
    ensures CreatesWithin(files0, files', ArtifactsOf(language, filePath))
  {
    var T := LoopTouched(language, filePath, runs, n);
    var A := ArtifactsOf(language, filePath);
    CaseWithinLoop(language, filePath, runs, n, i);
    FrameWiden(files, files', RunnerTouched(language, filePath) + iset{InputFilePath(runs[i].inputId)}, T, A, A);
    FrameTrans(files0, files, files', T, A);
  }

  /** The loop's invariant: its `Progress`, and the disk within what the
      whole loop may touch and create. */
  ghost predicate Looping(files0: map<Path, string>, dirs0: set<Path>, files: map<Path, string>, dirs: set<Path>,
                          language: string, filePath: Path, cases: seq<TestCase>, runs: seq<CaseRun>,
                          i: nat, results: seq<CaseRecord>, allPassed: bool)
  {
    && Progress(files0, dirs0, files, dirs, language, filePath, cases, runs, i, results, allPassed)
    && KeepsOutside(files0, files, LoopTouched(language, filePath, runs, |cases|))
    && CreatesWithin(files0, files, ArtifactsOf(language, filePath))
  }

  /** Before the first pass: no record, every case passed so far, and the
      disk as it was. */
  lemma LoopStarts(files0: map<Path, string>, dirs0: set<Path>, language: string, filePath: Path,
                   cases: seq<TestCase>, runs: seq<CaseRun>)
    requires |cases| <= |runs|
    ensures Looping(files0, dirs0, files0, dirs0, language, filePath, cases, runs, 0, [], true)
  {
    assert Records(language, filePath, cases, runs, 0) == [];
  }

  /** After the last pass: the loop's outcome is `Tested`'s, and the disk is
      as the whole loop keeps it. */
  lemma LoopEnds(files0: map<Path, string>, dirs0: set<Path>, files: map<Path, string>, dirs: set<Path>,
                 language: string, filePath: Path, cases: seq<TestCase>, runs: seq<CaseRun>,
                 results: seq<CaseRecord>, allPassed: bool)
    requires Looping(files0, dirs0, files, dirs, language, filePath, cases, runs, |cases|, results, allPassed)
    ensures Tested(dirs0, language, filePath, cases, runs) == Ok(results)
    ensures allPassed <==> AllPassed(results)
    ensures Kept(files0, dirs0, files, dirs, language, filePath, AnyBuilt(runs, |cases|))
    ensures KeepsOutside(files0, files, LoopTouched(language, filePath, runs, |cases|))
    ensures CreatesWithin(files0, files, ArtifactsOf(language, filePath))
  {
    TestedCompletes(files0, dirs0, files, dirs, language, filePath, cases, runs, results, allPassed);
  }

  /** The loop body in the loop's terms: judge test case `i` after `i`
      passes. It either stops the loop as `Tested` says, with the disk as the
      loop keeps it, or grows the loop's progress by that case's record; and
      the disk stays within what the whole loop may touch and create. */
  method JudgeNext(fs: FileSystem, language: string, filePath: Path, cases: seq<TestCase>, runs: seq<CaseRun>, i: nat,
                   ghost codeId: string, ghost files0: map<Path, string>, ghost dirs0: set<Path>,
                   ghost results: seq<CaseRecord>, ghost allPassed: bool)
    returns (r: Result<CaseRecord, FsError>)
    requires IsUuid(codeId) && filePath == CodeFilePath(codeId, language)
    requires i < |cases| <= |runs| && forall k :: 0 <= k < |runs| ==> IsUuid(runs[k].inputId)
    requires Looping(files0, dirs0, fs.files, fs.dirs, language, filePath, cases, runs, i, results, allPassed)
    modifies fs
    ensures r.Err? ==> Tested(dirs0, language, filePath, cases, runs) == Err(r.error)
                       && Kept(files0, dirs0, fs.files, fs.dirs, language, filePath, false)
                       && KeepsOutside(files0, fs.files, LoopTouched(language, filePath, runs, |cases|))
                       && CreatesWithin(files0, fs.files, ArtifactsOf(language, filePath))
    ensures r.Ok? ==> Looping(files0, dirs0, fs.files, fs.dirs, language, filePath, cases, runs, i + 1,
                              results + [r.value], allPassed && r.value.passed)
  {
    ghost var before := fs.files;
    r := JudgeCase(fs, language, filePath, cases[i], runs[i], codeId, files0, dirs0, AnyBuilt(runs, i));
    LoopFrameGrows(files0, before, fs.files, language, filePath, runs, |cases|, i);
    if r.Err? {
      TestedStops(files0, dirs0, fs.files, fs.dirs, language, filePath, cases, runs, i, results, allPassed);
      KeptWithoutBuild(files0, dirs0, fs.files, fs.dirs, language, filePath, AnyBuilt(runs, i));
    } else {
      ProgressGrows(files0, dirs0, fs.files, fs.dirs, language, filePath, cases, runs, i, results, allPassed, r.value);
    }
  }

  /** The `for` loop with `allPassed` and `results`. It ends early when an
      input file cannot be written. It leaves no new file in the inputs
      directory; a source in a language other than Java keeps its text; a
      binary any build wrote stays; and only the test cases' input files and
      what the runner may touch change. */
  method TestCases(fs: FileSystem, language: string, filePath: Path, cases: seq<TestCase>, runs: seq<CaseRun>,
                   ghost codeId: string)
    returns (outcome: Result<seq<CaseRecord>, FsError>, allPassed: bool)
    requires IsUuid(codeId) && filePath == CodeFilePath(codeId, language)
    requires |cases| <= |runs| && forall k :: 0 <= k < |runs| ==> IsUuid(runs[k].inputId)
    modifies fs
    ensures outcome == Tested(old(fs.dirs), language, filePath, cases, runs)
    ensures outcome.Ok? ==> (allPassed <==> AllPassed(outcome.value))
    ensures Kept(old(fs.files), old(fs.dirs), fs.files, fs.dirs, language, filePath, outcome.Ok? && AnyBuilt(runs, |cases|))
    ensures KeepsOutside(old(fs.files), fs.files, LoopTouched(language, filePath, runs, |cases|))
    ensures CreatesWithin(old(fs.files), fs.files, ArtifactsOf(language, filePath))
  {
    ghost var dirs0, files0 := fs.dirs, fs.files;
    var results: seq<CaseRecord> := [];
    allPassed := true;
    var i := 0;
    LoopStarts(files0, dirs0, language, filePath, cases, runs);
    while i < |cases|
      invariant Looping(files0, dirs0, fs.files, fs.dirs, language, filePath, cases, runs, i, results, allPassed)
    {
      var r := JudgeNext(fs, language, filePath, cases, runs, i, codeId, files0, dirs0, results, allPassed);
      if r.Err? {
        return Err(r.error), allPassed;
      }
      if !r.value.passed {
        allPassed := false;
      }
      results := results + [r.value];
      i := i + 1;
    }
    LoopEnds(files0, dirs0, fs.files, fs.dirs, language, filePath, cases, runs, results, allPassed);
    outcome := Ok(results);
  }

  /** The files a `/submit` job may create, overwrite or remove: its source,
      the input files of the problem's test cases, the `<jobId>.out` the
      `finally` block lists for C and C++, the files its runner may create,
      and, once a Java source is written, everything under the codes
      directory. Apart from what the submitted program itself does, every
      other file keeps its text. */
  predicate Touchable(dirs: set<Path>, language: string, code: string, lookup: Lookup, codeId: string,
                      runs: seq<CaseRun>, p: Path)
  {
    var source := CodeFilePath(codeId, language);
    || p == source
    || (lookup.Found? && AmongInputs(runs, |lookup.testCases|, p))
    || (language in {"cpp", "c"} && p == Join(OutputsDir, codeId + ".out"))
    || (language in Languages && p in Artifacts(language, source))
    || (language == "java" && WriteError(dirs, source, Some(code)).None? && Under(p, CodesDir))
  }

  ghost function Touched(dirs: set<Path>, language: string, code: string, lookup: Lookup, codeId: string,
                         runs: seq<CaseRun>): iset<Path>
  {
    iset p | Touchable(dirs, language, code, lookup, codeId, runs, p)
  }

  /** The number of test cases the loop is given: none unless the problem
      was found. */
  function CaseCount(lookup: Lookup): nat {
    if lookup.Found? then |lookup.testCases| else 0
  }

  /** Writing the source and then running the loop stays within what the
      job may touch, and creates only its source and runner artifacts. */
  lemma TryCatchFrame(files0: map<Path, string>, files: map<Path, string>, dirs: set<Path>, language: string,
                      code: string, lookup: Lookup, codeId: string, runs: seq<CaseRun>)
    requires IsUuid(codeId) && WriteError(dirs, CodeFilePath(codeId, language), Some(code)).None?
    requires var source := CodeFilePath(codeId, language);
      && KeepsOutside(files0[source := code], files, LoopTouched(language, source, runs, CaseCount(lookup)))
      && CreatesWithin(files0[source := code], files, ArtifactsOf(language, source))
    ensures KeepsOutside(files0, files, Touched(dirs, language, code, lookup, codeId, runs))
    ensures CreatesWithin(files0, files, RunRoute.Creatable(language, codeId))
  {
    var source := CodeFilePath(codeId, language);
    var T := Touched(dirs, language, code, lookup, codeId, runs);
    var C := RunRoute.Creatable(language, codeId);
    assert LoopTouched(language, source, runs, CaseCount(lookup)) <= T by {
      JobIdOfCodeFile(codeId, language);
    }
    WriteFrame(files0, source, code);
    FrameWiden(files0, files0[source := code], iset{source}, T, iset{source}, C);
    FrameWiden(files0[source := code], files, LoopTouched(language, source, runs, CaseCount(lookup)), T,
               ArtifactsOf(language, source), C);
    FrameTrans(files0, files0[source := code], files, T, C);
  }

  /** The `finally` block stays within what the job may touch. */
  lemma FinallyFrame(files0: map<Path, string>, files: map<Path, string>, dirs: set<Path>, language: string,
                     code: string, lookup: Lookup, codeId: string, runs: seq<CaseRun>)
    requires IsUuid(codeId)
    requires KeepsOutside(files0, files, Touched(dirs, language, code, lookup, codeId, runs))
    requires CreatesWithin(files0, files, RunRoute.Creatable(language, codeId))
    ensures var codeFilePath := RunRoute.RecordedSource(dirs, language, code, codeId);
      var jobDirForJava := if codeFilePath.Some? && language == "java" then Some(CodesDir) else None;
      var after := RunRoute.FinallyFiles(files, language, codeFilePath, None, jobDirForJava);
      && KeepsOutside(files0, after, Touched(dirs, language, code, lookup, codeId, runs))
      && CreatesWithin(files0, after, RunRoute.Creatable(language, codeId))
  {
    var codeFilePath := RunRoute.RecordedSource(dirs, language, code, codeId);
    var jobDirForJava := if codeFilePath.Some? && language == "java" then Some(CodesDir) else None;
    var after := RunRoute.FinallyFiles(files, language, codeFilePath, None, jobDirForJava);
    var T := Touched(dirs, language, code, lookup, codeId, runs);
    var C := RunRoute.Creatable(language, codeId);
    var L := iset p | Some(p) in RunRoute.FilesToDelete(language, codeFilePath, None)
                    || (jobDirForJava.Some? && language == "java" && Under(p, jobDirForJava.value));
    RunRoute.FinallyFrame(files, language, codeFilePath, None, jobDirForJava);
    assert L <= T by {
      JobIdOfCodeFile(codeId, language);
    }
    FrameWiden(files, after, L, T, iset{}, C);
    FrameTrans(files0, files, after, T, C);
  }

  /** The `try` block with its outer `catch`: the response, and the two
      variables the `finally` block reads. */
  method TryCatch(fs: FileSystem, language: string, code: string, lookup: Lookup, codeId: string, runs: seq<CaseRun>)
    returns (resp: SubmitResponse, codeFilePath: Option<Path>, jobDirForJava: Option<Path>)
    requires IsUuid(codeId) && Drawn(lookup, runs)
    modifies fs
    ensures resp == Judgement(old(fs.dirs), language, code, lookup, codeId, runs)
    ensures codeFilePath == RunRoute.RecordedSource(old(fs.dirs), language, code, codeId)
    ensures jobDirForJava == if codeFilePath.Some? && language == "java" then Some(CodesDir) else None
    ensures codeFilePath.None? ==> fs.files == old(fs.files) && fs.dirs == old(fs.dirs)
    ensures forall p :: p in fs.files && Under(p, InputsDir) ==> p in old(fs.files)
    ensures language != "java" && codeFilePath.Some? ==>
      CodeFilePath(codeId, language) in fs.files && fs.files[CodeFilePath(codeId, language)] == code
    ensures var binary := BinaryPath(language, CodeFilePath(codeId, language));
      ((language == "c" || language == "cpp") && lookup.Found? && codeFilePath.Some?
       && Tested(old(fs.dirs), language, CodeFilePath(codeId, language), lookup.testCases, runs).Ok?
       && AnyBuilt(runs, |lookup.testCases|) && OutputsDir in old(fs.dirs) && binary !in old(fs.dirs)) ==>
        binary in fs.files
    ensures Pruned(fs.dirs, old(fs.dirs), language)
    ensures KeepsOutside(old(fs.files), fs.files, Touched(old(fs.dirs), language, code, lookup, codeId, runs))
    ensures CreatesWithin(old(fs.files), fs.files, RunRoute.Creatable(language, codeId))
  {
    ghost var files0 := fs.files;
    codeFilePath, jobDirForJava := None, None;
    var generated := GenerateFile(fs, language, code, codeId);
    if generated.Err? {
      return ServerError(generated.error.Message()), codeFilePath, jobDirForJava;
    }
    ghost var source := generated.value;
    assert Dirname(source) == CodesDir && !Under(source, InputsDir) by {
      JobIdOfCodeFile(codeId, language);
      JoinIsUnder(CodesDir, CodeFileName(codeId, language));
      WorkingTreesDisjoint(source);
    }
    codeFilePath := Some(generated.value);
    if language == "java" {
      jobDirForJava := Some(Dirname(generated.value));
    }
    match lookup {
      case NoProblem =>
        resp := SubmitResponse(404, Refused("Problem not found", None));
        TryCatchFrame(files0, fs.files, old(fs.dirs), language, code, lookup, codeId, runs);
      case LookupFailed(message) =>
        resp := ServerError(message);
        TryCatchFrame(files0, fs.files, old(fs.dirs), language, code, lookup, codeId, runs);
      case Found(testCases) =>
        var outcome, allPassed := TestCases(fs, language, generated.value, testCases, runs, codeId);
        TryCatchFrame(files0, fs.files, old(fs.dirs), language, code, lookup, codeId, runs);
        if outcome.Err? {
          resp := ServerError(outcome.error.Message());
        } else if language !in Languages {
          resp := ServerError(ValidationMessage(language));
        } else {
          resp := SubmitResponse(200, Judged(Verdict(allPassed), Stored(outcome.value)));
        }
    }
  }

  /** `POST /submit`. An incomplete request is answered 400 and touches
      nothing. Otherwise the answer is `Judgement`, and the disk afterwards
      shows what the `finally` block does and misses: no new file is left in
      the inputs directory, the source of a C, C++ or Python job is gone, the source of any
      other language stays, a Java job takes the whole codes directory with
      it even when the problem does not exist, and a binary a build wrote
      stays. */
  method Submit(fs: FileSystem, req: SubmitRequest, lookup: Lookup, codeId: string, runs: seq<CaseRun>)
    returns (resp: SubmitResponse)
    requires IsUuid(codeId) && Drawn(lookup, runs)
    modifies fs
    ensures !Complete(req) ==>
      && resp == SubmitResponse(400, Refused("All fields are required", None))
      && fs.files == old(fs.files) && fs.dirs == old(fs.dirs)
    ensures Complete(req) ==> resp == Judgement(old(fs.dirs), req.language.value, req.code.value, lookup, codeId, runs)
    ensures forall p :: p in fs.files && Under(p, InputsDir) ==> p in old(fs.files)
    ensures Complete(req) && WriteError(old(fs.dirs), CodeFilePath(codeId, req.language.value), req.code).None? ==>
      var language := req.language.value;
      && (language in {"cpp", "c", "python"} ==> CodeFilePath(codeId, language) !in fs.files)
      && (language !in Languages ==> CodeFilePath(codeId, language) in fs.files
                                     && fs.files[CodeFilePath(codeId, language)] == req.code.value)
      && (language == "java" ==> CodesDir !in fs.dirs && forall p :: p in fs.files ==> !Under(p, CodesDir))
    ensures Complete(req) && lookup.Found? ==>
      var language := req.language.value;
      var binary := BinaryPath(language, CodeFilePath(codeId, language));
      ((language == "c" || language == "cpp")
       && WriteError(old(fs.dirs), CodeFilePath(codeId, language), req.code).None?
       && Tested(old(fs.dirs), language, CodeFilePath(codeId, language), lookup.testCases, runs).Ok?
       && AnyBuilt(runs, |lookup.testCases|) && OutputsDir in old(fs.dirs) && binary !in old(fs.dirs)) ==>
        binary in fs.files
    ensures Complete(req) ==>
      && KeepsOutside(old(fs.files), fs.files, Touched(old(fs.dirs), req.language.value, req.code.value, lookup, codeId, runs))
      && CreatesWithin(old(fs.files), fs.files, RunRoute.Creatable(req.language.value, codeId))
      && fs.dirs == if req.language.value == "java" && WriteError(old(fs.dirs), CodeFilePath(codeId, req.language.value), req.code).None?
                    then DirsOutside(old(fs.dirs), CodesDir) else old(fs.dirs)
  {
    if !Complete(req) {
      return SubmitResponse(400, Refused("All fields are required", None));
    }
    var language := req.language.value;
    var codeFilePath, jobDirForJava;
    ghost var files0 := fs.files;
    resp, codeFilePath, jobDirForJava := TryCatch(fs, language, req.code.value, lookup, codeId, runs);
    FinallyFrame(files0, fs.files, old(fs.dirs), language, req.code.value, lookup, codeId, runs);
    RunRoute.ListedPaths(language, codeId, codeId, codeFilePath, None);
    RunRoute.Finally(fs, language, codeFilePath, None, jobDirForJava);
  }

  // ---------------------------------------------------------------------------
  // What a judged submission says
  // ---------------------------------------------------------------------------

  /** A 200 answer's verdict is "Accepted" or "Wrong Answer", and it is
      "Accepted" exactly when every saved result passed. */
  lemma VerdictMatchesResults(dirs: set<Path>, language: string, code: string, lookup: Lookup, codeId: string,
                              runs: seq<CaseRun>)
    requires Drawn(lookup, runs)
    ensures var r := Judgement(dirs, language, code, lookup, codeId, runs);
      r.status == 200 ==>
        && (r.body.verdict == "Accepted" || r.body.verdict == "Wrong Answer")
        && (r.body.verdict == "Accepted" <==> forall k :: 0 <= k < |r.body.results| ==> r.body.results[k].passed)
  {
    var r := Judgement(dirs, language, code, lookup, codeId, runs);
    if r.status == 200 {
      var rs := Tested(dirs, language, CodeFilePath(codeId, language), lookup.testCases, runs).value;
      assert r.body.results == Stored(rs);
      assert "Accepted" != "Wrong Answer";
    }
  }

  /** A 200 answer holds one result per test case, in order: its input, its
      trimmed expected output, the trimmed output of the run or "Execution
      Error" when the runner failed, and whether it passed, which is exactly
      when the runner produced output that trims to the expected text. */
  lemma JudgedResults(dirs: set<Path>, language: string, code: string, lookup: Lookup, codeId: string,
                      runs: seq<CaseRun>)
    requires Drawn(lookup, runs)
    ensures var r := Judgement(dirs, language, code, lookup, codeId, runs);
      r.status == 200 ==>
        && |r.body.results| == |lookup.testCases|
        && forall k :: 0 <= k < |lookup.testCases| ==>
             var tc := lookup.testCases[k];
             var outcome := CaseOutcome(language, CodeFilePath(codeId, language), InputFilePath(runs[k].inputId), runs[k].procs);
             && r.body.results[k].input == tc.input
             && r.body.results[k].expected == Trim(tc.output)
             && r.body.results[k].actual == (if outcome.Ok? then Trim(outcome.value) else "Execution Error")
             && (r.body.results[k].passed <==> outcome.Ok? && Trim(outcome.value) == Trim(tc.output))
  {
    var r := Judgement(dirs, language, code, lookup, codeId, runs);
    if r.status == 200 {
      var filePath := CodeFilePath(codeId, language);
      var cases := lookup.testCases;
      var rs := Tested(dirs, language, filePath, cases, runs).value;
      assert rs == Records(language, filePath, cases, runs, |cases|);
      forall k | 0 <= k < |cases|
        ensures var outcome := CaseOutcome(language, filePath, InputFilePath(runs[k].inputId), runs[k].procs);
          && r.body.results[k].input == cases[k].input
          && r.body.results[k].expected == Trim(cases[k].output)
          && r.body.results[k].actual == (if outcome.Ok? then Trim(outcome.value) else "Execution Error")
          && (r.body.results[k].passed <==> outcome.Ok? && Trim(outcome.value) == Trim(cases[k].output))
      {
        var outcome := CaseOutcome(language, filePath, InputFilePath(runs[k].inputId), runs[k].procs);
        JudgeMeaning(cases[k], outcome);
        assert rs[k] == Judge(cases[k], outcome);
      }
    }
  }

  /** A compiled test case passes exactly when the build and run succeed (for
      C, also with nothing on stderr) and the trimmed stdout is the trimmed
      expected output. */
  lemma CompiledCasePasses(language: string, filePath: Path, tc: TestCase, run: CaseRun)
    requires language == "c" || language == "cpp"
    ensures var build := run.procs.build;
      Record(language, filePath, tc, run).passed <==>
        && !build.failed && (language == "c" ==> build.stderr == "")
        && Trim(build.stdout) == Trim(tc.output)
  {
    JudgeMeaning(tc, CaseOutcome(language, filePath, InputFilePath(run.inputId), run.procs));
  }

  /** Output that differs from the expected text only by blank characters
      before and after it passes. */
  lemma PaddedOutputPasses(language: string, filePath: Path, tc: TestCase, run: CaseRun, pre: string, post: string)
    requires language == "c" || language == "cpp"
    requires !run.procs.build.failed && (language == "c" ==> run.procs.build.stderr == "")
    requires IsBlank(pre) && IsBlank(post) && run.procs.build.stdout == pre + tc.output + post
    ensures Record(language, filePath, tc, run).passed
  {
    TrimIgnoresPadding(pre, tc.output, post);
    CompiledCasePasses(language, filePath, tc, run);
  }

  /** Java and Python submissions are never accepted once the problem has a
      test case: their runners are called without an output path, so every
      test case is an execution error. */
  lemma InterpretedNeverAccepted(dirs: set<Path>, language: string, code: string, lookup: Lookup, codeId: string,
                                 runs: seq<CaseRun>)
    requires Drawn(lookup, runs)
    requires language == "java" || language == "python"
    requires lookup.Found? && lookup.testCases != []
    ensures var r := Judgement(dirs, language, code, lookup, codeId, runs);
      r.status == 200 ==>
        && r.body.verdict == "Wrong Answer"
        && forall k :: 0 <= k < |r.body.results| ==> !r.body.results[k].passed && r.body.results[k].actual == "Execution Error"
  {
    var r := Judgement(dirs, language, code, lookup, codeId, runs);
    if r.status == 200 {
      JudgedResults(dirs, language, code, lookup, codeId, runs);
      VerdictMatchesResults(dirs, language, code, lookup, codeId, runs);
      var results := r.body.results;
      forall k | 0 <= k < |results|
        ensures !results[k].passed && results[k].actual == "Execution Error"
      {
        assert CaseOutcome(language, CodeFilePath(codeId, language), InputFilePath(runs[k].inputId), runs[k].procs).Err?;
      }
      assert !results[0].passed;
    }
  }

  /** A problem without test cases accepts any submission in a supported
      language whose source can be written. */
  lemma EmptyProblemAccepted(dirs: set<Path>, language: string, code: string, codeId: string, runs: seq<CaseRun>)
    requires Drawn(Found([]), runs)
    requires language in Languages && WriteError(dirs, CodeFilePath(codeId, language), Some(code)).None?
    ensures Judgement(dirs, language, code, Found([]), codeId, runs) == SubmitResponse(200, Judged("Accepted", []))
  {
    var rs := Tested(dirs, language, CodeFilePath(codeId, language), [], runs).value;
    assert rs == [];
  }

  /** A language no runner handles is only refused when the submission is
      saved: every test case is run (each one an execution error) and the
      schema's enum then rejects the document, a 500. */
  lemma UnsupportedFailsAtSave(dirs: set<Path>, language: string, code: string, cases: seq<TestCase>, codeId: string,
                               runs: seq<CaseRun>)
    requires Drawn(Found(cases), runs)
    requires language !in Languages && WriteError(dirs, CodeFilePath(codeId, language), Some(code)).None?
    requires forall k :: 0 <= k < |cases| ==> InputWritable(dirs, cases[k], runs[k])
    ensures Judgement(dirs, language, code, Found(cases), codeId, runs) == ServerError(ValidationMessage(language))
  {
    FirstUnwritableIs(dirs, cases, runs, 0, |cases|);
  }

  /** The first input file that cannot be written, from `from` on, is at or
      before any one that cannot. */
  lemma {:induction false} FirstUnwritableAtMost(dirs: set<Path>, cases: seq<TestCase>, runs: seq<CaseRun>, from: nat, k: nat)
    requires from <= k < |cases| <= |runs| && !InputWritable(dirs, cases[k], runs[k])
    ensures FirstUnwritable(dirs, cases, runs, from) <= k
    decreases k - from
  {
    if from < k && InputWritable(dirs, cases[from], runs[from]) {
      FirstUnwritableAtMost(dirs, cases, runs, from + 1, k);
    }
  }

  /** A test case whose input file cannot be written ends the judging with a
      500, whatever the language and whatever the other test cases do. */
  lemma UnwritableInputIsServerError(dirs: set<Path>, language: string, code: string, cases: seq<TestCase>, codeId: string,
                                     runs: seq<CaseRun>, k: nat)
    requires Drawn(Found(cases), runs)
    requires WriteError(dirs, CodeFilePath(codeId, language), Some(code)).None?
    requires k < |cases| && !InputWritable(dirs, cases[k], runs[k])
    ensures var r := Judgement(dirs, language, code, Found(cases), codeId, runs);
      r.status == 500 && r.body.error == SubmissionFailed
  {
    FirstUnwritableAtMost(dirs, cases, runs, 0, k);
  }
}
