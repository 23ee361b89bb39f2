# Online judge execution core, modelled in Dafny

The server of this online judge accepts source code over HTTP, writes it to
disk, compiles and runs it with the system's compilers and interpreters, and
either returns the program's output (`POST /run`) or compares it with a
problem's stored test cases and saves a verdict (`POST /submit`). The model
covers that execution pipeline:

- `Js`: the JavaScript string operations the judge relies on.
  `String.prototype.trim` follows ECMA-262, section 22.1.3.32.
  `includes` and `split(".")[0]` are also modelled.
- `Paths`: `path.join`, `path.basename`, `path.dirname`, the job-id
  derivation, and the fixed directories of a deployment at `/app`.
- `FileStore`: the disk as a class with a map of files and a set of
  directories. Its operations are `writeFileSync`, `unlink`, recursive `rm`,
  `readFile`, and the files a child process writes. Errors carry Node's error
  codes and messages.
- `Exec`: the result of one `child_process.exec` call, the object a runner
  rejects with, and the shell command lines the runners build.
- `ExecuteC`, `ExecuteCpp`, `ExecuteJava`, `ExecutePython`: the four runners.
  Each has the command it builds and the decision its callback makes; the
  Java and Python runners also have what they do to the disk.
- `Generate`: `generateFile` and `generateInputFile`. Both name their files
  after a v4 UUID.
- `Dispatch`: the `switch (language)` both routes share, and the value a
  route's `catch` receives.
- `RunRoute`: `POST /run`. Covers the request, the `try` block, the `catch`
  block's mapping of errors to status codes and messages, and the `finally`
  cleanup.
- `SubmitRoute`: `POST /submit`. Covers the test-case loop, the comparison of
  trimmed outputs, the verdict, the schema's view of the saved results, and
  the `finally` cleanup.
- `Cleanup`: `cleanupFiles`.

Processes, UUIDs and database queries are parameters of the model:

- An `Exec` value says whether the command line failed, what it printed, and
  which file it wrote.
- A UUID is a string the model requires to have v4 shape.
- A `Lookup` is the problem's test cases, a missing problem, or a query error.

Facts about the code as written, each proved as a lemma:

- **Java and Python never return output.** Both routes call the Java and
  Python runners without an output path. The shell redirects stdout to a file
  literally named `undefined`, and `fs.readFile(undefined)` throws.
  - `/run` therefore answers every Java or Python job with 400 and a bare
    label.
  - `/submit` never accepts a Java or Python submission for a problem that
    has test cases.
- **C and C++ leave their binaries behind.** The C and C++ runners write
  `outputs/<uuid>` and `outputs/<uuid>.exe`. Both routes, and
  `cleanupFiles`, delete `outputs/<uuid>.out` instead, so the binary stays
  on disk.
- **A Java job removes the whole codes directory.** The runner's `fs.rm` of
  the source's directory takes the shared codes directory with it. So does
  the routes' own `finally` block.
- **Compiler warnings.** A C compile that only warns fails the job, because
  the C runner rejects on any stderr. The same warning passes a C++ job.
- **Missing headers are blamed on the server.** A failing C or C++ compile
  whose stderr says "No such file or directory" gets the 500 configuration
  message.
- **An unsupported language fails late.** `/submit` runs every test case for
  such a language and only fails when the submission is saved.
- **A problem without test cases** accepts any source in a supported
  language.

## Model

| member | source | states |
|---|---|---|
| Js.TrimmableIsWhiteSpaceOrLineTerminator | server/index.js:461 | the characters `trim` removes are exactly ECMAScript's WhiteSpace and LineTerminator code points |
| Js.TrimStartShape | server/index.js:461 | stripping the start leaves the longest suffix that does not begin with a trimmable character; what was cut is blank |
| Js.TrimEndShape | server/index.js:461 | stripping the end leaves the longest prefix that does not end with a trimmable character; what was cut is blank |
| Js.TrimOfParts | server/index.js:461 | cutting a blank head, then a blank tail, leaves a slice of the input that starts and ends with non-blank characters; it is empty exactly when the input is blank |
| Js.TrimShape | server/index.js:461 | `s.trim()` is a slice of `s` with only blank text cut from both ends, neither of its ends is trimmable, and it is empty exactly when `s` is blank |
| Js.TrimStartBlankPrefix | server/index.js:461 | a blank prefix does not change what stripping the start leaves |
| Js.TrimEndBlankSuffix | server/index.js:461 | a blank suffix does not change what stripping the end leaves |
| Js.TrimStartAppend | server/index.js:461 | for a non-blank string, appending text commutes with stripping the start |
| Js.BlankConcat | server/index.js:461 | two blank strings concatenate to a blank string |
| Js.TrimIgnoresPadding | server/index.js:461 | blank padding on either side does not change the trimmed text the judge compares |
| Js.TrimIdempotent | server/index.js:452-466 | trimming an already trimmed output or expected text changes nothing |
| Js.IncludesSuffix | server/index.js:245 | text found in a string is found in any string that ends with it |
| Js.IncludesPrefix | server/index.js:245 | text found in a string is found in any string that begins with it |
| Js.IncludesNeedsFirstChar | server/index.js:245 | text whose first character does not occur in a string is not included in it |
| Js.IncludesNonBlank | server/index.js:257 | a string that includes non-blank text does not trim to the empty string |
| Js.SplitHead | server/index.js:284 | `split(sep)[0]` is the longest prefix without `sep`, and it is followed by `sep` whenever it is not the whole string |
| Paths.LastIndexOf | server/index.js:284 | the result is -1 or the index of the last occurrence of the character |
| Paths.LastSeparatorOfJoin | server/index.js:284 | in `path.join(dir, name)` with a plain name, the last separator is the one `join` added |
| Paths.BasenameOfJoin | server/index.js:284 | `path.basename` recovers the name `path.join` appended |
| Paths.DirnameOfJoin | server/index.js:206 | `path.dirname` recovers the directory `path.join` was given |
| Paths.JoinInjective | server/cleanupFiles.js:33-58 | different names give different paths in one directory |
| Paths.JobIdOfJoin | server/index.js:284 | `basename(p).split(".")[0]` recovers the id of a file named `<id>.<ext>`, whatever the extension |
| FileStore.FilesOutside | server/index.js:303 | recursive `fs.rm(d)` leaves exactly the files not under `d`, with their contents |
| FileStore.DirsOutside | server/index.js:303 | recursive `fs.rm(d)` leaves exactly the directories not under `d` |
| FileStore.WriteError | server/generatefile.js:30 | `writeFileSync` succeeds exactly when data is given, the path is not a directory, and its parent directory exists |
| FileStore.ReadResult | server/execute/executejava.js:50 | `readFile` yields a file's text exactly when the path is given and names a file; an `undefined` path is refused with ERR_INVALID_ARG_TYPE |
| FileStore.UnlinkError | server/cleanupFiles.js:13-18 | `unlink` succeeds exactly on a file, and fails with ENOENT exactly when nothing is at the path |
| FileStore.Deposit | server/execute/executec.js:22 | a file a child process writes appears, with its text, only when its directory exists; every other file is unchanged |
| FileStore.FileSystem.WriteFileSync | server/generatefile.js:30 | on success the file holds exactly the data; on failure nothing changes |
| FileStore.FileSystem.Unlink | server/index.js:293 | the path is no longer a file, the directories are unchanged, and the error is as `UnlinkError` says |
| FileStore.FileSystem.RemoveTree | server/index.js:303 | the files and directories left are those outside the removed tree |
| FileStore.FileSystem.Spawned | server/execute/executecpp.js:27 | the disk gains the file a child process writes, as `Deposit` says |
| FileStore.JoinIsUnder | server/generatefile.js:29 | `path.join(d, name)` lies under `d` |
| FileStore.WorkingTreesDisjoint | server/cleanupFiles.js:5-7 | no path lies under two of the codes, inputs and outputs directories |
| Exec.FailureMessageShowsStderr | server/execute/executec.js:28 | any text on a failed command's stderr shows up in exec's error message |
| ExecuteC.CommandForSource | server/execute/executec.js:16-22 | for a generated source, gcc writes `outputs/<uuid>`, the second half of `&&` runs exactly that binary, and it reads stdin from the input file |
| ExecuteC.Classify | server/execute/executec.js:24-38 | resolves exactly when the command line succeeded with empty stderr, with its stdout; a failure rejects with exec's message and both streams; a warning rejects with the C/C++ runtime label |
| ExecuteCpp.CommandForSource | server/execute/executecpp.js:21-27 | for a generated source, g++ writes `outputs/<uuid>.exe`, the second half of `&&` runs exactly that binary, and it reads stdin from the input file |
| ExecuteCpp.Classify | server/execute/executecpp.js:30-36 | resolves exactly when the command line succeeded, with stdout, whatever stderr holds; a failure rejects with exec's message and stderr only |
| ExecuteJava.RenderedCompile | server/execute/executejava.js:11-21 | javac compiles the source into the source's own directory: as text, `javac "<source>" -d "<dirname(source)>"` |
| ExecuteJava.RenderedRun | server/execute/executejava.js:11-32 | with an input path, the run command is `java -cp "<dirname(source)>" Main < "<input>"`, and without an output path its stdout goes to a file named `undefined` |
| ExecuteJava.CommandsForSource | server/execute/executejava.js:11-32 | for a generated source, javac's `-d` and java's `-cp` both name the shared codes directory, so every job compiles to the same `/app/codes/Main.class`; called as the routes call it, the run reads the input file and redirects stdout to `undefined` |
| ExecuteJava.Classify | server/execute/executejava.js:22-56 | resolves exactly when javac and java succeed, stderr is empty and the output file reads, with that file's text; each failure rejects with its label and its details |
| ExecuteJava.Execute | server/execute/executejava.js:9-61 | the result is `Classify` applied to the read made after the source's directory was removed; that directory and everything under it is gone whichever path is taken |
| ExecuteJava.NeverResolvesWithoutOutputPath | server/execute/executejava.js:48-55 | without an output path the runner always rejects, with "Output Read Error" when both processes succeed |
| ExecutePython.CommandForSource | server/execute/executepython.js:30-38 | for a generated source, the command is `python3 "/app/codes/<uuid>.py" < "<input>" > "undefined"` when called without an output path, as both routes call it |
| ExecutePython.Classify | server/execute/executepython.js:39-57 | resolves exactly when the run succeeds, stderr is empty and the output file reads, with that file's text; each failure rejects with its label and its details |
| ExecutePython.Execute | server/execute/executepython.js:30-60 | the result is `Classify` applied to the read made after the redirect wrote its file; no file or directory is removed |
| ExecutePython.NeverResolvesWithoutOutputPath | server/execute/executepython.js:49-56 | without an output path the runner always rejects, with "Output Read Error" when the run succeeds |
| Generate.UuidFromPlain | server/generatefile.js:17 | from any index on, a v4 UUID holds neither a dot nor a separator |
| Generate.UuidIsPlainName | server/generatefile.js:17 | a v4 UUID is a non-empty name without a dot or a separator |
| Generate.Extension | server/generatefile.js:19-26 | the extension table has an entry exactly for cpp, c, python and java |
| Generate.GenerateFile | server/generatefile.js:16-34 | writes the code to `codes/<uuid>.<ext>` and returns that path, or throws the write's error and changes nothing |
| Generate.GenerateInputFile | server/generateInputFile.js:16-26 | writes the input to `inputs/<uuid>.txt` and returns that path, or throws the write's error (an absent input included) and changes nothing |
| Generate.JobIdOfCodeFile | server/index.js:506 | the job id the routes derive from a source path is the UUID it was named after, for every language, and the source sits directly in the codes directory |
| Generate.CodeFilePathsDistinct | server/generatefile.js:17-29 | different UUIDs give different source paths, whatever the languages |
| Generate.InputNeverSourceFile | server/generateInputFile.js:18-20 | an input path is never a source path and sits directly in the inputs directory |
| Generate.InputFilePathsDistinct | server/generateInputFile.js:18-20 | different UUIDs give different input paths |
| Dispatch.Settle | server/index.js:210-223 | Java and Python always reject when called from a route; C resolves exactly when the build succeeds with empty stderr; C++ resolves exactly when it succeeds; a resolved value is the build's stdout |
| Dispatch.JavaPythonLabels | server/index.js:217-222 | a Java or Python rejection carries only a label, "Compilation Error" exactly when javac failed and "Output Read Error" exactly when the processes succeeded |
| Dispatch.Invoke | server/index.js:210-223 | the runner settles as `Settle` says, and leaves the files and directories `RunnerFiles` and `RunnerDirs` describe |
| Dispatch.RunnerEffect | server/index.js:210-223 | a runner call's new files are among its artifacts, a file disappears only under a Java source's directory, and every file that is not an artifact keeps its text, apart from what the submitted program itself does |
| Dispatch.RunnerFrame | server/index.js:210-223 | a runner call leaves every file it may not touch as it was, and creates only its artifacts; all of this apart from what the submitted program itself does |
| Dispatch.JobPathsDisjoint | server/index.js:201-202 | the input file of a job is not its source, not a runner artifact and not under the codes directory |
| Dispatch.BinaryPlacement | server/execute/executecpp.js:22-24 | the C or C++ binary sits directly in the outputs directory and is neither the source, the input nor `<jobId>.out` |
| Cleanup.TryUnlink | server/cleanupFiles.js:13-18 | the path is unlinked, and an error is logged exactly when the path is a directory |
| Cleanup.CleanupFiles | server/cleanupFiles.js:9-70 | without a source name nothing is removed and the path-type error is logged; otherwise exactly the targets are removed and the logged errors are the EISDIR refusals among them |
| Cleanup.CleanupMissesBinary | server/cleanupFiles.js:57-65 | for a job named after its UUID, the C or C++ binary is never among the targets |
| Cleanup.TargetsUnderOutputs | server/cleanupFiles.js:31-65 | the only targets under the outputs directory are the named output file and `<jobId>.out` |
| RunRoute.RunFailure | server/index.js:231-271 | the status is 400 exactly when the thrown value has a truthy `error` that names no missing command or file; every other failure is 500 |
| RunRoute.MapHeadline | server/index.js:235-254 | the statements computing the status and message from `error` or `message` give the headline failure |
| RunRoute.AppendStreams | server/index.js:256-263 | the trimmed stderr and stdout are appended, each only when it is not blank |
| RunRoute.MapError | server/index.js:231-268 | the catch block as written computes `RunFailure` |
| RunRoute.Attempted | server/index.js:198-226 | output or the unsupported-language answer comes only after both files were written; output comes only for a supported language |
| RunRoute.Respond | server/index.js:225-271 | the answer is 200 exactly when the runner gave output, 400 without `success` for an unsupported language, and the mapped failure otherwise |
| RunRoute.Present | server/index.js:291-292 | the paths unlinked are exactly the non-null entries of the list |
| RunRoute.ListedPaths | server/index.js:274-288 | a written input is listed, the source is listed exactly for C, C++ and Python, and the binary is never listed; with no input path it is also what `/submit` unlinks (server/index.js:499-512) |
| RunRoute.UnlinkAll | server/index.js:290-297 | exactly the listed paths are unlinked and the directories are unchanged |
| RunRoute.Finally | server/index.js:273-307 | the files left are those not listed, minus, for a recorded Java directory, everything under it; texts are unchanged; the directories lose only the removed Java tree |
| RunRoute.FinallyFrame | server/index.js:273-307 | the `finally` block changes only the listed paths and what lies under the removed Java directory, and creates nothing |
| RunRoute.WriteJobFiles | server/index.js:201-202 | the source is written first and the input second; each path is recorded exactly when its write succeeded, the first write that throws gives the error, and the files gain exactly the successful writes |
| RunRoute.TriedFrame | server/index.js:198-226 | the `try` block touches only the job's own files, and creates only its source, its input and runner artifacts; all of this apart from what the submitted program itself does |
| RunRoute.ListedTouchable | server/index.js:274-288 | every path the `finally` block lists is one of the job's own files |
| RunRoute.RunFrame | server/index.js:198-307 | a whole `/run` job changes only files it may touch, and the only new files it leaves are its source and runner artifacts; all of this apart from what the submitted program itself does |
| RunRoute.RunRemovesInput | server/index.js:273-297 | the input file a job writes is gone when the job ends, unless it was on disk before |
| RunRoute.RunSourceFate | server/index.js:273-307 | a written C, C++ or Python source is unlinked; an unsupported language's source stays with its text, as does a Java source whose input write failed |
| RunRoute.TriedBinary | server/index.js:210-216 | after the `try` block of a C or C++ job that reached its runner, the binary the compiler wrote is on disk |
| RunRoute.RunKeepsBinary | server/index.js:283-288 | the `finally` block never lists the C or C++ binary, so it stays with the text the compiler wrote |
| RunRoute.JavaRunTakesCodesDir | server/index.js:198-307 | a Java job that reached its runner removes the codes directory and leaves no file under it, other jobs' sources included |
| RunRoute.TryBlock | server/index.js:198-226 | the outcome is `Attempted`; the recorded source, input and Java directory are set exactly when their writes succeeded; the files are as `TriedFiles` says, every file outside the job's own keeps its text, and the only new files are the source, the input and runner artifacts; all of this apart from what the submitted program itself does |
| RunRoute.TryFinally | server/index.js:198-307 | the outcome is `Attempted`, and the disk is left as `RunFiles` and `JobDirs` describe |
| RunRoute.Run | server/index.js:184-308 | no truthy code gives 400 and touches nothing; otherwise the answer is `Respond(Attempted(...))`, the disk is as `RunFiles` and `JobDirs` describe, every file the job may not touch keeps its text, and the only new files are its source and runner artifacts; all of this apart from what the submitted program itself does |
| RunRoute.JavaPythonOnlyLabels | server/index.js:217-222 | a Java or Python job whose files were written is answered 400 with a bare label: "Compilation Error" exactly when javac failed, "Output Read Error" exactly when the processes succeeded |
| RunRoute.MissingInputIsServerError | server/index.js:202 | a request without `input` is answered 500 with Node's message for an undefined `data` argument |
| RunRoute.ConfigurationHeadline | server/index.js:245-248 | an `error` naming a missing command or file gives 500 and the configuration message |
| RunRoute.MissingFileNotBlank | server/index.js:257 | a stderr mentioning a missing file is not blank, so it is appended |
| RunRoute.MissingHeaderBlamesServer | server/index.js:245-263 | a C or C++ compile failing with "No such file or directory" is answered 500 with the configuration message and the trimmed stderr (and, for C, the stdout) |
| RunRoute.CompileFailureBlamesServer | server/index.js:231-263 | a C or C++ compile failing with "No such file or directory" in stderr maps to 500 with the configuration message and the trimmed stderr, plus the stdout for C |
| RunRoute.WarningsFailOnlyC | server/index.js:211-216 | a compile that only warns fails a C job and gives a C++ job its stdout with 200 |
| SubmitRoute.CaseOutcome | server/index.js:410-426 | an unsupported language throws its own Error; output comes exactly from a C build with empty stderr or a successful C++ build, and is the build's stdout |
| SubmitRoute.Details | server/index.js:430-434 | the recorded error is never empty and keeps a runner's label as it is |
| SubmitRoute.JudgeMeaning | server/index.js:448-469 | a record holds the input and the trimmed expected text; a failed run records "Execution Error" and never passes; otherwise the trimmed output is recorded and passes exactly when it equals the expected text |
| SubmitRoute.FirstUnwritable | server/index.js:404-405 | the loop stops at the first test case whose input file cannot be written, or runs to the end |
| SubmitRoute.RecordsGrow | server/index.js:450-468 | the records of one more test case are the old ones with its record pushed |
| SubmitRoute.Stored | server/models/submission.js:28-35 | the saved results keep, in order, each record's input, expected, actual and passed |
| SubmitRoute.Judgement | server/index.js:385-496 | the answer is 200, 404 or 500; 200 only for a supported language and a found problem, with a verdict and results; 404 exactly when the source was written and the problem is missing |
| SubmitRoute.InputPlacement | server/generateInputFile.js:12-20 | an input file lies in the inputs directory, outside the codes directory |
| SubmitRoute.InputWriteOutsideCodes | server/index.js:405 | removing the codes directory cannot change whether an input file can be written |
| SubmitRoute.ArtifactsOutsideInputs | server/index.js:410-422 | no runner artifact lies in the inputs directory |
| SubmitRoute.KeptAround | server/index.js:405-446 | writing the input, running, and unlinking the input again keeps the loop's disk invariant |
| SubmitRoute.CaseInputApart | server/index.js:405 | a test case's input file is neither the source nor the C or C++ binary |
| SubmitRoute.RunnerKeeps | server/index.js:410-422 | what a runner call leaves on disk keeps the loop's disk invariant |
| SubmitRoute.TryRunner | server/index.js:409-438 | the output and error details are those of `CaseOutcome`; the loop's disk invariant is kept; only what the runner may touch changes, and only its artifacts are created |
| SubmitRoute.ExerciseCase | server/index.js:405-446 | the input write fails exactly as `WriteError` says against the loop's starting directories; otherwise the output and details are `CaseOutcome`'s; the invariant is kept; only the input file and what the runner may touch change |
| SubmitRoute.JudgeCase | server/index.js:405-469 | the record is `Record` when the input file can be written, and otherwise the write's error; the disk invariant is kept; only the input file and what the runner may touch change, and only runner artifacts are created |
| SubmitRoute.FirstUnwritableIs | server/index.js:404-405 | the search stops exactly at the first unwritable test case |
| SubmitRoute.AllPassedGrow | server/index.js:429-462 | `allPassed` after one more record is its old value and that record's `passed` |
| SubmitRoute.AnyBuiltGrow | server/index.js:412-415 | a build has written a binary after one more test case exactly when one had before or this one's did |
| SubmitRoute.ProgressGrows | server/index.js:404-470 | one more writable test case extends the records, `allPassed` and the disk invariant |
| SubmitRoute.LoopFrameGrows | server/index.js:404-446 | one more test case keeps the loop within its test cases' input files and what the runner may touch |
| SubmitRoute.JudgeNext | server/index.js:404-470 | one pass of the loop either stops it as `Tested` says or extends its records, `allPassed` and disk invariant; the disk stays within what the whole loop may touch |
| SubmitRoute.TestedStops | server/index.js:405 | a loop stopped by an unwritable input ends as `Tested` says |
| SubmitRoute.TestedCompletes | server/index.js:404-470 | a loop that reached the end ends as `Tested` says |
| SubmitRoute.TestCases | server/index.js:401-470 | the loop's outcome is `Tested`, `allPassed` says whether every record passed, no new file is left in the inputs directory, a written binary stays, only the test cases' input files and what the runner may touch change, and only runner artifacts are created; all of this apart from what the submitted program itself does |
| SubmitRoute.TryCatchFrame | server/index.js:385-470 | writing the source and running the loop change only the job's own files, and create only its source and runner artifacts |
| SubmitRoute.TryCatch | server/index.js:385-496 | the answer is `Judgement`; the recorded source path and Java directory are set exactly when the source was written; no new input file is left; a failed source write changes nothing; only the job's own files change and only its source and artifacts are new; all of this apart from what the submitted program itself does |
| SubmitRoute.FinallyFrame | server/index.js:497-520 | the `finally` block keeps the job within its own files |
| SubmitRoute.Submit | server/index.js:372-521 | an incomplete request gives 400 and touches nothing; otherwise the answer is `Judgement`; no input file is left; the C/C++/Python source is gone, another language's stays; Java removes the codes directory; a written binary stays; only the job's own files change, only its source and artifacts are new, and the directories lose only the Java codes tree; all of this apart from what the submitted program itself does |
| SubmitRoute.VerdictMatchesResults | server/index.js:477 | a 200 verdict is "Accepted" or "Wrong Answer", and it is "Accepted" exactly when every saved result passed |
| SubmitRoute.JudgedResults | server/index.js:448-469 | a 200 answer has one result per test case, in order, with its input, the trimmed expected text, the trimmed output or "Execution Error", and passed exactly when the output trims to the expected text |
| SubmitRoute.CompiledCasePasses | server/index.js:461 | a C or C++ test case passes exactly when the build succeeds (for C, with empty stderr) and the trimmed stdout is the trimmed expected text |
| SubmitRoute.PaddedOutputPasses | server/index.js:461 | output that differs from the expected text only by blank padding passes |
| SubmitRoute.InterpretedNeverAccepted | server/index.js:417-422 | a Java or Python submission to a problem with test cases is never accepted: every result is an execution error |
| SubmitRoute.EmptyProblemAccepted | server/index.js:401-477 | a problem without test cases accepts any writable source in a supported language |
| SubmitRoute.UnsupportedFailsAtSave | server/index.js:423-425 | for an unsupported language every test case is run, and the save then fails with the schema's enum error, a 500 |
| SubmitRoute.FirstUnwritableAtMost | server/index.js:404-405 | the loop stops at or before any test case whose input cannot be written |
| SubmitRoute.UnwritableInputIsServerError | server/index.js:489-496 | a test case whose input file cannot be written makes the answer a 500 with the generic submission error |

## Left out

- What the submitted program itself does to the disk is not modelled. It
  runs through `exec` with the server's own permissions and no sandbox, so
  it could read, write or delete any file, `/app/server.js` or the inputs
  directory included. The frames the model proves (`RunRoute.Run`,
  `SubmitRoute.Submit` and the members they rest on) hold apart from that.
- Processes are not executed. Each `exec` call is an `Exec` value given as a
  parameter: whether it failed, its stdout and stderr, and the file its
  command line writes.
  - An exec error's message is modelled as "Command failed: ", the command,
    a newline and stderr.
  - `maxBuffer` overflow, spawn failures and signals are not modelled.
- UUIDs are parameters, required to have v4 shape. The model proves what
  follows from that shape: distinct ids give distinct paths. It does not
  prove that `uuid()` returns distinct values.
- Database queries (`Problem.findById`, `Testcase.find`) are a `Lookup`
  parameter. A failed `save()` is modelled only for the schema's
  `language` enum. Connection failures are not modelled.
- Authentication (`authMiddleware`, `req.user`) is not modelled. The saved
  document's `user`, `problem`, `code` and `submittedAt` fields are not
  modelled either.
- The `mkdir` calls that run when the modules load (codes, inputs and
  outputs directories) are not modelled. The directories are whatever the
  initial `dirs` says.
- Asynchronous ordering is not modelled: the unlink and `rm` calls in the
  `finally` blocks, and the Java runner's own `fs.rm` of the source's
  directory after a failed compile or after the run, are not awaited. They
  are modelled as completing in order, so the runner's removal is done
  before its `readFile` of the output, a race the code leaves open.
  Concurrent requests and races between them are not modelled.
- Paths are the strings the code builds. `path.join` is modelled only for a
  directory without a trailing separator. No normalisation of `..`, `.` or
  repeated separators is modelled.
- `console` logging is not modelled. The text of `cleanupFiles`' log lines
  is not modelled either; the log is the list of errors logged.
- The outer catch of `/submit` uses `err.message || JSON.stringify(err)`.
  The model uses the message of the thrown `fs` error or query error, which
  is always truthy, so the `JSON.stringify` branch is not modelled.
- The `/run` route builds its response before the `finally` block runs. The
  model builds it after, which gives the same result because building the
  response reads no file.
- Mongoose's subdocument `_id` on each saved result is not modelled.
- The verdict enum's other values ("Runtime Error", "Compilation Error",
  "Time Limit Exceeded", "Error") are never produced by the code, so they
  are not modelled.
- The Java runner removes the codes directory during the first test case.
  Later test cases' runner results are still taken from their `Exec`
  values; the model does not make javac fail for lack of a source file.
  - The input writes stay unaffected, because the inputs directory is
    outside the codes directory (`SubmitRoute.InputWriteOutsideCodes`).
- `server/executec.js` (an older copy of the C runner that is not imported)
  is not part of this model.
- `cleanupFiles` is not called by either route; it is modelled on its own.
- Generate.Extension: the extension table is a plain object, so a language
  named after an `Object.prototype` member (`constructor`, `__proto__`) finds
  a value there; a non-string `language` from the JSON body is not modelled
  either. The model treats every name outside the four as `undefined`.
  Likewise a truthy non-string `code` or `input` (a number, say) makes
  `writeFileSync` throw ERR_INVALID_ARG_TYPE; the model's code and input
  are strings, so it does not capture that.
- FileStore.WriteError: an `ENOTDIR` failure (a parent path that is a file)
  is not modelled, and nothing keeps a path from being both a file and a
  directory in the model's disk.
- RunRoute.WarningsFailOnlyC: for C the lemma states only that the answer is
  not 200. The exact message is given by `RunRoute.RunFailure`.
