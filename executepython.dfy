/** execute/executepython.js: run the interpreter with stdout redirected to a
    file, then read the file. */
module ExecutePython {
  import opened Js
  import opened Paths
  import opened FileStore
  import opened Exec
  import Generate

  /** `python3 "<file>" [< "<input>"] > "<output>"`: stdin is redirected only
      for a truthy input path, and an absent output path is interpolated as the
      word `undefined`. */
  function Command(filePath: Path, inputFilePath: Option<Path>, outputFilePath: Option<Path>): CommandLine {
    Simple(Invocation(
      [Bare("python3"), Quoted(filePath)],
      if Truthy(inputFilePath) then Some(inputFilePath.value) else None,
      Some(Interpolate(outputFilePath))))
  }

  /** For a generated source, as the shell receives the command: the source
      runs with stdin from the input file and, called without an output path
      as both routes call it, stdout redirected to a file named `undefined`
      in the server's working directory. */
  lemma CommandForSource(id: string, inputId: string)
    requires Generate.IsUuid(id) && Generate.IsUuid(inputId)
    ensures var source := Generate.CodeFilePath(id, "python");
      && source == "/app/codes/" + id + ".py"
      && Render(Command(source, Some(Generate.InputFilePath(inputId)), None))
         == "python3 \"" + source + "\"" + " < \"" + Generate.InputFilePath(inputId) + "\"" + " > \"undefined\""
  {
    var source := Generate.CodeFilePath(id, "python");
    var words := [Bare("python3"), Quoted(source)];
    assert words[1..] == [Quoted(source)];
    assert RenderWords(words) == "python3 \"" + source + "\"";
    assert Generate.InputFilePath(inputId) != "";
    assert Render(Command(source, Some(Generate.InputFilePath(inputId)), None))
        == RenderWords(words) + (" < \"" + Generate.InputFilePath(inputId) + "\"") + (" > \"" + "undefined" + "\"");
  }

  /** The callback's decision: a failed run rejects; output on stderr rejects
      even with exit status 0; only then is the output file read, and its text
      (not the captured stdout) resolves. */
  function Classify(filePath: Path, inputFilePath: Option<Path>, outputFilePath: Option<Path>,
                    run: Exec, read: Result<string, FsError>): (r: Settled)
    ensures r.Resolved? <==> !run.failed && run.stderr == "" && read.Ok?
    ensures r.Resolved? ==> r.output == read.value
    ensures run.failed ==> r.reason == Rejection("Runtime Error",
      Some(Or(Or(run.stderr, run.stdout), FailureMessage(Render(Command(filePath, inputFilePath, outputFilePath)), run))), None, None)
    ensures !run.failed && run.stderr != "" ==> r.reason == Rejection("Runtime Error", Some(run.stderr), None, None)
    ensures !run.failed && run.stderr == "" && read.Err? ==>
      r.reason == Rejection("Output Read Error", Some(read.error.Message()), None, None)
  {
    if run.failed then
      var message := FailureMessage(Render(Command(filePath, inputFilePath, outputFilePath)), run);
      Rejected(Rejection("Runtime Error", Some(Or(Or(run.stderr, run.stdout), message)), None, None))
    else if run.stderr != "" then
      Rejected(Rejection("Runtime Error", Some(run.stderr), None, None))
    else if read.Ok? then
      Resolved(read.value)
    else
      Rejected(Rejection("Output Read Error", Some(read.error.Message()), None, None))
  }

  /** executePython(filePath, inputFilePath, outputFilePath): the redirect
      leaves the program's stdout at the output path, then that file is read.
      Nothing is compiled and nothing is deleted. */
  method Execute(fs: FileSystem, filePath: Path, inputFilePath: Option<Path>, outputFilePath: Option<Path>, run: Exec)
    returns (r: Settled)
    modifies fs
    ensures r == Classify(filePath, inputFilePath, outputFilePath, run, ReadResult(fs.files, fs.dirs, outputFilePath))
    ensures fs.files == Deposit(old(fs.files), old(fs.dirs), Interpolate(outputFilePath), run.wrote)
    ensures old(fs.files).Keys <= fs.files.Keys
    ensures fs.dirs == old(fs.dirs)
  {
    fs.Spawned(Interpolate(outputFilePath), run.wrote);
    if run.failed {
      var message := FailureMessage(Render(Command(filePath, inputFilePath, outputFilePath)), run);
      return Rejected(Rejection("Runtime Error", Some(Or(Or(run.stderr, run.stdout), message)), None, None));
    }
    if run.stderr != "" {
      return Rejected(Rejection("Runtime Error", Some(run.stderr), None, None));
    }
    var read := ReadResult(fs.files, fs.dirs, outputFilePath);
    if read.Ok? {
      r := Resolved(read.value);
    } else {
      r := Rejected(Rejection("Output Read Error", Some(read.error.Message()), None, None));
    }
  }

  /** Called without an output path, the runner never resolves. */
  lemma NeverResolvesWithoutOutputPath(filePath: Path, inputFilePath: Option<Path>, run: Exec,
                                       files: map<Path, string>, dirs: set<Path>)
    ensures var r := Classify(filePath, inputFilePath, None, run, ReadResult(files, dirs, None));
      && r.Rejected?
      && (!run.failed && run.stderr == "" ==>
            r.reason == Rejection("Output Read Error", Some(InvalidArgType("path").Message()), None, None))
  {
  }
}
