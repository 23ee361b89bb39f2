/** execute/executec.js: compile with gcc and run the binary in one `&&`
    command line, then classify what exec reports. */
module ExecuteC {
  import opened Js
  import opened Paths
  import opened Exec
  import Generate

  /** `outputs/<jobId>`: the binary has no extension. */
  function BinaryPath(filePath: Path): Path {
    Join(OutputsDir, JobId(filePath))
  }

  /** `gcc "<file>" -o "<binary>" && "<binary>" < "<input>"`. The function takes
      no output-file argument, so a third argument passed by a caller is dropped. */
  function Command(filePath: Path, inputFilePath: Path): CommandLine {
    var binary := BinaryPath(filePath);
    AndThen(
      Invocation([Bare("gcc"), Quoted(filePath), Bare("-o"), Quoted(binary)], None, None),
      Invocation([Quoted(binary)], Some(inputFilePath), None))
  }

  /** For a generated C source, the command compiles it to `outputs/<uuid>`,
      runs exactly that binary, and only after gcc succeeded, with stdin read
      from the input file. */
  lemma CommandForSource(id: string, inputFilePath: Path)
    requires Generate.IsUuid(id)
    ensures BinaryPath(Generate.CodeFilePath(id, "c")) == Join(OutputsDir, id)
    ensures var c := Command(Generate.CodeFilePath(id, "c"), inputFilePath);
      && c.AndThen?
      && c.first.words[3] == Quoted(Join(OutputsDir, id))
      && c.second.words == [Quoted(Join(OutputsDir, id))]
      && c.second.stdin == Some(inputFilePath)
  {
    Generate.JobIdOfCodeFile(id, "c");
  }

  /** The callback's decision: a failed command line rejects with exec's
      message and both streams, so compile and run failures look alike; otherwise
      any stderr, a compiler warning included, rejects; otherwise stdout
      resolves. */
  function Classify(filePath: Path, inputFilePath: Path, o: Exec): (r: Settled)
    ensures r.Resolved? <==> !o.failed && o.stderr == ""
    ensures r.Resolved? ==> r.output == o.stdout
    ensures o.failed ==>
      r.reason == Rejection(FailureMessage(Render(Command(filePath, inputFilePath)), o), None, Some(o.stdout), Some(o.stderr))
    ensures !o.failed && o.stderr != "" ==>
      r.reason == Rejection("Runtime Error/Warning in C/C++", None, Some(o.stdout), Some(o.stderr))
  {
    if o.failed then
      Rejected(Rejection(FailureMessage(Render(Command(filePath, inputFilePath)), o), None, Some(o.stdout), Some(o.stderr)))
    else if o.stderr != "" then Rejected(Rejection("Runtime Error/Warning in C/C++", None, Some(o.stdout), Some(o.stderr)))
    else if o.stdout != "" then Resolved(o.stdout)
    else Resolved("")
  }
}
