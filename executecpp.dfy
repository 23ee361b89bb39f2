/** execute/executecpp.js: compile with g++ and run the binary in one `&&`
    command line, then classify what exec reports. */
module ExecuteCpp {
  import opened Js
  import opened Paths
  import opened Exec
  import Generate

  /** `outputs/<jobId>.exe`. */
  function BinaryPath(filePath: Path): Path {
    Join(OutputsDir, JobId(filePath) + ".exe")
  }

  /** `g++ "<file>" -o "<binary>" && "<binary>" < "<input>"`. The function takes
      `(filePath, inputFilePath)` only, so a third argument is dropped. */
  function Command(filePath: Path, inputFilePath: Path): CommandLine {
    var binary := BinaryPath(filePath);
    AndThen(
      Invocation([Bare("g++"), Quoted(filePath), Bare("-o"), Quoted(binary)], None, None),
      Invocation([Quoted(binary)], Some(inputFilePath), None))
  }

  /** For a generated C++ source, the command compiles it to
      `outputs/<uuid>.exe`, runs exactly that binary, and only after g++
      succeeded, with stdin read from the input file. */
  lemma CommandForSource(id: string, inputFilePath: Path)
    requires Generate.IsUuid(id)
    ensures BinaryPath(Generate.CodeFilePath(id, "cpp")) == Join(OutputsDir, id + ".exe")
    ensures var c := Command(Generate.CodeFilePath(id, "cpp"), inputFilePath);
      && c.AndThen?
      && c.first.words[3] == Quoted(Join(OutputsDir, id + ".exe"))
      && c.second.words == [Quoted(Join(OutputsDir, id + ".exe"))]
      && c.second.stdin == Some(inputFilePath)
  {
    Generate.JobIdOfCodeFile(id, "cpp");
  }

  /** The callback's decision: a failed command line rejects with exec's
      message and stderr; otherwise stdout resolves, even when stderr holds
      warnings. */
  function Classify(filePath: Path, inputFilePath: Path, o: Exec): (r: Settled)
    ensures r.Resolved? <==> !o.failed
    ensures r.Resolved? ==> r.output == o.stdout
    ensures r.Rejected? ==>
      r.reason == Rejection(FailureMessage(Render(Command(filePath, inputFilePath)), o), None, None, Some(o.stderr))
  {
    if o.failed then Rejected(Rejection(FailureMessage(Render(Command(filePath, inputFilePath)), o), None, None, Some(o.stderr)))
    else Resolved(o.stdout)
  }
}
