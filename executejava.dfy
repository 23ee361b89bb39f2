/** execute/executejava.js: compile with javac into the source's directory, run
    class `Main` from there with stdout redirected to a file, remove that
    directory, then read the file. */
module ExecuteJava {
  import opened Js
  import opened Paths
  import opened FileStore
  import opened Exec
  import Generate

  /** The class the runner starts; the source must declare it. */
  const ClassName: string := "Main"

  /** `javac "<source>" -d "<dir>"`, where `<dir>` is the source's directory. */
  function CompileCommand(sourceFilePath: Path): CommandLine {
    Simple(Invocation([Bare("javac"), Quoted(sourceFilePath), Bare("-d"), Quoted(Dirname(sourceFilePath))], None, None))
  }

  /** `java -cp "<dir>" Main [< "<input>"] > "<output>"`: stdin is redirected
      only for a truthy input path, and an absent output path is interpolated
      as the word `undefined`. */
  function RunCommand(sourceFilePath: Path, inputFilePath: Option<Path>, outputFilePath: Option<Path>): CommandLine {
    Simple(Invocation(
      [Bare("java"), Bare("-cp"), Quoted(Dirname(sourceFilePath)), Bare(ClassName)],
      if Truthy(inputFilePath) then Some(inputFilePath.value) else None,
      Some(Interpolate(outputFilePath))))
  }

  /** Where javac puts the compiled class: the source's directory. */
  function ClassFile(sourceFilePath: Path): Path {
    Join(Dirname(sourceFilePath), ClassName + ".class")
  }

  /** For a generated source, as the shell receives the commands: javac's
      `-d` and java's `-cp` name the shared codes directory, not a directory
      of the job's own, so every job compiles to the same
      `/app/codes/Main.class`; and called without an output path, as both
      routes call it, the run redirects stdout to a file named `undefined`. */
  lemma CommandsForSource(id: string, inputId: string)
    requires Generate.IsUuid(id) && Generate.IsUuid(inputId)
    ensures var source := Generate.CodeFilePath(id, "java");
      && Render(CompileCommand(source)) == "javac \"" + source + "\" -d \"" + CodesDir + "\""
      && ClassFile(source) == Join(CodesDir, "Main.class")
      && Render(RunCommand(source, Some(Generate.InputFilePath(inputId)), None))
         == "java -cp \"" + CodesDir + "\" Main" + " < \"" + Generate.InputFilePath(inputId) + "\"" + " > \"undefined\""
  {
    var source := Generate.CodeFilePath(id, "java");
    Generate.JobIdOfCodeFile(id, "java");
    RenderedCompile(source);
    RenderedRun(source, Generate.InputFilePath(inputId));
  }

  /** javac's command line as text, for any source path. */
  lemma RenderedCompile(source: Path)
    ensures Render(CompileCommand(source)) == "javac \"" + source + "\" -d \"" + Dirname(source) + "\""
  {
    CompileWords(source, Dirname(source));
  }

  lemma CompileWords(source: Path, dir: Path)
    ensures RenderWords([Bare("javac"), Quoted(source), Bare("-d"), Quoted(dir)])
         == "javac \"" + source + "\" -d \"" + dir + "\""
  {
    assert RenderWords([Bare("-d"), Quoted(dir)]) == "-d \"" + dir + "\"" by {
      RenderWordsCons(Bare("-d"), [Quoted(dir)]);
      assert [Bare("-d")] + [Quoted(dir)] == [Bare("-d"), Quoted(dir)];
    }
    assert RenderWords([Quoted(source), Bare("-d"), Quoted(dir)]) == "\"" + source + "\" -d \"" + dir + "\"" by {
      RenderWordsCons(Quoted(source), [Bare("-d"), Quoted(dir)]);
      assert [Quoted(source)] + [Bare("-d"), Quoted(dir)] == [Quoted(source), Bare("-d"), Quoted(dir)];
    }
    RenderWordsCons(Bare("javac"), [Quoted(source), Bare("-d"), Quoted(dir)]);
    assert [Bare("javac")] + [Quoted(source), Bare("-d"), Quoted(dir)] == [Bare("javac"), Quoted(source), Bare("-d"), Quoted(dir)];
  }

  /** java's command line as text, for any source path and a given input path. */
  lemma RenderedRun(source: Path, input: Path)
    requires input != ""
    ensures Render(RunCommand(source, Some(input), None))
         == "java -cp \"" + Dirname(source) + "\" Main" + " < \"" + input + "\"" + " > \"undefined\""
  {
    RunWords(Dirname(source));
    assert " > \"" + "undefined" + "\"" == " > \"undefined\"";
  }

  lemma RunWords(dir: Path)
    ensures RenderWords([Bare("java"), Bare("-cp"), Quoted(dir), Bare(ClassName)]) == "java -cp \"" + dir + "\" Main"
  {
    assert RenderWords([Quoted(dir), Bare(ClassName)]) == "\"" + dir + "\" Main" by {
      RenderWordsCons(Quoted(dir), [Bare(ClassName)]);
      assert [Quoted(dir)] + [Bare(ClassName)] == [Quoted(dir), Bare(ClassName)];
    }
    assert RenderWords([Bare("-cp"), Quoted(dir), Bare(ClassName)]) == "-cp \"" + dir + "\" Main" by {
      RenderWordsCons(Bare("-cp"), [Quoted(dir), Bare(ClassName)]);
      assert [Bare("-cp")] + [Quoted(dir), Bare(ClassName)] == [Bare("-cp"), Quoted(dir), Bare(ClassName)];
    }
    RenderWordsCons(Bare("java"), [Bare("-cp"), Quoted(dir), Bare(ClassName)]);
    assert [Bare("java")] + [Bare("-cp"), Quoted(dir), Bare(ClassName)] == [Bare("java"), Bare("-cp"), Quoted(dir), Bare(ClassName)];
  }

  /** The two callbacks' decision. A failed compile rejects before anything
      runs; a failed run rejects; output on stderr rejects even with exit status
      0; only then is the output file read, and its text (not the captured
      stdout) resolves. */
  function Classify(sourceFilePath: Path, inputFilePath: Option<Path>, outputFilePath: Option<Path>,
                    javac: Exec, run: Exec, read: Result<string, FsError>): (r: Settled)
    ensures r.Resolved? <==> !javac.failed && !run.failed && run.stderr == "" && read.Ok?
    ensures r.Resolved? ==> r.output == read.value
    ensures javac.failed ==> r.reason == Rejection("Compilation Error",
      Some(Or(Or(javac.stderr, javac.stdout), FailureMessage(Render(CompileCommand(sourceFilePath)), javac))), None, None)
    ensures !javac.failed && run.failed ==> r.reason == Rejection("Runtime Error",
      Some(Or(Or(run.stderr, run.stdout), FailureMessage(Render(RunCommand(sourceFilePath, inputFilePath, outputFilePath)), run))), None, None)
    ensures !javac.failed && !run.failed && run.stderr != "" ==> r.reason == Rejection("Runtime Error", Some(run.stderr), None, None)
    ensures !javac.failed && !run.failed && run.stderr == "" && read.Err? ==>
      r.reason == Rejection("Output Read Error", Some(read.error.Message()), None, None)
  {
    if javac.failed then
      var message := FailureMessage(Render(CompileCommand(sourceFilePath)), javac);
      Rejected(Rejection("Compilation Error", Some(Or(Or(javac.stderr, javac.stdout), message)), None, None))
    else if run.failed then
      var message := FailureMessage(Render(RunCommand(sourceFilePath, inputFilePath, outputFilePath)), run);
      Rejected(Rejection("Runtime Error", Some(Or(Or(run.stderr, run.stdout), message)), None, None))
    else if run.stderr != "" then
      Rejected(Rejection("Runtime Error", Some(run.stderr), None, None))
    else if read.Ok? then
      Resolved(read.value)
    else
      Rejected(Rejection("Output Read Error", Some(read.error.Message()), None, None))
  }

  /** executeJava(sourceFilePath, inputFilePath, outputFilePath). A successful
      compile leaves `Main.class` beside the source, and the run's redirect
      leaves its stdout at the output path. On every path that gets past
      javac's callback, the source's whole directory is removed, recursively,
      before the output file is read. */
  method Execute(fs: FileSystem, sourceFilePath: Path, inputFilePath: Option<Path>, outputFilePath: Option<Path>,
                 javac: Exec, run: Exec) returns (r: Settled)
    modifies fs
    ensures r == Classify(sourceFilePath, inputFilePath, outputFilePath, javac, run, ReadResult(fs.files, fs.dirs, outputFilePath))
    ensures fs.dirs == DirsOutside(old(fs.dirs), Dirname(sourceFilePath))
    ensures javac.failed ==> fs.files == FilesOutside(old(fs.files), Dirname(sourceFilePath))
    ensures !javac.failed ==> fs.files == FilesOutside(
      Deposit(Deposit(old(fs.files), old(fs.dirs), ClassFile(sourceFilePath), javac.wrote),
              old(fs.dirs), Interpolate(outputFilePath), run.wrote),
      Dirname(sourceFilePath))
  {
    var dirCodes := Dirname(sourceFilePath);
    if javac.failed {
      fs.RemoveTree(dirCodes);
      r := Classify(sourceFilePath, inputFilePath, outputFilePath, javac, run, ReadResult(fs.files, fs.dirs, outputFilePath));
      return;
    }
    fs.Spawned(ClassFile(sourceFilePath), javac.wrote);
    fs.Spawned(Interpolate(outputFilePath), run.wrote);
    fs.RemoveTree(dirCodes);
    if run.failed || run.stderr != "" {
      r := Classify(sourceFilePath, inputFilePath, outputFilePath, javac, run, ReadResult(fs.files, fs.dirs, outputFilePath));
      return;
    }
    var read := ReadResult(fs.files, fs.dirs, outputFilePath);
    if read.Ok? {
      r := Resolved(read.value);
    } else {
      r := Rejected(Rejection("Output Read Error", Some(read.error.Message()), None, None));
    }
  }

  /** Called without an output path, the runner never resolves: whatever javac
      and java do, it rejects, and when both succeed quietly the reason is the
      read of an `undefined` path. */
  lemma NeverResolvesWithoutOutputPath(sourceFilePath: Path, inputFilePath: Option<Path>, javac: Exec, run: Exec,
                                       files: map<Path, string>, dirs: set<Path>)
    ensures var r := Classify(sourceFilePath, inputFilePath, None, javac, run, ReadResult(files, dirs, None));
      && r.Rejected?
      && (!javac.failed && !run.failed && run.stderr == "" ==>
            r.reason == Rejection("Output Read Error", Some(InvalidArgType("path").Message()), None, None))
  {
  }
}
