/** What the runners share: the abstract result of a `child_process.exec` call,
    the object a runner's promise rejects with, and the shape of the shell
    command lines the runners build. */
module Exec {
  import opened Js
  import opened Paths

  /** One exec call as its callback sees it: whether the command line failed
      (a non-zero exit status), the captured stdout and stderr, and the text of
      the one file the command line writes, if it writes one: the compiler's
      output for a build, the redirected stdout for a run with `>`. */
  datatype Exec = Exec(failed: bool, stdout: string, stderr: string, wrote: Option<string>)

  /** The `message` of the Error exec hands its callback when the command line
      fails: the command text, then the captured stderr. */
  function FailureMessage(command: string, o: Exec): string {
    "Command failed: " + command + "\n" + o.stderr
  }

  /** Whatever the command line prints on stderr shows up in the failure message. */
  lemma FailureMessageShowsStderr(command: string, o: Exec, t: string)
    requires Includes(o.stderr, t)
    ensures Includes(FailureMessage(command, o), t)
  {
    IncludesSuffix("Command failed: " + command + "\n", o.stderr, t);
  }

  /** The plain object a runner rejects with; absent properties are `None`. */
  datatype Rejection = Rejection(error: string, details: Option<string>, stdout: Option<string>, stderr: Option<string>)

  /** How a runner's promise settles. */
  datatype Settled = Resolved(output: string) | Rejected(reason: Rejection)

  /** A word of a shell command line, bare or in double quotes. */
  datatype Word = Bare(text: string) | Quoted(text: string)

  /** A program with its arguments and its `<` and `>` redirections. */
  datatype Invocation = Invocation(words: seq<Word>, stdin: Option<Path>, stdout: Option<Path>)

  /** A command line: one program, or `first && second`, where `second` starts
      only if `first` exits with status 0. */
  datatype CommandLine = Simple(step: Invocation) | AndThen(first: Invocation, second: Invocation)

  function RenderWord(w: Word): string {
    match w
    case Bare(t) => t
    case Quoted(t) => "\"" + t + "\""
  }

  function RenderWords(ws: seq<Word>): string {
    if ws == [] then ""
    else if |ws| == 1 then RenderWord(ws[0])
    else RenderWord(ws[0]) + " " + RenderWords(ws[1..])
  }

  /** A word followed by more words is rendered with a space between. */
  lemma RenderWordsCons(w: Word, ws: seq<Word>)
    requires ws != []
    ensures RenderWords([w] + ws) == RenderWord(w) + " " + RenderWords(ws)
  {
    assert ([w] + ws)[1..] == ws;
  }

  function RenderInvocation(inv: Invocation): string {
    RenderWords(inv.words) +
    (if inv.stdin.Some? then " < \"" + inv.stdin.value + "\"" else "") +
    (if inv.stdout.Some? then " > \"" + inv.stdout.value + "\"" else "")
  }

  /** The exact text handed to the shell. */
  function Render(c: CommandLine): string {
    match c
    case Simple(inv) => RenderInvocation(inv)
    case AndThen(a, b) => RenderInvocation(a) + " && " + RenderInvocation(b)
  }
}
