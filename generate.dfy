/** The file materialisers: generatefile.js writes submitted source under the
    codes directory, generateInputFile.js writes stdin text under the inputs
    directory. Each call draws a fresh v4 UUID, given here as a parameter. */
module Generate {
  import opened Js
  import opened Paths
  import opened FileStore

  /** The languages both routes dispatch on (server/index.js:210-226, 410-426). */
  const Languages: set<string> := {"cpp", "c", "java", "python"}

  predicate IsLowerHex(c: char) {
    '0' <= c <= '9' || 'a' <= c <= 'f'
  }

  /** The character the v4 UUID text allows at index `i`: a dash at 8, 13,
      18 and 23, the version digit 4 at 14, the variant (8, 9, a or b) at 19,
      and a lower-case hex digit elsewhere. */
  predicate UuidCharAt(i: int, c: char) {
    if i == 8 || i == 13 || i == 18 || i == 23 then c == '-'
    else if i == 14 then c == '4'
    else if i == 19 then c in {'8', '9', 'a', 'b'}
    else IsLowerHex(c)
  }

  /** Every character of `s` from index `i` on is the one allowed there. */
  predicate UuidFrom(s: string, i: nat)
    decreases |s| - i
  {
    i >= |s| || (UuidCharAt(i, s[i]) && UuidFrom(s, i + 1))
  }

  /** The text `uuid()` (v4) returns: xxxxxxxx-xxxx-4xxx-yxxx-xxxxxxxxxxxx with
      lower-case hex digits and y one of 8, 9, a, b. */
  predicate IsUuid(s: string) {
    |s| == 36 && UuidFrom(s, 0)
  }

  lemma {:induction false} UuidFromPlain(s: string, i: nat)
    requires UuidFrom(s, i)
    ensures forall k :: i <= k < |s| ==> s[k] != '.' && s[k] != '/'
    decreases |s| - i
  {
    if i < |s| {
      UuidFromPlain(s, i + 1);
    }
  }

  /** A UUID names a file without a separator or an extension of its own. */
  lemma UuidIsPlainName(id: string)
    requires IsUuid(id)
    ensures id != "" && '.' !in id && '/' !in id
  {
    UuidFromPlain(id, 0);
  }

  /** The extension table of generatefile.js:19-26; any other language looks up
      `undefined`. */
  function Extension(language: string): (r: Option<string>)
    ensures r.Some? <==> language in Languages
  {
    if language == "cpp" then Some("cpp")
    else if language == "c" then Some("c")
    else if language == "python" then Some("py")
    else if language == "java" then Some("java")
    else None
  }

  /** `${jobId}.${file_extension}` */
  function CodeFileName(id: string, language: string): string {
    id + "." + Interpolate(Extension(language))
  }

  function CodeFilePath(id: string, language: string): Path {
    Join(CodesDir, CodeFileName(id, language))
  }

  /** `${jobId}.txt` under the inputs directory. */
  function InputFilePath(id: string): Path {
    Join(InputsDir, id + ".txt")
  }

  /** generateFile(language, code): writes `code` to `codes/<uuid>.<ext>` and
      returns that path; the write's exception propagates. */
  method GenerateFile(fs: FileSystem, language: string, code: string, id: string) returns (r: Result<Path, FsError>)
    requires IsUuid(id)
    modifies fs
    ensures r.Ok? <==> WriteError(old(fs.dirs), CodeFilePath(id, language), Some(code)).None?
    ensures r.Ok? ==> r.value == CodeFilePath(id, language) && fs.files == old(fs.files)[r.value := code]
    ensures r.Err? ==> r.error == WriteError(old(fs.dirs), CodeFilePath(id, language), Some(code)).value
    ensures r.Err? ==> fs.files == old(fs.files)
    ensures fs.dirs == old(fs.dirs)
  {
    var filePath := CodeFilePath(id, language);
    var err := fs.WriteFileSync(filePath, Some(code));
    if err.Some? {
      return Err(err.value);
    }
    return Ok(filePath);
  }

  /** generateInputFile(input): writes `input` to `inputs/<uuid>.txt` and returns
      that path. An absent `input` makes the write throw. */
  method GenerateInputFile(fs: FileSystem, input: Option<string>, id: string) returns (r: Result<Path, FsError>)
    requires IsUuid(id)
    modifies fs
    ensures r.Ok? <==> WriteError(old(fs.dirs), InputFilePath(id), input).None?
    ensures r.Ok? ==> r.value == InputFilePath(id) && fs.files == old(fs.files)[r.value := input.value]
    ensures r.Err? ==> r.error == WriteError(old(fs.dirs), InputFilePath(id), input).value
    ensures r.Err? ==> fs.files == old(fs.files)
    ensures fs.dirs == old(fs.dirs)
  {
    var inputFilePath := InputFilePath(id);
    var err := fs.WriteFileSync(inputFilePath, input);
    if err.Some? {
      return Err(err.value);
    }
    return Ok(inputFilePath);
  }

  /** The job id derived at server/index.js:284 and 506 is the UUID the file was
      named after, for every language, including an unsupported one. */
  lemma JobIdOfCodeFile(id: string, language: string)
    requires IsUuid(id)
    ensures JobId(CodeFilePath(id, language)) == id
    ensures Dirname(CodeFilePath(id, language)) == CodesDir
  {
    UuidIsPlainName(id);
    var ext := Interpolate(Extension(language));
    assert '/' !in ext;
    JobIdOfJoin(CodesDir, id, ext);
    assert '/' !in CodeFileName(id, language) by {
      var name := CodeFileName(id, language);
      forall k | 0 <= k < |name| ensures name[k] != '/' {
        if k < |id| { assert name[k] == id[k]; }
        else if k > |id| { assert name[k] == ext[k - |id| - 1]; }
      }
    }
    DirnameOfJoin(CodesDir, CodeFileName(id, language));
  }

  /** Fresh UUIDs give distinct source paths, whatever the two languages. */
  lemma CodeFilePathsDistinct(id1: string, language1: string, id2: string, language2: string)
    requires IsUuid(id1) && IsUuid(id2) && id1 != id2
    ensures CodeFilePath(id1, language1) != CodeFilePath(id2, language2)
  {
    JobIdOfCodeFile(id1, language1);
    JobIdOfCodeFile(id2, language2);
  }

  /** The inputs directory is never a source path's directory, so an input file
      can never overwrite a source file, whichever UUIDs are drawn. */
  lemma InputNeverSourceFile(inputId: string, codeId: string, language: string)
    requires IsUuid(inputId) && IsUuid(codeId)
    ensures InputFilePath(inputId) != CodeFilePath(codeId, language)
    ensures Dirname(InputFilePath(inputId)) == InputsDir
  {
    UuidIsPlainName(inputId);
    var name := inputId + ".txt";
    assert '/' !in name by {
      forall k | 0 <= k < |name| ensures name[k] != '/' {
        if k < |inputId| { assert name[k] == inputId[k]; }
      }
    }
    DirnameOfJoin(InputsDir, name);
    JobIdOfCodeFile(codeId, language);
  }

  /** Fresh UUIDs give distinct input paths. */
  lemma InputFilePathsDistinct(id1: string, id2: string)
    requires IsUuid(id1) && IsUuid(id2) && id1 != id2
    ensures InputFilePath(id1) != InputFilePath(id2)
  {
    UuidIsPlainName(id1);
    UuidIsPlainName(id2);
    assert id1 + "." + "txt" == id1 + ".txt" && id2 + "." + "txt" == id2 + ".txt";
    JobIdOfJoin(InputsDir, id1, "txt");
    JobIdOfJoin(InputsDir, id2, "txt");
  }
}
