/** The shared service helpers: command joining and the accumulate-and-settle logic of
    `runCommands`, the request-file flattening, random names and dot stripping. */
module Helper {
  import opened Wrappers
  import opened Errors
  import opened Seqs
  import opened JsStrings
  import opened Paths

  /** The process environment the commands are built from. */
  datatype Config = Config(
    minicondaPath: string,
    minicondaEnvironment: string,
    esrganPath: string,
    esrganModelFilePath: string)

  /** `getActivateCondaCommand()`. */
  function ActivateCondaCommand(cfg: Config): (r: string)
    ensures |r| >= |cfg.minicondaEnvironment| + 10
    ensures r[|r| - |cfg.minicondaEnvironment| - 10..] == " activate " + cfg.minicondaEnvironment
  {
    PathJoin(PathJoin(cfg.minicondaPath, "condabin"), "conda.bat") + " activate " + cfg.minicondaEnvironment
  }

  const CommandSeparator := " && "

  /** The single command line handed to `cmd.exe /c`. */
  function JoinCommands(commands: seq<string>): string
  {
    Join(commands, CommandSeparator)
  }

  /** Two commands are run as the first, the separator, then the second. */
  lemma JoinTwoCommands(first: string, second: string)
    ensures JoinCommands([first, second]) == first + " && " + second
  {
    assert [first, second][1..] == [second];
    assert Join([second], CommandSeparator) == second;
  }

  /** The `cwd` spawn option of `runCommands`: only a non-empty (truthy) directory is used. */
  function SpawnCwd(workingDir: Option<string>): (r: Option<string>)
    ensures r.Some? <==> workingDir.Some? && workingDir.value != ""
    ensures r.Some? ==> r == workingDir
  {
    if workingDir.Some? && workingDir.value != "" then workingDir else None
  }

  const CommandsFailedPrefix := "Commands failed: "

  /** How the promise of `runCommands` settles on `close`: it resolves with the standard output
      exactly when the exit code is 0, and otherwise rejects with the command and the standard
      error. A null code (the process was killed by a signal) is `None`. */
  function CloseOutcome(commandString: string, output: string, error: string, code: Option<int>)
    : (r: Result<string, Failure>)
    ensures r.Ok? <==> code == Some(0)
    ensures r.Ok? ==> r.value == output
    ensures r.Err? ==> r.error == Error(CommandsFailedPrefix + commandString + ": " + error)
  {
    if code != Some(0) then Err(Error(CommandsFailedPrefix + commandString + ": " + error))
    else Ok(output)
  }

  /** What a finished child process produced: its output chunks in arrival order and its exit
      code (`None` for a null code). */
  datatype ProcessRun = ProcessRun(stdout: seq<string>, stderr: seq<string>, code: Option<int>)

  /** What `runCommands(commands)` settles to once the child process has written the given
      standard-output and standard-error chunks and closed with `code`. */
  function RunCommands(commands: seq<string>, stdout: seq<string>, stderr: seq<string>, code: Option<int>)
    : Result<string, Failure>
  {
    CloseOutcome(JoinCommands(commands), Flatten(stdout), Flatten(stderr), code)
  }

  /** The resolved value is every standard-output chunk, in arrival order; the rejection
      names the joined command and carries every standard-error chunk. */
  lemma RunCommandsOutcome(commands: seq<string>, stdout: seq<string>, stderr: seq<string>, code: Option<int>)
    ensures RunCommands(commands, stdout, stderr, code).Ok? <==> code == Some(0)
    ensures code == Some(0) ==> |RunCommands(commands, stdout, stderr, code).value| == SumLengths(stdout)
    ensures code != Some(0) ==>
      RunCommands(commands, stdout, stderr, code).error ==
        Error(CommandsFailedPrefix + Join(commands, " && ") + ": " + Flatten(stderr))
  {
    FlattenLength(stdout);
  }

  /** One `runCommands` call: the child process's accumulated output and error text, and the
      state of its promise. */
  class CommandRun {
    const commandString: string
    const cwd: Option<string>
    var output: string
    var error: string
    var settled: Option<Result<string, Failure>>
    ghost var stdoutChunks: seq<string>
    ghost var stderrChunks: seq<string>

    /** The two accumulators hold every chunk received so far, in arrival order. */
    ghost predicate Valid()
      reads this
    {
      output == Flatten(stdoutChunks) && error == Flatten(stderrChunks)
    }

    constructor (commands: seq<string>, workingDir: Option<string>)
      ensures Valid()
      ensures commandString == JoinCommands(commands) && cwd == SpawnCwd(workingDir)
      ensures stdoutChunks == [] && stderrChunks == [] && settled == None
    {
      commandString := JoinCommands(commands);
      cwd := SpawnCwd(workingDir);
      output, error := "", "";
      settled := None;
      stdoutChunks, stderrChunks := [], [];
    }

    /** The `data` handler of the child's standard output. */
    method OnStdout(chunk: string)
      requires Valid()
      modifies this`output, this`stdoutChunks
      ensures Valid()
      ensures stdoutChunks == old(stdoutChunks) + [chunk] && output == old(output) + chunk
    {
      FlattenSnoc(stdoutChunks, chunk);
      output := output + chunk;
      stdoutChunks := stdoutChunks + [chunk];
    }

    /** The `data` handler of the child's standard error. */
    method OnStderr(chunk: string)
      requires Valid()
      modifies this`error, this`stderrChunks
      ensures Valid()
      ensures stderrChunks == old(stderrChunks) + [chunk] && error == old(error) + chunk
    {
      FlattenSnoc(stderrChunks, chunk);
      error := error + chunk;
      stderrChunks := stderrChunks + [chunk];
    }

    /** The `close` handler: settles the promise; settling an already settled promise has no
        effect. */
    method OnClose(code: Option<int>)
      requires Valid()
      modifies this`settled
      ensures Valid()
      ensures old(settled).None? ==> settled == Some(CloseOutcome(commandString, Flatten(stdoutChunks), Flatten(stderrChunks), code))
      ensures old(settled).Some? ==> settled == old(settled)
    {
      if settled.None? {
        settled := Some(CloseOutcome(commandString, output, error, code));
      }
    }
  }

  /** Drives one `runCommands` call to its end: the process writes `stdout` and `stderr` chunk
      by chunk and then closes with `code`; the promise settles to `RunCommands`. */
  method RunToClose(commands: seq<string>, workingDir: Option<string>,
                    stdout: seq<string>, stderr: seq<string>, code: Option<int>)
    returns (r: Result<string, Failure>)
    ensures r == RunCommands(commands, stdout, stderr, code)
  {
    var run := new CommandRun(commands, workingDir);
    for k := 0 to |stdout|
      invariant run.Valid() && run.settled == None
      invariant run.stdoutChunks == stdout[..k] && run.stderrChunks == []
    {
      assert stdout[..k + 1] == stdout[..k] + [stdout[k]];
      run.OnStdout(stdout[k]);
    }
    for k := 0 to |stderr|
      invariant run.Valid() && run.settled == None
      invariant run.stdoutChunks == stdout && run.stderrChunks == stderr[..k]
    {
      assert stderr[..k + 1] == stderr[..k] + [stderr[k]];
      run.OnStderr(stderr[k]);
    }
    assert stdout[..|stdout|] == stdout && stderr[..|stderr|] == stderr;
    run.OnClose(code);
    r := run.settled.value;
  }

  /** `removeEndingDot(str)`. */
  function RemoveEndingDot(s: string): (r: string)
    ensures EndsWith(s, ".") ==> r == s[..|s| - 1]
    ensures !EndsWith(s, ".") ==> r == s
    ensures r <= s && |s| - |r| <= 1
  {
    if |s| > 0 && s[|s| - 1] == '.' then s[..|s| - 1] else s
  }

  /** Only one dot goes per call: stripping is not idempotent. */
  lemma RemoveEndingDotNotIdempotent()
    ensures RemoveEndingDot("a..") == "a."
    ensures RemoveEndingDot(RemoveEndingDot("a..")) == "a"
  {
    assert EndsWith("a..", ".");
    assert EndsWith("a.", ".");
  }

  /** An uploaded file as multer describes it. */
  datatype UploadedFile = UploadedFile(originalname: string, filename: string, path: string)

  /** `req.files`: either a plain array, or a map from form field to the files sent in it
      (kept as the pairs in the map's own order). */
  datatype RequestFiles =
    | FileArray(files: seq<UploadedFile>)
    | FieldMap(fields: seq<(string, seq<UploadedFile>)>)

  /** `Object.values(fields)`. */
  function FieldValues(fields: seq<(string, seq<UploadedFile>)>): (r: seq<seq<UploadedFile>>)
    ensures |r| == |fields| && forall i :: 0 <= i < |fields| ==> r[i] == fields[i].1
  {
    seq(|fields|, i requires 0 <= i < |fields| => fields[i].1)
  }

  /** `getImagesFromRequest(req)`. */
  function GetImagesFromRequest(files: Option<RequestFiles>): (r: seq<UploadedFile>)
    ensures files.None? ==> r == []
    ensures files.Some? && files.value.FileArray? ==> r == files.value.files
  {
    match files
    case None => []
    case Some(FileArray(fs)) => fs
    case Some(FieldMap(fields)) => Flatten(FieldValues(fields))
  }

  /** For a field map, the result holds exactly the files of all fields, field after field. */
  lemma GetImagesFromFieldMap(fields: seq<(string, seq<UploadedFile>)>)
    ensures |GetImagesFromRequest(Some(FieldMap(fields)))| == SumLengths(FieldValues(fields))
    ensures multiset(GetImagesFromRequest(Some(FieldMap(fields)))) == MultisetOfAll(FieldValues(fields))
    ensures |fields| > 0 ==>
      GetImagesFromRequest(Some(FieldMap(fields))) ==
        fields[0].1 + GetImagesFromRequest(Some(FieldMap(fields[1..])))
  {
    FlattenLength(FieldValues(fields));
    FlattenMultiset(FieldValues(fields));
    if |fields| > 0 {
      assert FieldValues(fields)[1..] == FieldValues(fields[1..]);
    }
  }

  const Charset := "abcdefghijklmnopqrstuvwxyzABCDEFGHIJKLMNOPQRSTUVWXYZ0123456789"

  /** `generateRandomString(length)`; `draws` are the successive values of
      `Math.floor(Math.random() * charset.length)`. */
  method GenerateRandomString(length: nat, draws: seq<nat>) returns (r: string)
    requires |draws| >= length
    requires forall i :: 0 <= i < |draws| ==> draws[i] < |Charset|
    ensures |r| == length
    ensures forall i :: 0 <= i < length ==> r[i] == Charset[draws[i]]
    ensures forall i :: 0 <= i < |r| ==> r[i] in Charset
  {
    r := "";
    for i := 0 to length
      invariant |r| == i
      invariant forall k :: 0 <= k < i ==> r[k] == Charset[draws[k]]
    {
      r := r + [Charset[draws[i]]];
    }
  }
}
