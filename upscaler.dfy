/** `UpscalerService.upscale`: the enhancement command, how its exit code settles the call,
    and the name of the file it produces. */
module Upscaler {
  import opened Wrappers
  import opened Errors
  import opened Paths
  import opened Seqs
  import opened Helper

  const OutputSuffix := "_out"
  const TileSize := "256"
  /** The directory the upscaler's own `runCommands` uses whenever it is given one. */
  const EsrganWorkingDirectory := "C:\\Projects\\Real-ESRGAN"

  /** `${parsed.name}_out${parsed.ext}`. */
  function OutputFileName(fileName: string): string
  {
    var parsed := ParseFileName(fileName);
    parsed.name + OutputSuffix + parsed.ext
  }

  /** The suffix goes before the extension: parsing the output name gives back the input's
      extension, and its name followed by `_out`. The one exception is `..`, which has no
      extension while `.._out` has the extension `._out`. */
  lemma OutputFileNameParses(fileName: string)
    ensures fileName != ".." ==>
      ParseFileName(OutputFileName(fileName)) ==
      ParsedName(ParseFileName(fileName).name + OutputSuffix, ParseFileName(fileName).ext)
    ensures OutputFileName("..") == ".._out"
  {
    if fileName != ".." {
      if ParseFileName(fileName).ext != [] {
        OutputParsesWithExtension(fileName);
      } else {
        OutputParsesWithoutExtension(fileName);
      }
    }
  }

  lemma OutputParsesWithExtension(fileName: string)
    requires ParseFileName(fileName).ext != []
    ensures ParseFileName(OutputFileName(fileName)) ==
      ParsedName(ParseFileName(fileName).name + OutputSuffix, ParseFileName(fileName).ext)
  {
    var p := ParseFileName(fileName);
    var out := OutputFileName(fileName);
    assert out == p.name + OutputSuffix + p.ext;
    assert out != "..";
    var i := |p.name| + |OutputSuffix|;
    assert out[i] == '.';
    forall j | i < j < |out| ensures out[j] != '.' {
      assert out[j] == p.ext[1..][j - i - 1];
    }
    assert LastIndexOf(out, '.') == Some(i);
    assert out[..i] == p.name + OutputSuffix;
    assert out[i..] == p.ext;
  }

  lemma OutputParsesWithoutExtension(fileName: string)
    requires ParseFileName(fileName).ext == [] && fileName != ".."
    ensures ParseFileName(OutputFileName(fileName)) == ParsedName(fileName + OutputSuffix, [])
  {
    var out := OutputFileName(fileName);
    assert out == fileName + OutputSuffix;
    assert |out| != 2;
    forall j | 0 < j < |out| ensures out[j] != '.' {
      if j < |fileName| {
        assert out[j] == fileName[j];
      } else {
        assert out[j] == OutputSuffix[j - |fileName|];
      }
    }
  }

  /** The worked example of the naming rule. */
  lemma PhotoOutputName()
    ensures OutputFileName("photo.jpg") == "photo_out.jpg"
  {
    var p := ParseFileName("photo.jpg");
    assert "photo.jpg"[5] == '.';
    assert LastIndexOf("photo.jpg", '.') == Some(5);
    assert p == ParsedName("photo", ".jpg");
  }

  /** The python invocation of `upscale`. */
  function PythonCommand(cfg: Config, inputFilePath: string, outputDirectory: string): (r: string)
    ensures |r| >= 18 && r[..7] == "python " && r[|r| - 11..] == " --tile 256"
  {
    "python " + PathJoin(cfg.esrganPath, "inference_realesrgan.py") +
    " --input " + inputFilePath + " --output " + outputDirectory +
    " --model_path " + cfg.esrganModelFilePath + " --tile " + TileSize
  }

  /** The commands `upscale` runs: activate the environment, then run the enhancement. */
  function UpscaleCommands(cfg: Config, inputFilePath: string, outputDirectory: string): seq<string>
  {
    [ActivateCondaCommand(cfg), PythonCommand(cfg, inputFilePath, outputDirectory)]
  }

  /** The command line `upscale` hands to `cmd.exe`. */
  lemma UpscaleCommandLine(cfg: Config, inputFilePath: string, outputDirectory: string)
    ensures JoinCommands(UpscaleCommands(cfg, inputFilePath, outputDirectory)) ==
              ActivateCondaCommand(cfg) + " && " + PythonCommand(cfg, inputFilePath, outputDirectory)
  {
    JoinTwoCommands(ActivateCondaCommand(cfg), PythonCommand(cfg, inputFilePath, outputDirectory));
  }

  /** The `cwd` of the upscaler's `runCommands`: the fixed ESRGAN directory when a (truthy)
      working directory is passed, whatever its value; none otherwise. */
  function UpscalerCwd(workingDir: Option<string>): (r: Option<string>)
    ensures r.Some? <==> workingDir.Some? && workingDir.value != ""
    ensures r.Some? ==> r.value == EsrganWorkingDirectory
  {
    if workingDir.Some? && workingDir.value != "" then Some(EsrganWorkingDirectory) else None
  }

  /** How the upscaler's `runCommands` settles on `close`: it resolves exactly on exit code 0;
      any other code, null (`None`) included, rejects naming the command. */
  function SettleUpscale(commandString: string, code: Option<int>): (r: Result<(), Failure>)
    ensures r.Ok? <==> code == Some(0)
    ensures r.Err? ==> r.error == Error(CommandsFailedPrefix + commandString)
  {
    if code != Some(0) then Err(Error(CommandsFailedPrefix + commandString)) else Ok(())
  }

  /** What the upscaler's `runCommands(commands, workingDir)` hands to `spawn`: the joined
      command line and the `cwd` option. */
  datatype Spawn = Spawn(commandString: string, cwd: Option<string>)

  function RunSpawn(commands: seq<string>, workingDir: Option<string>): (r: Spawn)
    ensures r.commandString == JoinCommands(commands)
    ensures r.cwd == UpscalerCwd(workingDir)
  {
    Spawn(JoinCommands(commands), UpscalerCwd(workingDir))
  }

  /** The spawn of `upscale`, which calls `runCommands` without a working directory. */
  function UpscaleSpawn(cfg: Config, inputFilePath: string, outputDirectory: string): Spawn
  {
    RunSpawn(UpscaleCommands(cfg, inputFilePath, outputDirectory), None)
  }

  /** `upscale` spawns the two-command line without a working directory, whatever its
      arguments. */
  lemma UpscaleHasNoCwd(cfg: Config, inputFilePath: string, outputDirectory: string)
    ensures UpscaleSpawn(cfg, inputFilePath, outputDirectory).cwd == None
    ensures UpscaleSpawn(cfg, inputFilePath, outputDirectory).commandString ==
              ActivateCondaCommand(cfg) + " && " + PythonCommand(cfg, inputFilePath, outputDirectory)
  {
    UpscaleCommandLine(cfg, inputFilePath, outputDirectory);
  }

  /** `upscale(inputFilePath, outputDirectory, fileName)` when the enhancement process closes
      with `code`. */
  function Upscale(cfg: Config, inputFilePath: string, outputDirectory: string, fileName: string,
                   code: Option<int>): (r: Result<string, Failure>)
    ensures r.Ok? <==> code == Some(0)
    ensures r.Ok? ==> r.value == PathJoin(outputDirectory, OutputFileName(fileName))
  {
    match SettleUpscale(UpscaleSpawn(cfg, inputFilePath, outputDirectory).commandString, code)
    case Err(e) => Err(e)
    case Ok(_) => Ok(PathJoin(outputDirectory, OutputFileName(fileName)))
  }

  /** A failed enhancement rejects naming the whole command line. */
  lemma UpscaleFailure(cfg: Config, inputFilePath: string, outputDirectory: string, fileName: string,
                       code: Option<int>)
    requires code != Some(0)
    ensures Upscale(cfg, inputFilePath, outputDirectory, fileName, code) ==
      Err(Error(CommandsFailedPrefix + ActivateCondaCommand(cfg) + " && " +
                PythonCommand(cfg, inputFilePath, outputDirectory)))
  {
    var activate, python := ActivateCondaCommand(cfg), PythonCommand(cfg, inputFilePath, outputDirectory);
    var commandString := UpscaleSpawn(cfg, inputFilePath, outputDirectory).commandString;
    UpscaleHasNoCwd(cfg, inputFilePath, outputDirectory);
    assert SettleUpscale(commandString, code) == Err(Error(CommandsFailedPrefix + commandString));
    AppendAssoc(CommandsFailedPrefix, activate + " && ", python);
    AppendAssoc(CommandsFailedPrefix, activate, " && ");
  }

  /** The returned path depends on the output directory and the file name only: neither the
      input path, the configuration nor anything the tool prints changes it. */
  lemma UpscalePathIndependent(cfg1: Config, cfg2: Config, input1: string, input2: string,
                               outputDirectory: string, fileName: string)
    ensures Upscale(cfg1, input1, outputDirectory, fileName, Some(0)) ==
            Upscale(cfg2, input2, outputDirectory, fileName, Some(0))
  {
  }
}
