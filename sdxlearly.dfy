/**
 * The earlier SDXL script: DreamBooth training, then LoRA extraction into
 * fixed file names under the output directory, with no model check, no
 * merge and no upload.
 */
module SdxlEarly {
  import opened Values
  import opened Documents
  import opened Launcher
  import opened ModelCheck
  import opened Stage

  /** The command-line arguments (all required). */
  datatype Args = Args(jsonConfig: string, trainDataZip: string, outputDir: string, xloraConfig: string)

  /** The two JSON documents as loaded, and the names `tempfile` hands out. */
  datatype Inputs = Inputs(dream: Config, xlora: Config, trainDataDir: string, tomlPath: string)

  /** The pairs `train_sdxl` appends after the translated config file: no output name here. */
  function TrainOverrides(args: Args, inp: Inputs): seq<(string, string)> {
    [("train_data_dir", inp.trainDataDir), ("output_dir", args.outputDir)]
  }

  /** The training command line, without a launcher config file. */
  function TrainParts(accel: string, h: Host, args: Args, inp: Inputs): LaunchParts {
    LaunchParts(accel, None, SdxlTrainScript(h.cwd), inp.tomlPath, ValuedFlags(TrainOverrides(args, inp)))
  }

  /** What `train_sdxl` does: unpack the images; only with `accelerate` found, write the TOML and train. */
  function TrainEffects(h: Host, args: Args, inp: Inputs): seq<Effect> {
    var accel := GetExecutablePath(h.which, "accelerate");
    [ExtractZip(args.trainDataZip, inp.trainDataDir)]
    + (if accel == "" then [] else [WriteToml(inp.tomlPath, Clean(inp.dream)), Run(LaunchArgv(TrainParts(accel, h, args, inp)))])
  }

  /** `train_sdxl(args)`. */
  method TrainSdxl(h: Host, args: Args, inp: Inputs) returns (effects: seq<Effect>)
    ensures effects == TrainEffects(h, args, inp)
  {
    effects := [ExtractZip(args.trainDataZip, inp.trainDataDir)];
    var accel := GetExecutablePath(h.which, "accelerate");
    if accel == "" {
      return;
    }
    effects := effects + [WriteToml(inp.tomlPath, Clean(inp.dream))];
    var argv := LaunchCommand(TrainParts(accel, h, args, inp));
    effects := effects + [Run(argv)];
  }

  /** The paths `extract_lora` passes itself: the base model and two fixed names in the output directory. */
  function ExtractFixed(h: Host, args: Args): seq<(string, string)> {
    [("model_org", Join(ModelsDir(h.cwd), BASE_SDXL_MODEL_NAME)),
     ("model_tuned", Join(args.outputDir, "dreambooth.safetensors")),
     ("save_to", Join(args.outputDir, "xlora.safetensors"))]
  }

  /** The extraction paths have distinct reserved keys, none of them a switch of the script. */
  lemma ExtractFixedKeys(h: Host, args: Args, switches: set<string>)
    requires EXTRACT_RESERVED !! switches
    ensures var xs := ExtractFixed(h, args);
            && PairKeysDistinct(xs) && KeysNotSwitches(xs, switches)
            && forall i :: 0 <= i < |xs| ==> xs[i].0 in EXTRACT_RESERVED
  {
  }

  function ExtractArgv(h: Host, args: Args, inp: Inputs): seq<string> {
    [h.python, ExtractScript(h.cwd)] + ValuedFlags(ExtractFixed(h, args))
    + ConfigFlags(Clean(inp.xlora), EXTRACT_RESERVED)
  }

  /** `extract_lora(args)`. */
  method ExtractLora(h: Host, args: Args, inp: Inputs) returns (effects: seq<Effect>)
    ensures effects == [Run(ExtractArgv(h, args, inp))]
  {
    var argv := ScriptCommand(h.python, ExtractScript(h.cwd), ExtractFixed(h, args), Clean(inp.xlora), EXTRACT_RESERVED);
    effects := [Run(argv)];
  }

  /** The `__main__` block: training, then extraction, unconditionally. */
  function Pipeline(h: Host, args: Args, inp: Inputs): seq<Effect> {
    TrainEffects(h, args, inp) + [Run(ExtractArgv(h, args, inp))]
  }

  method RunScript(h: Host, args: Args, inp: Inputs) returns (effects: seq<Effect>)
    ensures effects == Pipeline(h, args, inp)
  {
    var train := TrainSdxl(h, args, inp);
    var extract := ExtractLora(h, args, inp);
    effects := train + extract;
  }

  // ---------------------------------------------------------------------
  // What the script promises

  /** Training launches its one command exactly when `accelerate` is found. */
  lemma TrainRuns(h: Host, args: Args, inp: Inputs)
    ensures var accel := GetExecutablePath(h.which, "accelerate");
            Runs(TrainEffects(h, args, inp)) == if accel == "" then [] else [LaunchArgv(TrainParts(accel, h, args, inp))]
  {
    var accel := GetExecutablePath(h.which, "accelerate");
    var unzip := [ExtractZip(args.trainDataZip, inp.trainDataDir)];
    assert Runs(unzip) == [];
    if accel != "" {
      var argv := LaunchArgv(TrainParts(accel, h, args, inp));
      var tail := [WriteToml(inp.tomlPath, Clean(inp.dream)), Run(argv)];
      RunsAppend(unzip, tail);
      assert tail[1..] == [Run(argv)];
      assert Runs(tail) == [argv];
    } else {
      assert TrainEffects(h, args, inp) == unzip;
    }
  }

  /**
   * Training launches only when `accelerate` is found, and extraction is
   * launched last in every case: nothing checks that training succeeded.
   */
  lemma StagesRun(h: Host, args: Args, inp: Inputs)
    ensures var accel := GetExecutablePath(h.which, "accelerate");
            Runs(Pipeline(h, args, inp))
            == (if accel == "" then [] else [LaunchArgv(TrainParts(accel, h, args, inp))])
               + [ExtractArgv(h, args, inp)]
  {
    var extract := ExtractArgv(h, args, inp);
    RunsAppend(TrainEffects(h, args, inp), [Run(extract)]);
    assert Runs([Run(extract)]) == [extract];
    TrainRuns(h, args, inp);
  }

  /**
   * The training command names no launcher config file and no output name:
   * read back, its launcher config is absent and its script ends up with the
   * output directory from the arguments.
   */
  lemma TrainCommandShape(h: Host, args: Args, inp: Inputs, accel: string, switches: set<string>)
    requires "train_data_dir" !in switches && "output_dir" !in switches
    ensures SplitLaunchArgv(LaunchArgv(TrainParts(accel, h, args, inp))) == Some(TrainParts(accel, h, args, inp))
    ensures TrainParts(accel, h, args, inp).launcherConfig.None?
    ensures LaunchedSetting(LaunchArgv(TrainParts(accel, h, args, inp)), switches, "output_dir") == Some(args.outputDir)
  {
    var p := TrainParts(accel, h, args, inp);
    LaunchArgvRoundTrip(p);
    LaunchedReadsOverrides(p, TrainOverrides(args, inp), switches, 1);
  }

  /**
   * Extraction reads the trained model from the directory training wrote to,
   * and keeps its three paths whatever the extraction config says.
   */
  lemma ExtractReadsTrainOutput(h: Host, args: Args, inp: Inputs, accel: string,
                                trainSwitches: set<string>, extractSwitches: set<string>)
    requires "train_data_dir" !in trainSwitches && "output_dir" !in trainSwitches
    requires EXTRACT_RESERVED !! extractSwitches && SwitchesMatch(Clean(inp.xlora), EXTRACT_RESERVED, extractSwitches)
    ensures var dir := LaunchedSetting(LaunchArgv(TrainParts(accel, h, args, inp)), trainSwitches, "output_dir");
            dir.Some?
            && ScriptSetting(ExtractArgv(h, args, inp), extractSwitches, "model_tuned")
               == Some(Join(dir.value, "dreambooth.safetensors"))
    ensures ScriptSetting(ExtractArgv(h, args, inp), extractSwitches, "model_org")
         == Some(Join(ModelsDir(h.cwd), BASE_SDXL_MODEL_NAME))
    ensures ScriptSetting(ExtractArgv(h, args, inp), extractSwitches, "save_to")
         == Some(Join(args.outputDir, "xlora.safetensors"))
  {
    TrainCommandShape(h, args, inp, accel, trainSwitches);
    var xs := ExtractFixed(h, args);
    ExtractFixedKeys(h, args, extractSwitches);
    ScriptReadsFixed(h.python, ExtractScript(h.cwd), xs, Clean(inp.xlora), EXTRACT_RESERVED, extractSwitches, 0);
    ScriptReadsFixed(h.python, ExtractScript(h.cwd), xs, Clean(inp.xlora), EXTRACT_RESERVED, extractSwitches, 1);
    ScriptReadsFixed(h.python, ExtractScript(h.cwd), xs, Clean(inp.xlora), EXTRACT_RESERVED, extractSwitches, 2);
  }
}
