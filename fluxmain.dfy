/**
 * The Flux.1 [dev] DreamBooth script: verify the Flux base weights, then
 * train with the launcher helpers of the SDXL pipeline.
 */
module FluxMain {
  import opened Values
  import opened Documents
  import opened Launcher
  import opened ModelCheck
  import opened Stage

  /** The command-line arguments (all required). */
  datatype Args = Args(
    sessionName: string,
    trainingDataZip: string,
    outputDir: string,
    fluxConfig: string,
    clipL: string,
    t5xxl: string,
    ae: string)

  /** The Flux config document as loaded, and the names `tempfile` hands out. */
  datatype Inputs = Inputs(flux: Config, trainDataDir: string, tomlPath: string)

  /** `script_dir.joinpath("sd_scripts_flux", "flux_train.py")`. */
  function FluxTrainScript(cwd: string): string {
    Join(Join(cwd, "sd_scripts_flux"), "flux_train.py")
  }

  /** The base model `train_flux` trains from: the same file the Flux check looks at. */
  function BaseFluxModel(cwd: string): string {
    Join(FluxModelsDir(cwd), BASE_FLUX_DEV_MODEL_NAME)
  }

  /** The pairs `train_flux` appends after the translated config file. */
  function TrainOverrides(h: Host, args: Args, inp: Inputs): seq<(string, string)> {
    [("pretrained_model_name_or_path", BaseFluxModel(h.cwd)),
     ("train_data_dir", inp.trainDataDir),
     ("output_dir", args.outputDir),
     ("output_name", args.sessionName + "_flux_dreambooth"),
     ("clip_l", args.clipL),
     ("t5xxl", args.t5xxl),
     ("ae", args.ae)]
  }

  function TrainParts(accel: string, h: Host, args: Args, inp: Inputs): LaunchParts {
    LaunchParts(accel, Some(AccelerateYaml(h.cwd)), FluxTrainScript(h.cwd), inp.tomlPath,
                ValuedFlags(TrainOverrides(h, args, inp)))
  }

  /** What `train_flux` does: unpack the images; only with `accelerate` found, write the TOML and train. */
  function TrainEffects(h: Host, args: Args, inp: Inputs): seq<Effect> {
    var accel := GetExecutablePath(h.which, "accelerate");
    [ExtractZip(args.trainingDataZip, inp.trainDataDir)]
    + (if accel == "" then [] else [WriteToml(inp.tomlPath, Clean(inp.flux)), Run(LaunchArgv(TrainParts(accel, h, args, inp)))])
  }

  /** `train_flux(args)`. */
  method TrainFlux(h: Host, args: Args, inp: Inputs) returns (effects: seq<Effect>)
    ensures effects == TrainEffects(h, args, inp)
  {
    effects := [ExtractZip(args.trainingDataZip, inp.trainDataDir)];
    var accel := GetExecutablePath(h.which, "accelerate");
    if accel == "" {
      return;
    }
    effects := effects + [WriteToml(inp.tomlPath, Clean(inp.flux))];
    var argv := LaunchCommand(TrainParts(accel, h, args, inp));
    effects := effects + [Run(argv)];
  }

  /** The `__main__` block once `are_models_verified_flux` has answered `check`. */
  function AfterCheck(check: Verification, h: Host, args: Args, inp: Inputs): seq<Effect> {
    if check != Verified then [Exit(0)] else TrainEffects(h, args, inp)
  }

  /** The whole `__main__` block, with the check looking at the host's files. */
  function Pipeline(h: Host, args: Args, inp: Inputs): seq<Effect> {
    AfterCheck(AreModelsVerifiedFlux(h.fs, h.cwd), h, args, inp)
  }

  method MainFlux(h: Host, args: Args, inp: Inputs) returns (effects: seq<Effect>)
    ensures effects == Pipeline(h, args, inp)
  {
    var status := AreModelsVerifiedFlux(h.fs, h.cwd);
    if status != Verified {
      return [Exit(0)];
    }
    effects := TrainFlux(h, args, inp);
  }

  // ---------------------------------------------------------------------
  // What the script promises

  /** Every Flux weight file and its directory exist. */
  predicate FluxWeightsPresent(h: Host) {
    forall i :: 0 <= i < |FluxRequired(h.cwd)| ==> FluxRequired(h.cwd)[i] in h.fs
  }

  /** The run is the training stage exactly when the weights are present, and a bare exit otherwise. */
  lemma PipelineGate(h: Host, args: Args, inp: Inputs)
    ensures FluxWeightsPresent(h) ==> Pipeline(h, args, inp) == TrainEffects(h, args, inp)
    ensures !FluxWeightsPresent(h) ==> Pipeline(h, args, inp) == [Exit(0)]
  {
    FluxCheckIsFirstFailure(h.fs, h.cwd);
  }

  /**
   * Training is launched exactly when every Flux weight file exists and
   * `accelerate` is found, and then it is the only command.
   */
  lemma TrainsIffVerified(h: Host, args: Args, inp: Inputs)
    ensures var accel := GetExecutablePath(h.which, "accelerate");
            Runs(Pipeline(h, args, inp))
            == if FluxWeightsPresent(h) && accel != "" then [LaunchArgv(TrainParts(accel, h, args, inp))] else []
  {
    PipelineGate(h, args, inp);
    var accel := GetExecutablePath(h.which, "accelerate");
    var unzip := [ExtractZip(args.trainingDataZip, inp.trainDataDir)];
    assert Runs(unzip) == [];
    assert Runs([Exit(0)]) == [];
    if accel != "" {
      var tail := [WriteToml(inp.tomlPath, Clean(inp.flux)), Run(LaunchArgv(TrainParts(accel, h, args, inp)))];
      RunsAppend(unzip, tail);
      assert tail[1..] == [Run(LaunchArgv(TrainParts(accel, h, args, inp)))];
    } else {
      assert TrainEffects(h, args, inp) == unzip;
    }
  }

  /**
   * The base model training reads is the model file the check verified, and
   * the encoder and autoencoder paths reach the script exactly as given.
   */
  lemma TrainsOnVerifiedModel(h: Host, args: Args, inp: Inputs, accel: string, switches: set<string>)
    requires KeysNotSwitches(TrainOverrides(h, args, inp), switches)
    ensures var argv := LaunchArgv(TrainParts(accel, h, args, inp));
            && LaunchedSetting(argv, switches, "pretrained_model_name_or_path") == Some(FluxRequired(h.cwd)[1])
            && LaunchedSetting(argv, switches, "clip_l") == Some(args.clipL)
            && LaunchedSetting(argv, switches, "t5xxl") == Some(args.t5xxl)
            && LaunchedSetting(argv, switches, "ae") == Some(args.ae)
            && LaunchedSetting(argv, switches, "output_name") == Some(args.sessionName + "_flux_dreambooth")
    ensures FluxWeightsPresent(h) ==> FluxRequired(h.cwd)[1] in h.fs
  {
    var ps := TrainOverrides(h, args, inp);
    var p := TrainParts(accel, h, args, inp);
    LaunchedReadsOverrides(p, ps, switches, 0);
    LaunchedReadsOverrides(p, ps, switches, 3);
    LaunchedReadsOverrides(p, ps, switches, 4);
    LaunchedReadsOverrides(p, ps, switches, 5);
    LaunchedReadsOverrides(p, ps, switches, 6);
  }
}
