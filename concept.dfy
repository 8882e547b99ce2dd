/**
 * The first concept script: one DreamBooth launch with a fixed TOML config
 * next to the script and the command-line values passed through as text.
 */
module Concept {
  import opened Values
  import opened Launcher
  import opened Stage

  /** The model trained when `--pretrained_model_name_or_path` is not given. */
  const DEFAULT_PRETRAINED := "stabilityai/stable-diffusion-xl-base-1.0"

  /** The flags as given on the command line; `None` when a flag is left out. */
  datatype Args = Args(
    outputDir: Option<string>,
    trainDataZip: Option<string>,
    maxTrainEpochs: Option<string>,
    pretrained: Option<string>)

  /** An f-string of an argparse value: a missing value without a default is `None`. */
  function FormatArg(v: Option<string>): (r: string)
    ensures v.Some? ==> r == v.value
    ensures v.None? ==> r == "None"
  {
    match v
    case None => "None"
    case Some(s) => s
  }

  /** The pretrained model after argparse applies its default. */
  function Pretrained(args: Args): string {
    match args.pretrained
    case None => DEFAULT_PRETRAINED
    case Some(p) => p
  }

  /** The pairs `train_sdxl` appends after the fixed TOML file. */
  function TrainOverrides(args: Args): seq<(string, string)> {
    [("pretrained_model_name_or_path", Pretrained(args)),
     ("train_data_zip", FormatArg(args.trainDataZip)),
     ("max_train_epochs", FormatArg(args.maxTrainEpochs)),
     ("output_dir", FormatArg(args.outputDir))]
  }

  /**
   * The command line: no launcher config file, the training script and the
   * TOML config beside this script (joined with a literal "/").
   */
  function TrainParts(accel: string, scriptDir: string, args: Args): LaunchParts {
    LaunchParts(accel, None, scriptDir + "/sd_scripts/sdxl_train.py", scriptDir + "/config_dreambooth.toml",
                ValuedFlags(TrainOverrides(args)))
  }

  /**
   * `train_sdxl(args)`: nothing at all when `accelerate` is not found;
   * otherwise one launch. Here `execute_cmd` streams the output until the
   * process exits and kills nothing.
   */
  method TrainSdxl(h: Host, scriptDir: string, args: Args) returns (effects: seq<Effect>)
    ensures var accel := GetExecutablePath(h.which, "accelerate");
            effects == if accel == "" then [] else [Run(LaunchArgv(TrainParts(accel, scriptDir, args)))]
  {
    var accel := GetExecutablePath(h.which, "accelerate");
    if accel == "" {
      return [];
    }
    var argv := LaunchCommand(TrainParts(accel, scriptDir, args));
    effects := [Run(argv)];
  }

  /**
   * The training script ends up with the pretrained model (the default one
   * when the flag is left out) and with every other value as its text,
   * `None` for a flag left out.
   */
  lemma ScriptReadsArguments(accel: string, scriptDir: string, args: Args, switches: set<string>)
    requires KeysNotSwitches(TrainOverrides(args), switches)
    ensures var argv := LaunchArgv(TrainParts(accel, scriptDir, args));
            && LaunchedSetting(argv, switches, "pretrained_model_name_or_path")
               == Some(if args.pretrained.None? then DEFAULT_PRETRAINED else args.pretrained.value)
            && LaunchedSetting(argv, switches, "max_train_epochs")
               == Some(if args.maxTrainEpochs.None? then "None" else args.maxTrainEpochs.value)
            && LaunchedSetting(argv, switches, "train_data_zip") == Some(FormatArg(args.trainDataZip))
            && LaunchedSetting(argv, switches, "output_dir") == Some(FormatArg(args.outputDir))
  {
    var p := TrainParts(accel, scriptDir, args);
    var ps := TrainOverrides(args);
    LaunchedReadsOverrides(p, ps, switches, 0);
    LaunchedReadsOverrides(p, ps, switches, 1);
    LaunchedReadsOverrides(p, ps, switches, 2);
    LaunchedReadsOverrides(p, ps, switches, 3);
  }

  /** The command has exactly the launcher, "launch", the twelve flags, the script, the config file and four valued flags. */
  lemma CommandLength(accel: string, scriptDir: string, args: Args)
    ensures |LaunchArgv(TrainParts(accel, scriptDir, args))| == 2 + 12 + 3 + 8
    ensures LaunchArgv(TrainParts(accel, scriptDir, args))[2..14] == LAUNCH_FLAGS
  {
  }
}
