/**
 * The SDXL pipeline script: verify the base models, DreamBooth-train on the
 * extracted training images, extract a LoRA from the trained weights, merge
 * it into the fine-tuned base model, and optionally upload the result.
 */
module SdxlMain {
  import opened Values
  import opened Documents
  import opened Launcher
  import opened ModelCheck
  import opened Stage
  import opened Publisher

  /** The command-line arguments (all but `--upload` are required). */
  datatype Args = Args(
    sessionName: string,
    dreamConfig: string,
    trainDataZip: string,
    outputDir: string,
    xloraConfig: string,
    mloraConfig: string,
    upload: Option<string>)

  /**
   * What the run takes from outside the program: the three JSON documents as
   * loaded, and the names `tempfile` hands out (the output directory made at
   * start-up, the training-data directory and the TOML file).
   */
  datatype Inputs = Inputs(
    dream: Config,
    xlora: Config,
    mlora: Config,
    tempOutputDir: string,
    trainDataDir: string,
    tomlPath: string)

  /** Where training leaves its weights: `<output_dir>/<output_name>.safetensors`. */
  function DreamboothPath(tmp: string, session: string): string {
    Join(tmp, session + "_dreambooth.safetensors")
  }

  /** The trained weights are the file training names `<output_name>.safetensors` in its output directory. */
  lemma DreamboothPathIsOutput(tmp: string, session: string)
    ensures Join(tmp, (session + "_dreambooth") + ".safetensors") == DreamboothPath(tmp, session)
  {
    assert (session + "_dreambooth") + ".safetensors" == session + "_dreambooth.safetensors";
  }

  function XloraPath(tmp: string, session: string): string {
    Join(tmp, session + "_xlora.safetensors")
  }

  function FinalPath(outputDir: string, session: string): string {
    Join(outputDir, session + "_final.safetensors")
  }

  /** The pairs `train_sdxl` appends after the translated config file. */
  function TrainOverrides(h: Host, args: Args, inp: Inputs): seq<(string, string)> {
    [("train_data_dir", inp.trainDataDir),
     ("pretrained_model_name_or_path", Join(ModelsDir(h.cwd), BASE_SDXL_MODEL_NAME)),
     ("output_dir", inp.tempOutputDir),
     ("output_name", args.sessionName + "_dreambooth")]
  }

  /** The training command line, with the launcher's own config file. */
  function TrainArgv(accel: string, h: Host, args: Args, inp: Inputs): seq<string> {
    LaunchArgv(LaunchParts(accel, Some(AccelerateYaml(h.cwd)), SdxlTrainScript(h.cwd), inp.tomlPath,
                           ValuedFlags(TrainOverrides(h, args, inp))))
  }

  /**
   * What `train_sdxl` does: unpack the training images, then, only when
   * `accelerate` is found, write the cleaned config as TOML and run training.
   */
  function TrainEffects(h: Host, args: Args, inp: Inputs): seq<Effect> {
    var accel := GetExecutablePath(h.which, "accelerate");
    [ExtractZip(args.trainDataZip, inp.trainDataDir)]
    + (if accel == "" then [] else [WriteToml(inp.tomlPath, Clean(inp.dream)), Run(TrainArgv(accel, h, args, inp))])
  }

  /** `train_sdxl(args)`. */
  method TrainSdxl(h: Host, args: Args, inp: Inputs) returns (effects: seq<Effect>)
    ensures effects == TrainEffects(h, args, inp)
  {
    effects := [ExtractZip(args.trainDataZip, inp.trainDataDir)];
    var accel := GetExecutablePath(h.which, "accelerate");
    if accel == "" {
      return;
    }
    var parts := LaunchParts(accel, Some(AccelerateYaml(h.cwd)), SdxlTrainScript(h.cwd), inp.tomlPath,
                             ValuedFlags(TrainOverrides(h, args, inp)));
    effects := effects + [WriteToml(inp.tomlPath, Clean(inp.dream))];
    var argv := LaunchCommand(parts);
    effects := effects + [Run(argv)];
  }

  /** The paths `extract_lora` passes itself: base model, trained model, LoRA output. */
  function ExtractFixed(h: Host, args: Args, inp: Inputs): seq<(string, string)> {
    [("model_org", Join(ModelsDir(h.cwd), BASE_SDXL_MODEL_NAME)),
     ("model_tuned", DreamboothPath(inp.tempOutputDir, args.sessionName)),
     ("save_to", XloraPath(inp.tempOutputDir, args.sessionName))]
  }

  /** The extraction paths have distinct reserved keys, none of them a switch of the script. */
  lemma ExtractFixedKeys(h: Host, args: Args, inp: Inputs, switches: set<string>)
    requires EXTRACT_RESERVED !! switches
    ensures var xs := ExtractFixed(h, args, inp);
            && PairKeysDistinct(xs) && KeysNotSwitches(xs, switches)
            && forall i :: 0 <= i < |xs| ==> xs[i].0 in EXTRACT_RESERVED
  {
  }

  function ExtractArgv(h: Host, args: Args, inp: Inputs): seq<string> {
    [h.python, ExtractScript(h.cwd)] + ValuedFlags(ExtractFixed(h, args, inp))
    + ConfigFlags(Clean(inp.xlora), EXTRACT_RESERVED)
  }

  /**
   * The reserved-key test compares whole names: a config key that is only a
   * prefix of a reserved option, such as `model_tu`, is not reserved and is
   * emitted as a flag after the fixed paths.
   */
  lemma ReservedPrefixEmitted(h: Host, args: Args, inp: Inputs, v: string)
    requires v != "" && inp.xlora == [("model_tu", Str(v))]
    ensures "model_tu" !in EXTRACT_RESERVED && "model_tuned"[..8] == "model_tu"
    ensures var argv := ExtractArgv(h, args, inp);
            |argv| == 10 && argv[8..] == ["--model_tu", v]
  {
    var e: Entry := ("model_tu", Str(v));
    CleanKeepsUnblank([e]);
    ConfigFlagsCons(e, [], EXTRACT_RESERVED);
    assert "--" + "model_tu" == "--model_tu";
    assert ConfigFlags(Clean(inp.xlora), EXTRACT_RESERVED) == ["--model_tu", v];
  }

  /** `extract_lora(args)`: one command, its fixed paths first, then the cleaned config's flags. */
  method ExtractLora(h: Host, args: Args, inp: Inputs) returns (effects: seq<Effect>)
    ensures effects == [Run(ExtractArgv(h, args, inp))]
  {
    var argv := ScriptCommand(h.python, ExtractScript(h.cwd), ExtractFixed(h, args, inp),
                              Clean(inp.xlora), EXTRACT_RESERVED);
    effects := [Run(argv)];
  }

  /**
   * The extraction script ends up with the base model, the trained weights
   * and the LoRA output path the stage fixes, whatever the extraction config
   * says.
   */
  lemma ExtractSettings(h: Host, args: Args, inp: Inputs, switches: set<string>)
    requires EXTRACT_RESERVED !! switches && SwitchesMatch(Clean(inp.xlora), EXTRACT_RESERVED, switches)
    ensures ScriptSetting(ExtractArgv(h, args, inp), switches, "model_org") == Some(Join(ModelsDir(h.cwd), BASE_SDXL_MODEL_NAME))
    ensures ScriptSetting(ExtractArgv(h, args, inp), switches, "model_tuned")
         == Some(DreamboothPath(inp.tempOutputDir, args.sessionName))
    ensures ScriptSetting(ExtractArgv(h, args, inp), switches, "save_to") == Some(XloraPath(inp.tempOutputDir, args.sessionName))
  {
    var xs := ExtractFixed(h, args, inp);
    ExtractFixedKeys(h, args, inp, switches);
    ScriptReadsFixed(h.python, ExtractScript(h.cwd), xs, Clean(inp.xlora), EXTRACT_RESERVED, switches, 0);
    ScriptReadsFixed(h.python, ExtractScript(h.cwd), xs, Clean(inp.xlora), EXTRACT_RESERVED, switches, 1);
    ScriptReadsFixed(h.python, ExtractScript(h.cwd), xs, Clean(inp.xlora), EXTRACT_RESERVED, switches, 2);
  }

  /** The paths `merge_lora` passes itself: fine-tuned base model, extracted LoRA, final output. */
  function MergeFixed(h: Host, args: Args, inp: Inputs): seq<(string, string)> {
    [("sd_model", Join(ModelsDir(h.cwd), BASE_FINE_TUNED_NAME)),
     ("model", XloraPath(inp.tempOutputDir, args.sessionName)),
     ("save_to", FinalPath(args.outputDir, args.sessionName))]
  }

  /** The merge paths have distinct reserved keys, none of them a switch of the script. */
  lemma MergeFixedKeys(h: Host, args: Args, inp: Inputs, switches: set<string>)
    requires MERGE_RESERVED !! switches
    ensures var ms := MergeFixed(h, args, inp);
            && PairKeysDistinct(ms) && KeysNotSwitches(ms, switches)
            && forall i :: 0 <= i < |ms| ==> ms[i].0 in MERGE_RESERVED
  {
  }

  function MergeArgv(h: Host, args: Args, inp: Inputs): seq<string> {
    [h.python, MergeScript(h.cwd)] + ValuedFlags(MergeFixed(h, args, inp))
    + ConfigFlags(Clean(inp.mlora), MERGE_RESERVED)
  }

  /** `merge_lora(args)`. */
  method MergeLora(h: Host, args: Args, inp: Inputs) returns (effects: seq<Effect>)
    ensures effects == [Run(MergeArgv(h, args, inp))]
  {
    var argv := ScriptCommand(h.python, MergeScript(h.cwd), MergeFixed(h, args, inp),
                              Clean(inp.mlora), MERGE_RESERVED);
    effects := [Run(argv)];
  }

  /**
   * The merge script ends up with the fine-tuned base model, the extracted
   * LoRA and the final output path the stage fixes, whatever the merge config
   * says.
   */
  lemma MergeSettings(h: Host, args: Args, inp: Inputs, switches: set<string>)
    requires MERGE_RESERVED !! switches && SwitchesMatch(Clean(inp.mlora), MERGE_RESERVED, switches)
    ensures ScriptSetting(MergeArgv(h, args, inp), switches, "sd_model") == Some(Join(ModelsDir(h.cwd), BASE_FINE_TUNED_NAME))
    ensures ScriptSetting(MergeArgv(h, args, inp), switches, "model") == Some(XloraPath(inp.tempOutputDir, args.sessionName))
    ensures ScriptSetting(MergeArgv(h, args, inp), switches, "save_to") == Some(FinalPath(args.outputDir, args.sessionName))
  {
    var ms := MergeFixed(h, args, inp);
    MergeFixedKeys(h, args, inp, switches);
    ScriptReadsFixed(h.python, MergeScript(h.cwd), ms, Clean(inp.mlora), MERGE_RESERVED, switches, 0);
    ScriptReadsFixed(h.python, MergeScript(h.cwd), ms, Clean(inp.mlora), MERGE_RESERVED, switches, 1);
    ScriptReadsFixed(h.python, MergeScript(h.cwd), ms, Clean(inp.mlora), MERGE_RESERVED, switches, 2);
  }

  /**
   * The `__main__` block once the base-model check has answered `check`:
   * `sys.exit()` (status 0) when the check failed or the temporary output
   * directory is missing; otherwise train, extract and merge in that order,
   * each whatever the one before did, and finally the guarded upload of the
   * merged file.
   */
  function AfterCheck(check: Verification, h: Host, args: Args, inp: Inputs): seq<Effect> {
    if check != Verified then [Exit(0)]
    else if inp.tempOutputDir !in h.fs then [Exit(0)]
    else
      TrainEffects(h, args, inp) + [Run(ExtractArgv(h, args, inp)), Run(MergeArgv(h, args, inp))]
      + UploadToHuggingface(FinalPath(args.outputDir, args.sessionName), args.upload)
  }

  /** The whole `__main__` block, with `are_models_verified` looking at the host's files. */
  function Pipeline(h: Host, args: Args, inp: Inputs): seq<Effect> {
    AfterCheck(AreModelsVerified(h.fs, h.cwd), h, args, inp)
  }

  method MainSdxl(h: Host, args: Args, inp: Inputs) returns (effects: seq<Effect>)
    ensures effects == Pipeline(h, args, inp)
  {
    var check := AreModelsVerified(h.fs, h.cwd);
    assert Pipeline(h, args, inp) == AfterCheck(check, h, args, inp);
    if check != Verified {
      return [Exit(0)];
    }
    if inp.tempOutputDir !in h.fs {
      return [Exit(0)];
    }
    var train := TrainSdxl(h, args, inp);
    var extract := ExtractLora(h, args, inp);
    var merge := MergeLora(h, args, inp);
    assert extract + merge == [Run(ExtractArgv(h, args, inp)), Run(MergeArgv(h, args, inp))];
    effects := train + (extract + merge)
               + UploadToHuggingface(FinalPath(args.outputDir, args.sessionName), args.upload);
  }

  // ---------------------------------------------------------------------
  // What the pipeline promises

  /** The gate passes: every required model path and the temporary output directory exist. */
  predicate GateOpen(h: Host, inp: Inputs) {
    && (forall i :: 0 <= i < |SdxlRequired(h.cwd)| ==> SdxlRequired(h.cwd)[i] in h.fs)
    && inp.tempOutputDir in h.fs
  }

  /** The run is the run after a passed check exactly when the gate is open, and a bare exit otherwise. */
  lemma PipelineGate(h: Host, args: Args, inp: Inputs)
    ensures GateOpen(h, inp) ==> Pipeline(h, args, inp) == AfterCheck(Verified, h, args, inp)
    ensures !GateOpen(h, inp) ==> Pipeline(h, args, inp) == [Exit(0)]
  {
    SdxlCheckIsFirstFailure(h.fs, h.cwd);
  }

  /** What the run launches once the gate is open: the stages' commands, then nothing more. */
  lemma AfterCheckRuns(h: Host, args: Args, inp: Inputs)
    requires inp.tempOutputDir in h.fs
    ensures Runs(AfterCheck(Verified, h, args, inp))
         == Runs(TrainEffects(h, args, inp)) + [ExtractArgv(h, args, inp), MergeArgv(h, args, inp)]
  {
    var up := UploadToHuggingface(FinalPath(args.outputDir, args.sessionName), args.upload);
    RunsOfStages(TrainEffects(h, args, inp), ExtractArgv(h, args, inp), MergeArgv(h, args, inp), up);
  }

  /**
   * Some command is launched exactly when the gate is open; when it is
   * closed the run is a bare exit with status 0.
   */
  lemma LaunchesIffGateOpen(h: Host, args: Args, inp: Inputs)
    ensures Runs(Pipeline(h, args, inp)) != [] <==> GateOpen(h, inp)
    ensures !GateOpen(h, inp) ==> Pipeline(h, args, inp) == [Exit(0)]
  {
    PipelineGate(h, args, inp);
    if GateOpen(h, inp) {
      AfterCheckRuns(h, args, inp);
    } else {
      assert Runs([Exit(0)]) == [];
    }
  }

  /** Training launches its one command exactly when `accelerate` is found. */
  lemma TrainRuns(h: Host, args: Args, inp: Inputs)
    ensures var accel := GetExecutablePath(h.which, "accelerate");
            Runs(TrainEffects(h, args, inp)) == if accel == "" then [] else [TrainArgv(accel, h, args, inp)]
  {
    var accel := GetExecutablePath(h.which, "accelerate");
    var unzip := [ExtractZip(args.trainDataZip, inp.trainDataDir)];
    assert Runs(unzip) == [];
    if accel != "" {
      var tail := [WriteToml(inp.tomlPath, Clean(inp.dream)), Run(TrainArgv(accel, h, args, inp))];
      RunsAppend(unzip, tail);
      assert tail[1..] == [Run(TrainArgv(accel, h, args, inp))];
      assert Runs(tail) == [TrainArgv(accel, h, args, inp)];
    } else {
      assert TrainEffects(h, args, inp) == unzip;
    }
  }

  /**
   * With the gate open the stages launch in order: training (only when
   * `accelerate` is found), then extraction, then merging; extraction and
   * merging run even when training returned early.
   */
  lemma StagesRunInOrder(h: Host, args: Args, inp: Inputs)
    requires GateOpen(h, inp)
    ensures var accel := GetExecutablePath(h.which, "accelerate");
            Runs(Pipeline(h, args, inp))
            == (if accel == "" then [] else [TrainArgv(accel, h, args, inp)])
               + [ExtractArgv(h, args, inp), MergeArgv(h, args, inp)]
  {
    PipelineGate(h, args, inp);
    AfterCheckRuns(h, args, inp);
    TrainRuns(h, args, inp);
  }

  /** After a passed check, the upload is the last effect, and happens exactly when a token was given. */
  lemma AfterCheckUploadIsLast(h: Host, args: Args, inp: Inputs)
    requires inp.tempOutputDir in h.fs
    ensures var run := AfterCheck(Verified, h, args, inp);
            && |run| > 0
            && (run[|run| - 1].Upload? <==> args.upload.Some?)
            && forall i :: 0 <= i < |run| - 1 ==> !run[i].Upload?
  {
    var train := TrainEffects(h, args, inp);
    var up := UploadToHuggingface(FinalPath(args.outputDir, args.sessionName), args.upload);
    var run := train + [Run(ExtractArgv(h, args, inp)), Run(MergeArgv(h, args, inp))] + up;
    assert AfterCheck(Verified, h, args, inp) == run;
    assert forall e :: e in train ==> !e.Upload?;
    forall i | 0 <= i < |run| - 1 ensures !run[i].Upload? {
      if i < |train| {
        assert run[i] == train[i];
        assert train[i] in train;
      }
    }
  }

  /** With the gate open, the upload is the last effect, and happens exactly when a token was given. */
  lemma UploadIsLast(h: Host, args: Args, inp: Inputs)
    requires GateOpen(h, inp)
    ensures var run := Pipeline(h, args, inp);
            && (run[|run| - 1].Upload? <==> args.upload.Some?)
            && forall i :: 0 <= i < |run| - 1 ==> !run[i].Upload?
  {
    PipelineGate(h, args, inp);
    AfterCheckUploadIsLast(h, args, inp);
  }

  /**
   * Training reads the base model the gate checked: the value its script
   * ends up with for `--pretrained_model_name_or_path` is the verified file.
   */
  lemma TrainsOnVerifiedBase(h: Host, args: Args, inp: Inputs, accel: string, switches: set<string>)
    requires GateOpen(h, inp)
    requires KeysNotSwitches(TrainOverrides(h, args, inp), switches)
    ensures LaunchedSetting(TrainArgv(accel, h, args, inp), switches, "pretrained_model_name_or_path")
         == Some(SdxlRequired(h.cwd)[1])
    ensures SdxlRequired(h.cwd)[1] in h.fs
  {
    var ps := TrainOverrides(h, args, inp);
    var p := LaunchParts(accel, Some(AccelerateYaml(h.cwd)), SdxlTrainScript(h.cwd), inp.tomlPath, ValuedFlags(ps));
    LaunchedReadsOverrides(p, ps, switches, 1);
  }

  /** Training's script ends up writing into the temporary output directory, under the session's name. */
  lemma TrainOutputSettings(h: Host, args: Args, inp: Inputs, accel: string, switches: set<string>)
    requires KeysNotSwitches(TrainOverrides(h, args, inp), switches)
    ensures LaunchedSetting(TrainArgv(accel, h, args, inp), switches, "output_dir") == Some(inp.tempOutputDir)
    ensures LaunchedSetting(TrainArgv(accel, h, args, inp), switches, "output_name")
         == Some(args.sessionName + "_dreambooth")
  {
    var ps := TrainOverrides(h, args, inp);
    var p := LaunchParts(accel, Some(AccelerateYaml(h.cwd)), SdxlTrainScript(h.cwd), inp.tomlPath, ValuedFlags(ps));
    LaunchedReadsOverrides(p, ps, switches, 2);
    LaunchedReadsOverrides(p, ps, switches, 3);
  }

  /**
   * The weights training writes (`<output_dir>/<output_name>.safetensors`, as
   * its script reads those two options) are what the extraction script reads
   * as `--model_tuned`; no config entry can redirect either.
   */
  lemma TrainFeedsExtract(h: Host, args: Args, inp: Inputs, accel: string,
                          trainSwitches: set<string>, extractSwitches: set<string>)
    requires KeysNotSwitches(TrainOverrides(h, args, inp), trainSwitches)
    requires EXTRACT_RESERVED !! extractSwitches && SwitchesMatch(Clean(inp.xlora), EXTRACT_RESERVED, extractSwitches)
    ensures var train := TrainArgv(accel, h, args, inp);
            var dir := LaunchedSetting(train, trainSwitches, "output_dir");
            var name := LaunchedSetting(train, trainSwitches, "output_name");
            dir.Some? && name.Some?
            && ScriptSetting(ExtractArgv(h, args, inp), extractSwitches, "model_tuned")
               == Some(Join(dir.value, name.value + ".safetensors"))
  {
    TrainOutputSettings(h, args, inp, accel, trainSwitches);
    ExtractSettings(h, args, inp, extractSwitches);
    DreamboothPathIsOutput(inp.tempOutputDir, args.sessionName);
  }

  /** The LoRA extraction saves is the one merging reads as `--model`. */
  lemma ExtractFeedsMerge(h: Host, args: Args, inp: Inputs, extractSwitches: set<string>, mergeSwitches: set<string>)
    requires EXTRACT_RESERVED !! extractSwitches && SwitchesMatch(Clean(inp.xlora), EXTRACT_RESERVED, extractSwitches)
    requires MERGE_RESERVED !! mergeSwitches && SwitchesMatch(Clean(inp.mlora), MERGE_RESERVED, mergeSwitches)
    ensures ScriptSetting(ExtractArgv(h, args, inp), extractSwitches, "save_to")
         == ScriptSetting(MergeArgv(h, args, inp), mergeSwitches, "model")
         == Some(XloraPath(inp.tempOutputDir, args.sessionName))
  {
    ExtractSettings(h, args, inp, extractSwitches);
    MergeSettings(h, args, inp, mergeSwitches);
  }

  /** Every upload after the check is the guarded upload of the merged file. */
  lemma AfterCheckUploads(check: Verification, h: Host, args: Args, inp: Inputs)
    ensures forall e :: e in AfterCheck(check, h, args, inp) && e.Upload? ==>
              e in UploadToHuggingface(FinalPath(args.outputDir, args.sessionName), args.upload)
  {
    if check == Verified && inp.tempOutputDir in h.fs {
      var train := TrainEffects(h, args, inp);
      var mid := [Run(ExtractArgv(h, args, inp)), Run(MergeArgv(h, args, inp))];
      var up := UploadToHuggingface(FinalPath(args.outputDir, args.sessionName), args.upload);
      assert AfterCheck(check, h, args, inp) == (train + mid) + up;
      assert forall e :: e in train ==> !e.Upload?;
    }
  }

  /** After any check, every upload is the merged file, under its own name, with the given token. */
  lemma AfterCheckUploadsFinalFile(check: Verification, h: Host, args: Args, inp: Inputs)
    requires '/' !in args.sessionName
    ensures forall e :: e in AfterCheck(check, h, args, inp) && e.Upload? ==>
              && args.upload.Some?
              && e.request == UploadRequest(args.upload.value, FinalPath(args.outputDir, args.sessionName),
                                            args.sessionName + "_final.safetensors", REPLICATE_REPO_ID)
  {
    AfterCheckUploads(check, h, args, inp);
    var name := args.sessionName + "_final.safetensors";
    assert '/' !in name;
    if args.upload.Some? {
      UploadKeepsFileName(args.outputDir, name, args.upload.value);
    }
  }

  /** Every upload of the run is the merged file, under its own name, with the given token. */
  lemma UploadsFinalFile(h: Host, args: Args, inp: Inputs)
    requires '/' !in args.sessionName
    ensures forall e :: e in Pipeline(h, args, inp) && e.Upload? ==>
              && args.upload.Some?
              && e.request == UploadRequest(args.upload.value, FinalPath(args.outputDir, args.sessionName),
                                            args.sessionName + "_final.safetensors", REPLICATE_REPO_ID)
  {
    AfterCheckUploadsFinalFile(AreModelsVerified(h.fs, h.cwd), h, args, inp);
  }

  /** The file merging saves is the file uploaded, and it lands in the repository under its own name. */
  lemma MergeFeedsUpload(h: Host, args: Args, inp: Inputs, mergeSwitches: set<string>)
    requires MERGE_RESERVED !! mergeSwitches && SwitchesMatch(Clean(inp.mlora), MERGE_RESERVED, mergeSwitches)
    requires '/' !in args.sessionName
    ensures forall e :: e in Pipeline(h, args, inp) && e.Upload? ==>
              && ScriptSetting(MergeArgv(h, args, inp), mergeSwitches, "save_to") == Some(e.request.localPath)
              && e.request.pathInRepo == args.sessionName + "_final.safetensors"
  {
    UploadsFinalFile(h, args, inp);
    MergeSettings(h, args, inp, mergeSwitches);
  }

  /** Five entries of which only the fourth is reserved: the flags of the other four, in order. */
  lemma FlagsOfFive(e1: Entry, e2: Entry, e3: Entry, e4: Entry, e5: Entry, r: set<string>)
    requires e1.0 !in r && e2.0 !in r && e3.0 !in r && e4.0 in r && e5.0 !in r
    ensures ConfigFlags([e1, e2, e3, e4, e5], r)
         == EntryFlags(e1) + EntryFlags(e2) + EntryFlags(e3) + EntryFlags(e5)
  {
    ConfigFlagsCons(e5, [], r);
    ConfigFlagsCons(e4, [e5], r);
    ConfigFlagsCons(e3, [e4, e5], r);
    ConfigFlagsCons(e2, [e3, e4, e5], r);
    ConfigFlagsCons(e1, [e2, e3, e4, e5], r);
    assert [e5] + [] == [e5];
    assert [e4] + [e5] == [e4, e5];
    assert [e3] + [e4, e5] == [e3, e4, e5];
    assert [e2] + [e3, e4, e5] == [e2, e3, e4, e5];
    assert [e1] + [e2, e3, e4, e5] == [e1, e2, e3, e4, e5];
  }

  /** The entries of the worked example below, with their flags. */
  lemma ExampleEntryFlags()
    ensures EntryFlags(("learning_rate", Other("1.0"))) == ["--learning_rate", "1.0"]
    ensures EntryFlags(("enable_bucket", Bool(true))) == ["--enable_bucket"]
    ensures EntryFlags(("sdxl", Bool(false))) == ["--sdxl", "False"]
    ensures EntryFlags(("dim", Int(0))) == ["--dim", "0"]
  {
    assert NatToDecimal(0) == [Digit(0)];
    assert "--" + "dim" == "--dim";
    assert "--" + "sdxl" == "--sdxl";
    assert "--" + "enable_bucket" == "--enable_bucket";
    assert "--" + "learning_rate" == "--learning_rate";
  }

  /** Cleaning the worked example below drops only its empty `resolution`. */
  lemma ExampleCleaned()
    ensures Clean([("resolution", Str("")), ("learning_rate", Other("1.0")),
                   ("enable_bucket", Bool(true)), ("sdxl", Bool(false)),
                   ("save_to", Str("elsewhere")), ("dim", Int(0))])
         == [("learning_rate", Other("1.0")), ("enable_bucket", Bool(true)), ("sdxl", Bool(false)),
             ("save_to", Str("elsewhere")), ("dim", Int(0))]
  {
    var e0, e1, e2, e3, e4, e5 := ("resolution", Str("")), ("learning_rate", Other("1.0")),
              ("enable_bucket", Bool(true)), ("sdxl", Bool(false)),
              ("save_to", Str("elsewhere")), ("dim", Int(0));
    var kept := [e1, e2, e3, e4, e5];
    assert [e0, e1, e2, e3, e4, e5][1..] == kept;
    CleanKeepsUnblank(kept);
  }

  /** The flags of the cleaned worked example below. */
  lemma ExampleKeptFlags()
    ensures ConfigFlags([("learning_rate", Other("1.0")), ("enable_bucket", Bool(true)), ("sdxl", Bool(false)),
                         ("save_to", Str("elsewhere")), ("dim", Int(0))], EXTRACT_RESERVED)
         == ["--learning_rate", "1.0", "--enable_bucket", "--sdxl", "False", "--dim", "0"]
  {
    ExampleEntryFlags();
    assert "save_to" in EXTRACT_RESERVED;
    FlagsOfFive(("learning_rate", Other("1.0")), ("enable_bucket", Bool(true)), ("sdxl", Bool(false)),
                ("save_to", Str("elsewhere")), ("dim", Int(0)), EXTRACT_RESERVED);
  }

  /**
   * A worked translation for the extraction stage: the empty `resolution` is
   * dropped, a float is passed as its text, True becomes a bare switch, False
   * is passed as "False", zero is kept, and a reserved key never appears.
   */
  lemma ExtractFlagsExample()
    ensures ConfigFlags(Clean([("resolution", Str("")), ("learning_rate", Other("1.0")),
                               ("enable_bucket", Bool(true)), ("sdxl", Bool(false)),
                               ("save_to", Str("elsewhere")), ("dim", Int(0))]), EXTRACT_RESERVED)
         == ["--learning_rate", "1.0", "--enable_bucket", "--sdxl", "False", "--dim", "0"]
  {
    ExampleCleaned();
    ExampleKeptFlags();
  }
}
