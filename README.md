# apot-train, modelled in Dafny

apot-train is a set of Python driver scripts for fine-tuning Stable Diffusion
XL and Flux.1 [dev] image models. The scripts share these steps, but not
every script has all of them:

- checking that the base weight files exist under `models/` (`main_sdxl.py` and `main_flux.py` only);
- unpacking the training images from a zip file (`main_sdxl.py`, `main.py` and `main_flux.py`);
- turning a JSON or YAML settings document into the config file the trainer reads, after dropping blank values (`main_sdxl.py`, `main.py`, `main_flux.py` and `utils.py`);
- building an `accelerate launch` command line and running it (every script). `concept.py` starts it and streams its output until it exits, with no separate wait or terminate step. The other scripts wait for it to exit and then call a terminate step, which finds the process already exited and so kills nothing: anything the process spawned that is still running stays running.

After training, the SDXL pipeline runs three more stages:

1. It runs a LoRA extraction script. It takes a second settings document whose entries become `--key [value]` flags.
2. It runs a LoRA merge script, which takes its own settings document in the same way.
3. It uploads the merged weights to a Hugging Face repository when a token was given.

This project models that core as Dafny modules:

| module | what it models |
|---|---|
| `Values` | JSON/YAML scalar values, Python's `str()` of them, and `Path.joinpath`, `.name` and `.suffix` |
| `Documents` | the blank-value cleaning every stage does, and `sort_json` |
| `Launcher` | the `run_cmd` list as a class grown in place by `append`, the twelve `accelerate` flags, and the layout of a launch command |
| `Supervisor` | the process table as a class, `terminate_subprocesses` as a loop over the recursive children, and the `poll()` loop of `is_finished_training` |
| `ModelCheck` | `are_models_verified` and `are_models_verified_flux` |
| `Publisher` | `upload_to_huggingface` |
| `Stage` | the host a script runs on (files, `$PATH`, working directory) and the effects a stage has |
| `SdxlMain` | `main_sdxl.py` |
| `SdxlEarly` | the earlier `main.py` |
| `FluxMain` | `main_flux.py` |
| `Concept` | `concept.py` |

`Launcher` also reads flags back. `ReadOptions` is a reading partner in the style of argparse, restricted to exact option names: a switch takes no value, any other option takes the next token, and a later occurrence overrides an earlier one. It has no abbreviations, no `--key=value` form, and no errors for unknown options or for values that start with "-". This lets lemmas state the value each downstream script ends up with for a key, under that reader.

A stage is a method that returns its trace of effects:

- unpacking a zip;
- writing the translated config;
- running a command, which means launch it and wait until it exits;
- uploading;
- exiting.

Each stage is proved equal to a specification function. Lemmas about those functions state the following:

- the gate in front of the pipeline;
- the order of the launches;
- the paths handed from each stage to the next;
- that an upload, when there is one, is the last effect and sends the final merged file.

## Model

| member | source | states |
|---|---|---|
| Values.IntDecimalRoundTrip | main_sdxl.py:253-254 | the decimal text `str()` gives an integer reads back as that integer, so a numeric setting reaches the downstream script unchanged |
| Values.PyStr | main_sdxl.py:254 | `str()` of a setting: a string is itself, an integer's text reads back as the integer, a boolean is "True" or "False", and None is "None" |
| Values.BaseNameOfJoin | main_sdxl.py:358-360 | the `.name` of `dir/name` is `name` when the name holds no separator |
| Values.BaseName | main_sdxl.py:358 | `Path.name` is the tail of the path after its last separator, and holds no separator |
| Values.Extension | utils.py:216 | the extension of a final name is empty, or a dot followed by dot-free text that ends the name and is shorter than it, so a name that starts with its only dot has none |
| Values.Suffix | utils.py:216 | `Path.suffix` is empty, or a dot followed by text with no dot and no separator, and it ends the path |
| Values.SuffixOfJoin | utils.py:216 | the `.suffix` of `dir/stem.ext` is `.ext` when the extension holds no dot or separator |
| Documents.Clean | main_sdxl.py:127-129 | the cleaned document holds exactly the entries whose value is not the empty string, and is no longer than the original |
| Documents.CleanAppend | utils.py:104-106 | cleaning works entry by entry: cleaning two halves and concatenating them gives the cleaned whole |
| Documents.CleanKeepsUnblank | main.py:119-121 | a document without blank values comes through cleaning unchanged |
| Documents.CleanIdempotent | main_sdxl.py:277-279 | cleaning a cleaned document changes nothing |
| Documents.CleanKeepsKeysDistinct | main_sdxl.py:227-229 | cleaning a mapping gives a mapping with no duplicated key |
| Documents.CleanLookup | main_sdxl.py:127-129 | a key whose value was "" is absent after cleaning; every other key keeps its value, including 0, False and None |
| Documents.KeyLess | utils.py:269 | Python's `<` on strings, code point by code point with a proper prefix first; no string is less than itself |
| Documents.KeyLessAsymmetric | utils.py:269 | of two strings, at most one is less than the other, so with KeyLessTotal and KeyLessTransitive the order `sorted` uses is strict and total |
| Documents.KeyLessTransitive | utils.py:269 | Python's `<` on strings is transitive |
| Documents.KeyLessTotal | utils.py:269 | `sorted` on distinct string keys is a total order: of two different keys, one comes first |
| Documents.InsertByKey | utils.py:269 | inserting an entry adds exactly that entry to the multiset of entries |
| Documents.InsertByKeySorted | utils.py:269 | inserting a new key into a key-sorted document keeps it key-sorted |
| Documents.SortByKey | utils.py:269 | sorting by key is a permutation of the entries |
| Documents.SortByKeySorted | utils.py:269 | sorting a mapping with distinct keys leaves each key less than the next |
| Documents.SortedByKeyAll | utils.py:269 | in a list sorted neighbour by neighbour, every key is less than every later key |
| Documents.SortJson | utils.py:264-271 | `sort_json` writes `<output_name>.json` with the same entries, every key less than every later key, and reports "Saved file as <output_name>.json" |
| Launcher.GetExecutablePath | main_sdxl.py:60-67 | the executable's path when `$PATH` has it, and "" when it does not |
| Launcher.RunCommand.constructor | main_sdxl.py:188 | a new `run_cmd` list holds exactly its initial tokens |
| Launcher.RunCommand.Append | main_sdxl.py:190 | `append` adds one token at the end of the list in place |
| Launcher.AccelerateConfigCmd | main_sdxl.py:70-91 | appends, in place, the six launcher flags and their values in the source's order: no dynamo backend, the default dynamo mode, fp16, one process, one machine, two CPU threads |
| Launcher.AccelerateConfigCmdDisabled | utils.py:138-159 | the variant whose body is commented out leaves the list untouched |
| Launcher.LaunchArgvRoundTrip | main_sdxl.py:188-205 | from a launch command one can read back the launcher, its optional config file, the script, the translated config file and the overrides |
| Launcher.SplitLaunchArgvSound | main_sdxl.py:188-205 | a command line that reads back as parts is exactly the command line built from those parts |
| Launcher.LaunchArgv | main_sdxl.py:188-205 | the launch command has seventeen fixed tokens (launcher, `launch`, the twelve launcher tokens, the script and its `--config_file` pair), two more when a launcher config is given, then exactly the overrides; LaunchArgvRoundTrip reads each part back |
| Launcher.LaunchCommand | main_sdxl.py:188-205 | growing `run_cmd` append by append gives the launch command of the parts |
| Launcher.ConfigFlagsAppend | main_sdxl.py:250-254 | the flags of a document are the flags of each entry in document order |
| Launcher.EntryFlags | main_sdxl.py:252-254 | an entry becomes `--key`, followed by one more token, its value's `str()`, unless the value is True |
| Launcher.ConfigFlags | main_sdxl.py:250-254 | the loop adds at most two tokens per settings entry, a `--key` and at most one value; ConfigFlagsEmitsEveryKey states which keys appear |
| Launcher.ConfigFlagsEmitsEveryKey | main_sdxl.py:250-254 | every key the loop does not skip appears as its `--key` flag, and a document of reserved keys alone adds nothing |
| Launcher.AppendConfigFlags | main_sdxl.py:250-254 | the loop appends, in place, the flags of every non-reserved entry in document order and nothing else |
| Launcher.Eligible | main_sdxl.py:251 | the entries the loop emits are exactly those whose key is not reserved |
| Launcher.ConfigFlagsLength | main_sdxl.py:250-254 | the loop adds one token per emitted key, plus one per value that is not `True` |
| Launcher.Options | main_sdxl.py:250-254 | what a reader recovers holds one option per emitted entry, with the same keys in the same order |
| Launcher.ReadConfigFlags | main_sdxl.py:250-254 | when exactly the `True` values are switches of the downstream script, the exact-name reader reads the emitted flags back as the document's own keys and values |
| Launcher.FalseSwitchUnreadable | main_sdxl.py:252-254 | a False value for a key the target script takes as a bare switch is emitted as `--key False`, which such a script cannot read |
| Launcher.ArgValueAppendAbsent | main_sdxl.py:250-251 | options that never name a key do not change what the reader stores for it |
| Launcher.OptionsAvoidReserved | main_sdxl.py:251 | no flag read back from a document names a reserved key |
| Launcher.ValuedFlags | main_sdxl.py:198-205 | each `--key value` override pair contributes exactly two tokens |
| Launcher.ValuedOptions | main_sdxl.py:198-205 | reading `--key value` pairs yields each key with its value, in order |
| Launcher.ReadValuedFlags | main_sdxl.py:198-205 | `--key value` pairs followed by any readable tail read back as the pairs followed by the tail's options |
| Launcher.ReadValuedFlagsAlone | main_sdxl.py:198-205 | `--key value` pairs alone read back as exactly those pairs |
| Launcher.ArgValueOfValued | main_sdxl.py:238-247 | among pairs with distinct keys, the reader stores each key's own value |
| Launcher.ScriptReadsFixed | main_sdxl.py:238-254 | for a settings document whose True values are exactly the script's switches (SwitchesMatch), a script command keeps each of its fixed paths: such a document cannot override a reserved key, because the loop skips it |
| Launcher.LaunchedSettingOfParts | main_sdxl.py:188-205 | for a key among the overrides that close the launch command, the training script's value is what the reader gets from those overrides; a key set only in the config file is not covered |
| Launcher.LaunchedReadsOverrides | main_sdxl.py:198-205 | the training script ends up with each override's own value |
| Launcher.ScriptCommand | main_sdxl.py:238-254 | the extraction and merge `run_cmd`: interpreter, script, fixed path pairs, then the flags of the cleaned document |
| Supervisor.KillTree | main_sdxl.py:148-165 | `terminate_subprocesses` on the table: if the root is running, it and all its descendants are killed and nothing else changes; if not, the table is unchanged; no process or parent link is added or removed |
| Supervisor.DescendantsAfterKill | main_sdxl.py:153-156 | killing processes leaves the parent/child structure as it was |
| Supervisor.KillTreeIdempotent | main_sdxl.py:148-165 | terminating twice is the same as terminating once |
| Supervisor.NothingLeftRunning | main_sdxl.py:151-156 | when `terminate_subprocesses` is called on a process that is still running, neither it nor any of its descendants is left running; the stages never make such a call (see StageLeavesDescendantsRunning) |
| Supervisor.Descendants | main_sdxl.py:154 | `children(recursive=True)`: processes of the table whose chain of parents reaches the root, never the root itself |
| Supervisor.ChildOfDescendant | main_sdxl.py:154 | `children(recursive=True)` is closed under taking children: a process whose parent is the root or one of its descendants is itself a descendant, however deep the tree |
| Supervisor.Exited | main_sdxl.py:140 | the exit `poll()` observes: the root's row is marked exited, and no other row or parent link changes |
| Supervisor.StageLeavesDescendantsRunning | main_sdxl.py:137-165 | waiting for the exit and then terminating leaves a descendant that was still running both running and still counted as a descendant |
| Supervisor.ProcessTable.constructor | main_sdxl.py:148-151 | the table starts as the given processes |
| Supervisor.ProcessTable.IsRunning | main_sdxl.py:151 | `poll() is None` holds exactly for a process that exists and has not exited |
| Supervisor.ProcessTable.Kill | main_sdxl.py:155-156 | `kill()` marks that one process as exited and changes nothing else |
| Supervisor.ProcessTable.TerminateSubprocesses | main_sdxl.py:148-165 | the kill loop over the recursive children, followed by killing the parent, leaves the table as the specification says |
| Supervisor.ProcessTable.FinishStage | main_sdxl.py:210-214 | the end of every stage, the wait and then `terminate_subprocesses`: the polls stop at the first exit status, and the only change to the table is the root's exit |
| Supervisor.IsFinishedTraining | main_sdxl.py:137-145 | the loop stops at the first poll that reports an exit status; every earlier poll found the process running |
| ModelCheck.FirstMissingIsFirstFailure | utils.py:205-225 | checking paths in order answers Verified exactly when every path exists, and otherwise names the first missing one |
| ModelCheck.WeightFileSuffix | utils.py:216 | a weight file named `<stem>.safetensors` has the suffix `.safetensors` |
| ModelCheck.SdxlModelIsSafetensors | utils.py:216 | the suffix test on the base SDXL file always passes, so the file's existence alone decides |
| ModelCheck.FineTunedModelIsSafetensors | utils.py:220 | the suffix test on the fine-tuned file always passes |
| ModelCheck.FluxModelIsSafetensors | utils.py:185 | the suffix test on the Flux model always passes |
| ModelCheck.FluxClipIsSafetensors | utils.py:189 | the suffix test on the clip_l encoder always passes |
| ModelCheck.FluxT5IsSafetensors | utils.py:193 | the suffix test on the t5xxl encoder always passes |
| ModelCheck.FluxAeIsSafetensors | utils.py:197 | the suffix test on the autoencoder always passes |
| ModelCheck.AreModelsVerified | utils.py:205-225 | the three early returns agree with checking the models directory, the base file and the fine-tuned file in order |
| ModelCheck.AreModelsVerifiedFlux | utils.py:172-202 | the five early returns agree with checking the Flux directory and its four weight files in order |
| ModelCheck.SdxlCheckIsFirstFailure | utils.py:205-225 | the SDXL check passes exactly when all three paths exist, and otherwise reports the first missing one |
| ModelCheck.FluxCheckIsFirstFailure | utils.py:172-202 | the Flux check passes exactly when all five paths exist, and otherwise reports the first missing one |
| ModelCheck.FluxOneMissingFails | utils.py:185-199 | with only one weight file missing, the Flux check fails and names that file |
| Stage.RunsOfStages | main_sdxl.py:340-346 | the commands a run launches are those of the stages before, then the two given stages, and none after |
| Publisher.UploadToHuggingface | utils.py:46-61 | exactly one upload when a token is given and none otherwise, sending the given file with that token to the fixed repository |
| Publisher.UploadKeepsFileName | main_sdxl.py:354-360 | the file `dir/name` is stored in the repository under `name` |
| SdxlMain.TrainSdxl | main_sdxl.py:168-216 | unpacks the images; then, only when `accelerate` is found, writes the cleaned config and launches the command built in place |
| SdxlMain.ExtractLora | main_sdxl.py:219-265 | launches one extraction command: the fixed paths, then the flags of the cleaned extraction settings |
| SdxlMain.ExtractSettings | main_sdxl.py:233-247 | for an extraction document whose True values are exactly the script's switches (SwitchesMatch), the extraction script reads the base SDXL model, the trained DreamBooth file and the LoRA output path, whatever else the document says |
| SdxlMain.ReservedPrefixEmitted | main_sdxl.py:250-254 | the reserved-key test compares whole names: a key such as `model_tu`, a prefix of `model_tuned`, is emitted after the fixed paths |
| SdxlMain.MergeLora | main_sdxl.py:268-316 | launches one merge command: the fixed paths, then the flags of the cleaned merge settings |
| SdxlMain.MergeSettings | main_sdxl.py:283-297 | for a merge document whose True values are exactly the script's switches (SwitchesMatch), the merge script reads the fine-tuned base model, the extracted LoRA and the final output path, whatever else the document says |
| SdxlMain.MainSdxl | main_sdxl.py:319-365 | the `__main__` block runs the gate, then the stages, then the guarded upload |
| SdxlMain.PipelineGate | main_sdxl.py:328-334 | when a model file or the temporary output directory is missing, the run is a bare `sys.exit()`; otherwise it is the full pipeline |
| SdxlMain.AfterCheckRuns | main_sdxl.py:340-346 | once the gate is passed, the run launches training's commands, then extraction, then merging, and nothing after |
| SdxlMain.LaunchesIffGateOpen | main_sdxl.py:328-346 | some command is launched exactly when the gate is open |
| SdxlMain.TrainRuns | main_sdxl.py:182-216 | training launches its one command exactly when `accelerate` is found |
| SdxlMain.StagesRunInOrder | main_sdxl.py:340-346 | with the gate open, the run launches training (only when `accelerate` is found), then extraction, then merging; the later stages run even when training returned early |
| SdxlMain.AfterCheckUploadIsLast | main_sdxl.py:349-362 | after a passed gate, the upload happens exactly when a token was given, and is the last effect |
| SdxlMain.UploadIsLast | main_sdxl.py:349-362 | with the gate open, no effect but the last is an upload, and the last is one exactly when a token was given |
| SdxlMain.TrainsOnVerifiedBase | main_sdxl.py:198-205 | training reads the base SDXL model, and that file is one the gate checked exists |
| SdxlMain.TrainOutputSettings | main_sdxl.py:198-205 | training writes into the temporary output directory, under `<session>_dreambooth` |
| SdxlMain.TrainFeedsExtract | main_sdxl.py:198-235 | for an extraction document whose True values are exactly the script's switches (SwitchesMatch), extraction reads the file training writes: training's output directory joined with its output name plus `.safetensors` is the `model_tuned` path of main_sdxl.py:234 |
| SdxlMain.ExtractFeedsMerge | main_sdxl.py:233-285 | for extraction and merge documents whose True values are exactly their scripts' switches (SwitchesMatch), merging reads the LoRA file extraction saves |
| SdxlMain.AfterCheckUploads | main_sdxl.py:349-362 | every upload sends the final merged file with the given token to the fixed repository |
| SdxlMain.AfterCheckUploadsFinalFile | main_sdxl.py:349-362 | every upload sends `<output_dir>/<session>_final.safetensors` and stores it as `<session>_final.safetensors` |
| SdxlMain.UploadsFinalFile | main_sdxl.py:349-362 | the whole run uploads only the final merged file, under its own name |
| SdxlMain.MergeFeedsUpload | main_sdxl.py:283-362 | for a merge document whose True values are exactly the script's switches (SwitchesMatch), the file uploaded is the file the merge script was told to save |
| SdxlMain.ExampleEntryFlags | main_sdxl.py:250-254 | `True` becomes a bare switch; `False`, 0 and a float are written out as `str()` renders them |
| SdxlMain.ExampleCleaned | main_sdxl.py:227-229 | cleaning drops only the entry whose value is the empty string, and keeps 0 and False |
| SdxlMain.ExtractFlagsExample | main_sdxl.py:227-254 | a concrete extraction document: the blank entry is dropped, the reserved key is skipped, `True` is bare, and the rest are `--key value` |
| SdxlEarly.TrainSdxl | main.py:160-199 | unpacks the images; then, only when `accelerate` is found, writes the cleaned config and launches training without a launcher config file |
| SdxlEarly.ExtractLora | main.py:202-275 | launches one extraction command with the fixed paths, then the flags of the cleaned settings |
| SdxlEarly.RunScript | main.py:278-287 | the `__main__` block: training, then extraction |
| SdxlEarly.TrainRuns | main.py:168-199 | training launches its one command exactly when `accelerate` is found |
| SdxlEarly.StagesRun | main.py:278-287 | extraction is always launched, and last, whether or not training ran |
| SdxlEarly.TrainCommandShape | main.py:174-189 | the training command has no launcher config file and reads back as its parts; the script writes into the output directory from the arguments |
| SdxlEarly.ExtractReadsTrainOutput | main.py:186-220 | for an extraction document whose True values are exactly the script's switches (SwitchesMatch), extraction reads `dreambooth.safetensors` from the directory training wrote to, and keeps its three fixed paths |
| FluxMain.TrainFlux | main_flux.py:34-90 | unpacks the images; then, only when `accelerate` is found, writes the cleaned config and launches Flux training |
| FluxMain.MainFlux | main_flux.py:93-113 | the `__main__` block: the Flux check, then training |
| FluxMain.PipelineGate | main_flux.py:103-107 | when a Flux weight file or its directory is missing, the run is a bare `sys.exit()`; otherwise it is training |
| FluxMain.TrainsIffVerified | main_flux.py:47-113 | training is launched exactly when every Flux weight exists and `accelerate` is found, and then it is the only command |
| FluxMain.TrainsOnVerifiedModel | main_flux.py:65-79 | training reads the verified Flux model; it reads clip_l, t5xxl and ae as given; its output name is `<session>_flux_dreambooth` |
| Concept.FormatArg | concept.py:109-116 | an f-string of an argument left out is "None", and of a given one is its text |
| Concept.TrainSdxl | concept.py:84-118 | nothing when `accelerate` is not found; otherwise exactly one launch |
| Concept.ScriptReadsArguments | concept.py:26-116 | the training script reads the pretrained model, which is the argparse default when the flag is left out, and every other argument as its text |
| Concept.CommandLength | concept.py:92-116 | the command has 25 tokens, with the twelve launcher tokens right after "launch" |

## Left out

- Processes are not really started, polled, slept on or killed. `subprocess.Popen`, `psutil` and `time.sleep` are replaced by a process table and a sequence of poll answers. Races between a poll and a kill are not modelled, and neither is the operating system re-parenting the children of an exited process.
- `psutil.NoSuchProcess` and the other exceptions caught in `terminate_subprocesses` are not modelled. The table's processes cannot vanish between the poll and the kill.
- Supervisor.IsFinishedTraining requires that some poll eventually reports an exit. A process that never exits, where the source loops forever, is not modelled.
- `execute_cmd`'s log line for a command that exits at once is not modelled. The same goes for the output streaming of `concept.py`'s `execute_cmd`.
- Reading flags back uses exact option names. argparse's own parser, which a downstream script uses, also accepts any unique prefix of an option, accepts `--key=value`, rejects unknown or ambiguous options, and refuses a value that starts with "-" unless it looks like a negative number or contains a space. Under that parser a settings key such as `model_tu` (SdxlMain.ReservedPrefixEmitted) would set `model_tuned`. The lemmas below hold for the exact-name reader only.
- The lemmas below also require SwitchesMatch: every key the script takes as a bare switch is set to True, and no other key is. A document outside that, such as `"sdxl": false` for a switch, or a switch key given a string value, yields a command the reader cannot read in full. With `[("sdxl", "--model_org"), ("junk", True)]` and the switches `sdxl` and `junk`, `model_org` even reads back as `--junk`. The real script would reject such a command line; none of these lemmas says anything about it.
- Launcher.ScriptReadsFixed: keeps the fixed paths under the exact-name reader only, and for a document meeting SwitchesMatch; an abbreviated settings key is not excluded.
- SdxlMain.ExtractSettings: holds under the exact-name reader only, and for a document meeting SwitchesMatch; see the line on abbreviations.
- SdxlMain.MergeSettings: holds under the exact-name reader only, and for a document meeting SwitchesMatch; see the line on abbreviations.
- SdxlMain.TrainFeedsExtract: holds under the exact-name reader only, and for a document meeting SwitchesMatch; see the line on abbreviations.
- SdxlMain.ExtractFeedsMerge: holds under the exact-name reader only, and for a document meeting SwitchesMatch; see the line on abbreviations.
- SdxlMain.MergeFeedsUpload: holds under the exact-name reader only, and for a document meeting SwitchesMatch; see the line on abbreviations.
- SdxlEarly.ExtractReadsTrainOutput: holds under the exact-name reader only, and for a document meeting SwitchesMatch; see the line on abbreviations.
- Launcher.ReadConfigFlags: requires the target script's switches to be exactly the keys set to True. A False value for a switch is emitted as `--key False`, which the script cannot read (Launcher.FalseSwitchUnreadable).
- An exception raised outside the upload's `try` ends the script at once. Examples are a bad or missing zip file, a missing settings file, or `Popen` failing to start a command. After such an exception no later stage runs and nothing is uploaded. The traces below assume no exception escapes before the upload.
- SdxlMain.MainSdxl: its trace assumes no exception escapes a stage.
- SdxlMain.AfterCheckRuns: assumes no exception escapes a stage before the last launch.
- SdxlMain.StagesRunInOrder: assumes no exception escapes a stage; after one, the later stages do not run.
- SdxlMain.LaunchesIffGateOpen: assumes no exception escapes before the first launch: neither unpacking the zip (main_sdxl.py:178), nor loading the training settings (main_sdxl.py:123-124, called at 192), nor, when training returned early, loading the extraction settings (main_sdxl.py:223-224).
- SdxlMain.AfterCheckUploadIsLast: assumes no exception escapes before the upload; after one, nothing is uploaded.
- SdxlMain.UploadIsLast: assumes no exception escapes before the upload; after one, nothing is uploaded.
- SdxlEarly.RunScript: its trace assumes no exception escapes a stage.
- SdxlEarly.StagesRun: assumes no exception escapes training; after one, extraction does not run.
- FluxMain.TrainsIffVerified: assumes no exception escapes before the first launch: neither unpacking the zip, nor loading the training settings (main_sdxl.py:123-124, called at main_flux.py:60), nor starting the command.
- Nothing checks a stage's exit status. This matches the source: a failed stage does not stop the next one.
- Logging (`rich`, the log file) and Slack notifications carry no behaviour the pipeline depends on, so they are not modelled.
- Reading JSON and YAML and writing TOML are not modelled; the input is the parsed document and the output is a `WriteToml` effect holding the cleaned document. Parse failures and a YAML file that is not a mapping are not modelled either.
- Reading and extracting the zip file are not modelled; the stage records an `ExtractZip` effect.
- `tempfile` names are not modelled; they are inputs.
- `HfApi.upload_file` is reduced to an `Upload` effect. Whatever it raises is caught in the source, so the model has no failure path for it.
- What the trainer reads from the translated config file is not modelled. Settings are stated only for the overrides, which follow the config file and take precedence over it.
- Floats, lists and nested mappings are carried as their `str()` text, because floating-point rendering is not modelled.
- `Path.joinpath` is plain concatenation with "/", without normalisation.
- Concept.CommandLength is an example whose proof needs no steps.
- `setup_parser` is not modelled, because argparse itself is not part of this model. Arguments arrive already parsed. The argparse default of `concept.py` is the one exception.
- The Modal, Replicate, Cog and sandbox deployment files (`deploy_modal.py`, `deploy_modal_inference.py`, `deploy_replicate.py`, `modal_train_deploy.py`, `predict.py`, `predict-new.py`, `predict_config.py`, `sandbox.py`) are not part of this model.
- `sys.exit()` with no argument is modelled as `Exit(0)`, following the code. A failed gate therefore ends the process with status 0, not with an error status.
