/**
 * What a pipeline stage does to the world, as a trace of effects, and the
 * outside world it reads: the working directory, the interpreter, the
 * executable search path and the files that exist.
 */
module Stage {
  import opened Values

  /** The process environment a script sees. */
  datatype Host = Host(
    cwd: string,                   // `Path.cwd()`, the script directory
    python: string,                // `sys.executable`
    which: map<string, string>,    // what `shutil.which` finds
    fs: set<string>)               // the paths that exist

  /** The arguments of `HfApi().upload_file`. */
  datatype UploadRequest = UploadRequest(token: string, localPath: string, pathInRepo: string, repoId: string)

  /**
   * One observable step of a stage. `Run` is `execute_cmd` followed by
   * `is_finished_training` and `terminate_subprocesses`: the command is
   * launched and waited for until it exits before the next effect. The
   * terminate step then finds it exited and kills nothing, so anything it
   * spawned that is still running stays running (`ProcessTable.FinishStage`).
   */
  datatype Effect =
    | ExtractZip(archive: string, into: string)
    | WriteToml(path: string, contents: Config)
    | Run(argv: seq<string>)
    | Upload(request: UploadRequest)
    | Exit(status: int)

  /** The commands a trace launches, in order. */
  function Runs(effects: seq<Effect>): (r: seq<seq<string>>)
    ensures |r| <= |effects|
    ensures forall a :: a in r <==> Run(a) in effects
  {
    if effects == [] then []
    else (if effects[0].Run? then [effects[0].argv] else []) + Runs(effects[1..])
  }

  /** The commands of a concatenation are the commands of its parts, in order. */
  lemma {:induction false} RunsAppend(a: seq<Effect>, b: seq<Effect>)
    ensures Runs(a + b) == Runs(a) + Runs(b)
  {
    if a == [] {
      assert a + b == b;
    } else {
      assert (a + b)[1..] == a[1..] + b;
      RunsAppend(a[1..], b);
    }
  }

  /** A trace with no launches contributes no commands. */
  lemma {:induction false} RunsOfNone(effects: seq<Effect>)
    requires forall e :: e in effects ==> !e.Run?
    ensures Runs(effects) == []
  {
    if effects != [] {
      assert effects[0] in effects;
      assert forall e :: e in effects[1..] ==> e in effects;
      RunsOfNone(effects[1..]);
    }
  }

  /** Stages that end with two commands and then only non-launching effects launch those two last. */
  lemma RunsOfStages(before: seq<Effect>, first: seq<string>, second: seq<string>, after: seq<Effect>)
    requires forall e :: e in after ==> !e.Run?
    ensures Runs(before + [Run(first), Run(second)] + after) == Runs(before) + [first, second]
  {
    var mid := [Run(first), Run(second)];
    assert Runs(mid) == [first, second] by {
      assert mid[1..] == [Run(second)];
      assert [Run(second)][1..] == [];
    }
    assert Runs(before + mid) == Runs(before) + [first, second] by {
      RunsAppend(before, mid);
    }
    assert Runs(after) == [] by {
      RunsOfNone(after);
    }
    RunsAppend(before + mid, after);
  }

  /** `script_dir.joinpath("configs", "accelerate.yaml")`. */
  function AccelerateYaml(cwd: string): string {
    Join(Join(cwd, "configs"), "accelerate.yaml")
  }

  /** `script_dir.joinpath("sd_scripts", "sdxl_train.py")`. */
  function SdxlTrainScript(cwd: string): string {
    Join(Join(cwd, "sd_scripts"), "sdxl_train.py")
  }

  /** `script_dir.joinpath("sd_scripts", "networks", "extract_lora_from_models.py")`. */
  function ExtractScript(cwd: string): string {
    Join(Join(Join(cwd, "sd_scripts"), "networks"), "extract_lora_from_models.py")
  }

  /** `script_dir.joinpath("sd_scripts", "networks", "sdxl_merge_lora.py")`. */
  function MergeScript(cwd: string): string {
    Join(Join(Join(cwd, "sd_scripts"), "networks"), "sdxl_merge_lora.py")
  }

  /** The keys `extract_lora` sets itself and never takes from its config. */
  const EXTRACT_RESERVED: set<string> := {"model_org", "model_tuned", "save_to"}

  /** The keys `merge_lora` sets itself and never takes from its config. */
  const MERGE_RESERVED: set<string> := {"sd_model", "model", "save_to"}
}
