/**
 * The model verification gate run before any stage: the base weight files
 * must exist under the working directory's `models` folder. The filesystem
 * is the set of paths that exist.
 */
module ModelCheck {
  import opened Values

  /** The extension every weight file carries. */
  const SAFETENSORS := "safetensors"

  const BASE_SDXL_MODEL_NAME := "sdxl_base_1.0_0.9_vae" + "." + SAFETENSORS
  const BASE_FINE_TUNED_NAME := "epicrealism_v8" + "." + SAFETENSORS
  const BASE_FLUX_DEV_MODEL_NAME := "flux1-dev" + "." + SAFETENSORS
  const BASE_FLUX_DEV_CLIP_NAME := "clip_l" + "." + SAFETENSORS
  const BASE_FLUX_DEV_T5_NAME := "t5xxl_fp16" + "." + SAFETENSORS
  const BASE_FLUX_DEV_AE_NAME := "ae" + "." + SAFETENSORS

  /** The outcome of a check: verified, or the first path found missing (the one the log names). */
  datatype Verification = Verified | Missing(path: string)

  function ModelsDir(cwd: string): string {
    Join(cwd, "models")
  }

  function FluxModelsDir(cwd: string): string {
    Join(ModelsDir(cwd), "flux_base_models")
  }

  /** The paths the SDXL check looks at, in the order it looks at them. */
  function SdxlRequired(cwd: string): seq<string> {
    [ModelsDir(cwd),
     Join(ModelsDir(cwd), BASE_SDXL_MODEL_NAME),
     Join(ModelsDir(cwd), BASE_FINE_TUNED_NAME)]
  }

  /** The paths the Flux check looks at, in the order it looks at them. */
  function FluxRequired(cwd: string): seq<string> {
    [FluxModelsDir(cwd),
     Join(FluxModelsDir(cwd), BASE_FLUX_DEV_MODEL_NAME),
     Join(FluxModelsDir(cwd), BASE_FLUX_DEV_CLIP_NAME),
     Join(FluxModelsDir(cwd), BASE_FLUX_DEV_T5_NAME),
     Join(FluxModelsDir(cwd), BASE_FLUX_DEV_AE_NAME)]
  }

  /** The check stopped at the first of `paths` that does not exist, or found them all. */
  predicate FirstFailure(paths: seq<string>, fs: set<string>, r: Verification) {
    && (r.Verified? <==> forall i :: 0 <= i < |paths| ==> paths[i] in fs)
    && (r.Missing? ==> exists i :: 0 <= i < |paths| && paths[i] == r.path && r.path !in fs
                               && forall j :: 0 <= j < i ==> paths[j] in fs)
  }

  /** Looks at the paths in order and reports the first one that does not exist. */
  function FirstMissing(paths: seq<string>, fs: set<string>): Verification {
    if paths == [] then Verified
    else if paths[0] !in fs then Missing(paths[0])
    else FirstMissing(paths[1..], fs)
  }

  /** One step of looking: the first path, or the rest when it exists. */
  lemma FirstMissingStep(paths: seq<string>, fs: set<string>)
    requires paths != []
    ensures FirstMissing(paths, fs)
         == if paths[0] !in fs then Missing(paths[0]) else FirstMissing(paths[1..], fs)
  {
  }

  /** Looking at the paths in order reports exactly the first failure. */
  lemma {:induction false} FirstMissingIsFirstFailure(paths: seq<string>, fs: set<string>)
    ensures FirstFailure(paths, fs, FirstMissing(paths, fs))
  {
    if paths != [] && paths[0] in fs {
      var rest := paths[1..];
      FirstMissingIsFirstFailure(rest, fs);
      var r := FirstMissing(rest, fs);
      if r.Missing? {
        var i :| 0 <= i < |rest| && rest[i] == r.path && r.path !in fs
                 && forall j :: 0 <= j < i ==> rest[j] in fs;
        assert paths[i + 1] == r.path;
        assert forall j :: 0 <= j < i + 1 ==> paths[j] in fs by {
          forall j | 0 <= j < i + 1 ensures paths[j] in fs {
            if j > 0 { assert paths[j] == rest[j - 1]; }
          }
        }
      } else {
        assert forall i :: 0 <= i < |paths| ==> paths[i] in fs by {
          forall i | 0 <= i < |paths| ensures paths[i] in fs {
            if i > 0 { assert paths[i] == rest[i - 1]; }
          }
        }
      }
    } else if paths != [] {
      assert FirstFailure(paths, fs, Missing(paths[0])) by {
        assert paths[0] == Missing(paths[0]).path;
      }
    }
  }

  /** A weight file name: a stem without "/" before ".safetensors". */
  lemma WeightFileSuffix(dir: string, stem: string)
    requires stem != [] && '/' !in stem
    ensures Suffix(Join(dir, stem + "." + SAFETENSORS)) == "." + SAFETENSORS
  {
    assert '/' !in SAFETENSORS && '.' !in SAFETENSORS;
    SuffixOfJoin(dir, stem, SAFETENSORS);
  }

  /** The suffix test on the base SDXL file is always true. */
  lemma SdxlModelIsSafetensors(dir: string)
    ensures Suffix(Join(dir, BASE_SDXL_MODEL_NAME)) == "." + SAFETENSORS
  {
    WeightFileSuffix(dir, "sdxl_base_1.0_0.9_vae");
  }

  /** The suffix test on the base fine-tuned file is always true. */
  lemma FineTunedModelIsSafetensors(dir: string)
    ensures Suffix(Join(dir, BASE_FINE_TUNED_NAME)) == "." + SAFETENSORS
  {
    WeightFileSuffix(dir, "epicrealism_v8");
  }

  /** The suffix test on the Flux.1 [dev] model is always true. */
  lemma FluxModelIsSafetensors(dir: string)
    ensures Suffix(Join(dir, BASE_FLUX_DEV_MODEL_NAME)) == "." + SAFETENSORS
  {
    WeightFileSuffix(dir, "flux1-dev");
  }

  /** The suffix test on the clip_l encoder is always true. */
  lemma FluxClipIsSafetensors(dir: string)
    ensures Suffix(Join(dir, BASE_FLUX_DEV_CLIP_NAME)) == "." + SAFETENSORS
  {
    WeightFileSuffix(dir, "clip_l");
  }

  /** The suffix test on the t5 encoder is always true. */
  lemma FluxT5IsSafetensors(dir: string)
    ensures Suffix(Join(dir, BASE_FLUX_DEV_T5_NAME)) == "." + SAFETENSORS
  {
    WeightFileSuffix(dir, "t5xxl_fp16");
  }

  /** The suffix test on the autoencoder is always true. */
  lemma FluxAeIsSafetensors(dir: string)
    ensures Suffix(Join(dir, BASE_FLUX_DEV_AE_NAME)) == "." + SAFETENSORS
  {
    WeightFileSuffix(dir, "ae");
  }

  /**
   * `are_models_verified`: the models directory, then the base SDXL file, then
   * the base fine-tuned file; the first one missing fails the check. Since
   * both names end in ".safetensors", the suffix half of each test never
   * lets a missing file through.
   */
  function AreModelsVerified(fs: set<string>, cwd: string): (r: Verification)
    ensures r == FirstMissing(SdxlRequired(cwd), fs)
  {
    var dir := ModelsDir(cwd);
    var base := Join(dir, BASE_SDXL_MODEL_NAME);
    var tuned := Join(dir, BASE_FINE_TUNED_NAME);
    FirstMissingOfThree(dir, base, tuned, fs);
    SdxlModelIsSafetensors(dir);
    FineTunedModelIsSafetensors(dir);
    if dir !in fs then Missing(dir)
    else if base !in fs && Suffix(base) == "." + SAFETENSORS then Missing(base)
    else if tuned !in fs && Suffix(tuned) == "." + SAFETENSORS then Missing(tuned)
    else Verified
  }

  /** Looking at three paths in order, unrolled. */
  lemma FirstMissingOfThree(a: string, b: string, c: string, fs: set<string>)
    ensures FirstMissing([a, b, c], fs)
         == if a !in fs then Missing(a) else if b !in fs then Missing(b) else if c !in fs then Missing(c) else Verified
  {
    FirstMissingStep([a, b, c], fs);
    assert [a, b, c][1..] == [b, c];
    FirstMissingStep([b, c], fs);
    assert [b, c][1..] == [c];
    FirstMissingStep([c], fs);
  }

  /** Looking at five paths in order, unrolled. */
  lemma FirstMissingOfFive(a: string, b: string, c: string, d: string, e: string, fs: set<string>)
    ensures FirstMissing([a, b, c, d, e], fs)
         == if a !in fs then Missing(a) else if b !in fs then Missing(b) else if c !in fs then Missing(c)
            else if d !in fs then Missing(d) else if e !in fs then Missing(e) else Verified
  {
    FirstMissingStep([a, b, c, d, e], fs);
    assert [a, b, c, d, e][1..] == [b, c, d, e];
    FirstMissingStep([b, c, d, e], fs);
    assert [b, c, d, e][1..] == [c, d, e];
    FirstMissingStep([c, d, e], fs);
    assert [c, d, e][1..] == [d, e];
    FirstMissingStep([d, e], fs);
    assert [d, e][1..] == [e];
    FirstMissingStep([e], fs);
  }

  /**
   * `are_models_verified_flux`: the Flux models directory, then the model,
   * clip_l, t5 and ae files; the first one missing fails the check.
   */
  function AreModelsVerifiedFlux(fs: set<string>, cwd: string): (r: Verification)
    ensures r == FirstMissing(FluxRequired(cwd), fs)
  {
    var dir := FluxModelsDir(cwd);
    var model := Join(dir, BASE_FLUX_DEV_MODEL_NAME);
    var clip := Join(dir, BASE_FLUX_DEV_CLIP_NAME);
    var t5 := Join(dir, BASE_FLUX_DEV_T5_NAME);
    var ae := Join(dir, BASE_FLUX_DEV_AE_NAME);
    FirstMissingOfFive(dir, model, clip, t5, ae, fs);
    FluxModelIsSafetensors(dir);
    FluxClipIsSafetensors(dir);
    FluxT5IsSafetensors(dir);
    FluxAeIsSafetensors(dir);
    if dir !in fs then Missing(dir)
    else if model !in fs && Suffix(model) == "." + SAFETENSORS then Missing(model)
    else if clip !in fs && Suffix(clip) == "." + SAFETENSORS then Missing(clip)
    else if t5 !in fs && Suffix(t5) == "." + SAFETENSORS then Missing(t5)
    else if ae !in fs && Suffix(ae) == "." + SAFETENSORS then Missing(ae)
    else Verified
  }

  /** The SDXL check passes exactly when every required path exists, and otherwise names the first missing one. */
  lemma SdxlCheckIsFirstFailure(fs: set<string>, cwd: string)
    ensures FirstFailure(SdxlRequired(cwd), fs, AreModelsVerified(fs, cwd))
  {
    FirstMissingIsFirstFailure(SdxlRequired(cwd), fs);
  }

  /** The Flux check passes exactly when every required path exists, and otherwise names the first missing one. */
  lemma FluxCheckIsFirstFailure(fs: set<string>, cwd: string)
    ensures FirstFailure(FluxRequired(cwd), fs, AreModelsVerifiedFlux(fs, cwd))
  {
    FirstMissingIsFirstFailure(FluxRequired(cwd), fs);
  }

  /** With exactly one of the Flux weight files missing, the check fails and names that file. */
  lemma FluxOneMissingFails(fs: set<string>, cwd: string, k: nat)
    requires 1 <= k < 5
    requires forall i :: 0 <= i < 5 && i != k ==> FluxRequired(cwd)[i] in fs
    requires FluxRequired(cwd)[k] !in fs
    ensures AreModelsVerifiedFlux(fs, cwd) == Missing(FluxRequired(cwd)[k])
  {
    FluxCheckIsFirstFailure(fs, cwd);
    var r := AreModelsVerifiedFlux(fs, cwd);
    var paths := FluxRequired(cwd);
    assert r.Missing?;
    var i :| 0 <= i < |paths| && paths[i] == r.path && r.path !in fs
             && forall j :: 0 <= j < i ==> paths[j] in fs;
    assert i == k;
  }
}
