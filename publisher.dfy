/**
 * Publishing the final weights to the Hugging Face Hub: an upload happens
 * only when a token was given, and a failed upload is logged, never raised.
 */
module Publisher {
  import opened Values
  import opened Stage

  /** The Hub repository every upload goes to. */
  const REPLICATE_REPO_ID := "notkenski/apothecary-dev"

  /**
   * `upload_to_huggingface(model_path, log, train_args)`, and the same block
   * inlined at the end of the SDXL pipeline: one upload of the file under its
   * own name when `--upload` carries a token, nothing otherwise. The upload is
   * the last thing attempted, and whatever it raises is caught, so the trace
   * goes on after it either way.
   */
  function UploadToHuggingface(modelPath: string, upload: Option<string>): (effects: seq<Effect>)
    ensures |effects| <= 1
    ensures effects == [] <==> upload.None?
    ensures forall e :: e in effects ==>
              e.Upload? && e.request.token == upload.value && e.request.localPath == modelPath
              && e.request.repoId == REPLICATE_REPO_ID
  {
    match upload
    case None => []
    case Some(token) =>
      [Upload(UploadRequest(token, modelPath, BaseName(modelPath), REPLICATE_REPO_ID))]
  }

  /** A file `dir/name` lands in the repository as `name`. */
  lemma UploadKeepsFileName(dir: string, name: string, token: string)
    requires '/' !in name
    ensures UploadToHuggingface(Join(dir, name), Some(token))
         == [Upload(UploadRequest(token, Join(dir, name), name, REPLICATE_REPO_ID))]
  {
    BaseNameOfJoin(dir, name);
  }
}
