/**
 * How the upscale handlers read a chunk of the external tool's stderr. Each
 * rule is applied on its own: a chunk can signal failure and an alpha
 * channel at once.
 */
module Classifier {
  import opened Strings

  datatype Signals = Signals(failure: bool, alpha: bool)

  /** The single-image and first-pass reading of a chunk. */
  function ImageSignals(chunk: string): (r: Signals)
  {
    Signals(Contains(chunk, "invalid gpu") || Contains(chunk, "failed"),
            Contains(chunk, "has alpha channel"))
  }

  /** The second double-pass reading: failure only, the alpha notice is not
      looked for. */
  function SecondPassFailure(chunk: string): bool
  {
    Contains(chunk, "invalid gpu") || Contains(chunk, "failed")
  }

  /** The batch reading: any "invalid" counts, not only "invalid gpu". */
  function FolderFailure(chunk: string): (r: bool)
  {
    Contains(chunk, "invalid") || Contains(chunk, "failed")
  }

  /** Every chunk that fails an image job fails a batch job. */
  lemma FolderFailureIsBroader(chunk: string)
    ensures ImageSignals(chunk).failure ==> FolderFailure(chunk)
  {
    if Contains(chunk, "invalid gpu") {
      assert "invalid gpu" == "invalid" + " gpu";
      ContainsPrefixOfPattern(chunk, "invalid", " gpu");
    }
  }

  /** A message naming invalid input files fails a batch job only. */
  lemma InvalidFilesFailOnlyFolders(p: string, q: string)
    requires !Contains(p + "invalid" + q, "invalid gpu") && !Contains(p + "invalid" + q, "failed")
    ensures FolderFailure(p + "invalid" + q)
    ensures !ImageSignals(p + "invalid" + q).failure
  {
    ContainsPiece(p, "invalid", q);
  }

  /** A message naming invalid input files does not fail the second pass of a
      double upscale, although the same message fails a batch job. */
  lemma InvalidDoesNotFailSecondPass(p: string, q: string)
    requires !Contains(p + "invalid" + q, "invalid gpu") && !Contains(p + "invalid" + q, "failed")
    ensures !SecondPassFailure(p + "invalid" + q)
    ensures FolderFailure(p + "invalid" + q)
  {
    ContainsPiece(p, "invalid", q);
  }

  /** Both rules fire on a chunk that carries both tokens. */
  lemma BothRulesApply(p: string, q: string, u: string)
    ensures ImageSignals(p + "failed" + q + "has alpha channel" + u) == Signals(true, true)
  {
    ContainsPiece(p, "failed", q + "has alpha channel" + u);
    assert p + "failed" + q + "has alpha channel" + u == p + "failed" + (q + "has alpha channel" + u);
    ContainsPiece(p + "failed" + q, "has alpha channel", u);
  }

  /** A bare progress percentage raises no flag. */
  lemma ProgressChunkRaisesNothing()
    ensures ImageSignals("42.5") == Signals(false, false)
  {
    NotContainsWithoutFirstChar("42.5", "invalid gpu");
    NotContainsWithoutFirstChar("42.5", "failed");
    NotContainsWithoutFirstChar("42.5", "has alpha channel");
  }

  /** A GPU load failure is a failure signal. */
  lemma GpuLoadFailureFails()
    ensures ImageSignals("failed to load gpu").failure
  {
    ContainsPiece("", "failed", " to load gpu");
    assert "" + "failed" + " to load gpu" == "failed to load gpu";
  }
}
