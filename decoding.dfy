/**
 * What the decoders and the environment-inference net do around their
 * black-box layers: conditioning the latent on a one-hot environment code,
 * and turning a batch of environment distributions into one index per sample.
 */
module Decoding {
  import opened Wrappers
  import opened Tensors
  import opened Select

  /** `torch.ones(n) * k`: environment index `k` for each of `n` samples. */
  function EnvColumn(n: nat, k: nat): (s: seq<nat>)
    ensures |s| == n && forall i :: 0 <= i < n ==> s[i] == k
  {
    seq(n, _ => k)
  }

  /** The one-hot code of class `k` among `n` classes. */
  function OneHot(k: nat, n: nat): (r: seq<real>)
    requires k < n
    ensures |r| == n && r[k] == 1.0
    ensures forall j :: 0 <= j < n && j != k ==> r[j] == 0.0
  {
    seq(n, j requires 0 <= j < n => if j == k then 1.0 else 0.0)
  }

  /** Position of the first 1.0 in `r`, or `|r|` when there is none. */
  function HotIndex(r: seq<real>): (k: nat)
    ensures k <= |r|
  {
    if |r| == 0 then 0
    else if r[0] == 1.0 then 0
    else 1 + HotIndex(r[1..])
  }

  /** Reading a one-hot code back gives the class it encodes. */
  lemma {:induction false} OneHotRoundTrip(k: nat, n: nat)
    requires k < n
    ensures HotIndex(OneHot(k, n)) == k
  {
    if k > 0 {
      assert OneHot(k, n)[1..] == OneHot(k - 1, n - 1);
      OneHotRoundTrip(k - 1, n - 1);
    }
  }

  datatype DecodeError =
    | ClassOutOfRange   // an environment index is not below the number of classes
    | BatchMismatch     // the index vector and the latent batch differ in length

  /**
   * The decoders' input: the latent batch `z` itself when no environment is
   * given, otherwise each row followed by the one-hot code of its
   * environment index over `maxEnvs` classes.
   */
  function DecoderInput(z: Matrix, s: Option<seq<nat>>, maxEnvs: nat): (r: Result<Matrix, DecodeError>)
    ensures s.None? ==> r == Ok(z)
    ensures s.Some? && (exists i :: 0 <= i < |s.value| && s.value[i] >= maxEnvs) ==> r == Err(ClassOutOfRange)
    ensures s.Some? && (forall i :: 0 <= i < |s.value| ==> s.value[i] < maxEnvs) && |s.value| != |z| ==>
      r == Err(BatchMismatch)
    ensures s.Some? && |s.value| == |z| && (forall i :: 0 <= i < |s.value| ==> s.value[i] < maxEnvs) ==> r.Ok?
    ensures r.Ok? ==> |r.value| == |z| && forall i :: 0 <= i < |z| ==> |r.value[i]| == |z[i]| + (if s.Some? then maxEnvs else 0)
  {
    match s
    case None => Ok(z)
    case Some(envs) =>
      if exists i :: 0 <= i < |envs| && envs[i] >= maxEnvs then Err(ClassOutOfRange)
      else if |envs| != |z| then Err(BatchMismatch)
      else Ok(seq(|z|, i requires 0 <= i < |z| => z[i] + OneHot(envs[i], maxEnvs)))
  }

  /**
   * A conditioned decoder input keeps each latent row unchanged as its prefix
   * and carries that row's environment index, recoverable from the suffix.
   */
  lemma DecoderInputRecoversEnv(z: Matrix, envs: seq<nat>, maxEnvs: nat, i: nat)
    requires DecoderInput(z, Some(envs), maxEnvs).Ok?
    requires i < |z|
    ensures |envs| == |z| && envs[i] < maxEnvs
    ensures DecoderInput(z, Some(envs), maxEnvs).value[i] == z[i] + OneHot(envs[i], maxEnvs)
    ensures var row := DecoderInput(z, Some(envs), maxEnvs).value[i];
      row[..|z[i]|] == z[i] && HotIndex(row[|z[i]|..]) == envs[i]
  {
    var row := DecoderInput(z, Some(envs), maxEnvs).value[i];
    assert row == z[i] + OneHot(envs[i], maxEnvs);
    assert row[|z[i]|..] == OneHot(envs[i], maxEnvs);
    OneHotRoundTrip(envs[i], maxEnvs);
  }

  /** Sum of column `j` over all rows of `d`. */
  function ColumnSum(d: Matrix, j: nat): real
    requires forall i :: 0 <= i < |d| ==> j < |d[i]|
  {
    if |d| == 0 then 0.0 else ColumnSum(d[..|d| - 1], j) + d[|d| - 1][j]
  }

  /** The batch mean of a batch of `width`-wide distributions. */
  function BatchMean(d: Matrix, width: nat): (mean: seq<real>)
    requires |d| > 0 && Shaped(d, width)
    ensures |mean| == width
    ensures forall j :: 0 <= j < width ==> mean[j] * |d| as real == ColumnSum(d, j)
  {
    seq(width, j requires 0 <= j < width => ColumnSum(d, j) / |d| as real)
  }

  /** Dividing by the same positive number keeps the order of two reals. */
  lemma DivPreservesOrder(x: real, y: real, n: real)
    requires n > 0.0
    ensures x / n <= y / n <==> x <= y
    ensures x / n < y / n <==> x < y
  {
  }

  /** `k` is the first column of `d` with the largest column sum. */
  predicate IsFirstLargestColumn(d: Matrix, width: nat, k: nat)
    requires Shaped(d, width)
  {
    k < width &&
    (forall j :: 0 <= j < width ==> ColumnSum(d, j) <= ColumnSum(d, k)) &&
    (forall j :: 0 <= j < k ==> ColumnSum(d, j) < ColumnSum(d, k))
  }

  /** The first argmax of the batch mean is the first column of largest sum. */
  lemma ArgmaxOfMean(d: Matrix, width: nat)
    requires |d| > 0 && width > 0 && Shaped(d, width)
    ensures IsFirstLargestColumn(d, width, FirstArgmax(BatchMean(d, width)))
  {
    var mean := BatchMean(d, width);
    var k := FirstArgmax(mean);
    var n := |d| as real;
    forall j | 0 <= j < width
      ensures ColumnSum(d, j) <= ColumnSum(d, k)
      ensures j < k ==> ColumnSum(d, j) < ColumnSum(d, k)
    {
      assert mean[j] == ColumnSum(d, j) / n && mean[k] == ColumnSum(d, k) / n;
      DivPreservesOrder(ColumnSum(d, j), ColumnSum(d, k), n);
    }
  }

  datatype IdxError =
    | NoEnvironments    // the argmax of an empty mean vector is undefined

  /**
   * env_dist_to_idx: the first environment of largest batch-mean probability,
   * repeated once per sample of the batch. Zero-width distributions have an
   * empty mean, whose argmax fails.
   */
  function EnvDistToIdx(envDist: Matrix, width: nat): (r: Result<seq<nat>, IdxError>)
    requires Shaped(envDist, width)
    ensures r.Err? <==> width == 0
    ensures r.Ok? ==> |r.value| == |envDist|
    ensures r.Ok? ==> forall i :: 0 <= i < |r.value| ==> IsFirstLargestColumn(envDist, width, r.value[i])
  {
    if width == 0 then Err(NoEnvironments)
    else if |envDist| == 0 then Ok([])
    else
      var k := FirstArgmax(BatchMean(envDist, width));
      ArgmaxOfMean(envDist, width);
      Ok(EnvColumn(|envDist|, k))
  }
}
