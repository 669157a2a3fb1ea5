/**
 * Latent masking: the threshold step that turns per-dimension KL values into
 * a boolean mask, and the application of a mask to a batch of latents.
 */
module Masks {
  import opened Tensors

  /** A boolean vector with one entry per latent dimension. */
  type Mask = seq<bool>

  /** Elementwise product of two boolean tensors of the same length. */
  function MaskAnd(x: Mask, y: Mask): (r: Mask)
    requires |x| == |y|
    ensures |r| == |x| && forall j :: 0 <= j < |x| ==> (r[j] <==> x[j] && y[j])
  {
    seq(|x|, j requires 0 <= j < |x| => x[j] && y[j])
  }

  /** KL values below the noise floor `lam1` are set to zero. */
  function NoiseFloored(alphas: seq<real>, lam1: real): (r: seq<real>)
    ensures |r| == |alphas|
    ensures forall j :: 0 <= j < |r| ==> r[j] == 0.0 || r[j] == alphas[j]
    ensures forall j :: 0 <= j < |r| ==> (r[j] == alphas[j] <==> lam1 <= alphas[j] || alphas[j] == 0.0)
  {
    seq(|alphas|, j requires 0 <= j < |alphas| => if alphas[j] < lam1 then 0.0 else alphas[j])
  }

  /**
   * The threshold part of latent masking, with the per-dimension KL
   * divergences `alphas` given: after the noise floor, a dimension is marked
   * exactly when its KL value is below `lam`. The floor `lam1` is a
   * parameter; latent_mask's default for it is 1e-4.
   */
  function LatentMask(alphas: seq<real>, lam: real, lam1: real): (a: Mask)
    ensures |a| == |alphas|
    ensures forall j :: 0 <= j < |alphas| ==>
      (a[j] <==> (alphas[j] < lam1 && 0.0 < lam) || (lam1 <= alphas[j] && alphas[j] < lam))
  {
    var floored := NoiseFloored(alphas, lam1);
    seq(|floored|, j requires 0 <= j < |floored| => floored[j] < lam)
  }

  /**
   * With the floor at or above the threshold, only dimensions below the floor
   * can be marked, and then only when the threshold is positive.
   */
  lemma LatentMaskFloorAboveThreshold(alphas: seq<real>, lam: real, lam1: real)
    requires lam <= lam1
    ensures forall j :: 0 <= j < |alphas| ==>
      (LatentMask(alphas, lam, lam1)[j] <==> alphas[j] < lam1 && 0.0 < lam)
  {
  }

  /** Raising the threshold can only mark more dimensions. */
  lemma LatentMaskMonotone(alphas: seq<real>, lam: real, lam': real, lam1: real)
    requires lam <= lam'
    ensures forall j :: 0 <= j < |alphas| ==>
      LatentMask(alphas, lam, lam1)[j] ==> LatentMask(alphas, lam', lam1)[j]
  {
  }

  /** 1.0 for true and 0.0 for false: a boolean tensor used as a factor. */
  function Indicator(b: bool): real
  {
    if b then 1.0 else 0.0
  }

  /**
   * `a * z + (~a) * noise`: the latent kept where the mask is set and the
   * standard-normal draw `noise` elsewhere.
   */
  function MaskLatent(a: Mask, z: Matrix, noise: Matrix): (r: Matrix)
    requires Shaped(z, |a|) && Shaped(noise, |a|) && |noise| == |z|
    ensures |r| == |z| && Shaped(r, |a|)
    ensures forall i, j :: 0 <= i < |z| && 0 <= j < |a| ==>
      r[i][j] == if a[j] then z[i][j] else noise[i][j]
  {
    seq(|z|, i requires 0 <= i < |z| =>
      seq(|a|, j requires 0 <= j < |a| => Indicator(a[j]) * z[i][j] + Indicator(!a[j]) * noise[i][j]))
  }

  /** Masking again with the same noise changes nothing. */
  lemma MaskLatentIdempotent(a: Mask, z: Matrix, noise: Matrix)
    requires Shaped(z, |a|) && Shaped(noise, |a|) && |noise| == |z|
    ensures MaskLatent(a, MaskLatent(a, z, noise), noise) == MaskLatent(a, z, noise)
  {
    var once := MaskLatent(a, z, noise);
    var twice := MaskLatent(a, once, noise);
    assert |twice| == |once|;
    forall i | 0 <= i < |once|
      ensures twice[i] == once[i]
    {
      assert |twice[i]| == |once[i]|;
    }
  }

  /** `x[:, ~a] = 0`: every column whose mask entry is false is zeroed in place. */
  method ZeroColumns(x: array2<real>, a: Mask)
    requires x.Length1 == |a|
    modifies x
    ensures forall i, j :: 0 <= i < x.Length0 && 0 <= j < x.Length1 ==>
      x[i, j] == if a[j] then old(x[i, j]) else 0.0
  {
    forall i, j | 0 <= i < x.Length0 && 0 <= j < x.Length1 && !a[j] {
      x[i, j] := 0.0;
    }
  }

  /**
   * apply_mask: returns the masked latent and zeroes, in place, the columns
   * of `mu` and `logvar` that the mask leaves out; `noise` is the
   * standard-normal draw of the shape of `z`.
   */
  method ApplyMask(a: Mask, z: Matrix, noise: Matrix, mu: array2<real>, logvar: array2<real>)
    returns (masked: Matrix)
    requires Shaped(z, |a|) && Shaped(noise, |a|) && |noise| == |z|
    requires mu.Length1 == |a| && logvar.Length1 == |a|
    modifies mu, logvar
    ensures masked == MaskLatent(a, z, noise)
    ensures forall i, j :: 0 <= i < mu.Length0 && 0 <= j < |a| ==>
      mu[i, j] == if a[j] then old(mu[i, j]) else 0.0
    ensures forall i, j :: 0 <= i < logvar.Length0 && 0 <= j < |a| ==>
      logvar[i, j] == if a[j] then old(logvar[i, j]) else 0.0
  {
    masked := MaskLatent(a, z, noise);
    ZeroColumns(mu, a);
    ZeroColumns(logvar, a);
  }
}
