/**
 * The environment-inference engine as an object whose fields are updated in
 * place, as EnvInferVAE and GenReplayVAE do. Each method is tied to the
 * transition of EnvSpec, where its properties are proved.
 */
module Engine {
  import opened Wrappers
  import opened Tensors
  import opened Select
  import opened Masks
  import opened EnvSpec
  import Decoding

  datatype SampleError = NoPriorEnvironment

  class EnvEngine {
    const cfg: Config
    var weights: Weights
    var m: nat
    const envCount: array<nat>
    var recLossAvgs: seq<real>
    var latentMasks: seq<Mask>
    var usedMasks: seq<Mask>
    var oldModel: seq<Snapshot>

    /** The engine state as a value. */
    function Abs(): State
      reads this, envCount
    {
      State(m, envCount[..], recLossAvgs, latentMasks, usedMasks, oldModel)
    }

    ghost predicate Valid()
      reads this, envCount
    {
      envCount.Length == cfg.maxEnvs && WellFormed(cfg, Abs())
    }

    /**
     * A new model: m is 0, every count is 0 and no environment is recorded.
     * With max_envs = 0 the first infer_env call would index an empty count
     * table, so at least one environment slot is required.
     */
    constructor (latents: nat, maxEnvs: nat, lam: real, kappa: real, tau: real, usedEpochs: nat,
                 usedLr: real, usedDelta: real, replay: bool, w: Weights)
      requires maxEnvs > 0
      ensures cfg == Config(latents, maxEnvs, lam, kappa, tau, usedEpochs, usedLr, usedDelta, replay)
      ensures weights == w && fresh(envCount)
      ensures Valid() && Abs() == Fresh(maxEnvs)
    {
      cfg := Config(latents, maxEnvs, lam, kappa, tau, usedEpochs, usedLr, usedDelta, replay);
      weights := w;
      m := 0;
      envCount := new nat[maxEnvs](_ => 0);
      recLossAvgs, latentMasks, usedMasks := [], [], [];
      oldModel := [];
      new;
      assert envCount[..] == seq(maxEnvs, _ => 0);
    }

    /**
     * init_env (with the replay override when `cfg.replay`): replace the
     * snapshot when m > 0, add the batch to environment m's count and append
     * one record.
     */
    method InitEnv(batchSize: nat, a: Mask, u: Mask, avg: real)
      requires envCount.Length == cfg.maxEnvs && m < cfg.maxEnvs
      modifies this, envCount
      ensures weights == old(weights)
      ensures Abs() == EnvSpec.InitEnv(cfg, weights, old(Abs()), batchSize, a, u, avg)
    {
      if cfg.replay && m > 0 {
        oldModel := [Replica(cfg, weights, m - 1)];
      }
      envCount[m] := envCount[m] + batchSize;
      latentMasks := latentMasks + [a];
      usedMasks := usedMasks + [u];
      recLossAvgs := recLossAvgs + [avg];
    }

    /**
     * infer_env given the summed reconstruction loss of the batch under each
     * environment `0..m` (`losses`), the informative mask `a` and the used
     * mask `u`; returns the environment index the batch is assigned to.
     */
    method InferEnv(losses: seq<real>, a: Mask, u: Mask, batchSize: nat) returns (envIdx: nat)
      requires Valid()
      requires |losses| == m + 1 && batchSize > 0 && |a| == cfg.latents && |u| == cfg.latents
      modifies this, envCount
      ensures Valid() && weights == old(weights)
      ensures (Abs(), envIdx) == EnvSpec.InferEnv(cfg, weights, old(Abs()), losses, a, u, batchSize)
      ensures envIdx <= m < cfg.maxEnvs && |recLossAvgs| == m + 1
      ensures envIdx < envCount.Length && envCount[..] == old(envCount[..])[envIdx := old(envCount[envIdx]) + batchSize]
    {
      ghost var st := Abs();
      envIdx := Step(losses, a, u, batchSize);
      InferEnvWellFormed(cfg, weights, st, losses, a, u, batchSize);
      CountsOfReturnedEnv(cfg, weights, st, losses, a, u, batchSize);
    }

    /**
     * The decision chain of infer_env, on the state as it stands: the first
     * batch seeds environment 0; otherwise, with `k` the best-fitting
     * environment, a new environment is created when the batch is anomalous
     * for `k` or the masks disagree and there is room, and `k` absorbs the
     * batch otherwise.
     */
    method Step(losses: seq<real>, a: Mask, u: Mask, batchSize: nat) returns (envIdx: nat)
      requires envCount.Length == cfg.maxEnvs
      requires CallOk(cfg, Abs(), losses, a, u, batchSize)
      modifies this, envCount
      ensures weights == old(weights)
      ensures (Abs(), envIdx) == EnvSpec.InferEnv(cfg, weights, old(Abs()), losses, a, u, batchSize)
    {
      var k := FirstArgmin(losses);
      var recLoss := losses[k];
      var avg := recLoss / batchSize as real;
      ghost var d := Decide(cfg, Abs(), losses, a, u, batchSize);
      if envCount[0] == 0 {
        assert d == FirstEnv;
        InitEnv(batchSize, a, u, avg);
        envIdx := m;
      } else if avg > cfg.kappa * recLossAvgs[k] && m < cfg.maxEnvs - 1 {
        assert d == NewAnomalous;
        envIdx := NewEnv(batchSize, a, u, avg);
      } else if MaskAnd(a, usedMasks[k]) != MaskAnd(latentMasks[k], u) && m < cfg.maxEnvs - 1 {
        assert d == NewMismatch;
        envIdx := NewEnv(batchSize, a, u, avg);
      } else {
        assert d == Update;
        Absorb(k, batchSize, recLoss);
        envIdx := k;
      }
    }

    /** The update branch of infer_env: environment `k` absorbs the batch. */
    method Absorb(k: nat, batchSize: nat, recLoss: real)
      requires k < envCount.Length && k < |recLossAvgs|
      modifies envCount, this`recLossAvgs
      ensures envCount[..] == old(envCount[..])[k := old(envCount[k]) + batchSize]
      ensures recLossAvgs == old(recLossAvgs)[k := recLoss]
    {
      envCount[k] := envCount[k] + batchSize;
      recLossAvgs := recLossAvgs[k := recLoss];
    }

    /** The shared body of the two creation branches of infer_env: `m += 1`, then init_env. */
    method NewEnv(batchSize: nat, a: Mask, u: Mask, avg: real) returns (envIdx: nat)
      requires envCount.Length == cfg.maxEnvs && m + 1 < cfg.maxEnvs
      modifies this, envCount
      ensures weights == old(weights) && envIdx == m == old(m) + 1
      ensures Abs() == EnvSpec.InitEnv(cfg, weights, old(Abs()).(m := old(m) + 1), batchSize, a, u, avg)
    {
      m := m + 1;
      InitEnv(batchSize, a, u, avg);
      envIdx := m;
    }

    /**
     * sample (replay variant only): fails when m is 0; otherwise the
     * snapshot's decoder input for latent noise `noise` and raw environment
     * draws `draws`, every index lying in 0..m - 1.
     */
    method Sample(noise: Matrix, draws: seq<nat>) returns (r: Result<Matrix, SampleError>)
      requires Valid() && cfg.replay && |noise| == |draws|
      ensures r.Err? <==> m == 0
      ensures r.Ok? ==> |oldModel| == 1 && Valid() && Ok(r.value) == GenerateSamples(oldModel[0], noise, draws)
      ensures r.Ok? ==> |r.value| == |noise| && forall i :: 0 <= i < |noise| ==>
        |noise[i]| <= |r.value[i]| && Decoding.HotIndex(r.value[i][|noise[i]|..]) < m
    {
      if m == 0 {
        return Err(NoPriorEnvironment);
      }
      var samples := GenerateSamples(oldModel[0], noise, draws);
      r := Ok(samples.value);
    }
  }
}
