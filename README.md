# Environment inference of the VASE models, in Dafny

This project models the bookkeeping at the centre of `EnvInferVAE` and
`GenReplayVAE` in `vase/core/models.py`. It covers how a batch is assigned to
an environment, when a new environment is created, and what the replay
snapshot holds. It also models the small tensor helpers around it: the
threshold step of latent masking, `apply_mask`, the one-hot conditioning of
the decoders and `env_dist_to_idx`.

The neural networks are black boxes, so their outputs become inputs:

- the summed reconstruction loss of the batch under each environment `0..m` (`losses`);
- the used mask `u` from `used_latents`;
- the informative mask `a` from `latent_mask`;
- the per-dimension KL values `alphas` inside `latent_mask`;
- the standard-normal draws and the raw `randint` draws.

Losses, KL values and thresholds are `real`. They are compared, divided by
the batch size, and multiplied by `kappa` in the anomaly test.

Layout:

- `wrappers.dfy`: `Option` and `Result` (module `Wrappers`), plus `Matrix` and `Shaped` (module `Tensors`).
- `select.dfy` (`Select`): the first argmin and first argmax, the tie-breaking of `torch.argmin` and `torch.argmax`.
- `masks.dfy` (`Masks`): the `latent_mask` threshold, the masked latent, and `apply_mask`, which zeroes `mu` and `logvar` columns in place on `array2` values.
- `decoding.dfy` (`Decoding`): the one-hot concatenation in `Decoder.forward` and `FCDecoder.forward` (the same code at lines 114-116 and 148-150), and `env_dist_to_idx`.
- `env_spec.dfy` (`EnvSpec`): a value model of the engine state and one `infer_env` call as a pure transition. The `init_env` of both classes, `copy_self`, the invariant the engine keeps and every property, proved as lemmas.
- `engine.dfy` (`Engine`): class `EnvEngine`. It has the fields of the source (`m`, the fixed-size `envCount` array, the three record lists, `oldModel`). Its `InitEnv`, `InferEnv` and `Sample` change or read them in place. `InferEnv` delegates the `if`/`elif` chain to `Step`, then establishes the invariant from the `EnvSpec` lemmas. Each method's `ensures` ties the new state to the `EnvSpec` transition. `GenReplayVAE` is `EnvEngine` with `cfg.replay` set; its `init_env` override is the snapshot step of `InitEnv`.
- `scenarios.dfy` (`Scenarios`): client methods, checked by the verifier, that call the engine on concrete batches. They cover three batches with `max_envs = 3` and `kappa = 2`, the overwrite of the stored loss, and sampling before and after a second environment exists.

Points where the code's behaviour is easy to misread, all modelled as written:

- `latent_mask` sets `a = alphas < lam` (vase/core/models.py:200). So `a[j]` holds for a dimension of *small* KL. `apply_mask` keeps `z` there and puts noise in the other dimensions (line 206).
- With `lam > 0`, a KL value below the floor `lam_1` is still marked. Line 198 sets it to 0, and line 200 then marks it because `0 < lam` (`Masks.LatentMaskFloorAboveThreshold`).
- The update branch overwrites `rec_loss_avgs[env_idx]` with the batch's summed loss `rec_loss` (line 310). A new environment stores the per-sample average instead. So after one update, the anomaly test compares a per-sample average against batch size times an earlier average (`Scenarios.OverwriteHidesDrift`).
- `copy_self` builds a new plain `EnvInferVAE` and loads only `state_dict()`, which holds the weights (lines 380-382). The copy gets fresh counts and empty records, `m` pinned to the given value, and the default `Tau`, `used_epochs`, `used_lr` and `used_delta`, because those are not passed on (`EnvSpec.Replica`). A copy pinned above 0 is therefore not a consistent engine (`EnvSpec.ReplicaInconsistent`).
- The first batch is recognised by `env_count[0] == 0` (line 294), with `m` starting at 0.

## Model

| member | source | states |
|---|---|---|
| `Select.FirstArgmin` | vase/core/models.py:284 | the result is an index of the losses holding the minimum, and every earlier index holds a strictly larger value (stable argmin) |
| `Select.FirstArgminUnique` | vase/core/models.py:284 | an index has the stable-argmin property exactly when it is the one `FirstArgmin` returns |
| `Select.FirstArgmax` | vase/core/models.py:83 | the result holds the maximum, and every earlier index holds a strictly smaller value |
| `Masks.MaskAnd` | vase/core/models.py:302 | the elementwise product of two boolean masks: entry `j` holds iff it holds in both |
| `Masks.NoiseFloored` | vase/core/models.py:198 | each KL value either stays or becomes 0; it stays exactly when it is at or above the floor, or already 0 |
| `Masks.LatentMask` | vase/core/models.py:198-200 | the mask has one entry per dimension; `a[j]` holds iff `alpha[j]` is below the floor `lam_1` and `lam > 0`, or `lam_1 <= alpha[j] < lam` |
| `Masks.LatentMaskFloorAboveThreshold` | vase/core/models.py:198-200 | when `lam <= lam_1`, only dimensions below the floor are marked, and only if `lam > 0` |
| `Masks.LatentMaskMonotone` | vase/core/models.py:198-200 | raising `lam` marks a superset of the dimensions |
| `Masks.MaskLatent` | vase/core/models.py:205-206 | the masked latent keeps the shape of `z`, equals `z` in every column where `a` holds, and equals the noise elsewhere |
| `Masks.MaskLatentIdempotent` | vase/core/models.py:206 | masking a masked latent again with the same noise changes nothing |
| `Masks.ZeroColumns` | vase/core/models.py:207-208 | every entry of a column whose mask entry is false becomes 0; the other entries are unchanged |
| `Masks.ApplyMask` | vase/core/models.py:204-209 | returns the masked latent; `mu` and `logvar` become 0 in every row of the unmasked columns and are unchanged in the masked columns |
| `Decoding.EnvColumn` | vase/core/models.py:280 | `torch.ones(batch_size) * s_i`: one entry per sample, each equal to the given index |
| `Decoding.OneHot` | vase/core/models.py:115 | the code of class `k` among `n` has length `n`, a 1 at position `k` and 0 everywhere else |
| `Decoding.OneHotRoundTrip` | vase/core/models.py:115 | reading the one-hot code of `k` back gives `k` |
| `Decoding.DecoderInput` | vase/core/models.py:114-116 | without indices the latent passes unchanged; with indices it fails when an index is not below `max_envs`, fails when the batch sizes differ, and otherwise succeeds, each row growing by `max_envs` columns |
| `Decoding.DecoderInputRecoversEnv` | vase/core/models.py:148-150 | on success, each row is its latent row followed by the one-hot code of its environment index, and that code block decodes back to the index |
| `Decoding.BatchMean` | vase/core/models.py:82 | one mean per column; each mean times the batch size is that column's sum |
| `Decoding.ArgmaxOfMean` | vase/core/models.py:82-83 | the argmax of the batch mean is the first column with the largest column sum |
| `Decoding.EnvDistToIdx` | vase/core/models.py:79-84 | fails exactly when the distributions have width 0 (the argmax of an empty mean); otherwise one index per sample, each the first environment whose summed (so also mean) probability over the batch is largest |
| `EnvSpec.Replica` | vase/core/models.py:379-383 | the snapshot holds the live weights and `m = pinned`; it has no records, all counts are 0, no snapshot of its own, replay off and default inner-loop hyperparameters |
| `EnvSpec.ReplicaInconsistent` | vase/core/models.py:379-383 | a snapshot pinned above 0 violates the engine invariant |
| `EnvSpec.PinnedSnapshotStaysFirstBatch` | vase/core/models.py:294-296 | a snapshot pinned above 0 has `env_count[0] == 0`, and the first-batch `init_env` on it leaves `env_count[0]` at 0, adds the batch to `env_count[pinned]`, keeps `m` pinned and holds one record |
| `EnvSpec.FreshWellFormed` | vase/core/models.py:237-249 | a newly built engine (m = 0, zero counts, empty lists) satisfies the invariant |
| `EnvSpec.InitEnv` | vase/core/models.py:337-341 | `m` is unchanged, environment m's count grows by the batch size and no other count changes, each list gains the batch's record at its end; with replay and m > 0 the snapshot slot holds one replica of the current weights pinned to m - 1 (lines 372-377), otherwise it is untouched |
| `EnvSpec.InitEnvRecords` | vase/core/models.py:337-341 | on a state with records for `0..m - 1` and none for m, `init_env` yields a state that keeps the invariant with m + 1 records |
| `EnvSpec.Decide` | vase/core/models.py:294-307 | the first-batch branch is taken exactly when nothing is recorded; a creation branch is taken only when something is recorded and `m < max_envs - 1` |
| `EnvSpec.InferEnv` | vase/core/models.py:284-311 | the returned index is at most the new m, m grows by at most one, and the count table keeps its size |
| `EnvSpec.DecideCases` | vase/core/models.py:294-311 | the first-environment branch is taken iff nothing is recorded; the update branch is taken iff something is recorded and either capacity is exhausted or neither the loss test nor the mask test fires |
| `EnvSpec.FirstCall` | vase/core/models.py:294-296 | on the first call the index is 0, m stays 0, `env_count[0]` is the batch size, and each list holds exactly the batch's mask, used mask and average loss |
| `EnvSpec.SelectsStableArgmin` | vase/core/models.py:278-311 | when no environment is created the returned index is the stable argmin of the losses; otherwise it is `m + 1` |
| `EnvSpec.CreatesEnvironment` | vase/core/models.py:297-306 | an anomalous loss or a mask mismatch below capacity raises m by one, appends one record to each list, sets only the new environment's count to the batch size, and returns the new m |
| `EnvSpec.AtCapacity` | vase/core/models.py:297-311 | at `m = max_envs - 1` the update branch is taken whatever the tests say: no environment is created, m and the list lengths are unchanged, and the stable argmin is returned |
| `EnvSpec.UpdateChangesOnlyMatched` | vase/core/models.py:307-311 | in the update branch only the matched count (plus batch size) and the matched stored loss change; the stored loss becomes the summed loss, batch size times the average; m, the masks and the snapshot are unchanged |
| `EnvSpec.InferEnvWellFormed` | vase/core/models.py:273-311 | every call keeps the invariant; afterwards the three lists have m + 1 entries, m is below `max_envs`, and the returned index is at most m |
| `EnvSpec.UpdateWellFormed` | vase/core/models.py:307-311 | after the update branch the invariant holds, the lists have m + 1 entries and the returned index is at most m |
| `EnvSpec.CreateWellFormed` | vase/core/models.py:294-306 | after the first-batch branch or a creation branch the invariant holds, the lists have m + 1 entries and the returned index is at most m |
| `EnvSpec.UpdateKeepsRecords` | vase/core/models.py:309-310 | raising a recorded environment's count and overwriting its stored loss keeps the invariant |
| `EnvSpec.CountsOfReturnedEnv` | vase/core/models.py:309 | exactly one count changes, that of the returned index, and it grows by the batch size; so no count ever decreases |
| `EnvSpec.SnapshotOnCreation` | vase/core/models.py:372-377 | with replay, a call that creates an environment leaves exactly one snapshot of the current weights, pinned to the m before the call (the new m minus one); any other call leaves the snapshot slot unchanged |
| `EnvSpec.DecodesUnderKnownEnv` | vase/core/models.py:279-282 | decoding the batch under any environment `0..m` succeeds, and each row carries that environment's code |
| `EnvSpec.InRange` | vase/core/models.py:348 | a raw draw reduced into `0..bound - 1` lies in that range, and a draw already in range is kept |
| `EnvSpec.SampleEnvs` | vase/core/models.py:348 | one environment per draw, each in `0..m` of the snapshot, and every such index can be drawn |
| `EnvSpec.GenerateSamples` | vase/core/models.py:346-350 | when the snapshot's m is below its `max_envs`, conditioning succeeds; each decoder-input row starts with its noise row, and its code block decodes to an index at most the snapshot's m |
| `Engine.EnvEngine.constructor` | vase/core/models.py:233-252 | a new engine satisfies the invariant with m = 0, zero counts, empty records and no snapshot |
| `Engine.EnvEngine.InitEnv` | vase/core/models.py:337-341 | the new state is the `init_env` transition of `EnvInferVAE` (lines 337-341) and `GenReplayVAE` (lines 372-377): the snapshot is replaced when replay is on and m > 0, environment m's count grows by the batch size, and one record is appended |
| `Engine.EnvEngine.Absorb` | vase/core/models.py:309-310 | the matched environment's count grows by the batch size and its stored loss becomes the batch's summed loss; nothing else in the table or list changes |
| `Engine.EnvEngine.NewEnv` | vase/core/models.py:299-300 | `m` grows by one, the returned index is the new m, and the new state is `init_env` applied with that m (the same two lines recur at 304-305) |
| `Engine.EnvEngine.Step` | vase/core/models.py:284-311 | on any state the call accepts, the new state and the returned index are those of the `infer_env` transition: first batch, anomalous batch, mask mismatch, or update of the best-fitting environment |
| `Engine.EnvEngine.InferEnv` | vase/core/models.py:273-311 | the new state and the returned index are those of the `infer_env` transition; the invariant holds; the index is at most m; only the returned environment's count grows, by the batch size |
| `Engine.EnvEngine.Sample` | vase/core/models.py:361-365 | fails exactly when m = 0; otherwise it returns the snapshot's decoder input, whose environment codes all lie below m |

## Left out

- The encoder, decoder and environment-inference network bodies (convolutions, linear layers, softmax) are numeric black boxes. Only the one-hot concatenation and the argmax around them are modelled.
- `used_latents` is an SGD loop over float tensors with autograd and a deep copy of the decoder. Its result `u` is an input.
- The decoding loop of `infer_env` only produces the losses, which are an input. The model keeps what the loop guarantees: one loss per environment `0..m`, and decoding under each of those indices succeeds.
- The mean, standard deviation and log in `latent_mask`, and `kl_div_stdnorm`, are float numerics. The KL values are an input.
- `reparam`, the train/eval switch, `torch.randn` and `torch.randint` are randomness. Noise tensors are inputs, and a `randint` draw is an arbitrary natural reduced into its range.
- `rec_likelihood`, `kl_div_stdnorm`, `disable_gradient` and `enable_gradient` live in `vase/core/utils.py`; vase/core/utils.py is not part of this model.
- `forward`, `generate_samples` and `sample` chain the networks around the bookkeeping. `Engine.EnvEngine.Sample` and `EnvSpec.GenerateSamples` stop at the decoder's input.
- `forward_halu` (vase/core/models.py:367-370) is not modelled. It calls the snapshot's own `forward`, so `infer_env` runs on the snapshot and changes the snapshot's state. A snapshot pinned above 0 keeps `env_count[0] == 0`, so every such call takes the first-batch branch, adds to `env_count[pinned]` and grows its lists by one record (`EnvSpec.PinnedSnapshotStaysFirstBatch` shows one such step). A snapshot pinned at 0 can create environments and raise its own `m`, after which `sample` can draw indices at or above the live `m`.
- `EnvSpec.SnapshotPinned` and `Engine.EnvEngine.Sample`: the snapshot stays as `copy_self` left it, and the sampled codes lie below `m`, only in runs where `forward_halu` is never called.
- `Engine.EnvEngine.Sample`: returns the snapshot decoder's input, not the decoded images.
- `VanillaVAE`, `PaperVanillaVAE`, `FCVAE` and `LatentMaskVAE` are constructors and forward passes over the networks.
- The `print` diagnostics (new environment, masks did not match, no latent used) are advisory output.
- Device handling, `torch.no_grad`, gradient freezing of the snapshot and `DATA_PATH` are not modelled.
- Float effects are not modelled: NaN, infinities, rounding, and how the library's argmin and argmax treat NaN. Reals are exact.
- Training changes the weights from outside the engine. The `weights` field is assignable and opaque; the bookkeeping only copies it into a snapshot.
- `EnvEngine` needs `max_envs > 0`. With `max_envs = 0` the first `infer_env` call already fails in its decoding loop: `F.one_hot` (line 115, reached from line 282) rejects index 0 for zero classes.
- `InferEnv` needs `batch_size > 0`, since the average divides by the batch size.
- `InferEnv` needs masks of length `latents`, the shape the mask producers give.
- The unused arguments are not modelled: `increment` of `sample`, and `max_environments` of `env_dist_to_idx`. The model's `width` is the distribution's width, taken from the tensor.
