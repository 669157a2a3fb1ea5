/** Clients of the engine: what callers can conclude from its contracts alone. */
module Scenarios {
  import opened EnvSpec
  import opened Engine
  import Decoding

  /**
   * With max_envs = 3 and kappa = 2, a first batch creates environment 0, a
   * second batch with the same average loss and the same masks updates it,
   * and a third batch whose average loss exceeds twice the stored value
   * creates environment 1.
   */
  method ThreeBatches(w: Weights)
  {
    var e := new EnvEngine(2, 3, 0.1, 2.0, 2.0, 100, 0.01, 0.95, false, w);
    var a := [true, true];
    var u := [true, true];
    ghost var s0 := e.Abs();
    var first := e.InferEnv([4.0], a, u, 4);
    FirstCall(e.cfg, w, s0, [4.0], a, u, 4);
    assert first == 0 && e.envCount[0] == 4 && e.recLossAvgs == [1.0];
    ghost var s1 := e.Abs();
    var second := e.InferEnv([4.0], a, u, 4);
    assert Decide(e.cfg, s1, [4.0], a, u, 4) == Update;
    UpdateChangesOnlyMatched(e.cfg, w, s1, [4.0], a, u, 4);
    assert second == 0 && e.m == 0 && e.envCount[0] == 8;
    assert e.recLossAvgs == [4.0];
    ghost var s2 := e.Abs();
    var third := e.InferEnv([40.0], a, u, 4);
    CreatesEnvironment(e.cfg, w, s2, [40.0], a, u, 4);
    assert third == 1 && e.m == 1 && e.envCount[1] == 4;
  }

  /**
   * Because the update branch stores the batch's summed loss, a later batch is
   * compared against batch size times the earlier average: here a batch four
   * times as costly per sample as the first two is still absorbed.
   */
  method OverwriteHidesDrift(w: Weights)
  {
    var e := new EnvEngine(2, 3, 0.1, 2.0, 2.0, 100, 0.01, 0.95, false, w);
    var a := [true, true];
    var u := [true, true];
    var first := e.InferEnv([4.0], a, u, 4);
    var second := e.InferEnv([4.0], a, u, 4);
    assert e.recLossAvgs == [4.0];
    var third := e.InferEnv([16.0], a, u, 4);
    assert third == 0 && e.m == 0 && e.envCount[0] == 12;
  }

  /**
   * Replay: sampling fails before a second environment exists; once the
   * second is created, the snapshot is pinned to environment 0 and every
   * sampled environment index is 0.
   */
  method ReplayAfterSecondEnv(w: Weights)
  {
    var e := new EnvEngine(2, 3, 0.1, 2.0, 2.0, 100, 0.01, 0.95, true, w);
    var a := [true, true];
    var u := [true, true];
    var first := e.InferEnv([4.0], a, u, 4);
    var early := e.Sample([[0.0]], [5]);
    assert early.Err?;
    var second := e.InferEnv([40.0], a, u, 4);
    assert second == 1 && e.oldModel[0].state.m == 0 && e.oldModel[0].weights == w;
    var late := e.Sample([[0.0]], [5]);
    assert late.Ok? && Decoding.HotIndex(late.value[0][1..]) == 0;
  }
}
