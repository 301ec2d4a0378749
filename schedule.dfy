/**
 * The bookkeeping of the training loop (train in
 * projects/minigrid/training.py): the environment-step counter and the
 * schedule that decides after which updates the sub-policies are evaluated
 * and the policy is visualised.  The rollout, loss and optimiser step of each
 * update are not part of this module.
 */
module TrainLoop {

  /**
   * `update_idx % freq == 0 or update_idx == num_learning_updates - 1`: a
   * periodic action also runs after the last update.
   */
  predicate Scheduled(updateIdx: nat, numUpdates: nat, freq: int)
    requires freq != 0
  {
    updateIdx % freq == 0 || updateIdx == numUpdates - 1
  }

  /** The first and the last update are always scheduled, whatever the period. */
  lemma FirstAndLastScheduled(numUpdates: nat, freq: int)
    requires numUpdates > 0 && freq != 0
    ensures Scheduled(0, numUpdates, freq) && Scheduled(numUpdates - 1, numUpdates, freq)
  {
  }

  /** The update indices a periodic action ran after, in increasing order. */
  predicate Increasing(updates: seq<nat>)
  {
    forall i, j :: 0 <= i < j < |updates| ==> updates[i] < updates[j]
  }

  /**
   * The updates of the loop, in order: after update `u` the step counter has
   * grown by `steps_per_learning_update * n_envs` once per update so far, and
   * `evalUpdates` / `logUpdates` list, in increasing order, the updates after
   * which evaluation and visualisation run.  A zero period makes the source
   * divide by zero at the first update, hence the precondition.
   */
  method TrainingSchedule(stepsPerUpdate: int, nEnvs: int, numUpdates: nat, evalFreq: int, policyLogFreq: int)
    returns (globalSteps: seq<int>, evalUpdates: seq<nat>, logUpdates: seq<nat>)
    requires numUpdates > 0 ==> evalFreq != 0 && policyLogFreq != 0
    ensures |globalSteps| == numUpdates
    ensures forall u :: 0 <= u < numUpdates ==> globalSteps[u] == (u + 1) * stepsPerUpdate * nEnvs
    ensures numUpdates > 0 ==>
      (forall u: nat :: u in evalUpdates <==> u < numUpdates && Scheduled(u, numUpdates, evalFreq)) &&
      (forall u: nat :: u in logUpdates <==> u < numUpdates && Scheduled(u, numUpdates, policyLogFreq))
    ensures numUpdates == 0 ==> evalUpdates == [] && logUpdates == []
    ensures Increasing(evalUpdates) && Increasing(logUpdates)
  {
    globalSteps, evalUpdates, logUpdates := [], [], [];
    if numUpdates == 0 {
      return;
    }
    var globalStep := 0;
    for updateIdx := 0 to numUpdates
      invariant |globalSteps| == updateIdx
      invariant globalStep == updateIdx * (stepsPerUpdate * nEnvs)
      invariant forall u :: 0 <= u < updateIdx ==> globalSteps[u] == (u + 1) * stepsPerUpdate * nEnvs
      invariant forall u: nat :: u in evalUpdates <==> u < updateIdx && Scheduled(u, numUpdates, evalFreq)
      invariant forall u: nat :: u in logUpdates <==> u < updateIdx && Scheduled(u, numUpdates, policyLogFreq)
      invariant Increasing(evalUpdates) && Increasing(logUpdates)
      invariant forall i :: 0 <= i < |evalUpdates| ==> evalUpdates[i] < updateIdx
      invariant forall i :: 0 <= i < |logUpdates| ==> logUpdates[i] < updateIdx
    {
      globalStep := globalStep + stepsPerUpdate * nEnvs;
      globalSteps := globalSteps + [globalStep];
      if Scheduled(updateIdx, numUpdates, evalFreq) {
        evalUpdates := evalUpdates + [updateIdx];
      }
      if Scheduled(updateIdx, numUpdates, policyLogFreq) {
        logUpdates := logUpdates + [updateIdx];
      }
    }
  }
}
