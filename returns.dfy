/**
 * Discounted returns of a rollout (generate_and_process_batch in
 * projects/minigrid/training.py).
 *
 * A batch is a grid of `steps` rows, one column per parallel environment.
 * The rewards are turned into returns in place by a reverse scan that
 * bootstraps each step from the next one unless the episode ended there.
 */
module Returns {
  import opened Rewards

  /** Every row of `a` has as many entries as the matching row of `b`. */
  predicate SameShape(a: seq<seq<real>>, b: seq<seq<real>>)
  {
    |a| == |b| && forall k :: 0 <= k < |a| ==> |a[k]| == |b[k]|
  }

  /** All rows of `a` have the same width (one entry per environment). */
  predicate Rectangular(a: seq<seq<real>>)
  {
    forall j, k :: 0 <= j < |a| && 0 <= k < |a| ==> |a[j]| == |a[k]|
  }

  /** The rewards and done flags of one batch have the same (steps x envs) shape. */
  predicate Batch(rewards: seq<seq<real>>, dones: seq<seq<real>>)
  {
    SameShape(rewards, dones) && Rectangular(rewards)
  }

  /** One step of the scan: `returns[k] + discount * returns[k+1] * (1 - dones[k])`, per environment. */
  function Bootstrap(reward: seq<real>, next: seq<real>, done: seq<real>, discount: real): (row: seq<real>)
    requires |next| == |reward| && |done| == |reward|
    ensures |row| == |reward|
  {
    seq(|reward|, e requires 0 <= e < |reward| => reward[e] + discount * next[e] * (1.0 - done[e]))
  }

  /**
   * The returns the reverse scan produces, defined from the front: the last
   * step keeps its reward and every earlier step bootstraps from the returns
   * of the steps after it.
   */
  function DiscountedReturns(rewards: seq<seq<real>>, dones: seq<seq<real>>, discount: real): (r: seq<seq<real>>)
    requires Batch(rewards, dones)
    ensures SameShape(r, rewards)
    decreases |rewards|
  {
    if |rewards| <= 1 then rewards
    else
      var later := DiscountedReturns(rewards[1..], dones[1..], discount);
      [Bootstrap(rewards[0], later[0], dones[0], discount)] + later
  }

  /** The last step's return is its reward: the scan never writes index len-1. */
  lemma {:induction false} LastReturnIsReward(rewards: seq<seq<real>>, dones: seq<seq<real>>, discount: real)
    requires Batch(rewards, dones) && |rewards| > 0
    ensures DiscountedReturns(rewards, dones, discount)[|rewards| - 1] == rewards[|rewards| - 1]
  {
    if |rewards| > 1 {
      LastReturnIsReward(rewards[1..], dones[1..], discount);
    }
  }

  /** Every earlier step satisfies the recurrence of the scan. */
  lemma {:induction false} ReturnRecurrence(rewards: seq<seq<real>>, dones: seq<seq<real>>, discount: real, k: nat)
    requires Batch(rewards, dones) && k + 1 < |rewards|
    ensures var r := DiscountedReturns(rewards, dones, discount);
      r[k] == Bootstrap(rewards[k], r[k + 1], dones[k], discount)
  {
    if k > 0 {
      ReturnRecurrence(rewards[1..], dones[1..], discount, k - 1);
    }
  }

  /**
   * No bootstrapping across an episode end: where an environment is done at
   * step k, its return at k is exactly its reward at k.
   */
  lemma NoBootstrapAcrossDone(rewards: seq<seq<real>>, dones: seq<seq<real>>, discount: real, k: nat, e: nat)
    requires Batch(rewards, dones) && k < |rewards| && e < |rewards[k]|
    requires dones[k][e] == 1.0
    ensures DiscountedReturns(rewards, dones, discount)[k][e] == rewards[k][e]
  {
    if k + 1 < |rewards| {
      ReturnRecurrence(rewards, dones, discount, k);
    } else {
      LastReturnIsReward(rewards, dones, discount);
    }
  }

  /** No entry of the grid is negative. */
  predicate NonNegative(a: seq<seq<real>>)
  {
    forall k, e :: 0 <= k < |a| && 0 <= e < |a[k]| ==> 0.0 <= a[k][e]
  }

  /** No done flag exceeds 1. */
  predicate AtMostOne(a: seq<seq<real>>)
  {
    forall k, e :: 0 <= k < |a| && 0 <= e < |a[k]| ==> a[k][e] <= 1.0
  }

  /**
   * With a discount of at least 0, done flags of at most 1 and non-negative
   * rewards (moe_reward_fn, biased_moe_reward_fn), every return is
   * non-negative.
   */
  lemma {:induction false} ReturnsNonNegative(rewards: seq<seq<real>>, dones: seq<seq<real>>, discount: real)
    requires Batch(rewards, dones) && 0.0 <= discount
    requires NonNegative(rewards) && AtMostOne(dones)
    ensures NonNegative(DiscountedReturns(rewards, dones, discount))
  {
    if |rewards| > 1 {
      var later := DiscountedReturns(rewards[1..], dones[1..], discount);
      assert NonNegative(rewards[1..]) && AtMostOne(dones[1..]);
      ReturnsNonNegative(rewards[1..], dones[1..], discount);
      assert |later[0]| == |rewards[1]| == |rewards[0]|;
      forall e | 0 <= e < |rewards[0]|
        ensures 0.0 <= discount * later[0][e] * (1.0 - dones[0][e])
      {
        assert 0.0 <= later[0][e];
        ProductNonNegative(discount, later[0][e], 1.0 - dones[0][e]);
      }
      var r := DiscountedReturns(rewards, dones, discount);
      assert r[1..] == later;
    }
  }

  lemma ProductNonNegative(a: real, b: real, c: real)
    requires 0.0 <= a && 0.0 <= b && 0.0 <= c
    ensures 0.0 <= a * b * c
  {
  }

  /**
   * The in-place reverse scan: `for k in reversed(range(len - 1))`,
   * `returns[k] += discount * returns[k + 1] * (1 - dones[k])`.
   */
  method DiscountReturns(rets: array<seq<real>>, dones: seq<seq<real>>, discount: real)
    requires Batch(rets[..], dones)
    modifies rets
    ensures rets[..] == DiscountedReturns(old(rets[..]), dones, discount)
  {
    var n := rets.Length;
    if n == 0 {
      return;
    }
    ghost var rewards := rets[..];
    ghost var target := DiscountedReturns(rewards, dones, discount);
    LastReturnIsReward(rewards, dones, discount);
    var k := n - 1;
    while k > 0
      invariant 0 <= k < n
      invariant forall j :: k <= j < n ==> rets[j] == target[j]
      invariant forall j :: 0 <= j < k ==> rets[j] == rewards[j]
    {
      k := k - 1;
      ReturnRecurrence(rewards, dones, discount, k);
      rets[k] := Bootstrap(rets[k], rets[k + 1], dones[k], discount);
    }
    assert rets[..] == target;
  }

  /** The reward of every step of a rollout, `reward_fn(infos) * 1.0`. */
  function RewardRows(fn: RewardFn, infos: seq<Info>): (rows: seq<seq<real>>)
    requires forall k :: 0 <= k < |infos| ==> infos[k].WellFormed()
    ensures |rows| == |infos|
    ensures forall k :: 0 <= k < |rows| ==> |rows[k]| == infos[k].Size()
  {
    seq(|infos|, k requires 0 <= k < |infos| => RewardValues(fn, infos[k]))
  }

  /** A rollout: per step, the info of every environment and their done flags. */
  predicate Rollout(infos: seq<Info>, dones: seq<seq<real>>)
  {
    |dones| == |infos| &&
    (forall k :: 0 <= k < |infos| ==> infos[k].WellFormed() && infos[k].Size() == |dones[k]|) &&
    (forall j, k :: 0 <= j < |infos| && 0 <= k < |infos| ==> infos[j].Size() == infos[k].Size())
  }

  /**
   * generate_and_process_batch after the rollout: the rewards of the chosen
   * reward function, turned into returns by the reverse scan.  The last step
   * keeps its reward, and so does every step where its environment is done.
   */
  method ProcessBatch(fn: RewardFn, infos: seq<Info>, dones: seq<seq<real>>, discount: real)
    returns (batchReturns: seq<seq<real>>)
    requires Rollout(infos, dones)
    ensures batchReturns == DiscountedReturns(RewardRows(fn, infos), dones, discount)
    ensures forall k, e :: 0 <= k < |batchReturns| && 0 <= e < |batchReturns[k]| && dones[k][e] == 1.0 ==>
      batchReturns[k][e] == RewardValues(fn, infos[k])[e]
  {
    ghost var rewards := RewardRows(fn, infos);
    var buffer := new seq<real>[|infos|](k requires 0 <= k < |infos| => RewardValues(fn, infos[k]));
    assert buffer[..] == rewards;
    DiscountReturns(buffer, dones, discount);
    batchReturns := buffer[..];
    forall k, e | 0 <= k < |batchReturns| && 0 <= e < |batchReturns[k]| && dones[k][e] == 1.0
      ensures batchReturns[k][e] == RewardValues(fn, infos[k])[e]
    {
      NoBootstrapAcrossDone(rewards, dones, discount, k, e);
    }
  }
}
