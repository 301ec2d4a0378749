# Reward shaping, discounted returns and a sharded token loader, in Dafny

This project models two small pieces of logic from the gradient-routing
experiments and proves properties of them.

- **The grid-world training driver** (`projects/minigrid/training.py`).
  The four reward-shaping functions map the per-step info flags
  `reached_diamond`, `reached_ghost` and `oversight` to a reward. The
  returns computation turns rewards into discounted returns with a
  reverse scan that restarts at every episode end. `get_end_stats` summarises
  the completed episodes of a batch, split by oversight. The training loop
  keeps a step counter and a schedule for evaluation and visualisation.
  The environment rollout is an input: the info flags and done flags of
  every step are given as sequences.
- **The distributed data loader** (`projects/nanoGPT-factrep/dist_dataloader.py`).
  `DistributedDataLoader` holds a read cursor `(current_shard, current_position)`
  into a list of token shards. It checks the shard sizes when it is built.
  Each batch is a window of `B*T+1` tokens, split into inputs and
  next-token targets. After each batch the cursor moves by
  `B*T*num_processes`, and it wraps round to the next shard cyclically. The
  shard files are given as their contents, `seq<seq<uint16>>`.

Modules:

| file | module | models |
|---|---|---|
| `wrappers.dfy` | `Wrappers` | `Option`/`Result`, for operations that raise |
| `rewards.dfy` | `Rewards` | the info record, the four reward functions, counting, `get_end_stats` |
| `returns.dfy` | `Returns` | the discounted-return recurrence, the in-place reverse scan, `generate_and_process_batch` after the rollout |
| `schedule.dfy` | `TrainLoop` | `global_step` and the eval/log schedule of `train` |
| `dataloader.dfy` | `DataLoader` | shard validation, the cursor arithmetic, the `DistributedDataLoader` class |

Representation choices:

- Info tensors of shape (steps x envs) are flattened row-major into
  `Info`, a record of four parallel `seq<int>`. The reward functions work
  entry by entry, and `get_end_stats` sums over every entry, so the shape
  does not affect any result. Returns keep the grid: one `seq<real>` row
  per step, one column per environment.
- All rewards, returns, discounts and fractions use Dafny's exact `real`.
- `get_end_stats` divides by the number of completed episodes. Python raises
  `ZeroDivisionError` when that number is 0; here `GetEndStats` returns
  `None` instead.
- The shard-size assertions of the loader's constructor are modelled by
  `CheckShards`, which returns `Failure(NoShards)` or
  `Failure(ShardTooSmall(i))` for the first shard that is too small. The
  class constructor requires that the check passes.
- `true_reward_fn` computes `[diamond] - 1.0*[ghost]`. When both flags are
  set, the result is `1 - 1 = 0`. Some descriptions of this function say it
  gives -1 in that case. The model follows the code.

## Model

| member | source | states |
|---|---|---|
| `Rewards.NaiveReward` | projects/minigrid/training.py:123-128 | Every entry is 1 exactly when some terminal is reached and it is not a ghost under oversight. It is -1 exactly for a ghost under oversight, and 0 exactly when no terminal is reached. |
| `Rewards.MoeReward` | projects/minigrid/training.py:131-135 | An entry is true exactly when the diamond or the ghost is reached. |
| `Rewards.BiasedMoeReward` | projects/minigrid/training.py:138-155 | An entry is 1.03 exactly for a diamond reached under oversight. It is 1 exactly for any other reached terminal, and 0 exactly when none is reached. Every entry is in {0, 1, 1.03}. |
| `Rewards.TrueReward` | projects/minigrid/training.py:158-161 | An entry is 1 exactly for the diamond alone and -1 exactly for the ghost alone. It is 0 exactly when both or neither are flagged. |
| `Rewards.RewardValues` | projects/minigrid/training.py:69 | Whichever reward function is chosen, taken as reals, no reward is paid at an entry where no terminal is reached. |
| `Rewards.NaiveIsTrueUnderOversight` | projects/minigrid/training.py:123-128 | Under oversight, the naive reward equals the true reward, unless both terminals are flagged. |
| `Rewards.NaiveIsMoeWithoutOversight` | projects/minigrid/training.py:123-135 | Without oversight, the naive reward is the MoE reward: an unseen ghost pays like the diamond. |
| `Rewards.BiasedIsMoePlusBonus` | projects/minigrid/training.py:131-155 | The biased reward is the MoE reward plus 0.03 exactly for a diamond reached under oversight. |
| `Rewards.CountIsCardinality` | projects/minigrid/training.py:96 | The `.sum()` of a boolean mask equals the number of positions it selects. |
| `Rewards.CountZero` | projects/minigrid/training.py:95-96 | The sum of a mask is 0 exactly when it selects nothing. |
| `Rewards.CountSplit` | projects/minigrid/training.py:99-104 | Counting `a*b` and `a*~b` together counts `a`. |
| `Rewards.CountMonotone` | projects/minigrid/training.py:93-99 | A mask that implies another selects no more entries than it. |
| `Rewards.GetEndStats` | projects/minigrid/training.py:90-109 | The statistics are undefined (Python raises) exactly when no entry has `oversight != -1`. |
| `Rewards.EndStatsCountsCompleteEpisodes` | projects/minigrid/training.py:95-96 | `n_complete_eps` is the number of entries with `oversight != -1`, and it is positive. |
| `Rewards.EndStatsSeenPlusUnseen` | projects/minigrid/training.py:99-105 | For each terminal, the seen fraction plus the unseen fraction equals the count of entries reaching it, divided by `n_complete_eps`. |
| `Rewards.EndStatsSeenFractions` | projects/minigrid/training.py:93-101 | The seen diamond and ghost fractions lie in [0, 1], because an overseen entry is a completed one. |
| `Rewards.EndStatsExample` | projects/minigrid/training.py:90-109 | For oversight [1,-1,1], diamond [1,0,0], ghost [0,0,1] and lengths [3,0,5]: 2 complete episodes, 0.5 diamond seen, 0.5 ghost seen, nothing unseen, mean length 4. |
| `Returns.DiscountedReturns` | projects/minigrid/training.py:69-71 | The returns have the shape of the rewards. |
| `Returns.LastReturnIsReward` | projects/minigrid/training.py:69-71 | The last step's return is its reward: the scan never writes index len-1. |
| `Returns.ReturnRecurrence` | projects/minigrid/training.py:70-71 | For every `k < len-1`, `returns[k] = reward[k] + discount*returns[k+1]*(1-dones[k])`, per environment. |
| `Returns.NoBootstrapAcrossDone` | projects/minigrid/training.py:71 | Where `dones[k] == 1`, the return at step k is exactly the reward at step k. |
| `Returns.ReturnsNonNegative` | projects/minigrid/training.py:71 | With a discount of at least 0 (asserted at line 186), done flags of at most 1 and non-negative rewards, every return is non-negative. |
| `Returns.DiscountReturns` | projects/minigrid/training.py:69-71 | The in-place reverse loop over the returns buffer leaves exactly `DiscountedReturns` of the rewards it started with. |
| `Returns.RewardRows` | projects/minigrid/training.py:69 | One reward row per step, one entry per environment. |
| `Returns.ProcessBatch` | projects/minigrid/training.py:64-87 | The processed returns are the discounted returns of the chosen reward function. Every entry whose environment is done keeps its reward. |
| `TrainLoop.FirstAndLastScheduled` | projects/minigrid/training.py:277-278 | The first and the last update are always evaluated (and visualised). |
| `TrainLoop.TrainingSchedule` | projects/minigrid/training.py:240-293 | After update u, `global_step == (u+1)*steps_per_learning_update*n_envs`. Evaluation runs exactly after the updates with `u % eval_freq == 0` or `u` last, and likewise for visualisation with `policy_log_freq`. Both lists are in increasing order. |
| `DataLoader.CheckShards` | projects/nanoGPT-factrep/dist_dataloader.py:22-32 | Validation succeeds exactly when there is a shard and every shard holds at least `num_processes*B*T+1` tokens. It then returns `ntok_total`, the sum of the shard lengths. A missing shard and the first too-small shard are reported. |
| `DataLoader.TotalTokensAtLeast` | projects/nanoGPT-factrep/dist_dataloader.py:27-32 | If every shard passes the size check, `ntok_total` is at least the number of shards times the minimum size. |
| `DataLoader.FirstWindowFits` | projects/nanoGPT-factrep/dist_dataloader.py:30 | With `process_rank < num_processes`, a rank's first window `[rank*B*T, rank*B*T + B*T + 1)` fits in every accepted shard. |
| `DataLoader.ResetInBounds` | projects/nanoGPT-factrep/dist_dataloader.py:39-44 | The cursor after `reset` is in bounds. |
| `DataLoader.AdvanceInBounds` | projects/nanoGPT-factrep/dist_dataloader.py:46-48 | The cursor after `advance` is in bounds, from any cursor. |
| `DataLoader.StepInBounds` | projects/nanoGPT-factrep/dist_dataloader.py:61-64 | `next_batch`'s cursor update keeps an in-bounds cursor in bounds. |
| `DataLoader.DistributedDataLoader.constructor` | projects/nanoGPT-factrep/dist_dataloader.py:14-37 | A loader over accepted shards keeps its configuration and `ntok_total`, starts at shard 0 at the rank's first window, and satisfies the invariant. |
| `DataLoader.DistributedDataLoader.Reset` | projects/nanoGPT-factrep/dist_dataloader.py:39-44 | After `reset`, `current_shard == 0` and `current_position == process_rank*B*T`, whatever the previous shard was. The invariant holds. |
| `DataLoader.DistributedDataLoader.Advance` | projects/nanoGPT-factrep/dist_dataloader.py:46-48 | `current_shard` becomes `(current_shard+1) % len(files)` and the position becomes `process_rank*B*T`. The invariant holds. |
| `DataLoader.DistributedDataLoader.NextBatch` | projects/nanoGPT-factrep/dist_dataloader.py:50-65 | `x` and `y` have `B*T` tokens, with `x[i] = shard[pos+i]` and `y[i] = shard[pos+i+1]`, so `y` is `x` shifted by one. Every token is below 65536. The cursor moves by `B*T*num_processes`, or to the next shard when a further window would not fit. The in-bounds invariant is preserved. |

## Left out

- The environment rollout (`play_episode`, `generate_batch`) and `eval`'s fresh environment. They call external environment and policy objects, so their info and done outputs are inputs here. `eval`'s aggregation is `GetEndStats` plus the mean of the returns, and that mean is not modelled.
- Tensor mechanics: `reshape(-1)` flattening, `.to(device)`, `view(B, T)`. The loader's `x` and `y` are the flat `B*T` sequences that `view` reshapes.
- IEEE floating-point rounding: the discount, the 1.03 bonus and the divisions of `get_end_stats` are exact reals.
- The rest of `train`: network construction, optimiser, loss, backward pass, the `loss_coefs` dispatch, seeding, timing, progress bars, GPU selection, the `discount` and `device` assertions, and all persistence (CSV, weights, PNG/GIF).
- `TrainLoop.TrainingSchedule`: the visualisation list is the schedule predicate alone; the source draws only for a routed policy network. Evaluation is recorded once per update, not once per evaluated policy.
- `TrainLoop.TrainingSchedule` requires non-zero periods when any update runs. The source raises `ZeroDivisionError` at the first update instead.
- File access in the loader: `glob`, `np.memmap` and `_peek_data_shard`. A shard is its token contents.
- `DataLoader.DistributedDataLoader.constructor` requires `process_rank < num_processes`, which the source never checks. With a larger rank, the first window can run past the shard, and `view(B, T)` then raises.
- Coordination between the loaders of different ranks: the code makes no promise that ranks stay in lockstep.
