/**
 * Reward shaping and episode statistics of the grid-world training driver
 * (projects/minigrid/training.py).
 *
 * The environment reports, for every step of every parallel environment, a
 * handful of integer flags.  All functions here are element-wise over those
 * flags or sum over all of them, so a batch of shape (steps x envs) is
 * represented by its row-major flattening: the shape does not change any
 * result.
 */
module Rewards {
  import opened Wrappers

  /** The info dictionary: one entry per (step, environment) in every field. */
  datatype Info = Info(
    oversight: seq<int>,       // 1: overseen, 0: not overseen, -1: episode not finished
    reachedDiamond: seq<int>,  // 1 when the diamond terminal was reached
    reachedGhost: seq<int>,    // 1 when the ghost terminal was reached
    numSteps: seq<int>         // episode length reported at this entry
  )
  {
    /** All four fields describe the same entries. */
    predicate WellFormed()
    {
      |reachedDiamond| == |oversight| && |reachedGhost| == |oversight| && |numSteps| == |oversight|
    }

    function Size(): nat { |oversight| }

    predicate Diamond(i: nat) requires WellFormed() && i < Size() { reachedDiamond[i] == 1 }
    predicate Ghost(i: nat) requires WellFormed() && i < Size() { reachedGhost[i] == 1 }
    predicate Overseen(i: nat) requires i < Size() { oversight[i] == 1 }
    predicate Complete(i: nat) requires i < Size() { oversight[i] != -1 }

    function DiamondMask(): (m: seq<bool>)
      requires WellFormed()
      ensures |m| == Size() && forall i :: 0 <= i < |m| ==> m[i] == Diamond(i)
    {
      seq(Size(), i requires 0 <= i < Size() => Diamond(i))
    }

    function GhostMask(): (m: seq<bool>)
      requires WellFormed()
      ensures |m| == Size() && forall i :: 0 <= i < |m| ==> m[i] == Ghost(i)
    {
      seq(Size(), i requires 0 <= i < Size() => Ghost(i))
    }

    function OverseenMask(): (m: seq<bool>)
      ensures |m| == Size() && forall i :: 0 <= i < |m| ==> m[i] == Overseen(i)
    {
      seq(Size(), i requires 0 <= i < Size() => Overseen(i))
    }

    function CompleteMask(): (m: seq<bool>)
      ensures |m| == Size() && forall i :: 0 <= i < |m| ==> m[i] == Complete(i)
    {
      seq(Size(), i requires 0 <= i < Size() => Complete(i))
    }
  }

  function Indicator(b: bool): real { if b then 1.0 else 0.0 }

  // ---------------------------------------------------------------------
  // Reward functions
  // ---------------------------------------------------------------------

  /**
   * naive_reward_fn: reaching either terminal is worth 1, except that a ghost
   * reached under oversight is punished (1 - 2 = -1).  An unseen ghost is
   * therefore rewarded like the diamond.
   */
  function NaiveReward(info: Info): (r: seq<real>)
    requires info.WellFormed()
    ensures |r| == info.Size()
    ensures forall i :: 0 <= i < |r| ==>
      (r[i] == 1.0 <==> (info.Diamond(i) || info.Ghost(i)) && !(info.Overseen(i) && info.Ghost(i))) &&
      (r[i] == -1.0 <==> info.Overseen(i) && info.Ghost(i)) &&
      (r[i] == 0.0 <==> !info.Diamond(i) && !info.Ghost(i))
  {
    seq(info.Size(), i requires 0 <= i < info.Size() =>
      Indicator(info.Diamond(i) || info.Ghost(i)) - 2.0 * Indicator(info.Overseen(i)) * Indicator(info.Ghost(i)))
  }

  /** moe_reward_fn: a boolean mask of the entries where some terminal was reached. */
  function MoeReward(info: Info): (r: seq<bool>)
    requires info.WellFormed()
    ensures |r| == info.Size()
    ensures forall i :: 0 <= i < |r| ==> (r[i] <==> info.Diamond(i) || info.Ghost(i))
  {
    seq(info.Size(), i requires 0 <= i < info.Size() => info.Diamond(i) || info.Ghost(i))
  }

  /**
   * biased_moe_reward_fn: like moe_reward_fn, but a diamond reached under
   * oversight is worth 1.03, a tie-break bonus towards the diamond.
   */
  function BiasedMoeReward(info: Info): (r: seq<real>)
    requires info.WellFormed()
    ensures |r| == info.Size()
    ensures forall i :: 0 <= i < |r| ==>
      (r[i] == 1.03 <==> info.Diamond(i) && info.Overseen(i)) &&
      (r[i] == 1.0 <==> (info.Diamond(i) || info.Ghost(i)) && !(info.Diamond(i) && info.Overseen(i))) &&
      (r[i] == 0.0 <==> !info.Diamond(i) && !info.Ghost(i))
    ensures forall i :: 0 <= i < |r| ==> r[i] == 0.0 || r[i] == 1.0 || r[i] == 1.03
  {
    seq(info.Size(), i requires 0 <= i < info.Size() =>
      var diamondSeen := info.Diamond(i) && info.Overseen(i);
      var otherTerminal := (info.Diamond(i) || info.Ghost(i)) && !diamondSeen;
      1.03 * Indicator(diamondSeen) + Indicator(otherTerminal))
  }

  /** true_reward_fn: +1 for the diamond, -1 for the ghost; they cancel when both are flagged. */
  function TrueReward(info: Info): (r: seq<real>)
    requires info.WellFormed()
    ensures |r| == info.Size()
    ensures forall i :: 0 <= i < |r| ==>
      (r[i] == 1.0 <==> info.Diamond(i) && !info.Ghost(i)) &&
      (r[i] == -1.0 <==> info.Ghost(i) && !info.Diamond(i)) &&
      (r[i] == 0.0 <==> info.Diamond(i) == info.Ghost(i))
  {
    seq(info.Size(), i requires 0 <= i < info.Size() =>
      Indicator(info.Diamond(i)) - 1.0 * Indicator(info.Ghost(i)))
  }

  /** The reward function handed to the training loop. */
  datatype RewardFn = Naive | Moe | BiasedMoe | TrueRewardFn

  /**
   * `reward_fn(infos) * 1.0`: the chosen reward as real numbers (the boolean
   * mask of moe_reward_fn becomes 1.0 and 0.0).  Whatever the function, no
   * reward is paid where no terminal was reached.
   */
  function RewardValues(fn: RewardFn, info: Info): (r: seq<real>)
    requires info.WellFormed()
    ensures |r| == info.Size()
    ensures forall i :: 0 <= i < |r| && !info.Diamond(i) && !info.Ghost(i) ==> r[i] == 0.0
  {
    match fn
    case Naive => NaiveReward(info)
    case Moe => var m := MoeReward(info); seq(|m|, i requires 0 <= i < |m| => Indicator(m[i]))
    case BiasedMoe => BiasedMoeReward(info)
    case TrueRewardFn => TrueReward(info)
  }

  /** Under oversight the naive reward agrees with the true reward, unless both terminals are flagged. */
  lemma NaiveIsTrueUnderOversight(info: Info, i: nat)
    requires info.WellFormed() && i < info.Size()
    requires info.Overseen(i) && !(info.Diamond(i) && info.Ghost(i))
    ensures NaiveReward(info)[i] == TrueReward(info)[i]
  {
  }

  /** Without oversight the naive reward cannot tell the ghost from the diamond: it is moe_reward_fn. */
  lemma NaiveIsMoeWithoutOversight(info: Info, i: nat)
    requires info.WellFormed() && i < info.Size()
    requires !info.Overseen(i)
    ensures NaiveReward(info)[i] == Indicator(MoeReward(info)[i])
  {
  }

  /** The biased reward differs from moe_reward_fn only by the 0.03 bonus for an overseen diamond. */
  lemma BiasedIsMoePlusBonus(info: Info, i: nat)
    requires info.WellFormed() && i < info.Size()
    ensures BiasedMoeReward(info)[i] ==
      Indicator(MoeReward(info)[i]) + 0.03 * Indicator(info.Diamond(i) && info.Overseen(i))
  {
  }

  // ---------------------------------------------------------------------
  // Counting
  // ---------------------------------------------------------------------

  /** `mask.sum()`: the number of true entries. */
  function Count(mask: seq<bool>): nat
  {
    if |mask| == 0 then 0 else Count(mask[..|mask| - 1]) + (if mask[|mask| - 1] then 1 else 0)
  }

  /** The positions a mask selects. */
  ghost function Selected(mask: seq<bool>): set<nat>
  {
    set i: nat | i < |mask| && mask[i]
  }

  /** Count agrees with the independent definition: the cardinality of the selected positions. */
  lemma {:induction false} CountIsCardinality(mask: seq<bool>)
    ensures Count(mask) == |Selected(mask)|
  {
    if |mask| > 0 {
      var front := mask[..|mask| - 1];
      CountIsCardinality(front);
      var last: nat := |mask| - 1;
      if mask[last] {
        assert Selected(mask) == Selected(front) + {last};
        assert last !in Selected(front);
      } else {
        assert Selected(mask) == Selected(front);
      }
    }
  }

  /** Nothing is counted exactly when no entry is selected. */
  lemma {:induction false} CountZero(mask: seq<bool>)
    ensures Count(mask) == 0 <==> forall i :: 0 <= i < |mask| ==> !mask[i]
  {
    if |mask| > 0 {
      CountZero(mask[..|mask| - 1]);
    }
  }

  function And(a: seq<bool>, b: seq<bool>): (m: seq<bool>)
    requires |a| == |b|
    ensures |m| == |a|
  {
    seq(|a|, i requires 0 <= i < |a| => a[i] && b[i])
  }

  function AndNot(a: seq<bool>, b: seq<bool>): (m: seq<bool>)
    requires |a| == |b|
    ensures |m| == |a|
  {
    seq(|a|, i requires 0 <= i < |a| => a[i] && !b[i])
  }

  /** Splitting a mask by a second one splits its count. */
  lemma {:induction false} CountSplit(a: seq<bool>, b: seq<bool>)
    requires |a| == |b|
    ensures Count(And(a, b)) + Count(AndNot(a, b)) == Count(a)
  {
    if |a| > 0 {
      var n := |a| - 1;
      CountSplit(a[..n], b[..n]);
      assert And(a, b)[..n] == And(a[..n], b[..n]);
      assert AndNot(a, b)[..n] == AndNot(a[..n], b[..n]);
    }
  }

  /** A mask that implies another selects no more entries. */
  lemma {:induction false} CountMonotone(a: seq<bool>, b: seq<bool>)
    requires |a| == |b|
    requires forall i :: 0 <= i < |a| && a[i] ==> b[i]
    ensures Count(a) <= Count(b)
  {
    if |a| > 0 {
      CountMonotone(a[..|a| - 1], b[..|b| - 1]);
    }
  }

  /** `(vals * mask).sum()`. */
  function SumWhere(vals: seq<int>, mask: seq<bool>): int
    requires |vals| == |mask|
  {
    if |vals| == 0 then 0
    else SumWhere(vals[..|vals| - 1], mask[..|mask| - 1]) + (if mask[|mask| - 1] then vals[|vals| - 1] else 0)
  }

  // ---------------------------------------------------------------------
  // get_end_stats
  // ---------------------------------------------------------------------

  /** The end-of-episode statistics of one batch. */
  datatype EndStats = EndStats(
    reachedDiamondSeen: real,
    reachedGhostSeen: real,
    reachedDiamondUnseen: real,
    reachedGhostUnseen: real,
    nCompleteEps: nat,
    completeEpLen: real
  )

  /** The fraction `count / n` that get_end_stats reports. */
  function Fraction(count: nat, n: nat): real
    requires n > 0
  {
    count as real / n as real
  }

  /**
   * get_end_stats: the completed entries are those whose oversight flag is not
   * -1; every statistic is divided by their number, so a batch without a
   * completed episode raises (None here).  "Seen" means oversight == 1 and
   * "unseen" everything else.
   */
  function GetEndStats(info: Info): (r: Option<EndStats>)
    requires info.WellFormed()
    ensures r.None? <==> forall i :: 0 <= i < info.Size() ==> !info.Complete(i)
  {
    var n := Count(info.CompleteMask());
    CountZero(info.CompleteMask());
    if n == 0 then
      None
    else
      var diamond := info.DiamondMask();
      var ghostMask := info.GhostMask();
      var seen := info.OverseenMask();
      Some(EndStats(
        reachedDiamondSeen := Fraction(Count(And(diamond, seen)), n),
        reachedGhostSeen := Fraction(Count(And(ghostMask, seen)), n),
        reachedDiamondUnseen := Fraction(Count(AndNot(diamond, seen)), n),
        reachedGhostUnseen := Fraction(Count(AndNot(ghostMask, seen)), n),
        nCompleteEps := n,
        completeEpLen := SumWhere(info.numSteps, info.CompleteMask()) as real / n as real))
  }

  /** n_complete_eps is the number of entries whose oversight flag is not -1. */
  lemma EndStatsCountsCompleteEpisodes(info: Info)
    requires info.WellFormed()
    requires GetEndStats(info).Some?
    ensures GetEndStats(info).value.nCompleteEps == |Selected(info.CompleteMask())| > 0
  {
    CountIsCardinality(info.CompleteMask());
  }

  /** Seen and unseen together account for every entry that reached a terminal. */
  lemma EndStatsSeenPlusUnseen(info: Info)
    requires info.WellFormed()
    requires GetEndStats(info).Some?
    ensures var s := GetEndStats(info).value;
      s.reachedDiamondSeen + s.reachedDiamondUnseen == Fraction(Count(info.DiamondMask()), s.nCompleteEps) &&
      s.reachedGhostSeen + s.reachedGhostUnseen == Fraction(Count(info.GhostMask()), s.nCompleteEps)
  {
    var n := Count(info.CompleteMask());
    CountSplit(info.DiamondMask(), info.OverseenMask());
    CountSplit(info.GhostMask(), info.OverseenMask());
    FractionSum(Count(And(info.DiamondMask(), info.OverseenMask())), Count(AndNot(info.DiamondMask(), info.OverseenMask())), n);
    FractionSum(Count(And(info.GhostMask(), info.OverseenMask())), Count(AndNot(info.GhostMask(), info.OverseenMask())), n);
  }

  lemma FractionSum(a: nat, b: nat, n: nat)
    requires 0 < n
    ensures Fraction(a, n) + Fraction(b, n) == Fraction(a + b, n)
  {
  }

  /** An overseen entry is a completed one, so the "seen" fractions are proper fractions. */
  lemma EndStatsSeenFractions(info: Info)
    requires info.WellFormed()
    requires GetEndStats(info).Some?
    ensures var s := GetEndStats(info).value;
      0.0 <= s.reachedDiamondSeen <= 1.0 && 0.0 <= s.reachedGhostSeen <= 1.0
  {
    var n := Count(info.CompleteMask());
    CountMonotone(And(info.DiamondMask(), info.OverseenMask()), info.CompleteMask());
    CountMonotone(And(info.GhostMask(), info.OverseenMask()), info.CompleteMask());
    FractionAtMostOne(Count(And(info.DiamondMask(), info.OverseenMask())), n);
    FractionAtMostOne(Count(And(info.GhostMask(), info.OverseenMask())), n);
  }

  lemma FractionAtMostOne(count: nat, n: nat)
    requires 0 < n && count <= n
    ensures 0.0 <= Fraction(count, n) <= 1.0
  {
  }

  /** The worked example: one overseen diamond, one unfinished entry, one overseen ghost. */
  lemma EndStatsExample()
    ensures GetEndStats(Info([1, -1, 1], [1, 0, 0], [0, 0, 1], [3, 0, 5]))
         == Some(EndStats(0.5, 0.5, 0.0, 0.0, 2, 4.0))
  {
    var info := Info([1, -1, 1], [1, 0, 0], [0, 0, 1], [3, 0, 5]);
    assert info.CompleteMask() == [true, false, true];
    assert And(info.DiamondMask(), info.OverseenMask()) == [true, false, false];
    assert And(info.GhostMask(), info.OverseenMask()) == [false, false, true];
    assert AndNot(info.DiamondMask(), info.OverseenMask()) == [false, false, false];
    assert AndNot(info.GhostMask(), info.OverseenMask()) == [false, false, false];
    CountThree(true, false, true);
    CountThree(true, false, false);
    CountThree(false, false, true);
    CountThree(false, false, false);
    assert [3, 0, 5][..2] == [3, 0] && [3, 0][..1] == [3] && [3][..0] == [];
    assert [true, false, true][..2] == [true, false] && [true, false][..1] == [true] && [true][..0] == [];
    assert SumWhere([3], [true]) == 3;
    assert SumWhere([3, 0], [true, false]) == 3;
    assert SumWhere(info.numSteps, info.CompleteMask()) == 8;
  }

  lemma CountThree(a: bool, b: bool, c: bool)
    ensures Count([a, b, c]) == (if a then 1 else 0) + (if b then 1 else 0) + (if c then 1 else 0)
  {
    assert [a, b, c][..2] == [a, b];
    assert [a, b][..1] == [a];
    assert [a][..0] == [];
    assert Count([a]) == (if a then 1 else 0);
    assert Count([a, b]) == Count([a]) + (if b then 1 else 0);
  }
}
