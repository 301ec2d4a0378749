/**
 * The sharded token loader of projects/nanoGPT-factrep/dist_dataloader.py.
 *
 * Each of `num_processes` ranks owns one loader.  A loader walks the shards
 * cyclically; within a shard, rank r reads windows of B*T+1 tokens starting
 * at r*B*T and moves forward by B*T*num_processes per batch, so the ranks
 * take interleaved stripes.  The shard files are given here as their token
 * contents.
 */
module DataLoader {
  import opened Wrappers

  /** Shards are stored as unsigned 16-bit tokens. */
  type uint16 = x: int | 0 <= x < 0x1_0000

  /** Why construction refuses the shards. */
  datatype LoadError =
    | NoShards                   // no file matched the pattern
    | ShardTooSmall(index: nat)  // the first shard too small to give every rank one batch

  /** Every shard must hold one batch per rank plus the one extra target token. */
  function MinShardTokens(B: nat, T: nat, numProcesses: nat): nat
  {
    numProcesses * B * T + 1
  }

  predicate ShardsFit(shards: seq<seq<uint16>>, need: nat)
  {
    forall i :: 0 <= i < |shards| ==> |shards[i]| >= need
  }

  /** The number of tokens in all shards. */
  function TotalTokens(shards: seq<seq<uint16>>): nat
  {
    if |shards| == 0 then 0 else TotalTokens(shards[..|shards| - 1]) + |shards[|shards| - 1]|
  }

  /** Shards that pass the check hold at least `need` tokens each, and so at least that many per shard in all. */
  lemma {:induction false} TotalTokensAtLeast(shards: seq<seq<uint16>>, need: nat)
    requires ShardsFit(shards, need)
    ensures TotalTokens(shards) >= |shards| * need
  {
    if |shards| > 0 {
      var front := shards[..|shards| - 1];
      TotalTokensAtLeast(front, need);
      assert |shards| * need == |front| * need + need;
    }
  }

  /**
   * The validation loop of the constructor: fail when there is no shard, or at
   * the first shard with fewer than `num_processes*B*T + 1` tokens; otherwise
   * return `ntok_total`, the number of tokens in all shards.
   */
  method CheckShards(shards: seq<seq<uint16>>, B: nat, T: nat, numProcesses: nat)
    returns (r: Result<nat, LoadError>)
    ensures r.Success? <==> |shards| > 0 && ShardsFit(shards, MinShardTokens(B, T, numProcesses))
    ensures r.Success? ==> r.value == TotalTokens(shards)
    ensures r == Failure(NoShards) <==> |shards| == 0
    ensures r.Failure? && r.error.ShardTooSmall? ==>
      r.error.index < |shards| &&
      |shards[r.error.index]| < MinShardTokens(B, T, numProcesses) &&
      ShardsFit(shards[..r.error.index], MinShardTokens(B, T, numProcesses))
  {
    if |shards| == 0 {
      return Failure(NoShards);
    }
    var need := MinShardTokens(B, T, numProcesses);
    var ntokTotal := 0;
    for i := 0 to |shards|
      invariant ntokTotal == TotalTokens(shards[..i])
      invariant ShardsFit(shards[..i], need)
    {
      var shardNtok := |shards[i]|;
      if shardNtok < need {
        return Failure(ShardTooSmall(i));
      }
      assert shards[..i + 1][..i] == shards[..i];
      ntokTotal := ntokTotal + shardNtok;
    }
    assert shards[..|shards|] == shards;
    return Success(ntokTotal);
  }

  // ---------------------------------------------------------------------
  // The read cursor
  // ---------------------------------------------------------------------

  /** `(current_shard, current_position)`. */
  datatype Cursor = Cursor(shard: nat, position: nat)

  /** The next window of B*T + 1 tokens lies inside the current shard. */
  predicate InBounds(shards: seq<seq<uint16>>, c: Cursor, B: nat, T: nat)
  {
    c.shard < |shards| && c.position + B * T + 1 <= |shards[c.shard]|
  }

  /** The configuration the constructor accepts, together with `process_rank < num_processes`. */
  predicate Accepted(shards: seq<seq<uint16>>, B: nat, T: nat, processRank: nat, numProcesses: nat)
  {
    |shards| > 0 && ShardsFit(shards, MinShardTokens(B, T, numProcesses)) && processRank < numProcesses
  }

  /** reset: back to the rank's first window of shard 0. */
  function ResetCursor(B: nat, T: nat, processRank: nat): Cursor
  {
    Cursor(0, processRank * B * T)
  }

  /** advance: the rank's first window of the next shard, wrapping after the last one. */
  function AdvanceCursor(shards: seq<seq<uint16>>, c: Cursor, B: nat, T: nat, processRank: nat): Cursor
    requires |shards| > 0
  {
    Cursor((c.shard + 1) % |shards|, processRank * B * T)
  }

  /**
   * The cursor update of next_batch: move by one stride of all ranks, and
   * advance to the next shard when a further window of that stride would run
   * past the end of the current shard.
   */
  function StepCursor(shards: seq<seq<uint16>>, c: Cursor, B: nat, T: nat, processRank: nat, numProcesses: nat): Cursor
    requires |shards| > 0 && c.shard < |shards|
  {
    var stride := B * T * numProcesses;
    var moved := c.position + stride;
    if moved + (stride + 1) > |shards[c.shard]| then AdvanceCursor(shards, c, B, T, processRank)
    else Cursor(c.shard, moved)
  }

  /** The first window of a rank fits in every shard the constructor accepts. */
  lemma FirstWindowFits(shards: seq<seq<uint16>>, i: nat, B: nat, T: nat, processRank: nat, numProcesses: nat)
    requires Accepted(shards, B, T, processRank, numProcesses) && i < |shards|
    ensures processRank * B * T + B * T + 1 <= |shards[i]|
  {
    var bt := B * T;
    assert processRank * B * T == processRank * bt;
    assert numProcesses * B * T == numProcesses * bt;
    assert processRank * bt + bt == (processRank + 1) * bt;
    assert (processRank + 1) * bt <= numProcesses * bt by {
      MultiplyMonotone(processRank + 1, numProcesses, bt);
    }
  }

  lemma MultiplyMonotone(a: nat, b: nat, c: nat)
    requires a <= b
    ensures a * c <= b * c
  {
  }

  lemma ResetInBounds(shards: seq<seq<uint16>>, B: nat, T: nat, processRank: nat, numProcesses: nat)
    requires Accepted(shards, B, T, processRank, numProcesses)
    ensures InBounds(shards, ResetCursor(B, T, processRank), B, T)
  {
    FirstWindowFits(shards, 0, B, T, processRank, numProcesses);
  }

  lemma AdvanceInBounds(shards: seq<seq<uint16>>, c: Cursor, B: nat, T: nat, processRank: nat, numProcesses: nat)
    requires Accepted(shards, B, T, processRank, numProcesses)
    ensures InBounds(shards, AdvanceCursor(shards, c, B, T, processRank), B, T)
  {
    FirstWindowFits(shards, (c.shard + 1) % |shards|, B, T, processRank, numProcesses);
  }

  /** next_batch keeps the cursor in bounds, so every window it reads is complete. */
  lemma StepInBounds(shards: seq<seq<uint16>>, c: Cursor, B: nat, T: nat, processRank: nat, numProcesses: nat)
    requires Accepted(shards, B, T, processRank, numProcesses)
    requires InBounds(shards, c, B, T)
    ensures InBounds(shards, StepCursor(shards, c, B, T, processRank, numProcesses), B, T)
  {
    var stride := B * T * numProcesses;
    var moved := c.position + stride;
    if moved + (stride + 1) > |shards[c.shard]| {
      AdvanceInBounds(shards, c, B, T, processRank, numProcesses);
    } else {
      assert B * T <= stride by {
        MultiplyMonotone(1, numProcesses, B * T);
        assert stride == numProcesses * (B * T);
      }
    }
  }

  // ---------------------------------------------------------------------
  // The loader
  // ---------------------------------------------------------------------

  class DistributedDataLoader {
    const shards: seq<seq<uint16>>
    const B: nat
    const T: nat
    const processRank: nat
    const numProcesses: nat
    const ntokTotal: nat
    var currentShard: nat
    var currentPosition: nat

    /** The read cursor as a value. */
    function Location(): Cursor
      reads this
    {
      Cursor(currentShard, currentPosition)
    }

    /** What the constructor establishes about the fixed configuration. */
    ghost predicate Configured()
      reads this
    {
      Accepted(shards, B, T, processRank, numProcesses) && ntokTotal == TotalTokens(shards)
    }

    /** The object invariant: configured, and the next window is in bounds. */
    ghost predicate Valid()
      reads this
    {
      Configured() && InBounds(shards, Location(), B, T)
    }

    constructor (shards: seq<seq<uint16>>, B: nat, T: nat, processRank: nat, numProcesses: nat)
      requires Accepted(shards, B, T, processRank, numProcesses)
      ensures Valid()
      ensures this.shards == shards && this.B == B && this.T == T
      ensures this.processRank == processRank && this.numProcesses == numProcesses
      ensures ntokTotal == TotalTokens(shards)
      ensures Location() == ResetCursor(B, T, processRank)
    {
      this.shards := shards;
      this.B := B;
      this.T := T;
      this.processRank := processRank;
      this.numProcesses := numProcesses;
      var checked := CheckShards(shards, B, T, numProcesses);
      this.ntokTotal := checked.value;
      new;
      Reset();
    }

    /** reset: shard 0, at this rank's first window, whatever shard was current. */
    method Reset()
      requires Configured()
      modifies this
      ensures Valid()
      ensures Location() == ResetCursor(B, T, processRank)
    {
      if currentShard != 0 {
        currentShard := 0;
      }
      currentPosition := processRank * B * T;
      ResetInBounds(shards, B, T, processRank, numProcesses);
    }

    /** advance: the next shard cyclically, at this rank's first window. */
    method Advance()
      requires Configured()
      modifies this
      ensures Valid()
      ensures Location() == AdvanceCursor(shards, old(Location()), B, T, processRank)
    {
      AdvanceInBounds(shards, Location(), B, T, processRank, numProcesses);
      currentShard := (currentShard + 1) % |shards|;
      currentPosition := processRank * B * T;
    }

    /**
     * next_batch: the B*T inputs starting at the cursor and the B*T targets
     * one token later, then the cursor moves on by one stride of all ranks.
     */
    method NextBatch() returns (x: seq<int>, y: seq<int>)
      requires Valid()
      modifies this
      ensures Valid()
      ensures |x| == B * T && |y| == B * T
      ensures forall i :: 0 <= i < B * T ==>
        x[i] == shards[old(currentShard)][old(currentPosition) + i] &&
        y[i] == shards[old(currentShard)][old(currentPosition) + i + 1]
      ensures forall i :: 0 <= i < B * T - 1 ==> y[i] == x[i + 1]
      ensures forall i :: 0 <= i < B * T ==> 0 <= x[i] < 0x1_0000 && 0 <= y[i] < 0x1_0000
      ensures Location() == StepCursor(shards, old(Location()), B, T, processRank, numProcesses)
    {
      var tokens := shards[currentShard];
      var bt := B * T;
      var buf := tokens[currentPosition .. currentPosition + bt + 1];
      x := buf[..|buf| - 1];
      y := buf[1..];
      StepInBounds(shards, Location(), B, T, processRank, numProcesses);
      var stride := bt * numProcesses;
      currentPosition := currentPosition + stride;
      if currentPosition + (stride + 1) > |tokens| {
        Advance();
      }
    }
  }
}
