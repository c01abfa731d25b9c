/**
 * When the executed and the skipped transactions of a block add up to all of them
 * (crates/app/stf/src/lib.rs): the exact condition on the gas limits alone, whatever gas the
 * transactions use within them.
 */
module SkipCount {
  import opened Types
  import opened Programs
  import opened Snapshot
  import opened Blocks
  import opened BlockLaws

  predicate AddsUp(block: Block, z: Progress) {
    |z.results| + z.skipped == |block.txs|
  }

  function Limit(block: Block, i: nat): nat
    requires i < |block.txs|
  {
    block.txs[i].gasLimit
  }

  /** A limit that fits an empty block and lies below `bound`. */
  predicate Small(block: Block, bound: nat, i: nat)
    requires i < |block.txs|
  {
    Limit(block, i) <= block.gasLimit && Limit(block, i) < bound
  }

  /** The most gas that the transactions from `i` to `k` with small limits can use. */
  function Room(block: Block, bound: nat, i: nat, k: nat): nat
    requires i <= k <= |block.txs|
  {
    if i == k then 0
    else Room(block, bound, i, k - 1) + if Small(block, bound, k - 1) then Limit(block, k - 1) else 0
  }

  lemma {:induction false} RoomFront(block: Block, bound: nat, i: nat, k: nat)
    requires i < k <= |block.txs|
    ensures Room(block, bound, i, k) == (if Small(block, bound, i) then Limit(block, i) else 0) + Room(block, bound, i + 1, k)
    decreases k
  {
    if i + 1 < k {
      RoomFront(block, bound, i, k - 1);
    }
  }

  const ANY: nat := U64_MAX + 1

  /**
   * Transaction `j` can be passed over and transaction `k` behind it can then use the block's gas up:
   * its limit is the smaller one, and what can run before fills the block far enough for both.
   */
  predicate CanMiscount(block: Block, j: nat, k: nat) {
    && j < k < |block.txs| && block.gasLimit < U64_MAX
    && 0 < Limit(block, k) < Limit(block, j) && Limit(block, k) <= block.gasLimit
    && Room(block, ANY, 0, j) + Limit(block, j) > block.gasLimit
    && Room(block, ANY, 0, j) + Room(block, Limit(block, j), j + 1, k) + Limit(block, k) >= block.gasLimit
  }

  // ---------------------------------------------------------------------------------------
  // Only such a block miscounts

  /** Transaction `j` was passed over before `i`, and the gas used since stayed where `j` did not fit. */
  predicate Passed(block: Block, i: nat, gas: nat, j: nat) {
    && j < i <= |block.txs| && block.gasLimit < U64_MAX
    && Room(block, ANY, 0, j) + Limit(block, j) > block.gasLimit
    && block.gasLimit - Limit(block, j) < gas <= Room(block, ANY, 0, j) + Room(block, Limit(block, j), j + 1, i)
  }

  ghost predicate Tracked(block: Block, i: nat, a: Progress) {
    && i <= |block.txs| && |a.results| == i - a.skipped
    && a.cumulative <= Room(block, ANY, 0, i)
    && (a.skipped > 0 ==> exists j :: Passed(block, i, a.cumulative, j))
  }

  lemma SkipTracked(block: Block, i: nat, a: Progress)
    requires i < |block.txs| && Tracked(block, i, a) && Oversized(block, i, a)
    ensures Tracked(block, i + 1, Skip(a))
  {
    if a.skipped > 0 {
      var j :| Passed(block, i, a.cumulative, j);
      assert Passed(block, i + 1, a.cumulative, j);
    } else {
      assert Passed(block, i + 1, a.cumulative, i);
    }
  }

  lemma PassedStep(block: Block, i: nat, gas: nat, used: nat, j: nat)
    requires i < |block.txs| && Passed(block, i, gas, j) && gas + Limit(block, i) <= block.gasLimit && used <= Limit(block, i)
    ensures Passed(block, i + 1, gas + used, j)
  {
    assert Small(block, Limit(block, j), i);
  }

  lemma AdvanceTracked(run: Executor, block: Block, i: nat, a: Progress)
    requires LawfulExecutor(run) && i < |block.txs| && Tracked(block, i, a) && !Oversized(block, i, a)
    ensures Tracked(block, i + 1, Advance(run, block, i, a))
  {
    assert Lawful(run, block.txs[i], a.snap);
    if a.skipped > 0 {
      var j :| Passed(block, i, a.cumulative, j);
      PassedStep(block, i, a.cumulative, run(block.txs[i], a.snap).result.gasUsed, j);
    }
  }

  lemma StopMiscounts(run: Executor, block: Block, i: nat, a: Progress)
    requires LawfulExecutor(run) && i < |block.txs| && Tracked(block, i, a) && !Oversized(block, i, a)
    requires a.cumulative < block.gasLimit <= Advance(run, block, i, a).cumulative && a.skipped > 0
    ensures exists j, k :: CanMiscount(block, j, k)
  {
    assert Lawful(run, block.txs[i], a.snap);
    var j :| Passed(block, i, a.cumulative, j);
    assert CanMiscount(block, j, i);
  }

  lemma {:induction false} LoopAddsUp(run: Executor, block: Block, i: nat, a: Progress)
    requires LawfulExecutor(run) && Tracked(block, i, a) && a.cumulative < block.gasLimit
    ensures AddsUp(block, TxLoop(run, block, i, a)) || exists j, k :: CanMiscount(block, j, k)
    decreases |block.txs| - i
  {
    hide Tracked, CanMiscount, LawfulExecutor;
    assert |a.results| == i - a.skipped && i <= |block.txs| by {
      hide *;
      TrackedCounts(block, i, a);
    }
    if i < |block.txs| {
      if Oversized(block, i, a) {
        SkipTracked(block, i, a);
        LoopAddsUp(run, block, i + 1, Skip(a));
      } else if Advance(run, block, i, a).cumulative < block.gasLimit {
        AdvanceTracked(run, block, i, a);
        LoopAddsUp(run, block, i + 1, Advance(run, block, i, a));
      } else if a.skipped > 0 {
        StopMiscounts(run, block, i, a);
      }
    }
  }

  lemma TrackedCounts(block: Block, i: nat, a: Progress)
    requires Tracked(block, i, a)
    ensures |a.results| == i - a.skipped && i <= |block.txs|
  {
  }

  // ---------------------------------------------------------------------------------------
  // Every such block miscounts for some transactions

  /** The least gas in use at which transaction `j` does not fit. */
  function Least(block: Block, j: nat): nat
    requires j < |block.txs|
  {
    if Limit(block, j) > block.gasLimit then 0 else block.gasLimit - Limit(block, j) + 1
  }

  function Max(a: int, b: int): int {
    if a < b then b else a
  }

  /** The gas in use before transaction `i`, when each uses as little as leaves enough to those behind it. */
  function Level(block: Block, j: nat, k: nat, i: nat): int
    requires CanMiscount(block, j, k) && i <= k
  {
    var goal := block.gasLimit - Limit(block, k);
    if i > j then Max(Least(block, j), goal - Room(block, Limit(block, j), i, k))
    else Max(0, Max(Least(block, j), goal - Room(block, Limit(block, j), j + 1, k)) - Room(block, ANY, i, j))
  }

  predicate Runs(block: Block, j: nat, k: nat, i: nat)
    requires CanMiscount(block, j, k) && i <= k
  {
    i == k || (i != j && Small(block, if i < j then ANY else Limit(block, j), i))
  }

  lemma LevelStep(block: Block, j: nat, k: nat, i: nat)
    requires CanMiscount(block, j, k) && i < k
    ensures 0 <= Level(block, j, k, i) <= Level(block, j, k, i + 1) < block.gasLimit
    ensures if Runs(block, j, k, i) then
              && Level(block, j, k, i) + Limit(block, i) <= block.gasLimit
              && Level(block, j, k, i + 1) <= Level(block, j, k, i) + Limit(block, i)
            else
              && Level(block, j, k, i) + Limit(block, i) > block.gasLimit
              && Level(block, j, k, i + 1) == Level(block, j, k, i)
  {
    if i < j {
      RoomFront(block, ANY, i, j);
    } else if i > j {
      RoomFront(block, Limit(block, j), i, k);
    }
  }

  lemma LevelEnds(block: Block, j: nat, k: nat)
    requires CanMiscount(block, j, k)
    ensures Level(block, j, k, 0) == 0 && Level(block, j, k, k) == block.gasLimit - Limit(block, k)
    ensures j < k < |block.txs| && block.gasLimit < U64_MAX
  {
  }

  /** The next transaction that runs, at or behind `i`. */
  function NextRun(block: Block, j: nat, k: nat, i: nat): (n: nat)
    requires CanMiscount(block, j, k) && i <= k
    ensures i <= n <= k
    decreases k - i
  {
    if Runs(block, j, k, i) then i else NextRun(block, j, k, i + 1)
  }

  /** Transactions that climb the levels; the counter in the state says which one is next. */
  function UsedAt(block: Block, j: nat, k: nat, i: nat): int
    requires CanMiscount(block, j, k)
  {
    if i < k then Level(block, j, k, i + 1) - Level(block, j, k, i) else Limit(block, k)
  }

  function Climbing(block: Block, j: nat, k: nat): Executor
    requires CanMiscount(block, j, k)
  {
    (tx: Tx, s: Snap) =>
      var used := UsedAt(block, j, k, s.unique);
      var next := if s.unique < k then NextRun(block, j, k, s.unique + 1) else k;
      TxOut(TxResult([], if 0 <= used <= tx.gasLimit then used else 0, Ok(Empty)), s.(unique := next))
  }

  lemma {:induction false} ClimbingMiscounts(block: Block, j: nat, k: nat, i: nat, a: Progress)
    requires CanMiscount(block, j, k) && i <= k
    requires a.cumulative == Level(block, j, k, i) && a.snap.unique == NextRun(block, j, k, i)
    requires |a.results| + a.skipped == i && (i > j ==> a.skipped > 0)
    ensures !AddsUp(block, TxLoop(Climbing(block, j, k), block, i, a))
    decreases k - i
  {
    hide CanMiscount, Level;
    LevelEnds(block, j, k);
    if i < k {
      LevelStep(block, j, k, i);
      if Runs(block, j, k, i) {
        ClimbingMiscounts(block, j, k, i + 1, Advance(Climbing(block, j, k), block, i, a));
      } else {
        ClimbingMiscounts(block, j, k, i + 1, Skip(a));
      }
    }
  }

  // ---------------------------------------------------------------------------------------
  // The condition

  /** The loop over a block from a state, before any transaction. */
  function FromStart(run: Executor, block: Block, s: Snap): Progress {
    TxLoop(run, block, 0, Progress(0, 0, [], [], s))
  }

  lemma AddsUpUnless(run: Executor, block: Block, s: Snap)
    requires block.gasLimit > 0 && LawfulExecutor(run)
    ensures AddsUp(block, FromStart(run, block, s)) || exists j, k :: CanMiscount(block, j, k)
  {
    LoopAddsUp(run, block, 0, Progress(0, 0, [], [], s));
  }

  lemma MiscountsFor(block: Block, j: nat, k: nat, s: Snap)
    requires CanMiscount(block, j, k) && s.unique == NextRun(block, j, k, 0)
    ensures LawfulExecutor(Climbing(block, j, k)) && !AddsUp(block, FromStart(Climbing(block, j, k), block, s))
  {
    hide CanMiscount, TxLoop, Level;
    assert Level(block, j, k, 0) == 0 by {
      LevelEnds(block, j, k);
    }
    ClimbingMiscounts(block, j, k, 0, Progress(0, 0, [], [], s));
  }

  /**
   * The count is exact for every executor that keeps transactions within their limits exactly when
   * no two limits can make it miscount.
   */
  lemma AddsUpForAllIff(block: Block)
    requires block.gasLimit > 0
    ensures (forall run: Executor, s: Snap :: LawfulExecutor(run) ==> AddsUp(block, FromStart(run, block, s))) <==>
            !exists j, k :: CanMiscount(block, j, k)
  {
    hide CanMiscount, FromStart, LawfulExecutor, AddsUp;
    if j, k :| CanMiscount(block, j, k) {
      var s := Fresh().(unique := NextRun(block, j, k, 0));
      MiscountsFor(block, j, k, s);
    } else {
      forall run: Executor, s: Snap | LawfulExecutor(run) ensures AddsUp(block, FromStart(run, block, s)) {
        AddsUpUnless(run, block, s);
      }
    }
  }

  /** So a block whose limits cannot make it miscount adds up. */
  lemma BlockAddsUp(stf: Stf, w: World, block: Block, s: Snap)
    requires block.gasLimit > 0 && forall j, k :: !CanMiscount(block, j, k)
    ensures var r := BlockOutcome(stf, w, block, s); |r.txResults| + r.txsSkipped == |block.txs|
  {
    hide TxExecutor, LawfulExecutor, CanMiscount, TxLoop, Begun, Ended;
    TxExecutorIsLawful(stf, w, block.context);
    AddsUpUnless(TxExecutor(stf, w, block.context), block, Start(stf, w, block, s).snap);
  }

  /** The first of two transactions is too large, the second fills the block: one runs, two count as skipped. */
  lemma FilledAfterSkip(stf: Stf, w: World, block: Block, s: Snap)
    requires |block.txs| == 2 && 0 < block.txs[1].gasLimit == block.gasLimit < block.txs[0].gasLimit
    requires TxExecutor(stf, w, block.context)(block.txs[1], Start(stf, w, block, s).snap).result.gasUsed == block.gasLimit
    ensures var r := BlockOutcome(stf, w, block, s); |r.txResults| == 1 && r.txsSkipped == 2
    ensures CanMiscount(block, 0, 1)
  {
    hide TxExecutor, Begun, Ended;
    var run, a := TxExecutor(stf, w, block.context), Start(stf, w, block, s);
    assert TxLoop(run, block, 0, a) == TxLoop(run, block, 1, Skip(a));
  }
}
