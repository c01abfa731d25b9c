/** Block production from the pool (crates/app/server/src/dev.rs). */
module Producer {
  import opened Types
  import opened Programs
  import opened Blocks
  import opened BlockLaws
  import opened StfMachine
  import opened Commit
  import opened Ordering
  import opened Pool
  import M = Mempool
  import Chain

  // ---------------------------------------------------------------------------------------
  // Proposals fit the block they are made for

  function Payloads<K>(txs: seq<PoolTx<K, Tx>>): seq<Tx> {
    seq(|txs|, i requires 0 <= i < |txs| => txs[i].payload)
  }

  /** The pool and the block read the same gas limit and id off a transaction. */
  predicate SameTx<K>(tx: PoolTx<K, Tx>) {
    tx.gasLimit == tx.payload.gasLimit && tx.id == tx.payload.id
  }

  ghost predicate Consistent<K(!new)>(p: Pool<K, Tx>) {
    forall h :: h in p.byHash ==> SameTx(p.byHash[h])
  }

  lemma {:induction false} GasIsLimitSum<K>(txs: seq<PoolTx<K, Tx>>)
    requires forall i :: 0 <= i < |txs| ==> SameTx(txs[i])
    ensures GasOf(txs) == LimitSum(Payloads(txs))
  {
    if txs != [] {
      GasIsLimitSum(txs[..|txs| - 1]);
      assert Payloads(txs)[..|txs| - 1] == Payloads(txs[..|txs| - 1]);
    }
  }

  /** A proposal made with the block's gas limit, if that is not zero, fits the block. */
  lemma ProposalFits<K(!new)>(leq: (K, K) -> bool, p: Pool<K, Tx>, maxTxs: nat, chosen: seq<Entry<K>>, total: U64,
                              q: Pool<K, Tx>, block: Block)
    requires Consistent(p) && Proposes(leq, p, block.gasLimit, maxTxs, chosen, total, q)
    requires block.txs == Payloads(TxsOf(p, chosen)) && block.gasLimit > 0
    ensures FitsBlock(block)
  {
    var txs := TxsOf(p, chosen);
    forall i | 0 <= i < |txs| ensures SameTx(txs[i]) {
      assert chosen[i] in chosen;
    }
    GasIsLimitSum(txs);
  }

  /**
   * With a gas limit of zero the pool proposes without limit and the block takes free transactions
   * only.  When the first free one of a proposal stands behind others, it runs alone; what leaves the
   * pool is the first of the proposal, which did not run, and the one that ran stays.
   */
  lemma ZeroLimitRunsAnother<K(!new)>(stf: Stf, w: World, empty: Block, leq: (K, K) -> bool, p: Pool<K, Tx>, maxTxs: nat,
                                      chosen: seq<Entry<K>>, total: U64, q: Pool<K, Tx>, k: nat)
    requires Consistent(p) && Proposes(leq, p, empty.gasLimit, maxTxs, chosen, total, q)
    requires empty.gasLimit == 0 && k > 0 && FirstFree(Payloads(TxsOf(p, chosen)), 0, k)
    ensures var block := empty.(txs := Payloads(TxsOf(p, chosen)));
            && Looped(stf, w, block, Fresh()).executed == [k]
            && |BlockOutcome(stf, w, block, Fresh()).txResults| == 1
    ensures Delivered(stf, w, empty, p, chosen, 1, p.byHash - {chosen[0].hash})
    ensures chosen[k].hash in p.byHash - {chosen[0].hash}
  {
    hide Looped, BlockOutcome, RunsPrefix, Proposes, Consistent, FirstFree, Fresh;
    ProposedAreLive(leq, p, empty.gasLimit, maxTxs, chosen, total, q);
    ZeroLimitRunsOne(stf, w, empty.(txs := Payloads(TxsOf(p, chosen))), k);
    FreeIsAnother(p, chosen, k);
    assert Ids(chosen)[..1] == [chosen[0].hash];
  }

  lemma ProposedAreLive<K(!new)>(leq: (K, K) -> bool, p: Pool<K, Tx>, maxGas: U64, maxTxs: nat,
                                 chosen: seq<Entry<K>>, total: U64, q: Pool<K, Tx>)
    requires Proposes(leq, p, maxGas, maxTxs, chosen, total, q)
    ensures forall e :: e in chosen ==> e.hash in p.byHash
  {
  }

  lemma ZeroLimitRunsOne(stf: Stf, w: World, block: Block, k: nat)
    requires block.gasLimit == 0 && FirstFree(block.txs, 0, k)
    ensures Looped(stf, w, block, Fresh()).executed == [k] && |BlockOutcome(stf, w, block, Fresh()).txResults| == 1
  {
    hide Looped, BlockOutcome, Fresh;
    ZeroLimitRuns(stf, w, block, Fresh(), k);
    BlockGasLaw(stf, w, block, Fresh());
  }

  lemma FreeIsAnother<K(!new)>(p: Pool<K, Tx>, chosen: seq<Entry<K>>, k: nat)
    requires Consistent(p) && (forall e :: e in chosen ==> e.hash in p.byHash)
    requires k > 0 && FirstFree(Payloads(TxsOf(p, chosen)), 0, k)
    ensures k < |chosen| && chosen[k].hash in p.byHash && chosen[k].hash != chosen[0].hash
  {
    var txs := TxsOf(p, chosen);
    assert chosen[0] in chosen && chosen[k] in chosen;
    assert Payloads(txs)[0] == p.byHash[chosen[0].hash].payload && Payloads(txs)[k] == p.byHash[chosen[k].hash].payload;
  }

  // ---------------------------------------------------------------------------------------
  // The producer

  /** The store once a block's changes are committed. */
  function AfterBlock(m: Store, stf: Stf, w: World, block: Block): Store {
    Chain.Committed(m, FinalSnap(stf, w, block, Fresh()).overlay)
  }

  datatype ProducedBlock = ProducedBlock(height: U64, hash: Hash, txCount: nat, gasUsed: nat)

  class DevConsensus<K(==, !new)> {
    const stf: Stf
    const world: World
    const gasLimit: U64
    const blockHash: (U64, U64, Hash) -> Hash
    const mempool: M.Mempool<K, Tx>
    const storage: MockStorage
    var height: U64
    var lastHash: Hash

    constructor (stf: Stf, world: World, gasLimit: U64, blockHash: (U64, U64, Hash) -> Hash,
                 mempool: M.Mempool<K, Tx>, storage: MockStorage, height: U64, lastHash: Hash)
      ensures this.stf == stf && this.world == world && this.gasLimit == gasLimit && this.blockHash == blockHash
      ensures this.mempool == mempool && this.storage == storage && this.height == height && this.lastHash == lastHash
    {
      this.stf, this.world, this.gasLimit, this.blockHash := stf, world, gasLimit, blockHash;
      this.mempool, this.storage, this.height, this.lastHash := mempool, storage, height, lastHash;
    }

    /** Account codes and codecs over what is committed now. */
    function Now(): World
      reads storage
    {
      world.(base := Chain.BaseOf(storage.state))
    }

    function NextBlock(txs: seq<Tx>, timestamp: U64): Block
      reads this
    {
      Block.Block(BlockContext(height, timestamp), txs, gasLimit)
    }

    /**
     * Executes a block and commits it; `batchOk` and `commitOk` tell whether the storage takes the
     * batch and the commit after it.  When only the commit fails, the block fails with its changes
     * in the storage.
     */
    method ProduceBlockWithTxs(txs: seq<Tx>, timestamp: U64, batchOk: bool, commitOk: bool) returns (r: Result<ProducedBlock>)
      modifies this, storage
      ensures height == if old(height) == U64_MAX then 0 else old(height) + 1
      ensures r.Ok? <==> batchOk && commitOk
      ensures r.Err? ==> lastHash == old(lastHash)
      ensures var b := Block.Block(BlockContext(old(height), timestamp), txs, gasLimit);
              storage.state == if batchOk then AfterBlock(old(storage.state), stf, old(Now()), b) else old(storage.state)
      ensures r.Ok? ==>
                var b := Block.Block(BlockContext(old(height), timestamp), txs, gasLimit);
                && r.value.txCount == |BlockOutcome(stf, old(Now()), b, Fresh()).txResults|
                && r.value.gasUsed == GasSum(BlockOutcome(stf, old(Now()), b, Fresh()).txResults)
                && (gasLimit < U64_MAX ==> r.value.gasUsed <= gasLimit)
                && r.value.height == old(height) && r.value.hash == lastHash == blockHash(old(height), timestamp, old(lastHash))
    {
      var block := NextBlock(txs, timestamp);
      var w := Now();
      height := if height == U64_MAX then 0 else height + 1;
      var result, state := ApplyBlock(stf, w, block);
      var changes := IntoChanges(state);
      var hash := blockHash(block.context.height, timestamp, lastHash);
      if !batchOk {
        return Err(StorageFailure);
      }
      Chain.BatchCommits(storage.state, state.overlay, changes);
      storage.Batch(ToOperations(changes));
      if !commitOk {
        return Err(StorageFailure);
      }
      lastHash := hash;
      BlockGasLaw(stf, w, block, Fresh());
      return Ok(ProducedBlock(block.context.height, hash, |result.txResults|, GasSum(result.txResults)));
    }

    /**
     * Produces a block from the pool.  With a gas limit other than zero the block runs a prefix of
     * the proposal; exactly the transactions that ran leave the pool, everything else proposed is
     * queued again, and nothing stays in flight.  When the block fails none leaves, not even when its
     * changes are in the storage already.
     */
    method ProduceBlockFromMempool(maxTxs: nat, timestamp: U64, batchOk: bool, commitOk: bool)
      returns (r: Result<ProducedBlock>, ghost chosen: seq<Entry<K>>)
      requires TotalOrder(mempool.leq) && NoneLost(mempool.View()) && Consistent(mempool.View())
      modifies this, storage, mempool
      ensures r.Ok? <==> batchOk && commitOk
      ensures NoneLost(mempool.View())
      ensures old(Exact(mempool.View())) ==> Exact(mempool.View())
      ensures forall e :: e in chosen ==> e.hash in old(mempool.byHash)
      ensures maxTxs == 0 ==> chosen == []
      ensures mempool.inFlight == if chosen == [] then old(mempool.inFlight) else {}
      ensures r.Err? ==> mempool.byHash == old(mempool.byHash)
      ensures r.Ok? ==> Delivered(stf, old(Now()), Block.Block(BlockContext(old(height), timestamp), [], gasLimit), old(mempool.View()), chosen,
                                  r.value.txCount, mempool.byHash)
      ensures var block := Block.Block(BlockContext(old(height), timestamp), Payloads(TxsOf(old(mempool.View()), chosen)), gasLimit);
              storage.state == if batchOk then AfterBlock(old(storage.state), stf, old(Now()), block) else old(storage.state)
    {
      hide BlockOutcome, Looped, RunsPrefix, FinalSnap, AfterBlock, Proposes, Finalized, NoneLost, Exact, Consistent, Delivered, TxsOf;
      chosen := [];
      ghost var p, w, empty := mempool.View(), Now(), NextBlock([], timestamp);
      if maxTxs == 0 {
        r := ProduceBlockWithTxs([], timestamp, batchOk, commitOk);
        EmptyDelivery(stf, w, empty, p, chosen);
        return;
      }
      var selected, total;
      selected, total, chosen := mempool.Propose(gasLimit, maxTxs);
      ghost var q := mempool.View();
      ProposalFacts(mempool.leq, p, gasLimit, maxTxs, chosen, total, q);

      r := ProduceBlockWithTxs(Payloads(selected), timestamp, batchOk, commitOk);
      DeliveryLaw(stf, w, empty, mempool.leq, p, maxTxs, chosen, total, q);
      var hashes := HashesOfTxs(selected);
      if hashes != [] {
        var executed := if r.Ok? then hashes[..r.value.txCount] else [];
        FinalizeProposed(q, executed);
        mempool.Finalize(executed);
      }
      assert r.Ok? ==> mempool.byHash == p.byHash - (set h | h in Ids(chosen)[..r.value.txCount]);
    }
  }

  function HashesOfTxs<K>(txs: seq<PoolTx<K, Tx>>): seq<Hash> {
    seq(|txs|, i requires 0 <= i < |txs| => txs[i].id)
  }

  lemma ProposalFacts<K(!new)>(leq: (K, K) -> bool, p: Pool<K, Tx>, maxGas: U64, maxTxs: nat,
                               chosen: seq<Entry<K>>, total: U64, q: Pool<K, Tx>)
    requires NoneLost(p) && Proposes(leq, p, maxGas, maxTxs, chosen, total, q)
    ensures q.byHash == p.byHash && (forall e :: e in chosen ==> e.hash in p.byHash)
    ensures NoneLost(q) && (Exact(p) ==> Exact(q))
    ensures HashesOfTxs(TxsOf(p, chosen)) == Ids(chosen) && forall h :: h in Ids(chosen) ==> h in q.inFlight
    ensures chosen == [] ==> q.inFlight == p.inFlight
  {
    ProposesKeeps(leq, p, maxGas, maxTxs, chosen, total, q);
    forall i | 0 <= i < |chosen| ensures TxsOf(p, chosen)[i].id == chosen[i].hash && chosen[i].hash in q.inFlight {
      assert chosen[i] in chosen;
    }
  }

  lemma DeliveryLaw<K(!new)>(stf: Stf, w: World, empty: Block, leq: (K, K) -> bool, p: Pool<K, Tx>, maxTxs: nat,
                             chosen: seq<Entry<K>>, total: U64, q: Pool<K, Tx>)
    requires Consistent(p) && Proposes(leq, p, empty.gasLimit, maxTxs, chosen, total, q)
    ensures var block := empty.(txs := Payloads(TxsOf(p, chosen)));
            var count := |BlockOutcome(stf, w, block, Fresh()).txResults|;
            && count <= |chosen|
            && Delivered(stf, w, empty, p, chosen, count, p.byHash - (set h | h in Ids(chosen)[..count]))
  {
    hide BlockOutcome, Looped, RunsPrefix;
    var block := empty.(txs := Payloads(TxsOf(p, chosen)));
    BlockGasLaw(stf, w, block, Fresh());
    if block.gasLimit > 0 {
      ProposalFits(leq, p, maxTxs, chosen, total, q, block);
      BlockRunsPrefix(stf, w, block);
    }
  }

  lemma EmptyBlock(stf: Stf, w: World, empty: Block)
    requires empty.txs == []
    ensures BlockOutcome(stf, w, empty, Fresh()).txResults == [] && RunsPrefix(stf, w, empty)
  {
    hide BlockOutcome, Looped, RunsPrefix, Fresh;
    BlockGasLaw(stf, w, empty, Fresh());
    BlockRunsPrefix(stf, w, empty);
  }

  lemma NothingChosen<K>(p: Pool<K, Tx>, chosen: seq<Entry<K>>)
    requires chosen == []
    ensures Payloads(TxsOf(p, chosen)) == [] && Ids(chosen)[..0] == []
  {
  }

  lemma EmptyDelivery<K(!new)>(stf: Stf, w: World, empty: Block, p: Pool<K, Tx>, chosen: seq<Entry<K>>)
    requires empty.txs == [] && chosen == []
    ensures empty == empty.(txs := Payloads(TxsOf(p, chosen)))
    ensures Delivered(stf, w, empty, p, chosen, |BlockOutcome(stf, w, empty, Fresh()).txResults|, p.byHash)
  {
    hide BlockOutcome, RunsPrefix, Fresh, Payloads, TxsOf, Ids;
    NothingChosen(p, chosen);
    EmptyBlock(stf, w, empty);
    assert empty == empty.(txs := Payloads(TxsOf(p, chosen)));
  }

  lemma BlockRunsPrefix(stf: Stf, w: World, block: Block)
    requires FitsBlock(block)
    ensures RunsPrefix(stf, w, block)
  {
    hide BlockOutcome, Looped, RanPrefix;
    FittingBlockRunsPrefix(stf, w, block, Fresh());
  }

  lemma FinalizeProposed<K(!new)>(q: Pool<K, Tx>, executed: seq<Hash>)
    requires NoneLost(q) && forall h :: h in executed ==> h in q.inFlight
    ensures var z := Finalized(q, executed);
            && NoneLost(z) && (Exact(q) ==> Exact(z))
            && z.byHash == q.byHash - (set h | h in executed) && z.inFlight == {}
  {
    FinalizedKeepsNoneLost(q, executed);
    RemovedAllFacts(q, executed);
    if Exact(q) {
      FinalizedKeepsExact(q, executed);
    }
  }

  /** The hashes of a proposal, in order. */
  function Ids<K>(chosen: seq<Entry<K>>): seq<Hash> {
    seq(|chosen|, i requires 0 <= i < |chosen| => chosen[i].hash)
  }

  /** The block ran a prefix of its transactions, with the results of running them in turn. */
  ghost predicate RunsPrefix(stf: Stf, w: World, block: Block) {
    && RanPrefix(TxExecutor(stf, w, block.context), block.txs, Start(stf, w, block, Fresh()).snap, Looped(stf, w, block, Fresh()))
    && BlockOutcome(stf, w, block, Fresh()).txResults == Looped(stf, w, block, Fresh()).results
  }

  /**
   * The block made of the proposal ran `count` transactions, and the first `count` of the proposal
   * left the pool: with a gas limit other than zero those are exactly the ones that ran.
   */
  ghost predicate Delivered<K(!new)>(stf: Stf, w: World, empty: Block, p: Pool<K, Tx>, chosen: seq<Entry<K>>, count: nat,
                                     byHash: map<Hash, PoolTx<K, Tx>>)
    requires forall e :: e in chosen ==> e.hash in p.byHash
  {
    var block := empty.(txs := Payloads(TxsOf(p, chosen)));
    && count == |BlockOutcome(stf, w, block, Fresh()).txResults| <= |chosen|
    && byHash == p.byHash - (set h | h in Ids(chosen)[..count])
    && (block.gasLimit > 0 ==> RunsPrefix(stf, w, block))
  }
}
