/**
 * The chain index without its cache: rows built from block results
 * (crates/rpc/chain-index/src/integration.rs) and the tables that store them
 * (crates/rpc/chain-index/src/index.rs).
 */
module ChainTables {
  import opened Types
  import E = ExecState
  import P = Programs
  import S = Snapshot
  import B = Blocks
  import L = BlockLaws

  datatype StoredBlock = StoredBlock(number: U64, hash: Hash, parentHash: Hash, gasUsed: nat, transactionCount: nat, other: Bytes)

  datatype StoredTransaction = StoredTransaction(
    hash: Hash, blockNumber: U64, blockHash: Hash, transactionIndex: nat, gasPrice: nat, other: Bytes)

  datatype StoredLog = StoredLog(address: Bytes, topics: seq<Hash>, data: Bytes)

  datatype StoredReceipt = StoredReceipt(
    transactionHash: Hash, transactionIndex: nat, blockHash: Hash, blockNumber: U64,
    cumulativeGasUsed: nat, gasUsed: U64, effectiveGasPrice: nat, logs: seq<StoredLog>, status: bool, other: Bytes)

  // ---------------------------------------------------------------------------------------
  // Rows from results

  /** What the index reads off transactions and events, left open. */
  datatype Codec = Codec(
    gasPrice: B.Tx -> nat,
    txOther: B.Tx -> Bytes,
    receiptOther: (B.Tx, B.TxResult) -> Bytes,
    log: E.Event -> StoredLog,
    blockOther: (seq<StoredTransaction>, seq<StoredReceipt>) -> Bytes)

  datatype BlockMetadata = BlockMetadata(hash: Hash, parentHash: Hash)

  function LogsOfEvents(c: Codec, events: seq<E.Event>): seq<StoredLog> {
    seq(|events|, i requires 0 <= i < |events| => c.log(events[i]))
  }

  function StoredTxOf(c: Codec, block: B.Block, meta: BlockMetadata, i: nat): StoredTransaction
    requires i < |block.txs|
  {
    var tx := block.txs[i];
    StoredTransaction(tx.id, block.context.height, meta.hash, i, c.gasPrice(tx), c.txOther(tx))
  }

  function StoredReceiptOf(c: Codec, block: B.Block, r: B.TxResult, meta: BlockMetadata, i: nat, cumulative: nat): StoredReceipt
    requires i < |block.txs|
  {
    var tx := block.txs[i];
    StoredReceipt(tx.id, i, meta.hash, block.context.height, cumulative, r.gasUsed, c.gasPrice(tx),
                  LogsOfEvents(c, r.events), r.response.Ok?, c.receiptOther(tx, r))
  }

  /** Row `i` describes transaction `i` of the block and result `i` of the execution. */
  ghost predicate RowsOf(c: Codec, block: B.Block, results: seq<B.TxResult>, meta: BlockMetadata,
                         txs: seq<StoredTransaction>, receipts: seq<StoredReceipt>)
  {
    && |txs| == |receipts| <= |block.txs| && |txs| <= |results|
    && (forall i :: 0 <= i < |txs| ==> txs[i] == StoredTxOf(c, block, meta, i))
    && (forall i :: 0 <= i < |txs| ==> receipts[i] == StoredReceiptOf(c, block, results[i], meta, i, L.GasSum(results[..i + 1])))
  }

  /** `build_index_data` */
  method BuildIndexData(c: Codec, block: B.Block, result: B.BlockResult, meta: BlockMetadata)
    returns (stored: StoredBlock, txs: seq<StoredTransaction>, receipts: seq<StoredReceipt>)
    ensures RowsOf(c, block, result.txResults, meta, txs, receipts)
    ensures |txs| == |block.txs| || |txs| == |result.txResults|
    ensures stored == StoredBlock(block.context.height, meta.hash, meta.parentHash, L.GasSum(result.txResults), |txs|,
                                  c.blockOther(txs, receipts))
  {
    hide StoredTxOf, StoredReceiptOf;
    var results := result.txResults;
    txs, receipts := [], [];
    var cumulative := 0;
    var i := 0;
    while i < |block.txs| && i < |results|
      invariant i <= |block.txs| && i <= |results| && |txs| == i
      invariant cumulative == L.GasSum(results[..i])
      invariant RowsOf(c, block, results, meta, txs, receipts)
    {
      assert results[..i + 1][..i] == results[..i];
      cumulative := cumulative + results[i].gasUsed;
      txs := txs + [StoredTxOf(c, block, meta, i)];
      receipts := receipts + [StoredReceiptOf(c, block, results[i], meta, i, cumulative)];
      i := i + 1;
    }
    var total := TotalGas(results);
    stored := StoredBlock(block.context.height, meta.hash, meta.parentHash, total, |txs|, c.blockOther(txs, receipts));
  }

  method TotalGas(results: seq<B.TxResult>) returns (total: nat)
    ensures total == L.GasSum(results)
  {
    total := 0;
    for i := 0 to |results|
      invariant total == L.GasSum(results[..i])
    {
      assert results[..i + 1][..i] == results[..i];
      total := total + results[i].gasUsed;
    }
    assert results[..|results|] == results;
  }

  /** The result of transaction `i` when the transactions before it, and no others, have run. */
  ghost function OwnResult(stf: B.Stf, w: P.World, block: B.Block, s: S.Snap, i: nat): B.TxResult
    requires i < |block.txs|
  {
    var run := B.TxExecutor(stf, w, block.context);
    run(block.txs[i], L.RunAll(run, block.txs[..i], B.Start(stf, w, block, s).snap).snap).result
  }

  /** The logs of a receipt are the events of its result, one for one and in order. */
  lemma RowLogs(c: Codec, block: B.Block, results: seq<B.TxResult>, meta: BlockMetadata,
                txs: seq<StoredTransaction>, receipts: seq<StoredReceipt>, i: nat, j: nat)
    requires RowsOf(c, block, results, meta, txs, receipts) && i < |receipts| && j < |results[i].events|
    ensures |receipts[i].logs| == |results[i].events| && receipts[i].logs[j] == c.log(results[i].events[j])
  {
  }

  /** When the gas limits fit the block, every indexed transaction is paired with its own result. */
  lemma RowsPairOwnResults(stf: B.Stf, w: P.World, block: B.Block, s: S.Snap, c: Codec, meta: BlockMetadata,
                           txs: seq<StoredTransaction>, receipts: seq<StoredReceipt>, i: nat)
    requires L.FitsBlock(block) && RowsOf(c, block, B.BlockOutcome(stf, w, block, s).txResults, meta, txs, receipts)
    requires i < |txs|
    ensures txs[i].hash == receipts[i].transactionHash == block.txs[i].id
    ensures var own := OwnResult(stf, w, block, s, i);
            && receipts[i].gasUsed == own.gasUsed
            && receipts[i].logs == LogsOfEvents(c, own.events)
            && receipts[i].status == own.response.Ok?
  {
    hide B.BlockOutcome, B.Looped, B.TxExecutor, B.Start, LogsOfEvents;
    var run, start := B.TxExecutor(stf, w, block.context), B.Start(stf, w, block, s).snap;
    var results := B.BlockOutcome(stf, w, block, s).txResults;
    L.FittingBlockRunsPrefix(stf, w, block, s);
    L.RunAllAt(run, block.txs[..|results|], start, i);
    assert block.txs[..|results|][..i] == block.txs[..i];
  }

  /**
   * With a block gas limit of zero the only result is that of the first free transaction, `k`; when
   * others stand before it, the index files that result under the first of them.
   */
  lemma ZeroLimitRow(stf: B.Stf, w: P.World, block: B.Block, s: S.Snap, c: Codec, meta: BlockMetadata,
                     txs: seq<StoredTransaction>, receipts: seq<StoredReceipt>, k: nat)
    requires block.gasLimit == 0 && k > 0 && L.FirstFree(block.txs, 0, k)
    requires RowsOf(c, block, B.BlockOutcome(stf, w, block, s).txResults, meta, txs, receipts)
    ensures |txs| <= 1
    ensures var own := B.TxExecutor(stf, w, block.context)(block.txs[k], B.Start(stf, w, block, s).snap).result;
            |txs| == 1 ==>
              && txs[0].hash == receipts[0].transactionHash == block.txs[0].id
              && receipts[0].gasUsed == own.gasUsed
              && receipts[0].logs == LogsOfEvents(c, own.events)
              && receipts[0].status == own.response.Ok?
  {
    hide B.Looped, B.TxExecutor, B.Begun, B.Ended, LogsOfEvents;
    L.ZeroLimitRuns(stf, w, block, s, k);
  }

  /** Below the maximal block limit the sums in the rows stay within the block's gas. */
  lemma RowSumsFit(stf: B.Stf, w: P.World, block: B.Block, s: S.Snap, c: Codec, meta: BlockMetadata,
                   txs: seq<StoredTransaction>, receipts: seq<StoredReceipt>, i: nat)
    requires block.gasLimit < U64_MAX && RowsOf(c, block, B.BlockOutcome(stf, w, block, s).txResults, meta, txs, receipts)
    requires i < |receipts|
    ensures receipts[i].cumulativeGasUsed <= L.GasSum(B.BlockOutcome(stf, w, block, s).txResults) <= block.gasLimit
  {
    hide B.BlockOutcome, L.GasSum;
    L.ResultSumsFit(stf, w, block, s, i + 1);
  }

  // ---------------------------------------------------------------------------------------
  // Tables

  datatype TxRow = TxRow(hash: Hash, blockNumber: U64, transactionIndex: nat, gasPrice: nat, other: Bytes)
  datatype ReceiptRow = ReceiptRow(
    transactionHash: Hash, transactionIndex: nat, blockNumber: U64, cumulativeGasUsed: nat, gasUsed: U64, status: bool, other: Bytes)
  datatype LogRow = LogRow(blockNumber: U64, transactionHash: Hash, log: StoredLog)

  /** Log rows are in the order of their ids. */
  datatype Tables = Tables(
    blocks: map<U64, StoredBlock>,
    transactions: map<Hash, TxRow>,
    receipts: map<Hash, ReceiptRow>,
    logs: seq<LogRow>,
    latest: Option<U64>)

  function TableBlock(t: Tables, number: U64): Option<StoredBlock> {
    if number in t.blocks then Some(t.blocks[number]) else None
  }

  ghost predicate HasHash(t: Tables, hash: Hash, number: U64) {
    number in t.blocks && t.blocks[number].hash == hash
  }

  /** A transaction joined with its block. */
  function TableTx(t: Tables, hash: Hash): Option<StoredTransaction> {
    if hash in t.transactions && t.transactions[hash].blockNumber in t.blocks then
      var r := t.transactions[hash];
      Some(StoredTransaction(r.hash, r.blockNumber, t.blocks[r.blockNumber].hash, r.transactionIndex, r.gasPrice, r.other))
    else None
  }

  function LogsOfTx(logs: seq<LogRow>, hash: Hash): seq<StoredLog> {
    if logs == [] then []
    else
      var rest := LogsOfTx(logs[..|logs| - 1], hash);
      if logs[|logs| - 1].transactionHash == hash then rest + [logs[|logs| - 1].log] else rest
  }

  /** A receipt joined with its transaction and its block, with its logs. */
  function TableReceipt(t: Tables, hash: Hash): Option<StoredReceipt> {
    if hash in t.receipts && hash in t.transactions && t.receipts[hash].blockNumber in t.blocks then
      var r := t.receipts[hash];
      Some(StoredReceipt(r.transactionHash, r.transactionIndex, t.blocks[r.blockNumber].hash, r.blockNumber, r.cumulativeGasUsed,
                         r.gasUsed, t.transactions[hash].gasPrice, LogsOfTx(t.logs, hash), r.status, r.other))
    else None
  }

  /**
   * Keys match rows, block hashes are unique, receipts belong to their transaction's block, the
   * indexes of a block differ, and every row belongs to a block.
   */
  ghost predicate WellKept(t: Tables) {
    && (forall n :: n in t.blocks ==> t.blocks[n].number == n)
    && (forall n, k :: n in t.blocks && k in t.blocks && t.blocks[n].hash == t.blocks[k].hash ==> n == k)
    && (forall h :: h in t.transactions ==> t.transactions[h].hash == h && t.transactions[h].blockNumber in t.blocks)
    && (forall h :: h in t.receipts ==> ReceiptKept(t, h))
    && (forall row :: row in t.logs ==> row.blockNumber in t.blocks)
    && IndexesDiffer(t)
  }

  ghost predicate ReceiptKept(t: Tables, h: Hash)
    requires h in t.receipts
  {
    h in t.transactions && t.receipts[h].transactionHash == h && t.receipts[h].blockNumber == t.transactions[h].blockNumber
  }

  predicate SamePlace(a: TxRow, b: TxRow) {
    a.blockNumber == b.blockNumber && a.transactionIndex == b.transactionIndex
  }

  ghost predicate IndexesDiffer(t: Tables) {
    forall h, g :: h in t.transactions && g in t.transactions && SamePlace(t.transactions[h], t.transactions[g]) ==> h == g
  }

  /** Every log belongs to the block of its transaction.  A store can break this: see `StoredLogsKeptIff`. */
  ghost predicate LogsKept(t: Tables) {
    forall row :: row in t.logs ==> LogKept(t, row)
  }

  ghost predicate LogKept(t: Tables, row: LogRow) {
    row.transactionHash in t.transactions && row.blockNumber == t.transactions[row.transactionHash].blockNumber
  }

  // The writes of one `store_block`, in order.

  function WithoutLogs(logs: seq<LogRow>, number: U64): seq<LogRow> {
    if logs == [] then []
    else
      var rest := WithoutLogs(logs[..|logs| - 1], number);
      if logs[|logs| - 1].blockNumber == number then rest else rest + [logs[|logs| - 1]]
  }

  /** Deletes what was stored for a block number. */
  function Cleared(t: Tables, number: U64): Tables {
    t.(logs := WithoutLogs(t.logs, number),
       receipts := map h | h in t.receipts && t.receipts[h].blockNumber != number :: t.receipts[h],
       transactions := map h | h in t.transactions && t.transactions[h].blockNumber != number :: t.transactions[h])
  }

  /** `INSERT OR REPLACE`: a row with the same number or the same hash goes. */
  function WithBlock(t: Tables, b: StoredBlock): Tables {
    t.(blocks := (map n | n in t.blocks && t.blocks[n].hash != b.hash :: t.blocks[n])[b.number := b])
  }

  function WithTx(t: Tables, tx: StoredTransaction, index: nat): Tables {
    t.(transactions := t.transactions[tx.hash := TxRow(tx.hash, tx.blockNumber, index, tx.gasPrice, tx.other)])
  }

  function LogRows(number: U64, hash: Hash, logs: seq<StoredLog>): seq<LogRow> {
    seq(|logs|, i requires 0 <= i < |logs| => LogRow(number, hash, logs[i]))
  }

  function WithReceipt(t: Tables, number: U64, r: StoredReceipt, index: nat): Tables {
    t.(receipts := t.receipts[r.transactionHash :=
                     ReceiptRow(r.transactionHash, index, r.blockNumber, r.cumulativeGasUsed, r.gasUsed, r.status, r.other)],
       logs := t.logs + LogRows(number, r.transactionHash, r.logs))
  }

  function WithTxs(t: Tables, txs: seq<StoredTransaction>): Tables {
    if txs == [] then t else WithTx(WithTxs(t, txs[..|txs| - 1]), txs[|txs| - 1], |txs| - 1)
  }

  function WithReceipts(t: Tables, number: U64, receipts: seq<StoredReceipt>): Tables {
    if receipts == [] then t
    else WithReceipt(WithReceipts(t, number, receipts[..|receipts| - 1]), number, receipts[|receipts| - 1], |receipts| - 1)
  }

  function Stored(t: Tables, b: StoredBlock, txs: seq<StoredTransaction>, receipts: seq<StoredReceipt>): Tables {
    WithReceipts(WithTxs(WithBlock(Cleared(t, b.number), b), txs), b.number, receipts).(latest := Some(b.number))
  }

  // ---------------------------------------------------------------------------------------
  // What is stored is what is read

  /** The rows of one block: indexes in order, one receipt for each transaction, the block's hash. */
  ghost predicate Consistent(b: StoredBlock, txs: seq<StoredTransaction>, receipts: seq<StoredReceipt>) {
    && |receipts| == |txs|
    && (forall i :: 0 <= i < |txs| ==>
          && txs[i].blockNumber == b.number && txs[i].blockHash == b.hash && txs[i].transactionIndex == i
          && receipts[i].transactionHash == txs[i].hash && receipts[i].transactionIndex == i
          && receipts[i].blockNumber == b.number && receipts[i].blockHash == b.hash
          && receipts[i].effectiveGasPrice == txs[i].gasPrice)
  }

  lemma RowsAreConsistent(c: Codec, block: B.Block, results: seq<B.TxResult>, meta: BlockMetadata, b: StoredBlock,
                          txs: seq<StoredTransaction>, receipts: seq<StoredReceipt>)
    requires RowsOf(c, block, results, meta, txs, receipts) && b.number == block.context.height && b.hash == meta.hash
    ensures Consistent(b, txs, receipts)
  {
  }

  ghost predicate Distinct(hashes: seq<Hash>) {
    forall i, j :: 0 <= i < j < |hashes| ==> hashes[i] != hashes[j]
  }

  /** No other block has the hash. */
  ghost predicate Storable(t: Tables, b: StoredBlock) {
    forall n :: n in t.blocks && t.blocks[n].hash == b.hash ==> n == b.number
  }

  function TxHashes(txs: seq<StoredTransaction>): seq<Hash> {
    seq(|txs|, i requires 0 <= i < |txs| => txs[i].hash)
  }

  function ReceiptHashes(receipts: seq<StoredReceipt>): seq<Hash> {
    seq(|receipts|, i requires 0 <= i < |receipts| => receipts[i].transactionHash)
  }

  function LookUp<K, V>(m: map<K, V>, k: K): Option<V> {
    if k in m then Some(m[k]) else None
  }

  /** The last position of a hash. */
  function LastOf(hashes: seq<Hash>, hash: Hash): (r: Option<nat>)
    ensures r.Some? ==> r.value < |hashes| && hashes[r.value] == hash
    ensures r.None? ==> hash !in hashes
  {
    if hashes == [] then None
    else if hashes[|hashes| - 1] == hash then Some(|hashes| - 1)
    else LastOf(hashes[..|hashes| - 1], hash)
  }

  lemma LastOfDistinct(hashes: seq<Hash>, i: nat)
    requires Distinct(hashes) && i < |hashes|
    ensures LastOf(hashes, hashes[i]) == Some(i)
  {
  }

  /** The rows written for a block answer under their own hashes; the other rows stay. */
  lemma {:induction false} WithTxsAt(t: Tables, txs: seq<StoredTransaction>, hash: Hash)
    ensures var u := WithTxs(t, txs); u == t.(transactions := u.transactions)
    ensures LookUp(WithTxs(t, txs).transactions, hash) ==
            match LastOf(TxHashes(txs), hash) {
              case Some(i) => Some(TxRow(txs[i].hash, txs[i].blockNumber, i, txs[i].gasPrice, txs[i].other))
              case None => LookUp(t.transactions, hash)
            }
  {
    if txs != [] {
      var init := txs[..|txs| - 1];
      assert TxHashes(txs)[..|init|] == TxHashes(init);
      WithTxsAt(t, init, hash);
    }
  }

  lemma {:induction false} LogsOfTxAppend(a: seq<LogRow>, b: seq<LogRow>, hash: Hash)
    ensures LogsOfTx(a + b, hash) == LogsOfTx(a, hash) + LogsOfTx(b, hash)
  {
    if b == [] {
      assert a + b == a;
    } else {
      assert (a + b)[..|a + b| - 1] == a + b[..|b| - 1];
      LogsOfTxAppend(a, b[..|b| - 1], hash);
    }
  }

  lemma {:induction false} LogsOfTxRows(number: U64, of: Hash, logs: seq<StoredLog>, hash: Hash)
    ensures LogsOfTx(LogRows(number, of, logs), hash) == if of == hash then logs else []
  {
    if logs != [] {
      var init := logs[..|logs| - 1];
      assert LogRows(number, of, logs)[..|init|] == LogRows(number, of, init);
      LogsOfTxRows(number, of, init, hash);
      assert logs == init + [logs[|init|]];
    }
  }

  lemma {:induction false} WithReceiptsAt(t: Tables, number: U64, receipts: seq<StoredReceipt>, hash: Hash)
    ensures var u := WithReceipts(t, number, receipts); u == t.(receipts := u.receipts, logs := u.logs)
    ensures LookUp(WithReceipts(t, number, receipts).receipts, hash) ==
            match LastOf(ReceiptHashes(receipts), hash) {
              case Some(i) =>
                var r := receipts[i];
                Some(ReceiptRow(r.transactionHash, i, r.blockNumber, r.cumulativeGasUsed, r.gasUsed, r.status, r.other))
              case None => LookUp(t.receipts, hash)
            }
  {
    if receipts != [] {
      var init := receipts[..|receipts| - 1];
      assert ReceiptHashes(receipts)[..|init|] == ReceiptHashes(init);
      WithReceiptsAt(t, number, init, hash);
    }
  }

  function LogsUnder(receipts: seq<StoredReceipt>, hash: Hash): seq<StoredLog> {
    if receipts == [] then []
    else
      var rest := LogsUnder(receipts[..|receipts| - 1], hash);
      var last := receipts[|receipts| - 1];
      if last.transactionHash == hash then rest + last.logs else rest
  }

  lemma {:induction false} WithReceiptsLogs(t: Tables, number: U64, receipts: seq<StoredReceipt>, hash: Hash)
    ensures LogsOfTx(WithReceipts(t, number, receipts).logs, hash) == LogsOfTx(t.logs, hash) + LogsUnder(receipts, hash)
  {
    if receipts != [] {
      var init, last := receipts[..|receipts| - 1], receipts[|receipts| - 1];
      WithReceiptsLogs(t, number, init, hash);
      var before := WithReceipts(t, number, init).logs;
      LogsOfTxAppend(before, LogRows(number, last.transactionHash, last.logs), hash);
      LogsOfTxRows(number, last.transactionHash, last.logs, hash);
    }
  }

  lemma {:induction false} LogsUnderNone(receipts: seq<StoredReceipt>, hash: Hash)
    requires hash !in ReceiptHashes(receipts)
    ensures LogsUnder(receipts, hash) == []
  {
    if receipts != [] {
      var init := receipts[..|receipts| - 1];
      assert ReceiptHashes(receipts) == ReceiptHashes(init) + [receipts[|init|].transactionHash];
      LogsUnderNone(init, hash);
    }
  }

  lemma {:induction false} LogsUnderNothingIff(receipts: seq<StoredReceipt>, hash: Hash)
    ensures LogsUnder(receipts, hash) == [] <==>
            forall j :: 0 <= j < |receipts| && receipts[j].transactionHash == hash ==> receipts[j].logs == []
  {
    if receipts != [] {
      LogsUnderNothingIff(receipts[..|receipts| - 1], hash);
    }
  }

  /** The last receipt of a transaction comes last. */
  lemma {:induction false} LogsUnderLast(receipts: seq<StoredReceipt>, hash: Hash, i: nat)
    requires LastOf(ReceiptHashes(receipts), hash) == Some(i)
    ensures i < |receipts| && LogsUnder(receipts, hash) == LogsUnder(receipts[..i], hash) + receipts[i].logs
  {
    var init, hashes := receipts[..|receipts| - 1], ReceiptHashes(receipts);
    assert hashes[..|init|] == ReceiptHashes(init);
    if i < |init| {
      LogsUnderLast(init, hash, i);
      assert init[..i] == receipts[..i];
    }
  }

  lemma {:induction false} WithReceiptsLogOwners(t: Tables, number: U64, receipts: seq<StoredReceipt>)
    ensures forall row :: row in WithReceipts(t, number, receipts).logs ==>
              row in t.logs || (row.transactionHash in ReceiptHashes(receipts) && row.blockNumber == number)
    ensures t.logs <= WithReceipts(t, number, receipts).logs
  {
    if receipts != [] {
      var init, last := receipts[..|receipts| - 1], receipts[|receipts| - 1];
      assert ReceiptHashes(receipts) == ReceiptHashes(init) + [last.transactionHash];
      WithReceiptsLogOwners(t, number, init);
    }
  }

  lemma {:induction false} WithoutLogsKeeps(logs: seq<LogRow>, number: U64)
    ensures forall row :: row in WithoutLogs(logs, number) <==> row in logs && row.blockNumber != number
  {
    if logs != [] {
      WithoutLogsKeeps(logs[..|logs| - 1], number);
      assert logs == logs[..|logs| - 1] + [logs[|logs| - 1]];
    }
  }

  /** Nothing of a transaction is left when all its logs are of the cleared block, and only then. */
  lemma {:induction false} ClearedAllIff(logs: seq<LogRow>, number: U64, hash: Hash)
    ensures LogsOfTx(WithoutLogs(logs, number), hash) == [] <==>
            forall row :: row in logs && row.transactionHash == hash ==> row.blockNumber == number
  {
    if logs != [] {
      ClearedAllIff(logs[..|logs| - 1], number, hash);
      assert logs == logs[..|logs| - 1] + [logs[|logs| - 1]];
    }
  }

  lemma SameEnd<T>(a: seq<T>, b: seq<T>, x: T)
    ensures a + [x] == b + [x] <==> a == b
  {
    assert a == (a + [x])[..|a + [x]| - 1] && b == (b + [x])[..|b + [x]| - 1];
  }

  /** All of them are left when none is of the cleared block, and only then. */
  lemma {:induction false} ClearedNoneIff(logs: seq<LogRow>, number: U64, hash: Hash)
    ensures |LogsOfTx(WithoutLogs(logs, number), hash)| <= |LogsOfTx(logs, hash)|
    ensures LogsOfTx(WithoutLogs(logs, number), hash) == LogsOfTx(logs, hash) <==>
            forall row :: row in logs && row.transactionHash == hash ==> row.blockNumber != number
  {
    if logs != [] {
      var init, last := logs[..|logs| - 1], logs[|logs| - 1];
      ClearedNoneIff(init, number, hash);
      assert logs == init + [last];
      SameEnd(LogsOfTx(WithoutLogs(init, number), hash), LogsOfTx(init, hash), last.log);
    }
  }

  /** The tables after the block row is in and before the transactions are. */
  function Based(t: Tables, b: StoredBlock): Tables {
    WithBlock(Cleared(t, b.number), b)
  }

  lemma BasedFacts(t: Tables, b: StoredBlock)
    requires forall n :: n in t.blocks && t.blocks[n].hash == b.hash ==> n == b.number
    ensures Based(t, b).blocks == t.blocks[b.number := b]
  {
  }

  /** After a store a block is read back, and every other block as before. */
  lemma StoredBlocks(t: Tables, b: StoredBlock, txs: seq<StoredTransaction>, receipts: seq<StoredReceipt>, number: U64)
    requires Storable(t, b)
    ensures Stored(t, b, txs, receipts).blocks == t.blocks[b.number := b]
    ensures TableBlock(Stored(t, b, txs, receipts), number) == if number == b.number then Some(b) else TableBlock(t, number)
  {
    BasedFacts(t, b);
    WithTxsAt(Based(t, b), txs, b.hash);
    WithReceiptsAt(WithTxs(Based(t, b), txs), b.number, receipts, b.hash);
  }

  lemma StoredTxRow(t: Tables, b: StoredBlock, txs: seq<StoredTransaction>, receipts: seq<StoredReceipt>, hash: Hash)
    ensures LookUp(Stored(t, b, txs, receipts).transactions, hash) ==
            match LastOf(TxHashes(txs), hash) {
              case Some(i) => Some(TxRow(txs[i].hash, txs[i].blockNumber, i, txs[i].gasPrice, txs[i].other))
              case None => LookUp(Cleared(t, b.number).transactions, hash)
            }
  {
    WithTxsAt(Based(t, b), txs, hash);
    WithReceiptsAt(WithTxs(Based(t, b), txs), b.number, receipts, hash);
  }

  /**
   * After a store the block's transactions are read back as they were given, the earlier ones of
   * that block number are gone, and all others read as before.
   */
  lemma StoredTxs(t: Tables, b: StoredBlock, txs: seq<StoredTransaction>, receipts: seq<StoredReceipt>, hash: Hash)
    requires WellKept(t) && Storable(t, b) && Consistent(b, txs, receipts)
    ensures TableTx(Stored(t, b, txs, receipts), hash) ==
            match LastOf(TxHashes(txs), hash) {
              case Some(i) => Some(txs[i])
              case None => if hash in t.transactions && t.transactions[hash].blockNumber == b.number then None else TableTx(t, hash)
            }
  {
    StoredBlocks(t, b, txs, receipts, b.number);
    StoredTxRow(t, b, txs, receipts, hash);
  }

  lemma StoredReceiptRow(t: Tables, b: StoredBlock, txs: seq<StoredTransaction>, receipts: seq<StoredReceipt>, hash: Hash)
    ensures LookUp(Stored(t, b, txs, receipts).receipts, hash) ==
            match LastOf(ReceiptHashes(receipts), hash) {
              case Some(i) =>
                var r := receipts[i];
                Some(ReceiptRow(r.transactionHash, i, r.blockNumber, r.cumulativeGasUsed, r.gasUsed, r.status, r.other))
              case None => LookUp(Cleared(t, b.number).receipts, hash)
            }
  {
    WithTxsAt(Based(t, b), txs, hash);
    WithReceiptsAt(WithTxs(Based(t, b), txs), b.number, receipts, hash);
  }

  /** What a store of another block leaves of a transaction's logs: they are deleted by block number. */
  function Leftover(t: Tables, b: StoredBlock, hash: Hash): seq<StoredLog> {
    LogsOfTx(WithoutLogs(t.logs, b.number), hash)
  }

  /** The logs read for a transaction: what is left of the earlier ones, then those of its receipts in the block. */
  lemma StoredLogs(t: Tables, b: StoredBlock, txs: seq<StoredTransaction>, receipts: seq<StoredReceipt>, hash: Hash)
    ensures LogsOfTx(Stored(t, b, txs, receipts).logs, hash) == Leftover(t, b, hash) + LogsUnder(receipts, hash)
  {
    WithTxsAt(Based(t, b), txs, hash);
    WithReceiptsLogs(WithTxs(Based(t, b), txs), b.number, receipts, hash);
  }

  /**
   * After a store the receipts are read back as they were given, joined, but with all the logs the
   * tables have of the transaction; the other receipts lose the logs they had in that block.
   */
  lemma StoredReceipts(t: Tables, b: StoredBlock, txs: seq<StoredTransaction>, receipts: seq<StoredReceipt>, hash: Hash)
    requires WellKept(t) && Storable(t, b) && Consistent(b, txs, receipts)
    ensures ReceiptHashes(receipts) == TxHashes(txs)
    ensures TableReceipt(Stored(t, b, txs, receipts), hash) ==
            match LastOf(TxHashes(txs), hash) {
              case Some(i) => Some(receipts[i].(logs := Leftover(t, b, hash) + LogsUnder(receipts, hash)))
              case None =>
                if TableReceipt(t, hash).None? || TableReceipt(t, hash).value.blockNumber == b.number then None
                else Some(TableReceipt(t, hash).value.(logs := Leftover(t, b, hash)))
            }
  {
    hide Stored, LogsOfTx, LastOf, WellKept, Storable, Consistent, TableReceipt;
    SameHashes(b, txs, receipts);
    match LastOf(TxHashes(txs), hash) {
      case Some(i) => StoredReceiptIsNew(t, b, txs, receipts, i);
      case None => StoredReceiptIsOld(t, b, txs, receipts, hash);
    }
  }

  lemma SameHashes(b: StoredBlock, txs: seq<StoredTransaction>, receipts: seq<StoredReceipt>)
    requires Consistent(b, txs, receipts)
    ensures ReceiptHashes(receipts) == TxHashes(txs)
    ensures forall i :: 0 <= i < |txs| ==> TxHashes(txs)[i] == txs[i].hash
  {
  }

  lemma StoredReceiptIsNew(t: Tables, b: StoredBlock, txs: seq<StoredTransaction>, receipts: seq<StoredReceipt>, i: nat)
    requires WellKept(t) && Storable(t, b) && Consistent(b, txs, receipts) && i < |txs|
    requires LastOf(TxHashes(txs), txs[i].hash) == Some(i)
    ensures TableReceipt(Stored(t, b, txs, receipts), txs[i].hash) ==
            Some(receipts[i].(logs := Leftover(t, b, txs[i].hash) + LogsUnder(receipts, txs[i].hash)))
  {
    hide Stored, LogsOfTx, LastOf, LogsUnder, Leftover, IndexesDiffer;
    SameHashes(b, txs, receipts);
    StoredBlocks(t, b, txs, receipts, b.number);
    StoredLogs(t, b, txs, receipts, txs[i].hash);
    StoredTxRow(t, b, txs, receipts, txs[i].hash);
    StoredReceiptRow(t, b, txs, receipts, txs[i].hash);
  }

  lemma StoredReceiptIsOld(t: Tables, b: StoredBlock, txs: seq<StoredTransaction>, receipts: seq<StoredReceipt>, hash: Hash)
    requires WellKept(t) && Storable(t, b) && Consistent(b, txs, receipts) && LastOf(TxHashes(txs), hash) == None
    ensures TableReceipt(Stored(t, b, txs, receipts), hash) ==
            if TableReceipt(t, hash).None? || TableReceipt(t, hash).value.blockNumber == b.number then None
            else Some(TableReceipt(t, hash).value.(logs := Leftover(t, b, hash)))
  {
    hide Stored, LogsOfTx, LastOf, LogsUnder, Leftover, IndexesDiffer;
    assert hash in t.receipts ==> ReceiptKept(t, hash);
    SameHashes(b, txs, receipts);
    LogsUnderNone(receipts, hash);
    assert Leftover(t, b, hash) + [] == Leftover(t, b, hash);
    StoredBlocks(t, b, txs, receipts, b.number);
    StoredLogs(t, b, txs, receipts, hash);
    StoredTxRow(t, b, txs, receipts, hash);
    StoredReceiptRow(t, b, txs, receipts, hash);
  }

  /**
   * The tables answer with the logs of the receipt itself: no log of the transaction is of another
   * block, and none of an earlier receipt of it in this one.
   */
  ghost predicate LogsMatch(t: Tables, b: StoredBlock, receipts: seq<StoredReceipt>, hash: Hash) {
    && (forall row :: row in t.logs && row.transactionHash == hash ==> row.blockNumber == b.number)
    && (forall i, j :: 0 <= i < j < |receipts| && receipts[i].transactionHash == hash == receipts[j].transactionHash
          ==> receipts[i].logs == [])
  }

  lemma LogsMatchIff(t: Tables, b: StoredBlock, receipts: seq<StoredReceipt>, hash: Hash, i: nat)
    requires LastOf(ReceiptHashes(receipts), hash) == Some(i)
    ensures i < |receipts| && (Leftover(t, b, hash) + LogsUnder(receipts, hash) == receipts[i].logs <==> LogsMatch(t, b, receipts, hash))
  {
    hide LogsUnder, Leftover, LastOf, ReceiptHashes, LogsMatch;
    LogsUnderLast(receipts, hash, i);
    OnlyTheEnd(Leftover(t, b, hash), LogsUnder(receipts[..i], hash), receipts[i].logs);
    NothingEarlierIff(t, b, receipts, hash, i);
  }

  lemma OnlyTheEnd<T>(a: seq<T>, b: seq<T>, c: seq<T>)
    ensures a + (b + c) == c <==> a == [] && b == []
  {
    assert |a + (b + c)| == |a| + |b| + |c|;
  }

  lemma NothingEarlierIff(t: Tables, b: StoredBlock, receipts: seq<StoredReceipt>, hash: Hash, i: nat)
    requires LastOf(ReceiptHashes(receipts), hash) == Some(i)
    ensures i < |receipts| && (Leftover(t, b, hash) == [] && LogsUnder(receipts[..i], hash) == [] <==> LogsMatch(t, b, receipts, hash))
  {
    hide LogsUnder, LastOf, LogsOfTx;
    ClearedAllIff(t.logs, b.number, hash);
    LogsUnderNothingIff(receipts[..i], hash);
    LastOfIsLast(ReceiptHashes(receipts), hash, i);
    forall j | 0 <= j < |receipts| ensures ReceiptHashes(receipts)[j] == receipts[j].transactionHash {
    }
    if LogsMatch(t, b, receipts, hash) {
      forall j | 0 <= j < i && receipts[j].transactionHash == hash ensures receipts[j].logs == [] {
        assert receipts[i].transactionHash == hash;
      }
    }
    if LogsUnder(receipts[..i], hash) == [] {
      forall j | 0 <= j < i && receipts[j].transactionHash == hash ensures receipts[j].logs == [] {
        assert receipts[..i][j] == receipts[j];
      }
    }
  }

  lemma {:induction false} LastOfIsLast(hashes: seq<Hash>, hash: Hash, i: nat)
    requires LastOf(hashes, hash) == Some(i)
    ensures forall j :: i < j < |hashes| ==> hashes[j] != hash
  {
    if hashes[|hashes| - 1] != hash {
      LastOfIsLast(hashes[..|hashes| - 1], hash, i);
    }
  }

  /** What is kept of the tables is kept by every store. */
  lemma StoredWellKept(t: Tables, b: StoredBlock, txs: seq<StoredTransaction>, receipts: seq<StoredReceipt>)
    requires WellKept(t) && Storable(t, b) && Consistent(b, txs, receipts)
    ensures WellKept(Stored(t, b, txs, receipts))
  {
    hide Stored, Consistent, ReceiptKept;
    var u := Stored(t, b, txs, receipts);
    StoredBlocks(t, b, txs, receipts, b.number);
    forall h | h in u.transactions ensures u.transactions[h].hash == h && u.transactions[h].blockNumber in u.blocks {
      StoredTxKept(t, b, txs, receipts, h);
    }
    forall h | h in u.receipts ensures ReceiptKept(u, h) {
      StoredReceiptKept(t, b, txs, receipts, h);
    }
    forall row | row in u.logs ensures row.blockNumber in u.blocks {
      StoredLogPlaced(t, b, txs, receipts, row);
    }
    StoredIndexesDiffer(t, b, txs, receipts);
  }

  lemma StoredTxKept(t: Tables, b: StoredBlock, txs: seq<StoredTransaction>, receipts: seq<StoredReceipt>, h: Hash)
    requires WellKept(t) && Storable(t, b) && Consistent(b, txs, receipts) && h in Stored(t, b, txs, receipts).transactions
    ensures var u := Stored(t, b, txs, receipts); u.transactions[h].hash == h && u.transactions[h].blockNumber in u.blocks
  {
    hide Stored, LastOf, IndexesDiffer;
    StoredBlocks(t, b, txs, receipts, b.number);
    StoredTxRow(t, b, txs, receipts, h);
  }

  lemma StoredReceiptKept(t: Tables, b: StoredBlock, txs: seq<StoredTransaction>, receipts: seq<StoredReceipt>, h: Hash)
    requires WellKept(t) && Storable(t, b) && Consistent(b, txs, receipts)
    requires h in Stored(t, b, txs, receipts).receipts
    ensures ReceiptKept(Stored(t, b, txs, receipts), h)
  {
    hide Stored, LastOf, IndexesDiffer;
    assert ReceiptHashes(receipts) == TxHashes(txs);
    StoredTxRow(t, b, txs, receipts, h);
    StoredReceiptRow(t, b, txs, receipts, h);
    assert h in t.receipts ==> ReceiptKept(t, h);
  }

  lemma StoredLogOwners(t: Tables, b: StoredBlock, txs: seq<StoredTransaction>, receipts: seq<StoredReceipt>)
    ensures forall row :: row in Stored(t, b, txs, receipts).logs ==>
              (row in t.logs && row.blockNumber != b.number) || (row.transactionHash in ReceiptHashes(receipts) && row.blockNumber == b.number)
    ensures forall row :: row in t.logs && row.blockNumber != b.number ==> row in Stored(t, b, txs, receipts).logs
  {
    WithTxsAt(Based(t, b), txs, b.hash);
    WithReceiptsLogOwners(WithTxs(Based(t, b), txs), b.number, receipts);
    WithoutLogsKeeps(t.logs, b.number);
    assert WithoutLogs(t.logs, b.number) <= Stored(t, b, txs, receipts).logs;
  }

  lemma StoredLogPlaced(t: Tables, b: StoredBlock, txs: seq<StoredTransaction>, receipts: seq<StoredReceipt>, row: LogRow)
    requires WellKept(t) && Storable(t, b) && row in Stored(t, b, txs, receipts).logs
    ensures row.blockNumber in Stored(t, b, txs, receipts).blocks
  {
    hide Stored, IndexesDiffer;
    StoredBlocks(t, b, txs, receipts, b.number);
    StoredLogOwners(t, b, txs, receipts);
  }

  lemma StoredIndexesDiffer(t: Tables, b: StoredBlock, txs: seq<StoredTransaction>, receipts: seq<StoredReceipt>)
    requires WellKept(t) && Consistent(b, txs, receipts)
    ensures IndexesDiffer(Stored(t, b, txs, receipts))
  {
    hide Stored, LastOf;
    var u := Stored(t, b, txs, receipts);
    forall h, g | h in u.transactions && g in u.transactions && SamePlace(u.transactions[h], u.transactions[g]) ensures h == g {
      StoredTxRow(t, b, txs, receipts, h);
      StoredTxRow(t, b, txs, receipts, g);
    }
  }

  /** Every log stays with its transaction's block exactly when no transaction leaves logs behind in another one. */
  lemma StoredLogsKeptIff(t: Tables, b: StoredBlock, txs: seq<StoredTransaction>, receipts: seq<StoredReceipt>)
    requires LogsKept(t) && Consistent(b, txs, receipts)
    ensures LogsKept(Stored(t, b, txs, receipts)) <==>
            forall row :: row in t.logs && row.blockNumber != b.number ==> row.transactionHash !in TxHashes(txs)
  {
    hide Stored, LastOf;
    SameHashes(b, txs, receipts);
    StoredLogOwners(t, b, txs, receipts);
    var u := Stored(t, b, txs, receipts);
    forall row | row in u.logs
      ensures LogKept(u, row) <==> row.blockNumber == b.number || row.transactionHash !in TxHashes(txs)
    {
      StoredTxRow(t, b, txs, receipts, row.transactionHash);
      assert row.blockNumber != b.number ==> LogKept(t, row);
    }
  }
}
