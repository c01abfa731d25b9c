/**
 * The LRU cache of the chain index (crates/rpc/chain-index/src/cache.rs) and the reads and the write
 * that go through it (crates/rpc/chain-index/src/index.rs).
 */
module ChainIndex {
  import opened Types
  import opened ChainTables
  import opened ChainRuns
  import B = Blocks

  // ---------------------------------------------------------------------------------------
  // What a cache must agree with

  ghost predicate BlocksAgree(t: Tables, m: map<U64, StoredBlock>) {
    forall n :: n in m ==> TableBlock(t, n) == Some(m[n])
  }

  ghost predicate NumbersAgree(t: Tables, m: map<Hash, U64>) {
    forall h :: h in m ==> HasHash(t, h, m[h])
  }

  ghost predicate TxsAgree(t: Tables, m: map<Hash, StoredTransaction>) {
    forall h :: h in m ==> TableTx(t, h) == Some(m[h])
  }

  ghost predicate ReceiptsAgree(t: Tables, m: map<Hash, StoredReceipt>) {
    forall h :: h in m ==> TableReceipt(t, h) == Some(m[h])
  }

  /** The entries were put in order: each one in `after` was put last under its key, or was there before. */
  ghost predicate Filled<V>(before: map<Hash, V>, hashes: seq<Hash>, rows: seq<V>, after: map<Hash, V>)
    requires |hashes| == |rows|
  {
    && (hashes != [] ==> hashes[|hashes| - 1] in after)
    && forall h :: h in after ==>
         match LastOf(hashes, h) {
           case Some(i) => after[h] == rows[i]
           case None => h in before && after[h] == before[h]
         }
  }

  /** One entry was put; others may have gone, but none changed or came. */
  ghost predicate Replaced<K(!new), V>(before: map<K, V>, key: K, value: V, after: map<K, V>) {
    && key in after && after[key] == value
    && forall k :: k in after && k != key ==> k in before && after[k] == before[k]
  }

  /** While there is room for the key nothing goes. */
  ghost predicate KeepsAll<K(!new), V>(before: map<K, V>, key: K, after: map<K, V>, capacity: nat) {
    |before.Keys + {key}| <= capacity ==> after.Keys == before.Keys + {key}
  }

  /** With room for all the hashes, the first `i` were put and nothing went. */
  ghost predicate KeepsAllOf<V>(before: map<Hash, V>, hashes: seq<Hash>, i: nat, after: map<Hash, V>, capacity: nat)
    requires i <= |hashes|
  {
    |before.Keys + Elements(hashes)| <= capacity ==> after.Keys == before.Keys + Elements(hashes[..i])
  }

  function Elements(hashes: seq<Hash>): set<Hash> {
    set h | h in hashes
  }

  function Raised(latest: Option<U64>, number: U64): Option<U64> {
    if latest.None? || number > latest.value then Some(number) else latest
  }

  // ---------------------------------------------------------------------------------------
  // The cache

  /** `LruCache::put`: when the cache is full some other entry goes, whichever was used least recently. */
  method Put<K(==, !new), V>(m: map<K, V>, capacity: nat, key: K, value: V) returns (r: map<K, V>)
    requires capacity > 0
    ensures Replaced(m, key, value, r)
    ensures |m| <= capacity ==> |r| <= capacity
    ensures KeepsAll(m, key, r, capacity)
  {
    PutSize(m, key, value);
    r := m;
    if key !in m && |m| >= capacity {
      var victim :| victim in m;
      EvictSize(m, victim);
      r := m - {victim};
      PutSize(r, key, value);
    }
    r := r[key := value];
  }

  lemma PutSize<K, V>(m: map<K, V>, key: K, value: V)
    ensures m[key := value].Keys == m.Keys + {key} && |m[key := value]| == |m.Keys + {key}| == |m| + if key in m then 0 else 1
    ensures |m| > 0 ==> exists k :: k in m
  {
    assert |m| > 0 ==> m.Keys != {};
    assert key in m ==> m.Keys + {key} == m.Keys;
  }

  lemma EvictSize<K, V>(m: map<K, V>, victim: K)
    requires victim in m
    ensures |m - {victim}| == |m| - 1
  {
    assert (m - {victim}).Keys == m.Keys - {victim};
  }

  /** The loops of `insert_block_with_data`: one `put` for each row. */
  method PutEach<V>(m: map<Hash, V>, capacity: nat, hashes: seq<Hash>, rows: seq<V>) returns (r: map<Hash, V>)
    requires 0 < capacity && |m| <= capacity && |hashes| == |rows|
    ensures |r| <= capacity && Filled(m, hashes, rows, r) && KeepsAllOf(m, hashes, |hashes|, r, capacity)
  {
    hide Replaced, Filled, KeepsAll, KeepsAllOf;
    r := m;
    NonePut(m, hashes, rows, capacity);
    for i := 0 to |rows|
      invariant |r| <= capacity && Filled(m, hashes[..i], rows[..i], r) && KeepsAllOf(m, hashes, i, r, capacity)
    {
      ghost var before := r;
      r := Put(r, capacity, hashes[i], rows[i]);
      PutOne(m, hashes, rows, i, before, r);
      KeysPut(m, hashes, i, before, r, capacity);
    }
    assert hashes[..|rows|] == hashes && rows[..|rows|] == rows;
  }

  class ChainCache {
    const blockCapacity: nat
    const txCapacity: nat
    const receiptCapacity: nat
    var blocks: map<U64, StoredBlock>
    var numbers: map<Hash, U64>
    var transactions: map<Hash, StoredTransaction>
    var receipts: map<Hash, StoredReceipt>
    var latest: Option<U64>

    ghost predicate Bounded()
      reads this
    {
      && blockCapacity > 0 && txCapacity > 0 && receiptCapacity > 0
      && |blocks| <= blockCapacity && |numbers| <= blockCapacity
      && |transactions| <= txCapacity && |receipts| <= receiptCapacity
    }

    ghost predicate Agrees(t: Tables)
      reads this
    {
      && BlocksAgree(t, blocks)
      && NumbersAgree(t, numbers)
      && TxsAgree(t, transactions)
      && ReceiptsAgree(t, receipts)
    }

    constructor (blockCapacity: nat, txCapacity: nat, receiptCapacity: nat)
      requires blockCapacity > 0 && txCapacity > 0 && receiptCapacity > 0
      ensures Bounded() && this.blockCapacity == blockCapacity && this.txCapacity == txCapacity && this.receiptCapacity == receiptCapacity
      ensures blocks == map[] && numbers == map[] && transactions == map[] && receipts == map[] && latest == None
      ensures forall t :: Agrees(t)
    {
      this.blockCapacity, this.txCapacity, this.receiptCapacity := blockCapacity, txCapacity, receiptCapacity;
      blocks, numbers, transactions, receipts, latest := map[], map[], map[], map[], None;
    }

    method SetLatestBlockNumber(number: U64)
      modifies this`latest
      ensures latest == Raised(old(latest), number)
    {
      if latest.None? || number > latest.value {
        latest := Some(number);
      }
    }

    /** Storing the block would evict nothing. */
    ghost predicate HasRoom(b: StoredBlock, txs: seq<StoredTransaction>, rs: seq<StoredReceipt>)
      reads this
    {
      && |numbers.Keys + {b.hash}| <= blockCapacity
      && |transactions.Keys + Elements(TxHashes(txs))| <= txCapacity
      && |receipts.Keys + Elements(ReceiptHashes(rs))| <= receiptCapacity
    }

    method InsertBlock(b: StoredBlock)
      requires Bounded()
      modifies this`blocks, this`numbers, this`latest
      ensures Bounded()
      ensures Replaced(old(blocks), b.number, b, blocks)
      ensures Replaced(old(numbers), b.hash, b.number, numbers)
      ensures KeepsAll(old(blocks), b.number, blocks, blockCapacity) && KeepsAll(old(numbers), b.hash, numbers, blockCapacity)
      ensures latest == Raised(old(latest), b.number)
    {
      hide Replaced, KeepsAll, Raised;
      var byNumber := Put(blocks, blockCapacity, b.number, b);
      var byHash := Put(numbers, blockCapacity, b.hash, b.number);
      blocks, numbers := byNumber, byHash;
      SetLatestBlockNumber(b.number);
    }

    method InsertTransaction(tx: StoredTransaction)
      requires Bounded()
      modifies this`transactions
      ensures Bounded() && Replaced(old(transactions), tx.hash, tx, transactions)
      ensures KeepsAll(old(transactions), tx.hash, transactions, txCapacity)
    {
      hide Replaced, KeepsAll;
      transactions := Put(transactions, txCapacity, tx.hash, tx);
    }

    method InsertReceipt(r: StoredReceipt)
      requires Bounded()
      modifies this`receipts
      ensures Bounded() && Replaced(old(receipts), r.transactionHash, r, receipts)
      ensures KeepsAll(old(receipts), r.transactionHash, receipts, receiptCapacity)
    {
      hide Replaced, KeepsAll;
      receipts := Put(receipts, receiptCapacity, r.transactionHash, r);
    }

    method InsertBlockWithData(b: StoredBlock, txs: seq<StoredTransaction>, rs: seq<StoredReceipt>)
      requires Bounded()
      modifies this
      ensures Bounded()
      ensures Replaced(old(blocks), b.number, b, blocks)
      ensures Replaced(old(numbers), b.hash, b.number, numbers)
      ensures Filled(old(transactions), TxHashes(txs), txs, transactions)
      ensures Filled(old(receipts), ReceiptHashes(rs), rs, receipts)
      ensures latest == Raised(old(latest), b.number)
      ensures KeepsAll(old(blocks), b.number, blocks, blockCapacity) && KeepsAll(old(numbers), b.hash, numbers, blockCapacity)
      ensures |TxHashes(txs)| == |txs| && KeepsAllOf(old(transactions), TxHashes(txs), |txs|, transactions, txCapacity)
      ensures |ReceiptHashes(rs)| == |rs| && KeepsAllOf(old(receipts), ReceiptHashes(rs), |rs|, receipts, receiptCapacity)
    {
      hide Replaced, Filled, KeepsAll, KeepsAllOf, TxHashes, ReceiptHashes;
      HashesOfPrefixes(txs, rs);
      InsertBlock(b);
      transactions := PutEach(transactions, txCapacity, TxHashes(txs), txs);
      receipts := PutEach(receipts, receiptCapacity, ReceiptHashes(rs), rs);
    }
  }

  lemma HashesOfPrefixes(txs: seq<StoredTransaction>, rs: seq<StoredReceipt>)
    ensures |TxHashes(txs)| == |txs| && |ReceiptHashes(rs)| == |rs|
    ensures forall i :: 0 <= i < |txs| ==> TxHashes(txs)[i] == txs[i].hash
    ensures forall i :: 0 <= i < |rs| ==> ReceiptHashes(rs)[i] == rs[i].transactionHash
  {
  }

  lemma NonePut<V>(start: map<Hash, V>, hashes: seq<Hash>, rows: seq<V>, capacity: nat)
    requires |hashes| == |rows|
    ensures Filled(start, hashes[..0], rows[..0], start) && KeepsAllOf(start, hashes, 0, start, capacity)
  {
    assert hashes[..0] == [] && Elements(hashes[..0]) == {};
  }

  /** One more entry put. */
  lemma {:induction false} PutOne<V>(start: map<Hash, V>, hashes: seq<Hash>, rows: seq<V>, i: nat,
                                     before: map<Hash, V>, after: map<Hash, V>)
    requires |hashes| == |rows| && i < |rows| && Filled(start, hashes[..i], rows[..i], before)
    requires Replaced(before, hashes[i], rows[i], after)
    ensures Filled(start, hashes[..i + 1], rows[..i + 1], after)
  {
    hide Filled, Replaced;
    var init, first := hashes[..i], rows[..i];
    FilledOnce(start, init, first, before, hashes[i], rows[i], after);
    assert hashes[..i + 1] == init + [hashes[i]];
    assert rows[..i + 1] == first + [rows[i]];
  }

  /** With room for all of them, one more entry is put and none goes. */
  lemma {:induction false} KeysPut<V>(start: map<Hash, V>, hashes: seq<Hash>, i: nat, before: map<Hash, V>, after: map<Hash, V>, capacity: nat)
    requires i < |hashes| && KeepsAllOf(start, hashes, i, before, capacity) && KeepsAll(before, hashes[i], after, capacity)
    ensures KeepsAllOf(start, hashes, i + 1, after, capacity)
  {
    hide Elements;
    if |start.Keys + Elements(hashes)| <= capacity {
      RoomForOne(start.Keys, hashes, i, capacity);
    }
  }

  lemma {:induction false} RoomForOne(start: set<Hash>, hashes: seq<Hash>, i: nat, capacity: nat)
    requires i < |hashes| && |start + Elements(hashes)| <= capacity
    ensures var more := start + Elements(hashes[..i]) + {hashes[i]};
            |more| <= capacity && more == start + Elements(hashes[..i + 1])
  {
    hide Elements;
    ElementsNext(hashes, i);
    var all, part := Elements(hashes), Elements(hashes[..i]);
    assert start + part + {hashes[i]} == start + (part + {hashes[i]}) <= start + all;
    Fewer(start + part + {hashes[i]}, start + all);
  }

  lemma {:induction false} ElementsNext(hashes: seq<Hash>, i: nat)
    requires i < |hashes|
    ensures Elements(hashes[..i + 1]) == Elements(hashes[..i]) + {hashes[i]} <= Elements(hashes)
  {
    assert hashes[..i + 1] == hashes[..i] + [hashes[i]];
  }

  lemma FilledOnce<V>(start: map<Hash, V>, hashes: seq<Hash>, rows: seq<V>, before: map<Hash, V>,
                      hash: Hash, row: V, after: map<Hash, V>)
    requires |hashes| == |rows| && Filled(start, hashes, rows, before) && Replaced(before, hash, row, after)
    ensures Filled(start, hashes + [hash], rows + [row], after)
  {
    assert (hashes + [hash])[..|hashes|] == hashes;
  }

  // ---------------------------------------------------------------------------------------
  // Storing a block keeps the cache right

  ghost predicate NumbersFresh(numbers: map<Hash, U64>, b: StoredBlock) {
    forall h :: h in numbers && numbers[h] == b.number ==> h == b.hash
  }

  ghost predicate TxsFresh(transactions: map<Hash, StoredTransaction>, b: StoredBlock, txs: seq<StoredTransaction>) {
    forall h :: h in transactions && transactions[h].blockNumber == b.number ==> h in TxHashes(txs)
  }

  /** No log of the transaction is of that block. */
  ghost predicate Untouched(t: Tables, b: StoredBlock, hash: Hash) {
    forall row :: row in t.logs && row.transactionHash == hash ==> row.blockNumber != b.number
  }

  /**
   * A receipt of the block is cached with just the logs the tables have of its transaction; any other
   * one is of another block, and the tables keep its logs.
   */
  ghost predicate ReceiptsRight(t: Tables, receipts: map<Hash, StoredReceipt>, b: StoredBlock, rs: seq<StoredReceipt>) {
    forall h :: h in receipts ==>
      if h in ReceiptHashes(rs) then LogsMatch(t, b, rs, h) else receipts[h].blockNumber != b.number && Untouched(t, b, h)
  }

  /** The cache holds nothing that the tables `t` no longer back once the block is stored. */
  ghost predicate NothingStale(t: Tables, numbers: map<Hash, U64>, transactions: map<Hash, StoredTransaction>,
                               receipts: map<Hash, StoredReceipt>, b: StoredBlock, txs: seq<StoredTransaction>, rs: seq<StoredReceipt>)
  {
    NumbersFresh(numbers, b) && TxsFresh(transactions, b, txs) && ReceiptsRight(t, receipts, b, rs)
  }

  /** The receipts of the block are read back with their own logs. */
  ghost predicate AllLogsMatch(t: Tables, b: StoredBlock, rs: seq<StoredReceipt>) {
    forall h :: h in ReceiptHashes(rs) ==> LogsMatch(t, b, rs, h)
  }

  /** Under a block number that was never stored only the logs of the block's own cached transactions matter. */
  lemma NewNumberIsNotStaleIff(t: Tables, c: ChainCache, b: StoredBlock, txs: seq<StoredTransaction>, rs: seq<StoredReceipt>)
    requires WellKept(t) && c.Agrees(t) && b.number !in t.blocks
    ensures NothingStale(t, c.numbers, c.transactions, c.receipts, b, txs, rs) <==>
            forall h :: h in c.receipts && h in ReceiptHashes(rs) ==> LogsMatch(t, b, rs, h)
  {
    hide WellKept, LogsMatch, TableReceipt, TableTx, Untouched, ReceiptHashes, TxHashes, HasHash;
    forall h | h in c.numbers ensures c.numbers[h] != b.number {
      NewNumberReads(t, b, h, c.numbers[h]);
    }
    forall h | h in c.transactions ensures c.transactions[h].blockNumber != b.number {
      NewNumberReads(t, b, h, b.number);
    }
    forall h | h in c.receipts ensures c.receipts[h].blockNumber != b.number && Untouched(t, b, h) {
      NewNumberReads(t, b, h, b.number);
    }
  }

  lemma NewNumberReads(t: Tables, b: StoredBlock, h: Hash, n: U64)
    requires WellKept(t) && b.number !in t.blocks
    ensures HasHash(t, h, n) ==> n != b.number
    ensures TableTx(t, h).Some? ==> TableTx(t, h).value.blockNumber != b.number
    ensures TableReceipt(t, h).Some? ==> TableReceipt(t, h).value.blockNumber != b.number
    ensures Untouched(t, b, h)
  {
    hide IndexesDiffer, LogsOfTx;
  }

  lemma BlocksStillAgree(t: Tables, b: StoredBlock, txs: seq<StoredTransaction>, receipts: seq<StoredReceipt>,
                         m: map<U64, StoredBlock>, after: map<U64, StoredBlock>)
    requires Storable(t, b) && BlocksAgree(t, m) && Replaced(m, b.number, b, after)
    ensures BlocksAgree(Stored(t, b, txs, receipts), after)
  {
    hide Stored;
    StoredBlocks(t, b, txs, receipts, b.number);
  }

  // After a store, a map of the cache is right exactly when it holds nothing of that number that the
  // block does not have and, for receipts, when the tables have the same logs.

  lemma NumbersAgreeIff(t: Tables, b: StoredBlock, txs: seq<StoredTransaction>, receipts: seq<StoredReceipt>,
                        numbers: map<Hash, U64>, after: map<Hash, U64>)
    requires Storable(t, b) && NumbersAgree(t, numbers) && Replaced(numbers, b.hash, b.number, after)
    ensures NumbersAgree(Stored(t, b, txs, receipts), after) <==> NumbersFresh(after, b)
  {
    hide Stored;
    StoredBlocks(t, b, txs, receipts, b.number);
    var u := Stored(t, b, txs, receipts);
    forall h | h in after ensures HasHash(u, h, after[h]) <==> (after[h] == b.number ==> h == b.hash) {
      assert h != b.hash ==> HasHash(t, h, after[h]);
    }
  }

  lemma TxsAgreeIff(t: Tables, b: StoredBlock, txs: seq<StoredTransaction>, receipts: seq<StoredReceipt>,
                    transactions: map<Hash, StoredTransaction>, after: map<Hash, StoredTransaction>)
    requires WellKept(t) && Storable(t, b) && Consistent(b, txs, receipts)
    requires TxsAgree(t, transactions) && Filled(transactions, TxHashes(txs), txs, after)
    ensures TxsAgree(Stored(t, b, txs, receipts), after) <==> TxsFresh(after, b, txs)
  {
    hide Stored;
    forall h | h in after
      ensures TableTx(Stored(t, b, txs, receipts), h) == Some(after[h]) <==> (after[h].blockNumber == b.number ==> h in TxHashes(txs))
    {
      StoredTxs(t, b, txs, receipts, h);
    }
  }

  lemma ReceiptsAgreeIff(t: Tables, b: StoredBlock, txs: seq<StoredTransaction>, receipts: seq<StoredReceipt>,
                         cached: map<Hash, StoredReceipt>, after: map<Hash, StoredReceipt>)
    requires WellKept(t) && Storable(t, b) && Consistent(b, txs, receipts)
    requires ReceiptsAgree(t, cached) && Filled(cached, ReceiptHashes(receipts), receipts, after)
    ensures ReceiptsAgree(Stored(t, b, txs, receipts), after) <==> ReceiptsRight(t, after, b, receipts)
  {
    hide Stored, LogsMatch, Untouched, TableReceipt, Leftover, LogsUnder, WellKept, Consistent, Storable;
    SameHashes(b, txs, receipts);
    forall h | h in after
      ensures TableReceipt(Stored(t, b, txs, receipts), h) == Some(after[h]) <==>
              if h in ReceiptHashes(receipts) then LogsMatch(t, b, receipts, h) else after[h].blockNumber != b.number && Untouched(t, b, h)
    {
      match LastOf(ReceiptHashes(receipts), h) {
        case Some(i) => ReceiptRightIff(t, b, txs, receipts, h, i);
        case None => OldReceiptRightIff(t, b, txs, receipts, h, after[h]);
      }
    }
  }

  lemma ReceiptRightIff(t: Tables, b: StoredBlock, txs: seq<StoredTransaction>, receipts: seq<StoredReceipt>, h: Hash, i: nat)
    requires WellKept(t) && Storable(t, b) && Consistent(b, txs, receipts) && LastOf(ReceiptHashes(receipts), h) == Some(i)
    ensures i < |receipts| && (TableReceipt(Stored(t, b, txs, receipts), h) == Some(receipts[i]) <==> LogsMatch(t, b, receipts, h))
  {
    hide Stored, LogsMatch, TableReceipt, Leftover, LogsUnder;
    StoredReceipts(t, b, txs, receipts, h);
    LogsMatchIff(t, b, receipts, h, i);
  }

  lemma OldReceiptRightIff(t: Tables, b: StoredBlock, txs: seq<StoredTransaction>, receipts: seq<StoredReceipt>, h: Hash,
                           cached: StoredReceipt)
    requires WellKept(t) && Storable(t, b) && Consistent(b, txs, receipts) && LastOf(ReceiptHashes(receipts), h) == None
    requires TableReceipt(t, h) == Some(cached)
    ensures TableReceipt(Stored(t, b, txs, receipts), h) == Some(cached) <==> cached.blockNumber != b.number && Untouched(t, b, h)
  {
    hide Stored;
    StoredReceipts(t, b, txs, receipts, h);
    ClearedNoneIff(t.logs, b.number, h);
  }

  // ---------------------------------------------------------------------------------------
  // The index

  class PersistentChainIndex {
    var tables: Tables
    const cache: ChainCache

    /** Every cached block, number, transaction and receipt is what the tables hold. */
    ghost predicate Valid()
      reads this, cache
    {
      WellKept(tables) && cache.Bounded() && cache.Agrees(tables)
    }

    /** The recorded latest block is the greatest one stored, and the cache knows it. */
    ghost predicate Current()
      reads this, cache
    {
      cache.latest == tables.latest && LatestIsGreatest(tables)
    }

    constructor (tables: Tables, cache: ChainCache)
      ensures this.tables == tables && this.cache == cache
    {
      this.tables, this.cache := tables, cache;
    }

    method Initialize()
      requires cache.Bounded()
      modifies cache
      ensures cache.Bounded() && (old(Valid()) ==> Valid())
      ensures old(cache.latest).None? && LatestIsGreatest(tables) ==> Current()
    {
      if tables.latest.Some? {
        cache.SetLatestBlockNumber(tables.latest.value);
      }
    }

    method LatestBlockNumber() returns (r: Option<U64>)
      ensures Current() ==> r == tables.latest
      ensures r == if cache.latest.Some? then cache.latest else tables.latest
    {
      if cache.latest.Some? {
        return cache.latest;
      }
      return tables.latest;
    }

    /** A block filled in from the tables also counts as seen: an index not initialized takes it for the latest. */
    method GetBlock(number: U64) returns (r: Option<StoredBlock>)
      requires cache.Bounded()
      modifies cache
      ensures cache.Bounded() && (old(Valid()) ==> Valid())
      ensures r == if number in old(cache.blocks) then Some(old(cache.blocks)[number]) else TableBlock(tables, number)
      ensures old(Valid()) ==> r == TableBlock(tables, number)
      ensures old(Valid()) ==> cache.latest == if number in tables.blocks && number !in old(cache.blocks)
                                               then Raised(old(cache.latest), number) else old(cache.latest)
      ensures old(Valid()) && old(Current()) ==> Current()
    {
      if number in cache.blocks {
        return Some(cache.blocks[number]);
      }
      r := TableBlock(tables, number);
      if r.Some? {
        cache.InsertBlock(r.value);
      }
    }

    method GetBlockNumber(hash: Hash) returns (r: Option<U64>)
      ensures Valid() && r.Some? ==> HasHash(tables, hash, r.value)
      ensures Valid() && r.None? ==> forall n :: !HasHash(tables, hash, n)
    {
      if hash in cache.numbers {
        return Some(cache.numbers[hash]);
      }
      if n :| n in tables.blocks && tables.blocks[n].hash == hash {
        return Some(n);
      }
      return None;
    }

    method GetBlockByHash(hash: Hash) returns (r: Option<StoredBlock>)
      requires cache.Bounded()
      modifies cache
      ensures cache.Bounded() && (old(Valid()) ==> Valid())
      ensures old(Valid()) && r.Some? ==> TableBlock(tables, r.value.number) == r && r.value.hash == hash
      ensures old(Valid()) && r.None? ==> forall n :: !HasHash(tables, hash, n)
      ensures old(Valid()) && old(Current()) ==> Current()
    {
      if hash in cache.numbers && cache.numbers[hash] in cache.blocks {
        return Some(cache.blocks[cache.numbers[hash]]);
      }
      var number := GetBlockNumber(hash);
      if number.None? {
        return None;
      }
      r := GetBlock(number.value);
    }

    /** The listing is read from the tables, least index first. */
    method GetBlockTransactions(number: U64) returns (hashes: seq<Hash>)
      ensures ListsBlock(tables, number, hashes)
    {
      var rows := tables.transactions;
      var rest := set h | h in rows && rows[h].blockNumber == number;
      hashes := [];
      while rest != {}
        invariant rest <= rows.Keys && Distinct(hashes)
        invariant forall h :: h in rows && rows[h].blockNumber == number <==> h in hashes || h in rest
        invariant forall i :: 0 <= i < |hashes| ==> hashes[i] !in rest
        invariant forall i, j :: 0 <= i < j < |hashes| ==> rows[hashes[i]].transactionIndex <= rows[hashes[j]].transactionIndex
        invariant forall i, h :: 0 <= i < |hashes| && h in rest ==> rows[hashes[i]].transactionIndex <= rows[h].transactionIndex
      {
        FirstIn(rows, rest);
        var next :| next in rest && forall h :: h in rest ==> rows[next].transactionIndex <= rows[h].transactionIndex;
        hashes := hashes + [next];
        rest := rest - {next};
      }
    }

    method GetTransaction(hash: Hash) returns (r: Option<StoredTransaction>)
      requires cache.Bounded()
      modifies cache
      ensures cache.Bounded() && cache.latest == old(cache.latest) && (old(Valid()) ==> Valid())
      ensures r == if hash in old(cache.transactions) then Some(old(cache.transactions)[hash]) else TableTx(tables, hash)
      ensures old(Valid()) ==> r == TableTx(tables, hash)
    {
      if hash in cache.transactions {
        return Some(cache.transactions[hash]);
      }
      r := TableTx(tables, hash);
      if r.Some? {
        cache.InsertTransaction(r.value);
      }
    }

    method GetReceipt(hash: Hash) returns (r: Option<StoredReceipt>)
      requires cache.Bounded()
      modifies cache
      ensures cache.Bounded() && cache.latest == old(cache.latest) && (old(Valid()) ==> Valid())
      ensures r == if hash in old(cache.receipts) then Some(old(cache.receipts)[hash]) else TableReceipt(tables, hash)
      ensures old(Valid()) ==> r == TableReceipt(tables, hash)
    {
      if hash in cache.receipts {
        return Some(cache.receipts[hash]);
      }
      r := TableReceipt(tables, hash);
      if r.Some? {
        assert old(Valid()) ==> ReceiptKept(tables, hash);
        cache.InsertReceipt(r.value);
      }
    }

    /** The rows of one block, in one transaction. */
    method WriteRows(b: StoredBlock, txs: seq<StoredTransaction>, receipts: seq<StoredReceipt>)
      modifies this`tables
      ensures tables == Stored(old(tables), b, txs, receipts)
    {
      tables := Cleared(tables, b.number);
      tables := WithBlock(tables, b);
      for i := 0 to |txs|
        invariant tables == WithTxs(Based(old(tables), b), txs[..i])
      {
        assert txs[..i + 1][..i] == txs[..i];
        tables := WithTx(tables, txs[i], i);
      }
      assert txs[..|txs|] == txs;
      for i := 0 to |receipts|
        invariant tables == WithReceipts(WithTxs(Based(old(tables), b), txs), b.number, receipts[..i])
      {
        assert receipts[..i + 1][..i] == receipts[..i];
        tables := WithReceipt(tables, b.number, receipts[i], i);
      }
      assert receipts[..|receipts|] == receipts;
      tables := tables.(latest := Some(b.number));
    }

    /**
     * `store_block`.  Afterwards the cache is right exactly when it holds nothing stale; with room in
     * the cache that is so exactly when it held nothing stale before and the block's receipts find
     * no other logs of theirs.  The latest block stays known exactly when the number does not go back.
     */
    method StoreBlock(b: StoredBlock, txs: seq<StoredTransaction>, receipts: seq<StoredReceipt>)
      requires cache.Bounded()
      modifies this`tables, cache
      ensures cache.Bounded()
      ensures tables == Stored(old(tables), b, txs, receipts)
      ensures cache.latest == Raised(old(cache.latest), b.number)
      ensures Filled(old(cache.transactions), TxHashes(txs), txs, cache.transactions)
      ensures Filled(old(cache.receipts), ReceiptHashes(receipts), receipts, cache.receipts)
      ensures |TxHashes(txs)| == |txs| && KeepsAllOf(old(cache.transactions), TxHashes(txs), |txs|, cache.transactions, cache.txCapacity)
      ensures old(Valid()) && Storable(old(tables), b) && Consistent(b, txs, receipts) ==>
                && WellKept(tables)
                && (Valid() <==> NothingStale(old(tables), cache.numbers, cache.transactions, cache.receipts, b, txs, receipts))
                && (old(Clean(b, txs, receipts)) ==> Valid())
                && (old(cache.HasRoom(b, txs, receipts)) ==> (Valid() <==> old(Clean(b, txs, receipts))))
      ensures old(Current()) && Storable(old(tables), b) ==>
                (Current() <==> forall n :: n in old(tables.blocks) ==> n <= b.number)
    {
      hide Stored, Storable, Consistent, Replaced, Filled, WellKept, Elements, TxHashes, ReceiptHashes;
      hide NumbersFresh, TxsFresh, ReceiptsRight, AllLogsMatch, KeepsAll, KeepsAllOf;
      hide BlocksAgree, NumbersAgree, TxsAgree, ReceiptsAgree, LatestIsGreatest;
      ghost var t := tables;
      ghost var blocks, numbers, transactions, cached := cache.blocks, cache.numbers, cache.transactions, cache.receipts;
      WriteRows(b, txs, receipts);
      cache.InsertBlockWithData(b, txs, receipts);
      if old(Current()) && Storable(t, b) {
        LatestStaysGreatest(t, b, txs, receipts);
        RaisedToLatest(t, b);
      }
      if old(Valid()) && Storable(t, b) && Consistent(b, txs, receipts) {
        StoredWellKept(t, b, txs, receipts);
        BlocksStillAgree(t, b, txs, receipts, blocks, cache.blocks);
        NumbersAgreeIff(t, b, txs, receipts, numbers, cache.numbers);
        TxsAgreeIff(t, b, txs, receipts, transactions, cache.transactions);
        ReceiptsAgreeIff(t, b, txs, receipts, cached, cache.receipts);
        FreshBefore(b, txs, numbers, transactions, cache.numbers, cache.transactions);
        RightBefore(t, b, receipts, cached, cache.receipts);
        if old(cache.HasRoom(b, txs, receipts)) {
          AllKept(numbers, b.hash, cache.numbers, cache.blockCapacity, transactions, TxHashes(txs), cache.transactions, cache.txCapacity);
          AllKept(numbers, b.hash, cache.numbers, cache.blockCapacity, cached, ReceiptHashes(receipts), cache.receipts, cache.receiptCapacity);
        }
      }
    }

    /** The cache holds nothing that storing the block makes stale, and its receipts find only their own logs. */
    ghost predicate Clean(b: StoredBlock, txs: seq<StoredTransaction>, receipts: seq<StoredReceipt>)
      reads this, cache
    {
      && NothingStale(tables, cache.numbers, cache.transactions, cache.receipts, b, txs, receipts)
      && AllLogsMatch(tables, b, receipts)
    }

    /** `index_block`: with a new number above all others, a new hash and new transactions everything stays right. */
    method IndexBlock(c: Codec, block: B.Block, result: B.BlockResult, meta: BlockMetadata) returns (ghost e: Entry)
      requires cache.Bounded()
      modifies this`tables, cache
      ensures cache.Bounded()
      ensures RowsOf(c, block, result.txResults, meta, e.txs, e.receipts)
      ensures |e.txs| == |block.txs| || |e.txs| == |result.txResults|
      ensures e.block.number == block.context.height && e.block.hash == meta.hash
      ensures tables == Stored(old(tables), e.block, e.txs, e.receipts)
      ensures old(Valid()) && LogsKept(old(tables)) && IsNew(old(tables), e) ==> Valid() && LogsKept(tables) && Holds(tables, e)
      ensures old(Valid() && Current()) && IsNew(old(tables), e) ==>
                (Current() <==> forall n :: n in old(tables.blocks) ==> n < block.context.height)
    {
      hide Stored, WellKept, NothingStale, AllLogsMatch, Holds, RowsOf, Filled, LatestIsGreatest, Consistent, LogsKept;
      hide BlocksAgree, NumbersAgree, TxsAgree, ReceiptsAgree;
      var stored, txs, receipts := BuildIndexData(c, block, result, meta);
      e := Entry(stored, txs, receipts);
      RowsAreConsistent(c, block, result.txResults, meta, stored, txs, receipts);
      if old(Valid()) && LogsKept(tables) && IsNew(tables, e) {
        StoredHolds(tables, e);
        NewIsClean(tables, cache, e);
      }
      StoreBlock(stored, txs, receipts);
    }
  }

  lemma AllNewLogsMatch(t: Tables, e: Entry)
    requires WellKept(t) && LogsKept(t) && IsNew(t, e)
    ensures AllLogsMatch(t, e.block, e.receipts)
  {
    hide WellKept, LogsKept, LogsMatch, Leftover;
    SameHashes(e.block, e.txs, e.receipts);
    forall h | h in ReceiptHashes(e.receipts) ensures LogsMatch(t, e.block, e.receipts, h) {
      NewLogsMatch(t, e, h);
    }
  }

  lemma NewIsClean(t: Tables, c: ChainCache, e: Entry)
    requires WellKept(t) && LogsKept(t) && IsNew(t, e) && c.Agrees(t)
    ensures NothingStale(t, c.numbers, c.transactions, c.receipts, e.block, e.txs, e.receipts)
    ensures AllLogsMatch(t, e.block, e.receipts)
  {
    hide WellKept, LogsKept, NothingStale, LogsMatch, BlocksAgree, NumbersAgree, TxsAgree, ReceiptsAgree;
    AllNewLogsMatch(t, e);
    NewNumberIsNotStaleIff(t, c, e.block, e.txs, e.receipts);
  }

  // What was not stale before is not stale after; what was is still, unless it was evicted.

  lemma FreshBefore(b: StoredBlock, txs: seq<StoredTransaction>, numbers: map<Hash, U64>, transactions: map<Hash, StoredTransaction>,
                    numbers': map<Hash, U64>, transactions': map<Hash, StoredTransaction>)
    requires Replaced(numbers, b.hash, b.number, numbers') && |TxHashes(txs)| == |txs| && Filled(transactions, TxHashes(txs), txs, transactions')
    ensures NumbersFresh(numbers, b) ==> NumbersFresh(numbers', b)
    ensures TxsFresh(transactions, b, txs) ==> TxsFresh(transactions', b, txs)
    ensures numbers.Keys <= numbers'.Keys && NumbersFresh(numbers', b) ==> NumbersFresh(numbers, b)
    ensures transactions.Keys <= transactions'.Keys && TxsFresh(transactions', b, txs) ==> TxsFresh(transactions, b, txs)
  {
  }

  lemma RightBefore(t: Tables, b: StoredBlock, rs: seq<StoredReceipt>, cached: map<Hash, StoredReceipt>, cached': map<Hash, StoredReceipt>)
    requires |ReceiptHashes(rs)| == |rs| && Filled(cached, ReceiptHashes(rs), rs, cached')
    ensures ReceiptsRight(t, cached, b, rs) && AllLogsMatch(t, b, rs) ==> ReceiptsRight(t, cached', b, rs)
    ensures cached.Keys + Elements(ReceiptHashes(rs)) <= cached'.Keys && ReceiptsRight(t, cached', b, rs) ==>
              ReceiptsRight(t, cached, b, rs) && AllLogsMatch(t, b, rs)
  {
    hide LogsMatch, Untouched, LastOf;
  }

  lemma AllKept<V>(numbers: map<Hash, U64>, hash: Hash, numbers': map<Hash, U64>, capacity: nat,
                   before: map<Hash, V>, hashes: seq<Hash>, after: map<Hash, V>, room: nat)
    requires KeepsAll(numbers, hash, numbers', capacity) && |numbers.Keys + {hash}| <= capacity
    requires KeepsAllOf(before, hashes, |hashes|, after, room) && |before.Keys + Elements(hashes)| <= room
    ensures numbers.Keys <= numbers'.Keys && before.Keys + Elements(hashes) <= after.Keys
  {
    assert hashes[..|hashes|] == hashes;
  }

  lemma LatestOfStored(t: Tables, b: StoredBlock, txs: seq<StoredTransaction>, receipts: seq<StoredReceipt>)
    ensures Stored(t, b, txs, receipts).latest == Some(b.number)
  {
  }

  /** The recorded latest block is stored, and none above it is. */
  ghost predicate LatestIsGreatest(t: Tables) {
    match t.latest
    case None => t.blocks == map[]
    case Some(latest) => latest in t.blocks && forall n :: n in t.blocks ==> n <= latest
  }

  /** Storing under growing numbers, and only that, keeps the latest block the greatest one. */
  lemma LatestStaysGreatest(t: Tables, b: StoredBlock, txs: seq<StoredTransaction>, receipts: seq<StoredReceipt>)
    requires Storable(t, b)
    ensures Stored(t, b, txs, receipts).latest == Some(b.number)
    ensures LatestIsGreatest(Stored(t, b, txs, receipts)) <==> forall n :: n in t.blocks ==> n <= b.number
  {
    hide Stored, Storable;
    StoredBlocks(t, b, txs, receipts, b.number);
    LatestOfStored(t, b, txs, receipts);
    assert forall n :: n in t.blocks ==> n in Stored(t, b, txs, receipts).blocks;
  }

  lemma RaisedToLatest(t: Tables, b: StoredBlock)
    requires LatestIsGreatest(t)
    ensures (forall n :: n in t.blocks ==> n <= b.number) ==> Raised(t.latest, b.number) == Some(b.number)
  {
  }
}
