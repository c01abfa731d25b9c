/** Inputs that make the cache of the chain index serve what the tables do not hold. */
module StaleReads {
  import opened Types
  import opened ChainTables
  import opened ChainIndex

  // ---------------------------------------------------------------------------------------
  // A number stored twice

  function NoTables(): Tables {
    Tables(map[], map[], map[], [], None)
  }

  lemma StoredOver(first: StoredBlock, second: StoredBlock, gone: StoredTransaction, kept: StoredTransaction,
                   goneReceipt: StoredReceipt, keptReceipt: StoredReceipt)
    requires first.number == second.number && gone.hash != kept.hash
    requires Consistent(first, [gone], [goneReceipt]) && Consistent(second, [kept], [keptReceipt])
    ensures var t := Stored(NoTables(), first, [gone], [goneReceipt]); TableTx(Stored(t, second, [kept], [keptReceipt]), gone.hash) == None
  {
    hide Stored, LastOf;
    var t := Stored(NoTables(), first, [gone], [goneReceipt]);
    StoredWellKept(NoTables(), first, [gone], [goneReceipt]);
    StoredBlocks(NoTables(), first, [gone], [goneReceipt], first.number);
    LastOfDistinct(TxHashes([gone]), 0);
    StoredTxRow(NoTables(), first, [gone], [goneReceipt], gone.hash);
    StoredTxRow(NoTables(), first, [gone], [goneReceipt], kept.hash);
    assert forall h :: h in TxHashes([kept]) ==> h == kept.hash;
    StoredTxs(t, second, [kept], [keptReceipt], gone.hash);
  }

  /** Two entries put into an empty cache with room for both. */
  lemma BothCached<V>(first: V, second: V, h: Hash, g: Hash, once: map<Hash, V>, twice: map<Hash, V>)
    requires h != g && Filled(map[], [h], [first], once) && KeepsAllOf(map[], [h], 1, once, 2)
    requires Filled(once, [g], [second], twice) && KeepsAllOf(once, [g], 1, twice, 2)
    ensures h in twice && twice[h] == first
  {
    assert Elements([h]) == {h} && Elements([g]) == {g};
    assert [h][..1] == [h] && [g][..1] == [g] && once.Keys == {h};
    assert LastOf([g], h) == None && LastOf([h], h) == Some(0);
  }

  /**
   * A block stored over another of the same number leaves the other's transaction in the cache: it
   * is still served although no table has it.
   */
  method StaleRead(first: StoredBlock, second: StoredBlock, gone: StoredTransaction, kept: StoredTransaction,
                   goneReceipt: StoredReceipt, keptReceipt: StoredReceipt)
    returns (served: Option<StoredTransaction>, stored: Option<StoredTransaction>)
    requires first.number == second.number && gone.hash != kept.hash
    requires Consistent(first, [gone], [goneReceipt]) && Consistent(second, [kept], [keptReceipt])
    ensures served == Some(gone) && stored == None
  {
    hide Stored, WellKept, NothingStale, AllLogsMatch, BlocksAgree, NumbersAgree, TxsAgree, ReceiptsAgree, LatestIsGreatest, Consistent;
    hide Filled, KeepsAllOf, Storable, LastOf;
    var cache := new ChainCache(2, 2, 2);
    var index := new PersistentChainIndex(NoTables(), cache);
    index.StoreBlock(first, [gone], [goneReceipt]);
    ghost var once := cache.transactions;
    index.StoreBlock(second, [kept], [keptReceipt]);
    assert TxHashes([gone]) == [gone.hash] && TxHashes([kept]) == [kept.hash];
    BothCached(gone, kept, gone.hash, kept.hash, once, cache.transactions);
    StoredOver(first, second, gone, kept, goneReceipt, keptReceipt);
    served := index.GetTransaction(gone.hash);
    stored := TableTx(index.tables, gone.hash);
  }

  // ---------------------------------------------------------------------------------------
  // A transaction stored twice

  /** The logs of the first block stay with the transaction: they are deleted by block number and read by transaction. */
  lemma LogsStay(first: StoredBlock, second: StoredBlock, tx: StoredTransaction, again: StoredTransaction,
                 receipt: StoredReceipt, bare: StoredReceipt)
    requires first.number != second.number && first.hash != second.hash && tx.hash == again.hash && bare.logs == []
    requires Consistent(first, [tx], [receipt]) && Consistent(second, [again], [bare])
    ensures var t := Stored(NoTables(), first, [tx], [receipt]);
            TableReceipt(Stored(t, second, [again], [bare]), tx.hash) == Some(bare.(logs := receipt.logs))
  {
    hide Stored, LastOf, LogsOfTx;
    var t := Stored(NoTables(), first, [tx], [receipt]);
    StoredWellKept(NoTables(), first, [tx], [receipt]);
    StoredBlocks(NoTables(), first, [tx], [receipt], first.number);
    StoredLogs(NoTables(), first, [tx], [receipt], tx.hash);
    assert [receipt][0].transactionHash == [tx][0].hash && [bare][0].transactionHash == [again][0].hash;
    OneReceipt(receipt, tx.hash);
    OneReceipt(bare, tx.hash);
    NoLogs(first, tx.hash);
    StoredLogOwners(NoTables(), first, [tx], [receipt]);
    ClearedNoneIff(t.logs, second.number, tx.hash);
    LastOfDistinct(TxHashes([again]), 0);
    StoredReceipts(t, second, [again], [bare], tx.hash);
    assert [] + receipt.logs == receipt.logs && receipt.logs + [] == receipt.logs;
  }

  lemma OneReceipt(r: StoredReceipt, hash: Hash)
    requires r.transactionHash == hash
    ensures LogsUnder([r], hash) == r.logs
  {
    assert [r][..0] == [] && LogsUnder([], hash) == [];
  }

  lemma NoLogs(b: StoredBlock, hash: Hash)
    ensures Leftover(NoTables(), b, hash) == []
  {
  }

  /**
   * A transaction stored again by a block of a new number and a new hash, now without logs: the cache
   * serves the new receipt, the tables answer with the logs of the first block.
   */
  method StaleReceipt(first: StoredBlock, second: StoredBlock, tx: StoredTransaction, again: StoredTransaction,
                      receipt: StoredReceipt, bare: StoredReceipt)
    returns (served: Option<StoredReceipt>, stored: Option<StoredReceipt>)
    requires first.number != second.number && first.hash != second.hash && tx.hash == again.hash
    requires receipt.logs != [] && bare.logs == []
    requires Consistent(first, [tx], [receipt]) && Consistent(second, [again], [bare])
    ensures served == Some(bare) && stored == Some(bare.(logs := receipt.logs)) && served != stored
  {
    hide Stored, WellKept, NothingStale, AllLogsMatch, BlocksAgree, NumbersAgree, TxsAgree, ReceiptsAgree, LatestIsGreatest;
    hide KeepsAllOf, Storable;
    var cache := new ChainCache(2, 2, 2);
    var index := new PersistentChainIndex(NoTables(), cache);
    index.StoreBlock(first, [tx], [receipt]);
    index.StoreBlock(second, [again], [bare]);
    assert ReceiptHashes([bare]) == [tx.hash] && LastOf([tx.hash], tx.hash) == Some(0);
    LogsStay(first, second, tx, again, receipt, bare);
    served := index.GetReceipt(tx.hash);
    stored := TableReceipt(index.tables, tx.hash);
  }
}
