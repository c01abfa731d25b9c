/**
 * The transactions a block lists, and what runs of stores keep
 * (crates/rpc/chain-index/src/index.rs).
 */
module ChainRuns {
  import opened Types
  import opened ChainTables

  // ---------------------------------------------------------------------------------------
  // The transactions of a block

  /** `hashes` are the transactions of a block, each once, in the order of their indexes. */
  ghost predicate ListsBlock(t: Tables, number: U64, hashes: seq<Hash>) {
    && Distinct(hashes)
    && (forall h :: h in hashes <==> h in t.transactions && t.transactions[h].blockNumber == number)
    && (forall i, j :: 0 <= i < j < |hashes| ==>
          t.transactions[hashes[i]].transactionIndex <= t.transactions[hashes[j]].transactionIndex)
  }

  ghost predicate Increasing(t: Tables, hashes: seq<Hash>) {
    && (forall h :: h in hashes ==> h in t.transactions)
    && (forall i, j :: 0 <= i < j < |hashes| ==>
          t.transactions[hashes[i]].transactionIndex < t.transactions[hashes[j]].transactionIndex)
  }

  lemma ListedIncrease(t: Tables, number: U64, hashes: seq<Hash>)
    requires IndexesDiffer(t) && ListsBlock(t, number, hashes)
    ensures Increasing(t, hashes)
  {
    forall i, j | 0 <= i < j < |hashes|
      ensures t.transactions[hashes[i]].transactionIndex < t.transactions[hashes[j]].transactionIndex
    {
      assert hashes[i] in hashes && hashes[j] in hashes && hashes[i] != hashes[j];
      assert !SamePlace(t.transactions[hashes[i]], t.transactions[hashes[j]]);
    }
  }

  /** Two increasing lists of the same transactions are equal. */
  lemma {:induction false} SameOrder(t: Tables, a: seq<Hash>, b: seq<Hash>)
    requires Increasing(t, a) && Increasing(t, b) && forall h :: h in a <==> h in b
    ensures a == b
    decreases |a|
  {
    if a == [] {
      Inhabited(b);
    } else {
      assert a[|a| - 1] in b;
      SameLast(t, a, b);
      WithoutLast(t, a);
      WithoutLast(t, b);
      hide Increasing;
      SameOrder(t, a[..|a| - 1], b[..|b| - 1]);
      assert a == a[..|a| - 1] + [a[|a| - 1]] && b == b[..|b| - 1] + [b[|b| - 1]];
    }
  }

  lemma Inhabited(b: seq<Hash>)
    ensures b != [] ==> exists h :: h in b
  {
    assert b != [] ==> b[0] in b;
  }

  lemma SameLast(t: Tables, a: seq<Hash>, b: seq<Hash>)
    requires a != [] && b != [] && Increasing(t, a) && Increasing(t, b) && forall h :: h in a <==> h in b
    ensures a[|a| - 1] == b[|b| - 1]
  {
    var x, y := a[|a| - 1], b[|b| - 1];
    assert x in b && y in a;
    var i :| 0 <= i < |b| && b[i] == x;
    var j :| 0 <= j < |a| && a[j] == y;
  }

  lemma WithoutLast(t: Tables, a: seq<Hash>)
    requires a != [] && Increasing(t, a)
    ensures var init := a[..|a| - 1]; Increasing(t, init) && forall h :: h in init <==> h in a && h != a[|a| - 1]
  {
    var init, last := a[..|a| - 1], a[|a| - 1];
    assert a == init + [last];
    forall i | 0 <= i < |init| ensures init[i] != last {
      assert a[i] == init[i];
    }
  }

  /** A block has one listing. */
  lemma ListingIsUnique(t: Tables, number: U64, a: seq<Hash>, b: seq<Hash>)
    requires IndexesDiffer(t) && ListsBlock(t, number, a) && ListsBlock(t, number, b)
    ensures a == b
  {
    ListedIncrease(t, number, a);
    ListedIncrease(t, number, b);
    SameOrder(t, a, b);
  }

  lemma {:induction false} FirstIn(rows: map<Hash, TxRow>, hs: set<Hash>)
    requires hs <= rows.Keys && hs != {}
    ensures exists first :: first in hs && forall h :: h in hs ==> rows[first].transactionIndex <= rows[h].transactionIndex
    decreases |hs|
  {
    var first :| first in hs;
    if hs != {first} {
      FirstIn(rows, hs - {first});
      var other :| other in hs - {first} && forall h :: h in hs - {first} ==> rows[other].transactionIndex <= rows[h].transactionIndex;
      if rows[other].transactionIndex <= rows[first].transactionIndex {
        first := other;
      }
    }
    assert forall h :: h in hs ==> rows[first].transactionIndex <= rows[h].transactionIndex;
  }

  lemma {:induction false} ListingOf(rows: map<Hash, TxRow>, hs: set<Hash>) returns (hashes: seq<Hash>)
    requires hs <= rows.Keys
    ensures Distinct(hashes) && (forall h :: h in hashes <==> h in hs)
    ensures forall i, j :: 0 <= i < j < |hashes| ==> rows[hashes[i]].transactionIndex <= rows[hashes[j]].transactionIndex
    decreases |hs|
  {
    hashes := [];
    if hs != {} {
      FirstIn(rows, hs);
      var first :| first in hs && forall h :: h in hs ==> rows[first].transactionIndex <= rows[h].transactionIndex;
      var rest := ListingOf(rows, hs - {first});
      assert forall i :: 0 <= i < |rest| ==> rest[i] in hs - {first};
      hashes := [first] + rest;
    }
  }

  /** The listing of a block. */
  ghost function TableListing(t: Tables, number: U64): seq<Hash> {
    if exists hashes :: ListsBlock(t, number, hashes) then (var hashes :| ListsBlock(t, number, hashes); hashes) else []
  }

  lemma TableListingLists(t: Tables, number: U64)
    ensures ListsBlock(t, number, TableListing(t, number))
  {
    var hashes := ListingOf(t.transactions, set h | h in t.transactions && t.transactions[h].blockNumber == number);
    assert ListsBlock(t, number, hashes);
  }

  /** The hashes that are not in `gone`. */
  function Minus(hashes: seq<Hash>, gone: seq<Hash>): seq<Hash> {
    if hashes == [] then []
    else
      var rest, last := Minus(hashes[..|hashes| - 1], gone), hashes[|hashes| - 1];
      if last in gone then rest else rest + [last]
  }

  /** Each hash where it stands last. */
  function LastOnes(hashes: seq<Hash>): seq<Hash> {
    if hashes == [] then []
    else
      var last := hashes[|hashes| - 1];
      Minus(LastOnes(hashes[..|hashes| - 1]), [last]) + [last]
  }

  lemma {:induction false} MinusElements(hashes: seq<Hash>, gone: seq<Hash>)
    ensures forall h :: h in Minus(hashes, gone) <==> h in hashes && h !in gone
  {
    if hashes != [] {
      MinusElements(hashes[..|hashes| - 1], gone);
      assert hashes == hashes[..|hashes| - 1] + [hashes[|hashes| - 1]];
    }
  }

  lemma {:induction false} MinusIncreasing(t: Tables, hashes: seq<Hash>, gone: seq<Hash>)
    requires Increasing(t, hashes)
    ensures Increasing(t, Minus(hashes, gone))
  {
    if hashes != [] {
      var init, last := hashes[..|hashes| - 1], hashes[|hashes| - 1];
      WithoutLast(t, hashes);
      MinusIncreasing(t, init, gone);
      MinusElements(init, gone);
      AppendIncreasing(t, hashes, Minus(init, gone));
    }
  }

  lemma AppendIncreasing(t: Tables, hashes: seq<Hash>, part: seq<Hash>)
    requires hashes != [] && Increasing(t, hashes) && Increasing(t, part) && forall h :: h in part ==> h in hashes[..|hashes| - 1]
    ensures Increasing(t, part + [hashes[|hashes| - 1]])
  {
    var init, last := hashes[..|hashes| - 1], hashes[|hashes| - 1];
    forall i | 0 <= i < |part| ensures t.transactions[part[i]].transactionIndex < t.transactions[last].transactionIndex {
      assert part[i] in part;
      var k :| 0 <= k < |init| && init[k] == part[i];
      assert hashes[k] == part[i];
    }
    assert last in hashes;
  }

  lemma IncreasingLists(t: Tables, number: U64, hashes: seq<Hash>)
    requires Increasing(t, hashes)
    requires forall h :: h in hashes <==> h in t.transactions && t.transactions[h].blockNumber == number
    ensures ListsBlock(t, number, hashes)
  {
  }

  /** Other blocks list what they listed, less what the stored block took over. */
  lemma StoredListsOthers(t: Tables, b: StoredBlock, txs: seq<StoredTransaction>, receipts: seq<StoredReceipt>,
                          number: U64, hashes: seq<Hash>)
    requires WellKept(t) && Consistent(b, txs, receipts) && number != b.number && ListsBlock(t, number, hashes)
    ensures ListsBlock(Stored(t, b, txs, receipts), number, Minus(hashes, TxHashes(txs)))
  {
    hide Stored, LastOf;
    var u, rest := Stored(t, b, txs, receipts), Minus(hashes, TxHashes(txs));
    ListedIncrease(t, number, hashes);
    MinusElements(hashes, TxHashes(txs));
    MinusIncreasing(t, hashes, TxHashes(txs));
    forall h
      ensures h in rest <==> h in u.transactions && u.transactions[h].blockNumber == number
      ensures h in rest ==> u.transactions[h] == t.transactions[h]
    {
      StoredTxRow(t, b, txs, receipts, h);
    }
    assert Increasing(u, rest) by {
      forall i, j | 0 <= i < j < |rest| ensures u.transactions[rest[i]].transactionIndex < u.transactions[rest[j]].transactionIndex {
        assert rest[i] in rest && rest[j] in rest;
      }
    }
    IncreasingLists(u, number, rest);
  }

  ghost predicate Ranked(hashes: seq<Hash>, r: seq<Hash>) {
    && (forall h :: h in r ==> LastOf(hashes, h).Some?)
    && (forall i, j :: 0 <= i < j < |r| ==> LastOf(hashes, r[i]).value < LastOf(hashes, r[j]).value)
  }

  lemma {:induction false} MinusRanked(hashes: seq<Hash>, r: seq<Hash>, x: Hash)
    requires Ranked(hashes, r)
    ensures Ranked(hashes, Minus(r, [x]))
  {
    hide LastOf;
    if r != [] {
      var init := r[..|r| - 1];
      assert Ranked(hashes, init);
      MinusRanked(hashes, init, x);
      MinusElements(init, [x]);
      AppendRanked(hashes, r, Minus(init, [x]));
    }
  }

  lemma AppendRanked(hashes: seq<Hash>, r: seq<Hash>, part: seq<Hash>)
    requires r != [] && Ranked(hashes, r) && Ranked(hashes, part) && forall h :: h in part ==> h in r[..|r| - 1]
    ensures Ranked(hashes, part + [r[|r| - 1]])
  {
    hide LastOf;
    var init, last := r[..|r| - 1], r[|r| - 1];
    forall i | 0 <= i < |part| ensures LastOf(hashes, part[i]).value < LastOf(hashes, last).value {
      assert part[i] in part;
      var k :| 0 <= k < |init| && init[k] == part[i];
      assert r[k] == part[i];
    }
    assert last in r;
  }

  lemma {:induction false} LastOnesRanked(hashes: seq<Hash>)
    ensures Ranked(hashes, LastOnes(hashes)) && forall h :: h in LastOnes(hashes) <==> h in hashes
  {
    if hashes != [] {
      var init, last := hashes[..|hashes| - 1], hashes[|hashes| - 1];
      assert hashes == init + [last];
      LastOnesRanked(init);
      MinusRanked(init, LastOnes(init), last);
      MinusElements(LastOnes(init), [last]);
      var rest := Minus(LastOnes(init), [last]);
      forall h | h in rest ensures LastOf(hashes, h) == LastOf(init, h) && LastOf(init, h).value < |init| {
      }
      forall i, j | 0 <= i < j < |LastOnes(hashes)|
        ensures LastOf(hashes, LastOnes(hashes)[i]).value < LastOf(hashes, LastOnes(hashes)[j]).value
      {
        assert rest[i] in rest;
        assert j < |rest| ==> rest[j] in rest;
      }
    }
  }

  lemma {:induction false} LastOnesOfDistinct(hashes: seq<Hash>)
    requires Distinct(hashes)
    ensures LastOnes(hashes) == hashes
  {
    if hashes != [] {
      var init, last := hashes[..|hashes| - 1], hashes[|hashes| - 1];
      LastOnesOfDistinct(init);
      MinusAbsent(init, last);
      assert hashes == init + [last];
    }
  }

  lemma {:induction false} MinusAbsent(hashes: seq<Hash>, x: Hash)
    requires x !in hashes
    ensures Minus(hashes, [x]) == hashes
  {
    if hashes != [] {
      MinusAbsent(hashes[..|hashes| - 1], x);
    }
  }

  /** The stored block lists its transactions in order, one that it repeats where it stands last. */
  lemma StoredLists(t: Tables, b: StoredBlock, txs: seq<StoredTransaction>, receipts: seq<StoredReceipt>)
    requires Consistent(b, txs, receipts)
    ensures ListsBlock(Stored(t, b, txs, receipts), b.number, LastOnes(TxHashes(txs)))
  {
    hide Stored, LastOf;
    var u, given := Stored(t, b, txs, receipts), LastOnes(TxHashes(txs));
    LastOnesRanked(TxHashes(txs));
    forall h
      ensures h in given <==> h in u.transactions && u.transactions[h].blockNumber == b.number
      ensures h in given ==> u.transactions[h].transactionIndex == LastOf(TxHashes(txs), h).value
    {
      StoredTxRow(t, b, txs, receipts, h);
    }
    assert Increasing(u, given) by {
      forall i, j | 0 <= i < j < |given| ensures u.transactions[given[i]].transactionIndex < u.transactions[given[j]].transactionIndex {
        assert given[i] in given && given[j] in given;
      }
    }
    IncreasingLists(u, b.number, given);
  }

  // ---------------------------------------------------------------------------------------
  // Runs of stores

  datatype Entry = Entry(block: StoredBlock, txs: seq<StoredTransaction>, receipts: seq<StoredReceipt>)

  function StoredAll(t: Tables, entries: seq<Entry>): Tables {
    if entries == [] then t
    else
      var e := entries[|entries| - 1];
      Stored(StoredAll(t, entries[..|entries| - 1]), e.block, e.txs, e.receipts)
  }

  /** Block number, block hash and transaction hashes are new. */
  ghost predicate IsNew(t: Tables, e: Entry) {
    && e.block.number !in t.blocks
    && (forall n :: n in t.blocks ==> t.blocks[n].hash != e.block.hash)
    && Distinct(TxHashes(e.txs)) && (forall h :: h in TxHashes(e.txs) ==> h !in t.transactions)
    && Consistent(e.block, e.txs, e.receipts)
  }

  ghost predicate IsFreshRun(t: Tables, entries: seq<Entry>) {
    entries == [] || (IsFreshRun(t, entries[..|entries| - 1]) && IsNew(StoredAll(t, entries[..|entries| - 1]), entries[|entries| - 1]))
  }

  /** The block, its transactions in order and its receipts are in the tables. */
  ghost predicate Holds(t: Tables, e: Entry) {
    && TableBlock(t, e.block.number) == Some(e.block)
    && (forall i :: 0 <= i < |e.txs| ==> TableTx(t, e.txs[i].hash) == Some(e.txs[i]))
    && (forall i :: 0 <= i < |e.txs| && i < |e.receipts| ==> TableReceipt(t, e.txs[i].hash) == Some(e.receipts[i]))
    && ListsBlock(t, e.block.number, TxHashes(e.txs))
  }

  /** New transactions find no logs of theirs, and no block of that number has logs. */
  lemma NewLogsMatch(t: Tables, e: Entry, h: Hash)
    requires WellKept(t) && LogsKept(t) && IsNew(t, e)
    ensures h in TxHashes(e.txs) ==> LogsMatch(t, e.block, e.receipts, h)
    ensures Leftover(t, e.block, h) == LogsOfTx(t.logs, h)
  {
    SameHashes(e.block, e.txs, e.receipts);
    ClearedNoneIff(t.logs, e.block.number, h);
    assert forall row :: row in t.logs ==> LogKept(t, row);
    var hashes := TxHashes(e.txs);
    forall i, j | 0 <= i < j < |e.receipts| ensures e.receipts[i].transactionHash != e.receipts[j].transactionHash {
      assert hashes[i] != hashes[j];
    }
  }

  lemma StoredHolds(t: Tables, e: Entry)
    requires WellKept(t) && LogsKept(t) && IsNew(t, e)
    ensures Storable(t, e.block) && Holds(Stored(t, e.block, e.txs, e.receipts), e)
    ensures LogsKept(Stored(t, e.block, e.txs, e.receipts))
  {
    hide Stored, LogsMatch, Leftover, LogsUnder, LastOf, LogsKept;
    SameHashes(e.block, e.txs, e.receipts);
    StoredBlocks(t, e.block, e.txs, e.receipts, e.block.number);
    forall i | 0 <= i < |e.txs|
      ensures var u := Stored(t, e.block, e.txs, e.receipts);
              TableTx(u, e.txs[i].hash) == Some(e.txs[i]) && TableReceipt(u, e.txs[i].hash) == Some(e.receipts[i])
    {
      StoredHoldsTx(t, e, i);
    }
    StoredLists(t, e.block, e.txs, e.receipts);
    LastOnesOfDistinct(TxHashes(e.txs));
    NewKeepsLogs(t, e);
  }

  lemma NewKeepsLogs(t: Tables, e: Entry)
    requires LogsKept(t) && IsNew(t, e)
    ensures LogsKept(Stored(t, e.block, e.txs, e.receipts))
  {
    hide Stored;
    StoredLogsKeptIff(t, e.block, e.txs, e.receipts);
    assert forall row :: row in t.logs ==> LogKept(t, row);
  }

  lemma StoredHoldsTx(t: Tables, e: Entry, i: nat)
    requires WellKept(t) && LogsKept(t) && IsNew(t, e) && i < |e.txs|
    ensures var u := Stored(t, e.block, e.txs, e.receipts);
            TableTx(u, e.txs[i].hash) == Some(e.txs[i]) && TableReceipt(u, e.txs[i].hash) == Some(e.receipts[i])
  {
    hide Stored, LogsMatch, Leftover, LogsUnder, LastOf, WellKept, LogsKept, TableTx, TableReceipt;
    SameHashes(e.block, e.txs, e.receipts);
    var h := TxHashes(e.txs)[i];
    LastOfDistinct(TxHashes(e.txs), i);
    StoredTxs(t, e.block, e.txs, e.receipts, h);
    StoredReceipts(t, e.block, e.txs, e.receipts, h);
    NewLogsMatch(t, e, h);
    LogsMatchIff(t, e.block, e.receipts, h, i);
  }

  lemma StoredKeeps(t: Tables, e: Entry, d: Entry)
    requires WellKept(t) && LogsKept(t) && IsNew(t, e) && Holds(t, d)
    ensures Holds(Stored(t, e.block, e.txs, e.receipts), d)
  {
    hide Stored, LogsKept, ListsBlock, Minus, WellKept, LastOf, TxHashes;
    var u := Stored(t, e.block, e.txs, e.receipts);
    StoredBlocks(t, e.block, e.txs, e.receipts, d.block.number);
    forall i | 0 <= i < |d.txs|
      ensures TableTx(u, d.txs[i].hash) == Some(d.txs[i])
      ensures i < |d.receipts| ==> TableReceipt(u, d.txs[i].hash) == Some(d.receipts[i])
    {
      StoredKeepsTx(t, e, d.txs[i].hash);
    }
    StoredListsOthers(t, e.block, e.txs, e.receipts, d.block.number, TxHashes(d.txs));
    NewTakesNothing(t, e, d);
  }

  lemma NewTakesNothing(t: Tables, e: Entry, d: Entry)
    requires IsNew(t, e) && ListsBlock(t, d.block.number, TxHashes(d.txs))
    ensures Minus(TxHashes(d.txs), TxHashes(e.txs)) == TxHashes(d.txs)
  {
    hide Minus;
    NothingTaken(TxHashes(d.txs), TxHashes(e.txs));
  }

  lemma {:induction false} NothingTaken(hashes: seq<Hash>, gone: seq<Hash>)
    requires forall h :: h in gone ==> h !in hashes
    ensures Minus(hashes, gone) == hashes
  {
    if hashes != [] {
      NothingTaken(hashes[..|hashes| - 1], gone);
    }
  }

  lemma StoredKeepsTx(t: Tables, e: Entry, h: Hash)
    requires WellKept(t) && LogsKept(t) && IsNew(t, e) && TableTx(t, h).Some?
    ensures var u := Stored(t, e.block, e.txs, e.receipts);
            TableTx(u, h) == TableTx(t, h) && TableReceipt(u, h) == TableReceipt(t, h)
  {
    hide Stored, LogsMatch, Leftover, LogsUnder, LogsOfTx, LogsKept;
    StoredTxs(t, e.block, e.txs, e.receipts, h);
    StoredReceipts(t, e.block, e.txs, e.receipts, h);
    NewLogsMatch(t, e, h);
    assert h in t.receipts ==> ReceiptKept(t, h);
  }

  /** After any run of new blocks every one of them is still read back as it was stored. */
  lemma {:induction false} RunsReadBack(t: Tables, entries: seq<Entry>)
    requires WellKept(t) && LogsKept(t) && IsFreshRun(t, entries)
    ensures WellKept(StoredAll(t, entries)) && LogsKept(StoredAll(t, entries))
    ensures forall j :: 0 <= j < |entries| ==> Holds(StoredAll(t, entries), entries[j])
  {
    hide Stored, WellKept, LogsKept, Holds, IsNew;
    if entries != [] {
      var init, e := entries[..|entries| - 1], entries[|entries| - 1];
      RunsReadBack(t, init);
      RunStep(StoredAll(t, init), e, init);
      assert entries == init + [e];
    }
  }

  lemma RunStep(t: Tables, e: Entry, held: seq<Entry>)
    requires WellKept(t) && LogsKept(t) && IsNew(t, e) && forall j :: 0 <= j < |held| ==> Holds(t, held[j])
    ensures WellKept(Stored(t, e.block, e.txs, e.receipts)) && LogsKept(Stored(t, e.block, e.txs, e.receipts))
    ensures forall j :: 0 <= j < |held + [e]| ==> Holds(Stored(t, e.block, e.txs, e.receipts), (held + [e])[j])
  {
    hide Stored, WellKept, LogsKept, Holds, IsNew, Storable, Consistent;
    StoredHolds(t, e);
    NewIsConsistent(t, e);
    StoredWellKept(t, e.block, e.txs, e.receipts);
    forall j | 0 <= j < |held| ensures Holds(Stored(t, e.block, e.txs, e.receipts), held[j]) {
      StoredKeeps(t, e, held[j]);
    }
  }

  lemma NewIsConsistent(t: Tables, e: Entry)
    requires IsNew(t, e)
    ensures Consistent(e.block, e.txs, e.receipts)
  {
  }
}
