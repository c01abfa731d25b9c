/** Log queries over a range of blocks (crates/rpc/chain-index/src/provider.rs). */
module Logs {
  import opened Types
  import opened ChainTables
  import opened ChainRuns
  import opened ChainIndex

  const MAX_BLOCK_RANGE := 1000
  const MAX_LOGS := 10_000

  datatype FilterAddress = SingleAddress(address: Bytes) | AnyAddress(addresses: seq<Bytes>)
  datatype FilterTopic = SingleTopic(topic: Hash) | AnyTopic(topics: seq<Hash>)
  datatype LogFilter = LogFilter(address: Option<FilterAddress>, topics: Option<seq<Option<FilterTopic>>>)

  datatype RpcLog = RpcLog(blockNumber: U64, blockHash: Hash, txHash: Hash, txIndex: nat, logIndex: nat, log: StoredLog)

  datatype LogError = InvertedRange | RangeTooLarge | TooManyResults
  datatype Answer = Found(logs: seq<RpcLog>) | Refused(error: LogError)

  /** What the query reads from a chain index. */
  datatype Index = Index(block: U64 -> Option<StoredBlock>, hashes: U64 -> seq<Hash>, receipt: Hash -> Option<StoredReceipt>)

  // ---------------------------------------------------------------------------------------
  // The simple form: number the logs of a block, then filter

  predicate AddressMatches(filter: Option<FilterAddress>, log: StoredLog) {
    match filter
    case None => true
    case Some(SingleAddress(a)) => log.address == a
    case Some(AnyAddress(s)) => log.address in s
  }

  predicate TopicMatches(filter: FilterTopic, topic: Hash) {
    match filter
    case SingleTopic(t) => topic == t
    case AnyTopic(s) => topic in s
  }

  /** Every position that is asked for exists and matches. */
  predicate TopicsMatch(filter: seq<Option<FilterTopic>>, log: StoredLog) {
    forall i :: 0 <= i < |filter| && filter[i].Some? ==> i < |log.topics| && TopicMatches(filter[i].value, log.topics[i])
  }

  predicate Matches(filter: LogFilter, log: StoredLog) {
    AddressMatches(filter.address, log) && (filter.topics.Some? ==> TopicsMatch(filter.topics.value, log))
  }

  datatype Place = Place(txHash: Hash, txIndex: nat, log: StoredLog)

  function LogsAt(ix: Index, hash: Hash): seq<StoredLog> {
    match ix.receipt(hash)
    case Some(r) => r.logs
    case None => []
  }

  function Places(hash: Hash, txIndex: nat, logs: seq<StoredLog>): seq<Place> {
    seq(|logs|, i requires 0 <= i < |logs| => Place(hash, txIndex, logs[i]))
  }

  /** The logs of a block: those of its receipts, one after the other. */
  function Concatenated(ix: Index, hashes: seq<Hash>): seq<Place> {
    if hashes == [] then []
    else
      var init, last := hashes[..|hashes| - 1], hashes[|hashes| - 1];
      Concatenated(ix, init) + Places(last, |init|, LogsAt(ix, last))
  }

  function Numbered(b: StoredBlock, number: U64, places: seq<Place>): seq<RpcLog> {
    seq(|places|, k requires 0 <= k < |places| => RpcLog(number, b.hash, places[k].txHash, places[k].txIndex, k, places[k].log))
  }

  function BlockLogs(ix: Index, number: U64): seq<RpcLog> {
    match ix.block(number)
    case None => []
    case Some(b) => Numbered(b, number, Concatenated(ix, ix.hashes(number)))
  }

  /** The logs of `count` blocks from `first` on. */
  function RangeLogs(ix: Index, first: U64, count: nat): seq<RpcLog>
    requires first + count <= U64_MAX + 1
  {
    if count == 0 then [] else RangeLogs(ix, first, count - 1) + BlockLogs(ix, first + count - 1)
  }

  function Matching(filter: LogFilter, logs: seq<RpcLog>): seq<RpcLog> {
    if logs == [] then []
    else
      var rest, last := Matching(filter, logs[..|logs| - 1]), logs[|logs| - 1];
      if Matches(filter, last.log) then rest + [last] else rest
  }

  function Query(ix: Index, first: U64, last: U64, filter: LogFilter): Answer {
    if first > last then Refused(InvertedRange)
    else if last - first + 1 > MAX_BLOCK_RANGE then Refused(RangeTooLarge)
    else
      var logs := Matching(filter, RangeLogs(ix, first, last - first + 1));
      if |logs| > MAX_LOGS then Refused(TooManyResults) else Found(logs)
  }

  // ---------------------------------------------------------------------------------------
  // Filtering

  lemma {:induction false} MatchingAppend(filter: LogFilter, a: seq<RpcLog>, b: seq<RpcLog>)
    ensures Matching(filter, a + b) == Matching(filter, a) + Matching(filter, b)
  {
    if b == [] {
      assert a + b == a;
    } else {
      assert (a + b)[..|a + b| - 1] == a + b[..|b| - 1];
      MatchingAppend(filter, a, b[..|b| - 1]);
    }
  }

  lemma {:induction false} MatchingPrefix(filter: LogFilter, logs: seq<RpcLog>, k: nat)
    requires k <= |logs|
    ensures |Matching(filter, logs[..k])| <= |Matching(filter, logs)|
  {
    assert logs[..k] + logs[k..] == logs;
    MatchingAppend(filter, logs[..k], logs[k..]);
  }

  /** A filter keeps exactly the logs that match, as they were numbered without it. */
  lemma {:induction false} FilterKeepsNumbers(filter: LogFilter, logs: seq<RpcLog>, log: RpcLog)
    ensures log in Matching(filter, logs) <==> log in logs && Matches(filter, log.log)
  {
    if logs != [] {
      var init := logs[..|logs| - 1];
      assert logs == init + [logs[|init|]];
      FilterKeepsNumbers(filter, init, log);
    }
  }

  /**
   * What a filter returns, spelled out: the logs of an address asked for, whose topic at every position
   * asked for exists and is the one topic, or one of the topics, asked for there.
   */
  lemma ReturnedIff(filter: LogFilter, logs: seq<RpcLog>, log: RpcLog)
    ensures log in Matching(filter, logs) <==>
            && log in logs
            && (filter.address.Some? ==>
                  if filter.address.value.SingleAddress? then log.log.address == filter.address.value.address
                  else log.log.address in filter.address.value.addresses)
            && (filter.topics.Some? ==>
                  forall i :: 0 <= i < |filter.topics.value| && filter.topics.value[i].Some? ==>
                    && i < |log.log.topics|
                    && if filter.topics.value[i].value.SingleTopic? then log.log.topics[i] == filter.topics.value[i].value.topic
                       else log.log.topics[i] in filter.topics.value[i].value.topics)
  {
    hide Matching;
    FilterKeepsNumbers(filter, logs, log);
  }

  lemma {:induction false} NoFilterKeepsAll(filter: LogFilter, logs: seq<RpcLog>)
    requires filter == LogFilter(None, None)
    ensures Matching(filter, logs) == logs
  {
    if logs != [] {
      NoFilterKeepsAll(filter, logs[..|logs| - 1]);
    }
  }

  // ---------------------------------------------------------------------------------------
  // The nested loops

  method TopicsMatchLoop(filter: seq<Option<FilterTopic>>, log: StoredLog) returns (r: bool)
    ensures r == TopicsMatch(filter, log)
  {
    r := true;
    for i := 0 to |filter|
      invariant r && TopicsMatch(filter[..i], log)
    {
      if filter[i].Some? {
        if i >= |log.topics| {
          return false;
        }
        if !TopicMatches(filter[i].value, log.topics[i]) {
          return false;
        }
      }
      assert filter[..i + 1] == filter[..i] + [filter[i]];
    }
    assert filter[..|filter|] == filter;
  }

  method Accepts(filter: LogFilter, log: StoredLog) returns (r: bool)
    ensures r == Matches(filter, log)
  {
    if filter.address.Some? {
      var hit := match filter.address.value
                 case SingleAddress(a) => log.address == a
                 case AnyAddress(s) => log.address in s;
      if !hit {
        return false;
      }
    }
    if filter.topics.Some? {
      r := TopicsMatchLoop(filter.topics.value, log);
      return;
    }
    return true;
  }

  /** The logs of one receipt, numbered from `start` on. */
  function ReceiptLogs(b: StoredBlock, number: U64, hash: Hash, txIndex: nat, logs: seq<StoredLog>, start: nat): seq<RpcLog> {
    seq(|logs|, j requires 0 <= j < |logs| => RpcLog(number, b.hash, hash, txIndex, start + j, logs[j]))
  }

  /** The innermost loop: the logs of one receipt, until more would match than may be returned. */
  method ScanReceipt(filter: LogFilter, b: StoredBlock, number: U64, hash: Hash, txIndex: nat, logs: seq<StoredLog>,
                     found: seq<RpcLog>, start: nat)
    returns (r: Option<seq<RpcLog>>, next: nat)
    requires |found| <= MAX_LOGS
    ensures var all := found + Matching(filter, ReceiptLogs(b, number, hash, txIndex, logs, start));
            if |all| <= MAX_LOGS then r == Some(all) && next == start + |logs| else r == None
  {
    var result := found;
    next := start;
    ghost var all := ReceiptLogs(b, number, hash, txIndex, logs, start);
    for j := 0 to |logs|
      invariant next == start + j && result == found + Matching(filter, all[..j]) && |result| <= MAX_LOGS
    {
      assert all[..j + 1][..j] == all[..j];
      var accepted := Accepts(filter, logs[j]);
      if accepted {
        MatchingPrefix(filter, all, j + 1);
        if |result| >= MAX_LOGS {
          return None, next;
        }
        result := result + [RpcLog(number, b.hash, hash, txIndex, next, logs[j])];
      }
      next := next + 1;
    }
    assert all[..|logs|] == all;
    return Some(result), next;
  }

  lemma {:induction false} ConcatenatedPrefix(ix: Index, hashes: seq<Hash>, k: nat)
    requires k <= |hashes|
    ensures Concatenated(ix, hashes[..k]) <= Concatenated(ix, hashes)
    decreases |hashes|
  {
    if k == |hashes| {
      assert hashes[..k] == hashes;
    } else {
      ConcatenatedPrefix(ix, hashes[..|hashes| - 1], k);
      assert hashes[..|hashes| - 1][..k] == hashes[..k];
    }
  }

  lemma {:induction false} PlacesFollow(ix: Index, hashes: seq<Hash>, k: nat)
    requires k < |hashes|
    ensures var all, logs := Concatenated(ix, hashes), LogsAt(ix, hashes[k]);
            var start := |Concatenated(ix, hashes[..k])|;
            && |Concatenated(ix, hashes[..k + 1])| == start + |logs| <= |all|
            && forall j :: 0 <= j < |logs| ==> all[start + j] == Place(hashes[k], k, logs[j])
  {
    ConcatenatedPrefix(ix, hashes, k + 1);
    LastPlaces(ix, hashes, k);
    hide Concatenated, LogsAt;
    var part, all := Concatenated(ix, hashes[..k + 1]), Concatenated(ix, hashes);
    var start, logs := |Concatenated(ix, hashes[..k])|, LogsAt(ix, hashes[k]);
    forall j | 0 <= j < |logs| ensures all[start + j] == Place(hashes[k], k, logs[j]) {
      assert all[start + j] == part[start + j];
    }
  }

  lemma LastPlaces(ix: Index, hashes: seq<Hash>, k: nat)
    requires k < |hashes|
    ensures Concatenated(ix, hashes[..k + 1]) == Concatenated(ix, hashes[..k]) + Places(hashes[k], k, LogsAt(ix, hashes[k]))
  {
    hide Places, LogsAt;
    assert hashes[..k + 1][..k] == hashes[..k];
  }

  /** In the numbered logs of a block each receipt's logs follow those of the receipts before it. */
  lemma {:induction false} ReceiptFollows(ix: Index, b: StoredBlock, number: U64, hashes: seq<Hash>, k: nat)
    requires k < |hashes|
    ensures var all, logs := Numbered(b, number, Concatenated(ix, hashes)), LogsAt(ix, hashes[k]);
            var start := |Concatenated(ix, hashes[..k])|;
            && |Concatenated(ix, hashes[..k + 1])| == start + |logs| <= |all|
            && all[..start + |logs|] == all[..start] + ReceiptLogs(b, number, hashes[k], k, logs, start)
  {
    hide Concatenated, LogsAt;
    PlacesFollow(ix, hashes, k);
  }

  lemma {:induction false} ReceiptStep(ix: Index, filter: LogFilter, b: StoredBlock, number: U64, hashes: seq<Hash>, k: nat)
    requires k < |hashes|
    ensures var all, logs := Numbered(b, number, Concatenated(ix, hashes)), LogsAt(ix, hashes[k]);
            var start := |Concatenated(ix, hashes[..k])|;
            && |Concatenated(ix, hashes[..k + 1])| == start + |logs| <= |all|
            && Matching(filter, all[..start + |logs|]) ==
               Matching(filter, all[..start]) + Matching(filter, ReceiptLogs(b, number, hashes[k], k, logs, start))
            && |Matching(filter, all[..start + |logs|])| <= |Matching(filter, all)|
  {
    hide Matching, Numbered, ReceiptLogs, Concatenated;
    ReceiptFollows(ix, b, number, hashes, k);
    var all, logs := Numbered(b, number, Concatenated(ix, hashes)), LogsAt(ix, hashes[k]);
    var start := |Concatenated(ix, hashes[..k])|;
    MatchingAppend(filter, all[..start], ReceiptLogs(b, number, hashes[k], k, logs, start));
    MatchingPrefix(filter, all, start + |logs|);
  }

  lemma {:induction false} RangePrefix(ix: Index, filter: LogFilter, first: U64, k: nat, count: nat)
    requires k <= count && first + count <= U64_MAX + 1
    ensures |Matching(filter, RangeLogs(ix, first, k))| <= |Matching(filter, RangeLogs(ix, first, count))|
    decreases count
  {
    hide BlockLogs, Matching;
    if k < count {
      RangePrefix(ix, filter, first, k, count - 1);
      MatchingAppend(filter, RangeLogs(ix, first, count - 1), BlockLogs(ix, first + count - 1));
    }
  }

  lemma MissingBlock(ix: Index, filter: LogFilter, number: U64)
    requires ix.block(number).None?
    ensures Matching(filter, BlockLogs(ix, number)) == []
  {
  }

  lemma {:induction false} RangeStep(ix: Index, filter: LogFilter, first: U64, k: nat, count: nat)
    requires k < count && first + count <= U64_MAX + 1
    ensures var next := Matching(filter, RangeLogs(ix, first, k + 1));
            && next == Matching(filter, RangeLogs(ix, first, k)) + Matching(filter, BlockLogs(ix, first + k))
            && |next| <= |Matching(filter, RangeLogs(ix, first, count))|
            && (ix.block(first + k).None? ==> next == Matching(filter, RangeLogs(ix, first, k)))
  {
    hide BlockLogs, Matching;
    var logs := BlockLogs(ix, first + k);
    MatchingAppend(filter, RangeLogs(ix, first, k), logs);
    RangePrefix(ix, filter, first, k + 1, count);
    if ix.block(first + k).None? {
      MissingBlock(ix, filter, first + k);
    }
  }

  lemma NoBlocks(ix: Index, filter: LogFilter, first: U64)
    ensures Matching(filter, RangeLogs(ix, first, 0)) == []
  {
  }

  // ---------------------------------------------------------------------------------------
  // From stored blocks to their logs

  /** What the tables answer. */
  ghost function TableIndex(t: Tables): Index {
    Index((n: U64) => TableBlock(t, n), (n: U64) => TableListing(t, n), (h: Hash) => TableReceipt(t, h))
  }

  function ReceiptPlaces(receipts: seq<StoredReceipt>): seq<Place> {
    if receipts == [] then []
    else
      var last := receipts[|receipts| - 1];
      ReceiptPlaces(receipts[..|receipts| - 1]) + Places(last.transactionHash, |receipts| - 1, last.logs)
  }

  lemma ListingRead(t: Tables, number: U64, hashes: seq<Hash>)
    requires WellKept(t) && ListsBlock(t, number, hashes) && number in t.blocks
    ensures BlockLogs(TableIndex(t), number) == Numbered(t.blocks[number], number, Concatenated(TableIndex(t), hashes))
  {
    TableListingLists(t, number);
    ListingIsUnique(t, number, hashes, TableListing(t, number));
  }

  lemma {:induction false} ConcatenatedReceipts(t: Tables, e: Entry, k: nat)
    requires Holds(t, e) && Consistent(e.block, e.txs, e.receipts) && k <= |e.txs|
    ensures Concatenated(TableIndex(t), TxHashes(e.txs)[..k]) == ReceiptPlaces(e.receipts[..k])
  {
    if k > 0 {
      ConcatenatedReceipts(t, e, k - 1);
      var hashes := TxHashes(e.txs);
      assert hashes[..k][..k - 1] == hashes[..k - 1];
      assert e.receipts[..k][..k - 1] == e.receipts[..k - 1];
      assert TableReceipt(t, e.txs[k - 1].hash) == Some(e.receipts[k - 1]);
    }
  }

  /** The logs of a stored block are those of the receipts it was stored with, numbered in order. */
  lemma {:induction false} StoredBlockLogs(t: Tables, e: Entry)
    requires WellKept(t) && Holds(t, e) && Consistent(e.block, e.txs, e.receipts)
    ensures BlockLogs(TableIndex(t), e.block.number) == Numbered(e.block, e.block.number, ReceiptPlaces(e.receipts))
  {
    hide Concatenated, Numbered, BlockLogs, ReceiptPlaces;
    ConcatenatedReceipts(t, e, |e.txs|);
    assert TxHashes(e.txs)[..|e.txs|] == TxHashes(e.txs) && e.receipts[..|e.txs|] == e.receipts;
    ListingRead(t, e.block.number, TxHashes(e.txs));
  }

  /** How many logs the first receipts have. */
  function LogCount(receipts: seq<StoredReceipt>): nat {
    if receipts == [] then 0 else LogCount(receipts[..|receipts| - 1]) + |receipts[|receipts| - 1].logs|
  }

  lemma {:induction false} PlaceAt(receipts: seq<StoredReceipt>, i: nat, j: nat)
    requires i < |receipts| && j < |receipts[i].logs|
    ensures |ReceiptPlaces(receipts)| == LogCount(receipts) && LogCount(receipts[..i]) + j < LogCount(receipts)
    ensures ReceiptPlaces(receipts)[LogCount(receipts[..i]) + j] == Place(receipts[i].transactionHash, i, receipts[i].logs[j])
    decreases |receipts|
  {
    var init := receipts[..|receipts| - 1];
    PlacesCount(init);
    if i < |init| {
      PlaceAt(init, i, j);
      assert init[..i] == receipts[..i];
    }
  }

  lemma {:induction false} PlacesCount(receipts: seq<StoredReceipt>)
    ensures |ReceiptPlaces(receipts)| == LogCount(receipts)
  {
    if receipts != [] {
      PlacesCount(receipts[..|receipts| - 1]);
    }
  }

  /**
   * Log `j` of transaction `i` of a stored block, spelled out: it comes after the logs of the transactions
   * before, has its own place as its index, and names its block, transaction and contents.
   */
  lemma StoredLogAt(t: Tables, e: Entry, i: nat, j: nat)
    requires WellKept(t) && Holds(t, e) && Consistent(e.block, e.txs, e.receipts) && i < |e.receipts| && j < |e.receipts[i].logs|
    ensures var logs, k := BlockLogs(TableIndex(t), e.block.number), LogCount(e.receipts[..i]) + j;
            && k < |logs| == LogCount(e.receipts)
            && logs[k] == RpcLog(e.block.number, e.block.hash, e.receipts[i].transactionHash, i, k, e.receipts[i].logs[j])
  {
    hide BlockLogs, LogCount, ReceiptPlaces, Holds, WellKept;
    StoredBlockLogs(t, e);
    PlaceAt(e.receipts, i, j);
  }

  // ---------------------------------------------------------------------------------------
  // The provider

  /** The first `k` transactions of a stored block are scanned: what matched in them follows what was found before. */
  ghost predicate Scanned(t: Tables, filter: LogFilter, number: U64, hashes: seq<Hash>, k: nat,
                          found: seq<RpcLog>, result: seq<RpcLog>, logIndex: nat)
    requires k <= |hashes|
  {
    && number in t.blocks
    && logIndex == |Concatenated(TableIndex(t), hashes[..k])| <= |Concatenated(TableIndex(t), hashes)|
    && result == found + Matching(filter, Numbered(t.blocks[number], number, Concatenated(TableIndex(t), hashes))[..logIndex])
  }

  lemma ScanStarts(t: Tables, filter: LogFilter, number: U64, hashes: seq<Hash>, found: seq<RpcLog>)
    requires number in t.blocks
    ensures Scanned(t, filter, number, hashes, 0, found, found, 0)
  {
    assert hashes[..0] == [];
  }

  lemma NoLogsMatch(filter: LogFilter, b: StoredBlock, number: U64, hash: Hash, txIndex: nat, start: nat)
    ensures Matching(filter, ReceiptLogs(b, number, hash, txIndex, [], start)) == []
  {
  }

  /** What the next receipt gives, and that the whole block gives no less. */
  lemma {:induction false} ScanStep(t: Tables, filter: LogFilter, number: U64, hashes: seq<Hash>, k: nat,
                                    found: seq<RpcLog>, result: seq<RpcLog>, logIndex: nat)
    requires k < |hashes| && Scanned(t, filter, number, hashes, k, found, result, logIndex)
    ensures var logs := LogsAt(TableIndex(t), hashes[k]);
            var next := result + Matching(filter, ReceiptLogs(t.blocks[number], number, hashes[k], k, logs, logIndex));
            && Scanned(t, filter, number, hashes, k + 1, found, next, logIndex + |logs|)
            && (logs == [] ==> next == result)
            && |next| <= |found + Matching(filter, Numbered(t.blocks[number], number, Concatenated(TableIndex(t), hashes)))|
  {
    hide Matching, ReceiptLogs, Concatenated, LogsAt, TableIndex;
    ReceiptStep(TableIndex(t), filter, t.blocks[number], number, hashes, k);
    NoLogsMatch(filter, t.blocks[number], number, hashes[k], k, logIndex);
  }

  lemma ScanEnds(t: Tables, filter: LogFilter, number: U64, hashes: seq<Hash>, found: seq<RpcLog>, result: seq<RpcLog>, logIndex: nat)
    requires Scanned(t, filter, number, hashes, |hashes|, found, result, logIndex)
    ensures result == found + Matching(filter, Numbered(t.blocks[number], number, Concatenated(TableIndex(t), hashes)))
  {
    assert hashes[..|hashes|] == hashes;
    var all := Numbered(t.blocks[number], number, Concatenated(TableIndex(t), hashes));
    assert all[..logIndex] == all;
  }

  lemma ValidReads(index: PersistentChainIndex, number: U64)
    requires index.Valid()
    ensures WellKept(index.tables)
    ensures TableBlock(index.tables, number).Some? ==>
              number in index.tables.blocks && TableBlock(index.tables, number).value == index.tables.blocks[number]
  {
  }

  lemma ReceiptRead(t: Tables, hash: Hash)
    ensures LogsAt(TableIndex(t), hash) == if TableReceipt(t, hash).Some? then TableReceipt(t, hash).value.logs else []
  {
  }

  /** Reads blocks and receipts through the cache of the index, and listings from its tables. */
  class ChainStateProvider {
    const index: PersistentChainIndex

    constructor (index: PersistentChainIndex)
      ensures this.index == index
    {
      this.index := index;
    }

    /** The loop over the transactions of one block; the log index counts every log, matching or not. */
    method ScanBlock(filter: LogFilter, b: StoredBlock, number: U64, found: seq<RpcLog>) returns (r: Option<seq<RpcLog>>)
      requires index.cache.Bounded() && |found| <= MAX_LOGS
      modifies index.cache
      ensures index.cache.Bounded() && (old(index.Valid()) ==> index.Valid())
      ensures r.Some? ==> |r.value| <= MAX_LOGS
      ensures old(index.Valid()) && TableBlock(index.tables, number) == Some(b) ==>
                var all := found + Matching(filter, BlockLogs(TableIndex(index.tables), number));
                r == if |all| <= MAX_LOGS then Some(all) else None
    {
      hide *;
      ghost var t, known := index.tables, index.Valid() && TableBlock(index.tables, number) == Some(b);
      var hashes := index.GetBlockTransactions(number);
      var result, logIndex: nat := found, 0;
      if known {
        ValidReads(index, number);
        ListingRead(t, number, hashes);
        ScanStarts(t, filter, number, hashes, found);
      }
      for k := 0 to |hashes|
        invariant index.cache.Bounded() && |result| <= MAX_LOGS && (old(index.Valid()) ==> index.Valid())
        invariant known ==> Scanned(t, filter, number, hashes, k, found, result, logIndex)
      {
        ReceiptRead(t, hashes[k]);
        if known {
          ScanStep(t, filter, number, hashes, k, found, result, logIndex);
        }
        var receipt := index.GetReceipt(hashes[k]);
        if receipt.Some? {
          var next;
          r, next := ScanReceipt(filter, b, number, hashes[k], k, receipt.value.logs, result, logIndex);
          if r.None? {
            return;
          }
          result, logIndex := r.value, next;
        }
      }
      if known {
        ScanEnds(t, filter, number, hashes, found, result, logIndex);
      }
      return Some(result);
    }

    /**
     * `get_logs_for_block_range`: as long as the cache is right, the answer is the query over the
     * tables, and the cache stays right.
     */
    method GetLogsForBlockRange(first: U64, last: U64, filter: LogFilter) returns (r: Answer)
      requires index.cache.Bounded()
      modifies index.cache
      ensures index.cache.Bounded() && (old(index.Valid()) ==> index.Valid())
      ensures old(index.Valid()) ==> r == Query(TableIndex(index.tables), first, last, filter)
    {
      hide Matching, RangeLogs, BlockLogs, TableBlock, TableListing, TableReceipt, Raised;
      hide PersistentChainIndex.Valid, PersistentChainIndex.Current, ChainCache.Bounded;
      if first > last {
        return Refused(InvertedRange);
      }
      var range := SatAdd(last - first, 1);
      if range > MAX_BLOCK_RANGE {
        return Refused(RangeTooLarge);
      }
      var result: seq<RpcLog> := [];
      ghost var ix := TableIndex(index.tables);
      NoBlocks(ix, filter, first);
      for k := 0 to range
        invariant index.cache.Bounded() && |result| <= MAX_LOGS && (old(index.Valid()) ==> index.Valid())
        invariant old(index.Valid()) ==> result == Matching(filter, RangeLogs(ix, first, k))
      {
        var number := first + k;
        RangeStep(ix, filter, first, k, range);
        var block := index.GetBlock(number);
        if block.Some? {
          var scanned := ScanBlock(filter, block.value, number, result);
          if scanned.None? {
            return Refused(TooManyResults);
          }
          result := scanned.value;
        }
      }
      return Found(result);
    }
  }
}
