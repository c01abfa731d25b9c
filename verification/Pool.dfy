/**
 * The transaction pool as a value (crates/app/mempool/src/pool.rs): what each operation does to
 * it, what every operation keeps, and what holds in every run.
 */
module Pool {
  import opened Types
  import opened Ordering

  type SenderKey = Bytes

  datatype PoolTx<K, P> = PoolTx(id: Hash, key: K, sender: Option<SenderKey>, gasLimit: U64, payload: P)

  datatype Entry<K> = Entry(hash: Hash, key: K)

  /** The priority queue may hold entries of removed transactions, and several of one hash. */
  datatype Pool<K(==), P> = Pool(
    byHash: map<Hash, PoolTx<K, P>>,
    heap: multiset<Entry<K>>,
    bySender: map<SenderKey, map<nat, Hash>>,
    senderSeq: map<SenderKey, nat>,
    inFlight: set<Hash>)

  // ---------------------------------------------------------------------------------------
  // The per-sender index

  function MaxKey(m: map<nat, Hash>): (k: nat)
    requires m != map[]
    ensures k in m && forall j :: j in m ==> j <= k
  {
    assert m.Keys != {};
    GreatestExists(m.Keys, (a: nat, b: nat) => a <= b);
    var k :| k in m && forall j :: j in m ==> j <= k;
    k
  }

  /** The values of an ordered map, by increasing key. */
  function InOrder(m: map<nat, Hash>): (s: seq<Hash>)
    ensures |s| == |m|
    decreases |m|
  {
    if m == map[] then []
    else
      var k := MaxKey(m);
      assert (m - {k}).Keys == m.Keys - {k};
      InOrder(m - {k}) + [m[k]]
  }

  function Without(s: seq<Hash>, h: Hash): seq<Hash> {
    if s == [] then []
    else
      var rest := Without(s[..|s| - 1], h);
      if s[|s| - 1] == h then rest else rest + [s[|s| - 1]]
  }

  function Retained(m: map<nat, Hash>, h: Hash): map<nat, Hash> {
    map n | n in m && m[n] != h :: m[n]
  }

  /** A key above all others is listed last. */
  lemma InOrderAppends(m: map<nat, Hash>, n: nat, h: Hash)
    requires forall j :: j in m ==> j < n
    ensures InOrder(m[n := h]) == InOrder(m) + [h]
  {
    assert n in m[n := h];
    assert MaxKey(m[n := h]) == n;
    assert m[n := h] - {n} == m;
  }

  lemma RetainedStep(m: map<nat, Hash>, h: Hash, k: nat)
    requires k in m
    ensures (m - {k}).Keys == m.Keys - {k} && |m - {k}| < |m|
    ensures m[k] == h ==> Retained(m, h) == Retained(m - {k}, h)
    ensures m[k] != h ==> k in Retained(m, h) && Retained(m, h) - {k} == Retained(m - {k}, h)
  {
    assert (m - {k}).Keys == m.Keys - {k};
  }

  lemma {:induction false} InOrderRetains(m: map<nat, Hash>, h: Hash)
    ensures InOrder(Retained(m, h)) == Without(InOrder(m), h)
    decreases |m|
  {
    if m == map[] {
      assert Retained(m, h) == map[];
    } else {
      var k := MaxKey(m);
      RetainedStep(m, h, k);
      InOrderRetains(m - {k}, h);
      assert InOrder(m)[..|m| - 1] == InOrder(m - {k});
      if m[k] != h {
        assert MaxKey(Retained(m, h)) == k;
      }
    }
  }

  function Listed<K, P>(p: Pool<K, P>, sender: SenderKey): map<nat, Hash> {
    if sender in p.bySender then p.bySender[sender] else map[]
  }

  function NextNumber<K, P>(p: Pool<K, P>, sender: SenderKey): nat {
    if sender in p.senderSeq then p.senderSeq[sender] else 0
  }

  /** The hashes listed for a sender: `get_sender_txs`. */
  function SenderTxs<K, P>(p: Pool<K, P>, sender: SenderKey): seq<Hash> {
    InOrder(Listed(p, sender))
  }

  /** `m` numbers the live transactions of `sender`, each once, with numbers below `next`. */
  ghost predicate Indexes<K(!new), P(!new)>(byHash: map<Hash, PoolTx<K, P>>, m: map<nat, Hash>, next: nat, sender: SenderKey) {
    && (forall n :: n in m ==> n < next && m[n] in byHash && byHash[m[n]].sender == Some(sender))
    && (forall n, k :: n in m && k in m && n != k ==> m[n] != m[k])
    && (forall h :: h in byHash && byHash[h].sender == Some(sender) ==> h in m.Values)
  }

  ghost predicate Indexed<K(!new), P(!new)>(p: Pool<K, P>) {
    && p.senderSeq.Keys == p.bySender.Keys
    && forall s :: Indexes(p.byHash, Listed(p, s), NextNumber(p, s), s)
  }

  // ---------------------------------------------------------------------------------------
  // Operations

  /** `add` of a transaction that is not in the pool. */
  function Added<K, P>(p: Pool<K, P>, tx: PoolTx<K, P>): Pool<K, P> {
    var q := p.(byHash := p.byHash[tx.id := tx], heap := p.heap + multiset{Entry(tx.id, tx.key)});
    match tx.sender
    case None => q
    case Some(s) =>
      var n := NextNumber(p, s);
      q.(senderSeq := p.senderSeq[s := n + 1], bySender := p.bySender[s := Listed(p, s)[n := tx.id]])
  }

  /** `remove`: the queue keeps its entry. */
  function Removed<K, P>(p: Pool<K, P>, h: Hash): Pool<K, P> {
    if h !in p.byHash then p
    else
      var q := p.(byHash := p.byHash - {h});
      match p.byHash[h].sender
      case None => q
      case Some(s) =>
        if s !in p.bySender then q
        else
          var r := Retained(p.bySender[s], h);
          if r == map[] then q.(bySender := p.bySender - {s}, senderSeq := p.senderSeq - {s})
          else q.(bySender := p.bySender[s := r])
  }

  function RemovedAll<K, P>(p: Pool<K, P>, hashes: seq<Hash>): Pool<K, P>
    decreases hashes
  {
    if hashes == [] then p else RemovedAll(Removed(p, hashes[0]), hashes[1..])
  }

  /** One queue entry for each of the hashes that is live. */
  function Requeued<K(==), P>(byHash: map<Hash, PoolTx<K, P>>, hashes: set<Hash>): multiset<Entry<K>> {
    multiset(set h | h in hashes && h in byHash :: Entry(h, byHash[h].key))
  }

  /** `finalize`: the executed leave the pool, everything else in flight is queued again. */
  function Finalized<K, P>(p: Pool<K, P>, executed: seq<Hash>): Pool<K, P> {
    var q := RemovedAll(p, executed);
    var rest := p.inFlight - set h | h in executed;
    q.(inFlight := {}, heap := q.heap + Requeued(q.byHash, rest))
  }

  function Emptied<K, P>(): Pool<K, P> {
    Pool(map[], multiset{}, map[], map[], {})
  }

  // Selection under a gas and a count limit.

  function TxsOf<K, P>(p: Pool<K, P>, chosen: seq<Entry<K>>): seq<PoolTx<K, P>>
    requires forall e :: e in chosen ==> e.hash in p.byHash
  {
    seq(|chosen|, i requires 0 <= i < |chosen| => p.byHash[chosen[i].hash])
  }

  function GasOf<K, P>(txs: seq<PoolTx<K, P>>): nat {
    if txs == [] then 0 else GasOf(txs[..|txs| - 1]) + txs[|txs| - 1].gasLimit
  }

  predicate Fits(maxGas: U64, total: U64, gas: U64) {
    maxGas == 0 || SatAdd(total, gas) <= maxGas
  }

  predicate Descending<K>(leq: (K, K) -> bool, chosen: seq<Entry<K>>) {
    forall i, j :: 0 <= i < j < |chosen| ==> leq(chosen[j].key, chosen[i].key)
  }

  /** `e` is live and too large for what is left of the gas. */
  predicate TooLarge<K, P>(p: Pool<K, P>, maxGas: U64, total: U64, e: Entry<K>) {
    e.hash in p.byHash && !Fits(maxGas, total, p.byHash[e.hash].gasLimit)
  }

  /** `select_with_gas_budget`: `chosen` are the entries taken, `q` the pool afterwards. */
  ghost predicate Selects<K(!new), P(!new)>(leq: (K, K) -> bool, p: Pool<K, P>, maxGas: U64, maxTxs: nat,
                                            chosen: seq<Entry<K>>, total: U64, q: Pool<K, P>)
  {
    && q == p.(heap := q.heap)
    && (forall e :: e in chosen ==> e.hash in p.byHash)
    // live entries are conserved; only entries of removed transactions disappear
    && multiset(chosen) + q.heap <= p.heap
    && (forall e: Entry<K> :: e.hash in p.byHash ==> p.heap[e] == multiset(chosen)[e] + q.heap[e])
    // priority order, within both limits
    && Descending(leq, chosen)
    && (maxTxs > 0 ==> |chosen| <= maxTxs)
    && total == AtMostU64(GasOf(TxsOf(p, chosen)))
    && (maxGas > 0 ==> total <= maxGas)
    // what outranks the last entry taken did not fit; if there was room for more, nothing fits
    && (forall e :: e in q.heap && e.hash in p.byHash && chosen != [] && !leq(e.key, chosen[|chosen| - 1].key)
          ==> TooLarge(p, maxGas, total, e))
    && (forall e :: e in q.heap && e.hash in p.byHash && (maxTxs == 0 || |chosen| < maxTxs)
          ==> TooLarge(p, maxGas, total, e))
  }

  function HashesOf<K(==)>(chosen: seq<Entry<K>>): set<Hash> {
    set e | e in chosen :: e.hash
  }

  /** `propose`: select, then mark as in flight. */
  ghost predicate Proposes<K(!new), P(!new)>(leq: (K, K) -> bool, p: Pool<K, P>, maxGas: U64, maxTxs: nat,
                                             chosen: seq<Entry<K>>, total: U64, q: Pool<K, P>)
  {
    && Selects(leq, p, maxGas, maxTxs, chosen, total, q.(inFlight := p.inFlight))
    && q.inFlight == p.inFlight + HashesOf(chosen)
  }

  // ---------------------------------------------------------------------------------------
  // What every operation keeps

  ghost predicate Waiting<K(!new), P(!new)>(p: Pool<K, P>, h: Hash) {
    exists e :: e in p.heap && e.hash == h
  }

  /** No live transaction is lost: it is queued or in flight. */
  ghost predicate NoneLost<K(!new), P(!new)>(p: Pool<K, P>) {
    && (forall h :: h in p.byHash ==> p.byHash[h].id == h)
    && (forall h :: h in p.byHash ==> h in p.inFlight || Waiting(p, h))
  }

  /** The live hashes are exactly the queued ones and those in flight, no hash in two places. */
  ghost predicate Exact<K(!new), P(!new)>(p: Pool<K, P>) {
    && NoneLost(p)
    && p.inFlight <= p.byHash.Keys
    && QueuedOnce(p)
  }

  ghost predicate QueuedOnce<K(!new), P(!new)>(p: Pool<K, P>) {
    && (forall e :: e in p.heap ==> p.heap[e] == 1 && e.hash in p.byHash && e.hash !in p.inFlight)
    && (forall e, f :: e in p.heap && f in p.heap && e.hash == f.hash ==> e == f)
  }

  /** Every live hash has at most one queue entry, and none while it is in flight. */
  ghost predicate LiveOnce<K(!new), P(!new)>(p: Pool<K, P>) {
    && (forall e :: e in p.heap && e.hash in p.byHash ==> p.heap[e] == 1 && e.hash !in p.inFlight)
    && (forall e, f :: e in p.heap && f in p.heap && e.hash == f.hash && e.hash in p.byHash ==> e == f)
  }

  lemma AddedKeeps<K(!new), P(!new)>(p: Pool<K, P>, tx: PoolTx<K, P>)
    requires tx.id !in p.byHash
    ensures NoneLost(p) ==> NoneLost(Added(p, tx))
    ensures Exact(p) ==> Exact(Added(p, tx))
  {
    AddedLosesNone(p, tx);
    hide NoneLost, QueuedOnce;
    if Exact(p) {
      AddedQueuedOnce(p, tx);
    }
  }

  lemma AddedQueuedOnce<K(!new), P(!new)>(p: Pool<K, P>, tx: PoolTx<K, P>)
    requires tx.id !in p.byHash && QueuedOnce(p) && tx.id !in p.inFlight
    ensures QueuedOnce(Added(p, tx))
  {
    var q, added := Added(p, tx), Entry(tx.id, tx.key);
    forall e | e in q.heap ensures e == added || e in p.heap {
      assert q.heap == p.heap + multiset{added};
    }
  }

  lemma AddedLosesNone<K(!new), P(!new)>(p: Pool<K, P>, tx: PoolTx<K, P>)
    requires tx.id !in p.byHash
    ensures NoneLost(p) ==> NoneLost(Added(p, tx))
  {
    var q := Added(p, tx);
    if NoneLost(p) {
      assert Entry(tx.id, tx.key) in q.heap;
      assert forall e :: e in p.heap ==> e in q.heap;
    }
  }

  lemma {:induction false} RemovedAllFacts<K(!new), P(!new)>(p: Pool<K, P>, hashes: seq<Hash>)
    ensures var q := RemovedAll(p, hashes);
            && q.byHash == p.byHash - (set h | h in hashes)
            && q.heap == p.heap && q.inFlight == p.inFlight
    decreases hashes
  {
    if hashes != [] {
      RemovedAllFacts(Removed(p, hashes[0]), hashes[1..]);
      assert (set h | h in hashes) == {hashes[0]} + set h | h in hashes[1..];
    }
  }

  lemma RemovedAllKeeps<K(!new), P(!new)>(p: Pool<K, P>, hashes: seq<Hash>)
    requires NoneLost(p)
    ensures NoneLost(RemovedAll(p, hashes))
  {
    RemovedAllFacts(p, hashes);
    var q := RemovedAll(p, hashes);
    forall h | h in q.byHash ensures h in q.inFlight || Waiting(q, h) {
      assert h in p.inFlight || Waiting(p, h);
    }
  }

  /** The entries put back by `finalize`: one for each live hash, with the transaction's key. */
  lemma RequeuedFacts<K(!new), P(!new)>(byHash: map<Hash, PoolTx<K, P>>, hashes: set<Hash>, e: Entry<K>)
    ensures var back := Requeued(byHash, hashes);
            && (e in back <==> e.hash in hashes && e.hash in byHash && e.key == byHash[e.hash].key)
            && (e in back ==> back[e] == 1)
  {
  }

  lemma FinalizedKeepsNoneLost<K(!new), P(!new)>(p: Pool<K, P>, executed: seq<Hash>)
    requires NoneLost(p)
    ensures NoneLost(Finalized(p, executed))
  {
    RemovedAllFacts(p, executed);
    var rest := p.inFlight - set h | h in executed;
    var z := Finalized(p, executed);
    forall h | h in z.byHash ensures Waiting(z, h) {
      if h in rest {
        RequeuedFacts(z.byHash, rest, Entry(h, z.byHash[h].key));
        assert Entry(h, z.byHash[h].key) in z.heap;
      } else {
        assert Waiting(p, h);
        var e :| e in p.heap && e.hash == h;
        assert e in z.heap;
      }
    }
  }

  /** Finalizing transactions that are in flight keeps the pool exact. */
  lemma FinalizedKeepsExact<K(!new), P(!new)>(p: Pool<K, P>, executed: seq<Hash>)
    requires Exact(p) && forall h :: h in executed ==> h in p.inFlight
    ensures Exact(Finalized(p, executed))
  {
    FinalizedKeepsNoneLost(p, executed);
    RemovedAllFacts(p, executed);
    var rest := p.inFlight - set h | h in executed;
    var z := Finalized(p, executed);
    var back := Requeued(z.byHash, rest);
    forall e | e in z.heap ensures z.heap[e] == 1 && e.hash in z.byHash && (e in p.heap <==> e.hash !in p.inFlight) {
      RequeuedFacts(z.byHash, rest, e);
    }
    forall e, f | e in z.heap && f in z.heap && e.hash == f.hash ensures e == f {
      RequeuedFacts(z.byHash, rest, e);
      RequeuedFacts(z.byHash, rest, f);
    }
  }

  /** A proposal moves entries and marks their hashes; live entries are neither lost nor doubled. */
  lemma ProposesConserves<K(!new), P(!new)>(leq: (K, K) -> bool, p: Pool<K, P>, maxGas: U64, maxTxs: nat,
                                            chosen: seq<Entry<K>>, total: U64, q: Pool<K, P>)
    requires Proposes(leq, p, maxGas, maxTxs, chosen, total, q)
    ensures q == p.(heap := q.heap, inFlight := p.inFlight + HashesOf(chosen))
    ensures forall e :: e in chosen ==> e.hash in p.byHash
    ensures forall e: Entry<K> :: multiset(chosen)[e] + q.heap[e] <= p.heap[e]
    ensures forall e: Entry<K> :: e.hash in p.byHash ==> p.heap[e] == multiset(chosen)[e] + q.heap[e]
  {
  }

  lemma ProposesKeeps<K(!new), P(!new)>(leq: (K, K) -> bool, p: Pool<K, P>, maxGas: U64, maxTxs: nat,
                                        chosen: seq<Entry<K>>, total: U64, q: Pool<K, P>)
    requires Proposes(leq, p, maxGas, maxTxs, chosen, total, q)
    ensures NoneLost(p) ==> NoneLost(q)
    ensures Exact(p) ==> Exact(q)
  {
    ProposesConserves(leq, p, maxGas, maxTxs, chosen, total, q);
    hide Proposes;
    if NoneLost(p) {
      ProposedLosesNone(p, chosen, q);
    }
    hide NoneLost;
    if Exact(p) {
      ProposedQueuedOnce(p, chosen, q);
    }
  }

  lemma ProposedLosesNone<K(!new), P(!new)>(p: Pool<K, P>, chosen: seq<Entry<K>>, q: Pool<K, P>)
    requires NoneLost(p) && q == p.(heap := q.heap, inFlight := p.inFlight + HashesOf(chosen))
    requires forall e: Entry<K> :: e.hash in p.byHash ==> p.heap[e] == multiset(chosen)[e] + q.heap[e]
    ensures NoneLost(q)
  {
    forall h | h in q.byHash && h !in q.inFlight ensures Waiting(q, h) {
      assert Waiting(p, h);
      var e :| e in p.heap && e.hash == h;
      assert e !in chosen;
      assert e in q.heap;
    }
  }

  lemma ProposedQueuedOnce<K(!new), P(!new)>(p: Pool<K, P>, chosen: seq<Entry<K>>, q: Pool<K, P>)
    requires QueuedOnce(p) && q == p.(heap := q.heap, inFlight := p.inFlight + HashesOf(chosen))
    requires forall e: Entry<K> :: multiset(chosen)[e] + q.heap[e] <= p.heap[e]
    ensures QueuedOnce(q)
  {
    forall e | e in q.heap ensures e in p.heap && q.heap[e] == 1 && e.hash in q.byHash && e.hash !in q.inFlight {
      assert multiset(chosen)[e] + q.heap[e] <= p.heap[e];
      assert e in p.heap;
      forall f | f in chosen ensures f.hash != e.hash {
        assert f in multiset(chosen);
        assert multiset(chosen)[f] + q.heap[f] <= p.heap[f];
        assert f in p.heap;
      }
    }
  }

  // ---------------------------------------------------------------------------------------
  // Proposals

  /** With one entry for each live hash, a proposal names each transaction once, and none in flight. */
  lemma ProposalIsNew<K(!new), P(!new)>(leq: (K, K) -> bool, p: Pool<K, P>, maxGas: U64, maxTxs: nat,
                                        chosen: seq<Entry<K>>, total: U64, q: Pool<K, P>)
    requires LiveOnce(p) && Proposes(leq, p, maxGas, maxTxs, chosen, total, q)
    ensures forall i, j :: 0 <= i < j < |chosen| ==> chosen[i].hash != chosen[j].hash
    ensures forall i :: 0 <= i < |chosen| ==> chosen[i].hash !in p.inFlight && chosen[i].hash in q.inFlight
  {
    forall i | 0 <= i < |chosen| ensures chosen[i] in p.heap {
      assert chosen[i] in multiset(chosen);
    }
    forall i, j | 0 <= i < j < |chosen| ensures chosen[i].hash != chosen[j].hash {
      if chosen[i].hash == chosen[j].hash {
        assert chosen[i] == chosen[j];
        Repeated(chosen, i, j);
        assert false;
      }
    }
  }

  lemma Repeated<T>(s: seq<T>, i: nat, j: nat)
    requires i < j < |s| && s[i] == s[j]
    ensures multiset(s)[s[i]] >= 2
  {
    assert s == s[..j] + s[j..];
    assert s[i] in multiset(s[..j]);
    assert s[j..][0] in multiset(s[j..]);
  }

  lemma UnlimitedLeavesNone<K(!new), P(!new)>(leq: (K, K) -> bool, p: Pool<K, P>,
                                              chosen: seq<Entry<K>>, total: U64, q: Pool<K, P>)
    requires Exact(p) && Proposes(leq, p, 0, 0, chosen, total, q)
    ensures multiset(chosen) == p.heap && q.heap == multiset{}
  {
    forall e: Entry<K> ensures q.heap[e] == 0 && p.heap[e] == multiset(chosen)[e] {
      if e in p.heap {
        assert e.hash in p.byHash;
      }
    }
    assert q.heap == multiset{};
  }

  /** Without limits every waiting transaction is proposed exactly once, and none stays queued. */
  lemma UnlimitedProposalTakesAll<K(!new), P(!new)>(leq: (K, K) -> bool, p: Pool<K, P>,
                                                    chosen: seq<Entry<K>>, total: U64, q: Pool<K, P>)
    requires Exact(p) && Proposes(leq, p, 0, 0, chosen, total, q)
    ensures multiset(chosen) == p.heap && q.heap == multiset{}
    ensures forall h :: h in HashesOf(chosen) <==> h in p.byHash && h !in p.inFlight
  {
    UnlimitedLeavesNone(leq, p, chosen, total, q);
    hide Proposes;
    forall h ensures h in HashesOf(chosen) <==> h in p.byHash && h !in p.inFlight {
      assert h in HashesOf(chosen) <==> exists e :: e in multiset(chosen) && e.hash == h;
      assert h in p.byHash ==> h in p.inFlight || Waiting(p, h);
    }
  }

  /** When every queued entry carries its transaction's key, proposals follow the priorities. */
  ghost predicate KeysMatch<K(!new), P(!new)>(p: Pool<K, P>) {
    forall e :: e in p.heap && e.hash in p.byHash ==> e.key == p.byHash[e.hash].key
  }

  lemma ProposalFollowsPriority<K(!new), P(!new)>(leq: (K, K) -> bool, p: Pool<K, P>, maxGas: U64, maxTxs: nat,
                                                  chosen: seq<Entry<K>>, total: U64, q: Pool<K, P>)
    requires KeysMatch(p) && Selects(leq, p, maxGas, maxTxs, chosen, total, q)
    ensures var txs := TxsOf(p, chosen); forall i, j :: 0 <= i < j < |txs| ==> leq(txs[j].key, txs[i].key)
  {
    forall i | 0 <= i < |chosen| ensures chosen[i].key == TxsOf(p, chosen)[i].key {
      assert chosen[i] in multiset(chosen);
    }
  }

  // ---------------------------------------------------------------------------------------
  // The per-sender index is exact

  lemma {:induction false} InOrderLists(m: map<nat, Hash>)
    ensures forall h :: h in InOrder(m) <==> h in m.Values
    decreases |m|
  {
    if m != map[] {
      var k := MaxKey(m);
      assert (m - {k}).Keys == m.Keys - {k};
      InOrderLists(m - {k});
      forall h ensures h in InOrder(m) <==> h in m.Values {
        assert h in InOrder(m) <==> h in InOrder(m - {k}) || h == m[k];
        if h in m.Values {
          var n :| n in m && m[n] == h;
          assert n != k ==> n in m - {k};
        }
      }
    }
  }

  ghost predicate Distinct(s: seq<Hash>) {
    forall i, j :: 0 <= i < j < |s| ==> s[i] != s[j]
  }

  lemma {:induction false} InOrderDistinct(m: map<nat, Hash>)
    requires forall n, k :: n in m && k in m && n != k ==> m[n] != m[k]
    ensures Distinct(InOrder(m))
    decreases |m|
  {
    if m != map[] {
      var k := MaxKey(m);
      assert (m - {k}).Keys == m.Keys - {k};
      InOrderDistinct(m - {k});
      InOrderLists(m - {k});
      assert m[k] !in InOrder(m - {k});
    }
  }

  /** `get_sender_txs` lists precisely the sender's live transactions, once each. */
  lemma SenderTxsExact<K(!new), P(!new)>(p: Pool<K, P>, s: SenderKey)
    requires Indexed(p)
    ensures Distinct(SenderTxs(p, s))
    ensures forall h :: h in SenderTxs(p, s) <==> h in p.byHash && p.byHash[h].sender == Some(s)
  {
    assert Indexes(p.byHash, Listed(p, s), NextNumber(p, s), s);
    InOrderDistinct(Listed(p, s));
    InOrderLists(Listed(p, s));
  }

  lemma IndexesAppended<K(!new), P(!new)>(byHash: map<Hash, PoolTx<K, P>>, m: map<nat, Hash>, n: nat, s: SenderKey, tx: PoolTx<K, P>)
    requires Indexes(byHash, m, n, s) && tx.id !in byHash
    ensures forall j :: j in m ==> j < n
    ensures tx.sender == Some(s) ==> Indexes(byHash[tx.id := tx], m[n := tx.id], n + 1, s)
    ensures tx.sender != Some(s) ==> Indexes(byHash[tx.id := tx], m, n, s)
  {
    forall h | h in m.Values ensures h in m[n := tx.id].Values {
      var k :| k in m && m[k] == h;
      assert m[n := tx.id][k] == h;
    }
    assert n in m[n := tx.id];
  }

  lemma AddedLists<K(!new), P(!new)>(p: Pool<K, P>, tx: PoolTx<K, P>, s: SenderKey)
    ensures var q := Added(p, tx);
            if tx.sender == Some(s) then
              Listed(q, s) == Listed(p, s)[NextNumber(p, s) := tx.id] && NextNumber(q, s) == NextNumber(p, s) + 1
            else
              Listed(q, s) == Listed(p, s) && NextNumber(q, s) == NextNumber(p, s)
    ensures Added(p, tx).byHash == p.byHash[tx.id := tx]
  {
  }

  /** A new transaction is listed last for its sender; other lists stay. */
  lemma AddedSenderTxs<K(!new), P(!new)>(p: Pool<K, P>, tx: PoolTx<K, P>, s: SenderKey)
    requires Indexed(p) && tx.id !in p.byHash
    ensures var q := Added(p, tx); Indexes(q.byHash, Listed(q, s), NextNumber(q, s), s)
    ensures SenderTxs(Added(p, tx), s) == SenderTxs(p, s) + if tx.sender == Some(s) then [tx.id] else []
  {
    hide Indexes, InOrder, Added;
    var m, next := Listed(p, s), NextNumber(p, s);
    AddedLists(p, tx, s);
    assert Indexes(p.byHash, m, next, s);
    IndexesAppended(p.byHash, m, next, s, tx);
    InOrderAppends(m, next, tx.id);
  }

  lemma AddedIndexed<K(!new), P(!new)>(p: Pool<K, P>, tx: PoolTx<K, P>)
    requires Indexed(p) && tx.id !in p.byHash
    ensures Indexed(Added(p, tx))
  {
    var q := Added(p, tx);
    forall s ensures Indexes(q.byHash, Listed(q, s), NextNumber(q, s), s) {
      AddedSenderTxs(p, tx, s);
    }
  }

  lemma {:induction false} WithoutAbsent(s: seq<Hash>, h: Hash)
    requires h !in s
    ensures Without(s, h) == s
  {
    if s != [] {
      WithoutAbsent(s[..|s| - 1], h);
    }
  }

  lemma IndexesRetained<K(!new), P(!new)>(byHash: map<Hash, PoolTx<K, P>>, m: map<nat, Hash>, next: nat, s: SenderKey, h: Hash)
    requires Indexes(byHash, m, next, s)
    ensures Indexes(byHash - {h}, Retained(m, h), next, s)
    ensures h in byHash && byHash[h].sender != Some(s) ==> Retained(m, h) == m
  {
    forall g | g in m.Values && g != h ensures g in Retained(m, h).Values {
      var k :| k in m && m[k] == g;
      assert k in Retained(m, h);
    }
  }

  lemma RemovedLists<K(!new), P(!new)>(p: Pool<K, P>, h: Hash, s: SenderKey)
    requires Indexed(p) && h in p.byHash
    ensures var q := Removed(p, h);
            && Listed(q, s) == Retained(Listed(p, s), h)
            && (Listed(q, s) == map[] || NextNumber(q, s) == NextNumber(p, s))
            && q.senderSeq.Keys == q.bySender.Keys && q.byHash == p.byHash - {h}
  {
    assert Indexes(p.byHash, Listed(p, s), NextNumber(p, s), s);
    IndexesRetained(p.byHash, Listed(p, s), NextNumber(p, s), s, h);
  }

  /** A removed transaction leaves its sender's list; the order of the others stays. */
  lemma RemovedSenderTx<K(!new), P(!new)>(p: Pool<K, P>, h: Hash, s: SenderKey)
    requires Indexed(p) && h in p.byHash
    ensures var q := Removed(p, h); Indexes(q.byHash, Listed(q, s), NextNumber(q, s), s)
    ensures SenderTxs(Removed(p, h), s) == Without(SenderTxs(p, s), h)
  {
    hide Indexes, InOrder, Removed;
    var m, next := Listed(p, s), NextNumber(p, s);
    assert Indexes(p.byHash, m, next, s);
    IndexesRetained(p.byHash, m, next, s, h);
    RemovedLists(p, h, s);
    IndexesNothing(p.byHash - {h}, next, NextNumber(Removed(p, h), s), s);
    InOrderRetains(m, h);
  }

  /** An empty list needs no number to come. */
  lemma IndexesNothing<K(!new), P(!new)>(byHash: map<Hash, PoolTx<K, P>>, next: nat, other: nat, s: SenderKey)
    ensures Indexes(byHash, map[], next, s) ==> Indexes(byHash, map[], other, s)
  {
  }

  /** The same for every sender, and for a hash that is not in the pool. */
  lemma RemovedSenderTxs<K(!new), P(!new)>(p: Pool<K, P>, h: Hash)
    requires Indexed(p)
    ensures Indexed(Removed(p, h))
    ensures forall s :: SenderTxs(Removed(p, h), s) == Without(SenderTxs(p, s), h)
  {
    hide Indexes, InOrder, Without;
    if h in p.byHash {
      forall s
        ensures var q := Removed(p, h); Indexes(q.byHash, Listed(q, s), NextNumber(q, s), s)
        ensures SenderTxs(Removed(p, h), s) == Without(SenderTxs(p, s), h)
      {
        RemovedSenderTx(p, h, s);
      }
      RemovedLists(p, h, []);
    } else {
      forall s ensures SenderTxs(p, s) == Without(SenderTxs(p, s), h) {
        SenderTxsExact(p, s);
        WithoutAbsent(SenderTxs(p, s), h);
      }
    }
  }

  function WithoutAll(s: seq<Hash>, hashes: seq<Hash>): seq<Hash>
    decreases hashes
  {
    if hashes == [] then s else WithoutAll(Without(s, hashes[0]), hashes[1..])
  }

  lemma {:induction false} RemovedAllIndexed<K(!new), P(!new)>(p: Pool<K, P>, hashes: seq<Hash>)
    requires Indexed(p)
    ensures Indexed(RemovedAll(p, hashes))
    ensures forall s :: SenderTxs(RemovedAll(p, hashes), s) == WithoutAll(SenderTxs(p, s), hashes)
    decreases hashes
  {
    hide Indexed, SenderTxs, Without, Removed;
    if hashes != [] {
      RemovedSenderTxs(p, hashes[0]);
      RemovedAllIndexed(Removed(p, hashes[0]), hashes[1..]);
    }
  }

  // ---------------------------------------------------------------------------------------
  // Removing a transaction and adding it again

  /**
   * An added transaction is queued once exactly when no entry of it is left in the queue and it is
   * not in flight: `remove` leaves both behind.
   */
  lemma AddKeepsLiveOnceIff<K(!new), P(!new)>(p: Pool<K, P>, tx: PoolTx<K, P>)
    requires LiveOnce(p) && tx.id !in p.byHash
    ensures LiveOnce(Added(p, tx)) <==> !Waiting(p, tx.id) && tx.id !in p.inFlight
  {
    if Waiting(p, tx.id) || tx.id in p.inFlight {
      LeftOverShows(p, tx);
    } else {
      AddedLiveOnce(p, tx);
    }
  }

  lemma LeftOverShows<K(!new), P(!new)>(p: Pool<K, P>, tx: PoolTx<K, P>)
    requires Waiting(p, tx.id) || tx.id in p.inFlight
    ensures !LiveOnce(Added(p, tx))
  {
    var q, e := Added(p, tx), Entry(tx.id, tx.key);
    assert e in q.heap && e.hash in q.byHash;
    if f :| f in p.heap && f.hash == tx.id {
      assert f in q.heap && f.hash in q.byHash;
      assert f == e ==> q.heap[e] >= 2;
    }
  }

  lemma AddedLiveOnce<K(!new), P(!new)>(p: Pool<K, P>, tx: PoolTx<K, P>)
    requires LiveOnce(p) && !Waiting(p, tx.id) && tx.id !in p.inFlight
    ensures LiveOnce(Added(p, tx))
  {
    var q, added := Added(p, tx), Entry(tx.id, tx.key);
    forall e | e in q.heap ensures e == added || (e in p.heap && e.hash != tx.id && q.heap[e] == p.heap[e]) {
      assert q.heap == p.heap + multiset{added};
    }
    assert added !in p.heap;
  }

  lemma RemoveKeepsLiveOnce<K(!new), P(!new)>(p: Pool<K, P>, hashes: seq<Hash>)
    requires LiveOnce(p)
    ensures LiveOnce(RemovedAll(p, hashes))
  {
    RemovedAllFacts(p, hashes);
  }

  lemma ProposeKeepsLiveOnce<K(!new), P(!new)>(p: Pool<K, P>, chosen: seq<Entry<K>>, q: Pool<K, P>)
    requires LiveOnce(p) && q == p.(heap := q.heap, inFlight := p.inFlight + HashesOf(chosen))
    requires forall e: Entry<K> :: multiset(chosen)[e] + q.heap[e] <= p.heap[e]
    ensures LiveOnce(q)
  {
    forall e | e in q.heap ensures e in p.heap && (e.hash in p.byHash ==> q.heap[e] == 1 && e.hash !in q.inFlight) {
      assert multiset(chosen)[e] + q.heap[e] <= p.heap[e];
      if e.hash in p.byHash {
        forall f | f in chosen ensures f.hash != e.hash {
          assert f in multiset(chosen);
          assert multiset(chosen)[f] + q.heap[f] <= p.heap[f];
          assert f in p.heap;
        }
      }
    }
  }

  /** Whatever is finalized: what goes back into the queue had no entry there. */
  lemma FinalizeKeepsLiveOnce<K(!new), P(!new)>(p: Pool<K, P>, executed: seq<Hash>)
    requires LiveOnce(p)
    ensures LiveOnce(Finalized(p, executed))
  {
    RemovedAllFacts(p, executed);
    var rest := p.inFlight - set h | h in executed;
    var z := Finalized(p, executed);
    forall e | e in z.heap && e.hash in z.byHash ensures z.heap[e] == 1 && (e in p.heap <==> e.hash !in p.inFlight) {
      RequeuedFacts(z.byHash, rest, e);
    }
    forall e, f | e in z.heap && f in z.heap && e.hash == f.hash && e.hash in z.byHash ensures e == f {
      RequeuedFacts(z.byHash, rest, e);
      RequeuedFacts(z.byHash, rest, f);
    }
  }

  /** The shortest such run: add, remove, add. */
  lemma ReaddedTwice<K(!new), P(!new)>(tx: PoolTx<K, P>)
    ensures var p := Added(Removed(Added(Emptied(), tx), tx.id), tx);
            p.heap == multiset{Entry(tx.id, tx.key), Entry(tx.id, tx.key)} && !LiveOnce(p)
  {
    var p := Added(Removed(Added(Emptied(), tx), tx.id), tx);
    assert p.heap[Entry(tx.id, tx.key)] == 2;
  }

  // ---------------------------------------------------------------------------------------
  // Runs

  datatype Op<K, P> =
    | Add(tx: PoolTx<K, P>)
    | Remove(hash: Hash)
    | RemoveMany(hashes: seq<Hash>)
    | Propose(maxGas: U64, maxTxs: nat, chosen: seq<Entry<K>>, total: U64)
    | Finalize(executed: seq<Hash>)
    | Clear

  ghost predicate Step<K(!new), P(!new)>(leq: (K, K) -> bool, p: Pool<K, P>, op: Op<K, P>, q: Pool<K, P>) {
    match op
    case Add(tx) => q == if tx.id in p.byHash then p else Added(p, tx)
    case Remove(hash) => q == Removed(p, hash)
    case RemoveMany(hashes) => q == RemovedAll(p, hashes)
    case Propose(maxGas, maxTxs, chosen, total) => Proposes(leq, p, maxGas, maxTxs, chosen, total, q)
    case Finalize(executed) => q == Finalized(p, executed)
    case Clear => q == Emptied()
  }

  ghost predicate IsRun<K(!new), P(!new)>(leq: (K, K) -> bool, states: seq<Pool<K, P>>, ops: seq<Op<K, P>>) {
    && |states| == |ops| + 1
    && states[0] == Emptied()
    && forall i :: 0 <= i < |ops| ==> Step(leq, states[i], ops[i], states[i + 1])
  }

  lemma StepKeepsNoneLost<K(!new), P(!new)>(leq: (K, K) -> bool, p: Pool<K, P>, op: Op<K, P>, q: Pool<K, P>)
    requires Step(leq, p, op, q) && NoneLost(p)
    ensures NoneLost(q)
  {
    match op
    case Add(tx) => if tx.id !in p.byHash { AddedKeeps(p, tx); }
    case Remove(hash) =>
      assert q == RemovedAll(p, [hash]) by { assert [hash][1..] == []; }
      RemovedAllKeeps(p, [hash]);
    case RemoveMany(hashes) => RemovedAllKeeps(p, hashes);
    case Propose(maxGas, maxTxs, chosen, total) => ProposesKeeps(leq, p, maxGas, maxTxs, chosen, total, q);
    case Finalize(executed) => FinalizedKeepsNoneLost(p, executed);
    case Clear =>
  }

  lemma StepKeepsIndexed<K(!new), P(!new)>(leq: (K, K) -> bool, p: Pool<K, P>, op: Op<K, P>, q: Pool<K, P>)
    requires Step(leq, p, op, q) && Indexed(p)
    ensures Indexed(q)
  {
    match op
    case Add(tx) => if tx.id !in p.byHash { AddedIndexed(p, tx); }
    case Remove(hash) => RemovedSenderTxs(p, hash);
    case RemoveMany(hashes) => RemovedAllIndexed(p, hashes);
    case Propose(_, _, _, _) => SameIndex(p, q);
    case Finalize(executed) =>
      RemovedAllIndexed(p, executed);
      SameIndex(RemovedAll(p, executed), q);
    case Clear =>
  }

  lemma SameIndex<K(!new), P(!new)>(p: Pool<K, P>, q: Pool<K, P>)
    requires Indexed(p) && q == p.(heap := q.heap, inFlight := q.inFlight)
    ensures Indexed(q)
  {
    forall s ensures Indexes(q.byHash, Listed(q, s), NextNumber(q, s), s) {
      assert Indexes(p.byHash, Listed(p, s), NextNumber(p, s), s);
    }
  }

  /** In every run no live transaction is lost and the per-sender index stays exact. */
  lemma {:induction false} RunsLoseNothing<K(!new), P(!new)>(leq: (K, K) -> bool, states: seq<Pool<K, P>>, ops: seq<Op<K, P>>, i: nat)
    requires IsRun(leq, states, ops) && i <= |ops|
    ensures NoneLost(states[i]) && Indexed(states[i])
  {
    if i > 0 {
      RunsLoseNothing(leq, states, ops, i - 1);
      StepKeepsNoneLost(leq, states[i - 1], ops[i - 1], states[i]);
      StepKeepsIndexed(leq, states[i - 1], ops[i - 1], states[i]);
    }
  }

  /** What the history says a sender's list is: accepted adds in order, less what was removed since. */
  function History<K, P>(states: seq<Pool<K, P>>, ops: seq<Op<K, P>>, i: nat, s: SenderKey): seq<Hash>
    requires i <= |ops| <= |states|
  {
    if i == 0 then []
    else
      var before := History(states, ops, i - 1, s);
      match ops[i - 1]
      case Add(tx) => if tx.id !in states[i - 1].byHash && tx.sender == Some(s) then before + [tx.id] else before
      case Remove(hash) => Without(before, hash)
      case RemoveMany(hashes) => WithoutAll(before, hashes)
      case Propose(_, _, _, _) => before
      case Finalize(executed) => WithoutAll(before, executed)
      case Clear => []
  }

  /** In every run a sender's list is in the order of insertion. */
  lemma {:induction false} SenderTxsFollowHistory<K(!new), P(!new)>(leq: (K, K) -> bool, states: seq<Pool<K, P>>, ops: seq<Op<K, P>>,
                                                                    i: nat, s: SenderKey)
    requires IsRun(leq, states, ops) && i <= |ops|
    ensures SenderTxs(states[i], s) == History(states, ops, i, s)
  {
    hide Step, Indexed, NoneLost, SenderTxs, Without, WithoutAll;
    if i == 0 {
      NothingListed(states[0], s);
    } else {
      SenderTxsFollowHistory(leq, states, ops, i - 1, s);
      RunsLoseNothing(leq, states, ops, i - 1);
      StepSenderTxs(leq, states[i - 1], ops[i - 1], states[i], s);
    }
  }

  lemma StepSenderTxs<K(!new), P(!new)>(leq: (K, K) -> bool, p: Pool<K, P>, op: Op<K, P>, q: Pool<K, P>, s: SenderKey)
    requires Step(leq, p, op, q) && Indexed(p)
    ensures SenderTxs(q, s) ==
            match op {
              case Add(tx) => SenderTxs(p, s) + if tx.id !in p.byHash && tx.sender == Some(s) then [tx.id] else []
              case Remove(hash) => Without(SenderTxs(p, s), hash)
              case RemoveMany(hashes) => WithoutAll(SenderTxs(p, s), hashes)
              case Propose(_, _, _, _) => SenderTxs(p, s)
              case Finalize(executed) => WithoutAll(SenderTxs(p, s), executed)
              case Clear => []
            }
  {
    hide Indexed, Indexes, InOrder, Without, WithoutAll, Removed, RemovedAll, Added, Selects;
    match op
    case Add(tx) => if tx.id !in p.byHash { AddedSenderTxs(p, tx, s); }
    case Remove(hash) => RemovedSenderTxs(p, hash);
    case RemoveMany(hashes) => RemovedAllIndexed(p, hashes);
    case Propose(maxGas, maxTxs, chosen, total) => ProposesConserves(leq, p, maxGas, maxTxs, chosen, total, q);
    case Finalize(executed) => RemovedAllIndexed(p, executed);
    case Clear => NothingListed(q, s);
  }

  lemma NothingListed<K, P>(p: Pool<K, P>, s: SenderKey)
    requires p == Emptied()
    ensures SenderTxs(p, s) == []
  {
  }

  /** Adds, proposals, clears, and finalizations of transactions in flight. */
  predicate Orderly<K, P>(p: Pool<K, P>, op: Op<K, P>) {
    && !op.Remove? && !op.RemoveMany?
    && (op.Finalize? ==> forall h :: h in op.executed ==> h in p.inFlight)
  }

  ghost predicate IsOrderlyRun<K(!new), P(!new)>(leq: (K, K) -> bool, states: seq<Pool<K, P>>, ops: seq<Op<K, P>>) {
    IsRun(leq, states, ops) && forall i :: 0 <= i < |ops| ==> Orderly(states[i], ops[i])
  }

  /** In every orderly run the live hashes are the queued ones and those in flight, each once. */
  lemma {:induction false} OrderlyRunsAreExact<K(!new), P(!new)>(leq: (K, K) -> bool, states: seq<Pool<K, P>>, ops: seq<Op<K, P>>, i: nat)
    requires IsOrderlyRun(leq, states, ops) && i <= |ops|
    ensures Exact(states[i])
  {
    if i > 0 {
      OrderlyRunsAreExact(leq, states, ops, i - 1);
      var p, op, q := states[i - 1], ops[i - 1], states[i];
      assert Step(leq, p, op, q) && Orderly(p, op);
      match op {
        case Add(tx) => if tx.id !in p.byHash { AddedKeeps(p, tx); }
        case Propose(maxGas, maxTxs, chosen, total) => ProposesKeeps(leq, p, maxGas, maxTxs, chosen, total, q);
        case Finalize(executed) => FinalizedKeepsExact(p, executed);
        case Clear =>
      }
    }
  }

  /** A proposed transaction stays in flight until something is finalized or the pool is cleared. */
  lemma {:induction false} InFlightUntilFinalized<K(!new), P(!new)>(leq: (K, K) -> bool, states: seq<Pool<K, P>>, ops: seq<Op<K, P>>, i: nat, j: nat, h: Hash)
    requires IsRun(leq, states, ops) && i <= j <= |ops| && h in states[i].inFlight
    requires forall k :: i <= k < j ==> !ops[k].Finalize? && !ops[k].Clear?
    ensures h in states[j].inFlight
  {
    if i < j {
      InFlightUntilFinalized(leq, states, ops, i, j - 1, h);
      assert Step(leq, states[j - 1], ops[j - 1], states[j]);
      if ops[j - 1].RemoveMany? {
        RemovedAllFacts(states[j - 1], ops[j - 1].hashes);
      }
    }
  }

  /** No transaction is added while an entry of it is left in the queue or it is in flight. */
  ghost predicate Careful<K(!new), P(!new)>(p: Pool<K, P>, op: Op<K, P>) {
    op.Add? && op.tx.id !in p.byHash ==> !Waiting(p, op.tx.id) && op.tx.id !in p.inFlight
  }

  ghost predicate IsCarefulRun<K(!new), P(!new)>(leq: (K, K) -> bool, states: seq<Pool<K, P>>, ops: seq<Op<K, P>>) {
    IsRun(leq, states, ops) && forall i :: 0 <= i < |ops| ==> Careful(states[i], ops[i])
  }

  /** Removals, and finalizations of any hashes, are fine in a careful run; orderly runs are careful. */
  lemma OrderlyRunsAreCareful<K(!new), P(!new)>(leq: (K, K) -> bool, states: seq<Pool<K, P>>, ops: seq<Op<K, P>>)
    requires IsOrderlyRun(leq, states, ops)
    ensures IsCarefulRun(leq, states, ops)
  {
    forall i | 0 <= i < |ops| ensures Careful(states[i], ops[i]) {
      OrderlyRunsAreExact(leq, states, ops, i);
    }
  }

  lemma StepKeepsLiveOnce<K(!new), P(!new)>(leq: (K, K) -> bool, p: Pool<K, P>, op: Op<K, P>, q: Pool<K, P>)
    requires Step(leq, p, op, q) && LiveOnce(p)
    ensures LiveOnce(q) <==> Careful(p, op)
  {
    hide LiveOnce, Selects, Removed, Finalized;
    match op
    case Add(tx) => if tx.id !in p.byHash { AddKeepsLiveOnceIff(p, tx); }
    case Remove(hash) =>
      assert q == RemovedAll(p, [hash]) by { assert [hash][1..] == []; }
      RemoveKeepsLiveOnce(p, [hash]);
    case RemoveMany(hashes) => RemoveKeepsLiveOnce(p, hashes);
    case Propose(maxGas, maxTxs, chosen, total) =>
      ProposesConserves(leq, p, maxGas, maxTxs, chosen, total, q);
      ProposeKeepsLiveOnce(p, chosen, q);
    case Finalize(executed) => FinalizeKeepsLiveOnce(p, executed);
    case Clear => EmptyIsLiveOnce(q);
  }

  lemma EmptyIsLiveOnce<K(!new), P(!new)>(p: Pool<K, P>)
    requires p == Emptied()
    ensures LiveOnce(p)
  {
  }

  /** In every careful run each live hash has at most one queue entry, and none while it is in flight. */
  lemma {:induction false} CarefulRunsAreLiveOnce<K(!new), P(!new)>(leq: (K, K) -> bool, states: seq<Pool<K, P>>, ops: seq<Op<K, P>>, i: nat)
    requires IsCarefulRun(leq, states, ops) && i <= |ops|
    ensures LiveOnce(states[i])
  {
    hide LiveOnce, Step;
    if i == 0 {
      EmptyIsLiveOnce(states[0]);
    } else {
      CarefulRunsAreLiveOnce(leq, states, ops, i - 1);
      assert Careful(states[i - 1], ops[i - 1]);
      StepKeepsLiveOnce(leq, states[i - 1], ops[i - 1], states[i]);
    }
  }

  /** Two proposals of a careful run with nothing finalized in between share no transaction. */
  lemma NeverProposedTwice<K(!new), P(!new)>(leq: (K, K) -> bool, states: seq<Pool<K, P>>, ops: seq<Op<K, P>>, i: nat, j: nat)
    requires IsCarefulRun(leq, states, ops) && i < j < |ops| && ops[i].Propose? && ops[j].Propose?
    requires forall k :: i <= k < j ==> !ops[k].Finalize? && !ops[k].Clear?
    ensures HashesOf(ops[i].chosen) !! HashesOf(ops[j].chosen)
  {
    assert Step(leq, states[i], ops[i], states[i + 1]) && Step(leq, states[j], ops[j], states[j + 1]);
    CarefulRunsAreLiveOnce(leq, states, ops, j);
    forall h | h in HashesOf(ops[i].chosen) ensures h !in HashesOf(ops[j].chosen) {
      InFlightUntilFinalized(leq, states, ops, i + 1, j, h);
      ProposalIsNew(leq, states[j], ops[j].maxGas, ops[j].maxTxs, ops[j].chosen, ops[j].total, states[j + 1]);
    }
  }

  // ---------------------------------------------------------------------------------------
  // Queued entries carry their transaction's key

  lemma RemovedAllKeepsKeys<K(!new), P(!new)>(p: Pool<K, P>, hashes: seq<Hash>)
    requires KeysMatch(p)
    ensures KeysMatch(RemovedAll(p, hashes))
  {
    RemovedAllFacts(p, hashes);
  }

  lemma FinalizedKeepsKeys<K(!new), P(!new)>(p: Pool<K, P>, executed: seq<Hash>)
    requires KeysMatch(p)
    ensures KeysMatch(Finalized(p, executed))
  {
    hide KeysMatch;
    RemovedAllKeepsKeys(p, executed);
    RequeuedKeepsKeys(RemovedAll(p, executed), p.inFlight - set h | h in executed);
  }

  lemma RequeuedKeepsKeys<K(!new), P(!new)>(p: Pool<K, P>, hashes: set<Hash>)
    requires KeysMatch(p)
    ensures KeysMatch(p.(inFlight := {}, heap := p.heap + Requeued(p.byHash, hashes)))
  {
  }

  lemma OneRemoved<K, P>(p: Pool<K, P>, hash: Hash)
    ensures Removed(p, hash) == RemovedAll(p, [hash])
  {
    assert [hash][1..] == [];
  }

  lemma StepKeepsKeys<K(!new), P(!new)>(leq: (K, K) -> bool, p: Pool<K, P>, op: Op<K, P>, q: Pool<K, P>)
    requires Step(leq, p, op, q) && KeysMatch(p) && Careful(p, op)
    ensures KeysMatch(q)
  {
    hide Removed, RemovedAll, Finalized;
    match op
    case Add(_) =>
    case Remove(hash) =>
      OneRemoved(p, hash);
      RemovedAllKeepsKeys(p, [hash]);
    case RemoveMany(hashes) => RemovedAllKeepsKeys(p, hashes);
    case Propose(_, _, _, _) =>
    case Finalize(executed) => FinalizedKeepsKeys(p, executed);
    case Clear =>
  }

  lemma {:induction false} CarefulRunsMatchKeys<K(!new), P(!new)>(leq: (K, K) -> bool, states: seq<Pool<K, P>>, ops: seq<Op<K, P>>, i: nat)
    requires IsCarefulRun(leq, states, ops) && i <= |ops|
    ensures KeysMatch(states[i])
  {
    hide Step;
    if i > 0 {
      CarefulRunsMatchKeys(leq, states, ops, i - 1);
      assert Careful(states[i - 1], ops[i - 1]);
      StepKeepsKeys(leq, states[i - 1], ops[i - 1], states[i]);
    }
  }

  /** Every proposal of a careful run is in the order of the priorities its transactions have now. */
  lemma RunsFollowPriority<K(!new), P(!new)>(leq: (K, K) -> bool, states: seq<Pool<K, P>>, ops: seq<Op<K, P>>, i: nat)
    requires IsCarefulRun(leq, states, ops) && i < |ops| && ops[i].Propose?
    ensures forall e :: e in ops[i].chosen ==> e.hash in states[i].byHash
    ensures var txs := TxsOf(states[i], ops[i].chosen); forall j, k :: 0 <= j < k < |txs| ==> leq(txs[k].key, txs[j].key)
  {
    hide KeysMatch;
    CarefulRunsMatchKeys(leq, states, ops, i);
    assert Step(leq, states[i], ops[i], states[i + 1]);
    ProposalFollowsPriority(leq, states[i], ops[i].maxGas, ops[i].maxTxs, ops[i].chosen, ops[i].total,
                            states[i + 1].(inFlight := states[i].inFlight));
  }

  // ---------------------------------------------------------------------------------------
  // The two orders of the pool

  /**
   * Ordered by gas price, proposals of a careful run go from the highest price down, and for one
   * price from the lowest nonce up.
   */
  lemma DearestFirst<P(!new)>(states: seq<Pool<GasPriceOrdering, P>>, ops: seq<Op<GasPriceOrdering, P>>, i: nat, j: nat, k: nat)
    requires IsCarefulRun(GasPriceAtMost, states, ops) && i < |ops| && ops[i].Propose? && j < k < |ops[i].chosen|
    ensures forall e :: e in ops[i].chosen ==> e.hash in states[i].byHash
    ensures var txs := TxsOf(states[i], ops[i].chosen);
            && txs[j].key.gasPrice >= txs[k].key.gasPrice
            && (txs[j].key.gasPrice == txs[k].key.gasPrice ==> txs[j].key.nonce <= txs[k].key.nonce)
  {
    hide IsCarefulRun;
    RunsFollowPriority(GasPriceAtMost, states, ops, i);
  }

  /** Ordered by age, they go from the oldest to the newest. */
  lemma OldestFirst<P(!new)>(states: seq<Pool<FifoOrdering, P>>, ops: seq<Op<FifoOrdering, P>>, i: nat, j: nat, k: nat)
    requires IsCarefulRun(FifoAtMost, states, ops) && i < |ops| && ops[i].Propose? && j < k < |ops[i].chosen|
    ensures forall e :: e in ops[i].chosen ==> e.hash in states[i].byHash
    ensures var txs := TxsOf(states[i], ops[i].chosen); txs[j].key.timestamp <= txs[k].key.timestamp
  {
    hide IsCarefulRun;
    RunsFollowPriority(FifoAtMost, states, ops, i);
  }

  /** Without a gas limit, what is left waiting costs no more than anything proposed. */
  lemma LeftOutIsCheaper<P(!new)>(p: Pool<GasPriceOrdering, P>, maxTxs: nat, chosen: seq<Entry<GasPriceOrdering>>, total: U64,
                                  q: Pool<GasPriceOrdering, P>, e: Entry<GasPriceOrdering>, j: nat)
    requires Proposes(GasPriceAtMost, p, 0, maxTxs, chosen, total, q)
    requires e in q.heap && e.hash in p.byHash && j < |chosen|
    ensures e.key.gasPrice <= chosen[j].key.gasPrice
  {
    var last := chosen[|chosen| - 1];
    assert GasPriceAtMost(last.key, chosen[j].key);
    assert GasPriceAtMost(e.key, last.key);
  }

  /** The same by age: what is left waiting is no older than anything proposed. */
  lemma LeftOutIsNewer<P(!new)>(p: Pool<FifoOrdering, P>, maxTxs: nat, chosen: seq<Entry<FifoOrdering>>, total: U64,
                                q: Pool<FifoOrdering, P>, e: Entry<FifoOrdering>, j: nat)
    requires Proposes(FifoAtMost, p, 0, maxTxs, chosen, total, q)
    requires e in q.heap && e.hash in p.byHash && j < |chosen|
    ensures chosen[j].key.timestamp <= e.key.timestamp
  {
    var last := chosen[|chosen| - 1];
    assert FifoAtMost(last.key, chosen[j].key);
    assert FifoAtMost(e.key, last.key);
  }

  /** With room for more transactions, what is left waiting does not fit: its gas limit would pass the budget. */
  lemma LeftOutDoesNotFit<K(!new), P(!new)>(leq: (K, K) -> bool, p: Pool<K, P>, maxGas: U64, maxTxs: nat,
                                            chosen: seq<Entry<K>>, total: U64, q: Pool<K, P>, e: Entry<K>)
    requires Proposes(leq, p, maxGas, maxTxs, chosen, total, q)
    requires e in q.heap && e.hash in p.byHash && (maxTxs == 0 || |chosen| < maxTxs)
    ensures 0 < maxGas < GasOf(TxsOf(p, chosen)) + p.byHash[e.hash].gasLimit
  {
    assert TooLarge(p, maxGas, total, e);
  }
}
