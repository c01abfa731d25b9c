/** The pool as an object whose methods update its indexes in place (crates/app/mempool/src/pool.rs). */
module Mempool {
  import opened Types
  import opened Ordering
  import opened Pool

  // ---------------------------------------------------------------------------------------
  // The selection loop on values

  /** Every live entry of the pool is chosen, skipped or still queued. */
  ghost predicate Conserves<K(!new), P(!new)>(p: Pool<K, P>, chosen: seq<Entry<K>>, skipped: seq<Entry<K>>, heap: multiset<Entry<K>>) {
    && multiset(chosen) + multiset(skipped) + heap <= p.heap
    && forall e: Entry<K> :: e.hash in p.byHash ==> p.heap[e] == multiset(chosen)[e] + multiset(skipped)[e] + heap[e]
  }

  ghost predicate Ranked<K(!new)>(leq: (K, K) -> bool, chosen: seq<Entry<K>>, heap: multiset<Entry<K>>) {
    && Descending(leq, chosen)
    && forall e, f :: e in chosen && f in heap ==> leq(f.key, e.key)
  }

  ghost predicate WithinBudget<K(!new), P(!new)>(p: Pool<K, P>, maxGas: U64, maxTxs: nat, chosen: seq<Entry<K>>, total: U64) {
    && (forall e :: e in chosen ==> e.hash in p.byHash)
    && (maxTxs > 0 ==> |chosen| <= maxTxs)
    && total == AtMostU64(GasOf(TxsOf(p, chosen)))
    && (maxGas > 0 ==> total <= maxGas)
  }

  /** In the middle of a selection: `heap` is still queued, `skipped` will be queued again. */
  ghost predicate Selecting<K(!new), P(!new)>(leq: (K, K) -> bool, p: Pool<K, P>, maxGas: U64, maxTxs: nat,
                                              chosen: seq<Entry<K>>, skipped: seq<Entry<K>>, total: U64, heap: multiset<Entry<K>>)
  {
    && Conserves(p, chosen, skipped, heap)
    && Ranked(leq, chosen, heap)
    && WithinBudget(p, maxGas, maxTxs, chosen, total)
    && forall e :: e in skipped ==> TooLarge(p, maxGas, total, e)
  }

  ghost predicate Top<K(!new)>(leq: (K, K) -> bool, heap: multiset<Entry<K>>, e: Entry<K>) {
    e in heap && forall f :: f in heap ==> leq(f.key, e.key)
  }

  lemma ConservesPopped<K(!new), P(!new)>(p: Pool<K, P>, chosen: seq<Entry<K>>, skipped: seq<Entry<K>>, heap: multiset<Entry<K>>, e: Entry<K>)
    requires Conserves(p, chosen, skipped, heap) && e in heap
    ensures Conserves(p, chosen + [e], skipped, heap - multiset{e})
    ensures Conserves(p, chosen, skipped + [e], heap - multiset{e})
    ensures e.hash !in p.byHash ==> Conserves(p, chosen, skipped, heap - multiset{e})
  {
    assert multiset(chosen + [e]) == multiset(chosen) + multiset{e};
    assert multiset(skipped + [e]) == multiset(skipped) + multiset{e};
  }

  lemma RankedPopped<K(!new)>(leq: (K, K) -> bool, chosen: seq<Entry<K>>, heap: multiset<Entry<K>>, e: Entry<K>)
    requires Ranked(leq, chosen, heap) && Top(leq, heap, e)
    ensures Ranked(leq, chosen + [e], heap - multiset{e}) && Ranked(leq, chosen, heap - multiset{e})
  {
  }

  lemma WithinBudgetGrows<K(!new), P(!new)>(p: Pool<K, P>, maxGas: U64, maxTxs: nat, chosen: seq<Entry<K>>, total: U64, e: Entry<K>)
    requires WithinBudget(p, maxGas, maxTxs, chosen, total) && (maxTxs == 0 || |chosen| < maxTxs)
    requires e.hash in p.byHash && Fits(maxGas, total, p.byHash[e.hash].gasLimit)
    ensures WithinBudget(p, maxGas, maxTxs, chosen + [e], SatAdd(total, p.byHash[e.hash].gasLimit))
  {
    var more := chosen + [e];
    assert TxsOf(p, more)[..|chosen|] == TxsOf(p, chosen);
  }

  lemma TxsOfGrows<K(!new), P(!new)>(p: Pool<K, P>, chosen: seq<Entry<K>>, e: Entry<K>)
    requires e.hash in p.byHash && forall f :: f in chosen ==> f.hash in p.byHash
    ensures TxsOf(p, chosen + [e]) == TxsOf(p, chosen) + [p.byHash[e.hash]]
  {
  }

  lemma SelectingTakes<K(!new), P(!new)>(leq: (K, K) -> bool, p: Pool<K, P>, maxGas: U64, maxTxs: nat,
                                         chosen: seq<Entry<K>>, skipped: seq<Entry<K>>, total: U64, heap: multiset<Entry<K>>, e: Entry<K>)
    requires Selecting(leq, p, maxGas, maxTxs, chosen, skipped, total, heap) && Top(leq, heap, e)
    requires maxTxs == 0 || |chosen| < maxTxs
    requires e.hash in p.byHash && Fits(maxGas, total, p.byHash[e.hash].gasLimit)
    ensures Selecting(leq, p, maxGas, maxTxs, chosen + [e], skipped, SatAdd(total, p.byHash[e.hash].gasLimit), heap - multiset{e})
  {
    ConservesPopped(p, chosen, skipped, heap, e);
    RankedPopped(leq, chosen, heap, e);
    WithinBudgetGrows(p, maxGas, maxTxs, chosen, total, e);
  }

  lemma SelectingSkips<K(!new), P(!new)>(leq: (K, K) -> bool, p: Pool<K, P>, maxGas: U64, maxTxs: nat,
                                         chosen: seq<Entry<K>>, skipped: seq<Entry<K>>, total: U64, heap: multiset<Entry<K>>, e: Entry<K>)
    requires Selecting(leq, p, maxGas, maxTxs, chosen, skipped, total, heap) && Top(leq, heap, e)
    ensures TooLarge(p, maxGas, total, e) ==> Selecting(leq, p, maxGas, maxTxs, chosen, skipped + [e], total, heap - multiset{e})
    ensures e.hash !in p.byHash ==> Selecting(leq, p, maxGas, maxTxs, chosen, skipped, total, heap - multiset{e})
  {
    ConservesPopped(p, chosen, skipped, heap, e);
    RankedPopped(leq, chosen, heap, e);
  }

  lemma SelectingEnds<K(!new), P(!new)>(leq: (K, K) -> bool, p: Pool<K, P>, maxGas: U64, maxTxs: nat,
                                        chosen: seq<Entry<K>>, skipped: seq<Entry<K>>, total: U64, heap: multiset<Entry<K>>)
    requires Selecting(leq, p, maxGas, maxTxs, chosen, skipped, total, heap)
    requires heap == multiset{} || (maxTxs > 0 && |chosen| == maxTxs)
    ensures Selects(leq, p, maxGas, maxTxs, chosen, total, p.(heap := heap + multiset(skipped)))
  {
    assert forall e :: e in multiset(skipped) <==> e in skipped;
  }

  // ---------------------------------------------------------------------------------------
  // The object

  class Mempool<K(==, !new), P(!new)> {
    const leq: (K, K) -> bool
    var byHash: map<Hash, PoolTx<K, P>>
    var byPriority: multiset<Entry<K>>
    var bySender: map<SenderKey, map<nat, Hash>>
    var bySenderSeq: map<SenderKey, nat>
    var inFlight: set<Hash>

    constructor (leq: (K, K) -> bool)
      ensures this.leq == leq && View() == Emptied()
    {
      this.leq := leq;
      byHash, byPriority, bySender, bySenderSeq, inFlight := map[], multiset{}, map[], map[], {};
    }

    function View(): Pool<K, P>
      reads this
    {
      Pool(byHash, byPriority, bySender, bySenderSeq, inFlight)
    }

    method Add(tx: PoolTx<K, P>) returns (r: Result<Hash>)
      modifies this
      ensures Step(leq, old(View()), Op.Add(tx), View())
      ensures r == if tx.id in old(byHash) then Err(AlreadyExists) else Ok(tx.id)
    {
      if tx.id in byHash {
        return Err(AlreadyExists);
      }
      byHash := byHash[tx.id := tx];
      byPriority := byPriority + multiset{Entry(tx.id, tx.key)};
      if tx.sender.Some? {
        var sender := tx.sender.value;
        var number := NextSenderSequence(sender);
        var listed: map<nat, Hash> := if sender in bySender then bySender[sender] else map[];
        bySender := bySender[sender := listed[number := tx.id]];
      }
      return Ok(tx.id);
    }

    method NextSenderSequence(sender: SenderKey) returns (current: nat)
      modifies this`bySenderSeq
      ensures current == NextNumber(old(View()), sender)
      ensures bySenderSeq == old(bySenderSeq)[sender := current + 1]
    {
      current := if sender in bySenderSeq then bySenderSeq[sender] else 0;
      bySenderSeq := bySenderSeq[sender := current + 1];
    }

    method Remove(hash: Hash) returns (r: Option<PoolTx<K, P>>)
      modifies this
      ensures Step(leq, old(View()), Op.Remove(hash), View())
      ensures r == if hash in old(byHash) then Some(old(byHash)[hash]) else None
    {
      if hash !in byHash {
        return None;
      }
      var tx := byHash[hash];
      byHash := byHash - {hash};
      if tx.sender.Some? && tx.sender.value in bySender {
        var sender := tx.sender.value;
        var kept := Retained(bySender[sender], hash);
        if kept == map[] {
          bySender := bySender - {sender};
          bySenderSeq := bySenderSeq - {sender};
        } else {
          bySender := bySender[sender := kept];
        }
      }
      return Some(tx);
    }

    method RemoveMany(hashes: seq<Hash>)
      modifies this
      ensures Step(leq, old(View()), Op.RemoveMany(hashes), View())
    {
      for i := 0 to |hashes|
        invariant RemovedAll(old(View()), hashes) == RemovedAll(View(), hashes[i..])
      {
        assert hashes[i..][1..] == hashes[i + 1..];
        var _ := Remove(hashes[i]);
      }
    }

    /** The library heap: takes an entry with a greatest key. */
    method Pop() returns (r: Option<Entry<K>>)
      requires TotalOrder(leq)
      modifies this`byPriority
      ensures r.None? ==> old(byPriority) == multiset{} && byPriority == multiset{}
      ensures r.Some? ==> Top(leq, old(byPriority), r.value) && byPriority == old(byPriority) - multiset{r.value}
    {
      if byPriority == multiset{} {
        return None;
      }
      TopExists(leq, byPriority);
      var e :| e in byPriority && forall f :: f in byPriority ==> leq(f.key, e.key);
      byPriority := byPriority - multiset{e};
      return Some(e);
    }

    /** Puts entries back into the queue. */
    method Push(entries: seq<Entry<K>>)
      modifies this`byPriority
      ensures byPriority == old(byPriority) + multiset(entries)
    {
      for i := 0 to |entries|
        invariant byPriority == old(byPriority) + multiset(entries[..i])
      {
        assert entries[..i + 1] == entries[..i] + [entries[i]];
        byPriority := byPriority + multiset{entries[i]};
      }
      assert entries[..|entries|] == entries;
    }

    /** One turn of the selection loop: `more` is false when the queue is empty. */
    method SelectNext(maxGas: U64, maxTxs: nat, selected: seq<PoolTx<K, P>>, total: U64, skipped: seq<Entry<K>>,
                      ghost p: Pool<K, P>, ghost chosen: seq<Entry<K>>)
      returns (more: bool, selected': seq<PoolTx<K, P>>, total': U64, skipped': seq<Entry<K>>, ghost chosen': seq<Entry<K>>)
      requires TotalOrder(leq) && View() == p.(heap := byPriority) && |selected| == |chosen|
      requires maxTxs == 0 || |selected| < maxTxs
      requires Selecting(leq, p, maxGas, maxTxs, chosen, skipped, total, byPriority) && selected == TxsOf(p, chosen)
      modifies this`byPriority
      ensures Selecting(leq, p, maxGas, maxTxs, chosen', skipped', total', byPriority) && selected' == TxsOf(p, chosen')
      ensures if more then |byPriority| < |old(byPriority)| else byPriority == multiset{}
    {
      more, selected', total', skipped', chosen' := true, selected, total, skipped, chosen;
      ghost var heap := byPriority;
      var popped := Pop();
      if popped.None? {
        more := false;
        return;
      }
      var entry := popped.value;
      if entry.hash !in byHash {
        SelectingSkips(leq, p, maxGas, maxTxs, chosen, skipped, total, heap, entry);
        return;
      }
      var tx := byHash[entry.hash];
      if maxGas == 0 || SatAdd(total, tx.gasLimit) <= maxGas {
        SelectingTakes(leq, p, maxGas, maxTxs, chosen, skipped, total, heap, entry);
        TxsOfGrows(p, chosen, entry);
        total' := SatAdd(total, tx.gasLimit);
        selected', chosen' := selected + [tx], chosen + [entry];
      } else {
        SelectingSkips(leq, p, maxGas, maxTxs, chosen, skipped, total, heap, entry);
        skipped' := skipped + [entry];
      }
    }

    method SelectWithGasBudget(maxGas: U64, maxTxs: nat)
      returns (selected: seq<PoolTx<K, P>>, total: U64, ghost chosen: seq<Entry<K>>)
      requires TotalOrder(leq)
      modifies this`byPriority
      ensures Selects(leq, old(View()), maxGas, maxTxs, chosen, total, View())
      ensures selected == TxsOf(old(View()), chosen)
    {
      ghost var p := View();
      selected, total, chosen := [], 0, [];
      var skipped: seq<Entry<K>> := [];
      var more := true;
      while more && (maxTxs == 0 || |selected| < maxTxs)
        invariant Selecting(leq, p, maxGas, maxTxs, chosen, skipped, total, byPriority)
        invariant selected == TxsOf(p, chosen)
        invariant !more ==> byPriority == multiset{}
        decreases more, |byPriority|
      {
        more, selected, total, skipped, chosen := SelectNext(maxGas, maxTxs, selected, total, skipped, p, chosen);
      }
      SelectingEnds(leq, p, maxGas, maxTxs, chosen, skipped, total, byPriority);
      Push(skipped);
    }

    method MarkInFlight(selected: seq<PoolTx<K, P>>)
      modifies this`inFlight
      ensures inFlight == old(inFlight) + set tx | tx in selected :: tx.id
    {
      for i := 0 to |selected|
        invariant inFlight == old(inFlight) + set tx | tx in selected[..i] :: tx.id
      {
        assert selected[..i + 1] == selected[..i] + [selected[i]];
        inFlight := inFlight + {selected[i].id};
      }
      assert selected[..|selected|] == selected;
    }

    method Propose(maxGas: U64, maxTxs: nat)
      returns (selected: seq<PoolTx<K, P>>, total: U64, ghost chosen: seq<Entry<K>>)
      requires TotalOrder(leq) && NoneLost(View())
      modifies this`byPriority, this`inFlight
      ensures Step(leq, old(View()), Op.Propose(maxGas, maxTxs, chosen, total), View())
      ensures selected == TxsOf(old(View()), chosen)
    {
      selected, total, chosen := SelectWithGasBudget(maxGas, maxTxs);
      IdsOf(old(View()), chosen);
      MarkInFlight(selected);
    }

    /** Queues the remaining transactions in flight again. */
    method Drain()
      modifies this`byPriority, this`inFlight
      ensures inFlight == {} && byPriority == old(byPriority) + Requeued(byHash, old(inFlight))
    {
      while inFlight != {}
        invariant inFlight <= old(inFlight)
        invariant forall e: Entry<K> :: byPriority[e] == old(byPriority)[e] + Copies(byHash, old(inFlight) - inFlight, e)
        decreases inFlight
      {
        var hash :| hash in inFlight;
        inFlight := inFlight - {hash};
        if hash in byHash {
          byPriority := byPriority + multiset{Entry(hash, byHash[hash].key)};
        }
      }
      RequeuedCopies(byHash, old(inFlight), old(byPriority), byPriority);
    }

    method Finalize(executed: seq<Hash>)
      modifies this
      ensures Step(leq, old(View()), Op.Finalize(executed), View())
    {
      RemovedAllFacts(View(), executed);
      RemoveMany(executed);
      for i := 0 to |executed|
        invariant View() == RemovedAll(old(View()), executed).(inFlight := inFlight)
        invariant inFlight == old(inFlight) - set h | h in executed[..i]
      {
        assert executed[..i + 1] == executed[..i] + [executed[i]];
        inFlight := inFlight - {executed[i]};
      }
      assert executed[..|executed|] == executed;
      Drain();
    }

    method GetSenderTxs(sender: SenderKey) returns (hashes: seq<Hash>)
      ensures hashes == SenderTxs(View(), sender)
      ensures Indexed(View()) ==> Distinct(hashes)
      ensures Indexed(View()) ==> forall h :: h in hashes <==> h in byHash && byHash[h].sender == Some(sender)
    {
      if Indexed(View()) {
        SenderTxsExact(View(), sender);
      }
      if sender in bySender {
        return InOrder(bySender[sender]);
      }
      return [];
    }

    method Clear()
      modifies this
      ensures Step(leq, old(View()), Op.Clear, View())
    {
      byHash, byPriority, bySender, bySenderSeq, inFlight := map[], multiset{}, map[], map[], {};
    }
  }

  lemma IdsOf<K(!new), P(!new)>(p: Pool<K, P>, chosen: seq<Entry<K>>)
    requires NoneLost(p) && forall e :: e in chosen ==> e.hash in p.byHash
    ensures (set tx | tx in TxsOf(p, chosen) :: tx.id) == HashesOf(chosen)
  {
    var txs := TxsOf(p, chosen);
    forall h | h in HashesOf(chosen) ensures h in set tx | tx in txs :: tx.id {
      var e :| e in chosen && e.hash == h;
      var i :| 0 <= i < |chosen| && chosen[i] == e;
      assert txs[i] in txs;
    }
  }

  lemma {:induction false} TopExists<K(!new)>(leq: (K, K) -> bool, heap: multiset<Entry<K>>)
    requires TotalOrder(leq) && heap != multiset{}
    ensures exists e :: Top(leq, heap, e)
    decreases |heap|
  {
    var e :| e in heap;
    var rest := heap - multiset{e};
    assert leq(e.key, e.key);
    assert forall f :: f in heap ==> f == e || f in rest;
    if rest == multiset{} {
      assert Top(leq, heap, e);
    } else {
      TopExists(leq, rest);
      var g :| Top(leq, rest, g);
      assert Top(leq, heap, if leq(e.key, g.key) then g else e);
    }
  }

  /** How many entries equal to `e` queueing the hashes adds. */
  function Copies<K(==), P>(byHash: map<Hash, PoolTx<K, P>>, hashes: set<Hash>, e: Entry<K>): nat {
    if e.hash in hashes && e.hash in byHash && e.key == byHash[e.hash].key then 1 else 0
  }

  lemma RequeuedCopies<K(!new), P(!new)>(byHash: map<Hash, PoolTx<K, P>>, hashes: set<Hash>, before: multiset<Entry<K>>, after: multiset<Entry<K>>)
    requires forall e: Entry<K> :: after[e] == before[e] + Copies(byHash, hashes, e)
    ensures after == before + Requeued(byHash, hashes)
  {
    forall e: Entry<K> ensures after[e] == (before + Requeued(byHash, hashes))[e] {
      RequeuedFacts(byHash, hashes, e);
    }
  }
}
