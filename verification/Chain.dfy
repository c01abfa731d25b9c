/**
 * Committing between blocks changes nothing: a chain of blocks, each run on the storage the blocks
 * before it left, gives the results of one long run that never commits.
 */
module Chain {
  import opened Types
  import opened Gas
  import opened ExecState
  import opened Programs
  import opened Snapshot
  import opened CallInduction
  import opened Replay
  import opened Blocks
  import opened BlockLaws
  import opened Commit

  lemma FillsAllowsPop(w: World)
    ensures Closed(w, Fills()) && AllowsPop(Fills())
  {
    FillsIsClosed(w);
  }

  // ---------------------------------------------------------------------------------------
  // Transactions

  lemma BootstrapAlike(w: World, s: Snap, v: World, t: Snap, tx: Tx, sender: AccountId, b: BlockContext, m: Meter)
    requires SameWorld(w, v) && Alike(w.base, s, v.base, t)
    ensures SameOut(w.base, BootstrapSender(w, tx, sender, b, s, m), v.base, BootstrapSender(v, tx, sender, b, t, m))
  {
    hide RegisterAt, Run;
    if tx.bootstrap.Some? {
      var boot := tx.bootstrap.value;
      var o, q := RegisterAt(w, BeginCtx(b), sender, boot.codeId, boot.init, s, m), RegisterAt(v, BeginCtx(b), sender, boot.codeId, boot.init, t, m);
      RegisterAtAlike(w, s, v, t, BeginCtx(b), sender, boot.codeId, boot.init, m);
      ThenRunAlike(w, o, v, q, BeginCtx(b), tx.afterBootstrap(sender, BeginCtx(b).View()));
    }
  }

  /** Two outcomes that agree still agree after the same program. */
  lemma ThenRunAlike(w: World, o: Out, v: World, q: Out, x: Ctx, p: Program)
    requires SameWorld(w, v) && SameOut(w.base, o, v.base, q) && x.depth <= MAX_CALL_DEPTH
    ensures SameOut(w.base, Run(w, x, p, [], o.snap, o.meter), v.base, Run(v, x, p, [], q.snap, q.meter))
    ensures q.snap.full ==> Run(v, x, p, [], q.snap, q.meter).snap.full
  {
    FillsIsClosed(v);
    RunIn(Fills(), v, x, p, [], q.snap, q.meter);
    if !q.snap.full {
      RunAlike(w, o.snap, v, q.snap, x, p, [], o.meter);
    }
  }

  lemma AdmitAlike(stf: Stf, w: World, s: Snap, v: World, t: Snap, tx: Tx, sender: AccountId, b: BlockContext, m: Meter)
    requires SameWorld(w, v) && Alike(w.base, s, v.base, t)
    ensures SameOut(w.base, Admit(stf, w, tx, sender, b, s, m), v.base, Admit(stf, v, tx, sender, b, t, m))
  {
    var o, q := BootstrapSender(w, tx, sender, b, s, m), BootstrapSender(v, tx, sender, b, t, m);
    BootstrapAlike(w, s, v, t, tx, sender, b, m);
    var x := ValidateCtx(tx, b);
    ThenRunAlike(w, o, v, q, x, stf.validate(tx, x.View()));
  }

  lemma PrepareAlike(stf: Stf, w: World, s: Snap, v: World, t: Snap, tx: Tx, b: BlockContext, m: Meter)
    requires SameWorld(w, v) && Alike(w.base, s, v.base, t)
    ensures SameOut(w.base, Prepare(stf, w, tx, b, s, m), v.base, Prepare(stf, v, tx, b, t, m))
  {
    var o, q := Run(w, BeginCtx(b), tx.resolveSender(BeginCtx(b).View()), [], s, m), Run(v, BeginCtx(b), tx.resolveSender(BeginCtx(b).View()), [], t, m);
    RunAlike(w, s, v, t, BeginCtx(b), tx.resolveSender(BeginCtx(b).View()), [], m);
    FillsAllowsPop(v);
    if q.reply.Ok? {
      AdmitIn(Fills(), stf, v, tx, AccountOf(q.reply.value), b, q.snap, q.meter);
    }
    if o.reply.Ok? && !q.snap.full {
      AdmitAlike(stf, w, o.snap, v, q.snap, tx, AccountOf(o.reply.value), b, o.meter);
    }
  }

  lemma CallAndPostAlike(stf: Stf, w: World, s: Snap, v: World, t: Snap, tx: Tx, x: Ctx, to: AccountId, m: Meter)
    requires SameWorld(w, v) && Alike(w.base, s, v.base, t) && x.depth <= MAX_CALL_DEPTH
    ensures SameOut(w.base, CallAndPost(stf, w, tx, x, to, s, m), v.base, CallAndPost(stf, v, tx, x, to, t, m))
  {
    var o, q := DoExec(w, x, to, tx.request, tx.funds, s, m), DoExec(v, x, to, tx.request, tx.funds, t, m);
    DoExecAlike(w, s, v, t, x, to, tx.request, tx.funds, m);
    ThenRunAlike(w, o, v, q, x, stf.postTx(tx, o.meter.Used(), o.reply, x.View()));
    ThenRunAlike(w, o, v, q, x, stf.postTx(tx, q.meter.Used(), q.reply, x.View()));
  }

  lemma ExecuteAlike(stf: Stf, w: World, s: Snap, v: World, t: Snap, tx: Tx, sender: AccountId, b: BlockContext, m: Meter)
    requires SameWorld(w, v) && Alike(w.base, s, v.base, t)
    ensures SameOut(w.base, Execute(stf, w, tx, sender, b, s, m), v.base, Execute(stf, v, tx, sender, b, t, m))
  {
    var x := ExecCtx(tx, sender, b);
    var o, q := Run(w, x, tx.resolveRecipient(x.View()), [], s, m), Run(v, x, tx.resolveRecipient(x.View()), [], t, m);
    RunAlike(w, s, v, t, x, tx.resolveRecipient(x.View()), [], m);
    FillsIsClosed(v);
    if q.reply.Ok? {
      CallAndPostIn(Fills(), stf, v, tx, x, AccountOf(q.reply.value), q.snap, q.meter);
    }
    if o.reply.Ok? && !q.snap.full {
      CallAndPostAlike(stf, w, o.snap, v, q.snap, tx, x, AccountOf(o.reply.value), o.meter);
    }
  }

  lemma RunTxAlike(stf: Stf, w: World, s: Snap, v: World, t: Snap, tx: Tx, b: BlockContext)
    requires SameWorld(w, v) && Alike(w.base, s, v.base, t)
    ensures SameOut(w.base, RunTx(stf, w, tx, b, s), v.base, RunTx(stf, v, tx, b, t))
  {
    var m := TxMeter(stf, tx);
    var o, q := Prepare(stf, w, tx, b, s, m), Prepare(stf, v, tx, b, t, m);
    PrepareAlike(stf, w, s, v, t, tx, b, m);
    FillsIsClosed(v);
    if q.reply.Ok? {
      ExecuteIn(Fills(), stf, v, tx, AccountOf(q.reply.value), b, q.snap, q.meter);
    }
    if o.reply.Ok? && !q.snap.full {
      ExecuteAlike(stf, w, o.snap, v, q.snap, tx, AccountOf(o.reply.value), b, o.meter);
    }
  }

  // ---------------------------------------------------------------------------------------
  // Blocks, for any pair of executors that simulate each other

  type Simulation = (Snap, Snap) -> bool

  ghost function Likeness(b: Base, c: Base): Simulation {
    (s: Snap, t: Snap) => Alike(b, s, c, t)
  }

  ghost predicate SameTx(sim: Simulation, o: TxOut, q: TxOut) {
    q.snap.full || (o.result == q.result && sim(o.snap, q.snap))
  }

  ghost predicate Simulates(sim: Simulation, run: Executor, rerun: Executor) {
    && (forall tx, s, t :: sim(s, t) ==> SameTx(sim, run(tx, s), rerun(tx, t)))
    && (forall tx, s: Snap :: s.full ==> rerun(tx, s).snap.full)
  }

  lemma TxExecutorsSimulate(stf: Stf, w: World, v: World, b: BlockContext)
    requires SameWorld(w, v)
    ensures Simulates(Likeness(w.base, v.base), TxExecutor(stf, w, b), TxExecutor(stf, v, b))
  {
    var sim, run, rerun := Likeness(w.base, v.base), TxExecutor(stf, w, b), TxExecutor(stf, v, b);
    forall tx, s, t | sim(s, t) ensures SameTx(sim, run(tx, s), rerun(tx, t)) {
      RunTxAlike(stf, w, s, v, t, tx, b);
    }
    FillsAllowsPop(v);
    forall tx, s: Snap | s.full ensures rerun(tx, s).snap.full {
      RunTxIn(Fills(), stf, v, tx, b, s);
    }
  }

  ghost predicate SameProgress(sim: Simulation, a: Progress, b: Progress) {
    b.snap.full || (a == b.(snap := a.snap) && sim(a.snap, b.snap))
  }

  lemma {:induction false} LoopFills(run: Executor, block: Block, i: nat, a: Progress)
    requires i <= |block.txs| && a.snap.full && forall tx, s: Snap :: s.full ==> run(tx, s).snap.full
    ensures TxLoop(run, block, i, a).snap.full
    decreases |block.txs| - i
  {
    if i < |block.txs| {
      if Oversized(block, i, a) {
        LoopFills(run, block, i + 1, Skip(a));
      } else if Advance(run, block, i, a).cumulative < block.gasLimit {
        LoopFills(run, block, i + 1, Advance(run, block, i, a));
      }
    }
  }

  lemma AdvanceAlike(sim: Simulation, run: Executor, rerun: Executor, block: Block, i: nat, a: Progress, b: Progress)
    requires Simulates(sim, run, rerun) && i < |block.txs| && a == b.(snap := a.snap) && sim(a.snap, b.snap)
    ensures SameProgress(sim, Advance(run, block, i, a), Advance(rerun, block, i, b))
  {
    assert SameTx(sim, run(block.txs[i], a.snap), rerun(block.txs[i], b.snap));
  }

  lemma {:induction false} LoopAlike(sim: Simulation, run: Executor, rerun: Executor, block: Block, i: nat, a: Progress, b: Progress)
    requires Simulates(sim, run, rerun) && i <= |block.txs| && a == b.(snap := a.snap) && sim(a.snap, b.snap)
    ensures SameProgress(sim, TxLoop(run, block, i, a), TxLoop(rerun, block, i, b))
    decreases |block.txs| - i
  {
    if i < |block.txs| {
      if Oversized(block, i, a) {
        LoopAlike(sim, run, rerun, block, i + 1, Skip(a), Skip(b));
      } else {
        AdvanceAlike(sim, run, rerun, block, i, a, b);
        var c, d := Advance(run, block, i, a), Advance(rerun, block, i, b);
        if d.snap.full {
          LoopFills(rerun, block, i + 1, d);
        } else if c.cumulative < block.gasLimit {
          LoopAlike(sim, run, rerun, block, i + 1, c, d);
        }
      }
    }
  }

  /** A block gives the same result, and leaves states that read alike, or the larger overlay ran full. */
  lemma BlockAlike(stf: Stf, w: World, s: Snap, v: World, t: Snap, block: Block)
    requires SameWorld(w, v) && Alike(w.base, s, v.base, t)
    ensures var p, q := FinalSnap(stf, w, block, s), FinalSnap(stf, v, block, t);
            || q.full
            || (BlockOutcome(stf, w, block, s) == BlockOutcome(stf, v, block, t) && Alike(w.base, p, v.base, q))
  {
    var sim := Likeness(w.base, v.base);
    var o, q := Begun(stf, w, block, s), Begun(stf, v, block, t);
    RunAlike(w, s, v, t, BeginCtx(block.context), stf.beginBlock(block), [], Infinite);
    TxExecutorsSimulate(stf, w, v, block.context);
    var a, b := Looped(stf, w, block, s), Looped(stf, v, block, t);
    if q.snap.full {
      LoopFills(TxExecutor(stf, v, block.context), block, 0, Start(stf, v, block, t));
    } else {
      LoopAlike(sim, TxExecutor(stf, w, block.context), TxExecutor(stf, v, block.context), block, 0,
                Start(stf, w, block, s), Start(stf, v, block, t));
    }
    EndAlike(w, a.snap, v, b.snap, EndCtx(block.context), stf.endBlock(block.context));
  }

  lemma EndAlike(w: World, s: Snap, v: World, t: Snap, x: Ctx, p: Program)
    requires SameWorld(w, v) && x.depth <= MAX_CALL_DEPTH && (t.full || Alike(w.base, s, v.base, t))
    ensures SameOut(w.base, Run(w, x, p, [], s, Infinite), v.base, Run(v, x, p, [], t, Infinite))
    ensures t.full ==> Run(v, x, p, [], t, Infinite).snap.full
  {
    ThenRunAlike(w, Out(Ok(Empty), s, Infinite), v, Out(Ok(Empty), t, Infinite), x, p);
  }

  // ---------------------------------------------------------------------------------------
  // Chains

  function BaseOf(m: Store): Base {
    key => Ok(Get(m, key))
  }

  /** The store after an overlay's changes are committed. */
  function Committed(m: Store, o: Overlay): Store {
    map key | key in m.Keys + o.Keys && (if key in o then o[key].Some? else true) :: if key in o then o[key].value else m[key]
  }

  /** That is what the reference store holds after the batch of the sorted changes. */
  lemma BatchCommits(m: Store, o: Overlay, changes: seq<StateChange>)
    requires StrictlySorted(changes) && Lists(changes, o)
    ensures AppliedAll(m, ToOperations(changes)) == Committed(m, o)
  {
    var n := AppliedAll(m, ToOperations(changes));
    forall key ensures Get(n, key) == Get(Committed(m, o), key) {
      CommitAnswersAsOverlay(m, o, changes, key);
    }
    assert forall key :: key in n <==> Get(n, key).Some?;
    assert forall key :: key in Committed(m, o) <==> Get(Committed(m, o), key).Some?;
  }

  datatype History<S> = History(results: seq<BlockResult>, end: S, full: bool)

  /** The chain: each block starts fresh on the store, and its changes are committed. */
  function Committing(stf: Stf, w: World, m: Store, blocks: seq<Block>): History<Store>
    decreases blocks
  {
    if blocks == [] then History([], m, false)
    else
      var v := w.(base := BaseOf(m));
      var end := FinalSnap(stf, v, blocks[0], Fresh());
      var rest := Committing(stf, w, Committed(m, end.overlay), blocks[1..]);
      History([BlockOutcome(stf, v, blocks[0], Fresh())] + rest.results, rest.end, end.full || rest.full)
  }

  /** One long run: the overlay is carried from block to block over the first store. */
  function Carrying(stf: Stf, w: World, s: Snap, blocks: seq<Block>): History<Snap>
    decreases blocks
  {
    if blocks == [] then History([], s, s.full)
    else
      var start := s.(unique := 0);
      var rest := Carrying(stf, w, FinalSnap(stf, w, blocks[0], start), blocks[1..]);
      History([BlockOutcome(stf, w, blocks[0], start)] + rest.results, rest.end, rest.full)
  }

  lemma {:induction false} CarryingFills(stf: Stf, w: World, s: Snap, blocks: seq<Block>)
    requires s.full
    ensures Carrying(stf, w, s, blocks).full
    decreases blocks
  {
    if blocks != [] {
      BlockFills(stf, w, blocks[0], s.(unique := 0));
      CarryingFills(stf, w, FinalSnap(stf, w, blocks[0], s.(unique := 0)), blocks[1..]);
    }
  }

  lemma BlockFills(stf: Stf, w: World, block: Block, s: Snap)
    requires s.full
    ensures FinalSnap(stf, w, block, s).full
  {
    FillsAllowsPop(w);
    var run := TxExecutor(stf, w, block.context);
    forall tx, u: Snap ensures Fills()(u, Infinite, run(tx, u).snap, Infinite) {
      RunTxIn(Fills(), stf, w, tx, block.context, u);
    }
    BlockIn(Fills(), stf, w, block, s);
  }

  /**
   * Unless the overlay of the long run ran full, the chain with commits in between and the long run
   * without any give the same results, block by block, and end in states that read alike.
   */
  lemma {:induction false} CommitsAreInvisible(stf: Stf, w: World, m: Store, s: Snap, blocks: seq<Block>)
    requires Alike(BaseOf(m), Fresh(), w.base, s.(unique := 0))
    ensures var a, b := Committing(stf, w, m, blocks), Carrying(stf, w, s, blocks);
            b.full || (!a.full && a.results == b.results && ReadsAlike(BaseOf(a.end), map[], w.base, b.end.overlay))
    decreases blocks
  {
    if blocks != [] {
      var v, start := w.(base := BaseOf(m)), s.(unique := 0);
      var p, q := FinalSnap(stf, v, blocks[0], Fresh()), FinalSnap(stf, w, blocks[0], start);
      BlockAlike(stf, v, Fresh(), w, start, blocks[0]);
      if q.full {
        CarryingFills(stf, w, q, blocks[1..]);
      } else {
        CommittedReads(m, p, w.base, q);
        CommitsAreInvisible(stf, w, Committed(m, p.overlay), q, blocks[1..]);
      }
    }
  }

  lemma CommittedReads(m: Store, p: Snap, b: Base, q: Snap)
    requires Alike(BaseOf(m), p, b, q) && p.events == []
    ensures Alike(BaseOf(Committed(m, p.overlay)), Fresh(), b, q.(unique := 0))
  {
    CommitReadsAlike(m, p.overlay, b, q.overlay);
  }

  lemma CommitReadsAlike(m: Store, o: Overlay, b: Base, p: Overlay)
    requires ReadsAlike(BaseOf(m), o, b, p)
    ensures ReadsAlike(BaseOf(Committed(m, o)), map[], b, p)
  {
    var committed := BaseOf(Committed(m, o));
    forall key ensures Lookup(committed, map[], key) == Lookup(b, p, key) {
      assert Lookup(BaseOf(m), o, key) == Lookup(b, p, key);
    }
  }

  // ---------------------------------------------------------------------------------------
  // A full overlay shows

  /** Writes once and emits an event if the write was taken. */
  function Probe(request: Request): Program {
    Strategy((h: seq<Reply>) => if |h| == 0 then Exec(StorageAccount(), request, [])
                                else if |h| == 1 && h[0].Ok? then Emit([], [])
                                else Return(Ok(Empty)), 2)
  }

  ghost predicate Writes(w: World, request: Request, x: Ctx, k: Key) {
    && w.asStorage(request).Put?
    && k == StorageKey(x.whoami, w.asStorage(request).key)
    && |k| <= MAX_KEY_SIZE && |w.asStorage(request).value| <= MAX_VALUE_SIZE
  }

  lemma ProbeWrites(w: World, x: Ctx, request: Request, k: Key, s: Snap)
    requires x.depth < MAX_CALL_DEPTH && Writes(w, request, x, k)
    ensures var o := DoExec(w, x, StorageAccount(), request, [], s, Infinite);
            && o.snap.events == s.events && o.meter == Infinite
            && (o.reply.Ok? <==> k in s.overlay || |s.overlay| < MAX_OVERLAY_ENTRIES)
  {
    SystemAccountsDiffer();
    var to := StorageAccount();
    assert Transfers(w, x, to, [], s, Infinite) == Out(Ok(Empty), s, Infinite);
    assert Dispatch(w, x, to, request, [], s, Infinite) == StorageExec(w, x, request, s, Infinite);
  }

  lemma ProbeShows(w: World, x: Ctx, request: Request, k: Key, s: Snap)
    requires x.depth < MAX_CALL_DEPTH && Writes(w, request, x, k) && s.events == []
    ensures Run(w, x, Probe(request), [], s, Infinite).snap.events == [] <==> k !in s.overlay && |s.overlay| >= MAX_OVERLAY_ENTRIES
  {
    hide DoExec;
    ProbeWrites(w, x, request, k, s);
    var p, o := Probe(request), DoExec(w, x, StorageAccount(), request, [], s, Infinite);
    var e := EmitEvent(x, [], [], o.snap, o.meter);
    assert Run(w, x, p, [], s, Infinite) == Run(w, x, p, [] + [o.reply], o.snap, o.meter);
    assert o.reply.Ok? ==> Run(w, x, p, [o.reply], o.snap, o.meter) == Run(w, x, p, [o.reply] + [e.reply], e.snap, e.meter);
  }

  lemma FirstEvents(stf: Stf, w: World, m: Store, s: Snap, blocks: seq<Block>)
    requires blocks != []
    ensures |Committing(stf, w, m, blocks).results| > 0 && |Carrying(stf, w, s, blocks).results| > 0
    ensures Committing(stf, w, m, blocks).results[0].beginEvents == Begun(stf, w.(base := BaseOf(m)), blocks[0], Fresh()).snap.events
    ensures Carrying(stf, w, s, blocks).results[0].beginEvents == Begun(stf, w, blocks[0], s.(unique := 0)).snap.events
  {
    hide Begun, Looped, Ended, Fresh;
  }

  /** With no room left for one more key the long run refuses a write that the chain takes. */
  lemma FullOverlayShows(stf: Stf, w: World, m: Store, s: Snap, blocks: seq<Block>, request: Request, k: Key)
    requires Alike(BaseOf(m), Fresh(), w.base, s.(unique := 0))
    requires blocks != [] && stf.beginBlock(blocks[0]) == Probe(request) && Writes(w, request, BeginCtx(blocks[0].context), k)
    requires |s.overlay| == MAX_OVERLAY_ENTRIES && k !in s.overlay
    ensures Committing(stf, w, m, blocks).results != Carrying(stf, w, s, blocks).results
  {
    hide Run, Probe, Committing, Carrying, BaseOf;
    var x := BeginCtx(blocks[0].context);
    ProbeShows(w.(base := BaseOf(m)), x, request, k, Fresh());
    ProbeShows(w, x, request, k, s.(unique := 0));
    FirstEvents(stf, w, m, s, blocks);
  }
}
