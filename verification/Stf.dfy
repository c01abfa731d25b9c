/** The state transition function as the code runs it (crates/app/stf/src/lib.rs). */
module StfMachine {
  import opened Types
  import opened Gas
  import opened ExecState
  import opened Programs
  import opened Invoker
  import opened Blocks
  import Spec = Snapshot

  method BootstrapSenderPhase(inv: Invoker, tx: Tx, sender: AccountId, b: BlockContext, ghost s: Spec.Snap)
    returns (r: Reply)
    requires inv.Ready(s)
    modifies inv.storage, inv.gas
    ensures var o := BootstrapSender(inv.w, tx, sender, b, s, old(inv.gas.meter));
            r == o.reply && Agrees(inv.storage.View(), o.snap) && inv.gas.meter == o.meter
  {
    match tx.bootstrap {
      case None => return Ok(Empty);
      case Some(boot) =>
        ghost var t := Spec.RegisterAt(inv.w, BeginCtx(b), sender, boot.codeId, boot.init, s, inv.gas.meter);
        r := inv.RegisterAccountAtId(BeginCtx(b), sender, boot.codeId, boot.init, s);
        if r.Ok? {
          r := inv.Run(BeginCtx(b), tx.afterBootstrap(sender, BeginCtx(b).View()), t.snap);
          if r.Ok? {
            var _ := inv.storage.PopEvents();
          }
        }
    }
  }

  /** Sender resolution, bootstrap and validation. */
  method PreparePhases(stf: Stf, inv: Invoker, tx: Tx, b: BlockContext, ghost s: Spec.Snap) returns (r: Reply)
    requires inv.Ready(s)
    modifies inv.storage, inv.gas
    ensures var o := Prepare(stf, inv.w, tx, b, s, old(inv.gas.meter));
            r == o.reply && Agrees(inv.storage.View(), o.snap) && inv.gas.meter == o.meter
  {
    ghost var m := inv.gas.meter;
    r := inv.Run(BeginCtx(b), tx.resolveSender(BeginCtx(b).View()), s);
    if r.Err? {
      return;
    }
    var sender := AccountOf(r.value);
    ghost var o1 := Spec.Run(inv.w, BeginCtx(b), tx.resolveSender(BeginCtx(b).View()), [], s, m);
    r := BootstrapSenderPhase(inv, tx, sender, b, o1.snap);
    if r.Err? {
      return;
    }
    ghost var o2 := BootstrapSender(inv.w, tx, sender, b, o1.snap, o1.meter);
    var x := ValidateCtx(tx, b);
    r := inv.Run(x, stf.validate(tx, x.View()), o2.snap);
    if r.Ok? {
      r := Ok(Account(sender));
    }
  }

  method ExecuteTxPhase(stf: Stf, inv: Invoker, tx: Tx, sender: AccountId, b: BlockContext, ghost s: Spec.Snap)
    returns (r: Reply)
    requires inv.Ready(s)
    modifies inv.storage, inv.gas
    ensures var o := Execute(stf, inv.w, tx, sender, b, s, old(inv.gas.meter));
            r == o.reply && Agrees(inv.storage.View(), o.snap) && inv.gas.meter == o.meter
  {
    ghost var m := inv.gas.meter;
    var x := ExecCtx(tx, sender, b);
    r := inv.Run(x, tx.resolveRecipient(x.View()), s);
    if r.Err? {
      return;
    }
    var recipient := AccountOf(r.value);
    ghost var o1 := Spec.Run(inv.w, x, tx.resolveRecipient(x.View()), [], s, m);
    r := inv.DoExec(x, recipient, tx.request, tx.funds, o1.snap);
    ghost var o2 := Spec.DoExec(inv.w, x, recipient, tx.request, tx.funds, o1.snap, o1.meter);
    var post := inv.Run(x, stf.postTx(tx, inv.gas.meter.Used(), r, x.View()), o2.snap);
    if post.Err? {
      r := post;
    }
  }

  method ApplyTx(stf: Stf, w: World, tx: Tx, b: BlockContext, storage: ExecutionState, ghost s: Spec.Snap)
    returns (result: TxResult)
    requires storage.base == w.base && Agrees(storage.View(), s)
    modifies storage
    ensures var o := Blocks.ApplyTx(stf, w, tx, b, s);
            result == o.result && Agrees(storage.View(), o.snap)
  {
    var gas := new GasCounter(Finite(tx.gasLimit, 0, stf.gasConfig));
    var inv := new Invoker(w, storage, gas);
    var r := PreparePhases(stf, inv, tx, b, s);
    if r.Ok? {
      ghost var o := Prepare(stf, w, tx, b, s, TxMeter(stf, tx));
      r := ExecuteTxPhase(stf, inv, tx, AccountOf(r.value), b, o.snap);
    }
    var events := storage.PopEvents();
    result := TxResult(events, gas.meter.Used(), r);
  }

  ghost predicate Executes(run: Executor, stf: Stf, w: World, b: BlockContext) {
    forall tx, s {:trigger Blocks.ApplyTx(stf, w, tx, b, s)} :: run(tx, s) == Blocks.ApplyTx(stf, w, tx, b, s)
  }

  method ApplyNext(stf: Stf, w: World, tx: Tx, b: BlockContext, storage: ExecutionState, ghost run: Executor, ghost s: Spec.Snap)
    returns (result: TxResult)
    requires storage.base == w.base && Agrees(storage.View(), s) && Executes(run, stf, w, b)
    modifies storage
    ensures result == run(tx, s).result && Agrees(storage.View(), run(tx, s).snap)
  {
    assert run(tx, s) == Blocks.ApplyTx(stf, w, tx, b, s);
    result := ApplyTx(stf, w, tx, b, storage, s);
  }

  /** The transaction loop of `apply_block`. */
  method ApplyTxs(stf: Stf, w: World, block: Block, state: ExecutionState, ghost run: Executor, ghost start: Progress)
    returns (txResults: seq<TxResult>, cumulative: U64, skipped: nat)
    requires state.base == w.base && Agrees(state.View(), start.snap) && Executes(run, stf, w, block.context)
    requires start.cumulative == 0 && start.skipped == 0 && start.results == [] && start.executed == []
    modifies state
    ensures var z := TxLoop(run, block, 0, start);
            && txResults == z.results && cumulative == z.cumulative && skipped == z.skipped
            && Agrees(state.View(), z.snap)
  {
    hide Agrees, TxLoop, Executes;
    ghost var now := start;
    txResults, cumulative, skipped := [], 0, 0;
    for i := 0 to |block.txs|
      invariant |txResults| <= i
      invariant Agrees(state.View(), now.snap)
      invariant now.cumulative == cumulative && now.skipped == skipped && now.results == txResults
      invariant TxLoop(run, block, i, now) == TxLoop(run, block, 0, start)
    {
      LoopStep(run, block, i, now);
      if SatAdd(cumulative, block.txs[i].gasLimit) > block.gasLimit {
        skipped := skipped + 1;
        now := Skip(now);
        continue;
      }
      var r := ApplyNext(stf, w, block.txs[i], block.context, state, run, now.snap);
      cumulative := SatAdd(cumulative, r.gasUsed);
      txResults := txResults + [r];
      now := Advance(run, block, i, now);
      if cumulative >= block.gasLimit {
        skipped := skipped + (|block.txs| - |txResults|);
        return;
      }
    }
    LoopDone(run, block, now);
  }

  /** The transaction loop of `apply_block_with_metrics`. */
  method ApplyTxsWithMetrics(stf: Stf, w: World, block: Block, state: ExecutionState, ghost run: Executor, ghost start: Progress)
    returns (txResults: seq<TxResult>, cumulative: U64, skipped: nat, metrics: seq<TxMetrics>)
    requires state.base == w.base && Agrees(state.View(), start.snap) && Executes(run, stf, w, block.context)
    requires start.cumulative == 0 && start.skipped == 0 && start.results == [] && start.executed == []
    modifies state
    ensures var z := TxLoop(run, block, 0, start);
            && txResults == z.results && cumulative == z.cumulative && skipped == z.skipped
            && Agrees(state.View(), z.snap)
            && MetricsOf(z, metrics)
  {
    hide Agrees, MetricsOf, TxLoop, Executes;
    NoMetrics(start);
    ghost var now := start;
    txResults, cumulative, skipped, metrics := [], 0, 0, [];
    for i := 0 to |block.txs|
      invariant |txResults| <= i
      invariant Agrees(state.View(), now.snap)
      invariant now.cumulative == cumulative && now.skipped == skipped && now.results == txResults
      invariant MetricsOf(now, metrics)
      invariant TxLoop(run, block, i, now) == TxLoop(run, block, 0, start)
    {
      LoopStep(run, block, i, now);
      if SatAdd(cumulative, block.txs[i].gasLimit) > block.gasLimit {
        skipped := skipped + 1;
        SkipMetrics(now, metrics);
        now := Skip(now);
        continue;
      }
      var r := ApplyNext(stf, w, block.txs[i], block.context, state, run, now.snap);
      AdvanceMetrics(run, block, i, now, metrics);
      metrics := metrics + [TxMetrics(i, r.gasUsed)];
      cumulative := SatAdd(cumulative, r.gasUsed);
      txResults := txResults + [r];
      now := Advance(run, block, i, now);
      if cumulative >= block.gasLimit {
        skipped := skipped + (|block.txs| - |txResults|);
        return;
      }
    }
    LoopDone(run, block, now);
  }

  /** One turn of the loop. */
  lemma LoopStep(run: Executor, block: Block, i: nat, a: Progress)
    requires i < |block.txs|
    ensures var next := Advance(run, block, i, a);
            TxLoop(run, block, i, a) ==
            if Oversized(block, i, a) then TxLoop(run, block, i + 1, Skip(a))
            else if next.cumulative >= block.gasLimit then next.(skipped := next.skipped + Remaining(block, next))
            else TxLoop(run, block, i + 1, next)
  {
  }

  lemma LoopDone(run: Executor, block: Block, a: Progress)
    ensures TxLoop(run, block, |block.txs|, a) == a
  {
  }

  datatype TxMetrics = TxMetrics(index: nat, gasUsed: U64)

  /** One entry for each executed transaction, naming it and its gas. */
  ghost predicate MetricsOf(a: Progress, metrics: seq<TxMetrics>) {
    && |metrics| == |a.executed| == |a.results|
    && forall j :: 0 <= j < |metrics| ==> metrics[j] == TxMetrics(a.executed[j], a.results[j].gasUsed)
  }

  lemma NoMetrics(a: Progress)
    requires a.results == [] && a.executed == []
    ensures MetricsOf(a, [])
  {
  }

  lemma SkipMetrics(a: Progress, metrics: seq<TxMetrics>)
    requires MetricsOf(a, metrics)
    ensures forall k: nat :: MetricsOf(a.(skipped := k), metrics)
  {
  }

  lemma AdvanceMetrics(run: Executor, block: Block, i: nat, a: Progress, metrics: seq<TxMetrics>)
    requires i < |block.txs| && MetricsOf(a, metrics)
    ensures var next := Advance(run, block, i, a);
            forall k: nat :: MetricsOf(next.(skipped := k), metrics + [TxMetrics(i, run(block.txs[i], a.snap).result.gasUsed)])
  {
  }

  method ApplyBlockWithMetrics(stf: Stf, w: World, block: Block)
    returns (result: BlockResult, state: ExecutionState, metrics: seq<TxMetrics>)
    ensures result == BlockOutcome(stf, w, block, Fresh())
    ensures fresh(state) && state.base == w.base && Agrees(state.View(), FinalSnap(stf, w, block, Fresh()))
    ensures MetricsOf(Looped(stf, w, block, Fresh()), metrics)
  {
    state := new ExecutionState(w.base);
    var beginEvents := RunHook(w, state, BeginCtx(block.context), stf.beginBlock(block), Fresh());
    var txResults, cumulative, skipped;
    txResults, cumulative, skipped, metrics :=
      ApplyTxsWithMetrics(stf, w, block, state, TxExecutor(stf, w, block.context), Start(stf, w, block, Fresh()));
    var endEvents := RunHook(w, state, EndCtx(block.context), stf.endBlock(block.context), Looped(stf, w, block, Fresh()).snap);
    result := BlockResult(beginEvents, txResults, endEvents, cumulative, skipped);
  }

  /** `do_begin_block` and `do_end_block`: an unmetered program whose events are taken. */
  method RunHook(w: World, state: ExecutionState, x: Ctx, p: Program, ghost s: Spec.Snap) returns (events: seq<Event>)
    requires state.base == w.base && Agrees(state.View(), s) && x.depth == 0
    modifies state
    ensures var o := Spec.Run(w, x, p, [], s, Infinite);
            events == o.snap.events && Agrees(state.View(), o.snap.(events := []))
  {
    var unmetered := new GasCounter(Infinite);
    var inv := new Invoker(w, state, unmetered);
    var _ := inv.Run(x, p, s);
    events := state.PopEvents();
  }

  method ApplyBlock(stf: Stf, w: World, block: Block) returns (result: BlockResult, state: ExecutionState)
    ensures result == BlockOutcome(stf, w, block, Fresh())
    ensures fresh(state) && state.base == w.base && Agrees(state.View(), FinalSnap(stf, w, block, Fresh()))
  {
    state := new ExecutionState(w.base);
    var beginEvents := RunHook(w, state, BeginCtx(block.context), stf.beginBlock(block), Fresh());
    var txResults, cumulative, skipped :=
      ApplyTxs(stf, w, block, state, TxExecutor(stf, w, block.context), Start(stf, w, block, Fresh()));
    var endEvents := RunHook(w, state, EndCtx(block.context), stf.endBlock(block.context), Looped(stf, w, block, Fresh()).snap);
    result := BlockResult(beginEvents, txResults, endEvents, cumulative, skipped);
  }
}
