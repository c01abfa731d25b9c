/** Blocks and transactions (crates/app/stf/src/lib.rs). */
module Blocks {
  import opened Types
  import opened Gas
  import opened ExecState
  import opened Programs
  import opened Snapshot

  datatype Bootstrap = Bootstrap(codeId: CodeId, init: Bytes)

  /** A transaction with its hooks, each an arbitrary program. */
  datatype Tx = Tx(
    id: Hash,
    request: Request,
    gasLimit: U64,
    funds: seq<Asset>,
    resolveSender: Env -> Program,
    resolveRecipient: Env -> Program,
    bootstrap: Option<Bootstrap>,
    afterBootstrap: (AccountId, Env) -> Program)

  datatype Block = Block(context: BlockContext, txs: seq<Tx>, gasLimit: U64)

  datatype Stf = Stf(
    beginBlock: Block -> Program,
    endBlock: BlockContext -> Program,
    validate: (Tx, Env) -> Program,
    postTx: (Tx, U64, Reply, Env) -> Program,
    gasConfig: StorageGasConfig)

  datatype TxResult = TxResult(events: seq<Event>, gasUsed: U64, response: Reply)

  datatype BlockResult = BlockResult(
    beginEvents: seq<Event>,
    txResults: seq<TxResult>,
    endEvents: seq<Event>,
    gasUsed: U64,
    txsSkipped: nat)

  function BeginCtx(b: BlockContext): Ctx {
    Ctx(RuntimeAccount(), InvalidAccount(), [], BeginBlock(b.height), 0, b)
  }

  function EndCtx(b: BlockContext): Ctx {
    BeginCtx(b).(scope := EndBlock(b.height))
  }

  function ValidateCtx(tx: Tx, b: BlockContext): Ctx {
    Ctx(InvalidAccount(), RuntimeAccount(), [], Transaction(tx.id), 0, b)
  }

  /** `into_new_exec` */
  function ExecCtx(tx: Tx, sender: AccountId, b: BlockContext): Ctx {
    ValidateCtx(tx, b).(whoami := sender, sender := InvalidAccount())
  }

  function AccountOf(r: Response): AccountId {
    if r.Account? then r.id else InvalidAccount()
  }

  // ---------------------------------------------------------------------------------------
  // One transaction

  function BootstrapSender(w: World, tx: Tx, sender: AccountId, b: BlockContext, s: Snap, m: Meter): Out {
    match tx.bootstrap
    case None => Out(Ok(Empty), s, m)
    case Some(boot) =>
      var r := RegisterAt(w, BeginCtx(b), sender, boot.codeId, boot.init, s, m);
      if r.reply.Err? then r
      else
        var a := Run(w, BeginCtx(b), tx.afterBootstrap(sender, BeginCtx(b).View()), [], r.snap, r.meter);
        if a.reply.Err? then a else a.(snap := a.snap.(events := []))
  }

  function Admit(stf: Stf, w: World, tx: Tx, sender: AccountId, b: BlockContext, s: Snap, m: Meter): Out {
    var boot := BootstrapSender(w, tx, sender, b, s, m);
    if boot.reply.Err? then boot
    else
      var x := ValidateCtx(tx, b);
      var v := Run(w, x, stf.validate(tx, x.View()), [], boot.snap, boot.meter);
      if v.reply.Err? then v else v.(reply := Ok(Account(sender)))
  }

  /** Sender resolution, bootstrap and validation; nothing here is rolled back. */
  function Prepare(stf: Stf, w: World, tx: Tx, b: BlockContext, s: Snap, m: Meter): Out {
    var r := Run(w, BeginCtx(b), tx.resolveSender(BeginCtx(b).View()), [], s, m);
    if r.reply.Err? then r else Admit(stf, w, tx, AccountOf(r.reply.value), b, r.snap, r.meter)
  }

  /** The call itself and the hook after it, whose failure replaces the response only. */
  function CallAndPost(stf: Stf, w: World, tx: Tx, x: Ctx, to: AccountId, s: Snap, m: Meter): Out
    requires x.depth <= MAX_CALL_DEPTH
  {
    var o := DoExec(w, x, to, tx.request, tx.funds, s, m);
    var post := Run(w, x, stf.postTx(tx, o.meter.Used(), o.reply, x.View()), [], o.snap, o.meter);
    if post.reply.Err? then post else post.(reply := o.reply)
  }

  function Execute(stf: Stf, w: World, tx: Tx, sender: AccountId, b: BlockContext, s: Snap, m: Meter): Out {
    var x := ExecCtx(tx, sender, b);
    var r := Run(w, x, tx.resolveRecipient(x.View()), [], s, m);
    if r.reply.Err? then r else CallAndPost(stf, w, tx, x, AccountOf(r.reply.value), r.snap, r.meter)
  }

  datatype TxOut = TxOut(result: TxResult, snap: Snap)

  function Finish(o: Out): TxOut {
    TxOut(TxResult(o.snap.events, o.meter.Used(), o.reply), o.snap.(events := []))
  }

  function TxMeter(stf: Stf, tx: Tx): Meter {
    Finite(tx.gasLimit, 0, stf.gasConfig)
  }

  function RunTx(stf: Stf, w: World, tx: Tx, b: BlockContext, s: Snap): Out {
    var p := Prepare(stf, w, tx, b, s, TxMeter(stf, tx));
    if p.reply.Err? then p else Execute(stf, w, tx, AccountOf(p.reply.value), b, p.snap, p.meter)
  }

  function ApplyTx(stf: Stf, w: World, tx: Tx, b: BlockContext, s: Snap): TxOut {
    Finish(RunTx(stf, w, tx, b, s))
  }

  /** How a block applies one of its transactions. */
  type Executor = (Tx, Snap) -> TxOut

  function TxExecutor(stf: Stf, w: World, b: BlockContext): Executor {
    (tx: Tx, s: Snap) => ApplyTx(stf, w, tx, b, s)
  }

  // ---------------------------------------------------------------------------------------
  // The block loop.  `executed` names the transactions behind the results.

  datatype Progress = Progress(cumulative: U64, skipped: nat, results: seq<TxResult>, executed: seq<nat>, snap: Snap)

  function Skip(a: Progress): Progress {
    a.(skipped := a.skipped + 1)
  }

  function Advance(run: Executor, block: Block, i: nat, a: Progress): Progress
    requires i < |block.txs|
  {
    var r := run(block.txs[i], a.snap);
    Progress(SatAdd(a.cumulative, r.result.gasUsed), a.skipped, a.results + [r.result], a.executed + [i], r.snap)
  }

  predicate Oversized(block: Block, i: nat, a: Progress)
    requires i < |block.txs|
  {
    SatAdd(a.cumulative, block.txs[i].gasLimit) > block.gasLimit
  }

  function TxLoop(run: Executor, block: Block, i: nat, a: Progress): Progress
    requires i <= |block.txs|
    decreases |block.txs| - i
  {
    if i == |block.txs| then a
    else if Oversized(block, i, a) then TxLoop(run, block, i + 1, Skip(a))
    else
      var next := Advance(run, block, i, a);
      if next.cumulative >= block.gasLimit then
        next.(skipped := next.skipped + Remaining(block, next))
      else TxLoop(run, block, i + 1, next)
  }

  /** What the loop adds to the skip count when it stops early. */
  function Remaining(block: Block, a: Progress): nat {
    if |a.results| <= |block.txs| then |block.txs| - |a.results| else 0
  }

  /** The state a block starts from. */
  function Fresh(): Snap {
    Snap(map[], [], 0, [], false)
  }

  // A block run from a state `s`; `apply_block` starts from `Fresh()`.

  function Begun(stf: Stf, w: World, block: Block, s: Snap): Out {
    Run(w, BeginCtx(block.context), stf.beginBlock(block), [], s, Infinite)
  }

  function Start(stf: Stf, w: World, block: Block, s: Snap): Progress {
    Progress(0, 0, [], [], Begun(stf, w, block, s).snap.(events := []))
  }

  function Looped(stf: Stf, w: World, block: Block, s: Snap): Progress {
    TxLoop(TxExecutor(stf, w, block.context), block, 0, Start(stf, w, block, s))
  }

  function Ended(stf: Stf, w: World, block: Block, s: Snap): Out {
    Run(w, EndCtx(block.context), stf.endBlock(block.context), [], Looped(stf, w, block, s).snap, Infinite)
  }

  function BlockOutcome(stf: Stf, w: World, block: Block, s: Snap): BlockResult {
    var a := Looped(stf, w, block, s);
    BlockResult(Begun(stf, w, block, s).snap.events, a.results, Ended(stf, w, block, s).snap.events, a.cumulative, a.skipped)
  }

  function FinalSnap(stf: Stf, w: World, block: Block, s: Snap): Snap {
    Ended(stf, w, block, s).snap.(events := [])
  }
}
