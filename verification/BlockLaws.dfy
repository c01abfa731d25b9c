/** What holds of every block: gas accounting, which transactions run, skip counts, ids, frame. */
module BlockLaws {
  import opened Types
  import opened Gas
  import opened ExecState
  import opened Programs
  import opened Snapshot
  import opened CallInduction
  import opened CallTree
  import opened Blocks

  // ---------------------------------------------------------------------------------------
  // One transaction

  ghost predicate AllowsPop(rel: Relation) {
    forall s: Snap, m :: rel(s, m, s.(events := []), m)
  }

  lemma BootstrapIn(rel: Relation, w: World, tx: Tx, sender: AccountId, b: BlockContext, s: Snap, m: Meter, bar: Option<AccountId> := None)
    requires Closed(w, rel, bar) && AllowsPop(rel)
    ensures var o := BootstrapSender(w, tx, sender, b, s, m); rel(s, m, o.snap, o.meter)
  {
    hide RegisterAt, Run;
    assert rel(s, m, s, m);
    if tx.bootstrap.Some? {
      var boot := tx.bootstrap.value;
      var r := RegisterAt(w, BeginCtx(b), sender, boot.codeId, boot.init, s, m);
      RegisterAtIn(rel, w, BeginCtx(b), sender, boot.codeId, boot.init, s, m, bar);
      RunIn(rel, w, BeginCtx(b), tx.afterBootstrap(sender, BeginCtx(b).View()), [], r.snap, r.meter, bar);
      var a := Run(w, BeginCtx(b), tx.afterBootstrap(sender, BeginCtx(b).View()), [], r.snap, r.meter);
      assert rel(a.snap, a.meter, a.snap.(events := []), a.meter);
    }
  }

  lemma AdmitIn(rel: Relation, stf: Stf, w: World, tx: Tx, sender: AccountId, b: BlockContext, s: Snap, m: Meter, bar: Option<AccountId> := None)
    requires Closed(w, rel, bar) && AllowsPop(rel)
    requires bar != Some(InvalidAccount())
    ensures var o := Admit(stf, w, tx, sender, b, s, m); rel(s, m, o.snap, o.meter)
  {
    var boot := BootstrapSender(w, tx, sender, b, s, m);
    BootstrapIn(rel, w, tx, sender, b, s, m, bar);
    var x := ValidateCtx(tx, b);
    RunIn(rel, w, x, stf.validate(tx, x.View()), [], boot.snap, boot.meter, bar);
  }

  lemma PrepareIn(rel: Relation, stf: Stf, w: World, tx: Tx, b: BlockContext, s: Snap, m: Meter, bar: Option<AccountId> := None)
    requires Closed(w, rel, bar) && AllowsPop(rel)
    requires bar != Some(InvalidAccount())
    ensures var o := Prepare(stf, w, tx, b, s, m); rel(s, m, o.snap, o.meter)
  {
    var r := Run(w, BeginCtx(b), tx.resolveSender(BeginCtx(b).View()), [], s, m);
    RunIn(rel, w, BeginCtx(b), tx.resolveSender(BeginCtx(b).View()), [], s, m, bar);
    if r.reply.Ok? {
      AdmitIn(rel, stf, w, tx, AccountOf(r.reply.value), b, r.snap, r.meter, bar);
    }
  }

  lemma CallAndPostIn(rel: Relation, stf: Stf, w: World, tx: Tx, x: Ctx, to: AccountId, s: Snap, m: Meter, bar: Option<AccountId> := None)
    requires Closed(w, rel, bar) && x.depth <= MAX_CALL_DEPTH
    requires bar != Some(x.whoami)
    ensures var o := CallAndPost(stf, w, tx, x, to, s, m); rel(s, m, o.snap, o.meter)
  {
    var o := DoExec(w, x, to, tx.request, tx.funds, s, m);
    DoExecIn(rel, w, x, to, tx.request, tx.funds, s, m, bar);
    RunIn(rel, w, x, stf.postTx(tx, o.meter.Used(), o.reply, x.View()), [], o.snap, o.meter, bar);
  }

  lemma ExecuteIn(rel: Relation, stf: Stf, w: World, tx: Tx, sender: AccountId, b: BlockContext, s: Snap, m: Meter, bar: Option<AccountId> := None)
    requires Closed(w, rel, bar)
    requires bar != Some(sender)
    ensures var o := Execute(stf, w, tx, sender, b, s, m); rel(s, m, o.snap, o.meter)
  {
    var x := ExecCtx(tx, sender, b);
    var r := Run(w, x, tx.resolveRecipient(x.View()), [], s, m);
    RunIn(rel, w, x, tx.resolveRecipient(x.View()), [], s, m, bar);
    if r.reply.Ok? {
      CallAndPostIn(rel, stf, w, tx, x, AccountOf(r.reply.value), r.snap, r.meter, bar);
    }
  }

  /** The transaction's sender, as resolved from this state, is the account. */
  ghost predicate SentBy(stf: Stf, w: World, tx: Tx, b: BlockContext, s: Snap, a: AccountId) {
    var r := Run(w, BeginCtx(b), tx.resolveSender(BeginCtx(b).View()), [], s, TxMeter(stf, tx));
    r.reply.Ok? && AccountOf(r.reply.value) == a
  }

  lemma RunTxIn(rel: Relation, stf: Stf, w: World, tx: Tx, b: BlockContext, s: Snap, bar: Option<AccountId> := None)
    requires Closed(w, rel, bar) && AllowsPop(rel)
    requires bar.Some? ==> bar.value != InvalidAccount() && !SentBy(stf, w, tx, b, s, bar.value)
    ensures var o := RunTx(stf, w, tx, b, s); rel(s, TxMeter(stf, tx), o.snap.(events := []), o.meter)
  {
    var p := Prepare(stf, w, tx, b, s, TxMeter(stf, tx));
    PrepareIn(rel, stf, w, tx, b, s, TxMeter(stf, tx), bar);
    if p.reply.Ok? {
      ExecuteIn(rel, stf, w, tx, AccountOf(p.reply.value), b, p.snap, p.meter, bar);
    }
    var o := RunTx(stf, w, tx, b, s);
    assert rel(o.snap, o.meter, o.snap.(events := []), o.meter);
  }

  /** A transaction never uses more gas than its own limit, and its changes are all explained. */
  lemma ApplyTxLaw(stf: Stf, w: World, tx: Tx, b: BlockContext, s: Snap)
    ensures var o := ApplyTx(stf, w, tx, b, s);
            && o.result.gasUsed <= tx.gasLimit
            && Evolves(s, Infinite, o.snap, Infinite)
  {
    EvolutionIsClosed(w);
    EvolutionAllowsPop();
    RunTxIn(Evolution(), stf, w, tx, b, s);
    var o := RunTx(stf, w, tx, b, s);
    Unmetered(s, TxMeter(stf, tx), o.snap.(events := []), o.meter);
  }

  lemma EvolutionAllowsPop()
    ensures AllowsPop(Evolution())
  {
    forall s: Snap, m ensures Evolution()(s, m, s.(events := []), m) {
      EvolvesBy([], s, m, s.(events := []), m);
    }
  }

  lemma Unmetered(s: Snap, m: Meter, t: Snap, n: Meter)
    requires Evolves(s, m, t, n)
    ensures Evolves(s, Infinite, t, Infinite)
    ensures m.WithinLimit() ==> n.WithinLimit() && (m.Finite? ==> n.Finite? && n.limit == m.limit)
  {
  }

  // ---------------------------------------------------------------------------------------
  // The loop, for any executor that keeps each transaction within its own limit

  predicate Lawful(run: Executor, tx: Tx, s: Snap) {
    run(tx, s).result.gasUsed <= tx.gasLimit
  }

  ghost predicate LawfulExecutor(run: Executor) {
    forall tx, s :: Lawful(run, tx, s)
  }

  lemma TxExecutorIsLawful(stf: Stf, w: World, b: BlockContext)
    ensures LawfulExecutor(TxExecutor(stf, w, b))
  {
    forall tx, s ensures Lawful(TxExecutor(stf, w, b), tx, s) {
      ApplyTxLaw(stf, w, tx, b, s);
    }
  }

  predicate StoppedEarly(block: Block, a: Progress) {
    a.executed != [] && a.cumulative >= block.gasLimit
  }

  /** A property of the loop before transaction `k` is looked at. */
  type Invariant = (nat, Progress) -> bool

  ghost predicate Kept(inv: Invariant, run: Executor, block: Block) {
    forall k: nat, p :: k < |block.txs| && inv(k, p)
      ==> inv(k + 1, if Oversized(block, k, p) then Skip(p) else Advance(run, block, k, p))
  }

  /** `z` is what the loop returns when it gets as far as `k` with `last`. */
  predicate EndsAt(block: Block, k: nat, last: Progress, z: Progress) {
    if StoppedEarly(block, last) then
      && last.executed[|last.executed| - 1] + 1 == k
      && z == last.(skipped := last.skipped + Remaining(block, last))
    else
      k == |block.txs| && z == last
  }

  lemma {:induction false} LoopEnds(inv: Invariant, run: Executor, block: Block, i: nat, a: Progress)
    returns (k: nat, last: Progress)
    requires Kept(inv, run, block) && i <= |block.txs| && inv(i, a) && !StoppedEarly(block, a)
    ensures k <= |block.txs| && inv(k, last) && EndsAt(block, k, last, TxLoop(run, block, i, a))
    decreases |block.txs| - i
  {
    if i == |block.txs| {
      return i, a;
    }
    if Oversized(block, i, a) {
      k, last := LoopEnds(inv, run, block, i + 1, Skip(a));
    } else {
      var next := Advance(run, block, i, a);
      assert next.executed[|next.executed| - 1] == i;
      if next.cumulative >= block.gasLimit {
        return i + 1, next;
      }
      k, last := LoopEnds(inv, run, block, i + 1, next);
    }
  }

  function GasSum(results: seq<TxResult>): nat {
    if results == [] then 0 else GasSum(results[..|results| - 1]) + results[|results| - 1].gasUsed
  }

  /** `ran` is an increasing selection below `i`, and each result stays within its limit. */
  ghost predicate Selection(txs: seq<Tx>, i: nat, ran: seq<nat>, results: seq<TxResult>) {
    && |ran| == |results| <= i <= |txs|
    && (forall j :: 0 <= j < |ran| ==> ran[j] < i)
    && (forall j, k :: 0 <= j < k < |ran| ==> ran[j] < ran[k])
    && (forall j :: 0 <= j < |ran| ==> results[j].gasUsed <= txs[ran[j]].gasLimit)
  }

  ghost predicate Accounted(block: Block, i: nat, a: Progress) {
    && Selection(block.txs, i, a.executed, a.results)
    && a.skipped == i - |a.executed|
    && a.cumulative == AtMostU64(GasSum(a.results))
    && a.cumulative <= block.gasLimit
  }

  ghost function Accounting(block: Block): Invariant {
    (k: nat, p: Progress) => Accounted(block, k, p)
  }

  lemma AdvanceAccounted(run: Executor, block: Block, i: nat, a: Progress)
    requires LawfulExecutor(run) && i < |block.txs| && Accounted(block, i, a) && !Oversized(block, i, a)
    ensures Accounted(block, i + 1, Advance(run, block, i, a))
  {
    assert Lawful(run, block.txs[i], a.snap);
    var next := Advance(run, block, i, a);
    assert next.results[..|a.results|] == a.results;
  }

  lemma AccountedIsKept(run: Executor, block: Block)
    requires LawfulExecutor(run)
    ensures Kept(Accounting(block), run, block)
  {
    forall k: nat, p | k < |block.txs| && Accounted(block, k, p) && !Oversized(block, k, p)
      ensures Accounted(block, k + 1, Advance(run, block, k, p))
    {
      AdvanceAccounted(run, block, k, p);
    }
  }

  /** How many transactions before the last executed one were passed over. */
  function PassedOver(a: Progress): int {
    if a.executed == [] then 0 else a.executed[|a.executed| - 1] + 1 - |a.executed|
  }

  /**
   * The loop runs an increasing selection of the transactions, each within its own limit, and
   * their gas, summed without rounding below `u64::MAX`, stays within the block's limit.
   */
  lemma BlockGasLaw(stf: Stf, w: World, block: Block, s: Snap)
    ensures var r := BlockOutcome(stf, w, block, s);
            && Selection(block.txs, |block.txs|, Looped(stf, w, block, s).executed, r.txResults)
            && r.gasUsed <= block.gasLimit
            && (block.gasLimit < U64_MAX ==> r.gasUsed == GasSum(r.txResults))
  {
    hide TxLoop, TxExecutor, Begun, Ended, LawfulExecutor, Kept;
    TxExecutorIsLawful(stf, w, block.context);
    AccountedIsKept(TxExecutor(stf, w, block.context), block);
    var _, _ := LoopEnds(Accounting(block), TxExecutor(stf, w, block.context), block, 0, Start(stf, w, block, s));
  }

  lemma {:induction false} GasSumMonotone(results: seq<TxResult>, i: nat)
    requires i <= |results|
    ensures GasSum(results[..i]) <= GasSum(results)
    decreases |results|
  {
    if i == |results| {
      assert results[..i] == results;
    } else {
      GasSumMonotone(results[..|results| - 1], i);
      assert results[..|results| - 1][..i] == results[..i];
    }
  }

  /** Below the maximal block limit the gas of the first results, and of all, sums up within the limit. */
  lemma ResultSumsFit(stf: Stf, w: World, block: Block, s: Snap, i: nat)
    requires block.gasLimit < U64_MAX && i <= |BlockOutcome(stf, w, block, s).txResults|
    ensures var r := BlockOutcome(stf, w, block, s);
            GasSum(r.txResults[..i]) <= GasSum(r.txResults) == r.gasUsed <= block.gasLimit
  {
    hide BlockOutcome;
    BlockGasLaw(stf, w, block, s);
    GasSumMonotone(BlockOutcome(stf, w, block, s).txResults, i);
  }

  /** At the maximal block limit the sum can pass `u64::MAX`, although the block's own count cannot. */
  lemma ResultSumOverflows(stf: Stf, w: World, block: Block, s: Snap)
    requires block.gasLimit == U64_MAX && |block.txs| == 2
    requires var first := TxExecutor(stf, w, block.context)(block.txs[0], Start(stf, w, block, s).snap);
             && first.result.gasUsed == 1
             && TxExecutor(stf, w, block.context)(block.txs[1], first.snap).result.gasUsed == U64_MAX
    ensures var r := BlockOutcome(stf, w, block, s); GasSum(r.txResults) == U64_MAX + 1 && r.gasUsed == U64_MAX
  {
    hide TxExecutor, Begun, Ended, TxLoop, GasSum;
    LoopOverflows(TxExecutor(stf, w, block.context), block, Start(stf, w, block, s));
  }

  lemma LoopOverflows(run: Executor, block: Block, a: Progress)
    requires block.gasLimit == U64_MAX && |block.txs| == 2 && a.cumulative == 0 && a.results == []
    requires var first := run(block.txs[0], a.snap);
             first.result.gasUsed == 1 && run(block.txs[1], first.snap).result.gasUsed == U64_MAX
    ensures var z := TxLoop(run, block, 0, a); GasSum(z.results) == U64_MAX + 1 && z.cumulative == U64_MAX
  {
    hide GasSum;
    var next := Advance(run, block, 0, a);
    var last := run(block.txs[1], next.snap).result;
    assert TxLoop(run, block, 0, a) == TxLoop(run, block, 1, next);
    assert TxLoop(run, block, 1, next).results == [next.results[0]] + [last];
    GasSumOfTwo(next.results[0], last);
  }

  lemma GasSumOfTwo(r: TxResult, q: TxResult)
    ensures GasSum([r] + [q]) == r.gasUsed + q.gasUsed
  {
    assert ([r] + [q])[..1] == [r] && [r][..0] == [];
    assert GasSum([r]) == r.gasUsed;
  }

  lemma SkipsCounted(block: Block, k: nat, last: Progress, z: Progress)
    requires Accounted(block, k, last) && EndsAt(block, k, last, z)
    ensures z.skipped == |block.txs| - |z.results| + (if StoppedEarly(block, z) then PassedOver(z) else 0)
  {
  }

  /**
   * Executed plus skipped is the number of transactions exactly when the loop did not stop at the
   * gas limit after passing over an oversized transaction: then every transaction passed over is
   * counted a second time.
   */
  lemma SkipCountLaw(stf: Stf, w: World, block: Block, s: Snap)
    ensures var r, z := BlockOutcome(stf, w, block, s), Looped(stf, w, block, s);
            && r.txsSkipped == |block.txs| - |r.txResults| + (if StoppedEarly(block, z) then PassedOver(z) else 0)
            && (|r.txResults| + r.txsSkipped == |block.txs| <==> !StoppedEarly(block, z) || PassedOver(z) == 0)
  {
    hide TxLoop, TxExecutor, Begun, Ended, LawfulExecutor, Kept;
    TxExecutorIsLawful(stf, w, block.context);
    AccountedIsKept(TxExecutor(stf, w, block.context), block);
    var k, last := LoopEnds(Accounting(block), TxExecutor(stf, w, block.context), block, 0, Start(stf, w, block, s));
    SkipsCounted(block, k, last, Looped(stf, w, block, s));
  }

  // ---------------------------------------------------------------------------------------
  // Which transactions run

  function LimitSum(txs: seq<Tx>): nat {
    if txs == [] then 0 else LimitSum(txs[..|txs| - 1]) + txs[|txs| - 1].gasLimit
  }

  lemma {:induction false} LimitSumMonotone(txs: seq<Tx>, i: nat)
    requires i <= |txs|
    ensures LimitSum(txs[..i]) <= LimitSum(txs)
    decreases |txs|
  {
    if i == |txs| {
      assert txs[..i] == txs;
    } else {
      LimitSumMonotone(txs[..|txs| - 1], i);
      assert txs[..|txs| - 1][..i] == txs[..i];
    }
  }

  /** The gas limits together fit the block, or the block is unlimited. */
  predicate FitsBlock(block: Block) {
    block.gasLimit == U64_MAX || LimitSum(block.txs) <= block.gasLimit
  }

  predicate IsPrefix(executed: seq<nat>) {
    forall j :: 0 <= j < |executed| ==> executed[j] == j
  }

  datatype Ran = Ran(results: seq<TxResult>, snap: Snap)

  /** Transactions run one after the other, none passed over. */
  function RunAll(run: Executor, txs: seq<Tx>, s: Snap): Ran {
    if txs == [] then Ran([], s)
    else
      var before := RunAll(run, txs[..|txs| - 1], s);
      var o := run(txs[|txs| - 1], before.snap);
      Ran(before.results + [o.result], o.snap)
  }

  /** Result `i` is that of transaction `i`, run on what the ones before it left. */
  lemma {:induction false} RunAllAt(run: Executor, txs: seq<Tx>, s: Snap, i: nat)
    requires i < |txs|
    ensures |RunAll(run, txs, s).results| == |txs|
    ensures RunAll(run, txs, s).results[i] == run(txs[i], RunAll(run, txs[..i], s).snap).result
    decreases |txs|
  {
    var init := txs[..|txs| - 1];
    if |txs| > 1 {
      RunAllAt(run, init, s, if i < |init| then i else 0);
    }
    assert i < |init| ==> init[..i] == txs[..i];
  }

  /** The loop ran the first `|results|` transactions in turn. */
  predicate RanPrefix(run: Executor, txs: seq<Tx>, s: Snap, a: Progress) {
    && |a.results| == |a.executed| <= |txs| && IsPrefix(a.executed)
    && RunAll(run, txs[..|a.results|], s) == Ran(a.results, a.snap)
  }

  lemma AdvanceRanPrefix(run: Executor, block: Block, s: Snap, i: nat, a: Progress)
    requires i < |block.txs| && |a.executed| == i && RanPrefix(run, block.txs, s, a)
    ensures RanPrefix(run, block.txs, s, Advance(run, block, i, a))
  {
    assert block.txs[..i + 1][..i] == block.txs[..i];
  }

  lemma {:induction false} LoopRunsPrefix(run: Executor, block: Block, s: Snap, i: nat, a: Progress)
    requires LawfulExecutor(run) && FitsBlock(block) && i <= |block.txs|
    requires |a.executed| == i && RanPrefix(run, block.txs, s, a)
    requires a.cumulative <= LimitSum(block.txs[..i])
    ensures RanPrefix(run, block.txs, s, TxLoop(run, block, i, a))
    decreases |block.txs| - i
  {
    if i < |block.txs| {
      LimitSumMonotone(block.txs, i + 1);
      assert block.txs[..i + 1][..i] == block.txs[..i];
      assert Lawful(run, block.txs[i], a.snap);
      AdvanceRanPrefix(run, block, s, i, a);
      hide RanPrefix;
      LoopRunsPrefix(run, block, s, i + 1, Advance(run, block, i, a));
    }
  }

  /**
   * When the gas limits fit the block, the transactions that run are exactly the first
   * `|txResults|` of the block, with the results and the state of running them one after the
   * other: nothing is passed over, and the skip count is the rest.
   */
  lemma FittingBlockRunsPrefix(stf: Stf, w: World, block: Block, s: Snap)
    requires FitsBlock(block)
    ensures RanPrefix(TxExecutor(stf, w, block.context), block.txs, Start(stf, w, block, s).snap, Looped(stf, w, block, s))
    ensures var r := BlockOutcome(stf, w, block, s);
            r.txResults == Looped(stf, w, block, s).results && |r.txResults| + r.txsSkipped == |block.txs|
  {
    hide TxLoop, Accounted;
    var run, start := TxExecutor(stf, w, block.context), Start(stf, w, block, s);
    TxExecutorIsLawful(stf, w, block.context);
    LoopRunsPrefix(run, block, start.snap, 0, start);
    SkipCountLaw(stf, w, block, s);
  }

  // A block gas limit of zero: only a transaction with gas limit zero runs, and only one of them.

  predicate FirstFree(txs: seq<Tx>, i: nat, k: nat) {
    i <= k < |txs| && txs[k].gasLimit == 0 && forall j :: i <= j < k ==> txs[j].gasLimit > 0
  }

  lemma {:induction false} ZeroLimitLoop(run: Executor, block: Block, i: nat, a: Progress)
    requires block.gasLimit == 0 && i <= |block.txs| && a.executed == [] && a.cumulative == 0
    ensures var z := TxLoop(run, block, i, a);
            && (forall k: nat :: FirstFree(block.txs, i, k) ==>
                                   z.executed == [k] && z.results == a.results + [run(block.txs[k], a.snap).result])
            && (NoneFree(block.txs[i..]) ==> z.executed == [])
    decreases |block.txs| - i
  {
    if i < |block.txs| {
      var z := TxLoop(run, block, i, a);
      if block.txs[i].gasLimit > 0 {
        ZeroLimitLoop(run, block, i + 1, Skip(a));
        forall k: nat | FirstFree(block.txs, i, k)
          ensures z.executed == [k] && z.results == a.results + [run(block.txs[k], a.snap).result]
        {
          assert FirstFree(block.txs, i + 1, k);
        }
      }
    }
  }

  lemma ZeroLimitRuns(stf: Stf, w: World, block: Block, s: Snap, k: nat)
    requires block.gasLimit == 0 && FirstFree(block.txs, 0, k)
    ensures Looped(stf, w, block, s).executed == [k]
    ensures Looped(stf, w, block, s).results == [TxExecutor(stf, w, block.context)(block.txs[k], Start(stf, w, block, s).snap).result]
  {
    ZeroLimitLoop(TxExecutor(stf, w, block.context), block, 0, Start(stf, w, block, s));
  }

  /**
   * With a block gas limit of zero the executed transactions are a prefix exactly when the first
   * transaction is free or none is.
   */
  lemma ZeroLimitPrefixIff(stf: Stf, w: World, block: Block, s: Snap)
    requires block.gasLimit == 0
    ensures IsPrefix(Looped(stf, w, block, s).executed) <==> NoneFree(block.txs) || FirstFree(block.txs, 0, 0)
  {
    TxExecutorIsLawful(stf, w, block.context);
    ZeroLimitLoop(TxExecutor(stf, w, block.context), block, 0, Start(stf, w, block, s));
    if !NoneFree(block.txs) {
      var k: nat :| k < |block.txs| && block.txs[k].gasLimit == 0;
      OnlyRun(block.txs, Looped(stf, w, block, s).executed, LeastFree(block.txs, 0, k));
    }
  }

  /**
   * With a block gas limit of zero executed plus skipped is the number of transactions exactly when
   * the first transaction is free or none is; else the ones before the first free one count twice.
   */
  lemma ZeroLimitCountIff(stf: Stf, w: World, block: Block, s: Snap)
    requires block.gasLimit == 0
    ensures var r := BlockOutcome(stf, w, block, s);
            |r.txResults| + r.txsSkipped == |block.txs| <==> NoneFree(block.txs) || FirstFree(block.txs, 0, 0)
  {
    hide BlockOutcome, Looped, Selection;
    SkipCountLaw(stf, w, block, s);
    if NoneFree(block.txs) {
      ZeroLimitRunsNone(stf, w, block, s);
    } else {
      var k: nat :| k < |block.txs| && block.txs[k].gasLimit == 0;
      var f := LeastFree(block.txs, 0, k);
      ZeroLimitRuns(stf, w, block, s, f);
      assert StoppedEarly(block, Looped(stf, w, block, s)) && PassedOver(Looped(stf, w, block, s)) == f;
    }
  }

  lemma ZeroLimitRunsNone(stf: Stf, w: World, block: Block, s: Snap)
    requires block.gasLimit == 0 && NoneFree(block.txs)
    ensures Looped(stf, w, block, s).executed == []
  {
    assert block.txs[0..] == block.txs;
    ZeroLimitLoop(TxExecutor(stf, w, block.context), block, 0, Start(stf, w, block, s));
  }

  /** One transaction runs, one is passed over, and two count as skipped. */
  lemma SkippedTwice(stf: Stf, w: World, block: Block, s: Snap)
    requires block.gasLimit == 0 && |block.txs| == 2 && block.txs[0].gasLimit > 0 && block.txs[1].gasLimit == 0
    ensures var r := BlockOutcome(stf, w, block, s); |r.txResults| == 1 && r.txsSkipped == 2
  {
    hide BlockOutcome, Looped;
    ZeroLimitRuns(stf, w, block, s, 1);
    BlockGasLaw(stf, w, block, s);
    SkipCountLaw(stf, w, block, s);
  }

  predicate NoneFree(txs: seq<Tx>) {
    forall k :: 0 <= k < |txs| ==> txs[k].gasLimit > 0
  }

  lemma OnlyRun(txs: seq<Tx>, ran: seq<nat>, f: nat)
    requires FirstFree(txs, 0, f) && ran == [f]
    ensures IsPrefix(ran) <==> FirstFree(txs, 0, 0)
  {
    assert IsPrefix(ran) ==> ran[0] == 0;
  }

  function LeastFree(txs: seq<Tx>, i: nat, k: nat): (f: nat)
    requires i <= k < |txs| && txs[k].gasLimit == 0
    ensures FirstFree(txs, i, f)
    decreases k - i
  {
    if txs[i].gasLimit == 0 then i else LeastFree(txs, i + 1, k)
  }

  // ---------------------------------------------------------------------------------------
  // Ids and storage over a whole block

  lemma {:induction false} LoopIn(rel: Relation, run: Executor, block: Block, i: nat, a: Progress)
    requires Composes(rel) && forall s :: rel(s, Infinite, s, Infinite)
    requires forall tx, s :: tx in block.txs ==> rel(s, Infinite, run(tx, s).snap, Infinite)
    requires i <= |block.txs|
    ensures rel(a.snap, Infinite, TxLoop(run, block, i, a).snap, Infinite)
    decreases |block.txs| - i
  {
    if i < |block.txs| {
      if Oversized(block, i, a) {
        LoopIn(rel, run, block, i + 1, Skip(a));
      } else {
        var next := Advance(run, block, i, a);
        assert next.snap == run(block.txs[i], a.snap).snap;
        if next.cumulative < block.gasLimit {
          LoopIn(rel, run, block, i + 1, next);
        }
      }
    }
  }

  lemma BlockEvolves(stf: Stf, w: World, block: Block, s: Snap)
    ensures Evolves(s, Infinite, FinalSnap(stf, w, block, s), Infinite)
  {
    var run := TxExecutor(stf, w, block.context);
    forall tx, s ensures Evolution()(s, Infinite, run(tx, s).snap, Infinite) {
      ApplyTxLaw(stf, w, tx, block.context, s);
    }
    EvolutionIsClosed(w);
    EvolutionAllowsPop();
    BlockIn(Evolution(), stf, w, block, s);
  }

  lemma BlockIn(rel: Relation, stf: Stf, w: World, block: Block, s: Snap, bar: Option<AccountId> := None)
    requires Closed(w, rel, bar) && AllowsPop(rel)
    requires var run := TxExecutor(stf, w, block.context); forall tx, s :: tx in block.txs ==> rel(s, Infinite, run(tx, s).snap, Infinite)
    ensures rel(s, Infinite, FinalSnap(stf, w, block, s), Infinite)
  {
    var begun, ended := Begun(stf, w, block, s).snap, Ended(stf, w, block, s).snap;
    UnmeteredRunIn(rel, w, BeginCtx(block.context), stf.beginBlock(block), s, bar);
    assert rel(begun, Infinite, begun.(events := []), Infinite);
    assert forall s :: rel(s, Infinite, s, Infinite);
    LoopIn(rel, TxExecutor(stf, w, block.context), block, 0, Start(stf, w, block, s));
    UnmeteredRunIn(rel, w, EndCtx(block.context), stf.endBlock(block.context), Looped(stf, w, block, s).snap, bar);
    assert rel(ended, Infinite, ended.(events := []), Infinite);
  }

  lemma UnmeteredRunIn(rel: Relation, w: World, x: Ctx, p: Program, s: Snap, bar: Option<AccountId> := None)
    requires Closed(w, rel, bar) && x.depth <= MAX_CALL_DEPTH
    requires bar != Some(x.whoami)
    ensures rel(s, Infinite, Run(w, x, p, [], s, Infinite).snap, Infinite)
  {
    RunIn(rel, w, x, p, [], s, Infinite, bar);
    UnmeteredStays(w, x, p, s);
  }

  lemma UnmeteredStays(w: World, x: Ctx, p: Program, s: Snap)
    requires x.depth <= MAX_CALL_DEPTH
    ensures Run(w, x, p, [], s, Infinite).meter == Infinite
  {
    EvolutionIsClosed(w);
    RunIn(Evolution(), w, x, p, [], s, Infinite);
  }

  /**
   * All ids that calls of one block obtained and did not roll back are pairwise different: in the
   * begin-block hook, in every phase of every transaction, and in the end-block hook.
   */
  lemma BlockIdsDiffer(stf: Stf, w: World, block: Block, i: nat, j: nat)
    requires FinalSnap(stf, w, block, Fresh()).unique <= U64_MAX
    requires var es := FinalSnap(stf, w, block, Fresh()).effects;
             i < j < |es| && es[i].IdIssued? && es[j].IdIssued?
    ensures var es := FinalSnap(stf, w, block, Fresh()).effects; es[i].id != es[j].id
  {
    BlockEvolves(stf, w, block, Fresh());
    var t := FinalSnap(stf, w, block, Fresh());
    assert Since(Fresh(), t) == t.effects;
    SurvivingIdsDiffer(Fresh(), Infinite, t, Infinite, i, j);
  }

  /** After a block an account's key reads as before unless a write by that account survived. */
  lemma BlockFrame(stf: Stf, w: World, block: Block, owner: AccountId, key: Key)
    requires InNamespace(owner, key)
    requires Lookup(w.base, FinalSnap(stf, w, block, Fresh()).overlay, key) != w.base(key)
    ensures StorageWrite(owner, key) in FinalSnap(stf, w, block, Fresh()).effects
  {
    BlockEvolves(stf, w, block, Fresh());
    var t := FinalSnap(stf, w, block, Fresh());
    assert Since(Fresh(), t) == t.effects;
    OnlyTheOwnerWrites(w.base, Fresh(), Infinite, t, Infinite, owner, key);
  }
}
