/**
 * The phases of a transaction (crates/app/stf/src/lib.rs): what each program is told, from which
 * state it starts, and what its failure does to the result.  The first phase that fails gives the
 * response; what it and the phases before it did stays.
 */
module Phases {
  import opened Types
  import opened Gas
  import opened Programs
  import opened Snapshot
  import opened Blocks

  // ---------------------------------------------------------------------------------------
  // The programs of the phases, each with what it is told

  /** The runtime's own programs see the runtime and no sender. */
  function AsRuntime(b: BlockContext): Ctx {
    Ctx(RuntimeAccount(), InvalidAccount(), [], BeginBlock(b.height), 0, b)
  }

  function SenderPhase(stf: Stf, w: World, tx: Tx, b: BlockContext, s: Snap): Out {
    Run(w, AsRuntime(b), tx.resolveSender(Env(RuntimeAccount(), InvalidAccount(), [], b)), [], s, Finite(tx.gasLimit, 0, stf.gasConfig))
  }

  function RegistrationPhase(w: World, sender: AccountId, boot: Bootstrap, b: BlockContext, o: Out): Out {
    RegisterAt(w, AsRuntime(b), sender, boot.codeId, boot.init, o.snap, o.meter)
  }

  function BootstrapHook(w: World, tx: Tx, sender: AccountId, b: BlockContext, o: Out): Out {
    Run(w, AsRuntime(b), tx.afterBootstrap(sender, Env(RuntimeAccount(), InvalidAccount(), [], b)), [], o.snap, o.meter)
  }

  /** The validator is called by the runtime, for no account yet. */
  function ValidationPhase(stf: Stf, w: World, tx: Tx, b: BlockContext, o: Out): Out {
    Run(w, Ctx(InvalidAccount(), RuntimeAccount(), [], Transaction(tx.id), 0, b),
        stf.validate(tx, Env(InvalidAccount(), RuntimeAccount(), [], b)), [], o.snap, o.meter)
  }

  /** The sender acts, in the scope of the transaction. */
  function AsSender(tx: Tx, sender: AccountId, b: BlockContext): Ctx {
    Ctx(sender, InvalidAccount(), [], Transaction(tx.id), 0, b)
  }

  function RecipientPhase(w: World, tx: Tx, sender: AccountId, b: BlockContext, o: Out): Out {
    Run(w, AsSender(tx, sender, b), tx.resolveRecipient(Env(sender, InvalidAccount(), [], b)), [], o.snap, o.meter)
  }

  function CallPhase(w: World, tx: Tx, sender: AccountId, to: AccountId, b: BlockContext, o: Out): Out {
    DoExec(w, AsSender(tx, sender, b), to, tx.request, tx.funds, o.snap, o.meter)
  }

  function PostPhase(stf: Stf, w: World, tx: Tx, sender: AccountId, b: BlockContext, o: Out): Out {
    Run(w, AsSender(tx, sender, b), stf.postTx(tx, o.meter.Used(), o.reply, Env(sender, InvalidAccount(), [], b)), [], o.snap, o.meter)
  }

  // ---------------------------------------------------------------------------------------
  // What a phase leaves

  /** The transaction ends with what the phase left: its events and gas, and its state without events. */
  predicate EndsWith(t: TxOut, o: Out, response: Reply) {
    && t.result == TxResult(o.snap.events, o.meter.Used(), response)
    && t.snap.overlay == o.snap.overlay && t.snap.unique == o.snap.unique && t.snap.events == []
  }

  /** Sender resolution fails. */
  lemma SenderFails(stf: Stf, w: World, tx: Tx, b: BlockContext, s: Snap)
    requires SenderPhase(stf, w, tx, b, s).reply.Err?
    ensures var o := SenderPhase(stf, w, tx, b, s); EndsWith(ApplyTx(stf, w, tx, b, s), o, o.reply)
  {
    hide Run, Execute;
  }

  /** What validation starts from: after the sender, or after a bootstrap that worked, whose events are dropped. */
  ghost predicate Admitted(stf: Stf, w: World, tx: Tx, b: BlockContext, s: Snap, sender: AccountId, o: Out) {
    var r := SenderPhase(stf, w, tx, b, s);
    && r.reply == Ok(Account(sender))
    && match tx.bootstrap {
         case None => o.snap == r.snap && o.meter == r.meter
         case Some(boot) =>
           var g := RegistrationPhase(w, sender, boot, b, r);
           var h := BootstrapHook(w, tx, sender, b, g);
           g.reply.Ok? && h.reply.Ok? && o.snap == h.snap.(events := []) && o.meter == h.meter
       }
  }

  /** The bootstrap fails: in the registration, or in the hook after it.  The registration stays in the second case. */
  lemma BootstrapFails(stf: Stf, w: World, tx: Tx, b: BlockContext, s: Snap, sender: AccountId)
    requires SenderPhase(stf, w, tx, b, s).reply == Ok(Account(sender)) && tx.bootstrap.Some?
    ensures var g := RegistrationPhase(w, sender, tx.bootstrap.value, b, SenderPhase(stf, w, tx, b, s));
            var h := BootstrapHook(w, tx, sender, b, g);
            && (g.reply.Err? ==> EndsWith(ApplyTx(stf, w, tx, b, s), g, g.reply))
            && (g.reply.Ok? && h.reply.Err? ==> EndsWith(ApplyTx(stf, w, tx, b, s), h, h.reply))
  {
    hide Run, RegisterAt, Execute;
  }

  /** Validation fails. */
  lemma ValidationFails(stf: Stf, w: World, tx: Tx, b: BlockContext, s: Snap, sender: AccountId, o: Out)
    requires Admitted(stf, w, tx, b, s, sender, o) && ValidationPhase(stf, w, tx, b, o).reply.Err?
    ensures var v := ValidationPhase(stf, w, tx, b, o); EndsWith(ApplyTx(stf, w, tx, b, s), v, v.reply)
  {
    hide Run, RegisterAt, Execute;
  }

  ghost predicate Validated(stf: Stf, w: World, tx: Tx, b: BlockContext, s: Snap, sender: AccountId, v: Out) {
    v.reply.Ok? && exists o :: Admitted(stf, w, tx, b, s, sender, o) && v == ValidationPhase(stf, w, tx, b, o)
  }

  lemma PreparedIsValidated(stf: Stf, w: World, tx: Tx, b: BlockContext, s: Snap, sender: AccountId, v: Out)
    requires Validated(stf, w, tx, b, s, sender, v)
    ensures RunTx(stf, w, tx, b, s) == Execute(stf, w, tx, sender, b, v.snap, v.meter)
  {
    hide Run, RegisterAt, Execute;
  }

  /** The recipient cannot be resolved: nothing is called. */
  lemma RecipientFails(stf: Stf, w: World, tx: Tx, b: BlockContext, s: Snap, sender: AccountId, v: Out)
    requires Validated(stf, w, tx, b, s, sender, v) && RecipientPhase(w, tx, sender, b, v).reply.Err?
    ensures var r := RecipientPhase(w, tx, sender, b, v); EndsWith(ApplyTx(stf, w, tx, b, s), r, r.reply)
  {
    hide Run, RunTx, Validated;
    PreparedIsValidated(stf, w, tx, b, s, sender, v);
  }

  /**
   * The call is made, by the sender, and the hook after it sees its gas and its response.  The response
   * is the call's, or the hook's error; either way the state is what the hook left of the call's.
   */
  lemma CallAnswers(stf: Stf, w: World, tx: Tx, b: BlockContext, s: Snap, sender: AccountId, v: Out, to: AccountId)
    requires Validated(stf, w, tx, b, s, sender, v) && RecipientPhase(w, tx, sender, b, v).reply == Ok(Account(to))
    ensures var c := CallPhase(w, tx, sender, to, b, RecipientPhase(w, tx, sender, b, v));
            var p := PostPhase(stf, w, tx, sender, b, c);
            EndsWith(ApplyTx(stf, w, tx, b, s), p, if p.reply.Err? then p.reply else c.reply)
  {
    hide Run, DoExec, RunTx, Validated;
    PreparedIsValidated(stf, w, tx, b, s, sender, v);
  }

  /** A hook that just refuses: the error is the response, and the call's writes stay. */
  lemma RefusedCallStays(stf: Stf, w: World, tx: Tx, b: BlockContext, s: Snap, sender: AccountId, v: Out, to: AccountId, e: Error)
    requires Validated(stf, w, tx, b, s, sender, v) && RecipientPhase(w, tx, sender, b, v).reply == Ok(Account(to))
    requires var c := CallPhase(w, tx, sender, to, b, RecipientPhase(w, tx, sender, b, v));
             stf.postTx(tx, c.meter.Used(), c.reply, Env(sender, InvalidAccount(), [], b)).next([]) == Return(Err(e))
    ensures var c := CallPhase(w, tx, sender, to, b, RecipientPhase(w, tx, sender, b, v));
            EndsWith(ApplyTx(stf, w, tx, b, s), c, Err(e))
  {
    hide RecipientPhase, CallPhase, ApplyTx, Validated;
    CallAnswers(stf, w, tx, b, s, sender, v, to);
  }

  // ---------------------------------------------------------------------------------------
  // The two ends of a block

  lemma {:induction false} LoopKeepsNoEvents(stf: Stf, w: World, block: Block, i: nat, a: Progress)
    requires i <= |block.txs| && a.snap.events == []
    ensures TxLoop(TxExecutor(stf, w, block.context), block, i, a).snap.events == []
    decreases |block.txs| - i
  {
    hide RunTx;
    if i < |block.txs| {
      if Oversized(block, i, a) {
        LoopKeepsNoEvents(stf, w, block, i + 1, Skip(a));
      } else {
        LoopKeepsNoEvents(stf, w, block, i + 1, Advance(TxExecutor(stf, w, block.context), block, i, a));
      }
    }
  }

  /**
   * The hooks at the two ends of a block run as the runtime, without gas, around the transactions.
   * Each one's events are handed over: the transactions start with none, and so does the hook at the end.
   */
  lemma BlockEnds(stf: Stf, w: World, block: Block, s: Snap)
    ensures var first := Run(w, AsRuntime(block.context), stf.beginBlock(block), [], s, Infinite).snap;
            var after := Looped(stf, w, block, s);
            var last := Run(w, AsRuntime(block.context).(scope := EndBlock(block.context.height)), stf.endBlock(block.context), [],
                            after.snap, Infinite).snap;
            var r := BlockOutcome(stf, w, block, s);
            && after == TxLoop(TxExecutor(stf, w, block.context), block, 0, Progress(0, 0, [], [], first.(events := [])))
            && after.snap.events == []
            && r == BlockResult(first.events, after.results, last.events, after.cumulative, after.skipped)
            && FinalSnap(stf, w, block, s).overlay == last.overlay && FinalSnap(stf, w, block, s).events == []
  {
    hide Run, TxExecutor;
    LoopKeepsNoEvents(stf, w, block, 0, Start(stf, w, block, s));
  }
}
