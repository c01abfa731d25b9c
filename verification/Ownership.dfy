/**
 * Whose code changes whose storage: over any tree of calls the storage of an account changes only
 * after the account's own code, the one stored for it, has begun to run (crates/app/stf/src/invoker.rs).
 */
module Ownership {
  import opened Types
  import opened Gas
  import opened ExecState
  import opened Programs
  import opened Snapshot
  import opened CallInduction
  import opened CallTree
  import opened CodeChanges
  import opened Blocks
  import opened BlockLaws

  /** Effect `j` is a storage write of the account. */
  predicate WritesAs(effects: seq<Effect>, j: nat, a: AccountId) {
    j < |effects| && effects[j].StorageWrite? && effects[j].writer == a
  }

  /** Code of the account was run from effect `from` on and before effect `j`. */
  ghost predicate RanBefore(effects: seq<Effect>, from: nat, j: nat, a: AccountId) {
    exists i :: from <= i < j && i < |effects| && effects[i].CodeRun? && effects[i].account == a
  }

  ghost predicate RunsFirst(a: AccountId, s: Snap, t: Snap) {
    s.effects <= t.effects && forall j :: |s.effects| <= j && WritesAs(t.effects, j, a) ==> RanBefore(t.effects, |s.effects|, j, a)
  }

  ghost function RunningFirst(a: AccountId): Relation {
    (s: Snap, m: Meter, t: Snap, n: Meter) => RunsFirst(a, s, t)
  }

  lemma RunsFirstTransitive(a: AccountId, s: Snap, t: Snap, u: Snap)
    requires RunsFirst(a, s, t) && RunsFirst(a, t, u)
    ensures RunsFirst(a, s, u)
  {
    forall j | |s.effects| <= j && WritesAs(u.effects, j, a) ensures RanBefore(u.effects, |s.effects|, j, a) {
      if j < |t.effects| {
        assert WritesAs(t.effects, j, a);
        var i :| |s.effects| <= i < j && t.effects[i].CodeRun? && t.effects[i].account == a;
        assert u.effects[i] == t.effects[i];
      } else {
        assert RanBefore(u.effects, |t.effects|, j, a);
      }
    }
  }

  /** At most one effect more, and it is no storage write of the account. */
  lemma OneMore(a: AccountId, s: Snap, t: Snap)
    requires s.effects <= t.effects && |t.effects| <= |s.effects| + 1 && !WritesAs(t.effects, |s.effects|, a)
    ensures RunsFirst(a, s, t)
  {
  }

  lemma OwnRunFirst(a: AccountId, s: Snap, t: Snap, code: CodeId)
    requires Entered(s, a, code).effects <= t.effects
    ensures RunsFirst(a, s, t)
  {
    assert t.effects[|s.effects|] == CodeRun(a, code);
  }

  lemma RunningFirstIsClosed(w: World, a: AccountId)
    requires a != RuntimeAccount()
    ensures Closed(w, RunningFirst(a), Some(a)) && AllowsPop(RunningFirst(a))
  {
    hide RunsFirst;
    var rel := RunningFirst(a);
    forall s, m, t, n, u, o | rel(s, m, t, n) && rel(t, n, u, o) ensures rel(s, m, u, o) {
      RunsFirstTransitive(a, s, t, u);
    }
    forall s, m, n ensures rel(s, m, s, n) {
      OneMore(a, s, s);
    }
    forall s, m, t, n | rel(s, m, t, n) ensures rel(s, m, RolledBack(s, t), n) {
      OneMore(a, s, RolledBack(s, t));
    }
    forall s, key, entry, effect, m | WritesTo(effect, key) && !(effect.StorageWrite? && Some(a) == Some(effect.writer))
      ensures rel(s, m, Write(s, key, entry, effect).snap, m)
    {
      OneMore(a, s, Write(s, key, entry, effect).snap);
    }
    forall x, name, data, s, m ensures rel(s, m, EmitEvent(x, name, data, s, m).snap, m) {
      OneMore(a, s, EmitEvent(x, name, data, s, m).snap);
    }
    forall x, s, m ensures rel(s, m, IssueId(x, s, m).snap, m) {
      OneMore(a, s, IssueId(x, s, m).snap);
    }
    forall s, account, code, m ensures rel(s, m, Entered(s, account, code), m) {
      OneMore(a, s, Entered(s, account, code));
    }
    forall s: Snap, m, t: Snap, n, code | Entered(s, a, code).effects <= t.effects ensures rel(s, m, t, n) {
      OwnRunFirst(a, s, t, code);
    }
    forall s: Snap, m ensures rel(s, m, s.(events := []), m) {
      OneMore(a, s, s.(events := []));
    }
  }

  // ---------------------------------------------------------------------------------------
  // Calls and blocks

  /** From effect `from` on, code of the account ran and later wrote the key. */
  ghost predicate RanAndWrote(effects: seq<Effect>, from: nat, a: AccountId, key: Key) {
    exists j :: from <= j < |effects| && effects[j] == StorageWrite(a, key) && RanBefore(effects, from, j, a)
  }

  lemma WriterRan(base: Base, s: Snap, m: Meter, t: Snap, n: Meter, a: AccountId, key: Key)
    requires Evolves(s, m, t, n) && RunsFirst(a, s, t) && InNamespace(a, key)
    requires Lookup(base, s.overlay, key) != Lookup(base, t.overlay, key)
    ensures RanAndWrote(t.effects, |s.effects|, a, key)
  {
    OnlyTheOwnerWrites(base, s, m, t, n, a, key);
    var i :| 0 <= i < |Since(s, t)| && Since(s, t)[i] == StorageWrite(a, key);
    assert WritesAs(t.effects, |s.effects| + i, a);
  }

  /**
   * A call changes the storage of an account only by running that account's code first, whoever
   * calls: the account itself may be the caller, as long as it does not call the storage account.
   */
  lemma CallRunsOwner(w: World, x: Ctx, to: AccountId, request: Request, funds: seq<Asset>, s: Snap, m: Meter, a: AccountId, key: Key)
    requires x.depth <= MAX_CALL_DEPTH && a != RuntimeAccount() && InNamespace(a, key)
    requires x.whoami == a ==> to != StorageAccount() && NoStorageAsset(funds)
    requires Lookup(w.base, s.overlay, key) != Lookup(w.base, DoExec(w, x, to, request, funds, s, m).snap.overlay, key)
    ensures RanAndWrote(DoExec(w, x, to, request, funds, s, m).snap.effects, |s.effects|, a, key)
  {
    hide Closed, DoExec, RunsFirst, Evolves;
    RunningFirstIsClosed(w, a);
    DoExecIn(RunningFirst(a), w, x, to, request, funds, s, m, Some(a));
    EvolutionIsClosed(w);
    DoExecIn(Evolution(), w, x, to, request, funds, s, m);
    var o := DoExec(w, x, to, request, funds, s, m);
    WriterRan(w.base, s, m, o.snap, o.meter, a, key);
  }

  /** The same over a block, for an account that is neither a system account nor the sender of any of its transactions. */
  lemma BlockRunsOwner(stf: Stf, w: World, block: Block, a: AccountId, key: Key)
    requires a != RuntimeAccount() && a != InvalidAccount() && InNamespace(a, key)
    requires forall tx, s :: tx in block.txs ==> !SentBy(stf, w, tx, block.context, s, a)
    requires Lookup(w.base, FinalSnap(stf, w, block, Fresh()).overlay, key) != w.base(key)
    ensures RanAndWrote(FinalSnap(stf, w, block, Fresh()).effects, 0, a, key)
  {
    hide Closed, AllowsPop, FinalSnap, RunsFirst, Evolves, TxExecutor, SentBy;
    var rel := RunningFirst(a);
    RunningFirstIsClosed(w, a);
    forall tx, s | tx in block.txs ensures rel(s, Infinite, TxExecutor(stf, w, block.context)(tx, s).snap, Infinite) {
      assert !SentBy(stf, w, tx, block.context, s, a);
      TxRunsFirst(stf, w, block.context, a, tx, s);
    }
    BlockIn(rel, stf, w, block, Fresh(), Some(a));
    BlockEvolves(stf, w, block, Fresh());
    WriterRan(w.base, Fresh(), Infinite, FinalSnap(stf, w, block, Fresh()), Infinite, a, key);
  }

  lemma TxRunsFirst(stf: Stf, w: World, b: BlockContext, a: AccountId, tx: Tx, s: Snap)
    requires a != RuntimeAccount() && a != InvalidAccount() && !SentBy(stf, w, tx, b, s, a)
    ensures RunsFirst(a, s, TxExecutor(stf, w, b)(tx, s).snap)
  {
    hide Closed, AllowsPop, RunTx, RunsFirst, SentBy;
    RunningFirstIsClosed(w, a);
    RunTxIn(RunningFirst(a), stf, w, tx, b, s, Some(a));
  }

  // ---------------------------------------------------------------------------------------
  // Which code it is

  /** From effect `from` on, the account ran no code but this. */
  ghost predicate RanOnly(effects: seq<Effect>, from: nat, a: AccountId, code: CodeId) {
    forall i :: from <= i < |effects| && effects[i].CodeRun? && effects[i].account == a ==> effects[i].code == code
  }

  /** A settled account runs the code it has, unless it migrated or the numbers went round. */
  ghost predicate RunsItsCode(w: World, a: AccountId, s: Snap, t: Snap) {
    && KeepsCode(w, a, s, t)
    && (Settled(w, s, a) ==>
          Excused(t.effects, |s.effects|, a) || RanOnly(t.effects, |s.effects|, a, CodeIdOf(w, s.overlay, a).value.value))
  }

  ghost function RunningItsCode(w: World, a: AccountId): Relation {
    (s: Snap, m: Meter, t: Snap, n: Meter) => RunsItsCode(w, a, s, t)
  }

  lemma RunsItsCodeTransitive(w: World, a: AccountId, s: Snap, t: Snap, u: Snap)
    requires RunsItsCode(w, a, s, t) && RunsItsCode(w, a, t, u)
    ensures RunsItsCode(w, a, s, u)
  {
    hide KeepsCode;
    KeepsCodeTransitive(w, a, s, t, u);
    if Settled(w, s, a) {
      SettledThrough(w, a, s, t, u);
    }
  }

  lemma SettledThrough(w: World, a: AccountId, s: Snap, t: Snap, u: Snap)
    requires RunsItsCode(w, a, s, t) && RunsItsCode(w, a, t, u) && Settled(w, s, a)
    ensures Excused(u.effects, |s.effects|, a) || RanOnly(u.effects, |s.effects|, a, CodeIdOf(w, s.overlay, a).value.value)
  {
    hide CodeIdOf, LastNumber;
    if Excused(t.effects, |s.effects|, a) {
      var i :| |s.effects| <= i < |t.effects| && (t.effects[i] == CodeWrite(a, Migration(a)) || WrapsAround(t.effects[i]));
      assert u.effects[i] == t.effects[i];
    } else if !Excused(u.effects, |s.effects|, a) {
      assert forall i :: |s.effects| <= i < |t.effects| ==> u.effects[i] == t.effects[i];
    }
  }

  /** Nothing was run. */
  lemma RunsNothing(w: World, a: AccountId, s: Snap, t: Snap)
    requires KeepsCode(w, a, s, t) && |t.effects| <= |s.effects| + 1
    requires |t.effects| > |s.effects| ==> !t.effects[|s.effects|].CodeRun?
    ensures RunsItsCode(w, a, s, t)
  {
    hide Settled, CodeIdOf;
  }

  lemma EntersItsCode(w: World, a: AccountId, s: Snap, account: AccountId, code: CodeId)
    requires HasCode(w, s.overlay, account, code) && RoundTrips(w, code)
    ensures RunsItsCode(w, a, s, Entered(s, account, code))
  {
    EnteringKeepsCode(w, a, s, account, code);
  }

  lemma RunningItsCodeIsClosed(w: World, a: AccountId)
    requires forall code :: RoundTrips(w, code)
    ensures Closed(w, RunningItsCode(w, a))
  {
    hide RunsItsCode, KeepsCode;
    var rel := RunningItsCode(w, a);
    forall s, m, t, n, u, o | rel(s, m, t, n) && rel(t, n, u, o) ensures rel(s, m, u, o) {
      RunsItsCodeTransitive(w, a, s, t, u);
    }
    forall s, m, n ensures rel(s, m, s, n) {
      IdleKeepsCode(w, a, s, s);
      RunsNothing(w, a, s, s);
    }
    forall s, m, t, n | rel(s, m, t, n) ensures rel(s, m, RolledBack(s, t), n) {
      IdleKeepsCode(w, a, s, RolledBack(s, t));
      RunsNothing(w, a, s, RolledBack(s, t));
    }
    forall s, key, entry, effect, m | WritesTo(effect, key) && Sound(effect) && Justified(w, s, entry, effect)
      ensures rel(s, m, Write(s, key, entry, effect).snap, m)
    {
      WriteKeepsCode(w, a, s, key, entry, effect);
      RunsNothing(w, a, s, Write(s, key, entry, effect).snap);
    }
    forall x, name, data, s, m ensures rel(s, m, EmitEvent(x, name, data, s, m).snap, m) {
      IdleKeepsCode(w, a, s, EmitEvent(x, name, data, s, m).snap);
      RunsNothing(w, a, s, EmitEvent(x, name, data, s, m).snap);
    }
    forall x, s, m ensures rel(s, m, IssueId(x, s, m).snap, m) {
      IssueIdKeepsCode(w, a, x, s, m);
      RunsNothing(w, a, s, IssueId(x, s, m).snap);
    }
    forall s: Snap, account, code, m | HasCode(w, s.overlay, account, code) ensures rel(s, m, Entered(s, account, code), m) {
      EntersItsCode(w, a, s, account, code);
    }
  }

  /** From effect `from` on, this code of the account ran and later the account wrote the key. */
  ghost predicate CodeRanAndWrote(effects: seq<Effect>, from: nat, a: AccountId, code: CodeId, key: Key) {
    exists i, j :: from <= i < j < |effects| && effects[i] == CodeRun(a, code) && effects[j] == StorageWrite(a, key)
  }

  /**
   * So for an account with code and an id below the next account number: a call that changes its
   * storage has run the very code the account had, unless the account migrated or the numbers went round.
   */
  lemma CallRunsOwnersCode(w: World, x: Ctx, to: AccountId, request: Request, funds: seq<Asset>, s: Snap, m: Meter,
                           a: AccountId, key: Key, code: CodeId)
    requires forall c :: RoundTrips(w, c)
    requires x.depth <= MAX_CALL_DEPTH && a != RuntimeAccount() && InNamespace(a, key)
    requires x.whoami == a ==> to != StorageAccount() && NoStorageAsset(funds)
    requires Settled(w, s, a) && CodeIdOf(w, s.overlay, a) == Ok(Some(code))
    requires Lookup(w.base, s.overlay, key) != Lookup(w.base, DoExec(w, x, to, request, funds, s, m).snap.overlay, key)
    ensures var t := DoExec(w, x, to, request, funds, s, m).snap;
            Excused(t.effects, |s.effects|, a) || CodeRanAndWrote(t.effects, |s.effects|, a, code, key)
  {
    hide Closed, DoExec, Settled, CodeIdOf, KeepsCode, Excused;
    CallRunsOwner(w, x, to, request, funds, s, m, a, key);
    RunningItsCodeIsClosed(w, a);
    DoExecIn(RunningItsCode(w, a), w, x, to, request, funds, s, m);
  }
}
