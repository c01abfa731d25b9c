/**
 * Who can change the code of an account.  An account whose id lies below the next account number
 * changes its code only by a migration it asks for itself; an id not below it is taken over once
 * `create_account` gets there (crates/app/stf/src/invoker.rs).
 */
module CodeChanges {
  import opened Types
  import opened Gas
  import opened ExecState
  import opened Programs
  import opened Snapshot
  import opened CallInduction
  import opened Blocks
  import opened BlockLaws

  /** The account has code, its id is below the next account number, and no creation of it is under way. */
  predicate Settled(w: World, s: Snap, a: AccountId) {
    && CodeIdOf(w, s.overlay, a).Ok? && CodeIdOf(w, s.overlay, a).value.Some?
    && LastNumber(w, s.overlay).Ok? && FromBigEndian(a) < FromBigEndian(LastNumber(w, s.overlay).value)
    && !IsPending(s, a)
  }

  /** The account numbers went round. */
  predicate WrapsAround(e: Effect) {
    e.NumberWrite? && FromBigEndian(e.last) + 1 == Pow256(32)
  }

  /** From effect `from` on, the account migrated or the numbers went round. */
  ghost predicate Excused(effects: seq<Effect>, from: nat, a: AccountId) {
    exists i :: from <= i < |effects| && (effects[i] == CodeWrite(a, Migration(a)) || WrapsAround(effects[i]))
  }

  ghost predicate KeepsCode(w: World, a: AccountId, s: Snap, t: Snap) {
    && s.effects <= t.effects
    && (Settled(w, s, a) ==>
          Excused(t.effects, |s.effects|, a) || (Settled(w, t, a) && CodeIdOf(w, t.overlay, a) == CodeIdOf(w, s.overlay, a)))
  }

  ghost function KeepingCode(w: World, a: AccountId): Relation {
    (s: Snap, m: Meter, t: Snap, n: Meter) => KeepsCode(w, a, s, t)
  }

  /** A write to another key, recorded by an effect that numbers nothing. */
  lemma OtherWriteKeepsCode(w: World, a: AccountId, s: Snap, key: Key, entry: Option<Value>, e: Effect)
    requires key != CodeKey(a) && key != NumberKey() && !e.NumberWrite?
    ensures KeepsCode(w, a, s, Write(s, key, entry, e).snap)
  {
  }

  lemma NumberWriteKeepsCode(w: World, a: AccountId, s: Snap, entry: Option<Value>, e: Effect)
    requires e.NumberWrite? && Justified(w, s, entry, e)
    ensures KeepsCode(w, a, s, Write(s, NumberKey(), entry, e).snap)
  {
    var t := Write(s, NumberKey(), entry, e).snap;
    IncreaseAddsOne(e.last);
    NamespacesAreDisjoint(a, [], a);
    assert |t.effects| > |s.effects| ==> t.effects[|s.effects|] == e;
    assert NumberKey() != CodeKey(a);
  }

  lemma CodeWriteKeepsCode(w: World, a: AccountId, s: Snap, entry: Option<Value>, e: Effect)
    requires e.CodeWrite? && Sound(e) && Justified(w, s, entry, e)
    ensures KeepsCode(w, a, s, Write(s, CodeKey(e.account), entry, e).snap)
  {
    var t := Write(s, CodeKey(e.account), entry, e).snap;
    NamespacesAreDisjoint(a, [], e.account);
    assert CodeKey(e.account) != NumberKey();
    assert |t.effects| > |s.effects| ==> t.effects[|s.effects|] == e;
    if e.account != a {
      OtherWriteKeepsCode(w, a, s, CodeKey(e.account), entry, e);
    }
  }

  lemma WriteKeepsCode(w: World, a: AccountId, s: Snap, key: Key, entry: Option<Value>, e: Effect)
    requires WritesTo(e, key) && Sound(e) && Justified(w, s, entry, e)
    ensures KeepsCode(w, a, s, Write(s, key, entry, e).snap)
  {
    match e
    case StorageWrite(writer, _) =>
      NamespacesAreDisjoint(a, [], writer);
      OtherWriteKeepsCode(w, a, s, key, entry, e);
    case NumberWrite(_) => NumberWriteKeepsCode(w, a, s, entry, e);
    case CodeWrite(_, _) => CodeWriteKeepsCode(w, a, s, entry, e);
  }

  lemma KeepsCodeTransitive(w: World, a: AccountId, s: Snap, t: Snap, u: Snap)
    requires KeepsCode(w, a, s, t) && KeepsCode(w, a, t, u)
    ensures KeepsCode(w, a, s, u)
  {
    hide Settled, CodeIdOf;
    if Excused(t.effects, |s.effects|, a) {
      var i :| |s.effects| <= i < |t.effects| && (t.effects[i] == CodeWrite(a, Migration(a)) || WrapsAround(t.effects[i]));
      assert u.effects[i] == t.effects[i];
    }
  }

  lemma KeepingCodeIsClosed(w: World, a: AccountId)
    ensures Closed(w, KeepingCode(w, a)) && AllowsPop(KeepingCode(w, a))
  {
    hide KeepsCode, Write;
    var rel := KeepingCode(w, a);
    forall s, m, t, n, u, o | rel(s, m, t, n) && rel(t, n, u, o) ensures rel(s, m, u, o) {
      KeepsCodeTransitive(w, a, s, t, u);
    }
    forall s, m, n ensures rel(s, m, s, n) {
      IdleKeepsCode(w, a, s, s);
    }
    forall s, m, t, n | rel(s, m, t, n) ensures rel(s, m, RolledBack(s, t), n) {
      IdleKeepsCode(w, a, s, RolledBack(s, t));
    }
    forall s, key, entry, effect, m | WritesTo(effect, key) && Sound(effect) && Justified(w, s, entry, effect)
      ensures rel(s, m, Write(s, key, entry, effect).snap, m)
    {
      WriteKeepsCode(w, a, s, key, entry, effect);
    }
    forall x, name, data, s, m ensures rel(s, m, EmitEvent(x, name, data, s, m).snap, m) {
      IdleKeepsCode(w, a, s, EmitEvent(x, name, data, s, m).snap);
    }
    forall x, s, m ensures rel(s, m, IssueId(x, s, m).snap, m) {
      IssueIdKeepsCode(w, a, x, s, m);
    }
    forall s, account, code, m ensures rel(s, m, Entered(s, account, code), m) {
      EnteringKeepsCode(w, a, s, account, code);
    }
    forall s: Snap, m ensures rel(s, m, s.(events := []), m) {
      IdleKeepsCode(w, a, s, s.(events := []));
    }
  }

  lemma IdleKeepsCode(w: World, a: AccountId, s: Snap, t: Snap)
    requires t == s.(events := t.events, full := t.full)
    ensures KeepsCode(w, a, s, t)
  {
  }

  lemma EnteringKeepsCode(w: World, a: AccountId, s: Snap, account: AccountId, code: CodeId)
    ensures KeepsCode(w, a, s, Entered(s, account, code))
  {
  }

  lemma IssueIdKeepsCode(w: World, a: AccountId, x: Ctx, s: Snap, m: Meter)
    ensures KeepsCode(w, a, s, IssueId(x, s, m).snap)
  {
  }

  // ---------------------------------------------------------------------------------------
  // Calls and blocks

  /**
   * Whatever a call does, a settled account has the code it had, unless it asked for a migration
   * that was not rolled back, or the account numbers went round.
   */
  lemma CallKeepsCode(w: World, a: AccountId, x: Ctx, to: AccountId, request: Request, funds: seq<Asset>, s: Snap, m: Meter)
    requires x.depth <= MAX_CALL_DEPTH && Settled(w, s, a)
    ensures var t := DoExec(w, x, to, request, funds, s, m).snap;
            CodeIdOf(w, t.overlay, a) == CodeIdOf(w, s.overlay, a) || Excused(t.effects, |s.effects|, a)
  {
    hide Closed, DoExec;
    KeepingCodeIsClosed(w, a);
    DoExecIn(KeepingCode(w, a), w, x, to, request, funds, s, m);
  }

  /** The same for a whole block. */
  lemma BlockKeepsCode(stf: Stf, w: World, block: Block, a: AccountId)
    requires Settled(w, Fresh(), a)
    ensures var t := FinalSnap(stf, w, block, Fresh());
            CodeIdOf(w, t.overlay, a) == CodeIdOf(w, map[], a) || Excused(t.effects, 0, a)
  {
    hide Closed, AllowsPop, FinalSnap, TxExecutor;
    var rel := KeepingCode(w, a);
    KeepingCodeIsClosed(w, a);
    forall tx, s ensures rel(s, Infinite, TxExecutor(stf, w, block.context)(tx, s).snap, Infinite) {
      TxKeepsCode(stf, w, block.context, a, tx, s);
    }
    BlockIn(rel, stf, w, block, Fresh());
  }

  lemma TxKeepsCode(stf: Stf, w: World, b: BlockContext, a: AccountId, tx: Tx, s: Snap)
    ensures KeepsCode(w, a, s, TxExecutor(stf, w, b)(tx, s).snap)
  {
    hide Closed, AllowsPop, RunTx, KeepsCode;
    KeepingCodeIsClosed(w, a);
    RunTxIn(KeepingCode(w, a), stf, w, tx, b, s);
  }

  // ---------------------------------------------------------------------------------------
  // An account that is not settled

  ghost predicate RoundTrips(w: World, codeId: CodeId) {
    w.decodeCode(w.encodeCode(codeId)) == Ok(codeId)
  }

  /** Code that can be created and does nothing when it is. */
  ghost predicate IsQuiet(w: World, codeId: CodeId) {
    && RoundTrips(w, codeId)
    && FindCode(w, codeId).Ok?
    && forall env, request :: FindCode(w, codeId).value.init(env, request).next([]) == Return(Ok(Empty))
  }

  /** What the init code of a created account starts from: the number is taken and the code is set. */
  function AtInit(w: World, s: Snap, codeId: CodeId): Snap
    requires LastNumber(w, s.overlay).Ok?
  {
    var a := LastNumber(w, s.overlay).value;
    Entered(SetCodeId(w, NextAccountNumber(w, s).snap, a, codeId, NewAccount).snap, a, codeId)
  }

  /**
   * `create_account` gives its code to the account of the next number, whoever has that id already,
   * and to no other; then the init code of that code runs, for the account.
   */
  lemma CreateSetsCode(w: World, x: Ctx, codeId: CodeId, init: Bytes, funds: seq<Asset>, s: Snap, m: Meter, a: AccountId)
    requires x.depth < MAX_CALL_DEPTH && RoundTrips(w, codeId) && CreateNew(w, x, codeId, init, funds, s, m).reply.Ok?
    ensures LastNumber(w, s.overlay).Ok? && FindCode(w, codeId).Ok?
    ensures CodeIdOf(w, AtInit(w, s, codeId).overlay, a) ==
            if LastNumber(w, s.overlay).value == a then Ok(Some(codeId)) else CodeIdOf(w, s.overlay, a)
    ensures var created := LastNumber(w, s.overlay).value;
            var p := FindCode(w, codeId).value.init(Env(created, x.whoami, funds, x.block), Request(0, init));
            var o := Run(w, Ctx(created, x.whoami, funds, x.scope, x.depth + 1, x.block), p, [], AtInit(w, s, codeId), m);
            o.reply.Ok? && CreateNew(w, x, codeId, init, funds, s, m) == o.(reply := Ok(Created(created, o.reply.value)))
  {
    hide CodeIdOf, NextAccountNumber, SetCodeId, Install, Run;
    NumberingKeepsCodes(w, s, a);
    var n := NextAccountNumber(w, s);
    InstallRuns(w, x, n.result.value, codeId, init, funds, n.snap, m);
    SetCodeReads(w, n.snap, n.result.value, codeId, NewAccount, a);
  }

  lemma NumberingKeepsCodes(w: World, s: Snap, a: AccountId)
    ensures CodeIdOf(w, NextAccountNumber(w, s).snap.overlay, a) == CodeIdOf(w, s.overlay, a)
    ensures NextAccountNumber(w, s).result.Ok? ==> LastNumber(w, s.overlay) == NextAccountNumber(w, s).result
  {
    assert NumberKey() != CodeKey(a);
  }

  lemma SetCodeReads(w: World, s: Snap, account: AccountId, codeId: CodeId, cause: Cause, a: AccountId)
    requires RoundTrips(w, codeId) && SetCodeId(w, s, account, codeId, cause).result.Ok?
    ensures CodeIdOf(w, SetCodeId(w, s, account, codeId, cause).snap.overlay, a) ==
            if account == a then Ok(Some(codeId)) else CodeIdOf(w, s.overlay, a)
  {
    NamespacesAreDisjoint(a, [], account);
  }

  lemma InstallRuns(w: World, x: Ctx, account: AccountId, codeId: CodeId, init: Bytes, funds: seq<Asset>, s: Snap, m: Meter)
    requires x.depth < MAX_CALL_DEPTH && RoundTrips(w, codeId) && Install(w, x, account, codeId, init, funds, s, m).reply.Ok?
    ensures SetCodeId(w, s, account, codeId, NewAccount).result.Ok? && FindCode(w, codeId).Ok?
    ensures var p := FindCode(w, codeId).value.init(Env(account, x.whoami, funds, x.block), Request(0, init));
            var t := Entered(SetCodeId(w, s, account, codeId, NewAccount).snap, account, codeId);
            var o := Run(w, Ctx(account, x.whoami, funds, x.scope, x.depth + 1, x.block), p, [], t, m);
            o.reply.Ok? && Install(w, x, account, codeId, init, funds, s, m) == o.(reply := Ok(Created(account, o.reply.value)))
  {
    hide SetCodeId, CodeIdOf, Run;
    var r := SetCodeId(w, s, account, codeId, NewAccount);
    assert r.result.Ok?;
    SetCodeReads(w, s, account, codeId, NewAccount, account);
  }

  /**
   * So an existing account loses its code to a creation, before the init code runs, exactly when its
   * id is the next account number.
   */
  lemma CreateTakesCodeIff(w: World, x: Ctx, codeId: CodeId, init: Bytes, funds: seq<Asset>, s: Snap, m: Meter, a: AccountId)
    requires x.depth < MAX_CALL_DEPTH && RoundTrips(w, codeId) && CreateNew(w, x, codeId, init, funds, s, m).reply.Ok?
    requires CodeIdOf(w, s.overlay, a).Ok? && CodeIdOf(w, s.overlay, a).value.Some? && CodeIdOf(w, s.overlay, a).value != Some(codeId)
    ensures LastNumber(w, s.overlay).Ok?
    ensures CodeIdOf(w, AtInit(w, s, codeId).overlay, a) != CodeIdOf(w, s.overlay, a) <==> LastNumber(w, s.overlay) == Ok(a)
  {
    hide CreateNew, CodeIdOf, LastNumber, AtInit, Run;
    CreateSetsCode(w, x, codeId, init, funds, s, m, a);
  }

  lemma AtInitIsSettled(w: World, s: Snap, codeId: CodeId, a: AccountId)
    requires LastNumber(w, s.overlay) == Ok(a) && FromBigEndian(a) + 1 < Pow256(32)
    requires CodeIdOf(w, AtInit(w, s, codeId).overlay, a) == Ok(Some(codeId))
    requires NextAccountNumber(w, s).result.Ok? && SetCodeId(w, NextAccountNumber(w, s).snap, a, codeId, NewAccount).result.Ok?
    ensures Settled(w, AtInit(w, s, codeId), a) && s.effects <= AtInit(w, s, codeId).effects
  {
    hide CodeIdOf;
    IncreaseAddsOne(a);
    NamespacesAreDisjoint(a, [], a);
    assert NumberKey() != CodeKey(a);
  }

  /** The account of the next number has the created code when the creation is over, whatever its init code did short of a migration. */
  lemma CreatedKeepsCode(w: World, x: Ctx, codeId: CodeId, init: Bytes, funds: seq<Asset>, s: Snap, m: Meter, a: AccountId)
    requires x.depth < MAX_CALL_DEPTH && RoundTrips(w, codeId) && CreateNew(w, x, codeId, init, funds, s, m).reply.Ok?
    requires LastNumber(w, s.overlay) == Ok(a) && FromBigEndian(a) + 1 < Pow256(32)
    ensures var t := CreateNew(w, x, codeId, init, funds, s, m).snap;
            CodeIdOf(w, t.overlay, a) == Ok(Some(codeId)) || Excused(t.effects, |s.effects|, a)
  {
    hide CodeIdOf, LastNumber, AtInit, Run, Closed, Settled, Install, NextAccountNumber, SetCodeId;
    CreateSetsCode(w, x, codeId, init, funds, s, m, a);
    NumberingKeepsCodes(w, s, a);
    InstallRuns(w, x, a, codeId, init, funds, NextAccountNumber(w, s).snap, m);
    AtInitIsSettled(w, s, codeId, a);
    KeepingCodeIsClosed(w, a);
    var child := x.Branch(a, funds);
    RunIn(KeepingCode(w, a), w, child, FindCode(w, codeId).value.init(child.View(), Request(0, init)), [], AtInit(w, s, codeId), m);
  }

  /**
   * `register_account_at_id` can put an account at the next number, and the creation after it takes
   * the account over: registered with one code, it ends with the other.
   */
  lemma RegisteredThenTaken(w: World, x: Ctx, first: CodeId, init1: Bytes, y: Ctx, second: CodeId, init2: Bytes,
                            funds: seq<Asset>, s: Snap, m: Meter, n: Meter, a: AccountId)
    requires x.depth < MAX_CALL_DEPTH && y.depth < MAX_CALL_DEPTH
    requires LastNumber(w, s.overlay) == Ok(a) && CodeIdOf(w, s.overlay, a) == Ok(None)
    requires IsQuiet(w, first) && IsQuiet(w, second) && first != second
    requires RegisterAt(w, x, a, first, init1, s, m).reply.Ok?
    requires CreateNew(w, y, second, init2, funds, RegisterAt(w, x, a, first, init1, s, m).snap, n).reply.Ok?
    ensures var t := RegisterAt(w, x, a, first, init1, s, m).snap;
            && CodeIdOf(w, t.overlay, a) == Ok(Some(first)) && LastNumber(w, t.overlay) == Ok(a)
            && CodeIdOf(w, CreateNew(w, y, second, init2, funds, t, n).snap.overlay, a) == Ok(Some(second))
  {
    hide CodeIdOf, CreateNew, AtInit, LastNumber;
    QuietRegistration(w, x, a, first, init1, s, m);
    var t := RegisterAt(w, x, a, first, init1, s, m).snap;
    CreateSetsCode(w, y, second, init2, funds, t, n, a);
  }

  lemma QuietRegistration(w: World, x: Ctx, a: AccountId, codeId: CodeId, init: Bytes, s: Snap, m: Meter)
    requires x.depth < MAX_CALL_DEPTH && IsQuiet(w, codeId) && CodeIdOf(w, s.overlay, a) == Ok(None)
    requires RegisterAt(w, x, a, codeId, init, s, m).reply.Ok?
    ensures var t := RegisterAt(w, x, a, codeId, init, s, m).snap;
            CodeIdOf(w, t.overlay, a) == Ok(Some(codeId)) && LastNumber(w, t.overlay) == LastNumber(w, s.overlay)
  {
    hide CodeIdOf, LastNumber, SetCodeId, InstallAt;
    QuietInstallAt(w, x, a, codeId, init, s, ConsumeSet(m, CodeKey(a), w.encodeCode(codeId)).meter);
    SetCodeReads(w, s, a, codeId, Registration, a);
    SettingKeepsNumber(w, s, a, codeId, Registration);
  }

  lemma QuietInstallAt(w: World, x: Ctx, a: AccountId, codeId: CodeId, init: Bytes, s: Snap, m: Meter)
    requires x.depth < MAX_CALL_DEPTH && IsQuiet(w, codeId) && InstallAt(w, x, a, codeId, init, s, m).reply.Ok?
    ensures SetCodeId(w, s, a, codeId, Registration).result.Ok?
    ensures InstallAt(w, x, a, codeId, init, s, m).snap == Entered(SetCodeId(w, s, a, codeId, Registration).snap, a, codeId)
  {
    hide SetCodeId;
  }

  lemma SettingKeepsNumber(w: World, s: Snap, a: AccountId, codeId: CodeId, cause: Cause)
    ensures LastNumber(w, SetCodeId(w, s, a, codeId, cause).snap.overlay) == LastNumber(w, s.overlay)
  {
    assert NumberKey() != CodeKey(a);
  }
}
