/**
 * Induction over trees of calls.  A relation between the state and gas before and after that every
 * primitive step keeps, that composes, and that a rollback keeps, holds of every program run, every
 * call with its transfers, every account creation, registration and migration, every transaction
 * phase: whatever the account codes do.  One account may be barred: then the relation need not allow
 * its storage writes, as long as it allows anything once code of that account runs.
 */
module CallInduction {
  import opened Types
  import opened Gas
  import opened ExecState
  import opened Programs
  import opened Snapshot

  ghost predicate MeterGrows(m: Meter, n: Meter) {
    && (m.Infinite? <==> n.Infinite?)
    && (m.Finite? ==> n.limit == m.limit && n.config == m.config && m.used <= n.used)
    && (m.WithinLimit() ==> n.WithinLimit())
  }

  predicate WritesTo(e: Effect, key: Key) {
    match e
    case StorageWrite(_, k) => k == key
    case NumberWrite(_) => NumberKey() == key
    case CodeWrite(account, _) => CodeKey(account) == key
    case CodeRun(_, _) => false
    case IdIssued(_, _, _) => false
  }

  /** A storage write stays in its writer's namespace; an account migrates only itself. */
  predicate Sound(e: Effect) {
    match e
    case StorageWrite(writer, key) => InNamespace(writer, key)
    case NumberWrite(_) => true
    case CodeWrite(account, cause) => cause.Migration? ==> cause.asker == account
    case CodeRun(_, _) => true
    case IdIssued(scope, counter, id) => UniqueId(scope, counter) == Ok(id)
  }

  /** The state a system write is made in: numbers go up by one, and only an account without code is registered. */
  predicate Justified(w: World, s: Snap, entry: Option<Value>, e: Effect) {
    match e
    case NumberWrite(last) => LastNumber(w, s.overlay) == Ok(last) && entry == Some(Increase(last))
    case CodeWrite(account, NewAccount) => s.effects != [] && s.effects[|s.effects| - 1] == NumberWrite(account)
    case CodeWrite(account, Registration) => CodeIdOf(w, s.overlay, account) == Ok(None)
    case _ => true
  }

  type Relation = (Snap, Meter, Snap, Meter) -> bool

  ghost predicate Composes(rel: Relation) {
    forall s, m, t, n, u, o :: rel(s, m, t, n) && rel(t, n, u, o) ==> rel(s, m, u, o)
  }

  /** Gas may be spent, and a state may be rolled back to where it was. */
  ghost predicate AllowsIdle(rel: Relation) {
    && (forall s, m, n :: MeterGrows(m, n) ==> rel(s, m, s, n))
    && (forall s, m, t, n :: rel(s, m, t, n) ==> rel(s, m, RolledBack(s, t), n))
  }

  /** Writes of every account but one, if one is barred. */
  ghost predicate AllowsWrites(w: World, rel: Relation, bar: Option<AccountId>) {
    forall s, key, entry, effect, m ::
      WritesTo(effect, key) && Sound(effect) && Justified(w, s, entry, effect) && !(effect.StorageWrite? && bar == Some(effect.writer))
      ==> rel(s, m, Write(s, key, entry, effect).snap, m)
  }

  ghost predicate AllowsEvents(rel: Relation) {
    forall x, name, data, s, m :: rel(s, m, EmitEvent(x, name, data, s, m).snap, m)
  }

  ghost predicate AllowsIds(rel: Relation) {
    forall x, s, m :: rel(s, m, IssueId(x, s, m).snap, m)
  }

  /** The code stored for the account. */
  ghost predicate HasCode(w: World, o: Overlay, account: AccountId, code: CodeId) {
    || CodeIdOf(w, o, account) == Ok(Some(code))
    || Lookup(w.base, o, CodeKey(account)) == Ok(Some(w.encodeCode(code)))
  }

  ghost predicate AllowsRuns(w: World, rel: Relation) {
    forall s: Snap, account, code, m :: HasCode(w, s.overlay, account, code) ==> rel(s, m, Entered(s, account, code), m)
  }

  /** Once the code of the barred account runs, anything may follow. */
  ghost predicate AllowsOwnRuns(w: World, rel: Relation, a: AccountId) {
    forall s: Snap, m, t: Snap, n, code ::
      HasCode(w, s.overlay, a, code) && Entered(s, a, code).effects <= t.effects && MeterGrows(m, n) ==> rel(s, m, t, n)
  }

  ghost predicate Closed(w: World, rel: Relation, bar: Option<AccountId> := None) {
    && Composes(rel) && AllowsIdle(rel) && AllowsWrites(w, rel, bar) && AllowsEvents(rel) && AllowsIds(rel) && AllowsRuns(w, rel)
    && (bar.Some? ==> bar.value != RuntimeAccount() && AllowsOwnRuns(w, rel, bar.value))
  }

  /** What happened is not forgotten, and gas is not given back. */
  ghost function Growth(): Relation {
    (s: Snap, m: Meter, t: Snap, n: Meter) => s.effects <= t.effects && MeterGrows(m, n)
  }

  lemma GrowthIsClosed(w: World)
    ensures Closed(w, Growth())
  {
    var rel := Growth();
    forall s, key, entry, effect, m ensures rel(s, m, Write(s, key, entry, effect).snap, m) {
      assert s.effects <= Write(s, key, entry, effect).snap.effects;
    }
    forall x, name, data, s, m ensures rel(s, m, EmitEvent(x, name, data, s, m).snap, m) {
    }
    forall x, s, m ensures rel(s, m, IssueId(x, s, m).snap, m) {
      assert s.effects <= IssueId(x, s, m).snap.effects;
    }
    forall s, account, code, m ensures rel(s, m, Entered(s, account, code), m) {
      assert s.effects <= Entered(s, account, code).effects;
    }
  }

  predicate NoStorageAsset(funds: seq<Asset>) {
    forall i :: 0 <= i < |funds| ==> funds[i].assetId != StorageAccount()
  }

  // ---------------------------------------------------------------------------------------
  // Steps that make no call

  lemma StorageExecIn(rel: Relation, w: World, x: Ctx, request: Request, s: Snap, m: Meter, bar: Option<AccountId> := None)
    requires Closed(w, rel, bar)
    requires bar != Some(x.whoami)
    ensures var o := StorageExec(w, x, request, s, m); rel(s, m, o.snap, o.meter)
  {
    var o := StorageExec(w, x, request, s, m);
    var call := w.asStorage(request);
    assert rel(s, m, s, o.meter);
    if call.Put? || call.Delete? {
      var k := StorageKey(x.whoami, call.key);
      NamespacesAreDisjoint(x.whoami, call.key, x.whoami);
      var entry := if call.Put? then Some(call.value) else None;
      assert rel(s, o.meter, Write(s, k, entry, StorageWrite(x.whoami, k)).snap, o.meter);
    }
  }

  lemma {:induction false} RunQueryGrows(w: World, o: Overlay, p: QueryProgram, history: seq<Reply>, m: Meter)
    ensures MeterGrows(m, RunQuery(w, o, p, history, m).meter)
    decreases p.steps - |history|
  {
    var action := p.next(history);
    if !action.Answer? {
      var a := PerformQuery(w, o, action, m);
      RunQueryGrows(w, o, p, history + [a.reply], a.meter);
    }
  }

  lemma DoQueryGrows(w: World, x: Ctx, to: AccountId, request: Request, o: Overlay, m: Meter)
    ensures MeterGrows(m, DoQuery(w, x, to, request, o, m).meter)
  {
    if to != RuntimeAccount() && to != StorageAccount() {
      match ResolveCode(w, o, to) {
        case Err(_) =>
        case Ok(code) => RunQueryGrows(w, o, code.query(Env(to, RuntimeAccount(), [], x.block), request), [], m);
      }
    }
  }

  lemma SetCodeIdIn(rel: Relation, w: World, s: Snap, account: AccountId, id: CodeId, cause: Cause, m: Meter, bar: Option<AccountId> := None)
    requires Closed(w, rel, bar) && Sound(CodeWrite(account, cause))
    requires Justified(w, s, Some(w.encodeCode(id)), CodeWrite(account, cause))
    ensures rel(s, m, SetCodeId(w, s, account, id, cause).snap, m)
  {
    assert WritesTo(CodeWrite(account, cause), CodeKey(account));
  }

  lemma NextAccountNumberIn(rel: Relation, w: World, s: Snap, m: Meter, bar: Option<AccountId> := None)
    requires Closed(w, rel, bar)
    ensures rel(s, m, NextAccountNumber(w, s).snap, m)
  {
    assert rel(s, m, s, m);
    if LastNumber(w, s.overlay).Ok? {
      var last := LastNumber(w, s.overlay).value;
      assert WritesTo(NumberWrite(last), NumberKey()) && Justified(w, s, Some(Increase(last)), NumberWrite(last));
    }
  }

  /** The account was just numbered. */
  predicate IsPending(s: Snap, account: AccountId) {
    s.effects != [] && s.effects[|s.effects| - 1] == NumberWrite(account)
  }

  lemma NumberedIsPending(w: World, s: Snap)
    requires NextAccountNumber(w, s).result.Ok?
    ensures IsPending(NextAccountNumber(w, s).snap, NextAccountNumber(w, s).result.value)
  {
  }

  // ---------------------------------------------------------------------------------------
  // Calls, by induction on the depth left and the steps left

  lemma {:induction false} RunIn(rel: Relation, w: World, x: Ctx, p: Program, history: seq<Reply>, s: Snap, m: Meter,
                                 bar: Option<AccountId> := None)
    requires Closed(w, rel, bar) && x.depth <= MAX_CALL_DEPTH
    requires bar != Some(x.whoami)
    ensures var o := Run(w, x, p, history, s, m); rel(s, m, o.snap, o.meter)
    decreases MAX_CALL_DEPTH + 1 - x.depth, 2, p.steps - |history|
  {
    assert rel(s, m, s, m);
    var action := p.next(history);
    if !action.Return? {
      var o := Perform(w, x, action, s, m);
      PerformIn(rel, w, x, action, s, m, bar);
      RunIn(rel, w, x, p, history + [o.reply], o.snap, o.meter, bar);
    }
  }

  /** A run of an account's own code. */
  lemma {:induction false} CodeRunIn(rel: Relation, w: World, account: AccountId, code: CodeId, x: Ctx, p: Program,
                                     s: Snap, m: Meter, bar: Option<AccountId> := None)
    requires Closed(w, rel, bar) && x.depth <= MAX_CALL_DEPTH && x.whoami == account && HasCode(w, s.overlay, account, code)
    ensures var o := Run(w, x, p, [], Entered(s, account, code), m); rel(s, m, o.snap, o.meter)
    decreases MAX_CALL_DEPTH + 1 - x.depth, 3
  {
    var t := Entered(s, account, code);
    if bar == Some(account) {
      GrowthIsClosed(w);
      RunIn(Growth(), w, x, p, [], t, m);
    } else {
      assert rel(s, m, t, m);
      RunIn(rel, w, x, p, [], t, m, bar);
    }
  }

  lemma {:induction false} PerformIn(rel: Relation, w: World, x: Ctx, action: Action, s: Snap, m: Meter, bar: Option<AccountId> := None)
    requires Closed(w, rel, bar) && x.depth <= MAX_CALL_DEPTH && !action.Return?
    requires bar != Some(x.whoami)
    ensures var o := Perform(w, x, action, s, m); rel(s, m, o.snap, o.meter)
    decreases MAX_CALL_DEPTH + 1 - x.depth, 1
  {
    match action
    case Exec(to, request, funds) => DoExecIn(rel, w, x, to, request, funds, s, m, bar);
    case Query(to, request) => DoQueryGrows(w, x, to, request, s.overlay, m);
    case Emit(name, data) =>
    case FreshId =>
  }

  lemma {:induction false} DoExecIn(rel: Relation, w: World, x: Ctx, to: AccountId, request: Request, funds: seq<Asset>,
                                    s: Snap, m: Meter, bar: Option<AccountId> := None)
    requires Closed(w, rel, bar) && x.depth <= MAX_CALL_DEPTH
    requires bar == Some(x.whoami) ==> to != StorageAccount() && NoStorageAsset(funds)
    ensures var o := DoExec(w, x, to, request, funds, s, m); rel(s, m, o.snap, o.meter)
    decreases MAX_CALL_DEPTH + 1 - x.depth, 0, 5
  {
    assert rel(s, m, s, m);
    if x.depth < MAX_CALL_DEPTH {
      var t := Transfers(w, x, to, funds, s, m);
      TransfersIn(rel, w, x, to, funds, s, m, bar);
      if t.reply.Ok? {
        DispatchIn(rel, w, x, to, request, funds, t.snap, t.meter, bar);
      }
    }
  }

  lemma {:induction false} TransfersIn(rel: Relation, w: World, x: Ctx, to: AccountId, funds: seq<Asset>, s: Snap, m: Meter,
                                       bar: Option<AccountId> := None)
    requires Closed(w, rel, bar) && x.depth < MAX_CALL_DEPTH
    requires bar == Some(x.whoami) ==> NoStorageAsset(funds)
    ensures var o := Transfers(w, x, to, funds, s, m); rel(s, m, o.snap, o.meter)
    decreases MAX_CALL_DEPTH + 1 - x.depth, 0, 4, |funds| + 1
  {
    assert rel(s, m, s, m);
    TransferEachIn(rel, w, x, to, funds, s, m, bar);
  }

  lemma {:induction false} TransferEachIn(rel: Relation, w: World, x: Ctx, to: AccountId, funds: seq<Asset>, s: Snap, m: Meter,
                                          bar: Option<AccountId> := None)
    requires Closed(w, rel, bar) && x.depth < MAX_CALL_DEPTH
    requires bar == Some(x.whoami) ==> NoStorageAsset(funds)
    ensures var o := TransferEach(w, x, to, funds, s, m); rel(s, m, o.snap, o.meter)
    decreases MAX_CALL_DEPTH + 1 - x.depth, 0, 4, |funds|
  {
    assert rel(s, m, s, m);
    if funds != [] {
      var transfer := w.transfer(to, funds[0].amount);
      var o := Dispatch(w, x, funds[0].assetId, transfer, [], s, m);
      DispatchIn(rel, w, x, funds[0].assetId, transfer, [], s, m, bar);
      if o.reply.Ok? {
        TransferEachIn(rel, w, x, to, funds[1..], o.snap, o.meter, bar);
      }
    }
  }

  lemma {:induction false} DispatchIn(rel: Relation, w: World, x: Ctx, to: AccountId, request: Request, funds: seq<Asset>,
                                      s: Snap, m: Meter, bar: Option<AccountId> := None)
    requires Closed(w, rel, bar) && x.depth < MAX_CALL_DEPTH
    requires bar == Some(x.whoami) ==> to != StorageAccount()
    ensures var o := Dispatch(w, x, to, request, funds, s, m); rel(s, m, o.snap, o.meter)
    decreases MAX_CALL_DEPTH + 1 - x.depth, 0, 3
  {
    assert rel(s, m, s, m);
    if to == RuntimeAccount() {
      SystemExecIn(rel, w, x, request, funds, s, m, bar);
    } else if to == StorageAccount() {
      StorageExecIn(rel, w, x, request, s, m, bar);
    } else if ResolveCode(w, s.overlay, to).Ok? {
      var child, code := x.Branch(to, funds), CodeIdOf(w, s.overlay, to).value.value;
      CodeRunIn(rel, w, to, code, child, FindCode(w, code).value.execute(child.View(), request), s, m, bar);
    }
  }

  lemma {:induction false} SystemExecIn(rel: Relation, w: World, x: Ctx, request: Request, funds: seq<Asset>, s: Snap, m: Meter,
                                        bar: Option<AccountId> := None)
    requires Closed(w, rel, bar) && x.depth < MAX_CALL_DEPTH
    ensures var o := SystemExec(w, x, request, funds, s, m); rel(s, m, o.snap, o.meter)
    decreases MAX_CALL_DEPTH + 1 - x.depth, 0, 2
  {
    assert rel(s, m, s, m);
    match w.asSystem(request)
    case CreateAccount(codeId, init) => CreateNewIn(rel, w, x, codeId, init, funds, s, m, bar);
    case RegisterAccountAtId(account, codeId, init) => RegisterAtIn(rel, w, x, account, codeId, init, s, m, bar);
    case Migrate(account, newCode, message) => MigrateIn(rel, w, x, account, newCode, message, funds, s, m, bar);
    case _ =>
  }

  lemma {:induction false} CreateNewIn(rel: Relation, w: World, x: Ctx, codeId: CodeId, init: Bytes, funds: seq<Asset>,
                                       s: Snap, m: Meter, bar: Option<AccountId> := None)
    requires Closed(w, rel, bar) && x.depth < MAX_CALL_DEPTH
    ensures var o := CreateNew(w, x, codeId, init, funds, s, m); rel(s, m, o.snap, o.meter)
    decreases MAX_CALL_DEPTH + 1 - x.depth, 0, 1
  {
    assert rel(s, m, s, m);
    var n := NextAccountNumber(w, s);
    NextAccountNumberIn(rel, w, s, m, bar);
    if n.result.Ok? {
      InstallIn(rel, w, x, n.result.value, codeId, init, funds, n.snap, m, bar);
    }
  }

  lemma {:induction false} InstallIn(rel: Relation, w: World, x: Ctx, account: AccountId, codeId: CodeId, init: Bytes,
                                     funds: seq<Asset>, s: Snap, m: Meter, bar: Option<AccountId> := None)
    requires Closed(w, rel, bar) && x.depth < MAX_CALL_DEPTH && IsPending(s, account)
    ensures var o := Install(w, x, account, codeId, init, funds, s, m); rel(s, m, o.snap, o.meter)
    decreases MAX_CALL_DEPTH + 1 - x.depth, 0, 0
  {
    var t := SetCodeId(w, s, account, codeId, NewAccount).snap;
    SetCodeIdIn(rel, w, s, account, codeId, NewAccount, m, bar);
    if ResolveCode(w, t.overlay, account).Ok? {
      var child, code := x.Branch(account, funds), CodeIdOf(w, t.overlay, account).value.value;
      CodeRunIn(rel, w, account, code, child, FindCode(w, code).value.init(child.View(), Request(0, init)), t, m, bar);
    }
  }

  lemma {:induction false} RegisterAtIn(rel: Relation, w: World, x: Ctx, account: AccountId, codeId: CodeId, init: Bytes,
                                        s: Snap, m: Meter, bar: Option<AccountId> := None)
    requires Closed(w, rel, bar) && x.depth < MAX_CALL_DEPTH
    ensures var o := RegisterAt(w, x, account, codeId, init, s, m); rel(s, m, o.snap, o.meter)
    decreases MAX_CALL_DEPTH + 1 - x.depth, 0, 1
  {
    var n := ConsumeSet(m, CodeKey(account), w.encodeCode(codeId)).meter;
    assert rel(s, m, s, m) && rel(s, m, s, n);
    if CodeIdOf(w, s.overlay, account) == Ok(None) {
      InstallAtIn(rel, w, x, account, codeId, init, s, n, bar);
    }
  }

  lemma {:induction false} InstallAtIn(rel: Relation, w: World, x: Ctx, account: AccountId, codeId: CodeId, init: Bytes,
                                       s: Snap, m: Meter, bar: Option<AccountId> := None)
    requires Closed(w, rel, bar) && x.depth < MAX_CALL_DEPTH && CodeIdOf(w, s.overlay, account) == Ok(None)
    ensures var o := InstallAt(w, x, account, codeId, init, s, m); rel(s, m, o.snap, o.meter)
    decreases MAX_CALL_DEPTH + 1 - x.depth, 0, 0
  {
    var t := SetCodeId(w, s, account, codeId, Registration).snap;
    SetCodeIdIn(rel, w, s, account, codeId, Registration, m, bar);
    if SetCodeId(w, s, account, codeId, Registration).result.Ok? && FindCode(w, codeId).Ok? {
      var child := x.Branch(account, []);
      CodeRunIn(rel, w, account, codeId, child, FindCode(w, codeId).value.init(child.View(), Request(0, init)), t, m, bar);
    }
  }

  lemma {:induction false} MigrateIn(rel: Relation, w: World, x: Ctx, account: AccountId, newCode: CodeId, message: Request,
                                     funds: seq<Asset>, s: Snap, m: Meter, bar: Option<AccountId> := None)
    requires Closed(w, rel, bar) && x.depth < MAX_CALL_DEPTH
    ensures var o := MigrateAccount(w, x, account, newCode, message, funds, s, m); rel(s, m, o.snap, o.meter)
    decreases MAX_CALL_DEPTH + 1 - x.depth, 0, 1
  {
    assert rel(s, m, s, m);
    if account == x.whoami {
      SwitchIn(rel, w, x.Branch(RuntimeAccount(), []), account, newCode, message, funds, s, m, bar);
    }
  }

  lemma {:induction false} SwitchIn(rel: Relation, w: World, x: Ctx, account: AccountId, newCode: CodeId, message: Request,
                                    funds: seq<Asset>, s: Snap, m: Meter, bar: Option<AccountId> := None)
    requires Closed(w, rel, bar) && x.depth <= MAX_CALL_DEPTH && x.sender == account
    requires bar != Some(x.whoami)
    ensures var o := Switch(w, x, account, newCode, message, funds, s, m); rel(s, m, o.snap, o.meter)
    decreases MAX_CALL_DEPTH + 1 - x.depth, 0, 6
  {
    SetCodeIdIn(rel, w, s, account, newCode, Migration(x.sender), m, bar);
    DoExecIn(rel, w, x, account, message, funds, SetCodeId(w, s, account, newCode, Migration(x.sender)).snap, m, bar);
  }
}
