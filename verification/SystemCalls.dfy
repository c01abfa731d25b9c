/**
 * Registration and migration (crates/app/stf/src/invoker.rs, crates/app/stf/src/handlers.rs): what
 * they store, which code they run and what that code is told.
 */
module SystemCalls {
  import opened Types
  import opened Gas
  import opened ExecState
  import opened Programs
  import opened Snapshot
  import opened CallLaws
  import opened CodeChanges

  /** The stored code of one account is set; every other key reads as before. */
  ghost predicate SetsCode(w: World, s: Snap, t: Snap, account: AccountId, code: CodeId) {
    && CodeIdOf(w, t.overlay, account) == Ok(Some(code))
    && (forall k :: k != CodeKey(account) ==> Lookup(w.base, t.overlay, k) == Lookup(w.base, s.overlay, k))
    && t.events == s.events && t.unique == s.unique
  }

  lemma SetCodeSets(w: World, s: Snap, account: AccountId, code: CodeId, cause: Cause)
    requires RoundTrips(w, code) && SetCodeId(w, s, account, code, cause).result.Ok?
    ensures SetsCode(w, s, SetCodeId(w, s, account, code, cause).snap, account, code)
  {
    SetCodeReads(w, s, account, code, cause, account);
  }

  function RegisterCost(m: Meter, message: Bytes): nat {
    if m.Infinite? then 0 else m.config.setCharge * (33 + |message| + 2)
  }

  lemma RegisterCharge(w: World, account: AccountId, code: CodeId, m: Meter)
    ensures var message := w.encodeCode(code);
            ConsumeSet(m, CodeKey(account), message) ==
            if Affordable(m, RegisterCost(m, message)) then Charged(true, Spent(m, RegisterCost(m, message))) else Charged(false, m)
  {
    hide ConsumeSet;
    if m.Finite? {
      StorageChargesAreExact(m, CodeKey(account), w.encodeCode(code), None);
    } else {
      InfiniteIsFree(m, CodeKey(account), w.encodeCode(code), None);
    }
  }

  /** Registering an account that has code does nothing at all. */
  lemma RegisteredStays(w: World, x: Ctx, account: AccountId, code: CodeId, init: Bytes, s: Snap, m: Meter)
    requires x.depth < MAX_CALL_DEPTH && CodeIdOf(w, s.overlay, account).Ok? && CodeIdOf(w, s.overlay, account).value.Some?
    ensures RegisterAt(w, x, account, code, init, s, m) == Out(Ok(Empty), s, m)
  {
    hide InstallAt;
  }

  /**
   * Registering one that has none: charged for the stored code, then the given code's init runs, told
   * that it is the account and that the caller registers it without funds.
   */
  lemma RegistrationRuns(w: World, x: Ctx, account: AccountId, code: CodeId, init: Bytes, s: Snap, m: Meter) returns (t: Snap)
    requires x.depth < MAX_CALL_DEPTH && RoundTrips(w, code) && CodeIdOf(w, s.overlay, account) == Ok(None)
    requires RegisterAt(w, x, account, code, init, s, m).reply.Ok?
    ensures SetsCode(w, s, t, account, code) && FindCode(w, code).Ok?
    ensures var n := Spent(m, RegisterCost(m, w.encodeCode(code)));
            var p := FindCode(w, code).value.init(Env(account, x.whoami, [], x.block), Request(0, init));
            var o := Run(w, Ctx(account, x.whoami, [], x.scope, x.depth + 1, x.block), p, [], Entered(t, account, code), n);
            && Affordable(m, RegisterCost(m, w.encodeCode(code))) && o.reply.Ok?
            && RegisterAt(w, x, account, code, init, s, m) == o.(reply := Ok(Empty))
  {
    hide Run, SetCodeId, CodeIdOf, ConsumeSet, RegisterCost, Affordable, Spent, InstallAt;
    RegisterCharge(w, account, code, m);
    InstallAtRuns(w, x, account, code, init, s, Spent(m, RegisterCost(m, w.encodeCode(code))));
    t := SetCodeId(w, s, account, code, Registration).snap;
    SetCodeSets(w, s, account, code, Registration);
  }

  lemma InstallAtRuns(w: World, x: Ctx, account: AccountId, code: CodeId, init: Bytes, s: Snap, m: Meter)
    requires x.depth < MAX_CALL_DEPTH && InstallAt(w, x, account, code, init, s, m).reply.Ok?
    ensures SetCodeId(w, s, account, code, Registration).result.Ok? && FindCode(w, code).Ok?
    ensures var p := FindCode(w, code).value.init(Env(account, x.whoami, [], x.block), Request(0, init));
            var t := Entered(SetCodeId(w, s, account, code, Registration).snap, account, code);
            var o := Run(w, Ctx(account, x.whoami, [], x.scope, x.depth + 1, x.block), p, [], t, m);
            o.reply.Ok? && InstallAt(w, x, account, code, init, s, m) == o.(reply := Ok(Empty))
  {
    hide Run, SetCodeId;
  }

  /** A migration that cannot be made: each reason has its error, and nothing changes. */
  lemma MigrationRefused(w: World, x: Ctx, account: AccountId, code: CodeId, message: Request, funds: seq<Asset>, s: Snap, m: Meter)
    requires x.depth < MAX_CALL_DEPTH
    ensures var o, id := MigrateAccount(w, x, account, code, message, funds, s, m), CodeIdOf(w, s.overlay, account);
            if account != x.whoami then o == Out(Err(Unauthorized), s, m)
            else if id.Err? then o == Out(Err(id.error), s, m)
            else if id.value.None? then o == Out(Err(AccountDoesNotExist), s, m)
            else if FindCode(w, code).Err? then o == Out(Err(FindCode(w, code).error), s, m)
            else id.value.value == code ==> o == Out(Err(SameCodeMigration), s, m)
  {
    hide Switch, CodeIdOf;
  }

  /**
   * A migration that can: the code of the account that asks is switched, and then the runtime calls
   * the account with the message and the funds.
   */
  lemma MigrationRuns(w: World, x: Ctx, code: CodeId, message: Request, funds: seq<Asset>, s: Snap, m: Meter) returns (t: Snap)
    requires x.depth < MAX_CALL_DEPTH && RoundTrips(w, code) && FindCode(w, code).Ok?
    requires CodeIdOf(w, s.overlay, x.whoami).Ok? && CodeIdOf(w, s.overlay, x.whoami).value.Some?
    requires CodeIdOf(w, s.overlay, x.whoami).value != Some(code)
    requires MigrateAccount(w, x, x.whoami, code, message, funds, s, m).reply.Ok?
    ensures SetsCode(w, s, t, x.whoami, code)
    ensures MigrateAccount(w, x, x.whoami, code, message, funds, s, m) ==
            DoExec(w, Ctx(RuntimeAccount(), x.whoami, [], x.scope, x.depth + 1, x.block), x.whoami, message, funds, t, m)
  {
    hide DoExec, SetCodeId, CodeIdOf;
    var r := SetCodeId(w, s, x.whoami, code, Migration(x.whoami));
    t := r.snap;
    assert r.result.Ok?;
    SetCodeSets(w, s, x.whoami, code, Migration(x.whoami));
  }

  // ---------------------------------------------------------------------------------------
  // As calls to the runtime account

  /** Creating an account by a call: the reply names the account of the next number and what its init code returned. */
  lemma CreationCall(w: World, x: Ctx, request: Request, codeId: CodeId, init: Bytes, funds: seq<Asset>, s: Snap, m: Meter)
    requires x.depth < MAX_CALL_DEPTH && w.asSystem(request) == CreateAccount(codeId, init) && RoundTrips(w, codeId)
    requires Dispatch(w, x, RuntimeAccount(), request, funds, s, m).reply.Ok?
    ensures LastNumber(w, s.overlay).Ok? && FindCode(w, codeId).Ok?
    ensures var a := LastNumber(w, s.overlay).value;
            var p := FindCode(w, codeId).value.init(Env(a, x.whoami, funds, x.block), Request(0, init));
            var o := Run(w, Ctx(a, x.whoami, funds, x.scope, x.depth + 1, x.block), p, [], AtInit(w, s, codeId), m);
            && CodeIdOf(w, AtInit(w, s, codeId).overlay, a) == Ok(Some(codeId)) && o.reply.Ok?
            && Dispatch(w, x, RuntimeAccount(), request, funds, s, m) == o.(reply := Ok(Created(a, o.reply.value)))
  {
    hide CreateNew, CodeIdOf, LastNumber, AtInit, Run;
    CreateSetsCode(w, x, codeId, init, funds, s, m, x.whoami);
    CreateSetsCode(w, x, codeId, init, funds, s, m, LastNumber(w, s.overlay).value);
  }

  /** Registering by a call. */
  lemma RegistrationCall(w: World, x: Ctx, request: Request, account: AccountId, code: CodeId, init: Bytes, funds: seq<Asset>,
                         s: Snap, m: Meter)
    requires x.depth < MAX_CALL_DEPTH && w.asSystem(request) == RegisterAccountAtId(account, code, init)
    ensures Dispatch(w, x, RuntimeAccount(), request, funds, s, m) == RegisterAt(w, x, account, code, init, s, m)
  {
    hide RegisterAt;
  }

  /** Nobody migrates another account. */
  lemma ForeignMigrationCall(w: World, x: Ctx, request: Request, account: AccountId, code: CodeId, message: Request,
                             funds: seq<Asset>, s: Snap, m: Meter)
    requires x.depth < MAX_CALL_DEPTH && w.asSystem(request) == Migrate(account, code, message) && account != x.whoami
    ensures Dispatch(w, x, RuntimeAccount(), request, funds, s, m) == Out(Err(Unauthorized), s, m)
  {
    hide MigrateAccount, Dispatch, CodeIdOf;
    MigrationIsCall(w, x, request, account, code, message, funds, s, m);
    MigrationRefused(w, x, account, code, message, funds, s, m);
  }

  /** An account migrates itself: its stored code is switched and the runtime calls the new code with the message. */
  lemma MigrationCall(w: World, x: Ctx, request: Request, code: CodeId, message: Request, s: Snap, m: Meter) returns (t: Snap)
    requires x.depth + 1 < MAX_CALL_DEPTH && w.asSystem(request) == Migrate(x.whoami, code, message)
    requires RoundTrips(w, code) && FindCode(w, code).Ok? && x.whoami != RuntimeAccount() && x.whoami != StorageAccount()
    requires CodeIdOf(w, s.overlay, x.whoami).Ok? && CodeIdOf(w, s.overlay, x.whoami).value.Some?
    requires CodeIdOf(w, s.overlay, x.whoami).value != Some(code)
    requires Dispatch(w, x, RuntimeAccount(), request, [], s, m).reply.Ok?
    ensures SetsCode(w, s, t, x.whoami, code)
    ensures var p := FindCode(w, code).value.execute(Env(x.whoami, RuntimeAccount(), [], x.block), message);
            Dispatch(w, x, RuntimeAccount(), request, [], s, m) ==
            Run(w, Ctx(x.whoami, RuntimeAccount(), [], x.scope, x.depth + 2, x.block), p, [], Entered(t, x.whoami, code), m)
  {
    hide DoExec, Dispatch, CodeIdOf, MigrateAccount, Run;
    MigrationIsCall(w, x, request, x.whoami, code, message, [], s, m);
    t := MigrationRuns(w, x, code, message, [], s, m);
    NewCodeRuns(w, x, code, message, t, m);
  }

  lemma MigrationIsCall(w: World, x: Ctx, request: Request, account: AccountId, code: CodeId, message: Request, funds: seq<Asset>,
                        s: Snap, m: Meter)
    requires x.depth < MAX_CALL_DEPTH && w.asSystem(request) == Migrate(account, code, message)
    ensures Dispatch(w, x, RuntimeAccount(), request, funds, s, m) == MigrateAccount(w, x, account, code, message, funds, s, m)
  {
    hide MigrateAccount;
  }

  lemma NewCodeRuns(w: World, x: Ctx, code: CodeId, message: Request, t: Snap, m: Meter)
    requires x.depth + 1 < MAX_CALL_DEPTH && x.whoami != RuntimeAccount() && x.whoami != StorageAccount()
    requires CodeIdOf(w, t.overlay, x.whoami) == Ok(Some(code)) && FindCode(w, code).Ok?
    requires DoExec(w, Ctx(RuntimeAccount(), x.whoami, [], x.scope, x.depth + 1, x.block), x.whoami, message, [], t, m).reply.Ok?
    ensures var p := FindCode(w, code).value.execute(Env(x.whoami, RuntimeAccount(), [], x.block), message);
            DoExec(w, Ctx(RuntimeAccount(), x.whoami, [], x.scope, x.depth + 1, x.block), x.whoami, message, [], t, m) ==
            Run(w, Ctx(x.whoami, RuntimeAccount(), [], x.scope, x.depth + 2, x.block), p, [], Entered(t, x.whoami, code), m)
  {
    hide DoExec, Dispatch, CodeIdOf, Run;
    var y := Ctx(RuntimeAccount(), x.whoami, [], x.scope, x.depth + 1, x.block);
    CallWithoutFunds(w, y, x.whoami, message, t, m);
    CalleeRuns(w, y, x.whoami, message, [], FindCode(w, code).value, t, m);
  }
}
