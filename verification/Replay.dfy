/**
 * Two states that answer every read alike behave alike, whatever is committed below them and
 * whatever sits in their overlays, as long as the larger overlay does not run out of room.
 */
module Replay {
  import opened Types
  import opened Gas
  import opened ExecState
  import opened Programs
  import opened Snapshot
  import opened CallInduction

  ghost predicate ReadsAlike(b: Base, o: Overlay, c: Base, p: Overlay) {
    forall key :: Lookup(b, o, key) == Lookup(c, p, key)
  }

  /** The states read alike, and the overlay of the first needs no more room. */
  ghost predicate Alike(b: Base, s: Snap, c: Base, t: Snap) {
    && ReadsAlike(b, s.overlay, c, t.overlay)
    && s.events == t.events
    && s.unique == t.unique
    && s.overlay.Keys <= t.overlay.Keys && |t.overlay| <= MAX_OVERLAY_ENTRIES
    && (s.full ==> t.full)
  }

  ghost predicate SameWorld(w: World, v: World) {
    v == w.(base := v.base)
  }

  ghost predicate SameOut(b: Base, o: Out, c: Base, q: Out) {
    q.snap.full || (o.reply == q.reply && o.meter == q.meter && Alike(b, o.snap, c, q.snap))
  }

  ghost function Fills(): Relation {
    (s: Snap, m: Meter, t: Snap, n: Meter) => s.full ==> t.full
  }

  /** A refused write is never forgotten, not even by a rollback. */
  lemma FillsIsClosed(w: World)
    ensures Closed(w, Fills())
  {
  }

  // ---------------------------------------------------------------------------------------
  // Reads

  lemma CodeAlike(w: World, s: Snap, v: World, t: Snap, account: AccountId)
    requires SameWorld(w, v) && Alike(w.base, s, v.base, t)
    ensures CodeIdOf(w, s.overlay, account) == CodeIdOf(v, t.overlay, account)
    ensures ResolveCode(w, s.overlay, account) == ResolveCode(v, t.overlay, account)
  {
    assert Lookup(w.base, s.overlay, CodeKey(account)) == Lookup(v.base, t.overlay, CodeKey(account));
  }

  lemma ReadAlike(w: World, s: Snap, v: World, t: Snap, account: AccountId, key: Key, m: Meter)
    requires SameWorld(w, v) && Alike(w.base, s, v.base, t)
    ensures ReadStorage(w, s.overlay, account, key, m) == ReadStorage(v, t.overlay, account, key, m)
  {
    assert Lookup(w.base, s.overlay, StorageKey(account, key)) == Lookup(v.base, t.overlay, StorageKey(account, key));
  }

  lemma {:induction false} RunQueryAlike(w: World, s: Snap, v: World, t: Snap, p: QueryProgram, history: seq<Reply>, m: Meter)
    requires SameWorld(w, v) && Alike(w.base, s, v.base, t)
    ensures RunQuery(w, s.overlay, p, history, m) == RunQuery(v, t.overlay, p, history, m)
    decreases p.steps - |history|
  {
    var action := p.next(history);
    if !action.Answer? {
      var a := PerformQuery(w, s.overlay, action, m);
      if action.Read? {
        ReadAlike(w, s, v, t, action.account, action.key, m);
      } else {
        CodeAlike(w, s, v, t, action.account);
      }
      RunQueryAlike(w, s, v, t, p, history + [a.reply], a.meter);
    }
  }

  lemma DoQueryAlike(w: World, s: Snap, v: World, t: Snap, x: Ctx, to: AccountId, request: Request, m: Meter)
    requires SameWorld(w, v) && Alike(w.base, s, v.base, t)
    ensures DoQuery(w, x, to, request, s.overlay, m) == DoQuery(v, x, to, request, t.overlay, m)
  {
    CodeAlike(w, s, v, t, to);
    if to == StorageAccount() {
      if w.asRead(request).Fetch? {
        ReadAlike(w, s, v, t, w.asRead(request).account, w.asRead(request).key, m);
      }
    } else if ResolveCode(w, s.overlay, to).Ok? {
      RunQueryAlike(w, s, v, t, ResolveCode(w, s.overlay, to).value.query(Env(to, RuntimeAccount(), [], x.block), request), [], m);
    }
  }

  // ---------------------------------------------------------------------------------------
  // Writes

  lemma WriteAlike(b: Base, s: Snap, c: Base, t: Snap, key: Key, entry: Option<Value>, effect: Effect)
    requires Alike(b, s, c, t)
    ensures var p, q := Write(s, key, entry, effect), Write(t, key, entry, effect);
            q.snap.full || (p.result == q.result && Alike(b, p.snap, c, q.snap))
  {
    RoomIsLeft(s.overlay, t.overlay, key, entry);
    ReadsAfterWrite(b, s.overlay, c, t.overlay, key, entry);
  }

  lemma ReadsAfterWrite(b: Base, o: Overlay, c: Base, p: Overlay, key: Key, entry: Option<Value>)
    requires ReadsAlike(b, o, c, p)
    ensures ReadsAlike(b, o[key := entry], c, p[key := entry])
  {
    var after, same := o[key := entry], p[key := entry];
    forall k ensures Lookup(b, after, k) == Lookup(c, same, k) {
      assert Lookup(b, o, k) == Lookup(c, p, k);
    }
  }

  /** A key that fits the larger overlay fits the smaller one. */
  lemma RoomIsLeft(o: Overlay, p: Overlay, key: Key, entry: Option<Value>)
    requires o.Keys <= p.Keys && |p| <= MAX_OVERLAY_ENTRIES
    ensures key in p || |p| < MAX_OVERLAY_ENTRIES ==>
              (key in o || |o| < MAX_OVERLAY_ENTRIES) && |p[key := entry]| <= MAX_OVERLAY_ENTRIES
    ensures o[key := entry].Keys <= p[key := entry].Keys
  {
    Fewer(o.Keys, p.Keys);
    if key in p && key !in o {
      Fewer(o.Keys, p.Keys - {key});
    }
    assert p[key := entry].Keys == p.Keys + {key};
  }

  lemma StorageExecAlike(w: World, s: Snap, v: World, t: Snap, x: Ctx, request: Request, m: Meter)
    requires SameWorld(w, v) && Alike(w.base, s, v.base, t)
    ensures SameOut(w.base, StorageExec(w, x, request, s, m), v.base, StorageExec(v, x, request, t, m))
  {
    var call := w.asStorage(request);
    if call.Put? || call.Delete? {
      var k := StorageKey(x.whoami, call.key);
      WriteAlike(w.base, s, v.base, t, k, if call.Put? then Some(call.value) else None, StorageWrite(x.whoami, k));
    }
  }

  lemma NextAccountNumberAlike(w: World, s: Snap, v: World, t: Snap)
    requires SameWorld(w, v) && Alike(w.base, s, v.base, t)
    ensures var n, k := NextAccountNumber(w, s), NextAccountNumber(v, t);
            k.snap.full || (n.result == k.result && Alike(w.base, n.snap, v.base, k.snap))
  {
    assert Lookup(w.base, s.overlay, NumberKey()) == Lookup(v.base, t.overlay, NumberKey());
    if LastNumber(w, s.overlay).Ok? {
      WriteAlike(w.base, s, v.base, t, NumberKey(), Some(Increase(LastNumber(w, s.overlay).value)), NumberWrite(LastNumber(w, s.overlay).value));
    }
  }

  lemma SetCodeIdAlike(w: World, s: Snap, v: World, t: Snap, account: AccountId, id: CodeId, cause: Cause)
    requires SameWorld(w, v) && Alike(w.base, s, v.base, t)
    ensures var p, q := SetCodeId(w, s, account, id, cause), SetCodeId(v, t, account, id, cause);
            q.snap.full || (p.result == q.result && Alike(w.base, p.snap, v.base, q.snap))
  {
    WriteAlike(w.base, s, v.base, t, CodeKey(account), Some(w.encodeCode(id)), CodeWrite(account, cause));
  }

  lemma EnteredAlike(b: Base, s: Snap, c: Base, t: Snap, account: AccountId, code: CodeId)
    requires Alike(b, s, c, t)
    ensures Alike(b, Entered(s, account, code), c, Entered(t, account, code))
  {
  }

  // ---------------------------------------------------------------------------------------
  // Calls

  lemma {:induction false} RunAlike(w: World, s: Snap, v: World, t: Snap, x: Ctx, p: Program, history: seq<Reply>, m: Meter)
    requires SameWorld(w, v) && Alike(w.base, s, v.base, t) && x.depth <= MAX_CALL_DEPTH
    ensures SameOut(w.base, Run(w, x, p, history, s, m), v.base, Run(v, x, p, history, t, m))
    decreases MAX_CALL_DEPTH + 1 - x.depth, 2, p.steps - |history|
  {
    var action := p.next(history);
    if !action.Return? {
      var o, q := Perform(w, x, action, s, m), Perform(v, x, action, t, m);
      PerformAlike(w, s, v, t, x, action, m);
      FillsIsClosed(v);
      RunIn(Fills(), v, x, p, history + [q.reply], q.snap, q.meter);
      if !q.snap.full {
        RunAlike(w, o.snap, v, q.snap, x, p, history + [o.reply], o.meter);
      }
    }
  }

  lemma {:induction false} PerformAlike(w: World, s: Snap, v: World, t: Snap, x: Ctx, action: Action, m: Meter)
    requires SameWorld(w, v) && Alike(w.base, s, v.base, t) && x.depth <= MAX_CALL_DEPTH && !action.Return?
    ensures SameOut(w.base, Perform(w, x, action, s, m), v.base, Perform(v, x, action, t, m))
    decreases MAX_CALL_DEPTH + 1 - x.depth, 1
  {
    hide DoExec, DoQuery;
    match action
    case Exec(to, request, funds) => DoExecAlike(w, s, v, t, x, to, request, funds, m);
    case Query(to, request) => DoQueryAlike(w, s, v, t, x, to, request, m);
    case Emit(name, data) =>
    case FreshId =>
  }

  lemma {:induction false} DoExecAlike(w: World, s: Snap, v: World, t: Snap, x: Ctx, to: AccountId, request: Request,
                                       funds: seq<Asset>, m: Meter)
    requires SameWorld(w, v) && Alike(w.base, s, v.base, t) && x.depth <= MAX_CALL_DEPTH
    ensures SameOut(w.base, DoExec(w, x, to, request, funds, s, m), v.base, DoExec(v, x, to, request, funds, t, m))
    decreases MAX_CALL_DEPTH + 1 - x.depth, 0, 5
  {
    hide Transfers, Dispatch, Closed;
    if x.depth < MAX_CALL_DEPTH {
      var o, q := Transfers(w, x, to, funds, s, m), Transfers(v, x, to, funds, t, m);
      TransfersAlike(w, s, v, t, x, to, funds, m);
      FillsIsClosed(v);
      DispatchIn(Fills(), v, x, to, request, funds, q.snap, q.meter);
      if !q.snap.full {
        DispatchAlike(w, o.snap, v, q.snap, x, to, request, funds, o.meter);
      }
    }
  }

  lemma {:induction false} TransfersAlike(w: World, s: Snap, v: World, t: Snap, x: Ctx, to: AccountId, funds: seq<Asset>, m: Meter)
    requires SameWorld(w, v) && Alike(w.base, s, v.base, t) && x.depth < MAX_CALL_DEPTH
    ensures SameOut(w.base, Transfers(w, x, to, funds, s, m), v.base, Transfers(v, x, to, funds, t, m))
    decreases MAX_CALL_DEPTH + 1 - x.depth, 0, 4, |funds| + 1
  {
    TransferEachAlike(w, s, v, t, x, to, funds, m);
  }

  lemma {:induction false} TransferEachAlike(w: World, s: Snap, v: World, t: Snap, x: Ctx, to: AccountId, funds: seq<Asset>, m: Meter)
    requires SameWorld(w, v) && Alike(w.base, s, v.base, t) && x.depth < MAX_CALL_DEPTH
    ensures SameOut(w.base, TransferEach(w, x, to, funds, s, m), v.base, TransferEach(v, x, to, funds, t, m))
    decreases MAX_CALL_DEPTH + 1 - x.depth, 0, 4, |funds|
  {
    if funds != [] {
      var asset, transfer := funds[0].assetId, w.transfer(to, funds[0].amount);
      var o, q := Dispatch(w, x, asset, transfer, [], s, m), Dispatch(v, x, asset, transfer, [], t, m);
      DispatchAlike(w, s, v, t, x, asset, transfer, [], m);
      FillsIsClosed(v);
      TransferEachIn(Fills(), v, x, to, funds[1..], q.snap, q.meter);
      if !q.snap.full {
        TransferEachAlike(w, o.snap, v, q.snap, x, to, funds[1..], o.meter);
      }
    }
  }

  lemma {:induction false} DispatchAlike(w: World, s: Snap, v: World, t: Snap, x: Ctx, to: AccountId, request: Request,
                                         funds: seq<Asset>, m: Meter)
    requires SameWorld(w, v) && Alike(w.base, s, v.base, t) && x.depth < MAX_CALL_DEPTH
    ensures SameOut(w.base, Dispatch(w, x, to, request, funds, s, m), v.base, Dispatch(v, x, to, request, funds, t, m))
    decreases MAX_CALL_DEPTH + 1 - x.depth, 0, 3
  {
    if to == RuntimeAccount() {
      SystemExecAlike(w, s, v, t, x, request, funds, m);
    } else if to == StorageAccount() {
      StorageExecAlike(w, s, v, t, x, request, m);
    } else {
      CodeAlike(w, s, v, t, to);
      if ResolveCode(w, s.overlay, to).Ok? {
        var child, code := x.Branch(to, funds), CodeIdOf(w, s.overlay, to).value.value;
        EnteredAlike(w.base, s, v.base, t, to, code);
        RunAlike(w, Entered(s, to, code), v, Entered(t, to, code), child, FindCode(w, code).value.execute(child.View(), request), [], m);
      }
    }
  }

  lemma {:induction false} SystemExecAlike(w: World, s: Snap, v: World, t: Snap, x: Ctx, request: Request, funds: seq<Asset>, m: Meter)
    requires SameWorld(w, v) && Alike(w.base, s, v.base, t) && x.depth < MAX_CALL_DEPTH
    ensures SameOut(w.base, SystemExec(w, x, request, funds, s, m), v.base, SystemExec(v, x, request, funds, t, m))
    decreases MAX_CALL_DEPTH + 1 - x.depth, 0, 2
  {
    match w.asSystem(request)
    case CreateAccount(codeId, init) => CreateNewAlike(w, s, v, t, x, codeId, init, funds, m);
    case RegisterAccountAtId(account, codeId, init) => RegisterAtAlike(w, s, v, t, x, account, codeId, init, m);
    case Migrate(account, newCode, message) => MigrateAlike(w, s, v, t, x, account, newCode, message, funds, m);
    case _ =>
  }

  lemma {:induction false} CreateNewAlike(w: World, s: Snap, v: World, t: Snap, x: Ctx, codeId: CodeId, init: Bytes,
                                          funds: seq<Asset>, m: Meter)
    requires SameWorld(w, v) && Alike(w.base, s, v.base, t) && x.depth < MAX_CALL_DEPTH
    ensures SameOut(w.base, CreateNew(w, x, codeId, init, funds, s, m), v.base, CreateNew(v, x, codeId, init, funds, t, m))
    decreases MAX_CALL_DEPTH + 1 - x.depth, 0, 1
  {
    hide Alike, Install, Closed, NextAccountNumber;
    var n, k := NextAccountNumber(w, s), NextAccountNumber(v, t);
    NextAccountNumberAlike(w, s, v, t);
    FillsIsClosed(v);
    if k.result.Ok? {
      NumberedIsPending(v, t);
      InstallIn(Fills(), v, x, k.result.value, codeId, init, funds, k.snap, m);
    }
    if !k.snap.full && n.result.Ok? {
      InstallAlike(w, n.snap, v, k.snap, x, n.result.value, codeId, init, funds, m);
    }
  }

  lemma CodeIsResolved(w: World, o: Overlay, account: AccountId)
    requires ResolveCode(w, o, account).Ok?
    ensures CodeIdOf(w, o, account).Ok? && CodeIdOf(w, o, account).value.Some?
    ensures FindCode(w, CodeIdOf(w, o, account).value.value) == ResolveCode(w, o, account)
  {
  }

  lemma {:induction false} InstallAlike(w: World, s: Snap, v: World, t: Snap, x: Ctx, account: AccountId, codeId: CodeId,
                                        init: Bytes, funds: seq<Asset>, m: Meter)
    requires SameWorld(w, v) && Alike(w.base, s, v.base, t) && x.depth < MAX_CALL_DEPTH
    ensures SameOut(w.base, Install(w, x, account, codeId, init, funds, s, m), v.base, Install(v, x, account, codeId, init, funds, t, m))
    decreases MAX_CALL_DEPTH + 1 - x.depth, 0, 0
  {
    hide Alike, SetCodeId, Run, ResolveCode, Closed;
    var r, q := SetCodeId(w, s, account, codeId, NewAccount).snap, SetCodeId(v, t, account, codeId, NewAccount).snap;
    SetCodeIdAlike(w, s, v, t, account, codeId, NewAccount);
    FillsIsClosed(v);
    var child := x.Branch(account, funds);
    if ResolveCode(v, q.overlay, account).Ok? {
      CodeIsResolved(v, q.overlay, account);
      var code := CodeIdOf(v, q.overlay, account).value.value;
      var p := FindCode(v, code).value.init(child.View(), Request(0, init));
      RunIn(Fills(), v, child, p, [], Entered(q, account, code), m);
      if !q.full {
        CodeAlike(w, r, v, q, account);
        EnteredAlike(w.base, r, v.base, q, account, code);
        RunAlike(w, Entered(r, account, code), v, Entered(q, account, code), child, p, [], m);
      }
    } else if !q.full {
      CodeAlike(w, r, v, q, account);
    }
  }

  lemma {:induction false} RegisterAtAlike(w: World, s: Snap, v: World, t: Snap, x: Ctx, account: AccountId, codeId: CodeId,
                                           init: Bytes, m: Meter)
    requires SameWorld(w, v) && Alike(w.base, s, v.base, t) && x.depth < MAX_CALL_DEPTH
    ensures SameOut(w.base, RegisterAt(w, x, account, codeId, init, s, m), v.base, RegisterAt(v, x, account, codeId, init, t, m))
    decreases MAX_CALL_DEPTH + 1 - x.depth, 0, 1
  {
    CodeAlike(w, s, v, t, account);
    InstallAtAlike(w, s, v, t, x, account, codeId, init, ConsumeSet(m, CodeKey(account), w.encodeCode(codeId)).meter);
  }

  lemma {:induction false} InstallAtAlike(w: World, s: Snap, v: World, t: Snap, x: Ctx, account: AccountId, codeId: CodeId,
                                          init: Bytes, m: Meter)
    requires SameWorld(w, v) && Alike(w.base, s, v.base, t) && x.depth < MAX_CALL_DEPTH
    ensures SameOut(w.base, InstallAt(w, x, account, codeId, init, s, m), v.base, InstallAt(v, x, account, codeId, init, t, m))
    decreases MAX_CALL_DEPTH + 1 - x.depth, 0, 0
  {
    hide Alike, SetCodeId, Run, Closed;
    var r, q := SetCodeId(w, s, account, codeId, Registration).snap, SetCodeId(v, t, account, codeId, Registration).snap;
    SetCodeIdAlike(w, s, v, t, account, codeId, Registration);
    if FindCode(w, codeId).Ok? {
      var child := x.Branch(account, []);
      var p := FindCode(w, codeId).value.init(child.View(), Request(0, init));
      FillsIsClosed(v);
      RunIn(Fills(), v, child, p, [], Entered(q, account, codeId), m);
      if !q.full {
        EnteredAlike(w.base, r, v.base, q, account, codeId);
        RunAlike(w, Entered(r, account, codeId), v, Entered(q, account, codeId), child, p, [], m);
      }
    }
  }

  lemma {:induction false} MigrateAlike(w: World, s: Snap, v: World, t: Snap, x: Ctx, account: AccountId, newCode: CodeId,
                                        message: Request, funds: seq<Asset>, m: Meter)
    requires SameWorld(w, v) && Alike(w.base, s, v.base, t) && x.depth < MAX_CALL_DEPTH
    ensures SameOut(w.base, MigrateAccount(w, x, account, newCode, message, funds, s, m),
                    v.base, MigrateAccount(v, x, account, newCode, message, funds, t, m))
    decreases MAX_CALL_DEPTH + 1 - x.depth, 0, 1
  {
    hide Switch;
    CodeAlike(w, s, v, t, account);
    SwitchAlike(w, s, v, t, x.Branch(RuntimeAccount(), []), account, newCode, message, funds, m);
  }

  lemma {:induction false} SwitchAlike(w: World, s: Snap, v: World, t: Snap, x: Ctx, account: AccountId, newCode: CodeId,
                                       message: Request, funds: seq<Asset>, m: Meter)
    requires SameWorld(w, v) && Alike(w.base, s, v.base, t) && x.depth <= MAX_CALL_DEPTH
    ensures SameOut(w.base, Switch(w, x, account, newCode, message, funds, s, m),
                    v.base, Switch(v, x, account, newCode, message, funds, t, m))
    decreases MAX_CALL_DEPTH + 1 - x.depth, 0, 6
  {
    var r, q := SetCodeId(w, s, account, newCode, Migration(x.sender)).snap, SetCodeId(v, t, account, newCode, Migration(x.sender)).snap;
    SetCodeIdAlike(w, s, v, t, account, newCode, Migration(x.sender));
    FillsIsClosed(v);
    DoExecIn(Fills(), v, x, account, message, funds, q, m);
    if !q.full {
      DoExecAlike(w, r, v, q, x, account, message, funds, m);
    }
  }
}
