/**
 * What a call means to the accounts it touches (crates/app/stf/src/invoker.rs,
 * crates/app/stf/src/handlers.rs): whose code runs and what it is told, what is stored where and
 * reads back, under whose name events and ids come out.
 */
module CallLaws {
  import opened Types
  import opened Gas
  import opened ExecState
  import opened Programs
  import opened Snapshot

  // ---------------------------------------------------------------------------------------
  // Charges, in true numbers

  /** The charge is not refused: it fits, or the limit is the maximum, which refuses nothing. */
  predicate Affordable(m: Meter, amount: nat) {
    m.Infinite? || m.used + amount <= m.limit || m.limit == U64_MAX
  }

  function Spent(m: Meter, amount: nat): Meter {
    if m.Infinite? then m else m.(used := AtMostU64(m.used + amount))
  }

  function PutCost(m: Meter, key: Key, value: Value): nat {
    if m.Infinite? then 0 else m.config.setCharge * (33 + |key| + |value| + 2)
  }

  function DeleteCost(m: Meter, key: Key): nat {
    if m.Infinite? then 0 else m.config.removeCharge * (33 + |key| + 1)
  }

  function FetchCost(m: Meter, key: Key, value: Option<Value>): nat {
    if m.Infinite? then 0 else m.config.getCharge * (33 + |key| + 2 + if value.Some? then |value.value| else 0)
  }

  lemma ChargesAreAffordable(m: Meter, account: AccountId, key: Key, value: Value, read: Option<Value>)
    ensures var k := StorageKey(account, key);
            && ConsumeSet(m, k, value) ==
               (if Affordable(m, PutCost(m, key, value)) then Charged(true, Spent(m, PutCost(m, key, value))) else Charged(false, m))
            && ConsumeRemove(m, k) ==
               (if Affordable(m, DeleteCost(m, key)) then Charged(true, Spent(m, DeleteCost(m, key))) else Charged(false, m))
            && ConsumeGet(m, k, read) ==
               (if Affordable(m, FetchCost(m, key, read)) then Charged(true, Spent(m, FetchCost(m, key, read))) else Charged(false, m))
  {
    hide ConsumeSet, ConsumeRemove, ConsumeGet;
    var k := StorageKey(account, key);
    assert |k| == 33 + |key|;
    if m.Finite? {
      StorageChargesAreExact(m, k, value, read);
    } else {
      InfiniteIsFree(m, k, value, read);
    }
  }

  lemma InfiniteIsFree(m: Meter, key: Key, value: Value, read: Option<Value>)
    requires m.Infinite?
    ensures ConsumeSet(m, key, value) == ConsumeRemove(m, key) == ConsumeGet(m, key, read) == Charged(true, m)
  {
  }

  // ---------------------------------------------------------------------------------------
  // Storage calls

  /** There is room for an entry under the key. */
  predicate Storable(o: Overlay, account: AccountId, key: Key, value: Option<Value>) {
    && 33 + |key| <= MAX_KEY_SIZE
    && (value.Some? ==> |value.value| <= MAX_VALUE_SIZE)
    && (StorageKey(account, key) in o || |o| < MAX_OVERLAY_ENTRIES)
  }

  /** The storage of an account reads `value` under the key, and every other key reads as before. */
  ghost predicate Sets(base: Base, s: Snap, t: Snap, account: AccountId, key: Key, value: Option<Value>) {
    && Lookup(base, t.overlay, StorageKey(account, key)) == Ok(value)
    && (forall k :: k != StorageKey(account, key) ==> Lookup(base, t.overlay, k) == Lookup(base, s.overlay, k))
    && t.events == s.events && t.unique == s.unique
  }

  lemma WriteSets(base: Base, s: Snap, account: AccountId, key: Key, value: Option<Value>)
    ensures var k := StorageKey(account, key);
            var r := Write(s, k, value, StorageWrite(account, k));
            && (r.result.Ok? <==> Storable(s.overlay, account, key, value))
            && (r.result.Ok? ==> Sets(base, s, r.snap, account, key, value))
  {
    assert |StorageKey(account, key)| == 33 + |key|;
  }

  /**
   * A put to the storage account: it succeeds exactly when it comes without funds, is affordable and
   * finds room; then the caller's key reads the value, nothing else changes, and the charge is the
   * exact one.  Else nothing changes but gas.
   */
  lemma PutLaw(w: World, x: Ctx, request: Request, funds: seq<Asset>, s: Snap, m: Meter, key: Key, value: Value)
    requires x.depth <= MAX_CALL_DEPTH && w.asStorage(request) == Put(key, value)
    ensures var o := DoExec(w, x, StorageAccount(), request, funds, s, m);
            && (o.reply.Ok? <==> x.depth < MAX_CALL_DEPTH && funds == [] && Affordable(m, PutCost(m, key, value))
                                 && Storable(s.overlay, x.whoami, key, Some(value)))
            && (o.reply.Ok? ==> o.reply == Ok(Empty) && Sets(w.base, s, o.snap, x.whoami, key, Some(value))
                                && o.meter == Spent(m, PutCost(m, key, value)))
            && (o.reply.Err? ==> o.snap == s.(full := o.snap.full))
  {
    hide ConsumeSet, Write, Sets, Storable, Affordable, PutCost;
    ChargesAreAffordable(m, x.whoami, key, value, None);
    WriteSets(w.base, s, x.whoami, key, Some(value));
    CallToStorage(w, x, request, funds, s, m);
  }

  /** A delete: the same, and the key then reads as absent. */
  lemma DeleteLaw(w: World, x: Ctx, request: Request, funds: seq<Asset>, s: Snap, m: Meter, key: Key)
    requires x.depth <= MAX_CALL_DEPTH && w.asStorage(request) == Delete(key)
    ensures var o := DoExec(w, x, StorageAccount(), request, funds, s, m);
            && (o.reply.Ok? <==> x.depth < MAX_CALL_DEPTH && funds == [] && Affordable(m, DeleteCost(m, key))
                                 && Storable(s.overlay, x.whoami, key, None))
            && (o.reply.Ok? ==> o.reply == Ok(Empty) && Sets(w.base, s, o.snap, x.whoami, key, None)
                                && o.meter == Spent(m, DeleteCost(m, key)))
            && (o.reply.Err? ==> o.snap == s.(full := o.snap.full))
  {
    hide ConsumeRemove, Write, Sets, Storable, Affordable, DeleteCost;
    ChargesAreAffordable(m, x.whoami, key, [], None);
    WriteSets(w.base, s, x.whoami, key, None);
    CallToStorage(w, x, request, funds, s, m);
  }

  lemma CallToStorage(w: World, x: Ctx, request: Request, funds: seq<Asset>, s: Snap, m: Meter)
    requires x.depth <= MAX_CALL_DEPTH
    ensures var o, e := DoExec(w, x, StorageAccount(), request, funds, s, m), StorageExec(w, x, request, s, m);
            if x.depth == MAX_CALL_DEPTH || funds != [] then o.reply.Err? && o.snap == s
            else o.reply == e.reply && o.meter == e.meter && o.snap == if e.reply.Ok? then e.snap else RolledBack(s, e.snap)
  {
    hide StorageExec, TransferEach;
    SystemAccountsDiffer();
  }

  /** A read of any account's storage replies with what is there, once the charge is taken. */
  lemma FetchLaw(w: World, x: Ctx, request: Request, o: Overlay, m: Meter, account: AccountId, key: Key)
    requires w.asRead(request) == Fetch(account, key)
    ensures var a := DoQuery(w, x, StorageAccount(), request, o, m);
            var found := Lookup(w.base, o, StorageKey(account, key));
            if found.Err? then a == Answered(Err(found.error), m)
            else if Affordable(m, FetchCost(m, key, found.value)) then
              a == Answered(Ok(Stored(found.value)), Spent(m, FetchCost(m, key, found.value)))
            else a == Answered(Err(OutOfGas), m)
  {
    hide ConsumeGet, Affordable, FetchCost, Spent;
    SystemAccountsDiffer();
    var found := Lookup(w.base, o, StorageKey(account, key));
    if found.Ok? {
      ChargesAreAffordable(m, account, key, [], found.value);
    }
  }

  /** What an account puts, every account fetches, as long as it pays for the read. */
  lemma PutThenFetch(w: World, x: Ctx, put: Request, s: Snap, m: Meter, key: Key, value: Value, y: Ctx, fetch: Request, n: Meter)
    requires x.depth <= MAX_CALL_DEPTH && w.asStorage(put) == Put(key, value) && w.asRead(fetch) == Fetch(x.whoami, key)
    requires DoExec(w, x, StorageAccount(), put, [], s, m).reply.Ok? && Affordable(n, FetchCost(n, key, Some(value)))
    ensures var t := DoExec(w, x, StorageAccount(), put, [], s, m).snap;
            DoQuery(w, y, StorageAccount(), fetch, t.overlay, n).reply == Ok(Stored(Some(value)))
  {
    hide DoExec, DoQuery, Affordable, FetchCost, Storable;
    PutLaw(w, x, put, [], s, m, key, value);
    FetchLaw(w, y, fetch, DoExec(w, x, StorageAccount(), put, [], s, m).snap.overlay, n, x.whoami, key);
  }

  // ---------------------------------------------------------------------------------------
  // Whose code runs

  /**
   * A call to an account that is not a system one runs the code stored for that account, told that
   * it is that account and that the caller sent it; without code it fails and changes nothing.
   */
  lemma DispatchRuns(w: World, x: Ctx, to: AccountId, request: Request, funds: seq<Asset>, s: Snap, m: Meter)
    requires x.depth < MAX_CALL_DEPTH && to != RuntimeAccount() && to != StorageAccount()
    ensures var o, id := Dispatch(w, x, to, request, funds, s, m), CodeIdOf(w, s.overlay, to);
            if id.Err? then o == Out(Err(id.error), s, m)
            else if id.value.None? then o == Out(Err(AccountDoesNotExist), s, m)
            else if w.codes(id.value.value).Err? then o == Out(Err(w.codes(id.value.value).error), s, m)
            else if w.codes(id.value.value).value.None? then o == Out(Err(CodeNotFound), s, m)
            else
              var p := w.codes(id.value.value).value.value.execute(Env(to, x.whoami, funds, x.block), request);
              o == Run(w, Ctx(to, x.whoami, funds, x.scope, x.depth + 1, x.block), p, [], Entered(s, to, id.value.value), m)
  {
    hide Run, CodeIdOf, Dispatch;
    ResolvedRuns(w, x, to, request, funds, s, m);
  }

  lemma ResolvedRuns(w: World, x: Ctx, to: AccountId, request: Request, funds: seq<Asset>, s: Snap, m: Meter)
    requires x.depth < MAX_CALL_DEPTH && to != RuntimeAccount() && to != StorageAccount()
    ensures var o, code := Dispatch(w, x, to, request, funds, s, m), ResolveCode(w, s.overlay, to);
            if code.Err? then o == Out(Err(code.error), s, m)
            else
              && CodeIdOf(w, s.overlay, to).Ok? && CodeIdOf(w, s.overlay, to).value.Some?
              && o == Run(w, Ctx(to, x.whoami, funds, x.scope, x.depth + 1, x.block),
                          code.value.execute(Env(to, x.whoami, funds, x.block), request), [],
                          Entered(s, to, CodeIdOf(w, s.overlay, to).value.value), m)
  {
    hide Run, CodeIdOf, FindCode, SystemExec, StorageExec;
    var child := x.Branch(to, funds);
    assert child == Ctx(to, x.whoami, funds, x.scope, x.depth + 1, x.block) && child.View() == Env(to, x.whoami, funds, x.block);
    if ResolveCode(w, s.overlay, to).Ok? {
      var t := Entered(s, to, CodeIdOf(w, s.overlay, to).value.value);
      var p := ResolveCode(w, s.overlay, to).value.execute(child.View(), request);
      assert Dispatch(w, x, to, request, funds, s, m) == Run(w, child, p, [], t, m);
    }
  }

  /** A query to such an account runs its query code, told that the runtime sent it without funds. */
  lemma QueryRuns(w: World, x: Ctx, to: AccountId, request: Request, o: Overlay, m: Meter, id: CodeId, code: AccountCode)
    requires to != RuntimeAccount() && to != StorageAccount()
    requires CodeIdOf(w, o, to) == Ok(Some(id)) && w.codes(id) == Ok(Some(code))
    ensures DoQuery(w, x, to, request, o, m) == RunQuery(w, o, code.query(Env(to, RuntimeAccount(), [], x.block), request), [], m)
  {
  }

  /** Query code that reads a key and answers with the reply gets what is stored there, if the read is paid. */
  lemma QueryReads(w: World, x: Ctx, to: AccountId, request: Request, o: Overlay, m: Meter, code: AccountCode,
                   account: AccountId, key: Key, value: Option<Value>)
    requires Has(w, o, to, code) && Lookup(w.base, o, StorageKey(account, key)) == Ok(value)
    requires Affordable(m, FetchCost(m, key, value))
    requires var p := code.query(Env(to, RuntimeAccount(), [], x.block), request);
             p.next([]) == Read(account, key) && p.next([Ok(Stored(value))]) == Answer(Ok(Stored(value)))
    ensures DoQuery(w, x, to, request, o, m) == Answered(Ok(Stored(value)), Spent(m, FetchCost(m, key, value)))
  {
    hide DoQuery, CodeIdOf, Lookup, ConsumeGet, Affordable, FetchCost, Spent;
    QueryRuns(w, x, to, request, o, m, CodeIdOf(w, o, to).value.value, code);
    ChargesAreAffordable(m, account, key, [], value);
    var p := code.query(Env(to, RuntimeAccount(), [], x.block), request);
    assert ReadStorage(w, o, account, key, m) == Answered(Ok(Stored(value)), Spent(m, FetchCost(m, key, value)));
    assert [] + [Ok(Stored(value))] == [Ok(Stored(value))];
  }

  /** Code that does one thing and returns. */
  ghost predicate DoesOnce(p: Program, action: Action, reply: Reply, r: Reply) {
    !action.Return? && p.next([]) == action && p.next([reply]) == Return(r)
  }

  lemma OneStep(w: World, x: Ctx, p: Program, action: Action, r: Reply, s: Snap, m: Meter)
    requires x.depth <= MAX_CALL_DEPTH && !action.Return? && DoesOnce(p, action, Perform(w, x, action, s, m).reply, r)
    ensures var o := Perform(w, x, action, s, m); Run(w, x, p, [], s, m) == Out(r, o.snap, o.meter)
  {
    hide Perform;
    var o := Perform(w, x, action, s, m);
    assert [] + [o.reply] == [o.reply];
  }

  /** The account has this code. */
  ghost predicate Has(w: World, o: Overlay, account: AccountId, code: AccountCode) {
    && account != RuntimeAccount() && account != StorageAccount()
    && CodeIdOf(w, o, account).Ok? && CodeIdOf(w, o, account).value.Some?
    && w.codes(CodeIdOf(w, o, account).value.value) == Ok(Some(code))
  }

  /** What the code of `to` is told when `x` calls it without funds. */
  function CalleeEnv(x: Ctx, to: AccountId): Env {
    Env(to, x.whoami, [], x.block)
  }

  function CalleeCtx(x: Ctx, to: AccountId): Ctx {
    Ctx(to, x.whoami, [], x.scope, x.depth + 1, x.block)
  }

  /** The state in which the code of an account that has code starts. */
  ghost function AtEntry(w: World, s: Snap, to: AccountId): Snap {
    if CodeIdOf(w, s.overlay, to).Ok? && CodeIdOf(w, s.overlay, to).value.Some?
    then Entered(s, to, CodeIdOf(w, s.overlay, to).value.value) else s
  }

  lemma CalleeRuns(w: World, x: Ctx, to: AccountId, request: Request, funds: seq<Asset>, code: AccountCode, s: Snap, m: Meter)
    requires x.depth < MAX_CALL_DEPTH && Has(w, s.overlay, to, code)
    ensures Dispatch(w, x, to, request, funds, s, m) ==
            Run(w, Ctx(to, x.whoami, funds, x.scope, x.depth + 1, x.block), code.execute(Env(to, x.whoami, funds, x.block), request),
                [], AtEntry(w, s, to), m)
  {
    hide Run, Dispatch, CodeIdOf;
    DispatchRuns(w, x, to, request, funds, s, m);
  }

  /** Without funds a call is all or nothing of what the callee does. */
  lemma CallWithoutFunds(w: World, x: Ctx, to: AccountId, request: Request, s: Snap, m: Meter)
    requires x.depth < MAX_CALL_DEPTH
    ensures var d := Dispatch(w, x, to, request, [], s, m);
            DoExec(w, x, to, request, [], s, m) == if d.reply.Ok? then d else d.(snap := RolledBack(s, d.snap))
  {
    hide Dispatch, TransferEach;
  }

  /** A call to code that does one thing and returns. */
  lemma CallOnce(w: World, x: Ctx, to: AccountId, request: Request, code: AccountCode, action: Action, r: Reply, s: Snap, m: Meter)
    requires x.depth < MAX_CALL_DEPTH && Has(w, s.overlay, to, code) && !action.Return? && r.Ok?
    requires DoesOnce(code.execute(CalleeEnv(x, to), request), action, Perform(w, CalleeCtx(x, to), action, AtEntry(w, s, to), m).reply, r)
    ensures var o := Perform(w, CalleeCtx(x, to), action, AtEntry(w, s, to), m);
            DoExec(w, x, to, request, [], s, m) == Out(r, o.snap, o.meter)
  {
    hide Perform, Run, Dispatch, DoExec, Has, AtEntry;
    CalleeRuns(w, x, to, request, [], code, s, m);
    CallWithoutFunds(w, x, to, request, s, m);
    OneStep(w, CalleeCtx(x, to), code.execute(CalleeEnv(x, to), request), action, r, AtEntry(w, s, to), m);
  }

  /**
   * Code that puts a value stores it for the account it belongs to: that account's key reads the
   * value, and no key of the caller, nor any other, reads otherwise than before.
   */
  lemma CalleePuts(w: World, x: Ctx, to: AccountId, request: Request, code: AccountCode, put: Request, r: Reply, s: Snap, m: Meter,
                   key: Key, value: Value)
    requires x.depth + 1 < MAX_CALL_DEPTH && Has(w, s.overlay, to, code) && r.Ok? && w.asStorage(put) == Put(key, value)
    requires DoesOnce(code.execute(CalleeEnv(x, to), request), Exec(StorageAccount(), put, []), Ok(Empty), r)
    requires Affordable(m, PutCost(m, key, value)) && Storable(s.overlay, to, key, Some(value))
    ensures var o := DoExec(w, x, to, request, [], s, m);
            && o.reply == r && o.meter == Spent(m, PutCost(m, key, value))
            && Sets(w.base, s, o.snap, to, key, Some(value))
            && (to != x.whoami ==>
                  forall k :: InNamespace(x.whoami, k) ==> Lookup(w.base, o.snap.overlay, k) == Lookup(w.base, s.overlay, k))
  {
    hide DoExec, Has, Affordable, Storable, PutCost, Spent, CodeIdOf;
    var t := AtEntry(w, s, to);
    PutLaw(w, CalleeCtx(x, to), put, [], t, m, key, value);
    CallOnce(w, x, to, request, code, Exec(StorageAccount(), put, []), r, s, m);
    NamespacesAreDisjoint(to, key, x.whoami);
  }

  /** An event names the account whose code emits it. */
  lemma CalleeEmits(w: World, x: Ctx, to: AccountId, request: Request, code: AccountCode, name: Bytes, data: Bytes, r: Reply,
                    s: Snap, m: Meter)
    requires x.depth < MAX_CALL_DEPTH && Has(w, s.overlay, to, code) && r.Ok?
    requires DoesOnce(code.execute(CalleeEnv(x, to), request), Emit(name, data), Ok(Empty), r)
    requires |name| <= MAX_EVENT_NAME_LENGTH && |data| <= MAX_EVENT_CONTENT_SIZE && |s.events| < MAX_EVENTS_PER_EXECUTION
    ensures var o := DoExec(w, x, to, request, [], s, m);
            && o.reply == r && o.meter == m
            && o.snap.events == s.events + [Event(to, name, data)]
            && o.snap.overlay == s.overlay && o.snap.unique == s.unique
  {
    hide DoExec, Has, CodeIdOf;
    CallOnce(w, x, to, request, code, Emit(name, data), r, s, m);
  }

  /** An id is the one of the next counter value in the scope of the whole call tree. */
  lemma CalleeGetsId(w: World, x: Ctx, to: AccountId, request: Request, code: AccountCode, r: Reply, s: Snap, m: Meter)
    requires x.depth < MAX_CALL_DEPTH && Has(w, s.overlay, to, code) && r.Ok? && UniqueId(x.scope, s.unique + 1).Ok?
    requires DoesOnce(code.execute(CalleeEnv(x, to), request), FreshId, Ok(Data(UniqueId(x.scope, s.unique + 1).value)), r)
    ensures var o := DoExec(w, x, to, request, [], s, m);
            && o.reply == r && o.meter == m
            && o.snap.unique == s.unique + 1 && o.snap.overlay == s.overlay && o.snap.events == s.events
  {
    hide DoExec, Has, CodeIdOf, UniqueId;
    CallOnce(w, x, to, request, code, FreshId, r, s, m);
  }
}
