/**
 * The call machinery as the code runs it (crates/app/stf/src/invoker.rs,
 * crates/app/stf/src/handlers.rs): one mutable execution state with one undo log and one gas
 * counter, shared by a whole tree of calls.  Every method is proved to do what the snapshot
 * semantics says, and to leave a log from which the state before it can be restored.
 */
module Invoker {
  import opened Types
  import opened Gas
  import opened ExecState
  import opened Programs
  import Spec = Snapshot

  ghost predicate Agrees(c: Conc, s: Spec.Snap) {
    c.overlay == s.overlay && c.events == s.events && c.unique == s.unique
  }

  class Invoker {
    const w: World
    const storage: ExecutionState
    const gas: GasCounter

    constructor (w: World, storage: ExecutionState, gas: GasCounter)
      requires storage.base == w.base
      ensures this.w == w && this.storage == storage && this.gas == gas
    {
      this.w, this.storage, this.gas := w, storage, gas;
    }

    ghost predicate Ready(s: Spec.Snap)
      reads storage
    {
      storage.base == w.base && Agrees(storage.View(), s)
    }

    /** The state and the gas are those of `o`, and the state `before` can be restored. */
    ghost predicate Reached(before: Conc, o: Spec.Out)
      reads storage, gas
    {
      Agrees(storage.View(), o.snap) && gas.meter == o.meter && Undoes(before, storage.View())
    }

    // -------------------------------------------------------------------------------------
    // Reads

    method CodeIdOf(account: AccountId) returns (r: Result<Option<CodeId>>)
      requires storage.base == w.base
      ensures r == Spec.CodeIdOf(w, storage.overlay, account)
    {
      var message := storage.Get(CodeKey(account));
      match message {
        case Err(e) => return Err(e);
        case Ok(None) => return Ok(None);
        case Ok(Some(bytes)) =>
          var id := w.decodeCode(bytes);
          match id {
            case Err(e) => return Err(e);
            case Ok(code) => return Ok(Some(code));
          }
      }
    }

    method ResolveCode(account: AccountId) returns (r: Result<AccountCode>)
      requires storage.base == w.base
      ensures r == Spec.ResolveCode(w, storage.overlay, account)
    {
      var id := CodeIdOf(account);
      match id {
        case Err(e) => return Err(e);
        case Ok(None) => return Err(AccountDoesNotExist);
        case Ok(Some(code)) => return Spec.FindCode(w, code);
      }
    }

    /** `handle_storage_query` */
    method ReadStorage(account: AccountId, key: Key) returns (r: Reply)
      requires storage.base == w.base
      modifies gas
      ensures Spec.Answered(r, gas.meter) == Spec.ReadStorage(w, storage.overlay, account, key, old(gas.meter))
    {
      var k := StorageKey(account, key);
      var value := storage.Get(k);
      match value {
        case Err(e) => return Err(e);
        case Ok(v) =>
          var charged := gas.ConsumeGetGas(k, v);
          if charged.Err? {
            return Err(charged.error);
          }
          return Ok(Stored(v));
      }
    }

    method DoQuery(x: Ctx, to: AccountId, request: Request) returns (r: Reply)
      requires storage.base == w.base
      modifies gas
      ensures Spec.Answered(r, gas.meter) == Spec.DoQuery(w, x, to, request, storage.overlay, old(gas.meter))
    {
      if to == RuntimeAccount() {
        return Err(UnknownFunction);
      }
      if to == StorageAccount() {
        match w.asRead(request) {
          case Fetch(account, key) => r := ReadStorage(account, key); return;
          case MalformedRead => return Err(Encoding);
          case UnknownRead => return Err(UnknownFunction);
        }
      }
      var found := ResolveCode(to);
      match found {
        case Err(e) => return Err(e);
        case Ok(code) => r := RunQuery(code.query(Env(to, RuntimeAccount(), [], x.block), request));
      }
    }

    method RunQuery(p: QueryProgram) returns (r: Reply)
      requires storage.base == w.base
      modifies gas
      ensures Spec.Answered(r, gas.meter) == Spec.RunQuery(w, storage.overlay, p, [], old(gas.meter))
    {
      var history: seq<Reply> := [];
      while !p.next(history).Answer?
        invariant Spec.RunQuery(w, storage.overlay, p, [], old(gas.meter))
               == Spec.RunQuery(w, storage.overlay, p, history, gas.meter)
        decreases p.steps - |history|
      {
        var reply: Reply;
        match p.next(history) {
          case Read(account, key) => reply := ReadStorage(account, key);
          case CodeOf(account) =>
            var id := CodeIdOf(account);
            match id {
              case Err(e) => reply := Err(e);
              case Ok(None) => reply := Err(AccountDoesNotExist);
              case Ok(Some(code)) =>
                var found := Spec.FindCode(w, code);
                reply := match found case Err(e) => Err(e) case Ok(_) => Ok(Code(code));
            }
        }
        history := history + [reply];
      }
      r := p.next(history).reply;
    }

    // -------------------------------------------------------------------------------------
    // Writes without calls

    method Put(key: Key, value: Value, ghost effect: Spec.Effect, ghost s: Spec.Snap) returns (r: Result<()>)
      requires Ready(s)
      modifies storage
      ensures var t := Spec.Write(s, key, Some(value), effect);
              r == t.result && Agrees(storage.View(), t.snap)
      ensures Undoes(old(storage.View()), storage.View())
    {
      SetUndoes(storage.View(), key, value);
      r := storage.Set(key, value);
    }

    method Delete(key: Key, ghost effect: Spec.Effect, ghost s: Spec.Snap) returns (r: Result<()>)
      requires Ready(s)
      modifies storage
      ensures var t := Spec.Write(s, key, None, effect);
              r == t.result && Agrees(storage.View(), t.snap)
      ensures Undoes(old(storage.View()), storage.View())
    {
      RemoveUndoes(storage.View(), key);
      r := storage.Remove(key);
    }

    /** `handle_storage_exec` */
    method StorageExec(x: Ctx, request: Request, ghost s: Spec.Snap) returns (r: Reply)
      requires Ready(s)
      modifies storage, gas
      ensures var o := Spec.StorageExec(w, x, request, s, old(gas.meter));
              r == o.reply && Reached(old(storage.View()), o)
    {
      hide Undoes, Spec.Write;
      UndoesReflexive(storage.View());
      match w.asStorage(request) {
        case Put(key, value) =>
          var k := StorageKey(x.whoami, key);
          var charged := gas.ConsumeSetGas(k, value);
          if charged.Err? {
            return Err(charged.error);
          }
          var done := Put(k, value, Spec.StorageWrite(x.whoami, k), s);
          return if done.Ok? then Ok(Empty) else Err(done.error);
        case Delete(key) =>
          var k := StorageKey(x.whoami, key);
          var charged := gas.ConsumeRemoveGas(k);
          if charged.Err? {
            return Err(charged.error);
          }
          var done := Delete(k, Spec.StorageWrite(x.whoami, k), s);
          return if done.Ok? then Ok(Empty) else Err(done.error);
        case MalformedStorage => return Err(Encoding);
        case UnknownStorage => return Err(UnknownFunction);
      }
    }

    method EmitEvent(x: Ctx, name: Bytes, data: Bytes, ghost s: Spec.Snap) returns (r: Reply)
      requires Ready(s)
      modifies storage
      ensures var o := Spec.EmitEvent(x, name, data, s, gas.meter);
              r == o.reply && Reached(old(storage.View()), o)
    {
      UndoesReflexive(storage.View());
      if |name| > Spec.MAX_EVENT_NAME_LENGTH {
        return Err(EventNameTooLong);
      }
      if |data| > Spec.MAX_EVENT_CONTENT_SIZE {
        return Err(EventContentTooLarge);
      }
      var done := storage.EmitEvent(Event(x.whoami, name, data));
      return if done.Ok? then Ok(Empty) else Err(done.error);
    }

    method IssueId(x: Ctx, ghost s: Spec.Snap) returns (r: Reply)
      requires Ready(s)
      modifies storage
      ensures var o := Spec.IssueId(x, s, gas.meter);
              r == o.reply && Reached(old(storage.View()), o)
    {
      UndoesReflexive(storage.View());
      var counter := storage.NextUniqueObjectId();
      var id := UniqueId(x.scope, counter);
      return if id.Ok? then Ok(Data(id.value)) else Err(id.error);
    }

    method NextAccountNumber(ghost s: Spec.Snap) returns (r: Result<AccountId>)
      requires Ready(s)
      modifies storage
      ensures var n := Spec.NextAccountNumber(w, s);
              r == n.result && Agrees(storage.View(), n.snap)
      ensures Undoes(old(storage.View()), storage.View())
    {
      UndoesReflexive(storage.View());
      var stored := storage.Get(NumberKey());
      var last: AccountId;
      match stored {
        case Err(e) => return Err(e);
        case Ok(None) => last := AccountFromU64(INITIAL_ACCOUNT_NUMBER);
        case Ok(Some(message)) =>
          if |message| != 32 {
            return Err(Encoding);
          }
          last := message;
      }
      var done := Put(NumberKey(), Increase(last), Spec.NumberWrite(last), s);
      return if done.Ok? then Ok(last) else Err(done.error);
    }

    // -------------------------------------------------------------------------------------
    // Calls

    /** Account code runs against the environment until it returns. */
    method Run(x: Ctx, p: Program, ghost s: Spec.Snap) returns (r: Reply)
      requires x.depth <= MAX_CALL_DEPTH && Ready(s)
      modifies storage, gas
      ensures var o := Spec.Run(w, x, p, [], s, old(gas.meter));
              r == o.reply && Reached(old(storage.View()), o)
      decreases MAX_CALL_DEPTH + 1 - x.depth, 2
    {
      var history: seq<Reply> := [];
      ghost var now := s;
      UndoesReflexive(storage.View());
      while !p.next(history).Return?
        invariant Ready(now) && Undoes(old(storage.View()), storage.View())
        invariant Spec.Run(w, x, p, [], s, old(gas.meter)) == Spec.Run(w, x, p, history, now, gas.meter)
        decreases p.steps - |history|
      {
        ghost var before, m := storage.View(), gas.meter;
        var reply := Perform(x, p.next(history), now);
        UndoesTransitive(old(storage.View()), before, storage.View());
        now := Spec.Perform(w, x, p.next(history), now, m).snap;
        history := history + [reply];
      }
      r := p.next(history).reply;
    }

    method Perform(x: Ctx, action: Action, ghost s: Spec.Snap) returns (r: Reply)
      requires x.depth <= MAX_CALL_DEPTH && !action.Return? && Ready(s)
      modifies storage, gas
      ensures var o := Spec.Perform(w, x, action, s, old(gas.meter));
              r == o.reply && Reached(old(storage.View()), o)
      decreases MAX_CALL_DEPTH + 1 - x.depth, 1
    {
      match action {
        case Exec(to, request, funds) => r := DoExec(x, to, request, funds, s);
        case Query(to, request) =>
          UndoesReflexive(storage.View());
          r := DoQuery(x, to, request);
        case Emit(name, data) => r := EmitEvent(x, name, data, s);
        case FreshId => r := IssueId(x, s);
      }
    }

    /**
     * A call with transfers.  On failure the checkpoint is restored: overlay, undo log, events
     * and counter are exactly those before the call, and the restore itself never fails.
     */
    method DoExec(x: Ctx, to: AccountId, request: Request, funds: seq<Asset>, ghost s: Spec.Snap) returns (r: Reply)
      requires x.depth <= MAX_CALL_DEPTH && Ready(s)
      modifies storage, gas
      ensures var o := Spec.DoExec(w, x, to, request, funds, s, old(gas.meter));
              r == o.reply && Reached(old(storage.View()), o)
      ensures r.Err? ==> storage.View() == old(storage.View())
      decreases MAX_CALL_DEPTH + 1 - x.depth, 0, 5
    {
      UndoesReflexive(storage.View());
      if x.depth >= MAX_CALL_DEPTH {
        return Err(CallDepthExceeded);
      }
      var checkpoint := storage.TakeCheckpoint();

      r := HandleTransfers(x, to, funds, s);
      if r.Err? {
        RestoreUndoes(old(storage.View()), storage.View());
        var restored := storage.Restore(checkpoint);
        assert restored.Ok?;  // the panic after a failed restore is unreachable
        return;
      }

      ghost var t := Spec.Transfers(w, x, to, funds, s, old(gas.meter));
      ghost var before := storage.View();
      r := ExecWithoutTransfers(x, to, request, funds, t.snap);
      UndoesTransitive(old(storage.View()), before, storage.View());
      if r.Err? {
        RestoreUndoes(old(storage.View()), storage.View());
        var restored := storage.Restore(checkpoint);
        assert restored.Ok?;
      }
    }

    method HandleTransfers(x: Ctx, to: AccountId, funds: seq<Asset>, ghost s: Spec.Snap) returns (r: Reply)
      requires x.depth < MAX_CALL_DEPTH && Ready(s)
      modifies storage, gas
      ensures var o := Spec.Transfers(w, x, to, funds, s, old(gas.meter));
              r == o.reply && Reached(old(storage.View()), o)
      decreases MAX_CALL_DEPTH + 1 - x.depth, 0, 4
    {
      UndoesReflexive(storage.View());
      if funds == [] {
        return Ok(Empty);
      }
      if to == StorageAccount() {
        return Err(FundsToSystemAccount);
      }
      ghost var now := s;
      for i := 0 to |funds|
        invariant Ready(now) && Undoes(old(storage.View()), storage.View())
        invariant Spec.TransferEach(w, x, to, funds, s, old(gas.meter))
               == Spec.TransferEach(w, x, to, funds[i..], now, gas.meter)
      {
        assert funds[i..][1..] == funds[i + 1..];
        ghost var before, m := storage.View(), gas.meter;
        var transfer := w.transfer(to, funds[i].amount);
        r := ExecWithoutTransfers(x, funds[i].assetId, transfer, [], now);
        UndoesTransitive(old(storage.View()), before, storage.View());
        if r.Err? {
          return;
        }
        now := Spec.Dispatch(w, x, funds[i].assetId, transfer, [], now, m).snap;
      }
      return Ok(Empty);
    }

    method ExecWithoutTransfers(x: Ctx, to: AccountId, request: Request, funds: seq<Asset>, ghost s: Spec.Snap)
      returns (r: Reply)
      requires x.depth < MAX_CALL_DEPTH && Ready(s)
      modifies storage, gas
      ensures var o := Spec.Dispatch(w, x, to, request, funds, s, old(gas.meter));
              r == o.reply && Reached(old(storage.View()), o)
      decreases MAX_CALL_DEPTH + 1 - x.depth, 0, 3
    {
      if to == RuntimeAccount() {
        r := SystemExec(x, request, funds, s);
      } else if to == StorageAccount() {
        r := StorageExec(x, request, s);
      } else {
        UndoesReflexive(storage.View());
        var found := ResolveCode(to);
        match found {
          case Err(e) => return Err(e);
          case Ok(code) =>
            var child := x.Branch(to, funds);
            r := Run(child, code.execute(child.View(), request), Spec.Entered(s, to, Spec.CodeIdOf(w, s.overlay, to).value.value));
        }
      }
    }

    /** `handle_system_exec` */
    method SystemExec(x: Ctx, request: Request, funds: seq<Asset>, ghost s: Spec.Snap) returns (r: Reply)
      requires x.depth < MAX_CALL_DEPTH && Ready(s)
      modifies storage, gas
      ensures var o := Spec.SystemExec(w, x, request, funds, s, old(gas.meter));
              r == o.reply && Reached(old(storage.View()), o)
      decreases MAX_CALL_DEPTH + 1 - x.depth, 0, 2
    {
      UndoesReflexive(storage.View());
      match w.asSystem(request) {
        case CreateAccount(codeId, init) => r := CreateAccount(x, codeId, init, funds, s);
        case RegisterAccountAtId(account, codeId, init) => r := RegisterAccountAtId(x, account, codeId, init, s);
        case Migrate(account, newCode, message) => r := Migrate(x, account, newCode, message, funds, s);
        case MalformedSystem => return Err(Encoding);
        case UnknownSystem => return Err(UnknownFunction);
      }
    }

    method CreateAccount(x: Ctx, codeId: CodeId, init: Bytes, funds: seq<Asset>, ghost s: Spec.Snap) returns (r: Reply)
      requires x.depth < MAX_CALL_DEPTH && Ready(s)
      modifies storage, gas
      ensures var o := Spec.CreateNew(w, x, codeId, init, funds, s, old(gas.meter));
              r == o.reply && Reached(old(storage.View()), o)
      decreases MAX_CALL_DEPTH + 1 - x.depth, 0, 1
    {
      UndoesReflexive(storage.View());
      if !w.validCode(codeId) {
        return Err(InvalidCodeId);
      }
      var number := NextAccountNumber(s);
      if number.Err? {
        return Err(number.error);
      }
      var account := number.value;
      ghost var c1, n := storage.View(), Spec.NextAccountNumber(w, s);
      var done := Put(CodeKey(account), w.encodeCode(codeId), Spec.CodeWrite(account, Spec.NewAccount), n.snap);
      UndoesTransitive(old(storage.View()), c1, storage.View());
      if done.Err? {
        return Err(done.error);
      }
      ghost var c2, t := storage.View(), Spec.SetCodeId(w, n.snap, account, codeId, Spec.NewAccount);
      var found := ResolveCode(account);
      match found {
        case Err(e) => return Err(e);
        case Ok(code) =>
          var child := x.Branch(account, funds);
          ghost var id := Spec.CodeIdOf(w, t.snap.overlay, account).value.value;
          r := Run(child, code.init(child.View(), Request(0, init)), Spec.Entered(t.snap, account, id));
          UndoesTransitive(old(storage.View()), c2, storage.View());
          if r.Ok? {
            return Ok(Created(account, r.value));
          }
      }
    }

    method RegisterAccountAtId(x: Ctx, account: AccountId, codeId: CodeId, init: Bytes, ghost s: Spec.Snap)
      returns (r: Reply)
      requires x.depth < MAX_CALL_DEPTH && Ready(s)
      modifies storage, gas
      ensures var o := Spec.RegisterAt(w, x, account, codeId, init, s, old(gas.meter));
              r == o.reply && Reached(old(storage.View()), o)
      decreases MAX_CALL_DEPTH + 1 - x.depth, 0, 1
    {
      UndoesReflexive(storage.View());
      var known := CodeIdOf(account);
      match known {
        case Err(e) => return Err(e);
        case Ok(Some(_)) => return Ok(Empty);
        case Ok(None) =>
      }
      if !w.validCode(codeId) {
        return Err(InvalidCodeId);
      }
      var charged := gas.ConsumeSetGas(CodeKey(account), w.encodeCode(codeId));
      if charged.Err? {
        return Err(charged.error);
      }
      var done := Put(CodeKey(account), w.encodeCode(codeId), Spec.CodeWrite(account, Spec.Registration), s);
      if done.Err? {
        return Err(done.error);
      }
      ghost var c, t := storage.View(), Spec.SetCodeId(w, s, account, codeId, Spec.Registration);
      var found := Spec.FindCode(w, codeId);
      match found {
        case Err(e) => return Err(e);
        case Ok(code) =>
          var child := x.Branch(account, []);
          r := Run(child, code.init(child.View(), Request(0, init)), Spec.Entered(t.snap, account, codeId));
          UndoesTransitive(old(storage.View()), c, storage.View());
          if r.Ok? {
            return Ok(Empty);
          }
      }
    }

    method Migrate(x: Ctx, account: AccountId, newCode: CodeId, message: Request, funds: seq<Asset>, ghost s: Spec.Snap)
      returns (r: Reply)
      requires x.depth < MAX_CALL_DEPTH && Ready(s)
      modifies storage, gas
      ensures var o := Spec.MigrateAccount(w, x, account, newCode, message, funds, s, old(gas.meter));
              r == o.reply && Reached(old(storage.View()), o)
      decreases MAX_CALL_DEPTH + 1 - x.depth, 0, 1
    {
      UndoesReflexive(storage.View());
      var runtime := x.Branch(RuntimeAccount(), []);
      if account != runtime.sender {
        return Err(Unauthorized);
      }
      var current := CodeIdOf(account);
      match current {
        case Err(e) => return Err(e);
        case Ok(None) => return Err(AccountDoesNotExist);
        case Ok(Some(_)) =>
      }
      var found := Spec.FindCode(w, newCode);
      if found.Err? {
        return Err(found.error);
      }
      if current.value.value == newCode {
        return Err(SameCodeMigration);
      }
      var done := Put(CodeKey(account), w.encodeCode(newCode), Spec.CodeWrite(account, Spec.Migration(runtime.sender)), s);
      if done.Err? {
        return Err(done.error);
      }
      ghost var c, t := storage.View(), Spec.SetCodeId(w, s, account, newCode, Spec.Migration(runtime.sender));
      r := DoExec(runtime, account, message, funds, t.snap);
      UndoesTransitive(old(storage.View()), c, storage.View());
    }
  }
}
