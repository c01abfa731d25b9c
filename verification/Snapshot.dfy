/**
 * What a call means (crates/app/stf/src/invoker.rs, crates/app/stf/src/handlers.rs), in the simple
 * form where every call owns a copy of the state: a failed call hands back the copy it was given.
 */
module Snapshot {
  import opened Types
  import opened Gas
  import opened ExecState
  import opened Programs

  const MAX_EVENT_NAME_LENGTH: nat := 128
  const MAX_EVENT_CONTENT_SIZE: nat := 64 * 1024

  /** Why the code of an account was written. */
  datatype Cause = NewAccount | Registration | Migration(asker: AccountId)

  /** What a call did to the state, in order. */
  datatype Effect =
    | StorageWrite(writer: AccountId, key: Key)
    | NumberWrite(last: AccountId)
    | CodeWrite(account: AccountId, cause: Cause)
    | CodeRun(account: AccountId, code: CodeId)
    | IdIssued(scope: ExecutionScope, counter: nat, id: Bytes)

  /**
   * The state without its undo log.  `effects` and `full` only observe: `effects` lists what was
   * done and not rolled back, `full` tells whether a write was ever refused for lack of room.
   */
  datatype Snap = Snap(overlay: Overlay, events: seq<Event>, unique: nat, effects: seq<Effect>, full: bool)

  datatype Out = Out(reply: Reply, snap: Snap, meter: Meter)

  datatype Written = Written(result: Result<()>, snap: Snap)

  function Write(s: Snap, key: Key, entry: Option<Value>, effect: Effect): Written {
    if |key| > MAX_KEY_SIZE then Written(Err(KeyTooLarge), s)
    else if entry.Some? && |entry.value| > MAX_VALUE_SIZE then Written(Err(ValueTooLarge), s)
    else if key !in s.overlay && |s.overlay| >= MAX_OVERLAY_ENTRIES then
      Written(Err(OverlaySizeExceeded), s.(full := true))
    else
      Written(Ok(()), s.(overlay := s.overlay[key := entry], effects := s.effects + [effect]))
  }

  /** The code of an account starts to run. */
  function Entered(s: Snap, account: AccountId, code: CodeId): Snap {
    s.(effects := s.effects + [CodeRun(account, code)])
  }

  /** The state a failed call leaves: the one it was given. */
  function RolledBack(given: Snap, reached: Snap): Snap {
    given.(full := reached.full)
  }

  // ---------------------------------------------------------------------------------------
  // Reads

  function CodeIdOf(w: World, o: Overlay, account: AccountId): Result<Option<CodeId>> {
    match Lookup(w.base, o, CodeKey(account))
    case Err(e) => Err(e)
    case Ok(None) => Ok(None)
    case Ok(Some(message)) => match w.decodeCode(message) case Err(e) => Err(e) case Ok(id) => Ok(Some(id))
  }

  function FindCode(w: World, id: CodeId): Result<AccountCode> {
    match w.codes(id)
    case Err(e) => Err(e)
    case Ok(None) => Err(CodeNotFound)
    case Ok(Some(code)) => Ok(code)
  }

  function ResolveCode(w: World, o: Overlay, account: AccountId): Result<AccountCode> {
    match CodeIdOf(w, o, account)
    case Err(e) => Err(e)
    case Ok(None) => Err(AccountDoesNotExist)
    case Ok(Some(id)) => FindCode(w, id)
  }

  datatype Answered = Answered(reply: Reply, meter: Meter)

  /** A read of an account's storage, charged after the value is known. */
  function ReadStorage(w: World, o: Overlay, account: AccountId, key: Key, m: Meter): Answered {
    match Lookup(w.base, o, StorageKey(account, key))
    case Err(e) => Answered(Err(e), m)
    case Ok(value) =>
      var c := ConsumeGet(m, StorageKey(account, key), value);
      Answered(if c.ok then Ok(Stored(value)) else Err(OutOfGas), c.meter)
  }

  function PerformQuery(w: World, o: Overlay, action: QueryAction, m: Meter): Answered
    requires !action.Answer?
  {
    match action
    case Read(account, key) => ReadStorage(w, o, account, key, m)
    case CodeOf(account) =>
      match CodeIdOf(w, o, account) {
        case Err(e) => Answered(Err(e), m)
        case Ok(None) => Answered(Err(AccountDoesNotExist), m)
        case Ok(Some(id)) =>
          match FindCode(w, id)
          case Err(e) => Answered(Err(e), m)
          case Ok(_) => Answered(Ok(Code(id)), m)
      }
  }

  function RunQuery(w: World, o: Overlay, p: QueryProgram, history: seq<Reply>, m: Meter): Answered
    decreases p.steps - |history|
  {
    var action := p.next(history);
    if action.Answer? then Answered(action.reply, m)
    else
      var a := PerformQuery(w, o, action, m);
      RunQuery(w, o, p, history + [a.reply], a.meter)
  }

  function DoQuery(w: World, x: Ctx, to: AccountId, request: Request, o: Overlay, m: Meter): Answered {
    if to == RuntimeAccount() then Answered(Err(UnknownFunction), m)
    else if to == StorageAccount() then
      match w.asRead(request) {
        case Fetch(account, key) => ReadStorage(w, o, account, key, m)
        case MalformedRead => Answered(Err(Encoding), m)
        case UnknownRead => Answered(Err(UnknownFunction), m)
      }
    else
      match ResolveCode(w, o, to) {
        case Err(e) => Answered(Err(e), m)
        case Ok(code) => RunQuery(w, o, code.query(Env(to, RuntimeAccount(), [], x.block), request), [], m)
      }
  }

  // ---------------------------------------------------------------------------------------
  // Writes without calls

  function FromWrite(r: Written, m: Meter): Out {
    match r.result
    case Ok(_) => Out(Ok(Empty), r.snap, m)
    case Err(e) => Out(Err(e), r.snap, m)
  }

  /** `handle_storage_exec`: the executing account writes under its own prefix. */
  function StorageExec(w: World, x: Ctx, request: Request, s: Snap, m: Meter): Out {
    match w.asStorage(request)
    case Put(key, value) =>
      var k := StorageKey(x.whoami, key);
      var c := ConsumeSet(m, k, value);
      if !c.ok then Out(Err(OutOfGas), s, c.meter)
      else FromWrite(Write(s, k, Some(value), StorageWrite(x.whoami, k)), c.meter)
    case Delete(key) =>
      var k := StorageKey(x.whoami, key);
      var c := ConsumeRemove(m, k);
      if !c.ok then Out(Err(OutOfGas), s, c.meter)
      else FromWrite(Write(s, k, None, StorageWrite(x.whoami, k)), c.meter)
    case MalformedStorage => Out(Err(Encoding), s, m)
    case UnknownStorage => Out(Err(UnknownFunction), s, m)
  }

  function EmitEvent(x: Ctx, name: Bytes, data: Bytes, s: Snap, m: Meter): Out {
    if |name| > MAX_EVENT_NAME_LENGTH then Out(Err(EventNameTooLong), s, m)
    else if |data| > MAX_EVENT_CONTENT_SIZE then Out(Err(EventContentTooLarge), s, m)
    else if |s.events| >= MAX_EVENTS_PER_EXECUTION then Out(Err(TooManyEvents), s, m)
    else Out(Ok(Empty), s.(events := s.events + [Event(x.whoami, name, data)]), m)
  }

  /** `unique_id`: the counter moves even when the scope has no id for it. */
  function IssueId(x: Ctx, s: Snap, m: Meter): Out {
    var n := s.unique + 1;
    match UniqueId(x.scope, n)
    case Err(e) => Out(Err(e), s.(unique := n), m)
    case Ok(id) => Out(Ok(Data(id)), s.(unique := n, effects := s.effects + [IdIssued(x.scope, n, id)]), m)
  }

  datatype Numbered = Numbered(result: Result<AccountId>, snap: Snap)

  function LastNumber(w: World, o: Overlay): Result<AccountId> {
    match Lookup(w.base, o, NumberKey())
    case Err(e) => Err(e)
    case Ok(None) => Ok(AccountFromU64(INITIAL_ACCOUNT_NUMBER))
    case Ok(Some(message)) => if |message| == 32 then Ok(message) else Err(Encoding)
  }

  /** `next_account_number` */
  function NextAccountNumber(w: World, s: Snap): Numbered {
    match LastNumber(w, s.overlay)
    case Err(e) => Numbered(Err(e), s)
    case Ok(last) =>
      var r := Write(s, NumberKey(), Some(Increase(last)), NumberWrite(last));
      Numbered(if r.result.Ok? then Ok(last) else Err(r.result.error), r.snap)
  }

  function SetCodeId(w: World, s: Snap, account: AccountId, id: CodeId, cause: Cause): Written {
    Write(s, CodeKey(account), Some(w.encodeCode(id)), CodeWrite(account, cause))
  }

  // ---------------------------------------------------------------------------------------
  // Calls

  /** Runs account code from the point where it has seen `history`. */
  function Run(w: World, x: Ctx, p: Program, history: seq<Reply>, s: Snap, m: Meter): Out
    requires x.depth <= MAX_CALL_DEPTH
    decreases MAX_CALL_DEPTH + 1 - x.depth, 2, p.steps - |history|
  {
    var action := p.next(history);
    if action.Return? then Out(action.reply, s, m)
    else
      var o := Perform(w, x, action, s, m);
      Run(w, x, p, history + [o.reply], o.snap, o.meter)
  }

  function Perform(w: World, x: Ctx, action: Action, s: Snap, m: Meter): Out
    requires x.depth <= MAX_CALL_DEPTH && !action.Return?
    decreases MAX_CALL_DEPTH + 1 - x.depth, 1
  {
    match action
    case Exec(to, request, funds) => DoExec(w, x, to, request, funds, s, m)
    case Query(to, request) => var a := DoQuery(w, x, to, request, s.overlay, m); Out(a.reply, s, a.meter)
    case Emit(name, data) => EmitEvent(x, name, data, s, m)
    case FreshId => IssueId(x, s, m)
  }

  /** A call with transfers, all or nothing: only gas survives a failure. */
  function DoExec(w: World, x: Ctx, to: AccountId, request: Request, funds: seq<Asset>, s: Snap, m: Meter): Out
    requires x.depth <= MAX_CALL_DEPTH
    decreases MAX_CALL_DEPTH + 1 - x.depth, 0, 5
  {
    if x.depth >= MAX_CALL_DEPTH then Out(Err(CallDepthExceeded), s, m)
    else
      var t := Transfers(w, x, to, funds, s, m);
      if t.reply.Err? then Out(t.reply, RolledBack(s, t.snap), t.meter)
      else
        var o := Dispatch(w, x, to, request, funds, t.snap, t.meter);
        if o.reply.Err? then Out(o.reply, RolledBack(s, o.snap), o.meter) else o
  }

  function Transfers(w: World, x: Ctx, to: AccountId, funds: seq<Asset>, s: Snap, m: Meter): Out
    requires x.depth < MAX_CALL_DEPTH
    decreases MAX_CALL_DEPTH + 1 - x.depth, 0, 4, |funds| + 1
  {
    if funds == [] then Out(Ok(Empty), s, m)
    else if to == StorageAccount() then Out(Err(FundsToSystemAccount), s, m)
    else TransferEach(w, x, to, funds, s, m)
  }

  function TransferEach(w: World, x: Ctx, to: AccountId, funds: seq<Asset>, s: Snap, m: Meter): Out
    requires x.depth < MAX_CALL_DEPTH
    decreases MAX_CALL_DEPTH + 1 - x.depth, 0, 4, |funds|
  {
    if funds == [] then Out(Ok(Empty), s, m)
    else
      var o := Dispatch(w, x, funds[0].assetId, w.transfer(to, funds[0].amount), [], s, m);
      if o.reply.Err? then o else TransferEach(w, x, to, funds[1..], o.snap, o.meter)
  }

  /** `exec_without_transfers`: a failure here leaves whatever was done before it. */
  function Dispatch(w: World, x: Ctx, to: AccountId, request: Request, funds: seq<Asset>, s: Snap, m: Meter): Out
    requires x.depth < MAX_CALL_DEPTH
    decreases MAX_CALL_DEPTH + 1 - x.depth, 0, 3
  {
    if to == RuntimeAccount() then SystemExec(w, x, request, funds, s, m)
    else if to == StorageAccount() then StorageExec(w, x, request, s, m)
    else
      match ResolveCode(w, s.overlay, to) {
        case Err(e) => Out(Err(e), s, m)
        case Ok(code) =>
          var child := x.Branch(to, funds);
          var t := Entered(s, to, CodeIdOf(w, s.overlay, to).value.value);
          Run(w, child, code.execute(child.View(), request), [], t, m)
      }
  }

  /** `handle_system_exec` */
  function SystemExec(w: World, x: Ctx, request: Request, funds: seq<Asset>, s: Snap, m: Meter): Out
    requires x.depth < MAX_CALL_DEPTH
    decreases MAX_CALL_DEPTH + 1 - x.depth, 0, 2
  {
    match w.asSystem(request)
    case CreateAccount(codeId, init) => CreateNew(w, x, codeId, init, funds, s, m)
    case RegisterAccountAtId(account, codeId, init) => RegisterAt(w, x, account, codeId, init, s, m)
    case Migrate(account, newCode, message) => MigrateAccount(w, x, account, newCode, message, funds, s, m)
    case MalformedSystem => Out(Err(Encoding), s, m)
    case UnknownSystem => Out(Err(UnknownFunction), s, m)
  }

  /** `create_account` */
  function CreateNew(w: World, x: Ctx, codeId: CodeId, init: Bytes, funds: seq<Asset>, s: Snap, m: Meter): Out
    requires x.depth < MAX_CALL_DEPTH
    decreases MAX_CALL_DEPTH + 1 - x.depth, 0, 1
  {
    if !w.validCode(codeId) then Out(Err(InvalidCodeId), s, m)
    else
      var n := NextAccountNumber(w, s);
      if n.result.Err? then Out(Err(n.result.error), n.snap, m)
      else Install(w, x, n.result.value, codeId, init, funds, n.snap, m)
  }

  /** Sets the code of a new account and runs its init with the code found in storage. */
  function Install(w: World, x: Ctx, account: AccountId, codeId: CodeId, init: Bytes, funds: seq<Asset>, s: Snap, m: Meter): Out
    requires x.depth < MAX_CALL_DEPTH
    decreases MAX_CALL_DEPTH + 1 - x.depth, 0, 0
  {
    var r := SetCodeId(w, s, account, codeId, NewAccount);
    if r.result.Err? then Out(Err(r.result.error), r.snap, m)
    else
      match ResolveCode(w, r.snap.overlay, account)
      case Err(e) => Out(Err(e), r.snap, m)
      case Ok(code) =>
        var child := x.Branch(account, funds);
        var t := Entered(r.snap, account, CodeIdOf(w, r.snap.overlay, account).value.value);
        var o := Run(w, child, code.init(child.View(), Request(0, init)), [], t, m);
        if o.reply.Ok? then o.(reply := Ok(Created(account, o.reply.value))) else o
  }

  /** `register_account_at_id`: does nothing when the account already has a code. */
  function RegisterAt(w: World, x: Ctx, account: AccountId, codeId: CodeId, init: Bytes, s: Snap, m: Meter): Out
    requires x.depth < MAX_CALL_DEPTH
    decreases MAX_CALL_DEPTH + 1 - x.depth, 0, 1
  {
    match CodeIdOf(w, s.overlay, account)
    case Err(e) => Out(Err(e), s, m)
    case Ok(Some(_)) => Out(Ok(Empty), s, m)
    case Ok(None) =>
      if !w.validCode(codeId) then Out(Err(InvalidCodeId), s, m)
      else
        var c := ConsumeSet(m, CodeKey(account), w.encodeCode(codeId));
        if !c.ok then Out(Err(OutOfGas), s, c.meter)
        else InstallAt(w, x, account, codeId, init, s, c.meter)
  }

  /** Sets the code of a registered account and runs the init of that very code. */
  function InstallAt(w: World, x: Ctx, account: AccountId, codeId: CodeId, init: Bytes, s: Snap, m: Meter): Out
    requires x.depth < MAX_CALL_DEPTH
    decreases MAX_CALL_DEPTH + 1 - x.depth, 0, 0
  {
    var r := SetCodeId(w, s, account, codeId, Registration);
    if r.result.Err? then Out(Err(r.result.error), r.snap, m)
    else
      match FindCode(w, codeId)
      case Err(e) => Out(Err(e), r.snap, m)
      case Ok(code) =>
        var child := x.Branch(account, []);
        var o := Run(w, child, code.init(child.View(), Request(0, init)), [], Entered(r.snap, account, codeId), m);
        if o.reply.Ok? then o.(reply := Ok(Empty)) else o
  }

  /** Migration, asked by the account itself: new code first, then the message, sent by the runtime. */
  function MigrateAccount(w: World, x: Ctx, account: AccountId, newCode: CodeId, message: Request,
                          funds: seq<Asset>, s: Snap, m: Meter): Out
    requires x.depth < MAX_CALL_DEPTH
    decreases MAX_CALL_DEPTH + 1 - x.depth, 0, 1
  {
    var runtime := x.Branch(RuntimeAccount(), []);
    if account != runtime.sender then Out(Err(Unauthorized), s, m)
    else
      match CodeIdOf(w, s.overlay, account)
      case Err(e) => Out(Err(e), s, m)
      case Ok(None) => Out(Err(AccountDoesNotExist), s, m)
      case Ok(Some(current)) =>
        match FindCode(w, newCode)
        case Err(e) => Out(Err(e), s, m)
        case Ok(_) =>
          if current == newCode then Out(Err(SameCodeMigration), s, m)
          else Switch(w, runtime, account, newCode, message, funds, s, m)
  }

  function Switch(w: World, x: Ctx, account: AccountId, newCode: CodeId, message: Request,
                  funds: seq<Asset>, s: Snap, m: Meter): Out
    requires x.depth <= MAX_CALL_DEPTH
    decreases MAX_CALL_DEPTH + 1 - x.depth, 0, 6
  {
    var r := SetCodeId(w, s, account, newCode, Migration(x.sender));
    if r.result.Err? then Out(Err(r.result.error), r.snap, m)
    else DoExec(w, x, account, message, funds, r.snap, m)
  }
}
