/**
 * Execution scopes, storage keys, and account code.  Account code is any deterministic program
 * that talks to its environment: its next action is a function of the replies it has seen.
 */
module Programs {
  import opened Types
  import opened ExecState

  // ---------------------------------------------------------------------------------------
  // Unique ids (crates/app/stf/src/execution_scope.rs)

  const MAX_OBJECTS_PER_TRANSACTION: nat := 65_535

  datatype ExecutionScope =
    | BeginBlock(height: U64)
    | EndBlock(height: U64)
    | Transaction(id: Hash)
    | QueryScope

  function UniqueId(scope: ExecutionScope, objectId: nat): Result<Bytes> {
    match scope
    case BeginBlock(height) => Ok(BigEndian(height, 8) + BigEndian(objectId, 8) + Zeros(16))
    case EndBlock(height) => Ok(BigEndian(height, 8) + BigEndian(objectId, 8) + Zeros(16))
    case Transaction(id) =>
      if objectId > MAX_OBJECTS_PER_TRANSACTION then Err(TooManyObjects)
      else Ok(id[..30] + BigEndian(objectId, 2))
    case QueryScope => Err(ExecInQuery)
  }

  /** A transaction's id is its own with the counter at the end; a block's has height, counter and zeros. */
  lemma UniqueIdLayout(scope: ExecutionScope, n: nat)
    requires n <= U64_MAX && UniqueId(scope, n).Ok?
    ensures var id := UniqueId(scope, n).value;
            && |id| == 32
            && FromBigEndian(id[30..]) == (if scope.Transaction? then n else 0)
            && (scope.Transaction? ==> id[..30] == scope.id[..30])
            && (!scope.Transaction? ==> FromBigEndian(id[..8]) == scope.height && FromBigEndian(id[8..16]) == n)
  {
    var id := UniqueId(scope, n).value;
    if scope.Transaction? {
      assert Pow256(2) == 65536;
      BigEndianRoundTrip(n, 2);
      assert id[30..] == BigEndian(n, 2) && id[..30] == scope.id[..30];
    } else {
      assert Pow256(8) == U64_MAX + 1 by {
        assert Pow256(4) == 0x1_0000_0000;
      }
      BigEndianRoundTrip(n, 8);
      BigEndianRoundTrip(scope.height, 8);
      assert id[..8] == BigEndian(scope.height, 8) && id[8..16] == BigEndian(n, 8);
      assert id[30..] == [0, 0];
      assert [0, 0][..1] == [0] && [0][..0] == [];
    }
  }

  /**
   * Two ids are equal exactly when their counters are and they come from transactions that agree in
   * the first 30 bytes, or from blocks of one height.
   */
  lemma UniqueIdsEqualIff(scope1: ExecutionScope, n1: nat, scope2: ExecutionScope, n2: nat)
    requires 0 < n1 <= U64_MAX && 0 < n2 <= U64_MAX
    requires UniqueId(scope1, n1).Ok? && UniqueId(scope2, n2).Ok?
    ensures UniqueId(scope1, n1) == UniqueId(scope2, n2) <==>
            && n1 == n2
            && if scope1.Transaction? && scope2.Transaction? then scope1.id[..30] == scope2.id[..30]
               else !scope1.Transaction? && !scope2.Transaction? && scope1.height == scope2.height
  {
    UniqueIdLayout(scope1, n1);
    UniqueIdLayout(scope2, n2);
  }

  // ---------------------------------------------------------------------------------------
  // Storage keys (crates/app/stf/src/handlers.rs, crates/app/stf/src/runtime_api_impl.rs)

  const ACCOUNT_IDENTIFIER_PREFIX: Byte := 0
  const ACCOUNT_IDENTIFIER_SINGLETON_PREFIX: Byte := 1
  const ACCOUNT_STORAGE_PREFIX: Byte := 2

  const INITIAL_ACCOUNT_NUMBER: U64 := 65_535

  function RuntimeAccount(): AccountId { AccountFromU64(0) }
  function StorageAccount(): AccountId { AccountFromU64(1) }
  function InvalidAccount(): AccountId { seq(32, _ => 255) }

  lemma SystemAccountsDiffer()
    ensures RuntimeAccount() != StorageAccount()
  {
    AccountDenotes(0);
    AccountDenotes(1);
  }

  function StorageKey(account: AccountId, key: Key): Key {
    [ACCOUNT_STORAGE_PREFIX] + account + key
  }

  function CodeKey(account: AccountId): Key {
    [ACCOUNT_IDENTIFIER_PREFIX] + account
  }

  function NumberKey(): Key {
    [ACCOUNT_IDENTIFIER_SINGLETON_PREFIX]
  }

  /** The keys of an account's own storage. */
  predicate InNamespace(account: AccountId, key: Key) {
    |key| >= 33 && key[0] == ACCOUNT_STORAGE_PREFIX && key[1..33] == account
  }

  /** A storage key lies in its account's namespace and in no other; system keys lie in none. */
  lemma NamespacesAreDisjoint(owner: AccountId, key: Key, other: AccountId)
    ensures InNamespace(other, StorageKey(owner, key)) <==> other == owner
    ensures !InNamespace(other, CodeKey(owner)) && !InNamespace(other, NumberKey())
    ensures CodeKey(owner) == CodeKey(other) <==> owner == other
  {
    assert StorageKey(owner, key)[1..33] == owner;
    assert CodeKey(owner)[1..] == owner && CodeKey(other)[1..] == other;
  }

  /** `AccountId::increase`: adds one to the big-endian number, wrapping around. */
  function Increase(a: Bytes): (b: Bytes)
    ensures |b| == |a|
  {
    if a == [] then []
    else if a[|a| - 1] == 255 then Increase(a[..|a| - 1]) + [0]
    else a[..|a| - 1] + [a[|a| - 1] + 1]
  }

  lemma {:induction false} IncreaseAddsOne(a: Bytes)
    ensures FromBigEndian(a) < Pow256(|a|)
    ensures FromBigEndian(Increase(a)) ==
            if FromBigEndian(a) + 1 == Pow256(|a|) then 0 else FromBigEndian(a) + 1
  {
    if a != [] {
      var init, last := a[..|a| - 1], a[|a| - 1];
      IncreaseAddsOne(init);
      assert Increase(a)[..|a| - 1] == if last == 255 then Increase(init) else init;
    }
  }

  // ---------------------------------------------------------------------------------------
  // Account code

  type CodeId = Bytes

  datatype Asset = Asset(assetId: AccountId, amount: nat)

  datatype BlockContext = BlockContext(height: U64, time: U64)

  datatype Request = Request(functionId: U64, body: Bytes)

  datatype Response =
    | Empty
    | Data(bytes: Bytes)
    | Stored(value: Option<Value>)
    | Account(id: AccountId)
    | Code(code: CodeId)
    | Created(account: AccountId, init: Response)

  type Reply = Result<Response>

  /** What account code can see of its call. */
  datatype Env = Env(whoami: AccountId, sender: AccountId, funds: seq<Asset>, block: BlockContext)

  datatype Action =
    | Return(reply: Reply)
    | Exec(to: AccountId, request: Request, funds: seq<Asset>)
    | Query(to: AccountId, request: Request)
    | Emit(name: Bytes, data: Bytes)
    | FreshId

  datatype Strategy = Strategy(next: seq<Reply> -> Action, steps: nat)

  ghost predicate Halts(p: Strategy) {
    forall h: seq<Reply> :: |h| >= p.steps ==> p.next(h).Return?
  }

  /** Code that returns after at most `steps` environment calls, whatever the replies. */
  type Program = p: Strategy | Halts(p) witness Strategy((h: seq<Reply>) => Return(Ok(Empty)), 0)

  /**
   * A query is a finite tree of storage reads.  A query to another account is the look-up of that
   * account's code followed by that code's own reads.
   */
  datatype QueryAction =
    | Answer(reply: Reply)
    | Read(account: AccountId, key: Key)
    | CodeOf(account: AccountId)

  datatype QueryStrategy = QueryStrategy(next: seq<Reply> -> QueryAction, steps: nat)

  ghost predicate Answers(p: QueryStrategy) {
    forall h: seq<Reply> :: |h| >= p.steps ==> p.next(h).Answer?
  }

  type QueryProgram = p: QueryStrategy | Answers(p)
    witness QueryStrategy((h: seq<Reply>) => Answer(Ok(Empty)), 0)

  datatype AccountCode = AccountCode(
    init: (Env, Request) -> Program,
    execute: (Env, Request) -> Program,
    query: (Env, Request) -> QueryProgram)

  // Decoded requests to the two system accounts.

  datatype SystemCall =
    | CreateAccount(codeId: CodeId, init: Bytes)
    | RegisterAccountAtId(account: AccountId, codeId: CodeId, init: Bytes)
    | Migrate(account: AccountId, newCode: CodeId, message: Request)
    | MalformedSystem
    | UnknownSystem

  datatype StorageCall =
    | Put(key: Key, value: Value)
    | Delete(key: Key)
    | MalformedStorage
    | UnknownStorage

  datatype StorageRead =
    | Fetch(account: AccountId, key: Key)
    | MalformedRead
    | UnknownRead

  /** Everything an execution depends on besides its state: the store, the codes, the codecs. */
  datatype World = World(
    base: Base,
    codes: CodeId -> Result<Option<AccountCode>>,
    asSystem: Request -> SystemCall,
    asStorage: Request -> StorageCall,
    asRead: Request -> StorageRead,
    transfer: (AccountId, nat) -> Request,
    validCode: CodeId -> bool,
    encodeCode: CodeId -> Bytes,
    decodeCode: Bytes -> Result<CodeId>)

  /** The context of one call: an invoker without its references to state and gas. */
  datatype Ctx = Ctx(whoami: AccountId, sender: AccountId, funds: seq<Asset>,
                     scope: ExecutionScope, depth: nat, block: BlockContext)
  {
    function View(): Env {
      Env(whoami, sender, funds, block)
    }

    /** `branch_exec` */
    function Branch(to: AccountId, assets: seq<Asset>): Ctx {
      Ctx(to, whoami, assets, scope, depth + 1, block)
    }
  }

  const MAX_CALL_DEPTH: nat := 64
}
