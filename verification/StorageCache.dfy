/**
 * The read cache in front of the database: storage keys (crates/storage/src/types.rs), the sharded
 * cache (crates/storage/src/cache.rs) and the storage that keeps both in step
 * (crates/storage/src/qmdb_impl.rs).  Each storage operation is one atomic step.
 */
module StorageCache {
  import opened Types
  import C = Commit

  type Key = Bytes
  type Value = Bytes

  const STORAGE_KEY_SIZE: nat := 256
  const MAX_KEY_SIZE: nat := 254
  const MAX_VALUE_SIZE: nat := 4092
  const MAX_BATCH_SIZE: nat := 10_000
  const NUM_SHARDS: nat := 256

  // ---------------------------------------------------------------------------------------
  // Storage keys

  /** The length in two bytes, little-endian, then the key, padded with zeros to 256 bytes. */
  function CreateStorageKey(key: Key): (r: Result<Bytes>)
    ensures r.Ok? <==> |key| <= MAX_KEY_SIZE
    ensures r.Ok? ==> |r.value| == STORAGE_KEY_SIZE
    ensures r.Err? ==> r.error == KeyTooLarge
  {
    if |key| > MAX_KEY_SIZE then Err(KeyTooLarge)
    else Ok([|key| % 256, |key| / 256] + key + Zeros(MAX_KEY_SIZE - |key|))
  }

  /** The key stands behind its length; the rest is zeros. */
  lemma StorageKeyLayout(key: Key, i: nat)
    requires |key| <= MAX_KEY_SIZE
    ensures var r := CreateStorageKey(key).value;
            && r[0] + 256 * r[1] == |key| && r[2..2 + |key|] == key
            && (2 + |key| <= i < STORAGE_KEY_SIZE ==> r[i] == 0)
  {
  }

  /** Different keys never share a storage key, whatever zeros they end in. */
  lemma StorageKeysAreInjective(a: Key, b: Key)
    requires |a| <= MAX_KEY_SIZE && |b| <= MAX_KEY_SIZE && CreateStorageKey(a) == CreateStorageKey(b)
    ensures a == b
  {
    var s, t := CreateStorageKey(a).value, CreateStorageKey(b).value;
    assert s[0] == |a| && t[0] == |b|;
    assert s[2..2 + |a|] == a && t[2..2 + |b|] == b;
  }

  type Db = map<Bytes, Value>

  function DbGet(db: Db, key: Key): Option<Value>
    requires |key| <= MAX_KEY_SIZE
  {
    var k := CreateStorageKey(key).value;
    if k in db then Some(db[k]) else None
  }

  /** A read that never looks at the cache. */
  function UncachedGet(db: Db, key: Key): Result<Option<Value>> {
    if |key| > MAX_KEY_SIZE then Err(KeyTooLarge) else Ok(DbGet(db, key))
  }

  // ---------------------------------------------------------------------------------------
  // Shards

  datatype CachedValue = Present(value: Value) | Absent

  function FromCache(c: CachedValue): Option<Value> {
    match c
    case Present(value) => Some(value)
    case Absent => None
  }

  function ToCache(v: Option<Value>): CachedValue {
    match v
    case Some(value) => Present(value)
    case None => Absent
  }

  type Shard = map<Key, CachedValue>

  function ShardIndex(key: Key): (i: nat)
    ensures i < NUM_SHARDS
  {
    if key == [] then 0 else key[0]
  }

  /** What a shard holds belongs there and, apart from the stale keys, is true of the database. */
  ghost predicate ShardAgrees(db: Db, i: nat, shard: Shard, stale: set<Key>) {
    forall k :: k in shard ==>
      ShardIndex(k) == i && |k| <= MAX_KEY_SIZE && (k !in stale ==> FromCache(shard[k]) == DbGet(db, k))
  }

  ghost predicate Agrees(db: Db, shards: seq<Shard>, stale: set<Key>) {
    && |shards| == NUM_SHARDS
    && forall i :: 0 <= i < NUM_SHARDS ==> ShardAgrees(db, i, shards[i], stale)
  }

  // ---------------------------------------------------------------------------------------
  // The sharded cache

  class ShardedDbCache {
    const maxEntries: nat
    const shards: array<Shard>

    constructor (maxEntriesPerShard: nat)
      ensures maxEntries == maxEntriesPerShard && fresh(shards) && shards.Length == NUM_SHARDS
      ensures forall i :: 0 <= i < NUM_SHARDS ==> shards[i] == map[]
    {
      maxEntries := maxEntriesPerShard;
      shards := new Shard[NUM_SHARDS](_ => map[]);
    }

    ghost predicate Bounded()
      reads shards
    {
      forall i :: 0 <= i < shards.Length ==> |shards[i]| <= maxEntries
    }

    method Get(key: Key) returns (r: Option<CachedValue>)
      requires shards.Length == NUM_SHARDS
      ensures var shard := shards[ShardIndex(key)]; r == if key in shard then Some(shard[key]) else None
    {
      var shard := shards[ShardIndex(key)];
      return if key in shard then Some(shard[key]) else None;
    }

    /** Inserts after clearing half of a full shard; which half is up to the hash map. */
    method Insert(key: Key, value: CachedValue)
      requires shards.Length == NUM_SHARDS
      modifies shards
      ensures shards[..] == old(shards[..])[ShardIndex(key) := shards[ShardIndex(key)]]
      ensures InsertedInto(old(shards[ShardIndex(key)]), key, value, maxEntries, shards[ShardIndex(key)])
      ensures maxEntries >= 2 && old(Bounded()) ==> Bounded()
    {
      var i := ShardIndex(key);
      var entries := Evicted(shards[i]);
      InsertOne(entries, key, value);
      shards[i] := entries[key := value];
    }

    method Evicted(shard: Shard) returns (entries: Shard)
      ensures entries.Keys <= shard.Keys && forall k :: k in entries ==> entries[k] == shard[k]
      ensures |entries| == |shard| - if |shard| >= maxEntries then maxEntries / 2 else 0
      ensures |shard| < maxEntries ==> entries == shard
    {
      entries := shard;
      if |entries| >= maxEntries {
        var removed := 0;
        while removed < maxEntries / 2 && entries != map[]
          invariant 0 <= removed <= maxEntries / 2
          invariant entries.Keys <= shard.Keys && (forall k :: k in entries ==> entries[k] == shard[k])
          invariant |entries| + removed == |shard|
          decreases maxEntries / 2 - removed
        {
          var k :| k in entries;
          RemoveOne(entries, k);
          entries := entries - {k};
          removed := removed + 1;
        }
      }
    }

    method Invalidate(key: Key)
      requires shards.Length == NUM_SHARDS
      modifies shards
      ensures shards[..] == old(shards[..])[ShardIndex(key) := old(shards[ShardIndex(key)]) - {key}]
      ensures old(Bounded()) ==> Bounded()
    {
      var i := ShardIndex(key);
      if key in shards[i] {
        RemoveOne(shards[i], key);
      } else {
        assert shards[i] - {key} == shards[i];
      }
      shards[i] := shards[i] - {key};
    }
  }

  lemma RemoveOne(m: Shard, k: Key)
    requires k in m
    ensures |m - {k}| == |m| - 1
  {
    assert (m - {k}).Keys == m.Keys - {k};
  }

  lemma InsertOne(m: Shard, k: Key, v: CachedValue)
    ensures |m[k := v]| == |m| + if k in m then 0 else 1
  {
    assert m[k := v].Keys == m.Keys + {k};
    assert k in m ==> m[k := v].Keys == m.Keys;
  }

  /** The shard holds the new entry and old entries, fewer by half of the capacity when it was full. */
  ghost predicate InsertedInto(before: Shard, key: Key, value: CachedValue, maxEntries: nat, after: Shard) {
    && key in after && after[key] == value
    && (forall k :: k in after && k != key ==> k in before && after[k] == before[k])
    && (|before| < maxEntries ==> after == before[key := value])
    && |before| - (if |before| >= maxEntries then maxEntries / 2 else 0) <= |after|
    && |after| <= 1 + |before| - (if |before| >= maxEntries then maxEntries / 2 else 0)
  }

  lemma InsertAgrees(db: Db, i: nat, before: Shard, key: Key, value: CachedValue, maxEntries: nat, after: Shard)
    requires ShardAgrees(db, i, before, {}) && InsertedInto(before, key, value, maxEntries, after)
    requires ShardIndex(key) == i && |key| <= MAX_KEY_SIZE && FromCache(value) == DbGet(db, key)
    ensures ShardAgrees(db, i, after, {})
  {
  }

  /**
   * A shard that respects its capacity respects it after every insert exactly when the capacity is
   * at least two: half of one is nothing, so a full shard of capacity one only grows.
   */
  lemma CapacityHoldsIff(maxEntries: nat)
    ensures maxEntries >= 2
            <==> forall before, key, value, after ::
                   |before| <= maxEntries && InsertedInto(before, key, value, maxEntries, after) ==> |after| <= maxEntries
  {
    if maxEntries == 0 {
      var before: Shard, after: Shard := map[], map[[0] := Absent];
      assert InsertedInto(before, [0], Absent, maxEntries, after);
    } else if maxEntries == 1 {
      var before: Shard, after: Shard := map[[0] := Absent], map[[0] := Absent, [0, 0] := Absent];
      assert ShardIndex([0]) == ShardIndex([0, 0]) && |after| == 2;
      assert InsertedInto(before, [0, 0], Absent, maxEntries, after);
    }
  }

  // ---------------------------------------------------------------------------------------
  // The storage

  datatype Update = Update(storageKey: Bytes, value: Option<Value>)

  /** The first operation that breaks a limit, looking at a value before its key. */
  function FirstFault(ops: seq<C.Operation>): Option<Error> {
    if ops == [] then None
    else if ops[0].SetOperation? && |ops[0].value| > MAX_VALUE_SIZE then Some(ValueTooLarge)
    else if |ops[0].key| > MAX_KEY_SIZE then Some(KeyTooLarge)
    else FirstFault(ops[1..])
  }

  function BatchFault(ops: seq<C.Operation>): Option<Error> {
    if |ops| > MAX_BATCH_SIZE then Some(BatchTooLarge) else FirstFault(ops)
  }

  function NewValue(op: C.Operation): Option<Value> {
    match op
    case SetOperation(_, value) => Some(value)
    case RemoveOperation(_) => None
  }

  function Write(db: Db, u: Update): Db {
    match u.value
    case Some(v) => db[u.storageKey := v]
    case None => db - {u.storageKey}
  }

  function WriteAll(db: Db, updates: seq<Update>): Db {
    if updates == [] then db else Write(WriteAll(db, updates[..|updates| - 1]), updates[|updates| - 1])
  }

  /** The updates are the operations, in order, under their storage keys. */
  ghost predicate Prepares(ops: seq<C.Operation>, updates: seq<Update>) {
    && |updates| == |ops|
    && forall i :: 0 <= i < |ops| ==>
         CreateStorageKey(ops[i].key) == Ok(updates[i].storageKey) && updates[i].value == NewValue(ops[i])
  }

  /** Reads after a batch: the database answers as the reference store would. */
  lemma {:induction false} BatchReadsLikeStore(db: Db, m: C.Store, ops: seq<C.Operation>, updates: seq<Update>, key: Key)
    requires Prepares(ops, updates) && |key| <= MAX_KEY_SIZE
    requires DbGet(db, key) == C.Get(m, key)
    ensures DbGet(WriteAll(db, updates), key) == C.Get(C.AppliedAll(m, ops), key)
    decreases |ops|
  {
    if ops != [] {
      var last := |ops| - 1;
      BatchReadsLikeStore(db, m, ops[..last], updates[..last], key);
      if CreateStorageKey(ops[last].key) == CreateStorageKey(key) {
        StorageKeysAreInjective(ops[last].key, key);
      }
    }
  }

  function KeysOf(ops: seq<C.Operation>): set<Key> {
    set i | 0 <= i < |ops| :: ops[i].key
  }

  /** A batch leaves every key it does not name as it was: no other key shares a storage key. */
  lemma {:induction false} BatchKeepsOthers(db: Db, ops: seq<C.Operation>, updates: seq<Update>, key: Key)
    requires Prepares(ops, updates) && |key| <= MAX_KEY_SIZE && key !in KeysOf(ops)
    ensures DbGet(WriteAll(db, updates), key) == DbGet(db, key)
    decreases |ops|
  {
    if ops != [] {
      var last := |ops| - 1;
      BatchKeepsOthers(db, ops[..last], updates[..last], key);
      if CreateStorageKey(ops[last].key) == CreateStorageKey(key) {
        StorageKeysAreInjective(ops[last].key, key);
      }
    }
  }

  /** After the database took a batch, only the keys of the batch can be stale in the cache. */
  lemma BatchMakesStale(db: Db, shards: seq<Shard>, ops: seq<C.Operation>, updates: seq<Update>)
    requires Agrees(db, shards, {}) && Prepares(ops, updates)
    ensures Agrees(WriteAll(db, updates), shards, KeysOf(ops))
  {
    forall i | 0 <= i < NUM_SHARDS ensures ShardAgrees(WriteAll(db, updates), i, shards[i], KeysOf(ops)) {
      assert ShardAgrees(db, i, shards[i], {});
      forall k | k in shards[i] && k !in KeysOf(ops) ensures DbGet(WriteAll(db, updates), k) == DbGet(db, k) {
        BatchKeepsOthers(db, ops, updates, k);
      }
    }
  }

  lemma FewerStale(db: Db, shards: seq<Shard>, stale: set<Key>, more: set<Key>)
    requires Agrees(db, shards, stale) && stale <= more
    ensures Agrees(db, shards, more)
  {
    forall i | 0 <= i < NUM_SHARDS ensures ShardAgrees(db, i, shards[i], more) {
      assert ShardAgrees(db, i, shards[i], stale);
    }
  }

  /** Dropping a stale key from its shard leaves one stale key less. */
  lemma InvalidateAgrees(db: Db, shards: seq<Shard>, stale: set<Key>, key: Key)
    requires Agrees(db, shards, stale)
    ensures var i := ShardIndex(key); Agrees(db, shards[i := shards[i] - {key}], stale - {key})
  {
    var i := ShardIndex(key);
    var after := shards[i := shards[i] - {key}];
    forall j | 0 <= j < NUM_SHARDS ensures ShardAgrees(db, j, after[j], stale - {key}) {
      assert ShardAgrees(db, j, shards[j], stale);
    }
  }

  lemma CachedIsRight(db: Db, shards: seq<Shard>, key: Key)
    requires Agrees(db, shards, {}) && |shards| == NUM_SHARDS && key in shards[ShardIndex(key)]
    ensures |key| <= MAX_KEY_SIZE && UncachedGet(db, key) == Ok(FromCache(shards[ShardIndex(key)][key]))
  {
    assert ShardAgrees(db, ShardIndex(key), shards[ShardIndex(key)], {});
  }

  class QmdbStorage {
    var db: Db
    const cache: ShardedDbCache

    constructor (db: Db, maxEntriesPerShard: nat)
      ensures this.db == db && fresh(cache) && fresh(cache.shards) && Coherent()
    {
      this.db := db;
      cache := new ShardedDbCache(maxEntriesPerShard);
    }

    /** Every cached entry, present or absent, is what the database holds. */
    ghost predicate Coherent()
      reads this, cache.shards
    {
      cache.shards.Length == NUM_SHARDS && Agrees(db, cache.shards[..], {})
    }

    /** Remembers what the database said about a key. */
    method Remember(key: Key, value: Option<Value>)
      requires Coherent() && |key| <= MAX_KEY_SIZE && value == DbGet(db, key)
      modifies cache.shards
      ensures Coherent()
      ensures cache.maxEntries >= 2 && old(cache.Bounded()) ==> cache.Bounded()
      ensures var i := ShardIndex(key);
              && cache.shards[..] == old(cache.shards[..])[i := cache.shards[i]]
              && InsertedInto(old(cache.shards[i]), key, ToCache(value), cache.maxEntries, cache.shards[i])
    {
      var i := ShardIndex(key);
      ghost var before := cache.shards[..];
      assert ShardAgrees(db, i, before[i], {});
      cache.Insert(key, ToCache(value));
      InsertAgrees(db, i, before[i], key, ToCache(value), cache.maxEntries, cache.shards[i]);
      forall j | 0 <= j < NUM_SHARDS ensures ShardAgrees(db, j, cache.shards[..][j], {}) {
        assert j != i ==> cache.shards[..][j] == before[j];
      }
    }

    /** `readOk` tells whether the database answers; a cached key needs no answer. */
    method Get(key: Key, readOk: bool) returns (r: Result<Option<Value>>)
      requires Coherent()
      modifies cache.shards
      ensures Coherent()
      ensures cache.maxEntries >= 2 && old(cache.Bounded()) ==> cache.Bounded()
      ensures readOk || r.Ok? ==> r == UncachedGet(db, key)
      ensures r.Ok? ==> key in cache.shards[ShardIndex(key)]
      ensures r.Err? ==> r.error == (if |key| > MAX_KEY_SIZE then KeyTooLarge else StorageFailure)
    {
      var cached := cache.Get(key);
      assert ShardAgrees(db, ShardIndex(key), cache.shards[..][ShardIndex(key)], {});
      if cached.Some? {
        return Ok(FromCache(cached.value));
      }
      var storageKey := CreateStorageKey(key);
      if storageKey.Err? {
        return Err(storageKey.error);
      }
      if !readOk {
        return Err(StorageFailure);
      }
      var value := if storageKey.value in db then Some(db[storageKey.value]) else None;
      Remember(key, value);
      return Ok(value);
    }

    /** Many keys with one visit to the database. */
    method GetMany(keys: seq<Key>, readOk: bool) returns (r: Result<seq<Option<Value>>>)
      requires Coherent()
      modifies cache.shards
      ensures Coherent()
      ensures cache.maxEntries >= 2 && old(cache.Bounded()) ==> cache.Bounded()
      ensures r.Ok? ==> |r.value| == |keys| && forall i :: 0 <= i < |keys| ==> UncachedGet(db, keys[i]) == Ok(r.value[i])
      ensures readOk && |keys| <= MAX_BATCH_SIZE && (forall i :: 0 <= i < |keys| ==> |keys[i]| <= MAX_KEY_SIZE) ==> r.Ok?
      ensures |keys| > MAX_BATCH_SIZE ==> r == Err(BatchTooLarge)
      ensures |keys| <= MAX_BATCH_SIZE && (exists i :: 0 <= i < |keys| && |keys[i]| > MAX_KEY_SIZE) ==> r == Err(KeyTooLarge)
    {
      if |keys| > MAX_BATCH_SIZE {
        return Err(BatchTooLarge);
      }
      var fault, results, misses := LookUp(keys);
      if fault {
        return Err(KeyTooLarge);
      }
      if misses == [] {
        return Ok(results);
      }
      if !readOk {
        return Err(StorageFailure);
      }
      for n := 0 to |misses|
        invariant |results| == |keys| && Coherent()
        invariant cache.maxEntries >= 2 && old(cache.Bounded()) ==> cache.Bounded()
        invariant forall j :: 0 <= j < |keys| && j !in misses[n..] ==> UncachedGet(db, keys[j]) == Ok(results[j])
      {
        hide Agrees, CreateStorageKey;
        var i := misses[n];
        assert i in misses;
        var value := DbGet(db, keys[i]);
        Remember(keys[i], value);
        results := results[i := value];
        assert forall j :: j in misses[n..] ==> j == i || j in misses[n + 1..];
      }
      return Ok(results);
    }

    /** The cached answers, and the positions that need the database. */
    method LookUp(keys: seq<Key>) returns (fault: bool, results: seq<Option<Value>>, misses: seq<nat>)
      requires Coherent()
      ensures |results| == |keys|
      ensures fault <==> exists j :: 0 <= j < |keys| && |keys[j]| > MAX_KEY_SIZE
      ensures !fault ==> forall j :: 0 <= j < |keys| && j !in misses ==> UncachedGet(db, keys[j]) == Ok(results[j])
      ensures forall j :: j in misses ==> j < |keys| && |keys[j]| <= MAX_KEY_SIZE
    {
      hide Agrees, UncachedGet;
      fault, results, misses := false, seq(|keys|, _ => None), [];
      for i := 0 to |keys|
        invariant |results| == |keys|
        invariant forall j :: 0 <= j < i && j !in misses ==> UncachedGet(db, keys[j]) == Ok(results[j])
        invariant forall j :: j in misses ==> j < i && |keys[j]| <= MAX_KEY_SIZE
        invariant forall j :: 0 <= j < i ==> |keys[j]| <= MAX_KEY_SIZE
      {
        var cached := cache.Get(keys[i]);
        if cached.Some? {
          CachedIsRight(db, cache.shards[..], keys[i]);
          results := results[i := FromCache(cached.value)];
          continue;
        }
        if |keys[i]| > MAX_KEY_SIZE {
          fault := true;
          return;
        }
        misses := misses + [i];
      }
    }

    /** Checks a batch and puts its operations under their storage keys. */
    method PrepareBatch(operations: seq<C.Operation>) returns (r: Result<seq<Update>>)
      ensures BatchFault(operations).Some? ==> r == Err(BatchFault(operations).value)
      ensures BatchFault(operations).None? ==> r.Ok? && Prepares(operations, r.value)
    {
      if |operations| > MAX_BATCH_SIZE {
        return Err(BatchTooLarge);
      }
      var updates: seq<Update> := [];
      for i := 0 to |operations|
        invariant FirstFault(operations) == FirstFault(operations[i..])
        invariant Prepares(operations[..i], updates)
      {
        assert operations[i..][1..] == operations[i + 1..];
        var op := operations[i];
        if op.SetOperation? && |op.value| > MAX_VALUE_SIZE {
          return Err(ValueTooLarge);
        }
        var storageKey := CreateStorageKey(op.key);
        if storageKey.Err? {
          return Err(storageKey.error);
        }
        updates := updates + [Update(storageKey.value, NewValue(op))];
        assert operations[..i + 1] == operations[..i] + [op];
      }
      assert operations[|operations|..] == [] && operations[..|operations|] == operations;
      return Ok(updates);
    }

    /** Writes a batch, then drops its keys from the cache. */
    method ApplyBatch(operations: seq<C.Operation>, writeOk: bool) returns (r: Result<()>, ghost updates: seq<Update>)
      requires Coherent()
      modifies this, cache.shards
      ensures Coherent()
      ensures old(cache.Bounded()) ==> cache.Bounded()
      ensures r.Err? ==> db == old(db)
      ensures BatchFault(operations).Some? ==> r == Err(BatchFault(operations).value)
      ensures r.Ok? ==> Prepares(operations, updates) && db == WriteAll(old(db), updates)
      ensures writeOk && BatchFault(operations).None? ==> r.Ok?
    {
      hide CreateStorageKey, Prepares, Agrees, FirstFault;
      updates := [];
      var prepared := PrepareBatch(operations);
      if prepared.Err? {
        return Err(prepared.error), updates;
      }
      updates := prepared.value;
      if operations != [] && !writeOk {
        return Err(StorageFailure), updates;
      }
      BatchMakesStale(db, cache.shards[..], operations, prepared.value);
      Commit(prepared.value);
      Invalidate(operations);
      return Ok(()), updates;
    }

    method Commit(updates: seq<Update>)
      modifies this
      ensures db == WriteAll(old(db), updates)
    {
      for i := 0 to |updates|
        invariant db == WriteAll(old(db), updates[..i])
      {
        assert updates[..i + 1][..i] == updates[..i];
        db := Write(db, updates[i]);
      }
      assert updates[..|updates|] == updates;
    }

    method Invalidate(operations: seq<C.Operation>)
      requires cache.shards.Length == NUM_SHARDS && Agrees(db, cache.shards[..], KeysOf(operations))
      modifies cache.shards
      ensures Coherent()
      ensures old(cache.Bounded()) ==> cache.Bounded()
    {
      hide Agrees;
      for i := 0 to |operations|
        invariant Agrees(db, cache.shards[..], KeysOf(operations[i..]))
        invariant old(cache.Bounded()) ==> cache.Bounded()
      {
        InvalidateAgrees(db, cache.shards[..], KeysOf(operations[i..]), operations[i].key);
        assert KeysOf(operations[i..]) - {operations[i].key} <= KeysOf(operations[i + 1..]);
        cache.Invalidate(operations[i].key);
        FewerStale(db, cache.shards[..], KeysOf(operations[i..]) - {operations[i].key}, KeysOf(operations[i + 1..]));
      }
      assert KeysOf(operations[|operations|..]) == {};
    }

    /**
     * Warms the cache: keys are grouped by shard, cached ones skipped, failed reads not remembered.
     * `fetch` reads the database and may fail.
     */
    method PrefetchKeys(keys: seq<Key>, fetch: Key -> Result<Option<Value>>)
      requires Coherent()
      requires forall k :: fetch(k).Ok? ==> fetch(k) == UncachedGet(db, k)
      modifies cache.shards
      ensures Coherent()
      ensures cache.maxEntries >= 2 && old(cache.Bounded()) ==> cache.Bounded()
      ensures forall j :: 0 <= j < NUM_SHARDS ==>
                Warmed(old(cache.shards[j]), keys, fetch, j, cache.maxEntries, cache.shards[j])
    {
      hide Agrees, Warmed;
      for shard := 0 to NUM_SHARDS
        invariant Coherent()
        invariant cache.maxEntries >= 2 && old(cache.Bounded()) ==> cache.Bounded()
        invariant forall j :: 0 <= j < shard ==> Warmed(old(cache.shards[j]), keys, fetch, j, cache.maxEntries, cache.shards[j])
        invariant forall j :: shard <= j < NUM_SHARDS ==> cache.shards[j] == old(cache.shards[j])
      {
        PrefetchShard(shard, keys, fetch);
      }
    }

    /** The keys of one shard; those it holds already are not fetched. */
    method PrefetchShard(shard: nat, keys: seq<Key>, fetch: Key -> Result<Option<Value>>)
      requires Coherent() && shard < NUM_SHARDS
      requires forall k :: fetch(k).Ok? ==> fetch(k) == UncachedGet(db, k)
      modifies cache.shards
      ensures Coherent()
      ensures cache.maxEntries >= 2 && old(cache.Bounded()) ==> cache.Bounded()
      ensures forall j :: 0 <= j < NUM_SHARDS && j != shard ==> cache.shards[j] == old(cache.shards[j])
      ensures Warmed(old(cache.shards[shard]), keys, fetch, shard, cache.maxEntries, cache.shards[shard])
    {
      hide Agrees, Warmed, InsertedInto;
      NoneFetched(cache.shards[shard], keys, fetch, shard, cache.maxEntries);
      for i := 0 to |keys|
        invariant Coherent()
        invariant cache.maxEntries >= 2 && old(cache.Bounded()) ==> cache.Bounded()
        invariant forall j :: 0 <= j < NUM_SHARDS && j != shard ==> cache.shards[j] == old(cache.shards[j])
        invariant Warmed(old(cache.shards[shard]), keys[..i], fetch, shard, cache.maxEntries, cache.shards[shard])
      {
        ghost var before := cache.shards[shard];
        if ShardIndex(keys[i]) != shard || keys[i] in cache.shards[shard] {
          FetchedNone(old(cache.shards[shard]), keys, fetch, shard, cache.maxEntries, i, before);
          continue;
        }
        var value := fetch(keys[i]);
        if value.Ok? {
          Remember(keys[i], value.value);
          FetchedOne(old(cache.shards[shard]), keys, fetch, shard, cache.maxEntries, i, before, ToCache(value.value), cache.shards[shard]);
        } else {
          FetchedNone(old(cache.shards[shard]), keys, fetch, shard, cache.maxEntries, i, before);
        }
      }
      assert keys[..|keys|] == keys;
    }
  }

  /** With room for the keys, a shard keeps what it had and holds every key that could be fetched. */
  ghost predicate Warmed(before: Shard, keys: seq<Key>, fetch: Key -> Result<Option<Value>>, shard: nat, maxEntries: nat, after: Shard) {
    |before| + |keys| <= maxEntries ==>
      && |after| <= |before| + |keys|
      && before.Keys <= after.Keys
      && forall k :: k in keys && ShardIndex(k) == shard && fetch(k).Ok? ==> k in after
  }

  lemma NoneFetched(before: Shard, keys: seq<Key>, fetch: Key -> Result<Option<Value>>, shard: nat, maxEntries: nat)
    ensures Warmed(before, keys[..0], fetch, shard, maxEntries, before)
  {
  }

  lemma FetchedOne(start: Shard, keys: seq<Key>, fetch: Key -> Result<Option<Value>>, shard: nat, maxEntries: nat, i: nat,
                   before: Shard, value: CachedValue, after: Shard)
    requires i < |keys| && Warmed(start, keys[..i], fetch, shard, maxEntries, before)
    requires InsertedInto(before, keys[i], value, maxEntries, after)
    ensures Warmed(start, keys[..i + 1], fetch, shard, maxEntries, after)
  {
    assert keys[..i + 1] == keys[..i] + [keys[i]];
    InsertOne(before, keys[i], value);
  }

  lemma FetchedNone(start: Shard, keys: seq<Key>, fetch: Key -> Result<Option<Value>>, shard: nat, maxEntries: nat, i: nat, before: Shard)
    requires i < |keys| && Warmed(start, keys[..i], fetch, shard, maxEntries, before)
    requires ShardIndex(keys[i]) != shard || keys[i] in before || fetch(keys[i]).Err?
    ensures Warmed(start, keys[..i + 1], fetch, shard, maxEntries, before)
  {
    assert keys[..i + 1] == keys[..i] + [keys[i]];
  }
}
