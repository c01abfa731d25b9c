/**
 * From an overlay to committed storage: the changes in key order
 * (crates/app/stf/src/execution_state.rs), the storage operations they become
 * (crates/app/server/src/dev.rs), and the reference store (crates/storage/src/mock.rs).
 */
module Commit {
  import opened Types
  import opened ExecState

  datatype StateChange = SetKey(key: Key, value: Value) | RemoveKey(key: Key)
  datatype Operation = SetOperation(key: Key, value: Value) | RemoveOperation(key: Key)

  // ---------------------------------------------------------------------------------------
  // Byte strings in lexicographic order

  predicate Less(a: Bytes, b: Bytes) {
    b != [] && (a == [] || a[0] < b[0] || (a[0] == b[0] && Less(a[1..], b[1..])))
  }

  /** The keys agree up to where the first ends or has the smaller byte. */
  lemma {:induction false} LessIff(a: Bytes, b: Bytes)
    ensures Less(a, b) <==> exists i :: 0 <= i <= |a| && i < |b| && a[..i] == b[..i] && (i == |a| || a[i] < b[i])
  {
    if b != [] && a != [] {
      if a[0] == b[0] {
        LessIff(a[1..], b[1..]);
        if Less(a[1..], b[1..]) {
          var i :| 0 <= i <= |a[1..]| && i < |b[1..]| && a[1..][..i] == b[1..][..i] && (i == |a[1..]| || a[1..][i] < b[1..][i]);
          assert a[..i + 1] == [a[0]] + a[1..][..i] && b[..i + 1] == [b[0]] + b[1..][..i];
        }
        if i :| 0 <= i <= |a| && i < |b| && a[..i] == b[..i] && (i == |a| || a[i] < b[i]) {
          assert a[1..][..i - 1] == a[..i][1..] && b[1..][..i - 1] == b[..i][1..];
        }
      } else {
        assert a[..0] == b[..0];
        forall i | 0 < i <= |a| && i < |b| ensures a[..i] != b[..i] {
          assert a[..i][0] != b[..i][0];
        }
      }
    } else {
      assert a[..0] == b[..0];
    }
  }

  lemma {:induction false} LessTransitive(a: Bytes, b: Bytes, c: Bytes)
    requires Less(a, b) && Less(b, c)
    ensures Less(a, c)
  {
    if a != [] && a[0] == b[0] == c[0] {
      LessTransitive(a[1..], b[1..], c[1..]);
    }
  }

  lemma {:induction false} LessTotal(a: Bytes, b: Bytes)
    ensures Less(a, b) || Less(b, a) || a == b
    ensures !(Less(a, b) && Less(b, a))
    ensures !Less(a, a)
  {
    if a != [] {
      LessTotal(a[1..], a[1..]);
      if b != [] && a[0] == b[0] {
        LessTotal(a[1..], b[1..]);
        assert a == [a[0]] + a[1..] && b == [b[0]] + b[1..];
      }
    }
  }

  ghost predicate StrictlySorted(s: seq<StateChange>) {
    forall i, j :: 0 <= i < j < |s| ==> Less(s[i].key, s[j].key)
  }

  /** Two strictly sorted lists of the same changes are the same list. */
  lemma {:induction false} SortedUnique(a: seq<StateChange>, b: seq<StateChange>)
    requires StrictlySorted(a) && StrictlySorted(b) && forall c :: c in a <==> c in b
    ensures a == b
    decreases |a|
  {
    Inhabited(a);
    Inhabited(b);
    if a != [] {
      assert a[0] in a && a[0] in b;
      assert b[0] in b && b[0] in a;
      SameHead(a, b);
      TailIs(a);
      TailIs(b);
      SortedUnique(a[1..], b[1..]);
      assert a == [a[0]] + a[1..] && b == [b[0]] + b[1..];
    }
  }

  lemma Inhabited(s: seq<StateChange>)
    ensures s != [] ==> exists c :: c in s
  {
    if s != [] {
      assert s[0] in s;
    }
  }

  lemma SameHead(a: seq<StateChange>, b: seq<StateChange>)
    requires StrictlySorted(a) && StrictlySorted(b) && a != [] && b != [] && a[0] in b && b[0] in a
    ensures a[0] == b[0]
  {
    LessTotal(a[0].key, b[0].key);
    LessTotal(a[0].key, a[0].key);
  }

  lemma TailIs(s: seq<StateChange>)
    requires StrictlySorted(s) && s != []
    ensures forall c :: c in s[1..] <==> c in s && c != s[0]
  {
    LessTotal(s[0].key, s[0].key);
  }

  // ---------------------------------------------------------------------------------------
  // The changes of an overlay

  function ChangeFor(o: Overlay, key: Key): StateChange
    requires key in o
  {
    match o[key]
    case Some(value) => SetKey(key, value)
    case None => RemoveKey(key)
  }

  /** The list holds exactly one change for each key of the overlay. */
  ghost predicate Lists(s: seq<StateChange>, o: Overlay) {
    forall c :: c in s <==> c.key in o && c == ChangeFor(o, c.key)
  }

  function Insert(c: StateChange, s: seq<StateChange>): seq<StateChange> {
    if s == [] || Less(c.key, s[0].key) then [c] + s else [s[0]] + Insert(c, s[1..])
  }

  lemma {:induction false} InsertSorts(c: StateChange, s: seq<StateChange>)
    requires StrictlySorted(s) && forall d :: d in s ==> d.key != c.key
    ensures StrictlySorted(Insert(c, s))
    ensures forall d :: d in Insert(c, s) <==> d == c || d in s
  {
    if s != [] {
      if Less(c.key, s[0].key) {
        forall j | 0 < j < |s| ensures Less(c.key, s[j].key) {
          LessTransitive(c.key, s[0].key, s[j].key);
        }
      } else {
        assert s[0] in s;
        LessTotal(c.key, s[0].key);
        InsertSorts(c, s[1..]);
        var rest := Insert(c, s[1..]);
        forall j | 0 <= j < |rest| ensures Less(s[0].key, rest[j].key) {
          assert rest[j] in rest;
        }
        assert s == [s[0]] + s[1..];
      }
    }
  }

  /** The library sort by key. */
  function SortByKey(s: seq<StateChange>): seq<StateChange> {
    if s == [] then [] else Insert(s[0], SortByKey(s[1..]))
  }

  lemma {:induction false} SortByKeySorts(s: seq<StateChange>)
    requires forall i, j :: 0 <= i < j < |s| ==> s[i].key != s[j].key
    ensures StrictlySorted(SortByKey(s))
    ensures forall c :: c in SortByKey(s) <==> c in s
  {
    if s != [] {
      SortByKeySorts(s[1..]);
      InsertSorts(s[0], SortByKey(s[1..]));
      assert s == [s[0]] + s[1..];
    }
  }

  /** `into_changes`: the overlay is walked in any order, then sorted. */
  method IntoChanges(state: ExecutionState) returns (changes: seq<StateChange>)
    ensures StrictlySorted(changes) && Lists(changes, state.overlay)
  {
    changes := [];
    var rest := state.overlay.Keys;
    while rest != {}
      invariant rest <= state.overlay.Keys
      invariant forall c :: c in changes <==> c.key in state.overlay && c.key !in rest && c == ChangeFor(state.overlay, c.key)
      invariant forall i, j :: 0 <= i < j < |changes| ==> changes[i].key != changes[j].key
      decreases rest
    {
      var key :| key in rest;
      forall i | 0 <= i < |changes| ensures changes[i].key != key {
        assert changes[i] in changes;
      }
      changes := changes + [ChangeFor(state.overlay, key)];
      rest := rest - {key};
    }
    SortByKeySorts(changes);
    changes := SortByKey(changes);
  }

  /** The changes depend on the contents of the overlay alone, not on the order of the walk. */
  lemma ChangesAreDetermined(a: seq<StateChange>, b: seq<StateChange>, o: Overlay)
    requires StrictlySorted(a) && Lists(a, o) && StrictlySorted(b) && Lists(b, o)
    ensures a == b
  {
    SortedUnique(a, b);
  }

  // ---------------------------------------------------------------------------------------
  // The reference store

  function ToOperation(c: StateChange): Operation {
    match c
    case SetKey(key, value) => SetOperation(key, value)
    case RemoveKey(key) => RemoveOperation(key)
  }

  /** `state_changes_to_operations` */
  function ToOperations(changes: seq<StateChange>): seq<Operation> {
    seq(|changes|, i requires 0 <= i < |changes| => ToOperation(changes[i]))
  }

  type Store = map<Key, Value>

  function Get(m: Store, key: Key): Option<Value> {
    if key in m then Some(m[key]) else None
  }

  function Applied(m: Store, op: Operation): Store {
    match op
    case SetOperation(key, value) => m[key := value]
    case RemoveOperation(key) => m - {key}
  }

  function AppliedAll(m: Store, ops: seq<Operation>): Store {
    if ops == [] then m else Applied(AppliedAll(m, ops[..|ops| - 1]), ops[|ops| - 1])
  }

  class MockStorage {
    var state: Store

    constructor ()
      ensures state == map[]
    {
      state := map[];
    }

    method Batch(operations: seq<Operation>)
      modifies this
      ensures state == AppliedAll(old(state), operations)
    {
      for i := 0 to |operations|
        invariant state == AppliedAll(old(state), operations[..i])
      {
        assert operations[..i + 1][..i] == operations[..i];
        match operations[i] {
          case SetOperation(key, value) => state := state[key := value];
          case RemoveOperation(key) => state := state - {key};
        }
      }
      assert operations[..|operations|] == operations;
    }
  }

  /** A key reads as its last operation says, or as before. */
  lemma {:induction false} LastOperationWins(m: Store, ops: seq<Operation>, key: Key, i: int)
    requires -1 <= i < |ops| && (i >= 0 ==> ops[i].key == key)
    requires forall j :: i < j < |ops| ==> ops[j].key != key
    ensures Get(AppliedAll(m, ops), key) ==
            if i < 0 then Get(m, key)
            else if ops[i].SetOperation? then Some(ops[i].value) else None
  {
    if i < |ops| - 1 {
      LastOperationWins(m, ops[..|ops| - 1], key, i);
    }
  }

  /** After committing an overlay's changes the store answers every read as the overlay did. */
  lemma CommitAnswersAsOverlay(m: Store, o: Overlay, changes: seq<StateChange>, key: Key)
    requires StrictlySorted(changes) && Lists(changes, o)
    ensures Get(AppliedAll(m, ToOperations(changes)), key) == if key in o then o[key] else Get(m, key)
  {
    var ops := ToOperations(changes);
    forall i, j | 0 <= i < |changes| && i < j < |changes| ensures ops[j].key != ops[i].key {
      LessTotal(changes[i].key, changes[i].key);
    }
    if key in o {
      assert ChangeFor(o, key) in changes;
      var i :| 0 <= i < |changes| && changes[i] == ChangeFor(o, key);
      LastOperationWins(m, ops, key, i);
    } else {
      forall j | 0 <= j < |changes| ensures ops[j].key != key {
        assert changes[j] in changes;
      }
      LastOperationWins(m, ops, key, -1);
    }
  }
}
