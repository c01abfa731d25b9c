/**
 * The execution overlay (crates/app/stf/src/execution_state.rs): an overlay on a read-only store
 * with a delta undo log, events, a counter of unique objects, checkpoints and restores.
 */
module ExecState {
  import opened Types

  const MAX_OVERLAY_ENTRIES: nat := 100_000
  const MAX_EVENTS_PER_EXECUTION: nat := 10_000
  const MAX_KEY_SIZE: nat := 254
  const MAX_VALUE_SIZE: nat := 1024 * 1024

  type Key = Bytes
  type Value = Bytes

  /** `Some(v)`: the key is set to `v`.  `None`: the key is removed. */
  type Overlay = map<Key, Option<Value>>

  /** A read-only store; a read may fail. */
  type Base = Key -> Result<Option<Value>>

  datatype Event = Event(source: AccountId, name: Bytes, contents: Bytes)

  /** What is needed to undo one change of the overlay. */
  datatype Change =
    | SetChange(key: Key, hadEntry: bool, previous: Option<Option<Value>>)
    | RemoveChange(key: Key, hadEntry: bool, previous: Option<Option<Value>>)

  function Revert(o: Overlay, c: Change): Overlay {
    if c.hadEntry then
      match c.previous
      case Some(value) => o[c.key := value]
      case None => o
    else
      o - {c.key}
  }

  /** The fields of an execution state as one value. */
  datatype Conc = Conc(overlay: Overlay, log: seq<Change>, events: seq<Event>, unique: nat)

  datatype Checkpoint = Checkpoint(logIndex: nat, eventsIndex: nat, unique: nat)

  datatype Outcome = Outcome(result: Result<()>, state: Conc)

  function Lookup(base: Base, o: Overlay, key: Key): Result<Option<Value>> {
    if key in o then Ok(o[key]) else base(key)
  }

  // The effect of each operation on the fields.

  function SetOp(c: Conc, key: Key, value: Value): Outcome {
    if |key| > MAX_KEY_SIZE then Outcome(Err(KeyTooLarge), c)
    else if |value| > MAX_VALUE_SIZE then Outcome(Err(ValueTooLarge), c)
    else if key !in c.overlay && |c.overlay| >= MAX_OVERLAY_ENTRIES then
      Outcome(Err(OverlaySizeExceeded), c)
    else
      Outcome(Ok(()), Recorded(c, SetChange(key, key in c.overlay, EntryOf(c.overlay, key)), Some(value)))
  }

  function RemoveOp(c: Conc, key: Key): Outcome {
    if |key| > MAX_KEY_SIZE then Outcome(Err(KeyTooLarge), c)
    else if key !in c.overlay && |c.overlay| >= MAX_OVERLAY_ENTRIES then
      Outcome(Err(OverlaySizeExceeded), c)
    else
      Outcome(Ok(()), Recorded(c, RemoveChange(key, key in c.overlay, EntryOf(c.overlay, key)), None))
  }

  /** The overlay's entry for a key: absent, a tombstone or a value. */
  function EntryOf(o: Overlay, key: Key): Option<Option<Value>> {
    if key in o then Some(o[key]) else None
  }

  function Recorded(c: Conc, change: Change, entry: Option<Value>): Conc {
    c.(overlay := c.overlay[change.key := entry], log := c.log + [change])
  }

  function EmitOp(c: Conc, event: Event): Outcome {
    if |c.events| >= MAX_EVENTS_PER_EXECUTION then Outcome(Err(TooManyEvents), c)
    else Outcome(Ok(()), c.(events := c.events + [event]))
  }

  function NextIdOp(c: Conc): Conc {
    c.(unique := c.unique + 1)
  }

  function Mark(c: Conc): Checkpoint {
    Checkpoint(|c.log|, |c.events|, c.unique)
  }

  /** Pops and reverts the log down to length `n`. */
  function Unwind(o: Overlay, log: seq<Change>, n: nat): Overlay
    requires n <= |log|
    decreases |log|
  {
    if |log| == n then o
    else Unwind(Revert(o, log[|log| - 1]), log[..|log| - 1], n)
  }

  function RestoreOp(c: Conc, mark: Checkpoint): Outcome {
    if mark.logIndex > |c.log| || mark.eventsIndex > |c.events| then
      Outcome(Err(InvalidCheckpoint), c)
    else
      Outcome(Ok(()), Conc(Unwind(c.overlay, c.log, mark.logIndex), c.log[..mark.logIndex],
                           c.events[..mark.eventsIndex], mark.unique))
  }

  // ---------------------------------------------------------------------------------------
  // The undo log

  /**
   * `later` was reached from `earlier` with a faithful log: the log and the events only grew, and
   * reverting the new part of the log gives back the overlay of `earlier`.
   */
  ghost predicate Undoes(earlier: Conc, later: Conc) {
    && earlier.log <= later.log
    && earlier.events <= later.events
    && Unwind(later.overlay, later.log, |earlier.log|) == earlier.overlay
  }

  lemma UndoesReflexive(c: Conc)
    ensures Undoes(c, c)
  {
  }

  lemma {:induction false} UnwindSplits(o: Overlay, log: seq<Change>, mid: nat, n: nat)
    requires n <= mid <= |log|
    ensures Unwind(o, log, n) == Unwind(Unwind(o, log, mid), log[..mid], n)
    decreases |log|
  {
    if |log| == mid {
      assert log[..mid] == log;
    } else {
      var init := log[..|log| - 1];
      UnwindSplits(Revert(o, log[|log| - 1]), init, mid, n);
      assert init[..mid] == log[..mid];
    }
  }

  lemma UndoesTransitive(a: Conc, b: Conc, c: Conc)
    requires Undoes(a, b) && Undoes(b, c)
    ensures Undoes(a, c)
  {
    UnwindSplits(c.overlay, c.log, |b.log|, |a.log|);
    assert c.log[..|b.log|] == b.log;
  }

  /** A restore to a mark taken at `earlier` succeeds and gives back every field of `earlier`. */
  lemma RestoreUndoes(earlier: Conc, later: Conc)
    requires Undoes(earlier, later)
    ensures RestoreOp(later, Mark(earlier)) == Outcome(Ok(()), earlier)
  {
  }

  lemma RecordedUndoes(c: Conc, change: Change, entry: Option<Value>)
    requires change.hadEntry == (change.key in c.overlay) && change.previous == EntryOf(c.overlay, change.key)
    ensures Undoes(c, Recorded(c, change, entry))
  {
    var d := Recorded(c, change, entry);
    assert d.log[..|c.log|] == c.log;
    assert Revert(d.overlay, change) == c.overlay;
  }

  lemma SetUndoes(c: Conc, key: Key, value: Value)
    ensures Undoes(c, SetOp(c, key, value).state)
  {
    RecordedUndoes(c, SetChange(key, key in c.overlay, EntryOf(c.overlay, key)), Some(value));
  }

  lemma RemoveUndoes(c: Conc, key: Key)
    ensures Undoes(c, RemoveOp(c, key).state)
  {
    RecordedUndoes(c, RemoveChange(key, key in c.overlay, EntryOf(c.overlay, key)), None);
  }

  // ---------------------------------------------------------------------------------------
  // Batches

  /** `Some(v)` sets the key, `None` removes it. */
  datatype BatchOperation = BatchOperation(key: Key, value: Option<Value>)

  /** The first operation that breaks a size limit, looking at its key before its value. */
  function FirstFault(ops: seq<BatchOperation>): Option<Error> {
    if ops == [] then None
    else if |ops[0].key| > MAX_KEY_SIZE then Some(KeyTooLarge)
    else if ops[0].value.Some? && |ops[0].value.value| > MAX_VALUE_SIZE then Some(ValueTooLarge)
    else FirstFault(ops[1..])
  }

  /** How many operations name a key outside the overlay; a repeated key counts every time. */
  function NewKeys(o: Overlay, ops: seq<BatchOperation>): nat {
    if ops == [] then 0 else (if ops[0].key in o then 0 else 1) + NewKeys(o, ops[1..])
  }

  function ChangeOf(o: Overlay, op: BatchOperation): Change {
    if op.value.Some? then SetChange(op.key, op.key in o, EntryOf(o, op.key))
    else RemoveChange(op.key, op.key in o, EntryOf(o, op.key))
  }

  function RecordAll(c: Conc, ops: seq<BatchOperation>): Conc
    decreases ops
  {
    if ops == [] then c
    else RecordAll(Recorded(c, ChangeOf(c.overlay, ops[0]), ops[0].value), ops[1..])
  }

  function BatchAllOps(c: Conc, ops: seq<BatchOperation>): Outcome {
    match FirstFault(ops)
    case Some(error) => Outcome(Err(error), c)
    case None =>
      if |c.overlay| + NewKeys(c.overlay, ops) > MAX_OVERLAY_ENTRIES then Outcome(Err(OverlaySizeExceeded), c)
      else Outcome(Ok(()), RecordAll(c, ops))
  }

  function SingleOp(c: Conc, op: BatchOperation): Outcome {
    if op.value.Some? then SetOp(c, op.key, op.value.value) else RemoveOp(c, op.key)
  }

  /** The operations one by one, each through `set` or `remove`, stopping at the first failure. */
  function OneByOne(c: Conc, ops: seq<BatchOperation>): Outcome
    decreases ops
  {
    if ops == [] then Outcome(Ok(()), c)
    else
      var first := SingleOp(c, ops[0]);
      if first.result.Err? then first else OneByOne(first.state, ops[1..])
  }

  lemma {:induction false} NewKeysShrink(o: Overlay, key: Key, entry: Option<Value>, ops: seq<BatchOperation>)
    ensures NewKeys(o[key := entry], ops) <= NewKeys(o, ops)
  {
    if ops != [] {
      NewKeysShrink(o, key, entry, ops[1..]);
    }
  }

  /**
   * An accepted batch does exactly what its operations do one by one, none of which fails, even
   * when keys repeat.
   */
  lemma {:induction false} AcceptedBatchIsOneByOne(c: Conc, ops: seq<BatchOperation>)
    requires BatchAllOps(c, ops).result.Ok?
    ensures BatchAllOps(c, ops) == OneByOne(c, ops)
    decreases ops
  {
    if ops != [] {
      var op := ops[0];
      var next := Recorded(c, ChangeOf(c.overlay, op), op.value);
      assert SingleOp(c, op) == Outcome(Ok(()), next);
      NewKeysShrink(c.overlay, op.key, op.value, ops[1..]);
      OverlayGrows(c.overlay, op.key, op.value);
      AcceptedBatchIsOneByOne(next, ops[1..]);
    }
  }

  /** The keys outside the overlay that the operations name, each once. */
  function FreshKeys(o: Overlay, ops: seq<BatchOperation>): set<Key> {
    if ops == [] then {} else FreshKeys(o, ops[1..]) + if ops[0].key in o then {} else {ops[0].key}
  }

  lemma {:induction false} FreshKeysAfter(o: Overlay, key: Key, entry: Option<Value>, ops: seq<BatchOperation>)
    ensures FreshKeys(o[key := entry], ops) == FreshKeys(o, ops) - {key}
  {
    if ops != [] {
      FreshKeysAfter(o, key, entry, ops[1..]);
    }
  }

  lemma OverlayGrows(o: Overlay, key: Key, entry: Option<Value>)
    ensures |o[key := entry]| == |o| + if key in o then 0 else 1
  {
    assert o[key := entry].Keys == o.Keys + {key};
  }

  lemma WithAndWithout(s: set<Key>, key: Key)
    ensures |s + {key}| == |s - {key}| + 1 && (key !in s ==> s - {key} == s)
  {
    assert s + {key} == (s - {key}) + {key};
  }

  /** Writing the first key moves it from the fresh keys to the overlay. */
  lemma {:induction false} FreshKeysStep(o: Overlay, ops: seq<BatchOperation>)
    requires ops != []
    ensures var next := o[ops[0].key := ops[0].value]; |next| + |FreshKeys(next, ops[1..])| == |o| + |FreshKeys(o, ops)|
  {
    var key, entry, rest := ops[0].key, ops[0].value, FreshKeys(o, ops[1..]);
    FreshKeysAfter(o, key, entry, ops[1..]);
    FreshKeysOutside(o, ops[1..]);
    OverlayGrows(o, key, entry);
    WithAndWithout(rest, key);
    assert FreshKeys(o, ops) == if key in o then rest else rest + {key};
  }

  lemma {:induction false} FreshKeysOutside(o: Overlay, ops: seq<BatchOperation>)
    ensures forall k :: k in FreshKeys(o, ops) ==> k !in o && exists i :: 0 <= i < |ops| && ops[i].key == k
  {
    if ops != [] {
      FreshKeysOutside(o, ops[1..]);
      forall k | k in FreshKeys(o, ops[1..]) ensures exists i :: 0 <= i < |ops| && ops[i].key == k {
        var i :| 0 <= i < |ops[1..]| && ops[1..][i].key == k;
        assert ops[i + 1].key == k;
      }
    }
  }

  /** One by one, the operations all succeed exactly when the sizes are right and every key finds room. */
  lemma {:induction false} OneByOneAcceptedIff(c: Conc, ops: seq<BatchOperation>)
    requires |c.overlay| <= MAX_OVERLAY_ENTRIES
    ensures OneByOne(c, ops).result.Ok? <==>
            FirstFault(ops).None? && |c.overlay| + |FreshKeys(c.overlay, ops)| <= MAX_OVERLAY_ENTRIES
    decreases ops
  {
    if ops != [] {
      FreshKeysStep(c.overlay, ops);
      OverlayGrows(c.overlay, ops[0].key, ops[0].value);
      var first := SingleOp(c, ops[0]);
      if first.result.Ok? {
        OneByOneAcceptedIff(first.state, ops[1..]);
      } else if FirstFault(ops).None? {
        assert ops[0].key in FreshKeys(c.overlay, ops);
      }
    }
  }

  /**
   * The batch and the operations one by one are accepted alike, except when the keys find room but
   * their count with repetitions does not.
   */
  lemma BatchAcceptedAlikeIff(c: Conc, ops: seq<BatchOperation>)
    requires |c.overlay| <= MAX_OVERLAY_ENTRIES
    ensures (BatchAllOps(c, ops).result.Ok? <==> OneByOne(c, ops).result.Ok?) <==>
            || FirstFault(ops).Some?
            || |c.overlay| + NewKeys(c.overlay, ops) <= MAX_OVERLAY_ENTRIES
            || |c.overlay| + |FreshKeys(c.overlay, ops)| > MAX_OVERLAY_ENTRIES
  {
    OneByOneAcceptedIff(c, ops);
    if BatchAllOps(c, ops).result.Ok? {
      AcceptedBatchIsOneByOne(c, ops);
    }
  }

  /** Without a repeated new key the two counts are the same, so nothing tells the two apart. */
  lemma {:induction false} NewKeysOnce(o: Overlay, ops: seq<BatchOperation>)
    requires forall i, j :: 0 <= i < j < |ops| && ops[i].key == ops[j].key ==> ops[i].key in o
    ensures NewKeys(o, ops) == |FreshKeys(o, ops)|
  {
    if ops != [] {
      NewKeysOnce(o, ops[1..]);
      FreshKeysOutside(o, ops[1..]);
      assert ops[0].key !in o ==> ops[0].key !in FreshKeys(o, ops[1..]);
    }
  }

  /** With one free entry, a batch that names one new key twice is refused although each set fits. */
  lemma RepeatedKeyRejected(c: Conc, key: Key, value: Value)
    requires |c.overlay| == MAX_OVERLAY_ENTRIES - 1 && key !in c.overlay
    requires |key| <= MAX_KEY_SIZE && |value| <= MAX_VALUE_SIZE
    ensures var op := BatchOperation(key, Some(value));
            && BatchAllOps(c, [op, op]).result == Err(OverlaySizeExceeded)
            && OneByOne(c, [op, op]).result.Ok?
  {
    var op := BatchOperation(key, Some(value));
    assert [op, op][1..] == [op] && [op][1..] == [];
    assert FirstFault([op, op]) == FirstFault([op]) == None;
    assert NewKeys(c.overlay, [op, op]) == 1 + NewKeys(c.overlay, [op]) == 2;
    var next := SetOp(c, key, value).state;
    assert OneByOne(c, [op, op]) == OneByOne(next, [op]);
    assert OneByOne(next, [op]) == OneByOne(SetOp(next, key, value).state, []);
  }

  lemma {:induction false} OneByOneUndoes(c: Conc, ops: seq<BatchOperation>)
    ensures Undoes(c, OneByOne(c, ops).state)
    decreases ops
  {
    if ops == [] {
      UndoesReflexive(c);
    } else {
      var first := SingleOp(c, ops[0]);
      if ops[0].value.Some? {
        SetUndoes(c, ops[0].key, ops[0].value.value);
      } else {
        RemoveUndoes(c, ops[0].key);
      }
      if first.result.Ok? {
        OneByOneUndoes(first.state, ops[1..]);
        UndoesTransitive(c, first.state, OneByOne(first.state, ops[1..]).state);
      }
    }
  }

  /** A batch, accepted or rejected, can be undone; a rejected one changes nothing. */
  lemma BatchUndoes(c: Conc, ops: seq<BatchOperation>)
    ensures Undoes(c, BatchAllOps(c, ops).state)
    ensures BatchAllOps(c, ops).result.Err? ==> BatchAllOps(c, ops).state == c
  {
    UndoesReflexive(c);
    if BatchAllOps(c, ops).result.Ok? {
      AcceptedBatchIsOneByOne(c, ops);
      OneByOneUndoes(c, ops);
    }
  }

  // ---------------------------------------------------------------------------------------
  // Any run with checkpoints behaves like the same run with full copies

  datatype Op =
    | DoSet(key: Key, value: Value)
    | DoRemove(key: Key)
    | DoBatch(ops: seq<BatchOperation>)
    | DoEmit(event: Event)
    | DoNextId
    | TakeCheckpoint
    | RestoreLast
    | ForgetLast

  datatype WithMarks = WithMarks(state: Conc, marks: seq<Checkpoint>)
  datatype WithCopies = WithCopies(state: Conc, copies: seq<Conc>)

  function Plain(c: Conc, op: Op): Conc {
    match op
    case DoSet(key, value) => SetOp(c, key, value).state
    case DoRemove(key) => RemoveOp(c, key).state
    case DoBatch(ops) => BatchAllOps(c, ops).state
    case DoEmit(event) => EmitOp(c, event).state
    case DoNextId => NextIdOp(c)
    case _ => c
  }

  /** The code: a checkpoint is three numbers, a restore unwinds the log. */
  function StepMarks(m: WithMarks, op: Op): WithMarks {
    if op.TakeCheckpoint? then m.(marks := m.marks + [Mark(m.state)])
    else if op.RestoreLast? || op.ForgetLast? then
      if m.marks == [] then m
      else
        var last := |m.marks| - 1;
        WithMarks(if op.RestoreLast? then RestoreOp(m.state, m.marks[last]).state else m.state, m.marks[..last])
    else m.(state := Plain(m.state, op))
  }

  /** The reference: a checkpoint keeps a copy of the whole state, a restore puts the copy back. */
  function StepCopies(r: WithCopies, op: Op): WithCopies {
    if op.TakeCheckpoint? then r.(copies := r.copies + [r.state])
    else if op.RestoreLast? || op.ForgetLast? then
      if r.copies == [] then r
      else
        var last := |r.copies| - 1;
        WithCopies(if op.RestoreLast? then r.copies[last] else r.state, r.copies[..last])
    else r.(state := Plain(r.state, op))
  }

  function RunMarks(m: WithMarks, ops: seq<Op>): WithMarks
    decreases ops
  {
    if ops == [] then m else RunMarks(StepMarks(m, ops[0]), ops[1..])
  }

  function RunCopies(r: WithCopies, ops: seq<Op>): WithCopies
    decreases ops
  {
    if ops == [] then r else RunCopies(StepCopies(r, ops[0]), ops[1..])
  }

  ghost predicate Linked(m: WithMarks, r: WithCopies) {
    && m.state == r.state
    && |m.marks| == |r.copies|
    && (forall i :: 0 <= i < |r.copies| ==> m.marks[i] == Mark(r.copies[i]))
    && (forall i :: 0 <= i < |r.copies| ==> Undoes(r.copies[i], r.state))
    && (forall i, j :: 0 <= i < j < |r.copies| ==> Undoes(r.copies[i], r.copies[j]))
  }

  lemma PlainUndoes(c: Conc, op: Op)
    ensures Undoes(c, Plain(c, op))
  {
    match op
    case DoSet(key, value) => SetUndoes(c, key, value);
    case DoRemove(key) => RemoveUndoes(c, key);
    case DoBatch(ops) => BatchUndoes(c, ops);
    case _ =>
  }

  lemma StepKeepsLinked(m: WithMarks, r: WithCopies, op: Op)
    requires Linked(m, r)
    ensures Linked(StepMarks(m, op), StepCopies(r, op))
  {
    if op.TakeCheckpoint? {
      UndoesReflexive(r.state);
    } else if op.RestoreLast? && r.copies != [] {
      RestoreUndoes(r.copies[|r.copies| - 1], r.state);
    } else if !op.RestoreLast? && !op.ForgetLast? {
      PlainUndoes(r.state, op);
      forall i | 0 <= i < |r.copies|
        ensures Undoes(r.copies[i], Plain(r.state, op))
      {
        UndoesTransitive(r.copies[i], r.state, Plain(r.state, op));
      }
    }
  }

  /**
   * Every run of sets, removes, batches, events, object ids and checkpoints restored or dropped in
   * LIFO order is, field by field, the run that keeps full copies.
   */
  lemma {:induction false} CheckpointsAreCopies(m: WithMarks, r: WithCopies, ops: seq<Op>)
    requires Linked(m, r)
    ensures Linked(RunMarks(m, ops), RunCopies(r, ops))
    decreases ops
  {
    if ops != [] {
      StepKeepsLinked(m, r, ops[0]);
      CheckpointsAreCopies(StepMarks(m, ops[0]), StepCopies(r, ops[0]), ops[1..]);
    }
  }

  /** The overlay never holds more than its cap, in any reachable state, restored ones included. */
  lemma {:induction false} OverlayNeverExceedsCap(r: WithCopies, ops: seq<Op>)
    requires |r.state.overlay| <= MAX_OVERLAY_ENTRIES
    requires forall i :: 0 <= i < |r.copies| ==> |r.copies[i].overlay| <= MAX_OVERLAY_ENTRIES
    ensures |RunCopies(r, ops).state.overlay| <= MAX_OVERLAY_ENTRIES
    decreases ops
  {
    if ops != [] {
      if ops[0].DoBatch? && BatchAllOps(r.state, ops[0].ops).result.Ok? {
        AcceptedBatchIsOneByOne(r.state, ops[0].ops);
        OneByOneKeepsCap(r.state, ops[0].ops);
      } else if ops[0].DoSet? || ops[0].DoRemove? {
        var value := if ops[0].DoSet? then Some(ops[0].value) else None;
        OneByOneKeepsCap(r.state, [BatchOperation(ops[0].key, value)]);
      }
      OverlayNeverExceedsCap(StepCopies(r, ops[0]), ops[1..]);
    }
  }

  lemma {:induction false} OneByOneKeepsCap(c: Conc, ops: seq<BatchOperation>)
    requires |c.overlay| <= MAX_OVERLAY_ENTRIES
    ensures |OneByOne(c, ops).state.overlay| <= MAX_OVERLAY_ENTRIES
    decreases ops
  {
    if ops != [] {
      var first := SingleOp(c, ops[0]);
      if first.result.Ok? {
        assert ops[0].key in c.overlay ==> first.state.overlay.Keys == c.overlay.Keys;
        assert first.state.overlay.Keys == c.overlay.Keys + {ops[0].key};
        OneByOneKeepsCap(first.state, ops[1..]);
      }
    }
  }

  // ---------------------------------------------------------------------------------------
  // The object

  class ExecutionState {
    const base: Base
    var overlay: Overlay
    var undoLog: seq<Change>
    var events: seq<Event>
    var uniqueObjects: nat

    constructor (base: Base)
      ensures this.base == base
      ensures View() == Conc(map[], [], [], 0)
    {
      this.base := base;
      overlay, undoLog, events, uniqueObjects := map[], [], [], 0;
    }

    function View(): Conc
      reads this
    {
      Conc(overlay, undoLog, events, uniqueObjects)
    }

    method Get(key: Key) returns (r: Result<Option<Value>>)
      ensures r == Lookup(base, overlay, key)
    {
      if key in overlay {
        return Ok(overlay[key]);
      }
      return base(key);
    }

    method Set(key: Key, value: Value) returns (r: Result<()>)
      modifies this
      ensures Outcome(r, View()) == SetOp(old(View()), key, value)
    {
      if |key| > MAX_KEY_SIZE {
        return Err(KeyTooLarge);
      }
      if |value| > MAX_VALUE_SIZE {
        return Err(ValueTooLarge);
      }
      var hadEntry, previous := false, None;
      if key in overlay {
        hadEntry, previous := true, Some(overlay[key]);
      } else if |overlay| >= MAX_OVERLAY_ENTRIES {
        return Err(OverlaySizeExceeded);
      }
      overlay := overlay[key := Some(value)];
      undoLog := undoLog + [SetChange(key, hadEntry, previous)];
      return Ok(());
    }

    method Remove(key: Key) returns (r: Result<()>)
      modifies this
      ensures Outcome(r, View()) == RemoveOp(old(View()), key)
    {
      if |key| > MAX_KEY_SIZE {
        return Err(KeyTooLarge);
      }
      var hadEntry, previous := false, None;
      if key in overlay {
        hadEntry, previous := true, Some(overlay[key]);
      } else if |overlay| >= MAX_OVERLAY_ENTRIES {
        return Err(OverlaySizeExceeded);
      }
      overlay := overlay[key := None];
      undoLog := undoLog + [RemoveChange(key, hadEntry, previous)];
      return Ok(());
    }

    method EmitEvent(event: Event) returns (r: Result<()>)
      modifies this
      ensures Outcome(r, View()) == EmitOp(old(View()), event)
    {
      if |events| >= MAX_EVENTS_PER_EXECUTION {
        return Err(TooManyEvents);
      }
      events := events + [event];
      return Ok(());
    }

    method PopEvents() returns (popped: seq<Event>)
      modifies this
      ensures popped == old(events)
      ensures View() == old(View()).(events := [])
    {
      popped := events;
      events := [];
    }

    method NextUniqueObjectId() returns (id: nat)
      modifies this
      ensures View() == NextIdOp(old(View())) && id == uniqueObjects
    {
      uniqueObjects := uniqueObjects + 1;
      id := uniqueObjects;
    }

    method TakeCheckpoint() returns (mark: Checkpoint)
      ensures mark == Mark(View())
    {
      mark := Checkpoint(|undoLog|, |events|, uniqueObjects);
    }

    method Restore(mark: Checkpoint) returns (r: Result<()>)
      modifies this
      ensures Outcome(r, View()) == RestoreOp(old(View()), mark)
    {
      if mark.logIndex > |undoLog| || mark.eventsIndex > |events| {
        return Err(InvalidCheckpoint);
      }
      while |undoLog| > mark.logIndex
        invariant mark.logIndex <= |undoLog|
        invariant undoLog <= old(undoLog)
        invariant events == old(events)
        invariant Unwind(overlay, undoLog, mark.logIndex) == Unwind(old(overlay), old(undoLog), mark.logIndex)
      {
        var change := undoLog[|undoLog| - 1];
        undoLog := undoLog[..|undoLog| - 1];
        overlay := Revert(overlay, change);
      }
      events := events[..mark.eventsIndex];
      uniqueObjects := mark.unique;
      return Ok(());
    }

    method ApplyBatch(operations: seq<BatchOperation>) returns (r: Result<()>)
      modifies this
      ensures Outcome(r, View()) == BatchAllOps(old(View()), operations)
    {
      var newKeys := 0;
      for i := 0 to |operations|
        invariant View() == old(View())
        invariant FirstFault(operations) == FirstFault(operations[i..])
        invariant NewKeys(overlay, operations) == newKeys + NewKeys(overlay, operations[i..])
      {
        var op := operations[i];
        assert operations[i..][1..] == operations[i + 1..];
        if |op.key| > MAX_KEY_SIZE {
          return Err(KeyTooLarge);
        }
        if op.key !in overlay {
          newKeys := newKeys + 1;
        }
        if op.value.Some? && |op.value.value| > MAX_VALUE_SIZE {
          return Err(ValueTooLarge);
        }
      }
      assert operations[|operations|..] == [];
      if |overlay| + newKeys > MAX_OVERLAY_ENTRIES {
        return Err(OverlaySizeExceeded);
      }
      for i := 0 to |operations|
        invariant events == old(events) && uniqueObjects == old(uniqueObjects)
        invariant RecordAll(old(View()), operations) == RecordAll(View(), operations[i..])
      {
        var op := operations[i];
        assert operations[i..][1..] == operations[i + 1..];
        undoLog := undoLog + [ChangeOf(overlay, op)];
        overlay := overlay[op.key := op.value];
      }
      return Ok(());
    }
  }
}
