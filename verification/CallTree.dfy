/**
 * What holds of every tree of calls, whatever the account codes do: gas only grows and stays
 * within its limit, the overlay stays within its cap, every change of a key is explained by a
 * write of the account that owns it, and the ids handed out are numbered upwards.
 */
module CallTree {
  import opened Types
  import opened Gas
  import opened ExecState
  import opened Programs
  import opened Snapshot
  import opened CallInduction

  ghost predicate Explains(es: seq<Effect>, o: Overlay, p: Overlay) {
    forall key :: EntryOf(o, key) != EntryOf(p, key) ==> exists i :: 0 <= i < |es| && WritesTo(es[i], key)
  }

  ghost predicate Numbered(es: seq<Effect>, low: nat, high: nat) {
    && (forall i :: 0 <= i < |es| && es[i].IdIssued? ==> low < es[i].counter <= high)
    && (forall i, j :: 0 <= i < j < |es| && es[i].IdIssued? && es[j].IdIssued? ==> es[i].counter < es[j].counter)
  }

  /** `es` is what happened between `s` and `t`. */
  ghost predicate Happened(es: seq<Effect>, s: Snap, t: Snap) {
    && t.effects == s.effects + es
    && s.unique <= t.unique
    && Numbered(es, s.unique, t.unique)
    && (forall i :: 0 <= i < |es| ==> Sound(es[i]))
    && Explains(es, s.overlay, t.overlay)
    && (|s.overlay| <= MAX_OVERLAY_ENTRIES ==> |t.overlay| <= MAX_OVERLAY_ENTRIES)
    && (s.full ==> t.full)
  }

  function Since(s: Snap, t: Snap): seq<Effect>
    requires |s.effects| <= |t.effects|
  {
    t.effects[|s.effects|..]
  }

  ghost predicate Evolves(s: Snap, m: Meter, t: Snap, n: Meter) {
    && |s.effects| <= |t.effects|
    && Happened(Since(s, t), s, t)
    && MeterGrows(m, n)
  }

  lemma EvolvesBy(es: seq<Effect>, s: Snap, m: Meter, t: Snap, n: Meter)
    requires Happened(es, s, t) && MeterGrows(m, n)
    ensures Evolves(s, m, t, n)
  {
    assert Since(s, t) == es;
  }

  /** A state that only lost room, or nothing, evolves by no effect at all. */
  lemma EvolvesIdle(s: Snap, m: Meter, t: Snap, n: Meter)
    requires t == s.(full := t.full) && (s.full ==> t.full)
    requires MeterGrows(m, n)
    ensures Evolves(s, m, t, n)
  {
    EvolvesBy([], s, m, t, n);
  }

  lemma ExplainsConcat(es: seq<Effect>, fs: seq<Effect>, o: Overlay, p: Overlay, q: Overlay)
    requires Explains(es, o, p) && Explains(fs, p, q)
    ensures Explains(es + fs, o, q)
  {
    forall key | EntryOf(o, key) != EntryOf(q, key)
      ensures exists i :: 0 <= i < |es + fs| && WritesTo((es + fs)[i], key)
    {
      if EntryOf(o, key) != EntryOf(p, key) {
        var i :| 0 <= i < |es| && WritesTo(es[i], key);
        assert WritesTo((es + fs)[i], key);
      } else {
        var i :| 0 <= i < |fs| && WritesTo(fs[i], key);
        assert WritesTo((es + fs)[|es| + i], key);
      }
    }
  }

  lemma EvolvesTransitive(s: Snap, m: Meter, t: Snap, n: Meter, u: Snap, o: Meter)
    requires Evolves(s, m, t, n) && Evolves(t, n, u, o)
    ensures Evolves(s, m, u, o)
  {
    var es, fs := Since(s, t), Since(t, u);
    ExplainsConcat(es, fs, s.overlay, t.overlay, u.overlay);
    assert Numbered(es + fs, s.unique, u.unique);
    EvolvesBy(es + fs, s, m, u, o);
  }

  // ---------------------------------------------------------------------------------------
  // Steps that make no call

  lemma WriteEvolves(s: Snap, key: Key, entry: Option<Value>, effect: Effect, m: Meter)
    requires WritesTo(effect, key) && Sound(effect)
    ensures Evolves(s, m, Write(s, key, entry, effect).snap, m)
  {
    var r := Write(s, key, entry, effect);
    if r.result.Ok? {
      assert WritesTo([effect][0], key);
      assert r.snap.overlay.Keys == s.overlay.Keys + {key};
      assert key in s.overlay ==> r.snap.overlay.Keys == s.overlay.Keys;
      EvolvesBy([effect], s, m, r.snap, m);
    } else {
      EvolvesIdle(s, m, r.snap, m);
    }
  }

  lemma IssueIdEvolves(x: Ctx, s: Snap, m: Meter)
    ensures var o := IssueId(x, s, m); Evolves(s, m, o.snap, o.meter)
  {
    var o := IssueId(x, s, m);
    EvolvesBy(if o.reply.Ok? then [IdIssued(x.scope, s.unique + 1, o.reply.value.bytes)] else [], s, m, o.snap, m);
  }

  // ---------------------------------------------------------------------------------------
  // Every call tree evolves

  ghost function Evolution(): Relation {
    (s: Snap, m: Meter, t: Snap, n: Meter) => Evolves(s, m, t, n)
  }

  lemma EvolutionIsClosed(w: World)
    ensures Closed(w, Evolution())
  {
    var rel := Evolution();
    forall s, m, t, n, u, o | rel(s, m, t, n) && rel(t, n, u, o) ensures rel(s, m, u, o) {
      EvolvesTransitive(s, m, t, n, u, o);
    }
    forall s, m, n | MeterGrows(m, n) ensures rel(s, m, s, n) {
      EvolvesIdle(s, m, s, n);
    }
    forall s, m, t, n | rel(s, m, t, n) ensures rel(s, m, RolledBack(s, t), n) {
      EvolvesIdle(s, m, RolledBack(s, t), n);
    }
    forall s, key, entry, effect, m | WritesTo(effect, key) && Sound(effect)
      ensures rel(s, m, Write(s, key, entry, effect).snap, m)
    {
      WriteEvolves(s, key, entry, effect, m);
    }
    forall x, name, data, s, m ensures rel(s, m, EmitEvent(x, name, data, s, m).snap, m) {
      EvolvesBy([], s, m, EmitEvent(x, name, data, s, m).snap, m);
    }
    forall x, s, m ensures rel(s, m, IssueId(x, s, m).snap, m) {
      IssueIdEvolves(x, s, m);
    }
    forall s, account, code, m ensures rel(s, m, Entered(s, account, code), m) {
      EvolvesBy([CodeRun(account, code)], s, m, Entered(s, account, code), m);
    }
  }

  // ---------------------------------------------------------------------------------------
  // Consequences

  /**
   * Frame.  Over any evolution, an account's storage reads the same afterwards unless a write by
   * that very account, to that very key, survived.
   */
  lemma OnlyTheOwnerWrites(base: Base, s: Snap, m: Meter, t: Snap, n: Meter, owner: AccountId, key: Key)
    requires Evolves(s, m, t, n) && InNamespace(owner, key)
    requires Lookup(base, s.overlay, key) != Lookup(base, t.overlay, key)
    ensures exists i :: 0 <= i < |Since(s, t)| && Since(s, t)[i] == StorageWrite(owner, key)
  {
    assert EntryOf(s.overlay, key) != EntryOf(t.overlay, key);
    var i :| 0 <= i < |Since(s, t)| && WritesTo(Since(s, t)[i], key);
    var e := Since(s, t)[i];
    assert Sound(e);
    NamespacesAreDisjoint(if e.CodeWrite? then e.account else owner, [], owner);
    assert e.StorageWrite?;
  }

  /** Ids that survive are pairwise different, whatever scopes they were issued in. */
  lemma SurvivingIdsDiffer(s: Snap, m: Meter, t: Snap, n: Meter, i: nat, j: nat)
    requires Evolves(s, m, t, n) && t.unique <= U64_MAX
    requires i < |Since(s, t)| && j < |Since(s, t)| && i != j
    requires Since(s, t)[i].IdIssued? && Since(s, t)[j].IdIssued?
    ensures Since(s, t)[i].id != Since(s, t)[j].id
  {
    var a, b := Since(s, t)[i], Since(s, t)[j];
    assert Sound(a) && Sound(b);
    UniqueIdsEqualIff(a.scope, a.counter, b.scope, b.counter);
  }
}
