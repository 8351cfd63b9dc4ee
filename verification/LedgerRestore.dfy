/** Restoring the effect ledger from the canonical records of the state service. */
module LedgerRestore {
  import opened Contracts
  import opened EffectLedger
  import opened LedgerInvariant

  /******* Restoring *******/

  function SnapshotOf(l: Ledger, id: Text): Snapshot
    requires id in l.effects
  {
    var e := EntryOf(l, id);
    Snapshot(e.record, e.attempts, e.reconciliations, e.history)
  }

  /** The canonical records of a ledger in some order. */
  ghost predicate Lists(l: Ledger, order: seq<Text>, snapshots: seq<Option<Snapshot>>)
  {
    && |order| == |snapshots|
    && (forall id :: id in l.effects <==> id in order)
    && (forall i :: 0 <= i < |order| ==> order[i] in l.effects && snapshots[i] == Some(SnapshotOf(l, order[i])))
  }

  /** The cache holds exactly the listed effects of the ledger, filed as there. */
  ghost predicate Agrees(c: Ledger, l: Ledger, ids: seq<Text>)
  {
    && (forall id :: id in c.effects <==> id in ids)
    && (forall id :: id in ids ==> id in l.effects && EntryOf(c, id) == EntryOf(l, id))
    && (forall k :: k in c.byKey <==> k in l.byKey && l.byKey[k] in ids)
    && (forall k :: k in c.byKey ==> c.byKey[k] == l.byKey[k])
  }

  lemma InsertEntry(c: Ledger, l: Ledger, id: Text, other: Text)
    requires id in l.effects && l.effects[id].effectId == id && (other == id || other in c.effects)
    ensures EntryOf(Insert(c, SnapshotOf(l, id)), other) == if other == id then EntryOf(l, id) else EntryOf(c, other)
  {
  }

  lemma InsertAgrees(c: Ledger, l: Ledger, ids: seq<Text>, id: Text)
    requires Indexed(l) && Agrees(c, l, ids) && id in l.effects
    ensures Agrees(Insert(c, SnapshotOf(l, id)), l, ids + [id])
  {
    hide EntrySound, EffectIdOf, EntryOf;
    assert Filed(l, id);
    var c' := Insert(c, SnapshotOf(l, id));
    var key := l.effects[id].proposal.idempotencyKey;
    EntryRecord(l, id);
    assert c'.effects.Keys == c.effects.Keys + {id} && c'.byKey == c.byKey[key := id] && l.byKey[key] == id;
    hide Filed, Insert;
    forall other | other in ids + [id] ensures other in l.effects && EntryOf(c', other) == EntryOf(l, other) {
      InsertEntry(c, l, id, other);
    }
  }

  lemma EntryRecord(l: Ledger, id: Text)
    requires id in l.effects
    ensures EntryOf(l, id).record == l.effects[id]
  {
  }

  lemma {:induction false} RebuiltAgrees(c: Ledger, l: Ledger, order: seq<Text>, snapshots: seq<Option<Snapshot>>, n: nat)
    requires Indexed(l) && Lists(l, order, snapshots) && n <= |order|
    ensures None !in snapshots[..n] && Agrees(Rebuilt(c, snapshots[..n]), l, order[..n])
  {
    hide Indexed, Agrees, EntryOf, Insert;
    if n == 0 {
      NothingAgrees(c, l);
      assert order[..0] == [] && snapshots[..0] == [];
    } else {
      RebuiltAgrees(c, l, order, snapshots, n - 1);
      assert snapshots[..n][..n - 1] == snapshots[..n - 1];
      assert snapshots[n - 1] == Some(SnapshotOf(l, order[n - 1]));
      InsertAgrees(Rebuilt(c, snapshots[..n - 1]), l, order[..n - 1], order[n - 1]);
      assert order[..n] == order[..n - 1] + [order[n - 1]];
    }
  }

  lemma NothingAgrees(c: Ledger, l: Ledger)
    ensures Agrees(Cleared(c), l, [])
  {
  }

  lemma AgreesOnAll(c: Ledger, l: Ledger, ids: seq<Text>, snapshots: seq<Option<Snapshot>>)
    requires Indexed(l) && Agrees(c, l, ids) && Lists(l, ids, snapshots)
    ensures c.effects == l.effects && c.byKey == l.byKey
    ensures forall id :: id in l.effects ==> EntryOf(c, id) == EntryOf(l, id)
  {
    hide EntryOf, Filed, SnapshotOf;
    forall id | id in ids ensures c.effects[id] == l.effects[id] {
      EntryRecord(c, id);
      EntryRecord(l, id);
    }
  }

  lemma RestoreWhenAllParse(s: Session, snapshots: seq<Option<Snapshot>>)
    requires None !in snapshots && s.available
    ensures Restore(s, snapshots, NoFault).1.Ok?
    ensures Restore(s, snapshots, NoFault).0.mem == Rebuilt(s.mem, snapshots)
    ensures Restore(s, snapshots, NoFault).0.available
  {
    hide Rebuilt;
    FirstBadWhenAllParse(snapshots);
    assert snapshots[..|snapshots|] == snapshots;
  }

  /** A cache restored from the canonical records of a sound ledger, in any
      order, holds the same effects under the same keys with the same entries. */
  lemma RestoreRoundTrip(s: Session, l: Ledger, order: seq<Text>, snapshots: seq<Option<Snapshot>>)
    requires LedgerSound(l) && Lists(l, order, snapshots) && s.available
    ensures None !in snapshots && Restore(s, snapshots, NoFault).1.Ok?
    ensures var c := Restore(s, snapshots, NoFault).0.mem;
            && c.effects == l.effects && c.byKey == l.byKey
            && forall id :: id in l.effects ==> EntryOf(c, id) == EntryOf(l, id)
  {
    assert Indexed(l);
    assert |order| == |snapshots|;
    hide LedgerSound, Indexed, Rebuilt, Restore, EntryOf, Agrees, Lists;
    RebuiltAgrees(s.mem, l, order, snapshots, |order|);
    assert snapshots[..|snapshots|] == snapshots && order[..|order|] == order;
    RestoreWhenAllParse(s, snapshots);
    AgreesOnAll(Rebuilt(s.mem, snapshots), l, order, snapshots);
  }

  lemma FirstBadWhenAllParse(snapshots: seq<Option<Snapshot>>)
    ensures FirstBad(snapshots) == |snapshots| <==> None !in snapshots
  {
    assert snapshots[..|snapshots|] == snapshots;
  }

  lemma {:induction false} RebuiltTrails(c: Ledger, snapshots: seq<Option<Snapshot>>)
    requires None !in snapshots
    ensures var l := Rebuilt(c, snapshots);
            && l.trails.attempts.Keys == l.effects.Keys
            && l.trails.reconciliations.Keys == l.effects.Keys
            && l.trails.history.Keys == l.effects.Keys
  {
    if snapshots != [] { RebuiltTrails(c, snapshots[..|snapshots| - 1]); }
  }

  /** Soundness carries over to any ledger with the same effects, keys and
      entries. */
  lemma SameEntriesSound(l: Ledger, l': Ledger)
    requires LedgerSound(l) && l'.effects == l.effects && l'.byKey == l.byKey
    requires forall id :: id in l.effects ==> EntryOf(l', id) == EntryOf(l, id)
    requires l'.trails.attempts.Keys <= l.effects.Keys && l'.trails.reconciliations.Keys <= l.effects.Keys
    requires l'.trails.history.Keys <= l.effects.Keys
    ensures LedgerSound(l') && Extends(l, l')
  {
    hide EntrySound, EntryOf, EffectIdOf;
    forall id | id in l.effects ensures Filed(l', id) && Grown(l, l', id) {
      assert Filed(l, id);
    }
    SameEffectsSound(l, l');
  }

  lemma SameEffectsSound(l: Ledger, l': Ledger)
    requires l'.effects == l.effects
    ensures CompensationsSound(l) ==> CompensationsSound(l')
    ensures OrderingSound(l) ==> OrderingSound(l')
  {
    assert forall id :: id in l.effects ==> NumberOf(l', id) == NumberOf(l, id);
    assert forall group, n :: Given(l, group, n) ==> Given(l', group, n);
  }

  lemma {:induction false} RebuiltForgets(a: Ledger, b: Ledger, snapshots: seq<Option<Snapshot>>)
    requires None !in snapshots && a.registry == b.registry
    ensures Rebuilt(a, snapshots) == Rebuilt(b, snapshots)
  {
    if snapshots != [] { RebuiltForgets(a, b, snapshots[..|snapshots| - 1]); }
  }

  /** An error part-way through leaves the cache partly rebuilt.  For every list
      of snapshots: a failing call is sure to keep the records as they were if
      and only if every snapshot parses. */
  lemma RestoreErrorKeepsRecords(snapshots: seq<Option<Snapshot>>)
    ensures (forall s: Session, fault: Fault ::
               Restore(s, snapshots, fault).1.Err? ==> Restore(s, snapshots, fault).0.mem == s.mem)
            <==> None !in snapshots
  {
    FirstBadWhenAllParse(snapshots);
    if None in snapshots {
      var a, b := EmptyLedger, EmptyLedger.(byKey := map[OtherKey("") := []]);
      RebuiltForgets(a, b, snapshots[..FirstBad(snapshots)]);
      var sa, sb := Session(a, true, false, None), Session(b, true, false, None);
      assert OtherKey("") in b.byKey && OtherKey("") !in a.byKey;
      assert Restore(sa, snapshots, NoFault).1.Err? && Restore(sb, snapshots, NoFault).1.Err?;
    }
  }
}
