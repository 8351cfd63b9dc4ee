/** What every operation of the effect ledger keeps: each effect's history is a
    legal path, records and keys are in bijection, compensations and ordering
    numbers are unique. */
module LedgerInvariant {
  import opened Contracts
  import opened EffectLedger

  /******* One effect's life *******/

  predicate LegalStep(a: EffectState, b: EffectState)
  {
    match a
    case Reserved => b == Rejected || b == Executing
    case Executing => b == OutcomeUnknown || b == ObservedSucceeded || b == ObservedFailed
    case OutcomeUnknown => b == Reconciling
    case Reconciling => b == Reconciling || b == ResolvedSucceeded || b == ResolvedFailed
    case _ => false
  }

  predicate LegalPath(h: seq<EffectTransition>)
  {
    && h != []
    && h[0].state == Reserved
    && forall i :: 0 < i < |h| ==> LegalStep(h[i - 1].state, h[i].state)
  }

  predicate Reached(h: seq<EffectTransition>, s: EffectState)
  {
    exists i :: 0 <= i < |h| && h[i].state == s
  }

  predicate AllFit(calls: seq<Attempt>, p: EffectProposal)
  {
    forall i :: 0 <= i < |calls| ==> CallFits(calls[i].call, p)
  }

  /** The history is a legal path that ends in the record's state; the effect
      was dispatched exactly once if it ever executed and never otherwise; it
      was reconciled at most eight times. */
  predicate EntrySound(e: Entry)
  {
    && LegalPath(e.history)
    && e.history[|e.history| - 1].state == e.record.state
    && |e.attempts| == (if Reached(e.history, Executing) then 1 else 0)
    && |e.reconciliations| <= MAX_RECONCILIATIONS
    && (e.reconciliations != [] <==> Reached(e.history, Reconciling))
    && AllFit(e.attempts, e.record.proposal)
    && AllFit(e.reconciliations, e.record.proposal)
  }

  lemma {:induction false} ReservedOnlyFirst(h: seq<EffectTransition>, i: nat)
    requires LegalPath(h) && i < |h|
    ensures h[i].state == Reserved <==> i == 0
    ensures Terminal(h[i].state) ==> i == |h| - 1
    ensures (i > 0 && h[i].state != Rejected) ==> Reached(h, Executing)
    ensures h[i].state == Rejected ==> i == 1
  {
    if i > 0 {
      ReservedOnlyFirst(h, i - 1);
      assert LegalStep(h[i - 1].state, h[i].state);
    }
    if i + 1 < |h| { assert LegalStep(h[i].state, h[i + 1].state); }
  }

  lemma PathGrows(h: seq<EffectTransition>, t: EffectTransition)
    requires LegalPath(h) && LegalStep(h[|h| - 1].state, t.state)
    ensures LegalPath(h + [t])
    ensures forall s :: Reached(h + [t], s) <==> Reached(h, s) || t.state == s
  {
    var h' := h + [t];
    assert h'[|h|] == t;
    forall s ensures Reached(h', s) <==> Reached(h, s) || t.state == s {
      if Reached(h, s) {
        var i :| 0 <= i < |h| && h[i].state == s;
        assert h'[i] == h[i];
      }
    }
  }

  lemma MoveIsLegal(e: Entry, m: Move)
    requires EntrySound(e) && MoveEntry(e, m).Ok?
    ensures var e' := MoveEntry(e, m).value;
            && e'.record == e.record.(state := e'.record.state)
            && (m.RecordResponse? ==> e'.history == e.history && e'.record.state == e.record.state)
            && (!m.RecordResponse? ==>
                  && LegalStep(e.record.state, e'.record.state)
                  && |e'.history| == |e.history| + 1
                  && e'.history == e.history + [e'.history[|e.history|]]
                  && e'.history[|e.history|].state == e'.record.state)
  {
  }

  lemma MoveKeepsSound(e: Entry, m: Move)
    requires EntrySound(e) && MoveEntry(e, m).Ok?
    ensures EntrySound(MoveEntry(e, m).value)
  {
    var e' := MoveEntry(e, m).value;
    MoveIsLegal(e, m);
    ReservedOnlyFirst(e.history, |e.history| - 1);
    if !m.RecordResponse? {
      PathGrows(e.history, e'.history[|e.history|]);
      if e.record.state == Reserved { assert |e.history| == 1; }
    }
  }

  /** A terminal effect refuses every move. */
  lemma TerminalRefuses(e: Entry, m: Move)
    requires Terminal(e.record.state)
    ensures MoveEntry(e, m).Err?
  {
  }

  /******* The whole ledger *******/

  ghost predicate Filed(l: Ledger, id: Text)
    requires id in l.effects
  {
    var r := l.effects[id];
    && r.effectId == id == EffectIdOf(r.proposal)
    && r.proposal.idempotencyKey in l.byKey
    && l.byKey[r.proposal.idempotencyKey] == id
    && EntrySound(EntryOf(l, id))
  }

  /** Records and keys are in bijection, and nothing is on file for an effect
      without a record. */
  ghost predicate Indexed(l: Ledger)
  {
    && (forall id :: id in l.effects ==> Filed(l, id))
    && (forall k :: k in l.byKey ==>
          l.byKey[k] in l.effects && l.effects[l.byKey[k]].proposal.idempotencyKey == k)
    && l.trails.attempts.Keys <= l.effects.Keys
    && l.trails.reconciliations.Keys <= l.effects.Keys
    && l.trails.history.Keys <= l.effects.Keys
  }

  /** A compensated effect is no compensation itself, succeeded, stays so, and
      has one compensation. */
  ghost predicate CompensationsSound(l: Ledger)
  {
    && (forall id :: id in l.effects && l.effects[id].proposal.provision.compensatesEffectId.Some? ==>
          var original := l.effects[id].proposal.provision.compensatesEffectId.value;
          && original in l.effects
          && l.effects[original].proposal.provision.compensatesEffectId.None?
          && l.effects[original].proposal.intent.objectiveId == l.effects[id].proposal.intent.objectiveId
          && Succeeded(l.effects[original].state))
    && (forall a, b, original ::
          a in l.effects && b in l.effects && Compensates(l.effects[a], original) && Compensates(l.effects[b], original)
          ==> a == b)
  }

  /** In each group no number is given twice and none is skipped. */
  ghost predicate OrderingSound(l: Ledger)
  {
    && (forall id, group :: id in l.effects && InGroup(l.effects[id], group) ==>
          NumberOf(l, id) >= 1 && (NumberOf(l, id) > 1 ==> Given(l, group, NumberOf(l, id) - 1)))
    && (forall a, b, group ::
          a in l.effects && b in l.effects && InGroup(l.effects[a], group) && InGroup(l.effects[b], group)
          && NumberOf(l, a) == NumberOf(l, b)
          ==> a == b)
  }

  function NumberOf(l: Ledger, id: Text): nat
    requires id in l.effects
  {
    var n := l.effects[id].proposal.placement.orderingSequence;
    if n.Some? then n.value else 0
  }

  predicate Given(l: Ledger, group: string, n: nat)
  {
    exists id :: id in l.effects && PlacedAt(l.effects[id], group, n)
  }

  ghost predicate LedgerSound(l: Ledger)
  {
    Indexed(l) && CompensationsSound(l) && OrderingSound(l)
  }

  /** What later operations may do to an effect on file: it stays, its history
      grows, and once terminal its entry does not change at all. */
  ghost predicate Grown(l: Ledger, l': Ledger, id: Text)
    requires id in l.effects
  {
    && id in l'.effects
    && l'.effects[id].proposal == l.effects[id].proposal
    && EntryOf(l, id).history <= EntryOf(l', id).history
    && (Terminal(l.effects[id].state) ==> EntryOf(l', id) == EntryOf(l, id))
  }

  ghost predicate Extends(l: Ledger, l': Ledger)
  {
    forall id :: id in l.effects ==> Grown(l, l', id)
  }

  /******* One operation *******/

  lemma ReserveIsNew(l: Ledger, op: Op)
    requires Indexed(l) && op.ReserveRuntime? && Apply(l, op).Changed?
    ensures EffectIdOf(op.proposal) !in l.effects
    ensures Apply(l, op).ledger == Entered(l, NewRecord(op.proposal, op.decision, op.forwarding, op.now))
    ensures op.proposal.idempotencyKey !in l.byKey
  {
    var id := EffectIdOf(op.proposal);
    if id in l.effects {
      assert Filed(l, id);
      EffectIdInjective(op.proposal, l.effects[id].proposal);
    }
  }

  ghost predicate Fresh(l: Ledger, r: EffectRecord)
  {
    && r.effectId == EffectIdOf(r.proposal) && r.effectId !in l.effects
    && r.proposal.idempotencyKey !in l.byKey
    && r.state == Reserved
  }

  lemma FirstEntrySound(r: EffectRecord, t: EffectTransition)
    requires r.state == Reserved && t.state == Reserved
    ensures EntrySound(Entry(r, [], [], [t]))
  {
    assert [t][0].state == Reserved;
  }

  lemma EnteredEntry(l: Ledger, r: EffectRecord, id: Text)
    requires Indexed(l) && Fresh(l, r) && (id in l.effects || id == r.effectId)
    ensures id != r.effectId ==> EntryOf(Entered(l, r), id) == EntryOf(l, id)
    ensures id == r.effectId ==> EntrySound(EntryOf(Entered(l, r), id))
  {
    if id == r.effectId {
      var t := EffectTransition(Reserved, ByDecision(r.admission.decision));
      FirstEntrySound(r, t);
      hide EntrySound;
      assert EntryOf(Entered(l, r), id) == Entry(r, [], [], [t]);
    }
  }

  lemma EnteredFiled(l: Ledger, r: EffectRecord, id: Text)
    requires Indexed(l) && Fresh(l, r) && (id in l.effects || id == r.effectId)
    ensures Filed(Entered(l, r), id) && (id in l.effects ==> Grown(l, Entered(l, r), id))
  {
    EnteredEntry(l, r, id);
    hide EntrySound, EffectIdOf, EntryOf;
    assert id in l.effects ==> Filed(l, id);
  }

  lemma EnteredKeepsIndexed(l: Ledger, r: EffectRecord)
    requires Indexed(l) && Fresh(l, r)
    ensures Indexed(Entered(l, r)) && Extends(l, Entered(l, r))
  {
    hide Filed, Grown, EffectIdOf, EntrySound;
    var l' := Entered(l, r);
    forall id | id in l'.effects ensures Filed(l', id) && (id in l.effects ==> Grown(l, l', id)) {
      EnteredFiled(l, r, id);
    }
  }

  lemma EnteredKeepsCompensations(l: Ledger, r: EffectRecord)
    requires CompensationsSound(l) && Fresh(l, r)
    requires var original := r.proposal.provision.compensatesEffectId;
             original.Some? ==> CompensationAdmissible(l, r.proposal, original.value)
    ensures CompensationsSound(Entered(l, r))
  {
    assert Entered(l, r).effects == l.effects[r.effectId := r];
  }

  lemma EnteredKeepsOrdering(l: Ledger, r: EffectRecord)
    requires OrderingSound(l) && Fresh(l, r)
    requires var p := r.proposal.placement;
             p.orderingGroup.Some? && p.orderingSequence.Some? ==> IsNext(l, p.orderingGroup.value, p.orderingSequence.value)
    ensures OrderingSound(Entered(l, r))
  {
    var l' := Entered(l, r);
    assert l'.effects == l.effects[r.effectId := r];
    hide Entered, EffectIdOf;
    forall group, n | Given(l, group, n) ensures Given(l', group, n) {
      var w :| w in l.effects && PlacedAt(l.effects[w], group, n);
      assert PlacedAt(l'.effects[w], group, n);
    }
    forall id, group | id in l'.effects && InGroup(l'.effects[id], group)
      ensures NumberOf(l', id) >= 1 && (NumberOf(l', id) > 1 ==> Given(l', group, NumberOf(l', id) - 1))
    {
      if id == r.effectId { assert NumberOf(l', id) > 1 ==> Given(l, group, NumberOf(l', id) - 1); }
      else { assert InGroup(l.effects[id], group) && NumberOf(l', id) == NumberOf(l, id); }
    }
  }

  lemma ReserveKeepsSound(l: Ledger, op: Op)
    requires LedgerSound(l) && op.ReserveRuntime? && Apply(l, op).Changed?
    ensures LedgerSound(Apply(l, op).ledger) && Extends(l, Apply(l, op).ledger)
  {
    ReserveIsNew(l, op);
    var p, original := op.proposal, op.proposal.provision.compensatesEffectId;
    var r := NewRecord(p, op.decision, op.forwarding, op.now);
    assert original.Some? ==> CompensationAdmissible(l, p, original.value);
    assert p.placement.orderingGroup.Some? && p.placement.orderingSequence.Some? ==>
      IsNext(l, p.placement.orderingGroup.value, p.placement.orderingSequence.value)
    by { assert ProviderCheck(l, p, op.now).Ok?; }
    hide Apply, CompensationAdmissible, IsNext, Indexed, CompensationsSound, OrderingSound, Extends;
    EnteredKeepsIndexed(l, r);
    EnteredKeepsCompensations(l, r);
    EnteredKeepsOrdering(l, r);
  }

  /** What any move makes of an entry. */
  ghost predicate Advances(e: Entry, e': Entry)
  {
    && e'.record == e.record.(state := e'.record.state)
    && e.history <= e'.history
    && EntrySound(e')
    && (Terminal(e.record.state) ==> e' == e)
  }

  lemma MoveAdvances(e: Entry, m: Move)
    requires EntrySound(e) && MoveEntry(e, m).Ok?
    ensures Advances(e, MoveEntry(e, m).value)
  {
    MoveIsLegal(e, m);
    MoveKeepsSound(e, m);
    if Terminal(e.record.state) { TerminalRefuses(e, m); }
  }

  lemma PutEntry(l: Ledger, id: Text, e: Entry, other: Text)
    requires id in l.effects && other in l.effects
    ensures EntryOf(Put(l, id, e), other) == if other == id then e else EntryOf(l, other)
  {
  }

  lemma PutFiled(l: Ledger, id: Text, e: Entry, other: Text)
    requires Indexed(l) && id in l.effects && other in l.effects && Advances(EntryOf(l, id), e)
    ensures Filed(Put(l, id, e), other) && Grown(l, Put(l, id, e), other)
  {
    PutEntry(l, id, e, other);
    assert Filed(l, other) && Filed(l, id);
    assert Put(l, id, e).effects == l.effects[id := e.record] && Put(l, id, e).byKey == l.byKey;
    hide EntrySound, EffectIdOf, Put, Indexed;
  }

  lemma PutKeepsIndexed(l: Ledger, id: Text, e: Entry)
    requires Indexed(l) && id in l.effects && Advances(EntryOf(l, id), e)
    ensures Indexed(Put(l, id, e)) && Extends(l, Put(l, id, e))
  {
    hide Filed, Grown, EntrySound;
    var l' := Put(l, id, e);
    forall other | other in l'.effects ensures other in l.effects && Filed(l', other) && Grown(l, l', other) {
      PutFiled(l, id, e, other);
    }
    assert l'.effects == l.effects[id := e.record] && l'.byKey == l.byKey;
  }

  lemma PutKeepsCompensations(l: Ledger, id: Text, e: Entry)
    requires CompensationsSound(l) && id in l.effects && Advances(EntryOf(l, id), e)
    ensures CompensationsSound(Put(l, id, e))
  {
    var l' := Put(l, id, e);
    assert l'.effects == l.effects[id := e.record];
    hide EntrySound, Put;
    CompensationsKept(l, l');
  }

  lemma CompensationsKept(l: Ledger, l': Ledger)
    requires CompensationsSound(l) && l'.effects.Keys == l.effects.Keys
    requires forall id :: id in l.effects ==>
               && l'.effects[id].proposal == l.effects[id].proposal
               && (Succeeded(l.effects[id].state) ==> l'.effects[id] == l.effects[id])
    ensures CompensationsSound(l')
  {
    forall id | id in l'.effects && l'.effects[id].proposal.provision.compensatesEffectId.Some?
      ensures var original := l'.effects[id].proposal.provision.compensatesEffectId.value;
              && original in l'.effects
              && l'.effects[original].proposal.provision.compensatesEffectId.None?
              && l'.effects[original].proposal.intent.objectiveId == l'.effects[id].proposal.intent.objectiveId
              && Succeeded(l'.effects[original].state)
    {
      assert id in l.effects;
    }
    forall a, b, original | a in l'.effects && b in l'.effects && Compensates(l'.effects[a], original) && Compensates(l'.effects[b], original)
      ensures a == b
    {
      assert a in l.effects && b in l.effects && Compensates(l.effects[a], original) && Compensates(l.effects[b], original);
    }
  }

  lemma PutKeepsOrdering(l: Ledger, id: Text, e: Entry)
    requires OrderingSound(l) && id in l.effects && Advances(EntryOf(l, id), e)
    ensures OrderingSound(Put(l, id, e))
  {
    var l' := Put(l, id, e);
    assert l'.effects == l.effects[id := e.record];
    hide EntrySound, Put;
    forall group, n | Given(l, group, n) ensures Given(l', group, n) {
      var w :| w in l.effects && PlacedAt(l.effects[w], group, n);
      assert PlacedAt(l'.effects[w], group, n);
    }
    forall other, group | other in l'.effects && InGroup(l'.effects[other], group)
      ensures NumberOf(l', other) >= 1 && (NumberOf(l', other) > 1 ==> Given(l', group, NumberOf(l', other) - 1))
    {
      assert InGroup(l.effects[other], group) && NumberOf(l', other) == NumberOf(l, other);
    }
  }

  lemma MoveKeepsLedgerSound(l: Ledger, op: Op)
    requires LedgerSound(l) && op.MoveEffect? && Apply(l, op).Changed?
    ensures LedgerSound(Apply(l, op).ledger) && Extends(l, Apply(l, op).ledger)
  {
    assert Filed(l, op.id);
    var e := MoveEntry(EntryOf(l, op.id), op.move).value;
    MoveAdvances(EntryOf(l, op.id), op.move);
    hide Indexed, CompensationsSound, OrderingSound, Extends, MoveEntry, Advances, Put, EntryOf;
    PutKeepsIndexed(l, op.id, e);
    PutKeepsCompensations(l, op.id, e);
    PutKeepsOrdering(l, op.id, e);
  }

  lemma RegistryKeepsSound(l: Ledger, l': Ledger)
    requires LedgerSound(l) && l' == l.(registry := l'.registry)
    ensures LedgerSound(l') && Extends(l, l')
  {
    hide EntrySound, EffectIdOf;
    assert l'.effects == l.effects && l'.byKey == l.byKey && l'.trails == l.trails;
    forall id | id in l.effects ensures Filed(l', id) && Grown(l, l', id) {
      assert Filed(l, id) && EntryOf(l', id) == EntryOf(l, id);
    }
    assert forall group, n :: Given(l, group, n) ==> Given(l', group, n);
    assert forall id :: id in l.effects ==> NumberOf(l', id) == NumberOf(l, id);
  }

  lemma OpKeepsSound(l: Ledger, op: Op)
    requires LedgerSound(l) && Apply(l, op).Changed?
    ensures LedgerSound(Apply(l, op).ledger) && Extends(l, Apply(l, op).ledger)
  {
    hide LedgerSound, Extends;
    if op.ReserveRuntime? { ReserveKeepsSound(l, op); }
    else if op.MoveEffect? { MoveKeepsLedgerSound(l, op); }
    else { RegistryKeepsSound(l, Apply(l, op).ledger); }
  }

  lemma ExtendsItself(l: Ledger)
    ensures Extends(l, l)
  {
  }

  lemma ExtendsChains(a: Ledger, b: Ledger, c: Ledger)
    requires Extends(a, b) && Extends(b, c)
    ensures Extends(a, c)
  {
    forall id | id in a.effects ensures Grown(a, c, id) {
      assert Grown(a, b, id);
      assert Grown(b, c, id);
    }
  }

  /******* What soundness says *******/

  /** `recover` lists exactly the effects whose history has not ended. */
  lemma RecoverListsTheUnfinished(l: Ledger, id: Text)
    requires LedgerSound(l)
    ensures id in Recover(l) <==> id in l.effects && !Terminal(EntryOf(l, id).history[|EntryOf(l, id).history| - 1].state)
    ensures id in l.effects && l.effects[id].state == Reserved ==>
              EntryOf(l, id).attempts == [] && |EntryOf(l, id).history| == 1
  {
    if id in l.effects {
      assert Filed(l, id);
      var h := EntryOf(l, id).history;
      ReservedOnlyFirst(h, |h| - 1);
    }
  }

  function Members(l: Ledger, group: string): set<Text>
  {
    set id | id in l.effects && InGroup(l.effects[id], group)
  }

  function Below(l: Ledger, group: string, n: nat): set<Text>
  {
    set id | id in l.effects && InGroup(l.effects[id], group) && NumberOf(l, id) <= n
  }

  lemma {:induction false} GivenDownwards(l: Ledger, group: string, n: nat, m: nat)
    requires OrderingSound(l) && 1 <= m <= n && Given(l, group, n)
    ensures Given(l, group, m)
    decreases n - m
  {
    if m < n {
      GivenDownwards(l, group, n, m + 1);
      var id :| id in l.effects && PlacedAt(l.effects[id], group, m + 1);
      assert InGroup(l.effects[id], group);
    }
  }

  lemma {:induction false} CountBelow(l: Ledger, group: string, n: nat)
    requires OrderingSound(l) && (n > 0 ==> Given(l, group, n))
    ensures |Below(l, group, n)| == n
  {
    if n == 0 {
      assert Below(l, group, n) == {};
    } else {
      if n > 1 { GivenDownwards(l, group, n, n - 1); }
      CountBelow(l, group, n - 1);
      var id :| id in l.effects && PlacedAt(l.effects[id], group, n);
      assert InGroup(l.effects[id], group);
      assert Below(l, group, n) == Below(l, group, n - 1) + {id};
    }
  }

  lemma {:induction false} NumbersBounded(l: Ledger, group: string, n: nat)
    requires OrderingSound(l) && !Given(l, group, n + 1)
    ensures Members(l, group) == Below(l, group, n)
  {
    forall id | id in Members(l, group) ensures NumberOf(l, id) <= n {
      if NumberOf(l, id) > n {
        assert PlacedAt(l.effects[id], group, NumberOf(l, id));
        GivenDownwards(l, group, NumberOf(l, id), n + 1);
      }
    }
  }

  lemma {:induction false} LastGiven(l: Ledger, group: string, n: nat) returns (last: nat)
    requires OrderingSound(l) && n <= |l.effects| + 1 && (n > 0 ==> Given(l, group, n))
    ensures (last > 0 ==> Given(l, group, last)) && !Given(l, group, last + 1)
    decreases |l.effects| + 1 - n
  {
    if !Given(l, group, n + 1) { return n; }
    hide OrderingSound, Given;
    CountBelow(l, group, n + 1);
    SubsetSize(Below(l, group, n + 1), l.effects.Keys);
    last := LastGiven(l, group, n + 1);
  }

  /** The sequence numbers reserved in a group are exactly 1, 2, ..., n, where n
      is the number of effects in it, each given once. */
  lemma SequencesAreContiguous(l: Ledger, group: string)
    requires LedgerSound(l)
    ensures forall k: nat :: 1 <= k <= |Members(l, group)| <==> Given(l, group, k)
    ensures forall a, b :: a in Members(l, group) && b in Members(l, group) && NumberOf(l, a) == NumberOf(l, b) ==> a == b
  {
    var n := LastGiven(l, group, 0);
    NumbersBounded(l, group, n);
    CountBelow(l, group, n);
    assert |Members(l, group)| == n;
    forall k: nat ensures 1 <= k <= n <==> Given(l, group, k) {
      if 1 <= k <= n { GivenDownwards(l, group, n, k); }
      if Given(l, group, k) {
        var id :| id in l.effects && PlacedAt(l.effects[id], group, k);
        assert InGroup(l.effects[id], group) && NumberOf(l, id) == k;
        assert id in Members(l, group);
      }
    }
  }
}
