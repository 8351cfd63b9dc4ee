/** What the effect ledger accepts and what accepting leaves on file: for
    reservations under new and known keys, and for every move. */
module LedgerAnswers {
  import opened Contracts
  import opened EffectLedger
  import opened LedgerInvariant

  /******* Reservations *******/

  /** A consequence class the provider was admitted for. */
  predicate WithinClass(c: ConsequenceClass, max: ConsequenceClass)
  {
    match c
    case E0 => true
    case E1 => max != E0
    case E2 => max == E2 || max == E3
    case E3 => max == E3
  }

  /** Authority allowed exactly this intent, to the effect service. */
  predicate Granted(d: Decision, p: EffectProposal)
  {
    && d.allowed && d.code == AUTHORIZED && d.brokerServiceId == Service(Effects)
    && d.request.requestId == p.intent.commandId && d.request.activationId == p.intent.activationId
    && d.request.objectiveId == p.intent.objectiveId && d.request.capability == p.intent.capability
    && d.request.operation == p.intent.operation && d.request.target == p.intent.target
  }

  /** The provider is registered, for this class, and can be asked again from E2 on. */
  predicate Supported(l: Ledger, p: EffectProposal)
  {
    && p.provision.providerId in l.registry.providers
    && var provider := l.registry.providers[p.provision.providerId];
      && WithinClass(p.provision.consequenceClass, provider.maxClass)
      && (p.provision.consequenceClass in {E0, E1} || provider.reconciliation != NoReconciliation)
  }

  /** An E3 effect needs its constraint, a window that is open, and the controller. */
  predicate Contracted(p: EffectProposal, now: nat)
  {
    p.provision.consequenceClass == E3 ==>
      && p.bounds.executionConstraintId.Some? && p.bounds.controllerAckRequired
      && p.bounds.validFrom.Some? && p.bounds.validFrom.value <= now
      && p.bounds.validUntil.Some? && now < p.bounds.validUntil.value
  }

  /** The next number of its group, if it has one. */
  predicate InTurn(l: Ledger, p: EffectProposal)
  {
    p.placement.orderingGroup.Some? && p.placement.orderingSequence.Some? ==>
      p.placement.orderingSequence.value == |Members(l, p.placement.orderingGroup.value)| + 1
  }

  /** What is compensated has succeeded, belongs to the same objective and
      activation, compensates nothing, and has no compensation; and the parameters
      are those of compensating it. */
  predicate Compensable(l: Ledger, p: EffectProposal)
  {
    p.provision.compensatesEffectId.Some? ==>
      var original := p.provision.compensatesEffectId.value;
      && original in l.effects
      && l.effects[original].state in {ObservedSucceeded, ResolvedSucceeded}
      && l.effects[original].proposal.intent.objectiveId == p.intent.objectiveId
      && l.effects[original].proposal.intent.activationId == p.intent.activationId
      && l.effects[original].proposal.provision.compensatesEffectId == None
      && p.parametersDigest == PayloadDigest(Compensate, Payload(p.intent.objectiveId, p.intent.capability, original, Some(original)))
      && forall id :: id in l.effects ==> l.effects[id].proposal.provision.compensatesEffectId != Some(original)
  }

  lemma InTurnIsNext(l: Ledger, group: string, n: nat)
    requires LedgerSound(l)
    ensures IsNext(l, group, n) <==> n == |Members(l, group)| + 1
  {
    SequencesAreContiguous(l, group);
    var size := |Members(l, group)|;
    hide Indexed, CompensationsSound;
    forall id | id in l.effects && InGroup(l.effects[id], group) ensures 1 <= NumberOf(l, id) <= size {
      assert NumberOf(l, id) >= 1;
      assert PlacedAt(l.effects[id], group, NumberOf(l, id));
      assert Given(l, group, NumberOf(l, id));
    }
    assert Given(l, group, n) ==> exists id :: id in l.effects && PlacedAt(l.effects[id], group, n) && InGroup(l.effects[id], group);
    if n > 1 { assert Given(l, group, n - 1) <==> n - 1 <= size; }
  }

  /** The record a reservation leaves, with the decided request kept for recovery. */
  function Fresh(p: EffectProposal, d: Decision, forwarding: Forwarding): EffectRecord
  {
    EffectRecord([EffectTag, Sha256(p)], p, Admission(d, true), Reserved,
                 Some(d.request.(schemaVersion := V2_0, callerServiceId := Service(Runtime))), Some(forwarding))
  }

  /** Under a new key a reservation is accepted exactly when authority granted it, it
      has not expired, the provider supports it, its contract is complete, it is in
      turn, and what it compensates may be compensated.  The ledger then has this
      one RESERVED record more, under its identity and its key, with its decision
      as its first history entry. */
  lemma ReserveExactly(l: Ledger, p: EffectProposal, d: Decision, forwarding: Forwarding, now: nat)
    requires LedgerSound(l) && p.idempotencyKey !in l.byKey
    ensures var outcome := Apply(l, ReserveRuntime(p, d, forwarding, now));
            && (outcome.Changed? <==>
                  && Granted(d, p) && now < p.provision.expiresAt && Supported(l, p) && Contracted(p, now)
                  && InTurn(l, p) && Compensable(l, p))
            && !outcome.Answered?
            && (outcome.Changed? ==>
                  var id := [EffectTag, Sha256(p)];
                  && id !in l.effects && outcome.ledger.effects == l.effects[id := Fresh(p, d, forwarding)]
                  && outcome.ledger.byKey == l.byKey[p.idempotencyKey := id]
                  && outcome.ledger.registry == l.registry
                  && EntryOf(outcome.ledger, id) ==
                     Entry(Fresh(p, d, forwarding), [], [], [EffectTransition(Reserved, ByDecision(d))])
                  && forall other :: other in l.effects ==> EntryOf(outcome.ledger, other) == EntryOf(l, other))
  {
    var op := ReserveRuntime(p, d, forwarding, now);
    if p.placement.orderingGroup.Some? && p.placement.orderingSequence.Some? {
      InTurnIsNext(l, p.placement.orderingGroup.value, p.placement.orderingSequence.value);
    }
    AdmissibleIsCompensable(l, p);
    CheckIsSupport(l, p, now);
    hide CompensationAdmissible, Compensable, ProviderCheck, Supported, Contracted, InTurn, CompensationsSound, OrderingSound, EntrySound;
    if Apply(l, op).Changed? {
      ReserveIsNew(l, op);
      assert [EffectTag, Sha256(p)] == EffectIdOf(p);
      assert Get(l.trails.history, EffectIdOf(p)) == [];
    }
  }

  lemma AdmissibleIsCompensable(l: Ledger, p: EffectProposal)
    ensures Compensable(l, p) <==>
              (p.provision.compensatesEffectId.Some? ==> CompensationAdmissible(l, p, p.provision.compensatesEffectId.value))
  {
  }

  lemma CheckIsSupport(l: Ledger, p: EffectProposal, now: nat)
    requires p.placement.orderingGroup.Some? && p.placement.orderingSequence.Some? ==>
               (IsNext(l, p.placement.orderingGroup.value, p.placement.orderingSequence.value) <==>
                p.placement.orderingSequence.value == |Members(l, p.placement.orderingGroup.value)| + 1)
    ensures ProviderCheck(l, p, now).Ok? <==> Supported(l, p) && Contracted(p, now) && InTurn(l, p)
  {
    hide IsNext;
  }

  /** Under a known key nothing changes: the effect on file answers for exactly its
      own proposal, expiry aside, if authority granted it and it has not expired. */
  lemma ReplayExactly(l: Ledger, p: EffectProposal, d: Decision, forwarding: Forwarding, now: nat)
    requires LedgerSound(l) && p.idempotencyKey in l.byKey
    ensures var outcome := Apply(l, ReserveRuntime(p, d, forwarding, now));
            var existing := l.effects[l.byKey[p.idempotencyKey]];
            && !outcome.Changed?
            && (outcome.Answered? ==> outcome.record == existing && existing.proposal.idempotencyKey == p.idempotencyKey)
            && (outcome.Answered? <==>
                  && Granted(d, p) && now < p.provision.expiresAt
                  && existing.proposal.intent == p.intent && existing.proposal.parametersDigest == p.parametersDigest
                  && existing.proposal.bounds == p.bounds && existing.proposal.placement == p.placement
                  && existing.proposal.provision.consequenceClass == p.provision.consequenceClass
                  && existing.proposal.provision.providerId == p.provision.providerId
                  && existing.proposal.provision.compensatesEffectId == p.provision.compensatesEffectId)
  {
    hide CompensationsSound, OrderingSound, Filed;
  }

  /******* Moves *******/

  /** The call is of the proposal's digest and provider, under a real transport. */
  predicate OfProposal(c: Call, p: EffectProposal)
  {
    c.requestDigest == p.parametersDigest && c.providerId == p.provision.providerId && c.transportId.OfflineTransport?
  }

  /** The states a move is made in. */
  predicate Movable(e: Entry, m: Move)
  {
    match m
    case Reject(_) => e.record.state == Reserved
    case Dispatch(call, d) => e.record.state == Reserved && Granted(d, e.record.proposal) && OfProposal(call, e.record.proposal)
    case LoseTransport(_) => e.record.state == Executing
    case RecordResponse(_) => e.record.state == Executing
    case Observe(o) => e.record.state == Executing && o.independent
    case BeginReconciliation(call) =>
      e.record.state in {OutcomeUnknown, Reconciling} && OfProposal(call, e.record.proposal) && |e.reconciliations| < 8
    case Inconclusive(_, _) => e.record.state == Reconciling
    case Resolve(o) => e.record.state == Reconciling && o.independent
  }

  /** The state it leads to. */
  function Target(e: Entry, m: Move): EffectState
  {
    match m
    case Reject(_) => Rejected
    case Dispatch(_, _) => Executing
    case LoseTransport(_) => OutcomeUnknown
    case RecordResponse(_) => e.record.state
    case Observe(o) => if o.succeeded then ObservedSucceeded else ObservedFailed
    case BeginReconciliation(_) => Reconciling
    case Inconclusive(_, _) => Reconciling
    case Resolve(o) => if o.succeeded then ResolvedSucceeded else ResolvedFailed
  }

  /** The history entry it adds. */
  function Noted(m: Move): seq<Evidence>
  {
    match m
    case Reject(evidence) => [Reported(evidence)]
    case Dispatch(_, _) => [DispatchPersisted]
    case LoseTransport(response) => [Reported(response)]
    case RecordResponse(_) => []
    case Observe(o) => [Reported(o.evidence)]
    case BeginReconciliation(_) => [ReconciliationDispatched]
    case Inconclusive(_, evidence) => [Reported(evidence)]
    case Resolve(o) => [Reported(o.evidence)]
  }

  /** The one dispatch as the move leaves it. */
  predicate Dispatched(e: Entry, e': Entry, m: Move)
  {
    match m
    case Dispatch(call, _) => e'.attempts == [Attempt(call, None, None, None)]
    case LoseTransport(response) =>
      |e.attempts| == 1 && e'.attempts == [Attempt(e.attempts[0].call, Some(response), Some("transport"), Some(OutcomeUnknown))]
    case RecordResponse(response) =>
      && |e.attempts| == 1
      && e'.attempts == [Attempt(e.attempts[0].call, Some(response), e.attempts[0].source, e.attempts[0].classification)]
    case Observe(o) =>
      && |e.attempts| == 1
      && e'.attempts == [Attempt(e.attempts[0].call, e.attempts[0].response, Some(o.source),
                                 Some(if o.succeeded then ObservedSucceeded else ObservedFailed))]
    case _ => e'.attempts == e.attempts
  }

  /** The reconciliations as the move leaves them. */
  predicate Probed(e: Entry, e': Entry, m: Move)
  {
    var n := |e.reconciliations|;
    match m
    case BeginReconciliation(call) => e'.reconciliations == e.reconciliations + [Attempt(call, None, None, None)]
    case Inconclusive(source, evidence) =>
      && n > 0
      && e'.reconciliations == e.reconciliations[..n - 1]
           + [Attempt(e.reconciliations[n - 1].call, Some(evidence), Some(source), Some(Reconciling))]
    case Resolve(o) =>
      && n > 0
      && e'.reconciliations == e.reconciliations[..n - 1]
           + [Attempt(e.reconciliations[n - 1].call, Some(o.evidence), Some(o.source),
                      Some(if o.succeeded then ResolvedSucceeded else ResolvedFailed))]
    case _ => e'.reconciliations == e.reconciliations
  }

  /** A move is accepted exactly in its states and with what it needs, and then
      changes the state, the history and its own attempt, and nothing else. */
  lemma MoveExactly(e: Entry, m: Move)
    requires EntrySound(e)
    ensures MoveEntry(e, m).Ok? <==> Movable(e, m)
    ensures MoveEntry(e, m).Ok? ==>
              var e' := MoveEntry(e, m).value;
              && e'.record == e.record.(state := Target(e, m))
              && (if Noted(m) == [] then e'.history == e.history
                  else e'.history == e.history + [EffectTransition(Target(e, m), Noted(m)[0])])
              && Dispatched(e, e', m) && Probed(e, e', m)
  {
    TrailSizes(e);
    hide EntrySound, Dispatched, Probed;
    if MoveEntry(e, m).Ok? {
      MoveDispatched(e, m);
      MoveProbed(e, m);
    }
  }

  lemma MoveDispatched(e: Entry, m: Move)
    requires MoveEntry(e, m).Ok? && (e.record.state == Reserved ==> e.attempts == []) && (e.record.state == Executing ==> |e.attempts| == 1)
    ensures Dispatched(e, MoveEntry(e, m).value, m)
  {
    hide Granted, DecisionFits, CallFits;
    AmendLast(e.attempts);
  }

  lemma MoveProbed(e: Entry, m: Move)
    requires MoveEntry(e, m).Ok? && (e.record.state == Reconciling ==> e.reconciliations != [])
    ensures Probed(e, MoveEntry(e, m).value, m)
  {
    hide Granted, DecisionFits, CallFits;
    AmendLast(e.reconciliations);
  }

  /** How often a sound entry was dispatched and probed, by its state. */
  lemma TrailSizes(e: Entry)
    requires EntrySound(e)
    ensures e.record.state == Reserved ==> e.attempts == [] && e.reconciliations == []
    ensures e.record.state == Executing ==> |e.attempts| == 1
    ensures e.record.state == Reconciling ==> e.reconciliations != []
  {
    var h := e.history;
    ReservedOnlyFirst(h, |h| - 1);
    assert Reached(h, h[|h| - 1].state);
    if e.record.state == Reserved { assert |h| == 1; }
  }

  lemma AmendLast(attempts: seq<Attempt>)
    ensures attempts != [] ==> attempts == attempts[..|attempts| - 1] + [attempts[|attempts| - 1]]
    ensures |attempts| == 1 ==> attempts == [attempts[0]]
  {
  }

  lemma PutElsewhere(l: Ledger, id: Text, r: Result<Entry, EffectError>)
    requires id in l.effects
    ensures r.Ok? ==>
              var l' := Put(l, id, r.value);
              && l'.effects.Keys == l.effects.Keys && l'.byKey == l.byKey && l'.registry == l.registry
              && EntryOf(l', id) == r.value
              && forall other :: other in l.effects && other != id ==> EntryOf(l', other) == EntryOf(l, other)
  {
    if r.Ok? {
      PutEntry(l, id, r.value, id);
      forall other | other in l.effects && other != id ensures EntryOf(Put(l, id, r.value), other) == EntryOf(l, other) {
        PutEntry(l, id, r.value, other);
      }
    }
  }

  /** A move of an effect on file is one of its entry, and touches no other. */
  lemma MoveEffectExactly(l: Ledger, id: Text, m: Move)
    requires LedgerSound(l)
    ensures var outcome := Apply(l, MoveEffect(id, m));
            && !outcome.Answered?
            && (outcome.Changed? <==> id in l.effects && Movable(EntryOf(l, id), m))
            && (outcome.Changed? ==>
                  && id in outcome.ledger.effects && EntryOf(outcome.ledger, id) == MoveEntry(EntryOf(l, id), m).value
                  && outcome.ledger.effects.Keys == l.effects.Keys && outcome.ledger.byKey == l.byKey
                  && outcome.ledger.registry == l.registry
                  && forall other :: other in l.effects && other != id ==> EntryOf(outcome.ledger, other) == EntryOf(l, other))
  {
    hide EntrySound, MoveEntry, Movable, Missing, CompensationsSound, OrderingSound, Target, Noted, Dispatched, Probed;
    if id in l.effects {
      assert Filed(l, id);
      MoveExactly(EntryOf(l, id), m);
      PutElsewhere(l, id, MoveEntry(EntryOf(l, id), m));
    }
  }
}
