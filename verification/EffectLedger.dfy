/** The effect ledger: one record per idempotency key, moved through a fixed
    state machine, and a cache that is written to disk by whole-file
    replacement.  The pure operations give the ledger an accepted call leaves;
    the class performs them and survives a failed write. */
module EffectLedger {
  import opened Contracts

  datatype EffectState =
    | Rejected
    | Reserved
    | Executing
    | ObservedSucceeded
    | ObservedFailed
    | OutcomeUnknown
    | Reconciling
    | ResolvedSucceeded
    | ResolvedFailed

  predicate Succeeded(s: EffectState) { s == ObservedSucceeded || s == ResolvedSucceeded }

  predicate Terminal(s: EffectState)
  {
    Succeeded(s) || s == ObservedFailed || s == ResolvedFailed || s == Rejected
  }

  datatype Evidence =
    | ByDecision(decision: Decision)
    | DispatchPersisted
    | ReconciliationDispatched
    | Reported(text: string)

  datatype EffectTransition = EffectTransition(state: EffectState, evidence: Evidence)

  datatype Admission = Admission(decision: Decision, preconditionValid: bool)

  datatype EffectRecord = EffectRecord(
    effectId: Text,
    proposal: EffectProposal,
    admission: Admission,
    state: EffectState,
    authorityRequest: Option<RuntimeAuthorityRequest>,
    forwarding: Option<Forwarding>)

  datatype Call = Call(requestDigest: ParametersDigest, at: nat, providerId: string, transportId: TransportId)

  datatype Attempt = Attempt(
    call: Call,
    response: Option<string>,
    source: Option<string>,
    classification: Option<EffectState>)

  datatype Observation = Observation(source: string, evidence: string, succeeded: bool, independent: bool)

  datatype Reconciliation = IdempotencyMode | ExternalIdentifierMode | TargetStateMode | NoReconciliation

  datatype ProviderContract = ProviderContract(id: string, reconciliation: Reconciliation, maxClass: ConsequenceClass)

  datatype EffectError =
    | AdmissionDenied
    | ProviderMissing
    | ConsequenceUnsupported
    | EffectMissing
    | InvalidTransition
    | IndependentEvidenceRequired
    | ExecutionContractIncomplete
    | OrderingViolation
    | IdempotencyConflict
    | InvalidAttempt
    | Storage

  /** What was done about an effect: dispatches, reconciliations, history. */
  datatype Trails = Trails(
    attempts: map<Text, seq<Attempt>>,
    reconciliations: map<Text, seq<Attempt>>,
    history: map<Text, seq<EffectTransition>>)

  datatype Registry = Registry(providers: map<string, ProviderContract>, pendingGuards: set<Text>)

  datatype Ledger = Ledger(
    effects: map<Text, EffectRecord>,
    byKey: map<IdempotencyKey, Text>,
    trails: Trails,
    registry: Registry)

  const EmptyLedger := Ledger(map[], map[], Trails(map[], map[], map[]), Registry(map[], {}))

  function Get<K, V>(m: map<K, seq<V>>, k: K): seq<V>
  {
    if k in m then m[k] else []
  }

  /******* One effect's entry *******/

  datatype Entry = Entry(
    record: EffectRecord,
    attempts: seq<Attempt>,
    reconciliations: seq<Attempt>,
    history: seq<EffectTransition>)

  function EntryOf(l: Ledger, id: Text): Entry
    requires id in l.effects
  {
    Entry(l.effects[id], Get(l.trails.attempts, id), Get(l.trails.reconciliations, id), Get(l.trails.history, id))
  }

  function PutSeq<K, V(==)>(m: map<K, seq<V>>, k: K, s: seq<V>): map<K, seq<V>>
  {
    if s == Get(m, k) then m else m[k := s]
  }

  function Put(l: Ledger, id: Text, e: Entry): Ledger
  {
    l.(effects := l.effects[id := e.record],
       trails := Trails(PutSeq(l.trails.attempts, id, e.attempts),
                        PutSeq(l.trails.reconciliations, id, e.reconciliations),
                        PutSeq(l.trails.history, id, e.history)))
  }

  function Moved(e: Entry, state: EffectState, evidence: Evidence): Entry
  {
    e.(record := e.record.(state := state), history := e.history + [EffectTransition(state, evidence)])
  }

  /** Rewrites the last attempt, if there is one. */
  function Amend(attempts: seq<Attempt>, response: Option<string>, source: Option<string>,
                 classification: Option<EffectState>): (r: seq<Attempt>)
    ensures |r| == |attempts|
  {
    if attempts == [] then attempts
    else
      var last := attempts[|attempts| - 1];
      attempts[|attempts| - 1 := Attempt(last.call,
        if response.Some? then response else last.response,
        if source.Some? then source else last.source,
        if classification.Some? then classification else last.classification)]
  }

  predicate DecisionFits(d: Decision, p: EffectProposal)
  {
    && d.brokerServiceId == Service(Effects)
    && Intent(d.request.requestId, d.request.activationId, d.request.objectiveId, d.request.capability,
              d.request.operation, d.request.target) == p.intent
  }

  predicate Grants(d: Decision)
  {
    d.allowed && d.code == AUTHORIZED
  }

  predicate CallFits(c: Call, p: EffectProposal)
  {
    && c.requestDigest == p.parametersDigest
    && c.providerId == p.provision.providerId
    && c.transportId != NoTransport
  }

  const MAX_RECONCILIATIONS: nat := 8

  datatype Move =
    | Reject(evidence: string)
    | Dispatch(call: Call, decision: Decision)
    | LoseTransport(response: string)
    | RecordResponse(response: string)
    | Observe(observation: Observation)
    | BeginReconciliation(call: Call)
    | Inconclusive(source: string, evidence: string)
    | Resolve(observation: Observation)

  /** The guards and updates of the operations that act on one effect. */
  function MoveEntry(e: Entry, m: Move): Result<Entry, EffectError>
  {
    var p := e.record.proposal;
    match m
    case Reject(evidence) =>
      if e.record.state != Reserved then Err(InvalidTransition)
      else Ok(Moved(e, Rejected, Reported(evidence)))
    case Dispatch(call, decision) =>
      if e.record.state != Reserved || !Grants(decision) || !DecisionFits(decision, p) then Err(AdmissionDenied)
      else if !CallFits(call, p) then Err(InvalidAttempt)
      else Ok(Moved(e.(attempts := e.attempts + [Attempt(call, None, None, None)]), Executing, DispatchPersisted))
    case LoseTransport(response) =>
      if e.record.state != Executing then Err(InvalidTransition)
      else Ok(Moved(e.(attempts := Amend(e.attempts, Some(response), Some("transport"), Some(OutcomeUnknown))),
                    OutcomeUnknown, Reported(response)))
    case RecordResponse(response) =>
      if e.record.state != Executing then Err(InvalidTransition)
      else if e.attempts == [] then Err(InvalidAttempt)
      else Ok(e.(attempts := Amend(e.attempts, Some(response), None, None)))
    case Observe(o) =>
      if !o.independent then Err(IndependentEvidenceRequired)
      else if e.record.state != Executing then Err(InvalidTransition)
      else
        var s := if o.succeeded then ObservedSucceeded else ObservedFailed;
        Ok(Moved(e.(attempts := Amend(e.attempts, None, Some(o.source), Some(s))), s, Reported(o.evidence)))
    case BeginReconciliation(call) =>
      if e.record.state != OutcomeUnknown && e.record.state != Reconciling then Err(InvalidTransition)
      else if !CallFits(call, p) || |e.reconciliations| >= MAX_RECONCILIATIONS then Err(InvalidAttempt)
      else Ok(Moved(e.(reconciliations := e.reconciliations + [Attempt(call, None, None, None)]),
                    Reconciling, ReconciliationDispatched))
    case Inconclusive(source, evidence) =>
      if e.record.state != Reconciling then Err(InvalidTransition)
      else if e.reconciliations == [] then Err(InvalidAttempt)
      else Ok(Moved(e.(reconciliations :=
                         Amend(e.reconciliations, Some(evidence), Some(source), Some(Reconciling))),
                    Reconciling, Reported(evidence)))
    case Resolve(o) =>
      if !o.independent then Err(IndependentEvidenceRequired)
      else if e.record.state != Reconciling then Err(InvalidTransition)
      else
        var s := if o.succeeded then ResolvedSucceeded else ResolvedFailed;
        Ok(Moved(e.(reconciliations := Amend(e.reconciliations, Some(o.evidence), Some(o.source), Some(s))),
                 s, Reported(o.evidence)))
  }

  /******* Reservation *******/

  /** `runtime_replay`: the same key with the same proposal, expiry aside. */
  function RuntimeReplay(l: Ledger, p: EffectProposal): Result<Option<EffectRecord>, EffectError>
  {
    if p.idempotencyKey !in l.byKey || l.byKey[p.idempotencyKey] !in l.effects then Ok(None)
    else
      var existing := l.effects[l.byKey[p.idempotencyKey]];
      if existing.proposal ==
         p.(provision := p.provision.(expiresAt := existing.proposal.provision.expiresAt))
      then Ok(Some(existing)) else Err(IdempotencyConflict)
  }

  predicate Compensates(r: EffectRecord, original: Text)
  {
    r.proposal.provision.compensatesEffectId == Some(original)
  }

  function CompensationPayload(p: EffectProposal, original: Text): Payload
  {
    Payload(p.intent.objectiveId, p.intent.capability, original, Some(original))
  }

  predicate CompensationAdmissible(l: Ledger, p: EffectProposal, original: Text)
  {
    && original in l.effects
    && var o := l.effects[original];
      && o.proposal.intent.objectiveId == p.intent.objectiveId
      && o.proposal.intent.activationId == p.intent.activationId
      && o.proposal.provision.compensatesEffectId.None?
      && Succeeded(o.state)
      && p.parametersDigest == PayloadDigest(Compensate, CompensationPayload(p, original))
      && forall id :: id in l.effects ==> !Compensates(l.effects[id], original)
  }

  predicate PlacedAt(r: EffectRecord, group: string, n: nat)
  {
    r.proposal.placement == Placement(Some(group), Some(n))
  }

  predicate InGroup(r: EffectRecord, group: string)
  {
    r.proposal.placement.orderingGroup == Some(group) && r.proposal.placement.orderingSequence.Some?
  }

  /** `max(sequences in the group, or 0) + 1`. */
  predicate IsNext(l: Ledger, group: string, n: nat)
  {
    && n >= 1
    && (forall id :: id in l.effects && InGroup(l.effects[id], group) ==>
          l.effects[id].proposal.placement.orderingSequence.value < n)
    && (n > 1 ==> exists id :: id in l.effects && PlacedAt(l.effects[id], group, n - 1))
  }

  function ProviderCheck(l: Ledger, p: EffectProposal, now: nat): Result<(), EffectError>
  {
    var v, b := p.provision, p.bounds;
    if v.providerId !in l.registry.providers then Err(ProviderMissing)
    else
      var provider := l.registry.providers[v.providerId];
      if Severity(v.consequenceClass) > Severity(provider.maxClass)
         || (Severity(v.consequenceClass) >= 2 && provider.reconciliation == NoReconciliation)
      then Err(ConsequenceUnsupported)
      else if v.consequenceClass == E3
              && (b.executionConstraintId.None?
                  || b.validFrom.None? || now < b.validFrom.value
                  || b.validUntil.None? || b.validUntil.value <= now
                  || !b.controllerAckRequired)
      then Err(ExecutionContractIncomplete)
      else if p.placement.orderingGroup.Some? && p.placement.orderingSequence.Some?
              && !IsNext(l, p.placement.orderingGroup.value, p.placement.orderingSequence.value)
      then Err(OrderingViolation)
      else Ok(())
  }

  /** The request kept for recovery is the decided one, issued by runtime. */
  function RecordedRequest(d: Decision): RuntimeAuthorityRequest
  {
    d.request.(schemaVersion := V2_0, callerServiceId := Service(Runtime))
  }

  function NewRecord(p: EffectProposal, d: Decision, forwarding: Forwarding, now: nat): EffectRecord
  {
    EffectRecord(EffectIdOf(p), p, Admission(d, now < p.provision.expiresAt), Reserved,
                 Some(RecordedRequest(d)), Some(forwarding))
  }

  /** The ledger with the record entered under its identity and its key. */
  function Entered(l: Ledger, r: EffectRecord): Ledger
  {
    var id := r.effectId;
    var entry := EffectTransition(Reserved, ByDecision(r.admission.decision));
    l.(effects := l.effects[id := r],
       byKey := l.byKey[r.proposal.idempotencyKey := id],
       trails := l.trails.(history := l.trails.history[id := Get(l.trails.history, id) + [entry]]))
  }

  /** What a call comes to before anything is written. */
  datatype Outcome = Refused(error: EffectError) | Answered(record: EffectRecord) | Changed(ledger: Ledger)

  function Reserve(l: Ledger, p: EffectProposal, d: Decision, forwarding: Forwarding, now: nat): Outcome
  {
    if !DecisionFits(d, p) || !Grants(d) || p.provision.expiresAt <= now then Refused(AdmissionDenied)
    else match RuntimeReplay(l, p)
      case Err(error) => Refused(error)
      case Ok(Some(existing)) => Answered(existing)
      case Ok(None) =>
        var original := p.provision.compensatesEffectId;
        if original.Some? && !CompensationAdmissible(l, p, original.value) then Refused(AdmissionDenied)
        else match ProviderCheck(l, p, now)
          case Err(error) => Refused(error)
          case Ok(_) =>
            Changed(Entered(l, NewRecord(p, d, forwarding, now)))
  }

  /******* Every operation *******/

  datatype Op =
    | ReserveRuntime(proposal: EffectProposal, decision: Decision, forwarding: Forwarding, now: nat)
    | MoveEffect(id: Text, move: Move)
    | RegisterProvider(provider: ProviderContract)
    | MarkGuardPending(objective: Text)
    | ClearGuardPending(objective: Text)

  function Apply(l: Ledger, op: Op): Outcome
  {
    match op
    case ReserveRuntime(p, d, forwarding, now) => Reserve(l, p, d, forwarding, now)
    case MoveEffect(id, m) =>
      if id !in l.effects then Refused(Missing(m))
      else
        var r := MoveEntry(EntryOf(l, id), m);
        if r.Err? then Refused(r.error) else Changed(Put(l, id, r.value))
    case RegisterProvider(provider) =>
      Changed(l.(registry := l.registry.(providers := l.registry.providers[provider.id := provider])))
    case MarkGuardPending(objective) =>
      Changed(l.(registry := l.registry.(pendingGuards := l.registry.pendingGuards + {objective})))
    case ClearGuardPending(objective) =>
      Changed(l.(registry := l.registry.(pendingGuards := l.registry.pendingGuards - {objective})))
  }

  /** Operations that look the state up first call an unknown effect an invalid
      transition; dependent evidence is refused before any lookup. */
  function Missing(m: Move): EffectError
  {
    match m
    case RecordResponse(_) => InvalidTransition
    case Inconclusive(_, _) => InvalidTransition
    case Observe(o) => if o.independent then EffectMissing else IndependentEvidenceRequired
    case Resolve(o) => if o.independent then EffectMissing else IndependentEvidenceRequired
    case _ => EffectMissing
  }

  /** `recover`: the effects still to be followed up. */
  function Recover(l: Ledger): set<Text>
  {
    set id | id in l.effects && !Terminal(l.effects[id].state)
  }

  /** `complete_objective`. */
  predicate ObjectiveComplete(l: Ledger, objective: Text)
  {
    forall id :: id in l.effects && l.effects[id].proposal.intent.objectiveId == objective ==>
      Terminal(l.effects[id].state)
  }

  /******* Memory and disk *******/

  /** Where a whole-file replacement can fail: before the rename the file is
      untouched, after it the file is new and only its durability is in doubt. */
  datatype Fault = NoFault | BeforeRename | AfterRename

  datatype Session = Session(mem: Ledger, available: bool, onDisk: bool, disk: Option<Ledger>)

  /** `commit_or_restore` of a new memory image. */
  function Persist(s: Session, next: Ledger, fault: Fault): (Session, Result<(), EffectError>)
  {
    if s.available && (!s.onDisk || fault == NoFault) then
      (s.(mem := next, disk := if s.onDisk then Some(next) else s.disk), Ok(()))
    else
      (s.(available := false, disk := if s.available && fault == AfterRename then Some(next) else s.disk),
       Err(Storage))
  }

  function Run(s: Session, op: Op, fault: Fault): (Session, Result<(), EffectError>)
  {
    match Apply(s.mem, op)
    case Refused(error) => (s, Err(error))
    case Answered(_) => (s, Ok(()))
    case Changed(next) => Persist(s, next, fault)
  }

  /** `open`: the file if there is one, and a ledger willing to write again. */
  function Reopen(s: Session): Session
  {
    s.(mem := if s.disk.Some? then s.disk.value else EmptyLedger, available := true)
  }

  /******* Restoring from canonical records *******/

  /** A canonical record as the state service returns it; `None` stands for one
      that does not parse. */
  datatype Snapshot = Snapshot(record: EffectRecord, attempts: seq<Attempt>, reconciliations: seq<Attempt>,
                               history: seq<EffectTransition>)

  function Cleared(l: Ledger): Ledger
  {
    l.(effects := map[], byKey := map[], trails := Trails(map[], map[], map[]))
  }

  function Insert(l: Ledger, s: Snapshot): Ledger
  {
    var id := s.record.effectId;
    l.(effects := l.effects[id := s.record],
       byKey := l.byKey[s.record.proposal.idempotencyKey := id],
       trails := Trails(l.trails.attempts[id := s.attempts],
                        l.trails.reconciliations[id := s.reconciliations],
                        l.trails.history[id := s.history]))
  }

  /** The cache after the first snapshots have been put in. */
  function Rebuilt(l: Ledger, snapshots: seq<Option<Snapshot>>): Ledger
    requires None !in snapshots
  {
    if snapshots == [] then Cleared(l)
    else
      assert forall s :: s in snapshots[..|snapshots| - 1] ==> s in snapshots;
      assert snapshots[|snapshots| - 1] in snapshots;
      Insert(Rebuilt(l, snapshots[..|snapshots| - 1]), snapshots[|snapshots| - 1].value)
  }

  function FirstBad(snapshots: seq<Option<Snapshot>>): (n: nat)
    ensures n <= |snapshots| && None !in snapshots[..n]
    ensures n < |snapshots| ==> snapshots[n].None?
  {
    if snapshots == [] || snapshots[0].None? then 0
    else
      var n := FirstBad(snapshots[1..]) + 1;
      assert snapshots[..n] == [snapshots[0]] + snapshots[1..][..n - 1];
      n
  }

  /** `restore_authoritative`: a snapshot that does not parse ends the call with
      the cache as far as it had been rebuilt. */
  function Restore(s: Session, snapshots: seq<Option<Snapshot>>, fault: Fault): (Session, Result<(), EffectError>)
  {
    var n := FirstBad(snapshots);
    var rebuilt := Rebuilt(s.mem, snapshots[..n]);
    if n < |snapshots| then (s.(mem := rebuilt), Err(Storage)) else Persist(s, rebuilt, fault)
  }

  /******* The ledger as the service holds it *******/

  class EffectLedger {
    var effects: map<Text, EffectRecord>
    var byKey: map<IdempotencyKey, Text>
    var providers: map<string, ProviderContract>
    var attempts: map<Text, seq<Attempt>>
    var reconciliations: map<Text, seq<Attempt>>
    var history: map<Text, seq<EffectTransition>>
    var pendingGuards: set<Text>
    var available: bool
    var disk: Option<Ledger>
    const onDisk: bool

    function Content(): Ledger
      reads this
    {
      Ledger(effects, byKey, Trails(attempts, reconciliations, history), Registry(providers, pendingGuards))
    }

    function State(): Session
      reads this
    {
      Session(Content(), available, onDisk, disk)
    }

    constructor (onDisk: bool, file: Option<Ledger>)
      ensures State() == Reopen(Session(EmptyLedger, true, onDisk, file))
    {
      var l := if file.Some? then file.value else EmptyLedger;
      effects, byKey := l.effects, l.byKey;
      attempts, reconciliations, history := l.trails.attempts, l.trails.reconciliations, l.trails.history;
      providers, pendingGuards := l.registry.providers, l.registry.pendingGuards;
      available, disk := true, file;
      this.onDisk := onDisk;
    }

    method Replace(l: Ledger)
      modifies this
      ensures Content() == l && available == old(available) && disk == old(disk)
    {
      effects, byKey := l.effects, l.byKey;
      attempts, reconciliations, history := l.trails.attempts, l.trails.reconciliations, l.trails.history;
      providers, pendingGuards := l.registry.providers, l.registry.pendingGuards;
    }

    /** Writes the present content, or goes back to the previous content and
        refuses every later write. */
    method CommitOrRestore(previous: Ledger, fault: Fault) returns (r: Result<(), EffectError>)
      modifies this
      ensures (State(), r) == Persist(old(State()).(mem := previous), old(Content()), fault)
    {
      if !available {
        r := Err(Storage);
      } else if !onDisk || fault == NoFault {
        if onDisk { disk := Some(Content()); }
        return Ok(());
      } else {
        if fault == AfterRename { disk := Some(Content()); }
        r := Err(Storage);
      }
      Replace(previous);
      available := false;
    }

    method Transition(id: Text, state: EffectState, evidence: Evidence)
      modifies this`history
      ensures history == old(history)[id := Get(old(history), id) + [EffectTransition(state, evidence)]]
    {
      history := history[id := Get(history, id) + [EffectTransition(state, evidence)]];
    }

    method RegisterProviderDurable(provider: ProviderContract, fault: Fault) returns (r: Result<(), EffectError>)
      modifies this
      ensures (State(), r) == Run(old(State()), RegisterProvider(provider), fault)
    {
      var previous := Content();
      providers := providers[provider.id := provider];
      r := CommitOrRestore(previous, fault);
    }

    method ReserveRuntime(p: EffectProposal, d: Decision, forwarding: Forwarding, now: nat, fault: Fault)
      returns (r: Result<EffectRecord, EffectError>)
      modifies this
      ensures State() == Run(old(State()), Op.ReserveRuntime(p, d, forwarding, now), fault).0
      ensures r.Err? ==> Run(old(State()), Op.ReserveRuntime(p, d, forwarding, now), fault).1 == Err(r.error)
      ensures r.Ok? ==> Run(old(State()), Op.ReserveRuntime(p, d, forwarding, now), fault).1.Ok?
      ensures r.Ok? ==>
                r.value == match Reserve(old(Content()), p, d, forwarding, now)
                           case Answered(existing) => existing
                           case _ => NewRecord(p, d, forwarding, now)
    {
      hide Persist, ProviderCheck, CompensationAdmissible, RuntimeReplay, DecisionFits, Grants;
      var previous := Content();
      if !DecisionFits(d, p) || !Grants(d) || p.provision.expiresAt <= now { return Err(AdmissionDenied); }
      var replay := RuntimeReplay(previous, p);
      if replay.Err? { return Err(replay.error); }
      if replay.value.Some? { return Ok(replay.value.value); }
      var original := p.provision.compensatesEffectId;
      if original.Some? && !CompensationAdmissible(previous, p, original.value) { return Err(AdmissionDenied); }
      var check := ProviderCheck(previous, p, now);
      if check.Err? { return Err(check.error); }
      var record := NewRecord(p, d, forwarding, now);
      byKey := byKey[p.idempotencyKey := record.effectId];
      effects := effects[record.effectId := record];
      Transition(record.effectId, Reserved, ByDecision(d));
      assert Content() == Entered(previous, record);
      var written := CommitOrRestore(previous, fault);
      r := if written.Ok? then Ok(record) else Err(written.error);
    }

    method RestoreAuthoritative(snapshots: seq<Option<Snapshot>>, fault: Fault) returns (r: Result<(), EffectError>)
      modifies this
      ensures (State(), r) == Restore(old(State()), snapshots, fault)
    {
      var previous := Content();
      effects, byKey, attempts, reconciliations, history := map[], map[], map[], map[], map[];
      for i := 0 to |snapshots|
        invariant i <= FirstBad(snapshots) && None !in snapshots[..i]
        invariant State() == old(State()).(mem := Rebuilt(previous, snapshots[..i]))
      {
        if snapshots[i].None? {
          return Err(Storage);
        }
        assert snapshots[..i + 1][..i] == snapshots[..i];
        var s := snapshots[i].value;
        byKey := byKey[s.record.proposal.idempotencyKey := s.record.effectId];
        attempts := attempts[s.record.effectId := s.attempts];
        reconciliations := reconciliations[s.record.effectId := s.reconciliations];
        history := history[s.record.effectId := s.history];
        effects := effects[s.record.effectId := s.record];
      }
      r := CommitOrRestore(previous, fault);
    }

    method RejectReserved(id: Text, evidence: string, fault: Fault) returns (r: Result<(), EffectError>)
      modifies this
      ensures (State(), r) == Run(old(State()), MoveEffect(id, Reject(evidence)), fault)
    {
      hide Persist;
      var previous := Content();
      if id !in effects { return Err(EffectMissing); }
      if effects[id].state != Reserved { return Err(InvalidTransition); }
      effects := effects[id := effects[id].(state := Rejected)];
      Transition(id, Rejected, Reported(evidence));
      assert Apply(previous, MoveEffect(id, Reject(evidence))) == Changed(Content());
      r := CommitOrRestore(previous, fault);
    }

    method DispatchRuntime(id: Text, call: Call, decision: Decision, fault: Fault)
      returns (r: Result<(), EffectError>)
      modifies this
      ensures (State(), r) == Run(old(State()), MoveEffect(id, Dispatch(call, decision)), fault)
    {
      hide Persist;
      var previous := Content();
      if id !in effects { return Err(EffectMissing); }
      var p := effects[id].proposal;
      if effects[id].state != Reserved || !Grants(decision) || !DecisionFits(decision, p) {
        return Err(AdmissionDenied);
      }
      if !CallFits(call, p) { return Err(InvalidAttempt); }
      effects := effects[id := effects[id].(state := Executing)];
      attempts := attempts[id := Get(attempts, id) + [Attempt(call, None, None, None)]];
      Transition(id, Executing, DispatchPersisted);
      assert Apply(previous, MoveEffect(id, Dispatch(call, decision))) == Changed(Content());
      r := CommitOrRestore(previous, fault);
    }

    method AmendAttempt(id: Text, response: Option<string>, source: Option<string>, classification: Option<EffectState>)
      modifies this`attempts
      ensures attempts == PutSeq(old(attempts), id, Amend(Get(old(attempts), id), response, source, classification))
    {
      var present := Get(attempts, id);
      if present != [] { attempts := attempts[id := Amend(present, response, source, classification)]; }
      else { assert attempts == PutSeq(attempts, id, present); }
    }

    method AmendReconciliation(id: Text, response: Option<string>, source: Option<string>,
                               classification: Option<EffectState>)
      modifies this`reconciliations
      ensures reconciliations ==
              PutSeq(old(reconciliations), id, Amend(Get(old(reconciliations), id), response, source, classification))
    {
      var present := Get(reconciliations, id);
      if present != [] { reconciliations := reconciliations[id := Amend(present, response, source, classification)]; }
    }

    method TransportLost(id: Text, response: string, fault: Fault) returns (r: Result<(), EffectError>)
      modifies this
      ensures (State(), r) == Run(old(State()), MoveEffect(id, LoseTransport(response)), fault)
    {
      hide Persist;
      var previous := Content();
      if id !in effects { return Err(EffectMissing); }
      if effects[id].state != Executing { return Err(InvalidTransition); }
      effects := effects[id := effects[id].(state := OutcomeUnknown)];
      AmendAttempt(id, Some(response), Some("transport"), Some(OutcomeUnknown));
      Transition(id, OutcomeUnknown, Reported(response));
      assert Apply(previous, MoveEffect(id, LoseTransport(response))) == Changed(Content());
      r := CommitOrRestore(previous, fault);
    }

    method RecordProviderResponse(id: Text, response: string, fault: Fault) returns (r: Result<(), EffectError>)
      modifies this
      ensures (State(), r) == Run(old(State()), MoveEffect(id, RecordResponse(response)), fault)
    {
      hide Persist;
      var previous := Content();
      if id !in effects || effects[id].state != Executing { return Err(InvalidTransition); }
      if Get(attempts, id) == [] { return Err(InvalidAttempt); }
      AmendAttempt(id, Some(response), None, None);
      assert effects[id := effects[id]] == effects;
      assert Apply(previous, MoveEffect(id, RecordResponse(response))) == Changed(Content());
      r := CommitOrRestore(previous, fault);
    }

    method Observe(id: Text, o: Observation, fault: Fault) returns (r: Result<(), EffectError>)
      modifies this
      ensures (State(), r) == Run(old(State()), MoveEffect(id, Move.Observe(o)), fault)
    {
      hide Persist;
      var previous := Content();
      if !o.independent { return Err(IndependentEvidenceRequired); }
      if id !in effects { return Err(EffectMissing); }
      if effects[id].state != Executing { return Err(InvalidTransition); }
      var s := if o.succeeded then ObservedSucceeded else ObservedFailed;
      effects := effects[id := effects[id].(state := s)];
      AmendAttempt(id, None, Some(o.source), Some(s));
      Transition(id, s, Reported(o.evidence));
      assert Apply(previous, MoveEffect(id, Move.Observe(o))) == Changed(Content());
      r := CommitOrRestore(previous, fault);
    }

    method BeginReconciliation(id: Text, call: Call, fault: Fault) returns (r: Result<(), EffectError>)
      modifies this
      ensures (State(), r) == Run(old(State()), MoveEffect(id, Move.BeginReconciliation(call)), fault)
    {
      hide Persist;
      var previous := Content();
      if id !in effects { return Err(EffectMissing); }
      if effects[id].state != OutcomeUnknown && effects[id].state != Reconciling { return Err(InvalidTransition); }
      if !CallFits(call, effects[id].proposal) { return Err(InvalidAttempt); }
      if |Get(reconciliations, id)| >= MAX_RECONCILIATIONS { return Err(InvalidAttempt); }
      effects := effects[id := effects[id].(state := Reconciling)];
      reconciliations := reconciliations[id := Get(reconciliations, id) + [Attempt(call, None, None, None)]];
      Transition(id, Reconciling, ReconciliationDispatched);
      assert Apply(previous, MoveEffect(id, Move.BeginReconciliation(call))) == Changed(Content());
      r := CommitOrRestore(previous, fault);
    }

    method ReconciliationInconclusive(id: Text, source: string, evidence: string, fault: Fault)
      returns (r: Result<(), EffectError>)
      modifies this
      ensures (State(), r) == Run(old(State()), MoveEffect(id, Inconclusive(source, evidence)), fault)
    {
      hide Persist;
      var previous := Content();
      if id !in effects || effects[id].state != Reconciling { return Err(InvalidTransition); }
      if Get(reconciliations, id) == [] { return Err(InvalidAttempt); }
      AmendReconciliation(id, Some(evidence), Some(source), Some(Reconciling));
      Transition(id, Reconciling, Reported(evidence));
      assert effects[id := effects[id]] == effects;
      assert Apply(previous, MoveEffect(id, Inconclusive(source, evidence))) == Changed(Content());
      r := CommitOrRestore(previous, fault);
    }

    method Resolve(id: Text, o: Observation, fault: Fault) returns (r: Result<(), EffectError>)
      modifies this
      ensures (State(), r) == Run(old(State()), MoveEffect(id, Move.Resolve(o)), fault)
    {
      hide Persist;
      var previous := Content();
      if !o.independent { return Err(IndependentEvidenceRequired); }
      if id !in effects { return Err(EffectMissing); }
      if effects[id].state != Reconciling { return Err(InvalidTransition); }
      var s := if o.succeeded then ResolvedSucceeded else ResolvedFailed;
      effects := effects[id := effects[id].(state := s)];
      AmendReconciliation(id, Some(o.evidence), Some(o.source), Some(s));
      Transition(id, s, Reported(o.evidence));
      assert Apply(previous, MoveEffect(id, Move.Resolve(o))) == Changed(Content());
      r := CommitOrRestore(previous, fault);
    }

    method MarkGuardPending(objective: Text, fault: Fault) returns (r: Result<(), EffectError>)
      modifies this
      ensures (State(), r) == Run(old(State()), Op.MarkGuardPending(objective), fault)
    {
      var previous := Content();
      pendingGuards := pendingGuards + {objective};
      r := CommitOrRestore(previous, fault);
    }

    method ClearGuardPending(objective: Text, fault: Fault) returns (r: Result<(), EffectError>)
      modifies this
      ensures (State(), r) == Run(old(State()), Op.ClearGuardPending(objective), fault)
    {
      var previous := Content();
      pendingGuards := pendingGuards - {objective};
      r := CommitOrRestore(previous, fault);
    }
  }
}
