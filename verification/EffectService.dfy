/** The effect service: its submit loop and its reconciliation loop as steps
    between durable writes, together with the authority, the canonical store and
    the provider.  A crash may fall between any two steps, answers may be lost,
    and a command once sent may reach the provider late, again, or in part. */
module EffectService {
  import opened Contracts
  import opened EffectLedger
  import opened LedgerInvariant
  import opened LedgerRestore
  import A = AuthorityStore
  import R = AuthorityRuns
  import G = Grants
  import P = OfflineProvider

  /******* Requests *******/

  datatype Terms = Terms(
    providerId: string,
    parametersDigest: ParametersDigest,
    idempotencyKey: IdempotencyKey,
    constraintId: string,
    validFrom: nat,
    validUntil: nat)

  datatype EffectRequest = EffectRequest(
    schemaVersion: Schema,
    callerServiceId: Identity,
    commandId: string,
    objectiveId: Text,
    authority: RuntimeAuthorityRequest,
    terms: Terms)

  const PROVIDER := "habitat-offline-provider"
  const PROPOSAL_EXPIRY := 4_102_444_800

  predicate IsCommit(r: EffectRequest)
  {
    && r.authority.operation == Commit
    && r.authority.target == r.objectiveId
    && r.terms.idempotencyKey == EffectKey(r.objectiveId)
  }

  predicate IsCompensation(r: EffectRequest)
  {
    && r.authority.operation == Compensate
    && IsEffectId(r.authority.target)
    && r.terms.idempotencyKey == CompensationKey(r.authority.target)
  }

  /** `runtime_effect_request_valid`, for the one caller allowed to submit. */
  predicate RequestValid(r: EffectRequest)
  {
    && r.schemaVersion == V2_0
    && r.callerServiceId == Service(Runtime) == r.authority.callerServiceId
    && r.commandId != ""
    && IsObjectiveId(r.objectiveId)
    && r.terms.providerId == PROVIDER
    && r.authority.schemaVersion == V2_0
    && r.authority.requestId == r.commandId
    && r.authority.objectiveId == r.objectiveId
    && r.authority.capability == RuntimeEffect
    && r.terms.constraintId == "constraint:" + r.commandId
    && r.terms.validFrom == r.authority.requestedAt
    && r.terms.validUntil == SaturatingAdd(r.terms.validFrom, 30)
    && r.terms.validFrom < r.terms.validUntil
    && (IsCommit(r) || IsCompensation(r))
  }

  function IntentOf(rq: RuntimeAuthorityRequest): Intent
  {
    Intent(rq.requestId, rq.activationId, rq.objectiveId, rq.capability, rq.operation, rq.target)
  }

  function ProposalOf(r: EffectRequest): EffectProposal
  {
    EffectProposal(
      Intent(r.commandId, r.authority.activationId, r.objectiveId, r.authority.capability, r.authority.operation,
             r.authority.target),
      r.terms.parametersDigest, r.terms.idempotencyKey,
      Provision(E2, PROPOSAL_EXPIRY, r.terms.providerId,
                if r.authority.operation == Compensate then Some(r.authority.target) else None),
      Bounds(Some(r.terms.constraintId), Some(r.terms.validFrom), Some(r.terms.validUntil), true),
      Placement(None, None))
  }

  /** `admit_runtime_effect`. */
  predicate Admits(r: EffectRequest, d: Decision)
  {
    && RequestValid(r)
    && d.request.schemaVersion == V2_0
    && Grants(d)
    && d.brokerServiceId == Service(Effects)
    && d.request.objectiveId == r.objectiveId
    && ((d.request.operation == Commit && d.request.target == r.objectiveId)
        || (d.request.operation == Compensate && IsEffectId(d.request.target)))
    && d.request.capability == RuntimeEffect
    && d.request.requestId == r.commandId
  }

  function ForwardingOf(r: EffectRequest): Forwarding
  {
    Forwarding(r.terms.providerId, r.terms.parametersDigest, r.terms.idempotencyKey)
  }

  /** `execute_provider`: the command is a function of the record alone. */
  function CommandFor(r: EffectRecord): P.Command
  {
    var p := r.proposal;
    P.Execute(r.effectId, p.intent.commandId, p.idempotencyKey, p.parametersDigest, p.intent.operation,
              Payload(p.intent.objectiveId, p.intent.capability, p.intent.target, p.provision.compensatesEffectId))
  }

  function CallFor(r: EffectRecord, at: nat): Call
  {
    Call(r.proposal.parametersDigest, at, r.proposal.provision.providerId,
         OfflineTransport(r.effectId, r.proposal.idempotencyKey))
  }

  /******* The system *******/

  datatype After = Stop | AfterReserve(request: EffectRequest) | AfterDispatch | AfterResponse(o: P.Observation)

  /** Where the service stands. */
  datatype Point =
    | Idle
    | AwaitPrepare(request: EffectRequest)
    | AwaitReserve(request: EffectRequest, decision: Decision)
    | Checkpointing(id: Text, after: After)
    | Admitted(id: Text, rq: RuntimeAuthorityRequest)
    | AwaitStatus(id: Text)
    | AwaitAbort(id: Text)
    | Rejecting(id: Text)
    | Decided(id: Text, decision: Decision)
    | Launching(id: Text)
    | Awaiting(id: Text)
    | Answering(id: Text, o: P.Observation)
    | Concluding(id: Text, o: P.Observation)
    | Probing(id: Text)
    | Classifying(id: Text, seen: Option<P.Observation>)

  /** `durable` holds, per effect, the canonical record of its last checkpoint;
      its key index is what restoring those records derives. */
  datatype System = System(
    authority: A.Store,
    ledger: Ledger,
    durable: Ledger,
    files: P.Files,
    sent: set<P.Command>,
    point: Point)

  datatype Step =
    | AuthorityActs(event: R.Event)
    | ProviderActs(attempt: P.Event)
    | Restart(order: seq<Text>)
    | Submit(request: EffectRequest, now: nat, preconditionHolds: bool)
    | Hear(event: R.Event)
    | GiveUp
    | Reserve(now: nat)
    | Checkpoint
    | Expire(now: nat)
    | Reject(evidence: string)
    | Dispatch(at: nat)
    | Send
    | Lose
    | See(o: P.Observation)
    | RecordResponse(response: string)
    | Conclude(evidence: string)
    | FollowUp(id: Text)
    | LearnRejected
    | Probe(at: nat, seen: Option<P.Observation>)
    | Classify(source: string, evidence: string, verdict: Option<bool>)
    | Guard(objective: Text, ready: bool)

  /** The decision a service call to authority came back with. */
  function Heard(s: System, e: R.Event): Option<Decision>
    requires R.Enabled(s.authority, e)
  {
    R.Answer(s.authority, e)
  }

  function RequestOf(l: Ledger, id: Text): Option<RuntimeAuthorityRequest>
  {
    if id in l.effects then l.effects[id].authorityRequest else None
  }

  /** The authority request the service is waiting on at this point. */
  predicate Asks(s: System, e: R.Event)
  {
    match s.point
    case AwaitPrepare(r) => e.Prepare? && e.rq == r.authority
    case Admitted(id, rq) => e.CommitEffect? && e.rq == rq && e.effectId == id
    case AwaitStatus(id) => e.Status? && RequestOf(s.ledger, id) == Some(e.rq) && e.effectId == id
    case AwaitAbort(id) => e.Abort? && RequestOf(s.ledger, id) == Some(e.rq)
    case _ => false
  }

  predicate StateIs(l: Ledger, id: Text, states: set<EffectState>)
  {
    id in l.effects && l.effects[id].state in states
  }

  predicate Observed(s: System, id: Text, o: P.Observation)
  {
    id in s.ledger.effects && P.Observe(s.files, id, s.ledger.effects[id].proposal.parametersDigest) == Ok(o)
  }

  /** A checkpoint is refused over a terminal record. */
  predicate CheckpointAllowed(s: System, id: Text)
  {
    && id in s.ledger.effects
    && (id in s.durable.effects && s.durable.effects[id] != s.ledger.effects[id] ==>
          !Terminal(s.durable.effects[id].state))
  }

  ghost predicate Enabled(s: System, t: Step)
  {
    match t
    case AuthorityActs(e) => R.Enabled(s.authority, e)
    case ProviderActs(e) => e.command in s.sent
    case Restart(order) => NoRepeats(order) && forall id :: id in s.durable.effects <==> id in order
    case Submit(_, _, _) => s.point.Idle?
    case Hear(e) => R.Enabled(s.authority, e) && Asks(s, e)
    case GiveUp => s.point.AwaitPrepare? || s.point.AwaitReserve? || s.point.Admitted? || s.point.AwaitStatus?
                   || s.point.AwaitAbort? || s.point.Decided?
    case Reserve(_) => s.point.AwaitReserve?
    case Checkpoint => s.point.Checkpointing? && CheckpointAllowed(s, s.point.id)
    case Expire(now) => s.point.Admitted? && Expired(s.ledger, s.point.id, now)
    case Reject(_) => s.point.Rejecting?
    case Dispatch(_) => s.point.Decided?
    case Send => (s.point.Launching? || s.point.Probing?) && s.point.id in s.ledger.effects
    case Lose => s.point.Launching? || s.point.Awaiting?
    case See(o) => (s.point.Launching? || s.point.Awaiting?) && Observed(s, s.point.id, o)
    case RecordResponse(_) => s.point.Answering?
    case Conclude(_) => s.point.Concluding?
    case FollowUp(id) => s.point.Idle? && id in Recover(s.ledger)
    case LearnRejected => s.point.AwaitStatus?
    case Probe(_, seen) => s.point.Probing? && (seen.Some? ==> Observed(s, s.point.id, seen.value))
    case Classify(_, _, verdict) => s.point.Classifying? && (verdict.Some? ==> s.point.seen.Some?)
    case Guard(_, _) => s.point.Idle?
  }

  predicate NoRepeats(order: seq<Text>)
  {
    forall i, j :: 0 <= i < j < |order| ==> order[i] != order[j]
  }

  predicate Expired(l: Ledger, id: Text, now: nat)
  {
    id in l.effects && l.effects[id].proposal.bounds.validUntil.Some? && l.effects[id].proposal.bounds.validUntil.value <= now
  }

  /** A ledger operation and where it leads; a refusal ends the exchange. */
  function Applied(s: System, op: Op, next: Point): System
  {
    match Apply(s.ledger, op)
    case Changed(l) => s.(ledger := l, point := next)
    case _ => s.(point := Idle)
  }

  function Snapshots(l: Ledger, order: seq<Text>): seq<Option<Snapshot>>
  {
    seq(|order|, i requires 0 <= i < |order| => if order[i] in l.effects then Some(SnapshotOf(l, order[i])) else None)
  }

  const OfflineContract := ProviderContract(PROVIDER, IdempotencyMode, E2)

  /** A new process: an empty cache, the canonical records, the provider. */
  function Restarted(durable: Ledger, order: seq<Text>): Ledger
  {
    var blank := Session(EmptyLedger, true, false, None);
    Run(Restore(blank, Snapshots(durable, order), NoFault).0, RegisterProvider(OfflineContract), NoFault).0.mem
  }

  /** `runtime_replay` and the time window decide whether PREPARE is sent. */
  function Submitted(s: System, r: EffectRequest, now: nat, preconditionHolds: bool): Point
  {
    if !RequestValid(r) then Idle
    else
      var replay := RuntimeReplay(s.ledger, ProposalOf(r));
      if replay.Err? || (replay.value.Some? && Terminal(replay.value.value.state)) then Idle
      else if now < r.terms.validFrom || r.terms.validUntil <= now || !preconditionHolds then Idle
      else AwaitPrepare(r)
  }

  function AfterAnswer(s: System, e: R.Event, d: Decision): Point
  {
    match s.point
    case AwaitPrepare(r) => if Admits(r, d) then AwaitReserve(r, d) else Idle
    case Admitted(id, _) => Decided(id, d)
    case AwaitStatus(id) =>
      if d.code == PREPARED && e.Status? then
        if Expired(s.ledger, id, e.now) then AwaitAbort(id) else Admitted(id, e.rq)
      else if Grants(d) then Decided(id, d) else Idle
    case AwaitAbort(id) => if d.code == ABORTED then Rejecting(id) else Idle
    case other => other
  }

  function Reserved(s: System, r: EffectRequest, d: Decision, now: nat): System
  {
    var p := ProposalOf(r);
    match Apply(s.ledger, ReserveRuntime(p, d, ForwardingOf(r), now))
    case Refused(_) => s.(point := Idle)
    case Answered(existing) => s.(point := Checkpointing(existing.effectId, AfterReserve(r)))
    case Changed(l) => s.(ledger := l, point := Checkpointing(EffectIdOf(p), AfterReserve(r)))
  }

  function Continue(s: System, id: Text, after: After): Point
  {
    match after
    case Stop => Idle
    case AfterReserve(r) => if StateIs(s.ledger, id, {EffectState.Reserved}) then Admitted(id, r.authority) else Idle
    case AfterDispatch => Launching(id)
    case AfterResponse(o) => Concluding(id, o)
  }

  function Checkpointed(s: System, id: Text): Ledger
    requires id in s.ledger.effects
  {
    if id in s.durable.effects && s.durable.effects[id] == s.ledger.effects[id] then s.durable
    else Insert(s.durable, SnapshotOf(s.ledger, id))
  }

  function FollowedUp(l: Ledger, id: Text): Point
  {
    if StateIs(l, id, {EffectState.Reserved}) && RequestOf(l, id).Some? then AwaitStatus(id)
    else if StateIs(l, id, {Executing}) then Launching(id)
    else if StateIs(l, id, {OutcomeUnknown, Reconciling}) && |Get(l.trails.reconciliations, id)| < MAX_RECONCILIATIONS
    then Probing(id)
    else Idle
  }

  function Dispatched(s: System, id: Text, d: Decision, at: nat): System
  {
    if id !in s.ledger.effects then s.(point := Idle)
    else Applied(s, MoveEffect(id, Move.Dispatch(CallFor(s.ledger.effects[id], at), d)), Checkpointing(id, AfterDispatch))
  }

  function Probed(s: System, id: Text, at: nat, seen: Option<P.Observation>): System
  {
    if id !in s.ledger.effects then s.(point := Idle)
    else Applied(s, MoveEffect(id, BeginReconciliation(CallFor(s.ledger.effects[id], at))), Classifying(id, seen))
  }

  function Verdict(source: string, evidence: string, verdict: Option<bool>): (m: Move)
    ensures m.Inconclusive? || (m.Resolve? && m.observation.independent && verdict.Some?)
  {
    if verdict.Some? then Resolve(Observation(source, evidence, verdict.value, true)) else Inconclusive(source, evidence)
  }

  function Confirmed(evidence: string): Move
  {
    Observe(Observation("habitat-execution-observe+state-transition", evidence, true, true))
  }

  function Next(s: System, t: Step): System
    requires Enabled(s, t)
  {
    match t
    case AuthorityActs(e) => s.(authority := R.Step(s.authority, e))
    case ProviderActs(e) => s.(files := P.Next(s.files, e))
    case Restart(order) => s.(ledger := Restarted(s.durable, order), point := Idle)
    case Submit(r, now, holds) => s.(point := Submitted(s, r, now, holds))
    case Hear(e) =>
      var d := Heard(s, e);
      s.(authority := R.Step(s.authority, e), point := if d.Some? then AfterAnswer(s, e, d.value) else Idle)
    case GiveUp => s.(point := Idle)
    case Reserve(now) => Reserved(s, s.point.request, s.point.decision, now)
    case Checkpoint => s.(durable := Checkpointed(s, s.point.id), point := Continue(s, s.point.id, s.point.after))
    case Expire(_) => s.(point := Rejecting(s.point.id))
    case Reject(evidence) => Applied(s, MoveEffect(s.point.id, Move.Reject(evidence)), Checkpointing(s.point.id, Stop))
    case Dispatch(at) => Dispatched(s, s.point.id, s.point.decision, at)
    case Send =>
      s.(sent := s.sent + {CommandFor(s.ledger.effects[s.point.id])},
         point := if s.point.Launching? then Awaiting(s.point.id) else s.point)
    case Lose => Applied(s, MoveEffect(s.point.id, LoseTransport("provider response unavailable")), Checkpointing(s.point.id, Stop))
    case See(o) => s.(point := Answering(s.point.id, o))
    case RecordResponse(response) =>
      Applied(s, MoveEffect(s.point.id, Move.RecordResponse(response)), Checkpointing(s.point.id, AfterResponse(s.point.o)))
    case Conclude(evidence) => Applied(s, MoveEffect(s.point.id, Confirmed(evidence)), Checkpointing(s.point.id, Stop))
    case FollowUp(id) => s.(point := FollowedUp(s.ledger, id))
    case LearnRejected => s.(point := Rejecting(s.point.id))
    case Probe(at, seen) => Probed(s, s.point.id, at, seen)
    case Classify(source, evidence, verdict) => Applied(s, MoveEffect(s.point.id, Verdict(source, evidence, verdict)), Checkpointing(s.point.id, Stop))
    case Guard(objective, ready) =>
      Applied(s, if ready then ClearGuardPending(objective) else MarkGuardPending(objective), Idle)
  }

  ghost predicate IsRun(states: seq<System>, steps: seq<Step>)
  {
    && |states| == |steps| + 1
    && forall i :: 0 <= i < |steps| ==> Enabled(states[i], steps[i]) && states[i + 1] == Next(states[i], steps[i])
  }
}
