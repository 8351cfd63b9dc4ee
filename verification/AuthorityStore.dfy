/** The runtime authority store: quota charged along delegation chains and the
    two-phase PREPARE / COMMIT / ABORT / STATUS protocol, with revocation epochs.
    The pure steps say what one durable request does; the class does it field
    by field and is proved to agree. */
module AuthorityStore {
  import opened Contracts
  import opened Grants

  datatype Reservation = Reservation(
    requestDigest: RequestDigest,
    chain: seq<string>,
    revocationEpoch: nat,
    configurationDigest: ConfigurationDigest,
    stateVersion: Identity,
    preparedAt: nat,
    effectId: Option<Text>,
    committed: bool)

  datatype StoredDecision = StoredDecision(requestDigest: RequestDigest, decision: Decision)

  datatype AdminOperation = RevokeGrant | RotateState | OtherAdmin

  datatype AdminRequest = AdminRequest(
    schemaVersion: Schema,
    operation: AdminOperation,
    requestId: string,
    callerServiceId: Identity,
    grantId: Option<string>,
    stateVersion: Option<Identity>)

  /** `runtime_admin_digest`: every field but the approval it refers to. */
  datatype AdminDigest = AdminDigest(request: AdminRequest)

  datatype Approval = Approval(
    targetRequestId: string,
    requestDigest: AdminDigest,
    approverServiceId: Identity,
    usedBy: Option<string>)

  datatype Configuration = Configuration(
    grants: GrantTable,
    stateVersion: Identity,
    digest: ConfigurationDigest,
    history: set<Identity>)

  datatype Revocation = Revocation(revoked: set<string>, epoch: nat)

  datatype Quota = Quota(usage: map<string, nat>, reservations: map<string, seq<string>>)

  datatype DecisionLog = DecisionLog(decisions: seq<Decision>, byRequest: map<string, StoredDecision>)

  datatype Administration = Administration(approvals: map<string, Approval>, results: map<string, AdminDigest>)

  /** The durable content of the store. */
  datatype Store = Store(
    config: Configuration,
    revocation: Revocation,
    quota: Quota,
    effects: map<string, Reservation>,
    log: DecisionLog,
    admin: Administration)

  function Usage(usage: map<string, nat>, id: string): nat
  {
    if id in usage then usage[id] else 0
  }

  /** One more unit of use for every member of the chain. */
  function ChargeAll(usage: map<string, nat>, chain: seq<string>): map<string, nat>
  {
    map id | id in usage.Keys + (set member | member in chain) ::
      Usage(usage, id) + if id in chain then 1 else 0
  }

  /** Reservations that are prepared and not yet committed and whose chain
      contains the grant. */
  function PreparedKeys(reservations: map<string, Reservation>, id: string): set<string>
  {
    set k | k in reservations && !reservations[k].committed && id in reservations[k].chain
  }

  function Prepared(reservations: map<string, Reservation>, id: string): nat
  {
    |PreparedKeys(reservations, id)|
  }

  predicate QuotaLeft(s: Store, chain: seq<string>)
    requires forall i :: 0 <= i < |chain| ==> chain[i] in s.config.grants
  {
    forall i :: 0 <= i < |chain| ==> Usage(s.quota.usage, chain[i]) < s.config.grants[chain[i]].quota
  }

  predicate CapacityAvailable(s: Store, chain: seq<string>)
    requires forall i :: 0 <= i < |chain| ==> chain[i] in s.config.grants
  {
    forall i :: 0 <= i < |chain| ==>
      Usage(s.quota.usage, chain[i]) + Prepared(s.effects, chain[i]) < s.config.grants[chain[i]].quota
  }

  function Refuse(d: Decision): Decision
  {
    d.(allowed := false, code := UNAUTHORIZED, grantId := None)
  }

  /** `enrich_decision`. */
  function Enrich(s: Store, d: Decision): Decision
    requires ValidTable(s.config.grants)
  {
    d.(configurationDigest := s.config.digest,
       grantChain := if d.grantId.Some? then Chain(s.config.grants, d.grantId.value) else [])
  }

  function Logged(s: Store, d: Decision): (Store, Decision)
    requires ValidTable(s.config.grants)
  {
    (s.(log := s.log.(decisions := s.log.decisions + [Enrich(s, d)])), Enrich(s, d))
  }

  const BROKER := Service(Effects)

  function Conflict(rq: RuntimeAuthorityRequest, broker: Identity, now: nat, phase: Phase): Decision
  {
    Judge(rq, broker, now, None, 0, phase, Unconfigured).(code := REQUEST_ID_CONFLICT)
  }

  function Judged(s: Store, rq: RuntimeAuthorityRequest, broker: Identity, now: nat, choice: Option<string>,
                  phase: Phase): Decision
  {
    Judge(rq, broker, now, choice, s.revocation.epoch, phase, Unconfigured)
  }

  lemma ChosenChainIsKnown(m: GrantTable, rq: RuntimeAuthorityRequest, now: nat, choice: Option<string>)
    requires ValidTable(m) && IsChoice(m, rq, now, choice)
    ensures choice.Some? ==> forall i :: 0 <= i < |Chain(m, choice.value)| ==> Chain(m, choice.value)[i] in m
  {
    if choice.Some? { ChainClimbs(m, choice.value); }
  }

  /******* One durable request each *******/

  /** The chain EVALUATE may charge for this request, when it may answer at all. */
  predicate Evaluable(s: Store, rq: RuntimeAuthorityRequest, now: nat, choice: Option<string>)
    requires ValidTable(s.config.grants) && IsChoice(s.config.grants, rq, now, choice) && choice.Some?
  {
    ChosenChainIsKnown(s.config.grants, rq, now, choice);
    var chain := Chain(s.config.grants, choice.value);
    && !AnyRevoked(s.revocation.revoked, chain)
    && rq.stateVersion == s.config.stateVersion
    && (if rq.requestId in s.quota.reservations then s.quota.reservations[rq.requestId] == chain
        else QuotaLeft(s, chain))
  }

  /** Whether the chosen chain may answer, and the store with its quota reserved. */
  function ReserveQuota(s: Store, rq: RuntimeAuthorityRequest, now: nat, choice: Option<string>): (Store, bool)
    requires ValidTable(s.config.grants) && IsChoice(s.config.grants, rq, now, choice)
  {
    if choice.None? || !Evaluable(s, rq, now, choice) then (s, false)
    else if rq.requestId in s.quota.reservations then (s, true)
    else
      var chain := Chain(s.config.grants, choice.value);
      (s.(quota := Quota(ChargeAll(s.quota.usage, chain), s.quota.reservations[rq.requestId := chain])), true)
  }

  function EvaluateStep(s: Store, rq: RuntimeAuthorityRequest, now: nat, choice: Option<string>): (Store, Decision)
    requires ValidTable(s.config.grants) && IsChoice(s.config.grants, rq, now, choice)
  {
    var digest := RequestDigest(rq);
    var id := rq.requestId;
    if id in s.log.byRequest && s.log.byRequest[id].requestDigest != digest then
      (s, Conflict(rq, rq.callerServiceId, now, EVALUATE))
    else
      var base := Judged(s, rq, rq.callerServiceId, now, choice, EVALUATE);
      var (s', ok) := ReserveQuota(s, rq, now, choice);
      var d := Enrich(s, if ok then base else Refuse(base));
      (s'.(log := DecisionLog(s.log.decisions + [d], s.log.byRequest[id := StoredDecision(digest, d)])), d)
  }

  function NewReservation(s: Store, rq: RuntimeAuthorityRequest, now: nat, chain: seq<string>): Reservation
  {
    Reservation(RequestDigest(rq), chain, s.revocation.epoch, s.config.digest, s.config.stateVersion, now, None, false)
  }

  predicate Preparable(s: Store, rq: RuntimeAuthorityRequest, now: nat, choice: Option<string>)
    requires ValidTable(s.config.grants) && IsChoice(s.config.grants, rq, now, choice) && choice.Some?
  {
    ChosenChainIsKnown(s.config.grants, rq, now, choice);
    var chain := Chain(s.config.grants, choice.value);
    && !AnyRevoked(s.revocation.revoked, chain)
    && rq.stateVersion == s.config.stateVersion
    && (rq.requestId in s.effects || CapacityAvailable(s, chain))
  }

  function PrepareStep(s: Store, rq: RuntimeAuthorityRequest, now: nat, choice: Option<string>): (Store, Decision)
    requires ValidTable(s.config.grants) && IsChoice(s.config.grants, rq, now, choice)
  {
    var id := rq.requestId;
    if id in s.effects && s.effects[id].requestDigest != RequestDigest(rq) then
      Logged(s, Conflict(rq, BROKER, now, PREPARE))
    else
      var base := Judged(s, rq, BROKER, now, choice, PREPARE);
      if choice.None? || !Preparable(s, rq, now, choice) then Logged(s, Refuse(base))
      else if id in s.effects then Logged(s, base)
      else
        var r := NewReservation(s, rq, now, Chain(s.config.grants, choice.value));
        Logged(s.(effects := s.effects[id := r]), base)
  }

  /** The conjunction COMMIT checks before it binds a reservation. */
  predicate Committable(s: Store, rq: RuntimeAuthorityRequest, effectId: Text, choice: Option<string>)
    requires ValidTable(s.config.grants)
  {
    && rq.requestId in s.effects
    && var r := s.effects[rq.requestId];
      && r.requestDigest == RequestDigest(rq)
      && IsEffectId(effectId)
      && (r.effectId.Some? ==> r.effectId.value == effectId)
      && choice.Some?
      && !AnyRevoked(s.revocation.revoked, Chain(s.config.grants, choice.value))
      && Chain(s.config.grants, choice.value) == r.chain
      && r.revocationEpoch == s.revocation.epoch
      && r.configurationDigest == s.config.digest
      && r.stateVersion == s.config.stateVersion
      && rq.stateVersion == s.config.stateVersion
  }

  function CommitStep(s: Store, rq: RuntimeAuthorityRequest, effectId: Text, now: nat, choice: Option<string>):
    (Store, Decision)
    requires ValidTable(s.config.grants) && IsChoice(s.config.grants, rq, now, choice)
  {
    var base := Judged(s, rq, BROKER, now, choice, COMMIT);
    if !Committable(s, rq, effectId, choice) then Logged(s, Refuse(base))
    else
      var r := s.effects[rq.requestId];
      var s' :=
        if r.committed then s
        else s.(quota := s.quota.(usage := ChargeAll(s.quota.usage, r.chain)),
                effects := s.effects[rq.requestId := r.(effectId := Some(effectId), committed := true)]);
      Logged(s', base)
  }

  function AbortStep(s: Store, rq: RuntimeAuthorityRequest, choice: Option<string>): (Store, Decision)
    requires ValidTable(s.config.grants) && IsChoice(s.config.grants, rq, rq.requestedAt, choice)
  {
    var id := rq.requestId;
    var base := Judged(s, rq, BROKER, rq.requestedAt, choice, ABORT);
    if id in s.effects
       && (s.effects[id].requestDigest != RequestDigest(rq) || s.effects[id].committed)
    then Logged(s, Refuse(base))
    else Logged(s.(effects := s.effects - {id}), base.(allowed := true, code := ABORTED))
  }

  /** STATUS answers AUTHORIZED only for an exact, durable, still-current COMMIT. */
  predicate CurrentCommit(s: Store, rq: RuntimeAuthorityRequest, effectId: Text)
  {
    && rq.requestId in s.effects
    && var r := s.effects[rq.requestId];
      && r.requestDigest == RequestDigest(rq)
      && r.effectId == Some(effectId)
      && r.committed
      && r.revocationEpoch == s.revocation.epoch
      && r.configurationDigest == s.config.digest
      && r.stateVersion == s.config.stateVersion
  }

  function Last(chain: seq<string>): Option<string>
  {
    if chain == [] then None else Some(chain[|chain| - 1])
  }

  function StatusStep(s: Store, rq: RuntimeAuthorityRequest, effectId: Text, now: nat, choice: Option<string>):
    (Store, Decision)
    requires ValidTable(s.config.grants) && IsChoice(s.config.grants, rq, now, choice)
  {
    var id := rq.requestId;
    var base := Judged(s, rq, BROKER, now, choice, STATUS);
    if CurrentCommit(s, rq, effectId) then
      Logged(s, base.(allowed := true, code := AUTHORIZED, grantId := Last(s.effects[id].chain)))
    else if id in s.effects && s.effects[id].requestDigest == RequestDigest(rq)
            && !s.effects[id].committed then
      Logged(s, Refuse(base).(code := PREPARED))
    else Logged(s, Refuse(base))
  }

  predicate Kept(r: Reservation, now: nat)
  {
    r.committed || r.preparedAt == 0 || now < SaturatingAdd(r.preparedAt, 30)
  }

  function ReapStep(s: Store, now: nat): Store
  {
    s.(effects := map k | k in s.effects && Kept(s.effects[k], now) :: s.effects[k])
  }

  function RevokeStep(s: Store, grantId: string): (Store, bool)
  {
    if grantId !in s.config.grants || grantId in s.revocation.revoked then (s, false)
    else
      (s.(revocation := Revocation(s.revocation.revoked + {grantId}, SaturatingAdd(s.revocation.epoch, 1))), true)
  }

  function NextEpoch(s: Store): Revocation
  {
    s.revocation.(epoch := SaturatingAdd(s.revocation.epoch, 1))
  }

  function RotateStep(s: Store, stateVersion: Identity): (Store, bool)
  {
    if !stateVersion.StateVersion? || stateVersion in s.config.history then (s, false)
    else
      (s.(config := s.config.(stateVersion := stateVersion, history := s.config.history + {stateVersion}),
          revocation := NextEpoch(s)),
       true)
  }

  /** `record_admin_approval`: the reviewer names a request and its digest. */
  function ApproveStep(s: Store, approvalId: string, target: string, digest: AdminDigest, service: Identity): (Store, bool)
  {
    if service != Service(Reviewer) then (s, false)
    else
      var artifact := Approval(target, digest, service, None);
      if approvalId in s.admin.approvals then
        (s, s.admin.approvals[approvalId].(usedBy := None) == artifact)
      else (s.(admin := s.admin.(approvals := s.admin.approvals[approvalId := artifact])), true)
  }

  predicate ApprovalFits(s: Store, rq: AdminRequest, approvalId: string, service: Identity)
  {
    && rq.schemaVersion == V2_0
    && rq.callerServiceId == service
    && service == Service(OperatorConsole)
    && approvalId in s.admin.approvals
    && var a := s.admin.approvals[approvalId];
      && a.targetRequestId == rq.requestId
      && a.requestDigest == AdminDigest(rq)
      && a.approverServiceId != service
      && a.usedBy.None?
  }

  function AdminEffect(s: Store, rq: AdminRequest): (Store, bool)
  {
    match rq.operation
    case RevokeGrant => if rq.grantId.Some? then RevokeStep(s, rq.grantId.value) else (s, false)
    case RotateState => if rq.stateVersion.Some? then RotateStep(s, rq.stateVersion.value) else (s, false)
    case OtherAdmin => (s, false)
  }

  /** `apply_admin`: one approval lets one request through, once. */
  function AdminStep(s: Store, rq: AdminRequest, approvalId: string, service: Identity): (Store, bool)
  {
    if rq.requestId in s.admin.results then (s, s.admin.results[rq.requestId] == AdminDigest(rq))
    else if !ApprovalFits(s, rq, approvalId, service) then (s, false)
    else
      var (s', applied) := AdminEffect(s, rq);
      if !applied then (s, false)
      else
        (s'.(admin := Administration(
               s'.admin.approvals[approvalId := s'.admin.approvals[approvalId].(usedBy := Some(rq.requestId))],
               s'.admin.results[rq.requestId := AdminDigest(rq)])),
         true)
  }

  function Blank(stateVersion: Identity): Store
  {
    Store(Configuration(map[], stateVersion, Unconfigured, {}), Revocation({}, 0), Quota(map[], map[]), map[],
          DecisionLog([], map[]), Administration(map[], map[]))
  }

  /** `from_snapshot`: a changed configuration replaces the grants and starts a
      new epoch; usage, reservations and revocations survive. */
  function RestartStep(snapshot: Store, grants: seq<RuntimeGrant>, stateVersion: Identity): Result<Store, GrantError>
  {
    if ValidateRuntimeGrants(grants).Err? then Err(ValidateRuntimeGrants(grants).error)
    else
      var history := snapshot.config.history + {snapshot.config.stateVersion};
      var digest := ConfigurationDigest(stateVersion, grants);
      if snapshot.config.digest == digest then Ok(snapshot.(config := snapshot.config.(history := history)))
      else if snapshot.config.stateVersion != stateVersion && stateVersion in history then Err(InvalidGrant)
      else
        Ok(snapshot.(config := Configuration(ById(grants), stateVersion, digest, history + {stateVersion}),
                     revocation := NextEpoch(snapshot)))
  }

  /******* The store as the service holds it *******/

  class RuntimeAuthorityStore {
    var grants: GrantTable
    var revoked: set<string>
    var quotaUsage: map<string, nat>
    var revocationEpoch: nat
    var stateVersion: Identity
    var configurationDigest: ConfigurationDigest
    var decisions: seq<Decision>
    var decisionsByRequest: map<string, StoredDecision>
    var quotaReservations: map<string, seq<string>>
    var effectReservations: map<string, Reservation>
    var stateVersionHistory: set<Identity>
    var adminApprovals: map<string, Approval>
    var adminResults: map<string, AdminDigest>

    function Snapshot(): Store
      reads this
    {
      Store(Configuration(grants, stateVersion, configurationDigest, stateVersionHistory),
            Revocation(revoked, revocationEpoch), Quota(quotaUsage, quotaReservations), effectReservations,
            DecisionLog(decisions, decisionsByRequest), Administration(adminApprovals, adminResults))
    }

    ghost predicate Valid()
      reads this
    {
      ValidTable(grants)
    }

    constructor (snapshot: Store)
      requires ValidTable(snapshot.config.grants)
      ensures Valid() && Snapshot() == snapshot
    {
      grants := snapshot.config.grants;
      revoked := snapshot.revocation.revoked;
      quotaUsage := snapshot.quota.usage;
      revocationEpoch := snapshot.revocation.epoch;
      stateVersion := snapshot.config.stateVersion;
      configurationDigest := snapshot.config.digest;
      decisions := snapshot.log.decisions;
      decisionsByRequest := snapshot.log.byRequest;
      quotaReservations := snapshot.quota.reservations;
      effectReservations := snapshot.effects;
      stateVersionHistory := snapshot.config.history;
      adminApprovals := snapshot.admin.approvals;
      adminResults := snapshot.admin.results;
    }

    method Charge(chain: seq<string>)
      requires Valid() && NoDuplicates(chain)
      modifies this`quotaUsage
      ensures quotaUsage == ChargeAll(old(quotaUsage), chain)
    {
      for i := 0 to |chain|
        invariant quotaUsage == ChargeAll(old(quotaUsage), chain[..i])
      {
        ChargeOneMore(old(quotaUsage), chain[..i], chain[i]);
        assert chain[..i + 1] == chain[..i] + [chain[i]];
        quotaUsage := quotaUsage[chain[i] := Usage(quotaUsage, chain[i]) + 1];
      }
      assert chain[..|chain|] == chain;
    }

    method HasQuota(chain: seq<string>) returns (ok: bool)
      requires Valid() && forall i :: 0 <= i < |chain| ==> chain[i] in grants
      ensures ok <==> QuotaLeft(Snapshot(), chain)
    {
      for i := 0 to |chain|
        invariant QuotaLeft(Snapshot(), chain[..i])
      {
        if Usage(quotaUsage, chain[i]) >= grants[chain[i]].quota { return false; }
      }
      assert chain[..|chain|] == chain;
      return true;
    }

    method HasCapacity(chain: seq<string>) returns (ok: bool)
      requires Valid() && forall i :: 0 <= i < |chain| ==> chain[i] in grants
      ensures ok <==> CapacityAvailable(Snapshot(), chain)
    {
      for i := 0 to |chain|
        invariant CapacityAvailable(Snapshot(), chain[..i])
      {
        var prepared := Prepared(effectReservations, chain[i]);
        if Usage(quotaUsage, chain[i]) + prepared >= grants[chain[i]].quota { return false; }
      }
      assert chain[..|chain|] == chain;
      return true;
    }

    method Enriched(d: Decision) returns (r: Decision)
      requires Valid()
      ensures r == Enrich(Snapshot(), d)
    {
      var chain := [];
      if d.grantId.Some? { chain := GrantChain(grants, d.grantId.value); }
      r := d.(configurationDigest := configurationDigest, grantChain := chain);
    }

    method Append(d: Decision) returns (r: Decision)
      requires Valid()
      modifies this`decisions
      ensures (Snapshot(), r) == Logged(old(Snapshot()), d)
    {
      r := Enriched(d);
      decisions := decisions + [r];
    }

    method CheckEvaluable(rq: RuntimeAuthorityRequest, now: nat, selected: Option<string>, chain: seq<string>)
      returns (ok: bool)
      requires Valid() && IsChoice(grants, rq, now, selected) && selected.Some?
      requires chain == Chain(grants, selected.value)
      ensures ok <==> Evaluable(Snapshot(), rq, now, selected)
    {
      ChosenChainIsKnown(grants, rq, now, selected);
      var inactive := ChainInactive(grants, revoked, selected.value);
      var quota := HasQuota(chain);
      if inactive || rq.stateVersion != stateVersion { return false; }
      if rq.requestId in quotaReservations { return quotaReservations[rq.requestId] == chain; }
      return quota;
    }

    method Reserve(rq: RuntimeAuthorityRequest, now: nat, selected: Option<string>) returns (ok: bool)
      requires Valid() && IsChoice(grants, rq, now, selected)
      modifies this`quotaUsage, this`quotaReservations
      ensures (Snapshot(), ok) == ReserveQuota(old(Snapshot()), rq, now, selected)
    {
      if selected.None? { return false; }
      var chain := GrantChain(grants, selected.value);
      ok := CheckEvaluable(rq, now, selected, chain);
      if ok && rq.requestId !in quotaReservations {
        Charge(chain);
        quotaReservations := quotaReservations[rq.requestId := chain];
      }
    }

    method Evaluate(rq: RuntimeAuthorityRequest, now: nat)
      returns (d: Decision, ghost choice: Option<string>)
      requires Valid()
      modifies this
      ensures Valid() && IsChoice(old(grants), rq, now, choice)
      ensures (Snapshot(), d) == EvaluateStep(old(Snapshot()), rq, now, choice)
    {
      var digest := RequestDigest(rq);
      var selected := SelectGrant(grants, rq, now);
      choice := selected;
      if rq.requestId in decisionsByRequest && decisionsByRequest[rq.requestId].requestDigest != digest {
        return Conflict(rq, rq.callerServiceId, now, EVALUATE), choice;
      }
      d := Judge(rq, rq.callerServiceId, now, selected, revocationEpoch, EVALUATE, Unconfigured);
      var ok := Reserve(rq, now, selected);
      if !ok { d := d.(allowed := false, code := UNAUTHORIZED, grantId := None); }
      d := Enriched(d);
      decisions := decisions + [d];
      decisionsByRequest := decisionsByRequest[rq.requestId := StoredDecision(digest, d)];
    }

    method PrepareEffect(rq: RuntimeAuthorityRequest, now: nat)
      returns (d: Decision, ghost choice: Option<string>)
      requires Valid()
      modifies this
      ensures Valid() && IsChoice(old(grants), rq, now, choice)
      ensures (Snapshot(), d) == PrepareStep(old(Snapshot()), rq, now, choice)
    {
      var existing := rq.requestId in effectReservations;
      var selected := SelectGrant(grants, rq, now);
      choice := selected;
      if existing && effectReservations[rq.requestId].requestDigest != RequestDigest(rq) {
        d := Append(Conflict(rq, BROKER, now, PREPARE));
        return;
      }
      d := Judge(rq, BROKER, now, selected, revocationEpoch, PREPARE, Unconfigured);
      if d.allowed {
        ChosenChainIsKnown(grants, rq, now, selected);
        var chain := GrantChain(grants, selected.value);
        var capacity := HasCapacity(chain);
        var inactive := ChainInactive(grants, revoked, selected.value);
        if inactive || rq.stateVersion != stateVersion || (!existing && !capacity) {
          d := d.(allowed := false, code := UNAUTHORIZED, grantId := None);
        } else if !existing {
          effectReservations := effectReservations[rq.requestId :=
            Reservation(RequestDigest(rq), chain, revocationEpoch, configurationDigest, stateVersion, now, None, false)];
        }
      }
      d := Append(d);
    }

    method CommitEffect(rq: RuntimeAuthorityRequest, effectId: Text, now: nat)
      returns (d: Decision, ghost choice: Option<string>)
      requires Valid()
      modifies this
      ensures Valid() && IsChoice(old(grants), rq, now, choice)
      ensures (Snapshot(), d) == CommitStep(old(Snapshot()), rq, effectId, now, choice)
    {
      hide IsChoice, AnyRevoked, Chain, ValidTable;
      var selected := SelectGrant(grants, rq, now);
      choice := selected;
      d := Judge(rq, BROKER, now, selected, revocationEpoch, COMMIT, Unconfigured);
      var chain, inactive := [], true;
      if selected.Some? {
        chain := GrantChain(grants, selected.value);
        inactive := ChainInactive(grants, revoked, selected.value);
      }
      if rq.requestId !in effectReservations {
        d := Append(d.(allowed := false, code := UNAUTHORIZED, grantId := None));
        return;
      }
      var reservation := effectReservations[rq.requestId];
      if reservation.requestDigest != RequestDigest(rq)
         || !IsEffectId(effectId)
         || (reservation.effectId.Some? && reservation.effectId.value != effectId)
         || inactive
         || chain != reservation.chain
         || reservation.revocationEpoch != revocationEpoch
         || reservation.configurationDigest != configurationDigest
         || reservation.stateVersion != stateVersion
         || rq.stateVersion != stateVersion
      {
        d := Append(d.(allowed := false, code := UNAUTHORIZED, grantId := None));
        return;
      }
      if !reservation.committed {
        Charge(chain);
        effectReservations := effectReservations[rq.requestId :=
          reservation.(effectId := Some(effectId), committed := true)];
      }
      d := Append(d);
    }

    method AbortEffect(rq: RuntimeAuthorityRequest) returns (d: Decision, ghost choice: Option<string>)
      requires Valid()
      modifies this
      ensures Valid() && IsChoice(old(grants), rq, rq.requestedAt, choice)
      ensures (Snapshot(), d) == AbortStep(old(Snapshot()), rq, choice)
    {
      var selected := SelectGrant(grants, rq, rq.requestedAt);
      choice := selected;
      d := Judge(rq, BROKER, rq.requestedAt, selected, revocationEpoch, ABORT, Unconfigured);
      if rq.requestId in effectReservations
         && (effectReservations[rq.requestId].requestDigest != RequestDigest(rq)
             || effectReservations[rq.requestId].committed)
      {
        d := d.(allowed := false, code := UNAUTHORIZED, grantId := None);
      } else {
        effectReservations := effectReservations - {rq.requestId};
        d := d.(allowed := true, code := ABORTED);
      }
      d := Append(d);
    }

    method StatusEffect(rq: RuntimeAuthorityRequest, effectId: Text, now: nat)
      returns (d: Decision, ghost choice: Option<string>)
      requires Valid()
      modifies this
      ensures Valid() && IsChoice(old(grants), rq, now, choice)
      ensures (Snapshot(), d) == StatusStep(old(Snapshot()), rq, effectId, now, choice)
    {
      var selected := SelectGrant(grants, rq, now);
      choice := selected;
      d := Judge(rq, BROKER, now, selected, revocationEpoch, STATUS, Unconfigured);
      d := d.(allowed := false, code := UNAUTHORIZED, grantId := None);
      if rq.requestId in effectReservations {
        var reservation := effectReservations[rq.requestId];
        if reservation.requestDigest == RequestDigest(rq) {
          if !reservation.committed {
            d := d.(code := PREPARED);
          } else if reservation.effectId == Some(effectId)
                    && reservation.revocationEpoch == revocationEpoch
                    && reservation.configurationDigest == configurationDigest
                    && reservation.stateVersion == stateVersion
          {
            d := d.(allowed := true, code := AUTHORIZED, grantId := Last(reservation.chain));
          }
        }
      }
      d := Append(d);
    }

    method ReapExpiredPrepares(now: nat) returns (removed: nat)
      modifies this`effectReservations
      ensures Snapshot() == ReapStep(old(Snapshot()), now)
      ensures removed == |old(effectReservations)| - |effectReservations|
    {
      var previous := effectReservations;
      effectReservations := map k | k in effectReservations && Kept(effectReservations[k], now) :: effectReservations[k];
      assert effectReservations.Keys <= previous.Keys;
      SubsetSize(effectReservations.Keys, previous.Keys);
      removed := |previous| - |effectReservations|;
    }

    method Revoke(grantId: string) returns (changed: bool)
      modifies this`revoked, this`revocationEpoch
      ensures (Snapshot(), changed) == RevokeStep(old(Snapshot()), grantId)
    {
      if grantId !in grants { return false; }
      changed := grantId !in revoked;
      revoked := revoked + {grantId};
      if changed { revocationEpoch := SaturatingAdd(revocationEpoch, 1); }
      else { assert revoked == old(revoked); }
    }

    method RotateState(version: Identity) returns (changed: bool)
      modifies this`stateVersion, this`stateVersionHistory, this`revocationEpoch
      ensures (Snapshot(), changed) == RotateStep(old(Snapshot()), version)
    {
      if !version.StateVersion? || version in stateVersionHistory { return false; }
      stateVersion := version;
      stateVersionHistory := stateVersionHistory + {version};
      revocationEpoch := SaturatingAdd(revocationEpoch, 1);
      return true;
    }

    method RecordAdminApproval(approvalId: string, target: string, digest: AdminDigest, service: Identity)
      returns (accepted: bool)
      modifies this`adminApprovals
      ensures (Snapshot(), accepted) == ApproveStep(old(Snapshot()), approvalId, target, digest, service)
    {
      if service != Service(Reviewer) { return false; }
      if approvalId in adminApprovals {
        var existing := adminApprovals[approvalId];
        return existing.targetRequestId == target && existing.requestDigest == digest
            && existing.approverServiceId == service;
      }
      adminApprovals := adminApprovals[approvalId := Approval(target, digest, service, None)];
      return true;
    }

    method ApplyAdmin(rq: AdminRequest, approvalId: string, service: Identity) returns (applied: bool)
      modifies this
      ensures (Snapshot(), applied) == AdminStep(old(Snapshot()), rq, approvalId, service)
    {
      if rq.requestId in adminResults { return adminResults[rq.requestId] == AdminDigest(rq); }
      if !ApprovalFits(Snapshot(), rq, approvalId, service) { return false; }
      applied := false;
      match rq.operation {
        case RevokeGrant => if rq.grantId.Some? { applied := Revoke(rq.grantId.value); }
        case RotateState => if rq.stateVersion.Some? { applied := RotateState(rq.stateVersion.value); }
        case OtherAdmin =>
      }
      if !applied { return; }
      adminApprovals := adminApprovals[approvalId := adminApprovals[approvalId].(usedBy := Some(rq.requestId))];
      adminResults := adminResults[rq.requestId := AdminDigest(rq)];
    }
  }

  lemma ChargeOneMore(usage: map<string, nat>, chain: seq<string>, id: string)
    requires id !in chain
    ensures ChargeAll(usage, chain + [id]) ==
            ChargeAll(usage, chain)[id := Usage(ChargeAll(usage, chain), id) + 1]
  {
  }
}
