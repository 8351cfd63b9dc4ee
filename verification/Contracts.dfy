/** The values the services exchange: grants, authority requests and decisions,
    effect proposals, and the digests that bind them to one another. */
module Contracts {

  datatype Option<+T> = None | Some(value: T)

  datatype Result<+T, +E> = Ok(value: T) | Err(error: E)

  const U64_MAX: nat := 0xFFFF_FFFF_FFFF_FFFF
  const U32_MAX: nat := 0xFFFF_FFFF

  type U32 = n: int | 0 <= n <= U32_MAX

  /** `u64::saturating_add`. */
  function SaturatingAdd(a: nat, b: nat): (r: nat)
  {
    if a + b <= U64_MAX then a + b else U64_MAX
  }

  /** Principals and versions carry their kind in front of the name; the kinds
      that the services test for are constructors. */
  datatype Identity =
    | Machine(name: string)
    | Service(service: ServiceName)
    | Activation(name: string)
    | Operator(name: string)
    | Generation(name: string)
    | StateVersion(name: string)
    | Untyped(text: string)

  datatype ServiceName = Effects | Runtime | Reviewer | OperatorConsole | OtherService(name: string)

  datatype Schema = V2_0 | OtherSchema(text: string)

  datatype Capability = RuntimeEffect | OtherCapability(name: string)

  /** Targets, objective identities and effect identities are compared by
      prefix, so they are sequences.  The reserved tags `objective:` and
      `effect:sha256:` are one symbol each, and so is the SHA-256 digest of a
      proposal: distinct proposals have distinct digests. */
  datatype Symbol = ObjectiveTag | EffectTag | Ch(c: char) | Sha256(proposal: EffectProposal)

  type Text = seq<Symbol>

  predicate IsObjectiveId(t: Text)
  {
    t != [] && t[0] == ObjectiveTag
  }

  predicate IsEffectId(t: Text)
  {
    t != [] && t[0] == EffectTag
  }

  /** `effect:sha256:<digest of the canonical proposal>`. */
  function EffectIdOf(proposal: EffectProposal): Text
  {
    [EffectTag, Sha256(proposal)]
  }

  lemma EffectIdInjective(p: EffectProposal, q: EffectProposal)
    requires EffectIdOf(p) == EffectIdOf(q)
    ensures p == q
  {
    assert EffectIdOf(p)[1] == Sha256(p);
    assert EffectIdOf(q)[1] == Sha256(q);
  }

  datatype Operation = Commit | Compensate | OtherOperation(name: string)

  datatype Payload = Payload(
    objectiveId: Text,
    capability: Capability,
    target: Text,
    compensatesEffectId: Option<Text>)

  /** `provider_request_digest(operation, payload)`, or any digest that no
      provider payload hashes to. */
  datatype ParametersDigest =
    | PayloadDigest(operation: Operation, payload: Payload)
    | ForeignDigest(hex: string)

  /** `effect:<objective>` and `compensation:<target>`, the two key shapes that
      `runtime_effect_request_valid` admits. */
  datatype IdempotencyKey =
    | EffectKey(objectiveId: Text)
    | CompensationKey(target: Text)
    | OtherKey(name: string)

  datatype ConsequenceClass = E0 | E1 | E2 | E3

  function Severity(c: ConsequenceClass): nat
  {
    match c
    case E0 => 0
    case E1 => 1
    case E2 => 2
    case E3 => 3
  }

  /** Who asks for what: the part of a proposal that authority decides on. */
  datatype Intent = Intent(
    commandId: string,
    activationId: Identity,
    objectiveId: Text,
    capability: Capability,
    operation: Operation,
    target: Text)

  datatype Provision = Provision(
    consequenceClass: ConsequenceClass,
    expiresAt: nat,
    providerId: string,
    compensatesEffectId: Option<Text>)

  datatype Bounds = Bounds(
    executionConstraintId: Option<string>,
    validFrom: Option<nat>,
    validUntil: Option<nat>,
    controllerAckRequired: bool)

  datatype Placement = Placement(orderingGroup: Option<string>, orderingSequence: Option<nat>)

  datatype EffectProposal = EffectProposal(
    intent: Intent,
    parametersDigest: ParametersDigest,
    idempotencyKey: IdempotencyKey,
    provision: Provision,
    bounds: Bounds,
    placement: Placement)

  datatype RuntimeGrant = RuntimeGrant(
    grantId: string,
    issuer: Identity,
    independentApprover: Identity,
    machineId: Identity,
    serviceId: Identity,
    activationId: Identity,
    capability: Capability,
    operation: Operation,
    targetPrefix: Text,
    generation: Identity,
    stateVersion: Identity,
    quota: nat,
    remainingDelegationDepth: U32,
    parentGrantId: Option<string>,
    notBefore: nat,
    expiresAt: nat)

  datatype RuntimeAuthorityRequest = RuntimeAuthorityRequest(
    schemaVersion: Schema,
    requestId: string,
    callerServiceId: Identity,
    machineId: Identity,
    serviceId: Identity,
    activationId: Identity,
    objectiveId: Text,
    capability: Capability,
    operation: Operation,
    target: Text,
    generation: Identity,
    stateVersion: Identity,
    requestedAt: nat)

  /** `runtime_effect_request_digest`: covers every field of the request. */
  datatype RequestDigest = RequestDigest(request: RuntimeAuthorityRequest)

  datatype ConfigurationDigest =
    | Unconfigured
    | ConfigurationDigest(stateVersion: Identity, grants: seq<RuntimeGrant>)

  datatype Phase = EVALUATE | PREPARE | COMMIT | ABORT | STATUS

  datatype Code = AUTHORIZED | UNAUTHORIZED | REQUEST_ID_CONFLICT | PREPARED | ABORTED

  /** A decision copies the fields of the request it answers; `request` stands
      for those copies. */
  datatype Decision = Decision(
    request: RuntimeAuthorityRequest,
    brokerServiceId: Identity,
    allowed: bool,
    code: Code,
    grantId: Option<string>,
    evaluatedAt: nat,
    revocationEpoch: nat,
    phase: Phase,
    grantChain: seq<string>,
    configurationDigest: ConfigurationDigest)

  /** `provider://offline/sha256/<digest of effect and key>`. */
  datatype TransportId = NoTransport | OfflineTransport(effectId: Text, idempotencyKey: IdempotencyKey)

  datatype Forwarding = Forwarding(
    providerId: string,
    parametersDigest: ParametersDigest,
    idempotencyKey: IdempotencyKey)

  lemma SubsetSize<T>(a: set<T>, b: set<T>)
    requires a <= b
    ensures |a| <= |b|
  {
    assert b == a + (b - a);
  }
}
