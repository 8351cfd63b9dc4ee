/** The state service's work tables: objectives with their wakes, leased
    activations with their fences and binding history, the effects with their
    transition log, canonical records and completion guard, and the ledger of
    activation commands.  One operation is one transaction: an error leaves the
    tables as they were. */
module Lifecycle {
  import opened Contracts
  import L = EffectLedger
  import P = EffectProjection

  datatype ObjectiveState = PROPOSED | SATISFIED | CANCELLED | COMPENSATED

  datatype WakeState = PENDING | RELEASED | LEASED | ACKNOWLEDGED

  datatype ActivationState =
    | Requested
    | Leased
    | Preparing
    | Running
    | WaitingContext
    | WaitingEffect
    | Sleeping
    | Completed
    | Failed
    | Cancelled

  predicate Live(s: ActivationState)
  {
    s == Leased || s == Preparing || s == Running || s == WaitingContext || s == WaitingEffect || s == Sleeping
  }

  predicate Ended(s: ActivationState) { s == Completed || s == Failed || s == Cancelled }

  /** `wake:<objective>`. */
  datatype WakeId = WakeOf(objectiveId: string)

  datatype Objective = Objective(state: ObjectiveState, version: nat)

  datatype Wake = Wake(
    objectiveId: string,
    state: WakeState,
    dueAt: int,
    owner: Option<string>,
    expiresAt: Option<int>,
    version: nat)

  /** Who holds an activation, for what, and under which system. */
  datatype Scope = Scope(machineId: string, agentId: string, traceId: string, generation: string, capabilitySet: string)

  datatype Lease = Lease(wakeId: WakeId, owner: Option<string>, expiresAt: Option<int>, deadline: int, fence: nat)

  datatype Activation = Activation(
    objectiveId: string,
    state: ActivationState,
    version: nat,
    lease: Lease,
    scope: Scope,
    credentialDigest: string)

  datatype BindingRow = BindingRow(version: nat, binding: Activation)

  datatype Leases = Leases(activations: map<string, Activation>, history: map<string, seq<BindingRow>>)

  /** What a checkpoint of the effect service keeps about an effect. */
  datatype CanonicalRecord = CanonicalRecord(objectiveId: string, state: L.EffectState, compensates: Option<string>)

  /** The guarded effect set; its digest determines it. */
  datatype GuardRow = GuardRow(effectIds: set<string>, ready: bool)

  /** Projections with their log and the commands that made it, canonical records,
      and guards. */
  datatype Guarding = Guarding(
    effects: map<string, P.EffectRow>,
    log: map<string, seq<P.LogRow>>,
    transitions: map<string, P.CommandRow>,
    records: map<string, CanonicalRecord>,
    guards: map<string, GuardRow>)

  datatype CapabilitySet = CapabilitySet(id: string, generation: string)

  datatype SystemBinding = SystemBinding(generation: Option<string>, capabilitySet: Option<CapabilitySet>)

  datatype ClaimRequest = ClaimRequest(
    activationId: string,
    objectiveId: string,
    wakeId: WakeId,
    owner: string,
    leaseSeconds: int,
    holder: Holder)

  datatype Holder = Holder(machineId: string, agentId: string, traceId: string, credentialDigest: string)

  /** Command identities carry the operation in front; callers choose theirs
      under a prefix of their own. */
  datatype CommandId = ScheduleOf(objectiveId: string) | DenyOf(objectiveId: string) | CompleteOf(wakeId: WakeId)
    | ByCaller(name: string)

  datatype Fingerprint = OfSchedule(objectiveId: string) | OfDenial(objectiveId: string)
    | OfCompletion(objectiveId: string, effectIds: set<string>) | OfClaim(request: ClaimRequest)

  datatype Reply = Scheduled(objectiveId: string) | Denied(objectiveId: string, version: nat)
    | CompletedObjective(objectiveId: string, version: nat) | Claimed(activationId: string, binding: Activation)

  datatype CommandRow = CommandRow(fingerprint: Fingerprint, result: Reply)

  datatype LedgerRow = LedgerRow(requestDigest: string, result: string, fence: nat)

  datatype Tables = Tables(
    objectives: map<string, Objective>,
    wakes: map<WakeId, Wake>,
    leases: Leases,
    guarding: Guarding,
    commands: map<CommandId, CommandRow>,
    ledger: map<(string, string), LedgerRow>,
    system: SystemBinding)

  datatype Error =
    | IdentityReused
    | NotPending
    | NotClaimable
    | SystemUnavailable
    | NotReclaimable
    | RequestIncomplete
    | NotSchedulable
    | NoGuard
    | EffectSetMismatch
    | TerminalIsImmutable
    | CompensationPrecondition
    | RecoveryDisagrees
    | NotAuthorized
    | Expired
    | LedgerCorrupt
    | DigestMismatch(result: string)

  /******* Scheduling, denial, completion *******/

  function Schedule(t: Tables, objectiveId: string, now: int): (Tables, Result<Reply, Error>)
  {
    var id := ScheduleOf(objectiveId);
    if id in t.commands then
      (t, if t.commands[id].fingerprint == OfSchedule(objectiveId) then Ok(t.commands[id].result) else Err(IdentityReused))
    else if objectiveId in t.objectives || WakeOf(objectiveId) in t.wakes then (t, Err(IdentityReused))
    else
      (t.(objectives := t.objectives[objectiveId := Objective(PROPOSED, 1)],
          wakes := t.wakes[WakeOf(objectiveId) := Wake(objectiveId, PENDING, now, None, None, 1)],
          commands := t.commands[id := CommandRow(OfSchedule(objectiveId), Scheduled(objectiveId))]),
       Ok(Scheduled(objectiveId)))
  }

  function WithObjective(t: Tables, id: string, state: ObjectiveState): Tables
    requires id in t.objectives
  {
    t.(objectives := t.objectives[id := Objective(state, t.objectives[id].version + 1)])
  }

  /** `cancel_denied_objective`: a wake may be acknowledged even while leased. */
  function Deny(t: Tables, objectiveId: string): (Tables, Result<Reply, Error>)
  {
    var id, w := DenyOf(objectiveId), WakeOf(objectiveId);
    if id in t.commands then
      (t, if t.commands[id].fingerprint == OfDenial(objectiveId) then Ok(t.commands[id].result) else Err(IdentityReused))
    else if objectiveId !in t.objectives || t.objectives[objectiveId].state != PROPOSED then (t, Err(NotPending))
    else if w !in t.wakes || t.wakes[w].state == ACKNOWLEDGED then (t, Err(NotPending))
    else
      var wake := t.wakes[w].(state := ACKNOWLEDGED, owner := None, expiresAt := None, version := t.wakes[w].version + 1);
      var result := Denied(objectiveId, t.objectives[objectiveId].version + 1);
      (WithObjective(t, objectiveId, CANCELLED).(
         wakes := t.wakes[w := wake], commands := t.commands[id := CommandRow(OfDenial(objectiveId), result)]),
       Ok(result))
  }

  predicate Due(wake: Wake, now: int)
  {
    && wake.dueAt <= now
    && (|| wake.state == PENDING || wake.state == RELEASED
        || (wake.state == LEASED && wake.expiresAt.Some? && wake.expiresAt.value <= now))
  }

  /** The objective's effects that are projected and on canonical record. */
  function EffectsOf(g: Guarding, objectiveId: string): set<string>
  {
    set e | e in g.effects && e in g.records && g.effects[e].objectiveId == objectiveId
  }

  predicate Succeeded(g: Guarding, e: string)
    requires e in g.effects && e in g.records
  {
    g.effects[e].state == P.ProjectedState.Committed && L.Succeeded(g.records[e].state)
  }

  predicate AllSucceeded(g: Guarding, ids: set<string>)
  {
    forall e :: e in ids && e in g.effects && e in g.records ==> Succeeded(g, e)
  }

  predicate Completable(g: Guarding, objectiveId: string)
  {
    var current := EffectsOf(g, objectiveId);
    && objectiveId in g.guards && g.guards[objectiveId].ready
    && current != {}
    && g.guards[objectiveId].effectIds == current
    && AllSucceeded(g, current)
  }

  /** `complete_ready_objective` on the due wake the query returned. */
  function Tick(t: Tables, w: WakeId, now: int): (Tables, Result<Reply, Error>)
    requires w in t.wakes && Due(t.wakes[w], now)
  {
    var objectiveId := t.wakes[w].objectiveId;
    if objectiveId !in t.objectives || t.objectives[objectiveId].state != PROPOSED then (t, Err(NotSchedulable))
    else if !Completable(t.guarding, objectiveId) then (t, Err(NoGuard))
    else if CompleteOf(w) in t.commands then (t, Err(IdentityReused))
    else
      var result := CompletedObjective(objectiveId, t.objectives[objectiveId].version + 1);
      var fingerprint := OfCompletion(objectiveId, t.guarding.guards[objectiveId].effectIds);
      (WithObjective(t, objectiveId, SATISFIED).(
         wakes := t.wakes[w := t.wakes[w].(state := ACKNOWLEDGED, version := t.wakes[w].version + 1)],
         commands := t.commands[CompleteOf(w) := CommandRow(fingerprint, result)]),
       Ok(result))
  }

  /** `guard_objective_effects`: accepts only the complete effect set, and turns
      the objective over once one of its compensations has succeeded. */
  function Guard(t: Tables, objectiveId: string, ids: set<string>): (Tables, Result<bool, Error>)
  {
    var g := t.guarding;
    if ids == {} || EffectsOf(g, objectiveId) != ids then (t, Err(EffectSetMismatch))
    else
      var compensated := exists e :: e in ids && g.records[e].compensates.Some? && Succeeded(g, e);
      var ready := !compensated && AllSucceeded(g, ids);
      var t' := if compensated && objectiveId in t.objectives && t.objectives[objectiveId].state != COMPENSATED
                then WithObjective(t, objectiveId, COMPENSATED) else t;
      (t'.(guarding := g.(guards := g.guards[objectiveId := GuardRow(ids, ready)])), Ok(ready))
  }

  predicate CommittedFor(g: Guarding, objectiveId: string, e: string)
  {
    e in g.effects && g.effects[e].objectiveId == objectiveId && g.effects[e].state == P.ProjectedState.Committed
  }

  /** `invalidate_objective_effect_guard`. */
  function Invalidate(t: Tables, objectiveId: string, original: string): (Tables, Result<bool, Error>)
  {
    var g := t.guarding;
    if !CommittedFor(g, objectiveId, original) then (t, Err(EffectSetMismatch))
    else if objectiveId !in g.guards then (t, Err(NoGuard))
    else (t.(guarding := g.(guards := g.guards[objectiveId := g.guards[objectiveId].(ready := false)])), Ok(false))
  }

  /******* Effects *******/

  function LiveState(s: ObjectiveState): P.ObjectiveState
  {
    match s
    case PROPOSED => P.ObjectiveProposed
    case SATISFIED => P.ObjectiveSatisfied
    case _ => P.ObjectiveElsewhere
  }

  function Projections(t: Tables): P.Db
  {
    P.Db(t.guarding.transitions, map o | o in t.objectives :: LiveState(t.objectives[o].state), t.guarding.effects, t.guarding.log)
  }

  /** `observe_effect_transition` on these tables. */
  function ObserveTransition(t: Tables, transitionId: string, c: P.Change): Tables
  {
    var db := P.Observe(Projections(t), transitionId, c).0;
    t.(guarding := t.guarding.(effects := db.effects, log := db.log, transitions := db.commands))
  }

  predicate Compensable(t: Tables, objectiveId: string, original: string)
  {
    && objectiveId in t.objectives && (t.objectives[objectiveId].state == PROPOSED || t.objectives[objectiveId].state == SATISFIED)
    && CommittedFor(t.guarding, objectiveId, original)
  }

  /** The record of a checkpoint: the same again is accepted, a terminal one never
      changed, and that of a compensation takes the objective's guard back. */
  function SaveRecord(t: Tables, id: string, r: CanonicalRecord): (Tables, Result<(), Error>)
  {
    var g := t.guarding;
    if id in g.records && g.records[id] == r then (t, Ok(()))
    else if id in g.records && L.Terminal(g.records[id].state) then (t, Err(TerminalIsImmutable))
    else if r.compensates.None? then (t.(guarding := g.(records := g.records[id := r])), Ok(()))
    else if !Compensable(t, r.objectiveId, r.compensates.value) then (t, Err(CompensationPrecondition))
    else if r.objectiveId !in g.guards then (t, Err(NoGuard))
    else
      var guard := g.guards[r.objectiveId].(ready := false);
      (t.(guarding := g.(records := g.records[id := r], guards := g.guards[r.objectiveId := guard])), Ok(()))
  }

  /******* Claims *******/

  /** The objective's activation, if it has one. */
  predicate IsPrior(t: Tables, objectiveId: string, prior: Option<string>)
  {
    match prior
    case None => forall a :: a in t.leases.activations ==> t.leases.activations[a].objectiveId != objectiveId
    case Some(a) => a in t.leases.activations && t.leases.activations[a].objectiveId == objectiveId
  }

  predicate WakeClaimable(t: Tables, c: ClaimRequest, now: int)
  {
    && c.wakeId in t.wakes
    && t.wakes[c.wakeId].objectiveId == c.objectiveId
    && (t.wakes[c.wakeId].state == PENDING || t.wakes[c.wakeId].state == RELEASED)
    && t.wakes[c.wakeId].dueAt <= now
    && c.objectiveId in t.objectives && t.objectives[c.objectiveId].state == PROPOSED
  }

  predicate SystemReady(s: SystemBinding)
  {
    s.generation.Some? && s.capabilitySet.Some? && s.capabilitySet.value.generation == s.generation.value
  }

  function NewBinding(t: Tables, c: ClaimRequest, now: int, prior: Option<string>): Activation
    requires SystemReady(t.system) && IsPrior(t, c.objectiveId, prior)
  {
    var scope := Scope(c.holder.machineId, c.holder.agentId, c.holder.traceId, t.system.generation.value,
                       t.system.capabilitySet.value.id);
    var fence := if prior.Some? then t.leases.activations[prior.value].lease.fence + 1 else 1;
    var version := if prior.Some? then t.leases.activations[prior.value].version + 1 else 1;
    Activation.Activation(c.objectiveId, Leased, version,
               Lease(c.wakeId, Some(c.owner), Some(now + c.leaseSeconds), now + c.leaseSeconds, fence),
               scope, c.holder.credentialDigest)
  }

  function HistoryOf(l: Leases, a: string): seq<BindingRow>
  {
    if a in l.history then l.history[a] else []
  }

  function Bound(l: Leases, a: string, binding: Activation): Leases
  {
    Leases(l.activations[a := binding], l.history[a := HistoryOf(l, a) + [BindingRow(binding.version, binding)]])
  }

  function Claim(t: Tables, commandId: string, c: ClaimRequest, now: int, prior: Option<string>):
    (Tables, Result<Reply, Error>)
    requires IsPrior(t, c.objectiveId, prior)
  {
    var id := ByCaller(commandId);
    if !(1 <= c.leaseSeconds <= 300) then (t, Err(RequestIncomplete))
    else if id in t.commands then
      (t, if t.commands[id].fingerprint == OfClaim(c) then Ok(t.commands[id].result) else Err(IdentityReused))
    else if !WakeClaimable(t, c, now) then (t, Err(NotClaimable))
    else if !SystemReady(t.system) then (t, Err(SystemUnavailable))
    else if prior.Some?
            && (prior.value != c.activationId || t.leases.activations[prior.value].state != Requested
                || t.leases.activations[prior.value].lease.wakeId != c.wakeId)
    then (t, Err(NotReclaimable))
    else if prior.None? && c.activationId in t.leases.activations then (t, Err(IdentityReused))
    else
      var binding := NewBinding(t, c, now, prior);
      var wake := t.wakes[c.wakeId].(state := LEASED, owner := Some(c.owner), expiresAt := binding.lease.expiresAt,
                                     version := t.wakes[c.wakeId].version + 1);
      (t.(leases := Bound(t.leases, c.activationId, binding), wakes := t.wakes[c.wakeId := wake],
          commands := t.commands[id := CommandRow(OfClaim(c), Claimed(c.activationId, binding))]),
       Ok(Claimed(c.activationId, binding)))
  }

  /******* Recovery of expired leases *******/

  predicate ExpiredAt(a: Activation, now: int)
  {
    a.lease.expiresAt.Some? && a.lease.expiresAt.value <= now && !Ended(a.state)
  }

  function ExpiredIds(t: Tables, now: int): set<string>
  {
    set a | a in t.leases.activations && ExpiredAt(t.leases.activations[a], now)
  }

  /** One row of the loop: the wake must still be leased to the same owner. */
  predicate Releasable(t: Tables, id: string)
    requires id in t.leases.activations
  {
    var a := t.leases.activations[id];
    && HistoryOf(t.leases, id) != []
    && a.lease.wakeId in t.wakes
    && t.wakes[a.lease.wakeId].state == LEASED
    && t.wakes[a.lease.wakeId].owner == a.lease.owner
  }

  function Release(t: Tables, id: string): Tables
    requires id in t.leases.activations && Releasable(t, id)
  {
    var a := t.leases.activations[id];
    var w := a.lease.wakeId;
    var state := if a.state == WaitingEffect then Failed else Requested;
    t.(leases := Bound(t.leases, id,
                       a.(state := state, version := a.version + 1, lease := a.lease.(owner := None, expiresAt := None))),
       wakes := t.wakes[w := t.wakes[w].(state := RELEASED, owner := None, expiresAt := None,
                                         version := t.wakes[w].version + 1)])
  }

  /** The rows of the query in the order they come; a row that disagrees with its
      wake abandons the whole transaction. */
  function Released(t: Tables, ids: seq<string>): Option<Tables>
    decreases |ids|
  {
    if ids == [] then Some(t)
    else if ids[0] !in t.leases.activations || !Releasable(t, ids[0]) then None
    else Released(Release(t, ids[0]), ids[1..])
  }

  function Recover(t: Tables, ids: seq<string>): (Tables, Result<nat, Error>)
  {
    match Released(t, ids)
    case Some(t') => (t', Ok(|ids|))
    case None => (t, Err(RecoveryDisagrees))
  }

  /******* Resolution and command commits *******/

  datatype Presented = Presented(
    activationId: string,
    objectiveId: string,
    fence: nat,
    deadline: int,
    scope: Scope,
    credentialDigest: string)

  /** `_resolve_activation`. */
  function Resolve(t: Tables, b: Presented, now: int): Result<Activation, Error>
  {
    if !(1 <= b.fence <= U64_MAX) || b.deadline < 1 then Err(Expired)
    else if b.activationId !in t.leases.activations then Err(NotAuthorized)
    else
      var a := t.leases.activations[b.activationId];
      if a.objectiveId != b.objectiveId || a.lease.fence != b.fence || a.scope != b.scope then Err(NotAuthorized)
      else if t.system.generation != Some(a.scope.generation) || t.system.capabilitySet.None?
              || t.system.capabilitySet.value.id != a.scope.capabilitySet
      then Err(NotAuthorized)
      else if !Live(a.state) then Err(NotAuthorized)
      else if a.lease.expiresAt.None? || a.lease.expiresAt.value <= now || a.lease.deadline <= now
              || a.lease.deadline < b.deadline || b.deadline <= now
      then Err(Expired)
      else if b.credentialDigest != a.credentialDigest then Err(NotAuthorized)
      else Ok(a)
  }

  /** `commit_activation_command`: a row's evidence binds the fence it was
      committed under, and a later fence cannot read it back as its own. */
  function CommitCommand(t: Tables, b: Presented, commandId: string, digest: string, result: string, now: int):
    (Tables, Result<string, Error>)
  {
    match Resolve(t, b, now)
    case Err(error) => (t, Err(error))
    case Ok(a) =>
      var key := (b.activationId, commandId);
      if key in t.ledger then
        var row := t.ledger[key];
        (t, if row.fence != a.lease.fence then Err(LedgerCorrupt)
            else if row.requestDigest != digest then Err(DigestMismatch(row.result)) else Ok(row.result))
      else (t.(ledger := t.ledger[key := LedgerRow(digest, result, a.lease.fence)]), Ok(result))
  }

  /******* The service *******/

  class LifecycleService {
    var objectives: map<string, Objective>
    var wakes: map<WakeId, Wake>
    var activations: map<string, Activation>
    var history: map<string, seq<BindingRow>>
    var guarding: Guarding
    var commands: map<CommandId, CommandRow>
    var ledger: map<(string, string), LedgerRow>
    var system: SystemBinding

    function Rows(): Tables
      reads this
    {
      Tables(objectives, wakes, Leases(activations, history), guarding, commands, ledger, system)
    }

    constructor (t: Tables)
      ensures Rows() == t
    {
      objectives, wakes, guarding, commands := t.objectives, t.wakes, t.guarding, t.commands;
      activations, history := t.leases.activations, t.leases.history;
      ledger, system := t.ledger, t.system;
    }

    method ScheduleObjective(objectiveId: string, now: int) returns (r: Result<Reply, Error>)
      modifies this
      ensures (Rows(), r) == Schedule(old(Rows()), objectiveId, now)
    {
      var id := ScheduleOf(objectiveId);
      if id in commands {
        return if commands[id].fingerprint == OfSchedule(objectiveId) then Ok(commands[id].result) else Err(IdentityReused);
      }
      if objectiveId in objectives || WakeOf(objectiveId) in wakes { return Err(IdentityReused); }
      objectives := objectives[objectiveId := Objective(PROPOSED, 1)];
      wakes := wakes[WakeOf(objectiveId) := Wake(objectiveId, PENDING, now, None, None, 1)];
      r := Ok(Scheduled(objectiveId));
      commands := commands[id := CommandRow(OfSchedule(objectiveId), r.value)];
    }

    method CancelDeniedObjective(objectiveId: string) returns (r: Result<Reply, Error>)
      modifies this
      ensures (Rows(), r) == Deny(old(Rows()), objectiveId)
    {
      var id, w := DenyOf(objectiveId), WakeOf(objectiveId);
      if id in commands {
        return if commands[id].fingerprint == OfDenial(objectiveId) then Ok(commands[id].result) else Err(IdentityReused);
      }
      if objectiveId !in objectives || objectives[objectiveId].state != PROPOSED { return Err(NotPending); }
      if w !in wakes || wakes[w].state == ACKNOWLEDGED { return Err(NotPending); }
      var version := objectives[objectiveId].version + 1;
      wakes := wakes[w := wakes[w].(state := ACKNOWLEDGED, owner := None, expiresAt := None, version := wakes[w].version + 1)];
      objectives := objectives[objectiveId := Objective(CANCELLED, version)];
      r := Ok(Denied(objectiveId, version));
      commands := commands[id := CommandRow(OfDenial(objectiveId), r.value)];
    }

    method CompleteReadyObjective(w: WakeId, now: int) returns (r: Result<Reply, Error>)
      requires w in wakes && Due(wakes[w], now)
      modifies this
      ensures (Rows(), r) == Tick(old(Rows()), w, now)
    {
      hide EffectsOf, AllSucceeded;
      var objectiveId := wakes[w].objectiveId;
      if objectiveId !in objectives || objectives[objectiveId].state != PROPOSED { return Err(NotSchedulable); }
      if !Completable(guarding, objectiveId) { return Err(NoGuard); }
      if CompleteOf(w) in commands { return Err(IdentityReused); }
      var version := objectives[objectiveId].version + 1;
      wakes := wakes[w := wakes[w].(state := ACKNOWLEDGED, version := wakes[w].version + 1)];
      objectives := objectives[objectiveId := Objective(SATISFIED, version)];
      r := Ok(CompletedObjective(objectiveId, version));
      var fingerprint := OfCompletion(objectiveId, guarding.guards[objectiveId].effectIds);
      commands := commands[CompleteOf(w) := CommandRow(fingerprint, r.value)];
    }

    method ClaimActivation(commandId: string, c: ClaimRequest, now: int, prior: Option<string>)
      returns (r: Result<Reply, Error>)
      requires IsPrior(Rows(), c.objectiveId, prior)
      modifies this
      ensures (Rows(), r) == Claim(old(Rows()), commandId, c, now, prior)
    {
      var id, w := ByCaller(commandId), c.wakeId;
      if !(1 <= c.leaseSeconds <= 300) { return Err(RequestIncomplete); }
      if id in commands {
        return if commands[id].fingerprint == OfClaim(c) then Ok(commands[id].result) else Err(IdentityReused);
      }
      if !WakeClaimable(Rows(), c, now) { return Err(NotClaimable); }
      if !SystemReady(system) { return Err(SystemUnavailable); }
      if prior.Some? && (prior.value != c.activationId || activations[prior.value].state != Requested
                         || activations[prior.value].lease.wakeId != w)
      {
        return Err(NotReclaimable);
      }
      if prior.None? && c.activationId in activations { return Err(IdentityReused); }
      var binding := NewBinding(Rows(), c, now, prior);
      wakes := wakes[w := wakes[w].(state := LEASED, owner := Some(c.owner), expiresAt := binding.lease.expiresAt,
                                    version := wakes[w].version + 1)];
      Bind(c.activationId, binding);
      r := Ok(Claimed(c.activationId, binding));
      commands := commands[id := CommandRow(OfClaim(c), r.value)];
    }

    method Bind(id: string, binding: Activation)
      modifies this`activations, this`history
      ensures Leases(activations, history) == Bound(old(Leases(activations, history)), id, binding)
    {
      var rows := HistoryOf(Leases(activations, history), id);
      activations := activations[id := binding];
      history := history[id := rows + [BindingRow(binding.version, binding)]];
    }

    method ReleaseRow(id: string)
      requires id in activations && Releasable(Rows(), id)
      modifies this
      ensures Rows() == Release(old(Rows()), id)
    {
      var a, w := activations[id], activations[id].lease.wakeId;
      wakes := wakes[w := wakes[w].(state := RELEASED, owner := None, expiresAt := None, version := wakes[w].version + 1)];
      Bind(id, a.(state := if a.state == WaitingEffect then Failed else Requested, version := a.version + 1,
                  lease := a.lease.(owner := None, expiresAt := None)));
    }

    method Rollback(t: Tables)
      modifies this
      ensures Rows() == t
    {
      objectives, wakes, guarding, commands := t.objectives, t.wakes, t.guarding, t.commands;
      activations, history := t.leases.activations, t.leases.history;
      ledger, system := t.ledger, t.system;
    }

    /** `recover_expired` on the rows its query returned. */
    method RecoverExpired(ids: seq<string>) returns (r: Result<nat, Error>)
      modifies this
      ensures (Rows(), r) == Recover(old(Rows()), ids)
    {
      hide Release, Releasable;
      var previous := Rows();
      for i := 0 to |ids|
        invariant Released(previous, ids) == Released(Rows(), ids[i..])
      {
        assert ids[i..][0] == ids[i] && ids[i..][1..] == ids[i + 1..];
        if ids[i] !in activations || !Releasable(Rows(), ids[i]) {
          Rollback(previous);
          return Err(RecoveryDisagrees);
        }
        ReleaseRow(ids[i]);
      }
      r := Ok(|ids|);
    }

    method CommitActivationCommand(b: Presented, commandId: string, digest: string, result: string, now: int)
      returns (r: Result<string, Error>)
      modifies this`ledger
      ensures (Rows(), r) == CommitCommand(old(Rows()), b, commandId, digest, result, now)
    {
      hide Resolve;
      var resolved := Resolve(Rows(), b, now);
      if resolved.Err? { return Err(resolved.error); }
      var key, fence := (b.activationId, commandId), resolved.value.lease.fence;
      if key in ledger {
        var row := ledger[key];
        return if row.fence != fence then Err(LedgerCorrupt)
               else if row.requestDigest != digest then Err(DigestMismatch(row.result)) else Ok(row.result);
      }
      ledger := ledger[key := LedgerRow(digest, result, fence)];
      r := Ok(result);
    }

    method GuardObjectiveEffects(objectiveId: string, ids: set<string>) returns (r: Result<bool, Error>)
      modifies this
      ensures (Rows(), r) == Guard(old(Rows()), objectiveId, ids)
    {
      if ids == {} || EffectsOf(guarding, objectiveId) != ids { return Err(EffectSetMismatch); }
      var compensated := exists e :: e in ids && guarding.records[e].compensates.Some? && Succeeded(guarding, e);
      var ready := !compensated && AllSucceeded(guarding, ids);
      if compensated && objectiveId in objectives && objectives[objectiveId].state != COMPENSATED {
        objectives := objectives[objectiveId := Objective(COMPENSATED, objectives[objectiveId].version + 1)];
      }
      guarding := guarding.(guards := guarding.guards[objectiveId := GuardRow(ids, ready)]);
      r := Ok(ready);
    }

    method CheckpointRecord(id: string, record: CanonicalRecord) returns (r: Result<(), Error>)
      modifies this`guarding
      ensures (Rows(), r) == SaveRecord(old(Rows()), id, record)
    {
      hide L.Terminal, Compensable;
      if id in guarding.records {
        if guarding.records[id] == record { return Ok(()); }
        if L.Terminal(guarding.records[id].state) { return Err(TerminalIsImmutable); }
      }
      if record.compensates.Some? {
        if !Compensable(Rows(), record.objectiveId, record.compensates.value) { return Err(CompensationPrecondition); }
        if record.objectiveId !in guarding.guards { return Err(NoGuard); }
        var guard := guarding.guards[record.objectiveId].(ready := false);
        guarding := guarding.(guards := guarding.guards[record.objectiveId := guard]);
      }
      guarding := guarding.(records := guarding.records[id := record]);
      r := Ok(());
    }
  }
}
