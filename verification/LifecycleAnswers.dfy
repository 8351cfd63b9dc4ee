/** What each operation on the work tables achieves: when it is accepted, what it
    leaves row by row, and which later operation it makes possible. */
module LifecycleAnswers {
  import opened Contracts
  import opened Lifecycle
  import L = EffectLedger
  import P = EffectProjection

  /** Nothing but these parts of the tables has changed. */
  ghost predicate OnlyObjectiveAndWake(t: Tables, t': Tables, objectiveId: string, w: WakeId)
  {
    && t'.leases == t.leases && t'.guarding == t.guarding && t'.ledger == t.ledger && t'.system == t.system
    && (forall o :: o != objectiveId ==> (o in t'.objectives <==> o in t.objectives)
                                          && (o in t.objectives ==> t'.objectives[o] == t.objectives[o]))
    && (forall x :: x != w ==> (x in t'.wakes <==> x in t.wakes) && (x in t.wakes ==> t'.wakes[x] == t.wakes[x]))
  }

  /******* From scheduling to completion or denial *******/

  /** A new objective is proposed with a wake that is due from now on. */
  lemma ScheduleExactly(t: Tables, objectiveId: string, now: int)
    requires ScheduleOf(objectiveId) !in t.commands
    ensures var (t', r) := Schedule(t, objectiveId, now);
            && (r.Ok? <==> objectiveId !in t.objectives && WakeOf(objectiveId) !in t.wakes)
            && (r.Err? ==> t' == t)
            && (r.Ok? ==>
                  && OnlyObjectiveAndWake(t, t', objectiveId, WakeOf(objectiveId))
                  && objectiveId in t'.objectives && t'.objectives[objectiveId] == Objective(PROPOSED, 1)
                  && WakeOf(objectiveId) in t'.wakes && t'.wakes[WakeOf(objectiveId)].objectiveId == objectiveId
                  && (forall later :: Due(t'.wakes[WakeOf(objectiveId)], later) <==> now <= later)
                  && forall later :: Schedule(t', objectiveId, later) == (t', r))
  {
  }

  /** A proposed objective with a wake still open is cancelled, and never again
      proposed for a tick. */
  lemma DenyExactly(t: Tables, objectiveId: string, now: int)
    requires DenyOf(objectiveId) !in t.commands
    ensures var (t', r) := Deny(t, objectiveId);
            var w := WakeOf(objectiveId);
            && (r.Ok? <==>
                  && objectiveId in t.objectives && t.objectives[objectiveId].state == PROPOSED
                  && w in t.wakes && t.wakes[w].state in {PENDING, RELEASED, LEASED})
            && (r.Err? ==> t' == t)
            && (r.Ok? ==>
                  && OnlyObjectiveAndWake(t, t', objectiveId, w)
                  && t'.objectives[objectiveId] == Objective(CANCELLED, t.objectives[objectiveId].version + 1)
                  && w in t'.wakes && !Due(t'.wakes[w], now) && t'.wakes[w].objectiveId == t.wakes[w].objectiveId
                  && Deny(t', objectiveId) == (t', r))
  {
  }

  /** Every effect projected and on record for the objective, and no other. */
  ghost predicate IsEffectSet(g: Guarding, objectiveId: string, ids: set<string>)
  {
    forall e :: e in ids <==> e in g.effects && e in g.records && g.effects[e].objectiveId == objectiveId
  }

  /** Committed by the projection, and on record as observed or resolved to have
      succeeded. */
  predicate DoneWell(g: Guarding, e: string)
  {
    && e in g.effects && g.effects[e].state == P.ProjectedState.Committed
    && e in g.records && g.records[e].state in {L.ObservedSucceeded, L.ResolvedSucceeded}
  }

  /** A guard is ready exactly when the set is the objective's own and not empty,
      all of it was done well, and none of it undoes another; once a compensation
      was done well the objective is compensated. */
  lemma GuardExactly(t: Tables, objectiveId: string, ids: set<string>)
    ensures var (t', r) := Guard(t, objectiveId, ids);
            var g := t.guarding;
            var undone := exists e :: e in ids && DoneWell(g, e) && g.records[e].compensates != None;
            && (r.Ok? <==> ids != {} && IsEffectSet(g, objectiveId, ids))
            && (r.Err? ==> t' == t)
            && (r.Ok? ==>
                  && (r.value <==> (forall e :: e in ids ==> DoneWell(g, e)) && !undone)
                  && t'.guarding == g.(guards := g.guards[objectiveId := GuardRow(ids, r.value)])
                  && t'.objectives == (if undone && objectiveId in t.objectives && t.objectives[objectiveId].state != COMPENSATED
                                       then t.objectives[objectiveId := Objective(COMPENSATED, t.objectives[objectiveId].version + 1)]
                                       else t.objectives)
                  && t'.wakes == t.wakes && t'.leases == t.leases && t'.commands == t.commands
                  && t'.ledger == t.ledger && t'.system == t.system)
  {
    var g := t.guarding;
    assert IsEffectSet(g, objectiveId, ids) <==> EffectsOf(g, objectiveId) == ids;
    if EffectsOf(g, objectiveId) == ids {
      forall e | e in ids ensures DoneWell(g, e) <==> Succeeded(g, e) {}
    }
  }

  /** The tick satisfies a proposed objective exactly when its guard is ready and
      still of its whole effect set, all of it done well. */
  lemma TickExactly(t: Tables, w: WakeId, now: int)
    requires w in t.wakes && Due(t.wakes[w], now)
    ensures var (t', r) := Tick(t, w, now);
            var objectiveId, g := t.wakes[w].objectiveId, t.guarding;
            && (r.Ok? <==>
                  && objectiveId in t.objectives && t.objectives[objectiveId].state == PROPOSED
                  && objectiveId in g.guards && g.guards[objectiveId].ready && g.guards[objectiveId].effectIds != {}
                  && IsEffectSet(g, objectiveId, g.guards[objectiveId].effectIds)
                  && (forall e :: e in g.guards[objectiveId].effectIds ==> DoneWell(g, e))
                  && CompleteOf(w) !in t.commands)
            && (r.Err? ==> t' == t)
            && (r.Ok? ==>
                  && OnlyObjectiveAndWake(t, t', objectiveId, w)
                  && t'.objectives[objectiveId] == Objective(SATISFIED, t.objectives[objectiveId].version + 1)
                  && w in t'.wakes && t'.wakes[w].state == ACKNOWLEDGED
                  && (forall later :: !Due(t'.wakes[w], later)))
  {
    var objectiveId, g := t.wakes[w].objectiveId, t.guarding;
    if objectiveId in g.guards {
      var ids := g.guards[objectiveId].effectIds;
      assert IsEffectSet(g, objectiveId, ids) <==> ids == EffectsOf(g, objectiveId);
      if ids == EffectsOf(g, objectiveId) { forall e | e in ids ensures DoneWell(g, e) <==> Succeeded(g, e) {} }
    }
  }

  /** So a guard taken over the whole set completes a proposed objective at the next
      due wake exactly when it came out ready. */
  lemma GuardedIsCompleted(t: Tables, objectiveId: string, ids: set<string>, w: WakeId, now: int)
    requires Guard(t, objectiveId, ids).1.Ok?
    requires objectiveId in t.objectives && t.objectives[objectiveId].state == PROPOSED
    requires w in t.wakes && Due(t.wakes[w], now) && t.wakes[w].objectiveId == objectiveId && CompleteOf(w) !in t.commands
    ensures var (t', ready) := Guard(t, objectiveId, ids);
            Tick(t', w, now).1.Ok? <==> ready.value
  {
    GuardExactly(t, objectiveId, ids);
    var t' := Guard(t, objectiveId, ids).0;
    TickExactly(t', w, now);
    hide Guard, Tick, DoneWell;
    assert IsEffectSet(t'.guarding, objectiveId, ids) <==> IsEffectSet(t.guarding, objectiveId, ids);
    assert forall e :: DoneWell(t'.guarding, e) <==> DoneWell(t.guarding, e) by { SameDone(t.guarding, t'.guarding); }
  }

  lemma SameDone(g: Guarding, g': Guarding)
    requires g'.effects == g.effects && g'.records == g.records
    ensures forall e :: DoneWell(g', e) <==> DoneWell(g, e)
  {
  }

  /******* From a claim to its commands *******/

  /** The objective is proposed, and its wake is open and due. */
  predicate Open(t: Tables, c: ClaimRequest, now: int)
  {
    && c.objectiveId in t.objectives && t.objectives[c.objectiveId].state == PROPOSED
    && c.wakeId in t.wakes && t.wakes[c.wakeId].objectiveId == c.objectiveId
    && t.wakes[c.wakeId].state in {PENDING, RELEASED} && t.wakes[c.wakeId].dueAt <= now
  }

  /** The activation is new, or was given back and is taken up again under the same
      wake. */
  predicate Available(t: Tables, c: ClaimRequest, prior: Option<string>)
  {
    match prior
    case None => c.activationId !in t.leases.activations
    case Some(a) =>
      && a == c.activationId && a in t.leases.activations
      && t.leases.activations[a].state == Requested && t.leases.activations[a].lease.wakeId == c.wakeId
  }

  function FenceOf(t: Tables, prior: Option<string>): nat
  {
    if prior.Some? && prior.value in t.leases.activations then t.leases.activations[prior.value].lease.fence else 0
  }

  /** A claim under a new command is granted exactly for an open wake, an available
      activation and a bound system; it hands the caller the next fence until the
      lease runs out, in the caller's name, for the caller's credential. */
  lemma ClaimExactly(t: Tables, commandId: string, c: ClaimRequest, now: int, prior: Option<string>)
    requires IsPrior(t, c.objectiveId, prior) && ByCaller(commandId) !in t.commands
    ensures var (t', r) := Claim(t, commandId, c, now, prior);
            && (r.Ok? <==>
                  && 1 <= c.leaseSeconds <= 300 && Open(t, c, now) && Available(t, c, prior)
                  && t.system.generation.Some? && t.system.capabilitySet.Some?
                  && t.system.capabilitySet.value.generation == t.system.generation.value)
            && (r.Err? ==> t' == t)
            && (r.Ok? ==>
                  && r.value.Claimed? && r.value.activationId == c.activationId
                  && var a := r.value.binding;
                    && a.objectiveId == c.objectiveId && a.state == Leased && a.credentialDigest == c.holder.credentialDigest
                    && a.scope.machineId == c.holder.machineId && a.scope.agentId == c.holder.agentId
                    && a.scope.traceId == c.holder.traceId
                    && Some(a.scope.generation) == t.system.generation
                    && a.scope.capabilitySet == t.system.capabilitySet.value.id
                    && a.lease.wakeId == c.wakeId && a.lease.owner == Some(c.owner)
                    && a.lease.expiresAt == Some(now + c.leaseSeconds) && a.lease.deadline == now + c.leaseSeconds
                    && a.lease.fence == FenceOf(t, prior) + 1
                    && t'.leases.activations == t.leases.activations[c.activationId := a]
                    && t'.leases.history == t.leases.history[c.activationId :=
                         HistoryOf(t.leases, c.activationId) + [BindingRow(a.version, a)]]
                    && c.wakeId in t'.wakes && t'.wakes[c.wakeId].state == LEASED
                    && t'.wakes[c.wakeId].owner == Some(c.owner) && t'.wakes[c.wakeId].expiresAt == Some(now + c.leaseSeconds)
                    && (forall w :: w != c.wakeId && w in t.wakes ==> w in t'.wakes && t'.wakes[w] == t.wakes[w])
                    && t'.objectives == t.objectives && t'.guarding == t.guarding && t'.ledger == t.ledger && t'.system == t.system)
  {
  }

  /** What its holder presents. */
  function Ticket(activationId: string, a: Activation): Presented
  {
    Presented(activationId, a.objectiveId, a.lease.fence, a.lease.deadline, a.scope, a.credentialDigest)
  }

  /** An activation resolves exactly for what was handed out with its claim, while
      it is live, its lease runs, and the system is bound as it was; the deadline
      presented may be earlier. */
  lemma ResolveExactly(t: Tables, b: Presented, now: int)
    ensures Resolve(t, b, now).Ok? <==>
              && b.activationId in t.leases.activations
              && var a := t.leases.activations[b.activationId];
                && b == Ticket(b.activationId, a).(deadline := b.deadline)
                && 1 <= b.fence <= U64_MAX && 1 <= b.deadline && now < b.deadline <= a.lease.deadline
                && a.lease.expiresAt.Some? && now < a.lease.expiresAt.value
                && a.state in {Leased, Preparing, Running, WaitingContext, WaitingEffect, Sleeping}
                && t.system.generation == Some(a.scope.generation)
                && t.system.capabilitySet.Some? && t.system.capabilitySet.value.id == a.scope.capabilitySet
    ensures Resolve(t, b, now).Ok? ==> Resolve(t, b, now).value == t.leases.activations[b.activationId]
  {
  }

  /** Whoever claimed can present the claim until the lease runs out, and not after;
      under any other credential, holder or fence it is worth nothing. */
  lemma ClaimResolves(t: Tables, commandId: string, c: ClaimRequest, now: int, prior: Option<string>, later: int, b: Presented)
    requires IsPrior(t, c.objectiveId, prior) && ByCaller(commandId) !in t.commands
    requires Claim(t, commandId, c, now, prior).1.Ok? && 1 <= now && FenceOf(t, prior) < U64_MAX
    requires b.activationId == c.activationId
    ensures var (t', r) := Claim(t, commandId, c, now, prior);
            var ticket := Ticket(c.activationId, r.value.binding);
            && (Resolve(t', ticket, later) == Ok(r.value.binding) <==> later < now + c.leaseSeconds)
            && (b.(deadline := ticket.deadline) != ticket ==> Resolve(t', b, later).Err?)
  {
    ClaimExactly(t, commandId, c, now, prior);
    var (t', r) := Claim(t, commandId, c, now, prior);
    ResolveExactly(t', Ticket(c.activationId, r.value.binding), later);
    ResolveExactly(t', b, later);
    hide Claim, Resolve;
  }

  /** A command under a resolved activation is committed once: the first result
      stands for that command, digest and fence, and whatever else is asked under
      its identity is told so. */
  lemma CommitExactly(t: Tables, b: Presented, commandId: string, digest: string, result: string, now: int,
                      digest': string, result': string)
    requires (b.activationId, commandId) !in t.ledger
    ensures var (t', r) := CommitCommand(t, b, commandId, digest, result, now);
            var key := (b.activationId, commandId);
            && (r.Ok? <==> Resolve(t, b, now).Ok?)
            && (r.Err? ==> t' == t)
            && (r.Ok? ==>
                  && r.value == result
                  && t' == t.(ledger := t'.ledger)
                  && t'.ledger.Keys == t.ledger.Keys + {key}
                  && (forall k :: k in t.ledger ==> t'.ledger[k] == t.ledger[k])
                  && t'.ledger[key].result == result && t'.ledger[key].requestDigest == digest && t'.ledger[key].fence == b.fence
                  && CommitCommand(t', b, commandId, digest', result', now) ==
                     (t', if digest' == digest then Ok(result) else Err(DigestMismatch(result))))
  {
    ResolveExactly(t, b, now);
    var t' := CommitCommand(t, b, commandId, digest, result, now).0;
    ResolveExactly(t', b, now);
    hide Resolve;
  }

  /******* Checkpointed records *******/

  /** A record is taken unless another, ended one stands, or it is a compensation
      whose original is not a committed effect of a live, guarded objective; a
      compensation makes the guard not ready. */
  lemma SaveRecordExactly(t: Tables, id: string, r: CanonicalRecord)
    ensures var (t', answer) := SaveRecord(t, id, r);
            var g := t.guarding;
            var known := id in g.records && g.records[id] == r;
            && (answer.Ok? <==>
                  || known
                  || (&& (id in g.records ==> g.records[id].state in {L.Reserved, L.Executing, L.OutcomeUnknown, L.Reconciling})
                      && (r.compensates.Some? ==>
                            && r.objectiveId in t.objectives && t.objectives[r.objectiveId].state in {PROPOSED, SATISFIED}
                            && r.compensates.value in g.effects
                            && g.effects[r.compensates.value].objectiveId == r.objectiveId
                            && g.effects[r.compensates.value].state == P.ProjectedState.Committed
                            && r.objectiveId in g.guards)))
            && (answer.Err? || known ==> t' == t)
            && (answer.Ok? ==>
                  && t'.guarding.records == g.records[id := r]
                  && t' == t.(guarding := t'.guarding)
                  && t'.guarding.effects == g.effects && t'.guarding.log == g.log && t'.guarding.transitions == g.transitions
                  && t'.guarding.guards.Keys == g.guards.Keys
                  && (forall o :: o in g.guards ==>
                        t'.guarding.guards[o] == if !known && r.compensates.Some? && o == r.objectiveId
                                                 then GuardRow(g.guards[o].effectIds, false) else g.guards[o]))
  {
    var g := t.guarding;
    if id in g.records {
      assert L.Terminal(g.records[id].state) <==> g.records[id].state !in {L.Reserved, L.Executing, L.OutcomeUnknown, L.Reconciling};
    }
  }

  /** A guard is taken back only for a committed effect of its objective; its set
      stays. */
  lemma InvalidateExactly(t: Tables, objectiveId: string, original: string)
    ensures var (t', r) := Invalidate(t, objectiveId, original);
            var g := t.guarding;
            && (r.Ok? <==>
                  && original in g.effects && g.effects[original].objectiveId == objectiveId
                  && g.effects[original].state == P.ProjectedState.Committed && objectiveId in g.guards)
            && (r.Err? ==> t' == t)
            && (r.Ok? ==>
                  && t' == t.(guarding := g.(guards := t'.guarding.guards)) && t'.guarding.guards.Keys == g.guards.Keys
                  && t'.guarding.guards[objectiveId] == GuardRow(g.guards[objectiveId].effectIds, false)
                  && forall o :: o in g.guards && o != objectiveId ==> t'.guarding.guards[o] == g.guards[o])
  {
  }

  /******* Given back and taken up again *******/

  /** Recovering one expired lease keeps the activation's fence, frees its wake, and
      leaves it to be requested again, unless it was waiting for an effect. */
  lemma ReleaseExactly(t: Tables, id: string)
    requires id in t.leases.activations && HistoryOf(t.leases, id) != []
    ensures var (t', r) := Recover(t, [id]);
            var a := t.leases.activations[id];
            var w := a.lease.wakeId;
            && (r.Ok? <==> w in t.wakes && t.wakes[w].state == LEASED && t.wakes[w].owner == a.lease.owner)
            && (r.Err? ==> t' == t)
            && (r.Ok? ==>
                  && id in t'.leases.activations
                  && var b := t'.leases.activations[id];
                    && b.state == (if a.state == WaitingEffect then Failed else Requested)
                    && b.lease.fence == a.lease.fence && b.lease.wakeId == w && b.lease.owner == None && b.lease.expiresAt == None
                    && b.objectiveId == a.objectiveId && b.scope == a.scope && b.credentialDigest == a.credentialDigest
                    && t'.leases.activations == t.leases.activations[id := b]
                    && w in t'.wakes && t'.wakes[w].state == RELEASED && t'.wakes[w].owner == None && t'.wakes[w].dueAt == t.wakes[w].dueAt
                    && t'.wakes[w].objectiveId == t.wakes[w].objectiveId
                    && (forall x :: x in t.wakes && x != w ==> x in t'.wakes && t'.wakes[x] == t.wakes[x])
                    && t'.objectives == t.objectives && t'.guarding == t.guarding && t'.ledger == t.ledger && t'.system == t.system)
  {
    if Releasable(t, id) { assert [id][1..] == []; assert Released(Release(t, id), []) == Some(Release(t, id)); }
    assert Released(t, [id]) == if Releasable(t, id) then Released(Release(t, id), [id][1..]) else None;
  }

  /** So whoever next claims the objective, once its lease has been recovered, holds
      the following fence, and the holder before presents a claim that is worth
      nothing. */
  lemma ReclaimSupersedes(t: Tables, id: string, commandId: string, c: ClaimRequest, now: int, later: int)
    requires id in t.leases.activations && HistoryOf(t.leases, id) != [] && Recover(t, [id]).1.Ok?
    requires c.activationId == id && t.leases.activations[id].objectiveId == c.objectiveId
    requires IsPrior(Recover(t, [id]).0, c.objectiveId, Some(id)) && ByCaller(commandId) !in Recover(t, [id]).0.commands
    requires Claim(Recover(t, [id]).0, commandId, c, now, Some(id)).1.Ok?
    ensures var before := t.leases.activations[id];
            var (t', r) := Claim(Recover(t, [id]).0, commandId, c, now, Some(id));
            && r.value.binding.lease.fence == before.lease.fence + 1
            && Resolve(t', Ticket(id, before), later).Err?
  {
    ReleaseExactly(t, id);
    var released := Recover(t, [id]).0;
    ClaimExactly(released, commandId, c, now, Some(id));
    var t' := Claim(released, commandId, c, now, Some(id)).0;
    ResolveExactly(t', Ticket(id, t.leases.activations[id]), later);
    hide Claim, Resolve, Recover;
  }
}
