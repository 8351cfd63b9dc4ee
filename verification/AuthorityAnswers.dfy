/** What each request to authority achieves: exactly when it is answered with
    authorization, what that leaves on record, and what later requests find. */
module AuthorityAnswers {
  import opened Contracts
  import opened Grants
  import opened AuthorityStore
  import opened AuthorityRuns

  /******* Entitlement *******/

  /** The grant covers the request, field by field, at this time. */
  predicate Covers(g: RuntimeGrant, rq: RuntimeAuthorityRequest, now: nat)
  {
    && g.machineId == rq.machineId && g.serviceId == rq.serviceId && g.activationId == rq.activationId
    && g.capability == rq.capability && g.operation == rq.operation
    && |g.targetPrefix| <= |rq.target| && rq.target[..|g.targetPrefix|] == g.targetPrefix
    && g.generation == rq.generation && g.stateVersion == rq.stateVersion
    && g.notBefore <= now && now < g.expiresAt
  }

  /** Well typed, named, and at most thirty seconds old. */
  predicate Presented(rq: RuntimeAuthorityRequest, now: nat)
  {
    && rq.schemaVersion == V2_0 && |rq.requestId| > 0 && |rq.target| > 0
    && rq.machineId.Machine? && rq.serviceId.Service? && rq.activationId.Activation?
    && rq.generation.Generation? && rq.stateVersion.StateVersion?
    && |rq.objectiveId| > 0 && rq.objectiveId[0] == ObjectiveTag
    && rq.capability != OtherCapability("") && rq.operation != OtherOperation("")
    && (rq.serviceId == rq.callerServiceId
        || (rq.callerServiceId == Service(Effects) && rq.serviceId == Service(Runtime) && rq.capability == RuntimeEffect))
    && rq.requestedAt <= now <= rq.requestedAt + 30
  }

  /** Every member of the chain is a known grant that covers the request. */
  predicate Entitled(s: Store, rq: RuntimeAuthorityRequest, now: nat, chain: seq<string>)
  {
    && Presented(rq, now) && chain != []
    && forall i :: 0 <= i < |chain| ==> chain[i] in s.config.grants && Covers(s.config.grants[chain[i]], rq, now)
  }

  /** Nothing of the chain revoked, and the request made under the present state. */
  predicate Standing(s: Store, rq: RuntimeAuthorityRequest, chain: seq<string>)
  {
    rq.stateVersion == s.config.stateVersion && forall i :: 0 <= i < |chain| ==> chain[i] !in s.revocation.revoked
  }

  /** Some presented request is selected exactly when a grant covers it, and then
      its whole chain does. */
  lemma SelectedIsEntitled(s: Store, rq: RuntimeAuthorityRequest, now: nat, choice: Option<string>)
    requires ValidTable(s.config.grants) && IsChoice(s.config.grants, rq, now, choice)
    ensures choice.Some? <==> Presented(rq, now) && exists id :: id in s.config.grants && Covers(s.config.grants[id], rq, now)
    ensures choice.Some? ==> choice.value in s.config.grants && Entitled(s, rq, now, Chain(s.config.grants, choice.value))
  {
    var m := s.config.grants;
    hide ValidTable;
    forall id | id in m ensures Matches(m[id], rq, now) <==> Covers(m[id], rq, now) {}
    if choice.Some? {
      assert Covers(m[choice.value], rq, now);
      DelegationAttenuates(m, choice.value, rq, now);
    }
  }

  /******* PREPARE, COMMIT, STATUS, ABORT, EVALUATE *******/

  /** Room under every grant of the chain for one more effect. */
  predicate Roomy(s: Store, chain: seq<string>)
  {
    forall i :: 0 <= i < |chain| && chain[i] in s.config.grants ==>
      Usage(s.quota.usage, chain[i]) + PreparedUnder(s, chain[i]) < s.config.grants[chain[i]].quota
  }

  /** The decision that authorizes: who asked what of whom, when, under which grant,
      chain, epoch and configuration. */
  function Granted(s: Store, rq: RuntimeAuthorityRequest, broker: Identity, choice: Option<string>, now: nat, phase: Phase): Decision
    requires ValidTable(s.config.grants)
  {
    Decision(rq, broker, true, AUTHORIZED, choice, now, s.revocation.epoch, phase,
             if choice.Some? then Chain(s.config.grants, choice.value) else [], s.config.digest)
  }

  /** PREPARE authorizes a request exactly when it is entitled and standing, and
      either already reserved as it is or new with room for it; a new one gets
      an open reservation under the present epoch, and nothing else moves. */
  lemma PrepareExactly(s: Store, rq: RuntimeAuthorityRequest, now: nat, choice: Option<string>)
    requires WellFormed(s) && IsChoice(s.config.grants, rq, now, choice)
    ensures var e := Prepare(rq, now, choice);
            var chain := if choice.Some? then Chain(s.config.grants, choice.value) else [];
            && Enabled(s, e) && Answer(s, e).Some?
            && Answer(s, e).value.request == rq && Answer(s, e).value.brokerServiceId == Service(Effects)
            && (Authorizes(s, e) <==>
                  && choice.Some? && Standing(s, rq, chain)
                  && (if rq.requestId in s.effects then s.effects[rq.requestId].requestDigest == RequestDigest(rq)
                      else Roomy(s, chain)))
            && (Authorizes(s, e) ==> Answer(s, e).value == Granted(s, rq, Service(Effects), choice, now, PREPARE))
            && Step(s, e).effects ==
                 (if Authorizes(s, e) && rq.requestId !in s.effects
                  then s.effects[rq.requestId := Reservation(RequestDigest(rq), chain, s.revocation.epoch, s.config.digest,
                                                             s.config.stateVersion, now, None, false)]
                  else s.effects)
            && Step(s, e).quota == s.quota && Step(s, e).revocation == s.revocation && Step(s, e).config == s.config
  {
    ChosenChainIsKnown(s.config.grants, rq, now, choice);
    hide ValidTable, IsChoice;
  }

  /** COMMIT authorizes exactly for the identical request on record, bound to no
      other effect, under the same chain, epoch and configuration as when it was
      prepared; the reservation is then committed to this effect, and each member
      of its chain charged once, the first time. */
  lemma CommitExactly(s: Store, rq: RuntimeAuthorityRequest, effectId: Text, now: nat, choice: Option<string>)
    requires WellFormed(s) && IsChoice(s.config.grants, rq, now, choice)
    ensures var e := CommitEffect(rq, effectId, now, choice);
            var k := rq.requestId;
            && Enabled(s, e) && Answer(s, e).Some? && Answer(s, e).value.request == rq
            && Answer(s, e).value.brokerServiceId == Service(Effects)
            && (Authorizes(s, e) <==>
                  && k in s.effects && |effectId| > 0 && effectId[0] == EffectTag
                  && choice.Some? && Standing(s, rq, s.effects[k].chain)
                  && s.effects[k].chain == Chain(s.config.grants, choice.value)
                  && s.effects[k].requestDigest == RequestDigest(rq)
                  && (s.effects[k].effectId == None || s.effects[k].effectId == Some(effectId))
                  && s.effects[k].revocationEpoch == s.revocation.epoch
                  && s.effects[k].configurationDigest == s.config.digest
                  && s.effects[k].stateVersion == s.config.stateVersion)
            && (Authorizes(s, e) ==> Answer(s, e).value == Granted(s, rq, Service(Effects), choice, now, COMMIT))
            && Step(s, e).effects ==
                 (if Authorizes(s, e) then s.effects[k := s.effects[k].(effectId := Some(effectId), committed := true)] else s.effects)
            && (forall id :: Usage(Step(s, e).quota.usage, id) ==
                  Usage(s.quota.usage, id) + One(Authorizes(s, e) && !s.effects[k].committed && id in s.effects[k].chain))
            && Step(s, e).quota.reservations == s.quota.reservations
            && Step(s, e).revocation == s.revocation && Step(s, e).config == s.config
  {
    hide ValidTable, IsChoice, Chain;
    var e := CommitEffect(rq, effectId, now, choice);
    var k := rq.requestId;
    if Committable(s, rq, effectId, choice) {
      assert Authorizes(s, e);
      if s.effects[k].committed {
        assert s.effects[k].(effectId := Some(effectId), committed := true) == s.effects[k];
      }
    } else {
      assert !Authorizes(s, e);
    }
  }

  /** STATUS changes nothing and tells the truth about the reservation: AUTHORIZED
      when it is committed to this effect under the present epoch and
      configuration, PREPARED when it is open. */
  lemma StatusExactly(s: Store, rq: RuntimeAuthorityRequest, effectId: Text, now: nat, choice: Option<string>)
    requires WellFormed(s) && IsChoice(s.config.grants, rq, now, choice)
    ensures var e := Status(rq, effectId, now, choice);
            var k := rq.requestId;
            && Enabled(s, e) && Answer(s, e).Some? && Answer(s, e).value.request == rq
            && Answer(s, e).value.brokerServiceId == Service(Effects)
            && (Authorizes(s, e) <==>
                  && BoundTo(s, k, RequestDigest(rq), effectId)
                  && s.effects[k].revocationEpoch == s.revocation.epoch
                  && s.effects[k].configurationDigest == s.config.digest
                  && s.effects[k].stateVersion == s.config.stateVersion)
            && (Answer(s, e).value.code == PREPARED <==>
                  k in s.effects && s.effects[k].requestDigest == RequestDigest(rq) && !s.effects[k].committed)
            && Answer(s, e).value.code in {AUTHORIZED, PREPARED, UNAUTHORIZED}
            && Step(s, e) == s.(log := Step(s, e).log)
  {
    hide ValidTable, IsChoice, Chain;
  }

  /** ABORT answers ABORTED unless the identity is taken by another request or a
      commitment, and then the identity holds no reservation; quota is not
      charged or refunded. */
  lemma AbortExactly(s: Store, rq: RuntimeAuthorityRequest, choice: Option<string>)
    requires WellFormed(s) && IsChoice(s.config.grants, rq, rq.requestedAt, choice)
    ensures var e := Abort(rq, choice);
            var k := rq.requestId;
            && Enabled(s, e) && Answer(s, e).Some? && Answer(s, e).value.request == rq
            && (Answer(s, e).value.code == ABORTED <==>
                  k in s.effects ==> s.effects[k].requestDigest == RequestDigest(rq) && !s.effects[k].committed)
            && !Authorizes(s, e)
            && (forall x :: x in Step(s, e).effects <==> x in s.effects && !(x == k && Answer(s, e).value.code == ABORTED))
            && (forall x :: x in Step(s, e).effects ==> Step(s, e).effects[x] == s.effects[x])
            && Step(s, e).quota == s.quota && Step(s, e).revocation == s.revocation && Step(s, e).config == s.config
  {
    hide ValidTable, IsChoice, Chain;
  }

  /** EVALUATE authorizes exactly an entitled, standing request whose identity no
      other request has, and charges its chain once, while every member has quota
      left. */
  lemma EvaluateExactly(s: Store, rq: RuntimeAuthorityRequest, now: nat, choice: Option<string>)
    requires WellFormed(s) && IsChoice(s.config.grants, rq, now, choice)
    ensures var e := Evaluate(rq, now, choice);
            var k := rq.requestId;
            var chain := if choice.Some? then Chain(s.config.grants, choice.value) else [];
            && Enabled(s, e) && Answer(s, e).Some? && Answer(s, e).value.request == rq
            && (Authorizes(s, e) <==>
                  && (k in s.log.byRequest ==> s.log.byRequest[k].requestDigest == RequestDigest(rq))
                  && choice.Some? && Standing(s, rq, chain)
                  && (if k in s.quota.reservations then s.quota.reservations[k] == chain
                      else forall i :: 0 <= i < |chain| && chain[i] in s.config.grants ==>
                             Usage(s.quota.usage, chain[i]) < s.config.grants[chain[i]].quota))
            && (Authorizes(s, e) ==> Answer(s, e).value == Granted(s, rq, rq.callerServiceId, choice, now, EVALUATE))
            && (forall id :: Usage(Step(s, e).quota.usage, id) ==
                  Usage(s.quota.usage, id) + One(Authorizes(s, e) && k !in s.quota.reservations && id in chain))
            && Step(s, e).quota.reservations ==
                 (if Authorizes(s, e) then s.quota.reservations[k := chain] else s.quota.reservations)
            && Step(s, e).effects == s.effects && Step(s, e).revocation == s.revocation && Step(s, e).config == s.config
  {
    ChosenChainIsKnown(s.config.grants, rq, now, choice);
    hide ValidTable, IsChoice, Chain;
  }

  /** Reaping takes exactly the open reservations prepared thirty seconds ago or
      more. */
  lemma ReapExactly(s: Store, now: nat, k: string)
    requires k in s.effects
    ensures k in ReapStep(s, now).effects <==>
              s.effects[k].committed || s.effects[k].preparedAt == 0 || (now < s.effects[k].preparedAt + 30 && now < U64_MAX)
    ensures k in ReapStep(s, now).effects ==> ReapStep(s, now).effects[k] == s.effects[k]
  {
  }

  /******* What becomes of a reservation *******/

  /** The only ways out: an ABORT of the same request, and reaping after thirty
      seconds.  Commitments have no way out. */
  predicate Leaves(s: Store, e: Event, k: string)
    requires k in s.effects
  {
    && !s.effects[k].committed
    && (|| (e.Abort? && e.rq.requestId == k && s.effects[k].requestDigest == RequestDigest(e.rq))
        || (e.Reap? && s.effects[k].preparedAt != 0 && (s.effects[k].preparedAt + 30 <= e.now || U64_MAX <= e.now)))
  }

  /** Each request leaves a reservation as it is, drops it, or commits it. */
  lemma ReservationFate(s: Store, e: Event, k: string)
    requires WellFormed(s) && Enabled(s, e) && k in s.effects
    ensures k in Step(s, e).effects <==> !Leaves(s, e, k)
    ensures k in Step(s, e).effects ==>
              Step(s, e).effects[k] ==
              if e.CommitEffect? && e.rq.requestId == k && Authorizes(s, e)
              then s.effects[k].(effectId := Some(e.effectId), committed := true) else s.effects[k]
  {
    hide WellFormed, ValidTable, IsChoice, Step, Answer, Authorizes, Standing, Roomy, BoundTo;
    EnabledChoice(s, e);
    match e
    case Evaluate(rq, now, choice) => EvaluateExactly(s, rq, now, choice);
    case Prepare(rq, now, choice) => PrepareExactly(s, rq, now, choice);
    case CommitEffect(rq, effectId, now, choice) => CommitExactly(s, rq, effectId, now, choice);
    case Abort(rq, choice) => AbortExactly(s, rq, choice);
    case Status(rq, effectId, now, choice) => StatusExactly(s, rq, effectId, now, choice);
    case Reap(now) => ReapExactly(s, now, k); ReapIs(s, now);
    case _ => AdminLeavesEffects(s, e);
  }

  lemma EnabledChoice(s: Store, e: Event)
    requires Enabled(s, e)
    ensures e.Evaluate? || e.Prepare? || e.CommitEffect? || e.Status? ==> IsChoice(s.config.grants, e.rq, e.now, e.choice)
    ensures e.Abort? ==> IsChoice(s.config.grants, e.rq, e.rq.requestedAt, e.choice)
  {
  }

  lemma ReapIs(s: Store, now: nat)
    requires Enabled(s, Reap(now))
    ensures Step(s, Reap(now)) == ReapStep(s, now)
  {
  }

  lemma AdminLeavesEffects(s: Store, e: Event)
    requires Enabled(s, e) && (e.Approve? || e.Administer? || e.Revoke? || e.Rotate? || e.Restart?)
    ensures Step(s, e).effects == s.effects
  {
    if e.Administer? { assert AdminStep(s, e.request, e.approvalId, e.service).0.effects == s.effects; }
  }

  /** A reservation comes about only by a PREPARE that authorizes. */
  lemma ReservationOrigin(s: Store, e: Event, k: string)
    requires WellFormed(s) && Enabled(s, e) && k !in s.effects
    ensures k in Step(s, e).effects <==> e.Prepare? && e.rq.requestId == k && Authorizes(s, e)
  {
    hide WellFormed, ValidTable, IsChoice, Step, Answer, Authorizes, Standing, Roomy, BoundTo;
    EnabledChoice(s, e);
    match e
    case Evaluate(rq, now, choice) => EvaluateExactly(s, rq, now, choice);
    case Prepare(rq, now, choice) => PrepareExactly(s, rq, now, choice);
    case CommitEffect(rq, effectId, now, choice) => CommitExactly(s, rq, effectId, now, choice);
    case Abort(rq, choice) => AbortExactly(s, rq, choice);
    case Status(rq, effectId, now, choice) => StatusExactly(s, rq, effectId, now, choice);
    case Reap(now) => ReapIs(s, now);
    case _ => AdminLeavesEffects(s, e);
  }

  /******* What an ABORT achieves *******/

  predicate AnswersAborted(s: Store, e: Event)
    requires Enabled(s, e)
  {
    e.Abort? && Answer(s, e).Some? && Answer(s, e).value.code == ABORTED
  }

  /** The identity of an aborted request holds no reservation, until a later
      PREPARE of that identity: STATUS never finds it PREPARED or AUTHORIZED, and
      no COMMIT of it is authorized. */
  lemma AbortedIsGone(states: seq<Store>, events: seq<Event>, i: nat, n: nat)
    requires IsRun(states, events) && i < n < |states| && WellFormed(states[0])
    requires Enabled(states[i], events[i]) && AnswersAborted(states[i], events[i])
    requires forall j :: i < j < n && events[j].Prepare? ==> events[j].rq.requestId != events[i].rq.requestId
    ensures events[i].rq.requestId !in states[n].effects
    ensures forall effectId, now, choice ::
              var status := Status(events[i].rq, effectId, now, choice);
              Enabled(states[n], status) ==> Answer(states[n], status).value.code == UNAUTHORIZED
    ensures forall rq, effectId, now, choice ::
              var commit := CommitEffect(rq, effectId, now, choice);
              rq.requestId == events[i].rq.requestId && Enabled(states[n], commit) ==> !Authorizes(states[n], commit)
  {
    StaysGone(states, events, i, n);
    StaysWellFormed(states, events, n);
    NothingToStandOn(states[n], events[i].rq);
  }

  lemma {:induction false} StaysWellFormed(states: seq<Store>, events: seq<Event>, n: nat)
    requires IsRun(states, events) && n < |states| && WellFormed(states[0])
    ensures WellFormed(states[n])
  {
    if n > 0 {
      StaysWellFormed(states, events, n - 1);
      hide WellFormed, Enabled, Step;
      StepWellFormed(states[n - 1], events[n - 1]);
    }
  }

  lemma {:induction false} StaysGone(states: seq<Store>, events: seq<Event>, i: nat, n: nat)
    requires IsRun(states, events) && i < n < |states| && WellFormed(states[0])
    requires Enabled(states[i], events[i]) && AnswersAborted(states[i], events[i])
    requires forall j :: i < j < n && events[j].Prepare? ==> events[j].rq.requestId != events[i].rq.requestId
    ensures events[i].rq.requestId !in states[n].effects
  {
    hide WellFormed, Enabled, Step, Answer, Authorizes;
    StaysWellFormed(states, events, n - 1);
    if n == i + 1 {
      EnabledChoice(states[i], events[i]);
      AbortExactly(states[i], events[i].rq, events[i].choice);
    } else {
      StaysGone(states, events, i, n - 1);
      ReservationOrigin(states[n - 1], events[n - 1], events[i].rq.requestId);
    }
  }

  lemma NothingToStandOn(s: Store, rq: RuntimeAuthorityRequest)
    requires WellFormed(s) && rq.requestId !in s.effects
    ensures forall effectId, now, choice ::
              var status := Status(rq, effectId, now, choice);
              Enabled(s, status) ==> Answer(s, status).value.code == UNAUTHORIZED
    ensures forall other, effectId, now, choice ::
              var commit := CommitEffect(other, effectId, now, choice);
              other.requestId == rq.requestId && Enabled(s, commit) ==> !Authorizes(s, commit)
  {
    hide WellFormed, Authorizes, Step, Standing, StatusStep, CommitStep, IsChoice, ValidTable;
    forall effectId, now, choice | Enabled(s, Status(rq, effectId, now, choice))
      ensures Answer(s, Status(rq, effectId, now, choice)).value.code == UNAUTHORIZED
    {
      StatusExactly(s, rq, effectId, now, choice);
      AuthorizedCode(s, Status(rq, effectId, now, choice));
    }
    forall other: RuntimeAuthorityRequest, effectId, now, choice
      | other.requestId == rq.requestId && Enabled(s, CommitEffect(other, effectId, now, choice))
      ensures !Authorizes(s, CommitEffect(other, effectId, now, choice))
    {
      CommitExactly(s, other, effectId, now, choice);
    }
  }

  /** STATUS authorizes when it says so. */
  lemma AuthorizedCode(s: Store, e: Event)
    requires Enabled(s, e) && e.Status?
    ensures Authorizes(s, e) <==> Answer(s, e).value.code == AUTHORIZED
  {
  }

  /** It gives the room back: one less prepared under every member of the chain of
      an open reservation, and under no other grant. */
  lemma AbortReturnsHeadroom(s: Store, e: Event, id: string)
    requires WellFormed(s) && Enabled(s, e) && AnswersAborted(s, e)
    ensures PreparedUnder(Step(s, e), id) +
            One(e.rq.requestId in s.effects && id in s.effects[e.rq.requestId].chain) == PreparedUnder(s, id)
    ensures Usage(Step(s, e).quota.usage, id) == Usage(s.quota.usage, id)
  {
    EnabledChoice(s, e);
    AbortExactly(s, e.rq, e.choice);
    hide WellFormed, Enabled, Step, Answer;
    var k := e.rq.requestId;
    if k in s.effects && id in s.effects[k].chain {
      assert k in PreparedKeys(s.effects, id);
      assert PreparedKeys(Step(s, e).effects, id) == PreparedKeys(s.effects, id) - {k};
    } else {
      assert PreparedKeys(Step(s, e).effects, id) == PreparedKeys(s.effects, id);
    }
  }

  /******* From PREPARE to COMMIT *******/

  /** Neither revoked nor reconfigured since. */
  predicate SameStanding(s: Store, s': Store)
  {
    s'.revocation == s.revocation && s'.config == s.config
  }

  /** A request that PREPARE authorized is committed later to the effect it is
      first presented for, as long as nothing was revoked or reconfigured, it was
      neither aborted nor reaped nor committed in between, and the same grant is
      selected; STATUS then answers AUTHORIZED for that effect. */
  lemma PreparedIsCommitted(states: seq<Store>, events: seq<Event>, i: nat, n: nat, effectId: Text, now: nat)
    requires IsRun(states, events) && i < n < |states| && WellFormed(states[0])
    requires events[i].Prepare? && Enabled(states[i], events[i]) && Authorizes(states[i], events[i])
    requires events[i].rq.requestId !in states[i].effects
    requires forall j :: i < j < n ==> Spares(states[j], events[j], events[i].rq.requestId)
    requires SameStanding(states[i], states[n])
    requires Enabled(states[n], CommitEffect(events[i].rq, effectId, now, events[i].choice)) && IsEffectId(effectId)
    ensures var commit := CommitEffect(events[i].rq, effectId, now, events[i].choice);
            && Authorizes(states[n], commit)
            && BoundTo(Step(states[n], commit), events[i].rq.requestId, RequestDigest(events[i].rq), effectId)
  {
    hide WellFormed, Enabled, Step, Answer, Authorizes, Roomy, IsChoice, ValidTable, Chain;
    ReservationStands(states, events, i, n);
    StaysWellFormed(states, events, i);
    StaysWellFormed(states, events, n);
    EnabledChoice(states[i], events[i]);
    PrepareExactly(states[i], events[i].rq, events[i].now, events[i].choice);
    EnabledChoice(states[n], CommitEffect(events[i].rq, effectId, now, events[i].choice));
    CommitExactly(states[n], events[i].rq, effectId, now, events[i].choice);
  }

  /** A request that neither drops nor commits the reservation. */
  ghost predicate Spares(s: Store, e: Event, k: string)
  {
    k in s.effects ==> !Leaves(s, e, k) && !(e.CommitEffect? && e.rq.requestId == k)
  }

  lemma {:induction false} ReservationStands(states: seq<Store>, events: seq<Event>, i: nat, n: nat)
    requires IsRun(states, events) && i < n < |states| && WellFormed(states[0])
    requires events[i].Prepare? && Enabled(states[i], events[i]) && Authorizes(states[i], events[i])
    requires events[i].rq.requestId !in states[i].effects
    requires forall j :: i < j < n ==> Spares(states[j], events[j], events[i].rq.requestId)
    ensures var k := events[i].rq.requestId;
            k in states[i + 1].effects && k in states[n].effects && states[n].effects[k] == states[i + 1].effects[k]
  {
    hide WellFormed, Enabled, Step, Answer, Authorizes, Leaves;
    StaysWellFormed(states, events, n - 1);
    if n == i + 1 {
      ReservationOrigin(states[i], events[i], events[i].rq.requestId);
    } else {
      ReservationStands(states, events, i, n - 1);
      assert Spares(states[n - 1], events[n - 1], events[i].rq.requestId);
      ReservationFate(states[n - 1], events[n - 1], events[i].rq.requestId);
    }
  }

  /******* New state versions and configurations *******/

  /** After a rotation nothing reserved under the old state version is committed or
      reported as authorized. */
  lemma RotationWithdraws(s: Store, version: Identity, rq: RuntimeAuthorityRequest, effectId: Text, now: nat, choice: Option<string>)
    requires WellFormed(s) && EpochsSound(s) && RotateStep(s, version).1 && s.config.stateVersion in s.config.history
    requires rq.requestId in s.effects && s.effects[rq.requestId].stateVersion in s.config.history
    requires IsChoice(s.config.grants, rq, now, choice)
    ensures var s' := RotateStep(s, version).0;
            && version !in s.config.history && s'.config.stateVersion == version && version in s'.config.history
            && s'.revocation.epoch == SaturatingAdd(s.revocation.epoch, 1)
            && Enabled(s', CommitEffect(rq, effectId, now, choice)) && !Authorizes(s', CommitEffect(rq, effectId, now, choice))
            && Enabled(s', Status(rq, effectId, now, choice)) && !Authorizes(s', Status(rq, effectId, now, choice))
  {
    var s' := RotateStep(s, version).0;
    hide IsChoice, ValidTable, Chain;
    CommitExactly(s', rq, effectId, now, choice);
    StatusExactly(s', rq, effectId, now, choice);
  }

  /******* Administration *******/

  /** Exactly the grant is revoked, or the state version new to the store put in
      force; either starts an epoch, as long as there is one left. */
  predicate Takes(s: Store, rq: AdminRequest)
  {
    match rq.operation
    case RevokeGrant => rq.grantId.Some? && rq.grantId.value in s.config.grants && rq.grantId.value !in s.revocation.revoked
    case RotateState => rq.stateVersion.Some? && rq.stateVersion.value.StateVersion? && rq.stateVersion.value !in s.config.history
    case OtherAdmin => false
  }

  function After(s: Store, rq: AdminRequest): Store
    requires Takes(s, rq)
  {
    var epoch := if s.revocation.epoch < U64_MAX then s.revocation.epoch + 1 else U64_MAX;
    if rq.operation == RevokeGrant then s.(revocation := Revocation(s.revocation.revoked + {rq.grantId.value}, epoch))
    else
      var version := rq.stateVersion.value;
      s.(config := Configuration(s.config.grants, version, s.config.digest, s.config.history + {version}),
         revocation := Revocation(s.revocation.revoked, epoch))
  }

  /** An administrative request under a new identity is applied exactly when the
      console sends it, an approval of this very request by another service is still
      unused, and it has something to do; the approval is then spent on it, and
      the request answered yes ever after. */
  lemma AdministerExactly(s: Store, rq: AdminRequest, approvalId: string, service: Identity)
    requires rq.requestId !in s.admin.results && s.revocation.epoch <= U64_MAX
    ensures var (s', applied) := AdminStep(s, rq, approvalId, service);
            && (applied <==>
                  && rq.schemaVersion == V2_0 && rq.callerServiceId == service == Service(OperatorConsole)
                  && approvalId in s.admin.approvals
                  && s.admin.approvals[approvalId].targetRequestId == rq.requestId
                  && s.admin.approvals[approvalId].requestDigest == AdminDigest(rq)
                  && s.admin.approvals[approvalId].approverServiceId != service
                  && s.admin.approvals[approvalId].usedBy == None
                  && Takes(s, rq))
            && (!applied ==> s' == s)
            && (applied ==>
                  && s' == After(s, rq).(admin := s'.admin)
                  && s'.admin.results == s.admin.results[rq.requestId := AdminDigest(rq)]
                  && s'.admin.approvals == s.admin.approvals[approvalId :=
                       Approval(rq.requestId, AdminDigest(rq), s.admin.approvals[approvalId].approverServiceId, Some(rq.requestId))]
                  && forall other, who :: AdminStep(s', rq, other, who) == (s', true))
  {
  }

  /** A reviewer's approval is taken under a new name, or again just as it was; and
      from nobody else. */
  lemma ApproveExactly(s: Store, approvalId: string, target: string, digest: AdminDigest, service: Identity)
    ensures var (s', taken) := ApproveStep(s, approvalId, target, digest, service);
            && (taken <==>
                  && service == Service(Reviewer)
                  && (approvalId in s.admin.approvals ==>
                        var a := s.admin.approvals[approvalId];
                        a.targetRequestId == target && a.requestDigest == digest && a.approverServiceId == service))
            && (taken ==>
                  && s' == s.(admin := Administration(s'.admin.approvals, s.admin.results))
                  && s'.admin.approvals.Keys == s.admin.approvals.Keys + {approvalId}
                  && (forall x :: x in s.admin.approvals ==> s'.admin.approvals[x] == s.admin.approvals[x])
                  && (approvalId !in s.admin.approvals ==>
                        s'.admin.approvals[approvalId] == Approval(target, digest, service, None)))
            && (!taken ==> s' == s)
  {
    if approvalId in s.admin.approvals {
      var a := s.admin.approvals[approvalId];
      assert a.(usedBy := None) == Approval(a.targetRequestId, a.requestDigest, a.approverServiceId, None);
    }
  }

  /** An approval by the reviewer lets the console's request through once. */
  lemma ApprovedIsApplied(s: Store, approvalId: string, rq: AdminRequest)
    requires s.revocation.epoch <= U64_MAX && approvalId !in s.admin.approvals && rq.requestId !in s.admin.results
    requires rq.schemaVersion == V2_0 && rq.callerServiceId == Service(OperatorConsole) && Takes(s, rq)
    ensures var approved := ApproveStep(s, approvalId, rq.requestId, AdminDigest(rq), Service(Reviewer)).0;
            AdminStep(approved, rq, approvalId, Service(OperatorConsole)).1
  {
    ApproveExactly(s, approvalId, rq.requestId, AdminDigest(rq), Service(Reviewer));
    var approved := ApproveStep(s, approvalId, rq.requestId, AdminDigest(rq), Service(Reviewer)).0;
    AdministerExactly(approved, rq, approvalId, Service(OperatorConsole));
    hide ApproveStep, AdminStep;
  }

  /** A restart takes the configured grants exactly if they are valid and their
      state version is not one that was given up; an unchanged configuration keeps
      the epoch, a changed one starts the next, and what was revoked, used and
      reserved stays so. */
  lemma RestartExactly(s: Store, grants: seq<RuntimeGrant>, version: Identity)
    requires s.revocation.epoch <= U64_MAX
    ensures var r := RestartStep(s, grants, version);
            var same := s.config.digest == ConfigurationDigest(version, grants);
            && (r.Ok? <==>
                  && ValidateRuntimeGrants(grants).Ok?
                  && (same || version == s.config.stateVersion || version !in s.config.history))
            && (r.Ok? ==>
                  && r.value.quota == s.quota && r.value.effects == s.effects && r.value.log == s.log && r.value.admin == s.admin
                  && r.value.revocation.revoked == s.revocation.revoked
                  && (if same then
                        && r.value.revocation == s.revocation
                        && r.value.config == s.config.(history := s.config.history + {s.config.stateVersion})
                      else
                        && r.value.revocation.epoch == (if s.revocation.epoch < U64_MAX then s.revocation.epoch + 1 else U64_MAX)
                        && r.value.config.stateVersion == version && r.value.config.digest == ConfigurationDigest(version, grants)
                        && r.value.config.grants == ById(grants)
                        && r.value.config.history == s.config.history + {s.config.stateVersion, version}))
  {
    hide ValidateRuntimeGrants, ById;
  }
}
