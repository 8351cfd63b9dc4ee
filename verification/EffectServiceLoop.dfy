/** The effect service as a program: one pass of its submit loop and of its
    reconciliation loop over the live authority, ledger and provider, each call a
    step of the protocol.  What may be lost on the way is a parameter. */
module EffectServiceLoop {
  import opened Contracts
  import opened EffectService
  import opened EffectServiceRuns
  import opened EffectSafety
  import opened EffectOutcomes
  import L = EffectLedger
  import LedgerInvariant
  import LedgerRestore
  import LA = LedgerAnswers
  import A = AuthorityStore
  import AA = AuthorityAnswers
  import G = Grants
  import R = AuthorityRuns
  import P = OfflineProvider
  import PA = ProviderAnswers

  ghost predicate Reaches(s: System, s': System)
  {
    exists states, steps :: IsRun(states, steps) && states[0] == s && states[|steps|] == s'
  }

  lemma ReachesItself(s: System)
    ensures Reaches(s, s)
  {
    assert IsRun([s], []);
  }

  lemma RunGrows(states: seq<System>, steps: seq<Step>, t: Step)
    requires IsRun(states, steps) && Enabled(states[|steps|], t)
    ensures IsRun(states + [Next(states[|steps|], t)], steps + [t])
  {
    hide Enabled, Next;
    var more, all := states + [Next(states[|steps|], t)], steps + [t];
    forall i | 0 <= i < |all| ensures Enabled(more[i], all[i]) && more[i + 1] == Next(more[i], all[i]) {
      if i < |steps| { assert more[i] == states[i] && more[i + 1] == states[i + 1] && all[i] == steps[i]; }
    }
  }

  /** One more step keeps the protocol's invariant and extends the run. */
  lemma Advance(start: System, s: System, t: Step)
    requires Invariant(s) && Reaches(start, s) && Enabled(s, t)
    ensures Invariant(Next(s, t)) && Reaches(start, Next(s, t))
  {
    hide Invariant, Enabled, Next;
    StepKeeps(s, t);
    var states, steps :| IsRun(states, steps) && states[0] == start && states[|steps|] == s;
    RunGrows(states, steps, t);
    assert (states + [Next(s, t)])[0] == start && (states + [Next(s, t)])[|steps + [t]|] == Next(s, t);
  }

  /** What each answer says of the effect it is about, and that the service is
      ready for the next request. */
  ghost predicate Told(s: System, answer: Reply, id: Text)
  {
    match answer
    case Exited => true
    case Committed => s.point.Idle? && id in s.ledger.effects && L.Succeeded(s.ledger.effects[id].state)
    case Failed => s.point.Idle? && StateIs(s.ledger, id, {L.ObservedFailed, L.ResolvedFailed, L.EffectState.Rejected})
    case OutcomeUnknown => s.point.Idle? && id in L.Recover(s.ledger)
    case _ => s.point.Idle?
  }

  /** The effect id is that of the request's proposal, its expiry aside. */
  ghost predicate IdentifiedBy(id: Text, r: EffectRequest)
  {
    exists expiry ::
      id == EffectIdOf(ProposalOf(r).(provision := ProposalOf(r).provision.(expiresAt := expiry)))
  }

  /** COMMITTED is answered only when the provider's record is of exactly the
      command the caller asked for. */
  lemma CommittedIsExecuted(s: System, r: EffectRequest, id: Text)
    requires Invariant(s) && Told(s, Committed, id) && IdentifiedBy(id, r)
    ensures id in s.files.records && s.files.records[id].command == CommandOf(id, r)
  {
    hide R.WellFormed, LedgerInvariant.LedgerSound, Ordinary, Synced, Backed, AllSendable, Sourced, Recorded, PointSound, EffectIdOf, IdentifiedBy;
    SuccessIsRecorded(s, id);
    IdentityIs(s.ledger, id, r);
  }

  lemma IdentityIs(l: L.Ledger, id: Text, r: EffectRequest)
    requires CacheSound(l) && id in l.effects && IdentifiedBy(id, r)
    ensures CommandFor(l.effects[id]) == CommandOf(id, r)
  {
    hide EffectIdOf, Ordinary, LedgerInvariant.CompensationsSound, LedgerInvariant.OrderingSound;
    assert LedgerInvariant.Filed(l, id);
    var expiry :| id == EffectIdOf(ProposalOf(r).(provision := ProposalOf(r).provision.(expiresAt := expiry)));
    EffectIdInjective(l.effects[id].proposal, ProposalOf(r).(provision := ProposalOf(r).provision.(expiresAt := expiry)));
  }

  class EffectsService {
    const authority: A.RuntimeAuthorityStore
    const provider: P.OfflineProvider
    var ledger: L.EffectLedger
    var durable: L.Ledger
    ghost var sent: set<P.Command>
    ghost var point: Point

    ghost function State(): System
      reads this, authority, provider, ledger
    {
      System(authority.Snapshot(), ledger.Content(), durable, provider.Disk(), sent, point)
    }

    constructor (authority: A.RuntimeAuthorityStore, provider: P.OfflineProvider, ledger: L.EffectLedger, durable: L.Ledger)
      ensures this.authority == authority && this.provider == provider && this.ledger == ledger
      ensures State() == System(authority.Snapshot(), ledger.Content(), durable, provider.Disk(), {}, Idle)
      ensures Blank(State()) && R.WellFormed(State().authority) && ledger.available && !ledger.onDisk ==> On(State())
    {
      this.authority, this.provider, this.ledger, this.durable := authority, provider, ledger, durable;
      sent, point := {}, Idle;
      new;
      hide Invariant, Blank, R.WellFormed, Reaches;
      if Blank(State()) && R.WellFormed(State().authority) {
        BlankIsSound(State());
        ReachesItself(State());
      }
    }

    /** On a run of the protocol, with the cache in memory only. */
    ghost predicate On(start: System)
      reads this, authority, provider, ledger
    {
      Invariant(State()) && Reaches(start, State()) && ledger.available && !ledger.onDisk
    }

    /******* Calls, each one step of the protocol *******/

    /** Replays and the time window first; `found` is the replayed effect when it
        has ended. */
    method OpenRequest(r: EffectRequest, now: nat, preconditionHolds: bool, ghost start: System)
      returns (proceed: bool, found: Option<L.EffectRecord>)
      requires On(start) && point == Idle
      modifies this`point
      ensures On(start) && point == (if proceed then AwaitPrepare(r) else Idle)
      ensures proceed <==> Opened(ledger.Content(), r, now, preconditionHolds)
      ensures found.Some? <==> Finished(ledger.Content(), r)
      ensures found.Some? ==>
                && ledger.byKey[r.terms.idempotencyKey] == found.value.effectId && IdentifiedBy(found.value.effectId, r)
                && found.value.effectId in ledger.effects && ledger.effects[found.value.effectId] == found.value
    {
      hide Invariant, Reaches, Enabled, Next, RequestValid, ProposalOf, L.RuntimeReplay, IdentifiedBy, Repeats;
      ghost var s := State();
      SubmitIs(s, r, now, preconditionHolds);
      ReplayIs(s, r);
      proceed, found := false, None;
      if RequestValid(r) {
        var replay := L.RuntimeReplay(ledger.Content(), ProposalOf(r));
        if replay.Ok? && replay.value.Some? && L.Terminal(replay.value.value.state) {
          ReplayIdentifies(s, r);
          found := replay.value;
        } else {
          proceed := replay.Ok? && r.terms.validFrom <= now < r.terms.validUntil && preconditionHolds;
        }
      }
      point := if proceed then AwaitPrepare(r) else Idle;
      Advance(start, s, Step.Submit(r, now, preconditionHolds));
      assert ledger.Content() == s.ledger;
    }

    method CallPrepare(r: EffectRequest, now: nat, ghost start: System) returns (d: Decision)
      requires On(start) && point == AwaitPrepare(r)
      modifies authority, this`point
      ensures On(start) && point == (if Admits(r, d) then AwaitReserve(r, d) else Idle)
      ensures d.request == r.authority && d.brokerServiceId == Service(Effects)
      ensures authority.grants == old(authority.grants)
      ensures forall grant :: old(Preparable(authority.Snapshot(), r.authority, now, grant)) ==>
                L.Grants(d) && Held(authority.Snapshot(), r.authority, grant)
      ensures Uncovered(old(authority.Snapshot()), r.authority, now) ==>
                !L.Grants(d) && authority.effectReservations == old(authority.effectReservations)
    {
      hide Invariant, Reaches, Enabled, Next, Admits, A.PrepareStep, R.Step, G.IsChoice, Preparable, Held, Uncovered, L.Grants;
      ghost var s := State();
      ghost var choice;
      InvariantParts(s);
      d, choice := authority.PrepareEffect(r.authority, now);
      PrepareTells(s.authority, r.authority, now, choice);
      point := if Admits(r, d) then AwaitReserve(r, d) else Idle;
      PrepareIs(s, r, now, choice);
      Advance(start, s, Hear(R.Prepare(r.authority, now, choice)));
    }

    method CallCommit(id: Text, rq: RuntimeAuthorityRequest, now: nat, ghost start: System) returns (d: Decision)
      requires On(start) && point == Admitted(id, rq)
      modifies authority, this`point
      ensures On(start) && point == Decided(id, d)
      ensures d.request == rq && d.brokerServiceId == Service(Effects)
      ensures L.Grants(d) ==> R.BoundTo(authority.Snapshot(), rq.requestId, RequestDigest(rq), id)
      ensures !L.Grants(d) ==> authority.effectReservations == old(authority.effectReservations)
      ensures IsEffectId(id) ==>
                forall grant :: Elected(old(authority.Snapshot()), rq, now, grant) && Held(old(authority.Snapshot()), rq, grant) ==> L.Grants(d)
      ensures rq.requestId !in old(authority.effectReservations) ==> !L.Grants(d)
    {
      hide Invariant, Reaches, Enabled, Next, A.CommitStep, R.Step, G.IsChoice, R.BoundTo, Held, Elected, L.Grants;
      ghost var s := State();
      ghost var choice;
      InvariantParts(s);
      d, choice := authority.CommitEffect(rq, id, now);
      CommitTells(s.authority, rq, id, now, choice);
      point := Decided(id, d);
      CommitIs(s, id, rq, now, choice);
      Advance(start, s, Hear(R.CommitEffect(rq, id, now, choice)));
    }

    /** ABORT whose answer nobody waits for. */
    method CallAbort(rq: RuntimeAuthorityRequest, ghost start: System)
      requires On(start)
      modifies authority
      ensures On(start)
      ensures authority.effectReservations ==
                if Abortable(old(authority.Snapshot()), rq) then old(authority.effectReservations) - {rq.requestId}
                else old(authority.effectReservations)
    {
      hide Invariant, Reaches, Enabled, Next, A.AbortStep, R.Step, G.IsChoice, Abortable;
      ghost var s := State();
      InvariantParts(s);
      var d, choice := authority.AbortEffect(rq);
      AbortTells(s.authority, rq, choice);
      AbortIs(s, rq, choice);
      Advance(start, s, AuthorityActs(R.Abort(rq, choice)));
    }

    /** The answer does not arrive, and the request is given up. */
    method LoseAnswer(ghost start: System)
      requires On(start) && (point.AwaitPrepare? || point.Admitted? || point.AwaitStatus? || point.Decided?)
      modifies this`point
      ensures On(start) && point == Idle
    {
      hide Invariant, Reaches, Next;
      ghost var s := State();
      point := Idle;
      assert Enabled(s, GiveUp) && Next(s, GiveUp) == s.(point := Idle) by { GiveUpIs(s); }
      Advance(start, s, GiveUp);
    }

    method ReserveEffect(r: EffectRequest, d: Decision, now: nat, ghost start: System)
      returns (record: Result<L.EffectRecord, L.EffectError>)
      requires On(start) && point == AwaitReserve(r, d)
      modifies ledger, this`point
      ensures On(start)
      ensures point == if record.Ok? then Checkpointing(record.value.effectId, AfterReserve(r)) else Idle
      ensures record.Ok? ==> IdentifiedBy(record.value.effectId, r)
      ensures record.Ok? ==>
                && record.value.effectId == EffectOf(old(ledger.Content()), r)
                && ledger.effects == old(ledger.effects)[record.value.effectId := record.value]
      ensures record.Err? ==> ledger.Content() == old(ledger.Content())
      ensures r.terms.idempotencyKey !in old(ledger.byKey) ==>
                && (record.Ok? <==>
                      && LA.Granted(d, ProposalOf(r)) && now < PROPOSAL_EXPIRY
                      && LA.Supported(old(ledger.Content()), ProposalOf(r)) && LA.Compensable(old(ledger.Content()), ProposalOf(r)))
                && (record.Ok? ==>
                      && record.value.state == L.EffectState.Reserved && record.value.proposal == ProposalOf(r)
                      && record.value.authorityRequest ==
                         Some(d.request.(schemaVersion := V2_0, callerServiceId := Service(Runtime))))
      ensures r.terms.idempotencyKey in old(ledger.byKey) ==>
                && (record.Ok? <==> LA.Granted(d, ProposalOf(r)) && now < PROPOSAL_EXPIRY && Repeats(old(ledger.Content()), r))
                && ledger.Content() == old(ledger.Content())
    {
      hide Invariant, Reaches, Enabled, Next, ForwardingOf, ProposalOf, L.Reserve, L.Run, IdentifiedBy, LA.Granted, LA.Supported,
        LA.Compensable, Repeats, EffectOf;
      ghost var s := State();
      ReserveTells(s, r, d, now);
      ReserveIs(s, r, d, now);
      ReserveRun(ledger.State(), ProposalOf(r), d, ForwardingOf(r), now);
      record := ledger.ReserveRuntime(ProposalOf(r), d, ForwardingOf(r), now, L.NoFault);
      point := if record.Ok? then Checkpointing(record.value.effectId, AfterReserve(r)) else Idle;
      ReservedIsIdentified(s, r, d, now);
      Advance(start, s, Step.Reserve(now));
    }

    /** `checkpoint_effect`; a refusal ends the process. */
    method CheckpointEffect(id: Text, after: After, ghost start: System) returns (ok: bool)
      requires On(start) && point == Checkpointing(id, after)
      modifies this`durable, this`point
      ensures On(start) && point == if ok then Continue(State(), id, after) else Checkpointing(id, after)
      ensures ok <==> old(CheckpointAllowed(State(), id))
      ensures ok ==>
                && id in ledger.effects && durable == old(Checkpointed(State(), id))
                && id in durable.effects && durable.effects[id] == ledger.effects[id]
      ensures !ok ==> durable == old(durable)
    {
      hide Invariant, Reaches, Enabled, Next, L.Insert, Continue;
      ghost var s := State();
      var l := ledger.Content();
      ok := id in l.effects
        && !(id in durable.effects && durable.effects[id] != l.effects[id] && L.Terminal(durable.effects[id].state));
      if ok {
        CheckpointIs(s, id, after);
        CheckpointWrites(s, id);
        if !(id in durable.effects && durable.effects[id] == l.effects[id]) {
          durable := L.Insert(durable, LedgerRestore.SnapshotOf(l, id));
        }
        point := Continue(s, id, after);
        Advance(start, s, Checkpoint);
        ContinueApart(s, State(), id, after);
      }
    }

    /** A ledger move that the protocol takes at this point: refused, the exchange
        is over; accepted, a checkpoint is due. */
    method Settle(t: Step, id: Text, m: L.Move, after: After, ghost start: System) returns (ok: bool)
      requires On(start) && Makes(State(), t, id, m, after)
      modifies ledger, this`point
      ensures On(start) && point == if ok then Checkpointing(id, after) else Idle
      ensures Moved(old(ledger.Content()), ledger.Content(), id, m, ok)
    {
      hide On, Makes, Invariant, Reaches, Enabled, Next, L.Apply, L.Run, Moved;
      ghost var s := State();
      MakesIs(s, t, id, m, after);
      OnIs(start);
      AtPoint(s);
      MoveSettles(s.ledger, id, m);
      MoveRun(ledger.State(), id, m);
      var r := Perform(id, m);
      ok := r.Ok?;
      point := if ok then Checkpointing(id, after) else Idle;
      Advance(start, s, t);
      OnAgain(start);
    }

    method Perform(id: Text, m: L.Move) returns (r: Result<(), L.EffectError>)
      modifies ledger
      ensures (ledger.State(), r) == L.Run(old(ledger.State()), L.MoveEffect(id, m), L.NoFault)
    {
      hide L.Run;
      match m {
        case Reject(evidence) => r := ledger.RejectReserved(id, evidence, L.NoFault);
        case Dispatch(call, d) => r := ledger.DispatchRuntime(id, call, d, L.NoFault);
        case LoseTransport(response) => r := ledger.TransportLost(id, response, L.NoFault);
        case RecordResponse(response) => r := ledger.RecordProviderResponse(id, response, L.NoFault);
        case Observe(o) => r := ledger.Observe(id, o, L.NoFault);
        case BeginReconciliation(call) => r := ledger.BeginReconciliation(id, call, L.NoFault);
        case Inconclusive(source, evidence) => r := ledger.ReconciliationInconclusive(id, source, evidence, L.NoFault);
        case Resolve(o) => r := ledger.Resolve(id, o, L.NoFault);
      }
    }

    /** Sends the command and lets the provider attempt it; the process of the
        provider may die under it. */
    method Execute(id: Text, pid: nat, survives: nat, ghost start: System) returns (r: Result<P.Observation, P.ProviderError>)
      requires On(start) && (point == Launching(id) || point == Probing(id))
      modifies provider, this`sent, this`point
      ensures On(start) && point == if old(point).Launching? then Awaiting(id) else old(point)
      ensures id in ledger.effects
      ensures (provider.Disk(), r) == P.Interrupted(old(provider.Disk()), pid, CommandFor(ledger.effects[id]), survives)
    {
      hide Invariant, Reaches, Enabled, Next, P.Interrupted, CommandFor;
      ghost var s := State();
      AtLaunch(s);
      var c := CommandFor(ledger.Content().effects[id]);
      SendIs(s, id);
      sent := sent + {c};
      point := if point.Launching? then Awaiting(id) else point;
      Advance(start, s, Send);
      ghost var s' := State();
      ProviderIs(s', P.Event(pid, c, survives));
      r := provider.Execute(pid, c, survives);
      Advance(start, s', ProviderActs(P.Event(pid, c, survives)));
    }

    /** The independent observation, which must repeat the acknowledgement. */
    method ObserveSame(id: Text, acknowledged: P.Observation, ghost start: System) returns (same: bool)
      requires On(start) && (point == Launching(id) || point == Awaiting(id))
      modifies this`point
      ensures On(start) && point == if same then Answering(id, acknowledged) else old(point)
      ensures same <==>
                && id in ledger.effects
                && P.Observe(provider.Disk(), id, ledger.effects[id].proposal.parametersDigest) == Ok(acknowledged)
    {
      hide Invariant, Reaches, Enabled, Next, P.Observe;
      ghost var s := State();
      var l := ledger.Content();
      if id !in l.effects { return false; }
      same := P.Observe(provider.Disk(), id, l.effects[id].proposal.parametersDigest) == Ok(acknowledged);
      if same {
        point := Answering(id, acknowledged);
        SeeIs(s, id, acknowledged);
        Advance(start, s, See(acknowledged));
      }
    }

    /** A step that only moves the service to another point. */
    method Turn(ghost t: Step, ghost at: Point, ghost start: System)
      requires On(start) && Turns(State(), t, at)
      modifies this`point
      ensures On(start) && point == at
    {
      hide Invariant, Reaches, Enabled, Next;
      ghost var s := State();
      TurnIs(s, t, at);
      point := at;
      Advance(start, s, t);
    }

    /** `guard_objective`: only an objective without open effects is offered to the
        state service, and its answer decides. */
    method GuardObjective(objective: Text, guarded: bool, ghost start: System) returns (ok: bool)
      requires On(start) && point == Idle
      modifies ledger
      ensures On(start) && ok && ledger.effects == old(ledger.effects)
      ensures ledger.Content() == old(ledger.Content()).(registry := ledger.Content().registry)
      ensures objective !in ledger.pendingGuards <==> guarded && L.ObjectiveComplete(ledger.Content(), objective)
    {
      hide Invariant, Reaches, Enabled, Next, L.ObjectiveComplete;
      ghost var s := State();
      var ready := L.ObjectiveComplete(ledger.Content(), objective) && guarded;
      GuardIs(s, objective, ready);
      var r;
      if ready { r := ledger.ClearGuardPending(objective, L.NoFault); }
      else { r := ledger.MarkGuardPending(objective, L.NoFault); }
      ok := r.Ok?;
      Advance(start, s, Guard(objective, ready));
      CompleteApart(s.ledger, ledger.Content(), objective);
    }

    /******* The submit loop *******/

    /** A checkpoint that is due is not refused. */
    lemma CheckpointIsDue(start: System)
      requires On(start) && point.Checkpointing?
      ensures CheckpointAllowed(State(), point.id)
    {
      hide Invariant, Reaches, CheckpointAllowed;
      CheckpointNeverRefused(State());
    }

    method RecordAnswer(id: Text, o: P.Observation, response: string, ghost start: System) returns (ok: bool)
      requires On(start) && point == Answering(id, o)
      modifies ledger, this`durable, this`point
      ensures On(start) && (ok ==> point == Concluding(id, o))
      ensures ok <==> old(StateIs(ledger.Content(), id, {L.Executing}))
      ensures ok ==>
                Turned(old(ledger.Content()), ledger.Content(), id, RespondedEntry(L.EntryOf(old(ledger.Content()), id), response))
    {
      hide On, CheckpointAllowed, Moved, Turned, RespondedEntry, StateIs, Checkpointed, Makes;
      ghost var l := ledger.Content();
      ResponseMakes(State(), id, o, response);
      ok := Settle(RecordResponse(response), id, L.RecordResponse(response), AfterResponse(o), start);
      ResponseMoved(l, ledger.Content(), id, response, ok);
      if ok {
        CheckpointIsDue(start);
        ok := CheckpointEffect(id, AfterResponse(o), start);
      }
    }

    /** A move and its checkpoint, after which the exchange is over. */
    method Take(t: Step, id: Text, m: L.Move, ghost start: System) returns (ok: bool)
      requires On(start) && Makes(State(), t, id, m, Stop)
      modifies ledger, this`durable, this`point
      ensures On(start) && (ok ==> point == Idle)
      ensures Taken(old(State()), State(), id, m, ok)
    {
      hide On, Makes, CheckpointAllowed, Moved, Taken, Checkpointed;
      ghost var s := State();
      ok := Settle(t, id, m, Stop, start);
      if ok {
        CheckpointIsDue(start);
        ok := CheckpointEffect(id, Stop, start);
      }
      MovedIsTaken(s, State(), id, m, ok);
    }

    /** The answer and then the outcome are recorded, each with a checkpoint. */
    method RecordOutcome(id: Text, o: P.Observation, chance: Chance, ghost start: System) returns (ok: bool)
      requires On(start) && point == Answering(id, o)
      modifies ledger, this`durable, this`point
      ensures On(start) && (ok ==> point == Idle)
      ensures ok <==> old(StateIs(ledger.Content(), id, {L.Executing}))
      ensures ok ==> Becomes(old(State()), State(), id, ConfirmedEntry(L.EntryOf(old(ledger.Content()), id), chance))
    {
      hide On, Taken, Makes, Turned, ConfirmedEntry, RespondedEntry, Becomes;
      ghost var s := State();
      ok := RecordAnswer(id, o, chance.response, start);
      if ok {
        ghost var responded := State();
        ConcludeMakes(responded, id, chance.evidence);
        ok := Take(Conclude(chance.evidence), id, Confirmed(chance.evidence), start);
        ConclusionTaken(s, responded, State(), id, chance, ok);
      }
    }

    /** The outcome on record, the objective is guarded in the state service. */
    method Confirm(id: Text, o: P.Observation, chance: Chance, ghost start: System) returns (answer: Reply)
      requires On(start) && point == Answering(id, o)
      modifies ledger, this`durable, this`point
      ensures On(start) && Told(State(), answer, id)
      ensures Settled(old(State()), State(), id, chance, answer)
    {
      hide On, L.ObjectiveComplete, ConfirmedEntry, Becomes;
      ghost var s := State();
      var ok := RecordOutcome(id, o, chance, start);
      if ok {
        ghost var e := ConfirmedEntry(L.EntryOf(s.ledger, id), chance);
        BecomesState(s, State(), id, e);
        ghost var concluded := State();
        ok := GuardObjective(ledger.effects[id].proposal.intent.objectiveId, chance.guarded, start);
        BecomesStill(s, concluded, State(), id, e);
        ConfirmedSucceeds(L.EntryOf(s.ledger, id), chance);
      }
      answer := if ok then Committed else Exited;
    }

    method LoseOutcome(id: Text, ghost start: System) returns (answer: Reply)
      requires On(start) && (point == Launching(id) || point == Awaiting(id))
      modifies ledger, this`durable, this`point
      ensures On(start) && Told(State(), answer, id)
      ensures Lost(old(State()), State(), id, answer)
    {
      hide On, Makes, Taken;
      ghost var s := State();
      LoseMakes(s, id);
      var ok := Take(Lose, id, L.LoseTransport("provider response unavailable"), start);
      LossTaken(s, State(), id, ok);
      answer := if ok then OutcomeUnknown else Exited;
    }

    /** `execute_observe_and_persist` and what follows it: the outcome is recorded,
        or the transport counted as lost. */
    method Launch(id: Text, chance: Chance, ghost start: System) returns (answer: Reply)
      requires On(start) && point == Launching(id)
      modifies ledger, provider, this`durable, this`sent, this`point
      ensures On(start) && Told(State(), answer, id)
      ensures Sent(old(State()), State(), id, chance, answer)
    {
      hide On, Told, CommandFor, P.Interrupted, P.Observe, P.Writes, P.Answer, Settled, Lost, Sent;
      ghost var s := State();
      OwnIdentity(start, id);
      LaunchIsFiled(start);
      if chance.chainPersists {
        var executed := Execute(id, chance.pid, chance.survives, start);
        PA.ExecutedIsObserved(s.files, chance.pid, CommandFor(ledger.effects[id]), chance.survives);
        if executed.Ok? && chance.answerHeard {
          var same := ObserveSame(id, executed.value, start);
          if same {
            ghost var heard := State();
            answer := Confirm(id, executed.value, chance, start);
            OutcomeApart(s, heard, State(), id, chance, answer);
            LaunchComes(s, State(), id, chance, answer, true);
            return;
          }
        }
      }
      ghost var unheard := State();
      answer := LoseOutcome(id, start);
      OutcomeApart(s, unheard, State(), id, chance, answer);
      LaunchComes(s, State(), id, chance, answer, false);
    }

    lemma LaunchIsFiled(start: System)
      requires On(start) && point.Launching?
      ensures point.id in ledger.effects
    {
      hide Invariant, Reaches;
      AtLaunch(State());
    }

    /** An effect on file has its own identity, and so has its command. */
    lemma OwnIdentity(start: System, id: Text)
      requires On(start)
      ensures id in ledger.effects ==>
                && IsEffectId(id) && P.Addressable(id) && CommandFor(ledger.effects[id]).effectId == id
                && CommandFor(ledger.effects[id]).requestDigest == ledger.effects[id].proposal.parametersDigest
    {
      hide Invariant, Reaches, PointSound, LedgerInvariant.LedgerSound, CommandFor, P.Addressable;
      AtPoint(State());
      if id in ledger.effects { OnFileIsOwn(ledger.Content(), id); }
    }

    /** DISPATCH under a decision, its checkpoint, and the launch. */
    method DispatchAndLaunch(id: Text, d: Decision, chance: Chance, ghost start: System) returns (answer: Reply)
      requires On(start) && point == Decided(id, d)
      modifies ledger, provider, this`durable, this`sent, this`point
      ensures On(start) && Told(State(), answer, id)
      ensures Dispatching(old(State()), State(), id, d, chance, answer)
    {
      hide On, Makes, Told, LA.Granted, CheckpointAllowed, Moved, Launched, Checkpointed;
      ghost var s := State();
      ToldIdle(s, id);
      if id !in ledger.effects {
        LoseAnswer(start);
        ToldIdle(State(), id);
        return Rejected;
      }
      var call := CallFor(ledger.effects[id], chance.dispatchAt);
      DispatchMakes(State(), id, d, chance.dispatchAt);
      var moved := Settle(Dispatch(chance.dispatchAt), id, L.Dispatch(call, d), AfterDispatch, start);
      DispatchMoved(s.ledger, ledger.Content(), id, chance.dispatchAt, d, moved);
      ToldIdle(State(), id);
      if !moved { return Rejected; }
      CheckpointIsDue(start);
      var saved := CheckpointEffect(id, AfterDispatch, start);
      ToldIdle(State(), id);
      if !saved { return Exited; }
      ghost var dispatched := State();
      answer := Launch(id, chance, start);
      LaunchedFrom(s, dispatched, State(), id, chance, answer);
    }

    method RejectEffect(id: Text, evidence: string, persisted: bool, ghost start: System) returns (answer: Reply)
      requires On(start) && point == Rejecting(id)
      modifies ledger, this`durable, this`point
      ensures On(start) && Told(State(), answer, id)
      ensures Refused(old(State()), State(), id, evidence, persisted, answer)
    {
      hide On, Makes, CheckpointAllowed, Moved, Becomes, Checkpointed;
      ghost var s := State();
      RejectMakes(s, id, evidence);
      var moved := Settle(Step.Reject(evidence), id, L.Reject(evidence), Stop, start);
      RejectMoved(s.ledger, ledger.Content(), id, evidence, moved);
      if !moved || !persisted { return Exited; }
      CheckpointIsDue(start);
      var saved := CheckpointEffect(id, Stop, start);
      if saved { TurnedBecomes(s, State(), id, RejectedEntry(L.EntryOf(s.ledger, id), evidence)); }
      answer := if saved then Failed else Exited;
    }

    /** From an admitted reservation on record: COMMIT, unless it has expired. */
    method CommitAndDispatch(id: Text, rq: RuntimeAuthorityRequest, chance: Chance, ghost start: System) returns (answer: Reply)
      requires On(start) && point == Admitted(id, rq) && Asked(State(), id, rq)
      modifies authority, ledger, provider, this`durable, this`sent, this`point
      ensures On(start) && Told(State(), answer, id)
      ensures Concluded(old(State()), State(), id, rq, chance, answer)
    {
      hide On, Expired, Told, Abandoned, Committing, Asked;
      ghost var s := State();
      AskedIs(s, id, rq);
      ToldIdle(s, id);
      if Expired(ledger.Content(), id, chance.commitAt) {
        answer := Abandon(id, rq, chance, start);
        return;
      }
      if !chance.commitHeard {
        LoseAnswer(start);
        ToldIdle(State(), id);
        return Unavailable;
      }
      answer := CommitAdmitted(id, rq, chance, start);
    }

    /** An expired reservation is given back and rejected. */
    method Abandon(id: Text, rq: RuntimeAuthorityRequest, chance: Chance, ghost start: System) returns (answer: Reply)
      requires On(start) && point == Admitted(id, rq) && Asked(State(), id, rq) && Expired(ledger.Content(), id, chance.commitAt)
      modifies authority, ledger, this`durable, this`point
      ensures On(start) && Told(State(), answer, id)
      ensures Abandoned(old(State()), State(), id, rq, "execution authorization expired", chance, answer)
    {
      hide On, Expired, Abortable, Told, Becomes, RejectedEntry;
      ghost var s := State();
      CallAbort(rq, start);
      Turn(Expire(chance.commitAt), Rejecting(id), start);
      ghost var given := State();
      answer := RejectEffect(id, "execution authorization expired", chance.chainPersists, start);
      EndedApart(s, given, State(), id, "execution authorization expired", answer);
    }

    /** COMMIT, whose decision DISPATCH accepts or refuses. */
    method CommitAdmitted(id: Text, rq: RuntimeAuthorityRequest, chance: Chance, ghost start: System) returns (answer: Reply)
      requires On(start) && point == Admitted(id, rq) && Asked(State(), id, rq)
      modifies authority, ledger, provider, this`durable, this`sent, this`point
      ensures On(start) && Told(State(), answer, id)
      ensures Committing(old(State()), State(), id, rq, chance, answer)
    {
      hide On, Told, Launched, Elected, Held, R.BoundTo, LA.Granted, L.Grants;
      ghost var s := State();
      OwnIdentity(start, id);
      var d := CallCommit(id, rq, chance.commitAt, start);
      ghost var decided := State();
      GrantedIs(d, ledger.effects[id].proposal);
      answer := DispatchAndLaunch(id, d, chance, start);
      LaunchedApart(s, decided, State(), id, chance, answer);
      LaunchedAnswers(s, State(), id, chance, answer);
    }

    /** One request through the submit loop. */
    method Submit(r: EffectRequest, chance: Chance, ghost start: System) returns (answer: Reply, id: Text)
      requires On(start) && point == Idle
      modifies authority, ledger, provider, this`durable, this`sent, this`point
      ensures On(start) && Told(State(), answer, id)
      ensures answer == Committed ==>
                id in provider.Disk().records && provider.Disk().records[id].command == CommandOf(id, r)
      ensures answer == Failed || answer == OutcomeUnknown ==> IdentifiedBy(id, r)
      ensures Answered(old(State()), State(), r, id, chance, answer)
    {
      hide Invariant, Reaches, Told, IdentifiedBy, CommandOf, Answered;
      answer, id := Process(r, chance, start);
      if answer == Committed { CommittedIsExecuted(State(), r, id); }
    }

    method Process(r: EffectRequest, chance: Chance, ghost start: System) returns (answer: Reply, id: Text)
      requires On(start) && point == Idle
      modifies authority, ledger, provider, this`durable, this`sent, this`point
      ensures On(start) && Told(State(), answer, id)
      ensures answer == Committed || answer == Failed || answer == OutcomeUnknown ==> IdentifiedBy(id, r)
      ensures Answered(old(State()), State(), r, id, chance, answer)
    {
      hide On, IdentifiedBy, Finished, Opened, Repeats, Promising, Fulfilled, Uncovered, UnderWay, Told;
      ghost var s := State();
      ToldIdle(s, []);
      var proceed, found := OpenRequest(r, chance.now, chance.preconditionHolds, start);
      OpenedIs(s.ledger, r, chance);
      PromiseParts(s, r, chance);
      if found.Some? {
        answer, id := Replayed(found.value.state, chance.answerHeard), found.value.effectId;
        ReplayTold(State(), id, chance.answerHeard);
        return;
      }
      assert State() == s.(point := point);
      if !proceed { return Rejected, []; }
      if !chance.prepareHeard {
        LoseAnswer(start);
        ToldIdle(State(), []);
        UnheardIsFulfilled(s, r, [], chance);
        return Unavailable, [];
      }
      ghost var asked := State();
      answer, id := Ask(r, chance, start);
      AnsweredApart(s, asked, State(), r, id, chance, answer);
    }

    /** PREPARE, the reservation, its checkpoint, and what it leads to. */
    method Ask(r: EffectRequest, chance: Chance, ghost start: System) returns (answer: Reply, id: Text)
      requires On(start) && point == AwaitPrepare(r) && Opened(ledger.Content(), r, chance.now, chance.preconditionHolds)
      requires chance.prepareHeard
      modifies authority, ledger, provider, this`durable, this`sent, this`point
      ensures On(start) && Told(State(), answer, id)
      ensures answer == Committed || answer == Failed || answer == OutcomeUnknown ==> IdentifiedBy(id, r)
      ensures AnsweredBy(old(State()), State(), r, id, chance, answer)
    {
      hide On, Admits, IdentifiedBy, Opened, Followed, AnsweredBy, Uncovered, L.Grants, Told, Preparable, Held, LA.Granted, ProposalOf,
        RequestValid;
      ghost var s := State();
      PromiseParts(s, r, chance);
      var d := CallPrepare(r, chance.now, start);
      AdmitsIs(r, d);
      ToldIdle(State(), []);
      if !Admits(r, d) {
        NotAsked(s, State(), r, chance);
        return Rejected, [];
      }
      ghost var prepared := State();
      answer, id := ReserveAndProceed(r, d, chance, start);
      AskedFor(s, prepared, State(), r, id, chance, answer);
    }

    /** The reservation, and what becomes of it. */
    method ReserveAndProceed(r: EffectRequest, d: Decision, chance: Chance, ghost start: System) returns (answer: Reply, id: Text)
      requires On(start) && point == AwaitReserve(r, d) && Opened(ledger.Content(), r, chance.now, chance.preconditionHolds)
      requires LA.Granted(d, ProposalOf(r))
      modifies authority, ledger, provider, this`durable, this`sent, this`point
      ensures On(start) && Told(State(), answer, id)
      ensures answer == Committed || answer == Failed || answer == OutcomeUnknown ==> IdentifiedBy(id, r)
      ensures Followed(old(State()), State(), r, id, chance, answer)
    {
      hide On, Invariant, Reaches, IdentifiedBy, Opened, Repeats, Told, LA.Granted, LA.Supported, LA.Compensable, ProposalOf, RequestValid,
        CommandFor, CommandOf, Checkpointed, Concluded, Promising, Fulfilled, Proceeded, Followed, UnderWay;
      ghost var s := State();
      OnIs(start);
      OpenedIs(s.ledger, r, chance);
      PromiseParts(s, r, chance);
      var record := ReserveEffect(r, d, chance.now, start);
      if record.Err? {
        CallAbort(r.authority, start);
        ToldIdle(State(), []);
        NotFollowed(s, State(), r, chance);
        return Rejected, [];
      }
      id := record.value.effectId;
      ReservedFits(s, r, record.value);
      ghost var reserved := State();
      if r.terms.idempotencyKey in s.ledger.byKey { SavedAlready(s, reserved, id); }
      OnIs(start);
      CheckpointWrites(reserved, id);
      answer := Proceed(r, id, chance, start);
      IsFollowed(s, reserved, State(), r, id, chance, answer);
    }

    /** The reservation's checkpoint, and what a fresh reservation leads to. */
    method Proceed(r: EffectRequest, id: Text, chance: Chance, ghost start: System) returns (answer: Reply)
      requires On(start) && point == Checkpointing(id, AfterReserve(r))
      requires id in ledger.effects && ledger.effects[id].proposal.intent == IntentOf(r.authority)
      modifies authority, ledger, provider, this`durable, this`sent, this`point
      ensures On(start) && Told(State(), answer, id)
      ensures Proceeded(old(State()), State(), id, r.authority, chance, answer)
    {
      hide On, Invariant, Reaches, Concluded, CheckpointAllowed, Told, Checkpointed;
      ghost var s := State();
      OnIs(start);
      var saved := CheckpointEffect(id, AfterReserve(r), start);
      ToldIdle(State(), id);
      if !saved {
        CallAbort(r.authority, start);
        ToldIdle(State(), id);
        answer := Exited;
        CheckpointNeverRefused(s);
        assert false;
      } else if !StateIs(ledger.Content(), id, {L.EffectState.Reserved}) {
        answer := AnswerReplay(id, chance.guarded, start);
      } else {
        ghost var checkpointed := State();
        answer := CommitAndDispatch(id, r.authority, chance, start);
        ConcludedApart(checkpointed, Saved(s, id), State(), id, r.authority, chance, answer);
      }
    }

    /** The reservation turned out to be a replay of an effect that went further. */
    method AnswerReplay(id: Text, guarded: bool, ghost start: System) returns (answer: Reply)
      requires On(start) && point == Idle
      modifies ledger
      ensures On(start) && Told(State(), answer, id)
      ensures if old(id in ledger.effects && L.Succeeded(ledger.effects[id].state)) then answer == Committed
              else answer == Rejected && State() == old(State())
    {
      hide On;
      if id !in ledger.effects || !L.Succeeded(ledger.effects[id].state) { return Rejected; }
      var ok := GuardObjective(ledger.effects[id].proposal.intent.objectiveId, guarded, start);
      answer := if ok then Committed else Exited;
    }

    lemma OnIs(start: System)
      requires On(start)
      ensures Invariant(State()) && Reaches(start, State()) && ledger.available && !ledger.onDisk
    {
      hide Invariant, Reaches;
    }

    lemma OnAgain(start: System)
      requires Invariant(State()) && Reaches(start, State()) && ledger.available && !ledger.onDisk
      ensures On(start)
    {
      hide Invariant, Reaches;
    }

    /******* The reconciliation loop *******/

    method CallStatus(id: Text, rq: RuntimeAuthorityRequest, now: nat, ghost start: System) returns (d: Decision)
      requires On(start) && point == AwaitStatus(id) && RequestOf(ledger.Content(), id) == Some(rq)
      modifies authority, this`point
      ensures On(start) && point == AfterStatus(ledger.Content(), id, rq, now, d)
      ensures d.request == rq && d.brokerServiceId == Service(Effects)
      ensures L.Grants(d) <==> Current(old(authority.Snapshot()), rq, id)
      ensures d.code == PREPARED <==> Pending(old(authority.Snapshot()), rq)
      ensures authority.effectReservations == old(authority.effectReservations)
      ensures authority.Snapshot().config == old(authority.Snapshot()).config
      ensures authority.Snapshot().revocation == old(authority.Snapshot()).revocation
    {
      hide Invariant, Reaches, Enabled, Next, A.StatusStep, R.Step, G.IsChoice, AfterStatus, Current, Pending, L.Grants;
      ghost var s := State();
      ghost var choice;
      InvariantParts(s);
      d, choice := authority.StatusEffect(rq, id, now);
      point := AfterStatus(s.ledger, id, rq, now, d);
      StatusTells(s.authority, rq, id, now, choice);
      StatusIs(s, id, rq, now, choice);
      Advance(start, s, Hear(R.Status(rq, id, now, choice)));
    }

    method CallAbortHeard(id: Text, rq: RuntimeAuthorityRequest, ghost start: System) returns (aborted: bool)
      requires On(start) && point == AwaitAbort(id) && RequestOf(ledger.Content(), id) == Some(rq)
      modifies authority, this`point
      ensures On(start) && point == if aborted then Rejecting(id) else Idle
      ensures aborted <==> Abortable(old(authority.Snapshot()), rq)
      ensures aborted ==> authority.effectReservations == old(authority.effectReservations) - {rq.requestId}
      ensures !aborted ==> authority.effectReservations == old(authority.effectReservations)
    {
      hide Invariant, Reaches, Enabled, Next, A.AbortStep, R.Step, G.IsChoice, Abortable;
      ghost var s := State();
      InvariantParts(s);
      var d, choice := authority.AbortEffect(rq);
      aborted := d.code == ABORTED;
      point := if aborted then Rejecting(id) else Idle;
      AbortTells(s.authority, rq, choice);
      AbortHeardIs(s, id, rq, choice);
      Advance(start, s, Hear(R.Abort(rq, choice)));
    }

    /** A durable RESERVED effect: its commitment is looked up, made within its
        window, or given up. */
    method ReconcileReserved(id: Text, rq: RuntimeAuthorityRequest, chance: Chance, ghost start: System) returns (answer: Reply)
      requires On(start) && point == AwaitStatus(id) && RequestOf(ledger.Content(), id) == Some(rq)
      requires StateIs(ledger.Content(), id, {L.EffectState.Reserved})
      modifies authority, ledger, provider, this`durable, this`sent, this`point
      ensures On(start) && Told(State(), answer, id)
      ensures Recovering(old(State()), State(), id, rq, chance, answer)
    {
      hide On, Expired, RequestOf, Told, Ended, Inquired, StateIs, Refused, Turns;
      ghost var s := State();
      ToldIdle(s, id);
      if chance.rejectionKnown {
        LearnTurns(s);
        Turn(LearnRejected, Rejecting(id), start);
        ghost var rejecting := State();
        answer := RejectEffect(id, "authoritative rejection replay", true, start);
        RefusedIs(rejecting, State(), id, "authoritative rejection replay", true, answer);
        EndedApart(s, rejecting, State(), id, "authoritative rejection replay", answer);
        return;
      }
      if !chance.prepareHeard {
        LoseAnswer(start);
        ToldIdle(State(), id);
        return Unavailable;
      }
      answer := Inquire(id, rq, chance, start);
    }

    /** STATUS, and what it finds. */
    method Inquire(id: Text, rq: RuntimeAuthorityRequest, chance: Chance, ghost start: System) returns (answer: Reply)
      requires On(start) && point == AwaitStatus(id) && RequestOf(ledger.Content(), id) == Some(rq)
      requires StateIs(ledger.Content(), id, {L.EffectState.Reserved})
      modifies authority, ledger, provider, this`durable, this`sent, this`point
      ensures On(start) && Told(State(), answer, id)
      ensures Inquired(old(State()), State(), id, rq, chance, answer)
    {
      hide On, Invariant, Reaches, Expired, RequestOf, Told, Launched, LA.Granted, Current, Pending, Resumed;
      ghost var s := State();
      OnIs(start);
      AskedAsProposed(s, id, rq);
      CurrentIsNotPending(s.authority, rq, id);
      var d := CallStatus(id, rq, chance.now, start);
      ghost var told := State();
      PendingStill(s.authority, told.authority, rq);
      ToldIdle(told, id);
      if d.code == PREPARED {
        answer := Resume(id, rq, chance, start);
        ResumedApart(s, told, State(), id, rq, chance, answer);
        return;
      }
      if !L.Grants(d) { return Rejected; }
      GrantedIs(d, ledger.effects[id].proposal);
      answer := DispatchGranted(id, d, chance, start);
      LaunchedApart(s, told, State(), id, chance, answer);
    }

    /** A pending reservation: given back, or committed within its window. */
    method Resume(id: Text, rq: RuntimeAuthorityRequest, chance: Chance, ghost start: System) returns (answer: Reply)
      requires On(start) && RequestOf(ledger.Content(), id) == Some(rq)
      requires point == if Expired(ledger.Content(), id, chance.now) then AwaitAbort(id) else Admitted(id, rq)
      requires Asked(State(), id, rq) && Pending(authority.Snapshot(), rq)
      modifies authority, ledger, provider, this`durable, this`sent, this`point
      ensures On(start) && Told(State(), answer, id)
      ensures Resumed(old(State()), State(), id, rq, chance, answer)
    {
      hide On, Expired, RequestOf, Told, Becomes, Committing, Pending, Abortable;
      ghost var s := State();
      PendingIsAbortable(s.authority, rq);
      ToldIdle(s, id);
      if Expired(ledger.Content(), id, chance.now) {
        var aborted := CallAbortHeard(id, rq, start);
        ToldIdle(State(), id);
        if !aborted { return Rejected; }
        ghost var given := State();
        answer := RejectEffect(id, "recovered PREPARE aborted", chance.chainPersists, start);
        EndedApart(s, given, State(), id, "recovered PREPARE aborted", answer);
        return;
      }
      if !chance.commitHeard {
        LoseAnswer(start);
        ToldIdle(State(), id);
        return Unavailable;
      }
      answer := CommitPending(id, rq, chance, start);
    }

    /** The exact COMMIT of a reservation that is pending, within its window. */
    method CommitPending(id: Text, rq: RuntimeAuthorityRequest, chance: Chance, ghost start: System) returns (answer: Reply)
      requires On(start) && point == Admitted(id, rq)
      requires Asked(State(), id, rq)
      modifies authority, ledger, provider, this`durable, this`sent, this`point
      ensures On(start) && Told(State(), answer, id)
      ensures Committing(old(State()), State(), id, rq, chance, answer)
    {
      hide On, Told, Becomes, Carried, Guarded, CommandFor, P.Interrupted, Elected, Held, R.BoundTo, LA.Granted, L.Grants;
      ghost var s := State();
      OwnIdentity(start, id);
      var d := CallCommit(id, rq, chance.commitAt, start);
      ghost var decided := State();
      if !L.Grants(d) {
        LoseAnswer(start);
        ToldIdle(State(), id);
        return Rejected;
      }
      GrantedIs(d, ledger.effects[id].proposal);
      answer := DispatchGranted(id, d, chance, start);
      LaunchedApart(s, decided, State(), id, chance, answer);
    }

    /** A dispatch that is refused here ends the process. */
    method DispatchGranted(id: Text, d: Decision, chance: Chance, ghost start: System) returns (answer: Reply)
      requires On(start) && point == Decided(id, d)
      requires StateIs(ledger.Content(), id, {L.EffectState.Reserved}) && LA.Granted(d, ledger.effects[id].proposal)
      modifies ledger, provider, this`durable, this`sent, this`point
      ensures On(start) && Told(State(), answer, id)
      ensures Launched(old(State()), State(), id, chance, answer)
    {
      hide On, Told, LA.Granted, Becomes, Carried;
      answer := DispatchAndLaunch(id, d, chance, start);
      if answer == Rejected { answer := Exited; }
    }

    /** An unknown outcome: the provider is observed, or the same command sent
        again, and the reconciliation classified in one checkpoint. */
    method ReconcileUnknown(id: Text, chance: Chance, ghost start: System) returns (answer: Reply)
      requires On(start) && point == Probing(id) && id in ledger.effects
      modifies ledger, provider, this`durable, this`sent, this`point
      ensures On(start) && Told(State(), answer, id)
      ensures old(Probable(ledger.Content(), id)) ==> Reconciled(old(State()), State(), id, chance, answer)
    {
      hide On, Told, Observed, Looked, Probable, Turned, EffectOutcomes.Classified, Reconciled;
      ghost var s := State();
      ToldIdle(s, id);
      var found := Look(id, chance, start);
      ghost var seen := State();
      ToldIdle(seen, id);
      if found.None? && chance.outcomeKnown {
        ReconciliationStops(s, seen, id, chance);
        return Exited;
      }
      var begun := BeginProbe(id, chance.dispatchAt, found, start);
      ghost var probing := State();
      ToldIdle(probing, id);
      if !begun { return Exited; }
      var verdict := if found.Some? && (chance.outcomeKnown || chance.chainPersists) then Some(chance.succeeded) else None;
      answer := Classified(id, found, verdict, chance, start);
      ReconciliationComes(s, seen, probing, State(), id, chance, answer, found.Some?);
    }

    /** The provider's observation; unless the state service already knows the
        outcome, a missing one has the command sent again. */
    method Look(id: Text, chance: Chance, ghost start: System) returns (found: Option<P.Observation>)
      requires On(start) && point == Probing(id) && id in ledger.effects
      modifies provider, this`sent, this`point
      ensures On(start) && point == Probing(id)
      ensures found.Some? ==> Observed(State(), id, found.value)
      ensures Looked(old(State()), State(), id, chance, found.Some?)
    {
      hide On, P.Observe, CommandFor, P.Interrupted, Looked;
      ghost var s := State();
      OwnIdentity(start, id);
      var digest := ledger.effects[id].proposal.parametersDigest;
      var seen := P.Observe(provider.Disk(), id, digest);
      ghost var again := seen.Err? && !chance.outcomeKnown;
      if seen.Err? && !chance.outcomeKnown {
        var _ := Execute(id, chance.pid, chance.survives, start);
        seen := P.Observe(provider.Disk(), id, digest);
      }
      found := if seen.Ok? && chance.answerHeard then Some(seen.value) else None;
      LookedAt(s, State(), id, chance, found.Some?, again);
    }

    method Classified(id: Text, found: Option<P.Observation>, verdict: Option<bool>, chance: Chance, ghost start: System)
      returns (answer: Reply)
      requires On(start) && point == Classifying(id, found) && (verdict.Some? ==> found.Some?)
      modifies ledger, this`durable, this`point
      ensures On(start) && Told(State(), answer, id)
      ensures EffectOutcomes.Classified(old(State()), State(), id, verdict, chance, answer)
    {
      hide On, Makes, L.ObjectiveComplete, Taken, Becomes;
      ghost var s := State();
      ClassifyMakes(s, id, found, "provider", chance.evidence, verdict);
      var ok := Take(Classify("provider", chance.evidence, verdict), id, Verdict("provider", chance.evidence, verdict), start);
      VerdictTaken(s, State(), id, chance.evidence, verdict, ok);
      if ok {
        ghost var e := ClassifiedEntry(L.EntryOf(s.ledger, id), chance.evidence, verdict);
        BecomesState(s, State(), id, e);
        if verdict == Some(true) {
          ghost var classified := State();
          ok := GuardObjective(ledger.effects[id].proposal.intent.objectiveId, chance.guarded, start);
          BecomesStill(s, classified, State(), id, e);
        }
      }
      answer := if !ok then Exited else if verdict.None? then OutcomeUnknown else if verdict.value then Committed else Failed;
    }

    method BeginProbe(id: Text, at: nat, seen: Option<P.Observation>, ghost start: System) returns (ok: bool)
      requires On(start) && point == Probing(id) && id in ledger.effects
      requires seen.Some? ==> Observed(State(), id, seen.value)
      modifies ledger, this`point
      ensures On(start) && point == if ok then Classifying(id, seen) else Idle
      ensures ok <==> old(Probable(ledger.Content(), id))
      ensures ok ==> Turned(old(ledger.Content()), ledger.Content(), id, ProbedEntry(L.EntryOf(old(ledger.Content()), id), at))
      ensures !ok ==> ledger.Content() == old(ledger.Content())
    {
      hide On, Invariant, Reaches, Enabled, Next, L.Run, Observed, CallFor, Probable, Turned, ProbedEntry;
      ghost var s := State();
      OnIs(start);
      ProbeStep(s, ledger.State(), id, at, seen);
      var m := L.BeginReconciliation(CallFor(ledger.effects[id], at));
      var r := Perform(id, m);
      ok := r.Ok?;
      point := if ok then Classifying(id, seen) else Idle;
      Advance(start, s, Probe(at, seen));
      OnAgain(start);
    }

    /** One effect of `recover` through `reconcile_pending`. */
    method Reconcile(id: Text, chance: Chance, ghost start: System) returns (answer: Reply)
      requires On(start) && point == Idle && id in L.Recover(ledger.Content())
      modifies authority, ledger, provider, this`durable, this`sent, this`point
      ensures On(start) && Told(State(), answer, id)
      ensures Recovered(old(State()), State(), id, chance, answer)
    {
      hide On, Told, Recovering, Launched, Reconciled;
      var l := ledger.Content();
      ghost var s := State();
      Turn(FollowUp(id), FollowedUp(l, id), start);
      ToldIdle(State(), id);
      var state := l.effects[id].state;
      if state == L.EffectState.Reserved && l.effects[id].authorityRequest.Some? {
        answer := ReconcileReserved(id, l.effects[id].authorityRequest.value, chance, start);
        RecoveringApart(s.(point := AwaitStatus(id)), s, State(), id, l.effects[id].authorityRequest.value, chance, answer);
      } else if state == L.Executing {
        answer := Launch(id, chance, start);
        LaunchedApart(s.(point := Launching(id)), s, State(), id, chance, answer);
      } else if (state == L.OutcomeUnknown || state == L.Reconciling)
                && |L.Get(l.trails.reconciliations, id)| < L.MAX_RECONCILIATIONS {
        answer := ReconcileUnknown(id, chance, start);
        ReconciledApart(s.(point := Probing(id)), s, State(), id, chance, answer);
      } else {
        answer := Rejected;
      }
    }

    /** A new process: the cache is rebuilt from the canonical records. */
    method StartProcess(order: seq<Text>, ghost start: System)
      requires On(start) && Enabled(State(), Restart(order))
      modifies this`ledger, this`point
      ensures On(start) && point == Idle && fresh(ledger)
    {
      hide Invariant, Reaches, Next, L.Restore, L.Run;
      ghost var s := State();
      RestartIs(s, order);
      StartRun(s.durable, order);
      ledger := new L.EffectLedger(false, None);
      var restored := ledger.RestoreAuthoritative(Snapshots(durable, order), L.NoFault);
      var registered := ledger.RegisterProviderDurable(OfflineContract, L.NoFault);
      point := Idle;
      Advance(start, s, Restart(order));
    }
  }

  lemma ReplayTold(s: System, id: Text, confirmed: bool)
    requires s.point.Idle? && id in s.ledger.effects && L.Terminal(s.ledger.effects[id].state)
    ensures Told(s, Replayed(s.ledger.effects[id].state, confirmed), id)
  {
  }

  /** What a replay of a request is about. */
  lemma ReplayIdentifies(s: System, r: EffectRequest)
    requires Invariant(s)
    requires var replay := L.RuntimeReplay(s.ledger, ProposalOf(r)); replay.Ok? && replay.value.Some?
    ensures var found := L.RuntimeReplay(s.ledger, ProposalOf(r)).value.value;
            && found.effectId in s.ledger.effects && s.ledger.effects[found.effectId] == found
            && IdentifiedBy(found.effectId, r)
  {
    hide R.WellFormed, Ordinary, Synced, Backed, AllSendable, Sourced, Recorded, PointSound, EffectIdOf,
      LedgerInvariant.CompensationsSound, LedgerInvariant.OrderingSound, LedgerInvariant.EntrySound;
    var found := L.RuntimeReplay(s.ledger, ProposalOf(r)).value.value;
    assert LedgerInvariant.Filed(s.ledger, s.ledger.byKey[ProposalOf(r).idempotencyKey]);
    var expiry := found.proposal.provision.expiresAt;
    assert found.proposal == ProposalOf(r).(provision := ProposalOf(r).provision.(expiresAt := expiry));
  }

  lemma ReservedIsIdentified(s: System, r: EffectRequest, d: Decision, now: nat)
    requires Invariant(s)
    ensures var outcome := L.Reserve(s.ledger, ProposalOf(r), d, ForwardingOf(r), now);
            && (outcome.Answered? ==> IdentifiedBy(outcome.record.effectId, r))
            && IdentifiedBy(EffectIdOf(ProposalOf(r)), r)
  {
    hide Invariant, IdentifiedBy, ProposalOf, EffectIdOf, ForwardingOf, L.RuntimeReplay, L.CompensationAdmissible, L.ProviderCheck, L.DecisionFits, L.Grants;
    RequestIdentifies(r);
    var outcome := L.Reserve(s.ledger, ProposalOf(r), d, ForwardingOf(r), now);
    if outcome.Answered? { ReplayIdentifies(s, r); }
  }

  lemma RequestIdentifies(r: EffectRequest)
    ensures IdentifiedBy(EffectIdOf(ProposalOf(r)), r)
  {
    hide EffectIdOf;
    var p := ProposalOf(r);
    assert p == p.(provision := p.provision.(expiresAt := p.provision.expiresAt));
  }

  lemma GiveUpIs(s: System)
    requires s.point.AwaitPrepare? || s.point.Admitted? || s.point.AwaitStatus? || s.point.Decided?
    ensures Enabled(s, GiveUp) && Next(s, GiveUp) == s.(point := Idle)
  {
  }

  lemma SubmitIs(s: System, r: EffectRequest, now: nat, holds: bool)
    requires s.point == Idle
    ensures Enabled(s, Submit(r, now, holds))
    ensures Next(s, Submit(r, now, holds)) == s.(point := Submitted(s, r, now, holds))
  {
    hide RequestValid, Submitted;
  }

  lemma PrepareIs(s: System, r: EffectRequest, now: nat, choice: Option<string>)
    requires s.point == AwaitPrepare(r) && R.WellFormed(s.authority)
    requires G.IsChoice(s.authority.config.grants, r.authority, now, choice)
    ensures var e := R.Prepare(r.authority, now, choice);
            var (a, d) := A.PrepareStep(s.authority, r.authority, now, choice);
            && Enabled(s, Hear(e))
            && Next(s, Hear(e)) == s.(authority := a, point := if Admits(r, d) then AwaitReserve(r, d) else Idle)
  {
    hide A.PrepareStep, Admits, G.IsChoice;
  }

  lemma CommitIs(s: System, id: Text, rq: RuntimeAuthorityRequest, now: nat, choice: Option<string>)
    requires s.point == Admitted(id, rq) && R.WellFormed(s.authority)
    requires G.IsChoice(s.authority.config.grants, rq, now, choice)
    ensures var e := R.CommitEffect(rq, id, now, choice);
            var (a, d) := A.CommitStep(s.authority, rq, id, now, choice);
            && Enabled(s, Hear(e)) && Next(s, Hear(e)) == s.(authority := a, point := Decided(id, d))
  {
    hide A.CommitStep, G.IsChoice;
  }

  lemma AbortIs(s: System, rq: RuntimeAuthorityRequest, choice: Option<string>)
    requires R.WellFormed(s.authority) && G.IsChoice(s.authority.config.grants, rq, rq.requestedAt, choice)
    ensures var e := AuthorityActs(R.Abort(rq, choice));
            Enabled(s, e) && Next(s, e) == s.(authority := A.AbortStep(s.authority, rq, choice).0)
  {
    hide A.AbortStep, G.IsChoice;
  }

  lemma InvariantParts(s: System)
    requires Invariant(s)
    ensures R.WellFormed(s.authority) && G.ValidTable(s.authority.config.grants)
  {
    hide CacheSound, Synced, Backed, AllSendable, Sourced, Recorded, PointSound;
  }

  /** What one ledger operation makes of a cache kept in memory. */
  lemma ReserveRun(s: L.Session, p: EffectProposal, d: Decision, forwarding: Forwarding, now: nat)
    requires s.available && !s.onDisk
    ensures var r := L.Run(s, L.ReserveRuntime(p, d, forwarding, now), L.NoFault);
            && r.0 == s.(mem := match L.Reserve(s.mem, p, d, forwarding, now) case Changed(l) => l case _ => s.mem)
            && (r.1.Ok? <==> !L.Reserve(s.mem, p, d, forwarding, now).Refused?)
  {
    hide L.Reserve;
  }

  lemma MoveRun(s: L.Session, id: Text, m: L.Move)
    requires s.available && !s.onDisk
    ensures var outcome := L.Apply(s.mem, L.MoveEffect(id, m));
            var r := L.Run(s, L.MoveEffect(id, m), L.NoFault);
            && !outcome.Answered?
            && r.0 == s.(mem := if outcome.Changed? then outcome.ledger else s.mem)
            && (r.1.Ok? <==> outcome.Changed?)
  {
    hide L.MoveEntry, L.Put;
  }

  lemma ReserveIs(s: System, r: EffectRequest, d: Decision, now: nat)
    requires s.point == AwaitReserve(r, d)
    ensures Enabled(s, Step.Reserve(now)) && Next(s, Step.Reserve(now)) == EffectService.Reserved(s, r, d, now)
  {
    hide EffectService.Reserved;
  }

  lemma CheckpointIs(s: System, id: Text, after: After)
    requires s.point == Checkpointing(id, after) && CheckpointAllowed(s, id)
    ensures Enabled(s, Checkpoint)
    ensures Next(s, Checkpoint) == s.(durable := Checkpointed(s, id), point := Continue(s, id, after))
  {
    hide Checkpointed, Continue;
  }

  lemma ContinueApart(s: System, s': System, id: Text, after: After)
    requires s'.ledger == s.ledger
    ensures Continue(s', id, after) == Continue(s, id, after)
  {
  }

  /** The steps that apply one move and then checkpoint. */
  ghost predicate Makes(s: System, t: Step, id: Text, m: L.Move, after: After)
  {
    match t
    case Reject(evidence) => s.point == Rejecting(id) && m == L.Reject(evidence) && after == Stop
    case Dispatch(at) =>
      && s.point.Decided? && s.point.id == id && id in s.ledger.effects && after == AfterDispatch
      && m == L.Dispatch(CallFor(s.ledger.effects[id], at), s.point.decision)
    case Lose =>
      && (s.point == Launching(id) || s.point == Awaiting(id)) && after == Stop
      && m == L.LoseTransport("provider response unavailable")
    case RecordResponse(response) =>
      s.point.Answering? && s.point.id == id && m == L.RecordResponse(response) && after == AfterResponse(s.point.o)
    case Conclude(evidence) => s.point.Concluding? && s.point.id == id && m == Confirmed(evidence) && after == Stop
    case Classify(source, evidence, verdict) =>
      && s.point.Classifying? && s.point.id == id && m == Verdict(source, evidence, verdict) && after == Stop
      && (verdict.Some? ==> s.point.seen.Some?)
    case _ => false
  }

  lemma DispatchMakes(s: System, id: Text, d: Decision, at: nat)
    requires s.point == Decided(id, d) && id in s.ledger.effects
    ensures Makes(s, Dispatch(at), id, L.Dispatch(CallFor(s.ledger.effects[id], at), d), AfterDispatch)
  {
    hide CallFor;
  }

  lemma RejectMakes(s: System, id: Text, evidence: string)
    requires s.point == Rejecting(id)
    ensures Makes(s, Step.Reject(evidence), id, L.Reject(evidence), Stop)
  {
  }

  lemma ResponseMakes(s: System, id: Text, o: P.Observation, response: string)
    requires s.point == Answering(id, o)
    ensures Makes(s, RecordResponse(response), id, L.RecordResponse(response), AfterResponse(o))
  {
  }

  lemma ConcludeMakes(s: System, id: Text, evidence: string)
    requires s.point.Concluding? && s.point.id == id
    ensures Makes(s, Conclude(evidence), id, Confirmed(evidence), Stop)
  {
    hide Confirmed;
  }

  lemma LoseMakes(s: System, id: Text)
    requires s.point == Launching(id) || s.point == Awaiting(id)
    ensures Makes(s, Lose, id, L.LoseTransport("provider response unavailable"), Stop)
  {
  }

  lemma ClassifyMakes(s: System, id: Text, seen: Option<P.Observation>, source: string, evidence: string, verdict: Option<bool>)
    requires s.point == Classifying(id, seen) && (verdict.Some? ==> seen.Some?)
    ensures Makes(s, Classify(source, evidence, verdict), id, Verdict(source, evidence, verdict), Stop)
  {
    hide Verdict;
  }

  lemma ToldIdle(s: System, id: Text)
    ensures s.point.Idle? ==> Told(s, Rejected, id) && Told(s, Unavailable, id)
    ensures Told(s, Exited, id)
  {
  }

  lemma MakesIs(s: System, t: Step, id: Text, m: L.Move, after: After)
    requires Makes(s, t, id, m, after)
    ensures Enabled(s, t) && Next(s, t) == Applied(s, L.MoveEffect(id, m), Checkpointing(id, after))
  {
    hide Applied, CallFor;
  }

  lemma AtLaunch(s: System)
    requires Invariant(s) && (s.point.Launching? || s.point.Probing?)
    ensures s.point.id in s.ledger.effects
  {
    hide R.WellFormed, CacheSound, SameRecords, Backed, AllSendable, Sourced, Recorded, LedgerInvariant.Reached, LedgerInvariant.Extends;
    LaunchIsOnFile(s);
  }

  lemma LaunchIsOnFile(s: System)
    requires s.point.Launching? || s.point.Probing?
    requires LedgerInvariant.Extends(s.durable, s.ledger) && ExecutedIn(s.durable, s.point.id)
    ensures s.point.id in s.ledger.effects
  {
    GrownProposal(s.durable, s.ledger, s.point.id);
  }

  lemma SendIs(s: System, id: Text)
    requires (s.point == Launching(id) || s.point == Probing(id)) && id in s.ledger.effects
    ensures Enabled(s, Send)
    ensures Next(s, Send) == s.(sent := s.sent + {CommandFor(s.ledger.effects[id])},
                                point := if s.point.Launching? then Awaiting(id) else s.point)
  {
    hide CommandFor;
  }

  lemma ProviderIs(s: System, e: P.Event)
    requires e.command in s.sent
    ensures Enabled(s, ProviderActs(e)) && Next(s, ProviderActs(e)) == s.(files := P.Next(s.files, e))
  {
    hide P.Next;
  }

  lemma SeeIs(s: System, id: Text, o: P.Observation)
    requires (s.point == Launching(id) || s.point == Awaiting(id)) && Observed(s, id, o)
    ensures Enabled(s, See(o)) && Next(s, See(o)) == s.(point := Answering(id, o))
  {
    hide Observed;
  }

  /** The steps that only move the service on. */
  ghost predicate Turns(s: System, t: Step, at: Point)
  {
    match t
    case Expire(now) => s.point.Admitted? && Expired(s.ledger, s.point.id, now) && at == Rejecting(s.point.id)
    case LearnRejected => s.point.AwaitStatus? && at == Rejecting(s.point.id)
    case FollowUp(id) => s.point.Idle? && id in L.Recover(s.ledger) && at == FollowedUp(s.ledger, id)
    case _ => false
  }

  lemma LearnTurns(s: System)
    requires s.point.AwaitStatus?
    ensures Turns(s, LearnRejected, Rejecting(s.point.id))
  {
  }

  lemma TurnIs(s: System, t: Step, at: Point)
    requires Turns(s, t, at)
    ensures Enabled(s, t) && Next(s, t) == s.(point := at)
  {
    hide Expired, FollowedUp, L.Recover;
  }

  lemma GuardIs(s: System, objective: Text, ready: bool)
    requires s.point == Idle
    ensures Enabled(s, Guard(objective, ready))
    ensures var guards := s.ledger.registry.pendingGuards;
            Next(s, Guard(objective, ready)) ==
            s.(ledger := s.ledger.(registry := s.ledger.registry.(
                 pendingGuards := if ready then guards - {objective} else guards + {objective})))
  {
  }

  function AfterStatus(l: L.Ledger, id: Text, rq: RuntimeAuthorityRequest, now: nat, d: Decision): Point
  {
    if d.code == PREPARED then if Expired(l, id, now) then AwaitAbort(id) else Admitted(id, rq)
    else if L.Grants(d) then Decided(id, d) else Idle
  }

  lemma StatusIs(s: System, id: Text, rq: RuntimeAuthorityRequest, now: nat, choice: Option<string>)
    requires s.point == AwaitStatus(id) && R.WellFormed(s.authority) && RequestOf(s.ledger, id) == Some(rq)
    requires G.IsChoice(s.authority.config.grants, rq, now, choice)
    ensures var e := R.Status(rq, id, now, choice);
            var (a, d) := A.StatusStep(s.authority, rq, id, now, choice);
            && Enabled(s, Hear(e))
            && Next(s, Hear(e)) == s.(authority := a, point := AfterStatus(s.ledger, id, rq, now, d))
  {
    hide A.StatusStep, G.IsChoice, Expired, L.Grants;
  }

  lemma AbortHeardIs(s: System, id: Text, rq: RuntimeAuthorityRequest, choice: Option<string>)
    requires s.point == AwaitAbort(id) && R.WellFormed(s.authority) && RequestOf(s.ledger, id) == Some(rq)
    requires G.IsChoice(s.authority.config.grants, rq, rq.requestedAt, choice)
    ensures var e := R.Abort(rq, choice);
            var (a, d) := A.AbortStep(s.authority, rq, choice);
            && Enabled(s, Hear(e))
            && Next(s, Hear(e)) == s.(authority := a, point := if d.code == ABORTED then Rejecting(id) else Idle)
  {
    hide A.AbortStep, G.IsChoice;
  }

  lemma ProbeIs(s: System, id: Text, at: nat, seen: Option<P.Observation>)
    requires s.point == Probing(id) && id in s.ledger.effects && (seen.Some? ==> Observed(s, id, seen.value))
    ensures Enabled(s, Probe(at, seen))
    ensures Next(s, Probe(at, seen)) ==
            Applied(s, L.MoveEffect(id, L.BeginReconciliation(CallFor(s.ledger.effects[id], at))), Classifying(id, seen))
  {
    hide Observed, Applied, CallFor;
  }

  /** Opening a reconciliation, as the ledger kept in memory does it. */
  lemma ProbeStep(s: System, session: L.Session, id: Text, at: nat, seen: Option<P.Observation>)
    requires Invariant(s) && s.point == Probing(id) && id in s.ledger.effects && (seen.Some? ==> Observed(s, id, seen.value))
    requires session.mem == s.ledger && session.available && !session.onDisk
    ensures var (after, r) := L.Run(session, L.MoveEffect(id, L.BeginReconciliation(CallFor(s.ledger.effects[id], at))), L.NoFault);
            && Enabled(s, Probe(at, seen))
            && Next(s, Probe(at, seen)) == s.(ledger := after.mem, point := if r.Ok? then Classifying(id, seen) else Idle)
            && after.available && !after.onDisk
            && (r.Ok? <==> Probable(s.ledger, id))
            && (r.Ok? ==> Turned(s.ledger, after.mem, id, ProbedEntry(L.EntryOf(s.ledger, id), at)))
            && (r.Err? ==> after.mem == s.ledger)
  {
    hide Invariant, PointSound, LedgerInvariant.LedgerSound, Enabled, Next, L.Apply, L.Run, Observed, CallFor, Moved, Probable, Turned, ProbedEntry;
    var m := L.BeginReconciliation(CallFor(s.ledger.effects[id], at));
    AtPoint(s);
    MoveSettles(s.ledger, id, m);
    MoveRun(session, id, m);
    ProbeIs(s, id, at, seen);
    var (after, r) := L.Run(session, L.MoveEffect(id, m), L.NoFault);
    ProbeMoved(s.ledger, after.mem, id, at, r.Ok?);
  }

  lemma StartRun(durable: L.Ledger, order: seq<Text>)
    ensures var blank := L.Session(L.EmptyLedger, true, false, None);
            var s := L.Run(L.Restore(blank, Snapshots(durable, order), L.NoFault).0, L.RegisterProvider(OfflineContract), L.NoFault).0;
            s.mem == Restarted(durable, order) && s.available && !s.onDisk
  {
    hide L.Rebuilt, L.FirstBad, Snapshots;
  }

  lemma RestartIs(s: System, order: seq<Text>)
    requires Enabled(s, Restart(order))
    ensures Next(s, Restart(order)) == s.(ledger := Restarted(s.durable, order), point := Idle)
  {
    hide Restarted;
  }
}
