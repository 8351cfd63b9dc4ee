/** What the effect service keeps over whole runs, with crashes between any two
    durable writes: an effect reaches the world only when authority has committed
    exactly it and its durable record had already reached EXECUTING. */
module EffectServiceRuns {
  import opened Contracts
  import opened EffectLedger
  import opened LedgerInvariant
  import opened LedgerRestore
  import opened EffectService
  import A = AuthorityStore
  import R = AuthorityRuns
  import G = Grants
  import P = OfflineProvider

  /******* The invariant, part by part *******/

  /** Authority has a committed reservation, under the proposal's own request id
      and for a request with the proposal's intent, bound to exactly this effect. */
  predicate Authorized(a: A.Store, p: EffectProposal, id: Text)
  {
    && p.intent.commandId in a.effects
    && var r := a.effects[p.intent.commandId];
      && r.committed
      && r.effectId == Some(id)
      && IntentOf(r.requestDigest.request) == p.intent
  }

  predicate ExecutedIn(l: Ledger, id: Text)
  {
    id in l.effects && Reached(EntryOf(l, id).history, Executing)
  }

  /** Everything that executed was authorized. */
  ghost predicate Backed(a: A.Store, l: Ledger)
  {
    forall id :: ExecutedIn(l, id) ==> Authorized(a, l.effects[id].proposal, id)
  }

  /** Unordered, and kept with the request that authority decided on. */
  predicate Plain(r: EffectRecord)
  {
    && r.proposal.placement == Placement(None, None)
    && (r.authorityRequest.Some? ==> IntentOf(r.authorityRequest.value) == r.proposal.intent)
  }

  ghost predicate Ordinary(l: Ledger)
  {
    forall id :: id in l.effects ==> Plain(l.effects[id])
  }

  ghost predicate CacheSound(l: Ledger)
  {
    LedgerSound(l) && Ordinary(l)
  }

  /** The one effect whose record in memory may be ahead of the store. */
  predicate Ahead(at: Point, id: Text)
  {
    (at.Checkpointing? || at.Classifying?) && at.id == id
  }

  ghost predicate SameRecords(durable: Ledger, l: Ledger, at: Point)
  {
    forall id :: id in l.effects && !Ahead(at, id) ==> id in durable.effects && durable.effects[id] == l.effects[id]
  }

  ghost predicate Synced(durable: Ledger, l: Ledger, at: Point)
  {
    Extends(durable, l) && SameRecords(durable, l, at)
  }

  /** A command goes out only for an effect that is durably EXECUTING or beyond. */
  ghost predicate Sendable(durable: Ledger, c: P.Command)
  {
    && ExecutedIn(durable, c.effectId)
    && c == CommandFor(durable.effects[c.effectId])
  }

  ghost predicate AllSendable(durable: Ledger, sent: set<P.Command>)
  {
    forall c :: c in sent ==> Sendable(durable, c)
  }

  /** Nothing is on the provider's disk but what sent commands put there. */
  ghost predicate Sourced(files: P.Files, sent: set<P.Command>)
  {
    && (forall id :: id in files.intents ==> files.intents[id].effectId == id && files.intents[id] in sent)
    && (forall id :: id in files.records ==>
          files.records[id].command.effectId == id && files.records[id].command in sent)
    && (forall id :: id in files.world ==>
          exists c :: c in sent && c.effectId == id && files.world[id] == P.ApplicationOf(c))
  }

  /** Success is claimed only for what the provider has on record. */
  ghost predicate Recorded(l: Ledger, files: P.Files)
  {
    forall id :: id in l.effects && Succeeded(l.effects[id].state) ==> id in files.records
  }

  ghost predicate PointSound(s: System)
  {
    match s.point
    case Decided(id, d) => Grants(d) ==> R.BoundTo(s.authority, d.request.requestId, RequestDigest(d.request), id)
    case Checkpointing(id, after) =>
      && id in s.ledger.effects
      && (after.AfterDispatch? ==> s.ledger.effects[id].state == Executing)
      && (after.AfterResponse? ==> id in s.files.records)
    case Launching(id) => ExecutedIn(s.durable, id)
    case Awaiting(id) => ExecutedIn(s.durable, id)
    case Probing(id) => ExecutedIn(s.durable, id)
    case Answering(id, _) => id in s.files.records
    case Concluding(id, _) => id in s.files.records
    case Classifying(id, seen) => StateIs(s.ledger, id, {Reconciling}) && (seen.Some? ==> id in s.files.records)
    case _ => true
  }

  ghost predicate Invariant(s: System)
  {
    && R.WellFormed(s.authority)
    && CacheSound(s.ledger)
    && CacheSound(s.durable)
    && Synced(s.durable, s.ledger, s.point)
    && Backed(s.authority, s.ledger)
    && AllSendable(s.durable, s.sent)
    && Sourced(s.files, s.sent)
    && Recorded(s.ledger, s.files)
    && PointSound(s)
  }

  /******* Requests to authority *******/

  lemma AuthorizedLasts(a: A.Store, e: R.Event, p: EffectProposal, id: Text)
    requires R.WellFormed(a) && R.Enabled(a, e) && Authorized(a, p, id)
    ensures Authorized(R.Step(a, e), p, id)
  {
    R.CommitmentIsPermanent(a, e, p.intent.commandId, a.effects[p.intent.commandId].requestDigest, id);
  }

  lemma BackedLasts(a: A.Store, e: R.Event, l: Ledger)
    requires R.WellFormed(a) && R.Enabled(a, e) && Backed(a, l)
    ensures Backed(R.Step(a, e), l)
  {
    forall id | ExecutedIn(l, id) ensures Authorized(R.Step(a, e), l.effects[id].proposal, id) {
      hide R.Step, R.WellFormed, R.Enabled, Authorized;
      AuthorizedLasts(a, e, l.effects[id].proposal, id);
    }
  }

  lemma HeardDecisionIsBound(a: A.Store, e: R.Event, d: Decision)
    requires R.WellFormed(a) && R.Enabled(a, e) && (e.CommitEffect? || e.Status?)
    requires R.Answer(a, e) == Some(d) && Grants(d)
    ensures R.BoundTo(R.Step(a, e), d.request.requestId, RequestDigest(d.request), e.effectId)
  {
    hide R.Step, R.WellFormed, R.Enabled, R.BoundTo, R.Answer;
    R.AuthorizedMeansBound(a, e);
  }

  lemma AuthorityActsKeeps(s: System, t: Step)
    requires Invariant(s) && Enabled(s, t) && t.AuthorityActs?
    ensures Invariant(Next(s, t))
  {
    var e := t.event;
    R.StepWellFormed(s.authority, e);
    BackedLasts(s.authority, e, s.ledger);
    if s.point.Decided? && Grants(s.point.decision) {
      var rq := s.point.decision.request;
      R.CommitmentIsPermanent(s.authority, e, rq.requestId, RequestDigest(rq), s.point.id);
    }
    hide R.Step, R.WellFormed, R.Enabled, R.BoundTo, CacheSound, Synced, Backed, AllSendable, Sourced, Recorded;
  }

  lemma HearKeeps(s: System, t: Step)
    requires Invariant(s) && Enabled(s, t) && t.Hear?
    ensures Invariant(Next(s, t))
  {
    hide R.Step, R.WellFormed, R.Enabled, R.Answer, R.BoundTo, CacheSound, Extends, Backed, AllSendable, Sourced, Recorded;
    var e := t.event;
    R.StepWellFormed(s.authority, e);
    BackedLasts(s.authority, e, s.ledger);
    var d := R.Answer(s.authority, e);
    if d.Some? && Grants(d.value) && (e.CommitEffect? || e.Status?) { HeardDecisionIsBound(s.authority, e, d.value); }
  }

  /******* The provider *******/

  lemma SourcedStep(files: P.Files, sent: set<P.Command>, e: P.Event)
    requires Sourced(files, sent) && e.command in sent
    ensures Sourced(P.Next(files, e), sent)
    ensures forall id :: id in files.records ==> id in P.Next(files, e).records
  {
    P.NextIsPartial(files, e);
    hide P.Next, P.Answer;
    var files', c := P.Next(files, e), e.command;
    forall id | id in files'.world ensures exists w :: w in sent && w.effectId == id && files'.world[id] == P.ApplicationOf(w)
    {
      if id in files.world && files'.world[id] == files.world[id] {
        var w :| w in sent && w.effectId == id && files.world[id] == P.ApplicationOf(w);
      } else {
        assert c in sent && c.effectId == id && files'.world[id] == P.ApplicationOf(c);
      }
    }
  }

  lemma ProviderActsKeeps(s: System, t: Step)
    requires Invariant(s) && Enabled(s, t) && t.ProviderActs?
    ensures Invariant(Next(s, t))
  {
    hide P.Next, R.WellFormed, R.BoundTo, CacheSound, Synced, Backed, AllSendable, Sourced;
    SourcedStep(s.files, s.sent, t.attempt);
  }

  /** An effect past RESERVED and not rejected has executed. */
  lemma StateTells(l: Ledger, id: Text)
    requires LedgerSound(l) && id in l.effects
    requires l.effects[id].state != Reserved && l.effects[id].state != Rejected
    ensures ExecutedIn(l, id)
  {
    assert Filed(l, id);
    var h := EntryOf(l, id).history;
    ReservedOnlyFirst(h, |h| - 1);
  }

  lemma SameCommand(durable: Ledger, l: Ledger, id: Text)
    requires LedgerSound(durable) && LedgerSound(l) && Extends(durable, l) && id in durable.effects
    ensures id in l.effects && CommandFor(durable.effects[id]) == CommandFor(l.effects[id])
    ensures CommandFor(durable.effects[id]).effectId == id
  {
    hide EntrySound, EntryOf, EffectIdOf, CompensationsSound, OrderingSound;
    assert Grown(durable, l, id);
    assert Filed(durable, id) && Filed(l, id);
  }

  lemma SendKeeps(s: System, t: Step)
    requires Invariant(s) && Enabled(s, t) && t.Send?
    ensures Invariant(Next(s, t))
  {
    hide R.WellFormed, R.BoundTo, LedgerSound, Extends, Ordinary, Backed, Recorded, Reached, CommandFor;
    var id := s.point.id;
    SameCommand(s.durable, s.ledger, id);
    assert Sendable(s.durable, CommandFor(s.ledger.effects[id]));
  }

  /******* Steps that only move the service on *******/

  predicate Moves(t: Step)
  {
    t.Submit? || t.GiveUp? || t.Expire? || t.See? || t.FollowUp? || t.LearnRejected?
  }

  lemma FollowUpIsDurable(s: System, id: Text)
    requires CacheSound(s.ledger) && CacheSound(s.durable) && SameRecords(s.durable, s.ledger, s.point) && s.point.Idle?
    ensures PointSound(s.(point := FollowedUp(s.ledger, id)))
  {
    hide LedgerSound, Ordinary, Reached;
    if id in s.ledger.effects {
      assert s.durable.effects[id] == s.ledger.effects[id];
      if !StateIs(s.ledger, id, {EffectState.Reserved, Rejected}) { StateTells(s.durable, id); }
    }
  }

  lemma PointKeeps(s: System, at: Point)
    requires Invariant(s) && PointSound(s.(point := at))
    requires forall id :: !Ahead(s.point, id)
    ensures Invariant(s.(point := at))
  {
    hide R.WellFormed, R.BoundTo, CacheSound, Extends, Backed, AllSendable, Sourced, Recorded, PointSound;
  }

  lemma MovesKeep(s: System, t: Step)
    requires Invariant(s) && Enabled(s, t) && Moves(t)
    ensures Invariant(Next(s, t))
  {
    hide R.WellFormed, R.BoundTo, CacheSound, Extends, Backed, AllSendable, Sourced, Recorded, ExecutedIn, RequestValid,
      RuntimeReplay, SameRecords, FollowedUp;
    if t.FollowUp? { FollowUpIsDurable(s, t.id); }
    if t.See? { assert s.point.id in s.files.records; }
    PointKeeps(s, Next(s, t).point);
  }

  /******* Ledger operations *******/

  /** Everyone but the effect at hand is as the store has it. */
  lemma OthersSynced(s: System, op: Op, at: Point, id: Text)
    requires CacheSound(s.ledger) && Synced(s.durable, s.ledger, s.point)
    requires Apply(s.ledger, op).Changed?
    requires forall other :: Ahead(s.point, other) ==> other == id && Ahead(at, id)
    requires op.MoveEffect? ==> op.id == id
    requires op.ReserveRuntime? ==> EffectIdOf(op.proposal) == id
    requires op.ReserveRuntime? || op.MoveEffect? ==> Ahead(at, id)
    ensures Synced(s.durable, Apply(s.ledger, op).ledger, at)
    ensures LedgerSound(Apply(s.ledger, op).ledger) && Extends(s.ledger, Apply(s.ledger, op).ledger)
    ensures forall other :: other in s.ledger.effects && other != id ==>
              other in Apply(s.ledger, op).ledger.effects && Apply(s.ledger, op).ledger.effects[other] == s.ledger.effects[other]
  {
    hide LedgerSound, Extends, Ordinary;
    OpKeepsSound(s.ledger, op);
    ExtendsChains(s.durable, s.ledger, Apply(s.ledger, op).ledger);
    OnlyTouches(s.ledger, op, id);
  }

  lemma OnlyTouches(l: Ledger, op: Op, id: Text)
    requires Apply(l, op).Changed?
    requires op.MoveEffect? ==> op.id == id
    requires op.ReserveRuntime? ==> EffectIdOf(op.proposal) == id
    ensures forall other :: other != id ==>
              (other in Apply(l, op).ledger.effects <==> other in l.effects)
              && (other in l.effects ==> Apply(l, op).ledger.effects[other] == l.effects[other])
    ensures !op.ReserveRuntime? && !op.MoveEffect? ==> Apply(l, op).ledger.effects == l.effects
  {
    hide MoveEntry, RuntimeReplay, CompensationAdmissible, ProviderCheck, DecisionFits, EffectIdOf;
  }

  lemma MoveHistory(e: Entry, m: Move)
    requires EntrySound(e) && MoveEntry(e, m).Ok?
    ensures Reached(MoveEntry(e, m).value.history, Executing) ==> Reached(e.history, Executing) || m.Dispatch?
    ensures Succeeded(MoveEntry(e, m).value.record.state) ==>
              m.Observe? || m.Resolve? || MoveEntry(e, m).value.record.state == e.record.state
  {
    MoveIsLegal(e, m);
    if !m.RecordResponse? { PathGrows(e.history, MoveEntry(e, m).value.history[|e.history|]); }
  }

  lemma PutKeepsParts(a: A.Store, l: Ledger, files: P.Files, id: Text, e: Entry)
    requires Ordinary(l) && Backed(a, l) && Recorded(l, files) && id in l.effects
    requires e.record == l.effects[id].(state := e.record.state)
    requires Reached(e.history, Executing) ==> Authorized(a, l.effects[id].proposal, id)
    requires Succeeded(e.record.state) ==> id in files.records
    ensures var l' := Put(l, id, e); Ordinary(l') && Backed(a, l') && Recorded(l', files)
  {
    var l' := Put(l, id, e);
    assert l'.effects == l.effects[id := e.record];
    hide Put, Authorized, Reached, EntryOf;
    forall other | ExecutedIn(l', other) ensures Authorized(a, l'.effects[other].proposal, other) {
      PutEntry(l, id, e, other);
      assert other != id ==> ExecutedIn(l, other);
    }
  }

  lemma MoveKeepsParts(a: A.Store, l: Ledger, files: P.Files, id: Text, m: Move)
    requires CacheSound(l) && Backed(a, l) && Recorded(l, files) && Apply(l, MoveEffect(id, m)).Changed?
    requires m.Dispatch? ==> Authorized(a, l.effects[id].proposal, id)
    requires m.Observe? || m.Resolve? ==> id in files.records
    ensures var l' := Apply(l, MoveEffect(id, m)).ledger;
            Ordinary(l') && Backed(a, l') && Recorded(l', files)
  {
    assert Filed(l, id);
    var entry := EntryOf(l, id);
    assert EntrySound(entry) && entry.record == l.effects[id];
    assert ExecutedIn(l, id) <==> Reached(entry.history, Executing);
    MoveHistory(entry, m);
    MoveIsLegal(entry, m);
    hide LedgerSound, Ordinary, Filed, EntrySound, MoveEntry, Authorized, Reached, EntryOf, Put;
    PutKeepsParts(a, l, files, id, MoveEntry(entry, m).value);
  }

  lemma EnteredKeepsParts(a: A.Store, l: Ledger, files: P.Files, r: EffectRecord)
    requires Indexed(l) && Ordinary(l) && Backed(a, l) && Recorded(l, files) && Fresh(l, r) && Plain(r)
    ensures var l' := Entered(l, r); Ordinary(l') && Backed(a, l') && Recorded(l', files)
  {
    hide Indexed, EffectIdOf, EntryOf, Authorized, Reached;
    var l' := Entered(l, r);
    assert l'.effects == l.effects[r.effectId := r];
    NewEntryHistory(l, r);
    hide Entered, Fresh;
    forall other | ExecutedIn(l', other) ensures other in l.effects && ExecutedIn(l, other) {
      EnteredEntry(l, r, other);
    }
  }

  lemma NewEntryHistory(l: Ledger, r: EffectRecord)
    requires Indexed(l) && Fresh(l, r)
    ensures !ExecutedIn(Entered(l, r), r.effectId)
  {
    hide EffectIdOf, Filed;
    assert EntryOf(Entered(l, r), r.effectId).history == [EffectTransition(EffectState.Reserved, ByDecision(r.admission.decision))];
  }

  lemma ReserveKeepsParts(a: A.Store, l: Ledger, files: P.Files, op: Op)
    requires CacheSound(l) && Backed(a, l) && Recorded(l, files) && Apply(l, op).Changed?
    requires op.ReserveRuntime? && op.proposal.placement == Placement(None, None)
    ensures var l' := Apply(l, op).ledger;
            Ordinary(l') && Backed(a, l') && Recorded(l', files) && EffectIdOf(op.proposal) in l'.effects
  {
    ReserveIsNew(l, op);
    hide Indexed, CompensationsSound, OrderingSound, Apply, Ordinary, Backed, Recorded;
    EnteredKeepsParts(a, l, files, NewRecord(op.proposal, op.decision, op.forwarding, op.now));
  }

  lemma GuardKeepsParts(a: A.Store, l: Ledger, files: P.Files, op: Op)
    requires CacheSound(l) && Backed(a, l) && Recorded(l, files) && (op.MarkGuardPending? || op.ClearGuardPending?)
    ensures Apply(l, op).Changed?
    ensures var l' := Apply(l, op).ledger;
            Ordinary(l') && Backed(a, l') && Recorded(l', files)
  {
    hide LedgerSound, Authorized, Reached;
    var l' := Apply(l, op).ledger;
    assert forall id :: ExecutedIn(l', id) ==> ExecutedIn(l, id);
  }

  /** One move on the effect at hand. */
  lemma MoveStep(s: System, id: Text, m: Move, at: Point)
    requires Invariant(s) && Apply(s.ledger, MoveEffect(id, m)).Changed?
    requires forall other :: Ahead(s.point, other) ==> other == id
    requires Ahead(at, id)
    requires m.Dispatch? ==> Authorized(s.authority, s.ledger.effects[id].proposal, id)
    requires m.Observe? || m.Resolve? ==> id in s.files.records
    requires PointSound(s.(ledger := Apply(s.ledger, MoveEffect(id, m)).ledger, point := at))
    ensures Invariant(s.(ledger := Apply(s.ledger, MoveEffect(id, m)).ledger, point := at))
  {
    hide R.WellFormed, R.BoundTo, LedgerSound, Extends, Ordinary, Backed, AllSendable, Sourced, Recorded, PointSound, SameRecords, Apply;
    OthersSynced(s, MoveEffect(id, m), at, id);
    MoveKeepsParts(s.authority, s.ledger, s.files, id, m);
  }

  /** What a move makes of the state, where the next point depends on it. */
  lemma MoveState(l: Ledger, id: Text, m: Move)
    requires Apply(l, MoveEffect(id, m)).Changed?
    ensures id in l.effects && id in Apply(l, MoveEffect(id, m)).ledger.effects
    ensures m.Dispatch? ==> Apply(l, MoveEffect(id, m)).ledger.effects[id].state == Executing
    ensures m.BeginReconciliation? ==> Apply(l, MoveEffect(id, m)).ledger.effects[id].state == Reconciling
    ensures m.Dispatch? ==> Grants(m.decision) && DecisionFits(m.decision, l.effects[id].proposal)
  {
  }

  lemma DispatchIsAuthorized(a: A.Store, p: EffectProposal, d: Decision, id: Text)
    requires R.BoundTo(a, d.request.requestId, RequestDigest(d.request), id) && DecisionFits(d, p)
    ensures Authorized(a, p, id)
  {
  }

  /** Classifying a reconciliation that has begun is never refused. */
  lemma ClassifyIsAccepted(l: Ledger, id: Text, m: Move)
    requires LedgerSound(l) && StateIs(l, id, {Reconciling})
    requires m.Inconclusive? || (m.Resolve? && m.observation.independent)
    ensures Apply(l, MoveEffect(id, m)).Changed?
  {
    assert Filed(l, id);
    var h := EntryOf(l, id).history;
    assert h[|h| - 1].state == Reconciling;
  }

  /******* Steps on the ledger *******/

  lemma AtPoint(s: System)
    requires Invariant(s)
    ensures PointSound(s) && LedgerSound(s.ledger)
  {
    hide R.WellFormed, LedgerSound, Ordinary, Synced, Backed, AllSendable, Sourced, Recorded, PointSound;
  }

  lemma IdleKeeps(s: System)
    requires Invariant(s) && forall id :: !Ahead(s.point, id)
    ensures Invariant(s.(point := Idle))
  {
    hide R.WellFormed, R.BoundTo, CacheSound, Extends, Backed, AllSendable, Sourced, Recorded;
  }

  /** A step that applies one move and, if it is accepted, goes on to `at`. */
  lemma AppliedKeeps(s: System, id: Text, m: Move, at: Point)
    requires Invariant(s)
    requires !s.point.Checkpointing?
    requires s.point.Classifying? ==> s.point.id == id && Apply(s.ledger, MoveEffect(id, m)).Changed?
    requires (at.Checkpointing? || at.Classifying?) && at.id == id
    requires Apply(s.ledger, MoveEffect(id, m)).Changed? ==>
               && (m.Dispatch? ==> Authorized(s.authority, s.ledger.effects[id].proposal, id))
               && (m.Observe? || m.Resolve? ==> id in s.files.records)
               && PointSound(s.(ledger := Apply(s.ledger, MoveEffect(id, m)).ledger, point := at))
    ensures Invariant(Applied(s, MoveEffect(id, m), at))
  {
    if Apply(s.ledger, MoveEffect(id, m)).Changed? {
      hide Invariant, PointSound, Apply, Authorized;
      MoveStep(s, id, m, at);
    } else {
      hide Invariant, Apply;
      IdleKeeps(s);
    }
  }

  lemma CheckpointNext(s: System, l: Ledger, id: Text, after: After)
    requires id in l.effects
    requires after.AfterDispatch? ==> l.effects[id].state == Executing
    requires after.AfterResponse? ==> id in s.files.records
    ensures PointSound(s.(ledger := l, point := Checkpointing(id, after)))
  {
  }

  lemma ClassifyNext(s: System, l: Ledger, id: Text, seen: Option<P.Observation>)
    requires StateIs(l, id, {Reconciling}) && (seen.Some? ==> id in s.files.records)
    ensures PointSound(s.(ledger := l, point := Classifying(id, seen)))
  {
  }

  lemma DispatchKeeps(s: System, at: nat)
    requires Invariant(s) && s.point.Decided?
    ensures Invariant(Dispatched(s, s.point.id, s.point.decision, at))
  {
    hide Invariant, PointSound, Apply, R.BoundTo, DecisionFits, Authorized, CallFor, Grants, Applied;
    var id, d := s.point.id, s.point.decision;
    if id in s.ledger.effects {
      DispatchMoveKeeps(s, Move.Dispatch(CallFor(s.ledger.effects[id], at), d));
    } else {
      IdleKeeps(s);
    }
  }

  lemma DecidedSound(s: System)
    requires Invariant(s) && s.point.Decided? && Grants(s.point.decision)
    ensures R.BoundTo(s.authority, s.point.decision.request.requestId, RequestDigest(s.point.decision.request), s.point.id)
  {
    hide Invariant, LedgerSound, ExecutedIn, R.BoundTo;
    AtPoint(s);
  }

  lemma DispatchMoveKeeps(s: System, m: Move)
    requires Invariant(s) && s.point.Decided? && m.Dispatch? && m.decision == s.point.decision
    ensures Invariant(Applied(s, MoveEffect(s.point.id, m), Checkpointing(s.point.id, AfterDispatch)))
  {
    hide *;
    var id := s.point.id;
    if Apply(s.ledger, MoveEffect(id, m)).Changed? {
      MoveState(s.ledger, id, m);
      DecidedSound(s);
      DispatchIsAuthorized(s.authority, s.ledger.effects[id].proposal, m.decision, id);
      CheckpointNext(s, Apply(s.ledger, MoveEffect(id, m)).ledger, id, AfterDispatch);
    }
    AppliedKeeps(s, id, m, Checkpointing(id, AfterDispatch));
  }

  lemma ProbeMoveKeeps(s: System, m: Move, seen: Option<P.Observation>)
    requires Invariant(s) && s.point.Probing? && (seen.Some? ==> s.point.id in s.files.records) && m.BeginReconciliation?
    ensures Invariant(Applied(s, MoveEffect(s.point.id, m), Classifying(s.point.id, seen)))
  {
    hide *;
    var id := s.point.id;
    if Apply(s.ledger, MoveEffect(id, m)).Changed? {
      MoveState(s.ledger, id, m);
      ClassifyNext(s, Apply(s.ledger, MoveEffect(id, m)).ledger, id, seen);
    }
    AppliedKeeps(s, id, m, Classifying(id, seen));
  }

  lemma ProbeKeeps(s: System, at: nat, seen: Option<P.Observation>)
    requires Invariant(s) && s.point.Probing? && (seen.Some? ==> s.point.id in s.files.records)
    ensures Invariant(Probed(s, s.point.id, at, seen))
  {
    hide Invariant, PointSound, Apply, Applied, CallFor;
    var id := s.point.id;
    if id in s.ledger.effects { ProbeMoveKeeps(s, BeginReconciliation(CallFor(s.ledger.effects[id], at)), seen); }
    else { IdleKeeps(s); }
  }

  lemma ClassifyingSound(s: System)
    requires Invariant(s) && s.point.Classifying?
    ensures LedgerSound(s.ledger) && StateIs(s.ledger, s.point.id, {Reconciling})
    ensures s.point.seen.Some? ==> s.point.id in s.files.records
  {
    hide Invariant, LedgerSound, ExecutedIn, R.BoundTo;
    AtPoint(s);
  }

  lemma ClassifyKeeps(s: System, m: Move)
    requires Invariant(s) && s.point.Classifying?
    requires m.Inconclusive? || (m.Resolve? && m.observation.independent && s.point.seen.Some?)
    ensures Invariant(Applied(s, MoveEffect(s.point.id, m), Checkpointing(s.point.id, Stop)))
  {
    hide *;
    var id := s.point.id;
    ClassifyingSound(s);
    ClassifyIsAccepted(s.ledger, id, m);
    MoveState(s.ledger, id, m);
    CheckpointNext(s, Apply(s.ledger, MoveEffect(id, m)).ledger, id, Stop);
    AppliedKeeps(s, id, m, Checkpointing(id, Stop));
  }

  lemma AnsweredSound(s: System)
    requires Invariant(s) && (s.point.Answering? || s.point.Concluding?)
    ensures s.point.id in s.files.records
  {
    hide Invariant, LedgerSound, ExecutedIn, R.BoundTo;
    AtPoint(s);
  }

  lemma SettleKeeps(s: System, m: Move, after: After)
    requires Invariant(s)
    requires s.point.Rejecting? || s.point.Launching? || s.point.Awaiting? || s.point.Answering? || s.point.Concluding?
    requires !m.Dispatch? && !after.AfterDispatch?
    requires m.Observe? || m.Resolve? || after.AfterResponse? ==> s.point.Answering? || s.point.Concluding?
    ensures Invariant(Applied(s, MoveEffect(s.point.id, m), Checkpointing(s.point.id, after)))
  {
    hide *;
    var id := s.point.id;
    if s.point.Answering? || s.point.Concluding? { AnsweredSound(s); }
    if Apply(s.ledger, MoveEffect(id, m)).Changed? {
      MoveState(s.ledger, id, m);
      CheckpointNext(s, Apply(s.ledger, MoveEffect(id, m)).ledger, id, after);
    }
    AppliedKeeps(s, id, m, Checkpointing(id, after));
  }

  lemma GuardKeeps(s: System, op: Op)
    requires Invariant(s) && s.point.Idle? && (op.MarkGuardPending? || op.ClearGuardPending?)
    ensures Invariant(Applied(s, op, Idle))
  {
    assert Apply(s.ledger, op).Changed?;
    hide R.WellFormed, LedgerSound, Extends, Ordinary, Backed, AllSendable, Sourced, Recorded, Apply, SameRecords;
    OthersSynced(s, op, Idle, []);
    GuardKeepsParts(s.authority, s.ledger, s.files, op);
  }

  lemma ReplayIsOnFile(l: Ledger, op: Op)
    requires LedgerSound(l) && op.ReserveRuntime? && Apply(l, op).Answered?
    ensures Apply(l, op).record.effectId in l.effects
  {
    assert Filed(l, l.byKey[op.proposal.idempotencyKey]);
  }

  lemma RecheckKeeps(s: System, id: Text, after: After)
    requires Invariant(s) && (forall other :: !Ahead(s.point, other)) && id in s.ledger.effects && after.AfterReserve?
    ensures Invariant(s.(point := Checkpointing(id, after)))
  {
    hide R.WellFormed, R.BoundTo, CacheSound, Extends, Backed, AllSendable, Sourced, Recorded;
  }

  lemma NewRecordKeeps(s: System, op: Op, after: After)
    requires Invariant(s) && s.point.AwaitReserve? && Apply(s.ledger, op).Changed? && after.AfterReserve?
    requires op.ReserveRuntime? && op.proposal.placement == Placement(None, None)
    ensures Invariant(s.(ledger := Apply(s.ledger, op).ledger, point := Checkpointing(EffectIdOf(op.proposal), after)))
  {
    hide R.WellFormed, LedgerSound, Extends, Ordinary, Backed, AllSendable, Sourced, Recorded, Apply, SameRecords, EffectIdOf;
    var id := EffectIdOf(op.proposal);
    OthersSynced(s, op, Checkpointing(id, after), id);
    ReserveKeepsParts(s.authority, s.ledger, s.files, op);
  }

  lemma ReserveKeeps(s: System, now: nat)
    requires Invariant(s) && s.point.AwaitReserve?
    ensures Invariant(EffectService.Reserved(s, s.point.request, s.point.decision, now))
  {
    hide Invariant, PointSound, LedgerSound, Apply, EffectIdOf, ForwardingOf;
    var r, d := s.point.request, s.point.decision;
    var op := ReserveRuntime(ProposalOf(r), d, ForwardingOf(r), now);
    AtPoint(s);
    match Apply(s.ledger, op)
    case Refused(_) => IdleKeeps(s);
    case Answered(existing) =>
      ReplayIsOnFile(s.ledger, op);
      RecheckKeeps(s, existing.effectId, AfterReserve(r));
    case Changed(_) => NewRecordKeeps(s, op, AfterReserve(r));
  }

  /******* Checkpoints *******/

  lemma InsertShape(durable: Ledger, l: Ledger, id: Text)
    requires id in l.effects && l.effects[id].effectId == id
    ensures var d' := Insert(durable, SnapshotOf(l, id));
            && d'.effects == durable.effects[id := l.effects[id]]
            && d'.byKey == durable.byKey[l.effects[id].proposal.idempotencyKey := id]
            && d'.trails.attempts.Keys == durable.trails.attempts.Keys + {id}
            && d'.trails.reconciliations.Keys == durable.trails.reconciliations.Keys + {id}
            && d'.trails.history.Keys == durable.trails.history.Keys + {id}
  {
  }

  lemma InsertFiled(durable: Ledger, l: Ledger, id: Text, other: Text)
    requires Indexed(durable) && Indexed(l) && Extends(durable, l) && id in l.effects
    requires other in durable.effects || other == id
    ensures var d' := Insert(durable, SnapshotOf(l, id));
            && Filed(d', other) && Grown(d', l, other)
            && (other in durable.effects ==> Grown(durable, d', other))
  {
    hide Insert, EntrySound, EntryOf, EffectIdOf, SnapshotOf;
    assert Filed(l, id);
    EntryRecord(l, id);
    InsertShape(durable, l, id);
    InsertEntry(durable, l, id, other);
    if other in durable.effects { assert Filed(durable, other) && Grown(durable, l, other) && Filed(l, other); }
  }

  lemma InsertIndexed(durable: Ledger, l: Ledger, id: Text)
    requires Indexed(durable) && Indexed(l) && Extends(durable, l) && id in l.effects
    ensures var d' := Insert(durable, SnapshotOf(l, id));
            Indexed(d') && Extends(d', l) && Extends(durable, d') && d'.effects == durable.effects[id := l.effects[id]]
  {
    hide Insert, EntrySound, EntryOf, EffectIdOf, SnapshotOf, Grown, Filed;
    FiledUnderItself(l, id);
    InsertShape(durable, l, id);
    var d' := Insert(durable, SnapshotOf(l, id));
    forall other | other in d'.effects
      ensures Filed(d', other) && Grown(d', l, other) && (other in durable.effects ==> Grown(durable, d', other))
    {
      InsertFiled(durable, l, id, other);
    }
    forall k | k in d'.byKey
      ensures d'.byKey[k] in d'.effects && d'.effects[d'.byKey[k]].proposal.idempotencyKey == k
    {
      if d'.byKey[k] == id && k in durable.byKey && durable.byKey[k] == id { GrownProposal(durable, l, id); }
    }
  }

  lemma FiledUnderItself(l: Ledger, id: Text)
    requires Indexed(l) && id in l.effects
    ensures l.effects[id].effectId == id
  {
    assert Filed(l, id);
  }

  lemma GrownProposal(l: Ledger, l': Ledger, id: Text)
    requires Extends(l, l') && id in l.effects
    ensures id in l'.effects && l'.effects[id].proposal == l.effects[id].proposal
  {
    assert Grown(l, l', id);
  }

  lemma CheckpointLedger(durable: Ledger, l: Ledger, id: Text)
    requires CacheSound(durable) && CacheSound(l) && Extends(durable, l) && id in l.effects
    requires forall other :: other in l.effects && other != id ==>
               other in durable.effects && durable.effects[other] == l.effects[other]
    ensures var d' := Insert(durable, SnapshotOf(l, id));
            CacheSound(d') && Extends(d', l) && Extends(durable, d') && d'.effects == l.effects
  {
    hide Insert, Indexed, Extends, SnapshotOf, CompensationsSound, OrderingSound;
    InsertIndexed(durable, l, id);
    var d' := Insert(durable, SnapshotOf(l, id));
    forall other | other in durable.effects ensures other in l.effects { GrownProposal(durable, l, other); }
    assert d'.effects == l.effects;
    SameEffectsSound(l, d');
  }

  /** Growth keeps what was sendable so. */
  lemma SendableLasts(durable: Ledger, durable': Ledger, sent: set<P.Command>)
    requires LedgerSound(durable) && LedgerSound(durable') && Extends(durable, durable') && AllSendable(durable, sent)
    ensures AllSendable(durable', sent)
  {
    forall c | c in sent ensures Sendable(durable', c) {
      assert Sendable(durable, c);
      hide LedgerSound, Extends, CommandFor;
      SameCommand(durable, durable', c.effectId);
      ExecutionLasts(durable, durable', c.effectId);
    }
  }

  lemma ExecutionLasts(l: Ledger, l': Ledger, id: Text)
    requires Extends(l, l') && ExecutedIn(l, id)
    ensures ExecutedIn(l', id)
  {
    assert Grown(l, l', id);
    var h, h' := EntryOf(l, id).history, EntryOf(l', id).history;
    var i :| 0 <= i < |h| && h[i].state == Executing;
    assert h'[i] == h[i];
  }

  lemma CheckpointedSound(s: System, id: Text)
    requires CacheSound(s.ledger) && CacheSound(s.durable) && Synced(s.durable, s.ledger, s.point)
    requires s.point.Checkpointing? && s.point.id == id && id in s.ledger.effects
    ensures var d' := Checkpointed(s, id);
            CacheSound(d') && Extends(d', s.ledger) && Extends(s.durable, d') && d'.effects == s.ledger.effects
  {
    hide LedgerSound, Ordinary, Grown, Insert, SnapshotOf;
    assert forall other :: other in s.durable.effects ==> Grown(s.durable, s.ledger, other);
    if id in s.durable.effects && s.durable.effects[id] == s.ledger.effects[id] {
      forall other | other in s.durable.effects ensures other in s.ledger.effects {
        GrownProposal(s.durable, s.ledger, other);
      }
      assert s.durable.effects == s.ledger.effects;
      ExtendsItself(s.durable);
    } else {
      CheckpointLedger(s.durable, s.ledger, id);
    }
  }

  lemma ContinueSound(s: System, d': Ledger)
    requires PointSound(s) && s.point.Checkpointing? && LedgerSound(d') && d'.effects == s.ledger.effects
    ensures PointSound(s.(durable := d', point := Continue(s, s.point.id, s.point.after)))
  {
    var id := s.point.id;
    hide LedgerSound, Reached;
    if s.point.after.AfterDispatch? { StateTells(d', id); }
  }

  lemma CheckpointKeeps(s: System)
    requires Invariant(s) && s.point.Checkpointing? && s.point.id in s.ledger.effects
    ensures Invariant(s.(durable := Checkpointed(s, s.point.id), point := Continue(s, s.point.id, s.point.after)))
  {
    hide R.WellFormed, LedgerSound, Ordinary, Extends, Backed, AllSendable, Sourced, Recorded, PointSound, Checkpointed, Continue;
    CheckpointedSound(s, s.point.id);
    var d' := Checkpointed(s, s.point.id);
    SendableLasts(s.durable, d', s.sent);
    ContinueSound(s, d');
    ContinueIsClean(s);
  }

  lemma ContinueIsClean(s: System)
    requires s.point.Checkpointing?
    ensures forall id :: !Ahead(Continue(s, s.point.id, s.point.after), id)
  {
  }

  /******* Restarts *******/

  lemma SnapshotsList(l: Ledger, order: seq<Text>)
    requires forall id :: id in l.effects <==> id in order
    ensures Lists(l, order, Snapshots(l, order))
  {
    hide SnapshotOf;
    assert forall i :: 0 <= i < |order| ==> order[i] in order;
  }

  lemma RestartedSound(durable: Ledger, order: seq<Text>)
    requires LedgerSound(durable) && forall id :: id in durable.effects <==> id in order
    ensures var l := Restarted(durable, order);
            LedgerSound(l) && Extends(durable, l) && l.effects == durable.effects
            && forall id :: id in l.effects ==> EntryOf(l, id) == EntryOf(durable, id)
  {
    var blank, snapshots := Session(EmptyLedger, true, false, None), Snapshots(durable, order);
    hide LedgerSound, EntryOf, Snapshots, Rebuilt, Lists;
    SnapshotsList(durable, order);
    RestoreRoundTrip(blank, durable, order, snapshots);
    RebuiltTrails(EmptyLedger, snapshots);
    RestoreWhenAllParse(blank, snapshots);
    var c := Rebuilt(EmptyLedger, snapshots);
    var l := Restarted(durable, order);
    assert l == c.(registry := l.registry);
    RegistryIsApart(c, l);
    SameEntriesSound(durable, l);
  }

  lemma RegistryIsApart(c: Ledger, l: Ledger)
    requires l == c.(registry := l.registry)
    ensures forall id :: id in c.effects ==> EntryOf(l, id) == EntryOf(c, id)
  {
  }

  lemma RestartKeepsParts(s: System, l: Ledger)
    requires Invariant(s) && l.effects == s.durable.effects
    requires forall id :: id in l.effects ==> EntryOf(l, id) == EntryOf(s.durable, id)
    ensures Backed(s.authority, l) && Recorded(l, s.files) && Ordinary(l)
  {
    hide R.WellFormed, LedgerSound, SameRecords, AllSendable, Sourced, PointSound, Authorized, Reached;
    forall id | ExecutedIn(l, id) ensures Authorized(s.authority, l.effects[id].proposal, id) {
      assert ExecutedIn(s.durable, id);
      ExecutionLasts(s.durable, s.ledger, id);
      GrownProposal(s.durable, s.ledger, id);
    }
    forall id | id in l.effects && Succeeded(l.effects[id].state) ensures id in s.files.records {
      assert Grown(s.durable, s.ledger, id);
      EntryRecord(s.durable, id);
      EntryRecord(s.ledger, id);
    }
  }

  lemma RestartKeeps(s: System, order: seq<Text>)
    requires Invariant(s) && forall id :: id in s.durable.effects <==> id in order
    ensures Invariant(s.(ledger := Restarted(s.durable, order), point := Idle))
  {
    hide R.WellFormed, LedgerSound, Ordinary, Extends, Backed, AllSendable, Sourced, Recorded, Restarted, EntryOf;
    RestartedSound(s.durable, order);
    RestartKeepsParts(s, Restarted(s.durable, order));
  }

  /******* Every step *******/

  lemma StepKeeps(s: System, t: Step)
    requires Invariant(s) && Enabled(s, t)
    ensures Invariant(Next(s, t))
  {
    hide Invariant, Applied, Probed, Dispatched, EffectService.Reserved, Checkpointed, Continue, Restarted;
    match t
    case AuthorityActs(_) => AuthorityActsKeeps(s, t);
    case ProviderActs(_) => ProviderActsKeeps(s, t);
    case Restart(order) => RestartKeeps(s, order);
    case Hear(_) => HearKeeps(s, t);
    case Reserve(now) => ReserveKeeps(s, now);
    case Checkpoint => CheckpointKeeps(s);
    case Reject(evidence) => SettleKeeps(s, Move.Reject(evidence), Stop);
    case Dispatch(at) => DispatchKeeps(s, at);
    case Send => SendKeeps(s, t);
    case Lose => SettleKeeps(s, LoseTransport("provider response unavailable"), Stop);
    case RecordResponse(response) => SettleKeeps(s, Move.RecordResponse(response), AfterResponse(s.point.o));
    case Conclude(evidence) => SettleKeeps(s, Confirmed(evidence), Stop);
    case Probe(at, seen) => ProbeKeeps(s, at, seen);
    case Classify(source, evidence, verdict) => ClassifyKeeps(s, Verdict(source, evidence, verdict));
    case Guard(objective, ready) =>
      GuardKeeps(s, if ready then ClearGuardPending(objective) else MarkGuardPending(objective));
    case _ => MovesKeep(s, t);
  }
}
