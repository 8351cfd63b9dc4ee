/** How one pass of the effect service can go and what it then has to come to,
    stated over the states before and after: when a request has every promise of
    success, what is left behind when it succeeds, and what when it does not. */
module EffectOutcomes {
  import opened Contracts
  import opened EffectService
  import opened EffectServiceRuns
  import opened EffectSafety
  import L = EffectLedger
  import LedgerInvariant
  import LA = LedgerAnswers
  import A = AuthorityStore
  import AA = AuthorityAnswers
  import G = Grants
  import R = AuthorityRuns
  import P = OfflineProvider
  import PA = ProviderAnswers

  /** How a pass goes: clock readings, what answers, and how far the provider's
      process gets. */
  datatype Chance = Chance(
    now: nat,
    commitAt: nat,
    dispatchAt: nat,
    pid: nat,
    survives: nat,
    preconditionHolds: bool,
    prepareHeard: bool,
    commitHeard: bool,
    chainPersists: bool,
    answerHeard: bool,
    rejectionKnown: bool,
    guarded: bool,
    outcomeKnown: bool,
    succeeded: bool,
    response: string,
    evidence: string)

  /** What the caller is told; `Exited` is a process that ends on an error. */
  datatype Reply = Rejected | Unavailable | Committed | Failed | OutcomeUnknown | Exited

  /** The command that carries out a request as a given effect. */
  function CommandOf(id: Text, r: EffectRequest): P.Command
  {
    P.Execute(id, r.commandId, r.terms.idempotencyKey, r.terms.parametersDigest, r.authority.operation,
              Payload(r.objectiveId, r.authority.capability, r.authority.target,
                      if r.authority.operation == Compensate then Some(r.authority.target) else None))
  }

  /******* One effect *******/

  /** The effect's entry in the ledger is this one now, and no other record has
      changed. */
  predicate Turned(l: L.Ledger, l': L.Ledger, id: Text, e: L.Entry)
  {
    id in l.effects && l'.effects == l.effects[id := e.record] && L.EntryOf(l', id) == e
  }

  /** It is so in the cache, and its record is in the store. */
  predicate Becomes(before: System, after: System, id: Text, e: L.Entry)
  {
    && Turned(before.ledger, after.ledger, id, e)
    && id in after.durable.effects && after.durable.effects[id] == e.record
  }

  const OBSERVED := "habitat-execution-observe+state-transition"
  const LOST := "provider response unavailable"

  /** A new state, with what it is noted with. */
  function NotedEntry(e: L.Entry, state: L.EffectState, evidence: L.Evidence): L.Entry
  {
    L.Entry(e.record.(state := state), e.attempts, e.reconciliations, e.history + [L.EffectTransition(state, evidence)])
  }

  /** Dispatched, once, at this time. */
  function DispatchedEntry(e: L.Entry, at: nat): L.Entry
  {
    NotedEntry(e, L.Executing, L.DispatchPersisted).(attempts := [L.Attempt(CallFor(e.record, at), None, None, None)])
  }

  /** Of the one dispatch: its response, and what it came to. */
  function Closed(attempts: seq<L.Attempt>, response: string, source: string, state: L.EffectState): seq<L.Attempt>
  {
    if |attempts| == 1 then [L.Attempt(attempts[0].call, Some(response), Some(source), Some(state))] else attempts
  }

  /** The response is noted first, and then what was observed. */
  function ConfirmedEntry(e: L.Entry, chance: Chance): L.Entry
  {
    NotedEntry(e, L.ObservedSucceeded, L.Reported(chance.evidence)).(
      attempts := Closed(e.attempts, chance.response, OBSERVED, L.ObservedSucceeded))
  }

  function LostEntry(e: L.Entry): L.Entry
  {
    NotedEntry(e, L.OutcomeUnknown, L.Reported(LOST)).(attempts := Closed(e.attempts, LOST, "transport", L.OutcomeUnknown))
  }

  function RejectedEntry(e: L.Entry, evidence: string): L.Entry
  {
    NotedEntry(e, L.EffectState.Rejected, L.Reported(evidence))
  }

  /** One more reconciliation, made at this time. */
  function ProbedEntry(e: L.Entry, at: nat): L.Entry
  {
    NotedEntry(e, L.Reconciling, L.ReconciliationDispatched).(
      reconciliations := e.reconciliations + [L.Attempt(CallFor(e.record, at), None, None, None)])
  }

  /** The state a verdict leads to. */
  function ResolvedTo(verdict: Option<bool>): L.EffectState
  {
    match verdict
    case None => L.Reconciling
    case Some(succeeded) => if succeeded then L.ResolvedSucceeded else L.ResolvedFailed
  }

  /** The newest reconciliation, and the effect with it, classified. */
  function ClassifiedEntry(e: L.Entry, evidence: string, verdict: Option<bool>): L.Entry
  {
    var n := |e.reconciliations|;
    NotedEntry(e, ResolvedTo(verdict), L.Reported(evidence)).(
      reconciliations :=
        if n == 0 then []
        else e.reconciliations[..n - 1]
               + [L.Attempt(e.reconciliations[n - 1].call, Some(evidence), Some("provider"), Some(ResolvedTo(verdict)))])
  }

  /** The effect's objective is marked as guarded exactly if it has no open effect and
      the state service took the guard. */
  predicate Guarded(l: L.Ledger, id: Text, taken: bool)
  {
    && id in l.effects
    && var objective := l.effects[id].proposal.intent.objectiveId;
      objective !in l.registry.pendingGuards <==> taken && L.ObjectiveComplete(l, objective)
  }

  /** What confirming an executing effect comes to, and losing its answer. */
  predicate Settled(before: System, after: System, id: Text, chance: Chance, answer: Reply)
  {
    if StateIs(before.ledger, id, {L.Executing}) then
      && answer == Committed && Becomes(before, after, id, ConfirmedEntry(L.EntryOf(before.ledger, id), chance))
      && Guarded(after.ledger, id, chance.guarded)
    else answer == Exited
  }

  predicate Lost(before: System, after: System, id: Text, answer: Reply)
  {
    if StateIs(before.ledger, id, {L.Executing}) then
      answer == OutcomeUnknown && Becomes(before, after, id, LostEntry(L.EntryOf(before.ledger, id)))
    else answer == Exited
  }

  /** What rejecting a reservation comes to. */
  predicate Refused(before: System, after: System, id: Text, evidence: string, persisted: bool, answer: Reply)
  {
    StateIs(before.ledger, id, {L.EffectState.Reserved}) ==>
      if persisted then answer == Failed && Becomes(before, after, id, RejectedEntry(L.EntryOf(before.ledger, id), evidence))
      else answer == Exited
  }

  /** What a verdict on an effect in reconciliation comes to. */
  predicate Classified(before: System, after: System, id: Text, verdict: Option<bool>, chance: Chance, answer: Reply)
  {
    StateIs(before.ledger, id, {L.Reconciling}) ==>
      && Becomes(before, after, id, ClassifiedEntry(L.EntryOf(before.ledger, id), chance.evidence, verdict))
      && match verdict
         case None => answer == OutcomeUnknown
         case Some(true) => answer == Committed && Guarded(after.ledger, id, chance.guarded)
         case Some(false) => answer == Failed
  }

  /** The provider carries the command out, the state service takes the result, and
      the answer arrives. */
  predicate Carried(files: P.Files, c: P.Command, chance: Chance)
  {
    && chance.chainPersists && chance.answerHeard
    && |P.Writes(files, chance.pid, c)| <= chance.survives && P.Answer(files, c).Ok?
  }

  /** A launch succeeds on record if the command is carried out, and otherwise
      leaves the outcome unknown; the provider has made the writes it lived for. */
  predicate Launched(before: System, after: System, id: Text, chance: Chance, answer: Reply)
  {
    && id in before.ledger.effects
    && var c := CommandFor(before.ledger.effects[id]);
      && after.files == (if chance.chainPersists then P.Interrupted(before.files, chance.pid, c, chance.survives).0 else before.files)
      && (if Carried(before.files, c, chance) then
            && answer == Committed && Becomes(before, after, id, ConfirmedEntry(LaunchEntry(before.ledger, id, chance), chance))
            && Guarded(after.ledger, id, chance.guarded)
          else answer == OutcomeUnknown && Becomes(before, after, id, LostEntry(LaunchEntry(before.ledger, id, chance))))
  }

  /** The entry the launch starts from: dispatched first, if it was still reserved. */
  function LaunchEntry(l: L.Ledger, id: Text, chance: Chance): L.Entry
    requires id in l.effects
  {
    if l.effects[id].state == L.EffectState.Reserved then DispatchedEntry(L.EntryOf(l, id), chance.dispatchAt) else L.EntryOf(l, id)
  }

  /** What the launch comes to: confirmed if the execution answers and is heard. */
  lemma LaunchComes(s: System, s': System, id: Text, chance: Chance, answer: Reply, heard: bool)
    requires id in s.ledger.effects
    requires var (files, r) := P.Interrupted(s.files, chance.pid, CommandFor(s.ledger.effects[id]), chance.survives);
             && (heard <==> chance.chainPersists && r.Ok? && chance.answerHeard)
             && s'.files == if chance.chainPersists then files else s.files
    requires if heard then Settled(s, s', id, chance, answer) else Lost(s, s', id, answer)
    ensures Sent(s, s', id, chance, answer)
  {
    hide P.Interrupted, P.Writes, P.Answer, Becomes, Guarded, ConfirmedEntry, LostEntry, DispatchedEntry;
    PA.ExecutedIsObserved(s.files, chance.pid, CommandFor(s.ledger.effects[id]), chance.survives);
  }

  /** Both start from the records alone. */
  lemma OutcomeApart(s: System, t: System, s': System, id: Text, chance: Chance, answer: Reply)
    requires t.ledger == s.ledger
    ensures Settled(s, s', id, chance, answer) <==> Settled(t, s', id, chance, answer)
    ensures Lost(s, s', id, answer) <==> Lost(t, s', id, answer)
  {
    hide Guarded;
  }

  /** A launch of an effect that is executing on record, or of one that is not. */
  predicate Sent(s: System, s': System, id: Text, chance: Chance, answer: Reply)
  {
    if StateIs(s.ledger, id, {L.Executing}) then Launched(s, s', id, chance, answer) else answer == Exited
  }

  /** What a move makes of an entry. */
  predicate Stepped(e: L.Entry, e': L.Entry, m: L.Move)
  {
    && e'.record == e.record.(state := LA.Target(e, m))
    && e'.history == (if LA.Noted(m) == [] then e.history else e.history + [L.EffectTransition(LA.Target(e, m), LA.Noted(m)[0])])
    && LA.Dispatched(e, e', m) && LA.Probed(e, e', m)
  }

  /** What a move makes of the records, and whether it is made. */
  predicate Moved(l: L.Ledger, l': L.Ledger, id: Text, m: L.Move, ok: bool)
  {
    && (ok <==> id in l.effects && LA.Movable(L.EntryOf(l, id), m))
    && (ok ==> id in l'.effects && Turned(l, l', id, L.EntryOf(l', id)) && Stepped(L.EntryOf(l, id), L.EntryOf(l', id), m))
    && (!ok ==> l' == l)
  }

  /** The response to the one dispatch. */
  function RespondedEntry(e: L.Entry, response: string): L.Entry
  {
    e.(attempts := if |e.attempts| == 1
                   then [L.Attempt(e.attempts[0].call, Some(response), e.attempts[0].source, e.attempts[0].classification)]
                   else e.attempts)
  }

  lemma RejectMoved(l: L.Ledger, l': L.Ledger, id: Text, evidence: string, ok: bool)
    requires Moved(l, l', id, L.Reject(evidence), ok)
    ensures ok <==> StateIs(l, id, {L.EffectState.Reserved})
    ensures ok ==> Turned(l, l', id, RejectedEntry(L.EntryOf(l, id), evidence))
  {
  }

  lemma ResponseMoved(l: L.Ledger, l': L.Ledger, id: Text, response: string, ok: bool)
    requires Moved(l, l', id, L.RecordResponse(response), ok)
    ensures ok <==> StateIs(l, id, {L.Executing})
    ensures ok ==> Turned(l, l', id, RespondedEntry(L.EntryOf(l, id), response))
  {
  }

  lemma DispatchMoved(l: L.Ledger, l': L.Ledger, id: Text, at: nat, d: Decision, ok: bool)
    requires id in l.effects && Moved(l, l', id, L.Dispatch(CallFor(l.effects[id], at), d), ok)
    ensures ok <==> StateIs(l, id, {L.EffectState.Reserved}) && LA.Granted(d, l.effects[id].proposal)
    ensures ok ==> Turned(l, l', id, DispatchedEntry(L.EntryOf(l, id), at))
    ensures !ok ==> l' == l
  {
    hide LA.Granted;
  }

  /** The effect can be probed once more. */
  predicate Probable(l: L.Ledger, id: Text)
  {
    StateIs(l, id, {L.OutcomeUnknown, L.Reconciling}) && |L.Get(l.trails.reconciliations, id)| < 8
  }

  lemma ProbeMoved(l: L.Ledger, l': L.Ledger, id: Text, at: nat, ok: bool)
    requires id in l.effects && Moved(l, l', id, L.BeginReconciliation(CallFor(l.effects[id], at)), ok)
    ensures ok <==> Probable(l, id)
    ensures ok ==> Turned(l, l', id, ProbedEntry(L.EntryOf(l, id), at))
  {
  }

  /** A move and its checkpoint. */
  predicate Taken(s: System, s': System, id: Text, m: L.Move, ok: bool)
  {
    && (ok <==> id in s.ledger.effects && LA.Movable(L.EntryOf(s.ledger, id), m))
    && (ok ==>
          && id in s'.ledger.effects && Becomes(s, s', id, L.EntryOf(s'.ledger, id))
          && Stepped(L.EntryOf(s.ledger, id), L.EntryOf(s'.ledger, id), m))
  }

  lemma MovedIsTaken(s: System, s': System, id: Text, m: L.Move, ok: bool)
    requires Moved(s.ledger, s'.ledger, id, m, ok)
    requires ok ==> id in s'.durable.effects && id in s'.ledger.effects && s'.durable.effects[id] == s'.ledger.effects[id]
    ensures Taken(s, s', id, m, ok)
  {
    hide LA.Movable, Stepped;
  }

  lemma LossTaken(s: System, s': System, id: Text, ok: bool)
    requires Taken(s, s', id, L.LoseTransport(LOST), ok)
    ensures ok <==> StateIs(s.ledger, id, {L.Executing})
    ensures ok ==> Becomes(s, s', id, LostEntry(L.EntryOf(s.ledger, id)))
  {
  }

  /** Confirmation, after the response. */
  lemma ConclusionTaken(s: System, responded: System, s': System, id: Text, chance: Chance, ok: bool)
    requires StateIs(s.ledger, id, {L.Executing})
    requires Turned(s.ledger, responded.ledger, id, RespondedEntry(L.EntryOf(s.ledger, id), chance.response))
    requires Taken(responded, s', id, Confirmed(chance.evidence), ok)
    ensures ok && Becomes(s, s', id, ConfirmedEntry(L.EntryOf(s.ledger, id), chance))
  {
  }

  lemma VerdictTaken(s: System, s': System, id: Text, evidence: string, verdict: Option<bool>, ok: bool)
    requires Taken(s, s', id, Verdict("provider", evidence, verdict), ok)
    ensures ok <==> StateIs(s.ledger, id, {L.Reconciling})
    ensures ok ==> Becomes(s, s', id, ClassifiedEntry(L.EntryOf(s.ledger, id), evidence, verdict))
  {
  }

  lemma RefusedIs(s: System, s': System, id: Text, evidence: string, persisted: bool, answer: Reply)
    requires Refused(s, s', id, evidence, persisted, answer) && StateIs(s.ledger, id, {L.EffectState.Reserved})
    ensures if persisted then Ended(s, s', id, evidence, answer) else answer == Exited
  {
    hide Becomes;
  }

  lemma TurnedBecomes(before: System, after: System, id: Text, e: L.Entry)
    requires id in after.durable.effects && id in after.ledger.effects && after.durable.effects[id] == after.ledger.effects[id]
    ensures Turned(before.ledger, after.ledger, id, e) ==> Becomes(before, after, id, e)
  {
  }

  lemma BecomesState(s: System, s': System, id: Text, e: L.Entry)
    requires Becomes(s, s', id, e)
    ensures id in s'.ledger.effects && s'.ledger.effects[id] == e.record
  {
  }

  lemma ConfirmedSucceeds(e: L.Entry, chance: Chance)
    ensures ConfirmedEntry(e, chance).record.state == L.ObservedSucceeded
  {
  }

  /** Guarding an objective moves no entry. */
  lemma BecomesStill(s: System, s': System, s'': System, id: Text, e: L.Entry)
    requires s''.ledger == s'.ledger.(registry := s''.ledger.registry) && s''.durable == s'.durable
    ensures Becomes(s, s', id, e) <==> Becomes(s, s'', id, e)
  {
  }

  lemma MoveSettles(l: L.Ledger, id: Text, m: L.Move)
    requires LedgerInvariant.LedgerSound(l)
    ensures var outcome := L.Apply(l, L.MoveEffect(id, m));
            Moved(l, if outcome.Changed? then outcome.ledger else l, id, m, outcome.Changed?)
  {
    hide LedgerInvariant.EntrySound, LA.Movable, LA.Target, LA.Dispatched, LA.Probed, LA.Noted, L.MoveEntry, L.EntryOf,
      LedgerInvariant.CompensationsSound, LedgerInvariant.OrderingSound;
    LA.MoveEffectExactly(l, id, m);
    if id in l.effects {
      assert LedgerInvariant.Filed(l, id);
      LA.MoveExactly(L.EntryOf(l, id), m);
    }
  }

  /** The store never refuses a checkpoint: a record that has ended there has not
      moved since. */
  lemma CheckpointNeverRefused(s: System)
    requires Invariant(s) && s.point.Checkpointing?
    ensures CheckpointAllowed(s, s.point.id)
  {
    hide R.WellFormed, CacheSound, SameRecords, Backed, AllSendable, Sourced, Recorded;
    var id := s.point.id;
    if id in s.durable.effects { assert LedgerInvariant.Grown(s.durable, s.ledger, id); }
  }

  lemma CheckpointWrites(s: System, id: Text)
    requires Invariant(s) && id in s.ledger.effects
    ensures id in Checkpointed(s, id).effects && Checkpointed(s, id).effects[id] == s.ledger.effects[id]
  {
    hide R.WellFormed, Synced, Backed, AllSendable, Sourced, Recorded, PointSound,
      LedgerInvariant.EntrySound, LedgerInvariant.CompensationsSound, LedgerInvariant.OrderingSound;
    assert LedgerInvariant.Filed(s.ledger, id);
  }

  /******* Authority *******/

  /** The one grant that authority can select for the request at this time. */
  predicate Elected(a: A.Store, rq: RuntimeAuthorityRequest, now: nat, grant: string)
  {
    && AA.Presented(rq, now)
    && grant in a.config.grants && AA.Covers(a.config.grants[grant], rq, now)
    && forall other :: other in a.config.grants && other != grant && AA.Covers(a.config.grants[other], rq, now) ==>
         || |a.config.grants[other].targetPrefix| < |a.config.grants[grant].targetPrefix|
         || (&& |a.config.grants[other].targetPrefix| == |a.config.grants[grant].targetPrefix|
             && a.config.grants[other].parentGrantId == None && a.config.grants[grant].parentGrantId != None)
  }

  lemma ElectedIsChosen(a: A.Store, rq: RuntimeAuthorityRequest, now: nat, grant: string, choice: Option<string>)
    requires G.ValidTable(a.config.grants) && Elected(a, rq, now, grant) && G.IsChoice(a.config.grants, rq, now, choice)
    ensures choice == Some(grant)
  {
    AA.SelectedIsEntitled(a, rq, now, choice);
    hide G.ValidTable, AA.Presented;
    assert AA.Covers(a.config.grants[choice.value], rq, now);
    assert G.Matches(a.config.grants[grant], rq, now);
  }

  /** Authority can grant this new request: one grant elected, its chain standing,
      and room for one more effect under every member. */
  ghost predicate Grantable(a: A.Store, rq: RuntimeAuthorityRequest, now: nat, grant: string)
  {
    && G.ValidTable(a.config.grants)
    && Elected(a, rq, now, grant)
    && AA.Standing(a, rq, G.Chain(a.config.grants, grant))
    && rq.requestId !in a.effects
    && AA.Roomy(a, G.Chain(a.config.grants, grant))
  }

  /** Authority holds an open reservation of exactly this request, made under what
      is in force, for the chain of this grant. */
  ghost predicate Held(a: A.Store, rq: RuntimeAuthorityRequest, grant: string)
  {
    && G.ValidTable(a.config.grants)
    && rq.requestId in a.effects
    && var held := a.effects[rq.requestId];
      && held.requestDigest == RequestDigest(rq) && !held.committed && held.effectId == None
      && held.chain == G.Chain(a.config.grants, grant) && AA.Standing(a, rq, held.chain)
      && held.revocationEpoch == a.revocation.epoch && held.configurationDigest == a.config.digest
      && held.stateVersion == a.config.stateVersion
  }

  /** PREPARE cannot be refused: the request is grantable, or held already. */
  ghost predicate Preparable(a: A.Store, rq: RuntimeAuthorityRequest, now: nat, grant: string)
  {
    Grantable(a, rq, now, grant) || (Elected(a, rq, now, grant) && Held(a, rq, grant))
  }

  /** No grant of the table covers the request, or it is not presentable. */
  predicate Uncovered(a: A.Store, rq: RuntimeAuthorityRequest, now: nat)
  {
    AA.Presented(rq, now) ==> forall grant :: grant in a.config.grants ==> !AA.Covers(a.config.grants[grant], rq, now)
  }

  /** PREPARE by what is in force: reserved if grantable, refused if uncovered. */
  lemma PrepareTells(a: A.Store, rq: RuntimeAuthorityRequest, now: nat, choice: Option<string>)
    requires R.WellFormed(a) && G.IsChoice(a.config.grants, rq, now, choice)
    ensures var (a', d) := A.PrepareStep(a, rq, now, choice);
            && d.request == rq && d.brokerServiceId == Service(Effects)
            && a'.config == a.config && a'.revocation == a.revocation
            && (forall grant :: Preparable(a, rq, now, grant) ==> L.Grants(d) && Held(a', rq, grant))
            && (Uncovered(a, rq, now) ==> !L.Grants(d) && a'.effects == a.effects)
  {
    hide G.ValidTable, G.IsChoice, AA.Presented, AA.Covers, AA.Roomy, AA.Standing, Elected;
    var e := R.Prepare(rq, now, choice);
    AA.PrepareExactly(a, rq, now, choice);
    var (a', d) := A.PrepareStep(a, rq, now, choice);
    assert R.Step(a, e) == a' && R.Answer(a, e) == Some(d);
    assert R.Authorizes(a, e) <==> L.Grants(d);
    hide A.PrepareStep, R.Step, R.Answer, R.Authorizes, R.WellFormed;
    forall grant | Preparable(a, rq, now, grant) ensures L.Grants(d) && Held(a', rq, grant) {
      ElectedIsChosen(a, rq, now, grant, choice);
      StandsOn(a, a', rq, G.Chain(a.config.grants, grant));
    }
    if Uncovered(a, rq, now) { AA.SelectedIsEntitled(a, rq, now, choice); }
  }

  /** What is held does not depend on the log. */
  lemma HeldStill(a: A.Store, a': A.Store, rq: RuntimeAuthorityRequest, now: nat, grant: string)
    requires a'.effects == a.effects && a'.config == a.config && a'.revocation == a.revocation
    ensures Held(a', rq, grant) <==> Held(a, rq, grant)
    ensures Elected(a', rq, now, grant) <==> Elected(a, rq, now, grant)
  {
    hide AA.Presented, AA.Covers, G.ValidTable;
    if rq.requestId in a.effects { StandsOn(a, a', rq, a.effects[rq.requestId].chain); }
  }

  lemma StandsOn(a: A.Store, a': A.Store, rq: RuntimeAuthorityRequest, chain: seq<string>)
    requires a'.config == a.config && a'.revocation == a.revocation
    ensures AA.Standing(a', rq, chain) <==> AA.Standing(a, rq, chain)
  {
  }

  /** COMMIT commits what is held; whenever it grants, the request is bound to this
      effect; and when not, nothing moves. */
  lemma CommitTells(a: A.Store, rq: RuntimeAuthorityRequest, id: Text, now: nat, choice: Option<string>)
    requires R.WellFormed(a) && G.IsChoice(a.config.grants, rq, now, choice)
    ensures var (a', d) := A.CommitStep(a, rq, id, now, choice);
            && d.request == rq && d.brokerServiceId == Service(Effects)
            && (L.Grants(d) ==> R.BoundTo(a', rq.requestId, RequestDigest(rq), id))
            && (!L.Grants(d) ==> a'.effects == a.effects)
            && (IsEffectId(id) ==> forall grant :: Elected(a, rq, now, grant) && Held(a, rq, grant) ==> L.Grants(d))
            && (rq.requestId !in a.effects ==> !L.Grants(d))
  {
    hide G.ValidTable, G.IsChoice, AA.Presented, AA.Covers, AA.Standing, Elected;
    var e := R.CommitEffect(rq, id, now, choice);
    AA.CommitExactly(a, rq, id, now, choice);
    var (a', d) := A.CommitStep(a, rq, id, now, choice);
    assert R.Step(a, e) == a' && R.Answer(a, e) == Some(d);
    assert R.Authorizes(a, e) <==> L.Grants(d);
    hide A.CommitStep, R.Step, R.Answer, R.Authorizes, R.WellFormed;
    forall grant | IsEffectId(id) && Elected(a, rq, now, grant) && Held(a, rq, grant) ensures L.Grants(d) {
      ElectedIsChosen(a, rq, now, grant, choice);
    }
  }

  /** The identity is free, or taken by this very request with nothing committed. */
  predicate Abortable(a: A.Store, rq: RuntimeAuthorityRequest)
  {
    rq.requestId in a.effects ==>
      a.effects[rq.requestId].requestDigest == RequestDigest(rq) && !a.effects[rq.requestId].committed
  }

  lemma AbortTells(a: A.Store, rq: RuntimeAuthorityRequest, choice: Option<string>)
    requires R.WellFormed(a) && G.IsChoice(a.config.grants, rq, rq.requestedAt, choice)
    ensures var (a', d) := A.AbortStep(a, rq, choice);
            && (d.code == ABORTED <==> Abortable(a, rq))
            && a'.effects == (if Abortable(a, rq) then a.effects - {rq.requestId} else a.effects)
  {
    hide G.ValidTable, G.IsChoice;
    AA.AbortExactly(a, rq, choice);
    var e := R.Abort(rq, choice);
    var (a', d) := A.AbortStep(a, rq, choice);
    assert R.Step(a, e) == a' && R.Answer(a, e) == Some(d);
    hide A.AbortStep, R.Step, R.Answer, R.WellFormed, R.Authorizes;
  }

  /** Bound to this effect under what is in force. */
  predicate Current(a: A.Store, rq: RuntimeAuthorityRequest, id: Text)
  {
    && rq.requestId in a.effects
    && var held := a.effects[rq.requestId];
      && held.requestDigest == RequestDigest(rq) && held.committed && held.effectId == Some(id)
      && held.revocationEpoch == a.revocation.epoch && held.configurationDigest == a.config.digest
      && held.stateVersion == a.config.stateVersion
  }

  /** Prepared by this very request and not committed. */
  predicate Pending(a: A.Store, rq: RuntimeAuthorityRequest)
  {
    && rq.requestId in a.effects
    && a.effects[rq.requestId].requestDigest == RequestDigest(rq) && !a.effects[rq.requestId].committed
  }

  lemma CurrentIsNotPending(a: A.Store, rq: RuntimeAuthorityRequest, id: Text)
    ensures !(Current(a, rq, id) && Pending(a, rq))
  {
  }

  lemma PendingStill(a: A.Store, a': A.Store, rq: RuntimeAuthorityRequest)
    requires a'.effects == a.effects
    ensures Pending(a', rq) <==> Pending(a, rq)
  {
  }

  lemma PendingIsAbortable(a: A.Store, rq: RuntimeAuthorityRequest)
    ensures Pending(a, rq) ==> Abortable(a, rq)
  {
  }

  lemma StatusTells(a: A.Store, rq: RuntimeAuthorityRequest, id: Text, now: nat, choice: Option<string>)
    requires R.WellFormed(a) && G.IsChoice(a.config.grants, rq, now, choice)
    ensures var (a', d) := A.StatusStep(a, rq, id, now, choice);
            && d.request == rq && d.brokerServiceId == Service(Effects)
            && (L.Grants(d) <==> Current(a, rq, id))
            && (d.code == PREPARED <==> Pending(a, rq))
            && a'.effects == a.effects && a'.config == a.config && a'.revocation == a.revocation
  {
    hide G.ValidTable, G.IsChoice;
    AA.StatusExactly(a, rq, id, now, choice);
    var e := R.Status(rq, id, now, choice);
    var (a', d) := A.StatusStep(a, rq, id, now, choice);
    assert R.Step(a, e) == a' && R.Answer(a, e) == Some(d);
    assert R.Authorizes(a, e) <==> L.Grants(d);
    hide A.StatusStep, R.Step, R.Answer, R.WellFormed, R.Authorizes;
  }

  /******* From a reservation to its outcome *******/

  /** DISPATCH under a decision: refused, or followed by the launch. */
  predicate Dispatching(s: System, s': System, id: Text, d: Decision, chance: Chance, answer: Reply)
  {
    if StateIs(s.ledger, id, {L.EffectState.Reserved}) && LA.Granted(d, s.ledger.effects[id].proposal)
    then Launched(s, s', id, chance, answer)
    else answer == Rejected && s' == s.(point := Idle)
  }

  /** COMMIT, heard: either the request is bound to this effect and the effect
      launched, or it is refused and nothing has moved.  What is held for an
      elected grant is not refused; what authority does not know is. */
  ghost predicate Committing(s: System, s': System, id: Text, rq: RuntimeAuthorityRequest, chance: Chance, answer: Reply)
  {
    && (|| (R.BoundTo(s'.authority, rq.requestId, RequestDigest(rq), id) && Launched(s, s', id, chance, answer))
        || (&& answer == Rejected && s' == s.(authority := s'.authority, point := Idle)
            && s'.authority.effects == s.authority.effects))
    && (forall grant :: Elected(s.authority, rq, chance.commitAt, grant) && Held(s.authority, rq, grant) ==> answer != Rejected)
    && (rq.requestId !in s.authority.effects ==> answer == Rejected)
  }

  /** A reservation given back at authority, unless another request or a commitment
      has taken its identity, ends rejected; the provider never hears of it. */
  predicate Abandoned(s: System, s': System, id: Text, rq: RuntimeAuthorityRequest, evidence: string, chance: Chance, answer: Reply)
  {
    && s'.authority.effects == (if Abortable(s.authority, rq) then s.authority.effects - {rq.requestId} else s.authority.effects)
    && s'.files == s.files
    && (if chance.chainPersists then Ended(s, s', id, evidence, answer) else answer == Exited)
  }

  /** Rejected on record, for this reason. */
  predicate Ended(s: System, s': System, id: Text, evidence: string, answer: Reply)
  {
    answer == Failed && id in s.ledger.effects && Becomes(s, s', id, RejectedEntry(L.EntryOf(s.ledger, id), evidence))
  }

  /** A reservation past its window is given back; within it, it is committed,
      unless COMMIT is not heard. */
  ghost predicate Concluded(s: System, s': System, id: Text, rq: RuntimeAuthorityRequest, chance: Chance, answer: Reply)
  {
    if Expired(s.ledger, id, chance.commitAt) then
      Abandoned(s, s', id, rq, "execution authorization expired", chance, answer)
    else if !chance.commitHeard then answer == Unavailable && s' == s.(point := Idle)
    else Committing(s, s', id, rq, chance, answer)
  }

  /** The state once the effect's checkpoint is made. */
  function Saved(s: System, id: Text): System
  {
    if id in s.ledger.effects then s.(durable := Checkpointed(s, id)) else s
  }

  /** A reservation's checkpoint: a fresh one is concluded, one under way is not
      begun again. */
  ghost predicate Proceeded(s: System, s': System, id: Text, rq: RuntimeAuthorityRequest, chance: Chance, answer: Reply)
  {
    && (StateIs(s.ledger, id, {L.EffectState.Reserved}) ==> Concluded(Saved(s, id), s', id, rq, chance, answer))
    && (StateIs(s.ledger, id, {L.Executing, L.OutcomeUnknown, L.Reconciling}) ==>
          answer == Rejected && s' == Saved(s, id).(point := Idle))
  }

  /** A reservation that authority has pending: given back past its window,
      committed within it. */
  ghost predicate Resumed(s: System, s': System, id: Text, rq: RuntimeAuthorityRequest, chance: Chance, answer: Reply)
  {
    if Expired(s.ledger, id, chance.now) then Abandoned(s, s', id, rq, "recovered PREPARE aborted", chance, answer)
    else if !chance.commitHeard then
      answer == Unavailable && s' == s.(authority := s'.authority, point := Idle) && s'.authority.effects == s.authority.effects
    else Committing(s, s', id, rq, chance, answer)
  }

  /** Inquired of authority: what it has committed is dispatched, what it has
      pending is resumed, and anything else left as it is. */
  ghost predicate Inquired(s: System, s': System, id: Text, rq: RuntimeAuthorityRequest, chance: Chance, answer: Reply)
  {
    if Current(s.authority, rq, id) then
      s'.authority.effects == s.authority.effects && Launched(s, s', id, chance, answer)
    else if Pending(s.authority, rq) then Resumed(s, s', id, rq, chance, answer)
    else answer == Rejected && s' == s.(authority := s'.authority, point := Idle) && s'.authority.effects == s.authority.effects
  }

  /** A reservation found after a crash: rejected if the state service has it so,
      and otherwise inquired about, unless authority is not heard. */
  ghost predicate Recovering(s: System, s': System, id: Text, rq: RuntimeAuthorityRequest, chance: Chance, answer: Reply)
  {
    if chance.rejectionKnown then
      Ended(s, s', id, "authoritative rejection replay", answer) && s'.files == s.files && s'.authority == s.authority
    else if !chance.prepareHeard then answer == Unavailable && s' == s.(point := Idle)
    else Inquired(s, s', id, rq, chance, answer)
  }

  /** An unknown outcome is resolved exactly as what was learnt: a record found and
      heard of, with its outcome known or made known, succeeds or fails by it;
      without that the effect stays in reconciliation. */
  ghost predicate Reconciled(s: System, s': System, id: Text, chance: Chance, answer: Reply)
  {
    && id in s.ledger.effects
    && var c, digest := CommandFor(s.ledger.effects[id]), s.ledger.effects[id].proposal.parametersDigest;
       var learnt := chance.answerHeard && P.Observe(s'.files, id, digest).Ok?;
      && s'.files == (if chance.outcomeKnown || P.Observe(s.files, id, digest).Ok? then s.files
                      else P.Interrupted(s.files, chance.pid, c, chance.survives).0)
      && (!chance.outcomeKnown && P.Answer(s.files, c).Ok? && |P.Writes(s.files, chance.pid, c)| <= chance.survives ==>
            P.Observe(s'.files, id, digest).Ok?)
      && (if !learnt && chance.outcomeKnown then answer == Exited && s'.ledger == s.ledger && s'.durable == s.durable
          else
            var verdict := if learnt && (chance.outcomeKnown || chance.chainPersists) then Some(chance.succeeded) else None;
            && Becomes(s, s', id, ClassifiedEntry(ProbedEntry(L.EntryOf(s.ledger, id), chance.dispatchAt), chance.evidence, verdict))
            && match verdict
               case Some(true) => answer == Committed && Guarded(s'.ledger, id, chance.guarded)
               case Some(false) => answer == Failed
               case None => answer == OutcomeUnknown)
  }

  /** What an observation comes to, and whether the command was sent again. */
  predicate Looked(s: System, s': System, id: Text, chance: Chance, found: bool)
  {
    && id in s.ledger.effects
    && var c, digest := CommandFor(s.ledger.effects[id]), s.ledger.effects[id].proposal.parametersDigest;
      && (found <==> chance.answerHeard && P.Observe(s'.files, id, digest).Ok?)
      && s'.files == (if chance.outcomeKnown || P.Observe(s.files, id, digest).Ok? then s.files
                      else P.Interrupted(s.files, chance.pid, c, chance.survives).0)
      && (P.Answer(s.files, c).Ok? && |P.Writes(s.files, chance.pid, c)| <= chance.survives ==>
            chance.outcomeKnown || P.Observe(s'.files, id, digest).Ok?)
  }

  lemma LookedAt(s: System, s': System, id: Text, chance: Chance, found: bool, again: bool)
    requires id in s.ledger.effects
    requires var c, digest := CommandFor(s.ledger.effects[id]), s.ledger.effects[id].proposal.parametersDigest;
             && c.effectId == id && c.requestDigest == digest
             && (again <==> !chance.outcomeKnown && P.Observe(s.files, id, digest).Err?)
             && s'.files == (if again then P.Interrupted(s.files, chance.pid, c, chance.survives).0 else s.files)
             && (found <==> chance.answerHeard && P.Observe(s'.files, id, digest).Ok?)
    ensures Looked(s, s', id, chance, found)
  {
    hide P.Interrupted, P.Writes, P.Answer, P.Observe, CommandFor;
    PA.ExecutedIsObserved(s.files, chance.pid, CommandFor(s.ledger.effects[id]), chance.survives);
  }

  /** The verdict that what was learnt allows. */
  function Learnt(found: bool, chance: Chance): Option<bool>
  {
    if found && (chance.outcomeKnown || chance.chainPersists) then Some(chance.succeeded) else None
  }

  /** Looking, opening the attempt and classifying it make up the reconciliation. */
  lemma ReconciliationComes(s: System, seen: System, begun: System, s': System, id: Text, chance: Chance, answer: Reply, found: bool)
    requires Looked(s, seen, id, chance, found) && seen.ledger == s.ledger && s'.files == seen.files
    requires found || !chance.outcomeKnown
    requires Turned(seen.ledger, begun.ledger, id, ProbedEntry(L.EntryOf(s.ledger, id), chance.dispatchAt))
    requires Classified(begun, s', id, Learnt(found, chance), chance, answer)
    ensures Reconciled(s, s', id, chance, answer)
  {
    hide P.Interrupted, P.Writes, P.Answer, P.Observe, CommandFor, Guarded, Becomes, Turned, ProbedEntry, ClassifiedEntry, L.EntryOf;
    var e := ProbedEntry(L.EntryOf(s.ledger, id), chance.dispatchAt);
    ProbedTurned(s.ledger, begun.ledger, id, L.EntryOf(s.ledger, id), chance.dispatchAt);
    BecomesAfter(s, begun, s', id, e, ClassifiedEntry(e, chance.evidence, Learnt(found, chance)));
  }

  lemma ProbedTurned(l: L.Ledger, l': L.Ledger, id: Text, e: L.Entry, at: nat)
    requires Turned(l, l', id, ProbedEntry(e, at))
    ensures StateIs(l', id, {L.Reconciling}) && L.EntryOf(l', id) == ProbedEntry(e, at)
  {
  }

  lemma BecomesAfter(s: System, mid: System, s': System, id: Text, e: L.Entry, e': L.Entry)
    requires Turned(s.ledger, mid.ledger, id, e)
    ensures Becomes(mid, s', id, e') ==> Becomes(s, s', id, e')
  {
  }

  lemma ReconciliationStops(s: System, s': System, id: Text, chance: Chance)
    requires Looked(s, s', id, chance, false) && chance.outcomeKnown && s'.ledger == s.ledger && s'.durable == s.durable
    ensures Reconciled(s, s', id, chance, Exited)
  {
    hide P.Interrupted, P.Writes, P.Answer, P.Observe, CommandFor, Guarded;
  }

  /** One unfinished effect, by the state it was found in. */
  ghost predicate Recovered(s: System, s': System, id: Text, chance: Chance, answer: Reply)
  {
    && id in s.ledger.effects
    && var record := s.ledger.effects[id];
      if record.state == L.EffectState.Reserved && record.authorityRequest.Some? then
        Recovering(s, s', id, record.authorityRequest.value, chance, answer)
      else if record.state == L.Executing then s'.authority == s.authority && Launched(s, s', id, chance, answer)
      else if record.state in {L.OutcomeUnknown, L.Reconciling} && |L.Get(s.ledger.trails.reconciliations, id)| < 8 then
        s'.authority == s.authority && Reconciled(s, s', id, chance, answer)
      else answer == Rejected && s' == s
  }

  /******* One request *******/

  /** The effect on file under the request's key is for this very proposal, whenever
      it was to expire. */
  predicate Repeats(l: L.Ledger, r: EffectRequest)
  {
    && r.terms.idempotencyKey in l.byKey && l.byKey[r.terms.idempotencyKey] in l.effects
    && var p, q := l.effects[l.byKey[r.terms.idempotencyKey]].proposal, ProposalOf(r);
      && p.intent == q.intent && p.parametersDigest == q.parametersDigest && p.idempotencyKey == q.idempotencyKey
      && p.bounds == q.bounds && p.placement == q.placement
      && p.provision.consequenceClass == q.provision.consequenceClass && p.provision.providerId == q.provision.providerId
      && p.provision.compensatesEffectId == q.provision.compensatesEffectId
  }

  /** The request is a repetition of one that has ended. */
  predicate Finished(l: L.Ledger, r: EffectRequest)
  {
    RequestValid(r) && Repeats(l, r) && L.Terminal(l.effects[l.byKey[r.terms.idempotencyKey]].state)
  }

  /** Authority is asked: the request is valid, within its window, its precondition
      holds, and what is on file under its key, if anything, is the same effect,
      not ended. */
  predicate Opened(l: L.Ledger, r: EffectRequest, now: nat, preconditionHolds: bool)
  {
    && RequestValid(r) && r.terms.validFrom <= now < r.terms.validUntil && preconditionHolds
    && (r.terms.idempotencyKey in l.byKey ==>
          Repeats(l, r) && !L.Terminal(l.effects[l.byKey[r.terms.idempotencyKey]].state))
  }

  /** The request repeats one that has been dispatched and not ended. */
  predicate UnderWay(l: L.Ledger, r: EffectRequest)
  {
    Repeats(l, r) && l.effects[l.byKey[r.terms.idempotencyKey]].state in {L.Executing, L.OutcomeUnknown, L.Reconciling}
  }

  /** The effect the request is about. */
  function EffectOf(l: L.Ledger, r: EffectRequest): Text
  {
    if r.terms.idempotencyKey in l.byKey then l.byKey[r.terms.idempotencyKey] else EffectIdOf(ProposalOf(r))
  }

  /** Everything a request needs for success: its digest is that of its own payload,
      authority can grant it, now and at the commit, and it is either new, for a
      provider that supports it and, as a compensation, due; or it repeats a
      reservation that authority still holds. */
  ghost predicate Promising(s: System, r: EffectRequest, chance: Chance, grant: string)
  {
    && Opened(s.ledger, r, chance.now, chance.preconditionHolds) && chance.now < PROPOSAL_EXPIRY
    && r.terms.parametersDigest == PayloadDigest(r.authority.operation, CommandOf([], r).payload)
    && (chance.commitAt < r.terms.validUntil ==> Elected(s.authority, r.authority, chance.commitAt, grant))
    && (if r.terms.idempotencyKey in s.ledger.byKey then
          && s.ledger.effects[s.ledger.byKey[r.terms.idempotencyKey]].state == L.EffectState.Reserved
          && Elected(s.authority, r.authority, chance.now, grant) && Held(s.authority, r.authority, grant)
        else
          && LA.Supported(s.ledger, ProposalOf(r)) && LA.Compensable(s.ledger, ProposalOf(r))
          && Grantable(s.authority, r.authority, chance.now, grant))
  }

  /** The effect is on file for this request, in this state, in the cache and in the
      store, and every other effect as it was. */
  predicate OnFile(s: System, s': System, r: EffectRequest, id: Text, state: L.EffectState)
  {
    && s'.ledger.effects.Keys == s.ledger.effects.Keys + {id}
    && (forall other :: other in s.ledger.effects && other != id ==> s'.ledger.effects[other] == s.ledger.effects[other])
    && s'.ledger.effects[id].state == state && CommandFor(s'.ledger.effects[id]) == CommandOf(id, r)
    && id in s'.durable.effects && s'.durable.effects[id] == s'.ledger.effects[id]
  }

  /** The newest note about the effect. */
  predicate Reason(l: L.Ledger, id: Text, evidence: L.Evidence)
  {
    && id in l.effects
    && var h := L.Get(l.trails.history, id);
      h != [] && h[|h| - 1] == L.EffectTransition(l.effects[id].state, evidence)
  }

  /** It was dispatched once, at this time, with this response and classification. */
  predicate DispatchedOnce(l: L.Ledger, id: Text, at: nat, response: string, source: string, state: L.EffectState)
  {
    && id in l.effects
    && L.Get(l.trails.attempts, id) == [L.Attempt(CallFor(l.effects[id], at), Some(response), Some(source), Some(state))]
  }

  /** The provider has done what was asked: its record is of this command, and the
      effect's file holds the request's objective, capability and target, or the
      file it compensates is gone; every other file is as it was. */
  predicate Done(s: System, s': System, r: EffectRequest, id: Text)
  {
    && id in s'.files.records && s'.files.records[id].command == CommandOf(id, r)
    && (r.authority.operation == Commit ==>
          s'.files.world == s.files.world[id := P.Application(id, Commit,
            Payload(r.objectiveId, r.authority.capability, r.authority.target, None), r.terms.parametersDigest)])
    && (r.authority.operation == Compensate ==> s'.files.world == s.files.world - {r.authority.target})
  }

  /** What a promising request comes to, whatever is heard, persists or dies:
      COMMITTED exactly if both decisions are heard in time, the state service takes
      the chain, and the provider makes all its writes and is heard. */
  ghost predicate Fulfilled(s: System, s': System, r: EffectRequest, id: Text, chance: Chance, answer: Reply)
  {
    if !chance.prepareHeard then answer == Unavailable && s' == s
    else
      && id == EffectOf(s.ledger, r)
      && (if r.terms.validUntil <= chance.commitAt then
            && r.commandId !in s'.authority.effects && s'.files == s.files
            && (if chance.chainPersists then
                  && answer == Failed && OnFile(s, s', r, id, L.EffectState.Rejected)
                  && Reason(s'.ledger, id, L.Reported("execution authorization expired"))
                else answer == Exited)
          else if !chance.commitHeard then
            && answer == Unavailable && OnFile(s, s', r, id, L.EffectState.Reserved)
            && Pending(s'.authority, r.authority) && s'.files == s.files
          else
            && R.BoundTo(s'.authority, r.commandId, RequestDigest(r.authority), id)
            && (if chance.chainPersists && chance.answerHeard
                   && |P.Writes(s.files, chance.pid, CommandOf(id, r))| <= chance.survives
                then
                  && answer == Committed && OnFile(s, s', r, id, L.ObservedSucceeded) && Done(s, s', r, id)
                  && DispatchedOnce(s'.ledger, id, chance.dispatchAt, chance.response, OBSERVED, L.ObservedSucceeded)
                  && Reason(s'.ledger, id, L.Reported(chance.evidence)) && Guarded(s'.ledger, id, chance.guarded)
                else
                  && answer == OutcomeUnknown && OnFile(s, s', r, id, L.OutcomeUnknown)
                  && DispatchedOnce(s'.ledger, id, chance.dispatchAt, LOST, "transport", L.OutcomeUnknown)))
  }

  /** `terminal_replay`, if the state service confirms the projection. */
  function Replayed(state: L.EffectState, confirmed: bool): Reply
  {
    if !confirmed then Unavailable else if L.Succeeded(state) then Committed else Failed
  }

  /** What a request still needs once authority holds its reservation. */
  ghost predicate Ready(s: System, r: EffectRequest, chance: Chance, grant: string)
  {
    && Opened(s.ledger, r, chance.now, chance.preconditionHolds) && chance.now < PROPOSAL_EXPIRY
    && r.terms.parametersDigest == PayloadDigest(r.authority.operation, CommandOf([], r).payload)
    && (chance.commitAt < r.terms.validUntil ==> Elected(s.authority, r.authority, chance.commitAt, grant))
    && Held(s.authority, r.authority, grant)
    && (if r.terms.idempotencyKey in s.ledger.byKey then
          s.ledger.effects[s.ledger.byKey[r.terms.idempotencyKey]].state == L.EffectState.Reserved
        else LA.Supported(s.ledger, ProposalOf(r)) && LA.Compensable(s.ledger, ProposalOf(r)))
  }

  /** What a pass comes to once PREPARE has granted the request. */
  ghost predicate Followed(s: System, s': System, r: EffectRequest, id: Text, chance: Chance, answer: Reply)
  {
    && (UnderWay(s.ledger, r) ==> answer == Rejected && s' == s.(authority := s'.authority, point := Idle))
    && (chance.prepareHeard ==> forall grant :: Ready(s, r, chance, grant) ==> Fulfilled(s, s', r, id, chance, answer))
    && (answer == Unavailable ==> !chance.commitHeard)
    && (answer == Exited ==> !chance.chainPersists)
  }

  /** What it comes to once PREPARE is heard. */
  ghost predicate AnsweredBy(s: System, s': System, r: EffectRequest, id: Text, chance: Chance, answer: Reply)
  {
    && (Uncovered(s.authority, r.authority, chance.now) ==>
          && answer == Rejected && s' == s.(authority := s'.authority, point := Idle)
          && s'.authority.effects == s.authority.effects)
    && (UnderWay(s.ledger, r) ==> answer == Rejected && s' == s.(authority := s'.authority, point := Idle))
    && (forall grant :: Promising(s, r, chance, grant) ==> Fulfilled(s, s', r, id, chance, answer))
    && (answer == Unavailable ==> !chance.commitHeard)
    && (answer == Exited ==> !chance.chainPersists)
  }

  /** One pass over a request, from the state before to the state after. */
  ghost predicate Answered(s: System, s': System, r: EffectRequest, id: Text, chance: Chance, answer: Reply)
  {
    var open := Opened(s.ledger, r, chance.now, chance.preconditionHolds);
    // a repetition of an ended effect is answered from the record, if the state service confirms it
    && (Finished(s.ledger, r) ==>
          && s' == s && id == s.ledger.byKey[r.terms.idempotencyKey]
          && answer == Replayed(s.ledger.effects[id].state, chance.answerHeard))
    // what is invalid, in conflict, out of its window or not ready is rejected without a trace
    && (!Finished(s.ledger, r) && !open ==> s' == s && answer == Rejected)
    // without authority's answer nothing has happened
    && (open && !chance.prepareHeard ==> s' == s && answer == Unavailable)
    // what no grant covers is rejected and leaves no effect and no reservation
    && (open && chance.prepareHeard && Uncovered(s.authority, r.authority, chance.now) ==>
          && answer == Rejected && s' == s.(authority := s'.authority) && s'.authority.effects == s.authority.effects)
    // what is under way already is not begun again
    && (open && chance.prepareHeard && UnderWay(s.ledger, r) ==> answer == Rejected && s' == s.(authority := s'.authority))
    // what has every promise of success is fulfilled as far as the chances go
    && (forall grant :: Promising(s, r, chance, grant) ==> Fulfilled(s, s', r, id, chance, answer))
    // UNAVAILABLE means unheard, and only a result that does not persist ends the process
    && (answer == Unavailable ==> !chance.prepareHeard || !chance.commitHeard || !chance.answerHeard)
    && (answer == Exited ==> !chance.chainPersists)
  }

  /******* New and reserved effects at the provider *******/

  predicate Untouched(files: P.Files, id: Text)
  {
    id !in files.intents && id !in files.records && id !in files.world
  }

  /** Nothing is at the provider for an effect that has not executed on record. */
  lemma UnsentIsUntouched(s: System, id: Text)
    requires Invariant(s) && !ExecutedIn(s.durable, id)
    ensures Untouched(s.files, id)
  {
    hide R.WellFormed, CacheSound, Synced, Backed, Recorded, PointSound, LedgerInvariant.Reached, CommandFor;
    assert forall c :: c in s.sent ==> Sendable(s.durable, c);
  }

  lemma ReservedIsUnsent(s: System, id: Text)
    requires Invariant(s) && StateIs(s.ledger, id, {L.EffectState.Reserved})
    ensures !ExecutedIn(s.durable, id)
  {
    hide R.WellFormed, Backed, AllSendable, Sourced, Recorded, PointSound, SameRecords, Ordinary,
      LedgerInvariant.CompensationsSound, LedgerInvariant.OrderingSound, LedgerInvariant.Extends;
    if ExecutedIn(s.durable, id) {
      ExecutionLasts(s.durable, s.ledger, id);
      assert LedgerInvariant.Filed(s.ledger, id);
      LA.TrailSizes(L.EntryOf(s.ledger, id));
      assert false;
    }
  }

  lemma NewIsUnsent(s: System, p: EffectProposal)
    requires Invariant(s) && p.idempotencyKey !in s.ledger.byKey
    ensures EffectIdOf(p) !in s.ledger.effects && !ExecutedIn(s.durable, EffectIdOf(p))
  {
    hide R.WellFormed, Backed, AllSendable, Sourced, Recorded, PointSound, SameRecords, Ordinary, EffectIdOf,
      LedgerInvariant.CompensationsSound, LedgerInvariant.OrderingSound, LedgerInvariant.EntrySound, LedgerInvariant.Reached;
    if EffectIdOf(p) in s.ledger.effects {
      assert LedgerInvariant.Filed(s.ledger, EffectIdOf(p));
      EffectIdInjective(s.ledger.effects[EffectIdOf(p)].proposal, p);
      assert false;
    }
    if EffectIdOf(p) in s.durable.effects { GrownProposal(s.durable, s.ledger, EffectIdOf(p)); }
  }

  /** So the provider carries the command of a valid request out. */
  lemma UntouchedIsOpen(files: P.Files, id: Text, r: EffectRequest)
    requires Untouched(files, id) && P.Addressable(id) && RequestValid(r)
    requires r.terms.parametersDigest == PayloadDigest(r.authority.operation, CommandOf(id, r).payload)
    requires r.authority.operation == Compensate ==> P.Addressable(r.authority.target)
    ensures PA.Open(files, CommandOf(id, r)) && P.Answer(files, CommandOf(id, r)).Ok?
  {
    hide P.Addressable;
    PA.AnswerExactly(files, CommandOf(id, r));
  }

  /** What it leaves when it lives through all its writes. */
  lemma OpenIsDone(s: System, s': System, r: EffectRequest, id: Text, pid: nat, survives: nat)
    requires RequestValid(r) && PA.Open(s.files, CommandOf(id, r)) && |P.Writes(s.files, pid, CommandOf(id, r))| <= survives
    requires s'.files == P.Interrupted(s.files, pid, CommandOf(id, r), survives).0
    ensures Done(s, s', r, id)
  {
    hide P.Interrupted, P.Writes, P.Answer, P.Addressable;
    PA.ExecuteExactly(s.files, pid, CommandOf(id, r), survives);
  }

  /******* What the stages of a pass come to *******/

  lemma ReplayIs(s: System, r: EffectRequest)
    requires Invariant(s)
    ensures var replay := L.RuntimeReplay(s.ledger, ProposalOf(r));
            && (replay.Ok? <==> (r.terms.idempotencyKey in s.ledger.byKey ==> Repeats(s.ledger, r)))
            && (replay.Ok? && replay.value.Some? <==> Repeats(s.ledger, r))
            && (Repeats(s.ledger, r) ==>
                  && r.terms.idempotencyKey in s.ledger.byKey
                  && replay.value.value == s.ledger.effects[s.ledger.byKey[r.terms.idempotencyKey]]
                  && replay.value.value.effectId == s.ledger.byKey[r.terms.idempotencyKey])
  {
    AtPoint(s);
    if r.terms.idempotencyKey in s.ledger.byKey { KeyIsFiled(s.ledger, r.terms.idempotencyKey); }
    hide Invariant, PointSound, LedgerInvariant.LedgerSound;
  }

  lemma CompleteApart(l: L.Ledger, l': L.Ledger, objective: Text)
    requires l'.effects == l.effects
    ensures L.ObjectiveComplete(l', objective) <==> L.ObjectiveComplete(l, objective)
  {
  }

  lemma OpenedIs(l: L.Ledger, r: EffectRequest, chance: Chance)
    ensures Finished(l, r) ==> RequestValid(r) && Repeats(l, r) && L.Terminal(l.effects[l.byKey[r.terms.idempotencyKey]].state)
    ensures Opened(l, r, chance.now, chance.preconditionHolds) && r.terms.idempotencyKey in l.byKey ==>
              Repeats(l, r) && !L.Terminal(l.effects[l.byKey[r.terms.idempotencyKey]].state)
    ensures Finished(l, r) ==> !Opened(l, r, chance.now, chance.preconditionHolds)
  {
  }

  lemma LaunchedAnswers(s: System, s': System, id: Text, chance: Chance, answer: Reply)
    ensures Launched(s, s', id, chance, answer) ==> answer == Committed || answer == OutcomeUnknown
  {
    hide P.Interrupted, Carried, Guarded, Becomes, CommandFor;
  }

  lemma LaunchedFrom(s: System, dispatched: System, s': System, id: Text, chance: Chance, answer: Reply)
    requires StateIs(s.ledger, id, {L.EffectState.Reserved}) && dispatched.files == s.files
    requires Turned(s.ledger, dispatched.ledger, id, DispatchedEntry(L.EntryOf(s.ledger, id), chance.dispatchAt))
    requires Sent(dispatched, s', id, chance, answer)
    ensures Launched(s, s', id, chance, answer)
  {
    hide P.Interrupted, Carried, Guarded;
  }

  lemma GrantedIs(d: Decision, p: EffectProposal)
    requires d.brokerServiceId == Service(Effects) && IntentOf(d.request) == p.intent
    ensures LA.Granted(d, p) <==> L.Grants(d)
  {
  }

  lemma AdmitsIs(r: EffectRequest, d: Decision)
    requires d.request == r.authority && d.brokerServiceId == Service(Effects)
    ensures Admits(r, d) <==> RequestValid(r) && L.Grants(d)
    ensures RequestValid(r) ==> IntentOf(r.authority) == ProposalOf(r).intent
    ensures RequestValid(r) ==> (LA.Granted(d, ProposalOf(r)) <==> L.Grants(d))
  {
  }

  lemma ReserveTells(s: System, r: EffectRequest, d: Decision, now: nat)
    requires Invariant(s)
    ensures var p, key := ProposalOf(r), r.terms.idempotencyKey;
            var outcome := L.Reserve(s.ledger, p, d, ForwardingOf(r), now);
            && (key !in s.ledger.byKey ==>
                  && !outcome.Answered?
                  && (outcome.Changed? <==>
                        LA.Granted(d, p) && now < PROPOSAL_EXPIRY && LA.Supported(s.ledger, p) && LA.Compensable(s.ledger, p))
                  && (outcome.Changed? ==>
                        var record := L.NewRecord(p, d, ForwardingOf(r), now);
                        && record.effectId == EffectOf(s.ledger, r) && record.state == L.EffectState.Reserved && record.proposal == p
                        && record.authorityRequest == Some(d.request.(schemaVersion := V2_0, callerServiceId := Service(Runtime)))
                        && outcome.ledger.effects == s.ledger.effects[record.effectId := record]))
            && (key in s.ledger.byKey ==>
                  && !outcome.Changed?
                  && (outcome.Answered? <==> LA.Granted(d, p) && now < PROPOSAL_EXPIRY && Repeats(s.ledger, r))
                  && (outcome.Answered? ==>
                        && outcome.record.effectId == EffectOf(s.ledger, r)
                        && outcome.record.effectId in s.ledger.effects && s.ledger.effects[outcome.record.effectId] == outcome.record))
  {
    AtPoint(s);
    var p := ProposalOf(r);
    hide Invariant, PointSound, LA.Granted, LA.Supported, LA.Compensable, L.Reserve, LedgerInvariant.LedgerSound;
    if p.idempotencyKey in s.ledger.byKey {
      LA.ReplayExactly(s.ledger, p, d, ForwardingOf(r), now);
      KeyIsFiled(s.ledger, p.idempotencyKey);
    } else {
      LA.ReserveExactly(s.ledger, p, d, ForwardingOf(r), now);
    }
  }

  lemma KeyIsFiled(l: L.Ledger, key: IdempotencyKey)
    requires LedgerInvariant.LedgerSound(l) && key in l.byKey
    ensures l.byKey[key] in l.effects && l.effects[l.byKey[key]].effectId == l.byKey[key]
    ensures l.effects[l.byKey[key]].proposal.idempotencyKey == key
  {
    assert LedgerInvariant.Filed(l, l.byKey[key]);
  }

  /** What a promising request has before authority is asked. */
  lemma PromiseParts(s: System, r: EffectRequest, chance: Chance)
    ensures Opened(s.ledger, r, chance.now, chance.preconditionHolds) ==> RequestValid(r)
    ensures forall grant :: Promising(s, r, chance, grant) ==>
              && Opened(s.ledger, r, chance.now, chance.preconditionHolds)
              && Preparable(s.authority, r.authority, chance.now, grant)
  {
    hide RequestValid, Elected, Held, Grantable, LA.Supported, LA.Compensable, ProposalOf, CommandOf;
  }

  lemma StillElected(a: A.Store, a': A.Store, rq: RuntimeAuthorityRequest, now: nat, grant: string)
    requires a'.config.grants == a.config.grants
    ensures Elected(a, rq, now, grant) ==> Elected(a', rq, now, grant)
  {
    hide AA.Presented, AA.Covers;
  }

  /** And what it has left once it is prepared. */
  lemma PromiseReady(s: System, prepared: System, r: EffectRequest, chance: Chance)
    requires prepared.ledger == s.ledger && prepared.authority.config.grants == s.authority.config.grants
    requires forall grant :: Preparable(s.authority, r.authority, chance.now, grant) ==> Held(prepared.authority, r.authority, grant)
    ensures forall grant :: Promising(s, r, chance, grant) ==> Ready(prepared, r, chance, grant)
  {
    hide RequestValid, Repeats, Elected, Held, Grantable, LA.Supported, LA.Compensable, ProposalOf, CommandOf;
    forall grant | Promising(s, r, chance, grant) ensures Ready(prepared, r, chance, grant) {
      assert Preparable(s.authority, r.authority, chance.now, grant);
      StillElected(s.authority, prepared.authority, r.authority, chance.commitAt, grant);
    }
  }

  lemma ReadyParts(s: System, r: EffectRequest, chance: Chance)
    ensures forall grant :: Ready(s, r, chance, grant) ==>
              && chance.now < PROPOSAL_EXPIRY
              && (r.terms.idempotencyKey in s.ledger.byKey ==>
                    Repeats(s.ledger, r) && StateIs(s.ledger, s.ledger.byKey[r.terms.idempotencyKey], {L.EffectState.Reserved}))
              && (r.terms.idempotencyKey !in s.ledger.byKey ==>
                    LA.Supported(s.ledger, ProposalOf(r)) && LA.Compensable(s.ledger, ProposalOf(r)))
  {
    hide RequestValid, Elected, Held, LA.Supported, LA.Compensable, ProposalOf, CommandOf;
  }

  /** A reservation refused of a request that is not ready. */
  lemma NotFollowed(s: System, s': System, r: EffectRequest, chance: Chance)
    requires s' == s.(authority := s'.authority, point := Idle)
    requires chance.now < PROPOSAL_EXPIRY ==>
               if r.terms.idempotencyKey in s.ledger.byKey then !Repeats(s.ledger, r)
               else !(LA.Supported(s.ledger, ProposalOf(r)) && LA.Compensable(s.ledger, ProposalOf(r)))
    ensures Followed(s, s', r, [], chance, Rejected)
  {
    hide Ready, Repeats, LA.Supported, LA.Compensable, ProposalOf, Fulfilled;
    ReadyParts(s, r, chance);
  }

  /** A reservation made or found, its checkpoint, and what that led to. */
  lemma IsFollowed(s: System, reserved: System, s': System, r: EffectRequest, id: Text, chance: Chance, answer: Reply)
    requires Invariant(s) && RequestValid(r) && id == EffectOf(s.ledger, r)
    requires reserved.files == s.files && reserved.authority == s.authority && reserved.sent == s.sent
    requires id in reserved.ledger.effects && Fits(reserved.ledger.effects[id], r) && reserved.ledger.effects[id].effectId == id
    requires reserved.ledger.effects == s.ledger.effects[id := reserved.ledger.effects[id]]
    requires id in Saved(reserved, id).durable.effects && Saved(reserved, id).durable.effects[id] == reserved.ledger.effects[id]
    requires if r.terms.idempotencyKey in s.ledger.byKey
             then reserved.ledger == s.ledger && Saved(reserved, id).durable == s.durable && !L.Terminal(s.ledger.effects[id].state)
             else reserved.ledger.effects[id].state == L.EffectState.Reserved
    requires Proceeded(reserved, s', id, r.authority, chance, answer)
    ensures Followed(s, s', r, id, chance, answer)
  {
    hide Invariant, Ready, Fits, Concluded, RequestValid, Fulfilled, Checkpointed;
    ReadyParts(s, r, chance);
    if StateIs(reserved.ledger, id, {L.EffectState.Reserved}) {
      ConcludedAnswers(Saved(reserved, id), s', id, r.authority, chance, answer);
      forall grant | chance.prepareHeard && Ready(s, r, chance, grant) ensures Fulfilled(s, s', r, id, chance, answer) {
        PromiseKept(s, Saved(reserved, id), s', r, id, grant, chance, answer);
      }
    }
  }

  /** PREPARE refused, of a request that had no promise. */
  lemma NotAsked(s: System, s': System, r: EffectRequest, chance: Chance)
    requires s' == s.(authority := s'.authority, point := Idle)
    requires Uncovered(s.authority, r.authority, chance.now) ==> s'.authority.effects == s.authority.effects
    requires forall grant :: !Promising(s, r, chance, grant)
    ensures AnsweredBy(s, s', r, [], chance, Rejected)
  {
    hide Promising, Uncovered, Fulfilled;
  }

  lemma AskedFor(s: System, prepared: System, s': System, r: EffectRequest, id: Text, chance: Chance, answer: Reply)
    requires prepared == s.(authority := prepared.authority, point := prepared.point) && chance.prepareHeard
    requires prepared.authority.config.grants == s.authority.config.grants
    requires forall grant :: Preparable(s.authority, r.authority, chance.now, grant) ==> Held(prepared.authority, r.authority, grant)
    requires !Uncovered(s.authority, r.authority, chance.now)
    requires Followed(prepared, s', r, id, chance, answer)
    ensures AnsweredBy(s, s', r, id, chance, answer)
  {
    hide Promising, Ready, Uncovered, Fulfilled, UnderWay, Preparable, Held;
    PromiseReady(s, prepared, r, chance);
    FulfilledApart(s, prepared, s', r, id, chance, answer);
  }

  lemma FulfilledApart(s: System, t: System, s': System, r: EffectRequest, id: Text, chance: Chance, answer: Reply)
    requires t.ledger == s.ledger && t.files == s.files && chance.prepareHeard
    ensures Fulfilled(t, s', r, id, chance, answer) <==> Fulfilled(s, s', r, id, chance, answer)
  {
    hide ProposalOf, CommandOf, CommandFor, R.BoundTo, P.Writes, EffectIdOf, Pending;
  }

  lemma AnsweredApart(s: System, t: System, s': System, r: EffectRequest, id: Text, chance: Chance, answer: Reply)
    requires t == s.(point := t.point) && chance.prepareHeard
    ensures AnsweredBy(t, s', r, id, chance, answer) <==> AnsweredBy(s, s', r, id, chance, answer)
  {
    hide Fulfilled, UnderWay, Promising, Uncovered;
    FulfilledApart(s, t, s', r, id, chance, answer);
    forall grant { PromisingApart(s, t, r, chance, grant); }
  }

  lemma PromisingApart(s: System, t: System, r: EffectRequest, chance: Chance, grant: string)
    requires t == s.(point := t.point)
    ensures Promising(t, r, chance, grant) <==> Promising(s, r, chance, grant)
  {
    hide Opened, Elected, Held, Grantable, LA.Supported, LA.Compensable, ProposalOf, CommandOf;
  }

  lemma UnheardIsFulfilled(s: System, r: EffectRequest, id: Text, chance: Chance)
    requires !chance.prepareHeard
    ensures Fulfilled(s, s, r, id, chance, Unavailable)
  {
  }

  /** The record a reservation answers with is of the request. */
  predicate Fits(record: L.EffectRecord, r: EffectRequest)
  {
    && record.proposal.intent == IntentOf(r.authority)
    && CommandFor(record) == CommandOf(record.effectId, r)
    && record.proposal.bounds.validUntil == Some(r.terms.validUntil)
  }

  lemma ReservedFits(s: System, r: EffectRequest, record: L.EffectRecord)
    requires Invariant(s) && RequestValid(r)
    requires r.terms.idempotencyKey !in s.ledger.byKey ==> record.proposal == ProposalOf(r)
    requires r.terms.idempotencyKey in s.ledger.byKey ==>
               Repeats(s.ledger, r) && record == s.ledger.effects[s.ledger.byKey[r.terms.idempotencyKey]]
    ensures Fits(record, r)
    ensures UnderWay(s.ledger, r) ==> r.terms.idempotencyKey in s.ledger.byKey && record.state in {L.Executing, L.OutcomeUnknown, L.Reconciling}
    ensures r.terms.idempotencyKey in s.ledger.byKey && !L.Terminal(record.state) && record.state != L.EffectState.Reserved ==>
              UnderWay(s.ledger, r)
  {
    hide Invariant;
  }

  /** A record that has not moved since its checkpoint is saved already. */
  lemma SavedAlready(s: System, t: System, id: Text)
    requires Invariant(s) && (forall other :: !Ahead(s.point, other)) && t.ledger == s.ledger && t.durable == s.durable
    ensures id in s.ledger.effects ==> Checkpointed(t, id) == s.durable
  {
    hide R.WellFormed, CacheSound, Backed, AllSendable, Sourced, Recorded, PointSound, LedgerInvariant.Extends;
  }

  lemma AskedAsProposed(s: System, id: Text, rq: RuntimeAuthorityRequest)
    requires Invariant(s) && RequestOf(s.ledger, id) == Some(rq)
    ensures id in s.ledger.effects && IntentOf(rq) == s.ledger.effects[id].proposal.intent
  {
    hide R.WellFormed, Synced, Backed, AllSendable, Sourced, Recorded, PointSound, LedgerInvariant.LedgerSound;
    assert Plain(s.ledger.effects[id]);
  }

  /** A reservation on record, asked of authority as proposed. */
  predicate Asked(s: System, id: Text, rq: RuntimeAuthorityRequest)
  {
    StateIs(s.ledger, id, {L.EffectState.Reserved}) && s.ledger.effects[id].proposal.intent == IntentOf(rq)
  }

  lemma AskedIs(s: System, id: Text, rq: RuntimeAuthorityRequest)
    requires Asked(s, id, rq)
    ensures StateIs(s.ledger, id, {L.EffectState.Reserved})
  {
  }

  lemma ConcludedApart(s: System, t: System, s': System, id: Text, rq: RuntimeAuthorityRequest, chance: Chance, answer: Reply)
    requires Concluded(s, s', id, rq, chance, answer) && t == s.(point := t.point)
    ensures Concluded(t, s', id, rq, chance, answer)
  {
    hide Launched, Ended, Expired, Elected, Held, Abortable, R.BoundTo;
    LaunchedApart(s, t, s', id, chance, answer);
    EndingsApart(s, t, s', id, answer);
  }

  lemma ConcludedAnswers(s: System, s': System, id: Text, rq: RuntimeAuthorityRequest, chance: Chance, answer: Reply)
    requires Concluded(s, s', id, rq, chance, answer)
    ensures answer == Unavailable ==> !chance.commitHeard
    ensures answer == Exited ==> !chance.chainPersists
  {
    hide Becomes, Launched, Expired, Elected, Held, Abortable, R.BoundTo;
    LaunchedAnswers(s, s', id, chance, answer);
  }

  lemma RecoveringApart(s: System, t: System, s': System, id: Text, rq: RuntimeAuthorityRequest, chance: Chance, answer: Reply)
    requires Recovering(s, s', id, rq, chance, answer) && t == s.(point := t.point)
    ensures Recovering(t, s', id, rq, chance, answer)
  {
    hide Launched, Ended, Expired, Elected, Held, Current, Pending, R.BoundTo, Abortable;
    LaunchedApart(s, t, s', id, chance, answer);
    EndingsApart(s, t, s', id, answer);
  }

  /** A launch starts from the records and the provider's files alone. */
  lemma LaunchedApart(s: System, t: System, s': System, id: Text, chance: Chance, answer: Reply)
    requires t.ledger == s.ledger && t.files == s.files
    ensures Launched(s, s', id, chance, answer) <==> Launched(t, s', id, chance, answer)
  {
    hide P.Interrupted, Carried, Guarded, CommandFor;
  }

  lemma EndingsApart(s: System, t: System, s': System, id: Text, answer: Reply)
    requires t.ledger == s.ledger
    ensures forall evidence :: Ended(s, s', id, evidence, answer) <==> Ended(t, s', id, evidence, answer)
  {
    forall evidence { EndedApart(s, t, s', id, evidence, answer); }
  }

  lemma EndedApart(s: System, t: System, s': System, id: Text, evidence: string, answer: Reply)
    requires t.ledger == s.ledger
    ensures Ended(s, s', id, evidence, answer) <==> Ended(t, s', id, evidence, answer)
  {
  }

  /** What authority only logs changes nothing of it. */
  lemma ResumedApart(s: System, t: System, s': System, id: Text, rq: RuntimeAuthorityRequest, chance: Chance, answer: Reply)
    requires t == s.(authority := t.authority, point := t.point) && t.authority.effects == s.authority.effects
    requires t.authority.config == s.authority.config && t.authority.revocation == s.authority.revocation
    requires Resumed(t, s', id, rq, chance, answer)
    ensures Resumed(s, s', id, rq, chance, answer)
  {
    LaunchedApart(s, t, s', id, chance, answer);
    EndingsApart(s, t, s', id, answer);
    forall grant { HeldStill(s.authority, t.authority, rq, chance.commitAt, grant); }
    hide Launched, Ended, Expired, Elected, Held, R.BoundTo;
  }

  lemma ReconciledApart(s: System, t: System, s': System, id: Text, chance: Chance, answer: Reply)
    requires Reconciled(s, s', id, chance, answer) && t == s.(point := t.point)
    ensures Reconciled(t, s', id, chance, answer)
  {
    hide P.Interrupted, P.Answer, P.Writes, P.Observe, Guarded, CommandFor;
  }

  /** A ready request, once reserved, comes to what was promised. */
  lemma PromiseKept(s: System, reserved: System, s': System, r: EffectRequest, id: Text, grant: string, chance: Chance, answer: Reply)
    requires Invariant(s) && Ready(s, r, chance, grant) && chance.prepareHeard && id == EffectOf(s.ledger, r)
    requires reserved.files == s.files && reserved.authority == s.authority
    requires id in reserved.ledger.effects && Fits(reserved.ledger.effects[id], r) && reserved.ledger.effects[id].effectId == id
    requires reserved.ledger.effects == s.ledger.effects[id := reserved.ledger.effects[id]]
    requires id in reserved.durable.effects && reserved.durable.effects[id] == reserved.ledger.effects[id]
    requires reserved.ledger.effects[id].state == L.EffectState.Reserved
    requires Concluded(reserved, s', id, r.authority, chance, answer)
    ensures Fulfilled(s, s', r, id, chance, answer)
  {
    ProvidedFor(s, r, id, chance, grant);
    assert r.commandId == r.authority.requestId && Expired(reserved.ledger, id, chance.commitAt) == (r.terms.validUntil <= chance.commitAt);
    hide Invariant, Elected, R.BoundTo, Done, P.Writes, EffectOf, CommandOf, CommandFor, Launched, Expired, Fits, OnFile, Ended,
      Reason, DispatchedOnce, Guarded, PA.Open, P.Answer;
    if chance.commitAt >= r.terms.validUntil {
      if chance.chainPersists { EndedOnFile(s, reserved, s', r, id, "execution authorization expired", answer); }
    } else if !chance.commitHeard {
      StaysOnFile(s, reserved, s', r, id);
    } else {
      LaunchIsFulfilled(s, reserved, s', r, id, chance, answer);
    }
  }

  /** The provider will take the command of a promising request. */
  lemma ProvidedFor(s: System, r: EffectRequest, id: Text, chance: Chance, grant: string)
    requires Invariant(s) && Ready(s, r, chance, grant) && id == EffectOf(s.ledger, r)
    ensures RequestValid(r) && PA.Open(s.files, CommandOf(id, r)) && P.Answer(s.files, CommandOf(id, r)).Ok?
    ensures chance.commitAt < r.terms.validUntil ==> Elected(s.authority, r.authority, chance.commitAt, grant)
  {
    AtPoint(s);
    hide Invariant, PointSound, Elected, Grantable, Held, PA.Open, P.Answer, LA.Supported, L.CompensationAdmissible, LedgerInvariant.LedgerSound;
    var key := r.terms.idempotencyKey;
    if key in s.ledger.byKey {
      ReservedIsUnsent(s, id);
      KeyIsFiled(s.ledger, key);
      OnFileAddressable(s.ledger, id);
      assert s.ledger.effects[id].proposal.provision.compensatesEffectId == ProposalOf(r).provision.compensatesEffectId;
    } else {
      NewIsUnsent(s, ProposalOf(r));
      NewAddressable(ProposalOf(r));
      if r.authority.operation == Compensate { OnFileAddressable(s.ledger, r.authority.target); }
    }
    UnsentIsUntouched(s, id);
    UntouchedIsOpen(s.files, id, r);
  }

  lemma NewAddressable(p: EffectProposal)
    ensures P.Addressable(EffectIdOf(p))
  {
  }

  /** An effect on file has its own identity, and so has its command. */
  lemma OnFileIsOwn(l: L.Ledger, id: Text)
    requires LedgerInvariant.LedgerSound(l) && id in l.effects
    ensures IsEffectId(id) && P.Addressable(id) && CommandFor(l.effects[id]).effectId == id
    ensures CommandFor(l.effects[id]).requestDigest == l.effects[id].proposal.parametersDigest
  {
    OnFileAddressable(l, id);
    hide LedgerInvariant.EntrySound, LedgerInvariant.OrderingSound, LedgerInvariant.CompensationsSound, L.EntryOf, P.Addressable;
    assert LedgerInvariant.Filed(l, id);
  }

  /** Effects on file, and what they compensate, have the provider's addresses. */
  lemma OnFileAddressable(l: L.Ledger, id: Text)
    requires LedgerInvariant.LedgerSound(l) && id in l.effects
    ensures P.Addressable(id)
    ensures l.effects[id].proposal.provision.compensatesEffectId.Some? ==> P.Addressable(l.effects[id].proposal.provision.compensatesEffectId.value)
  {
    hide LedgerInvariant.EntrySound, LedgerInvariant.OrderingSound, L.EntryOf, EffectIdOf, P.Addressable;
    assert LedgerInvariant.Filed(l, id);
    NewAddressable(l.effects[id].proposal);
    var original := l.effects[id].proposal.provision.compensatesEffectId;
    if original.Some? {
      assert LedgerInvariant.Filed(l, original.value);
      NewAddressable(l.effects[original.value].proposal);
    }
  }

  lemma LaunchIsFulfilled(s: System, reserved: System, s': System, r: EffectRequest, id: Text, chance: Chance, answer: Reply)
    requires RequestValid(r) && PA.Open(s.files, CommandOf(id, r)) && P.Answer(s.files, CommandOf(id, r)).Ok?
    requires reserved.files == s.files && id in reserved.ledger.effects && Fits(reserved.ledger.effects[id], r)
    requires reserved.ledger.effects[id].effectId == id && reserved.ledger.effects[id].state == L.EffectState.Reserved
    requires reserved.ledger.effects == s.ledger.effects[id := reserved.ledger.effects[id]]
    requires Launched(reserved, s', id, chance, answer)
    ensures if chance.chainPersists && chance.answerHeard && |P.Writes(s.files, chance.pid, CommandOf(id, r))| <= chance.survives
            then
              && answer == Committed && OnFile(s, s', r, id, L.ObservedSucceeded) && Done(s, s', r, id)
              && DispatchedOnce(s'.ledger, id, chance.dispatchAt, chance.response, OBSERVED, L.ObservedSucceeded)
              && Reason(s'.ledger, id, L.Reported(chance.evidence)) && Guarded(s'.ledger, id, chance.guarded)
            else
              && answer == OutcomeUnknown && OnFile(s, s', r, id, L.OutcomeUnknown)
              && DispatchedOnce(s'.ledger, id, chance.dispatchAt, LOST, "transport", L.OutcomeUnknown)
  {
    hide PA.Open, P.Answer, P.Writes, P.Interrupted, Done, Guarded, RequestValid, OnFile, Becomes, DispatchedOnce, Reason;
    var e := DispatchedEntry(L.EntryOf(reserved.ledger, id), chance.dispatchAt);
    if Carried(s.files, CommandOf(id, r), chance) {
      BecomesOnFile(s, reserved, s', r, id, ConfirmedEntry(e, chance));
      OpenIsDone(s, s', r, id, chance.pid, chance.survives);
      ConfirmedTrace(reserved, s', id, chance);
    } else {
      BecomesOnFile(s, reserved, s', r, id, LostEntry(e));
      LostTrace(reserved, s', id, chance);
    }
  }

  lemma ConfirmedTrace(s: System, s': System, id: Text, chance: Chance)
    requires id in s.ledger.effects
    requires Becomes(s, s', id, ConfirmedEntry(DispatchedEntry(L.EntryOf(s.ledger, id), chance.dispatchAt), chance))
    ensures DispatchedOnce(s'.ledger, id, chance.dispatchAt, chance.response, OBSERVED, L.ObservedSucceeded)
    ensures Reason(s'.ledger, id, L.Reported(chance.evidence))
  {
  }

  lemma LostTrace(s: System, s': System, id: Text, chance: Chance)
    requires id in s.ledger.effects
    requires Becomes(s, s', id, LostEntry(DispatchedEntry(L.EntryOf(s.ledger, id), chance.dispatchAt)))
    ensures DispatchedOnce(s'.ledger, id, chance.dispatchAt, LOST, "transport", L.OutcomeUnknown)
  {
  }

  /** Whatever becomes of a fitting record, it is still on file for its request. */
  lemma BecomesOnFile(s: System, reserved: System, s': System, r: EffectRequest, id: Text, e: L.Entry)
    requires id in reserved.ledger.effects && Fits(reserved.ledger.effects[id], r) && reserved.ledger.effects[id].effectId == id
    requires reserved.ledger.effects == s.ledger.effects[id := reserved.ledger.effects[id]]
    requires e.record == reserved.ledger.effects[id].(state := e.record.state) && Becomes(reserved, s', id, e)
    ensures OnFile(s, s', r, id, e.record.state)
  {
  }

  lemma EndedOnFile(s: System, reserved: System, s': System, r: EffectRequest, id: Text, evidence: string, answer: Reply)
    requires id in reserved.ledger.effects && Fits(reserved.ledger.effects[id], r) && reserved.ledger.effects[id].effectId == id
    requires reserved.ledger.effects == s.ledger.effects[id := reserved.ledger.effects[id]]
    requires Ended(reserved, s', id, evidence, answer)
    ensures answer == Failed && OnFile(s, s', r, id, L.EffectState.Rejected) && Reason(s'.ledger, id, L.Reported(evidence))
  {
    BecomesOnFile(s, reserved, s', r, id, RejectedEntry(L.EntryOf(reserved.ledger, id), evidence));
    hide OnFile;
  }

  lemma StaysOnFile(s: System, reserved: System, s': System, r: EffectRequest, id: Text)
    requires id in reserved.ledger.effects && Fits(reserved.ledger.effects[id], r) && reserved.ledger.effects[id].effectId == id
    requires reserved.ledger.effects == s.ledger.effects[id := reserved.ledger.effects[id]]
    requires id in reserved.durable.effects && reserved.durable.effects[id] == reserved.ledger.effects[id]
    requires s'.ledger == reserved.ledger && s'.durable == reserved.durable
    ensures OnFile(s, s', r, id, reserved.ledger.effects[id].state)
  {
  }

  /** The first commit request of a new service is promising as soon as one root
      grant covers it, now and at the commit, with quota left. */
  lemma FirstRequestPromises(s: System, r: EffectRequest, chance: Chance, grant: string)
    requires Blank(s) && R.WellFormed(s.authority) && s.authority.effects == map[]
    requires RequestValid(r) && IsCommit(r) && r.terms.validFrom <= chance.now < r.terms.validUntil && chance.preconditionHolds
    requires chance.now < PROPOSAL_EXPIRY
    requires r.terms.parametersDigest ==
             PayloadDigest(Commit, Payload(r.objectiveId, r.authority.capability, r.authority.target, None))
    requires Elected(s.authority, r.authority, chance.now, grant) && Elected(s.authority, r.authority, chance.commitAt, grant)
    requires s.authority.config.grants[grant].parentGrantId == None && grant !in s.authority.revocation.revoked
    requires r.authority.stateVersion == s.authority.config.stateVersion
    requires A.Usage(s.authority.quota.usage, grant) < s.authority.config.grants[grant].quota
    ensures Promising(s, r, chance, grant)
  {
    hide Elected;
    assert G.Chain(s.authority.config.grants, grant) == [grant];
    assert A.PreparedKeys(s.authority.effects, grant) == {};
  }
}
