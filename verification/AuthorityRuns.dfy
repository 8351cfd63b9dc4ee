/** What the authority keeps over whole runs: quota conservation and bounds,
    revocation safety, permanence of commitments, and the two-person rule. */
module AuthorityRuns {
  import opened Contracts
  import opened Grants
  import opened AuthorityStore

  datatype Event =
    | Evaluate(rq: RuntimeAuthorityRequest, now: nat, choice: Option<string>)
    | Prepare(rq: RuntimeAuthorityRequest, now: nat, choice: Option<string>)
    | CommitEffect(rq: RuntimeAuthorityRequest, effectId: Text, now: nat, choice: Option<string>)
    | Abort(rq: RuntimeAuthorityRequest, choice: Option<string>)
    | Status(rq: RuntimeAuthorityRequest, effectId: Text, now: nat, choice: Option<string>)
    | Reap(now: nat)
    | Approve(approvalId: string, target: string, digest: AdminDigest, service: Identity)
    | Administer(request: AdminRequest, approvalId: string, service: Identity)
    | Revoke(grantId: string)
    | Rotate(stateVersion: Identity)
    | Restart(grants: seq<RuntimeGrant>, stateVersion: Identity)

  /** The choice a request came with must be one the grants allow. */
  predicate Enabled(s: Store, e: Event)
  {
    && ValidTable(s.config.grants)
    && match e
       case Evaluate(rq, now, choice) => IsChoice(s.config.grants, rq, now, choice)
       case Prepare(rq, now, choice) => IsChoice(s.config.grants, rq, now, choice)
       case CommitEffect(rq, _, now, choice) => IsChoice(s.config.grants, rq, now, choice)
       case Abort(rq, choice) => IsChoice(s.config.grants, rq, rq.requestedAt, choice)
       case Status(rq, _, now, choice) => IsChoice(s.config.grants, rq, now, choice)
       case _ => true
  }

  function Step(s: Store, e: Event): Store
    requires Enabled(s, e)
  {
    match e
    case Evaluate(rq, now, choice) => EvaluateStep(s, rq, now, choice).0
    case Prepare(rq, now, choice) => PrepareStep(s, rq, now, choice).0
    case CommitEffect(rq, effectId, now, choice) => CommitStep(s, rq, effectId, now, choice).0
    case Abort(rq, choice) => AbortStep(s, rq, choice).0
    case Status(rq, effectId, now, choice) => StatusStep(s, rq, effectId, now, choice).0
    case Reap(now) => ReapStep(s, now)
    case Approve(id, target, digest, service) => ApproveStep(s, id, target, digest, service).0
    case Administer(rq, approvalId, service) => AdminStep(s, rq, approvalId, service).0
    case Revoke(grantId) => RevokeStep(s, grantId).0
    case Rotate(version) => RotateStep(s, version).0
    case Restart(grants, version) =>
      var r := RestartStep(s, grants, version);
      if r.Ok? then r.value else s
  }

  function Answer(s: Store, e: Event): Option<Decision>
    requires Enabled(s, e)
  {
    match e
    case Evaluate(rq, now, choice) => Some(EvaluateStep(s, rq, now, choice).1)
    case Prepare(rq, now, choice) => Some(PrepareStep(s, rq, now, choice).1)
    case CommitEffect(rq, effectId, now, choice) => Some(CommitStep(s, rq, effectId, now, choice).1)
    case Abort(rq, choice) => Some(AbortStep(s, rq, choice).1)
    case Status(rq, effectId, now, choice) => Some(StatusStep(s, rq, effectId, now, choice).1)
    case _ => None
  }

  ghost predicate IsRun(states: seq<Store>, events: seq<Event>)
  {
    && |states| == |events| + 1
    && forall i :: 0 <= i < |events| ==> Enabled(states[i], events[i]) && states[i + 1] == Step(states[i], events[i])
  }

  /******* Counting reservations under a grant *******/

  function CommittedKeys(m: map<string, Reservation>, id: string): set<string>
  {
    set k | k in m && m[k].committed && id in m[k].chain
  }

  function EvaluatedKeys(q: map<string, seq<string>>, id: string): set<string>
  {
    set k | k in q && id in q[k]
  }

  /** Effects committed, effects prepared, and evaluations charged under a grant. */
  function Committed(s: Store, id: string): nat { |CommittedKeys(s.effects, id)| }
  function PreparedUnder(s: Store, id: string): nat { Prepared(s.effects, id) }
  function Evaluated(s: Store, id: string): nat { |EvaluatedKeys(s.quota.reservations, id)| }

  function One(b: bool): nat { if b then 1 else 0 }

  ghost predicate WellFormed(s: Store)
  {
    && ValidTable(s.config.grants)
    && (forall k :: k in s.effects ==> NoDuplicates(s.effects[k].chain))
    && (forall k :: k in s.quota.reservations ==> NoDuplicates(s.quota.reservations[k]))
    && (forall k :: k in s.effects ==>
          (s.effects[k].committed <==> s.effects[k].effectId.Some?))
  }

  /** Usage is exactly what the reservations on record account for. */
  ghost predicate Conserved(s: Store)
  {
    forall id: string :: Usage(s.quota.usage, id) == Evaluated(s, id) + Committed(s, id)
  }

  lemma PrepareKeepsCommitted(m: map<string, Reservation>, k: string, r: Reservation, id: string)
    requires k !in m && !r.committed
    ensures |CommittedKeys(m[k := r], id)| == |CommittedKeys(m, id)|
  {
    assert CommittedKeys(m[k := r], id) == CommittedKeys(m, id);
  }

  lemma PrepareCounts(m: map<string, Reservation>, k: string, r: Reservation, id: string)
    requires k !in m && !r.committed
    ensures Prepared(m[k := r], id) == Prepared(m, id) + One(id in r.chain)
  {
    if id in r.chain { assert PreparedKeys(m[k := r], id) == PreparedKeys(m, id) + {k}; }
    else { assert PreparedKeys(m[k := r], id) == PreparedKeys(m, id); }
  }

  lemma CommitCounts(m: map<string, Reservation>, k: string, r: Reservation, id: string)
    requires k in m && !m[k].committed && r.committed && r.chain == m[k].chain
    ensures |CommittedKeys(m[k := r], id)| == |CommittedKeys(m, id)| + One(id in r.chain)
  {
    if id in r.chain { assert CommittedKeys(m[k := r], id) == CommittedKeys(m, id) + {k}; }
    else { assert CommittedKeys(m[k := r], id) == CommittedKeys(m, id); }
  }

  lemma CommitReleasesPrepared(m: map<string, Reservation>, k: string, r: Reservation, id: string)
    requires k in m && !m[k].committed && r.committed && r.chain == m[k].chain
    ensures Prepared(m[k := r], id) + One(id in r.chain) == Prepared(m, id)
  {
    if id in r.chain {
      assert k in PreparedKeys(m, id);
      assert PreparedKeys(m[k := r], id) == PreparedKeys(m, id) - {k};
    } else { assert PreparedKeys(m[k := r], id) == PreparedKeys(m, id); }
  }

  /** Dropping prepared reservations leaves the committed ones. */
  lemma DropCounts(m: map<string, Reservation>, m': map<string, Reservation>, id: string)
    requires forall k :: k in m' ==> k in m && m'[k] == m[k]
    requires forall k :: k in m && m[k].committed ==> k in m'
    ensures |CommittedKeys(m', id)| == |CommittedKeys(m, id)|
    ensures Prepared(m', id) <= Prepared(m, id)
  {
    assert CommittedKeys(m', id) == CommittedKeys(m, id);
    SubsetSize(PreparedKeys(m', id), PreparedKeys(m, id));
  }

  lemma EvaluateCounts(q: map<string, seq<string>>, k: string, chain: seq<string>, id: string)
    requires k !in q
    ensures |EvaluatedKeys(q[k := chain], id)| == |EvaluatedKeys(q, id)| + One(id in chain)
  {
    if id in chain { assert EvaluatedKeys(q[k := chain], id) == EvaluatedKeys(q, id) + {k}; }
    else { assert EvaluatedKeys(q[k := chain], id) == EvaluatedKeys(q, id); }
  }

  /** What one request does to the reservations, and under which chain. */
  datatype Effect =
    | Nothing
    | Evaluates(chain: seq<string>)
    | Prepares(chain: seq<string>)
    | Commits(chain: seq<string>)

  function EffectOf(s: Store, e: Event): Effect
    requires Enabled(s, e)
  {
    match e
    case Evaluate(rq, now, choice) =>
      if !(rq.requestId in s.log.byRequest
           && s.log.byRequest[rq.requestId].requestDigest != RequestDigest(rq))
         && choice.Some? && Evaluable(s, rq, now, choice) && rq.requestId !in s.quota.reservations
      then Evaluates(Chain(s.config.grants, choice.value)) else Nothing
    case Prepare(rq, now, choice) =>
      if rq.requestId !in s.effects && choice.Some? && Preparable(s, rq, now, choice)
      then Prepares(Chain(s.config.grants, choice.value)) else Nothing
    case CommitEffect(rq, effectId, now, choice) =>
      if Committable(s, rq, effectId, choice) && !s.effects[rq.requestId].committed
      then Commits(s.effects[rq.requestId].chain) else Nothing
    case _ => Nothing
  }

  function KeyOf(e: Event): string
  {
    if e.Evaluate? || e.Prepare? || e.CommitEffect? then e.rq.requestId else ""
  }

  ghost predicate OnlyPreparesDropped(m: map<string, Reservation>, m': map<string, Reservation>)
  {
    && (forall k :: k in m' ==> k in m && m'[k] == m[k])
    && (forall k :: k in m && m[k].committed ==> k in m')
  }

  ghost predicate HasShape(s: Store, s': Store, eff: Effect, key: string)
  {
    match eff
    case Nothing =>
      && s'.quota.usage == s.quota.usage && s'.quota.reservations == s.quota.reservations
      && OnlyPreparesDropped(s.effects, s'.effects)
    case Evaluates(chain) =>
      && NoDuplicates(chain) && key !in s.quota.reservations
      && s'.quota.usage == ChargeAll(s.quota.usage, chain)
      && s'.quota.reservations == s.quota.reservations[key := chain]
      && s'.effects == s.effects
    case Prepares(chain) =>
      && NoDuplicates(chain) && key !in s.effects
      && s'.quota.usage == s.quota.usage && s'.quota.reservations == s.quota.reservations
      && key in s'.effects
      && var r := s'.effects[key];
         && s'.effects == s.effects[key := r]
         && r.chain == chain && !r.committed && r.effectId == None
    case Commits(chain) =>
      && NoDuplicates(chain) && key in s.effects && key in s'.effects
      && s'.quota.usage == ChargeAll(s.quota.usage, chain) && s'.quota.reservations == s.quota.reservations
      && !s.effects[key].committed && s.effects[key].chain == chain
      && var r := s'.effects[key];
         && s'.effects == s.effects[key := r]
         && r.chain == chain && r.committed && r.effectId.Some?
  }

  lemma EvaluateShape(s: Store, e: Event)
    requires WellFormed(s) && Enabled(s, e) && e.Evaluate?
    ensures HasShape(s, Step(s, e), EffectOf(s, e), KeyOf(e))
  {
    if EffectOf(s, e).Evaluates? {
      ChainHasNoDuplicates(s.config.grants, e.choice.value);
      assert HasShape(s, Step(s, e), EffectOf(s, e), KeyOf(e));
    } else {
      assert HasShape(s, Step(s, e), Nothing, KeyOf(e));
    }
  }

  lemma PrepareShape(s: Store, e: Event)
    requires WellFormed(s) && Enabled(s, e) && e.Prepare?
    ensures HasShape(s, Step(s, e), EffectOf(s, e), KeyOf(e))
  {
    if EffectOf(s, e).Prepares? {
      ChainHasNoDuplicates(s.config.grants, e.choice.value);
      assert HasShape(s, Step(s, e), EffectOf(s, e), KeyOf(e));
    } else {
      assert Step(s, e).effects == s.effects;
      assert HasShape(s, Step(s, e), Nothing, KeyOf(e));
    }
  }

  lemma CommitShape(s: Store, e: Event)
    requires WellFormed(s) && Enabled(s, e) && e.CommitEffect?
    ensures HasShape(s, Step(s, e), EffectOf(s, e), KeyOf(e))
  {
    if !Committable(s, e.rq, e.effectId, e.choice) {
      var refused := Logged(s, Refuse(Judged(s, e.rq, BROKER, e.now, e.choice, COMMIT)));
      assert Step(s, e) == refused.0;
      assert HasShape(s, Step(s, e), Nothing, KeyOf(e));
    } else if s.effects[KeyOf(e)].committed {
      assert HasShape(s, Step(s, e), Nothing, KeyOf(e));
    } else {
      assert HasShape(s, Step(s, e), EffectOf(s, e), KeyOf(e));
    }
  }

  lemma AbortShape(s: Store, e: Event)
    requires WellFormed(s) && Enabled(s, e) && (e.Abort? || e.Status? || e.Reap?)
    ensures HasShape(s, Step(s, e), Nothing, KeyOf(e))
  {
    if e.Abort? { assert HasShape(s, Step(s, e), Nothing, KeyOf(e)); }
    else if e.Status? { assert HasShape(s, Step(s, e), Nothing, KeyOf(e)); }
  }

  lemma AdminShape(s: Store, e: Event)
    requires WellFormed(s) && Enabled(s, e)
    requires e.Approve? || e.Administer? || e.Revoke? || e.Rotate? || e.Restart?
    ensures HasShape(s, Step(s, e), Nothing, KeyOf(e))
  {
    var s' := Step(s, e);
    assert s'.effects == s.effects && s'.quota.usage == s.quota.usage
        && s'.quota.reservations == s.quota.reservations by
    {
      if e.Administer? { assert AdminStep(s, e.request, e.approvalId, e.service).0 == s'; }
      else if e.Restart? { assert RestartStep(s, e.grants, e.stateVersion).Ok? ==> RestartStep(s, e.grants, e.stateVersion).value == s'; }
    }
  }

  lemma StepShape(s: Store, e: Event)
    requires WellFormed(s) && Enabled(s, e)
    ensures HasShape(s, Step(s, e), EffectOf(s, e), KeyOf(e))
  {
    if e.Evaluate? { EvaluateShape(s, e); }
    else if e.Prepare? { PrepareShape(s, e); }
    else if e.CommitEffect? { CommitShape(s, e); }
    else if e.Abort? || e.Status? || e.Reap? { AbortShape(s, e); }
    else { AdminShape(s, e); }
  }

  lemma StepKeepsGrants(s: Store, e: Event)
    requires Enabled(s, e) && !e.Restart?
    ensures Step(s, e).config.grants == s.config.grants
  {
    if e.Evaluate? { assert Step(s, e).config.grants == s.config.grants; }
    else if e.Prepare? { assert Step(s, e).config.grants == s.config.grants; }
    else if e.CommitEffect? {
      if Committable(s, e.rq, e.effectId, e.choice) { assert Step(s, e).config.grants == s.config.grants; }
      else { assert Step(s, e).config.grants == s.config.grants; }
    }
    else if e.Abort? { assert Step(s, e).config.grants == s.config.grants; }
    else if e.Status? { assert Step(s, e).config.grants == s.config.grants; }
    else if e.Administer? { assert Step(s, e).config.grants == s.config.grants; }
  }

  lemma StepKeepsTableValid(s: Store, e: Event)
    requires Enabled(s, e)
    ensures ValidTable(Step(s, e).config.grants)
  {
    if e.Restart? { AcceptedGrantsAreValid(e.grants); } else { StepKeepsGrants(s, e); }
  }

  lemma ShapeKeepsWellFormed(s: Store, s': Store, eff: Effect, key: string)
    requires WellFormed(s) && HasShape(s, s', eff, key) && ValidTable(s'.config.grants)
    ensures WellFormed(s')
  {
  }

  lemma StepWellFormed(s: Store, e: Event)
    requires WellFormed(s) && Enabled(s, e)
    ensures WellFormed(Step(s, e))
  {
    StepShape(s, e);
    StepKeepsTableValid(s, e);
    ShapeKeepsWellFormed(s, Step(s, e), EffectOf(s, e), KeyOf(e));
  }

  ghost predicate CountsAgree(s: Store, s': Store, eff: Effect, id: string)
  {
    && Usage(s'.quota.usage, id) == Usage(s.quota.usage, id) + One((eff.Evaluates? || eff.Commits?) && id in eff.chain)
    && Committed(s', id) == Committed(s, id) + One(eff.Commits? && id in eff.chain)
    && Evaluated(s', id) == Evaluated(s, id) + One(eff.Evaluates? && id in eff.chain)
    && PreparedUnder(s', id) + One(eff.Commits? && id in eff.chain) <=
       PreparedUnder(s, id) + One(eff.Prepares? && id in eff.chain)
    && (eff.Evaluates? ==> PreparedUnder(s', id) == PreparedUnder(s, id))
  }

  lemma ShapeCounts(s: Store, s': Store, eff: Effect, key: string, id: string)
    requires HasShape(s, s', eff, key)
    ensures CountsAgree(s, s', eff, id)
  {
    match eff {
      case Nothing => DropCounts(s.effects, s'.effects, id);
      case Evaluates(chain) =>
        EvaluateCounts(s.quota.reservations, key, chain, id);
      case Prepares(chain) =>
        PrepareCounts(s.effects, key, s'.effects[key], id);
        PrepareKeepsCommitted(s.effects, key, s'.effects[key], id);
      case Commits(chain) =>
        CommitCounts(s.effects, key, s'.effects[key], id);
        CommitReleasesPrepared(s.effects, key, s'.effects[key], id);
    }
  }

  lemma StepCounts(s: Store, e: Event, id: string)
    requires WellFormed(s) && Enabled(s, e)
    ensures CountsAgree(s, Step(s, e), EffectOf(s, e), id)
  {
    StepShape(s, e);
    ShapeCounts(s, Step(s, e), EffectOf(s, e), KeyOf(e), id);
  }

  lemma ConservationStep(s: Store, e: Event)
    requires WellFormed(s) && Conserved(s) && Enabled(s, e)
    ensures WellFormed(Step(s, e)) && Conserved(Step(s, e))
  {
    forall id: string
      ensures Usage(Step(s, e).quota.usage, id) == Evaluated(Step(s, e), id) + Committed(Step(s, e), id)
    {
      StepCounts(s, e, id);
    }
    StepWellFormed(s, e);
  }

  /** Quota conservation: in every run, restarts included, the usage recorded
      for a grant is the evaluations plus the committed effects under it. */
  lemma {:induction false} QuotaIsConserved(states: seq<Store>, events: seq<Event>, n: nat)
    requires IsRun(states, events) && n < |states|
    requires WellFormed(states[0]) && Conserved(states[0])
    ensures WellFormed(states[n]) && Conserved(states[n])
  {
    if n > 0 {
      QuotaIsConserved(states, events, n - 1);
      ConservationStep(states[n - 1], events[n - 1]);
    }
  }

  /******* Bounds under fixed grants *******/

  /** Effects stay within quota and so do evaluations, each on its own. */
  ghost predicate WithinQuota(s: Store)
  {
    forall id :: id in s.config.grants ==>
      && Committed(s, id) + PreparedUnder(s, id) <= s.config.grants[id].quota
      && Evaluated(s, id) <= s.config.grants[id].quota
  }

  /** Usage and outstanding PREPAREs together stay within quota. */
  ghost predicate FullyCovered(s: Store)
  {
    forall id :: id in s.config.grants ==> Usage(s.quota.usage, id) + PreparedUnder(s, id) <= s.config.grants[id].quota
  }

  lemma ChargedWithinQuota(s: Store, e: Event, id: string)
    requires WellFormed(s) && Enabled(s, e) && id in s.config.grants
    ensures EffectOf(s, e).Evaluates? && id in EffectOf(s, e).chain ==>
              Usage(s.quota.usage, id) < s.config.grants[id].quota
    ensures EffectOf(s, e).Prepares? && id in EffectOf(s, e).chain ==>
              Usage(s.quota.usage, id) + PreparedUnder(s, id) < s.config.grants[id].quota
  {
    match e {
      case Evaluate(rq, now, choice) => ChosenChainIsKnown(s.config.grants, rq, now, choice);
      case Prepare(rq, now, choice) => ChosenChainIsKnown(s.config.grants, rq, now, choice);
      case _ =>
    }
  }

  lemma WithinQuotaStep(s: Store, e: Event)
    requires WellFormed(s) && Conserved(s) && WithinQuota(s) && Enabled(s, e) && Step(s, e).config.grants == s.config.grants
    ensures WithinQuota(Step(s, e))
  {
    forall id | id in s.config.grants
      ensures && Committed(Step(s, e), id) + PreparedUnder(Step(s, e), id) <= s.config.grants[id].quota
              && Evaluated(Step(s, e), id) <= s.config.grants[id].quota
    {
      StepCounts(s, e, id);
      ChargedWithinQuota(s, e, id);
    }
  }

  ghost predicate FixedGrants(states: seq<Store>)
  {
    forall i :: 0 <= i < |states| ==> states[i].config.grants == states[0].config.grants
  }

  /** Over every run under fixed grants: no ancestor ever has more effects
      committed or prepared than its quota, and with EVALUATE interleaved the
      total never exceeds twice the quota. */
  lemma {:induction false} EffectsStayWithinQuota(states: seq<Store>, events: seq<Event>, n: nat)
    requires IsRun(states, events) && n < |states| && FixedGrants(states)
    requires WellFormed(states[0]) && Conserved(states[0]) && WithinQuota(states[0])
    ensures WithinQuota(states[n])
    ensures forall id :: id in states[n].config.grants ==>
              Usage(states[n].quota.usage, id) + PreparedUnder(states[n], id) <= 2 * states[n].config.grants[id].quota
  {
    QuotaIsConserved(states, events, n);
    if n > 0 {
      EffectsStayWithinQuota(states, events, n - 1);
      QuotaIsConserved(states, events, n - 1);
      WithinQuotaStep(states[n - 1], events[n - 1]);
    }
  }

  /** The headroom EVALUATE does not look at: outstanding PREPAREs. */
  ghost predicate LeavesPreparesCovered(s: Store, e: Event)
    requires Enabled(s, e)
  {
    EffectOf(s, e).Evaluates? ==>
      forall id :: id in s.config.grants && id in EffectOf(s, e).chain ==>
        Usage(s.quota.usage, id) + PreparedUnder(s, id) < s.config.grants[id].quota
  }

  /** One request keeps usage plus PREPAREs within quota exactly when it is not
      an evaluation charged over a grant whose PREPAREs already fill it. */
  lemma CoverageStep(s: Store, e: Event)
    requires WellFormed(s) && FullyCovered(s) && Enabled(s, e) && Step(s, e).config.grants == s.config.grants
    ensures FullyCovered(Step(s, e)) <==> LeavesPreparesCovered(s, e)
  {
    forall id | id in s.config.grants
      ensures Usage(Step(s, e).quota.usage, id) + PreparedUnder(Step(s, e), id) <= s.config.grants[id].quota <==>
              (EffectOf(s, e).Evaluates? && id in EffectOf(s, e).chain ==>
                 Usage(s.quota.usage, id) + PreparedUnder(s, id) < s.config.grants[id].quota)
    {
      StepCounts(s, e, id);
      ChargedWithinQuota(s, e, id);
    }
  }

  lemma {:induction false} PreparesStayCovered(states: seq<Store>, events: seq<Event>, n: nat)
    requires IsRun(states, events) && n < |states| && FixedGrants(states)
    requires WellFormed(states[0]) && Conserved(states[0]) && FullyCovered(states[0])
    requires forall i :: 0 <= i < |events| ==> LeavesPreparesCovered(states[i], events[i])
    ensures FullyCovered(states[n])
  {
    hide EffectOf, Step;
    if n > 0 {
      PreparesStayCovered(states, events, n - 1);
      QuotaIsConserved(states, events, n - 1);
      assert states[n].config.grants == states[0].config.grants == states[n - 1].config.grants;
      CoverageStep(states[n - 1], events[n - 1]);
    }
  }

  /******* Revocation *******/

  /** Reservations carry epochs no later than the present one, and below the
      epoch ceiling one that carries the present epoch has no revoked member. */
  ghost predicate EpochsSound(s: Store)
  {
    && s.revocation.epoch <= U64_MAX
    && (forall k :: k in s.effects ==> s.effects[k].revocationEpoch <= s.revocation.epoch)
    && (s.revocation.epoch < U64_MAX ==>
          forall k :: k in s.effects && s.effects[k].revocationEpoch == s.revocation.epoch ==>
            !AnyRevoked(s.revocation.revoked, s.effects[k].chain))
  }

  /** The two ways the epoch and the reservations move together. */
  ghost predicate EpochMoves(s: Store, s': Store)
  {
    || (&& s'.revocation.epoch == SaturatingAdd(s.revocation.epoch, 1)
        && s.revocation.revoked <= s'.revocation.revoked
        && s'.effects == s.effects)
    || (&& s'.revocation == s.revocation
        && forall k :: k in s'.effects ==>
             || (k in s.effects && s'.effects[k].chain == s.effects[k].chain
                 && s'.effects[k].revocationEpoch == s.effects[k].revocationEpoch)
             || (k !in s.effects && s'.effects[k].revocationEpoch == s.revocation.epoch
                 && !AnyRevoked(s.revocation.revoked, s'.effects[k].chain)))
  }

  lemma PrepareMoves(s: Store, e: Event)
    requires Enabled(s, e) && e.Prepare?
    ensures EpochMoves(s, Step(s, e))
  {
    assert Step(s, e).revocation == s.revocation;
    if Step(s, e).effects != s.effects {
      assert e.choice.Some? && Preparable(s, e.rq, e.now, e.choice);
      assert Step(s, e).effects ==
             s.effects[e.rq.requestId := NewReservation(s, e.rq, e.now, Chain(s.config.grants, e.choice.value))];
    }
  }

  lemma EffectMoves(s: Store, e: Event)
    requires Enabled(s, e) && (e.Evaluate? || e.CommitEffect? || e.Abort? || e.Status? || e.Reap?)
    ensures EpochMoves(s, Step(s, e))
  {
    if e.Evaluate? {
      assert Step(s, e).effects == s.effects && Step(s, e).revocation == s.revocation;
    } else if e.CommitEffect? {
      if Committable(s, e.rq, e.effectId, e.choice) { assert EpochMoves(s, Step(s, e)); }
      else { assert Step(s, e).effects == s.effects && Step(s, e).revocation == s.revocation; }
    } else if e.Abort? {
      assert Step(s, e).effects == s.effects || Step(s, e).effects == s.effects - {e.rq.requestId};
      assert Step(s, e).revocation == s.revocation;
    } else if e.Status? {
      assert Step(s, e).effects == s.effects && Step(s, e).revocation == s.revocation;
    }
  }

  lemma AdminMoves(s: Store, e: Event)
    requires Enabled(s, e) && (e.Approve? || e.Administer? || e.Revoke? || e.Rotate? || e.Restart?)
    ensures EpochMoves(s, Step(s, e))
  {
    assert Step(s, e).effects == s.effects;
    if Step(s, e).revocation != s.revocation {
      assert Step(s, e).revocation.epoch == SaturatingAdd(s.revocation.epoch, 1);
    }
  }

  lemma StepMoves(s: Store, e: Event)
    requires Enabled(s, e)
    ensures EpochMoves(s, Step(s, e))
  {
    if e.Prepare? { PrepareMoves(s, e); }
    else if e.Evaluate? || e.CommitEffect? || e.Abort? || e.Status? || e.Reap? { EffectMoves(s, e); }
    else { AdminMoves(s, e); }
  }

  lemma EpochsStep(s: Store, e: Event)
    requires Enabled(s, e) && EpochsSound(s)
    ensures EpochsSound(Step(s, e))
    ensures s.revocation.epoch <= Step(s, e).revocation.epoch
    ensures s.revocation.revoked <= Step(s, e).revocation.revoked
  {
    StepMoves(s, e);
  }

  lemma {:induction false} EpochsOverRuns(states: seq<Store>, events: seq<Event>, i: nat, n: nat)
    requires IsRun(states, events) && i <= n < |states| && EpochsSound(states[i])
    ensures EpochsSound(states[n])
    ensures states[i].revocation.epoch <= states[n].revocation.epoch
    ensures states[i].revocation.revoked <= states[n].revocation.revoked
  {
    hide EpochsSound, Enabled, Step;
    if i < n {
      EpochsOverRuns(states, events, i, n - 1);
      EpochsStep(states[n - 1], events[n - 1]);
    }
  }

  ghost predicate Authorizes(s: Store, e: Event)
    requires Enabled(s, e)
  {
    Answer(s, e).Some? && Answer(s, e).value.allowed && Answer(s, e).value.code == AUTHORIZED
  }

  lemma DecisionAvoidsRevoked(s: Store, e: Event)
    requires Enabled(s, e) && (e.Evaluate? || e.Prepare? || e.CommitEffect?) && Authorizes(s, e)
    ensures !AnyRevoked(s.revocation.revoked, Answer(s, e).value.grantChain)
  {
    if e.Evaluate? { assert Evaluable(s, e.rq, e.now, e.choice); }
    else if e.Prepare? { assert Preparable(s, e.rq, e.now, e.choice); }
    else { assert Committable(s, e.rq, e.effectId, e.choice); }
  }

  lemma CommittedAnswerIsCurrent(s: Store, e: Event)
    requires Enabled(s, e) && (e.CommitEffect? || e.Status?) && Authorizes(s, e)
    ensures e.rq.requestId in s.effects
    ensures s.effects[e.rq.requestId].revocationEpoch == s.revocation.epoch
    ensures s.effects[e.rq.requestId].requestDigest == RequestDigest(e.rq)
  {
    if e.CommitEffect? { assert Committable(s, e.rq, e.effectId, e.choice); }
    else { assert CurrentCommit(s, e.rq, e.effectId); }
  }

  /** Once a grant is revoked (the epoch then being below its ceiling), in every
      continuation no EVALUATE, PREPARE or COMMIT is authorized through a chain
      that contains it, and COMMIT or STATUS never again answers AUTHORIZED on a
      reservation made before the revocation. */
  lemma RevocationIsFinal(states: seq<Store>, events: seq<Event>, i: nat, n: nat, id: string)
    requires IsRun(states, events) && i < n < |events| && EpochsSound(states[i])
    requires states[i].revocation.epoch < U64_MAX
    requires id !in states[i].revocation.revoked && id in states[i + 1].revocation.revoked
    requires Authorizes(states[n], events[n])
    ensures events[n].Evaluate? || events[n].Prepare? || events[n].CommitEffect? ==>
              id !in Answer(states[n], events[n]).value.grantChain
    ensures events[n].CommitEffect? || events[n].Status? ==>
              && events[n].rq.requestId in states[n].effects
              && (forall k :: k in states[i].effects ==>
                    states[i].effects[k].revocationEpoch < states[n].effects[events[n].rq.requestId].revocationEpoch)
  {
    StepMoves(states[i], events[i]);
    EpochsOverRuns(states, events, i, i + 1);
    EpochsOverRuns(states, events, i + 1, n);
    if events[n].Evaluate? || events[n].Prepare? || events[n].CommitEffect? {
      DecisionAvoidsRevoked(states[n], events[n]);
      assert id in states[n].revocation.revoked;
    }
    if events[n].CommitEffect? || events[n].Status? { CommittedAnswerIsCurrent(states[n], events[n]); }
  }

  /** The ceiling is the exact limit: a revocation ends the standing of a
      current commitment if and only if the epoch can still advance. */
  lemma RevocationBitesBelowCeiling(s: Store, grantId: string, rq: RuntimeAuthorityRequest, effectId: Text)
    requires EpochsSound(s) && RevokeStep(s, grantId).1 && CurrentCommit(s, rq, effectId)
    ensures !CurrentCommit(RevokeStep(s, grantId).0, rq, effectId) <==> s.revocation.epoch < U64_MAX
  {
  }

  /******* Commitments *******/

  ghost predicate BoundTo(s: Store, requestId: string, digest: RequestDigest, effectId: Text)
  {
    && requestId in s.effects
    && s.effects[requestId].committed
    && s.effects[requestId].requestDigest == digest
    && s.effects[requestId].effectId == Some(effectId)
  }

  /** A commitment, once made, survives every later request and restart. */
  lemma CommitmentIsPermanent(s: Store, e: Event, requestId: string, digest: RequestDigest, effectId: Text)
    requires WellFormed(s) && Enabled(s, e) && BoundTo(s, requestId, digest, effectId)
    ensures BoundTo(Step(s, e), requestId, digest, effectId)
  {
    StepShape(s, e);
  }

  /** AUTHORIZED from COMMIT or STATUS means a commitment to exactly this effect
      for exactly this request is on record afterwards. */
  lemma AuthorizedMeansBound(s: Store, e: Event)
    requires WellFormed(s) && Enabled(s, e) && (e.CommitEffect? || e.Status?) && Authorizes(s, e)
    ensures BoundTo(Step(s, e), e.rq.requestId, RequestDigest(e.rq), e.effectId)
    ensures Answer(s, e).value.request == e.rq
  {
    if e.CommitEffect? {
      assert Committable(s, e.rq, e.effectId, e.choice);
      if s.effects[e.rq.requestId].committed { assert Step(s, e).effects == s.effects; }
    } else {
      assert CurrentCommit(s, e.rq, e.effectId);
      assert Step(s, e).effects == s.effects;
    }
  }

  /******* Administration *******/

  /** Every applied change and the one approval it used up. */
  ghost predicate TwoPersonRule(s: Store)
  {
    && (forall a :: a in s.admin.approvals ==> s.admin.approvals[a].approverServiceId == Service(Reviewer))
    && (forall a :: a in s.admin.approvals && s.admin.approvals[a].usedBy.Some? ==>
          && s.admin.approvals[a].usedBy.value == s.admin.approvals[a].targetRequestId
          && s.admin.approvals[a].targetRequestId in s.admin.results
          && s.admin.results[s.admin.approvals[a].targetRequestId] == s.admin.approvals[a].requestDigest)
    && (forall r :: r in s.admin.results ==>
          exists a :: a in s.admin.approvals && s.admin.approvals[a].usedBy == Some(r))
  }

  lemma TwoPersonStep(s: Store, e: Event)
    requires Enabled(s, e) && TwoPersonRule(s)
    ensures TwoPersonRule(Step(s, e))
  {
    var s' := Step(s, e);
    if e.Approve? {
      forall r | r in s'.admin.results ensures exists a :: a in s'.admin.approvals && s'.admin.approvals[a].usedBy == Some(r)
      {
        var a :| a in s.admin.approvals && s.admin.approvals[a].usedBy == Some(r);
        assert a in s'.admin.approvals && s'.admin.approvals[a] == s.admin.approvals[a];
      }
    } else if e.Administer? {
      if s'.admin != s.admin {
        AdministerUsesApproval(s, e);
        forall r | r in s'.admin.results
          ensures exists a :: a in s'.admin.approvals && s'.admin.approvals[a].usedBy == Some(r)
        {
          if r == e.request.requestId { assert s'.admin.approvals[e.approvalId].usedBy == Some(r); }
          else {
            var a :| a in s.admin.approvals && s.admin.approvals[a].usedBy == Some(r);
            assert a != e.approvalId && a in s'.admin.approvals && s'.admin.approvals[a] == s.admin.approvals[a];
          }
        }
      }
    } else {
      OthersKeepAdministration(s, e);
    }
  }

  lemma OthersKeepAdministration(s: Store, e: Event)
    requires Enabled(s, e) && !e.Approve? && !e.Administer?
    ensures Step(s, e).admin == s.admin
  {
    if e.Evaluate? { assert Step(s, e).admin == s.admin; }
    else if e.Prepare? { assert Step(s, e).admin == s.admin; }
    else if e.CommitEffect? {
      if Committable(s, e.rq, e.effectId, e.choice) { assert Step(s, e).admin == s.admin; }
      else { assert Step(s, e).admin == s.admin; }
    }
    else if e.Abort? { assert Step(s, e).admin == s.admin; }
    else if e.Status? { assert Step(s, e).admin == s.admin; }
    else if e.Restart? { assert Step(s, e).admin == s.admin; }
  }

  /** A change goes through only on an unused approval, by the reviewer, of this
      very request, and uses it up. */
  lemma AdministerUsesApproval(s: Store, e: Event)
    requires Enabled(s, e) && e.Administer? && Step(s, e) != s
    ensures ApprovalFits(s, e.request, e.approvalId, e.service)
    ensures e.request.requestId !in s.admin.results
    ensures Step(s, e).admin.results == s.admin.results[e.request.requestId := AdminDigest(e.request)]
    ensures Step(s, e).admin.approvals ==
            s.admin.approvals[e.approvalId := s.admin.approvals[e.approvalId].(usedBy := Some(e.request.requestId))]
  {
    assert AdminEffect(s, e.request).0.admin == s.admin;
  }

  lemma {:induction false} TwoPersonRuleHolds(states: seq<Store>, events: seq<Event>, n: nat)
    requires IsRun(states, events) && n < |states| && TwoPersonRule(states[0])
    ensures TwoPersonRule(states[n])
  {
    if n > 0 {
      TwoPersonRuleHolds(states, events, n - 1);
      TwoPersonStep(states[n - 1], events[n - 1]);
    }
  }

  /** A fresh store satisfies everything the run theorems ask of a start. */
  lemma FreshStoreIsSound(grants: seq<RuntimeGrant>, version: Identity)
    ensures RestartStep(Blank(version), grants, version).Ok? <==> ValidateRuntimeGrants(grants).Ok?
    ensures RestartStep(Blank(version), grants, version).Ok? ==>
              var s := RestartStep(Blank(version), grants, version).value;
              WellFormed(s) && Conserved(s) && WithinQuota(s) && FullyCovered(s) && EpochsSound(s) && TwoPersonRule(s)
  {
    AcceptedGrantsAreValid(grants);
    if RestartStep(Blank(version), grants, version).Ok? {
      var s := RestartStep(Blank(version), grants, version).value;
      forall id: string ensures Committed(s, id) == 0 && PreparedUnder(s, id) == 0 && Evaluated(s, id) == 0 {
        assert CommittedKeys(s.effects, id) == {};
        assert PreparedKeys(s.effects, id) == {};
        assert EvaluatedKeys(s.quota.reservations, id) == {};
      }
    }
  }

  /******* Twice the quota is reached *******/

  const SampleGrant := RuntimeGrant("g", Service(Runtime), Operator("o"), Machine("m"), Service(Runtime),
    Activation("a"), RuntimeEffect, Commit, [], Generation("n"), StateVersion("v"), 1, 0, None, 0, 100)

  function SampleRequest(id: string): RuntimeAuthorityRequest
  {
    RuntimeAuthorityRequest(V2_0, id, Service(Runtime), Machine("m"), Service(Runtime), Activation("a"),
      [ObjectiveTag], RuntimeEffect, Commit, [ObjectiveTag], Generation("n"), StateVersion("v"), 10)
  }

  lemma SampleChoice(m: GrantTable, id: string)
    requires m == map["g" := SampleGrant] && id != ""
    ensures ValidTable(m) && IsChoice(m, SampleRequest(id), 10, Some("g")) && Chain(m, "g") == ["g"]
  {
    assert Sound(m, "g");
  }

  const SamplePrepare := Prepare(SampleRequest("p"), 10, Some("g"))
  const SampleEvaluate := Evaluate(SampleRequest("q"), 10, Some("g"))
  const SampleCommit := CommitEffect(SampleRequest("p"), [EffectTag], 10, Some("g"))

  predicate SampleStart(s: Store)
  {
    RestartStep(Blank(StateVersion("v")), [SampleGrant], StateVersion("v")) == Ok(s)
  }

  lemma SamplePrepared(s: Store)
    requires SampleStart(s)
    ensures s.config.grants == map["g" := SampleGrant] && s.quota == Quota(map[], map[]) && s.log.byRequest == map[]
    ensures Enabled(s, SamplePrepare)
    ensures Step(s, SamplePrepare).effects == map["p" := NewReservation(s, SampleRequest("p"), 10, ["g"])]
    ensures Step(s, SamplePrepare).config == s.config && Step(s, SamplePrepare).revocation == s.revocation
    ensures Step(s, SamplePrepare).quota == s.quota && Step(s, SamplePrepare).log.byRequest == s.log.byRequest
  {
    assert ById([SampleGrant]) == map["g" := SampleGrant] by { assert [SampleGrant][..0] == []; }
    SampleChoice(s.config.grants, "p");
    assert PreparedKeys(s.effects, "g") == {};
    assert Preparable(s, SampleRequest("p"), 10, Some("g"));
  }

  lemma SampleEvaluated(s: Store, s1: Store)
    requires SampleStart(s) && s1 == Step(s, SamplePrepare) && Enabled(s, SamplePrepare)
    ensures Enabled(s1, SampleEvaluate)
    ensures Step(s1, SampleEvaluate).quota.usage == map["g" := 1]
    ensures Step(s1, SampleEvaluate).effects == s1.effects && Step(s1, SampleEvaluate).config == s1.config
    ensures Step(s1, SampleEvaluate).revocation == s1.revocation
  {
    SamplePrepared(s);
    SampleChoice(s1.config.grants, "q");
    assert Evaluable(s1, SampleRequest("q"), 10, Some("g"));
  }

  /** PREPARE, then EVALUATE, then COMMIT under one grant of quota 1 uses it
      twice: the factor in `EffectsStayWithinQuota` cannot be lowered. */
  lemma TwiceQuotaIsReached(s0: Store, s1: Store, s2: Store)
    requires SampleStart(s0)
    requires Enabled(s0, SamplePrepare) ==> s1 == Step(s0, SamplePrepare)
    requires Enabled(s1, SampleEvaluate) ==> s2 == Step(s1, SampleEvaluate)
    ensures Enabled(s0, SamplePrepare) && Enabled(s1, SampleEvaluate) && Enabled(s2, SampleCommit)
    ensures Usage(Step(s2, SampleCommit).quota.usage, "g") == 2 * SampleGrant.quota
  {
    SamplePrepared(s0);
    SampleEvaluated(s0, s1);
    SampleChoice(s2.config.grants, "p");
    assert Committable(s2, SampleRequest("p"), [EffectTag], Some("g"));
  }

  /******* Revoked at the last epoch *******/

  const SampleStatus := Status(SampleRequest("p"), [EffectTag], 10, Some("g"))

  lemma LastEpochPrepared(s: Store, s0: Store)
    requires SampleStart(s) && s0 == s.(revocation := s.revocation.(epoch := U64_MAX))
    ensures Enabled(s0, SamplePrepare)
    ensures Step(s0, SamplePrepare).effects == map["p" := NewReservation(s0, SampleRequest("p"), 10, ["g"])]
    ensures Step(s0, SamplePrepare).config == s0.config && Step(s0, SamplePrepare).revocation == s0.revocation
    ensures s0.config.grants == map["g" := SampleGrant] && s0.config.stateVersion == StateVersion("v")
    ensures s0.revocation == Revocation({}, U64_MAX) && EpochsSound(s0)
  {
    SamplePrepared(s);
    SampleChoice(s0.config.grants, "p");
    assert PreparedKeys(s0.effects, "g") == {};
    assert Preparable(s0, SampleRequest("p"), 10, Some("g"));
  }

  /** A store opened at the last epoch, from which PREPARE, COMMIT and the
      revocation of the grant lead to a STATUS that still answers AUTHORIZED. */
  lemma RevokedAndStillAuthorized(s: Store) returns (states: seq<Store>, events: seq<Event>)
    requires SampleStart(s)
    ensures IsRun(states, events) && states[0] == s.(revocation := s.revocation.(epoch := U64_MAX)) && EpochsSound(states[0])
    ensures events == [SamplePrepare, SampleCommit, Revoke("g")]
    ensures "g" in states[3].revocation.revoked && Enabled(states[3], SampleStatus) && Authorizes(states[3], SampleStatus)
  {
    hide Step, Enabled, EpochsSound, SampleStart, CurrentCommit, Authorizes;
    var s0 := s.(revocation := s.revocation.(epoch := U64_MAX));
    LastEpochPrepared(s, s0);
    var s1 := Step(s0, SamplePrepare);
    LastEpochCommitted(s0, s1);
    var s2 := Step(s1, SampleCommit);
    LastEpochRevoked(s2);
    states, events := [s0, s1, s2, Step(s2, Revoke("g"))], [SamplePrepare, SampleCommit, Revoke("g")];
  }

  lemma LastEpochCommitted(s0: Store, s1: Store)
    requires s0.revocation == Revocation({}, U64_MAX) && s1.effects == map["p" := NewReservation(s0, SampleRequest("p"), 10, ["g"])]
    requires s1.config == s0.config && s1.revocation == s0.revocation
    requires s0.config.grants == map["g" := SampleGrant] && s0.config.stateVersion == StateVersion("v")
    ensures Enabled(s1, SampleCommit)
    ensures var s2 := Step(s1, SampleCommit);
            s2.config == s1.config && s2.revocation == s1.revocation && CurrentCommit(s2, SampleRequest("p"), [EffectTag])
  {
    SampleChoice(s1.config.grants, "p");
    assert Committable(s1, SampleRequest("p"), [EffectTag], Some("g"));
  }

  lemma LastEpochRevoked(s: Store)
    requires s.config.grants == map["g" := SampleGrant] && s.revocation == Revocation({}, U64_MAX)
    requires CurrentCommit(s, SampleRequest("p"), [EffectTag])
    ensures Enabled(s, Revoke("g"))
    ensures var s' := Step(s, Revoke("g"));
            "g" in s'.revocation.revoked && Enabled(s', SampleStatus) && Authorizes(s', SampleStatus)
  {
    SampleChoice(s.config.grants, "p");
  }
}
