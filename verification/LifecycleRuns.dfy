/** What the work tables keep over whole runs: fencing of leases, contiguous
    binding histories, wakes that are never lost, and completion only on a
    guarded, fully committed effect set. */
module LifecycleRuns {
  import opened Contracts
  import opened Lifecycle
  import P = EffectProjection

  datatype Event =
    | DoSchedule(objectiveId: string, now: int)
    | DoDeny(objectiveId: string)
    | DoTick(wakeId: WakeId, now: int)
    | DoGuard(objectiveId: string, effectIds: set<string>)
    | DoInvalidate(objectiveId: string, original: string)
    | DoClaim(commandId: string, request: ClaimRequest, now: int, prior: Option<string>)
    | DoRecover(ids: seq<string>, now: int)
    | DoCommit(presented: Presented, commandId: string, digest: string, result: string, now: int)
    | SystemChanges(system: SystemBinding)
    | DoObserve(transitionId: string, change: P.Change)
    | DoSave(effectId: string, record: CanonicalRecord)

  predicate NoRepeats(ids: seq<string>)
  {
    forall i, j :: 0 <= i < j < |ids| ==> ids[i] != ids[j]
  }

  predicate Enabled(t: Tables, e: Event)
  {
    match e
    case DoTick(w, now) => w in t.wakes && Due(t.wakes[w], now)
    case DoClaim(_, c, _, prior) => IsPrior(t, c.objectiveId, prior)
    case DoRecover(ids, now) => NoRepeats(ids) && (set id | id in ids) == ExpiredIds(t, now)
    case _ => true
  }

  function Next(t: Tables, e: Event): Tables
    requires Enabled(t, e)
  {
    match e
    case DoSchedule(id, now) => Schedule(t, id, now).0
    case DoDeny(id) => Deny(t, id).0
    case DoTick(w, now) => Tick(t, w, now).0
    case DoGuard(id, ids) => Guard(t, id, ids).0
    case DoInvalidate(id, original) => Invalidate(t, id, original).0
    case DoClaim(command, c, now, prior) => Claim(t, command, c, now, prior).0
    case DoRecover(ids, _) => Recover(t, ids).0
    case DoCommit(b, command, digest, result, now) => CommitCommand(t, b, command, digest, result, now).0
    case SystemChanges(system) => t.(system := system)
    case DoObserve(transitionId, c) => ObserveTransition(t, transitionId, c)
    case DoSave(effect, record) => SaveRecord(t, effect, record).0
  }

  ghost predicate IsRun(states: seq<Tables>, events: seq<Event>)
  {
    && |states| == |events| + 1
    && forall i :: 0 <= i < |events| ==> Enabled(states[i], events[i]) && states[i + 1] == Next(states[i], events[i])
  }

  const NoTables := Tables(map[], map[], Leases(map[], map[]), Guarding(map[], map[], map[], map[], map[]), map[], map[], SystemBinding(None, None))

  /******* The invariant *******/

  /** The k-th binding of an activation: claims and releases alternate, and each
      claim raises the fence by one. */
  predicate RowFits(row: BindingRow, k: nat)
  {
    && row.version == k + 1
    && row.binding.version == k + 1
    && row.binding.lease.fence == k / 2 + 1
    && row.binding.state == (if k % 2 == 0 then Leased else Requested)
  }

  predicate HistorySound(h: seq<BindingRow>)
  {
    h != [] && forall k :: 0 <= k < |h| ==> RowFits(h[k], k)
  }

  /** A held activation and its wake carry the same lease, unless the wake has
      been acknowledged under it. */
  predicate WakeAgrees(x: Activation, w: Wake)
  {
    && w.objectiveId == x.objectiveId
    && (x.state == Leased ==>
          && x.lease.owner.Some? && x.lease.expiresAt.Some?
          && (w.state == ACKNOWLEDGED || (w.state == LEASED && w.owner == x.lease.owner && w.expiresAt == x.lease.expiresAt)))
    && (x.state == Requested ==> x.lease.expiresAt.None? && (w.state == ACKNOWLEDGED || w.state == RELEASED))
  }

  ghost predicate ActivationSound(t: Tables, a: string)
    requires a in t.leases.activations
  {
    var x := t.leases.activations[a];
    && a in t.leases.history
    && HistorySound(t.leases.history[a])
    && t.leases.history[a][|t.leases.history[a]| - 1].binding == x
    && x.lease.wakeId == WakeOf(x.objectiveId)
    && x.lease.wakeId in t.wakes
    && WakeAgrees(x, t.wakes[x.lease.wakeId])
  }

  /** Some activation holds the objective's lease. */
  ghost predicate Held(l: Leases, objectiveId: string)
  {
    exists a :: a in l.activations && l.activations[a].objectiveId == objectiveId && l.activations[a].state == Leased
  }

  ghost predicate WakeSound(t: Tables, w: WakeId)
    requires w in t.wakes
  {
    && t.wakes[w].objectiveId == w.objectiveId
    && w.objectiveId in t.objectives
    && (t.wakes[w].state == LEASED ==> t.wakes[w].expiresAt.Some? && Held(t.leases, w.objectiveId))
    && (t.wakes[w].state == PENDING ==>
          forall a :: a in t.leases.activations ==> t.leases.activations[a].objectiveId != w.objectiveId)
  }

  ghost predicate ObjectiveSound(t: Tables, o: string)
    requires o in t.objectives
  {
    && WakeOf(o) in t.wakes
    && (t.objectives[o].state == PROPOSED ==> t.wakes[WakeOf(o)].state != ACKNOWLEDGED)
  }

  /** An objective has one activation. */
  ghost predicate OnePerObjective(l: Leases)
  {
    forall a, b ::
      a in l.activations && b in l.activations && l.activations[a].objectiveId == l.activations[b].objectiveId
      ==> a == b
  }

  ghost predicate LedgerFenced(t: Tables)
  {
    forall k :: k in t.ledger ==>
      k.0 in t.leases.activations && 1 <= t.ledger[k].fence <= t.leases.activations[k.0].lease.fence
  }

  ghost predicate Sound(t: Tables)
  {
    && t.leases.history.Keys == t.leases.activations.Keys
    && (forall a :: a in t.leases.activations ==> ActivationSound(t, a))
    && (forall w :: w in t.wakes ==> WakeSound(t, w))
    && (forall o :: o in t.objectives ==> ObjectiveSound(t, o))
    && OnePerObjective(t.leases)
    && LedgerFenced(t)
  }

  lemma HistoryGrows(h: seq<BindingRow>, row: BindingRow)
    requires (h != [] ==> HistorySound(h)) && RowFits(row, |h|)
    ensures HistorySound(h + [row])
  {
  }

  /** The current binding, read off the last row. */
  lemma CurrentRow(t: Tables, a: string)
    requires a in t.leases.activations && ActivationSound(t, a)
    ensures var x := t.leases.activations[a];
            RowFits(BindingRow(x.version, x), |t.leases.history[a]| - 1) && |t.leases.history[a]| == x.version
  {
    assert RowFits(t.leases.history[a][|t.leases.history[a]| - 1], |t.leases.history[a]| - 1);
  }

  predicate WakeMoves(t: Tables, t': Tables, w: WakeId)
    requires w in t.wakes
  {
    && w in t'.wakes && t'.wakes[w].objectiveId == t.wakes[w].objectiveId
    && (t'.wakes[w] == t.wakes[w] || t'.wakes[w].state == ACKNOWLEDGED)
  }

  predicate WakeIsNew(t: Tables, t': Tables, w: WakeId)
    requires w in t'.wakes
  {
    && t'.wakes[w].state == PENDING && t'.wakes[w].objectiveId == w.objectiveId
    && w.objectiveId !in t.objectives && w.objectiveId in t'.objectives
  }

  predicate ObjectiveMoves(t: Tables, t': Tables, o: string)
    requires o in t'.objectives
  {
    && WakeOf(o) in t'.wakes
    && (t'.objectives[o].state == PROPOSED ==>
          if o in t.objectives && WakeOf(o) in t.wakes
          then t.objectives[o].state == PROPOSED && t'.wakes[WakeOf(o)] == t.wakes[WakeOf(o)]
          else t'.wakes[WakeOf(o)].state != ACKNOWLEDGED)
  }

  /** Wakes are added or acknowledged; activations do not change. */
  ghost predicate WorkMoves(t: Tables, t': Tables)
  {
    && t'.leases == t.leases && t'.ledger == t.ledger
    && t.objectives.Keys <= t'.objectives.Keys
    && (forall w :: w in t.wakes ==> WakeMoves(t, t', w))
    && (forall w :: w in t'.wakes && w !in t.wakes ==> WakeIsNew(t, t', w))
    && (forall o :: o in t'.objectives ==> ObjectiveMoves(t, t', o))
  }

  lemma WorkKeepsActivation(t: Tables, t': Tables, a: string)
    requires Sound(t) && WorkMoves(t, t') && a in t.leases.activations
    ensures ActivationSound(t', a)
  {
    hide HistorySound, WakeSound, ObjectiveSound, OnePerObjective, LedgerFenced;
    assert ActivationSound(t, a);
    assert WakeMoves(t, t', t.leases.activations[a].lease.wakeId);
  }

  lemma WorkKeepsWake(t: Tables, t': Tables, w: WakeId)
    requires Sound(t) && WorkMoves(t, t') && w in t'.wakes
    ensures WakeSound(t', w)
  {
    hide HistorySound, ObjectiveSound, OnePerObjective, LedgerFenced, WakeAgrees;
    if w in t.wakes {
      assert WakeSound(t, w) && WakeMoves(t, t', w);
    } else {
      assert WakeIsNew(t, t', w);
      forall a | a in t.leases.activations ensures t.leases.activations[a].objectiveId != w.objectiveId {
        assert ActivationSound(t, a);
        assert WakeSound(t, t.leases.activations[a].lease.wakeId);
      }
    }
  }

  lemma WorkKeepsObjective(t: Tables, t': Tables, o: string)
    requires Sound(t) && WorkMoves(t, t') && o in t'.objectives
    ensures ObjectiveSound(t', o)
  {
    hide ActivationSound, WakeSound, OnePerObjective, LedgerFenced;
    assert ObjectiveMoves(t, t', o);
    if o in t.objectives { assert ObjectiveSound(t, o); }
  }

  lemma WorkKeeps(t: Tables, t': Tables)
    requires Sound(t) && WorkMoves(t, t')
    ensures Sound(t')
  {
    hide ActivationSound, WakeSound, ObjectiveSound, WakeMoves, WakeIsNew, ObjectiveMoves;
    forall a | a in t.leases.activations ensures ActivationSound(t', a) { WorkKeepsActivation(t, t', a); }
    forall w | w in t'.wakes ensures WakeSound(t', w) { WorkKeepsWake(t, t', w); }
    forall o | o in t'.objectives ensures ObjectiveSound(t', o) { WorkKeepsObjective(t, t', o); }
  }

  predicate IsWork(e: Event)
  {
    e.DoSchedule? || e.DoDeny? || e.DoTick? || e.DoGuard? || e.DoInvalidate? || e.SystemChanges?
    || e.DoObserve? || e.DoSave?
  }

  lemma WakeOwner(t: Tables, w: WakeId)
    requires Sound(t) && w in t.wakes
    ensures t.wakes[w].objectiveId == w.objectiveId
  {
    hide ActivationSound, ObjectiveSound, OnePerObjective, LedgerFenced;
    assert WakeSound(t, w);
  }

  lemma WakesOfObjectives(t: Tables)
    requires Sound(t)
    ensures forall o :: o in t.objectives ==> WakeOf(o) in t.wakes
    ensures forall o :: o in t.objectives && t.objectives[o].state == PROPOSED ==> t.wakes[WakeOf(o)].state != ACKNOWLEDGED
  {
    hide ActivationSound, WakeSound, OnePerObjective, LedgerFenced;
    assert forall o :: o in t.objectives ==> ObjectiveSound(t, o);
  }

  lemma ScheduleMoves(t: Tables, o: string, now: int)
    requires Sound(t)
    ensures WorkMoves(t, Schedule(t, o, now).0)
  {
    hide Sound;
    WakesOfObjectives(t);
  }

  lemma DenyMoves(t: Tables, o: string)
    requires Sound(t)
    ensures WorkMoves(t, Deny(t, o).0)
  {
    hide Sound;
    WakesOfObjectives(t);
  }

  lemma TickMoves(t: Tables, w: WakeId, now: int)
    requires Sound(t) && w in t.wakes && Due(t.wakes[w], now)
    ensures WorkMoves(t, Tick(t, w, now).0)
  {
    hide Sound, Completable;
    WakesOfObjectives(t);
    WakeOwner(t, w);
  }

  /** Steps that leave wakes alone and take no objective back to PROPOSED. */
  lemma QuietMoves(t: Tables, t': Tables)
    requires Sound(t) && t'.leases == t.leases && t'.ledger == t.ledger && t'.wakes == t.wakes
    requires t'.objectives.Keys == t.objectives.Keys
    requires forall o :: o in t.objectives ==> t'.objectives[o] == t.objectives[o] || t'.objectives[o].state != PROPOSED
    ensures WorkMoves(t, t')
  {
    hide Sound;
    WakesOfObjectives(t);
  }

  lemma GuardMoves(t: Tables, o: string, ids: set<string>)
    requires Sound(t)
    ensures WorkMoves(t, Guard(t, o, ids).0)
  {
    hide Sound, WorkMoves, EffectsOf, AllSucceeded;
    QuietMoves(t, Guard(t, o, ids).0);
  }

  lemma EffectMoves(t: Tables, e: Event)
    requires Sound(t) && (e.DoInvalidate? || e.SystemChanges? || e.DoObserve? || e.DoSave?)
    ensures WorkMoves(t, Next(t, e))
  {
    hide Sound, WorkMoves, P.Observe, Compensable, CommittedFor;
    QuietMoves(t, Next(t, e));
  }

  lemma WorkKeepsSound(t: Tables, e: Event)
    requires Sound(t) && Enabled(t, e) && IsWork(e)
    ensures Sound(Next(t, e))
  {
    hide Sound, WorkMoves, Schedule, Deny, Tick, Guard, Invalidate, SaveRecord, ObserveTransition;
    if e.DoSchedule? { ScheduleMoves(t, e.objectiveId, e.now); }
    else if e.DoDeny? { DenyMoves(t, e.objectiveId); }
    else if e.DoTick? { TickMoves(t, e.wakeId, e.now); }
    else if e.DoGuard? { GuardMoves(t, e.objectiveId, e.effectIds); }
    else { EffectMoves(t, e); }
    WorkKeeps(t, Next(t, e));
  }

  /******* Claims and releases *******/

  /** One activation gets a new binding and its wake the matching state. */
  ghost predicate Rebinds(t: Tables, t': Tables, id: string, x: Activation, wake: Wake)
  {
    && t'.leases == Bound(t.leases, id, x)
    && x.lease.wakeId == WakeOf(x.objectiveId) && x.lease.wakeId in t.wakes
    && t'.wakes == t.wakes[x.lease.wakeId := wake]
    && t'.objectives == t.objectives && t'.ledger == t.ledger
    && RowFits(BindingRow(x.version, x), |HistoryOf(t.leases, id)|)
    && WakeAgrees(x, wake) && wake.state != ACKNOWLEDGED && wake.state != PENDING
    && (wake.state == LEASED ==> wake.expiresAt.Some? && x.state == Leased)
    && (forall a :: a in t.leases.activations && t.leases.activations[a].objectiveId == x.objectiveId ==> a == id)
    && (id in t.leases.activations ==>
          t.leases.activations[id].objectiveId == x.objectiveId && t.leases.activations[id].lease.fence <= x.lease.fence)
  }

  lemma RebindKeepsActivation(t: Tables, t': Tables, id: string, x: Activation, wake: Wake, a: string)
    requires Sound(t) && Rebinds(t, t', id, x, wake) && a in t'.leases.activations
    ensures ActivationSound(t', a)
  {
    hide WakeSound, ObjectiveSound, OnePerObjective, LedgerFenced, RowFits;
    if a == id {
      if id in t.leases.activations { assert ActivationSound(t, id); }
      HistoryGrows(HistoryOf(t.leases, id), BindingRow(x.version, x));
    } else {
      assert ActivationSound(t, a);
    }
  }

  lemma RebindKeepsWake(t: Tables, t': Tables, id: string, x: Activation, wake: Wake, w: WakeId)
    requires Sound(t) && Rebinds(t, t', id, x, wake) && w in t'.wakes
    ensures WakeSound(t', w)
  {
    hide ActivationSound, ObjectiveSound, OnePerObjective, LedgerFenced, RowFits, HistoryOf;
    assert WakeSound(t, w);
    if t'.wakes[w].state == LEASED {
      if w == x.lease.wakeId { assert t'.leases.activations[id] == x; }
      else {
        var a :| a in t.leases.activations && t.leases.activations[a].objectiveId == w.objectiveId && t.leases.activations[a].state == Leased;
        assert a != id && t'.leases.activations[a] == t.leases.activations[a];
      }
    }
  }

  lemma RebindKeepsLeases(t: Tables, t': Tables, id: string, x: Activation, wake: Wake)
    requires Sound(t) && Rebinds(t, t', id, x, wake)
    ensures t'.leases.history.Keys == t'.leases.activations.Keys && OnePerObjective(t'.leases) && LedgerFenced(t')
    ensures forall o :: o in t'.objectives ==> ObjectiveSound(t', o)
  {
    hide ActivationSound, WakeSound, RowFits, HistoryOf, WakeAgrees;
    forall o | o in t'.objectives ensures ObjectiveSound(t', o) { assert ObjectiveSound(t, o); }
  }

  lemma RebindKeeps(t: Tables, t': Tables, id: string, x: Activation, wake: Wake)
    requires Sound(t) && Rebinds(t, t', id, x, wake)
    ensures Sound(t')
  {
    hide ActivationSound, WakeSound, ObjectiveSound, OnePerObjective, LedgerFenced, Rebinds;
    RebindKeepsLeases(t, t', id, x, wake);
    forall a | a in t'.leases.activations ensures ActivationSound(t', a) {
      RebindKeepsActivation(t, t', id, x, wake, a);
    }
    forall w | w in t'.wakes ensures WakeSound(t', w) { RebindKeepsWake(t, t', id, x, wake, w); }
  }

  lemma ActivationFacts(t: Tables, a: string)
    requires Sound(t) && a in t.leases.activations
    ensures var x := t.leases.activations[a];
            && HistoryOf(t.leases, a) != []
            && RowFits(BindingRow(x.version, x), |HistoryOf(t.leases, a)| - 1)
            && x.lease.wakeId == WakeOf(x.objectiveId) && x.lease.wakeId in t.wakes
            && WakeAgrees(x, t.wakes[x.lease.wakeId])
  {
    hide WakeSound, ObjectiveSound, OnePerObjective, LedgerFenced, WakeAgrees;
    assert ActivationSound(t, a);
    CurrentRow(t, a);
  }

  lemma OneActivation(t: Tables, objectiveId: string, a: string)
    requires Sound(t) && a in t.leases.activations && t.leases.activations[a].objectiveId == objectiveId
    ensures forall b :: b in t.leases.activations && t.leases.activations[b].objectiveId == objectiveId ==> b == a
  {
    hide ActivationSound, WakeSound, ObjectiveSound, LedgerFenced;
  }

  lemma NoHistoryYet(t: Tables, a: string)
    requires Sound(t) && a !in t.leases.activations
    ensures HistoryOf(t.leases, a) == []
  {
    hide ActivationSound, WakeSound, ObjectiveSound, OnePerObjective, LedgerFenced;
  }

  lemma ClaimRebinds(t: Tables, commandId: string, c: ClaimRequest, now: int, prior: Option<string>)
    requires Sound(t) && IsPrior(t, c.objectiveId, prior) && Claim(t, commandId, c, now, prior).0 != t
    ensures var t' := Claim(t, commandId, c, now, prior).0;
            && c.wakeId in t'.wakes && c.activationId in t'.leases.activations
            && Rebinds(t, t', c.activationId, t'.leases.activations[c.activationId], t'.wakes[c.wakeId])
            && (forall k: CommandId :: k in t.commands ==> k in t'.commands)
  {
    hide Sound;
    WakeOwner(t, c.wakeId);
    if prior.Some? {
      ActivationFacts(t, prior.value);
      OneActivation(t, c.objectiveId, prior.value);
    } else {
      NoHistoryYet(t, c.activationId);
    }
  }

  lemma ReleaseRebinds(t: Tables, id: string)
    requires Sound(t) && id in t.leases.activations && Releasable(t, id)
    ensures var t' := Release(t, id);
            && t.leases.activations[id].state == Leased
            && id in t'.leases.activations && t.leases.activations[id].lease.wakeId in t'.wakes
            && Rebinds(t, t', id, t'.leases.activations[id], t'.wakes[t.leases.activations[id].lease.wakeId])
  {
    hide Sound;
    ActivationFacts(t, id);
    OneActivation(t, t.leases.activations[id].objectiveId, id);
  }

  lemma {:induction false} ReleasedKeeps(t: Tables, ids: seq<string>)
    requires Sound(t) && Released(t, ids).Some?
    ensures Sound(Released(t, ids).value)
    decreases |ids|
  {
    if ids != [] {
      hide Sound, Releasable, Release, Rebinds;
      var x := Release(t, ids[0]);
      ReleaseRebinds(t, ids[0]);
      RebindKeeps(t, x, ids[0], x.leases.activations[ids[0]], x.wakes[t.leases.activations[ids[0]].lease.wakeId]);
      ReleasedKeeps(x, ids[1..]);
    }
  }

  lemma LedgerApart(t: Tables, t': Tables)
    requires Sound(t) && t' == t.(ledger := t'.ledger) && LedgerFenced(t')
    ensures Sound(t')
  {
    hide HistorySound, WakeAgrees, LedgerFenced;
    forall a | a in t.leases.activations ensures ActivationSound(t', a) { assert ActivationSound(t, a); }
    forall w | w in t.wakes ensures WakeSound(t', w) { assert WakeSound(t, w); }
    forall o | o in t.objectives ensures ObjectiveSound(t', o) { assert ObjectiveSound(t, o); }
  }

  lemma LedgerOf(t: Tables)
    requires Sound(t)
    ensures LedgerFenced(t)
  {
    hide ActivationSound, WakeSound, ObjectiveSound, OnePerObjective, LedgerFenced;
  }

  lemma CommitKeeps(t: Tables, b: Presented, commandId: string, digest: string, result: string, now: int)
    requires Sound(t)
    ensures Sound(CommitCommand(t, b, commandId, digest, result, now).0)
  {
    hide Sound;
    LedgerOf(t);
    LedgerApart(t, CommitCommand(t, b, commandId, digest, result, now).0);
  }

  lemma StepKeepsSound(t: Tables, e: Event)
    requires Sound(t) && Enabled(t, e)
    ensures Sound(Next(t, e))
  {
    hide Sound, Claim, CommitCommand, Released, Rebinds, Schedule, Deny, Tick, Guard, Invalidate;
    match e
    case DoClaim(commandId, c, now, prior) =>
      var t' := Claim(t, commandId, c, now, prior).0;
      if t' != t {
        ClaimRebinds(t, commandId, c, now, prior);
        RebindKeeps(t, t', c.activationId, t'.leases.activations[c.activationId], t'.wakes[c.wakeId]);
      }
    case DoRecover(ids, _) => if Released(t, ids).Some? { ReleasedKeeps(t, ids); }
    case DoCommit(b, commandId, digest, result, now) => CommitKeeps(t, b, commandId, digest, result, now);
    case _ => WorkKeepsSound(t, e);
  }

  /** Over every interleaving of scheduling, denial, ticks, claims, recovery and
      commits: one activation per objective, contiguous binding histories, and
      leases that agree with their wakes. */
  lemma {:induction false} TablesStaySound(states: seq<Tables>, events: seq<Event>, n: nat)
    requires IsRun(states, events) && n < |states| && Sound(states[0])
    ensures Sound(states[n])
  {
    if n > 0 {
      TablesStaySound(states, events, n - 1);
      hide Sound, Enabled, Next;
      StepKeepsSound(states[n - 1], events[n - 1]);
    }
  }

  lemma EmptyTablesAreSound()
    ensures Sound(NoTables)
  {
  }
}
