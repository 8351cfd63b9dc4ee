/** Lease fencing, recovery, and completion, over every run of the work tables. */
module LeaseSafety {
  import opened Contracts
  import opened Lifecycle
  import opened LifecycleRuns
  import L = EffectLedger
  import P = EffectProjection

  /******* Fences *******/

  /** A binding row that issued a fence, as opposed to one that released it. */
  predicate Issues(row: BindingRow, fence: nat)
  {
    row.binding.state == Leased && row.binding.lease.fence == fence
  }

  predicate Issued(h: seq<BindingRow>, fence: nat)
  {
    exists k :: 0 <= k < |h| && Issues(h[k], fence)
  }

  /** The fences issued for an activation are exactly 1, 2, ..., up to its present
      one, each by exactly one row; its versions are 1, 2, ..., without a gap; and
      no other activation has ever been bound to its objective. */
  lemma FencesAreSequential(t: Tables, a: string)
    requires Sound(t) && a in t.leases.activations
    ensures var h := HistoryOf(t.leases, a);
            && |h| == t.leases.activations[a].version
            && (forall k :: 0 <= k < |h| ==> h[k].version == k + 1)
            && (forall f: nat :: 1 <= f <= t.leases.activations[a].lease.fence <==> Issued(h, f))
            && (forall f, j, k :: 0 <= j < |h| && 0 <= k < |h| && Issues(h[j], f) && Issues(h[k], f) ==> j == k)
    ensures forall b :: b in t.leases.activations && b != a ==>
              t.leases.activations[b].objectiveId != t.leases.activations[a].objectiveId
  {
    assert ActivationSound(t, a);
    hide WakeSound, ObjectiveSound, LedgerFenced;
    var h := t.leases.history[a];
    CurrentRow(t, a);
    forall f: nat ensures 1 <= f <= t.leases.activations[a].lease.fence <==> Issued(h, f) {
      if 1 <= f <= t.leases.activations[a].lease.fence {
        assert RowFits(h[2 * f - 2], 2 * f - 2);
        assert Issues(h[2 * f - 2], f);
      }
      if Issued(h, f) {
        var k :| 0 <= k < |h| && Issues(h[k], f);
        assert RowFits(h[k], k);
      }
    }
    forall f, j, k | 0 <= j < |h| && 0 <= k < |h| && Issues(h[j], f) && Issues(h[k], f) ensures j == k {
      assert RowFits(h[j], j) && RowFits(h[k], k);
    }
  }

  /** An activation is never dropped, its fence never falls, and rows of its
      history and of the ledger are never rewritten. */
  ghost predicate Grows(t: Tables, t': Tables)
  {
    && (forall a :: a in t.leases.activations ==>
          && a in t'.leases.activations
          && t.leases.activations[a].lease.fence <= t'.leases.activations[a].lease.fence
          && HistoryOf(t.leases, a) <= HistoryOf(t'.leases, a))
    && (forall k :: k in t.ledger ==> k in t'.ledger && t'.ledger[k] == t.ledger[k])
  }

  lemma RebindGrows(t: Tables, t': Tables, id: string, x: Activation, wake: Wake)
    requires Rebinds(t, t', id, x, wake)
    ensures Grows(t, t')
  {
    hide RowFits, WakeAgrees;
  }

  lemma {:induction false} ReleasedGrows(t: Tables, ids: seq<string>)
    requires Sound(t) && Released(t, ids).Some?
    ensures Grows(t, Released(t, ids).value)
    decreases |ids|
  {
    if ids != [] {
      hide Sound, Releasable, Release, Rebinds, Grows;
      var x := Release(t, ids[0]);
      ReleaseRebinds(t, ids[0]);
      RebindKeeps(t, x, ids[0], x.leases.activations[ids[0]], x.wakes[t.leases.activations[ids[0]].lease.wakeId]);
      RebindGrows(t, x, ids[0], x.leases.activations[ids[0]], x.wakes[t.leases.activations[ids[0]].lease.wakeId]);
      ReleasedGrows(x, ids[1..]);
      GrowthChains(t, x, Released(t, ids).value);
    } else {
      assert Grows(t, t);
    }
  }

  lemma StepGrows(t: Tables, e: Event)
    requires Sound(t) && Enabled(t, e)
    ensures Grows(t, Next(t, e))
  {
    hide Sound, Claim, Released, Resolve, Completable, EffectsOf, AllSucceeded, IsPrior, ExpiredIds, HistoryOf;
    if e.DoClaim? {
      var t' := Next(t, e);
      if t' != t {
        ClaimRebinds(t, e.commandId, e.request, e.now, e.prior);
        RebindGrows(t, t', e.request.activationId, t'.leases.activations[e.request.activationId], t'.wakes[e.request.wakeId]);
      }
    } else if e.DoRecover? {
      if Released(t, e.ids).Some? { ReleasedGrows(t, e.ids); }
    } else {
      assert Next(t, e).leases == t.leases;
    }
  }

  lemma {:induction false} RunGrows(states: seq<Tables>, events: seq<Event>, i: nat, n: nat)
    requires IsRun(states, events) && i <= n < |states| && Sound(states[0])
    ensures Grows(states[i], states[n])
  {
    hide Sound, Enabled, Next, Grows;
    if i < n {
      RunGrows(states, events, i, n - 1);
      TablesStaySound(states, events, n - 1);
      StepGrows(states[n - 1], events[n - 1]);
      GrowthChains(states[i], states[n - 1], states[n]);
    } else {
      GrowsItself(states[i]);
    }
  }

  lemma GrowsItself(t: Tables)
    ensures Grows(t, t)
  {
  }

  lemma GrowthChains(a: Tables, b: Tables, c: Tables)
    requires Grows(a, b) && Grows(b, c)
    ensures Grows(a, c)
  {
    hide HistoryOf;
  }

  lemma StaleFenceIsRefusedNow(t: Tables, b: Presented, commandId: string, digest: string, result: string, now: int)
    requires b.activationId in t.leases.activations && b.fence < t.leases.activations[b.activationId].lease.fence
    ensures Resolve(t, b, now).Err?
    ensures CommitCommand(t, b, commandId, digest, result, now).0 == t
    ensures CommitCommand(t, b, commandId, digest, result, now).1.Err?
  {
  }

  /** Once a later fence has been issued, nothing bound to an earlier one
      resolves, commits a command or reads one back, ever again. */
  lemma StaleFenceIsRefused(states: seq<Tables>, events: seq<Event>, i: nat, n: nat, b: Presented, commandId: string,
                            digest: string, result: string, now: int)
    requires IsRun(states, events) && i <= n < |states| && Sound(states[0])
    requires b.activationId in states[i].leases.activations
    requires b.fence < states[i].leases.activations[b.activationId].lease.fence
    ensures Resolve(states[n], b, now).Err?
    ensures CommitCommand(states[n], b, commandId, digest, result, now).0 == states[n]
    ensures CommitCommand(states[n], b, commandId, digest, result, now).1.Err?
  {
    hide Sound, Resolve, CommitCommand;
    RunGrows(states, events, i, n);
    StaleFenceIsRefusedNow(states[n], b, commandId, digest, result, now);
  }

  /** A released lease resolves for nobody until it is claimed again. */
  lemma ReleasedLeaseIsRefused(t: Tables, b: Presented, now: int)
    requires Sound(t) && b.activationId in t.leases.activations
    ensures Resolve(t, b, now).Ok? ==>
              && t.leases.activations[b.activationId].state == Leased
              && b.fence == t.leases.activations[b.activationId].lease.fence
              && now < t.leases.activations[b.activationId].lease.deadline
  {
    hide Sound;
    ActivationFacts(t, b.activationId);
  }

  /** A committed command keeps its first result for as long as its fence lasts,
      and under any later fence it can be neither read nor replaced. */
  lemma CommandsAreCommittedOnce(states: seq<Tables>, events: seq<Event>, i: nat, n: nat, commandId: string,
                                 b: Presented, digest: string, result: string, now: int)
    requires IsRun(states, events) && i <= n < |states| && Sound(states[0])
    requires (b.activationId, commandId) in states[i].ledger
    ensures var row := states[i].ledger[(b.activationId, commandId)];
            var again := CommitCommand(states[n], b, commandId, digest, result, now);
            && again.0 == states[n]
            && (again.1.Ok? ==> again.1.value == row.result && digest == row.requestDigest && b.fence == row.fence)
  {
    hide Sound;
    RunGrows(states, events, i, n);
  }

  /******* Claim evidence *******/

  /** What a claim publishes about the binding before it, and what a replay
      reconstructs from the binding alone. */
  datatype Before = Before(version: Option<nat>, fence: Option<nat>)

  function Published(t: Tables, prior: Option<string>): Before
    requires prior.Some? ==> prior.value in t.leases.activations
  {
    if prior.None? then Before(None, None)
    else Before(Some(t.leases.activations[prior.value].version), Some(t.leases.activations[prior.value].lease.fence))
  }

  function Reconstructed(x: Activation): Before
    requires x.version >= 1 && x.lease.fence >= 1
  {
    Before(if x.version == 1 then None else Some(x.version - 1), if x.lease.fence == 1 then None else Some(x.lease.fence - 1))
  }

  /** So a replayed claim always verifies against the evidence of the first. */
  lemma ReplayedClaimVerifies(t: Tables, commandId: string, c: ClaimRequest, now: int, prior: Option<string>)
    requires Sound(t) && IsPrior(t, c.objectiveId, prior) && Claim(t, commandId, c, now, prior).0 != t
    ensures var x := Claim(t, commandId, c, now, prior).0.leases.activations[c.activationId];
            x.version >= 1 && x.lease.fence >= 1 && Reconstructed(x) == Published(t, prior)
  {
    hide Sound;
    if prior.Some? { ActivationFacts(t, prior.value); }
  }

  /******* Recovery *******/

  /** A lease held by an activation whose wake has been acknowledged under it. */
  predicate Stranded(t: Tables, a: string)
  {
    && a in t.leases.activations
    && t.leases.activations[a].state == Leased
    && t.leases.activations[a].lease.expiresAt.Some?
    && t.leases.activations[a].lease.wakeId in t.wakes
    && t.wakes[t.leases.activations[a].lease.wakeId].state == ACKNOWLEDGED
  }

  lemma ReleasableUnlessStranded(t: Tables, a: string, now: int)
    requires Sound(t) && a in t.leases.activations && ExpiredAt(t.leases.activations[a], now)
    ensures Releasable(t, a) <==> !Stranded(t, a)
  {
    hide Sound;
    ActivationFacts(t, a);
  }

  /** Releasing one row strands nothing, frees nothing stranded, and leaves the
      other activations as they were. */
  lemma ReleaseIsLocal(t: Tables, a: string, b: string)
    requires Sound(t) && a in t.leases.activations && Releasable(t, a) && b in t.leases.activations
    ensures var t' := Release(t, a);
            && Sound(t') && b in t'.leases.activations
            && (Stranded(t', b) <==> Stranded(t, b))
            && (b != a || Stranded(t, b) ==> t'.leases.activations[b] == t.leases.activations[b])
  {
    hide Sound;
    ReleaseRebinds(t, a);
    RebindKeeps(t, Release(t, a), a, Release(t, a).leases.activations[a], Release(t, a).wakes[t.leases.activations[a].lease.wakeId]);
    ActivationFacts(t, a);
    ActivationFacts(t, b);
    OneActivation(t, t.leases.activations[a].objectiveId, a);
  }

  ghost predicate AllExpired(t: Tables, ids: seq<string>, now: int)
  {
    forall a :: a in ids ==> a in t.leases.activations && ExpiredAt(t.leases.activations[a], now)
  }

  ghost predicate AnyStranded(t: Tables, ids: seq<string>)
  {
    exists a :: a in ids && Stranded(t, a)
  }

  lemma ReleaseTail(t: Tables, ids: seq<string>, now: int)
    requires Sound(t) && NoRepeats(ids) && ids != [] && AllExpired(t, ids, now)
    requires ids[0] in t.leases.activations && Releasable(t, ids[0])
    ensures Sound(Release(t, ids[0])) && AllExpired(Release(t, ids[0]), ids[1..], now) && NoRepeats(ids[1..])
    ensures AnyStranded(Release(t, ids[0]), ids[1..]) <==> AnyStranded(t, ids[1..])
  {
    hide Sound, Stranded, Releasable, Release, ExpiredAt;
    ReleaseIsLocal(t, ids[0], ids[0]);
    forall a | a in ids[1..]
      ensures && a in Release(t, ids[0]).leases.activations
              && Release(t, ids[0]).leases.activations[a] == t.leases.activations[a]
              && (Stranded(Release(t, ids[0]), a) <==> Stranded(t, a))
    {
      assert a != ids[0] && a in ids;
      ReleaseIsLocal(t, ids[0], a);
    }
  }

  lemma {:induction false} ReleasedExactly(t: Tables, ids: seq<string>, now: int)
    requires Sound(t) && NoRepeats(ids) && AllExpired(t, ids, now)
    ensures Released(t, ids).None? <==> AnyStranded(t, ids)
    decreases |ids|
  {
    if ids != [] {
      assert ids[0] in t.leases.activations && ExpiredAt(t.leases.activations[ids[0]], now);
      assert forall a :: a in ids <==> a == ids[0] || a in ids[1..];
      assert AnyStranded(t, ids) <==> Stranded(t, ids[0]) || AnyStranded(t, ids[1..]);
      hide Sound, Stranded, Releasable, Release, ExpiredAt, AllExpired, AnyStranded;
      ReleasableUnlessStranded(t, ids[0], now);
      if Releasable(t, ids[0]) {
        ReleaseTail(t, ids, now);
        ReleasedExactly(Release(t, ids[0]), ids[1..], now);
      }
    }
  }

  /** Recovery raises exactly when one of the expired leases is stranded. */
  lemma RecoveryFailsExactly(t: Tables, ids: seq<string>, now: int)
    requires Sound(t) && Enabled(t, DoRecover(ids, now))
    ensures Recover(t, ids).1.Err? <==>
              exists a :: a in t.leases.activations && ExpiredAt(t.leases.activations[a], now) && Stranded(t, a)
  {
    hide Sound, Stranded, ExpiredAt;
    var expired := set id | id in ids;
    assert expired == ExpiredIds(t, now);
    forall a ensures a in ids <==> a in t.leases.activations && ExpiredAt(t.leases.activations[a], now) {
      assert a in ids <==> a in expired;
      assert a in ExpiredIds(t, now) <==> a in t.leases.activations && ExpiredAt(t.leases.activations[a], now);
    }
    ReleasedExactly(t, ids, now);
  }

  lemma {:induction false} ReleasedSpares(t: Tables, ids: seq<string>, a: string)
    requires Sound(t) && a in t.leases.activations && Released(t, ids).Some?
    ensures var t' := Released(t, ids).value;
            && a in t'.leases.activations
            && (Stranded(t', a) <==> Stranded(t, a))
            && (Stranded(t, a) ==> t'.leases.activations[a] == t.leases.activations[a])
    decreases |ids|
  {
    if ids != [] {
      hide Sound, Stranded, Releasable, Release;
      ReleaseIsLocal(t, ids[0], a);
      ReleasedSpares(Release(t, ids[0]), ids[1..], a);
    }
  }

  lemma ClaimSpares(t: Tables, commandId: string, c: ClaimRequest, now: int, prior: Option<string>, a: string)
    requires Sound(t) && IsPrior(t, c.objectiveId, prior) && a in t.leases.activations
    ensures var t' := Claim(t, commandId, c, now, prior).0;
            && a in t'.leases.activations
            && (Stranded(t', a) <==> Stranded(t, a))
            && (Stranded(t, a) ==> t'.leases.activations[a] == t.leases.activations[a])
  {
    hide Sound;
    ActivationFacts(t, a);
    if c.wakeId in t.wakes { WakeOwner(t, c.wakeId); }
  }

  /** A tick or a denial about to acknowledge the wake of the lease an activation
      holds: the objective is pending, and either completable and not completed
      under this wake before, or not denied before. */
  predicate AcknowledgesUnder(t: Tables, e: Event, a: string)
    requires a in t.leases.activations
  {
    var o := t.leases.activations[a].objectiveId;
    && t.leases.activations[a].state == Leased
    && o in t.objectives && t.objectives[o].state == PROPOSED
    && (|| (e.DoTick? && e.wakeId == WakeOf(o) && Completable(t.guarding, o) && CompleteOf(WakeOf(o)) !in t.commands)
        || (e.DoDeny? && e.objectiveId == o && DenyOf(o) !in t.commands))
  }

  /** What strands a lease: a tick or a denial that acknowledges its wake while
      the activation still holds it, and nothing else.  Nothing frees it. */
  lemma StrandingIsByAcknowledgement(t: Tables, e: Event, a: string)
    requires Sound(t) && Enabled(t, e) && a in t.leases.activations
    ensures Stranded(Next(t, e), a) <==> Stranded(t, a) || AcknowledgesUnder(t, e, a)
    ensures Stranded(t, a) ==> Next(t, e).leases.activations[a] == t.leases.activations[a]
  {
    hide Sound, Next, Enabled, Stranded, AcknowledgesUnder;
    if e.DoTick? || e.DoDeny? { StrandingByAcknowledgement(t, e, a); }
    else { StrandingOtherwise(t, e, a); }
  }

  lemma StrandingByAcknowledgement(t: Tables, e: Event, a: string)
    requires Sound(t) && Enabled(t, e) && a in t.leases.activations && (e.DoTick? || e.DoDeny?)
    ensures Stranded(Next(t, e), a) <==> Stranded(t, a) || AcknowledgesUnder(t, e, a)
    ensures Next(t, e).leases == t.leases
  {
    hide Sound, Completable;
    ActivationFacts(t, a);
    WakesOfObjectives(t);
    if e.DoTick? { WakeOwner(t, e.wakeId); }
  }

  lemma StrandingOtherwise(t: Tables, e: Event, a: string)
    requires Sound(t) && Enabled(t, e) && a in t.leases.activations && !e.DoTick? && !e.DoDeny?
    ensures !AcknowledgesUnder(t, e, a)
    ensures Stranded(Next(t, e), a) <==> Stranded(t, a)
    ensures Stranded(t, a) ==> Next(t, e).leases.activations[a] == t.leases.activations[a]
  {
    hide Sound, Claim, Released, IsPrior, ExpiredIds;
    if e.DoClaim? {
      hide Stranded;
      ClaimSpares(t, e.commandId, e.request, e.now, e.prior, a);
    } else if e.DoRecover? {
      hide Stranded;
      if Released(t, e.ids).Some? { ReleasedSpares(t, e.ids, a); }
    } else if e.DoSchedule? {
      ActivationFacts(t, a);
    } else {
      hide Next;
      QuietEvents(t, e);
    }
  }

  /** What guards and effects do leaves leases and wakes alone. */
  lemma QuietEvents(t: Tables, e: Event)
    requires Enabled(t, e) && (e.DoGuard? || e.DoInvalidate? || e.DoSave? || e.DoObserve? || e.SystemChanges? || e.DoCommit?)
    ensures Next(t, e).leases == t.leases && Next(t, e).wakes == t.wakes
  {
    hide Resolve, EffectsOf, AllSucceeded, P.Observe, Compensable, CommittedFor;
  }

  /** A stranded lease stays stranded, so once it has expired every later
      recovery raises and changes nothing. */
  lemma {:induction false} StrandedForGood(states: seq<Tables>, events: seq<Event>, i: nat, n: nat, a: string)
    requires IsRun(states, events) && i <= n < |states| && Sound(states[0]) && Stranded(states[i], a)
    ensures Stranded(states[n], a) && states[n].leases.activations[a] == states[i].leases.activations[a]
  {
    hide Sound, Next, Enabled;
    if i < n {
      StrandedForGood(states, events, i, n - 1, a);
      TablesStaySound(states, events, n - 1);
      StrandingIsByAcknowledgement(states[n - 1], events[n - 1], a);
    }
  }

  lemma RecoveryNeverAgain(states: seq<Tables>, events: seq<Event>, i: nat, n: nat, a: string)
    requires IsRun(states, events) && i <= n < |events| && Sound(states[0]) && Stranded(states[i], a)
    requires events[n].DoRecover? && states[i].leases.activations[a].lease.expiresAt.value <= events[n].now
    ensures Recover(states[n], events[n].ids).1.Err? && states[n + 1] == states[n]
  {
    hide Sound, Released;
    StrandedForGood(states, events, i, n, a);
    TablesStaySound(states, events, n);
    assert Enabled(states[n], events[n]) && states[n + 1] == Next(states[n], events[n]);
    RecoveryFailsExactly(states[n], events[n].ids, events[n].now);
  }

  /******* Work behind a stranded lease *******/

  /** The activation that holds a leased wake, with the same expiry. */
  lemma HolderOf(t: Tables, o: string) returns (a: string)
    requires Sound(t) && WakeOf(o) in t.wakes && t.wakes[WakeOf(o)].state == LEASED
    ensures IsPrior(t, o, Some(a)) && t.leases.activations[a].state == Leased
    ensures t.leases.activations[a].lease.wakeId == WakeOf(o)
    ensures t.leases.activations[a].lease.expiresAt == t.wakes[WakeOf(o)].expiresAt != None
  {
    hide ActivationSound, ObjectiveSound, OnePerObjective, LedgerFenced;
    assert WakeSound(t, WakeOf(o));
    a :| a in t.leases.activations && t.leases.activations[a].objectiveId == o && t.leases.activations[a].state == Leased;
    ActivationFacts(t, a);
  }

  predicate HeldOrDone(t: Tables, w: WakeId)
  {
    w in t.wakes && (t.wakes[w].state == LEASED || t.wakes[w].state == ACKNOWLEDGED)
  }

  /** Without a recovery that succeeds, a leased wake is at most acknowledged. */
  lemma HeldStep(t: Tables, e: Event, w: WakeId)
    requires Sound(t) && Enabled(t, e) && HeldOrDone(t, w) && (e.DoRecover? ==> Next(t, e) == t)
    ensures HeldOrDone(Next(t, e), w)
  {
    hide Sound, Resolve, Completable, Guard, Invalidate, SaveRecord, ObserveTransition, Released, IsPrior, ExpiredIds;
    if e.DoGuard? || e.DoInvalidate? || e.DoSave? || e.DoObserve? || e.SystemChanges? || e.DoCommit? { QuietEvents(t, e); }
    else if e.DoTick? { WakeOwner(t, e.wakeId); }
  }

  lemma HeldIsNotClaimed(t: Tables, w: WakeId, commandId: string, c: ClaimRequest, now: int, prior: Option<string>)
    requires HeldOrDone(t, w) && c.wakeId == w && IsPrior(t, c.objectiveId, prior)
    ensures Claim(t, commandId, c, now, prior).0 == t
    ensures ByCaller(commandId) !in t.commands ==> Claim(t, commandId, c, now, prior).1.Err?
  {
  }

  /** One stranded lease blocks every other leased objective: as long as each later
      recovery comes past the stranded expiry, a wake that was leased stays leased
      or is acknowledged, and no new claim of it succeeds. */
  lemma StrandedBlocksClaims(states: seq<Tables>, events: seq<Event>, i: nat, n: nat, a: string, w: WakeId,
                             commandId: string, c: ClaimRequest, now: int, prior: Option<string>)
    requires IsRun(states, events) && i <= n < |states| && Sound(states[0]) && Stranded(states[i], a)
    requires w in states[i].wakes && states[i].wakes[w].state == LEASED
    requires forall k :: i <= k < n && events[k].DoRecover? ==> states[i].leases.activations[a].lease.expiresAt.value <= events[k].now
    requires c.wakeId == w && IsPrior(states[n], c.objectiveId, prior)
    ensures HeldOrDone(states[n], w)
    ensures Claim(states[n], commandId, c, now, prior).0 == states[n]
    ensures ByCaller(commandId) !in states[n].commands ==> Claim(states[n], commandId, c, now, prior).1.Err?
  {
    StaysHeld(states, events, i, n, a, w);
    hide IsRun, Sound, Stranded, HeldOrDone, Claim, IsPrior;
    HeldIsNotClaimed(states[n], w, commandId, c, now, prior);
  }

  lemma StepOf(states: seq<Tables>, events: seq<Event>, k: nat)
    requires IsRun(states, events) && k + 1 < |states|
    ensures k < |events| && Enabled(states[k], events[k]) && states[k + 1] == Next(states[k], events[k])
  {
    hide Enabled, Next;
  }

  lemma {:induction false} StaysHeld(states: seq<Tables>, events: seq<Event>, i: nat, n: nat, a: string, w: WakeId)
    requires IsRun(states, events) && i <= n < |states| && Sound(states[0]) && Stranded(states[i], a)
    requires HeldOrDone(states[i], w)
    requires forall k :: i <= k < n && events[k].DoRecover? ==> states[i].leases.activations[a].lease.expiresAt.value <= events[k].now
    ensures HeldOrDone(states[n], w)
  {
    hide Sound, Next, Enabled, HeldOrDone, IsRun, Stranded, Recover;
    if i < n {
      StaysHeld(states, events, i, n - 1, a, w);
      TablesStaySound(states, events, n - 1);
      StepOf(states, events, n - 1);
      StrandedForGood(states, events, i, n - 1, a);
      StrandedExpiry(states[i], a);
      if events[n - 1].DoRecover? { RecoveryNeverAgain(states, events, i, n - 1, a); }
      HeldStep(states[n - 1], events[n - 1], w);
    }
  }

  lemma StrandedExpiry(t: Tables, a: string)
    requires Stranded(t, a)
    ensures a in t.leases.activations && t.leases.activations[a].lease.expiresAt.Some?
  {
  }

  /******* When a lost lease is claimed again *******/

  /** A request that nothing but the state of the wake can stand against. */
  predicate Presentable(t: Tables, commandId: string, c: ClaimRequest, now: int)
  {
    && 1 <= c.leaseSeconds <= 300 && ByCaller(commandId) !in t.commands && SystemReady(t.system)
    && c.objectiveId in t.objectives && t.objectives[c.objectiveId].state == PROPOSED
    && c.wakeId == WakeOf(c.objectiveId)
    && c.wakeId in t.wakes && t.wakes[c.wakeId].dueAt <= now
  }

  /** A pending objective is claimed, by its activation or by a new one, exactly
      when its wake is not leased. */
  lemma ClaimedUnlessLeased(t: Tables, commandId: string, c: ClaimRequest, now: int, prior: Option<string>)
    requires Sound(t) && Presentable(t, commandId, c, now) && IsPrior(t, c.objectiveId, prior)
    requires if prior.Some? then prior == Some(c.activationId) else c.activationId !in t.leases.activations
    ensures Claim(t, commandId, c, now, prior).1.Ok? <==> t.wakes[c.wakeId].state != LEASED
  {
    hide Sound;
    WakesOfObjectives(t);
    WakeOwner(t, c.wakeId);
    if prior.Some? { ActivationFacts(t, prior.value); NeverEnded(t, prior.value); }
  }

  lemma NeverEnded(t: Tables, a: string)
    requires Sound(t) && a in t.leases.activations
    ensures t.leases.activations[a].state == Leased || t.leases.activations[a].state == Requested
  {
    hide Sound;
    ActivationFacts(t, a);
  }

  /** Releasing another activation touches neither this one nor its wake. */
  lemma ReleaseSparesOther(t: Tables, b: string, a: string)
    requires Sound(t) && a in t.leases.activations && b in t.leases.activations && a != b && Releasable(t, b)
    ensures var t' := Release(t, b);
            && Sound(t') && a in t'.leases.activations && t'.leases.activations[a] == t.leases.activations[a]
            && t.leases.activations[a].lease.wakeId in t.wakes && t.leases.activations[a].lease.wakeId in t'.wakes
            && t'.wakes[t.leases.activations[a].lease.wakeId] == t.wakes[t.leases.activations[a].lease.wakeId]
  {
    hide Sound;
    ReleaseIsLocal(t, b, a);
    ActivationFacts(t, a);
    ActivationFacts(t, b);
    OneActivation(t, t.leases.activations[b].objectiveId, b);
  }

  lemma {:induction false} ReleasedSparesOthers(t: Tables, ids: seq<string>, a: string)
    requires Sound(t) && a in t.leases.activations && a !in ids && Released(t, ids).Some?
    ensures var t' := Released(t, ids).value;
            && a in t'.leases.activations && t'.leases.activations[a] == t.leases.activations[a]
            && t.leases.activations[a].lease.wakeId in t.wakes && t.leases.activations[a].lease.wakeId in t'.wakes
            && t'.wakes[t.leases.activations[a].lease.wakeId] == t.wakes[t.leases.activations[a].lease.wakeId]
    decreases |ids|
  {
    if ids == [] {
      ActivationFacts(t, a);
    } else {
      assert ids[0] != a && a !in ids[1..];
      hide Sound, Releasable, Release;
      ReleaseSparesOther(t, ids[0], a);
      ReleasedSparesOthers(Release(t, ids[0]), ids[1..], a);
    }
  }

  /** The activation may be claimed again, and its wake is released. */
  predicate Freed(t: Tables, t': Tables, a: string)
    requires a in t.leases.activations
  {
    var w := t.leases.activations[a].lease.wakeId;
    && a in t'.leases.activations && w in t.wakes && w in t'.wakes
    && t'.leases.activations[a].objectiveId == t.leases.activations[a].objectiveId
    && t'.leases.activations[a].lease.wakeId == w
    && t'.leases.activations[a].state == Requested
    && t'.wakes[w].state == RELEASED && t'.wakes[w].dueAt == t.wakes[w].dueAt
  }

  lemma ReleaseFrees(t: Tables, a: string)
    requires Sound(t) && a in t.leases.activations && Releasable(t, a)
    ensures Freed(t, Release(t, a), a) && Sound(Release(t, a))
  {
    hide Sound;
    ReleaseIsLocal(t, a, a);
    ActivationFacts(t, a);
    NeverEnded(t, a);
  }

  lemma {:induction false} ReleasedFrees(t: Tables, ids: seq<string>, a: string)
    requires Sound(t) && NoRepeats(ids) && a in ids && a in t.leases.activations && Released(t, ids).Some?
    ensures Freed(t, Released(t, ids).value, a)
    decreases |ids|
  {
    hide Sound, Releasable, Release;
    if ids[0] == a {
      assert a !in ids[1..];
      ReleaseFrees(t, a);
      ReleasedSparesOthers(Release(t, a), ids[1..], a);
    } else {
      ReleaseSparesOther(t, ids[0], a);
      ReleasedFrees(Release(t, ids[0]), ids[1..], a);
    }
  }

  /** A pending objective whose lease has run out is claimed again after a recovery
      exactly when no lease that has run out is stranded, its own or another's. */
  lemma ReclaimedUnlessStranded(t: Tables, ids: seq<string>, now: int, commandId: string, c: ClaimRequest)
    requires Sound(t) && Enabled(t, DoRecover(ids, now)) && Presentable(t, commandId, c, now)
    requires IsPrior(t, c.objectiveId, Some(c.activationId))
    requires t.wakes[c.wakeId].state == LEASED && t.wakes[c.wakeId].expiresAt.Some? && t.wakes[c.wakeId].expiresAt.value <= now
    ensures var t' := Recover(t, ids).0;
            && IsPrior(t', c.objectiveId, Some(c.activationId))
            && (Claim(t', commandId, c, now, Some(c.activationId)).1.Ok? <==>
                  !exists b :: b in t.leases.activations && ExpiredAt(t.leases.activations[b], now) && Stranded(t, b))
  {
    hide Sound, Stranded, ExpiredAt, ExpiredIds, Claim, SystemReady, Enabled, Released;
    var t' := Recover(t, ids).0;
    HolderIsListed(t, ids, now, c.objectiveId, c.activationId);
    RecoveryFailsExactly(t, ids, now);
    if Released(t, ids).Some? {
      ReleasedKeeps(t, ids);
      ReleasedKeepsWork(t, ids);
      ReleasedFrees(t, ids, c.activationId);
    }
    ClaimedUnlessLeased(t', commandId, c, now, Some(c.activationId));
  }

  lemma HolderIsListed(t: Tables, ids: seq<string>, now: int, o: string, a: string)
    requires Sound(t) && Enabled(t, DoRecover(ids, now)) && IsPrior(t, o, Some(a))
    requires WakeOf(o) in t.wakes && t.wakes[WakeOf(o)].state == LEASED && t.wakes[WakeOf(o)].expiresAt.Some?
    requires t.wakes[WakeOf(o)].expiresAt.value <= now
    ensures NoRepeats(ids) && a in ids && t.leases.activations[a].lease.wakeId == WakeOf(o)
  {
    hide Sound;
    var holder := HolderOf(t, o);
    OneActivation(t, o, holder);
    assert a in ExpiredIds(t, now);
  }

  /******* A run that strands a lease *******/

  function SampleClaim(activationId: string, objectiveId: string): ClaimRequest
  {
    ClaimRequest(activationId, objectiveId, WakeOf(objectiveId), "service", 10, Holder("m", "a", "t", "d"))
  }

  const SampleSystem := SystemBinding(Some("g"), Some(CapabilitySet("s", "g")))

  /** Two objectives are scheduled and claimed, and the first is denied while its
      lease is live. */
  const StrandingEvents := [
    DoSchedule("1", 0), DoSchedule("2", 0), SystemChanges(SampleSystem),
    DoClaim("c1", SampleClaim("A1", "1"), 0, None), DoClaim("c2", SampleClaim("A2", "2"), 0, None),
    DoDeny("1")]

  predicate TwoScheduled(t: Tables)
  {
    && t.objectives == map["1" := Objective(PROPOSED, 1), "2" := Objective(PROPOSED, 1)]
    && t.wakes == map[WakeOf("1") := Wake("1", PENDING, 0, None, None, 1), WakeOf("2") := Wake("2", PENDING, 0, None, None, 1)]
    && t.leases == Leases(map[], map[]) && t.system == SampleSystem
    && forall id :: id in t.commands ==> id.ScheduleOf?
  }

  lemma StrandingStarts() returns (t1: Tables, t2: Tables, t3: Tables)
    ensures Enabled(NoTables, StrandingEvents[0]) && t1 == Next(NoTables, StrandingEvents[0])
    ensures Enabled(t1, StrandingEvents[1]) && t2 == Next(t1, StrandingEvents[1])
    ensures Enabled(t2, StrandingEvents[2]) && t3 == Next(t2, StrandingEvents[2])
    ensures TwoScheduled(t3)
  {
    t1 := Next(NoTables, StrandingEvents[0]);
    t2 := Next(t1, StrandingEvents[1]);
    t3 := Next(t2, StrandingEvents[2]);
  }

  lemma StrandingClaims(t3: Tables) returns (t4: Tables, t5: Tables)
    requires TwoScheduled(t3)
    ensures Enabled(t3, StrandingEvents[3]) && t4 == Next(t3, StrandingEvents[3])
    ensures Enabled(t4, StrandingEvents[4]) && t5 == Next(t4, StrandingEvents[4])
    ensures StrandedBehind(Deny(t5, "1").0)
  {
    hide Claim, Deny, Next, Enabled, StrandedBehind;
    SampleClaimed(t3, "c1", "A1", "1");
    ClaimNext(t3, "c1", SampleClaim("A1", "1"));
    t4 := Claim(t3, "c1", SampleClaim("A1", "1"), 0, None).0;
    SampleClaimed(t4, "c2", "A2", "2");
    ClaimNext(t4, "c2", SampleClaim("A2", "2"));
    t5 := Claim(t4, "c2", SampleClaim("A2", "2"), 0, None).0;
    SampleDenied(t5);
  }

  lemma SampleClaimed(t: Tables, commandId: string, a: string, o: string)
    requires IsPrior(t, o, None) && a !in t.leases.activations && ByCaller(commandId) !in t.commands && t.system == SampleSystem
    requires o in t.objectives && t.objectives[o].state == PROPOSED
    requires WakeOf(o) in t.wakes && t.wakes[WakeOf(o)] == Wake(o, PENDING, 0, None, None, 1)
    ensures var t' := Claim(t, commandId, SampleClaim(a, o), 0, None).0;
            && a in t'.leases.activations && t'.leases.activations == t.leases.activations[a := t'.leases.activations[a]]
            && t'.leases.activations[a].objectiveId == o && t'.leases.activations[a].state == Leased
            && t'.leases.activations[a].lease.wakeId == WakeOf(o) && t'.leases.activations[a].lease.expiresAt == Some(10)
            && t'.wakes == t.wakes[WakeOf(o) := Wake(o, LEASED, 0, Some("service"), Some(10), 2)]
            && t'.objectives == t.objectives && t'.system == t.system
            && t'.commands.Keys == t.commands.Keys + {ByCaller(commandId)}
  {
  }

  /** The first lease is stranded; the second objective is pending behind it, and
      recovery at the expiry of both raises. */
  lemma StrandingIsReached(ids: seq<string>) returns (states: seq<Tables>)
    requires NoRepeats(ids) && (set id | id in ids) == {"A1", "A2"}
    ensures IsRun(states, StrandingEvents) && states[0] == NoTables && Sound(states[6]) && Logged(states[6].guarding)
    ensures Stranded(states[6], "A1") && states[6].leases.activations["A1"].lease.expiresAt == Some(10)
    ensures "2" in states[6].objectives && states[6].objectives["2"].state == PROPOSED
    ensures WakeOf("2") in states[6].wakes && states[6].wakes[WakeOf("2")].state == LEASED
    ensures states[6].wakes[WakeOf("2")].expiresAt == Some(10)
    ensures Enabled(states[6], DoRecover(ids, 10)) && Recover(states[6], ids).1.Err?
  {
    hide Sound, Logged, IsRun, Enabled, Stranded, Recover;
    states := StrandingRun();
    EmptyTablesAreSound();
    TablesStaySound(states, StrandingEvents, 6);
    EmptyLogsAreSound();
    LogsStaySound(states, StrandingEvents, 6);
    StrandedRecovery(states[6], ids);
  }

  lemma StrandingRun() returns (states: seq<Tables>)
    ensures IsRun(states, StrandingEvents) && |states| == 7 && states[0] == NoTables && StrandedBehind(states[6])
  {
    hide Deny, Next, Enabled, StrandedBehind, TwoScheduled;
    var t1, t2, t3 := StrandingStarts();
    var t4, t5 := StrandingClaims(t3);
    DenyNext(t5, "1");
    states := [NoTables, t1, t2, t3, t4, t5, Deny(t5, "1").0];
  }

  lemma ClaimNext(t: Tables, commandId: string, c: ClaimRequest)
    requires IsPrior(t, c.objectiveId, None)
    ensures Enabled(t, DoClaim(commandId, c, 0, None))
    ensures Next(t, DoClaim(commandId, c, 0, None)) == Claim(t, commandId, c, 0, None).0
  {
    hide Claim;
  }

  lemma DenyNext(t: Tables, o: string)
    ensures Enabled(t, DoDeny(o)) && Next(t, DoDeny(o)) == Deny(t, o).0
  {
    hide Deny;
  }

  /** Both leases run to 10; the first wake is acknowledged, the second objective
      is still pending. */
  predicate StrandedBehind(t: Tables)
  {
    && t.leases.activations.Keys == {"A1", "A2"}
    && (forall a :: a in t.leases.activations ==>
          t.leases.activations[a].state == Leased && t.leases.activations[a].lease.expiresAt == Some(10))
    && t.leases.activations["A1"].lease.wakeId == WakeOf("1")
    && WakeOf("1") in t.wakes && t.wakes[WakeOf("1")].state == ACKNOWLEDGED
    && "2" in t.objectives && t.objectives["2"].state == PROPOSED
    && WakeOf("2") in t.wakes && t.wakes[WakeOf("2")].state == LEASED && t.wakes[WakeOf("2")].expiresAt == Some(10)
  }

  lemma SampleDenied(t: Tables)
    requires t.leases.activations.Keys == {"A1", "A2"}
    requires forall a :: a in t.leases.activations ==>
               t.leases.activations[a].state == Leased && t.leases.activations[a].lease.expiresAt == Some(10)
    requires t.leases.activations["A1"].lease.wakeId == WakeOf("1") && DenyOf("1") !in t.commands
    requires t.objectives == map["1" := Objective(PROPOSED, 1), "2" := Objective(PROPOSED, 1)]
    requires WakeOf("1") in t.wakes && t.wakes[WakeOf("1")].state == LEASED
    requires WakeOf("2") in t.wakes && t.wakes[WakeOf("2")] == Wake("2", LEASED, 0, Some("service"), Some(10), 2)
    ensures StrandedBehind(Deny(t, "1").0)
  {
  }

  lemma StrandedRecovery(t: Tables, ids: seq<string>)
    requires Sound(t) && StrandedBehind(t) && NoRepeats(ids) && (set id | id in ids) == {"A1", "A2"}
    ensures Stranded(t, "A1") && Enabled(t, DoRecover(ids, 10)) && Recover(t, ids).1.Err?
  {
    hide Sound, Recover;
    assert ExpiredIds(t, 10) == {"A1", "A2"};
    assert Stranded(t, "A1") && ExpiredAt(t.leases.activations["A1"], 10);
    RecoveryFailsExactly(t, ids, 10);
  }

  /******* No lost work, no premature completion *******/

  /** A pending objective always has its wake, not yet acknowledged.  A tick finds
      it due once its time and any lease on it have passed; a claim finds it once
      a recovery has released such a lease, for which see
      `ReclaimedUnlessStranded`. */
  lemma PendingWorkIsNeverLost(states: seq<Tables>, events: seq<Event>, n: nat, o: string, now: int)
    requires IsRun(states, events) && n < |states| && Sound(states[0])
    requires o in states[n].objectives && states[n].objectives[o].state == PROPOSED
    ensures WakeOf(o) in states[n].wakes && states[n].wakes[WakeOf(o)].state != ACKNOWLEDGED
    ensures var wake := states[n].wakes[WakeOf(o)];
            wake.dueAt <= now && (wake.state == LEASED ==> wake.expiresAt.Some? && wake.expiresAt.value <= now) ==> Due(wake, now)
    ensures var wake := states[n].wakes[WakeOf(o)];
            wake.state == LEASED ==>
              exists a :: && IsPrior(states[n], o, Some(a)) && states[n].leases.activations[a].state == Leased
                          && states[n].leases.activations[a].lease.expiresAt == wake.expiresAt && wake.expiresAt.Some?
  {
    TablesStaySound(states, events, n);
    hide Sound;
    WakesOfObjectives(states[n]);
    if states[n].wakes[WakeOf(o)].state == LEASED { var a := HolderOf(states[n], o); }
  }

  lemma {:induction false} ReleasedKeepsAcknowledged(t: Tables, ids: seq<string>, w: WakeId)
    requires w in t.wakes && t.wakes[w].state == ACKNOWLEDGED && Released(t, ids).Some?
    ensures w in Released(t, ids).value.wakes && Released(t, ids).value.wakes[w] == t.wakes[w]
    decreases |ids|
  {
    if ids != [] { ReleasedKeepsAcknowledged(Release(t, ids[0]), ids[1..], w); }
  }

  lemma AcknowledgedStep(t: Tables, e: Event, w: WakeId)
    requires Sound(t) && Enabled(t, e) && w in t.wakes && t.wakes[w].state == ACKNOWLEDGED
    ensures w in Next(t, e).wakes && Next(t, e).wakes[w] == t.wakes[w]
  {
    hide Sound, Resolve, Completable, Guard, Invalidate, SaveRecord, ObserveTransition, Releasable, IsPrior, ExpiredIds;
    if e.DoGuard? || e.DoInvalidate? || e.DoSave? || e.DoObserve? || e.SystemChanges? || e.DoCommit? { QuietEvents(t, e); }
    else if e.DoRecover? {
      hide Released;
      if Released(t, e.ids).Some? { ReleasedKeepsAcknowledged(t, e.ids, w); }
    } else if e.DoTick? { WakeOwner(t, e.wakeId); }
  }

  /** Each wake is acknowledged at most once: an acknowledged wake never changes
      again. */
  lemma {:induction false} AcknowledgedForGood(states: seq<Tables>, events: seq<Event>, i: nat, n: nat, w: WakeId)
    requires IsRun(states, events) && i <= n < |states| && Sound(states[0])
    requires w in states[i].wakes && states[i].wakes[w].state == ACKNOWLEDGED
    ensures w in states[n].wakes && states[n].wakes[w] == states[i].wakes[w]
  {
    if i < n {
      AcknowledgedForGood(states, events, i, n - 1, w);
      TablesStaySound(states, events, n - 1);
      hide Sound, Next, Enabled;
      AcknowledgedStep(states[n - 1], events[n - 1], w);
    }
  }

  lemma {:induction false} ReleasedKeepsWork(t: Tables, ids: seq<string>)
    ensures Released(t, ids).Some? ==>
              var t' := Released(t, ids).value;
              t'.objectives == t.objectives && t'.guarding == t.guarding && t'.commands == t.commands && t'.system == t.system
    decreases |ids|
  {
    if ids != [] && ids[0] in t.leases.activations && Releasable(t, ids[0]) {
      ReleasedKeepsWork(Release(t, ids[0]), ids[1..]);
    }
  }

  /******* Effects and their log *******/

  /** The projections agree with their log. */
  ghost predicate Logged(g: Guarding)
  {
    P.Agrees(P.Db(g.transitions, map[], g.effects, g.log))
  }

  lemma LoggedProjections(t: Tables)
    ensures Logged(t.guarding) <==> P.Agrees(Projections(t))
  {
    hide P.EffectSound, P.CommandSound;
    var bare := P.Db(t.guarding.transitions, map[], t.guarding.effects, t.guarding.log);
    if P.Agrees(bare) { P.OthersKeepAgreement(bare, Projections(t)); }
    if P.Agrees(Projections(t)) { P.OthersKeepAgreement(Projections(t), bare); }
  }

  lemma ObserveKeepsLogged(t: Tables, transitionId: string, c: P.Change)
    requires Logged(t.guarding)
    ensures Logged(ObserveTransition(t, transitionId, c).guarding)
  {
    hide Logged, P.Agrees, P.Observe;
    LoggedProjections(t);
    P.TransitionKeepsAgreement(Projections(t), transitionId, c);
    var db := P.Observe(Projections(t), transitionId, c).0;
    LoggedRows(db);
  }

  lemma LoggedRows(db: P.Db)
    requires P.Agrees(db)
    ensures P.Agrees(P.Db(db.commands, map[], db.effects, db.log))
    ensures forall g: Guarding :: g.effects == db.effects && g.log == db.log && g.transitions == db.commands ==> Logged(g)
  {
    P.OthersKeepAgreement(db, P.Db(db.commands, map[], db.effects, db.log));
    hide P.Agrees;
  }

  predicate IsGuarding(e: Event)
  {
    e.DoGuard? || e.DoInvalidate? || e.DoSave? || e.DoObserve?
  }

  lemma GuardingApart(t: Tables, e: Event)
    requires Enabled(t, e) && !IsGuarding(e)
    ensures Next(t, e).guarding == t.guarding
  {
    hide Resolve, Releasable, IsPrior, ExpiredIds, Completable;
    if e.DoRecover? {
      hide Released;
      ReleasedKeepsWork(t, e.ids);
    }
  }

  predicate SameRows(g: Guarding, g': Guarding)
  {
    g'.effects == g.effects && g'.log == g.log && g'.transitions == g.transitions
  }

  lemma GuardWrites(t: Tables, o: string, ids: set<string>)
    ensures SameRows(t.guarding, Guard(t, o, ids).0.guarding) && Guard(t, o, ids).0.guarding.records == t.guarding.records
  {
    hide EffectsOf, AllSucceeded;
  }

  lemma InvalidateWrites(t: Tables, o: string, original: string)
    ensures SameRows(t.guarding, Invalidate(t, o, original).0.guarding)
    ensures Invalidate(t, o, original).0.guarding.records == t.guarding.records
  {
    hide CommittedFor;
  }

  lemma SaveWrites(t: Tables, id: string, r: CanonicalRecord)
    ensures var g, g' := t.guarding, SaveRecord(t, id, r).0.guarding;
            && SameRows(g, g')
            && forall x :: x in g.records && L.Terminal(g.records[x].state) ==> x in g'.records && g'.records[x] == g.records[x]
  {
    hide Compensable;
  }

  lemma ObserveWrites(t: Tables, transitionId: string, c: P.Change)
    ensures ObserveTransition(t, transitionId, c).guarding.records == t.guarding.records
  {
    hide P.Observe;
  }

  /** Only an observed transition writes projections, log and their commands. */
  lemma RowsApart(t: Tables, e: Event)
    requires Enabled(t, e) && !e.DoObserve?
    ensures SameRows(t.guarding, Next(t, e).guarding)
  {
    hide Guard, Invalidate, SaveRecord, Enabled;
    match e
    case DoGuard(o, ids) => GuardWrites(t, o, ids);
    case DoInvalidate(o, original) => InvalidateWrites(t, o, original);
    case DoSave(id, r) => SaveWrites(t, id, r);
    case _ =>
      hide Next;
      GuardingApart(t, e);
  }

  /** A terminal record is never written again. */
  lemma TerminalRecordStep(t: Tables, e: Event, x: string)
    requires Enabled(t, e) && x in t.guarding.records && L.Terminal(t.guarding.records[x].state)
    ensures x in Next(t, e).guarding.records && Next(t, e).guarding.records[x] == t.guarding.records[x]
  {
    hide Guard, Invalidate, SaveRecord, ObserveTransition, L.Terminal, Enabled;
    match e
    case DoGuard(o, ids) => GuardWrites(t, o, ids);
    case DoInvalidate(o, original) => InvalidateWrites(t, o, original);
    case DoSave(id, r) => SaveWrites(t, id, r);
    case DoObserve(id, c) => ObserveWrites(t, id, c);
    case _ =>
      hide Next;
      GuardingApart(t, e);
  }

  lemma LoggedStep(t: Tables, e: Event)
    requires Enabled(t, e) && Logged(t.guarding)
    ensures Logged(Next(t, e).guarding)
  {
    hide P.Agrees, Enabled;
    if e.DoObserve? {
      hide ObserveTransition;
      ObserveKeepsLogged(t, e.transitionId, e.change);
    } else {
      hide Next;
      RowsApart(t, e);
    }
  }

  lemma {:induction false} LogsStaySound(states: seq<Tables>, events: seq<Event>, n: nat)
    requires IsRun(states, events) && n < |states| && Logged(states[0].guarding)
    ensures Logged(states[n].guarding)
  {
    if n > 0 {
      hide IsRun, Next, Enabled, Logged;
      LogsStaySound(states, events, n - 1);
      StepOf(states, events, n - 1);
      LoggedStep(states[n - 1], events[n - 1]);
    }
  }

  lemma EmptyLogsAreSound()
    ensures Logged(NoTables.guarding)
  {
  }

  /** The last transition an effect was observed in. */
  function LastObserved(g: Guarding, e: string): Option<P.ProviderState>
  {
    if e in g.log && g.log[e] != [] then Some(g.log[e][|g.log[e]| - 1].next) else None
  }

  predicate LoggedSuccess(g: Guarding, e: string)
  {
    && e in g.effects && e in g.records && Succeeded(g, e)
    && (LastObserved(g, e) == Some(P.OBSERVED_SUCCEEDED) || LastObserved(g, e) == Some(P.RESOLVED_SUCCEEDED))
  }

  lemma CommittedIsLogged(g: Guarding, e: string)
    requires Logged(g) && e in g.effects && e in g.records && Succeeded(g, e)
    ensures LoggedSuccess(g, e)
  {
    hide P.CommandSound;
    assert P.EffectSound(P.Db(g.transitions, map[], g.effects, g.log), e);
  }

  /** A tick satisfies an objective only when the guarded set is exactly its
      present effects, there is one, all are committed and canonically successful,
      and the log of each ends in a success. */
  lemma SatisfiedOnlyByTick(t: Tables, e: Event, o: string)
    requires Sound(t) && Logged(t.guarding) && Enabled(t, e) && o in Next(t, e).objectives
    requires Next(t, e).objectives[o].state == SATISFIED
    requires o in t.objectives ==> t.objectives[o].state != SATISFIED
    ensures e.DoTick? && e.wakeId == WakeOf(o) && o in t.objectives && t.objectives[o].state == PROPOSED
    ensures Completable(t.guarding, o) && EffectsOf(t.guarding, o) != {}
    ensures o in t.guarding.guards && t.guarding.guards[o].effectIds == EffectsOf(t.guarding, o)
    ensures forall x :: x in EffectsOf(t.guarding, o) ==> LoggedSuccess(t.guarding, x)
  {
    SatisfiedByTick(t, e, o);
    hide Sound, Next, Enabled, Logged, LoggedSuccess;
    forall x | x in EffectsOf(t.guarding, o) ensures LoggedSuccess(t.guarding, x) { CommittedIsLogged(t.guarding, x); }
  }

  lemma SatisfiedByTick(t: Tables, e: Event, o: string)
    requires Sound(t) && Enabled(t, e) && o in Next(t, e).objectives && Next(t, e).objectives[o].state == SATISFIED
    requires o in t.objectives ==> t.objectives[o].state != SATISFIED
    ensures e.DoTick? && e.wakeId == WakeOf(o) && o in t.objectives && t.objectives[o].state == PROPOSED
    ensures Completable(t.guarding, o)
  {
    hide Sound, Resolve, Releasable, IsPrior, ExpiredIds, EffectsOf, AllSucceeded, P.Observe, Compensable, CommittedFor;
    if e.DoRecover? {
      hide Released;
      ReleasedKeepsWork(t, e.ids);
    } else if e.DoTick? { WakeOwner(t, e.wakeId); }
  }

  /** A settled projection and a terminal record are never written again. */
  lemma SucceededStep(t: Tables, e: Event, x: string)
    requires Logged(t.guarding) && Enabled(t, e) && x in t.guarding.effects && x in t.guarding.records && Succeeded(t.guarding, x)
    ensures var g := Next(t, e).guarding;
            && x in g.effects && g.effects[x] == t.guarding.effects[x]
            && x in g.records && g.records[x] == t.guarding.records[x]
  {
    hide Logged, P.Observe, P.Agrees, Enabled;
    TerminalRecordStep(t, e, x);
    if e.DoObserve? {
      LoggedProjections(t);
      P.SettledStep(Projections(t), P.Transition(e.transitionId, e.change), x);
    } else {
      hide Next;
      RowsApart(t, e);
    }
  }

  /** What has succeeded stays so, row and record. */
  lemma {:induction false} CommittedForGood(states: seq<Tables>, events: seq<Event>, i: nat, n: nat, x: string)
    requires IsRun(states, events) && i <= n < |states| && Logged(states[0].guarding)
    requires x in states[i].guarding.effects && x in states[i].guarding.records && Succeeded(states[i].guarding, x)
    ensures var g := states[n].guarding;
            && x in g.effects && g.effects[x] == states[i].guarding.effects[x]
            && x in g.records && g.records[x] == states[i].guarding.records[x]
            && LoggedSuccess(g, x)
  {
    hide Next, Enabled, Logged, LoggedSuccess, IsRun;
    LogsStaySound(states, events, n);
    if i < n {
      CommittedForGood(states, events, i, n - 1, x);
      LogsStaySound(states, events, n - 1);
      StepOf(states, events, n - 1);
      SucceededStep(states[n - 1], events[n - 1], x);
    }
    CommittedIsLogged(states[n].guarding, x);
  }

  /** No later step un-commits what a satisfied objective was completed on: its
      effects keep their rows and records, and their logs end in a success. */
  lemma CompletionStands(states: seq<Tables>, events: seq<Event>, i: nat, n: nat, o: string)
    requires IsRun(states, events) && i < n < |states| && Sound(states[0]) && Logged(states[0].guarding)
    requires o in states[i + 1].objectives && states[i + 1].objectives[o].state == SATISFIED
    requires o in states[i].objectives ==> states[i].objectives[o].state != SATISFIED
    ensures EffectsOf(states[i].guarding, o) != {}
    ensures forall x :: x in EffectsOf(states[i].guarding, o) ==> x in EffectsOf(states[n].guarding, o) && LoggedSuccess(states[n].guarding, x)
  {
    TablesStaySound(states, events, i);
    LogsStaySound(states, events, i);
    assert Enabled(states[i], events[i]) && states[i + 1] == Next(states[i], events[i]);
    hide Sound, Next, Enabled, Logged;
    SatisfiedOnlyByTick(states[i], events[i], o);
    forall x | x in EffectsOf(states[i].guarding, o)
      ensures x in EffectsOf(states[n].guarding, o) && LoggedSuccess(states[n].guarding, x)
    {
      CommittedForGood(states, events, i, n, x);
    }
  }
}
