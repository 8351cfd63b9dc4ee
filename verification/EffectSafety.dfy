/** The promises of the governed effect protocol, over every run of the system:
    crashes between any two durable writes, lost and late messages, retries. */
module EffectSafety {
  import opened Contracts
  import opened EffectLedger
  import opened LedgerInvariant
  import opened LedgerRestore
  import opened EffectService
  import opened EffectServiceRuns
  import A = AuthorityStore
  import R = AuthorityRuns
  import P = OfflineProvider

  /** Before the first request: any well-formed authority, nothing else. */
  predicate Blank(s: System)
  {
    && s.ledger == EmptyLedger.(registry := EmptyLedger.registry.(providers := map[PROVIDER := OfflineContract]))
    && s.durable == EmptyLedger
    && s.files == P.NoFiles
    && s.sent == {}
    && s.point == Idle
  }

  ghost predicate Starts(states: seq<System>, steps: seq<Step>)
  {
    IsRun(states, steps) && Blank(states[0]) && R.WellFormed(states[0].authority)
  }

  lemma BlankIsSound(s: System)
    requires Blank(s) && R.WellFormed(s.authority)
    ensures Invariant(s)
  {
    hide R.WellFormed;
  }

  lemma {:induction false} InvariantHolds(states: seq<System>, steps: seq<Step>, n: nat)
    requires Starts(states, steps) && n < |states|
    ensures Invariant(states[n])
  {
    hide Invariant, Blank;
    if n == 0 { BlankIsSound(states[0]); }
    else {
      InvariantHolds(states, steps, n - 1);
      hide Enabled, Next;
      StepKeeps(states[n - 1], steps[n - 1]);
    }
  }

  /******* What reaches the world *******/

  /** Why a command may reach the provider: the durable record of its effect had
      reached EXECUTING, the command is that record's command and no other, and
      authority holds a committed reservation for exactly this effect. */
  ghost predicate Justified(s: System, c: P.Command)
  {
    && ExecutedIn(s.durable, c.effectId)
    && c == CommandFor(s.durable.effects[c.effectId])
    && Authorized(s.authority, s.durable.effects[c.effectId].proposal, c.effectId)
  }

  lemma SentIsJustified(s: System, c: P.Command)
    requires Invariant(s) && c in s.sent
    ensures Justified(s, c)
  {
    hide R.WellFormed, LedgerSound, SameRecords, Sourced, Recorded, PointSound, Authorized, Reached, CommandFor;
    assert Sendable(s.durable, c);
    ExecutionLasts(s.durable, s.ledger, c.effectId);
    GrownProposal(s.durable, s.ledger, c.effectId);
  }

  predicate Touches(before: P.Files, after: P.Files, id: Text)
  {
    (id in before.world) != (id in after.world)
    || (id in before.world && before.world[id] != after.world[id])
  }

  /** A world file changes only because a justified command reached the provider,
      and that command is the file's own or one that compensates it. */
  lemma ChangeIsJustified(s: System, t: Step, id: Text)
    requires Invariant(s) && Enabled(s, t) && Touches(s.files, Next(s, t).files, id)
    ensures t.ProviderActs? && Justified(s, t.attempt.command)
    ensures t.attempt.command.effectId == id || P.Undoes(t.attempt.command, id)
  {
    hide Invariant, Justified, P.Next, R.Step;
    assert t.ProviderActs? && Next(s, t).files == P.Next(s.files, t.attempt);
    SentIsJustified(s, t.attempt.command);
    P.NextIsPartial(s.files, t.attempt);
    hide Next, Enabled, P.Answer;
  }

  /** In every run of the effect service the provider changes the world for an
      effect only if authority has committed exactly that effect and its durable
      record had already reached EXECUTING. */
  lemma EffectsAreAuthorized(states: seq<System>, steps: seq<Step>, n: nat, id: Text)
    requires Starts(states, steps) && n < |steps| && Touches(states[n].files, states[n + 1].files, id)
    ensures steps[n].ProviderActs? && Justified(states[n], steps[n].attempt.command)
    ensures steps[n].attempt.command.effectId == id || P.Undoes(steps[n].attempt.command, id)
  {
    hide Invariant, Blank, Touches, Justified;
    InvariantHolds(states, steps, n);
    assert Enabled(states[n], steps[n]);
    ChangeIsJustified(states[n], steps[n], id);
  }

  /** Two executed effects never share a request id or an idempotency key. */
  lemma ExecutionsAreDistinct(s: System, c: P.Command, d: P.Command)
    requires Invariant(s) && c in s.sent && d in s.sent && c.effectId != d.effectId
    ensures c.commandId != d.commandId
    ensures c.idempotencyKey != d.idempotencyKey
  {
    SentIsJustified(s, c);
    SentIsJustified(s, d);
    KeysAreDistinct(s.durable, c.effectId, d.effectId) by { hide R.WellFormed, Synced, Backed, AllSendable, Sourced, Recorded, PointSound, LedgerSound, Ordinary; }
    hide Invariant, ExecutedIn, LedgerSound;
  }

  lemma KeysAreDistinct(l: Ledger, a: Text, b: Text)
    requires CacheSound(l) && a in l.effects && b in l.effects && a != b
    ensures l.effects[a].proposal.idempotencyKey != l.effects[b].proposal.idempotencyKey
  {
    hide EntrySound, EffectIdOf, CompensationsSound, OrderingSound, Ordinary;
    assert Filed(l, a) && Filed(l, b);
  }

  /******* Compensation and retries *******/

  /** The service asks for compensation of recorded effects only. */
  lemma CompensationWaitsForTheRecord(s: System, e: P.Event)
    requires Invariant(s) && e.command in s.sent
    ensures P.Disciplined(s.files, e)
  {
    hide Invariant, Reached, Authorized, Enabled;
    var c := e.command;
    SentIsJustified(s, c);
    if c.operation == Compensate && P.Target(c).Some? {
      CompensatedSucceeded(s, c.effectId);
    }
  }

  lemma CompensatedSucceeded(s: System, id: Text)
    requires Invariant(s) && id in s.durable.effects
    ensures var original := s.durable.effects[id].proposal.provision.compensatesEffectId;
            original.Some? ==> original.value in s.files.records
  {
    hide R.WellFormed, Indexed, OrderingSound, Ordinary, SameRecords, Backed, AllSendable, Sourced, PointSound, EntryOf;
    var original := s.durable.effects[id].proposal.provision.compensatesEffectId;
    if original.Some? {
      assert Grown(s.durable, s.ledger, original.value);
      EntryRecord(s.durable, original.value);
      EntryRecord(s.ledger, original.value);
    }
  }

  lemma SpentOneStep(s: System, t: Step, id: Text)
    requires Invariant(s) && Enabled(s, t) && P.Spent(s.files, id)
    ensures P.Spent(Next(s, t).files, id)
    ensures id in s.files.records ==> id in Next(s, t).files.records
    ensures id in s.files.records && id !in s.files.world ==> id !in Next(s, t).files.world
  {
    hide Invariant, P.Next;
    if t.ProviderActs? {
      CompensationWaitsForTheRecord(s, t.attempt);
      P.SpentStep(s.files, t.attempt, id);
      if id in s.files.records { P.PinStep(s.files, t.attempt, id); }
      if id in P.Next(s.files, t.attempt).world && id !in s.files.world {
        P.CreationNeedsOwnCommand(s.files, t.attempt, id);
      }
    } else {
      assert Next(s, t).files == s.files;
    }
  }

  lemma {:induction false} SpentForGood(states: seq<System>, steps: seq<Step>, i: nat, n: nat, id: Text)
    requires Starts(states, steps) && i <= n < |states| && P.Spent(states[i].files, id)
    ensures P.Spent(states[n].files, id)
    ensures id in states[i].files.records ==> id in states[n].files.records
    ensures id in states[i].files.records && id !in states[i].files.world ==> id !in states[n].files.world
  {
    hide Invariant, Blank, Next, Enabled, P.Spent;
    if i < n {
      SpentForGood(states, steps, i, n - 1, id);
      InvariantHolds(states, steps, n - 1);
      SpentOneStep(states[n - 1], steps[n - 1], id);
    }
  }

  predicate CreatedAt(states: seq<System>, i: nat, id: Text)
    requires i + 1 < |states|
  {
    id !in states[i].files.world && id in states[i + 1].files.world
  }

  lemma CreationSpends(s: System, t: Step, id: Text)
    requires Invariant(s) && Enabled(s, t) && id !in s.files.world && id in Next(s, t).files.world
    ensures !P.Spent(s.files, id) && P.Spent(Next(s, t).files, id)
  {
    hide Invariant, P.Next;
    assert t.ProviderActs?;
    P.CreationNeedsOwnCommand(s.files, t.attempt, id);
  }

  /** Over every run, with any number of crashes and retries, each effect's
      world file is created at most once; a compensated effect is never applied
      again. */
  lemma AppliedAtMostOnce(states: seq<System>, steps: seq<Step>, i: nat, j: nat, id: Text)
    requires Starts(states, steps) && i < j < |steps| && CreatedAt(states, i, id)
    ensures !CreatedAt(states, j, id)
  {
    hide Invariant, Blank, Next, Enabled, P.Spent;
    InvariantHolds(states, steps, i);
    InvariantHolds(states, steps, j);
    CreationSpends(states[i], steps[i], id);
    SpentForGood(states, steps, i + 1, j, id);
    if CreatedAt(states, j, id) { CreationSpends(states[j], steps[j], id); }
  }

  /******* What the ledger says about the world *******/

  /** The ledger claims success only for an effect whose record the provider
      holds, and that record is of this effect's own command. */
  lemma SuccessIsRecorded(s: System, id: Text)
    requires Invariant(s) && id in s.ledger.effects && Succeeded(s.ledger.effects[id].state)
    ensures id in s.files.records && s.files.records[id].command == CommandFor(s.ledger.effects[id])
  {
    hide R.WellFormed, LedgerSound, Ordinary, SameRecords, Backed, PointSound, CommandFor, Reached;
    var c := s.files.records[id].command;
    assert c.effectId == id && Sendable(s.durable, c);
    SentIsJustified(s, c);
    SameCommand(s.durable, s.ledger, id);
  }

  /** Whatever was sent is either finished on durable record, or a restart lists
      it again for recovery. */
  lemma NothingIsForgotten(s: System, c: P.Command, order: seq<Text>)
    requires Invariant(s) && c in s.sent && Enabled(s, Restart(order))
    ensures c.effectId in s.durable.effects
    ensures Terminal(s.durable.effects[c.effectId].state) || c.effectId in Recover(Next(s, Restart(order)).ledger)
    ensures forall id :: id in Recover(Next(s, Restart(order)).ledger) <==>
              id in s.durable.effects && !Terminal(s.durable.effects[id].state)
  {
    hide Invariant, LedgerSound, Restarted, Authorized, Reached, EntryOf, Extends;
    SentIsJustified(s, c);
    RestartedEffects(s, order);
    assert Next(s, Restart(order)).ledger == Restarted(s.durable, order);
    hide Next, Enabled, CommandFor;
  }

  lemma RestartedEffects(s: System, order: seq<Text>)
    requires Invariant(s) && forall id :: id in s.durable.effects <==> id in order
    ensures Restarted(s.durable, order).effects == s.durable.effects
  {
    hide R.WellFormed, LedgerSound, Ordinary, Synced, Backed, AllSendable, Sourced, Recorded, PointSound, Restarted, EntryOf, Extends;
    RestartedSound(s.durable, order);
  }

  /******* Executed effects and quota *******/

  /** Executed commands charged under a grant. */
  function ExecutedUnder(s: System, grant: string): set<P.Command>
  {
    set c | c in s.sent && c.commandId in s.authority.effects && grant in s.authority.effects[c.commandId].chain
  }

  lemma {:induction false} NoMoreThanRequests(executed: set<P.Command>, requests: set<string>)
    requires forall c :: c in executed ==> c.commandId in requests
    requires forall c, d :: c in executed && d in executed && c.commandId == d.commandId ==> c == d
    ensures |executed| <= |requests|
    decreases executed
  {
    if executed != {} {
      var c :| c in executed;
      NoMoreThanRequests(executed - {c}, requests - {c.commandId});
    }
  }

  /** Executed effects under any grant are no more than the commitments charged
      to it. */
  lemma ExecutedWithinCommitted(s: System, grant: string)
    requires Invariant(s)
    ensures |ExecutedUnder(s, grant)| <= R.Committed(s.authority, grant)
    ensures R.WithinQuota(s.authority) && grant in s.authority.config.grants ==>
              |ExecutedUnder(s, grant)| <= s.authority.config.grants[grant].quota
  {
    var executed := ExecutedUnder(s, grant);
    forall c | c in executed ensures c.commandId in R.CommittedKeys(s.authority.effects, grant) {
      SentIsJustified(s, c);
      hide Invariant;
    }
    forall c, d | c in executed && d in executed && c.commandId == d.commandId ensures c == d {
      if c.effectId != d.effectId { ExecutionsAreDistinct(s, c, d); }
      SentIsJustified(s, c);
      SentIsJustified(s, d);
      hide Invariant;
    }
    hide Invariant, R.CommittedKeys;
    NoMoreThanRequests(executed, R.CommittedKeys(s.authority.effects, grant));
  }

  ghost predicate FixedGrants(states: seq<System>)
  {
    forall i :: 0 <= i < |states| ==> states[i].authority.config.grants == states[0].authority.config.grants
  }

  lemma AuthorityOnlySteps(s: System, t: Step)
    requires Enabled(s, t)
    ensures t.AuthorityActs? || t.Hear? ==>
              R.Enabled(s.authority, t.event) && Next(s, t).authority == R.Step(s.authority, t.event)
    ensures !t.AuthorityActs? && !t.Hear? ==> Next(s, t).authority == s.authority
  {
    hide Restarted, Submitted, AfterAnswer, Continue, Checkpointed, FollowedUp, Apply, CommandFor, CallFor, ProposalOf,
      R.Step, R.Enabled, P.Next, Observed, Recover;
  }

  lemma {:induction false} AuthorityStaysWithinQuota(states: seq<System>, steps: seq<Step>, n: nat)
    requires IsRun(states, steps) && n < |states| && FixedGrants(states)
    requires R.WellFormed(states[0].authority) && R.Conserved(states[0].authority) && R.WithinQuota(states[0].authority)
    ensures R.WellFormed(states[n].authority) && R.Conserved(states[n].authority) && R.WithinQuota(states[n].authority)
  {
    hide Enabled, Next, R.WellFormed, R.Conserved, R.WithinQuota, R.Enabled, R.Step;
    if n > 0 {
      AuthorityStaysWithinQuota(states, steps, n - 1);
      var s, t := states[n - 1], steps[n - 1];
      AuthorityOnlySteps(s, t);
      if t.AuthorityActs? || t.Hear? {
        assert states[n].authority.config.grants == states[n - 1].authority.config.grants;
        R.ConservationStep(s.authority, t.event);
        R.WithinQuotaStep(s.authority, t.event);
      }
    }
  }

  /** Over every run under fixed grants, crashes and retries included, the effects
      sent to the provider under any grant or ancestor never exceed its quota. */
  lemma ExecutedWithinQuota(states: seq<System>, steps: seq<Step>, n: nat, grant: string)
    requires Starts(states, steps) && n < |states| && FixedGrants(states)
    requires R.Conserved(states[0].authority) && R.WithinQuota(states[0].authority)
    requires grant in states[0].authority.config.grants
    ensures |ExecutedUnder(states[n], grant)| <= states[0].authority.config.grants[grant].quota
  {
    hide Invariant, R.WellFormed, R.Conserved, R.WithinQuota, IsRun, Blank, ExecutedUnder;
    InvariantHolds(states, steps, n);
    AuthorityStaysWithinQuota(states, steps, n);
    ExecutedWithinCommitted(states[n], grant);
  }
}
