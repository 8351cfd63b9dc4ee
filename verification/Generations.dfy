/** Governed change: candidates proposed against the active generation, moved
    through measured stages, and switched in and out by compare-and-set on the
    binding's version. */
module Generations {
  import opened Contracts

  datatype Stage =
    | PROPOSED
    | BUILT
    | EVALUATED
    | SIGNED
    | STAGED
    | ACTIVATED
    | CONFIRMED
    | REJECTED
    | QUARANTINED
    | ROLLED_BACK

  predicate Legal(a: Stage, b: Stage)
  {
    match a
    case PROPOSED => b == BUILT || b == REJECTED
    case BUILT => b == EVALUATED || b == REJECTED || b == QUARANTINED
    case EVALUATED => b == SIGNED || b == REJECTED || b == QUARANTINED
    case SIGNED => b == STAGED || b == QUARANTINED
    case STAGED => b == ACTIVATED || b == QUARANTINED
    case ACTIVATED => b == CONFIRMED || b == QUARANTINED || b == ROLLED_BACK
    case QUARANTINED => b == ROLLED_BACK
    case _ => false
  }

  predicate Measured(s: Stage)
  {
    s == BUILT || s == EVALUATED || s == SIGNED || s == STAGED || s == ACTIVATED
  }

  datatype Plan = Plan(
    sourceDigest: string,
    evaluator: string,
    evaluatorClosure: string,
    target: string,
    rollback: string)

  datatype Observation = Observation(
    artifactDigest: Option<string>,
    evaluatorClosure: Option<string>,
    passed: bool,
    healthReady: bool)

  const NoObservation := Observation(None, None, false, false)

  datatype Candidate = Candidate(
    plan: Plan,
    stage: Stage,
    version: nat,
    expectedVersion: nat,
    bindingVersion: Option<nat>)

  datatype HistoryRow = HistoryRow(version: nat, stage: Stage, actor: string, observation: Observation)

  datatype Binding = Binding(active: string, previous: Option<string>, candidateId: string, version: nat)

  datatype Move = Move(candidateId: string, stage: Stage, actor: string, evidenceRef: string, observation: Observation)

  datatype Fingerprint = OfProposal(candidateId: string, plan: Plan) | OfMove(move: Move) | OfOther(name: string)

  datatype Reply = Reply(candidateId: string, stage: Stage, version: nat)

  datatype CommandRow = CommandRow(fingerprint: Fingerprint, reply: Reply)

  datatype Tables = Tables(
    candidates: map<string, Candidate>,
    history: map<string, seq<HistoryRow>>,
    binding: Option<Binding>,
    commands: map<string, CommandRow>)

  datatype Error =
    | CommandReused
    | BindingsIncomplete
    | RollbackNotActive
    | IdentityReused
    | IllegalTransition
    | EvaluatorMismatch
    | ArtifactMissing
    | ArtifactChanged
    | ConfirmationRequired
    | GenerationChanged
    | OwnershipLost

  predicate IsDigest(d: string)
  {
    |d| == 71 && d[..7] == "sha256:"
  }

  /** `ensure_active_generation`. */
  function Boot(t: Tables, generation: string): Tables
  {
    if t.binding.Some? then t else t.(binding := Some(Binding(generation, None, "system:boot", 1)))
  }

  function Propose(t: Tables, commandId: string, id: string, p: Plan): (Tables, Result<Reply, Error>)
  {
    if p.evaluator == "" || !IsDigest(p.sourceDigest) || p.target == p.rollback then (t, Err(BindingsIncomplete))
    else if commandId in t.commands then
      (t, if t.commands[commandId].fingerprint == OfProposal(id, p) then Ok(t.commands[commandId].reply) else Err(CommandReused))
    else if t.binding.None? || t.binding.value.active != p.rollback then (t, Err(RollbackNotActive))
    else if id in t.candidates then (t, Err(IdentityReused))
    else
      var reply := Reply(id, PROPOSED, 1);
      (t.(candidates := t.candidates[id := Candidate(p, PROPOSED, 1, t.binding.value.version, None)],
          history := t.history[id := HistoryOf(t, id) + [HistoryRow(1, PROPOSED, p.evaluator, NoObservation)]],
          commands := t.commands[commandId := CommandRow(OfProposal(id, p), reply)]),
       Ok(reply))
  }

  function HistoryOf(t: Tables, id: string): seq<HistoryRow>
  {
    if id in t.history then t.history[id] else []
  }

  /** The observation recorded when the candidate entered a stage. */
  function ObservedAt(rows: seq<HistoryRow>, stage: Stage): Option<Observation>
  {
    if rows == [] then None
    else if rows[0].stage == stage then Some(rows[0].observation)
    else ObservedAt(rows[1..], stage)
  }

  /** The guards of `transition_governed_change`, in order. */
  function Guarded(t: Tables, m: Move): Option<Error>
  {
    if m.candidateId !in t.candidates || !Legal(t.candidates[m.candidateId].stage, m.stage) then Some(IllegalTransition)
    else
      var c, o := t.candidates[m.candidateId], m.observation;
      if m.stage == EVALUATED
         && (m.actor != c.plan.evaluator || o.evaluatorClosure != Some(c.plan.evaluatorClosure)
             || o.artifactDigest != Some(c.plan.sourceDigest) || !o.passed)
      then Some(EvaluatorMismatch)
      else if Measured(m.stage) && (o.artifactDigest.None? || !IsDigest(o.artifactDigest.value)) then Some(ArtifactMissing)
      else if Measured(m.stage) && m.stage != BUILT
              && (var prior := ObservedAt(HistoryOf(t, m.candidateId), c.stage);
                  prior.None? || prior.value.artifactDigest != o.artifactDigest)
      then Some(ArtifactChanged)
      else if m.stage == CONFIRMED && (m.actor == c.plan.evaluator || !o.healthReady) then Some(ConfirmationRequired)
      else None
  }

  /** The compare-and-set on the single binding row. */
  function Switched(t: Tables, m: Move): Result<Option<Binding>, Error>
    requires m.candidateId in t.candidates
  {
    var c := t.candidates[m.candidateId];
    if m.stage == ACTIVATED then
      if t.binding.Some? && t.binding.value.active == c.plan.rollback && t.binding.value.version == c.expectedVersion
      then Ok(Some(Binding(c.plan.target, Some(t.binding.value.active), m.candidateId, t.binding.value.version + 1)))
      else Err(GenerationChanged)
    else if m.stage == ROLLED_BACK then
      if t.binding.Some? && t.binding.value.active == c.plan.target && t.binding.value.candidateId == m.candidateId
         && Some(t.binding.value.version) == c.bindingVersion
      then Ok(Some(Binding(c.plan.rollback, Some(t.binding.value.active), m.candidateId, t.binding.value.version + 1)))
      else Err(OwnershipLost)
    else Ok(t.binding)
  }

  function Transition(t: Tables, commandId: string, m: Move): (Tables, Result<Reply, Error>)
  {
    if commandId in t.commands then
      (t, if t.commands[commandId].fingerprint == OfMove(m) then Ok(t.commands[commandId].reply) else Err(CommandReused))
    else if Guarded(t, m).Some? then (t, Err(Guarded(t, m).value))
    else
      var switched := Switched(t, m);
      if switched.Err? then (t, Err(switched.error))
      else
        var c := t.candidates[m.candidateId];
        var moves := m.stage == ACTIVATED || m.stage == ROLLED_BACK;
        var c' := c.(stage := m.stage, version := c.version + 1,
                     bindingVersion := if moves && switched.value.Some? then Some(switched.value.value.version) else c.bindingVersion);
        var reply := Reply(m.candidateId, m.stage, c.version + 1);
        (Tables(t.candidates[m.candidateId := c'],
                t.history[m.candidateId := HistoryOf(t, m.candidateId) + [HistoryRow(c.version + 1, m.stage, m.actor, m.observation)]],
                switched.value,
                t.commands[commandId := CommandRow(OfMove(m), reply)]),
         Ok(reply))
  }

  /******* The controller *******/

  class GenerationController {
    var candidates: map<string, Candidate>
    var history: map<string, seq<HistoryRow>>
    var binding: Option<Binding>
    var commands: map<string, CommandRow>

    function Rows(): Tables
      reads this
    {
      Tables(candidates, history, binding, commands)
    }

    constructor (t: Tables)
      ensures Rows() == t
    {
      candidates, history, binding, commands := t.candidates, t.history, t.binding, t.commands;
    }

    method EnsureActiveGeneration(generation: string)
      modifies this`binding
      ensures Rows() == Boot(old(Rows()), generation)
    {
      if binding.None? { binding := Some(Binding(generation, None, "system:boot", 1)); }
    }

    method ProposeGovernedChange(commandId: string, id: string, p: Plan) returns (r: Result<Reply, Error>)
      modifies this
      ensures (Rows(), r) == Propose(old(Rows()), commandId, id, p)
    {
      if p.evaluator == "" || !IsDigest(p.sourceDigest) || p.target == p.rollback { return Err(BindingsIncomplete); }
      if commandId in commands {
        return if commands[commandId].fingerprint == OfProposal(id, p) then Ok(commands[commandId].reply) else Err(CommandReused);
      }
      if binding.None? || binding.value.active != p.rollback { return Err(RollbackNotActive); }
      if id in candidates { return Err(IdentityReused); }
      history := history[id := HistoryOf(Rows(), id) + [HistoryRow(1, PROPOSED, p.evaluator, NoObservation)]];
      candidates := candidates[id := Candidate(p, PROPOSED, 1, binding.value.version, None)];
      r := Ok(Reply(id, PROPOSED, 1));
      commands := commands[commandId := CommandRow(OfProposal(id, p), r.value)];
    }

    method TransitionGovernedChange(commandId: string, m: Move) returns (r: Result<Reply, Error>)
      modifies this
      ensures (Rows(), r) == Transition(old(Rows()), commandId, m)
    {
      hide IsDigest, ObservedAt, Guarded;
      if commandId in commands {
        return if commands[commandId].fingerprint == OfMove(m) then Ok(commands[commandId].reply) else Err(CommandReused);
      }
      var refused := Guarded(Rows(), m);
      if refused.Some? { return Err(refused.value); }
      GuardedKnows(Rows(), m);
      var c := candidates[m.candidateId];
      var bindingVersion := c.bindingVersion;
      if m.stage == ACTIVATED {
        if binding.None? || binding.value.active != c.plan.rollback || binding.value.version != c.expectedVersion {
          return Err(GenerationChanged);
        }
        binding := Some(Binding(c.plan.target, Some(binding.value.active), m.candidateId, binding.value.version + 1));
        bindingVersion := Some(binding.value.version);
      }
      if m.stage == ROLLED_BACK {
        if binding.None? || binding.value.active != c.plan.target || binding.value.candidateId != m.candidateId
           || Some(binding.value.version) != c.bindingVersion
        {
          return Err(OwnershipLost);
        }
        binding := Some(Binding(c.plan.rollback, Some(binding.value.active), m.candidateId, binding.value.version + 1));
        bindingVersion := Some(binding.value.version);
      }
      history := history[m.candidateId := HistoryOf(Rows(), m.candidateId)
                                          + [HistoryRow(c.version + 1, m.stage, m.actor, m.observation)]];
      candidates := candidates[m.candidateId := c.(stage := m.stage, version := c.version + 1, bindingVersion := bindingVersion)];
      r := Ok(Reply(m.candidateId, m.stage, c.version + 1));
      commands := commands[commandId := CommandRow(OfMove(m), r.value)];
    }
  }

  lemma GuardedKnows(t: Tables, m: Move)
    requires Guarded(t, m).None?
    ensures m.candidateId in t.candidates && Legal(t.candidates[m.candidateId].stage, m.stage)
  {
  }

  /******* Runs *******/

  datatype Event =
    | Start(generation: string)
    | Proposes(commandId: string, candidateId: string, plan: Plan)
    | Moves(commandId: string, move: Move)
    | OtherCommand(commandId: string, name: string, reply: Reply)

  function Next(t: Tables, e: Event): Tables
  {
    match e
    case Start(generation) => Boot(t, generation)
    case Proposes(command, id, p) => Propose(t, command, id, p).0
    case Moves(command, m) => Transition(t, command, m).0
    case OtherCommand(command, name, reply) =>
      if command in t.commands then t else t.(commands := t.commands[command := CommandRow(OfOther(name), reply)])
  }

  ghost predicate IsRun(states: seq<Tables>, events: seq<Event>)
  {
    && |states| == |events| + 1
    && states[0] == Tables(map[], map[], None, map[])
    && forall i :: 0 <= i < |events| ==> states[i + 1] == Next(states[i], events[i])
  }

  function Version(t: Tables): nat
  {
    if t.binding.Some? then t.binding.value.version else 0
  }

  /** The step that switches the binding to the candidate's target. */
  predicate Activates(t: Tables, e: Event, id: string)
  {
    e.Moves? && e.move.candidateId == id && e.move.stage == ACTIVATED && Next(t, e) != t
  }

  predicate RollsBack(t: Tables, e: Event, id: string)
  {
    e.Moves? && e.move.candidateId == id && e.move.stage == ROLLED_BACK && Next(t, e) != t
  }

  /** What one step does to the binding. */
  lemma BindingStep(t: Tables, e: Event)
    ensures Version(t) <= Version(Next(t, e))
    ensures Version(t) == Version(Next(t, e)) ==> Next(t, e).binding == t.binding
    ensures Next(t, e).binding != t.binding ==>
              e.Start? || (e.Moves? && (Activates(t, e, e.move.candidateId) || RollsBack(t, e, e.move.candidateId)))
    ensures t.binding.Some? ==> Next(t, e).binding.Some?
  {
    hide IsDigest, Guarded;
  }

  lemma {:induction false} VersionsRise(states: seq<Tables>, events: seq<Event>, i: nat, n: nat)
    requires IsRun(states, events) && i <= n < |states|
    ensures Version(states[i]) <= Version(states[n])
    ensures Version(states[i]) == Version(states[n]) ==> states[n].binding == states[i].binding
  {
    if i < n {
      VersionsRise(states, events, i, n - 1);
      hide Next;
      BindingStep(states[n - 1], events[n - 1]);
    }
  }

  lemma ActivationStep(t: Tables, e: Event, id: string)
    requires Activates(t, e, id)
    ensures id in t.candidates && t.binding.Some? && t.candidates[id].expectedVersion == Version(t)
    ensures Next(t, e).binding ==
            Some(Binding(t.candidates[id].plan.target, Some(t.binding.value.active), id, Version(t) + 1))
    ensures t.binding.value.active == t.candidates[id].plan.rollback
    ensures id in Next(t, e).candidates && Next(t, e).candidates[id].bindingVersion == Some(Version(t) + 1)
  {
    hide IsDigest, Guarded;
    GuardedKnows(t, e.move);
  }

  /** Of all candidates proposed against one version of the binding, at most one
      is ever activated, and it only once. */
  lemma AtMostOneActivation(states: seq<Tables>, events: seq<Event>, i: nat, j: nat, a: string, b: string)
    requires IsRun(states, events) && i < j < |events|
    requires Activates(states[i], events[i], a) && Activates(states[j], events[j], b)
    ensures a in states[i].candidates && b in states[j].candidates
    ensures states[i].candidates[a].expectedVersion < states[j].candidates[b].expectedVersion
  {
    hide Activates, Next;
    ActivationStep(states[i], events[i], a);
    ActivationStep(states[j], events[j], b);
    VersionsRise(states, events, i + 1, j);
  }

  /******* Rollback *******/

  ghost predicate PlanKept(t: Tables, t': Tables, id: string)
    requires id in t.candidates
  {
    && id in t'.candidates
    && t'.candidates[id].plan == t.candidates[id].plan
    && t'.candidates[id].expectedVersion == t.candidates[id].expectedVersion
  }

  lemma CandidateStep(t: Tables, e: Event, id: string)
    requires id in t.candidates
    ensures PlanKept(t, Next(t, e), id)
    ensures Next(t, e).candidates[id].bindingVersion != t.candidates[id].bindingVersion ==>
              (Activates(t, e, id) || RollsBack(t, e, id))
              && Next(t, e).candidates[id].bindingVersion == Some(Version(Next(t, e)))
  {
    hide IsDigest, Guarded;
  }

  lemma NewCandidate(t: Tables, e: Event, id: string)
    requires id !in t.candidates && id in Next(t, e).candidates
    ensures var c := Next(t, e).candidates[id];
            && c.bindingVersion.None? && c.plan.target != c.plan.rollback
            && t.binding.Some? && c.expectedVersion == Version(t) && c.plan.rollback == t.binding.value.active
            && Next(t, e).binding == t.binding
  {
    hide IsDigest, Guarded;
    match e
    case Moves(commandId, m) => MovesAddNone(t, commandId, m, id);
    case _ =>
  }

  lemma MovesAddNone(t: Tables, commandId: string, m: Move, id: string)
    ensures id in Transition(t, commandId, m).0.candidates <==> id in t.candidates
  {
    hide Guarded, IsDigest;
    if Guarded(t, m).None? { GuardedKnows(t, m); }
  }

  /** A candidate's target differs from its rollback, and while the binding is
      still at the version it was proposed against, its rollback is active. */
  ghost predicate PlanSound(t: Tables, id: string)
    requires id in t.candidates
  {
    var c := t.candidates[id];
    && c.plan.target != c.plan.rollback
    && c.expectedVersion <= Version(t)
    && (c.expectedVersion == Version(t) ==> t.binding.Some? && t.binding.value.active == c.plan.rollback)
  }

  lemma {:induction false} PlansStaySound(states: seq<Tables>, events: seq<Event>, n: nat, id: string)
    requires IsRun(states, events) && n < |states| && id in states[n].candidates
    ensures PlanSound(states[n], id)
  {
    if n > 0 {
      hide Next, Activates, RollsBack;
      BindingStep(states[n - 1], events[n - 1]);
      if id in states[n - 1].candidates {
        PlansStaySound(states, events, n - 1, id);
        CandidateStep(states[n - 1], events[n - 1], id);
      } else {
        NewCandidate(states[n - 1], events[n - 1], id);
      }
    }
  }

  /** The step at which a candidate last switched the binding. */
  lemma {:induction false} LastSwitch(states: seq<Tables>, events: seq<Event>, n: nat, id: string) returns (i: nat)
    requires IsRun(states, events) && n < |states| && id in states[n].candidates
    requires states[n].candidates[id].bindingVersion.Some?
    ensures i < n && (Activates(states[i], events[i], id) || RollsBack(states[i], events[i], id))
    ensures states[n].candidates[id].bindingVersion == Some(Version(states[i + 1]))
    ensures id in states[i].candidates && states[i].candidates[id].plan == states[n].candidates[id].plan
  {
    hide Next, Activates, RollsBack;
    if id !in states[n - 1].candidates { NewCandidate(states[n - 1], events[n - 1], id); }
    CandidateStep(states[n - 1], events[n - 1], id);
    if states[n].candidates[id].bindingVersion != states[n - 1].candidates[id].bindingVersion {
      i := n - 1;
    } else {
      i := LastSwitch(states, events, n - 1, id);
    }
  }

  lemma RollbackStep(t: Tables, e: Event, id: string)
    requires RollsBack(t, e, id)
    ensures id in t.candidates && t.binding.Some? && t.candidates[id].bindingVersion == Some(Version(t))
    ensures t.binding.value.active == t.candidates[id].plan.target
    ensures Next(t, e).binding ==
            Some(Binding(t.candidates[id].plan.rollback, Some(t.binding.value.active), id, Version(t) + 1))
  {
    hide IsDigest, Guarded;
    GuardedKnows(t, e.move);
  }

  /** A rollback only ever undoes the newest change of the binding, which was the
      candidate's own activation, and restores exactly the generation that was
      active right before it. */
  lemma RollbackRestores(states: seq<Tables>, events: seq<Event>, j: nat, id: string) returns (i: nat)
    requires IsRun(states, events) && j < |events| && RollsBack(states[j], events[j], id)
    ensures i < j && Activates(states[i], events[i], id)
    ensures forall k :: i < k <= j ==> states[k].binding == states[i + 1].binding
    ensures states[i].binding.Some? && states[j + 1].binding.Some?
    ensures states[j + 1].binding.value.active == states[i].binding.value.active
    ensures Version(states[j + 1]) == Version(states[i]) + 2
  {
    hide Next, Activates, RollsBack;
    RollbackStep(states[j], events[j], id);
    i := LastSwitch(states, events, j, id);
    forall k | i < k <= j ensures states[k].binding == states[i + 1].binding {
      VersionsRise(states, events, i + 1, k);
      VersionsRise(states, events, k, j);
    }
    PlansStaySound(states, events, j, id);
    if RollsBack(states[i], events[i], id) { RollbackStep(states[i], events[i], id); }
    else { ActivationStep(states[i], events[i], id); }
  }

  /** A staged candidate can be activated exactly when nobody has changed the
      binding since it was proposed. */
  lemma ActivationIsExact(states: seq<Tables>, events: seq<Event>, n: nat, commandId: string, m: Move)
    requires IsRun(states, events) && n < |states| && m.stage == ACTIVATED
    requires Guarded(states[n], m).None? && commandId !in states[n].commands
    ensures m.candidateId in states[n].candidates
    ensures Transition(states[n], commandId, m).1.Ok? <==>
              states[n].candidates[m.candidateId].expectedVersion == Version(states[n])
  {
    GuardedKnows(states[n], m);
    hide Next, Guarded, IsRun;
    PlansStaySound(states, events, n, m.candidateId);
  }

  /******* Measured artifacts *******/

  function Rank(s: Stage): nat
  {
    match s
    case PROPOSED => 0
    case BUILT => 1
    case EVALUATED => 2
    case SIGNED => 3
    case STAGED => 4
    case ACTIVATED => 5
    case CONFIRMED => 6
    case REJECTED => 6
    case QUARANTINED => 6
    case ROLLED_BACK => 7
  }

  predicate Succeeds(a: HistoryRow, b: HistoryRow)
  {
    b.version == a.version + 1 && Legal(a.stage, b.stage)
  }

  predicate MeasuredRow(row: HistoryRow, digest: Option<string>, p: Plan)
  {
    && (Measured(row.stage) ==> row.observation.artifactDigest == digest)
    && (Measured(row.stage) && row.stage != BUILT ==> digest == Some(p.sourceDigest))
    && (row.stage == EVALUATED ==>
          row.actor == p.evaluator && row.observation.passed && row.observation.evaluatorClosure == Some(p.evaluatorClosure))
    && (row.stage == CONFIRMED ==> row.actor != p.evaluator && row.observation.healthReady)
  }

  ghost predicate AllMeasured(h: seq<HistoryRow>, digest: Option<string>, p: Plan)
  {
    forall k :: 0 <= k < |h| ==> MeasuredRow(h[k], digest, p)
  }

  /** Numbered from 1 along a legal path, and every measured stage saw one and
      the same artifact, which from evaluation on is the proposed source. */
  ghost predicate PathSound(h: seq<HistoryRow>, p: Plan)
  {
    && h != [] && h[0].version == 1 && h[0].stage == PROPOSED
    && (forall k :: 0 < k < |h| ==> Succeeds(h[k - 1], h[k]))
    && exists digest :: AllMeasured(h, digest, p)
  }

  ghost predicate CandidateSound(t: Tables, id: string)
    requires id in t.candidates
  {
    && id in t.history
    && PathSound(t.history[id], t.candidates[id].plan)
    && t.history[id][|t.history[id]| - 1].stage == t.candidates[id].stage
    && t.history[id][|t.history[id]| - 1].version == t.candidates[id].version
  }

  lemma {:induction false} RanksRise(h: seq<HistoryRow>, i: nat, j: nat)
    requires i < j < |h| && forall k :: 0 < k < |h| ==> Succeeds(h[k - 1], h[k])
    ensures Rank(h[i].stage) < Rank(h[j].stage)
  {
    assert Succeeds(h[j - 1], h[j]);
    if i < j - 1 { RanksRise(h, i, j - 1); }
  }

  /** A stage is entered at most once, so the row found for it is that row. */
  lemma {:induction false} ObservedThere(h: seq<HistoryRow>, i: nat)
    requires i < |h| && forall k :: 0 <= k < i ==> h[k].stage != h[i].stage
    ensures ObservedAt(h, h[i].stage) == Some(h[i].observation)
  {
    if i > 0 { ObservedThere(h[1..], i - 1); }
  }

  lemma PathGrows(h: seq<HistoryRow>, p: Plan, row: HistoryRow)
    requires PathSound(h, p) && Succeeds(h[|h| - 1], row)
    requires Measured(row.stage) && row.stage != BUILT ==>
               ObservedAt(h, h[|h| - 1].stage).Some?
               && ObservedAt(h, h[|h| - 1].stage).value.artifactDigest == row.observation.artifactDigest
    requires row.stage == EVALUATED ==>
               row.actor == p.evaluator && row.observation.passed && row.observation.evaluatorClosure == Some(p.evaluatorClosure)
               && row.observation.artifactDigest == Some(p.sourceDigest)
    requires row.stage == CONFIRMED ==> row.actor != p.evaluator && row.observation.healthReady
    ensures PathSound(h + [row], p)
  {
    var last := |h| - 1;
    forall k | 0 <= k < last ensures h[k].stage != h[last].stage { RanksRise(h, k, last); }
    if last > 0 { RanksRise(h, 0, last); }
    ObservedThere(h, last);
    var digest :| AllMeasured(h, digest, p);
    var digest' := if row.stage == BUILT then row.observation.artifactDigest else digest;
    assert MeasuredRow(h[last], digest, p);
    assert row.stage == BUILT ==> last == 0;
    assert AllMeasured(h, digest', p) && MeasuredRow(row, digest', p);
    hide MeasuredRow, Legal, ObservedAt;
    assert AllMeasured(h + [row], digest', p);
  }

  lemma MoveKeepsPath(t: Tables, commandId: string, m: Move)
    requires m.candidateId in t.candidates && CandidateSound(t, m.candidateId) && Transition(t, commandId, m).0 != t
    ensures CandidateSound(Transition(t, commandId, m).0, m.candidateId)
  {
    hide IsDigest, Switched, PathSound;
    var c := t.candidates[m.candidateId];
    PathGrows(t.history[m.candidateId], c.plan, HistoryRow(c.version + 1, m.stage, m.actor, m.observation));
  }

  lemma ProposalStartsPath(p: Plan, actor: string)
    ensures PathSound([HistoryRow(1, PROPOSED, actor, NoObservation)], p)
  {
    var h := [HistoryRow(1, PROPOSED, actor, NoObservation)];
    assert AllMeasured(h, None, p);
  }

  ghost predicate AllSound(t: Tables)
  {
    && t.history.Keys == t.candidates.Keys
    && forall id :: id in t.candidates ==> CandidateSound(t, id)
  }

  lemma ProposeKeeps(t: Tables, commandId: string, id: string, p: Plan)
    requires AllSound(t)
    ensures AllSound(Propose(t, commandId, id, p).0)
  {
    hide PathSound, IsDigest;
    var t' := Propose(t, commandId, id, p).0;
    ProposalStartsPath(p, p.evaluator);
    forall other | other in t'.candidates ensures CandidateSound(t', other) {
      if other in t.candidates { assert CandidateSound(t, other); }
      else { assert t'.history[id] == [HistoryRow(1, PROPOSED, p.evaluator, NoObservation)]; }
    }
  }

  lemma TransitionKeeps(t: Tables, commandId: string, m: Move)
    requires AllSound(t)
    ensures AllSound(Transition(t, commandId, m).0)
  {
    hide PathSound, IsDigest, Guarded, Switched;
    var t' := Transition(t, commandId, m).0;
    if t' != t {
      GuardedKnows(t, m);
      assert CandidateSound(t, m.candidateId);
      MoveKeepsPath(t, commandId, m);
      forall other | other in t'.candidates ensures CandidateSound(t', other) {
        if other != m.candidateId { assert CandidateSound(t, other); }
      }
    }
  }

  lemma OthersKeep(t: Tables, t': Tables)
    requires AllSound(t) && t'.candidates == t.candidates && t'.history == t.history
    ensures AllSound(t')
  {
    hide PathSound;
    forall id | id in t'.candidates ensures CandidateSound(t', id) { assert CandidateSound(t, id); }
  }

  lemma {:induction false} CandidatesStaySound(states: seq<Tables>, events: seq<Event>, n: nat)
    requires IsRun(states, events) && n < |states|
    ensures AllSound(states[n])
  {
    if n > 0 {
      CandidatesStaySound(states, events, n - 1);
      hide AllSound, Propose, Transition;
      match events[n - 1]
      case Proposes(commandId, id, p) => ProposeKeeps(states[n - 1], commandId, id, p);
      case Moves(commandId, m) => TransitionKeeps(states[n - 1], commandId, m);
      case _ => OthersKeep(states[n - 1], states[n]);
    }
  }

  /** From BUILT to ACTIVATED every measurement of a candidate is of one artifact,
      and from EVALUATED on that artifact is the proposed source; the evaluation
      was the protected evaluator's own, and confirmation somebody else's. */
  lemma ArtifactIsConstant(states: seq<Tables>, events: seq<Event>, n: nat, id: string)
    requires IsRun(states, events) && n < |states| && id in states[n].candidates
    ensures id in states[n].history
    ensures var h, p := states[n].history[id], states[n].candidates[id].plan;
            && (forall j, k :: 0 <= j < |h| && 0 <= k < |h| && Measured(h[j].stage) && Measured(h[k].stage) ==>
                  h[j].observation.artifactDigest == h[k].observation.artifactDigest)
            && (forall k :: 0 <= k < |h| && Measured(h[k].stage) && h[k].stage != BUILT ==>
                  h[k].observation.artifactDigest == Some(p.sourceDigest))
            && (forall k :: 0 <= k < |h| && h[k].stage == EVALUATED ==> h[k].actor == p.evaluator && h[k].observation.passed)
            && (forall k :: 0 <= k < |h| && h[k].stage == CONFIRMED ==> h[k].actor != p.evaluator)
            && (states[n].candidates[id].stage in {ACTIVATED, CONFIRMED} ==>
                  exists k :: 0 <= k < |h| && h[k].stage == EVALUATED)
  {
    CandidatesStaySound(states, events, n);
    assert CandidateSound(states[n], id);
    hide IsRun, Next;
    var h, p := states[n].history[id], states[n].candidates[id].plan;
    var digest :| AllMeasured(h, digest, p);
    if h[|h| - 1].stage in {ACTIVATED, CONFIRMED} { EvaluatedBefore(h, |h| - 1); }
  }

  /** Nothing is activated without having been evaluated. */
  lemma {:induction false} EvaluatedBefore(h: seq<HistoryRow>, i: nat)
    requires i < |h| && h[0].stage == PROPOSED && forall k :: 0 < k < |h| ==> Succeeds(h[k - 1], h[k])
    requires h[i].stage in {EVALUATED, SIGNED, STAGED, ACTIVATED, CONFIRMED}
    ensures exists k :: 0 <= k < |h| && h[k].stage == EVALUATED
  {
    if h[i].stage != EVALUATED {
      assert Succeeds(h[i - 1], h[i]);
      EvaluatedBefore(h, i - 1);
    }
  }

  /******* Exactly which changes are accepted, and what they leave *******/

  /** Every move between stages there is. */
  predicate Listed(a: Stage, b: Stage)
  {
    (a, b) in {
      (PROPOSED, BUILT), (PROPOSED, REJECTED),
      (BUILT, EVALUATED), (BUILT, REJECTED), (BUILT, QUARANTINED),
      (EVALUATED, SIGNED), (EVALUATED, REJECTED), (EVALUATED, QUARANTINED),
      (SIGNED, STAGED), (SIGNED, QUARANTINED),
      (STAGED, ACTIVATED), (STAGED, QUARANTINED),
      (ACTIVATED, CONFIRMED), (ACTIVATED, QUARANTINED), (ACTIVATED, ROLLED_BACK),
      (QUARANTINED, ROLLED_BACK)}
  }

  predicate Digest(d: Option<string>)
  {
    d.Some? && |d.value| == 71 && d.value[..7] == "sha256:"
  }

  /** The evidence a stage asks for: an artifact from BUILT to ACTIVATED, the same as
      at the stage before; at EVALUATED the evaluator's own pass over the proposed
      source; at CONFIRMED somebody else's report of health. */
  predicate Evidenced(t: Tables, m: Move)
    requires m.candidateId in t.candidates && HistoryOf(t, m.candidateId) != []
  {
    var p, o, rows := t.candidates[m.candidateId].plan, m.observation, HistoryOf(t, m.candidateId);
    && (m.stage in {BUILT, EVALUATED, SIGNED, STAGED, ACTIVATED} ==> Digest(o.artifactDigest))
    && (m.stage in {EVALUATED, SIGNED, STAGED, ACTIVATED} ==>
          rows[|rows| - 1].observation.artifactDigest == o.artifactDigest)
    && (m.stage == EVALUATED ==>
          && m.actor == p.evaluator && o.passed
          && o.evaluatorClosure == Some(p.evaluatorClosure) && o.artifactDigest == Some(p.sourceDigest))
    && (m.stage == CONFIRMED ==> m.actor != p.evaluator && o.healthReady)
  }

  /** Activation needs the generation the candidate was proposed against, unchanged
      since; rollback needs the candidate's own switch to be the newest. */
  predicate Switchable(t: Tables, m: Move)
    requires m.candidateId in t.candidates
  {
    var c := t.candidates[m.candidateId];
    && (m.stage == ACTIVATED ==>
          t.binding.Some? && t.binding.value.active == c.plan.rollback && t.binding.value.version == c.expectedVersion)
    && (m.stage == ROLLED_BACK ==>
          && t.binding.Some? && t.binding.value.active == c.plan.target && t.binding.value.candidateId == m.candidateId
          && c.bindingVersion == Some(t.binding.value.version))
  }

  /** A candidate is proposed exactly against the active generation, under a new
      identity, with an evaluator and a source digest, for another target. */
  lemma ProposeExactly(t: Tables, commandId: string, id: string, p: Plan)
    requires commandId !in t.commands
    ensures var (t', r) := Propose(t, commandId, id, p);
            && (r.Ok? <==>
                  && |p.evaluator| > 0 && Digest(Some(p.sourceDigest)) && p.target != p.rollback
                  && t.binding.Some? && t.binding.value.active == p.rollback && id !in t.candidates)
            && (r.Err? ==> t' == t)
            && (r.Ok? ==>
                  && r.value == Reply(id, PROPOSED, 1)
                  && t'.candidates == t.candidates[id := Candidate(p, PROPOSED, 1, t.binding.value.version, None)]
                  && t'.binding == t.binding
                  && (forall other :: other in t.history && other != id ==> HistoryOf(t', other) == HistoryOf(t, other)))
  {
  }

  /** A candidate is moved exactly along a listed move with its evidence, and, where
      the binding is switched, with the binding as it has to be; its row and its
      history go one version on, and the binding to its target or back. */
  lemma TransitionExactly(t: Tables, commandId: string, m: Move)
    requires AllSound(t) && commandId !in t.commands
    ensures m.candidateId in t.candidates ==> HistoryOf(t, m.candidateId) != []
    ensures var (t', r) := Transition(t, commandId, m);
            var id := m.candidateId;
            && (r.Ok? <==> id in t.candidates && Listed(t.candidates[id].stage, m.stage) && Evidenced(t, m) && Switchable(t, m))
            && (r.Err? ==> t' == t)
            && (r.Ok? ==>
                  var c := t.candidates[id];
                  && r.value == Reply(id, m.stage, c.version + 1)
                  && t'.candidates == t.candidates[id := t'.candidates[id]]
                  && t'.candidates[id].plan == c.plan && t'.candidates[id].expectedVersion == c.expectedVersion
                  && t'.candidates[id].stage == m.stage && t'.candidates[id].version == c.version + 1
                  && t'.history == t.history[id := t.history[id] + [HistoryRow(c.version + 1, m.stage, m.actor, m.observation)]]
                  && (if m.stage == ACTIVATED || m.stage == ROLLED_BACK then
                        && t'.binding == Some(Binding(if m.stage == ACTIVATED then c.plan.target else c.plan.rollback,
                                                      Some(t.binding.value.active), id, t.binding.value.version + 1))
                        && t'.candidates[id].bindingVersion == Some(t.binding.value.version + 1)
                      else t'.binding == t.binding && t'.candidates[id].bindingVersion == c.bindingVersion))
  {
    if m.candidateId in t.candidates {
      assert CandidateSound(t, m.candidateId);
      NewestObserved(t, m.candidateId);
      GuardedExactly(t, m);
    }
    hide Evidenced, Listed, CandidateSound, Legal;
    TransitionByGuards(t, commandId, m);
    hide Guarded, Switchable, Transition;
  }

  /** What a transition comes to, its guards and its switch given. */
  lemma TransitionByGuards(t: Tables, commandId: string, m: Move)
    requires commandId !in t.commands
    ensures m.candidateId !in t.candidates ==> Guarded(t, m).Some?
    ensures var (t', r) := Transition(t, commandId, m);
            var id := m.candidateId;
            && (r.Ok? <==> Guarded(t, m).None? && id in t.candidates && Switchable(t, m))
            && (r.Err? ==> t' == t)
            && (r.Ok? ==>
                  var c := t.candidates[id];
                  && r.value == Reply(id, m.stage, c.version + 1)
                  && t'.candidates == t.candidates[id := t'.candidates[id]]
                  && t'.candidates[id].plan == c.plan && t'.candidates[id].expectedVersion == c.expectedVersion
                  && t'.candidates[id].stage == m.stage && t'.candidates[id].version == c.version + 1
                  && t'.history == t.history[id := HistoryOf(t, id) + [HistoryRow(c.version + 1, m.stage, m.actor, m.observation)]]
                  && (if m.stage == ACTIVATED || m.stage == ROLLED_BACK then
                        && t'.binding == Some(Binding(if m.stage == ACTIVATED then c.plan.target else c.plan.rollback,
                                                      Some(t.binding.value.active), id, t.binding.value.version + 1))
                        && t'.candidates[id].bindingVersion == Some(t.binding.value.version + 1)
                      else t'.binding == t.binding && t'.candidates[id].bindingVersion == c.bindingVersion))
  {
    if Guarded(t, m).None? { GuardedKnows(t, m); }
    assert m.candidateId !in t.candidates ==> Guarded(t, m).Some?;
    hide Guarded, HistoryOf;
  }

  lemma NewestObserved(t: Tables, id: string)
    requires id in t.candidates && CandidateSound(t, id)
    ensures HistoryOf(t, id) != []
    ensures var rows := HistoryOf(t, id);
            ObservedAt(rows, t.candidates[id].stage) == Some(rows[|rows| - 1].observation)
  {
    var rows := t.history[id];
    forall k | 0 <= k < |rows| - 1 ensures rows[k].stage != rows[|rows| - 1].stage { RanksRise(rows, k, |rows| - 1); }
    ObservedThere(rows, |rows| - 1);
  }

  lemma GuardedExactly(t: Tables, m: Move)
    requires m.candidateId in t.candidates && HistoryOf(t, m.candidateId) != []
    requires var rows := HistoryOf(t, m.candidateId);
             ObservedAt(rows, t.candidates[m.candidateId].stage) == Some(rows[|rows| - 1].observation)
    ensures Guarded(t, m).None? <==> Listed(t.candidates[m.candidateId].stage, m.stage) && Evidenced(t, m)
  {
    assert Listed(t.candidates[m.candidateId].stage, m.stage) <==> Legal(t.candidates[m.candidateId].stage, m.stage);
    hide ObservedAt, Listed, Legal;
  }

  /******* Replay *******/

  lemma CommandStep(t: Tables, e: Event, commandId: string)
    requires commandId in t.commands
    ensures commandId in Next(t, e).commands && Next(t, e).commands[commandId] == t.commands[commandId]
  {
    hide IsDigest, Guarded, Switched;
  }

  lemma {:induction false} CommandsLast(states: seq<Tables>, events: seq<Event>, i: nat, n: nat, commandId: string)
    requires IsRun(states, events) && i <= n < |states| && commandId in states[i].commands
    ensures commandId in states[n].commands && states[n].commands[commandId] == states[i].commands[commandId]
  {
    if i < n {
      CommandsLast(states, events, i, n - 1, commandId);
      hide Next;
      CommandStep(states[n - 1], events[n - 1], commandId);
    }
  }

  /** A transition sent again at any later time changes nothing and is answered as
      the first time, whatever has become of the candidate; under its command
      identity nothing else is ever done. */
  lemma TransitionReplays(states: seq<Tables>, events: seq<Event>, i: nat, n: nat, other: Move, id: string, p: Plan)
    requires IsRun(states, events) && i < n < |states| && events[i].Moves?
    requires Transition(states[i], events[i].commandId, events[i].move).1.Ok?
    ensures Transition(states[n], events[i].commandId, events[i].move) ==
            (states[n], Transition(states[i], events[i].commandId, events[i].move).1)
    ensures other != events[i].move ==> Transition(states[n], events[i].commandId, other) == (states[n], Err(CommandReused))
    ensures Propose(states[n], events[i].commandId, id, p).0 == states[n] && Propose(states[n], events[i].commandId, id, p).1.Err?
  {
    var k := events[i].commandId;
    assert states[i + 1] == Next(states[i], events[i]);
    assert k in states[i + 1].commands && states[i + 1].commands[k].fingerprint == OfMove(events[i].move);
    CommandsLast(states, events, i + 1, n, k);
    hide Guarded, Switched, IsRun, IsDigest;
  }

  /** And so is a proposal. */
  lemma ProposalReplays(states: seq<Tables>, events: seq<Event>, i: nat, n: nat, m: Move, p: Plan)
    requires IsRun(states, events) && i < n < |states| && events[i].Proposes?
    requires Propose(states[i], events[i].commandId, events[i].candidateId, events[i].plan).1.Ok?
    ensures Propose(states[n], events[i].commandId, events[i].candidateId, events[i].plan) ==
            (states[n], Propose(states[i], events[i].commandId, events[i].candidateId, events[i].plan).1)
    ensures p != events[i].plan ==>
              Propose(states[n], events[i].commandId, events[i].candidateId, p).0 == states[n]
              && Propose(states[n], events[i].commandId, events[i].candidateId, p).1.Err?
    ensures Transition(states[n], events[i].commandId, m) == (states[n], Err(CommandReused))
  {
    var k := events[i].commandId;
    assert states[i + 1] == Next(states[i], events[i]);
    assert k in states[i + 1].commands && states[i + 1].commands[k].fingerprint == OfProposal(events[i].candidateId, events[i].plan);
    CommandsLast(states, events, i + 1, n, k);
    hide Guarded, Switched, IsRun, IsDigest;
  }
}
