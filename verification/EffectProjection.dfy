/** The state service's projection of provider transitions: an append-only log
    per effect, a current row per effect, and a table of commands that makes
    every accepted transition replayable. */
module EffectProjection {
  import opened Contracts

  datatype ProviderState =
    | PROPOSED
    | REJECTED
    | AUTHORIZED
    | DISPATCHED
    | UNCERTAIN
    | OBSERVED_SUCCEEDED
    | OBSERVED_FAILED
    | RESOLVED_SUCCEEDED
    | RESOLVED_FAILED

  datatype ProjectedState = Proposed | Rejected | Committed | Failed

  predicate Legal(previous: Option<ProviderState>, next: ProviderState)
  {
    match previous
    case None => next == PROPOSED || next == REJECTED
    case Some(PROPOSED) => next == ProviderState.AUTHORIZED
    case Some(AUTHORIZED) => next == DISPATCHED
    case Some(DISPATCHED) => next == OBSERVED_SUCCEEDED || next == OBSERVED_FAILED || next == UNCERTAIN
    case Some(UNCERTAIN) => next == RESOLVED_SUCCEEDED || next == RESOLVED_FAILED
    case Some(_) => false
  }

  function Projected(s: ProviderState): ProjectedState
  {
    match s
    case PROPOSED => Proposed
    case AUTHORIZED => Proposed
    case DISPATCHED => Proposed
    case UNCERTAIN => Proposed
    case REJECTED => Rejected
    case OBSERVED_SUCCEEDED => Committed
    case RESOLVED_SUCCEEDED => Committed
    case OBSERVED_FAILED => Failed
    case RESOLVED_FAILED => Failed
  }

  datatype Binding = Binding(effectId: string, objectiveId: string, requestDigest: string)

  datatype Change = Change(
    binding: Binding,
    previous: Option<ProviderState>,
    next: ProviderState,
    evidenceRef: Option<string>,
    externalRef: Option<string>)

  datatype LogRow = LogRow(
    transitionId: string,
    previous: Option<ProviderState>,
    next: ProviderState,
    requestDigest: string,
    evidenceRef: Option<string>,
    sequence: nat)

  datatype EffectRow = EffectRow(
    objectiveId: string,
    requestDigest: string,
    state: ProjectedState,
    externalRef: Option<string>,
    evidenceRef: Option<string>,
    version: nat)

  datatype Outcome = Outcome(effectId: string, state: ProviderState, version: nat, externalRef: Option<string>,
                             evidenceRef: Option<string>)

  /** The digest of an operation and its arguments. */
  datatype Fingerprint = OfChange(change: Change) | OfOther(operation: string)

  datatype CommandRow = CommandRow(fingerprint: Fingerprint, outcome: Option<Outcome>)

  datatype ObjectiveState = ObjectiveProposed | ObjectiveSatisfied | ObjectiveElsewhere

  datatype Db = Db(
    commands: map<string, CommandRow>,
    objectives: map<string, ObjectiveState>,
    effects: map<string, EffectRow>,
    log: map<string, seq<LogRow>>)

  datatype Error =
    | DigestNotCanonical
    | IllegalTransition
    | ExternalIdentityRequired
    | EvidenceRequired
    | CommandReused
    | NoLiveObjective
    | AlreadyExists
    | BindingMismatch
    | HistoryMismatch
    | PredecessorMismatch
    | TransitionReused

  predicate CanonicalDigest(d: string)
  {
    && |d| == 71 && d[..7] == "sha256:"
    && forall i :: 7 <= i < 71 ==> '0' <= d[i] <= '9' || 'a' <= d[i] <= 'f'
  }

  predicate Given(t: Option<string>)
  {
    t.Some? && t.value != ""
  }

  /** What is refused before the database is looked at. */
  function Precheck(c: Change): Option<Error>
  {
    if !CanonicalDigest(c.binding.requestDigest) then Some(DigestNotCanonical)
    else if !Legal(c.previous, c.next) then Some(IllegalTransition)
    else if c.next != PROPOSED && c.next != REJECTED && c.next != ProviderState.AUTHORIZED && !Given(c.externalRef) then
      Some(ExternalIdentityRequired)
    else if Projected(c.next) in {Committed, Failed} && !Given(c.evidenceRef) then Some(EvidenceRequired)
    else None
  }

  function CommandId(transitionId: string): string
  {
    "effect-transition:" + transitionId
  }

  function LogOf(db: Db, id: string): seq<LogRow>
  {
    if id in db.log then db.log[id] else []
  }

  /** `ORDER BY sequence DESC LIMIT 1`. */
  function Newest(rows: seq<LogRow>): LogRow
    requires rows != []
  {
    if |rows| == 1 then rows[0]
    else
      var rest := Newest(rows[..|rows| - 1]);
      if rest.sequence > rows[|rows| - 1].sequence then rest else rows[|rows| - 1]
  }

  predicate Taken(db: Db, transitionId: string)
  {
    exists id, i :: id in db.log && 0 <= i < |db.log[id]| && db.log[id][i].transitionId == transitionId
  }

  function Either(given: Option<string>, kept: Option<string>): Option<string>
  {
    if given.Some? then given else kept
  }

  /** The row the transition leaves, and its version. */
  function NewRow(db: Db, c: Change): Result<EffectRow, Error>
  {
    var id := c.binding.effectId;
    if c.previous.None? then
      if id in db.effects then Err(AlreadyExists)
      else Ok(EffectRow(c.binding.objectiveId, c.binding.requestDigest, Projected(c.next), c.externalRef, c.evidenceRef, 1))
    else if id !in db.effects || db.effects[id].objectiveId != c.binding.objectiveId
            || db.effects[id].requestDigest != c.binding.requestDigest
    then Err(BindingMismatch)
    else if LogOf(db, id) == [] || Newest(LogOf(db, id)).next != c.previous.value then Err(HistoryMismatch)
    else if db.effects[id].state != Projected(c.previous.value) then Err(PredecessorMismatch)
    else
      var row := db.effects[id];
      Ok(row.(state := Projected(c.next), externalRef := Either(c.externalRef, row.externalRef),
              evidenceRef := Either(c.evidenceRef, row.evidenceRef), version := row.version + 1))
  }

  function OutcomeOf(c: Change, version: nat): Outcome
  {
    Outcome(c.binding.effectId, c.next, version, c.externalRef, c.evidenceRef)
  }

  function RowOf(transitionId: string, c: Change, version: nat): LogRow
  {
    LogRow(transitionId, c.previous, c.next, c.binding.requestDigest, c.evidenceRef, version)
  }

  function Recorded(db: Db, transitionId: string, c: Change, row: EffectRow): Db
  {
    var id := c.binding.effectId;
    db.(effects := db.effects[id := row],
        log := db.log[id := LogOf(db, id) + [RowOf(transitionId, c, row.version)]],
        commands := db.commands[CommandId(transitionId) := CommandRow(OfChange(c), Some(OutcomeOf(c, row.version)))])
  }

  predicate LiveObjective(db: Db, id: string)
  {
    id in db.objectives && db.objectives[id] != ObjectiveElsewhere
  }

  /** `observe_effect_transition`, one transaction. */
  function Observe(db: Db, transitionId: string, c: Change): (Db, Result<Outcome, Error>)
  {
    if Precheck(c).Some? then (db, Err(Precheck(c).value))
    else if CommandId(transitionId) in db.commands then
      var row := db.commands[CommandId(transitionId)];
      if row.fingerprint != OfChange(c) || row.outcome.None? then (db, Err(CommandReused)) else (db, Ok(row.outcome.value))
    else if !LiveObjective(db, c.binding.objectiveId) then (db, Err(NoLiveObjective))
    else
      var row := NewRow(db, c);
      if row.Err? then (db, Err(row.error))
      else if Taken(db, transitionId) then (db, Err(TransitionReused))
      else (Recorded(db, transitionId, c, row.value), Ok(OutcomeOf(c, row.value.version)))
  }

  /******* The transaction as the service runs it *******/

  class Projection {
    var commands: map<string, CommandRow>
    var objectives: map<string, ObjectiveState>
    var effects: map<string, EffectRow>
    var log: map<string, seq<LogRow>>

    function Rows(): Db
      reads this
    {
      Db(commands, objectives, effects, log)
    }

    constructor (db: Db)
      ensures Rows() == db
    {
      commands, objectives, effects, log := db.commands, db.objectives, db.effects, db.log;
    }

    method ObserveEffectTransition(transitionId: string, c: Change) returns (r: Result<Outcome, Error>)
      modifies this
      ensures (Rows(), r) == Observe(old(Rows()), transitionId, c)
    {
      hide CanonicalDigest, Newest;
      var refused := Precheck(c);
      if refused.Some? { return Err(refused.value); }
      var commandId := CommandId(transitionId);
      if commandId in commands {
        var row := commands[commandId];
        if row.fingerprint != OfChange(c) || row.outcome.None? { return Err(CommandReused); }
        return Ok(row.outcome.value);
      }
      if !LiveObjective(Rows(), c.binding.objectiveId) { return Err(NoLiveObjective); }
      var id := c.binding.effectId;
      var version := 1;
      if c.previous.None? {
        if id in effects { return Err(AlreadyExists); }
        if Taken(Rows(), transitionId) { return Err(TransitionReused); }
        effects := effects[id := EffectRow(c.binding.objectiveId, c.binding.requestDigest, Projected(c.next),
                                           c.externalRef, c.evidenceRef, 1)];
      } else {
        if id !in effects || effects[id].objectiveId != c.binding.objectiveId
           || effects[id].requestDigest != c.binding.requestDigest
        {
          return Err(BindingMismatch);
        }
        var rows := LogOf(Rows(), id);
        if rows == [] || Newest(rows).next != c.previous.value { return Err(HistoryMismatch); }
        if effects[id].state != Projected(c.previous.value) { return Err(PredecessorMismatch); }
        if Taken(Rows(), transitionId) { return Err(TransitionReused); }
        version := effects[id].version + 1;
        effects := effects[id := effects[id].(state := Projected(c.next),
                                              externalRef := Either(c.externalRef, effects[id].externalRef),
                                              evidenceRef := Either(c.evidenceRef, effects[id].evidenceRef),
                                              version := version)];
      }
      log := log[id := LogOf(Rows(), id) + [RowOf(transitionId, c, version)]];
      commands := commands[commandId := CommandRow(OfChange(c), Some(OutcomeOf(c, version)))];
      r := Ok(OutcomeOf(c, version));
    }
  }

  /******* Runs *******/

  /** Other operations share the command and objective tables. */
  datatype Event =
    | Transition(transitionId: string, change: Change)
    | OtherCommand(commandId: string, operation: string)
    | SetObjective(objectiveId: string, state: ObjectiveState)

  function Step(db: Db, e: Event): Db
  {
    match e
    case Transition(id, c) => Observe(db, id, c).0
    case OtherCommand(id, operation) =>
      if id in db.commands then db else db.(commands := db.commands[id := CommandRow(OfOther(operation), None)])
    case SetObjective(id, state) => db.(objectives := db.objectives[id := state])
  }

  ghost predicate IsRun(states: seq<Db>, events: seq<Event>)
  {
    && |states| == |events| + 1
    && forall i :: 0 <= i < |events| ==> states[i + 1] == Step(states[i], events[i])
  }

  predicate Continues(a: LogRow, b: LogRow)
  {
    b.previous == Some(a.next)
  }

  ghost predicate Numbered(rows: seq<LogRow>)
  {
    forall i :: 0 <= i < |rows| ==> rows[i].sequence == i + 1
  }

  /** The rows of one effect: numbered 1, 2, ..., each starting where the one
      before ended, all under one request digest. */
  ghost predicate LogSound(rows: seq<LogRow>, digest: string)
  {
    && rows != [] && Numbered(rows)
    && (forall i :: 0 <= i < |rows| ==> rows[i].requestDigest == digest && Legal(rows[i].previous, rows[i].next))
    && rows[0].previous.None?
    && (forall i :: 0 < i < |rows| ==> Continues(rows[i - 1], rows[i]))
  }

  ghost predicate EffectSound(db: Db, id: string)
    requires id in db.effects
  {
    && id in db.log
    && LogSound(db.log[id], db.effects[id].requestDigest)
    && |db.log[id]| == db.effects[id].version
    && Projected(db.log[id][|db.log[id]| - 1].next) == db.effects[id].state
  }

  /** An accepted transition is in the log at the number its outcome names. */
  ghost predicate CommandSound(db: Db, commandId: string)
    requires commandId in db.commands
  {
    var row := db.commands[commandId];
    row.fingerprint.OfChange? ==>
      && row.outcome.Some?
      && var c, version := row.fingerprint.change, row.outcome.value.version;
         && row.outcome.value == OutcomeOf(c, version)
         && c.binding.effectId in db.log
         && 1 <= version <= |db.log[c.binding.effectId]|
         && var logged := db.log[c.binding.effectId][version - 1];
            && logged == RowOf(logged.transitionId, c, version)
            && commandId == CommandId(logged.transitionId)
  }

  ghost predicate Agrees(db: Db)
  {
    && db.log.Keys == db.effects.Keys
    && (forall id :: id in db.effects ==> EffectSound(db, id))
    && (forall k :: k in db.commands ==> CommandSound(db, k))
  }

  lemma {:induction false} NewestIsLast(rows: seq<LogRow>)
    requires rows != [] && Numbered(rows)
    ensures Newest(rows) == rows[|rows| - 1]
  {
    if |rows| > 1 { NewestIsLast(rows[..|rows| - 1]); }
  }

  lemma LogGrows(rows: seq<LogRow>, digest: string, row: LogRow)
    requires rows != [] ==> LogSound(rows, digest) && row.previous == Some(Newest(rows).next)
    requires rows == [] ==> row.previous.None?
    requires row.sequence == |rows| + 1 && row.requestDigest == digest && Legal(row.previous, row.next)
    ensures LogSound(rows + [row], digest)
  {
    hide Newest, Legal;
    if rows != [] { NewestIsLast(rows); }
  }

  /** Acceptance of a new transition, in terms of the tables. */
  lemma AcceptedShape(db: Db, transitionId: string, c: Change)
    requires Agrees(db) && Observe(db, transitionId, c).0 != db
    ensures var row := NewRow(db, c);
            && row.Ok? && Precheck(c).None? && CommandId(transitionId) !in db.commands
            && Observe(db, transitionId, c) == (Recorded(db, transitionId, c, row.value), Ok(OutcomeOf(c, row.value.version)))
            && row.value.version == |LogOf(db, c.binding.effectId)| + 1
            && row.value.requestDigest == c.binding.requestDigest
            && row.value.state == Projected(c.next)
            && LogSound(LogOf(db, c.binding.effectId) + [RowOf(transitionId, c, row.value.version)], c.binding.requestDigest)
  {
    hide CanonicalDigest, LogSound, Newest, CommandSound;
    var id, row := c.binding.effectId, NewRow(db, c);
    if id in db.effects { assert EffectSound(db, id); }
    LogGrows(LogOf(db, id), c.binding.requestDigest, RowOf(transitionId, c, row.value.version));
  }

  lemma RecordedKeepsCommand(db: Db, transitionId: string, c: Change, row: EffectRow, k: string)
    requires k in db.commands && CommandSound(db, k) && CommandId(transitionId) !in db.commands
    ensures CommandSound(Recorded(db, transitionId, c, row), k)
  {
    hide CommandId;
  }

  lemma RecordedKeepsAgreement(db: Db, transitionId: string, c: Change, row: EffectRow)
    requires Agrees(db) && CommandId(transitionId) !in db.commands
    requires row.version == |LogOf(db, c.binding.effectId)| + 1 && row.requestDigest == c.binding.requestDigest
    requires row.state == Projected(c.next)
    requires LogSound(LogOf(db, c.binding.effectId) + [RowOf(transitionId, c, row.version)], c.binding.requestDigest)
    ensures Agrees(Recorded(db, transitionId, c, row))
  {
    hide LogSound, CommandId, Projected;
    var db' := Recorded(db, transitionId, c, row);
    forall k | k in db'.commands ensures CommandSound(db', k) {
      if k in db.commands { RecordedKeepsCommand(db, transitionId, c, row, k); }
    }
    forall id | id in db'.effects ensures EffectSound(db', id) {
      if id != c.binding.effectId { assert EffectSound(db, id); }
    }
  }

  lemma TransitionKeepsAgreement(db: Db, transitionId: string, c: Change)
    requires Agrees(db)
    ensures Agrees(Observe(db, transitionId, c).0)
  {
    hide Agrees, NewRow, LogSound, LogOf;
    if Observe(db, transitionId, c).0 != db {
      AcceptedShape(db, transitionId, c);
      RecordedKeepsAgreement(db, transitionId, c, NewRow(db, c).value);
    }
  }

  /** The other operations leave effects and log alone and never reuse a
      recorded command. */
  lemma OthersKeepAgreement(db: Db, db': Db)
    requires Agrees(db) && db'.effects == db.effects && db'.log == db.log
    requires forall k :: k in db'.commands ==>
               (k in db.commands && db'.commands[k] == db.commands[k]) || db'.commands[k].fingerprint.OfOther?
    ensures Agrees(db')
  {
    hide LogSound, CommandId, Projected;
    forall id | id in db'.effects ensures EffectSound(db', id) { assert EffectSound(db, id); }
    forall k | k in db'.commands ensures CommandSound(db', k) { assert k in db.commands ==> CommandSound(db, k); }
  }

  lemma StepKeepsAgreement(db: Db, e: Event)
    requires Agrees(db)
    ensures Agrees(Step(db, e))
  {
    hide Agrees, Observe;
    if e.Transition? { TransitionKeepsAgreement(db, e.transitionId, e.change); }
    else { OthersKeepAgreement(db, Step(db, e)); }
  }

  /** Over every run the projection agrees with its log: each effect's rows are
      1..version along a legal path under one digest, and project to its state. */
  lemma {:induction false} ProjectionAgreesWithLog(states: seq<Db>, events: seq<Event>, n: nat)
    requires IsRun(states, events) && n < |states| && Agrees(states[0])
    ensures Agrees(states[n])
  {
    if n > 0 {
      ProjectionAgreesWithLog(states, events, n - 1);
      hide Agrees, Step;
      StepKeepsAgreement(states[n - 1], events[n - 1]);
    }
  }

  /******* The recovery audit *******/

  /** What `recover` counts as an inconsistent effect. */
  predicate Inconsistent(db: Db, id: string)
    requires id in db.effects
  {
    var rows := LogOf(db, id);
    || rows == []
    || (exists i :: 0 <= i < |rows| && rows[i].requestDigest != db.effects[id].requestDigest)
    || db.effects[id].state != Projected(Newest(rows).next)
  }

  /** The audit's count is zero in every reachable state. */
  lemma AuditFindsNothing(states: seq<Db>, events: seq<Event>, n: nat)
    requires IsRun(states, events) && n < |states| && Agrees(states[0])
    ensures forall id :: id in states[n].effects ==> !Inconsistent(states[n], id)
  {
    ProjectionAgreesWithLog(states, events, n);
    forall id | id in states[n].effects ensures !Inconsistent(states[n], id) {
      assert EffectSound(states[n], id);
      NewestIsLast(states[n].log[id]);
    }
  }

  /******* Replay *******/

  lemma CommandsAreKept(db: Db, e: Event, k: string)
    requires k in db.commands
    ensures k in Step(db, e).commands && Step(db, e).commands[k] == db.commands[k]
  {
    hide CommandId, Precheck, NewRow, Taken;
  }

  lemma {:induction false} CommandsLast(states: seq<Db>, events: seq<Event>, i: nat, n: nat, k: string)
    requires IsRun(states, events) && i <= n < |states| && k in states[i].commands
    ensures k in states[n].commands && states[n].commands[k] == states[i].commands[k]
  {
    if i < n {
      CommandsLast(states, events, i, n - 1, k);
      hide Step;
      CommandsAreKept(states[n - 1], events[n - 1], k);
    }
  }

  /** Re-sending an accepted transition, at any later time, changes nothing and
      returns its first result; sending another change under the same identity
      is refused and changes nothing either. */
  lemma ReplayIsIdempotent(states: seq<Db>, events: seq<Event>, i: nat, n: nat, other: Change)
    requires IsRun(states, events) && i < n < |states| && events[i].Transition?
    requires Observe(states[i], events[i].transitionId, events[i].change).1.Ok?
    ensures Observe(states[n], events[i].transitionId, events[i].change) ==
            (states[n], Observe(states[i], events[i].transitionId, events[i].change).1)
    ensures other != events[i].change ==>
              Observe(states[n], events[i].transitionId, other).0 == states[n]
              && Observe(states[n], events[i].transitionId, other).1.Err?
  {
    var k := CommandId(events[i].transitionId);
    assert states[i + 1] == Step(states[i], events[i]);
    assert k in states[i + 1].commands;
    CommandsLast(states, events, i + 1, n, k);
    hide NewRow, CommandId, CanonicalDigest, Taken, IsRun;
  }

  /******* Terminal projections *******/

  lemma SettledStep(db: Db, e: Event, id: string)
    requires Agrees(db) && id in db.effects && db.effects[id].state != Proposed
    ensures id in Step(db, e).effects && Step(db, e).effects[id] == db.effects[id]
  {
    hide CanonicalDigest, Newest, CommandSound, CommandId;
    if e.Transition? && e.change.binding.effectId == id {
      assert EffectSound(db, id);
      NewestIsLast(db.log[id]);
      assert Precheck(e.change).Some? || NewRow(db, e.change).Err?;
    }
  }

  /** A committed, failed or rejected effect is never projected otherwise. */
  lemma {:induction false} SettledForGood(states: seq<Db>, events: seq<Event>, i: nat, n: nat, id: string)
    requires IsRun(states, events) && i <= n < |states| && Agrees(states[0])
    requires id in states[i].effects && states[i].effects[id].state != Proposed
    ensures id in states[n].effects && states[n].effects[id] == states[i].effects[id]
  {
    if i < n {
      SettledForGood(states, events, i, n - 1, id);
      ProjectionAgreesWithLog(states, events, n - 1);
      hide Agrees, Step;
      SettledStep(states[n - 1], events[n - 1], id);
    }
  }

  /******* Exactly which transitions are accepted, and what they leave *******/

  /** Every transition there is. */
  predicate Listed(previous: Option<ProviderState>, next: ProviderState)
  {
    (previous, next) in {
      (None, PROPOSED), (None, REJECTED),
      (Some(PROPOSED), ProviderState.AUTHORIZED), (Some(ProviderState.AUTHORIZED), DISPATCHED),
      (Some(DISPATCHED), OBSERVED_SUCCEEDED), (Some(DISPATCHED), OBSERVED_FAILED), (Some(DISPATCHED), UNCERTAIN),
      (Some(UNCERTAIN), RESOLVED_SUCCEEDED), (Some(UNCERTAIN), RESOLVED_FAILED)}
  }

  predicate Ends(s: ProviderState)
  {
    s in {OBSERVED_SUCCEEDED, OBSERVED_FAILED, RESOLVED_SUCCEEDED, RESOLVED_FAILED}
  }

  /** A listed transition under a canonical digest; from DISPATCHED on it names the
      provider's identity, and at the end its evidence. */
  predicate WellPut(c: Change)
  {
    && |c.binding.requestDigest| == 71 && c.binding.requestDigest[..7] == "sha256:"
    && (forall i :: 7 <= i < 71 ==> c.binding.requestDigest[i] in "0123456789abcdef")
    && Listed(c.previous, c.next)
    && (c.next in {DISPATCHED, UNCERTAIN} || Ends(c.next) ==> c.externalRef.Some? && |c.externalRef.value| > 0)
    && (Ends(c.next) ==> c.evidenceRef.Some? && |c.evidenceRef.value| > 0)
  }

  /** It starts where the effect's log ends, under the same objective and digest. */
  predicate Fits(db: Db, c: Change)
  {
    var id := c.binding.effectId;
    match c.previous
    case None => id !in db.effects
    case Some(state) =>
      && id in db.effects && db.effects[id].objectiveId == c.binding.objectiveId
      && db.effects[id].requestDigest == c.binding.requestDigest
      && LogOf(db, id) != [] && LogOf(db, id)[|LogOf(db, id)| - 1].next == state
  }

  predicate Live(db: Db, objective: string)
  {
    objective in db.objectives && db.objectives[objective] in {ObjectiveProposed, ObjectiveSatisfied}
  }

  function StateFor(s: ProviderState): ProjectedState
  {
    if s in {OBSERVED_SUCCEEDED, RESOLVED_SUCCEEDED} then Committed
    else if s in {OBSERVED_FAILED, RESOLVED_FAILED} then Failed
    else if s == REJECTED then Rejected else Proposed
  }

  lemma PrecheckExactly(c: Change)
    ensures Precheck(c).None? <==> WellPut(c)
    ensures StateFor(c.next) == Projected(c.next)
  {
    var d := c.binding.requestDigest;
    assert Listed(c.previous, c.next) <==> Legal(c.previous, c.next);
    if |d| == 71 {
      forall i | 7 <= i < 71 ensures ('0' <= d[i] <= '9' || 'a' <= d[i] <= 'f') <==> d[i] in "0123456789abcdef" { HexDigits(d[i]); }
    }
  }

  lemma HexDigits(c: char)
    ensures ('0' <= c <= '9' || 'a' <= c <= 'f') <==> c in "0123456789abcdef"
  {
    var digits := "0123456789abcdef";
    if '0' <= c <= '9' { assert digits[c as int - '0' as int] == c; }
    if 'a' <= c <= 'f' { assert digits[c as int - 'a' as int + 10] == c; }
  }

  /** A transition under a new identity is accepted exactly if it is well put, its
      objective is live, it fits the log, and its identity is in no log.  It then
      adds its one row to the log and brings the effect's row up to it, keeping
      the references it does not give anew; refused, it changes nothing. */
  lemma ObserveExactly(db: Db, transitionId: string, c: Change)
    requires Agrees(db) && CommandId(transitionId) !in db.commands
    ensures var (db', r) := Observe(db, transitionId, c);
            var id, version := c.binding.effectId, |LogOf(db, c.binding.effectId)| + 1;
            && (r.Ok? <==> WellPut(c) && Live(db, c.binding.objectiveId) && Fits(db, c) && !Taken(db, transitionId))
            && (r.Err? ==> db' == db)
            && (r.Ok? ==>
                  var kept := if c.previous.None? then (None, None) else (db.effects[id].externalRef, db.effects[id].evidenceRef);
                  && r.value == Outcome(id, c.next, version, c.externalRef, c.evidenceRef)
                  && db'.effects == db.effects[id := EffectRow(
                       c.binding.objectiveId, c.binding.requestDigest, StateFor(c.next),
                       if c.externalRef.Some? then c.externalRef else kept.0,
                       if c.evidenceRef.Some? then c.evidenceRef else kept.1, version)]
                  && db'.log == db.log[id := LogOf(db, id) +
                       [LogRow(transitionId, c.previous, c.next, c.binding.requestDigest, c.evidenceRef, version)]]
                  && db'.objectives == db.objectives)
  {
    var id := c.binding.effectId;
    PrecheckExactly(c);
    hide CanonicalDigest, WellPut, Precheck, CommandSound, Newest, Taken, CommandId, Listed, Legal;
    if id in db.effects {
      assert EffectSound(db, id);
      NewestIsLast(db.log[id]);
    } else { assert id !in db.log; }
    assert NewRow(db, c).Ok? <==> Fits(db, c);
  }

  /** What the references of a row rest on: from DISPATCHED on an external identity,
      at the end evidence, and the evidence is the newest that the log gives. */
  ghost predicate Referenced(db: Db, id: string)
    requires id in db.effects
  {
    var row, rows := db.effects[id], LogOf(db, id);
    && rows != []
    && (rows[|rows| - 1].next in {DISPATCHED, UNCERTAIN} || Ends(rows[|rows| - 1].next) ==> Given(row.externalRef))
    && (Ends(rows[|rows| - 1].next) ==> Given(row.evidenceRef))
    && row.evidenceRef == NewestEvidence(rows)
  }

  function NewestEvidence(rows: seq<LogRow>): Option<string>
  {
    if rows == [] then None
    else if rows[|rows| - 1].evidenceRef.Some? then rows[|rows| - 1].evidenceRef
    else NewestEvidence(rows[..|rows| - 1])
  }

  lemma ReferencesStep(db: Db, e: Event)
    requires Agrees(db) && forall id :: id in db.effects ==> Referenced(db, id)
    ensures forall id :: id in Step(db, e).effects ==> Referenced(Step(db, e), id)
  {
    hide Agrees, CommandId, Taken;
    if e.Transition? && CommandId(e.transitionId) !in db.commands { ObserveExactly(db, e.transitionId, e.change); }
    hide Observe, Fits;
    var db' := Step(db, e);
    forall id | id in db'.effects ensures Referenced(db', id) {
      if id in db.effects && LogOf(db', id) == LogOf(db, id) && db'.effects[id] == db.effects[id] { assert Referenced(db, id); }
      else { ReferencesAdded(db, e.transitionId, e.change, id); }
    }
  }

  lemma ReferencesAdded(db: Db, transitionId: string, c: Change, id: string)
    requires Agrees(db) && (id in db.effects ==> Referenced(db, id)) && CommandId(transitionId) !in db.commands
    requires Observe(db, transitionId, c).1.Ok? && id == c.binding.effectId
    ensures Referenced(Observe(db, transitionId, c).0, id)
  {
    ObserveExactly(db, transitionId, c);
    var rows := LogOf(db, id);
    assert c.previous.None? ==> rows == [];
    hide Observe, Taken, CommandId, Agrees, Listed;
    var row := LogRow(transitionId, c.previous, c.next, c.binding.requestDigest, c.evidenceRef, |rows| + 1);
    assert (rows + [row])[..|rows|] == rows;
    assert LogOf(Observe(db, transitionId, c).0, id) == rows + [row];
    assert NewestEvidence(rows + [row]) == if row.evidenceRef.Some? then row.evidenceRef else NewestEvidence(rows);
  }

  lemma EndedHasEvidence(db: Db, id: string)
    requires id in db.effects && EffectSound(db, id) && Referenced(db, id)
    ensures db.effects[id].state in {Committed, Failed} ==>
              Given(db.effects[id].externalRef) && Given(db.effects[id].evidenceRef)
  {
  }

  /** Over every run a committed or failed effect has the provider's identity and
      its evidence on its row, and the evidence is the newest in its log. */
  lemma {:induction false} SettledHasEvidence(states: seq<Db>, events: seq<Event>, n: nat)
    requires IsRun(states, events) && n < |states| && Agrees(states[0])
    requires forall id :: id in states[0].effects ==> Referenced(states[0], id)
    ensures forall id :: id in states[n].effects ==> Referenced(states[n], id)
    ensures forall id :: id in states[n].effects && states[n].effects[id].state in {Committed, Failed} ==>
              Given(states[n].effects[id].externalRef) && Given(states[n].effects[id].evidenceRef)
  {
    hide Agrees, Step, Referenced, Given;
    ProjectionAgreesWithLog(states, events, n);
    if n > 0 {
      SettledHasEvidence(states, events, n - 1);
      ProjectionAgreesWithLog(states, events, n - 1);
      ReferencesStep(states[n - 1], events[n - 1]);
    }
    forall id | id in states[n].effects && states[n].effects[id].state in {Committed, Failed}
      ensures Given(states[n].effects[id].externalRef) && Given(states[n].effects[id].evidenceRef)
    {
      AgreesAt(states[n], id);
      EndedHasEvidence(states[n], id);
    }
  }

  lemma AgreesAt(db: Db, id: string)
    requires Agrees(db) && id in db.effects
    ensures EffectSound(db, id)
  {
  }
}
