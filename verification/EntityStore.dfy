/** The versioned entity store: optimistic transitions with an append-only log and
    content-addressed evidence, and its backup and restore. */
module EntityStore {
  import opened Contracts

  datatype EntityKind = AGENT | OBJECTIVE | ACTIVATION | WAKE

  datatype State =
    | REGISTERED | AVAILABLE | SUSPENDED | RETIRED
    | PROPOSED | ACTIVE | WAITING | SATISFIED | FAILED | CANCELLED
    | REQUESTED | LEASED | PREPARING | RUNNING | WAITING_CONTEXT | WAITING_EFFECT | SLEEPING | COMPLETED
    | PENDING | ACKNOWLEDGED | RELEASED | EXPIRED

  function Initial(k: EntityKind): State
  {
    match k
    case AGENT => REGISTERED
    case OBJECTIVE => PROPOSED
    case ACTIVATION => REQUESTED
    case WAKE => PENDING
  }

  function LegalNext(k: EntityKind, s: State): set<State>
  {
    match (k, s)
    case (AGENT, REGISTERED) => {AVAILABLE}
    case (AGENT, AVAILABLE) => {SUSPENDED, RETIRED}
    case (AGENT, SUSPENDED) => {AVAILABLE, RETIRED}
    case (OBJECTIVE, PROPOSED) => {ACTIVE, CANCELLED}
    case (OBJECTIVE, ACTIVE) => {WAITING, SATISFIED, FAILED, CANCELLED}
    case (OBJECTIVE, WAITING) => {ACTIVE, FAILED, CANCELLED}
    case (ACTIVATION, REQUESTED) => {LEASED, CANCELLED}
    case (ACTIVATION, LEASED) => {PREPARING, FAILED, CANCELLED}
    case (ACTIVATION, PREPARING) => {RUNNING, FAILED, CANCELLED}
    case (ACTIVATION, RUNNING) => {WAITING_CONTEXT, WAITING_EFFECT, SLEEPING, COMPLETED, FAILED, CANCELLED}
    case (WAKE, PENDING) => {LEASED}
    case (WAKE, LEASED) => {ACKNOWLEDGED, RELEASED, EXPIRED}
    case (_, _) => {}
  }

  /** `assert_legal`. */
  predicate Legal(k: EntityKind, previous: Option<State>, next: State)
  {
    match previous
    case None => Initial(k) == next
    case Some(s) => next in LegalNext(k, s)
  }

  /** Evidence is named by the SHA-256 of its content. */
  datatype EvidenceId = Sha256Of(content: string)

  /** What an object in the evidence bucket is stored with. */
  datatype Metadata = ByTrace(traceId: string) | ByMarker(marker: string)

  datatype Object = Object(content: string, metadata: Metadata)

  datatype Reference = Reference(objectKey: EvidenceId, size: nat, provenance: string)

  datatype Entity = Entity(kind: EntityKind, version: nat, state: State, updatedAt: int)

  datatype Change = Change(
    entityId: nat,
    kind: EntityKind,
    actor: string,
    newState: State,
    evidence: EvidenceId,
    correlation: string)

  datatype Row = Row(transitionId: nat, commandId: nat, change: Change, version: nat, occurredAt: int, correctionOf: Option<nat>)

  datatype Store = Store(
    entities: map<nat, Entity>,
    log: seq<Row>,
    evidence: map<EvidenceId, Reference>,
    bucket: map<EvidenceId, Object>)

  datatype Error =
    | CommandReused
    | VersionConflict(actual: nat)
    | KindMismatch
    | IllegalTransition
    | EvidenceMissing
    | IdentityTaken
    | UnknownCorrection
    | BucketConflict
    | TooLarge
    | ConstraintViolated
    | DigestMismatch
    | VersionsDisagree

  /******* Evidence *******/

  const MAX_EVIDENCE_BYTES := 16 * 1024 * 1024
  const MAX_BACKUP_BYTES := 64 * 1024 * 1024

  /** `put_content`: create if absent, and then the object must be exactly ours. */
  function PutObject(bucket: map<EvidenceId, Object>, key: EvidenceId, o: Object): Result<map<EvidenceId, Object>, Error>
  {
    if key !in bucket then Ok(bucket[key := o])
    else if bucket[key] == o then Ok(bucket)
    else Err(BucketConflict)
  }

  function PutEvidence(s: Store, content: string, traceId: string, provenance: string): (Store, Result<EvidenceId, Error>)
  {
    var id := Sha256Of(content);
    if |content| > MAX_EVIDENCE_BYTES then (s, Err(TooLarge))
    else match PutObject(s.bucket, id, Object(content, ByTrace(traceId)))
    case Err(error) => (s, Err(error))
    case Ok(bucket) =>
      var s' := s.(bucket := bucket);
      (if id in s.evidence then s' else s'.(evidence := s.evidence[id := Reference(id, |content|, provenance)]), Ok(id))
  }

  /** `put_evidence` that dies between the upload and the reference. */
  function Upload(s: Store, content: string, traceId: string): Store
  {
    if |content| > MAX_EVIDENCE_BYTES then s
    else match PutObject(s.bucket, Sha256Of(content), Object(content, ByTrace(traceId)))
      case Err(_) => s
      case Ok(bucket) => s.(bucket := bucket)
  }

  /******* Transitions *******/

  function FindCommand(log: seq<Row>, commandId: nat): Option<Row>
  {
    if log == [] then None
    else if log[|log| - 1].commandId == commandId then Some(log[|log| - 1])
    else FindCommand(log[..|log| - 1], commandId)
  }

  predicate HasTransition(log: seq<Row>, id: nat)
  {
    exists i :: 0 <= i < |log| && log[i].transitionId == id
  }

  function Current(s: Store, id: nat): nat
  {
    if id in s.entities then s.entities[id].version else 0
  }

  /** `transition`, under the identity it draws for the new row. */
  function Transition(s: Store, commandId: nat, expected: nat, c: Change, correctionOf: Option<nat>, at: int, transitionId: nat):
    (Store, Result<Row, Error>)
  {
    var existing := FindCommand(s.log, commandId);
    if existing.Some? then (s, if existing.value.change == c then Ok(existing.value) else Err(CommandReused))
    else
      var id, version := c.entityId, Current(s, c.entityId);
      if version != expected then (s, Err(VersionConflict(version)))
      else if id in s.entities && s.entities[id].kind != c.kind then (s, Err(KindMismatch))
      else if !Legal(c.kind, if id in s.entities then Some(s.entities[id].state) else None, c.newState) then (s, Err(IllegalTransition))
      else if c.evidence !in s.evidence then (s, Err(EvidenceMissing))
      else if HasTransition(s.log, transitionId) then (s, Err(IdentityTaken))
      else if correctionOf.Some? && !HasTransition(s.log, correctionOf.value) then (s, Err(UnknownCorrection))
      else
        var row := Row(transitionId, commandId, c, version + 1, at, correctionOf);
        (s.(log := s.log + [row], entities := s.entities[id := Entity(c.kind, version + 1, c.newState, at)]), Ok(row))
  }

  /******* Backup and restore *******/

  datatype Item = Item(id: EvidenceId, reference: Reference, content: string, marker: string)

  datatype Backup = Backup(marker: string, entities: seq<(nat, Entity)>, transitions: seq<Row>, items: seq<Item>)

  /** The rows of one entity, oldest first. */
  function Of(log: seq<Row>, id: nat): seq<Row>
  {
    if log == [] then []
    else Of(log[..|log| - 1], id) + if log[|log| - 1].change.entityId == id then [log[|log| - 1]] else []
  }

  predicate Ascending(order: seq<nat>)
  {
    forall i, j :: 0 <= i < j < |order| ==> order[i] < order[j]
  }

  predicate NoRepeats<T(==)>(order: seq<T>)
  {
    forall i, j :: 0 <= i < j < |order| ==> order[i] != order[j]
  }

  /** `ORDER BY entity_id, new_version`. */
  function Grouped(log: seq<Row>, order: seq<nat>): seq<Row>
  {
    if order == [] then [] else Grouped(log, order[..|order| - 1]) + Of(log, order[|order| - 1])
  }

  /** `verify_evidence` of one reference. */
  predicate Verifies(s: Store, id: EvidenceId)
  {
    && id in s.evidence
    && s.evidence[id].objectKey in s.bucket
    && s.bucket[s.evidence[id].objectKey].content == id.content
    && s.evidence[id].size == |id.content| <= MAX_EVIDENCE_BYTES
  }

  function TakeBackup(s: Store, order: seq<nat>, ids: seq<EvidenceId>, marker: string): Option<Backup>
    requires forall i :: 0 <= i < |order| ==> order[i] in s.entities
  {
    if exists i :: 0 <= i < |ids| && !Verifies(s, ids[i]) then None
    else
      Some(Backup(marker, seq(|order|, i requires 0 <= i < |order| => (order[i], s.entities[order[i]])),
                  Grouped(s.log, order),
                  seq(|ids|, i requires 0 <= i < |ids| => Item(ids[i], s.evidence[ids[i]], ids[i].content, marker))))
  }

  /** `versions`: the highest version logged for an entity. */
  function Highest(rows: seq<Row>, id: nat): nat
  {
    if rows == [] then 0
    else
      var before := Highest(rows[..|rows| - 1], id);
      var row := rows[|rows| - 1];
      if row.change.entityId == id && before < row.version then row.version else before
  }

  predicate ItemsFit(b: Backup)
  {
    forall i :: 0 <= i < |b.items| ==>
      b.items[i].marker == b.marker && b.items[i].id == Sha256Of(b.items[i].content) && b.items[i].reference.size == |b.items[i].content|
  }

  predicate RowsFit(b: Backup)
  {
    forall i :: 0 <= i < |b.transitions| ==>
      && (exists k :: 0 <= k < |b.items| && b.items[k].id == b.transitions[i].change.evidence)
      && (b.transitions[i].correctionOf.Some? ==> HasTransition(b.transitions, b.transitions[i].correctionOf.value))
  }

  predicate VersionsFit(b: Backup)
  {
    forall i :: 0 <= i < |b.entities| ==> Highest(b.transitions, b.entities[i].0) == b.entities[i].1.version
  }

  function PutItems(bucket: map<EvidenceId, Object>, items: seq<Item>, marker: string): Result<map<EvidenceId, Object>, Error>
  {
    if items == [] then Ok(bucket)
    else match PutItems(bucket, items[..|items| - 1], marker)
      case Err(error) => Err(error)
      case Ok(b) =>
        var item := items[|items| - 1];
        PutObject(b, item.reference.objectKey, Object(item.content, ByMarker(marker)))
  }

  function InsertedReferences(items: seq<Item>): map<EvidenceId, Reference>
  {
    if items == [] then map[]
    else InsertedReferences(items[..|items| - 1])[items[|items| - 1].id := items[|items| - 1].reference]
  }

  function InsertedEntities(entities: seq<(nat, Entity)>): map<nat, Entity>
  {
    if entities == [] then map[]
    else InsertedEntities(entities[..|entities| - 1])[entities[|entities| - 1].0 := entities[|entities| - 1].1]
  }

  /** Rows are inserted one by one, and the foreign key of a correction must be
      there already. */
  predicate InsertsInOrder(rows: seq<Row>)
  {
    forall i :: 0 <= i < |rows| && rows[i].correctionOf.Some? ==> HasTransition(rows[..i], rows[i].correctionOf.value)
  }

  /** The primary and unique keys of the tables that are filled. */
  predicate KeysUnique(b: Backup)
  {
    && (forall i, j :: 0 <= i < j < |b.entities| ==> b.entities[i].0 != b.entities[j].0)
    && LogKeysUnique(b.transitions)
  }

  predicate LogKeysUnique(rows: seq<Row>)
  {
    forall i, j :: 0 <= i < j < |rows| ==>
      rows[i].transitionId != rows[j].transitionId && rows[i].commandId != rows[j].commandId
  }

  /** `restore`: the evidence is put before the tables are touched, and the tables
      change in one transaction. */
  function Restore(s: Store, b: Backup): (Store, Result<(), Error>)
  {
    if !ItemsFit(b) then (s, Err(DigestMismatch))
    else if !RowsFit(b) then (s, Err(EvidenceMissing))
    else if !VersionsFit(b) then (s, Err(VersionsDisagree))
    else match PutItems(s.bucket, b.items, b.marker)
      case Err(error) => (s, Err(error))
      case Ok(bucket) =>
        if !InsertsInOrder(b.transitions) || !KeysUnique(b) then (s.(bucket := bucket), Err(ConstraintViolated))
        else (Store(InsertedEntities(b.entities), b.transitions, InsertedReferences(b.items), bucket), Ok(()))
  }

  /******* The store as a service *******/

  class StateStore {
    var entities: map<nat, Entity>
    var log: seq<Row>
    var evidence: map<EvidenceId, Reference>
    var bucket: map<EvidenceId, Object>

    function Content(): Store
      reads this
    {
      Store(entities, log, evidence, bucket)
    }

    constructor (s: Store)
      ensures Content() == s
    {
      entities, log, evidence, bucket := s.entities, s.log, s.evidence, s.bucket;
    }

    method Apply(commandId: nat, expected: nat, c: Change, correctionOf: Option<nat>, at: int, transitionId: nat)
      returns (r: Result<Row, Error>)
      modifies this`entities, this`log
      ensures (Content(), r) == Transition(old(Content()), commandId, expected, c, correctionOf, at, transitionId)
    {
      hide Legal, FindCommand;
      var existing := FindCommand(log, commandId);
      if existing.Some? { return if existing.value.change == c then Ok(existing.value) else Err(CommandReused); }
      var id, version := c.entityId, Current(Content(), c.entityId);
      if version != expected { return Err(VersionConflict(version)); }
      if id in entities && entities[id].kind != c.kind { return Err(KindMismatch); }
      if !Legal(c.kind, if id in entities then Some(entities[id].state) else None, c.newState) { return Err(IllegalTransition); }
      if c.evidence !in evidence { return Err(EvidenceMissing); }
      if HasTransition(log, transitionId) { return Err(IdentityTaken); }
      if correctionOf.Some? && !HasTransition(log, correctionOf.value) { return Err(UnknownCorrection); }
      var row := Row(transitionId, commandId, c, version + 1, at, correctionOf);
      log := log + [row];
      entities := entities[id := Entity(c.kind, version + 1, c.newState, at)];
      r := Ok(row);
    }

    /** The loop of `restore` over the transitions of a backup: what every row
        refers to, and the highest version of each entity. */
    method CheckTransitions(b: Backup) returns (ok: bool, versions: map<nat, nat>)
      ensures ok <==> RowsFit(b)
      ensures ok ==> forall id: nat :: Highest(b.transitions, id) == if id in versions then versions[id] else 0
    {
      versions := map[];
      for i := 0 to |b.transitions|
        invariant forall k :: 0 <= k < i ==>
                    && (exists j :: 0 <= j < |b.items| && b.items[j].id == b.transitions[k].change.evidence)
                    && (b.transitions[k].correctionOf.Some? ==> HasTransition(b.transitions, b.transitions[k].correctionOf.value))
        invariant forall id: nat :: Highest(b.transitions[..i], id) == if id in versions then versions[id] else 0
      {
        var row := b.transitions[i];
        if !(exists j :: 0 <= j < |b.items| && b.items[j].id == row.change.evidence) { return false, versions; }
        if row.correctionOf.Some? && !HasTransition(b.transitions, row.correctionOf.value) { return false, versions; }
        assert b.transitions[..i + 1][..i] == b.transitions[..i] && b.transitions[..i + 1][i] == row;
        var known := if row.change.entityId in versions then versions[row.change.entityId] else 0;
        versions := versions[row.change.entityId := if known < row.version then row.version else known];
      }
      assert b.transitions[..|b.transitions|] == b.transitions;
      ok := true;
    }
  }

  /******* Histories *******/

  lemma OfAppend(log: seq<Row>, row: Row, id: nat)
    ensures Of(log + [row], id) == Of(log, id) + if row.change.entityId == id then [row] else []
  {
    assert (log + [row])[..|log|] == log;
  }

  lemma {:induction false} OfMembers(log: seq<Row>, id: nat, row: Row)
    ensures row in Of(log, id) <==> row in log && row.change.entityId == id
  {
    if log != [] {
      OfMembers(log[..|log| - 1], id, row);
      assert row in log <==> row in log[..|log| - 1] || row == log[|log| - 1];
    }
  }

  predicate Continues(a: Row, b: Row)
  {
    && b.version == a.version + 1
    && b.change.kind == a.change.kind
    && b.change.newState in LegalNext(a.change.kind, a.change.newState)
  }

  /** Versions 1, 2, ..., n along a legal path, the present row the last one. */
  ghost predicate HistorySound(rows: seq<Row>, e: Entity)
  {
    && rows != []
    && rows[0].version == 1 && rows[0].change.newState == Initial(rows[0].change.kind)
    && (forall i :: 0 < i < |rows| ==> Continues(rows[i - 1], rows[i]))
    && var last := rows[|rows| - 1];
       e == Entity(last.change.kind, |rows|, last.change.newState, last.occurredAt)
  }

  ghost predicate Sound(s: Store)
  {
    && (forall id :: id in s.entities ==> HistorySound(Of(s.log, id), s.entities[id]))
    && (forall i :: 0 <= i < |s.log| ==> s.log[i].change.entityId in s.entities && s.log[i].change.evidence in s.evidence)
    && InsertsInOrder(s.log) && LogKeysUnique(s.log)
    && (forall id :: id in s.evidence ==> Verifies(s, id) && s.evidence[id].objectKey == id)
    && (forall k :: k in s.bucket ==> s.bucket[k].content == k.content)
  }

  lemma {:induction false} VersionsCount(rows: seq<Row>, e: Entity, i: nat)
    requires HistorySound(rows, e) && i < |rows|
    ensures rows[i].version == i + 1
  {
    if i > 0 {
      VersionsCount(rows, e, i - 1);
      assert Continues(rows[i - 1], rows[i]);
    }
  }

  lemma {:induction false} NothingOf(log: seq<Row>, id: nat)
    requires forall i :: 0 <= i < |log| ==> log[i].change.entityId != id
    ensures Of(log, id) == []
  {
    if log != [] { NothingOf(log[..|log| - 1], id); }
  }

  lemma {:induction false} FindExactly(log: seq<Row>, commandId: nat)
    requires LogKeysUnique(log)
    ensures FindCommand(log, commandId).None? <==> forall i :: 0 <= i < |log| ==> log[i].commandId != commandId
    ensures forall i :: 0 <= i < |log| && log[i].commandId == commandId ==> FindCommand(log, commandId) == Some(log[i])
  {
    if log != [] { FindExactly(log[..|log| - 1], commandId); }
  }

  lemma HistoryGrows(rows: seq<Row>, e: Entity, row: Row)
    requires HistorySound(rows, e) && row.version == e.version + 1 && row.change.kind == e.kind
    requires row.change.newState in LegalNext(e.kind, e.state)
    ensures HistorySound(rows + [row], Entity(row.change.kind, row.version, row.change.newState, row.occurredAt))
  {
    hide LegalNext;
    VersionsCount(rows, e, |rows| - 1);
    assert Continues(rows[|rows| - 1], row);
  }

  datatype Event =
    | Put(content: string, traceId: string, provenance: string)
    | DieUploading(content: string, traceId: string)
    | Apply(commandId: nat, expected: nat, change: Change, correctionOf: Option<nat>, at: int, transitionId: nat)

  function Next(s: Store, e: Event): Store
  {
    match e
    case Put(content, traceId, provenance) => PutEvidence(s, content, traceId, provenance).0
    case DieUploading(content, traceId) => Upload(s, content, traceId)
    case Apply(commandId, expected, c, correctionOf, at, transitionId) =>
      Transition(s, commandId, expected, c, correctionOf, at, transitionId).0
  }

  ghost predicate IsRun(states: seq<Store>, events: seq<Event>)
  {
    && |states| == |events| + 1
    && forall i :: 0 <= i < |events| ==> states[i + 1] == Next(states[i], events[i])
  }

  const EmptyStore := Store(map[], [], map[], map[])

  lemma EmptyStoreIsSound()
    ensures Sound(EmptyStore)
  {
  }

  lemma AppliedRow(s: Store, e: Event)
    requires Sound(s) && e.Apply? && Next(s, e) != s
    ensures var version := Current(s, e.change.entityId) + 1;
            var row := Row(e.transitionId, e.commandId, e.change, version, e.at, e.correctionOf);
            && Next(s, e) == s.(log := s.log + [row],
                                entities := s.entities[e.change.entityId := Entity(e.change.kind, version, e.change.newState, e.at)])
            && e.change.evidence in s.evidence
            && HistorySound(Of(s.log, e.change.entityId) + [row], Entity(e.change.kind, version, e.change.newState, e.at))
            && InsertsInOrder(s.log + [row]) && LogKeysUnique(s.log + [row])
  {
    hide LegalNext, Verifies, HistorySound, InsertsInOrder, LogKeysUnique, FindCommand;
    var id := e.change.entityId;
    var row := Row(e.transitionId, e.commandId, e.change, Current(s, id) + 1, e.at, e.correctionOf);
    FindExactly(s.log, e.commandId);
    if id in s.entities { HistoryGrows(Of(s.log, id), s.entities[id], row); }
    else { NothingOf(s.log, id); HistoryStarts(row); }
    KeysAppended(s.log, row);
    InsertAppended(s.log, row);
  }

  lemma HistoryStarts(row: Row)
    requires row.version == 1 && row.change.newState == Initial(row.change.kind)
    ensures HistorySound([] + [row], Entity(row.change.kind, 1, row.change.newState, row.occurredAt))
  {
  }

  lemma KeysAppended(log: seq<Row>, row: Row)
    requires LogKeysUnique(log) && !HasTransition(log, row.transitionId)
    requires forall i :: 0 <= i < |log| ==> log[i].commandId != row.commandId
    ensures LogKeysUnique(log + [row])
  {
  }

  lemma RowKeeps(s: Store, row: Row, entity: Entity)
    requires Sound(s) && row.change.evidence in s.evidence
    requires HistorySound(Of(s.log, row.change.entityId) + [row], entity)
    requires InsertsInOrder(s.log + [row]) && LogKeysUnique(s.log + [row])
    ensures Sound(s.(log := s.log + [row], entities := s.entities[row.change.entityId := entity]))
  {
    hide HistorySound, InsertsInOrder, LogKeysUnique, Verifies, Of;
    var s' := s.(log := s.log + [row], entities := s.entities[row.change.entityId := entity]);
    forall id | id in s'.entities ensures HistorySound(Of(s'.log, id), s'.entities[id]) {
      OfAppend(s.log, row, id);
      assert Of(s.log, id) + [] == Of(s.log, id);
    }
    forall id | id in s'.evidence ensures Verifies(s', id) { VerifiesApart(s, s', id); }
  }

  lemma ApplyKeeps(s: Store, e: Event)
    requires Sound(s) && e.Apply?
    ensures Sound(Next(s, e))
  {
    hide Sound, Transition, HistorySound, InsertsInOrder, LogKeysUnique;
    if Next(s, e) != s {
      AppliedRow(s, e);
      var version := Current(s, e.change.entityId) + 1;
      RowKeeps(s, Row(e.transitionId, e.commandId, e.change, version, e.at, e.correctionOf),
               Entity(e.change.kind, version, e.change.newState, e.at));
    }
  }

  lemma VerifiesApart(s: Store, s': Store, id: EvidenceId)
    requires Verifies(s, id) && s'.evidence == s.evidence && s'.bucket == s.bucket
    ensures Verifies(s', id)
  {
  }

  lemma PutKeeps(s: Store, e: Event)
    requires Sound(s) && !e.Apply?
    ensures Sound(Next(s, e))
  {
    hide HistorySound, InsertsInOrder, LogKeysUnique;
  }

  /** Over every run each entity's transitions are versions 1..n along a legal path
      and its present row is the last of them; every row's evidence is on file. */
  lemma {:induction false} StoreStaysSound(states: seq<Store>, events: seq<Event>, n: nat)
    requires IsRun(states, events) && n < |states| && Sound(states[0])
    ensures Sound(states[n])
  {
    if n > 0 {
      StoreStaysSound(states, events, n - 1);
      hide Sound, Next;
      if events[n - 1].Apply? { ApplyKeeps(states[n - 1], events[n - 1]); }
      else { PutKeeps(states[n - 1], events[n - 1]); }
    }
  }

  lemma {:induction false} LogOnlyGrows(states: seq<Store>, events: seq<Event>, i: nat, n: nat)
    requires IsRun(states, events) && i <= n < |states|
    ensures states[i].log <= states[n].log
  {
    if i < n {
      LogOnlyGrows(states, events, i, n - 1);
      hide Legal, FindCommand;
      assert states[n - 1].log <= Next(states[n - 1], events[n - 1]).log;
    }
  }

  /** Replaying an accepted command at any later time changes nothing and returns
      its row, whatever version the caller expects; another change under the same
      command id is refused. */
  lemma ReplayChangesNothing(states: seq<Store>, events: seq<Event>, i: nat, n: nat, expected: nat, other: Change,
                             correctionOf: Option<nat>, at: int, transitionId: nat)
    requires IsRun(states, events) && i < n < |states| && Sound(states[0])
    requires events[i].Apply? && states[i + 1] != states[i]
    ensures states[i + 1].log != []
    ensures var row := states[i + 1].log[|states[i + 1].log| - 1];
            Transition(states[n], events[i].commandId, expected, other, correctionOf, at, transitionId) ==
               (states[n], if other == events[i].change then Ok(row) else Err(CommandReused))
  {
    StoreStaysSound(states, events, i);
    StoreStaysSound(states, events, n);
    AppliedRow(states[i], events[i]);
    LogOnlyGrows(states, events, i + 1, n);
    FindExactly(states[n].log, events[i].commandId);
    hide Legal, FindCommand, HistorySound, InsertsInOrder, LogKeysUnique, IsRun;
    var last := |states[i + 1].log| - 1;
    assert states[n].log[last] == states[i + 1].log[last];
  }

  /******* Backup and restore *******/

  lemma {:induction false} OfConcat(a: seq<Row>, b: seq<Row>, id: nat)
    ensures Of(a + b, id) == Of(a, id) + Of(b, id)
  {
    if b == [] {
      assert a + b == a;
    } else {
      OfConcat(a, b[..|b| - 1], id);
      assert (a + b)[..|a + b| - 1] == a + b[..|b| - 1];
    }
  }

  lemma {:induction false} OfOf(log: seq<Row>, x: nat, id: nat)
    ensures Of(Of(log, x), id) == if x == id then Of(log, id) else []
  {
    if log != [] {
      OfOf(log[..|log| - 1], x, id);
      if log[|log| - 1].change.entityId == x { OfAppend(Of(log[..|log| - 1], x), log[|log| - 1], id); }
      else { assert Of(log[..|log| - 1], x) + [] == Of(log[..|log| - 1], x); }
    }
  }

  /** Grouping by entity loses no row and keeps each entity's own order. */
  lemma {:induction false} OfGrouped(log: seq<Row>, order: seq<nat>, id: nat)
    requires NoRepeats(order)
    ensures Of(Grouped(log, order), id) == if id in order then Of(log, id) else []
  {
    if order != [] {
      var before, last := order[..|order| - 1], order[|order| - 1];
      OfGrouped(log, before, id);
      OfConcat(Grouped(log, before), Of(log, last), id);
      OfOf(log, last, id);
      assert id in order <==> id in before || id == last;
    }
  }

  lemma {:induction false} GroupedMembers(log: seq<Row>, order: seq<nat>, row: Row)
    ensures row in Grouped(log, order) <==> row in log && row.change.entityId in order
  {
    if order != [] {
      GroupedMembers(log, order[..|order| - 1], row);
      OfMembers(log, order[|order| - 1], row);
      assert row.change.entityId in order <==> row.change.entityId in order[..|order| - 1] || row.change.entityId == order[|order| - 1];
    }
  }

  lemma {:induction false} HighestIsOwn(rows: seq<Row>, id: nat)
    ensures Highest(rows, id) == Highest(Of(rows, id), id)
  {
    if rows != [] {
      var before, row := rows[..|rows| - 1], rows[|rows| - 1];
      HighestIsOwn(before, id);
      if row.change.entityId == id { assert (Of(before, id) + [row])[..|Of(before, id)|] == Of(before, id); }
      else { assert Of(before, id) + [] == Of(before, id); }
    }
  }

  lemma {:induction false} HighestCounts(rows: seq<Row>, id: nat)
    requires forall i :: 0 <= i < |rows| ==> rows[i].version == i + 1 && rows[i].change.entityId == id
    ensures Highest(rows, id) == |rows|
  {
    if rows != [] { HighestCounts(rows[..|rows| - 1], id); }
  }

  lemma OwnRows(log: seq<Row>, id: nat)
    ensures forall i :: 0 <= i < |Of(log, id)| ==> Of(log, id)[i].change.entityId == id && Of(log, id)[i] in log
  {
    forall i | 0 <= i < |Of(log, id)| ensures Of(log, id)[i].change.entityId == id && Of(log, id)[i] in log {
      OfMembers(log, id, Of(log, id)[i]);
    }
  }

  ghost predicate Covers(s: Store, order: seq<nat>, ids: seq<EvidenceId>)
  {
    && Ascending(order) && (forall id :: id in s.entities <==> id in order)
    && NoRepeats(ids) && (forall e :: e in s.evidence <==> e in ids)
  }

  lemma BackupVersionsFit(s: Store, order: seq<nat>, id: nat)
    requires Sound(s) && NoRepeats(order) && id in order && id in s.entities
    ensures Highest(Grouped(s.log, order), id) == s.entities[id].version
  {
    hide InsertsInOrder, LogKeysUnique, Verifies;
    var rows := Of(s.log, id);
    OfGrouped(s.log, order, id);
    HighestIsOwn(Grouped(s.log, order), id);
    OwnRows(s.log, id);
    assert HistorySound(rows, s.entities[id]);
    forall i | 0 <= i < |rows| ensures rows[i].version == i + 1 { VersionsCount(rows, s.entities[id], i); }
    HighestCounts(rows, id);
  }

  lemma HasTransitionGrouped(s: Store, order: seq<nat>, t: nat)
    requires Sound(s) && (forall id :: id in s.entities <==> id in order) && HasTransition(s.log, t)
    ensures HasTransition(Grouped(s.log, order), t)
  {
    hide HistorySound, InsertsInOrder, LogKeysUnique, Verifies;
    var i :| 0 <= i < |s.log| && s.log[i].transitionId == t;
    GroupedMembers(s.log, order, s.log[i]);
    var k :| 0 <= k < |Grouped(s.log, order)| && Grouped(s.log, order)[k] == s.log[i];
  }

  /** Every row of the backup has its evidence and what it corrects in it. */
  lemma BackupRowFits(s: Store, order: seq<nat>, ids: seq<EvidenceId>, row: Row)
    requires Sound(s) && Covers(s, order, ids) && row in Grouped(s.log, order)
    ensures row.change.evidence in ids
    ensures row.correctionOf.Some? ==> HasTransition(Grouped(s.log, order), row.correctionOf.value)
  {
    hide HistorySound, LogKeysUnique, Grouped, Verifies;
    GroupedMembers(s.log, order, row);
    var n := RowAt(s.log, row);
    if row.correctionOf.Some? {
      PrefixHasTransition(s.log, n, row.correctionOf.value);
      HasTransitionGrouped(s, order, row.correctionOf.value);
    }
  }

  lemma BackupShape(s: Store, order: seq<nat>, ids: seq<EvidenceId>, marker: string)
    requires Sound(s) && Covers(s, order, ids)
    ensures TakeBackup(s, order, ids, marker).Some?
    ensures var b := TakeBackup(s, order, ids, marker).value;
            && ItemsFit(b) && b.transitions == Grouped(s.log, order)
            && |b.items| == |ids| && (forall k :: 0 <= k < |ids| ==> b.items[k].id == ids[k])
            && |b.entities| == |order|
            && (forall i :: 0 <= i < |order| ==> b.entities[i] == (order[i], s.entities[order[i]]))
  {
    hide HistorySound, LogKeysUnique, InsertsInOrder, Grouped;
  }

  /** The backup of any reachable store passes every check `restore` makes on the
      document. */
  lemma BackupPassesChecks(s: Store, order: seq<nat>, ids: seq<EvidenceId>, marker: string)
    requires Sound(s) && Covers(s, order, ids)
    ensures TakeBackup(s, order, ids, marker).Some?
    ensures var b := TakeBackup(s, order, ids, marker).value; ItemsFit(b) && RowsFit(b) && VersionsFit(b)
  {
    BackupShape(s, order, ids, marker);
    hide Sound, TakeBackup, ItemsFit, Highest, Grouped, HasTransition;
    var b := TakeBackup(s, order, ids, marker).value;
    forall i | 0 <= i < |b.transitions|
      ensures exists k :: 0 <= k < |b.items| && b.items[k].id == b.transitions[i].change.evidence
      ensures b.transitions[i].correctionOf.Some? ==> HasTransition(b.transitions, b.transitions[i].correctionOf.value)
    {
      BackupRowFits(s, order, ids, b.transitions[i]);
      var k :| 0 <= k < |ids| && ids[k] == b.transitions[i].change.evidence;
      assert b.items[k].id == b.transitions[i].change.evidence;
    }
    forall i | 0 <= i < |b.entities| ensures Highest(b.transitions, b.entities[i].0) == b.entities[i].1.version {
      assert order[i] in order;
      BackupVersionsFit(s, order, order[i]);
    }
  }

  lemma PrefixHasTransition(log: seq<Row>, n: nat, t: nat)
    requires InsertsInOrder(log) && n < |log| && log[n].correctionOf == Some(t)
    ensures HasTransition(log, t)
  {
    var i :| 0 <= i < |log[..n]| && log[..n][i].transitionId == t;
    assert log[i].transitionId == t;
  }

  predicate Puttable(bucket: map<EvidenceId, Object>, item: Item, marker: string)
  {
    item.reference.objectKey in bucket ==> bucket[item.reference.objectKey] == Object(item.content, ByMarker(marker))
  }

  lemma {:induction false} PutItemsExactly(bucket: map<EvidenceId, Object>, items: seq<Item>, marker: string)
    requires forall i, j :: 0 <= i < j < |items| ==> items[i].reference.objectKey != items[j].reference.objectKey
    ensures PutItems(bucket, items, marker).Ok? <==> forall i :: 0 <= i < |items| ==> Puttable(bucket, items[i], marker)
    ensures PutItems(bucket, items, marker).Ok? ==>
              forall k :: (forall i :: 0 <= i < |items| ==> items[i].reference.objectKey != k) ==>
                (k in PutItems(bucket, items, marker).value <==> k in bucket)
                && (k in bucket ==> PutItems(bucket, items, marker).value[k] == bucket[k])
  {
    if items != [] {
      var before, last := items[..|items| - 1], items[|items| - 1];
      PutItemsExactly(bucket, before, marker);
      assert forall i :: 0 <= i < |before| ==> before[i].reference.objectKey != last.reference.objectKey;
      if PutItems(bucket, before, marker).Ok? {
        assert Puttable(PutItems(bucket, before, marker).value, last, marker) <==> Puttable(bucket, last, marker);
      }
    }
  }

  /** Every item put is there afterwards, and every object present before. */
  lemma {:induction false} PutItemsStore(bucket: map<EvidenceId, Object>, items: seq<Item>, marker: string)
    requires PutItems(bucket, items, marker).Ok?
    ensures forall k :: k in bucket ==>
              k in PutItems(bucket, items, marker).value && PutItems(bucket, items, marker).value[k] == bucket[k]
    ensures forall i :: 0 <= i < |items| ==> Stored(PutItems(bucket, items, marker).value, items[i], marker)
  {
    if items != [] {
      var before, last := items[..|items| - 1], items[|items| - 1];
      PutItemsStore(bucket, before, marker);
      assert forall i :: 0 <= i < |before| ==> before[i] == items[i];
    }
  }

  predicate Stored(bucket: map<EvidenceId, Object>, item: Item, marker: string)
  {
    item.reference.objectKey in bucket && bucket[item.reference.objectKey] == Object(item.content, ByMarker(marker))
  }

  /** Nothing else is put. */
  lemma {:induction false} PutItemsOnly(bucket: map<EvidenceId, Object>, items: seq<Item>, marker: string, k: EvidenceId)
    requires PutItems(bucket, items, marker).Ok? && k in PutItems(bucket, items, marker).value && k !in bucket
    ensures exists i :: 0 <= i < |items| && items[i].reference.objectKey == k
  {
    var before, last := items[..|items| - 1], items[|items| - 1];
    if k != last.reference.objectKey {
      PutItemsOnly(bucket, before, marker, k);
      var i :| 0 <= i < |before| && before[i].reference.objectKey == k;
      assert items[i] == before[i];
    }
  }

  lemma {:induction false} EntitiesBack(entities: seq<(nat, Entity)>)
    requires forall i, j :: 0 <= i < j < |entities| ==> entities[i].0 != entities[j].0
    ensures forall id :: id in InsertedEntities(entities) <==> exists i :: 0 <= i < |entities| && entities[i].0 == id
    ensures forall i :: 0 <= i < |entities| ==>
              entities[i].0 in InsertedEntities(entities) && InsertedEntities(entities)[entities[i].0] == entities[i].1
  {
    if entities != [] {
      var before := entities[..|entities| - 1];
      EntitiesBack(before);
      forall id ensures id in InsertedEntities(entities) <==> exists i :: 0 <= i < |entities| && entities[i].0 == id {
        if i :| 0 <= i < |before| && before[i].0 == id { assert entities[i].0 == id; }
      }
    }
  }

  lemma {:induction false} ReferencesBack(items: seq<Item>)
    requires forall i, j :: 0 <= i < j < |items| ==> items[i].id != items[j].id
    ensures forall id :: id in InsertedReferences(items) <==> exists i :: 0 <= i < |items| && items[i].id == id
    ensures forall i :: 0 <= i < |items| ==>
              items[i].id in InsertedReferences(items) && InsertedReferences(items)[items[i].id] == items[i].reference
  {
    if items != [] {
      var before := items[..|items| - 1];
      ReferencesBack(before);
      forall id ensures id in InsertedReferences(items) <==> exists i :: 0 <= i < |items| && items[i].id == id {
        if i :| 0 <= i < |before| && before[i].id == id { assert items[i].id == id; }
      }
    }
  }

  predicate RowsDiffer(a: Row, b: Row)
  {
    a.transitionId != b.transitionId && a.commandId != b.commandId
  }

  lemma DifferentRows(log: seq<Row>, a: Row, b: Row)
    requires LogKeysUnique(log) && a in log && b in log && a != b
    ensures RowsDiffer(a, b)
  {
    var i :| 0 <= i < |log| && log[i] == a;
    var j :| 0 <= j < |log| && log[j] == b;
    if i < j { assert RowsDiffer(log[i], log[j]); } else { assert RowsDiffer(log[j], log[i]); }
  }

  lemma {:induction false} OfKeysUnique(log: seq<Row>, id: nat)
    requires LogKeysUnique(log)
    ensures LogKeysUnique(Of(log, id))
  {
    if log != [] {
      var before := log[..|log| - 1];
      OfKeysUnique(before, id);
      forall i | 0 <= i < |Of(before, id)| ensures RowsDiffer(Of(before, id)[i], log[|log| - 1]) {
        OfMembers(before, id, Of(before, id)[i]);
        var k :| 0 <= k < |before| && before[k] == Of(before, id)[i];
        assert log[k] == before[k];
      }
    }
  }

  lemma {:induction false} GroupedKeysUnique(log: seq<Row>, order: seq<nat>)
    requires LogKeysUnique(log) && NoRepeats(order)
    ensures LogKeysUnique(Grouped(log, order))
  {
    if order != [] {
      var before, last := order[..|order| - 1], order[|order| - 1];
      GroupedKeysUnique(log, before);
      OfKeysUnique(log, last);
      var a, b := Grouped(log, before), Of(log, last);
      forall i, j | 0 <= i < |a| && 0 <= j < |b| ensures RowsDiffer(a[i], b[j]) {
        GroupedMembers(log, before, a[i]);
        OfMembers(log, last, b[j]);
        DifferentRows(log, a[i], b[j]);
      }
    }
  }

  lemma BackupKeysUnique(s: Store, order: seq<nat>, ids: seq<EvidenceId>, marker: string)
    requires Sound(s) && Covers(s, order, ids)
    ensures TakeBackup(s, order, ids, marker).Some? && KeysUnique(TakeBackup(s, order, ids, marker).value)
  {
    hide HistorySound, InsertsInOrder;
    GroupedKeysUnique(s.log, order);
  }

  lemma ItemsOf(s: Store, order: seq<nat>, ids: seq<EvidenceId>, marker: string)
    requires Sound(s) && Covers(s, order, ids)
    ensures TakeBackup(s, order, ids, marker).Some?
    ensures var items := TakeBackup(s, order, ids, marker).value.items;
            |items| == |ids| && forall i :: 0 <= i < |ids| ==>
              items[i] == Item(ids[i], s.evidence[ids[i]], ids[i].content, marker) && s.evidence[ids[i]].objectKey == ids[i]
  {
    hide HistorySound, InsertsInOrder, LogKeysUnique;
  }

  /** Nothing else in the bucket under any of the backup's evidence keys. */
  predicate BucketClear(s: Store, target: Store, marker: string)
  {
    forall e :: e in s.evidence && e in target.bucket ==> target.bucket[e] == Object(e.content, ByMarker(marker))
  }

  lemma BucketExactly(s: Store, target: Store, order: seq<nat>, ids: seq<EvidenceId>, marker: string)
    requires Sound(s) && Covers(s, order, ids)
    ensures TakeBackup(s, order, ids, marker).Some?
    ensures PutItems(target.bucket, TakeBackup(s, order, ids, marker).value.items, marker).Ok? <==> BucketClear(s, target, marker)
  {
    ItemsOf(s, order, ids, marker);
    var items := TakeBackup(s, order, ids, marker).value.items;
    hide Sound, TakeBackup;
    PutItemsExactly(target.bucket, items, marker);
    forall i | 0 <= i < |items|
      ensures Puttable(target.bucket, items[i], marker) <==>
              (ids[i] in target.bucket ==> target.bucket[ids[i]] == Object(ids[i].content, ByMarker(marker)))
    {
    }
    if BucketClear(s, target, marker) {
      forall i | 0 <= i < |items| ensures Puttable(target.bucket, items[i], marker) { assert ids[i] in s.evidence; }
    }
    if forall i :: 0 <= i < |items| ==> Puttable(target.bucket, items[i], marker) {
      forall e | e in s.evidence && e in target.bucket ensures target.bucket[e] == Object(e.content, ByMarker(marker)) {
        var i :| 0 <= i < |ids| && ids[i] == e;
        assert Puttable(target.bucket, items[i], marker);
      }
    }
  }

  lemma EntitiesTable(s: Store, order: seq<nat>)
    requires NoRepeats(order) && forall id :: id in s.entities <==> id in order
    ensures InsertedEntities(seq(|order|, i requires 0 <= i < |order| => (order[i], s.entities[order[i]]))) == s.entities
  {
    var rows := seq(|order|, i requires 0 <= i < |order| => (order[i], s.entities[order[i]]));
    EntitiesBack(rows);
    hide InsertedEntities;
    forall id ensures id in InsertedEntities(rows) <==> id in s.entities {
      if id in s.entities {
        var i :| 0 <= i < |order| && order[i] == id;
        assert rows[i].0 == id;
      }
    }
  }

  lemma {:induction false} EvidenceTable(s: Store, ids: seq<EvidenceId>, items: seq<Item>)
    requires NoRepeats(ids) && (forall e :: e in s.evidence <==> e in ids) && |items| == |ids|
    requires forall i :: 0 <= i < |ids| ==> items[i].id == ids[i] && items[i].reference == s.evidence[ids[i]]
    ensures InsertedReferences(items) == s.evidence
  {
    ReferencesBack(items);
    hide InsertedReferences;
    forall e ensures e in InsertedReferences(items) <==> e in s.evidence {
      if e in s.evidence {
        var i :| 0 <= i < |ids| && ids[i] == e;
        assert items[i].id == e;
      }
    }
  }

  lemma TablesBack(s: Store, order: seq<nat>, ids: seq<EvidenceId>, marker: string)
    requires Sound(s) && Covers(s, order, ids)
    ensures TakeBackup(s, order, ids, marker).Some?
    ensures var b := TakeBackup(s, order, ids, marker).value;
            && InsertedEntities(b.entities) == s.entities
            && InsertedReferences(b.items) == s.evidence
            && b.transitions == Grouped(s.log, order)
            && forall id :: id in s.entities ==> Of(b.transitions, id) == Of(s.log, id)
  {
    hide Sound, InsertedEntities, InsertedReferences, Verifies, Of, Grouped;
    ItemsOf(s, order, ids, marker);
    EntitiesTable(s, order);
    EvidenceTable(s, ids, TakeBackup(s, order, ids, marker).value.items);
    forall id | id in s.entities ensures Of(Grouped(s.log, order), id) == Of(s.log, id) { OfGrouped(s.log, order, id); }
  }

  /** The backup of any reachable store restores, over any tables, exactly when
      nothing else is stored in the bucket under its evidence keys and no row
      corrects one of an entity later in order.  It then reproduces the entities,
      every entity's history and the evidence. */
  lemma RestoreReproduces(s: Store, target: Store, order: seq<nat>, ids: seq<EvidenceId>, marker: string)
    requires Sound(s) && Covers(s, order, ids)
    ensures TakeBackup(s, order, ids, marker).Some?
    ensures var r := Restore(target, TakeBackup(s, order, ids, marker).value);
            && (r.1.Ok? <==> BucketClear(s, target, marker) && CorrectionsPointBack(s.log))
            && (r.1.Ok? ==>
                  && r.0.entities == s.entities && r.0.evidence == s.evidence
                  && (forall id :: id in s.entities ==> Of(r.0.log, id) == Of(s.log, id))
                  && (forall row :: row in r.0.log <==> row in s.log))
  {
    BackupPassesChecks(s, order, ids, marker);
    BackupKeysUnique(s, order, ids, marker);
    BucketExactly(s, target, order, ids, marker);
    TablesBack(s, order, ids, marker);
    RowsBack(s, order);
    MarkerOf(s, order, ids, marker);
    GroupedInsertsExactly(s, order);
    hide Sound, Covers, TakeBackup, Grouped, BucketClear, ItemsFit, RowsFit, VersionsFit, KeysUnique, InsertsInOrder, PutItems, Of;
  }

  lemma MarkerOf(s: Store, order: seq<nat>, ids: seq<EvidenceId>, marker: string)
    requires (forall i :: 0 <= i < |order| ==> order[i] in s.entities) && TakeBackup(s, order, ids, marker).Some?
    ensures TakeBackup(s, order, ids, marker).value.marker == marker
  {
  }

  lemma RowsBack(s: Store, order: seq<nat>)
    requires Sound(s) && forall id :: id in s.entities <==> id in order
    ensures forall row :: row in Grouped(s.log, order) <==> row in s.log
  {
    hide HistorySound, InsertsInOrder, LogKeysUnique;
    forall row ensures row in Grouped(s.log, order) <==> row in s.log { GroupedMembers(s.log, order, row); }
  }

  /** What restores is a sound store again, whatever tables it replaces, so a run
      may go on from it. */
  lemma RestoredIsSound(s: Store, target: Store, order: seq<nat>, ids: seq<EvidenceId>, marker: string)
    requires Sound(s) && Covers(s, order, ids) && forall k :: k in target.bucket ==> target.bucket[k].content == k.content
    ensures TakeBackup(s, order, ids, marker).Some?
    ensures var r := Restore(target, TakeBackup(s, order, ids, marker).value); r.1.Ok? ==> Sound(r.0)
  {
    RestoreReproduces(s, target, order, ids, marker);
    var b := TakeBackup(s, order, ids, marker).value;
    var r := Restore(target, b);
    if r.1.Ok? {
      RestoredLog(s, target, b);
      RestoredBucket(s, target, order, ids, marker);
      hide Covers, TakeBackup, Restore, HistorySound, InsertsInOrder, LogKeysUnique, BucketClear, CorrectionsPointBack, Of;
      forall i | 0 <= i < |r.0.log| ensures r.0.log[i].change.entityId in s.entities && r.0.log[i].change.evidence in s.evidence {
        assert r.0.log[i] in s.log;
      }
    }
  }

  lemma RestoredLog(s: Store, target: Store, b: Backup)
    requires Restore(target, b).1.Ok?
    ensures InsertsInOrder(Restore(target, b).0.log) && LogKeysUnique(Restore(target, b).0.log)
  {
    hide InsertsInOrder, LogKeysUnique, ItemsFit, RowsFit, VersionsFit, PutItems;
  }

  lemma RestoredBucket(s: Store, target: Store, order: seq<nat>, ids: seq<EvidenceId>, marker: string)
    requires Sound(s) && Covers(s, order, ids) && forall k :: k in target.bucket ==> target.bucket[k].content == k.content
    requires TakeBackup(s, order, ids, marker).Some?
    requires Restore(target, TakeBackup(s, order, ids, marker).value).1.Ok?
    requires Restore(target, TakeBackup(s, order, ids, marker).value).0.evidence == s.evidence
    ensures var t := Restore(target, TakeBackup(s, order, ids, marker).value).0;
            && (forall id :: id in t.evidence ==> Verifies(t, id) && t.evidence[id].objectKey == id)
            && (forall k :: k in t.bucket ==> t.bucket[k].content == k.content)
  {
    var b := TakeBackup(s, order, ids, marker).value;
    var t := Restore(target, b).0;
    ItemsOf(s, order, ids, marker);
    MarkerOf(s, order, ids, marker);
    BucketOf(target, b);
    PutItemsStore(target.bucket, b.items, marker);
    EvidenceSizes(s);
    hide Sound, TakeBackup, Restore, PutItems;
    forall id | id in t.evidence ensures Verifies(t, id) && t.evidence[id].objectKey == id {
      var i :| 0 <= i < |ids| && ids[i] == id;
      assert Stored(t.bucket, b.items[i], marker);
    }
    forall k | k in t.bucket ensures t.bucket[k].content == k.content {
      if k !in target.bucket {
        PutItemsOnly(target.bucket, b.items, marker, k);
        var i :| 0 <= i < |b.items| && b.items[i].reference.objectKey == k;
        assert Stored(t.bucket, b.items[i], marker);
      }
    }
  }

  lemma EvidenceSizes(s: Store)
    requires Sound(s)
    ensures forall id :: id in s.evidence ==>
              s.evidence[id].objectKey == id && s.evidence[id].size == |id.content| <= MAX_EVIDENCE_BYTES
  {
    hide HistorySound, InsertsInOrder, LogKeysUnique;
  }

  lemma BucketOf(target: Store, b: Backup)
    requires Restore(target, b).1.Ok?
    ensures PutItems(target.bucket, b.items, b.marker).Ok?
    ensures Restore(target, b).0.bucket == PutItems(target.bucket, b.items, b.marker).value
  {
    hide InsertsInOrder, LogKeysUnique, ItemsFit, RowsFit, VersionsFit, PutItems;
  }

  /******* The size of a backup *******/

  function EvidenceBytes(s: Store, ids: seq<EvidenceId>): nat
    requires forall i :: 0 <= i < |ids| ==> ids[i] in s.evidence
  {
    if ids == [] then 0
    else EvidenceBytes(s, ids[..|ids| - 1]) + s.evidence[ids[|ids| - 1]].size
  }

  /** `backup`, bounded in the evidence it would carry and in its own encoding;
      the length of the encoding is the parameter. */
  function Export(s: Store, order: seq<nat>, ids: seq<EvidenceId>, marker: string, length: Backup -> nat): Result<Backup, Error>
    requires (forall i :: 0 <= i < |order| ==> order[i] in s.entities) && forall i :: 0 <= i < |ids| ==> ids[i] in s.evidence
  {
    if EvidenceBytes(s, ids) > MAX_BACKUP_BYTES then Err(TooLarge)
    else match TakeBackup(s, order, ids, marker)
      case None => Err(DigestMismatch)
      case Some(b) => if length(b) > MAX_BACKUP_BYTES then Err(TooLarge) else Ok(b)
  }

  function Import(s: Store, b: Backup, length: Backup -> nat): (Store, Result<(), Error>)
  {
    if length(b) > MAX_BACKUP_BYTES then (s, Err(TooLarge)) else Restore(s, b)
  }

  /** A backup of a reachable store is refused only for its size; one that was
      taken is never too large to restore. */
  lemma ExportRoundTrip(s: Store, target: Store, order: seq<nat>, ids: seq<EvidenceId>, marker: string, length: Backup -> nat)
    requires Sound(s) && Covers(s, order, ids)
    ensures TakeBackup(s, order, ids, marker).Some?
    ensures var b := TakeBackup(s, order, ids, marker).value;
            var exported := Export(s, order, ids, marker, length);
            && (exported.Ok? <==> EvidenceBytes(s, ids) <= MAX_BACKUP_BYTES && length(b) <= MAX_BACKUP_BYTES)
            && (exported.Ok? ==> exported.value == b && Import(target, b, length) == Restore(target, b))
  {
    BackupPassesChecks(s, order, ids, marker);
    hide Sound, TakeBackup, Restore;
  }

  /******* Corrections across entities *******/

  /** No row corrects a row of an entity later in order. */
  predicate CorrectionsPointBack(log: seq<Row>)
  {
    forall i, j :: 0 <= i < |log| && 0 <= j < |log| && log[i].correctionOf == Some(log[j].transitionId) ==>
      log[j].change.entityId <= log[i].change.entityId
  }

  /** The one row is listed before the other. */
  ghost predicate Precedes(rows: seq<Row>, a: Row, b: Row)
  {
    exists i, j :: 0 <= i < j < |rows| && rows[i] == a && rows[j] == b
  }

  lemma PrecedesLeft(rows: seq<Row>, more: seq<Row>, a: Row, b: Row)
    requires Precedes(rows, a, b)
    ensures Precedes(rows + more, a, b)
  {
    var i, j :| 0 <= i < j < |rows| && rows[i] == a && rows[j] == b;
    assert (rows + more)[i] == a && (rows + more)[j] == b;
  }

  lemma PrecedesRight(before: seq<Row>, rows: seq<Row>, a: Row, b: Row)
    requires Precedes(rows, a, b)
    ensures Precedes(before + rows, a, b)
  {
    var i, j :| 0 <= i < j < |rows| && rows[i] == a && rows[j] == b;
    assert (before + rows)[|before| + i] == a && (before + rows)[|before| + j] == b;
  }

  lemma PrecedesAcross(before: seq<Row>, rows: seq<Row>, a: Row, b: Row)
    requires a in before && b in rows
    ensures Precedes(before + rows, a, b)
  {
    var i :| 0 <= i < |before| && before[i] == a;
    var j :| 0 <= j < |rows| && rows[j] == b;
    assert (before + rows)[i] == a && (before + rows)[|before| + j] == b;
  }

  /** Rows of one entity keep their order among themselves. */
  lemma {:induction false} OfKeepsOrder(log: seq<Row>, id: nat, i: nat, j: nat)
    requires i < j < |log| && log[i].change.entityId == id == log[j].change.entityId
    ensures Precedes(Of(log, id), log[i], log[j])
  {
    var before, row := log[..|log| - 1], log[|log| - 1];
    if j == |log| - 1 {
      OfMembers(before, id, log[i]);
      assert before[i] == log[i];
      PrecedesAcross(Of(before, id), [row], log[i], log[j]);
    } else {
      OfKeepsOrder(before, id, i, j);
      PrecedesLeft(Of(before, id), if row.change.entityId == id then [row] else [], log[i], log[j]);
    }
  }

  /** In entity order a row precedes those of later entities, and those that came
      after it within its own. */
  lemma {:induction false} GroupedOrder(log: seq<Row>, order: seq<nat>, i: nat, j: nat)
    requires Ascending(order) && i < |log| && j < |log|
    requires log[i].change.entityId in order && log[j].change.entityId in order
    requires log[i].change.entityId < log[j].change.entityId || (log[i].change.entityId == log[j].change.entityId && i < j)
    ensures Precedes(Grouped(log, order), log[i], log[j])
  {
    var before, last := order[..|order| - 1], order[|order| - 1];
    assert forall id :: id in order <==> id in before || id == last;
    assert forall id :: id in before ==> id < last;
    if log[j].change.entityId == last {
      OfMembers(log, last, log[j]);
      if log[i].change.entityId == last {
        OfKeepsOrder(log, last, i, j);
        PrecedesRight(Grouped(log, before), Of(log, last), log[i], log[j]);
      } else {
        GroupedMembers(log, before, log[i]);
        PrecedesAcross(Grouped(log, before), Of(log, last), log[i], log[j]);
      }
    } else {
      GroupedOrder(log, before, i, j);
      PrecedesLeft(Grouped(log, before), Of(log, last), log[i], log[j]);
    }
  }

  lemma SamePlace(rows: seq<Row>, i: nat, j: nat)
    requires LogKeysUnique(rows) && i < |rows| && j < |rows| && rows[i] == rows[j]
    ensures i == j
  {
  }

  /** Where rows are told apart by their identity, order is one way only. */
  lemma PrecedesOneWay(rows: seq<Row>, a: Row, b: Row)
    requires LogKeysUnique(rows) && Precedes(rows, a, b)
    ensures !Precedes(rows, b, a) && a != b
  {
    var i, j :| 0 <= i < j < |rows| && rows[i] == a && rows[j] == b;
    assert RowsDiffer(rows[i], rows[j]);
  }

  /** A correction goes in when the row it names is there already. */
  lemma InsertsByPrecedence(rows: seq<Row>, p: nat)
    requires LogKeysUnique(rows) && p < |rows| && rows[p].correctionOf.Some?
    ensures HasTransition(rows[..p], rows[p].correctionOf.value) <==>
              exists a: Row :: a.transitionId == rows[p].correctionOf.value && Precedes(rows, a, rows[p])
  {
    if HasTransition(rows[..p], rows[p].correctionOf.value) {
      var q :| 0 <= q < p && rows[..p][q].transitionId == rows[p].correctionOf.value;
      assert rows[q] == rows[..p][q];
      assert Precedes(rows, rows[q], rows[p]);
    }
    if a: Row :| a.transitionId == rows[p].correctionOf.value && Precedes(rows, a, rows[p]) {
      var i, j :| 0 <= i < j < |rows| && rows[i] == a && rows[j] == rows[p];
      SamePlace(rows, j, p);
      assert rows[..p][i] == a;
    }
  }

  lemma RowAt(log: seq<Row>, row: Row) returns (i: nat)
    requires row in log
    ensures i < |log| && log[i] == row
  {
    i :| 0 <= i < |log| && log[i] == row;
  }

  /** What the two directions below start from. */
  ghost predicate Listing(log: seq<Row>, order: seq<nat>)
  {
    && LogKeysUnique(log) && Ascending(order)
    && forall i :: 0 <= i < |log| ==> log[i].change.entityId in order
  }

  lemma ListingOf(s: Store, order: seq<nat>)
    requires Sound(s) && Ascending(order) && forall id :: id in s.entities <==> id in order
    ensures Listing(s.log, order) && InsertsInOrder(s.log) && LogKeysUnique(Grouped(s.log, order))
  {
    hide HistorySound, InsertsInOrder;
    GroupedKeysUnique(s.log, order);
  }

  lemma InsertedPointsBack(log: seq<Row>, order: seq<nat>, i: nat, j: nat)
    requires Listing(log, order) && LogKeysUnique(Grouped(log, order)) && InsertsInOrder(Grouped(log, order))
    requires i < |log| && j < |log| && log[i].correctionOf == Some(log[j].transitionId)
    ensures log[j].change.entityId <= log[i].change.entityId
  {
    hide LogKeysUnique, Precedes, Grouped;
    var rows := Grouped(log, order);
    GroupedMembers(log, order, log[i]);
    var p := RowAt(rows, log[i]);
    InsertsByPrecedence(rows, p);
    var a: Row :| a.transitionId == log[j].transitionId && Precedes(rows, a, log[i]);
    PrecedesMembers(rows, a, log[i]);
    GroupedMembers(log, order, a);
    if a != log[j] { DifferentRows(log, a, log[j]); }
    if log[j].change.entityId > log[i].change.entityId {
      GroupedOrder(log, order, i, j);
      PrecedesOneWay(rows, log[i], log[j]);
    }
  }

  lemma PrecedesMembers(rows: seq<Row>, a: Row, b: Row)
    requires Precedes(rows, a, b)
    ensures a in rows && b in rows
  {
  }

  lemma PointingBackInserts(log: seq<Row>, order: seq<nat>, p: nat)
    requires Listing(log, order) && LogKeysUnique(Grouped(log, order)) && InsertsInOrder(log) && CorrectionsPointBack(log)
    requires p < |Grouped(log, order)| && Grouped(log, order)[p].correctionOf.Some?
    ensures HasTransition(Grouped(log, order)[..p], Grouped(log, order)[p].correctionOf.value)
  {
    hide LogKeysUnique, Precedes, Grouped;
    var rows := Grouped(log, order);
    GroupedMembers(log, order, rows[p]);
    var i := RowAt(log, rows[p]);
    assert HasTransition(log[..i], rows[p].correctionOf.value);
    var j :| 0 <= j < |log[..i]| && log[..i][j].transitionId == rows[p].correctionOf.value;
    assert log[..i][j] == log[j];
    GroupedOrder(log, order, j, i);
    InsertsByPrecedence(rows, p);
  }

  /** Rows in entity order insert one by one exactly when corrections point back. */
  lemma GroupedInsertsExactly(s: Store, order: seq<nat>)
    requires Sound(s) && Ascending(order) && forall id :: id in s.entities <==> id in order
    ensures InsertsInOrder(Grouped(s.log, order)) <==> CorrectionsPointBack(s.log)
  {
    hide Sound, Grouped, LogKeysUnique, HasTransition, Listing;
    ListingOf(s, order);
    var rows := Grouped(s.log, order);
    if InsertsInOrder(rows) {
      forall i, j | 0 <= i < |s.log| && 0 <= j < |s.log| && s.log[i].correctionOf == Some(s.log[j].transitionId)
        ensures s.log[j].change.entityId <= s.log[i].change.entityId
      {
        InsertedPointsBack(s.log, order, i, j);
      }
    }
    if CorrectionsPointBack(s.log) {
      forall p | 0 <= p < |rows| && rows[p].correctionOf.Some? ensures HasTransition(rows[..p], rows[p].correctionOf.value) {
        PointingBackInserts(s.log, order, p);
      }
    }
  }

  predicate CorrectsOwn(log: seq<Row>, row: Row)
  {
    row.correctionOf.Some? ==>
      forall i :: 0 <= i < |log| && log[i].transitionId == row.correctionOf.value ==> log[i].change.entityId == row.change.entityId
  }

  lemma {:induction false} OfInsertsInOrder(log: seq<Row>, id: nat)
    requires InsertsInOrder(log) && forall i :: 0 <= i < |log| ==> CorrectsOwn(log, log[i])
    ensures InsertsInOrder(Of(log, id))
  {
    if log != [] {
      var n := |log| - 1;
      var before, row := log[..n], log[n];
      forall i | 0 <= i < n && before[i].correctionOf.Some? ensures HasTransition(before[..i], before[i].correctionOf.value) {
        assert before[..i] == log[..i] && before[i] == log[i];
      }
      forall i | 0 <= i < n ensures CorrectsOwn(before, before[i]) { assert CorrectsOwn(log, log[i]); }
      OfInsertsInOrder(before, id);
      var own := Of(before, id);
      if row.change.entityId == id {
        if row.correctionOf.Some? {
          assert HasTransition(log[..n], row.correctionOf.value) && CorrectsOwn(log, row);
          var k :| 0 <= k < n && before[k].transitionId == row.correctionOf.value;
          assert log[k] == before[k];
          OfMembers(before, id, before[k]);
          var m :| 0 <= m < |own| && own[m] == before[k];
          assert HasTransition(own, row.correctionOf.value);
        }
        InsertAppended(own, row);
      } else {
        assert own + [] == own;
      }
    }
  }

  lemma InsertAppended(rows: seq<Row>, row: Row)
    requires InsertsInOrder(rows) && (row.correctionOf.Some? ==> HasTransition(rows, row.correctionOf.value))
    ensures InsertsInOrder(rows + [row])
  {
    forall i | 0 <= i < |rows| + 1 && (rows + [row])[i].correctionOf.Some?
      ensures HasTransition((rows + [row])[..i], (rows + [row])[i].correctionOf.value)
    {
      assert (rows + [row])[..i] == rows[..i] && rows[..|rows|] == rows;
    }
  }

  lemma InsertConcat(a: seq<Row>, b: seq<Row>)
    requires InsertsInOrder(a) && InsertsInOrder(b)
    ensures InsertsInOrder(a + b)
  {
    var rows := a + b;
    forall i | 0 <= i < |rows| && rows[i].correctionOf.Some? ensures HasTransition(rows[..i], rows[i].correctionOf.value) {
      if i < |a| {
        assert rows[..i] == a[..i] && rows[i] == a[i];
      } else {
        var k := i - |a|;
        assert rows[i] == b[k] && HasTransition(b[..k], b[k].correctionOf.value);
        var m :| 0 <= m < k && b[..k][m].transitionId == b[k].correctionOf.value;
        assert rows[..i][|a| + m] == b[..k][m];
      }
    }
  }

  /** A store whose corrections stay within their entity always restores into an
      empty bucket. */
  lemma {:induction false} OwnCorrectionsRestore(log: seq<Row>, order: seq<nat>)
    requires InsertsInOrder(log) && forall i :: 0 <= i < |log| ==> CorrectsOwn(log, log[i])
    ensures InsertsInOrder(Grouped(log, order))
  {
    if order != [] {
      OwnCorrectionsRestore(log, order[..|order| - 1]);
      OfInsertsInOrder(log, order[|order| - 1]);
      InsertConcat(Grouped(log, order[..|order| - 1]), Of(log, order[|order| - 1]));
    }
  }

  const SampleEvidence := Sha256Of("e")
  const FirstRow := Row(10, 100, Change(2, AGENT, "a", REGISTERED, SampleEvidence, ""), 1, 0, None)
  const CorrectingRow := Row(11, 101, Change(1, AGENT, "a", REGISTERED, SampleEvidence, ""), 1, 0, Some(10))

  const CrossStore := Store(
    map[1 := Entity(AGENT, 1, REGISTERED, 0), 2 := Entity(AGENT, 1, REGISTERED, 0)],
    [FirstRow, CorrectingRow],
    map[SampleEvidence := Reference(SampleEvidence, 1, "")],
    map[SampleEvidence := Object("e", ByTrace(""))])

  /** The store that three operations lead to. */
  const CrossEvents := [
    Put("e", "", ""),
    Apply(100, 0, FirstRow.change, None, 0, 10),
    Apply(101, 0, CorrectingRow.change, Some(10), 0, 11)]

  const SampleReferences := map[SampleEvidence := Reference(SampleEvidence, 1, "")]
  const SampleBucket := map[SampleEvidence := Object("e", ByTrace(""))]
  const PutStore := Store(map[], [], SampleReferences, SampleBucket)
  const FirstStore := Store(map[2 := Entity(AGENT, 1, REGISTERED, 0)], [FirstRow], SampleReferences, SampleBucket)

  lemma CrossPuts()
    ensures PutEvidence(EmptyStore, "e", "", "").0 == PutStore
  {
  }

  lemma CrossFirst()
    ensures Transition(PutStore, 100, 0, FirstRow.change, None, 0, 10).0 == FirstStore
  {
    assert Legal(AGENT, None, REGISTERED);
    hide Legal;
    assert [] + [FirstRow] == [FirstRow];
  }

  lemma CrossSecond()
    ensures Transition(FirstStore, 101, 0, CorrectingRow.change, Some(10), 0, 11).0 == CrossStore
  {
    assert Legal(AGENT, None, REGISTERED);
    assert FindCommand([FirstRow], 101).None? by { assert [FirstRow][..0] == []; }
    assert HasTransition(FirstStore.log, 10) by { assert FirstStore.log[0].transitionId == 10; }
    hide Legal, FindCommand, HasTransition;
    assert !HasTransition(FirstStore.log, 11) by { NoSuchTransition(); }
    assert [FirstRow] + [CorrectingRow] == [FirstRow, CorrectingRow];
    assert CrossStore.entities == FirstStore.entities[1 := Entity(AGENT, 1, REGISTERED, 0)];
  }

  lemma NoSuchTransition()
    ensures !HasTransition(FirstStore.log, 11)
  {
  }

  lemma CrossIsReached() returns (states: seq<Store>)
    ensures IsRun(states, CrossEvents) && |states| == 4 && states[0] == EmptyStore && states[3] == CrossStore
  {
    hide PutEvidence, Transition;
    CrossPuts();
    CrossFirst();
    CrossSecond();
    states := [EmptyStore, PutStore, FirstStore, CrossStore];
  }

  /** A correction may name a row of another entity.  When that entity comes later
      in order, the store is reached, its backup is taken, and it does not restore
      anywhere. */
  lemma CrossCorrectionDoesNotRestore(target: Store) returns (states: seq<Store>)
    ensures IsRun(states, CrossEvents) && states[0] == EmptyStore && states[3] == CrossStore
    ensures Covers(CrossStore, [1, 2], [SampleEvidence])
    ensures TakeBackup(CrossStore, [1, 2], [SampleEvidence], "m").Some?
    ensures Restore(target, TakeBackup(CrossStore, [1, 2], [SampleEvidence], "m").value).1.Err?
  {
    states := CrossIsReached();
    EmptyStoreIsSound();
    StoreStaysSound(states, CrossEvents, 3);
    hide Sound, Grouped, InsertsInOrder, TakeBackup, Restore, IsRun;
    assert Covers(CrossStore, [1, 2], [SampleEvidence]);
    RestoreReproduces(CrossStore, target, [1, 2], [SampleEvidence], "m");
    assert CrossStore.log[1].correctionOf == Some(CrossStore.log[0].transitionId);
  }
}
