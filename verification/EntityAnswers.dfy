/** What the entity store accepts and what accepting leaves on record: transitions
    under an expected version, and evidence. */
module EntityAnswers {
  import opened Contracts
  import opened EntityStore

  /** Every step of a life there is, kind by kind. */
  predicate Listed(k: EntityKind, a: State, b: State)
  {
    match k
    case AGENT =>
      (a, b) in {(REGISTERED, AVAILABLE), (AVAILABLE, SUSPENDED), (AVAILABLE, RETIRED),
                 (SUSPENDED, AVAILABLE), (SUSPENDED, RETIRED)}
    case OBJECTIVE =>
      (a, b) in {(PROPOSED, ACTIVE), (ACTIVE, WAITING), (WAITING, ACTIVE), (ACTIVE, SATISFIED),
                 (ACTIVE, FAILED), (WAITING, FAILED), (PROPOSED, CANCELLED), (ACTIVE, CANCELLED), (WAITING, CANCELLED)}
    case ACTIVATION =>
      || (a, b) in {(REQUESTED, LEASED), (LEASED, PREPARING), (PREPARING, RUNNING)}
      || (a == RUNNING && b in {WAITING_CONTEXT, WAITING_EFFECT, SLEEPING, COMPLETED})
      || (b == FAILED && a in {LEASED, PREPARING, RUNNING})
      || (b == CANCELLED && a in {REQUESTED, LEASED, PREPARING, RUNNING})
    case WAKE =>
      (a, b) in {(PENDING, LEASED), (LEASED, ACKNOWLEDGED), (LEASED, RELEASED), (LEASED, EXPIRED)}
  }

  predicate Born(k: EntityKind, s: State)
  {
    (k, s) in {(AGENT, REGISTERED), (OBJECTIVE, PROPOSED), (ACTIVATION, REQUESTED), (WAKE, PENDING)}
  }

  lemma ListedIsLegal(k: EntityKind, a: State, b: State)
    ensures Legal(k, Some(a), b) <==> Listed(k, a, b)
  {
    hide Legal, Listed;
    match k
    case AGENT => AgentListed(a, b);
    case OBJECTIVE => ObjectiveListed(a, b);
    case ACTIVATION => ActivationListed(a, b);
    case WAKE => WakeListed(a, b);
  }

  lemma BornIsLegal(k: EntityKind, b: State)
    ensures Legal(k, None, b) <==> Born(k, b)
  {
  }

  lemma AgentListed(a: State, b: State)
    ensures Legal(AGENT, Some(a), b) <==> Listed(AGENT, a, b)
  {
  }

  lemma ObjectiveListed(a: State, b: State)
    ensures Legal(OBJECTIVE, Some(a), b) <==> Listed(OBJECTIVE, a, b)
  {
  }

  lemma ActivationListed(a: State, b: State)
    ensures Legal(ACTIVATION, Some(a), b) <==> Listed(ACTIVATION, a, b)
  {
  }

  lemma WakeListed(a: State, b: State)
    ensures Legal(WAKE, Some(a), b) <==> Listed(WAKE, a, b)
  {
  }

  /** Over every run each entity is of one kind, born as its kind is, and has moved
      by listed steps only; its present row is where the last of them led. */
  lemma LivesAreListed(states: seq<Store>, events: seq<Event>, n: nat, id: nat)
    requires IsRun(states, events) && n < |states| && Sound(states[0]) && id in states[n].entities
    ensures var rows, e := Of(states[n].log, id), states[n].entities[id];
            && rows != [] && e.version == |rows| && Born(e.kind, rows[0].change.newState)
            && (forall i :: 0 <= i < |rows| ==> rows[i].change.kind == e.kind && rows[i].version == i + 1)
            && (forall i :: 0 < i < |rows| ==> Listed(e.kind, rows[i - 1].change.newState, rows[i].change.newState))
            && e.state == rows[|rows| - 1].change.newState && e.updatedAt == rows[|rows| - 1].occurredAt
  {
    StoreStaysSound(states, events, n);
    var rows, e := Of(states[n].log, id), states[n].entities[id];
    assert HistorySound(rows, e);
    hide Sound, IsRun, Of;
    OneKind(rows, e, 0);
    forall i | 0 <= i < |rows| ensures rows[i].change.kind == e.kind && rows[i].version == i + 1 {
      OneKind(rows, e, i);
      VersionsCount(rows, e, i);
    }
    forall i | 0 < i < |rows| ensures Listed(e.kind, rows[i - 1].change.newState, rows[i].change.newState) {
      assert Continues(rows[i - 1], rows[i]);
      ListedIsLegal(rows[i - 1].change.kind, rows[i - 1].change.newState, rows[i].change.newState);
    }
    BornIsLegal(e.kind, rows[0].change.newState);
  }

  lemma {:induction false} OneKind(rows: seq<Row>, e: Entity, i: nat)
    requires HistorySound(rows, e) && i < |rows|
    ensures rows[i].change.kind == e.kind
    decreases |rows| - i
  {
    if i + 1 < |rows| {
      assert Continues(rows[i], rows[i + 1]);
      OneKind(rows, e, i + 1);
    }
  }

  /** The change goes on from what is on record: from nothing as its kind is born,
      from the present state by a listed step of the same kind. */
  predicate GoesOn(s: Store, c: Change)
  {
    if c.entityId in s.entities
    then s.entities[c.entityId].kind == c.kind && Listed(c.kind, s.entities[c.entityId].state, c.newState)
    else Born(c.kind, c.newState)
  }

  /** A command not seen before is accepted exactly when the caller expects as many
      versions as there are rows, the change goes on from the present one, its
      evidence is registered, its identity is new and what it corrects exists.  It
      adds its one row to the log and leaves the entity as the row says. */
  lemma TransitionExactly(s: Store, commandId: nat, expected: nat, c: Change, correctionOf: Option<nat>, at: int, transitionId: nat)
    requires Sound(s) && forall i :: 0 <= i < |s.log| ==> s.log[i].commandId != commandId
    ensures var (s', r) := Transition(s, commandId, expected, c, correctionOf, at, transitionId);
            var rows := |Of(s.log, c.entityId)|;
            && (r.Ok? <==>
                  && expected == rows && GoesOn(s, c) && c.evidence in s.evidence
                  && (forall i :: 0 <= i < |s.log| ==> s.log[i].transitionId != transitionId)
                  && (correctionOf.Some? ==> exists i :: 0 <= i < |s.log| && s.log[i].transitionId == correctionOf.value))
            && (expected != rows ==> r == Err(VersionConflict(rows)))
            && (r.Err? ==> s' == s)
            && (r.Ok? ==>
                  && r.value == Row(transitionId, commandId, c, rows + 1, at, correctionOf)
                  && s' == s.(log := s.log + [r.value],
                              entities := s.entities[c.entityId := Entity(c.kind, rows + 1, c.newState, at)]))
  {
    hide Sound, Listed, Born, FindCommand, Legal, Of;
    var id := c.entityId;
    CommandIsNew(s, commandId);
    RowsAreCounted(s, id);
    if id in s.entities { ListedIsLegal(c.kind, s.entities[id].state, c.newState); }
    BornIsLegal(c.kind, c.newState);
  }

  lemma CommandIsNew(s: Store, commandId: nat)
    requires Sound(s) && forall i :: 0 <= i < |s.log| ==> s.log[i].commandId != commandId
    ensures FindCommand(s.log, commandId).None?
  {
    hide HistorySound, Verifies, InsertsInOrder, LogKeysUnique, FindCommand;
    FindExactly(s.log, commandId);
  }

  /** The version on record counts the rows. */
  lemma RowsAreCounted(s: Store, id: nat)
    requires Sound(s)
    ensures Current(s, id) == |Of(s.log, id)|
  {
    hide LegalNext, Verifies, InsertsInOrder, LogKeysUnique;
    if id in s.entities { assert HistorySound(Of(s.log, id), s.entities[id]); }
    else { NothingOf(s.log, id); }
  }

  /******* Optimistic writers *******/

  lemma CurrentStep(s: Store, e: Event, id: nat)
    ensures Current(s, id) <= Current(Next(s, e), id)
    ensures e.Apply? && Next(s, e) != s ==>
              Current(s, e.change.entityId) == e.expected && Current(Next(s, e), e.change.entityId) == e.expected + 1
  {
    hide Legal, FindCommand;
  }

  lemma {:induction false} CurrentRises(states: seq<Store>, events: seq<Event>, i: nat, n: nat, id: nat)
    requires IsRun(states, events) && i <= n < |states|
    ensures Current(states[i], id) <= Current(states[n], id)
  {
    if i < n {
      hide Next;
      CurrentRises(states, events, i, n - 1, id);
      CurrentStep(states[n - 1], events[n - 1], id);
    }
  }

  /** Of all the writers that expect one version of an entity, at most one is ever
      accepted, over every run. */
  lemma OneWriterPerVersion(states: seq<Store>, events: seq<Event>, i: nat, j: nat)
    requires IsRun(states, events) && i < j < |events|
    requires events[i].Apply? && events[j].Apply? && events[i].change.entityId == events[j].change.entityId
    requires states[i + 1] != states[i] && states[j + 1] != states[j]
    ensures events[i].expected < events[j].expected
  {
    hide Next;
    CurrentStep(states[i], events[i], events[i].change.entityId);
    CurrentStep(states[j], events[j], events[j].change.entityId);
    CurrentRises(states, events, i + 1, j, events[i].change.entityId);
  }

  /******* Evidence *******/

  /** Evidence is taken exactly up to sixteen mebibytes and unless the bucket has the
      object otherwise; it is then in the bucket under its digest, registered once,
      under the provenance it was first given, and verifies. */
  lemma PutEvidenceExactly(s: Store, content: string, traceId: string, provenance: string)
    requires Sound(s)
    ensures var (s', r) := PutEvidence(s, content, traceId, provenance);
            var id := Sha256Of(content);
            && (r.Ok? <==> |content| <= 16777216 && (id in s.bucket ==> s.bucket[id].metadata == ByTrace(traceId)))
            && (r.Err? ==> s' == s)
            && (r.Ok? ==>
                  && r.value == id && Verifies(s', id)
                  && s'.bucket == s.bucket[id := Object(content, ByTrace(traceId))]
                  && s'.evidence == (if id in s.evidence then s.evidence else s.evidence[id := Reference(id, |content|, provenance)])
                  && s'.log == s.log && s'.entities == s.entities)
  {
    hide HistorySound, InsertsInOrder, LogKeysUnique;
    var id := Sha256Of(content);
    if id in s.bucket { assert s.bucket[id] == Object(s.bucket[id].content, s.bucket[id].metadata); }
    if id in s.bucket { assert s.bucket[id := s.bucket[id]] == s.bucket; }
  }
}
