/** The canonical store of one effect: a version per changed record, and a row
    per dispatch and reconciliation whose identity never changes and whose
    outcome is filled in once.  A restart reads the latest version only. */
module DurableEffects {
  import opened Contracts
  import opened EffectLedger
  import opened LedgerInvariant

  datatype Tables = Tables(versions: seq<Entry>, dispatches: seq<Attempt>, reconciliations: seq<Attempt>)

  predicate Agree<T(==)>(stored: Option<T>, given: Option<T>)
  {
    stored.None? || given.None? || stored == given
  }

  /** What the upsert accepts for an attempt number that has a row already. */
  predicate Fits(row: Attempt, a: Attempt)
  {
    && row.call == a.call
    && Agree(row.response, a.response)
    && Agree(row.source, a.source)
    && Agree(row.classification, a.classification)
  }

  function Coalesce<T>(stored: Option<T>, given: Option<T>): Option<T>
  {
    if stored.Some? then stored else given
  }

  function Filled(row: Attempt, a: Attempt): Attempt
  {
    Attempt(row.call, Coalesce(row.response, a.response), Coalesce(row.source, a.source),
            Coalesce(row.classification, a.classification))
  }

  predicate RowsFit(rows: seq<Attempt>, given: seq<Attempt>)
  {
    forall i :: 0 <= i < |rows| && i < |given| ==> Fits(rows[i], given[i])
  }

  /** Rows of the numbers given are filled in, new numbers are appended. */
  function Upserted(rows: seq<Attempt>, given: seq<Attempt>): (r: seq<Attempt>)
    ensures |r| == if |rows| < |given| then |given| else |rows|
  {
    seq(if |rows| < |given| then |given| else |rows|,
        i requires 0 <= i < (if |rows| < |given| then |given| else |rows|) =>
          if i >= |rows| then given[i] else if i >= |given| then rows[i] else Filled(rows[i], given[i]))
  }

  function Latest(t: Tables): Entry
    requires t.versions != []
  {
    t.versions[|t.versions| - 1]
  }

  /** `checkpoint_effect` as one transaction: no new version for an unchanged
      record, none over a terminal one, and the rows must fit. */
  predicate Accepts(t: Tables, e: Entry)
  {
    && (t.versions != [] && Latest(t).record != e.record ==> !Terminal(Latest(t).record.state))
    && RowsFit(t.dispatches, e.attempts)
    && RowsFit(t.reconciliations, e.reconciliations)
  }

  function Saved(t: Tables, e: Entry): Tables
  {
    Tables(if t.versions != [] && Latest(t).record == e.record then t.versions else t.versions + [e],
           Upserted(t.dispatches, e.attempts), Upserted(t.reconciliations, e.reconciliations))
  }

  /** One effect in memory and on record. */
  datatype Cell = Cell(mem: Entry, tables: Tables)

  datatype Step = Act(move: Move) | Save | Restart

  function Next(c: Cell, t: Step): Cell
  {
    match t
    case Act(m) => if MoveEntry(c.mem, m).Ok? then c.(mem := MoveEntry(c.mem, m).value) else c
    case Save => if Accepts(c.tables, c.mem) then c.(tables := Saved(c.tables, c.mem)) else c
    case Restart => if c.tables.versions == [] then c else c.(mem := Latest(c.tables))
  }

  ghost predicate IsRun(states: seq<Cell>, steps: seq<Step>)
  {
    && |states| == |steps| + 1
    && forall i :: 0 <= i < |steps| ==> states[i + 1] == Next(states[i], steps[i])
  }

  predicate NewlyReserved(c: Cell)
  {
    EntrySound(c.mem) && c.mem.record.state == Reserved && c.tables == Tables([], [], [])
  }

  /** Successive versions differ, only the last can be terminal, and each
      history continues the one before. */
  ghost predicate Follows(a: Entry, b: Entry)
  {
    && a.record != b.record
    && b.record == a.record.(state := b.record.state)
    && !Terminal(a.record.state)
    && a.history <= b.history
  }

  ghost predicate VersionsSound(versions: seq<Entry>)
  {
    && (forall i :: 0 <= i < |versions| ==> EntrySound(versions[i]))
    && (forall i :: 0 < i < |versions| ==> Follows(versions[i - 1], versions[i]))
  }

  /** A row bears out what a version says of its attempt, and may say more. */
  predicate Covers(row: Attempt, a: Attempt)
  {
    && row.call == a.call
    && (a.response.Some? ==> row.response == a.response)
    && (a.source.Some? ==> row.source == a.source)
    && (a.classification.Some? ==> row.classification == a.classification)
  }

  predicate RowsCover(rows: seq<Attempt>, given: seq<Attempt>)
  {
    |given| <= |rows| && forall i :: 0 <= i < |given| ==> Covers(rows[i], given[i])
  }

  ghost predicate CellSound(c: Cell)
  {
    && EntrySound(c.mem)
    && VersionsSound(c.tables.versions)
    && (c.tables.versions != [] ==>
          var last := Latest(c.tables);
          && last.history <= c.mem.history
          && c.mem.record == last.record.(state := c.mem.record.state)
          && (Terminal(last.record.state) ==> c.mem == last)
          && RowsCover(c.tables.reconciliations, last.reconciliations)
          && RowsCover(c.tables.dispatches, last.attempts))
  }

  lemma ActSound(c: Cell, m: Move)
    requires CellSound(c)
    ensures CellSound(Next(c, Act(m)))
  {
    if MoveEntry(c.mem, m).Ok? {
      MoveKeepsSound(c.mem, m);
      MoveIsLegal(c.mem, m);
      if Terminal(c.mem.record.state) { TerminalRefuses(c.mem, m); }
      hide EntrySound, MoveEntry;
    }
  }

  lemma VersionAppended(versions: seq<Entry>, e: Entry)
    requires VersionsSound(versions) && EntrySound(e)
    requires versions != [] ==> Follows(versions[|versions| - 1], e)
    ensures VersionsSound(versions + [e])
  {
    hide EntrySound, Follows;
  }

  lemma UpsertedCovers(rows: seq<Attempt>, given: seq<Attempt>)
    requires RowsFit(rows, given)
    ensures RowsCover(Upserted(rows, given), given)
  {
    var u := Upserted(rows, given);
    forall i | 0 <= i < |given| ensures Covers(u[i], given[i]) {
      if i < |rows| { assert u[i] == Filled(rows[i], given[i]) && Fits(rows[i], given[i]); }
    }
  }

  lemma UpsertedKeepsCovering(rows: seq<Attempt>, given: seq<Attempt>, older: seq<Attempt>)
    requires RowsCover(rows, older)
    ensures RowsCover(Upserted(rows, given), older)
  {
    forall i | 0 <= i < |older| ensures Covers(Upserted(rows, given)[i], older[i]) { assert Covers(rows[i], older[i]); }
  }

  lemma SaveSound(c: Cell)
    requires CellSound(c)
    ensures CellSound(Next(c, Save))
  {
    hide EntrySound, RowsFit, VersionsSound, Upserted, RowsCover;
    if Accepts(c.tables, c.mem) {
      if c.tables.versions != [] && Latest(c.tables).record == c.mem.record {
        UpsertedKeepsCovering(c.tables.dispatches, c.mem.attempts, Latest(c.tables).attempts);
        UpsertedKeepsCovering(c.tables.reconciliations, c.mem.reconciliations, Latest(c.tables).reconciliations);
      } else {
        UpsertedCovers(c.tables.dispatches, c.mem.attempts);
        UpsertedCovers(c.tables.reconciliations, c.mem.reconciliations);
      }
    }
    if Accepts(c.tables, c.mem) && (c.tables.versions == [] || Latest(c.tables).record != c.mem.record) {
      VersionAppended(c.tables.versions, c.mem);
      assert Saved(c.tables, c.mem).versions == c.tables.versions + [c.mem];
    }
  }

  /** Over every run of moves, checkpoints and restarts the versions on record
      are a strictly progressing account of one effect, never continued past a
      terminal one. */
  lemma {:induction false} VersionsProgress(states: seq<Cell>, steps: seq<Step>, n: nat)
    requires IsRun(states, steps) && n < |states| && NewlyReserved(states[0])
    ensures CellSound(states[n])
  {
    if n > 0 {
      VersionsProgress(states, steps, n - 1);
      hide CellSound, NewlyReserved;
      match steps[n - 1]
      case Act(m) => ActSound(states[n - 1], m);
      case Save => SaveSound(states[n - 1]);
      case Restart => RestartSound(states[n - 1]);
    }
  }

  lemma RestartSound(c: Cell)
    requires CellSound(c)
    ensures CellSound(Next(c, Restart))
  {
    hide EntrySound;
  }

  /** A row, once written, keeps its identity and every outcome it has. */
  ghost predicate RowsKept(rows: seq<Attempt>, rows': seq<Attempt>)
  {
    && |rows| <= |rows'|
    && forall i :: 0 <= i < |rows| ==>
         && rows'[i].call == rows[i].call
         && (rows[i].response.Some? ==> rows'[i].response == rows[i].response)
         && (rows[i].source.Some? ==> rows'[i].source == rows[i].source)
         && (rows[i].classification.Some? ==> rows'[i].classification == rows[i].classification)
  }

  lemma RowsOnlyFillIn(c: Cell, t: Step)
    ensures RowsKept(c.tables.dispatches, Next(c, t).tables.dispatches)
    ensures RowsKept(c.tables.reconciliations, Next(c, t).tables.reconciliations)
  {
  }

  /** What a restart gives back right after a checkpoint: always the record, and
      the whole entry exactly when that checkpoint wrote a version or the latest
      version already was this entry. */
  lemma RestartReadsTheVersion(c: Cell)
    requires CellSound(c) && Accepts(c.tables, c.mem)
    ensures Next(Next(c, Save), Restart).mem.record == c.mem.record
    ensures Next(Next(c, Save), Restart).mem == c.mem <==>
              c.tables.versions == [] || Latest(c.tables).record != c.mem.record || Latest(c.tables) == c.mem
  {
  }

  /******* Reconciliations that a restart forgets *******/

  /** A reconciliation begun and classified. */
  function Reconciled(e: Entry, call: Call, verdict: Move): Result<Entry, EffectError>
  {
    var begun := MoveEntry(e, BeginReconciliation(call));
    if begun.Err? then begun else MoveEntry(begun.value, verdict)
  }

  predicate IsVerdict(m: Move)
  {
    m.Inconclusive? || (m.Resolve? && m.observation.independent)
  }

  lemma ReconciledShape(e: Entry, call: Call, verdict: Move)
    requires Reconciled(e, call, verdict).Ok? && IsVerdict(verdict)
    ensures var r := Reconciled(e, call, verdict).value;
            && r.attempts == e.attempts
            && |r.reconciliations| == |e.reconciliations| + 1
            && r.reconciliations[..|e.reconciliations|] == e.reconciliations
            && r.reconciliations[|e.reconciliations|] == VerdictAttempt(call, verdict)
            && r.record == e.record.(state := r.record.state)
            && !Terminal(e.record.state)
  {
  }

  /** The attempt a classified reconciliation leaves. */
  function VerdictAttempt(call: Call, verdict: Move): Attempt
    requires IsVerdict(verdict)
  {
    match verdict
    case Inconclusive(source, evidence) => Attempt(call, Some(evidence), Some(source), Some(Reconciling))
    case Resolve(o) =>
      Attempt(call, Some(o.evidence), Some(o.source), Some(if o.succeeded then ResolvedSucceeded else ResolvedFailed))
  }

  lemma LatestFits(c: Cell)
    requires CellSound(c) && c.tables.versions != []
    ensures RowsFit(c.tables.dispatches, Latest(c.tables).attempts)
    ensures RowsFit(c.tables.reconciliations, Latest(c.tables).reconciliations)
  {
    hide EntrySound, VersionsSound;
    var last := Latest(c.tables);
    forall i | 0 <= i < |c.tables.dispatches| && i < |last.attempts| ensures Fits(c.tables.dispatches[i], last.attempts[i]) {
      assert Covers(c.tables.dispatches[i], last.attempts[i]);
    }
    forall i | 0 <= i < |c.tables.reconciliations| && i < |last.reconciliations|
      ensures Fits(c.tables.reconciliations[i], last.reconciliations[i])
    {
      assert Covers(c.tables.reconciliations[i], last.reconciliations[i]);
    }
  }

  /** A restart may read a version with fewer reconciliations than there are rows.
      The next reconciliation is then checkpointed exactly when it agrees with the
      row already on record under its number: the same call, down to the second,
      and nothing contradicted of how it came out. */
  lemma ForgottenReconciliationBlocks(c: Cell, call: Call, verdict: Move)
    requires CellSound(c) && c.tables.versions != []
    requires |Latest(c.tables).reconciliations| < |c.tables.reconciliations|
    requires IsVerdict(verdict) && Reconciled(Next(c, Restart).mem, call, verdict).Ok?
    ensures Accepts(c.tables, Reconciled(Next(c, Restart).mem, call, verdict).value) <==>
              Fits(c.tables.reconciliations[|Latest(c.tables).reconciliations|], VerdictAttempt(call, verdict))
  {
    var last := Latest(c.tables);
    ReconciledShape(last, call, verdict);
    LatestFits(c);
    hide CellSound, MoveEntry, Reconciled, Fits;
    var r := Reconciled(last, call, verdict).value;
    var n := |last.reconciliations|;
    forall i | 0 <= i < n ensures r.reconciliations[i] == last.reconciliations[i] {
      assert r.reconciliations[..n][i] == last.reconciliations[i];
    }
  }

  lemma ReconcilingRecordStays(e: Entry, call: Call, source: string, evidence: string)
    requires e.record.state == Reconciling && Reconciled(e, call, Inconclusive(source, evidence)).Ok?
    ensures var r := Reconciled(e, call, Inconclusive(source, evidence)).value;
            r.record == e.record && r.attempts == e.attempts && |r.reconciliations| == |e.reconciliations| + 1
            && r.reconciliations[|e.reconciliations|] == VerdictAttempt(call, Inconclusive(source, evidence))
            && r.reconciliations[..|e.reconciliations|] == e.reconciliations
  {
  }

  /** How it comes about: an effect that is RECONCILING on record is reconciled
      once more without a verdict and checkpointed.  Had the process lived on,
      its next reconciliation would be accepted; after a restart every one with
      another call is refused. */
  lemma InconclusiveRetryThenRestart(c: Cell, call: Call, source: string, evidence: string, next: Call, verdict: Move)
    requires CellSound(c) && c.tables.versions != [] && c.mem == Latest(c.tables)
    requires c.mem.record.state == Reconciling && Accepts(c.tables, c.mem)
    requires |c.tables.reconciliations| == |c.mem.reconciliations| && |c.tables.dispatches| == |c.mem.attempts|
    requires Reconciled(c.mem, call, Inconclusive(source, evidence)).Ok? && IsVerdict(verdict) && next != call
    ensures var retried := c.(mem := Reconciled(c.mem, call, Inconclusive(source, evidence)).value);
            var saved := Next(retried, Save);
            var restarted := Next(saved, Restart);
            && Accepts(retried.tables, retried.mem)
            && (Reconciled(saved.mem, next, verdict).Ok? ==>
                  Accepts(saved.tables, Reconciled(saved.mem, next, verdict).value))
            && (Reconciled(restarted.mem, next, verdict).Ok? ==>
                  !Accepts(restarted.tables, Reconciled(restarted.mem, next, verdict).value))
  {
    hide CellSound, MoveEntry, Reconciled;
    ReconcilingRecordStays(c.mem, call, source, evidence);
    var retried := c.(mem := Reconciled(c.mem, call, Inconclusive(source, evidence)).value);
    assert forall i :: 0 <= i < |c.mem.reconciliations| ==>
      retried.mem.reconciliations[i] == retried.mem.reconciliations[..|c.mem.reconciliations|][i];
    assert Accepts(retried.tables, retried.mem);
    var saved := Next(retried, Save);
    if Reconciled(saved.mem, next, verdict).Ok? {
      ReconciledShape(saved.mem, next, verdict);
      var r := Reconciled(saved.mem, next, verdict).value;
      assert forall i :: 0 <= i < |saved.mem.reconciliations| ==>
        r.reconciliations[i] == r.reconciliations[..|saved.mem.reconciliations|][i];
    }
    var restarted := Next(saved, Restart);
    if Reconciled(restarted.mem, next, verdict).Ok? { ReconciledShape(restarted.mem, next, verdict); }
  }

  /** The store is behind in this way after exactly those checkpoints that left
      the record as it was and brought a reconciliation the latest version does
      not have. */
  lemma WhenRowsRunAhead(c: Cell)
    requires CellSound(c) && c.tables.versions != [] && Accepts(c.tables, c.mem)
    requires |Latest(c.tables).reconciliations| == |c.tables.reconciliations|
    requires |c.tables.reconciliations| <= |c.mem.reconciliations|
    ensures var t := Next(c, Save).tables;
            |Latest(t).reconciliations| < |t.reconciliations| <==>
              Latest(c.tables).record == c.mem.record && |c.mem.reconciliations| > |c.tables.reconciliations|
  {
  }

  /******* A run that gets there *******/

  /** Everything in memory is on record as it is. */
  predicate Written(c: Cell)
  {
    && c.tables.versions != [] && Latest(c.tables) == c.mem
    && c.tables.dispatches == c.mem.attempts && c.tables.reconciliations == c.mem.reconciliations
  }

  /** New attempts, or outcomes of attempts on record without one. */
  predicate Adds(rows: seq<Attempt>, given: seq<Attempt>)
  {
    |rows| <= |given| && forall i :: 0 <= i < |rows| ==> rows[i] == given[i] || rows[i] == Attempt(given[i].call, None, None, None)
  }

  lemma AddsUpserts(rows: seq<Attempt>, given: seq<Attempt>)
    requires Adds(rows, given)
    ensures RowsFit(rows, given) && Upserted(rows, given) == given
  {
  }

  lemma SaveWrites(c: Cell)
    requires c.tables.versions != [] ==> Latest(c.tables).record != c.mem.record && !Terminal(Latest(c.tables).record.state)
    requires Adds(c.tables.dispatches, c.mem.attempts) && Adds(c.tables.reconciliations, c.mem.reconciliations)
    ensures Written(Next(c, Save)) && Next(c, Save).mem == c.mem
  {
    hide Adds, RowsFit, Upserted;
    AddsUpserts(c.tables.dispatches, c.mem.attempts);
    AddsUpserts(c.tables.reconciliations, c.mem.reconciliations);
  }

  lemma SaveFillsIn(c: Cell)
    requires c.tables.versions != [] && Latest(c.tables).record == c.mem.record
    requires Adds(c.tables.dispatches, c.mem.attempts) && Adds(c.tables.reconciliations, c.mem.reconciliations)
    ensures Next(c, Save) == c.(tables := Tables(c.tables.versions, c.mem.attempts, c.mem.reconciliations))
  {
    hide Adds, RowsFit, Upserted;
    AddsUpserts(c.tables.dispatches, c.mem.attempts);
    AddsUpserts(c.tables.reconciliations, c.mem.reconciliations);
  }

  /** What two inconclusive probes of a new reservation are made with. */
  datatype Probes = Probes(sent: Call, decision: Decision, first: Call, second: Call, source: string, evidence: string)

  predicate Admissible(e: Entry, p: Probes)
  {
    && Grants(p.decision) && DecisionFits(p.decision, e.record.proposal)
    && CallFits(p.sent, e.record.proposal) && CallFits(p.first, e.record.proposal) && CallFits(p.second, e.record.proposal)
  }

  function Losing(p: Probes): seq<Step>
  {
    [Save, Act(Dispatch(p.sent, p.decision)), Save, Act(LoseTransport(p.evidence)), Save]
  }

  function Probing(p: Probes, call: Call): seq<Step>
  {
    [Act(BeginReconciliation(call)), Act(Inconclusive(p.source, p.evidence)), Save]
  }

  /** Dispatched, lost, and twice probed without an answer, then a restart. */
  function TwiceInconclusive(p: Probes): seq<Step>
  {
    Losing(p) + (Probing(p, p.first) + (Probing(p, p.second) + [Restart]))
  }

  /** Where a sequence of steps leads. */
  function End(c: Cell, steps: seq<Step>): Cell
    decreases |steps|
  {
    if steps == [] then c else End(Next(c, steps[0]), steps[1..])
  }

  lemma {:induction false} RunTo(c: Cell, steps: seq<Step>) returns (states: seq<Cell>)
    ensures IsRun(states, steps) && states[0] == c && states[|steps|] == End(c, steps)
    decreases |steps|
  {
    hide Next;
    if steps == [] { return [c]; }
    var rest := RunTo(Next(c, steps[0]), steps[1..]);
    states := [c] + rest;
    forall i | 0 <= i < |steps| ensures states[i + 1] == Next(states[i], steps[i]) {
      if i > 0 { assert steps[i] == steps[1..][i - 1]; }
    }
  }

  lemma {:induction false} EndConcat(c: Cell, a: seq<Step>, b: seq<Step>)
    ensures End(c, a + b) == End(End(c, a), b)
    decreases |a|
  {
    hide Next;
    if a == [] {
      assert a + b == b;
    } else {
      EndConcat(Next(c, a[0]), a[1..], b);
      assert (a + b)[1..] == a[1..] + b;
    }
  }

  lemma EndOne(c: Cell, t: Step)
    ensures End(c, [t]) == Next(c, t)
  {
    assert [t][1..] == [];
  }

  lemma EndThree(c: Cell, t: Step, u: Step, v: Step)
    ensures End(c, [t, u, v]) == Next(Next(Next(c, t), u), v)
  {
    hide Next;
    assert [t, u, v][1..] == [u, v] && [u, v][1..] == [v];
    EndOne(Next(Next(c, t), u), v);
  }

  lemma EndFive(c: Cell, t: Step, u: Step, v: Step, w: Step, x: Step)
    ensures End(c, [t, u, v, w, x]) == Next(Next(Next(Next(Next(c, t), u), v), w), x)
  {
    hide Next;
    assert [t, u, v, w, x][1..] == [u, v, w, x] && [u, v, w, x][1..] == [v, w, x];
    EndThree(Next(Next(c, t), u), v, w, x);
  }

  lemma ReservedIsUntouched(e: Entry)
    requires EntrySound(e) && e.record.state == Reserved
    ensures e.attempts == [] && e.reconciliations == []
  {
    ReservedOnlyFirst(e.history, |e.history| - 1);
    assert |e.history| == 1 && !Reached(e.history, Executing) && !Reached(e.history, Reconciling);
  }

  /** From a new reservation to the loss of its transport, all of it on record. */
  lemma LostRun(c: Cell, p: Probes) returns (lost: Cell)
    requires NewlyReserved(c) && Admissible(c.mem, p)
    ensures lost == End(c, Losing(p))
    ensures Written(lost) && lost.mem.record == c.mem.record.(state := OutcomeUnknown) && lost.mem.reconciliations == []
  {
    ReservedIsUntouched(c.mem);
    hide EntrySound, DecisionFits, CallFits;
    SaveWrites(c);
    var c1 := Next(c, Save);
    var c2 := Next(c1, Act(Dispatch(p.sent, p.decision)));
    SaveWrites(c2);
    var c3 := Next(c2, Save);
    var c4 := Next(c3, Act(LoseTransport(p.evidence)));
    SaveWrites(c4);
    lost := Next(c4, Save);
    EndFive(c, Save, Act(Dispatch(p.sent, p.decision)), Save, Act(LoseTransport(p.evidence)), Save);
  }

  lemma ProbingEnds(c: Cell, p: Probes, call: Call)
    requires Reconciled(c.mem, call, Inconclusive(p.source, p.evidence)).Ok?
    ensures End(c, Probing(p, call)) ==
            Next(c.(mem := Reconciled(c.mem, call, Inconclusive(p.source, p.evidence)).value), Save)
  {
    hide MoveEntry, Accepts;
    EndThree(c, Act(BeginReconciliation(call)), Act(Inconclusive(p.source, p.evidence)), Save);
  }

  /** Probed once without an answer: RECONCILING, on record as it is. */
  lemma FirstProbe(c: Cell, call: Call, source: string, evidence: string)
    requires Written(c) && c.mem.record.state == OutcomeUnknown && c.mem.reconciliations == []
    requires CallFits(call, c.mem.record.proposal)
    ensures Reconciled(c.mem, call, Inconclusive(source, evidence)).Ok?
    ensures var saved := Next(c.(mem := Reconciled(c.mem, call, Inconclusive(source, evidence)).value), Save);
            && Written(saved) && saved.mem.record == c.mem.record.(state := Reconciling)
            && saved.mem.reconciliations == [VerdictAttempt(call, Inconclusive(source, evidence))]
  {
    hide CallFits;
    var probed := c.(mem := Reconciled(c.mem, call, Inconclusive(source, evidence)).value);
    assert probed.mem.reconciliations == [VerdictAttempt(call, Inconclusive(source, evidence))];
    SaveWrites(probed);
  }

  /** Probed again: the version on record does not know of it, its row does. */
  lemma SecondProbe(c: Cell, call: Call, source: string, evidence: string)
    requires Written(c) && c.mem.record.state == Reconciling && |c.mem.reconciliations| == 1
    requires CallFits(call, c.mem.record.proposal)
    ensures Reconciled(c.mem, call, Inconclusive(source, evidence)).Ok?
    ensures var saved := Next(c.(mem := Reconciled(c.mem, call, Inconclusive(source, evidence)).value), Save);
            && saved.tables.versions == c.tables.versions && Next(saved, Restart).mem == c.mem
            && saved.tables.dispatches == c.mem.attempts
            && saved.tables.reconciliations == c.mem.reconciliations + [VerdictAttempt(call, Inconclusive(source, evidence))]
  {
    hide CallFits;
    ReconcilingRecordStays(c.mem, call, source, evidence);
    var probed := c.(mem := Reconciled(c.mem, call, Inconclusive(source, evidence)).value);
    hide MoveEntry, Reconciled;
    assert probed.mem.reconciliations == c.mem.reconciliations + [VerdictAttempt(call, Inconclusive(source, evidence))];
    SaveFillsIn(probed);
  }

  /** The whole run, from any new reservation.  After it the effect is RECONCILING
      with one reconciliation to its name and two on record, and of all further
      reconciliations only a repetition of the forgotten one is ever checkpointed. */
  lemma TwiceInconclusiveForgets(c: Cell, p: Probes, call: Call, verdict: Move) returns (states: seq<Cell>)
    requires NewlyReserved(c) && Admissible(c.mem, p) && CallFits(call, c.mem.record.proposal) && IsVerdict(verdict)
    ensures IsRun(states, TwiceInconclusive(p)) && states[0] == c
    ensures Forgot(states[|TwiceInconclusive(p)|], p, call, verdict)
  {
    hide NewlyReserved, Admissible, Written, CallFits, MoveEntry, Reconciled, Next, End, Probing, Losing, Forgot, IsVerdict;
    states := RunTo(c, TwiceInconclusive(p));
    var lost := LostRun(c, p);
    EndConcat(c, Losing(p), Probing(p, p.first) + (Probing(p, p.second) + [Restart]));
    AdmissibleCalls(c.mem, lost.mem, p);
    FirstProbe(lost, p.first, p.source, p.evidence);
    ProbingEnds(lost, p, p.first);
    EndConcat(lost, Probing(p, p.first), Probing(p, p.second) + [Restart]);
    var once := End(lost, Probing(p, p.first));
    SecondProbe(once, p.second, p.source, p.evidence);
    ProbingEnds(once, p, p.second);
    EndConcat(once, Probing(p, p.second), [Restart]);
    var twice := End(once, Probing(p, p.second));
    EndOne(twice, Restart);
    VersionsProgress(states, TwiceInconclusive(p), |TwiceInconclusive(p)|);
    assert CellSound(Next(twice, Restart));
    SecondIsForgotten(once, twice, p, call, verdict);
  }

  /** RECONCILING with one reconciliation in memory and two on record. */
  ghost predicate Forgot(c: Cell, p: Probes, call: Call, verdict: Move)
    requires IsVerdict(verdict)
  {
    && c.tables.versions != [] && c.mem == Latest(c.tables) && c.mem.record.state == Reconciling
    && |c.mem.reconciliations| == 1 && |c.tables.reconciliations| == 2
    && Reconciled(c.mem, call, verdict).Ok?
    && (Accepts(c.tables, Reconciled(c.mem, call, verdict).value) <==>
          call == p.second && verdict == Inconclusive(p.source, p.evidence))
  }

  lemma SecondIsForgotten(once: Cell, twice: Cell, p: Probes, call: Call, verdict: Move)
    requires Written(once) && once.mem.record.state == Reconciling && |once.mem.reconciliations| == 1
    requires twice.tables.versions == once.tables.versions && Next(twice, Restart).mem == once.mem
    requires twice.tables.reconciliations == once.mem.reconciliations + [VerdictAttempt(p.second, Inconclusive(p.source, p.evidence))]
    requires CellSound(Next(twice, Restart)) && IsVerdict(verdict) && CallFits(call, once.mem.record.proposal)
    ensures Forgot(Next(twice, Restart), p, call, verdict)
  {
    hide CellSound, CallFits;
    var c := Next(twice, Restart);
    assert Reconciled(c.mem, call, verdict).Ok?;
    ForgottenReconciliationBlocks(c, call, verdict);
  }

  lemma AdmissibleCalls(e: Entry, e': Entry, p: Probes)
    requires Admissible(e, p) && e'.record.proposal == e.record.proposal
    ensures CallFits(p.first, e'.record.proposal) && CallFits(p.second, e'.record.proposal)
  {
  }
}
