/** The idempotent provider: write-ahead intent, staged record, world mutation,
    rename, intent removal.  Crashes fall between whole-file writes. */
module OfflineProvider {
  import opened Contracts

  datatype Command = Execute(
    effectId: Text,
    commandId: string,
    idempotencyKey: IdempotencyKey,
    requestDigest: ParametersDigest,
    operation: Operation,
    payload: Payload)

  /** The bytes of a world file. */
  datatype Application = Application(effectId: Text, operation: Operation, payload: Payload, requestDigest: ParametersDigest)

  datatype Postcondition = Absent(effectId: Text) | Present(bytes: Application)

  datatype Observation = Observation(command: Command, transportId: TransportId, postcondition: Postcondition)

  datatype ProviderError = Invalid | Conflict | NotFound | Storage

  /** A staged record is named after the process and the record's digest. */
  datatype Files = Files(
    records: map<Text, Observation>,
    intents: map<Text, Command>,
    world: map<Text, Application>,
    staged: set<(nat, Observation)>)

  predicate IsHex(c: char) { '0' <= c <= '9' || 'a' <= c <= 'f' || 'A' <= c <= 'F' }

  /** `effect:sha256:` and 64 hexadecimal digits. */
  predicate Addressable(id: Text)
  {
    && IsEffectId(id)
    && ((|id| == 2 && id[1].Sha256?)
        || (|id| == 65 && forall i :: 0 < i < 65 ==> id[i].Ch? && IsHex(id[i].c)))
  }

  predicate WellFormed(c: Command)
  {
    && (c.operation == Commit || c.operation == Compensate)
    && c.requestDigest == PayloadDigest(c.operation, c.payload)
    && c.commandId != ""
    && c.idempotencyKey != OtherKey("")
  }

  /** The world file a command is about: its own, or the one it undoes. */
  function Target(c: Command): Option<Text>
  {
    if c.operation != Compensate then Some(c.effectId)
    else if c.payload.compensatesEffectId.Some? && Addressable(c.payload.compensatesEffectId.value)
    then c.payload.compensatesEffectId else None
  }

  function ApplicationOf(c: Command): Application
  {
    Application(c.effectId, c.operation, c.payload, c.requestDigest)
  }

  function ObservationOf(c: Command): Observation
  {
    Observation(c, OfflineTransport(c.effectId, c.idempotencyKey),
                match Target(c)
                case Some(id) => if c.operation == Compensate then Absent(id) else Present(ApplicationOf(c))
                case None => Absent([]))
  }

  /** `read`: a record counts only while the world bears it out. */
  function Read(fs: Files, id: Text): Result<Observation, ProviderError>
  {
    if id !in fs.records then Err(NotFound)
    else
      var o := fs.records[id];
      match Target(o.command)
      case None => Err(Invalid)
      case Some(file) =>
        if o.command.operation == Compensate then
          if file in fs.world || o.postcondition != Absent(file) then Err(Invalid) else Ok(o)
        else if file !in fs.world then Err(NotFound)
        else if o.postcondition != Present(fs.world[file]) then Err(Invalid)
        else Ok(o)
  }

  /** `observe`. */
  function Observe(fs: Files, id: Text, digest: ParametersDigest): Result<Observation, ProviderError>
  {
    if !Addressable(id) then Err(Invalid)
    else match Read(fs, id)
      case Err(error) => Err(error)
      case Ok(o) => if o.command.requestDigest != digest then Err(Conflict) else Ok(o)
  }

  /******* An uninterrupted execution, as one step *******/

  function Mutated(world: map<Text, Application>, c: Command): map<Text, Application>
    requires Target(c).Some?
  {
    if c.operation == Compensate then world - {Target(c).value} else world[c.effectId := ApplicationOf(c)]
  }

  predicate Clashes(fs: Files, c: Command)
  {
    c.operation != Compensate && c.effectId in fs.world && fs.world[c.effectId] != ApplicationOf(c)
  }

  /** What the caller is told. */
  function Answer(fs: Files, c: Command): Result<Observation, ProviderError>
  {
    var id := c.effectId;
    if !WellFormed(c) || !Addressable(id) then Err(Invalid)
    else if id in fs.records then
      match Read(fs, id)
      case Err(error) => Err(error)
      case Ok(prior) => if prior.command.(effectId := c.effectId) == c then Ok(prior) else Err(Conflict)
    else if id in fs.intents && fs.intents[id] != c then Err(Conflict)
    else if Target(c).None? then Err(Invalid)
    else if Clashes(fs, c) then Err(Conflict)
    else Ok(ObservationOf(c))
  }

  predicate Takes(fs: Files, c: Command)
  {
    c.effectId !in fs.records && Answer(fs, c).Ok?
  }

  function WorldAfter(fs: Files, c: Command): map<Text, Application>
  {
    if Takes(fs, c) then Mutated(fs.world, c) else fs.world
  }

  function RecordsAfter(fs: Files, c: Command): map<Text, Observation>
  {
    if Takes(fs, c) then fs.records[c.effectId := ObservationOf(c)] else fs.records
  }

  /******* The same, file by file *******/

  datatype Write =
    | PutIntent(command: Command)
    | Stage(pid: nat, record: Observation)
    | PutWorld(command: Command)
    | RemoveWorld(id: Text)
    | Rename(pid: nat, record: Observation)
    | RemoveIntent(id: Text)

  function Do(fs: Files, w: Write): Files
  {
    match w
    case PutIntent(c) => fs.(intents := fs.intents[c.effectId := c])
    case Stage(pid, o) => fs.(staged := fs.staged + {(pid, o)})
    case PutWorld(c) => fs.(world := fs.world[c.effectId := ApplicationOf(c)])
    case RemoveWorld(id) => fs.(world := fs.world - {id})
    case Rename(pid, o) => fs.(records := fs.records[o.command.effectId := o], staged := fs.staged - {(pid, o)})
    case RemoveIntent(id) => fs.(intents := fs.intents - {id})
  }

  function Perform(fs: Files, ws: seq<Write>): Files
    decreases |ws|
  {
    if ws == [] then fs else Perform(Do(fs, ws[0]), ws[1..])
  }

  predicate Starts(fs: Files, c: Command)
  {
    && WellFormed(c) && Addressable(c.effectId)
    && c.effectId !in fs.records
    && (c.effectId in fs.intents ==> fs.intents[c.effectId] == c)
  }

  function WorldWrites(fs: Files, c: Command): seq<Write>
    requires Target(c).Some?
  {
    if c.operation == Compensate then
      if Target(c).value in fs.world then [RemoveWorld(Target(c).value)] else []
    else if c.effectId !in fs.world then [PutWorld(c)] else []
  }

  function StageWrites(fs: Files, pid: nat, c: Command): seq<Write>
  {
    if (pid, ObservationOf(c)) in fs.staged then [] else [Stage(pid, ObservationOf(c))]
  }

  /** Every file write `execute` makes, in order; it skips those an earlier
      attempt has made already. */
  function Writes(fs: Files, pid: nat, c: Command): seq<Write>
  {
    if !Starts(fs, c) then []
    else if c.effectId !in fs.intents then [PutIntent(c)] + Rest(fs, pid, c)
    else Rest(fs, pid, c)
  }

  function Rest(fs: Files, pid: nat, c: Command): seq<Write>
  {
    if Target(c).None? then []
    else if Clashes(fs, c) then StageWrites(fs, pid, c)
    else StageWrites(fs, pid, c) + (WorldWrites(fs, c) + [Rename(pid, ObservationOf(c)), RemoveIntent(c.effectId)])
  }

  /** An attempt that dies after so many file writes; one that outlives them all
      answers. */
  function Interrupted(fs: Files, pid: nat, c: Command, survives: nat): (Files, Result<Observation, ProviderError>)
  {
    var ws := Writes(fs, pid, c);
    if survives < |ws| then (Perform(fs, ws[..survives]), Err(Storage))
    else (Perform(fs, ws), Answer(fs, c))
  }

  /******* Crash refinement *******/

  lemma MutatedTwice(world: map<Text, Application>, c: Command)
    requires Target(c).Some?
    ensures Mutated(Mutated(world, c), c) == Mutated(world, c)
  {
  }

  /** One write leaves the answer and the final world and records what they
      were, and only the writes after it are still to be made. */
  ghost predicate WriteAdvances(fs: Files, pid: nat, c: Command)
    requires Writes(fs, pid, c) != []
  {
    var ws := Writes(fs, pid, c);
    var fs' := Do(fs, ws[0]);
    && Answer(fs', c) == Answer(fs, c)
    && WorldAfter(fs', c) == WorldAfter(fs, c)
    && RecordsAfter(fs', c) == RecordsAfter(fs, c)
    && (ws[0].Rename? ==> ws[1..] == [RemoveIntent(c.effectId)])
    && (!ws[0].Rename? ==> Writes(fs', pid, c) == ws[1..])
  }

  lemma IntentAdvances(fs: Files, pid: nat, c: Command)
    requires Writes(fs, pid, c) != [] && Writes(fs, pid, c)[0].PutIntent?
    ensures WriteAdvances(fs, pid, c)
  {
    var fs' := Do(fs, PutIntent(c));
    assert Rest(fs', pid, c) == Rest(fs, pid, c);
    assert Writes(fs, pid, c)[1..] == Rest(fs, pid, c);
  }

  lemma StageAdvances(fs: Files, pid: nat, c: Command)
    requires Writes(fs, pid, c) != [] && Writes(fs, pid, c)[0].Stage?
    ensures WriteAdvances(fs, pid, c)
  {
    var ws := Writes(fs, pid, c);
    var fs' := Do(fs, ws[0]);
    assert ws == [ws[0]] + ws[1..];
    assert StageWrites(fs, pid, c) == [ws[0]] && StageWrites(fs', pid, c) == [];
    assert Rest(fs', pid, c) == ws[1..];
  }

  lemma WorldAdvances(fs: Files, pid: nat, c: Command)
    requires Writes(fs, pid, c) != [] && (Writes(fs, pid, c)[0].PutWorld? || Writes(fs, pid, c)[0].RemoveWorld?)
    ensures WriteAdvances(fs, pid, c)
  {
    hide WellFormed, Addressable;
    MutatedTwice(fs.world, c);
  }

  lemma RenameAdvances(fs: Files, pid: nat, c: Command)
    requires Writes(fs, pid, c) != [] && Writes(fs, pid, c)[0].Rename?
    ensures WriteAdvances(fs, pid, c)
  {
    hide WellFormed, Addressable;
    assert Mutated(fs.world, c) == fs.world;
    assert Read(Do(fs, Writes(fs, pid, c)[0]), c.effectId) == Ok(ObservationOf(c));
  }

  lemma OneWrite(fs: Files, pid: nat, c: Command)
    requires Writes(fs, pid, c) != []
    ensures WriteAdvances(fs, pid, c)
  {
    var w := Writes(fs, pid, c)[0];
    hide WriteAdvances, WellFormed, Addressable;
    if w.PutIntent? { IntentAdvances(fs, pid, c); }
    else if w.Stage? { StageAdvances(fs, pid, c); }
    else if w.Rename? { RenameAdvances(fs, pid, c); }
    else { WorldAdvances(fs, pid, c); }
  }

  /** Everything an interrupted attempt may have done, seen from its start. */
  ghost predicate Partial(fs: Files, fs': Files, c: Command)
  {
    && Answer(fs', c) == Answer(fs, c)
    && WorldAfter(fs', c) == WorldAfter(fs, c)
    && RecordsAfter(fs', c) == RecordsAfter(fs, c)
    && (fs'.world == fs.world || fs'.world == WorldAfter(fs, c))
    && (fs'.records == fs.records || fs'.records == RecordsAfter(fs, c))
    && (|| fs'.intents == fs.intents
        || (Starts(fs, c) && fs'.intents == fs.intents[c.effectId := c])
        || (Takes(fs, c) && fs'.intents == fs.intents - {c.effectId} && fs'.records == RecordsAfter(fs, c)))
    && (fs'.records != fs.records ==> fs'.world == WorldAfter(fs, c))
    && (fs'.world != fs.world ==> Starts(fs, c))
  }

  lemma FirstWrite(fs: Files, pid: nat, c: Command)
    requires Writes(fs, pid, c) != []
    ensures Partial(fs, Do(fs, Writes(fs, pid, c)[0]), c)
  {
    OneWrite(fs, pid, c);
    var w := Writes(fs, pid, c)[0];
    if w.PutWorld? || w.RemoveWorld? { assert Takes(fs, c); }
    if w.Rename? { assert Takes(fs, c) && Mutated(fs.world, c) == fs.world; }
  }

  lemma PartialChains(fs: Files, fs': Files, fs'': Files, c: Command)
    requires Partial(fs, fs', c) && Partial(fs', fs'', c) && Starts(fs, c)
    requires fs'.records == fs.records
    ensures Partial(fs, fs'', c)
  {
    hide Answer, WorldAfter, RecordsAfter, WellFormed, Addressable;
    if fs''.intents == fs'.intents - {c.effectId} {
      assert fs.intents[c.effectId := c] - {c.effectId} == fs.intents - {c.effectId};
    }
  }

  lemma FinishRename(fs: Files, pid: nat, c: Command)
    requires Writes(fs, pid, c) != [] && Writes(fs, pid, c)[0].Rename?
    ensures Partial(fs, Do(Do(fs, Writes(fs, pid, c)[0]), RemoveIntent(c.effectId)), c)
  {
    FirstWrite(fs, pid, c);
  }

  lemma {:induction false} PrefixIsPartial(fs: Files, pid: nat, c: Command, n: nat)
    requires n <= |Writes(fs, pid, c)|
    ensures Partial(fs, Perform(fs, Writes(fs, pid, c)[..n]), c)
    decreases n
  {
    var ws := Writes(fs, pid, c);
    if n > 0 {
      OneWrite(fs, pid, c);
      FirstWrite(fs, pid, c);
      assert Starts(fs, c);
      hide Partial, Writes, Starts;
      var fs' := Do(fs, ws[0]);
      assert ws[..n][1..] == ws[1..][..n - 1];
      if ws[0].Rename? {
        if n > 1 {
          var last := [RemoveIntent(c.effectId)];
          assert ws[1..][..n - 1] == last && last[1..] == [];
          assert Perform(fs', last) == Do(fs', last[0]);
          FinishRename(fs, pid, c);
        }
      } else {
        PrefixIsPartial(fs', pid, c, n - 1);
        PartialChains(fs, fs', Perform(fs, ws[..n]), c);
      }
    }
  }

  /** The uninterrupted run is the one step. */
  lemma {:induction false} AllWritesAreTheStep(fs: Files, pid: nat, c: Command)
    ensures var done := Perform(fs, Writes(fs, pid, c));
            && done.world == WorldAfter(fs, c)
            && done.records == RecordsAfter(fs, c)
            && Answer(done, c) == Answer(fs, c)
    decreases |Writes(fs, pid, c)|
  {
    var ws := Writes(fs, pid, c);
    if ws == [] {
    } else {
      OneWrite(fs, pid, c);
      var fs' := Do(fs, ws[0]);
      if ws[0].Rename? {
        assert Perform(fs', [RemoveIntent(c.effectId)]) == Do(fs', RemoveIntent(c.effectId)) by {
          assert [RemoveIntent(c.effectId)][1..] == [];
        }
      } else {
        AllWritesAreTheStep(fs', pid, c);
      }
    }
  }

  datatype Attempt = Attempt(pid: nat, survives: nat)

  /** One command attempted again and again, by any processes, dying anywhere. */
  function Crashed(fs: Files, c: Command, attempts: seq<Attempt>): Files
  {
    if attempts == [] then fs
    else
      var last := attempts[|attempts| - 1];
      Interrupted(Crashed(fs, c, attempts[..|attempts| - 1]), last.pid, c, last.survives).0
  }

  lemma InterruptedIsPartial(fs: Files, a: Attempt, c: Command)
    ensures Partial(fs, Interrupted(fs, a.pid, c, a.survives).0, c)
  {
    var ws := Writes(fs, a.pid, c);
    hide Partial, Writes;
    if a.survives < |ws| { PrefixIsPartial(fs, a.pid, c, a.survives); }
    else {
      PrefixIsPartial(fs, a.pid, c, |ws|);
      assert ws[..|ws|] == ws;
    }
  }

  lemma {:induction false} CrashesKeepTheOutcome(fs: Files, c: Command, attempts: seq<Attempt>)
    ensures var fs' := Crashed(fs, c, attempts);
            Answer(fs', c) == Answer(fs, c) && WorldAfter(fs', c) == WorldAfter(fs, c) && RecordsAfter(fs', c) == RecordsAfter(fs, c)
  {
    if attempts != [] {
      hide Answer, WorldAfter, RecordsAfter, Interrupted;
      var before := attempts[..|attempts| - 1];
      CrashesKeepTheOutcome(fs, c, before);
      InterruptedIsPartial(Crashed(fs, c, before), attempts[|attempts| - 1], c);
    }
  }

  /** From any crash prefix, and any number of them, retrying the command ends in
      the same world, the same records and the same answer as one uninterrupted
      run from the start. */
  lemma CrashRefinement(fs: Files, c: Command, attempts: seq<Attempt>, pid: nat, pid': nat)
    ensures var retried := Interrupted(Crashed(fs, c, attempts), pid', c, |Writes(Crashed(fs, c, attempts), pid', c)|);
            var direct := Interrupted(fs, pid, c, |Writes(fs, pid, c)|);
            && retried.1 == direct.1
            && retried.0.world == direct.0.world
            && retried.0.records == direct.0.records
  {
    hide Answer, WorldAfter, RecordsAfter, Writes, Crashed;
    CrashesKeepTheOutcome(fs, c, attempts);
    AllWritesAreTheStep(Crashed(fs, c, attempts), pid', c);
    AllWritesAreTheStep(fs, pid, c);
  }

  /******* Runs of many commands *******/

  datatype Event = Event(pid: nat, command: Command, survives: nat)

  function Next(fs: Files, e: Event): Files
  {
    Interrupted(fs, e.pid, e.command, e.survives).0
  }

  ghost predicate IsRun(states: seq<Files>, events: seq<Event>)
  {
    && |states| == |events| + 1
    && forall i :: 0 <= i < |events| ==> states[i + 1] == Next(states[i], events[i])
  }

  lemma NextIsPartial(fs: Files, e: Event)
    ensures Partial(fs, Next(fs, e), e.command)
  {
    InterruptedIsPartial(fs, Attempt(e.pid, e.survives), e.command);
  }

  /** The command an effect id stands for: the one recorded, or else intended. */
  function Pinned(fs: Files, id: Text): Option<Command>
  {
    if id in fs.records then Some(fs.records[id].command)
    else if id in fs.intents then Some(fs.intents[id])
    else None
  }

  lemma PinStep(fs: Files, e: Event, id: Text)
    requires Pinned(fs, id).Some?
    ensures Pinned(Next(fs, e), id) == Pinned(fs, id)
    ensures id in fs.records ==> id in Next(fs, e).records && Next(fs, e).records[id] == fs.records[id]
  {
    NextIsPartial(fs, e);
    hide Interrupted, WellFormed, Addressable;
  }

  /** The first intent written for an effect id fixes its command for ever, and a
      record once renamed into place never changes. */
  lemma {:induction false} FirstIntentIsFinal(states: seq<Files>, events: seq<Event>, i: nat, n: nat, id: Text)
    requires IsRun(states, events) && i <= n < |states| && Pinned(states[i], id).Some?
    ensures Pinned(states[n], id) == Pinned(states[i], id)
    ensures id in states[i].records ==> id in states[n].records && states[n].records[id] == states[i].records[id]
  {
    if i < n {
      FirstIntentIsFinal(states, events, i, n - 1, id);
      hide Pinned, Next;
      PinStep(states[n - 1], events[n - 1], id);
    }
  }

  /** Whatever else is attempted, a command that is not the pinned one is turned
      away and changes nothing. */
  lemma OtherCommandsAreRefused(fs: Files, pid: nat, c: Command)
    requires Pinned(fs, c.effectId).Some? && Pinned(fs, c.effectId) != Some(c)
    requires forall id :: id in fs.records ==> fs.records[id].command.effectId == id
    ensures Writes(fs, pid, c) == [] && Answer(fs, c).Err?
  {
  }

  predicate Undoes(c: Command, id: Text)
  {
    c.operation == Compensate && Target(c) == Some(id)
  }

  /** Compensation is asked for recorded effects only. */
  ghost predicate Disciplined(fs: Files, e: Event)
  {
    forall id :: Undoes(e.command, id) ==> id in fs.records
  }

  /** Applied now, or settled by a record for good. */
  predicate Spent(fs: Files, id: Text)
  {
    id in fs.world || id in fs.records
  }

  predicate Creates(fs: Files, e: Event, id: Text)
  {
    id !in fs.world && id in Next(fs, e).world
  }

  /** A world file appears only under its own effect's commit command, and holds
      that command's effect, operation, payload and digest. */
  lemma CreationNeedsOwnCommand(fs: Files, e: Event, id: Text)
    requires Creates(fs, e, id)
    ensures e.command.effectId == id && e.command.operation == Commit && !Spent(fs, id)
    ensures var file := Next(fs, e).world[id];
            && file.effectId == e.command.effectId
            && file.operation == e.command.operation
            && file.payload == e.command.payload
            && file.requestDigest == e.command.requestDigest
            && file.requestDigest == PayloadDigest(file.operation, file.payload)
  {
    NextIsPartial(fs, e);
    hide Interrupted, Addressable;
  }

  /** The writes an attempt makes before it touches the world. */
  function WritesBeforeWorld(fs: Files, pid: nat, c: Command): nat
  {
    |StageWrites(fs, pid, c)| + if c.effectId in fs.intents then 0 else 1
  }

  lemma {:induction false} PerformSplit(fs: Files, ws: seq<Write>, n: nat)
    requires n <= |ws|
    ensures Perform(fs, ws) == Perform(Perform(fs, ws[..n]), ws[n..])
    decreases n
  {
    if n > 0 {
      PerformSplit(Do(fs, ws[0]), ws[1..], n - 1);
      assert ws[..n][1..] == ws[1..][..n - 1] && ws[1..][n - 1..] == ws[n..];
    } else {
      assert ws[..0] == [] && ws[0..] == ws;
    }
  }

  lemma {:induction false} QuietWrites(fs: Files, ws: seq<Write>)
    requires forall i :: 0 <= i < |ws| ==> ws[i].PutIntent? || ws[i].Stage?
    ensures Perform(fs, ws).world == fs.world && Perform(fs, ws).records == fs.records
    decreases |ws|
  {
    if ws != [] { QuietWrites(Do(fs, ws[0]), ws[1..]); }
  }

  predicate Removes(fs: Files, c: Command)
  {
    Takes(fs, c) && c.operation == Compensate && Target(c).Some? && Target(c).value in fs.world
  }

  /** A compensation stages, removes the world file, renames and cleans up. */
  lemma UndoWrites(fs: Files, pid: nat, c: Command)
    requires Removes(fs, c)
    ensures var ws, k := Writes(fs, pid, c), WritesBeforeWorld(fs, pid, c);
            && |ws| == k + 3
            && ws[k..] == [RemoveWorld(Target(c).value), Rename(pid, ObservationOf(c)), RemoveIntent(c.effectId)]
            && forall i :: 0 <= i < k ==> ws[i].PutIntent? || ws[i].Stage?
  {
    hide WellFormed, Addressable, ObservationOf;
  }

  lemma RemovedSoFar(fs: Files, ws: seq<Write>, n: nat)
    requires |ws| == 3 && ws[0].RemoveWorld? && ws[1].Rename? && ws[2].RemoveIntent? && 1 <= n <= 3
    ensures Perform(fs, ws[..n]).world == fs.world - {ws[0].id}
    ensures Perform(fs, ws[..n]).records ==
            if n == 1 then fs.records else fs.records[ws[1].record.command.effectId := ws[1].record]
  {
    if n == 1 { assert ws[..n] == [ws[0]] && [ws[0]][1..] == []; }
    else if n == 2 { assert ws[..n] == [ws[0], ws[1]]; PerformTwo(fs, ws[0], ws[1]); }
    else { assert ws[..n] == [ws[0], ws[1], ws[2]]; PerformThree(fs, ws[0], ws[1], ws[2]); }
  }

  /** So how far it gets decides what it has changed. */
  lemma UndoneSoFar(fs: Files, e: Event)
    requires Removes(fs, e.command)
    ensures var k := WritesBeforeWorld(fs, e.pid, e.command);
            && Next(fs, e).world == (if e.survives <= k then fs.world else fs.world - {Target(e.command).value})
            && Next(fs, e).records == (if e.survives <= k + 1 then fs.records
                                       else fs.records[e.command.effectId := ObservationOf(e.command)])
  {
    hide Writes, WritesBeforeWorld, Target, Takes, Answer, WellFormed, Addressable, Perform, Do, Next;
    var ws, k := Writes(fs, e.pid, e.command), WritesBeforeWorld(fs, e.pid, e.command);
    UndoWrites(fs, e.pid, e.command);
    NextPerforms(fs, e);
    var n := if e.survives < |ws| then e.survives else |ws|;
    if n <= k {
      QuietWrites(fs, ws[..n]);
    } else {
      PerformSplit(fs, ws[..n], k);
      QuietWrites(fs, ws[..n][..k]);
      assert ws[..n][k..] == ws[k..][..n - k];
      assert ws[k..][0] == RemoveWorld(Target(e.command).value) && ws[k..][1] == Rename(e.pid, ObservationOf(e.command));
      RemovedSoFar(Perform(fs, ws[..n][..k]), ws[k..], n - k);
    }
  }

  lemma NextPerforms(fs: Files, e: Event)
    ensures var ws := Writes(fs, e.pid, e.command);
            Next(fs, e) == Perform(fs, ws[..if e.survives < |ws| then e.survives else |ws|])
  {
    hide Writes, Answer;
    var ws := Writes(fs, e.pid, e.command);
    assert ws[..|ws|] == ws;
  }

  /** Decided before the attempt: it would compensate an effect that has its
      world file but no record yet, gets past that file's removal, and, should it
      be about itself, not as far as its own record. */
  predicate Unsettles(fs: Files, e: Event, id: Text)
  {
    && id !in fs.records && id in fs.world
    && Undoes(e.command, id) && Takes(fs, e.command)
    && WritesBeforeWorld(fs, e.pid, e.command) < e.survives
    && (e.command.effectId == id ==> e.survives <= WritesBeforeWorld(fs, e.pid, e.command) + 1)
  }

  /** One attempt leaves a spent effect spent exactly unless it unsettles it. */
  lemma SpentStep(fs: Files, e: Event, id: Text)
    requires Spent(fs, id)
    ensures Spent(Next(fs, e), id) <==> !Unsettles(fs, e, id)
  {
    hide Interrupted, WellFormed, Addressable, WritesBeforeWorld, ObservationOf;
    if id in fs.records { PinStep(fs, e, id); }
    else if Undoes(e.command, id) && Takes(fs, e.command) { UndoneSoFar(fs, e); }
    else { NextIsPartial(fs, e); }
  }

  lemma {:induction false} StaysSpent(states: seq<Files>, events: seq<Event>, i: nat, n: nat, id: Text)
    requires IsRun(states, events) && i <= n < |states| && Spent(states[i], id)
    requires forall k :: 0 <= k < |events| ==> Disciplined(states[k], events[k])
    ensures Spent(states[n], id)
  {
    if i < n {
      StaysSpent(states, events, i, n - 1, id);
      SpentStep(states[n - 1], events[n - 1], id);
      if id in states[n - 1].records { PinStep(states[n - 1], events[n - 1], id); }
    }
  }

  /** If only recorded effects are compensated, then over every run, crashes
      included, each world file is created at most once. */
  lemma CreatedAtMostOnce(states: seq<Files>, events: seq<Event>, i: nat, j: nat, id: Text)
    requires IsRun(states, events) && i < j < |events|
    requires forall k :: 0 <= k < |events| ==> Disciplined(states[k], events[k])
    requires Creates(states[i], events[i], id)
    ensures !Creates(states[j], events[j], id)
  {
    StaysSpent(states, events, i + 1, j, id);
    if Creates(states[j], events[j], id) { CreationNeedsOwnCommand(states[j], events[j], id); }
  }

  /** A recorded effect whose world file is gone stays undone. */
  lemma {:induction false} CompensatedStaysUndone(states: seq<Files>, events: seq<Event>, i: nat, n: nat, id: Text)
    requires IsRun(states, events) && i <= n < |states|
    requires id in states[i].records && id !in states[i].world
    ensures id in states[n].records && id !in states[n].world
  {
    if i < n {
      CompensatedStaysUndone(states, events, i, n - 1, id);
      PinStep(states[n - 1], events[n - 1], id);
      if id in states[n].world { CreationNeedsOwnCommand(states[n - 1], events[n - 1], id); }
    }
  }

  /******* What records say about the world *******/

  ghost predicate RecordTrue(fs: Files, id: Text)
    requires id in fs.records
  {
    var c := fs.records[id].command;
    && c.effectId == id && WellFormed(c) && Target(c).Some?
    && fs.records[id] == ObservationOf(c)
    && (c.operation == Commit && id in fs.world ==> fs.world[id] == ApplicationOf(c))
    && (c.operation == Compensate ==> Target(c).value in fs.records && Target(c).value !in fs.world)
  }

  ghost predicate Truthful(fs: Files)
  {
    forall id :: id in fs.records ==> RecordTrue(fs, id)
  }

  lemma TruthStep(fs: Files, e: Event)
    requires Truthful(fs) && Disciplined(fs, e)
    ensures Truthful(Next(fs, e))
  {
    var fs', c := Next(fs, e), e.command;
    NextIsPartial(fs, e);
    hide Interrupted, Next, Addressable;
    forall id | id in fs'.records ensures RecordTrue(fs', id) {
      if id in fs.records {
        assert RecordTrue(fs, id);
        if fs.records[id].command.operation == Compensate {
          var original := Target(fs.records[id].command).value;
          assert original in fs'.world ==> Creates(fs, e, original);
        }
      } else {
        assert id == c.effectId && Takes(fs, c) && fs'.world == Mutated(fs.world, c);
        if c.operation == Compensate { assert Undoes(c, Target(c).value); }
      }
    }
  }

  /** Under the same discipline a record is never read as corrupt: it reads back
      as written exactly while its world file stands, or always if it records a
      compensation. */
  lemma {:induction false} RecordsStayTruthful(states: seq<Files>, events: seq<Event>, n: nat)
    requires IsRun(states, events) && n < |states| && Truthful(states[0])
    requires forall k :: 0 <= k < |events| ==> Disciplined(states[k], events[k])
    ensures Truthful(states[n])
    ensures forall id :: id in states[n].records ==>
              && Read(states[n], id) != Err(Invalid)
              && (Read(states[n], id) == Ok(states[n].records[id]) <==>
                    states[n].records[id].command.operation == Compensate || id in states[n].world)
  {
    if n > 0 {
      RecordsStayTruthful(states, events, n - 1);
      TruthStep(states[n - 1], events[n - 1]);
    }
    forall id | id in states[n].records
      ensures && Read(states[n], id) != Err(Invalid)
              && (Read(states[n], id) == Ok(states[n].records[id]) <==>
                    states[n].records[id].command.operation == Compensate || id in states[n].world)
    {
      assert RecordTrue(states[n], id);
    }
  }

  /******* Why compensation must wait for the record *******/

  const SamplePayload := Payload([ObjectiveTag], RuntimeEffect, [ObjectiveTag], None)
  const SampleId: Text := [EffectTag] + seq(64, _ => Ch('a'))
  const UndoId: Text := [EffectTag] + seq(64, _ => Ch('b'))
  const UndoPayload := Payload([ObjectiveTag], RuntimeEffect, SampleId, Some(SampleId))
  const SampleCommand := Execute(SampleId, "c", EffectKey([ObjectiveTag]), PayloadDigest(Commit, SamplePayload), Commit, SamplePayload)
  const UndoCommand := Execute(UndoId, "u", CompensationKey(SampleId), PayloadDigest(Compensate, UndoPayload), Compensate, UndoPayload)
  const NoFiles := Files(map[], map[], map[], {})

  lemma PerformThree(fs: Files, a: Write, b: Write, c: Write)
    ensures Perform(fs, [a, b, c]) == Do(Do(Do(fs, a), b), c)
  {
    assert [a, b, c][1..] == [b, c] && [b, c][1..] == [c] && [c][1..] == [];
    assert Perform(Do(Do(fs, a), b), [c]) == Do(Do(Do(fs, a), b), c);
  }

  lemma SampleDies()
    ensures var fs := Next(NoFiles, Event(0, SampleCommand, 3));
            && fs.world == map[SampleId := ApplicationOf(SampleCommand)] && fs.records == map[]
            && fs.intents == map[SampleId := SampleCommand]
  {
    assert SampleId[1] == Ch('a');
    var o := ObservationOf(SampleCommand);
    var ws := Writes(NoFiles, 0, SampleCommand);
    assert |ws| == 5 && ws[..3] == [PutIntent(SampleCommand), Stage(0, o), PutWorld(SampleCommand)];
    PerformThree(NoFiles, PutIntent(SampleCommand), Stage(0, o), PutWorld(SampleCommand));
  }

  lemma FiveWritesFinish(fs: Files, e: Event)
    requires e.survives == 5
    ensures Next(fs, e).world == WorldAfter(fs, e.command) && Next(fs, e).records == RecordsAfter(fs, e.command)
    ensures Partial(fs, Next(fs, e), e.command)
  {
    AllWritesAreTheStep(fs, e.pid, e.command);
    NextIsPartial(fs, e);
    assert |Writes(fs, e.pid, e.command)| <= 5;
  }

  /** An execution that dies after its world write, a compensation, and the
      retry: the world file is created twice. */
  lemma UndisciplinedCreatesTwice()
    ensures var first := Event(0, SampleCommand, 3);
            var undo := Event(1, UndoCommand, 5);
            var again := Event(2, SampleCommand, 5);
            && Creates(NoFiles, first, SampleId)
            && !Disciplined(Next(NoFiles, first), undo)
            && Creates(Next(Next(NoFiles, first), undo), again, SampleId)
  {
    SampleDies();
    var fs := Next(NoFiles, Event(0, SampleCommand, 3));
    hide Next, Partial;
    assert SampleId[1] == Ch('a') && UndoId[1] == Ch('b');
    assert Undoes(UndoCommand, SampleId);
    FiveWritesFinish(fs, Event(1, UndoCommand, 5));
    var fs' := Next(fs, Event(1, UndoCommand, 5));
    assert fs'.world == map[] && SampleId !in fs'.records;
    assert fs'.intents[SampleId] == SampleCommand by { PinStep(fs, Event(1, UndoCommand, 5), SampleId); }
    FiveWritesFinish(fs', Event(2, SampleCommand, 5));
  }

  /******* The provider as the service runs it *******/

  lemma InterruptedStep(fs: Files, pid: nat, c: Command, survives: nat)
    requires Writes(fs, pid, c) != [] && !Writes(fs, pid, c)[0].Rename?
    ensures survives == 0 ==> Interrupted(fs, pid, c, survives) == (fs, Err(Storage))
    ensures survives > 0 ==>
              Interrupted(fs, pid, c, survives) == Interrupted(Do(fs, Writes(fs, pid, c)[0]), pid, c, survives - 1)
  {
    OneWrite(fs, pid, c);
    var ws := Writes(fs, pid, c);
    hide Writes, Answer, Do;
    if 0 < survives <= |ws| { assert ws[..survives][1..] == ws[1..][..survives - 1]; }
  }

  lemma InterruptedRename(fs: Files, pid: nat, c: Command, survives: nat)
    requires Writes(fs, pid, c) != [] && Writes(fs, pid, c)[0].Rename?
    ensures var renamed := Do(fs, Writes(fs, pid, c)[0]);
            Interrupted(fs, pid, c, survives) ==
            if survives == 0 then (fs, Err(Storage))
            else if survives == 1 then (renamed, Err(Storage))
            else (Do(renamed, RemoveIntent(c.effectId)), Ok(ObservationOf(c)))
  {
    OneWrite(fs, pid, c);
    var ws := Writes(fs, pid, c);
    assert Answer(fs, c) == Ok(ObservationOf(c));
    hide Writes, Answer, Do;
    assert ws[1] == ws[1..][0] && ws == [ws[0], ws[1]];
    if survives == 0 { assert ws[..0] == []; }
    else if survives == 1 { assert ws[..1][1..] == []; assert Perform(fs, ws[..1]) == Do(fs, ws[0]); }
    else { PerformTwo(fs, ws[0], ws[1]); }
  }

  lemma PerformTwo(fs: Files, a: Write, b: Write)
    ensures Perform(fs, [a, b]) == Do(Do(fs, a), b)
  {
    assert [a, b][1..] == [b] && [b][1..] == [];
    assert Perform(Do(fs, a), [b]) == Do(Do(fs, a), b);
  }

  class OfflineProvider {
    var records: map<Text, Observation>
    var intents: map<Text, Command>
    var world: map<Text, Application>
    var staged: set<(nat, Observation)>

    function Disk(): Files
      reads this
    {
      Files(records, intents, world, staged)
    }

    constructor (fs: Files)
      ensures Disk() == fs
    {
      records, intents, world, staged := fs.records, fs.intents, fs.world, fs.staged;
    }

    method Replay(c: Command) returns (r: Result<Observation, ProviderError>)
      requires WellFormed(c) && Addressable(c.effectId) && c.effectId in records
      ensures r == Answer(Disk(), c)
    {
      var prior := Read(Disk(), c.effectId);
      if prior.Err? { return prior; }
      r := if prior.value.command.(effectId := c.effectId) == c then prior else Err(Conflict);
    }

    /** `execute`; the process dies once it has made `survives` file writes. */
    method Execute(pid: nat, c: Command, survives: nat) returns (r: Result<Observation, ProviderError>)
      modifies this
      ensures (Disk(), r) == Interrupted(old(Disk()), pid, c, survives)
    {
      if !WellFormed(c) || !Addressable(c.effectId) { return Err(Invalid); }
      if c.effectId in records {
        r := Replay(c);
        return;
      }
      if c.effectId in intents && intents[c.effectId] != c { return Err(Conflict); }
      var left := survives;
      if c.effectId !in intents {
        InterruptedStep(Disk(), pid, c, left);
        if left == 0 { return Err(Storage); }
        intents := intents[c.effectId := c];
        left := left - 1;
      }
      assert Interrupted(Disk(), pid, c, left) == Interrupted(old(Disk()), pid, c, survives);
      r := Apply(pid, c, left);
    }

    method Apply(pid: nat, c: Command, survives: nat) returns (r: Result<Observation, ProviderError>)
      requires Starts(Disk(), c) && c.effectId in intents
      modifies this
      ensures (Disk(), r) == Interrupted(old(Disk()), pid, c, survives)
    {
      if Target(c).None? { return Err(Invalid); }
      var observation, left := ObservationOf(c), survives;
      if (pid, observation) !in staged {
        InterruptedStep(Disk(), pid, c, left);
        if left == 0 { return Err(Storage); }
        staged := staged + {(pid, observation)};
        left := left - 1;
      }
      assert Interrupted(Disk(), pid, c, left) == Interrupted(old(Disk()), pid, c, survives);
      r := Mutate(pid, c, left);
    }

    method Mutate(pid: nat, c: Command, survives: nat) returns (r: Result<Observation, ProviderError>)
      requires Starts(Disk(), c) && c.effectId in intents && Target(c).Some?
      requires (pid, ObservationOf(c)) in staged
      modifies this
      ensures (Disk(), r) == Interrupted(old(Disk()), pid, c, survives)
    {
      var left := survives;
      if c.operation == Compensate {
        if Target(c).value in world {
          InterruptedStep(Disk(), pid, c, left);
          if left == 0 { return Err(Storage); }
          world := world - {Target(c).value};
          left := left - 1;
        }
      } else if c.effectId !in world {
        InterruptedStep(Disk(), pid, c, left);
        if left == 0 { return Err(Storage); }
        world := world[c.effectId := ApplicationOf(c)];
        left := left - 1;
      } else if world[c.effectId] != ApplicationOf(c) {
        return Err(Conflict);
      }
      assert Interrupted(Disk(), pid, c, left) == Interrupted(old(Disk()), pid, c, survives);
      r := Record(pid, c, left);
    }

    method Record(pid: nat, c: Command, survives: nat) returns (r: Result<Observation, ProviderError>)
      requires Starts(Disk(), c) && c.effectId in intents && Target(c).Some?
      requires (pid, ObservationOf(c)) in staged && Mutated(world, c) == world
      modifies this
      ensures (Disk(), r) == Interrupted(old(Disk()), pid, c, survives)
    {
      InterruptedRename(Disk(), pid, c, survives);
      hide Interrupted;
      if survives == 0 { return Err(Storage); }
      records, staged := records[c.effectId := ObservationOf(c)], staged - {(pid, ObservationOf(c))};
      if survives == 1 { return Err(Storage); }
      intents := intents - {c.effectId};
      r := Read(Disk(), c.effectId);
    }
  }
}
