/** What the provider answers, field by field: which commands it carries out,
    what they leave on its disk, and what is observed afterwards. */
module ProviderAnswers {
  import opened Contracts
  import opened OfflineProvider

  /** A commit or compensation under a well-formed identity, with the digest of its
      own payload. */
  predicate Proper(c: Command)
  {
    && (c.operation == Commit || c.operation == Compensate)
    && c.requestDigest == PayloadDigest(c.operation, c.payload)
    && |c.commandId| > 0 && c.idempotencyKey != OtherKey("")
    && Addressable(c.effectId)
  }

  /** What the provider knows the command by on its own: the transport, and the
      effect's file as it will stand, or the file that will be gone. */
  predicate Attests(o: Observation, c: Command)
  {
    && o.command == c && o.transportId == OfflineTransport(c.effectId, c.idempotencyKey)
    && match o.postcondition
       case Present(file) =>
         && c.operation == Commit && file.effectId == c.effectId && file.operation == c.operation
         && file.payload == c.payload && file.requestDigest == c.requestDigest
       case Absent(original) => c.operation == Compensate && c.payload.compensatesEffectId == Some(original)
  }

  /** A command for an effect without a record is carried out exactly when it is
      proper, no other was intended under its id, and its file is not there with
      other contents; a compensation names the file it removes. */
  predicate Open(fs: Files, c: Command)
  {
    && Proper(c) && c.effectId !in fs.records
    && (c.effectId in fs.intents ==> fs.intents[c.effectId] == c)
    && (c.operation == Commit && c.effectId in fs.world ==>
          fs.world[c.effectId] == Application(c.effectId, c.operation, c.payload, c.requestDigest))
    && (c.operation == Compensate ==> c.payload.compensatesEffectId.Some? && Addressable(c.payload.compensatesEffectId.value))
  }

  /** The world bears the record out. */
  predicate Stands(fs: Files, o: Observation)
  {
    if o.command.operation == Compensate then
      && o.command.payload.compensatesEffectId.Some?
      && Addressable(o.command.payload.compensatesEffectId.value)
      && o.command.payload.compensatesEffectId.value !in fs.world
      && o.postcondition == Absent(o.command.payload.compensatesEffectId.value)
    else o.command.effectId in fs.world && o.postcondition == Present(fs.world[o.command.effectId])
  }

  /** The answer is an observation for an open command, or for the one on record
      as long as the world bears it out; and an error otherwise. */
  lemma AnswerExactly(fs: Files, c: Command)
    ensures Answer(fs, c).Ok? <==>
              || Open(fs, c)
              || (&& Proper(c) && c.effectId in fs.records && Stands(fs, fs.records[c.effectId])
                  && fs.records[c.effectId].command.(effectId := c.effectId) == c)
    ensures Answer(fs, c).Ok? && c.effectId !in fs.records ==> Attests(Answer(fs, c).value, c)
    ensures Answer(fs, c).Ok? && c.effectId in fs.records ==> Answer(fs, c).value == fs.records[c.effectId]
  {
    hide Addressable;
  }

  /** The first write of an attempt leaves the rest of it to be made. */
  lemma FirstOfMany(fs: Files, pid: nat, c: Command)
    requires Takes(fs, c)
    ensures Writes(fs, pid, c) != []
    ensures var w := Writes(fs, pid, c)[0];
            var fs' := Do(fs, w);
            && (w.Rename? ==>
                  && Writes(fs, pid, c)[1..] == [RemoveIntent(c.effectId)]
                  && fs'.intents == fs.intents && fs'.staged == fs.staged - {(pid, ObservationOf(c))})
            && (!w.Rename? ==>
                  && Takes(fs', c) && Writes(fs', pid, c) == Writes(fs, pid, c)[1..]
                  && fs'.intents - {c.effectId} == fs.intents - {c.effectId}
                  && fs'.staged - {(pid, ObservationOf(c))} == fs.staged - {(pid, ObservationOf(c))})
  {
    hide WellFormed, Addressable, ObservationOf;
    assert Writes(fs, pid, c) != [];
    OneWrite(fs, pid, c);
    hide Answer;
  }

  lemma {:induction false} CleanedUp(fs: Files, pid: nat, c: Command)
    requires Takes(fs, c)
    ensures var done := Perform(fs, Writes(fs, pid, c));
            && done.intents == fs.intents - {c.effectId}
            && done.staged == fs.staged - {(pid, ObservationOf(c))}
    decreases |Writes(fs, pid, c)|
  {
    hide Writes, Takes, Do, ObservationOf;
    FirstOfMany(fs, pid, c);
    var ws := Writes(fs, pid, c);
    var fs' := Do(fs, ws[0]);
    if ws[0].Rename? {
      RemovesLast(fs', c.effectId);
    } else {
      CleanedUp(fs', pid, c);
    }
  }

  lemma RemovesLast(fs: Files, id: Text)
    ensures Perform(fs, [RemoveIntent(id)]) == fs.(intents := fs.intents - {id})
  {
    assert [RemoveIntent(id)][1..] == [];
  }

  /** An execution that is not cut short: an open command leaves its file, or
      removes the one it compensates, files its record, and clears its intent and
      its staged copy; any other changes neither world nor records. */
  lemma ExecuteExactly(fs: Files, pid: nat, c: Command, survives: nat)
    requires survives >= |Writes(fs, pid, c)|
    ensures var (fs', r) := Interrupted(fs, pid, c, survives);
            && r == Answer(fs, c)
            && (Open(fs, c) ==>
                  && r.Ok? && Attests(r.value, c)
                  && fs'.records == fs.records[c.effectId := r.value]
                  && fs'.intents == fs.intents - {c.effectId}
                  && fs'.staged == fs.staged - {(pid, r.value)}
                  && fs'.world == if c.operation == Commit
                       then fs.world[c.effectId := Application(c.effectId, c.operation, c.payload, c.requestDigest)]
                       else fs.world - {c.payload.compensatesEffectId.value})
            && (!Open(fs, c) ==> fs'.records == fs.records && fs'.world == fs.world)
  {
    AllWritesAreTheStep(fs, pid, c);
    AnswerExactly(fs, c);
    hide Writes, Addressable;
    if Open(fs, c) { CleanedUp(fs, pid, c); }
  }

  /** Never more than five writes. */
  lemma AtMostFiveWrites(fs: Files, pid: nat, c: Command)
    ensures |Writes(fs, pid, c)| <= 5
  {
  }

  /** OBSERVE reports the record exactly if it is on file under this id, for this
      digest, and borne out by the world. */
  lemma ObserveExactly(fs: Files, id: Text, digest: ParametersDigest)
    ensures Observe(fs, id, digest).Ok? <==>
              Addressable(id) && id in fs.records && Stands(fs, fs.records[id]) && fs.records[id].command.requestDigest == digest
    ensures Observe(fs, id, digest).Ok? ==> Observe(fs, id, digest).value == fs.records[id]
  {
    hide Addressable;
  }

  /** Whatever an execution answers is observed afterwards, unchanged. */
  lemma ExecutedIsObserved(fs: Files, pid: nat, c: Command, survives: nat)
    ensures var (fs', r) := Interrupted(fs, pid, c, survives);
            && (r.Ok? <==> survives >= |Writes(fs, pid, c)| && Answer(fs, c).Ok?)
            && (r.Ok? ==> Observe(fs', c.effectId, c.requestDigest) == Ok(r.value))
  {
    if survives >= |Writes(fs, pid, c)| && Answer(fs, c).Ok? {
      AllWritesAreTheStep(fs, pid, c);
      var fs' := Perform(fs, Writes(fs, pid, c));
      assert c.effectId in fs'.records && Answer(fs', c) == Answer(fs, c);
      hide Writes, Addressable;
    }
  }
}
