/** The effect ledger over whole runs of operations, failed writes and restarts. */
module LedgerRuns {
  import opened Contracts
  import opened EffectLedger
  import opened LedgerInvariant

  /******* Runs, failed writes and restarts *******/

  datatype Event = Do(op: Op, fault: Fault) | Crash

  function Next(s: Session, e: Event): Session
  {
    match e
    case Do(op, fault) => Run(s, op, fault).0
    case Crash => Reopen(s)
  }

  ghost predicate IsRun(states: seq<Session>, events: seq<Event>)
  {
    && |states| == |events| + 1
    && forall i :: 0 <= i < |events| ==> states[i + 1] == Next(states[i], events[i])
  }

  /** What a restart would read back. */
  function Image(s: Session): Ledger
  {
    Reopen(s).mem
  }

  /** The write whose outcome is unknown: it failed, and all that is left of it
      is that the file may already be the new one. */
  ghost predicate InDoubt(s: Session, s': Session, e: Event)
  {
    && e.Do? && s.available && s.mem == Image(s)
    && Run(s, e.op, e.fault).1 == Err(Storage)
    && Apply(s.mem, e.op) == Changed(Image(s'))
    && s'.mem == s.mem && !s'.available
  }

  /** An operation that reports an error has not touched the records, and once
      a write has failed nothing touches records or file again. */
  lemma ErrorsChangeNothing(s: Session, op: Op, fault: Fault)
    ensures Run(s, op, fault).1.Err? ==> Run(s, op, fault).0.mem == s.mem
    ensures !s.available ==> Run(s, op, fault).0 == s
    ensures Run(s, op, fault).1 == Err(Storage) ==> !Run(s, op, fault).0.available
  {
    match op
    case MoveEffect(id, m) => assert id in s.mem.effects ==> MoveEntry(EntryOf(s.mem, id), m) != Err(Storage);
    case _ =>
  }

  lemma StepCrashAtomic(s: Session, e: Event)
    requires s.onDisk && s.available && s.mem == Image(s)
    ensures Next(s, e).onDisk
    ensures Next(s, e).available ==> Next(s, e).mem == Image(Next(s, e))
    ensures Next(s, e).available || Image(Next(s, e)) == s.mem == Next(s, e).mem || InDoubt(s, Next(s, e), e)
  {
    hide Apply;
    if e.Do? { assert Run(s, e.op, e.fault).0.available ==> Next(s, e).mem == Image(Next(s, e)); }
  }

  /** A restart at any moment reads back the records every acknowledged
      operation left, or those and exactly the one operation whose write failed;
      until the restart neither records nor file change any more. */
  lemma {:induction false} CrashAtomicity(states: seq<Session>, events: seq<Event>, n: nat)
    requires IsRun(states, events) && n < |states|
    requires states[0].onDisk && states[0].available && states[0].mem == Image(states[0])
    ensures states[n].onDisk
    ensures states[n].available ==> Image(states[n]) == states[n].mem
    ensures !states[n].available ==>
              exists i :: 0 <= i < n && events[i].Do? && states[i].available
                && states[n].mem == states[i].mem == Image(states[i])
                && (Image(states[n]) == states[n].mem || InDoubt(states[i], states[n], events[i]))
  {
    if n > 0 {
      CrashAtomicity(states, events, n - 1);
      var s, e := states[n - 1], events[n - 1];
      assert states[n] == Next(s, e);
      hide Apply;
      if s.available {
        StepCrashAtomic(s, e);
        assert !states[n].available ==> e.Do? && states[n].mem == s.mem;
      } else if e.Do? {
        ErrorsChangeNothing(s, e.op, e.fault);
        assert states[n] == s;
      } else {
        assert states[n].available && Image(states[n]) == states[n].mem;
      }
    }
  }

  ghost predicate SessionSound(s: Session)
  {
    && LedgerSound(s.mem)
    && LedgerSound(Image(s))
    && (s.onDisk ==> Extends(s.mem, Image(s)))
  }

  lemma SessionStep(s: Session, e: Event)
    requires SessionSound(s) && s.onDisk && (s.available ==> s.mem == Image(s))
    ensures SessionSound(Next(s, e)) && Extends(s.mem, Next(s, e).mem)
  {
    hide LedgerSound, Extends, Apply;
    ExtendsItself(s.mem);
    ExtendsItself(Image(s));
    if e.Do? && Apply(s.mem, e.op).Changed? {
      OpKeepsSound(s.mem, e.op);
      ExtendsItself(Apply(s.mem, e.op).ledger);
    }
  }

  /** Over every run with failed writes and restarts, the ledger is sound and
      only grows: no effect is lost, no history is rewritten, and a terminal
      effect never changes again. */
  lemma {:induction false} LedgerStaysSound(states: seq<Session>, events: seq<Event>, i: nat, n: nat)
    requires IsRun(states, events) && i <= n < |states|
    requires states[0].onDisk && states[0].available && states[0].mem == Image(states[0])
    requires SessionSound(states[0])
    ensures SessionSound(states[n]) && SessionSound(states[i])
    ensures Extends(states[i].mem, states[n].mem)
  {
    hide LedgerSound, Extends, Apply, InDoubt;
    ExtendsItself(states[i].mem);
    if i < n {
      LedgerStaysSound(states, events, i, n - 1);
      CrashAtomicity(states, events, n - 1);
      SessionStep(states[n - 1], events[n - 1]);
      ExtendsChains(states[i].mem, states[n - 1].mem, states[n].mem);
    } else if n > 0 {
      LedgerStaysSound(states, events, i - 1, n - 1);
      CrashAtomicity(states, events, n - 1);
      SessionStep(states[n - 1], events[n - 1]);
    }
  }
}
