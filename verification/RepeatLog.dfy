/** Suppression of repeated log messages (crates/aipass-agent/src/logging.rs).

    A key stands for component, level and sanitized message.  Clock readings are
    milliseconds; they come from several threads and need not be ordered, so
    differences saturate at zero as they do in the source. */
module RepeatLog {
  import opened Sets

  datatype Key = Key(component: string, level: string, message: string)

  datatype Entry = Entry(lastWritten: nat, suppressed: nat)

  type Table = map<Key, Entry>

  const WINDOW: nat := 60_000
  const MAX_TRACKED: nat := 1024
  const U64_MAX: nat := 0xFFFF_FFFF_FFFF_FFFF

  /** What becomes of one message: dropped, written as it is, or written with the
      number of repeats dropped before it. */
  datatype Verdict = Dropped | Plain | WithRepeats(count: nat)

  function Elapsed(now: nat, since: nat): nat {
    if now < since then 0 else now - since
  }

  function Saturated(n: nat): nat {
    if n > U64_MAX then U64_MAX else n
  }

  function Fresh(table: Table, now: nat): (live: Table)
    ensures live.Keys <= table.Keys
  {
    map key | key in table && Elapsed(now, table[key].lastWritten) < WINDOW :: table[key]
  }

  /** The table and the verdict after one message. */
  function Prepare(table: Table, key: Key, now: nat): (Table, Verdict) {
    if key !in table then
      var room := if |table| >= MAX_TRACKED then Fresh(table, now) else table;
      if |room| >= MAX_TRACKED then (room, Plain)
      else (room[key := Entry(now, 0)], Plain)
    else
      var entry := table[key];
      if Elapsed(now, entry.lastWritten) < WINDOW then
        (table[key := entry.(suppressed := Saturated(entry.suppressed + 1))], Dropped)
      else
        (table[key := Entry(now, 0)], if entry.suppressed == 0 then Plain else WithRepeats(entry.suppressed))
  }

  class RepeatTable {
    var entries: Table

    constructor ()
      ensures entries == map[]
    {
      entries := map[];
    }

    method PrepareAt(key: Key, now: nat) returns (verdict: Verdict)
      modifies this
      ensures (entries, verdict) == Prepare(old(entries), key, now)
    {
      if key !in entries {
        if |entries| >= MAX_TRACKED {
          entries := Fresh(entries, now);
          if |entries| >= MAX_TRACKED {
            return Plain;
          }
        }
        entries := entries[key := Entry(now, 0)];
        return Plain;
      }
      var state := entries[key];
      if Elapsed(now, state.lastWritten) < WINDOW {
        entries := entries[key := state.(suppressed := Saturated(state.suppressed + 1))];
        return Dropped;
      }
      entries := entries[key := Entry(now, 0)];
      verdict := if state.suppressed == 0 then Plain else WithRepeats(state.suppressed);
    }

    /** One call of the logger.  Inside a request scope the table is not consulted;
        a write that fails forgets its key either way. */
    method TryWrite(key: Key, now: nat, scoped: bool, writeSucceeds: bool) returns (verdict: Verdict, ok: bool)
      modifies this
      ensures (entries, verdict, ok) == Write(old(entries), key, now, scoped, writeSucceeds)
    {
      verdict := Plain;
      if !scoped {
        verdict := PrepareAt(key, now);
      }
      if verdict == Dropped {
        return verdict, true;
      }
      ok := writeSucceeds;
      if !writeSucceeds {
        entries := entries - {key};
      }
    }
  }

  function Write(table: Table, key: Key, now: nat, scoped: bool, writeSucceeds: bool): (Table, Verdict, bool) {
    var (after, verdict) := if scoped then (table, Plain) else Prepare(table, key, now);
    if verdict == Dropped then (after, verdict, true)
    else (if writeSucceeds then after else after - {key}, verdict, writeSucceeds)
  }

  /** After a failed write the next message of its key is not suppressed, whenever it
      comes. */
  lemma FailedWriteShowsNext(table: Table, key: Key, now: nat, scoped: bool, later: nat)
    requires !Write(table, key, now, scoped, false).2
    ensures Prepare(Write(table, key, now, scoped, false).0, key, later).1 == Plain
  {
    assert key !in Write(table, key, now, scoped, false).0;
  }

  // ---- Runs ----------------------------------------------------------------

  /** The atomic steps, in the order in which they take the table's lock.  A failed
      write is a `Forget` after the message was prepared. */
  datatype Step = Message(key: Key, now: nat) | Forget(key: Key)

  /** What an observer of the log sees of a step. */
  datatype Event = Written(key: Key, at: nat) | Skipped(key: Key) | Failed(key: Key)

  datatype Log = Log(table: Table, events: seq<Event>)

  function Next(log: Log, step: Step): Log {
    match step
    case Message(key, now) =>
      var (after, verdict) := Prepare(log.table, key, now);
      Log(after, log.events + [if verdict == Dropped then Skipped(key) else Written(key, now)])
    case Forget(key) => Log(log.table - {key}, log.events + [Failed(key)])
  }

  function Run(steps: seq<Step>): Log {
    if steps == [] then Log(map[], [])
    else Next(Run(steps[..|steps| - 1]), steps[|steps| - 1])
  }

  /** What the events alone say about a key: when it was last written without that
      write having failed, and how often it was skipped since. */
  datatype Memory = Nothing | Since(at: nat, skipped: nat)

  function Recall(events: seq<Event>, key: Key): Memory {
    if events == [] then Nothing
    else
      var before := Recall(events[..|events| - 1], key);
      match events[|events| - 1]
      case Written(k, at) => if k == key then Since(at, 0) else before
      case Skipped(k) => if k == key && before.Since? then before.(skipped := before.skipped + 1) else before
      case Failed(k) => if k == key then Nothing else before
  }

  /** Every tracked key agrees with what the events say about it. */
  ghost predicate Agrees(table: Table, events: seq<Event>) {
    forall key :: key in table ==>
      && Recall(events, key).Since?
      && Recall(events, key).at == table[key].lastWritten
      && Saturated(Recall(events, key).skipped) == table[key].suppressed
  }

  lemma FreshShrinks(table: Table, now: nat)
    ensures |Fresh(table, now)| <= |table|
  {
    SubsetSize(Fresh(table, now).Keys, table.Keys);
    assert |Fresh(table, now)| == |Fresh(table, now).Keys| && |table| == |table.Keys|;
  }

  lemma PrepareStaysBounded(table: Table, key: Key, now: nat)
    requires |table| <= MAX_TRACKED
    ensures |Prepare(table, key, now).0| <= MAX_TRACKED
  {
    FreshShrinks(table, now);
    var after := Prepare(table, key, now).0;
    if key in table {
      assert after.Keys == table.Keys;
      assert |after| == |after.Keys| && |table| == |table.Keys|;
    }
  }

  lemma MessageAgrees(table: Table, events: seq<Event>, key: Key, now: nat)
    requires Agrees(table, events)
    ensures var (after, verdict) := Prepare(table, key, now);
      Agrees(after, events + [if verdict == Dropped then Skipped(key) else Written(key, now)])
  {
    var (after, verdict) := Prepare(table, key, now);
    var event := if verdict == Dropped then Skipped(key) else Written(key, now);
    assert (events + [event])[..|events|] == events;
    forall k | k in after
      ensures k != key ==> k in table && after[k] == table[k]
      ensures k != key ==> Recall(events + [event], k) == Recall(events, k)
    {
    }
  }

  lemma StepAgrees(log: Log, step: Step)
    requires |log.table| <= MAX_TRACKED && Agrees(log.table, log.events)
    ensures |Next(log, step).table| <= MAX_TRACKED
    ensures Agrees(Next(log, step).table, Next(log, step).events)
  {
    match step
    case Message(key, now) =>
      PrepareStaysBounded(log.table, key, now);
      MessageAgrees(log.table, log.events, key, now);
    case Forget(key) =>
      var kept := log.table - {key};
      assert (log.events + [Failed(key)])[..|log.events|] == log.events;
      SubsetSize(kept.Keys, log.table.Keys);
      assert |kept| == |kept.Keys| && |log.table| == |log.table.Keys|;
  }

  /** Over every run the table stays within its bound and agrees with the log. */
  lemma {:induction false} RunAgrees(steps: seq<Step>)
    ensures |Run(steps).table| <= MAX_TRACKED
    ensures Agrees(Run(steps).table, Run(steps).events)
  {
    if steps != [] {
      RunAgrees(steps[..|steps| - 1]);
      StepAgrees(Run(steps[..|steps| - 1]), steps[|steps| - 1]);
    }
  }

  /** A message is dropped only within the window after its key was written, that
      write did not fail, and a reported count is the number of repeats dropped
      since then (saturating at 64 bits). */
  lemma VerdictsAreJustified(steps: seq<Step>, key: Key, now: nat)
    ensures var memory := Recall(Run(steps).events, key);
      match Prepare(Run(steps).table, key, now).1
      case Dropped => memory.Since? && Elapsed(now, memory.at) < WINDOW
      case WithRepeats(n) =>
        memory.Since? && Elapsed(now, memory.at) >= WINDOW && n == Saturated(memory.skipped) > 0
      case Plain => key in Run(steps).table ==> memory.Since? && memory.skipped == 0
  {
    RunAgrees(steps);
  }

  /** A tracked key leaves the table only when its write fails or its window has
      passed at a reading no later than the last one: with ordered readings a
      repeat inside the window is dropped whatever else is logged meanwhile. */
  lemma {:induction false} RepeatsAreDropped(table: Table, steps: seq<Step>, key: Key, now: nat)
    requires key in table && Elapsed(now, table[key].lastWritten) < WINDOW
    requires forall step :: step in steps ==> if step.Message? then step.now <= now else step.key != key
    ensures var after := RunFrom(table, steps);
      && key in after
      && after[key].lastWritten == table[key].lastWritten
      && Prepare(after, key, now).1 == Dropped
    decreases |steps|
  {
    if steps != [] {
      RepeatsAreDropped(Apply(table, steps[0]), steps[1..], key, now);
    }
  }

  function Apply(table: Table, step: Step): Table {
    match step
    case Message(key, now) => Prepare(table, key, now).0
    case Forget(key) => table - {key}
  }

  function RunFrom(table: Table, steps: seq<Step>): Table
    decreases |steps|
  {
    if steps == [] then table else RunFrom(Apply(table, steps[0]), steps[1..])
  }

  /** A tracked key leaves the table exactly when its own write fails, or when a new key
      meets a full table at a reading past its window. */
  lemma ForgottenExactly(table: Table, key: Key, step: Step)
    requires key in table
    ensures key !in Apply(table, step) <==>
      || step == Forget(key)
      || (step.Message? && step.key !in table && |table| >= MAX_TRACKED
          && Elapsed(step.now, table[key].lastWritten) >= WINDOW)
  {
  }

  /** The order of readings matters: between a write and its repeat, a new key read at
      `ahead` makes the repeat appear again exactly when the table is full and the
      window has passed by that reading, though by `now` it is still open. */
  lemma SkewedReadingForgets(table: Table, key: Key, other: Key, ahead: nat, now: nat)
    requires key in table && other !in table && Elapsed(now, table[key].lastWritten) < WINDOW
    ensures var after := Apply(table, Message(other, ahead));
      Prepare(after, key, now).1 == (if |table| >= MAX_TRACKED && Elapsed(ahead, table[key].lastWritten) >= WINDOW
                                     then Plain else Dropped)
  {
    ForgottenExactly(table, key, Message(other, ahead));
  }
}
