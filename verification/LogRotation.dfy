/** Size-bounded rotation of one component log (crates/aipass-agent/src/logging.rs).

    A directory is a map from slot numbers to files: slot 0 is the live file and
    slot `k` is `log.k`.  A file is the sequence of writes it received, so two
    files are told apart from one file holding the same bytes, and a write is
    never split over two files.  The advisory lock makes whole appends atomic
    with respect to one another; the failures of the operating system calls
    inside one append are a parameter. */
module LogRotation {
  import opened Wrappers

  newtype Byte = b: int | 0 <= b < 256

  type Line = seq<Byte>

  type Slots = map<nat, seq<Line>>

  const U64_MAX: nat := 0xFFFF_FFFF_FFFF_FFFF

  /** Which calls of one append fail.  `removeFails` and `renameFails` hold loop
      indices; `written` is the number of bytes that reach the file when the
      final write is cut short. */
  datatype Faults = Faults(
    failsBeforeOpen: bool,
    failsAfterOpen: bool,
    removeFails: set<nat>,
    renameFails: set<nat>,
    reopenFails: bool,
    written: Option<nat>
  )

  const NO_FAULTS := Faults(false, false, {}, {}, false, None)

  function Size(file: seq<Line>): nat {
    if file == [] then 0 else |file[0]| + Size(file[1..])
  }

  function Slot(files: Slots, k: nat): Option<seq<Line>> {
    if k in files then Some(files[k]) else None
  }

  function File(files: Slots, k: nat): seq<Line> {
    match Slot(files, k)
    case Some(file) => file
    case None => []
  }

  /** Every write still held in slots `0..hi`, oldest first. */
  function Contents(files: Slots, hi: int): seq<Line>
    requires -1 <= hi
    decreases hi + 1
  {
    if hi < 0 then [] else File(files, hi) + Contents(files, hi - 1)
  }

  /** Bytes held in slots `lo..hi`. */
  function Total(files: Slots, lo: nat, hi: int): nat
    decreases hi + 1 - lo
  {
    if hi < lo then 0 else Size(File(files, hi)) + Total(files, lo, hi - 1)
  }

  /** One iteration: remove the destination, then rename the slot below onto it. */
  function MoveUp(files: Slots, i: nat, faults: Faults): (Slots, bool)
    requires i > 0
  {
    if i in files && i in faults.removeFails then (files, false)
    else if i - 1 !in files then (files - {i}, true)
    else if i in faults.renameFails then (files - {i}, false)
    else (files[i := files[i - 1]] - {i - 1}, true)
  }

  /** The loop from index `i` down; the flag tells whether it completed. */
  function Rotated(files: Slots, i: nat, faults: Faults): (Slots, bool)
    decreases i
  {
    if i == 0 then (files, true)
    else
      var (moved, ok) := MoveUp(files, i, faults);
      if ok then Rotated(moved, i - 1, faults) else (moved, false)
  }

  function Open(files: Slots): Slots {
    if 0 in files then files else files[0 := []]
  }

  /** `len.saturating_add(extra) > max` over 64-bit lengths. */
  predicate Exceeds(len: nat, extra: nat, max: nat) {
    var sum := len + extra;
    (if sum > U64_MAX then U64_MAX else sum) > max
  }

  function Chunk(line: Line, written: Option<nat>): seq<Line> {
    match written
    case None => [line]
    case Some(n) => if n == 0 then [] else [line[..if n <= |line| then n else |line|]]
  }

  datatype Outcome = Outcome(files: Slots, written: seq<Line>, ok: bool)

  /** The directory the final write goes to: rotated first when the line would take
      the live file past `max`. */
  function Prepare(live: Slots, line: Line, max: nat, retained: nat, faults: Faults): (Slots, bool)
    requires 0 in live
  {
    if !Exceeds(Size(live[0]), |line|, max) then (live, true)
    else
      var (rotated, completed) := Rotated(live, retained, faults);
      (rotated, completed && !faults.reopenFails)
  }

  /** One append: the directory it leaves, what it wrote and whether it succeeded. */
  function Append(files: Slots, line: Line, max: nat, retained: nat, faults: Faults): Outcome {
    if faults.failsBeforeOpen then Outcome(files, [], false)
    else if faults.failsAfterOpen then Outcome(Open(files), [], false)
    else
      var (ready, prepared) := Prepare(Open(files), line, max, retained, faults);
      if !prepared then Outcome(ready, [], false)
      else
        var target := Open(ready);
        var chunk := Chunk(line, faults.written);
        Outcome(target[0 := target[0] + chunk], chunk, faults.written.None?)
  }

  class LogDirectory {
    var files: Slots

    constructor ()
      ensures files == map[]
    {
      files := map[];
    }

    method AppendRotating(line: Line, max: nat, retained: nat, faults: Faults)
      returns (ok: bool)
      modifies this
      ensures Append(old(files), line, max, retained, faults).files == files
      ensures Append(old(files), line, max, retained, faults).ok == ok
    {
      if faults.failsBeforeOpen {
        return false;
      }
      OpenLive();
      if faults.failsAfterOpen {
        return false;
      }
      if Exceeds(Size(files[0]), |line|, max) {
        var completed := Rotate(retained, faults);
        if !completed || faults.reopenFails {
          return false;
        }
        OpenLive();
      }
      files := files[0 := files[0] + Chunk(line, faults.written)];
      ok := faults.written.None?;
    }

    method OpenLive()
      modifies this
      ensures files == Open(old(files))
    {
      if 0 !in files {
        files := files[0 := []];
      }
    }

    method Move(index: nat, faults: Faults) returns (ok: bool)
      requires index > 0
      modifies this
      ensures (files, ok) == MoveUp(old(files), index, faults)
    {
      if index in files && index in faults.removeFails {
        return false;
      }
      files := files - {index};
      if index - 1 in files {
        if index in faults.renameFails {
          return false;
        }
        files := files[index := files[index - 1]] - {index - 1};
        assert files == old(files)[index := old(files)[index - 1]] - {index - 1};
      }
      ok := true;
    }

    /** The descending loop, which stops at the first failing call. */
    method Rotate(retained: nat, faults: Faults) returns (completed: bool)
      modifies this
      ensures (files, completed) == Rotated(old(files), retained, faults)
    {
      var index: nat := retained;
      while index > 0
        invariant index <= retained
        invariant Rotated(old(files), retained, faults) == Rotated(files, index, faults)
      {
        var ok := Move(index, faults);
        if !ok {
          return false;
        }
        index := index - 1;
      }
      completed := true;
    }
  }

  // ---- The loop is a shift by one ------------------------------------------

  /** `after` is `before` with every slot in `lo..hi` moved up by one, dropping what
      slot `hi` held and vacating slot `lo`. */
  ghost predicate IsShift(before: Slots, after: Slots, lo: nat, hi: nat) {
    forall k: nat {:trigger Slot(after, k)} :: Slot(after, k) ==
      if lo < k <= hi then Slot(before, k - 1) else if k == lo < hi then None else Slot(before, k)
  }

  /** The index at which the loop stops: zero when it completes. */
  function Stop(files: Slots, i: nat, faults: Faults): (stop: nat)
    ensures stop <= i
    decreases i
  {
    if i == 0 then 0
    else
      var (moved, ok) := MoveUp(files, i, faults);
      if ok then Stop(moved, i - 1, faults) else i
  }

  /** A completed loop is one shift by one; a loop that stops at a failing call has
      shifted the slots above the stopping index, and at most removed the oldest. */
  lemma {:induction false} LoopIsShift(before: Slots, files: Slots, i: nat, hi: nat, faults: Faults)
    requires i <= hi && IsShift(before, files, i, hi)
    ensures var stop, (after, ok) := Stop(files, i, faults), Rotated(files, i, faults);
      && (ok <==> stop == 0)
      && (IsShift(before, after, stop, hi) || (0 < stop == hi && IsShift(before - {hi}, after, hi, hi)))
    decreases i
  {
    if i > 0 {
      MoveExtendsShift(before, files, i, hi, faults);
      var (moved, ok) := MoveUp(files, i, faults);
      if ok {
        LoopIsShift(before, moved, i - 1, hi, faults);
      }
    }
  }

  ghost function MovedSlot(files: Slots, moved: Slots, i: nat, ok: bool, k: nat): Option<seq<Line>>
    requires i > 0
  {
    if ok && k == i then Slot(files, i - 1)
    else if (k == i && moved != files) || (ok && k == i - 1) then None
    else Slot(files, k)
  }

  lemma MoveExtendsShift(before: Slots, files: Slots, i: nat, hi: nat, faults: Faults)
    requires 0 < i <= hi && IsShift(before, files, i, hi)
    ensures var (moved, ok) := MoveUp(files, i, faults);
      if ok then IsShift(before, moved, i - 1, hi)
      else IsShift(before, moved, i, hi) || (i == hi && IsShift(before - {hi}, moved, hi, hi))
  {
    var (moved, ok) := MoveUp(files, i, faults);
    forall k: nat
      ensures Slot(moved, k) == MovedSlot(files, moved, i, ok, k)
    {
    }
    assert Slot(files, i - 1) == Slot(before, i - 1);
    if !ok && i == hi && moved != files {
      assert forall k: nat :: Slot(before - {hi}, k) == if k == hi then None else Slot(before, k);
      assert forall k: nat :: Slot(moved, k) == Slot(before - {hi}, k);
    }
  }

  /** Slots above the loop index already hold the older neighbour's contents. */
  lemma {:induction false} ShiftedContents(before: Slots, after: Slots, lo: nat, k: nat, hi: nat)
    requires lo < k <= hi && IsShift(before, after, lo, hi)
    ensures Contents(after, k) == Contents(before, k - 1)
    decreases k
  {
    assert Slot(after, k) == Slot(before, k - 1);
    if k == lo + 1 {
      assert Slot(after, lo) == None;
      SameContents(after, before, lo - 1);
    } else {
      ShiftedContents(before, after, lo, k - 1, hi);
    }
  }

  lemma {:induction false} SameContents(a: Slots, b: Slots, hi: int)
    requires -1 <= hi
    requires forall k: nat :: k <= hi ==> File(a, k) == File(b, k)
    ensures Contents(a, hi) == Contents(b, hi)
    decreases hi + 1
  {
    if hi >= 0 {
      SameContents(a, b, hi - 1);
    }
  }

  ghost predicate KeepsAllButOldest(before: Slots, after: Slots, retained: nat) {
    || Contents(after, retained) == Contents(before, retained)
    || (retained > 0 && Contents(after, retained) == Contents(before, retained - 1))
  }

  /** A rotation, completed or cut short at any call, keeps every write but those
      of the oldest file, which go all together or not at all. */
  lemma RotationKeepsAllButOldest(files: Slots, retained: nat, faults: Faults)
    ensures KeepsAllButOldest(files, Rotated(files, retained, faults).0, retained)
  {
    var after := Rotated(files, retained, faults).0;
    var stop := Stop(files, retained, faults);
    LoopIsShift(files, files, retained, retained, faults);
    if IsShift(files, after, stop, retained) {
      if stop < retained {
        ShiftedContents(files, after, stop, retained, retained);
      } else {
        SameContents(after, files, retained);
      }
    } else {
      SameContents(after, files, retained - 1);
    }
  }

  // ---- Histories -----------------------------------------------------------

  datatype Call = Call(line: Line, faults: Faults)

  /** The directory after a run of appends, and every write they made. */
  function Run(files: Slots, calls: seq<Call>, max: nat, retained: nat): (Slots, seq<Line>) {
    if calls == [] then (files, [])
    else
      var (before, history) := Run(files, calls[..|calls| - 1], max, retained);
      var last := calls[|calls| - 1];
      var step := Append(before, last.line, max, retained, last.faults);
      (step.files, history + step.written)
  }

  function Flatten(parts: seq<seq<Line>>): seq<Line> {
    if parts == [] then [] else Flatten(parts[..|parts| - 1]) + parts[|parts| - 1]
  }

  lemma OpenKeepsContents(files: Slots, hi: nat)
    ensures Contents(Open(files), hi) == Contents(files, hi)
  {
    SameContents(Open(files), files, hi);
  }

  lemma {:induction false} AppendToLive(files: Slots, chunk: seq<Line>, hi: nat)
    requires 0 in files
    ensures Contents(files[0 := files[0] + chunk], hi) == Contents(files, hi) + chunk
  {
    if hi > 0 {
      AppendToLive(files, chunk, hi - 1);
    } else {
      assert Contents(files, -1) == [];
    }
  }

  lemma PrepareContents(live: Slots, line: Line, max: nat, retained: nat, faults: Faults)
    returns (dropped: seq<Line>)
    requires 0 in live
    ensures dropped + Contents(Prepare(live, line, max, retained, faults).0, retained) == Contents(live, retained)
    ensures dropped == [] || dropped == File(live, retained)
  {
    dropped := [];
    var ready := Prepare(live, line, max, retained, faults).0;
    if Exceeds(Size(live[0]), |line|, max) {
      RotationKeepsAllButOldest(live, retained, faults);
      if Contents(ready, retained) != Contents(live, retained) {
        dropped := File(live, retained);
      }
    }
  }

  /** One append drops the whole oldest file or nothing, then adds its write. */
  lemma AppendContents(files: Slots, line: Line, max: nat, retained: nat, faults: Faults)
    returns (dropped: seq<Line>)
    ensures dropped + Contents(Append(files, line, max, retained, faults).files, retained)
         == Contents(files, retained) + Append(files, line, max, retained, faults).written
    ensures dropped == [] || dropped == File(Open(files), retained)
  {
    dropped := [];
    OpenKeepsContents(files, retained);
    if !faults.failsBeforeOpen && !faults.failsAfterOpen {
      dropped := PrepareContents(Open(files), line, max, retained, faults);
      var ready := Prepare(Open(files), line, max, retained, faults).0;
      OpenKeepsContents(ready, retained);
      AppendToLive(Open(ready), Chunk(line, faults.written), retained);
      AppendTail(dropped, Contents(ready, retained), Chunk(line, faults.written));
    }
  }

  lemma AppendTail(a: seq<Line>, b: seq<Line>, c: seq<Line>)
    ensures a + (b + c) == (a + b) + c
  {
  }

  /** Over any run, with any call of any append failing, what is kept is a suffix
      of everything written, and what is gone went file by file, oldest first: each
      append gave up nothing or the whole file that was then in the oldest slot. */
  lemma {:induction false} RunKeepsSuffix(files: Slots, calls: seq<Call>, max: nat, retained: nat)
    returns (gone: seq<seq<Line>>)
    ensures Flatten(gone) + Contents(Run(files, calls, max, retained).0, retained)
         == Contents(files, retained) + Run(files, calls, max, retained).1
    ensures |gone| == |calls|
    ensures forall i :: 0 <= i < |gone| ==>
      gone[i] == [] || gone[i] == File(Open(Run(files, calls[..i], max, retained).0), retained)
  {
    if calls == [] {
      gone := [];
    } else {
      assert forall i :: 0 <= i < |calls| ==> calls[..|calls| - 1][..i] == calls[..i];
      var init := RunKeepsSuffix(files, calls[..|calls| - 1], max, retained);
      var (before, history) := Run(files, calls[..|calls| - 1], max, retained);
      var last := calls[|calls| - 1];
      var dropped := AppendContents(before, last.line, max, retained, last.faults);
      var step := Append(before, last.line, max, retained, last.faults);
      gone := init + [dropped];
      assert gone[..|gone| - 1] == init;
      AppendTail(Flatten(init), dropped, Contents(step.files, retained));
      AppendTail(Flatten(init), Contents(before, retained), step.written);
      AppendTail(Contents(files, retained), history, step.written);
    }
  }

  /** With no retained files nothing is ever given up: the live file only grows. */
  lemma {:induction false} RetainingNothingNeverTrims(files: Slots, calls: seq<Call>, max: nat)
    ensures Contents(Run(files, calls, max, 0).0, 0) == Contents(files, 0) + Run(files, calls, max, 0).1
  {
    if calls != [] {
      var (before, history) := Run(files, calls[..|calls| - 1], max, 0);
      var last := calls[|calls| - 1];
      RetainingNothingNeverTrims(files, calls[..|calls| - 1], max);
      OpenKeepsContents(before, 0);
      var ready := Prepare(Open(before), last.line, max, 0, last.faults).0;
      OpenKeepsContents(ready, 0);
      AppendToLive(Open(ready), Chunk(last.line, last.faults.written), 0);
      AppendTail(Contents(files, 0), history, Append(before, last.line, max, 0, last.faults).written);
    }
  }

  // ---- Byte bounds ---------------------------------------------------------

  lemma {:induction false} SizeOfConcat(a: seq<Line>, b: seq<Line>)
    ensures Size(a + b) == Size(a) + Size(b)
  {
    if a == [] {
      assert a + b == b;
    } else {
      SizeOfConcat(a[1..], b);
      assert (a + b)[1..] == a[1..] + b;
    }
  }

  /** No file exceeds `max`, and a rotated file had no room for another line. */
  ghost predicate Bounded(files: Slots, max: nat, longest: nat, retained: nat) {
    && (forall k: nat :: k <= retained ==> Size(File(files, k)) <= max)
    && (forall k: nat :: 0 < k <= retained && Slot(files, k).Some? ==> Size(File(files, k)) + longest > max)
  }

  lemma OpenKeepsBounds(files: Slots, max: nat, longest: nat, retained: nat)
    requires Bounded(files, max, longest, retained)
    ensures Bounded(Open(files), max, longest, retained)
  {
    assert forall k: nat :: File(Open(files), k) == File(files, k);
    assert forall k: nat :: k > 0 ==> Slot(Open(files), k) == Slot(files, k);
  }

  lemma ShiftKeepsBounds(before: Slots, after: Slots, lo: nat, max: nat, longest: nat, retained: nat)
    requires Bounded(before, max, longest, retained)
    requires lo <= retained && IsShift(before, after, lo, retained)
    requires lo == 0 ==> Size(File(before, 0)) + longest > max
    ensures Bounded(after, max, longest, retained)
  {
    forall k: nat | k <= retained
      ensures Size(File(after, k)) <= max
      ensures k > 0 && Slot(after, k).Some? ==> Size(File(after, k)) + longest > max
    {
      ShiftedSlot(before, after, lo, retained, k);
      if lo < k {
        assert k == 1 || Slot(before, k - 1) == Slot(after, k);
      }
    }
  }

  /** Where the content of a slot comes from. */
  lemma ShiftedSlot(before: Slots, after: Slots, lo: nat, hi: nat, k: nat)
    requires IsShift(before, after, lo, hi)
    ensures lo < k <= hi ==> Slot(after, k) == Slot(before, k - 1) && File(after, k) == File(before, k - 1)
    ensures k == lo < hi ==> Slot(after, k) == None && File(after, k) == []
    ensures k < lo || k > hi || lo == hi ==> Slot(after, k) == Slot(before, k) && File(after, k) == File(before, k)
  {
    assert Slot(after, k) ==
      if lo < k <= hi then Slot(before, k - 1) else if k == lo < hi then None else Slot(before, k);
  }

  lemma RotationKeepsBounds(live: Slots, line: Line, max: nat, longest: nat, retained: nat, faults: Faults)
    requires retained > 0 && max < U64_MAX && |line| <= longest <= max
    requires 0 in live && Bounded(live, max, longest, retained) && Exceeds(Size(live[0]), |line|, max)
    ensures var (after, ok) := Rotated(live, retained, faults);
      Bounded(after, max, longest, retained) && (ok ==> Slot(after, 0).None?)
  {
    var (after, ok) := Rotated(live, retained, faults);
    LoopIsShift(live, live, retained, retained, faults);
    assert File(live, 0) == live[0];
    if IsShift(live, after, Stop(live, retained, faults), retained) {
      ShiftKeepsBounds(live, after, Stop(live, retained, faults), max, longest, retained);
    } else {
      assert forall k: nat :: Slot(live - {retained}, k) == if k == retained then None else Slot(live, k);
      assert Bounded(live - {retained}, max, longest, retained);
      ShiftKeepsBounds(live - {retained}, after, retained, max, longest, retained);
    }
  }

  /** One append of a line no longer than `longest` keeps the bounds, whichever of
      its calls fail. */
  lemma AppendKeepsBounds(files: Slots, line: Line, max: nat, longest: nat, retained: nat, faults: Faults)
    requires retained > 0 && max < U64_MAX && |line| <= longest <= max
    requires Bounded(files, max, longest, retained)
    ensures Bounded(Append(files, line, max, retained, faults).files, max, longest, retained)
  {
    OpenKeepsBounds(files, max, longest, retained);
    if !faults.failsBeforeOpen && !faults.failsAfterOpen {
      var live := Open(files);
      if Exceeds(Size(live[0]), |line|, max) {
        RotationKeepsBounds(live, line, max, longest, retained, faults);
      }
      var (ready, prepared) := Prepare(live, line, max, retained, faults);
      OpenKeepsBounds(ready, max, longest, retained);
      if prepared {
        var target, chunk := Open(ready), Chunk(line, faults.written);
        SizeOfConcat(target[0], chunk);
        var after := target[0 := target[0] + chunk];
        assert Size(chunk) <= |line|;
        assert forall k: nat :: k > 0 ==> Slot(after, k) == Slot(target, k);
        assert File(after, 0) == target[0] + chunk;
      }
    }
  }

  /** Over any run, with any call failing, every file holds at most `max` bytes and
      every rotated file at least `max - longest + 1`. */
  lemma {:induction false} RunKeepsBounds(
    files: Slots, calls: seq<Call>, max: nat, longest: nat, retained: nat)
    requires retained > 0 && max < U64_MAX && longest <= max
    requires forall call :: call in calls ==> |call.line| <= longest
    requires Bounded(files, max, longest, retained)
    ensures Bounded(Run(files, calls, max, retained).0, max, longest, retained)
    ensures Total(Run(files, calls, max, retained).0, 0, retained) <= (retained + 1) * max
  {
    if calls != [] {
      var last := calls[|calls| - 1];
      RunKeepsBounds(files, calls[..|calls| - 1], max, longest, retained);
      AppendKeepsBounds(Run(files, calls[..|calls| - 1], max, retained).0, last.line, max, longest, retained,
        last.faults);
    }
    TotalAtMost(Run(files, calls, max, retained).0, 0, retained, max);
  }

  lemma {:induction false} TotalAtMost(files: Slots, lo: nat, hi: nat, max: nat)
    requires lo <= hi + 1
    requires forall k: nat :: lo <= k <= hi ==> Size(File(files, k)) <= max
    ensures Total(files, lo, hi) <= (hi + 1 - lo) * max
    decreases hi
  {
    if lo < hi {
      TotalAtMost(files, lo, hi - 1, max);
      assert (hi + 1 - lo) * max == (hi - lo) * max + max;
    } else if lo == hi {
      assert lo == 0 || Total(files, lo, hi - 1) == 0;
    }
  }

  // ---- Gaps ----------------------------------------------------------------

  /** The rotated slots in use are the lowest ones. */
  ghost predicate NoGap(files: Slots, retained: nat) {
    forall k: nat :: 0 < k < retained && Slot(files, k + 1).Some? ==> Slot(files, k).Some?
  }

  /** A gap opens exactly when the loop stops below the oldest index at a slot that
      was in use: that slot has been moved up and nothing replaced it. */
  lemma GapAtStop(live: Slots, retained: nat, faults: Faults)
    requires 0 in live && NoGap(live, retained)
    ensures var stop := Stop(live, retained, faults);
      NoGap(Rotated(live, retained, faults).0, retained) <==> !(0 < stop < retained && stop in live)
  {
    var stop, after := Stop(live, retained, faults), Rotated(live, retained, faults).0;
    LoopIsShift(live, live, retained, retained, faults);
    if IsShift(live, after, stop, retained) {
      if 0 < stop < retained && stop in live {
        assert Slot(after, stop + 1) == Slot(live, stop) && Slot(after, stop) == None;
      } else {
        forall k: nat | 0 < k < retained && Slot(after, k + 1).Some?
          ensures Slot(after, k).Some?
        {
          if stop < k {
            assert Slot(live, k - 1 + 1).Some? && (k > 1 ==> Slot(live, k - 1).Some?);
          } else {
            assert Slot(after, k + 1) == Slot(live, k + 1) || Slot(live, k).Some?;
          }
        }
      }
    } else {
      assert forall k: nat :: Slot(live - {retained}, k) == if k == retained then None else Slot(live, k);
    }
  }

  /** The rename of an iteration fails on a file that is there. */
  predicate RenameFails(live: Slots, i: nat, faults: Faults) {
    0 < i && i - 1 in live && i in faults.renameFails
  }

  predicate RemoveFails(live: Slots, i: nat, faults: Faults) {
    i in live && i in faults.removeFails
  }

  /** Below the oldest index a slot is free when its turn comes, so only a rename can
      stop the loop, and the highest one that fails does. */
  lemma {:induction false} StopsAtRename(live: Slots, files: Slots, i: nat, hi: nat, faults: Faults)
    requires i < hi && IsShift(live, files, i, hi)
    ensures Stop(files, i, faults) > 0 ==> RenameFails(live, Stop(files, i, faults), faults)
    ensures forall j: nat :: Stop(files, i, faults) < j <= i ==> !RenameFails(live, j, faults)
    decreases i
  {
    if i > 0 {
      assert Slot(files, i) == None && Slot(files, i - 1) == Slot(live, i - 1);
      var (moved, ok) := MoveUp(files, i, faults);
      if ok {
        MoveExtendsShift(live, files, i, hi, faults);
        StopsAtRename(live, moved, i - 1, hi, faults);
      }
    }
  }

  lemma StopsByGuards(live: Slots, retained: nat, faults: Faults)
    requires retained > 0
    ensures var stop := Stop(live, retained, faults);
      if RemoveFails(live, retained, faults) then stop == retained
      else
        && (stop > 0 ==> RenameFails(live, stop, faults))
        && forall j: nat :: stop < j <= retained ==> !RenameFails(live, j, faults)
  {
    var (moved, ok) := MoveUp(live, retained, faults);
    if ok {
      MoveExtendsShift(live, live, retained, retained, faults);
      StopsAtRename(live, moved, retained - 1, retained, faults);
    }
  }

  /** A rotation opens a gap exactly when removing the oldest file does not fail and the
      highest rename that fails is the one onto a slot in use below the oldest. */
  lemma GapExactlyWhenCutShort(live: Slots, retained: nat, faults: Faults)
    requires 0 in live && NoGap(live, retained)
    ensures !NoGap(Rotated(live, retained, faults).0, retained) <==>
      && !RemoveFails(live, retained, faults)
      && exists i: nat :: (i < retained && i in live && RenameFails(live, i, faults)
                           && forall j: nat :: i < j <= retained ==> !RenameFails(live, j, faults))
  {
    GapAtStop(live, retained, faults);
    if retained > 0 {
      StopsByGuards(live, retained, faults);
      var stop := Stop(live, retained, faults);
      if 0 < stop < retained && stop in live {
        assert RenameFails(live, stop, faults);
      }
      forall i: nat | i < retained && i in live && RenameFails(live, i, faults)
        && forall j: nat :: i < j <= retained ==> !RenameFails(live, j, faults)
        ensures RemoveFails(live, retained, faults) || stop == i
      {
      }
    }
  }

  /** While no call fails, the slots have no gap, and once a write is gone every
      rotated slot is in use. */
  lemma {:induction false} CleanRunFillsEverySlot(calls: seq<Call>, max: nat, retained: nat)
    requires retained > 0
    requires forall call :: call in calls ==> call.faults == NO_FAULTS
    ensures var (after, history) := Run(map[], calls, max, retained);
      && NoGap(after, retained)
      && (Contents(after, retained) == history || Slot(after, retained).Some?)
  {
    if calls == [] {
      SameContents(map[], map[], retained);
      EmptyContents(retained);
    } else {
      CleanRunFillsEverySlot(calls[..|calls| - 1], max, retained);
      var (before, history) := Run(map[], calls[..|calls| - 1], max, retained);
      var last := calls[|calls| - 1];
      var dropped := AppendContents(before, last.line, max, retained, NO_FAULTS);
      CleanAppend(before, last.line, max, retained);
    }
  }

  lemma {:induction false} EmptyContents(hi: int)
    requires -1 <= hi
    ensures Contents(map[], hi) == []
    decreases hi + 1
  {
    if hi >= 0 {
      EmptyContents(hi - 1);
    }
  }

  lemma CleanAppend(files: Slots, line: Line, max: nat, retained: nat)
    requires retained > 0 && NoGap(files, retained)
    ensures NoGap(Append(files, line, max, retained, NO_FAULTS).files, retained)
    ensures Slot(files, retained).Some? ==> Slot(Append(files, line, max, retained, NO_FAULTS).files, retained).Some?
  {
    var live := Open(files);
    var after := Append(files, line, max, retained, NO_FAULTS).files;
    assert forall k: nat :: k > 0 ==> Slot(live, k) == Slot(files, k);
    NeverStops(live, retained);
    LoopIsShift(live, live, retained, retained, NO_FAULTS);
    GapAtStop(live, retained, NO_FAULTS);
    var ready := Prepare(live, line, max, retained, NO_FAULTS).0;
    assert forall k: nat :: k > 0 ==> Slot(after, k) == Slot(ready, k);
    if ready != live {
      assert Slot(ready, retained) == Slot(live, retained - 1);
      assert retained == 1 || (Slot(live, retained - 1 + 1).Some? ==> Slot(live, retained - 1).Some?);
    }
  }

  lemma {:induction false} NeverStops(files: Slots, i: nat)
    ensures Stop(files, i, NO_FAULTS) == 0
    decreases i
  {
    if i > 0 {
      NeverStops(MoveUp(files, i, NO_FAULTS).0, i - 1);
    }
  }

  /** The rotated slots in use, up to `hi`. */
  function InUse(files: Slots, hi: nat): nat {
    if hi == 0 then 0 else InUse(files, hi - 1) + if hi in files then 1 else 0
  }

  /** Over any run, with any call failing, each rotated slot in use holds at least
      `max - longest + 1` bytes. */
  lemma RunKeepsEnough(files: Slots, calls: seq<Call>, max: nat, longest: nat, retained: nat)
    requires retained > 0 && max < U64_MAX && longest <= max
    requires forall call :: call in calls ==> |call.line| <= longest
    requires Bounded(files, max, longest, retained)
    ensures var after := Run(files, calls, max, retained).0;
      Total(after, 1, retained) >= InUse(after, retained) * (max - longest + 1)
  {
    RunKeepsBounds(files, calls, max, longest, retained);
    InUseAtLeast(Run(files, calls, max, retained).0, retained, max - longest + 1);
  }

  lemma {:induction false} InUseAtLeast(files: Slots, hi: nat, min: nat)
    requires forall k: nat :: 0 < k <= hi && Slot(files, k).Some? ==> Size(File(files, k)) >= min
    ensures Total(files, 1, hi) >= InUse(files, hi) * min
  {
    if hi > 0 {
      InUseAtLeast(files, hi - 1, min);
      if hi in files {
        assert Slot(files, hi).Some?;
        assert InUse(files, hi) * min == InUse(files, hi - 1) * min + min;
      }
    }
  }

  lemma {:induction false} AllInUse(files: Slots, hi: nat)
    requires forall k: nat :: 0 < k <= hi ==> Slot(files, k).Some?
    ensures InUse(files, hi) == hi
  {
    if hi > 0 {
      AllInUse(files, hi - 1);
      assert Slot(files, hi).Some?;
    }
  }

  /** While no call fails, once anything has been dropped of a directory that was empty
      at first, the rotated files hold at least `retained * (max - longest + 1)` bytes. */
  lemma CleanRunKeepsEnough(calls: seq<Call>, max: nat, longest: nat, retained: nat)
    requires retained > 0 && max < U64_MAX && longest <= max
    requires forall call :: call in calls ==> call.faults == NO_FAULTS && |call.line| <= longest
    requires var (after, history) := Run(map[], calls, max, retained); Contents(after, retained) != history
    ensures Total(Run(map[], calls, max, retained).0, 1, retained) >= retained * (max - longest + 1)
  {
    var after := Run(map[], calls, max, retained).0;
    CleanRunFillsEverySlot(calls, max, retained);
    FullBelow(after, retained, retained);
    AllInUse(after, retained);
    RunKeepsEnough(map[], calls, max, longest, retained);
  }

  lemma {:induction false} FullBelow(files: Slots, k: nat, retained: nat)
    requires NoGap(files, retained) && 0 < k <= retained && Slot(files, k).Some?
    ensures forall j: nat :: 0 < j <= k ==> Slot(files, j).Some?
  {
    if k > 1 {
      assert Slot(files, k - 1 + 1).Some?;
      FullBelow(files, k - 1, retained);
    }
  }

  /** A failing rename does open a gap: the second of three retained files is lost
      from its slot while the first stays where it was. */
  lemma FailedRenameOpensGap()
    ensures var live: Slots := map[0 := [], 1 := [], 2 := []];
      var faults := NO_FAULTS.(renameFails := {2});
      NoGap(live, 3) && !NoGap(Rotated(live, 3, faults).0, 3)
  {
    var live: Slots := map[0 := [], 1 := [], 2 := []];
    var faults := NO_FAULTS.(renameFails := {2});
    assert RenameFails(live, 2, faults) && 2 in live;
    GapExactlyWhenCutShort(live, 3, faults);
  }
}
