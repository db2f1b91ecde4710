/** Importing subscription accounts (crates/aipass-agent/src/subscription_import.rs).

    A job discovers sources, reads up to four of them at once and commits the accounts
    in source order.  Commits and cancellation exclude each other by the progress
    lock.  Locking the session clears the registry, which sets the flag without that
    lock; a commit holds the session for its whole length and refuses another one. */
module ImportTask {
  import opened Sets
  import opened Wrappers

  type Source = nat
  type Key = string
  type Revision = nat

  /** The entries of the vault, one for an account, each with its revision. */
  type Entries = map<Key, Revision>

  const MAX_PARALLEL_READS: nat := 4

  datatype Phase = Discovering | Importing | Complete | Cancelled

  /** `Stopped` is the source's `Cancelled`. */
  datatype Status = Imported | Existing | Updated | Failed | NeedsLogin | Stopped

  /** How a read ends. */
  datatype Read = Account(key: Key) | NoAccount(status: Status)

  /** How a write ends: noted by the job, failed before it was noted, or noted but with
      a proxy that cannot be refreshed. */
  datatype Ending = Recorded | Unrecorded | ProxyFails

  /** What the vault does with an account: it is refused, or taken.  `bound` says that an
      entry there is bound to this source already; a write leaves `revision`. */
  datatype Store = Refused | Taken(bound: bool, revision: Revision, ending: Ending)

  /** `source` is empty in the one result that reports a failed discovery. */
  datatype Outcome = Outcome(source: Option<Source>, status: Status)

  /** What the worker is doing: it holds the progress lock between taking a read and
      recording its result. */
  datatype Worker = Free | Holding(willCommit: bool)

  datatype Commit = Commit(index: nat, key: Key, revision: Revision, recorded: bool)

  /** `unlocked` tells whether the session that started the job still lasts.  `known`
      holds the revisions the job has seen, first those of a snapshot and then those of
      its own writes.  `commits` is a history of the vault writes. */
  datatype Job = Job(
    phase: Phase,
    total: nat,
    completed: nat,
    results: seq<Outcome>,
    cancelled: bool,
    sources: Option<seq<Source>>,
    started: nat,
    endings: map<nat, Read>,
    worker: Worker,
    unlocked: bool,
    vault: Entries,
    known: Entries,
    seen: set<Key>,
    commits: seq<Commit>
  )

  function Initial(snapshot: Entries): Job {
    Job(Discovering, 0, 0, [], false, None, 0, map[], Free, true, snapshot, snapshot, {}, [])
  }

  function Get(entries: Entries, key: Key): Option<Revision> {
    if key in entries then Some(entries[key]) else None
  }

  predicate Running(job: Job) {
    job.phase.Discovering? || job.phase.Importing?
  }

  // ---- Steps ---------------------------------------------------------------

  /** Serialised with the commits. */
  function Cancel(job: Job): Job {
    if job.worker.Free? && Running(job) then job.(cancelled := true) else job
  }

  /** Discovery succeeded. */
  function BeginImport(job: Job, sources: seq<Source>): Job {
    job.(sources := Some(sources), total := |sources|, phase := Importing)
  }

  function Finish(job: Job): Job {
    job.(phase := if job.cancelled then Cancelled else Complete)
  }

  /** Discovery failed: one result says so, unless the job was cancelled. */
  function FailDiscovery(job: Job): Job {
    Finish(if job.cancelled then job
           else job.(results := job.results + [Outcome(None, Failed)], total := 1, completed := 1))
  }

  function CanStart(job: Job): bool {
    job.phase.Importing? && job.started < job.total && job.started < job.completed + MAX_PARALLEL_READS
  }

  /** The next read in source order is over, and the worker is free to take it. */
  predicate CanTake(job: Job) {
    job.phase.Importing? && job.worker.Free? && |job.results| in job.endings
  }

  /** The flag is looked at once, under the lock. */
  function Take(job: Job, alive: bool): Job
    requires CanTake(job)
  {
    var read := job.endings[|job.results|];
    if read.NoAccount? then job.(worker := Holding(false))
    else if job.cancelled then job.(worker := Holding(false))
    else if alive then job.(worker := Holding(true))
    else job.(worker := Holding(false), cancelled := true)
  }

  /** The entry changed since the job saw it, or came into being. */
  predicate Conflicts(job: Job, key: Key) {
    key in job.vault && Get(job.known, key) != Some(job.vault[key])
  }

  /** The status of an account that goes to the vault. */
  function CommitStatus(job: Job, key: Key, store: Store): Status {
    if !job.unlocked then Stopped
    else if store.Refused? then Failed
    else if key in job.seen then Existing
    else if Conflicts(job, key) then Failed
    else if store.bound && key in job.vault then Existing
    else if !store.ending.Recorded? then Failed
    else if key !in job.vault then Imported
    else if Get(job.known, key) == Some(store.revision) then Existing
    else Updated
  }

  /** The account gets as far as the entry it is bound to, or to a write. */
  predicate Passes(job: Job, key: Key, store: Store) {
    job.unlocked && store.Taken? && key !in job.seen && !Conflicts(job, key)
  }

  predicate Writes(job: Job, key: Key, store: Store) {
    Passes(job, key, store) && !(store.bound && key in job.vault)
  }

  /** What a commit of source `i` leaves; a write that fails before it is noted is in
      the vault all the same. */
  function StoreAccount(job: Job, i: nat, key: Key, store: Store): Job {
    if Writes(job, key, store) then
      var written := job.(vault := job.vault[key := store.revision],
                          commits := job.commits + [Commit(i, key, store.revision, !store.ending.Unrecorded?)]);
      if store.ending.Unrecorded? then written
      else written.(known := job.known[key := store.revision], seen := job.seen + {key})
    else if Passes(job, key, store) then job.(seen := job.seen + {key})
    else job
  }

  predicate CanRecord(job: Job) {
    && job.worker.Holding? && job.sources.Some?
    && |job.results| < |job.sources.value| && |job.results| in job.endings
    && (job.worker.willCommit ==> job.endings[|job.results|].Account?)
  }

  function Record(job: Job, store: Store): Job
    requires CanRecord(job)
  {
    var i := |job.results|;
    var source, read := job.sources.value[i], job.endings[i];
    var status := if job.worker.willCommit then CommitStatus(job, read.key, store)
                  else if read.NoAccount? then read.status else Stopped;
    var stored := if job.worker.willCommit then StoreAccount(job, i, read.key, store) else job;
    stored.(results := job.results + [Outcome(Some(source), status)], completed := job.completed + 1, worker := Free)
  }

  // ---- The task ------------------------------------------------------------

  class Task {
    var job: Job

    constructor (snapshot: Entries)
      ensures job == Initial(snapshot)
    {
      job := Initial(snapshot);
    }

    method CancelTask() returns (view: Job)
      requires job.worker.Free?
      modifies this
      ensures view == job == Cancel(old(job))
    {
      if job.phase.Discovering? || job.phase.Importing? {
        job := job.(cancelled := true);
      }
      view := job;
    }

    method FinishTask()
      modifies this
      ensures job == Finish(old(job))
    {
      if job.cancelled {
        job := job.(phase := Cancelled);
      } else {
        job := job.(phase := Complete);
      }
    }

    method DiscoveryFailed()
      modifies this
      ensures job == FailDiscovery(old(job))
    {
      if !job.cancelled {
        job := job.(results := job.results + [Outcome(None, Failed)]);
        job := job.(total := 1);
        job := job.(completed := 1);
      }
      FinishTask();
    }

    /** The loop over the stream of reads, all of which are over and none of which is
        interrupted: results come out in source order. */
    method ImportAll(snapshot: Entries, sources: seq<Source>, endings: map<nat, Read>, stores: seq<Store>)
      requires |stores| == |sources| && forall i :: 0 <= i < |sources| ==> i in endings
      requires job == Initial(snapshot).(endings := endings)
      modifies this
      ensures job.phase.Complete? && job.completed == job.total == |job.results| == |sources|
      ensures forall i :: 0 <= i < |sources| ==> job.results[i].source == Some(sources[i])
      ensures forall i :: 0 <= i < |sources| ==> Answers(snapshot, endings, stores, i, job.results[i].status)
    {
      job := job.(total := |sources|, phase := Importing, sources := Some(sources));
      for i := 0 to |sources|
        invariant Underway(job, sources, endings, i)
        invariant AllStand(job, snapshot, endings, stores, i)
        invariant AllAnswered(job, snapshot, sources, endings, stores, i)
      {
        SourceIsAnswered(job, snapshot, sources, endings, stores, i);
        SourceStands(job, snapshot, sources, endings, stores, i);
        TakeAndRecord(true, stores[i]);
      }
      FinishTask();
    }

    /** One account, under the session lock. */
    method CommitAccount(key: Key, store: Store) returns (status: Status)
      modifies this
      ensures job == StoreAccount(old(job), |old(job).results|, key, store)
      ensures status == CommitStatus(old(job), key, store)
    {
      if !job.unlocked {
        return Stopped;
      }
      if store.Refused? {
        return Failed;
      }
      if key in job.seen {
        return Existing;
      }
      var existing, known := Get(job.vault, key), Get(job.known, key);
      if existing.Some? {
        if known != existing {
          return Failed;
        }
        if store.bound {
          job := job.(seen := job.seen + {key});
          return Existing;
        }
      }
      var commit := Commit(|job.results|, key, store.revision, !store.ending.Unrecorded?);
      job := job.(vault := job.vault[key := store.revision], commits := job.commits + [commit]);
      if store.ending.Unrecorded? {
        return Failed;
      }
      job := job.(known := job.known[key := store.revision]);
      job := job.(seen := job.seen + {key});
      if store.ending.ProxyFails? {
        return Failed;
      }
      status := if existing.None? then Imported else if known == Some(store.revision) then Existing else Updated;
    }

    method TakeAndRecord(alive: bool, store: Store)
      requires CanTake(job) && job.sources.Some? && |job.results| < |job.sources.value|
      modifies this
      ensures job == Record(Take(old(job), alive), store)
    {
      var i := |job.results|;
      var source, read := job.sources.value[i], job.endings[i];
      var status := Stopped;
      if read.NoAccount? {
        status := read.status;
      } else if !job.cancelled {
        if alive {
          status := CommitAccount(read.key, store);
        } else {
          job := job.(cancelled := true);
        }
      }
      job := job.(results := job.results + [Outcome(Some(source), status)], completed := job.completed + 1);
      ghost var taken := Take(old(job), alive);
      assert CanRecord(taken);
      assert job.worker == Free;
    }
  }

  predicate Underway(job: Job, sources: seq<Source>, endings: map<nat, Read>, i: nat) {
    && |job.results| == job.completed == i && job.total == |sources|
    && job.sources == Some(sources) && job.endings == endings
    && job.phase.Importing? && job.worker.Free? && !job.cancelled && job.unlocked
  }

  /** Undisturbed, this settles the account for all later sources: all but a write that
      fails before it is noted and leaves the entry reading as before. */
  predicate Settles(snapshot: Entries, store: Store, key: Key) {
    store.Taken? && (Noted(snapshot, store, key) || Get(snapshot, key) != Some(store.revision))
  }

  predicate Noted(snapshot: Entries, store: Store, key: Key) {
    store.Taken? && ((store.bound && key in snapshot) || !store.ending.Unrecorded?)
  }

  /** The first of `n` sources that settles the account. */
  function Settler(snapshot: Entries, endings: map<nat, Read>, stores: seq<Store>, n: nat, key: Key): (j: Option<nat>)
    requires n <= |stores| && forall i :: 0 <= i < n ==> i in endings
    ensures j.Some? ==>
      j.value < n && endings[j.value] == Account(key) && Settles(snapshot, stores[j.value], key)
    ensures forall i :: 0 <= i < (if j.Some? then j.value else n) ==>
      endings[i] != Account(key) || !Settles(snapshot, stores[i], key)
  {
    if n == 0 then None
    else
      var before := Settler(snapshot, endings, stores, n - 1, key);
      if before.Some? then before
      else if endings[n - 1] == Account(key) && Settles(snapshot, stores[n - 1], key) then Some(n - 1)
      else None
  }

  /** Where the job stands with an account after `n` sources. */
  ghost predicate StandsAs(job: Job, snapshot: Entries, endings: map<nat, Read>, stores: seq<Store>, n: nat, key: Key)
    requires n <= |stores| && forall i :: 0 <= i < n ==> i in endings
  {
    var j := Settler(snapshot, endings, stores, n, key);
    if j.None? then
      key !in job.seen && Get(job.vault, key) == Get(snapshot, key) && Get(job.known, key) == Get(snapshot, key)
    else if Noted(snapshot, stores[j.value], key) then key in job.seen
    else key !in job.seen && Conflicts(job, key)
  }

  ghost predicate AllStand(job: Job, snapshot: Entries, endings: map<nat, Read>, stores: seq<Store>, n: nat)
    requires n <= |stores| && forall i :: 0 <= i < n ==> i in endings
  {
    forall key :: StandsAs(job, snapshot, endings, stores, n, key)
  }

  lemma SettlerNext(snapshot: Entries, endings: map<nat, Read>, stores: seq<Store>, n: nat, next: nat, key: Key)
    requires n < |stores| && next == n + 1 && forall i :: 0 <= i <= n ==> i in endings
    ensures Settler(snapshot, endings, stores, next, key) ==
      var before := Settler(snapshot, endings, stores, n, key);
      if before.Some? then before
      else if endings[n] == Account(key) && Settles(snapshot, stores[n], key) then Some(n) else None
  {
  }

  lemma StandsNext(job: Job, snapshot: Entries, endings: map<nat, Read>, stores: seq<Store>, n: nat, next: nat,
      key: Key)
    requires n < |stores| && next == n + 1 && (forall i :: 0 <= i <= n ==> i in endings) && endings[n].Account?
    requires StandsAs(job, snapshot, endings, stores, n, key) && job.unlocked
    ensures StandsAs(StoreAccount(job, n, endings[n].key, stores[n]), snapshot, endings, stores, next, key)
  {
    SettlerNext(snapshot, endings, stores, n, next, key);
    if endings[n].key != key {
      StoresNoOther(job, n, endings[n].key, stores[n], key);
    }
  }

  lemma StoresNoOther(job: Job, n: nat, key: Key, store: Store, other: Key)
    requires key != other
    ensures var after := StoreAccount(job, n, key, store);
      && (other in after.seen <==> other in job.seen)
      && Get(after.vault, other) == Get(job.vault, other) && Get(after.known, other) == Get(job.known, other)
  {
  }

  /** What an import that nothing interrupts says of source `i`: the status of its read,
      or what the vault made of its account, unless an earlier source settled it: then
      the account exists, or it conflicts with a write that was not noted. */
  predicate Answers(snapshot: Entries, endings: map<nat, Read>, stores: seq<Store>, i: nat, status: Status)
    requires i < |stores| && forall k :: 0 <= k <= i ==> k in endings
  {
    match endings[i]
    case NoAccount(reason) => status == reason
    case Account(key) =>
      var j := Settler(snapshot, endings, stores, i, key);
      if stores[i].Refused? then status.Failed?
      else if j.Some? then status == if Noted(snapshot, stores[j.value], key) then Existing else Failed
      else if stores[i].bound && key in snapshot then status.Existing?
      else if !stores[i].ending.Recorded? then status.Failed?
      else if key !in snapshot then status.Imported?
      else if snapshot[key] == stores[i].revision then status.Existing?
      else status.Updated?
  }

  ghost predicate AllAnswered(job: Job, snapshot: Entries, sources: seq<Source>, endings: map<nat, Read>,
      stores: seq<Store>, n: nat)
    requires n <= |stores| == |sources| && forall i :: 0 <= i < n ==> i in endings
  {
    && |job.results| == n
    && (forall k :: 0 <= k < n ==> job.results[k].source == Some(sources[k]))
    && (forall k :: 0 <= k < n ==> Answers(snapshot, endings, stores, k, job.results[k].status))
  }

  lemma StatusAnswers(job: Job, snapshot: Entries, endings: map<nat, Read>, stores: seq<Store>, n: nat, key: Key)
    requires n < |stores| && (forall i :: 0 <= i <= n ==> i in endings) && endings[n] == Account(key)
    requires StandsAs(job, snapshot, endings, stores, n, key) && job.unlocked
    ensures Answers(snapshot, endings, stores, n, CommitStatus(job, key, stores[n]))
  {
  }

  lemma SourceIsAnswered(job: Job, snapshot: Entries, sources: seq<Source>, endings: map<nat, Read>,
      stores: seq<Store>, n: nat)
    requires n < |stores| == |sources| && forall i :: 0 <= i < |sources| ==> i in endings
    requires Underway(job, sources, endings, n) && AllStand(job, snapshot, endings, stores, n)
    requires AllAnswered(job, snapshot, sources, endings, stores, n)
    ensures AllAnswered(Record(Take(job, true), stores[n]), snapshot, sources, endings, stores, n + 1)
  {
    var next := Record(Take(job, true), stores[n]);
    if endings[n].Account? {
      assert StandsAs(job, snapshot, endings, stores, n, endings[n].key);
      StatusAnswers(job, snapshot, endings, stores, n, endings[n].key);
    }
    assert forall k :: 0 <= k < n ==> next.results[k] == job.results[k];
  }

  lemma SourceStands(job: Job, snapshot: Entries, sources: seq<Source>, endings: map<nat, Read>,
      stores: seq<Store>, n: nat)
    requires n < |stores| == |sources| && forall i :: 0 <= i < |sources| ==> i in endings
    requires Underway(job, sources, endings, n) && AllStand(job, snapshot, endings, stores, n)
    ensures AllStand(Record(Take(job, true), stores[n]), snapshot, endings, stores, n + 1)
  {
    var next, m := Record(Take(job, true), stores[n]), n + 1;
    forall key
      ensures StandsAs(next, snapshot, endings, stores, m, key)
    {
      assert StandsAs(job, snapshot, endings, stores, n, key);
      if endings[n].Account? {
        StandsNext(job, snapshot, endings, stores, n, m, key);
      } else {
        SettlerNext(snapshot, endings, stores, n, m, key);
      }
    }
  }

  // ---- Whole runs ----------------------------------------------------------

  /** `known` are the sources of a retry: they stand in for a discovery that is
      cancelled. */
  datatype Event =
    | Discovered(sources: seq<Source>)
    | DiscoveryFails
    | DiscoveryStops(known: Option<seq<Source>>)
    | NoRuntime
    | StartRead
    | ReadEnds(index: nat, read: Read)
    | TakeNext(alive: bool)
    | RecordNext(store: Store)
    | EndImport
    | CancelJob
    | LockSession
    | ClearJobs
    | EditEntry(key: Key, revision: Option<Revision>)

  /** A session that ended does not come back: unlocking starts another one.  The
      registry is cleared once it has ended.  Others edit and delete entries between the
      steps of the job. */
  function Next(job: Job, event: Event): Job {
    match event
    case Discovered(sources) => if job.phase.Discovering? then BeginImport(job, sources) else job
    case DiscoveryFails => if job.phase.Discovering? then FailDiscovery(job) else job
    case DiscoveryStops(known) =>
      if !job.phase.Discovering? || !job.cancelled then job
      else if known.Some? then BeginImport(job, known.value) else FailDiscovery(job)
    case NoRuntime => if job.phase.Discovering? then Finish(job.(cancelled := true)) else job
    case StartRead => if CanStart(job) then job.(started := job.started + 1) else job
    case ReadEnds(i, read) =>
      if !job.phase.Importing? || i >= job.started || i in job.endings || (read == NoAccount(Stopped) && !job.cancelled)
      then job else job.(endings := job.endings[i := read])
    case TakeNext(alive) => if CanTake(job) then Take(job, alive) else job
    case RecordNext(store) => if CanRecord(job) then Record(job, store) else job
    case EndImport =>
      if job.phase.Importing? && job.worker.Free? && job.completed == job.total then Finish(job) else job
    case CancelJob => Cancel(job)
    case LockSession => job.(unlocked := false)
    case ClearJobs => if job.unlocked then job else job.(cancelled := true)
    case EditEntry(key, revision) =>
      job.(vault := if revision.Some? then job.vault[key := revision.value] else job.vault - {key})
  }

  function Run(snapshot: Entries, events: seq<Event>): Job {
    if events == [] then Initial(snapshot)
    else Next(Run(snapshot, events[..|events| - 1]), events[|events| - 1])
  }

  /** What a result may say about its read. */
  predicate Explains(job: Job, read: Read, status: Status) {
    match read
    case NoAccount(reason) => status == reason
    case Account(_) => !status.Stopped? || job.cancelled || !job.unlocked
  }

  ghost predicate Sound(job: Job) {
    && job.completed == |job.results|
    && (job.phase.Discovering? ==> job.sources.None? && job.results == [] && job.worker.Free?)
    && (job.phase.Importing? ==> job.sources.Some?)
    && (job.phase.Complete? || job.phase.Cancelled? ==> job.completed == job.total && job.worker.Free?)
    && (job.sources.None? ==>
      && job.endings == map[] && job.commits == [] && job.started == 0
      && (job.results == [] || job.results == [Outcome(None, Failed)])
      && (job.phase.Discovering? ==> job.total == 0))
    && (job.sources.Some? ==> ImportSound(job, job.sources.value))
    && CommitsSound(job)
  }

  ghost predicate ImportSound(job: Job, sources: seq<Source>) {
    && job.total == |sources| && |job.results| <= |sources|
    && job.completed <= job.started <= job.total && job.started <= job.completed + MAX_PARALLEL_READS
    && (forall i :: i in job.endings ==> i < job.started)
    && (forall i :: 0 <= i < |job.results| ==>
      && job.results[i].source == Some(sources[i])
      && i in job.endings && Explains(job, job.endings[i], job.results[i].status))
    && (job.worker.Holding? ==>
      && |job.results| in job.endings
      && (job.worker.willCommit ==> job.endings[|job.results|].Account?)
      && (!job.worker.willCommit && job.endings[|job.results|].Account? ==> job.cancelled))
  }

  /** Commits follow the order of the sources, with nothing after a noted one of the
      same account. */
  ghost predicate CommitsSound(job: Job) {
    && (forall c :: c in job.commits ==>
      && (c.recorded ==> c.key in job.seen) && c.index < |job.results|
      && c.index in job.endings && job.endings[c.index] == Account(c.key))
    && (forall i, j :: 0 <= i < j < |job.commits| ==>
      && job.commits[i].index < job.commits[j].index
      && (job.commits[i].key == job.commits[j].key ==> !job.commits[i].recorded))
  }

  lemma TakeKeepsSound(job: Job, alive: bool)
    requires Sound(job) && CanTake(job)
    ensures Sound(Take(job, alive))
  {
  }

  lemma RecordKeepsSound(job: Job, store: Store)
    requires Sound(job) && CanRecord(job)
    ensures Sound(Record(job, store))
  {
    RecordKeepsCommits(job, store);
    RecordKeepsImport(job, store);
  }

  lemma RecordKeepsCommits(job: Job, store: Store)
    requires CommitsSound(job) && CanRecord(job)
    ensures CommitsSound(Record(job, store))
  {
    var after, i := Record(job, store), |job.results|;
    if job.worker.willCommit && Writes(job, job.endings[i].key, store) {
      var commit := Commit(i, job.endings[i].key, store.revision, !store.ending.Unrecorded?);
      assert after.commits == job.commits + [commit];
      AppendedKeepsCommits(job, after, commit);
    } else {
      assert after.commits == job.commits;
    }
  }

  lemma AppendedKeepsCommits(job: Job, after: Job, commit: Commit)
    requires CommitsSound(job) && after.commits == job.commits + [commit] && after.endings == job.endings
    requires commit.index == |job.results| < |after.results| && commit.index in job.endings
    requires job.endings[commit.index] == Account(commit.key) && commit.key !in job.seen
    requires job.seen <= after.seen && (commit.recorded ==> commit.key in after.seen)
    ensures CommitsSound(after)
  {
    assert forall c :: c in after.commits ==> c in job.commits || c == commit;
    assert forall i :: 0 <= i < |job.commits| ==> job.commits[i] in job.commits;
  }

  lemma RecordKeepsImport(job: Job, store: Store)
    requires Sound(job) && CanRecord(job)
    ensures ImportSound(Record(job, store), job.sources.value)
  {
    var after, i := Record(job, store), |job.results|;
    forall k | 0 <= k < |after.results|
      ensures after.results[k].source == Some(job.sources.value[k])
        && k in after.endings && Explains(after, after.endings[k], after.results[k].status)
    {
      assert k < i ==> after.results[k] == job.results[k];
    }
  }

  lemma StepKeepsSound(job: Job, event: Event)
    requires Sound(job)
    ensures Sound(Next(job, event))
  {
    match event
    case TakeNext(alive) =>
      if CanTake(job) {
        TakeKeepsSound(job, alive);
      }
    case RecordNext(store) =>
      if CanRecord(job) {
        RecordKeepsSound(job, store);
      }
    case ReadEnds(i, read) => ReadKeepsSound(job, i, read);
    case Discovered(_) => DiscoveryKeepsSound(job, event);
    case DiscoveryFails => DiscoveryKeepsSound(job, event);
    case DiscoveryStops(_) => DiscoveryKeepsSound(job, event);
    case NoRuntime => DiscoveryKeepsSound(job, event);
    case _ => OtherStepsKeepSound(job, event);
  }

  lemma DiscoveryKeepsSound(job: Job, event: Event)
    requires Sound(job)
    requires event.Discovered? || event.DiscoveryFails? || event.DiscoveryStops? || event.NoRuntime?
    ensures Sound(Next(job, event))
  {
  }

  lemma ReadKeepsSound(job: Job, i: nat, read: Read)
    requires Sound(job)
    ensures Sound(Next(job, ReadEnds(i, read)))
  {
  }

  lemma OtherStepsKeepSound(job: Job, event: Event)
    requires Sound(job) && !event.TakeNext? && !event.RecordNext? && !event.ReadEnds?
    requires !event.Discovered? && !event.DiscoveryFails? && !event.DiscoveryStops? && !event.NoRuntime?
    ensures Sound(Next(job, event))
  {
  }

  lemma {:induction false} RunIsSound(snapshot: Entries, events: seq<Event>)
    ensures Sound(Run(snapshot, events))
  {
    if events != [] {
      RunIsSound(snapshot, events[..|events| - 1]);
      StepKeepsSound(Run(snapshot, events[..|events| - 1]), events[|events| - 1]);
    }
  }

  /** In whatever order reads end, every source gets one result, in source order; the
      counters agree throughout and are full when the job ends, however it ends. */
  lemma EverySourceIsAnswered(snapshot: Entries, events: seq<Event>)
    ensures var job := Run(snapshot, events);
      && job.completed == |job.results| <= job.total
      && (job.sources.Some? ==> job.total == |job.sources.value| && forall i :: 0 <= i < |job.results| ==>
        job.results[i].source == Some(job.sources.value[i])
        && i in job.endings && Explains(job, job.endings[i], job.results[i].status))
      && (!Running(job) ==> job.completed == job.total)
      && (!Running(job) && job.sources.None? ==> job.total <= 1)
  {
    RunIsSound(snapshot, events);
  }

  /** No more than four reads are ahead of the results. */
  lemma ReadsAreBounded(snapshot: Entries, events: seq<Event>)
    ensures Run(snapshot, events).started <= Run(snapshot, events).completed + MAX_PARALLEL_READS
    ensures |Run(snapshot, events).endings| <= Run(snapshot, events).completed + MAX_PARALLEL_READS
  {
    RunIsSound(snapshot, events);
    var job := Run(snapshot, events);
    if job.sources.Some? {
      SubsetSize(job.endings.Keys, Below(job.started));
    }
  }

  function Below(n: nat): (below: set<nat>)
    ensures |below| == n && forall i :: i in below <==> 0 <= i < n
  {
    if n == 0 then {} else Below(n - 1) + {n - 1}
  }

  /** Commits happen in source order, and no account is committed again after a write
      that was noted, although two sources may hold the same one: the first wins. */
  lemma CommitsInSourceOrder(snapshot: Entries, events: seq<Event>, i: nat, j: nat)
    requires i < j < |Run(snapshot, events).commits|
    ensures var job := Run(snapshot, events);
      && job.commits[i].index < job.commits[j].index
      && (job.commits[i].key == job.commits[j].key ==> !job.commits[i].recorded)
      && job.commits[j].index in job.endings && job.endings[job.commits[j].index] == Account(job.commits[j].key)
  {
    RunIsSound(snapshot, events);
    assert Run(snapshot, events).commits[j] in Run(snapshot, events).commits;
  }

  // ---- Writes that are repeated --------------------------------------------

  /** The last commit of an account. */
  function Last(commits: seq<Commit>, key: Key): (i: Option<nat>)
    ensures i.Some? ==> i.value < |commits| && commits[i.value].key == key
    ensures forall k :: (if i.Some? then i.value + 1 else 0) <= k < |commits| ==> commits[k].key != key
  {
    if commits == [] then None
    else if commits[|commits| - 1].key == key then Some(|commits| - 1)
    else Last(commits[..|commits| - 1], key)
  }

  predicate Undisturbed(events: seq<Event>) {
    forall i :: 0 <= i < |events| ==> !events[i].EditEntry?
  }

  /** While nobody else edits the vault, it holds what the last commit of an account left,
      and the job knows it or still knows the snapshot. */
  ghost predicate Follows(job: Job, snapshot: Entries, key: Key) {
    var i := Last(job.commits, key);
    if i.None? then
      Get(job.vault, key) == Get(snapshot, key) && Get(job.known, key) == Get(snapshot, key)
    else
      && Get(job.vault, key) == Some(job.commits[i.value].revision)
      && (job.commits[i.value].recorded ==> key in job.seen)
      && (!job.commits[i.value].recorded ==> Get(job.known, key) == Get(snapshot, key))
  }

  /** A commit with a later one of its account was not noted, and left the revision of
      the snapshot. */
  ghost predicate Repeats(job: Job, snapshot: Entries) {
    forall i, j :: 0 <= i < j < |job.commits| && job.commits[i].key == job.commits[j].key ==>
      !job.commits[i].recorded && Get(snapshot, job.commits[i].key) == Some(job.commits[i].revision)
  }

  lemma LastAppended(commits: seq<Commit>, commit: Commit, key: Key)
    ensures Last(commits + [commit], key) == if commit.key == key then Some(|commits|) else Last(commits, key)
  {
    assert (commits + [commit])[..|commits|] == commits;
  }

  /** Whether a source of an account committed before is written again. */
  lemma WritesAgain(job: Job, snapshot: Entries, key: Key, store: Store)
    requires Follows(job, snapshot, key) && Last(job.commits, key).Some?
    ensures Writes(job, key, store) <==>
      && job.unlocked && store.Taken? && !store.bound && key !in job.seen
      && Get(snapshot, key) == Some(job.commits[Last(job.commits, key).value].revision)
  {
  }

  lemma StoreFollows(job: Job, snapshot: Entries, i: nat, account: Key, store: Store, key: Key)
    requires Follows(job, snapshot, key)
    ensures Follows(StoreAccount(job, i, account, store), snapshot, key)
  {
    if Writes(job, account, store) {
      LastAppended(job.commits, Commit(i, account, store.revision, !store.ending.Unrecorded?), key);
    }
  }

  lemma StoreRepeats(job: Job, snapshot: Entries, i: nat, key: Key, store: Store)
    requires Follows(job, snapshot, key) && Repeats(job, snapshot)
    ensures Repeats(StoreAccount(job, i, key, store), snapshot)
  {
    if Writes(job, key, store) && Last(job.commits, key).Some? {
      var l := Last(job.commits, key).value;
      WritesAgain(job, snapshot, key, store);
      assert !job.commits[l].recorded;
      assert forall k :: 0 <= k < |job.commits| && job.commits[k].key == key ==> k <= l;
    }
  }

  lemma StepFollows(job: Job, event: Event, snapshot: Entries)
    requires !event.EditEntry? && Repeats(job, snapshot) && forall key :: Follows(job, snapshot, key)
    ensures Repeats(Next(job, event), snapshot) && forall key :: Follows(Next(job, event), snapshot, key)
  {
    if event.RecordNext? && CanRecord(job) && job.worker.willCommit {
      var i, store := |job.results|, event.store;
      var account := job.endings[i].key;
      StoreRepeats(job, snapshot, i, account, store);
      forall key
        ensures Follows(Next(job, event), snapshot, key)
      {
        StoreFollows(job, snapshot, i, account, store, key);
      }
    } else {
      OtherStepsStore(job, event);
      forall key
        ensures Follows(Next(job, event), snapshot, key)
      {
        assert Follows(job, snapshot, key);
      }
    }
  }

  lemma OtherStepsStore(job: Job, event: Event)
    requires !event.EditEntry? && (event.RecordNext? && CanRecord(job) ==> !job.worker.willCommit)
    ensures var after := Next(job, event);
      after.commits == job.commits && after.vault == job.vault && after.known == job.known && after.seen == job.seen
  {
    match event
    case RecordNext(store) =>
      if CanRecord(job) {
        RecordStores(job, store);
      }
    case TakeNext(alive) =>
    case _ =>
  }

  lemma RecordStores(job: Job, store: Store)
    requires CanRecord(job) && !job.worker.willCommit
    ensures var after := Record(job, store);
      after.commits == job.commits && after.vault == job.vault && after.known == job.known && after.seen == job.seen
  {
  }

  lemma {:induction false} RunFollows(snapshot: Entries, events: seq<Event>)
    requires Undisturbed(events)
    ensures Repeats(Run(snapshot, events), snapshot)
    ensures forall key :: Follows(Run(snapshot, events), snapshot, key)
  {
    if events != [] {
      RunFollows(snapshot, events[..|events| - 1]);
      StepFollows(Run(snapshot, events[..|events| - 1]), events[|events| - 1], snapshot);
    }
  }

  /** While nobody else edits the vault, an account is committed again only after a write
      that failed before it was noted and left the entry at the revision the job had
      seen: any other unnoted write is refused as a conflict from then on. */
  lemma CommittedOnce(snapshot: Entries, events: seq<Event>, i: nat, j: nat)
    requires Undisturbed(events) && i < j < |Run(snapshot, events).commits|
    requires var commit := Run(snapshot, events).commits[i];
      commit.recorded || Get(snapshot, commit.key) != Some(commit.revision)
    ensures Run(snapshot, events).commits[i].key != Run(snapshot, events).commits[j].key
  {
    RunFollows(snapshot, events);
  }

  /** And then the next source of the account is committed exactly if the session lasts
      and the vault takes it as one that is not bound. */
  lemma CommittedAgainExactly(snapshot: Entries, events: seq<Event>, l: nat, store: Store)
    requires Undisturbed(events) && CanRecord(Run(snapshot, events)) && Run(snapshot, events).worker.willCommit
    requires var job := Run(snapshot, events);
      l < |job.commits| && Last(job.commits, job.endings[|job.results|].key) == Some(l)
    ensures var job := Run(snapshot, events);
      var key := job.endings[|job.results|].key;
      |Record(job, store).commits| > |job.commits| <==>
        && job.unlocked && store.Taken? && !store.bound && key !in job.seen
        && Get(snapshot, key) == Some(job.commits[l].revision)
  {
    var job := Run(snapshot, events);
    var key := job.endings[|job.results|].key;
    RunFollows(snapshot, events);
    assert Follows(job, snapshot, key);
    WritesAgain(job, snapshot, key, store);
  }

  lemma Extend(snapshot: Entries, events: seq<Event>, job: Job, event: Event) returns (longer: seq<Event>, after: Job)
    requires Run(snapshot, events) == job
    ensures longer == events + [event] && after == Next(job, event) == Run(snapshot, longer)
  {
    longer, after := events + [event], Next(job, event);
    RunLast(snapshot, events, event);
  }

  /** Two sources, both of which are being read. */
  function TwoStarted(key: Key, revision: Revision): Job {
    Initial(map[key := revision]).(phase := Importing, total := 2, sources := Some([1, 2]), started := 2)
  }

  /** Both reads are over, and hold one account. */
  function TwoReads(key: Key, revision: Revision): Job {
    TwoStarted(key, revision).(endings := map[0 := Account(key), 1 := Account(key)])
  }

  lemma TwoAreStarted(key: Key, revision: Revision) returns (e: seq<Event>)
    ensures Undisturbed(e) && Run(map[key := revision], e) == TwoStarted(key, revision)
  {
    var snapshot: Entries := map[key := revision];
    var job := Initial(snapshot);
    e := [];
    e, job := Extend(snapshot, e, job, Discovered([1, 2]));
    e, job := Extend(snapshot, e, job, StartRead);
    e, job := Extend(snapshot, e, job, StartRead);
  }

  lemma TwoReadsAreReached(key: Key, revision: Revision) returns (e: seq<Event>)
    ensures Undisturbed(e) && Run(map[key := revision], e) == TwoReads(key, revision)
  {
    var snapshot: Entries := map[key := revision];
    e := TwoAreStarted(key, revision);
    var job := TwoStarted(key, revision);
    e, job := Extend(snapshot, e, job, ReadEnds(0, Account(key)));
    e, job := Extend(snapshot, e, job, ReadEnds(1, Account(key)));
  }

  /** The step of a worker that takes a read and commits its account. */
  lemma CommitOne(snapshot: Entries, e: seq<Event>, job: Job, key: Key, store: Store)
    returns (longer: seq<Event>, after: Job)
    requires Undisturbed(e) && Run(snapshot, e) == job && CanTake(job) && !job.cancelled
    requires job.sources.Some? && |job.results| < |job.sources.value| && job.endings[|job.results|] == Account(key)
    ensures Undisturbed(longer) && Run(snapshot, longer) == after == Record(Take(job, true), store)
  {
    longer, after := Extend(snapshot, e, job, TakeNext(true));
    assert CanRecord(after);
    longer, after := Extend(snapshot, longer, after, RecordNext(store));
  }

  predicate CommittedTwice(job: Job, key: Key) {
    |job.commits| == 2 && job.commits[0].key == job.commits[1].key == key
  }

  /** It happens: two sources hold one account, and the write of the first leaves the
      entry as it was and fails before it is noted. */
  lemma UnnotedWriteIsRepeated(key: Key, revision: Revision)
    ensures exists events :: Undisturbed(events) && CommittedTwice(Run(map[key := revision], events), key)
  {
    var snapshot: Entries := map[key := revision];
    var e := TwoReadsAreReached(key, revision);
    var job := TwoReads(key, revision);
    var unnoted := Taken(false, revision, Unrecorded);
    e, job := CommitOne(snapshot, e, job, key, unnoted);
    assert job.commits == [Commit(0, key, revision, false)] && |job.results| == 1 && job.worker.Free?;
    assert !Conflicts(job, key);
    e, job := CommitOne(snapshot, e, job, key, Taken(false, revision + 1, Recorded));
    assert CommittedTwice(job, key);
  }

  // ---- The cancellation boundary -------------------------------------------

  ghost predicate Sealed(job: Job, commits: seq<Commit>) {
    && job.commits == commits
    && (!job.unlocked || (job.cancelled && !(job.worker.Holding? && job.worker.willCommit)))
  }

  lemma {:induction false} SealedForGood(snapshot: Entries, events: seq<Event>, more: seq<Event>, commits: seq<Commit>)
    requires Sealed(Run(snapshot, events), commits)
    ensures Sealed(Run(snapshot, events + more), commits)
    decreases |more|
  {
    if more == [] {
      assert events + more == events;
    } else {
      var init := more[..|more| - 1];
      SealedForGood(snapshot, events, init, commits);
      assert events + more == events + init + [more[|more| - 1]];
      RunLast(snapshot, events + init, more[|more| - 1]);
      StaysSealed(Run(snapshot, events + init), more[|more| - 1], commits);
    }
  }

  lemma RunLast(snapshot: Entries, events: seq<Event>, event: Event)
    ensures Run(snapshot, events + [event]) == Next(Run(snapshot, events), event)
  {
    assert (events + [event])[..|events|] == events;
  }

  lemma StaysSealed(job: Job, event: Event, commits: seq<Commit>)
    requires Sealed(job, commits)
    ensures Sealed(Next(job, event), commits)
  {
  }

  /** Once a cancel of a running import returns, the job commits nothing more. */
  lemma CancelledMeansNoMoreCommits(snapshot: Entries, events: seq<Event>, more: seq<Event>)
    requires Running(Run(snapshot, events)) && Run(snapshot, events).worker.Free?
    ensures Run(snapshot, events + [CancelJob] + more).commits == Run(snapshot, events).commits
  {
    var at := events + [CancelJob];
    assert at[..|at| - 1] == events;
    SealedForGood(snapshot, at, more, Run(snapshot, events).commits);
  }

  /** Once the session is locked the job commits nothing more, though a worker may be
      about to: the flag that the clearing sets is not what stops it. */
  lemma LockedMeansNoMoreCommits(snapshot: Entries, events: seq<Event>, more: seq<Event>)
    ensures Run(snapshot, events + [LockSession] + more).commits == Run(snapshot, events).commits
  {
    var at := events + [LockSession];
    assert at[..|at| - 1] == events;
    SealedForGood(snapshot, at, more, Run(snapshot, events).commits);
  }

  /** So nothing is committed after a clearing of the registry that took effect. */
  lemma ClearedMeansNoMoreCommits(snapshot: Entries, events: seq<Event>, more: seq<Event>)
    requires Run(snapshot, events + [ClearJobs]) != Run(snapshot, events)
    ensures Run(snapshot, events + [ClearJobs] + more).commits == Run(snapshot, events).commits
  {
    var at := events + [ClearJobs];
    assert at[..|at| - 1] == events;
    SealedForGood(snapshot, at, more, Run(snapshot, events).commits);
  }
}
