/** The pool of Claude processes (crates/aipass-agent/src/claude_bridge.rs).

    A turn resumes the idle process that knows the conversation, or starts a new one
    after making room.  The pool is a hash map, so which of several candidates is met
    first is not determined. */
module ClaudePool {
  import opened Sets
  import opened Wrappers
  import opened ClaudeBridge

  type Key = nat
  type Hash = nat

  const MAX_RUNS: nat := 16
  const PARK_TTL: nat := 300
  const IDLE_TTL: nat := 3600

  /** `open` means that a stream is being served from the process. */
  datatype Process = Process(
    owner: nat,
    context: Hash,
    session: Option<nat>,
    history: Hash,
    open: bool,
    parked: bool,
    lastUsed: nat,
    calls: seq<Call>
  )

  datatype Request = Request(
    owner: nat,
    context: Hash,
    session: Option<nat>,
    before: Hash,
    whole: Hash,
    results: seq<ToolResult>
  )

  type Pool = map<Key, Process>

  datatype Outcome = Resumed(key: Key) | Started(key: Key) | Refused

  // ---- Choosing a process --------------------------------------------------

  /** Every result answers a call of the process that is still waiting. */
  predicate Awaits(p: Process, results: seq<ToolResult>) {
    forall r :: 0 <= r < |results| ==> results[r].id.Some? && results[r].id.value in PendingIds(p.calls)
  }

  predicate Matches(p: Process, request: Request) {
    && p.owner == request.owner && p.context == request.context && !p.open
    && (if request.results != [] then p.parked && Awaits(p, request.results)
        else !p.parked && p.history == request.before)
  }

  predicate Busy(pool: Pool, request: Request) {
    request.session.Some? && exists k :: k in pool && Serves(pool[k], request)
  }

  predicate Serves(p: Process, request: Request) {
    p.owner == request.owner && p.session == request.session && p.open
  }

  /** The process after the turn was passed to it. */
  function Continued(p: Process, request: Request, calls: seq<Call>, now: nat): Process {
    p.(open := true, parked := false, lastUsed := now, history := request.whole, calls := calls)
  }

  function Beginning(request: Request, now: nat): Process {
    Process(request.owner, request.context, request.session, request.whole, true, false, now, [])
  }

  // ---- Making room ---------------------------------------------------------

  /** Nothing that is kept and idle was used before something that went. */
  ghost predicate OldestWent(before: Pool, after: Pool) {
    forall gone, kept :: gone in before && gone !in after && kept in after && !after[kept].open ==>
      before[gone].lastUsed <= after[kept].lastUsed
  }

  ghost predicate OnlyIdleWent(before: Pool, after: Pool) {
    && (forall k :: k in after ==> k in before && after[k] == before[k])
    && (forall k :: k in before && k !in after ==> !before[k].open)
  }

  /** Room was made, or every process left is serving a stream. */
  ghost predicate MadeRoom(before: Pool, after: Pool, ok: bool) {
    && OnlyIdleWent(before, after) && OldestWent(before, after)
    && (|before| < MAX_RUNS ==> after == before)
    && (ok <==> |after| < MAX_RUNS)
    && (|before| >= MAX_RUNS && ok ==> |after| == MAX_RUNS - 1)
    && (!ok ==> forall k :: k in after ==> after[k].open)
  }

  method OldestIdle(pool: Pool) returns (oldest: Option<Key>)
    ensures oldest.None? ==> forall k :: k in pool ==> pool[k].open
    ensures oldest.Some? ==> oldest.value in pool && !pool[oldest.value].open
    ensures oldest.Some? ==> forall k :: k in pool && !pool[k].open ==> pool[oldest.value].lastUsed <= pool[k].lastUsed
  {
    oldest := None;
    var rest := pool.Keys;
    while rest != {}
      invariant rest <= pool.Keys
      invariant oldest.Some? ==> oldest.value in pool && !pool[oldest.value].open
      invariant forall k :: k in pool && k !in rest && !pool[k].open ==>
        oldest.Some? && pool[oldest.value].lastUsed <= pool[k].lastUsed
      decreases |rest|
    {
      var k :| k in rest;
      rest := rest - {k};
      if !pool[k].open && (oldest.None? || pool[k].lastUsed < pool[oldest.value].lastUsed) {
        oldest := Some(k);
      }
    }
  }

  class Bridge {
    var runs: Pool

    constructor ()
      ensures runs == map[]
    {
      runs := map[];
    }

    /** Least recently used idle processes go until there is room for one more. */
    method MakeRoom() returns (ok: bool)
      modifies this
      ensures MadeRoom(old(runs), runs, ok)
    {
      ghost var before := runs;
      while |runs| >= MAX_RUNS
        invariant OnlyIdleWent(before, runs) && OldestWent(before, runs)
        invariant |before| < MAX_RUNS ==> runs == before
        invariant |before| >= MAX_RUNS ==> |runs| >= MAX_RUNS - 1
        decreases |runs|
      {
        var oldest := OldestIdle(runs);
        if oldest.None? {
          return false;
        }
        EvictOne(before, runs, oldest.value);
        runs := runs - {oldest.value};
      }
      ok := true;
    }

    method FindRun(request: Request) returns (key: Option<Key>)
      ensures key.Some? ==> key.value in runs && Matches(runs[key.value], request)
      ensures key.None? ==> forall k :: k in runs ==> !Matches(runs[k], request)
    {
      key := None;
      var rest := runs.Keys;
      while rest != {}
        invariant rest <= runs.Keys
        invariant forall k :: k in runs && k !in rest ==> !Matches(runs[k], request)
        decreases |rest|
      {
        var k :| k in rest;
        if Matches(runs[k], request) {
          return Some(k);
        }
        rest := rest - {k};
      }
    }

    /** `writes` and `spawns` say whether the process takes its input and whether a new
        one can be had. */
    method OpenReport(request: Request, newKey: Key, now: nat, writes: bool, spawns: bool) returns (outcome: Outcome)
      requires newKey !in runs && forall k :: k in runs ==> UniqueIds(runs[k].calls)
      modifies this
      ensures Opened(old(runs), runs, request, newKey, now, outcome)
    {
      var key := FindRun(request);
      if key.Some? {
        var run := runs[key.value];
        if request.results != [] {
          var ok, calls := AnswerCalls(run.calls, request.results);
          if !ok {
            return Refused;
          }
          runs := runs[key.value := Continued(run, request, calls, now)];
        } else {
          if !writes {
            return Refused;
          }
          runs := runs[key.value := Continued(run, request, [], now)];
        }
        return Resumed(key.value);
      }
      if request.results != [] || Busy(runs, request) {
        return Refused;
      }
      var room := MakeRoom();
      if !room || !spawns || !writes {
        return Refused;
      }
      runs := runs[newKey := Beginning(request, now)];
      outcome := Started(newKey);
    }
  }

  lemma EvictOne(before: Pool, now: Pool, oldest: Key)
    requires OnlyIdleWent(before, now) && OldestWent(before, now)
    requires oldest in now && !now[oldest].open
    requires forall k :: k in now && !now[k].open ==> now[oldest].lastUsed <= now[k].lastUsed
    ensures OnlyIdleWent(before, now - {oldest}) && OldestWent(before, now - {oldest})
    ensures |now - {oldest}| == |now| - 1
  {
    assert (now - {oldest}).Keys == now.Keys - {oldest};
    assert |now.Keys| == |now|;
  }

  /** What a turn may do to the pool. */
  ghost predicate Opened(before: Pool, after: Pool, request: Request, newKey: Key, now: nat, outcome: Outcome) {
    match outcome
    case Resumed(key) =>
      && key in before && Matches(before[key], request) && key in after
      && after == before[key := Continued(before[key], request, after[key].calls, now)]
      && Passed(before[key].calls, after[key].calls, request.results)
    case Started(key) =>
      && key == newKey && request.results == [] && !Busy(before, request)
      && (forall k :: k in before ==> !Matches(before[k], request))
      && newKey in after && after[newKey] == Beginning(request, now)
      && MadeRoom(before, after - {newKey}, true)
    case Refused => after == before || exists ok :: MadeRoom(before, after, ok)
  }

  /** The calls of a resumed process: answered in full, or forgotten with a new
      message. */
  ghost predicate Passed(before: seq<Call>, after: seq<Call>, results: seq<ToolResult>) {
    if results == [] then after == []
    else
      && Complete(before, results) && SameCalls(before, after) && PendingIds(after) == {}
      && (forall i :: 0 <= i < |before| && before[i].result.Some? ==> after[i] == before[i])
      && (forall i, r :: 0 <= i < |before| && 0 <= r < |results| && results[r].id == Some(before[i].id) ==>
        after[i].result == results[r].content)
  }

  // ---- Whole runs ----------------------------------------------------------

  datatype Event =
    | Open(request: Request, newKey: Key, outcome: Outcome)
    | SegmentEnds(key: Key, parked: bool, history: Hash)
    | ToolUse(key: Key, call: Call)
    | ProcessGone(key: Key)
    | Expire
    | RetainTargets(owners: set<nat>)

  predicate Fresh(p: Process, now: nat) {
    p.open || now < p.lastUsed + (if p.parked then PARK_TTL else IDLE_TTL)
  }

  ghost predicate Step(before: Pool, event: Event, now: nat, after: Pool) {
    match event
    case Open(request, newKey, outcome) => newKey !in before && Opened(before, after, request, newKey, now, outcome)
    case SegmentEnds(key, parked, history) =>
      && key in before
      && after == before[key := before[key].(open := false, parked := parked, lastUsed := now, history := history)]
    case ToolUse(key, call) => key in before
      && after == before[key := before[key].(calls := before[key].calls + [call])]
    case ProcessGone(key) => after == before - {key}
    case Expire => after == map k | k in before && Fresh(before[k], now) :: before[k]
    case RetainTargets(owners) => after == map k | k in before && before[k].owner in owners :: before[k]
  }

  /** A run: the pool before each event and after the last one. */
  ghost predicate IsRun(pools: seq<Pool>, events: seq<Event>, times: seq<nat>) {
    && |pools| == |events| + 1 == |times| + 1
    && pools[0] == map[]
    && forall i :: 0 <= i < |events| ==> Step(pools[i], events[i], times[i], pools[i + 1])
  }

  lemma SmallerPool(a: Pool, b: Pool)
    requires a.Keys <= b.Keys
    ensures |a| <= |b|
  {
    SubsetSize(a.Keys, b.Keys);
    assert |a.Keys| == |a| && |b.Keys| == |b|;
  }

  lemma OneMore(pool: Pool, key: Key)
    requires key in pool
    ensures |pool| == |pool - {key}| + 1
  {
    assert (pool - {key}).Keys == pool.Keys - {key};
    assert |pool.Keys| == |pool| && |(pool - {key}).Keys| == |pool - {key}|;
  }

  lemma StepKeepsBound(before: Pool, event: Event, now: nat, after: Pool)
    requires |before| <= MAX_RUNS && Step(before, event, now, after)
    ensures |after| <= MAX_RUNS
  {
    if event.Open? && event.outcome.Started? {
      OneMore(after, event.newKey);
    } else {
      SmallerPool(after, before);
    }
  }

  /** However turns, ends and expiries are mixed, there are never more than sixteen
      processes. */
  lemma {:induction false} NeverMoreThanSixteen(pools: seq<Pool>, events: seq<Event>, times: seq<nat>, i: nat)
    requires IsRun(pools, events, times) && i < |pools|
    ensures |pools[i]| <= MAX_RUNS
    decreases i
  {
    if i > 0 {
      NeverMoreThanSixteen(pools, events, times, i - 1);
      StepKeepsBound(pools[i - 1], events[i - 1], times[i - 1], pools[i]);
    }
  }

  /** A process that serves a stream stays until that stream or its target ends. */
  lemma OpenProcessStays(before: Pool, event: Event, now: nat, after: Pool, key: Key)
    requires Step(before, event, now, after) && key in before && before[key].open
    requires event != ProcessGone(key) && !event.RetainTargets? && !(event.SegmentEnds? && event.key == key)
    ensures key in after && after[key].open
    ensures after[key] == before[key] || (event.ToolUse? && event.key == key)
  {
    if event.Open? && event.outcome.Started? {
      assert key in after - {event.newKey};
    }
  }

  /** In a pool within its bound a new process costs at most one other: the idle one
      unused for longest; and only a pool full of open streams refuses for lack of
      room. */
  lemma EvictionIsLeastRecentlyUsed(before: Pool, after: Pool, ok: bool)
    requires |before| <= MAX_RUNS && MadeRoom(before, after, ok)
    ensures ok <==> |before| < MAX_RUNS || exists k :: k in before && !before[k].open
    ensures !ok ==> after == before
    ensures after != before ==> exists gone :: (gone in before && !before[gone].open && after == before - {gone}
                                                && forall k :: k in before && !before[k].open ==>
                                                  before[gone].lastUsed <= before[k].lastUsed)
  {
    assert after.Keys <= before.Keys;
    if after.Keys == before.Keys {
      assert after == before;
    } else {
      var gone :| gone in before && gone !in after;
      OneMore(before, gone);
      SmallerPool(after, before - {gone});
      SameSize(after.Keys, (before - {gone}).Keys);
      assert after == before - {gone};
    }
    if !ok {
      assert forall k :: k in before ==> before[k].open;
    }
  }

  /** Tool results can only go to one process, whichever is met first, when no two
      processes wait under the same call id. */
  lemma ResultsNameOneProcess(pool: Pool, request: Request, a: Key, b: Key)
    requires a in pool && b in pool && Matches(pool[a], request) && Matches(pool[b], request)
    requires request.results != []
    requires forall j, k :: j in pool && k in pool && j != k ==> PendingIds(pool[j].calls) !! PendingIds(pool[k].calls)
    ensures a == b
  {
    var id := request.results[0].id.value;
    assert id in PendingIds(pool[a].calls) && id in PendingIds(pool[b].calls);
  }
}
