/** The extension's side of native messaging (apps/extension/src/native-client.ts).

    Requests wait in a map, each with its own timeout; a lost port retries them once;
    the port is reopened with growing delays; a recovery replaces the port and pings.
    Callbacks run one at a time, and a clock never passes a timer that is due.  Ids
    are fresh. */
module NativeClient {
  import opened Wrappers

  type Id = nat

  const RETRY_DELAY: nat := 250
  const MAX_RETRIES: nat := 1
  const RECONNECT_INITIAL: nat := 500
  const RECONNECT_MAX: nat := 30_000
  const DEFAULT_TIMEOUT: nat := 30_000
  const RECOVERY_TIMEOUT: nat := 8_000
  const RECOVERY_DELAYS: seq<nat> := [0, 500, 1_500, 3_000]

  datatype Pending = Pending(timeoutMs: nat, startedAt: nat, attempts: nat)

  datatype Retry = Retry(id: Id, due: nat)

  /** `timeouts` and `retries` are the live timers.  The rest are histories: the
      deadline of every request made, how often it was posted, when it was resolved,
      and the requests resolved more than once. */
  datatype Requests = Requests(
    pending: map<Id, Pending>,
    timeouts: map<Id, nat>,
    retries: set<Retry>,
    deadlines: map<Id, nat>,
    posts: map<Id, nat>,
    resolved: map<Id, nat>,
    twice: set<Id>
  )

  datatype Recovery =
    | Idle
    | Sleeping(round: nat, due: nat)
    | Awaiting(round: nat, id: Id)
    | Answered(round: nat, ok: bool)

  /** `timers` are the live reconnect timers, `reconnectTimer` the one remembered. */
  datatype Link = Link(
    port: bool,
    timers: map<nat, nat>,
    reconnectTimer: Option<nat>,
    nextTimer: nat,
    reconnectDelay: nat,
    recovery: Recovery
  )

  datatype State = State(now: nat, requests: Requests, link: Link)

  const INITIAL := State(0, Requests(map[], map[], {}, map[], map[], map[], {}),
                         Link(false, map[], None, 0, RECONNECT_INITIAL, Idle))

  /** How the browser answers a connection attempt and a post. */
  datatype Browser = Browser(connects: bool, posts: bool)

  // ---- The port ------------------------------------------------------------

  function Min(a: nat, b: nat): nat {
    if a <= b then a else b
  }

  function ScheduleReconnect(now: nat, l: Link): Link {
    if l.reconnectTimer.Some? then l
    else l.(timers := l.timers[l.nextTimer := now + l.reconnectDelay],
            reconnectTimer := Some(l.nextTimer),
            nextTimer := l.nextTimer + 1,
            reconnectDelay := Min(l.reconnectDelay * 2, RECONNECT_MAX))
  }

  function ScheduleUnlessRecovering(now: nat, l: Link): Link {
    if l.recovery.Idle? then ScheduleReconnect(now, l) else l
  }

  function Connect(now: nat, l: Link, connects: bool): Link {
    if l.port then l
    else if connects then l.(port := true)
    else ScheduleUnlessRecovering(now, l)
  }

  function ClearReconnectTimer(l: Link): Link {
    if l.reconnectTimer.None? then l
    else l.(timers := l.timers - {l.reconnectTimer.value}, reconnectTimer := None)
  }

  /** The port goes away by our own hand or otherwise. */
  function LosePort(now: nat, l: Link): Link {
    ScheduleUnlessRecovering(now, l.(port := false))
  }

  function ReconnectFires(now: nat, l: Link, timer: nat, connects: bool): Link {
    var fired := l.(timers := l.timers - {timer}, reconnectTimer := None);
    var tried := if fired.port then fired else Connect(now, fired, connects);
    if tried.port then tried else ScheduleReconnect(now, tried)
  }

  // ---- Requests ------------------------------------------------------------

  /** Hand the promise its answer; a recovery waiting for it takes note. */
  function Resolve(s: State, id: Id, ok: bool): State {
    var q := s.requests;
    s.(requests := if id in q.resolved then q.(twice := q.twice + {id}) else q.(resolved := q.resolved[id := s.now]),
       link := if s.link.recovery.Awaiting? && s.link.recovery.id == id
               then s.link.(recovery := Answered(s.link.recovery.round, ok)) else s.link)
  }

  function Forget(s: State, id: Id): State {
    s.(requests := s.requests.(pending := s.requests.pending - {id}, timeouts := s.requests.timeouts - {id}))
  }

  function Fail(s: State, id: Id): State {
    if id !in s.requests.pending then s else Resolve(Forget(s, id), id, false)
  }

  function Posts(q: Requests, id: Id): nat {
    if id in q.posts then q.posts[id] else 0
  }

  function CountPost(s: State, id: Id): State {
    s.(requests := s.requests.(posts := s.requests.posts[id := Posts(s.requests, id) + 1]))
  }

  function Post(s: State, id: Id, browser: Browser): State {
    if id !in s.requests.pending then s
    else
      var connected := s.(link := Connect(s.now, s.link, browser.connects));
      if !connected.link.port then Fail(connected, id)
      else
        var posted := CountPost(connected, id);
        if browser.posts then posted
        else
          var failed := Fail(posted, id);
          failed.(link := LosePort(failed.now, failed.link))
  }

  function Await(s: State, id: Id, timeoutMs: nat): State {
    var deadline := s.now + timeoutMs;
    s.(requests := s.requests.(
      pending := s.requests.pending[id := Pending(timeoutMs, s.now, 0)],
      timeouts := s.requests.timeouts[id := deadline],
      deadlines := s.requests.deadlines[id := deadline]))
  }

  function Request(s: State, id: Id, timeoutMs: nat, browser: Browser): State {
    Post(Await(s, id, timeoutMs), id, browser)
  }

  function HandleMessage(s: State, id: Id, ok: bool): State {
    if id !in s.requests.pending then s
    else Resolve(Forget(s, id).(link := s.link.(reconnectDelay := RECONNECT_INITIAL)), id, ok)
  }

  function RetryOrFail(s: State, id: Id): State {
    if id !in s.requests.pending then s
    else
      var p := s.requests.pending[id];
      var used := s.now - p.startedAt;
      if p.attempts >= MAX_RETRIES || p.timeoutMs - used <= RETRY_DELAY then Fail(s, id)
      else s.(requests := s.requests.(
        pending := s.requests.pending[id := p.(attempts := p.attempts + 1)],
        retries := s.requests.retries + {Retry(id, s.now + RETRY_DELAY)}))
  }

  function RetryOrFailAll(s: State, ids: seq<Id>): State
    decreases |ids|
  {
    if ids == [] then s else RetryOrFail(RetryOrFailAll(s, ids[..|ids| - 1]), ids[|ids| - 1])
  }

  function HandleDisconnect(s: State, ids: seq<Id>): State {
    var after := RetryOrFailAll(s.(link := s.link.(port := false)), ids);
    after.(link := ScheduleUnlessRecovering(after.now, after.link))
  }

  function TimeoutFires(s: State, id: Id): State {
    var resolved := Resolve(Forget(s, id), id, false);
    resolved.(link := LosePort(resolved.now, resolved.link))
  }

  function RetryFires(s: State, retry: Retry, browser: Browser): State {
    Post(s.(requests := s.requests.(retries := s.requests.retries - {retry})), retry.id, browser)
  }

  // ---- Recovery ------------------------------------------------------------

  /** Replace the port and ping. */
  function PingRound(s: State, round: nat, id: Id, browser: Browser): State {
    var l := ClearReconnectTimer(s.link).(port := false, recovery := Awaiting(round, id));
    Request(s.(link := l), id, RECOVERY_TIMEOUT, browser)
  }

  /** The recovery goes on as soon as its ping is answered. */
  function Continue(s: State): State {
    match s.link.recovery
    case Answered(round, ok) =>
      if ok then s.(link := s.link.(recovery := Idle, reconnectDelay := RECONNECT_INITIAL))
      else if round + 1 < |RECOVERY_DELAYS| then
        s.(link := s.link.(recovery := Sleeping(round + 1, s.now + RECOVERY_DELAYS[round + 1])))
      else s.(link := ScheduleReconnect(s.now, s.link.(recovery := Idle)))
    case _ => s
  }

  // ---- The client ----------------------------------------------------------

  class NativeClient {
    var now: nat
    var requests: Requests
    var link: Link

    constructor ()
      ensures View() == INITIAL
    {
      now, requests, link := INITIAL.now, INITIAL.requests, INITIAL.link;
    }

    function View(): State
      reads this
    {
      State(now, requests, link)
    }

    method Schedule()
      modifies this`link
      ensures link == ScheduleReconnect(now, old(link))
    {
      if link.reconnectTimer.Some? {
        return;
      }
      var delay := link.reconnectDelay;
      link := link.(reconnectDelay := Min(link.reconnectDelay * 2, RECONNECT_MAX));
      link := link.(timers := link.timers[link.nextTimer := now + delay]);
      link := link.(reconnectTimer := Some(link.nextTimer), nextTimer := link.nextTimer + 1);
    }

    method ScheduleIfIdle()
      modifies this`link
      ensures link == ScheduleUnlessRecovering(now, old(link))
    {
      if link.recovery.Idle? {
        Schedule();
      }
    }

    method ConnectPort(connects: bool)
      modifies this`link
      ensures link == Connect(now, old(link), connects)
    {
      if link.port {
        return;
      }
      if !connects {
        ScheduleIfIdle();
        return;
      }
      link := link.(port := true);
    }

    method ResolvePending(id: Id, ok: bool)
      modifies this`requests, this`link
      ensures View() == Resolve(Forget(old(View()), id), id, ok)
    {
      requests := requests.(pending := requests.pending - {id}, timeouts := requests.timeouts - {id});
      if id in requests.resolved {
        requests := requests.(twice := requests.twice + {id});
      } else {
        requests := requests.(resolved := requests.resolved[id := now]);
      }
      if link.recovery.Awaiting? && link.recovery.id == id {
        link := link.(recovery := Answered(link.recovery.round, ok));
      }
    }

    method FailPending(id: Id)
      modifies this`requests, this`link
      ensures View() == Fail(old(View()), id)
    {
      if id in requests.pending {
        ResolvePending(id, false);
      }
    }

    method PostPending(id: Id, browser: Browser)
      modifies this`requests, this`link
      ensures View() == Post(old(View()), id, browser)
    {
      if id !in requests.pending {
        return;
      }
      ConnectPort(browser.connects);
      if !link.port {
        FailPending(id);
        return;
      }
      requests := requests.(posts := requests.posts[id := Posts(requests, id) + 1]);
      if !browser.posts {
        FailPending(id);
        link := link.(port := false);
        ScheduleIfIdle();
      }
    }

    method SendRequest(id: Id, timeoutMs: nat, browser: Browser)
      modifies this`requests, this`link
      ensures View() == Request(old(View()), id, timeoutMs, browser)
    {
      var deadline := now + timeoutMs;
      requests := requests.(timeouts := requests.timeouts[id := deadline],
                            deadlines := requests.deadlines[id := deadline]);
      requests := requests.(pending := requests.pending[id := Pending(timeoutMs, now, 0)]);
      PostPending(id, browser);
    }

    method ReceiveMessage(id: Id, ok: bool)
      modifies this`requests, this`link
      ensures View() == HandleMessage(old(View()), id, ok)
    {
      if id !in requests.pending {
        return;
      }
      link := link.(reconnectDelay := RECONNECT_INITIAL);
      ResolvePending(id, ok);
    }

    method RetryOrFailPending(id: Id)
      modifies this`requests, this`link
      ensures View() == RetryOrFail(old(View()), id)
    {
      if id !in requests.pending {
        return;
      }
      var p := requests.pending[id];
      if p.attempts >= MAX_RETRIES {
        FailPending(id);
        return;
      }
      var remaining := p.timeoutMs - (now - p.startedAt);
      if remaining <= RETRY_DELAY {
        FailPending(id);
        return;
      }
      requests := requests.(pending := requests.pending[id := p.(attempts := p.attempts + 1)]);
      requests := requests.(retries := requests.retries + {Retry(id, now + RETRY_DELAY)});
    }

    method PortDisconnected(ids: seq<Id>)
      modifies this`requests, this`link
      ensures View() == HandleDisconnect(old(View()), ids)
    {
      link := link.(port := false);
      ghost var start := View();
      for i := 0 to |ids|
        invariant View() == RetryOrFailAll(start, ids[..i])
      {
        assert ids[..i + 1][..i] == ids[..i];
        RetryOrFailPending(ids[i]);
      }
      assert ids[..|ids|] == ids;
      ScheduleIfIdle();
    }

    method RequestTimedOut(id: Id)
      modifies this`requests, this`link
      ensures View() == TimeoutFires(old(View()), id)
    {
      ResolvePending(id, false);
      link := link.(port := false);
      ScheduleIfIdle();
    }

    method ReconnectTimerFired(timer: nat, connects: bool)
      modifies this`link
      ensures link == ReconnectFires(now, old(link), timer, connects)
    {
      link := link.(timers := link.timers - {timer}, reconnectTimer := None);
      if !link.port {
        ConnectPort(connects);
      }
      if !link.port {
        Schedule();
      }
    }

    method StartRound(round: nat, id: Id, browser: Browser)
      modifies this`requests, this`link
      ensures View() == PingRound(old(View()), round, id, browser)
    {
      link := ClearReconnectTimer(link);
      link := link.(port := false, recovery := Awaiting(round, id));
      SendRequest(id, RECOVERY_TIMEOUT, browser);
    }

    method EndRound()
      modifies this`link
      ensures View() == Continue(old(View()))
    {
      if !link.recovery.Answered? {
        return;
      }
      var round := link.recovery.round;
      if link.recovery.ok {
        link := link.(reconnectDelay := RECONNECT_INITIAL, recovery := Idle);
        return;
      }
      if round + 1 < |RECOVERY_DELAYS| {
        link := link.(recovery := Sleeping(round + 1, now + RECOVERY_DELAYS[round + 1]));
        return;
      }
      link := link.(recovery := Idle);
      Schedule();
    }
  }

  // ---- Whole runs ----------------------------------------------------------

  datatype Event =
    | Tick(elapsed: nat)
    | Ask(id: Id, timeoutMs: nat, browser: Browser)
    | Message(id: Id, ok: bool)
    | Disconnect(ids: seq<Id>)
    | Timeout(id: Id)
    | RetryDue(retry: Retry, browser: Browser)
    | ReconnectDue(timer: nat, connects: bool)
    | Open(connects: bool)
    | Recover(id: Id, browser: Browser)
    | Wake(id: Id, browser: Browser)

  /** No timer is due before `time`. */
  predicate QuietUntil(s: State, time: nat) {
    && (forall id :: id in s.requests.timeouts ==> time <= s.requests.timeouts[id])
    && (forall r :: r in s.requests.retries ==> time <= r.due)
    && (forall t :: t in s.link.timers ==> time <= s.link.timers[t])
    && (s.link.recovery.Sleeping? ==> time <= s.link.recovery.due)
  }

  /** One callback; one that is not due, or an id already used, changes nothing. */
  function Step(s: State, event: Event): State {
    match event
    case Tick(elapsed) => if QuietUntil(s, s.now + elapsed) then s.(now := s.now + elapsed) else s
    case Ask(id, timeoutMs, browser) =>
      if id in s.requests.deadlines then s else Request(s, id, timeoutMs, browser)
    case Message(id, ok) => HandleMessage(s, id, ok)
    case Disconnect(ids) =>
      if forall id :: id in s.requests.pending ==> id in ids then HandleDisconnect(s, ids) else s
    case Timeout(id) =>
      if id in s.requests.timeouts && s.requests.timeouts[id] <= s.now then TimeoutFires(s, id) else s
    case RetryDue(retry, browser) =>
      if retry in s.requests.retries && retry.due <= s.now then RetryFires(s, retry, browser) else s
    case ReconnectDue(timer, connects) =>
      if timer in s.link.timers && s.link.timers[timer] <= s.now
      then s.(link := ReconnectFires(s.now, s.link, timer, connects)) else s
    case Open(connects) => s.(link := Connect(s.now, s.link, connects))
    case Recover(id, browser) =>
      if id in s.requests.deadlines || !s.link.recovery.Idle? then s else PingRound(s, 0, id, browser)
    case Wake(id, browser) =>
      if id !in s.requests.deadlines && s.link.recovery.Sleeping? && s.link.recovery.due <= s.now
      then PingRound(s, s.link.recovery.round, id, browser) else s
  }

  function Next(s: State, event: Event): State {
    Continue(Step(s, event))
  }

  function Run(events: seq<Event>): State {
    if events == [] then INITIAL else Next(Run(events[..|events| - 1]), events[|events| - 1])
  }

  // ---- Requests are resolved once, in time ---------------------------------

  ghost predicate RetrySound(now: nat, q: Requests, r: Retry) {
    && now <= r.due && r.id in q.deadlines
    && (r.id in q.pending ==> r.due < q.deadlines[r.id] && q.pending[r.id].attempts == 1)
  }

  predicate HasRetry(q: Requests, id: Id) {
    exists r :: r in q.retries && r.id == id
  }

  ghost predicate PendingSound(now: nat, q: Requests, id: Id, p: Pending) {
    && id in q.deadlines && q.deadlines[id] == p.startedAt + p.timeoutMs
    && id in q.timeouts && q.timeouts[id] == q.deadlines[id]
    && p.startedAt <= now <= q.deadlines[id]
    && id !in q.resolved
    && p.attempts <= MAX_RETRIES
    && Posts(q, id) + (if HasRetry(q, id) then 1 else 0) <= 1 + p.attempts
  }

  ghost predicate RequestSound(now: nat, q: Requests, id: Id)
    requires id in q.deadlines
  {
    && (id in q.pending <==> id !in q.resolved)
    && (id in q.pending ==> PendingSound(now, q, id, q.pending[id]))
    && (id in q.resolved ==> q.resolved[id] <= q.deadlines[id] && Posts(q, id) <= 2 && id !in q.timeouts)
  }

  ghost predicate RequestsSound(now: nat, q: Requests) {
    && q.twice == {}
    && q.pending.Keys <= q.deadlines.Keys && q.resolved.Keys <= q.deadlines.Keys
    && q.timeouts.Keys <= q.deadlines.Keys && q.posts.Keys <= q.deadlines.Keys
    && (forall id :: id in q.deadlines ==> RequestSound(now, q, id))
    && (forall r :: r in q.retries ==> RetrySound(now, q, r))
    && (forall r, t :: r in q.retries && t in q.retries && r.id == t.id ==> r == t)
  }

  ghost predicate Sound(s: State) {
    RequestsSound(s.now, s.requests)
  }

  lemma FailKeepsSound(s: State, id: Id, ok: bool)
    requires Sound(s) && id in s.requests.pending
    ensures Sound(Resolve(Forget(s, id), id, ok))
  {
    var q, after := s.requests, Resolve(Forget(s, id), id, ok).requests;
    assert RequestSound(s.now, q, id);
    forall other | other in after.deadlines
      ensures RequestSound(s.now, after, other)
    {
      assert RequestSound(s.now, q, other);
    }
    forall r | r in after.retries
      ensures RetrySound(s.now, after, r)
    {
      assert RetrySound(s.now, q, r);
    }
  }

  /** A post uses up the attempt that allows it. */
  lemma PostKeepsSound(s: State, id: Id, browser: Browser)
    requires Sound(s)
    requires id in s.requests.pending ==>
      !HasRetry(s.requests, id) && Posts(s.requests, id) <= s.requests.pending[id].attempts
    ensures Sound(Post(s, id, browser))
  {
    if id in s.requests.pending {
      var connected := s.(link := Connect(s.now, s.link, browser.connects));
      if !connected.link.port {
        FailKeepsSound(connected, id, false);
      } else {
        var posted := CountPost(connected, id);
        CountKeepsSound(connected, id);
        if !browser.posts {
          FailKeepsSound(posted, id, false);
        }
      }
    }
  }

  lemma CountKeepsSound(s: State, id: Id)
    requires Sound(s) && id in s.requests.pending
    requires !HasRetry(s.requests, id) && Posts(s.requests, id) <= s.requests.pending[id].attempts
    ensures Sound(CountPost(s, id))
  {
    var q, after := s.requests, CountPost(s, id).requests;
    assert RequestSound(s.now, q, id);
    assert !HasRetry(after, id);
    forall other | other in after.deadlines
      ensures RequestSound(s.now, after, other)
    {
      assert RequestSound(s.now, q, other);
      assert HasRetry(after, other) <==> HasRetry(q, other);
    }
    forall r | r in after.retries
      ensures RetrySound(s.now, after, r)
    {
      assert RetrySound(s.now, q, r);
    }
  }

  lemma AwaitKeepsSound(s: State, id: Id, timeoutMs: nat)
    requires Sound(s) && id !in s.requests.deadlines
    ensures Sound(Await(s, id, timeoutMs)) && !HasRetry(Await(s, id, timeoutMs).requests, id)
  {
    var q, after := s.requests, Await(s, id, timeoutMs).requests;
    forall r | r in after.retries
      ensures RetrySound(s.now, after, r) && r.id != id
    {
      assert RetrySound(s.now, q, r);
    }
    assert !HasRetry(after, id);
    AwaitedIsSound(s, id, timeoutMs);
    forall other | other in after.deadlines
      ensures RequestSound(s.now, after, other)
    {
      if other != id {
        assert RequestSound(s.now, q, other);
        assert HasRetry(after, other) <==> HasRetry(q, other);
      }
    }
  }

  lemma AwaitedIsSound(s: State, id: Id, timeoutMs: nat)
    requires id !in s.requests.posts && id !in s.requests.resolved && !HasRetry(Await(s, id, timeoutMs).requests, id)
    ensures RequestSound(s.now, Await(s, id, timeoutMs).requests, id)
  {
  }

  lemma RequestKeepsSound(s: State, id: Id, timeoutMs: nat, browser: Browser)
    requires Sound(s) && id !in s.requests.deadlines
    ensures Sound(Request(s, id, timeoutMs, browser))
  {
    AwaitKeepsSound(s, id, timeoutMs);
    PostKeepsSound(Await(s, id, timeoutMs), id, browser);
  }

  lemma RetryOrFailKeepsSound(s: State, id: Id)
    requires Sound(s)
    ensures Sound(RetryOrFail(s, id))
  {
    if id in s.requests.pending {
      var q := s.requests;
      var p := q.pending[id];
      assert RequestSound(s.now, q, id);
      if p.attempts >= MAX_RETRIES || p.timeoutMs - (s.now - p.startedAt) <= RETRY_DELAY {
        FailKeepsSound(s, id, false);
      } else {
        AddRetryKeepsSound(s, id);
      }
    }
  }

  lemma AddRetryKeepsSound(s: State, id: Id)
    requires Sound(s) && id in s.requests.pending && s.requests.pending[id].attempts == 0
    requires s.now + RETRY_DELAY < s.requests.deadlines[id]
    ensures Sound(RetryOrFail(s, id))
  {
    var q := s.requests;
    var retry := Retry(id, s.now + RETRY_DELAY);
    var after := q.(pending := q.pending[id := q.pending[id].(attempts := 1)], retries := q.retries + {retry});
    assert RequestSound(s.now, q, id);
    assert RetryOrFail(s, id).requests == after;
    forall r | r in q.retries
      ensures r.id != id && RetrySound(s.now, after, r)
    {
      assert RetrySound(s.now, q, r);
    }
    assert !HasRetry(q, id);
    forall other | other in after.deadlines
      ensures RequestSound(s.now, after, other)
    {
      assert RequestSound(s.now, q, other);
      assert other != id ==> (HasRetry(after, other) <==> HasRetry(q, other));
    }
  }

  lemma {:induction false} RetryOrFailAllKeepsSound(s: State, ids: seq<Id>)
    requires Sound(s)
    ensures Sound(RetryOrFailAll(s, ids))
    decreases |ids|
  {
    if ids != [] {
      RetryOrFailAllKeepsSound(s, ids[..|ids| - 1]);
      RetryOrFailKeepsSound(RetryOrFailAll(s, ids[..|ids| - 1]), ids[|ids| - 1]);
    }
  }

  lemma RetryFiresKeepsSound(s: State, retry: Retry, browser: Browser)
    requires Sound(s) && retry in s.requests.retries
    ensures Sound(RetryFires(s, retry, browser))
  {
    var q := s.requests;
    var after := q.(retries := q.retries - {retry});
    assert RetrySound(s.now, q, retry);
    assert HasRetry(q, retry.id) && !HasRetry(after, retry.id);
    forall r | r in after.retries
      ensures RetrySound(s.now, after, r)
    {
      assert RetrySound(s.now, q, r);
    }
    forall id | id in after.deadlines
      ensures RequestSound(s.now, after, id)
    {
      assert RequestSound(s.now, q, id);
      assert HasRetry(after, id) ==> HasRetry(q, id);
    }
    assert RequestSound(s.now, q, retry.id);
    PostKeepsSound(s.(requests := after), retry.id, browser);
  }

  lemma TimedOutIsPending(s: State, id: Id)
    requires Sound(s) && id in s.requests.timeouts
    ensures id in s.requests.pending
  {
    assert RequestSound(s.now, s.requests, id);
  }

  lemma TickKeepsSound(s: State, elapsed: nat)
    requires Sound(s) && QuietUntil(s, s.now + elapsed)
    ensures Sound(s.(now := s.now + elapsed))
  {
    var later, q := s.now + elapsed, s.requests;
    forall id | id in q.deadlines
      ensures RequestSound(later, q, id)
    {
      assert RequestSound(s.now, q, id);
    }
    forall r | r in q.retries
      ensures RetrySound(later, q, r)
    {
      assert RetrySound(s.now, q, r);
    }
  }

  lemma StepKeepsSound(s: State, event: Event)
    requires Sound(s)
    ensures Sound(Step(s, event))
  {
    match event
    case Tick(elapsed) =>
      if QuietUntil(s, s.now + elapsed) {
        TickKeepsSound(s, elapsed);
      }
    case Ask(id, timeoutMs, browser) =>
      if id !in s.requests.deadlines {
        RequestKeepsSound(s, id, timeoutMs, browser);
      }
    case Message(id, ok) =>
      if id in s.requests.pending {
        FailKeepsSound(s.(link := s.link.(reconnectDelay := RECONNECT_INITIAL)), id, ok);
      }
    case Disconnect(ids) => RetryOrFailAllKeepsSound(s.(link := s.link.(port := false)), ids);
    case Timeout(id) =>
      if id in s.requests.timeouts {
        TimedOutIsPending(s, id);
        FailKeepsSound(s, id, false);
      }
    case RetryDue(retry, browser) =>
      if retry in s.requests.retries {
        RetryFiresKeepsSound(s, retry, browser);
      }
    case ReconnectDue(_, _) =>
    case Open(_) =>
    case Recover(id, browser) => PingKeepsSound(s, 0, id, browser);
    case Wake(id, browser) =>
      if s.link.recovery.Sleeping? {
        PingKeepsSound(s, s.link.recovery.round, id, browser);
      }
  }

  lemma PingKeepsSound(s: State, round: nat, id: Id, browser: Browser)
    requires Sound(s)
    ensures id !in s.requests.deadlines ==> Sound(PingRound(s, round, id, browser))
  {
    if id !in s.requests.deadlines {
      var l := ClearReconnectTimer(s.link).(port := false, recovery := Awaiting(round, id));
      RequestKeepsSound(s.(link := l), id, RECOVERY_TIMEOUT, browser);
    }
  }

  lemma {:induction false} RunIsSound(events: seq<Event>)
    ensures Sound(Run(events))
  {
    if events != [] {
      RunIsSound(events[..|events| - 1]);
      StepKeepsSound(Run(events[..|events| - 1]), events[|events| - 1]);
    }
  }

  /** Whatever replies, disconnects, failing posts and timers come in whatever order,
      a request is never resolved twice, is resolved no later than its deadline, and
      is posted at most twice. */
  lemma ResolvedOnceInTime(events: seq<Event>, id: Id)
    requires id in Run(events).requests.deadlines
    ensures var s := Run(events);
      && id !in s.requests.twice
      && (id in s.requests.pending <==> id !in s.requests.resolved)
      && (s.now > s.requests.deadlines[id] ==> id in s.requests.resolved)
      && (id in s.requests.resolved ==> s.requests.resolved[id] <= s.requests.deadlines[id])
      && Posts(s.requests, id) <= 2
  {
    RunIsSound(events);
    assert RequestSound(Run(events).now, Run(events).requests, id);
  }

  /** A retry that is still wanted comes strictly before the timeout, and there is
      only one. */
  lemma RetryBeforeTimeout(events: seq<Event>, r: Retry, other: Retry)
    requires r in Run(events).requests.retries && r.id in Run(events).requests.pending
    requires other in Run(events).requests.retries && other.id == r.id
    ensures r.id in Run(events).requests.timeouts
    ensures Run(events).now <= r.due < Run(events).requests.timeouts[r.id]
    ensures other == r
  {
    RunIsSound(events);
    var s := Run(events);
    assert RetrySound(s.now, s.requests, r);
    assert RequestSound(s.now, s.requests, r.id);
  }

  // ---- The port is always on its way back ----------------------------------

  /** At most one reconnect timer is live, it is the one remembered, and its delay
      and the next one are within bounds. */
  ghost predicate TimersSound(now: nat, l: Link) {
    && RECONNECT_INITIAL <= l.reconnectDelay <= RECONNECT_MAX
    && (l.reconnectTimer.None? ==> l.timers == map[])
    && (l.reconnectTimer.Some? ==>
      && l.timers.Keys == {l.reconnectTimer.value}
      && now <= l.timers[l.reconnectTimer.value] <= now + RECONNECT_MAX)
  }

  /** Without a port, and without a recovery at work, a reconnect is due. */
  ghost predicate Hopeful(l: Link) {
    l.port || !l.recovery.Idle? || l.reconnectTimer.Some?
  }

  ghost predicate LinkSound(now: nat, l: Link) {
    TimersSound(now, l) && Hopeful(l)
  }

  lemma ScheduleKeepsTimers(now: nat, l: Link)
    requires TimersSound(now, l)
    ensures TimersSound(now, ScheduleReconnect(now, l)) && ScheduleReconnect(now, l).reconnectTimer.Some?
  {
  }

  lemma PostKeepsLink(s: State, id: Id, browser: Browser)
    requires TimersSound(s.now, s.link)
    ensures TimersSound(s.now, Post(s, id, browser).link)
    ensures Hopeful(s.link) ==> Hopeful(Post(s, id, browser).link)
  {
    ScheduleKeepsTimers(s.now, s.link);
    ScheduleKeepsTimers(s.now, s.link.(port := true));
    ScheduleKeepsTimers(s.now, s.link.(port := false));
  }

  lemma {:induction false} RetryOrFailAllKeepsLink(s: State, ids: seq<Id>)
    ensures var l := RetryOrFailAll(s, ids).link;
      && RetryOrFailAll(s, ids).now == s.now
      && l == s.link.(recovery := l.recovery)
      && (l.recovery.Idle? <==> s.link.recovery.Idle?)
    decreases |ids|
  {
    if ids != [] {
      RetryOrFailAllKeepsLink(s, ids[..|ids| - 1]);
    }
  }

  lemma DisconnectKeepsLink(s: State, ids: seq<Id>)
    requires LinkSound(s.now, s.link)
    ensures HandleDisconnect(s, ids).now == s.now && LinkSound(s.now, HandleDisconnect(s, ids).link)
  {
    var lost := s.(link := s.link.(port := false));
    RetryOrFailAllKeepsLink(lost, ids);
    ScheduleKeepsTimers(s.now, RetryOrFailAll(lost, ids).link);
  }

  lemma ReconnectKeepsLink(now: nat, l: Link, timer: nat, connects: bool)
    requires LinkSound(now, l) && timer in l.timers
    ensures LinkSound(now, ReconnectFires(now, l, timer, connects))
  {
    var fired := l.(timers := l.timers - {timer}, reconnectTimer := None);
    assert fired.timers == map[];
    ScheduleKeepsTimers(now, fired);
  }

  lemma PingKeepsLink(s: State, round: nat, id: Id, browser: Browser)
    requires LinkSound(s.now, s.link)
    ensures PingRound(s, round, id, browser).now == s.now
    ensures LinkSound(s.now, PingRound(s, round, id, browser).link)
  {
    var cleared := ClearReconnectTimer(s.link);
    assert cleared.timers == map[];
    var l := cleared.(port := false, recovery := Awaiting(round, id));
    PostKeepsLink(Await(s.(link := l), id, RECOVERY_TIMEOUT), id, browser);
  }

  lemma TimeoutKeepsLink(s: State, id: Id)
    requires LinkSound(s.now, s.link)
    ensures TimeoutFires(s, id).now == s.now && LinkSound(s.now, TimeoutFires(s, id).link)
  {
    var resolved := Resolve(Forget(s, id), id, false);
    ScheduleKeepsTimers(s.now, resolved.link.(port := false));
  }

  lemma RetryKeepsLink(s: State, retry: Retry, browser: Browser)
    requires LinkSound(s.now, s.link)
    ensures RetryFires(s, retry, browser).now == s.now && LinkSound(s.now, RetryFires(s, retry, browser).link)
  {
    PostKeepsLink(s.(requests := s.requests.(retries := s.requests.retries - {retry})), retry.id, browser);
  }

  lemma AskKeepsLink(s: State, id: Id, timeoutMs: nat, browser: Browser)
    requires LinkSound(s.now, s.link)
    ensures Request(s, id, timeoutMs, browser).now == s.now && LinkSound(s.now, Request(s, id, timeoutMs, browser).link)
  {
    PostKeepsLink(Await(s, id, timeoutMs), id, browser);
  }

  lemma StepKeepsLink(s: State, event: Event)
    requires LinkSound(s.now, s.link)
    ensures LinkSound(Step(s, event).now, Step(s, event).link)
  {
    match event
    case Tick(_) =>
    case Ask(id, timeoutMs, browser) => AskKeepsLink(s, id, timeoutMs, browser);
    case Message(_, _) =>
    case Disconnect(ids) => DisconnectKeepsLink(s, ids);
    case Timeout(id) => TimeoutKeepsLink(s, id);
    case RetryDue(retry, browser) => RetryKeepsLink(s, retry, browser);
    case ReconnectDue(timer, connects) =>
      if timer in s.link.timers {
        ReconnectKeepsLink(s.now, s.link, timer, connects);
      }
    case Open(_) => ScheduleKeepsTimers(s.now, s.link);
    case Recover(id, browser) => PingKeepsLink(s, 0, id, browser);
    case Wake(id, browser) =>
      if s.link.recovery.Sleeping? {
        PingKeepsLink(s, s.link.recovery.round, id, browser);
      }
  }

  /** An answered recovery that succeeded was answered over an open port. */
  lemma ContinueKeepsLink(s: State)
    requires LinkSound(s.now, s.link)
    requires s.link.recovery.Answered? && s.link.recovery.ok ==> s.link.port
    ensures LinkSound(s.now, Continue(s).link)
  {
    ScheduleKeepsTimers(s.now, s.link.(recovery := Idle));
  }

  /** Replies come over an open port. */
  ghost predicate RepliesNeedAPort(events: seq<Event>) {
    events == [] || (
      && RepliesNeedAPort(events[..|events| - 1])
      && (events[|events| - 1].Message? ==> Run(events[..|events| - 1]).link.port))
  }

  /** The first callback opens the port, or schedules that. */
  lemma {:induction false} AlwaysHopeful(connects: bool, events: seq<Event>)
    requires RepliesNeedAPort([Open(connects)] + events)
    ensures LinkSound(Run([Open(connects)] + events).now, Run([Open(connects)] + events).link)
    ensures !Run([Open(connects)] + events).link.recovery.Answered?
    decreases |events|
  {
    var all := [Open(connects)] + events;
    if events == [] {
      assert all[..0] == [];
      assert Run(all[..0]) == INITIAL;
    } else {
      var init, last := events[..|events| - 1], events[|events| - 1];
      assert all[..|all| - 1] == [Open(connects)] + init;
      AlwaysHopeful(connects, init);
      var s := Run([Open(connects)] + init);
      StepKeepsLink(s, last);
      OnlyMessagesSucceed(s, last);
      ContinueKeepsLink(Step(s, last));
    }
  }

  lemma {:induction false} RetryOrFailAllFails(s: State, ids: seq<Id>)
    requires NotOk(s.link)
    ensures NotOk(RetryOrFailAll(s, ids).link)
    decreases |ids|
  {
    if ids != [] {
      RetryOrFailAllFails(s, ids[..|ids| - 1]);
    }
  }

  /** An answer that is not a success. */
  predicate NotOk(l: Link) {
    l.recovery.Answered? ==> !l.recovery.ok
  }

  lemma PostFails(s: State, id: Id, browser: Browser)
    requires NotOk(s.link)
    ensures NotOk(Post(s, id, browser).link)
  {
  }

  /** Only a reply makes a recovery succeed, and it leaves the port as it is. */
  lemma OnlyMessagesSucceed(s: State, event: Event)
    requires !s.link.recovery.Answered?
    ensures NotOk(Step(s, event).link) || (event.Message? && Step(s, event).link.port == s.link.port)
  {
    match event
    case Disconnect(ids) => RetryOrFailAllFails(s.(link := s.link.(port := false)), ids);
    case Ask(id, timeoutMs, browser) => PostFails(Await(s, id, timeoutMs), id, browser);
    case RetryDue(retry, browser) =>
      PostFails(s.(requests := s.requests.(retries := s.requests.retries - {retry})), retry.id, browser);
    case Recover(id, browser) => PingFails(s, 0, id, browser);
    case Wake(id, browser) =>
      if s.link.recovery.Sleeping? {
        PingFails(s, s.link.recovery.round, id, browser);
      }
    case _ =>
  }

  lemma PingFails(s: State, round: nat, id: Id, browser: Browser)
    ensures NotOk(PingRound(s, round, id, browser).link)
  {
    var l := ClearReconnectTimer(s.link).(port := false, recovery := Awaiting(round, id));
    PostFails(Await(s.(link := l), id, RECOVERY_TIMEOUT), id, browser);
  }
}
