/** The scheduler of vault synchronisation (crates/aipass-agent/src/sync_watch.rs).

    Changes come in bursts; a sync starts once they pause, or after two seconds at
    the latest, but not before a delay that follows a failed sync.  Times are
    milliseconds on a clock that does not go back. */
module SyncWatch {
  import opened Wrappers

  const WINDOW: nat := 350
  const LOCAL_CHECK: nat := 1_000

  function Max(a: nat, b: nat): nat {
    if a >= b then a else b
  }

  function Min(a: nat, b: nat): nat {
    if a <= b then a else b
  }

  // ---- Debouncing ----------------------------------------------------------

  datatype Armed = Armed(window: nat, firstEvent: Option<nat>, lastEvent: Option<nat>)

  /** The longest a burst can put a sync off. */
  function Patience(window: nat): nat {
    Max(window * 2, 2_000)
  }

  function Recorded(d: Armed, now: nat): Armed {
    d.(firstEvent := if d.firstEvent.Some? then d.firstEvent else Some(now), lastEvent := Some(now))
  }

  /** A difference of times is never negative. */
  function Since(now: nat, earlier: nat): nat {
    if now >= earlier then now - earlier else 0
  }

  predicate Due(d: Armed, now: nat) {
    && d.lastEvent.Some?
    && (|| Since(now, d.lastEvent.value) >= d.window
        || (d.firstEvent.Some? && Since(now, d.firstEvent.value) >= Patience(d.window)))
  }

  function Disarmed(d: Armed): Armed {
    d.(firstEvent := None, lastEvent := None)
  }

  class Debounce {
    const window: nat
    var lastEvent: Option<nat>
    var firstEvent: Option<nat>

    constructor (window: nat)
      ensures View() == Armed(window, None, None)
    {
      this.window := window;
      lastEvent, firstEvent := None, None;
    }

    function View(): Armed
      reads this
    {
      Armed(window, firstEvent, lastEvent)
    }

    method RecordEvent(now: nat)
      modifies this
      ensures View() == Recorded(old(View()), now)
    {
      if firstEvent.None? {
        firstEvent := Some(now);
      }
      lastEvent := Some(now);
    }

    method TakeDue(now: nat) returns (due: bool)
      modifies this
      ensures due <==> Due(old(View()), now)
      ensures View() == if due then Disarmed(old(View())) else old(View())
    {
      if lastEvent.None? {
        return false;
      }
      if Since(now, lastEvent.value) >= window {
        due := true;
      } else {
        due := firstEvent.Some? && Since(now, firstEvent.value) >= Max(window * 2, 2_000);
      }
      if due {
        lastEvent := None;
        firstEvent := None;
      }
    }
  }

  /** What a debounce is put through; `waiting` remembers the first event that no
      firing has answered. */
  datatype Input = Event(at: nat) | Poll(at: nat)

  datatype Trace = Trace(armed: Armed, waiting: Option<nat>, events: nat, firings: nat)

  function Feed(window: nat, inputs: seq<Input>): Trace {
    if inputs == [] then Trace(Armed(window, None, None), None, 0, 0)
    else
      var t := Feed(window, inputs[..|inputs| - 1]);
      match inputs[|inputs| - 1]
      case Event(at) =>
        t.(armed := Recorded(t.armed, at),
           waiting := if t.waiting.Some? then t.waiting else Some(at),
           events := t.events + 1)
      case Poll(at) =>
        if Due(t.armed, at) then t.(armed := Disarmed(t.armed), waiting := None, firings := t.firings + 1) else t
  }

  lemma {:induction false} WaitingIsArmed(window: nat, inputs: seq<Input>)
    ensures var t := Feed(window, inputs);
      && t.armed.window == window
      && t.armed.firstEvent == t.waiting
      && (t.armed.lastEvent.Some? <==> t.waiting.Some?)
      && t.firings + (if t.waiting.Some? then 1 else 0) <= t.events
  {
    if inputs != [] {
      WaitingIsArmed(window, inputs[..|inputs| - 1]);
    }
  }

  /** However events are spread, a poll that comes long enough after the first
      unanswered one fires; it never fires without one; and every firing answers
      events of its own. */
  lemma BurstsCannotStarve(window: nat, inputs: seq<Input>, now: nat)
    ensures var t := Feed(window, inputs);
      && (t.waiting.Some? && now >= t.waiting.value + Patience(window) ==> Due(t.armed, now))
      && (Due(t.armed, now) ==> t.waiting.Some?)
      && t.firings <= t.events
  {
    WaitingIsArmed(window, inputs);
  }

  // ---- Delays --------------------------------------------------------------

  datatype Mode = Local | ICloud | OneDrive | WebDav

  /** `Idle` stands for every status that is not a failure. */
  datatype Status = Idle | AuthFailed | Offline | ServerError

  const U32_MAX: nat := 0xFFFF_FFFF

  function Pow2(n: nat): nat {
    if n == 0 then 1 else 2 * Pow2(n - 1)
  }

  function NextDelay(mode: Mode, status: Status, failures: nat): nat {
    if status.AuthFailed? then 300
    else if failures > 0 then Min(5 * Pow2(Min(failures, 6)), 300)
    else match mode
      case WebDav => 5
      case ICloud => 60
      case _ => 30
  }

  lemma {:induction false} Pow2Grows(a: nat, b: nat)
    requires a <= b
    ensures 1 <= Pow2(a) <= Pow2(b)
    decreases b
  {
    if b > 0 {
      if a < b {
        Pow2Grows(a, b - 1);
      } else {
        Pow2Grows(a - 1, b - 1);
      }
    }
  }

  /** Delays stay within five minutes and do not shrink as failures go on. */
  lemma DelaysBackOff(mode: Mode, status: Status, failures: nat, more: nat)
    requires 1 <= failures <= more
    ensures 5 <= NextDelay(mode, status, failures) <= NextDelay(mode, status, more) <= 300
    ensures more >= 6 ==> NextDelay(mode, status, more) == 300
  {
    Pow2Grows(Min(failures, 6), Min(more, 6));
    Pow2Grows(0, Min(failures, 6));
    assert Pow2(6) == 64 by {
      assert Pow2(3) == 8;
    }
  }

  /** The delay after a first failure is shorter than the one a success would have had
      exactly if the failure is not one of authorization and the mode is not WebDAV. */
  lemma FirstFailureMayBeSooner(mode: Mode, status: Status)
    requires !status.Idle?
    ensures NextDelay(mode, status, 1) < NextDelay(mode, Idle, 0) <==> !status.AuthFailed? && !mode.WebDav?
  {
    assert Pow2(1) == 2;
  }

  // ---- The loop ------------------------------------------------------------

  /** `unanswered` is a history: when the earliest change was seen that no sync has
      started after. */
  datatype State = State(
    armed: Armed,
    nextSync: nat,
    retryAfter: nat,
    failures: nat,
    wake: nat,
    localStamp: nat,
    lastCheck: nat,
    now: nat,
    unanswered: Option<nat>,
    attempts: nat
  )

  /** One turn of the loop: when each source is looked at and what it shows, when the
      decision is taken, and how a sync goes. */
  datatype Turn = Turn(
    checkAt: nat,
    stamp: nat,
    wakeAt: nat,
    wake: nat,
    receivedAt: nat,
    received: bool,
    decidedAt: nat,
    mode: Mode,
    status: Status,
    finishedAt: nat
  )

  predicate InOrder(s: State, t: Turn) {
    s.now <= t.checkAt <= t.wakeAt <= t.receivedAt <= t.decidedAt <= t.finishedAt
  }

  function Seen(s: State, at: nat): State {
    s.(armed := Recorded(s.armed, at), unanswered := if s.unanswered.Some? then s.unanswered else Some(at))
  }

  function CheckLocal(s: State, t: Turn): State {
    if Since(t.checkAt, s.lastCheck) < LOCAL_CHECK then s
    else if t.stamp == s.localStamp then s.(lastCheck := t.checkAt)
    else Seen(s, t.checkAt).(localStamp := t.stamp, lastCheck := t.checkAt)
  }

  function CheckWake(s: State, t: Turn): State {
    if t.wake == s.wake then s else Seen(s, t.wakeAt).(wake := t.wake)
  }

  function Receive(s: State, t: Turn): State {
    if t.received then Seen(s, t.receivedAt) else s
  }

  predicate Failed(status: Status) {
    !status.Idle?
  }

  function AfterSync(s: State, t: Turn): State {
    var failures := if Failed(t.status) then Min(s.failures + 1, U32_MAX) else 0;
    var nextSync := t.finishedAt + 1_000 * NextDelay(t.mode, t.status, failures);
    s.(failures := failures, nextSync := nextSync,
       retryAfter := if Failed(t.status) then nextSync else t.finishedAt,
       now := t.finishedAt, unanswered := None, attempts := s.attempts + 1)
  }

  /** While a retry waits the debounce is not even asked, so it stays armed. */
  function Decide(s: State, t: Turn): State {
    if t.decidedAt < s.retryAfter then s.(now := t.decidedAt)
    else if Due(s.armed, t.decidedAt) then AfterSync(s.(armed := Disarmed(s.armed)), t)
    else if t.decidedAt >= s.nextSync then AfterSync(s, t)
    else s.(now := t.decidedAt)
  }

  function Next(s: State, t: Turn): State {
    Decide(Receive(CheckWake(CheckLocal(s, t), t), t), t)
  }

  /** One turn over the loop's variables. */
  class Watcher {
    var debounce: Debounce
    var nextSync: nat
    var retryAfter: nat
    var failures: nat
    var wake: nat
    var localStamp: nat
    var lastCheck: nat
    var now: nat
    ghost var unanswered: Option<nat>
    ghost var attempts: nat

    constructor (now: nat, wake: nat, stamp: nat)
      ensures fresh(debounce)
      ensures View() == Initial(now, wake, stamp)
    {
      debounce := new Debounce(WINDOW);
      nextSync, retryAfter, failures, lastCheck := now, now, 0, now;
      this.wake, localStamp, this.now := wake, stamp, now;
      unanswered, attempts := None, 0;
    }

    ghost function View(): State
      reads this, debounce
    {
      State(debounce.View(), nextSync, retryAfter, failures, wake, localStamp, lastCheck, now, unanswered, attempts)
    }

    method ObserveChange(at: nat)
      modifies this, debounce
      ensures debounce == old(debounce) && View() == Seen(old(View()), at)
    {
      debounce.RecordEvent(at);
      unanswered := if unanswered.Some? then unanswered else Some(at);
    }

    method Observe(t: Turn)
      modifies this, debounce
      ensures debounce == old(debounce)
      ensures View() == Receive(CheckWake(CheckLocal(old(View()), t), t), t)
    {
      if Since(t.checkAt, lastCheck) >= LOCAL_CHECK {
        if t.stamp != localStamp {
          ObserveChange(t.checkAt);
          localStamp := t.stamp;
        }
        lastCheck := t.checkAt;
      }
      if wake != t.wake {
        ObserveChange(t.wakeAt);
        wake := t.wake;
      }
      if t.received {
        ObserveChange(t.receivedAt);
      }
    }

    method RunTurn(t: Turn)
      modifies this, debounce
      ensures debounce == old(debounce) && View() == Next(old(View()), t)
    {
      Observe(t);
      now := t.decidedAt;
      if t.decidedAt >= retryAfter {
        var due := debounce.TakeDue(t.decidedAt);
        if due || t.decidedAt >= nextSync {
          var failed := Failed(t.status);
          failures := if failed then Min(failures + 1, U32_MAX) else 0;
          var delay := NextDelay(t.mode, t.status, failures);
          nextSync := t.finishedAt + 1_000 * delay;
          retryAfter := if failed then nextSync else t.finishedAt;
          now := t.finishedAt;
          unanswered, attempts := None, attempts + 1;
        }
      }
    }
  }

  function Initial(now: nat, wake: nat, stamp: nat): State {
    State(Armed(WINDOW, None, None), now, now, 0, wake, stamp, now, now, None, 0)
  }

  function Run(start: State, turns: seq<Turn>): State {
    if turns == [] then start else Next(Run(start, turns[..|turns| - 1]), turns[|turns| - 1])
  }

  ghost predicate Timed(start: State, turns: seq<Turn>) {
    turns == [] || (
      && Timed(start, turns[..|turns| - 1])
      && InOrder(Run(start, turns[..|turns| - 1]), turns[|turns| - 1]))
  }

  /** A change that is not answered has armed the debounce, no later than it was
      seen. */
  ghost predicate Remembered(s: State) {
    && s.armed.window == WINDOW
    && (s.armed.lastEvent.Some? <==> s.armed.firstEvent.Some?)
    && (s.unanswered.Some? ==> s.armed.firstEvent.Some? && s.armed.firstEvent.value <= s.unanswered.value)
    && (s.armed.firstEvent.Some? ==> s.armed.firstEvent.value <= s.now)
    && (s.unanswered.Some? ==> s.unanswered.value <= s.now)
  }

  lemma SeenIsRemembered(s: State, at: nat)
    requires Remembered(s) && s.now <= at
    ensures Remembered(Seen(s, at).(now := at))
  {
  }

  lemma ObservingIsRemembered(s: State, t: Turn)
    requires Remembered(s) && InOrder(s, t)
    ensures Remembered(Receive(CheckWake(CheckLocal(s, t), t), t).(now := t.decidedAt))
    ensures Receive(CheckWake(CheckLocal(s, t), t), t).retryAfter == s.retryAfter
  {
    SeenIsRemembered(s, t.checkAt);
    var checked := CheckLocal(s, t).(now := t.checkAt);
    assert Remembered(checked);
    SeenIsRemembered(checked, t.wakeAt);
    var woken := CheckWake(checked, t).(now := t.wakeAt);
    assert Remembered(woken);
    SeenIsRemembered(woken, t.receivedAt);
  }

  /** After a decision, an unanswered change is younger than the patience of the
      debounce, or a retry is being waited for. */
  ghost predicate Timely(s: State) {
    s.unanswered.Some? ==> s.now < s.unanswered.value + Patience(WINDOW) || s.now < s.retryAfter
  }

  lemma DecisionIsTimely(seen: State, t: Turn)
    requires Remembered(seen.(now := t.decidedAt)) && t.decidedAt <= t.finishedAt
    ensures Remembered(Decide(seen, t)) && Timely(Decide(seen, t))
  {
  }

  lemma TurnIsTimely(s: State, t: Turn)
    requires Remembered(s) && InOrder(s, t)
    ensures Remembered(Next(s, t)) && Timely(Next(s, t))
  {
    ObservingIsRemembered(s, t);
    DecisionIsTimely(Receive(CheckWake(CheckLocal(s, t), t), t), t);
  }

  /** Every change the watcher sees is answered: until a sync starts after it, it keeps
      the debounce armed, and it never waits longer than the patience of the debounce
      and the delay after a failure allow. */
  lemma {:induction false} ChangesAreAnswered(now: nat, wake: nat, stamp: nat, turns: seq<Turn>)
    requires Timed(Initial(now, wake, stamp), turns)
    ensures var s := Run(Initial(now, wake, stamp), turns);
      && Remembered(s) && Timely(s)
      && (s.unanswered.Some? ==> s.armed.lastEvent.Some?)
      && s.retryAfter <= s.now + 300_000
  {
    if turns != [] {
      var start := Initial(now, wake, stamp);
      ChangesAreAnswered(now, wake, stamp, turns[..|turns| - 1]);
      TurnIsTimely(Run(start, turns[..|turns| - 1]), turns[|turns| - 1]);
      TurnGoesOn(Run(start, turns[..|turns| - 1]), turns[|turns| - 1]);
    }
  }

  lemma TurnGoesOn(s: State, t: Turn)
    requires InOrder(s, t) && s.retryAfter <= s.now + 300_000
    ensures s.now <= Next(s, t).now && Next(s, t).retryAfter <= Next(s, t).now + 300_000
  {
    var failures := if Failed(t.status) then Min(s.failures + 1, U32_MAX) else 0;
    if failures > 0 {
      DelaysBackOff(t.mode, t.status, failures, failures);
    }
  }

  /** A turn that sees a change and does not wait for a retry starts a sync at the
      latest when the change has been around for the patience of the debounce. */
  lemma OldChangesStartASync(now: nat, wake: nat, stamp: nat, turns: seq<Turn>, t: Turn)
    requires Timed(Initial(now, wake, stamp), turns)
    requires var s := Run(Initial(now, wake, stamp), turns);
      && InOrder(s, t) && s.unanswered.Some?
      && t.decidedAt >= s.unanswered.value + Patience(WINDOW) && t.decidedAt >= s.retryAfter
    ensures var s := Run(Initial(now, wake, stamp), turns);
      Next(s, t).attempts == s.attempts + 1 && Next(s, t).unanswered.None?
  {
    ChangesAreAnswered(now, wake, stamp, turns);
    ObservingIsRemembered(Run(Initial(now, wake, stamp), turns), t);
  }
}
