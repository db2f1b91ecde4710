/** Persisting the observation that a provider rejects websockets
    (crates/aipass-agent/src/proxy_service.rs, persist_ws_capabilities).

    A vault write may commit and still return an error, and a reload of the
    running proxy may fail after the write.  Providers whose change still has to
    reach the running snapshot are kept in `refresh`. */
module WebsocketCapability {
  import opened Sets
  import opened Wrappers

  type Id = nat

  /** An observation made by the running proxy. */
  datatype WsEvent = WsEvent(id: nat, provider: Id)

  /** A proxy listener: its live ledger of observations and the providers that its
      snapshot serves over websockets. */
  datatype Handle = Handle(running: bool, ledger: seq<WsEvent>, served: set<Id>)

  /** `vault` holds each provider's websocket preference.  `unpublished` is a
      history: providers turned off here, still off, whose change has not yet been
      reported by a success with the snapshot following it. */
  datatype State = State(
    handle: Option<Handle>,
    events: seq<WsEvent>,
    refresh: set<Id>,
    vault: map<Id, Option<bool>>,
    unpublished: set<Id>
  )

  const INITIAL := State(None, [], {}, map[], {})

  datatype Write = Lost | CommittedWithError | Committed

  /** What the environment does during one call: the pending provider met first,
      which steps work, which events still match the configuration, and which
      observations a concurrent success withdraws. */
  datatype Faults = Faults(
    pick: Id,
    summaryWorks: bool,
    reloadWorks: bool,
    configWorks: bool,
    usable: set<Id>,
    matching: set<nat>,
    withdrawn: set<nat>,
    summaryWorksAgain: bool,
    write: Write,
    reloadWorksAgain: bool
  )

  type Outcome = Result<bool, ()>

  // ---- Steps of one call ---------------------------------------------------

  function WithoutEvent(events: seq<WsEvent>, id: nat): (rest: seq<WsEvent>)
    ensures forall e :: e in rest <==> e in events && e.id != id
  {
    if events == [] then []
    else (if events[0].id == id then [] else [events[0]]) + WithoutEvent(events[1..], id)
  }

  function WithoutProvider(events: seq<WsEvent>, provider: Id): (rest: seq<WsEvent>)
    ensures forall e :: e in rest <==> e in events && e.provider != provider
  {
    if events == [] then []
    else (if events[0].provider == provider then [] else [events[0]]) + WithoutProvider(events[1..], provider)
  }

  /** Providers a snapshot built now serves over websockets. */
  function ServedNow(vault: map<Id, Option<bool>>, usable: set<Id>): set<Id> {
    set id | id in usable && id in vault && vault[id] != Some(false)
  }

  predicate Running(s: State) {
    s.handle.Some? && s.handle.value.running
  }

  function Reload(s: State, usable: set<Id>): State {
    if !Running(s) then s
    else s.(handle := Some(s.handle.value.(served := ServedNow(s.vault, usable))))
  }

  /** Forget an observation in the live ledger, if there is one. */
  function Acknowledge(s: State, id: nat): State {
    if s.handle.None? then s
    else s.(handle := Some(s.handle.value.(ledger := WithoutEvent(s.handle.value.ledger, id))))
  }

  function Drop(s: State, id: nat): State {
    s.(events := WithoutEvent(s.events, id))
  }

  /** A success that names `id` settles it when the snapshot no longer serves it. */
  function Publish(s: State, id: Id): State {
    if Running(s) && id in s.handle.value.served then s else s.(unpublished := s.unpublished - {id})
  }

  /** The retry of a refresh that an earlier call left behind. */
  function Retry(s: State, f: Faults): (State, Option<Outcome>) {
    if s.refresh == {} then (s, None)
    else if !f.summaryWorks then (s, Some(Failure(())))
    else if Running(s) && !f.reloadWorks then (s, Some(Failure(())))
    else
      var saved := f.pick !in s.vault || s.vault[f.pick] == Some(false);
      var reloaded := Reload(s, f.usable).(refresh := s.refresh - {f.pick});
      if !saved then (reloaded, None)
      else (Publish(Settle(reloaded, f.pick), f.pick), Some(Success(true)))
  }

  function Settle(s: State, id: Id): State {
    s.(events := WithoutProvider(s.events, id),
       handle := if s.handle.None? then None
                 else Some(s.handle.value.(ledger := WithoutProvider(s.handle.value.ledger, id))))
  }

  /** The vault write itself. */
  function WriteOff(s: State, id: Id, write: Write): State {
    var registered := s.(refresh := s.refresh + {id});
    if write.Lost? then registered
    else registered.(vault := s.vault[id := Some(false)], unpublished := s.unpublished + {id})
  }

  /** Events that are skipped: those that no longer match, and those withdrawn before
      they could be written. */
  predicate Skips(s: State, event: WsEvent, f: Faults) {
    || event.id !in f.matching
    || (f.summaryWorksAgain && event.provider in s.vault && s.vault[event.provider] != Some(false)
        && s.handle.Some? && event.id in f.withdrawn)
  }

  /** An event that is not skipped ends the call. */
  function HandleEvent(s: State, event: WsEvent, f: Faults): (State, Outcome) {
    if !f.summaryWorksAgain || event.provider !in s.vault then (s, Failure(()))
    else
      var written := if s.vault[event.provider] == Some(false) then s else WriteOff(s, event.provider, f.write);
      if s.vault[event.provider] != Some(false) && !f.write.Committed? then (written, Failure(()))
      else Finish(written, event, f)
  }

  function Finish(s: State, event: WsEvent, f: Faults): (State, Outcome) {
    if Running(s) && !f.reloadWorksAgain then (s.(refresh := s.refresh + {event.provider}), Failure(()))
    else
      var reloaded := Reload(s, f.usable).(refresh := s.refresh - {event.provider});
      (Publish(Drop(Acknowledge(reloaded, event.id), event.id), event.provider), Success(true))
  }

  function Scan(s: State, events: seq<WsEvent>, f: Faults): (State, Outcome)
    decreases |events|
  {
    if events == [] then (s, Success(false))
    else if Skips(s, events[0], f) then
      Scan(Drop(Acknowledge(s, events[0].id), events[0].id), events[1..], f)
    else HandleEvent(s, events[0], f)
  }

  function Persist(s: State, f: Faults): (State, Outcome) {
    var (retried, outcome) := Retry(s, f);
    if outcome.Some? then (retried, outcome.value)
    else
      var polled := if retried.handle.Some? then retried.(events := retried.handle.value.ledger) else retried;
      if polled.events == [] then (polled, Success(false))
      else if !f.configWorks then (polled, Failure(()))
      else Scan(polled, polled.events, f)
  }

  // ---- The service ---------------------------------------------------------

  class ProxyService {
    var handle: Option<Handle>
    var pendingWsEvents: seq<WsEvent>
    var pendingWsRefresh: set<Id>
    var vault: map<Id, Option<bool>>
    ghost var unpublished: set<Id>

    constructor ()
      ensures View() == INITIAL
    {
      handle, pendingWsEvents, pendingWsRefresh, vault, unpublished := None, [], {}, map[], {};
    }

    ghost function View(): State
      reads this
    {
      State(handle, pendingWsEvents, pendingWsRefresh, vault, unpublished)
    }

    method ReloadIfRunning(usable: set<Id>, works: bool) returns (ok: bool)
      modifies this`handle
      ensures ok <==> works || !Running(old(View()))
      ensures View() == if ok then Reload(old(View()), usable) else old(View())
    {
      if handle.None? || !handle.value.running {
        return true;
      }
      if works {
        handle := Some(handle.value.(served := ServedNow(vault, usable)));
      }
      ok := works;
    }

    method DisableProviderWebsocket(id: Id, write: Write) returns (ok: bool)
      modifies this`vault, this`unpublished
      ensures ok <==> write.Committed?
      ensures vault == (if write.Lost? then old(vault) else old(vault)[id := Some(false)])
      ensures unpublished == (if write.Lost? then old(unpublished) else old(unpublished) + {id})
    {
      if !write.Lost? {
        vault := vault[id := Some(false)];
        unpublished := unpublished + {id};
      }
      ok := write.Committed?;
    }

    method AcknowledgeEvent(id: nat)
      modifies this`handle
      ensures View() == Acknowledge(old(View()), id)
    {
      if handle.Some? {
        handle := Some(handle.value.(ledger := WithoutEvent(handle.value.ledger, id)));
      }
    }

    method PersistWsCapabilities(f: Faults) returns (outcome: Outcome)
      requires pendingWsRefresh != {} ==> f.pick in pendingWsRefresh
      modifies this
      ensures (View(), outcome) == Persist(old(View()), f)
    {
      if pendingWsRefresh != {} {
        var id := f.pick;
        if !f.summaryWorks {
          return Failure(());
        }
        var saved := id !in vault || vault[id] == Some(false);
        var reloaded := ReloadIfRunning(f.usable, f.reloadWorks);
        if !reloaded {
          return Failure(());
        }
        pendingWsRefresh := pendingWsRefresh - {id};
        if saved {
          if handle.Some? {
            handle := Some(handle.value.(ledger := WithoutProvider(handle.value.ledger, id)));
          }
          pendingWsEvents := WithoutProvider(pendingWsEvents, id);
          unpublished := Publish(View(), id).unpublished;
          return Success(true);
        }
      }
      if handle.Some? {
        pendingWsEvents := handle.value.ledger;
      }
      if pendingWsEvents == [] {
        return Success(false);
      }
      if !f.configWorks {
        return Failure(());
      }
      outcome := PersistFirst(f);
    }

    /** The loop over a copy of the pending events. */
    method PersistFirst(f: Faults) returns (outcome: Outcome)
      modifies this
      ensures (View(), outcome) == Scan(old(View()), old(pendingWsEvents), f)
    {
      var events := pendingWsEvents;
      for i := 0 to |events|
        invariant Scan(View(), events[i..], f) == Scan(old(View()), old(pendingWsEvents), f)
      {
        assert events[i..][0] == events[i] && events[i..][1..] == events[i + 1..];
        var ended := PersistOne(events[i], f);
        if ended.Some? {
          return ended.value;
        }
      }
      outcome := Success(false);
    }

    method PersistOne(event: WsEvent, f: Faults) returns (ended: Option<Outcome>)
      modifies this
      ensures ended.None? <==> Skips(old(View()), event, f)
      ensures ended.None? ==> View() == Drop(Acknowledge(old(View()), event.id), event.id)
      ensures ended.Some? ==> (View(), ended.value) == HandleEvent(old(View()), event, f)
    {
      if event.id !in f.matching {
        AcknowledgeEvent(event.id);
        pendingWsEvents := WithoutEvent(pendingWsEvents, event.id);
        return None;
      }
      if !f.summaryWorksAgain || event.provider !in vault {
        return Some(Failure(()));
      }
      if vault[event.provider] != Some(false) {
        if handle.Some? && event.id in f.withdrawn {
          AcknowledgeEvent(event.id);
          pendingWsEvents := WithoutEvent(pendingWsEvents, event.id);
          return None;
        }
        pendingWsRefresh := pendingWsRefresh + {event.provider};
        var written := DisableProviderWebsocket(event.provider, f.write);
        if !written {
          return Some(Failure(()));
        }
      }
      var result := FinishEvent(event, f);
      ended := Some(result);
    }

    method FinishEvent(event: WsEvent, f: Faults) returns (outcome: Outcome)
      modifies this
      ensures (View(), outcome) == Finish(old(View()), event, f)
    {
      pendingWsRefresh := pendingWsRefresh + {event.provider};
      var reloaded := ReloadIfRunning(f.usable, f.reloadWorksAgain);
      if !reloaded {
        return Failure(());
      }
      pendingWsRefresh := pendingWsRefresh - {event.provider};
      assert pendingWsRefresh == old(pendingWsRefresh) - {event.provider};
      AcknowledgeEvent(event.id);
      pendingWsEvents := WithoutEvent(pendingWsEvents, event.id);
      unpublished := Publish(View(), event.provider).unpublished;
      outcome := Success(true);
    }
  }

  // ---- Whole runs ----------------------------------------------------------

  /** Besides calls: edits of a provider by anyone, observations made or withdrawn by
      the running proxy, and the listener coming and going. */
  datatype Event =
    | Call(faults: Faults)
    | Edit(id: Id, preference: Option<bool>)
    | Delete(id: Id)
    | Observe(event: WsEvent)
    | Withdraw(provider: Id)
    | Start(usable: set<Id>)
    | Stop
    | Crash
    | Reset

  /** An edit to anything but off supersedes what was written here. */
  function Next(s: State, event: Event): State {
    match event
    case Call(f) => if s.refresh != {} && f.pick !in s.refresh then s else Persist(s, f).0
    case Edit(id, preference) =>
      s.(vault := s.vault[id := preference],
         unpublished := if preference == Some(false) then s.unpublished else s.unpublished - {id})
    case Delete(id) => s.(vault := s.vault - {id}, unpublished := s.unpublished - {id})
    case Observe(event) =>
      if !Running(s) then s
      else s.(handle := Some(s.handle.value.(ledger := s.handle.value.ledger + [event])))
    case Withdraw(provider) =>
      if s.handle.None? then s
      else s.(handle := Some(s.handle.value.(ledger := WithoutProvider(s.handle.value.ledger, provider))))
    case Start(usable) => s.(handle := Some(Handle(true, s.events, ServedNow(s.vault, usable))))
    case Stop => s.(handle := None, events := if s.handle.Some? then s.handle.value.ledger else s.events)
    case Crash => if s.handle.None? then s else s.(handle := Some(s.handle.value.(running := false)))
    case Reset => INITIAL
  }

  function Run(events: seq<Event>): State {
    if events == [] then INITIAL else Next(Run(events[..|events| - 1]), events[|events| - 1])
  }

  /** Every unpublished change stands and is queued for a refresh. */
  ghost predicate Owed(s: State) {
    forall id :: id in s.unpublished ==> id in s.refresh && id in s.vault && s.vault[id] == Some(false)
  }

  lemma RetryKeepsOwed(s: State, f: Faults)
    requires Owed(s) && (s.refresh != {} ==> f.pick in s.refresh)
    ensures Owed(Retry(s, f).0)
  {
  }

  lemma FinishKeepsOwed(s: State, event: WsEvent, f: Faults)
    requires Owed(s) && event.provider in s.vault && s.vault[event.provider] == Some(false)
    ensures Owed(Finish(s, event, f).0)
  {
  }

  lemma {:induction false} ScanKeepsOwed(s: State, events: seq<WsEvent>, f: Faults)
    requires Owed(s)
    ensures Owed(Scan(s, events, f).0)
    decreases |events|
  {
    if events != [] {
      var event := events[0];
      if Skips(s, event, f) {
        ScanKeepsOwed(Drop(Acknowledge(s, event.id), event.id), events[1..], f);
      } else if f.summaryWorksAgain && event.provider in s.vault {
        if s.vault[event.provider] == Some(false) {
          FinishKeepsOwed(s, event, f);
        } else if f.write.Committed? {
          FinishKeepsOwed(WriteOff(s, event.provider, f.write), event, f);
        }
      }
    }
  }

  lemma PersistKeepsOwed(s: State, f: Faults)
    requires Owed(s) && (s.refresh != {} ==> f.pick in s.refresh)
    ensures Owed(Persist(s, f).0)
  {
    RetryKeepsOwed(s, f);
    var retried := Retry(s, f).0;
    var polled := if retried.handle.Some? then retried.(events := retried.handle.value.ledger) else retried;
    ScanKeepsOwed(polled, polled.events, f);
  }

  /** At every point of every run, a provider turned off here whose change still
      stands and has not been both loaded and reported is queued for a refresh, also
      when the write committed but returned an error. */
  lemma {:induction false} UnpublishedIsQueued(events: seq<Event>)
    ensures Owed(Run(events))
  {
    if events != [] {
      UnpublishedIsQueued(events[..|events| - 1]);
      var s, event := Run(events[..|events| - 1]), events[|events| - 1];
      if event.Call? && (s.refresh != {} ==> event.faults.pick in s.refresh) {
        PersistKeepsOwed(s, event.faults);
      }
    }
  }

  /** A call that reports a change leaves the running snapshot in agreement with the
      vault for every provider, so nothing reported is still served over websockets. */
  lemma {:induction false} ScanReportsAfterLoading(s: State, events: seq<WsEvent>, f: Faults)
    requires Scan(s, events, f).1 == Success(true) && Running(s)
    ensures var after := Scan(s, events, f).0;
      Running(after) && after.handle.value.served == ServedNow(after.vault, f.usable)
    decreases |events|
  {
    if Skips(s, events[0], f) {
      ScanReportsAfterLoading(Drop(Acknowledge(s, events[0].id), events[0].id), events[1..], f);
    }
  }

  lemma ReportedAfterLoading(s: State, f: Faults)
    requires Persist(s, f).1 == Success(true) && Running(s)
    ensures var after := Persist(s, f).0;
      Running(after) && after.handle.value.served == ServedNow(after.vault, f.usable)
  {
    var (retried, outcome) := Retry(s, f);
    if outcome.None? {
      var polled := retried.(events := retried.handle.value.ledger);
      ScanReportsAfterLoading(polled, polled.events, f);
    }
  }

  /** Still to be handled: in the live ledger, or, without a listener, kept here. */
  predicate Observed(s: State, event: WsEvent) {
    if s.handle.Some? then event in s.handle.value.ledger else event in s.events
  }

  lemma {:induction false} ScanFailureKeepsEvents(s: State, events: seq<WsEvent>, f: Faults, event: WsEvent)
    requires Scan(s, events, f).1 == Failure(())
    requires Observed(s, event) && event.id in f.matching && event.id !in f.withdrawn
    ensures Observed(Scan(s, events, f).0, event)
    decreases |events|
  {
    if Skips(s, events[0], f) {
      ScanFailureKeepsEvents(Drop(Acknowledge(s, events[0].id), events[0].id), events[1..], f, event);
    }
  }

  /** A failing call loses no observation: what matches the configuration and was not
      withdrawn is still there for the next call. */
  lemma FailureKeepsEvents(s: State, f: Faults, event: WsEvent)
    requires Persist(s, f).1 == Failure(())
    requires Observed(s, event) && event.id in f.matching && event.id !in f.withdrawn
    ensures Observed(Persist(s, f).0, event)
  {
    var (retried, outcome) := Retry(s, f);
    if outcome.None? && f.configWorks {
      var polled := if retried.handle.Some? then retried.(events := retried.handle.value.ledger) else retried;
      if polled.events != [] {
        ScanFailureKeepsEvents(polled, polled.events, f, event);
      }
    }
  }

  // ---- Draining ------------------------------------------------------------

  predicate Clear(f: Faults) {
    f.summaryWorks && f.reloadWorks && f.configWorks && f.summaryWorksAgain && f.write.Committed? && f.reloadWorksAgain
  }

  /** When nothing fails, a call on a queued provider that is off publishes it. */
  lemma ClearCallPublishes(s: State, f: Faults)
    requires Clear(f) && f.pick in s.refresh && f.pick in s.vault && s.vault[f.pick] == Some(false)
    ensures var (after, outcome) := Persist(s, f);
      outcome == Success(true) && after.refresh == s.refresh - {f.pick} && f.pick !in after.unpublished
  {
  }

  lemma {:induction false} ClearScanKeepsQueue(s: State, events: seq<WsEvent>, f: Faults)
    requires Clear(f)
    ensures Scan(s, events, f).0.refresh <= s.refresh
    decreases |events|
  {
    if events != [] && Skips(s, events[0], f) {
      ClearScanKeepsQueue(Drop(Acknowledge(s, events[0].id), events[0].id), events[1..], f);
    }
  }

  /** When nothing fails, a call takes the provider it met first off the queue, be it
      off or turned on again, and puts none on it. */
  lemma ClearCallShrinksQueue(s: State, f: Faults)
    requires Clear(f)
    ensures Persist(s, f).0.refresh <= s.refresh - {f.pick} || (s.refresh == {} && Persist(s, f).0.refresh == {})
  {
    var (retried, outcome) := Retry(s, f);
    if outcome.None? {
      var polled := if retried.handle.Some? then retried.(events := retried.handle.value.ledger) else retried;
      ClearScanKeepsQueue(polled, polled.events, f);
    }
  }

  /** Calls without failures, each of which meets some queued provider first. */
  ghost predicate Prompt(s: State, fs: seq<Faults>)
    decreases |fs|
  {
    fs == [] ||
    (Clear(fs[0]) && (s.refresh != {} ==> fs[0].pick in s.refresh) && Prompt(Persist(s, fs[0]).0, fs[1..]))
  }

  /** From any state of any run, whatever edits led to it, as many calls without failures
      as there are queued providers empty the queue and leave nothing unpublished. */
  lemma {:induction false} QueueDrains(s: State, fs: seq<Faults>)
    requires Owed(s) && Prompt(s, fs) && |fs| >= |s.refresh|
    ensures Calls(s, fs).refresh == {} && Calls(s, fs).unpublished == {}
    decreases |fs|
  {
    if fs != [] {
      var after := Persist(s, fs[0]).0;
      PersistKeepsOwed(s, fs[0]);
      ClearCallShrinksQueue(s, fs[0]);
      if s.refresh != {} {
        SubsetSize(after.refresh, s.refresh - {fs[0].pick});
      }
      QueueDrains(after, fs[1..]);
    }
  }

  function Calls(s: State, fs: seq<Faults>): State
    decreases |fs|
  {
    if fs == [] then s else Calls(Persist(s, fs[0]).0, fs[1..])
  }

  /** A call that turns a provider off and reports an error has queued it. */
  lemma {:induction false} ScanErrorIsQueued(s: State, events: seq<WsEvent>, f: Faults, id: Id)
    requires Scan(s, events, f).1 == Failure(())
    requires var after := Scan(s, events, f).0;
      id in after.vault && after.vault[id] == Some(false) && !(id in s.vault && s.vault[id] == Some(false))
    ensures id in Scan(s, events, f).0.unpublished
    decreases |events|
  {
    if events != [] && Skips(s, events[0], f) {
      ScanErrorIsQueued(Drop(Acknowledge(s, events[0].id), events[0].id), events[1..], f, id);
    }
  }

  lemma ErrorIsQueued(s: State, f: Faults, id: Id)
    requires Persist(s, f).1 == Failure(())
    requires var after := Persist(s, f).0;
      id in after.vault && after.vault[id] == Some(false) && !(id in s.vault && s.vault[id] == Some(false))
    ensures id in Persist(s, f).0.unpublished
  {
    var (retried, outcome) := Retry(s, f);
    if outcome.None? {
      var polled := if retried.handle.Some? then retried.(events := retried.handle.value.ledger) else retried;
      if polled.events != [] && f.configWorks {
        ScanErrorIsQueued(polled, polled.events, f, id);
      }
    }
  }

  /** No snapshot in use serves the provider. */
  predicate Follows(s: State, id: Id) {
    Running(s) ==> id !in s.handle.value.served
  }

  /** In any run a call without failures that meets an unpublished provider first reports
      it, with a snapshot that no longer serves it, though its observation may be gone. */
  lemma CommittedWithErrorIsRecovered(events: seq<Event>, g: Faults)
    requires g.pick in Run(events).unpublished && Clear(g)
    ensures var s, (after, outcome) := Run(events), Persist(Run(events), g);
      && outcome == Success(true) && Next(s, Call(g)) == after && g.pick !in after.unpublished
      && Follows(after, g.pick)
  {
    var s := Run(events);
    UnpublishedIsQueued(events);
    ClearCallPublishes(s, g);
    if Running(s) {
      ReportedAfterLoading(s, g);
    }
  }

  lemma {:induction false} ScanKeepsOwedOthers(s: State, events: seq<WsEvent>, f: Faults, id: Id)
    requires id in s.unpublished
    ensures var (after, outcome) := Scan(s, events, f);
      id in after.unpublished || (outcome == Success(true) && Follows(after, id))
    decreases |events|
  {
    if events != [] && Skips(s, events[0], f) {
      ScanKeepsOwedOthers(Drop(Acknowledge(s, events[0].id), events[0].id), events[1..], f, id);
    }
  }

  /** What is unpublished stays so until a call succeeds with the snapshot following it,
      or somebody turns the provider on or deletes it, or everything is reset. */
  lemma StaysUnpublished(s: State, event: Event, id: Id)
    requires id in s.unpublished && id !in Next(s, event).unpublished
    ensures match event
      case Call(f) => Persist(s, f).1 == Success(true) && Follows(Persist(s, f).0, id)
      case Edit(edited, preference) => edited == id && preference != Some(false)
      case Delete(deleted) => deleted == id
      case Reset => true
      case _ => false
  {
    if event.Call? {
      var f := event.faults;
      var (retried, outcome) := Retry(s, f);
      if outcome.None? {
        var polled := if retried.handle.Some? then retried.(events := retried.handle.value.ledger) else retried;
        ScanKeepsOwedOthers(polled, polled.events, f, id);
      }
    }
  }

  /** Such a run: the write of an observation commits with an error, and the observation
      behind it is withdrawn before the next call. */
  lemma WithdrawnAfterError(provider: Id, f: Faults, g: Faults)
    requires f.configWorks && f.matching == {0} && f.withdrawn == {} && f.summaryWorksAgain
    requires f.write == CommittedWithError && Clear(g) && g.pick == provider
    ensures var events := [Edit(provider, None), Start({provider}), Observe(WsEvent(0, provider)),
                           Call(f), Withdraw(provider)];
      && provider in Run(events).unpublished
      && Running(Run(events)) && provider in Run(events).handle.value.served
      && provider !in Run(events + [Call(g)]).unpublished
      && Persist(Run(events), g).1 == Success(true)
  {
    var e: seq<Event>, s := [], INITIAL;
    e, s := Extend(e, s, Edit(provider, None));
    e, s := Extend(e, s, Start({provider}));
    assert ServedNow(s.vault, {provider}) == {provider};
    assert s.handle == Some(Handle(true, [], {provider}));
    e, s := Extend(e, s, Observe(WsEvent(0, provider)));
    assert Running(s) && s.handle.value.ledger == [WsEvent(0, provider)];
    assert s.handle == Some(Handle(true, [WsEvent(0, provider)], {provider})) && s.refresh == {};
    var called := Persist(s, f).0;
    assert called.unpublished == {provider} && called.refresh == {provider};
    assert called.handle.value.served == {provider};
    e, s := Extend(e, s, Call(f));
    e, s := Extend(e, s, Withdraw(provider));
    ClearCallPublishes(s, g);
    var before := s;
    assert e == [Edit(provider, None), Start({provider}), Observe(WsEvent(0, provider)), Call(f), Withdraw(provider)];
    e, s := Extend(e, s, Call(g));
    assert s == Persist(before, g).0;
  }

  lemma Extend(events: seq<Event>, s: State, event: Event) returns (longer: seq<Event>, after: State)
    requires Run(events) == s
    ensures longer == events + [event] && after == Next(s, event) == Run(longer)
  {
    longer, after := events + [event], Next(s, event);
    assert longer[..|longer| - 1] == events;
  }
}
