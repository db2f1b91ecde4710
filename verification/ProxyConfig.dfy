/** The configuration of the local proxy and its stored copy
    (crates/aipass-agent/src/proxy_service.rs).

    A configuration lives in three places: in memory, in an encrypted file, and in
    the snapshot of the running listener.  Any read, save or restart may fail, and a
    save may fail after the file was replaced. */
module ProxyConfig {
  import opened Wrappers

  type Id = nat

  /** `Blank` stands for any text that trims to nothing. */
  datatype Token = Blank | Token(value: nat)

  datatype Target = Target(id: Id, provider: Id, secret: Id)

  datatype Route = Route(id: Id, token: Token, enabled: bool, targets: seq<Target>)

  datatype Config = Config(enabled: bool, bind: Id, routes: seq<Route>)

  const DEFAULT := Config(false, 8787, [])

  datatype Handle = Handle(running: bool, snapshot: Config)

  datatype State = State(config: Config, stored: Option<Config>, handle: Option<Handle>, pendingDisabled: bool)

  const INITIAL := State(DEFAULT, None, None, false)

  // ---- Faults --------------------------------------------------------------

  /** A save may be lost, or fail only after the new file is in place. */
  datatype Disk = Done | Lost | Late

  datatype LoadFault = LoadFault(readable: bool, save: Disk, salt: nat)

  datatype RestartFault = RestartFault(runtimeWorks: bool, startWorks: bool)

  datatype StopFault = StopFault(load: LoadFault, save: Disk)

  datatype SetFault = SetFault(load: LoadFault, valid: bool, save: Disk, restart: RestartFault, stop: StopFault,
    undoSave: Disk, undoRestart: RestartFault)

  datatype ChangeFault = ChangeFault(load: LoadFault, save: Disk, restart: RestartFault,
    undoSave: Disk, undoRestart: RestartFault)

  datatype ReloadFault = ReloadFault(load: LoadFault, works: bool)

  datatype DropFault = DropFault(load: LoadFault, save: Disk, reload: ReloadFault)

  datatype ReconcileFault = ReconcileFault(vault: map<Id, Lookup>, drop: DropFault)

  datatype RemoveFault = RemoveFault(drop: DropFault, lastSave: Disk)

  datatype StartFault = StartFault(load: LoadFault, reconcile: ReconcileFault, valid: bool, works: bool, save: Disk)

  datatype RefreshFault = RefreshFault(load: LoadFault, reconcile: ReconcileFault, referenced: bool, resolves: bool,
    changed: bool, save: Disk, reload: ReloadFault, lastSave: Disk)

  // ---- Loading and saving --------------------------------------------------

  function Filled(route: Route, token: nat): Route {
    if route.token.Blank? then route.(token := Token(token)) else route
  }

  function EnsureTokens(routes: seq<Route>, salt: nat): (filled: seq<Route>)
    ensures |filled| == |routes| && CleanRoutes(filled)
    ensures CleanRoutes(routes) ==> filled == routes
  {
    seq(|routes|, i requires 0 <= i < |routes| => Filled(routes[i], salt + i))
  }

  predicate CleanRoutes(routes: seq<Route>) {
    forall i :: 0 <= i < |routes| ==> !routes[i].token.Blank?
  }

  /** Every route has a token. */
  predicate Clean(config: Config) {
    CleanRoutes(config.routes)
  }

  function Save(s: State, disk: Disk): (State, bool) {
    (if disk.Lost? then s else s.(stored := Some(s.config)), disk.Done?)
  }

  function Load(s: State, f: LoadFault): (State, bool) {
    if s.stored.None? then (s.(pendingDisabled := false), true)
    else if !f.readable then (s, false)
    else
      var stored := s.stored.value;
      var filled := EnsureTokens(stored.routes, f.salt);
      var read := s.(config := stored.(routes := filled, enabled := stored.enabled && !s.pendingDisabled));
      if filled == stored.routes && !s.pendingDisabled then (read, true)
      else
        var (saved, ok) := Save(read, f.save);
        (if ok then saved.(pendingDisabled := false) else saved, ok)
  }

  // ---- The listener --------------------------------------------------------

  predicate Running(s: State) {
    s.handle.Some? && s.handle.value.running
  }

  /** A listener on another address is taken down before the new one starts. */
  function Restart(s: State, f: RestartFault): (State, bool) {
    if !f.runtimeWorks then (s, false)
    else if Running(s) && s.handle.value.snapshot.bind == s.config.bind then
      (if f.startWorks then s.(handle := Some(Handle(true, s.config))) else s, f.startWorks)
    else (s.(handle := if f.startWorks then Some(Handle(true, s.config)) else None), f.startWorks)
  }

  function ReloadIfRunning(s: State, f: ReloadFault): (State, bool) {
    if !Running(s) then (s, true)
    else
      var (loaded, ok) := Load(s, f.load);
      if !ok || !f.works then (loaded, false)
      else (loaded.(handle := Some(Handle(true, loaded.config.(bind := s.handle.value.snapshot.bind)))), true)
  }

  function StopAndSave(s: State, f: StopFault): (State, bool) {
    var (loaded, ok) := Load(s, f.load);
    if !ok then (loaded, false)
    else
      var (saved, done) := Save(loaded.(config := loaded.config.(enabled := false)), f.save);
      if !done then (saved.(config := loaded.config), false)
      else (saved.(handle := None), true)
  }

  predicate HasEnabledRoute(config: Config) {
    exists i :: 0 <= i < |config.routes| && config.routes[i].enabled
  }

  function ApplyRuntime(s: State, restart: RestartFault, stop: StopFault): (State, bool) {
    if s.handle.None? then (s, true)
    else if s.config.enabled && HasEnabledRoute(s.config) then Restart(s, restart)
    else StopAndSave(s, stop)
  }

  // ---- Operations ----------------------------------------------------------

  function SetConfig(s: State, config: Config, f: SetFault): (State, bool) {
    var (loaded, ok) := Load(s, f.load);
    if !ok || !f.valid then (loaded, false)
    else
      var wanted := config.(routes := EnsureTokens(config.routes, f.load.salt));
      var (saved, done) := Save(loaded.(config := wanted), f.save);
      if !done then (saved.(config := loaded.config), false)
      else
        var (applied, works) := ApplyRuntime(saved, f.restart, f.stop);
        if works then (applied, true)
        else
          var undone := Save(applied.(config := loaded.config), f.undoSave).0;
          (if Running(loaded) then Restart(undone, f.undoRestart).0 else undone, false)
  }

  /** The index of the first route with this id, if any. */
  function IndexOf(routes: seq<Route>, id: Id): (found: Option<nat>)
    ensures found.Some? ==> found.value < |routes| && routes[found.value].id == id
    ensures found.Some? ==> forall i :: 0 <= i < found.value ==> routes[i].id != id
    ensures found.None? ==> forall i :: 0 <= i < |routes| ==> routes[i].id != id
  {
    if routes == [] then None
    else if routes[0].id == id then Some(0)
    else
      var rest := IndexOf(routes[1..], id);
      if rest.Some? then Some(rest.value + 1) else None
  }

  /** Save a changed configuration and restart a listener, or take both back. */
  function Change(loaded: State, config: Config, f: ChangeFault): (State, bool) {
    var (saved, done) := Save(loaded.(config := config), f.save);
    var (applied, works) := if !done then (saved, false)
                            else if saved.handle.Some? then Restart(saved, f.restart)
                            else (saved, true);
    if works then (applied, true)
    else (Save(applied.(config := loaded.config), f.undoSave).0, false)
  }

  function SetRouteEnabled(s: State, id: Id, enabled: bool, f: ChangeFault): (State, bool) {
    var (loaded, ok) := Load(s, f.load);
    var found := IndexOf(loaded.config.routes, id);
    if !ok || found.None? || (enabled && loaded.config.routes[found.value].token.Blank?) then (loaded, false)
    else
      var routes := loaded.config.routes;
      var config := loaded.config.(
        routes := routes[found.value := routes[found.value].(enabled := enabled)],
        enabled := loaded.config.enabled || enabled);
      var (changed, works) := Change(loaded, config, f);
      if works then (changed, true)
      else (if changed.handle.Some? then Restart(changed, f.undoRestart).0 else changed, false)
  }

  function RotateToken(s: State, id: Id, token: nat, f: ChangeFault): (State, bool) {
    var (loaded, ok) := Load(s, f.load);
    var found := IndexOf(loaded.config.routes, id);
    if !ok || found.None? then (loaded, false)
    else
      var routes := loaded.config.routes;
      var config := loaded.config.(routes := routes[found.value := routes[found.value].(token := Token(token))]);
      var (changed, works) := Change(loaded, config, f);
      if works then (changed, true)
      else (if loaded.handle.Some? then Restart(changed, f.undoRestart).0 else changed, false)
  }

  // ---- Dropping credentials that are gone ----------------------------------

  /** What a lookup of a provider shows; a provider that is not in the map has no
      record. */
  datatype Lookup = Found(deleted: bool, secrets: set<Id>) | Unreadable

  /** Why targets go: their credential is missing from the vault, or an entry or one of
      its secrets is being removed. */
  datatype Loss = MissingFrom(vault: map<Id, Lookup>) | RemovedEntry(entry: Id, secret: Option<Id>)

  predicate Gone(loss: Loss, target: Target) {
    match loss
    case RemovedEntry(entry, secret) =>
      target.provider == entry && (secret.None? || target.secret == secret.value)
    case MissingFrom(vault) =>
      if target.provider !in vault then true
      else match vault[target.provider]
        case Found(deleted, secrets) => deleted || target.secret !in secrets
        case Unreadable => false
  }

  function Kept(loss: Loss, targets: seq<Target>): seq<Target> {
    if targets == [] then []
    else
      var last := targets[|targets| - 1];
      Kept(loss, targets[..|targets| - 1]) + if Gone(loss, last) then [] else [last]
  }

  /** A route goes only when it had targets and lost them all. */
  predicate Stays(loss: Loss, route: Route) {
    route.targets == [] || Kept(loss, route.targets) != []
  }

  function Reconciled(loss: Loss, routes: seq<Route>): (kept: seq<Route>) {
    if routes == [] then []
    else
      var last := routes[|routes| - 1];
      Reconciled(loss, routes[..|routes| - 1]) +
      if Stays(loss, last) then [last.(targets := Kept(loss, last.targets))] else []
  }

  predicate LosesTarget(loss: Loss, route: Route) {
    exists t :: t in route.targets && Gone(loss, t)
  }

  predicate SomeGone(loss: Loss, routes: seq<Route>) {
    exists i :: 0 <= i < |routes| && LosesTarget(loss, routes[i])
  }

  /** Shared by the two operations below: nothing is saved when nothing goes. */
  function DropTargets(s: State, loss: Loss, f: DropFault): (State, bool) {
    var (loaded, ok) := Load(s, f.load);
    if !ok || !SomeGone(loss, loaded.config.routes) then (loaded, ok)
    else
      var pruned := loaded.(config := loaded.config.(routes := Reconciled(loss, loaded.config.routes)));
      var (saved, done) := Save(pruned, f.save);
      if !done then (saved, false) else ReloadIfRunning(saved, f.reload)
  }

  function Reconcile(s: State, f: ReconcileFault): (State, bool) {
    DropTargets(s, MissingFrom(f.vault), f.drop)
  }

  /** References to an entry or a secret that was deleted here.  When they cannot be
      dropped the listener is taken down and the configuration saved, whatever it is. */
  function RemoveProvider(s: State, entry: Id, secret: Option<Id>, f: RemoveFault): (State, bool) {
    var (after, ok) := DropTargets(s, RemovedEntry(entry, secret), f.drop);
    if ok then (after, true) else (Save(Stop(after), f.lastSave).0, false)
  }

  // ---- Starting ------------------------------------------------------------

  predicate Startable(config: Config) {
    Clean(config) && HasEnabledRoute(config)
  }

  function Start(s: State, f: StartFault): (State, bool) {
    if Running(s) then (s, false)
    else
      var (loaded, ok) := Load(s.(handle := None), f.load);
      if !ok then (loaded, false)
      else
        var (pruned, ok) := Reconcile(loaded, f.reconcile);
        if !ok || !f.valid || !Startable(pruned.config) || !f.works then (pruned, false)
        else
          var (saved, done) := Save(pruned.(config := pruned.config.(enabled := true)), f.save);
          if !done then (saved.(config := pruned.config), false)
          else (saved.(handle := Some(Handle(true, pruned.config))), true)
  }

  /** Also tells whether anything was started. */
  function StartIfEnabled(s: State, load: LoadFault, f: StartFault): (State, bool) {
    if Running(s) then (s, true)
    else
      var (loaded, ok) := Load(s, load);
      if !ok || !loaded.config.enabled then (loaded, ok) else Start(loaded, f)
  }

  function Stop(s: State): State {
    s.(handle := None, config := s.config.(enabled := false))
  }

  function StopWhileLocked(s: State): State {
    Stop(s).(pendingDisabled := true)
  }

  function Blanked(routes: seq<Route>): (blank: seq<Route>)
    ensures |blank| == |routes| && forall i :: 0 <= i < |routes| ==> blank[i] == routes[i].(token := Blank)
  {
    seq(|routes|, i requires 0 <= i < |routes| => routes[i].(token := Blank))
  }

  function LockForSession(s: State): State {
    s.(config := s.config.(routes := Blanked(s.config.routes)))
  }

  /** Refreshing the copies of a provider's fields; those fields are not modelled, so
      only whether something changed matters. */
  function RefreshBody(s: State, f: RefreshFault): (State, bool) {
    var (loaded, ok) := Load(s, f.load);
    if !ok then (loaded, false)
    else
      var (pruned, ok) := Reconcile(loaded, f.reconcile);
      if !ok || !f.referenced || !f.resolves then (pruned, ok && !f.referenced)
      else
        var (saved, done) := if f.changed then Save(pruned, f.save) else (pruned, true);
        if !done then (saved, false)
        else if Running(s) then ReloadIfRunning(saved, f.reload) else (saved, true)
  }

  /** A listener that cannot be given the new credentials is taken down. */
  function Refresh(s: State, f: RefreshFault): (State, bool) {
    var (after, ok) := RefreshBody(s, f);
    if ok || !Running(s) then (after, ok) else (Save(Stop(after), f.lastSave).0, false)
  }

  // ---- The service ---------------------------------------------------------

  class ProxyService {
    var config: Config
    var stored: Option<Config>
    var handle: Option<Handle>
    var pendingDisabled: bool

    constructor ()
      ensures View() == INITIAL
    {
      config, stored, handle, pendingDisabled := DEFAULT, None, None, false;
    }

    function View(): State
      reads this
    {
      State(config, stored, handle, pendingDisabled)
    }

    method SaveConfig(disk: Disk) returns (ok: bool)
      modifies this`stored
      ensures (View(), ok) == Save(old(View()), disk)
    {
      if !disk.Lost? {
        stored := Some(config);
      }
      ok := disk.Done?;
    }

    /** Fills in missing tokens in place. */
    method FillTokens(salt: nat) returns (changed: bool)
      modifies this`config
      ensures config == old(config).(routes := EnsureTokens(old(config).routes, salt))
      ensures changed <==> !Clean(old(config))
    {
      changed := false;
      var before := config.routes;
      for i := 0 to |before|
        invariant |config.routes| == |before| && config == old(config).(routes := config.routes)
        invariant forall k :: 0 <= k < i ==> config.routes[k] == Filled(before[k], salt + k)
        invariant forall k :: i <= k < |before| ==> config.routes[k] == before[k]
        invariant changed <==> exists k :: 0 <= k < i && before[k].token.Blank?
      {
        if config.routes[i].token.Blank? {
          config := config.(routes := config.routes[i := config.routes[i].(token := Token(salt + i))]);
          changed := true;
        }
      }
      assert config.routes == EnsureTokens(before, salt);
    }

    method LoadConfig(f: LoadFault) returns (ok: bool)
      modifies this
      ensures (View(), ok) == Load(old(View()), f)
    {
      if stored.None? {
        pendingDisabled := false;
        return true;
      }
      if !f.readable {
        return false;
      }
      config := stored.value;
      var normalized := FillTokens(f.salt);
      if pendingDisabled {
        config := config.(enabled := false);
      }
      if normalized || pendingDisabled {
        ok := SaveConfig(f.save);
        if !ok {
          return false;
        }
        pendingDisabled := false;
      }
      ok := true;
    }

    method RestartListener(f: RestartFault) returns (ok: bool)
      modifies this`handle
      ensures (View(), ok) == Restart(old(View()), f)
    {
      if !f.runtimeWorks {
        return false;
      }
      if handle.Some? && handle.value.running && handle.value.snapshot.bind == config.bind {
        if f.startWorks {
          handle := Some(Handle(true, config));
        }
        return f.startWorks;
      }
      handle := None;
      if !f.startWorks {
        return false;
      }
      handle := Some(Handle(true, config));
      ok := true;
    }

    method Reload(f: ReloadFault) returns (ok: bool)
      modifies this
      ensures (View(), ok) == ReloadIfRunning(old(View()), f)
    {
      if handle.None? || !handle.value.running {
        return true;
      }
      ok := LoadConfig(f.load);
      if !ok || !f.works {
        return false;
      }
      handle := Some(Handle(true, config.(bind := handle.value.snapshot.bind)));
    }

    method StopSaving(f: StopFault) returns (ok: bool)
      modifies this
      ensures (View(), ok) == StopAndSave(old(View()), f)
    {
      ok := LoadConfig(f.load);
      if !ok {
        return false;
      }
      var previousEnabled := config.enabled;
      config := config.(enabled := false);
      ok := SaveConfig(f.save);
      if !ok {
        config := config.(enabled := previousEnabled);
        return false;
      }
      handle := None;
    }

    method ApplyRuntimeConfig(restart: RestartFault, stop: StopFault) returns (ok: bool)
      modifies this
      ensures (View(), ok) == ApplyRuntime(old(View()), restart, stop)
    {
      if handle.None? {
        return true;
      }
      if config.enabled && HasEnabledRoute(config) {
        ok := RestartListener(restart);
      } else {
        ok := StopSaving(stop);
      }
    }

    method SetWholeConfig(wanted: Config, f: SetFault) returns (ok: bool)
      modifies this
      ensures (View(), ok) == SetConfig(old(View()), wanted, f)
    {
      ok := LoadConfig(f.load);
      if !ok || !f.valid {
        return false;
      }
      var previous := config;
      config := wanted.(routes := EnsureTokens(wanted.routes, f.load.salt));
      var wasRunning := handle.Some? && handle.value.running;
      ok := SaveConfig(f.save);
      if !ok {
        config := previous;
        return false;
      }
      ok := ApplyRuntimeConfig(f.restart, f.stop);
      if !ok {
        config := previous;
        var _ := SaveConfig(f.undoSave);
        if wasRunning {
          var _ := RestartListener(f.undoRestart);
        }
        return false;
      }
    }

    /** Shared by the two operations below. */
    method ChangeConfig(wanted: Config, f: ChangeFault) returns (ok: bool)
      modifies this
      ensures (View(), ok) == Change(old(View()), wanted, f)
    {
      var previous := config;
      config := wanted;
      ok := SaveConfig(f.save);
      if ok && handle.Some? {
        ok := RestartListener(f.restart);
      }
      if !ok {
        config := previous;
        var _ := SaveConfig(f.undoSave);
      }
    }

    method EnableRoute(id: Id, enabled: bool, f: ChangeFault) returns (ok: bool)
      modifies this
      ensures (View(), ok) == SetRouteEnabled(old(View()), id, enabled, f)
    {
      ok := LoadConfig(f.load);
      if !ok {
        return false;
      }
      var index := IndexOf(config.routes, id);
      if index.None? || (enabled && config.routes[index.value].token.Blank?) {
        return false;
      }
      var routes := config.routes[index.value := config.routes[index.value].(enabled := enabled)];
      ok := ChangeConfig(config.(routes := routes, enabled := config.enabled || enabled), f);
      if !ok && handle.Some? {
        var _ := RestartListener(f.undoRestart);
      }
    }

    method RotateRouteToken(id: Id, token: nat, f: ChangeFault) returns (ok: bool)
      modifies this
      ensures (View(), ok) == RotateToken(old(View()), id, token, f)
    {
      ok := LoadConfig(f.load);
      if !ok {
        return false;
      }
      var index := IndexOf(config.routes, id);
      if index.None? {
        return false;
      }
      var wasRunning := handle.Some?;
      var routes := config.routes[index.value := config.routes[index.value].(token := Token(token))];
      ok := ChangeConfig(config.(routes := routes), f);
      if !ok && wasRunning {
        var _ := RestartListener(f.undoRestart);
      }
    }

    /** The nested in-place filter; tells whether a target was removed. */
    method PruneRoutes(loss: Loss) returns (removed: bool)
      modifies this`config
      ensures config == old(config).(routes := Reconciled(loss, old(config).routes))
      ensures removed <==> SomeGone(loss, old(config).routes)
    {
      removed := false;
      var kept: seq<Route> := [];
      var routes := config.routes;
      for i := 0 to |routes|
        invariant config == old(config)
        invariant kept == Reconciled(loss, routes[..i])
        invariant removed <==> SomeGone(loss, routes[..i])
      {
        var targets, some := PruneTargets(loss, routes[i]);
        ReconciledNext(loss, routes, i);
        removed := removed || some;
        if targets != [] || |routes[i].targets| == 0 {
          kept := kept + [routes[i].(targets := targets)];
        }
      }
      assert routes[..|routes|] == routes;
      config := config.(routes := kept);
    }

    static method PruneTargets(loss: Loss, route: Route) returns (kept: seq<Target>, removed: bool)
      ensures kept == Kept(loss, route.targets)
      ensures removed <==> LosesTarget(loss, route)
    {
      var targets := route.targets;
      kept, removed := [], false;
      for j := 0 to |targets|
        invariant kept == Kept(loss, targets[..j])
        invariant removed <==> exists i :: 0 <= i < j && Gone(loss, targets[i])
      {
        assert targets[..j + 1][..j] == targets[..j];
        if Gone(loss, targets[j]) {
          removed := true;
        } else {
          kept := kept + [targets[j]];
        }
      }
      assert targets[..|targets|] == targets;
      if removed {
        var i :| 0 <= i < |targets| && Gone(loss, targets[i]);
        assert targets[i] in route.targets;
      }
    }

    method ReconcileMissingCredentials(f: ReconcileFault) returns (ok: bool)
      modifies this
      ensures (View(), ok) == Reconcile(old(View()), f)
    {
      ok := DropReferences(MissingFrom(f.vault), f.drop);
    }

    /** Removing references with its caller's answer to a failure. */
    method RemoveProviderReferences(entry: Id, secret: Option<Id>, f: RemoveFault) returns (ok: bool)
      modifies this
      ensures (View(), ok) == RemoveProvider(old(View()), entry, secret, f)
    {
      ok := DropReferences(RemovedEntry(entry, secret), f.drop);
      if !ok {
        StopListener();
        var _ := SaveConfig(f.lastSave);
      }
    }

    method DropReferences(loss: Loss, f: DropFault) returns (ok: bool)
      modifies this
      ensures (View(), ok) == DropTargets(old(View()), loss, f)
    {
      ok := LoadConfig(f.load);
      if !ok {
        return false;
      }
      NothingGoneNothingChanges(loss, config.routes);
      var removed := PruneRoutes(loss);
      if !removed {
        return true;
      }
      ok := SaveConfig(f.save);
      if !ok {
        return false;
      }
      ok := Reload(f.reload);
    }

    method StartListener(f: StartFault) returns (ok: bool)
      modifies this
      ensures (View(), ok) == Start(old(View()), f)
    {
      if handle.Some? && handle.value.running {
        return false;
      }
      handle := None;
      ok := LoadConfig(f.load);
      if !ok {
        return false;
      }
      ok := ReconcileMissingCredentials(f.reconcile);
      if !ok || !f.valid || !HasEnabledRoute(config) || !Clean(config) || !f.works {
        return false;
      }
      var started := Handle(true, config);
      var previousEnabled := config.enabled;
      config := config.(enabled := true);
      ok := SaveConfig(f.save);
      if !ok {
        config := config.(enabled := previousEnabled);
        return false;
      }
      handle := Some(started);
    }

    method RestoreListener(load: LoadFault, f: StartFault) returns (ok: bool)
      modifies this
      ensures (View(), ok) == StartIfEnabled(old(View()), load, f)
    {
      if handle.Some? && handle.value.running {
        return true;
      }
      ok := LoadConfig(load);
      if !ok || !config.enabled {
        return ok;
      }
      ok := StartListener(f);
    }

    method StopListener()
      modifies this`handle, this`config
      ensures View() == Stop(old(View()))
    {
      handle := None;
      config := config.(enabled := false);
    }

    method StopListenerWhileLocked()
      modifies this
      ensures View() == StopWhileLocked(old(View()))
    {
      pendingDisabled := true;
      StopListener();
    }

    method WipeTokens()
      modifies this`config
      ensures View() == LockForSession(old(View()))
    {
      var before := config.routes;
      for i := 0 to |before|
        invariant |config.routes| == |before| && config == old(config).(routes := config.routes)
        invariant forall k :: 0 <= k < i ==> config.routes[k] == before[k].(token := Blank)
        invariant forall k :: i <= k < |before| ==> config.routes[k] == before[k]
      {
        config := config.(routes := config.routes[i := config.routes[i].(token := Blank)]);
      }
      assert config.routes == Blanked(before);
    }

    method RefreshCopies(f: RefreshFault, running: bool) returns (ok: bool)
      requires running == Running(View())
      modifies this
      ensures (View(), ok) == RefreshBody(old(View()), f)
    {
      ok := LoadConfig(f.load);
      if !ok {
        return false;
      }
      ok := ReconcileMissingCredentials(f.reconcile);
      if !ok {
        return false;
      }
      if !f.referenced {
        return true;
      }
      if !f.resolves {
        return false;
      }
      if f.changed {
        ok := SaveConfig(f.save);
        if !ok {
          return false;
        }
      }
      if running {
        ok := Reload(f.reload);
      }
    }

    method RefreshProviderCredentials(f: RefreshFault) returns (ok: bool)
      modifies this
      ensures (View(), ok) == Refresh(old(View()), f)
    {
      var running := handle.Some? && handle.value.running;
      ok := RefreshCopies(f, running);
      if !ok && running {
        StopListener();
        var _ := SaveConfig(f.lastSave);
      }
    }
  }

  lemma ReconciledNext(loss: Loss, routes: seq<Route>, i: nat)
    requires i < |routes|
    ensures Reconciled(loss, routes[..i + 1]) == Reconciled(loss, routes[..i])
      + if Stays(loss, routes[i]) then [routes[i].(targets := Kept(loss, routes[i].targets))] else []
    ensures SomeGone(loss, routes[..i + 1]) <==> SomeGone(loss, routes[..i]) || LosesTarget(loss, routes[i])
  {
    assert routes[..i + 1][..i] == routes[..i];
    SomeGoneLast(loss, routes[..i], routes[i]);
    assert routes[..i] + [routes[i]] == routes[..i + 1];
  }

  lemma SomeGoneLast(loss: Loss, init: seq<Route>, last: Route)
    ensures SomeGone(loss, init + [last]) <==> SomeGone(loss, init) || LosesTarget(loss, last)
  {
    var routes := init + [last];
    if SomeGone(loss, init) {
      var i :| 0 <= i < |init| && LosesTarget(loss, init[i]);
      assert routes[i] == init[i];
    }
    if LosesTarget(loss, last) {
      assert routes[|init|] == last;
    }
    if SomeGone(loss, routes) {
      var i :| 0 <= i < |routes| && LosesTarget(loss, routes[i]);
      assert i < |init| ==> init[i] == routes[i];
    }
  }

  /** Exactly the targets that are not gone are kept. */
  lemma {:induction false} KeptExactly(loss: Loss, targets: seq<Target>, t: Target)
    ensures t in Kept(loss, targets) <==> t in targets && !Gone(loss, t)
  {
    if targets != [] {
      KeptExactly(loss, targets[..|targets| - 1], t);
      assert targets == targets[..|targets| - 1] + [targets[|targets| - 1]];
    }
  }

  /** The positions of the targets that are kept. */
  ghost function KeptAt(loss: Loss, targets: seq<Target>): (at: seq<nat>)
    ensures forall k :: 0 <= k < |at| ==> at[k] < |targets|
  {
    if targets == [] then []
    else KeptAt(loss, targets[..|targets| - 1]) + if Gone(loss, targets[|targets| - 1]) then [] else [|targets| - 1]
  }

  /** The kept targets are those at these positions, in their order and as often. */
  lemma {:induction false} KeptInOrder(loss: Loss, targets: seq<Target>)
    ensures |Kept(loss, targets)| == |KeptAt(loss, targets)|
    ensures forall k :: 0 <= k < |KeptAt(loss, targets)| ==> Kept(loss, targets)[k] == targets[KeptAt(loss, targets)[k]]
    ensures forall j, k :: 0 <= j < k < |KeptAt(loss, targets)| ==> KeptAt(loss, targets)[j] < KeptAt(loss, targets)[k]
  {
    if targets != [] {
      KeptInOrder(loss, targets[..|targets| - 1]);
    }
  }

  lemma KeptAtLast(loss: Loss, targets: seq<Target>, i: nat)
    requires targets != []
    ensures var n := |targets| - 1;
      i in KeptAt(loss, targets) <==> i in KeptAt(loss, targets[..n]) || (i == n && !Gone(loss, targets[n]))
  {
  }

  /** A position is among them exactly when its target is not gone. */
  lemma {:induction false} KeptAtExactly(loss: Loss, targets: seq<Target>, i: nat)
    ensures i in KeptAt(loss, targets) <==> i < |targets| && !Gone(loss, targets[i])
  {
    if targets != [] {
      KeptAtLast(loss, targets, i);
      KeptAtExactly(loss, targets[..|targets| - 1], i);
    }
  }

  ghost predicate NoneGone(loss: Loss, targets: seq<Target>) {
    forall j :: 0 <= j < |targets| ==> !Gone(loss, targets[j])
  }

  lemma {:induction false} KeptAll(loss: Loss, targets: seq<Target>)
    requires NoneGone(loss, targets)
    ensures Kept(loss, targets) == targets
  {
    if targets != [] {
      var init, last := targets[..|targets| - 1], targets[|targets| - 1];
      assert NoneGone(loss, init) && !Gone(loss, last);
      KeptAll(loss, init);
      assert targets == init + [last];
    }
  }

  lemma {:induction false} NothingGoneNothingChanges(loss: Loss, routes: seq<Route>)
    ensures !SomeGone(loss, routes) ==> Reconciled(loss, routes) == routes
  {
    if routes != [] {
      var init, last := routes[..|routes| - 1], routes[|routes| - 1];
      assert routes == init + [last];
      SomeGoneLast(loss, init, last);
      NothingGoneNothingChanges(loss, init);
      if !SomeGone(loss, routes) {
        forall j | 0 <= j < |last.targets|
          ensures !Gone(loss, last.targets[j])
        {
          assert last.targets[j] in last.targets;
        }
        KeptAll(loss, last.targets);
        assert last.(targets := last.targets) == last;
      }
    }
  }

  // ---- Reconciling ---------------------------------------------------------

  /** A second pass with the same view of the vault changes nothing, and neither does
      an earlier pass that saw a subset of what is gone now. */
  lemma {:induction false} KeptTwice(early: Loss, late: Loss, targets: seq<Target>)
    requires forall t :: t in targets && Gone(early, t) ==> Gone(late, t)
    ensures Kept(late, Kept(early, targets)) == Kept(late, targets)
  {
    if targets != [] {
      var init, last := targets[..|targets| - 1], targets[|targets| - 1];
      KeptTwice(early, late, init);
      if !Gone(early, last) {
        assert (Kept(early, init) + [last])[..|Kept(early, init)|] == Kept(early, init);
      } else {
        assert Kept(early, init) + [] == Kept(early, init);
      }
    }
  }

  lemma {:induction false} ReconcilingTwice(early: Loss, late: Loss, routes: seq<Route>)
    requires forall i, t :: 0 <= i < |routes| && t in routes[i].targets && Gone(early, t) ==> Gone(late, t)
    ensures Reconciled(late, Reconciled(early, routes)) == Reconciled(late, routes)
  {
    if routes != [] {
      var init, last := routes[..|routes| - 1], routes[|routes| - 1];
      ReconcilingTwice(early, late, init);
      RouteTwice(early, late, last);
      var once := Reconciled(early, init);
      if Stays(early, last) {
        var pruned := last.(targets := Kept(early, last.targets));
        assert (once + [pruned])[..|once|] == once;
      } else {
        assert once + [] == once;
      }
    }
  }

  lemma RouteTwice(early: Loss, late: Loss, route: Route)
    requires forall t :: t in route.targets && Gone(early, t) ==> Gone(late, t)
    ensures var pruned := route.(targets := Kept(early, route.targets));
      if Stays(early, route)
      then Stays(late, pruned) == Stays(late, route)
        && pruned.(targets := Kept(late, pruned.targets)) == route.(targets := Kept(late, route.targets))
      else !Stays(late, route)
  {
    KeptTwice(early, late, route.targets);
    assert Kept(late, []) == [];
  }

  lemma ReconcilingIsIdempotent(loss: Loss, routes: seq<Route>)
    ensures Reconciled(loss, Reconciled(loss, routes)) == Reconciled(loss, routes)
    ensures !SomeGone(loss, Reconciled(loss, routes))
  {
    ReconcilingTwice(loss, loss, routes);
    ReconciledHasNothingGone(loss, routes);
  }

  lemma {:induction false} ReconciledHasNothingGone(loss: Loss, routes: seq<Route>)
    ensures !SomeGone(loss, Reconciled(loss, routes))
  {
    if routes != [] {
      var init, last := routes[..|routes| - 1], routes[|routes| - 1];
      ReconciledHasNothingGone(loss, init);
      if Stays(loss, last) {
        forall t | t in Kept(loss, last.targets)
          ensures !Gone(loss, t)
        {
          KeptExactly(loss, last.targets, t);
        }
        SomeGoneLast(loss, Reconciled(loss, init), last.(targets := Kept(loss, last.targets)));
      } else {
        assert Reconciled(loss, init) + [] == Reconciled(loss, init);
      }
    }
  }

  /** The position of each surviving route. */
  ghost function Survivors(loss: Loss, routes: seq<Route>): (at: seq<nat>)
    ensures forall k :: 0 <= k < |at| ==> at[k] < |routes|
  {
    if routes == [] then []
    else Survivors(loss, routes[..|routes| - 1]) + if Stays(loss, routes[|routes| - 1]) then [|routes| - 1] else []
  }

  lemma {:induction false} SurvivorsAscend(loss: Loss, routes: seq<Route>)
    ensures forall j, k :: 0 <= j < k < |Survivors(loss, routes)| ==>
      Survivors(loss, routes)[j] < Survivors(loss, routes)[k]
  {
    if routes != [] {
      SurvivorsAscend(loss, routes[..|routes| - 1]);
    }
  }

  lemma SurvivorsLast(loss: Loss, routes: seq<Route>, i: nat)
    requires routes != []
    ensures var n := |routes| - 1;
      i in Survivors(loss, routes) <==> i in Survivors(loss, routes[..n]) || (i == n && Stays(loss, routes[n]))
  {
  }

  lemma {:induction false} SurvivesExactly(loss: Loss, routes: seq<Route>, i: nat)
    ensures i in Survivors(loss, routes) <==> i < |routes| && Stays(loss, routes[i])
  {
    if routes != [] {
      SurvivorsLast(loss, routes, i);
      SurvivesExactly(loss, routes[..|routes| - 1], i);
    }
  }

  /** Routes stay in order and differ from what they were in their targets only. */
  lemma {:induction false} ReconcilingKeepsOrder(loss: Loss, routes: seq<Route>)
    ensures forall j, k :: 0 <= j < k < |Survivors(loss, routes)| ==>
      Survivors(loss, routes)[j] < Survivors(loss, routes)[k]
    ensures |Reconciled(loss, routes)| == |Survivors(loss, routes)|
    ensures forall k :: 0 <= k < |Survivors(loss, routes)| ==>
      Reconciled(loss, routes)[k] == Pruned(loss, routes[Survivors(loss, routes)[k]])
  {
    SurvivorsAscend(loss, routes);
    if routes != [] {
      ReconcilingKeepsOrder(loss, routes[..|routes| - 1]);
    }
  }

  ghost function Pruned(loss: Loss, route: Route): Route {
    route.(targets := Kept(loss, route.targets))
  }

  /** A route is dropped exactly when it had targets and each of them is gone. */
  lemma DroppedExactly(loss: Loss, routes: seq<Route>, i: nat)
    requires i < |routes|
    ensures i !in Survivors(loss, routes) <==>
      routes[i].targets != [] && forall t :: t in routes[i].targets ==> Gone(loss, t)
  {
    StaysExactly(loss, routes[i]);
    SurvivesExactly(loss, routes, i);
  }

  lemma StaysExactly(loss: Loss, route: Route)
    ensures Stays(loss, route) <==> route.targets == [] || exists t :: t in route.targets && !Gone(loss, t)
  {
    if Kept(loss, route.targets) != [] {
      KeptExactly(loss, route.targets, Kept(loss, route.targets)[0]);
    }
    forall t | t in route.targets
      ensures !Gone(loss, t) ==> t in Kept(loss, route.targets)
    {
      KeptExactly(loss, route.targets, t);
    }
  }

  // ---- Rolling back --------------------------------------------------------

  /** After a load that succeeds the stored copy, if there is one, is the one in
      memory, with a token on every route. */
  lemma LoadAgrees(s: State, f: LoadFault)
    requires Load(s, f).1
    ensures var loaded := Load(s, f).0;
      && !loaded.pendingDisabled && loaded.handle == s.handle
      && (s.stored.Some? ==> loaded.stored == Some(loaded.config) && Clean(loaded.config))
      && (s.stored.None? ==> loaded.config == s.config && loaded.stored.None?)
  {
  }

  /** The stored copy is what a failed operation found, or what it put back. */
  predicate StoredRestored(loaded: State, after: State) {
    after.stored == loaded.stored || after.stored == Some(loaded.config)
  }

  /** Two configurations that differ in more than the switch. */
  predicate Differs(a: Config, b: Config) {
    a.bind != b.bind || a.routes != b.routes
  }

  /** A failed change of the whole configuration leaves memory as it was loaded.  The
      stored copy follows unless the first save failed late, which has no
      compensating save, or the compensating save was lost. */
  lemma SetConfigRollsBack(s: State, config: Config, f: SetFault)
    requires Load(s, f.load).1 && !SetConfig(s, config, f).1
    ensures SetConfig(s, config, f).0.config == Load(s, f.load).0.config
    ensures !f.valid || f.save.Lost? || (f.save.Done? && !f.undoSave.Lost?) ==>
      StoredRestored(Load(s, f.load).0, SetConfig(s, config, f).0)
    ensures Differs(config.(routes := EnsureTokens(config.routes, f.load.salt)), Load(s, f.load).0.config) ==>
      (StoredRestored(Load(s, f.load).0, SetConfig(s, config, f).0) <==>
        !f.valid || f.save.Lost? || (f.save.Done? && !f.undoSave.Lost?))
  {
    var loaded := Load(s, f.load).0;
    LoadAgrees(s, f.load);
    if f.valid && f.save.Done? {
      var wanted := config.(routes := EnsureTokens(config.routes, f.load.salt));
      var saved := Save(loaded.(config := wanted), f.save).0;
      ApplyKeepsRoutes(saved, f.restart, f.stop);
    }
  }

  lemma ApplyKeepsRoutes(s: State, restart: RestartFault, stop: StopFault)
    requires s.stored == Some(s.config) && Clean(s.config) && !s.pendingDisabled
    ensures var after := ApplyRuntime(s, restart, stop).0;
      && after.stored.Some? && !Differs(after.stored.value, s.config) && !Differs(after.config, s.config)
  {
  }

  /** Enabling a route or rotating a token: on failure memory is as it was loaded, and
      so is the stored copy unless the change was saved and the compensating save
      was lost. */
  lemma ChangeRollsBack(loaded: State, config: Config, f: ChangeFault)
    requires !Change(loaded, config, f).1
    ensures Change(loaded, config, f).0.config == loaded.config
    ensures config != loaded.config && loaded.stored != Some(config) ==>
      (StoredRestored(loaded, Change(loaded, config, f).0) <==> f.save.Lost? || !f.undoSave.Lost?)
    ensures !f.undoSave.Lost? ==> Change(loaded, config, f).0.stored == Some(loaded.config)
  {
  }

  lemma SetRouteEnabledRollsBack(s: State, id: Id, enabled: bool, f: ChangeFault)
    requires Load(s, f.load).1 && !SetRouteEnabled(s, id, enabled, f).1
    ensures SetRouteEnabled(s, id, enabled, f).0.config == Load(s, f.load).0.config
    ensures !f.undoSave.Lost? || f.save.Lost? ==>
      StoredRestored(Load(s, f.load).0, SetRouteEnabled(s, id, enabled, f).0)
  {
  }

  lemma RotateTokenRollsBack(s: State, id: Id, token: nat, f: ChangeFault)
    requires Load(s, f.load).1 && !RotateToken(s, id, token, f).1
    ensures RotateToken(s, id, token, f).0.config == Load(s, f.load).0.config
    ensures !f.undoSave.Lost? || f.save.Lost? ==>
      StoredRestored(Load(s, f.load).0, RotateToken(s, id, token, f).0)
  {
  }

  /** The configurations in memory, in the file and in the listener are the same. */
  predicate AllAgree(s: State) {
    s.stored == Some(s.config) && (s.handle.Some? ==> s.handle.value == Handle(true, s.config))
  }

  lemma SetConfigAgrees(s: State, config: Config, f: SetFault)
    requires SetConfig(s, config, f).1
    ensures var after := SetConfig(s, config, f).0;
      && AllAgree(after)
      && !Differs(after.config, config.(routes := EnsureTokens(config.routes, f.load.salt)))
      && (after.handle.Some? ==> config.enabled && HasEnabledRoute(config))
  {
    LoadAgrees(s, f.load);
    var loaded := Load(s, f.load).0;
    var wanted := config.(routes := EnsureTokens(config.routes, f.load.salt));
    if HasEnabledRoute(wanted) {
      var i :| 0 <= i < |wanted.routes| && wanted.routes[i].enabled;
      assert wanted.routes[i] == Filled(config.routes[i], f.load.salt + i);
    }
    ApplyKeepsRoutes(Save(loaded.(config := wanted), f.save).0, f.restart, f.stop);
  }

  /** Exactly one route changes, by its switch alone. */
  lemma SetRouteEnabledAgrees(s: State, id: Id, enabled: bool, f: ChangeFault)
    requires SetRouteEnabled(s, id, enabled, f).1
    ensures var loaded, after := Load(s, f.load).0.config, SetRouteEnabled(s, id, enabled, f).0;
      && AllAgree(after)
      && |after.config.routes| == |loaded.routes|
      && after.config == loaded.(routes := after.config.routes, enabled := loaded.enabled || enabled)
      && exists i :: (0 <= i < |loaded.routes| && loaded.routes[i].id == id
                      && after.config.routes == loaded.routes[i := loaded.routes[i].(enabled := enabled)])
  {
    var loaded := Load(s, f.load).0.config;
    var i := IndexOf(loaded.routes, id).value;
    assert loaded.routes[i].id == id;
  }

  lemma RotateTokenAgrees(s: State, id: Id, token: nat, f: ChangeFault)
    requires RotateToken(s, id, token, f).1
    ensures var loaded, after := Load(s, f.load).0.config, RotateToken(s, id, token, f).0;
      && AllAgree(after)
      && after.config == loaded.(routes := after.config.routes)
      && exists i :: (0 <= i < |loaded.routes| && loaded.routes[i].id == id
                      && after.config.routes == loaded.routes[i := loaded.routes[i].(token := Token(token))])
  {
    var loaded := Load(s, f.load).0.config;
    var i := IndexOf(loaded.routes, id).value;
    assert loaded.routes[i].id == id;
  }

  // ---- Whole runs ----------------------------------------------------------

  datatype Event =
    | ReadConfig(load: LoadFault)
    | SetAll(config: Config, fault: SetFault)
    | EnableRoute(id: Id, enabled: bool, change: ChangeFault)
    | RotateRoute(id: Id, token: nat, change: ChangeFault)
    | StartProxy(start: StartFault)
    | RestoreProxy(load: LoadFault, start: StartFault)
    | StopLocked
    | StopUnlocked(stop: StopFault)
    | LockSession
    | ReconcileAll(reconcile: ReconcileFault)
    | RefreshEntry(refresh: RefreshFault)
    | RemoveEntry(entry: Id, secret: Option<Id>, remove: RemoveFault)
    | ReloadProxy(reload: ReloadFault)
    | ListenerDies
    | ResetVault(wiped: bool)

  function Next(s: State, event: Event): State {
    match event
    case ReadConfig(f) => Load(s, f).0
    case SetAll(config, f) => SetConfig(s, config, f).0
    case EnableRoute(id, enabled, f) => SetRouteEnabled(s, id, enabled, f).0
    case RotateRoute(id, token, f) => RotateToken(s, id, token, f).0
    case StartProxy(f) => Start(s, f).0
    case RestoreProxy(load, f) => StartIfEnabled(s, load, f).0
    case StopLocked => StopWhileLocked(s)
    case StopUnlocked(f) => StopAndSave(s, f).0
    case LockSession => LockForSession(s)
    case ReconcileAll(f) => Reconcile(s, f).0
    case RefreshEntry(f) => Refresh(s, f).0
    case RemoveEntry(entry, secret, f) => RemoveProvider(s, entry, secret, f).0
    case ReloadProxy(f) => ReloadIfRunning(s, f).0
    case ListenerDies => if s.handle.None? then s else s.(handle := Some(s.handle.value.(running := false)))
    case ResetVault(wiped) => s.(config := DEFAULT, handle := None, stored := if wiped then None else s.stored)
  }

  /** A process starts with whatever is stored. */
  function Run(stored: Option<Config>, events: seq<Event>): State {
    if events == [] then INITIAL.(stored := stored)
    else Next(Run(stored, events[..|events| - 1]), events[|events| - 1])
  }

  predicate ExplicitEnable(event: Event) {
    || event.StartProxy?
    || (event.EnableRoute? && event.enabled)
    || (event.SetAll? && event.config.enabled)
  }

  /** A stop that took effect, with no explicit enable since. */
  predicate Stopped(stored: Option<Config>, events: seq<Event>) {
    if events == [] then false
    else
      var init, last := events[..|events| - 1], events[|events| - 1];
      || last.StopLocked?
      || (last.StopUnlocked? && StopAndSave(Run(stored, init), last.stop).1)
      || (Stopped(stored, init) && !ExplicitEnable(last))
  }

  /** Nothing runs, and nothing that can be loaded says that something should. */
  ghost predicate Off(s: State) {
    && s.handle.None?
    && (s.stored.Some? ==> s.pendingDisabled || !s.stored.value.enabled)
    && (s.stored.None? ==> !s.config.enabled)
  }

  lemma LoadKeepsOff(s: State, f: LoadFault)
    requires Off(s)
    ensures Off(Load(s, f).0)
    ensures Load(s, f).1 ==> !Load(s, f).0.config.enabled && !Load(s, f).0.pendingDisabled
  {
  }

  lemma SetConfigKeepsOff(s: State, config: Config, f: SetFault)
    requires Off(s) && !config.enabled
    ensures Off(SetConfig(s, config, f).0)
  {
    LoadKeepsOff(s, f.load);
  }

  lemma ChangeKeepsOff(loaded: State, config: Config, f: ChangeFault)
    requires Off(loaded) && !loaded.config.enabled && !config.enabled
    ensures Off(Change(loaded, config, f).0)
  {
  }

  lemma RouteKeepsOff(s: State, id: Id, token: nat, f: ChangeFault)
    requires Off(s)
    ensures Off(SetRouteEnabled(s, id, false, f).0) && Off(RotateToken(s, id, token, f).0)
  {
    LoadKeepsOff(s, f.load);
    var loaded := Load(s, f.load).0;
    var found := IndexOf(loaded.config.routes, id);
    if Load(s, f.load).1 && found.Some? {
      var routes, i := loaded.config.routes, found.value;
      var off := loaded.config.(routes := routes[i := routes[i].(enabled := false)],
                                enabled := loaded.config.enabled || false);
      ChangeKeepsOff(loaded, off, f);
      ChangeKeepsOff(loaded, loaded.config.(routes := routes[i := routes[i].(token := Token(token))]), f);
    }
  }

  lemma DropKeepsOff(s: State, loss: Loss, f: DropFault)
    requires Off(s)
    ensures Off(DropTargets(s, loss, f).0)
  {
    LoadKeepsOff(s, f.load);
  }

  lemma RefreshKeepsOff(s: State, f: RefreshFault)
    requires Off(s)
    ensures Off(Refresh(s, f).0)
  {
    LoadKeepsOff(s, f.load);
    var (loaded, ok) := Load(s, f.load);
    if ok {
      DropKeepsOff(loaded, MissingFrom(f.reconcile.vault), f.reconcile.drop);
      LoadKeepsOff(loaded, f.reconcile.drop.load);
    }
  }

  lemma StepKeepsOff(s: State, event: Event)
    requires Off(s) && !ExplicitEnable(event)
    ensures Off(Next(s, event))
  {
    match event
    case ReadConfig(f) => LoadKeepsOff(s, f);
    case SetAll(config, f) => SetConfigKeepsOff(s, config, f);
    case EnableRoute(id, enabled, f) => RouteKeepsOff(s, id, 0, f);
    case RotateRoute(id, token, f) => RouteKeepsOff(s, id, token, f);
    case RestoreProxy(load, f) => LoadKeepsOff(s, load);
    case StopUnlocked(f) => LoadKeepsOff(s, f.load);
    case ReconcileAll(f) => DropKeepsOff(s, MissingFrom(f.vault), f.drop);
    case RefreshEntry(f) => RefreshKeepsOff(s, f);
    case RemoveEntry(entry, secret, f) => DropKeepsOff(s, RemovedEntry(entry, secret), f.drop);
    case _ =>
  }

  lemma {:induction false} StoppedIsOff(stored: Option<Config>, events: seq<Event>)
    requires Stopped(stored, events)
    ensures Off(Run(stored, events))
  {
    var init, last := events[..|events| - 1], events[|events| - 1];
    if last.StopLocked? {
    } else if last.StopUnlocked? && StopAndSave(Run(stored, init), last.stop).1 {
      LoadAgrees(Run(stored, init), last.stop.load);
    } else {
      StoppedIsOff(stored, init);
      StepKeepsOff(Run(stored, init), last);
    }
  }

  /** However locks, unlocks and failing saves are mixed, a proxy that was stopped is
      not brought back by a restore before someone enables it. */
  lemma StoppedIsNotRestored(stored: Option<Config>, events: seq<Event>, load: LoadFault, f: StartFault)
    requires Stopped(stored, events)
    ensures StartIfEnabled(Run(stored, events), load, f).0.handle.None?
  {
    StoppedIsOff(stored, events);
    StepKeepsOff(Run(stored, events), RestoreProxy(load, f));
  }

  // ---- Blanked tokens are not saved ----------------------------------------

  ghost predicate StoresTokens(s: State) {
    s.stored.Some? && Clean(s.stored.value)
  }

  lemma LoadKeepsTokens(s: State, f: LoadFault)
    requires StoresTokens(s)
    ensures StoresTokens(Load(s, f).0) && (f.readable ==> Clean(Load(s, f).0.config))
    ensures Load(s, f).1 ==> f.readable
    ensures Clean(s.config) ==> Clean(Load(s, f).0.config)
    ensures !f.readable ==> Load(s, f) == (s, false)
  {
  }

  lemma {:induction false} ReconciledIsClean(loss: Loss, routes: seq<Route>)
    requires CleanRoutes(routes)
    ensures CleanRoutes(Reconciled(loss, routes))
  {
    if routes != [] {
      ReconciledIsClean(loss, routes[..|routes| - 1]);
    }
  }

  lemma ReloadKeepsTokens(s: State, f: ReloadFault)
    requires StoresTokens(s)
    ensures StoresTokens(ReloadIfRunning(s, f).0)
    ensures Clean(s.config) ==> Clean(ReloadIfRunning(s, f).0.config)
  {
    LoadKeepsTokens(s, f.load);
  }

  lemma DropKeepsTokens(s: State, loss: Loss, f: DropFault)
    requires StoresTokens(s)
    ensures StoresTokens(DropTargets(s, loss, f).0)
    ensures Clean(s.config) || f.load.readable ==> Clean(DropTargets(s, loss, f).0.config)
    ensures DropTargets(s, loss, f).1 ==> f.load.readable
    ensures !f.load.readable ==> DropTargets(s, loss, f) == (s, false)
  {
    LoadKeepsTokens(s, f.load);
    var (loaded, ok) := Load(s, f.load);
    if ok && SomeGone(loss, loaded.config.routes) {
      ReconciledIsClean(loss, loaded.config.routes);
      var pruned := loaded.(config := loaded.config.(routes := Reconciled(loss, loaded.config.routes)));
      ReloadKeepsTokens(Save(pruned, f.save).0, f.reload);
    }
  }

  lemma StopKeepsTokens(s: State, f: StopFault)
    requires StoresTokens(s)
    ensures StoresTokens(StopAndSave(s, f).0)
  {
    LoadKeepsTokens(s, f.load);
  }

  lemma SetConfigKeepsTokens(s: State, config: Config, f: SetFault)
    requires StoresTokens(s)
    ensures StoresTokens(SetConfig(s, config, f).0)
  {
    LoadKeepsTokens(s, f.load);
    var (loaded, ok) := Load(s, f.load);
    var wanted := config.(routes := EnsureTokens(config.routes, f.load.salt));
    var saved := Save(loaded.(config := wanted), f.save).0;
    if ok && f.valid && f.save.Done? {
      StopKeepsTokens(saved, f.stop);
    }
  }

  lemma ChangeKeepsTokens(loaded: State, config: Config, f: ChangeFault)
    requires StoresTokens(loaded) && Clean(loaded.config) && Clean(config)
    ensures StoresTokens(Change(loaded, config, f).0)
  {
  }

  lemma RouteKeepsTokens(s: State, id: Id, enabled: bool, token: nat, f: ChangeFault)
    requires StoresTokens(s)
    ensures StoresTokens(SetRouteEnabled(s, id, enabled, f).0) && StoresTokens(RotateToken(s, id, token, f).0)
  {
    LoadKeepsTokens(s, f.load);
    var (loaded, ok) := Load(s, f.load);
    var found := IndexOf(loaded.config.routes, id);
    if ok && found.Some? {
      var routes, i := loaded.config.routes, found.value;
      ChangeKeepsTokens(loaded, loaded.config.(routes := routes[i := routes[i].(enabled := enabled)],
                                               enabled := loaded.config.enabled || enabled), f);
      ChangeKeepsTokens(loaded, loaded.config.(routes := routes[i := routes[i].(token := Token(token))]), f);
    }
  }

  lemma StartKeepsTokens(s: State, f: StartFault)
    requires StoresTokens(s)
    ensures StoresTokens(Start(s, f).0)
  {
    var down := s.(handle := None);
    LoadKeepsTokens(down, f.load);
    if Load(down, f.load).1 {
      DropKeepsTokens(Load(down, f.load).0, MissingFrom(f.reconcile.vault), f.reconcile.drop);
    }
  }

  /** The two operations that may save after their opening load failed: a refresh, if a
      listener runs, and the removal of an entry, in any case. */
  predicate SavesBlanks(s: State, event: Event) {
    match event
    case RefreshEntry(f) => Running(s) && !f.load.readable && !Clean(s.config) && !f.lastSave.Lost?
    case RemoveEntry(_, _, f) => !f.drop.load.readable && !Clean(s.config) && !f.lastSave.Lost?
    case _ => false
  }

  lemma RefreshBodyKeepsTokens(s: State, f: RefreshFault)
    requires StoresTokens(s) && f.load.readable
    ensures StoresTokens(RefreshBody(s, f).0) && Clean(RefreshBody(s, f).0.config)
  {
    LoadKeepsTokens(s, f.load);
    var (loaded, ok) := Load(s, f.load);
    if ok {
      DropKeepsTokens(loaded, MissingFrom(f.reconcile.vault), f.reconcile.drop);
      var pruned := Reconcile(loaded, f.reconcile).0;
      var saved := if f.changed then Save(pruned, f.save).0 else pruned;
      ReloadKeepsTokens(saved, f.reload);
    }
  }

  lemma RefreshKeepsTokensExactly(s: State, f: RefreshFault)
    requires StoresTokens(s)
    ensures StoresTokens(Refresh(s, f).0) <==> !SavesBlanks(s, RefreshEntry(f))
  {
    if f.load.readable {
      RefreshBodyKeepsTokens(s, f);
    }
  }

  lemma RemovalKeepsTokensExactly(s: State, entry: Id, secret: Option<Id>, f: RemoveFault)
    requires StoresTokens(s)
    ensures StoresTokens(RemoveProvider(s, entry, secret, f).0) <==> !SavesBlanks(s, RemoveEntry(entry, secret, f))
  {
    DropKeepsTokens(s, RemovedEntry(entry, secret), f.drop);
  }

  /** A step stores a blank token exactly when it is one of those two, finds the file
      unreadable and memory blanked, and its last save lands. */
  lemma StepKeepsTokensExactly(s: State, event: Event)
    requires StoresTokens(s) && !event.ResetVault?
    ensures StoresTokens(Next(s, event)) <==> !SavesBlanks(s, event)
  {
    match event
    case ReadConfig(f) => LoadKeepsTokens(s, f);
    case SetAll(config, f) => SetConfigKeepsTokens(s, config, f);
    case EnableRoute(id, enabled, f) => RouteKeepsTokens(s, id, enabled, 0, f);
    case RotateRoute(id, token, f) => RouteKeepsTokens(s, id, true, token, f);
    case StartProxy(f) => StartKeepsTokens(s, f);
    case RestoreProxy(load, f) =>
      LoadKeepsTokens(s, load);
      StartKeepsTokens(Load(s, load).0, f);
    case StopUnlocked(f) => StopKeepsTokens(s, f);
    case ReconcileAll(f) => DropKeepsTokens(s, MissingFrom(f.vault), f.drop);
    case RefreshEntry(f) => RefreshKeepsTokensExactly(s, f);
    case RemoveEntry(entry, secret, f) => RemovalKeepsTokensExactly(s, entry, secret, f);
    case ReloadProxy(f) => ReloadKeepsTokens(s, f);
    case _ =>
  }

  /** No step of the run saves after failing to load. */
  ghost predicate Careful(stored: Option<Config>, events: seq<Event>) {
    events == [] || (
      && Careful(stored, events[..|events| - 1])
      && !events[|events| - 1].ResetVault?
      && !SavesBlanks(Run(stored, events[..|events| - 1]), events[|events| - 1]))
  }

  /** Locking blanks the tokens in memory; the stored ones outlive any mix of locks,
      failures and operations. */
  lemma {:induction false} StoredTokensSurvive(config: Config, events: seq<Event>)
    requires Clean(config) && Careful(Some(config), events)
    ensures StoresTokens(Run(Some(config), events))
  {
    if events != [] {
      StoredTokensSurvive(config, events[..|events| - 1]);
      StepKeepsTokensExactly(Run(Some(config), events[..|events| - 1]), events[|events| - 1]);
    }
  }

  /** The removal of an entry after the session was locked, with no listener and nothing
      to remove, saves blanks when it cannot read the file. */
  lemma {:induction false} FailedRemovalSavesBlanks(config: Config, load: LoadFault, entry: Id, f: RemoveFault)
    requires config.routes != [] && Clean(config) && load.readable
    requires !f.drop.load.readable && f.lastSave.Done?
    ensures !StoresTokens(Run(Some(config), [ReadConfig(load), LockSession, RemoveEntry(entry, None, f)]))
  {
    RunOfThree(Some(config), ReadConfig(load), LockSession, RemoveEntry(entry, None, f));
    assert config.(routes := config.routes, enabled := config.enabled) == config;
    var read := State(config, Some(config), None, false);
    assert Load(INITIAL.(stored := Some(config)), load).0 == read;
    var locked := LockForSession(read);
    assert locked.config.routes[0].token.Blank?;
    RemovalKeepsTokensExactly(locked, entry, None, f);
  }

  /** A refresh whose load fails after the session was locked does save blanks. */
  lemma {:induction false} FailedRefreshSavesBlanks(config: Config, start: StartFault, f: RefreshFault)
    requires config.routes != [] && Clean(config) && HasEnabledRoute(config) && config.enabled
    requires start.load.readable && start.reconcile.drop.load.readable && start.valid && start.works && start.save.Done?
    requires !SomeGone(MissingFrom(start.reconcile.vault), config.routes)
    requires !f.load.readable && f.lastSave.Done?
    ensures !StoresTokens(Run(Some(config), [StartProxy(start), LockSession, RefreshEntry(f)]))
  {
    RunOfThree(Some(config), StartProxy(start), LockSession, RefreshEntry(f));
    StartsAsStored(config, start);
    LockedRefreshSavesBlanks(config, f);
  }

  lemma {:induction false} LockedRefreshSavesBlanks(config: Config, f: RefreshFault)
    requires config.routes != [] && Clean(config) && !f.load.readable && f.lastSave.Done?
    ensures !StoresTokens(Refresh(LockForSession(State(config, Some(config), Some(Handle(true, config)), false)), f).0)
  {
    var locked := LockForSession(State(config, Some(config), Some(Handle(true, config)), false));
    assert locked.config.routes[0].token.Blank?;
    RefreshKeepsTokensExactly(locked, f);
  }

  lemma {:induction false} RunOfThree(stored: Option<Config>, a: Event, b: Event, c: Event)
    ensures Run(stored, [a, b, c]) == Next(Next(Next(INITIAL.(stored := stored), a), b), c)
  {
    assert [a, b, c][..2] == [a, b] && [a, b][..1] == [a] && [a][..0] == [];
    assert Run(stored, []) == INITIAL.(stored := stored);
    assert Run(stored, [a]) == Next(Run(stored, []), a);
    assert Run(stored, [a, b]) == Next(Run(stored, [a]), b);
  }

  lemma StartsAsStored(config: Config, f: StartFault)
    requires Clean(config) && HasEnabledRoute(config) && config.enabled
    requires f.load.readable && f.reconcile.drop.load.readable && f.valid && f.works && f.save.Done?
    requires !SomeGone(MissingFrom(f.reconcile.vault), config.routes)
    ensures Start(INITIAL.(stored := Some(config)), f).0
      == State(config, Some(config), Some(Handle(true, config)), false)
  {
    var initial := INITIAL.(stored := Some(config));
    var read := State(config, Some(config), None, false);
    assert Load(initial, f.load) == (read, true);
    assert Load(read, f.reconcile.drop.load) == (read, true);
    assert Reconcile(read, f.reconcile) == (read, true);
  }
}
