/** Rotation of subscription logins (crates/aipass-agent/src/community.rs).

    A provider hands out a new login and revokes the old one, so a rotated login
    must not be lost between its arrival and its commit to the encrypted vault.
    It is staged in memory, written by compare-and-set, read back when the
    acknowledgement is lost, and replayed by the next load.

    Owner checks compare login documents field by field; here they are a rule
    passed in by the caller. */
module AccountRotation {
  import opened Wrappers

  type Id = nat
  type Login = string
  type OwnerRule = (Login, Login) -> bool

  const U64_MAX: nat := 0xFFFF_FFFF_FFFF_FFFF

  datatype Account = Account(
    generation: Id,
    binding: Option<Id>,
    revision: nat,
    auth: Login,
    models: string,
    feedback: string
  )

  /** A frame sent by the provider adapter. */
  datatype Frame = AuthFrame(auth: Login) | ModelsFrame(models: string) | FeedbackFrame(feedback: string)

  /** The record an update wants to write over `account`. */
  function Updated(account: Account, frame: Frame): Account {
    var next := account.(revision := account.revision + 1);
    match frame
    case AuthFrame(auth) => next.(auth := auth)
    case ModelsFrame(models) => next.(models := models)
    case FeedbackFrame(feedback) => next.(feedback := feedback)
  }

  /** A staged rotation: the record it was computed from and the rotated record. */
  datatype Staged = Staged(before: Account, next: Account)

  /** Whether a staged rotation still applies to the record just read. */
  predicate Applies(staged: Staged, current: Account) {
    && current.generation == staged.before.generation
    && current.binding == staged.before.binding
    && current.revision == staged.before.revision
    && current.auth == staged.before.auth
  }

  /** What staging decides before anything is written. */
  datatype Verdict = Admitted | Overflow | Revoked | ForeignOwner

  function Admission(rule: OwnerRule, account: Account, frame: Frame, epoch: nat, current: nat): Verdict {
    if account.revision >= U64_MAX then Overflow
    else if epoch != current then Revoked
    else if frame.AuthFrame? && !rule(account.auth, frame.auth) then ForeignOwner
    else Admitted
  }

  /** The vault's compare-and-set: the marker names the generation read, and the
      record must still be at the revision the writer read. */
  predicate Accepts(rule: OwnerRule, record: Option<Account>, marker: Id, revision: nat, next: Account) {
    && record.Some?
    && record.value.generation == marker
    && record.value.revision == revision
    && next.revision == revision + 1 <= U64_MAX
    && next.generation == record.value.generation
    && next.binding == record.value.binding
    && rule(record.value.auth, next.auth)
  }

  predicate Readable(record: Option<Account>, marker: Id) {
    record.Some? && record.value.generation == marker
  }

  /** How the connection to the vault behaves during one write. */
  datatype Link = Link(requestArrives: bool, replyArrives: bool, readBackWorks: bool)

  /** What one call leaves of an account: the record, what is staged, and the answer. */
  datatype Written = Written(record: Option<Account>, staged: Option<Staged>, result: Result<Account, Verdict>)

  function UpdateOnce(rule: OwnerRule, record: Option<Account>, staged: Option<Staged>, marker: Id, account: Account,
      frame: Frame, epoch: nat, current: nat, link: Link): Written
  {
    var verdict := Admission(rule, account, frame, epoch, current);
    if verdict != Admitted then Written(record, staged, Failure(verdict))
    else
      var next := Updated(account, frame);
      var accepted := link.requestArrives && Accepts(rule, record, marker, account.revision, next);
      var written := if accepted then Some(next) else record;
      if (accepted && link.replyArrives) || (link.readBackWorks && Readable(written, marker) && written.value == next)
      then Written(written, None, Success(next))
      else Written(written, if frame.AuthFrame? then Some(Staged(account, next)) else staged, Failure(Admitted))
  }

  function LoadOnce(rule: OwnerRule, record: Option<Account>, staged: Option<Staged>, marker: Id, readWorks: bool,
      epoch: nat, link: Link): Written
  {
    if !readWorks || !Readable(record, marker) then Written(record, staged, Failure(Revoked))
    else if staged.Some? && Applies(staged.value, record.value) then
      UpdateOnce(rule, record, staged, marker, record.value, AuthFrame(staged.value.next.auth), epoch, epoch, link)
    else Written(record, None, Success(record.value))
  }

  // ---- The bridge ----------------------------------------------------------

  class CommunityBridge {
    const rule: OwnerRule
    var vault: map<Id, Account>
    var epoch: nat
    var pending: map<Id, Staged>

    constructor (rule: OwnerRule)
      ensures this.rule == rule && vault == map[] && pending == map[] && epoch == 0
    {
      this.rule := rule;
      vault, pending, epoch := map[], map[], 0;
    }

    function Record(id: Id): Option<Account>
      reads this
    {
      if id in vault then Some(vault[id]) else None
    }

    function PendingOf(id: Id): Option<Staged>
      reads this
    {
      if id in pending then Some(pending[id]) else None
    }

    /** The staged login that applies to `current`; one that does not is dropped. */
    method Candidate(id: Id, current: Account) returns (found: Option<Account>)
      modifies this`pending
      ensures id in old(pending) && Applies(old(pending)[id], current) ==>
        found == Some(old(pending)[id].next) && pending == old(pending)
      ensures !(id in old(pending) && Applies(old(pending)[id], current)) ==>
        found == None && pending == old(pending) - {id}
    {
      if id !in pending {
        return None;
      }
      if Applies(pending[id], current) {
        return Some(pending[id].next);
      }
      pending := pending - {id};
      found := None;
    }

    /** Invalidate everything staged, and every operation still running. */
    method Revoke()
      modifies this`pending, this`epoch
      ensures pending == map[] && epoch == (old(epoch) + 1) % (U64_MAX + 1)
    {
      epoch := (epoch + 1) % (U64_MAX + 1);
      pending := map[];
    }

    method Write(id: Id, marker: Id, revision: nat, next: Account, link: Link) returns (acknowledged: bool)
      modifies this`vault
      ensures var accepted := link.requestArrives && Accepts(rule, old(Record(id)), marker, revision, next);
        && vault == (if accepted then old(vault)[id := next] else old(vault))
        && acknowledged == (accepted && link.replyArrives)
    {
      if !link.requestArrives || !Accepts(rule, Record(id), marker, revision, next) {
        return false;
      }
      vault := vault[id := next];
      acknowledged := link.replyArrives;
    }

    /** Write a frame over the caller's copy.  Success means the vault holds the
        copy returned; on failure either nothing was written, or what was written
        is the record still staged when the frame was a login.  No other account
        is touched. */
    method Update(id: Id, marker: Id, account: Account, frame: Frame, epoch: nat, link: Link)
      returns (result: Result<Account, Verdict>)
      modifies this`vault, this`pending
      ensures OthersKept(old(vault), vault, id) && OthersKept(old(pending), pending, id)
      ensures Written(Record(id), PendingOf(id), result)
        == UpdateOnce(rule, old(Record(id)), old(PendingOf(id)), marker, account, frame, epoch, this.epoch, link)
      ensures var next := Updated(account, frame);
        && (result.Success? ==> result.value == next && Record(id) == Some(next) && pending == old(pending) - {id})
        && (result.Failure? && result.error != Admitted ==>
          result.error == Admission(rule, account, frame, epoch, this.epoch)
          && vault == old(vault) && pending == old(pending))
        && (result == Failure(Admitted) ==>
          && Record(id) in {old(Record(id)), Some(next)}
          && pending == if frame.AuthFrame? then old(pending)[id := Staged(account, next)] else old(pending))
    {
      var verdict := Admission(rule, account, frame, epoch, this.epoch);
      if verdict != Admitted {
        return Failure(verdict);
      }
      var next := Updated(account, frame);
      if frame.AuthFrame? {
        pending := pending[id := Staged(account, next)];
      }
      var acknowledged := Write(id, marker, account.revision, next, link);
      if !acknowledged {
        if !link.readBackWorks || !Readable(Record(id), marker) || vault[id] != next {
          return Failure(Admitted);
        }
      }
      pending := pending - {id};
      result := Success(next);
    }

    /** Read an account and finish a rotation left unfinished by an earlier operation. */
    method Load(id: Id, marker: Id, readWorks: bool, link: Link) returns (result: Result<Account, Verdict>)
      modifies this`vault, this`pending
      ensures OthersKept(old(vault), vault, id) && OthersKept(old(pending), pending, id)
      ensures Written(Record(id), PendingOf(id), result)
        == LoadOnce(rule, old(Record(id)), old(PendingOf(id)), marker, readWorks, epoch, link)
      ensures result.Success? ==> Record(id) == Some(result.value) && id !in pending
      ensures result.Success? && id in old(pending) && old(Record(id)) == Some(old(pending)[id].before) ==>
        result.value == Updated(old(pending)[id].before, AuthFrame(old(pending)[id].next.auth))
      ensures result.Success? ==>
        vault == old(vault) || (id in old(pending) && id in old(vault) && Applies(old(pending)[id], old(vault)[id]))
    {
      if !readWorks || !Readable(Record(id), marker) {
        return Failure(Revoked);
      }
      var account := vault[id];
      var recovered := Candidate(id, account);
      if recovered.Some? {
        result := Update(id, marker, account, AuthFrame(recovered.value.auth), epoch, link);
      } else {
        result := Success(account);
      }
    }
  }

  ghost predicate OthersKept<T>(before: map<Id, T>, after: map<Id, T>, id: Id) {
    forall other :: other != id ==>
      (other in after <==> other in before) && (other in before && other in after ==> after[other] == before[other])
  }

  // ---- One account under interleaving --------------------------------------
  //
  // Between any two steps of an operation the vault may be edited, the bridge may
  // be revoked, and other operations may run.  Everything but the epoch is kept
  // per account, so the machine below follows a single account.

  datatype Task = Task(locked: bool, recovered: Option<Login>, stage: Stage)

  datatype Stage =
    | Loading(marker: Id)
    | Loaded(marker: Id, account: Account)
    | Updating(phase: Phase, update: Update)
    | Entering(account: Account)
    | Ready(account: Account, epoch: nat)

  datatype Phase = Staging | Writing | Unconfirmed | Settling

  datatype Update = Update(marker: Id, account: Account, frame: Frame, epoch: nat, loading: bool)

  /** `held` collects every record the vault has held; `accepted` collects every
      rotation staged since the last revocation. */
  datatype State = State(
    record: Option<Account>,
    staged: Option<Staged>,
    epoch: nat,
    tasks: map<nat, Task>,
    held: set<Account>,
    accepted: set<Staged>
  )

  const INITIAL := State(None, None, 0, map[], {}, {})

  datatype Event =
    | Start(task: nat, marker: Id, locked: bool)
    | Read(task: nat, works: bool)
    | Consider(task: nat)
    | Enter(task: nat)
    | Receive(task: nat, frame: Frame)
    | Reread(task: nat)
    | Stage(task: nat)
    | Send(task: nat, arrives: bool, acknowledged: bool)
    | ReadBack(task: nat, works: bool)
    | Settle(task: nat)
    | Finish(task: nat)
    | Revoke
    | Login(account: Account)
    | Rebind(account: Account)
    | Edit(account: Account)
    | Delete

  function SetStage(s: State, t: nat, stage: Stage): State
    requires t in s.tasks
  {
    s.(tasks := s.tasks[t := s.tasks[t].(stage := stage)])
  }

  function End(s: State, t: nat): State {
    s.(tasks := s.tasks - {t})
  }

  function Hold(s: State, record: Account): State {
    s.(record := Some(record), held := s.held + {record})
  }

  /** A load that succeeds: only operations that hold the account lock go on. */
  function FinishLoad(s: State, t: nat, account: Account): State
    requires t in s.tasks
  {
    if s.tasks[t].locked then SetStage(s, t, Entering(account)) else End(s, t)
  }

  /** A failing update ends its operation, except that observations may be lost. */
  function Fail(s: State, t: nat, update: Update): State
    requires t in s.tasks
  {
    if !update.loading && update.frame.FeedbackFrame? then SetStage(s, t, Ready(update.account, update.epoch))
    else End(s, t)
  }

  function AfterConsider(s: State, t: nat, marker: Id, account: Account): State
    requires t in s.tasks
  {
    if s.staged.Some? && Applies(s.staged.value, account) then
      var auth := s.staged.value.next.auth;
      s.(tasks := s.tasks[t := s.tasks[t].(
        recovered := Some(auth),
        stage := Updating(Staging, Update(marker, account, AuthFrame(auth), s.epoch, true)))])
    else FinishLoad(s.(staged := None), t, account)
  }

  function AfterStage(rule: OwnerRule, s: State, t: nat, update: Update): State
    requires t in s.tasks
  {
    if Admission(rule, update.account, update.frame, update.epoch, s.epoch) != Admitted then Fail(s, t, update)
    else
      var writing := SetStage(s, t, Updating(Writing, update));
      if update.frame.AuthFrame? then
        var staged := Staged(update.account, Updated(update.account, update.frame));
        writing.(staged := Some(staged), accepted := s.accepted + {staged})
      else writing
  }

  function AfterSend(rule: OwnerRule, s: State, t: nat, update: Update, arrives: bool, acknowledged: bool): State
    requires t in s.tasks
  {
    var next := Updated(update.account, update.frame);
    if arrives && Accepts(rule, s.record, update.marker, update.account.revision, next) then
      SetStage(Hold(s, next), t, Updating(if acknowledged then Settling else Unconfirmed, update))
    else SetStage(s, t, Updating(Unconfirmed, update))
  }

  function AfterReadBack(s: State, t: nat, update: Update, works: bool): State
    requires t in s.tasks
  {
    if works && Readable(s.record, update.marker) && s.record.value == Updated(update.account, update.frame) then
      SetStage(s, t, Updating(Settling, update))
    else Fail(s, t, update)
  }

  function AfterSettle(s: State, t: nat, update: Update): State
    requires t in s.tasks
  {
    var next := Updated(update.account, update.frame);
    var settled := s.(staged := None);
    if update.loading then FinishLoad(settled, t, next)
    else SetStage(settled, t, Ready(next, update.epoch))
  }

  /** A worker asks for the stored login again after the vendor refused its grant. */
  function AfterReread(s: State, t: nat, account: Account, epoch: nat): State
    requires t in s.tasks
  {
    if Readable(s.record, account.generation) && s.record.value.binding == account.binding
      && s.record.value.revision >= account.revision
    then SetStage(s, t, Ready(s.record.value, epoch))
    else End(s, t)
  }

  /** One step; an event that is not enabled changes nothing. */
  function Next(rule: OwnerRule, s: State, event: Event): State {
    match event
    case Start(t, marker, locked) =>
      if t in s.tasks || (locked && exists u :: u in s.tasks && s.tasks[u].locked) then s
      else s.(tasks := s.tasks[t := Task(locked, None, Loading(marker))])
    case Revoke => s.(staged := None, accepted := {}, epoch := (s.epoch + 1) % (U64_MAX + 1))
    case Login(account) =>
      if exists a :: a in s.held && a.generation == account.generation then s else Hold(s, account)
    case Rebind(account) =>
      if s.record.None? || account.generation != s.record.value.generation
        || (exists a :: a in s.held && a.binding == account.binding) then s
      else Hold(s, account)
    case Edit(account) =>
      if s.record.Some? && account.generation == s.record.value.generation
        && account.binding == s.record.value.binding && account.revision == s.record.value.revision + 1
      then Hold(s, account) else s
    case Delete => s.(record := None)
    case _ =>
      if event.task !in s.tasks then s else TaskStep(rule, s, event)
  }

  function TaskStep(rule: OwnerRule, s: State, event: Event): State
    requires !event.Start? && !event.Revoke? && !event.Login? && !event.Rebind? && !event.Edit? && !event.Delete?
    requires event.task in s.tasks
  {
    match (event, s.tasks[event.task].stage)
    case (Read(t, works), Loading(marker)) =>
      if works && Readable(s.record, marker) then SetStage(s, t, Loaded(marker, s.record.value)) else End(s, t)
    case (Consider(t), Loaded(marker, account)) => AfterConsider(s, t, marker, account)
    case (Enter(t), Entering(account)) => SetStage(s, t, Ready(account, s.epoch))
    case (Receive(t, frame), Ready(account, epoch)) =>
      SetStage(s, t, Updating(Staging, Update(account.generation, account, frame, epoch, false)))
    case (Reread(t), Ready(account, epoch)) => AfterReread(s, t, account, epoch)
    case (Stage(t), Updating(Staging, update)) => AfterStage(rule, s, t, update)
    case (Send(t, arrives, acknowledged), Updating(Writing, update)) =>
      AfterSend(rule, s, t, update, arrives, acknowledged)
    case (ReadBack(t, works), Updating(Unconfirmed, update)) => AfterReadBack(s, t, update, works)
    case (Settle(t), Updating(Settling, update)) => AfterSettle(s, t, update)
    case (Finish(t), _) => End(s, t)
    case _ => s
  }

  function Run(rule: OwnerRule, events: seq<Event>): State {
    if events == [] then INITIAL
    else Next(rule, Run(rule, events[..|events| - 1]), events[|events| - 1])
  }

  lemma RunLast(rule: OwnerRule, events: seq<Event>, event: Event)
    ensures Run(rule, events + [event]) == Next(rule, Run(rule, events), event)
  {
    assert (events + [event])[..|events|] == events;
  }

  // ---- What every interleaving keeps ---------------------------------------

  predicate SameAuthorization(a: Account, b: Account) {
    a.generation == b.generation && a.binding == b.binding
  }

  predicate SameRevision(a: Account, b: Account) {
    SameAuthorization(a, b) && a.revision == b.revision
  }

  /** No two different records were ever held at one revision of one authorization,
      and the record held now is the newest of its authorization. */
  ghost predicate Linear(s: State) {
    && (s.record.Some? ==> s.record.value in s.held)
    && (forall a, b :: a in s.held && b in s.held && SameRevision(a, b) ==> a == b)
    && (forall a :: s.record.Some? && a in s.held && SameAuthorization(a, s.record.value) ==>
      a.revision <= s.record.value.revision)
  }

  /** A copy in the hands of an operation is a record the vault held; after a
      confirmed write so is the record written, and a recovered login is in it. */
  ghost predicate TaskSound(s: State, task: Task) {
    match task.stage
    case Loading(_) => task.recovered.None?
    case Loaded(marker, account) => account in s.held && marker == account.generation && task.recovered.None?
    case Updating(phase, update) =>
      && update.account in s.held
      && update.marker == update.account.generation
      && (phase.Settling? ==> Updated(update.account, update.frame) in s.held)
      && (update.loading ==> task.recovered.Some? && update.frame == AuthFrame(task.recovered.value))
    case Entering(account) => account in s.held && (task.recovered.Some? ==> account.auth == task.recovered.value)
    case Ready(account, _) => account in s.held
  }

  ghost predicate StagedSound(s: State, staged: Staged) {
    && staged.before in s.held
    && staged.next == Updated(staged.before, AuthFrame(staged.next.auth))
  }

  ghost predicate Sound(s: State) {
    && Linear(s)
    && (s.staged.Some? ==> StagedSound(s, s.staged.value))
    && (forall staged :: staged in s.accepted ==> StagedSound(s, staged))
    && (forall t :: t in s.tasks ==> TaskSound(s, s.tasks[t]))
  }

  /** A record that replaces another one was never held before. */
  lemma HoldKeepsLinear(s: State, record: Account)
    requires Linear(s)
    requires forall a :: a in s.held && SameAuthorization(a, record) ==> a.revision < record.revision
    ensures Linear(Hold(s, record)) && record !in s.held
  {
  }

  lemma HoldKeepsSound(s: State, record: Account)
    requires Sound(s)
    requires forall a :: a in s.held && SameAuthorization(a, record) ==> a.revision < record.revision
    ensures Sound(Hold(s, record))
  {
    HoldKeepsLinear(s, record);
    forall t | t in s.tasks
      ensures TaskSound(Hold(s, record), s.tasks[t])
    {
      assert TaskSound(s, s.tasks[t]);
    }
  }

  /** A step of one operation that leaves the vault alone need only account for
      that operation. */
  lemma TaskMoveKeepsSound(s: State, after: State, t: nat)
    requires Sound(s)
    requires after.record == s.record && after.held == s.held
    requires after.staged.Some? ==> after.staged == s.staged || StagedSound(s, after.staged.value)
    requires forall staged :: staged in after.accepted ==> staged in s.accepted || StagedSound(s, staged)
    requires forall u :: u in after.tasks ==>
      (u in s.tasks && after.tasks[u] == s.tasks[u]) || TaskSound(s, after.tasks[u])
    ensures Sound(after)
  {
    forall u | u in after.tasks
      ensures TaskSound(after, after.tasks[u])
    {
      assert u in s.tasks ==> TaskSound(s, s.tasks[u]);
    }
  }

  lemma SendKeepsSound(rule: OwnerRule, s: State, t: nat, update: Update, arrives: bool, acknowledged: bool)
    requires t in s.tasks && s.tasks[t].stage == Updating(Writing, update) && Sound(s)
    ensures Sound(AfterSend(rule, s, t, update, arrives, acknowledged))
  {
    var next := Updated(update.account, update.frame);
    assert TaskSound(s, s.tasks[t]);
    if arrives && Accepts(rule, s.record, update.marker, update.account.revision, next) {
      HoldKeepsSound(s, next);
      TaskMoveKeepsSound(Hold(s, next), AfterSend(rule, s, t, update, arrives, acknowledged), t);
    } else {
      TaskMoveKeepsSound(s, AfterSend(rule, s, t, update, arrives, acknowledged), t);
    }
  }

  lemma ConsiderKeepsSound(s: State, t: nat, marker: Id, account: Account)
    requires t in s.tasks && s.tasks[t].stage == Loaded(marker, account) && Sound(s)
    ensures Sound(AfterConsider(s, t, marker, account))
  {
    assert TaskSound(s, s.tasks[t]);
    TaskMoveKeepsSound(s, AfterConsider(s, t, marker, account), t);
  }

  lemma StagingKeepsSound(rule: OwnerRule, s: State, t: nat, update: Update)
    requires t in s.tasks && s.tasks[t].stage == Updating(Staging, update) && Sound(s)
    ensures Sound(AfterStage(rule, s, t, update))
  {
    assert TaskSound(s, s.tasks[t]);
    TaskMoveKeepsSound(s, AfterStage(rule, s, t, update), t);
  }

  lemma ReadBackKeepsSound(s: State, t: nat, update: Update, works: bool)
    requires t in s.tasks && s.tasks[t].stage == Updating(Unconfirmed, update) && Sound(s)
    ensures Sound(AfterReadBack(s, t, update, works))
  {
    assert TaskSound(s, s.tasks[t]);
    TaskMoveKeepsSound(s, AfterReadBack(s, t, update, works), t);
  }

  lemma SettleKeepsSound(s: State, t: nat, update: Update)
    requires t in s.tasks && s.tasks[t].stage == Updating(Settling, update) && Sound(s)
    ensures Sound(AfterSettle(s, t, update))
  {
    assert TaskSound(s, s.tasks[t]);
    TaskMoveKeepsSound(s, AfterSettle(s, t, update), t);
  }

  lemma OtherStepKeepsSound(rule: OwnerRule, s: State, event: Event)
    requires event.Read? || event.Enter? || event.Receive? || event.Reread? || event.Finish?
    requires event.task in s.tasks && Sound(s)
    ensures Sound(TaskStep(rule, s, event))
  {
    assert TaskSound(s, s.tasks[event.task]);
    TaskMoveKeepsSound(s, TaskStep(rule, s, event), event.task);
  }

  lemma TaskStepKeepsSound(rule: OwnerRule, s: State, event: Event)
    requires !event.Start? && !event.Revoke? && !event.Login? && !event.Rebind? && !event.Edit? && !event.Delete?
    requires event.task in s.tasks && Sound(s)
    ensures Sound(TaskStep(rule, s, event))
  {
    if event.Read? || event.Enter? || event.Receive? || event.Reread? || event.Finish? {
      OtherStepKeepsSound(rule, s, event);
    } else {
      match (event, s.tasks[event.task].stage)
      case (Consider(t), Loaded(marker, account)) => ConsiderKeepsSound(s, t, marker, account);
      case (Stage(t), Updating(Staging, update)) => StagingKeepsSound(rule, s, t, update);
      case (Send(t, arrives, acknowledged), Updating(Writing, update)) =>
        SendKeepsSound(rule, s, t, update, arrives, acknowledged);
      case (ReadBack(t, works), Updating(Unconfirmed, update)) => ReadBackKeepsSound(s, t, update, works);
      case (Settle(t), Updating(Settling, update)) => SettleKeepsSound(s, t, update);
      case _ =>
    }
  }

  lemma StepKeepsSound(rule: OwnerRule, s: State, event: Event)
    requires Sound(s)
    ensures Sound(Next(rule, s, event))
  {
    match event
    case Start(_, _, _) =>
    case Revoke =>
    case Delete =>
    case Login(account) =>
      if !exists a :: a in s.held && a.generation == account.generation {
        HoldKeepsSound(s, account);
      }
    case Rebind(account) =>
      if Next(rule, s, event) != s {
        HoldKeepsSound(s, account);
      }
    case Edit(account) =>
      if Next(rule, s, event) != s {
        HoldKeepsSound(s, account);
      }
    case _ =>
      if event.task in s.tasks {
        TaskStepKeepsSound(rule, s, event);
      }
  }

  lemma {:induction false} RunIsSound(rule: OwnerRule, events: seq<Event>)
    ensures Sound(Run(rule, events))
  {
    if events != [] {
      RunIsSound(rule, events[..|events| - 1]);
      StepKeepsSound(rule, Run(rule, events[..|events| - 1]), events[|events| - 1]);
    }
  }

  // ---- Consequences for any interleaving -----------------------------------

  predicate Commits(rule: OwnerRule, record: Option<Account>, update: Update) {
    Accepts(rule, record, update.marker, update.account.revision, Updated(update.account, update.frame))
  }

  /** A record held at the authorization and revision of the current one is the
      current one. */
  lemma AcceptedIsCurrent(rule: OwnerRule, s: State, update: Update)
    requires Linear(s) && update.account in s.held && update.marker == update.account.generation
    requires Commits(rule, s.record, update)
    ensures s.record == Some(update.account)
  {
  }

  /** A write that commits replaces exactly the record its operation read, whatever
      ran in between: neither an edit nor a newer login is overwritten.  The
      revision goes up by one. */
  lemma CommitReplacesWhatWasRead(rule: OwnerRule, events: seq<Event>, t: nat, update: Update)
    requires t in Run(rule, events).tasks
    requires Run(rule, events).tasks[t].stage == Updating(Writing, update)
    requires Commits(rule, Run(rule, events).record, update)
    ensures Run(rule, events).record == Some(update.account)
    ensures Next(rule, Run(rule, events), Send(t, true, true)).record.Some?
    ensures var record := Next(rule, Run(rule, events), Send(t, true, true)).record.value;
      SameAuthorization(record, update.account) && record.revision == update.account.revision + 1
  {
    var s := Run(rule, events);
    RunIsSound(rule, events);
    assert TaskSound(s, s.tasks[t]);
    AcceptedIsCurrent(rule, s, update);
    assert Next(rule, s, Send(t, true, true)) == AfterSend(rule, s, t, update, true, true);
  }

  /** An operation only ever works on a record the vault really held, also when the
      success of a write was inferred by reading back; a copy that follows a
      recovery carries the recovered login. */
  lemma CopiesAreHeld(rule: OwnerRule, events: seq<Event>, t: nat)
    requires t in Run(rule, events).tasks
    ensures var s := Run(rule, events); match s.tasks[t].stage
      case Ready(account, _) => account in s.held
      case Entering(account) =>
        account in s.held && (s.tasks[t].recovered.Some? ==> account.auth == s.tasks[t].recovered.value)
      case _ => true
  {
    RunIsSound(rule, events);
    assert TaskSound(Run(rule, events), Run(rule, events).tasks[t]);
  }

  /** Within one authorization a revision names one record. */
  lemma RevisionsNameRecords(rule: OwnerRule, events: seq<Event>, a: Account, b: Account)
    requires a in Run(rule, events).held && b in Run(rule, events).held && SameRevision(a, b)
    ensures a == b
  {
    RunIsSound(rule, events);
  }

  /** The binding belongs to the name: rebinding a login keeps its generation and
      may start the revisions over. */
  lemma GenerationAndRevisionAreNotEnough(rule: OwnerRule)
    ensures exists events, a, b ::
      && a in Run(rule, events).held && b in Run(rule, events).held
      && a.generation == b.generation && a.revision == b.revision && a != b
  {
    var a := Account(7, Some(1), 1, "old", "", "");
    var b := Account(7, Some(2), 1, "new", "", "");
    var events := [Login(a)];
    assert events[..0] == [];
    assert Run(rule, events) == Hold(INITIAL, a);
    var more := events + [Rebind(b)];
    assert more[..1] == events;
    assert Run(rule, more) == Hold(Hold(INITIAL, a), b);
  }

  // ---- A staged login survives while the account lock is held --------------

  /** Every accepted rotation is the one named, or the vault has moved on from the
      record it was computed from. */
  ghost predicate Covered(s: State, cover: Option<Staged>) {
    forall staged :: staged in s.accepted ==> cover == Some(staged) || s.record != Some(staged.before)
  }

  ghost predicate TaskSafe(s: State, task: Task) {
    match task.stage
    case Loading(_) => true
    case Loaded(_, account) =>
      forall staged :: staged in s.accepted ==> staged.before == account || s.record != Some(staged.before)
    case Updating(phase, update) =>
      if update.loading || (update.frame.AuthFrame? && !phase.Staging?)
      then Covered(s, Some(Staged(update.account, Updated(update.account, update.frame))))
      else Covered(s, None)
    case Entering(_) => Covered(s, None)
    case Ready(_, _) => Covered(s, None)
  }

  /** At most one operation runs, and it holds the lock. */
  ghost predicate Serialised(s: State) {
    && (forall t :: t in s.tasks ==> s.tasks[t].locked)
    && (forall t, u :: t in s.tasks && u in s.tasks ==> t == u)
  }

  ghost predicate Safe(rule: OwnerRule, s: State) {
    && Sound(s)
    && Serialised(s)
    && Covered(s, s.staged)
    && (forall t :: t in s.tasks ==> TaskSafe(s, s.tasks[t]))
    && (forall staged :: staged in s.accepted ==>
      rule(staged.before.auth, staged.next.auth) && staged.before.revision < U64_MAX)
  }

  lemma HoldKeepsSafe(rule: OwnerRule, s: State, record: Account)
    requires Safe(rule, s)
    requires forall a :: a in s.held && SameAuthorization(a, record) ==> a.revision < record.revision
    ensures Safe(rule, Hold(s, record))
  {
    HoldKeepsSound(s, record);
    HoldKeepsLinear(s, record);
    var after := Hold(s, record);
    assert forall staged :: staged in s.accepted ==> StagedSound(s, staged);
    assert Covered(after, None);
    forall t | t in s.tasks
      ensures TaskSafe(after, s.tasks[t])
    {
    }
  }

  lemma ConsiderKeepsSafe(rule: OwnerRule, s: State, t: nat, marker: Id, account: Account)
    requires t in s.tasks && s.tasks[t].stage == Loaded(marker, account) && Safe(rule, s)
    ensures Safe(rule, AfterConsider(s, t, marker, account))
  {
    ConsiderKeepsSound(s, t, marker, account);
    assert TaskSound(s, s.tasks[t]) && TaskSafe(s, s.tasks[t]);
    var after := AfterConsider(s, t, marker, account);
    if s.staged.Some? && Applies(s.staged.value, account) {
      assert s.staged.value.before == account;
      assert Covered(after, Some(Staged(account, Updated(account, AuthFrame(s.staged.value.next.auth)))));
    } else {
      assert Covered(after, None);
    }
  }

  lemma RefusalKeepsSafe(rule: OwnerRule, s: State, t: nat, update: Update)
    requires t in s.tasks && s.tasks[t].stage == Updating(Staging, update) && Safe(rule, s)
    requires Sound(Fail(s, t, update))
    ensures Safe(rule, Fail(s, t, update))
  {
    assert TaskSafe(s, s.tasks[t]);
    var after := Fail(s, t, update);
    assert after.record == s.record && after.accepted == s.accepted && after.staged == s.staged;
    assert Covered(after, s.staged);
  }

  lemma AdmissionKeepsSafe(rule: OwnerRule, s: State, t: nat, update: Update)
    requires t in s.tasks && s.tasks[t].stage == Updating(Staging, update) && Safe(rule, s)
    requires Admission(rule, update.account, update.frame, update.epoch, s.epoch) == Admitted
    requires Sound(AfterStage(rule, s, t, update))
    ensures Safe(rule, AfterStage(rule, s, t, update))
  {
    assert TaskSafe(s, s.tasks[t]);
    var after := AfterStage(rule, s, t, update);
    if update.frame.AuthFrame? {
      assert Covered(after, after.staged);
    } else {
      assert after.accepted == s.accepted && after.staged == s.staged;
    }
  }

  lemma StagingKeepsSafe(rule: OwnerRule, s: State, t: nat, update: Update)
    requires t in s.tasks && s.tasks[t].stage == Updating(Staging, update) && Safe(rule, s)
    ensures Safe(rule, AfterStage(rule, s, t, update))
  {
    StagingKeepsSound(rule, s, t, update);
    if Admission(rule, update.account, update.frame, update.epoch, s.epoch) == Admitted {
      AdmissionKeepsSafe(rule, s, t, update);
    } else {
      RefusalKeepsSafe(rule, s, t, update);
    }
  }

  lemma SettleKeepsSafe(rule: OwnerRule, s: State, t: nat, update: Update)
    requires t in s.tasks && s.tasks[t].stage == Updating(Settling, update) && Safe(rule, s)
    ensures Safe(rule, AfterSettle(s, t, update))
  {
    SettleKeepsSound(s, t, update);
    assert TaskSound(s, s.tasks[t]) && TaskSafe(s, s.tasks[t]);
    assert s.record != Some(update.account);
    assert Covered(AfterSettle(s, t, update), None);
  }

  lemma SendKeepsSafe(rule: OwnerRule, s: State, t: nat, update: Update, arrives: bool, acknowledged: bool)
    requires t in s.tasks && s.tasks[t].stage == Updating(Writing, update) && Safe(rule, s)
    ensures Safe(rule, AfterSend(rule, s, t, update, arrives, acknowledged))
  {
    SendKeepsSound(rule, s, t, update, arrives, acknowledged);
    assert TaskSound(s, s.tasks[t]) && TaskSafe(s, s.tasks[t]);
    var next := Updated(update.account, update.frame);
    if arrives && Accepts(rule, s.record, update.marker, update.account.revision, next) {
      HoldKeepsSafe(rule, s, next);
    }
  }

  lemma ReadBackKeepsSafe(rule: OwnerRule, s: State, t: nat, update: Update, works: bool)
    requires t in s.tasks && s.tasks[t].stage == Updating(Unconfirmed, update) && Safe(rule, s)
    ensures Safe(rule, AfterReadBack(s, t, update, works))
  {
    ReadBackKeepsSound(s, t, update, works);
    assert TaskSound(s, s.tasks[t]) && TaskSafe(s, s.tasks[t]);
  }

  lemma ReadKeepsSafe(rule: OwnerRule, s: State, event: Event)
    requires event.Read? || event.Enter? || event.Finish?
    requires event.task in s.tasks && Safe(rule, s)
    ensures Safe(rule, TaskStep(rule, s, event))
  {
    OtherStepKeepsSound(rule, s, event);
    assert TaskSafe(s, s.tasks[event.task]);
  }

  lemma ReceiveKeepsSafe(rule: OwnerRule, s: State, event: Event)
    requires event.Receive? || event.Reread?
    requires event.task in s.tasks && Safe(rule, s)
    ensures Safe(rule, TaskStep(rule, s, event))
  {
    OtherStepKeepsSound(rule, s, event);
    assert TaskSafe(s, s.tasks[event.task]);
  }

  lemma TaskStepKeepsSafe(rule: OwnerRule, s: State, event: Event)
    requires !event.Start? && !event.Revoke? && !event.Login? && !event.Rebind? && !event.Edit? && !event.Delete?
    requires event.task in s.tasks && Safe(rule, s)
    ensures Safe(rule, TaskStep(rule, s, event))
  {
    if event.Read? || event.Enter? || event.Finish? {
      ReadKeepsSafe(rule, s, event);
    } else if event.Receive? || event.Reread? {
      ReceiveKeepsSafe(rule, s, event);
    } else {
      match (event, s.tasks[event.task].stage)
      case (Consider(t), Loaded(marker, account)) => ConsiderKeepsSafe(rule, s, t, marker, account);
      case (Stage(t), Updating(Staging, update)) => StagingKeepsSafe(rule, s, t, update);
      case (Send(t, arrives, acknowledged), Updating(Writing, update)) =>
        SendKeepsSafe(rule, s, t, update, arrives, acknowledged);
      case (ReadBack(t, works), Updating(Unconfirmed, update)) => ReadBackKeepsSafe(rule, s, t, update, works);
      case (Settle(t), Updating(Settling, update)) => SettleKeepsSafe(rule, s, t, update);
      case _ =>
    }
  }

  lemma StepKeepsSafe(rule: OwnerRule, s: State, event: Event)
    requires Safe(rule, s) && (event.Start? ==> event.locked)
    ensures Safe(rule, Next(rule, s, event))
  {
    StepKeepsSound(rule, s, event);
    match event
    case Start(_, _, _) =>
    case Revoke =>
    case Delete =>
    case Login(account) =>
      if Next(rule, s, event) != s {
        HoldKeepsSafe(rule, s, account);
      }
    case Rebind(account) =>
      if Next(rule, s, event) != s {
        HoldKeepsSafe(rule, s, account);
      }
    case Edit(account) =>
      if Next(rule, s, event) != s {
        HoldKeepsSafe(rule, s, account);
      }
    case _ =>
      if event.task in s.tasks {
        TaskStepKeepsSafe(rule, s, event);
      }
  }

  lemma {:induction false} LockedRunIsSafe(rule: OwnerRule, events: seq<Event>)
    requires forall event :: event in events && event.Start? ==> event.locked
    ensures Safe(rule, Run(rule, events))
  {
    if events != [] {
      LockedRunIsSafe(rule, events[..|events| - 1]);
      StepKeepsSafe(rule, Run(rule, events[..|events| - 1]), events[|events| - 1]);
    }
  }

  /** Over any run of lost requests, lost replies, failing read-backs, edits and
      revocations in which every operation holds the account lock, a rotated login
      accepted since the last revocation is still staged, or the vault no longer
      holds the record it was computed from. */
  lemma RotationSurvives(rule: OwnerRule, events: seq<Event>, staged: Staged)
    requires forall event :: event in events && event.Start? ==> event.locked
    requires staged in Run(rule, events).accepted
    ensures Run(rule, events).staged == Some(staged) || Run(rule, events).record != Some(staged.before)
  {
    LockedRunIsSafe(rule, events);
  }

  // ---- Finishing a rotation ------------------------------------------------

  function RunFrom(rule: OwnerRule, s: State, events: seq<Event>): State
    decreases |events|
  {
    if events == [] then s else RunFrom(rule, Next(rule, s, events[0]), events[1..])
  }

  lemma RunTwo(rule: OwnerRule, s: State, a: Event, b: Event)
    ensures RunFrom(rule, s, [a, b]) == Next(rule, Next(rule, s, a), b)
  {
    assert [a, b][1..] == [b] && [b][1..] == [];
    assert RunFrom(rule, s, [a, b]) == RunFrom(rule, Next(rule, s, a), [b]);
    assert RunFrom(rule, Next(rule, s, a), [b]) == RunFrom(rule, Next(rule, Next(rule, s, a), b), []);
  }

  lemma RunThree(rule: OwnerRule, s: State, a: Event, b: Event, c: Event)
    ensures RunFrom(rule, s, [a, b, c]) == Next(rule, Next(rule, Next(rule, s, a), b), c)
  {
    assert [a, b, c][1..] == [b, c];
    RunTwo(rule, Next(rule, s, a), b, c);
  }

  /** An operation starts and reads the record. */
  function Reads(t: nat, marker: Id, locked: bool): seq<Event> {
    [Start(t, marker, locked), Read(t, true)]
  }

  lemma ReadsRecord(rule: OwnerRule, s: State, t: nat, locked: bool)
    requires t !in s.tasks && s.record.Some?
    requires locked ==> forall u :: u in s.tasks ==> !s.tasks[u].locked
    ensures RunFrom(rule, s, Reads(t, s.record.value.generation, locked))
      == s.(tasks := s.tasks[t := Task(locked, None, Loaded(s.record.value.generation, s.record.value))])
  {
    RunTwo(rule, s, Start(t, s.record.value.generation, locked), Read(t, true));
  }

  /** A load finds a staged login that applies, stages it afresh, writes it and is
      answered, or confirms the write by reading back. */
  function Replays(t: nat, acknowledged: bool): seq<Event> {
    if acknowledged then [Send(t, true, true), Settle(t)]
    else [Send(t, true, false), ReadBack(t, true), Settle(t)]
  }

  lemma ReplaysStaged(rule: OwnerRule, s: State, t: nat, staged: Staged)
    requires s.staged == Some(staged) && s.record == Some(staged.before)
    requires staged.next == Updated(staged.before, AuthFrame(staged.next.auth)) && staged in s.accepted
    requires rule(staged.before.auth, staged.next.auth) && staged.before.revision < U64_MAX
    requires t in s.tasks && s.tasks[t] == Task(true, None, Loaded(staged.before.generation, staged.before))
    ensures RunFrom(rule, s, [Consider(t), Stage(t)])
      == s.(tasks := s.tasks[t := Task(true, Some(staged.next.auth), Updating(Writing, ReplayOf(s, staged)))])
  {
    RunTwo(rule, s, Consider(t), Stage(t));
    assert s.accepted + {staged} == s.accepted;
    var auth := staged.next.auth;
    var tasks := s.tasks[t := Task(true, Some(auth), Updating(Staging, ReplayOf(s, staged)))];
    assert Next(rule, s, Consider(t)) == s.(tasks := tasks);
    assert tasks[t := Task(true, Some(auth), Updating(Writing, ReplayOf(s, staged)))]
      == s.tasks[t := Task(true, Some(auth), Updating(Writing, ReplayOf(s, staged)))];
  }

  function ReplayOf(s: State, staged: Staged): Update {
    Update(staged.before.generation, staged.before, AuthFrame(staged.next.auth), s.epoch, true)
  }

  lemma ReplayDelivered(rule: OwnerRule, s: State, t: nat, staged: Staged, acknowledged: bool)
    requires s.record == Some(staged.before)
    requires staged.next == Updated(staged.before, AuthFrame(staged.next.auth))
    requires rule(staged.before.auth, staged.next.auth) && staged.before.revision < U64_MAX
    requires t in s.tasks
    requires s.tasks[t] == Task(true, Some(staged.next.auth), Updating(Writing, ReplayOf(s, staged)))
    ensures RunFrom(rule, s, Replays(t, acknowledged)) == Hold(s, staged.next).(
      staged := None, tasks := s.tasks[t := Task(true, Some(staged.next.auth), Entering(staged.next))])
  {
    var sent := Next(rule, s, Send(t, true, acknowledged));
    var settling := if acknowledged then sent else Next(rule, sent, ReadBack(t, true));
    assert settling.tasks[t] == Task(true, Some(staged.next.auth), Updating(Settling, ReplayOf(s, staged)));
    assert settling == Hold(s, staged.next).(tasks := s.tasks[t := settling.tasks[t]]);
    if acknowledged {
      RunTwo(rule, s, Send(t, true, true), Settle(t));
    } else {
      RunThree(rule, s, Send(t, true, false), ReadBack(t, true), Settle(t));
    }
  }

  /** While the vault still holds the record a rotation was computed from, the next
      load whose requests arrive writes the rotated login back. */
  lemma NextLoadWritesBack(rule: OwnerRule, events: seq<Event>, staged: Staged, t: nat, acknowledged: bool)
    returns (load: seq<Event>)
    requires forall event :: event in events && event.Start? ==> event.locked
    requires staged in Run(rule, events).accepted && Run(rule, events).record == Some(staged.before)
    requires Run(rule, events).tasks == map[]
    ensures load == Reads(t, staged.before.generation, true) + [Consider(t), Stage(t)] + Replays(t, acknowledged)
    ensures var after := RunFrom(rule, Run(rule, events), load);
      && after.record == Some(staged.next)
      && after.tasks == map[t := Task(true, Some(staged.next.auth), Entering(staged.next))]
      && after.staged == None
  {
    LockedRunIsSafe(rule, events);
    var s := Run(rule, events);
    assert s.staged == Some(staged) && StagedSound(s, staged);
    var opening := Reads(t, staged.before.generation, true);
    load := opening + [Consider(t), Stage(t)] + Replays(t, acknowledged);
    ReadsRecord(rule, s, t, true);
    var read := RunFrom(rule, s, opening);
    ReplaysStaged(rule, read, t, staged);
    var written := RunFrom(rule, read, [Consider(t), Stage(t)]);
    assert ReplayOf(read, staged) == ReplayOf(written, staged);
    ReplayDelivered(rule, written, t, staged, acknowledged);
    RunFromConcat(rule, s, opening, [Consider(t), Stage(t)]);
    RunFromConcat(rule, s, opening + [Consider(t), Stage(t)], Replays(t, acknowledged));
  }

  lemma {:induction false} RunFromConcat(rule: OwnerRule, s: State, a: seq<Event>, b: seq<Event>)
    ensures RunFrom(rule, s, a + b) == RunFrom(rule, RunFrom(rule, s, a), b)
    decreases |a|
  {
    if a == [] {
      assert a + b == b;
    } else {
      assert (a + b)[1..] == a[1..] + b;
      RunFromConcat(rule, Next(rule, s, a[0]), a[1..], b);
    }
  }

  lemma {:induction false} RunContinues(rule: OwnerRule, events: seq<Event>, more: seq<Event>)
    ensures Run(rule, events + more) == RunFrom(rule, Run(rule, events), more)
    decreases |more|
  {
    if more == [] {
      assert events + more == events;
    } else {
      var longer := events + more[..1];
      assert longer[..|longer| - 1] == events && longer[|longer| - 1] == more[0];
      assert Run(rule, longer) == Next(rule, Run(rule, events), more[0]);
      assert events + more == longer + more[1..];
      RunContinues(rule, longer, more[1..]);
    }
  }

  // ---- The machine does what the bridge does --------------------------------

  lemma RunFour(rule: OwnerRule, s: State, a: Event, b: Event, c: Event, d: Event)
    ensures RunFrom(rule, s, [a, b, c, d]) == Next(rule, Next(rule, Next(rule, Next(rule, s, a), b), c), d)
  {
    assert [a, b, c, d][1..] == [b, c, d];
    RunThree(rule, Next(rule, s, a), b, c, d);
  }

  /** The steps of an update with nothing in between. */
  function Uninterrupted(t: nat, link: Link): seq<Event> {
    [Stage(t), Send(t, link.requestArrives, link.replyArrives), ReadBack(t, link.readBackWorks), Settle(t)]
  }

  function OnceOf(rule: OwnerRule, s: State, update: Update, link: Link): Written {
    UpdateOnce(rule, s.record, s.staged, update.marker, update.account, update.frame, update.epoch, s.epoch, link)
  }

  predicate IsWritten(after: State, once: Written) {
    after.record == once.record && after.staged == once.staged
  }

  /** Left alone, the machine's update leaves the record and the staged login that the
      bridge's does, and goes on exactly when the bridge reports success. */
  lemma UpdateIsUninterrupted(rule: OwnerRule, s: State, t: nat, update: Update, link: Link)
    requires t in s.tasks && s.tasks[t].stage == Updating(Staging, update)
    ensures IsWritten(RunFrom(rule, s, Uninterrupted(t, link)), OnceOf(rule, s, update, link))
    ensures Succeeds(s, RunFrom(rule, s, Uninterrupted(t, link)), t, update, OnceOf(rule, s, update, link).result)
  {
    RunFour(rule, s, Stage(t), Send(t, link.requestArrives, link.replyArrives), ReadBack(t, link.readBackWorks),
      Settle(t));
    assert Next(rule, s, Stage(t)) == AfterStage(rule, s, t, update);
    if Admission(rule, update.account, update.frame, update.epoch, s.epoch) == Admitted {
      AdmittedIsUninterrupted(rule, s, t, update, link);
    } else {
      IdleOnwards(rule, Fail(s, t, update), t, link);
    }
  }

  lemma AdmittedIsUninterrupted(rule: OwnerRule, s: State, t: nat, update: Update, link: Link)
    requires t in s.tasks && s.tasks[t].stage == Updating(Staging, update)
    requires Admission(rule, update.account, update.frame, update.epoch, s.epoch) == Admitted
    ensures var sent := Next(rule, AfterStage(rule, s, t, update), Send(t, link.requestArrives, link.replyArrives));
      var after := Next(rule, Next(rule, sent, ReadBack(t, link.readBackWorks)), Settle(t));
      IsWritten(after, OnceOf(rule, s, update, link))
        && Succeeds(s, after, t, update, OnceOf(rule, s, update, link).result)
  {
    var staged := AfterStage(rule, s, t, update);
    WritesUninterrupted(rule, staged, t, update, link);
    assert Fail(staged, t, update).tasks == Fail(s, t, update).tasks;
  }

  /** Where the operation is afterwards. */
  predicate Succeeds(s: State, after: State, t: nat, update: Update, result: Result<Account, Verdict>)
    requires t in s.tasks
  {
    if result.Failure? then after.tasks == Fail(s, t, update).tasks
    else if !update.loading then t in after.tasks && after.tasks[t].stage == Ready(result.value, update.epoch)
    else if s.tasks[t].locked then t in after.tasks && after.tasks[t].stage == Entering(result.value)
    else t !in after.tasks
  }

  /** An operation that has ended, or waits for its next frame, takes no such step. */
  lemma IdleOnwards(rule: OwnerRule, s: State, t: nat, link: Link)
    requires t in s.tasks ==> s.tasks[t].stage.Ready?
    ensures Next(rule, s, Send(t, link.requestArrives, link.replyArrives)) == s
    ensures Next(rule, s, ReadBack(t, link.readBackWorks)) == s && Next(rule, s, Settle(t)) == s
  {
  }

  lemma WritesUninterrupted(rule: OwnerRule, s: State, t: nat, update: Update, link: Link)
    requires t in s.tasks && s.tasks[t].stage == Updating(Writing, update)
    ensures var next := Updated(update.account, update.frame);
      var accepted := link.requestArrives && Accepts(rule, s.record, update.marker, update.account.revision, next);
      var written := if accepted then Some(next) else s.record;
      var ok := (accepted && link.replyArrives)
        || (link.readBackWorks && Readable(written, update.marker) && written.value == next);
      var sent := Next(rule, s, Send(t, link.requestArrives, link.replyArrives));
      var after := Next(rule, Next(rule, sent, ReadBack(t, link.readBackWorks)), Settle(t));
      && after.record == written
      && (if ok then after.staged == None && after.tasks == AfterSettle(s, t, update).tasks
          else after.staged == s.staged && after.tasks == Fail(s, t, update).tasks)
  {
    var next := Updated(update.account, update.frame);
    var sent := Next(rule, s, Send(t, link.requestArrives, link.replyArrives));
    assert sent == AfterSend(rule, s, t, update, link.requestArrives, link.replyArrives);
    var read := Next(rule, sent, ReadBack(t, link.readBackWorks));
    if sent.tasks[t].stage == Updating(Settling, update) {
      assert read == sent;
      SettlesAs(rule, s, sent, t, update);
    } else if link.readBackWorks && Readable(sent.record, update.marker) && sent.record.value == next {
      assert read == SetStage(sent, t, Updating(Settling, update));
      SettlesAs(rule, s, read, t, update);
    } else {
      assert read == Fail(sent, t, update);
      IdleOnwards(rule, read, t, link);
      assert read.tasks == Fail(s, t, update).tasks;
    }
  }

  lemma SettlesAs(rule: OwnerRule, s: State, settling: State, t: nat, update: Update)
    requires t in s.tasks && t in settling.tasks
    requires settling.tasks == s.tasks[t := s.tasks[t].(stage := Updating(Settling, update))]
    ensures Next(rule, settling, Settle(t)).tasks == AfterSettle(s, t, update).tasks
    ensures Next(rule, settling, Settle(t)).record == settling.record && Next(rule, settling, Settle(t)).staged == None
  {
    assert Next(rule, settling, Settle(t)) == AfterSettle(settling, t, update);
    assert settling.tasks - {t} == s.tasks - {t};
  }

  /** The same of a load, from its read to its settled replay. */
  lemma LoadIsUninterrupted(rule: OwnerRule, s: State, t: nat, marker: Id, readWorks: bool, link: Link)
    requires t in s.tasks && s.tasks[t].stage == Loading(marker)
    ensures var after := RunFrom(rule, s, [Read(t, readWorks), Consider(t)] + Uninterrupted(t, link));
      var once := LoadOnce(rule, s.record, s.staged, marker, readWorks, s.epoch, link);
      && after.record == once.record && after.staged == once.staged
      && (if once.result.Success? && s.tasks[t].locked
          then t in after.tasks && after.tasks[t].stage == Entering(once.result.value)
          else t !in after.tasks)
  {
    RunFromConcat(rule, s, [Read(t, readWorks), Consider(t)], Uninterrupted(t, link));
    RunTwo(rule, s, Read(t, readWorks), Consider(t));
    var read := Next(rule, s, Read(t, readWorks));
    var considered := Next(rule, read, Consider(t));
    if readWorks && Readable(s.record, marker) {
      assert read == SetStage(s, t, Loaded(marker, s.record.value));
      assert considered == AfterConsider(read, t, marker, s.record.value);
      if s.staged.Some? && Applies(s.staged.value, s.record.value) {
        var update := Update(marker, s.record.value, AuthFrame(s.staged.value.next.auth), s.epoch, true);
        assert considered.tasks[t].stage == Updating(Staging, update);
        UpdateIsUninterrupted(rule, considered, t, update, link);
      } else {
        NothingToReplay(rule, considered, t, link);
      }
    } else {
      assert t !in read.tasks && considered == read;
      NothingToReplay(rule, considered, t, link);
    }
  }

  lemma NothingToReplay(rule: OwnerRule, s: State, t: nat, link: Link)
    requires t in s.tasks ==> s.tasks[t].stage.Entering?
    ensures RunFrom(rule, s, Uninterrupted(t, link)) == s
  {
    RunFour(rule, s, Stage(t), Send(t, link.requestArrives, link.replyArrives), ReadBack(t, link.readBackWorks),
      Settle(t));
  }

  // ---- Revocation ----------------------------------------------------------

  /** The epoch at which an operation past its load entered. */
  function HeldEpoch(stage: Stage): Option<nat> {
    match stage
    case Ready(_, epoch) => Some(epoch)
    case Updating(_, update) => if update.loading then None else Some(update.epoch)
    case _ => None
  }

  function Revocations(events: seq<Event>): nat {
    if events == [] then 0
    else Revocations(events[..|events| - 1]) + if events[|events| - 1].Revoke? then 1 else 0
  }

  lemma {:induction false} EpochFits(rule: OwnerRule, events: seq<Event>)
    ensures Run(rule, events).epoch <= U64_MAX
  {
    if events != [] {
      EpochFits(rule, events[..|events| - 1]);
      StepEpoch(rule, Run(rule, events[..|events| - 1]), events[|events| - 1]);
    }
  }

  /** The epoch after `n` revocations, which wrap around once at most. */
  function Advanced(epoch: nat, n: nat): nat {
    if epoch + n <= U64_MAX then epoch + n else epoch + n - U64_MAX - 1
  }

  lemma {:induction false} EpochCounts(rule: OwnerRule, events: seq<Event>, more: seq<Event>)
    requires Revocations(more) <= U64_MAX
    ensures Run(rule, events).epoch <= U64_MAX
    ensures Run(rule, events + more).epoch == Advanced(Run(rule, events).epoch, Revocations(more))
    decreases |more|
  {
    EpochFits(rule, events);
    if more == [] {
      assert events + more == events;
    } else {
      var init := more[..|more| - 1];
      EpochCounts(rule, events, init);
      assert events + more == events + init + [more[|more| - 1]];
      RunLast(rule, events + init, more[|more| - 1]);
      StepEpoch(rule, Run(rule, events + init), more[|more| - 1]);
    }
  }

  lemma StepEpoch(rule: OwnerRule, s: State, event: Event)
    requires s.epoch <= U64_MAX
    ensures Next(rule, s, event).epoch == Advanced(s.epoch, if event.Revoke? then 1 else 0)
  {
    if !event.Revoke? && !event.Start? && !event.Login? && !event.Rebind? && !event.Edit? && !event.Delete? {
      if event.task in s.tasks {
        TaskStepEpoch(rule, s, event);
      }
    }
  }

  lemma TaskStepEpoch(rule: OwnerRule, s: State, event: Event)
    requires !event.Start? && !event.Revoke? && !event.Login? && !event.Rebind? && !event.Edit? && !event.Delete?
    requires event.task in s.tasks
    ensures TaskStep(rule, s, event).epoch == s.epoch
  {
  }

  /** An operation keeps the epoch it entered with for as long as it lasts. */
  lemma HeldEpochStays(rule: OwnerRule, s: State, event: Event, t: nat)
    requires t in s.tasks && HeldEpoch(s.tasks[t].stage).Some?
    ensures var after := Next(rule, s, event);
      t in after.tasks ==> HeldEpoch(after.tasks[t].stage) == HeldEpoch(s.tasks[t].stage)
  {
  }

  lemma {:induction false} EnteredBefore(rule: OwnerRule, events: seq<Event>, more: seq<Event>, t: nat, epoch: nat)
    requires t in Run(rule, events).tasks && HeldEpoch(Run(rule, events).tasks[t].stage) == Some(epoch)
    requires forall event :: event in more && event.Start? ==> event.task != t
    ensures var s := Run(rule, events + more); t in s.tasks ==> HeldEpoch(s.tasks[t].stage) == Some(epoch)
    decreases |more|
  {
    if more == [] {
      assert events + more == events;
    } else {
      var init, last := more[..|more| - 1], more[|more| - 1];
      assert forall event :: event in init ==> event in more;
      EnteredBefore(rule, events, init, t, epoch);
      assert events + more == events + init + [last];
      RunLast(rule, events + init, last);
      assert last in more;
      var s := Run(rule, events + init);
      if t in s.tasks {
        HeldEpochStays(rule, s, last, t);
      } else {
        StaysGone(rule, s, last, t);
      }
    }
  }

  lemma StaysGone(rule: OwnerRule, s: State, event: Event, t: nat)
    requires t !in s.tasks && (event.Start? ==> event.task != t)
    ensures t !in Next(rule, s, event).tasks
  {
  }

  /** After a revocation no operation that had entered before it has another frame
      admitted, whatever it received and however much later: it stages nothing and moves
      no frame on to be written.  This lasts until 2^64 revocations bring its epoch back.
      A write it had begun is another matter, see `LateWritesExactly`. */
  lemma RevokedOperationsStayOut(rule: OwnerRule, events: seq<Event>, more: seq<Event>, t: nat)
    requires t in Run(rule, events).tasks
    requires HeldEpoch(Run(rule, events).tasks[t].stage) == Some(Run(rule, events).epoch)
    requires forall event :: event in more && event.Start? ==> event.task != t
    requires 0 < Revocations(more) <= U64_MAX
    ensures var s, after := Run(rule, events + more), Next(rule, Run(rule, events + more), Stage(t));
      && after.staged == s.staged && after.accepted == s.accepted && after.record == s.record
      && (t in after.tasks ==> after.tasks[t].stage.Updating? ==> after.tasks[t] == s.tasks[t])
  {
    var epoch := Run(rule, events).epoch;
    EpochCounts(rule, events, more);
    EnteredBefore(rule, events, more, t, epoch);
    var s := Run(rule, events + more);
    assert s.epoch != epoch;
    if t in s.tasks && s.tasks[t].stage.Updating? && s.tasks[t].stage.phase.Staging? {
      var update := s.tasks[t].stage.update;
      assert update.epoch == epoch;
      assert Next(rule, s, Stage(t)) == Fail(s, t, update);
    }
  }

  function AfterRevoke(rule: OwnerRule, events: seq<Event>, more: seq<Event>): State {
    Run(rule, events + [Revoke] + more)
  }

  lemma RevokedOnwards(rule: OwnerRule, events: seq<Event>, more: seq<Event>)
    ensures AfterRevoke(rule, events, more) ==
      if more == [] then Next(rule, Run(rule, events), Revoke)
      else Next(rule, AfterRevoke(rule, events, more[..|more| - 1]), more[|more| - 1])
  {
    if more == [] {
      assert events + [Revoke] + [] == events + [Revoke];
      RunLast(rule, events, Revoke);
    } else {
      var init, last := more[..|more| - 1], more[|more| - 1];
      assert events + [Revoke] + more == events + [Revoke] + init + [last];
      RunLast(rule, events + [Revoke] + init, last);
    }
  }

  /** The epoch that a revocation ends does not return within 2^64 - 1 more of them. */
  lemma EpochIsOver(rule: OwnerRule, events: seq<Event>, more: seq<Event>)
    requires Revocations(more) < U64_MAX
    ensures AfterRevoke(rule, events, more).epoch != Run(rule, events).epoch
  {
    EpochFits(rule, events);
    RunLast(rule, events, Revoke);
    StepEpoch(rule, Run(rule, events), Revoke);
    EpochCounts(rule, events + [Revoke], more);
  }

  /** An update that has been admitted and is not over. */
  predicate UnderWay(s: State, t: nat, update: Update) {
    t in s.tasks && s.tasks[t].stage.Updating? && !s.tasks[t].stage.phase.Staging? && s.tasks[t].stage.update == update
  }

  predicate ToBeWritten(s: State, t: nat, update: Update) {
    t in s.tasks && s.tasks[t].stage == Updating(Writing, update)
  }

  lemma StepsUnderWay(rule: OwnerRule, s: State, event: Event, t: nat, update: Update)
    requires UnderWay(Next(rule, s, event), t, update) && update.epoch != s.epoch
    ensures UnderWay(s, t, update)
    ensures ToBeWritten(Next(rule, s, event), t, update) ==> ToBeWritten(s, t, update)
  {
  }

  /** What is under way after a revocation with the epoch it ended was under way at the
      revocation, a load's write-back like any other update. */
  lemma {:induction false} UnderWayBefore(rule: OwnerRule, events: seq<Event>, more: seq<Event>, t: nat, update: Update)
    requires Revocations(more) < U64_MAX && update.epoch == Run(rule, events).epoch
    requires UnderWay(AfterRevoke(rule, events, more), t, update)
    ensures UnderWay(Run(rule, events), t, update)
    ensures ToBeWritten(AfterRevoke(rule, events, more), t, update) ==> ToBeWritten(Run(rule, events), t, update)
    decreases |more|
  {
    RevokedOnwards(rule, events, more);
    if more != [] {
      var init := more[..|more| - 1];
      EpochIsOver(rule, events, init);
      StepsUnderWay(rule, AfterRevoke(rule, events, init), more[|more| - 1], t, update);
      UnderWayBefore(rule, events, init, t, update);
    }
  }

  /** A request that arrives changes the record exactly if the record is still the one
      the operation read. */
  lemma SendWritesExactly(rule: OwnerRule, events: seq<Event>, t: nat, update: Update, arrives: bool,
      acknowledged: bool)
    requires ToBeWritten(Run(rule, events), t, update)
    ensures var before, after := Run(rule, events).record,
                                 Next(rule, Run(rule, events), Send(t, arrives, acknowledged)).record;
      && (after != before <==> arrives && Commits(rule, before, update))
      && (after != before ==> before == Some(update.account) && after == Some(Updated(update.account, update.frame)))
  {
    var s := Run(rule, events);
    RunIsSound(rule, events);
    assert TaskSound(s, s.tasks[t]);
    assert Next(rule, s, Send(t, arrives, acknowledged)) == AfterSend(rule, s, t, update, arrives, acknowledged);
    if Commits(rule, s.record, update) {
      AcceptedIsCurrent(rule, s, update);
    }
  }

  /** A record that was replaced is not held again. */
  lemma ReplacedForGood(rule: OwnerRule, s: State, event: Event, account: Account)
    requires Sound(s) && account in s.held && s.record != Some(account)
    ensures account in Next(rule, s, event).held && Next(rule, s, event).record != Some(account)
  {
    if event.Send? && event.task in s.tasks && s.tasks[event.task].stage.Updating?
      && s.tasks[event.task].stage.phase.Writing?
    {
      var update := s.tasks[event.task].stage.update;
      assert TaskSound(s, s.tasks[event.task]);
      assert Next(rule, s, event) == AfterSend(rule, s, event.task, update, event.arrives, event.acknowledged);
      if Commits(rule, s.record, update) {
        AcceptedIsCurrent(rule, s, update);
      }
    } else {
      OtherStepsHoldNew(rule, s, event, account);
    }
  }

  lemma OtherStepsHoldNew(rule: OwnerRule, s: State, event: Event, account: Account)
    requires Sound(s) && account in s.held && s.record != Some(account)
    requires event.Send? && event.task in s.tasks ==>
      !(s.tasks[event.task].stage.Updating? && s.tasks[event.task].stage.phase.Writing?)
    ensures account in Next(rule, s, event).held && Next(rule, s, event).record != Some(account)
  {
  }

  lemma {:induction false} ReplacedAfterRevoke(rule: OwnerRule, events: seq<Event>, more: seq<Event>, account: Account)
    requires account in Run(rule, events).held && Run(rule, events).record != Some(account)
    ensures AfterRevoke(rule, events, more).record != Some(account) && account in AfterRevoke(rule, events, more).held
    decreases |more|
  {
    RevokedOnwards(rule, events, more);
    if more != [] {
      var init := more[..|more| - 1];
      ReplacedAfterRevoke(rule, events, init, account);
      RunIsSound(rule, events + [Revoke] + init);
      ReplacedForGood(rule, AfterRevoke(rule, events, init), more[|more| - 1], account);
    }
  }

  /** The update's request, arriving now, writes. */
  predicate CanWrite(rule: OwnerRule, s: State, t: nat, update: Update) {
    ToBeWritten(s, t, update) && Commits(rule, s.record, update)
  }

  ghost predicate CanWriteLater(rule: OwnerRule, events: seq<Event>, t: nat, update: Update) {
    exists more :: Revocations(more) < U64_MAX && CanWrite(rule, AfterRevoke(rule, events, more), t, update)
  }

  /** A revocation does not stop a write that has been admitted: what an operation of
      the epoch it ends can still write afterwards, in whatever interleaving and at
      whatever time, is exactly what it could have written at that moment. */
  lemma LateWritesExactly(rule: OwnerRule, events: seq<Event>, t: nat, update: Update)
    requires update.epoch == Run(rule, events).epoch
    ensures CanWriteLater(rule, events, t, update) <==> CanWrite(rule, Run(rule, events), t, update)
  {
    var s := Run(rule, events);
    if CanWriteLater(rule, events, t, update) {
      var more :| Revocations(more) < U64_MAX && CanWrite(rule, AfterRevoke(rule, events, more), t, update);
      UnderWayBefore(rule, events, more, t, update);
      RunIsSound(rule, events);
      assert TaskSound(s, s.tasks[t]);
      if s.record != Some(update.account) {
        ReplacedAfterRevoke(rule, events, more, update.account);
      }
      RunIsSound(rule, events + [Revoke] + more);
      AcceptedIsCurrent(rule, AfterRevoke(rule, events, more), update);
    }
    if CanWrite(rule, s, t, update) {
      RevokedOnwards(rule, events, []);
      assert CanWrite(rule, AfterRevoke(rule, events, []), t, update);
    }
  }

  /** The step that stages this login is admitted. */
  predicate StagesNow(rule: OwnerRule, s: State, event: Event, staged: Staged) {
    && event.Stage? && event.task in s.tasks
    && s.tasks[event.task].stage.Updating? && s.tasks[event.task].stage.phase.Staging?
    && var update := s.tasks[event.task].stage.update;
       && update.frame.AuthFrame? && update.epoch == s.epoch
       && Admission(rule, update.account, update.frame, update.epoch, s.epoch) == Admitted
       && staged == Staged(update.account, Updated(update.account, update.frame))
  }

  lemma StepStages(rule: OwnerRule, s: State, event: Event, staged: Staged)
    requires s.staged.Some? ==> s.staged.value in s.accepted
    ensures var after := Next(rule, s, event);
      && (after.staged.Some? ==> after.staged.value in after.accepted)
      && (staged in after.accepted ==> staged in s.accepted || StagesNow(rule, s, event, staged))
  {
  }

  /** Whatever is staged at any time after a revocation was staged after it, by an
      operation admitted at the epoch of that moment.  So no login is replayed that was
      staged only before. */
  lemma {:induction false} StagedSinceRevocation(rule: OwnerRule, events: seq<Event>, more: seq<Event>, staged: Staged)
    returns (k: nat)
    ensures var s := AfterRevoke(rule, events, more);
      s.staged.Some? ==> s.staged.value in s.accepted
    ensures staged in AfterRevoke(rule, events, more).accepted ==>
      k < |more| && StagesNow(rule, AfterRevoke(rule, events, more[..k]), more[k], staged)
    decreases |more|
  {
    k := 0;
    RevokedOnwards(rule, events, more);
    if more != [] {
      var n := |more| - 1;
      k := StagedSinceRevocation(rule, events, more[..n], staged);
      var s := AfterRevoke(rule, events, more[..n]);
      StepStages(rule, s, more[n], staged);
      if staged in s.accepted {
        assert more[..n][..k] == more[..k];
      } else {
        k := n;
      }
    }
  }

  // ---- When a staged login is lost -----------------------------------------

  /** The vault still holds what an accepted rotation was computed from, but nothing
      holds the rotation any more. */
  predicate Lost(s: State, staged: Staged) {
    staged in s.accepted && s.record == Some(staged.before) && s.staged != Some(staged)
  }

  /** The three steps that drop or replace a staged login. */
  predicate Drops(rule: OwnerRule, s: State, event: Event, staged: Staged) {
    match event
    case Consider(t) => t in s.tasks && s.tasks[t].stage.Loaded? && s.tasks[t].stage.account != staged.before
    case Stage(t) =>
      && t in s.tasks && s.tasks[t].stage.Updating? && s.tasks[t].stage.phase.Staging?
      && var update := s.tasks[t].stage.update;
         && update.frame.AuthFrame?
         && Admission(rule, update.account, update.frame, update.epoch, s.epoch) == Admitted
         && Staged(update.account, Updated(update.account, update.frame)) != staged
    case Settle(t) => t in s.tasks && s.tasks[t].stage.Updating? && s.tasks[t].stage.phase.Settling?
    case _ => false
  }

  /** In any state of any run, locked or not, a step loses a staged login that still
      matters exactly when it considers another copy of the record, stages another
      rotation, or settles a write. */
  lemma LosesExactly(rule: OwnerRule, events: seq<Event>, event: Event, staged: Staged)
    requires Run(rule, events).staged == Some(staged) && staged in Run(rule, events).accepted
    requires Run(rule, events).record == Some(staged.before)
    ensures Lost(Next(rule, Run(rule, events), event), staged) <==> Drops(rule, Run(rule, events), event, staged)
  {
    RunIsSound(rule, events);
    StepLosesExactly(rule, Run(rule, events), event, staged);
  }

  lemma StepLosesExactly(rule: OwnerRule, s: State, event: Event, staged: Staged)
    requires Sound(s) && s.staged == Some(staged) && staged in s.accepted && s.record == Some(staged.before)
    ensures Lost(Next(rule, s, event), staged) <==> Drops(rule, s, event, staged)
  {
    match event
    case Consider(t) =>
      if t in s.tasks && s.tasks[t].stage.Loaded? {
        assert TaskSound(s, s.tasks[t]);
        assert Applies(staged, s.tasks[t].stage.account) <==> s.tasks[t].stage.account == staged.before;
        assert Next(rule, s, event) == AfterConsider(s, t, s.tasks[t].stage.marker, s.tasks[t].stage.account);
      }
    case Stage(t) =>
      if t in s.tasks && s.tasks[t].stage.Updating? && s.tasks[t].stage.phase.Staging? {
        assert Next(rule, s, event) == AfterStage(rule, s, t, s.tasks[t].stage.update);
      }
    case Settle(t) =>
      if t in s.tasks && s.tasks[t].stage.Updating? && s.tasks[t].stage.phase.Settling? {
        assert Next(rule, s, event) == AfterSettle(s, t, s.tasks[t].stage.update);
      }
    case Revoke =>
    case _ => OtherStepsKeepStaged(rule, s, event);
  }

  lemma OtherStepsKeepStaged(rule: OwnerRule, s: State, event: Event)
    requires !event.Consider? && !event.Stage? && !event.Settle? && !event.Revoke?
    ensures Next(rule, s, event).staged == s.staged
  {
  }

  // ---- A load without the lock ---------------------------------------------

  ghost predicate Reachable(rule: OwnerRule, s: State) {
    exists events :: Run(rule, events) == s
  }

  lemma ReachableOnwards(rule: OwnerRule, s: State, more: seq<Event>)
    requires Reachable(rule, s)
    ensures Reachable(rule, RunFrom(rule, s, more))
  {
    var events :| Run(rule, events) == s;
    RunContinues(rule, events, more);
  }

  /** An operation enters, receives a rotated login, stages it and dies before the
      write reaches the vault. */
  lemma RotatesUndelivered(rule: OwnerRule, s: State, t: nat, account: Account, auth: Login)
    requires t in s.tasks && s.tasks[t] == Task(true, s.tasks[t].recovered, Entering(account))
    requires account.revision < U64_MAX && rule(account.auth, auth)
    ensures var staged := Staged(account, Updated(account, AuthFrame(auth)));
      RunFrom(rule, RunFrom(rule, s, [Enter(t), Receive(t, AuthFrame(auth))]), [Stage(t), Finish(t)])
      == s.(tasks := s.tasks - {t}, staged := Some(staged), accepted := s.accepted + {staged})
  {
    var staged := Staged(account, Updated(account, AuthFrame(auth)));
    EntersAndReceives(rule, s, t, account, auth);
    var received := RunFrom(rule, s, [Enter(t), Receive(t, AuthFrame(auth))]);
    RunTwo(rule, received, Stage(t), Finish(t));
    var writing := Next(rule, received, Stage(t));
    assert writing.staged == Some(staged) && writing.accepted == s.accepted + {staged};
    assert writing.tasks - {t} == s.tasks - {t};
  }

  lemma EntersAndReceives(rule: OwnerRule, s: State, t: nat, account: Account, auth: Login)
    requires t in s.tasks && s.tasks[t].stage == Entering(account)
    ensures RunFrom(rule, s, [Enter(t), Receive(t, AuthFrame(auth))])
      == SetStage(s, t, Updating(Staging, Update(account.generation, account, AuthFrame(auth), s.epoch, false)))
  {
    RunTwo(rule, s, Enter(t), Receive(t, AuthFrame(auth)));
    assert Next(rule, s, Enter(t)) == SetStage(s, t, Ready(account, s.epoch));
  }

  lemma ReachableNext(rule: OwnerRule, s: State, event: Event)
    requires Reachable(rule, s)
    ensures Reachable(rule, Next(rule, s, event))
  {
    assert RunFrom(rule, s, [event]) == RunFrom(rule, Next(rule, s, event), []);
    ReachableOnwards(rule, s, [event]);
  }

  lemma CanEnter(rule: OwnerRule, s: State, t: nat)
    requires Reachable(rule, s) && s.tasks == map[] && s.record.Some? && s.staged == None
    ensures Reachable(rule, s.(tasks := map[t := Task(true, None, Entering(s.record.value))]))
  {
    ReadsRecord(rule, s, t, true);
    ReachableOnwards(rule, s, Reads(t, s.record.value.generation, true));
    var read := RunFrom(rule, s, Reads(t, s.record.value.generation, true));
    ReachableNext(rule, read, Consider(t));
    assert Next(rule, read, Consider(t)).tasks == map[t := Task(true, None, Entering(s.record.value))];
  }

  lemma CanRotate(rule: OwnerRule, s: State, t: nat, account: Account, auth: Login)
    requires Reachable(rule, s)
    requires t in s.tasks && s.tasks[t] == Task(true, s.tasks[t].recovered, Entering(account))
    requires account.revision < U64_MAX && rule(account.auth, auth)
    ensures var staged := Staged(account, Updated(account, AuthFrame(auth)));
      Reachable(rule, s.(tasks := s.tasks - {t}, staged := Some(staged), accepted := s.accepted + {staged}))
  {
    RotatesUndelivered(rule, s, t, account, auth);
    ReachableOnwards(rule, s, [Enter(t), Receive(t, AuthFrame(auth))]);
    ReachableOnwards(rule, RunFrom(rule, s, [Enter(t), Receive(t, AuthFrame(auth))]), [Stage(t), Finish(t)]);
  }

  lemma CanReplay(rule: OwnerRule, s: State, t: nat, staged: Staged)
    requires Reachable(rule, s) && t !in s.tasks && forall u :: u in s.tasks ==> !s.tasks[u].locked
    requires s.staged == Some(staged) && s.record == Some(staged.before) && staged in s.accepted
    requires staged.next == Updated(staged.before, AuthFrame(staged.next.auth))
    requires rule(staged.before.auth, staged.next.auth) && staged.before.revision < U64_MAX
    ensures Reachable(rule, Hold(s, staged.next).(
      staged := None, tasks := s.tasks[t := Task(true, Some(staged.next.auth), Entering(staged.next))]))
  {
    ReadsRecord(rule, s, t, true);
    ReachableOnwards(rule, s, Reads(t, staged.before.generation, true));
    var read := RunFrom(rule, s, Reads(t, staged.before.generation, true));
    ReplaysStaged(rule, read, t, staged);
    ReachableOnwards(rule, read, [Consider(t), Stage(t)]);
    var written := RunFrom(rule, read, [Consider(t), Stage(t)]);
    assert ReplayOf(read, staged) == ReplayOf(written, staged);
    ReplayDelivered(rule, written, t, staged, true);
    ReachableOnwards(rule, written, Replays(t, true));
    var entering := Task(true, Some(staged.next.auth), Entering(staged.next));
    assert written.tasks[t := entering] == s.tasks[t := entering];
  }

  /** A load without the lock considers the staged login. */
  lemma CanConsider(rule: OwnerRule, s: State, t: nat, staged: Staged)
    requires Reachable(rule, s) && s.tasks == map[]
    requires s.staged == Some(staged) && s.record == Some(staged.before)
    ensures Reachable(rule, s.(
      tasks := map[t := Task(false, Some(staged.next.auth), Updating(Staging, ReplayOf(s, staged)))]))
  {
    ReadsRecord(rule, s, t, false);
    ReachableOnwards(rule, s, Reads(t, staged.before.generation, false));
    var read := RunFrom(rule, s, Reads(t, staged.before.generation, false));
    ReachableNext(rule, read, Consider(t));
    assert Next(rule, read, Consider(t)).tasks
      == map[t := Task(false, Some(staged.next.auth), Updating(Staging, ReplayOf(s, staged)))];
  }

  lemma HeldIsReachable(rule: OwnerRule, a0: Account)
    ensures Reachable(rule, State(Some(a0), None, 0, map[], {a0}, {}))
  {
    assert Run(rule, []) == INITIAL;
    ReachableNext(rule, INITIAL, Login(a0));
    assert Next(rule, INITIAL, Login(a0)) == State(Some(a0), None, 0, map[], {a0}, {});
  }

  /** The vault holds a record and one rotation of it is staged but not delivered. */
  lemma StagedIsReachable(rule: OwnerRule, a0: Account, auth: Login)
    requires a0.revision < U64_MAX && rule(a0.auth, auth)
    ensures var staged := Staged(a0, Updated(a0, AuthFrame(auth)));
      Reachable(rule, State(Some(a0), Some(staged), 0, map[], {a0}, {staged}))
  {
    var staged := Staged(a0, Updated(a0, AuthFrame(auth)));
    HeldIsReachable(rule, a0);
    var s := State(Some(a0), None, 0, map[], {a0}, {});
    CanEnter(rule, s, 1);
    var entering := s.(tasks := map[1 := Task(true, None, Entering(a0))]);
    CanRotate(rule, entering, 1, a0, auth);
    assert entering.tasks - {1} == map[] && {} + {staged} == {staged};
  }

  function ResetOf(a0: Account, auth: Login): Task {
    Task(false, Some(auth), Updating(Staging, Update(a0.generation, a0, AuthFrame(auth), 0, true)))
  }

  /** A reset, which does not hold the lock, has considered the staged login when
      another operation replays it and stages a second rotation. */
  lemma TwoRotationsAreReachable(rule: OwnerRule, a0: Account, auth: Login, again: Login)
    requires a0.revision + 1 < U64_MAX && rule(a0.auth, auth) && rule(auth, again)
    ensures var a1 := Updated(a0, AuthFrame(auth));
      var first, second := Staged(a0, a1), Staged(a1, Updated(a1, AuthFrame(again)));
      Reachable(rule, State(Some(a1), Some(second), 0, map[9 := ResetOf(a0, auth)], {a0, a1}, {first, second}))
  {
    var a1 := Updated(a0, AuthFrame(auth));
    var first, second := Staged(a0, a1), Staged(a1, Updated(a1, AuthFrame(again)));
    StagedIsReachable(rule, a0, auth);
    var s := State(Some(a0), Some(first), 0, map[], {a0}, {first});
    CanConsider(rule, s, 9, first);
    var considered := s.(tasks := map[9 := ResetOf(a0, auth)]);
    CanReplay(rule, considered, 2, first);
    var entering := State(Some(a1), None, 0, considered.tasks[2 := Task(true, Some(auth), Entering(a1))],
                          {a0} + {a1}, {first});
    assert Reachable(rule, entering);
    CanRotate(rule, entering, 2, a1, again);
    assert entering.tasks - {2} == map[9 := ResetOf(a0, auth)];
    assert {first} + {second} == {first, second} && {a0} + {a1} == {a0, a1};
  }

  /** Loads that do not take the account lock (a reset, a model listing) break the
      promise: one that considered an older staged login overwrites a newer one
      that has not reached the vault. */
  lemma UnlockedLoadLosesLogin(rule: OwnerRule, a0: Account, auth: Login, again: Login)
    requires a0.revision + 1 < U64_MAX && rule(a0.auth, auth) && rule(auth, again)
    ensures exists s, staged ::
      && Reachable(rule, s) && staged in s.accepted
      && s.record == Some(staged.before) && s.staged != Some(staged)
  {
    var a1 := Updated(a0, AuthFrame(auth));
    var first, second := Staged(a0, a1), Staged(a1, Updated(a1, AuthFrame(again)));
    var s := State(Some(a1), Some(second), 0, map[9 := ResetOf(a0, auth)], {a0, a1}, {first, second});
    TwoRotationsAreReachable(rule, a0, auth, again);
    ReachableNext(rule, s, Stage(9));
    var lost := Next(rule, s, Stage(9));
    assert second in lost.accepted && lost.staged == Some(first);
  }

  /** A load has staged the login for its write-back when the revocation comes: the
      request that is under way still writes it. */
  lemma RevokedLoadStillWrites(rule: OwnerRule, a0: Account, auth: Login)
    requires a0.revision < U64_MAX && rule(a0.auth, auth)
    ensures exists s, t, staged ::
      && Reachable(rule, s) && s.staged == Some(staged) && s.record == Some(staged.before)
      && Next(rule, Next(rule, s, Revoke), Send(t, true, true)).record == Some(staged.next)
      && staged.before != staged.next
  {
    var staged := Staged(a0, Updated(a0, AuthFrame(auth)));
    StagedIsReachable(rule, a0, auth);
    var s := State(Some(a0), Some(staged), 0, map[], {a0}, {staged});
    CanConsider(rule, s, 9, staged);
    var considered := s.(tasks := map[9 := ResetOf(a0, auth)]);
    ReachableNext(rule, considered, Stage(9));
    var writing := Next(rule, considered, Stage(9));
    assert ToBeWritten(writing, 9, ResetOf(a0, auth).stage.update);
    assert writing.staged == Some(staged) && writing.record == Some(a0);
    assert Next(rule, Next(rule, writing, Revoke), Send(9, true, true)).record == Some(staged.next);
  }
}
