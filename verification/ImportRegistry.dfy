/** The registry of import jobs (crates/aipass-agent/src/subscription_import.rs,
    struct Imports).

    One job is current; finished ones stay for a while so that their results can be
    read.  Workers keep their own reference to a job, so a job that leaves the
    registry goes on unless it was told to stop. */
module ImportRegistry {
  import opened Wrappers

  type Ticket = nat
  type Session = nat

  /** Seconds a finished job can be read. */
  const KEPT_FOR: nat := 300

  datatype Job = Job(session: Session, finishedAt: Option<nat>, cancelled: bool)

  /** `jobs` holds every job ever started. */
  datatype State = State(now: nat, jobs: map<Ticket, Job>, current: Option<Ticket>, completed: set<Ticket>)

  const INITIAL := State(0, map[], None, {})

  predicate Expired(job: Job, now: nat) {
    job.finishedAt.Some? && now >= job.finishedAt.value + KEPT_FOR
  }

  predicate Unfinished(job: Job) {
    job.finishedAt.None?
  }

  // ---- Operations ----------------------------------------------------------

  ghost predicate Valid(s: State) {
    && (s.current.Some? ==> s.current.value in s.jobs)
    && (forall t :: t in s.completed ==> t in s.jobs)
  }

  /** The job a ticket names, for its own session and while it is kept. */
  function Find(s: State, session: Session, ticket: Ticket): Option<Job>
    requires Valid(s)
  {
    if s.current != Some(ticket) && ticket !in s.completed then None
    else if s.jobs[ticket].session != session || Expired(s.jobs[ticket], s.now) then None
    else Some(s.jobs[ticket])
  }

  function StopJob(s: State, ticket: Ticket): State
    requires ticket in s.jobs
  {
    s.(jobs := s.jobs[ticket := s.jobs[ticket].(cancelled := true)])
  }

  /** The current job makes room: a finished one of the same session can still be
      read, any other is stopped. */
  function Shelve(s: State, session: Session): State
    requires Valid(s)
  {
    if s.current.None? then s
    else
      var previous := s.current.value;
      if s.jobs[previous].session == session && !Unfinished(s.jobs[previous])
      then s.(current := None, completed := s.completed + {previous})
      else StopJob(s, previous).(current := None)
  }

  predicate Conflicts(s: State, session: Session)
    requires Valid(s)
  {
    s.current.Some? && s.jobs[s.current.value].session == session && Unfinished(s.jobs[s.current.value])
  }

  /** `begins` is false when the vault or the worker cannot be had; the old job has
      been shelved by then. */
  function Start(s: State, session: Session, ticket: Ticket, begins: bool): State
    requires Valid(s) && ticket !in s.jobs
  {
    if Conflicts(s, session) then s
    else
      var shelved := Shelve(s, session);
      if !begins then shelved
      else shelved.(jobs := shelved.jobs[ticket := Job(session, None, false)], current := Some(ticket))
  }

  function Clear(s: State): State
    requires Valid(s)
  {
    (if s.current.Some? then StopJob(s, s.current.value) else s).(current := None, completed := {})
  }

  function Prune(s: State): State
    requires Valid(s)
  {
    s.(current := if s.current.Some? && Expired(s.jobs[s.current.value], s.now) then None else s.current,
       completed := set t | t in s.completed && !Expired(s.jobs[t], s.now))
  }

  // ---- The registry --------------------------------------------------------

  class Imports {
    var now: nat
    var jobs: map<Ticket, Job>
    var current: Option<Ticket>
    var completed: set<Ticket>

    constructor ()
      ensures View() == INITIAL && Valid(View())
    {
      now, jobs, current, completed := 0, map[], None, {};
    }

    function View(): State
      reads this
    {
      State(now, jobs, current, completed)
    }

    method FindJob(session: Session, ticket: Ticket) returns (job: Option<Job>)
      requires Valid(View())
      ensures job == Find(View(), session, ticket)
    {
      job := None;
      if current == Some(ticket) && jobs[ticket].session == session {
        job := Some(jobs[ticket]);
      } else if ticket in completed && jobs[ticket].session == session {
        job := Some(jobs[ticket]);
      }
      if job.Some? && Expired(job.value, now) {
        job := None;
      }
    }

    method StartJob(session: Session, ticket: Ticket, begins: bool) returns (ok: bool)
      requires Valid(View()) && ticket !in jobs
      modifies this
      ensures View() == Start(old(View()), session, ticket, begins) && Valid(View())
      ensures ok <==> begins && !Conflicts(old(View()), session)
    {
      if current.Some? && jobs[current.value].session == session && jobs[current.value].finishedAt.None? {
        return false;
      }
      if current.Some? {
        var previous := current.value;
        if jobs[previous].session == session && jobs[previous].finishedAt.Some? {
          completed := completed + {previous};
        } else {
          jobs := jobs[previous := jobs[previous].(cancelled := true)];
        }
        current := None;
      }
      if !begins {
        return false;
      }
      jobs := jobs[ticket := Job(session, None, false)];
      current := Some(ticket);
      ok := true;
    }

    method ClearJobs()
      requires Valid(View())
      modifies this
      ensures View() == Clear(old(View())) && Valid(View())
    {
      if current.Some? {
        jobs := jobs[current.value := jobs[current.value].(cancelled := true)];
        current := None;
      }
      completed := {};
    }

    method PruneJobs()
      requires Valid(View())
      modifies this
      ensures View() == Prune(old(View())) && Valid(View())
    {
      if current.Some? && Expired(jobs[current.value], now) {
        current := None;
      }
      completed := Unexpired(jobs, completed, now);
    }

    /** The filter over the finished jobs, one at a time. */
    static method Unexpired(jobs: map<Ticket, Job>, tickets: set<Ticket>, now: nat) returns (kept: set<Ticket>)
      requires tickets <= jobs.Keys
      ensures kept == set t | t in tickets && !Expired(jobs[t], now)
    {
      kept := {};
      var rest := tickets;
      while rest != {}
        invariant rest <= tickets
        invariant forall t :: t in kept <==> t in tickets && t !in rest && !Expired(jobs[t], now)
        decreases |rest|
      {
        var t :| t in rest;
        rest := rest - {t};
        if !Expired(jobs[t], now) {
          kept := kept + {t};
        }
      }
    }
  }

  // ---- Whole runs ----------------------------------------------------------

  datatype Event =
    | Tick(elapsed: nat)
    | StartImport(session: Session, ticket: Ticket, begins: bool)
    | JobEnds(ticket: Ticket)
    | CancelImport(session: Session, ticket: Ticket)
    | ClearAll
    | PruneAll

  function Next(s: State, event: Event): (after: State)
    requires Valid(s)
    ensures Valid(after)
  {
    match event
    case Tick(elapsed) => s.(now := s.now + elapsed)
    case StartImport(session, ticket, begins) => if ticket in s.jobs then s else Start(s, session, ticket, begins)
    case JobEnds(ticket) =>
      if ticket !in s.jobs || !Unfinished(s.jobs[ticket]) then s
      else s.(jobs := s.jobs[ticket := s.jobs[ticket].(finishedAt := Some(s.now))])
    case CancelImport(session, ticket) =>
      var found := Find(s, session, ticket);
      if found.Some? && Unfinished(found.value) then StopJob(s, ticket) else s
    case ClearAll => Clear(s)
    case PruneAll => Prune(s)
  }

  function Run(s: State, events: seq<Event>): (after: State)
    requires Valid(s)
    ensures Valid(after)
    decreases |events|
  {
    if events == [] then s else Next(Run(s, events[..|events| - 1]), events[|events| - 1])
  }

  /** A job that is neither finished nor told to stop is the current one. */
  ghost predicate OneLive(s: State) {
    forall t :: t in s.jobs && Unfinished(s.jobs[t]) && !s.jobs[t].cancelled ==> s.current == Some(t)
  }

  /** Whatever sessions come and go, at most one job is at large: every other one
      has ended or has been told to stop. */
  lemma {:induction false} AtMostOneLiveJob(events: seq<Event>)
    ensures OneLive(Run(INITIAL, events))
    decreases |events|
  {
    if events != [] {
      AtMostOneLiveJob(events[..|events| - 1]);
      StepKeepsOneLive(Run(INITIAL, events[..|events| - 1]), events[|events| - 1]);
    }
  }

  lemma StepKeepsOneLive(s: State, event: Event)
    requires Valid(s) && OneLive(s)
    ensures OneLive(Next(s, event))
  {
  }

  /** A job that ended and is still in the registry, of a given session. */
  ghost predicate Kept(s: State, session: Session, ticket: Ticket, ended: nat) {
    && ticket in s.jobs && s.jobs[ticket].session == session && s.jobs[ticket].finishedAt == Some(ended)
    && (s.now < ended + KEPT_FOR ==> s.current == Some(ticket) || ticket in s.completed)
  }

  /** As long as the session lasts, the results of a finished import can be read for
      five minutes and no longer, however many imports are started and however often
      the registry is pruned. */
  lemma {:induction false} ResultsStayReadable(s: State, session: Session, ticket: Ticket, ended: nat,
      events: seq<Event>)
    requires Valid(s) && Kept(s, session, ticket, ended)
    requires forall i :: 0 <= i < |events| ==>
      !events[i].ClearAll? && (events[i].StartImport? ==> events[i].session == session)
    ensures Kept(Run(s, events), session, ticket, ended)
    ensures Find(Run(s, events), session, ticket).Some? <==> Run(s, events).now < ended + KEPT_FOR
    decreases |events|
  {
    if events != [] {
      ResultsStayReadable(s, session, ticket, ended, events[..|events| - 1]);
      StepKeepsReadable(Run(s, events[..|events| - 1]), session, ticket, ended, events[|events| - 1]);
    }
  }

  lemma StepKeepsReadable(s: State, session: Session, ticket: Ticket, ended: nat, event: Event)
    requires Valid(s) && Kept(s, session, ticket, ended)
    requires !event.ClearAll? && (event.StartImport? ==> event.session == session)
    ensures Kept(Next(s, event), session, ticket, ended)
  {
  }
}
