/** The queue between sync requests and the polling macOS shell
    (crates/aipass-agent/src/cloudkit.rs).

    Requesters and exchanges share one lock and one condition variable.  Each
    region that holds the lock is one step; an exchange that waits for work
    releases the lock and so takes two steps. */
module CloudKit {
  import opened Wrappers

  type Id = nat

  datatype Task = Task(id: Id, command: string)

  datatype Completion = Completion(id: Id, reply: string)

  const POLL_WINDOW: nat := 60_000

  datatype Queue = Queue(waiting: seq<Task>, active: Option<Task>, lastPoll: Option<nat>)

  /** What an exchange does when it leaves its first locked region. */
  datatype Turn = Hands(task: Task) | Waits

  /** Polled within the last minute. */
  predicate Recent(lastPoll: Option<nat>, now: nat) {
    lastPoll.Some? && now <= lastPoll.value + POLL_WINDOW
  }

  function Ids(tasks: seq<Task>): (ids: seq<Id>)
    ensures |ids| == |tasks| && forall i :: 0 <= i < |ids| ==> ids[i] == tasks[i].id
  {
    seq(|tasks|, i requires 0 <= i < |tasks| => tasks[i].id)
  }

  function ActiveId(q: Queue): seq<Id> {
    if q.active.Some? then [q.active.value.id] else []
  }

  /** The completion ends the active task if it names it. */
  function Acknowledge(q: Queue, completion: Option<Completion>): Queue {
    if completion.Some? && q.active.Some? && q.active.value.id == completion.value.id
    then q.(active := None) else q
  }

  function Pop(q: Queue): (Queue, Option<Task>) {
    if q.waiting == [] then (q, None)
    else (q.(waiting := q.waiting[1..], active := Some(q.waiting[0])), Some(q.waiting[0]))
  }

  function Arrive(q: Queue, completion: Option<Completion>, now: nat): (Queue, Turn) {
    var polled := Acknowledge(q.(lastPoll := Some(now)), completion);
    if polled.active.Some? then (polled, Hands(polled.active.value))
    else if polled.waiting == [] then (polled, Waits)
    else (Pop(polled).0, Hands(polled.waiting[0]))
  }

  function Without(tasks: seq<Task>, id: Id): (rest: seq<Task>)
    ensures forall task :: task in rest <==> task in tasks && task.id != id
  {
    if tasks == [] then []
    else
      var last := tasks[|tasks| - 1];
      Without(tasks[..|tasks| - 1], id) + (if last.id == id then [] else [last])
  }

  /** A requester gives its task up, wherever it is. */
  function Withdraw(q: Queue, id: Id): Queue {
    q.(waiting := Without(q.waiting, id),
       active := if q.active.Some? && q.active.value.id == id then None else q.active)
  }

  class CloudKitBridge {
    var waiting: seq<Task>
    var active: Option<Task>
    var lastPoll: Option<nat>

    constructor ()
      ensures View() == Queue([], None, None)
    {
      waiting, active, lastPoll := [], None, None;
    }

    function View(): Queue
      reads this
    {
      Queue(waiting, active, lastPoll)
    }

    /** First region of an exchange; `delivered` is the reply sent to a requester. */
    method BeginExchange(completion: Option<Completion>, now: nat) returns (turn: Turn, delivered: Option<Completion>)
      modifies this
      ensures (View(), turn) == Arrive(old(View()), completion, now)
      ensures delivered == if old(active).Some? && completion.Some? && old(active).value.id == completion.value.id
        then completion else None
    {
      lastPoll := Some(now);
      delivered := None;
      if completion.Some? {
        if active.Some? && active.value.id == completion.value.id {
          active := None;
          delivered := completion;
        }
      }
      if active.Some? {
        return Hands(active.value), delivered;
      }
      if waiting == [] {
        return Waits, delivered;
      }
      var task := TakeNext();
      turn := Hands(task.value);
    }

    /** Second region of an exchange that waited. */
    method TakeNext() returns (task: Option<Task>)
      modifies this
      ensures (View(), task) == Pop(old(View()))
    {
      if waiting == [] {
        return None;
      }
      task := Some(waiting[0]);
      active := task;
      waiting := waiting[1..];
    }

    method Enqueue(task: Task, now: nat) returns (accepted: bool)
      modifies this
      ensures accepted == Recent(old(lastPoll), now)
      ensures View() == if accepted then old(View()).(waiting := old(waiting) + [task]) else old(View())
    {
      if !Recent(lastPoll, now) {
        return false;
      }
      waiting := waiting + [task];
      accepted := true;
    }

    /** Last region of a request. */
    method Leave(id: Id)
      modifies this
      ensures View() == Withdraw(old(View()), id)
    {
      var kept: seq<Task> := [];
      for i := 0 to |waiting|
        invariant waiting == old(waiting) && active == old(active) && lastPoll == old(lastPoll)
        invariant kept == Without(waiting[..i], id)
      {
        assert waiting[..i + 1][..i] == waiting[..i];
        if waiting[i].id != id {
          kept := kept + [waiting[i]];
        }
      }
      assert waiting[..|waiting|] == waiting;
      waiting := kept;
      if active.Some? && active.value.id == id {
        active := None;
      }
    }
  }

  // ---- All interleavings ---------------------------------------------------

  /** Where a request is: waiting for a first poll, waiting for its reply, about to
      leave with what it received, or gone. */
  datatype Request =
    | Parked(task: Task)
    | Queued
    | Leaving(received: Option<Completion>)
    | Gone(received: Option<Completion>)

  /** `enqueued`, `handed` and `completed` are histories; `withdrawn` holds the tasks
      given up by their requesters and `displaced` those overwritten while active. */
  datatype State = State(
    queue: Queue,
    now: nat,
    requests: map<Id, Request>,
    inbox: map<Id, Completion>,
    blocked: set<nat>,
    enqueued: seq<Id>,
    handed: seq<Id>,
    completed: seq<Id>,
    withdrawn: seq<Id>,
    displaced: seq<Id>
  )

  const INITIAL := State(Queue([], None, None), 0, map[], map[], {}, [], [], [], [], [])

  datatype Event =
    | Tick(elapsed: nat)
    | Request(task: Task)
    | Recheck(id: Id)
    | Begin(exchange: nat, completion: Option<Completion>)
    | Resume(exchange: nat)
    | Receive(id: Id)
    | GiveUp(id: Id)
    | Leave(id: Id)

  function Submit(s: State, task: Task): State {
    s.(queue := s.queue.(waiting := s.queue.waiting + [task]),
       requests := s.requests[task.id := Queued],
       enqueued := s.enqueued + [task.id])
  }

  function HandNext(s: State): State {
    var (popped, task) := Pop(s.queue);
    if task.None? then s
    else s.(queue := popped, handed := s.handed + [task.value.id], displaced := s.displaced + ActiveId(s.queue))
  }

  function BeginStep(s: State, exchange: nat, completion: Option<Completion>): State {
    var polled := s.queue.(lastPoll := Some(s.now));
    var ends := completion.Some? && s.queue.active.Some? && s.queue.active.value.id == completion.value.id;
    var s1 := if ends then s.(queue := polled.(active := None),
                              inbox := s.inbox[completion.value.id := completion.value],
                              completed := s.completed + [completion.value.id])
              else s.(queue := polled);
    if s1.queue.active.Some? then s1
    else if s1.queue.waiting == [] then s1.(blocked := s1.blocked + {exchange})
    else HandNext(s1)
  }

  /** One step; an event that is not enabled changes nothing.  Request ids are
      fresh, and a reply already delivered outlives its sender. */
  function Next(s: State, event: Event): State {
    match event
    case Tick(elapsed) => s.(now := s.now + elapsed)
    case Request(task) =>
      if task.id in s.requests then s
      else if Recent(s.queue.lastPoll, s.now) then Submit(s, task)
      else s.(requests := s.requests[task.id := Parked(task)])
    case Recheck(id) =>
      if id !in s.requests || !s.requests[id].Parked? then s
      else if Recent(s.queue.lastPoll, s.now) then Submit(s, s.requests[id].task)
      else s.(requests := s.requests[id := Gone(None)])
    case Begin(exchange, completion) =>
      if exchange in s.blocked then s else BeginStep(s, exchange, completion)
    case Resume(exchange) =>
      if exchange !in s.blocked then s else HandNext(s.(blocked := s.blocked - {exchange}))
    case Receive(id) =>
      if id !in s.requests || !s.requests[id].Queued? || id !in s.inbox then s
      else s.(requests := s.requests[id := Leaving(Some(s.inbox[id]))], inbox := s.inbox - {id})
    case GiveUp(id) =>
      if id !in s.requests || !s.requests[id].Queued? then s
      else s.(requests := s.requests[id := Leaving(None)])
    case Leave(id) =>
      if id !in s.requests || !s.requests[id].Leaving? then s
      else s.(queue := Withdraw(s.queue, id),
              requests := s.requests[id := Gone(s.requests[id].received)],
              withdrawn := s.withdrawn + if Holds(s.queue, id) then [id] else [])
  }

  predicate Holds(q: Queue, id: Id) {
    id in Ids(q.waiting) + ActiveId(q)
  }

  function Run(events: seq<Event>): State {
    if events == [] then INITIAL else Next(Run(events[..|events| - 1]), events[|events| - 1])
  }

  // ---- Invariants ----------------------------------------------------------

  ghost predicate Distinct(ids: seq<Id>) {
    forall i, j :: 0 <= i < j < |ids| ==> ids[i] != ids[j]
  }

  /** `sub` lists some elements of `whole` in their order there. */
  ghost predicate InOrder(sub: seq<Id>, whole: seq<Id>) {
    if sub == [] then true
    else if whole == [] then false
    else
      var matches := sub[|sub| - 1] == whole[|whole| - 1];
      InOrder(if matches then sub[..|sub| - 1] else sub, whole[..|whole| - 1])
  }

  /** Every task enqueued is in exactly one place. */
  ghost predicate Conserved(s: State) {
    multiset(s.enqueued) == multiset(Ids(s.queue.waiting)) + multiset(ActiveId(s.queue))
      + multiset(s.completed) + multiset(s.withdrawn) + multiset(s.displaced)
  }

  ghost predicate RequestSound(s: State, id: Id, request: Request) {
    match request
    case Parked(task) => task.id == id && id !in s.enqueued
    case Queued => id in s.enqueued
    case Leaving(received) => id in s.enqueued && Own(s, id, received)
    case Gone(received) => !Holds(s.queue, id) && Own(s, id, received)
  }

  /** What a request received carries its id and came after its task was handed out. */
  ghost predicate Own(s: State, id: Id, received: Option<Completion>) {
    received.Some? ==> received.value.id == id && id in s.handed && id in s.completed
  }

  ghost predicate Sound(s: State) {
    && Distinct(s.enqueued)
    && (forall id :: id in s.enqueued ==> id in s.requests && !s.requests[id].Parked?)
    && Conserved(s)
    && InOrder(s.handed + Ids(s.queue.waiting), s.enqueued)
    && (forall id :: id in ActiveId(s.queue) || id in s.completed ==> id in s.handed)
    && (forall id :: id in s.inbox ==> Own(s, id, Some(s.inbox[id])))
    && (forall id :: id in s.requests ==> RequestSound(s, id, s.requests[id]))
  }

  lemma {:induction false} DistinctCount(ids: seq<Id>, id: Id)
    requires Distinct(ids)
    ensures multiset(ids)[id] == if id in ids then 1 else 0
  {
    if ids != [] {
      var init := ids[..|ids| - 1];
      assert ids == init + [ids[|ids| - 1]];
      DistinctCount(init, id);
    }
  }

  lemma {:induction false} InOrderShorter(sub: seq<Id>, whole: seq<Id>)
    requires sub != [] && InOrder(sub, whole)
    ensures InOrder(sub[..|sub| - 1], whole)
    decreases |whole|, 0
  {
    var init := whole[..|whole| - 1];
    if sub[|sub| - 1] == whole[|whole| - 1] {
      InOrderLater(sub[..|sub| - 1], init, whole[|whole| - 1]);
      assert init + [whole[|whole| - 1]] == whole;
    } else {
      InOrderShorter(sub, init);
      InOrderLater(sub[..|sub| - 1], init, whole[|whole| - 1]);
      assert init + [whole[|whole| - 1]] == whole;
    }
  }

  lemma {:induction false} InOrderLater(sub: seq<Id>, whole: seq<Id>, last: Id)
    requires InOrder(sub, whole)
    ensures InOrder(sub, whole + [last])
    decreases |whole|, 1
  {
    assert (whole + [last])[..|whole|] == whole;
    if sub != [] && sub[|sub| - 1] == last {
      InOrderShorter(sub, whole);
    }
  }

  lemma {:induction false} InOrderPrefix(a: seq<Id>, b: seq<Id>, whole: seq<Id>)
    requires InOrder(a + b, whole)
    ensures InOrder(a, whole)
  {
    if b == [] {
      assert a + b == a;
    } else {
      InOrderShorter(a + b, whole);
      assert (a + b)[..|a + b| - 1] == a + b[..|b| - 1];
      InOrderPrefix(a, b[..|b| - 1], whole);
    }
  }

  lemma InOrderAppend(sub: seq<Id>, whole: seq<Id>, last: Id)
    requires InOrder(sub, whole)
    ensures InOrder(sub + [last], whole + [last])
  {
    assert (sub + [last])[..|sub|] == sub && (whole + [last])[..|whole|] == whole;
  }

  lemma IdsOfMore(tasks: seq<Task>, task: Task)
    ensures Ids(tasks + [task]) == Ids(tasks) + [task.id]
  {
  }

  lemma CountOneMore(ids: seq<Id>, id: Id)
    ensures multiset(ids + [id]) == multiset(ids) + multiset{id}
  {
  }

  /** The ids that are left. */
  function Remove(ids: seq<Id>, id: Id): seq<Id> {
    if ids == [] then []
    else
      var last := ids[|ids| - 1];
      Remove(ids[..|ids| - 1], id) + (if last == id then [] else [last])
  }

  lemma RemoveLast(init: seq<Id>, last: Id, id: Id)
    ensures Remove(init + [last], id) == Remove(init, id) + (if last == id then [] else [last])
  {
    assert (init + [last])[..|init|] == init;
  }

  lemma {:induction false} IdsWithout(tasks: seq<Task>, id: Id)
    ensures Ids(Without(tasks, id)) == Remove(Ids(tasks), id)
  {
    if tasks != [] {
      var init, last := tasks[..|tasks| - 1], tasks[|tasks| - 1];
      IdsWithout(init, id);
      assert tasks == init + [last];
      IdsOfMore(init, last);
      RemoveLast(Ids(init), last.id, id);
      IdsOfMore(Without(init, id), last);
    }
  }

  lemma {:induction false} RemoveInOrder(prefix: seq<Id>, ids: seq<Id>, id: Id, whole: seq<Id>)
    requires InOrder(prefix + ids, whole)
    ensures InOrder(prefix + Remove(ids, id), whole)
    decreases |whole|, |ids|
  {
    if ids != [] {
      var init, last := ids[..|ids| - 1], ids[|ids| - 1];
      var shorter := prefix + init;
      assert prefix + ids == shorter + [last];
      assert (shorter + [last])[..|shorter|] == shorter;
      if last == id {
        InOrderShorter(shorter + [last], whole);
        RemoveInOrder(prefix, init, id, whole);
        assert Remove(ids, id) == Remove(init, id);
      } else {
        RemoveOther(prefix, init, last, id, whole);
        assert ids == init + [last];
      }
    }
  }

  lemma {:induction false} RemoveOther(prefix: seq<Id>, init: seq<Id>, last: Id, id: Id, whole: seq<Id>)
    requires last != id && InOrder(prefix + init + [last], whole)
    ensures InOrder(prefix + Remove(init + [last], id), whole)
    decreases |whole|, |init| + 1, 0
  {
    var front, end := whole[..|whole| - 1], whole[|whole| - 1];
    var shorter := prefix + init;
    assert whole == front + [end];
    assert (shorter + [last])[..|shorter|] == shorter;
    RemoveLast(init, last, id);
    if last == end {
      RemoveInOrder(prefix, init, id, front);
      InOrderAppend(prefix + Remove(init, id), front, last);
      assert prefix + Remove(init + [last], id) == prefix + Remove(init, id) + [last];
    } else {
      RemoveOther(prefix, init, last, id, front);
      InOrderLater(prefix + Remove(init + [last], id), front, end);
    }
  }

  lemma WithoutInOrder(prefix: seq<Id>, tasks: seq<Task>, id: Id, whole: seq<Id>)
    requires InOrder(prefix + Ids(tasks), whole)
    ensures InOrder(prefix + Ids(Without(tasks, id)), whole)
  {
    IdsWithout(tasks, id);
    RemoveInOrder(prefix, Ids(tasks), id, whole);
  }

  lemma {:induction false} RemoveCount(ids: seq<Id>, id: Id)
    ensures multiset(Remove(ids, id)) == multiset(ids)[id := 0]
  {
    if ids != [] {
      var init, last := ids[..|ids| - 1], ids[|ids| - 1];
      RemoveCount(init, id);
      assert ids == init + [last];
      CountOneMore(init, last);
      CountOneMore(Remove(init, id), last);
    }
  }

  lemma WithoutCount(tasks: seq<Task>, id: Id)
    ensures multiset(Ids(Without(tasks, id))) == multiset(Ids(tasks))[id := 0]
  {
    IdsWithout(tasks, id);
    RemoveCount(Ids(tasks), id);
  }

  /** No task is in two places. */
  lemma OnePlace(s: State, id: Id)
    requires Sound(s)
    ensures multiset(Ids(s.queue.waiting))[id] + multiset(ActiveId(s.queue))[id] + multiset(s.completed)[id]
      + multiset(s.withdrawn)[id] + multiset(s.displaced)[id] == if id in s.enqueued then 1 else 0
  {
    DistinctCount(s.enqueued, id);
  }

  lemma SubmitConserves(s: State, task: Task)
    requires Conserved(s)
    ensures Conserved(Submit(s, task))
  {
    IdsOfMore(s.queue.waiting, task);
    CountOneMore(Ids(s.queue.waiting), task.id);
    CountOneMore(s.enqueued, task.id);
  }

  lemma SubmitKeepsOrder(handed: seq<Id>, waiting: seq<Task>, enqueued: seq<Id>, task: Task)
    requires InOrder(handed + Ids(waiting), enqueued)
    ensures InOrder(handed + Ids(waiting + [task]), enqueued + [task.id])
  {
    var sub := handed + Ids(waiting);
    assert handed + Ids(waiting + [task]) == sub + [task.id];
    assert (sub + [task.id])[..|sub|] == sub && (enqueued + [task.id])[..|enqueued|] == enqueued;
  }

  lemma SubmitKeepsSound(s: State, task: Task)
    requires Sound(s) && task.id !in s.enqueued
    requires task.id in s.requests ==> s.requests[task.id].Parked?
    ensures Sound(Submit(s, task))
  {
    var after := Submit(s, task);
    SubmitConserves(s, task);
    SubmitKeepsOrder(s.handed, s.queue.waiting, s.enqueued, task);
    forall id | id in after.requests
      ensures RequestSound(after, id, after.requests[id])
    {
      if id != task.id {
        assert RequestSound(s, id, s.requests[id]);
        assert Ids(after.queue.waiting) == Ids(s.queue.waiting) + [task.id];
      }
    }
    forall id | id in after.inbox
      ensures Own(after, id, Some(after.inbox[id]))
    {
      assert Own(s, id, Some(s.inbox[id]));
    }
  }

  lemma HandNextConserves(s: State)
    requires Conserved(s) && s.queue.waiting != []
    ensures Conserved(HandNext(s))
  {
    assert Ids(s.queue.waiting) == [s.queue.waiting[0].id] + Ids(s.queue.waiting[1..]);
  }

  lemma PopHolds(q: Queue, id: Id)
    requires q.waiting != []
    ensures Holds(Pop(q).0, id) ==> Holds(q, id)
  {
    assert Ids(q.waiting) == [q.waiting[0].id] + Ids(q.waiting[1..]);
  }

  lemma HandNextKeepsOrder(s: State)
    requires s.queue.waiting != []
    ensures HandNext(s).handed + Ids(HandNext(s).queue.waiting) == s.handed + Ids(s.queue.waiting)
  {
    IdsOfRest(s.queue.waiting);
  }

  lemma IdsOfRest(tasks: seq<Task>)
    requires tasks != []
    ensures Ids(tasks) == [tasks[0].id] + Ids(tasks[1..])
  {
  }

  lemma HandNextKeepsRequest(s: State, id: Id)
    requires s.queue.waiting != [] && id in s.requests && RequestSound(s, id, s.requests[id])
    ensures RequestSound(HandNext(s), id, s.requests[id])
  {
    PopHolds(s.queue, id);
  }

  lemma HandNextKeepsSound(s: State)
    requires Sound(s)
    ensures Sound(HandNext(s))
  {
    if s.queue.waiting != [] {
      var after := HandNext(s);
      assert Conserved(after) by { HandNextConserves(s); }
      assert InOrder(after.handed + Ids(after.queue.waiting), after.enqueued) by { HandNextKeepsOrder(s); }
      assert forall id :: id in s.handed ==> id in after.handed;
      forall id | id in after.requests
        ensures RequestSound(after, id, after.requests[id])
      {
        HandNextKeepsRequest(s, id);
      }
      forall id | id in after.inbox
        ensures Own(after, id, Some(after.inbox[id]))
      {
        assert Own(s, id, Some(s.inbox[id]));
      }
    }
  }

  lemma CompleteKeepsSound(s: State, completion: Completion, polled: Queue)
    requires Sound(s) && s.queue.active.Some? && s.queue.active.value.id == completion.id
    requires polled == s.queue.(lastPoll := polled.lastPoll)
    ensures Sound(s.(queue := polled.(active := None),
                     inbox := s.inbox[completion.id := completion],
                     completed := s.completed + [completion.id]))
  {
    var after := s.(queue := polled.(active := None),
                    inbox := s.inbox[completion.id := completion],
                    completed := s.completed + [completion.id]);
    assert ActiveId(s.queue) == [completion.id] && ActiveId(after.queue) == [];
    forall id | id in after.requests
      ensures RequestSound(after, id, after.requests[id])
    {
      assert RequestSound(s, id, s.requests[id]);
    }
    forall id | id in after.inbox
      ensures Own(after, id, Some(after.inbox[id]))
    {
      assert id in s.inbox ==> Own(s, id, Some(s.inbox[id]));
    }
  }

  /** A step that leaves the queue's tasks and the histories alone. */
  lemma QuietStepKeepsSound(s: State, after: State)
    requires Sound(s)
    requires after.queue == s.queue.(lastPoll := after.queue.lastPoll)
    requires after.enqueued == s.enqueued && after.handed == s.handed && after.completed == s.completed
    requires after.withdrawn == s.withdrawn && after.displaced == s.displaced
    requires forall id :: id in after.inbox ==> id in s.inbox && after.inbox[id] == s.inbox[id]
    requires forall id :: id in s.requests ==> id in after.requests
    requires forall id :: id in after.requests ==>
      (id in s.requests && after.requests[id] == s.requests[id])
      || (RequestSound(s, id, after.requests[id]) && (after.requests[id].Parked? ==> id !in s.requests))
    ensures Sound(after)
  {
    assert ActiveId(after.queue) == ActiveId(s.queue);
    forall id | id in after.requests
      ensures RequestSound(after, id, after.requests[id])
    {
      assert id in s.requests ==> RequestSound(s, id, s.requests[id]);
    }
    forall id | id in after.inbox
      ensures Own(after, id, Some(after.inbox[id]))
    {
      assert Own(s, id, Some(s.inbox[id]));
    }
  }

  lemma BeginKeepsSound(s: State, exchange: nat, completion: Option<Completion>)
    requires Sound(s)
    ensures Sound(BeginStep(s, exchange, completion))
  {
    var polled := s.queue.(lastPoll := Some(s.now));
    var ends := completion.Some? && s.queue.active.Some? && s.queue.active.value.id == completion.value.id;
    var s1 := s.(queue := polled);
    if ends {
      CompleteKeepsSound(s, completion.value, polled);
      s1 := s.(queue := polled.(active := None),
               inbox := s.inbox[completion.value.id := completion.value],
               completed := s.completed + [completion.value.id]);
    } else {
      QuietStepKeepsSound(s, s1);
    }
    HandNextKeepsSound(s1);
    QuietStepKeepsSound(s1, s1.(blocked := s1.blocked + {exchange}));
  }

  lemma LeaveKeepsRequest(s: State, id: Id, other: Id)
    requires Sound(s) && id in s.requests && s.requests[id].Leaving? && other in s.requests
    ensures RequestSound(Next(s, Leave(id)), other, Next(s, Leave(id)).requests[other])
  {
    assert RequestSound(s, other, s.requests[other]);
    HoldsLess(s.queue, id, other);
  }

  lemma LeaveKeepsSound(s: State, id: Id)
    requires Sound(s) && id in s.requests && s.requests[id].Leaving?
    ensures Sound(Next(s, Leave(id)))
  {
    var after := Next(s, Leave(id));
    assert Conserved(after) by { LeaveConserves(s, id); }
    assert InOrder(after.handed + Ids(after.queue.waiting), after.enqueued) by {
      WithoutInOrder(s.handed, s.queue.waiting, id, s.enqueued);
    }
    forall other | other in after.requests
      ensures RequestSound(after, other, after.requests[other])
    {
      LeaveKeepsRequest(s, id, other);
    }
    forall other | other in after.inbox
      ensures Own(after, other, Some(after.inbox[other]))
    {
      assert Own(s, other, Some(s.inbox[other]));
    }
  }

  lemma HoldsLess(q: Queue, id: Id, other: Id)
    ensures Holds(Withdraw(q, id), other) ==> Holds(q, other) && other != id
  {
    var kept := Without(q.waiting, id);
    if other in Ids(kept) {
      var i :| 0 <= i < |kept| && Ids(kept)[i] == other;
      assert kept[i] in q.waiting;
      var j :| 0 <= j < |q.waiting| && q.waiting[j] == kept[i];
      assert Ids(q.waiting)[j] == other;
    }
  }

  lemma LeaveConserves(s: State, id: Id)
    requires Sound(s) && id in s.requests && s.requests[id].Leaving?
    ensures Conserved(Next(s, Leave(id))) && !Holds(Next(s, Leave(id)).queue, id)
  {
    HoldsLess(s.queue, id, id);
    OnePlace(s, id);
    WithdrawConserves(s, Next(s, Leave(id)), id);
  }

  lemma WithdrawConserves(s: State, after: State, id: Id)
    requires Conserved(s) && after.queue == Withdraw(s.queue, id)
    requires multiset(Ids(s.queue.waiting))[id] + multiset(ActiveId(s.queue))[id] <= 1
    requires after.enqueued == s.enqueued && after.completed == s.completed && after.displaced == s.displaced
    requires after.withdrawn == s.withdrawn + if Holds(s.queue, id) then [id] else []
    ensures Conserved(after)
  {
    WithoutCount(s.queue.waiting, id);
    var w, a := multiset(Ids(s.queue.waiting)), multiset(ActiveId(s.queue));
    assert multiset(Ids(after.queue.waiting)) == w[id := 0];
    assert multiset(ActiveId(after.queue)) == a[id := 0];
    assert Holds(s.queue, id) <==> w[id] + a[id] == 1;
    var out := if w[id] + a[id] == 1 then multiset{id} else multiset{};
    LeaveCount(w, a, id);
    assert multiset(after.withdrawn) == multiset(s.withdrawn) + out;
    Regroup(w + a, w[id := 0] + a[id := 0], out, multiset(s.completed), multiset(s.withdrawn), multiset(s.displaced));
  }

  lemma Regroup(held: multiset<Id>, left: multiset<Id>, out: multiset<Id>, c: multiset<Id>, w: multiset<Id>,
      d: multiset<Id>)
    requires held == left + out
    ensures held + c + w + d == left + c + (w + out) + d
  {
  }

  lemma LeaveCount(w: multiset<Id>, a: multiset<Id>, id: Id)
    requires w[id] + a[id] <= 1
    ensures w + a == w[id := 0] + a[id := 0] + (if w[id] + a[id] == 1 then multiset{id} else multiset{})
  {
  }

  lemma RequestKeepsSound(s: State, event: Event)
    requires Sound(s) && (event.Request? || event.Recheck?)
    ensures Sound(Next(s, event))
  {
    match event
    case Request(task) =>
      if task.id !in s.requests {
        if Recent(s.queue.lastPoll, s.now) {
          SubmitKeepsSound(s, task);
        } else {
          QuietStepKeepsSound(s, Next(s, event));
        }
      }
    case Recheck(id) =>
      if id in s.requests && s.requests[id].Parked? {
        assert RequestSound(s, id, s.requests[id]);
        if Recent(s.queue.lastPoll, s.now) {
          SubmitKeepsSound(s, s.requests[id].task);
        } else {
          OnePlace(s, id);
          QuietStepKeepsSound(s, Next(s, event));
        }
      }
  }

  lemma QuietKeepsSound(s: State, event: Event)
    requires Sound(s) && (event.Tick? || event.Receive? || event.GiveUp?)
    ensures Sound(Next(s, event))
  {
    var after := Next(s, event);
    if !event.Tick? && after != s {
      assert RequestSound(s, event.id, s.requests[event.id]);
    }
    QuietStepKeepsSound(s, after);
  }

  lemma ResumeKeepsSound(s: State, exchange: nat)
    requires Sound(s)
    ensures Sound(Next(s, Resume(exchange)))
  {
    if exchange in s.blocked {
      var unblocked := s.(blocked := s.blocked - {exchange});
      QuietStepKeepsSound(s, unblocked);
      HandNextKeepsSound(unblocked);
      assert Next(s, Resume(exchange)) == HandNext(unblocked);
    } else {
      assert Next(s, Resume(exchange)) == s;
    }
  }

  lemma ExchangeKeepsSound(s: State, event: Event)
    requires Sound(s) && (event.Begin? || event.Resume?)
    ensures Sound(Next(s, event))
  {
    NextOfBegin(s, event);
    if event.Resume? {
      ResumeKeepsSound(s, event.exchange);
    } else if event.exchange !in s.blocked {
      BeginKeepsSound(s, event.exchange, event.completion);
    }
  }

  lemma NextOfBegin(s: State, event: Event)
    ensures event.Begin? ==>
      Next(s, event) == if event.exchange in s.blocked then s else BeginStep(s, event.exchange, event.completion)
  {
  }

  lemma StepKeepsSound(s: State, event: Event)
    requires Sound(s)
    ensures Sound(Next(s, event))
  {
    match event
    case Request(_) => RequestKeepsSound(s, event);
    case Recheck(_) => RequestKeepsSound(s, event);
    case Begin(_, _) => ExchangeKeepsSound(s, event);
    case Resume(_) => ExchangeKeepsSound(s, event);
    case Leave(id) =>
      if id in s.requests && s.requests[id].Leaving? {
        LeaveKeepsSound(s, id);
      } else {
        assert Next(s, event) == s;
      }
    case _ => QuietKeepsSound(s, event);
  }

  lemma {:induction false} RunIsSound(events: seq<Event>)
    ensures Sound(Run(events))
  {
    if events != [] {
      RunIsSound(events[..|events| - 1]);
      StepKeepsSound(Run(events[..|events| - 1]), events[|events| - 1]);
    }
  }

  /** A request that is gone left nothing behind, and what it received, if anything,
      is a reply to its own task sent after that task was handed out; a task is
      answered at most once. */
  lemma RequestsGetTheirOwnReply(events: seq<Event>, id: Id)
    requires id in Run(events).requests && Run(events).requests[id].Gone?
    ensures var s := Run(events);
      && !Holds(s.queue, id)
      && (s.requests[id].received.Some? ==> s.requests[id].received.value.id == id && id in s.handed)
      && multiset(s.completed)[id] <= 1
  {
    RunIsSound(events);
    var s := Run(events);
    assert RequestSound(s, id, s.requests[id]);
    OnePlace(s, id);
  }

  /** Tasks are first handed out in the order in which they were enqueued, and each
      enqueued task is waiting, active, completed, withdrawn or displaced. */
  lemma FirstInFirstOut(events: seq<Event>)
    ensures var s := Run(events);
      && InOrder(s.handed, s.enqueued)
      && |s.enqueued| == |s.queue.waiting| + |ActiveId(s.queue)| + |s.completed| + |s.withdrawn| + |s.displaced|
  {
    RunIsSound(events);
    var s := Run(events);
    InOrderPrefix(s.handed, Ids(s.queue.waiting), s.enqueued);
    assert |multiset(s.enqueued)| == |s.enqueued|;
  }

  // ---- One exchange at a time ----------------------------------------------

  /** No exchange begins while another waits for work. */
  ghost predicate OneAtATime(events: seq<Event>) {
    events == [] || (
      && OneAtATime(events[..|events| - 1])
      && (events[|events| - 1].Begin? ==> Run(events[..|events| - 1]).blocked == {}))
  }

  ghost predicate Undisturbed(s: State) {
    && s.displaced == []
    && (forall x, y :: x in s.blocked && y in s.blocked ==> x == y)
    && (s.blocked != {} ==> s.queue.active.None?)
  }

  lemma {:induction false} ExclusiveRunIsUndisturbed(events: seq<Event>)
    requires OneAtATime(events)
    ensures Undisturbed(Run(events))
  {
    if events != [] {
      ExclusiveRunIsUndisturbed(events[..|events| - 1]);
    }
  }

  /** With one exchange at a time no active task is lost: it stays active until it
      is completed or its requester leaves, and every exchange repeats it. */
  lemma ActiveTaskIsRepeated(events: seq<Event>, task: Task, event: Event)
    requires OneAtATime(events) && (event.Begin? ==> Run(events).blocked == {})
    requires Run(events).queue.active == Some(task)
    requires event != Leave(task.id)
    requires event.Begin? && event.completion.Some? ==> event.completion.value.id != task.id
    ensures Next(Run(events), event).queue.active == Some(task)
    ensures event.Begin? ==> Arrive(Run(events).queue, event.completion, Run(events).now).1 == Hands(task)
  {
    ExclusiveRunIsUndisturbed(events);
  }

  /** An active task is displaced exactly when a waiting exchange resumes and finds
      both a task still active and another one waiting. */
  lemma DisplacedExactly(s: State, event: Event)
    ensures Next(s, event).displaced != s.displaced <==>
      event.Resume? && event.exchange in s.blocked && s.queue.active.Some? && s.queue.waiting != []
  {
    match event
    case Begin(exchange, completion) =>
    case _ =>
  }

  /** The machine's exchange is the bridge's: the same queue comes out. */
  lemma BeginIsArrive(s: State, exchange: nat, completion: Option<Completion>)
    ensures BeginStep(s, exchange, completion).queue == Arrive(s.queue, completion, s.now).0
  {
  }

  /** Two overlapping exchanges do lose an active task: the second one resumes after
      the first has taken its task and does not look at what is active. */
  lemma OverlapDisplaces(first: Task, second: Task)
    requires first.id != second.id
    ensures exists events :: Run(events).displaced == [first.id]
  {
    var s := INITIAL;
    var e: seq<Event> := [];
    e, s := Extend(e, s, Begin(1, None));
    assert s == INITIAL.(queue := Queue([], None, Some(0)), blocked := {1});
    e, s := Extend(e, s, Begin(2, None));
    e, s := Extend(e, s, Request(first));
    e, s := Extend(e, s, Request(second));
    assert s.queue == Queue([first, second], None, Some(0)) && s.blocked == {1, 2} && s.displaced == [];
    e, s := Extend(e, s, Resume(1));
    assert s.queue == Queue([second], Some(first), Some(0)) && s.blocked == {2} && s.displaced == [];
    e, s := Extend(e, s, Resume(2));
    assert s.displaced == [first.id];
  }

  lemma Extend(events: seq<Event>, s: State, event: Event) returns (longer: seq<Event>, after: State)
    requires Run(events) == s
    ensures longer == events + [event] && after == Next(s, event) == Run(longer)
  {
    longer, after := events + [event], Next(s, event);
    assert longer[..|longer| - 1] == events;
  }
}
