/** The pool of Claude processes and their tool calls
    (crates/aipass-agent/src/claude_bridge.rs).

    A process asks for tools through a helper and waits for the results, which arrive
    with the next turn of the conversation.  Sixteen processes are kept at most. */
module ClaudeBridge {
  import opened Wrappers

  // ---- Tool calls ----------------------------------------------------------

  datatype Call = Call(id: string, name: string, arguments: string, claimed: bool, result: Option<string>)

  /** A tool result of a turn; `id` is missing when it is no string, `content` when
      the result cannot be passed on. */
  datatype ToolResult = ToolResult(id: Option<string>, content: Option<string>)

  datatype Answer = Answer(id: string, content: string)

  function PendingIds(calls: seq<Call>): (ids: set<string>)
    ensures forall id :: id in ids <==> exists i :: 0 <= i < |calls| && calls[i].result.None? && calls[i].id == id
  {
    set i | 0 <= i < |calls| && calls[i].result.None? :: calls[i].id
  }

  function ResultIds(results: seq<ToolResult>): (ids: set<string>)
    ensures forall id :: id in ids <==> exists i :: 0 <= i < |results| && results[i].id == Some(id)
  {
    set i | 0 <= i < |results| && results[i].id.Some? :: results[i].id.value
  }

  function Answers(results: seq<ToolResult>): (answers: seq<Answer>)
    requires forall i :: 0 <= i < |results| ==> results[i].id.Some? && results[i].content.Some?
    ensures |answers| == |results|
    ensures forall i :: 0 <= i < |results| ==> answers[i] == Answer(results[i].id.value, results[i].content.value)
  {
    seq(|results|, i requires 0 <= i < |results| => Answer(results[i].id.value, results[i].content.value))
  }

  /** The turn must hold exactly one result for each pending call. */
  method ValidateResults(calls: seq<Call>, results: seq<ToolResult>) returns (answers: Result<seq<Answer>, ()>)
    ensures results == [] ==> answers == Success([])
    ensures results != [] ==> (answers.Success? <==> Complete(calls, results))
    ensures answers.Success? && results != [] ==> answers.value == Answers(results)
  {
    if results == [] {
      return Success([]);
    }
    var pending := PendingIds(calls);
    var ids := ResultIds(results);
    if ids != pending || |ids| != |results| {
      CountedExactly(calls, results);
      return Failure(());
    }
    CountedExactly(calls, results);
    var converted: seq<Answer> := [];
    for i := 0 to |results|
      invariant |converted| == i
      invariant forall k :: 0 <= k < i ==>
        results[k].content.Some? && converted[k] == Answer(results[k].id.value, results[k].content.value)
    {
      if results[i].content.None? {
        return Failure(());
      }
      converted := converted + [Answer(results[i].id.value, results[i].content.value)];
    }
    assert converted == Answers(results);
    answers := Success(converted);
  }

  /** One result for each pending call, none for anything else, all of them usable. */
  ghost predicate Complete(calls: seq<Call>, results: seq<ToolResult>) {
    && OneEach(calls, results)
    && forall r :: 0 <= r < |results| ==> results[r].content.Some?
  }

  ghost predicate OneEach(calls: seq<Call>, results: seq<ToolResult>) {
    && (forall r :: 0 <= r < |results| ==> results[r].id.Some? && results[r].id.value in PendingIds(calls))
    && AllDifferent(results)
    && (forall id :: id in PendingIds(calls) ==> exists r :: 0 <= r < |results| && results[r].id == Some(id))
  }

  lemma {:induction false} ResultIdsLast(results: seq<ToolResult>)
    requires results != []
    ensures var init, last := results[..|results| - 1], results[|results| - 1];
      ResultIds(results) == ResultIds(init) + (if last.id.Some? then {last.id.value} else {})
  {
    var init, last := results[..|results| - 1], results[|results| - 1];
    forall id
      ensures id in ResultIds(results) <==> id in ResultIds(init) || last.id == Some(id)
    {
      if id in ResultIds(init) {
        var i :| 0 <= i < |init| && init[i].id == Some(id);
        assert results[i].id == Some(id);
      }
      if id in ResultIds(results) {
        var i :| 0 <= i < |results| && results[i].id == Some(id);
        assert i < |init| ==> init[i].id == Some(id);
      }
    }
  }

  ghost predicate AllNamed(results: seq<ToolResult>) {
    forall r :: 0 <= r < |results| ==> results[r].id.Some?
  }

  ghost predicate AllDifferent(results: seq<ToolResult>) {
    forall r, q :: 0 <= r < q < |results| ==> results[r].id != results[q].id
  }

  /** Counting the different ids finds missing and repeated ones alike. */
  lemma {:induction false} CountedIds(results: seq<ToolResult>)
    ensures |ResultIds(results)| <= |results|
    ensures |ResultIds(results)| == |results| <==> AllNamed(results) && AllDifferent(results)
  {
    if results != [] {
      var init, last := results[..|results| - 1], results[|results| - 1];
      ResultIdsLast(results);
      CountedIds(init);
      var repeated := last.id.Some? && last.id.value in ResultIds(init);
      NamedLast(results);
      LastIsNew(results);
      if last.id.None? || repeated {
        assert ResultIds(results) == ResultIds(init);
        assert !AllNamed(results) || !AllDifferent(results);
      } else {
        assert |ResultIds(results)| == |ResultIds(init)| + 1;
        assert AllNamed(results) && AllDifferent(results) <==> AllNamed(init) && AllDifferent(init);
      }
    }
  }

  lemma NamedLast(results: seq<ToolResult>)
    requires results != []
    ensures AllNamed(results) <==> AllNamed(results[..|results| - 1]) && results[|results| - 1].id.Some?
  {
  }

  lemma LastIsNew(results: seq<ToolResult>)
    requires results != []
    ensures var init, last := results[..|results| - 1], results[|results| - 1];
      last.id.Some? ==> (AllDifferent(results) <==> AllDifferent(init) && last.id.value !in ResultIds(init))
  {
    var init, last := results[..|results| - 1], results[|results| - 1];
    assert forall r :: 0 <= r < |init| ==> init[r] == results[r];
    if last.id.Some? && last.id.value in ResultIds(init) {
      var r :| 0 <= r < |init| && init[r].id == last.id;
      assert results[r].id == results[|init|].id;
    }
  }

  lemma CountedExactly(calls: seq<Call>, results: seq<ToolResult>)
    ensures OneEach(calls, results) <==> ResultIds(results) == PendingIds(calls) && |ResultIds(results)| == |results|
  {
    CountedIds(results);
    if OneEach(calls, results) {
      assert forall r :: 0 <= r < |results| ==> results[r].id.value in ResultIds(results);
    }
  }

  function FindCall(calls: seq<Call>, id: string): (i: Option<nat>)
    ensures i.Some? ==> i.value < |calls| && calls[i.value].id == id
    ensures i.None? ==> forall j :: 0 <= j < |calls| ==> calls[j].id != id
  {
    if calls == [] then None
    else if calls[0].id == id then Some(0)
    else
      var rest := FindCall(calls[1..], id);
      if rest.Some? then Some(rest.value + 1) else None
  }

  /** Store the answers one by one, each with the first call of its id. */
  function Store(calls: seq<Call>, answers: seq<Answer>): (after: seq<Call>)
    ensures |after| == |calls|
    decreases |answers|
  {
    if answers == [] then calls
    else
      var at := FindCall(calls, answers[0].id);
      var next := if at.None? then calls else calls[at.value := calls[at.value].(result := Some(answers[0].content))];
      Store(next, answers[1..])
  }

  ghost predicate UniqueIds(calls: seq<Call>) {
    forall i, j :: 0 <= i < j < |calls| ==> calls[i].id != calls[j].id
  }

  ghost predicate SameCalls(before: seq<Call>, after: seq<Call>) {
    && |after| == |before|
    && forall i :: 0 <= i < |before| ==> after[i] == before[i].(result := after[i].result)
  }

  /** With different ids each answer reaches its call and no other call changes. */
  lemma {:induction false} StoreEach(calls: seq<Call>, answers: seq<Answer>)
    requires UniqueIds(calls)
    requires forall a, b :: 0 <= a < b < |answers| ==> answers[a].id != answers[b].id
    ensures SameCalls(calls, Store(calls, answers))
    ensures forall i, a :: 0 <= i < |calls| && 0 <= a < |answers| && answers[a].id == calls[i].id ==>
      Store(calls, answers)[i].result == Some(answers[a].content)
    ensures forall i :: 0 <= i < |calls| && (forall a :: 0 <= a < |answers| ==> answers[a].id != calls[i].id) ==>
      Store(calls, answers)[i] == calls[i]
    decreases |answers|
  {
    if answers != [] {
      var at := FindCall(calls, answers[0].id);
      var next := if at.None? then calls else calls[at.value := calls[at.value].(result := Some(answers[0].content))];
      StoreEach(next, answers[1..]);
      var after := Store(calls, answers);
      forall i, a | 0 <= i < |calls| && 0 <= a < |answers| && answers[a].id == calls[i].id
        ensures after[i].result == Some(answers[a].content)
      {
        if a > 0 {
          assert answers[1..][a - 1] == answers[a];
        } else {
          assert forall b :: 0 <= b < |answers[1..]| ==> answers[1..][b].id != next[i].id;
        }
      }
      forall i | 0 <= i < |calls| && (forall a :: 0 <= a < |answers| ==> answers[a].id != calls[i].id)
        ensures after[i] == calls[i]
      {
        assert answers[0].id != calls[i].id;
        assert forall b :: 0 <= b < |answers[1..]| ==> answers[1..][b].id != next[i].id;
      }
    }
  }

  /** A turn of results either answers every pending call, each with its own result,
      and touches no call answered before, or changes nothing. */
  method AnswerCalls(calls: seq<Call>, results: seq<ToolResult>) returns (ok: bool, after: seq<Call>)
    requires results != [] && UniqueIds(calls)
    ensures ok <==> Complete(calls, results)
    ensures !ok ==> after == calls
    ensures ok ==> SameCalls(calls, after) && PendingIds(after) == {}
    ensures ok ==> forall i :: 0 <= i < |calls| && calls[i].result.Some? ==> after[i] == calls[i]
    ensures ok ==> forall i, r :: 0 <= i < |calls| && 0 <= r < |results| && results[r].id == Some(calls[i].id) ==>
      after[i].result == results[r].content
  {
    var answers := ValidateResults(calls, results);
    if answers.Failure? {
      return false, calls;
    }
    after := calls;
    for k := 0 to |answers.value|
      invariant Store(after, answers.value[k..]) == Store(calls, answers.value)
    {
      assert answers.value[k..][0] == answers.value[k] && answers.value[k..][1..] == answers.value[k + 1..];
      var at := FindCall(after, answers.value[k].id);
      if at.Some? {
        after := after[at.value := after[at.value].(result := Some(answers.value[k].content))];
      }
    }
    AnswersReachCalls(calls, results);
    ok := true;
  }

  lemma AnswersReachCalls(calls: seq<Call>, results: seq<ToolResult>)
    requires UniqueIds(calls) && Complete(calls, results)
    ensures var after := Store(calls, Answers(results));
      && SameCalls(calls, after) && PendingIds(after) == {}
      && (forall i :: 0 <= i < |calls| && calls[i].result.Some? ==> after[i] == calls[i])
      && (forall i, r :: 0 <= i < |calls| && 0 <= r < |results| && results[r].id == Some(calls[i].id) ==>
        after[i].result == results[r].content)
  {
    StoreEach(calls, Answers(results));
    var after := Store(calls, Answers(results));
    forall i | 0 <= i < |calls|
      ensures after[i].result.Some? && (calls[i].result.Some? ==> after[i] == calls[i])
    {
      AnswerReaches(calls, results, i);
    }
    forall i, r | 0 <= i < |calls| && 0 <= r < |results| && results[r].id == Some(calls[i].id)
      ensures after[i].result == results[r].content
    {
      assert Answers(results)[r].id == calls[i].id;
    }
  }

  lemma AnswerReaches(calls: seq<Call>, results: seq<ToolResult>, i: nat)
    requires UniqueIds(calls) && Complete(calls, results) && i < |calls|
    ensures Store(calls, Answers(results))[i].result.Some?
    ensures calls[i].result.Some? ==> Store(calls, Answers(results))[i] == calls[i]
  {
    var answers := Answers(results);
    StoreEach(calls, answers);
    if calls[i].result.None? {
      assert calls[i].id in PendingIds(calls);
      var r :| 0 <= r < |results| && results[r].id == Some(calls[i].id);
      assert answers[r].id == calls[i].id;
    } else {
      forall a | 0 <= a < |answers|
        ensures answers[a].id != calls[i].id
      {
        var j :| 0 <= j < |calls| && calls[j].result.None? && calls[j].id == results[a].id.value;
      }
    }
  }

  /** Ids decide where an answer goes, not results. */
  lemma {:induction false} FindIgnoresResults(calls: seq<Call>, at: nat, result: Option<string>, id: string)
    requires at < |calls|
    ensures FindCall(calls[at := calls[at].(result := result)], id) == FindCall(calls, id)
    decreases |calls|
  {
    var changed := calls[at := calls[at].(result := result)];
    assert changed[0].id == calls[0].id;
    if calls[0].id != id {
      if at == 0 {
        assert changed[1..] == calls[1..];
      } else {
        assert changed[1..] == calls[1..][at - 1 := calls[1..][at - 1].(result := result)];
        FindIgnoresResults(calls[1..], at - 1, result, id);
      }
    }
  }

  /** Whatever ids the calls have, an answer reaches the first call of its id only. */
  lemma {:induction false} StoreReachesFirst(calls: seq<Call>, answers: seq<Answer>, i: nat)
    requires i < |calls| && forall a, b :: 0 <= a < b < |answers| ==> answers[a].id != answers[b].id
    ensures FindCall(calls, calls[i].id) != Some(i) ==> Store(calls, answers)[i] == calls[i]
    ensures (forall a :: 0 <= a < |answers| ==> answers[a].id != calls[i].id) ==> Store(calls, answers)[i] == calls[i]
    ensures FindCall(calls, calls[i].id) == Some(i) ==>
      forall a :: 0 <= a < |answers| && answers[a].id == calls[i].id ==>
        Store(calls, answers)[i].result == Some(answers[a].content)
    decreases |answers|
  {
    if answers != [] {
      var at := FindCall(calls, answers[0].id);
      var next := if at.None? then calls else calls[at.value := calls[at.value].(result := Some(answers[0].content))];
      if at.Some? {
        FindIgnoresResults(calls, at.value, Some(answers[0].content), calls[i].id);
      }
      StoreReachesFirst(next, answers[1..], i);
      assert forall a :: 0 < a < |answers| ==> answers[1..][a - 1] == answers[a];
    }
  }

  /** A complete turn of results leaves no call waiting exactly if no waiting call comes
      after another of the same id. */
  lemma AllAnsweredExactly(calls: seq<Call>, results: seq<ToolResult>)
    requires Complete(calls, results)
    ensures PendingIds(Store(calls, Answers(results))) == {} <==>
      forall i, j :: 0 <= i < j < |calls| && calls[j].result.None? ==> calls[i].id != calls[j].id
  {
    var answers := Answers(results);
    var after := Store(calls, answers);
    forall j | 0 <= j < |calls|
      ensures after[j].result.None? <==> calls[j].result.None? && FindCall(calls, calls[j].id) != Some(j)
    {
      StoreReachesFirst(calls, answers, j);
      if calls[j].result.None? {
        assert calls[j].id in PendingIds(calls);
        var r :| 0 <= r < |results| && results[r].id == Some(calls[j].id);
        assert answers[r].id == calls[j].id;
      }
    }
    forall j | 0 <= j < |calls|
      ensures FindCall(calls, calls[j].id) == Some(j) <==> forall i :: 0 <= i < j ==> calls[i].id != calls[j].id
    {
      FindIsFirst(calls, j);
    }
    if PendingIds(after) == {} {
      forall j | 0 <= j < |calls|
        ensures after[j].result.Some?
      {
        assert after[j].id !in PendingIds(after);
      }
    }
  }

  lemma {:induction false} FindIsFirst(calls: seq<Call>, j: nat)
    requires j < |calls|
    ensures FindCall(calls, calls[j].id) == Some(j) <==> forall i :: 0 <= i < j ==> calls[i].id != calls[j].id
  {
    if j > 0 && calls[0].id != calls[j].id {
      FindIsFirst(calls[1..], j - 1);
      assert calls[1..][j - 1] == calls[j];
      assert forall i :: 0 < i < j ==> calls[1..][i - 1] == calls[i];
      if forall i :: 0 <= i < j - 1 ==> calls[1..][i].id != calls[j].id {
        assert forall i :: 0 <= i < j ==> calls[i].id != calls[j].id;
      }
    }
  }

  // ---- The helper's side ---------------------------------------------------

  function FindUnclaimed(calls: seq<Call>, name: string, arguments: string): (i: Option<nat>)
    ensures i.Some? ==> i.value < |calls| && !calls[i.value].claimed
    ensures i.Some? ==> calls[i.value].name == name && calls[i.value].arguments == arguments
    ensures i.None? ==> forall j :: 0 <= j < |calls| ==>
      calls[j].claimed || calls[j].name != name || calls[j].arguments != arguments
  {
    if calls == [] then None
    else if !calls[0].claimed && calls[0].name == name && calls[0].arguments == arguments then Some(0)
    else
      var rest := FindUnclaimed(calls[1..], name, arguments);
      if rest.Some? then Some(rest.value + 1) else None
  }

  function Claim(calls: seq<Call>, name: string, arguments: string): (seq<Call>, Option<string>) {
    var at := FindUnclaimed(calls, name, arguments);
    if at.None? then (calls, None)
    else (calls[at.value := calls[at.value].(claimed := true)], Some(calls[at.value].id))
  }

  function FindClaimed(calls: seq<Call>, id: string): (i: Option<nat>)
    ensures i.Some? ==> i.value < |calls| && calls[i.value].claimed && calls[i.value].id == id
    ensures i.None? ==> forall j :: 0 <= j < |calls| ==> !calls[j].claimed || calls[j].id != id
  {
    if calls == [] then None
    else if calls[0].claimed && calls[0].id == id then Some(0)
    else
      var rest := FindClaimed(calls[1..], id);
      if rest.Some? then Some(rest.value + 1) else None
  }

  /** Unknown calls are refused; a known one may still be pending. */
  function Poll(calls: seq<Call>, id: string): Result<Option<string>, ()> {
    var at := FindClaimed(calls, id);
    if at.None? then Failure(()) else Success(calls[at.value].result)
  }

  /** The calls of one process.  `used` are all ids there ever were, `claims` what
      the helper was given in order, `given` the accepted results. */
  datatype Session = Session(calls: seq<Call>, used: set<string>, claims: seq<string>, given: map<string, string>)

  const EMPTY := Session([], {}, [], map[])

  datatype Event =
    | Collected(id: string, name: string, arguments: string)
    | CallTool(name: string, arguments: string)
    | Turn(results: seq<ToolResult>)
    | NewMessage

  function Given(given: map<string, string>, answers: seq<Answer>): map<string, string>
    decreases |answers|
  {
    if answers == [] then given else Given(given[answers[0].id := answers[0].content], answers[1..])
  }

  ghost function Next(s: Session, event: Event): Session {
    match event
    case Collected(id, name, arguments) =>
      if id in s.used then s
      else s.(calls := s.calls + [Call(id, name, arguments, false, None)], used := s.used + {id})
    case CallTool(name, arguments) =>
      var (calls, claimed) := Claim(s.calls, name, arguments);
      if claimed.None? then s else s.(calls := calls, claims := s.claims + [claimed.value])
    case Turn(results) =>
      if results == [] || !Complete(s.calls, results) then s
      else s.(calls := Store(s.calls, Answers(results)), given := Given(s.given, Answers(results)))
    case NewMessage => s.(calls := [])
  }

  ghost function Run(events: seq<Event>): Session {
    if events == [] then EMPTY else Next(Run(events[..|events| - 1]), events[|events| - 1])
  }

  ghost predicate Sound(s: Session) {
    && UniqueIds(s.calls)
    && (forall i :: 0 <= i < |s.calls| ==> CallSound(s, s.calls[i]))
    && (forall i, j :: 0 <= i < j < |s.claims| ==> s.claims[i] != s.claims[j])
    && (forall id :: id in s.claims || id in s.given ==> id in s.used)
  }

  ghost predicate CallSound(s: Session, c: Call) {
    && c.id in s.used
    && (c.claimed <==> c.id in s.claims)
    && (c.result.Some? <==> c.id in s.given)
    && (c.result.Some? ==> s.given[c.id] == c.result.value)
  }

  predicate Answered(answers: seq<Answer>, id: string) {
    exists a :: 0 <= a < |answers| && answers[a].id == id
  }

  lemma AnsweredFirst(answers: seq<Answer>, id: string)
    requires answers != []
    ensures Answered(answers, id) <==> answers[0].id == id || Answered(answers[1..], id)
  {
    if Answered(answers[1..], id) {
      var b :| 0 <= b < |answers[1..]| && answers[1..][b].id == id;
      assert answers[b + 1].id == id;
    }
    if Answered(answers, id) && answers[0].id != id {
      var a :| 0 <= a < |answers| && answers[a].id == id;
      assert answers[1..][a - 1].id == id;
    }
  }

  lemma {:induction false} GivenIds(given: map<string, string>, answers: seq<Answer>, id: string)
    ensures id in Given(given, answers) <==> id in given || Answered(answers, id)
    ensures !Answered(answers, id) && id in given ==> Given(given, answers)[id] == given[id]
    decreases |answers|
  {
    if answers != [] {
      AnsweredFirst(answers, id);
      GivenIds(given[answers[0].id := answers[0].content], answers[1..], id);
    }
  }

  lemma {:induction false} GivenContent(given: map<string, string>, answers: seq<Answer>, a: nat)
    requires forall b, c :: 0 <= b < c < |answers| ==> answers[b].id != answers[c].id
    requires a < |answers|
    ensures answers[a].id in Given(given, answers) && Given(given, answers)[answers[a].id] == answers[a].content
    decreases |answers|
  {
    var more := given[answers[0].id := answers[0].content];
    if a > 0 {
      GivenContent(more, answers[1..], a - 1);
    } else {
      forall b | 0 <= b < |answers[1..]|
        ensures answers[1..][b].id != answers[0].id
      {
        assert answers[1..][b] == answers[b + 1];
      }
      GivenIds(more, answers[1..], answers[0].id);
    }
  }

  lemma TurnKeepsSound(s: Session, results: seq<ToolResult>)
    requires Sound(s) && results != [] && Complete(s.calls, results)
    ensures Sound(Next(s, Turn(results)))
  {
    var answers, after := Answers(results), Next(s, Turn(results));
    AnswersReachCalls(s.calls, results);
    forall i | 0 <= i < |after.calls|
      ensures CallSound(after, after.calls[i])
    {
      assert CallSound(s, s.calls[i]);
      TurnReaches(s, results, i);
    }
    forall id | id in after.given
      ensures id in after.used
    {
      GivenIds(s.given, answers, id);
      if id !in s.given {
        var a :| 0 <= a < |answers| && answers[a].id == id;
        var j :| 0 <= j < |s.calls| && s.calls[j].result.None? && s.calls[j].id == results[a].id.value;
        assert CallSound(s, s.calls[j]);
      }
    }
  }

  lemma TurnReaches(s: Session, results: seq<ToolResult>, i: nat)
    requires Sound(s) && Complete(s.calls, results) && i < |s.calls|
    ensures var given, id := Given(s.given, Answers(results)), s.calls[i].id;
      id in given && Some(given[id]) == Store(s.calls, Answers(results))[i].result
  {
    var answers := Answers(results);
    AnswersReachCalls(s.calls, results);
    assert CallSound(s, s.calls[i]);
    GivenIds(s.given, answers, s.calls[i].id);
    if s.calls[i].result.None? {
      assert s.calls[i].id in PendingIds(s.calls);
      var r :| 0 <= r < |results| && results[r].id == Some(s.calls[i].id);
      GivenContent(s.given, answers, r);
    } else {
      forall a | 0 <= a < |answers|
        ensures answers[a].id != s.calls[i].id
      {
        var j :| 0 <= j < |s.calls| && s.calls[j].result.None? && s.calls[j].id == results[a].id.value;
      }
    }
  }

  lemma ClaimKeepsSound(s: Session, name: string, arguments: string)
    requires Sound(s)
    ensures Sound(Next(s, CallTool(name, arguments)))
  {
    var at := FindUnclaimed(s.calls, name, arguments);
    if at.Some? {
      var after := Next(s, CallTool(name, arguments));
      assert CallSound(s, s.calls[at.value]);
      forall i | 0 <= i < |after.calls|
        ensures CallSound(after, after.calls[i])
      {
        assert CallSound(s, s.calls[i]);
      }
    }
  }

  lemma CollectedKeepsSound(s: Session, id: string, name: string, arguments: string)
    requires Sound(s) && id !in s.used
    ensures Sound(Next(s, Collected(id, name, arguments)))
  {
    var after := Next(s, Collected(id, name, arguments));
    forall i | 0 <= i < |after.calls|
      ensures CallSound(after, after.calls[i])
    {
      assert i < |s.calls| ==> CallSound(s, s.calls[i]);
    }
    forall i | 0 <= i < |s.calls|
      ensures after.calls[i].id != id
    {
      assert CallSound(s, s.calls[i]);
    }
  }

  lemma {:induction false} RunIsSound(events: seq<Event>)
    ensures Sound(Run(events))
  {
    if events != [] {
      var s, event := Run(events[..|events| - 1]), events[|events| - 1];
      RunIsSound(events[..|events| - 1]);
      match event
      case Collected(id, name, arguments) =>
        if id !in s.used {
          CollectedKeepsSound(s, id, name, arguments);
        }
      case CallTool(name, arguments) => ClaimKeepsSound(s, name, arguments);
      case Turn(results) =>
        if results != [] && Complete(s.calls, results) {
          TurnKeepsSound(s, results);
        }
      case NewMessage =>
    }
  }

  ghost predicate Asks(calls: seq<Call>, id: string, name: string, arguments: string) {
    exists c :: c in calls && c.id == id && c.claimed && c.name == name && c.arguments == arguments
  }

  /** No entry is ever handed to the helper twice, so identical calls get different
      ones, and an entry handed out asks for the very tool and arguments. */
  lemma ClaimsAreDistinct(events: seq<Event>, name: string, arguments: string)
    ensures var s := Run(events); var (calls, claimed) := Claim(s.calls, name, arguments);
      && (forall i, j :: 0 <= i < j < |s.claims| ==> s.claims[i] != s.claims[j])
      && (claimed.Some? ==> claimed.value !in s.claims && Asks(calls, claimed.value, name, arguments))
  {
    RunIsSound(events);
    var s := Run(events);
    var at := FindUnclaimed(s.calls, name, arguments);
    if at.Some? {
      assert CallSound(s, s.calls[at.value]);
      var calls := Claim(s.calls, name, arguments).0;
      assert calls[at.value] == s.calls[at.value].(claimed := true);
      assert calls[at.value] in calls;
    }
  }

  /** What a helper reads for a call is the result that was accepted for that id, and
      only for a call handed to it. */
  lemma PollReadsOwnResult(events: seq<Event>, id: string)
    ensures var s := Run(events); match Poll(s.calls, id)
      case Success(Some(content)) => id in s.claims && id in s.given && s.given[id] == content
      case Success(None) => id in s.claims && id !in s.given
      case Failure(_) => forall i :: 0 <= i < |s.calls| && s.calls[i].id == id ==> id !in s.claims
  {
    RunIsSound(events);
    var s := Run(events);
    var at := FindClaimed(s.calls, id);
    if at.Some? {
      assert CallSound(s, s.calls[at.value]);
    } else {
      forall i | 0 <= i < |s.calls| && s.calls[i].id == id
        ensures id !in s.claims
      {
        assert CallSound(s, s.calls[i]);
      }
    }
  }
}
