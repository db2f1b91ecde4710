/** Canonical vault directories (crates/aipass-agent/src/paths.rs).

    The name of the agent's socket is a hash of the vault directory, which may not
    exist yet and may be spelled through symbolic links.  The canonical form resolves
    the longest existing ancestor and appends the rest by name. */
module VaultPaths {
  import opened Wrappers

  type Name = string

  /** A component of an absolute path; `.` and empty components are gone by then. */
  datatype Component = Normal(name: Name) | ParentDir

  datatype Node = Dir | File | Link(fromRoot: bool, target: seq<Component>)

  /** The root is always a directory and is not listed. */
  type FileSystem = map<seq<Name>, Node>

  predicate IsDir(fs: FileSystem, path: seq<Name>) {
    path == [] || (path in fs && fs[path].Dir?)
  }

  ghost predicate Valid(fs: FileSystem) {
    forall p :: p in fs ==> p != [] && IsDir(fs, p[..|p| - 1])
  }

  function Pop(path: seq<Name>): seq<Name> {
    if path == [] then [] else path[..|path| - 1]
  }

  // ---- Resolving what exists -----------------------------------------------

  datatype Walk = Arrived(path: seq<Name>, left: nat) | NotFound | NotADirectory | TooManyLinks

  /** The system's path resolution from a real position, with a budget of links. */
  function Resolve(fs: FileSystem, at: seq<Name>, todo: seq<Component>, links: nat): (walk: Walk)
    ensures walk.Arrived? ==> walk.left <= links
    decreases links, |todo|
  {
    if todo == [] then Arrived(at, links)
    else if !IsDir(fs, at) then NotADirectory
    else match todo[0]
      case ParentDir => Resolve(fs, Pop(at), todo[1..], links)
      case Normal(name) =>
        var next := at + [name];
        if next !in fs then NotFound
        else match fs[next]
          case Link(fromRoot, target) =>
            if links == 0 then TooManyLinks
            else Resolve(fs, if fromRoot then [] else at, target + todo[1..], links - 1)
          case _ => Resolve(fs, next, todo[1..], links)
  }

  /** The rest of a path, by name alone. */
  function Lexical(path: seq<Name>, rest: seq<Component>): seq<Name>
    decreases |rest|
  {
    if rest == [] then path
    else match rest[0]
      case Normal(name) => Lexical(path + [name], rest[1..])
      case ParentDir => Lexical(Pop(path), rest[1..])
  }

  type Canonical = Result<seq<Name>, Walk>

  /** Try ever shorter ancestors until one exists. */
  function Retry(fs: FileSystem, path: seq<Component>, k: nat, links: nat): Canonical
    requires k <= |path|
  {
    match Resolve(fs, [], path[..k], links)
    case Arrived(resolved, _) => Success(Lexical(resolved, path[k..]))
    case NotFound => if k == 0 then Failure(NotFound) else Retry(fs, path, k - 1, links)
    case error => Failure(error)
  }

  method CanonicalVaultDir(fs: FileSystem, path: seq<Component>, links: nat) returns (canonical: Canonical)
    ensures canonical == Retry(fs, path, |path|, links)
  {
    var k := |path|;
    while true
      invariant 0 <= k <= |path|
      invariant Retry(fs, path, |path|, links) == Retry(fs, path, k, links)
      decreases k
    {
      var walk := Resolve(fs, [], path[..k], links);
      match walk
      case Arrived(ancestor, _) =>
        var resolved := ancestor;
        for i := k to |path|
          invariant Lexical(resolved, path[i..]) == Lexical(ancestor, path[k..])
        {
          assert path[i..][0] == path[i] && path[i..][1..] == path[i + 1..];
          match path[i]
          case Normal(name) => resolved := resolved + [name];
          case ParentDir => resolved := Pop(resolved);
        }
        return Success(resolved);
      case NotFound =>
        if k == 0 {
          return Failure(NotFound);
        }
        k := k - 1;
      case _ => return Failure(walk);
    }
  }

  // ---- One pass ------------------------------------------------------------

  /** The same answer in one pass: resolve component by component, and go on by name
      from the first one that is missing. */
  function Forward(fs: FileSystem, at: seq<Name>, todo: seq<Component>, links: nat): Canonical
    decreases |todo|
  {
    if todo == [] then Success(at)
    else match Resolve(fs, at, todo[..1], links)
      case Arrived(next, left) => Forward(fs, next, todo[1..], left)
      case NotFound => Success(Lexical(at, todo))
      case error => Failure(error)
  }

  function Then(fs: FileSystem, walk: Walk, rest: seq<Component>): Walk {
    if walk.Arrived? then Resolve(fs, walk.path, rest, walk.left) else walk
  }

  lemma {:induction false} ResolveInTwoParts(fs: FileSystem, at: seq<Name>, a: seq<Component>, b: seq<Component>,
      links: nat)
    ensures Resolve(fs, at, a + b, links) == Then(fs, Resolve(fs, at, a, links), b)
    decreases links, |a|
  {
    if a == [] {
      assert a + b == b;
    } else if IsDir(fs, at) {
      assert (a + b)[0] == a[0] && (a + b)[1..] == a[1..] + b;
      match a[0]
      case ParentDir => ResolveInTwoParts(fs, Pop(at), a[1..], b, links);
      case Normal(name) =>
        var next := at + [name];
        if next in fs {
          if fs[next].Link? {
            if links > 0 {
              var target := fs[next].target;
              assert target + (a[1..] + b) == (target + a[1..]) + b;
              ResolveInTwoParts(fs, if fs[next].fromRoot then [] else at, target + a[1..], b, links - 1);
            }
          } else {
            ResolveInTwoParts(fs, next, a[1..], b, links);
          }
        }
    }
  }

  lemma FirstThenRest(fs: FileSystem, at: seq<Name>, todo: seq<Component>, links: nat)
    requires todo != []
    ensures Resolve(fs, at, todo, links) == Then(fs, Resolve(fs, at, todo[..1], links), todo[1..])
  {
    assert todo[..1] + todo[1..] == todo;
    ResolveInTwoParts(fs, at, todo[..1], todo[1..], links);
  }

  lemma {:induction false} ForwardAfter(fs: FileSystem, at: seq<Name>, a: seq<Component>, b: seq<Component>, links: nat)
    requires Resolve(fs, at, a, links).Arrived?
    ensures var walk := Resolve(fs, at, a, links);
      Forward(fs, at, a + b, links) == Forward(fs, walk.path, b, walk.left)
    decreases |a|
  {
    if a == [] {
      assert a + b == b;
    } else {
      assert (a + b)[..1] == a[..1] && (a + b)[1..] == a[1..] + b;
      FirstThenRest(fs, at, a, links);
      var first := Resolve(fs, at, a[..1], links);
      ForwardAfter(fs, first.path, a[1..], b, first.left);
    }
  }

  lemma {:induction false} ForwardFails(fs: FileSystem, at: seq<Name>, todo: seq<Component>, links: nat)
    requires !Resolve(fs, at, todo, links).Arrived? && !Resolve(fs, at, todo, links).NotFound?
    ensures Forward(fs, at, todo, links) == Failure(Resolve(fs, at, todo, links))
    decreases |todo|
  {
    FirstThenRest(fs, at, todo, links);
    var first := Resolve(fs, at, todo[..1], links);
    if first.Arrived? {
      ForwardFails(fs, first.path, todo[1..], first.left);
    }
  }

  lemma {:induction false} LexicalInTwoParts(path: seq<Name>, a: seq<Component>, b: seq<Component>)
    ensures Lexical(path, a + b) == Lexical(Lexical(path, a), b)
    decreases |a|
  {
    if a == [] {
      assert a + b == b;
    } else {
      assert (a + b)[0] == a[0] && (a + b)[1..] == a[1..] + b;
      match a[0]
      case Normal(name) => LexicalInTwoParts(path + [name], a[1..], b);
      case ParentDir => LexicalInTwoParts(Pop(path), a[1..], b);
    }
  }

  function Appended(canonical: Canonical, rest: seq<Component>): Canonical {
    if canonical.Success? then Success(Lexical(canonical.value, rest)) else canonical
  }

  /** Dropping a last component that leads nowhere only defers it. */
  lemma {:induction false} ForwardWithoutLast(fs: FileSystem, at: seq<Name>, a: seq<Component>, last: Component,
      links: nat)
    requires Resolve(fs, at, a + [last], links).NotFound?
    ensures Forward(fs, at, a + [last], links) == Appended(Forward(fs, at, a, links), [last])
    decreases |a|
  {
    var todo := a + [last];
    FirstThenRest(fs, at, todo, links);
    if a == [] {
      assert todo[..1] == todo == [last];
    } else {
      assert todo[..1] == a[..1] && todo[1..] == a[1..] + [last];
      var first := Resolve(fs, at, a[..1], links);
      if first.Arrived? {
        ForwardWithoutLast(fs, first.path, a[1..], last, first.left);
      } else {
        LexicalInTwoParts(at, a, [last]);
      }
    }
  }

  lemma {:induction false} RetryIsForwardUpTo(fs: FileSystem, path: seq<Component>, k: nat, links: nat)
    requires k <= |path|
    ensures Retry(fs, path, k, links) == Appended(Forward(fs, [], path[..k], links), path[k..])
    decreases k
  {
    var walk := Resolve(fs, [], path[..k], links);
    if walk.Arrived? {
      ForwardAfter(fs, [], path[..k], [], links);
      assert path[..k] + [] == path[..k];
    } else if walk.NotFound? {
      if k > 0 {
        var last := path[k - 1];
        assert path[..k] == path[..k - 1] + [last] && path[k - 1..] == [last] + path[k..];
        ForwardWithoutLast(fs, [], path[..k - 1], last, links);
        RetryIsForwardUpTo(fs, path, k - 1, links);
        var shorter := Forward(fs, [], path[..k - 1], links);
        if shorter.Success? {
          LexicalInTwoParts(shorter.value, [last], path[k..]);
        }
      }
    } else {
      ForwardFails(fs, [], path[..k], links);
    }
  }

  /** Trying ancestors from the longest down answers as the single pass does. */
  lemma RetryIsForward(fs: FileSystem, path: seq<Component>, links: nat)
    ensures Retry(fs, path, |path|, links) == Forward(fs, [], path, links)
  {
    RetryIsForwardUpTo(fs, path, |path|, links);
    assert path[..|path|] == path && path[|path|..] == [];
  }

  // ---- Creating directories ------------------------------------------------

  /** More directories, and nothing else. */
  ghost predicate Creates(fs: FileSystem, more: FileSystem) {
    && (forall p :: p in fs ==> p in more && more[p] == fs[p])
    && (forall p :: p in more && p !in fs ==> more[p].Dir?)
  }

  lemma {:induction false} FoundStaysFound(fs: FileSystem, more: FileSystem, at: seq<Name>, todo: seq<Component>,
      links: nat)
    requires Creates(fs, more) && (at == [] || at in fs)
    requires Valid(fs) && !Resolve(fs, at, todo, links).NotFound?
    ensures Resolve(more, at, todo, links) == Resolve(fs, at, todo, links)
    decreases links, |todo|
  {
    if todo != [] && IsDir(fs, at) {
      match todo[0]
      case ParentDir => FoundStaysFound(fs, more, Pop(at), todo[1..], links);
      case Normal(name) =>
        var next := at + [name];
        if fs[next].Link? {
          if links > 0 {
            var target := fs[next].target;
            FoundStaysFound(fs, more, if fs[next].fromRoot then [] else at, target + todo[1..], links - 1);
          }
        } else {
          FoundStaysFound(fs, more, next, todo[1..], links);
        }
    }
  }

  /** Where a walk arrives there is something that is not a link. */
  ghost predicate Real(fs: FileSystem, at: seq<Name>) {
    at == [] || (at in fs && !fs[at].Link?)
  }

  lemma {:induction false} ArrivesAtReal(fs: FileSystem, at: seq<Name>, todo: seq<Component>, links: nat)
    requires Valid(fs) && Real(fs, at) && Resolve(fs, at, todo, links).Arrived?
    ensures Real(fs, Resolve(fs, at, todo, links).path)
    decreases links, |todo|
  {
    if todo != [] {
      match todo[0]
      case ParentDir => ArrivesAtReal(fs, Pop(at), todo[1..], links);
      case Normal(name) =>
        var next := at + [name];
        if fs[next].Link? {
          ArrivesAtReal(fs, if fs[next].fromRoot then [] else at, fs[next].target + todo[1..], links - 1);
        } else {
          ArrivesAtReal(fs, next, todo[1..], links);
        }
    }
  }

  /** Where the pass goes on by name, and with what. */
  datatype Stop = Stop(at: seq<Name>, rest: seq<Component>, left: nat)

  function StopsAt(fs: FileSystem, at: seq<Name>, todo: seq<Component>, links: nat): (stop: Option<Stop>)
    ensures stop.Some? ==> stop.value.rest != [] && stop.value.left <= links
    ensures stop.Some? ==> Resolve(fs, stop.value.at, stop.value.rest[..1], stop.value.left).NotFound?
    ensures stop.Some? ==> Forward(fs, at, todo, links) == Success(Lexical(stop.value.at, stop.value.rest))
    decreases |todo|
  {
    if todo == [] then None
    else match Resolve(fs, at, todo[..1], links)
      case Arrived(next, left) => StopsAt(fs, next, todo[1..], left)
      case NotFound => Some(Stop(at, todo, links))
      case error => None
  }

  lemma {:induction false} StopIsReal(fs: FileSystem, at: seq<Name>, todo: seq<Component>, links: nat)
    requires Valid(fs) && Real(fs, at) && StopsAt(fs, at, todo, links).Some?
    ensures IsDir(fs, StopsAt(fs, at, todo, links).value.at)
    decreases |todo|
  {
    var walk := Resolve(fs, at, todo[..1], links);
    if walk.Arrived? {
      ArrivesAtReal(fs, at, todo[..1], links);
      StopIsReal(fs, walk.path, todo[1..], walk.left);
    }
  }

  /** Walking by name meets no link, and a file only at the end. */
  predicate Plain(fs: FileSystem, at: seq<Name>, rest: seq<Component>)
    decreases |rest|
  {
    if rest == [] then true
    else match rest[0]
      case ParentDir => Plain(fs, Pop(at), rest[1..])
      case Normal(name) =>
        var next := at + [name];
        && (next in fs ==> fs[next].Dir? || (fs[next].File? && rest[1..] == []))
        && Plain(fs, next, rest[1..])
  }

  lemma {:induction false} PlainStaysPlain(fs: FileSystem, more: FileSystem, at: seq<Name>, rest: seq<Component>)
    requires Creates(fs, more) && Plain(fs, at, rest)
    ensures Plain(more, at, rest)
    decreases |rest|
  {
    if rest != [] {
      match rest[0]
      case ParentDir => PlainStaysPlain(fs, more, Pop(at), rest[1..]);
      case Normal(name) => PlainStaysPlain(fs, more, at + [name], rest[1..]);
    }
  }

  lemma {:induction false} PlainIsByName(fs: FileSystem, at: seq<Name>, rest: seq<Component>, links: nat)
    requires Valid(fs) && Plain(fs, at, rest) && (rest == [] || IsDir(fs, at))
    ensures Forward(fs, at, rest, links) == Success(Lexical(at, rest))
    decreases |rest|
  {
    if rest != [] {
      var first := rest[..1];
      assert first[0] == rest[0] && first[1..] == [];
      match rest[0]
      case ParentDir =>
        assert Resolve(fs, at, first, links) == Arrived(Pop(at), links);
        PlainIsByName(fs, Pop(at), rest[1..], links);
      case Normal(name) =>
        var next := at + [name];
        if next in fs {
          assert Resolve(fs, at, first, links) == Arrived(next, links);
          PlainIsByName(fs, next, rest[1..], links);
        }
    }
  }

  /** The path is resolved to its end or to an error, or goes on by name through
      nothing but missing names and real directories. */
  predicate Steady(fs: FileSystem, path: seq<Component>, links: nat) {
    var stop := StopsAt(fs, [], path, links);
    stop.None? || Plain(fs, stop.value.at, stop.value.rest)
  }

  lemma {:induction false} CreatingKeepsForward(fs: FileSystem, more: FileSystem, at: seq<Name>, todo: seq<Component>,
      links: nat)
    requires Valid(fs) && Valid(more) && Creates(fs, more) && Real(fs, at)
    requires var stop := StopsAt(fs, at, todo, links); stop.None? || Plain(fs, stop.value.at, stop.value.rest)
    ensures Forward(more, at, todo, links) == Forward(fs, at, todo, links)
    decreases |todo|
  {
    if todo != [] {
      var walk := Resolve(fs, at, todo[..1], links);
      if walk.NotFound? {
        PlainStaysPlain(fs, more, at, todo);
        PlainIsByName(more, at, todo, links);
      } else {
        FoundStaysFound(fs, more, at, todo[..1], links);
        if walk.Arrived? {
          ArrivesAtReal(fs, at, todo[..1], links);
          CreatingKeepsForward(fs, more, walk.path, todo[1..], walk.left);
        }
      }
    }
  }

  /** The socket name: any function of the canonical directory. */
  function Namespace(hash: seq<Name> -> string, fs: FileSystem, path: seq<Component>,
      links: nat): Result<string, Walk> {
    match Retry(fs, path, |path|, links)
    case Success(canonical) => Success(hash(canonical))
    case Failure(error) => Failure(error)
  }

  /** Creating directories, the missing ones of the vault among them, does not change
      the canonical directory of a steady path, so clients keep finding the agent. */
  lemma CreatingKeepsNamespace(hash: seq<Name> -> string, fs: FileSystem, more: FileSystem, path: seq<Component>,
      links: nat)
    requires Valid(fs) && Valid(more) && Creates(fs, more) && Steady(fs, path, links)
    ensures Retry(more, path, |path|, links) == Retry(fs, path, |path|, links)
    ensures Namespace(hash, more, path, links) == Namespace(hash, fs, path, links)
  {
    CreatingKeepsForward(fs, more, [], path, links);
    RetryIsForward(fs, path, links);
    RetryIsForward(more, path, links);
  }

  // ---- Paths whose missing part has no parent steps -------------------------

  predicate NamesOnly(rest: seq<Component>) {
    forall i :: 0 <= i < |rest| ==> rest[i].Normal?
  }

  lemma {:induction false} MissingIsPlain(fs: FileSystem, at: seq<Name>, rest: seq<Component>)
    requires Valid(fs) && NamesOnly(rest) && rest != [] && at + [rest[0].name] !in fs
    ensures Plain(fs, at, rest)
    decreases |rest|
  {
    if |rest| > 1 {
      var next := at + [rest[0].name];
      var child := next + [rest[1].name];
      assert child[..|child| - 1] == next;
      MissingIsPlain(fs, next, rest[1..]);
    }
  }

  /** Directories that make a walk find something, whatever it finds. */
  function Completed(fs: FileSystem, at: seq<Name>, todo: seq<Component>, links: nat): FileSystem
    decreases links, |todo|
  {
    if todo == [] || !IsDir(fs, at) then fs
    else match todo[0]
      case ParentDir => Completed(fs, Pop(at), todo[1..], links)
      case Normal(name) =>
        var next := at + [name];
        if next !in fs then Completed(fs[next := Dir], next, todo[1..], links)
        else match fs[next]
          case Link(fromRoot, target) =>
            if links == 0 then fs
            else Completed(fs, if fromRoot then [] else at, target + todo[1..], links - 1)
          case _ => Completed(fs, next, todo[1..], links)
  }

  lemma MakesDirectory(fs: FileSystem, at: seq<Name>, name: Name)
    requires Valid(fs) && IsDir(fs, at) && at + [name] !in fs
    ensures Valid(fs[at + [name] := Dir]) && Creates(fs, fs[at + [name] := Dir])
  {
    var next := at + [name];
    var more := fs[next := Dir];
    assert next[..|next| - 1] == at;
    forall p | p in more
      ensures p != [] && IsDir(more, p[..|p| - 1])
    {
      assert p in fs ==> IsDir(fs, p[..|p| - 1]);
    }
  }

  lemma CreatesMore(fs: FileSystem, more: FileSystem, most: FileSystem)
    requires Creates(fs, more) && Creates(more, most)
    ensures Creates(fs, most)
  {
  }

  lemma {:induction false} CompletedFinds(fs: FileSystem, at: seq<Name>, todo: seq<Component>, links: nat)
    requires Valid(fs) && (at == [] || at in fs)
    ensures Valid(Completed(fs, at, todo, links)) && Creates(fs, Completed(fs, at, todo, links))
    ensures !Resolve(Completed(fs, at, todo, links), at, todo, links).NotFound?
    decreases links, |todo|
  {
    if todo != [] && IsDir(fs, at) {
      match todo[0]
      case ParentDir => CompletedFinds(fs, Pop(at), todo[1..], links);
      case Normal(name) => CompletedFindsName(fs, at, name, todo, links);
    }
  }

  lemma {:induction false} CompletedFindsName(fs: FileSystem, at: seq<Name>, name: Name, todo: seq<Component>,
      links: nat)
    requires Valid(fs) && IsDir(fs, at) && todo != [] && todo[0] == Normal(name)
    ensures Valid(Completed(fs, at, todo, links)) && Creates(fs, Completed(fs, at, todo, links))
    ensures !Resolve(Completed(fs, at, todo, links), at, todo, links).NotFound?
    decreases links, |todo|, 0
  {
    var next := at + [name];
    if next !in fs {
      MakesDirectory(fs, at, name);
      CompletedFinds(fs[next := Dir], next, todo[1..], links);
      CreatesMore(fs, fs[next := Dir], Completed(fs, at, todo, links));
      EntersDirectory(Completed(fs, at, todo, links), at, name, todo, links);
    } else if fs[next].Link? {
      if links > 0 {
        var start := if fs[next].fromRoot then [] else at;
        CompletedFinds(fs, start, fs[next].target + todo[1..], links - 1);
        FollowsLink(fs, Completed(fs, at, todo, links), at, name, todo, links);
      } else {
        assert Completed(fs, at, todo, links) == fs;
      }
    } else {
      CompletedFinds(fs, next, todo[1..], links);
      assert Resolve(Completed(fs, at, todo, links), at, todo, links)
          == Resolve(Completed(fs, at, todo, links), next, todo[1..], links);
    }
  }

  lemma EntersDirectory(fs: FileSystem, at: seq<Name>, name: Name, todo: seq<Component>, links: nat)
    requires IsDir(fs, at) && todo != [] && todo[0] == Normal(name)
    requires at + [name] in fs && fs[at + [name]].Dir?
    ensures Resolve(fs, at, todo, links) == Resolve(fs, at + [name], todo[1..], links)
  {
  }

  lemma FollowsLink(fs: FileSystem, more: FileSystem, at: seq<Name>, name: Name, todo: seq<Component>, links: nat)
    requires IsDir(fs, at) && todo != [] && todo[0] == Normal(name) && links > 0 && Creates(fs, more)
    requires at + [name] in fs && fs[at + [name]].Link?
    ensures var link := fs[at + [name]];
      Resolve(more, at, todo, links)
      == Resolve(more, if link.fromRoot then [] else at, link.target + todo[1..], links - 1)
  {
    assert IsDir(more, at);
  }

  lemma {:induction false} AncestorsAreDirs(fs: FileSystem, at: seq<Name>, n: nat)
    requires Valid(fs) && Real(fs, at) && n < |at|
    ensures IsDir(fs, at[..n])
    decreases |at|
  {
    var parent := at[..|at| - 1];
    if n < |parent| {
      AncestorsAreDirs(fs, parent, n);
      assert parent[..n] == at[..n];
    } else {
      assert parent == at[..n];
    }
  }

  lemma {:induction false} ByName(path: seq<Name>, rest: seq<Component>)
    requires NamesOnly(rest)
    ensures |Lexical(path, rest)| == |path| + |rest|
    ensures forall i :: 0 <= i < |path| ==> Lexical(path, rest)[i] == path[i]
    ensures forall i :: 0 <= i < |rest| ==> Lexical(path, rest)[|path| + i] == rest[i].name
    decreases |rest|
  {
    if rest != [] {
      ByName(path + [rest[0].name], rest[1..]);
      var whole := Lexical(path, rest);
      forall i | 0 <= i < |rest|
        ensures whole[|path| + i] == rest[i].name
      {
        if i > 0 {
          assert rest[i] == rest[1..][i - 1];
        } else {
          assert whole[|path|] == (path + [rest[0].name])[|path|];
        }
      }
    }
  }

  /** A result with a name for each component that is left runs through no link. */
  lemma {:induction false} ForwardAvoidsLinks(fs: FileSystem, at: seq<Name>, todo: seq<Component>, links: nat,
      link: seq<Name>)
    requires Valid(fs) && Real(fs, at) && NamesOnly(todo)
    requires link in fs && fs[link].Link?
    requires Forward(fs, at, todo, links).Success?
    requires |Forward(fs, at, todo, links).value| >= |link| + |todo|
    ensures Forward(fs, at, todo, links).value[..|link|] != link
    decreases |todo|
  {
    var c := Forward(fs, at, todo, links).value;
    if todo == [] {
      RealAvoidsLink(fs, at, link);
    } else {
      var walk := Resolve(fs, at, todo[..1], links);
      if walk.Arrived? {
        ArrivesAtReal(fs, at, todo[..1], links);
        ForwardAvoidsLinks(fs, walk.path, todo[1..], walk.left, link);
      } else {
        ByNameKeepsStart(at, todo, |link|);
        RealAvoidsLink(fs, at, link);
      }
    }
  }

  lemma ByNameKeepsStart(at: seq<Name>, todo: seq<Component>, n: nat)
    requires NamesOnly(todo) && n + |todo| <= |Lexical(at, todo)|
    ensures n <= |at| && n <= |Lexical(at, todo)| && Lexical(at, todo)[..n] == at[..n]
  {
    ByName(at, todo);
  }

  lemma RealAvoidsLink(fs: FileSystem, at: seq<Name>, link: seq<Name>)
    requires Valid(fs) && Real(fs, at) && link in fs && fs[link].Link? && |at| >= |link|
    ensures at[..|link|] != link
  {
    if |at| == |link| {
      assert at[..|link|] == at;
    } else {
      AncestorsAreDirs(fs, at, |link|);
    }
  }

  /** The first missing name is not a link that leads nowhere. */
  predicate NoDanglingLink(fs: FileSystem, path: seq<Component>, links: nat) {
    var stop := StopsAt(fs, [], path, links);
    stop.Some? && stop.value.rest[0].Normal? ==> stop.value.at + [stop.value.rest[0].name] !in fs
  }

  /** When the missing part consists of names, the canonical directory is kept by
      every creation of directories exactly when no dangling link is followed by it. */
  lemma KeptExactly(fs: FileSystem, path: seq<Component>, links: nat)
    requires Valid(fs)
    requires StopsAt(fs, [], path, links).Some? ==> NamesOnly(StopsAt(fs, [], path, links).value.rest)
    ensures NoDanglingLink(fs, path, links) <==>
      forall more :: Valid(more) && Creates(fs, more) ==>
        Retry(more, path, |path|, links) == Retry(fs, path, |path|, links)
  {
    var stop := StopsAt(fs, [], path, links);
    if NoDanglingLink(fs, path, links) {
      if stop.Some? {
        MissingIsPlain(fs, stop.value.at, stop.value.rest);
      }
      forall more | Valid(more) && Creates(fs, more)
        ensures Retry(more, path, |path|, links) == Retry(fs, path, |path|, links)
      {
        CreatingKeepsNamespace(_ => "", fs, more, path, links);
      }
    } else {
      var more := DanglingLinkMoves(fs, path, links);
      assert Valid(more) && Creates(fs, more);
    }
  }

  lemma {:induction false} SameStop(fs: FileSystem, more: FileSystem, at: seq<Name>, todo: seq<Component>, links: nat)
    requires Valid(fs) && Creates(fs, more) && Real(fs, at) && StopsAt(fs, at, todo, links).Some?
    ensures var stop := StopsAt(fs, at, todo, links).value;
      Forward(more, at, todo, links) == Forward(more, stop.at, stop.rest, stop.left)
    decreases |todo|
  {
    var walk := Resolve(fs, at, todo[..1], links);
    if walk.Arrived? {
      FoundStaysFound(fs, more, at, todo[..1], links);
      ArrivesAtReal(fs, at, todo[..1], links);
      SameStop(fs, more, walk.path, todo[1..], walk.left);
    }
  }

  lemma DanglingLinkMoves(fs: FileSystem, path: seq<Component>, links: nat) returns (more: FileSystem)
    requires Valid(fs) && StopsAt(fs, [], path, links).Some?
    requires NamesOnly(StopsAt(fs, [], path, links).value.rest) && !NoDanglingLink(fs, path, links)
    ensures Valid(more) && Creates(fs, more)
    ensures Retry(more, path, |path|, links) != Retry(fs, path, |path|, links)
  {
    var stop := StopsAt(fs, [], path, links).value;
    var at, rest, left := stop.at, stop.rest, stop.left;
    StopIsReal(fs, [], path, links);
    more := Completed(fs, at, rest[..1], left);
    CompletedFinds(fs, at, rest[..1], left);
    SameStop(fs, more, [], path, links);
    RetryIsForward(fs, path, links);
    RetryIsForward(more, path, links);
    LinkAtStop(fs, at, rest, left);
    NotByName(more, at, rest, left);
  }

  /** Beyond a link that leads somewhere, going on by name is not what the walk does. */
  lemma NotByName(fs: FileSystem, at: seq<Name>, rest: seq<Component>, links: nat)
    requires Valid(fs) && Real(fs, at) && rest != [] && NamesOnly(rest)
    requires at + [rest[0].name] in fs && fs[at + [rest[0].name]].Link?
    requires !Resolve(fs, at, rest[..1], links).NotFound?
    ensures Forward(fs, at, rest, links) != Success(Lexical(at, rest))
  {
    var link := at + [rest[0].name];
    ByName(at, rest);
    assert Lexical(at, rest)[..|link|] == link;
    var walk := Resolve(fs, at, rest[..1], links);
    if walk.Arrived? && Forward(fs, at, rest, links) == Success(Lexical(at, rest)) {
      ArrivesAtReal(fs, at, rest[..1], links);
      ForwardAvoidsLinks(fs, walk.path, rest[1..], walk.left, link);
    }
  }

  lemma LinkAtStop(fs: FileSystem, at: seq<Name>, rest: seq<Component>, left: nat)
    requires IsDir(fs, at) && rest != [] && rest[0].Normal? && at + [rest[0].name] in fs
    requires Resolve(fs, at, rest[..1], left).NotFound?
    ensures fs[at + [rest[0].name]].Link?
  {
    var first := rest[..1];
    assert first[0] == rest[0] && first[1..] == [];
  }

  // ---- Any path ------------------------------------------------------------

  /** What a path keeps to, computed on the file system as it is: wherever the walk can
      be made to go on by name, and wherever it leads once the directories it misses are
      there, the result is `canonical`. */
  predicate Held(fs: FileSystem, at: seq<Name>, rest: seq<Component>, links: nat, canonical: seq<Name>)
    decreases |rest|
  {
    if rest == [] then at == canonical
    else match Resolve(fs, at, rest[..1], links)
      case Arrived(next, left) => Held(fs, next, rest[1..], left, canonical)
      case NotFound =>
        Lexical(at, rest) == canonical && HeldOnwards(Completed(fs, at, rest[..1], links), at, rest, links, canonical)
      case _ => false
  }

  predicate HeldOnwards(fs: FileSystem, at: seq<Name>, rest: seq<Component>, links: nat, canonical: seq<Name>)
    requires rest != []
    decreases |rest|, 0
  {
    match Resolve(fs, at, rest[..1], links)
    case Arrived(next, left) => Held(fs, next, rest[1..], left, canonical)
    case _ => false
  }

  /** A walk that finds something after directories were created needed these. */
  lemma {:induction false} CompletedIsLeast(fs: FileSystem, more: FileSystem, at: seq<Name>, todo: seq<Component>,
      links: nat)
    requires Valid(fs) && Valid(more) && Creates(fs, more) && (at == [] || at in fs)
    requires !Resolve(more, at, todo, links).NotFound?
    ensures Creates(Completed(fs, at, todo, links), more)
    decreases links, |todo|
  {
    if todo != [] && IsDir(fs, at) {
      match todo[0]
      case ParentDir => CompletedIsLeast(fs, more, Pop(at), todo[1..], links);
      case Normal(name) =>
        var next := at + [name];
        if next !in fs {
          MakesDirectory(fs, at, name);
          CompletedIsLeast(fs[next := Dir], more, next, todo[1..], links);
        } else if fs[next].Link? {
          if links > 0 {
            FollowsLink(fs, more, at, name, todo, links);
            CompletedIsLeast(fs, more, if fs[next].fromRoot then [] else at, fs[next].target + todo[1..], links - 1);
          }
        } else {
          CompletedIsLeast(fs, more, next, todo[1..], links);
        }
    }
  }

  lemma {:induction false} HeldIsKept(fs: FileSystem, more: FileSystem, at: seq<Name>, rest: seq<Component>, links: nat,
      canonical: seq<Name>)
    requires Valid(fs) && Valid(more) && Creates(fs, more) && Real(fs, at)
    requires Held(fs, at, rest, links, canonical)
    ensures Forward(more, at, rest, links) == Success(canonical)
    decreases |rest|
  {
    if rest != [] {
      var walk := Resolve(fs, at, rest[..1], links);
      if walk.Arrived? {
        FoundStaysFound(fs, more, at, rest[..1], links);
        ArrivesAtReal(fs, at, rest[..1], links);
        HeldIsKept(fs, more, walk.path, rest[1..], walk.left, canonical);
      } else if !Resolve(more, at, rest[..1], links).NotFound? {
        var completed := Completed(fs, at, rest[..1], links);
        CompletedFinds(fs, at, rest[..1], links);
        CompletedIsLeast(fs, more, at, rest[..1], links);
        FoundStaysFound(completed, more, at, rest[..1], links);
        var found := Resolve(completed, at, rest[..1], links);
        assert Real(completed, at);
        ArrivesAtReal(completed, at, rest[..1], links);
        HeldIsKept(completed, more, found.path, rest[1..], found.left, canonical);
      }
    }
  }

  lemma {:induction false} NotHeldIsLost(fs: FileSystem, at: seq<Name>, rest: seq<Component>, links: nat,
      canonical: seq<Name>)
    returns (more: FileSystem)
    requires Valid(fs) && Real(fs, at) && !Held(fs, at, rest, links, canonical)
    ensures Valid(more) && Creates(fs, more) && Forward(more, at, rest, links) != Success(canonical)
    decreases |rest|
  {
    more := fs;
    if rest != [] {
      var walk := Resolve(fs, at, rest[..1], links);
      if walk.Arrived? {
        ArrivesAtReal(fs, at, rest[..1], links);
        more := NotHeldIsLost(fs, walk.path, rest[1..], walk.left, canonical);
        FoundStaysFound(fs, more, at, rest[..1], links);
      } else if walk.NotFound? && Lexical(at, rest) == canonical {
        var completed := Completed(fs, at, rest[..1], links);
        CompletedFinds(fs, at, rest[..1], links);
        var found := Resolve(completed, at, rest[..1], links);
        more := completed;
        if found.Arrived? {
          assert Real(completed, at);
          ArrivesAtReal(completed, at, rest[..1], links);
          more := NotHeldIsLost(completed, found.path, rest[1..], found.left, canonical);
          FoundStaysFound(completed, more, at, rest[..1], links);
          CreatesMore(fs, completed, more);
        }
      }
    }
  }

  /** Of any path, with `..` in its missing part or not: every creation of directories
      keeps the canonical directory exactly when the path is held to it. */
  lemma HeldExactly(fs: FileSystem, path: seq<Component>, links: nat)
    requires Valid(fs) && Retry(fs, path, |path|, links).Success?
    ensures Held(fs, [], path, links, Retry(fs, path, |path|, links).value) <==>
      forall more :: Valid(more) && Creates(fs, more) ==>
        Retry(more, path, |path|, links) == Retry(fs, path, |path|, links)
  {
    var canonical := Retry(fs, path, |path|, links).value;
    if Held(fs, [], path, links, canonical) {
      forall more | Valid(more) && Creates(fs, more)
        ensures Retry(more, path, |path|, links) == Success(canonical)
      {
        HeldIsKept(fs, more, [], path, links, canonical);
        RetryIsForward(more, path, links);
      }
    } else {
      var more := NotHeldIsLost(fs, [], path, links, canonical);
      RetryIsForward(more, path, links);
    }
  }

  // ---- Canonical directories name themselves -------------------------------

  function Names(path: seq<Name>): (components: seq<Component>)
    ensures |components| == |path| && forall i :: 0 <= i < |path| ==> components[i] == Normal(path[i])
  {
    seq(|path|, i requires 0 <= i < |path| => Normal(path[i]))
  }

  /** No part of the path is a link, and only its end may be a file. */
  ghost predicate Clear(fs: FileSystem, path: seq<Name>) {
    forall i :: 0 < i <= |path| && path[..i] in fs ==> fs[path[..i]].Dir? || (fs[path[..i]].File? && i == |path|)
  }

  lemma RealIsClear(fs: FileSystem, path: seq<Name>)
    requires Valid(fs) && Real(fs, path)
    ensures Clear(fs, path)
  {
    forall i | 0 < i <= |path| && path[..i] in fs
      ensures fs[path[..i]].Dir? || (fs[path[..i]].File? && i == |path|)
    {
      if i < |path| {
        AncestorsAreDirs(fs, path, i);
      } else {
        assert path[..i] == path;
      }
    }
  }

  lemma {:induction false} LexicalIsClear(fs: FileSystem, at: seq<Name>, rest: seq<Component>)
    requires Valid(fs)
    requires Clear(fs, at) && (rest == [] || at !in fs || fs[at].Dir?) && Plain(fs, at, rest)
    ensures Clear(fs, Lexical(at, rest))
    decreases |rest|
  {
    if rest != [] {
      match rest[0]
      case ParentDir =>
        ClearParent(fs, at);
        LexicalIsClear(fs, Pop(at), rest[1..]);
      case Normal(name) =>
        ClearChild(fs, at, name);
        LexicalIsClear(fs, at + [name], rest[1..]);
    }
  }

  lemma ClearParent(fs: FileSystem, at: seq<Name>)
    requires Clear(fs, at)
    ensures Clear(fs, Pop(at)) && (at != [] && Pop(at) != [] && Pop(at) in fs ==> fs[Pop(at)].Dir?)
  {
    var parent := Pop(at);
    forall i | 0 < i <= |parent| && parent[..i] in fs
      ensures fs[parent[..i]].Dir?
    {
      assert parent[..i] == at[..i];
    }
    assert parent[..|parent|] == parent;
  }

  lemma ClearChild(fs: FileSystem, at: seq<Name>, name: Name)
    requires Clear(fs, at) && (at !in fs || fs[at].Dir?)
    requires at + [name] in fs ==> !fs[at + [name]].Link?
    ensures Clear(fs, at + [name])
  {
    var child := at + [name];
    forall i | 0 < i <= |child| && child[..i] in fs
      ensures fs[child[..i]].Dir? || (fs[child[..i]].File? && i == |child|)
    {
      if i <= |at| {
        assert child[..i] == at[..i];
        assert at[..|at|] == at;
      } else {
        assert child[..i] == child;
      }
    }
  }

  lemma {:induction false} ClearIsPlain(fs: FileSystem, path: seq<Name>, n: nat)
    requires Clear(fs, path) && n <= |path|
    ensures Plain(fs, path[..n], Names(path[n..]))
    ensures Lexical(path[..n], Names(path[n..])) == path
    decreases |path| - n
  {
    if n < |path| {
      ClearIsPlain(fs, path, n + 1);
      assert path[..n] + [path[n]] == path[..n + 1];
      assert Names(path[n..])[1..] == Names(path[n + 1..]);
      assert Names(path[n..])[0] == Normal(path[n]);
    } else {
      assert path[..n] == path && Names(path[n..]) == [];
    }
  }

  /** The canonical directory of a steady path is its own canonical directory, and so
      is that of any path whose missing part is only names. */
  lemma CanonicalIsCanonical(fs: FileSystem, path: seq<Component>, links: nat)
    requires Valid(fs) && Retry(fs, path, |path|, links).Success?
    requires Steady(fs, path, links) || NamesOnly(StopsAt(fs, [], path, links).value.rest)
    ensures var canonical := Retry(fs, path, |path|, links).value;
      Retry(fs, Names(canonical), |canonical|, links) == Success(canonical)
  {
    RetryIsForward(fs, path, links);
    var canonical := Retry(fs, path, |path|, links).value;
    RetryIsForward(fs, Names(canonical), links);
    if Steady(fs, path, links) {
      ForwardIsClear(fs, [], path, links);
      ClearIsPlain(fs, canonical, 0);
      assert canonical[..0] == [] && canonical[0..] == canonical;
      PlainIsByName(fs, [], Names(canonical), links);
    } else {
      StopNamesItself(fs, path, links);
    }
  }

  lemma StopNamesItself(fs: FileSystem, path: seq<Component>, links: nat)
    requires Valid(fs) && StopsAt(fs, [], path, links).Some? && NamesOnly(StopsAt(fs, [], path, links).value.rest)
    ensures var stop := StopsAt(fs, [], path, links).value;
      Forward(fs, [], Names(Lexical(stop.at, stop.rest)), links) == Success(Lexical(stop.at, stop.rest))
  {
    var stop := StopsAt(fs, [], path, links).value;
    StopIsReal(fs, [], path, links);
    MoreLinks(fs, stop.at, stop.rest[..1], stop.left, links - stop.left);
    MissingNamesItself(fs, stop.at, stop.rest, links);
  }

  lemma MissingNamesItself(fs: FileSystem, at: seq<Name>, rest: seq<Component>, links: nat)
    requires Valid(fs) && IsDir(fs, at) && rest != [] && NamesOnly(rest) && Resolve(fs, at, rest[..1], links).NotFound?
    ensures Forward(fs, [], Names(Lexical(at, rest)), links) == Success(Lexical(at, rest))
  {
    NamesOfLexical(at, rest);
    DirectoryResolves(fs, at, 0, links);
    assert at[..0] == [] && at[0..] == at;
    ForwardAfter(fs, [], Names(at), rest, links);
  }

  lemma NamesOfLexical(at: seq<Name>, rest: seq<Component>)
    requires NamesOnly(rest)
    ensures Names(Lexical(at, rest)) == Names(at) + rest
  {
    ByName(at, rest);
    var whole := Lexical(at, rest);
    forall i | 0 <= i < |whole|
      ensures Names(whole)[i] == (Names(at) + rest)[i]
    {
      if i >= |at| {
        assert whole[|at| + (i - |at|)] == rest[i - |at|].name;
      }
    }
  }

  lemma PrefixIsDir(fs: FileSystem, at: seq<Name>, n: nat)
    requires Valid(fs) && IsDir(fs, at) && n <= |at|
    ensures IsDir(fs, at[..n])
  {
    if n < |at| {
      AncestorsAreDirs(fs, at, n);
    } else {
      assert at[..n] == at;
    }
  }

  lemma NamesNext(path: seq<Name>, n: nat)
    requires n < |path|
    ensures Names(path[n..]) == [Normal(path[n])] + Names(path[n + 1..]) && path[..n] + [path[n]] == path[..n + 1]
  {
  }

  lemma {:induction false} DirectoryResolves(fs: FileSystem, at: seq<Name>, n: nat, links: nat)
    requires Valid(fs) && IsDir(fs, at) && n <= |at|
    ensures Resolve(fs, at[..n], Names(at[n..]), links) == Arrived(at, links)
    decreases |at| - n
  {
    if n < |at| {
      PrefixIsDir(fs, at, n);
      PrefixIsDir(fs, at, n + 1);
      NamesNext(at, n);
      DirectoryResolves(fs, at, n + 1, links);
      EntersDirectory(fs, at[..n], at[n], Names(at[n..]), links);
    } else {
      assert at[..n] == at && Names(at[n..]) == [];
    }
  }

  /** Along a directory's own name: real directories up to its end, to a missing name,
      to a file at the end, or to a link that leads nowhere. */
  predicate NamesItself(fs: FileSystem, canonical: seq<Name>, n: nat, links: nat)
    requires n <= |canonical|
    decreases |canonical| - n
  {
    if n == |canonical| || canonical[..n + 1] !in fs then true
    else match fs[canonical[..n + 1]]
      case Dir => NamesItself(fs, canonical, n + 1, links)
      case File => n + 1 == |canonical|
      case Link(_, _) => Resolve(fs, canonical[..n], [Normal(canonical[n])], links).NotFound?
  }

  lemma {:induction false} LexicalOfNames(path: seq<Name>, n: nat)
    requires n <= |path|
    ensures Lexical(path[..n], Names(path[n..])) == path
    decreases |path| - n
  {
    if n < |path| {
      LexicalOfNames(path, n + 1);
      assert path[..n] + [path[n]] == path[..n + 1];
      assert Names(path[n..])[1..] == Names(path[n + 1..]) && Names(path[n..])[0] == Normal(path[n]);
    } else {
      assert path[..n] == path && Names(path[n..]) == [];
    }
  }

  lemma {:induction false} NamesItselfFrom(fs: FileSystem, canonical: seq<Name>, n: nat, links: nat)
    requires Valid(fs) && n <= |canonical| && IsDir(fs, canonical[..n])
    ensures Forward(fs, canonical[..n], Names(canonical[n..]), links) == Success(canonical) <==>
      NamesItself(fs, canonical, n, links)
    decreases |canonical| - n
  {
    var at, todo := canonical[..n], Names(canonical[n..]);
    LexicalOfNames(canonical, n);
    if n < |canonical| {
      var next, first := canonical[..n + 1], [Normal(canonical[n])];
      assert todo[..1] == first && todo[1..] == Names(canonical[n + 1..]) && at + [canonical[n]] == next;
      assert first[0] == Normal(canonical[n]) && first[1..] == [];
      if next in fs {
        match fs[next]
        case Dir =>
          assert Resolve(fs, at, first, links) == Arrived(next, links);
          NamesItselfFrom(fs, canonical, n + 1, links);
        case File => FileEndsThere(fs, canonical, n, links);
        case Link(_, _) => LinkNeverReturns(fs, canonical, n, links);
      } else {
        assert Resolve(fs, at, first, links) == NotFound;
      }
    }
  }

  lemma FileEndsThere(fs: FileSystem, canonical: seq<Name>, n: nat, links: nat)
    requires n < |canonical| && IsDir(fs, canonical[..n])
    requires canonical[..n + 1] in fs && fs[canonical[..n + 1]].File?
    ensures Forward(fs, canonical[..n], Names(canonical[n..]), links) == Success(canonical) <==> n + 1 == |canonical|
  {
    var at, todo, next := canonical[..n], Names(canonical[n..]), canonical[..n + 1];
    assert todo[..1] == [Normal(canonical[n])] && todo[1..] == Names(canonical[n + 1..]) && at + [canonical[n]] == next;
    assert [Normal(canonical[n])][1..] == [];
    assert Resolve(fs, at, todo[..1], links) == Arrived(next, links);
    if n + 1 == |canonical| {
      assert next == canonical && todo[1..] == [];
    } else {
      assert Resolve(fs, next, todo[1..][..1], links) == NotADirectory;
    }
  }

  lemma LinkNeverReturns(fs: FileSystem, canonical: seq<Name>, n: nat, links: nat)
    requires Valid(fs) && n < |canonical| && IsDir(fs, canonical[..n])
    requires canonical[..n + 1] in fs && fs[canonical[..n + 1]].Link?
    ensures Forward(fs, canonical[..n], Names(canonical[n..]), links) == Success(canonical) <==>
      Resolve(fs, canonical[..n], [Normal(canonical[n])], links).NotFound?
  {
    var at, todo, link := canonical[..n], Names(canonical[n..]), canonical[..n + 1];
    assert todo[..1] == [Normal(canonical[n])] && todo[1..] == Names(canonical[n + 1..]);
    LexicalOfNames(canonical, n);
    var walk := Resolve(fs, at, todo[..1], links);
    if walk.Arrived? {
      ArrivesAtReal(fs, at, todo[..1], links);
      if Forward(fs, walk.path, todo[1..], walk.left) == Success(canonical) {
        ForwardAvoidsLinks(fs, walk.path, todo[1..], walk.left, link);
      }
    }
  }

  /** Of any directory, and so of any canonical one: canonicalising it gives it back
      exactly when its own name meets no link that leads somewhere. */
  lemma CanonicalAgainExactly(fs: FileSystem, canonical: seq<Name>, links: nat)
    requires Valid(fs)
    ensures Retry(fs, Names(canonical), |canonical|, links) == Success(canonical) <==>
      NamesItself(fs, canonical, 0, links)
  {
    assert canonical[..0] == [] && canonical[0..] == canonical;
    NamesItselfFrom(fs, canonical, 0, links);
    RetryIsForward(fs, Names(canonical), links);
  }

  lemma {:induction false} ForwardIsClear(fs: FileSystem, at: seq<Name>, todo: seq<Component>, links: nat)
    requires Valid(fs) && Real(fs, at) && Forward(fs, at, todo, links).Success?
    requires var stop := StopsAt(fs, at, todo, links); stop.None? || Plain(fs, stop.value.at, stop.value.rest)
    ensures Clear(fs, Forward(fs, at, todo, links).value)
    decreases |todo|
  {
    RealIsClear(fs, at);
    if todo != [] {
      var walk := Resolve(fs, at, todo[..1], links);
      if walk.Arrived? {
        ArrivesAtReal(fs, at, todo[..1], links);
        ForwardIsClear(fs, walk.path, todo[1..], walk.left);
      } else {
        StopIsReal(fs, at, todo, links);
        LexicalIsClear(fs, at, todo);
      }
    }
  }

  // ---- Spellings -----------------------------------------------------------

  lemma {:induction false} MoreLinks(fs: FileSystem, at: seq<Name>, todo: seq<Component>, links: nat, spare: nat)
    requires !Resolve(fs, at, todo, links).TooManyLinks?
    ensures var walk := Resolve(fs, at, todo, links);
      Resolve(fs, at, todo, links + spare) == if walk.Arrived? then Arrived(walk.path, walk.left + spare) else walk
    decreases links, |todo|
  {
    if todo != [] && IsDir(fs, at) {
      match todo[0]
      case ParentDir => MoreLinks(fs, Pop(at), todo[1..], links, spare);
      case Normal(name) =>
        var next := at + [name];
        if next in fs {
          if fs[next].Link? {
            MoreLinks(fs, if fs[next].fromRoot then [] else at, fs[next].target + todo[1..], links - 1, spare);
          } else {
            MoreLinks(fs, next, todo[1..], links, spare);
          }
        }
    }
  }

  lemma {:induction false} ForwardWithMoreLinks(fs: FileSystem, at: seq<Name>, todo: seq<Component>, links: nat,
      spare: nat)
    requires Forward(fs, at, todo, links).Success?
    ensures Forward(fs, at, todo, links + spare) == Forward(fs, at, todo, links)
    decreases |todo|
  {
    if todo != [] {
      MoreLinks(fs, at, todo[..1], links, spare);
      var walk := Resolve(fs, at, todo[..1], links);
      if walk.Arrived? {
        ForwardWithMoreLinks(fs, walk.path, todo[1..], walk.left, spare);
      }
    }
  }

  /** Two spellings of one real ancestor give one canonical directory, whatever
      follows and however many links each spelling takes. */
  lemma SpellingsAgree(fs: FileSystem, a: seq<Component>, b: seq<Component>, rest: seq<Component>, links: nat)
    requires Resolve(fs, [], a, links).Arrived? && Resolve(fs, [], b, links).Arrived?
    requires Resolve(fs, [], a, links).path == Resolve(fs, [], b, links).path
    requires Retry(fs, a + rest, |a + rest|, links).Success? && Retry(fs, b + rest, |b + rest|, links).Success?
    ensures Retry(fs, a + rest, |a + rest|, links) == Retry(fs, b + rest, |b + rest|, links)
  {
    RetryIsForward(fs, a + rest, links);
    RetryIsForward(fs, b + rest, links);
    ForwardAfter(fs, [], a, rest, links);
    ForwardAfter(fs, [], b, rest, links);
    var x, y := Resolve(fs, [], a, links), Resolve(fs, [], b, links);
    if x.left <= y.left {
      ForwardWithMoreLinks(fs, x.path, rest, x.left, y.left - x.left);
    } else {
      ForwardWithMoreLinks(fs, x.path, rest, y.left, x.left - y.left);
    }
  }

  // ---- Where the guarantees end --------------------------------------------

  const LINKED: FileSystem := map[["real"] := Dir, ["link"] := Link(true, [Normal("real")])]
  const LINKED_LATER: FileSystem := LINKED[["new"] := Dir]
  const ROUNDABOUT := [Normal("new"), ParentDir, Normal("link")]

  /** A parent step in the missing part can lead back to an existing link, which is
      taken by name: creating the missing directory then moves the vault, and the
      canonical directory is not its own canonical directory. */
  lemma ParentStepReachesLink(links: nat)
    requires links > 0
    ensures Valid(LINKED) && Valid(LINKED_LATER) && Creates(LINKED, LINKED_LATER)
    ensures Retry(LINKED, ROUNDABOUT, |ROUNDABOUT|, links) == Success(["link"])
    ensures Retry(LINKED_LATER, ROUNDABOUT, |ROUNDABOUT|, links) == Success(["real"])
    ensures Retry(LINKED, Names(["link"]), 1, links) == Success(["real"])
  {
    LinkedIsValid();
    ByNameWhileMissing(links);
    ResolvedWhenPresent(links);
    ByNameFromRoot(links);
  }

  lemma LinkedIsValid()
    ensures Valid(LINKED) && Valid(LINKED_LATER) && Creates(LINKED, LINKED_LATER)
  {
  }

  lemma ByNameFromRoot(links: nat)
    requires links > 0
    ensures Retry(LINKED, Names(["link"]), 1, links) == Success(["real"])
  {
    LinkLeadsToReal(LINKED, links);
    var again := Names(["link"]);
    assert again == [Normal("link")];
    RetryIsForward(LINKED, again, links);
  }

  lemma ByNameWhileMissing(links: nat)
    ensures Retry(LINKED, ROUNDABOUT, |ROUNDABOUT|, links) == Success(["link"])
  {
    var first := ROUNDABOUT[..1];
    assert first[0] == Normal("new");
    assert [] + ["new"] == ["new"] && ["new"] !in LINKED;
    assert Resolve(LINKED, [], first, links) == NotFound;
    assert Forward(LINKED, [], ROUNDABOUT, links) == Success(Lexical([], ROUNDABOUT));
    ThereAndBack([], "new", "link");
    assert [] + ["link"] == ["link"];
    RetryIsForward(LINKED, ROUNDABOUT, links);
  }

  lemma ThereAndBack(at: seq<Name>, there: Name, next: Name)
    ensures Lexical(at, [Normal(there), ParentDir, Normal(next)]) == at + [next]
  {
    var all, back, last := [Normal(there), ParentDir, Normal(next)], [ParentDir, Normal(next)], [Normal(next)];
    assert all[0] == Normal(there) && all[1..] == back;
    assert Lexical(at, all) == Lexical(at + [there], back);
    assert back[0] == ParentDir && back[1..] == last && Pop(at + [there]) == at;
    assert Lexical(at + [there], back) == Lexical(at, last);
    assert last[0] == Normal(next) && last[1..] == [];
    assert Lexical(at, last) == Lexical(at + [next], []);
  }

  lemma ResolvedWhenPresent(links: nat)
    requires links > 0
    ensures Retry(LINKED_LATER, ROUNDABOUT, |ROUNDABOUT|, links) == Success(["real"])
  {
    var rest := ROUNDABOUT[1..];
    assert ROUNDABOUT[..1] == [Normal("new")];
    assert [] + ["new"] == ["new"] && ["new"] in LINKED_LATER;
    assert Resolve(LINKED_LATER, [], ROUNDABOUT[..1], links) == Arrived(["new"], links);
    assert rest[..1] == [ParentDir] && rest[1..] == [Normal("link")];
    assert Pop(["new"]) == [];
    assert Resolve(LINKED_LATER, ["new"], rest[..1], links) == Arrived([], links);
    LinkLeadsToReal(LINKED_LATER, links);
    assert Forward(LINKED_LATER, ["new"], rest, links) == Success(["real"]);
    RetryIsForward(LINKED_LATER, ROUNDABOUT, links);
  }

  lemma LinkLeadsToReal(fs: FileSystem, links: nat)
    requires links > 0 && ["real"] in fs && fs[["real"]].Dir?
    requires ["link"] in fs && fs[["link"]] == Link(true, [Normal("real")])
    ensures Forward(fs, [], [Normal("link")], links) == Success(["real"])
  {
    var todo := [Normal("link")];
    assert [] + ["link"] == ["link"] && [] + ["real"] == ["real"];
    assert todo[..1] == todo && todo[1..] == [];
    assert [Normal("real")] + [] == [Normal("real")];
    assert Resolve(fs, [], [Normal("real")], links - 1) == Arrived(["real"], links - 1);
  }
}
