/** Gateway price synchronisation (crates/aipass-agent/src/pricing.rs).

    A gateway's price table becomes groups of versioned rules, and the credentials of
    the gateway are assigned to them.  Rules are opaque here, multipliers are exact,
    and new group ids are passed in. */
module Pricing {
  import opened Wrappers

  type Id = nat
  type Rules = nat

  datatype Version = Version(effectiveFrom: int, rules: Rules)

  datatype Group = Group(manual: bool, id: Id, name: string, versions: seq<Version>)

  datatype Assignment = Assignment(entry: Id, secret: string, group: Option<Id>, multiplier: real, manual: bool)

  datatype Config = Config(groups: seq<Group>, assignments: seq<Assignment>)

  /** A group of the gateway with at least one priced model. */
  datatype Offer = Offer(name: string, rules: Rules)

  /** A credential and the gateway group its key belongs to. */
  datatype Secret = Secret(id: string, group: Option<string>)

  // ---- Names ---------------------------------------------------------------

  const PREFIX := "New API / "
  const SEPARATOR := " @ "

  function ManagedName(group: string, namespace: string): string {
    PREFIX + (group + SEPARATOR + namespace)
  }

  predicate IsSpace(c: char) {
    var u := c as int;
    9 <= u <= 13 || u == 0x20 || u == 0x85 || u == 0xA0 || u == 0x1680 || 0x2000 <= u <= 0x200A
    || u == 0x2028 || u == 0x2029 || u == 0x202F || u == 0x205F || u == 0x3000
  }

  predicate NonBlank(s: string) {
    exists i :: 0 <= i < |s| && !IsSpace(s[i])
  }

  predicate OccursAt(s: string, i: nat) {
    i + |SEPARATOR| <= |s| && s[i..i + |SEPARATOR|] == SEPARATOR
  }

  /** The last place where the separator occurs before `n`. */
  function LastSeparator(s: string, n: nat): (at: Option<nat>)
    ensures at.Some? ==> at.value < n && OccursAt(s, at.value)
    ensures forall i :: (if at.Some? then at.value + 1 else 0) <= i < n ==> !OccursAt(s, i)
  {
    if n == 0 then None
    else if OccursAt(s, n - 1) then Some(n - 1)
    else LastSeparator(s, n - 1)
  }

  predicate IsManaged(name: string, namespace: string) {
    PREFIX <= name && NamesGroupOf(name[|PREFIX|..], namespace)
  }

  predicate NamesGroupOf(rest: string, namespace: string) {
    var at := LastSeparator(rest, |rest|);
    at.Some? && NonBlank(rest[..at.value]) && rest[at.value + |SEPARATOR|..] == namespace
  }

  /** A generated name is recognised exactly when the group has a visible name and
      the namespace brings in no separator of its own. */
  lemma GeneratedNamesAreManaged(group: string, namespace: string)
    ensures IsManaged(ManagedName(group, namespace), namespace) <==>
      NonBlank(group) && LastSeparator(" " + namespace, |namespace| + 1).None?
  {
    AfterPrefix(PREFIX, group + SEPARATOR + namespace);
    GeneratedRest(group, namespace);
  }

  lemma AfterPrefix(prefix: string, rest: string)
    ensures prefix <= prefix + rest && (prefix + rest)[|prefix|..] == rest
  {
  }

  lemma GeneratedRest(group: string, namespace: string)
    ensures NamesGroupOf(group + SEPARATOR + namespace, namespace) <==>
      NonBlank(group) && LastSeparator(" " + namespace, |namespace| + 1).None?
  {
    var rest := group + SEPARATOR + namespace;
    LastIsTheGenerated(group, namespace);
    var at := LastSeparator(rest, |rest|).value;
    if at == |group| {
      assert rest[..at] == group;
      assert rest[at + 3..] == namespace;
    } else {
      assert |rest[at + 3..]| < |namespace|;
    }
  }

  /** The generated separator is the last one unless the namespace holds another. */
  lemma LastIsTheGenerated(group: string, namespace: string)
    ensures var rest := group + SEPARATOR + namespace;
      && LastSeparator(rest, |rest|).Some? && LastSeparator(rest, |rest|).value >= |group|
      && (LastSeparator(rest, |rest|).value == |group| <==> LastSeparator(" " + namespace, |namespace| + 1).None?)
  {
    var rest, tail, n := group + SEPARATOR + namespace, " " + namespace, |group|;
    assert rest[n..n + 3] == SEPARATOR;
    assert OccursAt(rest, n);
    assert rest[n + 1] == '@';
    if OccursAt(rest, n + 1) {
      StartsWithSpace(rest, n + 1);
      assert false;
    }
    var at := LastSeparator(rest, |rest|).value;
    if at > n {
      TailOccurrence(group, namespace, at - n - 2);
    }
    var last := LastSeparator(tail, |tail|);
    if last.Some? {
      TailOccurrence(group, namespace, last.value);
    }
  }

  lemma StartsWithSpace(s: string, i: nat)
    requires OccursAt(s, i)
    ensures s[i] == ' '
  {
    assert s[i..i + |SEPARATOR|][0] == s[i];
  }

  lemma TailOccurrence(group: string, namespace: string, i: nat)
    requires i <= |namespace|
    ensures OccursAt(" " + namespace, i) <==> OccursAt(group + SEPARATOR + namespace, |group| + 2 + i)
  {
    var rest, tail, n := group + SEPARATOR + namespace, " " + namespace, |group|;
    assert rest[n + 2..] == tail;
    if i + 3 <= |tail| {
      assert rest[n + 2 + i..n + 2 + i + 3] == tail[i..i + 3];
    }
  }

  // ---- Groups --------------------------------------------------------------

  function IndexByName(groups: seq<Group>, name: string): (i: Option<nat>)
    ensures i.Some? ==> i.value < |groups| && groups[i.value].name == name
    ensures i.Some? ==> forall j :: 0 <= j < i.value ==> groups[j].name != name
    ensures i.None? ==> forall j :: 0 <= j < |groups| ==> groups[j].name != name
  {
    if groups == [] then None
    else if groups[0].name == name then Some(0)
    else
      var rest := IndexByName(groups[1..], name);
      if rest.Some? then Some(rest.value + 1) else None
  }

  function IndexById(groups: seq<Group>, id: Id): (i: Option<nat>)
    ensures i.Some? ==> i.value < |groups| && groups[i.value].id == id
    ensures i.Some? ==> forall j :: 0 <= j < i.value ==> groups[j].id != id
    ensures i.None? ==> forall j :: 0 <= j < |groups| ==> groups[j].id != id
  {
    if groups == [] then None
    else if groups[0].id == id then Some(0)
    else
      var rest := IndexById(groups[1..], id);
      if rest.Some? then Some(rest.value + 1) else None
  }

  function WithoutTime(versions: seq<Version>, time: int): (rest: seq<Version>)
    ensures forall v :: v in rest <==> v in versions && v.effectiveFrom != time
  {
    if versions == [] then []
    else
      var last := versions[|versions| - 1];
      WithoutTime(versions[..|versions| - 1], time) + if last.effectiveFrom == time then [] else [last]
  }

  function CurrentRules(versions: seq<Version>): Option<Rules> {
    if versions == [] then None else Some(versions[|versions| - 1].rules)
  }

  function Reprice(group: Group, rules: Rules, now: int): Group {
    if group.manual || CurrentRules(group.versions) == Some(rules) then group
    else group.(versions := WithoutTime(group.versions, now) + [Version(now, rules)])
  }

  /** Make sure there is a group of this name. */
  function EnsureGroup(groups: seq<Group>, name: string, id: Id): seq<Group> {
    if IndexByName(groups, name).Some? then groups else groups + [Group(false, id, name, [])]
  }

  lemma EnsuredIsFound(groups: seq<Group>, name: string, id: Id)
    ensures IndexByName(EnsureGroup(groups, name, id), name).Some?
  {
    if IndexByName(groups, name).None? {
      assert EnsureGroup(groups, name, id)[|groups|].name == name;
    }
  }

  /** The group is found by name and then again by its id. */
  function SyncOffer(groups: seq<Group>, offer: Offer, namespace: string, id: Id, now: int): seq<Group> {
    var name := ManagedName(offer.name, namespace);
    var ensured := EnsureGroup(groups, name, id);
    EnsuredIsFound(groups, name, id);
    var gid := ensured[IndexByName(ensured, name).value].id;
    var at := IndexById(ensured, gid).value;
    ensured[at := Reprice(ensured[at], offer.rules, now)]
  }

  function SyncOffers(groups: seq<Group>, offers: seq<Offer>, namespace: string, ids: seq<Id>, now: int): seq<Group>
    requires |ids| == |offers|
    decreases |offers|
  {
    if offers == [] then groups
    else
      var n := |offers| - 1;
      SyncOffer(SyncOffers(groups, offers[..n], namespace, ids[..n], now), offers[n], namespace, ids[n], now)
  }

  // ---- Assignments ---------------------------------------------------------

  function IndexOf(assignments: seq<Assignment>, entry: Id, secret: string): (i: Option<nat>)
    ensures i.Some? ==> i.value < |assignments|
    ensures i.Some? ==> assignments[i.value].entry == entry && assignments[i.value].secret == secret
    ensures i.Some? ==> forall j :: 0 <= j < i.value ==>
      assignments[j].entry != entry || assignments[j].secret != secret
    ensures i.None? ==>
      forall j :: 0 <= j < |assignments| ==> assignments[j].entry != entry || assignments[j].secret != secret
  {
    if assignments == [] then None
    else if assignments[0].entry == entry && assignments[0].secret == secret then Some(0)
    else
      var rest := IndexOf(assignments[1..], entry, secret);
      if rest.Some? then Some(rest.value + 1) else None
  }

  /** The assignment points to a group this gateway's synchronisation made. */
  predicate InManagedGroup(groups: seq<Group>, namespace: string, a: Assignment) {
    && a.group.Some?
    && var at := IndexById(groups, a.group.value);
       at.Some? && IsManaged(groups[at.value].name, namespace)
  }

  predicate Unset(a: Assignment) {
    a.group.None? && a.multiplier == 1.0
  }

  function Reassign(groups: seq<Group>, namespace: string, a: Assignment, next: Option<Id>): Assignment {
    var managed := InManagedGroup(groups, namespace, a);
    if a.manual then a
    else if next.Some? && (managed || Unset(a)) then a.(group := next, multiplier := 1.0)
    else if next.None? && managed then a.(group := None, multiplier := 1.0)
    else a
  }

  /** The group of a secret, if this synchronisation priced it. */
  function NextGroup(groups: seq<Group>, offers: seq<Offer>, namespace: string, secret: Secret): Option<Id> {
    if secret.group.None? || !Offered(offers, secret.group.value) then None
    else
      var at := IndexByName(groups, ManagedName(secret.group.value, namespace));
      if at.Some? then Some(groups[at.value].id) else None
  }

  datatype Scope = Scope(groups: seq<Group>, offers: seq<Offer>, namespace: string, entry: Id)

  function AssignOne(scope: Scope, assignments: seq<Assignment>, secret: Secret): seq<Assignment> {
    var next := NextGroup(scope.groups, scope.offers, scope.namespace, secret);
    var at := IndexOf(assignments, scope.entry, secret.id);
    if at.Some? then
      assignments[at.value := Reassign(scope.groups, scope.namespace, assignments[at.value], next)]
    else if next.Some? then assignments + [Assignment(scope.entry, secret.id, next, 1.0, false)]
    else assignments
  }

  function AssignAll(scope: Scope, assignments: seq<Assignment>, secrets: seq<Secret>): seq<Assignment>
    decreases |secrets|
  {
    if secrets == [] then assignments else AssignAll(scope, AssignOne(scope, assignments, secrets[0]), secrets[1..])
  }

  function Sync(config: Config, entry: Id, namespace: string, offers: seq<Offer>, ids: seq<Id>, secrets: seq<Secret>,
      now: int): Config
    requires |ids| == |offers|
  {
    var groups := SyncOffers(config.groups, offers, namespace, ids, now);
    Config(groups, AssignAll(Scope(groups, offers, namespace, entry), config.assignments, secrets))
  }

  // ---- Saving --------------------------------------------------------------

  function Insert(versions: seq<Version>, v: Version): seq<Version> {
    if versions == [] || versions[|versions| - 1].effectiveFrom <= v.effectiveFrom then versions + [v]
    else Insert(versions[..|versions| - 1], v) + [versions[|versions| - 1]]
  }

  /** The stable sort of a group's versions by their start. */
  function Sort(versions: seq<Version>): seq<Version> {
    if versions == [] then [] else Insert(Sort(versions[..|versions| - 1]), versions[|versions| - 1])
  }

  function SortGroups(groups: seq<Group>): (sorted: seq<Group>)
    ensures |sorted| == |groups|
    ensures forall i :: 0 <= i < |groups| ==> sorted[i] == groups[i].(versions := Sort(groups[i].versions))
  {
    seq(|groups|, i requires 0 <= i < |groups| => groups[i].(versions := Sort(groups[i].versions)))
  }

  function Saved(config: Config): Config {
    config.(groups := SortGroups(config.groups))
  }

  // ---- The synchronisation -------------------------------------------------

  class PricingStore {
    var stored: Config

    constructor (config: Config)
      ensures stored == config
    {
      stored := config;
    }

    /** The first loop: price the groups and remember their ids by gateway name. */
    static method PriceGroups(before: seq<Group>, offers: seq<Offer>, namespace: string, ids: seq<Id>, now: int)
      returns (groups: seq<Group>, groupIds: map<string, Id>, changed: bool)
      requires |ids| == |offers|
      ensures groups == SyncOffers(before, offers, namespace, ids, now)
      ensures !changed ==> groups == before
      ensures Remembers(groups, offers, namespace, groupIds)
    {
      groups, groupIds, changed := before, map[], false;
      for k := 0 to |offers|
        invariant groups == SyncOffers(before, offers[..k], namespace, ids[..k], now)
        invariant !changed ==> groups == before
        invariant Remembers(groups, offers[..k], namespace, groupIds)
      {
        assert offers[..k + 1][..k] == offers[..k] && ids[..k + 1][..k] == ids[..k];
        ghost var previous, known := groups, groupIds;
        var groupId, priced;
        groups, groupId, priced := PriceOne(groups, offers[k], namespace, ids[k], now);
        groupIds := groupIds[offers[k].name := groupId];
        RemembersOneMore(previous, groups, offers, k, namespace, known, groupId);
        changed := changed || priced;
      }
      assert offers[..|offers|] == offers && ids[..|offers|] == ids;
    }

    static method PriceOne(before: seq<Group>, offer: Offer, namespace: string, id: Id, now: int)
      returns (groups: seq<Group>, groupId: Id, changed: bool)
      ensures groups == SyncOffer(before, offer, namespace, id, now)
      ensures !changed ==> groups == before
      ensures Named(groups, ManagedName(offer.name, namespace), groupId) && Extends(before, groups)
    {
      var name := ManagedName(offer.name, namespace);
      var found := IndexByName(before, name);
      groups, groupId, changed := before, id, false;
      if found.Some? {
        groupId := groups[found.value].id;
      } else {
        groups := groups + [Group(false, groupId, name, [])];
        changed := true;
      }
      EnsuredIsFound(before, name, id);
      var at := IndexById(groups, groupId).value;
      var group := groups[at];
      if !group.manual && CurrentRules(group.versions) != Some(offer.rules) {
        var versions := WithoutTime(group.versions, now) + [Version(now, offer.rules)];
        groups := groups[at := group.(versions := versions)];
        changed := true;
      }
      SyncOfferKeepsNames(before, offer, namespace, id, now);
    }

    /** The second loop. */
    static method AssignSecrets(scope: Scope, before: seq<Assignment>, secrets: seq<Secret>, groupIds: map<string, Id>)
      returns (assignments: seq<Assignment>, changed: bool)
      requires Remembers(scope.groups, scope.offers, scope.namespace, groupIds)
      ensures assignments == AssignAll(scope, before, secrets)
      ensures !changed ==> assignments == before
    {
      assignments, changed := before, false;
      for k := 0 to |secrets|
        invariant AssignAll(scope, assignments, secrets[k..]) == AssignAll(scope, before, secrets)
        invariant !changed ==> assignments == before
      {
        assert secrets[k..][0] == secrets[k] && secrets[k..][1..] == secrets[k + 1..];
        var group := secrets[k].group;
        var next := if group.Some? && group.value in groupIds then Some(groupIds[group.value]) else None;
        RememberedIsNext(scope, secrets[k], groupIds);
        var at := IndexOf(assignments, scope.entry, secrets[k].id);
        if at.None? {
          if next.Some? {
            assignments := assignments + [Assignment(scope.entry, secrets[k].id, next, 1.0, false)];
            changed := true;
          }
        } else {
          var updated := Reassign(scope.groups, scope.namespace, assignments[at.value], next);
          if updated != assignments[at.value] {
            changed := true;
          }
          assignments := assignments[at.value := updated];
        }
      }
    }

    /** A payload without a table changes nothing. */
    method SyncNewApiPricing(entry: Id, namespace: string, offers: Option<seq<Offer>>, ids: seq<Id>,
        secrets: seq<Secret>, now: int)
      returns (config: Config)
      requires offers.Some? ==> |ids| == |offers.value|
      modifies this
      ensures config == if offers.None? then old(stored)
                        else Sync(old(stored), entry, namespace, offers.value, ids, secrets, now)
      ensures stored == Saved(config) || (stored == config == old(stored))
    {
      config := stored;
      if offers.None? {
        return;
      }
      var groups, groupIds, priced := PriceGroups(config.groups, offers.value, namespace, ids, now);
      var scope := Scope(groups, offers.value, namespace, entry);
      var assignments, reassigned := AssignSecrets(scope, config.assignments, secrets, groupIds);
      config := Config(groups, assignments);
      if priced || reassigned {
        stored := Saved(config);
      }
    }

    /** An answer without a multiplier changes nothing. */
    method SyncSubApiPricing(entry: Id, secret: string, namespace: string, id: Id, multiplier: Option<real>)
      returns (config: Config)
      modifies this
      ensures config == if multiplier.Some?
        then SyncSubApi(old(stored), entry, secret, namespace, id, multiplier.value) else old(stored)
      ensures stored == Saved(config) || (stored == config == old(stored))
    {
      config := stored;
      if multiplier.None? || Pinned(config.assignments, entry, secret) {
        return;
      }
      var changed := false;
      var name := SubApiName(namespace);
      var found := IndexByName(config.groups, name);
      var groups, gid := config.groups, id;
      if found.Some? {
        gid := groups[found.value].id;
      } else {
        groups := groups + [Group(false, id, name, [])];
        changed := true;
      }
      EnsuredIsFound(config.groups, name, id);
      var assignments := config.assignments;
      var at := IndexOf(assignments, entry, secret);
      if at.Some? {
        var a := assignments[at.value];
        if (InSubApiGroup(groups, namespace, a) || Unset(a))
          && (a.group != Some(gid) || a.multiplier != multiplier.value)
        {
          assignments := assignments[at.value := a.(group := Some(gid), multiplier := multiplier.value)];
          changed := true;
        }
      } else {
        assignments := assignments + [Assignment(entry, secret, Some(gid), multiplier.value, false)];
        changed := true;
      }
      config := Config(groups, assignments);
      if changed {
        stored := Saved(config);
      }
    }
  }

  /** The first group of this name has this id. */
  ghost predicate Named(groups: seq<Group>, name: string, id: Id) {
    IndexByName(groups, name).Some? && groups[IndexByName(groups, name).value].id == id
  }

  predicate Offered(offers: seq<Offer>, name: string) {
    exists k :: 0 <= k < |offers| && offers[k].name == name
  }

  /** The map holds the id of the group of each offer. */
  ghost predicate Remembers(groups: seq<Group>, offers: seq<Offer>, namespace: string, groupIds: map<string, Id>) {
    && (forall name :: name in groupIds <==> Offered(offers, name))
    && (forall name :: name in groupIds ==> Named(groups, ManagedName(name, namespace), groupIds[name]))
  }

  lemma RememberedIsNext(scope: Scope, secret: Secret, groupIds: map<string, Id>)
    requires Remembers(scope.groups, scope.offers, scope.namespace, groupIds)
    ensures NextGroup(scope.groups, scope.offers, scope.namespace, secret) ==
      if secret.group.Some? && secret.group.value in groupIds then Some(groupIds[secret.group.value]) else None
  {
  }

  lemma RemembersOneMore(before: seq<Group>, after: seq<Group>, offers: seq<Offer>, k: nat, namespace: string,
      groupIds: map<string, Id>, id: Id)
    requires k < |offers| && Remembers(before, offers[..k], namespace, groupIds) && Extends(before, after)
    requires Named(after, ManagedName(offers[k].name, namespace), id)
    ensures Remembers(after, offers[..k + 1], namespace, groupIds[offers[k].name := id])
  {
    var more := groupIds[offers[k].name := id];
    forall name
      ensures name in more <==> Offered(offers[..k + 1], name)
    {
      OfferedNext(offers, k, name);
    }
    forall name | name in more
      ensures Named(after, ManagedName(name, namespace), more[name])
    {
      if name != offers[k].name {
        ExtendingKeepsNames(before, after, ManagedName(name, namespace), groupIds[name]);
      }
    }
  }

  lemma OfferedNext(offers: seq<Offer>, k: nat, name: string)
    requires k < |offers|
    ensures Offered(offers[..k + 1], name) <==> Offered(offers[..k], name) || offers[k].name == name
  {
    if Offered(offers[..k], name) {
      var j :| 0 <= j < k && offers[..k][j].name == name;
      assert offers[..k + 1][j].name == name;
    }
    if offers[k].name == name {
      assert offers[..k + 1][k].name == name;
    }
    if Offered(offers[..k + 1], name) {
      var j :| 0 <= j < k + 1 && offers[..k + 1][j].name == name;
      assert j < k ==> offers[..k][j].name == name;
    }
  }

  /** Groups are only added at the end, and keep their names, ids and ownership. */
  ghost predicate Extends(before: seq<Group>, after: seq<Group>) {
    && |before| <= |after|
    && forall i :: 0 <= i < |before| ==> after[i] == before[i].(versions := after[i].versions)
  }

  lemma SyncOfferExtends(groups: seq<Group>, offer: Offer, namespace: string, id: Id, now: int)
    ensures Extends(groups, SyncOffer(groups, offer, namespace, id, now))
    ensures Extends(EnsureGroup(groups, ManagedName(offer.name, namespace), id),
      SyncOffer(groups, offer, namespace, id, now))
  {
    var ensured := EnsureGroup(groups, ManagedName(offer.name, namespace), id);
    EnsuredIsFound(groups, ManagedName(offer.name, namespace), id);
    assert |SyncOffer(groups, offer, namespace, id, now)| == |ensured|;
  }

  lemma ExtendingKeepsNames(before: seq<Group>, after: seq<Group>, name: string, id: Id)
    requires Extends(before, after) && Named(before, name, id)
    ensures Named(after, name, id) && IndexByName(after, name) == IndexByName(before, name)
  {
    var i := IndexByName(before, name).value;
    assert after[i].name == name;
    assert forall j :: 0 <= j < i ==> after[j].name == before[j].name;
  }

  lemma SyncOfferKeepsNames(groups: seq<Group>, offer: Offer, namespace: string, id: Id, now: int)
    ensures var name, after := ManagedName(offer.name, namespace), SyncOffer(groups, offer, namespace, id, now);
      var at := IndexByName(EnsureGroup(groups, name, id), name);
      && at.Some? && at.value < |after| && IndexByName(after, name) == at
      && Named(after, name, EnsureGroup(groups, name, id)[at.value].id)
      && Extends(groups, after)
  {
    var name, after := ManagedName(offer.name, namespace), SyncOffer(groups, offer, namespace, id, now);
    var ensured := EnsureGroup(groups, name, id);
    EnsuredIsFound(groups, name, id);
    SyncOfferExtends(groups, offer, namespace, id, now);
    ExtendingKeepsNames(ensured, after, name, ensured[IndexByName(ensured, name).value].id);
  }

  // ---- Past prices ---------------------------------------------------------

  /** The rules that price usage at `time`. */
  function InForce(versions: seq<Version>, time: int): Option<Rules> {
    if versions == [] then None
    else
      var last := versions[|versions| - 1];
      if last.effectiveFrom <= time then Some(last.rules) else InForce(versions[..|versions| - 1], time)
  }

  lemma {:induction false} WithoutTimeKeepsPast(versions: seq<Version>, now: int, time: int)
    requires time < now
    ensures InForce(WithoutTime(versions, now), time) == InForce(versions, time)
  {
    if versions != [] {
      var init, last := versions[..|versions| - 1], versions[|versions| - 1];
      WithoutTimeKeepsPast(init, now, time);
      if last.effectiveFrom != now {
        assert (WithoutTime(init, now) + [last])[..|WithoutTime(init, now)|] == WithoutTime(init, now);
      } else {
        assert WithoutTime(init, now) + [] == WithoutTime(init, now);
      }
    }
  }

  lemma RepriceKeepsPast(group: Group, rules: Rules, now: int, time: int)
    requires time < now
    ensures InForce(Reprice(group, rules, now).versions, time) == InForce(group.versions, time)
  {
    WithoutTimeKeepsPast(group.versions, now, time);
    var rest := WithoutTime(group.versions, now);
    assert (rest + [Version(now, rules)])[..|rest|] == rest;
  }

  ghost predicate PastKept(before: seq<Group>, after: seq<Group>, now: int) {
    && Extends(before, after)
    && (forall i :: 0 <= i < |before| && before[i].manual ==> after[i] == before[i])
    && (forall i, time :: 0 <= i < |before| && time < now ==>
      InForce(after[i].versions, time) == InForce(before[i].versions, time))
  }

  lemma SyncOfferKeepsPast(groups: seq<Group>, offer: Offer, namespace: string, id: Id, now: int)
    ensures PastKept(groups, SyncOffer(groups, offer, namespace, id, now), now)
  {
    var name, after := ManagedName(offer.name, namespace), SyncOffer(groups, offer, namespace, id, now);
    SyncOfferExtends(groups, offer, namespace, id, now);
    forall i, time | 0 <= i < |groups| && time < now
      ensures InForce(after[i].versions, time) == InForce(groups[i].versions, time)
    {
      RepriceKeepsPast(groups[i], offer.rules, now, time);
    }
  }

  /** Whatever the table says, no group loses its place, name or owner, a manual group
      keeps its versions, and no group is priced differently before `now`. */
  lemma {:induction false} PastPricesStay(groups: seq<Group>, offers: seq<Offer>, namespace: string, ids: seq<Id>,
      now: int)
    requires |ids| == |offers|
    ensures PastKept(groups, SyncOffers(groups, offers, namespace, ids, now), now)
    decreases |offers|
  {
    if offers != [] {
      var n := |offers| - 1;
      PastPricesStay(groups, offers[..n], namespace, ids[..n], now);
      SyncOfferKeepsPast(SyncOffers(groups, offers[..n], namespace, ids[..n], now), offers[n], namespace, ids[n], now);
    }
  }

  // ---- Sorting on save -----------------------------------------------------

  ghost predicate Sorted(versions: seq<Version>) {
    forall i, j :: 0 <= i < j < |versions| ==> versions[i].effectiveFrom <= versions[j].effectiveFrom
  }

  ghost predicate NotLater(versions: seq<Version>, now: int) {
    forall v :: v in versions ==> v.effectiveFrom <= now
  }

  lemma {:induction false} SortedIsFixed(versions: seq<Version>)
    requires Sorted(versions)
    ensures Sort(versions) == versions
  {
    if versions != [] {
      var init, last := versions[..|versions| - 1], versions[|versions| - 1];
      SortedIsFixed(init);
      assert versions == init + [last];
    }
  }

  lemma {:induction false} InsertKeepsAll(versions: seq<Version>, v: Version)
    ensures multiset(Insert(versions, v)) == multiset(versions) + multiset{v}
  {
    if !(versions == [] || versions[|versions| - 1].effectiveFrom <= v.effectiveFrom) {
      InsertKeepsAll(versions[..|versions| - 1], v);
      assert versions == versions[..|versions| - 1] + [versions[|versions| - 1]];
    }
  }

  lemma {:induction false} InsertSorts(versions: seq<Version>, v: Version)
    requires Sorted(versions)
    ensures Sorted(Insert(versions, v))
  {
    if !(versions == [] || versions[|versions| - 1].effectiveFrom <= v.effectiveFrom) {
      var init, last := versions[..|versions| - 1], versions[|versions| - 1];
      InsertSorts(init, v);
      InsertKeepsAll(init, v);
      forall w | w in Insert(init, v)
        ensures w.effectiveFrom <= last.effectiveFrom
      {
        assert w in multiset(Insert(init, v));
        assert w == v || w in init;
      }
    }
  }

  /** Saving orders the versions by their start and keeps every one of them. */
  lemma {:induction false} SortSorts(versions: seq<Version>)
    ensures Sorted(Sort(versions)) && multiset(Sort(versions)) == multiset(versions)
  {
    if versions != [] {
      var init, last := versions[..|versions| - 1], versions[|versions| - 1];
      SortSorts(init);
      InsertSorts(Sort(init), last);
      InsertKeepsAll(Sort(init), last);
      assert versions == init + [last];
    }
  }

  lemma {:induction false} InsertKeepsPast(versions: seq<Version>, v: Version, time: int)
    requires time < v.effectiveFrom
    ensures InForce(Insert(versions, v), time) == InForce(versions, time)
  {
    if versions == [] || versions[|versions| - 1].effectiveFrom <= v.effectiveFrom {
      assert (versions + [v])[..|versions|] == versions;
    } else {
      var init, last := versions[..|versions| - 1], versions[|versions| - 1];
      InsertKeepsPast(init, v, time);
      assert (Insert(init, v) + [last])[..|Insert(init, v)|] == Insert(init, v);
    }
  }

  /** Sorted, but for a version added now. */
  ghost predicate AddedNow(versions: seq<Version>, now: int) {
    Sorted(versions) || (
      && versions != [] && versions[|versions| - 1].effectiveFrom == now
      && Sorted(versions[..|versions| - 1]))
  }

  lemma {:induction false} WithoutTimeKeepsSorted(versions: seq<Version>, now: int)
    requires Sorted(versions)
    ensures Sorted(WithoutTime(versions, now))
  {
    if versions != [] {
      var init, last := versions[..|versions| - 1], versions[|versions| - 1];
      WithoutTimeKeepsSorted(init, now);
      forall v | v in WithoutTime(init, now)
        ensures v.effectiveFrom <= last.effectiveFrom
      {
        assert v in init;
      }
    }
  }

  lemma SortedWithoutNow(versions: seq<Version>, now: int)
    requires AddedNow(versions, now)
    ensures Sorted(WithoutTime(versions, now))
  {
    if Sorted(versions) {
      WithoutTimeKeepsSorted(versions, now);
    } else {
      WithoutTimeKeepsSorted(versions[..|versions| - 1], now);
      assert WithoutTime(versions, now) == WithoutTime(versions[..|versions| - 1], now) + [];
    }
  }

  lemma SortedAndNow(versions: seq<Version>, rules: Rules, now: int)
    requires Sorted(versions)
    ensures AddedNow(versions + [Version(now, rules)], now)
  {
    assert (versions + [Version(now, rules)])[..|versions|] == versions;
  }

  lemma RepriceAddsNow(group: Group, rules: Rules, now: int)
    requires AddedNow(group.versions, now)
    ensures AddedNow(Reprice(group, rules, now).versions, now)
  {
    SortedWithoutNow(group.versions, now);
    SortedAndNow(WithoutTime(group.versions, now), rules, now);
  }

  ghost predicate AllAddedNow(groups: seq<Group>, now: int) {
    forall i :: 0 <= i < |groups| ==> AddedNow(groups[i].versions, now)
  }

  lemma {:induction false} SyncAddsNow(groups: seq<Group>, offers: seq<Offer>, namespace: string, ids: seq<Id>,
      now: int)
    requires |ids| == |offers| && AllAddedNow(groups, now)
    ensures AllAddedNow(SyncOffers(groups, offers, namespace, ids, now), now)
    decreases |offers|
  {
    if offers != [] {
      var n := |offers| - 1;
      SyncAddsNow(groups, offers[..n], namespace, ids[..n], now);
      var before := SyncOffers(groups, offers[..n], namespace, ids[..n], now);
      SyncOfferAddsNow(before, offers[n], namespace, ids[n], now);
    }
  }

  lemma SyncOfferAddsNow(groups: seq<Group>, offer: Offer, namespace: string, id: Id, now: int)
    requires AllAddedNow(groups, now)
    ensures AllAddedNow(SyncOffer(groups, offer, namespace, id, now), now)
  {
    var name := ManagedName(offer.name, namespace);
    var ensured := EnsureGroup(groups, name, id);
    EnsuredIsFound(groups, name, id);
    forall i | 0 <= i < |ensured|
      ensures AddedNow(Reprice(ensured[i], offer.rules, now).versions, now) && AddedNow(ensured[i].versions, now)
    {
      RepriceAddsNow(ensured[i], offer.rules, now);
    }
  }

  lemma SortKeepsPast(versions: seq<Version>, now: int, time: int)
    requires AddedNow(versions, now) && time < now
    ensures InForce(Sort(versions), time) == InForce(versions, time)
  {
    if Sorted(versions) {
      SortedIsFixed(versions);
    } else {
      var init := versions[..|versions| - 1];
      SortedIsFixed(init);
      InsertKeepsPast(init, versions[|versions| - 1], time);
    }
  }

  /** The same holds of what is saved, when what was stored was in order. */
  lemma SavedPastPricesStay(config: Config, entry: Id, namespace: string, offers: seq<Offer>, ids: seq<Id>,
      secrets: seq<Secret>, now: int, i: nat, time: int)
    requires |ids| == |offers| && i < |config.groups| && time < now
    requires forall k :: 0 <= k < |config.groups| ==> Sorted(config.groups[k].versions)
    ensures var saved := Saved(Sync(config, entry, namespace, offers, ids, secrets, now));
      && i < |saved.groups|
      && InForce(saved.groups[i].versions, time) == InForce(config.groups[i].versions, time)
      && (config.groups[i].manual ==> saved.groups[i] == config.groups[i])
  {
    PastPricesStay(config.groups, offers, namespace, ids, now);
    SyncAddsNow(config.groups, offers, namespace, ids, now);
    var after := SyncOffers(config.groups, offers, namespace, ids, now);
    SortKeepsPast(after[i].versions, now, time);
    SortedIsFixed(config.groups[i].versions);
  }

  // ---- Syncing twice -------------------------------------------------------

  ghost predicate UniqueIds(groups: seq<Group>) {
    forall i, j :: 0 <= i < j < |groups| ==> groups[i].id != groups[j].id
  }

  ghost predicate HasId(groups: seq<Group>, id: Id) {
    exists i :: 0 <= i < |groups| && groups[i].id == id
  }

  ghost predicate NewIds(groups: seq<Group>, ids: seq<Id>) {
    && (forall k :: 0 <= k < |ids| ==> !HasId(groups, ids[k]))
    && (forall j, k :: 0 <= j < k < |ids| ==> ids[j] != ids[k])
  }

  ghost predicate DistinctNames(offers: seq<Offer>) {
    forall j, k :: 0 <= j < k < |offers| ==> offers[j].name != offers[k].name
  }

  /** The group of the offer carries its rules, or is the user's own. */
  ghost predicate Settled(groups: seq<Group>, offer: Offer, namespace: string) {
    var at := IndexByName(groups, ManagedName(offer.name, namespace));
    at.Some? && (groups[at.value].manual || CurrentRules(groups[at.value].versions) == Some(offer.rules))
  }

  lemma SameIndex(groups: seq<Group>, i: nat)
    requires UniqueIds(groups) && i < |groups|
    ensures IndexById(groups, groups[i].id) == Some(i)
  {
  }

  lemma NamesDiffer(a: string, b: string, namespace: string)
    requires ManagedName(a, namespace) == ManagedName(b, namespace)
    ensures a == b
  {
    AfterPrefix(PREFIX, a + SEPARATOR + namespace);
    AfterPrefix(PREFIX, b + SEPARATOR + namespace);
    var x, y := a + SEPARATOR + namespace, b + SEPARATOR + namespace;
    assert x == y && |a| == |b|;
    assert x[..|a|] == a && y[..|b|] == b;
  }

  /** One offer under unique ids: its group is settled, and no other one changes. */
  lemma SyncOfferSettles(groups: seq<Group>, offer: Offer, namespace: string, id: Id, now: int)
    requires UniqueIds(groups) && !HasId(groups, id)
    ensures var after := SyncOffer(groups, offer, namespace, id, now);
      && Settled(after, offer, namespace) && UniqueIds(after) && Extends(groups, after)
      && (forall i :: 0 <= i < |groups| && groups[i].name != ManagedName(offer.name, namespace) ==>
        after[i] == groups[i])
      && (forall other :: HasId(after, other) ==> HasId(groups, other) || other == id)
  {
    var name := ManagedName(offer.name, namespace);
    var ensured, after := EnsureGroup(groups, name, id), SyncOffer(groups, offer, namespace, id, now);
    EnsuredIsFound(groups, name, id);
    SyncOfferKeepsNames(groups, offer, namespace, id, now);
    var at := IndexByName(ensured, name).value;
    SameIndex(ensured, at);
    assert after == ensured[at := Reprice(ensured[at], offer.rules, now)];
    SyncOfferIds(groups, offer, namespace, id, now);
  }

  lemma SyncOfferIds(groups: seq<Group>, offer: Offer, namespace: string, id: Id, now: int)
    ensures forall other :: HasId(SyncOffer(groups, offer, namespace, id, now), other) ==>
      HasId(groups, other) || other == id
  {
    var after := SyncOffer(groups, offer, namespace, id, now);
    EnsuredIsFound(groups, ManagedName(offer.name, namespace), id);
    forall other | HasId(after, other)
      ensures HasId(groups, other) || other == id
    {
      var i :| 0 <= i < |after| && after[i].id == other;
      assert i < |groups| ==> groups[i].id == other;
    }
  }

  lemma SettledStays(before: seq<Group>, after: seq<Group>, done: Offer, offer: Offer, namespace: string)
    requires Settled(before, done, namespace) && Extends(before, after) && done.name != offer.name
    requires forall i :: 0 <= i < |before| && before[i].name != ManagedName(offer.name, namespace) ==>
      after[i] == before[i]
    ensures Settled(after, done, namespace)
  {
    var name := ManagedName(done.name, namespace);
    var at := IndexByName(before, name).value;
    if name == ManagedName(offer.name, namespace) {
      NamesDiffer(done.name, offer.name, namespace);
    }
    ExtendingKeepsNames(before, after, name, before[at].id);
  }

  ghost predicate AllSettled(groups: seq<Group>, offers: seq<Offer>, namespace: string) {
    forall k :: 0 <= k < |offers| ==> Settled(groups, offers[k], namespace)
  }

  ghost predicate IdsFrom(after: seq<Group>, groups: seq<Group>, ids: seq<Id>) {
    forall i :: 0 <= i < |after| ==> HasId(groups, after[i].id) || after[i].id in ids
  }

  lemma {:induction false} SyncSettles(groups: seq<Group>, offers: seq<Offer>, namespace: string, ids: seq<Id>,
      now: int)
    requires |ids| == |offers| && UniqueIds(groups) && NewIds(groups, ids) && DistinctNames(offers)
    ensures UniqueIds(SyncOffers(groups, offers, namespace, ids, now))
    ensures AllSettled(SyncOffers(groups, offers, namespace, ids, now), offers, namespace)
    ensures IdsFrom(SyncOffers(groups, offers, namespace, ids, now), groups, ids)
    decreases |offers|
  {
    if offers == [] {
      assert forall i :: 0 <= i < |groups| ==> HasId(groups, groups[i].id);
    } else {
      var n := |offers| - 1;
      SyncSettles(groups, offers[..n], namespace, ids[..n], now);
      var before := SyncOffers(groups, offers[..n], namespace, ids[..n], now);
      NewIdIsNew(groups, before, ids);
      SyncOfferSettles(before, offers[n], namespace, ids[n], now);
      var after := SyncOffer(before, offers[n], namespace, ids[n], now);
      OneMoreSettled(before, after, offers, namespace);
      OneMoreId(groups, before, after, ids);
    }
  }

  lemma OneMoreId(groups: seq<Group>, before: seq<Group>, after: seq<Group>, ids: seq<Id>)
    requires ids != [] && IdsFrom(before, groups, ids[..|ids| - 1])
    requires forall other :: HasId(after, other) ==> HasId(before, other) || other == ids[|ids| - 1]
    ensures IdsFrom(after, groups, ids)
  {
    forall i | 0 <= i < |after|
      ensures HasId(groups, after[i].id) || after[i].id in ids
    {
      assert HasId(after, after[i].id);
      if HasId(before, after[i].id) {
        var j :| 0 <= j < |before| && before[j].id == after[i].id;
        assert HasId(groups, before[j].id) || before[j].id in ids[..|ids| - 1];
      }
    }
  }

  lemma NewIdIsNew(groups: seq<Group>, before: seq<Group>, ids: seq<Id>)
    requires ids != [] && NewIds(groups, ids) && IdsFrom(before, groups, ids[..|ids| - 1])
    ensures !HasId(before, ids[|ids| - 1])
  {
    forall j | 0 <= j < |before|
      ensures before[j].id != ids[|ids| - 1]
    {
      assert HasId(groups, before[j].id) || before[j].id in ids[..|ids| - 1];
    }
  }

  lemma OneMoreSettled(before: seq<Group>, after: seq<Group>, offers: seq<Offer>, namespace: string)
    requires offers != [] && DistinctNames(offers) && AllSettled(before, offers[..|offers| - 1], namespace)
    requires Extends(before, after) && Settled(after, offers[|offers| - 1], namespace)
    requires forall i :: 0 <= i < |before| && before[i].name != ManagedName(offers[|offers| - 1].name, namespace) ==>
      after[i] == before[i]
    ensures AllSettled(after, offers, namespace)
  {
    var n := |offers| - 1;
    forall k | 0 <= k < n
      ensures Settled(after, offers[k], namespace)
    {
      assert Settled(before, offers[..n][k], namespace);
      SettledStays(before, after, offers[k], offers[n], namespace);
    }
  }

  lemma SettledIsFixed(groups: seq<Group>, offer: Offer, namespace: string, id: Id, now: int)
    requires UniqueIds(groups) && Settled(groups, offer, namespace)
    ensures SyncOffer(groups, offer, namespace, id, now) == groups
  {
    var at := IndexByName(groups, ManagedName(offer.name, namespace)).value;
    SameIndex(groups, at);
    assert groups[at := groups[at]] == groups;
  }

  lemma {:induction false} SettledGroupsAreFixed(groups: seq<Group>, offers: seq<Offer>, namespace: string,
      ids: seq<Id>, now: int)
    requires |ids| == |offers| && UniqueIds(groups)
    requires forall k :: 0 <= k < |offers| ==> Settled(groups, offers[k], namespace)
    ensures SyncOffers(groups, offers, namespace, ids, now) == groups
    decreases |offers|
  {
    if offers != [] {
      var n := |offers| - 1;
      SettledGroupsAreFixed(groups, offers[..n], namespace, ids[..n], now);
      SettledIsFixed(groups, offers[n], namespace, ids[n], now);
    }
  }

  // ---- Assignments ---------------------------------------------------------

  /** What the synchronisation may change. */
  predicate Eligible(scope: Scope, a: Assignment) {
    !a.manual && (InManagedGroup(scope.groups, scope.namespace, a) || Unset(a))
  }

  ghost predicate Mentions(secrets: seq<Secret>, id: string) {
    exists k :: 0 <= k < |secrets| && secrets[k].id == id
  }

  /** A manual assignment, one in a group of the user or of another gateway, one of
      another entry and one whose secret was not given are all kept as they are. */
  lemma {:induction false} OtherAssignmentsStay(scope: Scope, assignments: seq<Assignment>, secrets: seq<Secret>,
      i: nat)
    requires i < |assignments|
    requires !Eligible(scope, assignments[i]) || assignments[i].entry != scope.entry
      || !Mentions(secrets, assignments[i].secret)
    ensures i < |AssignAll(scope, assignments, secrets)| && AssignAll(scope, assignments, secrets)[i] == assignments[i]
    decreases |secrets|
  {
    if secrets != [] {
      var next := AssignOne(scope, assignments, secrets[0]);
      assert next[i] == assignments[i];
      if Mentions(secrets[1..], assignments[i].secret) {
        var k :| 0 <= k < |secrets[1..]| && secrets[1..][k].id == assignments[i].secret;
        assert secrets[k + 1].id == assignments[i].secret;
      }
      OtherAssignmentsStay(scope, next, secrets[1..], i);
    }
  }

  /** What the list makes of one credential's assignment. */
  function AssignKey(scope: Scope, item: Option<Assignment>, id: string, secrets: seq<Secret>): Option<Assignment>
    decreases |secrets|
  {
    if secrets == [] then item
    else if secrets[0].id != id then AssignKey(scope, item, id, secrets[1..])
    else
      var next := NextGroup(scope.groups, scope.offers, scope.namespace, secrets[0]);
      var step := match item
                  case Some(a) => Some(Reassign(scope.groups, scope.namespace, a, next))
                  case None => if next.Some? then Some(Assignment(scope.entry, id, next, 1.0, false)) else None;
      AssignKey(scope, step, id, secrets[1..])
  }

  function Get(assignments: seq<Assignment>, entry: Id, id: string): Option<Assignment> {
    var at := IndexOf(assignments, entry, id);
    if at.Some? then Some(assignments[at.value]) else None
  }

  ghost predicate SameKeys(before: seq<Assignment>, after: seq<Assignment>) {
    && |before| <= |after|
    && forall i :: 0 <= i < |before| ==> after[i].entry == before[i].entry && after[i].secret == before[i].secret
  }

  predicate IsFor(a: Assignment, entry: Id, id: string) {
    a.entry == entry && a.secret == id
  }

  lemma {:induction false} FirstFor(assignments: seq<Assignment>, entry: Id, id: string, i: nat)
    requires i < |assignments| && IsFor(assignments[i], entry, id)
    requires forall j :: 0 <= j < i ==> !IsFor(assignments[j], entry, id)
    ensures IndexOf(assignments, entry, id) == Some(i)
    decreases i
  {
    if i > 0 {
      assert !IsFor(assignments[0], entry, id);
      FirstFor(assignments[1..], entry, id, i - 1);
    }
  }

  lemma {:induction false} NoneFor(assignments: seq<Assignment>, entry: Id, id: string)
    requires forall j :: 0 <= j < |assignments| ==> !IsFor(assignments[j], entry, id)
    ensures IndexOf(assignments, entry, id) == None
    decreases |assignments|
  {
    if assignments != [] {
      assert !IsFor(assignments[0], entry, id);
      NoneFor(assignments[1..], entry, id);
    }
  }

  lemma SameKeysSameIndex(before: seq<Assignment>, after: seq<Assignment>, entry: Id, id: string)
    requires SameKeys(before, after)
    ensures IndexOf(before, entry, id).Some? ==> IndexOf(after, entry, id) == IndexOf(before, entry, id)
    ensures |before| == |after| ==> IndexOf(after, entry, id) == IndexOf(before, entry, id)
  {
    var i := IndexOf(before, entry, id);
    assert forall j :: 0 <= j < |before| ==> (IsFor(after[j], entry, id) <==> IsFor(before[j], entry, id));
    if i.Some? {
      FirstFor(after, entry, id, i.value);
    } else if |before| == |after| {
      NoneFor(after, entry, id);
    }
  }

  lemma AssignOneStep(scope: Scope, assignments: seq<Assignment>, secret: Secret, id: string)
    ensures SameKeys(assignments, AssignOne(scope, assignments, secret))
    ensures Get(AssignOne(scope, assignments, secret), scope.entry, id) ==
      AssignKey(scope, Get(assignments, scope.entry, id), id, [secret])
  {
    var after := AssignOne(scope, assignments, secret);
    var at := IndexOf(assignments, scope.entry, secret.id);
    SameKeysSameIndex(assignments, after, scope.entry, id);
    assert [secret][1..] == [];
    if |after| > |assignments| && IndexOf(assignments, scope.entry, id).None? {
      AppendedIndex(assignments, after[|assignments|], scope.entry, id);
    }
  }

  lemma AppendedIndex(assignments: seq<Assignment>, a: Assignment, entry: Id, id: string)
    requires IndexOf(assignments, entry, id).None?
    ensures Get(assignments + [a], entry, id) == if IsFor(a, entry, id) then Some(a) else None
  {
    var after := assignments + [a];
    assert after[|assignments|] == a;
    assert forall j :: 0 <= j < |assignments| ==> !IsFor(after[j], entry, id);
    if IsFor(a, entry, id) {
      FirstFor(after, entry, id, |assignments|);
    } else {
      NoneFor(after, entry, id);
    }
  }

  /** Each credential is assigned on its own, as the list goes along. */
  lemma {:induction false} AssignAllByKey(scope: Scope, assignments: seq<Assignment>, secrets: seq<Secret>, id: string)
    ensures SameKeys(assignments, AssignAll(scope, assignments, secrets))
    ensures Get(AssignAll(scope, assignments, secrets), scope.entry, id) ==
      AssignKey(scope, Get(assignments, scope.entry, id), id, secrets)
    decreases |secrets|
  {
    if secrets != [] {
      AssignOneStep(scope, assignments, secrets[0], id);
      AssignAllByKey(scope, AssignOne(scope, assignments, secrets[0]), secrets[1..], id);
      assert [secrets[0]][1..] == [];
    }
  }

  lemma {:induction false} IneligibleKeyStays(scope: Scope, a: Assignment, id: string, secrets: seq<Secret>)
    requires !Eligible(scope, a)
    ensures AssignKey(scope, Some(a), id, secrets) == Some(a)
    decreases |secrets|
  {
    if secrets != [] {
      IneligibleKeyStays(scope, a, id, secrets[1..]);
    }
  }

  /** From an eligible assignment the outcome does not depend on where it was. */
  lemma {:induction false} EligibleKeysMeet(scope: Scope, a: Assignment, b: Assignment, id: string,
      secrets: seq<Secret>)
    requires Eligible(scope, a) && Eligible(scope, b) && a.entry == b.entry && a.secret == b.secret
    requires Mentions(secrets, id)
    ensures AssignKey(scope, Some(a), id, secrets) == AssignKey(scope, Some(b), id, secrets)
    decreases |secrets|
  {
    if secrets[0].id != id {
      var k :| 0 <= k < |secrets| && secrets[k].id == id;
      assert secrets[1..][k - 1].id == id;
      EligibleKeysMeet(scope, a, b, id, secrets[1..]);
    } else {
      var next := NextGroup(scope.groups, scope.offers, scope.namespace, secrets[0]);
      assert Reassign(scope.groups, scope.namespace, a, next) == Reassign(scope.groups, scope.namespace, b, next);
    }
  }

  /** Starting from nothing is like starting from an unset assignment, or leads nowhere. */
  lemma {:induction false} NothingIsUnset(scope: Scope, id: string, secrets: seq<Secret>)
    ensures AssignKey(scope, None, id, secrets).Some? ==>
      && Mentions(secrets, id)
      && AssignKey(scope, None, id, secrets) ==
        AssignKey(scope, Some(Assignment(scope.entry, id, None, 1.0, false)), id, secrets)
    decreases |secrets|
  {
    if secrets != [] {
      NothingIsUnset(scope, id, secrets[1..]);
      if secrets[0].id == id {
        assert Mentions(secrets, id);
      } else if AssignKey(scope, None, id, secrets[1..]).Some? {
        var k :| 0 <= k < |secrets[1..]| && secrets[1..][k].id == id;
        assert secrets[k + 1].id == id;
      }
    }
  }

  lemma {:induction false} UnmentionedKeyStays(scope: Scope, item: Option<Assignment>, id: string, secrets: seq<Secret>)
    requires !Mentions(secrets, id)
    ensures AssignKey(scope, item, id, secrets) == item
    decreases |secrets|
  {
    if secrets != [] {
      assert secrets[0].id != id;
      forall k | 0 <= k < |secrets[1..]|
        ensures secrets[1..][k].id != id
      {
        assert secrets[k + 1].id != id;
      }
      UnmentionedKeyStays(scope, item, id, secrets[1..]);
    }
  }

  lemma {:induction false} KeyOwner(scope: Scope, item: Option<Assignment>, id: string, secrets: seq<Secret>)
    requires item.Some? ==> item.value.entry == scope.entry && item.value.secret == id
    ensures var r := AssignKey(scope, item, id, secrets);
      r.Some? ==> r.value.entry == scope.entry && r.value.secret == id
    decreases |secrets|
  {
    if secrets != [] {
      if secrets[0].id != id {
        KeyOwner(scope, item, id, secrets[1..]);
      } else {
        var next := NextGroup(scope.groups, scope.offers, scope.namespace, secrets[0]);
        var step := match item
                    case Some(a) => Some(Reassign(scope.groups, scope.namespace, a, next))
                    case None => if next.Some? then Some(Assignment(scope.entry, id, next, 1.0, false)) else None;
        KeyOwner(scope, step, id, secrets[1..]);
      }
    }
  }

  lemma KeyTwice(scope: Scope, item: Option<Assignment>, id: string, secrets: seq<Secret>)
    requires item.Some? ==> item.value.entry == scope.entry && item.value.secret == id
    ensures var once := AssignKey(scope, item, id, secrets); AssignKey(scope, once, id, secrets) == once
  {
    var once := AssignKey(scope, item, id, secrets);
    KeyOwner(scope, item, id, secrets);
    if item.Some? {
      NeverForgotten(scope, item.value, id, secrets);
    }
    if !Mentions(secrets, id) {
      UnmentionedKeyStays(scope, item, id, secrets);
    } else if once.Some? {
      if !Eligible(scope, once.value) {
        IneligibleKeyStays(scope, once.value, id, secrets);
      } else if item.None? {
        NothingIsUnset(scope, id, secrets);
        EligibleKeysMeet(scope, Assignment(scope.entry, id, None, 1.0, false), once.value, id, secrets);
      } else if Eligible(scope, item.value) {
        EligibleKeysMeet(scope, item.value, once.value, id, secrets);
      } else {
        IneligibleKeyStays(scope, item.value, id, secrets);
      }
    }
  }

  /** Only the first assignment of a credential can change. */
  lemma {:induction false} LaterDuplicatesStay(scope: Scope, assignments: seq<Assignment>, secrets: seq<Secret>, i: nat)
    requires i < |assignments|
    requires assignments[i].entry != scope.entry || IndexOf(assignments, scope.entry, assignments[i].secret) != Some(i)
    ensures i < |AssignAll(scope, assignments, secrets)| && AssignAll(scope, assignments, secrets)[i] == assignments[i]
    decreases |secrets|
  {
    if secrets != [] {
      var next := AssignOne(scope, assignments, secrets[0]);
      AssignOneStep(scope, assignments, secrets[0], assignments[i].secret);
      SameKeysSameIndex(assignments, next, scope.entry, assignments[i].secret);
      assert next[i] == assignments[i];
      LaterDuplicatesStay(scope, next, secrets[1..], i);
    }
  }

  /** Nothing is appended when every credential has its assignment or gets none. */
  lemma {:induction false} NothingAppended(scope: Scope, assignments: seq<Assignment>, secrets: seq<Secret>)
    requires forall k :: 0 <= k < |secrets| ==>
      Get(assignments, scope.entry, secrets[k].id).Some? || AssignKey(scope, None, secrets[k].id, secrets).None?
    ensures |AssignAll(scope, assignments, secrets)| == |assignments|
    decreases |secrets|
  {
    if secrets != [] {
      var next := AssignOne(scope, assignments, secrets[0]);
      AssignOneStep(scope, assignments, secrets[0], secrets[0].id);
      if Get(assignments, scope.entry, secrets[0].id).None? {
        SomethingStays(scope, secrets[0].id, secrets);
      }
      assert |next| == |assignments|;
      forall k | 0 <= k < |secrets[1..]|
        ensures Get(next, scope.entry, secrets[1..][k].id).Some?
          || AssignKey(scope, None, secrets[1..][k].id, secrets[1..]).None?
      {
        var id := secrets[k + 1].id;
        assert secrets[1..][k] == secrets[k + 1];
        SameKeysSameIndex(assignments, next, scope.entry, id);
        if Get(assignments, scope.entry, id).None? {
          SomethingStays(scope, id, secrets);
        }
      }
      NothingAppended(scope, next, secrets[1..]);
    }
  }

  lemma SomethingStays(scope: Scope, id: string, secrets: seq<Secret>)
    requires secrets != [] && AssignKey(scope, None, id, secrets).None?
    ensures AssignKey(scope, None, id, secrets[1..]).None?
    ensures secrets[0].id == id ==> NextGroup(scope.groups, scope.offers, scope.namespace, secrets[0]).None?
  {
    if secrets[0].id == id {
      var next := NextGroup(scope.groups, scope.offers, scope.namespace, secrets[0]);
      if next.Some? {
        NeverForgotten(scope, Assignment(scope.entry, id, next, 1.0, false), id, secrets[1..]);
      }
    }
  }

  lemma {:induction false} NeverForgotten(scope: Scope, a: Assignment, id: string, secrets: seq<Secret>)
    ensures AssignKey(scope, Some(a), id, secrets).Some?
    decreases |secrets|
  {
    if secrets != [] {
      if secrets[0].id != id {
        NeverForgotten(scope, a, id, secrets[1..]);
      } else {
        var next := NextGroup(scope.groups, scope.offers, scope.namespace, secrets[0]);
        NeverForgotten(scope, Reassign(scope.groups, scope.namespace, a, next), id, secrets[1..]);
      }
    }
  }

  /** Assigning twice is assigning once, also when the list names a secret more than
      once with different groups. */
  lemma AssignTwice(scope: Scope, assignments: seq<Assignment>, secrets: seq<Secret>)
    ensures var once := AssignAll(scope, assignments, secrets); AssignAll(scope, once, secrets) == once
  {
    var once := AssignAll(scope, assignments, secrets);
    var twice := AssignAll(scope, once, secrets);
    forall k | 0 <= k < |secrets|
      ensures Get(once, scope.entry, secrets[k].id).Some? || AssignKey(scope, None, secrets[k].id, secrets).None?
    {
      var id := secrets[k].id;
      AssignAllByKey(scope, assignments, secrets, id);
      var item := Get(assignments, scope.entry, id);
      if item.Some? {
        NeverForgotten(scope, item.value, id, secrets);
      }
    }
    NothingAppended(scope, once, secrets);
    forall i | 0 <= i < |once|
      ensures twice[i] == once[i]
    {
      AssignTwiceAt(scope, assignments, secrets, i);
    }
  }

  lemma AssignTwiceAt(scope: Scope, assignments: seq<Assignment>, secrets: seq<Secret>, i: nat)
    requires i < |AssignAll(scope, assignments, secrets)|
    ensures var once := AssignAll(scope, assignments, secrets);
      i < |AssignAll(scope, once, secrets)| && AssignAll(scope, once, secrets)[i] == once[i]
  {
    var once := AssignAll(scope, assignments, secrets);
    var id := once[i].secret;
    if once[i].entry != scope.entry || IndexOf(once, scope.entry, id) != Some(i) {
      LaterDuplicatesStay(scope, once, secrets, i);
    } else {
      AssignAllByKey(scope, assignments, secrets, id);
      AssignAllByKey(scope, once, secrets, id);
      KeyTwice(scope, Get(assignments, scope.entry, id), id, secrets);
      SameKeysSameIndex(once, AssignAll(scope, once, secrets), scope.entry, id);
    }
  }

  // ---- The whole synchronisation -------------------------------------------

  /** The group an offer is for: the one of its name, or the one made for it. */
  function OfferedGroup(groups: seq<Group>, offer: Offer, namespace: string, id: Id): Group {
    var name := ManagedName(offer.name, namespace);
    var at := IndexByName(groups, name);
    if at.Some? then groups[at.value] else Group(false, id, name, [])
  }

  lemma SyncOfferReprices(groups: seq<Group>, offer: Offer, namespace: string, id: Id, now: int)
    requires UniqueIds(groups) && !HasId(groups, id)
    ensures OfferedGroup(SyncOffer(groups, offer, namespace, id, now), offer, namespace, id)
      == Reprice(OfferedGroup(groups, offer, namespace, id), offer.rules, now)
  {
    var name := ManagedName(offer.name, namespace);
    var ensured, after := EnsureGroup(groups, name, id), SyncOffer(groups, offer, namespace, id, now);
    EnsuredIsFound(groups, name, id);
    SyncOfferKeepsNames(groups, offer, namespace, id, now);
    var at := IndexByName(ensured, name).value;
    SameIndex(ensured, at);
    assert after == ensured[at := Reprice(ensured[at], offer.rules, now)];
    assert ensured[at] == OfferedGroup(groups, offer, namespace, id) by {
      if IndexByName(groups, name).None? {
        assert at == |groups|;
      }
    }
  }

  lemma OtherOfferStays(groups: seq<Group>, offer: Offer, namespace: string, id: Id, now: int, other: Offer,
      otherId: Id)
    requires UniqueIds(groups) && !HasId(groups, id) && other.name != offer.name
    ensures OfferedGroup(SyncOffer(groups, offer, namespace, id, now), other, namespace, otherId)
      == OfferedGroup(groups, other, namespace, otherId)
  {
    var after, name := SyncOffer(groups, offer, namespace, id, now), ManagedName(other.name, namespace);
    if name == ManagedName(offer.name, namespace) {
      NamesDiffer(other.name, offer.name, namespace);
    }
    SyncOfferSettles(groups, offer, namespace, id, now);
    var at := IndexByName(groups, name);
    if at.Some? {
      ExtendingKeepsNames(groups, after, name, groups[at.value].id);
    } else {
      AddedNames(groups, offer, namespace, id, now);
      assert IndexByName(after, name).None?;
    }
  }

  lemma AddedNames(groups: seq<Group>, offer: Offer, namespace: string, id: Id, now: int)
    ensures var after := SyncOffer(groups, offer, namespace, id, now);
      forall i :: |groups| <= i < |after| ==> after[i].name == ManagedName(offer.name, namespace)
  {
    var name := ManagedName(offer.name, namespace);
    EnsuredIsFound(groups, name, id);
    SyncOfferExtends(groups, offer, namespace, id, now);
    var ensured := EnsureGroup(groups, name, id);
    assert |SyncOffer(groups, offer, namespace, id, now)| == |ensured|;
  }

  lemma NextIdIsNew(groups: seq<Group>, offers: seq<Offer>, namespace: string, ids: seq<Id>, now: int)
    requires |ids| == |offers| > 0 && UniqueIds(groups) && NewIds(groups, ids) && DistinctNames(offers)
    ensures var n := |offers| - 1;
      var before := SyncOffers(groups, offers[..n], namespace, ids[..n], now);
      UniqueIds(before) && !HasId(before, ids[n])
  {
    var n := |offers| - 1;
    SyncSettles(groups, offers[..n], namespace, ids[..n], now);
    NewIdIsNew(groups, SyncOffers(groups, offers[..n], namespace, ids[..n], now), ids);
  }

  /** A group that is not offered yet is still as it was. */
  lemma {:induction false} NotOfferedStays(groups: seq<Group>, offers: seq<Offer>, namespace: string, ids: seq<Id>,
      now: int, other: Offer, otherId: Id)
    requires |ids| == |offers| && UniqueIds(groups) && NewIds(groups, ids) && DistinctNames(offers)
    requires forall k :: 0 <= k < |offers| ==> offers[k].name != other.name
    ensures OfferedGroup(SyncOffers(groups, offers, namespace, ids, now), other, namespace, otherId)
      == OfferedGroup(groups, other, namespace, otherId)
    decreases |offers|
  {
    if offers != [] {
      var n := |offers| - 1;
      var before := SyncOffers(groups, offers[..n], namespace, ids[..n], now);
      NotOfferedStays(groups, offers[..n], namespace, ids[..n], now, other, otherId);
      NextIdIsNew(groups, offers, namespace, ids, now);
      OtherOfferStays(before, offers[n], namespace, ids[n], now, other, otherId);
    }
  }

  /** Every offered group is repriced once, from what it was before the synchronisation. */
  lemma {:induction false} SyncReprices(groups: seq<Group>, offers: seq<Offer>, namespace: string, ids: seq<Id>,
      now: int, k: nat)
    requires |ids| == |offers| && UniqueIds(groups) && NewIds(groups, ids) && DistinctNames(offers) && k < |offers|
    ensures OfferedGroup(SyncOffers(groups, offers, namespace, ids, now), offers[k], namespace, ids[k])
      == Reprice(OfferedGroup(groups, offers[k], namespace, ids[k]), offers[k].rules, now)
    decreases |offers|
  {
    var n := |offers| - 1;
    var before := SyncOffers(groups, offers[..n], namespace, ids[..n], now);
    NextIdIsNew(groups, offers, namespace, ids, now);
    if k == n {
      NotOfferedStays(groups, offers[..n], namespace, ids[..n], now, offers[n], ids[n]);
      SyncOfferReprices(before, offers[n], namespace, ids[n], now);
    } else {
      assert offers[..n][k] == offers[k] && ids[..n][k] == ids[k];
      SyncReprices(groups, offers[..n], namespace, ids[..n], now, k);
      OtherOfferStays(before, offers[n], namespace, ids[n], now, offers[k], ids[k]);
    }
  }

  /** The table leaves nothing to do a second time: the group is the user's own, ends
      with these rules already, or has no version later than now. */
  predicate Lasting(group: Group, rules: Rules, now: int) {
    || group.manual
    || CurrentRules(group.versions) == Some(rules)
    || forall i :: 0 <= i < |group.versions| ==> group.versions[i].effectiveFrom <= now
  }

  lemma LaterVersionStaysLast(versions: seq<Version>, rules: Rules, now: int)
    requires Sorted(versions) && versions != [] && versions[|versions| - 1].effectiveFrom > now
    ensures CurrentRules(Sort(WithoutTime(versions, now) + [Version(now, rules)])) == CurrentRules(versions)
  {
    var init, last := versions[..|versions| - 1], versions[|versions| - 1];
    var rest, v := WithoutTime(versions, now), Version(now, rules);
    assert rest == WithoutTime(init, now) + [last];
    WithoutTimeKeepsSorted(versions, now);
    SortedIsFixed(rest);
    assert (rest + [v])[..|rest|] == rest;
    assert Sort(rest + [v]) == Insert(rest, v);
    assert Insert(rest, v)[|Insert(rest, v)| - 1] == last;
  }

  lemma AddedVersionIsLast(versions: seq<Version>, rules: Rules, now: int)
    requires Sorted(versions) && NotLater(versions, now)
    ensures Sorted(WithoutTime(versions, now) + [Version(now, rules)])
    ensures Sort(WithoutTime(versions, now) + [Version(now, rules)])
      == WithoutTime(versions, now) + [Version(now, rules)]
  {
    WithoutTimeKeepsSorted(versions, now);
    SortedIsFixed(WithoutTime(versions, now) + [Version(now, rules)]);
  }

  /** Of one group: saving it repriced and repricing it again, whenever, changes it
      unless it is lasting, and then only. */
  lemma RepriceAgainExactly(group: Group, rules: Rules, now: int, later: int)
    requires Sorted(group.versions)
    ensures var once := Reprice(group, rules, now);
      var saved := once.(versions := Sort(once.versions));
      && (Reprice(saved, rules, later) == saved <==> Lasting(group, rules, now))
      && (saved.manual || CurrentRules(saved.versions) == Some(rules) <==> Lasting(group, rules, now))
      && (Lasting(group, rules, now) ==> Sorted(once.versions) && saved == once)
  {
    var versions := group.versions;
    SortedIsFixed(versions);
    var once := Reprice(group, rules, now);
    var saved := once.(versions := Sort(once.versions));
    if !group.manual && CurrentRules(versions) != Some(rules) {
      if Lasting(group, rules, now) {
        AddedVersionIsLast(versions, rules, now);
      } else {
        LaterVersionStaysLast(versions, rules, now);
      }
    }
    if !saved.manual && CurrentRules(saved.versions) != Some(rules) {
      var again := Reprice(saved, rules, later);
      assert again.versions[|again.versions| - 1] == Version(later, rules);
      assert CurrentRules(again.versions) == Some(rules);
    }
  }

  ghost predicate AllSorted(groups: seq<Group>) {
    forall i :: 0 <= i < |groups| ==> Sorted(groups[i].versions)
  }

  ghost predicate AllLasting(groups: seq<Group>, offers: seq<Offer>, namespace: string, ids: seq<Id>, now: int)
    requires |ids| == |offers|
  {
    forall k :: 0 <= k < |offers| ==> Lasting(OfferedGroup(groups, offers[k], namespace, ids[k]), offers[k].rules, now)
  }

  lemma {:induction false} LastingStaysSorted(groups: seq<Group>, offers: seq<Offer>, namespace: string, ids: seq<Id>,
      now: int)
    requires |ids| == |offers| && UniqueIds(groups) && NewIds(groups, ids) && DistinctNames(offers)
    requires AllSorted(groups) && AllLasting(groups, offers, namespace, ids, now)
    ensures AllSorted(SyncOffers(groups, offers, namespace, ids, now))
    decreases |offers|
  {
    if offers != [] {
      var n := |offers| - 1;
      assert AllLasting(groups, offers[..n], namespace, ids[..n], now) by {
        forall k | 0 <= k < n
          ensures Lasting(OfferedGroup(groups, offers[..n][k], namespace, ids[..n][k]), offers[..n][k].rules, now)
        {
          assert offers[..n][k] == offers[k] && ids[..n][k] == ids[k];
        }
      }
      LastingStaysSorted(groups, offers[..n], namespace, ids[..n], now);
      var before := SyncOffers(groups, offers[..n], namespace, ids[..n], now);
      NextIdIsNew(groups, offers, namespace, ids, now);
      NotOfferedStays(groups, offers[..n], namespace, ids[..n], now, offers[n], ids[n]);
      LastingOfferStaysSorted(before, offers[n], namespace, ids[n], now);
    }
  }

  lemma LastingOfferStaysSorted(groups: seq<Group>, offer: Offer, namespace: string, id: Id, now: int)
    requires UniqueIds(groups) && !HasId(groups, id) && AllSorted(groups)
    requires Lasting(OfferedGroup(groups, offer, namespace, id), offer.rules, now)
    ensures AllSorted(SyncOffer(groups, offer, namespace, id, now))
  {
    var name := ManagedName(offer.name, namespace);
    var ensured := EnsureGroup(groups, name, id);
    EnsuredIsFound(groups, name, id);
    var at := IndexByName(ensured, name).value;
    SameIndex(ensured, at);
    var offered := OfferedGroup(groups, offer, namespace, id);
    assert ensured[at] == offered by {
      if IndexByName(groups, name).None? {
        assert at == |groups|;
      }
    }
    RepriceAgainExactly(offered, offer.rules, now, now);
  }

  lemma SortedGroupsAreSaved(groups: seq<Group>)
    requires AllSorted(groups)
    ensures SortGroups(groups) == groups
  {
    forall i | 0 <= i < |groups|
      ensures SortGroups(groups)[i] == groups[i]
    {
      SortedIsFixed(groups[i].versions);
    }
  }

  /** After saving, an offered group is settled exactly if it was lasting. */
  lemma SavedSettledExactly(groups: seq<Group>, offers: seq<Offer>, namespace: string, ids: seq<Id>, now: int, k: nat)
    requires |ids| == |offers| && UniqueIds(groups) && NewIds(groups, ids) && DistinctNames(offers) && AllSorted(groups)
    requires k < |offers|
    ensures Settled(SortGroups(SyncOffers(groups, offers, namespace, ids, now)), offers[k], namespace) <==>
      Lasting(OfferedGroup(groups, offers[k], namespace, ids[k]), offers[k].rules, now)
  {
    var after := SyncOffers(groups, offers, namespace, ids, now);
    var name := ManagedName(offers[k].name, namespace);
    SyncSettles(groups, offers, namespace, ids, now);
    assert Settled(after, offers[k], namespace);
    var at := IndexByName(after, name).value;
    ExtendingKeepsNames(after, SortGroups(after), name, after[at].id);
    SyncReprices(groups, offers, namespace, ids, now, k);
    RepriceAgainExactly(OfferedGroup(groups, offers[k], namespace, ids[k]), offers[k].rules, now, now);
  }

  /** What was stored is in order, because saving sorts it.  Then the same table applied
      again to what was saved, whenever, changes nothing exactly if every offered group
      is lasting; and then what is saved is what was returned. */
  lemma SyncAgainExactly(config: Config, entry: Id, namespace: string, offers: seq<Offer>, ids: seq<Id>,
      secrets: seq<Secret>, now: int, laterIds: seq<Id>, later: int)
    requires |ids| == |offers| == |laterIds|
    requires UniqueIds(config.groups) && NewIds(config.groups, ids) && DistinctNames(offers) && AllSorted(config.groups)
    requires NewIds(Sync(config, entry, namespace, offers, ids, secrets, now).groups, laterIds)
    ensures var once := Sync(config, entry, namespace, offers, ids, secrets, now);
      && (Sync(Saved(once), entry, namespace, offers, laterIds, secrets, later) == Saved(once) <==>
        AllLasting(config.groups, offers, namespace, ids, now))
      && (AllLasting(config.groups, offers, namespace, ids, now) ==> Saved(once) == once)
  {
    var once := Sync(config, entry, namespace, offers, ids, secrets, now);
    var saved := SortGroups(once.groups);
    SyncSettles(config.groups, offers, namespace, ids, now);
    forall k | 0 <= k < |offers|
      ensures Settled(saved, offers[k], namespace) <==>
        Lasting(OfferedGroup(config.groups, offers[k], namespace, ids[k]), offers[k].rules, now)
    {
      SavedSettledExactly(config.groups, offers, namespace, ids, now, k);
    }
    assert UniqueIds(saved);
    if AllLasting(config.groups, offers, namespace, ids, now) {
      LastingStaysSorted(config.groups, offers, namespace, ids, now);
      SortedGroupsAreSaved(once.groups);
      SettledGroupsAreFixed(saved, offers, namespace, laterIds, later);
      AssignTwice(Scope(once.groups, offers, namespace, entry), config.assignments, secrets);
    } else if SyncOffers(saved, offers, namespace, laterIds, later) == saved {
      SavedIdsAreNew(once.groups, laterIds);
      SyncSettles(saved, offers, namespace, laterIds, later);
    }
  }

  lemma SavedIdsAreNew(groups: seq<Group>, ids: seq<Id>)
    requires NewIds(groups, ids)
    ensures NewIds(SortGroups(groups), ids)
  {
    forall k | 0 <= k < |ids|
      ensures !HasId(SortGroups(groups), ids[k])
    {
      assert !HasId(groups, ids[k]);
      assert forall i :: 0 <= i < |groups| ==> SortGroups(groups)[i].id == groups[i].id;
    }
  }

  /** From `now` on the table's rules are the ones in force in a group that has no later
      version and is not manual. */
  lemma NewPricesApply(config: Config, entry: Id, namespace: string, offers: seq<Offer>, ids: seq<Id>,
      secrets: seq<Secret>, now: int, k: nat, time: int)
    requires |ids| == |offers| && k < |offers| && time >= now
    requires UniqueIds(config.groups) && NewIds(config.groups, ids) && DistinctNames(offers)
    requires NotLater(OfferedGroup(config.groups, offers[k], namespace, ids[k]).versions, now)
    ensures var groups := Sync(config, entry, namespace, offers, ids, secrets, now).groups;
      var at := IndexByName(groups, ManagedName(offers[k].name, namespace));
      at.Some? && (groups[at.value].manual || InForce(groups[at.value].versions, time) == Some(offers[k].rules))
  {
    SyncSettles(config.groups, offers, namespace, ids, now);
    SyncReprices(config.groups, offers, namespace, ids, now, k);
    assert Settled(SyncOffers(config.groups, offers, namespace, ids, now), offers[k], namespace);
  }

  /** A group with a version in the future keeps it as the last one, so each
      synchronisation adds its rules once more. */
  lemma FutureVersionIsReapplied(entry: Id, planned: Rules, rules: Rules)
    requires planned != rules
    ensures var group := Group(false, 1, ManagedName("vip", "host"), [Version(100, planned)]);
      var once := Sync(Config([group], []), entry, "host", [Offer("vip", rules)], [2], [], 10);
      Sync(Saved(once), entry, "host", [Offer("vip", rules)], [3], [], 20) != Saved(once)
  {
    var group, offer := Group(false, 1, ManagedName("vip", "host"), [Version(100, planned)]), Offer("vip", rules);
    var config := Config([group], []);
    assert forall i :: 0 <= i < |config.groups| ==> config.groups[i] == group;
    assert OfferedGroup(config.groups, offer, "host", 2) == group by {
      assert IndexByName(config.groups, ManagedName("vip", "host")) == Some(0);
    }
    assert !Lasting(group, rules, 10) by {
      assert group.versions[0].effectiveFrom == 100;
    }
    SyncSettles(config.groups, [offer], "host", [2], 10);
    var once := Sync(config, entry, "host", [offer], [2], [], 10);
    forall i | 0 <= i < |once.groups|
      ensures once.groups[i].id != 3
    {
      assert HasId(config.groups, once.groups[i].id) || once.groups[i].id in [2];
    }
    SyncAgainExactly(config, entry, "host", [offer], [2], [], 10, [3], 20);
    OneNotLasting(config.groups, [offer], "host", [2], 10, 0);
  }

  lemma OneNotLasting(groups: seq<Group>, offers: seq<Offer>, namespace: string, ids: seq<Id>, now: int, k: nat)
    requires k < |offers| == |ids| && !Lasting(OfferedGroup(groups, offers[k], namespace, ids[k]), offers[k].rules, now)
    ensures !AllLasting(groups, offers, namespace, ids, now)
  {
  }

  // ---- Gateways that only publish a multiplier ------------------------------

  function SubApiName(namespace: string): string {
    "SubAPI / " + namespace
  }

  predicate InSubApiGroup(groups: seq<Group>, namespace: string, a: Assignment) {
    && a.group.Some?
    && var at := IndexById(groups, a.group.value);
       at.Some? && groups[at.value].name == SubApiName(namespace)
  }

  predicate Pinned(assignments: seq<Assignment>, entry: Id, secret: string) {
    exists i :: 0 <= i < |assignments| && IsFor(assignments[i], entry, secret) && assignments[i].manual
  }

  function Remultiply(groups: seq<Group>, namespace: string, a: Assignment, id: Id, multiplier: real): Assignment {
    if InSubApiGroup(groups, namespace, a) || Unset(a) then a.(group := Some(id), multiplier := multiplier) else a
  }

  function SyncSubApi(config: Config, entry: Id, secret: string, namespace: string, id: Id, multiplier: real): Config {
    if Pinned(config.assignments, entry, secret) then config
    else
      var groups := EnsureGroup(config.groups, SubApiName(namespace), id);
      EnsuredIsFound(config.groups, SubApiName(namespace), id);
      var gid := groups[IndexByName(groups, SubApiName(namespace)).value].id;
      var at := IndexOf(config.assignments, entry, secret);
      Config(groups,
        if at.None? then config.assignments + [Assignment(entry, secret, Some(gid), multiplier, false)]
        else
          var i := at.value;
          config.assignments[i := Remultiply(groups, namespace, config.assignments[i], gid, multiplier)])
  }

  /** Prices are left alone, a pinned or foreign assignment is left alone, and the
      same answer again changes nothing. */
  lemma SubApiTwice(config: Config, entry: Id, secret: string, namespace: string, id: Id, multiplier: real, laterId: Id)
    ensures var once := SyncSubApi(config, entry, secret, namespace, id, multiplier);
      && SyncSubApi(once, entry, secret, namespace, laterId, multiplier) == once
      && |config.groups| <= |once.groups| && once.groups[..|config.groups|] == config.groups
      && (forall i :: |config.groups| <= i < |once.groups| ==> once.groups[i].versions == [])
      && |config.assignments| <= |once.assignments|
      && (forall i :: 0 <= i < |config.assignments| && once.assignments[i] != config.assignments[i] ==>
        && IsFor(config.assignments[i], entry, secret) && !config.assignments[i].manual
        && (InSubApiGroup(once.groups, namespace, config.assignments[i]) || Unset(config.assignments[i])))
  {
    var once := SyncSubApi(config, entry, secret, namespace, id, multiplier);
    if !Pinned(config.assignments, entry, secret) {
      EnsuredIsFound(config.groups, SubApiName(namespace), id);
      SubApiSettles(config, entry, secret, namespace, id, multiplier);
      var at := IndexOf(once.assignments, entry, secret).value;
      assert once.assignments[at := once.assignments[at]] == once.assignments;
    }
  }

  lemma SubApiSettles(config: Config, entry: Id, secret: string, namespace: string, id: Id, multiplier: real)
    requires !Pinned(config.assignments, entry, secret)
    ensures var once := SyncSubApi(config, entry, secret, namespace, id, multiplier);
      && !Pinned(once.assignments, entry, secret)
      && IndexByName(once.groups, SubApiName(namespace)).Some?
      && IndexOf(once.assignments, entry, secret).Some?
      && var gid := once.groups[IndexByName(once.groups, SubApiName(namespace)).value].id;
         var a := once.assignments[IndexOf(once.assignments, entry, secret).value];
         Remultiply(once.groups, namespace, a, gid, multiplier) == a
  {
    var once := SyncSubApi(config, entry, secret, namespace, id, multiplier);
    EnsuredIsFound(config.groups, SubApiName(namespace), id);
    var at := IndexOf(config.assignments, entry, secret);
    SameKeysSameIndex(config.assignments, once.assignments, entry, secret);
    if at.None? {
      AppendedIndex(config.assignments, once.assignments[|config.assignments|], entry, secret);
    }
    forall i | 0 <= i < |once.assignments| && IsFor(once.assignments[i], entry, secret)
      ensures !once.assignments[i].manual
    {
      assert i < |config.assignments| ==> IsFor(config.assignments[i], entry, secret);
    }
  }
}
