/** The list of groups, which keeps the node of a group whose guid a later one took, and the owner counts
    that go with its nodes. */
module GroupLists {
  import opened Bytes
  import opened Groups
  import opened GroupRuns
  import opened Users
  import opened Servers
  import opened ServerRuns
  import opened Membership
  import opened Ownership

  /** A node of the list: the guid and the leader of its group. */
  datatype Founding = Founding(id: guid, leader: guid)

  /** `groups.erase(itor)`: the map's iterator points to the last node with the guid. */
  function Erased(list: seq<Founding>, g: guid): seq<Founding> {
    if list == [] then []
    else
      var front, last := list[..|list| - 1], list[|list| - 1];
      if last.id == g then front else Erased(front, g) + [last]
  }

  predicate Removes(s: Server, g: guid, o: guid) {
    g in s.groups && o == s.groups[g].leader && o in s.users
  }

  /** The list after a request. */
  function ListAfter(s: Server, e: Event, list: seq<Founding>): seq<Founding> {
    match e
    case EGroupAdd(info, _, _) => if Creates(s, info) then list + [Founding(info.id, info.leader)] else list
    case EGroupDelete(g, o, _) => if Removes(s, g, o) then Erased(list, g) else list
    case _ => list
  }

  /** Who leads the nodes of the list; the public room does not count. */
  function Leaders(list: seq<Founding>): multiset<guid> {
    if list == [] then multiset{}
    else
      var last := list[|list| - 1];
      Leaders(list[..|list| - 1]) + if last.id == ROOM then multiset{} else multiset{last.leader}
  }

  /** The last node with guid `g` is there and led by `u`. */
  predicate LastLed(list: seq<Founding>, g: guid, u: guid) {
    list != [] &&
    var last := list[|list| - 1];
    if last.id == g then last.leader == u else LastLed(list[..|list| - 1], g, u)
  }

  /** The map's groups are the last nodes with their guids. */
  ghost predicate Filed(groups: map<guid, Group>, list: seq<Founding>) {
    forall g <- groups :: g != ROOM ==> LastLed(list, g, groups[g].leader)
  }

  /** `owner_groups` is the number of nodes the user leads, and never exceeds its maximum. */
  ghost predicate Owning(users: map<guid, User>, list: seq<Founding>) {
    forall u <- users :: users[u].owned == Leaders(list)[u] <= OWN_GROUP_MAX
  }

  predicate RightNodes(w: User, u: guid, list: seq<Founding>) { w.owned == Leaders(list)[u] <= OWN_GROUP_MAX }

  /** The counts on the wire are right, and the public room is neither founded anew nor deleted by a
      leader who owns a group. */
  ghost predicate ListSafe(s: Server, e: Event, list: seq<Founding>)
    requires Defined(s, e)
  {
    match e
    case EAcountAdd(w, _, _) => PhoneUnique(s, w.phone) == ERROR_OK ==> RightNodes(w, Registrant(s, w).id, list)
    case EAcountModify(w, _) => Registrant(s, w).id == Inc32(s.lastUser) || RightNodes(w, w.id, list)
    case EGroupAdd(info, _, _) => Creates(s, info) ==> info.id != ROOM
    case EGroupDelete(g, o, _) => g == ROOM && Removes(s, g, o) ==> s.users[o].owned == 0
    case _ => true
  }

  // ---------------------------------------------------------------- lists

  lemma LeadersAppend(list: seq<Founding>, x: Founding)
    ensures Leaders(list + [x]) == Leaders(list) + if x.id == ROOM then multiset{} else multiset{x.leader}
    ensures forall g, u :: LastLed(list + [x], g, u) <==> if x.id == g then x.leader == u else LastLed(list, g, u)
  {
    assert (list + [x])[..|list|] == list;
  }

  lemma {:induction false} LeadersErased(list: seq<Founding>, g: guid, o: guid)
    ensures g == ROOM ==> Leaders(Erased(list, g)) == Leaders(list)
    ensures g != ROOM && LastLed(list, g, o) ==> Leaders(list) == Leaders(Erased(list, g)) + multiset{o}
    ensures forall h, u :: h != g && LastLed(list, h, u) ==> LastLed(Erased(list, g), h, u)
  {
    if list != [] {
      var front, last := list[..|list| - 1], list[|list| - 1];
      LeadersErased(front, g, o);
      LeadersAppend(Erased(front, g), last);
    }
  }

  lemma FiledKept(groups: map<guid, Group>, groups': map<guid, Group>, list: seq<Founding>)
    requires Filed(groups, list)
    requires forall g <- groups' :: g != ROOM ==> g in groups && groups'[g].leader == groups[g].leader
    ensures Filed(groups', list)
  {
  }

  lemma OwningKept(users: map<guid, User>, users': map<guid, User>, list: seq<Founding>)
    requires Owning(users, list) && SameOwned(users, users')
    ensures Owning(users', list)
  {
  }

  lemma OwningInstalled(users: map<guid, User>, u: User, list: seq<Founding>)
    requires Owning(users, list)
    ensures Owning(users[u.id := u], list) <==> RightNodes(u, u.id, list)
  {
    assert u.id in users[u.id := u];
  }

  lemma Founds(users: map<guid, User>, users': map<guid, User>, list: seq<Founding>, x: Founding)
    requires Owning(users, list) && x.leader in users && users[x.leader].owned < OWN_GROUP_MAX
    requires forall u :: u in users' <==> u in users
    requires forall u <- users :: users'[u].owned == users[u].owned + if u == x.leader then 1 else 0
    ensures Owning(users', list + [x]) <==> x.id != ROOM
  {
    LeadersAppend(list, x);
    hide Leaders;
    if x.id == ROOM {
      assert users'[x.leader].owned != Leaders(list + [x])[x.leader];
    }
  }

  lemma FiledFounded(groups: map<guid, Group>, list: seq<Founding>, id: guid, x: Group)
    requires Filed(groups, list)
    ensures Filed(groups[id := x], list + [Founding(id, x.leader)])
  {
    LeadersAppend(list, Founding(id, x.leader));
    hide LastLed;
  }

  lemma Disbands(users: map<guid, User>, users': map<guid, User>, list: seq<Founding>, g: guid, o: guid)
    requires Owning(users, list) && o in users && users'.Keys == users.Keys
    requires g != ROOM ==> LastLed(list, g, o)
    requires forall u <- users ::
      users'[u].owned == if u == o && users[u].owned != 0 then (users[u].owned - 1) % 256 else users[u].owned
    ensures Owning(users', Erased(list, g)) <==> (g == ROOM ==> users[o].owned == 0)
  {
    LeadersErased(list, g, o);
    hide Leaders, LastLed, Erased;
    if g == ROOM && users[o].owned != 0 {
      assert users'[o].owned != Leaders(Erased(list, g))[o];
    }
  }

  lemma FiledErased(groups: map<guid, Group>, list: seq<Founding>, g: guid)
    requires Filed(groups, list)
    ensures Filed(groups - {g}, Erased(list, g))
  {
    LeadersErased(list, g, 0);
    hide LastLed, Erased;
  }

  // ---------------------------------------------------------------- steps

  ghost predicate Listed(s: Server, list: seq<Founding>) { Filed(s.groups, list) && Owning(s.users, list) }

  lemma ListAfterAdd(s: Server, w: User, now: int, fd: int, list: seq<Founding>)
    requires Defined(s, EAcountAdd(w, now, fd)) && Listed(s, list)
    ensures Filed(AcountAdd(s, w, now, fd).groups, list)
    ensures Owning(AcountAdd(s, w, now, fd).users, list) <==> ListSafe(s, EAcountAdd(w, now, fd), list)
  {
    hide Out, Broadcast, AddMember, Linked, LogCounted, Owning, Filed, Inc32;
    FiledKept(s.groups, AcountAdd(s, w, now, fd).groups, list);
    if PhoneUnique(s, w.phone) == ERROR_OK {
      OwningInstalled(s.users, Registrant(s, w).(regTime := now, online := STATUS_ON_LINE), list);
    }
  }

  lemma ListAfterModify(s: Server, w: User, fd: int, list: seq<Founding>)
    requires Defined(s, EAcountModify(w, fd)) && Listed(s, list)
    ensures Owning(AcountModify(s, w, fd).users, list) <==> ListSafe(s, EAcountModify(w, fd), list)
  {
    hide Ack, GroupSane, Owning;
    if Registrant(s, w).id != Inc32(s.lastUser) {
      OwningInstalled(s.users, w, list);
    }
  }

  lemma ListAfterDelete(s: Server, u: guid, fd: int, list: seq<Founding>)
    requires Defined(s, EAcountDelete(u, fd)) && Listed(s, list)
    ensures Listed(AcountDelete(s, u, fd), list)
  {
    OwnedAfterDelete(s, u, fd);
    DeletedGroups(s, u, fd);
    hide AcountDelete, ExpelFromRoom, Expel, Linked, LogCounted, Owning, Filed, UsersSane;
    var s0 := s.(connUser := Bracket(s.connUser, fd));
    if u in s.users {
      ExpelLeaders(s0, u);
    }
    FiledKept(s.groups, AcountDelete(s, u, fd).groups, list);
    OwningKept(s.users, AcountDelete(s, u, fd).users, list);
  }

  lemma ListAfterCreate(s: Server, info: Group, now: int, fd: int, list: seq<Founding>)
    requires Defined(s, EGroupAdd(info, now, fd)) && Listed(s, list)
    ensures var e, s' := EGroupAdd(info, now, fd), GroupAdd(s, info, now, fd);
      Filed(s'.groups, ListAfter(s, e, list)) && (Owning(s'.users, ListAfter(s, e, list)) <==> ListSafe(s, e, list))
  {
    assert Sane(s) && GroupSane(info);
    if Creates(s, info) {
      LeaderOwns(s, info.leader, list);
      OwnedAfterCreate(s, info, now, fd);
      hide Enroll, GroupAdd, GroupSane, GroupsSane, UsersSane, Owning, Filed;
      Founds(s.users, GroupAdd(s, info, now, fd).users, list, Founding(info.id, info.leader));
      FiledFounded(s.groups, list, info.id, Enroll(info, s.users, |Visited(info, s.users.Keys)|));
    } else {
      hide Ack, GroupSane, GroupsSane;
    }
  }

  lemma LeaderOwns(s: Server, u: guid, list: seq<Founding>)
    requires Listed(s, list) && u in s.users
    ensures 0 <= s.users[u].owned
  {
  }

  lemma ListAfterErase(s: Server, g: guid, o: guid, fd: int, list: seq<Founding>)
    requires Defined(s, EGroupDelete(g, o, fd)) && Listed(s, list)
    ensures var e, s' := EGroupDelete(g, o, fd), GroupDelete(s, g, o, fd);
      Filed(s'.groups, ListAfter(s, e, list)) && (Owning(s'.users, ListAfter(s, e, list)) <==> ListSafe(s, e, list))
  {
    if Removes(s, g, o) {
      OwnedAfterErase(s, g, o, fd);
      assert g != ROOM ==> LastLed(list, g, o);
      hide GroupDelete, GroupsSane, UsersSane, Owning, Filed, LastLed, Erased;
      Disbands(s.users, GroupDelete(s, g, o, fd).users, list, g, o);
      FiledErased(s.groups, list, g);
    } else {
      hide GroupDelete, GroupsSane, UsersSane, Owning, Filed, Erased;
      NothingErased(s, g, o, fd);
    }
  }

  lemma NothingErased(s: Server, g: guid, o: guid, fd: int)
    requires !Removes(s, g, o)
    ensures GroupDelete(s, g, o, fd).groups == s.groups && GroupDelete(s, g, o, fd).users == s.users
  {
    hide Ack, Visited;
  }

  lemma OwnedAfterErase(s: Server, g: guid, o: guid, fd: int)
    requires Removes(s, g, o)
    ensures var s' := GroupDelete(s, g, o, fd);
      s'.groups == s.groups - {g} && s'.users.Keys == s.users.Keys
      && forall u <- s.users ::
        s'.users[u].owned == if u == o && s.users[u].owned != 0 then (s.users[u].owned - 1) % 256 else s.users[u].owned
  {
    hide Ack, Visited;
    assert forall u: User, h: guid :: Leave(u, h).owned == u.owned;
  }

  lemma ListAfterOther(s: Server, e: Event, list: seq<Founding>)
    requires Defined(s, e) && Listed(s, list)
    requires !e.EAcountAdd? && !e.EAcountModify? && !e.EAcountDelete? && !e.EGroupAdd? && !e.EGroupDelete?
    ensures Listed(Handle(s, e), list)
  {
    hide GroupModify, Dispatch, Ack, Out, Linked, LogCounted, Owning, Filed, GroupsSane, UsersSane;
    hide MsgSend, MsgListReq, GroupInfoReq, BriefInfoReq, Bracket, Unbind;
    match e {
      case EGroupModify(g, o, t, k, p, now, fd) => LeadersAfterGroupModify(s, g, o, t, k, p, now, fd);
      case EDispatch(now) => LeadersAfterDispatch(s, now);
      case _ =>
    }
    assert SameOwned(s.users, Handle(s, e).users);
    OwningKept(s.users, Handle(s, e).users, list);
    FiledKept(s.groups, Handle(s, e).groups, list);
  }

  /** Exactly when a step keeps every owner count the number of the nodes in the list that the user leads,
      and within the maximum; whatever the step, the map's groups stay the last nodes of their guids. */
  lemma ListStep(s: Server, e: Event, list: seq<Founding>)
    requires Defined(s, e) && Listed(s, list)
    ensures Filed(Handle(s, e).groups, ListAfter(s, e, list))
    ensures Owning(Handle(s, e).users, ListAfter(s, e, list)) <==> ListSafe(s, e, list)
  {
    hide AcountAdd, AcountModify, AcountDelete, AcountLogin, AcountLogout, Close, GroupAdd, GroupModify, GroupDelete;
    hide MsgSend, MsgListReq, GroupInfoReq, BriefInfoReq, Dispatch, Ack, Linked, LogCounted, Owning, Filed;
    match e
    case EAcountAdd(w, now, fd) => ListAfterAdd(s, w, now, fd, list);
    case EAcountModify(w, fd) => ListAfterModify(s, w, fd, list);
    case EAcountDelete(u, fd) => ListAfterDelete(s, u, fd, list);
    case EGroupAdd(info, now, fd) => ListAfterCreate(s, info, now, fd, list);
    case EGroupDelete(g, o, fd) => ListAfterErase(s, g, o, fd, list);
    case _ => ListAfterOther(s, e, list);
  }

  /** The list after the first `n` steps of a run. */
  function ListAt(list: seq<Founding>, ss: seq<Server>, es: seq<Event>, n: nat): seq<Founding>
    requires n <= |es| && n <= |ss|
  {
    if n == 0 then list else ListAfter(ss[n - 1], es[n - 1], ListAt(list, ss, es, n - 1))
  }

  lemma {:induction false} ListRun(ss: seq<Server>, es: seq<Event>, list: seq<Founding>, n: nat)
    requires IsRun(ss, es) && n <= |es| && Listed(ss[0], list)
    requires forall i :: 0 <= i < n ==> ListSafe(ss[i], es[i], ListAt(list, ss, es, i))
    ensures Listed(ss[n], ListAt(list, ss, es, n))
  {
    hide Handle, Defined, Filed, Owning, ListSafe, ListAfter;
    if n > 0 {
      ListRun(ss, es, list, n - 1);
      var i := n - 1;
      assert Defined(ss[i], es[i]) && ss[i + 1] == Handle(ss[i], es[i]);
      ListStep(ss[i], es[i], ListAt(list, ss, es, i));
    }
  }

  /** The constructor's list holds the public room only. */
  lemma InitialListed(lastUser: guid, hash: Hasher)
    ensures Listed(Initial(lastUser, hash), [Founding(ROOM, 0)])
  {
  }

  /** Conservation, from the initial state and whatever guids groups are created under: every owner count
      is the number of nodes in the list of groups that the user leads, and at most 50. */
  lemma ListConservation(ss: seq<Server>, es: seq<Event>, lastUser: guid, hash: Hasher, n: nat)
    requires IsRun(ss, es) && n <= |es| && ss[0] == Initial(lastUser, hash)
    requires var list := [Founding(ROOM, 0)];
      forall i :: 0 <= i < n ==> ListSafe(ss[i], es[i], ListAt(list, ss, es, i))
    ensures Owning(ss[n].users, ListAt([Founding(ROOM, 0)], ss, es, n))
  {
    hide Handle, Defined, Filed, Owning, ListSafe, Initial;
    InitialListed(lastUser, hash);
    ListRun(ss, es, [Founding(ROOM, 0)], n);
  }
}
