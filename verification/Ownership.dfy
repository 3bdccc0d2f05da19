/** Guid allocation, and the count of groups each user leads. */
module Ownership {
  import opened Bytes
  import opened Packets
  import opened Groups
  import opened GroupRuns
  import opened Users
  import opened Servers
  import opened ServerRuns

  // ---------------------------------------------------------------- allocation

  /** Every registered guid is positive and at most the last one allocated. */
  ghost predicate Bounded(users: map<guid, User>, lastUser: guid) {
    0 <= lastUser < U32_LIMIT && forall u <- users :: 0 < u <= lastUser
  }

  ghost predicate Allocated(s: Server) { Bounded(s.users, s.lastUser) }

  /** A registration must not run past the counter: neither the counter nor the guid it brings. */
  ghost predicate AllocSafe(s: Server, e: Event)
    requires Defined(s, e)
  {
    match e
    case EAcountAdd(w, _, _) =>
      PhoneUnique(s, w.phone) == ERROR_OK ==> s.lastUser + 1 < U32_LIMIT && 0 < Registrant(s, w).id <= s.lastUser + 1
    case _ => true
  }

  lemma InstallBounded(users: map<guid, User>, lastUser: guid, u: User)
    requires Bounded(users, lastUser)
    ensures Bounded(users[u.id := u], Inc32(lastUser)) <==> lastUser + 1 < U32_LIMIT && 0 < u.id <= lastUser + 1
  {
    assert u.id in users[u.id := u];
  }

  /** The handlers other than registration and account deletion keep the set of registered guids. */
  lemma SameUsers(s: Server, e: Event)
    requires Defined(s, e) && !e.EAcountAdd? && !e.EAcountDelete?
    ensures Handle(s, e).users.Keys == s.users.Keys && Handle(s, e).lastUser == s.lastUser
  {
    hide Ack, Out, Linked, LogCounted, Visited, Enroll, Dispatch, GroupAdd, GroupModify, GroupDelete;
    hide AcountLogin, AcountLogout, Close, MsgSend, MsgListReq, LoginError, GroupsSane;
    match e
    case ELogin(p, pw, now, fd) => SameUsersLogin(s, p, pw, now, fd);
    case ELogout(u, now, fd) => SameUsersLogout(s, u, now, fd);
    case EClose(fd) => SameUsersLogout(s, 0, 0, fd);
    case EGroupAdd(info, now, fd) => SameUsersGroupAdd(s, info, now, fd);
    case EGroupModify(g, o, t, k, p, now, fd) => SameUsersModify(s, g, o, t, k, p, now, fd);
    case EGroupDelete(g, o, fd) => SameUsersGroupDelete(s, g, o, fd);
    case EDispatch(now) => SameUsersDispatch(s, now);
    case _ =>
  }

  lemma SameUsersLogin(s: Server, p: seq<byte>, pw: seq<byte>, now: int, fd: int)
    ensures AcountLogin(s, p, pw, now, fd).users.Keys == s.users.Keys
  {
    hide Out;
  }

  lemma SameUsersLogout(s: Server, u: guid, now: int, fd: int)
    ensures AcountLogout(s, u, now, fd).users.Keys == s.users.Keys && Close(s, fd).users.Keys == s.users.Keys
  {
    hide Ack;
  }

  lemma SameUsersGroupAdd(s: Server, info: Group, now: int, fd: int)
    requires Defined(s, EGroupAdd(info, now, fd))
    ensures GroupAdd(s, info, now, fd).users.Keys == s.users.Keys
  {
    hide Ack, Visited, Enroll, GroupSane;
  }

  lemma SameUsersGroupDelete(s: Server, g: guid, o: guid, fd: int)
    ensures GroupDelete(s, g, o, fd).users.Keys == s.users.Keys
  {
    hide Ack, Visited;
  }

  lemma SameUsersModify(s: Server, g: guid, o: guid, t: guid, k: u8, p: u8, now: int, fd: int)
    requires Defined(s, EGroupModify(g, o, t, k, p, now, fd))
    ensures GroupModify(s, g, o, t, k, p, now, fd).users.Keys == s.users.Keys
  {
    hide Ack, Broadcast, AddMember, DeleteMember, ChangeRole, Linked, LogCounted;
  }

  lemma SameUsersDispatch(s: Server, now: int)
    requires Defined(s, EDispatch(now))
    ensures Dispatch(s, now).users.Keys == s.users.Keys
  {
    hide Ack, FanoutGroup, FanoutSends, Visited, Fits, Linked, LogCounted;
  }

  /** Exactly when a step keeps every registered guid within the counter. */
  lemma AllocStep(s: Server, e: Event)
    requires Defined(s, e) && Allocated(s)
    ensures Allocated(Handle(s, e)) <==> AllocSafe(s, e)
    ensures AllocSafe(s, e) ==> s.lastUser <= Handle(s, e).lastUser
  {
    hide AcountAdd, AcountModify, AcountDelete, AcountLogin, AcountLogout, Close, GroupAdd, GroupModify, GroupDelete;
    hide MsgSend, MsgListReq, Dispatch, Ack, Linked, LogCounted;
    match e
    case EAcountAdd(w, now, fd) => AllocAfterAdd(s, w, now, fd);
    case EAcountDelete(u, fd) => AllocAfterDelete(s, u, fd);
    case _ => SameUsers(s, e);
  }

  lemma AllocAfterAdd(s: Server, w: User, now: int, fd: int)
    requires Defined(s, EAcountAdd(w, now, fd)) && Allocated(s)
    ensures var s' := AcountAdd(s, w, now, fd);
      (Allocated(s') <==> AllocSafe(s, EAcountAdd(w, now, fd)))
      && (AllocSafe(s, EAcountAdd(w, now, fd)) ==> s.lastUser <= s'.lastUser)
  {
    hide Out, Broadcast, AddMember, Linked, LogCounted, Bounded, GroupsSane, UsersSane;
    if PhoneUnique(s, w.phone) == ERROR_OK {
      InstallBounded(s.users, s.lastUser, Registrant(s, w).(regTime := now, online := STATUS_ON_LINE));
    }
  }

  lemma AllocAfterDelete(s: Server, u: guid, fd: int)
    requires Defined(s, EAcountDelete(u, fd))
    ensures var s' := AcountDelete(s, u, fd);
      s'.lastUser == s.lastUser && s'.users.Keys <= s.users.Keys
      && (u == Bracket(s.connUser, fd)[fd] ==> s'.users == s.users - {u})
  {
    hide Ack, Broadcast, ExpelFromRoom, Linked, LogCounted, ExpelAll;
    UnregisterSane(s.(connUser := Bracket(s.connUser, fd)), u);
  }

  lemma AllocRun(ss: seq<Server>, es: seq<Event>, n: nat)
    requires IsRun(ss, es) && n <= |es| && Allocated(ss[0])
    requires forall i :: 0 <= i < n ==> AllocSafe(ss[i], es[i])
    ensures Allocated(ss[n])
  {
    forall s, e | Allocated(s) && Defined(s, e) && AllocSafe(s, e)
      ensures Allocated(Handle(s, e))
    {
      AllocStep(s, e);
    }
    RunKeeps(ss, es, s => Allocated(s), (s, e) => Defined(s, e) && AllocSafe(s, e), n);
  }

  lemma {:induction false} CounterGrows(ss: seq<Server>, es: seq<Event>, i: nat, j: nat)
    requires IsRun(ss, es) && i <= j <= |es| && Allocated(ss[0])
    requires forall k :: 0 <= k < |es| ==> AllocSafe(ss[k], es[k])
    ensures ss[i].lastUser <= ss[j].lastUser
    decreases j
  {
    hide Handle, Defined, AllocSafe;
    if i < j {
      CounterGrows(ss, es, i, j - 1);
      AllocRun(ss, es, j - 1);
      AllocStep(ss[j - 1], es[j - 1]);
    }
  }

  /** Guids are never reused: a registration that is given the next guid gets one larger than every guid
      registered at any earlier point of the run, deleted accounts included. */
  lemma FreshGuid(ss: seq<Server>, es: seq<Event>, i: nat, j: nat)
    requires IsRun(ss, es) && i <= j < |es| && Allocated(ss[0])
    requires forall k :: 0 <= k < |es| ==> AllocSafe(ss[k], es[k])
    requires es[j].EAcountAdd? && PhoneUnique(ss[j], es[j].wire.phone) == ERROR_OK
    requires Registrant(ss[j], es[j].wire).id == Inc32(ss[j].lastUser)
    ensures Registrant(ss[j], es[j].wire).id in ss[j + 1].users
    ensures forall u <- ss[i].users :: u < Registrant(ss[j], es[j].wire).id
  {
    AllocRun(ss, es, i);
    AllocRun(ss, es, j);
    CounterGrows(ss, es, i, j);
    assert AllocSafe(ss[j], es[j]);
    RegistrantAdded(ss[j], es[j]);
    hide Handle, Defined;
  }

  lemma RegistrantAdded(s: Server, e: Event)
    requires Defined(s, e) && e.EAcountAdd? && PhoneUnique(s, e.wire.phone) == ERROR_OK
    requires Registrant(s, e.wire).id == Inc32(s.lastUser)
    requires Allocated(s) && AllocSafe(s, e)
    ensures Registrant(s, e.wire).id in Handle(s, e).users && Registrant(s, e.wire).id == s.lastUser + 1
  {
    hide Out, Broadcast, AddMember, Linked, LogCounted;
  }

  // ---------------------------------------------------------------- ownership

  /** The groups a user leads; the public room does not count. */
  function Led(groups: map<guid, Group>, u: guid): set<guid> {
    set g | g in groups && g != ROOM && groups[g].leader == u
  }

  /** `owner_groups` counts the groups of the map that the user leads, and never exceeds its maximum. The
      nodes that the list keeps for groups whose guid was taken are not counted. */
  ghost predicate Counts(users: map<guid, User>, groups: map<guid, Group>) {
    forall u <- users :: users[u].owned == |Led(groups, u)| <= OWN_GROUP_MAX
  }

  ghost predicate Owners(s: Server) { Counts(s.users, s.groups) }

  /** The wire's owner count is right for the guid it is installed under. */
  predicate RightCount(s: Server, w: User, u: guid) {
    w.owned == |Led(s.groups, u)| <= OWN_GROUP_MAX
  }

  ghost predicate OwnerSafe(s: Server, e: Event)
    requires Defined(s, e)
  {
    match e
    case EAcountAdd(w, _, _) => PhoneUnique(s, w.phone) == ERROR_OK ==> RightCount(s, w, Registrant(s, w).id)
    case EAcountModify(w, _) => Registrant(s, w).id == Inc32(s.lastUser) || RightCount(s, w, w.id)
    case EGroupAdd(info, _, _) =>
      info.leader in s.users && s.users[info.leader].owned < OWN_GROUP_MAX ==>
        info.id != ROOM && (info.id in s.groups ==> s.groups[info.id].leader !in s.users)
    case EGroupDelete(g, o, _) =>
      g == ROOM && g in s.groups && o == s.groups[g].leader && o in s.users ==> s.users[o].owned == 0
    case _ => true
  }

  lemma SameLed(groups: map<guid, Group>, groups': map<guid, Group>)
    requires forall g :: g != ROOM ==> (g in groups' <==> g in groups)
    requires forall g <- groups :: g != ROOM ==> groups'[g].leader == groups[g].leader
    ensures forall u :: Led(groups', u) == Led(groups, u)
  {
    forall u
      ensures Led(groups', u) == Led(groups, u)
    {
      assert forall g :: g in Led(groups', u) <==> g in Led(groups, u);
    }
  }

  ghost predicate SameOwned(users: map<guid, User>, users': map<guid, User>) {
    forall u <- users' :: u in users && users'[u].owned == users[u].owned
  }

  lemma SameCounts(users: map<guid, User>, groups: map<guid, Group>, users': map<guid, User>, groups': map<guid, Group>)
    requires Counts(users, groups) && SameOwned(users, users')
    requires forall g :: g != ROOM ==> (g in groups' <==> g in groups)
    requires forall g <- groups :: g != ROOM ==> groups'[g].leader == groups[g].leader
    ensures Counts(users', groups')
  {
    SameLed(groups, groups');
  }

  lemma InstallCounts(users: map<guid, User>, groups: map<guid, Group>, u: User)
    requires Counts(users, groups)
    ensures Counts(users[u.id := u], groups) <==> u.owned == |Led(groups, u.id)| <= OWN_GROUP_MAX
  {
    assert u.id in users[u.id := u];
  }

  /** Creating a group led by `x.leader`, whose count goes up. */
  lemma CreateCounts(users: map<guid, User>, groups: map<guid, Group>, users': map<guid, User>, x: Group)
    requires Counts(users, groups) && x.leader in users && users[x.leader].owned < OWN_GROUP_MAX
    requires forall u :: u in users' <==> u in users
    requires forall u <- users :: users'[u].owned == users[u].owned + if u == x.leader then 1 else 0
    ensures Counts(users', groups[x.id := x]) <==> x.id != ROOM && (x.id in groups ==> groups[x.id].leader !in users)
  {
    var groups' := groups[x.id := x];
    LedAfterPut(groups, x);
    hide Led;
    if x.id == ROOM {
      assert users'[x.leader].owned != |Led(groups', x.leader)|;
    } else if x.id in groups && groups[x.id].leader in users {
      var v := groups[x.id].leader;
      assert users'[v].owned != |Led(groups', v)|;
    } else {
      forall u <- users
        ensures users'[u].owned == |Led(groups', u)|
      {
        assert x.id !in Led(groups, u);
        assert u != x.leader ==> Led(groups', u) == Led(groups, u);
      }
    }
  }

  lemma LedAfterPut(groups: map<guid, Group>, x: Group)
    ensures forall u :: Led(groups[x.id := x], u) == (if x.id == ROOM then Led(groups, u)
                                                      else if u == x.leader then Led(groups, u) + {x.id}
                                                      else Led(groups, u) - {x.id})
    ensures forall u :: x.id in Led(groups, u) <==> x.id != ROOM && x.id in groups && groups[x.id].leader == u
  {
  }

  /** Deleting a group led by `o`, whose count goes down unless it is 0. */
  lemma DeleteCounts(users: map<guid, User>, groups: map<guid, Group>, users': map<guid, User>, g: guid, o: guid)
    requires Counts(users, groups) && g in groups && groups[g].leader == o && o in users
    requires forall u :: u in users' <==> u in users
    requires forall u <- users ::
      users'[u].owned == if u == o && users[u].owned != 0 then users[u].owned - 1 else users[u].owned
    ensures Counts(users', groups - {g}) <==> (g == ROOM ==> users[o].owned == 0)
  {
    var groups' := groups - {g};
    forall u
      ensures g == ROOM || u != o ==> Led(groups', u) == Led(groups, u)
      ensures g != ROOM && u == o ==> Led(groups', u) == Led(groups, u) - {g}
    {
    }
    if g == ROOM {
      if users[o].owned != 0 {
        assert users'[o].owned != |Led(groups', o)|;
      }
    } else {
      assert g in Led(groups, o);
    }
  }

  // ---------------------------------------------------------------- handlers

  lemma OwnersAfterAdd(s: Server, w: User, now: int, fd: int)
    requires Defined(s, EAcountAdd(w, now, fd)) && Owners(s)
    ensures Owners(AcountAdd(s, w, now, fd)) <==> OwnerSafe(s, EAcountAdd(w, now, fd))
  {
    hide Out, Broadcast, AddMember, Linked, LogCounted, Counts;
    if PhoneUnique(s, w.phone) == ERROR_OK {
      var u := Registrant(s, w).(regTime := now, online := STATUS_ON_LINE);
      InstallCounts(s.users, s.groups, u);
      var s' := AcountAdd(s, w, now, fd);
      RoomCounts(s'.users, s.groups, s'.groups[ROOM]);
      assert s'.groups == s.groups[ROOM := s'.groups[ROOM]];
    }
  }

  lemma RoomCounts(users: map<guid, User>, groups: map<guid, Group>, room: Group)
    ensures Counts(users, groups[ROOM := room]) <==> Counts(users, groups)
  {
    forall u
      ensures Led(groups[ROOM := room], u) == Led(groups, u)
    {
    }
  }

  lemma OwnersAfterModify(s: Server, w: User, fd: int)
    requires Defined(s, EAcountModify(w, fd)) && Owners(s)
    ensures Owners(AcountModify(s, w, fd)) <==> OwnerSafe(s, EAcountModify(w, fd))
  {
    hide Ack, GroupSane, Counts;
    if Registrant(s, w).id != Inc32(s.lastUser) {
      InstallCounts(s.users, s.groups, w);
    }
  }

  lemma OwnersAfterDelete(s: Server, u: guid, fd: int)
    requires Defined(s, EAcountDelete(u, fd)) && Owners(s)
    ensures Owners(AcountDelete(s, u, fd))
  {
    hide Ack, Broadcast, ExpelFromRoom, Linked, LogCounted, ExpelAll, Counts;
    var s0 := s.(connUser := Bracket(s.connUser, fd));
    UnregisterSane(s0, u);
    if u == s0.connUser[fd] {
      var s1 := Unregister(s0, u);
      if u in s.users {
        ExpelLeaders(s0, u);
        SameCounts(s.users, s.groups, s1.users, s1.groups);
      }
      RoomCounts(s1.users, s1.groups, ExpelFromRoom(s1.groups[ROOM], u));
    }
  }

  lemma ExpelLeaders(s: Server, u: guid)
    requires Sane(s) && u in s.users
    ensures ExpelAll(s, u).Keys == s.groups.Keys
    ensures forall g <- s.groups :: ExpelAll(s, u)[g].leader == s.groups[g].leader
  {
    hide Expel, Linked, LogCounted;
    forall g <- s.groups
      ensures Linked(s.groups[g]) && Expel(s.groups[g], u).leader == s.groups[g].leader
    {
      ExpelSane(s.groups[g], u);
    }
  }

  lemma OwnersAfterCreate(s: Server, info: Group, now: int, fd: int)
    requires Defined(s, EGroupAdd(info, now, fd)) && Owners(s)
    ensures Owners(GroupAdd(s, info, now, fd)) <==> OwnerSafe(s, EGroupAdd(info, now, fd))
  {
    assert Sane(s) && GroupSane(info);
    if info.leader in s.users && s.users[info.leader].owned < OWN_GROUP_MAX {
      OwnedIsNat(s, info.leader);
      OwnedAfterCreate(s, info, now, fd);
      hide Enroll, GroupAdd, GroupSane, GroupsSane, UsersSane, Counts;
      var x := Enroll(info, s.users, |Visited(info, s.users.Keys)|);
      CreateCounts(s.users, s.groups, GroupAdd(s, info, now, fd).users, x);
    } else {
      hide Ack, Counts, GroupSane, GroupsSane;
    }
  }

  lemma OwnedAfterCreate(s: Server, info: Group, now: int, fd: int)
    requires Defined(s, EGroupAdd(info, now, fd))
    requires info.leader in s.users && 0 <= s.users[info.leader].owned < OWN_GROUP_MAX
    ensures var s' := GroupAdd(s, info, now, fd);
      s'.groups == s.groups[info.id := Enroll(info, s.users, |Visited(info, s.users.Keys)|)]
      && (forall u :: u in s'.users <==> u in s.users)
      && forall u <- s.users :: s'.users[u].owned == s.users[u].owned + if u == info.leader then 1 else 0
  {
    hide Ack, Visited, Enroll, Linked, LogCounted;
    assert forall u: User, g: guid :: Join(u, g, now).owned == u.owned;
  }

  lemma OwnedIsNat(s: Server, u: guid)
    requires Owners(s) && u in s.users
    ensures 0 <= s.users[u].owned <= OWN_GROUP_MAX
  {
  }

  lemma OwnersAfterRemove(s: Server, g: guid, o: guid, fd: int)
    requires Defined(s, EGroupDelete(g, o, fd)) && Owners(s)
    ensures Owners(GroupDelete(s, g, o, fd)) <==> OwnerSafe(s, EGroupDelete(g, o, fd))
  {
    hide Ack, Visited, Linked, LogCounted, Counts, GroupsSane, UsersSane;
    if g in s.groups && o == s.groups[g].leader && o in s.users {
      OwnedIsNat(s, o);
      assert forall u: User, h: guid :: Leave(u, h).owned == u.owned;
      DeleteCounts(s.users, s.groups, GroupDelete(s, g, o, fd).users, g, o);
    }
  }

  lemma OwnersAfterGroupModify(s: Server, g: guid, o: guid, t: guid, k: u8, p: u8, now: int, fd: int)
    requires Defined(s, EGroupModify(g, o, t, k, p, now, fd)) && Owners(s)
    ensures Owners(GroupModify(s, g, o, t, k, p, now, fd))
  {
    LeadersAfterGroupModify(s, g, o, t, k, p, now, fd);
    hide GroupModify, Counts;
    var s' := GroupModify(s, g, o, t, k, p, now, fd);
    SameCounts(s.users, s.groups, s'.users, s'.groups);
  }

  /** No operation on a group changes its leader. */
  lemma LeaderKept(g: Group, op: Op)
    requires Linked(g)
    ensures Groups.Apply(g, op).leader == g.leader
  {
    hide Linked;
  }

  /** Owner counts and group leaders are the same. */
  ghost predicate SameLeaders(s: Server, s': Server) {
    && SameOwned(s.users, s'.users)
    && (forall h :: h in s'.groups <==> h in s.groups)
    && (forall h <- s.groups :: s'.groups[h].leader == s.groups[h].leader)
  }

  lemma LeadersAfterPut(s: Server, s': Server, g: guid, x: Group)
    requires g in s.groups && s'.groups == s.groups[g := x] && x.leader == s.groups[g].leader
    requires SameOwned(s.users, s'.users)
    ensures SameLeaders(s, s')
  {
  }

  lemma LeadersAfterAddTo(s: Server, g: guid, o: guid, t: guid, now: int, fd: int)
    requires Sane(s) && g in s.groups && t in s.users && Roomy(s.groups[g])
    ensures SameLeaders(s, AddToGroup(s, g, o, t, now, fd))
  {
    var x, u, s' := s.groups[g], s.users[t], AddToGroup(s, g, o, t, now, fd);
    LeaderKept(x, OpAdd(o, t, u.icon, u.name));
    hide Broadcast, AddMember, Linked, LogCounted;
    if CanAdd(x, o, t) {
      LeadersAfterPut(s, s', g, AddMember(x, o, t, u.icon, u.name));
    }
  }

  lemma LeadersAfterRemoveFrom(s: Server, g: guid, o: guid, t: guid)
    requires Sane(s) && g in s.groups && t in s.users
    ensures SameLeaders(s, RemoveFromGroup(s, g, o, t))
  {
    var x, s' := s.groups[g], RemoveFromGroup(s, g, o, t);
    LeaderKept(x, OpDelete(o, t));
    hide DeleteMember, Linked, LogCounted;
    if CanDelete(x, o, t) {
      LeadersAfterPut(s, s', g, DeleteMember(x, o, t));
    }
  }

  lemma ChangeRoleLeader(g: Group, o: guid, t: guid, k: u8, p: u8)
    requires Linked(g)
    ensures ChangeRole(g, o, t, k, p).leader == g.leader
  {
    LeaderKept(g, OpPromote(o, t));
    LeaderKept(g, OpDemote(o, t));
    LeaderKept(g, OpChange(o, t, p));
  }

  lemma LeadersSent(s: Server, x: Server, y: Server)
    requires SameLeaders(s, x) && y == x.(sent := y.sent)
    ensures SameLeaders(s, y)
  {
  }

  lemma LeadersAfterRoleChange(s: Server, g: guid, o: guid, t: guid, k: u8, p: u8)
    requires Sane(s) && g in s.groups
    ensures SameLeaders(s, s.(groups := s.groups[g := ChangeRole(s.groups[g], o, t, k, p)]))
  {
    ChangeRoleLeader(s.groups[g], o, t, k, p);
    hide ChangeRole, Linked, LogCounted;
  }

  lemma LeadersAfterGroupModify(s: Server, g: guid, o: guid, t: guid, k: u8, p: u8, now: int, fd: int)
    requires Defined(s, EGroupModify(g, o, t, k, p, now, fd))
    ensures SameLeaders(s, GroupModify(s, g, o, t, k, p, now, fd))
  {
    hide Ack, AddToGroup, RemoveFromGroup, ChangeRole, Linked, LogCounted, SameLeaders;
    var s' := GroupModify(s, g, o, t, k, p, now, fd);
    if k <= MODIFY_TYPE_MAX && g in s.groups && o != 0 && o in s.users && t != 0 && t in s.users {
      if k == MEMBER_ADD {
        LeadersAfterAddTo(s, g, o, t, now, fd);
        LeadersSent(s, AddToGroup(s, g, o, t, now, fd), s');
      } else if k == MEMBER_DELETE {
        LeadersAfterRemoveFrom(s, g, o, t);
        LeadersSent(s, RemoveFromGroup(s, g, o, t), s');
      } else {
        LeadersAfterRoleChange(s, g, o, t, k, p);
        LeadersSent(s, s.(groups := s.groups[g := ChangeRole(s.groups[g], o, t, k, p)]), s');
      }
    } else {
      LeadersSelf(s);
      LeadersSent(s, s, s');
    }
  }

  lemma LeadersSelf(s: Server)
    ensures SameLeaders(s, s)
  {
  }

  lemma OwnedAfterTouch(users: map<guid, User>, keys: seq<guid>, g: guid, now: int)
    ensures SameOwned(users, TouchAll(users, keys, g, now))
  {
  }

  lemma FanoutLeader(s: Server, g: Group, m: Msg)
    requires GroupSane(g)
    ensures FanoutGroup(s, g, m).leader == g.leader
  {
    LeaderKept(g, OpAddMsg(m));
    LogSane(g, m);
    hide AddMsg, Counted, Visited, Fits;
  }

  lemma LeadersAfterFanout(s: Server, g: Group, m: Msg, now: int)
    requires GroupSane(g) && g.id in s.groups && s.groups[g.id] == g
    ensures SameLeaders(s, Fanout(s, g, m, now))
  {
    FanoutLeader(s, g, m);
    OwnedAfterTouch(s.users, Visited(g, s.users.Keys), m.recv, now);
    OwnedSelf(s.users);
    hide FanoutGroup, FanoutSends, TouchAll, Visited, Fits, Linked, LogCounted, SameOwned;
  }

  lemma OwnedSelf(users: map<guid, User>)
    ensures SameOwned(users, users)
  {
  }

  lemma LeadersAfterDispatch(s: Server, now: int)
    requires Defined(s, EDispatch(now))
    ensures SameLeaders(s, Dispatch(s, now))
  {
    hide Ack, Fanout, Linked, LogCounted;
    if s.queue[0].recv in s.groups {
      LeadersAfterFanout(s, s.groups[s.queue[0].recv], s.queue[0], now);
    }
  }

  lemma OwnersAfterDispatch(s: Server, now: int)
    requires Defined(s, EDispatch(now)) && Owners(s)
    ensures Owners(Dispatch(s, now))
  {
    LeadersAfterDispatch(s, now);
    hide Dispatch, Counts;
    SameCounts(s.users, s.groups, Dispatch(s, now).users, Dispatch(s, now).groups);
  }

  lemma OwnersAfterLogin(s: Server, p: seq<byte>, pw: seq<byte>, now: int, fd: int)
    requires Owners(s)
    ensures Owners(AcountLogin(s, p, pw, now, fd))
  {
    hide Out, Counts;
    SameCounts(s.users, s.groups, AcountLogin(s, p, pw, now, fd).users, s.groups);
  }

  lemma OwnersAfterLogout(s: Server, u: guid, now: int, fd: int)
    requires Owners(s)
    ensures Owners(AcountLogout(s, u, now, fd))
  {
    hide Ack, Counts;
    SameCounts(s.users, s.groups, AcountLogout(s, u, now, fd).users, s.groups);
  }

  lemma OwnersAfterClose(s: Server, fd: int)
    requires Owners(s)
    ensures Owners(Close(s, fd))
  {
    hide Counts;
    SameCounts(s.users, s.groups, Close(s, fd).users, s.groups);
  }

  /** Exactly when a step keeps the owner counts right and within the maximum. */
  lemma OwnerStep(s: Server, e: Event)
    requires Defined(s, e) && Owners(s)
    ensures Owners(Handle(s, e)) <==> OwnerSafe(s, e)
  {
    hide AcountAdd, AcountModify, AcountDelete, AcountLogin, AcountLogout, Close, GroupAdd, GroupModify, GroupDelete;
    hide MsgSend, MsgListReq, Dispatch, Ack, Linked, LogCounted, Counts;
    match e
    case EAcountAdd(w, now, fd) => OwnersAfterAdd(s, w, now, fd);
    case EAcountModify(w, fd) => OwnersAfterModify(s, w, fd);
    case EAcountDelete(u, fd) => OwnersAfterDelete(s, u, fd);
    case ELogin(p, pw, now, fd) => OwnersAfterLogin(s, p, pw, now, fd);
    case ELogout(u, now, fd) => OwnersAfterLogout(s, u, now, fd);
    case EClose(fd) => OwnersAfterClose(s, fd);
    case EGroupAdd(info, now, fd) => OwnersAfterCreate(s, info, now, fd);
    case EGroupModify(g, o, t, k, p, now, fd) => OwnersAfterGroupModify(s, g, o, t, k, p, now, fd);
    case EGroupDelete(g, o, fd) => OwnersAfterRemove(s, g, o, fd);
    case EDispatch(now) => OwnersAfterDispatch(s, now);
    case _ =>
  }

  lemma OwnerRun(ss: seq<Server>, es: seq<Event>, n: nat)
    requires IsRun(ss, es) && n <= |es| && Owners(ss[0])
    requires forall i :: 0 <= i < n ==> OwnerSafe(ss[i], es[i])
    ensures Owners(ss[n])
  {
    forall s, e | Owners(s) && Defined(s, e) && OwnerSafe(s, e)
      ensures Owners(Handle(s, e))
    {
      OwnerStep(s, e);
    }
    RunKeeps(ss, es, s => Owners(s), (s, e) => Defined(s, e) && OwnerSafe(s, e), n);
  }

  // ---------------------------------------------------------------- the maximum

  /** No owner count exceeds the maximum. */
  ghost predicate Capped(users: map<guid, User>) {
    forall u <- users :: 0 <= users[u].owned <= OWN_GROUP_MAX
  }

  /** A count that comes from the wire is within the maximum. */
  ghost predicate CapSafe(s: Server, e: Event)
    requires Defined(s, e)
  {
    match e
    case EAcountAdd(w, _, _) => PhoneUnique(s, w.phone) == ERROR_OK ==> 0 <= w.owned <= OWN_GROUP_MAX
    case EAcountModify(w, _) => Registrant(s, w).id == Inc32(s.lastUser) || 0 <= w.owned <= OWN_GROUP_MAX
    case _ => true
  }

  lemma InstallCapped(users: map<guid, User>, u: User)
    requires Capped(users)
    ensures Capped(users[u.id := u]) <==> 0 <= u.owned <= OWN_GROUP_MAX
  {
    assert u.id in users[u.id := u];
  }

  lemma CapAfterAdd(s: Server, w: User, now: int, fd: int)
    requires Defined(s, EAcountAdd(w, now, fd)) && Capped(s.users)
    ensures Capped(AcountAdd(s, w, now, fd).users) <==> CapSafe(s, EAcountAdd(w, now, fd))
  {
    hide Out, Broadcast, AddMember, Linked, LogCounted, Capped;
    if PhoneUnique(s, w.phone) == ERROR_OK {
      InstallCapped(s.users, Registrant(s, w).(regTime := now, online := STATUS_ON_LINE));
    }
  }

  lemma CapAfterModify(s: Server, w: User, fd: int)
    requires Defined(s, EAcountModify(w, fd)) && Capped(s.users)
    ensures Capped(AcountModify(s, w, fd).users) <==> CapSafe(s, EAcountModify(w, fd))
  {
    hide Ack, GroupSane, Capped;
    if Registrant(s, w).id != Inc32(s.lastUser) {
      InstallCapped(s.users, w);
    }
  }

  lemma CapAfterCreate(s: Server, info: Group, now: int, fd: int)
    requires Defined(s, EGroupAdd(info, now, fd)) && Capped(s.users)
    ensures Capped(GroupAdd(s, info, now, fd).users)
  {
    assert Sane(s) && GroupSane(info);
    if info.leader in s.users && s.users[info.leader].owned < OWN_GROUP_MAX {
      OwnedAfterCreate(s, info, now, fd);
      hide GroupAdd, GroupSane, GroupsSane, UsersSane;
    } else {
      hide Ack, GroupSane, GroupsSane;
    }
  }

  lemma CapAfterRemove(s: Server, g: guid, o: guid, fd: int)
    requires Capped(s.users)
    ensures Capped(GroupDelete(s, g, o, fd).users)
  {
    hide Ack, Visited;
  }

  lemma SameCapped(users: map<guid, User>, users': map<guid, User>)
    requires Capped(users) && SameOwned(users, users')
    ensures Capped(users')
  {
  }

  lemma CapAfterOther(s: Server, e: Event)
    requires Defined(s, e) && Capped(s.users)
    requires !e.EAcountAdd? && !e.EAcountModify? && !e.EGroupAdd? && !e.EGroupDelete?
    ensures Capped(Handle(s, e).users)
  {
    hide AcountDelete, GroupModify, Dispatch, Ack, Out, Linked, LogCounted, Capped, GroupsSane, UsersSane;
    hide MsgSend, MsgListReq, GroupInfoReq, BriefInfoReq, Bracket, Unbind;
    match e {
      case EAcountDelete(u, fd) => OwnedAfterDelete(s, u, fd);
      case EGroupModify(g, o, t, k, p, now, fd) => LeadersAfterGroupModify(s, g, o, t, k, p, now, fd);
      case EDispatch(now) => LeadersAfterDispatch(s, now);
      case _ =>
    }
    assert SameOwned(s.users, Handle(s, e).users);
    SameCapped(s.users, Handle(s, e).users);
  }

  lemma OwnedAfterDelete(s: Server, u: guid, fd: int)
    requires Defined(s, EAcountDelete(u, fd))
    ensures SameOwned(s.users, AcountDelete(s, u, fd).users)
  {
    hide Ack, Broadcast, ExpelFromRoom, Linked, LogCounted, ExpelAll;
    UnregisterSane(s.(connUser := Bracket(s.connUser, fd)), u);
  }

  /** Exactly when a step keeps every owner count within the maximum, whatever guids groups are created
      under. */
  lemma CapStep(s: Server, e: Event)
    requires Defined(s, e) && Capped(s.users)
    ensures Capped(Handle(s, e).users) <==> CapSafe(s, e)
  {
    hide AcountAdd, AcountModify, AcountDelete, AcountLogin, AcountLogout, Close, GroupAdd, GroupModify, GroupDelete;
    hide MsgSend, MsgListReq, Dispatch, Ack, Linked, LogCounted, Capped;
    match e
    case EAcountAdd(w, now, fd) => CapAfterAdd(s, w, now, fd);
    case EAcountModify(w, fd) => CapAfterModify(s, w, fd);
    case EGroupAdd(info, now, fd) => CapAfterCreate(s, info, now, fd);
    case EGroupDelete(g, o, fd) => CapAfterRemove(s, g, o, fd);
    case _ => CapAfterOther(s, e);
  }

  /** No user ever owns more than the maximum, in runs of any requests whose wire counts are within it. */
  lemma CapRun(ss: seq<Server>, es: seq<Event>, n: nat)
    requires IsRun(ss, es) && n <= |es| && Capped(ss[0].users)
    requires forall i :: 0 <= i < n ==> CapSafe(ss[i], es[i])
    ensures Capped(ss[n].users)
  {
    hide Handle, Defined, Capped, CapSafe;
    forall s: Server, e | Capped(s.users) && Defined(s, e) && CapSafe(s, e)
      ensures Capped(Handle(s, e).users)
    {
      CapStep(s, e);
    }
    RunKeeps(ss, es, (s: Server) => Capped(s.users), (s, e) => Defined(s, e) && CapSafe(s, e), n);
  }
}
