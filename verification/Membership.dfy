/** The two views of membership: a user's joined groups and the groups' member indexes. */
module Membership {
  import opened Bytes
  import opened Packets
  import opened Groups
  import opened GroupRuns
  import opened Users
  import opened Servers
  import opened ServerRuns

  predicate Lists(groups: map<guid, Group>, g: guid, u: guid) {
    g in groups && u in Keys(groups[g])
  }

  /** Outside the public room, a user has joined exactly the groups that list it. */
  ghost predicate TwoView(users: map<guid, User>, groups: map<guid, Group>) {
    forall u, g :: u in users && g != ROOM ==> (g in users[u].joined <==> Lists(groups, g, u))
  }

  /** Only registered users are listed. */
  ghost predicate Closed(users: map<guid, User>, groups: map<guid, Group>) {
    forall g, u :: g != ROOM && Lists(groups, g, u) ==> u in users
  }

  ghost predicate Agree(users: map<guid, User>, groups: map<guid, Group>) {
    TwoView(users, groups) && Closed(users, groups)
  }

  ghost predicate Agreeing(s: Server) { Agree(s.users, s.groups) }

  // ---------------------------------------------------------------- conditions

  /** Registering or modifying installs a user who has joined nothing. */
  ghost predicate Unlisted(s: Server, u: guid) {
    forall g :: g != ROOM ==> !Lists(s.groups, g, u)
  }

  /** A deleted account must be an ordinary member wherever it is listed, of groups whose leader is
      still a manager. */
  ghost predicate CanExpel(s: Server, u: guid) {
    forall g :: g != ROOM && Lists(s.groups, g, u) ==>
      u !in s.groups[g].managers && s.groups[g].leader in s.groups[g].managers
  }

  /** The group is created. */
  predicate Creates(s: Server, info: Group) {
    info.leader in s.users && s.users[info.leader].owned < OWN_GROUP_MAX
  }

  /** A new group lists only registered users, and an older group of the same guid lists nobody else. */
  ghost predicate CanCreate(s: Server, info: Group) {
    info.id != ROOM ==> Suits(s.users, s.groups, info)
  }

  ghost predicate Suits(users: map<guid, User>, groups: map<guid, Group>, x: Group) {
    && (forall u <- Keys(x) :: u in users)
    && (forall u :: Lists(groups, x.id, u) ==> u in Keys(x))
  }

  /** A deletion takes one of the two entries of a member that both indexes list, and the user
      leaves all the same. */
  ghost predicate HalfRemoves(s: Server, g: guid, o: guid, t: guid, kind: u8) {
    && kind == MEMBER_DELETE && g != ROOM && g in s.groups && o != 0 && o in s.users && t != 0 && t in s.users
    && CanDelete(s.groups[g], o, t) && t in s.groups[g].managers && t in s.groups[g].members
  }

  /** What the caller must check before each step. */
  ghost predicate MemberSafe(s: Server, e: Event)
    requires Defined(s, e)
  {
    match e
    case EAcountAdd(w, _, _) => PhoneUnique(s, w.phone) == ERROR_OK ==> Unlisted(s, Registrant(s, w).id)
    case EAcountModify(w, _) => Registrant(s, w).id == Inc32(s.lastUser) || Unlisted(s, w.id)
    case EAcountDelete(u, fd) => u == Bracket(s.connUser, fd)[fd] && u in s.users ==> CanExpel(s, u)
    case EGroupAdd(info, _, _) => Creates(s, info) ==> CanCreate(s, info)
    case EGroupModify(g, o, t, k, _, _, _) => !HalfRemoves(s, g, o, t, k)
    case _ => true
  }

  // ---------------------------------------------------------------- steps on the two maps

  /** The two pairs of maps show the same memberships outside the public room. */
  ghost predicate SameView(users: map<guid, User>, groups: map<guid, Group>, users': map<guid, User>,
      groups': map<guid, Group>) {
    && (forall u :: u in users' <==> u in users)
    && (forall u, g :: u in users && g != ROOM ==> (g in users'[u].joined <==> g in users[u].joined))
    && (forall g :: g != ROOM ==> (g in groups' <==> g in groups))
    && (forall g <- groups :: g != ROOM ==>
         groups'[g].managers.Keys == groups[g].managers.Keys && groups'[g].members.Keys == groups[g].members.Keys)
  }

  lemma SameAgree(users: map<guid, User>, groups: map<guid, Group>, users': map<guid, User>, groups': map<guid, Group>)
    requires SameView(users, groups, users', groups') && Agree(users, groups)
    ensures Agree(users', groups')
  {
    assert forall g, u :: g != ROOM ==> (Lists(groups', g, u) <==> Lists(groups, g, u));
  }

  lemma InstallUser(users: map<guid, User>, groups: map<guid, Group>, u: User)
    requires Agree(users, groups) && u.joined == map[]
    ensures Agree(users[u.id := u], groups) <==> forall g :: g != ROOM ==> !Lists(groups, g, u.id)
  {
    var v := users[u.id := u];
    if g :| g != ROOM && Lists(groups, g, u.id) {
      assert g !in v[u.id].joined;
    } else {
      assert forall x, g :: x in v && x != u.id ==> (g in v[x].joined <==> g in users[x].joined);
    }
  }

  lemma ChangeRoom(users: map<guid, User>, groups: map<guid, Group>, room: Group)
    ensures ROOM in groups ==> (Agree(users, groups[ROOM := room]) <==> Agree(users, groups))
  {
    if ROOM in groups {
      var groups' := groups[ROOM := room];
      if Agree(users, groups) {
        SameAgree(users, groups, users, groups');
      }
      if Agree(users, groups') {
        SameAgree(users, groups', users, groups);
      }
    }
  }

  lemma ExpelKeys(g: Group, u: guid)
    requires Linked(g)
    ensures forall v :: v != u ==> (v in Keys(Expel(g, u)) <==> v in Keys(g))
    ensures u in Keys(g) ==>
      (u in Keys(Expel(g, u)) <==> !(u !in g.managers && g.leader in g.managers))
    ensures u !in Keys(g) ==> u !in Keys(Expel(g, u))
  {
    hide Linked;
  }

  /** Deleting an account keeps agreement exactly when the account can be expelled everywhere. */
  lemma AgreeAfterExpel(s: Server, u: guid)
    requires Sane(s) && Agreeing(s) && u in s.users
    ensures Agree(s.users - {u}, ExpelAll(s, u)) <==> CanExpel(s, u)
  {
    hide Expel, Linked, LogCounted;
    var users, groups := s.users - {u}, ExpelAll(s, u);
    forall g <- s.groups
      ensures var x, x' := s.groups[g], groups[g];
        (forall v :: v != u ==> (v in Keys(x') <==> v in Keys(x)))
        && (g != ROOM && u in Keys(x) ==> (u in Keys(x') <==> !(u !in x.managers && x.leader in x.managers)))
        && (u !in Keys(x) ==> u !in Keys(x'))
    {
      ExpelKeys(s.groups[g], u);
      assert g != ROOM ==> (g in s.users[u].joined <==> Lists(s.groups, g, u));
    }
    assert forall g, v :: v != u ==> (Lists(groups, g, v) <==> Lists(s.groups, g, v));
    if !CanExpel(s, u) {
      var g :| g != ROOM && Lists(s.groups, g, u)
        && !(u !in s.groups[g].managers && s.groups[g].leader in s.groups[g].managers);
      assert Lists(groups, g, u) && u !in users;
    } else {
      assert forall g :: g != ROOM ==> !Lists(groups, g, u);
    }
  }

  /** `users'` differs from `users` in that the users in `keys` have joined `g`. */
  ghost predicate JoinsOnly(users: map<guid, User>, users': map<guid, User>, g: guid, keys: seq<guid>) {
    && (forall u :: u in users' <==> u in users)
    && forall u, h :: u in users ==> (h in users'[u].joined <==> h in users[u].joined || (h == g && u in keys))
  }

  /** A traversal reaches only registered members, and all of them if all are registered. */
  ghost predicate Reaches(members: set<guid>, users: set<guid>, keys: seq<guid>) {
    && (forall u <- keys :: u in members && u in users)
    && ((forall u <- members :: u in users) ==> forall u <- members :: u in keys)
  }

  lemma VisitedMembers(g: Group, users: set<guid>)
    ensures Reaches(Keys(g), users, Visited(g, users))
  {
    ReachedFacts(g.managers, users);
    ReachedFacts(g.members, users);
    var a, b := ReachedOf(g.managers, users), ReachedOf(g.members, users);
    assert forall u :: u in Visited(g, users) <==> u in a || u in b;
    forall u <- a ensures u in g.managers && u in users {
      var i :| 0 <= i < |a| && a[i] == u;
    }
    forall u <- b ensures u in g.members && u in users {
      var i :| 0 <= i < |b| && b[i] == u;
    }
    if forall u <- Keys(g) :: u in users {
      assert g.managers.Keys <= users && g.members.Keys <= users;
    }
  }

  /** Creating a group: `keys` are the members the traversal reached. */
  lemma CreateGroup(users: map<guid, User>, groups: map<guid, Group>, users': map<guid, User>, x: Group,
      keys: seq<guid>)
    requires Agree(users, groups) && x.id != ROOM
    requires JoinsOnly(users, users', x.id, keys) && Reaches(Keys(x), users.Keys, keys)
    ensures Agree(users', groups[x.id := x]) <==> Suits(users, groups, x)
  {
    var groups' := groups[x.id := x];
    assert forall g, u :: Lists(groups', g, u) <==> if g == x.id then u in Keys(x) else Lists(groups, g, u);
    if exists u :: Lists(groups, x.id, u) && u !in Keys(x) {
      var u :| Lists(groups, x.id, u) && u !in Keys(x);
      assert u in users && x.id in users'[u].joined && !Lists(groups', x.id, u);
    }
    if exists u :: u in Keys(x) && u !in users {
      var u :| u in Keys(x) && u !in users;
      assert Lists(groups', x.id, u);
    }
  }

  lemma JoinedAfterCreate(s: Server, info: Group, now: int, fd: int)
    requires Defined(s, EGroupAdd(info, now, fd)) && Creates(s, info)
    ensures var users', keys := GroupAdd(s, info, now, fd).users, Visited(info, s.users.Keys);
      JoinsOnly(s.users, users', info.id, keys)
  {
    hide Ack, Visited, Enroll, Linked, LogCounted, GroupsSane, UsersSane;
    assert forall u: User :: Founded(u).joined == u.joined;
  }

  lemma GroupsAfterCreate(s: Server, info: Group, now: int, fd: int) returns (x: Group)
    requires Defined(s, EGroupAdd(info, now, fd)) && Creates(s, info)
    ensures GroupAdd(s, info, now, fd).groups == s.groups[info.id := x]
    ensures x.managers == info.managers && x.members == info.members && x.id == info.id
  {
    hide Ack, Visited, Enroll, Linked, LogCounted;
    x := Enroll(info, s.users, |Visited(info, s.users.Keys)|);
  }

  lemma CreateAny(users: map<guid, User>, groups: map<guid, Group>, users': map<guid, User>, x: Group, keys: seq<guid>)
    requires Agree(users, groups)
    requires JoinsOnly(users, users', x.id, keys) && Reaches(Keys(x), users.Keys, keys)
    ensures Agree(users', groups[x.id := x]) <==> (x.id != ROOM ==> Suits(users, groups, x))
  {
    hide Suits, Agree;
    if x.id != ROOM {
      CreateGroup(users, groups, users', x, keys);
    } else {
      SameAgree(users, groups, users', groups);
      RoomAdded(users', groups, x);
    }
  }

  lemma SuitsSame(users: map<guid, User>, groups: map<guid, Group>, x: Group, y: Group)
    requires x.managers == y.managers && x.members == y.members && x.id == y.id
    ensures Suits(users, groups, x) <==> Suits(users, groups, y)
  {
  }

  lemma MemberAfterCreate(s: Server, info: Group, now: int, fd: int)
    requires Defined(s, EGroupAdd(info, now, fd)) && Agreeing(s) && Creates(s, info)
    ensures Agreeing(GroupAdd(s, info, now, fd)) <==> CanCreate(s, info)
  {
    assert Sane(s) && GroupSane(info);
    hide GroupAdd, Visited, Agree, Suits, Defined, Creates, Sane, GroupSane, JoinsOnly, Reaches;
    var keys := Visited(info, s.users.Keys);
    VisitedMembers(info, s.users.Keys);
    JoinedAfterCreate(s, info, now, fd);
    var x := GroupsAfterCreate(s, info, now, fd);
    SuitsSame(s.users, s.groups, x, info);
    var s' := GroupAdd(s, info, now, fd);
    assert Keys(x) == Keys(info);
    CreateAny(s.users, s.groups, s'.users, x, keys);
  }

  lemma RoomAdded(users: map<guid, User>, groups: map<guid, Group>, room: Group)
    requires Agree(users, groups)
    ensures Agree(users, groups[ROOM := room])
  {
    SameAgree(users, groups, users, groups[ROOM := room]);
  }

  lemma RemoveGroup(users: map<guid, User>, groups: map<guid, Group>, users': map<guid, User>, g: guid, keys: seq<guid>)
    requires Agree(users, groups) && g in groups
    requires forall u :: u in users' <==> u in users
    requires forall u, h :: u in users ==> (h in users'[u].joined <==> h in users[u].joined && !(h == g && u in keys))
    requires Reaches(Keys(groups[g]), users.Keys, keys)
    ensures Agree(users', groups - {g})
  {
    assert forall h, u :: Lists(groups - {g}, h, u) <==> h != g && Lists(groups, h, u);
    assert forall u <- Keys(groups[g]) :: Lists(groups, g, u);
  }

  lemma JoinedAfterRemove(s: Server, g: guid, o: guid, fd: int)
    requires g in s.groups && o == s.groups[g].leader && o in s.users
    ensures var s', keys := GroupDelete(s, g, o, fd), Visited(s.groups[g], s.users.Keys);
      s'.groups == s.groups - {g} && (forall u :: u in s'.users <==> u in s.users)
      && forall u, h :: u in s.users ==> (h in s'.users[u].joined <==> h in s.users[u].joined && !(h == g && u in keys))
  {
    hide Ack, Visited;
    assert forall u: User :: Disbanded(u).joined == u.joined;
  }

  lemma MemberAfterRemove(s: Server, g: guid, o: guid, fd: int)
    requires Defined(s, EGroupDelete(g, o, fd)) && Agreeing(s)
    ensures Agreeing(GroupDelete(s, g, o, fd))
  {
    if g in s.groups && o == s.groups[g].leader && o in s.users {
      VisitedMembers(s.groups[g], s.users.Keys);
      JoinedAfterRemove(s, g, o, fd);
      var keys := Visited(s.groups[g], s.users.Keys);
      hide GroupDelete, Visited, Agree, GroupsSane, UsersSane;
      RemoveGroup(s.users, s.groups, GroupDelete(s, g, o, fd).users, g, keys);
    } else {
      hide Ack, Agree, GroupsSane, UsersSane;
    }
  }

  lemma MemberAfterAdd(s: Server, w: User, now: int, fd: int)
    requires Defined(s, EAcountAdd(w, now, fd)) && Agreeing(s)
    ensures Agreeing(AcountAdd(s, w, now, fd)) <==> MemberSafe(s, EAcountAdd(w, now, fd))
  {
    hide Out, Broadcast, AddMember, Linked, LogCounted, Agree;
    if PhoneUnique(s, w.phone) == ERROR_OK {
      var u := Registrant(s, w).(regTime := now, online := STATUS_ON_LINE);
      InstallUser(s.users, s.groups, u);
      var s' := AcountAdd(s, w, now, fd);
      ChangeRoom(s.users[u.id := u], s.groups, s'.groups[ROOM]);
      assert s'.groups == s.groups[ROOM := s'.groups[ROOM]];
    }
  }

  lemma MemberAfterModify(s: Server, w: User, fd: int)
    requires Defined(s, EAcountModify(w, fd)) && Agreeing(s)
    ensures Agreeing(AcountModify(s, w, fd)) <==> MemberSafe(s, EAcountModify(w, fd))
  {
    hide Ack, GroupSane, Agree;
    if Registrant(s, w).id != Inc32(s.lastUser) {
      InstallUser(s.users, s.groups, w);
    }
  }

  lemma MemberAfterDelete(s: Server, u: guid, fd: int)
    requires Defined(s, EAcountDelete(u, fd)) && Agreeing(s)
    ensures Agreeing(AcountDelete(s, u, fd)) <==> MemberSafe(s, EAcountDelete(u, fd))
  {
    hide Ack, Broadcast, ExpelFromRoom, Linked, LogCounted, ExpelAll, Agree;
    var s0 := s.(connUser := Bracket(s.connUser, fd));
    UnregisterSane(s0, u);
    if u == s0.connUser[fd] {
      var s1 := Unbind(Unregister(s0, u), u);
      ChangeRoom(s1.users, s1.groups, ExpelFromRoom(s1.groups[ROOM], u));
      if u in s.users {
        AgreeAfterExpel(s0, u);
      }
    }
  }

  // ---------------------------------------------------------------- group modification

  lemma SetRoles(users: map<guid, User>, groups: map<guid, Group>, users': map<guid, User>, x: Group,
                  g: guid, t: guid, joined: bool, listed: bool)
    requires Agree(users, groups) && g in groups && g != ROOM && t in users
    requires forall u :: u in users' <==> u in users
    requires forall u, h :: u in users ==>
      (h in users'[u].joined <==> if u == t && h == g then joined else h in users[u].joined)
    requires forall u :: u in Keys(x) <==> if u == t then listed else u in Keys(groups[g])
    ensures Agree(users', groups[g := x]) <==> joined == listed
  {
    var groups' := groups[g := x];
    assert forall h, u :: Lists(groups', h, u) <==> if h == g then u in Keys(x) else Lists(groups, h, u);
    assert forall u :: u in Keys(groups[g]) <==> Lists(groups, g, u);
    assert (g in users'[t].joined <==> joined) && (Lists(groups', g, t) <==> listed);
  }

  lemma MemberAfterAddTo(s: Server, g: guid, o: guid, t: guid, now: int, fd: int)
    requires Sane(s) && Agreeing(s) && g in s.groups && t in s.users && Roomy(s.groups[g]) && o != 0
    ensures Agreeing(AddToGroup(s, g, o, t, now, fd))
  {
    hide Broadcast, Linked, LogCounted;
    var x, u := s.groups[g], s.users[t];
    if CanAdd(x, o, t) {
      var x' := AddMember(x, o, t, u.icon, u.name);
      var s' := AddToGroup(s, g, o, t, now, fd);
      assert s'.groups == s.groups[g := x'];
      if g != ROOM {
        SetRoles(s.users, s.groups, s'.users, x', g, t, true, true);
      } else {
        SameAgree(s.users, s.groups, s'.users, s'.groups);
      }
    }
  }

  lemma MemberAfterRemoveFrom(s: Server, g: guid, o: guid, t: guid)
    requires Sane(s) && Agreeing(s) && g in s.groups && t in s.users
    ensures Agreeing(RemoveFromGroup(s, g, o, t))
      <==> !(g != ROOM && CanDelete(s.groups[g], o, t) && t in s.groups[g].managers && t in s.groups[g].members)
  {
    hide Linked, LogCounted;
    var x := s.groups[g];
    if CanDelete(x, o, t) {
      var x', s' := DeleteMember(x, o, t), RemoveFromGroup(s, g, o, t);
      assert s'.groups == s.groups[g := x'];
      if g != ROOM {
        SetRoles(s.users, s.groups, s'.users, x', g, t, false, t in x.managers && t in x.members);
      } else {
        SameAgree(s.users, s.groups, s'.users, s.groups);
        RoomAdded(s'.users, s.groups, x');
      }
    }
  }

  lemma MemberAfterRoleChange(s: Server, g: guid, x': Group)
    requires Agreeing(s) && g in s.groups
    requires Keys(x') == Keys(s.groups[g])
    ensures Agree(s.users, s.groups[g := x'])
  {
    var groups' := s.groups[g := x'];
    assert forall h, u :: Lists(groups', h, u) <==> Lists(s.groups, h, u);
  }

  lemma ChangeRoleKeys(g: Group, o: guid, t: guid, k: u8, p: u8)
    requires Linked(g)
    ensures Keys(ChangeRole(g, o, t, k, p)) == Keys(g)
  {
    hide Count;
  }

  lemma MemberAfterGroupModify(s: Server, g: guid, o: guid, t: guid, k: u8, p: u8, now: int, fd: int)
    requires Defined(s, EGroupModify(g, o, t, k, p, now, fd)) && Agreeing(s)
    ensures Agreeing(GroupModify(s, g, o, t, k, p, now, fd)) <==> MemberSafe(s, EGroupModify(g, o, t, k, p, now, fd))
  {
    hide Ack, Agree, AddToGroup, RemoveFromGroup, ChangeRole, Linked, LogCounted, CanDelete;
    if k <= MODIFY_TYPE_MAX && g in s.groups && o != 0 && o in s.users && t != 0 && t in s.users {
      ChangeRoleKeys(s.groups[g], o, t, k, p);
      MemberAfterAddTo(s, g, o, t, now, fd);
      MemberAfterRemoveFrom(s, g, o, t);
      MemberAfterRoleChange(s, g, ChangeRole(s.groups[g], o, t, k, p));
    }
  }

  // ---------------------------------------------------------------- the other handlers

  lemma FanoutKeepsRoles(s: Server, g: Group, m: Msg)
    requires GroupSane(g)
    ensures var g' := FanoutGroup(s, g, m); g'.managers == g.managers && g'.members == g.members && g'.id == g.id
  {
    LogKeepsRoles(g, m);
    LogSane(g, m);
    hide AddMsg, Counted, Visited, Fits;
  }

  lemma ViewAfterFanout(s: Server, g: Group, m: Msg, now: int)
    requires GroupSane(g) && g.id in s.groups && s.groups[g.id] == g
    ensures SameView(s.users, s.groups, Fanout(s, g, m, now).users, Fanout(s, g, m, now).groups)
  {
    FanoutKeepsRoles(s, g, m);
    hide FanoutGroup, FanoutSends, Visited, Fits, Linked, LogCounted;
    assert forall u: User, h: guid :: Touch(u, h, now).joined.Keys == u.joined.Keys;
  }

  lemma MemberAfterDispatch(s: Server, now: int)
    requires Defined(s, EDispatch(now)) && Agreeing(s)
    ensures Agreeing(Dispatch(s, now))
  {
    hide Ack, Fanout, Linked, LogCounted, Agree, SameView;
    var s', m := Dispatch(s, now), s.queue[0];
    if m.recv in s.groups {
      ViewAfterFanout(s, s.groups[m.recv], m, now);
      SameAgree(s.users, s.groups, Fanout(s, s.groups[m.recv], m, now).users,
        Fanout(s, s.groups[m.recv], m, now).groups);
    }
  }

  lemma LogKeepsRoles(g: Group, m: Msg)
    ensures var g' := AddMsg(g, m); g'.managers == g.managers && g'.members == g.members && g'.id == g.id
  {
  }

  lemma MemberAfterLogin(s: Server, p: seq<byte>, pw: seq<byte>, now: int, fd: int)
    requires Agreeing(s)
    ensures Agreeing(AcountLogin(s, p, pw, now, fd))
  {
    hide Out, Agree;
    SameAgree(s.users, s.groups, AcountLogin(s, p, pw, now, fd).users, s.groups);
  }

  lemma MemberAfterLogout(s: Server, u: guid, now: int, fd: int)
    requires Agreeing(s)
    ensures Agreeing(AcountLogout(s, u, now, fd)) && Agreeing(Close(s, fd))
  {
    hide Ack, Agree;
    SameAgree(s.users, s.groups, AcountLogout(s, u, now, fd).users, s.groups);
    SameAgree(s.users, s.groups, Close(s, fd).users, s.groups);
  }

  /** Exactly when a step keeps the two views of membership in agreement and only registered users
      listed. */
  lemma MemberStep(s: Server, e: Event)
    requires Defined(s, e) && Agreeing(s)
    ensures Agreeing(Handle(s, e)) <==> MemberSafe(s, e)
  {
    hide AcountAdd, AcountModify, AcountDelete, AcountLogin, AcountLogout, Close, GroupAdd, GroupModify, GroupDelete;
    hide MsgSend, MsgListReq, Dispatch, Ack, Out, Agree, Linked, LogCounted;
    match e
    case EAcountAdd(w, now, fd) => MemberAfterAdd(s, w, now, fd);
    case EAcountModify(w, fd) => MemberAfterModify(s, w, fd);
    case EAcountDelete(u, fd) => MemberAfterDelete(s, u, fd);
    case ELogin(p, pw, now, fd) => MemberAfterLogin(s, p, pw, now, fd);
    case ELogout(u, now, fd) => MemberAfterLogout(s, u, now, fd);
    case EClose(fd) => MemberAfterLogout(s, 0, 0, fd);
    case EGroupAdd(info, now, fd) =>
      if Creates(s, info) {
        MemberAfterCreate(s, info, now, fd);
      } else {
        RefusedCreate(s, info, now, fd);
      }
    case EGroupModify(g, o, t, k, p, now, fd) => MemberAfterGroupModify(s, g, o, t, k, p, now, fd);
    case EGroupDelete(g, o, fd) => MemberAfterRemove(s, g, o, fd);
    case EDispatch(now) => MemberAfterDispatch(s, now);
    case _ =>
  }

  lemma RefusedCreate(s: Server, info: Group, now: int, fd: int)
    requires Defined(s, EGroupAdd(info, now, fd)) && !Creates(s, info)
    ensures GroupAdd(s, info, now, fd).users == s.users && GroupAdd(s, info, now, fd).groups == s.groups
  {
  }

  lemma MemberRun(ss: seq<Server>, es: seq<Event>, n: nat)
    requires IsRun(ss, es) && n <= |es| && Agreeing(ss[0])
    requires forall i :: 0 <= i < n ==> MemberSafe(ss[i], es[i])
    ensures Agreeing(ss[n])
  {
    forall s, e | Agreeing(s) && Defined(s, e) && MemberSafe(s, e)
      ensures Agreeing(Handle(s, e))
    {
      MemberStep(s, e);
    }
    RunKeeps(ss, es, s => Agreeing(s), (s, e) => Defined(s, e) && MemberSafe(s, e), n);
  }
}
