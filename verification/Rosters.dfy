/** The representation invariant of every group of the server, over whole runs of requests. */
module Rosters {
  import opened Bytes
  import opened Packets
  import opened Groups
  import opened GroupRuns
  import opened Users
  import opened Servers
  import opened ServerRuns
  import opened Membership
  import opened Fanouts

  ghost predicate AllRep(groups: map<guid, Group>) {
    forall g <- groups :: Rep(groups[g])
  }

  ghost predicate AllGroupsRep(s: Server) { AllRep(s.groups) }

  // ---------------------------------------------------------------- conditions

  /** Creating a group rewrites the job of every member reached: the leader's to leader, everyone
      else's to ordinary member, whichever index holds them. */
  ghost predicate RolesFit(info: Group, users: set<guid>)
    requires Linked(info)
  {
    forall u <- Keys(info) ::
      u in info.managers <==> if u in Visited(info, users) then u == info.leader else ManagerJob(Entry(info, u).job)
  }

  /** A modification that adds a current manager to its group. */
  ghost predicate Duplicates(s: Server, g: guid, o: guid, t: guid, kind: u8) {
    && kind == MEMBER_ADD && g in s.groups && o != 0 && o in s.users && t != 0 && t in s.users
    && CanAdd(s.groups[g], o, t) && t in s.groups[g].managers
  }

  ghost predicate RosterSafe(s: Server, e: Event)
    requires Defined(s, e)
  {
    match e
    case EAcountAdd(w, _, _) =>
      PhoneUnique(s, w.phone) == ERROR_OK ==> Registrant(s, w).id !in s.groups[ROOM].managers
    case EGroupAdd(info, _, _) => Creates(s, info) ==> Indexed(info) && RolesFit(info, s.users.Keys)
    case EGroupModify(g, o, t, k, _, _, _) => !Duplicates(s, g, o, t, k)
    case _ => true
  }

  // ---------------------------------------------------------------- groups

  /** The same nodes with the same guids and jobs. */
  ghost predicate SameRoles(g: Group, g': Group) {
    && g'.count == g.count && g'.list == g.list && g'.managers == g.managers && g'.members == g.members
    && |g'.nodes| == |g.nodes|
    && forall n :: 0 <= n < |g.nodes| ==>
         g'.nodes[n].userGuid == g.nodes[n].userGuid && g'.nodes[n].job == g.nodes[n].job
  }

  lemma IndexedKept(g: Group, g': Group)
    requires g'.count == g.count && g'.list == g.list && g'.managers == g.managers && g'.members == g.members
    requires |g'.nodes| == |g.nodes| && forall n :: 0 <= n < |g.nodes| ==> g'.nodes[n].userGuid == g.nodes[n].userGuid
    requires Indexed(g)
    ensures Indexed(g')
  {
    hide Groups.Count;
    forall n <- g'.list
      ensures InIndex(g', n)
    {
      assert InIndex(g, n);
    }
  }

  lemma RolesKept(g: Group, g': Group)
    requires SameRoles(g, g') && Rep(g)
    ensures Rep(g')
  {
    IndexedKept(g, g');
  }

  lemma {:induction false} CountedRoles(g: Group, users: set<guid>, userConn: map<guid, int>, sender: guid, i: nat)
    requires Linked(g) && i <= |Visited(g, users)|
    ensures SameRoles(g, Counted(g, users, userConn, sender, i))
  {
    hide Visited, VisitedNode, Linked;
    VisitedFacts(g, users);
    if i > 0 {
      CountedRoles(g, users, userConn, sender, i - 1);
    }
  }

  lemma FanoutRep(s: Server, g: Group, m: Msg)
    requires GroupSane(g) && Rep(g)
    ensures Rep(FanoutGroup(s, g, m))
  {
    LogSane(g, m);
    RepLog(g, AddMsg(g, m));
    hide AddMsg, Rep, Linked, LogCounted, Visited, Counted, Servers.Fits;
    var g1 := AddMsg(g, m);
    CountedRoles(g1, s.users.Keys, s.userConn, m.send, |Visited(g1, s.users.Keys)|);
    if Servers.Fits(g, m) {
      RolesKept(g1, FanoutGroup(s, g, m));
    }
  }

  lemma {:induction false} EnrolledJobs(g: Group, users: map<guid, User>, i: nat, n: Node)
    requires Linked(g) && i <= |Visited(g, users.Keys)| && 0 <= n < |g.nodes|
    ensures Enroll(g, users, i).nodes[n].job
         == if !Hit(g, users.Keys, i, n) then g.nodes[n].job
            else if g.leader == g.nodes[n].userGuid then JOB_LEADER else JOB_MEMBER
  {
    hide Visited, VisitedNode, Linked;
    VisitedFacts(g, users.Keys);
    if i > 0 {
      EnrolledJobs(g, users, i - 1, n);
      var k := VisitedNode(g, users.Keys, i - 1);
      if k == n {
        assert Hit(g, users.Keys, i, n);
      } else {
        assert Hit(g, users.Keys, i, n) <==> Hit(g, users.Keys, i - 1, n);
      }
    }
  }

  lemma {:induction false} EnrolledPermission(g: Group, users: map<guid, User>, i: nat, n: Node)
    requires Linked(g) && i <= |Visited(g, users.Keys)| && 0 <= n < |g.nodes|
    ensures Enroll(g, users, i).nodes[n].permissions
         == if Hit(g, users.Keys, i, n) then SEND_TO_GROUP else g.nodes[n].permissions
  {
    hide Visited, VisitedNode, Linked;
    VisitedFacts(g, users.Keys);
    if i > 0 {
      EnrolledPermission(g, users, i - 1, n);
      if VisitedNode(g, users.Keys, i - 1) == n {
        assert Hit(g, users.Keys, i, n);
      } else {
        assert Hit(g, users.Keys, i, n) <==> Hit(g, users.Keys, i - 1, n);
      }
    }
  }

  lemma HitIsVisited(g: Group, users: set<guid>, n: Node)
    requires Indexed(g) && n in g.list
    ensures Hit(g, users, |Visited(g, users)|, n) <==> g.nodes[n].userGuid in Visited(g, users)
  {
    var u, keys := g.nodes[n].userGuid, Visited(g, users);
    assert InIndex(g, n);
    assert u in Keys(g) && Lookup(g, u) == n;
    hide Visited, VisitedNode, InIndex;
    if u in keys {
      var k :| 0 <= k < |keys| && keys[k] == u;
      NodeIsEntry(g, users, k);
      assert VisitedNode(g, users, k) == n;
    }
    if Hit(g, users, |keys|, n) {
      var k :| 0 <= k < |keys| && VisitedNode(g, users, k) == n;
      NodeIsEntry(g, users, k);
      LookupInRange(g, keys[k]);
    }
  }

  /** A new group meets the representation invariant exactly when the roles it was sent with fit the
      jobs it is given. */
  lemma EnrollRep(g: Group, users: map<guid, User>)
    requires GroupSane(g)
    ensures Rep(Enroll(g, users, |Visited(g, users.Keys)|)) <==> Indexed(g) && RolesFit(g, users.Keys)
  {
    var i := |Visited(g, users.Keys)|;
    var g' := Enroll(g, users, i);
    EnrollSane(g, users, i);
    hide Visited, Enroll, LogCounted;
    if Indexed(g') {
      IndexedKept(g', g);
    }
    if Indexed(g) {
      IndexedKept(g, g');
      EnrollRoles(g, users);
    }
  }

  lemma EnrollRoles(g: Group, users: map<guid, User>)
    requires Indexed(g) && Linked(Enroll(g, users, |Visited(g, users.Keys)|))
    ensures JobsAgree(Enroll(g, users, |Visited(g, users.Keys)|)) <==> RolesFit(g, users.Keys)
  {
    hide Visited, Enroll, Indexed;
    var i := |Visited(g, users.Keys)|;
    var g' := Enroll(g, users, i);
    forall n <- g.list
      ensures var u := g.nodes[n].userGuid;
        u in Keys(g) && Lookup(g, u) == n
        && (ManagerJob(g'.nodes[n].job) <==> if u in Visited(g, users.Keys) then u == g.leader
           else ManagerJob(Entry(g, u).job))
    {
      ListedIsKey(g, n);
      HitIsVisited(g, users.Keys, n);
      EnrolledJobs(g, users, i, n);
    }
    forall u <- Keys(g)
      ensures Lookup(g, u) in g.list && g.nodes[Lookup(g, u)].userGuid == u
    {
      LookupInRange(g, u);
    }
  }

  lemma ListedIsKey(g: Group, n: Node)
    requires Indexed(g) && n in g.list
    ensures g.nodes[n].userGuid in Keys(g) && Lookup(g, g.nodes[n].userGuid) == n
  {
    assert InIndex(g, n);
  }

  lemma ExpelRep(g: Group, u: guid)
    requires GroupSane(g) && Rep(g)
    ensures Rep(Expel(g, u)) && Rep(ExpelFromRoom(g, u))
  {
    LinkedMove(g, g.leader, u);
    hide DeleteMember, DeleteManager, Rep, LogCounted;
    RepDemote(g, g.leader, u);
    RepDelete(g, g.leader, u);
    RepDelete(DeleteManager(g, g.leader, u), g.leader, u);
  }

  // ---------------------------------------------------------------- steps

  lemma PutRep(groups: map<guid, Group>, g: guid, x: Group)
    requires AllRep(groups)
    ensures AllRep(groups[g := x]) <==> Rep(x)
  {
    hide Rep;
    assert g in groups[g := x];
  }

  lemma RosterAfterAdd(s: Server, w: User, now: int, fd: int)
    requires Defined(s, EAcountAdd(w, now, fd)) && AllGroupsRep(s)
    ensures AllGroupsRep(AcountAdd(s, w, now, fd)) <==> RosterSafe(s, EAcountAdd(w, now, fd))
  {
    hide Out, Broadcast, AddMember, Linked, LogCounted, Rep;
    if PhoneUnique(s, w.phone) == ERROR_OK {
      var u := Registrant(s, w).(regTime := now, online := STATUS_ON_LINE);
      var room := s.groups[ROOM].(leader := if |s.users[u.id := u]| == 1 then u.id else s.groups[ROOM].leader);
      LeaderRep(s.groups[ROOM], room.leader);
      EnterRep(room, u);
      PutRep(s.groups, ROOM, AddMember(room, 0, u.id, u.icon, u.name));
    }
  }

  lemma LeaderRep(g: Group, leader: guid)
    requires Rep(g)
    ensures Rep(g.(leader := leader))
  {
    RolesKept(g, g.(leader := leader));
  }

  lemma EnterRep(room: Group, u: User)
    requires Rep(room)
    ensures Rep(AddMember(room, 0, u.id, u.icon, u.name)) <==> u.id !in room.managers
  {
    hide AddMember;
    if CanAdd(room, 0, u.id) {
      RepAdd(room, 0, u.id, u.icon, u.name);
    } else {
      RefusedAdd(room, 0, u.id, u.icon, u.name);
    }
  }

  lemma RosterAfterDelete(s: Server, u: guid, fd: int)
    requires Defined(s, EAcountDelete(u, fd)) && AllGroupsRep(s)
    ensures AllGroupsRep(AcountDelete(s, u, fd))
  {
    hide Ack, Broadcast, Expel, ExpelFromRoom, Linked, LogCounted, Rep;
    var s0 := s.(connUser := Bracket(s.connUser, fd));
    if u == s0.connUser[fd] {
      UnregisterSane(s0, u);
      var s1 := Unbind(Unregister(s0, u), u);
      forall g <- s.groups
        ensures GroupSane(s.groups[g]) && Rep(Expel(s.groups[g], u))
      {
        ExpelRep(s.groups[g], u);
      }
      assert AllRep(s1.groups);
      ExpelRep(s1.groups[ROOM], u);
      PutRep(s1.groups, ROOM, ExpelFromRoom(s1.groups[ROOM], u));
    }
  }

  lemma RosterAfterCreate(s: Server, info: Group, now: int, fd: int)
    requires Defined(s, EGroupAdd(info, now, fd)) && AllGroupsRep(s)
    ensures AllGroupsRep(GroupAdd(s, info, now, fd)) <==> RosterSafe(s, EGroupAdd(info, now, fd))
  {
    hide Ack, Visited, Enroll, Linked, LogCounted, Rep, Indexed, RolesFit;
    EnrollRep(info, s.users);
    PutRep(s.groups, info.id, Enroll(info, s.users, |Visited(info, s.users.Keys)|));
  }

  /** The operation a modification performs on its group. */
  function OpOf(s: Server, o: guid, t: guid, kind: u8, permission: u8): Op
    requires t in s.users
  {
    if kind == MEMBER_ADD then OpAdd(o, t, s.users[t].icon, s.users[t].name)
    else if kind == MEMBER_DELETE then OpDelete(o, t)
    else if kind == MEMBER_SET_PERMISSION then OpChange(o, t, permission)
    else if kind == MANAGER_ADD then OpPromote(o, t)
    else OpDemote(o, t)
  }

  /** The server's modifications are the group's operations. */
  lemma ModifyIsOp(s: Server, g: guid, o: guid, t: guid, k: u8, p: u8, now: int, fd: int)
    requires Defined(s, EGroupModify(g, o, t, k, p, now, fd))
    ensures GroupModify(s, g, o, t, k, p, now, fd).groups
      == if k < MODIFY_TYPE_MAX && g in s.groups && o != 0 && o in s.users && t != 0 && t in s.users
         then s.groups[g := Groups.Apply(s.groups[g], OpOf(s, o, t, k, p))] else s.groups
  {
    hide Ack, Broadcast, ChangePermissions, AddManager, DeleteManager, Linked, LogCounted;
  }

  lemma RosterAfterModify(s: Server, g: guid, o: guid, t: guid, k: u8, p: u8, now: int, fd: int)
    requires Defined(s, EGroupModify(g, o, t, k, p, now, fd)) && AllGroupsRep(s)
    ensures AllGroupsRep(GroupModify(s, g, o, t, k, p, now, fd)) <==> !Duplicates(s, g, o, t, k)
  {
    ModifyIsOp(s, g, o, t, k, p, now, fd);
    hide GroupModify, Groups.Apply, Linked, LogCounted, Rep;
    if k < MODIFY_TYPE_MAX && g in s.groups && o != 0 && o in s.users && t != 0 && t in s.users {
      RepStep(s.groups[g], OpOf(s, o, t, k, p));
      PutRep(s.groups, g, Groups.Apply(s.groups[g], OpOf(s, o, t, k, p)));
    }
  }

  lemma RosterAfterDispatch(s: Server, now: int)
    requires Defined(s, EDispatch(now)) && AllGroupsRep(s)
    ensures AllGroupsRep(Dispatch(s, now))
  {
    hide Ack, FanoutGroup, FanoutUsers, FanoutSends, Linked, LogCounted, Rep, Blocked;
    var m := s.queue[0];
    if m.recv in s.groups {
      FanoutRep(s, s.groups[m.recv], m);
      PutRep(s.groups, m.recv, FanoutGroup(s, s.groups[m.recv], m));
    }
  }

  /** Exactly when a request keeps every group's indexes, count and jobs right. */
  lemma RosterStep(s: Server, e: Event)
    requires Defined(s, e) && AllGroupsRep(s)
    ensures AllGroupsRep(Handle(s, e)) <==> RosterSafe(s, e)
  {
    hide AcountAdd, AcountModify, AcountDelete, AcountLogin, AcountLogout, Close, GroupAdd, GroupModify, GroupDelete;
    hide MsgSend, MsgListReq, Dispatch, Ack, Linked, LogCounted, Rep, Indexed, RolesFit;
    match e
    case EAcountAdd(w, now, fd) => RosterAfterAdd(s, w, now, fd);
    case EAcountDelete(u, fd) => RosterAfterDelete(s, u, fd);
    case EGroupAdd(info, now, fd) => RosterAfterCreate(s, info, now, fd);
    case EGroupModify(g, o, t, k, p, now, fd) => RosterAfterModify(s, g, o, t, k, p, now, fd);
    case EGroupDelete(g, o, fd) => RosterAfterErase(s, g, o, fd);
    case EDispatch(now) => RosterAfterDispatch(s, now);
    case _ =>
  }

  lemma RosterAfterErase(s: Server, g: guid, o: guid, fd: int)
    requires AllGroupsRep(s)
    ensures AllGroupsRep(GroupDelete(s, g, o, fd))
  {
    hide Ack, Visited, Rep;
  }

  /** Every group keeps its representation invariant on every run of safe requests. */
  lemma RosterRun(ss: seq<Server>, es: seq<Event>, n: nat)
    requires IsRun(ss, es) && n <= |es| && AllGroupsRep(ss[0])
    requires forall i :: 0 <= i < n ==> RosterSafe(ss[i], es[i])
    ensures AllGroupsRep(ss[n])
  {
    hide Handle, Defined, AllGroupsRep, RosterSafe;
    forall s, e | AllGroupsRep(s) && Defined(s, e) && RosterSafe(s, e)
      ensures AllGroupsRep(Handle(s, e))
    {
      RosterStep(s, e);
    }
    RunKeeps(ss, es, s => AllGroupsRep(s), (s, e) => Defined(s, e) && RosterSafe(s, e), n);
  }
}
