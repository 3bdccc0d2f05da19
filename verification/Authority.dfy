/** Permissions and managers over runs of the server: no request lowers a permission below the floor,
    and only a group's leader, or the account of a manager going, changes who manages it. */
module Authority {
  import opened Bytes
  import opened Packets
  import opened Groups
  import opened GroupRuns
  import opened Users
  import opened Servers
  import opened ServerRuns
  import opened Membership
  import opened Fanouts
  import opened Rosters
  import opened Quotas

  // ---------------------------------------------------------------- the permission floor

  ghost predicate Floored(g: Group, floor: int) { Linked(g) && AtLeast(g, floor) }

  ghost predicate AllFloored(groups: map<guid, Group>, floor: int) {
    forall g <- groups :: Floored(groups[g], floor)
  }

  /** A new group brings no smaller permission for a member the traversal does not reach; those it
      reaches are given the smallest one. */
  ghost predicate FloorSafe(s: Server, e: Event, floor: int)
    requires Defined(s, e)
  {
    match e
    case EGroupAdd(info, _, _) =>
      Creates(s, info) ==>
        forall n <- info.list :: NodeReached(info, s.users.Keys, n) || floor <= info.nodes[n].permissions
    case _ => true
  }

  lemma PutFloored(groups: map<guid, Group>, g: guid, x: Group, floor: int)
    requires AllFloored(groups, floor)
    ensures AllFloored(groups[g := x], floor) <==> Floored(x, floor)
  {
    hide Floored;
    assert g in groups[g := x];
  }

  lemma FloorAfterOp(g: Group, op: Op, floor: int)
    requires Floored(g, floor) && floor <= SEND_TO_GROUP
    ensures Floored(Groups.Apply(g, op), floor)
  {
    hide Linked, Groups.Apply, AtLeast;
    FloorStep(g, op, floor);
  }

  lemma FloorAfterAdd(s: Server, w: User, now: int, fd: int, floor: int)
    requires Defined(s, EAcountAdd(w, now, fd)) && AllFloored(s.groups, floor) && floor <= SEND_TO_GROUP
    ensures AllFloored(AcountAdd(s, w, now, fd).groups, floor)
  {
    hide Out, Broadcast, AddMember, Linked, LogCounted, Floored, Inc32;
    if PhoneUnique(s, w.phone) == ERROR_OK {
      var u := Registrant(s, w).(regTime := now, online := STATUS_ON_LINE);
      var room := s.groups[ROOM].(leader := if |s.users[u.id := u]| == 1 then u.id else s.groups[ROOM].leader);
      FlooredLeader(s.groups[ROOM], room.leader, floor);
      FloorAfterOp(room, OpAdd(0, u.id, u.icon, u.name), floor);
      PutFloored(s.groups, ROOM, AddMember(room, 0, u.id, u.icon, u.name), floor);
    }
  }

  lemma FlooredLeader(g: Group, leader: guid, floor: int)
    requires Floored(g, floor)
    ensures Floored(g.(leader := leader), floor)
  {
  }

  lemma FloorAfterExpel(g: Group, v: guid, floor: int)
    requires Floored(g, floor) && floor <= SEND_TO_GROUP
    ensures Linked(g) && Floored(Expel(g, v), floor) && Floored(ExpelFromRoom(g, v), floor)
  {
    LinkedMove(g, g.leader, v);
    hide DeleteMember, DeleteManager, Linked, AtLeast;
    FloorAfterOp(g, OpDemote(g.leader, v), floor);
    FloorAfterOp(g, OpDelete(g.leader, v), floor);
    FloorAfterOp(DeleteManager(g, g.leader, v), OpDelete(g.leader, v), floor);
  }

  lemma FlooredAt(groups: map<guid, Group>, g: guid, floor: int)
    requires AllFloored(groups, floor) && g in groups
    ensures Floored(groups[g], floor) && Linked(groups[g])
  {
  }

  lemma FloorAfterUnregister(s: Server, v: guid, floor: int)
    requires Sane(s) && AllFloored(s.groups, floor) && floor <= SEND_TO_GROUP
    ensures AllFloored(Unregister(s, v).groups, floor)
  {
    hide Expel, Linked, LogCounted, Floored, UsersSane;
    forall g <- s.groups
      ensures Linked(s.groups[g]) && Floored(Expel(s.groups[g], v), floor)
    {
      FloorAfterExpel(s.groups[g], v, floor);
    }
  }

  lemma FloorAfterDelete(s: Server, v: guid, fd: int, floor: int)
    requires Defined(s, EAcountDelete(v, fd)) && AllFloored(s.groups, floor) && floor <= SEND_TO_GROUP
    ensures AllFloored(AcountDelete(s, v, fd).groups, floor)
  {
    hide AcountDelete, Expel, ExpelFromRoom, Linked, LogCounted, Floored, AllFloored, UsersSane;
    DeletedGroups(s, v, fd);
    var s0 := s.(connUser := Bracket(s.connUser, fd));
    var gs := Unregister(s0, v).groups;
    FloorAfterUnregister(s0, v, floor);
    if v == s0.connUser[fd] {
      FlooredAt(gs, ROOM, floor);
      FloorAfterExpel(gs[ROOM], v, floor);
      PutFloored(gs, ROOM, ExpelFromRoom(gs[ROOM], v), floor);
    }
  }

  lemma EnrolledFloor(g: Group, users: map<guid, User>, floor: int)
    requires GroupSane(g) && floor <= SEND_TO_GROUP
    ensures Floored(Enroll(g, users, |Visited(g, users.Keys)|), floor)
      <==> forall n <- g.list :: NodeReached(g, users.Keys, n) || floor <= g.nodes[n].permissions
  {
    var i := |Visited(g, users.Keys)|;
    EnrollSane(g, users, i);
    hide Visited, Enroll, LogCounted, NodeReached, Hit, Points, Apart, Distinct;
    forall n <- g.list
      ensures Enroll(g, users, i).nodes[n].permissions
        == if NodeReached(g, users.Keys, n) then SEND_TO_GROUP else g.nodes[n].permissions
    {
      EnrolledPermission(g, users, i, n);
      HitIsReached(g, users.Keys, n);
    }
  }

  lemma FloorAfterCreate(s: Server, info: Group, now: int, fd: int, floor: int)
    requires Defined(s, EGroupAdd(info, now, fd)) && AllFloored(s.groups, floor) && floor <= SEND_TO_GROUP
    ensures AllFloored(GroupAdd(s, info, now, fd).groups, floor) <==> FloorSafe(s, EGroupAdd(info, now, fd), floor)
  {
    CreatedGroups(s, info, now, fd);
    EnrolledFloor(info, s.users, floor);
    hide GroupAdd, Visited, Enroll, Linked, LogCounted, Floored, NodeReached, GroupsSane, UsersSane;
    PutFloored(s.groups, info.id, Enroll(info, s.users, |Visited(info, s.users.Keys)|), floor);
  }

  lemma FloorAfterModify(s: Server, g: guid, o: guid, t: guid, k: u8, p: u8, now: int, fd: int, floor: int)
    requires Defined(s, EGroupModify(g, o, t, k, p, now, fd)) && AllFloored(s.groups, floor) && floor <= SEND_TO_GROUP
    ensures AllFloored(GroupModify(s, g, o, t, k, p, now, fd).groups, floor)
  {
    ModifyIsOp(s, g, o, t, k, p, now, fd);
    hide GroupModify, Groups.Apply, Linked, LogCounted, Floored;
    if g in s.groups && t in s.users {
      FloorAfterOp(s.groups[g], OpOf(s, o, t, k, p), floor);
      PutFloored(s.groups, g, Groups.Apply(s.groups[g], OpOf(s, o, t, k, p)), floor);
    }
  }

  /** Delivering a message changes no roles and no permissions. */
  ghost predicate SamePowers(g: Group, g': Group) {
    && g'.list == g.list && g'.managers == g.managers && g'.members == g.members && g'.leader == g.leader
    && |g'.nodes| == |g.nodes|
    && forall n :: 0 <= n < |g.nodes| ==> g'.nodes[n].permissions == g.nodes[n].permissions
  }

  lemma FanoutPowers(s: Server, g: Group, m: Msg)
    requires GroupSane(g)
    ensures Linked(FanoutGroup(s, g, m)) && SamePowers(g, FanoutGroup(s, g, m))
  {
    FanoutGroupSane(s, g, m);
    LogKeepsMembers(g, m);
    hide AddMsg, Counted, Visited, Servers.Fits, Linked, LogCounted, NodeReached;
    if Servers.Fits(g, m) {
      FanoutCounts(s, g, m);
    }
  }

  lemma FlooredPowers(g: Group, g': Group, floor: int)
    requires Floored(g, floor) && Linked(g') && SamePowers(g, g')
    ensures Floored(g', floor)
  {
  }

  lemma FloorAfterDispatch(s: Server, now: int, floor: int)
    requires Defined(s, EDispatch(now)) && AllFloored(s.groups, floor)
    ensures AllFloored(Dispatch(s, now).groups, floor)
  {
    hide Dispatch, Floored, GroupsSane, UsersSane;
    DispatchKeys(s, now);
    forall g <- s.groups
      ensures g in Dispatch(s, now).groups && Floored(Dispatch(s, now).groups[g], floor)
    {
      FloorOfDispatched(s, now, g, floor);
    }
  }

  lemma FloorOfDispatched(s: Server, now: int, g: guid, floor: int)
    requires Defined(s, EDispatch(now)) && g in s.groups && Floored(s.groups[g], floor)
    ensures g in Dispatch(s, now).groups && Floored(Dispatch(s, now).groups[g], floor)
  {
    hide Dispatch, FanoutGroup, Floored, SamePowers, Linked, GroupSane, GroupsSane, UsersSane;
    SaneAt(s, g);
    DispatchedGroup(s, now, g);
    FanoutPowers(s, s.groups[g], s.queue[0]);
    if Dispatch(s, now).groups[g] != s.groups[g] {
      FlooredPowers(s.groups[g], FanoutGroup(s, s.groups[g], s.queue[0]), floor);
    }
  }

  lemma DispatchKeys(s: Server, now: int)
    requires Defined(s, EDispatch(now))
    ensures Dispatch(s, now).groups.Keys == s.groups.Keys
  {
    hide Ack, FanoutGroup, FanoutUsers, FanoutSends, Linked, LogCounted, Blocked;
  }

  lemma FloorAfterErase(s: Server, g: guid, o: guid, fd: int, floor: int)
    requires AllFloored(s.groups, floor)
    ensures AllFloored(GroupDelete(s, g, o, fd).groups, floor)
  {
    hide Ack, Visited, Floored;
  }

  /** Exactly when a request leaves no permission below a floor that is at most the smallest value. */
  lemma PermissionStep(s: Server, e: Event, floor: int)
    requires Defined(s, e) && AllFloored(s.groups, floor) && floor <= SEND_TO_GROUP
    ensures AllFloored(Handle(s, e).groups, floor) <==> FloorSafe(s, e, floor)
  {
    hide AcountAdd, AcountModify, AcountDelete, AcountLogin, AcountLogout, Close, GroupAdd, GroupModify, GroupDelete;
    hide MsgSend, MsgListReq, GroupInfoReq, BriefInfoReq, Dispatch, Ack, Linked, LogCounted, AllFloored, NodeReached;
    match e
    case EAcountAdd(w, now, fd) => FloorAfterAdd(s, w, now, fd, floor);
    case EAcountDelete(v, fd) => FloorAfterDelete(s, v, fd, floor);
    case EGroupAdd(info, now, fd) => FloorAfterCreate(s, info, now, fd, floor);
    case EGroupModify(g, o, t, k, p, now, fd) => FloorAfterModify(s, g, o, t, k, p, now, fd, floor);
    case EGroupDelete(g, o, fd) => FloorAfterErase(s, g, o, fd, floor);
    case EDispatch(now) => FloorAfterDispatch(s, now, floor);
    case _ => GroupsKept(s, e);
  }

  /** No run lowers a permission of any group below such a floor. */
  lemma PermissionRun(ss: seq<Server>, es: seq<Event>, floor: int, n: nat)
    requires IsRun(ss, es) && n <= |es| && AllFloored(ss[0].groups, floor) && floor <= SEND_TO_GROUP
    requires forall i :: 0 <= i < n ==> FloorSafe(ss[i], es[i], floor)
    ensures AllFloored(ss[n].groups, floor)
  {
    hide Handle, Defined, AllFloored, FloorSafe;
    forall s: Server, e | AllFloored(s.groups, floor) && Defined(s, e) && FloorSafe(s, e, floor)
      ensures AllFloored(Handle(s, e).groups, floor)
    {
      PermissionStep(s, e, floor);
    }
    RunKeeps(ss, es, (s: Server) => AllFloored(s.groups, floor), (s, e) => Defined(s, e) && FloorSafe(s, e, floor), n);
  }

  // ---------------------------------------------------------------- who manages a group

  /** The requests that may change who manages group `id`, or what its managers may do: those of its
      leader, deleting a manager's account, founding the group anew, and, in the public room,
      registering the first user or the room's own leader. */
  ghost predicate Entitled(s: Server, e: Event, id: guid)
    requires Defined(s, e) && id in s.groups
  {
    match e
    case EAcountAdd(w, _, _) =>
      id == ROOM && PhoneUnique(s, w.phone) == ERROR_OK
      && (s.users.Keys <= {Registrant(s, w).id} || Registrant(s, w).id == s.groups[ROOM].leader)
    case EAcountDelete(v, fd) => v == Bracket(s.connUser, fd)[fd] && v in s.groups[id].managers
    case EGroupAdd(info, _, _) => info.id == id && Creates(s, info)
    case EGroupModify(g, o, _, _, _, _, _) => g == id && o == s.groups[id].leader
    case EGroupDelete(g, o, _) => g == id && o == s.groups[id].leader
    case _ => false
  }

  /** The same leader, the same managers, and their permissions the same. */
  ghost predicate SameRule(g: Group, g': Group) { Linked(g) && Linked(g') && SameManagers(g, g') }

  lemma SameRuleItself(g: Group)
    requires Linked(g)
    ensures SameRule(g, g)
  {
  }

  lemma SameRuleTwice(g: Group, g': Group, g'': Group)
    requires SameRule(g, g') && SameRule(g', g'')
    ensures SameRule(g, g'')
  {
  }

  lemma RuleAfterAdd(s: Server, w: User, now: int, fd: int, id: guid)
    requires Defined(s, EAcountAdd(w, now, fd)) && id in s.groups && !Entitled(s, EAcountAdd(w, now, fd), id)
    ensures id in AcountAdd(s, w, now, fd).groups && SameRule(s.groups[id], AcountAdd(s, w, now, fd).groups[id])
  {
    SaneAt(s, id);
    SameRuleItself(s.groups[id]);
    hide Out, Broadcast, AddMember, Linked, LogCounted, SameRule, Inc32;
    if PhoneUnique(s, w.phone) == ERROR_OK && id == ROOM {
      var u := Registrant(s, w).(regTime := now, online := STATUS_ON_LINE);
      OtherUsers(s.users, u);
      RuleAfterEntry(s.groups[ROOM], u);
    }
  }

  lemma OtherUsers(users: map<guid, User>, u: User)
    requires !(users.Keys <= {u.id})
    ensures |users[u.id := u]| != 1
  {
    var keys := users[u.id := u].Keys;
    assert keys == {u.id} + (users.Keys - {u.id}) && users.Keys - {u.id} != {};
    assert |users[u.id := u]| == |keys| == 1 + |users.Keys - {u.id}|;
  }

  lemma RuleAfterEntry(room: Group, u: User)
    requires Linked(room) && u.id != room.leader
    ensures SameRule(room, AddMember(room, 0, u.id, u.icon, u.name))
  {
    LinkedAdd(room, 0, u.id, u.icon, u.name);
    hide Groups.Count, Inc32;
  }

  lemma RuleAfterExpel(g: Group, v: guid)
    requires Linked(g) && v !in g.managers
    ensures SameRule(g, Expel(g, v)) && SameRule(g, ExpelFromRoom(g, v)) && v !in Expel(g, v).managers
  {
    LinkedMove(g, g.leader, v);
    LinkedDelete(g, g.leader, v);
    hide Groups.Count, Dec32, Without;
  }

  lemma RuleAfterDelete(s: Server, v: guid, fd: int, id: guid)
    requires Defined(s, EAcountDelete(v, fd)) && id in s.groups && !Entitled(s, EAcountDelete(v, fd), id)
    ensures id in AcountDelete(s, v, fd).groups && SameRule(s.groups[id], AcountDelete(s, v, fd).groups[id])
  {
    SaneAt(s, id);
    SameRuleItself(s.groups[id]);
    DeletedGroups(s, v, fd);
    hide AcountDelete, Expel, ExpelFromRoom, Linked, LogCounted, SameRule, UsersSane, GroupSane;
    var s0 := s.(connUser := Bracket(s.connUser, fd));
    if v == s0.connUser[fd] {
      var x, y := s.groups[id], Unregister(s0, v).groups[id];
      SaneAt(Unregister(s0, v), id) by { UnregisterSane(s0, v); }
      RuleAfterExpel(x, v);
      assert y in {x, Expel(x, v)};
      RuleAfterExpel(y, v);
      SameRuleTwice(x, y, ExpelFromRoom(y, v));
    }
  }

  lemma RuleAfterModify(s: Server, g: guid, o: guid, t: guid, k: u8, p: u8, now: int, fd: int, id: guid)
    requires Defined(s, EGroupModify(g, o, t, k, p, now, fd)) && id in s.groups
    requires !Entitled(s, EGroupModify(g, o, t, k, p, now, fd), id)
    ensures var s' := GroupModify(s, g, o, t, k, p, now, fd);
      id in s'.groups && SameRule(s.groups[id], s'.groups[id])
  {
    ModifyIsOp(s, g, o, t, k, p, now, fd);
    SaneAt(s, id);
    SameRuleItself(s.groups[id]);
    hide GroupModify, Groups.Apply, Linked, LogCounted, SameManagers;
    if g == id && o != 0 && t in s.users {
      OutsiderStep(s.groups[id], OpOf(s, o, t, k, p));
    }
  }

  lemma RulePowers(g: Group, g': Group)
    requires Linked(g) && Linked(g') && SamePowers(g, g')
    ensures SameRule(g, g')
  {
  }

  lemma RuleAfterDispatch(s: Server, now: int, id: guid)
    requires Defined(s, EDispatch(now)) && id in s.groups
    ensures id in Dispatch(s, now).groups && SameRule(s.groups[id], Dispatch(s, now).groups[id])
  {
    DispatchedGroup(s, now, id);
    SaneAt(s, id);
    SameRuleItself(s.groups[id]);
    FanoutPowers(s, s.groups[id], s.queue[0]);
    hide Dispatch, FanoutGroup, SameRule, SamePowers, Linked, GroupSane;
    if Dispatch(s, now).groups[id] != s.groups[id] {
      RulePowers(s.groups[id], FanoutGroup(s, s.groups[id], s.queue[0]));
    }
  }

  lemma RuleAfterCreate(s: Server, info: Group, now: int, fd: int, id: guid)
    requires Defined(s, EGroupAdd(info, now, fd)) && id in s.groups && !Entitled(s, EGroupAdd(info, now, fd), id)
    ensures id in GroupAdd(s, info, now, fd).groups && SameRule(s.groups[id], GroupAdd(s, info, now, fd).groups[id])
  {
    SaneAt(s, id);
    SameRuleItself(s.groups[id]);
    CreatedGroups(s, info, now, fd);
    hide GroupAdd, Visited, Enroll, Linked, LogCounted, SameRule, GroupsSane, UsersSane;
  }

  lemma RuleAfterErase(s: Server, g: guid, o: guid, fd: int, id: guid)
    requires Sane(s) && id in s.groups && !(g == id && o == s.groups[id].leader)
    ensures id in GroupDelete(s, g, o, fd).groups && SameRule(s.groups[id], GroupDelete(s, g, o, fd).groups[id])
  {
    SaneAt(s, id);
    SameRuleItself(s.groups[id]);
    hide Ack, Visited, Linked, SameRule, GroupsSane, UsersSane;
  }

  lemma RuleStep(s: Server, e: Event, id: guid)
    requires Defined(s, e) && id in s.groups && !Entitled(s, e, id)
    ensures id in Handle(s, e).groups && SameRule(s.groups[id], Handle(s, e).groups[id])
  {
    hide AcountAdd, AcountModify, AcountDelete, AcountLogin, AcountLogout, Close, GroupAdd, GroupModify, GroupDelete;
    hide MsgSend, MsgListReq, GroupInfoReq, BriefInfoReq, Dispatch, Ack, Linked, LogCounted, SameRule;
    match e
    case EAcountAdd(w, now, fd) => RuleAfterAdd(s, w, now, fd, id);
    case EAcountDelete(v, fd) => RuleAfterDelete(s, v, fd, id);
    case EGroupAdd(info, now, fd) => RuleAfterCreate(s, info, now, fd, id);
    case EGroupModify(g, o, t, k, p, now, fd) => RuleAfterModify(s, g, o, t, k, p, now, fd, id);
    case EGroupDelete(g, o, fd) => RuleAfterErase(s, g, o, fd, id);
    case EDispatch(now) => RuleAfterDispatch(s, now, id);
    case _ =>
      GroupsKept(s, e);
      SaneAt(s, id);
      SameRuleItself(s.groups[id]);
  }

  /** Safety of the managers, for the whole server: in a run without such requests the group stays, with
      the same leader and the same managers, and every manager's permission is what it was. */
  lemma {:induction false} OthersCannotTouchManagers(ss: seq<Server>, es: seq<Event>, id: guid, n: nat)
    requires IsRun(ss, es) && n <= |es| && id in ss[0].groups && Linked(ss[0].groups[id])
    requires forall i :: 0 <= i < n && id in ss[i].groups ==> !Entitled(ss[i], es[i], id)
    ensures id in ss[n].groups && SameRule(ss[0].groups[id], ss[n].groups[id])
  {
    hide Handle, Defined, SameRule, Entitled;
    if n > 0 {
      OthersCannotTouchManagers(ss, es, id, n - 1);
      var i := n - 1;
      assert Defined(ss[i], es[i]) && ss[i + 1] == Handle(ss[i], es[i]);
      RuleStep(ss[i], es[i], id);
      SameRuleTwice(ss[0].groups[id], ss[i].groups[id], ss[n].groups[id]);
    } else {
      SameRuleItself(ss[0].groups[id]);
    }
  }
}
