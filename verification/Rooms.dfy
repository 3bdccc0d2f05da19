/** The public room: when all its members are registered, so that traversals of it stop nowhere. */
module Rooms {
  import opened Bytes
  import opened Packets
  import opened Groups
  import opened GroupRuns
  import opened Users
  import opened Servers
  import opened ServerRuns
  import opened Membership
  import opened Ownership
  import opened Fanouts
  import opened Rosters

  ghost predicate RoomClosed(users: map<guid, User>, groups: map<guid, Group>) {
    forall u :: Lists(groups, ROOM, u) ==> u in users
  }

  ghost predicate RoomRegistered(s: Server) { RoomClosed(s.users, s.groups) }

  /** Deleting a user's account takes the user out of the room only if its leader is another user who
      is a manager; a user with two roles must have joined the room like any other group. */
  predicate LeavesRoom(room: Group, u: guid, joined: bool) {
    room.leader != u && room.leader in room.managers && (u in room.managers && u in room.members ==> joined)
  }

  ghost predicate RoomSafe(s: Server, e: Event)
    requires Defined(s, e)
  {
    match e
    case EAcountDelete(u, fd) =>
      u == Bracket(s.connUser, fd)[fd] && u in s.users && u in Keys(s.groups[ROOM]) ==>
        LeavesRoom(s.groups[ROOM], u, ROOM in s.users[u].joined)
    case EGroupAdd(info, _, _) => Creates(s, info) && info.id == ROOM ==> forall u <- Keys(info) :: u in s.users
    case _ => true
  }

  // ---------------------------------------------------------------- the room's members after each request

  /** The room has gained registered members only. */
  ghost predicate RoomGrows(s: Server, s': Server) {
    ROOM in s'.groups ==>
      ROOM in s.groups && forall u <- Keys(s'.groups[ROOM]) :: u in Keys(s.groups[ROOM]) || u in s'.users
  }

  lemma RoomAfterAdd(s: Server, w: User, now: int, fd: int)
    requires Defined(s, EAcountAdd(w, now, fd))
    ensures var s' := AcountAdd(s, w, now, fd); s.users.Keys <= s'.users.Keys && RoomGrows(s, s')
  {
    hide Out, Broadcast, AddMember, Linked, LogCounted, Keys, Inc32;
    if PhoneUnique(s, w.phone) == ERROR_OK {
      var u := Registrant(s, w).(regTime := now, online := STATUS_ON_LINE);
      var room := s.groups[ROOM].(leader := if |s.users[u.id := u]| == 1 then u.id else s.groups[ROOM].leader);
      AddKeys(s.groups[ROOM], room, u);
    }
  }

  lemma AddKeys(was: Group, room: Group, u: User)
    requires room == was.(leader := room.leader)
    ensures forall k <- Keys(AddMember(room, 0, u.id, u.icon, u.name)) :: k in Keys(was) || k == u.id
  {
  }

  lemma RoomAfterDelete(s: Server, u: guid, fd: int)
    requires Defined(s, EAcountDelete(u, fd)) && ROOM in s.groups
    ensures ROOM in AcountDelete(s, u, fd).groups && Keys(AcountDelete(s, u, fd).groups[ROOM]) <= Keys(s.groups[ROOM])
  {
    DeletedGroups(s, u, fd);
    hide AcountDelete, Expel, ExpelFromRoom, Linked, LogCounted, Keys;
    ExpelShrinks(s.groups[ROOM], u);
    ExpelShrinks(Unregister(s.(connUser := Bracket(s.connUser, fd)), u).groups[ROOM], u);
  }

  lemma ExpelShrinks(g: Group, u: guid)
    requires GroupSane(g)
    ensures Keys(Expel(g, u)) <= Keys(g) && Keys(ExpelFromRoom(g, u)) <= Keys(g)
  {
    LinkedMove(g, g.leader, u);
  }

  /** Exactly when the room's own two calls, alone or after those for a joined group, remove a member. */
  lemma LeavesExactly(g: Group, u: guid)
    requires GroupSane(g) && u in Keys(g)
    ensures u !in Keys(ExpelFromRoom(g, u)) <==> LeavesRoom(g, u, false)
    ensures GroupSane(Expel(g, u)) && (u !in Keys(ExpelFromRoom(Expel(g, u), u)) <==> LeavesRoom(g, u, true))
    ensures forall v :: v != u ==> (v in Keys(ExpelFromRoom(g, u)) <==> v in Keys(g))
  {
    ExpelSane(g, u);
    LinkedMove(g, g.leader, u);
    hide Linked, LogCounted;
  }

  lemma RoomAfterDeleteExactly(s: Server, u: guid, fd: int)
    requires Defined(s, EAcountDelete(u, fd)) && RoomRegistered(s)
    ensures RoomRegistered(AcountDelete(s, u, fd)) <==>
      (u == Bracket(s.connUser, fd)[fd] && u in s.users && u in Keys(s.groups[ROOM]) ==>
        LeavesRoom(s.groups[ROOM], u, ROOM in s.users[u].joined))
  {
    DeletedGroups(s, u, fd);
    AllocAfterDelete(s, u, fd);
    var s' := AcountDelete(s, u, fd);
    hide AcountDelete, Expel, ExpelFromRoom, GroupSane, Keys, LeavesRoom, UsersSane;
    if ROOM in s.groups {
      RoomAfterDelete(s, u, fd);
    }
    assert forall v :: Lists(s'.groups, ROOM, v) ==> Lists(s.groups, ROOM, v) && v in s.users;
    if u == Bracket(s.connUser, fd)[fd] && u in s.users {
      assert u !in s'.users && forall v :: v != u && v in s.users ==> v in s'.users;
      assert RoomRegistered(s') <==> u !in Keys(s'.groups[ROOM]) by {
        assert Lists(s'.groups, ROOM, u) <==> u in Keys(s'.groups[ROOM]);
      }
      if u in Keys(s.groups[ROOM]) {
        LeavesExactly(s.groups[ROOM], u);
      }
    }
  }

  lemma RoomAfterModify(s: Server, g: guid, o: guid, t: guid, k: u8, p: u8, now: int, fd: int)
    requires Defined(s, EGroupModify(g, o, t, k, p, now, fd)) && ROOM in s.groups
    ensures var groups := GroupModify(s, g, o, t, k, p, now, fd).groups;
      ROOM in groups && forall u <- Keys(groups[ROOM]) :: u in Keys(s.groups[ROOM]) || u in s.users
  {
    ModifyIsOp(s, g, o, t, k, p, now, fd);
    hide GroupModify, Linked, LogCounted, Groups.Apply, Keys;
    if k < MODIFY_TYPE_MAX && g in s.groups && o != 0 && o in s.users && t != 0 && t in s.users {
      OpKeys(s.groups[g], OpOf(s, o, t, k, p), t);
    }
  }

  /** An operation on member `t` adds nobody else. */
  lemma OpKeys(g: Group, op: Op, t: guid)
    requires Linked(g) && !op.OpAddMsg? && !op.OpDeleteMsg? && !op.OpClearMsg? && op.user == t
    ensures forall u <- Keys(Groups.Apply(g, op)) :: u in Keys(g) || u == t
  {
    hide Linked;
  }

  lemma RoomAfterDispatch(s: Server, now: int)
    requires Defined(s, EDispatch(now)) && ROOM in s.groups
    ensures ROOM in Dispatch(s, now).groups && Keys(Dispatch(s, now).groups[ROOM]) == Keys(s.groups[ROOM])
  {
    hide Dispatch, FanoutGroup, Linked, LogCounted, Blocked, Keys;
    var m := s.queue[0];
    DispatchedGroup(s, now, ROOM);
    if m.recv == ROOM {
      FanoutKeys(s, s.groups[ROOM], m);
    }
  }

  lemma FanoutKeys(s: Server, g: Group, m: Msg)
    requires GroupSane(g)
    ensures Keys(FanoutGroup(s, g, m)) == Keys(g)
  {
    LogKeepsMembers(g, m);
    hide AddMsg, Visited, Counted, Linked, LogCounted;
  }

  // ---------------------------------------------------------------- steps

  lemma RoomKept(s: Server, s': Server)
    requires RoomRegistered(s) && s.users.Keys <= s'.users.Keys && RoomGrows(s, s')
    ensures RoomRegistered(s')
  {
    assert ROOM in s.groups ==> forall u <- Keys(s.groups[ROOM]) :: Lists(s.groups, ROOM, u);
  }

  lemma RoomAfterCreate(s: Server, info: Group, now: int, fd: int)
    requires Defined(s, EGroupAdd(info, now, fd)) && RoomRegistered(s)
    ensures RoomRegistered(GroupAdd(s, info, now, fd)) <==> RoomSafe(s, EGroupAdd(info, now, fd))
  {
    hide GroupAdd, Linked, LogCounted, GroupsSane, UsersSane;
    SameUsersGroupAdd(s, info, now, fd);
    var s' := GroupAdd(s, info, now, fd);
    if Creates(s, info) {
      var x := GroupsAfterCreate(s, info, now, fd);
      assert forall u :: info.id == ROOM ==> (Lists(s'.groups, ROOM, u) <==> u in Keys(info));
      assert forall u :: info.id != ROOM ==> (Lists(s'.groups, ROOM, u) <==> Lists(s.groups, ROOM, u));
    } else {
      RefusedCreate(s, info, now, fd);
    }
  }

  /** Exactly when a request keeps every listed member of the public room registered. */
  lemma RoomStep(s: Server, e: Event)
    requires Defined(s, e) && RoomRegistered(s)
    ensures RoomRegistered(Handle(s, e)) <==> RoomSafe(s, e)
  {
    hide AcountAdd, AcountModify, AcountDelete, AcountLogin, AcountLogout, Close, GroupAdd, GroupModify, GroupDelete;
    hide MsgSend, MsgListReq, Dispatch, Ack, Linked, LogCounted, RoomRegistered, GroupsSane, UsersSane, Keys;
    match e
    case EAcountAdd(w, now, fd) =>
      RoomAfterAdd(s, w, now, fd);
      RoomKept(s, Handle(s, e));
    case EAcountDelete(u, fd) => RoomAfterDeleteExactly(s, u, fd);
    case EGroupAdd(info, now, fd) => RoomAfterCreate(s, info, now, fd);
    case _ =>
      SameUsers(s, e);
      RoomAfterOther(s, e);
      RoomKept(s, Handle(s, e));
  }

  lemma RoomAfterOther(s: Server, e: Event)
    requires Defined(s, e) && !e.EAcountAdd? && !e.EAcountDelete? && !e.EGroupAdd?
    ensures RoomGrows(s, Handle(s, e))
  {
    hide AcountAdd, AcountModify, AcountDelete, AcountLogin, AcountLogout, Close, GroupAdd, GroupModify, GroupDelete;
    hide MsgSend, MsgListReq, Dispatch, Ack, Linked, LogCounted, GroupsSane, UsersSane, Keys;
    match e
    case EGroupModify(g, o, t, k, p, now, fd) =>
      SameUsersModify(s, g, o, t, k, p, now, fd);
      ModifyKeeps(s, g, o, t, k, p, now, fd);
      if ROOM in s.groups {
        RoomAfterModify(s, g, o, t, k, p, now, fd);
      }
    case EGroupDelete(g, o, fd) => EraseKeeps(s, g, o, fd);
    case EDispatch(now) =>
      DispatchKeeps(s, now);
      if ROOM in s.groups {
        RoomAfterDispatch(s, now);
      }
    case _ =>
  }

  lemma ModifyKeeps(s: Server, g: guid, o: guid, t: guid, k: u8, p: u8, now: int, fd: int)
    requires Defined(s, EGroupModify(g, o, t, k, p, now, fd))
    ensures GroupModify(s, g, o, t, k, p, now, fd).groups.Keys == s.groups.Keys
  {
    ModifyIsOp(s, g, o, t, k, p, now, fd);
    hide GroupModify, Groups.Apply, Linked, LogCounted;
  }

  lemma EraseKeeps(s: Server, g: guid, o: guid, fd: int)
    ensures var s' := GroupDelete(s, g, o, fd);
      forall h <- s'.groups :: h in s.groups && s'.groups[h] == s.groups[h]
  {
    hide Ack, Visited;
  }

  lemma DispatchKeeps(s: Server, now: int)
    requires Defined(s, EDispatch(now))
    ensures Dispatch(s, now).groups.Keys == s.groups.Keys
  {
    LeadersAfterDispatch(s, now);
    hide Dispatch, Linked, LogCounted;
  }

  /** They stay registered along every run of safe requests. */
  lemma RoomRun(ss: seq<Server>, es: seq<Event>, n: nat)
    requires IsRun(ss, es) && n <= |es| && RoomRegistered(ss[0])
    requires forall i :: 0 <= i < n ==> RoomSafe(ss[i], es[i])
    ensures RoomRegistered(ss[n])
  {
    hide Handle, Defined, RoomRegistered, RoomSafe;
    forall s, e | RoomRegistered(s) && Defined(s, e) && RoomSafe(s, e)
      ensures RoomRegistered(Handle(s, e))
    {
      RoomStep(s, e);
    }
    RunKeeps(ss, es, s => RoomRegistered(s), (s, e) => Defined(s, e) && RoomSafe(s, e), n);
  }
}
