/** Every request, seen from every group: the server's groups refine their views. */
module ServerViews {
  import opened Bytes
  import opened Packets
  import opened Groups
  import opened GroupRuns
  import opened Users
  import opened Servers
  import opened ServerRuns
  import opened Sessions
  import opened Membership
  import opened Fanouts
  import opened Rosters
  import opened Quotas
  import opened GroupViews
  import opened Authority
  import opened Titles

  // ---------------------------------------------------------------- the simple form

  /** The server seats a new user in the public room; the first one leads it. */
  function Welcome(room: Roll, first: bool, u: User): Roll {
    Admit(if first then room.(leader := u.id) else room, 0, u.id, u.icon, u.name)
  }

  /** A user whose account goes loses the role of manager or, failing that, the seat, as if the leader had
      asked for it. */
  function Depart(r: Roll, u: guid): Roll {
    if Manages(r, u) then Appoint(r, r.leader, u, false) else Dismiss(r, r.leader, u)
  }

  /** In the public room both are asked for. */
  function DepartRoom(r: Roll, u: guid): Roll { Dismiss(Appoint(r, r.leader, u, false), r.leader, u) }

  /** One more message of `u` is counted. */
  function CountSent(r: Roll, u: guid): Roll
    requires u in r.seats
  {
    r.(seats := r.seats[u := r.seats[u].(card := OneMore(r.seats[u].card))])
  }

  /** After the deletion of an account. */
  function ViewLeft(s: Server, v: guid, fd: int, id: guid, r: Roll): Roll {
    if v != BoundUser(s.connUser, fd) then r
    else
      var r1 := if v in s.users && id in s.users[v].joined then Depart(r, v) else r;
      if id == ROOM then DepartRoom(r1, v) else r1
  }

  /** After a turn of the dispatch loop: an accepted and counted message of a member is counted. */
  ghost function ViewSent(s: Server, id: guid, r: Roll): Roll
    requires s.queue != [] && id in s.groups && Linked(s.groups[id]) && r == RollOf(s.groups[id])
  {
    var u := s.queue[0].send;
    if s.queue[0].recv == id && u in r.seats && !Blocked(Entry(s.groups[id], u)) && IsCounted(s, id, u)
    then CountSent(r, u) else r
  }

  /** The view of group `id` after a request, from the view before it. */
  ghost function ViewAfter(s: Server, e: Event, id: guid, r: Roll): Roll
    requires Defined(s, e) && id in s.groups && Linked(s.groups[id]) && r == RollOf(s.groups[id])
  {
    match e
    case EAcountAdd(w, _, _) =>
      if id == ROOM && PhoneUnique(s, w.phone) == ERROR_OK
      then Welcome(r, s.users.Keys <= {Registrant(s, w).id}, Registrant(s, w)) else r
    case EAcountDelete(v, fd) => ViewLeft(s, v, fd, id, r)
    case EGroupModify(g, o, t, k, p, _, _) =>
      if g == id && k < MODIFY_TYPE_MAX && o != 0 && o in s.users && t != 0 && t in s.users
      then Next(r, OpOf(s, o, t, k, p)) else r
    case EDispatch(_) => ViewSent(s, id, r)
    case _ => r
  }

  // ---------------------------------------------------------------- steps

  lemma SameRoll(g: Group)
    requires Rep(g)
    ensures Linked(g)
  {
  }

  lemma LeaderRoll(g: Group, leader: guid)
    requires Linked(g)
    ensures Linked(g.(leader := leader)) && RollOf(g.(leader := leader)) == RollOf(g).(leader := leader)
  {
    var g' := g.(leader := leader);
    assert Seats(g') == Seats(g);
  }

  lemma ViewAfterAdd(s: Server, w: User, now: int, fd: int, id: guid)
    requires Defined(s, EAcountAdd(w, now, fd)) && AllGroupsRep(s) && RosterSafe(s, EAcountAdd(w, now, fd))
    requires id in s.groups
    ensures id in AcountAdd(s, w, now, fd).groups
    ensures Linked(s.groups[id]) && Linked(AcountAdd(s, w, now, fd).groups[id])
    ensures var r := RollOf(s.groups[id]);
      RollOf(AcountAdd(s, w, now, fd).groups[id])
      == if id == ROOM && PhoneUnique(s, w.phone) == ERROR_OK
         then Welcome(r, s.users.Keys <= {Registrant(s, w).id}, Registrant(s, w)) else r
  {
    assert Rep(s.groups[id]);
    SameRoll(s.groups[id]);
    hide Out, Broadcast, AddMember, Linked, LogCounted, Inc32, Rep, RollOf, Admit, Indexed;
    if PhoneUnique(s, w.phone) == ERROR_OK && id == ROOM {
      var u := Registrant(s, w).(regTime := now, online := STATUS_ON_LINE);
      var was := s.groups[ROOM];
      var room := was.(leader := if |s.users[u.id := u]| == 1 then u.id else was.leader);
      OnlyUser(s.users, u);
      LeaderRoll(was, room.leader);
      LeaderRep(was, room.leader);
      ViewAdd(room, 0, u.id, u.icon, u.name);
      assert RollOf(was).leader == was.leader by { RollHead(was); }
    }
  }

  lemma RollHead(g: Group)
    requires Linked(g)
    ensures RollOf(g).leader == g.leader && RollOf(g).id == g.id
  {
    hide Linked;
  }

  lemma ViewExpel(g: Group, v: guid)
    requires GroupSane(g) && Rep(g)
    ensures Rep(Expel(g, v)) && RollOf(Expel(g, v)) == Depart(RollOf(g), v)
    ensures Rep(ExpelFromRoom(g, v)) && RollOf(ExpelFromRoom(g, v)) == DepartRoom(RollOf(g), v)
  {
    ExpelRep(g, v);
    SameRoll(g);
    SameRoll(DeleteManager(g, g.leader, v)) by { RepDemote(g, g.leader, v); }
    ViewMove(g, g.leader, v);
    ViewDelete(g, g.leader, v);
    ViewDelete(DeleteManager(g, g.leader, v), g.leader, v) by { RepDemote(g, g.leader, v); }
    OneRole(g, v);
    SeatFacts(g, v);
    MovedHead(g, g.leader, v);
    hide Linked, Rep, LogCounted, DeleteManager, DeleteMember, Guids, Seats, Appoint, Dismiss;
  }

  lemma ViewAfterDelete(s: Server, v: guid, fd: int, id: guid)
    requires Defined(s, EAcountDelete(v, fd)) && id in s.groups && Rep(s.groups[id])
    ensures id in AcountDelete(s, v, fd).groups
    ensures Linked(s.groups[id]) && Linked(AcountDelete(s, v, fd).groups[id])
    ensures RollOf(AcountDelete(s, v, fd).groups[id]) == ViewLeft(s, v, fd, id, RollOf(s.groups[id]))
  {
    hide AcountDelete, Unregister, Expel, ExpelFromRoom, Linked, UsersSane, Rep, RollOf, Depart, DepartRoom;
    hide GroupSane, GroupsSane;
    SameRoll(s.groups[id]);
    DeletedGroups(s, v, fd);
    var s0 := s.(connUser := Bracket(s.connUser, fd));
    if v == s0.connUser[fd] {
      UnregisterSane(s0, v);
      ViewAfterUnregister(s0, v, id);
      RoomAfterUnregister(s0, v, id);
    }
  }

  lemma RoomAfterUnregister(s: Server, v: guid, id: guid)
    requires Sane(s) && id in Unregister(s, v).groups && Rep(Unregister(s, v).groups[id])
    ensures Linked(Unregister(s, v).groups[id]) && Linked(ExpelFromRoom(Unregister(s, v).groups[id], v))
    ensures RollOf(ExpelFromRoom(Unregister(s, v).groups[id], v)) == DepartRoom(RollOf(Unregister(s, v).groups[id]), v)
  {
    hide Unregister, Expel, ExpelFromRoom, Linked, UsersSane, Rep, RollOf, Depart, DepartRoom;
    UnregisterSane(s, v);
    SaneAt(Unregister(s, v), id);
    var y := Unregister(s, v).groups[id];
    ViewExpel(y, v);
    SameRoll(ExpelFromRoom(y, v));
  }

  lemma ViewAfterUnregister(s: Server, v: guid, id: guid)
    requires Sane(s) && id in s.groups && Rep(s.groups[id])
    ensures id in Unregister(s, v).groups && Rep(Unregister(s, v).groups[id])
    ensures Linked(s.groups[id]) && Linked(Unregister(s, v).groups[id])
    ensures RollOf(Unregister(s, v).groups[id])
      == if v in s.users && id in s.users[v].joined then Depart(RollOf(s.groups[id]), v) else RollOf(s.groups[id])
  {
    SameRoll(s.groups[id]);
    SaneAt(s, id);
    hide Expel, Linked, UsersSane, Rep, RollOf, Depart, GroupSane;
    ViewExpel(s.groups[id], v);
    SameRoll(Expel(s.groups[id], v));
  }

  lemma ViewAfterModify(s: Server, g: guid, o: guid, t: guid, k: u8, p: u8, now: int, fd: int, id: guid)
    requires Defined(s, EGroupModify(g, o, t, k, p, now, fd)) && AllGroupsRep(s) && id in s.groups
    requires RosterSafe(s, EGroupModify(g, o, t, k, p, now, fd))
    ensures id in GroupModify(s, g, o, t, k, p, now, fd).groups
    ensures Linked(s.groups[id]) && Linked(GroupModify(s, g, o, t, k, p, now, fd).groups[id])
    ensures var r := RollOf(s.groups[id]);
      RollOf(GroupModify(s, g, o, t, k, p, now, fd).groups[id])
      == if g == id && k < MODIFY_TYPE_MAX && o != 0 && o in s.users && t != 0 && t in s.users
         then Next(r, OpOf(s, o, t, k, p)) else r
  {
    assert Rep(s.groups[id]);
    SameRoll(s.groups[id]);
    ModifyIsOp(s, g, o, t, k, p, now, fd);
    hide GroupModify, Groups.Apply, Linked, LogCounted, Rep, RollOf, Next, GroupsSane, UsersSane;
    if g == id && k < MODIFY_TYPE_MAX && o != 0 && o in s.users && t != 0 && t in s.users {
      ViewStep(s.groups[id], OpOf(s, o, t, k, p));
    }
  }

  lemma ViewFanout(s: Server, g: Group, m: Msg)
    requires GroupSane(g) && Rep(g) && m.send in Keys(g)
    ensures Linked(FanoutGroup(s, g, m)) && m.send in Seats(g)
    ensures RollOf(FanoutGroup(s, g, m))
      == if Servers.Fits(g, m) && m.send in s.userConn && Reached(g, s.users.Keys, m.send)
         then CountSent(RollOf(g), m.send) else RollOf(g)
  {
    SameRoll(g);
    FanoutGroupSane(s, g, m);
    FanoutHead(s, g, m);
    FanoutSeats(s, g, m);
    SeatFacts(g, m.send);
    hide Linked, Rep, FanoutGroup, Seats, Servers.Fits, Reached, LogCounted, OneMore, Guids;
  }

  lemma FanoutHead(s: Server, g: Group, m: Msg)
    requires GroupSane(g) && Linked(FanoutGroup(s, g, m))
    ensures var g' := FanoutGroup(s, g, m);
      g'.id == g.id && g'.leader == g.leader && Guids(g') == Guids(g) && Keys(g') == Keys(g)
      && g'.managers == g.managers
  {
    LogKeepsMembers(g, m);
    hide AddMsg, Visited, Servers.Fits, Points, Apart, Distinct, LogCounted, Counted, ListGuids;
    SameGuids(g.list, g.nodes, FanoutGroup(s, g, m).nodes);
  }

  lemma FanoutSeats(s: Server, g: Group, m: Msg)
    requires GroupSane(g) && Rep(g) && Linked(g) && m.send in Keys(g) && Linked(FanoutGroup(s, g, m))
    ensures m.send in Seats(g)
    ensures Seats(FanoutGroup(s, g, m))
      == if Servers.Fits(g, m) && m.send in s.userConn && Reached(g, s.users.Keys, m.send)
         then Seats(g)[m.send := Seats(g)[m.send].(card := OneMore(Seats(g)[m.send].card))] else Seats(g)
  {
    hide Linked, Rep, FanoutGroup, GroupSane, Servers.Fits, Reached, LogCounted, OneMore, Entry, Guids;
    FanoutHead(s, g, m);
    hide Keys;
    var g' := FanoutGroup(s, g, m);
    var counts := Servers.Fits(g, m) && m.send in s.userConn && Reached(g, s.users.Keys, m.send);
    var seats := if counts then Seats(g)[m.send := Seats(g)[m.send].(card := OneMore(Seats(g)[m.send].card))]
      else Seats(g);
    forall v <- Keys(g)
      ensures Entry(g', v) == if counts && v == m.send then OneMore(Entry(g, v)) else Entry(g, v)
    {
      CardAfterFanout(s, g, m, v);
    }
    SeatsAre(g', seats);
  }

  /** The whole card of a member after delivery, not its count alone. */
  lemma CardAfterFanout(s: Server, g: Group, m: Msg, v: guid)
    requires GroupSane(g) && v in Keys(g)
    ensures var g' := FanoutGroup(s, g, m);
      Linked(g') && v in Keys(g')
      && Entry(g', v) == if v == m.send && v in s.userConn && Reached(g, s.users.Keys, v) && Servers.Fits(g, m)
                         then OneMore(Entry(g, v)) else Entry(g, v)
  {
    FanoutGroupSane(s, g, m);
    EntryAfterLog(g, m, v);
    ReachedEntry(g, s.users.Keys, v);
    hide LogCounted, Linked, Counted, Visited, Reached, AddMsg, Servers.Fits, NodeReached, OneMore;
    if Servers.Fits(g, m) {
      FanoutCounts(s, g, m);
    }
  }

  lemma ViewAfterDispatch(s: Server, now: int, id: guid)
    requires Defined(s, EDispatch(now)) && id in s.groups && Rep(s.groups[id])
    ensures id in Dispatch(s, now).groups && s.queue != []
    ensures Linked(s.groups[id]) && Linked(Dispatch(s, now).groups[id])
    ensures RollOf(Dispatch(s, now).groups[id]) == ViewSent(s, id, RollOf(s.groups[id]))
  {
    hide Dispatch, FanoutGroup, Linked, Rep, GroupSane, GroupsSane, UsersSane, Blocked, RollOf, Reached;
    hide Servers.Fits, CountSent, Entry, Keys;
    SameRoll(s.groups[id]);
    SaneAt(s, id);
    DispatchFacts(s, now);
    DispatchedGroup(s, now, id);
    if s.queue[0].recv == id {
      ViewFanout(s, s.groups[id], s.queue[0]);
      RollSeats(s.groups[id]);
    }
  }

  lemma RollSeats(g: Group)
    requires Linked(g)
    ensures RollOf(g).seats == Seats(g)
  {
    hide Linked, Seats;
  }

  /** A request on represented groups that keeps them represented, and a group that is there before and
      after and is not founded anew. */
  ghost predicate Stays(s: Server, e: Event, id: guid) {
    && Defined(s, e) && AllGroupsRep(s) && RosterSafe(s, e)
    && id in s.groups && id in Handle(s, e).groups && !Refounds(s, e, id)
  }

  /** The view after the request is the simple function of the view before. */
  ghost predicate Refines(s: Server, e: Event, id: guid)
    requires Defined(s, e)
  {
    && id in s.groups && id in Handle(s, e).groups
    && Linked(s.groups[id]) && Linked(Handle(s, e).groups[id])
    && RollOf(Handle(s, e).groups[id]) == ViewAfter(s, e, id, RollOf(s.groups[id]))
  }

  /** Refinement, for every request and every group: while the groups are represented, the view of a group
      after any request that does not found it anew is the simple function of the view before. */
  lemma ServerViewStep(s: Server, e: Event, id: guid)
    requires Stays(s, e, id)
    ensures Defined(s, e) && Refines(s, e, id)
  {
    assert Defined(s, e) && id in s.groups && AllGroupsRep(s);
    hide Stays, Refines, Defined, Rep, AllGroupsRep, Linked;
    RepAt(s, id);
    match e
    case EAcountAdd(_, _, _) => ViewOfAdd(s, e, id);
    case EAcountDelete(_, _) => ViewOfDelete(s, e, id);
    case EGroupModify(_, _, _, _, _, _, _) => ViewOfModify(s, e, id);
    case EDispatch(_) => ViewOfDispatch(s, e, id);
    case _ => ViewOfOther(s, e, id);
  }

  lemma ViewOfAdd(s: Server, e: Event, id: guid)
    requires e.EAcountAdd? && Stays(s, e, id)
    ensures Defined(s, e) && Refines(s, e, id)
  {
    ViewAfterAdd(s, e.wire, e.now, e.fd, id);
    hide AcountAdd, Linked, Rep, RollOf, Welcome, PhoneUnique, GroupsSane, UsersSane, AllGroupsRep, Indexed, RolesFit;
  }

  lemma RepAt(s: Server, id: guid)
    requires AllGroupsRep(s) && id in s.groups
    ensures Rep(s.groups[id]) && Linked(s.groups[id])
  {
  }

  lemma ViewOfDelete(s: Server, e: Event, id: guid)
    requires e.EAcountDelete? && Defined(s, e) && id in s.groups && Rep(s.groups[id])
    ensures Refines(s, e, id)
  {
    hide AcountDelete, Linked, Rep, RollOf, ViewLeft, Sane, BoundUser;
    ViewAfterDelete(s, e.user, e.fd, id);
  }

  lemma ViewOfModify(s: Server, e: Event, id: guid)
    requires e.EGroupModify? && Stays(s, e, id)
    ensures Defined(s, e) && Refines(s, e, id)
  {
    ViewAfterModify(s, e.group, e.operator, e.target, e.kind, e.permission, e.now, e.fd, id);
    hide GroupModify, Linked, Rep, RollOf, Next, GroupsSane, UsersSane, AllGroupsRep;
  }

  lemma ViewOfDispatch(s: Server, e: Event, id: guid)
    requires e.EDispatch? && Defined(s, e) && id in s.groups && Rep(s.groups[id])
    ensures Refines(s, e, id)
  {
    hide Dispatch, Linked, Rep, RollOf, ViewSent, Sane, Keys;
    ViewAfterDispatch(s, e.now, id);
  }

  lemma ViewOfOther(s: Server, e: Event, id: guid)
    requires Stays(s, e, id) && !e.EAcountAdd? && !e.EAcountDelete? && !e.EGroupModify? && !e.EDispatch?
    ensures Defined(s, e) && Refines(s, e, id)
  {
    RepAt(s, id);
    GroupUntouched(s, e, id);
    hide Handle, Linked, Rep, RollOf, Defined, AllGroupsRep, RosterSafe, Refounds;
  }

  lemma GroupUntouched(s: Server, e: Event, id: guid)
    requires Defined(s, e) && id in Handle(s, e).groups && !Refounds(s, e, id) && id in s.groups
    requires !e.EAcountAdd? && !e.EAcountDelete? && !e.EGroupModify? && !e.EDispatch?
    ensures Handle(s, e).groups[id] == s.groups[id]
  {
    hide AcountAdd, AcountModify, AcountDelete, AcountLogin, AcountLogout, Close, GroupAdd, GroupModify, GroupDelete;
    hide MsgSend, MsgListReq, GroupInfoReq, BriefInfoReq, Dispatch, Ack, GroupsSane, UsersSane;
    match e
    case EGroupAdd(info, now, fd) => CreatedGroups(s, info, now, fd);
    case EGroupDelete(g, o, fd) => ErasedOnly(s, g, o, fd);
    case _ => GroupsKept(s, e);
  }

  /** Only founding adds a group, and only deleting one takes it away. */
  lemma NoNewGroups(s: Server, e: Event, id: guid)
    requires Defined(s, e)
    ensures id in Handle(s, e).groups ==> id in s.groups || Refounds(s, e, id)
    ensures id in s.groups && id !in Handle(s, e).groups ==> e.EGroupDelete? && e.group == id
  {
    hide AcountAdd, AcountModify, AcountDelete, AcountLogin, AcountLogout, Close, GroupAdd, GroupModify, GroupDelete;
    hide MsgSend, MsgListReq, GroupInfoReq, BriefInfoReq, Dispatch, Ack, Linked, LogCounted;
    match e
    case EAcountAdd(w, now, fd) => GroupsAfterAdd(s, w, now, fd);
    case EAcountDelete(v, fd) => DeletedGroups(s, v, fd);
    case EGroupAdd(info, now, fd) => CreatedGroups(s, info, now, fd);
    case EGroupModify(g, o, t, k, p, now, fd) => ModifyIsOp(s, g, o, t, k, p, now, fd);
    case EGroupDelete(g, o, fd) => ErasedOnly(s, g, o, fd);
    case EDispatch(now) => DispatchKeys(s, now);
    case _ => GroupsKept(s, e);
  }

  lemma GroupsAfterAdd(s: Server, w: User, now: int, fd: int)
    requires Defined(s, EAcountAdd(w, now, fd))
    ensures AcountAdd(s, w, now, fd).groups.Keys == s.groups.Keys
  {
    hide Out, Broadcast, AddMember, Linked, LogCounted, Inc32;
  }

  lemma ErasedOnly(s: Server, g: guid, o: guid, fd: int)
    ensures var s' := GroupDelete(s, g, o, fd); s'.groups == s.groups || s'.groups == s.groups - {g}
  {
    hide Ack, Visited;
  }
}
