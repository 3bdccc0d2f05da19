/** The leader's title: nobody but the leader is shown with it, in the groups and to whoever asks. */
module Titles {
  import opened Bytes
  import opened Packets
  import opened Groups
  import opened GroupRuns
  import opened GroupCodec
  import opened Users
  import opened Servers
  import opened ServerRuns
  import opened Membership
  import opened Fanouts
  import opened Rosters
  import opened Quotas
  import opened Ranges
  import opened GroupViews
  import opened Authority

  // ---------------------------------------------------------------- one group

  /** A listed card with the leader's job is the leader's. */
  ghost predicate Titled(g: Group) {
    Linked(g) && forall n <- g.list :: g.nodes[n].job == JOB_LEADER ==> g.nodes[n].userGuid == g.leader
  }

  /** No operation gives the leader's title to anybody else. */
  lemma TitleStep(g: Group, op: Op)
    requires Titled(g)
    ensures Titled(Groups.Apply(g, op))
  {
    assert Linked(g);
    hide Linked, AddMember, DeleteMember, AddManager, DeleteManager, ChangePermissions, Titled;
    match op
    case OpAdd(o, u, icon, name) => TitleAdd(g, o, u, icon, name);
    case OpDelete(o, u) => TitleDelete(g, o, u);
    case OpPromote(o, u) => TitleMove(g, o, u);
    case OpDemote(o, u) => TitleMove(g, o, u);
    case OpChange(o, u, p) => TitleChange(g, o, u, p);
    case _ => TitleLog(g, op);
  }

  lemma TitleAdd(g: Group, o: guid, u: guid, icon: guid, name: Name)
    requires Titled(g)
    ensures Titled(AddMember(g, o, u, icon, name))
  {
    LinkedAdd(g, o, u, icon, name);
    hide Groups.Count, Inc32, Points, Apart, Distinct;
    if CanAdd(g, o, u) {
      GrowDistinct(g.list, |g.nodes|);
    }
  }

  lemma TitleDelete(g: Group, o: guid, u: guid)
    requires Titled(g)
    ensures Titled(DeleteMember(g, o, u))
  {
    LinkedDelete(g, o, u);
    hide Groups.Count, Dec32;
    if CanDelete(g, o, u) {
      WithoutFacts(g.list, if u in g.managers then g.managers[u] else g.members[u]);
    }
  }

  lemma TitleMove(g: Group, o: guid, u: guid)
    requires Titled(g)
    ensures Titled(AddManager(g, o, u)) && Titled(DeleteManager(g, o, u))
  {
    LinkedMove(g, o, u);
    hide Groups.Count, Distinct;
  }

  lemma TitleChange(g: Group, o: guid, u: guid, p: u8)
    requires Titled(g)
    ensures Titled(ChangePermissions(g, o, u, p))
  {
    LinkedKept(g, OpChange(o, u, p));
    hide Groups.Count, Distinct;
  }

  lemma TitleLog(g: Group, op: Op)
    requires Titled(g) && (op.OpAddMsg? || op.OpDeleteMsg? || op.OpClearMsg?)
    ensures Titled(Groups.Apply(g, op))
  {
    hide Groups.Count, Distinct, Points, Apart, DropLast, Number;
  }

  lemma {:induction false} TitleRun(g: Group, ops: seq<Op>, n: nat)
    requires Titled(g) && n <= |ops|
    ensures Titled(At(g, ops, n))
  {
    assert Linked(g);
    hide Titled, Linked, Groups.Apply;
    if n > 0 {
      TitleRun(g, ops, n - 1);
      AtStep(g, ops, n - 1);
      TitleStep(At(g, ops, n - 1), ops[n - 1]);
    } else {
      assert ops[..0] == [];
    }
  }

  // ---------------------------------------------------------------- the server

  ghost predicate AllTitled(groups: map<guid, Group>) { forall g <- groups :: Titled(groups[g]) }

  /** A first user must not find somebody else's title in the public room he is made leader of, and a new
      group must not bring the title for a node that is somebody else's and that the traversal does not
      reach. */
  ghost predicate TitleSafe(s: Server, e: Event)
    requires Defined(s, e)
  {
    match e
    case EAcountAdd(w, _, _) =>
      PhoneUnique(s, w.phone) == ERROR_OK && s.users.Keys <= {Registrant(s, w).id} ==>
        var room := s.groups[ROOM];
        forall n <- room.list ::
          0 <= n < |room.nodes| && room.nodes[n].job == JOB_LEADER ==> room.nodes[n].userGuid == Registrant(s, w).id
    case EGroupAdd(info, _, _) =>
      Creates(s, info) ==>
        forall n <- info.list ::
          NodeReached(info, s.users.Keys, n)
          || (info.nodes[n].job == JOB_LEADER ==> info.nodes[n].userGuid == info.leader)
    case _ => true
  }

  lemma PutTitled(groups: map<guid, Group>, g: guid, x: Group)
    requires AllTitled(groups)
    ensures AllTitled(groups[g := x]) <==> Titled(x)
  {
    hide Titled;
    assert g in groups[g := x];
  }

  lemma OnlyUser(users: map<guid, User>, u: User)
    ensures |users[u.id := u]| == 1 <==> users.Keys <= {u.id}
  {
    if users.Keys <= {u.id} {
      assert users[u.id := u].Keys == {u.id};
      assert |users[u.id := u]| == |users[u.id := u].Keys|;
    } else {
      OtherUsers(users, u);
    }
  }

  /** Adding a member can neither give nor take a title that decides the invariant. */
  lemma EntryTitled(room: Group, u: User)
    requires Linked(room)
    ensures Titled(AddMember(room, 0, u.id, u.icon, u.name)) <==> Titled(room)
  {
    LinkedAdd(room, 0, u.id, u.icon, u.name);
    if Titled(room) {
      TitleStep(room, OpAdd(0, u.id, u.icon, u.name));
    }
    hide Groups.Count, Inc32, Points, Apart, Distinct;
    if Titled(AddMember(room, 0, u.id, u.icon, u.name)) {
      forall n <- room.list
        ensures room.nodes[n].job == JOB_LEADER ==> room.nodes[n].userGuid == room.leader
      {
        assert n in AddMember(room, 0, u.id, u.icon, u.name).list;
      }
    }
  }

  lemma TitleAfterAdd(s: Server, w: User, now: int, fd: int)
    requires Defined(s, EAcountAdd(w, now, fd)) && AllTitled(s.groups)
    ensures AllTitled(AcountAdd(s, w, now, fd).groups) <==> TitleSafe(s, EAcountAdd(w, now, fd))
  {
    hide Out, Broadcast, AddMember, LogCounted, Titled, Inc32, Linked;
    if PhoneUnique(s, w.phone) == ERROR_OK {
      var u := Registrant(s, w).(regTime := now, online := STATUS_ON_LINE);
      var was := s.groups[ROOM];
      var room := was.(leader := if |s.users[u.id := u]| == 1 then u.id else was.leader);
      OnlyUser(s.users, u);
      RoomLinked(was, room.leader);
      EntryTitled(room, u);
      PutTitled(s.groups, ROOM, AddMember(room, 0, u.id, u.icon, u.name));
      NewLeaderTitled(was, room.leader);
    }
  }

  lemma RoomLinked(g: Group, leader: guid)
    requires GroupSane(g)
    ensures Linked(g.(leader := leader))
  {
  }

  lemma NewLeaderTitled(g: Group, leader: guid)
    requires GroupSane(g) && Titled(g)
    ensures leader == g.leader ==> Titled(g.(leader := leader))
    ensures Titled(g.(leader := leader)) <==>
      forall n <- g.list :: 0 <= n < |g.nodes| && g.nodes[n].job == JOB_LEADER ==> g.nodes[n].userGuid == leader
  {
    RoomLinked(g, leader);
    hide Points, Apart, Distinct, Groups.Count;
  }

  lemma TitledExpel(g: Group, v: guid)
    requires Titled(g)
    ensures Linked(g) && Titled(Expel(g, v)) && Titled(ExpelFromRoom(g, v))
  {
    LinkedMove(g, g.leader, v);
    assert Linked(g);
    hide DeleteMember, DeleteManager, Linked, Titled;
    TitleStep(g, OpDemote(g.leader, v));
    TitleStep(g, OpDelete(g.leader, v));
    TitleStep(DeleteManager(g, g.leader, v), OpDelete(g.leader, v));
  }

  lemma TitledAt(groups: map<guid, Group>, g: guid)
    requires AllTitled(groups) && g in groups
    ensures Titled(groups[g]) && Linked(groups[g])
  {
  }

  lemma TitleAfterUnregister(s: Server, v: guid)
    requires Sane(s) && AllTitled(s.groups)
    ensures AllTitled(Unregister(s, v).groups)
  {
    hide Expel, Linked, LogCounted, Titled, UsersSane;
    forall g <- s.groups
      ensures Linked(s.groups[g]) && Titled(Expel(s.groups[g], v))
    {
      TitledExpel(s.groups[g], v);
    }
  }

  lemma TitleAfterDelete(s: Server, v: guid, fd: int)
    requires Defined(s, EAcountDelete(v, fd)) && AllTitled(s.groups)
    ensures AllTitled(AcountDelete(s, v, fd).groups)
  {
    hide AcountDelete, Expel, ExpelFromRoom, Linked, LogCounted, Titled, AllTitled, UsersSane;
    DeletedGroups(s, v, fd);
    var s0 := s.(connUser := Bracket(s.connUser, fd));
    var gs := Unregister(s0, v).groups;
    TitleAfterUnregister(s0, v);
    if v == s0.connUser[fd] {
      TitledAt(gs, ROOM);
      TitledExpel(gs[ROOM], v);
      PutTitled(gs, ROOM, ExpelFromRoom(gs[ROOM], v));
    }
  }

  lemma EnrolledTitles(g: Group, users: map<guid, User>)
    requires GroupSane(g)
    ensures Titled(Enroll(g, users, |Visited(g, users.Keys)|))
      <==> forall n <- g.list ::
        NodeReached(g, users.Keys, n) || (g.nodes[n].job == JOB_LEADER ==> g.nodes[n].userGuid == g.leader)
  {
    var i := |Visited(g, users.Keys)|;
    EnrollSane(g, users, i);
    hide Visited, Enroll, LogCounted, NodeReached, Hit, Points, Apart, Distinct;
    forall n <- g.list
      ensures Enroll(g, users, i).nodes[n].job
        == if !NodeReached(g, users.Keys, n) then g.nodes[n].job
           else if g.leader == g.nodes[n].userGuid then JOB_LEADER else JOB_MEMBER
    {
      EnrolledJobs(g, users, i, n);
      HitIsReached(g, users.Keys, n);
    }
  }

  lemma TitleAfterCreate(s: Server, info: Group, now: int, fd: int)
    requires Defined(s, EGroupAdd(info, now, fd)) && AllTitled(s.groups)
    ensures AllTitled(GroupAdd(s, info, now, fd).groups) <==> TitleSafe(s, EGroupAdd(info, now, fd))
  {
    CreatedGroups(s, info, now, fd);
    EnrolledTitles(info, s.users);
    hide GroupAdd, Visited, Enroll, Linked, LogCounted, Titled, NodeReached, GroupsSane, UsersSane;
    PutTitled(s.groups, info.id, Enroll(info, s.users, |Visited(info, s.users.Keys)|));
  }

  lemma TitleAfterModify(s: Server, g: guid, o: guid, t: guid, k: u8, p: u8, now: int, fd: int)
    requires Defined(s, EGroupModify(g, o, t, k, p, now, fd)) && AllTitled(s.groups)
    ensures AllTitled(GroupModify(s, g, o, t, k, p, now, fd).groups)
  {
    ModifyIsOp(s, g, o, t, k, p, now, fd);
    hide GroupModify, Groups.Apply, Linked, LogCounted, Titled;
    if g in s.groups && t in s.users {
      TitleStep(s.groups[g], OpOf(s, o, t, k, p));
      PutTitled(s.groups, g, Groups.Apply(s.groups[g], OpOf(s, o, t, k, p)));
    }
  }

  lemma FanoutTitled(s: Server, g: Group, m: Msg)
    requires GroupSane(g) && Titled(g)
    ensures Titled(FanoutGroup(s, g, m))
  {
    FanoutGroupSane(s, g, m);
    LogKeepsMembers(g, m);
    hide AddMsg, Counted, Visited, Servers.Fits, Points, Apart, Distinct, LogCounted, NodeReached;
    if Servers.Fits(g, m) {
      FanoutCounts(s, g, m);
    }
  }

  lemma TitledDispatch(s: Server, now: int, g: guid)
    requires Defined(s, EDispatch(now)) && g in s.groups && Titled(s.groups[g])
    ensures g in Dispatch(s, now).groups && Titled(Dispatch(s, now).groups[g])
  {
    hide Dispatch, FanoutGroup, Titled, Linked, GroupSane, GroupsSane, UsersSane;
    SaneAt(s, g);
    DispatchedGroup(s, now, g);
    FanoutTitled(s, s.groups[g], s.queue[0]);
  }

  lemma TitleAfterDispatch(s: Server, now: int)
    requires Defined(s, EDispatch(now)) && AllTitled(s.groups)
    ensures AllTitled(Dispatch(s, now).groups)
  {
    hide Dispatch, Titled, GroupsSane, UsersSane;
    DispatchKeys(s, now);
    forall g <- s.groups
      ensures g in Dispatch(s, now).groups && Titled(Dispatch(s, now).groups[g])
    {
      TitledDispatch(s, now, g);
    }
  }

  lemma TitleAfterErase(s: Server, g: guid, o: guid, fd: int)
    requires AllTitled(s.groups)
    ensures AllTitled(GroupDelete(s, g, o, fd).groups)
  {
    hide Ack, Visited, Titled;
  }

  /** Exactly when a request gives the leader's title to nobody but leaders. */
  lemma TitlesStep(s: Server, e: Event)
    requires Defined(s, e) && AllTitled(s.groups)
    ensures AllTitled(Handle(s, e).groups) <==> TitleSafe(s, e)
  {
    hide AcountAdd, AcountModify, AcountDelete, AcountLogin, AcountLogout, Close, GroupAdd, GroupModify, GroupDelete;
    hide MsgSend, MsgListReq, GroupInfoReq, BriefInfoReq, Dispatch, Ack, Linked, LogCounted, AllTitled, NodeReached;
    match e
    case EAcountAdd(w, now, fd) => TitleAfterAdd(s, w, now, fd);
    case EAcountDelete(v, fd) => TitleAfterDelete(s, v, fd);
    case EGroupAdd(info, now, fd) => TitleAfterCreate(s, info, now, fd);
    case EGroupModify(g, o, t, k, p, now, fd) => TitleAfterModify(s, g, o, t, k, p, now, fd);
    case EGroupDelete(g, o, fd) => TitleAfterErase(s, g, o, fd);
    case EDispatch(now) => TitleAfterDispatch(s, now);
    case _ => GroupsKept(s, e);
  }

  lemma TitlesRun(ss: seq<Server>, es: seq<Event>, n: nat)
    requires IsRun(ss, es) && n <= |es| && AllTitled(ss[0].groups)
    requires forall i :: 0 <= i < n ==> TitleSafe(ss[i], es[i])
    ensures AllTitled(ss[n].groups)
  {
    hide Handle, Defined, AllTitled, TitleSafe;
    forall s: Server, e | AllTitled(s.groups) && Defined(s, e) && TitleSafe(s, e)
      ensures AllTitled(Handle(s, e).groups)
    {
      TitlesStep(s, e);
    }
    RunKeeps(ss, es, (s: Server) => AllTitled(s.groups), (s, e) => Defined(s, e) && TitleSafe(s, e), n);
  }

  // ---------------------------------------------------------------- what a client is shown

  /** A receiver of the information packet sees the group as it is: leader, order, roles and cards. */
  lemma PacketShowsRoll(g: Group, globalGuid: guid, rest: seq<byte>)
    requires Rep(g) && GroupSane(g) && GroupRanged(g) && GroupLength(g) <= PAYLOAD_MAX
    ensures var d := InfoPacket(g) + rest;
      HEAD_LENGTH <= FillHead(d) <= |d|
      && var shown := DecodeGroup(globalGuid, d[HEAD_LENGTH..FillHead(d)]).0;
      Linked(shown) && RollOf(shown) == RollOf(g)
  {
    InfoPacketConveys(g, globalGuid, rest);
    hide InfoPacket, DecodeGroup, FillHead, Rep, Linked, GroupRanged, LogCounted, Roster, RollOf;
    var d := InfoPacket(g) + rest;
    var shown := DecodeGroup(globalGuid, d[HEAD_LENGTH..FillHead(d)]).0;
    SameRosterSameRoll(g, shown);
    LinkedOfRep(shown);
  }

  lemma LinkedOfRep(g: Group)
    requires Rep(g)
    ensures Linked(g)
  {
  }

  /** After an accepted promotion the packet shows the promoted member as a manager, titled as one, and
      everybody else with the card and the role shown before. */
  lemma PromotionIsShown(g: Group, u: guid, globalGuid: guid, rest: seq<byte>)
    requires Rep(g) && GroupSane(g) && GroupRanged(g) && GroupLength(g) <= PAYLOAD_MAX && CanPromote(g, g.leader, u)
    ensures var g' := AddManager(g, g.leader, u);
      GroupSane(g') && GroupLength(g') <= PAYLOAD_MAX
      && var d := InfoPacket(g') + rest;
      HEAD_LENGTH <= FillHead(d) <= |d|
      && var shown := DecodeGroup(globalGuid, d[HEAD_LENGTH..FillHead(d)]).0;
      Linked(shown) && u in Seats(g) && RollOf(shown).order == RollOf(g).order
      && RollOf(shown).seats == RollOf(g).seats[u := Seat(true, Seats(g)[u].card.(job := JOB_MANAGER))]
  {
    var g' := AddManager(g, g.leader, u);
    MoveSane(g, g.leader, u);
    RepPromote(g, g.leader, u);
    ViewMove(g, g.leader, u);
    SeatFacts(g, u);
    OneRole(g, u);
    OpRanged(g, OpPromote(g.leader, u));
    PromotedCount(g, u);
    hide AddManager, Rep, Linked, LogCounted, GroupRanged, InfoPacket, DecodeGroup, FillHead, Seats, Guids, Entry;
    PacketShowsRoll(g', globalGuid, rest);
  }

  lemma PromotedCount(g: Group, u: guid)
    requires Linked(g)
    ensures AddManager(g, g.leader, u).count == g.count
  {
    hide Linked;
  }
}
