/** Identifiers stay in the range of their C++ types, so the packets that carry a group's information
    decode to the group. */
module Ranges {
  import opened Bytes
  import opened Packets
  import opened Groups
  import opened GroupRuns
  import opened GroupCodec
  import opened Users
  import opened Servers
  import opened ServerRuns
  import opened Fanouts
  import opened Rosters
  import opened Quotas
  import opened Requests

  predicate NodesInRange(nodes: seq<Member>) { forall n :: 0 <= n < |nodes| ==> MemberInRange(nodes[n]) }

  predicate GroupRanged(g: Group) { 0 < g.id < U32_LIMIT && Is32(g.leader) && NodesInRange(g.nodes) }

  predicate UserRanged(u: User) { Is32(u.id) && Is32(u.icon) }

  ghost predicate UsersRanged(users: map<guid, User>) { forall u <- users :: UserRanged(users[u]) }

  ghost predicate GroupsRanged(groups: map<guid, Group>) { forall g <- groups :: GroupRanged(groups[g]) }

  ghost predicate Ranged(s: Server) { UsersRanged(s.users) && GroupsRanged(s.groups) }

  /** What the decoders guarantee of the requests that bring identifiers. */
  predicate WireRanged(e: Event) {
    match e
    case EAcountAdd(w, _, _) => UserRanged(w)
    case EAcountModify(w, _) => UserRanged(w)
    case EGroupAdd(info, _, _) => GroupRanged(info)
    case _ => true
  }

  // ---------------------------------------------------------------- groups

  /** No node has an identifier it did not have before. */
  ghost predicate NodesKept(g: Group, g': Group) {
    && g'.id == g.id && g'.leader == g.leader && |g'.nodes| == |g.nodes|
    && forall n :: 0 <= n < |g.nodes| ==>
         g'.nodes[n].groupGuid == g.nodes[n].groupGuid && g'.nodes[n].userGuid == g.nodes[n].userGuid
         && g'.nodes[n].iconGuid == g.nodes[n].iconGuid
  }

  lemma KeptRanged(g: Group, g': Group)
    requires NodesKept(g, g') && GroupRanged(g)
    ensures GroupRanged(g')
  {
  }

  lemma AddRanged(g: Group, o: guid, u: User)
    requires GroupRanged(g) && UserRanged(u)
    ensures GroupRanged(AddMember(g, o, u.id, u.icon, u.name))
  {
  }

  lemma DeleteKeeps(g: Group, o: guid, t: guid)
    requires Linked(g)
    ensures NodesKept(g, DeleteMember(g, o, t)) && NodesKept(g, DeleteManager(g, o, t))
  {
    hide Without, Dec32, Groups.Count, Distinct;
  }

  lemma OpRanged(g: Group, op: Op)
    requires Linked(g) && GroupRanged(g) && !op.OpAddMsg? && !op.OpDeleteMsg? && !op.OpClearMsg?
    requires op.OpAdd? ==> Is32(op.user) && Is32(op.icon)
    ensures GroupRanged(Groups.Apply(g, op))
  {
    hide Without, Dec32, Inc32, Groups.Count, Distinct;
  }

  lemma ExpelKeeps(g: Group, u: guid)
    requires GroupSane(g)
    ensures NodesKept(g, Expel(g, u)) && NodesKept(g, ExpelFromRoom(g, u))
  {
    LinkedMove(g, g.leader, u);
    hide Linked, LogCounted, DeleteMember, DeleteManager;
    DeleteKeeps(g, g.leader, u);
    DeleteKeeps(DeleteManager(g, g.leader, u), g.leader, u);
  }

  lemma {:induction false} CountedKeeps(g: Group, users: set<guid>, userConn: map<guid, int>, sender: guid, i: nat)
    requires Linked(g) && i <= |Visited(g, users)|
    ensures NodesKept(g, Counted(g, users, userConn, sender, i))
  {
    hide Visited, VisitedNode, Linked;
    VisitedFacts(g, users);
    if i > 0 {
      CountedKeeps(g, users, userConn, sender, i - 1);
    }
  }

  lemma FanoutKeeps(s: Server, g: Group, m: Msg)
    requires GroupSane(g)
    ensures NodesKept(g, FanoutGroup(s, g, m))
  {
    LogKeepsMembers(g, m);
    hide AddMsg, Linked, LogCounted, Visited, Counted, Servers.Fits;
    var g1 := AddMsg(g, m);
    CountedKeeps(g1, s.users.Keys, s.userConn, m.send, |Visited(g1, s.users.Keys)|);
  }

  lemma {:induction false} EnrollRanged(g: Group, users: map<guid, User>, i: nat)
    requires Linked(g) && GroupRanged(g) && UsersRanged(users) && i <= |Visited(g, users.Keys)|
    ensures GroupRanged(Enroll(g, users, i))
  {
    hide Visited, VisitedNode, Linked;
    VisitedFacts(g, users.Keys);
    if i > 0 {
      EnrollRanged(g, users, i - 1);
    }
  }

  // ---------------------------------------------------------------- requests

  lemma PutRanged(groups: map<guid, Group>, g: guid, x: Group)
    requires GroupsRanged(groups) && GroupRanged(x)
    ensures GroupsRanged(groups[g := x])
  {
    hide GroupRanged;
  }

  /** Every user afterwards has the guid and icon of the same user before. */
  ghost predicate SameIds(users: map<guid, User>, users': map<guid, User>) {
    forall u <- users' :: u in users && users'[u].id == users[u].id && users'[u].icon == users[u].icon
  }

  lemma SameIdsRanged(users: map<guid, User>, users': map<guid, User>)
    requires SameIds(users, users') && UsersRanged(users)
    ensures UsersRanged(users')
  {
  }

  lemma RangedAfterAdd(s: Server, w: User, now: int, fd: int)
    requires Defined(s, EAcountAdd(w, now, fd)) && Ranged(s) && UserRanged(w)
    ensures Ranged(AcountAdd(s, w, now, fd))
  {
    hide Out, Broadcast, AddMember, GroupSane, GroupsSane, UsersSane;
    if PhoneUnique(s, w.phone) == ERROR_OK {
      var u := Registrant(s, w).(regTime := now, online := STATUS_ON_LINE);
      assert UserRanged(u);
      var room := s.groups[ROOM].(leader := if |s.users[u.id := u]| == 1 then u.id else s.groups[ROOM].leader);
      AddRanged(room, 0, u);
      PutRanged(s.groups, ROOM, AddMember(room, 0, u.id, u.icon, u.name));
    }
  }

  lemma ExpelledRanged(s: Server, s0: Server, v: guid)
    requires Sane(s) && Sane(s0) && GroupsRanged(s.groups) && s0.groups == s.groups
    ensures GroupsRanged(Unregister(s0, v).groups)
  {
    hide Expel, Linked, LogCounted, GroupRanged, NodesKept, UsersSane;
    forall g <- s.groups
      ensures GroupSane(s.groups[g]) && GroupRanged(Expel(s.groups[g], v))
    {
      ExpelKeeps(s.groups[g], v);
      KeptRanged(s.groups[g], Expel(s.groups[g], v));
    }
  }

  lemma RangedAfterDelete(s: Server, v: guid, fd: int)
    requires Defined(s, EAcountDelete(v, fd)) && Ranged(s)
    ensures Ranged(AcountDelete(s, v, fd))
  {
    hide AcountDelete, Expel, ExpelFromRoom, Linked, LogCounted, GroupRanged, UserRanged, NodesKept, UsersSane;
    DeletedGroups(s, v, fd);
    UsersLeft(s, v, fd);
    var s0 := s.(connUser := Bracket(s.connUser, fd));
    var gs := Unregister(s0, v).groups;
    ExpelledRanged(s, s0, v);
    if v == s0.connUser[fd] {
      ExpelKeeps(gs[ROOM], v);
      KeptRanged(gs[ROOM], ExpelFromRoom(gs[ROOM], v));
      PutRanged(gs, ROOM, ExpelFromRoom(gs[ROOM], v));
    }
    SameIdsRanged(s.users, AcountDelete(s, v, fd).users);
  }

  lemma UsersLeft(s: Server, v: guid, fd: int)
    requires Defined(s, EAcountDelete(v, fd))
    ensures SameIds(s.users, AcountDelete(s, v, fd).users)
  {
    hide Ack, Broadcast, ExpelFromRoom, ExpelAll, GroupSane;
    UnregisterSane(s.(connUser := Bracket(s.connUser, fd)), v);
  }

  lemma RangedAfterCreate(s: Server, info: Group, now: int, fd: int)
    requires Sane(s) && GroupSane(info) && Ranged(s) && GroupRanged(info)
    ensures Ranged(GroupAdd(s, info, now, fd))
  {
    CreatedGroups(s, info, now, fd);
    UsersCreated(s, info, now, fd);
    SameIdsRanged(s.users, GroupAdd(s, info, now, fd).users);
    hide GroupAdd, Visited, Enroll, LogCounted, GroupRanged, UserRanged;
    var n := |Visited(info, s.users.Keys)|;
    EnrollRanged(info, s.users, n);
    PutRanged(s.groups, info.id, Enroll(info, s.users, n));
  }

  lemma UsersCreated(s: Server, info: Group, now: int, fd: int)
    requires Sane(s) && GroupSane(info)
    ensures SameIds(s.users, GroupAdd(s, info, now, fd).users)
  {
    hide Ack, Visited, Enroll, GroupSane;
  }

  lemma RangedAfterModify(s: Server, g: guid, o: guid, t: guid, k: u8, p: u8, now: int, fd: int)
    requires Defined(s, EGroupModify(g, o, t, k, p, now, fd)) && Ranged(s)
    ensures Ranged(GroupModify(s, g, o, t, k, p, now, fd))
  {
    ModifyIsOp(s, g, o, t, k, p, now, fd);
    UsersModified(s, g, o, t, k, p, now, fd);
    SameIdsRanged(s.users, GroupModify(s, g, o, t, k, p, now, fd).users);
    hide GroupModify, Groups.Apply, Linked, LogCounted, GroupRanged;
    if k < MODIFY_TYPE_MAX && g in s.groups && o != 0 && o in s.users && t != 0 && t in s.users {
      assert UserRanged(s.users[t]) && s.users[t].id == t;
      OpRanged(s.groups[g], OpOf(s, o, t, k, p));
      PutRanged(s.groups, g, Groups.Apply(s.groups[g], OpOf(s, o, t, k, p)));
    }
  }

  lemma UsersModified(s: Server, g: guid, o: guid, t: guid, k: u8, p: u8, now: int, fd: int)
    requires Defined(s, EGroupModify(g, o, t, k, p, now, fd))
    ensures SameIds(s.users, GroupModify(s, g, o, t, k, p, now, fd).users)
  {
    hide Ack, Broadcast, AddMember, DeleteMember, ChangeRole, Linked, LogCounted;
  }

  lemma RangedAfterErase(s: Server, g: guid, o: guid, fd: int)
    requires Ranged(s)
    ensures Ranged(GroupDelete(s, g, o, fd))
  {
    hide Ack, Visited, GroupRanged;
    assert SameIds(s.users, GroupDelete(s, g, o, fd).users);
    SameIdsRanged(s.users, GroupDelete(s, g, o, fd).users);
  }

  lemma RangedAfterDispatch(s: Server, now: int)
    requires Defined(s, EDispatch(now)) && Ranged(s)
    ensures Ranged(Dispatch(s, now))
  {
    hide Ack, FanoutGroup, FanoutSends, Visited, Servers.Fits, Linked, LogCounted, GroupRanged, Blocked, UserRanged;
    var m := s.queue[0];
    assert SameIds(s.users, Dispatch(s, now).users);
    SameIdsRanged(s.users, Dispatch(s, now).users);
    if m.recv in s.groups {
      var g := s.groups[m.recv];
      FanoutKeeps(s, g, m);
      KeptRanged(g, FanoutGroup(s, g, m));
      PutRanged(s.groups, m.recv, FanoutGroup(s, g, m));
    }
  }

  lemma RangedAfterOther(s: Server, e: Event)
    requires Defined(s, e) && Ranged(s) && WireRanged(e)
    requires !e.EDispatch? && !e.EAcountAdd? && !e.EAcountDelete? && !e.EGroupAdd? && !e.EGroupModify?
      && !e.EGroupDelete?
    ensures Ranged(Handle(s, e))
  {
    GroupsKept(s, e);
    if e.EAcountModify? {
      hide GroupsRanged, GroupsSane, Out;
    } else {
      IdsKept(s, e);
      SameIdsRanged(s.users, Handle(s, e).users);
      hide Handle, GroupsRanged, GroupsSane, SameIds;
    }
  }

  lemma IdsKept(s: Server, e: Event)
    requires Defined(s, e) && !e.EDispatch? && !e.EAcountAdd? && !e.EAcountDelete? && !e.EGroupAdd?
    requires !e.EGroupModify? && !e.EGroupDelete? && !e.EAcountModify?
    ensures SameIds(s.users, Handle(s, e).users)
  {
    hide MsgSend, MsgListReq, GroupInfoReq, BriefInfoReq, Ack, Out, GroupsSane, UsersSane;
  }

  lemma RangedStep(s: Server, e: Event)
    requires Defined(s, e) && Ranged(s) && WireRanged(e)
    ensures Ranged(Handle(s, e))
  {
    hide AcountAdd, AcountModify, AcountDelete, AcountLogin, AcountLogout, Close, GroupAdd, GroupModify, GroupDelete;
    hide MsgSend, MsgListReq, GroupInfoReq, BriefInfoReq, Dispatch, Ack, GroupSane, GroupRanged, Ranged;
    match e
    case EAcountAdd(w, now, fd) => RangedAfterAdd(s, w, now, fd);
    case EAcountDelete(u, fd) => RangedAfterDelete(s, u, fd);
    case EGroupAdd(info, now, fd) => RangedAfterCreate(s, info, now, fd);
    case EGroupModify(g, o, t, k, p, now, fd) => RangedAfterModify(s, g, o, t, k, p, now, fd);
    case EGroupDelete(g, o, fd) => RangedAfterErase(s, g, o, fd);
    case EDispatch(now) => RangedAfterDispatch(s, now);
    case _ => RangedAfterOther(s, e);
  }

  lemma RangedRun(ss: seq<Server>, es: seq<Event>, n: nat)
    requires IsRun(ss, es) && n <= |es| && Ranged(ss[0])
    requires forall i :: 0 <= i < n ==> WireRanged(es[i])
    ensures Ranged(ss[n])
  {
    hide Handle, Defined, Ranged, WireRanged;
    forall s, e | Ranged(s) && Defined(s, e) && WireRanged(e)
      ensures Ranged(Handle(s, e))
    {
      RangedStep(s, e);
    }
    RunKeeps(ss, es, s => Ranged(s), (s, e) => WireRanged(e), n);
  }

  /** Whatever bytes arrive, the identifiers a packet brings are in range. */
  lemma RequestsAreRanged(s: Server, head: Head, payload: seq<byte>, now: int, fd: int)
    ensures WireRanged(Requested(s, head, payload, now, fd))
  {
    hide Get16, DecodeMembers, IndexBy;
  }

  // ---------------------------------------------------------------- end to end

  /** Some group was decoded with the guid, count, leader, member sequence and roles of `g`. */
  ghost predicate Conveys(decoded: Group, g: Group) {
    && Rep(decoded) && Rep(g)
    && decoded.id == g.id && decoded.count == g.count && decoded.leader == g.leader
    && Roster(decoded) == Roster(g)
    && decoded.managers.Keys == g.managers.Keys && decoded.members.Keys == g.members.Keys
  }

  /** A receiver of the information packet consumes exactly the packet, whatever follows it, and
      decodes its payload to the group. */
  lemma InfoPacketConveys(g: Group, globalGuid: guid, rest: seq<byte>)
    requires Rep(g) && GroupSane(g) && GroupRanged(g) && GroupLength(g) <= PAYLOAD_MAX
    ensures var d := InfoPacket(g) + rest;
      FillHead(d) == |InfoPacket(g)|
      && Conveys(DecodeGroup(globalGuid, d[HEAD_LENGTH..FillHead(d)]).0, g)
  {
    hide Put32, EncodeGroup, DecodeGroup, Conveys, Frame, ReadHead, FillHead;
    RangedInRange(g);
    FrameRoundTrip(0, GROUP_INFO_ACK, EncodeGroup(g), rest);
    PayloadConveys(g, globalGuid);
  }

  lemma RangedInRange(g: Group)
    requires Linked(g) && GroupSane(g) && GroupRanged(g)
    ensures GroupInRange(g)
  {
    forall m <- Roster(g)
      ensures MemberInRange(m)
    {
      var i :| 0 <= i < |g.list| && Roster(g)[i] == m;
      assert g.list[i] in g.list;
    }
  }

  lemma PayloadConveys(g: Group, globalGuid: guid)
    requires Rep(g) && GroupInRange(g) && g.id != 0
    ensures Conveys(DecodeGroup(globalGuid, EncodeGroup(g)).0, g)
  {
    hide EncodeGroup, DecodeGroup, Roster;
    GroupRoundTrip(g, globalGuid, []);
    assert EncodeGroup(g) + [] == EncodeGroup(g);
  }

  /** End to end, over whole runs: if every request came through the decoder and kept the groups
      represented, the reply to a request for a group's information, framed and decoded by the
      receiver, is the group. The broadcasts send the same packet. */
  lemma InfoReplyRoundTrip(ss: seq<Server>, es: seq<Event>, n: nat, group: guid, fd: int, rest: seq<byte>)
    requires IsRun(ss, es) && n <= |es| && Ranged(ss[0]) && AllGroupsRep(ss[0]) && Sane(ss[n])
    requires forall i :: 0 <= i < n ==> WireRanged(es[i]) && RosterSafe(ss[i], es[i])
    requires group in ss[n].groups && GroupLength(ss[n].groups[group]) <= PAYLOAD_MAX
    ensures var g := ss[n].groups[group];
      GroupSane(g)
      && var d := InfoPacket(g) + rest;
      GroupInfoReq(ss[n], group, fd) == ss[n].(sent := ss[n].sent + [Send(fd, InfoPacket(g))])
      && HEAD_LENGTH <= FillHead(d) <= |d|
      && Conveys(DecodeGroup(1, d[HEAD_LENGTH..FillHead(d)]).0, g)
  {
    RangedRun(ss, es, n);
    RosterRun(ss, es, n);
    hide IsRun, WireRanged, RosterSafe, Rep, LogCounted, Linked, GroupRanged, Conveys, FillHead, InfoPacket;
    assert GroupSane(ss[n].groups[group]);
    InfoPacketConveys(ss[n].groups[group], 1, rest);
  }
}
