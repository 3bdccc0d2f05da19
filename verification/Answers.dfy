/** How requests are answered and refused: the packets, byte for byte, and that a refusal has no other
    effect. */
module Answers {
  import opened Bytes
  import opened Packets
  import opened Groups
  import opened GroupCodec
  import opened GroupRuns
  import opened Users
  import opened Servers
  import opened ServerRuns
  import opened Sessions
  import opened Membership
  import opened Fanouts
  import opened Rosters
  import opened Quotas

  /** The packet that carries a code alone, and the one that carries a code and a guid. */
  function Code(kind: u16, code: u16): seq<byte> { Frame(0, kind, Put16(code)) }

  function CodeFor(kind: u16, code: u16, u: guid): seq<byte> { Frame(0, kind, Put16(code) + Put32(u)) }

  function Sent(s: Server, fd: int, data: seq<byte>): Server { s.(sent := s.sent + [Send(fd, data)]) }

  // ---------------------------------------------------------------- accounts

  /** Whether a phone may register is answered by the index and changes nothing. */
  lemma CanRegisterAnswered(s: Server, phone: seq<byte>, fd: int)
    requires Sane(s)
    ensures Handle(s, ECanReg(phone, fd)) == Sent(s, fd, Code(ACOUNT_CAN_REG_ACK,
      if s.hash.apply(phone) in s.phones then ERROR_PHONE_EXIST else ERROR_OK))
  {
  }

  /** A registration under a phone that is indexed is refused, and that is all. */
  lemma RegistrationRefused(s: Server, w: User, now: int, fd: int)
    requires Defined(s, EAcountAdd(w, now, fd)) && s.hash.apply(w.phone) in s.phones
    ensures Handle(s, EAcountAdd(w, now, fd)) == Sent(s, fd, CodeFor(ACOUNT_ADD_ACK, ERROR_PHONE_EXIST, 0))
  {
    hide Broadcast, AddMember;
  }

  /** A socket deletes the account it is bound to and no other; a refusal leaves only the entry that
      reading the map inserts. */
  lemma DeletionRefused(s: Server, v: guid, fd: int)
    requires Sane(s) && v != BoundUser(s.connUser, fd)
    ensures Defined(s, EAcountDelete(v, fd))
    ensures Handle(s, EAcountDelete(v, fd))
      == Sent(s.(connUser := if fd in s.connUser then s.connUser else s.connUser[fd := 0]), fd,
              Code(ACOUNT_DELETE_ACK, ERROR_CANT_DELETE_OTHER))
  {
    hide Broadcast, ExpelFromRoom, Unregister;
  }

  /** A deleted account is gone from the users and from the index, and nobody else is touched. */
  lemma DeletionAccepted(s: Server, v: guid, fd: int)
    requires Defined(s, EAcountDelete(v, fd)) && v == BoundUser(s.connUser, fd)
    ensures var s' := Handle(s, EAcountDelete(v, fd));
      s'.users == s.users - {v}
      && s'.phones == (if v in s.users then s.phones - {s.hash.apply(s.users[v].phone)} else s.phones)
      && s'.queue == s.queue && s'.lastUser == s.lastUser
      && |s'.sent| > |s.sent| && s'.sent[|s'.sent| - 1] == Send(fd, Code(ACOUNT_DELETE_ACK, ERROR_OK))
  {
    hide Broadcast, ExpelFromRoom, Linked, LogCounted, ExpelAll;
    var s0 := s.(connUser := Bracket(s.connUser, fd));
    UnregisterSane(s0, v);
    var s1 := Unbind(Unregister(s0, v), v);
    ExpelSane(s1.groups[ROOM], v);
    BroadcastGrows(s1.(groups := s1.groups[ROOM := ExpelFromRoom(s1.groups[ROOM], v)]),
      ExpelFromRoom(s1.groups[ROOM], v), true, fd);
  }

  lemma BroadcastGrows(s: Server, g: Group, own: bool, fd: int)
    requires GroupSane(g)
    ensures s.sent <= Broadcast(s, g, own, fd).sent
  {
    hide Deliver, Visited, InfoPacket, Linked, LogCounted;
  }

  /** A socket logs out the user it is bound to and no other. */
  lemma LogoutRefused(s: Server, u: guid, now: int, fd: int)
    requires Sane(s) && u != BoundUser(s.connUser, fd)
    ensures Handle(s, ELogout(u, now, fd))
      == Sent(s.(connUser := if fd in s.connUser then s.connUser else s.connUser[fd := 0]), fd,
              Code(ACOUNT_LOGOUT_ACK, ERROR_CANT_LOGOUT_OTHER))
  {
  }

  /** Logging out takes the user off line and unbinds the socket his messages go to: his own, or, when he
      has none, socket 0. */
  lemma LogoutAccepted(s: Server, u: guid, now: int, fd: int)
    requires Sane(s) && u == BoundUser(s.connUser, fd)
    ensures var users := if u in s.users
        then s.users[u := s.users[u].(lastLogout := now, online := STATUS_OFF_LINE)] else s.users;
      var connUser := if fd in s.connUser then s.connUser else s.connUser[fd := 0];
      var gone := if u in s.userConn then s.userConn[u] else 0;
      Handle(s, ELogout(u, now, fd))
      == Sent(s.(users := users, connUser := connUser - {gone}, userConn := s.userConn - {u}), fd,
              Code(ACOUNT_LOGOUT_ACK, ERROR_OK))
  {
    assert s.userConn[u := 0] - {u} == s.userConn - {u};
  }

  /** The same for the sessions of a deleted account. */
  lemma DeletionUnbinds(s: Server, u: guid, fd: int)
    requires Defined(s, EAcountDelete(u, fd)) && u == BoundUser(s.connUser, fd)
    ensures var s' := Handle(s, EAcountDelete(u, fd));
      var connUser := if fd in s.connUser then s.connUser else s.connUser[fd := 0];
      s'.connUser == connUser - {if u in s.userConn then s.userConn[u] else 0} && s'.userConn == s.userConn - {u}
  {
    ConnectionsAfterDelete(s, u, fd);
    assert s.userConn[u := 0] - {u} == s.userConn - {u};
    hide AcountDelete;
  }

  // ---------------------------------------------------------------- groups

  /** The code a request to found a group gets, in the order of the tests. */
  lemma CreationAnswered(s: Server, info: Group, now: int, fd: int)
    requires Defined(s, EGroupAdd(info, now, fd))
    ensures var s' := Handle(s, EGroupAdd(info, now, fd));
      var leads := info.leader in s.users;
      (!leads ==> s' == Sent(s, fd, Code(GROUP_ADD_ACK, ERROR_GROUP_OPERATOR_NOT_EXIST)))
      && (leads && s.users[info.leader].owned >= OWN_GROUP_MAX
        ==> s' == Sent(s, fd, Code(GROUP_ADD_ACK, ERROR_CREATE_GROUP_MAX)))
      && (leads && s.users[info.leader].owned < OWN_GROUP_MAX ==>
        info.id in s'.groups
        && s' == Sent(s, fd, Code(GROUP_ADD_ACK, ERROR_OK)).(users := s'.users, groups := s'.groups))
  {
    hide Visited, Enroll, Linked, LogCounted;
  }

  /** Why a modification is refused, or 0. */
  function ModifyCode(s: Server, g: guid, o: guid, t: guid, k: u8): u16 {
    if k > MODIFY_TYPE_MAX then ERROR_GROUP_MODIFY_TYPE
    else if g !in s.groups then ERROR_GROUP_NOT_EXIST
    else if o != 0 && o !in s.users then ERROR_GROUP_OPERATOR_NOT_EXIST
    else if t != 0 && t !in s.users then ERROR_GROUP_TARGET_NOT_EXIST
    else ERROR_OK
  }

  /** A modification is refused for the first of these reasons and then has no other effect. */
  lemma ModificationRefused(s: Server, g: guid, o: guid, t: guid, k: u8, p: u8, now: int, fd: int)
    requires Defined(s, EGroupModify(g, o, t, k, p, now, fd)) && ModifyCode(s, g, o, t, k) != ERROR_OK
    ensures Handle(s, EGroupModify(g, o, t, k, p, now, fd))
      == Sent(s, fd, Code(GROUP_MODIFY_ACK, ModifyCode(s, g, o, t, k)))
  {
    hide AddToGroup, RemoveFromGroup, ChangeRole, Linked, LogCounted, GroupsSane, UsersSane;
  }

  /** Otherwise it is answered with success, last, whether or not the group accepts it; and unless it is an
      addition that the group accepts, that is the only packet. */
  lemma ModificationAnswered(s: Server, g: guid, o: guid, t: guid, k: u8, p: u8, now: int, fd: int)
    requires Defined(s, EGroupModify(g, o, t, k, p, now, fd)) && ModifyCode(s, g, o, t, k) == ERROR_OK
    ensures var s' := Handle(s, EGroupModify(g, o, t, k, p, now, fd));
      var reply := Send(fd, Code(GROUP_MODIFY_ACK, ERROR_OK));
      |s'.sent| > |s.sent| && s'.sent[|s'.sent| - 1] == reply && s.sent <= s'.sent
      && (!(k == MEMBER_ADD && o != 0 && t != 0 && CanAdd(s.groups[g], o, t)) ==> s'.sent == s.sent + [reply])
  {
    hide AddToGroup, RemoveFromGroup, ChangeRole, Linked, LogCounted, CanAdd, GroupsSane, UsersSane;
    if t in s.users && g in s.groups {
      AddToGroupGrows(s, g, o, t, now, fd);
    }
  }

  lemma AddToGroupGrows(s: Server, g: guid, o: guid, t: guid, now: int, fd: int)
    requires Sane(s) && g in s.groups && t in s.users && Roomy(s.groups[g])
    ensures s.sent <= AddToGroup(s, g, o, t, now, fd).sent
    ensures !CanAdd(s.groups[g], o, t) ==> AddToGroup(s, g, o, t, now, fd) == s
  {
    var x, u := s.groups[g], s.users[t];
    hide AddMember, Linked, LogCounted, Broadcast, GroupsSane, UsersSane;
    if CanAdd(x, o, t) {
      var x' := AddMember(x, o, t, u.icon, u.name);
      AddSane(x, o, t, u.icon, u.name) by { SaneAt(s, g); }
      BroadcastGrows(s.(groups := s.groups[g := x'], users := s.users[t := Join(u, g, now)]), x', true, fd);
    }
  }

  /** Only the registered leader deletes a group; success means it is gone. */
  lemma ErasureAnswered(s: Server, g: guid, o: guid, fd: int)
    requires Sane(s)
    ensures var s' := Handle(s, EGroupDelete(g, o, fd));
      if g !in s.groups then s' == Sent(s, fd, Code(GROUP_DELETE_ACK, ERROR_GROUP_NOT_EXIST))
      else if o != s.groups[g].leader then s' == Sent(s, fd, Code(GROUP_DELETE_ACK, ERROR_GROUP_NOT_LEADER))
      else if o !in s.users then s' == Sent(s, fd, Code(GROUP_DELETE_ACK, ERROR_GROUP_OPERATOR_NOT_EXIST))
      else s' == Sent(s, fd, Code(GROUP_DELETE_ACK, ERROR_OK)).(users := s'.users, groups := s.groups - {g})
  {
    hide Visited, GroupsSane;
  }

  // ---------------------------------------------------------------- reading

  /** A request for the messages of a group that is not there is refused; requests for information about
      what is not there get no answer. None has an effect. */
  lemma MissingAnswered(s: Server, g: guid, u: guid, fd: int)
    requires Sane(s)
    ensures g !in s.groups ==>
      Handle(s, EMsgListReq(g, fd)) == Sent(s, fd, Code(CLIENT_ACK_SEND, ERROR_MSG_LIST_REQ))
      && Handle(s, EGroupInfoReq(g, fd)) == s
    ensures u !in s.users ==> Handle(s, EBriefInfoReq(u, fd)) == s
  {
    hide GroupsSane, UsersSane, InfoPacket, Frame, BriefPacket;
  }

  /** A packet that cannot be parsed gets an error and has no effect; an ignored one has neither. */
  lemma UnparsedAnswered(s: Server, fd: int)
    requires Sane(s)
    ensures Handle(s, ERefuse(fd)) == Sent(s, fd, Code(CLIENT_ACK_SEND, ERROR_PARSE_MSG))
    ensures Handle(s, EIgnore) == s
  {
    hide GroupsSane, UsersSane;
  }

  /** The brief information shows the user's guid, icon, name and status, and asking changes nothing. */
  lemma BriefAnswered(s: Server, u: guid, fd: int)
    requires Sane(s) && u in s.users
    ensures var x, s' := s.users[u], Handle(s, EBriefInfoReq(u, fd));
      s' == Sent(s, fd, Frame(0, USER_INFO_BRIEF_NOTIFY, Put32(u) + Put32(x.icon) + x.name + [x.online]))
  {
    hide GroupsSane;
  }

  /** A group's information is sent if it fits in the buffer, and not at all otherwise. */
  lemma InfoAnswered(s: Server, g: guid, fd: int)
    requires Sane(s) && g in s.groups
    ensures Linked(s.groups[g]) && s.groups[g].count == |s.groups[g].list|
    ensures Handle(s, EGroupInfoReq(g, fd))
      == if 10 + 12 + 48 * |s.groups[g].list| <= 8192
         then Sent(s, fd, Frame(0, GROUP_INFO_ACK, EncodeGroup(s.groups[g]))) else s
  {
    SaneAt(s, g);
    hide GroupsSane, UsersSane, EncodeGroup, Frame, Points, Apart, Distinct, LogCounted;
  }

  // ---------------------------------------------------------------- the dispatch loop

  /** The permission forbids sending, or the limit of 50 or of 10 is used up. */
  predicate MayNotSend(m: Member) {
    m.permissions == 8 || (m.permissions == 6 && m.msgCount >= 51) || (m.permissions == 7 && m.msgCount >= 11)
  }

  /** A turn of the loop on a message to a group that is gone drops it; on a message of a member who may
      not send it tells the sender so, on the sender's socket or, without one, on socket 0, which it then
      enters in the map; in neither case is anything else changed. */
  lemma TurnRefuses(s: Server, now: int)
    requires Defined(s, EDispatch(now))
    ensures var m, s' := s.queue[0], Handle(s, EDispatch(now));
      (m.recv !in s.groups ==> s' == s.(queue := s.queue[1..]))
      && (m.recv in s.groups ==> Linked(s.groups[m.recv]) && m.send in Keys(s.groups[m.recv]))
      && (m.recv in s.groups && MayNotSend(Entry(s.groups[m.recv], m.send)) ==>
        var fd := if m.send in s.userConn then s.userConn[m.send] else 0;
        s' == Sent(s, fd, Code(MSG_SEND_ACK, ERROR_GROUP_MSG_LIMIT))
              .(queue := s.queue[1..], userConn := s.userConn[m.send := fd]))
  {
    hide Fanout, LogCounted, Points, Apart, Distinct;
    var m := s.queue[0];
    if m.send in s.userConn {
      assert s.userConn[m.send := s.userConn[m.send]] == s.userConn;
    }
  }

  /** Any other message is stored at the end of the group's log, with the number it carries or, if that is
      0, the one after the last stored; the oldest goes when there are more than 100. */
  lemma TurnStores(s: Server, now: int)
    requires Defined(s, EDispatch(now)) && s.queue[0].recv in s.groups
    requires Linked(s.groups[s.queue[0].recv])
    requires !MayNotSend(Entry(s.groups[s.queue[0].recv], s.queue[0].send))
    ensures var m, s' := s.queue[0], Handle(s, EDispatch(now));
      var log := s.groups[m.recv].log;
      var next := if log == [] then 1 else (log[|log| - 1].num + 1) % 0x1_0000;
      var all := log + [m.(num := if m.num == 0 then next else m.num)];
      m.recv in s'.groups && s'.groups[m.recv].log == (if |all| > 100 then all[1..] else all)
      && s'.queue == s.queue[1..] && s'.userConn == s.userConn
  {
    hide Dispatch, FanoutGroup, Linked, LogCounted, UsersSane, Blocked;
    SentIsNotBlocked(Entry(s.groups[s.queue[0].recv], s.queue[0].send));
    DispatchedGroup(s, now, s.queue[0].recv);
    TurnPops(s, now);
    StoredLog(s, s.groups[s.queue[0].recv], s.queue[0]);
  }

  lemma SentIsNotBlocked(m: Member)
    ensures Blocked(m) <==> MayNotSend(m)
  {
  }

  lemma TurnPops(s: Server, now: int)
    requires Defined(s, EDispatch(now))
    ensures Dispatch(s, now).queue == s.queue[1..]
    ensures var m := s.queue[0];
      m.recv in s.groups && !Blocked(s.groups[m.recv].nodes[Lookup(s.groups[m.recv], m.send)])
      ==> Dispatch(s, now).userConn == s.userConn
  {
    hide Fanout, Ack, Blocked, LogCounted, Points, Apart, Distinct;
  }

  lemma StoredLog(s: Server, g: Group, m: Msg)
    requires GroupSane(g) && m.kind == MSG_TYPE_GROUP && m.recv == g.id
    ensures var next := if g.log == [] then 1 else (g.log[|g.log| - 1].num + 1) % 0x1_0000;
      var all := g.log + [m.(num := if m.num == 0 then next else m.num)];
      FanoutGroup(s, g, m).log == if |all| > 100 then all[1..] else all
  {
    LogKeepsMembers(g, m);
    hide Counted, Visited, Servers.Fits, Linked, Inc32, Dec32;
    var next := if g.log == [] then 1 else (g.log[|g.log| - 1].num + 1) % 0x1_0000;
    var all := g.log + [m.(num := if m.num == 0 then next else m.num)];
    assert AddMsg(g, m).log == (if |all| > 100 then all[1..] else all) by { AddedLog(g, m); }
    hide AddMsg, Number;
  }

  lemma AddedLog(g: Group, m: Msg)
    requires LogCounted(g) && m.kind == MSG_TYPE_GROUP && m.recv == g.id
    ensures var next := if g.log == [] then 1 else (g.log[|g.log| - 1].num + 1) % 0x1_0000;
      var all := g.log + [m.(num := if m.num == 0 then next else m.num)];
      AddMsg(g, m).log == if |all| > 100 then all[1..] else all
  {
  }
}
