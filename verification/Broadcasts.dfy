/** Who receives the group information that registrations, account deletions and additions to groups
    send out. */
module Broadcasts {
  import opened Bytes
  import opened Groups
  import opened GroupRuns
  import opened GroupCodec
  import opened Users
  import opened Servers
  import opened ServerRuns
  import opened Membership
  import opened Fanouts
  import opened Rooms

  predicate Sendable(g: Group) { GroupLength(g) <= PAYLOAD_MAX }

  /** The packets a broadcast to the requester's socket adds to the log. */
  function Answers(g: Group, fd: int, n: nat): (out: seq<Send>)
    requires GroupSane(g)
    ensures forall k :: 0 <= k < |out| ==> out[k].fd == fd
  {
    if Sendable(g) then Copies(Send(fd, InfoPacket(g)), n) else []
  }

  lemma RequesterBroadcast(s: Server, g: Group, fd: int) returns (to: seq<guid>)
    requires GroupSane(g)
    ensures Audience(to, g, s.users.Keys, s.userConn)
    ensures Broadcast(s, g, true, fd).sent == s.sent + Answers(g, fd, |to|)
  {
    if Sendable(g) {
      to := BroadcastToRequester(s, g, fd);
    } else {
      to := AudienceOf(g, s.users.Keys, s.userConn);
    }
  }

  /** Nothing was sent to any other socket. */
  ghost predicate OnlyTo(s: Server, s': Server, fd: int) {
    |s.sent| <= |s'.sent| && s'.sent[..|s.sent|] == s.sent
      && forall k :: |s.sent| <= k < |s'.sent| ==> s'.sent[k].fd == fd
  }

  // ---------------------------------------------------------------- account deletion

  /** A successful account deletion sends the room's information to the requester's socket, as many
      times as the room has connected members within reach, and then the reply. No member's own
      socket receives anything. */
  lemma DeletionAnswersRequester(s: Server, v: guid, fd: int) returns (to: seq<guid>)
    requires Defined(s, EAcountDelete(v, fd)) && v == Bracket(s.connUser, fd)[fd]
    ensures var s' := Handle(s, EAcountDelete(v, fd));
      ROOM in s'.groups && GroupSane(s'.groups[ROOM]) && Audience(to, s'.groups[ROOM], s'.users.Keys, s'.userConn)
      && s'.sent == s.sent + Answers(s'.groups[ROOM], fd, |to|) + [Send(fd, AckBytes(ACOUNT_DELETE_ACK, ERROR_OK))]
      && OnlyTo(s, s', fd)
  {
    hide Linked, LogCounted, ExpelFromRoom, ExpelAll, Broadcast, AckBytes, Answers, Audience, GroupsSane, UsersSane;
    AcountDeleteSane(s, v, fd);
    SaneGroup(AcountDelete(s, v, fd), ROOM);
    hide GroupSane;
    var s0 := s.(connUser := Bracket(s.connUser, fd));
    UnregisterSane(s0, v);
    var s1 := Unbind(Unregister(s0, v), v);
    SaneGroup(s1, ROOM);
    var room := ExpelFromRoom(s1.groups[ROOM], v);
    to := RequesterBroadcast(s1.(groups := s1.groups[ROOM := room]), room, fd);
  }

  lemma SaneGroup(s: Server, g: guid)
    requires Sane(s) && g in s.groups
    ensures GroupSane(s.groups[g]) && Linked(s.groups[g])
  {
  }

  // ---------------------------------------------------------------- addition to a group

  /** An accepted addition sends the group's information to the requester's socket, as many times as
      the group has connected members within reach, and then the reply. */
  lemma AdditionAnswersRequester(s: Server, g: guid, o: guid, t: guid, p: u8, now: int, fd: int) returns (to: seq<guid>)
    requires Defined(s, EGroupModify(g, o, t, MEMBER_ADD, p, now, fd))
    requires g in s.groups && o != 0 && o in s.users && t != 0 && t in s.users
    requires CanAdd(s.groups[g], o, t)
    ensures var s' := Handle(s, EGroupModify(g, o, t, MEMBER_ADD, p, now, fd));
      g in s'.groups && GroupSane(s'.groups[g]) && Audience(to, s'.groups[g], s'.users.Keys, s'.userConn)
      && s'.sent == s.sent + Answers(s'.groups[g], fd, |to|) + [Send(fd, AckBytes(GROUP_MODIFY_ACK, ERROR_OK))]
      && OnlyTo(s, s', fd)
  {
    hide Linked, LogCounted, Broadcast, AckBytes, Answers, Audience, GroupsSane, UsersSane, AddMember;
    GroupModifySane(s, g, o, t, MEMBER_ADD, p, now, fd);
    var s' := GroupModify(s, g, o, t, MEMBER_ADD, p, now, fd);
    var u := s.users[t];
    var g' := AddMember(s.groups[g], o, t, u.icon, u.name);
    var s1 := s.(groups := s.groups[g := g'], users := s.users[t := Join(u, g, now)]);
    assert g in s'.groups && s'.groups[g] == g';
    SaneGroup(s', g);
    hide GroupSane;
    to := RequesterBroadcast(s1, g', fd);
  }

  // ---------------------------------------------------------------- registration

  /** A registration sends the room's information once to each connected member within reach, which
      is every connected member if all were registered before, and then the reply. */
  lemma RegistrationReachesRoom(s: Server, w: User, now: int, fd: int) returns (to: seq<guid>)
    requires Defined(s, EAcountAdd(w, now, fd)) && PhoneUnique(s, w.phone) == ERROR_OK
    ensures var s' := Handle(s, EAcountAdd(w, now, fd));
      ROOM in s'.groups && GroupSane(s'.groups[ROOM]) && Audience(to, s'.groups[ROOM], s'.users.Keys, s'.userConn)
      && (RoomRegistered(s) ==> forall u :: u in to <==> u in Keys(s'.groups[ROOM]) && u in s'.userConn)
      && (forall k :: 0 <= k < |to| ==> to[k] in s'.userConn)
      && s'.sent == s.sent
        + (if Sendable(s'.groups[ROOM]) then Posted(to, |to|, s'.userConn, InfoPacket(s'.groups[ROOM])) else [])
        + [Send(fd, UserAckBytes(ACOUNT_ADD_ACK, ERROR_OK, Registrant(s, w).id))]
  {
    var s' := AcountAdd(s, w, now, fd);
    AcountAddSane(s, w, now, fd);
    RegistrationSends(s, w, now, fd);
    SaneGroup(s', ROOM);
    hide AcountAdd, GroupSane, Audience, Posted, InfoPacket, Broadcast, UserAckBytes, Sendable, Keys, Inc32;
    to := MemberBroadcast(s'.(sent := s.sent), s'.groups[ROOM], fd);
    if RoomRegistered(s) {
      RegisteredRoom(s, w, now, fd);
      RoomAudience(s', to);
    }
  }

  lemma RegistrationSends(s: Server, w: User, now: int, fd: int)
    requires Defined(s, EAcountAdd(w, now, fd)) && PhoneUnique(s, w.phone) == ERROR_OK
    ensures var s' := AcountAdd(s, w, now, fd);
      ROOM in s'.groups && GroupSane(s'.groups[ROOM])
      && s'.sent == Broadcast(s'.(sent := s.sent), s'.groups[ROOM], false, fd).sent
        + [Send(fd, UserAckBytes(ACOUNT_ADD_ACK, ERROR_OK, Registrant(s, w).id))]
  {
    AcountAddSane(s, w, now, fd);
    assert GroupSane(s.groups[ROOM]);
    hide Linked, LogCounted, Broadcast, UserAckBytes, AddMember, GroupsSane, UsersSane, Inc32;
    var u := Registrant(s, w).(regTime := now, online := STATUS_ON_LINE);
    var users := s.users[u.id := u];
    var room := s.groups[ROOM].(leader := if |users| == 1 then u.id else s.groups[ROOM].leader);
    LeaderSane(s.groups[ROOM], room.leader);
    AddSane(room, 0, u.id, u.icon, u.name);
    var room' := AddMember(room, 0, u.id, u.icon, u.name);
    var s1 := s.(users := users, lastUser := Inc32(s.lastUser), phones := s.phones[s.hash.apply(u.phone) := u.id],
                 groups := s.groups[ROOM := room']);
    assert AcountAdd(s, w, now, fd).(sent := s.sent) == s1;
  }

  lemma RoomAudience(s: Server, to: seq<guid>)
    requires RoomRegistered(s) && ROOM in s.groups && Audience(to, s.groups[ROOM], s.users.Keys, s.userConn)
    ensures forall u :: u in to <==> u in Keys(s.groups[ROOM]) && u in s.userConn
  {
    VisitsReachable(s.groups[ROOM], s.users.Keys);
    assert forall u :: u in Keys(s.groups[ROOM]) <==> Lists(s.groups, ROOM, u);
    hide Reachable;
  }

  lemma RegisteredRoom(s: Server, w: User, now: int, fd: int)
    requires Defined(s, EAcountAdd(w, now, fd)) && RoomRegistered(s)
    ensures RoomRegistered(AcountAdd(s, w, now, fd))
  {
    RoomAfterAdd(s, w, now, fd);
    hide AcountAdd;
    RoomKept(s, AcountAdd(s, w, now, fd));
  }

  lemma MemberBroadcast(s: Server, g: Group, fd: int) returns (to: seq<guid>)
    requires GroupSane(g)
    ensures Audience(to, g, s.users.Keys, s.userConn) && forall k :: 0 <= k < |to| ==> to[k] in s.userConn
    ensures Broadcast(s, g, false, fd).sent
      == s.sent + if Sendable(g) then Posted(to, |to|, s.userConn, InfoPacket(g)) else []
  {
    if Sendable(g) {
      to := BroadcastToMembers(s, g, fd);
    } else {
      to := AudienceOf(g, s.users.Keys, s.userConn);
    }
  }
}
