/** Every message the server stores came off the wire, so the reply to a message-list request
    decodes to the stored log. */
module MessageLists {
  import opened Bytes
  import opened Packets
  import opened Groups
  import opened GroupRuns
  import opened MsgListAck
  import opened Users
  import opened Servers
  import opened ServerRuns

  predicate AllSound(ms: seq<Msg>) { forall m <- ms :: Sound(m) }

  /** A log holds group messages only. */
  predicate SoundLog(log: seq<Msg>) { forall m <- log :: Sound(m) && m.kind == MSG_TYPE_GROUP }

  /** The length field of every queued and stored message is the length of its text, and the stored
      ones are group messages. */
  ghost predicate Lengths(s: Server) {
    AllSound(s.queue) && LogsSound(s.groups)
  }

  ghost predicate LogsSound(groups: map<guid, Group>) {
    forall g <- groups :: SoundLog(groups[g].log)
  }

  /** What the decoders guarantee of the requests that bring messages or groups. */
  predicate FromWire(e: Event) {
    (e.EMsgSend? ==> Sound(e.msg)) && (e.EGroupAdd? ==> e.info.log == [])
  }

  lemma AddMsgSound(g: Group, m: Msg)
    requires SoundLog(g.log) && Sound(m)
    ensures SoundLog(AddMsg(g, m).log)
  {
  }

  /** Each group afterwards has the log of the same group before. */
  ghost predicate SameLogs(s: Server, s': Server) {
    forall g <- s'.groups :: g in s.groups && s'.groups[g].log == s.groups[g].log
  }

  lemma LogsPut(s: Server, s': Server, g: guid, x: Group)
    requires g in s.groups && s'.groups == s.groups[g := x] && x.log == s.groups[g].log
    ensures SameLogs(s, s')
  {
  }

  lemma LogsAfterAdd(s: Server, w: User, now: int, fd: int)
    requires Defined(s, EAcountAdd(w, now, fd))
    ensures SameLogs(s, AcountAdd(s, w, now, fd))
  {
    if PhoneUnique(s, w.phone) == ERROR_OK {
      var u, s' := Registrant(s, w), AcountAdd(s, w, now, fd);
      var room := s.groups[ROOM];
      LeaderSane(room, u.id);
      LogKept(room, OpAdd(0, u.id, u.icon, u.name));
      LogKept(room.(leader := u.id), OpAdd(0, u.id, u.icon, u.name));
      hide Out, Broadcast, AddMember, Linked, LogCounted;
      LogsPut(s, s', ROOM, s'.groups[ROOM]);
    } else {
      hide Out;
    }
  }

  lemma ExpelLog(g: Group, u: guid)
    requires GroupSane(g)
    ensures Expel(g, u).log == g.log && ExpelFromRoom(g, u).log == g.log
  {
    LinkedMove(g, g.leader, u);
    LogKept(g, OpDemote(g.leader, u));
    LogKept(g, OpDelete(g.leader, u));
    LogKept(DeleteManager(g, g.leader, u), OpDelete(g.leader, u));
  }

  lemma LogsAfterDelete(s: Server, u: guid, fd: int)
    requires Defined(s, EAcountDelete(u, fd))
    ensures SameLogs(s, AcountDelete(s, u, fd))
  {
    hide Ack, Broadcast, ExpelFromRoom, Expel, Linked, LogCounted;
    var s0 := s.(connUser := Bracket(s.connUser, fd));
    UnregisterSane(s0, u);
    forall g <- s.groups
      ensures GroupSane(s.groups[g]) && Expel(s.groups[g], u).log == s.groups[g].log
    {
      ExpelLog(s.groups[g], u);
    }
    var s1 := Unbind(Unregister(s0, u), u);
    if u == s0.connUser[fd] {
      ExpelLog(s1.groups[ROOM], u);
    }
  }

  lemma ChangeRoleLog(g: Group, o: guid, t: guid, k: u8, p: u8)
    requires Linked(g)
    ensures ChangeRole(g, o, t, k, p).log == g.log
  {
    LogKept(g, OpPromote(o, t));
    LogKept(g, OpDemote(o, t));
    LogKept(g, OpChange(o, t, p));
  }

  lemma LogsAfterAddTo(s: Server, g: guid, o: guid, t: guid, now: int, fd: int)
    requires Sane(s) && g in s.groups && t in s.users && Roomy(s.groups[g])
    ensures SameLogs(s, AddToGroup(s, g, o, t, now, fd))
  {
    var x, u := s.groups[g], s.users[t];
    LogKept(x, OpAdd(o, t, u.icon, u.name));
    hide Broadcast, AddMember, Linked, LogCounted;
    if CanAdd(x, o, t) {
      LogsPut(s, AddToGroup(s, g, o, t, now, fd), g, AddMember(x, o, t, u.icon, u.name));
    }
  }

  lemma LogsAfterRemoveFrom(s: Server, g: guid, o: guid, t: guid)
    requires Sane(s) && g in s.groups && t in s.users
    ensures SameLogs(s, RemoveFromGroup(s, g, o, t))
  {
    LogKept(s.groups[g], OpDelete(o, t));
    hide DeleteMember, Linked, LogCounted;
    if CanDelete(s.groups[g], o, t) {
      LogsPut(s, RemoveFromGroup(s, g, o, t), g, DeleteMember(s.groups[g], o, t));
    }
  }

  lemma LogsAfterGroupModify(s: Server, g: guid, o: guid, t: guid, k: u8, p: u8, now: int, fd: int)
    requires Defined(s, EGroupModify(g, o, t, k, p, now, fd))
    ensures SameLogs(s, GroupModify(s, g, o, t, k, p, now, fd))
  {
    hide Ack, AddToGroup, RemoveFromGroup, ChangeRole, Linked, LogCounted;
    if g in s.groups && t in s.users {
      if k == MEMBER_ADD {
        LogsAfterAddTo(s, g, o, t, now, fd);
      } else if k == MEMBER_DELETE {
        LogsAfterRemoveFrom(s, g, o, t);
      } else {
        ChangeRoleLog(s.groups[g], o, t, k, p);
      }
    }
  }

  lemma LogsAfterGroupDelete(s: Server, g: guid, o: guid, fd: int)
    ensures SameLogs(s, GroupDelete(s, g, o, fd))
  {
    hide Ack, Visited;
  }

  lemma LogsAfterGroupAdd(s: Server, info: Group, now: int, fd: int)
    requires Defined(s, EGroupAdd(info, now, fd)) && info.log == [] && LogsSound(s.groups)
    ensures LogsSound(GroupAdd(s, info, now, fd).groups)
  {
    hide Ack, Visited, Enroll, Linked, LogCounted;
  }

  lemma FanoutLog(s: Server, g: Group, m: Msg)
    requires GroupSane(g) && SoundLog(g.log) && Sound(m)
    ensures SoundLog(FanoutGroup(s, g, m).log)
  {
    AddMsgSound(g, m);
    LogSane(g, m);
    hide AddMsg, Counted, Visited, Servers.Fits, SoundLog;
  }

  lemma LogsAfterDispatch(s: Server, now: int)
    requires Defined(s, EDispatch(now)) && Lengths(s)
    ensures Lengths(Dispatch(s, now))
  {
    hide Ack, FanoutGroup, FanoutUsers, FanoutSends, Linked, LogCounted, SoundLog, Blocked, UsersSane;
    var m := s.queue[0];
    assert Sound(m);
    if m.recv in s.groups {
      FanoutLog(s, s.groups[m.recv], m);
    }
  }

  lemma SameLogsSound(s: Server, s': Server)
    requires SameLogs(s, s') && Lengths(s) && AllSound(s'.queue)
    ensures Lengths(s')
  {
  }

  lemma LengthsStep(s: Server, e: Event)
    requires Defined(s, e) && Lengths(s) && FromWire(e)
    ensures Lengths(Handle(s, e))
  {
    hide AcountAdd, AcountModify, AcountDelete, AcountLogin, AcountLogout, Close, GroupAdd, GroupModify, GroupDelete;
    hide MsgListReq, Dispatch, Ack, Linked, LogCounted, SameLogs, LogsSound;
    match e
    case EAcountAdd(w, now, fd) =>
      LogsAfterAdd(s, w, now, fd);
      SameLogsSound(s, Handle(s, e));
    case EAcountDelete(u, fd) =>
      LogsAfterDelete(s, u, fd);
      SameLogsSound(s, Handle(s, e));
    case EGroupAdd(info, now, fd) => LogsAfterGroupAdd(s, info, now, fd);
    case EGroupModify(g, o, t, k, p, now, fd) =>
      LogsAfterGroupModify(s, g, o, t, k, p, now, fd);
      SameLogsSound(s, Handle(s, e));
    case EGroupDelete(g, o, fd) =>
      LogsAfterGroupDelete(s, g, o, fd);
      SameLogsSound(s, Handle(s, e));
    case EDispatch(now) => LogsAfterDispatch(s, now);
    case _ =>
  }

  /** The reply fits in the send buffer. */
  predicate ReplyFits(log: seq<Msg>) {
    HEAD_LENGTH + TableEnd(|log|) + BodiesSize(log, |log|) <= MAXBUFSIZE
  }

  /** End to end, over whole runs: if every message came through the decoder, then after any run the
      reply to a request for a group's messages, framed and decoded by the receiver, is exactly the
      group's log if and only if the whole log fits in the buffer. */
  lemma ListReplyRoundTrip(ss: seq<Server>, es: seq<Event>, n: nat, group: guid, fd: int, rest: seq<byte>)
    requires IsRun(ss, es) && n <= |es| && Lengths(ss[0]) && Sane(ss[n])
    requires forall i :: 0 <= i < n ==> FromWire(es[i])
    requires group in ss[n].groups
    ensures TableEnd(|ss[n].groups[group].log|) <= PAYLOAD_MAX
    ensures var log := ss[n].groups[group].log;
      var reply := Frame(0, CLIENT_MSG_LIST_ACK, Encode(log, PAYLOAD_MAX));
      MsgListReq(ss[n], group, fd) == ss[n].(sent := ss[n].sent + [Send(fd, reply)])
      && HEAD_LENGTH <= FillHead(reply + rest) <= |reply + rest|
      && (Decode((reply + rest)[HEAD_LENGTH..FillHead(reply + rest)]).1 == log <==> ReplyFits(log))
  {
    hide Decode, Encode, Frame, FillHead, ReadHead, BodiesSize;
    LengthsRun(ss, es, n);
    assert GroupSane(ss[n].groups[group]);
    hide GroupsSane, Linked;
    FramedRoundTrip(ss[n].groups[group].log, 0, rest);
  }

  lemma LengthsRun(ss: seq<Server>, es: seq<Event>, n: nat)
    requires IsRun(ss, es) && n <= |es| && Lengths(ss[0])
    requires forall i :: 0 <= i < n ==> FromWire(es[i])
    ensures Lengths(ss[n])
  {
    forall s, e | Lengths(s) && Defined(s, e) && FromWire(e)
      ensures Lengths(Handle(s, e))
    {
      LengthsStep(s, e);
    }
    RunKeeps(ss, es, s => Lengths(s), (s, e) => FromWire(e), n);
  }

  // ---------------------------------------------------------------- sizes

  /** Every queued message fits in the send buffer. */
  ghost predicate QueueFits(s: Server) { forall m <- s.queue :: MsgSize(m) <= PAYLOAD_MAX }

  predicate WireFits(e: Event) { e.EMsgSend? ==> MsgSize(e.msg) <= PAYLOAD_MAX }

  lemma QueueStep(s: Server, e: Event)
    requires Defined(s, e) && QueueFits(s) && WireFits(e)
    ensures QueueFits(Handle(s, e))
  {
    hide AcountAdd, AcountModify, AcountDelete, AcountLogin, AcountLogout, Close, GroupAdd, GroupModify, GroupDelete;
    hide MsgListReq, GroupInfoReq, BriefInfoReq, Ack, Linked, LogCounted, GroupsSane, UsersSane;
    match e
    case EDispatch(now) => DispatchPops(s, now);
    case _ =>
  }

  lemma DispatchPops(s: Server, now: int)
    requires Defined(s, EDispatch(now))
    ensures s.queue != [] && Dispatch(s, now).queue == s.queue[1..]
  {
    hide Ack, Fanout, Linked, LogCounted, GroupsSane, UsersSane;
  }

  /** So it fits when it is dispatched: the number a message is stored under takes no room. */
  lemma QueuedFits(s: Server)
    requires QueueFits(s) && s.queue != []
    ensures forall g: Group :: Servers.Fits(g, s.queue[0])
  {
    assert s.queue[0] in s.queue;
    forall g: Group
      ensures Servers.Fits(g, s.queue[0])
    {
      assert Stored(g, s.queue[0]).body == s.queue[0].body;
    }
  }
}
