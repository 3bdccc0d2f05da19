/** Runs from the initial state to the inputs that the exact conditions single out. */
module Witnesses {
  import opened Bytes
  import opened Packets
  import opened Groups
  import opened GroupRuns
  import opened MsgListAck
  import opened Users
  import opened Servers
  import opened ServerRuns
  import opened MessageLists
  import opened Fanouts
  import opened Rosters
  import opened Quotas
  import opened Authority
  import opened Ghosts

  // ---------------------------------------------------------------- a manager is duplicated

  /** Adding the only member, a manager, to his own room. */
  lemma SelfAddition(s: Server, a: guid, now: int, fd: int) returns (s': Server)
    requires Sane(s) && Alone(s, a)
    ensures Follows(s, EGroupModify(ROOM, a, a, MEMBER_ADD, 0, now, fd), s')
    ensures ROOM in s'.groups && !Rep(s'.groups[ROOM])
  {
    SaneAt(s, ROOM);
    hide GroupModify, Linked, LogCounted, GroupsSane, UsersSane, Rep;
    s' := GroupModify(s, ROOM, a, a, MEMBER_ADD, 0, now, fd);
    ModifyIsOp(s, ROOM, a, a, MEMBER_ADD, 0, now, fd);
    TwoRolesNotRep(s'.groups[ROOM], a);
  }

  lemma TwoRolesNotRep(g: Group, a: guid)
    requires a in g.managers && a in g.members
    ensures !Rep(g)
  {
    hide Points;
  }

  /** Two requests from the initial state break the representation of the public room: a user registers,
      becoming its leader, and adds himself to it. */
  lemma DuplicatedLeader(lastUser: guid, hash: Hasher, wa: User, now: int, fd: int)
    returns (ss: seq<Server>, es: seq<Event>)
    requires 0 <= lastUser && lastUser + 2 < U32_LIMIT && wa.id == lastUser + 1 && wa.joined == map[]
    ensures IsRun(ss, es) && ss[0] == Initial(lastUser, hash)
    ensures es == [EAcountAdd(wa, now, fd), EGroupModify(ROOM, wa.id, wa.id, MEMBER_ADD, 0, now, fd)]
    ensures ROOM in ss[2].groups && !Rep(ss[2].groups[ROOM])
  {
    FirstRegistered(lastUser, hash, wa, now, fd);
    var s1 := AcountAdd(Initial(lastUser, hash), wa, now, fd);
    hide AcountAdd, GroupModify, Sane, Initial, Alone, Rep, IsRun;
    var s2 := SelfAddition(s1, wa.id, now, fd);
    es := [EAcountAdd(wa, now, fd), EGroupModify(ROOM, wa.id, wa.id, MEMBER_ADD, 0, now, fd)];
    ss := [Initial(lastUser, hash), s1, s2];
    FollowsIsRun(ss, es);
  }

  // ---------------------------------------------------------------- a log that does not fit

  /** Member `a` of the public room may send to it, its socket is `fd`, and the room's log is `log`. */
  ghost predicate Talking(s: Server, a: guid, fd: int, queue: seq<Msg>, log: seq<Msg>) {
    && Sane(s) && ROOM in s.groups && a in Keys(s.groups[ROOM])
    && Fanouts.Entry(s.groups[ROOM], a).permissions == SEND_TO_GROUP
    && fd in s.connUser && s.connUser[fd] == a && s.queue == queue && s.groups[ROOM].log == log
  }

  /** A group message of `a` for the public room that leaves its number to the server. */
  predicate ToRoom(m: Msg, a: guid) {
    Sound(m) && m.kind == MSG_TYPE_GROUP && m.recv == ROOM && m.send == a && m.num == 0
  }

  lemma AloneTalks(s: Server, a: guid, phone: seq<byte>, password: seq<byte>, now: int, fd: int) returns (s': Server)
    requires Sane(s) && Alone(s, a) && s.queue == [] && s.groups[ROOM].log == []
    requires s.hash.apply(phone) in s.phones && s.phones[s.hash.apply(phone)] == a
    requires s.users[a].passwd == s.hash.apply(password)
    ensures Follows(s, ELogin(phone, password, now, fd), s') && Talking(s', a, fd, [], [])
  {
    s' := AcountLogin(s, phone, password, now, fd);
    LoginSane(s, phone, password, now, fd);
    SaneAt(s, ROOM);
    hide Out, UserAckBytes, GroupsSane, UsersSane, LogCounted, Distinct, Points, Apart;
  }

  lemma SendQueues(s: Server, a: guid, fd: int, queue: seq<Msg>, log: seq<Msg>, m: Msg) returns (s': Server)
    requires Talking(s, a, fd, queue, log)
    ensures Follows(s, EMsgSend(a, m, fd), s') && Talking(s', a, fd, queue + [m], log)
  {
    s' := MsgSend(s, a, m, fd);
    hide Linked, GroupsSane, UsersSane, Fanouts.Entry, Ack;
  }

  lemma DispatchLogs(s: Server, a: guid, fd: int, queue: seq<Msg>, log: seq<Msg>, now: int) returns (s': Server)
    requires Talking(s, a, fd, queue, log) && queue != [] && ToRoom(queue[0], a) && |log| < LOG_MAX
    ensures Follows(s, EDispatch(now), s')
    ensures Talking(s', a, fd, queue[1..], log + [queue[0].(num := Number(log, queue[0]))])
  {
    var g, m := s.groups[ROOM], queue[0];
    SaneAt(s, ROOM);
    s' := Dispatch(s, now);
    DispatchSane(s, now);
    DispatchedGroup(s, now, ROOM);
    FanoutPowers(s, g, m);
    LoggedOnly(s, g, m);
    DispatchPopsOnly(s, now);
    SaneAt(s', ROOM);
    SamePermission(g, FanoutGroup(s, g, m), a);
    hide Dispatch, FanoutGroup, Linked, LogCounted, GroupsSane, UsersSane, Fanouts.Entry, SamePowers, Number;
    hide GroupSane, Blocked, Keys;
  }

  lemma SamePermission(g: Group, g': Group, a: guid)
    requires Linked(g) && Linked(g') && SamePowers(g, g') && a in Keys(g)
    ensures a in Keys(g') && Fanouts.Entry(g', a).permissions == Fanouts.Entry(g, a).permissions
  {
  }

  lemma LoggedOnly(s: Server, g: Group, m: Msg)
    requires GroupSane(g) && g.id == ROOM && m.kind == MSG_TYPE_GROUP && m.recv == ROOM && |g.log| < LOG_MAX
    ensures FanoutGroup(s, g, m).log == g.log + [m.(num := Number(g.log, m))]
  {
    LogKeepsMembers(g, m);
    hide Counted, Visited, Servers.Fits, Linked;
  }

  lemma DispatchPopsOnly(s: Server, now: int)
    requires Defined(s, EDispatch(now))
    ensures Dispatch(s, now).queue == s.queue[1..] && Dispatch(s, now).connUser == s.connUser
  {
    hide Fanout, Ack, Blocked, Linked, LogCounted;
  }

  /** Six requests from the initial state make a list reply that is read back wrong: a user registers,
      logs in and sends two messages to the public room that fit in the buffer one by one, but not
      together. */
  lemma LostMessage(lastUser: guid, hash: Hasher, wa: User, password: seq<byte>, m1: Msg, m2: Msg, now: int, fd: int,
      rest: seq<byte>) returns (ss: seq<Server>, es: seq<Event>)
    requires 0 <= lastUser && lastUser + 2 < U32_LIMIT && wa.id == lastUser + 1
    requires wa.joined == map[] && wa.passwd == hash.apply(password)
    requires ToRoom(m1, wa.id) && ToRoom(m2, wa.id)
    requires MsgSize(m1) <= PAYLOAD_MAX && MsgSize(m2) <= PAYLOAD_MAX
    requires TableEnd(2) + MsgSize(m1) + MsgSize(m2) > PAYLOAD_MAX
    ensures IsRun(ss, es) && |es| == 6 && ss[0] == Initial(lastUser, hash)
    ensures forall i :: 0 <= i < |es| ==> FromWire(es[i]) && WireFits(es[i])
    ensures ROOM in ss[6].groups && ss[6].groups[ROOM].log == [m1.(num := 1), m2.(num := 2)]
    ensures var reply := Frame(0, CLIENT_MSG_LIST_ACK, Encode(ss[6].groups[ROOM].log, PAYLOAD_MAX));
      HEAD_LENGTH <= FillHead(reply + rest) <= |reply + rest|
      && Decode((reply + rest)[HEAD_LENGTH..FillHead(reply + rest)]).1 != ss[6].groups[ROOM].log
  {
    hide IsRun, Initial, Frame, Encode, Decode, FillHead, Sane, Lengths, ReplyFits;
    es := LostRequests(wa, password, m1, m2, now, fd);
    ss := LostRun(lastUser, hash, wa, password, m1, m2, now, fd);
    LogTooLong(m1.(num := 1), m2.(num := 2));
    InitialLengths(lastUser, hash);
    ListReplyRoundTrip(ss, es, 6, ROOM, fd, rest);
  }

  function LostRequests(wa: User, password: seq<byte>, m1: Msg, m2: Msg, now: int, fd: int): seq<Event> {
    [EAcountAdd(wa, now, fd), ELogin(wa.phone, password, now, fd), EMsgSend(wa.id, m1, fd), EMsgSend(wa.id, m2, fd),
     EDispatch(now), EDispatch(now)]
  }

  lemma LostRun(lastUser: guid, hash: Hasher, wa: User, password: seq<byte>, m1: Msg, m2: Msg, now: int, fd: int)
      returns (ss: seq<Server>)
    requires 0 <= lastUser && lastUser + 2 < U32_LIMIT && wa.id == lastUser + 1
    requires wa.joined == map[] && wa.passwd == hash.apply(password)
    requires ToRoom(m1, wa.id) && ToRoom(m2, wa.id)
    ensures IsRun(ss, LostRequests(wa, password, m1, m2, now, fd)) && ss[0] == Initial(lastUser, hash)
    ensures Sane(ss[6]) && ROOM in ss[6].groups && ss[6].groups[ROOM].log == [m1.(num := 1), m2.(num := 2)]
  {
    hide Talking, ToRoom, Follows, Sane, IsRun, Initial, AcountAdd, AcountLogin;
    var s1, s2 := FirstTalks(lastUser, hash, wa, password, now, fd);
    var s3, s4, s5, s6 := TwoMessages(s2, wa.id, fd, m1, m2, now);
    ss := [Initial(lastUser, hash), s1, s2, s3, s4, s5, s6];
    FollowsIsRun(ss, LostRequests(wa, password, m1, m2, now, fd));
    TalkingFacts(s6, wa.id, fd, [], [m1.(num := 1), m2.(num := 2)]);
  }

  lemma FirstTalks(lastUser: guid, hash: Hasher, wa: User, password: seq<byte>, now: int, fd: int)
      returns (s1: Server, s2: Server)
    requires 0 <= lastUser && lastUser + 2 < U32_LIMIT && wa.id == lastUser + 1
    requires wa.joined == map[] && wa.passwd == hash.apply(password)
    ensures Follows(Initial(lastUser, hash), EAcountAdd(wa, now, fd), s1)
    ensures Follows(s1, ELogin(wa.phone, password, now, fd), s2) && Talking(s2, wa.id, fd, [], [])
  {
    FirstRegistered(lastUser, hash, wa, now, fd);
    s1 := AcountAdd(Initial(lastUser, hash), wa, now, fd);
    hide AcountAdd, Talking, Sane, Initial, Alone;
    AloneHas(s1, wa.id);
    s2 := AloneTalks(s1, wa.id, wa.phone, password, now, fd);
  }

  lemma TwoMessages(s2: Server, a: guid, fd: int, m1: Msg, m2: Msg, now: int)
      returns (s3: Server, s4: Server, s5: Server, s6: Server)
    requires Talking(s2, a, fd, [], []) && ToRoom(m1, a) && ToRoom(m2, a)
    ensures Follows(s2, EMsgSend(a, m1, fd), s3) && Follows(s3, EMsgSend(a, m2, fd), s4)
    ensures Follows(s4, EDispatch(now), s5) && Follows(s5, EDispatch(now), s6)
    ensures Talking(s6, a, fd, [], [m1.(num := 1), m2.(num := 2)])
  {
    hide Talking, Follows;
    s3 := SendQueues(s2, a, fd, [], [], m1);
    assert [] + [m1] == [m1];
    s4 := SendQueues(s3, a, fd, [m1], [], m2);
    assert [m1] + [m2] == [m1, m2] && [m1, m2][1..] == [m2] && [m2][1..] == [];
    s5 := DispatchLogs(s4, a, fd, [m1, m2], [], now);
    assert [] + [m1.(num := 1)] == [m1.(num := 1)];
    s6 := DispatchLogs(s5, a, fd, [m2], [m1.(num := 1)], now);
    assert [m1.(num := 1)] + [m2.(num := 2)] == [m1.(num := 1), m2.(num := 2)];
  }

  lemma TalkingFacts(s: Server, a: guid, fd: int, queue: seq<Msg>, log: seq<Msg>)
    requires Talking(s, a, fd, queue, log)
    ensures Sane(s) && ROOM in s.groups && s.groups[ROOM].log == log
  {
    hide Sane;
  }

  lemma LogTooLong(a: Msg, b: Msg)
    requires TableEnd(2) + MsgSize(a) + MsgSize(b) > PAYLOAD_MAX
    ensures !ReplyFits([a, b])
  {
    assert BodiesSize([a, b], 2) == BodiesSize([a, b], 1) + MsgSize(b) && BodiesSize([a, b], 1) == MsgSize(a);
  }

  lemma InitialLengths(lastUser: guid, hash: Hasher)
    ensures Lengths(Initial(lastUser, hash))
  {
  }
}
