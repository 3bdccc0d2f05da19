/** The public room after its leader deleted his account: he stays listed, and the traversal never
    reaches the members behind him, so no limit stops their messages. */
module Ghosts {
  import opened Bytes
  import opened Groups
  import opened GroupRuns
  import opened Users
  import opened Servers
  import opened ServerRuns
  import opened Ownership
  import opened Fanouts
  import opened Quotas
  import opened Mirrors

  /** The room's leader is registered and a member of it, and `u` an ordinary member behind him. */
  ghost predicate Behind(s: Server, leader: guid, u: guid) {
    && ROOM in s.groups && leader in s.users && s.groups[ROOM].leader == leader && leader in Keys(s.groups[ROOM])
    && u in s.groups[ROOM].members && leader < u
  }

  /** A group with the same ordinary members and more, whose leader is one of them and who counts his
      members as before. */
  ghost predicate Hides(g: Group, g': Group, u: guid) {
    && Linked(g) && Linked(g') && u in Keys(g) && u in g'.members && g'.managers.Keys <= g.managers.Keys
    && g'.leader == g.leader && g.leader in g'.members && g.leader !in g'.managers
    && Entry(g', u).permissions == Entry(g, u).permissions && Entry(g', u).msgCount == Entry(g, u).msgCount
  }

  /** A leader who manages is demoted or loses his second role, and one who does not stays as he is. */
  lemma SelfExpulsion(g: Group, u: guid)
    requires Linked(g) && g.leader in Keys(g)
    requires u in g.members && u != g.leader
    ensures Hides(g, ExpelFromRoom(g, g.leader), u)
    ensures Linked(Expel(g, g.leader)) && ExpelFromRoom(Expel(g, g.leader), g.leader) == ExpelFromRoom(g, g.leader)
  {
    LinkedMove(g, g.leader, g.leader);
    LinkedDelete(g, g.leader, g.leader);
    hide Groups.Count, Dec32, Without, Distinct;
    if g.leader in g.managers && g.leader in g.members {
      assert ExpelFromRoom(g, g.leader) == DeleteMember(g, g.leader, g.leader) == Expel(g, g.leader);
    }
  }

  /** Deleting the leader's account leaves a limited member behind him out of reach. */
  lemma LeaderDeletionHides(s: Server, leader: guid, fd: int, u: guid, permissions: u8)
    requires Defined(s, EAcountDelete(leader, fd)) && leader == Bracket(s.connUser, fd)[fd]
    requires Limited(s, ROOM, u, permissions) && Behind(s, leader, u)
    ensures var s' := Handle(s, EAcountDelete(leader, fd));
      Limited(s', ROOM, u, permissions) && SentCount(s', ROOM, u) == SentCount(s, ROOM, u)
      && ROOM in s'.groups && !Reached(s'.groups[ROOM], s'.users.Keys, u)
      && (u !in s.groups[ROOM].managers ==> !Reachable(s'.groups[ROOM], s'.users.Keys, u))
  {
    hide AcountDelete, ExpelFromRoom, Expel, DeleteManager, Linked, Hides, SentCount, Sane;
    var s', room := AcountDelete(s, leader, fd), s.groups[ROOM];
    AcountDeleteSane(s, leader, fd);
    AllocAfterDelete(s, leader, fd);
    SaneAt(s, ROOM);
    SelfExpulsion(room, u);
    RoomAfterLeader(s, leader, fd);
    HidingRoom(s, s', leader, u, permissions);
  }

  lemma HidingRoom(s: Server, s': Server, leader: guid, u: guid, permissions: u8)
    requires Limited(s, ROOM, u, permissions) && Sane(s') && leader !in s'.users && ROOM in s'.groups
    requires s.groups[ROOM].leader == leader < u && Hides(s.groups[ROOM], s'.groups[ROOM], u)
    ensures Limited(s', ROOM, u, permissions) && SentCount(s', ROOM, u) == SentCount(s, ROOM, u)
    ensures !Reached(s'.groups[ROOM], s'.users.Keys, u)
    ensures u !in s.groups[ROOM].managers ==> !Reachable(s'.groups[ROOM], s'.users.Keys, u)
  {
    hide Linked, Entry, SentCount, Sane;
    CountOfEntry(s, ROOM, u);
    CountOfEntry(s', ROOM, u);
  }

  lemma RoomAfterLeader(s: Server, leader: guid, fd: int)
    requires Defined(s, EAcountDelete(leader, fd)) && leader == Bracket(s.connUser, fd)[fd]
    requires ROOM in s.groups && leader in s.users && Linked(s.groups[ROOM]) && Linked(Expel(s.groups[ROOM], leader))
    requires ExpelFromRoom(Expel(s.groups[ROOM], leader), leader) == ExpelFromRoom(s.groups[ROOM], leader)
    ensures ROOM in AcountDelete(s, leader, fd).groups
    ensures AcountDelete(s, leader, fd).groups[ROOM] == ExpelFromRoom(s.groups[ROOM], leader)
  {
    DeletedGroups(s, leader, fd);
    hide AcountDelete, ExpelFromRoom, Expel, Linked, LogCounted;
  }

  // ---------------------------------------------------------------- the state is reached

  /** The public room with a leader and one more member. */
  ghost predicate Pair(room: Group, a: guid, b: guid, permissions: u8) {
    && Linked(room) && room.leader == a && room.managers.Keys == {a} && room.members.Keys == {b}
    && room.nodes[room.managers[a]].permissions == SEND_TO_GROUP
    && room.nodes[room.members[b]].permissions == permissions && room.nodes[room.members[b]].msgCount == 0
  }

  /** Two users registered one after the other, the first of whom may be connected. */
  ghost predicate PairState(s: Server, a: guid, b: guid, permissions: u8) {
    && s.groups.Keys == {ROOM} && Pair(s.groups[ROOM], a, b, permissions) && |s.groups[ROOM].list| == 2
    && s.users.Keys == {a, b} && s.users[a].joined == map[]
  }

  /** A registration, but for what it sends. */
  lemma Registered(s: Server, w: User, now: int, fd: int)
    requires Defined(s, EAcountAdd(w, now, fd)) && PhoneUnique(s, w.phone) == ERROR_OK && w.id != 0
    ensures var s', u := AcountAdd(s, w, now, fd), w.(regTime := now, online := STATUS_ON_LINE);
      Sane(s') && s'.(sent := s.sent) == Installed(s, u)
  {
    AcountAddSane(s, w, now, fd);
    InstalledIs(s, w, now, fd);
    hide AcountAdd, Broadcast, UserAckBytes, Installed, GroupSane, GroupsSane, UsersSane, Inc32;
  }

  lemma FirstRegistered(lastUser: guid, hash: Hasher, wa: User, now: int, fd: int)
    requires wa.joined == map[] && wa.id == lastUser + 1 && 0 <= lastUser && lastUser + 2 < U32_LIMIT
    ensures Defined(Initial(lastUser, hash), EAcountAdd(wa, now, fd))
    ensures var s := AcountAdd(Initial(lastUser, hash), wa, now, fd);
      Sane(s) && Alone(s, wa.id) && s.users[wa.id].phone == wa.phone && s.users[wa.id].passwd == wa.passwd
      && s.queue == [] && s.groups[ROOM].log == []
      && s.phones == map[hash.apply(wa.phone) := wa.id] && s.hash == hash && s.connUser == map[] && s.lastUser == wa.id
  {
    var s0 := Initial(lastUser, hash);
    FirstIsDefined(lastUser, hash, wa, now, fd);
    Registered(s0, wa, now, fd);
    FirstInstalled(lastUser, hash, wa.(regTime := now, online := STATUS_ON_LINE));
    hide AcountAdd, Installed, Initial, Defined, PhoneUnique, Sane;
  }

  lemma FirstIsDefined(lastUser: guid, hash: Hasher, wa: User, now: int, fd: int)
    requires wa.joined == map[]
    ensures ROOM in Initial(lastUser, hash).groups
    ensures Defined(Initial(lastUser, hash), EAcountAdd(wa, now, fd))
      && PhoneUnique(Initial(lastUser, hash), wa.phone) == ERROR_OK
  {
    InitialSane(lastUser, hash);
    hide Linked, LogCounted;
  }

  lemma FirstInstalled(lastUser: guid, hash: Hasher, u: User)
    requires u.joined == map[] && u.id == lastUser + 1 && 0 <= lastUser && lastUser + 2 < U32_LIMIT
    requires ROOM in Initial(lastUser, hash).groups
    ensures var s := Installed(Initial(lastUser, hash), u);
      Alone(s, u.id) && s.users == map[u.id := u] && s.phones == map[hash.apply(u.phone) := u.id] && s.hash == hash
      && s.connUser == map[] && s.lastUser == u.id && s.queue == [] && s.groups[ROOM].log == []
  {
    FirstRoom(u.id, u.icon, u.name);
    hide AddMember;
    assert |map[u.id := u]| == 1;
    assert Initial(lastUser, hash).users[u.id := u] == map[u.id := u];
  }

  /** One user, who leads the public room and is its only member. */
  ghost predicate Alone(s: Server, a: guid) {
    && s.users.Keys == {a} && s.users[a].joined == map[] && s.groups.Keys == {ROOM} && 0 < a
    && var room := s.groups[ROOM];
      room.leader == a && room.managers == map[a := 0] && room.members == map[] && room.list == [0]
      && |room.nodes| == 1 && room.nodes[0].permissions == SEND_TO_GROUP
  }

  lemma FirstRoom(a: guid, icon: guid, name: Name)
    requires a != 0
    ensures var room := AddMember(NewGroup(ROOM).(leader := a), 0, a, icon, name);
      room.leader == a && room.managers == map[a := 0] && room.members == map[] && room.list == [0]
      && |room.nodes| == 1 && room.nodes[0].userGuid == a && room.nodes[0].permissions == SEND_TO_GROUP
      && room.log == []
  {
  }

  lemma SecondRoom(room: Group, a: guid, b: guid, icon: guid, name: Name)
    requires Linked(room) && a != b && b != 0
    requires room.leader == a && room.managers == map[a := 0] && room.members == map[] && room.list == [0]
    requires |room.nodes| == 1 && room.nodes[0].permissions == SEND_TO_GROUP
    ensures var room' := AddMember(room, 0, b, icon, name);
      Pair(room', a, b, SEND_TO_GROUP) && |room'.list| == 2
  {
    LinkedAdd(room, 0, b, icon, name);
    hide Groups.Count, Points, Apart, Distinct;
  }

  lemma SecondRegistered(s: Server, a: guid, wb: User, now: int, fd: int)
    requires Sane(s) && Alone(s, a)
    requires PhoneUnique(s, wb.phone) == ERROR_OK && wb.joined == map[] && wb.id == a + 1
    ensures Defined(s, EAcountAdd(wb, now, fd))
    ensures var s' := AcountAdd(s, wb, now, fd);
      Sane(s') && PairState(s', a, wb.id, SEND_TO_GROUP) && s'.users[a] == s.users[a]
      && s'.phones == s.phones[s.hash.apply(wb.phone) := wb.id] && s'.hash == s.hash && s'.connUser == s.connUser
  {
    hide AcountAdd, Installed, Linked, LogCounted, Pair, PhoneUnique, Inc32;
    Registered(s, wb, now, fd);
    SecondInstalled(s, a, wb.(regTime := now, online := STATUS_ON_LINE));
  }

  lemma SecondInstalled(s: Server, a: guid, u: User)
    requires Sane(s) && Alone(s, a) && u.joined == map[] && u.id == a + 1
    ensures var s' := Installed(s, u);
      PairState(s', a, u.id, SEND_TO_GROUP) && s'.users[a] == s.users[a]
      && s'.phones == s.phones[s.hash.apply(u.phone) := u.id] && s'.hash == s.hash && s'.connUser == s.connUser
  {
    SaneAt(s, ROOM);
    SecondRoom(s.groups[ROOM], a, u.id, u.icon, u.name);
    hide AddMember, Linked, LogCounted, Pair, Inc32, GroupsSane, UsersSane;
    assert s.users[u.id := u].Keys == {a, u.id} && |s.users[u.id := u]| == |s.users[u.id := u].Keys| == 2;
  }

  /** The leader logs in. */
  lemma LeaderLogsIn(s: Server, a: guid, b: guid, phone: seq<byte>, password: seq<byte>, now: int, fd: int)
      returns (s': Server)
    requires Sane(s) && PairState(s, a, b, SEND_TO_GROUP)
    requires s.hash.apply(phone) in s.phones && s.phones[s.hash.apply(phone)] == a
    requires s.users[a].passwd == s.hash.apply(password)
    ensures Follows(s, ELogin(phone, password, now, fd), s')
    ensures Sane(s') && PairState(s', a, b, SEND_TO_GROUP) && fd in s'.connUser && s'.connUser[fd] == a
  {
    s' := AcountLogin(s, phone, password, now, fd);
    LoginSane(s, phone, password, now, fd);
    hide Out, UserAckBytes, Pair, GroupsSane, UsersSane;
  }

  lemma PairChanged(room: Group, a: guid, b: guid)
    requires Pair(room, a, b, SEND_TO_GROUP) && a != b
    ensures Pair(ChangePermissions(room, a, b, LIMIT_10), a, b, LIMIT_10)
    ensures ChangePermissions(room, a, b, LIMIT_10).list == room.list
  {
    LinkedKept(room, OpChange(a, b, LIMIT_10));
    hide Groups.Count;
  }

  /** ... and gives the other member a limit. */
  lemma LeaderLimits(s: Server, a: guid, b: guid, now: int, fd: int) returns (s': Server)
    requires Sane(s) && PairState(s, a, b, SEND_TO_GROUP) && 0 < a < b
    ensures Follows(s, EGroupModify(ROOM, a, b, MEMBER_SET_PERMISSION, LIMIT_10, now, fd), s')
    ensures Sane(s') && PairState(s', a, b, LIMIT_10) && s'.connUser == s.connUser
  {
    s' := GroupModify(s, ROOM, a, b, MEMBER_SET_PERMISSION, LIMIT_10, now, fd);
    GroupModifySane(s, ROOM, a, b, MEMBER_SET_PERMISSION, LIMIT_10, now, fd);
    PairChanged(s.groups[ROOM], a, b);
    hide Ack, ChangePermissions, Pair, GroupSane, UsersSane, AddToGroup, RemoveFromGroup, AddManager, DeleteManager;
  }

  lemma PairIsBehind(s: Server, a: guid, b: guid)
    requires Sane(s) && PairState(s, a, b, LIMIT_10) && a < b
    ensures Limited(s, ROOM, b, LIMIT_10) && Behind(s, a, b) && SentCount(s, ROOM, b) == 0
    ensures b !in s.groups[ROOM].managers
  {
    CountOfEntry(s, ROOM, b);
    hide Linked, LogCounted, SentCount, GroupsSane, UsersSane;
  }

  /** Five requests from the initial state make a member whose limit means nothing: two users register,
      the first logs in, limits the second to 10 messages and deletes his own account. Afterwards the
      second is limited, has sent nothing, and is out of reach, so none of its messages is counted. */
  lemma LimitWithoutEffect(lastUser: guid, hash: Hasher, wa: User, wb: User, password: seq<byte>, now: int, fd: int)
    returns (ss: seq<Server>, es: seq<Event>)
    requires 0 <= lastUser && lastUser + 2 < U32_LIMIT && wa.id == lastUser + 1 && wb.id == lastUser + 2
    requires wa.joined == map[] && wb.joined == map[] && wa.passwd == hash.apply(password)
    requires hash.apply(wa.phone) != hash.apply(wb.phone)
    ensures IsRun(ss, es) && |es| == 5 && ss[0] == Initial(lastUser, hash)
    ensures Limited(ss[5], ROOM, wb.id, LIMIT_10) && SentCount(ss[5], ROOM, wb.id) == 0
    ensures ROOM in ss[5].groups && !Reachable(ss[5].groups[ROOM], ss[5].users.Keys, wb.id)
    ensures !IsCounted(ss[5], ROOM, wb.id)
  {
    var a, b := wa.id, wb.id;
    hide Follows, Initial, Limited, SentCount, Reachable, PairState, IsRun, IsCounted, Sane;
    var s0 := Initial(lastUser, hash);
    var s1, s2 := BothRegister(lastUser, hash, wa, wb, now, fd);
    var s3, s4, s5 := LeaderLeaves(s2, a, b, wa.phone, password, now, fd);
    es := [EAcountAdd(wa, now, fd), EAcountAdd(wb, now, fd), ELogin(wa.phone, password, now, fd),
           EGroupModify(ROOM, a, b, MEMBER_SET_PERMISSION, LIMIT_10, now, fd), EAcountDelete(a, fd)];
    ss := [s0, s1, s2, s3, s4, s5];
    FollowsIsRun(ss, es);
  }

  lemma FollowsIsRun(ss: seq<Server>, es: seq<Event>)
    requires |ss| == |es| + 1 && forall i :: 0 <= i < |es| ==> Follows(ss[i], es[i], ss[i + 1])
    ensures IsRun(ss, es)
  {
    hide Handle, Defined;
    forall i | 0 <= i < |es|
      ensures Defined(ss[i], es[i]) && ss[i + 1] == Handle(ss[i], es[i])
    {
      assert Follows(ss[i], es[i], ss[i + 1]);
    }
  }

  ghost predicate Follows(s: Server, e: Event, s': Server) { Defined(s, e) && s' == Handle(s, e) }

  lemma BothRegister(lastUser: guid, hash: Hasher, wa: User, wb: User, now: int, fd: int)
      returns (s1: Server, s2: Server)
    requires 0 <= lastUser && lastUser + 2 < U32_LIMIT && wa.id == lastUser + 1 && wb.id == lastUser + 2
    requires wa.joined == map[] && wb.joined == map[] && hash.apply(wa.phone) != hash.apply(wb.phone)
    ensures Follows(Initial(lastUser, hash), EAcountAdd(wa, now, fd), s1) && Follows(s1, EAcountAdd(wb, now, fd), s2)
    ensures Sane(s2) && PairState(s2, wa.id, wb.id, SEND_TO_GROUP) && s2.hash == hash
    ensures s2.users[wa.id].passwd == wa.passwd
    ensures hash.apply(wa.phone) in s2.phones && s2.phones[hash.apply(wa.phone)] == wa.id
  {
    FirstRegistered(lastUser, hash, wa, now, fd);
    s1 := AcountAdd(Initial(lastUser, hash), wa, now, fd);
    hide AcountAdd, Sane, Pair, Initial, Alone;
    assert wa.id in s1.users by { AloneHas(s1, wa.id); }
    SecondRegistered(s1, wa.id, wb, now, fd);
    s2 := AcountAdd(s1, wb, now, fd);
  }

  lemma AloneHas(s: Server, a: guid)
    requires Alone(s, a)
    ensures a in s.users
  {
  }

  lemma LeaderLeaves(s: Server, a: guid, b: guid, phone: seq<byte>, password: seq<byte>, now: int, fd: int)
    returns (s3: Server, s4: Server, s5: Server)
    requires Sane(s) && PairState(s, a, b, SEND_TO_GROUP) && 0 < a < b && s.users[a].passwd == s.hash.apply(password)
    requires s.hash.apply(phone) in s.phones && s.phones[s.hash.apply(phone)] == a
    ensures Follows(s, ELogin(phone, password, now, fd), s3)
    ensures Follows(s3, EGroupModify(ROOM, a, b, MEMBER_SET_PERMISSION, LIMIT_10, now, fd), s4)
    ensures Follows(s4, EAcountDelete(a, fd), s5)
    ensures Limited(s5, ROOM, b, LIMIT_10) && SentCount(s5, ROOM, b) == 0
    ensures ROOM in s5.groups && !Reachable(s5.groups[ROOM], s5.users.Keys, b) && !IsCounted(s5, ROOM, b)
  {
    hide Handle, Defined, Sane, PairState, Limited, SentCount, Reachable, IsCounted;
    s3 := LeaderLogsIn(s, a, b, phone, password, now, fd);
    s4 := LeaderLimits(s3, a, b, now, fd);
    PairIsBehind(s4, a, b);
    s5 := LeaderGoes(s4, a, b, fd);
  }

  lemma LeaderGoes(s: Server, a: guid, b: guid, fd: int) returns (s': Server)
    requires Sane(s) && Limited(s, ROOM, b, LIMIT_10) && Behind(s, a, b) && fd in s.connUser && s.connUser[fd] == a
    requires b !in s.groups[ROOM].managers
    ensures Follows(s, EAcountDelete(a, fd), s')
    ensures Limited(s', ROOM, b, LIMIT_10) && SentCount(s', ROOM, b) == SentCount(s, ROOM, b)
    ensures ROOM in s'.groups && !Reachable(s'.groups[ROOM], s'.users.Keys, b) && !IsCounted(s', ROOM, b)
  {
    hide AcountDelete, Limited, SentCount, Reachable, Sane;
    LeaderDeletionHides(s, a, fd, b, LIMIT_10);
    s' := AcountDelete(s, a, fd);
    ReachedIsReachable(s'.groups[ROOM], s'.users.Keys, b);
  }
}
