/** Runs of the server: sequences of states linked by requests. */
module ServerRuns {
  import opened Bytes
  import opened Packets
  import opened Groups
  import opened GroupRuns
  import opened Users
  import opened Servers

  /** A run: `es[i]` takes `ss[i]` to `ss[i + 1]`. */
  ghost predicate IsRun(ss: seq<Server>, es: seq<Event>) {
    && |ss| == |es| + 1
    && forall i :: 0 <= i < |es| ==> Defined(ss[i], es[i]) && ss[i + 1] == Handle(ss[i], es[i])
  }

  /** A property kept by every admissible step holds throughout every run of admissible steps. */
  lemma {:induction false} RunKeeps(ss: seq<Server>, es: seq<Event>, inv: Server -> bool,
      admissible: (Server, Event) -> bool, n: nat)
    requires IsRun(ss, es) && n <= |es|
    requires inv(ss[0])
    requires forall i :: 0 <= i < n ==> admissible(ss[i], es[i])
    requires forall s, e :: inv(s) && Defined(s, e) && admissible(s, e) ==> inv(Handle(s, e))
    ensures inv(ss[n])
  {
    if n > 0 {
      RunKeeps(ss, es, inv, admissible, n - 1);
      assert inv(ss[n - 1]) && admissible(ss[n - 1], es[n - 1]);
    }
  }

  /** The state the constructor leaves: no users and the empty public room. */
  function Initial(lastUser: guid, hash: Hasher): Server {
    Server(map[], map[ROOM := NewGroup(ROOM)], map[], map[], map[], [], lastUser, [], hash)
  }

  lemma InitialSane(lastUser: guid, hash: Hasher)
    ensures Sane(Initial(lastUser, hash))
  {
  }

  // ---------------------------------------------------------------- well-formedness is kept

  lemma SameShape(g: Group, g': Group)
    requires GroupSane(g) && g' == g.(nodes := g'.nodes) && |g'.nodes| == |g.nodes|
    requires forall n :: 0 <= n < |g.nodes| ==> g'.nodes[n].userGuid == g.nodes[n].userGuid
    ensures GroupSane(g')
  {
  }

  lemma AddSane(g: Group, o: guid, u: guid, icon: guid, name: Name)
    requires GroupSane(g) && Roomy(g)
    ensures GroupSane(AddMember(g, o, u, icon, name)) && AddMember(g, o, u, icon, name).id == g.id
  {
    LinkedAdd(g, o, u, icon, name);
  }

  lemma DeleteSane(g: Group, o: guid, u: guid)
    requires GroupSane(g)
    ensures GroupSane(DeleteMember(g, o, u)) && DeleteMember(g, o, u).id == g.id
  {
    hide Linked;
    LinkedDelete(g, o, u);
    ErasesAtMost(g, o, u);
  }

  lemma MoveSane(g: Group, o: guid, u: guid)
    requires GroupSane(g)
    ensures GroupSane(AddManager(g, o, u)) && AddManager(g, o, u).id == g.id
    ensures GroupSane(DeleteManager(g, o, u)) && DeleteManager(g, o, u).id == g.id
  {
    LinkedMove(g, o, u);
  }

  lemma ChangeSane(g: Group, o: guid, u: guid, p: u8)
    requires GroupSane(g)
    ensures GroupSane(ChangePermissions(g, o, u, p)) && ChangePermissions(g, o, u, p).id == g.id
  {
    LinkedKept(g, OpChange(o, u, p));
  }

  lemma LogSane(g: Group, m: Msg)
    requires GroupSane(g)
    ensures GroupSane(AddMsg(g, m)) && AddMsg(g, m).id == g.id
  {
    LogCountStep(g, OpAddMsg(m));
  }

  lemma PutGroup(groups: map<guid, Group>, g: guid, x: Group)
    requires GroupsSane(groups) && GroupSane(x) && x.id == g
    ensures GroupsSane(groups[g := x])
  {
    hide GroupSane;
  }

  lemma PutUser(users: map<guid, User>, u: guid, x: User)
    requires UsersSane(users) && x.id == u
    ensures UsersSane(users[u := x])
  {
  }

  lemma AcountAddSane(s: Server, w: User, now: int, fd: int)
    requires Defined(s, EAcountAdd(w, now, fd))
    ensures Sane(AcountAdd(s, w, now, fd))
  {
    if PhoneUnique(s, w.phone) == ERROR_OK {
      assert GroupSane(s.groups[ROOM]);
      hide Out, Broadcast, UserAckBytes, AddMember, Linked, LogCounted;
      var u := Registrant(s, w).(regTime := now, online := STATUS_ON_LINE);
      var users := s.users[u.id := u];
      PutUser(s.users, u.id, u);
      var room := s.groups[ROOM].(leader := if |users| == 1 then u.id else s.groups[ROOM].leader);
      LeaderSane(s.groups[ROOM], room.leader);
      AddSane(room, 0, u.id, u.icon, u.name);
      PutGroup(s.groups, ROOM, AddMember(room, 0, u.id, u.icon, u.name));
    } else {
      hide Out;
    }
  }

  lemma LeaderSane(g: Group, u: guid)
    requires GroupSane(g)
    ensures GroupSane(g.(leader := u))
  {
  }

  /** The groups after an account deletion: first the joined groups, then the public room. */
  lemma DeletedGroups(s: Server, v: guid, fd: int)
    requires Defined(s, EAcountDelete(v, fd))
    ensures var s0 := s.(connUser := Bracket(s.connUser, fd));
      var gs := Unregister(s0, v).groups;
      GroupsSane(gs) && gs.Keys == s.groups.Keys && (v == s0.connUser[fd] ==> ROOM in gs)
      && AcountDelete(s, v, fd).groups
      == if v == s0.connUser[fd] then gs[ROOM := ExpelFromRoom(gs[ROOM], v)] else s.groups
  {
    hide Ack, Broadcast, ExpelFromRoom, GroupSane, ExpelAll, UsersSane;
    UnregisterSane(s.(connUser := Bracket(s.connUser, fd)), v);
  }

  lemma AcountDeleteSane(s: Server, user: guid, fd: int)
    requires Defined(s, EAcountDelete(user, fd))
    ensures Sane(AcountDelete(s, user, fd))
  {
    hide Ack, Broadcast, ExpelFromRoom, Unregister, Linked, LogCounted;
    var s0 := s.(connUser := Bracket(s.connUser, fd));
    UnregisterSane(s0, user);
    var s1 := Unbind(Unregister(s0, user), user);
    if user == s0.connUser[fd] {
      assert GroupSane(s1.groups[ROOM]);
      ExpelSane(s1.groups[ROOM], user);
      PutGroup(s1.groups, ROOM, ExpelFromRoom(s1.groups[ROOM], user));
    }
  }

  lemma GroupAddSane(s: Server, info: Group, now: int, fd: int)
    requires Defined(s, EGroupAdd(info, now, fd))
    ensures Sane(GroupAdd(s, info, now, fd))
  {
    hide Ack, Visited, Enroll, Linked, LogCounted;
    assert forall u: User, g: guid :: Join(u, g, now).id == u.id;
    if info.leader in s.users && s.users[info.leader].owned < OWN_GROUP_MAX {
      var keys := Visited(info, s.users.Keys);
      EnrollSane(info, s.users, |keys|);
      PutGroup(s.groups, info.id, Enroll(info, s.users, |keys|));
    }
  }

  lemma EnrollSane(g: Group, users: map<guid, User>, i: nat)
    requires GroupSane(g) && i <= |Visited(g, users.Keys)|
    ensures GroupSane(Enroll(g, users, i)) && Enroll(g, users, i).id == g.id
  {
    hide Enroll;
    SameShape(g, Enroll(g, users, i));
  }

  lemma AddToGroupSane(s: Server, g: guid, o: guid, t: guid, now: int, fd: int)
    requires Sane(s) && g in s.groups && t in s.users && Roomy(s.groups[g])
    ensures Sane(AddToGroup(s, g, o, t, now, fd))
  {
    var x, u := s.groups[g], s.users[t];
    hide AddMember, Linked, LogCounted, Broadcast;
    AddSane(x, o, t, u.icon, u.name);
    PutGroup(s.groups, g, AddMember(x, o, t, u.icon, u.name));
    PutUser(s.users, t, Join(u, g, now));
  }

  lemma RemoveFromGroupSane(s: Server, g: guid, o: guid, t: guid)
    requires Sane(s) && g in s.groups && t in s.users
    ensures Sane(RemoveFromGroup(s, g, o, t))
  {
    hide DeleteMember, Linked, LogCounted;
    DeleteSane(s.groups[g], o, t);
    PutGroup(s.groups, g, DeleteMember(s.groups[g], o, t));
    PutUser(s.users, t, Leave(s.users[t], g));
  }

  lemma ChangeRoleSane(g: Group, o: guid, t: guid, k: u8, p: u8)
    requires GroupSane(g)
    ensures GroupSane(ChangeRole(g, o, t, k, p)) && ChangeRole(g, o, t, k, p).id == g.id
  {
    hide ChangePermissions, AddManager, DeleteManager, Linked, LogCounted;
    MoveSane(g, o, t);
    ChangeSane(g, o, t, p);
  }

  lemma GroupModifySane(s: Server, g: guid, o: guid, t: guid, k: u8, p: u8, now: int, fd: int)
    requires Defined(s, EGroupModify(g, o, t, k, p, now, fd))
    ensures Sane(GroupModify(s, g, o, t, k, p, now, fd))
  {
    hide ChangeRole, Linked, LogCounted, AddToGroup, RemoveFromGroup, Ack;
    if g in s.groups && t in s.users {
      ChangeRoleSane(s.groups[g], o, t, k, p);
      PutGroup(s.groups, g, ChangeRole(s.groups[g], o, t, k, p));
      AddToGroupSane(s, g, o, t, now, fd);
      RemoveFromGroupSane(s, g, o, t);
    }
  }

  lemma FanoutGroupSane(s: Server, g: Group, m: Msg)
    requires GroupSane(g)
    ensures GroupSane(FanoutGroup(s, g, m)) && FanoutGroup(s, g, m).id == g.id
  {
    hide AddMsg, Counted, Visited, Fits, Linked, LogCounted;
    LogSane(g, m);
    var g1 := AddMsg(g, m);
    CountedSane(g1, s.users.Keys, s.userConn, m.send, |Visited(g1, s.users.Keys)|);
  }

  lemma FanoutSane(s: Server, g: Group, m: Msg, now: int)
    requires Sane(s) && GroupSane(g)
    ensures Sane(Fanout(s, g, m, now))
  {
    hide FanoutGroup, FanoutSends, Visited, Fits, Linked, LogCounted;
    FanoutGroupSane(s, g, m);
    PutGroup(s.groups, g.id, FanoutGroup(s, g, m));
    assert forall u: User, k: guid :: Touch(u, k, now).id == u.id;
  }

  lemma DispatchSane(s: Server, now: int)
    requires Defined(s, EDispatch(now))
    ensures Sane(Dispatch(s, now))
  {
    hide Ack, Fanout, Linked, LogCounted;
    if s.queue[0].recv in s.groups {
      FanoutSane(s, s.groups[s.queue[0].recv], s.queue[0], now);
    }
  }

  lemma CountedSane(g: Group, users: set<guid>, userConn: map<guid, int>, sender: guid, i: nat)
    requires GroupSane(g) && i <= |Visited(g, users)|
    ensures GroupSane(Counted(g, users, userConn, sender, i)) && Counted(g, users, userConn, sender, i).id == g.id
  {
    hide Counted;
    SameShape(g, Counted(g, users, userConn, sender, i));
  }

  lemma GroupDeleteSane(s: Server, g: guid, o: guid, fd: int)
    requires Sane(s)
    ensures Sane(GroupDelete(s, g, o, fd))
  {
    hide Ack, GroupSane, Visited;
  }

  lemma LoginSane(s: Server, p: seq<byte>, pw: seq<byte>, now: int, fd: int)
    requires Sane(s)
    ensures Sane(AcountLogin(s, p, pw, now, fd))
  {
    hide Out, GroupsSane;
  }

  /** Every defined step leads to a well-formed state. */
  lemma SaneStep(s: Server, e: Event)
    requires Defined(s, e)
    ensures Sane(Handle(s, e))
  {
    hide AcountAdd, AcountDelete, AcountLogin, GroupAdd, GroupModify, GroupDelete, Dispatch, GroupSane, GroupsSane;
    hide Ack, Out;
    match e
    case EAcountAdd(w, now, fd) => AcountAddSane(s, w, now, fd);
    case EAcountDelete(u, fd) => AcountDeleteSane(s, u, fd);
    case ELogin(p, pw, now, fd) => LoginSane(s, p, pw, now, fd);
    case EGroupAdd(info, now, fd) => GroupAddSane(s, info, now, fd);
    case EGroupModify(g, o, t, k, p, now, fd) => GroupModifySane(s, g, o, t, k, p, now, fd);
    case EGroupDelete(g, o, fd) => GroupDeleteSane(s, g, o, fd);
    case EDispatch(now) => DispatchSane(s, now);
    case _ =>
  }
}
