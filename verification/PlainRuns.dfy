/** All the server's invariants together, over runs whose requests meet simple conditions: users
    register under the next guid, group guids are fresh, and so on. */
module PlainRuns {
  import opened Bytes
  import opened Packets
  import opened Groups
  import opened GroupRuns
  import opened Users
  import opened Servers
  import opened ServerRuns
  import opened Sessions
  import opened Phones
  import opened Membership
  import opened Ownership
  import opened Rosters
  import opened Fanouts
  import opened Rooms

  /** Leaders of groups, and the members of the public room, were registered once. */
  ghost predicate Known(s: Server) {
    && ROOM in s.groups
    && (forall u <- Keys(s.groups[ROOM]) :: u <= s.lastUser)
    && (forall g <- s.groups :: g != ROOM ==> s.groups[g].leader <= s.lastUser)
  }

  ghost predicate Consistent(s: Server) {
    Session(s) && PhoneIndex(s) && Agreeing(s) && Allocated(s) && Owners(s) && AllGroupsRep(s) && Known(s)
  }

  /** Conditions a caller can check on the request and the current state. */
  ghost predicate Plain(s: Server, e: Event)
    requires Defined(s, e)
  {
    match e
    case EAcountAdd(w, _, _) => Registrant(s, w).id == Inc32(s.lastUser) && w.owned == 0 && s.lastUser + 1 < U32_LIMIT
    case EAcountModify(w, _) => Registrant(s, w).id == Inc32(s.lastUser) || Replaceable(s, w)
    case EAcountDelete(u, fd) =>
      CanUnbind(s, u, fd) && (u == Bracket(s.connUser, fd)[fd] && u in s.users ==> CanExpel(s, u))
    case ELogin(phone, password, _, fd) => CanBind(s, LoginUser(s, phone, password), fd)
    case ELogout(u, _, fd) => CanUnbind(s, u, fd)
    case EGroupAdd(info, _, _) => Creates(s, info) ==> Admissible(s, info)
    case EGroupModify(g, o, t, k, _, _, _) => !Duplicates(s, g, o, t, k)
    case EGroupDelete(g, _, _) => g != ROOM
    case EDispatch(now) => !RefusesUnconnected(s, now)
    case _ => true
  }

  /** A registered user whom no group lists, with the right owner count and a phone that is nobody
      else's, may be modified. */
  ghost predicate Replaceable(s: Server, w: User) {
    && Unlisted(s, w.id) && RightCount(s, w, w.id)
    && (s.hash.apply(w.phone) in s.phones ==> s.phones[s.hash.apply(w.phone)] == w.id)
  }

  ghost predicate Admissible(s: Server, info: Group)
    requires Linked(info)
  {
    info.id !in s.groups && Indexed(info) && RolesFit(info, s.users.Keys) && forall u <- Keys(info) :: u in s.users
  }

  /** A registration under the next guid gets a guid nobody has, no group lists and no group is led by. */
  lemma NewcomerIsNew(s: Server, w: User)
    requires Consistent(s) && Registrant(s, w).id == Inc32(s.lastUser) && w.owned == 0 && s.lastUser + 1 < U32_LIMIT
    ensures var u := Registrant(s, w).id;
      u == s.lastUser + 1 && u !in s.users && Unlisted(s, u) && RightCount(s, w, u)
  {
    var u := Registrant(s, w).id;
    assert Led(s.groups, u) == {};
  }

  lemma PlainIsSafe(s: Server, e: Event)
    requires Defined(s, e) && Consistent(s) && Plain(s, e)
    ensures SessionSafe(s, e) && PhoneSafe(s, e) && MemberSafe(s, e) && AllocSafe(s, e) && OwnerSafe(s, e)
      && RosterSafe(s, e)
  {
    hide Linked, LogCounted;
    match e
    case EAcountAdd(w, now, fd) => NewcomerIsNew(s, w);
    case EGroupAdd(info, now, fd) =>
    case _ =>
  }

  lemma KnownStep(s: Server, e: Event)
    requires Defined(s, e) && Consistent(s) && Plain(s, e)
    ensures Known(Handle(s, e))
  {
    hide AcountAdd, AcountModify, AcountDelete, AcountLogin, AcountLogout, Close, GroupAdd, GroupModify, GroupDelete;
    hide MsgSend, MsgListReq, Dispatch, Ack, Linked, LogCounted, Session, PhoneIndex, Agree, Counts;
    hide AllGroupsRep, Indexed, RolesFit, Keys;
    match e
    case EAcountAdd(w, now, fd) => KnownAfterAdd(s, w, now, fd);
    case EAcountDelete(u, fd) =>
      GroupsAfterDelete(s, u, fd);
      RoomAfterDelete(s, u, fd);
    case EGroupAdd(info, now, fd) => GroupsAfterGroupAdd(s, info, now, fd);
    case EGroupModify(g, o, t, k, p, now, fd) =>
      LeadersAfterGroupModify(s, g, o, t, k, p, now, fd);
      RoomAfterModify(s, g, o, t, k, p, now, fd);
    case EGroupDelete(g, o, fd) => GroupsAfterGroupDelete(s, g, o, fd);
    case EDispatch(now) =>
      LeadersAfterDispatch(s, now);
      RoomAfterDispatch(s, now);
    case _ =>
  }

  lemma KnownAfterAdd(s: Server, w: User, now: int, fd: int)
    requires Defined(s, EAcountAdd(w, now, fd)) && Consistent(s) && Plain(s, EAcountAdd(w, now, fd))
    ensures Known(AcountAdd(s, w, now, fd))
  {
    PlainIsSafe(s, EAcountAdd(w, now, fd));
    GroupsAfterAdd(s, w, now, fd);
    RoomAfterAdd(s, w, now, fd);
    AllocAfterAdd(s, w, now, fd);
    hide AcountAdd, Session, PhoneIndex, Agreeing, Owners, AllGroupsRep, Keys, GroupsSane, UsersSane, Registrant;
  }

  lemma GroupsAfterAdd(s: Server, w: User, now: int, fd: int)
    requires Defined(s, EAcountAdd(w, now, fd)) && s.lastUser + 1 < U32_LIMIT && 0 <= s.lastUser
    ensures var s' := AcountAdd(s, w, now, fd);
      s.lastUser <= s'.lastUser && s'.groups.Keys == s.groups.Keys
      && forall g <- s.groups :: g != ROOM ==> s'.groups[g] == s.groups[g]
  {
    hide Out, Broadcast, AddMember, GroupSane, GroupsSane, UsersSane, Registrant, Inc32;
    IncGrows(s.lastUser);
  }

  lemma IncGrows(n: int)
    requires 0 <= n && n + 1 < U32_LIMIT
    ensures Inc32(n) == n + 1
  {
  }

  lemma GroupsAfterDelete(s: Server, u: guid, fd: int)
    requires Defined(s, EAcountDelete(u, fd))
    ensures var s' := AcountDelete(s, u, fd);
      s'.lastUser == s.lastUser && s'.groups.Keys == s.groups.Keys
      && forall g <- s.groups :: g != ROOM ==> s'.groups[g].leader == s.groups[g].leader
  {
    hide Ack, Broadcast, ExpelFromRoom, Linked, LogCounted, ExpelAll;
    var s0 := s.(connUser := Bracket(s.connUser, fd));
    UnregisterSane(s0, u);
    if u in s.users {
      ExpelLeaders(s0, u);
    }
  }

  lemma GroupsAfterGroupAdd(s: Server, info: Group, now: int, fd: int)
    requires Defined(s, EGroupAdd(info, now, fd))
    ensures var s' := GroupAdd(s, info, now, fd);
      s'.lastUser == s.lastUser && s.groups.Keys <= s'.groups.Keys
      && (forall g <- s'.groups :: if g == info.id && Creates(s, info) then s'.groups[g].leader in s.users
                                   else g in s.groups && s'.groups[g] == s.groups[g])
  {
    hide Ack, Visited, Enroll, Linked, LogCounted;
  }

  lemma GroupsAfterGroupDelete(s: Server, g: guid, o: guid, fd: int)
    requires g != ROOM
    ensures var s' := GroupDelete(s, g, o, fd);
      s'.lastUser == s.lastUser && (ROOM in s.groups ==> ROOM in s'.groups)
      && forall h <- s'.groups :: h in s.groups && s'.groups[h] == s.groups[h]
  {
    hide Ack, Visited;
  }

  /** One step: every invariant of the server is kept. */
  lemma ConsistentStep(s: Server, e: Event)
    requires Defined(s, e) && Consistent(s) && Plain(s, e)
    ensures Consistent(Handle(s, e))
  {
    PlainIsSafe(s, e);
    KnownStep(s, e);
    RosterStep(s, e);
    SessionStep(s, e);
    PhoneStep(s, e);
    MemberStep(s, e);
    AllocStep(s, e);
    OwnerStep(s, e);
    hide Handle, Session, PhoneIndex, Agreeing, Allocated, Owners, AllGroupsRep, Known;
    hide SessionSafe, PhoneSafe, MemberSafe, AllocSafe, OwnerSafe, RosterSafe, Plain, Defined;
  }

  lemma InitialConsistent(lastUser: guid, hash: Hasher)
    requires 0 <= lastUser < U32_LIMIT
    ensures Consistent(Initial(lastUser, hash)) && Sane(Initial(lastUser, hash))
  {
  }

  /** Any run of plain steps from the initial state keeps every invariant: the connection maps are
      inverse, the phone index is a scan, the two membership views agree, guids are allocated
      upwards, owner counts are exact and at most 50, and every group is well represented. */
  lemma ConsistentRun(ss: seq<Server>, es: seq<Event>, lastUser: guid, hash: Hasher, n: nat)
    requires IsRun(ss, es) && n <= |es| && 0 <= lastUser < U32_LIMIT && ss[0] == Initial(lastUser, hash)
    requires forall i :: 0 <= i < n ==> Plain(ss[i], es[i])
    ensures Consistent(ss[n])
  {
    InitialConsistent(lastUser, hash);
    hide Consistent, Plain, Initial;
    forall s, e | Consistent(s) && Defined(s, e) && Plain(s, e)
      ensures Consistent(Handle(s, e))
    {
      ConsistentStep(s, e);
    }
    RunKeeps(ss, es, s => Consistent(s), (s, e) => Defined(s, e) && Plain(s, e), n);
  }

  /** What is at the front of the queue will be fanned out: a message from a member, within the
      sender's limit and the send buffer. */
  ghost predicate Deliverable(s: Server, e: Event)
    requires Defined(s, e)
  {
    e.EDispatch? &&
    var m := s.queue[0];
    m.recv in s.groups && !Blocked(Entry(s.groups[m.recv], m.send)) && Servers.Fits(s.groups[m.recv], m)
  }

  /** In every consistent state such a message goes, once, to each connected member of its group that
      the traversal reaches and to nobody else. That is every connected member, except perhaps in the
      public room when a deleted account was left in it. */
  lemma DispatchReachesMembers(s: Server, e: Event) returns (to: seq<guid>)
    requires Consistent(s) && Defined(s, e) && Deliverable(s, e)
    ensures var m := s.queue[0];
      var g := s.groups[m.recv];
      Audience(to, g, s.users.Keys, s.userConn) && Distinct(to)
      && (m.recv != ROOM || RoomRegistered(s) ==> forall u :: u in to <==> u in Keys(g) && u in s.userConn)
      && SentExactly(s, Handle(s, e), to, Frame(m.send, CLIENT_MSG_SEND, EncodeMsg(Stored(g, m))))
  {
    var m := s.queue[0];
    var g := s.groups[m.recv];
    Closure(s, m.recv);
    DispatchIsFanout(s, e);
    hide Handle, Fanout, Visited, GroupSane, Stored, Keys, Consistent, Servers.Fits, Blocked, Frame, EncodeMsg;
    hide Audience, AllRegistered, Posted, GroupsSane, UsersSane, Defined, Deliverable;
    to := ExactFanout(s, g, m, e.now);
    AudienceDistinct(to, g, s.users.Keys, s.userConn);
  }

  lemma DispatchIsFanout(s: Server, e: Event)
    requires Defined(s, e) && Deliverable(s, e)
    ensures var m := s.queue[0];
      m.send in Keys(s.groups[m.recv]) && Servers.Fits(s.groups[m.recv], m)
      && GroupSane(s.groups[m.recv]) && Handle(s, e) == Fanout(s, s.groups[m.recv], m, e.now).(queue := s.queue[1..])
  {
    hide Fanout, Linked, LogCounted, Blocked, Servers.Fits;
  }

  lemma Closure(s: Server, g: guid)
    requires Sane(s) && Consistent(s) && g in s.groups
    ensures GroupSane(s.groups[g]) && s.groups[g].id == g
    ensures s.groups[g].managers.Keys !! s.groups[g].members.Keys
    ensures g != ROOM || RoomRegistered(s) ==> AllRegistered(s.groups[g], s.users.Keys)
  {
    assert Rep(s.groups[g]);
    hide Linked;
    assert forall u <- Keys(s.groups[g]) :: Lists(s.groups, g, u);
  }
}
