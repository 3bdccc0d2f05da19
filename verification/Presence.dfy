/** Who is on line, since when, and when a user's groups were last active, over runs of any requests. */
module Presence {
  import opened Bytes
  import opened Packets
  import opened Groups
  import opened GroupRuns
  import opened Users
  import opened Servers
  import opened ServerRuns
  import opened Sessions
  import opened Membership
  import opened Fanouts
  import opened Rosters
  import opened Access
  import opened Profiles

  /** The connection that is bound to `u` is closed, or `u` logs out on it. */
  predicate Leaves(s: Server, e: Event, u: guid) {
    || (e.EClose? && BoundUser(s.connUser, e.fd) == u)
    || (e.ELogout? && e.user == u && BoundUser(s.connUser, e.fd) == u)
  }

  predicate Returns(s: Server, e: Event, u: guid) { e.ELogin? && Proves(s, e.phone, e.password, u) }

  /** The status and the two times of a user. */
  datatype Status = Status(online: u8, lastLogin: int, lastLogout: int)

  function StatusOf(u: User): Status { Status(u.online, u.lastLogin, u.lastLogout) }

  /** What a request makes of the status of `u`. */
  function StatusAfter(s: Server, e: Event, u: guid): Status
    requires u in s.users
  {
    var was := StatusOf(s.users[u]);
    if Returns(s, e, u) then Status(STATUS_ON_LINE, e.now, e.now)
    else if Leaves(s, e, u) then Status(STATUS_OFF_LINE, was.lastLogin, if e.ELogout? then e.now else was.lastLogout)
    else was
  }

  ghost predicate SameStatus(users: map<guid, User>, users': map<guid, User>) {
    forall u <- users' :: u in users && StatusOf(users'[u]) == StatusOf(users[u])
  }

  /** A login that proves a user puts the user on line and sets both times; logging out or losing the
      connection takes the user off line; no other request, but one that installs a new record for the
      user, changes the status. */
  lemma PresenceStep(s: Server, e: Event, u: guid)
    requires Defined(s, e) && u in Handle(s, e).users && !Installs(s, e, u)
    ensures u in s.users && StatusOf(Handle(s, e).users[u]) == StatusAfter(s, e, u)
  {
    hide AcountAdd, AcountModify, AcountDelete, AcountLogin, AcountLogout, Close, GroupAdd, GroupModify, GroupDelete;
    hide MsgSend, MsgListReq, GroupInfoReq, BriefInfoReq, Dispatch, Ack, Linked, LogCounted, PhoneUnique, Proves;
    match e
    case EAcountAdd(w, now, fd) => StatusAfterAdd(s, w, now, fd, u);
    case EAcountModify(w, fd) => StatusAfterModify(s, w, fd, u);
    case EAcountDelete(v, fd) => StatusAfterDelete(s, v, fd);
    case ELogin(p, pw, now, fd) => StatusAfterLogin(s, p, pw, now, fd, u);
    case ELogout(v, now, fd) => StatusAfterLogout(s, v, now, fd, u);
    case EClose(fd) => StatusAfterClose(s, fd, u);
    case EGroupAdd(info, now, fd) => StatusAfterCreate(s, info, now, fd);
    case EGroupModify(g, o, t, k, p, now, fd) => StatusAfterGroupModify(s, g, o, t, k, p, now, fd);
    case EGroupDelete(g, o, fd) => StatusAfterErase(s, g, o, fd);
    case EDispatch(now) => StatusAfterDispatch(s, now);
    case _ =>
  }

  lemma StatusAfterAdd(s: Server, w: User, now: int, fd: int, u: guid)
    requires Defined(s, EAcountAdd(w, now, fd)) && u in AcountAdd(s, w, now, fd).users
    requires !Installs(s, EAcountAdd(w, now, fd), u)
    ensures u in s.users && AcountAdd(s, w, now, fd).users[u] == s.users[u]
  {
    hide Out, Broadcast, AddMember, Linked, LogCounted, Inc32;
  }

  lemma StatusAfterModify(s: Server, w: User, fd: int, u: guid)
    requires Defined(s, EAcountModify(w, fd)) && u in AcountModify(s, w, fd).users
    requires !Installs(s, EAcountModify(w, fd), u)
    ensures u in s.users && AcountModify(s, w, fd).users[u] == s.users[u]
  {
    hide Ack, Inc32, GroupSane;
  }

  lemma StatusAfterDelete(s: Server, v: guid, fd: int)
    requires Defined(s, EAcountDelete(v, fd))
    ensures SameStatus(s.users, AcountDelete(s, v, fd).users)
  {
    hide Ack, Broadcast, ExpelFromRoom, Linked, LogCounted, ExpelAll;
    UnregisterSane(s.(connUser := Bracket(s.connUser, fd)), v);
  }

  lemma StatusAfterLogin(s: Server, p: seq<byte>, pw: seq<byte>, now: int, fd: int, u: guid)
    requires Sane(s) && u in AcountLogin(s, p, pw, now, fd).users
    ensures u in s.users
    ensures StatusOf(AcountLogin(s, p, pw, now, fd).users[u])
      == if Proves(s, p, pw, u) then Status(STATUS_ON_LINE, now, now) else StatusOf(s.users[u])
  {
    hide Out;
  }

  lemma StatusAfterLogout(s: Server, v: guid, now: int, fd: int, u: guid)
    requires u in AcountLogout(s, v, now, fd).users
    ensures u in s.users
    ensures StatusOf(AcountLogout(s, v, now, fd).users[u]) == StatusAfter(s, ELogout(v, now, fd), u)
  {
    hide Ack;
  }

  lemma StatusAfterClose(s: Server, fd: int, u: guid)
    requires u in Close(s, fd).users
    ensures u in s.users && StatusOf(Close(s, fd).users[u]) == StatusAfter(s, EClose(fd), u)
  {
  }

  lemma StatusAfterCreate(s: Server, info: Group, now: int, fd: int)
    requires Defined(s, EGroupAdd(info, now, fd))
    ensures SameStatus(s.users, GroupAdd(s, info, now, fd).users)
  {
    hide Ack, Visited, Enroll, Linked, LogCounted;
    assert forall u: User, g: guid :: StatusOf(Join(u, g, now)) == StatusOf(u);
  }

  lemma StatusAfterErase(s: Server, g: guid, o: guid, fd: int)
    ensures SameStatus(s.users, GroupDelete(s, g, o, fd).users)
  {
    hide Ack, Visited;
    assert forall u: User, h: guid :: StatusOf(Leave(u, h)) == StatusOf(u);
  }

  lemma StatusAfterGroupModify(s: Server, g: guid, o: guid, t: guid, k: u8, p: u8, now: int, fd: int)
    requires Defined(s, EGroupModify(g, o, t, k, p, now, fd))
    ensures SameStatus(s.users, GroupModify(s, g, o, t, k, p, now, fd).users)
  {
    hide Ack, Broadcast, AddMember, DeleteMember, ChangeRole, Linked, LogCounted;
  }

  lemma StatusAfterDispatch(s: Server, now: int)
    requires Defined(s, EDispatch(now))
    ensures SameStatus(s.users, Dispatch(s, now).users)
  {
    hide Ack, FanoutGroup, FanoutSends, Visited, Servers.Fits, Linked, LogCounted, Blocked;
    assert forall u: User, g: guid :: StatusOf(Touch(u, g, now)) == StatusOf(u);
  }

  /** A user who left at step `k` is off line until the user logs in again, whatever else happens, as long
      as the record is neither replaced nor deleted. */
  lemma {:induction false} OffLineUntilLogin(ss: seq<Server>, es: seq<Event>, u: guid, k: nat, n: nat)
    requires IsRun(ss, es) && k < n <= |es| && Leaves(ss[k], es[k], u)
    requires forall i :: k <= i <= n ==> u in ss[i].users
    requires forall i :: k < i < n ==> !Installs(ss[i], es[i], u) && !Returns(ss[i], es[i], u)
    ensures ss[n].users[u].online == STATUS_OFF_LINE
  {
    hide Handle, Defined, Installs, Proves;
    var i := n - 1;
    assert Defined(ss[i], es[i]) && ss[i + 1] == Handle(ss[i], es[i]);
    if k < i {
      OffLineUntilLogin(ss, es, u, k, i);
    } else {
      LeavingInstallsNothing(ss[k], es[k], u);
    }
    PresenceStep(ss[i], es[i], u);
  }

  lemma LeavingInstallsNothing(s: Server, e: Event, u: guid)
    requires Leaves(s, e, u)
    ensures !Installs(s, e, u)
  {
  }

  /** ... and a user who logged in at step `k` is on line until leaving. */
  lemma {:induction false} OnLineUntilLeaving(ss: seq<Server>, es: seq<Event>, u: guid, k: nat, n: nat)
    requires IsRun(ss, es) && k < n <= |es| && Returns(ss[k], es[k], u)
    requires forall i :: k <= i <= n ==> u in ss[i].users
    requires forall i :: k < i < n ==> !Installs(ss[i], es[i], u) && !Leaves(ss[i], es[i], u)
    ensures ss[n].users[u].online == STATUS_ON_LINE
  {
    hide Handle, Defined, Proves;
    var i := n - 1;
    assert Defined(ss[i], es[i]) && ss[i + 1] == Handle(ss[i], es[i]);
    if k < i {
      OnLineUntilLeaving(ss, es, u, k, i);
    }
    PresenceStep(ss[i], es[i], u);
  }

  // ---------------------------------------------------------------- activity

  /** The front message is accepted, fits, goes to group `g`, and the traversal comes to `u`. */
  ghost predicate Delivers(s: Server, e: Event, u: guid, g: guid)
    requires Defined(s, e)
  {
    e.EDispatch? && s.queue[0].recv == g && g in s.groups && !Blocked(Entry(s.groups[g], s.queue[0].send))
    && Servers.Fits(s.groups[g], s.queue[0]) && Reachable(s.groups[g], s.users.Keys, u)
  }

  /** The time a user's group was last active is the time of joining, and then that of the last message
      delivered to the user in the group. */
  lemma ActivityAfterDispatch(s: Server, now: int, u: guid, g: guid)
    requires Defined(s, EDispatch(now)) && u in s.users
    ensures u in Dispatch(s, now).users
    ensures var before, after := s.users[u].joined, Dispatch(s, now).users[u].joined;
      after.Keys == before.Keys
      && (g in before ==> after[g] == if Delivers(s, EDispatch(now), u, g) then now else before[g])
  {
    DispatchUsers(s, now);
    hide Dispatch, Servers.Fits, Blocked, Reachable, Entry, FanoutUsers, Defined;
    var m := s.queue[0];
    if m.recv in s.groups && !Blocked(Entry(s.groups[m.recv], m.send)) {
      TouchedUsers(s, s.groups[m.recv], m, now, u, g);
    }
  }

  lemma DispatchUsers(s: Server, now: int)
    requires Defined(s, EDispatch(now))
    ensures var m := s.queue[0];
      (m.recv in s.groups ==> Linked(s.groups[m.recv]) && m.send in Keys(s.groups[m.recv]))
      && Dispatch(s, now).users == if m.recv in s.groups && !Blocked(Entry(s.groups[m.recv], m.send))
        then FanoutUsers(s, s.groups[m.recv], m, now) else s.users
  {
    hide Ack, FanoutGroup, FanoutSends, FanoutUsers, LogCounted, Blocked, Points, Apart, Distinct;
  }

  lemma TouchedUsers(s: Server, x: Group, m: Msg, now: int, u: guid, g: guid)
    requires u in s.users
    ensures u in FanoutUsers(s, x, m, now)
    ensures var before, after := s.users[u].joined, FanoutUsers(s, x, m, now)[u].joined;
      after.Keys == before.Keys
      && (g in before ==>
        after[g] == if g == m.recv && Servers.Fits(x, m) && Reachable(x, s.users.Keys, u) then now else before[g])
  {
    VisitsReachable(x, s.users.Keys);
    hide Visited, Servers.Fits, Reachable;
  }

  /** A new group is entered with the time of its creation, by the registered members the traversal comes
      to; who had joined a group of that guid keeps the old time. */
  lemma ActivityAfterCreate(s: Server, info: Group, now: int, fd: int, u: guid, g: guid)
    requires Defined(s, EGroupAdd(info, now, fd)) && u in s.users
    ensures u in GroupAdd(s, info, now, fd).users
    ensures var before, after := s.users[u].joined, GroupAdd(s, info, now, fd).users[u].joined;
      var enters := Creates(s, info) && g == info.id && Reachable(info, s.users.Keys, u);
      (g in after <==> g in before || enters) && (g in after ==> after[g] == if g in before then before[g] else now)
  {
    hide Ack, Visited, Enroll, Linked, LogCounted, Reachable, GroupsSane, UsersSane, GroupAdd;
    VisitsReachable(info, s.users.Keys);
    CreatedUsers(s, info, now, fd);
  }

  lemma CreatedUsers(s: Server, info: Group, now: int, fd: int)
    requires Defined(s, EGroupAdd(info, now, fd))
    ensures var users := GroupAdd(s, info, now, fd).users;
      users.Keys == s.users.Keys && forall u <- s.users ::
        users[u].joined == if Creates(s, info) && u in Visited(info, s.users.Keys)
                           then Join(s.users[u], info.id, now).joined else s.users[u].joined
  {
    hide Ack, Visited, Enroll, Linked, LogCounted, GroupsSane, UsersSane, Founded, Join, JoinAll;
    if Creates(s, info) {
      var joined := JoinAll(s.users, Visited(info, s.users.Keys), info.id, now);
      JoinedAll(s.users, Visited(info, s.users.Keys), info.id, now);
      FoundedKeepsGroups(joined[info.leader]);
    }
  }

  lemma JoinedAll(users: map<guid, User>, keys: seq<guid>, g: guid, now: int)
    ensures JoinAll(users, keys, g, now).Keys == users.Keys
    ensures forall u <- users ::
      JoinAll(users, keys, g, now)[u] == if u in keys then Join(users[u], g, now) else users[u]
  {
  }

  lemma FoundedKeepsGroups(u: User)
    ensures Founded(u).joined == u.joined
  {
  }

  /** A user joins a group when a manager adds him and leaves it when he is removed; a modification leaves
      everybody else's groups and their times alone. */
  lemma ActivityAfterModify(s: Server, g: guid, o: guid, t: guid, k: u8, p: u8, now: int, fd: int, u: guid)
    requires Defined(s, EGroupModify(g, o, t, k, p, now, fd)) && u in s.users
    ensures u in GroupModify(s, g, o, t, k, p, now, fd).users
    ensures var before, after := s.users[u].joined, GroupModify(s, g, o, t, k, p, now, fd).users[u].joined;
      var meant := u == t && t != 0 && o != 0 && o in s.users && g in s.groups;
      if meant && k == MEMBER_ADD && CanAdd(s.groups[g], o, t)
      then after == if g in before then before else before[g := now]
      else if meant && k == MEMBER_DELETE && CanDelete(s.groups[g], o, t) then after == before - {g}
      else after == before
  {
    hide Ack, Broadcast, AddMember, DeleteMember, ChangeRole, Linked, LogCounted, CanAdd, CanDelete;
    hide GroupsSane, UsersSane;
  }

  /** A deleted group is left by the members the traversal comes to. */
  lemma ActivityAfterErase(s: Server, g: guid, o: guid, fd: int, u: guid)
    requires u in s.users
    ensures u in GroupDelete(s, g, o, fd).users
    ensures var before, after := s.users[u].joined, GroupDelete(s, g, o, fd).users[u].joined;
      after == if g in s.groups && o == s.groups[g].leader && o in s.users && Reachable(s.groups[g], s.users.Keys, u)
               then before - {g} else before
  {
    hide Ack, Visited, Reachable;
    if g in s.groups {
      VisitsReachable(s.groups[g], s.users.Keys);
    }
  }
}
