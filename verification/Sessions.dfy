/** The two connection maps are inverse to each other on real users. Guid 0 stands for nobody: a
    failed login binds it, and reading an unbound socket with `operator[]` inserts it. */
module Sessions {
  import opened Bytes
  import opened Groups
  import opened GroupRuns
  import opened Servers
  import opened ServerRuns

  ghost predicate Inverse(connUser: map<int, guid>, userConn: map<guid, int>) {
    && (forall fd <- connUser :: connUser[fd] != 0 ==> connUser[fd] in userConn && userConn[connUser[fd]] == fd)
    && (forall u <- userConn :: u != 0 ==> userConn[u] in connUser && connUser[userConn[u]] == u)
  }

  ghost predicate Session(s: Server) { Inverse(s.connUser, s.userConn) }

  /** The real user a socket is bound to, or 0. */
  function BoundUser(connUser: map<int, guid>, fd: int): guid {
    if fd in connUser then connUser[fd] else 0
  }

  /** A login binds `u` (0 when it failed): neither the socket nor a real user may be bound elsewhere. */
  predicate CanBind(s: Server, u: guid, fd: int) {
    && BoundUser(s.connUser, fd) in {0, u}
    && (u != 0 && u in s.userConn ==> s.userConn[u] == fd)
  }

  /** Logging out or deleting guid 0 erases the entry of whatever socket guid 0 points to. */
  predicate CanUnbind(s: Server, u: guid, fd: int) {
    u == BoundUser(s.connUser, fd) && u == 0 ==>
      BoundUser(s.connUser, if 0 in s.userConn then s.userConn[0] else 0) == 0
  }

  /** Refusing a message reads the sender's socket with `operator[]`. */
  ghost predicate RefusesUnconnected(s: Server, now: int)
    requires Defined(s, EDispatch(now))
  {
    var m := s.queue[0];
    m.recv in s.groups && m.send != 0 && m.send !in s.userConn
    && Blocked(s.groups[m.recv].nodes[Lookup(s.groups[m.recv], m.send)])
  }

  /** What the caller must check before each step. */
  ghost predicate SessionSafe(s: Server, e: Event)
    requires Defined(s, e)
  {
    match e
    case ELogin(phone, password, _, fd) => CanBind(s, LoginUser(s, phone, password), fd)
    case ELogout(u, _, fd) => CanUnbind(s, u, fd)
    case EAcountDelete(u, fd) => CanUnbind(s, u, fd)
    case EDispatch(now) => !RefusesUnconnected(s, now)
    case _ => true
  }

  lemma BracketInverse(connUser: map<int, guid>, userConn: map<guid, int>, fd: int)
    ensures Inverse(Bracket(connUser, fd), userConn) <==> Inverse(connUser, userConn)
  {
    var c := Bracket(connUser, fd);
    if Inverse(c, userConn) {
      assert forall k <- connUser :: c[k] == connUser[k];
    }
  }

  lemma BindInverse(connUser: map<int, guid>, userConn: map<guid, int>, u: guid, fd: int)
    requires Inverse(connUser, userConn)
    ensures Inverse(connUser[fd := u], userConn[u := fd])
       <==> BoundUser(connUser, fd) in {0, u} && (u != 0 && u in userConn ==> userConn[u] == fd)
  {
    var c, d := connUser[fd := u], userConn[u := fd];
    var v := BoundUser(connUser, fd);
    if v != 0 && v != u {
      assert v in d && d[v] == fd && c[fd] == u;
    } else if u != 0 && u in userConn && userConn[u] != fd {
      assert c[userConn[u]] == u;
    } else {
      assert forall k <- connUser :: k != fd && connUser[k] == u ==> u == 0;
    }
  }

  lemma UnbindInverse(s: Server, u: guid)
    requires Session(s) && (u != 0 ==> u in s.userConn)
    ensures Session(Unbind(s, u))
       <==> (u == 0 ==> BoundUser(s.connUser, if 0 in s.userConn then s.userConn[0] else 0) == 0)
  {
    var d := Bracket(s.userConn, u);
    var t := Unbind(s, u);
    if u == 0 {
      var v := BoundUser(s.connUser, d[0]);
      if v != 0 {
        assert v in t.userConn && t.userConn[v] == d[0];
      }
    }
  }

  // What the handlers that touch the connection maps do to them.

  lemma ConnectionsAfterDelete(s: Server, u: guid, fd: int)
    requires Defined(s, EAcountDelete(u, fd))
    ensures var s0, s' := s.(connUser := Bracket(s.connUser, fd)), AcountDelete(s, u, fd);
      var t := if u != s0.connUser[fd] then s0 else Unbind(s0, u);
      s'.connUser == t.connUser && s'.userConn == t.userConn
  {
    hide Ack, Broadcast, ExpelFromRoom, Linked, LogCounted, Unregister, GroupSane, GroupsSane;
    UnregisterSane(s.(connUser := Bracket(s.connUser, fd)), u);
  }

  lemma ConnectionsAfterLogin(s: Server, phone: seq<byte>, password: seq<byte>, now: int, fd: int)
    ensures var s', u := AcountLogin(s, phone, password, now, fd), LoginUser(s, phone, password);
      s'.connUser == s.connUser[fd := u] && s'.userConn == s.userConn[u := fd]
  {
    hide Out, LoginUser;
  }

  lemma ConnectionsAfterLogout(s: Server, u: guid, now: int, fd: int)
    ensures var s0, s' := s.(connUser := Bracket(s.connUser, fd)), AcountLogout(s, u, now, fd);
      var t := if u != s0.connUser[fd] then s0 else Unbind(s0, u);
      s'.connUser == t.connUser && s'.userConn == t.userConn
  {
    hide Ack;
  }

  lemma ConnectionsAfterDispatch(s: Server, now: int)
    requires Defined(s, EDispatch(now))
    ensures var s', m := Dispatch(s, now), s.queue[0];
      s'.connUser == s.connUser
      && s'.userConn == if m.recv in s.groups && Blocked(s.groups[m.recv].nodes[Lookup(s.groups[m.recv], m.send)])
                        then Bracket(s.userConn, m.send) else s.userConn
  {
    hide Ack, Fanout, Linked, LogCounted;
  }

  /** Exactly when a step keeps the two maps inverse. */
  lemma SessionStep(s: Server, e: Event)
    requires Defined(s, e) && Session(s)
    ensures Session(Handle(s, e)) <==> SessionSafe(s, e)
  {
    hide AcountAdd, AcountModify, AcountDelete, AcountLogin, AcountLogout, Close, GroupAdd, GroupModify, GroupDelete;
    hide MsgSend, MsgListReq, Dispatch, Ack, Out, Inverse, Unbind, Blocked, Linked, LogCounted;
    match e
    case EAcountDelete(u, fd) =>
      ConnectionsAfterDelete(s, u, fd);
      UnbindStep(s, u, fd);
    case ELogin(phone, password, now, fd) =>
      ConnectionsAfterLogin(s, phone, password, now, fd);
      BindInverse(s.connUser, s.userConn, LoginUser(s, phone, password), fd);
    case ELogout(u, now, fd) =>
      ConnectionsAfterLogout(s, u, now, fd);
      UnbindStep(s, u, fd);
    case EClose(fd) => CloseStep(s, fd);
    case EDispatch(now) =>
      ConnectionsAfterDispatch(s, now);
      RefusalStep(s, now);
    case _ =>
  }

  lemma UnbindStep(s: Server, u: guid, fd: int)
    requires Session(s)
    ensures var s0 := s.(connUser := Bracket(s.connUser, fd));
      Session(if u != s0.connUser[fd] then s0 else Unbind(s0, u)) <==> CanUnbind(s, u, fd)
  {
    var s0 := s.(connUser := Bracket(s.connUser, fd));
    BracketInverse(s.connUser, s.userConn, fd);
    if u == s0.connUser[fd] {
      UnbindInverse(s0, u);
    }
  }

  lemma CloseStep(s: Server, fd: int)
    requires Session(s)
    ensures Session(Close(s, fd))
  {
  }

  lemma RefusalStep(s: Server, now: int)
    requires Defined(s, EDispatch(now)) && Session(s)
    ensures var m := s.queue[0];
      Inverse(s.connUser, Bracket(s.userConn, m.send)) <==> m.send == 0 || m.send in s.userConn
  {
    var u := s.queue[0].send;
    if u != 0 && u !in s.userConn {
      assert Bracket(s.userConn, u)[u] == 0;
      assert 0 in s.connUser ==> s.connUser[0] != u;
    }
  }

  /** On every run of safe steps the maps stay inverse injections. */
  lemma SessionRun(ss: seq<Server>, es: seq<Event>, n: nat)
    requires IsRun(ss, es) && n <= |es| && Session(ss[0])
    requires forall i :: 0 <= i < n ==> SessionSafe(ss[i], es[i])
    ensures Session(ss[n])
  {
    forall s, e | Session(s) && Defined(s, e) && SessionSafe(s, e)
      ensures Session(Handle(s, e))
    {
      SessionStep(s, e);
    }
    RunKeeps(ss, es, s => Session(s), (s, e) => Defined(s, e) && SessionSafe(s, e), n);
  }

  /** Hence no two sockets share a real user and no two real users share a socket. */
  lemma SessionInjective(s: Server)
    requires Session(s)
    ensures forall a, b :: a in s.connUser && b in s.connUser && s.connUser[a] == s.connUser[b] != 0 ==> a == b
    ensures forall u, v ::
      u in s.userConn && v in s.userConn && u != 0 && v != 0 && s.userConn[u] == s.userConn[v] ==> u == v
  {
  }
}
