/** Who may act on a socket: what a login proves, what it binds, and whose messages are queued. */
module Access {
  import opened Bytes
  import opened Packets
  import opened Groups
  import opened GroupRuns
  import opened Users
  import opened Servers
  import opened ServerRuns
  import opened Sessions

  // ---------------------------------------------------------------- one login

  /** The phone is the one indexed to `u` and the password has the hash stored for `u`. */
  predicate Proves(s: Server, phone: seq<byte>, password: seq<byte>, u: guid) {
    && s.hash.apply(phone) in s.phones && s.phones[s.hash.apply(phone)] == u
    && u in s.users && s.users[u].passwd == s.hash.apply(password)
  }

  /** The packet that answers a login. */
  function LoginAnswer(code: u16, u: guid): seq<byte> { Frame(0, ACOUNT_LOGIN_ACK, Put16(code) + Put32(u)) }

  /** A login that proves `u` binds `u` to the socket, marks `u` as on line and answers with `u`. */
  lemma LoginAdmits(s: Server, phone: seq<byte>, password: seq<byte>, now: int, fd: int, u: guid)
    requires Sane(s) && Proves(s, phone, password, u)
    ensures var s' := Handle(s, ELogin(phone, password, now, fd));
      s' == s.(users := s.users[u := s.users[u].(lastLogin := now, lastLogout := now, online := STATUS_ON_LINE)],
               connUser := s.connUser[fd := u], userConn := s.userConn[u := fd],
               sent := s.sent + [Send(fd, LoginAnswer(ERROR_OK, u))])
  {
  }

  /** A login that proves nobody changes no user, ties the socket to guid 0 and nothing else, and is
      answered once, with guid 0 and the reason. */
  lemma LoginRefuses(s: Server, phone: seq<byte>, password: seq<byte>, now: int, fd: int)
    requires Sane(s) && forall u :: !Proves(s, phone, password, u)
    ensures var s', h := Handle(s, ELogin(phone, password, now, fd)), s.hash.apply(phone);
      var code := if h !in s.phones then ERROR_PHONE_MAP
                  else if s.phones[h] !in s.users then ERROR_USER_ISNOT_EXIST else ERROR_PASSWD;
      s' == s.(connUser := s.connUser[fd := 0], userConn := s.userConn[0 := fd],
               sent := s.sent + [Send(fd, LoginAnswer(code, 0))])
  {
    var h := s.hash.apply(phone);
    assert h in s.phones ==> !Proves(s, phone, password, s.phones[h]);
  }

  // ---------------------------------------------------------------- bindings, over runs

  /** The request is a login on socket `fd` that proves `u`. */
  predicate LogsIn(s: Server, e: Event, fd: int, u: guid) {
    e.ELogin? && e.fd == fd && Proves(s, e.phone, e.password, u)
  }

  ghost predicate SocketOf(s: Server, fd: int, u: guid) { fd in s.connUser && s.connUser[fd] == u }

  ghost predicate ReachedAt(s: Server, fd: int, u: guid) { u in s.userConn && s.userConn[u] == fd }

  /** A socket becomes bound to a real user, or a real user's messages go to a socket, by a login that
      proves the user, and in no other way. Socket 0 is excepted for the second: refusing a message of
      a user without a connection inserts it. */
  lemma BindingStep(s: Server, e: Event, fd: int, u: guid)
    requires Defined(s, e) && u != 0
    ensures SocketOf(Handle(s, e), fd, u) ==> SocketOf(s, fd, u) || LogsIn(s, e, fd, u)
    ensures fd != 0 && ReachedAt(Handle(s, e), fd, u) ==> ReachedAt(s, fd, u) || LogsIn(s, e, fd, u)
  {
    hide AcountAdd, AcountModify, AcountDelete, AcountLogin, AcountLogout, Close, GroupAdd, GroupModify, GroupDelete;
    hide MsgSend, MsgListReq, GroupInfoReq, BriefInfoReq, Dispatch, Ack, Out, Linked, LogCounted, Blocked;
    match e
    case EAcountDelete(v, sock) => ConnectionsAfterDelete(s, v, sock);
    case ELogin(phone, password, now, sock) => LoginBindings(s, phone, password, now, sock, u);
    case ELogout(v, now, sock) => ConnectionsAfterLogout(s, v, now, sock);
    case EClose(sock) => CloseBindings(s, sock);
    case EDispatch(now) => ConnectionsAfterDispatch(s, now);
    case _ =>
  }

  lemma LoginBindings(s: Server, phone: seq<byte>, password: seq<byte>, now: int, fd: int, u: guid)
    requires Sane(s) && u != 0
    ensures var s' := AcountLogin(s, phone, password, now, fd);
      if Proves(s, phone, password, u) then s'.connUser == s.connUser[fd := u] && s'.userConn == s.userConn[u := fd]
      else forall k :: (SocketOf(s', k, u) ==> SocketOf(s, k, u)) && (ReachedAt(s', k, u) ==> ReachedAt(s, k, u))
  {
    hide Out;
  }

  lemma CloseBindings(s: Server, fd: int)
    ensures Close(s, fd).connUser == s.connUser - {fd}
    ensures Close(s, fd).userConn == s.userConn - {BoundUser(s.connUser, fd)}
  {
  }

  /** In every run from the initial state a socket that is bound to a real user is bound because of a
      login on that very socket, which presented a phone indexed to the user and the user's password, and
      since then the socket has been bound to nobody else. */
  lemma {:induction false} BoundSocketLoggedIn(ss: seq<Server>, es: seq<Event>, lastUser: guid, hash: Hasher, n: nat,
      fd: int, u: guid) returns (i: nat)
    requires IsRun(ss, es) && n <= |es| && ss[0] == Initial(lastUser, hash)
    requires u != 0 && SocketOf(ss[n], fd, u)
    ensures i < n && LogsIn(ss[i], es[i], fd, u)
    ensures forall j :: i < j <= n ==> SocketOf(ss[j], fd, u)
  {
    hide Handle, Defined, LogsIn, SocketOf;
    NobodyBound(lastUser, hash, fd, u);
    i := 0;
    if n > 0 {
      assert Defined(ss[n - 1], es[n - 1]) && ss[n] == Handle(ss[n - 1], es[n - 1]);
      BindingStep(ss[n - 1], es[n - 1], fd, u);
      if LogsIn(ss[n - 1], es[n - 1], fd, u) {
        i := n - 1;
      } else {
        i := BoundSocketLoggedIn(ss, es, lastUser, hash, n - 1, fd, u);
      }
    }
  }

  lemma NobodyBound(lastUser: guid, hash: Hasher, fd: int, u: guid)
    ensures !SocketOf(Initial(lastUser, hash), fd, u) && !ReachedAt(Initial(lastUser, hash), fd, u)
  {
  }

  /** Likewise what is sent to a real user goes to a socket that logged in as that user. */
  lemma {:induction false} DeliverySocketLoggedIn(ss: seq<Server>, es: seq<Event>, lastUser: guid, hash: Hasher,
      n: nat, fd: int, u: guid) returns (i: nat)
    requires IsRun(ss, es) && n <= |es| && ss[0] == Initial(lastUser, hash)
    requires u != 0 && fd != 0 && ReachedAt(ss[n], fd, u)
    ensures i < n && LogsIn(ss[i], es[i], fd, u)
    ensures forall j :: i < j <= n ==> ReachedAt(ss[j], fd, u)
  {
    hide Handle, Defined, LogsIn, ReachedAt;
    NobodyBound(lastUser, hash, fd, u);
    i := 0;
    if n > 0 {
      assert Defined(ss[n - 1], es[n - 1]) && ss[n] == Handle(ss[n - 1], es[n - 1]);
      BindingStep(ss[n - 1], es[n - 1], fd, u);
      if LogsIn(ss[n - 1], es[n - 1], fd, u) {
        i := n - 1;
      } else {
        i := DeliverySocketLoggedIn(ss, es, lastUser, hash, n - 1, fd, u);
      }
    }
  }

  // ---------------------------------------------------------------- the queue

  /** A message from the user its header names, on the socket bound to that user. */
  predicate Enters(s: Server, e: Event) {
    e.EMsgSend? && e.fd in s.connUser && s.connUser[e.fd] == e.sender
  }

  /** Nothing but such a message gets into the queue, and nothing but a turn of the dispatch loop takes
      one out, the oldest. */
  lemma QueueAfter(s: Server, e: Event)
    requires Defined(s, e)
    ensures Handle(s, e).queue
      == if Enters(s, e) then s.queue + [e.msg] else if e.EDispatch? then s.queue[1..] else s.queue
    ensures e.EDispatch? ==> s.queue != []
  {
    hide AcountAdd, AcountModify, AcountDelete, AcountLogin, AcountLogout, Close, GroupAdd, GroupModify, GroupDelete;
    hide MsgListReq, GroupInfoReq, BriefInfoReq, Ack, Linked, LogCounted, Fanout, Blocked, GroupsSane, UsersSane;
  }

  /** A message on a socket that is not bound to the user it names is refused with one packet and has no
      other effect; one that enters the queue has no other effect either. */
  lemma SendAnswered(s: Server, sender: guid, m: Msg, fd: int)
    requires Sane(s)
    ensures var e, s' := EMsgSend(sender, m, fd), Handle(s, EMsgSend(sender, m, fd));
      if Enters(s, e) then s' == s.(queue := s.queue + [m])
      else s' == s.(sent := s.sent
        + [Send(fd, Frame(0, MSG_SEND_ACK, Put16(ERROR_USER_NOT_EXIST_OR_SEND_GUID)))])
  {
  }

  /** The messages that entered in the first `n` steps, and the number of turns of the dispatch loop. */
  function Entered(ss: seq<Server>, es: seq<Event>, n: nat): seq<Msg>
    requires n <= |es| && n <= |ss|
  {
    if n == 0 then []
    else Entered(ss, es, n - 1) + if Enters(ss[n - 1], es[n - 1]) then [es[n - 1].msg] else []
  }

  function Dispatched(es: seq<Event>, n: nat): nat
    requires n <= |es|
  {
    if n == 0 then 0 else Dispatched(es, n - 1) + if es[n - 1].EDispatch? then 1 else 0
  }

  /** The queue is first in, first out, over every run: it holds the messages that entered, in order,
      without as many of the oldest as the loop has taken. */
  lemma {:induction false} QueueIsFifo(ss: seq<Server>, es: seq<Event>, n: nat)
    requires IsRun(ss, es) && n <= |es| && ss[0].queue == []
    ensures Dispatched(es, n) <= |Entered(ss, es, n)|
    ensures ss[n].queue == Entered(ss, es, n)[Dispatched(es, n)..]
  {
    hide Handle, Defined, Enters;
    if n > 0 {
      QueueIsFifo(ss, es, n - 1);
      assert Defined(ss[n - 1], es[n - 1]) && ss[n] == Handle(ss[n - 1], es[n - 1]);
      QueueAfter(ss[n - 1], es[n - 1]);
      SendIsNoTurn(ss[n - 1], es[n - 1]);
    }
  }

  lemma SendIsNoTurn(s: Server, e: Event)
    ensures Enters(s, e) ==> !e.EDispatch?
  {
  }

  lemma {:induction false} EnteredAt(ss: seq<Server>, es: seq<Event>, n: nat, m: Msg) returns (i: nat)
    requires n <= |es| && n <= |ss| && m in Entered(ss, es, n)
    ensures i < n && Enters(ss[i], es[i]) && es[i].msg == m
  {
    if Enters(ss[n - 1], es[n - 1]) && es[n - 1].msg == m {
      i := n - 1;
    } else {
      i := EnteredAt(ss, es, n - 1, m);
    }
  }

  /** Every message in the queue came from a socket that had logged in as the real user its header
      named, with that user's password, and was still bound to that user when it sent the message. */
  lemma QueuedMessageIsAuthentic(ss: seq<Server>, es: seq<Event>, lastUser: guid, hash: Hasher, n: nat, m: Msg)
      returns (i: nat, j: nat)
    requires IsRun(ss, es) && n <= |es| && ss[0] == Initial(lastUser, hash) && m in ss[n].queue
    ensures i < n && es[i].EMsgSend? && es[i].msg == m && SocketOf(ss[i], es[i].fd, es[i].sender)
    ensures es[i].sender != 0 ==> j < i && LogsIn(ss[j], es[j], es[i].fd, es[i].sender)
  {
    hide Handle, Defined, LogsIn;
    QueueIsFifo(ss, es, n);
    i := EnteredAt(ss, es, n, m);
    j := 0;
    if es[i].sender != 0 {
      j := BoundSocketLoggedIn(ss, es, lastUser, hash, i, es[i].fd, es[i].sender);
    }
  }
}
