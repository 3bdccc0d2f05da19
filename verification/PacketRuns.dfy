/** Whole runs of packets, as bytes: which packets keep every invariant of the server. */
module PacketRuns {
  import opened Bytes
  import opened Packets
  import opened Groups
  import opened GroupRuns
  import opened GroupCodec
  import opened Users
  import opened Servers
  import opened ServerRuns
  import opened Sessions
  import opened Phones
  import opened Membership
  import opened Ownership
  import opened Rosters
  import opened Rooms
  import opened Quotas
  import opened MessageLists
  import opened Fanouts
  import opened PlainRuns
  import opened Receive
  import opened Requests

  // ---------------------------------------------------------------- conditions on the bytes

  /** A registration asks for the next guid, by number or by 0, and claims no groups. */
  ghost predicate GoodRegistration(s: Server, d: seq<byte>)
    requires USER_HEADER <= |d| && ROOM in s.groups
  {
    && (Get32(d, 0) == 0 || Get32(d, 0) == s.lastUser + 1) && d[23] == 0
    && s.lastUser + 1 < U32_LIMIT && Roomy(s.groups[ROOM])
  }

  /** A modification is ignored, or is of a registered user in no group, with the right count of
      groups led and a phone that is nobody else's. */
  ghost predicate GoodModification(s: Server, d: seq<byte>)
    requires USER_HEADER <= |d|
  {
    var u, h := Get32(d, 0), s.hash.apply(d[56..72]);
    u == 0 || u == Inc32(s.lastUser)
    || (u in s.users && Unlisted(s, u) && d[23] == |Led(s.groups, u)| <= OWN_GROUP_MAX
      && (h in s.phones ==> s.phones[h] == u))
  }

  function WireMembers(d: seq<byte>): seq<Member>
    requires GROUP_HEADER <= |d| && GROUP_HEADER + MEMBER_SIZE * Get32(d, 4) <= |d|
  {
    DecodeMembers(d, Get32(d, 4))
  }

  /** A new group has a guid not in use, where 0 stands for 2; its members are registered users, none
      twice, and only the leader's job is a manager's. */
  ghost predicate GoodGroup(s: Server, d: seq<byte>)
    requires GROUP_HEADER <= |d| && GROUP_HEADER + MEMBER_SIZE * Get32(d, 4) <= |d|
  {
    && (if Get32(d, 0) == 0 then 2 else Get32(d, 0)) !in s.groups
    && NoRepeats(WireMembers(d))
    && forall m <- WireMembers(d) :: m.userGuid in s.users && (ManagerJob(m.job) <==> m.userGuid == Get32(d, 8))
  }

  /** What can be checked on a packet's bytes and the current state. */
  ghost predicate GoodPacket(s: Server, head: Head, d: seq<byte>, now: int, fd: int)
    requires ROOM in s.groups
  {
    var kind := head.pkgType;
    Modelled(kind, d) && (Consumed(kind, d, EnvOf(s, now)) == 0 ||
    if kind == ACOUNT_ADD then GoodRegistration(s, d)
    else if kind == ACOUNT_MODIFY then GoodModification(s, d)
    else if kind == ACOUNT_DELETE then
      var u := Get32(d, 0);
      CanUnbind(s, u, fd) && (u == Bracket(s.connUser, fd)[fd] && u in s.users ==> CanExpel(s, u))
    else if kind == ACOUNT_LOGIN then CanBind(s, LoginUser(s, d[..16], d[16..80]), fd)
    else if kind == ACOUNT_LOGOUT then CanUnbind(s, Get32(d, 0), fd)
    else if kind == GROUP_ADD then
      Get32(d, 8) in s.users && s.users[Get32(d, 8)].owned < OWN_GROUP_MAX ==> GoodGroup(s, d)
    else if kind == GROUP_MODIFY then
      !Duplicates(s, Get32(d, 0), Get32(d, 4), Get32(d, 8), d[12])
      && (Get32(d, 0) in s.groups ==> Roomy(s.groups[Get32(d, 0)]))
    else if kind == GROUP_DELETE then Get32(d, 0) != ROOM
    else true)
  }

  // ---------------------------------------------------------------- good packets cause plain steps

  lemma DecodedUser(s: Server, now: int, d: seq<byte>)
    requires DecodeUser(s.lastUser, now, s.hash, d).1 != 0
    ensures USER_HEADER <= |d|
    ensures var u := DecodeUser(s.lastUser, now, s.hash, d).0;
      u.id == (if Get32(d, 0) == 0 then Inc32(s.lastUser) else Get32(d, 0))
      && u.owned == d[23] && u.phone == d[56..72] && u.joined == map[]
  {
    hide Get32, Inc32;
  }

  lemma DecodedGroup(d: seq<byte>)
    requires DecodeGroup(1, d).1 != 0
    ensures GROUP_HEADER <= |d| && GROUP_HEADER + MEMBER_SIZE * Get32(d, 4) <= |d|
    ensures DecodeGroup(1, d).0
      == Rebuild(if Get32(d, 0) == 0 then 2 else Get32(d, 0), Get32(d, 4), Get32(d, 8), WireMembers(d))
    ensures |WireMembers(d)| == Get32(d, 4)
  {
    hide Get32, DecodeMember;
  }

  lemma GoodGroupIsAdmissible(s: Server, d: seq<byte>)
    requires DecodeGroup(1, d).1 != 0 && GoodGroup(s, d)
    ensures Linked(DecodeGroup(1, d).0) && Admissible(s, DecodeGroup(1, d).0)
  {
    DecodedGroup(d);
    hide Get32, DecodeGroup;
    var nodes, g := WireMembers(d), DecodeGroup(1, d).0;
    RebuildRepIf(g.id, g.leader, nodes);
    RebuildRolesFit(s, g);
  }

  lemma RebuildRolesFit(s: Server, g: Group)
    requires Rep(g) && forall m <- g.nodes :: m.userGuid in s.users && (ManagerJob(m.job) <==> m.userGuid == g.leader)
    ensures RolesFit(g, s.users.Keys) && forall u <- Keys(g) :: u in s.users
  {
    hide Visited, Groups.Count;
    forall u <- Keys(g)
      ensures u in s.users && (u in g.managers <==> u == g.leader) && (ManagerJob(Entry(g, u).job) <==> u == g.leader)
    {
      LookupInRange(g, u);
      assert g.nodes[Lookup(g, u)] in g.nodes;
    }
  }

  lemma PacketIsPlain(s: Server, head: Head, d: seq<byte>, now: int, fd: int)
    requires Sane(s) && Consistent(s) && GoodPacket(s, head, d, now, fd)
    ensures var e := Requested(s, head, d, now, fd); Defined(s, e) && Plain(s, e)
  {
    hide Get32, DecodeUser, DecodeGroup, Admissible, Linked, LogCounted, Inc32;
    hide Session, PhoneIndex, Agreeing, Allocated, Owners, AllGroupsRep, GoodGroup;
    if Consumed(head.pkgType, d, EnvOf(s, now)) != 0 {
      if head.pkgType == ACOUNT_ADD || head.pkgType == ACOUNT_MODIFY {
        DecodedUser(s, now, d);
        NextGuid(s);
      } else if head.pkgType == GROUP_ADD {
        DecodedSane(1, d);
        DecodedGroup(d);
        if GoodGroup(s, d) {
          GoodGroupIsAdmissible(s, d);
        }
      }
    }
  }

  lemma NextGuid(s: Server)
    requires Allocated(s)
    ensures Inc32(s.lastUser) == if s.lastUser + 1 < U32_LIMIT then s.lastUser + 1 else 0
  {
  }

  // ---------------------------------------------------------------- runs of packets

  /** What reaches the server: a packet, a closed connection, or a turn of the dispatch loop. */
  datatype Input = Packet(head: Head, payload: seq<byte>, now: int, fd: int) | Closed(fd: int) | Dispatching(now: int)

  function Caused(s: Server, i: Input): Event {
    match i
    case Packet(head, payload, now, fd) => Requested(s, head, payload, now, fd)
    case Closed(fd) => EClose(fd)
    case Dispatching(now) => EDispatch(now)
  }

  ghost predicate Good(s: Server, i: Input) {
    match i
    case Packet(head, payload, now, fd) => ROOM in s.groups ==> GoodPacket(s, head, payload, now, fd)
    case Closed(_) => true
    case Dispatching(now) => Defined(s, EDispatch(now)) && !RefusesUnconnected(s, now)
  }

  ghost predicate Leads(s: Server, i: Input, s': Server) {
    Defined(s, Caused(s, i)) && s' == Handle(s, Caused(s, i))
  }

  lemma GoodStep(s: Server, i: Input, s': Server)
    requires Sane(s) && Consistent(s) && Good(s, i) && Leads(s, i, s')
    ensures Sane(s') && Consistent(s')
  {
    hide Session, PhoneIndex, Agreeing, Allocated, Owners, AllGroupsRep, Known, Requested, Handle, Sane, GoodPacket;
    if i.Packet? {
      assert ROOM in s.groups by { KnowsRoom(s); }
      PacketIsPlain(s, i.head, i.payload, i.now, i.fd);
    }
    SaneStep(s, Caused(s, i));
    ConsistentStep(s, Caused(s, i));
  }

  lemma KnowsRoom(s: Server)
    requires Consistent(s)
    ensures ROOM in s.groups
  {
  }

  ghost predicate Fed(ss: seq<Server>, inputs: seq<Input>) {
    |ss| == |inputs| + 1 && forall i :: 0 <= i < |inputs| ==> Leads(ss[i], inputs[i], ss[i + 1])
  }

  lemma {:induction false} GoodRun(ss: seq<Server>, inputs: seq<Input>, n: nat)
    requires Fed(ss, inputs) && n <= |inputs| && Sane(ss[0]) && Consistent(ss[0])
    requires forall i :: 0 <= i < n ==> Good(ss[i], inputs[i])
    ensures Sane(ss[n]) && Consistent(ss[n])
  {
    hide Good, Leads, Sane, Consistent;
    if n > 0 {
      GoodRun(ss, inputs, n - 1);
      GoodStep(ss[n - 1], inputs[n - 1], ss[n]);
    }
  }

  /** Any run of good packets from the initial state, with connections closing and the dispatch loop
      turning in between, keeps every invariant of the server. */
  lemma PacketsKeepConsistency(ss: seq<Server>, inputs: seq<Input>, lastUser: guid, hash: Hasher, n: nat)
    requires Fed(ss, inputs) && n <= |inputs| && 0 <= lastUser < U32_LIMIT && ss[0] == Initial(lastUser, hash)
    requires forall i :: 0 <= i < n ==> Good(ss[i], inputs[i])
    ensures Sane(ss[n]) && Consistent(ss[n])
  {
    hide Good, Fed, Sane, Consistent, Initial;
    InitialConsistent(lastUser, hash);
    GoodRun(ss, inputs, n);
  }

  // ---------------------------------------------------------------- every result about runs applies

  /** The requests a run of inputs makes. */
  function Events(ss: seq<Server>, inputs: seq<Input>): (es: seq<Event>)
    requires |inputs| <= |ss|
    ensures |es| == |inputs| && forall i :: 0 <= i < |inputs| ==> es[i] == Caused(ss[i], inputs[i])
  {
    seq(|inputs|, i requires 0 <= i < |inputs| => Caused(ss[i], inputs[i]))
  }

  lemma FedIsRun(ss: seq<Server>, inputs: seq<Input>)
    requires Fed(ss, inputs)
    ensures IsRun(ss, Events(ss, inputs))
  {
    hide Handle, Defined, Caused;
    forall i | 0 <= i < |inputs|
      ensures Defined(ss[i], Events(ss, inputs)[i]) && ss[i + 1] == Handle(ss[i], Events(ss, inputs)[i])
    {
      assert Leads(ss[i], inputs[i], ss[i + 1]);
    }
  }

  /** A packet lies in the receive buffer. */
  predicate InBuffer(i: Input) { i.Packet? ==> |i.payload| <= PAYLOAD_MAX }

  lemma {:induction false} PacketsFit(ss: seq<Server>, inputs: seq<Input>, n: nat)
    requires Fed(ss, inputs) && n <= |inputs| && QueueFits(ss[0])
    requires forall i <- inputs :: InBuffer(i)
    ensures QueueFits(ss[n])
  {
    hide Handle, Defined, Requested, QueueFits;
    if n > 0 {
      PacketsFit(ss, inputs, n - 1);
      var i, s := inputs[n - 1], ss[n - 1];
      assert Leads(s, i, ss[n]) && InBuffer(i);
      if i.Packet? {
        RequestsFit(s, i.head, i.payload, i.now, i.fd);
      }
      QueueStep(s, Caused(s, i));
    }
  }

  /** What must hold at an input for the counter of `u` to follow its messages. */
  ghost predicate Heard(s: Server, i: Input, id: guid, u: guid)
    requires Defined(s, Caused(s, i))
  {
    var e := Caused(s, i);
    && (Accepted(s, e, id, u) ==> u in s.userConn && Reached(s.groups[id], s.users.Keys, u))
    && (Refounds(s, e, id) ==> Reached(e.info, s.users.Keys, u))
  }

  /** Quota, for runs of packets: messages always fit, so being connected and within reach is enough. */
  lemma PacketQuota(ss: seq<Server>, inputs: seq<Input>, id: guid, u: guid, permissions: u8, n: nat)
    requires Fed(ss, inputs) && n <= |inputs| && QueueFits(ss[0]) && forall i <- inputs :: InBuffer(i)
    requires forall i :: 0 <= i <= n ==> Limited(ss[i], id, u, permissions)
    requires forall i :: 0 <= i < n ==> Leads(ss[i], inputs[i], ss[i + 1]) && Heard(ss[i], inputs[i], id, u)
    ensures var es := Events(ss, inputs);
      SentCount(ss[n], id, u) == SentCount(ss[0], id, u) + AcceptedCount(ss, es, id, u, n)
      && AcceptedCount(ss, es, id, u, n)
        == Min(TriedCount(ss, es, id, u, n), Allowance(SentCount(ss[0], id, u), LimitOf(permissions)))
  {
    var es := Events(ss, inputs);
    FedIsRun(ss, inputs);
    hide Fed, IsRun, Handle, Caused, Limited, Reached, Servers.Fits, Refounds, QueueFits, Defined, Accepted;
    forall i | 0 <= i < n
      ensures Followed(ss[i], es[i], id, u)
    {
      assert Leads(ss[i], inputs[i], ss[i + 1]) && Heard(ss[i], inputs[i], id, u);
      PacketsFit(ss, inputs, i);
      if ss[i].queue != [] {
        QueuedFits(ss[i]);
      }
    }
    QuotaRun(ss, es, id, u, permissions, n);
  }

  /** Exact fan-out, for runs of good packets from the initial state. */
  lemma PacketDispatch(ss: seq<Server>, inputs: seq<Input>, lastUser: guid, hash: Hasher, now: int)
      returns (to: seq<guid>)
    requires Fed(ss, inputs) && 0 <= lastUser < U32_LIMIT && ss[0] == Initial(lastUser, hash)
    requires forall i :: 0 <= i < |inputs| ==> InBuffer(inputs[i]) && Good(ss[i], inputs[i])
    requires var s := ss[|inputs|];
      Defined(s, EDispatch(now)) && s.queue[0].recv in s.groups
      && !Blocked(Entry(s.groups[s.queue[0].recv], s.queue[0].send))
    ensures var s := ss[|inputs|];
      var m := s.queue[0];
      var g := s.groups[m.recv];
      MsgSize(Stored(g, m)) <= PAYLOAD_MAX && Audience(to, g, s.users.Keys, s.userConn) && Distinct(to)
      && (m.recv != ROOM || RoomRegistered(s) ==> forall u :: u in to <==> u in Keys(g) && u in s.userConn)
      && SentExactly(s, Handle(s, EDispatch(now)), to, Frame(m.send, CLIENT_MSG_SEND, EncodeMsg(Stored(g, m))))
  {
    var n := |inputs|;
    PacketsKeepConsistency(ss, inputs, lastUser, hash, n);
    forall i <- inputs
      ensures InBuffer(i)
    {
      var k :| 0 <= k < n && inputs[k] == i;
    }
    PacketsFit(ss, inputs, n);
    QueuedFits(ss[n]);
    hide Fed, Consistent, Handle, Good, Audience, SentExactly, Stored, Blocked, Frame, EncodeMsg;
    to := DispatchReachesMembers(ss[n], EDispatch(now));
  }

  // ---------------------------------------------------------------- users do register

  /** Such runs are not empty of users: a good registration packet with an unused phone registers its
      user under the next guid, in the public room. */
  lemma RegistrationLands(s: Server, head: Head, d: seq<byte>, now: int, fd: int, s': Server)
    requires Sane(s) && Consistent(s) && GoodPacket(s, head, d, now, fd) && Leads(s, Packet(head, d, now, fd), s')
    requires head.pkgType == ACOUNT_ADD && Consumed(ACOUNT_ADD, d, EnvOf(s, now)) != 0
    requires USER_HEADER <= |d| && PhoneUnique(s, d[56..72]) == ERROR_OK
    ensures s.lastUser + 1 !in s.users && s'.users.Keys == s.users.Keys + {s.lastUser + 1}
    ensures s'.users[s.lastUser + 1].phone == d[56..72]
    ensures ROOM in s'.groups && s.lastUser + 1 in Keys(s'.groups[ROOM])
  {
    hide Get32, DecodeUser, Inc32, AcountAdd, Linked, LogCounted, PhoneUnique, Keys;
    hide Session, PhoneIndex, Agreeing, Owners, AllGroupsRep, Known;
    DecodedUser(s, now, d);
    NextGuid(s);
    NewcomerLands(s, DecodeUser(s.lastUser, now, s.hash, d).0, now, fd);
  }

  lemma NewcomerLands(s: Server, w: User, now: int, fd: int)
    requires Defined(s, EAcountAdd(w, now, fd)) && PhoneUnique(s, w.phone) == ERROR_OK
    ensures var u, s' := Registrant(s, w), AcountAdd(s, w, now, fd);
      s'.users.Keys == s.users.Keys + {u.id} && s'.users[u.id].phone == w.phone
      && ROOM in s'.groups && u.id in Keys(s'.groups[ROOM])
  {
    hide Inc32, Linked, LogCounted, Out, Broadcast, UserAckBytes, AddMember, Keys;
    var u := Registrant(s, w);
    Listed(s.groups[ROOM].(leader := if |s.users[u.id := u.(regTime := now, online := STATUS_ON_LINE)]| == 1
                                     then u.id else s.groups[ROOM].leader), u);
  }

  lemma Listed(room: Group, u: User)
    ensures u.id in Keys(AddMember(room, 0, u.id, u.icon, u.name))
  {
  }

  /** The first registration of a run: a payload of zeros already registers a user. */
  lemma FirstRegistration(d: seq<byte>, lastUser: guid, hash: Hasher, now: int, fd: int)
    requires |d| == USER_HEADER && (forall k :: 0 <= k < |d| ==> d[k] == 0) && 0 <= lastUser && lastUser + 1 < U32_LIMIT
    ensures var s, i := Initial(lastUser, hash), Packet(Head(0, ACOUNT_ADD, USER_HEADER), d, now, fd);
      Good(s, i) && Defined(s, Caused(s, i)) && Handle(s, Caused(s, i)).users.Keys == {lastUser + 1}
  {
    var s, head := Initial(lastUser, hash), Head(0, ACOUNT_ADD, USER_HEADER);
    InitialConsistent(lastUser, hash);
    FirstIsGood(d, lastUser, hash, now, fd);
    PacketIsPlain(s, head, d, now, fd);
    hide DecodeUser, Consistent, AcountAdd, GoodPacket, Requested, Inc32, Sane, Plain;
    NextGuid(s);
    NewcomerLands(s, DecodeUser(lastUser, now, hash, d).0, now, fd);
  }

  lemma FirstIsGood(d: seq<byte>, lastUser: guid, hash: Hasher, now: int, fd: int)
    requires |d| == USER_HEADER && (forall k :: 0 <= k < |d| ==> d[k] == 0) && 0 <= lastUser && lastUser + 1 < U32_LIMIT
    ensures var s, head, u := Initial(lastUser, hash), Head(0, ACOUNT_ADD, USER_HEADER),
      DecodeUser(lastUser, now, hash, d).0;
      GoodPacket(s, head, d, now, fd) && Requested(s, head, d, now, fd) == EAcountAdd(u, now, fd)
      && Registrant(s, u).id == lastUser + 1 && PhoneUnique(s, u.phone) == ERROR_OK && Allocated(s)
  {
    var s := Initial(lastUser, hash);
    BlankUserDecodes(s, now, d);
    DecodedUser(s, now, d);
    NextGuid(s);
    hide DecodeUser, Get32, Inc32;
  }

  lemma BlankUserDecodes(s: Server, now: int, d: seq<byte>)
    requires |d| == USER_HEADER && forall k :: 0 <= k < |d| ==> d[k] == 0
    ensures Get32(d, 0) == 0 && d[23] == 0 && DecodeUser(s.lastUser, now, s.hash, d).1 == USER_HEADER
  {
    assert Get32(d, 256) == 0;
    assert Chars(d[USER_HEADER..USER_HEADER + 0]) == "";
    hide DecodeHeader;
  }
}
