/** What a registration or a modification packet makes of a user, byte by byte, and what a login needs
    from then on. */
module Profiles {
  import opened Bytes
  import opened Packets
  import opened Groups
  import opened GroupRuns
  import opened GroupCodec
  import opened CustomText
  import opened CustomParse
  import opened Users
  import opened Servers
  import opened ServerRuns
  import opened Sessions
  import opened Phones
  import opened Membership
  import opened Ownership
  import opened Access
  import opened Mirrors
  import opened PlainRuns
  import opened Receive
  import opened Requests
  import opened PacketRuns

  // ---------------------------------------------------------------- the fields of a packet

  /** User `x` has the fields that payload `d` carries: the icon, the name, the phone, the text whose hash
      is the password, the login times, where 0 stands for now, and the count of groups. */
  predicate Carries(x: User, d: seq<byte>, now: int, hash: Hasher)
    requires USER_HEADER <= |d|
  {
    && x.icon == Get32(d, 4) && x.name == d[24..56] && x.phone == d[56..72] && x.passwd == hash.apply(d[184..248])
    && x.lastLogin == (if Get32(d, 12) == 0 then now else Get32(d, 12))
    && x.lastLogout == (if Get32(d, 16) == 0 then now else Get32(d, 16))
    && x.owned == d[23] && x.joined == map[]
  }

  /** The guid a payload asks for, where 0 stands for the next one. */
  function AskedGuid(s: Server, d: seq<byte>): guid
    requires USER_HEADER <= |d|
  {
    if Get32(d, 0) == 0 then Inc32(s.lastUser) else Get32(d, 0)
  }

  lemma DecodedCarries(s: Server, now: int, d: seq<byte>)
    requires DecodeUser(s.lastUser, now, s.hash, d).1 != 0
    ensures USER_HEADER <= |d|
    ensures var u := DecodeUser(s.lastUser, now, s.hash, d).0;
      u.id == AskedGuid(s, d) && Carries(u, d, now, s.hash) && u.online == d[22]
      && u.regTime == if Get32(d, 8) == 0 then now else Get32(d, 8)
  {
    hide Get32, Inc32;
  }

  /** A user's payload is taken exactly if the text of custom variables it announces is there and parses;
      then all of it is consumed, and nothing behind it. */
  lemma DecodesExactly(s: Server, now: int, d: seq<byte>)
    ensures var index := DecodeUser(s.lastUser, now, s.hash, d).1;
      index != 0
      <==> (USER_HEADER <= |d| && USER_HEADER + Get32(d, 256) <= |d|
            && Parse(EMPTY, Chars(d[USER_HEADER..USER_HEADER + Get32(d, 256)])).1)
    ensures var index := DecodeUser(s.lastUser, now, s.hash, d).1;
      index != 0 ==> index == USER_HEADER + Get32(d, 256)
  {
    hide Get32, Inc32, DecodeHeader, Parse, Chars;
  }

  /** A registration packet with an unused phone installs one user, on line since now, with the fields
      of the packet, indexes the phone to it, and changes no other user. */
  lemma RegistrationInstalls(s: Server, head: Head, d: seq<byte>, now: int, fd: int, s': Server)
    requires Leads(s, Packet(head, d, now, fd), s') && head.pkgType == ACOUNT_ADD
    requires Consumed(ACOUNT_ADD, d, EnvOf(s, now)) != 0 && USER_HEADER <= |d|
    requires PhoneUnique(s, d[56..72]) == ERROR_OK && AskedGuid(s, d) != 0
    ensures var u := AskedGuid(s, d);
      u in s'.users && s'.users == s.users[u := s'.users[u]] && Carries(s'.users[u], d, now, s.hash)
      && s'.users[u].id == u && s'.users[u].regTime == now && s'.users[u].online == STATUS_ON_LINE
      && s'.phones == s.phones[s.hash.apply(d[56..72]) := u] && s'.hash == s.hash
      && s'.lastUser == Inc32(s.lastUser)
  {
    hide Get32, DecodeUser, Inc32, AcountAdd, PhoneUnique, Sane, Installed;
    DecodedCarries(s, now, d);
    InstalledUser(s, DecodeUser(s.lastUser, now, s.hash, d).0, now, fd);
  }

  lemma InstalledUser(s: Server, w: User, now: int, fd: int)
    requires Defined(s, EAcountAdd(w, now, fd)) && PhoneUnique(s, w.phone) == ERROR_OK && w.id != 0
    ensures var s', u := AcountAdd(s, w, now, fd), w.(regTime := now, online := STATUS_ON_LINE);
      s'.users == s.users[u.id := u] && s'.phones == s.phones[s.hash.apply(u.phone) := u.id]
      && s'.lastUser == Inc32(s.lastUser)
  {
    hide Inc32, Linked, LogCounted, Out, Broadcast, UserAckBytes, AddMember;
  }

  /** A modification packet of a registered guid that is not the next one replaces the whole record of
      that user by what the packet carries, moves the index entry of the phone, and changes no other
      user; it is answered once, with success. */
  lemma ModificationReplaces(s: Server, head: Head, d: seq<byte>, now: int, fd: int, s': Server)
    requires Leads(s, Packet(head, d, now, fd), s') && head.pkgType == ACOUNT_MODIFY
    requires Consumed(ACOUNT_MODIFY, d, EnvOf(s, now)) != 0 && USER_HEADER <= |d|
    requires Get32(d, 0) in s.users && Get32(d, 0) != 0 && Get32(d, 0) != Inc32(s.lastUser)
    ensures var u := Get32(d, 0);
      u in s'.users && s'.users == s.users[u := s'.users[u]] && Carries(s'.users[u], d, now, s.hash)
      && s'.users[u].id == u && s'.users[u].online == d[22]
      && s'.users[u].regTime == (if Get32(d, 8) == 0 then now else Get32(d, 8))
      && s'.phones == (s.phones - {s.hash.apply(s.users[u].phone)})[s.hash.apply(d[56..72]) := u]
      && s' == s.(users := s'.users, phones := s'.phones,
                  sent := s.sent + [Send(fd, Frame(0, ACOUNT_MODIFY_ACK, Put16(ERROR_OK)))])
  {
    hide Get32, DecodeUser, Inc32, Sane;
    DecodedCarries(s, now, d);
  }

  /** Any other modification packet that decodes changes nothing and is not answered. */
  lemma ModificationOfNextIgnored(s: Server, head: Head, d: seq<byte>, now: int, fd: int, s': Server)
    requires Leads(s, Packet(head, d, now, fd), s') && head.pkgType == ACOUNT_MODIFY
    requires Consumed(ACOUNT_MODIFY, d, EnvOf(s, now)) != 0 && USER_HEADER <= |d|
    requires Get32(d, 0) == 0 || Get32(d, 0) == Inc32(s.lastUser)
    ensures s' == s
  {
    hide Get32, DecodeUser, Inc32, Sane;
    DecodedCarries(s, now, d);
  }

  // ---------------------------------------------------------------- logging in afterwards

  /** The payload of a login packet: the phone, then the text of the password. */
  lemma LoginDecodes(s: Server, head: Head, d: seq<byte>, now: int, fd: int)
    requires head.pkgType == ACOUNT_LOGIN && 80 <= |d|
    ensures Requested(s, head, d, now, fd) == ELogin(d[..16], d[16..80], now, fd)
  {
  }

  lemma AnswersDiffer(code: u16, u: guid, v: guid)
    requires code in {ERROR_PHONE_MAP, ERROR_USER_ISNOT_EXIST, ERROR_PASSWD}
    ensures LoginAnswer(code, u) != LoginAnswer(ERROR_OK, v)
  {
    hide Put32, HeadBytes;
    assert LoginAnswer(code, u)[10] == code;
    assert LoginAnswer(ERROR_OK, v)[10] == 0;
  }

  /** The login packet `d` gets the answer that admits user `u`. */
  ghost predicate Admitted(s: Server, s': Server, fd: int, u: guid) {
    s'.sent == s.sent + [Send(fd, LoginAnswer(ERROR_OK, u))]
  }

  /** A login packet with an indexed user's phone is answered with success and the user's guid exactly
      if the hash of its password text is the user's. */
  lemma LoginNeedsPassword(s: Server, head: Head, d: seq<byte>, now: int, fd: int, s': Server, u: guid)
    requires Leads(s, Packet(head, d, now, fd), s') && head.pkgType == ACOUNT_LOGIN && 80 <= |d|
    requires s.hash.apply(d[..16]) in s.phones && s.phones[s.hash.apply(d[..16])] == u && u in s.users
    ensures Admitted(s, s', fd, u) <==> s.hash.apply(d[16..80]) == s.users[u].passwd
  {
    var phone, password := d[..16], d[16..80];
    LoginDecodes(s, head, d, now, fd);
    hide AcountLogin, LoginAnswer, Requested;
    if Proves(s, phone, password, u) {
      LoginAdmits(s, phone, password, now, fd, u);
    } else {
      LoginRefuses(s, phone, password, now, fd);
      AnswersDiffer(ERROR_PASSWD, 0, u);
      assert s'.sent[|s.sent|] == Send(fd, LoginAnswer(ERROR_PASSWD, 0));
    }
  }

  // ---------------------------------------------------------------- what keeps a profile

  /** The request installs a record for `u`. */
  predicate Installs(s: Server, e: Event, u: guid) {
    || (e.EAcountAdd? && PhoneUnique(s, e.wire.phone) == ERROR_OK && Registrant(s, e.wire).id == u)
    || (e.EAcountModify? && Registrant(s, e.wire).id != Inc32(s.lastUser) && e.wire.id == u)
  }

  predicate SameProfile(x: User, y: User) {
    y.id == x.id && y.icon == x.icon && y.name == x.name && y.phone == x.phone && y.passwd == x.passwd
    && y.regTime == x.regTime
  }

  ghost predicate SameProfiles(users: map<guid, User>, users': map<guid, User>) {
    forall u <- users' :: u in users && SameProfile(users[u], users'[u])
  }

  /** No other request changes a user's guid, icon, name, phone, password or registration time. */
  lemma ProfileStep(s: Server, e: Event, u: guid)
    requires Defined(s, e) && u in Handle(s, e).users && !Installs(s, e, u)
    ensures u in s.users && SameProfile(s.users[u], Handle(s, e).users[u])
  {
    hide AcountAdd, AcountModify, AcountDelete, AcountLogin, AcountLogout, Close, GroupAdd, GroupModify, GroupDelete;
    hide MsgSend, MsgListReq, GroupInfoReq, BriefInfoReq, Dispatch, Ack, Linked, LogCounted, PhoneUnique;
    match e
    case EAcountAdd(w, now, fd) => ProfileAfterAdd(s, w, now, fd, u);
    case EAcountModify(w, fd) => ProfileAfterModify(s, w, fd, u);
    case EAcountDelete(v, fd) => AllocAfterDelete(s, v, fd); DeletionKeepsProfiles(s, v, fd);
    case ELogin(p, pw, now, fd) => ProfilesAfterLogin(s, p, pw, now, fd);
    case ELogout(v, now, fd) => ProfilesAfterLogout(s, v, now, fd);
    case EClose(fd) => ProfilesAfterLogout(s, 0, 0, fd);
    case EGroupAdd(info, now, fd) => ProfilesAfterCreate(s, info, now, fd);
    case EGroupModify(g, o, t, k, p, now, fd) => ProfilesAfterModify(s, g, o, t, k, p, now, fd);
    case EGroupDelete(g, o, fd) => ProfilesAfterErase(s, g, o, fd);
    case EDispatch(now) => ProfilesAfterDispatch(s, now);
    case _ =>
  }

  lemma ProfileAfterAdd(s: Server, w: User, now: int, fd: int, u: guid)
    requires Defined(s, EAcountAdd(w, now, fd)) && u in AcountAdd(s, w, now, fd).users
    requires !Installs(s, EAcountAdd(w, now, fd), u)
    ensures u in s.users && SameProfile(s.users[u], AcountAdd(s, w, now, fd).users[u])
  {
    hide Out, Broadcast, AddMember, Linked, LogCounted, Inc32;
  }

  lemma ProfileAfterModify(s: Server, w: User, fd: int, u: guid)
    requires Defined(s, EAcountModify(w, fd)) && u in AcountModify(s, w, fd).users
    requires !Installs(s, EAcountModify(w, fd), u)
    ensures u in s.users && SameProfile(s.users[u], AcountModify(s, w, fd).users[u])
  {
    hide Ack, Inc32, GroupSane;
  }

  lemma DeletionKeepsProfiles(s: Server, v: guid, fd: int)
    requires Defined(s, EAcountDelete(v, fd))
    ensures SameProfiles(s.users, AcountDelete(s, v, fd).users)
  {
    hide Ack, Broadcast, ExpelFromRoom, Linked, LogCounted, ExpelAll;
    UnregisterSane(s.(connUser := Bracket(s.connUser, fd)), v);
  }

  lemma ProfilesAfterLogin(s: Server, p: seq<byte>, pw: seq<byte>, now: int, fd: int)
    ensures SameProfiles(s.users, AcountLogin(s, p, pw, now, fd).users)
  {
    hide Out;
  }

  lemma ProfilesAfterLogout(s: Server, v: guid, now: int, fd: int)
    ensures SameProfiles(s.users, AcountLogout(s, v, now, fd).users)
    ensures SameProfiles(s.users, Close(s, fd).users)
  {
    hide Ack;
  }

  lemma ProfilesAfterCreate(s: Server, info: Group, now: int, fd: int)
    requires Defined(s, EGroupAdd(info, now, fd))
    ensures SameProfiles(s.users, GroupAdd(s, info, now, fd).users)
  {
    hide Ack, Visited, Enroll, Linked, LogCounted;
    assert forall u: User, g: guid :: SameProfile(u, Join(u, g, now));
  }

  lemma ProfilesAfterErase(s: Server, g: guid, o: guid, fd: int)
    ensures SameProfiles(s.users, GroupDelete(s, g, o, fd).users)
  {
    hide Ack, Visited;
    assert forall u: User, h: guid :: SameProfile(u, Leave(u, h));
  }

  lemma ProfilesAfterModify(s: Server, g: guid, o: guid, t: guid, k: u8, p: u8, now: int, fd: int)
    requires Defined(s, EGroupModify(g, o, t, k, p, now, fd))
    ensures SameProfiles(s.users, GroupModify(s, g, o, t, k, p, now, fd).users)
  {
    hide Ack, Broadcast, AddMember, DeleteMember, ChangeRole, Linked, LogCounted;
  }

  lemma ProfilesAfterDispatch(s: Server, now: int)
    requires Defined(s, EDispatch(now))
    ensures SameProfiles(s.users, Dispatch(s, now).users)
  {
    hide Ack, FanoutGroup, FanoutSends, Visited, Servers.Fits, Linked, LogCounted, Blocked;
    assert forall u: User, g: guid :: SameProfile(u, Touch(u, g, now));
  }

  /** No request changes the hash function. */
  lemma HashKept(s: Server, e: Event)
    requires Defined(s, e)
    ensures Handle(s, e).hash == s.hash
  {
    hide AcountAdd, AcountModify, AcountDelete, AcountLogin, AcountLogout, Close, GroupAdd, GroupModify, GroupDelete;
    hide MsgSend, MsgListReq, GroupInfoReq, BriefInfoReq, Dispatch, Ack, GroupsSane, UsersSane;
  }

  /** User `u` stays registered from step `k` to step `n` and nothing installs another record for it. */
  ghost predicate Untouched(ss: seq<Server>, inputs: seq<Input>, u: guid, k: nat, n: nat)
    requires k <= n <= |inputs| && |ss| == |inputs| + 1
  {
    && (forall i :: k <= i <= n ==> u in ss[i].users)
    && (forall i :: k <= i < n ==> !Installs(ss[i], Caused(ss[i], inputs[i]), u))
  }

  lemma {:induction false} ProfileRun(ss: seq<Server>, inputs: seq<Input>, u: guid, k: nat, n: nat)
    requires Fed(ss, inputs) && k <= n <= |inputs| && Untouched(ss, inputs, u, k, n)
    ensures SameProfile(ss[k].users[u], ss[n].users[u]) && ss[n].hash == ss[k].hash
  {
    hide Caused, Handle, Defined, Installs;
    if k < n {
      assert Untouched(ss, inputs, u, k, n - 1);
      ProfileRun(ss, inputs, u, k, n - 1);
      assert Leads(ss[n - 1], inputs[n - 1], ss[n]);
      ProfileStep(ss[n - 1], Caused(ss[n - 1], inputs[n - 1]), u);
      HashKept(ss[n - 1], Caused(ss[n - 1], inputs[n - 1]));
    }
  }

  /** The record of `u` at step `k` decides every login until the record is replaced or deleted, over runs
      of packets that keep the phone index right. */
  lemma RecordDecidesLogin(ss: seq<Server>, inputs: seq<Input>, u: guid, k: nat, n: nat)
    requires Fed(ss, inputs) && k <= n < |inputs| && Untouched(ss, inputs, u, k, n) && PhoneIndex(ss[n])
    requires inputs[n].Packet? && inputs[n].head.pkgType == ACOUNT_LOGIN && 80 <= |inputs[n].payload|
    requires inputs[n].payload[..16] == ss[k].users[u].phone
    ensures Admitted(ss[n], ss[n + 1], inputs[n].fd, u)
      <==> ss[k].hash.apply(inputs[n].payload[16..80]) == ss[k].users[u].passwd
  {
    hide Requested, Handle, Defined, Installs, Admitted;
    ProfileRun(ss, inputs, u, k, n);
    var i := inputs[n];
    assert Leads(ss[n], i, ss[n + 1]);
    LoginNeedsPassword(ss[n], i.head, i.payload, i.now, i.fd, ss[n + 1], u);
  }

  /** Whoever registers with a good packet logs in afterwards, at any time and from any socket, with the
      phone and exactly the texts that hash like the one in bytes 184 to 248 of that packet, until the
      account is modified or deleted. */
  lemma RegisteredLogsIn(ss: seq<Server>, inputs: seq<Input>, lastUser: guid, hash: Hasher, k: nat, n: nat)
    requires Fed(ss, inputs) && 0 <= lastUser < U32_LIMIT && ss[0] == Initial(lastUser, hash) && k < n < |inputs|
    requires forall i :: 0 <= i < n ==> Good(ss[i], inputs[i])
    requires inputs[k].Packet? && inputs[k].head.pkgType == ACOUNT_ADD && USER_HEADER <= |inputs[k].payload|
    requires Consumed(ACOUNT_ADD, inputs[k].payload, EnvOf(ss[k], inputs[k].now)) != 0
    requires PhoneUnique(ss[k], inputs[k].payload[56..72]) == ERROR_OK && AskedGuid(ss[k], inputs[k].payload) != 0
    requires Untouched(ss, inputs, AskedGuid(ss[k], inputs[k].payload), k + 1, n)
    requires inputs[n].Packet? && inputs[n].head.pkgType == ACOUNT_LOGIN && 80 <= |inputs[n].payload|
    requires inputs[n].payload[..16] == inputs[k].payload[56..72]
    ensures Admitted(ss[n], ss[n + 1], inputs[n].fd, AskedGuid(ss[k], inputs[k].payload))
      <==> ss[k].hash.apply(inputs[n].payload[16..80]) == ss[k].hash.apply(inputs[k].payload[184..248])
  {
    var i, u := inputs[k], AskedGuid(ss[k], inputs[k].payload);
    assert Leads(ss[k], i, ss[k + 1]);
    hide Requested, Handle, Defined, Good, Untouched, Admitted, Installs, PhoneUnique, Consumed, Leads;
    RegistrationInstalls(ss[k], i.head, i.payload, i.now, i.fd, ss[k + 1]);
    IndexAt(ss, inputs, lastUser, hash, n);
    RecordDecidesLogin(ss, inputs, u, k + 1, n);
  }

  lemma IndexAt(ss: seq<Server>, inputs: seq<Input>, lastUser: guid, hash: Hasher, n: nat)
    requires Fed(ss, inputs) && n <= |inputs| && 0 <= lastUser < U32_LIMIT && ss[0] == Initial(lastUser, hash)
    requires forall i :: 0 <= i < n ==> Good(ss[i], inputs[i])
    ensures PhoneIndex(ss[n])
  {
    hide Good, Fed, Initial, PhoneIndex, Agreeing, Allocated, Owners, Known;
    PacketsKeepConsistency(ss, inputs, lastUser, hash, n);
  }

  /** Whoever modifies an account logs in afterwards with the new phone and the new password, and with no
      other, until the account is modified again or deleted. */
  lemma ModifiedLogsIn(ss: seq<Server>, inputs: seq<Input>, lastUser: guid, hash: Hasher, k: nat, n: nat)
    requires Fed(ss, inputs) && 0 <= lastUser < U32_LIMIT && ss[0] == Initial(lastUser, hash) && k < n < |inputs|
    requires forall i :: 0 <= i < n ==> Good(ss[i], inputs[i])
    requires inputs[k].Packet? && inputs[k].head.pkgType == ACOUNT_MODIFY && USER_HEADER <= |inputs[k].payload|
    requires Consumed(ACOUNT_MODIFY, inputs[k].payload, EnvOf(ss[k], inputs[k].now)) != 0
    requires var u := Get32(inputs[k].payload, 0); u in ss[k].users && u != 0 && u != Inc32(ss[k].lastUser)
    requires Untouched(ss, inputs, Get32(inputs[k].payload, 0), k + 1, n)
    requires inputs[n].Packet? && inputs[n].head.pkgType == ACOUNT_LOGIN && 80 <= |inputs[n].payload|
    requires inputs[n].payload[..16] == inputs[k].payload[56..72]
    ensures Admitted(ss[n], ss[n + 1], inputs[n].fd, Get32(inputs[k].payload, 0))
      <==> ss[k].hash.apply(inputs[n].payload[16..80]) == ss[k].hash.apply(inputs[k].payload[184..248])
  {
    var i, u := inputs[k], Get32(inputs[k].payload, 0);
    assert Leads(ss[k], i, ss[k + 1]);
    hide Requested, Handle, Defined, Good, Untouched, Admitted, Installs, Consumed, Leads;
    ModificationReplaces(ss[k], i.head, i.payload, i.now, i.fd, ss[k + 1]);
    IndexAt(ss, inputs, lastUser, hash, n);
    RecordDecidesLogin(ss, inputs, u, k + 1, n);
  }

  // ---------------------------------------------------------------- whose hand deletes an account

  /** An account disappears by a deletion of that account on the socket it is bound to, and in no other way. */
  lemma OnlyDeletionRemoves(s: Server, e: Event, u: guid)
    requires Defined(s, e) && u in s.users && u !in Handle(s, e).users
    ensures e.EAcountDelete? && e.user == u && BoundUser(s.connUser, e.fd) == u
  {
    hide AcountAdd, AcountModify, AcountDelete, AcountLogin, AcountLogout, Close, GroupAdd, GroupModify, GroupDelete;
    hide MsgSend, MsgListReq, GroupInfoReq, BriefInfoReq, Dispatch, Ack, Linked, LogCounted, PhoneUnique;
    if e.EAcountDelete? {
      if e.user != BoundUser(s.connUser, e.fd) {
        RefusedDeletionKeeps(s, e.user, e.fd);
      }
      AllocAfterDelete(s, e.user, e.fd);
    } else if e.EAcountAdd? {
      RegistrationKeeps(s, e.wire, e.now, e.fd);
    } else {
      SameUsers(s, e);
    }
  }

  lemma RefusedDeletionKeeps(s: Server, v: guid, fd: int)
    requires Defined(s, EAcountDelete(v, fd)) && v != BoundUser(s.connUser, fd)
    ensures AcountDelete(s, v, fd).users == s.users
  {
    hide Ack, Broadcast, ExpelFromRoom, Unregister;
  }

  lemma RegistrationKeeps(s: Server, w: User, now: int, fd: int)
    requires Defined(s, EAcountAdd(w, now, fd))
    ensures s.users.Keys <= AcountAdd(s, w, now, fd).users.Keys
  {
    hide Out, Broadcast, AddMember, Linked, LogCounted, Inc32;
  }

  /** So in every run from the initial state a real user's account is deleted only on a socket that logged
      in before as that user, with the user's password. */
  lemma DeletionIsAuthentic(ss: seq<Server>, es: seq<Event>, lastUser: guid, hash: Hasher, n: nat, u: guid)
      returns (i: nat)
    requires IsRun(ss, es) && n < |es| && ss[0] == Initial(lastUser, hash)
    requires u != 0 && u in ss[n].users && u !in ss[n + 1].users
    ensures es[n].EAcountDelete? && es[n].user == u && i < n && LogsIn(ss[i], es[i], es[n].fd, u)
  {
    hide Handle, Defined, LogsIn;
    assert Defined(ss[n], es[n]) && ss[n + 1] == Handle(ss[n], es[n]);
    OnlyDeletionRemoves(ss[n], es[n], u);
    i := BoundSocketLoggedIn(ss, es, lastUser, hash, n, es[n].fd, u);
  }
}
