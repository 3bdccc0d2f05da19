/** The phone index agrees with a linear scan over the registered users. */
module Phones {
  import opened Bytes
  import opened Groups
  import opened GroupRuns
  import opened Users
  import opened Servers
  import opened ServerRuns

  ghost predicate Indexes(phones: map<int, guid>, users: map<guid, User>, hash: Hasher) {
    && (forall h <- phones :: phones[h] in users && hash.apply(users[phones[h]].phone) == h)
    && (forall u <- users :: hash.apply(users[u].phone) in phones && phones[hash.apply(users[u].phone)] == u)
  }

  ghost predicate PhoneIndex(s: Server) { Indexes(s.phones, s.users, s.hash) }

  // ---------------------------------------------------------------- what the index means

  /** The independent definition: some registered user's phone has that hash. */
  ghost predicate SomeoneHas(s: Server, h: int) {
    exists u :: HasPhone(s, u, h)
  }

  predicate HasPhone(s: Server, u: guid, h: int) {
    u in s.users && s.hash.apply(s.users[u].phone) == h
  }

  /** `on_phone_unique` accepts a phone exactly when no registered user's phone hashes like it. */
  lemma PhoneUniqueIsScan(s: Server, phone: seq<byte>)
    requires PhoneIndex(s)
    ensures PhoneUnique(s, phone) == ERROR_OK <==> !SomeoneHas(s, s.hash.apply(phone))
  {
    HasIsIndexed(s, s.hash.apply(phone));
  }

  lemma HasIsIndexed(s: Server, h: int)
    requires PhoneIndex(s)
    ensures SomeoneHas(s, h) <==> h in s.phones
  {
    if h in s.phones {
      assert HasPhone(s, s.phones[h], h);
    }
  }

  /** No two registered users have phones with the same hash. */
  lemma PhonesDistinct(s: Server, u: guid, v: guid)
    requires PhoneIndex(s) && u in s.users && v in s.users && u != v
    ensures s.hash.apply(s.users[u].phone) != s.hash.apply(s.users[v].phone)
  {
  }

  /** `on_login` answers by looking the phone up in a scan: no match, a wrong password, or success
      for the one user whose phone hashes like it. */
  lemma LoginIsScan(s: Server, phone: seq<byte>, password: seq<byte>)
    requires PhoneIndex(s) && Sane(s)
    ensures LoginError(s, phone, password) == ERROR_PHONE_MAP <==> !SomeoneHas(s, s.hash.apply(phone))
    ensures forall u <- s.users :: s.hash.apply(s.users[u].phone) == s.hash.apply(phone) ==>
      LoginError(s, phone, password) == (if s.users[u].passwd == s.hash.apply(password) then ERROR_OK else ERROR_PASSWD)
      && (LoginError(s, phone, password) == ERROR_OK ==> LoginUser(s, phone, password) == u)
    ensures LoginError(s, phone, password) != ERROR_USER_ISNOT_EXIST
    ensures forall u, v :: HasPhone(s, u, s.hash.apply(phone)) && HasPhone(s, v, s.hash.apply(phone)) ==> u == v
  {
    forall u, v | HasPhone(s, u, s.hash.apply(phone)) && HasPhone(s, v, s.hash.apply(phone))
      ensures u == v
    {
      if u != v {
        PhonesDistinct(s, u, v);
      }
    }
    HasIsIndexed(s, s.hash.apply(phone));
  }

  // ---------------------------------------------------------------- steps

  /** A registration must not replace a user; a modification must not take another user's phone. */
  ghost predicate PhoneSafe(s: Server, e: Event)
    requires Defined(s, e)
  {
    match e
    case EAcountAdd(w, _, _) => PhoneUnique(s, w.phone) == ERROR_OK ==> Registrant(s, w).id !in s.users
    case EAcountModify(w, _) =>
      Registrant(s, w).id == Inc32(s.lastUser)
      || (s.hash.apply(w.phone) in s.phones ==> s.phones[s.hash.apply(w.phone)] == w.id)
    case _ => true
  }

  lemma AddIndexes(phones: map<int, guid>, users: map<guid, User>, hash: Hasher, u: User)
    requires Indexes(phones, users, hash) && hash.apply(u.phone) !in phones
    ensures Indexes(phones[hash.apply(u.phone) := u.id], users[u.id := u], hash) <==> u.id !in users
  {
    var h, p, v := hash.apply(u.phone), phones[hash.apply(u.phone) := u.id], users[u.id := u];
    if u.id in users {
      var h0 := hash.apply(users[u.id].phone);
      assert h0 != h && h0 in p && p[h0] == u.id && v[p[h0]].phone == u.phone;
    }
  }

  lemma ReplaceIndexes(phones: map<int, guid>, users: map<guid, User>, hash: Hasher, u: User)
    requires Indexes(phones, users, hash) && u.id in users
    ensures var h := hash.apply(u.phone);
      Indexes((phones - {hash.apply(users[u.id].phone)})[h := u.id], users[u.id := u], hash)
      <==> (h in phones ==> phones[h] == u.id)
  {
    var h, h0 := hash.apply(u.phone), hash.apply(users[u.id].phone);
    var p, v := (phones - {h0})[h := u.id], users[u.id := u];
    if h in phones && phones[h] != u.id {
      var other := phones[h];
      assert other in v && hash.apply(v[other].phone) == h && p[h] != other;
    }
  }

  lemma RemoveIndexes(phones: map<int, guid>, users: map<guid, User>, hash: Hasher, u: guid)
    requires Indexes(phones, users, hash) && u in users
    ensures Indexes(phones - {hash.apply(users[u].phone)}, users - {u}, hash)
  {
    var p, v := phones - {hash.apply(users[u].phone)}, users - {u};
    forall x <- v
      ensures hash.apply(v[x].phone) in p && p[hash.apply(v[x].phone)] == x
    {
      assert v[x] == users[x];
    }
    forall h <- p
      ensures p[h] in v && hash.apply(v[p[h]].phone) == h
    {
      assert p[h] == phones[h];
    }
  }

  /** Users that differ in other fields only. */
  ghost predicate SamePhones(users: map<guid, User>, users': map<guid, User>) {
    users'.Keys == users.Keys && forall u <- users :: users'[u].phone == users[u].phone
  }

  lemma SameIndexes(s: Server, s': Server)
    requires PhoneIndex(s) && s'.phones == s.phones && s'.hash == s.hash && SamePhones(s.users, s'.users)
    ensures PhoneIndex(s')
  {
    forall u <- s'.users
      ensures s.hash.apply(s'.users[u].phone) in s.phones && s.phones[s.hash.apply(s'.users[u].phone)] == u
    {
      assert u in s.users && s'.users[u].phone == s.users[u].phone;
    }
    forall h <- s.phones
      ensures s.phones[h] in s'.users && s.hash.apply(s'.users[s.phones[h]].phone) == h
    {
      assert s.phones[h] in s.users;
    }
  }

  lemma PhonesAfterAdd(s: Server, w: User, now: int, fd: int)
    requires Defined(s, EAcountAdd(w, now, fd)) && PhoneIndex(s)
    ensures PhoneIndex(AcountAdd(s, w, now, fd)) <==> PhoneSafe(s, EAcountAdd(w, now, fd))
  {
    hide Out, Broadcast, AddMember, Linked, LogCounted, Indexes;
    if PhoneUnique(s, w.phone) == ERROR_OK {
      AddIndexes(s.phones, s.users, s.hash, Registrant(s, w).(regTime := now, online := STATUS_ON_LINE));
    }
  }

  lemma PhonesAfterModify(s: Server, w: User, fd: int)
    requires Defined(s, EAcountModify(w, fd)) && PhoneIndex(s)
    ensures PhoneIndex(AcountModify(s, w, fd)) <==> PhoneSafe(s, EAcountModify(w, fd))
  {
    hide Ack, GroupSane, Indexes;
    if Registrant(s, w).id != Inc32(s.lastUser) {
      ReplaceIndexes(s.phones, s.users, s.hash, w);
    }
  }

  lemma PhonesAfterDelete(s: Server, u: guid, fd: int)
    requires Defined(s, EAcountDelete(u, fd)) && PhoneIndex(s)
    ensures PhoneIndex(AcountDelete(s, u, fd))
  {
    hide Ack, Broadcast, ExpelFromRoom, Linked, LogCounted, GroupSane, GroupsSane, ExpelAll, Indexes;
    UnregisterSane(s.(connUser := Bracket(s.connUser, fd)), u);
    if u in s.users {
      RemoveIndexes(s.phones, s.users, s.hash, u);
    }
  }

  lemma PhonesAfterGroupAdd(s: Server, info: Group, now: int, fd: int)
    requires Defined(s, EGroupAdd(info, now, fd))
    ensures SamePhones(s.users, GroupAdd(s, info, now, fd).users)
  {
    hide Ack, Visited, Enroll, Linked, LogCounted;
    assert forall u: User, g: guid :: Join(u, g, now).phone == u.phone;
  }

  lemma PhonesAfterGroupModify(s: Server, g: guid, o: guid, t: guid, k: u8, p: u8, now: int, fd: int)
    requires Defined(s, EGroupModify(g, o, t, k, p, now, fd))
    ensures SamePhones(s.users, GroupModify(s, g, o, t, k, p, now, fd).users)
  {
    hide Ack, Broadcast, AddMember, DeleteMember, ChangeRole, Linked, LogCounted;
  }

  lemma PhonesAfterDispatch(s: Server, now: int)
    requires Defined(s, EDispatch(now))
    ensures SamePhones(s.users, Dispatch(s, now).users)
  {
    hide Ack, FanoutGroup, FanoutSends, Visited, Fits, Linked, LogCounted;
    assert forall u: User, g: guid :: Touch(u, g, now).phone == u.phone;
  }

  lemma PhonesAfterLogin(s: Server, phone: seq<byte>, password: seq<byte>, now: int, fd: int)
    ensures SamePhones(s.users, AcountLogin(s, phone, password, now, fd).users)
  {
    hide Out;
  }

  lemma PhonesAfterLogout(s: Server, u: guid, now: int, fd: int)
    ensures SamePhones(s.users, AcountLogout(s, u, now, fd).users)
  {
    hide Ack;
  }

  lemma PhonesAfterGroupDelete(s: Server, g: guid, o: guid, fd: int)
    ensures SamePhones(s.users, GroupDelete(s, g, o, fd).users)
  {
    hide Ack, Visited;
    assert forall u: User :: Leave(u, g).phone == u.phone && Disbanded(u).phone == u.phone;
  }

  /** Exactly when a step keeps the phone index right. */
  lemma PhoneStep(s: Server, e: Event)
    requires Defined(s, e) && PhoneIndex(s)
    ensures PhoneIndex(Handle(s, e)) <==> PhoneSafe(s, e)
  {
    hide AcountAdd, AcountModify, AcountDelete, AcountLogin, AcountLogout, GroupAdd, GroupModify, GroupDelete;
    hide MsgSend, MsgListReq, Dispatch, Ack, Out, Indexes, Linked, LogCounted;
    match e
    case EAcountAdd(w, now, fd) => PhonesAfterAdd(s, w, now, fd);
    case EAcountModify(w, fd) => PhonesAfterModify(s, w, fd);
    case EAcountDelete(u, fd) => PhonesAfterDelete(s, u, fd);
    case ELogin(p, pw, now, fd) =>
      PhonesAfterLogin(s, p, pw, now, fd);
      SameIndexes(s, Handle(s, e));
    case ELogout(u, now, fd) =>
      PhonesAfterLogout(s, u, now, fd);
      SameIndexes(s, Handle(s, e));
    case EGroupAdd(info, now, fd) =>
      PhonesAfterGroupAdd(s, info, now, fd);
      SameIndexes(s, Handle(s, e));
    case EGroupModify(g, o, t, k, p, now, fd) =>
      PhonesAfterGroupModify(s, g, o, t, k, p, now, fd);
      SameIndexes(s, Handle(s, e));
    case EGroupDelete(g, o, fd) =>
      PhonesAfterGroupDelete(s, g, o, fd);
      SameIndexes(s, Handle(s, e));
    case EDispatch(now) =>
      PhonesAfterDispatch(s, now);
      SameIndexes(s, Handle(s, e));
    case _ => SameIndexes(s, Handle(s, e));
  }

  lemma PhoneRun(ss: seq<Server>, es: seq<Event>, n: nat)
    requires IsRun(ss, es) && n <= |es| && PhoneIndex(ss[0])
    requires forall i :: 0 <= i < n ==> PhoneSafe(ss[i], es[i])
    ensures PhoneIndex(ss[n])
  {
    forall s, e | PhoneIndex(s) && Defined(s, e) && PhoneSafe(s, e)
      ensures PhoneIndex(Handle(s, e))
    {
      PhoneStep(s, e);
    }
    RunKeeps(ss, es, s => PhoneIndex(s), (s, e) => Defined(s, e) && PhoneSafe(s, e), n);
  }
}
