/** How a list and a map of iterators into it mirror a map of values, what one step of each loop over
    members does to that map, and the intermediate states of the longer handlers. */
module Mirrors {
  import opened Bytes
  import opened Packets
  import opened Groups
  import opened GroupRuns
  import opened GroupInfos
  import opened Users
  import opened Servers
  import opened ServerRuns
  import opened CustomParse

  lemma SaneOut(s: Server, fd: int, data: seq<byte>)
    ensures Sane(Out(s, fd, data)) <==> Sane(s)
  {
  }

  /** No list element occurs twice and every map entry is a list element. */
  ghost predicate Holds<K, T>(list: seq<T>, index: map<K, T>) {
    Distinct(list) && forall o <- index.Values :: o in list
  }

  /** ... and the other way around. */
  ghost predicate Covers<K, T>(index: map<K, T>, list: seq<T>) {
    forall o <- list :: o in index.Values
  }

  /** `users_map` holds, under each guid, the user of the abstract state. */
  ghost predicate UsersMatch(index: map<guid, UserInfo>, spec: map<guid, User>)
    reads index.Values
  {
    spec.Keys == index.Keys && forall u <- index :: index[u].State() == spec[u]
  }

  /** Likewise `groups_map`. */
  ghost predicate GroupsMatch(index: map<guid, GroupInfo>, spec: map<guid, Group>)
    reads index.Values
  {
    spec.Keys == index.Keys && forall g <- index :: index[g].State() == spec[g]
  }

  /** The objects of the other users, before and after one user's object changes. */
  lemma UsersRest(index: map<guid, UserInfo>, spec: map<guid, User>, u: guid)
    requires UsersMatch(index, spec) && UsersSane(spec) && u in index
    ensures u in spec && index[u].State() == spec[u] && spec[u].id == u
    ensures UsersMatch(index - {u}, spec - {u}) && index[u] !in (index - {u}).Values
  {
    assert forall k <- index :: index[k].State().id == k;
  }

  lemma UsersWhole(index: map<guid, UserInfo>, spec: map<guid, User>, u: guid, x: User)
    requires UsersMatch(index - {u}, spec - {u}) && u in index && u in spec
    requires UsersSane(spec) && index[u].State() == x && x.id == u
    ensures UsersMatch(index, spec[u := x]) && UsersSane(spec[u := x])
  {
    forall k <- index
      ensures k in spec && index[k].State() == spec[u := x][k]
    {
      assert k == u || k in index - {u};
    }
    assert forall k <- spec :: k == u || k in (spec - {u}).Keys;
  }

  lemma GroupsRest(index: map<guid, GroupInfo>, spec: map<guid, Group>, g: guid)
    requires GroupsMatch(index, spec) && GroupsSane(spec) && g in index
    ensures g in spec && index[g].State() == spec[g] && GroupSane(spec[g]) && spec[g].id == g
    ensures GroupsMatch(index - {g}, spec - {g}) && index[g] !in (index - {g}).Values
  {
    hide GroupSane;
    assert forall k <- index :: index[k].State().id == k;
  }

  lemma GroupsWhole(index: map<guid, GroupInfo>, spec: map<guid, Group>, g: guid, x: Group)
    requires GroupsMatch(index - {g}, spec - {g}) && g in index && g in spec
    requires GroupsSane(spec) && index[g].State() == x && x.id == g && GroupSane(x)
    ensures GroupsMatch(index, spec[g := x]) && GroupsSane(spec[g := x])
  {
    hide GroupSane;
    forall k <- index
      ensures k in spec && index[k].State() == spec[g := x][k]
    {
      assert k == g || k in index - {g};
    }
    assert forall k <- spec :: k == g || k in (spec - {g}).Keys;
  }

  /** A payload written behind the place of its header, then the header. */
  lemma BehindHead(was: seq<byte>, head: seq<byte>, payload: seq<byte>)
    requires |head| + |payload| <= |was|
    ensures Splice(Splice(was, |head|, payload), 0, head)[..|head| + |payload|] == head + payload
  {
  }

  lemma KeyOf<K, T>(index: map<K, T>, o: T) returns (k: K)
    requires o in index.Values
    ensures k in index && index[k] == o
  {
    k :| k in index && index[k] == o;
  }

  lemma HoldsAppend<K, T>(list: seq<T>, index: map<K, T>, k: K, o: T)
    requires Holds(list, index) && o !in list
    ensures Holds(list + [o], index[k := o])
  {
  }

  lemma CoversAppend<K, T>(index: map<K, T>, list: seq<T>, k: K, o: T)
    requires Covers(index, list) && k !in index
    ensures Covers(index[k := o], list + [o])
  {
    forall x <- list + [o]
      ensures x in index[k := o].Values
    {
      if x == o {
        assert index[k := o][k] == o;
      } else {
        var j :| j in index && index[j] == x;
        assert index[k := o][j] == x;
      }
    }
  }

  lemma WithoutListed<K, T>(list: seq<T>, index: map<K, T>, k: K)
    requires Holds(list, index) && Covers(index, list) && k in index && index[k] !in (index - {k}).Values
    ensures var rest := Without(list, index[k]); Holds(rest, index - {k}) && Covers(index - {k}, rest)
  {
    WithoutFacts(list, index[k]);
    forall o <- Without(list, index[k])
      ensures o in (index - {k}).Values
    {
      var j :| j in index && index[j] == o;
      assert j in index - {k} && (index - {k})[j] == o;
    }
  }

  lemma UsersSaneLess(users: map<guid, User>, u: guid)
    requires UsersSane(users)
    ensures UsersSane(users - {u})
  {
  }

  lemma GroupsPut(index: map<guid, GroupInfo>, spec: map<guid, Group>, g: guid, o: GroupInfo)
    requires GroupsMatch(index, spec)
    ensures GroupsMatch(index[g := o], spec[g := o.State()])
  {
  }

  lemma UsersPut(index: map<guid, UserInfo>, spec: map<guid, User>, u: guid, o: UserInfo)
    requires UsersMatch(index, spec)
    ensures UsersMatch(index[u := o], spec[u := o.State()])
  {
  }

  lemma EnrollNobody(g: Group, users: map<guid, User>)
    requires Linked(g)
    ensures Enroll(g, users, 0) == g
  {
  }

  /** The traversal's next effect, computed from the half-enrolled group and a user who may have
      joined already. */
  lemma EnrollNext(g: Group, users: map<guid, User>, i: nat, u: User)
    requires Linked(g) && i < |Visited(g, users.Keys)| && Visited(g, users.Keys)[i] in users
    requires u.icon == users[Visited(g, users.Keys)[i]].icon && u.name == users[Visited(g, users.Keys)[i]].name
    ensures var g1, n := Enroll(g, users, i), VisitedNode(g, users.Keys, i);
      0 <= n < |g1.nodes| && Enroll(g, users, i + 1) == g1.(nodes := g1.nodes[n := EnrolledMember(g1, g1.nodes[n], u)])
  {
    hide Visited;
    VisitedFacts(g, users.Keys);
    var g1 := Enroll(g, users, i);
    assert g1.id == g.id && g1.leader == g.leader;
  }

  /** The groups after the loop over a deleted user's joined groups treated those in `done`. */
  ghost function ExpelSome(groups: map<guid, Group>, done: seq<guid>, user: guid): map<guid, Group>
    requires GroupsSane(groups)
  {
    map g | g in groups :: if g in done then Expel(groups[g], user) else groups[g]
  }

  lemma ExpelNobody(groups: map<guid, Group>, user: guid)
    requires GroupsSane(groups)
    ensures ExpelSome(groups, [], user) == groups
  {
  }

  lemma ExpelNext(groups: map<guid, Group>, keys: seq<guid>, i: nat, user: guid)
    requires GroupsSane(groups) && i < |keys| && keys[i] !in keys[..i]
    ensures var k, before := keys[i], ExpelSome(groups, keys[..i], user);
      before.Keys == groups.Keys && ExpelSome(groups, keys[..i + 1], user)
      == if k in groups then before[k := Expel(groups[k], user)] else before
    ensures keys[i] in groups ==> ExpelSome(groups, keys[..i], user)[keys[i]] == groups[keys[i]]
  {
    hide GroupSane, Expel;
    assert keys[..i + 1] == keys[..i] + [keys[i]];
  }

  lemma ExpelEverywhere(s: Server, keys: seq<guid>, user: guid)
    requires Sane(s) && user in s.users && forall k :: k in keys <==> k in s.users[user].joined
    ensures ExpelSome(s.groups, keys, user) == ExpelAll(s, user)
  {
    hide GroupSane, Expel;
    forall g <- s.groups
      ensures ExpelSome(s.groups, keys, user)[g] == ExpelAll(s, user)[g]
    {
      assert g in keys <==> g in s.users[user].joined;
    }
  }

  lemma SameLeader(g: Group, leader: guid, user: guid)
    requires Linked(g)
    ensures DeleteManager(g, leader, user).leader == g.leader
  {
  }

  /** The dispatch callback for one member, reached through node `n`. */
  function AfterVisit(s: Server, g: guid, sender: guid, packet: seq<byte>, now: int, u: guid, n: Node): Server
    requires g in s.groups && u in s.users && 0 <= n < |s.groups[g].nodes|
  {
    var s1 := s.(users := s.users[u := Touch(s.users[u], g, now)]);
    if u !in s.userConn then s1
    else
      var s2 := if u == sender then s1.(groups := s.groups[g := CountOne(s.groups[g], n)]) else s1;
      s2.(sent := s.sent + [Send(s.userConn[u], packet)])
  }

  /** ... and for the first `i` members visited. */
  ghost function AfterVisits(s: Server, g: guid, sender: guid, packet: seq<byte>, now: int, i: nat): Server
    requires g in s.groups && Linked(s.groups[g]) && i <= |Visited(s.groups[g], s.users.Keys)|
  {
    var keys := Visited(s.groups[g], s.users.Keys);
    s.(users := TouchAll(s.users, keys[..i], g, now),
       groups := s.groups[g := Counted(s.groups[g], s.users.Keys, s.userConn, sender, i)],
       sent := s.sent + Deliver(keys, i, s.userConn, false, 0, packet))
  }

  lemma FanoutIs(s: Server, m: Msg, now: int)
    requires Sane(s) && m.recv in s.groups
    ensures var g, stored := s.groups[m.recv], Stored(s.groups[m.recv], m);
      var s1 := s.(groups := s.groups[m.recv := AddMsg(g, m)]);
      GroupSane(AddMsg(g, m)) && stored.send == m.send && Fanout(s, g, m, now)
      == if MsgSize(stored) > PAYLOAD_MAX then s1
        else AfterVisits(s1, m.recv, m.send, Frame(m.send, CLIENT_MSG_SEND, EncodeMsg(stored)), now,
                         |Visited(AddMsg(g, m), s.users.Keys)|)
  {
    hide AddMsg, GroupSane, Visited, Counted, TouchAll, Deliver, EncodeMsg, Frame, Stored;
    var g := s.groups[m.recv];
    LogKeeps(g, m, s.users.Keys);
    var keys := Visited(g, s.users.Keys);
    assert keys[..|keys|] == keys;
  }

  /** What logging a message leaves alone. */
  lemma LogKeeps(g: Group, m: Msg, users: set<guid>)
    requires GroupSane(g)
    ensures GroupSane(AddMsg(g, m)) && AddMsg(g, m).id == g.id
    ensures Visited(AddMsg(g, m), users) == Visited(g, users) && Stored(g, m).send == m.send
  {
    LogSane(g, m);
  }

  lemma AfterNone(s: Server, g: guid, sender: guid, packet: seq<byte>, now: int)
    requires g in s.groups && Linked(s.groups[g])
    ensures AfterVisits(s, g, sender, packet, now, 0) == s
  {
    TouchNobody(s.users, g, now);
  }

  lemma CountedNext(x: Group, users: set<guid>, userConn: map<guid, int>, sender: guid, i: nat)
    requires Linked(x) && i < |Visited(x, users)|
    ensures var before, u, n := Counted(x, users, userConn, sender, i), Visited(x, users)[i], VisitedNode(x, users, i);
      0 <= n < |before.nodes|
      && Counted(x, users, userConn, sender, i + 1) == if u in userConn && u == sender then CountOne(before, n)
         else before
  {
    hide Visited, CountOne;
    VisitedFacts(x, users);
  }

  lemma DeliverNext(keys: seq<guid>, i: nat, userConn: map<guid, int>, packet: seq<byte>)
    requires i < |keys|
    ensures Deliver(keys, i + 1, userConn, false, 0, packet) == Deliver(keys, i, userConn, false, 0, packet)
      + if keys[i] in userConn then [Send(userConn[keys[i]], packet)] else []
  {
  }

  lemma AfterOneMore(s: Server, g: guid, sender: guid, packet: seq<byte>, now: int, i: nat)
    requires g in s.groups && Linked(s.groups[g]) && i < |Visited(s.groups[g], s.users.Keys)|
    ensures var x, users := s.groups[g], s.users.Keys;
      var s1, u, n := AfterVisits(s, g, sender, packet, now, i), Visited(x, users)[i], VisitedNode(x, users, i);
      g in s1.groups && s1.users.Keys == users && u in users && 0 <= n < |s1.groups[g].nodes|
      && AfterVisits(s, g, sender, packet, now, i + 1) == AfterVisit(s1, g, sender, packet, now, u, n)
  {
    hide Visited, Touch, TouchAll, CountOne, Counted, Deliver, GroupSane, Linked, VisitedNode;
    var x, users := s.groups[g], s.users.Keys;
    var keys := Visited(x, users);
    VisitedFacts(x, users);
    TouchNext(s.users, keys, i, g, now);
    CountedNext(x, users, s.userConn, sender, i);
    DeliverNext(keys, i, s.userConn, packet);
  }

  lemma LeaveNobody(users: map<guid, User>, g: guid)
    ensures LeaveAll(users, [], g) == users
  {
  }

  lemma LeaveNext(users: map<guid, User>, keys: seq<guid>, i: nat, g: guid)
    requires i < |keys| && keys[i] in users
    ensures var before := LeaveAll(users, keys[..i], g);
      before.Keys == users.Keys && LeaveAll(users, keys[..i + 1], g) == before[keys[i] := Leave(before[keys[i]], g)]
  {
    var k := keys[i];
    assert keys[..i + 1] == keys[..i] + [k];
    assert users[k].joined - {g} - {g} == users[k].joined - {g};
  }

  lemma JoinNobody(users: map<guid, User>, g: guid, now: int)
    ensures JoinAll(users, [], g, now) == users
  {
  }

  lemma JoinNext(users: map<guid, User>, keys: seq<guid>, i: nat, g: guid, now: int)
    requires i < |keys| && keys[i] in users
    ensures var before := JoinAll(users, keys[..i], g, now);
      before.Keys == users.Keys
        && JoinAll(users, keys[..i + 1], g, now) == before[keys[i] := Join(before[keys[i]], g, now)]
      && before[keys[i]].icon == users[keys[i]].icon && before[keys[i]].name == users[keys[i]].name
  {
    var k, before := keys[i], JoinAll(users, keys[..i], g, now);
    assert before[k] == if k in keys[..i] then Join(users[k], g, now) else users[k];
    assert keys[..i + 1] == keys[..i] + [keys[i]];
  }

  lemma TouchNobody(users: map<guid, User>, g: guid, now: int)
    ensures TouchAll(users, [], g, now) == users
  {
  }

  lemma TouchNext(users: map<guid, User>, keys: seq<guid>, i: nat, g: guid, now: int)
    requires i < |keys| && keys[i] in users
    ensures var before := TouchAll(users, keys[..i], g, now);
      before.Keys == users.Keys
        && TouchAll(users, keys[..i + 1], g, now) == before[keys[i] := Touch(before[keys[i]], g, now)]
  {
    var k, before := keys[i], TouchAll(users, keys[..i], g, now);
    assert before[k] == if k in keys[..i] then Touch(users[k], g, now) else users[k];
    assert users[k].joined[g := now][g := now] == users[k].joined[g := now];
    assert keys[..i + 1] == keys[..i] + [keys[i]];
  }

  /** A decoded user's guid is not zero unless the counter wraps. */
  lemma DecodedGuid(globalGuid: guid, now: int, hash: Hasher, d: seq<byte>)
    ensures DecodeUser(globalGuid, now, hash, d).1 != 0 ==>
      DecodeUser(globalGuid, now, hash, d).0.id != 0 || Inc32(globalGuid) == 0
  {
    hide Get32, Parse, Chars;
  }

  /** The state in which a registration is announced. */
  ghost function Installed(s: Server, u: User): Server
    requires ROOM in s.groups
  {
    var users := s.users[u.id := u];
    var room := s.groups[ROOM].(leader := if |users| == 1 then u.id else s.groups[ROOM].leader);
    s.(users := users, lastUser := Inc32(s.lastUser), phones := s.phones[s.hash.apply(u.phone) := u.id],
       groups := s.groups[ROOM := AddMember(room, 0, u.id, u.icon, u.name)])
  }

  lemma InstalledIs(s: Server, wire: User, now: int, fd: int)
    requires Defined(s, EAcountAdd(wire, now, fd)) && PhoneUnique(s, wire.phone) == ERROR_OK
    requires Registrant(s, wire).id == wire.id
    ensures var s1 := Installed(s, wire.(regTime := now, online := STATUS_ON_LINE));
      GroupSane(s1.groups[ROOM]) && AcountAdd(s, wire, now, fd)
      == Out(Broadcast(s1, s1.groups[ROOM], false, fd), fd, UserAckBytes(ACOUNT_ADD_ACK, ERROR_OK, wire.id))
  {
    assert GroupSane(s.groups[ROOM]);
    hide Linked, LogCounted, AddMember, Out, Broadcast, UserAckBytes;
    var u := wire.(regTime := now, online := STATUS_ON_LINE);
    var room := s.groups[ROOM].(leader := if |s.users[u.id := u]| == 1 then u.id else s.groups[ROOM].leader);
    LeaderSane(s.groups[ROOM], room.leader);
    AddSane(room, 0, u.id, u.icon, u.name);
  }
}
