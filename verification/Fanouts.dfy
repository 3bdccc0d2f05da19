/** Delivering group messages and group information: who receives a packet. */
module Fanouts {
  import opened Bytes
  import opened Packets
  import opened Groups
  import opened GroupCodec
  import opened GroupRuns
  import opened Sorted
  import opened Servers
  import opened ServerRuns

  // ---------------------------------------------------------------- exact fan-out

  ghost predicate AllRegistered(g: Group, users: set<guid>) {
    forall u <- Keys(g) :: u in users
  }

  /** One packet to the socket of each of the first `i` of these users. */
  function Posted(to: seq<guid>, i: nat, userConn: map<guid, int>, data: seq<byte>): (out: seq<Send>)
    requires i <= |to| && forall k :: 0 <= k < |to| ==> to[k] in userConn
    ensures |out| == i && forall k :: 0 <= k < i ==> out[k] == Send(userConn[to[k]], data)
  {
    if i == 0 then [] else Posted(to, i - 1, userConn, data) + [Send(userConn[to[i - 1]], data)]
  }

  /** The connected ones among the first `i` keys. */
  function Connected(keys: seq<guid>, i: nat, userConn: map<guid, int>): (to: seq<guid>)
    requires i <= |keys|
    ensures forall k :: 0 <= k < |to| ==> to[k] in userConn
  {
    if i == 0 then []
    else
      Connected(keys, i - 1, userConn) + if keys[i - 1] in userConn then [keys[i - 1]] else []
  }

  lemma {:induction false} DeliverIsPosted(keys: seq<guid>, i: nat, userConn: map<guid, int>, data: seq<byte>)
    requires i <= |keys|
    ensures var to := Connected(keys, i, userConn);
      Deliver(keys, i, userConn, false, 0, data) == Posted(to, |to|, userConn, data)
  {
    if i > 0 {
      DeliverIsPosted(keys, i - 1, userConn, data);
    }
  }

  lemma {:induction false} ConnectedFacts(keys: seq<guid>, i: nat, userConn: map<guid, int>)
    requires i <= |keys|
    ensures Distinct(keys) ==> Distinct(Connected(keys, i, userConn))
    ensures forall u :: u in Connected(keys, i, userConn) <==> u in keys[..i] && u in userConn
  {
    if i > 0 {
      ConnectedFacts(keys, i - 1, userConn);
      assert keys[..i] == keys[..i - 1] + [keys[i - 1]];
      assert Distinct(keys) ==> keys[i - 1] !in keys[..i - 1];
    }
  }

  /** A traversal of one index stops at its first unregistered guid: it reaches exactly the guids
      with no unregistered one up to them. */
  ghost predicate Precedes(index: map<guid, Node>, users: set<guid>, u: guid) {
    u in index && forall v <- index :: v <= u ==> v in users
  }

  ghost predicate Reachable(g: Group, users: set<guid>, u: guid) {
    Precedes(g.managers, users, u) || Precedes(g.members, users, u)
  }

  lemma ReachedExactly(index: map<guid, Node>, users: set<guid>)
    ensures forall u :: u in ReachedOf(index, users) <==> Precedes(index, users, u)
  {
    AscendingFacts(index.Keys);
    hide Ascending;
    var keys, reached := Ascending(index.Keys), ReachedOf(index, users);
    var n := Reach(keys, users);
    assert reached == keys[..n];
    forall u
      ensures u in reached <==> Precedes(index, users, u)
    {
      if u in reached {
        var i :| 0 <= i < n && keys[i] == u;
        KeysUpTo(keys, index, users, i);
      }
      if Precedes(index, users, u) {
        assert u in index.Keys;
        var i :| 0 <= i < |keys| && keys[i] == u;
        assert n < |keys| ==> keys[n] in keys;
        assert i < n && reached[i] == u;
      }
    }
  }

  lemma KeysUpTo(keys: seq<guid>, index: map<guid, Node>, users: set<guid>, i: nat)
    requires i < |keys| && (forall k :: k in keys <==> k in index.Keys)
    requires forall a, b :: 0 <= a < b < |keys| ==> keys[a] < keys[b]
    requires forall a :: 0 <= a <= i ==> keys[a] in users
    ensures Precedes(index, users, keys[i])
  {
    assert keys[i] in keys;
    forall v <- index | v <= keys[i]
      ensures v in users
    {
      assert v in index.Keys;
      var a :| 0 <= a < |keys| && keys[a] == v;
    }
  }

  /** A traversal of all members visits exactly the reachable ones, each once. */
  lemma VisitsReachable(g: Group, users: set<guid>)
    ensures forall u :: u in Visited(g, users) <==> Reachable(g, users, u)
    ensures g.managers.Keys !! g.members.Keys ==> Distinct(Visited(g, users))
    ensures AllRegistered(g, users) ==> forall u :: Reachable(g, users, u) <==> u in Keys(g)
  {
    ReachedExactly(g.managers, users);
    ReachedExactly(g.members, users);
    ReachedFacts(g.managers, users);
    ReachedFacts(g.members, users);
    var a, b := ReachedOf(g.managers, users), ReachedOf(g.members, users);
    hide ReachedOf;
    assert Visited(g, users) == a + b;
    forall i, j | 0 <= i < |a| && 0 <= j < |b|
      ensures a[i] in g.managers && b[j] in g.members
    {
      assert a[i] in a && b[j] in b;
    }
  }

  /** ... in this order: managers by guid, then ordinary members by guid. */
  lemma VisitsInOrder(g: Group, users: set<guid>) returns (n: nat)
    ensures n <= |Visited(g, users)|
    ensures forall i :: 0 <= i < n ==> Visited(g, users)[i] in g.managers
    ensures forall i :: n <= i < |Visited(g, users)| ==> Visited(g, users)[i] in g.members
    ensures forall i, j :: 0 <= i < j < n ==> Visited(g, users)[i] < Visited(g, users)[j]
    ensures forall i, j :: n <= i < j < |Visited(g, users)| ==> Visited(g, users)[i] < Visited(g, users)[j]
  {
    n := |ReachedOf(g.managers, users)|;
    VisitedFacts(g, users);
    ReachedInOrder(g.managers, users);
    ReachedInOrder(g.members, users);
    hide ReachedOf;
  }

  lemma ReachedInOrder(index: map<guid, Node>, users: set<guid>)
    ensures forall i, j :: 0 <= i < j < |ReachedOf(index, users)| ==>
      ReachedOf(index, users)[i] < ReachedOf(index, users)[j]
  {
    AscendingFacts(index.Keys);
    hide Ascending;
  }

  /** The entry of a member. */
  function Entry(g: Group, u: guid): Member
    requires Linked(g) && u in Keys(g)
  {
    g.nodes[Lookup(g, u)]
  }

  /** The traversal reaches node `n`: through the index entry of its guid in one of the two indexes. */
  ghost predicate NodeReached(g: Group, users: set<guid>, n: Node)
    requires 0 <= n < |g.nodes|
  {
    var u := g.nodes[n].userGuid;
    (Precedes(g.managers, users, u) && g.managers[u] == n) || (Precedes(g.members, users, u) && g.members[u] == n)
  }

  /** Some of the first `i` visited members is reached through node `n`. */
  ghost predicate Hit(g: Group, users: set<guid>, i: nat, n: Node)
    requires i <= |Visited(g, users)|
  {
    exists k :: 0 <= k < i && VisitedNode(g, users, k) == n
  }

  lemma VisitedNodeFacts(g: Group, users: set<guid>, i: nat)
    requires Linked(g) && i < |Visited(g, users)|
    ensures 0 <= VisitedNode(g, users, i) < |g.nodes|
    ensures g.nodes[VisitedNode(g, users, i)].userGuid == Visited(g, users)[i]
  {
    VisitedFacts(g, users);
    hide Visited, ReachedOf;
  }

  /** The traversal comes to each node at most once, whatever roles its member has. */
  lemma VisitedOnce(g: Group, users: set<guid>, i: nat, j: nat)
    requires Linked(g) && i < j < |Visited(g, users)|
    ensures VisitedNode(g, users, i) != VisitedNode(g, users, j)
  {
    VisitedNodeFacts(g, users, i);
    VisitedNodeFacts(g, users, j);
    VisitedFacts(g, users);
    ReachedFacts(g.managers, users);
    ReachedFacts(g.members, users);
    hide ReachedOf, Points;
  }

  lemma HitIsReached(g: Group, users: set<guid>, n: Node)
    requires Linked(g) && 0 <= n < |g.nodes|
    ensures Hit(g, users, |Visited(g, users)|, n) <==> NodeReached(g, users, n)
  {
    ReachedExactly(g.managers, users);
    ReachedExactly(g.members, users);
    var a, b, u := ReachedOf(g.managers, users), ReachedOf(g.members, users), g.nodes[n].userGuid;
    assert Visited(g, users) == a + b;
    hide ReachedOf, Visited, Linked;
    if Hit(g, users, |a + b|, n) {
      var k :| 0 <= k < |a + b| && VisitedNode(g, users, k) == n;
      VisitedNodeFacts(g, users, k);
      assert k < |a| ==> a[k] in a;
      assert k >= |a| ==> b[k - |a|] in b;
    }
    if Precedes(g.managers, users, u) && g.managers[u] == n {
      var k :| 0 <= k < |a| && a[k] == u;
      assert VisitedNode(g, users, k) == n;
    }
    if Precedes(g.members, users, u) && g.members[u] == n {
      var k :| 0 <= k < |b| && b[k] == u;
      assert VisitedNode(g, users, |a| + k) == n;
    }
  }

  function OneMore(m: Member): Member { m.(msgCount := (m.msgCount + 1) % 0x1_0000) }

  /** Counting touches only the sender's nodes, and each of them at most once. */
  lemma {:induction false} CountedNode(g: Group, users: set<guid>, userConn: map<guid, int>, sender: guid, i: nat,
      n: Node)
    requires Linked(g) && i <= |Visited(g, users)| && 0 <= n < |g.nodes|
    ensures Counted(g, users, userConn, sender, i).nodes[n]
         == if sender in userConn && g.nodes[n].userGuid == sender && Hit(g, users, i, n) then OneMore(g.nodes[n])
            else g.nodes[n]
  {
    hide Linked, Visited, VisitedNode;
    if i > 0 {
      CountedNode(g, users, userConn, sender, i - 1, n);
      VisitedNodeFacts(g, users, i - 1);
      if VisitedNode(g, users, i - 1) == n {
        assert Hit(g, users, i, n);
        forall k | 0 <= k < i - 1
          ensures VisitedNode(g, users, k) != n
        {
          VisitedOnce(g, users, k, i - 1);
        }
      } else {
        assert Hit(g, users, i, n) <==> Hit(g, users, i - 1, n);
      }
    }
  }

  lemma LookupInRange(g: Group, u: guid)
    requires Linked(g) && u in Keys(g)
    ensures 0 <= Lookup(g, u) < |g.nodes| && g.nodes[Lookup(g, u)].userGuid == u && Lookup(g, u) in g.list
  {
  }

  lemma NodeIsEntry(g: Group, users: set<guid>, i: nat)
    requires g.managers.Keys !! g.members.Keys && i < |Visited(g, users)|
    ensures Visited(g, users)[i] in Keys(g) && VisitedNode(g, users, i) == Lookup(g, Visited(g, users)[i])
  {
    VisitedFacts(g, users);
  }

  lemma LogKeepsMembers(g: Group, m: Msg)
    requires GroupSane(g)
    ensures var g1 := AddMsg(g, m);
      g1 == g.(log := g1.log, limit := g1.limit) && GroupSane(g1) && Keys(g1) == Keys(g)
  {
    LogSane(g, m);
  }

  /** The packets that were sent, in order, when `to` are the recipients. */
  ghost predicate SentExactly(s: Server, s': Server, to: seq<guid>, data: seq<byte>) {
    && (forall k :: 0 <= k < |to| ==> to[k] in s.userConn)
    && s'.sent == s.sent + Posted(to, |to|, s.userConn, data)
  }

  /** The group with the message logged and counted, if the sender is connected, at each of the
      sender's nodes that the traversal reaches: two if the sender has two roles. */
  ghost function LoggedAndCounted(s: Server, g: Group, m: Msg): Group {
    AddMsg(g, m).(nodes := seq(|g.nodes|, n requires 0 <= n < |g.nodes| =>
      if m.send in s.userConn && g.nodes[n].userGuid == m.send && NodeReached(g, s.users.Keys, n)
      then OneMore(g.nodes[n]) else g.nodes[n]))
  }

  lemma FanoutCounts(s: Server, g: Group, m: Msg)
    requires GroupSane(g) && Servers.Fits(g, m)
    ensures FanoutGroup(s, g, m) == LoggedAndCounted(s, g, m)
  {
    LogKeepsMembers(g, m);
    hide AddMsg, Visited, Linked, LogCounted, Servers.Fits, Counted, Keys, NodeReached, OneMore, LoggedAndCounted;
    var g1, users := AddMsg(g, m), s.users.Keys;
    var x, y := FanoutGroup(s, g, m), LoggedAndCounted(s, g, m);
    LoggedNodes(s, g, m);
    forall n | 0 <= n < |g.nodes|
      ensures x.nodes[n] == y.nodes[n]
    {
      CountedAll(g1, users, s.userConn, m.send, n);
    }
    assert x.nodes == y.nodes;
  }

  lemma LoggedNodes(s: Server, g: Group, m: Msg)
    ensures var y := LoggedAndCounted(s, g, m);
      y == AddMsg(g, m).(nodes := y.nodes) && |y.nodes| == |g.nodes|
      && forall n :: 0 <= n < |g.nodes| ==>
        y.nodes[n]
        == if m.send in s.userConn && g.nodes[n].userGuid == m.send && NodeReached(AddMsg(g, m), s.users.Keys, n)
           then OneMore(g.nodes[n]) else g.nodes[n]
  {
  }

  lemma CountedAll(g: Group, users: set<guid>, userConn: map<guid, int>, sender: guid, n: Node)
    requires Linked(g) && 0 <= n < |g.nodes|
    ensures Counted(g, users, userConn, sender, |Visited(g, users)|).nodes[n]
         == if sender in userConn && g.nodes[n].userGuid == sender && NodeReached(g, users, n)
            then OneMore(g.nodes[n]) else g.nodes[n]
  {
    hide Linked, Visited, Counted, NodeReached, Hit, OneMore;
    CountedNode(g, users, userConn, sender, |Visited(g, users)|, n);
    HitIsReached(g, users, n);
  }

  /** How many times a traversal of all members comes to `u`: once for each index that holds it and has
      no unregistered guid up to it. */
  ghost function Visits(g: Group, users: set<guid>, u: guid): nat {
    (if Precedes(g.managers, users, u) then 1 else 0) + if Precedes(g.members, users, u) then 1 else 0
  }

  /** The connected members a traversal of `g` reaches, each as often as it is visited: once if nobody
      has two roles. */
  ghost predicate Audience(to: seq<guid>, g: Group, users: set<guid>, userConn: map<guid, int>) {
    && (forall u :: u in to <==> Reachable(g, users, u) && u in userConn)
    && (forall u :: multiset(to)[u] == if u in userConn then Visits(g, users, u) else 0)
    && (g.managers.Keys !! g.members.Keys ==> Distinct(to))
  }

  lemma AudienceDistinct(to: seq<guid>, g: Group, users: set<guid>, userConn: map<guid, int>)
    requires Audience(to, g, users, userConn) && g.managers.Keys !! g.members.Keys
    ensures Distinct(to)
  {
  }

  lemma {:induction false} OccursOnce(a: seq<guid>, u: guid)
    requires Distinct(a)
    ensures multiset(a)[u] == if u in a then 1 else 0
  {
    if a != [] {
      var rest, last := a[..|a| - 1], a[|a| - 1];
      assert a == rest + [last];
      OccursOnce(rest, u);
    }
  }

  lemma {:induction false} ConnectedOccur(keys: seq<guid>, i: nat, userConn: map<guid, int>, u: guid)
    requires i <= |keys|
    ensures multiset(Connected(keys, i, userConn))[u] == if u in userConn then multiset(keys[..i])[u] else 0
  {
    hide Connected;
    ConnectedStep(keys, i, userConn);
    if i > 0 {
      ConnectedOccur(keys, i - 1, userConn, u);
      assert keys[..i] == keys[..i - 1] + [keys[i - 1]];
      OneMoreOccurs(keys[..i - 1], keys[i - 1], u);
      OneMoreOccurs(Connected(keys, i - 1, userConn), keys[i - 1], u);
    }
  }

  lemma ConnectedStep(keys: seq<guid>, i: nat, userConn: map<guid, int>)
    requires i <= |keys|
    ensures Connected(keys, i, userConn) == if i == 0 then []
      else Connected(keys, i - 1, userConn) + if keys[i - 1] in userConn then [keys[i - 1]] else []
  {
  }

  lemma OneMoreOccurs(s: seq<guid>, x: guid, u: guid)
    ensures multiset(s + [x])[u] == multiset(s)[u] + if x == u then 1 else 0
    ensures s + [] == s
  {
  }

  lemma VisitsOccur(g: Group, users: set<guid>, u: guid)
    ensures multiset(Visited(g, users))[u] == Visits(g, users, u)
  {
    ReachedExactly(g.managers, users);
    ReachedExactly(g.members, users);
    ReachedFacts(g.managers, users);
    ReachedFacts(g.members, users);
    hide ReachedOf, Precedes;
    OccursOnce(ReachedOf(g.managers, users), u);
    OccursOnce(ReachedOf(g.members, users), u);
  }

  /** Exact fan-out: the accepted message is logged and sent to every connected member the traversal
      reaches, which is every connected member if all members are registered, once for each visit, and to
      nobody else; and the only counters that change are the sender's, by one at each node visited. */
  lemma ExactFanout(s: Server, g: Group, m: Msg, now: int) returns (to: seq<guid>)
    requires GroupSane(g) && Servers.Fits(g, m)
    ensures Audience(to, g, s.users.Keys, s.userConn)
    ensures AllRegistered(g, s.users.Keys) ==> forall u :: u in to <==> u in Keys(g) && u in s.userConn
    ensures SentExactly(s, Fanout(s, g, m, now), to, Frame(m.send, CLIENT_MSG_SEND, EncodeMsg(Stored(g, m))))
    ensures Fanout(s, g, m, now).groups == s.groups[g.id := LoggedAndCounted(s, g, m)]
  {
    FanoutCounts(s, g, m);
    to := Recipients(s, g, m);
    VisitsReachable(g, s.users.Keys);
    hide Reachable, AllRegistered, Keys;
    hide Frame, EncodeMsg, Visited, Linked, LogCounted, Stored, FanoutGroup, FanoutSends, LoggedAndCounted, FanoutUsers;
  }

  lemma Recipients(s: Server, g: Group, m: Msg) returns (to: seq<guid>)
    requires Servers.Fits(g, m)
    ensures Audience(to, g, s.users.Keys, s.userConn)
    ensures forall k :: 0 <= k < |to| ==> to[k] in s.userConn
    ensures FanoutSends(s, g, m)
      == Posted(to, |to|, s.userConn, Frame(m.send, CLIENT_MSG_SEND, EncodeMsg(Stored(g, m))))
  {
    to := AudienceOf(g, s.users.Keys, s.userConn);
    hide Frame, EncodeMsg, Visited, Stored, Keys, Audience, Connected, Deliver, Posted;
    var keys := Visited(g, s.users.Keys);
    DeliverIsPosted(keys, |keys|, s.userConn, Frame(m.send, CLIENT_MSG_SEND, EncodeMsg(Stored(g, m))));
  }

  // ---------------------------------------------------------------- group information

  lemma {:induction false} DeliverIgnoresFd(keys: seq<guid>, i: nat, userConn: map<guid, int>, fd: int, data: seq<byte>)
    requires i <= |keys|
    ensures Deliver(keys, i, userConn, false, fd, data) == Deliver(keys, i, userConn, false, 0, data)
  {
    if i > 0 {
      DeliverIgnoresFd(keys, i - 1, userConn, fd, data);
    }
  }

  /** `n` times the same packet to the same socket. */
  function Copies(m: Send, n: nat): (c: seq<Send>)
    ensures |c| == n && forall k :: 0 <= k < n ==> c[k] == m
  {
    if n == 0 then [] else Copies(m, n - 1) + [m]
  }

  lemma {:induction false} DeliverIsCopies(keys: seq<guid>, i: nat, userConn: map<guid, int>, fd: int, data: seq<byte>)
    requires i <= |keys|
    ensures Deliver(keys, i, userConn, true, fd, data) == Copies(Send(fd, data), |Connected(keys, i, userConn)|)
  {
    if i > 0 {
      DeliverIsCopies(keys, i - 1, userConn, fd, data);
    }
  }

  lemma AudienceOf(g: Group, users: set<guid>, userConn: map<guid, int>) returns (to: seq<guid>)
    ensures to == Connected(Visited(g, users), |Visited(g, users)|, userConn) && Audience(to, g, users, userConn)
  {
    var keys := Visited(g, users);
    VisitsReachable(g, users);
    hide Visited, Reachable, Connected, Visits;
    ConnectedFacts(keys, |keys|, userConn);
    assert keys[..|keys|] == keys;
    to := Connected(keys, |keys|, userConn);
    forall u
      ensures multiset(to)[u] == if u in userConn then Visits(g, users, u) else 0
    {
      ConnectedOccur(keys, |keys|, userConn, u);
      VisitsOccur(g, users, u);
    }
  }

  /** A broadcast to the members' own sockets. */
  lemma BroadcastToMembers(s: Server, g: Group, fd: int) returns (to: seq<guid>)
    requires GroupSane(g) && GroupLength(g) <= PAYLOAD_MAX
    ensures Audience(to, g, s.users.Keys, s.userConn) && forall k :: 0 <= k < |to| ==> to[k] in s.userConn
    ensures Broadcast(s, g, false, fd).sent == s.sent + Posted(to, |to|, s.userConn, InfoPacket(g))
  {
    to := AudienceOf(g, s.users.Keys, s.userConn);
    hide Linked, GroupLength, Visited, Reachable, Connected, Deliver, Posted, LogCounted, InfoPacket;
    var keys := Visited(g, s.users.Keys);
    DeliverIsPosted(keys, |keys|, s.userConn, InfoPacket(g));
    DeliverIgnoresFd(keys, |keys|, s.userConn, fd, InfoPacket(g));
  }

  /** A broadcast to the requester's socket. */
  lemma BroadcastToRequester(s: Server, g: Group, fd: int) returns (to: seq<guid>)
    requires GroupSane(g) && GroupLength(g) <= PAYLOAD_MAX
    ensures Audience(to, g, s.users.Keys, s.userConn)
    ensures Broadcast(s, g, true, fd).sent == s.sent + Copies(Send(fd, InfoPacket(g)), |to|)
  {
    to := AudienceOf(g, s.users.Keys, s.userConn);
    hide Linked, GroupLength, Visited, Reachable, Connected, Deliver, Copies, LogCounted, InfoPacket;
    var keys := Visited(g, s.users.Keys);
    DeliverIsCopies(keys, |keys|, s.userConn, fd, InfoPacket(g));
  }

  // ---------------------------------------------------------------- dispatch

  lemma DispatchedGroup(s: Server, now: int, id: guid)
    requires Defined(s, EDispatch(now)) && id in s.groups
    ensures var m := s.queue[0];
      id in Dispatch(s, now).groups && Dispatch(s, now).groups[id]
      == if m.recv == id && !Blocked(Entry(s.groups[id], m.send)) then FanoutGroup(s, s.groups[id], m) else s.groups[id]
  {
    hide FanoutGroup, FanoutUsers, FanoutSends, Linked, LogCounted, Ack, Blocked;
  }
}
