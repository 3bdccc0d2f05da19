/** How many messages a limited member may send, over runs of any requests. */
module Quotas {
  import opened Bytes
  import opened Packets
  import opened Groups
  import opened GroupRuns
  import opened Users
  import opened Servers
  import opened ServerRuns
  import opened Membership
  import opened Fanouts
  import opened Rosters

  /** The number the code compares a limited member's counter with. */
  function LimitOf(permissions: u8): nat { if permissions == LIMIT_10 then 10 else 50 }

  /** Member `u` of group `id` is limited. */
  ghost predicate Limited(s: Server, id: guid, u: guid, permissions: u8) {
    && Sane(s) && id in s.groups && permissions in {LIMIT_10, LIMIT_50}
    && u in Keys(s.groups[id]) && Entry(s.groups[id], u).permissions == permissions
  }

  /** The state has an entry for member `u` of group `id`. */
  ghost predicate Tracked(s: Server, id: guid, u: guid) {
    id in s.groups && Linked(s.groups[id]) && u in Keys(s.groups[id])
  }

  ghost function SentCount(s: Server, id: guid, u: guid): int {
    if Tracked(s, id, u) then Entry(s.groups[id], u).msgCount else 0
  }

  /** The front message is from member `u` to group `id`. */
  ghost predicate Tried(s: Server, e: Event, id: guid, u: guid) {
    e.EDispatch? && s.queue != [] && s.queue[0].recv == id && s.queue[0].send == u && Tracked(s, id, u)
  }

  /** ... and passes the limit. */
  ghost predicate Accepted(s: Server, e: Event, id: guid, u: guid) {
    Tried(s, e, id, u) && !Blocked(Entry(s.groups[id], u))
  }

  /** The traversal reaches the entry of `u`: a member with two roles has the entry of an ordinary one. */
  ghost predicate Reached(g: Group, users: set<guid>, u: guid) {
    if u in g.members then Precedes(g.members, users, u) else Precedes(g.managers, users, u)
  }

  lemma ReachedEntry(g: Group, users: set<guid>, u: guid)
    requires Linked(g) && u in Keys(g)
    ensures 0 <= Lookup(g, u) < |g.nodes| && g.nodes[Lookup(g, u)].userGuid == u
    ensures NodeReached(g, users, Lookup(g, u)) <==> Reached(g, users, u)
  {
  }

  lemma ReachedIsReachable(g: Group, users: set<guid>, u: guid)
    ensures Reached(g, users, u) ==> Reachable(g, users, u)
  {
  }

  /** The sender is connected and within reach of the traversal, and its packet fits in the buffer. */
  ghost predicate IsCounted(s: Server, id: guid, u: guid) {
    && u in s.userConn && id in s.groups && Reached(s.groups[id], s.users.Keys, u)
    && s.queue != [] && Servers.Fits(s.groups[id], s.queue[0])
  }

  /** A new group replaces group `id`. */
  predicate Refounds(s: Server, e: Event, id: guid) {
    e.EGroupAdd? && e.info.id == id && Creates(s, e.info)
  }

  /** What must hold at a step for the counter of `u` to follow its messages. */
  ghost predicate Followed(s: Server, e: Event, id: guid, u: guid)
    requires Defined(s, e)
  {
    && (Accepted(s, e, id, u) ==> IsCounted(s, id, u))
    && (Refounds(s, e, id) ==> Reached(e.info, s.users.Keys, u))
  }

  /** What delivering an accepted message does to a member's counter: it goes up exactly when the
      member is the sender, connected and within reach, and the packet fits. */
  lemma CountAfterFanout(s: Server, g: Group, m: Msg, u: guid)
    requires GroupSane(g) && u in Keys(g)
    ensures var g' := FanoutGroup(s, g, m);
      Linked(g') && u in Keys(g')
      && Entry(g', u).msgCount
        == if m.send == u && u in s.userConn && Reached(g, s.users.Keys, u) && Servers.Fits(g, m)
           then (Entry(g, u).msgCount + 1) % 0x1_0000 else Entry(g, u).msgCount
  {
    FanoutGroupSane(s, g, m);
    EntryAfterLog(g, m, u);
    ReachedEntry(g, s.users.Keys, u);
    hide LogCounted, Linked, Counted, Visited, Reached, AddMsg, Servers.Fits, NodeReached;
    if Servers.Fits(g, m) {
      FanoutCounts(s, g, m);
    }
  }

  lemma EntryAfterLog(g: Group, m: Msg, u: guid)
    requires GroupSane(g) && u in Keys(g)
    ensures var g1 := AddMsg(g, m);
      Linked(g1) && g1.managers == g.managers && g1.members == g.members && Entry(g1, u) == Entry(g, u)
  {
    LogKeepsMembers(g, m);
  }

  /** A limited member's message passes exactly when the counter is at most the limit, and then
      counting it does not wrap. */
  lemma PassesLimit(g: Group, u: guid, permissions: u8)
    requires Linked(g) && u in Keys(g) && Entry(g, u).permissions == permissions && permissions in {LIMIT_10, LIMIT_50}
    ensures !Blocked(Entry(g, u)) <==> Entry(g, u).msgCount <= LimitOf(permissions)
    ensures !Blocked(Entry(g, u)) ==> (Entry(g, u).msgCount + 1) % 0x1_0000 == Entry(g, u).msgCount + 1
  {
    hide Linked;
  }

  // ---------------------------------------------------------------- the other requests

  /** Whatever happened to the group, a member that is limited afterwards has the count it had. */
  ghost predicate CountKept(g: Group, g': Group, u: guid)
    requires Linked(g) && u in Keys(g)
  {
    Linked(g') && u in Keys(g') && Entry(g', u).permissions in {LIMIT_10, LIMIT_50}
    ==> Entry(g', u).msgCount == Entry(g, u).msgCount
  }

  lemma CountAfterAdd(g: Group, o: guid, t: guid, icon: guid, name: Name, u: guid)
    requires Linked(g) && u in Keys(g)
    ensures CountKept(g, AddMember(g, o, t, icon, name), u)
  {
    hide Groups.Count, Inc32;
  }

  lemma CountAfterDelete(g: Group, o: guid, t: guid, u: guid)
    requires Linked(g) && u in Keys(g)
    ensures CountKept(g, DeleteMember(g, o, t), u)
  {
    hide Groups.Count, Dec32, Without;
  }

  lemma CountAfterMove(g: Group, o: guid, t: guid, p: u8, u: guid)
    requires Linked(g) && u in Keys(g)
    ensures CountKept(g, AddManager(g, o, t), u) && CountKept(g, DeleteManager(g, o, t), u)
    ensures CountKept(g, ChangePermissions(g, o, t, p), u)
  {
    hide Groups.Count;
  }

  lemma CountAfterOp(g: Group, op: Op, u: guid)
    requires Linked(g) && u in Keys(g)
    requires !op.OpAddMsg? && !op.OpDeleteMsg? && !op.OpClearMsg?
    ensures CountKept(g, Groups.Apply(g, op), u)
  {
    hide AddMember, DeleteMember, AddManager, DeleteManager, ChangePermissions, CountKept, Linked;
    match op
    case OpAdd(o, t, icon, name) => CountAfterAdd(g, o, t, icon, name, u);
    case OpDelete(o, t) => CountAfterDelete(g, o, t, u);
    case OpPromote(o, t) => CountAfterMove(g, o, t, 0, u);
    case OpDemote(o, t) => CountAfterMove(g, o, t, 0, u);
    case OpChange(o, t, p) => CountAfterMove(g, o, t, p, u);
  }

  lemma KeptAfterAdd(s: Server, w: User, now: int, fd: int, id: guid, u: guid)
    requires Defined(s, EAcountAdd(w, now, fd)) && id in s.groups && u in Keys(s.groups[id])
    ensures id in AcountAdd(s, w, now, fd).groups && Linked(s.groups[id])
    ensures CountKept(s.groups[id], AcountAdd(s, w, now, fd).groups[id], u)
  {
    assert GroupSane(s.groups[id]);
    hide Out, Broadcast, AddMember, Linked, LogCounted, CountKept, Inc32, GroupSane;
    KeptItself(s.groups[id], u);
    if PhoneUnique(s, w.phone) == ERROR_OK {
      var v := Registrant(s, w).(regTime := now, online := STATUS_ON_LINE);
      var was := s.groups[ROOM];
      var room := was.(leader := if |s.users[v.id := v]| == 1 then v.id else was.leader);
      if id == ROOM {
        NewLeaderKeeps(was, room, v, u);
      }
    }
  }

  lemma NewLeaderKeeps(was: Group, room: Group, v: User, u: guid)
    requires Linked(was) && u in Keys(was) && room == was.(leader := room.leader)
    ensures CountKept(was, AddMember(room, 0, v.id, v.icon, v.name), u)
  {
    hide AddMember, Groups.Count;
    CountAfterAdd(room, 0, v.id, v.icon, v.name, u);
  }

  lemma KeptItself(g: Group, u: guid)
    requires Linked(g) && u in Keys(g)
    ensures CountKept(g, g, u)
  {
  }

  /** Members have only gone, and those that stayed have the counts they had. */
  ghost predicate Shrunk(g: Group, g': Group) {
    && Linked(g) && Linked(g') && Keys(g') <= Keys(g)
    && forall u <- Keys(g') :: Entry(g', u).msgCount == Entry(g, u).msgCount
  }

  lemma DeleteShrinks(g: Group, o: guid, t: guid)
    requires Linked(g)
    ensures Shrunk(g, DeleteMember(g, o, t)) && Shrunk(g, DeleteManager(g, o, t))
  {
    LinkedDelete(g, o, t);
    LinkedMove(g, o, t);
    hide Groups.Count, Dec32, Without, Points;
    forall u <- Keys(g)
      ensures 0 <= Lookup(g, u) < |g.nodes|
    {
      LookupInRange(g, u);
    }
    hide Linked;
  }

  lemma ExpelShrinksTo(g: Group, v: guid)
    requires GroupSane(g)
    ensures Shrunk(g, Expel(g, v)) && Shrunk(g, ExpelFromRoom(g, v))
  {
    LinkedMove(g, g.leader, v);
    hide DeleteMember, DeleteManager, Linked, LogCounted, Entry;
    DeleteShrinks(g, g.leader, v);
    DeleteShrinks(DeleteManager(g, g.leader, v), g.leader, v);
  }

  /** One group after the loop over the joined groups. */
  lemma UnregisteredShrinks(s: Server, v: guid, id: guid)
    requires Sane(s) && id in s.groups
    ensures id in Unregister(s, v).groups && GroupSane(Unregister(s, v).groups[id])
    ensures Shrunk(s.groups[id], Unregister(s, v).groups[id])
  {
    assert GroupSane(s.groups[id]);
    hide Expel, Linked, LogCounted, Shrunk, UsersSane, GroupSane;
    UnregisterSane(s, v);
    ExpelShrinksTo(s.groups[id], v);
    assert Shrunk(s.groups[id], s.groups[id]) by { SaneLinked(s.groups[id]); ShrunkItself(s.groups[id]); }
    assert Unregister(s, v).groups[id] in {s.groups[id], Expel(s.groups[id], v)};
  }

  lemma SaneLinked(g: Group)
    requires GroupSane(g)
    ensures Linked(g)
  {
  }

  lemma KeptAfterDelete(s: Server, v: guid, fd: int, id: guid, u: guid)
    requires Defined(s, EAcountDelete(v, fd)) && id in s.groups && u in Keys(s.groups[id])
    ensures id in AcountDelete(s, v, fd).groups && Linked(s.groups[id])
    ensures CountKept(s.groups[id], AcountDelete(s, v, fd).groups[id], u)
  {
    assert GroupSane(s.groups[id]);
    hide AcountDelete, Unregister, Expel, ExpelFromRoom, Linked, LogCounted, CountKept, Shrunk, UsersSane;
    var s0 := s.(connUser := Bracket(s.connUser, fd));
    KeptItself(s.groups[id], u);
    DeletedGroups(s, v, fd);
    UnregisteredShrinks(s0, v, id);
    var x, y := s.groups[id], Unregister(s0, v).groups[id];
    ShrunkKeeps(x, y, u);
    ShrunkTwice(x, y, v, u);
  }

  lemma ShrunkItself(g: Group)
    requires Linked(g)
    ensures Shrunk(g, g)
  {
  }

  lemma ShrunkKeeps(g: Group, g': Group, u: guid)
    requires Shrunk(g, g') && u in Keys(g)
    ensures CountKept(g, g', u)
  {
  }

  lemma ShrunkTwice(g: Group, g': Group, v: guid, u: guid)
    requires Shrunk(g, g') && GroupSane(g') && u in Keys(g)
    ensures CountKept(g, ExpelFromRoom(g', v), u)
  {
    ExpelShrinksTo(g', v);
    hide ExpelFromRoom;
  }

  /** Nobody whom the traversal of a new group reaches is limited. */
  lemma NewGroupUnlimited(g: Group, users: map<guid, User>, u: guid)
    requires GroupSane(g) && Reached(g, users.Keys, u)
    ensures u in Keys(g)
    ensures var g' := Enroll(g, users, |Visited(g, users.Keys)|);
      Linked(g') && Entry(g', u).permissions == SEND_TO_GROUP
  {
    var i := |Visited(g, users.Keys)|;
    EnrollSane(g, users, i);
    ReachedEntry(g, users.Keys, u);
    HitIsReached(g, users.Keys, Lookup(g, u));
    hide Visited, VisitedNode, Enroll, Points, LogCounted, Reached, Hit;
    EnrolledPermission(g, users, i, Lookup(g, u));
  }

  lemma CreatedGroups(s: Server, info: Group, now: int, fd: int)
    requires Sane(s) && GroupSane(info)
    ensures GroupAdd(s, info, now, fd).users.Keys == s.users.Keys
    ensures GroupAdd(s, info, now, fd).groups
      == if Creates(s, info) then s.groups[info.id := Enroll(info, s.users, |Visited(info, s.users.Keys)|)]
         else s.groups
  {
    hide Ack, Visited, Enroll, Linked, LogCounted, GroupsSane, UsersSane;
  }

  lemma KeptAfterCreate(s: Server, info: Group, now: int, fd: int, id: guid, u: guid)
    requires Sane(s) && GroupSane(info) && id in s.groups && u in Keys(s.groups[id])
    requires Creates(s, info) && info.id == id ==> Reached(info, s.users.Keys, u)
    ensures Linked(s.groups[id]) && id in GroupAdd(s, info, now, fd).groups
    ensures CountKept(s.groups[id], GroupAdd(s, info, now, fd).groups[id], u)
  {
    assert GroupSane(s.groups[id]);
    CreatedGroups(s, info, now, fd);
    hide GroupAdd, Visited, Enroll, Points, Apart, Distinct, LogCounted, CountKept, GroupsSane, UsersSane;
    hide Creates, Reached;
    if Creates(s, info) && info.id == id {
      UnlimitedKeeps(s.groups[id], info, s.users, u);
    } else {
      KeptItself(s.groups[id], u);
    }
  }

  lemma UnlimitedKeeps(was: Group, g: Group, users: map<guid, User>, u: guid)
    requires Linked(was) && u in Keys(was) && GroupSane(g) && Reached(g, users.Keys, u)
    ensures CountKept(was, Enroll(g, users, |Visited(g, users.Keys)|), u)
  {
    hide Visited, Linked, LogCounted, Reached;
    NewGroupUnlimited(g, users, u);
  }

  lemma KeptAfterModify(s: Server, g: guid, o: guid, t: guid, k: u8, p: u8, now: int, fd: int, id: guid, u: guid)
    requires Defined(s, EGroupModify(g, o, t, k, p, now, fd)) && id in s.groups && u in Keys(s.groups[id])
    ensures var s' := GroupModify(s, g, o, t, k, p, now, fd);
      id in s'.groups && Linked(s.groups[id]) && CountKept(s.groups[id], s'.groups[id], u)
  {
    ModifyIsOp(s, g, o, t, k, p, now, fd);
    assert GroupSane(s.groups[id]);
    hide GroupModify, Groups.Apply, Linked, LogCounted, CountKept;
    KeptItself(s.groups[id], u);
    if g == id && t in s.users {
      CountAfterOp(s.groups[id], OpOf(s, o, t, k, p), u);
    }
  }

  lemma KeptAfterErase(s: Server, g: guid, o: guid, fd: int, id: guid, u: guid)
    requires id in s.groups && Linked(s.groups[id]) && u in Keys(s.groups[id])
    ensures id in GroupDelete(s, g, o, fd).groups ==> CountKept(s.groups[id], GroupDelete(s, g, o, fd).groups[id], u)
  {
    hide Ack, Visited, Linked, CountKept;
    KeptItself(s.groups[id], u);
  }

  lemma GroupsKept(s: Server, e: Event)
    requires Defined(s, e)
    requires !e.EDispatch? && !e.EAcountAdd? && !e.EAcountDelete? && !e.EGroupAdd? && !e.EGroupModify?
      && !e.EGroupDelete?
    ensures Handle(s, e).groups == s.groups
  {
    hide AcountModify, AcountLogin, AcountLogout, Close, MsgSend, MsgListReq, GroupInfoReq, BriefInfoReq, Ack;
    hide GroupsSane;
  }

  lemma SaneAt(s: Server, id: guid)
    requires Sane(s) && id in s.groups
    ensures GroupSane(s.groups[id]) && Linked(s.groups[id])
  {
  }

  /** Every request but dispatching leaves a limited member's count alone. */
  lemma CountKeptStep(s: Server, e: Event, id: guid, u: guid)
    requires Defined(s, e) && !e.EDispatch? && id in s.groups && id in Handle(s, e).groups && u in Keys(s.groups[id])
    requires Refounds(s, e, id) ==> Reached(e.info, s.users.Keys, u)
    ensures Linked(s.groups[id]) && CountKept(s.groups[id], Handle(s, e).groups[id], u)
  {
    hide AcountAdd, AcountModify, AcountDelete, AcountLogin, AcountLogout, Close, GroupAdd, GroupModify, GroupDelete;
    hide MsgSend, MsgListReq, GroupInfoReq, BriefInfoReq, Dispatch, Ack, Linked, LogCounted, CountKept, GroupsSane;
    hide UsersSane, Reached, Creates, Keys, GroupSane;
    SaneAt(s, id);
    match e
    case EAcountAdd(w, now, fd) => KeptAfterAdd(s, w, now, fd, id, u);
    case EAcountDelete(v, fd) => KeptAfterDelete(s, v, fd, id, u);
    case EGroupAdd(info, now, fd) => KeptAfterCreate(s, info, now, fd, id, u);
    case EGroupModify(g, o, t, k, p, now, fd) => KeptAfterModify(s, g, o, t, k, p, now, fd, id, u);
    case EGroupDelete(g, o, fd) => KeptAfterErase(s, g, o, fd, id, u);
    case EDispatch(_) =>
    case _ =>
      GroupsKept(s, e);
      KeptItself(s.groups[id], u);
  }

  /** A turn of the dispatch loop, for one group. */
  lemma EntryAfterDispatch(s: Server, now: int, id: guid, u: guid)
    requires Defined(s, EDispatch(now)) && id in s.groups && GroupSane(s.groups[id]) && u in Keys(s.groups[id])
    ensures id in Dispatch(s, now).groups
    ensures var g, g', m := s.groups[id], Dispatch(s, now).groups[id], s.queue[0];
      Linked(g') && u in Keys(g')
      && Entry(g', u).msgCount
        == if m.recv == id && m.send == u && !Blocked(Entry(g, u)) && IsCounted(s, id, u)
           then (Entry(g, u).msgCount + 1) % 0x1_0000 else Entry(g, u).msgCount
  {
    hide Defined, Linked, Dispatch, FanoutGroup, GroupSane, Reached, Servers.Fits, Blocked, GroupsSane;
    hide UsersSane, Keys, LogCounted;
    DispatchedGroup(s, now, id);
    DispatchFacts(s, now);
    SaneLinked(s.groups[id]);
    var m, g := s.queue[0], s.groups[id];
    if m.recv == id {
      CountAfterFanout(s, g, m, u);
    }
    hide Entry;
  }

  lemma DispatchFacts(s: Server, now: int)
    requires Defined(s, EDispatch(now))
    ensures s.queue != [] && (s.queue[0].recv in s.groups ==> s.queue[0].send in Keys(s.groups[s.queue[0].recv]))
  {
    hide Sane, Keys;
  }

  lemma CountAfterDispatch(s: Server, e: Event, id: guid, u: guid)
    requires Defined(s, e) && e.EDispatch? && id in s.groups && Tracked(s, id, u)
    ensures SentCount(Handle(s, e), id, u)
      == if Accepted(s, e, id, u) && IsCounted(s, id, u) then (SentCount(s, id, u) + 1) % 0x1_0000
         else SentCount(s, id, u)
  {
    hide Dispatch, GroupSane, IsCounted, Blocked, GroupsSane, UsersSane, Keys, Linked, Entry;
    SaneAt(s, id);
    EntryAfterDispatch(s, e.now, id, u);
  }

  /** Accepting a message of a member counts it exactly when the member is connected and within reach
      of the traversal and the packet fits; otherwise the member may go on sending for ever. */
  lemma AcceptedIsCounted(s: Server, e: Event, id: guid, u: guid)
    requires Defined(s, e) && id in s.groups && Accepted(s, e, id, u)
    ensures SentCount(Handle(s, e), id, u) == if IsCounted(s, id, u) then (SentCount(s, id, u) + 1) % 0x1_0000
      else SentCount(s, id, u)
    ensures SentCount(Handle(s, e), id, u) != SentCount(s, id, u) <==> IsCounted(s, id, u)
  {
    CountAfterDispatch(s, e, id, u);
    CountMoves(s, id, u);
    hide Handle, Defined, IsCounted, SentCount;
  }

  lemma CountMoves(s: Server, id: guid, u: guid)
    ensures 0 <= SentCount(s, id, u) < 0x1_0000 && (SentCount(s, id, u) + 1) % 0x1_0000 != SentCount(s, id, u)
  {
    hide Linked;
  }

  /** The count of a tracked member is that of its entry. */
  lemma CountOfEntry(s: Server, id: guid, u: guid)
    requires Sane(s) && id in s.groups && u in Keys(s.groups[id])
    ensures Tracked(s, id, u) && SentCount(s, id, u) == Entry(s.groups[id], u).msgCount
  {
    SaneAt(s, id);
    hide Linked;
  }

  lemma CountStep(s: Server, e: Event, id: guid, u: guid, permissions: u8)
    requires Defined(s, e) && Limited(s, id, u, permissions) && Followed(s, e, id, u)
    requires Limited(Handle(s, e), id, u, permissions)
    ensures SentCount(Handle(s, e), id, u) == SentCount(s, id, u) + if Accepted(s, e, id, u) then 1 else 0
    ensures Accepted(s, e, id, u) <==> Tried(s, e, id, u) && SentCount(s, id, u) <= LimitOf(permissions)
  {
    hide Handle, Defined, Blocked, Entry, Linked, IsCounted, LimitOf, Sane, SentCount, Keys, Refounds, Reached;
    SaneAt(s, id);
    PassesLimit(s.groups[id], u, permissions);
    CountOfEntry(s, id, u);
    if e.EDispatch? {
      CountAfterDispatch(s, e, id, u);
    } else {
      CountOfEntry(Handle(s, e), id, u);
      SaneAt(Handle(s, e), id);
      CountKeptStep(s, e, id, u);
    }
  }

  /** How many of the first `n` steps dispatch a message from `u` to group `id`, and accept one. */
  ghost function TriedCount(ss: seq<Server>, es: seq<Event>, id: guid, u: guid, n: nat): nat
    requires n <= |es| && n <= |ss|
  {
    if n == 0 then 0 else TriedCount(ss, es, id, u, n - 1) + if Tried(ss[n - 1], es[n - 1], id, u) then 1 else 0
  }

  ghost function AcceptedCount(ss: seq<Server>, es: seq<Event>, id: guid, u: guid, n: nat): nat
    requires n <= |es| && n <= |ss|
  {
    if n == 0 then 0 else AcceptedCount(ss, es, id, u, n - 1) + if Accepted(ss[n - 1], es[n - 1], id, u) then 1 else 0
  }

  /** How many messages a counter lets through: 11 or 51 from 0, not 10 or 50. */
  function Allowance(first: int, limit: nat): nat { if first <= limit then limit + 1 - first else 0 }

  function Min(a: nat, b: nat): nat { if a < b then a else b }

  /** Quota, exactly: while `u` stays limited and its counter follows it, its counter goes up by the
      number of its messages that are accepted, and these are all of them until `limit + 1` minus the
      counter's first value have been accepted, and none after that. */
  lemma {:induction false} QuotaRun(ss: seq<Server>, es: seq<Event>, id: guid, u: guid, permissions: u8, n: nat)
    requires IsRun(ss, es) && n <= |es|
    requires forall i :: 0 <= i <= n ==> Limited(ss[i], id, u, permissions)
    requires forall i :: 0 <= i < n ==> Followed(ss[i], es[i], id, u)
    ensures SentCount(ss[n], id, u) == SentCount(ss[0], id, u) + AcceptedCount(ss, es, id, u, n)
    ensures AcceptedCount(ss, es, id, u, n)
      == Min(TriedCount(ss, es, id, u, n), Allowance(SentCount(ss[0], id, u), LimitOf(permissions)))
  {
    hide Handle, Defined, Limited, Accepted, Tried, SentCount, Followed, LimitOf;
    CountMoves(ss[0], id, u);
    if n > 0 {
      QuotaRun(ss, es, id, u, permissions, n - 1);
      var i := n - 1;
      assert Defined(ss[i], es[i]) && ss[i + 1] == Handle(ss[i], es[i]) && Followed(ss[i], es[i], id, u);
      CountStep(ss[i], es[i], id, u, permissions);
    }
  }

  /** No quota at all: while `u` stays limited and none of its messages is counted, every one of them
      is accepted, however many there are. */
  lemma {:induction false} UncountedRun(ss: seq<Server>, es: seq<Event>, id: guid, u: guid, permissions: u8, n: nat)
    requires IsRun(ss, es) && n <= |es| && SentCount(ss[0], id, u) <= LimitOf(permissions)
    requires forall i :: 0 <= i <= n ==> Limited(ss[i], id, u, permissions)
    requires forall i :: 0 <= i < n && Tried(ss[i], es[i], id, u) ==> !IsCounted(ss[i], id, u)
    requires forall i :: 0 <= i < n && Refounds(ss[i], es[i], id) ==> Reached(es[i].info, ss[i].users.Keys, u)
    ensures SentCount(ss[n], id, u) == SentCount(ss[0], id, u)
    ensures AcceptedCount(ss, es, id, u, n) == TriedCount(ss, es, id, u, n)
  {
    hide Handle, Defined, Limited, Accepted, Tried, SentCount, Refounds, Reached, IsCounted, LimitOf;
    if n > 0 {
      UncountedRun(ss, es, id, u, permissions, n - 1);
      var i := n - 1;
      assert Defined(ss[i], es[i]) && ss[i + 1] == Handle(ss[i], es[i]) && Limited(ss[i + 1], id, u, permissions);
      UncountedStep(ss[i], es[i], id, u, permissions);
    }
  }

  lemma UncountedStep(s: Server, e: Event, id: guid, u: guid, permissions: u8)
    requires Defined(s, e) && Limited(s, id, u, permissions) && Limited(Handle(s, e), id, u, permissions)
    requires Tried(s, e, id, u) ==> !IsCounted(s, id, u)
    requires Refounds(s, e, id) ==> Reached(e.info, s.users.Keys, u)
    ensures SentCount(Handle(s, e), id, u) == SentCount(s, id, u)
    ensures SentCount(s, id, u) <= LimitOf(permissions) ==> (Accepted(s, e, id, u) <==> Tried(s, e, id, u))
  {
    hide Handle, Defined, Blocked, Entry, Linked, IsCounted, LimitOf, Sane, SentCount, Keys, Refounds, Reached;
    SaneAt(s, id);
    PassesLimit(s.groups[id], u, permissions);
    CountOfEntry(s, id, u);
    if e.EDispatch? {
      CountAfterDispatch(s, e, id, u);
    } else {
      CountOfEntry(Handle(s, e), id, u);
      SaneAt(Handle(s, e), id);
      CountKeptStep(s, e, id, u);
    }
  }
}
