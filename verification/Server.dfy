/** The server's state and what each request does to it. The clock is a parameter, `std::hash` is
    any function, and `sent` records every `send` in order. */
module Servers {
  import opened Bytes
  import opened Packets
  import opened Groups
  import opened GroupCodec
  import opened GroupRuns
  import opened MsgListAck
  import opened Users
  import opened Sorted

  datatype Send = Send(fd: int, data: seq<byte>)

  datatype Server = Server(
    users: map<guid, User>,
    groups: map<guid, Group>,
    phones: map<int, guid>,
    connUser: map<int, guid>,
    userConn: map<guid, int>,
    queue: seq<Msg>,
    lastUser: guid,
    sent: seq<Send>,
    hash: Hasher)

  const ROOM: guid := 1
  const PAYLOAD_MAX: nat := MAXBUFSIZE - HEAD_LENGTH

  const ERROR_OK: u16 := 0
  const ERROR_PHONE_EXIST: u16 := 11
  const ERROR_CANT_DELETE_OTHER: u16 := 31
  const ERROR_PASSWD: u16 := 42
  const ERROR_USER_ISNOT_EXIST: u16 := 43
  const ERROR_PHONE_MAP: u16 := 44
  const ERROR_CANT_LOGOUT_OTHER: u16 := 51
  const ERROR_CREATE_GROUP_MAX: u16 := 62
  const ERROR_GROUP_MODIFY_TYPE: u16 := 71
  const ERROR_GROUP_NOT_EXIST: u16 := 72
  const ERROR_GROUP_OPERATOR_NOT_EXIST: u16 := 74
  const ERROR_GROUP_TARGET_NOT_EXIST: u16 := 75
  const ERROR_GROUP_NOT_LEADER: u16 := 81
  const ERROR_USER_NOT_EXIST_OR_SEND_GUID: u16 := 111
  const ERROR_GROUP_MSG_LIMIT: u16 := 112
  const ERROR_MSG_LIST_REQ: u16 := 120
  const ERROR_PARSE_MSG: u16 := 3

  const ACOUNT_ADD_ACK: u16 := 10000
  const ACOUNT_MODIFY_ACK: u16 := 10001
  const ACOUNT_DELETE_ACK: u16 := 10002
  const ACOUNT_LOGIN_ACK: u16 := 10003
  const ACOUNT_LOGOUT_ACK: u16 := 10004
  const ACOUNT_CAN_REG_ACK: u16 := 10005
  const GROUP_ADD_ACK: u16 := 10030
  const GROUP_MODIFY_ACK: u16 := 10031
  const GROUP_DELETE_ACK: u16 := 10032
  const GROUP_INFO_ACK: u16 := 10061
  const USER_INFO_BRIEF_NOTIFY: u16 := 10062
  const MSG_SEND_ACK: u16 := 10090
  const CLIENT_MSG_SEND: u16 := 20090
  const CLIENT_ACK_SEND: u16 := 20091

  const MEMBER_ADD: u8 := 0
  const MEMBER_DELETE: u8 := 1
  const MEMBER_SET_PERMISSION: u8 := 2
  const MANAGER_ADD: u8 := 3
  const MANAGER_DELETE: u8 := 4
  const MODIFY_TYPE_MAX: u8 := 5

  // ---------------------------------------------------------------- well-formed states

  ghost predicate GroupSane(g: Group) {
    Linked(g) && |g.list| < U32_LIMIT && LogCounted(g)
  }

  ghost predicate GroupsSane(groups: map<guid, Group>) {
    forall g <- groups :: GroupSane(groups[g]) && groups[g].id == g
  }

  ghost predicate UsersSane(users: map<guid, User>) {
    forall u <- users :: users[u].id == u
  }

  ghost predicate Sane(s: Server) { GroupsSane(s.groups) && UsersSane(s.users) }

  // ---------------------------------------------------------------- output

  function Out(s: Server, fd: int, data: seq<byte>): (s': Server)
    ensures s' == s.(sent := s'.sent)
  {
    s.(sent := s.sent + [Send(fd, data)])
  }

  function AckBytes(ackType: u16, err: u16): seq<byte> {
    Frame(0, ackType, Put16(err))
  }

  function UserAckBytes(ackType: u16, err: u16, user: guid): seq<byte> {
    Frame(0, ackType, Put16(err) + Put32(user))
  }

  /** `send_client_ack`. */
  function Ack(s: Server, ackType: u16, err: u16, fd: int): (s': Server)
    ensures s' == s.(sent := s'.sent)
  {
    Out(s, fd, AckBytes(ackType, err))
  }

  // ---------------------------------------------------------------- traversals

  /** How many leading keys are registered: a traversal whose callback refuses unregistered members
      stops there. */
  function Reach(keys: seq<guid>, users: set<guid>): (n: nat)
    ensures n <= |keys|
    ensures forall i :: 0 <= i < n ==> keys[i] in users
    ensures n < |keys| ==> keys[n] !in users
  {
    if keys == [] || keys[0] !in users then 0 else 1 + Reach(keys[1..], users)
  }

  /** The members a traversal of all members visits: managers, then ordinary members, each in guid
      order and each up to the first unregistered one. */
  function Visited(g: Group, users: set<guid>): seq<guid> {
    ReachedOf(g.managers, users) + ReachedOf(g.members, users)
  }

  function ReachedOf(index: map<guid, Node>, users: set<guid>): seq<guid> {
    var keys := Ascending(index.Keys);
    keys[..Reach(keys, users)]
  }

  /** The node the `i`-th visited member is reached through. */
  function VisitedNode(g: Group, users: set<guid>, i: nat): Node
    requires i < |Visited(g, users)|
  {
    var u := Visited(g, users)[i];
    VisitedFacts(g, users);
    if i < |ReachedOf(g.managers, users)| then g.managers[u] else g.members[u]
  }

  lemma VisitedFacts(g: Group, users: set<guid>)
    ensures forall i :: 0 <= i < |Visited(g, users)| ==>
      var u := Visited(g, users)[i];
      u in users && u in (if i < |ReachedOf(g.managers, users)| then g.managers else g.members)
  {
    ReachedFacts(g.managers, users);
    ReachedFacts(g.members, users);
  }

  lemma ReachedFacts(index: map<guid, Node>, users: set<guid>)
    ensures forall i :: 0 <= i < |ReachedOf(index, users)| ==>
      ReachedOf(index, users)[i] in index && ReachedOf(index, users)[i] in users
    ensures Distinct(ReachedOf(index, users))
    ensures index.Keys <= users ==> forall u <- index :: u in ReachedOf(index, users)
  {
    hide Ascending;
    AscendingFacts(index.Keys);
    var keys := Ascending(index.Keys);
    forall i | 0 <= i < |keys|
      ensures keys[i] in index.Keys
    {
      assert keys[i] in keys;
    }
    if index.Keys <= users {
      assert ReachedOf(index, users) == keys;
    }
  }

  /** One send per visited member that is connected; `own` sends go to the requester's socket. */
  function Deliver(keys: seq<guid>, i: nat, userConn: map<guid, int>, own: bool, fd: int, data: seq<byte>): seq<Send>
    requires i <= |keys|
  {
    if i == 0 then []
    else
      var out, u := Deliver(keys, i - 1, userConn, own, fd, data), keys[i - 1];
      if u in userConn then out + [Send(if own then fd else userConn[u], data)] else out
  }

  /** The packet with a group's information. */
  function InfoPacket(g: Group): (p: seq<byte>)
    requires GroupSane(g) && GroupLength(g) <= PAYLOAD_MAX
    ensures |p| == HEAD_LENGTH + GroupLength(g) && 0 < |p|
  {
    assert g.count == |g.list|;
    Frame(0, GROUP_INFO_ACK, EncodeGroup(g))
  }

  /** The group information broadcast; it is skipped when the group does not fit in the buffer. */
  function Broadcast(s: Server, g: Group, own: bool, fd: int): (s': Server)
    requires GroupSane(g)
    ensures s' == s.(sent := s'.sent)
  {
    if GroupLength(g) > PAYLOAD_MAX then s
    else
      var keys := Visited(g, s.users.Keys);
      s.(sent := s.sent + Deliver(keys, |keys|, s.userConn, own, fd, InfoPacket(g)))
  }

  // ---------------------------------------------------------------- accounts

  function PhoneUnique(s: Server, phone: seq<byte>): u16 {
    if s.hash.apply(phone) in s.phones then ERROR_PHONE_EXIST else ERROR_OK
  }

  /** `from_data`'s treatment of a zero guid. */
  function Registrant(s: Server, wire: User): User {
    if wire.id == 0 then wire.(id := Inc32(s.lastUser)) else wire
  }

  function AcountAdd(s: Server, wire: User, now: int, fd: int): (s': Server)
    requires Sane(s) && (PhoneUnique(s, wire.phone) == ERROR_OK ==> ROOM in s.groups && Roomy(s.groups[ROOM]))
    ensures s' == s.(users := s'.users, groups := s'.groups, phones := s'.phones, lastUser := s'.lastUser,
      sent := s'.sent)
  {
    if PhoneUnique(s, wire.phone) != ERROR_OK then
      Out(s, fd, UserAckBytes(ACOUNT_ADD_ACK, ERROR_PHONE_EXIST, 0))
    else
      var u := Registrant(s, wire).(regTime := now, online := STATUS_ON_LINE);
      var users := s.users[u.id := u];
      var room := s.groups[ROOM].(leader := if |users| == 1 then u.id else s.groups[ROOM].leader);
      var room' := AddMember(room, 0, u.id, u.icon, u.name);
      var s1 := s.(users := users, lastUser := Inc32(s.lastUser), phones := s.phones[s.hash.apply(u.phone) := u.id],
                   groups := s.groups[ROOM := room']);
      LinkedAdd(room, 0, u.id, u.icon, u.name);
      Out(Broadcast(s1, room', false, fd), fd, UserAckBytes(ACOUNT_ADD_ACK, ERROR_OK, u.id))
  }

  /** There is room for one more member. */
  ghost predicate Roomy(g: Group) { |g.list| + 1 < U32_LIMIT }

  function AcountModify(s: Server, wire: User, fd: int): (s': Server)
    requires Sane(s) && (wire.id != 0 ==> wire.id == Inc32(s.lastUser) || wire.id in s.users)
    ensures s' == s.(users := s'.users, phones := s'.phones, sent := s'.sent)
  {
    if Registrant(s, wire).id == Inc32(s.lastUser) then s
    else
      var phones := s.phones - {s.hash.apply(s.users[wire.id].phone)};
      Ack(s.(users := s.users[wire.id := wire], phones := phones[s.hash.apply(wire.phone) := wire.id]),
          ACOUNT_MODIFY_ACK, ERROR_OK, fd)
  }

  /** What `operator[]` returns on a map: the entry, after inserting 0 if there is none. */
  function Bracket(m: map<int, int>, k: int): map<int, int> { if k in m then m else m[k := 0] }

  /** What deleting an account does to one of the groups the user joined. */
  function Expel(g: Group, user: guid): Group
    requires Linked(g)
  {
    if CanDemote(g, g.leader, user) then DeleteManager(g, g.leader, user)
    else DeleteMember(g, g.leader, user)
  }

  /** The public room is treated differently: both calls are made. */
  function ExpelFromRoom(g: Group, user: guid): Group
    requires Linked(g)
  {
    LinkedMove(g, g.leader, user);
    DeleteMember(DeleteManager(g, g.leader, user), g.leader, user)
  }

  lemma ExpelSane(g: Group, user: guid)
    requires GroupSane(g)
    ensures GroupSane(Expel(g, user)) && GroupSane(ExpelFromRoom(g, user))
    ensures Expel(g, user).id == g.id && ExpelFromRoom(g, user).id == g.id
    ensures Expel(g, user).leader == g.leader
  {
    LinkedMove(g, g.leader, user);
    LinkedDelete(g, g.leader, user);
    LinkedDelete(DeleteManager(g, g.leader, user), g.leader, user);
    ErasesAtMost(g, g.leader, user);
    ErasesAtMost(DeleteManager(g, g.leader, user), g.leader, user);
  }

  lemma ErasesAtMost(g: Group, o: guid, u: guid)
    requires Linked(g)
    ensures |DeleteMember(g, o, u).list| <= |g.list|
  {
    if CanDelete(g, o, u) {
      WithoutFacts(g.list, if u in g.managers then g.managers[u] else g.members[u]);
    }
  }

  /** The groups after the loop over the deleted user's joined groups. */
  function ExpelAll(s: Server, user: guid): map<guid, Group>
    requires Sane(s) && user in s.users
  {
    map g | g in s.groups :: if g in s.users[user].joined then Expel(s.groups[g], user) else s.groups[g]
  }

  /** The state after the registered user's own records are gone. */
  function Unregister(s: Server, user: guid): (s': Server)
    requires Sane(s)
    ensures s' == s.(users := s'.users, groups := s'.groups, phones := s'.phones)
  {
    if user !in s.users then s
    else s.(groups := ExpelAll(s, user), phones := s.phones - {s.hash.apply(s.users[user].phone)},
      users := s.users - {user})
  }

  /** `conn_user_map.erase(user_conn_map[user]); user_conn_map.erase(user);` */
  function Unbind(s: Server, user: guid): (s': Server)
    ensures s' == s.(connUser := s'.connUser, userConn := s'.userConn)
  {
    var userConn := Bracket(s.userConn, user);
    s.(connUser := s.connUser - {userConn[user]}, userConn := userConn - {user})
  }

  function AcountDelete(s: Server, user: guid, fd: int): (s': Server)
    requires Sane(s) && (user == Bracket(s.connUser, fd)[fd] ==> ROOM in s.groups)
    ensures s' == s.(users := s'.users, groups := s'.groups, phones := s'.phones, connUser := s'.connUser,
                     userConn := s'.userConn, sent := s'.sent)
  {
    var s0 := s.(connUser := Bracket(s.connUser, fd));
    if user != s0.connUser[fd] then Ack(s0, ACOUNT_DELETE_ACK, ERROR_CANT_DELETE_OTHER, fd)
    else
      UnregisterSane(s0, user);
      var s1 := Unbind(Unregister(s0, user), user);
      var room := ExpelFromRoom(s1.groups[ROOM], user);
      ExpelSane(s1.groups[ROOM], user);
      Ack(Broadcast(s1.(groups := s1.groups[ROOM := room]), room, true, fd), ACOUNT_DELETE_ACK, ERROR_OK, fd)
  }

  lemma UnregisterSane(s: Server, user: guid)
    requires Sane(s)
    ensures Sane(Unregister(s, user)) && Unregister(s, user).groups.Keys == s.groups.Keys
  {
    if user in s.users {
      forall g <- s.groups
        ensures GroupSane(Expel(s.groups[g], user)) && Expel(s.groups[g], user).id == g
      {
        ExpelSane(s.groups[g], user);
      }
    }
  }

  /** `on_login`: the error code. */
  function LoginError(s: Server, phone: seq<byte>, password: seq<byte>): u16 {
    var h := s.hash.apply(phone);
    if h !in s.phones then ERROR_PHONE_MAP
    else if s.phones[h] !in s.users then ERROR_USER_ISNOT_EXIST
    else if s.hash.apply(password) == s.users[s.phones[h]].passwd then ERROR_OK
    else ERROR_PASSWD
  }

  /** The guid a login attempt binds: 0 when it fails. */
  function LoginUser(s: Server, phone: seq<byte>, password: seq<byte>): guid {
    if LoginError(s, phone, password) == ERROR_OK then s.phones[s.hash.apply(phone)] else 0
  }

  function AcountLogin(s: Server, phone: seq<byte>, password: seq<byte>, now: int, fd: int): (s': Server)
    ensures s' == s.(users := s'.users, connUser := s'.connUser, userConn := s'.userConn, sent := s'.sent)
  {
    var err, u := LoginError(s, phone, password), LoginUser(s, phone, password);
    var users := if err != ERROR_OK then s.users
      else s.users[u := LoggedIn(s.users[u], now)];
    Out(s.(users := users, userConn := s.userConn[u := fd], connUser := s.connUser[fd := u]),
        fd, UserAckBytes(ACOUNT_LOGIN_ACK, err, u))
  }

  function AcountLogout(s: Server, user: guid, now: int, fd: int): (s': Server)
    ensures s' == s.(users := s'.users, connUser := s'.connUser, userConn := s'.userConn, sent := s'.sent)
  {
    var s0 := s.(connUser := Bracket(s.connUser, fd));
    if user != s0.connUser[fd] then Ack(s0, ACOUNT_LOGOUT_ACK, ERROR_CANT_LOGOUT_OTHER, fd)
    else
      var users := if user !in s.users then s.users
        else s.users[user := LoggedOut(s.users[user], now)];
      Ack(Unbind(s0.(users := users), user), ACOUNT_LOGOUT_ACK, ERROR_OK, fd)
  }

  /** The close step of the read thread. */
  function Close(s: Server, fd: int): (s': Server)
    ensures s' == s.(users := s'.users, connUser := s'.connUser, userConn := s'.userConn)
  {
    var connUser := Bracket(s.connUser, fd);
    var u := connUser[fd];
    var users := if u !in s.users then s.users else s.users[u := WentOffline(s.users[u])];
    s.(users := users, userConn := s.userConn - {u}, connUser := connUser - {fd})
  }

  // ---------------------------------------------------------------- groups

  /** What the traversal in `on_group_add` writes into a member's node. */
  function EnrolledMember(g: Group, m: Member, u: User): Member {
    m.(groupGuid := g.id, iconGuid := u.icon, msgCount := 0, permissions := SEND_TO_GROUP, name := u.name,
       job := if g.leader == m.userGuid then JOB_LEADER else JOB_MEMBER)
  }

  /** The group after its first `i` visited members are enrolled. */
  function Enroll(g: Group, users: map<guid, User>, i: nat): (g': Group)
    requires Linked(g) && i <= |Visited(g, users.Keys)|
    ensures g' == g.(nodes := g'.nodes) && |g'.nodes| == |g.nodes|
    ensures forall n :: 0 <= n < |g.nodes| ==> g'.nodes[n].userGuid == g.nodes[n].userGuid
  {
    if i == 0 then g
    else
      var g1 := Enroll(g, users, i - 1);
      var u, n := Visited(g, users.Keys)[i - 1], VisitedNode(g, users.Keys, i - 1);
      VisitedFacts(g, users.Keys);
      g1.(nodes := g1.nodes[n := EnrolledMember(g, g1.nodes[n], users[u])])
  }

  function JoinAll(users: map<guid, User>, keys: seq<guid>, g: guid, now: int): map<guid, User> {
    map u | u in users :: if u in keys then Join(users[u], g, now) else users[u]
  }

  function LeaveAll(users: map<guid, User>, keys: seq<guid>, g: guid): map<guid, User> {
    map u | u in users :: if u in keys then Leave(users[u], g) else users[u]
  }

  /** `info` is the group as decoded. */
  function GroupAdd(s: Server, info: Group, now: int, fd: int): (s': Server)
    requires Sane(s) && GroupSane(info)
    ensures s' == s.(users := s'.users, groups := s'.groups, sent := s'.sent)
  {
    if info.leader !in s.users then Ack(s, GROUP_ADD_ACK, ERROR_GROUP_OPERATOR_NOT_EXIST, fd)
    else if !(s.users[info.leader].owned < OWN_GROUP_MAX) then Ack(s, GROUP_ADD_ACK, ERROR_CREATE_GROUP_MAX, fd)
    else
      var keys := Visited(info, s.users.Keys);
      var joined := JoinAll(s.users, keys, info.id, now);
      Ack(s.(users := joined[info.leader := Founded(joined[info.leader])],
             groups := s.groups[info.id := Enroll(info, s.users, |keys|)]), GROUP_ADD_ACK, ERROR_OK, fd)
  }

  function AddToGroup(s: Server, group: guid, operator: guid, target: guid, now: int, fd: int): (s': Server)
    requires Sane(s) && group in s.groups && target in s.users && Roomy(s.groups[group])
    ensures s' == s.(users := s'.users, groups := s'.groups, sent := s'.sent)
  {
    var g, u := s.groups[group], s.users[target];
    if !CanAdd(g, operator, target) then s
    else
      var g' := AddMember(g, operator, target, u.icon, u.name);
      LinkedAdd(g, operator, target, u.icon, u.name);
      Broadcast(s.(groups := s.groups[group := g'], users := s.users[target := Join(u, group, now)]), g', true, fd)
  }

  function RemoveFromGroup(s: Server, group: guid, operator: guid, target: guid): (s': Server)
    requires Sane(s) && group in s.groups && target in s.users
    ensures s' == s.(users := s'.users, groups := s'.groups)
  {
    var g := s.groups[group];
    if !CanDelete(g, operator, target) then s
    else s.(groups := s.groups[group := DeleteMember(g, operator, target)],
            users := s.users[target := Leave(s.users[target], group)])
  }

  /** The three kinds of modification that change a member's role or permission. */
  function ChangeRole(g: Group, operator: guid, target: guid, kind: u8, permission: u8): Group
    requires Linked(g)
  {
    if kind == MEMBER_SET_PERMISSION then ChangePermissions(g, operator, target, permission)
    else if kind == MANAGER_ADD then AddManager(g, operator, target)
    else if kind == MANAGER_DELETE then DeleteManager(g, operator, target)
    else g
  }

  function GroupModify(s: Server, group: guid, operator: guid, target: guid, kind: u8, permission: u8, now: int,
      fd: int): (s': Server)
    requires Sane(s) && (group in s.groups ==> Roomy(s.groups[group]))
    ensures s' == s.(users := s'.users, groups := s'.groups, sent := s'.sent)
  {
    if kind > MODIFY_TYPE_MAX then Ack(s, GROUP_MODIFY_ACK, ERROR_GROUP_MODIFY_TYPE, fd)
    else if group !in s.groups then Ack(s, GROUP_MODIFY_ACK, ERROR_GROUP_NOT_EXIST, fd)
    else if operator != 0 && operator !in s.users then Ack(s, GROUP_MODIFY_ACK, ERROR_GROUP_OPERATOR_NOT_EXIST, fd)
    else if target != 0 && target !in s.users then Ack(s, GROUP_MODIFY_ACK, ERROR_GROUP_TARGET_NOT_EXIST, fd)
    else if operator == 0 || target == 0 then Ack(s, GROUP_MODIFY_ACK, ERROR_OK, fd)
    else if kind == MEMBER_ADD then Ack(AddToGroup(s, group, operator, target, now, fd), GROUP_MODIFY_ACK, ERROR_OK, fd)
    else if kind == MEMBER_DELETE then Ack(RemoveFromGroup(s, group, operator, target), GROUP_MODIFY_ACK, ERROR_OK, fd)
    else Ack(s.(groups := s.groups[group := ChangeRole(s.groups[group], operator, target, kind, permission)]),
             GROUP_MODIFY_ACK, ERROR_OK, fd)
  }

  function GroupDelete(s: Server, group: guid, operator: guid, fd: int): (s': Server)
    ensures s' == s.(users := s'.users, groups := s'.groups, sent := s'.sent)
  {
    if group !in s.groups then Ack(s, GROUP_DELETE_ACK, ERROR_GROUP_NOT_EXIST, fd)
    else if operator != s.groups[group].leader then Ack(s, GROUP_DELETE_ACK, ERROR_GROUP_NOT_LEADER, fd)
    else if operator !in s.users then Ack(s, GROUP_DELETE_ACK, ERROR_GROUP_OPERATOR_NOT_EXIST, fd)
    else
      var left := LeaveAll(s.users, Visited(s.groups[group], s.users.Keys), group);
      Ack(s.(users := left[operator := Disbanded(left[operator])], groups := s.groups - {group}),
        GROUP_DELETE_ACK, ERROR_OK, fd)
  }

  // ---------------------------------------------------------------- messages

  function MsgSend(s: Server, sender: guid, m: Msg, fd: int): (s': Server)
    ensures s' == s.(queue := s'.queue, sent := s'.sent)
  {
    if fd !in s.connUser || s.connUser[fd] != sender then Ack(s, MSG_SEND_ACK, ERROR_USER_NOT_EXIST_OR_SEND_GUID, fd)
    else s.(queue := s.queue + [m])
  }

  /** The group branch of `on_msg_list_req`. */
  function MsgListReq(s: Server, group: guid, fd: int): (s': Server)
    requires Sane(s)
    ensures s' == s.(sent := s'.sent)
  {
    if group !in s.groups then Ack(s, CLIENT_ACK_SEND, ERROR_MSG_LIST_REQ, fd)
    else Out(s, fd, Frame(0, CLIENT_MSG_LIST_ACK, Encode(s.groups[group].log, PAYLOAD_MAX)))
  }

  // ---------------------------------------------------------------- information requests

  function GroupInfoReq(s: Server, group: guid, fd: int): (s': Server)
    requires Sane(s)
    ensures s' == s.(sent := s'.sent)
  {
    if group !in s.groups || GroupLength(s.groups[group]) > PAYLOAD_MAX then s
    else Out(s, fd, InfoPacket(s.groups[group]))
  }

  /** `make_brief_data` and the packet of a `BriefUserInfo`. */
  function BriefPacket(u: User): seq<byte> {
    Frame(0, USER_INFO_BRIEF_NOTIFY, Put32(u.id) + Put32(u.icon) + u.name + [u.online])
  }

  function BriefInfoReq(s: Server, user: guid, fd: int): (s': Server)
    ensures s' == s.(sent := s'.sent)
  {
    if user in s.users then Out(s, fd, BriefPacket(s.users[user])) else s
  }

  // ---------------------------------------------------------------- dispatch

  /** The send limit: the message is refused. */
  predicate Blocked(m: Member) {
    (m.permissions == LIMIT_50 && m.msgCount > 50) || (m.permissions == LIMIT_10 && m.msgCount > 10)
    || m.permissions == CANT_SEND
  }

  function CountOne(g: Group, n: Node): Group
    requires 0 <= n < |g.nodes|
  {
    g.(nodes := g.nodes[n := g.nodes[n].(msgCount := (g.nodes[n].msgCount + 1) % 0x1_0000)])
  }

  /** The group after the dispatch traversal visited its first `i` members: a connected sender's
      message count goes up at each of its nodes. */
  function Counted(g: Group, users: set<guid>, userConn: map<guid, int>, sender: guid, i: nat): (g': Group)
    requires Linked(g) && i <= |Visited(g, users)|
    ensures g' == g.(nodes := g'.nodes) && |g'.nodes| == |g.nodes|
    ensures forall n :: 0 <= n < |g.nodes| ==> g'.nodes[n].userGuid == g.nodes[n].userGuid
  {
    if i == 0 then g
    else
      var g1, u := Counted(g, users, userConn, sender, i - 1), Visited(g, users)[i - 1];
      VisitedFacts(g, users);
      if u in userConn && u == sender then CountOne(g1, VisitedNode(g, users, i - 1)) else g1
  }

  function TouchAll(users: map<guid, User>, keys: seq<guid>, g: guid, now: int): map<guid, User> {
    map u | u in users :: if u in keys then Touch(users[u], g, now) else users[u]
  }

  /** The stored form of an accepted message. */
  function Stored(g: Group, m: Msg): Msg {
    if Accepts(g, m) then m.(num := Number(g.log, m)) else m
  }

  /** An accepted message whose packet fits in the send buffer. */
  predicate Fits(g: Group, m: Msg) { MsgSize(Stored(g, m)) <= PAYLOAD_MAX }

  /** Delivering an accepted message, `g` being the group before the message is logged: the group
      afterwards, the members visited, the users afterwards and the packets sent. */
  function FanoutGroup(s: Server, g: Group, m: Msg): Group
    requires Linked(g)
  {
    var g1 := AddMsg(g, m);
    if Fits(g, m) then Counted(g1, s.users.Keys, s.userConn, m.send, |Visited(g1, s.users.Keys)|) else g1
  }

  function FanoutUsers(s: Server, g: Group, m: Msg, now: int): map<guid, User> {
    if Fits(g, m) then TouchAll(s.users, Visited(g, s.users.Keys), m.recv, now) else s.users
  }

  function FanoutSends(s: Server, g: Group, m: Msg): seq<Send> {
    if !Fits(g, m) then []
    else
      var keys := Visited(g, s.users.Keys);
      Deliver(keys, |keys|, s.userConn, false, 0, Frame(m.send, CLIENT_MSG_SEND, EncodeMsg(Stored(g, m))))
  }

  function Fanout(s: Server, g: Group, m: Msg, now: int): (s': Server)
    requires GroupSane(g)
    ensures s' == s.(users := s'.users, groups := s'.groups, sent := s'.sent)
  {
    s.(groups := s.groups[g.id := FanoutGroup(s, g, m)], users := FanoutUsers(s, g, m, now),
       sent := s.sent + FanoutSends(s, g, m))
  }

  /** The dispatch loop's treatment of the message at the front of the queue, a group message. */
  function Dispatch(s: Server, now: int): (s': Server)
    requires Sane(s) && s.queue != [] && s.queue[0].kind == MSG_TYPE_GROUP
    requires s.queue[0].recv in s.groups ==> s.queue[0].send in Keys(s.groups[s.queue[0].recv])
    ensures s' == s.(users := s'.users, groups := s'.groups, userConn := s'.userConn, queue := s'.queue,
      sent := s'.sent)
  {
    var m := s.queue[0];
    var s' := if m.recv !in s.groups then s
      else
        var g := s.groups[m.recv];
        if Blocked(g.nodes[Lookup(g, m.send)]) then
          var userConn := Bracket(s.userConn, m.send);
          Ack(s.(userConn := userConn), MSG_SEND_ACK, ERROR_GROUP_MSG_LIMIT, userConn[m.send])
        else Fanout(s, g, m, now);
    s'.(queue := s.queue[1..])
  }

  // ---------------------------------------------------------------- requests

  /** A decoded request, one refused with or without a reply, a closed connection, or one turn of the
      dispatch loop. */
  datatype Event =
    | EAcountAdd(wire: User, now: int, fd: int)
    | EAcountModify(wire: User, fd: int)
    | EAcountDelete(user: guid, fd: int)
    | ELogin(phone: seq<byte>, password: seq<byte>, now: int, fd: int)
    | ELogout(user: guid, now: int, fd: int)
    | ECanReg(phone: seq<byte>, fd: int)
    | EGroupAdd(info: Group, now: int, fd: int)
    | EGroupModify(group: guid, operator: guid, target: guid, kind: u8, permission: u8, now: int, fd: int)
    | EGroupDelete(group: guid, operator: guid, fd: int)
    | EMsgSend(sender: guid, msg: Msg, fd: int)
    | EMsgListReq(group: guid, fd: int)
    | EGroupInfoReq(group: guid, fd: int)
    | EBriefInfoReq(user: guid, fd: int)
    | ERefuse(fd: int)
    | EIgnore
    | EClose(fd: int)
    | EDispatch(now: int)

  /** The requests on which the code's behaviour is defined: no end iterator or null pointer is
      dereferenced and no counter of members wraps. Decoded users have joined nothing yet. */
  ghost predicate Defined(s: Server, e: Event) {
    Sane(s) &&
    match e
    case EAcountAdd(w, _, _) =>
      w.joined == map[] && (PhoneUnique(s, w.phone) == ERROR_OK ==> ROOM in s.groups && Roomy(s.groups[ROOM]))
    case EAcountModify(w, _) => w.joined == map[] && (w.id != 0 ==> w.id == Inc32(s.lastUser) || w.id in s.users)
    case EAcountDelete(u, fd) => u == Bracket(s.connUser, fd)[fd] ==> ROOM in s.groups
    case EGroupAdd(info, _, _) => GroupSane(info)
    case EGroupModify(g, _, _, _, _, _, _) => g in s.groups ==> Roomy(s.groups[g])
    case EDispatch(_) =>
      s.queue != [] && s.queue[0].kind == MSG_TYPE_GROUP
      && (s.queue[0].recv in s.groups ==> s.queue[0].send in Keys(s.groups[s.queue[0].recv]))
    case _ => true
  }

  ghost function Handle(s: Server, e: Event): Server
    requires Defined(s, e)
  {
    match e
    case EAcountAdd(w, now, fd) => AcountAdd(s, w, now, fd)
    case EAcountModify(w, fd) => AcountModify(s, w, fd)
    case EAcountDelete(u, fd) => AcountDelete(s, u, fd)
    case ELogin(p, pw, now, fd) => AcountLogin(s, p, pw, now, fd)
    case ELogout(u, now, fd) => AcountLogout(s, u, now, fd)
    case ECanReg(p, fd) => Ack(s, ACOUNT_CAN_REG_ACK, PhoneUnique(s, p), fd)
    case EGroupAdd(info, now, fd) => GroupAdd(s, info, now, fd)
    case EGroupModify(g, o, t, k, p, now, fd) => GroupModify(s, g, o, t, k, p, now, fd)
    case EGroupDelete(g, o, fd) => GroupDelete(s, g, o, fd)
    case EMsgSend(sender, m, fd) => MsgSend(s, sender, m, fd)
    case EMsgListReq(g, fd) => MsgListReq(s, g, fd)
    case EGroupInfoReq(g, fd) => GroupInfoReq(s, g, fd)
    case EBriefInfoReq(u, fd) => BriefInfoReq(s, u, fd)
    case ERefuse(fd) => Ack(s, CLIENT_ACK_SEND, ERROR_PARSE_MSG, fd)
    case EIgnore => s
    case EClose(fd) => Close(s, fd)
    case EDispatch(now) => Dispatch(s, now)
  }
}
