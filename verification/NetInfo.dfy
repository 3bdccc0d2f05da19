/** The `NetInfo` class: lists of users and groups, maps of iterators into them, and the handlers.
    An iterator is a reference to the object its list node holds. `model` is the abstract state each
    handler's contract speaks about. */
module NetInfos {
  import opened Bytes
  import opened Packets
  import opened Groups
  import opened GroupRuns
  import opened GroupInfos
  import opened GroupCodec
  import opened MsgListAck
  import opened Users
  import opened Sorted
  import opened Servers
  import opened ServerRuns
  import opened Receive
  import opened Mirrors
  import opened Requests

  class NetInfo {
    var connUserMap: map<int, guid>
    var userConnMap: map<guid, int>
    var msgList: seq<Msg>
    var groups: seq<GroupInfo>
    var groupsMap: map<guid, GroupInfo>
    var users: seq<UserInfo>
    var usersMap: map<guid, UserInfo>
    var phoneHashMap: map<int, guid>
    var globalUserGuid: guid
    var sent: seq<Send>
    const sendBuf: array<byte>
    const hash: Hasher
    ghost var model: Server

    ghost predicate Fields()
      reads this
    {
      && model.phones == phoneHashMap && model.connUser == connUserMap && model.userConn == userConnMap
      && model.queue == msgList && model.lastUser == globalUserGuid && model.sent == sent && model.hash == hash
    }

    ghost predicate Indexed(us: map<guid, User>, gs: map<guid, Group>)
      reads this`users, this`usersMap, this`groups, this`groupsMap, usersMap.Values, groupsMap.Values
    {
      && Holds(users, usersMap) && Covers(usersMap, users) && UsersMatch(usersMap, us)
      && Holds(groups, groupsMap) && GroupsMatch(groupsMap, gs)
    }

    ghost predicate Valid()
      reads this, usersMap.Values, groupsMap.Values
    {
      && sendBuf.Length == MAXBUFSIZE
      && Indexed(model.users, model.groups) && Fields() && Sane(model)
    }

    constructor (h: Hasher)
      ensures Valid() && fresh(sendBuf) && fresh(groupsMap.Values) && model == Initial(1, h) && usersMap == map[]
    {
      var room := new GroupInfo(ROOM);
      connUserMap, userConnMap, msgList := map[], map[], [];
      groups, groupsMap := [room], map[ROOM := room];
      users, usersMap := [], map[];
      phoneHashMap, globalUserGuid, sent, hash := map[], 1, [], h;
      sendBuf := new byte[MAXBUFSIZE](_ => 0);
      model := Initial(1, h);
      new;
      InitialSane(1, h);
    }

    // -------------------------------------------------------------- output

    method SendMsg(fd: int, data: seq<byte>)
      requires Valid()
      modifies this`sent, this`model
      ensures Valid() && model == Out(old(model), fd, data)
    {
      hide Sane, Indexed;
      SaneOut(model, fd, data);
      sent := sent + [Send(fd, data)];
      model := Out(model, fd, data);
    }

    method SendClientAck(ackType: u16, err: u16, fd: int)
      requires Valid()
      modifies this`sent, this`model
      ensures Valid() && model == Ack(old(model), ackType, err, fd)
    {
      SendMsg(fd, AckBytes(ackType, err));
    }

    // -------------------------------------------------------------- accounts

    method OnPhoneUnique(phone: seq<byte>) returns (err: u16)
      requires Valid()
      ensures err == PhoneUnique(model, phone)
    {
      if hash.apply(phone) in phoneHashMap {
        return ERROR_PHONE_EXIST;
      }
      return ERROR_OK;
    }

    method OnLogin(phone: seq<byte>, password: seq<byte>) returns (err: u16)
      requires Valid()
      ensures err == LoginError(model, phone, password)
    {
      var h := hash.apply(phone);
      if h !in phoneHashMap {
        return ERROR_PHONE_MAP;
      }
      var u := phoneHashMap[h];
      var passwd := hash.apply(password);
      if u in usersMap {
        assert usersMap[u].State() == model.users[u];
        if passwd == usersMap[u].passwd {
          return ERROR_OK;
        }
        return ERROR_PASSWD;
      }
      return ERROR_USER_ISNOT_EXIST;
    }

    // -------------------------------------------------------------- one record at a time

    /** The login times and the status of a user who logged in. */
    method RecordLogin(u: guid, now: int)
      requires Valid() && u in usersMap
      modifies usersMap[u], this`model
      ensures Valid()
      ensures model == old(model).(users := old(model).users[u := LoggedIn(old(model).users[u], now)])
    {
      hide GroupsSane, UsersSane, UsersMatch, GroupsMatch, Holds, Covers;
      UsersRest(usersMap, model.users, u);
      usersMap[u].OnLoggedIn(now);
      ghost var x := LoggedIn(model.users[u], now);
      UsersWhole(usersMap, model.users, u, x);
      model := model.(users := model.users[u := x]);
    }

    method RecordLogout(u: guid, now: int)
      requires Valid() && u in usersMap
      modifies usersMap[u], this`model
      ensures Valid()
      ensures model == old(model).(users := old(model).users[u := LoggedOut(old(model).users[u], now)])
    {
      hide GroupsSane, UsersSane, UsersMatch, GroupsMatch, Holds, Covers;
      UsersRest(usersMap, model.users, u);
      usersMap[u].OnLoggedOut(now);
      ghost var x := LoggedOut(model.users[u], now);
      UsersWhole(usersMap, model.users, u, x);
      model := model.(users := model.users[u := x]);
    }

    method RecordOffline(u: guid)
      requires Valid() && u in usersMap
      modifies usersMap[u], this`model
      ensures Valid()
      ensures model == old(model).(users := old(model).users[u := WentOffline(old(model).users[u])])
    {
      hide GroupsSane, UsersSane, UsersMatch, GroupsMatch, Holds, Covers;
      UsersRest(usersMap, model.users, u);
      usersMap[u].OnSetOnlineStatus(STATUS_OFF_LINE);
      ghost var x := WentOffline(model.users[u]);
      UsersWhole(usersMap, model.users, u, x);
      model := model.(users := model.users[u := x]);
    }

    method JoinGroup(u: guid, g: guid, now: int)
      requires Valid() && u in usersMap
      modifies usersMap[u], this`model
      ensures Valid()
      ensures model == old(model).(users := old(model).users[u := Join(old(model).users[u], g, now)])
    {
      hide GroupsSane, UsersSane, UsersMatch, GroupsMatch, Holds, Covers;
      UsersRest(usersMap, model.users, u);
      var _ := usersMap[u].OnJoinGroup(g, now);
      ghost var x := Join(model.users[u], g, now);
      UsersWhole(usersMap, model.users, u, x);
      model := model.(users := model.users[u := x]);
    }

    method LeaveGroup(u: guid, g: guid)
      requires Valid() && u in usersMap
      modifies usersMap[u], this`model
      ensures Valid()
      ensures model == old(model).(users := old(model).users[u := Leave(old(model).users[u], g)])
    {
      hide GroupsSane, UsersSane, UsersMatch, GroupsMatch, Holds, Covers;
      UsersRest(usersMap, model.users, u);
      var _ := usersMap[u].OnLeaveGroup(g);
      ghost var x := Leave(model.users[u], g);
      UsersWhole(usersMap, model.users, u, x);
      model := model.(users := model.users[u := x]);
    }

    method TouchGroup(u: guid, g: guid, now: int)
      requires Valid() && u in usersMap
      modifies usersMap[u], this`model
      ensures Valid()
      ensures model == old(model).(users := old(model).users[u := Touch(old(model).users[u], g, now)])
    {
      hide GroupsSane, UsersSane, UsersMatch, GroupsMatch, Holds, Covers;
      UsersRest(usersMap, model.users, u);
      var _ := usersMap[u].OnUpdateGroupActive(g, now);
      ghost var x := Touch(model.users[u], g, now);
      UsersWhole(usersMap, model.users, u, x);
      model := model.(users := model.users[u := x]);
    }

    method CountFounded(u: guid)
      requires Valid() && u in usersMap
      modifies usersMap[u], this`model
      ensures Valid()
      ensures model == old(model).(users := old(model).users[u := Founded(old(model).users[u])])
    {
      hide GroupsSane, UsersSane, UsersMatch, GroupsMatch, Holds, Covers;
      UsersRest(usersMap, model.users, u);
      var _ := usersMap[u].OnCreateGroup();
      ghost var x := Founded(model.users[u]);
      UsersWhole(usersMap, model.users, u, x);
      model := model.(users := model.users[u := x]);
    }

    method CountDisbanded(u: guid)
      requires Valid() && u in usersMap
      modifies usersMap[u], this`model
      ensures Valid()
      ensures model == old(model).(users := old(model).users[u := Disbanded(old(model).users[u])])
    {
      hide GroupsSane, UsersSane, UsersMatch, GroupsMatch, Holds, Covers;
      UsersRest(usersMap, model.users, u);
      var _ := usersMap[u].OnDeleteGroup();
      ghost var x := Disbanded(model.users[u]);
      UsersWhole(usersMap, model.users, u, x);
      model := model.(users := model.users[u := x]);
    }

    method AddTo(g: guid, operator: guid, user: guid, icon: guid, name: Name) returns (ok: bool)
      requires Valid() && g in groupsMap && Roomy(model.groups[g])
      modifies groupsMap[g], this`model
      ensures Valid() && ok == CanAdd(old(model).groups[g], operator, user)
      ensures model == old(model).(groups := old(model).groups[g := AddMember(old(model).groups[g], operator,
        user, icon, name)])
    {
      hide GroupsSane, UsersSane, UsersMatch, GroupsMatch, Holds, Covers, Linked, LogCounted, AddMember;
      GroupsRest(groupsMap, model.groups, g);
      AddSane(model.groups[g], operator, user, icon, name);
      ok := groupsMap[g].OnAddMember(operator, user, icon, name);
      ghost var x := AddMember(model.groups[g], operator, user, icon, name);
      GroupsWhole(groupsMap, model.groups, g, x);
      model := model.(groups := model.groups[g := x]);
    }

    method DeleteFrom(g: guid, operator: guid, user: guid) returns (ok: bool)
      requires Valid() && g in groupsMap
      modifies groupsMap[g], this`model
      ensures Valid() && ok == CanDelete(old(model).groups[g], operator, user)
      ensures model == old(model).(groups := old(model).groups[g := DeleteMember(old(model).groups[g], operator, user)])
    {
      hide GroupsSane, UsersSane, UsersMatch, GroupsMatch, Holds, Covers, Linked, LogCounted, DeleteMember;
      GroupsRest(groupsMap, model.groups, g);
      DeleteSane(model.groups[g], operator, user);
      ok := groupsMap[g].OnDeleteMember(operator, user);
      ghost var x := DeleteMember(model.groups[g], operator, user);
      GroupsWhole(groupsMap, model.groups, g, x);
      model := model.(groups := model.groups[g := x]);
    }

    method Promote(g: guid, operator: guid, user: guid) returns (ok: bool)
      requires Valid() && g in groupsMap
      modifies groupsMap[g], this`model
      ensures Valid() && ok == CanPromote(old(model).groups[g], operator, user)
      ensures model == old(model).(groups := old(model).groups[g := AddManager(old(model).groups[g], operator, user)])
    {
      hide GroupsSane, UsersSane, UsersMatch, GroupsMatch, Holds, Covers, Linked, LogCounted, AddManager;
      GroupsRest(groupsMap, model.groups, g);
      MoveSane(model.groups[g], operator, user);
      ok := groupsMap[g].OnAddManager(operator, user);
      ghost var x := AddManager(model.groups[g], operator, user);
      GroupsWhole(groupsMap, model.groups, g, x);
      model := model.(groups := model.groups[g := x]);
    }

    method Demote(g: guid, operator: guid, user: guid) returns (ok: bool)
      requires Valid() && g in groupsMap
      modifies groupsMap[g], this`model
      ensures Valid() && ok == CanDemote(old(model).groups[g], operator, user)
      ensures model == old(model).(groups := old(model).groups[g := DeleteManager(old(model).groups[g], operator,
        user)])
    {
      hide GroupsSane, UsersSane, UsersMatch, GroupsMatch, Holds, Covers, Linked, LogCounted, DeleteManager;
      GroupsRest(groupsMap, model.groups, g);
      MoveSane(model.groups[g], operator, user);
      ok := groupsMap[g].OnDeleteManager(operator, user);
      ghost var x := DeleteManager(model.groups[g], operator, user);
      GroupsWhole(groupsMap, model.groups, g, x);
      model := model.(groups := model.groups[g := x]);
    }

    method SetPermission(g: guid, operator: guid, user: guid, permission: u8) returns (ok: bool)
      requires Valid() && g in groupsMap
      modifies groupsMap[g], this`model
      ensures Valid()
      ensures model == old(model).(groups := old(model).groups[g := ChangePermissions(old(model).groups[g],
        operator, user, permission)])
    {
      hide GroupsSane, UsersSane, UsersMatch, GroupsMatch, Holds, Covers, Linked, LogCounted, ChangePermissions;
      GroupsRest(groupsMap, model.groups, g);
      ChangeSane(model.groups[g], operator, user, permission);
      ok := groupsMap[g].OnChangePermissions(operator, user, permission);
      ghost var x := ChangePermissions(model.groups[g], operator, user, permission);
      GroupsWhole(groupsMap, model.groups, g, x);
      model := model.(groups := model.groups[g := x]);
    }

    // -------------------------------------------------------------- traversals

    /** A traversal of one index whose callback refuses unregistered members. */
    method Reached(index: map<guid, Node>) returns (keys: seq<guid>)
      ensures keys == ReachedOf(index, usersMap.Keys)
    {
      var all := Ascending(index.Keys);
      var n := 0;
      while n < |all| && all[n] in usersMap
        invariant 0 <= n <= Reach(all, usersMap.Keys)
      {
        n := n + 1;
      }
      keys := all[..n];
    }

    /** `traverse_all_members`: the managers, then the other members. */
    method Traverse(g: GroupInfo) returns (keys: seq<guid>, nodes: seq<Node>)
      requires g.Valid()
      ensures keys == Visited(g.State(), usersMap.Keys) && |nodes| == |keys|
      ensures forall i :: 0 <= i < |keys| ==> keys[i] in usersMap
      ensures forall i :: 0 <= i < |keys| ==>
        nodes[i] == VisitedNode(g.State(), usersMap.Keys, i) && nodes[i] in g.membersList
    {
      hide ReachedOf;
      var a := Reached(g.managersMap);
      var b := Reached(g.membersMap);
      VisitedFacts(g.State(), usersMap.Keys);
      hide Distinct;
      var managers, members := g.managersMap, g.membersMap;
      keys := a + b;
      assert keys == Visited(g.State(), usersMap.Keys);
      nodes := seq(|keys|, i requires 0 <= i < |keys| => if i < |a| then managers[keys[i]] else members[keys[i]]);
    }

    method SendTo(keys: seq<guid>, own: bool, fd: int, data: seq<byte>)
      requires Valid()
      modifies this`sent, this`model
      ensures Valid()
      ensures model == old(model).(sent := old(model).sent + Deliver(keys, |keys|, old(model).userConn, own, fd, data))
    {
      hide Valid;
      SameUsers();
      var i := 0;
      while i < |keys|
        invariant 0 <= i <= |keys| && Valid() && userConnMap == model.userConn
        invariant model == old(model).(sent := old(model).sent + Deliver(keys, i, old(model).userConn, own, fd, data))
      {
        if keys[i] in userConnMap {
          SendMsg(if own then fd else userConnMap[keys[i]], data);
        }
        i := i + 1;
      }
    }

    /** The packet with the group's information, which is not made when the group does not fit. */
    method GroupPacket(g: GroupInfo) returns (packet: seq<byte>)
      requires g.Valid() && GroupSane(g.State()) && sendBuf.Length == MAXBUFSIZE
      modifies sendBuf
      ensures packet == if GroupLength(g.State()) > PAYLOAD_MAX then [] else InfoPacket(g.State())
    {
      hide EncodeGroup, HeadBytes, Points, Distinct, Apart, LogCounted, Splice;
      ghost var was := sendBuf[..];
      var subLength := GroupToData(g, sendBuf, HEAD_LENGTH, MAXBUFSIZE - HEAD_LENGTH);
      if subLength == 0 {
        return [];
      }
      var head := HeadBytes(Head(0, GROUP_INFO_ACK, subLength));
      Store(sendBuf, 0, head);
      BehindHead(was, head, EncodeGroup(g.State()));
      packet := sendBuf[..HEAD_LENGTH + subLength];
    }

    /** It goes to the connected members. */
    method BroadcastGroup(g: GroupInfo, own: bool, fd: int)
      requires Valid() && g.Valid() && GroupSane(g.State())
      modifies this`sent, this`model, sendBuf
      ensures Valid() && model == Broadcast(old(model), g.State(), own, fd)
    {
      hide Valid, EncodeGroup, Frame, Linked, LogCounted, Visited, Deliver;
      SameUsers();
      var packet := GroupPacket(g);
      if packet == [] {
        return;
      }
      var keys, _ := Traverse(g);
      SendTo(keys, own, fd, packet);
    }

    // -------------------------------------------------------------- sessions

    /** `user_conn_map[u] = fd; conn_user_map[fd] = u;` */
    method Bind(u: guid, fd: int)
      requires Valid()
      modifies this`connUserMap, this`userConnMap, this`model
      ensures Valid()
      ensures model == old(model).(userConn := old(model).userConn[u := fd], connUser := old(model).connUser[fd := u])
    {
      hide GroupsSane, UsersSane, Indexed;
      userConnMap := userConnMap[u := fd];
      connUserMap := connUserMap[fd := u];
      model := model.(userConn := model.userConn[u := fd], connUser := model.connUser[fd := u]);
    }

    /** Reading `conn_user_map[fd]` with `operator[]`. */
    method UserOf(fd: int) returns (u: guid)
      requires Valid()
      modifies this`connUserMap, this`model
      ensures Valid() && model == old(model).(connUser := Bracket(old(model).connUser, fd))
      ensures u == model.connUser[fd]
    {
      hide GroupsSane, UsersSane, Indexed;
      if fd !in connUserMap {
        connUserMap := connUserMap[fd := 0];
      }
      model := model.(connUser := connUserMap);
      u := connUserMap[fd];
    }

    /** Reading `user_conn_map[u]`. */
    method ConnOf(u: guid) returns (fd: int)
      requires Valid()
      modifies this`userConnMap, this`model
      ensures Valid() && model == old(model).(userConn := Bracket(old(model).userConn, u))
      ensures fd == model.userConn[u]
    {
      hide GroupsSane, UsersSane, Indexed;
      if u !in userConnMap {
        userConnMap := userConnMap[u := 0];
      }
      model := model.(userConn := userConnMap);
      fd := userConnMap[u];
    }

    method Erase(fd: int, u: guid)
      requires Valid()
      modifies this`connUserMap, this`userConnMap, this`model
      ensures Valid()
      ensures model == old(model).(connUser := old(model).connUser - {fd}, userConn := old(model).userConn - {u})
    {
      hide GroupsSane, UsersSane, Indexed;
      connUserMap := connUserMap - {fd};
      userConnMap := userConnMap - {u};
      model := model.(connUser := connUserMap, userConn := userConnMap);
    }

    method OnAcountLogin(data: seq<byte>, now: int, fd: int) returns (index: nat)
      requires Valid()
      modifies this`userConnMap, this`connUserMap, this`sent, this`model, usersMap.Values
      ensures Valid() && index == Fixed(80, data)
      ensures model == if index == 0 then old(model) else AcountLogin(old(model), data[..16], data[16..80], now, fd)
    {
      index := Fixed(80, data);
      if index == 0 {
        return;
      }
      hide Valid, Out, UserAckBytes, LoggedIn;
      SameUsers();
      var phone, password := data[..16], data[16..80];
      var err := OnLogin(phone, password);
      var u: guid := 0;
      if err == ERROR_OK {
        u := phoneHashMap[hash.apply(phone)];
        RecordLogin(u, now);
      }
      Bind(u, fd);
      SendMsg(fd, UserAckBytes(ACOUNT_LOGIN_ACK, err, u));
    }

    /** The keys and fields of the abstract state are the object's own. */
    lemma SameUsers()
      requires Valid()
      ensures model.users.Keys == usersMap.Keys && model.groups.Keys == groupsMap.Keys && Fields()
      ensures sendBuf.Length == MAXBUFSIZE && Sane(model)
    {
    }

    method OnAcountLogout(data: seq<byte>, now: int, fd: int) returns (index: nat)
      requires Valid()
      modifies this`userConnMap, this`connUserMap, this`sent, this`model, usersMap.Values
      ensures Valid() && index == Fixed(4, data)
      ensures model == if index == 0 then old(model) else AcountLogout(old(model), Get32(data, 0), now, fd)
    {
      hide Get32, Valid, LoggedOut, Ack;
      index := Fixed(4, data);
      if index == 0 {
        return;
      }
      var user := Get32(data, 0);
      SameUsers();
      var bound := UserOf(fd);
      if user != bound {
        SendClientAck(ACOUNT_LOGOUT_ACK, ERROR_CANT_LOGOUT_OTHER, fd);
        return;
      }
      if user in usersMap {
        RecordLogout(user, now);
      }
      var conn := ConnOf(user);
      Erase(conn, user);
      SendClientAck(ACOUNT_LOGOUT_ACK, ERROR_OK, fd);
    }

    /** The close step of the read thread. */
    method OnClose(fd: int)
      requires Valid()
      modifies this`userConnMap, this`connUserMap, this`model, usersMap.Values
      ensures Valid() && model == Close(old(model), fd)
    {
      hide Valid, WentOffline;
      SameUsers();
      var u := UserOf(fd);
      if u in usersMap {
        RecordOffline(u);
      }
      Erase(fd, u);
    }

    method OnAcountCanReg(data: seq<byte>, fd: int) returns (index: nat)
      requires Valid()
      modifies this`sent, this`model
      ensures Valid() && index == Fixed(16, data)
      ensures model == if index == 0 then old(model)
        else Ack(old(model), ACOUNT_CAN_REG_ACK, PhoneUnique(old(model), data[..16]), fd)
    {
      hide Valid, Ack, PhoneUnique;
      index := Fixed(16, data);
      if index == 0 {
        return;
      }
      var err := OnPhoneUnique(data[..16]);
      SendClientAck(ACOUNT_CAN_REG_ACK, err, fd);
    }

    // -------------------------------------------------------------- messages

    method Enqueue(m: Msg)
      requires Valid()
      modifies this`msgList, this`model
      ensures Valid() && model == old(model).(queue := old(model).queue + [m])
    {
      hide GroupsSane, UsersSane, Indexed;
      msgList := msgList + [m];
      model := model.(queue := msgList);
    }

    method PopFront()
      requires Valid() && msgList != []
      modifies this`msgList, this`model
      ensures Valid() && model == old(model).(queue := old(model).queue[1..])
    {
      hide GroupsSane, UsersSane, Indexed;
      msgList := msgList[1..];
      model := model.(queue := msgList);
    }

    method OnMsgSend(sender: guid, data: seq<byte>, fd: int) returns (index: nat)
      requires Valid()
      modifies this`msgList, this`sent, this`model
      ensures Valid() && index == DecodeMsg(data).1
      ensures model == if index == 0 then old(model) else MsgSend(old(model), sender, DecodeMsg(data).0, fd)
    {
      hide Valid, Ack, DecodeMsg;
      SameUsers();
      var (m, i) := DecodeMsg(data);
      index := i;
      if index == 0 {
        return;
      }
      if fd !in connUserMap || connUserMap[fd] != sender {
        SendClientAck(MSG_SEND_ACK, ERROR_USER_NOT_EXIST_OR_SEND_GUID, fd);
      } else {
        Enqueue(m);
      }
    }

    // -------------------------------------------------------------- groups

    /** What an iterator into `groups` or `users` points to. */
    lemma GroupAt(g: guid)
      requires Valid() && g in groupsMap
      ensures g in model.groups && groupsMap[g].State() == model.groups[g]
      ensures GroupSane(model.groups[g]) && groupsMap[g].Valid() && model.groups[g].id == g
    {
      hide Linked, LogCounted;
    }

    lemma UserAt(u: guid)
      requires Valid() && u in usersMap
      ensures u in model.users && usersMap[u].State() == model.users[u] && model.users[u].id == u
    {
    }

    method OnGroupModify(data: seq<byte>, now: int, fd: int) returns (index: nat)
      requires Valid()
      requires 14 <= |data| && Get32(data, 0) in model.groups ==> Roomy(model.groups[Get32(data, 0)])
      modifies this`sent, this`model, usersMap.Values, groupsMap.Values, sendBuf
      ensures Valid() && index == Fixed(14, data)
      ensures model == if index == 0 then old(model)
        else GroupModify(old(model), Get32(data, 0), Get32(data, 4), Get32(data, 8), data[12], data[13], now, fd)
    {
      hide Valid, Get32, Ack, Roomy, AddToGroup, RemoveFromGroup, GroupSane;
      index := Fixed(14, data);
      if index == 0 {
        return;
      }
      SameUsers();
      var group, operator, target, kind := Get32(data, 0), Get32(data, 4), Get32(data, 8), data[12];
      if kind > MODIFY_TYPE_MAX {
        SendClientAck(GROUP_MODIFY_ACK, ERROR_GROUP_MODIFY_TYPE, fd);
        return;
      }
      if group !in groupsMap {
        SendClientAck(GROUP_MODIFY_ACK, ERROR_GROUP_NOT_EXIST, fd);
        return;
      }
      if operator != 0 && operator !in usersMap {
        SendClientAck(GROUP_MODIFY_ACK, ERROR_GROUP_OPERATOR_NOT_EXIST, fd);
        return;
      }
      if target != 0 && target !in usersMap {
        SendClientAck(GROUP_MODIFY_ACK, ERROR_GROUP_TARGET_NOT_EXIST, fd);
        return;
      }
      if operator != 0 && target != 0 {
        ModifyGroup(group, operator, target, kind, data[13], now, fd);
      }
      SendClientAck(GROUP_MODIFY_ACK, ERROR_OK, fd);
    }

    /** The switch on the kind of modification. */
    method ModifyGroup(group: guid, operator: guid, target: guid, kind: u8, permission: u8, now: int, fd: int)
      requires Valid() && group in groupsMap && target in usersMap && Roomy(model.groups[group])
      modifies this`sent, this`model, usersMap[target], groupsMap[group], sendBuf
      ensures Valid()
      ensures model == if kind == MEMBER_ADD then AddToGroup(old(model), group, operator, target, now, fd)
        else if kind == MEMBER_DELETE then RemoveFromGroup(old(model), group, operator, target)
        else old(model).(groups := old(model).groups[group := ChangeRole(old(model).groups[group], operator,
          target, kind, permission)])
    {
      hide Valid, ChangePermissions, AddManager, DeleteManager;
      hide CanAdd, CanDelete, CanPromote, CanDemote, Join, Leave, Broadcast, Linked, LogCounted, Roomy;
      SameUsers();
      GroupAt(group);
      UserAt(target);
      if kind == MEMBER_ADD {
        var ok := AddTo(group, operator, target, usersMap[target].iconGuid, usersMap[target].name);
        if ok {
          JoinGroup(target, group, now);
          GroupAt(group);
          BroadcastGroup(groupsMap[group], true, fd);
        } else {
          assert old(model).groups[group := old(model).groups[group]] == old(model).groups;
        }
      } else if kind == MEMBER_DELETE {
        var ok := DeleteFrom(group, operator, target);
        if ok {
          LeaveGroup(target, group);
        }
      } else if kind == MEMBER_SET_PERMISSION {
        var _ := SetPermission(group, operator, target, permission);
      } else if kind == MANAGER_ADD {
        var _ := Promote(group, operator, target);
      } else if kind == MANAGER_DELETE {
        var _ := Demote(group, operator, target);
      }
    }

    /** `groups.erase(itor); groups_map.erase(itor);` */
    method EraseGroup(g: guid)
      requires Valid() && g in groupsMap
      modifies this`groups, this`groupsMap, this`model
      ensures Valid() && groupsMap == old(groupsMap) - {g}
      ensures model == old(model).(groups := old(model).groups - {g})
    {
      hide GroupSane, UsersSane, UsersMatch, GroupsMatch, Covers;
      GroupsRest(groupsMap, model.groups, g);
      WithoutFacts(groups, groupsMap[g]);
      groups := Without(groups, groupsMap[g]);
      groupsMap := groupsMap - {g};
      model := model.(groups := model.groups - {g});
    }

    /** Every member reached leaves the group. */
    method LeaveAllMembers(keys: seq<guid>, g: guid)
      requires Valid() && forall i :: 0 <= i < |keys| ==> keys[i] in usersMap
      modifies this`model, usersMap.Values
      ensures Valid() && model == old(model).(users := LeaveAll(old(model).users, keys, g))
    {
      hide Valid, LeaveAll;
      SameUsers();
      ghost var us := model.users;
      LeaveNobody(us, g);
      var i := 0;
      while i < |keys|
        invariant 0 <= i <= |keys| && Valid() && model == old(model).(users := LeaveAll(us, keys[..i], g))
      {
        LeaveNext(us, keys, i, g);
        LeaveGroup(keys[i], g);
        i := i + 1;
      }
      assert keys[..|keys|] == keys;
    }

    method OnGroupDelete(data: seq<byte>, fd: int) returns (index: nat)
      requires Valid()
      modifies this`groups, this`groupsMap, this`sent, this`model, usersMap.Values
      ensures Valid() && index == Fixed(8, data)
      ensures model == if index == 0 then old(model) else GroupDelete(old(model), Get32(data, 0), Get32(data, 4), fd)
      ensures groupsMap.Values <= old(groupsMap.Values)
    {
      hide Valid, Get32, Ack, Visited, LeaveAll, GroupSane, Disbanded;
      index := Fixed(8, data);
      if index == 0 {
        return;
      }
      SameUsers();
      var group, operator := Get32(data, 0), Get32(data, 4);
      if group !in groupsMap {
        SendClientAck(GROUP_DELETE_ACK, ERROR_GROUP_NOT_EXIST, fd);
        return;
      }
      GroupAt(group);
      if operator != groupsMap[group].leaderGuid {
        SendClientAck(GROUP_DELETE_ACK, ERROR_GROUP_NOT_LEADER, fd);
        return;
      }
      if operator !in usersMap {
        SendClientAck(GROUP_DELETE_ACK, ERROR_GROUP_OPERATOR_NOT_EXIST, fd);
        return;
      }
      var keys, _ := Traverse(groupsMap[group]);
      LeaveAllMembers(keys, group);
      EraseGroup(group);
      CountDisbanded(operator);
      SendClientAck(GROUP_DELETE_ACK, ERROR_OK, fd);
    }

    /** One visited member of a new group: its node is filled in and the user joins. */
    method EnrollMember(info: GroupInfo, u: guid, n: Node, now: int)
      requires Valid() && info.Valid() && u in usersMap && n in info.membersList
      modifies info, this`model, usersMap[u]
      requires info !in groupsMap.Values
      ensures Valid() && info.Valid()
      ensures var g := old(info.State());
        info.State() == g.(nodes := g.nodes[n := EnrolledMember(g, g.nodes[n], old(model).users[u])])
      ensures model == old(model).(users := old(model).users[u := Join(old(model).users[u], old(info.groupGuid), now)])
    {
      hide Valid, Join, Points, Apart, Distinct;
      UserAt(u);
      var m := info.nodes[n];
      m := m.(groupGuid := info.groupGuid, iconGuid := usersMap[u].iconGuid, msgCount := 0,
        permissions := SEND_TO_GROUP,
              name := usersMap[u].name, job := if info.leaderGuid == m.userGuid then JOB_LEADER else JOB_MEMBER);
      info.SetNode(n, m);
      JoinGroup(u, info.groupGuid, now);
    }

    /** The traversal of a new group. */
    method EnrollAll(info: GroupInfo, now: int)
      requires Valid() && info.Valid() && info !in groupsMap.Values
      modifies info, this`model, usersMap.Values
      ensures Valid() && info.Valid()
      ensures var g, us := old(info.State()), old(model).users;
        var keys := Visited(g, us.Keys);
        info.State() == Enroll(g, us, |keys|) && model == old(model).(users := JoinAll(us, keys, g.id, now))
    {
      hide Valid, JoinAll, Visited, EnrolledMember, Linked, Join, VisitedNode, Enroll;
      SameUsers();
      ghost var g, us := info.State(), model.users;
      JoinNobody(us, g.id, now);
      EnrollNobody(g, us);
      var keys, nodes := Traverse(info);
      var i := 0;
      while i < |keys|
        invariant 0 <= i <= |keys| && Valid() && info.Valid() && info.State() == Enroll(g, us, i)
        invariant model == old(model).(users := JoinAll(us, keys[..i], g.id, now))
      {
        JoinNext(us, keys, i, g.id, now);
        EnrollNext(g, us, i, model.users[keys[i]]);
        EnrollMember(info, keys[i], nodes[i], now);
        i := i + 1;
      }
      assert keys[..|keys|] == keys;
    }

    /** `groups.emplace_back(info); groups_map[guid] = std::prev(groups.end());` */
    method AppendGroup(info: GroupInfo)
      requires Valid() && GroupSane(info.State())
      modifies this`groups, this`groupsMap, this`model
      ensures Valid()
      ensures forall g <- groupsMap :: groupsMap[g] in old(groupsMap.Values) || fresh(groupsMap[g])
      ensures model == old(model).(groups := old(model).groups[info.groupGuid := info.State()])
    {
      hide Linked, LogCounted, GroupsSane, UsersSane, UsersMatch, GroupsMatch, Holds, Covers;
      var copy := new GroupInfo.CopyOf(info);
      HoldsAppend(groups, groupsMap, info.groupGuid, copy);
      GroupsPut(groupsMap, model.groups, info.groupGuid, copy);
      PutGroup(model.groups, info.groupGuid, info.State());
      groups := groups + [copy];
      groupsMap := groupsMap[info.groupGuid := copy];
      model := model.(groups := model.groups[info.groupGuid := info.State()]);
    }

    method OnGroupAdd(data: seq<byte>, now: int, fd: int) returns (index: nat)
      requires Valid()
      modifies this`groups, this`groupsMap, this`sent, this`model, usersMap.Values
      ensures Valid()
      ensures forall g <- groupsMap :: groupsMap[g] in old(groupsMap.Values) || fresh(groupsMap[g])
      ensures index == DecodeGroup(1, data).1
      ensures index != 0 ==> GroupSane(DecodeGroup(1, data).0)
      ensures model == if index == 0 then old(model) else GroupAdd(old(model), DecodeGroup(1, data).0, now, fd)
    {
      hide Valid, DecodeGroup, GroupSane, GroupAdd;
      var info := new GroupInfo(0);
      SameUsers();
      index := GroupFromData(info, 1, data);
      DecodedSane(1, data);
      if index != 0 {
        AddGroup(info, now, fd);
      }
    }

    method AddGroup(info: GroupInfo, now: int, fd: int)
      requires Valid() && GroupSane(info.State()) && info.Valid() && info !in groupsMap.Values
      modifies this`groups, this`groupsMap, this`sent, this`model, info, usersMap.Values
      ensures Valid()
      ensures forall g <- groupsMap :: groupsMap[g] in old(groupsMap.Values) || fresh(groupsMap[g])
      ensures model == GroupAdd(old(model), old(info.State()), now, fd)
    {
      hide Valid, Ack, Visited, JoinAll, Enroll, GroupSane, Founded;
      SameUsers();
      var leader := info.leaderGuid;
      if leader !in usersMap {
        SendClientAck(GROUP_ADD_ACK, ERROR_GROUP_OPERATOR_NOT_EXIST, fd);
        return;
      }
      UserAt(leader);
      if !usersMap[leader].CanCreateGroup() {
        SendClientAck(GROUP_ADD_ACK, ERROR_CREATE_GROUP_MAX, fd);
        return;
      }
      EnrollSane(info.State(), model.users, |Visited(info.State(), model.users.Keys)|);
      EnrollAll(info, now);
      AppendGroup(info);
      CountFounded(leader);
      SendClientAck(GROUP_ADD_ACK, ERROR_OK, fd);
    }

    // -------------------------------------------------------------- message lists

    /** Appends a group's stored messages, in order. */
    static method AppendLog(ack: ClientMsgListAck, log: seq<Msg>)
      requires ack.Valid() && ack.vecSize == 0 && ack.msgList == [] && |log| < U32_LIMIT
      modifies ack
      ensures ack.Valid() && ack.vecSize == 0 && ack.msgList == log
    {
      var i := 0;
      while i < |log|
        invariant 0 <= i <= |log| && ack.Valid() && ack.vecSize == 0 && ack.msgList == log[..i]
      {
        ack.AppendMsg(log[i]);
        i := i + 1;
      }
    }

    /** `on_msg_list_req`; the list of a user's private messages is not modelled. */
    method OnMsgListReq(data: seq<byte>, fd: int) returns (index: nat)
      requires Valid() && (5 <= |data| ==> data[4] != 2)
      modifies this`sent, this`model, sendBuf
      ensures Valid() && index == Fixed(5, data)
      ensures model == if index == 0 || data[4] != 1 then old(model) else MsgListReq(old(model), Get32(data, 0), fd)
    {
      hide Valid, Get32, Ack, Linked;
      index := Fixed(5, data);
      if index == 0 || data[4] != 1 {
        return;
      }
      SameUsers();
      var group := Get32(data, 0);
      if group !in groupsMap {
        SendClientAck(CLIENT_ACK_SEND, ERROR_MSG_LIST_REQ, fd);
        return;
      }
      GroupAt(group);
      SendList(groupsMap[group].msgList, fd);
    }

    method SendList(log: seq<Msg>, fd: int)
      requires Valid() && |log| <= LOG_MAX
      modifies this`sent, this`model, sendBuf
      ensures Valid() && model == Out(old(model), fd, Frame(0, CLIENT_MSG_LIST_ACK, Encode(log, PAYLOAD_MAX)))
    {
      hide Valid, Encode, Put32, HeadBytes;
      SameUsers();
      var ack := new ClientMsgListAck();
      AppendLog(ack, log);
      var subLength, _ := ack.MakePkg(sendBuf, 0);
      assert sendBuf[..HEAD_LENGTH + subLength] == Frame(0, CLIENT_MSG_LIST_ACK, Encode(log, PAYLOAD_MAX));
      SendMsg(fd, sendBuf[..HEAD_LENGTH + subLength]);
    }

    // -------------------------------------------------------------- information requests

    method OnGroupInfoReq(data: seq<byte>, fd: int) returns (index: nat)
      requires Valid()
      modifies this`sent, this`model, sendBuf
      ensures Valid() && index == Fixed(4, data)
      ensures model == if index == 0 then old(model) else GroupInfoReq(old(model), Get32(data, 0), fd)
    {
      hide Valid, Get32, InfoPacket, GroupSane;
      index := Fixed(4, data);
      if index == 0 {
        return;
      }
      SameUsers();
      var group := Get32(data, 0);
      if group in groupsMap {
        GroupAt(group);
        var packet := GroupPacket(groupsMap[group]);
        if packet != [] {
          SendMsg(fd, packet);
        }
      }
    }

    method OnUserBriefInfoReq(data: seq<byte>, fd: int) returns (index: nat)
      requires Valid()
      modifies this`sent, this`model
      ensures Valid() && index == Fixed(4, data)
      ensures model == if index == 0 then old(model) else BriefInfoReq(old(model), Get32(data, 0), fd)
    {
      hide Valid, Get32, Put32;
      index := Fixed(4, data);
      if index == 0 {
        return;
      }
      SameUsers();
      var user := Get32(data, 0);
      if user in usersMap {
        UserAt(user);
        var o := usersMap[user];
        var info := Put32(o.userGuid) + Put32(o.iconGuid) + o.name + [o.onlineStatus];
        SendMsg(fd, Frame(0, USER_INFO_BRIEF_NOTIFY, info));
      }
    }

    // -------------------------------------------------------------- account records

    /** `users.erase(itor); users_map.erase(itor);` */
    method EraseUser(u: guid)
      requires Valid() && u in usersMap
      modifies this`users, this`usersMap, this`model
      ensures Valid() && usersMap == old(usersMap) - {u}
      ensures model == old(model).(users := old(model).users - {u})
    {
      hide GroupSane, GroupsSane, UsersSane, UsersMatch, GroupsMatch, Holds, Covers;
      UsersRest(usersMap, model.users, u);
      WithoutListed(users, usersMap, u);
      users := Without(users, usersMap[u]);
      usersMap := usersMap - {u};
      UsersSaneLess(model.users, u);
      model := model.(users := model.users - {u});
    }

    /** `users.emplace_back(user); users_map[guid] = std::prev(users.end());` */
    method AppendUser(user: UserInfo)
      requires Valid() && user.userGuid !in usersMap
      modifies this`users, this`usersMap, this`model
      ensures Valid() && user.userGuid in usersMap && fresh(usersMap[user.userGuid])
      ensures usersMap == old(usersMap)[user.userGuid := usersMap[user.userGuid]]
      ensures model == old(model).(users := old(model).users[user.userGuid := user.State()])
    {
      hide GroupSane, GroupsSane, UsersSane, UsersMatch, GroupsMatch, Holds, Covers;
      var copy := new UserInfo.CopyOf(user);
      HoldsAppend(users, usersMap, user.userGuid, copy);
      CoversAppend(usersMap, users, user.userGuid, copy);
      UsersPut(usersMap, model.users, user.userGuid, copy);
      PutUser(model.users, user.userGuid, user.State());
      users := users + [copy];
      usersMap := usersMap[user.userGuid := copy];
      model := model.(users := model.users[user.userGuid := user.State()]);
    }

    /** `phone_hash_map[hash] = guid` and the counter. */
    method IndexPhone(h: int, u: guid)
      requires Valid()
      modifies this`phoneHashMap, this`model
      ensures Valid() && model == old(model).(phones := old(model).phones[h := u])
    {
      hide GroupsSane, UsersSane, Indexed;
      phoneHashMap := phoneHashMap[h := u];
      model := model.(phones := phoneHashMap);
    }

    method ErasePhone(h: int)
      requires Valid()
      modifies this`phoneHashMap, this`model
      ensures Valid() && model == old(model).(phones := old(model).phones - {h})
    {
      hide GroupsSane, UsersSane, Indexed;
      phoneHashMap := phoneHashMap - {h};
      model := model.(phones := phoneHashMap);
    }

    method NextUserGuid()
      requires Valid()
      modifies this`globalUserGuid, this`model
      ensures Valid() && model == old(model).(lastUser := Inc32(old(model).lastUser))
    {
      hide GroupsSane, UsersSane, Indexed, Inc32;
      globalUserGuid := Inc32(globalUserGuid);
      model := model.(lastUser := globalUserGuid);
    }

    // -------------------------------------------------------------- registration

    /** The list and map changes of a registration. */
    method Register(user: UserInfo)
      requires Valid()
      modifies this`users, this`usersMap, this`model
      ensures Valid() && user.userGuid in usersMap && fresh(usersMap[user.userGuid])
      ensures usersMap == old(usersMap)[user.userGuid := usersMap[user.userGuid]]
      ensures model == old(model).(users := old(model).users[user.userGuid := user.State()])
    {
      hide Valid;
      SameUsers();
      if user.userGuid in usersMap {
        EraseUser(user.userGuid);
      }
      AppendUser(user);
    }

    /** A new user enters the public room. */
    method EnterRoom(u: guid)
      requires Valid() && ROOM in groupsMap && u in usersMap && Roomy(model.groups[ROOM])
      modifies groupsMap[ROOM], this`model
      ensures Valid()
      ensures var was, x := old(model).groups[ROOM], old(model).users[u];
        var room := was.(leader := if |old(model).users| == 1 then u else was.leader);
        model == old(model).(groups := old(model).groups[ROOM := AddMember(room, 0, u, x.icon, x.name)])
    {
      hide Valid, AddMember, Linked, LogCounted;
      SameUsers();
      UserAt(u);
      SameSize();
      if |usersMap| == 1 {
        SetLeader(ROOM, u);
      }
      var _ := AddTo(ROOM, 0, u, usersMap[u].iconGuid, usersMap[u].name);
    }

    lemma SameSize()
      requires Valid()
      ensures |usersMap| == |model.users|
    {
      assert |usersMap.Keys| == |model.users.Keys|;
    }

    method SetLeader(g: guid, u: guid)
      requires Valid() && g in groupsMap
      modifies groupsMap[g], this`model
      ensures Valid()
      ensures model == old(model).(groups := old(model).groups[g := old(model).groups[g].(leader := u)])
    {
      hide GroupsSane, UsersSane, UsersMatch, GroupsMatch, Holds, Covers, Linked, LogCounted;
      GroupsRest(groupsMap, model.groups, g);
      LeaderSane(model.groups[g], u);
      groupsMap[g].SetLeaderGuid(u);
      ghost var x := model.groups[g].(leader := u);
      GroupsWhole(groupsMap, model.groups, g, x);
      model := model.(groups := model.groups[g := x]);
    }

    method OnAcountAdd(data: seq<byte>, now: int, fd: int) returns (index: nat)
      requires Valid()
      requires var (user, index) := DecodeUser(model.lastUser, now, model.hash, data);
        index != 0 ==> Defined(model, EAcountAdd(user, now, fd))
      modifies this`users, this`usersMap, this`phoneHashMap, this`globalUserGuid, this`sent, this`model,
        groupsMap.Values, sendBuf
      ensures Valid()
      ensures forall u <- usersMap :: usersMap[u] in old(usersMap.Values) || fresh(usersMap[u])
      ensures index == DecodeUser(old(model).lastUser, now, old(model).hash, data).1
      ensures model == if index == 0 then old(model)
        else AcountAdd(old(model), DecodeUser(old(model).lastUser, now, old(model).hash, data).0, now, fd)
    {
      hide Valid, DecodeUser, AcountAdd, Roomy, Sane;
      SameUsers();
      var user := new UserInfo();
      index := user.FromData(globalUserGuid, now, hash, data);
      if index != 0 {
        DecodedGuid(globalUserGuid, now, hash, data);
        AddAcount(user, now, fd);
      }
    }

    method AddAcount(user: UserInfo, now: int, fd: int)
      requires Valid() && user !in usersMap.Values && user.userGuid == Registrant(model, user.State()).id
      requires Defined(model, EAcountAdd(user.State(), now, fd))
      modifies this`users, this`usersMap, this`phoneHashMap, this`globalUserGuid, this`sent, this`model, user,
        groupsMap.Values, sendBuf
      ensures Valid()
      ensures forall u <- usersMap :: usersMap[u] in old(usersMap.Values) || fresh(usersMap[u])
      ensures model == AcountAdd(old(model), old(user.State()), now, fd)
    {
      hide Valid, UserAckBytes, Broadcast, Out, GroupSane, Roomy, Installed, GroupsSane, UsersSane;
      SameUsers();
      var err := OnPhoneUnique(user.phone);
      if err != ERROR_OK {
        SendMsg(fd, UserAckBytes(ACOUNT_ADD_ACK, err, 0));
        return;
      }
      InstalledIs(model, user.State(), now, fd);
      user.SetRegTime(now);
      user.OnSetOnlineStatus(STATUS_ON_LINE);
      Install(user);
      GroupAt(ROOM);
      BroadcastGroup(groupsMap[ROOM], false, fd);
      SendMsg(fd, UserAckBytes(ACOUNT_ADD_ACK, ERROR_OK, user.userGuid));
    }

    method Install(user: UserInfo)
      requires Valid() && user !in usersMap.Values
      requires ROOM in groupsMap && Roomy(model.groups[ROOM])
      modifies this`users, this`usersMap, this`globalUserGuid, this`phoneHashMap, this`model, groupsMap[ROOM]
      ensures Valid()
      ensures forall u <- usersMap :: usersMap[u] in old(usersMap.Values) || fresh(usersMap[u])
      ensures model == Installed(old(model), user.State())
    {
      hide Valid, AddMember, Roomy, Inc32;
      SameUsers();
      var u := user.userGuid;
      Register(user);
      NextUserGuid();
      UserAt(u);
      IndexPhone(hash.apply(usersMap[u].phone), u);
      EnterRoom(u);
    }

    /** The joined groups of a modified user are empty, so no group is touched. */
    method OnAcountModify(data: seq<byte>, now: int, fd: int) returns (index: nat)
      requires Valid()
      requires var (user, index) := DecodeUser(model.lastUser, now, model.hash, data);
        index != 0 ==> Defined(model, EAcountModify(user, fd))
      modifies this`users, this`usersMap, this`phoneHashMap, this`sent, this`model
      ensures Valid()
      ensures forall u <- usersMap :: usersMap[u] in old(usersMap.Values) || fresh(usersMap[u])
      ensures index == DecodeUser(old(model).lastUser, now, old(model).hash, data).1
      ensures model == if index == 0 then old(model)
        else AcountModify(old(model), DecodeUser(old(model).lastUser, now, old(model).hash, data).0, fd)
    {
      hide Valid, DecodeUser, Ack, Sane, Inc32;
      SameUsers();
      var user := new UserInfo();
      index := user.FromData(globalUserGuid, now, hash, data);
      if index == 0 {
        return;
      }
      DecodedGuid(globalUserGuid, now, hash, data);
      if user.userGuid != Inc32(globalUserGuid) {
        ReplaceAcount(user, fd);
      }
    }

    method ReplaceAcount(user: UserInfo, fd: int)
      requires Valid() && user !in usersMap.Values && user.userGuid in usersMap
        && user.userGuid != Inc32(globalUserGuid)
      requires user.userGuid == Registrant(model, user.State()).id
      modifies this`users, this`usersMap, this`phoneHashMap, this`sent, this`model
      ensures Valid()
      ensures forall u <- usersMap :: usersMap[u] in old(usersMap.Values) || fresh(usersMap[u])
      ensures model == AcountModify(old(model), user.State(), fd)
    {
      hide Valid, Ack, Sane, Inc32;
      SameUsers();
      var u := user.userGuid;
      UserAt(u);
      ErasePhone(hash.apply(usersMap[u].phone));
      Register(user);
      UserAt(u);
      IndexPhone(hash.apply(usersMap[u].phone), u);
      SendClientAck(ACOUNT_MODIFY_ACK, ERROR_OK, fd);
    }

    // -------------------------------------------------------------- deletion

    /** One joined group of a deleted user: demoted or, failing that, removed. */
    method ExpelOne(g: guid, user: guid)
      requires Valid() && g in groupsMap
      modifies groupsMap[g], this`model
      ensures Valid()
      ensures model == old(model).(groups := old(model).groups[g := Expel(old(model).groups[g], user)])
    {
      hide Valid, DeleteMember, CanDelete, Linked, LogCounted;
      GroupAt(g);
      var leader := groupsMap[g].leaderGuid;
      var ok := Demote(g, leader, user);
      if !ok {
        ok := DeleteFrom(g, leader, user);
      }
    }

    method ExpelFromGroups(user: guid)
      requires Valid() && user in usersMap
      modifies groupsMap.Values, this`model
      ensures Valid() && model == old(model).(groups := ExpelAll(old(model), user))
    {
      hide Valid, Expel, ExpelSome, GroupSane;
      SameUsers();
      UserAt(user);
      ghost var gs := model.groups;
      var keys := Ascending(usersMap[user].joinGroups.Keys);
      AscendingFacts(usersMap[user].joinGroups.Keys);
      ExpelNobody(gs, user);
      var i := 0;
      while i < |keys|
        invariant 0 <= i <= |keys| && Valid() && model == old(model).(groups := ExpelSome(gs, keys[..i], user))
      {
        ExpelNext(gs, keys, i, user);
        if keys[i] in groupsMap {
          ExpelOne(keys[i], user);
        }
        i := i + 1;
      }
      assert keys[..|keys|] == keys;
      ExpelEverywhere(old(model), keys, user);
    }

    method LeaveRoom(user: guid)
      requires Valid() && ROOM in groupsMap
      modifies groupsMap[ROOM], this`model
      ensures Valid()
      ensures model == old(model).(groups := old(model).groups[ROOM := ExpelFromRoom(old(model).groups[ROOM], user)])
    {
      hide Valid, DeleteMember, DeleteManager, Linked, LogCounted;
      GroupAt(ROOM);
      var leader := groupsMap[ROOM].leaderGuid;
      SameLeader(model.groups[ROOM], leader, user);
      var _ := Demote(ROOM, leader, user);
      GroupAt(ROOM);
      var _ := DeleteFrom(ROOM, groupsMap[ROOM].leaderGuid, user);
    }

    method OnAcountDelete(data: seq<byte>, fd: int) returns (index: nat)
      requires Valid()
      requires 4 <= |data| && Get32(data, 0) == Bracket(model.connUser, fd)[fd] ==> ROOM in groupsMap
      modifies this`users, this`usersMap, this`phoneHashMap, this`userConnMap, this`connUserMap, this`sent, this`model,
               groupsMap.Values, sendBuf
      ensures Valid() && usersMap.Values <= old(usersMap.Values) && index == Fixed(4, data)
      ensures model == if index == 0 then old(model) else AcountDelete(old(model), Get32(data, 0), fd)
    {
      hide Valid, Get32, Ack, Expel, ExpelAll, ExpelFromRoom, GroupSane, Broadcast, Bracket;
      index := Fixed(4, data);
      if index == 0 {
        return;
      }
      SameUsers();
      var user := Get32(data, 0);
      var bound := UserOf(fd);
      if user != bound {
        SendClientAck(ACOUNT_DELETE_ACK, ERROR_CANT_DELETE_OTHER, fd);
        return;
      }
      DropUser(user);
      var conn := ConnOf(user);
      Erase(conn, user);
      LeaveRoom(user);
      GroupAt(ROOM);
      BroadcastGroup(groupsMap[ROOM], true, fd);
      SendClientAck(ACOUNT_DELETE_ACK, ERROR_OK, fd);
    }

    method DropUser(user: guid)
      requires Valid()
      modifies this`users, this`usersMap, this`phoneHashMap, this`model, groupsMap.Values
      ensures Valid() && usersMap.Values <= old(usersMap.Values) && model == Unregister(old(model), user)
    {
      hide Valid, ExpelAll, GroupSane;
      SameUsers();
      if user in usersMap {
        UserAt(user);
        ExpelFromGroups(user);
        ErasePhone(hash.apply(usersMap[user].phone));
        EraseUser(user);
      }
    }

    // -------------------------------------------------------------- dispatch

    /** The group branch of the dispatch loop, for the message at the front of the queue. */
    method DispatchNext(now: int)
      requires Valid() && Defined(model, EDispatch(now))
      modifies this`userConnMap, this`msgList, this`sent, this`model, usersMap.Values, groupsMap.Values, sendBuf
      ensures Valid()
      ensures model == Dispatch(old(model), now)
    {
      hide Valid, Ack, Blocked, Fanout, Sane, GroupSane;
      SameUsers();
      var m := msgList[0];
      if m.recv in groupsMap {
        GroupAt(m.recv);
        if SenderBlocked(groupsMap[m.recv], m.send) {
          var fd := ConnOf(m.send);
          SendClientAck(MSG_SEND_ACK, ERROR_GROUP_MSG_LIMIT, fd);
        } else {
          FanoutMsg(m, now);
        }
      }
      SameUsers();
      PopFront();
    }

    predicate SenderBlocked(g: GroupInfo, sender: guid)
      requires g.Valid() && sender in Keys(g.State())
      reads g
      ensures SenderBlocked(g, sender) == Blocked(g.State().nodes[Lookup(g.State(), sender)])
    {
      var m := g.nodes[if sender in g.membersMap then g.membersMap[sender] else g.managersMap[sender]];
      m.permissions > SEND_MSG
      && ((m.permissions == LIMIT_50 && m.msgCount > 50) || (m.permissions == LIMIT_10 && m.msgCount > 10)
          || m.permissions == CANT_SEND)
    }

    method LogMsg(g: guid, m: Msg) returns (stored: Msg)
      requires Valid() && g in groupsMap
      modifies groupsMap[g], this`model
      ensures Valid() && stored == Stored(old(model).groups[g], m)
      ensures model == old(model).(groups := old(model).groups[g := AddMsg(old(model).groups[g], m)])
    {
      hide GroupsSane, UsersSane, UsersMatch, GroupsMatch, Holds, Covers, Linked, LogCounted, AddMsg;
      GroupsRest(groupsMap, model.groups, g);
      LogSane(model.groups[g], m);
      var ok;
      ok, stored := groupsMap[g].OnAddMsg(m);
      ghost var x := AddMsg(model.groups[g], m);
      GroupsWhole(groupsMap, model.groups, g, x);
      model := model.(groups := model.groups[g := x]);
    }

    /** `++info->msg_count` on the node of a visited member. */
    method CountMsg(g: guid, n: Node)
      requires Valid() && g in groupsMap && n in groupsMap[g].membersList
      modifies groupsMap[g], this`model
      ensures Valid() && 0 <= n < |old(model).groups[g].nodes|
      ensures model == old(model).(groups := old(model).groups[g := CountOne(old(model).groups[g], n)])
    {
      hide GroupsSane, UsersSane, UsersMatch, GroupsMatch, Holds, Covers, LogCounted, Points, Apart, Distinct;
      GroupsRest(groupsMap, model.groups, g);
      var o := groupsMap[g];
      var m := o.nodes[n];
      ghost var x := CountOne(model.groups[g], n);
      SameShape(model.groups[g], x);
      o.SetNode(n, m.(msgCount := (m.msgCount + 1) % 0x1_0000));
      GroupsWhole(groupsMap, model.groups, g, x);
      model := model.(groups := model.groups[g := x]);
    }

    /** The packet of a stored message, which is not made when the message does not fit. */
    method MsgPacket(stored: Msg) returns (packet: seq<byte>)
      requires sendBuf.Length == MAXBUFSIZE
      modifies sendBuf
      ensures packet == if MsgSize(stored) > PAYLOAD_MAX then []
        else Frame(stored.send, CLIENT_MSG_SEND, EncodeMsg(stored))
    {
      hide EncodeMsg, HeadBytes, Splice;
      ghost var was := sendBuf[..];
      var subLength := MsgToData(stored, sendBuf, HEAD_LENGTH, MAXBUFSIZE - HEAD_LENGTH);
      if subLength == 0 {
        return [];
      }
      var head := HeadBytes(Head(stored.send, CLIENT_MSG_SEND, subLength));
      Store(sendBuf, 0, head);
      BehindHead(was, head, EncodeMsg(stored));
      packet := sendBuf[..HEAD_LENGTH + subLength];
    }

    /** An accepted message: logged, then delivered. */
    method FanoutMsg(m: Msg, now: int)
      requires Valid() && m.recv in groupsMap
      modifies this`sent, this`model, usersMap.Values, groupsMap[m.recv], sendBuf
      ensures Valid() && model == Fanout(old(model), old(model).groups[m.recv], m, now)
    {
      hide Valid, AfterVisits, Fanout, EncodeMsg, AddMsg, GroupSane, Frame;
      SameUsers();
      GroupAt(m.recv);
      FanoutIs(model, m, now);
      var stored := LogMsg(m.recv, m);
      var packet := MsgPacket(stored);
      if packet == [] {
        return;
      }
      VisitAll(m.recv, m.send, packet, now);
    }

    /** The dispatch traversal. */
    method VisitAll(g: guid, sender: guid, packet: seq<byte>, now: int)
      requires Valid() && g in groupsMap
      modifies this`sent, this`model, usersMap.Values, groupsMap[g]
      ensures Valid()
      ensures model == AfterVisits(old(model), g, sender, packet, now,
        |Visited(old(model).groups[g], old(model).users.Keys)|)
    {
      hide Valid, AfterVisits, Visited, VisitedNode, Linked, LogCounted;
      SameUsers();
      GroupAt(g);
      ghost var s, list := model, groupsMap[g].membersList;
      AfterNone(s, g, sender, packet, now);
      var keys, nodes := Traverse(groupsMap[g]);
      var i := 0;
      while i < |keys|
        invariant 0 <= i <= |keys| && Valid() && groupsMap[g].membersList == list
        invariant model == AfterVisits(s, g, sender, packet, now, i)
      {
        AfterOneMore(s, g, sender, packet, now, i);
        VisitMember(g, sender, packet, now, keys[i], nodes[i]);
        i := i + 1;
      }
    }

    /** The callback. */
    method VisitMember(g: guid, sender: guid, packet: seq<byte>, now: int, u: guid, n: Node)
      requires Valid() && g in groupsMap && u in usersMap && n in groupsMap[g].membersList
      modifies this`sent, this`model, usersMap[u], groupsMap[g]
      ensures Valid() && groupsMap[g].membersList == old(groupsMap[g].membersList)
        && 0 <= n < |old(model).groups[g].nodes|
      ensures model == AfterVisit(old(model), g, sender, packet, now, u, n)
    {
      hide Valid, Touch, Points, Apart, Distinct, LogCounted;
      SameUsers();
      GroupAt(g);
      UserAt(u);
      TouchGroup(u, g, now);
      if u in userConnMap {
        if u == sender {
          CountMsg(g, n);
        }
        SendMsg(userConnMap[u], packet);
      }
      GroupAt(g);
    }

    // -------------------------------------------------------------- packets

    /** One packet: `data` is its payload. On success the header is consumed too. */
    method ParseMsg(head: Head, data: seq<byte>, now: int, fd: int) returns (index: nat)
      requires Valid() && Modelled(head.pkgType, data)
      requires Defined(model, Requested(model, head, data, now, fd))
      modifies this, usersMap.Values, groupsMap.Values, sendBuf
      ensures Valid()
      ensures var c := Consumed(head.pkgType, data, EnvOf(old(model), now));
        index == if c == 0 then 0 else HEAD_LENGTH + c
      ensures model == Handle(old(model), Requested(old(model), head, data, now, fd))
      ensures forall o <- usersMap.Values :: o in old(usersMap.Values) || fresh(o)
      ensures forall o <- groupsMap.Values :: o in old(groupsMap.Values) || fresh(o)
    {
      hide Valid, Consumed, Requested, Defined, Ack;
      Refusals(model, head, data, now, fd);
      index := 0;
      if head.pkgType > SERVER_MSG_TYPE_MAX {
        return;
      }
      index := ParsePayload(head, data, now, fd);
      if index == 0 {
        SendClientAck(CLIENT_ACK_SEND, ERROR_PARSE_MSG, fd);
      } else {
        index := index + HEAD_LENGTH;
      }
    }

    method ParsePayload(head: Head, data: seq<byte>, now: int, fd: int) returns (index: nat)
      requires Valid() && head.pkgType <= SERVER_MSG_TYPE_MAX && Modelled(head.pkgType, data)
      requires Defined(model, Requested(model, head, data, now, fd))
      modifies this, usersMap.Values, groupsMap.Values, sendBuf
      ensures Valid() && index == Consumed(head.pkgType, data, EnvOf(old(model), now))
      ensures model == AfterPayload(old(model), head, data, now, fd, index)
      ensures forall o <- usersMap.Values :: o in old(usersMap.Values) || fresh(o)
      ensures forall o <- groupsMap.Values :: o in old(groupsMap.Values) || fresh(o)
    {
      hide Valid, Consumed, Requested, Defined, AfterPayload;
      if head.pkgType <= ACOUNT_CAN_REG {
        index := ParseAcount(head, data, now, fd);
      } else if GROUP_ADD <= head.pkgType <= GROUP_DELETE {
        index := ParseGroup(head, data, now, fd);
      } else {
        index := ParseOther(head, data, now, fd);
      }
      forall o <- usersMap.Values
        ensures o in old(usersMap.Values) || fresh(o)
      {
        var k := KeyOf(usersMap, o);
      }
      forall o <- groupsMap.Values
        ensures o in old(groupsMap.Values) || fresh(o)
      {
        var k := KeyOf(groupsMap, o);
      }
    }

    /** What `ParseMsg` does with an accepted payload. */
    ghost function AfterPayload(s: Server, head: Head, data: seq<byte>, now: int, fd: int, index: nat): Server
      requires Defined(s, Requested(s, head, data, now, fd))
    {
      if index == 0 then s else Handle(s, Requested(s, head, data, now, fd))
    }

    method ParseAcount(head: Head, data: seq<byte>, now: int, fd: int) returns (index: nat)
      requires Valid() && head.pkgType <= ACOUNT_CAN_REG
      requires Defined(model, Requested(model, head, data, now, fd))
      modifies this`users, this`usersMap, this`phoneHashMap, this`globalUserGuid, this`connUserMap, this`userConnMap,
               this`sent, this`model, usersMap.Values, groupsMap.Values, sendBuf
      ensures Valid() && index == Consumed(head.pkgType, data, EnvOf(old(model), now))
      ensures model == AfterPayload(old(model), head, data, now, fd, index)
      ensures forall u <- usersMap :: usersMap[u] in old(usersMap.Values) || fresh(usersMap[u])
    {
      hide Valid, DecodeUser, Get32, Sane, Ack, PhoneUnique;
      hide AcountAdd, AcountModify, AcountDelete, AcountLogin, AcountLogout;
      SameUsers();
      match head.pkgType {
        case ACOUNT_ADD => index := OnAcountAdd(data, now, fd);
        case ACOUNT_MODIFY => index := OnAcountModify(data, now, fd);
        case ACOUNT_DELETE => index := OnAcountDelete(data, fd);
        case ACOUNT_LOGIN => index := OnAcountLogin(data, now, fd);
        case ACOUNT_LOGOUT => index := OnAcountLogout(data, now, fd);
        case ACOUNT_CAN_REG => index := OnAcountCanReg(data, fd);
      }
    }

    method ParseGroup(head: Head, data: seq<byte>, now: int, fd: int) returns (index: nat)
      requires Valid() && GROUP_ADD <= head.pkgType <= GROUP_DELETE
      requires Defined(model, Requested(model, head, data, now, fd))
      modifies this`groups, this`groupsMap, this`sent, this`model, usersMap.Values, groupsMap.Values, sendBuf
      ensures Valid() && index == Consumed(head.pkgType, data, EnvOf(old(model), now))
      ensures model == AfterPayload(old(model), head, data, now, fd, index)
      ensures forall g <- groupsMap :: groupsMap[g] in old(groupsMap.Values) || fresh(groupsMap[g])
    {
      hide Valid, DecodeGroup, Get32, Sane, Ack, GroupAdd, GroupModify, GroupDelete;
      SameUsers();
      match head.pkgType {
        case GROUP_ADD => index := OnGroupAdd(data, now, fd);
        case GROUP_MODIFY => index := OnGroupModify(data, now, fd);
        case GROUP_DELETE => index := OnGroupDelete(data, fd);
      }
    }

    method ParseOther(head: Head, data: seq<byte>, now: int, fd: int) returns (index: nat)
      requires Valid() && ACOUNT_CAN_REG < head.pkgType <= SERVER_MSG_TYPE_MAX
      requires !(GROUP_ADD <= head.pkgType <= GROUP_DELETE) && Modelled(head.pkgType, data)
      requires Defined(model, Requested(model, head, data, now, fd))
      modifies this`msgList, this`sent, this`model, sendBuf
      ensures Valid() && index == Consumed(head.pkgType, data, EnvOf(old(model), now))
      ensures model == AfterPayload(old(model), head, data, now, fd, index)
    {
      hide Valid, DecodeMsg, Get32, Sane, Ack, MsgSend, MsgListReq, GroupInfoReq, BriefInfoReq;
      SameUsers();
      index := 0;
      match head.pkgType {
        case GROUP_INFO_REQ => index := OnGroupInfoReq(data, fd);
        case USER_INFO_BRIEF_REQ => index := OnUserBriefInfoReq(data, fd);
        case MSG_SEND => index := OnMsgSend(head.sender, data, fd);
        case MSG_LIST_REQ => index := OnMsgListReq(data, fd);
        case _ =>
      }
    }
  }
}
