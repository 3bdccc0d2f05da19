/** The `GroupInfo` class: a member list, two maps of iterators into it, and a message list. */
module GroupInfos {
  import opened Bytes
  import opened Packets
  import opened Groups

  class GroupInfo {
    var groupGuid: guid
    var memberCount: int
    var leaderGuid: guid
    var nodes: seq<Member>
    var membersList: seq<Node>
    var managersMap: map<guid, Node>
    var membersMap: map<guid, Node>
    var msgList: seq<Msg>
    var msgLimit: int

    ghost function State(): Group
      reads this
    {
      Group(groupGuid, memberCount, leaderGuid, nodes, membersList, managersMap, membersMap, msgList, msgLimit)
    }

    ghost predicate Valid()
      reads this
    {
      Linked(State())
    }

    constructor (id: guid)
      ensures State() == NewGroup(id) && Valid()
    {
      groupGuid, memberCount, leaderGuid := id, 0, 0;
      nodes, membersList := [], [];
      managersMap, membersMap := map[], map[];
      msgList, msgLimit := [], 0;
    }

    /** The copy `std::list::emplace_back` makes, with the maps pointing into the new list. */
    constructor CopyOf(info: GroupInfo)
      requires info.Valid()
      ensures State() == info.State() && Valid()
    {
      groupGuid, memberCount, leaderGuid := info.groupGuid, info.memberCount, info.leaderGuid;
      nodes, membersList := info.nodes, info.membersList;
      managersMap, membersMap := info.managersMap, info.membersMap;
      msgList, msgLimit := info.msgList, info.msgLimit;
    }

    method SetLeaderGuid(id: guid)
      requires Valid()
      modifies this
      ensures Valid() && State() == old(State()).(leader := id)
    {
      leaderGuid := id;
    }

    /** Writes through a `shared_ptr` held by a node. */
    method SetNode(n: Node, m: Member)
      requires Valid() && n in membersList && m.userGuid == nodes[n].userGuid
      modifies this
      ensures Valid() && State() == old(State()).(nodes := old(nodes)[n := m])
    {
      nodes := nodes[n := m];
    }

    method OnAddMember(operator: guid, user: guid, icon: guid, name: Name) returns (ok: bool)
      requires Valid()
      modifies this
      ensures Valid() && ok == CanAdd(old(State()), operator, user)
      ensures State() == AddMember(old(State()), operator, user, icon, name)
    {
      LinkedAdd(State(), operator, user, icon, name);
      if operator !in managersMap && operator != 0 {
        return false;
      }
      if user in membersMap {
        return false;
      }
      var info := Member(groupGuid, user, icon, 0, SEND_TO_GROUP, JOB_MEMBER, name);
      var node := |nodes|;
      if operator == 0 && user == leaderGuid {
        info := info.(job := JOB_LEADER);
        nodes, membersList := nodes + [info], membersList + [node];
        managersMap := managersMap[user := node];
        memberCount := Inc32(memberCount);
        return true;
      }
      nodes, membersList := nodes + [info], membersList + [node];
      membersMap := membersMap[user := node];
      memberCount := Inc32(memberCount);
      return true;
    }

    method OnDeleteMember(operator: guid, user: guid) returns (ok: bool)
      requires Valid()
      modifies this
      ensures Valid() && ok == CanDelete(old(State()), operator, user)
      ensures State() == DeleteMember(old(State()), operator, user)
    {
      LinkedDelete(State(), operator, user);
      if user in managersMap {
        if operator != leaderGuid {
          return false;
        }
        membersList := Without(membersList, managersMap[user]);
        managersMap := managersMap - {user};
        memberCount := Dec32(memberCount);
        return true;
      }
      if operator !in managersMap {
        return false;
      }
      if user !in membersMap {
        return false;
      }
      membersList := Without(membersList, membersMap[user]);
      membersMap := membersMap - {user};
      memberCount := Dec32(memberCount);
      return true;
    }

    method OnAddManager(operator: guid, user: guid) returns (ok: bool)
      requires Valid()
      modifies this
      ensures Valid() && ok == CanPromote(old(State()), operator, user)
      ensures State() == AddManager(old(State()), operator, user)
    {
      LinkedMove(State(), operator, user);
      if operator != leaderGuid {
        return false;
      }
      if user in managersMap {
        return false;
      }
      if user !in membersMap {
        return false;
      }
      managersMap := managersMap[user := membersMap[user]];
      var n := managersMap[user];
      nodes := nodes[n := nodes[n].(job := JOB_MANAGER)];
      membersMap := membersMap - {user};
      return true;
    }

    method OnDeleteManager(operator: guid, user: guid) returns (ok: bool)
      requires Valid()
      modifies this
      ensures Valid() && ok == CanDemote(old(State()), operator, user)
      ensures State() == DeleteManager(old(State()), operator, user)
    {
      LinkedMove(State(), operator, user);
      if operator != leaderGuid {
        return false;
      }
      if user !in managersMap {
        return false;
      }
      if user in membersMap {
        return false;
      }
      membersMap := membersMap[user := managersMap[user]];
      var n := membersMap[user];
      nodes := nodes[n := nodes[n].(job := JOB_MEMBER)];
      managersMap := managersMap - {user};
      return true;
    }

    method OnChangePermissions(operator: guid, user: guid, permissions: u8) returns (ok: bool)
      requires Valid()
      modifies this
      ensures Valid() && ok == CanChange(old(State()), operator, user, permissions)
      ensures State() == ChangePermissions(old(State()), operator, user, permissions)
    {
      LinkedKept(State(), OpChange(operator, user, permissions));
      if operator !in managersMap {
        return false;
      }
      if nodes[managersMap[operator]].permissions > permissions {
        return false;
      }
      if user in managersMap {
        if operator != leaderGuid {
          return false;
        }
        var n := managersMap[user];
        nodes := nodes[n := nodes[n].(permissions := permissions)];
        return true;
      }
      if user in membersMap {
        var n := membersMap[user];
        nodes := nodes[n := nodes[n].(permissions := permissions)];
        return true;
      }
      return false;
    }

    method OnAddMsg(m: Msg) returns (ok: bool, stored: Msg)
      requires Valid()
      modifies this
      ensures Valid() && ok == Accepts(old(State()), m)
      ensures State() == AddMsg(old(State()), m)
      ensures stored == if ok then m.(num := Number(old(msgList), m)) else m
    {
      stored := m;
      if m.kind != MSG_TYPE_GROUP {
        return false, stored;
      }
      if groupGuid != m.recv {
        return false, stored;
      }
      if msgList == [] {
        if stored.num == 0 {
          stored := stored.(num := 1);
        }
      } else {
        if stored.num == 0 {
          stored := stored.(num := (msgList[|msgList| - 1].num + 1) % 0x1_0000);
        }
      }
      msgList := msgList + [stored];
      msgLimit := Inc32(msgLimit);
      if msgLimit > LOG_MAX {
        msgList := msgList[1..];
        msgLimit := Dec32(msgLimit);
      }
      return true, stored;
    }

    method OnDeleteMsg(operator: guid, num: int) returns (ok: bool)
      requires Valid()
      modifies this
      ensures Valid() && ok == (operator in managersMap)
      ensures State() == DeleteMsg(old(State()), operator, num)
    {
      if operator !in managersMap {
        return false;
      }
      var i := |msgList|;
      while i > 0
        invariant 0 <= i <= |msgList| && State() == old(State())
        invariant forall k :: i <= k < |msgList| ==> msgList[k].num != num
      {
        if msgList[i - 1].num == num {
          DropLastAt(msgList, i - 1, num);
          msgList := msgList[..i - 1] + msgList[i..];
          msgLimit := Dec32(msgLimit);
          return true;
        }
        i := i - 1;
      }
      return true;
    }

    method ClearMsg(operator: guid) returns (ok: bool)
      requires Valid()
      modifies this
      ensures Valid() && ok == (operator in managersMap)
      ensures State() == Groups.ClearMsg(old(State()), operator)
    {
      if operator !in managersMap {
        return false;
      }
      msgList := [];
      msgLimit := 0;
      return true;
    }
  }

  lemma {:induction false} DropLastAt(log: seq<Msg>, i: nat, num: int)
    requires i < |log| && log[i].num == num
    requires forall k :: i < k < |log| ==> log[k].num != num
    ensures DropLast(log, num) == log[..i] + log[i + 1..]
    ensures log[i] in log
  {
    var last := |log| - 1;
    if i < last {
      DropLastAt(log[..last], i, num);
      assert log[..last][..i] == log[..i];
      assert log[..i] + log[..last][i + 1..] + [log[last]] == log[..i] + log[i + 1..];
    }
  }
}
