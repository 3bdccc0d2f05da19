/** The state of a `GroupInfo` and what each of its operations does to it. A `std::list` iterator is
    a node number: `nodes` holds every node ever allocated, `list` the ones still linked, in order. */
module Groups {
  import opened Bytes
  import opened Packets

  type Name = s: seq<byte> | |s| == 32 witness seq(32, _ => 0)
  /** A `uint32_t` user or group identifier; the codecs require it to be in range. */
  type guid = int
  type Node = int

  const JOB_LEADER: u8 := 0
  const JOB_MANAGER: u8 := 1
  const JOB_MEMBER: u8 := 2

  const SEND_TO_GROUP: u8 := 1
  const SEND_MSG: u8 := 5
  const LIMIT_50: u8 := 6
  const LIMIT_10: u8 := 7
  const CANT_SEND: u8 := 8

  const LOG_MAX: nat := 100

  datatype Member = Member(groupGuid: guid, userGuid: guid, iconGuid: guid, msgCount: u16,
                           permissions: u8, job: u8, name: Name)

  datatype Group = Group(id: guid, count: int, leader: guid,
                         nodes: seq<Member>, list: seq<Node>,
                         managers: map<guid, Node>, members: map<guid, Node>,
                         log: seq<Msg>, limit: int)

  function NewGroup(id: guid): Group {
    Group(id, 0, 0, [], [], map[], map[], [], 0)
  }

  predicate ManagerJob(job: u8) { job == JOB_LEADER || job == JOB_MANAGER }

  /** The guids either index knows. */
  function Keys(g: Group): set<guid> { g.managers.Keys + g.members.Keys }

  // ---------------------------------------------------------------- invariants

  ghost predicate Distinct<T>(s: seq<T>) {
    forall i, j :: 0 <= i < j < |s| ==> s[i] != s[j]
  }

  /** Every index entry points into the list, at a node with the key's guid, and no node is in both
      indexes. Any sequence of operations keeps this. */
  ghost predicate Linked(g: Group) {
    && g.count == Count(g.list)
    && Distinct(g.list)
    && (forall n <- g.list :: 0 <= n < |g.nodes|)
    && Points(g.managers, g.list, g.nodes)
    && Points(g.members, g.list, g.nodes)
    && Apart(g.managers, g.members)
  }

  /** `member_count` wraps like any `uint32_t`. */
  function Count(list: seq<Node>): int { |list| % U32_LIMIT }

  lemma CountUpDown(list: seq<Node>, longer: seq<Node>)
    requires |longer| == |list| + 1
    ensures Count(longer) == Inc32(Count(list)) && Count(list) == Dec32(Count(longer))
  {
  }

  ghost predicate Points(index: map<guid, Node>, list: seq<Node>, nodes: seq<Member>) {
    forall u <- index :: index[u] in list && 0 <= index[u] < |nodes| && nodes[index[u]].userGuid == u
  }

  ghost predicate Apart(managers: map<guid, Node>, members: map<guid, Node>) {
    forall u <- managers :: u in members ==> managers[u] != members[u]
  }

  /** The index entry of a listed node is that node. */
  predicate InIndex(g: Group, n: Node)
    requires 0 <= n < |g.nodes|
  {
    var u := g.nodes[n].userGuid;
    (u in g.managers && g.managers[u] == n) || (u in g.members && g.members[u] == n)
  }

  /** No guid is in both indexes and together they cover the list. */
  ghost predicate Indexed(g: Group) {
    && Linked(g)
    && g.managers.Keys !! g.members.Keys
    && (forall n <- g.list :: InIndex(g, n))
  }

  /** A node's job says which index holds it. */
  ghost predicate JobsAgree(g: Group)
    requires Linked(g)
  {
    forall n <- g.list :: ManagerJob(g.nodes[n].job) <==> g.nodes[n].userGuid in g.managers
  }

  ghost predicate Rep(g: Group) { Indexed(g) && JobsAgree(g) }

  /** The guids in list order. */
  function Guids(g: Group): (s: seq<guid>)
    requires forall n <- g.list :: 0 <= n < |g.nodes|
    ensures |s| == |g.list|
    ensures forall i :: 0 <= i < |s| ==> 0 <= g.list[i] < |g.nodes| && s[i] == g.nodes[g.list[i]].userGuid
  {
    ListGuids(g.list, g.nodes)
  }

  function ListGuids(list: seq<Node>, nodes: seq<Member>): (s: seq<guid>)
    requires forall n <- list :: 0 <= n < |nodes|
    ensures |s| == |list| && forall i :: 0 <= i < |s| ==> 0 <= list[i] < |nodes| && s[i] == nodes[list[i]].userGuid
  {
    if list == [] then [] else
      assert list[0] in list && forall n <- list[1..] :: n in list;
      [nodes[list[0]].userGuid] + ListGuids(list[1..], nodes)
  }

  /** What the invariant means for the list alone: no guid occurs twice, and the guids that occur
      are the ones the indexes know. */
  lemma IndexedDistinct(g: Group)
    requires Indexed(g)
    ensures Distinct(Guids(g))
    ensures forall u :: u in Guids(g) <==> u in Keys(g)
  {
    forall i, j | 0 <= i < j < |g.list|
      ensures Guids(g)[i] != Guids(g)[j]
    {
      assert g.list[i] in g.list && g.list[j] in g.list;
      assert InIndex(g, g.list[i]) && InIndex(g, g.list[j]);
    }
    forall u <- Keys(g)
      ensures u in Guids(g)
    {
      assert Lookup(g, u) in g.list;
      var i :| 0 <= i < |g.list| && g.list[i] == Lookup(g, u);
      assert Guids(g)[i] == u;
    }
    forall u <- Guids(g)
      ensures u in Keys(g)
    {
      var i :| 0 <= i < |g.list| && Guids(g)[i] == u;
      assert g.list[i] in g.list && InIndex(g, g.list[i]);
    }
  }

  // ---------------------------------------------------------------- operations

  /** `std::list::erase`. */
  function Without<T(==)>(list: seq<T>, n: T): seq<T> {
    if list == [] then [] else if list[0] == n then list[1..] else [list[0]] + Without(list[1..], n)
  }

  function WithJob(g: Group, n: Node, job: u8): Group
    requires 0 <= n < |g.nodes|
  {
    g.(nodes := g.nodes[n := g.nodes[n].(job := job)])
  }

  function WithPermissions(g: Group, n: Node, permissions: u8): Group
    requires 0 <= n < |g.nodes|
  {
    g.(nodes := g.nodes[n := g.nodes[n].(permissions := permissions)])
  }

  function NewMember(g: Group, operator: guid, user: guid, icon: guid, name: Name): Member {
    var job := if operator == 0 && user == g.leader then JOB_LEADER else JOB_MEMBER;
    Member(g.id, user, icon, 0, SEND_TO_GROUP, job, name)
  }

  predicate CanAdd(g: Group, operator: guid, user: guid) {
    (operator in g.managers || operator == 0) && user !in g.members
  }

  function AddMember(g: Group, operator: guid, user: guid, icon: guid, name: Name): Group {
    if !CanAdd(g, operator, user) then g
    else
      var n := |g.nodes|;
      var g' := g.(nodes := g.nodes + [NewMember(g, operator, user, icon, name)],
                   list := g.list + [n], count := Inc32(g.count));
      if operator == 0 && user == g.leader then g'.(managers := g.managers[user := n])
      else g'.(members := g.members[user := n])
  }

  predicate CanDelete(g: Group, operator: guid, user: guid) {
    if user in g.managers then operator == g.leader else operator in g.managers && user in g.members
  }

  function DeleteMember(g: Group, operator: guid, user: guid): Group {
    if !CanDelete(g, operator, user) then g
    else if user in g.managers then
      g.(list := Without(g.list, g.managers[user]), managers := g.managers - {user}, count := Dec32(g.count))
    else
      g.(list := Without(g.list, g.members[user]), members := g.members - {user}, count := Dec32(g.count))
  }

  predicate CanPromote(g: Group, operator: guid, user: guid) {
    operator == g.leader && user !in g.managers && user in g.members
  }

  function AddManager(g: Group, operator: guid, user: guid): Group
    requires Linked(g)
  {
    if !CanPromote(g, operator, user) then g
    else
      var n := g.members[user];
      WithJob(g, n, JOB_MANAGER).(managers := g.managers[user := n], members := g.members - {user})
  }

  predicate CanDemote(g: Group, operator: guid, user: guid) {
    operator == g.leader && user in g.managers && user !in g.members
  }

  function DeleteManager(g: Group, operator: guid, user: guid): Group
    requires Linked(g)
  {
    if !CanDemote(g, operator, user) then g
    else
      var n := g.managers[user];
      WithJob(g, n, JOB_MEMBER).(members := g.members[user := n], managers := g.managers - {user})
  }

  predicate CanChange(g: Group, operator: guid, user: guid, permissions: u8)
    requires Linked(g)
  {
    && operator in g.managers
    && g.nodes[g.managers[operator]].permissions <= permissions
    && (if user in g.managers then operator == g.leader else user in g.members)
  }

  function ChangePermissions(g: Group, operator: guid, user: guid, permissions: u8): Group
    requires Linked(g)
  {
    if !CanChange(g, operator, user, permissions) then g
    else WithPermissions(g, if user in g.managers then g.managers[user] else g.members[user], permissions)
  }

  /** `get_member_by_guid`: ordinary members first. */
  function Lookup(g: Group, user: guid): Node
    requires user in Keys(g)
  {
    if user in g.members then g.members[user] else g.managers[user]
  }

  // ---------------------------------------------------------------- the message log

  /** The number a message gets when it is stored. */
  function Number(log: seq<Msg>, m: Msg): u16 {
    if m.num != 0 then m.num else if log == [] then 1 else (log[|log| - 1].num + 1) % 0x1_0000
  }

  predicate Accepts(g: Group, m: Msg) { m.kind == MSG_TYPE_GROUP && g.id == m.recv }

  function AddMsg(g: Group, m: Msg): Group {
    if !Accepts(g, m) then g
    else
      var log, limit := g.log + [m.(num := Number(g.log, m))], Inc32(g.limit);
      if limit > LOG_MAX then g.(log := log[1..], limit := Dec32(limit)) else g.(log := log, limit := limit)
  }

  /** The log without its last message numbered `num`. */
  function DropLast(log: seq<Msg>, num: int): seq<Msg> {
    if log == [] then []
    else if log[|log| - 1].num == num then log[..|log| - 1]
    else DropLast(log[..|log| - 1], num) + [log[|log| - 1]]
  }

  function DeleteMsg(g: Group, operator: guid, num: int): Group {
    if operator !in g.managers || forall m <- g.log :: m.num != num then g
    else g.(log := DropLast(g.log, num), limit := Dec32(g.limit))
  }

  function ClearMsg(g: Group, operator: guid): Group {
    if operator !in g.managers then g else g.(log := [], limit := 0)
  }

  // ---------------------------------------------------------------- runs

  datatype Op =
    | OpAdd(operator: guid, user: guid, icon: guid, name: Name)
    | OpDelete(operator: guid, user: guid)
    | OpPromote(operator: guid, user: guid)
    | OpDemote(operator: guid, user: guid)
    | OpChange(operator: guid, user: guid, permissions: u8)
    | OpAddMsg(msg: Msg)
    | OpDeleteMsg(operator: guid, num: int)
    | OpClearMsg(operator: guid)

  function Apply(g: Group, op: Op): (g': Group)
    requires Linked(g)
  {
    match op
    case OpAdd(o, u, icon, name) => AddMember(g, o, u, icon, name)
    case OpDelete(o, u) => DeleteMember(g, o, u)
    case OpPromote(o, u) => AddManager(g, o, u)
    case OpDemote(o, u) => DeleteManager(g, o, u)
    case OpChange(o, u, p) => ChangePermissions(g, o, u, p)
    case OpAddMsg(m) => AddMsg(g, m)
    case OpDeleteMsg(o, num) => DeleteMsg(g, o, num)
    case OpClearMsg(o) => ClearMsg(g, o)
  }

  // ---------------------------------------------------------------- Linked is kept by everything

  lemma {:induction false} WithoutFacts<T>(list: seq<T>, n: T)
    requires n in list && Distinct(list)
    ensures |Without(list, n)| == |list| - 1
    ensures Distinct(Without(list, n))
    ensures forall k <- Without(list, n) :: k in list && k != n
    ensures forall k <- list :: k != n ==> k in Without(list, n)
  {
    var head, tail := list[0], list[1..];
    assert list == [head] + tail;
    assert head !in tail;
    if head != n {
      WithoutFacts(tail, n);
      assert Without(list, n) == [head] + Without(tail, n);
    }
  }

  lemma PointsErase(index: map<guid, Node>, list: seq<Node>, nodes: seq<Member>, n: Node)
    requires Points(index, list, nodes) && n in list && Distinct(list)
    requires forall u <- index :: index[u] != n
    ensures Points(index, Without(list, n), nodes)
  {
    WithoutFacts(list, n);
  }

  lemma PointsGrow(index: map<guid, Node>, list: seq<Node>, nodes: seq<Member>, m: Member)
    requires Points(index, list, nodes)
    ensures Points(index, list + [|nodes|], nodes + [m])
  {
  }

  lemma GrowDistinct(list: seq<Node>, n: Node)
    requires Distinct(list) && forall k <- list :: k < n
    ensures Distinct(list + [n])
    ensures forall k :: k in list + [n] <==> k in list || k == n
  {
    assert forall i :: 0 <= i < |list| ==> list[i] in list;
  }

  lemma LinkedAdd(g: Group, o: guid, u: guid, icon: guid, name: Name)
    requires Linked(g)
    ensures Linked(AddMember(g, o, u, icon, name))
  {
    hide Count, Inc32, Distinct, Points, Apart;
    var n, m := |g.nodes|, NewMember(g, o, u, icon, name);
    CountUpDown(g.list, g.list + [n]);
    GrowDistinct(g.list, n);
    if CanAdd(g, o, u) {
      PointsPut(g.managers, g.list, g.nodes, m);
      PointsPut(g.members, g.list, g.nodes, m);
      ApartPut(g, u);
    }
  }

  /** A new node that an index entry may refer to. */
  lemma PointsPut(index: map<guid, Node>, list: seq<Node>, nodes: seq<Member>, m: Member)
    requires Points(index, list, nodes)
    ensures Points(index, list + [|nodes|], nodes + [m])
    ensures Points(index[m.userGuid := |nodes|], list + [|nodes|], nodes + [m])
  {
    PointsGrow(index, list, nodes, m);
    assert |nodes| in list + [|nodes|];
  }

  lemma ApartPut(g: Group, u: guid)
    requires Points(g.managers, g.list, g.nodes) && Points(g.members, g.list, g.nodes) && Apart(g.managers, g.members)
    ensures Apart(g.managers[u := |g.nodes|], g.members) && Apart(g.managers, g.members[u := |g.nodes|])
  {
  }

  lemma LinkedDelete(g: Group, o: guid, u: guid)
    requires Linked(g)
    ensures Linked(DeleteMember(g, o, u))
  {
    hide Count, Dec32;
    if CanDelete(g, o, u) {
      var n := if u in g.managers then g.managers[u] else g.members[u];
      WithoutFacts(g.list, n);
      CountUpDown(Without(g.list, n), g.list);
      var managers := if u in g.managers then g.managers - {u} else g.managers;
      var members := if u in g.managers then g.members else g.members - {u};
      PointsErase(managers, g.list, g.nodes, n);
      PointsErase(members, g.list, g.nodes, n);
    }
  }

  lemma LinkedMove(g: Group, o: guid, u: guid)
    requires Linked(g)
    ensures Linked(AddManager(g, o, u)) && Linked(DeleteManager(g, o, u))
  {
    hide Count;
  }

  /** No operation, whatever its arguments, leaves a dangling or mislabelled index entry. */
  lemma LinkedKept(g: Group, op: Op)
    requires Linked(g)
    ensures Linked(Apply(g, op))
  {
    hide AddMember, DeleteMember, AddManager, DeleteManager, Count, Inc32, Dec32;
    match op
    case OpAdd(o, u, icon, name) => LinkedAdd(g, o, u, icon, name);
    case OpDelete(o, u) => LinkedDelete(g, o, u);
    case OpPromote(o, u) => LinkedMove(g, o, u);
    case OpDemote(o, u) => LinkedMove(g, o, u);
    case _ =>
  }

  // ---------------------------------------------------------------- the representation invariant

  /** The one way to break the indexes: adding a guid that is a manager. */
  predicate AddsManager(g: Group, op: Op) {
    op.OpAdd? && CanAdd(g, op.operator, op.user) && op.user in g.managers
  }

  lemma RefusedAdd(g: Group, o: guid, u: guid, icon: guid, name: Name)
    requires !CanAdd(g, o, u)
    ensures AddMember(g, o, u, icon, name) == g
  {
  }

  lemma RepLog(g: Group, g': Group)
    requires Rep(g) && g' == g.(log := g'.log, limit := g'.limit)
    ensures Rep(g')
  {
    hide Count;
    forall k <- g'.list
      ensures InIndex(g', k)
    {
      assert InIndex(g, k);
    }
  }

  lemma RepAdd(g: Group, o: guid, u: guid, icon: guid, name: Name)
    requires Rep(g) && CanAdd(g, o, u)
    ensures Rep(AddMember(g, o, u, icon, name)) <==> u !in g.managers
  {
    hide Count, Inc32;
    LinkedAdd(g, o, u, icon, name);
    var g', n := AddMember(g, o, u, icon, name), |g.nodes|;
    assert forall k :: k in g'.list <==> k in g.list || k == n;
    if u in g.managers {
      var prior := g.managers[u];
      assert prior in g'.list && prior != n;
      assert InIndex(g, prior);
      if o == 0 && u == g.leader {
        assert !InIndex(g', prior);
      }
    } else {
      forall k <- g'.list
        ensures InIndex(g', k)
        ensures ManagerJob(g'.nodes[k].job) <==> g'.nodes[k].userGuid in g'.managers
      {
        if k != n {
          assert InIndex(g, k);
        }
      }
    }
  }

  lemma RepDelete(g: Group, o: guid, u: guid)
    requires Rep(g)
    ensures Rep(DeleteMember(g, o, u))
  {
    hide Count, Dec32;
    LinkedDelete(g, o, u);
    if CanDelete(g, o, u) {
      var g' := DeleteMember(g, o, u);
      WithoutFacts(g.list, if u in g.managers then g.managers[u] else g.members[u]);
      forall k <- g'.list
        ensures InIndex(g', k)
        ensures ManagerJob(g'.nodes[k].job) <==> g'.nodes[k].userGuid in g'.managers
      {
        assert InIndex(g, k);
      }
    }
  }

  lemma RepPromote(g: Group, o: guid, u: guid)
    requires Rep(g)
    ensures Rep(AddManager(g, o, u))
  {
    hide Count;
    LinkedMove(g, o, u);
    if CanPromote(g, o, u) {
      var g' := AddManager(g, o, u);
      forall k <- g.list
        ensures InIndex(g', k)
        ensures ManagerJob(g'.nodes[k].job) <==> g'.nodes[k].userGuid in g'.managers
      {
        assert InIndex(g, k);
      }
    }
  }

  lemma RepDemote(g: Group, o: guid, u: guid)
    requires Rep(g)
    ensures Rep(DeleteManager(g, o, u))
  {
    hide Count;
    LinkedMove(g, o, u);
    if CanDemote(g, o, u) {
      var g' := DeleteManager(g, o, u);
      forall k <- g.list
        ensures InIndex(g', k)
        ensures ManagerJob(g'.nodes[k].job) <==> g'.nodes[k].userGuid in g'.managers
      {
        assert InIndex(g, k);
      }
    }
  }

  lemma RepChange(g: Group, o: guid, u: guid, permissions: u8)
    requires Rep(g)
    ensures Rep(ChangePermissions(g, o, u, permissions))
  {
    hide Count;
    var g' := ChangePermissions(g, o, u, permissions);
    forall k <- g'.list
      ensures InIndex(g', k)
      ensures ManagerJob(g'.nodes[k].job) <==> g'.nodes[k].userGuid in g'.managers
    {
      assert InIndex(g, k);
    }
  }

  /** Exactly when an operation keeps the representation invariant. */
  lemma RepStep(g: Group, op: Op)
    requires Rep(g)
    ensures Rep(Apply(g, op)) <==> !AddsManager(g, op)
  {
    assert Linked(g);
    hide AddMember, DeleteMember, AddManager, DeleteManager, ChangePermissions, Rep, Linked;
    match op
    case OpAdd(o, u, icon, name) =>
      if CanAdd(g, o, u) {
        RepAdd(g, o, u, icon, name);
      } else {
        assert AddMember(g, o, u, icon, name) == g by { RefusedAdd(g, o, u, icon, name); }
      }
    case OpDelete(o, u) => RepDelete(g, o, u);
    case OpPromote(o, u) => RepPromote(g, o, u);
    case OpDemote(o, u) => RepDemote(g, o, u);
    case OpChange(o, u, p) => RepChange(g, o, u, p);
    case _ => RepLog(g, Apply(g, op));
  }
}
