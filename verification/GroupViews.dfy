/** A group as its users see it: who is listed, in which order, and with what role and card. The list, the
    two indexes and the nodes refine this view, operation by operation and over whole runs. */
module GroupViews {
  import opened Bytes
  import opened Packets
  import opened Groups
  import opened GroupRuns
  import opened GroupCodec
  import opened Fanouts

  /** A listed user: whether he manages the group, and his card. */
  datatype Seat = Seat(manager: bool, card: Member)

  datatype Roll = Roll(id: guid, leader: guid, order: seq<guid>, seats: map<guid, Seat>)

  function Seats(g: Group): (seats: map<guid, Seat>)
    requires Linked(g)
    ensures seats.Keys == Keys(g)
    ensures forall u <- seats :: seats[u] == Seat(u in g.managers, Entry(g, u))
  {
    map u | u in Keys(g) :: Seat(u in g.managers, Entry(g, u))
  }

  function RollOf(g: Group): Roll
    requires Linked(g)
  {
    Roll(g.id, g.leader, Guids(g), Seats(g))
  }

  // ---------------------------------------------------------------- the simple form

  predicate Manages(r: Roll, u: guid) { u in r.seats && r.seats[u].manager }

  /** A manager, or the server itself as operator 0, seats a user who has no seat: last in the order, as an
      ordinary member who may send anything, has sent nothing and shows his name and icon. The leader,
      seated by the server, gets his own title. */
  function Admit(r: Roll, o: guid, u: guid, icon: guid, name: Name): Roll {
    if (o != 0 && !Manages(r, o)) || u in r.seats then r
    else
      var leads := o == 0 && u == r.leader;
      var job := if leads then JOB_LEADER else JOB_MEMBER;
      r.(order := r.order + [u], seats := r.seats[u := Seat(leads, Member(r.id, u, icon, 0, SEND_TO_GROUP, job, name))])
  }

  /** The leader dismisses anybody, a manager dismisses ordinary members. */
  function Dismiss(r: Roll, o: guid, u: guid): Roll {
    if u !in r.seats || !(if r.seats[u].manager then o == r.leader else Manages(r, o)) then r
    else r.(order := Without(r.order, u), seats := r.seats - {u})
  }

  /** Only the leader gives and takes the role of manager, and the title goes with it. */
  function Appoint(r: Roll, o: guid, u: guid, manager: bool): Roll {
    if u !in r.seats || r.seats[u].manager == manager || o != r.leader then r
    else
      var card := r.seats[u].card;
      r.(seats := r.seats[u := Seat(manager, card.(job := if manager then JOB_MANAGER else JOB_MEMBER))])
  }

  /** A manager sets the permission of ordinary members, the leader who manages also that of managers, to
      no smaller a value than his own. */
  function Allow(r: Roll, o: guid, u: guid, permissions: u8): Roll {
    if u !in r.seats || !Manages(r, o) || (r.seats[u].manager && o != r.leader)
       || permissions < r.seats[o].card.permissions
    then r
    else r.(seats := r.seats[u := r.seats[u].(card := r.seats[u].card.(permissions := permissions))])
  }

  function Next(r: Roll, op: Op): Roll {
    match op
    case OpAdd(o, u, icon, name) => Admit(r, o, u, icon, name)
    case OpDelete(o, u) => Dismiss(r, o, u)
    case OpPromote(o, u) => Appoint(r, o, u, true)
    case OpDemote(o, u) => Appoint(r, o, u, false)
    case OpChange(o, u, p) => Allow(r, o, u, p)
    case _ => r
  }

  function NextAll(r: Roll, ops: seq<Op>): Roll
    decreases |ops|
  {
    if ops == [] then r else Next(NextAll(r, ops[..|ops| - 1]), ops[|ops| - 1])
  }

  // ---------------------------------------------------------------- order

  lemma GuidsAppend(list: seq<Node>, nodes: seq<Member>, n: Node, m: Member)
    requires (forall k <- list :: 0 <= k < |nodes|) && n == |nodes|
    ensures forall k <- list + [n] :: 0 <= k < |nodes + [m]|
    ensures ListGuids(list + [n], nodes + [m]) == ListGuids(list, nodes) + [m.userGuid]
  {
    var a, b := ListGuids(list + [n], nodes + [m]), ListGuids(list, nodes) + [m.userGuid];
    forall i | 0 <= i < |a|
      ensures a[i] == b[i]
    {
      if i < |list| {
        assert (list + [n])[i] == list[i] && list[i] in list;
      }
    }
  }

  lemma {:induction false} GuidsWithout(list: seq<Node>, nodes: seq<Member>, n: Node)
    requires (forall k <- list :: 0 <= k < |nodes|) && Distinct(list) && n in list
    requires forall k <- list :: nodes[k].userGuid == nodes[n].userGuid ==> k == n
    ensures forall k <- Without(list, n) :: 0 <= k < |nodes|
    ensures ListGuids(Without(list, n), nodes) == Without(ListGuids(list, nodes), nodes[n].userGuid)
  {
    WithoutFacts(list, n);
    var head, tail := list[0], list[1..];
    assert head in list && list == [head] + tail && forall k <- tail :: k in list;
    GuidsCons(head, tail, nodes);
    if head != n {
      TailDistinct(list);
      GuidsWithout(tail, nodes, n);
      GuidsWithoutLater(head, tail, nodes, n);
    }
    hide ListGuids, Distinct, Without;
  }

  lemma GuidsWithoutLater(head: Node, tail: seq<Node>, nodes: seq<Member>, n: Node)
    requires 0 <= head < |nodes| && (forall k <- tail :: 0 <= k < |nodes|) && head != n && 0 <= n < |nodes|
    requires (forall k <- Without(tail, n) :: 0 <= k < |nodes|) && nodes[head].userGuid != nodes[n].userGuid
    requires ListGuids(Without(tail, n), nodes) == Without(ListGuids(tail, nodes), nodes[n].userGuid)
    ensures forall k <- Without([head] + tail, n) :: 0 <= k < |nodes|
    ensures ListGuids(Without([head] + tail, n), nodes)
      == Without([nodes[head].userGuid] + ListGuids(tail, nodes), nodes[n].userGuid)
  {
    WithoutLater(head, tail, n);
    WithoutLater(nodes[head].userGuid, ListGuids(tail, nodes), nodes[n].userGuid);
    GuidsCons(head, Without(tail, n), nodes);
    hide Without, ListGuids;
  }

  lemma WithoutLater<T>(head: T, tail: seq<T>, n: T)
    requires head != n
    ensures Without([head] + tail, n) == [head] + Without(tail, n)
  {
    assert ([head] + tail)[1..] == tail;
  }

  lemma TailDistinct(list: seq<Node>)
    requires Distinct(list) && list != []
    ensures Distinct(list[1..])
  {
  }

  lemma GuidsCons(head: Node, tail: seq<Node>, nodes: seq<Member>)
    requires 0 <= head < |nodes| && forall k <- tail :: 0 <= k < |nodes|
    ensures forall k <- [head] + tail :: 0 <= k < |nodes|
    ensures ListGuids([head] + tail, nodes) == [nodes[head].userGuid] + ListGuids(tail, nodes)
  {
    assert ([head] + tail)[1..] == tail;
  }

  lemma SameGuids(list: seq<Node>, nodes: seq<Member>, nodes': seq<Member>)
    requires (forall k <- list :: 0 <= k < |nodes|) && |nodes'| == |nodes|
    requires forall k :: 0 <= k < |nodes| ==> nodes'[k].userGuid == nodes[k].userGuid
    ensures ListGuids(list, nodes') == ListGuids(list, nodes)
  {
    forall i | 0 <= i < |list|
      ensures ListGuids(list, nodes')[i] == ListGuids(list, nodes)[i]
    {
    }
  }

  // ---------------------------------------------------------------- refinement

  /** The seats, user by user. */
  lemma SeatsAre(g: Group, seats: map<guid, Seat>)
    requires Linked(g) && seats.Keys == Keys(g)
    requires forall v <- seats :: seats[v] == Seat(v in g.managers, Entry(g, v))
    ensures Seats(g) == seats
  {
    hide Linked, Entry, Keys;
  }

  lemma OneRole(g: Group, u: guid)
    requires Rep(g)
    ensures !(u in g.managers && u in g.members)
  {
    hide Groups.Count, Points, Distinct;
  }

  lemma SeatAfterAdd(g: Group, o: guid, u: guid, icon: guid, name: Name, v: guid)
    requires Linked(g) && CanAdd(g, o, u) && u !in g.managers && v in Keys(g) + {u}
    requires Linked(AddMember(g, o, u, icon, name))
    ensures var g' := AddMember(g, o, u, icon, name);
      v in Keys(g') && (v in g'.managers <==> if v == u then o == 0 && u == g.leader else v in g.managers)
      && Entry(g', v) == if v == u then NewMember(g, o, u, icon, name) else Entry(g, v)
  {
    if v != u {
      LookupInRange(g, v);
    }
    hide Linked, NewMember;
  }

  lemma ViewAdd(g: Group, o: guid, u: guid, icon: guid, name: Name)
    requires Rep(g) && !(CanAdd(g, o, u) && u in g.managers)
    ensures Linked(AddMember(g, o, u, icon, name))
    ensures RollOf(AddMember(g, o, u, icon, name)) == Admit(RollOf(g), o, u, icon, name)
  {
    LinkedAdd(g, o, u, icon, name);
    OneRole(g, o);
    if CanAdd(g, o, u) {
      GuidsAppend(g.list, g.nodes, |g.nodes|, NewMember(g, o, u, icon, name));
      AddedSeats(g, o, u, icon, name);
      hide Seats, ListGuids, Groups.Count, Inc32;
    }
    hide Linked, Rep, Entry, Keys;
  }

  lemma AddedSeats(g: Group, o: guid, u: guid, icon: guid, name: Name)
    requires Linked(g) && CanAdd(g, o, u) && u !in g.managers && Linked(AddMember(g, o, u, icon, name))
    ensures Seats(AddMember(g, o, u, icon, name))
      == Seats(g)[u := Seat(o == 0 && u == g.leader, NewMember(g, o, u, icon, name))]
  {
    hide Linked, Entry, NewMember, CanAdd;
    var g' := AddMember(g, o, u, icon, name);
    var seats := Seats(g)[u := Seat(o == 0 && u == g.leader, NewMember(g, o, u, icon, name))];
    AddedKeys(g, o, u, icon, name);
    forall v <- Keys(g')
      ensures v in seats && seats[v] == Seat(v in g'.managers, Entry(g', v))
    {
      SeatAfterAdd(g, o, u, icon, name, v);
    }
    hide Keys, AddMember;
    SeatsAre(g', seats);
  }

  lemma AddedKeys(g: Group, o: guid, u: guid, icon: guid, name: Name)
    requires CanAdd(g, o, u)
    ensures Keys(AddMember(g, o, u, icon, name)) == Keys(g) + {u}
  {
  }

  lemma SeatAfterDelete(g: Group, o: guid, u: guid, v: guid)
    requires Linked(g) && CanDelete(g, o, u) && !(u in g.managers && u in g.members) && Linked(DeleteMember(g, o, u))
    requires v in Keys(g) && v != u
    ensures var g' := DeleteMember(g, o, u);
      v in Keys(g') && (v in g'.managers <==> v in g.managers) && Entry(g', v) == Entry(g, v)
  {
    LookupInRange(g, v);
    hide Linked;
  }

  lemma DeletedKeys(g: Group, o: guid, u: guid)
    requires CanDelete(g, o, u) && !(u in g.managers && u in g.members)
    ensures Keys(DeleteMember(g, o, u)) == Keys(g) - {u} && u in Keys(g)
  {
  }

  lemma OnlyNode(g: Group, u: guid)
    requires Rep(g) && u in Keys(g)
    ensures Lookup(g, u) in g.list && 0 <= Lookup(g, u) < |g.nodes| && g.nodes[Lookup(g, u)].userGuid == u
    ensures forall k <- g.list :: g.nodes[k].userGuid == u ==> k == Lookup(g, u)
  {
    LookupInRange(g, u);
    hide Groups.Count, Points, Distinct;
    forall k <- g.list
      ensures g.nodes[k].userGuid == u ==> k == Lookup(g, u)
    {
      assert InIndex(g, k);
    }
  }

  lemma ViewDelete(g: Group, o: guid, u: guid)
    requires Rep(g)
    ensures Linked(DeleteMember(g, o, u)) && RollOf(DeleteMember(g, o, u)) == Dismiss(RollOf(g), o, u)
  {
    LinkedDelete(g, o, u);
    OneRole(g, u);
    OneRole(g, o);
    var g', r := DeleteMember(g, o, u), Dismiss(RollOf(g), o, u);
    if CanDelete(g, o, u) {
      DeletedKeys(g, o, u);
      OnlyNode(g, u);
      GuidsWithout(g.list, g.nodes, Lookup(g, u));
      hide ListGuids, Without, Groups.Count, Dec32;
      forall v <- Keys(g')
        ensures v in r.seats && r.seats[v] == Seat(v in g'.managers, Entry(g', v))
      {
        SeatAfterDelete(g, o, u, v);
      }
      SeatsAre(g', r.seats);
    }
    hide Linked, Rep, ListGuids, Entry, Keys, Without;
  }

  lemma SeatAfterMove(g: Group, o: guid, u: guid, v: guid)
    requires Linked(g) && !(v in g.managers && v in g.members) && v in Keys(g)
    requires Linked(AddManager(g, o, u)) && Linked(DeleteManager(g, o, u))
    ensures var g' := AddManager(g, o, u);
      v in Keys(g')
      && if v == u && CanPromote(g, o, u) then v in g'.managers && Entry(g', v) == Entry(g, v).(job := JOB_MANAGER)
         else (v in g'.managers <==> v in g.managers) && Entry(g', v) == Entry(g, v)
    ensures var g' := DeleteManager(g, o, u);
      v in Keys(g')
      && if v == u && CanDemote(g, o, u) then v !in g'.managers && Entry(g', v) == Entry(g, v).(job := JOB_MEMBER)
         else (v in g'.managers <==> v in g.managers) && Entry(g', v) == Entry(g, v)
  {
    LookupInRange(g, v);
    if u in Keys(g) {
      LookupInRange(g, u);
    }
    hide Linked;
  }

  lemma MovedKeys(g: Group, o: guid, u: guid)
    requires Linked(g)
    ensures Keys(AddManager(g, o, u)) == Keys(g) && Keys(DeleteManager(g, o, u)) == Keys(g)
  {
    hide Linked;
  }

  lemma ViewMove(g: Group, o: guid, u: guid)
    requires Rep(g)
    ensures Linked(AddManager(g, o, u)) && RollOf(AddManager(g, o, u)) == Appoint(RollOf(g), o, u, true)
    ensures Linked(DeleteManager(g, o, u)) && RollOf(DeleteManager(g, o, u)) == Appoint(RollOf(g), o, u, false)
  {
    assert Linked(g);
    hide Linked, Rep, Entry, Guids, Seats, Keys, AddManager, DeleteManager;
    LinkedMove(g, o, u);
    MovedGuids(g, o, u);
    MovedHead(g, o, u);
    PromotedSeats(g, o, u);
    DemotedSeats(g, o, u);
    OneRole(g, u);
    SeatFacts(g, u);
  }

  lemma SeatFacts(g: Group, u: guid)
    requires Linked(g)
    ensures u in Seats(g) <==> u in g.managers || u in g.members
    ensures u in Seats(g) ==>
      (Seats(g)[u].manager <==> u in g.managers) && u in Keys(g) && Seats(g)[u].card == Entry(g, u)
  {
    hide Linked, Entry;
  }

  lemma MovedHead(g: Group, o: guid, u: guid)
    requires Linked(g)
    ensures AddManager(g, o, u).id == g.id && AddManager(g, o, u).leader == g.leader
    ensures DeleteManager(g, o, u).id == g.id && DeleteManager(g, o, u).leader == g.leader
  {
    hide Linked;
  }

  lemma PromotedSeats(g: Group, o: guid, u: guid)
    requires Rep(g) && Linked(g) && Linked(AddManager(g, o, u)) && Linked(DeleteManager(g, o, u))
    ensures CanPromote(g, o, u) ==> u in Seats(g)
    ensures Seats(AddManager(g, o, u)) == if CanPromote(g, o, u)
      then Seats(g)[u := Seat(true, Seats(g)[u].card.(job := JOB_MANAGER))] else Seats(g)
  {
    hide Linked, Rep, Entry, AddManager, DeleteManager;
    MovedKeys(g, o, u);
    var g' := AddManager(g, o, u);
    var seats := if CanPromote(g, o, u) then Seats(g)[u := Seat(true, Seats(g)[u].card.(job := JOB_MANAGER))]
      else Seats(g);
    forall v <- Keys(g)
      ensures v in seats && seats[v] == Seat(v in g'.managers, Entry(g', v))
    {
      OneRole(g, v);
      SeatAfterMove(g, o, u, v);
    }
    SeatsAre(g', seats);
  }

  lemma DemotedSeats(g: Group, o: guid, u: guid)
    requires Rep(g) && Linked(g) && Linked(AddManager(g, o, u)) && Linked(DeleteManager(g, o, u))
    ensures CanDemote(g, o, u) ==> u in Seats(g)
    ensures Seats(DeleteManager(g, o, u)) == if CanDemote(g, o, u)
      then Seats(g)[u := Seat(false, Seats(g)[u].card.(job := JOB_MEMBER))] else Seats(g)
  {
    hide Linked, Rep, Entry, AddManager, DeleteManager;
    MovedKeys(g, o, u);
    var g' := DeleteManager(g, o, u);
    var seats := if CanDemote(g, o, u) then Seats(g)[u := Seat(false, Seats(g)[u].card.(job := JOB_MEMBER))]
      else Seats(g);
    forall v <- Keys(g)
      ensures v in seats && seats[v] == Seat(v in g'.managers, Entry(g', v))
    {
      OneRole(g, v);
      SeatAfterMove(g, o, u, v);
    }
    SeatsAre(g', seats);
  }

  lemma MovedGuids(g: Group, o: guid, u: guid)
    requires Linked(g) && Linked(AddManager(g, o, u)) && Linked(DeleteManager(g, o, u))
    ensures Guids(AddManager(g, o, u)) == Guids(g) && Guids(DeleteManager(g, o, u)) == Guids(g)
  {
    hide Groups.Count, Distinct, ListGuids;
    SameGuids(g.list, g.nodes, AddManager(g, o, u).nodes);
    SameGuids(g.list, g.nodes, DeleteManager(g, o, u).nodes);
  }

  lemma SeatAfterChange(g: Group, o: guid, u: guid, p: u8, v: guid)
    requires Linked(g) && !(u in g.managers && u in g.members) && v in Keys(g)
    requires Linked(ChangePermissions(g, o, u, p))
    ensures var g' := ChangePermissions(g, o, u, p);
      v in Keys(g') && (v in g'.managers <==> v in g.managers)
      && Entry(g', v) == if v == u && CanChange(g, o, u, p) then Entry(g, v).(permissions := p) else Entry(g, v)
  {
    LookupInRange(g, v);
    if u in Keys(g) {
      LookupInRange(g, u);
    }
    if CanChange(g, o, u, p) {
      CanChangeListed(g, o, u, p);
    }
    hide Linked, CanChange;
  }

  lemma CanChangeListed(g: Group, o: guid, u: guid, p: u8)
    requires Linked(g) && CanChange(g, o, u, p)
    ensures u in Keys(g)
  {
  }

  lemma ViewChange(g: Group, o: guid, u: guid, p: u8)
    requires Rep(g)
    ensures Linked(ChangePermissions(g, o, u, p))
    ensures RollOf(ChangePermissions(g, o, u, p)) == Allow(RollOf(g), o, u, p)
  {
    assert Linked(g);
    LinkedKept(g, OpChange(o, u, p));
    assert Linked(ChangePermissions(g, o, u, p));
    RefusedChange(g, o, u, p);
    hide Linked, Rep, Guids, Entry, Keys, CanChange, Seats, ChangePermissions, Groups.Apply;
    CanChangeSeats(g, o, u, p);
    ChangedGuids(g, o, u, p);
    ChangedHead(g, o, u, p);
    OneRole(g, u);
    if CanChange(g, o, u, p) {
      ChangedSeats(g, o, u, p);
    }
  }

  lemma RefusedChange(g: Group, o: guid, u: guid, p: u8)
    requires Linked(g)
    ensures !CanChange(g, o, u, p) ==> ChangePermissions(g, o, u, p) == g
  {
    hide Linked, CanChange;
  }

  lemma ChangedSeats(g: Group, o: guid, u: guid, p: u8)
    requires Linked(g) && !(u in g.managers && u in g.members) && CanChange(g, o, u, p)
    requires Linked(ChangePermissions(g, o, u, p))
    ensures u in Seats(g)
    ensures Seats(ChangePermissions(g, o, u, p))
      == Seats(g)[u := Seats(g)[u].(card := Seats(g)[u].card.(permissions := p))]
  {
    hide Linked, ChangePermissions, Guids, Entry, Keys, CanChange;
    CanChangeListed(g, o, u, p);
    ChangedGuids(g, o, u, p);
    var g' := ChangePermissions(g, o, u, p);
    var seats := Seats(g)[u := Seats(g)[u].(card := Seats(g)[u].card.(permissions := p))];
    forall v <- Keys(g)
      ensures v in seats && seats[v] == Seat(v in g'.managers, Entry(g', v))
    {
      SeatAfterChange(g, o, u, p, v);
    }
    SeatsAre(g', seats);
  }

  lemma ChangedHead(g: Group, o: guid, u: guid, p: u8)
    requires Linked(g)
    ensures ChangePermissions(g, o, u, p).id == g.id && ChangePermissions(g, o, u, p).leader == g.leader
  {
    hide Linked;
  }

  lemma CanChangeSeats(g: Group, o: guid, u: guid, p: u8)
    requires Rep(g)
    ensures var r := RollOf(g);
      CanChange(g, o, u, p)
      <==> (u in r.seats && Manages(r, o) && !(r.seats[u].manager && o != r.leader)
        && !(p < r.seats[o].card.permissions))
  {
    assert Linked(g);
    hide Linked, Rep, Guids, Entry;
    OneRole(g, o);
    OneRole(g, u);
  }

  lemma ChangedGuids(g: Group, o: guid, u: guid, p: u8)
    requires Linked(g) && Linked(ChangePermissions(g, o, u, p))
    ensures Guids(ChangePermissions(g, o, u, p)) == Guids(g)
    ensures Keys(ChangePermissions(g, o, u, p)) == Keys(g)
  {
    hide Groups.Count, Distinct, ListGuids;
    SameGuids(g.list, g.nodes, ChangePermissions(g, o, u, p).nodes);
  }

  lemma ViewLog(g: Group, g': Group)
    requires Linked(g) && g' == g.(log := g'.log, limit := g'.limit)
    ensures Linked(g') && RollOf(g') == RollOf(g)
  {
    assert Seats(g') == Seats(g);
  }

  /** Refinement: while no current manager is added, every operation on the list, the indexes and the nodes
      is the simple operation on the view. */
  lemma ViewStep(g: Group, op: Op)
    requires Rep(g) && !AddsManager(g, op)
    ensures Linked(Groups.Apply(g, op)) && RollOf(Groups.Apply(g, op)) == Next(RollOf(g), op)
  {
    assert Linked(g);
    hide AddMember, DeleteMember, AddManager, DeleteManager, ChangePermissions, Rep, Linked;
    hide Admit, Dismiss, Appoint, Allow, RollOf;
    match op
    case OpAdd(o, u, icon, name) => ViewAdd(g, o, u, icon, name);
    case OpDelete(o, u) => ViewDelete(g, o, u);
    case OpPromote(o, u) => ViewMove(g, o, u);
    case OpDemote(o, u) => ViewMove(g, o, u);
    case OpChange(o, u, p) => ViewChange(g, o, u, p);
    case _ => ViewLog(g, Groups.Apply(g, op));
  }

  lemma {:induction false} ViewRun(g: Group, ops: seq<Op>, n: nat)
    requires Rep(g) && n <= |ops|
    requires forall i :: 0 <= i < n ==> !AddsManager(At(g, ops, i), ops[i])
    ensures RollOf(At(g, ops, n)) == NextAll(RollOf(g), ops[..n])
  {
    assert Linked(g);
    hide Groups.Apply, RollOf, Next, Rep, Linked;
    if n > 0 {
      ViewRun(g, ops, n - 1);
      AtStep(g, ops, n - 1);
      RunKeepsRep(g, ops, n - 1);
      ViewStep(At(g, ops, n - 1), ops[n - 1]);
      assert ops[..n][..n - 1] == ops[..n - 1];
    } else {
      assert ops[..0] == [];
    }
  }

  // ---------------------------------------------------------------- what the view promises

  /** The leader who manages sets the permission of anybody listed, another manager that of ordinary
      members; in both cases to no less than his own, and then that is the value. */
  lemma AllowedTakesEffect(g: Group, o: guid, u: guid, p: u8)
    requires Rep(g) && o in g.managers && u in Keys(g) && Entry(g, o).permissions <= p
    requires o == g.leader || u !in g.managers
    ensures Linked(ChangePermissions(g, o, u, p)) && u in Keys(ChangePermissions(g, o, u, p))
    ensures Entry(ChangePermissions(g, o, u, p), u) == Entry(g, u).(permissions := p)
  {
    ViewChange(g, o, u, p);
    var g' := ChangePermissions(g, o, u, p);
    hide Rep, ChangePermissions, Linked, Entry;
    assert u in Seats(g') && Seats(g')[u].card == Entry(g', u);
  }

  /** Groups with the same roster have the same cards. */
  lemma SameRosterSameCards(g: Group, h: Group, u: guid)
    requires Rep(g) && Rep(h) && Roster(g) == Roster(h) && u in Keys(g)
    ensures u in Keys(h) && Entry(h, u) == Entry(g, u)
  {
    LookupInRange(g, u);
    var i :| 0 <= i < |g.list| && g.list[i] == Lookup(g, u);
    assert Roster(g)[i] == Entry(g, u) && Roster(h)[i] == h.nodes[h.list[i]];
    assert h.list[i] in h.list && InIndex(h, h.list[i]);
  }

  /** ... and, with the same managers and leader, the same view. */
  lemma SameRosterSameRoll(g: Group, h: Group)
    requires Rep(g) && Rep(h) && Roster(g) == Roster(h) && h.id == g.id && h.leader == g.leader
    requires h.managers.Keys == g.managers.Keys && h.members.Keys == g.members.Keys
    ensures RollOf(h) == RollOf(g)
  {
    hide Groups.Count, Distinct, Points, Apart, ListGuids, ListMembers;
    forall u <- Keys(g)
      ensures u in Keys(h) && Entry(h, u) == Entry(g, u)
    {
      SameRosterSameCards(g, h, u);
    }
    forall i | 0 <= i < |g.list|
      ensures Guids(h)[i] == Guids(g)[i]
    {
      assert Roster(g)[i] == g.nodes[g.list[i]] && Roster(h)[i] == h.nodes[h.list[i]];
    }
    assert Guids(h) == Guids(g);
    hide Rep, Linked, Entry, Keys, Guids;
    assert Keys(h) == Keys(g) by { SameKeySets(g, h); }
  }

  lemma SameKeySets(g: Group, h: Group)
    requires h.managers.Keys == g.managers.Keys && h.members.Keys == g.members.Keys
    ensures Keys(h) == Keys(g)
  {
  }
}
