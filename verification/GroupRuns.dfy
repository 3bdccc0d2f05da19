/** What whole runs of group operations keep: the representation, the permission floor, the
    manager set, and the message window. */
module GroupRuns {
  import opened Bytes
  import opened Packets
  import opened Groups

  /** The state after a sequence of operations. */
  function Run(g: Group, ops: seq<Op>): (g': Group)
    requires Linked(g)
    ensures Linked(g')
    decreases |ops|
  {
    if ops == [] then g
    else
      var before := Run(g, ops[..|ops| - 1]);
      LinkedKept(before, ops[|ops| - 1]);
      Apply(before, ops[|ops| - 1])
  }

  /** The state before operation `i` of a run. */
  function At(g: Group, ops: seq<Op>, i: nat): (g': Group)
    requires Linked(g) && i <= |ops|
    ensures Linked(g')
  {
    Run(g, ops[..i])
  }

  lemma AtStep(g: Group, ops: seq<Op>, i: nat)
    requires Linked(g) && i < |ops|
    ensures At(g, ops, i + 1) == Apply(At(g, ops, i), ops[i])
  {
    assert ops[..i + 1][..i] == ops[..i];
  }

  /** Representation over runs: while no operation adds a current manager, the indexes stay exact. */
  lemma {:induction false} RunKeepsRep(g: Group, ops: seq<Op>, n: nat)
    requires Rep(g) && n <= |ops|
    requires forall i :: 0 <= i < n ==> !AddsManager(At(g, ops, i), ops[i])
    ensures Rep(At(g, ops, n))
  {
    if n > 0 {
      RunKeepsRep(g, ops, n - 1);
      AtStep(g, ops, n - 1);
      RepStep(At(g, ops, n - 1), ops[n - 1]);
    } else {
      assert ops[..0] == [];
    }
  }

  // ---------------------------------------------------------------- permissions

  ghost predicate AtLeast(g: Group, floor: int)
    requires Linked(g)
  {
    forall n <- g.list :: floor <= g.nodes[n].permissions
  }

  lemma FloorStep(g: Group, op: Op, floor: int)
    requires Linked(g) && AtLeast(g, floor) && floor <= SEND_TO_GROUP
    ensures Linked(Apply(g, op)) && AtLeast(Apply(g, op), floor)
  {
    hide Count, Inc32, Dec32;
    LinkedKept(g, op);
    match op
    case OpDelete(o, u) =>
      if CanDelete(g, o, u) {
        WithoutFacts(g.list, if u in g.managers then g.managers[u] else g.members[u]);
      }
    case OpAdd(o, u, icon, name) =>
      if CanAdd(g, o, u) {
        GrowDistinct(g.list, |g.nodes|);
      }
    case _ =>
  }

  /** No run lowers any member's permission value below `SEND_TO_GROUP` or below the smallest
      value present at its start, whichever is less. */
  lemma {:induction false} RunKeepsFloor(g: Group, ops: seq<Op>, n: nat, floor: int)
    requires Linked(g) && AtLeast(g, floor) && floor <= SEND_TO_GROUP && n <= |ops|
    ensures AtLeast(At(g, ops, n), floor)
  {
    if n > 0 {
      RunKeepsFloor(g, ops, n - 1, floor);
      AtStep(g, ops, n - 1);
      FloorStep(At(g, ops, n - 1), ops[n - 1], floor);
    } else {
      assert ops[..0] == [];
    }
  }

  /** The managers' index and the permission each of them has. */
  ghost predicate SameManagers(g: Group, g': Group)
    requires Linked(g) && Linked(g')
  {
    && g'.managers == g.managers && g'.leader == g.leader
    && forall u <- g.managers :: g'.nodes[g'.managers[u]].permissions == g.nodes[g.managers[u]].permissions
  }

  /** The operator of an operation; adding a message has none. */
  predicate ByOutsider(op: Op, leader: guid) {
    op.OpAddMsg? || (op.operator != 0 && op.operator != leader)
  }

  lemma OutsiderStep(g: Group, op: Op)
    requires Linked(g) && ByOutsider(op, g.leader)
    ensures Linked(Apply(g, op)) && SameManagers(g, Apply(g, op))
  {
    hide Count, Inc32, Dec32;
    LinkedKept(g, op);
  }

  /** Only the leader, or operator 0, can change who manages or what a manager may do: a run by
      anyone else leaves the manager set and every manager's permission as they were. */
  lemma {:induction false} OutsidersCannotTouchManagers(g: Group, ops: seq<Op>, n: nat)
    requires Linked(g) && n <= |ops|
    requires forall op <- ops :: ByOutsider(op, g.leader)
    ensures SameManagers(g, At(g, ops, n))
  {
    if n > 0 {
      OutsidersCannotTouchManagers(g, ops, n - 1);
      AtStep(g, ops, n - 1);
      OutsiderStep(At(g, ops, n - 1), ops[n - 1]);
    } else {
      assert ops[..0] == [];
    }
  }

  /** The operations that make a leader without a role, or an ordinary member, a manager again. */
  predicate Reinstates(op: Op, leader: guid) {
    (op.OpPromote? && op.user == leader) || (op.OpAdd? && op.operator == 0 && op.user == leader)
  }

  lemma StaysDemoted(g: Group, op: Op)
    requires Linked(g) && g.leader !in g.managers && !Reinstates(op, g.leader)
    ensures Apply(g, op).leader == g.leader && g.leader !in Apply(g, op).managers
  {
    hide Linked;
  }

  /** A leader who demotes himself deletes no ordinary member for as long as he is not reinstated,
      whatever else happens to the group; and he can reinstate himself. */
  lemma {:induction false} SelfDemotionLocksMembers(g: Group, ops: seq<Op>, n: nat, u: guid)
    requires Linked(g) && CanDemote(g, g.leader, g.leader) && n <= |ops|
    requires forall op <- ops :: !Reinstates(op, g.leader)
    ensures Linked(DeleteManager(g, g.leader, g.leader))
    ensures CanPromote(DeleteManager(g, g.leader, g.leader), g.leader, g.leader)
    ensures var g' := At(DeleteManager(g, g.leader, g.leader), ops, n);
      g'.leader == g.leader && g.leader !in g'.managers
      && (u !in g'.managers ==> DeleteMember(g', g.leader, u) == g')
  {
    LinkedMove(g, g.leader, g.leader);
    var g1 := DeleteManager(g, g.leader, g.leader);
    hide Linked, Apply;
    if n > 0 {
      SelfDemotionLocksMembers(g, ops, n - 1, u);
      AtStep(g1, ops, n - 1);
      StaysDemoted(At(g1, ops, n - 1), ops[n - 1]);
    } else {
      assert ops[..0] == [];
    }
  }

  // ---------------------------------------------------------------- the message log

  ghost predicate LogCounted(g: Group) { g.limit == |g.log| <= LOG_MAX }

  lemma DropLastLength(log: seq<Msg>, num: int)
    requires exists m <- log :: m.num == num
    ensures |DropLast(log, num)| == |log| - 1
  {
    var last := |log| - 1;
    if log[last].num != num {
      assert forall m <- log :: m == log[last] || m in log[..last];
      DropLastLength(log[..last], num);
    }
  }

  /** The counter is the log's length, and the log never exceeds its bound. */
  lemma LogCountStep(g: Group, op: Op)
    requires Linked(g) && LogCounted(g)
    ensures LogCounted(Apply(g, op))
  {
    if op.OpDeleteMsg? && exists m <- g.log :: m.num == op.num {
      DropLastLength(g.log, op.num);
    }
  }

  lemma {:induction false} RunKeepsLogCount(g: Group, ops: seq<Op>, n: nat)
    requires Linked(g) && LogCounted(g) && n <= |ops|
    ensures LogCounted(At(g, ops, n))
  {
    if n > 0 {
      RunKeepsLogCount(g, ops, n - 1);
      AtStep(g, ops, n - 1);
      LogCountStep(At(g, ops, n - 1), ops[n - 1]);
    } else {
      assert ops[..0] == [];
    }
  }

  /** The messages a run of operations appends. */
  function Messages(ops: seq<Op>): seq<Msg> {
    if ops == [] then []
    else
      var last := ops[|ops| - 1];
      Messages(ops[..|ops| - 1]) + if last.OpAddMsg? then [last.msg] else []
  }

  /** The simple form: every accepted message, numbered, with no bound. */
  function Archive(id: guid, ms: seq<Msg>): seq<Msg> {
    if ms == [] then []
    else
      var a, m := Archive(id, ms[..|ms| - 1]), ms[|ms| - 1];
      if m.kind == MSG_TYPE_GROUP && m.recv == id then a + [m.(num := Number(a, m))] else a
  }

  function Window(s: seq<Msg>): seq<Msg> {
    if |s| <= LOG_MAX then s else s[|s| - LOG_MAX..]
  }

  /** Refinement: from an empty log, whatever else happens to the group as long as nobody deletes
      messages, the bounded log is the last 100 messages of the unbounded archive. */
  lemma {:induction false} LogIsWindow(g: Group, ops: seq<Op>)
    requires Linked(g) && g.log == [] && g.limit == 0
    requires forall op <- ops :: !op.OpDeleteMsg? && !op.OpClearMsg?
    ensures var g' := Run(g, ops);
      g'.id == g.id && g'.log == Window(Archive(g.id, Messages(ops))) && LogCounted(g')
    decreases |ops|
  {
    hide Window, AddMsg, Linked;
    WindowStep([], NO_MSG);
    if ops != [] {
      var front, op := ops[..|ops| - 1], ops[|ops| - 1];
      assert op in ops && forall o <- front :: o in ops;
      LogIsWindow(g, front);
      var before, ms := Run(g, front), Messages(front);
      if op.OpAddMsg? {
        assert Messages(ops) == ms + [op.msg] && (ms + [op.msg])[..|ms|] == ms;
        AppendToWindow(before, Archive(g.id, ms), op.msg);
      } else {
        LogKept(before, op);
        assert Messages(ops) == ms;
      }
    }
  }

  lemma AppendToWindow(g: Group, a: seq<Msg>, m: Msg)
    requires LogCounted(g) && g.log == Window(a)
    ensures var g' := AddMsg(g, m);
      LogCounted(g') && g'.id == g.id
      && g'.log == Window(if Accepts(g, m) then a + [m.(num := Number(a, m))] else a)
  {
    hide Window;
    WindowStep(a, m.(num := Number(a, m)));
  }

  lemma WindowStep(a: seq<Msg>, m: Msg)
    ensures Window(a + [m]) == if |a| < LOG_MAX then Window(a) + [m] else (Window(a) + [m])[1..]
    ensures |Window(a)| == if |a| < LOG_MAX then |a| else LOG_MAX
    ensures a != [] ==> Window(a) != [] && Window(a)[|Window(a)| - 1] == a[|a| - 1]
  {
  }

  /** With automatic numbering message `i` of the archive is number `i + 1` modulo 65536, for
      archives of any length. */
  lemma {:induction false} ArchiveNumbers(id: guid, ms: seq<Msg>, i: nat)
    requires forall m <- ms :: m.num == 0
    requires i < |Archive(id, ms)|
    ensures Archive(id, ms)[i].num == (i + 1) % 0x1_0000
  {
    var a, m := Archive(id, ms[..|ms| - 1]), ms[|ms| - 1];
    if i < |a| {
      ArchiveNumbers(id, ms[..|ms| - 1], i);
    } else {
      assert m in ms;
      if i > 0 {
        ArchiveNumbers(id, ms[..|ms| - 1], i - 1);
        NextNumber(i);
      }
    }
  }

  lemma NextNumber(i: nat)
    ensures (i % 0x1_0000 + 1) % 0x1_0000 == (i + 1) % 0x1_0000
  {
  }

  /** So the stored numbers are consecutive modulo 65536 and no two of them are equal. */
  lemma WindowNumbersDistinct(g: Group, ops: seq<Op>, i: nat, j: nat)
    requires Linked(g) && g.log == [] && g.limit == 0
    requires forall op <- ops :: !op.OpDeleteMsg? && !op.OpClearMsg? && (op.OpAddMsg? ==> op.msg.num == 0)
    requires i < j < |Run(g, ops).log|
    ensures var log := Run(g, ops).log;
      log[j].num == (log[i].num + (j - i)) % 0x1_0000 && log[i].num != log[j].num
  {
    hide Window, Run, Archive, Linked;
    LogIsWindow(g, ops);
    MessagesUnnumbered(ops);
    var ms := Messages(ops);
    var a := Archive(g.id, ms);
    var skip := WindowAt(a);
    ArchiveNumbers(g.id, ms, skip + i);
    ArchiveNumbers(g.id, ms, skip + j);
    NumberGap(skip + i + 1, j - i);
  }

  lemma {:induction false} MessagesUnnumbered(ops: seq<Op>)
    requires forall op <- ops :: op.OpAddMsg? ==> op.msg.num == 0
    ensures forall m <- Messages(ops) :: m.num == 0
    decreases |ops|
  {
    if ops != [] {
      assert ops[|ops| - 1] in ops && forall o <- ops[..|ops| - 1] :: o in ops;
      MessagesUnnumbered(ops[..|ops| - 1]);
    }
  }

  lemma WindowAt(a: seq<Msg>) returns (skip: nat)
    ensures skip + |Window(a)| == |a| && |Window(a)| <= LOG_MAX
    ensures forall k :: 0 <= k < |Window(a)| ==> Window(a)[k] == a[skip + k]
  {
    skip := if |a| <= LOG_MAX then 0 else |a| - LOG_MAX;
  }

  lemma NumberGap(x: nat, d: nat)
    requires 0 < d < LOG_MAX
    ensures (x + d) % 0x1_0000 == (x % 0x1_0000 + d) % 0x1_0000
    ensures (x + d) % 0x1_0000 != x % 0x1_0000
  {
  }

  /** The numbers in the log go up. */
  ghost predicate Increasing(log: seq<Msg>) {
    forall i, j :: 0 <= i < j < |log| ==> log[i].num < log[j].num
  }

  /** The append that wraps the 16-bit counter. */
  predicate Wraps(g: Group, op: Op) {
    op.OpAddMsg? && Accepts(g, op.msg) && g.log != [] && g.log[|g.log| - 1].num == 0xffff
  }

  lemma DropLastSubsequence(log: seq<Msg>, num: int)
    requires Increasing(log)
    ensures Increasing(DropLast(log, num))
    ensures forall m <- DropLast(log, num) :: m in log
  {
    if log != [] && log[|log| - 1].num != num {
      DropLastSubsequence(log[..|log| - 1], num);
      var d, last := DropLast(log[..|log| - 1], num), log[|log| - 1];
      forall i | 0 <= i < |d| ensures d[i].num < last.num {
        assert d[i] in log[..|log| - 1];
      }
    }
  }

  /** Appending an automatically numbered message, then perhaps dropping the oldest. */
  lemma AppendIncreasing(log: seq<Msg>, m: Msg)
    requires Increasing(log) && m.num == if log == [] then 1 else (log[|log| - 1].num + 1) % 0x1_0000
    ensures Increasing(log + [m]) <==> log == [] || log[|log| - 1].num != 0xffff
    ensures |log| >= 2 ==> (Increasing((log + [m])[1..]) <==> log[|log| - 1].num != 0xffff)
  {
    if log != [] {
      var a, b, n := log + [m], (log + [m])[1..], |log|;
      assert a[n] == m && a[n - 1] == log[n - 1];
      if n >= 2 {
        assert b[n - 1] == m && b[n - 2] == log[n - 1];
      }
    }
  }

  /** With automatic numbering, deletes and clears included, the numbers stay increasing exactly
      until the counter wraps. */
  lemma IncreasingStep(g: Group, op: Op)
    requires Linked(g) && LogCounted(g) && Increasing(g.log)
    requires op.OpAddMsg? ==> op.msg.num == 0
    ensures Increasing(Apply(g, op).log) <==> !Wraps(g, op)
  {
    hide Linked, AddMember, DeleteMember, AddManager, DeleteManager, ChangePermissions;
    match op
    case OpAddMsg(m) =>
      hide Increasing;
      if Accepts(g, m) {
        AppendIncreasing(g.log, m.(num := Number(g.log, m)));
      }
    case OpDeleteMsg(o, num) => DropLastSubsequence(g.log, num);
    case OpClearMsg(o) =>
    case _ => LogKept(g, op);
  }

  /** Operations on members leave the log alone. */
  lemma LogKept(g: Group, op: Op)
    requires Linked(g) && !op.OpAddMsg? && !op.OpDeleteMsg? && !op.OpClearMsg?
    ensures Apply(g, op).log == g.log && Apply(g, op).limit == g.limit && Apply(g, op).id == g.id
  {
    hide Linked;
  }

  lemma {:induction false} RunKeepsIncreasing(g: Group, ops: seq<Op>, n: nat)
    requires Linked(g) && LogCounted(g) && Increasing(g.log) && n <= |ops|
    requires forall op <- ops :: op.OpAddMsg? ==> op.msg.num == 0
    requires forall i :: 0 <= i < n ==> !Wraps(At(g, ops, i), ops[i])
    ensures LogCounted(At(g, ops, n)) && Increasing(At(g, ops, n).log)
  {
    if n > 0 {
      RunKeepsIncreasing(g, ops, n - 1);
      AtStep(g, ops, n - 1);
      LogCountStep(At(g, ops, n - 1), ops[n - 1]);
      IncreasingStep(At(g, ops, n - 1), ops[n - 1]);
    } else {
      assert ops[..0] == [];
    }
  }

  /** Deleting takes out one message, the latest with the number. */
  lemma {:induction false} DropLastTakesLatest(log: seq<Msg>, num: int) returns (i: nat)
    requires exists m <- log :: m.num == num
    ensures i < |log| && log[i].num == num && (forall j :: i < j < |log| ==> log[j].num != num)
    ensures DropLast(log, num) == log[..i] + log[i + 1..]
  {
    var last := |log| - 1;
    if log[last].num == num {
      i := last;
    } else {
      assert forall m <- log :: m == log[last] || m in log[..last];
      i := DropLastTakesLatest(log[..last], num);
      TakenFrom(log, i);
      hide DropLast;
    }
  }

  lemma TakenFrom(log: seq<Msg>, i: nat)
    requires i < |log| - 1
    ensures var front := log[..|log| - 1];
      front[..i] == log[..i] && front[i + 1..] + [log[|log| - 1]] == log[i + 1..]
  {
  }

  /** Managers delete and clear messages, others do not; a number that no message has deletes nothing. */
  lemma DeletionTakesLatest(g: Group, o: guid, num: int) returns (i: nat)
    requires Linked(g) && LogCounted(g)
    ensures o in g.managers && (exists m <- g.log :: m.num == num) ==>
      i < |g.log| && g.log[i].num == num && (forall j :: i < j < |g.log| ==> g.log[j].num != num)
      && Apply(g, OpDeleteMsg(o, num)) == g.(log := g.log[..i] + g.log[i + 1..], limit := g.limit - 1)
    ensures o !in g.managers || (forall m <- g.log :: m.num != num) ==> Apply(g, OpDeleteMsg(o, num)) == g
    ensures Apply(g, OpClearMsg(o)) == if o in g.managers then g.(log := [], limit := 0) else g
  {
    hide Linked, DropLast;
    i := 0;
    if o in g.managers && exists m <- g.log :: m.num == num {
      i := DropLastTakesLatest(g.log, num);
      assert Dec32(g.limit) == g.limit - 1;
    }
  }
}
