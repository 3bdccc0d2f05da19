/** The byte image of a group, and how `from_data` rebuilds the indexes from the job bytes. */
module GroupCodec {
  import opened Bytes
  import opened Groups
  import opened GroupInfos

  const MEMBER_SIZE: nat := 48
  const GROUP_HEADER: nat := 12

  function EncodeMember(m: Member): (b: seq<byte>)
    ensures |b| == MEMBER_SIZE
  {
    Put32(m.groupGuid) + Put32(m.userGuid) + Put32(m.iconGuid) + Put16(m.msgCount) + [m.permissions] + [m.job] + m.name
  }

  function DecodeMember(d: seq<byte>, at: nat): Member
    requires at + MEMBER_SIZE <= |d|
  {
    Member(Get32(d, at), Get32(d, at + 4), Get32(d, at + 8), Get16(d, at + 12), d[at + 14], d[at + 15],
      d[at + 16..at + 48])
  }

  predicate Is32(x: int) { 0 <= x < U32_LIMIT }

  /** The integer fields are in the range of their C++ types. */
  predicate MemberInRange(m: Member) { Is32(m.groupGuid) && Is32(m.userGuid) && Is32(m.iconGuid) }

  lemma MemberRoundTrip(pre: seq<byte>, m: Member, post: seq<byte>)
    requires MemberInRange(m)
    ensures DecodeMember(pre + EncodeMember(m) + post, |pre|) == m
  {
    hide Put32, Get32, Put16, Get16;
    var d := pre + EncodeMember(m) + post;
    var p1, p2, p3, p4 := Put32(m.groupGuid), Put32(m.userGuid), Put32(m.iconGuid), Put16(m.msgCount);
    var tail := [m.permissions] + [m.job] + m.name + post;
    assert d == pre + p1 + (p2 + p3 + p4 + tail);
    Get32Put32(pre, m.groupGuid, p2 + p3 + p4 + tail);
    assert d == pre + p1 + p2 + (p3 + p4 + tail);
    Get32Put32(pre + p1, m.userGuid, p3 + p4 + tail);
    assert d == pre + p1 + p2 + p3 + (p4 + tail);
    Get32Put32(pre + p1 + p2, m.iconGuid, p4 + tail);
    assert d == pre + p1 + p2 + p3 + p4 + tail;
    Get16Put16(pre + p1 + p2 + p3, m.msgCount, tail);
    assert d[|pre| + 14..] == tail;
    assert d[|pre| + 16..|pre| + 48] == m.name;
  }

  /** The members in list order. */
  function Roster(g: Group): (r: seq<Member>)
    requires forall n <- g.list :: 0 <= n < |g.nodes|
    ensures |r| == |g.list| && forall i :: 0 <= i < |r| ==> 0 <= g.list[i] < |g.nodes| && r[i] == g.nodes[g.list[i]]
  {
    ListMembers(g.list, g.nodes)
  }

  function ListMembers(list: seq<Node>, nodes: seq<Member>): (r: seq<Member>)
    requires forall n <- list :: 0 <= n < |nodes|
    ensures |r| == |list| && forall i :: 0 <= i < |r| ==> 0 <= list[i] < |nodes| && r[i] == nodes[list[i]]
  {
    if list == [] then []
    else
      assert list[0] in list && forall n <- list[1..] :: n in list;
      [nodes[list[0]]] + ListMembers(list[1..], nodes)
  }

  function RosterBytes(r: seq<Member>, i: nat): (b: seq<byte>)
    requires i <= |r|
    ensures |b| == MEMBER_SIZE * i
  {
    if i == 0 then [] else RosterBytes(r, i - 1) + EncodeMember(r[i - 1])
  }

  function HeaderBytes(id: guid, count: int, leader: guid): (b: seq<byte>)
    ensures |b| == GROUP_HEADER
  {
    Put32(id) + Put32(count) + Put32(leader)
  }

  function EncodeGroup(g: Group): (b: seq<byte>)
    requires Linked(g)
    ensures |b| == GROUP_HEADER + MEMBER_SIZE * |g.list|
  {
    HeaderBytes(g.id, g.count, g.leader) + RosterBytes(Roster(g), |g.list|)
  }

  /** `length()`. */
  function GroupLength(g: Group): int { GROUP_HEADER + MEMBER_SIZE * g.count }

  // ---------------------------------------------------------------- decoding

  function DecodeMembers(d: seq<byte>, n: nat): (r: seq<Member>)
    requires GROUP_HEADER + MEMBER_SIZE * n <= |d|
    ensures |r| == n
    ensures forall i :: 0 <= i < n ==> r[i] == DecodeMember(d, GROUP_HEADER + MEMBER_SIZE * i)
  {
    if n == 0 then [] else DecodeMembers(d, n - 1) + [DecodeMember(d, GROUP_HEADER + MEMBER_SIZE * (n - 1))]
  }

  /** The map built from the first `i` nodes: those whose job is a manager's, or the others. */
  function IndexBy(nodes: seq<Member>, i: nat, managers: bool): (m: map<guid, Node>)
    requires i <= |nodes|
  {
    if i == 0 then map[]
    else
      var m := IndexBy(nodes, i - 1, managers);
      if ManagerJob(nodes[i - 1].job) == managers then m[nodes[i - 1].userGuid := i - 1] else m
  }

  function Range(n: nat): (s: seq<Node>)
    ensures |s| == n && forall i :: 0 <= i < n ==> s[i] == i
  {
    if n == 0 then [] else Range(n - 1) + [n - 1]
  }

  function Rebuild(id: guid, count: int, leader: guid, nodes: seq<Member>): Group {
    Group(id, count, leader, nodes, Range(|nodes|), IndexBy(nodes, |nodes|, true), IndexBy(nodes, |nodes|, false),
      [], 0)
  }

  /** `from_data` on a fresh object: the object and the returned index. A zero guid is replaced by
      the successor of the caller's counter, which is passed by value. */
  function DecodeGroup(globalGuid: guid, d: seq<byte>): (Group, nat) {
    if |d| < GROUP_HEADER then (NewGroup(0), 0)
    else
      var wire, count, leader := Get32(d, 0), Get32(d, 4), Get32(d, 8);
      var id := if wire == 0 then Inc32(globalGuid) else wire;
      if MEMBER_SIZE * count > |d| - GROUP_HEADER then (NewGroup(id).(count := count, leader := leader), 0)
      else (Rebuild(id, count, leader, DecodeMembers(d, count)), GROUP_HEADER + MEMBER_SIZE * count)
  }

  lemma {:induction false} IndexByFacts(nodes: seq<Member>, i: nat, managers: bool)
    requires i <= |nodes|
    ensures forall u <- IndexBy(nodes, i, managers) ::
      var n := IndexBy(nodes, i, managers)[u];
      0 <= n < i && nodes[n].userGuid == u && ManagerJob(nodes[n].job) == managers
    ensures forall k :: 0 <= k < i && ManagerJob(nodes[k].job) == managers ==>
      nodes[k].userGuid in IndexBy(nodes, i, managers) && k <= IndexBy(nodes, i, managers)[nodes[k].userGuid]
  {
    if i > 0 {
      IndexByFacts(nodes, i - 1, managers);
    }
  }

  lemma RangeFacts(n: nat)
    ensures Distinct(Range(n)) && forall k :: k in Range(n) <==> 0 <= k < n
  {
    forall k | 0 <= k < n ensures k in Range(n) {
      assert Range(n)[k] == k;
    }
  }

  /** Whatever bytes arrive, an accepted group has no dangling or mislabelled index entry. */
  lemma RebuildLinked(id: guid, leader: guid, nodes: seq<Member>)
    requires |nodes| < U32_LIMIT
    ensures Linked(Rebuild(id, |nodes|, leader, nodes))
  {
    IndexByFacts(nodes, |nodes|, true);
    IndexByFacts(nodes, |nodes|, false);
    RangeFacts(|nodes|);
  }

  predicate NoRepeats(nodes: seq<Member>) {
    forall i, j :: 0 <= i < j < |nodes| ==> nodes[i].userGuid != nodes[j].userGuid
  }

  lemma RebuildRepOnlyIf(id: guid, leader: guid, nodes: seq<Member>)
    requires |nodes| < U32_LIMIT
    requires Rep(Rebuild(id, |nodes|, leader, nodes))
    ensures NoRepeats(nodes)
  {
    var g := Rebuild(id, |nodes|, leader, nodes);
    IndexedDistinct(g);
    hide IndexBy, Rep, Indexed, Linked, InIndex, Keys;
    assert forall i :: 0 <= i < |nodes| ==> Guids(g)[i] == nodes[i].userGuid;
  }

  lemma RebuildRepIf(id: guid, leader: guid, nodes: seq<Member>)
    requires |nodes| < U32_LIMIT && NoRepeats(nodes)
    ensures Rep(Rebuild(id, |nodes|, leader, nodes))
  {
    hide IndexBy, Linked;
    var g := Rebuild(id, |nodes|, leader, nodes);
    RebuildLinked(id, leader, nodes);
    IndexByFacts(nodes, |nodes|, true);
    IndexByFacts(nodes, |nodes|, false);
    RangeFacts(|nodes|);
    forall u <- g.managers
      ensures u !in g.members
    {
    }
    forall n <- g.list
      ensures 0 <= n < |nodes| && InIndex(g, n)
      ensures ManagerJob(g.nodes[n].job) <==> g.nodes[n].userGuid in g.managers
    {
    }
  }

  /** ... and it meets the whole representation invariant exactly when no guid occurs twice. */
  lemma RebuildRep(id: guid, leader: guid, nodes: seq<Member>)
    requires |nodes| < U32_LIMIT
    ensures Rep(Rebuild(id, |nodes|, leader, nodes)) <==> NoRepeats(nodes)
  {
    hide Rep, NoRepeats, Rebuild;
    if Rep(Rebuild(id, |nodes|, leader, nodes)) {
      RebuildRepOnlyIf(id, leader, nodes);
    }
    if NoRepeats(nodes) {
      RebuildRepIf(id, leader, nodes);
    }
  }

  predicate GroupInRange(g: Group)
    requires Linked(g)
  {
    && Is32(g.id) && Is32(g.leader)
    && |g.list| < U32_LIMIT
    && forall m <- Roster(g) :: MemberInRange(m)
  }

  lemma {:induction false} RosterAt(pre: seq<byte>, r: seq<Member>, n: nat, i: nat, post: seq<byte>)
    requires i < n <= |r| && MemberInRange(r[i])
    ensures DecodeMember(pre + RosterBytes(r, n) + post, |pre| + MEMBER_SIZE * i) == r[i]
  {
    hide EncodeMember, DecodeMember;
    var b, last := RosterBytes(r, n - 1), EncodeMember(r[n - 1]);
    assert pre + RosterBytes(r, n) + post == pre + b + (last + post);
    if i == n - 1 {
      assert pre + RosterBytes(r, n) + post == (pre + b) + last + post;
      MemberRoundTrip(pre + b, r[i], post);
    } else {
      RosterAt(pre, r, n - 1, i, last + post);
    }
  }

  lemma HeaderAt(id: guid, count: int, leader: guid, post: seq<byte>)
    requires Is32(id) && Is32(count) && Is32(leader)
    ensures var d := HeaderBytes(id, count, leader) + post;
      Get32(d, 0) == id && Get32(d, 4) == count && Get32(d, 8) == leader
  {
    hide Put32, Get32;
    var d, p1, p2, p3 := HeaderBytes(id, count, leader) + post, Put32(id), Put32(count), Put32(leader);
    assert d == [] + p1 + (p2 + p3 + post);
    Get32Put32([], id, p2 + p3 + post);
    assert d == p1 + p2 + (p3 + post);
    Get32Put32(p1, count, p3 + post);
    assert d == (p1 + p2) + p3 + post;
    Get32Put32(p1 + p2, leader, post);
  }

  /** Decoding an encoded group rebuilds it from its roster alone, whatever follows. */
  lemma DecodeEncoded(g: Group, globalGuid: guid, post: seq<byte>)
    requires Linked(g) && GroupInRange(g) && g.id != 0
    ensures DecodeGroup(globalGuid, EncodeGroup(g) + post)
         == (Rebuild(g.id, |g.list|, g.leader, Roster(g)), GROUP_HEADER + MEMBER_SIZE * |g.list|)
  {
    hide Put32, Get32, DecodeMember, EncodeMember, HeaderBytes, RosterBytes;
    var r, n := Roster(g), |g.list|;
    var head := HeaderBytes(g.id, g.count, g.leader);
    var d := EncodeGroup(g) + post;
    assert g.count == n;
    HeaderAt(g.id, n, g.leader, RosterBytes(r, n) + post);
    assert d == head + (RosterBytes(r, n) + post);
    assert d == head + RosterBytes(r, n) + post;
    forall i | 0 <= i < n
      ensures DecodeMembers(d, n)[i] == r[i]
    {
      assert r[i] in r;
      RosterAt(head, r, n, i, post);
    }
    assert DecodeMembers(d, n) == r;
  }

  /** Codec theorem: under the representation invariant `to_data` fills exactly `length()` bytes and
      `from_data` into a fresh object restores the member sequence, the count, the leader and the
      manager/member partition, which it recomputes from the job bytes. */
  lemma GroupRoundTrip(g: Group, globalGuid: guid, post: seq<byte>)
    requires Rep(g) && GroupInRange(g) && g.id != 0
    ensures |EncodeGroup(g)| == GroupLength(g)
    ensures var (g', index) := DecodeGroup(globalGuid, EncodeGroup(g) + post);
      index == GroupLength(g) && Rep(g')
      && g'.id == g.id && g'.count == g.count && g'.leader == g.leader
      && Roster(g') == Roster(g)
      && g'.managers.Keys == g.managers.Keys && g'.members.Keys == g.members.Keys
  {
    hide EncodeGroup, DecodeGroup, IndexBy;
    DecodeEncoded(g, globalGuid, post);
    RosterNoRepeats(g);
    RebuildRepIf(g.id, g.leader, Roster(g));
    RebuildRoster(g);
    RebuildKeys(g, true);
    RebuildKeys(g, false);
  }

  lemma RosterNoRepeats(g: Group)
    requires Rep(g)
    ensures NoRepeats(Roster(g))
  {
    IndexedDistinct(g);
    assert forall i :: 0 <= i < |g.list| ==> Roster(g)[i].userGuid == Guids(g)[i];
  }

  lemma RebuildRoster(g: Group)
    requires Linked(g) && Linked(Rebuild(g.id, |g.list|, g.leader, Roster(g)))
    ensures Roster(Rebuild(g.id, |g.list|, g.leader, Roster(g))) == Roster(g)
  {
  }

  lemma RebuildKeys(g: Group, managers: bool)
    requires Rep(g)
    ensures IndexBy(Roster(g), |g.list|, managers).Keys == if managers then g.managers.Keys else g.members.Keys
  {
    hide IndexBy, Roster;
    var r := Roster(g);
    var index, keys := IndexBy(r, |g.list|, managers), if managers then g.managers.Keys else g.members.Keys;
    IndexByFacts(r, |g.list|, managers);
    RosterRoles(g);
    forall u <- index
      ensures u in keys
    {
      assert r[index[u]].userGuid == u;
    }
    forall u <- keys
      ensures u in index
    {
      assert Lookup(g, u) in g.list;
      var i :| 0 <= i < |r| && g.list[i] == Lookup(g, u);
      assert r[i].userGuid == u && (ManagerJob(r[i].job) == managers);
    }
  }

  lemma RosterRoles(g: Group)
    requires Rep(g)
    ensures forall i :: 0 <= i < |g.list| ==>
      var m := Roster(g)[i];
      (ManagerJob(m.job) ==> m.userGuid in g.managers) && (!ManagerJob(m.job) ==> m.userGuid in g.members)
  {
    forall i | 0 <= i < |g.list|
      ensures g.list[i] in g.list && InIndex(g, g.list[i])
    {
      assert g.list[i] in g.list;
    }
  }

  // ---------------------------------------------------------------- the methods

  /** `group_member_info::to_data`. */
  method MemberToData(m: Member, data: array<byte>, at: nat, len: nat) returns (index: nat)
    requires at + len <= data.Length
    modifies data
    ensures index == if len < MEMBER_SIZE then 0 else MEMBER_SIZE
    ensures data[..] == if index == 0 then old(data[..]) else Splice(old(data[..]), at, EncodeMember(m))
  {
    index := 0;
    if len < MEMBER_SIZE {
      return;
    }
    hide Put32, Put16, Splice;
    ghost var was := data[..];
    ghost var w := Put32(m.groupGuid);
    Store(data, at, Put32(m.groupGuid));
    index := index + 4;
    Emit(data, at, was, w, index, Put32(m.userGuid));
    w, index := w + Put32(m.userGuid), index + 4;
    Emit(data, at, was, w, index, Put32(m.iconGuid));
    w, index := w + Put32(m.iconGuid), index + 4;
    Emit(data, at, was, w, index, Put16(m.msgCount));
    w, index := w + Put16(m.msgCount), index + 2;
    Emit(data, at, was, w, index, [m.permissions]);
    w, index := w + [m.permissions], index + 1;
    Emit(data, at, was, w, index, [m.job]);
    w, index := w + [m.job], index + 1;
    Emit(data, at, was, w, index, m.name);
    index := index + 32;
  }

  /** `GroupInfo::to_data` into `len` bytes of a buffer. */
  method GroupToData(g: GroupInfo, data: array<byte>, at: nat, len: nat) returns (index: nat)
    requires g.Valid() && |g.membersList| < U32_LIMIT && at + len <= data.Length
    modifies data
    ensures index == if len < GroupLength(g.State()) then 0 else GroupLength(g.State())
    ensures data[..] == if index == 0 then old(data[..]) else Splice(old(data[..]), at, EncodeGroup(g.State()))
  {
    hide Put32, Splice, EncodeMember;
    ghost var s, r := g.State(), Roster(g.State());
    assert s.count == |s.list|;
    index := 0;
    if len < GROUP_HEADER + MEMBER_SIZE * g.memberCount {
      return;
    }
    ghost var was := data[..];
    ghost var w := Put32(g.groupGuid);
    Store(data, at, Put32(g.groupGuid));
    index := index + 4;
    Emit(data, at, was, w, index, Put32(g.memberCount));
    w, index := w + Put32(g.memberCount), index + 4;
    Emit(data, at, was, w, index, Put32(g.leaderGuid));
    w, index := w + Put32(g.leaderGuid), index + 4;
    assert w == HeaderBytes(s.id, s.count, s.leader);
    index := RosterToData(g, data, at, len, was, w);
  }

  method RosterToData(g: GroupInfo, data: array<byte>, at: nat, len: nat, ghost was: seq<byte>,
      ghost w: seq<byte>) returns (index: nat)
    requires g.Valid() && |was| == data.Length && |w| == GROUP_HEADER && at + len <= data.Length
    requires GROUP_HEADER + MEMBER_SIZE * |g.membersList| <= len
    requires data[..] == Splice(was, at, w)
    modifies data
    ensures index == GROUP_HEADER + MEMBER_SIZE * |g.membersList|
    ensures data[..] == Splice(was, at, w + RosterBytes(Roster(g.State()), |g.membersList|))
  {
    hide Splice, EncodeMember, RosterBytes;
    ghost var s, r := g.State(), Roster(g.State());
    assert w + [] == w;
    index := GROUP_HEADER;
    var tempCount := 0;
    while tempCount < |g.membersList|
      invariant 0 <= tempCount <= |s.list| && g.State() == s
      invariant index == GROUP_HEADER + MEMBER_SIZE * tempCount
      invariant data[..] == Splice(was, at, w + RosterBytes(r, tempCount))
    {
      var n := g.membersList[tempCount];
      assert n in s.list;
      var tmp := MemberToData(g.nodes[n], data, at + index, len - index);
      EmitMember(was, at, w, r, tempCount);
      index := index + tmp;
      tempCount := tempCount + 1;
    }
  }

  lemma EmitMember(was: seq<byte>, at: nat, w: seq<byte>, r: seq<Member>, k: nat)
    requires k < |r| && at + |w| + MEMBER_SIZE * (k + 1) <= |was|
    ensures var done := w + RosterBytes(r, k);
      |done| == |w| + MEMBER_SIZE * k
      && Splice(Splice(was, at, done), at + |done|, EncodeMember(r[k]))
        == Splice(was, at, w + RosterBytes(r, k + 1))
  {
    hide Splice, EncodeMember;
    SpliceSplice(was, at, w + RosterBytes(r, k), EncodeMember(r[k]));
    assert w + RosterBytes(r, k) + EncodeMember(r[k]) == w + RosterBytes(r, k + 1);
  }

  /** `GroupInfo::from_data` into a fresh object. */
  method GroupFromData(g: GroupInfo, globalGuid: guid, d: seq<byte>) returns (index: nat)
    requires g.State() == NewGroup(0)
    modifies g
    ensures (g.State(), index) == DecodeGroup(globalGuid, d)
    ensures index != 0 ==> g.Valid()
  {
    hide DecodeMember, IndexBy, DecodeMembers, Inc32, Linked;
    index := 0;
    if |d| < GROUP_HEADER + MEMBER_SIZE * g.memberCount {
      return;
    }
    g.groupGuid := Get32(d, index);
    index := index + 4;
    if g.groupGuid == 0 {
      g.groupGuid := Inc32(globalGuid);
    }
    g.memberCount := Get32(d, index);
    index := index + 4;
    g.leaderGuid := Get32(d, index);
    index := index + 4;
    if g.memberCount * MEMBER_SIZE > |d| - index {
      return 0;
    }
    index := ReadMembers(g, d, index);
    RebuildLinked(g.groupGuid, g.leaderGuid, g.nodes);
  }

  method ReadMembers(g: GroupInfo, d: seq<byte>, start: nat) returns (index: nat)
    requires 0 <= g.memberCount
      && g.State() == Group(g.groupGuid, g.memberCount, g.leaderGuid, [], [], map[], map[], [], 0)
    requires start == GROUP_HEADER && GROUP_HEADER + MEMBER_SIZE * g.memberCount <= |d|
    modifies g
    ensures g.State() == Rebuild(old(g.groupGuid), old(g.memberCount), old(g.leaderGuid),
      DecodeMembers(d, old(g.memberCount)))
    ensures index == GROUP_HEADER + MEMBER_SIZE * g.memberCount
  {
    hide DecodeMember;
    ghost var n, was := g.memberCount, g.State();
    index := start;
    var i := 0;
    while i < g.memberCount
      invariant 0 <= i <= n && index == GROUP_HEADER + MEMBER_SIZE * i
      invariant g.State() == was.(nodes := DecodeMembers(d, i), list := Range(i),
          managers := IndexBy(DecodeMembers(d, i), i, true), members := IndexBy(DecodeMembers(d, i), i, false))
    {
      var m := DecodeMember(d, index);
      PrefixIndex(DecodeMembers(d, i), m, true);
      PrefixIndex(DecodeMembers(d, i), m, false);
      g.nodes, g.membersList := g.nodes + [m], g.membersList + [i];
      if m.job == JOB_LEADER || m.job == JOB_MANAGER {
        g.managersMap := g.managersMap[m.userGuid := i];
      } else {
        g.membersMap := g.membersMap[m.userGuid := i];
      }
      index := index + MEMBER_SIZE;
      i := i + 1;
    }
  }

  lemma PrefixIndex(nodes: seq<Member>, m: Member, managers: bool)
    ensures IndexBy(nodes + [m], |nodes|, managers) == IndexBy(nodes, |nodes|, managers)
  {
    PrefixIndexAt(nodes, m, |nodes|, managers);
  }

  lemma PrefixIndexAt(nodes: seq<Member>, m: Member, i: nat, managers: bool)
    requires i <= |nodes|
    ensures IndexBy(nodes + [m], i, managers) == IndexBy(nodes, i, managers)
  {
  }
}
