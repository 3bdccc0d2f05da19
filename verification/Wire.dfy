/** What clients write and the server reads: the layouts of packets and payloads, field by field. */
module Wire {
  import opened Bytes
  import opened Packets
  import opened Groups
  import opened GroupCodec
  import opened Users
  import opened Servers
  import opened Receive
  import opened Requests

  // ---------------------------------------------------------------- layouts

  /** A packet: the sender, the type, the length of the payload, the payload. */
  lemma FrameLayout(sender: u32, kind: u16, payload: seq<byte>)
    requires |payload| < U32_LIMIT
    ensures Frame(sender, kind, payload) == Put32(sender) + Put16(kind) + Put32(|payload|) + payload
  {
  }

  lemma MsgLayout(m: Msg)
    ensures var d := EncodeMsg(m);
      d[0..4] == Put32(m.send) && d[4..8] == Put32(m.recv) && d[8..12] == Put32(m.time) && d[12..16] == Put32(m.length)
      && d[16..18] == Put16(m.num) && d[18] == m.kind && d[19..] == m.body
  {
    hide Put32, Put16;
  }

  lemma MemberLayout(m: Member)
    ensures var d := EncodeMember(m);
      d[0..4] == Put32(m.groupGuid) && d[4..8] == Put32(m.userGuid) && d[8..12] == Put32(m.iconGuid)
      && d[12..14] == Put16(m.msgCount) && d[14] == m.permissions && d[15] == m.job && d[16..48] == m.name
  {
    hide Put32, Put16;
  }

  /** A group: guid, count, leader, then the members in list order. */
  lemma GroupLayout(g: Group, i: nat)
    requires Linked(g) && i < |g.list|
    ensures var d := EncodeGroup(g);
      d[0..4] == Put32(g.id) && d[4..8] == Put32(g.count) && d[8..12] == Put32(g.leader)
      && 0 <= g.list[i] < |g.nodes| && 12 + 48 * i + 48 <= |d|
      && d[12 + 48 * i..12 + 48 * i + 48] == EncodeMember(g.nodes[g.list[i]])
  {
    hide Put32, EncodeMember, Points, Apart, Distinct, Groups.Count;
    RosterAt(Roster(g), |g.list|, i);
    var d, r := EncodeGroup(g), RosterBytes(Roster(g), |g.list|);
    assert d[12..] == r;
    assert d[12 + 48 * i..12 + 48 * i + 48] == r[48 * i..48 * i + 48];
  }

  lemma {:induction false} RosterAt(r: seq<Member>, n: nat, i: nat)
    requires i < n <= |r|
    ensures RosterBytes(r, n)[48 * i..48 * i + 48] == EncodeMember(r[i])
  {
    hide EncodeMember;
    if i < n - 1 {
      RosterAt(r, n - 1, i);
      assert RosterBytes(r, n)[48 * i..48 * i + 48] == RosterBytes(r, n - 1)[48 * i..48 * i + 48];
    }
  }

  // ---------------------------------------------------------------- requests

  lemma Fields2(a: u32, b: u32, rest: seq<byte>)
    ensures var d := Put32(a) + Put32(b) + rest; Get32(d, 0) == a && Get32(d, 4) == b && d[8..] == rest
  {
    hide Put32, Get32;
    var d := Put32(a) + Put32(b) + rest;
    assert d == [] + Put32(a) + (Put32(b) + rest);
    Get32Put32([], a, Put32(b) + rest);
    Get32Put32(Put32(a), b, rest);
  }

  lemma Field1(a: u32, rest: seq<byte>)
    ensures var d := Put32(a) + rest; Get32(d, 0) == a && d[4..] == rest
  {
    hide Put32, Get32;
    assert Put32(a) + rest == [] + Put32(a) + rest;
    Get32Put32([], a, rest);
  }

  /** The requests that carry one guid. */
  lemma GuidRequests(s: Server, sender: u32, length: u32, u: u32, rest: seq<byte>, now: int, fd: int)
    ensures var d := Put32(u) + rest;
      Requested(s, Head(sender, 2, length), d, now, fd) == EAcountDelete(u, fd)
      && Requested(s, Head(sender, 4, length), d, now, fd) == ELogout(u, now, fd)
      && Requested(s, Head(sender, 61, length), d, now, fd) == EGroupInfoReq(u, fd)
      && Requested(s, Head(sender, 62, length), d, now, fd) == EBriefInfoReq(u, fd)
  {
    hide Put32, Get32;
    Field1(u, rest);
  }

  /** A login: 16 bytes of phone, 64 of password text. Asking whether a phone may register: the phone. */
  lemma PhoneRequests(s: Server, sender: u32, length: u32, phone: seq<byte>, password: seq<byte>, rest: seq<byte>,
      now: int, fd: int)
    requires |phone| == 16 && |password| == 64
    ensures Requested(s, Head(sender, 3, length), phone + password + rest, now, fd) == ELogin(phone, password, now, fd)
    ensures Requested(s, Head(sender, 5, length), phone + rest, now, fd) == ECanReg(phone, fd)
  {
    var d := phone + password + rest;
    assert d[..16] == phone && d[16..80] == password && (phone + rest)[..16] == phone;
  }

  /** Changing a group: the group, who asks, whom it concerns, what to do, the permission. */
  lemma GroupRequests(s: Server, sender: u32, length: u32, g: u32, o: u32, t: u32, k: u8, p: u8, rest: seq<byte>,
      now: int, fd: int)
    ensures Requested(s, Head(sender, 31, length), Put32(g) + Put32(o) + Put32(t) + [k, p] + rest, now, fd)
      == EGroupModify(g, o, t, k, p, now, fd)
    ensures Requested(s, Head(sender, 32, length), Put32(g) + Put32(o) + rest, now, fd) == EGroupDelete(g, o, fd)
  {
    hide Put32, Get32;
    var tail := Put32(t) + [k, p] + rest;
    var d := Put32(g) + Put32(o) + tail;
    assert Put32(g) + Put32(o) + Put32(t) + [k, p] + rest == d;
    Fields2(g, o, tail);
    Fields2(g, o, rest);
    assert d == (Put32(g) + Put32(o)) + Put32(t) + ([k, p] + rest);
    Get32Put32(Put32(g) + Put32(o), t, [k, p] + rest);
    assert d[12] == k && d[13] == p;
  }

  /** Sending a message: the message; the sender is the one in the packet's header. Asking for messages of
      a group: the group, then the byte 1. */
  lemma MsgRequests(s: Server, sender: u32, length: u32, m: Msg, g: u32, rest: seq<byte>, now: int, fd: int)
    requires Sound(m)
    ensures Requested(s, Head(sender, 90, length), EncodeMsg(m) + rest, now, fd) == EMsgSend(sender, m, fd)
    ensures Requested(s, Head(sender, 91, length), Put32(g) + [1] + rest, now, fd) == EMsgListReq(g, fd)
  {
    hide Put32, Get32, EncodeMsg, DecodeMsg;
    MsgRoundTrip(m, rest);
    assert Put32(g) + [1] + rest == Put32(g) + ([1] + rest);
    Field1(g, [1] + rest);
    assert (Put32(g) + ([1] + rest))[4..] == [1] + rest;
    assert (Put32(g) + ([1] + rest))[4] == 1;
  }

  /** Founding a group: what the information packet of a group carries. */
  lemma CreationRequest(s: Server, sender: u32, length: u32, g: Group, now: int, fd: int)
    requires Rep(g) && GroupInRange(g) && g.id != 0
    ensures var e := Requested(s, Head(sender, 30, length), EncodeGroup(g), now, fd);
      e.EGroupAdd? && e.now == now && e.fd == fd && e.info.id == g.id && e.info.leader == g.leader
      && Rep(e.info) && Roster(e.info) == Roster(g)
      && e.info.managers.Keys == g.managers.Keys && e.info.members.Keys == g.members.Keys
  {
    hide EncodeGroup, DecodeGroup, Roster;
    GroupRoundTrip(g, 1, []);
    assert EncodeGroup(g) + [] == EncodeGroup(g);
  }

  /** A group's payload is taken exactly if as many members follow as it announces, and then that is what is
      consumed. */
  lemma CreationDecodes(globalGuid: guid, d: seq<byte>)
    ensures DecodeGroup(globalGuid, d).1
      == if 12 <= |d| && 12 + 48 * Get32(d, 4) <= |d| then 12 + 48 * Get32(d, 4) else 0
  {
    hide Get32, DecodeMembers, Rebuild;
  }

  /** The shortest payload each type needs; 0 for the types whose length varies. */
  function Needs(kind: u16): nat {
    if kind == 0 || kind == 1 then 260
    else if kind in {2, 4, 60, 61, 62} then 4
    else if kind == 3 then 80
    else if kind == 5 then 16
    else if kind == 30 then 12
    else if kind == 31 then 14
    else if kind == 32 then 8
    else if kind == 90 then 19
    else if kind == 91 then 5
    else 0
  }

  /** A payload of fixed length is consumed up to that length, whatever follows it. */
  lemma FixedConsumed(kind: u16, d: seq<byte>, env: Env)
    requires kind in {2, 3, 4, 5, 31, 32, 60, 61, 62, 91}
    ensures Consumed(kind, d, env) == if |d| < Needs(kind) then 0 else Needs(kind)
  {
  }

  predicate KnownType(kind: u16) { kind in {0, 1, 2, 3, 4, 5, 30, 31, 32, 60, 61, 62, 90, 91} }

  /** A payload that is too short, or of an unknown type below 10000, is refused as unparsable; types from
      10000 on are ignored. */
  lemma ShortIsRefused(s: Server, head: Head, d: seq<byte>, now: int, fd: int)
    ensures head.pkgType < 10000 && (!KnownType(head.pkgType) || |d| < Needs(head.pkgType))
      ==> Requested(s, head, d, now, fd) == ERefuse(fd)
    ensures head.pkgType >= 10000 ==> Requested(s, head, d, now, fd) == EIgnore
  {
    hide Get32, DecodeHeader, DecodeMembers, Rebuild;
  }
}
