/** What the bytes of a packet ask for. */
module Requests {
  import opened Bytes
  import opened Packets
  import opened Groups
  import opened GroupCodec
  import opened Users
  import opened Servers
  import opened CustomParse
  import opened MessageLists
  import opened Receive

  /** Requests for a user's whole profile, and for a user's private messages, are not modelled. */
  predicate Modelled(pkgType: u16, payload: seq<byte>) {
    && pkgType != USER_INFO_REQ
    && (pkgType == MSG_LIST_REQ && 5 <= |payload| ==> payload[4] != 2)
  }

  function EnvOf(s: Server, now: int): Env { Env(s.lastUser, now, s.hash) }

  /** The step a packet causes. */
  function Requested(s: Server, head: Head, payload: seq<byte>, now: int, fd: int): Event {
    var kind := head.pkgType;
    if kind > SERVER_MSG_TYPE_MAX then EIgnore
    else if Consumed(kind, payload, EnvOf(s, now)) == 0 then ERefuse(fd)
    else if kind == ACOUNT_ADD then EAcountAdd(DecodeUser(s.lastUser, now, s.hash, payload).0, now, fd)
    else if kind == ACOUNT_MODIFY then EAcountModify(DecodeUser(s.lastUser, now, s.hash, payload).0, fd)
    else if kind == ACOUNT_DELETE then EAcountDelete(Get32(payload, 0), fd)
    else if kind == ACOUNT_LOGIN then ELogin(payload[..16], payload[16..80], now, fd)
    else if kind == ACOUNT_LOGOUT then ELogout(Get32(payload, 0), now, fd)
    else if kind == ACOUNT_CAN_REG then ECanReg(payload[..16], fd)
    else if kind == GROUP_ADD then EGroupAdd(DecodeGroup(1, payload).0, now, fd)
    else if kind == GROUP_MODIFY then
      EGroupModify(Get32(payload, 0), Get32(payload, 4), Get32(payload, 8), payload[12], payload[13], now, fd)
    else if kind == GROUP_DELETE then EGroupDelete(Get32(payload, 0), Get32(payload, 4), fd)
    else if kind == GROUP_INFO_REQ then EGroupInfoReq(Get32(payload, 0), fd)
    else if kind == USER_INFO_BRIEF_REQ then EBriefInfoReq(Get32(payload, 0), fd)
    else if kind == MSG_SEND then EMsgSend(head.sender, DecodeMsg(payload).0, fd)
    else if kind == MSG_LIST_REQ && payload[4] == 1 then EMsgListReq(Get32(payload, 0), fd)
    else EIgnore
  }

  lemma Refusals(s: Server, head: Head, payload: seq<byte>, now: int, fd: int)
    ensures var e, c := Requested(s, head, payload, now, fd), Consumed(head.pkgType, payload, EnvOf(s, now));
      (head.pkgType > SERVER_MSG_TYPE_MAX ==> e == EIgnore && c == 0)
      && (head.pkgType <= SERVER_MSG_TYPE_MAX && c == 0 ==> e == ERefuse(fd))
  {
  }

  /** What every decoder guarantees: users have joined nothing, groups have no messages, and a
      message's length field is the length of its text. */
  lemma RequestsAreFromWire(s: Server, head: Head, payload: seq<byte>, now: int, fd: int)
    ensures var e := Requested(s, head, payload, now, fd);
      FromWire(e)
      && (e.EAcountAdd? ==> e.wire.joined == map[]) && (e.EAcountModify? ==> e.wire.joined == map[])
  {
    hide Get32, Get16, DecodeMembers, IndexBy, Parse, Chars;
  }

  /** A message is no longer than the payload it came in. */
  lemma RequestsFit(s: Server, head: Head, payload: seq<byte>, now: int, fd: int)
    requires |payload| <= PAYLOAD_MAX
    ensures WireFits(Requested(s, head, payload, now, fd))
  {
    hide DecodeMsg, DecodeUser, DecodeGroup, Get32;
  }

  /** A decoded group is well formed whatever bytes arrived. */
  lemma DecodedSane(globalGuid: guid, d: seq<byte>)
    ensures DecodeGroup(globalGuid, d).1 != 0 ==> GroupSane(DecodeGroup(globalGuid, d).0)
  {
    if DecodeGroup(globalGuid, d).1 != 0 {
      var g := DecodeGroup(globalGuid, d).0;
      RebuildLinked(g.id, g.leader, g.nodes);
    }
  }
}
