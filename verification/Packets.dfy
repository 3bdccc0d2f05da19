/** The framed packet, the stored message and its codec. */
module Packets {
  import opened Bytes

  const HEAD_LENGTH: nat := 10
  const MAXBUFSIZE: nat := 8192

  datatype Head = Head(sender: u32, pkgType: u16, length: u32)

  /** `to_head`. */
  function HeadBytes(h: Head): (b: seq<byte>)
    ensures |b| == HEAD_LENGTH
  {
    Put32(h.sender) + Put16(h.pkgType) + Put32(h.length)
  }

  /** A whole packet. */
  function Frame(sender: u32, pkgType: u16, payload: seq<byte>): (f: seq<byte>)
    requires |payload| < U32_LIMIT
    ensures |f| == HEAD_LENGTH + |payload|
  {
    HeadBytes(Head(sender, pkgType, |payload|)) + payload
  }

  /** The header fields `fill_head` reads from the start of a buffer. */
  function ReadHead(d: seq<byte>): Head
    requires HEAD_LENGTH <= |d|
  {
    Head(Get32(d, 0), Get16(d, 4), Get32(d, 6))
  }

  /** What `fill_head` returns. */
  function FillHead(d: seq<byte>): nat {
    if |d| < HEAD_LENGTH then 0
    else if |d| - HEAD_LENGTH < ReadHead(d).length then HEAD_LENGTH
    else HEAD_LENGTH + ReadHead(d).length
  }

  lemma ReadHeadBytes(h: Head, post: seq<byte>)
    ensures ReadHead(HeadBytes(h) + post) == h
  {
    var d := HeadBytes(h) + post;
    Get32Put32([], h.sender, Put16(h.pkgType) + Put32(h.length) + post);
    assert d == [] + Put32(h.sender) + (Put16(h.pkgType) + Put32(h.length) + post);
    Get16Put16(Put32(h.sender), h.pkgType, Put32(h.length) + post);
    assert d == Put32(h.sender) + Put16(h.pkgType) + (Put32(h.length) + post);
    Get32Put32(Put32(h.sender) + Put16(h.pkgType), h.length, post);
    assert d == Put32(h.sender) + Put16(h.pkgType) + Put32(h.length) + post;
  }

  /** Framing round trip: a receiver that reads the header consumes exactly the frame, whatever
      follows it, and finds the payload behind the header. */
  lemma FrameRoundTrip(sender: u32, pkgType: u16, payload: seq<byte>, rest: seq<byte>)
    requires |payload| < U32_LIMIT
    ensures var d := Frame(sender, pkgType, payload) + rest;
      ReadHead(d) == Head(sender, pkgType, |payload|)
      && FillHead(d) == |Frame(sender, pkgType, payload)|
      && d[HEAD_LENGTH..FillHead(d)] == payload
  {
    var h := Head(sender, pkgType, |payload|);
    ReadHeadBytes(h, payload + rest);
    assert Frame(sender, pkgType, payload) + rest == HeadBytes(h) + (payload + rest);
  }

  /** `MsgInfo`: `length` is the wire field, `body` the string. */
  datatype Msg = Msg(send: u32, recv: u32, time: u32, length: u32, num: u16, kind: u8, body: seq<byte>)

  const MSG_TYPE_ALL: u8 := 0
  const MSG_TYPE_GROUP: u8 := 1
  const MSG_TYPE_USER: u8 := 2
  const MSG_HEADER: nat := 19

  const NO_MSG := Msg(0, 0, 0, 0, 0, 0, [])

  /** Messages as `from_data` leaves them: the length field is the length of the string. */
  predicate Sound(m: Msg) { m.length == |m.body| }

  function MsgSize(m: Msg): nat { MSG_HEADER + |m.body| }

  function EncodeMsg(m: Msg): (b: seq<byte>)
    ensures |b| == MsgSize(m)
  {
    Put32(m.send) + Put32(m.recv) + Put32(m.time) + Put32(m.length) + Put16(m.num) + [m.kind] + m.body
  }

  /** `MsgInfo::from_data` on a fresh object: the object and the returned index. On a truncated body
      the header fields are already assigned and the index is 0. */
  function DecodeMsg(d: seq<byte>): (r: (Msg, nat))
    ensures r.1 != 0 ==> MSG_HEADER <= r.1 <= |d| && r.1 == MsgSize(r.0) && Sound(r.0)
  {
    if |d| < MSG_HEADER then (NO_MSG, 0)
    else
      var m := Msg(Get32(d, 0), Get32(d, 4), Get32(d, 8), Get32(d, 12), Get16(d, 16), d[18], []);
      if |d| - MSG_HEADER < m.length then (m, 0)
      else (m.(body := d[MSG_HEADER..MSG_HEADER + m.length]), MSG_HEADER + m.length)
  }

  lemma MsgRoundTrip(m: Msg, post: seq<byte>)
    requires Sound(m)
    ensures DecodeMsg(EncodeMsg(m) + post) == (m, MsgSize(m))
  {
    hide Put32, Put16, Get32, Get16;
    var d := EncodeMsg(m) + post;
    var p1, p2, p3 := Put32(m.send), Put32(m.recv), Put32(m.time);
    var p4, p5 := Put32(m.length), Put16(m.num);
    var tail := [m.kind] + m.body + post;
    assert d == [] + p1 + (p2 + p3 + p4 + p5 + tail);
    Get32Put32([], m.send, p2 + p3 + p4 + p5 + tail);
    assert d == p1 + p2 + (p3 + p4 + p5 + tail);
    Get32Put32(p1, m.recv, p3 + p4 + p5 + tail);
    assert d == p1 + p2 + p3 + (p4 + p5 + tail);
    Get32Put32(p1 + p2, m.time, p4 + p5 + tail);
    assert d == p1 + p2 + p3 + p4 + (p5 + tail);
    Get32Put32(p1 + p2 + p3, m.length, p5 + tail);
    assert d == p1 + p2 + p3 + p4 + p5 + tail;
    Get16Put16(p1 + p2 + p3 + p4, m.num, tail);
    assert d[18..] == tail;
    assert d[MSG_HEADER..MSG_HEADER + m.length] == m.body;
  }

  /** `MsgInfo::to_data` into `len` bytes of a buffer. */
  method MsgToData(m: Msg, data: array<byte>, at: nat, len: nat) returns (index: nat)
    requires at + len <= data.Length
    modifies data
    ensures index == if len < MsgSize(m) then 0 else MsgSize(m)
    ensures data[..] == if index == 0 then old(data[..]) else Splice(old(data[..]), at, EncodeMsg(m))
  {
    index := 0;
    if len < MSG_HEADER + |m.body| {
      return;
    }
    hide Put32, Put16, Splice;
    ghost var was := data[..];
    ghost var w := Put32(m.send);
    Store(data, at, Put32(m.send));
    index := index + 4;
    Emit(data, at, was, w, index, Put32(m.recv));
    w, index := w + Put32(m.recv), index + 4;
    Emit(data, at, was, w, index, Put32(m.time));
    w, index := w + Put32(m.time), index + 4;
    Emit(data, at, was, w, index, Put32(m.length));
    w, index := w + Put32(m.length), index + 4;
    Emit(data, at, was, w, index, Put16(m.num));
    w, index := w + Put16(m.num), index + 2;
    Emit(data, at, was, w, index, [m.kind]);
    w, index := w + [m.kind], index + 1;
    Emit(data, at, was, w, index, m.body);
    index := index + |m.body|;
  }
}
