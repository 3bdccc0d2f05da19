/** `ClientMsgListAck`: a count, a table of body sizes filled in after the bodies, and the bodies. */
module MsgListAck {
  import opened Bytes
  import opened Packets

  const CLIENT_MSG_LIST_ACK: u16 := 10091

  /** Bytes before the first body when there are `n` messages. */
  function TableEnd(n: nat): nat { 4 + 4 * n }

  /** The bodies written for the first `i` messages into `room` bytes: a message that no longer
      fits is skipped. */
  function Bodies(ms: seq<Msg>, i: nat, room: nat): (b: seq<byte>)
    requires i <= |ms|
    ensures |b| <= room
  {
    if i == 0 then []
    else
      var b := Bodies(ms, i - 1, room);
      if room - |b| < MsgSize(ms[i - 1]) then b else b + EncodeMsg(ms[i - 1])
  }

  /** Table entry `i`: what `MsgInfo::to_data` returned for message `i`. */
  function Entry(ms: seq<Msg>, i: nat, room: nat): (e: nat)
    requires i < |ms|
    ensures e <= room
  {
    if room - |Bodies(ms, i, room)| < MsgSize(ms[i]) then 0 else MsgSize(ms[i])
  }

  function Entries(ms: seq<Msg>, room: u32): (t: seq<u32>)
    ensures |t| == |ms|
  {
    seq(|ms|, i requires 0 <= i < |ms| => Entry(ms, i, room))
  }

  function TableBytes(t: seq<u32>, i: nat): (b: seq<byte>)
    requires i <= |t|
    ensures |b| == 4 * i
  {
    if i == 0 then [] else TableBytes(t, i - 1) + Put32(t[i - 1])
  }

  lemma {:induction false} TableBytesAt(t: seq<u32>, n: nat, i: nat, pre: seq<byte>, post: seq<byte>)
    requires i < n <= |t|
    ensures Get32(pre + TableBytes(t, n) + post, |pre| + 4 * i) == t[i]
  {
    hide Put32, Get32;
    var b, last := TableBytes(t, n - 1), Put32(t[n - 1]);
    assert pre + TableBytes(t, n) + post == pre + b + (last + post);
    if i == n - 1 {
      assert pre + TableBytes(t, n) + post == (pre + b) + last + post;
      Get32Put32(pre + b, t[i], post);
    } else {
      TableBytesAt(t, n - 1, i, pre, last + post);
    }
  }

  /** Everything `to_data` writes into `len` bytes. */
  function Encode(ms: seq<Msg>, len: u32): (b: seq<byte>)
    requires TableEnd(|ms|) <= len
    ensures TableEnd(|ms|) <= |b| <= len
  {
    var n, room := |ms|, len - TableEnd(|ms|);
    Put32(n) + TableBytes(Entries(ms, room), n) + Bodies(ms, n, room)
  }

  function BodiesSize(ms: seq<Msg>, i: nat): nat
    requires i <= |ms|
  {
    if i == 0 then 0 else BodiesSize(ms, i - 1) + MsgSize(ms[i - 1])
  }

  lemma BodiesSizeGrows(ms: seq<Msg>, i: nat, j: nat)
    requires i <= j <= |ms|
    ensures BodiesSize(ms, i) <= BodiesSize(ms, j)
    decreases j
  {
    if i < j {
      BodiesSizeGrows(ms, i, j - 1);
    }
  }

  /** While the messages fit none is skipped. */
  lemma {:induction false} WhileFit(ms: seq<Msg>, i: nat, k: nat, room: nat)
    requires i <= k <= |ms| && BodiesSize(ms, k) <= room
    ensures |Bodies(ms, i, room)| == BodiesSize(ms, i)
    ensures i < k ==> Entry(ms, i, room) == MsgSize(ms[i])
  {
    BodiesSizeGrows(ms, i, k);
    if i > 0 {
      WhileFit(ms, i - 1, k, room);
    }
    if i < k {
      BodiesSizeGrows(ms, i + 1, k);
    }
  }

  /** Bodies are only ever appended. */
  lemma {:induction false} BodiesGrow(ms: seq<Msg>, i: nat, n: nat, room: nat) returns (tail: seq<byte>)
    requires i <= n <= |ms|
    ensures Bodies(ms, n, room) == Bodies(ms, i, room) + tail
    decreases n
  {
    hide EncodeMsg;
    if i == n {
      tail := [];
    } else {
      tail := BodiesGrow(ms, i, n - 1, room);
      var b := Bodies(ms, n - 1, room);
      if room - |b| >= MsgSize(ms[n - 1]) {
        tail := tail + EncodeMsg(ms[n - 1]);
      }
    }
  }

  /** The parser's loop after `i` table entries. */
  datatype Scanned = Scanned(ok: bool, index: nat, list: seq<Msg>)

  function Scan(d: seq<byte>, table: seq<u32>, i: nat, start: Scanned): (s: Scanned)
    requires i <= |table| && start.index <= |d|
    ensures s.index <= |d|
  {
    if i == 0 then start
    else
      var s := Scan(d, table, i - 1, start);
      if !s.ok || |d| < s.index + table[i - 1] then s.(ok := false)
      else
        var (m, c) := DecodeMsg(d[s.index..]);
        Scanned(true, s.index + c, s.list + [m])
  }

  /** The table as read from the buffer. */
  function ReadTable(d: seq<byte>, n: nat): (t: seq<u32>)
    requires TableEnd(n) <= |d|
    ensures |t| == n
  {
    seq(n, i requires 0 <= i < n => Get32(d, 4 + 4 * i))
  }

  /** `from_data` on a fresh object: the returned index and the message list. */
  function Decode(d: seq<byte>): (nat, seq<Msg>) {
    if |d| < 4 then (0, [])
    else
      var n := Get32(d, 0);
      if |d| < TableEnd(n) then (TableEnd(n), [])
      else
        var s := Scan(d, ReadTable(d, n), n, Scanned(true, TableEnd(n), []));
        (if s.ok then s.index else 0, s.list)
  }

  lemma ScanStep(d: seq<byte>, table: seq<u32>, i: nat, start: Scanned, at: nat, list: seq<Msg>, m: Msg,
      tail: seq<byte>)
    requires 0 < i <= |table| && start.index <= |d| && at <= |d|
    requires Scan(d, table, i - 1, start) == Scanned(true, at, list)
    requires d[at..] == EncodeMsg(m) + tail && table[i - 1] == MsgSize(m) && Sound(m)
    ensures Scan(d, table, i, start) == Scanned(true, at + MsgSize(m), list + [m])
  {
    hide EncodeMsg, DecodeMsg;
    MsgRoundTrip(m, tail);
  }

  /** What lies from the place of message `k` on, when the messages before it fit. */
  lemma SuffixAt(ms: seq<Msg>, front: seq<byte>, k: nat, room: nat) returns (tail: seq<byte>)
    requires k <= |ms| && BodiesSize(ms, k) <= room
    ensures var d, at := front + Bodies(ms, |ms|, room), |front| + BodiesSize(ms, k);
      at <= |d| && d[at..] == tail
    ensures k < |ms| && BodiesSize(ms, k + 1) <= room ==>
      EncodeMsg(ms[k]) <= tail && tail == EncodeMsg(ms[k]) + tail[MsgSize(ms[k])..]
  {
    hide EncodeMsg, Bodies;
    tail := BodiesGrow(ms, k, |ms|, room);
    WhileFit(ms, k, k, room);
    assert front + Bodies(ms, |ms|, room) == (front + Bodies(ms, k, room)) + tail;
    if k < |ms| && BodiesSize(ms, k + 1) <= room {
      var rest := BodiesGrow(ms, k + 1, |ms|, room);
      NextBody(ms, k, room);
      assert Bodies(ms, |ms|, room) == Bodies(ms, k, room) + (EncodeMsg(ms[k]) + rest);
      Cancel(Bodies(ms, k, room), tail, EncodeMsg(ms[k]) + rest);
    }
  }

  lemma Cancel(front: seq<byte>, a: seq<byte>, b: seq<byte>)
    requires front + a == front + b
    ensures a == b
  {
    assert a == (front + a)[|front|..] && b == (front + b)[|front|..];
  }

  lemma NextBody(ms: seq<Msg>, k: nat, room: nat)
    requires k < |ms| && BodiesSize(ms, k + 1) <= room
    ensures Bodies(ms, k + 1, room) == Bodies(ms, k, room) + EncodeMsg(ms[k])
  {
    hide EncodeMsg;
    WhileFit(ms, k, k + 1, room);
  }

  /** Scanning what was written finds the messages that fit, one by one. */
  lemma {:induction false} ScanEncoded(ms: seq<Msg>, table: seq<u32>, front: seq<byte>, i: nat, room: nat)
    requires i <= |ms| == |table| && BodiesSize(ms, i) <= room && |front| == TableEnd(|ms|)
    requires forall k :: 0 <= k < i ==> table[k] == MsgSize(ms[k])
    requires forall m <- ms :: Sound(m)
    ensures Scan(front + Bodies(ms, |ms|, room), table, i, Scanned(true, |front|, []))
         == Scanned(true, |front| + BodiesSize(ms, i), ms[..i])
  {
    hide Bodies, Scan, MsgSize;
    if i > 0 {
      var d, k := front + Bodies(ms, |ms|, room), i - 1;
      BodiesSizeGrows(ms, k, i);
      ScanEncoded(ms, table, front, k, room);
      var tail := SuffixAt(ms, front, k, room);
      ScanStep(d, table, i, Scanned(true, |front|, []), |front| + BodiesSize(ms, k), ms[..k], ms[k],
        tail[MsgSize(ms[k])..]);
      assert ms[..i] == ms[..k] + [ms[k]];
    } else {
      ScanNothing(front + Bodies(ms, |ms|, room), table, Scanned(true, |front|, []));
      assert ms[..i] == [];
    }
  }

  lemma ScanNothing(d: seq<byte>, table: seq<u32>, start: Scanned)
    requires start.index <= |d|
    ensures Scan(d, table, 0, start) == start
  {
  }

  /** The table as the receiver reads it, and the bytes it scans. */
  lemma EncodedLayout(ms: seq<Msg>, len: u32)
    requires TableEnd(|ms|) <= len
    ensures var d, n, room := Encode(ms, len), |ms|, len - TableEnd(|ms|);
      var front := Put32(n) + TableBytes(Entries(ms, room), n);
      d == front + Bodies(ms, n, room) && |front| == TableEnd(n) && TableEnd(n) <= |d|
      && Get32(d, 0) == n && ReadTable(d, n) == Entries(ms, room)
  {
    hide Put32, Get32, Bodies, Entry;
    var n, d, room := |ms|, Encode(ms, len), len - TableEnd(|ms|);
    var t, b := Entries(ms, room), Bodies(ms, n, room);
    assert d == [] + Put32(n) + (TableBytes(t, n) + b);
    Get32Put32([], n, TableBytes(t, n) + b);
    forall i | 0 <= i < n
      ensures ReadTable(d, n)[i] == t[i]
    {
      TableBytesAt(t, n, i, Put32(n), b);
    }
  }

  /** When everything fits, the decoder consumes every byte and returns the messages in order, and
      table entry `i` is the size of message `i`. */
  lemma EncodeRoundTrip(ms: seq<Msg>, len: u32)
    requires TableEnd(|ms|) + BodiesSize(ms, |ms|) <= len
    requires forall m <- ms :: Sound(m)
    ensures Decode(Encode(ms, len)) == (|Encode(ms, len)|, ms)
    ensures |Encode(ms, len)| == TableEnd(|ms|) + BodiesSize(ms, |ms|)
    ensures forall i :: 0 <= i < |ms| ==> ReadTable(Encode(ms, len), |ms|)[i] == MSG_HEADER + |ms[i].body|
  {
    hide Put32, Get32, Bodies, Scan, Encode, TableBytes;
    var n, room := |ms|, len - TableEnd(|ms|);
    var t := Entries(ms, room);
    EncodedLayout(ms, len);
    WhileFit(ms, n, n, room);
    forall i | 0 <= i < n
      ensures t[i] == MsgSize(ms[i])
    {
      WhileFit(ms, i, n, room);
    }
    ScanEncoded(ms, t, Put32(n) + TableBytes(t, n), n, room);
    assert ms[..n] == ms;
  }

  // ---------------------------------------------------------------- when the messages do not fit

  /** A later scan keeps what an earlier one found. */
  lemma {:induction false} ScanKeeps(d: seq<byte>, table: seq<u32>, i: nat, j: nat, start: Scanned)
    requires i <= j <= |table| && start.index <= |d|
    ensures Scan(d, table, i, start).list <= Scan(d, table, j, start).list
    decreases j
  {
    hide DecodeMsg;
    if i < j {
      ScanKeeps(d, table, i, j - 1, start);
    }
  }

  /** The first message that no longer fits. */
  lemma {:induction false} FirstSkipped(ms: seq<Msg>, n: nat, room: nat) returns (k: nat)
    requires n <= |ms| && room < BodiesSize(ms, n)
    ensures k < n && BodiesSize(ms, k) <= room < BodiesSize(ms, k + 1)
  {
    if BodiesSize(ms, n - 1) <= room {
      k := n - 1;
    } else {
      k := FirstSkipped(ms, n - 1, room);
    }
  }

  /** Too few bytes hold no such message: whatever is decoded from them is smaller, blank or unsound. */
  lemma TooShort(d: seq<byte>, m: Msg)
    requires |d| < MsgSize(m) && Sound(m) && m != NO_MSG
    ensures DecodeMsg(d).0 != m
  {
    hide Get32, Get16;
  }

  /** The receiver finds something else in the place of the first message that was skipped. */
  lemma SkippedIsMisread(ms: seq<Msg>, table: seq<u32>, front: seq<byte>, room: nat)
    requires |table| == |ms| && |front| == TableEnd(|ms|) && room < BodiesSize(ms, |ms|)
    requires forall i :: 0 <= i < |ms| ==> table[i] == Entry(ms, i, room)
    requires forall m <- ms :: Sound(m) && m != NO_MSG
    ensures Scan(front + Bodies(ms, |ms|, room), table, |ms|, Scanned(true, |front|, [])).list != ms
  {
    hide Bodies, Entry, DecodeMsg, MsgSize, Scan, BodiesSize, EncodeMsg;
    var k := FirstSkipped(ms, |ms|, room);
    forall i | 0 <= i < k
      ensures table[i] == MsgSize(ms[i])
    {
      WhileFit(ms, i, k, room);
    }
    var d, start := front + Bodies(ms, |ms|, room), Scanned(true, |front|, []);
    ScanEncoded(ms, table, front, k, room);
    var tail := SuffixAt(ms, front, k, room);
    SkippedEntry(ms, k, room);
    TooShort(tail, ms[k]);
    ScanSkipped(d, table, k, start, |front| + BodiesSize(ms, k), ms[..k], tail);
    ScanKeeps(d, table, k + 1, |ms|, start);
    assert (ms[..k] + [DecodeMsg(tail).0])[k] != ms[k];
  }

  /** An entry of 0 does not stop the receiver from decoding a message. */
  lemma ScanSkipped(d: seq<byte>, table: seq<u32>, k: nat, start: Scanned, at: nat, list: seq<Msg>, tail: seq<byte>)
    requires k < |table| && start.index <= |d| && at <= |d| && d[at..] == tail
    requires Scan(d, table, k, start) == Scanned(true, at, list) && table[k] == 0
    ensures Scan(d, table, k + 1, start).list == list + [DecodeMsg(tail).0]
  {
    hide DecodeMsg;
  }

  lemma SkippedEntry(ms: seq<Msg>, k: nat, room: nat)
    requires k < |ms| && BodiesSize(ms, k) <= room < BodiesSize(ms, k + 1)
    ensures Entry(ms, k, room) == 0
    ensures |Bodies(ms, |ms|, room)| - BodiesSize(ms, k) < MsgSize(ms[k])
  {
    WhileFit(ms, k, k, room);
    hide Bodies;
  }

  /** Round trip, exactly: what the receiver decodes is the list if and only if the whole list fits. */
  lemma EncodeRoundTripExactly(ms: seq<Msg>, len: u32)
    requires TableEnd(|ms|) <= len && forall m <- ms :: Sound(m) && m != NO_MSG
    ensures Decode(Encode(ms, len)).1 == ms <==> TableEnd(|ms|) + BodiesSize(ms, |ms|) <= len
  {
    hide Encode, BodiesSize, Bodies, Scan, Put32, Get32, TableBytes, Entry;
    if TableEnd(|ms|) + BodiesSize(ms, |ms|) <= len {
      EncodeRoundTrip(ms, len);
    } else {
      EncodedLayout(ms, len);
      var room := len - TableEnd(|ms|);
      var t := Entries(ms, room);
      SkippedIsMisread(ms, t, Put32(|ms|) + TableBytes(t, |ms|), room);
    }
  }

  /** End to end: a receiver that frames the bytes `make_pkg` puts in the buffer and decodes the
      payload gets the messages back if and only if they all fit, whatever follows in its stream. */
  lemma FramedRoundTrip(ms: seq<Msg>, sender: u32, rest: seq<byte>)
    requires HEAD_LENGTH + TableEnd(|ms|) <= MAXBUFSIZE
    requires forall m <- ms :: Sound(m) && m != NO_MSG
    ensures var d := Frame(sender, CLIENT_MSG_LIST_ACK, Encode(ms, MAXBUFSIZE - HEAD_LENGTH)) + rest;
      ReadHead(d).pkgType == CLIENT_MSG_LIST_ACK && HEAD_LENGTH <= FillHead(d) <= |d|
      && (Decode(d[HEAD_LENGTH..FillHead(d)]).1 == ms
          <==> HEAD_LENGTH + TableEnd(|ms|) + BodiesSize(ms, |ms|) <= MAXBUFSIZE)
  {
    hide Decode, BodiesSize;
    var payload := Encode(ms, MAXBUFSIZE - HEAD_LENGTH);
    EncodeRoundTripExactly(ms, MAXBUFSIZE - HEAD_LENGTH);
    FrameRoundTrip(sender, CLIENT_MSG_LIST_ACK, payload, rest);
  }

  lemma ThreeSplices(was: seq<byte>, at: nat, p: seq<byte>, t: seq<byte>, b: seq<byte>)
    requires at + |p| + |t| + |b| <= |was|
    ensures Splice(Splice(Splice(was, at, p), at + |p| + |t|, b), at + |p|, t) == Splice(was, at, p + t + b)
  {
  }

  class ClientMsgListAck {
    var vecSize: u32
    var vecs: seq<u32>
    var listSize: u32
    var msgList: seq<Msg>

    ghost predicate Valid()
      reads this
    {
      listSize == |msgList|
    }

    constructor ()
      ensures Valid() && vecSize == 0 && vecs == [] && msgList == []
    {
      vecSize, vecs, listSize, msgList := 0, [], 0, [];
    }

    method AppendMsg(m: Msg)
      requires Valid() && |msgList| + 1 < U32_LIMIT
      modifies this
      ensures Valid() && msgList == old(msgList) + [m] && vecSize == old(vecSize) && vecs == old(vecs)
    {
      msgList := msgList + [m];
      listSize := listSize + 1;
    }

    function Length(): nat
      reads this
    {
      4 + 4 * if vecSize < listSize then listSize else vecSize
    }

    /** Writes at most `len` bytes from position `at` on, and nothing else. */
    method ToData(data: array<byte>, at: nat, len: u32) returns (index: nat)
      requires Valid() && vecSize == 0 && at + len <= data.Length
      modifies this, data
      ensures Valid() && msgList == old(msgList)
      ensures len < TableEnd(|msgList|) ==> index == 0 && data[..] == old(data[..])
      ensures TableEnd(|msgList|) <= len ==>
        index == |Encode(msgList, len)| && data[..] == Splice(old(data[..]), at, Encode(msgList, len))
        && vecs == Entries(msgList, len - TableEnd(|msgList|)) && vecSize == listSize
    {
      hide Put32, Splice, EncodeMsg, Entries, Entry, Bodies, TableBytes;
      index := 0;
      if len < Length() {
        return;
      }
      ghost var was, ms := data[..], msgList;
      ghost var n, room := |msgList|, len - TableEnd(|msgList|);
      Store(data, at, Put32(listSize));
      index := index + 4;
      vecs := seq(listSize, _ => 0);
      var tempIndex := index;
      index := index + 4 * listSize;
      index := WriteBodies(data, at, len, index);
      FillTable(data, at + tempIndex, vecs);
      ThreeSplices(was, at, Put32(n), TableBytes(vecs, n), Bodies(ms, n, room));
    }

    method WriteBodies(data: array<byte>, at: nat, len: u32, start: nat) returns (index: nat)
      requires Valid() && vecSize == 0 && |vecs| == |msgList| && start == TableEnd(|msgList|)
      requires start <= len && at + len <= data.Length
      modifies this, data
      ensures Valid() && msgList == old(msgList)
      ensures vecSize == listSize && vecs == Entries(msgList, len - start)
      ensures index == start + |Bodies(msgList, |msgList|, len - start)|
      ensures data[..] == Splice(old(data[..]), at + start, Bodies(msgList, |msgList|, len - start))
    {
      hide Splice, EncodeMsg;
      ghost var was, ms, n, room := data[..], msgList, |msgList|, len - start;
      SpliceNothing(was, at + start);
      index := start;
      var i := 0;
      while i < |msgList|
        invariant 0 <= i <= n && msgList == ms && listSize == n && vecSize == i && |vecs| == n
        invariant forall k :: 0 <= k < i ==> vecs[k] == Entry(ms, k, room)
        invariant index == start + |Bodies(ms, i, room)|
        invariant data[..] == Splice(was, at + start, Bodies(ms, i, room))
      {
        var tmp := MsgToData(msgList[i], data, at + index, len - index);
        if tmp != 0 {
          SpliceSplice(was, at + start, Bodies(ms, i, room), EncodeMsg(ms[i]));
        }
        vecs := vecs[vecSize := tmp];
        vecSize := vecSize + 1;
        index := index + tmp;
        i := i + 1;
      }
      EntriesAre(ms, room, vecs);
    }

    static method FillTable(data: array<byte>, at: nat, vecs: seq<u32>)
      requires at + 4 * |vecs| <= data.Length
      modifies data
      ensures data[..] == Splice(old(data[..]), at, TableBytes(vecs, |vecs|))
    {
      hide Splice, Put32;
      ghost var was := data[..];
      SpliceNothing(was, at);
      var j, tempIndex := 0, 0;
      while j < |vecs|
        invariant 0 <= j <= |vecs| && tempIndex == 4 * j
        invariant data[..] == Splice(was, at, TableBytes(vecs, j))
      {
        Emit(data, at, was, TableBytes(vecs, j), tempIndex, Put32(vecs[j]));
        tempIndex := tempIndex + 4;
        j := j + 1;
      }
    }

    /** `make_pkg`: the payload first, then the header in front of it. */
    method MakePkg(data: array<byte>, sender: u32) returns (subLength: nat, index: nat)
      requires Valid() && vecSize == 0 && HEAD_LENGTH <= data.Length < U32_LIMIT
      modifies this, data
      ensures Valid() && msgList == old(msgList)
      ensures data.Length < HEAD_LENGTH + TableEnd(|msgList|) ==>
        index == 0 && subLength == 0 && data[..] == old(data[..])
      ensures HEAD_LENGTH + TableEnd(|msgList|) <= data.Length ==>
        var payload := Encode(msgList, data.Length - HEAD_LENGTH);
        subLength == |payload| && index == HEAD_LENGTH + |payload|
        && data[..] == Splice(old(data[..]), 0, Frame(sender, CLIENT_MSG_LIST_ACK, payload))
    {
      hide Put32, HeadBytes, Encode;
      index, subLength := 0, 0;
      if data.Length < HEAD_LENGTH + Length() {
        return;
      }
      ghost var was := data[..];
      subLength := ToData(data, HEAD_LENGTH, data.Length - HEAD_LENGTH);
      Store(data, 0, HeadBytes(Head(sender, CLIENT_MSG_LIST_ACK, subLength)));
      index := subLength + HEAD_LENGTH;
    }

    /** `from_data` on a fresh object. */
    method FromData(d: seq<byte>) returns (index: nat)
      requires Valid() && vecSize == 0 && vecs == [] && msgList == []
      requires |d| < U32_LIMIT
      modifies this
      ensures (index, msgList) == Decode(d)
    {
      hide DecodeMsg, Get32;
      index := 0;
      if |d| < 4 {
        return;
      }
      vecSize := Get32(d, index);
      index := index + 4;
      index := index + 4 * vecSize;
      if |d| < Length() {
        return;
      }
      vecs := ReadTable(d, vecSize);
      ghost var start := Scanned(true, index, []);
      var i := 0;
      while i < |vecs|
        invariant 0 <= i <= |vecs| && TableEnd(vecSize) <= |d| && vecs == ReadTable(d, vecSize) && index <= |d|
        invariant vecSize == Get32(d, 0) && start == Scanned(true, TableEnd(vecSize), [])
        invariant Scan(d, vecs, i, start) == Scanned(true, index, msgList)
      {
        if |d| < index + vecs[i] {
          index := 0;
          StaysFailed(d, vecs, i + 1, |vecs|, start);
          return;
        }
        var (m, c) := DecodeMsg(d[index..]);
        index := index + c;
        msgList := msgList + [m];
        listSize := Inc32(listSize);
        i := i + 1;
      }
    }
  }

  lemma EntriesAre(ms: seq<Msg>, room: u32, t: seq<u32>)
    requires |t| == |ms| && forall k :: 0 <= k < |ms| ==> t[k] == Entry(ms, k, room)
    ensures t == Entries(ms, room)
  {
  }

  lemma {:induction false} StaysFailed(d: seq<byte>, table: seq<u32>, i: nat, j: nat, start: Scanned)
    requires i <= j <= |table| && start.index <= |d| && !Scan(d, table, i, start).ok
    ensures Scan(d, table, j, start) == Scan(d, table, i, start)
    decreases j
  {
    if i < j {
      StaysFailed(d, table, i, j - 1, start);
    }
  }
}
