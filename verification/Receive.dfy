/** How many bytes each request's parser consumes, and the receive-buffer loop that relies on it, as a
    function. */
module Receive {
  import opened Bytes
  import opened Packets
  import opened Groups
  import opened GroupCodec
  import opened Users

  // ---------------------------------------------------------------- consumed lengths

  const ACOUNT_ADD: u16 := 0
  const ACOUNT_MODIFY: u16 := 1
  const ACOUNT_DELETE: u16 := 2
  const ACOUNT_LOGIN: u16 := 3
  const ACOUNT_LOGOUT: u16 := 4
  const ACOUNT_CAN_REG: u16 := 5
  const GROUP_ADD: u16 := 30
  const GROUP_MODIFY: u16 := 31
  const GROUP_DELETE: u16 := 32
  const USER_INFO_REQ: u16 := 60
  const GROUP_INFO_REQ: u16 := 61
  const USER_INFO_BRIEF_REQ: u16 := 62
  const MSG_SEND: u16 := 90
  const MSG_LIST_REQ: u16 := 91
  const SERVER_MSG_TYPE_MAX: u16 := 9999

  /** What a fixed-layout payload class consumes. */
  function Fixed(size: nat, payload: seq<byte>): nat {
    if |payload| < size then 0 else size
  }

  /** The counter, the clock and the hash a decoder sees; they do not affect what it consumes. */
  datatype Env = Env(lastUser: guid, now: int, hash: Hasher)

  /** The index each handler returns: 0 when the payload is refused. */
  function Consumed(pkgType: u16, payload: seq<byte>, env: Env): nat {
    if pkgType > SERVER_MSG_TYPE_MAX then 0
    else if pkgType == ACOUNT_ADD || pkgType == ACOUNT_MODIFY then
      DecodeUser(env.lastUser, env.now, env.hash, payload).1
    else if pkgType == ACOUNT_DELETE || pkgType == ACOUNT_LOGOUT then Fixed(4, payload)
    else if pkgType == ACOUNT_LOGIN then Fixed(80, payload)
    else if pkgType == ACOUNT_CAN_REG then Fixed(16, payload)
    else if pkgType == GROUP_ADD then DecodeGroup(1, payload).1
    else if pkgType == GROUP_MODIFY then Fixed(14, payload)
    else if pkgType == GROUP_DELETE then Fixed(8, payload)
    else if pkgType == USER_INFO_REQ || pkgType == GROUP_INFO_REQ || pkgType == USER_INFO_BRIEF_REQ then
      Fixed(4, payload)
    else if pkgType == MSG_SEND then DecodeMsg(payload).1
    else if pkgType == MSG_LIST_REQ then Fixed(5, payload)
    else 0
  }

  /** Every parser that succeeds consumes at least one byte and no more than its payload, and what it
      consumes does not depend on the server's state. */
  lemma ConsumedBounds(pkgType: u16, payload: seq<byte>, env: Env, env': Env)
    ensures Consumed(pkgType, payload, env) <= |payload|
    ensures Consumed(pkgType, payload, env) == Consumed(pkgType, payload, env')
  {
    hide Get32, Get16, DecodeHeader, Rebuild, DecodeMembers;
  }

  // ---------------------------------------------------------------- one read, as a function

  /** The loop variables; `frames` lists where each parsed packet starts and its header. */
  datatype Loop = Loop(readIndex: nat, nread: nat, bufIndex: nat, reset: bool, frames: seq<(nat, Head)>)

  /** One turn of the loop, its `k`-th, and whether the loop goes on. `registered` says which sender
      guids the server knows at each iteration, `envs` what its decoders see. The header is read from
      the start of the buffer, the packet from `readIndex` on. */
  function Turn(buf: seq<byte>, st: Loop, k: nat, registered: (nat, guid) -> bool, envs: nat -> Env): (r: (Loop, bool))
    requires |buf| == MAXBUFSIZE && st.readIndex + st.nread <= MAXBUFSIZE && st.nread > HEAD_LENGTH
    ensures r.1 ==> r.0.nread < st.nread
    ensures r.0.readIndex + r.0.nread <= st.readIndex + st.nread
  {
    var head := ReadHead(buf);
    if head.length + HEAD_LENGTH <= st.nread then
      var at := st.readIndex + HEAD_LENGTH;
      var payload := buf[at..at + head.length];
      ConsumedBounds(head.pkgType, payload, envs(k), envs(k));
      var c := Consumed(head.pkgType, payload, envs(k));
      var frames := st.frames + [(st.readIndex, head)];
      if c == 0 then (Loop(0, 0, 0, true, frames), false)
      else
        (Loop(st.readIndex + c + HEAD_LENGTH, st.nread - (c + HEAD_LENGTH), st.bufIndex, st.reset, frames), true)
    else if !registered(k, head.sender) then (st.(bufIndex := MAXBUFSIZE, nread := 0, reset := true), false)
    else (st, false)
  }

  /** The turns of the loop from iteration `k` on. */
  function Turns(buf: seq<byte>, st: Loop, k: nat, registered: (nat, guid) -> bool, envs: nat -> Env): (r: Loop)
    requires |buf| == MAXBUFSIZE && st.readIndex + st.nread <= MAXBUFSIZE
    ensures r.readIndex + r.nread <= st.readIndex + st.nread
    decreases st.nread
  {
    if st.nread <= HEAD_LENGTH then st
    else
      var (next, more) := Turn(buf, st, k, registered, envs);
      if more then Turns(buf, next, k + 1, registered, envs) else next
  }

  lemma TurnsStop(buf: seq<byte>, st: Loop, k: nat, registered: (nat, guid) -> bool, envs: nat -> Env)
    requires |buf| == MAXBUFSIZE && st.readIndex + st.nread <= MAXBUFSIZE && st.nread <= HEAD_LENGTH
    ensures Turns(buf, st, k, registered, envs) == st
  {
    hide Turn;
  }

  lemma UnrollTurn(buf: seq<byte>, st: Loop, k: nat, registered: (nat, guid) -> bool, envs: nat -> Env)
    requires |buf| == MAXBUFSIZE && st.readIndex + st.nread <= MAXBUFSIZE && st.nread > HEAD_LENGTH
    ensures var (next, more) := Turn(buf, st, k, registered, envs);
      Turns(buf, st, k, registered, envs) == if more then Turns(buf, next, k + 1, registered, envs) else next
  {
    hide Turn;
  }

  lemma TurnCases(buf: seq<byte>, st: Loop, k: nat, registered: (nat, guid) -> bool, envs: nat -> Env)
    requires |buf| == MAXBUFSIZE && st.readIndex + st.nread <= MAXBUFSIZE && st.nread > HEAD_LENGTH
    ensures var turn, head, n := Turn(buf, st, k, registered, envs), ReadHead(buf), st.nread;
      if head.length + HEAD_LENGTH <= n then
        var at := st.readIndex + HEAD_LENGTH;
        var c := Consumed(head.pkgType, buf[at..at + head.length], envs(k));
        var frames := st.frames + [(st.readIndex, head)];
        c <= head.length
        && turn == if c == 0 then (Loop(0, 0, 0, true, frames), false)
                   else (Loop(at + c, n - (c + HEAD_LENGTH), st.bufIndex, st.reset, frames), true)
      else turn == (if registered(k, head.sender) then st
        else Loop(st.readIndex, 0, MAXBUFSIZE, true, st.frames), false)
  {
    hide Consumed, ReadHead;
    var head := ReadHead(buf);
    if head.length + HEAD_LENGTH <= st.nread {
      var at := st.readIndex + HEAD_LENGTH;
      ConsumedBounds(head.pkgType, buf[at..at + head.length], envs(k), envs(k));
    }
  }

  /** The buffer after `nread` more bytes arrive at `bufIndex`. */
  function Filled(buf: seq<byte>, bufIndex: nat, chunk: seq<byte>): (b: seq<byte>)
    requires |buf| == MAXBUFSIZE && bufIndex + |chunk| <= MAXBUFSIZE
    ensures |b| == MAXBUFSIZE
  {
    Splice(buf, bufIndex, chunk)
  }

  /** The index after the loop: the step back to the start, the unread rest, and the reset when full. */
  function NextIndex(st: Loop): nat {
    var base := if st.bufIndex < st.readIndex then 0 else st.bufIndex;
    if base + st.nread == MAXBUFSIZE then 0 else base + st.nread
  }

  /** The bytes after the loop: the unread rest moves to the front. */
  function NextBuffer(buf: seq<byte>, st: Loop): (b: seq<byte>)
    requires |buf| == MAXBUFSIZE && st.readIndex + st.nread <= MAXBUFSIZE
    ensures |b| == MAXBUFSIZE
  {
    if st.readIndex == 0 then buf else Splice(buf, 0, buf[st.readIndex..st.readIndex + st.nread])
  }

  /** What holds after any number of turns on `len` bytes just read: until a reset, bytes parsed and
      bytes left add up to `len`; every parsed packet lies within the bytes read. */
  ghost predicate Accounted(st: Loop, len: nat) {
    && (!st.reset ==> st.readIndex + st.nread == len)
    && (st.reset ==> st.nread == 0 && st.readIndex <= len)
    && forall i :: 0 <= i < |st.frames| ==> st.frames[i].0 + HEAD_LENGTH + st.frames[i].1.length <= len
  }

  /** A reset leaves the index at 0 or at the full size, which the code then turns into 0. */
  ghost predicate IndexKept(st: Loop, start: nat) {
    if st.reset then (st.bufIndex == 0 && st.readIndex == 0) || st.bufIndex == MAXBUFSIZE else st.bufIndex == start
  }

  lemma TurnAccounted(buf: seq<byte>, st: Loop, k: nat, registered: (nat, guid) -> bool, envs: nat -> Env, len: nat)
    requires |buf| == MAXBUFSIZE && st.readIndex + st.nread <= MAXBUFSIZE && st.nread > HEAD_LENGTH
    requires Accounted(st, len) && !st.reset
    ensures var (next, more) := Turn(buf, st, k, registered, envs);
      Accounted(next, len) && IndexKept(next, st.bufIndex) && (more ==> !next.reset)
  {
    hide Consumed, ReadHead;
  }

  lemma {:induction false} TurnsAccounted(buf: seq<byte>, st: Loop, k: nat, registered: (nat, guid) -> bool,
      envs: nat -> Env, len: nat)
    requires |buf| == MAXBUFSIZE && st.readIndex + st.nread <= MAXBUFSIZE
    requires Accounted(st, len) && !st.reset
    ensures Accounted(Turns(buf, st, k, registered, envs), len)
    ensures IndexKept(Turns(buf, st, k, registered, envs), st.bufIndex)
    decreases st.nread
  {
    if st.nread > HEAD_LENGTH {
      TurnAccounted(buf, st, k, registered, envs, len);
      hide Turn, Accounted;
      var (next, more) := Turn(buf, st, k, registered, envs);
      if more {
        TurnsAccounted(buf, next, k + 1, registered, envs, len);
      }
    }
  }

  /** One read: the buffer and the index for the next read. */
  function OnRead(buf: seq<byte>, bufIndex: nat, chunk: seq<byte>, registered: (nat, guid) -> bool,
      envs: nat -> Env): (r: Loop)
    requires |buf| == MAXBUFSIZE && bufIndex + |chunk| <= MAXBUFSIZE
  {
    Turns(Filled(buf, bufIndex, chunk), Loop(0, |chunk|, bufIndex, false, []), 0, registered, envs)
  }

  /** The index stays below the buffer's size whatever is read, so the next read has room; and every
      packet handed to a parser lies within the bytes just read. */
  lemma IndexBelowSize(buf: seq<byte>, bufIndex: nat, chunk: seq<byte>, registered: (nat, guid) -> bool,
      envs: nat -> Env)
    requires |buf| == MAXBUFSIZE && bufIndex < MAXBUFSIZE && bufIndex + |chunk| <= MAXBUFSIZE
    ensures var st := OnRead(buf, bufIndex, chunk, registered, envs);
      Accounted(st, |chunk|) && st.readIndex + st.nread <= MAXBUFSIZE && NextIndex(st) < MAXBUFSIZE
  {
    var b := Filled(buf, bufIndex, chunk);
    TurnsAccounted(b, Loop(0, |chunk|, bufIndex, false, []), 0, registered, envs, |chunk|);
    hide Turns;
  }

  // ---------------------------------------------------------------- any number of reads

  /** One `read` call and what the server knows while its bytes are parsed. */
  datatype Reading = Reading(chunk: seq<byte>, registered: (nat, guid) -> bool, envs: nat -> Env)

  /** The buffer and index after the first `n` reads, while each read fits in the room left. */
  ghost predicate Reads(bufs: seq<seq<byte>>, indexes: seq<nat>, rs: seq<Reading>) {
    && |bufs| == |indexes| == |rs| + 1
    && (forall i :: 0 <= i < |bufs| ==> |bufs[i]| == MAXBUFSIZE)
    && indexes[0] == 0
    && forall i :: 0 <= i < |rs| ==>
         indexes[i] + |rs[i].chunk| <= MAXBUFSIZE
         && var st := OnRead(bufs[i], indexes[i], rs[i].chunk, rs[i].registered, rs[i].envs);
            indexes[i + 1] == NextIndex(st)
            && (st.readIndex + st.nread <= MAXBUFSIZE ==>
               bufs[i + 1] == NextBuffer(Filled(bufs[i], indexes[i], rs[i].chunk), st))
  }

  /** For every sequence of reads the index is below the buffer's size at each read. */
  lemma {:induction false} AllReadsBelowSize(bufs: seq<seq<byte>>, indexes: seq<nat>, rs: seq<Reading>, n: nat)
    requires Reads(bufs, indexes, rs) && n <= |rs|
    ensures indexes[n] < MAXBUFSIZE
  {
    if n > 0 {
      var i := n - 1;
      AllReadsBelowSize(bufs, indexes, rs, i);
      IndexBelowSize(bufs[i], indexes[i], rs[i].chunk, rs[i].registered, rs[i].envs);
      hide OnRead, NextBuffer;
      assert indexes[i + 1] == NextIndex(OnRead(bufs[i], indexes[i], rs[i].chunk, rs[i].registered, rs[i].envs));
    }
  }

  // ---------------------------------------------------------------- what a read leaves behind

  /** The unread bytes are at the front of the buffer after a read, and the next ones go right behind them
      exactly if the loop began at the start of the buffer or went past where it began, and the unread
      bytes do not fill the buffer. */
  lemma UnreadInFront(b: seq<byte>, st: Loop)
    requires |b| == MAXBUFSIZE && st.readIndex + st.nread <= MAXBUFSIZE && st.bufIndex < MAXBUFSIZE
    ensures NextBuffer(b, st)[..st.nread] == b[st.readIndex..st.readIndex + st.nread]
    ensures NextIndex(st) == st.nread
      <==> st.nread < MAXBUFSIZE && (st.bufIndex == 0 || st.bufIndex < st.readIndex)
  {
  }

  /** After a read into an empty buffer that was not reset, the next read continues the stream: what was
      not parsed, then the new bytes. */
  lemma NextReadContinues(buf: seq<byte>, chunk: seq<byte>, registered: (nat, guid) -> bool, envs: nat -> Env,
      more: seq<byte>)
    requires |buf| == MAXBUFSIZE && |chunk| <= MAXBUFSIZE
    ensures var st, b := OnRead(buf, 0, chunk, registered, envs), Filled(buf, 0, chunk);
      st.readIndex <= |chunk| && st.readIndex + st.nread <= MAXBUFSIZE
      && (!st.reset && st.nread + |more| <= MAXBUFSIZE && st.nread < MAXBUFSIZE ==>
        NextIndex(st) == st.nread
        && Filled(NextBuffer(b, st), NextIndex(st), more)[..st.nread + |more|] == chunk[st.readIndex..] + more)
  {
    IndexBelowSize(buf, 0, chunk, registered, envs);
    var b := Filled(buf, 0, chunk);
    TurnsAccounted(b, Loop(0, |chunk|, 0, false, []), 0, registered, envs, |chunk|);
    hide Turns;
    var st := OnRead(buf, 0, chunk, registered, envs);
    if !st.reset && st.nread + |more| <= MAXBUFSIZE && st.nread < MAXBUFSIZE {
      UnreadInFront(b, st);
      assert b[st.readIndex..st.readIndex + st.nread] == chunk[st.readIndex..];
      var next := NextBuffer(b, st);
      assert Filled(next, st.nread, more)[..st.nread + |more|] == next[..st.nread] + more;
    }
  }

  /** A read of one whole packet into an empty buffer, whose payload the parser consumes entirely, parses
      that packet, at its place, and leaves nothing. */
  lemma OnePacketRead(buf: seq<byte>, head: Head, payload: seq<byte>, registered: (nat, guid) -> bool,
      envs: nat -> Env)
    requires |buf| == MAXBUFSIZE && head.length == |payload| && HEAD_LENGTH + |payload| <= MAXBUFSIZE
    requires 0 < |payload| && Consumed(head.pkgType, payload, envs(0)) == |payload|
    ensures OnRead(buf, 0, HeadBytes(head) + payload, registered, envs)
      == Loop(HEAD_LENGTH + |payload|, 0, 0, false, [(0, head)])
    ensures NextIndex(OnRead(buf, 0, HeadBytes(head) + payload, registered, envs)) == 0
  {
    hide Consumed, HeadBytes, ReadHead, Turns;
    var chunk := HeadBytes(head) + payload;
    var b := Filled(buf, 0, chunk);
    assert b == HeadBytes(head) + (payload + buf[|chunk|..]);
    ReadHeadBytes(head, payload + buf[|chunk|..]);
    assert ReadHead(b) == head && b[HEAD_LENGTH..HEAD_LENGTH + |payload|] == payload;
    hide Turn;
    var st, end := Loop(0, |chunk|, 0, false, []), Loop(HEAD_LENGTH + |payload|, 0, 0, false, [(0, head)]);
    UnrollTurn(b, st, 0, registered, envs);
    TurnCases(b, st, 0, registered, envs);
    var at := st.readIndex + HEAD_LENGTH;
    assert b[at..at + head.length] == payload && st.frames + [(0, head)] == [(0, head)];
    assert Turn(b, st, 0, registered, envs) == (end, true);
    TurnsStop(b, end, 1, registered, envs);
  }

  /** A read of an incomplete packet into an empty buffer: if the sender is known its bytes wait for more,
      otherwise they are dropped. Nothing is parsed. */
  lemma IncompleteRead(buf: seq<byte>, chunk: seq<byte>, registered: (nat, guid) -> bool, envs: nat -> Env)
    requires |buf| == MAXBUFSIZE && HEAD_LENGTH < |chunk| < MAXBUFSIZE && |chunk| < ReadHead(chunk).length + HEAD_LENGTH
    ensures var st := OnRead(buf, 0, chunk, registered, envs);
      st.frames == [] && NextIndex(st) == if registered(0, ReadHead(chunk).sender) then |chunk| else 0
    ensures registered(0, ReadHead(chunk).sender) ==>
      OnRead(buf, 0, chunk, registered, envs) == Loop(0, |chunk|, 0, false, [])
  {
    hide Consumed, Turns;
    var b, st := Filled(buf, 0, chunk), Loop(0, |chunk|, 0, false, []);
    assert forall k :: 0 <= k < HEAD_LENGTH ==> b[k] == chunk[k];
    assert ReadHead(b) == ReadHead(chunk);
    hide ReadHead;
    UnrollTurn(b, st, 0, registered, envs);
    TurnCases(b, st, 0, registered, envs);
    hide Turn;
  }

  /** Where the `j`-th packet of a read begins: behind what the parser consumed of the one before. */
  function Place(b: seq<byte>, start: nat, j: nat, k: nat, envs: nat -> Env): nat
    requires |b| == MAXBUFSIZE
  {
    if j == 0 then start
    else Place(b, start, j - 1, k, envs) + HEAD_LENGTH + ConsumedAt(b, Place(b, start, j - 1, k, envs), envs(k + j - 1))
  }

  lemma {:induction false} PlaceShift(b: seq<byte>, start: nat, j: nat, k: nat, envs: nat -> Env)
    requires |b| == MAXBUFSIZE
    ensures Place(b, start + HEAD_LENGTH + ConsumedAt(b, start, envs(k)), j, k + 1, envs)
         == Place(b, start, j + 1, k, envs)
  {
    hide ConsumedAt;
    if j > 0 {
      PlaceShift(b, start, j - 1, k, envs);
    }
  }

  /** Every packet of a read is taken with the header at the start of the buffer, at its place. */
  lemma {:induction false} FramesFollow(b: seq<byte>, st: Loop, k: nat, registered: (nat, guid) -> bool,
      envs: nat -> Env)
    requires |b| == MAXBUFSIZE && st.readIndex + st.nread <= MAXBUFSIZE
    ensures var frames := Turns(b, st, k, registered, envs).frames;
      st.frames <= frames && forall j :: 0 <= j < |frames| - |st.frames| ==>
        frames[|st.frames| + j] == (Place(b, st.readIndex, j, k, envs), ReadHead(b))
    decreases st.nread
  {
    hide ReadHead, Turn, ConsumedAt, Place;
    if st.nread > HEAD_LENGTH {
      TurnFrame(b, st, k, registered, envs);
      UnrollTurn(b, st, k, registered, envs);
      PlaceFirst(b, st.readIndex, k, envs);
      var (next, more) := Turn(b, st, k, registered, envs);
      if more {
        FramesFollow(b, next, k + 1, registered, envs);
        var frames := Turns(b, st, k, registered, envs).frames;
        forall j | 0 <= j < |frames| - |st.frames|
          ensures frames[|st.frames| + j] == (Place(b, st.readIndex, j, k, envs), ReadHead(b))
        {
          if j > 0 {
            PlaceShift(b, st.readIndex, j - 1, k, envs);
            assert frames[|next.frames| + (j - 1)] == (Place(b, next.readIndex, j - 1, k + 1, envs), ReadHead(b));
          } else {
            assert frames[|st.frames|] == next.frames[|st.frames|];
          }
        }
      }
    } else {
      TurnsStop(b, st, k, registered, envs);
    }
  }

  lemma PlaceFirst(b: seq<byte>, start: nat, k: nat, envs: nat -> Env)
    requires |b| == MAXBUFSIZE
    ensures Place(b, start, 0, k, envs) == start
  {
  }

  /** What the parser consumes of the packet at `at`. */
  function ConsumedAt(b: seq<byte>, at: nat, env: Env): nat
    requires |b| == MAXBUFSIZE
  {
    var head := ReadHead(b);
    if at + HEAD_LENGTH + head.length <= |b|
    then Consumed(head.pkgType, b[at + HEAD_LENGTH..at + HEAD_LENGTH + head.length], env) else 0
  }

  lemma TurnFrame(b: seq<byte>, st: Loop, k: nat, registered: (nat, guid) -> bool, envs: nat -> Env)
    requires |b| == MAXBUFSIZE && st.readIndex + st.nread <= MAXBUFSIZE && st.nread > HEAD_LENGTH
    ensures var (next, more) := Turn(b, st, k, registered, envs);
      if HEAD_LENGTH + ReadHead(b).length <= st.nread then
        next.frames == st.frames + [(st.readIndex, ReadHead(b))]
        && (more ==>
          next.readIndex == st.readIndex + HEAD_LENGTH + ConsumedAt(b, st.readIndex, envs(k))
          && next.readIndex + next.nread == st.readIndex + st.nread)
      else next.frames == st.frames && !more
  {
    hide Turn, ReadHead, Consumed, ConsumedAt;
    TurnCases(b, st, k, registered, envs);
    if HEAD_LENGTH + ReadHead(b).length <= st.nread {
      ConsumedThere(b, st.readIndex, envs(k));
    }
  }

  lemma ConsumedThere(b: seq<byte>, at: nat, env: Env)
    requires |b| == MAXBUFSIZE && at + HEAD_LENGTH + ReadHead(b).length <= MAXBUFSIZE
    ensures var from := at + HEAD_LENGTH;
      ConsumedAt(b, at, env) == Consumed(ReadHead(b).pkgType, b[from..from + ReadHead(b).length], env)
  {
    hide ReadHead, Consumed;
  }
}
