/** The read thread: the receive buffer and the server it feeds. What one `read` brings is parsed packet
    by packet, each packet changes the server, and the next one is judged by the server as it is then. */
module ReadThreads {
  import opened Bytes
  import opened Packets
  import opened Groups
  import opened Users
  import opened Servers
  import opened PlainRuns
  import opened Receive
  import opened Requests
  import opened PacketRuns
  import opened NetInfos

  // ---------------------------------------------------------------- one read, as a function

  /** The sender's guid names a user or a group. */
  predicate Knows(s: Server, g: guid) { g in s.users || g in s.groups }

  /** What the loop sees at its `k`-th turn when the server goes through the states `ss`. */
  function KnownAt(ss: seq<Server>): (nat, guid) -> bool {
    (k: nat, g: guid) => k < |ss| && Knows(ss[k], g)
  }

  function EnvsAt(ss: seq<Server>, now: int): nat -> Env
    requires ss != []
  {
    (k: nat) => EnvOf(ss[if k < |ss| then k else 0], now)
  }

  /** A whole packet lies at the read position. */
  predicate Complete(b: seq<byte>, st: Loop)
    requires |b| == MAXBUFSIZE
  {
    st.nread > HEAD_LENGTH && ReadHead(b).length + HEAD_LENGTH <= st.nread
  }

  function PacketAt(b: seq<byte>, at: nat, head: Head, now: int, fd: int): (i: Input)
    requires at + HEAD_LENGTH + head.length <= |b|
    ensures i.Packet? && i.payload == b[at + HEAD_LENGTH..at + HEAD_LENGTH + head.length]
  {
    Packet(head, b[at + HEAD_LENGTH..at + HEAD_LENGTH + head.length], now, fd)
  }

  function Advance(b: seq<byte>, st: Loop, s: Server, now: int): (r: (Loop, bool))
    requires |b| == MAXBUFSIZE && st.readIndex + st.nread <= MAXBUFSIZE && st.nread > HEAD_LENGTH
    ensures r.1 ==> r.0.nread < st.nread
    ensures r.0.readIndex + r.0.nread <= st.readIndex + st.nread
  {
    Turn(b, st, 0, KnownAt([s]), EnvsAt([s], now))
  }

  /** The code's behaviour is defined, and modelled, on every packet of the read. */
  ghost predicate Servable(b: seq<byte>, st: Loop, s: Server, now: int, fd: int)
    requires |b| == MAXBUFSIZE && st.readIndex + st.nread <= MAXBUFSIZE
    decreases st.nread
  {
    if !Complete(b, st) then true
    else
      var p, (next, more) := PacketAt(b, st.readIndex, ReadHead(b), now, fd), Advance(b, st, s, now);
      Modelled(p.head.pkgType, p.payload) && Defined(s, Caused(s, p))
      && (more ==> Servable(b, next, Handle(s, Caused(s, p)), now, fd))
  }

  /** The loop's end, the states of the server and the packets between them. */
  ghost function Serve(b: seq<byte>, st: Loop, s: Server, now: int, fd: int): (r: (Loop, seq<Server>, seq<Input>))
    requires |b| == MAXBUFSIZE && st.readIndex + st.nread <= MAXBUFSIZE && Servable(b, st, s, now, fd)
    ensures |r.1| == |r.2| + 1 && r.1[0] == s
    decreases st.nread
  {
    if st.nread <= HEAD_LENGTH then (st, [s], [])
    else
      var (next, more) := Advance(b, st, s, now);
      if !Complete(b, st) then (next, [s], [])
      else
        var p := PacketAt(b, st.readIndex, ReadHead(b), now, fd);
        var s' := Handle(s, Caused(s, p));
        if !more then (next, [s, s'], [p])
        else
          var (end, ss, inputs) := Serve(b, next, s', now, fd);
          (end, [s] + ss, [p] + inputs)
  }

  function Last(ss: seq<Server>): Server
    requires ss != []
  {
    ss[|ss| - 1]
  }

  // ---------------------------------------------------------------- it is a run of packets

  lemma FedCons(s: Server, p: Input, ss: seq<Server>, inputs: seq<Input>)
    requires Fed(ss, inputs) && Leads(s, p, ss[0])
    ensures Fed([s] + ss, [p] + inputs)
  {
    hide Leads;
    var all, ps := [s] + ss, [p] + inputs;
    forall i | 0 <= i < |ps|
      ensures Leads(all[i], ps[i], all[i + 1])
    {
      if i > 0 {
        assert Leads(ss[i - 1], inputs[i - 1], ss[i]);
      }
    }
  }

  /** One read feeds the server a run of packets, each no longer than the buffer allows. */
  lemma {:induction false} ServeFeeds(b: seq<byte>, st: Loop, s: Server, now: int, fd: int)
    requires |b| == MAXBUFSIZE && st.readIndex + st.nread <= MAXBUFSIZE && Servable(b, st, s, now, fd)
    ensures var (end, ss, inputs) := Serve(b, st, s, now, fd);
      Fed(ss, inputs) && forall p <- inputs :: InBuffer(p)
    decreases st.nread
  {
    hide ReadHead, Advance, Handle, Defined, Requested, Modelled;
    if st.nread > HEAD_LENGTH && Complete(b, st) {
      var p := PacketAt(b, st.readIndex, ReadHead(b), now, fd);
      var (next, more) := Advance(b, st, s, now);
      var s' := Handle(s, Caused(s, p));
      assert Leads(s, p, s');
      FedNothing(s');
      if more {
        ServeFeeds(b, next, s', now, fd);
        var (end, ss, inputs) := Serve(b, next, s', now, fd);
        FedCons(s, p, ss, inputs);
      } else {
        FedCons(s, p, [s'], []);
        assert [s] + [s'] == [s, s'] && [p] + [] == [p];
      }
    }
  }

  lemma FedNothing(s: Server)
    ensures Fed([s], [])
  {
  }

  /** What the loop sees from turn `k` on is what the states `ss` say. */
  ghost predicate Agrees(known: (nat, guid) -> bool, envs: nat -> Env, k: nat, ss: seq<Server>, now: int) {
    forall i: nat :: i < |ss| ==> envs(k + i) == EnvOf(ss[i], now) && forall g :: known(k + i, g) <==> Knows(ss[i], g)
  }

  lemma TurnAgrees(b: seq<byte>, st: Loop, k: nat, known: (nat, guid) -> bool, envs: nat -> Env, s: Server, now: int)
    requires |b| == MAXBUFSIZE && st.readIndex + st.nread <= MAXBUFSIZE && st.nread > HEAD_LENGTH
    requires envs(k) == EnvOf(s, now) && forall g :: known(k, g) <==> Knows(s, g)
    ensures Turn(b, st, k, known, envs) == Advance(b, st, s, now)
  {
    hide Consumed, ReadHead;
  }

  lemma AgreesTail(known: (nat, guid) -> bool, envs: nat -> Env, k: nat, s: Server, ss: seq<Server>, now: int)
    requires Agrees(known, envs, k, [s] + ss, now)
    ensures Agrees(known, envs, k + 1, ss, now)
    ensures envs(k) == EnvOf(s, now) && forall g :: known(k, g) <==> Knows(s, g)
  {
    var all := [s] + ss;
    assert all[0] == s && envs(k + 0) == EnvOf(all[0], now);
    forall i: nat | i < |ss|
      ensures envs(k + 1 + i) == EnvOf(ss[i], now) && forall g :: known(k + 1 + i, g) <==> Knows(ss[i], g)
    {
      assert all[i + 1] == ss[i] && k + (i + 1) == k + 1 + i;
    }
  }

  /** The loop of one read, given what each turn sees, is the loop that feeds the server. */
  lemma {:induction false} ServeIsTurns(b: seq<byte>, st: Loop, s: Server, now: int, fd: int, k: nat,
      known: (nat, guid) -> bool, envs: nat -> Env)
    requires |b| == MAXBUFSIZE && st.readIndex + st.nread <= MAXBUFSIZE && Servable(b, st, s, now, fd)
    requires Agrees(known, envs, k, Serve(b, st, s, now, fd).1, now)
    ensures Turns(b, st, k, known, envs) == Serve(b, st, s, now, fd).0
    decreases st.nread
  {
    hide ReadHead, Handle, Defined, Requested, Modelled, Consumed, Turns, Turn, Advance, Agrees;
    if st.nread <= HEAD_LENGTH {
      TurnsStop(b, st, k, known, envs);
    } else {
      UnrollTurn(b, st, k, known, envs);
      var (next, more) := Advance(b, st, s, now);
      var rest := Serve(b, st, s, now, fd).1[1..];
      assert Serve(b, st, s, now, fd).1 == [s] + rest;
      AgreesTail(known, envs, k, s, rest, now);
      TurnAgrees(b, st, k, known, envs, s, now);
      if Complete(b, st) {
        if more {
          var s' := Handle(s, Caused(s, PacketAt(b, st.readIndex, ReadHead(b), now, fd)));
          assert rest == Serve(b, next, s', now, fd).1;
          ServeIsTurns(b, next, s', now, fd, k + 1, known, envs);
        }
      } else {
        IncompleteStops(b, st, s, now);
      }
    }
  }

  lemma IncompleteStops(b: seq<byte>, st: Loop, s: Server, now: int)
    requires |b| == MAXBUFSIZE && st.readIndex + st.nread <= MAXBUFSIZE && st.nread > HEAD_LENGTH && !Complete(b, st)
    ensures !Advance(b, st, s, now).1
    ensures Advance(b, st, s, now).0
      == if Knows(s, ReadHead(b).sender) then st else Loop(st.readIndex, 0, MAXBUFSIZE, true, st.frames)
  {
    hide ReadHead, Consumed;
  }

  /** The frames the loop found are the packets the server was fed. */
  lemma {:induction false} ServeFrames(b: seq<byte>, st: Loop, s: Server, now: int, fd: int)
    requires |b| == MAXBUFSIZE && st.readIndex + st.nread <= MAXBUFSIZE && Servable(b, st, s, now, fd)
    ensures var (end, ss, inputs) := Serve(b, st, s, now, fd);
      |end.frames| == |st.frames| + |inputs| && st.frames <= end.frames
      && forall i :: 0 <= i < |inputs| ==> Framed(b, end.frames[|st.frames| + i], inputs[i], now, fd)
    decreases st.nread
  {
    hide ReadHead, Handle, Defined, Requested, Modelled, Advance, Framed;
    if st.nread > HEAD_LENGTH {
      AdvanceFrames(b, st, s, now, fd);
      var (next, more) := Advance(b, st, s, now);
      if Complete(b, st) && more {
        var p := PacketAt(b, st.readIndex, ReadHead(b), now, fd);
        ServeFrames(b, next, Handle(s, Caused(s, p)), now, fd);
      }
    }
  }

  predicate Framed(b: seq<byte>, frame: (nat, Head), i: Input, now: int, fd: int) {
    frame.0 + HEAD_LENGTH + frame.1.length <= |b| && i == PacketAt(b, frame.0, frame.1, now, fd)
  }

  lemma AdvanceFrames(b: seq<byte>, st: Loop, s: Server, now: int, fd: int)
    requires |b| == MAXBUFSIZE && st.readIndex + st.nread <= MAXBUFSIZE && st.nread > HEAD_LENGTH
    ensures var (next, more) := Advance(b, st, s, now);
      next.frames == (if Complete(b, st) then st.frames + [(st.readIndex, ReadHead(b))] else st.frames)
      && (Complete(b, st) ==>
         Framed(b, (st.readIndex, ReadHead(b)), PacketAt(b, st.readIndex, ReadHead(b), now, fd), now, fd))
  {
    hide ReadHead, Consumed;
  }

  /** A read, summed up: what it leaves for the next read is what `OnRead` says of a loop that sees the
      server's own states, its packets are the frames found in the buffer, and the server runs on them. */
  lemma ReadFeedsServer(buf: seq<byte>, bufIndex: nat, chunk: seq<byte>, s: Server, now: int, fd: int)
    requires |buf| == MAXBUFSIZE && bufIndex < MAXBUFSIZE && bufIndex + |chunk| <= MAXBUFSIZE
    requires Servable(Filled(buf, bufIndex, chunk), Loop(0, |chunk|, bufIndex, false, []), s, now, fd)
    ensures var b := Filled(buf, bufIndex, chunk);
      var (end, ss, inputs) := Serve(b, Loop(0, |chunk|, bufIndex, false, []), s, now, fd);
      end == OnRead(buf, bufIndex, chunk, KnownAt(ss), EnvsAt(ss, now)) && NextIndex(end) < MAXBUFSIZE
      && Fed(ss, inputs) && ss[0] == s && (forall p <- inputs :: InBuffer(p))
      && |end.frames| == |inputs| && forall i :: 0 <= i < |inputs| ==> Framed(b, end.frames[i], inputs[i], now, fd)
  {
    hide Servable, Serve, Framed, Turns, Fed, KnownAt, EnvsAt;
    var b, st := Filled(buf, bufIndex, chunk), Loop(0, |chunk|, bufIndex, false, []);
    var (end, ss, inputs) := Serve(b, st, s, now, fd);
    ServeFeeds(b, st, s, now, fd);
    ServeFrames(b, st, s, now, fd);
    StatesAgree(ss, now);
    ServeIsTurns(b, st, s, now, fd, 0, KnownAt(ss), EnvsAt(ss, now));
    IndexBelowSize(buf, bufIndex, chunk, KnownAt(ss), EnvsAt(ss, now));
  }

  /** So a read whose packets are good keeps every invariant of the server. */
  lemma ReadKeepsConsistency(b: seq<byte>, st: Loop, s: Server, now: int, fd: int)
    requires |b| == MAXBUFSIZE && st.readIndex + st.nread <= MAXBUFSIZE && Servable(b, st, s, now, fd)
    requires Sane(s) && Consistent(s)
    requires var (end, ss, inputs) := Serve(b, st, s, now, fd); forall i :: 0 <= i < |inputs| ==> Good(ss[i], inputs[i])
    ensures Sane(Last(Serve(b, st, s, now, fd).1)) && Consistent(Last(Serve(b, st, s, now, fd).1))
  {
    hide Servable, Serve, Good, Fed, Sane, Consistent;
    ServeFeeds(b, st, s, now, fd);
    var (end, ss, inputs) := Serve(b, st, s, now, fd);
    GoodRun(ss, inputs, |inputs|);
  }

  lemma StatesAgree(ss: seq<Server>, now: int)
    requires ss != []
    ensures Agrees(KnownAt(ss), EnvsAt(ss, now), 0, ss, now)
  {
  }

  // ---------------------------------------------------------------- the loop itself

  /** The three ways a turn goes, as the code takes them. */
  lemma UnrollServe(b: seq<byte>, st: Loop, s: Server, now: int, fd: int)
    requires |b| == MAXBUFSIZE && st.readIndex + st.nread <= MAXBUFSIZE && Servable(b, st, s, now, fd)
    ensures var all, head, n := Serve(b, st, s, now, fd), ReadHead(b), st.nread;
      if n <= HEAD_LENGTH then all.0 == st && Last(all.1) == s
      else if head.length + HEAD_LENGTH <= n then
        var p := PacketAt(b, st.readIndex, head, now, fd);
        var c := Consumed(head.pkgType, p.payload, EnvOf(s, now));
        var frames, at := st.frames + [(st.readIndex, head)], st.readIndex + HEAD_LENGTH;
        c <= head.length && Modelled(head.pkgType, p.payload) && Defined(s, Caused(s, p))
        && var s' := Handle(s, Caused(s, p));
          if c == 0 then all.0 == Loop(0, 0, 0, true, frames) && Last(all.1) == s'
          else
            var next := Loop(at + c, n - (c + HEAD_LENGTH), st.bufIndex, st.reset, frames);
            Servable(b, next, s', now, fd)
            && all.0 == Serve(b, next, s', now, fd).0 && Last(all.1) == Last(Serve(b, next, s', now, fd).1)
      else Last(all.1) == s && all.0 == if Knows(s, head.sender) then st
        else Loop(st.readIndex, 0, MAXBUFSIZE, true, st.frames)
  {
    hide ReadHead, Handle, Defined, Requested, Modelled, Consumed, Turn;
    if st.nread > HEAD_LENGTH {
      TurnCases(b, st, 0, KnownAt([s]), EnvsAt([s], now));
      if !Complete(b, st) {
        IncompleteStops(b, st, s, now);
      }
    }
  }

  /** The loop is at `st` and will end at `end`, the server, now at `s`, at `final`. */
  ghost predicate Ahead(b: seq<byte>, st: Loop, s: Server, end: Loop, final: Server, now: int, fd: int) {
    && |b| == MAXBUFSIZE && st.readIndex + st.nread <= MAXBUFSIZE && Servable(b, st, s, now, fd)
    && Serve(b, st, s, now, fd).0 == end && Last(Serve(b, st, s, now, fd).1) == final
  }

  lemma AheadPacket(b: seq<byte>, st: Loop, s: Server, end: Loop, final: Server, now: int, fd: int)
    requires Ahead(b, st, s, end, final, now, fd) && Complete(b, st)
    ensures st.readIndex + st.nread <= |b|
    ensures var head := ReadHead(b);
      var p := PacketAt(b, st.readIndex, head, now, fd);
      var c := Consumed(head.pkgType, p.payload, EnvOf(s, now));
      var frames, at := st.frames + [(st.readIndex, head)], st.readIndex + HEAD_LENGTH;
      c <= head.length && Modelled(head.pkgType, p.payload) && Defined(s, Requested(s, head, p.payload, now, fd))
      && var s' := Handle(s, Requested(s, head, p.payload, now, fd));
        if c == 0 then end == Loop(0, 0, 0, true, frames) && final == s'
        else Ahead(b, Loop(at + c, st.nread - (c + HEAD_LENGTH), st.bufIndex, st.reset, frames), s', end, final,
          now, fd)
  {
    hide ReadHead, Handle, Defined, Requested, Modelled, Consumed, Servable, Serve, Last;
    UnrollServe(b, st, s, now, fd);
  }

  lemma AheadStops(b: seq<byte>, st: Loop, s: Server, end: Loop, final: Server, now: int, fd: int)
    requires Ahead(b, st, s, end, final, now, fd) && !Complete(b, st)
    ensures final == s
    ensures end == if st.nread <= HEAD_LENGTH || Knows(s, ReadHead(b).sender) then st
                   else Loop(st.readIndex, 0, MAXBUFSIZE, true, st.frames)
  {
    hide ReadHead, Handle, Defined, Requested, Modelled, Consumed, Servable, Serve, Last;
    UnrollServe(b, st, s, now, fd);
  }

  class ReadThread {
    const buf: array<byte>
    var bufIndex: nat
    const net: NetInfo

    ghost predicate Valid()
      reads this, net, net.usersMap.Values, net.groupsMap.Values
    {
      buf.Length == MAXBUFSIZE && bufIndex < MAXBUFSIZE && buf != net.sendBuf && net.Valid()
    }

    constructor (h: Hasher)
      ensures Valid() && fresh(buf) && fresh(net) && bufIndex == 0 && buf[..] == seq(MAXBUFSIZE, _ => 0)
    {
      bufIndex := 0;
      buf := new byte[MAXBUFSIZE](_ => 0);
      net := new NetInfo(h);
    }

    /** The body of the read loop for one successful `read`. */
    method OnReadable(chunk: seq<byte>, now: int, fd: int)
      requires Valid() && 0 < |chunk| <= MAXBUFSIZE - bufIndex
      requires Servable(Filled(buf[..], bufIndex, chunk), Loop(0, |chunk|, bufIndex, false, []), net.model, now, fd)
      modifies this, buf, net, net.usersMap.Values, net.groupsMap.Values, net.sendBuf
      ensures Valid()
      ensures var b := Filled(old(buf[..]), old(bufIndex), chunk);
        var (end, ss, inputs) := Serve(b, Loop(0, |chunk|, old(bufIndex), false, []), old(net.model), now, fd);
        net.model == Last(ss) && bufIndex == NextIndex(end)
        && end.readIndex + end.nread <= MAXBUFSIZE && buf[..] == NextBuffer(b, end)
    {
      hide Servable, Serve, Splice, OnRead, KnownAt, EnvsAt, NextBuffer, NextIndex, Fed, Framed, Last;
      ghost var b, st := Filled(buf[..], bufIndex, chunk), Loop(0, |chunk|, bufIndex, false, []);
      ghost var end, ss := Serve(b, st, net.model, now, fd).0, Serve(b, st, net.model, now, fd).1;
      ReadFeedsServer(buf[..], bufIndex, chunk, net.model, now, fd);
      Store(buf, bufIndex, chunk);
      var readIndex, nread := ParseAll(|chunk|, now, fd, end, Last(ss));
      Compact(readIndex, nread, end);
    }

    /** The unread rest moves to the front of the buffer. */
    method Compact(readIndex: nat, nread: nat, ghost end: Loop)
      requires buf.Length == MAXBUFSIZE && readIndex + nread <= MAXBUFSIZE
      requires end.readIndex == readIndex && end.nread == nread && end.bufIndex == bufIndex
      modifies this`bufIndex, buf
      ensures bufIndex == NextIndex(end) && buf[..] == NextBuffer(old(buf[..]), end)
    {
      if bufIndex < readIndex {
        bufIndex := 0;
      }
      if readIndex != 0 {
        Store(buf, 0, buf[readIndex..readIndex + nread]);
      }
      bufIndex := bufIndex + nread;
      if bufIndex == MAXBUFSIZE {
        bufIndex := 0;
      }
    }

    /** The packet at the read position. */
    method ParseOne(head: Head, readIndex: nat, ghost st: Loop, ghost end: Loop, ghost final: Server, now: int, fd: int)
      returns (index: nat)
      requires buf.Length == MAXBUFSIZE && buf != net.sendBuf && net.Valid()
      requires Ahead(buf[..], st, net.model, end, final, now, fd) && Complete(buf[..], st)
      requires head == ReadHead(buf[..]) && readIndex == st.readIndex
      modifies net, net.usersMap.Values, net.groupsMap.Values, net.sendBuf
      ensures net.Valid()
      ensures forall o <- net.usersMap.Values :: o in old(net.usersMap.Values) || fresh(o)
      ensures forall o <- net.groupsMap.Values :: o in old(net.groupsMap.Values) || fresh(o)
      ensures index <= st.nread
      ensures var frames := st.frames + [(readIndex, head)];
        if index == 0 then end == Loop(0, 0, 0, true, frames) && net.model == final
        else Ahead(buf[..], Loop(readIndex + index, st.nread - index, st.bufIndex, st.reset, frames), net.model,
          end, final, now, fd)
    {
      hide Consumed, ReadHead, Requested, Defined, Handle, Modelled, Servable, Serve, Last, Ahead, NetInfo.Valid;
      AheadPacket(buf[..], st, net.model, end, final, now, fd);
      var at := readIndex + HEAD_LENGTH;
      index := net.ParseMsg(head, buf[at..at + head.length], now, fd);
    }

    /** The inner loop on `count` bytes just read. */
    method ParseAll(count: nat, now: int, fd: int, ghost end: Loop, ghost final: Server)
        returns (readIndex: nat, nread: nat)
      requires buf.Length == MAXBUFSIZE && count <= MAXBUFSIZE && buf != net.sendBuf && net.Valid()
      requires Ahead(buf[..], Loop(0, count, bufIndex, false, []), net.model, end, final, now, fd)
      modifies this`bufIndex, net, net.usersMap.Values, net.groupsMap.Values, net.sendBuf
      ensures net.Valid() && net.model == final
      ensures end.readIndex == readIndex && end.nread == nread && end.bufIndex == bufIndex
        && readIndex + nread <= MAXBUFSIZE
    {
      hide Ahead, Consumed, ReadHead, Requested, Defined, Handle, Modelled, NetInfo.Valid;
      nread, readIndex := count, 0;
      ghost var frames: seq<(nat, Head)>, reset, done, b := [], false, false, buf[..];
      while nread > HEAD_LENGTH
        invariant net.Valid() && buf[..] == b && readIndex + nread <= MAXBUFSIZE
        invariant forall o <- net.usersMap.Values :: o in old(net.usersMap.Values) || fresh(o)
        invariant forall o <- net.groupsMap.Values :: o in old(net.groupsMap.Values) || fresh(o)
        invariant !done ==> Ahead(b, Loop(readIndex, nread, bufIndex, reset, frames), net.model, end, final, now, fd)
        invariant done ==> nread == 0 && end == Loop(readIndex, nread, bufIndex, reset, frames) && net.model == final
        decreases nread
      {
        ghost var st := Loop(readIndex, nread, bufIndex, reset, frames);
        var head := ReadHead(buf[..]);
        if head.length + HEAD_LENGTH <= nread {
          var index := ParseOne(head, readIndex, st, end, final, now, fd);
          frames := frames + [(readIndex, head)];
          if index == 0 {
            readIndex, nread, bufIndex, reset, done := 0, 0, 0, true, true;
            break;
          }
          nread := nread - index;
          readIndex := readIndex + index;
        } else {
          AheadStops(b, st, net.model, end, final, now, fd);
          net.SameUsers();
          if head.sender !in net.usersMap && head.sender !in net.groupsMap {
            bufIndex, nread, reset, done := MAXBUFSIZE, 0, true, true;
          } else {
            break;
          }
        }
      }
      if !done && !Complete(b, Loop(readIndex, nread, bufIndex, reset, frames)) {
        AheadStops(b, Loop(readIndex, nread, bufIndex, reset, frames), net.model, end, final, now, fd);
      }
    }
  }
}
