/** A relayed connection (common/relay.c). Bytes read from the socket go to the session; what it does not take
    waits in s2m, and reading pauses until it has gone. Bytes of the stream go to the socket; what it does not
    take waits in m2s, and the peer is credited for what was written only. */
module RelayFlow {
  import opened Commons
  import opened Wire
  import opened Codec
  import opened Session
  import opened Trace
  import opened Node
  import opened NodeSend
  import opened NodeConsume
  import opened NodeRuns
  import opened HostWake
  import opened Splice
  import opened Emitting
  import opened Finishing
  import opened Sending

  /** One mux_write keeps what was read = accepted ++ waiting. */
  lemma WriteMoves(n: Node, sid: Sid, p: seq<Byte>)
    requires Inv(n) && Used(n, sid)
    ensures var w := WriteStream(n.s, sid, p).1;
            var n' := DoWrite(n, sid, p);
            && w <= |p| && Inv(n') && Used(n', sid)
            && Wrote(n', sid) == Wrote(n, sid) + (if w > 0 then p[..w] else [])
            && (w < |p| ==> Waiting(n'.s, sid))
  {
    hide Inv, WriteStream, Used, Waiting, Enabled;
    WriteWaits(n.s, sid, p);
    InvConfig(n);
    WriteIsStep(n, sid, p);
    NoRevival(n, HostCall(CallWrite(sid, p)), sid);
    WriteInv(n, sid, p);
  }

  lemma WriteIsStep(n: Node, sid: Sid, p: seq<Byte>)
    requires GoodConfig(n.s.cfg)
    ensures Next(n, HostCall(CallWrite(sid, p))) == DoWrite(n, sid, p) && Enabled(n, HostCall(CallWrite(sid, p)))
  {
    hide DoWrite, DoOpen, DoClose, DoReset, DoConsume, DoCapacity, DoGoAway, DoTimer, DoAdvance, DoPop, Receive;
  }

  lemma CloseIsStep(n: Node, sid: Sid)
    requires GoodConfig(n.s.cfg)
    ensures Next(n, HostCall(CallClose(sid))) == DoClose(n, sid) && Enabled(n, HostCall(CallClose(sid)))
  {
    hide DoWrite, DoOpen, DoClose, DoReset, DoConsume, DoCapacity, DoGoAway, DoTimer, DoAdvance, DoPop, Receive;
  }

  /** The stream has been finished as far as it can be: the FIN is out, or there is nothing to finish. */
  predicate EndSent(s: Session, sid: Sid) { s.dead || sid !in s.streams || s.streams[sid].life.HalfLocal? }

  lemma CloseEnds(n: Node, sid: Sid)
    ensures EndSent(DoClose(n, sid).s, sid)
  {
    hide Encode, GrowTo;
  }

  lemma EndStays(n: Node, st: Step, sid: Sid)
    requires Inv(n) && GoodConfig(n.s.cfg) && Enabled(n, st) && Used(n, sid) && EndSent(n.s, sid)
    ensures EndSent(Next(n, st).s, sid)
  {
    hide SessOk, WireOk, EncodeAll, SidOk, Next, Used;
    StepInv(n, st);
    NoRevival(n, st, sid);
    StepLonger(n, st);
    if !n.s.dead && sid in Next(n, st).s.streams {
      HalfLocalStays(n, Next(n, st), sid);
    }
  }

  /** Writing leaves the end of the stream where it was. */
  lemma WriteNoFin(n: Node, sid: Sid, p: seq<Byte>)
    ensures Tr(DoWrite(n, sid, p).s.wire, sid).fin == Tr(n.s.wire, sid).fin
  {
    hide WriteStream, Tr, Emits;
    WriteEmits(n.s, sid, p);
    SplitAll(n.s, WriteStream(n.s, sid, p).0, {Bytes}, sid);
  }

  // ---------------------------------------------------------------- stream to socket

  /** What is delivered was written or waits, and what was written was credited. */
  ghost predicate Sinks(n: Node, sid: Sid, written: seq<Byte>, m2s: seq<Byte>) {
    && Got(n, sid) == written + m2s
    && (sid in n.s.streams && !n.s.dead ==> Consumed(n, sid) == |written|)
  }

  /** One write(2) of `k` bytes and its mux_consume. */
  lemma SinkMoves(n: Node, sid: Sid, written: seq<Byte>, m2s: seq<Byte>, k: nat)
    requires Inv(n) && Used(n, sid) && Sinks(n, sid, written, m2s) && k <= |m2s|
    ensures var n' := DoConsume(n, sid, k);
            Inv(n') && Used(n', sid) && Sinks(n', sid, written + m2s[..k], m2s[k..])
  {
    hide Inv, Used, Consume, Hear, Enabled, DoConsume;
    InvConfig(n);
    ConsumeIsStep(n, sid, k);
    NoRevival(n, HostCall(CallConsume(sid, k)), sid);
    ConsumeInv(n, sid, k);
    ConsumeCounts(n, sid, k);
    assert m2s == m2s[..k] + m2s[k..];
  }

  lemma ConsumeIsStep(n: Node, sid: Sid, k: nat)
    requires GoodConfig(n.s.cfg)
    ensures Next(n, HostCall(CallConsume(sid, k))) == DoConsume(n, sid, k) && Enabled(n, HostCall(CallConsume(sid, k)))
  {
    hide DoWrite, DoOpen, DoClose, DoReset, DoConsume, DoCapacity, DoGoAway, DoTimer, DoAdvance, DoPop, Receive;
  }

  /** An event of the stream is taken. */
  lemma SinkPop(n: Node, sid: Sid, written: seq<Byte>, m2s: seq<Byte>)
    requires Inv(n) && GoodConfig(n.s.cfg) && Used(n, sid) && Sinks(n, sid, written, m2s) && n.s.events != []
    ensures var n', e := Next(n, HostCall(CallPop)), n.s.events[0];
            && Inv(n') && Used(n', sid)
            && Sinks(n', sid, written, if e.StreamData? && e.sid == sid then m2s + e.data else m2s)
  {
    hide Inv, Used, Hear, Next;
    var pop := HostCall(CallPop);
    StepInv(n, pop);
    StepHistory(n, pop, sid);
    NoRevival(n, pop, sid);
    HearAppend(n.popped, n.s.events[0], sid);
  }

  /** What waits for the socket fits the stream window, so a slow socket costs no more memory than that. */
  lemma WaitingFits(n: Node, sid: Sid, written: seq<Byte>, m2s: seq<Byte>)
    requires Inv(n) && Sinks(n, sid, written, m2s) && sid in n.s.streams && !n.s.dead
    ensures |m2s| <= n.s.cfg.initWindow
  {
    hide SessOk, WireOk, EncodeAll, Tr, Hear;
    assert SidOk(n, sid);
    HearLonger(n.popped, n.s.events, sid);
  }

  lemma SinkStep(n: Node, st: Step, sid: Sid, written: seq<Byte>, m2s: seq<Byte>)
    requires Inv(n) && GoodConfig(n.s.cfg) && Enabled(n, st) && Used(n, sid) && Sinks(n, sid, written, m2s)
    requires !TakesData(n, st, sid) && !Consumes(st, sid)
    ensures Sinks(Next(n, st), sid, written, m2s)
  {
    hide Inv, Used, Next, Hear;
    StepKeepsSrc(n, st, sid);
  }

  // ---------------------------------------------------------------- socket to stream

  /** No write takes anything. */
  ghost predicate Stuck(s: Session, sid: Sid) { forall q :: WriteStream(s, sid, q).1 <= 0 }

  lemma ShortStuck(n: Node, sid: Sid, p: seq<Byte>)
    requires p != []
    ensures WriteStream(n.s, sid, p).1 == |p| <==> TakesAll(n.s, sid, |p|)
    ensures WriteStream(n.s, sid, p).1 < |p| ==> Stuck(DoWrite(n, sid, p).s, sid)
    ensures Stuck(n.s, sid) ==> WriteStream(n.s, sid, p).1 <= 0
  {
    hide WriteStream, TakesAll;
    WriteAllExactly(n.s, sid, p);
    if WriteStream(n.s, sid, p).1 < |p| {
      ShortThenNothing(n.s, sid, p, 1);
    }
  }

  /** Everything read was accepted in order or waits, and the FIN is on the wire only after end of file and after
      the last byte. */
  ghost predicate Feeds(n: Node, sid: Sid, read: seq<Byte>, s2m: seq<Byte>, eof: bool) {
    read == Wrote(n, sid) + s2m && (Tr(n.s.wire, sid).fin ==> eof && s2m == [])
  }

  /** What waits is owed a WRITABLE; once nothing does after end of file, the end is out. */
  ghost predicate Settled(n: Node, sid: Sid, s2m: seq<Byte>, eof: bool) {
    (s2m != [] ==> Waiting(n.s, sid)) && (eof && s2m == [] ==> EndSent(n.s, sid))
  }

  lemma FeedStep(n: Node, st: Step, sid: Sid, read: seq<Byte>, s2m: seq<Byte>, eof: bool)
    requires Inv(n) && GoodConfig(n.s.cfg) && Enabled(n, st) && Used(n, sid)
    requires Feeds(n, sid, read, s2m, eof) && Settled(n, sid, s2m, eof)
    requires !Writes(st, sid) && !Closes(st, sid) && !TakesWritable(n, st, sid)
    ensures Feeds(Next(n, st), sid, read, s2m, eof) && Settled(Next(n, st), sid, s2m, eof)
  {
    hide Inv, Used, Waiting, Next, EndSent, Tr;
    StepKeepsDst(n, st, sid);
    FinOnlyByClose(n, st, sid);
    if EndSent(n.s, sid) {
      EndStays(n, st, sid);
    }
  }

  /** How many of `len` bytes go out when `takes` are the successive results of write(2). */
  function Passes(len: nat, takes: seq<int>): (k: nat)
    ensures k <= len && (len > 0 && takes != [] && takes[0] > 0 ==> k > 0)
    decreases |takes|
  {
    if len == 0 || takes == [] || takes[0] <= 0 then 0
    else var k := Min(takes[0], len); k + Passes(len - k, takes[1..])
  }

  /** Whether that ends in an error. */
  predicate Breaks(len: nat, takes: seq<int>)
    decreases |takes|
  {
    len > 0 && takes != [] && (takes[0] < 0 || (takes[0] > 0 && Breaks(len - Min(takes[0], len), takes[1..])))
  }

  /** The end of the stream was taken from the session. */
  predicate Told(n: Node, sid: Sid) { StreamClosed(sid) in n.popped }

  predicate TakesClosed(n: Node, st: Step, sid: Sid) {
    st == HostCall(CallPop) && n.s.events != [] && n.s.events[0] == StreamClosed(sid)
  }

  lemma ToldStep(n: Node, st: Step, sid: Sid)
    requires GoodConfig(n.s.cfg)
    ensures Told(Next(n, st), sid)
            <==> Told(n, sid) || TakesClosed(n, st, sid)
  {
    hide Next;
    StepHistory(n, st, sid);
  }

  /** How a round of read(2) ends. */
  datatype Ending = WouldBlock | EndOfFile | Failure

  class Conn {
    const sid: Sid
    var n: Node
    var s2m: seq<Byte>
    var m2s: seq<Byte>
    var sockEof: bool
    var streamFin: bool
    var sendBlocked: bool
    var connecting: bool
    var used: bool
    var shut: bool
    ghost var read: seq<Byte>
    ghost var written: seq<Byte>

    /** Towards the stream. */
    ghost predicate Up()
      reads this
    {
      && Feeds(n, sid, read, s2m, sockEof) && Settled(n, sid, s2m, sockEof)
      && (sendBlocked <==> s2m != []) && (sockEof ==> s2m == [])
    }

    /** Towards the socket. */
    ghost predicate Down()
      reads this
    {
      Inv(n) && Used(n, sid) && Sinks(n, sid, written, m2s) && (shut ==> streamFin) && (streamFin <==> Told(n, sid))
    }

    ghost predicate Valid()
      reads this
    {
      used ==> Up() && Down() && ShutOk()
    }

    /** A connected socket is shut for writing once the stream has ended and nothing waits, unless it is at its own
        end. */
    predicate ShutOk()
      reads this
    {
      !connecting && streamFin && m2s == [] && !sockEof ==> shut
    }

    /** Both ends are finished and nothing waits. */
    predicate Over()
      reads this
    {
      sockEof && streamFin && m2s == [] && s2m == []
    }

    /** Nothing was lost: all that was read was accepted, and all that was delivered was written. */
    ghost predicate AllPassed()
      reads this
    {
      read == Wrote(n, sid) && written == Got(n, sid)
    }

    constructor (id: Sid, node: Node, pending: bool)
      requires Inv(node) && Used(node, id) && Wrote(node, id) == [] && !Tr(node.s.wire, id).fin
      requires Got(node, id) == [] && Consumed(node, id) == 0 && !Told(node, id)
      ensures Valid() && used && n == node && sid == id && connecting == pending
      ensures read == [] && s2m == [] && written == [] && m2s == [] && !sockEof && !streamFin && !shut
    {
      sid, n, connecting := id, node, pending;
      s2m, sockEof, sendBlocked, read := [], false, false, [];
      m2s, streamFin, shut, written, used := [], false, false, [], true;
    }

    // -------------------------------------------------------------- socket to stream

    /** mux_write on the session. */
    method Write(p: seq<Byte>) returns (w: int)
      requires Down()
      modifies `n
      ensures Down() && w <= |p| && (w < |p| ==> Waiting(n.s, sid))
      ensures Wrote(n, sid) == Wrote(old(n), sid) + (if w > 0 then p[..w] else [])
      ensures Tr(n.s.wire, sid).fin == Tr(old(n).s.wire, sid).fin
      ensures w == WriteStream(old(n).s, sid, p).1 && n == DoWrite(old(n), sid, p)
    {
      hide Inv, Used, Waiting, WriteStream, DoWrite, Tr, Sinks, Enabled, Told;
      InvConfig(n);
      WriteIsStep(n, sid, p);
      SinkStep(n, HostCall(CallWrite(sid, p)), sid, written, m2s);
      ToldStep(n, HostCall(CallWrite(sid, p)), sid);
      WriteMoves(n, sid, p);
      WriteNoFin(n, sid, p);
      w := WriteStream(n.s, sid, p).1;
      n := DoWrite(n, sid, p);
    }

    /** flush_to_mux. */
    method FlushToMux()
      requires Down() && Feeds(n, sid, read, s2m, sockEof) && (sockEof ==> s2m == [])
      modifies `n, `s2m, `sendBlocked
      ensures Up() && Down() && (s2m == [] <==> old(s2m) == [] || TakesAll(old(n).s, sid, |old(s2m)|))
    {
      hide Inv, Used, Sinks, Waiting, DoWrite, WriteStream, EndSent, Tr, TakesAll, Stuck, Told;
      while s2m != []
        invariant Down() && Feeds(n, sid, read, s2m, sockEof) && (sockEof ==> s2m == [])
        invariant || (n == old(n) && s2m == old(s2m))
                  || ((s2m == [] <==> TakesAll(old(n).s, sid, |old(s2m)|)) && (s2m != [] ==> Stuck(n.s, sid)))
        decreases |s2m|
      {
        var p := s2m;
        ShortStuck(n, sid, p);
        var w := Write(p);
        if w > 0 {
          assert p == p[..w] + p[w..];
          s2m := p[w..];
        }
        if w <= 0 {
          sendBlocked := true;
          return;
        }
        if w < |s2m| {
          sendBlocked := true;
          return;
        }
      }
      sendBlocked := false;
      if sockEof {
        Finish();
      }
    }

    /** mux_close, once nothing is left to send. */
    method Finish()
      requires Down() && Feeds(n, sid, read, s2m, sockEof) && sockEof && s2m == []
      modifies `n
      ensures Down() && Feeds(n, sid, read, s2m, sockEof) && EndSent(n.s, sid) && n == DoClose(old(n), sid)
    {
      hide Inv, Used, DoClose, EndSent, Tr, Sinks, Enabled, Told;
      InvConfig(n);
      CloseIsStep(n, sid);
      SinkStep(n, HostCall(CallClose(sid)), sid, written, m2s);
      ToldStep(n, HostCall(CallClose(sid)), sid);
      NoRevival(n, HostCall(CallClose(sid)), sid);
      CloseInv(n, sid);
      CloseEnds(n, sid);
      StepHistory(n, HostCall(CallClose(sid)), sid);
      n := DoClose(n, sid);
    }

    /** conn_destroy. */
    method Destroy()
      modifies `used
      ensures !used && Valid()
    {
      used := false;
    }

    /** conn_maybe_finish: a connection that is over is destroyed, and has lost nothing. */
    method MaybeFinish()
      requires used && Up() && Down() && ShutOk()
      modifies `used
      ensures Valid() && (used <==> !Over()) && (!used ==> AllPassed())
    {
      hide Inv, Used, Waiting, EndSent, Tr, Hear;
      if Over() {
        Destroy();
      }
    }

    /** One read(2) result; an error of mux_write ends the connection. */
    method Accept(p: seq<Byte>) returns (more: bool)
      requires used && Up() && Down() && ShutOk() && !sockEof && s2m == []
      modifies `n, `s2m, `sendBlocked, `used, `read
      ensures Valid() && read == old(read) + p && (more <==> used && s2m == [])
    {
      hide Inv, Used, Sinks, Waiting, DoWrite, WriteStream, EndSent, Tr;
      var w := Write(p);
      read := read + p;
      if w < 0 {
        Destroy();
        return false;
      }
      assert p == p[..w] + p[w..];
      if w < |p| {
        s2m := p[w..];
        sendBlocked := true;
        return false;
      }
      return true;
    }

    /** The end of a round of reading, with nothing waiting. */
    method EndRead(last: Ending)
      requires used && Up() && Down() && ShutOk() && !sockEof && s2m == []
      modifies `n, `sockEof, `used
      ensures Valid() && (used ==> (last.WouldBlock? <==> !sockEof))
      ensures sockEof ==> (used <==> !Over()) && (!used ==> AllPassed())
    {
      hide Inv, Used, Sinks, Waiting, EndSent, Tr, Hear;
      match last {
        case WouldBlock =>
        case EndOfFile =>
          sockEof := true;
          Finish();
          MaybeFinish();
        case Failure =>
          Destroy();
      }
    }

    /** on_sock_readable: `chunks` are the successive results of read(2) and `last` what comes after them. Reading
        stops at the first short write; nothing is read while something waits. */
    method Readable(chunks: seq<seq<Byte>>, last: Ending) returns (k: nat)
      requires Valid() && used && !sockEof
      requires forall i :: 0 <= i < |chunks| ==> chunks[i] != []
      modifies `n, `s2m, `sockEof, `sendBlocked, `used, `read
      ensures Valid() && k <= |chunks| && read == old(read) + Flatten(chunks[..k])
      ensures old(s2m) != [] ==> k == 0 && s2m == old(s2m) && !sockEof && used
      ensures k < |chunks| ==> !used || s2m != []
      ensures used && s2m == [] ==> (last.WouldBlock? <==> !sockEof)
      ensures used ==> !Over()
      ensures sockEof && !used ==> Over() && AllPassed()
    {
      hide Conn.Up, Conn.Down, Hear;
      k := 0;
      assert Flatten(chunks[..0]) == [];
      if s2m != [] {
        return;
      }
      while k < |chunks|
        invariant k <= |chunks| && used && Up() && Down() && ShutOk() && !sockEof && s2m == []
        invariant read == old(read) + Flatten(chunks[..k])
      {
        FlattenMore(chunks, k);
        var more := Accept(chunks[k]);
        k := k + 1;
        if !more {
          return;
        }
      }
      EndRead(last);
    }

    /** The stream's WRITABLE is taken and what waits is flushed, all of it exactly when the session can take all;
        that cannot end the connection, since reading stops at end of file only with nothing waiting. */
    method OnWritable()
      requires Valid() && used && n.s.events != [] && n.s.events[0] == Writable(sid)
      modifies `n, `s2m, `sendBlocked
      ensures Valid() && (Over() <==> old(Over()))
      ensures s2m == [] <==> old(s2m) == [] || TakesAll(Do(old(n), CallPop).s, sid, |old(s2m)|)
    {
      hide Inv, Used, Sinks, Waiting, Do, Tr, EndSent, Hear, TakesAll, Told;
      InvConfig(n);
      var st := HostCall(CallPop);
      SinkPop(n, sid, written, m2s);
      StepHistory(n, st, sid);
      ToldStep(n, st, sid);
      FinOnlyByClose(n, st, sid);
      n := Next(n, st);
      FlushToMux();
    }

    // -------------------------------------------------------------- stream to socket

    /** One write(2) of `k` bytes, and its mux_consume. */
    method WriteOut(k: nat)
      requires Up() && Down() && k <= |m2s|
      modifies `n, `m2s, `written
      ensures Up() && Down() && written == old(written) + old(m2s)[..k] && m2s == old(m2s)[k..]
    {
      hide Inv, Used, Sinks, Waiting, EndSent, Tr, Hear, DoConsume, Next, Enabled, Told;
      InvConfig(n);
      ConsumeIsStep(n, sid, k);
      FeedStep(n, HostCall(CallConsume(sid, k)), sid, read, s2m, sockEof);
      SinkMoves(n, sid, written, m2s, k);
      ToldStep(n, HostCall(CallConsume(sid, k)), sid);
      n := DoConsume(n, sid, k);
      written, m2s := written + m2s[..k], m2s[k..];
    }

    /** flush_to_socket: `takes` are the successive results of write(2), each limited by what there is to
        write; a 0, or no result, stands for "would block", a negative one for an error. The socket is shut
        for writing only when the peer has finished and everything delivered has been written. */
    method FlushToSocket(takes: seq<int>) returns (ok: bool)
      requires Up() && Down()
      modifies `n, `m2s, `shut, `written
      ensures Up() && Down() && (connecting || ShutOk()) && (ok <==> !Breaks(|old(m2s)|, takes)) && (!ok ==> m2s != [])
      ensures var k := Passes(|old(m2s)|, takes);
              written == old(written) + old(m2s)[..k] && m2s == old(m2s)[k..]
      ensures shut <==> old(shut) || (streamFin && !sockEof && m2s == [])
      ensures shut && !old(shut) ==> written == Got(n, sid)
    {
      hide Inv, Used, Waiting, EndSent, Tr, Hear, Feeds, Settled, Told;
      ok := true;
      var i := 0;
      ghost var done := 0;
      while m2s != [] && i < |takes| && takes[i] > 0
        invariant 0 <= i <= |takes| && Up() && Down() && shut == old(shut) && 0 <= done <= |old(m2s)|
        invariant written == old(written) + old(m2s)[..done] && m2s == old(m2s)[done..]
        invariant Passes(|old(m2s)|, takes) == done + Passes(|m2s|, takes[i..])
        invariant Breaks(|old(m2s)|, takes) == Breaks(|m2s|, takes[i..])
        decreases |takes| - i
      {
        var k := Min(takes[i], |m2s|);
        assert takes[i..][1..] == takes[i + 1..];
        assert old(m2s)[..done + k] == old(m2s)[..done] + m2s[..k];
        WriteOut(k);
        done := done + k;
        i := i + 1;
      }
      if m2s != [] && i < |takes| && takes[i] < 0 {
        return false;
      }
      ShutDue();
    }

    /** The socket's write side is shut once the stream ended and nothing waits for it. */
    method ShutDue()
      requires Up() && Down()
      modifies `shut
      ensures Up() && Down() && (connecting || ShutOk())
      ensures shut <==> old(shut) || (streamFin && !sockEof && m2s == [])
      ensures shut && !old(shut) ==> written == Got(n, sid)
    {
      hide Inv, Used, Waiting, EndSent, Tr, Hear, Feeds, Settled, Told;
      if streamFin && m2s == [] && !sockEof {
        shut := true;
      }
    }

    /** An event of the stream is taken that is no WRITABLE, and what it brings is noted. */
    method Take()
      requires Up() && Down() && n.s.events != [] && n.s.events[0] != Writable(sid)
      modifies `n, `m2s, `streamFin
      ensures Up() && Down() && n == Do(old(n), CallPop)
      ensures var e := old(n).s.events[0];
              && m2s == (if e.StreamData? && e.sid == sid then old(m2s) + e.data else old(m2s))
              && streamFin == (old(streamFin) || e == StreamClosed(sid))
    {
      hide Inv, Used, Sinks, Waiting, EndSent, Tr, Hear, Do, Told;
      InvConfig(n);
      SinkPop(n, sid, written, m2s);
      FeedStep(n, HostCall(CallPop), sid, read, s2m, sockEof);
      ToldStep(n, HostCall(CallPop), sid);
      var e := n.s.events[0];
      n := Next(n, HostCall(CallPop));
      if e.StreamData? && e.sid == sid {
        m2s := m2s + e.data;
      } else if e == StreamClosed(sid) {
        streamFin := true;
      }
    }

    /** STREAM_DATA: behind what waits, and out as far as the socket takes it. */
    method OnData(data: seq<Byte>, takes: seq<int>)
      requires Valid() && used && n.s.events != [] && n.s.events[0] == StreamData(sid, data)
      modifies `n, `m2s, `streamFin, `shut, `written
      ensures Valid() && streamFin == old(streamFin)
      ensures var all := old(m2s) + data;
              var k := if connecting then 0 else Passes(|all|, takes);
              written == old(written) + all[..k] && m2s == all[k..]
    {
      hide Conn.Up, Conn.Down, Do;
      Take();
      if !connecting {
        var _ := FlushToSocket(takes);
      }
    }

    /** STREAM_CLOSED: what waits is flushed, the socket shut if that was all, and the connection destroyed if it is
        over. */
    method OnClosed(takes: seq<int>)
      requires Valid() && used && n.s.events != [] && n.s.events[0] == StreamClosed(sid)
      modifies `n, `m2s, `streamFin, `shut, `written, `used
      ensures Valid() && streamFin && ShutOk()
      ensures var k := if connecting then 0 else Passes(|old(m2s)|, takes);
              written == old(written) + old(m2s)[..k] && m2s == old(m2s)[k..]
      ensures (used <==> !Over()) && (!used ==> AllPassed())
    {
      hide Conn.Up, Conn.Down, Do, Hear;
      Take();
      if !connecting {
        var _ := FlushToSocket(takes);
      }
      MaybeFinish();
    }

    /** STREAM_RESET: the connection is destroyed. */
    method OnReset(code: U32)
      requires Valid() && used && n.s.events != [] && n.s.events[0] == StreamReset(sid, code)
      modifies `n, `m2s, `streamFin, `used
      ensures Valid() && !used && n == Do(old(n), CallPop)
    {
      hide Inv, Used, Sinks, Feeds, Settled, Do, Hear;
      Take();
      Destroy();
    }

    /** mux_reset of the stream. */
    method Abort()
      modifies `n
      ensures n == DoReset(old(n), sid, CODE_INTERNAL) && (n.s.dead || sid !in n.s.streams)
    {
      hide Encode, GrowTo;
      n := DoReset(n, sid, CODE_INTERNAL);
    }

    method Connected()
      requires Up() && Down()
      modifies `connecting
      ensures Up() && Down() && !connecting
    {
      hide Inv, Used, Sinks, Feeds, Settled, Told;
      connecting := false;
    }

    /** on_sock_writable: a pending connect has ended, or the socket has room again. A connection that fails is
        reset and destroyed. */
    method OnSockWritable(failed: bool, takes: seq<int>)
      requires Valid() && used
      modifies `n, `m2s, `connecting, `shut, `written, `used
      ensures Valid()
      ensures var k := if old(connecting) && failed then 0 else Passes(|old(m2s)|, takes);
              written == old(written) + old(m2s)[..k] && m2s == old(m2s)[k..]
      ensures used <==> !(old(connecting) && failed) && !Breaks(|old(m2s)|, takes) && !Over()
      ensures used ==> !connecting && ShutOk()
      ensures !used && m2s == [] && !(old(connecting) && failed) ==> Over() && AllPassed()
      ensures !used && !Over() ==> n.s.dead || sid !in n.s.streams
    {
      hide Conn.Up, Conn.Down, Do, Hear, DoReset;
      if connecting {
        if failed {
          Abort();
          Destroy();
          return;
        }
        Connected();
      }
      var ok := FlushToSocket(takes);
      if !ok {
        Abort();
        Destroy();
        return;
      }
      MaybeFinish();
    }

    /** Any other step of the session. */
    method Elsewhere(st: Step)
      requires Valid() && used && GoodConfig(n.s.cfg) && Enabled(n, st)
      requires !Writes(st, sid) && !Closes(st, sid) && !TakesWritable(n, st, sid)
      requires !TakesData(n, st, sid) && !Consumes(st, sid) && !TakesClosed(n, st, sid)
      modifies `n
      ensures Valid() && n == Next(old(n), st)
    {
      hide Inv, Used, Sinks, Feeds, Settled, Next, Told;
      ToldStep(n, st, sid);
      StepInv(n, st);
      NoRevival(n, st, sid);
      SinkStep(n, st, sid, written, m2s);
      FeedStep(n, st, sid, read, s2m, sockEof);
      n := Next(n, st);
    }
  }
}
