/** One direction of a splice: bytes delivered by a source session are written to a destination session,
    the source being credited only for what the destination accepted (fwd and flush_pend of
    edge-peer/router.c, and with no source the flush loops of common/relay.c and libpeer/src/libpeer.c). */
module Splice {
  import opened Wire
  import opened Codec
  import opened Session
  import opened Trace
  import opened Node
  import opened NodeRuns
  import opened HostWake

  /** What the host took from stream `sid`. */
  function Got(n: Node, sid: Sid): seq<Byte> { Hear(n.popped, sid).data }

  /** Delivered = accepted ++ pending ++ in hand, and credited = accepted while the source stream lives. */
  ghost predicate Conserves(src: Node, a: Sid, dst: Node, b: Sid, pend: seq<Byte>) {
    && Got(src, a) == Wrote(dst, b) + pend
    && (a in src.s.streams && !src.s.dead ==> Consumed(src, a) == |Wrote(dst, b)|)
  }

  /** The law of a direction at rest: conservation, and whatever is pending is owed a wake-up. */
  ghost predicate Flow(src: Node, a: Sid, dst: Node, b: Sid, pend: seq<Byte>) {
    Conserves(src, a, dst, b, pend) && (pend != [] ==> Waiting(dst.s, b))
  }

  /** Pending bytes fit the source's stream window. */
  lemma PendingFits(src: Node, a: Sid, dst: Node, b: Sid, pend: seq<Byte>)
    requires Inv(src) && Conserves(src, a, dst, b, pend) && a in src.s.streams && !src.s.dead
    ensures |pend| <= src.s.cfg.initWindow
  {
    hide SessOk, WireOk, EncodeAll, Tr, Hear;
    assert SidOk(src, a);
    HearLonger(src.popped, src.s.events, a);
  }

  lemma {:induction false} HearLonger(log: seq<Event>, es: seq<Event>, sid: Sid)
    ensures |Hear(log, sid).data| <= |Hear(log + es, sid).data|
    decreases |es|
  {
    hide Hear;
    if es == [] {
      assert log + es == log;
    } else {
      HearLonger(log, es[..|es| - 1], sid);
      HearAppend(log + es[..|es| - 1], es[|es| - 1], sid);
      assert log + es == log + es[..|es| - 1] + [es[|es| - 1]];
    }
  }

  // ---------------------------------------------------------------- steps that concern other streams

  ghost predicate KeepsSrc(n: Node, n': Node, x: Sid) {
    && Got(n', x) == Got(n, x)
    && (x in n'.s.streams && !n'.s.dead ==> x in n.s.streams && !n.s.dead && Consumed(n', x) == Consumed(n, x))
  }

  ghost predicate KeepsDst(n: Node, n': Node, x: Sid) {
    Wrote(n', x) == Wrote(n, x) && (Waiting(n.s, x) ==> Waiting(n'.s, x))
  }

  lemma FlowKept(src: Node, src': Node, a: Sid, dst: Node, dst': Node, b: Sid, pend: seq<Byte>)
    requires Flow(src, a, dst, b, pend) && KeepsSrc(src, src', a) && KeepsDst(dst, dst', b)
    ensures Flow(src', a, dst', b, pend)
  {
  }

  lemma KeepsSelf(n: Node, x: Sid)
    ensures KeepsSrc(n, n, x) && KeepsDst(n, n, x)
  {
  }

  predicate TakesData(n: Node, st: Step, x: Sid) {
    st == HostCall(CallPop) && n.s.events != [] && n.s.events[0].StreamData? && n.s.events[0].sid == x
  }

  predicate TakesWritable(n: Node, st: Step, x: Sid) {
    st == HostCall(CallPop) && n.s.events != [] && n.s.events[0] == Writable(x)
  }

  predicate Writes(st: Step, x: Sid) { st.HostCall? && st.c.CallWrite? && st.c.sid == x }
  predicate Consumes(st: Step, x: Sid) { st.HostCall? && st.c.CallConsume? && st.c.sid == x }

  /** What a step does to the history. */
  lemma StepHistory(n: Node, st: Step, x: Sid)
    requires GoodConfig(n.s.cfg)
    ensures var n' := Next(n, st);
            && (!Writes(st, x) ==> Wrote(n', x) == Wrote(n, x))
            && (!Consumes(st, x) ==> Consumed(n', x) == Consumed(n, x))
            && (st == HostCall(CallPop) && n.s.events != [] ==> n'.popped == n.popped + [n.s.events[0]])
            && (st == HostCall(CallPop) && n.s.events == [] ==> n'.popped == n.popped)
            && (st != HostCall(CallPop) ==> n'.popped == n.popped)
  {
    hide Process, Do;
    if st.HostCall? {
      CallHistory(n, st.c, x);
    }
  }

  lemma CallHistory(n: Node, c: Call, x: Sid)
    ensures var n' := Do(n, c);
            && (!(c.CallWrite? && c.sid == x) ==> Wrote(n', x) == Wrote(n, x))
            && (!(c.CallConsume? && c.sid == x) ==> Consumed(n', x) == Consumed(n, x))
            && (c.CallPop? && n.s.events != [] ==> n'.popped == n.popped + [n.s.events[0]])
            && (!c.CallPop? || n.s.events == [] ==> n'.popped == n.popped)
  {
    hide OpenStream, WriteStream, CloseStream, ResetStream, Consume, SendCapacity, SendGoAway, OnTimer, Advance;
  }

  lemma StepKeepsSrc(n: Node, st: Step, x: Sid)
    requires Inv(n) && GoodConfig(n.s.cfg) && Enabled(n, st) && Used(n, x)
    requires !TakesData(n, st, x) && !Consumes(st, x)
    ensures KeepsSrc(n, Next(n, st), x)
  {
    hide Inv, Next, Hear, Used;
    NoRevival(n, st, x);
    StepHistory(n, st, x);
    if st == HostCall(CallPop) && n.s.events != [] {
      HearAppend(n.popped, n.s.events[0], x);
    }
  }

  lemma StepKeepsDst(n: Node, st: Step, x: Sid)
    requires Inv(n) && GoodConfig(n.s.cfg) && Enabled(n, st) && Used(n, x)
    requires !TakesWritable(n, st, x) && !Writes(st, x)
    ensures KeepsDst(n, Next(n, st), x)
  {
    hide Inv, Next, Hear, Used, Waiting;
    StepHistory(n, st, x);
    if Waiting(n.s, x) {
      WaitingStep(n, st, x);
    }
  }

  // ---------------------------------------------------------------- one write

  /** mux_write either takes some bytes or leaves the stream waiting. */
  lemma WriteWaits(s: Session, b: Sid, p: seq<Byte>)
    ensures var (s1, w) := WriteStream(s, b, p);
            && w <= |p| && (w < |p| ==> Waiting(s1, b))
  {
    hide SendAll, SetBlocked;
    var (s1, w) := WriteStream(s, b, p);
    if 0 <= w < |p| && !s1.dead {
      ShortWriteBlocks(s, b, p);
    }
  }

  /** One write and the credit for it move accepted bytes from hand or buffer to the destination. */
  lemma WriteConserves(src: Node, a: Sid, dst: Node, b: Sid, p: seq<Byte>)
    requires Conserves(src, a, dst, b, p)
    ensures var w := WriteStream(dst.s, b, p).1;
            var dst' := DoWrite(dst, b, p);
            && w <= |p|
            && (w > 0 ==> Conserves(DoConsume(src, a, w), a, dst', b, p[w..]))
            && (w <= 0 ==> Conserves(src, a, dst', b, p))
            && (w < |p| ==> Waiting(dst'.s, b))
  {
    hide WriteStream, Consume, Hear, Waiting;
    WriteWaits(dst.s, b, p);
    var w := WriteStream(dst.s, b, p).1;
    var dst' := DoWrite(dst, b, p);
    if w > 0 {
      assert Wrote(dst', b) == Wrote(dst, b) + p[..w];
      assert p == p[..w] + p[w..];
      ConsumeCounts(src, a, w);
    } else if w == 0 {
      assert Wrote(dst', b) == Wrote(dst, b);
    }
  }

  lemma ConsumeCounts(n: Node, a: Sid, k: nat)
    ensures var n' := DoConsume(n, a, k);
            && n'.popped == n.popped
            && (a in n'.s.streams && !n'.s.dead ==>
                a in n.s.streams && !n.s.dead && Consumed(n', a) == Consumed(n, a) + k)
  {
    hide Consume, Plain;
    PlainConsume(n.s, a, k);
    PlainKeys(n.s, Consume(n.s, a, k).0);
  }

  lemma PlainKeys(s: Session, s': Session)
    requires Plain(s, s')
    ensures s'.streams.Keys <= s.streams.Keys && (s.dead ==> s'.dead)
  {
  }
}
