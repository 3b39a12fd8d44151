/** How much the router holds: the pending bytes of all routes of a tunnel together fit the connection
    window of its session. */
module RouterMemory {
  import opened Wire
  import opened Codec
  import opened Session
  import opened Trace
  import opened Node
  import opened NodeRuns
  import opened HostWake
  import opened Splice
  import opened Hosting
  import opened RouterNet

  ghost function Sum(m: map<nat, nat>): nat
    decreases |m|
  {
    if m == map[] then 0
    else
      var k :| k in m;
      m[k] + Sum(m - {k})
  }

  lemma {:induction false} SumSplit(m: map<nat, nat>, k: nat)
    requires k in m
    ensures Sum(m) == m[k] + Sum(m - {k})
    decreases |m|
  {
    var j :| j in m && Sum(m) == m[j] + Sum(m - {j});
    if j != k {
      SumSplit(m - {j}, k);
      SumSplit(m - {k}, j);
      assert m - {j} - {k} == m - {k} - {j};
    }
  }

  lemma SumUpdate(m: map<nat, nat>, k: nat, v: nat)
    ensures Sum(m[k := v]) == Sum(m) - (if k in m then m[k] else 0) + v
  {
    SumSplit(m[k := v], k);
    if k in m {
      SumSplit(m, k);
      assert m[k := v] - {k} == m - {k};
    } else {
      assert m[k := v] - {k} == m;
    }
  }

  /** Bytes delivered at one end of each route of a tunnel and not accepted at the other. */
  function Held(net: Net, side: Side, i: nat): map<nat, nat> {
    map r | r in net.routes && At(net.routes[r], side) == i :: |Pend(net.routes[r], side)|
  }

  /** Bytes taken from the session and not credited. */
  function Unread(n: Node): int { TotalIn(n.popped) - n.consumedTotal }

  /** The held bytes are among the uncredited ones, `hand` more being in the operation's hands. */
  ghost predicate MemoryBut(net: Net, s0: Side, i0: nat, hand: int) {
    forall side, i :: 0 <= i < |TunnelsOf(net, side)| && TunnelsOf(net, side)[i].up ==>
      Sum(Held(net, side, i)) + (if side == s0 && i == i0 then hand else 0) <= Unread(TunnelsOf(net, side)[i].n)
  }

  ghost predicate Memory(net: Net) { MemoryBut(net, Up, 0, 0) }

  lemma MemoryNone(net: Net, s0: Side, i0: nat)
    ensures Memory(net) <==> MemoryBut(net, s0, i0, 0)
  {
  }

  /** The pending bytes of a tunnel's routes never exceed its connection window. */
  lemma HeldFits(net: Net, side: Side, i: nat)
    requires NetOk(net) && Memory(net) && i < |TunnelsOf(net, side)| && TunnelsOf(net, side)[i].up
    ensures Sum(Held(net, side, i)) <= TunnelsOf(net, side)[i].n.s.cfg.sessionWindow
  {
    hide Paired, Mine, OpensOk, Untouched, Held, RouteFlow;
    var n := TunnelsOf(net, side)[i].n;
    assert TunnelOk(TunnelsOf(net, side)[i], side);
    UnreadFits(n);
  }

  lemma UnreadFits(n: Node)
    requires Inv(n)
    ensures Unread(n) <= n.s.cfg.sessionWindow
  {
    hide IdsOk, HelloOk, SidOk, WireOk, EncodeAll, TotalIn, TotalData, Tr;
    TotalLonger(n.popped, n.s.events);
  }

  lemma {:induction false} TotalLonger(log: seq<Event>, es: seq<Event>)
    ensures TotalIn(log) <= TotalIn(log + es)
    decreases |es|
  {
    if es == [] {
      assert log + es == log;
    } else {
      TotalLonger(log, es[..|es| - 1]);
      HearAppend(log + es[..|es| - 1], es[|es| - 1], SID_CONTROL);
      assert log + es == log + es[..|es| - 1] + [es[|es| - 1]];
    }
  }

  // ---------------------------------------------------------------- steps

  /** What a step may take from the uncredited bytes. */
  function Credits(st: Step): nat { if st.HostCall? && st.c.CallConsume? then st.c.n else 0 }

  /** What a step hands to the host. */
  function Hands(n: Node, st: Step): nat {
    if st == HostCall(CallPop) && n.s.events != [] && n.s.events[0].StreamData? then |n.s.events[0].data| else 0
  }

  lemma UnreadStep(n: Node, st: Step)
    requires GoodConfig(n.s.cfg)
    ensures Unread(Next(n, st)) >= Unread(n) - Credits(st) + Hands(n, st)
  {
    hide TotalIn, Next;
    StepHistory(n, st, SID_CONTROL);
    TotalStep(n, st);
    if st == HostCall(CallPop) && n.s.events != [] {
      HearAppend(n.popped, n.s.events[0], SID_CONTROL);
    }
  }

  lemma TotalStep(n: Node, st: Step)
    requires GoodConfig(n.s.cfg)
    ensures n.consumedTotal <= Next(n, st).consumedTotal <= n.consumedTotal + Credits(st)
  {
    hide Receive, Do;
    match st
    case HostCall(c) => CallTotal(n, c);
    case PeerFrame(f, order) => ReceiveTotal(n, f, order);
    case PeerGarbage =>
  }

  lemma CallTotal(n: Node, c: Call)
    ensures n.consumedTotal <= Do(n, c).consumedTotal <= n.consumedTotal + Credits(HostCall(c))
  {
    hide OpenStream, WriteStream, CloseStream, ResetStream, Consume, SendCapacity, SendGoAway, OnTimer, Advance,
        PopEvent;
  }

  lemma ReceiveTotal(n: Node, f: Frame, order: seq<Sid>)
    requires GoodConfig(n.s.cfg)
    ensures Receive(n, f, order).consumedTotal == n.consumedTotal
  {
    hide Process;
  }

  /** A session step under its tunnel's account. */
  lemma StepMemory(net: Net, side: Side, i: nat, st: Step, s0: Side, i0: nat, hand: int)
    requires MemoryBut(net, s0, i0, hand) && i < |TunnelsOf(net, side)| && GoodConfig(TunnelsOf(net, side)[i].n.s.cfg)
    requires Credits(st) == 0 || (side == s0 && i == i0)
    ensures var n := TunnelsOf(net, side)[i].n;
            MemoryBut(SetNode(net, side, i, Next(n, st)), s0, i0,
                      if side == s0 && i == i0 then hand - Credits(st) + Hands(n, st) else hand)
  {
    hide Next, Unread;
    var n := TunnelsOf(net, side)[i].n;
    UnreadStep(n, st);
    var net' := SetNode(net, side, i, Next(n, st));
    forall d, k | 0 <= k < |TunnelsOf(net', d)| && TunnelsOf(net', d)[k].up
      ensures Held(net', d, k) == Held(net, d, k)
    {
    }
  }

  /** Bytes move between the operation's hands and the route's buffer. */
  lemma RecordMemory(net: Net, r: nat, side: Side, p: seq<Byte>, hand: int)
    requires r in net.routes && MemoryBut(net, side, At(net.routes[r], side), hand)
    ensures MemoryBut(net.(routes := net.routes[r := WithPend(net.routes[r], side, p)]),
                      side, At(net.routes[r], side), hand + |Pend(net.routes[r], side)| - |p|)
  {
    hide Unread, Held, Sum;
    var R := net.routes[r];
    var net' := net.(routes := net.routes[r := WithPend(R, side, p)]);
    forall d, k | 0 <= k < |TunnelsOf(net', d)|
      ensures Sum(Held(net', d, k))
              == Sum(Held(net, d, k)) + if d == side && k == At(R, side) then |p| - |Pend(R, side)| else 0
    {
      RecordHeld(net, r, side, p, d, k);
    }
  }

  lemma RecordHeld(net: Net, r: nat, side: Side, p: seq<Byte>, d: Side, k: nat)
    requires r in net.routes
    ensures var net' := net.(routes := net.routes[r := WithPend(net.routes[r], side, p)]);
            Sum(Held(net', d, k)) == Sum(Held(net, d, k))
              + if d == side && k == At(net.routes[r], side) then |p| - |Pend(net.routes[r], side)| else 0
  {
    var R := net.routes[r];
    var net' := net.(routes := net.routes[r := WithPend(R, side, p)]);
    SameEnds(R, side, p, d);
    if k == At(R, d) && d == side {
      assert Held(net', d, k) == Held(net, d, k)[r := |p|];
      SumUpdate(Held(net, d, k), r, |p|);
    } else {
      assert Held(net', d, k) == Held(net, d, k);
    }
  }

  lemma FinMemory(net: Net, r: nat, side: Side)
    requires r in net.routes && Memory(net)
    ensures Memory(net.(routes := net.routes[r := WithFin(net.routes[r], side)]))
  {
    hide Unread;
    var R := net.routes[r];
    var net' := net.(routes := net.routes[r := WithFin(R, side)]);
    forall d, k | 0 <= k < |TunnelsOf(net', d)| && TunnelsOf(net', d)[k].up
      ensures Held(net', d, k) == Held(net, d, k)
    {
      SameEnds(R, side, [], d);
    }
  }

  lemma FreedMemory(net: Net, r: nat)
    requires r in net.routes && Entered(net, r, Up) && Entered(net, r, Down) && Memory(net)
    ensures Memory(Freed(net, r))
  {
    hide Unread, Freed, Held, Sum;
    var net' := Freed(net, r);
    FreedNodes(net, r);
    forall d, k | 0 <= k < |TunnelsOf(net', d)| && TunnelsOf(net', d)[k].up
      ensures Sum(Held(net', d, k)) <= Unread(TunnelsOf(net', d)[k].n)
    {
      FreedTables(net, r, d, k);
      LessHeld(net, net', r, d, k);
    }
  }

  lemma LessHeld(net: Net, net': Net, r: nat, d: Side, k: nat)
    requires r in net.routes && net'.routes == net.routes - {r}
    ensures Sum(Held(net', d, k))
            == Sum(Held(net, d, k)) - if k == At(net.routes[r], d) then |Pend(net.routes[r], d)| else 0
  {
    if k == At(net.routes[r], d) {
      assert Held(net', d, k) == Held(net, d, k) - {r};
      SumSplit(Held(net, d, k), r);
    } else {
      assert Held(net', d, k) == Held(net, d, k);
    }
  }

  lemma FreedNodes(net: Net, r: nat)
    requires r in net.routes && Entered(net, r, Up) && Entered(net, r, Down)
    ensures Freed(net, r).routes == net.routes - {r}
    ensures forall d :: |TunnelsOf(Freed(net, r), d)| == |TunnelsOf(net, d)|
  {
  }

  lemma JoinedMemory(net: Net, r: nat, R: Route)
    requires Memory(net) && r !in net.routes && R == Route(R.edge, R.worker, R.upSid, R.downSid, [], [], false, false)
    requires R.edge < |net.edges| && R.worker < |net.workers|
    ensures Memory(Joined(net, r, R.edge, R.upSid, R.worker, R.downSid))
  {
    hide Unread, Held, Sum;
    var net' := Joined(net, r, R.edge, R.upSid, R.worker, R.downSid);
    forall d, k | 0 <= k < |TunnelsOf(net', d)| && TunnelsOf(net', d)[k].up
      ensures Sum(Held(net', d, k)) <= Unread(TunnelsOf(net', d)[k].n)
    {
      JoinedTables(net, r, R, d, k);
      SameHeld(net, net', r, R, d, k);
    }
  }

  lemma SameHeld(net: Net, net': Net, r: nat, R: Route, d: Side, k: nat)
    requires r !in net.routes && net'.routes == net.routes[r := R] && Pend(R, d) == []
    ensures Sum(Held(net', d, k)) == Sum(Held(net, d, k))
  {
    if k == At(R, d) {
      assert Held(net', d, k) == Held(net, d, k)[r := 0];
      SumUpdate(Held(net, d, k), r, 0);
    } else {
      assert Held(net', d, k) == Held(net, d, k);
    }
  }
}
