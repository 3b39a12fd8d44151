/** Connection credit that the router loses for good. Bytes it takes and holds for a route are credited when they
    are passed on; bytes taken for an id without a route, and bytes pending on a route that is freed, never are.
    Every operation is accounted for exactly. */
module RouterLost {
  import opened Wire
  import opened Codec
  import opened Session
  import opened Trace
  import opened Node
  import opened NodeRuns
  import opened HostWake
  import opened Splice
  import opened Hosting
  import opened Pair
  import opened RouterNet
  import opened RouterMemory
  import opened RouterLaws
  import opened RouterEnds

  /** Bytes taken from the session of a tunnel, not credited, and held for no route. */
  ghost function Lost(net: Net, d: Side, k: nat): int
    requires k < |TunnelsOf(net, d)|
  {
    Unread(TunnelsOf(net, d)[k].n) - Sum(Held(net, d, k))
  }

  /** From `net` to `net'` the loss of a tunnel grows by `m`, if its session lives. */
  ghost predicate Shifts(net: Net, net': Net, d: Side, k: nat, m: int) {
    && k < |TunnelsOf(net, d)| && k < |TunnelsOf(net', d)|
    && (TunnelsOf(net, d)[k].n.s.dead ==> TunnelsOf(net', d)[k].n.s.dead)
    && (!TunnelsOf(net', d)[k].n.s.dead ==> Lost(net', d, k) == Lost(net, d, k) + m)
  }

  lemma ShiftsTrans(a: Net, b: Net, c: Net, d: Side, k: nat, m: int, l: int)
    requires Shifts(a, b, d, k, m) && Shifts(b, c, d, k, l)
    ensures Shifts(a, c, d, k, m + l)
  {
    hide Lost;
  }

  lemma ShiftsRefl(net: Net, d: Side, k: nat)
    requires k < |TunnelsOf(net, d)|
    ensures Shifts(net, net, d, k, 0)
  {
  }

  /** What an amount at tunnel `i` means for tunnel `k`. */
  function Here(side: Side, i: nat, d: Side, k: nat, m: int): int { if d == side && k == i then m else 0 }

  // ---------------------------------------------------------------- single steps

  lemma UnreadExactly(n: Node, st: Step)
    requires GoodConfig(n.s.cfg)
    ensures !Next(n, st).s.dead ==> Unread(Next(n, st)) == Unread(n) - Credits(st) + Hands(n, st)
  {
    hide TotalIn, Next;
    StepHistory(n, st, SID_CONTROL);
    StepAlive(n, st);
    if !Next(n, st).s.dead {
      TotalExactly(n, st);
    }
    if st == HostCall(CallPop) && n.s.events != [] {
      HearAppend(n.popped, n.s.events[0], SID_CONTROL);
    }
  }

  lemma TotalExactly(n: Node, st: Step)
    requires GoodConfig(n.s.cfg) && !n.s.dead
    ensures Next(n, st).consumedTotal == n.consumedTotal + Credits(st)
  {
    hide Process, OpenStream, WriteStream, CloseStream, ResetStream, Consume, SendCapacity, SendGoAway, OnTimer,
      Advance, PopEvent;
  }

  lemma StepShift(net: Net, side: Side, i: nat, st: Step, d: Side, k: nat)
    requires i < |TunnelsOf(net, side)| && k < |TunnelsOf(net, d)| && GoodConfig(TunnelsOf(net, side)[i].n.s.cfg)
    ensures var n := TunnelsOf(net, side)[i].n;
            Shifts(net, SetNode(net, side, i, Next(n, st)), d, k, Here(side, i, d, k, Hands(n, st) - Credits(st)))
  {
    hide Next, Unread, Hands, Credits;
    var n := TunnelsOf(net, side)[i].n;
    UnreadExactly(n, st);
    StepAlive(n, st);
    assert Held(SetNode(net, side, i, Next(n, st)), d, k) == Held(net, d, k);
  }

  /** A call that takes and credits nothing. */
  lemma CallShift(net: Net, side: Side, i: nat, c: Call, d: Side, k: nat)
    requires i < |TunnelsOf(net, side)| && k < |TunnelsOf(net, d)| && GoodConfig(TunnelsOf(net, side)[i].n.s.cfg)
    ensures var n := TunnelsOf(net, side)[i].n;
            Shifts(net, Called(net, side, i, c), d, k,
                   Here(side, i, d, k, Hands(n, HostCall(c)) - Credits(HostCall(c))))
  {
    hide Do, Shifts, Hands, Credits;
    StepShift(net, side, i, HostCall(c), d, k);
  }

  lemma BufferShift(net: Net, r: nat, side: Side, p: seq<Byte>, d: Side, k: nat)
    requires r in net.routes && k < |TunnelsOf(net, d)|
    ensures var R := net.routes[r];
            Shifts(net, WithBuffer(net, r, side, p), d, k, Here(side, At(R, side), d, k, |Pend(R, side)| - |p|))
  {
    hide Unread, Held, Sum;
    RecordHeld(net, r, side, p, d, k);
  }

  lemma FinShift(net: Net, r: nat, side: Side, d: Side, k: nat)
    requires r in net.routes && k < |TunnelsOf(net, d)|
    ensures Shifts(net, net.(routes := net.routes[r := WithFin(net.routes[r], side)]), d, k, 0)
  {
    hide Unread;
    var net' := net.(routes := net.routes[r := WithFin(net.routes[r], side)]);
    SameEnds(net.routes[r], side, [], d);
    assert Held(net', d, k) == Held(net, d, k);
  }

  /** A freed route takes its pending bytes with it, at both ends. */
  lemma FreeLoses(net: Net, r: nat, d: Side, k: nat)
    requires r in net.routes && Entered(net, r, Up) && Entered(net, r, Down) && k < |TunnelsOf(net, d)|
    ensures var R := net.routes[r];
            Shifts(net, Freed(net, r), d, k, Here(d, At(R, d), d, k, |Pend(R, d)|))
  {
    hide Unread, Freed, Held, Sum;
    FreedNodes(net, r);
    FreedTables(net, r, d, k);
    LessHeld(net, Freed(net, r), r, d, k);
  }

  // ---------------------------------------------------------------- passing bytes on

  /** The sessions at the two ends of a route are configured. */
  predicate Fit(net: Net, r: nat) {
    Placed(net, r) && GoodConfig(End(net, r, Up).s.cfg) && GoodConfig(End(net, r, Down).s.cfg)
  }

  lemma CalledFit(net: Net, r: nat, side: Side, c: Call)
    requires Fit(net, r)
    ensures Fit(Called(net, side, At(net.routes[r], side), c), r)
  {
    hide Do;
    CallSession(End(net, r, side), c);
    CalledKeeps(net, side, At(net.routes[r], side), c);
  }

  /** What is accepted at the other end is credited at this one. */
  lemma PushShift(net: Net, r: nat, side: Side, p: seq<Byte>, d: Side, k: nat)
    requires Fit(net, r) && k < |TunnelsOf(net, d)|
    ensures var (net', w) := Pushes(net, r, side, p);
            && w <= |p| && Fit(net', r) && k < |TunnelsOf(net', d)|
            && Shifts(net, net', d, k, Here(side, At(net.routes[r], side), d, k, if w > 0 then -w else 0))
  {
    hide Do, WriteStream, Shifts, Called;
    var R, o := net.routes[r], Other(side);
    var c := CallWrite(Id(R, o), p);
    var w := WriteStream(End(net, r, o).s, Id(R, o), p).1;
    WriteWaits(End(net, r, o).s, Id(R, o), p);
    CallShift(net, o, At(R, o), c, d, k);
    CalledFit(net, r, o, c);
    CalledKeeps(net, o, At(R, o), c);
    if w > 0 {
      var net1 := Called(net, o, At(R, o), c);
      var c1 := CallConsume(Id(R, side), w);
      CallShift(net1, side, At(R, side), c1, d, k);
      CalledFit(net1, r, side, c1);
      CalledKeeps(net1, side, At(R, side), c1);
      ShiftsTrans(net, net1, Called(net1, side, At(R, side), c1), d, k, 0,
                  Here(side, At(R, side), d, k, -w));
    }
  }

  lemma BufferFit(net: Net, r: nat, side: Side, p: seq<Byte>)
    requires Fit(net, r)
    ensures Fit(WithBuffer(net, r, side, p), r) && Pend(WithBuffer(net, r, side, p).routes[r], side) == p
    ensures At(WithBuffer(net, r, side, p).routes[r], side) == At(net.routes[r], side)
    ensures forall d :: TunnelsOf(WithBuffer(net, r, side, p), d) == TunnelsOf(net, d)
  {
    BufferEnds(net, r, side, p);
  }

  /** fwd of bytes just taken: they are credited or held, and so no longer lost. */
  lemma ForwardShift(net: Net, r: nat, side: Side, data: seq<Byte>, d: Side, k: nat)
    requires Fit(net, r) && k < |TunnelsOf(net, d)|
    ensures Shifts(net, Forwarded(net, r, side, data), d, k, Here(side, At(net.routes[r], side), d, k, -|data|))
  {
    hide Pushes, Shifts;
    var R := net.routes[r];
    var p := Pend(R, side);
    if p != [] {
      BufferShift(net, r, side, p + data, d, k);
    } else {
      var (net1, w) := Pushes(net, r, side, data);
      PushShift(net, r, side, data, d, k);
      var rest := data[if 0 < w <= |data| then w else 0..];
      BufferShift(net1, r, side, rest, d, k);
      ShiftsTrans(net, net1, WithBuffer(net1, r, side, rest), d, k,
                  Here(side, At(R, side), d, k, if w > 0 then -w else 0), Here(side, At(R, side), d, k, -|rest|));
    }
  }

  /** flush_pend loses nothing. */
  lemma {:induction false} FlushShift(net: Net, r: nat, side: Side, d: Side, k: nat)
    requires Fit(net, r) && k < |TunnelsOf(net, d)|
    ensures Shifts(net, Flushed(net, r, side), d, k, 0) && Fit(Flushed(net, r, side), r)
    decreases |Pend(net.routes[r], side)|
  {
    hide Pushes, WithBuffer, Shifts;
    ShiftsRefl(net, d, k);
    var R := net.routes[r];
    var p := Pend(R, side);
    if p != [] {
      var (net1, w) := Pushes(net, r, side, p);
      PushShift(net, r, side, p, d, k);
      if 0 < w <= |p| {
        var net2 := WithBuffer(net1, r, side, p[w..]);
        BufferShift(net1, r, side, p[w..], d, k);
        BufferFit(net1, r, side, p[w..]);
        ShiftsLength(net, net1, d, k, Here(side, At(R, side), d, k, -w));
        ShiftsTrans(net, net1, net2, d, k, Here(side, At(R, side), d, k, -w), Here(side, At(R, side), d, k, w));
        FlushShift(net2, r, side, d, k);
        ShiftsTrans(net, net2, Flushed(net2, r, side), d, k, 0, 0);
      }
    }
  }

  /** Nor does the end of a direction: what is cut off by the FIN is still held. */
  lemma EndedShift(net: Net, r: nat, side: Side, d: Side, k: nat)
    requires Fit(net, r) && k < |TunnelsOf(net, d)|
    ensures Shifts(net, DirectionEnded(net, r, side), d, k, 0)
  {
    hide Flushed, Shifts, Called;
    FlushShift(net, r, side, d, k);
    var net1, o := Flushed(net, r, side), Other(side);
    var i, c := At(net1.routes[r], o), CallClose(Id(net1.routes[r], o));
    ShiftsLength(net, net1, d, k, 0);
    CallShift(net1, o, i, c, d, k);
    CalledKeeps(net1, o, i, c);
    var net2 := Called(net1, o, i, c);
    ShiftsTrans(net, net1, net2, d, k, 0, 0);
    ShiftsLength(net1, net2, d, k, 0);
    FinShift(net2, r, side, d, k);
    ShiftsTrans(net, net2, DirectionEnded(net, r, side), d, k, 0, 0);
  }

  lemma ShiftsLength(net: Net, net': Net, d: Side, k: nat, m: int)
    requires Shifts(net, net', d, k, m)
    ensures k < |TunnelsOf(net', d)|
  {
  }

  // ---------------------------------------------------------------- what is lost

  /** STREAM_DATA: for an id with a route nothing is lost, for any other the bytes are. */
  lemma DataLoses(net: Net, side: Side, i: nat, sid: Sid, data: seq<Byte>, d: Side, k: nat)
    requires Sound(net) && i < |TunnelsOf(net, side)| && TunnelsOf(net, side)[i].up && k < |TunnelsOf(net, d)|
    requires TunnelsOf(net, side)[i].n.s.events != []
    requires TunnelsOf(net, side)[i].n.s.events[0] == StreamData(sid, data)
    ensures var t, net1 := TunnelsOf(net, side)[i].table, Called(net, side, i, CallPop);
            if sid in t then Placed(net1, t[sid]) && Shifts(net, Forwarded(net1, t[sid], side, data), d, k, 0)
            else Shifts(net, net1, d, k, Here(side, i, d, k, |data|))
  {
    hide Sound, Shifts, Forwarded, Do;
    UpConfig(net, side, i);
    CallShift(net, side, i, CallPop, d, k);
    CalledKeeps(net, side, i, CallPop);
    var t, net1 := TunnelsOf(net, side)[i].table, Called(net, side, i, CallPop);
    if sid in t {
      var r := t[sid];
      RouteFit(net, side, i, sid);
      CalledFit(net, r, side, CallPop);
      ForwardShift(net1, r, side, data, d, k);
      ShiftsTrans(net, net1, Forwarded(net1, r, side, data), d, k, Here(side, i, d, k, |data|),
                  Here(side, i, d, k, -|data|));
    }
  }

  lemma UpConfig(net: Net, side: Side, i: nat)
    requires Sound(net) && i < |TunnelsOf(net, side)| && TunnelsOf(net, side)[i].up
    ensures GoodConfig(TunnelsOf(net, side)[i].n.s.cfg) && Inv(TunnelsOf(net, side)[i].n)
  {
    hide Paired, Memory, RouteFlow, Inv, OpensOk, Mine, Untouched;
    assert TunnelOk(TunnelsOf(net, side)[i], side);
    InvConfig(TunnelsOf(net, side)[i].n);
  }

  lemma RouteFit(net: Net, side: Side, i: nat, sid: Sid)
    requires Sound(net) && i < |TunnelsOf(net, side)| && sid in TunnelsOf(net, side)[i].table
    ensures var r := TunnelsOf(net, side)[i].table[sid];
            Fit(net, r) && At(net.routes[r], side) == i && Id(net.routes[r], side) == sid
  {
    hide Tunnels, Memory, RouteFlow;
    var r := TunnelsOf(net, side)[i].table[sid];
    assert Names(net, side, i, sid);
    assert Entered(net, r, Up) && Entered(net, r, Down);
    UpConfig(net, Up, net.routes[r].edge);
    UpConfig(net, Down, net.routes[r].worker);
  }

  // ---------------------------------------------------------------- what it means

  /** Bytes reported to the host and not taken yet. */
  function Queued(n: Node): int { TotalIn(Log(n)) - TotalIn(n.popped) }

  /** Where the connection window of a tunnel is: with the peer, waiting to be credited, queued, held for a route,
      or lost. */
  lemma WindowAccount(net: Net, d: Side, k: nat)
    requires Sound(net) && k < |TunnelsOf(net, d)| && TunnelsOf(net, d)[k].up
    ensures var n := TunnelsOf(net, d)[k].n;
            n.s.recvWin + n.s.recvPending + Queued(n) + Sum(Held(net, d, k)) + Lost(net, d, k) == n.s.cfg.sessionWindow
    ensures Lost(net, d, k) >= 0
  {
    hide Held, Sum;
    UpConfig(net, d, k);
    SessionBalance(TunnelsOf(net, d)[k].n);
    LostNatural(net, d, k);
  }

  lemma SessionBalance(n: Node)
    requires Inv(n)
    ensures n.s.recvWin + n.s.recvPending + TotalIn(Log(n)) - n.consumedTotal == n.s.cfg.sessionWindow
  {
    hide IdsOk, HelloOk, SidOk, WireOk, EncodeAll, TotalIn, TotalData, Tr;
  }

  lemma LostNatural(net: Net, d: Side, k: nat)
    requires Sound(net) && k < |TunnelsOf(net, d)| && TunnelsOf(net, d)[k].up
    ensures Lost(net, d, k) >= 0
  {
    hide NetOk, Held, Sum, Unread;
  }

  /** When nothing is queued and nothing held, the peer can have the window back if and only if less than the window
      was lost. */
  lemma RecoverableExactly(net: Net, d: Side, k: nat)
    requires Sound(net) && k < |TunnelsOf(net, d)| && TunnelsOf(net, d)[k].up
    requires Queued(TunnelsOf(net, d)[k].n) == 0 && Sum(Held(net, d, k)) == 0
    ensures var s := TunnelsOf(net, d)[k].n.s;
            s.recvWin + s.recvPending > 0 <==> Lost(net, d, k) < s.cfg.sessionWindow
  {
    hide Sound, Lost, Held, Sum, Queued;
    WindowAccount(net, d, k);
  }
}
