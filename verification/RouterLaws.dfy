/** The laws of the router's network, operation by operation. */
module RouterLaws {
  import opened Wire
  import opened Codec
  import opened Session
  import opened Trace
  import opened Node
  import opened NodeSend
  import opened NodeRuns
  import opened HostWake
  import opened Splice
  import opened Hosting
  import opened RouterNet
  import opened RouterMemory

  ghost predicate Sound(net: Net) { NetOk(net) && Memory(net) }

  /** Sound but for direction `d` of route `r`, the operation having `hand` bytes in its hands. */
  ghost predicate Busy(net: Net, r: nat, d: Side, hand: int) {
    r in net.routes && OkBut(net, r, d) && MemoryBut(net, d, At(net.routes[r], d), hand)
  }

  lemma BusyEnds(net: Net, r: nat, d: Side, hand: int, e: Side)
    requires Busy(net, r, d, hand)
    ensures Entered(net, r, e) && Entered(net, r, Other(e))
  {
    hide Paired, Tunnels, RouteFlow, MemoryBut;
    PairedAt(net, r, e);
  }

  lemma SoundBusy(net: Net, r: nat, d: Side)
    requires Sound(net) && r in net.routes
    ensures Busy(net, r, d, 0)
  {
    hide Paired, Tunnels, RouteFlow, MemoryBut;
    OkButAny(net, r, d);
    MemoryNone(net, d, At(net.routes[r], d));
  }

  lemma BusySound(net: Net, r: nat, d: Side)
    requires Busy(net, r, d, 0) && Entered(net, r, d) && Entered(net, r, Other(d)) && RouteFlow(net, r, d)
    ensures Sound(net)
  {
    hide NetOk, OkBut, RouteFlow, MemoryBut;
    Settle(net, r, d);
    MemoryNone(net, d, At(net.routes[r], d));
  }

  /** A call on a session of the network. */
  lemma BusyCall(net: Net, side: Side, i: nat, c: Call, r: nat, d: Side, hand: int)
    requires Busy(net, r, d, hand) && i < |TunnelsOf(net, side)| && TunnelsOf(net, side)[i].up
    requires !c.CallOpen? && !c.CallPop?
    requires c.CallWrite? ==> side == Other(d) && i == At(net.routes[r], side) && c.sid == Id(net.routes[r], side)
    requires c.CallConsume? ==> side == d && i == At(net.routes[r], d) && c.sid == Id(net.routes[r], d)
    ensures Busy(SetNode(net, side, i, Do(TunnelsOf(net, side)[i].n, c)), r, d, if c.CallConsume? then hand - c.n
            else hand)
  {
    hide OkBut, MemoryBut, Do;
    var t := TunnelsOf(net, side)[i];
    var st := HostCall(c);
    OneEntry(net, r, d, side, i, c);
    ConfinedStep(net, side, i, st, r, d);
    StepMemory(net, side, i, st, d, At(net.routes[r], d), hand);
  }

  /** The call touches the stream of the busy direction only. */
  lemma OneEntry(net: Net, r: nat, d: Side, side: Side, i: nat, c: Call)
    requires OkBut(net, r, d) && r in net.routes && i < |TunnelsOf(net, side)| && !c.CallOpen? && !c.CallPop?
    requires c.CallWrite? ==> side == Other(d) && i == At(net.routes[r], side) && c.sid == Id(net.routes[r], side)
    requires c.CallConsume? ==> side == d && i == At(net.routes[r], d) && c.sid == Id(net.routes[r], d)
    ensures Confined(TunnelsOf(net, side)[i], side, HostCall(c), r, d)
    ensures Orderly(TunnelsOf(net, side)[i].n, HostCall(c), TunnelsOf(net, side)[i].table.Keys)
    ensures Enabled(TunnelsOf(net, side)[i].n, HostCall(c))
  {
    hide Tunnels, RouteFlow, Confined, Orderly, Enabled;
    assert Entered(net, r, side);
    OneStream(TunnelsOf(net, side)[i], r, d, side, c);
  }

  lemma OneStream(t: Tunnel, r: nat, d: Side, side: Side, c: Call)
    requires !c.CallOpen? && !c.CallPop?
    requires c.CallWrite? ==> side == Other(d) && c.sid in t.table && t.table[c.sid] == r
    requires c.CallConsume? ==> side == d && c.sid in t.table && t.table[c.sid] == r
    ensures Confined(t, side, HostCall(c), r, d) && Orderly(t.n, HostCall(c), t.table.Keys) && Enabled(t.n, HostCall(c))
  {
  }

  // ---------------------------------------------------------------- shape

  /** Nothing but the session states and the buffers of routes changed. */
  predicate SameTunnel(t: Tunnel, t': Tunnel) {
    t'.up == t.up && t'.table == t.table && t'.inflight == t.inflight && t'.n.popped == t.n.popped
  }

  ghost predicate SameShape(net: Net, net': Net) {
    && |net'.edges| == |net.edges| && |net'.workers| == |net.workers| && net'.routes.Keys == net.routes.Keys
    && (forall i :: 0 <= i < |net.edges| ==> SameTunnel(net.edges[i], net'.edges[i]))
    && (forall i :: 0 <= i < |net.workers| ==> SameTunnel(net.workers[i], net'.workers[i]))
    && (forall r :: r in net.routes ==>
          net'.routes[r] == net.routes[r].(u2w := net'.routes[r].u2w, w2u := net'.routes[r].w2u))
  }

  lemma ShapeTrans(a: Net, b: Net, c: Net)
    requires SameShape(a, b) && SameShape(b, c)
    ensures SameShape(a, c)
  {
  }

  lemma ShapeCall(net: Net, side: Side, i: nat, c: Call)
    requires i < |TunnelsOf(net, side)| && !c.CallPop?
    ensures SameShape(net, SetNode(net, side, i, Do(TunnelsOf(net, side)[i].n, c)))
  {
    hide Do;
    CallHistory(TunnelsOf(net, side)[i].n, c, SID_CONTROL);
  }

  lemma ShapePend(net: Net, r: nat, side: Side, p: seq<Byte>)
    requires r in net.routes
    ensures SameShape(net, net.(routes := net.routes[r := WithPend(net.routes[r], side, p)]))
  {
  }

  // ---------------------------------------------------------------- one call

  /** One mux call on one tunnel's session, and nothing else. */
  function Called(net: Net, side: Side, i: nat, c: Call): Net
    requires i < |TunnelsOf(net, side)|
  {
    SetNode(net, side, i, Do(TunnelsOf(net, side)[i].n, c))
  }

  /** The two ends of route `r` after a reset at `from`: the other end is reset and the route freed. */
  ghost predicate Killed(net: Net, net': Net, r: nat, from: Side) {
    && r in net.routes && At(net.routes[r], Other(from)) < |TunnelsOf(net, Other(from))|
    && var R, o := net.routes[r], Other(from);
       var net1 := Called(net, o, At(R, o), CallReset(Id(R, o), CODE_INTERNAL));
       r in net1.routes && Entered(net1, r, Up) && Entered(net1, r, Down) && net' == Freed(net1, r)
  }

  /** The end of a route at `o` sends no more: it is finished, gone, or its session dead. */
  predicate EndFinished(net: Net, R: Route, o: Side) {
    && At(R, o) < |TunnelsOf(net, o)|
    && var s := TunnelsOf(net, o)[At(R, o)].n.s;
       s.dead || Id(R, o) !in s.streams || s.streams[Id(R, o)].life.HalfLocal?
  }

  lemma CloseFinishes(net: Net, R: Route, o: Side)
    requires At(R, o) < |TunnelsOf(net, o)|
    ensures EndFinished(Called(net, o, At(R, o), CallClose(Id(R, o))), R, o)
  {
    hide Do;
    ClosedEnd(TunnelsOf(net, o)[At(R, o)].n, Id(R, o));
  }

  lemma ClosedEnd(n: Node, sid: Sid)
    ensures var s := Do(n, CallClose(sid)).s; s.dead || sid !in s.streams || s.streams[sid].life.HalfLocal?
  {
    hide Encode, GrowTo;
  }

  lemma FreedFinished(net: Net, r: nat, R: Route, o: Side)
    requires r in net.routes && Entered(net, r, Up) && Entered(net, r, Down) && EndFinished(net, R, o)
    ensures EndFinished(Freed(net, r), R, o)
  {
    FreedTables(net, r, o, At(R, o));
  }

  /** Only the buffers of the route and the route records differ. */
  lemma FinFinished(net: Net, net': Net, Q: Route, R: Route, o: Side)
    requires EndFinished(net, Q, o) && At(R, o) == At(Q, o) && Id(R, o) == Id(Q, o)
    requires net'.edges == net.edges && net'.workers == net.workers
    ensures EndFinished(net', R, o)
  {
  }

  lemma ShapeEnds(net: Net, net': Net, r: nat, o: Side)
    requires SameShape(net, net') && r in net.routes
    ensures At(net'.routes[r], o) == At(net.routes[r], o) && Id(net'.routes[r], o) == Id(net.routes[r], o)
  {
  }

  /** What connecting edge stream `sid` to worker `w` comes to: a stream opened towards the worker and
      spliced under the name `r`, or the edge stream refused. */
  ghost predicate Connected(net: Net, net': Net, r: nat, i: nat, sid: Sid, w: nat, meta: seq<Byte>) {
    && i < |net.edges| && w < |net.workers|
    && var ds := OpenStream(net.workers[w].n.s, meta).1;
       var net1 := Called(net, Down, w, CallOpen(meta));
       if 0 <= ds < U32_LIMIT then net' == Joined(net1, r, i, sid, w, ds)
       else net' == Called(net1, Up, i, CallReset(sid, CODE_REFUSED))
  }

  /** The end of a route at `o` is gone, or its session dead. */
  predicate EndGone(net: Net, R: Route, o: Side) {
    && At(R, o) < |TunnelsOf(net, o)|
    && var s := TunnelsOf(net, o)[At(R, o)].n.s;
       s.dead || Id(R, o) !in s.streams
  }

  /** A reset removes its stream for good, and brings none back. */
  lemma ResetGone(net: Net, R: Route, o: Side, code: U32)
    requires At(R, o) < |TunnelsOf(net, o)|
    ensures EndGone(Called(net, o, At(R, o), CallReset(Id(R, o), code)), R, o)
    ensures forall Q: Route :: EndGone(net, Q, o) ==> EndGone(Called(net, o, At(R, o), CallReset(Id(R, o), code)), Q, o)
  {
    hide Encode, GrowTo;
    var net' := Called(net, o, At(R, o), CallReset(Id(R, o), code));
    forall Q: Route | EndGone(net, Q, o) ensures EndGone(net', Q, o) {
      if At(Q, o) != At(R, o) {
        assert TunnelsOf(net', o)[At(Q, o)] == TunnelsOf(net, o)[At(Q, o)];
      }
    }
  }

  lemma OtherSide(net: Net, net': Net, side: Side)
    requires TunnelsOf(net', Other(side)) == TunnelsOf(net, Other(side))
    ensures forall Q: Route :: EndGone(net, Q, Other(side)) ==> EndGone(net', Q, Other(side))
  {
  }

  lemma FreedGone(net: Net, r: nat, o: Side)
    requires r in net.routes && Entered(net, r, Up) && Entered(net, r, Down)
    ensures forall Q: Route :: EndGone(net, Q, o) ==> EndGone(Freed(net, r), Q, o)
  {
    hide Freed;
    forall Q: Route | EndGone(net, Q, o) ensures EndGone(Freed(net, r), Q, o) {
      FreedTables(net, r, o, At(Q, o));
    }
  }

  /** A tunnel's table lists all its routes. */
  lemma TableCovers(net: Net, side: Side, i: nat)
    requires Sound(net) && i < |TunnelsOf(net, side)|
    ensures forall r :: r in net.routes && At(net.routes[r], side) == i ==>
              Id(net.routes[r], side) in TunnelsOf(net, side)[i].table
                  && TunnelsOf(net, side)[i].table[Id(net.routes[r], side)] == r
  {
    hide Sound;
    forall r | r in net.routes && At(net.routes[r], side) == i
      ensures Id(net.routes[r], side) in TunnelsOf(net, side)[i].table
      ensures TunnelsOf(net, side)[i].table[Id(net.routes[r], side)] == r
    {
      SoundEnds(net, r, side);
    }
  }

  // ---------------------------------------------------------------- shape of the data calls

  lemma DoIsWrite(n: Node, b: Sid, p: seq<Byte>)
    ensures Do(n, CallWrite(b, p)) == DoWrite(n, b, p)
  {
    hide DoWrite, DoOpen, DoClose, DoReset, DoConsume, DoCapacity, DoGoAway, DoTimer, DoAdvance, DoPop;
  }

  lemma DoIsConsume(n: Node, a: Sid, k: nat)
    ensures Do(n, CallConsume(a, k)) == DoConsume(n, a, k)
  {
    hide DoWrite, DoOpen, DoClose, DoReset, DoConsume, DoCapacity, DoGoAway, DoTimer, DoAdvance, DoPop;
  }

  lemma ShapeRefl(net: Net)
    ensures SameShape(net, net)
  {
  }

  /** A new buffer that conserves, and waits if it is not empty, makes the network sound. */
  lemma Restored(net: Net, r: nat, side: Side, p: seq<Byte>, hand: int)
    requires Busy(net, r, side, hand) && hand + |Pend(net.routes[r], side)| == |p|
    requires Entered(net, r, side) && Entered(net, r, Other(side))
    requires Conserves(Src(net, r, side), Id(net.routes[r], side), Src(net, r, Other(side)),
             Id(net.routes[r], Other(side)), p)
    requires p != [] ==> Waiting(Src(net, r, Other(side)).s, Id(net.routes[r], Other(side)))
    ensures Sound(net.(routes := net.routes[r := WithPend(net.routes[r], side, p)]))
  {
    hide OkBut, MemoryBut, Conserves, Waiting, Sound;
    Shrunk(net, r, side, p, hand);
    BusySound(net.(routes := net.routes[r := WithPend(net.routes[r], side, p)]), r, side);
  }

  lemma Shrunk(net: Net, r: nat, side: Side, p: seq<Byte>, hand: int)
    requires Busy(net, r, side, hand) && hand + |Pend(net.routes[r], side)| == |p|
    requires Entered(net, r, side) && Entered(net, r, Other(side))
    ensures var net' := net.(routes := net.routes[r := WithPend(net.routes[r], side, p)]);
            && Busy(net', r, side, 0) && Entered(net', r, side) && Entered(net', r, Other(side))
            && Src(net', r, side) == Src(net, r, side) && Src(net', r, Other(side)) == Src(net, r, Other(side))
            && Pend(net'.routes[r], side) == p
            && Id(net'.routes[r], side) == Id(net.routes[r], side)
            && Id(net'.routes[r], Other(side)) == Id(net.routes[r], Other(side))
  {
    hide OkBut, MemoryBut;
    var net' := net.(routes := net.routes[r := WithPend(net.routes[r], side, p)]);
    RecordBut(net, r, side, p);
    RecordMemory(net, r, side, p, hand);
    SameEnds(net.routes[r], side, p, side);
    SameEnds(net.routes[r], side, p, Other(side));
  }

  /** A sound network can be worked on. */
  lemma Working(net: Net, r: nat, side: Side)
    requires Sound(net) && r in net.routes
    ensures Busy(net, r, side, 0) && Entered(net, r, side) && Entered(net, r, Other(side))
    ensures Conserves(Src(net, r, side), Id(net.routes[r], side), Src(net, r, Other(side)),
            Id(net.routes[r], Other(side)),
                      Pend(net.routes[r], side))
    ensures Pend(net.routes[r], side) != [] ==> Waiting(Src(net, r, Other(side)).s, Id(net.routes[r], Other(side)))
  {
    hide Busy, Paired, Tunnels, Memory, Conserves, Waiting;
    SoundBusy(net, r, side);
    BusyEnds(net, r, side, 0, side);
    assert RouteFlow(net, r, side);
  }

  lemma SettledRoute(net: Net, r: nat, side: Side)
    requires Busy(net, r, side, 0) && Entered(net, r, side) && Entered(net, r, Other(side))
    requires Conserves(Src(net, r, side), Id(net.routes[r], side), Src(net, r, Other(side)),
             Id(net.routes[r], Other(side)),
                       Pend(net.routes[r], side))
    requires Pend(net.routes[r], side) != [] ==> Waiting(Src(net, r, Other(side)).s, Id(net.routes[r], Other(side)))
    ensures Sound(net)
  {
    hide Busy, Conserves, Waiting, Sound;
    BusySound(net, r, side);
  }

  lemma FreedSound(net: Net, r: nat)
    requires Sound(net) && r in net.routes
    ensures Entered(net, r, Up) && Entered(net, r, Down) && Sound(Freed(net, r))
  {
    hide NetOk, Memory, Freed;
    NetEnds(net, r);
    OkButAny(net, r, Up);
    FreedOk(net, r, Up);
    FreedMemory(net, r);
  }

  lemma SoundEnds(net: Net, r: nat, d: Side)
    requires Sound(net) && r in net.routes
    ensures Entered(net, r, d) && Entered(net, r, Other(d))
  {
    hide NetOk, Memory;
    NetEnds(net, r);
  }

  lemma NetEnds(net: Net, r: nat)
    requires NetOk(net) && r in net.routes
    ensures Entered(net, r, Up) && Entered(net, r, Down)
  {
    hide Paired, Tunnels, RouteFlow;
    PairedAt(net, r, Up);
  }

  /** Steps that move no stream bytes at this end: input from the peer, and the other calls. */
  predicate Aside(st: Step) {
    st.HostCall? ==> !st.c.CallWrite? && !st.c.CallConsume? && !st.c.CallPop?
  }

  lemma SoundStep(net: Net, side: Side, i: nat, st: Step)
    requires Sound(net) && i < |TunnelsOf(net, side)| && TunnelsOf(net, side)[i].up && Aside(st)
    requires Enabled(TunnelsOf(net, side)[i].n, st)
    ensures GoodConfig(TunnelsOf(net, side)[i].n.s.cfg)
            && Sound(SetNode(net, side, i, Next(TunnelsOf(net, side)[i].n, st)))
  {
    hide NetOk, OkBut, MemoryBut, Next;
    var r0 := Unused(net);
    OkButAny(net, r0, Up);
    ConfinedStep(net, side, i, st, r0, Up);
    OkButNone(SetNode(net, side, i, Next(TunnelsOf(net, side)[i].n, st)), r0, Up);
    MemoryNone(net, Up, 0);
    StepMemory(net, side, i, st, Up, 0, 0);
    MemoryNone(SetNode(net, side, i, Next(TunnelsOf(net, side)[i].n, st)), Up, 0);
  }

  lemma Unused(net: Net) returns (r: nat)
    ensures r !in net.routes
  {
    r := FreshEntry(net.routes.Keys);
  }

  lemma {:induction false} FreshEntry(keys: set<nat>) returns (r: nat)
    ensures r !in keys && forall k :: k in keys ==> k < r
    decreases |keys|
  {
    if keys == {} {
      r := 0;
    } else {
      var k :| k in keys;
      var r0 := FreshEntry(keys - {k});
      r := if r0 <= k then k + 1 else r0;
      forall x | x in keys ensures x < r {
        assert x == k || x in keys - {k};
      }
    }
  }

  lemma SoundCall(net: Net, side: Side, i: nat, c: Call)
    requires Sound(net) && i < |TunnelsOf(net, side)| && TunnelsOf(net, side)[i].up
    requires Aside(HostCall(c)) && (c.CallOpen? ==> IdsLeft(TunnelsOf(net, side)[i].n))
    ensures Sound(SetNode(net, side, i, Do(TunnelsOf(net, side)[i].n, c)))
  {
    hide Sound, Do;
    SoundStep(net, side, i, HostCall(c));
  }

  // ---------------------------------------------------------------- taking an event

  /** The route of a table entry. */
  lemma EntryRoute(net: Net, side: Side, i: nat, sid: Sid)
    requires NetOk(net) && i < |TunnelsOf(net, side)| && sid in TunnelsOf(net, side)[i].table
    ensures var r := TunnelsOf(net, side)[i].table[sid];
            && r in net.routes && At(net.routes[r], side) == i && Id(net.routes[r], side) == sid
            && Entered(net, r, side) && Entered(net, r, Other(side))
    ensures var t := TunnelsOf(net, side)[i].table; forall x :: x in t && t[x] == t[sid] ==> x == sid
  {
    hide Tunnels, RouteFlow;
    assert Names(net, side, i, sid);
    PairedAt(net, TunnelsOf(net, side)[i].table[sid], side);
    forall x | x in TunnelsOf(net, side)[i].table
        && TunnelsOf(net, side)[i].table[x] == TunnelsOf(net, side)[i].table[sid] ensures x == sid {
      assert Names(net, side, i, x);
    }
  }

  lemma PopBusy(net: Net, side: Side, i: nat, r: nat, d: Side)
    requires Sound(net) && i < |TunnelsOf(net, side)| && TunnelsOf(net, side)[i].up && r in net.routes
    requires Confined(TunnelsOf(net, side)[i], side, HostCall(CallPop), r, d)
    ensures var n := TunnelsOf(net, side)[i].n;
            var hand := if side == d && i == At(net.routes[r], d) then Hands(n, HostCall(CallPop)) else 0;
            Busy(SetNode(net, side, i, Do(n, CallPop)), r, d, hand)
  {
    hide NetOk, OkBut, MemoryBut, Do;
    OkButAny(net, r, d);
    ConfinedStep(net, side, i, HostCall(CallPop), r, d);
    MemoryNone(net, d, At(net.routes[r], d));
    StepMemory(net, side, i, HostCall(CallPop), d, At(net.routes[r], d), 0);
  }

  lemma PopOther(net: Net, side: Side, i: nat)
    requires Sound(net) && i < |TunnelsOf(net, side)| && TunnelsOf(net, side)[i].up
             && TunnelsOf(net, side)[i].n.s.events != []
    requires var t := TunnelsOf(net, side)[i];
             var e := t.n.s.events[0];
             (e.StreamData? || e.Writable?) ==> e.sid !in t.table
    ensures Sound(SetNode(net, side, i, Do(TunnelsOf(net, side)[i].n, CallPop)))
  {
    hide NetOk, OkBut, MemoryBut, Do;
    var r0 := Unused(net);
    var net' := SetNode(net, side, i, Do(TunnelsOf(net, side)[i].n, CallPop));
    OkButAny(net, r0, Up);
    ConfinedStep(net, side, i, HostCall(CallPop), r0, Up);
    OkButNone(net', r0, Up);
    MemoryNone(net, side, i);
    StepMemory(net, side, i, HostCall(CallPop), side, i, 0);
    MemoryLess(net', side, i, Hands(TunnelsOf(net, side)[i].n, HostCall(CallPop)));
  }

  lemma MemoryLess(net: Net, side: Side, i: nat, hand: nat)
    requires MemoryBut(net, side, i, hand)
    ensures Memory(net)
  {
    hide Held, Sum, Unread;
  }

  /** Data taken for a route is in hand: delivered = accepted ++ pending ++ in hand. */
  lemma PopData(net: Net, side: Side, i: nat, r: nat)
    requires Sound(net) && i < |TunnelsOf(net, side)| && TunnelsOf(net, side)[i].up
    requires var t := TunnelsOf(net, side)[i];
             t.n.s.events != [] && t.n.s.events[0].StreamData? && t.n.s.events[0].sid in t.table
             && r == t.table[t.n.s.events[0].sid]
    ensures var net' := SetNode(net, side, i, Do(TunnelsOf(net, side)[i].n, CallPop));
            var data := TunnelsOf(net, side)[i].n.s.events[0].data;
            && r in net'.routes && net'.routes == net.routes && Busy(net', r, side, |data|)
            && Entered(net', r, side) && Entered(net', r, Other(side))
            && var R := net'.routes[r];
               && Conserves(Src(net', r, side), Id(R, side), Src(net', r, Other(side)), Id(R, Other(side)),
                   Pend(R, side) + data)
               && (Pend(R, side) != [] ==> Waiting(Src(net', r, Other(side)).s, Id(R, Other(side))))
  {
    hide Do, Busy, Conserves, Waiting, Sound;
    var t := TunnelsOf(net, side)[i];
    var e := t.n.s.events[0];
    var n' := Do(t.n, CallPop);
    var net' := SetNode(net, side, i, n');
    SoundEntry(net, side, i, e.sid);
    PopBusy(net, side, i, r, side);
    BusyEnds(net', r, side, |e.data|, side);
    Working(net, r, side);
    TakeData(t.n, e.sid, Src(net, r, Other(side)), Id(net.routes[r], Other(side)), Pend(net.routes[r], side));
  }

  lemma SoundEntry(net: Net, side: Side, i: nat, sid: Sid)
    requires Sound(net) && i < |TunnelsOf(net, side)| && sid in TunnelsOf(net, side)[i].table
    ensures var r := TunnelsOf(net, side)[i].table[sid];
            && r in net.routes && At(net.routes[r], side) == i && Id(net.routes[r], side) == sid
            && Entered(net, r, side) && Entered(net, r, Other(side))
    ensures var t := TunnelsOf(net, side)[i].table; forall x :: x in t && t[x] == t[sid] ==> x == sid
  {
    hide NetOk, Memory;
    EntryRoute(net, side, i, sid);
  }

  lemma TakeData(n: Node, a: Sid, dst: Node, b: Sid, pend: seq<Byte>)
    requires n.s.events != [] && n.s.events[0].StreamData? && n.s.events[0].sid == a
    requires Conserves(n, a, dst, b, pend)
    ensures Conserves(Do(n, CallPop), a, dst, b, pend + n.s.events[0].data)
  {
    hide Hear, DoWrite, DoOpen, DoClose, DoReset, DoConsume, DoCapacity, DoGoAway, DoTimer, DoAdvance;
    HearAppend(n.popped, n.s.events[0], a);
  }

  /** A WRITABLE taken for a route: the direction into this end is to be flushed now. */
  lemma PopWritable(net: Net, side: Side, i: nat, r: nat)
    requires Sound(net) && i < |TunnelsOf(net, side)| && TunnelsOf(net, side)[i].up
    requires var t := TunnelsOf(net, side)[i];
             t.n.s.events != [] && t.n.s.events[0].Writable? && t.n.s.events[0].sid in t.table
             && r == t.table[t.n.s.events[0].sid]
    ensures var net' := SetNode(net, side, i, Do(TunnelsOf(net, side)[i].n, CallPop));
            var d := Other(side);
            && r in net'.routes && net'.routes == net.routes && Busy(net', r, d, 0)
            && Entered(net', r, d) && Entered(net', r, Other(d))
            && var R := net'.routes[r];
               Conserves(Src(net', r, d), Id(R, d), Src(net', r, Other(d)), Id(R, Other(d)), Pend(R, d))
  {
    hide Do, Busy, Conserves, Waiting, Sound;
    var t := TunnelsOf(net, side)[i];
    var e := t.n.s.events[0];
    var d := Other(side);
    var net' := SetNode(net, side, i, Do(t.n, CallPop));
    SoundEntry(net, side, i, e.sid);
    PopBusy(net, side, i, r, d);
    BusyEnds(net', r, d, 0, d);
    Working(net, r, d);
    SameWrote(Src(net, r, d), Id(net.routes[r], d), t.n, e.sid, Pend(net.routes[r], d));
  }

  lemma SameWrote(src: Node, a: Sid, n: Node, b: Sid, pend: seq<Byte>)
    requires Conserves(src, a, n, b, pend)
    ensures Conserves(src, a, Do(n, CallPop), b, pend)
  {
    hide Hear, DoWrite, DoOpen, DoClose, DoReset, DoConsume, DoCapacity, DoGoAway, DoTimer, DoAdvance;
  }

  /** Event `e` of the session at one end was taken. */
  predicate Took(net: Net, net': Net, side: Side, i: nat, e: Event) {
    && i < |TunnelsOf(net, side)| && i < |TunnelsOf(net', side)|
    && TunnelsOf(net', side)[i].n.popped == TunnelsOf(net, side)[i].n.popped + [e]
  }

  /** The tunnels stay up and no event is taken; routes may come and go. */
  ghost predicate Steady(net: Net, net': Net) {
    && |net'.edges| == |net.edges| && |net'.workers| == |net.workers|
    && (forall i :: 0 <= i < |net.edges| ==>
          net'.edges[i].up == net.edges[i].up && net'.edges[i].n.popped == net.edges[i].n.popped)
    && (forall i :: 0 <= i < |net.workers| ==>
          net'.workers[i].up == net.workers[i].up && net'.workers[i].n.popped == net.workers[i].n.popped)
  }

  lemma SteadyTrans(a: Net, b: Net, c: Net)
    requires Steady(a, b) && Steady(b, c)
    ensures Steady(a, c)
  {
  }

  lemma TookIn(net: Net, net': Net, side: Side, i: nat, e: Event)
    requires Took(net, net', side, i, e)
    ensures i < |TunnelsOf(net', side)| && e in TunnelsOf(net', side)[i].n.popped
  {
  }

  lemma ShapeSteady(net: Net, net': Net)
    requires SameShape(net, net')
    ensures Steady(net, net') && net'.routes.Keys == net.routes.Keys
    ensures forall r, d :: r in net.routes ==> Fin(net'.routes[r], d) == Fin(net.routes[r], d)
  {
  }

  lemma JoinedSteady(net: Net, r: nat, e: nat, up: Sid, w: nat, down: Sid)
    requires e < |net.edges| && w < |net.workers|
    ensures Steady(net, Joined(net, r, e, up, w, down))
  {
  }

  lemma FinSteady(net: Net, r: nat, side: Side)
    requires r in net.routes
    ensures Steady(net, net.(routes := net.routes[r := WithFin(net.routes[r], side)]))
  {
  }

  lemma FinSound(net: Net, r: nat, side: Side)
    requires Sound(net) && r in net.routes
    ensures Sound(net.(routes := net.routes[r := WithFin(net.routes[r], side)]))
  {
    hide NetOk, Memory;
    SettleFin(net, r, side);
    FinMemory(net, r, side);
  }

  lemma FreedSteady(net: Net, r: nat)
    requires Sound(net) && r in net.routes
    ensures Entered(net, r, Up) && Entered(net, r, Down)
    ensures Steady(net, Freed(net, r)) && Freed(net, r).routes == net.routes - {r}
  {
    hide NetOk, Memory;
    NetEnds(net, r);
  }

  /** Taking an event leaves tunnels and tables as they are. */
  lemma TookOne(net: Net, side: Side, i: nat)
    requires i < |TunnelsOf(net, side)| && TunnelsOf(net, side)[i].n.s.events != []
    ensures var net' := SetNode(net, side, i, Do(TunnelsOf(net, side)[i].n, CallPop));
            && Took(net, net', side, i, TunnelsOf(net, side)[i].n.s.events[0])
            && TunnelsOf(net', side)[i].table == TunnelsOf(net, side)[i].table
            && net'.routes == net.routes && |net'.edges| == |net.edges| && |net'.workers| == |net.workers|
  {
    hide Do;
    CallHistory(TunnelsOf(net, side)[i].n, CallPop, SID_CONTROL);
  }

  lemma TookSteady(net: Net, net1: Net, net2: Net, side: Side, i: nat, e: Event)
    requires Took(net, net1, side, i, e) && Steady(net1, net2)
    ensures Took(net, net2, side, i, e)
  {
  }

  // ---------------------------------------------------------------- new routes

  lemma TableKnown(t: Tunnel, side: Side)
    requires t.up && TunnelOk(t, side)
    ensures forall sid :: sid in t.table ==> Used(t.n, sid) && (side.Up? ==> Opening(t.n.popped, sid))
  {
    hide NodeGood, Opening, Used;
  }

  lemma EdgeOpening(net: Net, i: nat)
    requires Sound(net) && i < |net.edges| && net.edges[i].up
    requires net.edges[i].n.s.events != [] && net.edges[i].n.s.events[0].StreamOpened?
    ensures var sid := net.edges[i].n.s.events[0].sid;
            var n' := Do(net.edges[i].n, CallPop);
            sid !in net.edges[i].table && Mine(n', true, sid) && NothingYet(n', sid)
  {
    hide Memory, Paired, RouteFlow, Inv, OpensOk, Untouched, Do, NothingYet, Opening, Used;
    assert TunnelOk(TunnelsOf(net, Up)[i], Up);
    TableKnown(TunnelsOf(net, Up)[i], Up);
    OpeningMine(net.edges[i].n);
    OpeningBlank(net.edges[i].n);
  }

  /** A stream just opened towards a worker. */
  lemma OpenedBlank(n: Node, meta: seq<Byte>)
    requires Inv(n) && IdsLeft(n) && OpenStream(n.s, meta).1 >= 0
    ensures var ds := OpenStream(n.s, meta).1;
            var n' := Do(n, CallOpen(meta));
            && ds < U32_LIMIT && !Used(n, ds) && Mine(n', false, ds) && NothingYet(n', ds)
  {
    hide DoWrite, DoClose, DoReset, DoConsume, DoCapacity, DoGoAway, DoTimer, DoAdvance, DoPop, WireOk, EncodeAll,
      Encode, GrowTo, Tr, Hear, HelloOk, FlowOk, LastSyn, LiveOk, SynFrame;
    NextSid(n);
    var ds := n.s.nextSid;
    assert SidOk(n, ds);
    HearLonger(n.popped, n.s.events, ds);
  }

  lemma WorkerOpening(net: Net, w: nat, meta: seq<Byte>)
    requires Sound(net) && w < |net.workers| && net.workers[w].up && IdsLeft(net.workers[w].n)
    requires OpenStream(net.workers[w].n.s, meta).1 >= 0
    ensures var ds := OpenStream(net.workers[w].n.s, meta).1;
            var n' := Do(net.workers[w].n, CallOpen(meta));
            && ds < U32_LIMIT && ds !in net.workers[w].table && Mine(n', false, ds) && NothingYet(n', ds)
  {
    hide Memory, Paired, RouteFlow, Do, NothingYet, Opening, Used, OpenStream, Inv, OpensOk, Untouched;
    assert TunnelOk(TunnelsOf(net, Down)[w], Down);
    TableKnown(TunnelsOf(net, Down)[w], Down);
    OpenedBlank(net.workers[w].n, meta);
  }

  // ---------------------------------------------------------------- tunnels go down and come up

  lemma SetTunnel(net: Net, side: Side, i: nat, t: Tunnel)
    requires NetOk(net) && i < |TunnelsOf(net, side)| && TunnelsOf(net, side)[i].table == map[] == t.table
             && t.inflight == 0
    requires TunnelOk(t, side)
    ensures NetOk(Set(net, side, i, t))
  {
    hide NodeGood, Mine, Flow;
    var net' := Set(net, side, i, t);
    forall r, d | r in net'.routes ensures Entered(net', r, d) {
      assert Entered(net, r, d);
    }
    forall d, k, sid | 0 <= k < |TunnelsOf(net', d)| && sid in TunnelsOf(net', d)[k].table
        ensures Names(net', d, k, sid) {
      assert Names(net, d, k, sid);
    }
    assert Paired(net');
    forall d, k | 0 <= k < |TunnelsOf(net', d)| ensures TunnelOk(TunnelsOf(net', d)[k], d) {
      assert TunnelOk(TunnelsOf(net, d)[k], d);
    }
    forall r, d | r in net'.routes ensures RouteFlow(net', r, d) {
      assert Entered(net, r, d) && Entered(net, r, Other(d)) && RouteFlow(net, r, d);
    }
  }

  lemma SetTunnelMemory(net: Net, side: Side, i: nat, t: Tunnel)
    requires Sound(net) && i < |TunnelsOf(net, side)| && TunnelsOf(net, side)[i].table == map[]
    requires t.up ==> Unread(t.n) >= 0
    ensures Memory(Set(net, side, i, t))
  {
    hide Tunnels, RouteFlow, Unread;
    var net' := Set(net, side, i, t);
    forall d, k | 0 <= k < |TunnelsOf(net', d)| && TunnelsOf(net', d)[k].up
      ensures Sum(Held(net', d, k)) <= Unread(TunnelsOf(net', d)[k].n)
    {
      assert Held(net', d, k) == Held(net, d, k);
      if d == side && k == i {
        NothingHeld(net, side, i);
      }
    }
  }

  lemma NothingHeld(net: Net, side: Side, i: nat)
    requires Paired(net) && i < |TunnelsOf(net, side)| && TunnelsOf(net, side)[i].table == map[]
    ensures Held(net, side, i) == map[]
  {
    forall r | r in net.routes ensures At(net.routes[r], side) != i {
      assert Entered(net, r, side);
    }
  }

  lemma DownSound(net: Net, side: Side, i: nat)
    requires Sound(net) && i < |TunnelsOf(net, side)| && TunnelsOf(net, side)[i].table == map[]
    ensures Sound(Set(net, side, i, TunnelsOf(net, side)[i].(up := false, inflight := 0)))
  {
    hide NetOk, Memory;
    SetTunnel(net, side, i, TunnelsOf(net, side)[i].(up := false, inflight := 0));
    SetTunnelMemory(net, side, i, TunnelsOf(net, side)[i].(up := false, inflight := 0));
  }

  /** A new session on a tunnel that was down. */
  lemma UpSound(net: Net, side: Side, i: nat, raw: Config, role: Role)
    requires Sound(net) && i < |TunnelsOf(net, side)| && !TunnelsOf(net, side)[i].up && New(raw, role).Some?
    ensures Sound(Set(net, side, i, Tunnel(Start(New(raw, role).value), true, map[], 0)))
  {
    hide NetOk, Memory, Inv, New;
    var n := Start(New(raw, role).value);
    StartGood(raw, role);
    DownEmpty(net, side, i);
    SetTunnel(net, side, i, Tunnel(n, true, map[], 0));
    SetTunnelMemory(net, side, i, Tunnel(n, true, map[], 0));
  }

  lemma DownEmpty(net: Net, side: Side, i: nat)
    requires NetOk(net) && i < |TunnelsOf(net, side)| && !TunnelsOf(net, side)[i].up
    ensures TunnelsOf(net, side)[i].table == map[]
  {
    hide Paired, RouteFlow, NodeGood;
    assert TunnelOk(TunnelsOf(net, side)[i], side);
  }

  /** A call changes no table, and only its own session. */
  lemma CallTables(net: Net, side: Side, i: nat, c: Call)
    requires i < |TunnelsOf(net, side)|
    ensures var net' := SetNode(net, side, i, Do(TunnelsOf(net, side)[i].n, c));
            && net'.routes == net.routes && |net'.edges| == |net.edges| && |net'.workers| == |net.workers|
            && (forall k :: 0 <= k < |net.edges| ==>
                net'.edges[k].up == net.edges[k].up && net'.edges[k].table == net.edges[k].table)
            && (forall k :: 0 <= k < |net.workers| ==>
                net'.workers[k].up == net.workers[k].up && net'.workers[k].table == net.workers[k].table)
  {
    hide Do;
  }

  lemma EmptySound(net: Net)
    requires net.routes == map[]
    requires forall side, i :: 0 <= i < |TunnelsOf(net, side)| ==>
               !TunnelsOf(net, side)[i].up && TunnelsOf(net, side)[i].table == map[]
                   && TunnelsOf(net, side)[i].inflight == 0
    ensures Sound(net)
  {
    assert forall i :: 0 <= i < |net.workers| ==> net.workers[i] == TunnelsOf(net, Down)[i];
  }

  lemma SteadyRefl(net: Net)
    ensures Steady(net, net)
  {
  }

  lemma FreedEntry(net: Net, side: Side, i: nat, sid: Sid)
    requires Sound(net) && i < |TunnelsOf(net, side)| && sid in TunnelsOf(net, side)[i].table
    ensures var r := TunnelsOf(net, side)[i].table[sid];
            && r in net.routes && Entered(net, r, Up) && Entered(net, r, Down)
            && i < |TunnelsOf(Freed(net, r), side)|
            && |TunnelsOf(Freed(net, r), side)[i].table| < |TunnelsOf(net, side)[i].table|
  {
    hide Sound, Freed;
    SoundEntry(net, side, i, sid);
    var r := TunnelsOf(net, side)[i].table[sid];
    SoundEnds(net, r, Up);
    FreedTables(net, r, side, i);
  }

  lemma NoneThere(net: Net, side: Side, i: nat)
    requires Sound(net) && i < |TunnelsOf(net, side)| && TunnelsOf(net, side)[i].table == map[]
    ensures forall r :: r in net.routes ==> At(net.routes[r], side) != i
  {
    hide Memory, Tunnels, RouteFlow;
    forall r | r in net.routes ensures At(net.routes[r], side) != i {
      assert Entered(net, r, side);
    }
  }

  // ---------------------------------------------------------------- what soundness means for a route

  /** Splice conservation, both directions: what the host was given at one end is what the other end
      accepted followed by what is pending; the giving end was credited for exactly what was accepted, so
      the pending bytes fit its stream window, and those of all its routes its connection window. A pending
      byte on a stream that can be written to is owed a WRITABLE. */
  lemma SpliceLaw(net: Net, r: nat, side: Side)
    requires Sound(net) && r in net.routes
    ensures Entered(net, r, side) && Entered(net, r, Other(side))
    ensures var R := net.routes[r];
            var src, dst := Src(net, r, side), Src(net, r, Other(side));
            var a, b := Id(R, side), Id(R, Other(side));
            && Got(src, a) == Wrote(dst, b) + Pend(R, side)
            && (a in src.s.streams && !src.s.dead ==>
                  Consumed(src, a) == |Wrote(dst, b)| && |Pend(R, side)| <= src.s.cfg.initWindow)
            && Sum(Held(net, side, At(R, side))) <= src.s.cfg.sessionWindow
            && (Pend(R, side) != [] && OpenFor(dst.s, b) ==> dst.s.streams[b].blocked || Writable(b) in dst.s.events)
  {
    hide Memory, Paired, Got, Inv, OpensOk, Untouched, Mine;
    SoundEnds(net, r, side);
    var src, dst := Src(net, r, side), Src(net, r, Other(side));
    var a, b := Id(net.routes[r], side), Id(net.routes[r], Other(side));
    assert RouteFlow(net, r, side);
    assert TunnelOk(TunnelsOf(net, side)[At(net.routes[r], side)], side);
    if a in src.s.streams && !src.s.dead {
      PendingFits(src, a, dst, b, Pend(net.routes[r], side));
    }
    HeldFits(net, side, At(net.routes[r], side));
  }
}
