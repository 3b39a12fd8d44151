/** The edge-peer router as an object (edge-peer/router.c). Every method keeps Sound: the two tables of a
    route stay inverse, every byte is conserved, no wake-up is lost and the held bytes fit the windows. */
module Router {
  import opened Commons
  import opened Wire
  import opened Session
  import opened Node
  import opened NodeSend
  import opened NodeRuns
  import opened HostWake
  import opened Splice
  import opened Hosting
  import opened RouterNet
  import opened RouterMemory
  import opened Swrr
  import opened RouterLaws
  import opened RouterEnds
  import opened Auth
  import opened RouterTrust
  import opened Draining
  import opened RouterEvents

  class Router {
    var edges: seq<Tunnel>
    var workers: seq<Tunnel>
    var routes: map<nat, Route>
    var names: nat
    var ready: seq<bool>
    const pool: array<Worker>
    const token: Option<seq<Byte>>

    function Abs(): Net
      reads this
    {
      Net(edges, workers, routes)
    }

    ghost predicate Valid()
      reads this, pool
    {
      && Sound(Abs()) && (forall r :: r in routes ==> r < names)
      && Trusted(Abs(), token, ready, pool[..])
    }

    /** All tunnels down. */
    constructor (nEdges: nat, nWorkers: nat, c: Config, token: Option<seq<Byte>>)
      ensures Valid() && this.token == token && fresh(pool) && routes == map[] && |edges| == nEdges
              && |workers| == nWorkers
      ensures forall side, i :: 0 <= i < |TunnelsOf(Abs(), side)| ==> !TunnelsOf(Abs(), side)[i].up
    {
      hide Sound;
      var down := Tunnel(Start(Blank(c, Dialer)), false, map[], 0);
      edges := seq(nEdges, _ => down);
      workers := seq(nWorkers, _ => down);
      routes, names, ready := map[], 0, seq(nEdges, _ => false);
      this.token := token;
      pool := new Worker[nWorkers](_ => Worker(false, 0, 0));
      new;
      EmptySound(Abs());
    }

    /** A mux call on a tunnel's session. */
    method Invoke(side: Side, i: nat, c: Call)
      requires i < |TunnelsOf(Abs(), side)|
      modifies `edges, `workers
      ensures Abs() == SetNode(old(Abs()), side, i, Do(TunnelsOf(old(Abs()), side)[i].n, c))
    {
      hide Do;
      if side.Up? {
        edges := edges[i := edges[i].(n := Do(edges[i].n, c))];
      } else {
        workers := workers[i := workers[i].(n := Do(workers[i].n, c))];
      }
    }

    method SetPend(r: nat, side: Side, p: seq<Byte>)
      requires r in routes
      modifies `routes
      ensures Abs() == old(Abs()).(routes := old(routes)[r := WithPend(old(routes)[r], side, p)])
    {
      routes := routes[r := WithPend(routes[r], side, p)];
    }

    /** One write of what is pending or in hand, and the credit for what was accepted. */
    method Push(r: nat, side: Side, p: seq<Byte>, ghost hand: int) returns (w: int)
      requires r in routes && Busy(Abs(), r, side, hand) && Entered(Abs(), r, side) && Entered(Abs(), r, Other(side))
      requires Conserves(Src(Abs(), r, side), Id(routes[r], side), Src(Abs(), r, Other(side)),
               Id(routes[r], Other(side)), p)
      modifies `edges, `workers
      ensures w <= |p| && routes == old(routes) && SameShape(old(Abs()), Abs())
      ensures Placed(old(Abs()), r) && (Abs(), w) == Pushes(old(Abs()), r, side, p)
      ensures Busy(Abs(), r, side, if w > 0 then hand - w else hand)
      ensures Entered(Abs(), r, side) && Entered(Abs(), r, Other(side))
      ensures var k := if w > 0 then w else 0;
              Conserves(Src(Abs(), r, side), Id(routes[r], side), Src(Abs(), r, Other(side)),
                  Id(routes[r], Other(side)), p[k..])
      ensures w < |p| ==> Waiting(Src(Abs(), r, Other(side)).s, Id(routes[r], Other(side)))
    {
      hide Busy, Conserves, Waiting, SameShape, Do, WriteStream;
      PushBusy(Abs(), r, side, p, hand);
      var R, o := routes[r], Other(side);
      w := WriteStream(TunnelsOf(Abs(), o)[At(R, o)].n.s, Id(R, o), p).1;
      Invoke(o, At(R, o), CallWrite(Id(R, o), p));
      if w > 0 {
        Invoke(side, At(R, side), CallConsume(Id(R, side), w));
      }
    }

    /** fwd: new bytes wait behind pending ones; else they are written, the source being credited for what
        was accepted, and the rest waits. */
    method Forward(r: nat, side: Side, data: seq<Byte>)
      requires r in routes && Busy(Abs(), r, side, |data|) && Entered(Abs(), r, side) && Entered(Abs(), r, Other(side))
      requires Conserves(Src(Abs(), r, side), Id(routes[r], side), Src(Abs(), r, Other(side)),
                         Id(routes[r], Other(side)), Pend(routes[r], side) + data)
      requires Pend(routes[r], side) != [] ==> Waiting(Src(Abs(), r, Other(side)).s, Id(routes[r], Other(side)))
      modifies `edges, `workers, `routes
      ensures Sound(Abs()) && SameShape(old(Abs()), Abs())
      ensures Placed(old(Abs()), r) && Abs() == Forwarded(old(Abs()), r, side, data)
    {
      hide Busy, Sound, Conserves, Waiting, SameShape, Pushes;
      ForwardedSound(Abs(), r, side, data);
      var p := Pend(routes[r], side);
      if p != [] {
        SetPend(r, side, p + data);
        return;
      }
      assert p + data == data;
      var w := Push(r, side, data, |data|);
      if w < 0 {
        w := 0;
      }
      SetPend(r, side, data[w..]);
    }

    /** flush_pend: write until the buffer is empty or the destination takes no more. */
    method FlushPend(r: nat, side: Side)
      requires r in routes && Busy(Abs(), r, side, 0) && Entered(Abs(), r, side) && Entered(Abs(), r, Other(side))
      requires Conserves(Src(Abs(), r, side), Id(routes[r], side), Src(Abs(), r, Other(side)),
                         Id(routes[r], Other(side)), Pend(routes[r], side))
      modifies `edges, `workers, `routes
      ensures Sound(Abs()) && SameShape(old(Abs()), Abs()) && r in routes
      ensures Placed(old(Abs()), r) && Abs() == Flushed(old(Abs()), r, side)
    {
      hide Busy, Sound, Conserves, Waiting, SameShape, Pushes;
      ghost var net0 := Abs();
      EnteredPlaced(net0, r, side);
      ShapeRefl(net0);
      while Pend(routes[r], side) != []
        invariant r in routes && Busy(Abs(), r, side, 0) && Entered(Abs(), r, side) && Entered(Abs(), r, Other(side))
        invariant SameShape(net0, Abs())
        invariant Placed(Abs(), r) && Flushed(Abs(), r, side) == Flushed(net0, r, side)
        invariant Conserves(Src(Abs(), r, side), Id(routes[r], side), Src(Abs(), r, Other(side)),
                  Id(routes[r], Other(side)),
                            Pend(routes[r], side))
        decreases |Pend(routes[r], side)|
      {
        var p := Pend(routes[r], side);
        ghost var net1 := Abs();
        var w := Push(r, side, p, 0);
        ShapeTrans(net0, net1, Abs());
        if w <= 0 {
          assert p[0..] == p;
          SettledRoute(Abs(), r, side);
          return;
        }
        ghost var net2 := Abs();
        SetPend(r, side, p[w..]);
        Shrunk(net2, r, side, p[w..], -w);
        ShapePend(net2, r, side, p[w..]);
        ShapeTrans(net0, net2, Abs());
      }
      SettledRoute(Abs(), r, side);
    }

    /** route_free. */
    method Free(r: nat)
      requires r in routes && Sound(Abs())
      modifies `edges, `workers, `routes
      ensures Sound(Abs()) && Steady(old(Abs()), Abs()) && routes == old(routes) - {r}
      ensures Entered(old(Abs()), r, Up) && Entered(old(Abs()), r, Down) && Abs() == Freed(old(Abs()), r)
    {
      hide Sound, Steady;
      FreedSound(Abs(), r);
      FreedSteady(Abs(), r);
      var R := routes[r];
      var e, w := edges[R.edge], workers[R.worker];
      edges := edges[R.edge := e.(table := e.table - {R.upSid})];
      workers := workers[R.worker := w.(table := w.table - {R.downSid}, inflight := if w.inflight > 0
          then w.inflight - 1 else 0)];
      routes := routes - {r};
    }

    /** route_kill: the other end is reset and the route goes. */
    method Kill(r: nat, from: Side)
      requires r in routes && Sound(Abs())
      modifies `edges, `workers, `routes
      ensures Sound(Abs()) && Steady(old(Abs()), Abs()) && Killed(old(Abs()), Abs(), r, from)
      ensures routes == old(routes) - {r}
    {
      hide Sound, Do, Freed, Steady, SameShape;
      SoundEnds(Abs(), r, Other(from));
      ghost var net0 := Abs();
      var R, o := routes[r], Other(from);
      SoundCall(Abs(), o, At(R, o), CallReset(Id(R, o), CODE_INTERNAL));
      ShapeCall(net0, o, At(R, o), CallReset(Id(R, o), CODE_INTERNAL));
      Invoke(o, At(R, o), CallReset(Id(R, o), CODE_INTERNAL));
      ghost var net1 := Abs();
      ShapeSteady(net0, net1);
      Free(r);
      SteadyTrans(net0, net1, Abs());
    }

    /** The end of one direction: flush it, finish the other end, and free the route when both are done. Every
        byte has gone out before the FIN exactly when the destination could take all that was pending. */
    method Finish(r: nat, side: Side)
      requires r in routes && Sound(Abs())
      modifies `edges, `workers, `routes
      ensures Sound(Abs()) && Steady(old(Abs()), Abs())
      ensures routes.Keys == if Fin(old(routes)[r], Other(side)) then old(routes.Keys) - {r} else old(routes.Keys)
      ensures !Fin(old(routes)[r], Other(side)) ==> Fin(routes[r], side)
      ensures EndFinished(Abs(), old(routes)[r], Other(side))
      ensures Placed(old(Abs()), r) && (AllWent(Abs(), old(routes)[r], side) <==> Drains(old(Abs()), r, side))
    {
      hide Sound, Freed, Steady, EndFinished, RouterNet.Entered, AllWent, Drains, DirectionEnded;
      EndDirection(r, side);
      if Fin(routes[r], Other(side)) {
        ghost var net := Abs();
        SoundEnds(net, r, Up);
        FreedFinished(net, r, old(routes)[r], Other(side));
        FreedWent(net, r, old(routes)[r], side);
        Free(r);
        SteadyTrans(old(Abs()), net, Abs());
      }
    }

    method EndDirection(r: nat, side: Side)
      requires r in routes && Sound(Abs())
      modifies `edges, `workers, `routes
      ensures Sound(Abs()) && Steady(old(Abs()), Abs()) && routes.Keys == old(routes.Keys)
      ensures Fin(routes[r], side) && Fin(routes[r], Other(side)) == Fin(old(routes)[r], Other(side))
      ensures EndFinished(Abs(), old(routes)[r], Other(side))
      ensures Placed(old(Abs()), r) && Abs() == DirectionEnded(old(Abs()), r, side)
      ensures old(routes)[r].edge < |edges| && old(routes)[r].worker < |workers|
      ensures Pend(routes[r], side) == [] <==> Drains(old(Abs()), r, side)
      ensures AllWent(Abs(), old(routes)[r], side) <==> Drains(old(Abs()), r, side)
    {
      hide Sound, EndFinished, AllWent, Drains, DirectionEnded, Steady, At, Id;
      SoundPlaced(Abs(), r);
      CutOffExactly(Abs(), r, side);
      EndedPlace(Abs(), r, side);
      EndSteps(r, side);
      AllWentExactly(Abs(), r, old(routes)[r], side);
      SameCounts(old(Abs()), Abs(), old(routes)[r]);
    }

    /** Its three steps. */
    method EndSteps(r: nat, side: Side)
      requires r in routes && Sound(Abs())
      modifies `edges, `workers, `routes
      ensures Sound(Abs()) && Steady(old(Abs()), Abs()) && routes.Keys == old(routes.Keys)
      ensures Fin(routes[r], side) && Fin(routes[r], Other(side)) == Fin(old(routes)[r], Other(side))
      ensures EndFinished(Abs(), old(routes)[r], Other(side))
      ensures Placed(old(Abs()), r) && Abs() == DirectionEnded(old(Abs()), r, side)
    {
      hide Sound, Steady, SameShape, EndFinished, Flushed, Called, At, Id;
      var o := Other(side);
      FlushEnd(r, side);
      ghost var net1 := Abs();
      ShapeSteady(old(Abs()), net1);
      ShapeEnds(old(Abs()), net1, r, o);
      CloseEnd(r, o);
      ghost var net2, R := Abs(), routes[r];
      ShapeSteady(net1, net2);
      SteadyTrans(old(Abs()), net1, net2);
      MarkFin(r, side);
      SteadyTrans(old(Abs()), net2, Abs());
      FinFinished(net2, Abs(), R, old(routes)[r], o);
    }

    /** Flushing on a sound network. */
    method FlushEnd(r: nat, side: Side)
      requires r in routes && Sound(Abs())
      modifies `edges, `workers, `routes
      ensures Sound(Abs()) && SameShape(old(Abs()), Abs()) && r in routes
      ensures Fin(routes[r], Other(side)) == Fin(old(routes)[r], Other(side))
      ensures Placed(old(Abs()), r) && Abs() == Flushed(old(Abs()), r, side)
      ensures |Pend(routes[r], side)| <= |old(Pend(routes[r], side))|
      ensures Pend(routes[r], side)
              == old(Pend(routes[r], side))[|old(Pend(routes[r], side))| - |Pend(routes[r], side)|..]
    {
      hide Sound, Busy, Conserves, Waiting, Flushed;
      SoundPlaced(Abs(), r);
      FlushedSuffix(Abs(), r, side);
      Working(Abs(), r, side);
      FlushPend(r, side);
    }

    /** mux_close of one end. */
    method CloseEnd(r: nat, o: Side)
      requires r in routes && Sound(Abs())
      modifies `edges, `workers
      ensures Sound(Abs()) && SameShape(old(Abs()), Abs()) && EndFinished(Abs(), routes[r], o)
      ensures At(routes[r], o) < |TunnelsOf(old(Abs()), o)|
      ensures Abs() == Called(old(Abs()), o, At(routes[r], o), CallClose(Id(routes[r], o)))
    {
      hide Sound, Do, SameShape, EndFinished;
      SoundEnds(Abs(), r, o);
      CloseFinishes(Abs(), routes[r], o);
      SoundCall(Abs(), o, At(routes[r], o), CallClose(Id(routes[r], o)));
      ShapeCall(Abs(), o, At(routes[r], o), CallClose(Id(routes[r], o)));
      Invoke(o, At(routes[r], o), CallClose(Id(routes[r], o)));
    }

    method MarkFin(r: nat, side: Side)
      requires r in routes && Sound(Abs())
      modifies `routes
      ensures Sound(Abs()) && Steady(old(Abs()), Abs()) && routes.Keys == old(routes.Keys)
      ensures Fin(routes[r], side) && Fin(routes[r], Other(side)) == Fin(old(routes)[r], Other(side))
      ensures routes == old(routes)[r := WithFin(old(routes)[r], side)]
    {
      hide Sound, Steady;
      FinSound(Abs(), r, side);
      FinSteady(Abs(), r, side);
      routes := routes[r := WithFin(routes[r], side)];
    }

    /** route_new. */
    method Join(e: nat, up: Sid, w: nat, down: Sid)
      requires Sound(Abs()) && (forall r :: r in routes ==> r < names) && e < |edges| && w < |workers|
      requires edges[e].up && up !in edges[e].table && Mine(edges[e].n, true, up) && NothingYet(edges[e].n, up)
      requires workers[w].up && down !in workers[w].table && Mine(workers[w].n, false, down)
               && NothingYet(workers[w].n, down)
      modifies `edges, `workers, `routes, `names
      ensures Sound(Abs()) && (forall r :: r in routes ==> r < names)
      ensures Abs() == Joined(old(Abs()), old(names), e, up, w, down) && Steady(old(Abs()), Abs())
    {
      hide NetOk, Memory, Mine, NothingYet, Steady;
      JoinedSteady(Abs(), names, e, up, w, down);
      var R := Route(e, w, up, down, [], [], false, false);
      JoinedOk(Abs(), names, R);
      JoinedMemory(Abs(), names, R);
      edges := edges[e := edges[e].(table := edges[e].table[up := names])];
      workers := workers[w := workers[w].(table := workers[w].table[down := names],
          inflight := workers[w].inflight + 1)];
      routes := routes[names := R];
      names := names + 1;
    }

    // -------------------------------------------------------------- events

    /** The tunnel is up and the session's next event is `e`. */
    predicate Comes(side: Side, i: nat, e: Event)
      reads this
    {
      && i < |TunnelsOf(Abs(), side)| && TunnelsOf(Abs(), side)[i].up
      && TunnelsOf(Abs(), side)[i].n.s.events != [] && TunnelsOf(Abs(), side)[i].n.s.events[0] == e
    }

    /** The event is taken, Sound or not. */
    method Take(side: Side, i: nat, ghost e: Event)
      requires Comes(side, i, e)
      modifies `edges, `workers
      ensures Abs() == SetNode(old(Abs()), side, i, Do(TunnelsOf(old(Abs()), side)[i].n, CallPop))
      ensures Took(old(Abs()), Abs(), side, i, e)
              && TunnelsOf(Abs(), side)[i].table == TunnelsOf(old(Abs()), side)[i].table
      ensures |edges| == old(|edges|) && |workers| == old(|workers|)
      ensures Trusted(old(Abs()), token, ready, pool[..]) ==> Trusted(Abs(), token, ready, pool[..])
    {
      hide Do, Took, Trusted;
      TookOne(Abs(), side, i);
      if Trusted(Abs(), token, ready, pool[..]) {
        PopTrust(Abs(), side, i, token, ready, pool[..]);
      }
      Invoke(side, i, CallPop);
    }

    /** STREAM_DATA. */
    method OnData(side: Side, i: nat, sid: Sid, data: seq<Byte>)
      requires Valid() && Comes(side, i, StreamData(sid, data))
      modifies `edges, `workers, `routes
      ensures Valid() && routes.Keys == old(routes.Keys)
      ensures Took(old(Abs()), Abs(), side, i, StreamData(sid, data))
      ensures DataTaken(old(Abs()), Abs(), side, i, sid, data)
    {
      hide Sound, Busy, Conserves, Waiting, Do, SameShape, Steady, Took;
      ghost var net0 := Abs();
      Take(side, i, StreamData(sid, data));
      if sid in TunnelsOf(Abs(), side)[i].table {
        var r := TunnelsOf(Abs(), side)[i].table[sid];
        PopData(net0, side, i, r);
        ghost var net1 := Abs();
        Forward(r, side, data);
        ShapeSteady(net1, Abs());
        SteadyTrust(net1, Abs(), token, ready, pool[..]);
        TookSteady(net0, net1, Abs(), side, i, StreamData(sid, data));
      } else {
        PopOther(net0, side, i);
      }
    }

    /** WRITABLE: what waits for this end is flushed. */
    method OnWritable(side: Side, i: nat, sid: Sid)
      requires Valid() && Comes(side, i, Writable(sid))
      modifies `edges, `workers, `routes
      ensures Valid() && routes.Keys == old(routes.Keys)
      ensures Took(old(Abs()), Abs(), side, i, Writable(sid))
      ensures WritableTaken(old(Abs()), Abs(), side, i, sid)
    {
      hide Sound, Busy, Conserves, Waiting, Do, SameShape, Steady, Took, Flushed;
      ghost var net0 := Abs();
      Take(side, i, Writable(sid));
      if sid in TunnelsOf(Abs(), side)[i].table {
        var r := TunnelsOf(Abs(), side)[i].table[sid];
        PopWritable(net0, side, i, r);
        ghost var net1 := Abs();
        FlushPend(r, Other(side));
        ShapeSteady(net1, Abs());
        SteadyTrust(net1, Abs(), token, ready, pool[..]);
        TookSteady(net0, net1, Abs(), side, i, Writable(sid));
      } else {
        PopOther(net0, side, i);
      }
    }

    /** STREAM_CLOSED. */
    method OnClosed(side: Side, i: nat, sid: Sid)
      requires Valid() && Comes(side, i, StreamClosed(sid))
      modifies `edges, `workers, `routes
      ensures Valid() && Took(old(Abs()), Abs(), side, i, StreamClosed(sid))
      ensures ClosedTaken(old(Abs()), Abs(), side, i, sid)
    {
      hide Sound, Do, Steady, Took, EndFinished, AllWent, Drains;
      ghost var net0 := Abs();
      PopOther(net0, side, i);
      Take(side, i, StreamClosed(sid));
      if sid in TunnelsOf(Abs(), side)[i].table {
        var r := TunnelsOf(Abs(), side)[i].table[sid];
        ghost var net1 := Abs();
        SoundEntry(net1, side, i, sid);
        Finish(r, side);
        TookSteady(net0, net1, Abs(), side, i, StreamClosed(sid));
        SteadyTrust(net1, Abs(), token, ready, pool[..]);
      }
    }

    /** STREAM_RESET: the route goes and the other end is reset. */
    method OnReset(side: Side, i: nat, sid: Sid, code: U32)
      requires Valid() && Comes(side, i, StreamReset(sid, code))
      modifies `edges, `workers, `routes
      ensures Valid() && Took(old(Abs()), Abs(), side, i, StreamReset(sid, code))
      ensures ResetTaken(old(Abs()), Abs(), side, i, sid)
    {
      hide Sound, Do, Steady, Took, Killed, EndGone, Unlisted;
      ghost var net0 := Abs();
      PopOther(net0, side, i);
      Take(side, i, StreamReset(sid, code));
      if sid in TunnelsOf(Abs(), side)[i].table {
        var r := TunnelsOf(Abs(), side)[i].table[sid];
        ghost var net1 := Abs();
        SoundEntry(net1, side, i, sid);
        Kill(r, side);
        KilledReset(net0, net1, Abs(), r, side);
        TookSteady(net0, net1, Abs(), side, i, StreamReset(sid, code));
        SteadyTrust(net1, Abs(), token, ready, pool[..]);
      }
    }

    /** pick_worker, over the pool of this router. */
    method PickReady() returns (w: int)
      requires Trusted(Abs(), token, ready, pool[..])
      modifies pool
      ensures Trusted(Abs(), token, ready, pool[..])
      ensures Picks(old(pool[..]), w, pool[..]) && w < |workers| && (w >= 0 ==> Vouched(workers[w], token))
    {
      hide Total, Picks, Trusted, Vouched;
      ghost var ws := pool[..];
      w := PickWorker(pool);
      PickTrust(Abs(), token, ready, ws, w, pool[..]);
    }

    /** mux_reset of a stream that cannot be routed. */
    method Refuse(side: Side, i: nat, sid: Sid)
      requires Sound(Abs()) && i < |TunnelsOf(Abs(), side)| && TunnelsOf(Abs(), side)[i].up
      modifies `edges, `workers
      ensures Sound(Abs()) && Steady(old(Abs()), Abs())
      ensures Abs() == Called(old(Abs()), side, i, CallReset(sid, CODE_REFUSED))
    {
      hide Sound, Do, Steady, SameShape;
      SoundCall(Abs(), side, i, CallReset(sid, CODE_REFUSED));
      ShapeCall(Abs(), side, i, CallReset(sid, CODE_REFUSED));
      ghost var net := Abs();
      Invoke(side, i, CallReset(sid, CODE_REFUSED));
      ShapeSteady(net, Abs());
    }

    /** Open towards the worker and splice. */
    method Connect(i: nat, sid: Sid, w: nat, meta: seq<Byte>)
      requires Sound(Abs()) && (forall r :: r in routes ==> r < names)
      requires i < |edges| && edges[i].up && sid !in edges[i].table && Mine(edges[i].n, true, sid)
               && NothingYet(edges[i].n, sid)
      requires w < |workers| && workers[w].up && IdsLeft(workers[w].n)
      modifies `edges, `workers, `routes, `names
      ensures Sound(Abs()) && (forall r :: r in routes ==> r < names) && Steady(old(Abs()), Abs())
      ensures Connected(old(Abs()), Abs(), old(names), i, sid, w, meta)
    {
      hide Sound, Do, Steady, SameShape, Mine, NothingYet, OpenStream, Joined;
      ghost var net0 := Abs();
      var ds := OpenStream(workers[w].n.s, meta).1;
      if ds >= 0 {
        WorkerOpening(net0, w, meta);
      }
      SoundCall(net0, Down, w, CallOpen(meta));
      ShapeCall(net0, Down, w, CallOpen(meta));
      Invoke(Down, w, CallOpen(meta));
      ghost var net1 := Abs();
      ShapeSteady(net0, net1);
      if ds < 0 {
        Refuse(Up, i, sid);
      } else {
        Join(i, sid, w, ds);
      }
      SteadyTrans(net0, net1, Abs());
    }

    /** STREAM_OPENED by an edge: a worker is picked, a stream opened towards it, and the two are spliced;
        without a worker, or if the open fails, the edge stream is refused. */
    method OnOpened(i: nat, sid: Sid, meta: seq<Byte>) returns (w: int)
      requires Valid() && Comes(Up, i, StreamOpened(sid, meta))
      requires forall w :: 0 <= w < |workers| && workers[w].up ==> IdsLeft(workers[w].n)
      modifies `edges, `workers, `routes, `names, pool
      ensures Valid() && Took(old(Abs()), Abs(), Up, i, StreamOpened(sid, meta))
      ensures OpenedTaken(old(Abs()), Abs(), i, sid, meta, w, old(names), token, old(pool[..]), pool[..])
    {
      hide Sound, Do, Took, Mine, NothingYet, OpenStream, Picks, Steady, Connected, Vouched, Carried, Trusted;
      ghost var net0 := Abs();
      EdgeOpening(net0, i);
      PopOther(net0, Up, i);
      Take(Up, i, StreamOpened(sid, meta));
      ghost var net1 := Abs();
      w := PickReady();
      if w < 0 {
        Refuse(Up, i, sid);
      } else {
        VouchedUp(workers[w], token);
        Connect(i, sid, w, meta);
        ConnectedCarries(net0, net1, Abs(), old(names), i, sid, w, meta);
      }
      TookSteady(net0, net1, Abs(), Up, i, StreamOpened(sid, meta));
      SteadyTrust(net1, Abs(), token, ready, pool[..]);
    }

    /** STREAM_OPENED by a worker: workers do not open streams. */
    method OnForeign(i: nat, sid: Sid, meta: seq<Byte>)
      requires Valid() && Comes(Down, i, StreamOpened(sid, meta))
      modifies `edges, `workers
      ensures Valid()
      ensures Took(old(Abs()), Abs(), Down, i, StreamOpened(sid, meta))
      ensures Abs() == Called(Called(old(Abs()), Down, i, CallPop), Down, i, CallReset(sid, CODE_REFUSED))
    {
      hide Sound, Do, Took, Steady;
      ghost var net0 := Abs();
      PopOther(net0, Down, i);
      Take(Down, i, StreamOpened(sid, meta));
      ghost var net1 := Abs();
      Refuse(Down, i, sid);
      TookSteady(net0, net1, Abs(), Down, i, StreamOpened(sid, meta));
      SteadyTrust(net1, Abs(), token, ready, pool[..]);
    }

    /** PEER_HELLO: a tunnel whose greeting proves the token is ready, a worker with its weight, or 1, and no
        history; any other is drained. */
    method OnHello(side: Side, i: nat, info: HelloInfo)
      requires Valid() && Comes(side, i, PeerHello(info))
      modifies `edges, `workers, `ready, pool
      ensures Valid() && Took(old(Abs()), Abs(), side, i, PeerHello(info))
      ensures HelloTaken(old(Abs()), Abs(), side, i, info, token, old(ready), ready, old(pool[..]), pool[..])
      ensures Proves(token, info) ==> i < |TunnelsOf(Abs(), side)| && Vouched(TunnelsOf(Abs(), side)[i], token)
    {
      hide Sound, Do, Took, Steady, SameShape, Trusted, Vouched, Proves, Shut;
      ghost var net0 := Abs();
      PopOther(net0, side, i);
      Take(side, i, PeerHello(info));
      ghost var net1 := Abs();
      TookIn(net0, net1, side, i, PeerHello(info));
      var ok := CheckAuth(token, info);
      if !ok {
        SoundCall(net1, side, i, CallGoAway(CODE_REFUSED));
        ShapeCall(net1, side, i, CallGoAway(CODE_REFUSED));
        GoAwayShuts(TunnelsOf(net1, side)[i].n, CODE_REFUSED);
        Invoke(side, i, CallGoAway(CODE_REFUSED));
        ShapeSteady(net1, Abs());
        TookSteady(net0, net1, Abs(), side, i, PeerHello(info));
        SteadyTrust(net1, Abs(), token, ready, pool[..]);
      } else {
        Welcome(side, i, info);
      }
    }

    /** The tunnel is marked ready. */
    method Welcome(side: Side, i: nat, info: HelloInfo)
      requires Trusted(Abs(), token, ready, pool[..]) && i < |TunnelsOf(Abs(), side)| && TunnelsOf(Abs(), side)[i].up
      requires PeerHello(info) in TunnelsOf(Abs(), side)[i].n.popped && Proves(token, info)
      modifies `ready, pool
      ensures Trusted(Abs(), token, ready, pool[..]) && Vouched(TunnelsOf(Abs(), side)[i], token)
      ensures ready == if side.Up? && i < |old(ready)| then old(ready)[i := true] else old(ready)
      ensures pool[..] == if side.Down? && i < pool.Length
                          then old(pool[..])[i := Worker(true, if info.weight != 0 then info.weight else 1, 0)]
                          else old(pool[..])
    {
      hide Vouched, Proves;
      var w := Worker(true, if info.weight != 0 then info.weight else 1, 0);
      GreetTrust(Abs(), side, i, info, token, ready, pool[..], w);
      if side.Up? {
        ready := ready[i := true];
      } else {
        ghost var ws := pool[..];
        pool[i] := w;
        assert pool[..] == ws[i := w];
      }
    }

    /** CAPACITY from a worker: its weight from now on; 0 drains it. */
    method OnCapacity(i: nat, weight: U32)
      requires Valid() && Comes(Down, i, Capacity(weight))
      modifies `edges, `workers, pool
      ensures Valid() && i < pool.Length
      ensures pool[..] == old(pool[..])[i := old(pool[i]).(weight := weight)]
      ensures Took(old(Abs()), Abs(), Down, i, Capacity(weight)) && Abs() == Called(old(Abs()), Down, i, CallPop)
    {
      hide Sound, Do, Took, Vouched;
      PopOther(Abs(), Down, i);
      Take(Down, i, Capacity(weight));
      ghost var ws := pool[..];
      pool[i] := pool[i].(weight := weight);
      assert pool[..] == ws[i := pool[i]];
    }

    /** GOAWAY, FATAL and the rest change nothing here. */
    method OnRest(side: Side, i: nat, e: Event)
      requires Valid() && Comes(side, i, e) && !e.StreamData? && !e.Writable?
      modifies `edges, `workers
      ensures Valid() && Took(old(Abs()), Abs(), side, i, e)
      ensures Abs() == Called(old(Abs()), side, i, CallPop) && pool[..] == old(pool[..])
    {
      hide Sound, Do, Took;
      PopOther(Abs(), side, i);
      Take(side, i, e);
    }

    /** An event of a stream that has been opened. */
    method OnStream(side: Side, i: nat, e: Event)
      requires Valid() && Comes(side, i, e) && (e.StreamData? || e.StreamClosed? || e.StreamReset? || e.Writable?)
      modifies `edges, `workers, `routes
      ensures Valid() && Took(old(Abs()), Abs(), side, i, e)
      ensures Reacted(old(Abs()), Abs(), side, i, e, names, token, ready, ready, pool[..], pool[..])
    {
      hide Router.Valid, Took, Called, DataTaken, WritableTaken, ClosedTaken, ResetTaken, OpenedTaken, HelloTaken;
      match e {
        case StreamData(sid, data) => OnData(side, i, sid, data);
        case StreamClosed(sid) => OnClosed(side, i, sid);
        case StreamReset(sid, code) => OnReset(side, i, sid, code);
        case Writable(sid) => OnWritable(side, i, sid);
      }
    }

    /** An event about the tunnel as a whole. */
    method OnTunnel(side: Side, i: nat, e: Event)
      requires Valid() && Comes(side, i, e) && (e.PeerHello? || e.Capacity? || e.GoAway? || e.Fatal?)
      modifies `edges, `workers, `ready, pool
      ensures Valid() && Took(old(Abs()), Abs(), side, i, e)
      ensures Reacted(old(Abs()), Abs(), side, i, e, names, token, old(ready), ready, old(pool[..]), pool[..])
    {
      hide Router.Valid, Took, Called, DataTaken, WritableTaken, ClosedTaken, ResetTaken, OpenedTaken, HelloTaken;
      match e {
        case PeerHello(info) => OnHello(side, i, info);
        case Capacity(weight) =>
          if side.Down? {
            OnCapacity(i, weight);
          } else {
            OnRest(side, i, e);
          }
        case GoAway(_, _) => OnRest(side, i, e);
        case Fatal(_) => OnRest(side, i, e);
      }
    }

    /** One round of on_up_events or on_worker_events: the next event is taken and does what it has to do. */
    method Handle(side: Side, i: nat) returns (e: Event)
      requires Valid() && i < |TunnelsOf(Abs(), side)| && TunnelsOf(Abs(), side)[i].up
               && TunnelsOf(Abs(), side)[i].n.s.events != []
      requires forall w :: 0 <= w < |workers| && workers[w].up ==> IdsLeft(workers[w].n)
      modifies this, pool
      ensures Valid() && Took(old(Abs()), Abs(), side, i, e)
      ensures e == TunnelsOf(old(Abs()), side)[i].n.s.events[0]
      ensures Reacted(old(Abs()), Abs(), side, i, e, old(names), token, old(ready), ready, old(pool[..]), pool[..])
    {
      hide Router.Valid, Took, Called, DataTaken, WritableTaken, ClosedTaken, ResetTaken, OpenedTaken, HelloTaken;
      e := TunnelsOf(Abs(), side)[i].n.s.events[0];
      if e.StreamOpened? {
        if side.Up? {
          var w := OnOpened(i, e.sid, e.meta);
        } else {
          OnForeign(i, e.sid, e.meta);
        }
      } else if e.StreamData? || e.StreamClosed? || e.StreamReset? || e.Writable? {
        OnStream(side, i, e);
      } else {
        OnTunnel(side, i, e);
      }
    }

    // -------------------------------------------------------------- sessions

    /** Peer input, timers and transport output on a tunnel's session. */
    method Advance(side: Side, i: nat, st: Step)
      requires Valid() && i < |TunnelsOf(Abs(), side)| && TunnelsOf(Abs(), side)[i].up
      requires Enabled(TunnelsOf(Abs(), side)[i].n, st) && Aside(st) && (st.HostCall? ==> !st.c.CallOpen?)
      modifies `edges, `workers
      ensures Valid()
      ensures GoodConfig(TunnelsOf(old(Abs()), side)[i].n.s.cfg)
      ensures Abs() == SetNode(old(Abs()), side, i, Next(TunnelsOf(old(Abs()), side)[i].n, st))
    {
      hide Sound, Next, Trusted;
      SoundStep(Abs(), side, i, st);
      StepHistory(TunnelsOf(Abs(), side)[i].n, st, SID_CONTROL);
      StepTrust(Abs(), side, i, Next(TunnelsOf(Abs(), side)[i].n, st), token, ready, pool[..]);
      if side.Up? {
        edges := edges[i := edges[i].(n := Next(edges[i].n, st))];
      } else {
        workers := workers[i := workers[i].(n := Next(workers[i].n, st))];
      }
    }

    /** drop_worker_routes and drop_edge_routes, then conn_teardown: every route of the tunnel is reset at
        its other end and freed. Both loops end, with the table empty. */
    method Teardown(side: Side, i: nat)
      requires Valid() && i < |TunnelsOf(Abs(), side)| && TunnelsOf(Abs(), side)[i].up
      modifies `edges, `workers, `routes, `ready, pool
      ensures Valid() && i < |TunnelsOf(Abs(), side)| && (i < |old(ready)| || side.Down?)
      ensures ready == if side.Up? then old(ready)[i := false] else old(ready)
      ensures !TunnelsOf(Abs(), side)[i].up && TunnelsOf(Abs(), side)[i].table == map[]
      ensures routes == map r | r in old(routes) && At(old(routes)[r], side) != i :: old(routes)[r]
      ensures forall r :: r in old(routes) && At(old(routes)[r], side) == i ==>
              EndGone(Abs(), old(routes)[r], Other(side))
    {
      hide Sound, Do, EndGone, SameShape, Steady, Trusted;
      ghost var net0 := Abs();
      ResetPeers(side, i);
      ShapeSteady(net0, Abs());
      SteadyTrust(net0, Abs(), token, ready, pool[..]);
      ghost var net1 := Abs();
      DropRoutes(side, i);
      SteadyTrust(net1, Abs(), token, ready, pool[..]);
      ghost var net2 := Abs();
      Unplug(side, i);
      OtherSide(net2, Abs(), side);
    }

    /** The session goes, and with it the tunnel's readiness. */
    method Unplug(side: Side, i: nat)
      requires Sound(Abs()) && Trusted(Abs(), token, ready, pool[..])
      requires i < |TunnelsOf(Abs(), side)| && TunnelsOf(Abs(), side)[i].table == map[]
      modifies `edges, `workers, `ready, pool
      ensures Sound(Abs()) && Trusted(Abs(), token, ready, pool[..]) && i < |TunnelsOf(Abs(), side)|
      ensures !TunnelsOf(Abs(), side)[i].up && TunnelsOf(Abs(), side)[i].table == map[]
      ensures TunnelsOf(Abs(), Other(side)) == TunnelsOf(old(Abs()), Other(side))
      ensures i < |old(ready)| || side.Down?
      ensures ready == if side.Up? then old(ready)[i := false] else old(ready)
    {
      hide Sound, Vouched;
      DownSound(Abs(), side, i);
      DownTrust(Abs(), side, i, token, ready, pool[..]);
      if side.Up? {
        ready := ready[i := false];
        edges := edges[i := edges[i].(up := false, inflight := 0)];
      } else {
        ghost var ws := pool[..];
        pool[i] := pool[i].(ready := false);
        assert pool[..] == ws[i := ws[i].(ready := false)];
        workers := workers[i := workers[i].(up := false, inflight := 0)];
      }
    }

    method ResetPeers(side: Side, i: nat)
      requires Sound(Abs()) && i < |TunnelsOf(Abs(), side)|
      modifies `edges, `workers
      ensures Sound(Abs()) && SameShape(old(Abs()), Abs()) && routes == old(routes)
      ensures forall r :: r in routes && At(routes[r], side) == i ==> EndGone(Abs(), routes[r], Other(side))
    {
      hide Sound, Do, SameShape, EndGone;
      ghost var net0 := Abs();
      ShapeRefl(net0);
      TableCovers(net0, side, i);
      ghost var table := TunnelsOf(net0, side)[i].table;
      var todo := TunnelsOf(Abs(), side)[i].table.Keys;
      while todo != {}
        invariant Sound(Abs()) && SameShape(net0, Abs()) && routes == old(routes)
        invariant i < |TunnelsOf(Abs(), side)| && TunnelsOf(Abs(), side)[i].table == table && todo <= table.Keys
        invariant forall x :: x in table && x !in todo && table[x] in routes ==>
                  EndGone(Abs(), routes[table[x]], Other(side))
        decreases |todo|
      {
        var sid :| sid in todo;
        ghost var net1 := Abs();
        SoundEntry(net1, side, i, sid);
        var R, o := routes[TunnelsOf(Abs(), side)[i].table[sid]], Other(side);
        SoundCall(net1, o, At(R, o), CallReset(Id(R, o), CODE_INTERNAL));
        ShapeCall(net1, o, At(R, o), CallReset(Id(R, o), CODE_INTERNAL));
        CallTables(net1, o, At(R, o), CallReset(Id(R, o), CODE_INTERNAL));
        ResetGone(net1, R, o, CODE_INTERNAL);
        Invoke(o, At(R, o), CallReset(Id(R, o), CODE_INTERNAL));
        ShapeTrans(net0, net1, Abs());
        todo := todo - {sid};
      }
    }

    method DropRoutes(side: Side, i: nat)
      requires Sound(Abs()) && i < |TunnelsOf(Abs(), side)|
      modifies `edges, `workers, `routes
      ensures Sound(Abs()) && Steady(old(Abs()), Abs())
      ensures i < |TunnelsOf(Abs(), side)| && TunnelsOf(Abs(), side)[i].table == map[]
      ensures routes == map r | r in old(routes) && At(old(routes)[r], side) != i :: old(routes)[r]
      ensures forall Q: Route :: EndGone(old(Abs()), Q, Other(side)) ==> EndGone(Abs(), Q, Other(side))
    {
      hide Sound, Steady, Freed, EndGone;
      ghost var net0 := Abs();
      SteadyRefl(net0);
      while TunnelsOf(Abs(), side)[i].table != map[]
        invariant Sound(Abs()) && Steady(net0, Abs()) && i < |TunnelsOf(Abs(), side)|
        invariant forall r :: r in routes ==> r in old(routes) && routes[r] == old(routes)[r]
        invariant forall r :: r in old(routes) && r !in routes ==> At(old(routes)[r], side) == i
        invariant forall Q: Route :: EndGone(net0, Q, Other(side)) ==> EndGone(Abs(), Q, Other(side))
        decreases |TunnelsOf(Abs(), side)[i].table|
      {
        var sid :| sid in TunnelsOf(Abs(), side)[i].table;
        ghost var net1 := Abs();
        SoundEntry(net1, side, i, sid);
        var r := TunnelsOf(Abs(), side)[i].table[sid];
        FreedEntry(net1, side, i, sid);
        FreedGone(net1, r, Other(side));
        Free(r);
        SteadyTrans(net0, net1, Abs());
      }
      NoneThere(Abs(), side, i);
    }

    /** A tunnel that was down gets a new session. */
    method Reconnect(side: Side, i: nat, raw: Config)
      requires Valid() && i < |TunnelsOf(Abs(), side)| && !TunnelsOf(Abs(), side)[i].up && New(raw, Dialer).Some?
      modifies `edges, `workers
      ensures Valid()
      ensures Abs() == Set(old(Abs()), side, i, Tunnel(Start(New(raw, Dialer).value), true, map[], 0))
    {
      hide Sound, New;
      UpSound(Abs(), side, i, raw, Dialer);
      if side.Up? {
        edges := edges[i := Tunnel(Start(New(raw, Dialer).value), true, map[], 0)];
      } else {
        workers := workers[i := Tunnel(Start(New(raw, Dialer).value), true, map[], 0)];
      }
    }
  }
}
