/** The state of the edge-peer router (edge-peer/router.c): tunnels to edges and to workers, each with a
    session and a table from stream id to route, and the spliced routes. */
module RouterNet {
  import opened Wire
  import opened Session
  import opened Node
  import opened NodeRuns
  import opened HostWake
  import opened Splice
  import opened Hosting

  /** Up is the edge end of a route, Down its worker end. */
  datatype Side = Up | Down

  function Other(side: Side): Side { if side.Up? then Down else Up }

  /** A spliced pair of streams; `u2w` and `w2u` are bytes delivered at one end that the other end has
      not accepted yet. */
  datatype Route = Route(edge: nat, worker: nat, upSid: Sid, downSid: Sid,
                         u2w: seq<Byte>, w2u: seq<Byte>, upFin: bool, downFin: bool)

  function At(r: Route, side: Side): nat { if side.Up? then r.edge else r.worker }
  function Id(r: Route, side: Side): Sid { if side.Up? then r.upSid else r.downSid }
  function Pend(r: Route, side: Side): seq<Byte> { if side.Up? then r.u2w else r.w2u }
  function Fin(r: Route, side: Side): bool { if side.Up? then r.upFin else r.downFin }

  function WithPend(r: Route, side: Side, p: seq<Byte>): Route {
    if side.Up? then r.(u2w := p) else r.(w2u := p)
  }

  function WithFin(r: Route, side: Side): Route {
    if side.Up? then r.(upFin := true) else r.(downFin := true)
  }

  /** A tunnel; `up` when it has a session. A route is named by a number, as a pointer would. */
  datatype Tunnel = Tunnel(n: Node, up: bool, table: map<Sid, nat>, inflight: nat)

  datatype Net = Net(edges: seq<Tunnel>, workers: seq<Tunnel>, routes: map<nat, Route>)

  function TunnelsOf(net: Net, side: Side): seq<Tunnel> { if side.Up? then net.edges else net.workers }

  function Set(net: Net, side: Side, i: nat, t: Tunnel): Net
    requires i < |TunnelsOf(net, side)|
  {
    if side.Up? then net.(edges := net.edges[i := t]) else net.(workers := net.workers[i := t])
  }

  function SetNode(net: Net, side: Side, i: nat, n: Node): Net
    requires i < |TunnelsOf(net, side)|
  {
    Set(net, side, i, TunnelsOf(net, side)[i].(n := n))
  }

  // ---------------------------------------------------------------- invariants

  /** The route is entered at one end under its id there. */
  predicate Entered(net: Net, r: nat, side: Side)
    requires r in net.routes
  {
    var R, ts := net.routes[r], TunnelsOf(net, side);
    && At(R, side) < |ts| && ts[At(R, side)].up
    && Id(R, side) in ts[At(R, side)].table && ts[At(R, side)].table[Id(R, side)] == r
  }

  /** A table entry names a live route that agrees. */
  predicate Names(net: Net, side: Side, i: nat, sid: Sid)
    requires i < |TunnelsOf(net, side)| && sid in TunnelsOf(net, side)[i].table
  {
    var r := TunnelsOf(net, side)[i].table[sid];
    r in net.routes && At(net.routes[r], side) == i && Id(net.routes[r], side) == sid
  }

  /** The tables of the two ends are mutually inverse through the routes, and a worker's inflight count
      is the number of its routes. */
  ghost predicate Paired(net: Net) {
    && (forall r, side :: r in net.routes ==> Entered(net, r, side))
    && (forall side, i, sid :: 0 <= i < |TunnelsOf(net, side)| && sid in TunnelsOf(net, side)[i].table ==>
        Names(net, side, i, sid))
    && (forall i :: 0 <= i < |net.workers| ==> net.workers[i].inflight == |net.workers[i].table|)
  }

  ghost predicate TunnelOk(t: Tunnel, side: Side) {
    if t.up then NodeGood(t.n) && forall sid :: sid in t.table ==> Mine(t.n, side.Up?, sid)
    else t.table == map[]
  }

  function Src(net: Net, r: nat, side: Side): Node
    requires r in net.routes && Entered(net, r, side)
  {
    TunnelsOf(net, side)[At(net.routes[r], side)].n
  }

  /** The law of one direction of a route. */
  ghost predicate RouteFlow(net: Net, r: nat, side: Side)
    requires r in net.routes && Entered(net, r, side) && Entered(net, r, Other(side))
  {
    var R := net.routes[r];
    Flow(Src(net, r, side), Id(R, side), Src(net, r, Other(side)), Id(R, Other(side)), Pend(R, side))
  }

  ghost predicate Tunnels(net: Net) {
    forall side, i :: 0 <= i < |TunnelsOf(net, side)| ==> TunnelOk(TunnelsOf(net, side)[i], side)
  }

  /** Everything but the flow of direction `d0` of route `r0`, which an operation is busy with. */
  ghost predicate OkBut(net: Net, r0: nat, d0: Side) {
    && Paired(net) && Tunnels(net)
    && (forall r, side :: r in net.routes && !(r == r0 && side == d0) ==> RouteFlow(net, r, side))
  }

  ghost predicate NetOk(net: Net) {
    && Paired(net) && Tunnels(net)
    && (forall r, side :: r in net.routes ==> RouteFlow(net, r, side))
  }

  // ---------------------------------------------------------------- a step inside the network

  /** What a session step must respect, the direction `d0` of route `r0` being exempt. */
  ghost predicate Respects(net: Net, side: Side, i: nat, n': Node, r0: nat, d0: Side)
    requires i < |TunnelsOf(net, side)|
  {
    var t := TunnelsOf(net, side)[i];
    forall x :: x in t.table ==>
      && ((t.table[x] == r0 && side == d0) || KeepsSrc(t.n, n', x))
      && ((t.table[x] == r0 && Other(side) == d0) || KeepsDst(t.n, n', x))
  }

  lemma SetPaired(net: Net, side: Side, i: nat, n': Node)
    requires i < |TunnelsOf(net, side)| && Paired(net)
    ensures Paired(SetNode(net, side, i, n'))
  {
    var net' := SetNode(net, side, i, n');
    forall r, d | r in net'.routes ensures Entered(net', r, d) {
      assert Entered(net, r, d);
    }
    forall d, k, sid | 0 <= k < |TunnelsOf(net', d)| && sid in TunnelsOf(net', d)[k].table
        ensures Names(net', d, k, sid) {
      assert Names(net, d, k, sid);
    }
  }

  lemma SetTunnels(net: Net, side: Side, i: nat, n': Node)
    requires i < |TunnelsOf(net, side)| && Tunnels(net) && TunnelOk(TunnelsOf(net, side)[i].(n := n'), side)
    ensures Tunnels(SetNode(net, side, i, n'))
  {
    hide TunnelOk;
    var net' := SetNode(net, side, i, n');
    forall d, k | 0 <= k < |TunnelsOf(net', d)| ensures TunnelOk(TunnelsOf(net', d)[k], d) {
      assert TunnelOk(TunnelsOf(net, d)[k], d);
    }
  }

  lemma SetFlow(net: Net, side: Side, i: nat, n': Node, r0: nat, d0: Side, r: nat, d: Side)
    requires i < |TunnelsOf(net, side)| && Paired(net) && Respects(net, side, i, n', r0, d0)
    requires r in net.routes && !(r == r0 && d == d0) && RouteFlow(net, r, d)
    ensures Paired(SetNode(net, side, i, n')) && RouteFlow(SetNode(net, side, i, n'), r, d)
  {
    hide Paired, KeepsSrc, KeepsDst, Flow;
    var net' := SetNode(net, side, i, n');
    SetPaired(net, side, i, n');
    PairedAt(net, r, d);
    PairedAt(net', r, d);
    var R := net.routes[r];
    var src, dst := Src(net, r, d), Src(net, r, Other(d));
    var src', dst' := Src(net', r, d), Src(net', r, Other(d));
    KeepsSelf(src, Id(R, d));
    KeepsSelf(dst, Id(R, Other(d)));
    FlowKept(src, src', Id(R, d), dst, dst', Id(R, Other(d)), Pend(R, d));
  }

  lemma PairedAt(net: Net, r: nat, d: Side)
    requires Paired(net) && r in net.routes
    ensures Entered(net, r, d) && Entered(net, r, Other(d))
  {
  }

  /** A session takes a step; every direction but the exempt one keeps its law. */
  lemma StepNet(net: Net, side: Side, i: nat, st: Step, r0: nat, d0: Side)
    requires OkBut(net, r0, d0) && i < |TunnelsOf(net, side)| && TunnelsOf(net, side)[i].up
    requires Enabled(TunnelsOf(net, side)[i].n, st)
             && Orderly(TunnelsOf(net, side)[i].n, st, TunnelsOf(net, side)[i].table.Keys)
    requires GoodConfig(TunnelsOf(net, side)[i].n.s.cfg)
    requires Respects(net, side, i, Next(TunnelsOf(net, side)[i].n, st), r0, d0)
    ensures OkBut(SetNode(net, side, i, Next(TunnelsOf(net, side)[i].n, st)), r0, d0)
  {
    hide Next, Paired, Respects, RouteFlow, NodeGood, Mine;
    var t := TunnelsOf(net, side)[i];
    var n' := Next(t.n, st);
    var net' := SetNode(net, side, i, n');
    assert TunnelOk(t, side);
    StepGood(t.n, st, side.Up?, t.table.Keys);
    SetPaired(net, side, i, n');
    SetTunnels(net, side, i, n');
    hide Tunnels;
    forall r, d | r in net'.routes && !(r == r0 && d == d0) ensures RouteFlow(net', r, d) {
      SetFlow(net, side, i, n', r0, d0, r, d);
    }
  }

  // ---------------------------------------------------------------- routes come, change and go

  /** A route record is replaced, its ends staying. */
  lemma RecordPaired(net: Net, r: nat, R: Route)
    requires Paired(net) && r in net.routes
    requires forall d :: At(R, d) == At(net.routes[r], d) && Id(R, d) == Id(net.routes[r], d)
    ensures Paired(net.(routes := net.routes[r := R]))
  {
    var net' := net.(routes := net.routes[r := R]);
    forall x, d | x in net'.routes ensures Entered(net', x, d) {
      assert Entered(net, x, d);
    }
    forall d, k, sid | 0 <= k < |TunnelsOf(net', d)| && sid in TunnelsOf(net', d)[k].table
        ensures Names(net', d, k, sid) {
      assert Names(net, d, k, sid);
    }
  }

  lemma SameEnds(R: Route, side: Side, p: seq<Byte>, d: Side)
    ensures At(WithPend(R, side, p), d) == At(R, d) && Id(WithPend(R, side, p), d) == Id(R, d)
    ensures At(WithFin(R, side), d) == At(R, d) && Id(WithFin(R, side), d) == Id(R, d)
    ensures Pend(WithFin(R, side), d) == Pend(R, d)
    ensures Pend(WithPend(R, side, p), d) == if d == side then p else Pend(R, d)
  {
  }

  /** The busy direction's buffer changes. */
  lemma RecordBut(net: Net, r: nat, side: Side, p: seq<Byte>)
    requires OkBut(net, r, side) && r in net.routes
    ensures OkBut(net.(routes := net.routes[r := WithPend(net.routes[r], side, p)]), r, side)
  {
    hide Flow, TunnelOk;
    var R := WithPend(net.routes[r], side, p);
    var net' := net.(routes := net.routes[r := R]);
    forall d ensures At(R, d) == At(net.routes[r], d) && Id(R, d) == Id(net.routes[r], d)
                     && (d != side ==> Pend(R, d) == Pend(net.routes[r], d)) {
      SameEnds(net.routes[r], side, p, d);
    }
    RecordPaired(net, r, R);
    hide Paired;
    SameTunnels(net, net');
    forall x, d | x in net'.routes && !(x == r && d == side) ensures RouteFlow(net', x, d) {
      PairedAt(net, x, d);
      PairedAt(net', x, d);
      assert RouteFlow(net, x, d);
    }
  }

  /** The busy direction is in order again. */
  lemma Settle(net: Net, r: nat, side: Side)
    requires OkBut(net, r, side) && r in net.routes && Entered(net, r, side) && Entered(net, r, Other(side))
    requires RouteFlow(net, r, side)
    ensures NetOk(net)
  {
    hide RouteFlow, Paired, Tunnels;
  }

  lemma SameTunnels(net: Net, net': Net)
    requires Tunnels(net) && net'.edges == net.edges && net'.workers == net.workers
    ensures Tunnels(net')
  {
    hide TunnelOk;
    forall d, k | 0 <= k < |TunnelsOf(net', d)| ensures TunnelOk(TunnelsOf(net', d)[k], d) {
      assert TunnelOk(TunnelsOf(net, d)[k], d);
    }
  }

  /** The end-of-stream flag of one side. */
  lemma SettleFin(net: Net, r: nat, side: Side)
    requires NetOk(net) && r in net.routes
    ensures NetOk(net.(routes := net.routes[r := WithFin(net.routes[r], side)]))
  {
    hide Flow, TunnelOk;
    var R := WithFin(net.routes[r], side);
    var net' := net.(routes := net.routes[r := R]);
    forall d ensures At(R, d) == At(net.routes[r], d) && Id(R, d) == Id(net.routes[r], d)
        && Pend(R, d) == Pend(net.routes[r], d) {
      SameEnds(net.routes[r], side, [], d);
    }
    RecordPaired(net, r, R);
    hide Paired;
    SameTunnels(net, net');
    forall x, d | x in net'.routes ensures RouteFlow(net', x, d) {
      PairedAt(net, x, d);
      PairedAt(net', x, d);
      assert RouteFlow(net, x, d);
    }
  }

  /** route_free: out of both tables, one fewer in flight. */
  function Freed(net: Net, r: nat): Net
    requires r in net.routes && Entered(net, r, Up) && Entered(net, r, Down)
  {
    var R := net.routes[r];
    var e, w := net.edges[R.edge], net.workers[R.worker];
    Net(net.edges[R.edge := e.(table := e.table - {R.upSid})],
        net.workers[R.worker := w.(table := w.table - {R.downSid},
                                   inflight := if w.inflight > 0 then w.inflight - 1 else 0)],
        net.routes - {r})
  }

  lemma FreedTables(net: Net, r: nat, d: Side, k: nat)
    requires r in net.routes && Entered(net, r, Up) && Entered(net, r, Down) && k < |TunnelsOf(net, d)|
    ensures k < |TunnelsOf(Freed(net, r), d)|
    ensures var t, t' := TunnelsOf(net, d)[k], TunnelsOf(Freed(net, r), d)[k];
            && t'.n == t.n && t'.up == t.up
            && t'.table == if k == At(net.routes[r], d) then t.table - {Id(net.routes[r], d)} else t.table
  {
  }

  lemma FreedPaired(net: Net, r: nat)
    requires Paired(net) && r in net.routes && Entered(net, r, Up) && Entered(net, r, Down)
    ensures Paired(Freed(net, r))
  {
    hide Freed;
    var net' := Freed(net, r);
    FreedRest(net, r);
    forall x, d | x in net'.routes ensures Entered(net', x, d) {
      assert Entered(net, x, d) && Entered(net, r, d);
      FreedTables(net, r, d, At(net.routes[x], d));
    }
    forall d, k, sid | 0 <= k < |TunnelsOf(net', d)| && sid in TunnelsOf(net', d)[k].table
        ensures Names(net', d, k, sid) {
      FreedTables(net, r, d, k);
      assert Names(net, d, k, sid) && Entered(net, r, d);
    }
  }

  lemma FreedRest(net: Net, r: nat)
    requires Paired(net) && r in net.routes && Entered(net, r, Up) && Entered(net, r, Down)
    ensures var net' := Freed(net, r);
            && net'.routes == net.routes - {r} && |net'.edges| == |net.edges| && |net'.workers| == |net.workers|
            && (forall i :: 0 <= i < |net'.workers| ==> net'.workers[i].inflight == |net'.workers[i].table|)
  {
    var R := net.routes[r];
    var t := net.workers[R.worker].table;
    assert t.Keys == (t - {R.downSid}).Keys + {R.downSid};
  }

  lemma FreedOk(net: Net, r: nat, d0: Side)
    requires OkBut(net, r, d0) && r in net.routes && Entered(net, r, Up) && Entered(net, r, Down)
    ensures NetOk(Freed(net, r))
  {
    hide Flow, Freed, NodeGood, Mine;
    var net' := Freed(net, r);
    FreedPaired(net, r);
    FreedRest(net, r);
    hide Paired;
    forall d, k | 0 <= k < |TunnelsOf(net', d)| ensures TunnelOk(TunnelsOf(net', d)[k], d) {
      assert TunnelOk(TunnelsOf(net, d)[k], d);
      FreedTables(net, r, d, k);
    }
    forall x, d | x in net'.routes ensures RouteFlow(net', x, d) {
      PairedAt(net, x, d);
      PairedAt(net', x, d);
      assert RouteFlow(net, x, d);
      FreedTables(net, r, d, At(net.routes[x], d));
      FreedTables(net, r, Other(d), At(net.routes[x], Other(d)));
    }
  }

  /** route_new. */
  function Joined(net: Net, r: nat, e: nat, up: Sid, w: nat, down: Sid): Net
    requires e < |net.edges| && w < |net.workers|
  {
    var te, tw := net.edges[e], net.workers[w];
    Net(net.edges[e := te.(table := te.table[up := r])],
        net.workers[w := tw.(table := tw.table[down := r], inflight := tw.inflight + 1)],
        net.routes[r := Route(e, w, up, down, [], [], false, false)])
  }

  lemma JoinedTables(net: Net, r: nat, R: Route, d: Side, k: nat)
    requires R == Route(R.edge, R.worker, R.upSid, R.downSid, [], [], false, false)
    requires R.edge < |net.edges| && R.worker < |net.workers| && k < |TunnelsOf(net, d)|
    ensures var net' := Joined(net, r, R.edge, R.upSid, R.worker, R.downSid);
            && k < |TunnelsOf(net', d)| && net'.routes == net.routes[r := R]
            && var t, t' := TunnelsOf(net, d)[k], TunnelsOf(net', d)[k];
               && t'.n == t.n && t'.up == t.up
               && t'.table == if k == At(R, d) then t.table[Id(R, d) := r] else t.table
  {
  }

  lemma JoinedPaired(net: Net, r: nat, R: Route)
    requires Paired(net) && r !in net.routes && R == Route(R.edge, R.worker, R.upSid, R.downSid, [], [], false, false)
    requires R.edge < |net.edges| && R.worker < |net.workers|
    requires net.edges[R.edge].up && R.upSid !in net.edges[R.edge].table
    requires net.workers[R.worker].up && R.downSid !in net.workers[R.worker].table
    ensures Paired(Joined(net, r, R.edge, R.upSid, R.worker, R.downSid))
  {
    var net' := Joined(net, r, R.edge, R.upSid, R.worker, R.downSid);
    JoinedInflight(net, r, R);
    hide Joined;
    forall x, d | x in net'.routes ensures Entered(net', x, d) {
      if x != r {
        assert Entered(net, x, d);
        JoinedTables(net, r, R, d, At(net.routes[x], d));
      } else {
        JoinedTables(net, r, R, d, At(R, d));
      }
    }
    forall d, k, sid | 0 <= k < |TunnelsOf(net', d)| && sid in TunnelsOf(net', d)[k].table
        ensures Names(net', d, k, sid) {
      JoinedTables(net, r, R, d, k);
      if !(k == At(R, d) && sid == Id(R, d)) {
        assert Names(net, d, k, sid);
      }
    }
  }

  lemma JoinedInflight(net: Net, r: nat, R: Route)
    requires Paired(net) && R.edge < |net.edges| && R.worker < |net.workers|
    requires R.downSid !in net.workers[R.worker].table
    ensures var net' := Joined(net, r, R.edge, R.upSid, R.worker, R.downSid);
            && |net'.edges| == |net.edges| && |net'.workers| == |net.workers|
            && forall i :: 0 <= i < |net'.workers| ==> net'.workers[i].inflight == |net'.workers[i].table|
  {
    var t := net.workers[R.worker].table;
    assert t[R.downSid := r].Keys == t.Keys + {R.downSid};
  }

  lemma JoinedOk(net: Net, r: nat, R: Route)
    requires NetOk(net) && r !in net.routes && R == Route(R.edge, R.worker, R.upSid, R.downSid, [], [], false, false)
    requires R.edge < |net.edges| && R.worker < |net.workers|
    requires net.edges[R.edge].up && R.upSid !in net.edges[R.edge].table
    requires net.workers[R.worker].up && R.downSid !in net.workers[R.worker].table
    requires Mine(net.edges[R.edge].n, true, R.upSid) && Mine(net.workers[R.worker].n, false, R.downSid)
    requires NothingYet(net.edges[R.edge].n, R.upSid) && NothingYet(net.workers[R.worker].n, R.downSid)
    ensures NetOk(Joined(net, r, R.edge, R.upSid, R.worker, R.downSid))
  {
    hide Joined, NodeGood, Mine, Got;
    var net' := Joined(net, r, R.edge, R.upSid, R.worker, R.downSid);
    JoinedPaired(net, r, R);
    JoinedInflight(net, r, R);
    hide Paired;
    forall d, k | 0 <= k < |TunnelsOf(net', d)| ensures TunnelOk(TunnelsOf(net', d)[k], d) {
      assert TunnelOk(TunnelsOf(net, d)[k], d);
      JoinedTables(net, r, R, d, k);
    }
    forall x, d | x in net'.routes ensures RouteFlow(net', x, d) {
      JoinedFlow(net, r, R, x, d);
    }
  }

  lemma JoinedFlow(net: Net, r: nat, R: Route, x: nat, d: Side)
    requires NetOk(net) && r !in net.routes && R == Route(R.edge, R.worker, R.upSid, R.downSid, [], [], false, false)
    requires R.edge < |net.edges| && R.worker < |net.workers|
    requires NothingYet(net.edges[R.edge].n, R.upSid) && NothingYet(net.workers[R.worker].n, R.downSid)
    requires Paired(Joined(net, r, R.edge, R.upSid, R.worker, R.downSid))
    requires x in Joined(net, r, R.edge, R.upSid, R.worker, R.downSid).routes
    ensures RouteFlow(Joined(net, r, R.edge, R.upSid, R.worker, R.downSid), x, d)
  {
    hide Paired, Tunnels, Got;
    var net' := Joined(net, r, R.edge, R.upSid, R.worker, R.downSid);
    PairedAt(net', x, d);
    if x != r {
      PairedAt(net, x, d);
      assert RouteFlow(net, x, d);
      JoinedTables(net, r, R, d, At(net.routes[x], d));
      JoinedTables(net, r, R, Other(d), At(net.routes[x], Other(d)));
    } else {
      JoinedTables(net, r, R, d, At(R, d));
      JoinedTables(net, r, R, Other(d), At(R, Other(d)));
    }
  }

  // ---------------------------------------------------------------- which steps respect what

  /** The step touches no stream of the tunnel, or only that of the exempt direction. */
  predicate Confined(t: Tunnel, side: Side, st: Step, r0: nat, d0: Side) {
    forall x :: x in t.table ==>
      && (TakesData(t.n, st, x) || Consumes(st, x) ==> t.table[x] == r0 && side == d0)
      && (TakesWritable(t.n, st, x) || Writes(st, x) ==> t.table[x] == r0 && Other(side) == d0)
  }

  lemma ConfinedStep(net: Net, side: Side, i: nat, st: Step, r0: nat, d0: Side)
    requires OkBut(net, r0, d0) && i < |TunnelsOf(net, side)| && TunnelsOf(net, side)[i].up
    requires Enabled(TunnelsOf(net, side)[i].n, st)
             && Orderly(TunnelsOf(net, side)[i].n, st, TunnelsOf(net, side)[i].table.Keys)
    requires Confined(TunnelsOf(net, side)[i], side, st, r0, d0)
    ensures GoodConfig(TunnelsOf(net, side)[i].n.s.cfg)
    ensures OkBut(SetNode(net, side, i, Next(TunnelsOf(net, side)[i].n, st)), r0, d0)
  {
    hide Next, Paired, RouteFlow, Inv, OpensOk, Untouched, Used, TakesData, TakesWritable, Writes, Consumes, KeepsSrc,
        KeepsDst;
    var t := TunnelsOf(net, side)[i];
    assert TunnelOk(t, side);
    var n' := Next(t.n, st);
    forall x | x in t.table
      ensures (t.table[x] == r0 && side == d0) || KeepsSrc(t.n, n', x)
      ensures (t.table[x] == r0 && Other(side) == d0) || KeepsDst(t.n, n', x)
    {
      assert Mine(t.n, side.Up?, x);
      if !(t.table[x] == r0 && side == d0) {
        StepKeepsSrc(t.n, st, x);
      }
      if !(t.table[x] == r0 && Other(side) == d0) {
        StepKeepsDst(t.n, st, x);
      }
    }
    StepNet(net, side, i, st, r0, d0);
  }

  lemma OkButNone(net: Net, r0: nat, d0: Side)
    requires OkBut(net, r0, d0) && r0 !in net.routes
    ensures NetOk(net)
  {
    hide Paired, Tunnels, RouteFlow;
  }

  lemma OkButAny(net: Net, r0: nat, d0: Side)
    requires NetOk(net)
    ensures OkBut(net, r0, d0)
  {
    hide Paired, Tunnels, RouteFlow;
  }
}
