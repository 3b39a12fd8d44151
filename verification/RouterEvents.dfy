/** What each event does to the router: the network, the pool and the ready flags before and after. */
module RouterEvents {
  import opened Commons
  import opened Wire
  import opened Codec
  import opened Session
  import opened Node
  import opened RouterNet
  import opened Swrr
  import opened RouterLaws
  import opened RouterEnds
  import opened Auth
  import opened RouterTrust
  import opened Draining

  /** STREAM_DATA: passed on if the stream has a route, else dropped. */
  ghost predicate DataTaken(net: Net, net': Net, side: Side, i: nat, sid: Sid, data: seq<Byte>)
    requires i < |TunnelsOf(net, side)|
  {
    var t, net1 := TunnelsOf(net, side)[i].table, Called(net, side, i, CallPop);
    if sid in t then Placed(net1, t[sid]) && net' == Forwarded(net1, t[sid], side, data) else net' == net1
  }

  /** WRITABLE: what waits for this end is flushed. */
  ghost predicate WritableTaken(net: Net, net': Net, side: Side, i: nat, sid: Sid)
    requires i < |TunnelsOf(net, side)|
  {
    var t, net1 := TunnelsOf(net, side)[i].table, Called(net, side, i, CallPop);
    if sid in t then Placed(net1, t[sid]) && net' == Flushed(net1, t[sid], Other(side)) else net' == net1
  }

  /** STREAM_CLOSED: the other end is finished behind what it could take; the route goes if that direction was done
      before, and is marked otherwise. */
  ghost predicate ClosedTaken(net: Net, net': Net, side: Side, i: nat, sid: Sid)
    requires i < |TunnelsOf(net, side)|
  {
    var t, net1, o := TunnelsOf(net, side)[i].table, Called(net, side, i, CallPop), Other(side);
    if sid !in t then net' == net1
    else
      && t[sid] in net.routes && Placed(net1, t[sid])
      && var R := net.routes[t[sid]];
         && EndFinished(net', R, o) && (AllWent(net', R, side) <==> Drains(net1, t[sid], side))
         && (if Fin(R, o) then net'.routes.Keys == net.routes.Keys - {t[sid]}
             else net'.routes.Keys == net.routes.Keys && Fin(net'.routes[t[sid]], side))
  }

  /** STREAM_RESET: the route is gone from both tables, and its other end is reset. */
  ghost predicate ResetTaken(net: Net, net': Net, side: Side, i: nat, sid: Sid)
    requires i < |TunnelsOf(net, side)|
  {
    var t, net1 := TunnelsOf(net, side)[i].table, Called(net, side, i, CallPop);
    if sid !in t then net' == net1
    else
      && t[sid] in net.routes && net'.routes == net.routes - {t[sid]}
      && EndGone(net', net.routes[t[sid]], Other(side)) && Unlisted(net', net.routes[t[sid]])
      && Killed(net1, net', t[sid], side)
  }

  /** A route is in neither table. */
  predicate Unlisted(net: Net, R: Route) {
    && R.edge < |net.edges| && R.upSid !in net.edges[R.edge].table
    && R.worker < |net.workers| && R.downSid !in net.workers[R.worker].table
  }

  /** STREAM_OPENED by an edge: joined to a new stream of a picked worker whose SYN carries the same metadata, or
      refused. */
  ghost predicate OpenedTaken(net: Net, net': Net, i: nat, sid: Sid, meta: seq<Byte>, w: int, r: nat,
                              token: Option<seq<Byte>>, pool: seq<Worker>, pool': seq<Worker>)
    requires i < |net.edges|
  {
    var net1 := Called(net, Up, i, CallPop);
    && Picks(pool, w, pool') && w < |net.workers|
    && if w < 0 then net' == Called(net1, Up, i, CallReset(sid, CODE_REFUSED))
       else Vouched(net.workers[w], token) && Connected(net1, net', r, i, sid, w, meta) && Carried(net, net', w, meta)
  }

  /** The worker's session has opened a stream with this metadata, or its open failed. */
  predicate Carried(net: Net, net': Net, w: nat, meta: seq<Byte>) {
    && w < |net.workers| && w < |net'.workers|
    && var s, ds := net.workers[w].n.s, OpenStream(net.workers[w].n.s, meta).1;
       0 <= ds < U32_LIMIT ==>
         |meta| <= MAX_META && net'.workers[w].n.s.wire == s.wire + [Frame(T_DATA, F_SYN, ds, meta)]
  }

  /** PEER_HELLO: the tunnel is ready if and only if its peer has proved the token; otherwise its session is shut. */
  ghost predicate HelloTaken(net: Net, net': Net, side: Side, i: nat, info: HelloInfo, token: Option<seq<Byte>>,
                             ready: seq<bool>, ready': seq<bool>, pool: seq<Worker>, pool': seq<Worker>)
    requires i < |TunnelsOf(net, side)|
  {
    var net1 := Called(net, side, i, CallPop);
    && net' == (if Proves(token, info) then net1 else Called(net1, side, i, CallGoAway(CODE_REFUSED)))
    && i < |TunnelsOf(net', side)| && (!Proves(token, info) ==> Shut(TunnelsOf(net', side)[i].n))
    && ready' == (if side.Up? && Proves(token, info) && i < |ready| then ready[i := true] else ready)
    && pool' == if side.Down? && Proves(token, info) && i < |pool|
                then pool[i := Worker(true, if info.weight != 0 then info.weight else 1, 0)] else pool
  }

  /** One event, whatever it is. */
  ghost predicate Reacted(net: Net, net': Net, side: Side, i: nat, e: Event, r: nat, token: Option<seq<Byte>>,
                          ready: seq<bool>, ready': seq<bool>, pool: seq<Worker>, pool': seq<Worker>)
    requires i < |TunnelsOf(net, side)|
  {
    && (!e.PeerHello? ==> ready' == ready)
    && (!(e.PeerHello? || (e.Capacity? && side.Down?) || (e.StreamOpened? && side.Up?)) ==> pool' == pool)
    && match e
       case StreamOpened(sid, meta) =>
         if side.Up? then exists w :: OpenedTaken(net, net', i, sid, meta, w, r, token, pool, pool')
         else net' == Called(Called(net, Down, i, CallPop), Down, i, CallReset(sid, CODE_REFUSED))
       case StreamData(sid, data) => DataTaken(net, net', side, i, sid, data)
       case StreamClosed(sid) => ClosedTaken(net, net', side, i, sid)
       case StreamReset(sid, _) => ResetTaken(net, net', side, i, sid)
       case Writable(sid) => WritableTaken(net, net', side, i, sid)
       case PeerHello(info) => HelloTaken(net, net', side, i, info, token, ready, ready', pool, pool')
       case Capacity(weight) =>
         && net' == Called(net, side, i, CallPop)
         && (side.Down? ==> i < |pool| && pool' == pool[i := pool[i].(weight := weight)])
       case GoAway(_, _) => net' == Called(net, side, i, CallPop)
       case Fatal(_) => net' == Called(net, side, i, CallPop)
  }

  lemma KilledReset(net: Net, net1: Net, net': Net, r: nat, side: Side)
    requires r in net1.routes && Killed(net1, net', r, side) && net1.routes == net.routes
    ensures EndGone(net', net.routes[r], Other(side)) && Unlisted(net', net.routes[r])
  {
    hide Do, Freed, EndGone;
    var R, o := net1.routes[r], Other(side);
    var net2 := Called(net1, o, At(R, o), CallReset(Id(R, o), CODE_INTERNAL));
    ResetGone(net1, R, o, CODE_INTERNAL);
    FreedGone(net2, r, o);
    FreedTables(net2, r, Up, R.edge);
    FreedTables(net2, r, Down, R.worker);
  }

  lemma OpenCarries(n: Node, meta: seq<Byte>)
    ensures var ds := OpenStream(n.s, meta).1;
            0 <= ds < U32_LIMIT ==>
              |meta| <= MAX_META && Do(n, CallOpen(meta)).s.wire == n.s.wire + [Frame(T_DATA, F_SYN, ds, meta)]
  {
    hide Encode, GrowTo;
  }

  /** The SYN of a joined stream carries the metadata of the event. */
  lemma ConnectedCarries(net: Net, net1: Net, net': Net, r: nat, i: nat, sid: Sid, w: nat, meta: seq<Byte>)
    requires Connected(net1, net', r, i, sid, w, meta) && net1.workers == net.workers
    ensures Carried(net, net', w, meta)
  {
    hide OpenStream, Do;
    OpenCarries(net.workers[w].n, meta);
    var ds := OpenStream(net.workers[w].n.s, meta).1;
    var net2 := Called(net1, Down, w, CallOpen(meta));
    if 0 <= ds < U32_LIMIT {
      JoinedWorker(net2, r, i, sid, w, ds);
    } else {
      CalledKeeps(net2, Up, i, CallReset(sid, CODE_REFUSED));
    }
  }

  lemma JoinedWorker(net: Net, r: nat, e: nat, up: Sid, w: nat, down: Sid)
    requires e < |net.edges| && w < |net.workers|
    ensures var net' := Joined(net, r, e, up, w, down); w < |net'.workers| && net'.workers[w].n == net.workers[w].n
  {
  }
}
