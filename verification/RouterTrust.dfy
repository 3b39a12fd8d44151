/** Which tunnels of the router are ready: those whose peer's greeting has proved the token. */
module RouterTrust {
  import opened Commons
  import opened Wire
  import opened Session
  import opened Node
  import opened Splice
  import opened RouterNet
  import opened Swrr
  import opened RouterLaws
  import opened Auth

  /** The tunnel is up and a greeting that proves the token was taken from it. */
  ghost predicate Vouched(t: Tunnel, token: Option<seq<Byte>>) {
    t.up && exists info :: PeerHello(info) in t.n.popped && Proves(token, info)
  }

  /** Every tunnel marked ready is vouched for. */
  ghost predicate Trusted(net: Net, token: Option<seq<Byte>>, ready: seq<bool>, pool: seq<Worker>) {
    && |ready| == |net.edges| && |pool| == |net.workers|
    && (forall i :: 0 <= i < |ready| && ready[i] ==> Vouched(net.edges[i], token))
    && (forall i :: 0 <= i < |pool| && pool[i].ready ==> Vouched(net.workers[i], token))
  }

  lemma StillVouched(t: Tunnel, t': Tunnel, token: Option<seq<Byte>>)
    requires Vouched(t, token) && t'.up && t.n.popped <= t'.n.popped
    ensures Vouched(t', token)
  {
    hide Proves;
    var info :| PeerHello(info) in t.n.popped && Proves(token, info);
    assert PeerHello(info) in t'.n.popped;
  }

  /** A session step of one tunnel; what was taken stays taken. */
  lemma StepTrust(net: Net, side: Side, i: nat, n: Node, token: Option<seq<Byte>>, ready: seq<bool>, pool: seq<Worker>)
    requires Trusted(net, token, ready, pool) && i < |TunnelsOf(net, side)|
             && TunnelsOf(net, side)[i].n.popped <= n.popped
    ensures Trusted(SetNode(net, side, i, n), token, ready, pool)
  {
    hide Vouched;
    var net' := SetNode(net, side, i, n);
    forall k | 0 <= k < |ready| && ready[k] ensures Vouched(net'.edges[k], token) {
      VouchedUp(net.edges[k], token);
      StillVouched(net.edges[k], net'.edges[k], token);
    }
    forall k | 0 <= k < |pool| && pool[k].ready ensures Vouched(net'.workers[k], token) {
      VouchedUp(net.workers[k], token);
      StillVouched(net.workers[k], net'.workers[k], token);
    }
  }

  lemma VouchedUp(t: Tunnel, token: Option<seq<Byte>>)
    requires Vouched(t, token)
    ensures t.up
  {
  }

  lemma SteadyTrust(net: Net, net': Net, token: Option<seq<Byte>>, ready: seq<bool>, pool: seq<Worker>)
    requires Trusted(net, token, ready, pool) && Steady(net, net')
    ensures Trusted(net', token, ready, pool)
  {
    hide Vouched;
    forall k | 0 <= k < |ready| && ready[k] ensures Vouched(net'.edges[k], token) {
      VouchedUp(net.edges[k], token);
      StillVouched(net.edges[k], net'.edges[k], token);
    }
    forall k | 0 <= k < |pool| && pool[k].ready ensures Vouched(net'.workers[k], token) {
      VouchedUp(net.workers[k], token);
      StillVouched(net.workers[k], net'.workers[k], token);
    }
  }

  lemma PopTrust(net: Net, side: Side, i: nat, token: Option<seq<Byte>>, ready: seq<bool>, pool: seq<Worker>)
    requires Trusted(net, token, ready, pool) && i < |TunnelsOf(net, side)|
    ensures Trusted(SetNode(net, side, i, Do(TunnelsOf(net, side)[i].n, CallPop)), token, ready, pool)
  {
    hide Do, Trusted;
    var n := TunnelsOf(net, side)[i].n;
    CallHistory(n, CallPop, SID_CONTROL);
    StepTrust(net, side, i, Do(n, CallPop), token, ready, pool);
  }

  /** A worker that was picked is vouched for. */
  lemma PickTrust(net: Net, token: Option<seq<Byte>>, ready: seq<bool>, pool: seq<Worker>, w: int, pool': seq<Worker>)
    requires Trusted(net, token, ready, pool) && Picks(pool, w, pool')
    ensures Trusted(net, token, ready, pool') && w < |net.workers| && (w >= 0 ==> Vouched(net.workers[w], token))
  {
    hide Vouched, Picks;
    PickedReady(pool, w, pool');
  }

  /** A greeting that proves the token was just taken: the tunnel may be marked ready. */
  lemma GreetTrust(net: Net, side: Side, i: nat, info: HelloInfo, token: Option<seq<Byte>>, ready: seq<bool>,
                   pool: seq<Worker>, w: Worker)
    requires Trusted(net, token, ready, pool) && i < |TunnelsOf(net, side)| && TunnelsOf(net, side)[i].up
    requires PeerHello(info) in TunnelsOf(net, side)[i].n.popped && Proves(token, info)
    ensures Vouched(TunnelsOf(net, side)[i], token)
    ensures side.Up? ==> Trusted(net, token, ready[i := true], pool)
    ensures side.Down? ==> Trusted(net, token, ready, pool[i := w])
  {
    hide Proves;
  }

  lemma DownTrust(net: Net, side: Side, i: nat, token: Option<seq<Byte>>, ready: seq<bool>, pool: seq<Worker>)
    requires Trusted(net, token, ready, pool) && i < |TunnelsOf(net, side)|
    ensures var net' := Set(net, side, i, TunnelsOf(net, side)[i].(up := false, inflight := 0));
            && (side.Up? ==> Trusted(net', token, ready[i := false], pool))
            && (side.Down? ==> Trusted(net', token, ready, pool[i := pool[i].(ready := false)]))
  {
    hide Vouched;
  }
}
