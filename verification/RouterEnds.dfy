/** The end of one direction of a route, as a function on the network: what flush_pend sends, and what is left
    when the other end is closed behind it. Every byte goes out before the FIN exactly when the destination
    can take all that is pending. */
module RouterEnds {
  import opened Wire
  import opened Session
  import opened Node
  import opened HostWake
  import opened Splice
  import opened Sending
  import opened RouterNet
  import opened RouterLaws

  predicate Placed(net: Net, r: nat) {
    r in net.routes && net.routes[r].edge < |net.edges| && net.routes[r].worker < |net.workers|
  }

  function End(net: Net, r: nat, side: Side): Node
    requires Placed(net, r)
  {
    TunnelsOf(net, side)[At(net.routes[r], side)].n
  }

  lemma CalledKeeps(net: Net, side: Side, i: nat, c: Call)
    requires i < |TunnelsOf(net, side)|
    ensures var net' := Called(net, side, i, c);
            && net'.routes == net.routes && |net'.edges| == |net.edges| && |net'.workers| == |net.workers|
            && TunnelsOf(net', side)[i].n == Do(TunnelsOf(net, side)[i].n, c)
            && TunnelsOf(net', Other(side)) == TunnelsOf(net, Other(side))
  {
    hide Do;
  }

  /** One write of `p` towards the other end, and the credit for what was accepted. */
  function Pushes(net: Net, r: nat, side: Side, p: seq<Byte>): (res: (Net, int))
    requires Placed(net, r)
    ensures Placed(res.0, r) && res.0.routes == net.routes
  {
    var R, o := net.routes[r], Other(side);
    var w := WriteStream(End(net, r, o).s, Id(R, o), p).1;
    CalledKeeps(net, o, At(R, o), CallWrite(Id(R, o), p));
    var net1 := Called(net, o, At(R, o), CallWrite(Id(R, o), p));
    if w > 0 then
      CalledKeeps(net1, side, At(R, side), CallConsume(Id(R, side), w));
      (Called(net1, side, At(R, side), CallConsume(Id(R, side), w)), w)
    else (net1, w)
  }

  function WithBuffer(net: Net, r: nat, side: Side, p: seq<Byte>): Net
    requires r in net.routes
  {
    net.(routes := net.routes[r := WithPend(net.routes[r], side, p)])
  }

  /** flush_pend. */
  function Flushed(net: Net, r: nat, side: Side): (net': Net)
    requires Placed(net, r)
    ensures Placed(net', r)
    decreases |Pend(net.routes[r], side)|
  {
    var p := Pend(net.routes[r], side);
    if p == [] then net
    else
      var (net1, w) := Pushes(net, r, side, p);
      if 0 < w <= |p| then Flushed(WithBuffer(net1, r, side, p[w..]), r, side) else net1
  }

  lemma PushEnds(net: Net, r: nat, side: Side, p: seq<Byte>)
    requires Placed(net, r)
    ensures var o := Other(side);
            var (net', w) := Pushes(net, r, side, p);
            && End(net', r, o) == DoWrite(End(net, r, o), Id(net.routes[r], o), p)
            && w == WriteStream(End(net, r, o).s, Id(net.routes[r], o), p).1
  {
    hide Do, DoWrite, WriteStream, Called;
    var R, o := net.routes[r], Other(side);
    DoIsWrite(End(net, r, o), Id(R, o), p);
    CalledKeeps(net, o, At(R, o), CallWrite(Id(R, o), p));
    var net1 := Called(net, o, At(R, o), CallWrite(Id(R, o), p));
    var w := WriteStream(End(net, r, o).s, Id(R, o), p).1;
    if w > 0 {
      CalledKeeps(net1, side, At(R, side), CallConsume(Id(R, side), w));
    }
  }

  lemma BufferEnds(net: Net, r: nat, side: Side, p: seq<Byte>)
    requires Placed(net, r)
    ensures var net' := WithBuffer(net, r, side, p);
            && Placed(net', r) && Pend(net'.routes[r], side) == p
            && forall e: Side :: End(net', r, e) == End(net, r, e) && Id(net'.routes[r], e) == Id(net.routes[r], e)
  {
  }

  /** One push on a network busy with this direction. */
  lemma PushBusy(net: Net, r: nat, side: Side, p: seq<Byte>, hand: int)
    requires r in net.routes && Busy(net, r, side, hand) && Entered(net, r, side) && Entered(net, r, Other(side))
    requires Conserves(Src(net, r, side), Id(net.routes[r], side), Src(net, r, Other(side)),
                       Id(net.routes[r], Other(side)), p)
    ensures Placed(net, r)
    ensures var (net', w) := Pushes(net, r, side, p);
            && w <= |p| && SameShape(net, net') && Busy(net', r, side, if w > 0 then hand - w else hand)
            && Entered(net', r, side) && Entered(net', r, Other(side))
            && var k := if w > 0 then w else 0;
               && Conserves(Src(net', r, side), Id(net.routes[r], side), Src(net', r, Other(side)),
                            Id(net.routes[r], Other(side)), p[k..])
               && (w < |p| ==> Waiting(Src(net', r, Other(side)).s, Id(net.routes[r], Other(side))))
  {
    hide Busy, Conserves, Waiting, SameShape, Do, WriteStream;
    EnteredPlaced(net, r, side);
    var R, o := net.routes[r], Other(side);
    var a, b := Id(R, side), Id(R, o);
    var src, dst := Src(net, r, side), Src(net, r, o);
    WriteConserves(src, a, dst, b, p);
    var w := WriteStream(dst.s, b, p).1;
    BusyCall(net, o, At(R, o), CallWrite(b, p), r, side, hand);
    ShapeCall(net, o, At(R, o), CallWrite(b, p));
    CalledKeeps(net, o, At(R, o), CallWrite(b, p));
    var net1 := Called(net, o, At(R, o), CallWrite(b, p));
    BusyEnds(net1, r, side, hand, side);
    DoIsWrite(dst, b, p);
    if w > 0 {
      BusyCall(net1, side, At(R, side), CallConsume(a, w), r, side, hand);
      ShapeCall(net1, side, At(R, side), CallConsume(a, w));
      CalledKeeps(net1, side, At(R, side), CallConsume(a, w));
      var net2 := Called(net1, side, At(R, side), CallConsume(a, w));
      DoIsConsume(src, a, w);
      BusyEnds(net2, r, side, hand - w, side);
      ShapeTrans(net, net1, net2);
    } else {
      assert p[0..] == p;
    }
  }

  /** fwd. */
  function Forwarded(net: Net, r: nat, side: Side, data: seq<Byte>): (net': Net)
    requires Placed(net, r)
  {
    var p := Pend(net.routes[r], side);
    if p != [] then WithBuffer(net, r, side, p + data)
    else
      var (net1, w) := Pushes(net, r, side, data);
      WithBuffer(net1, r, side, data[if 0 < w <= |data| then w else 0..])
  }

  lemma ForwardedSound(net: Net, r: nat, side: Side, data: seq<Byte>)
    requires r in net.routes && Busy(net, r, side, |data|) && Entered(net, r, side) && Entered(net, r, Other(side))
    requires Conserves(Src(net, r, side), Id(net.routes[r], side), Src(net, r, Other(side)),
                       Id(net.routes[r], Other(side)), Pend(net.routes[r], side) + data)
    requires Pend(net.routes[r], side) != [] ==> Waiting(Src(net, r, Other(side)).s, Id(net.routes[r], Other(side)))
    ensures Placed(net, r) && Sound(Forwarded(net, r, side, data)) && SameShape(net, Forwarded(net, r, side, data))
  {
    hide Busy, Sound, Conserves, Waiting, SameShape, Pushes;
    EnteredPlaced(net, r, side);
    var p := Pend(net.routes[r], side);
    if p != [] {
      Restored(net, r, side, p + data, |data|);
      ShapePend(net, r, side, p + data);
    } else {
      assert p + data == data;
      PushBusy(net, r, side, data, |data|);
      var (net1, w) := Pushes(net, r, side, data);
      var k := if 0 < w <= |data| then w else 0;
      Restored(net1, r, side, data[k..], |data| - k);
      ShapePend(net1, r, side, data[k..]);
      ShapeTrans(net, net1, WithBuffer(net1, r, side, data[k..]));
    }
  }

  /** The destination of a direction can take all that is pending. */
  predicate Drains(net: Net, r: nat, side: Side)
    requires Placed(net, r)
  {
    var R, o := net.routes[r], Other(side);
    Pend(R, side) == [] || TakesAll(End(net, r, o).s, Id(R, o), |Pend(R, side)|)
  }

  /** A flush empties the buffer if and only if the destination could take all of it to begin with. */
  lemma {:induction false} FlushedExactly(net: Net, r: nat, side: Side)
    requires Placed(net, r)
    ensures Pend(Flushed(net, r, side).routes[r], side) == [] <==> Drains(net, r, side)
    decreases |Pend(net.routes[r], side)|
  {
    hide Pushes, WithBuffer, TakesAll, WriteStream, End, Id;
    var p, o := Pend(net.routes[r], side), Other(side);
    if p != [] {
      var (net1, w) := Pushes(net, r, side, p);
      var s, b := End(net, r, o).s, Id(net.routes[r], o);
      PushEnds(net, r, side, p);
      WriteAllExactly(s, b, p);
      WriteWaits(s, b, p);
      if w > 0 {
        var net2 := WithBuffer(net1, r, side, p[w..]);
        BufferEnds(net1, r, side, p[w..]);
        FlushedExactly(net2, r, side);
        if w < |p| {
          ShortThenNothing(s, b, p, |p[w..]|);
        }
      }
    }
  }

  /** What a flush leaves is the end of what was pending. */
  lemma {:induction false} FlushedSuffix(net: Net, r: nat, side: Side)
    requires Placed(net, r)
    ensures var p, q := Pend(net.routes[r], side), Pend(Flushed(net, r, side).routes[r], side);
            |q| <= |p| && q == p[|p| - |q|..]
    decreases |Pend(net.routes[r], side)|
  {
    hide Pushes, WithBuffer;
    var p := Pend(net.routes[r], side);
    if p != [] {
      var (net1, w) := Pushes(net, r, side, p);
      if 0 < w <= |p| {
        BufferEnds(net1, r, side, p[w..]);
        FlushedSuffix(WithBuffer(net1, r, side, p[w..]), r, side);
      }
    }
  }

  /** The end of one direction: flushed, the other end closed, and marked. */
  function DirectionEnded(net: Net, r: nat, side: Side): (net': Net)
    requires Placed(net, r)
    ensures Placed(net', r)
  {
    var net1, o := Flushed(net, r, side), Other(side);
    CalledKeeps(net1, o, At(net1.routes[r], o), CallClose(Id(net1.routes[r], o)));
    var net2 := Called(net1, o, At(net1.routes[r], o), CallClose(Id(net1.routes[r], o)));
    net2.(routes := net2.routes[r := WithFin(net2.routes[r], side)])
  }

  lemma SameCounts(net: Net, net': Net, R: Route)
    requires Steady(net, net') && R.edge < |net.edges| && R.worker < |net.workers|
    ensures R.edge < |net'.edges| && R.worker < |net'.workers|
  {
  }

  /** Exactly when bytes are cut off: after the other end is closed nothing is pending if and only if the
      destination could take all that was pending before. */
  lemma CutOffExactly(net: Net, r: nat, side: Side)
    requires Placed(net, r)
    ensures Pend(DirectionEnded(net, r, side).routes[r], side) == [] <==> Drains(net, r, side)
  {
    hide Flushed, Drains, Called;
    FlushedExactly(net, r, side);
    var net1, o := Flushed(net, r, side), Other(side);
    CalledKeeps(net1, o, At(net1.routes[r], o), CallClose(Id(net1.routes[r], o)));
  }

  lemma SoundPlaced(net: Net, r: nat)
    requires Sound(net) && r in net.routes
    ensures Placed(net, r)
  {
    hide Sound;
    SoundEnds(net, r, Up);
  }

  lemma EnteredPlaced(net: Net, r: nat, side: Side)
    requires r in net.routes && Entered(net, r, side) && Entered(net, r, Other(side))
    ensures Placed(net, r) && forall e: Side :: Entered(net, r, e) && End(net, r, e) == Src(net, r, e)
  {
  }

  /** Freeing a route leaves the sessions alone. */
  lemma FreedEnds(net: Net, r: nat, R: Route, e: Side)
    requires r in net.routes && Entered(net, r, Up) && Entered(net, r, Down) && At(R, e) < |TunnelsOf(net, e)|
    ensures At(R, e) < |TunnelsOf(Freed(net, r), e)|
    ensures TunnelsOf(Freed(net, r), e)[At(R, e)].n == TunnelsOf(net, e)[At(R, e)].n
  {
    hide Freed;
    FreedTables(net, r, e, At(R, e));
  }

  /** Everything that was delivered at one end of `R` was accepted at the other. */
  predicate AllWent(net: Net, R: Route, side: Side) {
    && At(R, side) < |TunnelsOf(net, side)| && At(R, Other(side)) < |TunnelsOf(net, Other(side))|
    && Wrote(TunnelsOf(net, Other(side))[At(R, Other(side))].n, Id(R, Other(side)))
       == Got(TunnelsOf(net, side)[At(R, side)].n, Id(R, side))
  }

  lemma AllWentExactly(net: Net, r: nat, R: Route, side: Side)
    requires Sound(net) && r in net.routes
    requires forall e: Side :: At(net.routes[r], e) == At(R, e) && Id(net.routes[r], e) == Id(R, e)
    ensures AllWent(net, R, side) <==> Pend(net.routes[r], side) == []
  {
    hide Sound, Got;
    PendingIsMissing(net, r, side);
  }

  lemma FreedWent(net: Net, r: nat, R: Route, side: Side)
    requires r in net.routes && Entered(net, r, Up) && Entered(net, r, Down) && R.edge < |net.edges|
             && R.worker < |net.workers|
    ensures AllWent(Freed(net, r), R, side) <==> AllWent(net, R, side)
  {
    hide Freed, Got;
    FreedEnds(net, r, R, Up);
    FreedEnds(net, r, R, Down);
  }

  lemma EndedPlace(net: Net, r: nat, side: Side)
    requires Placed(net, r)
    ensures forall e: Side :: At(DirectionEnded(net, r, side).routes[r], e) == At(net.routes[r], e)
                              && Id(DirectionEnded(net, r, side).routes[r], e) == Id(net.routes[r], e)
  {
    hide Flushed, Called;
    FlushedPlace(net, r, side);
    var net1, o := Flushed(net, r, side), Other(side);
    CalledKeeps(net1, o, At(net1.routes[r], o), CallClose(Id(net1.routes[r], o)));
  }

  lemma {:induction false} FlushedPlace(net: Net, r: nat, side: Side)
    requires Placed(net, r)
    ensures forall e: Side :: At(Flushed(net, r, side).routes[r], e) == At(net.routes[r], e)
                              && Id(Flushed(net, r, side).routes[r], e) == Id(net.routes[r], e)
    decreases |Pend(net.routes[r], side)|
  {
    hide Pushes;
    var p := Pend(net.routes[r], side);
    if p != [] {
      var (net1, w) := Pushes(net, r, side, p);
      if 0 < w <= |p| {
        BufferEnds(net1, r, side, p[w..]);
        FlushedPlace(WithBuffer(net1, r, side, p[w..]), r, side);
      }
    }
  }

  /** On a sound network "nothing is pending" and "everything delivered was accepted" are the same. */
  lemma PendingIsMissing(net: Net, r: nat, side: Side)
    requires Sound(net) && r in net.routes
    ensures Placed(net, r)
    ensures var R, o := net.routes[r], Other(side);
            Pend(R, side) == [] <==> Wrote(End(net, r, o), Id(R, o)) == Got(End(net, r, side), Id(R, side))
  {
    hide Sound, Busy, Got, Waiting;
    Working(net, r, side);
    EnteredPlaced(net, r, side);
  }
}
