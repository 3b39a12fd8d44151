/** What a stream of the peer client shows of its end, against what its session reported of it. */
module PeerEnds {
  import opened Wire
  import opened Session
  import opened Trace
  import opened Node
  import opened NodeRuns
  import opened HostWake
  import opened Splice
  import opened PeerDesk
  import opened PeerFlow
  import opened PeerLaws

  ghost predicate HeardReset(n: Node, sid: Sid) { exists code :: StreamReset(sid, code) in n.popped }

  ghost predicate HeardEnd(n: Node, sid: Sid) { StreamClosed(sid) in n.popped || HeardReset(n, sid) }

  /** A stream is over once it is reset or finished both ways. One of this session is at its end once a
      STREAM_CLOSED or STREAM_RESET of it was taken, and reset once the latter was; one left over is at its end and
      over, hence reset unless it was finished both ways. */
  ghost predicate EndOk(n: Node, st: Lp) {
    && (st.protoDone <==> st.reset || (st.eof && st.finSent))
    && if st.inReg then (st.eof <==> HeardEnd(n, st.sid)) && (st.reset <==> HeardReset(n, st.sid))
       else st.eof && st.protoDone
  }

  ghost predicate Ends(n: Node, all: map<nat, Lp>) { forall x :: x in all ==> EndOk(n, all[x]) }

  /** Nothing that the end depends on differs. */
  predicate SameEnd(a: Lp, b: Lp) {
    b.sid == a.sid && b.inReg == a.inReg && b.eof == a.eof && b.reset == a.reset && b.protoDone == a.protoDone
        && b.finSent == a.finSent
  }

  lemma EndsPut(n: Node, all: map<nat, Lp>, x: nat, st: Lp)
    requires Ends(n, all) && x in all && SameEnd(all[x], st)
    ensures Ends(n, all[x := st])
  {
    hide HeardEnd, HeardReset;
  }

  lemma EndsStep(n: Node, st: Step, all: map<nat, Lp>)
    requires Inv(n) && GoodConfig(n.s.cfg) && Enabled(n, st) && st != HostCall(CallPop) && Ends(n, all)
    ensures Ends(Next(n, st), all)
  {
    hide Inv, Next, Enabled;
    StepLonger(n, st);
  }

  lemma EndsCall(n: Node, c: Call, all: map<nat, Lp>, x: nat, st: Lp)
    requires Inv(n) && GoodConfig(n.s.cfg) && (c.CallWrite? || c.CallConsume?) && Ends(n, all)
    requires x in all && SameEnd(all[x], st)
    ensures Ends(Next(n, HostCall(c)), all[x := st])
  {
    hide Ends, Inv, Next;
    EndsStep(n, HostCall(c), all);
    EndsPut(Next(n, HostCall(c)), all, x, st);
  }

  /** The FIN: with the peer's end taken already, the stream is over. */
  lemma EndsFin(n: Node, all: map<nat, Lp>, x: nat)
    requires Inv(n) && GoodConfig(n.s.cfg) && Ends(n, all) && x in all
    ensures var st := all[x];
            Ends(Next(n, HostCall(CallClose(st.sid))),
                 all[x := st.(finSent := true, protoDone := st.protoDone || st.eof)])
  {
    hide Inv, Next;
    EndsStep(n, HostCall(CallClose(all[x].sid)), all);
    hide HeardEnd, HeardReset;
  }

  lemma EndsFree(n: Node, all: map<nat, Lp>, x: nat)
    requires Ends(n, all)
    ensures Ends(n, all - {x})
  {
    hide EndOk;
  }

  /** A step that concerns no stream of the desk ends none. */
  lemma EndsAside(n: Node, st: Step, d: Desk)
    requires Inv(n) && GoodConfig(n.s.cfg) && Enabled(n, st) && RegOk(d) && Ends(n, d.all) && OnlyNone(n, st, d)
    ensures Ends(Next(n, st), d.all)
  {
    hide Inv, Next, Enabled, Ends, RegOk;
    if st == HostCall(CallPop) {
      EndsPop(n, d);
    } else {
      EndsStep(n, st, d.all);
    }
  }

  lemma EndsPop(n: Node, d: Desk)
    requires GoodConfig(n.s.cfg) && RegOk(d) && Ends(n, d.all)
    requires n.s.events != [] && About(n.s.events[0]) ==> n.s.events[0].sid !in d.reg
    ensures Ends(Next(n, HostCall(CallPop)), d.all)
  {
    var n' := DoPop(n);
    PopIsDo(n);
    forall sid | sid in d.reg
      ensures HeardEnd(n', sid) == HeardEnd(n, sid) && HeardReset(n', sid) == HeardReset(n, sid)
    {
      PopHears(n, sid);
    }
    hide DoPop, HeardEnd, HeardReset;
    forall x | x in d.all ensures EndOk(n', d.all[x]) {
      assert EndOk(n, d.all[x]);
    }
  }

  /** Taking bytes or a WRITABLE ends no stream. */
  lemma EndsTold(n: Node, all: map<nat, Lp>, x: nat, st: Lp)
    requires GoodConfig(n.s.cfg) && Ends(n, all) && x in all && SameEnd(all[x], st)
    requires n.s.events != [] ==> !n.s.events[0].StreamClosed? && !n.s.events[0].StreamReset?
    ensures Ends(Next(n, HostCall(CallPop)), all[x := st])
  {
    var n' := DoPop(n);
    PopIsDo(n);
    forall sid ensures HeardEnd(n', sid) == HeardEnd(n, sid) && HeardReset(n', sid) == HeardReset(n, sid) {
      PopHears(n, sid);
    }
    hide DoPop, HeardEnd, HeardReset;
  }

  lemma PopIsDo(n: Node)
    requires GoodConfig(n.s.cfg)
    ensures Next(n, HostCall(CallPop)) == DoPop(n)
  {
    hide DoPop;
  }

  /** The ends heard after a pop are those before it, and that of the event taken. */
  lemma PopHears(n: Node, sid: Sid)
    ensures var n' := DoPop(n);
            && (HeardReset(n', sid) <==>
                HeardReset(n, sid) || (n.s.events != [] && n.s.events[0].StreamReset? && n.s.events[0].sid == sid))
            && (HeardEnd(n', sid) <==>
                HeardEnd(n, sid) || (n.s.events != [] && (n.s.events[0].StreamClosed? || n.s.events[0].StreamReset?)
                                     && n.s.events[0].sid == sid))
  {
    var n' := DoPop(n);
    if n.s.events != [] {
      var e := n.s.events[0];
      assert n'.popped == n.popped + [e];
      if e.StreamReset? && e.sid == sid {
        assert StreamReset(sid, e.code) in n'.popped;
      }
      if HeardReset(n, sid) {
        var code :| StreamReset(sid, code) in n.popped;
        assert StreamReset(sid, code) in n'.popped;
      }
    }
  }

  /** A stream's record once its end was taken. */
  function AtEnd(st: Lp, e: Event): Lp {
    if e.StreamReset? then st.(reset := true, eof := true, protoDone := true)
    else st.(eof := true, protoDone := st.protoDone || st.finSent)
  }

  lemma EndTaken(n: Node, st: Lp)
    requires n.s.events != [] && (n.s.events[0].StreamClosed? || n.s.events[0].StreamReset?)
    requires EndOk(n, st) && st.inReg && st.sid == n.s.events[0].sid
    ensures EndOk(DoPop(n), AtEnd(st, n.s.events[0]))
  {
    PopHears(n, st.sid);
    hide DoPop, HeardEnd, HeardReset;
  }

  lemma OtherEnd(n: Node, st: Lp)
    requires n.s.events != [] && (n.s.events[0].StreamClosed? || n.s.events[0].StreamReset?)
    requires EndOk(n, st) && (st.inReg ==> st.sid != n.s.events[0].sid)
    ensures EndOk(DoPop(n), st)
  {
    PopHears(n, st.sid);
    hide DoPop, HeardEnd, HeardReset;
  }

  /** STREAM_CLOSED or STREAM_RESET: the end of that stream and of no other. */
  lemma EndsEnd(n: Node, d: Desk, x: nat)
    requires GoodConfig(n.s.cfg) && Ends(n, d.all) && RegOk(d) && n.s.events != []
    requires n.s.events[0].StreamClosed? || n.s.events[0].StreamReset?
    requires x in d.all && d.all[x].inReg && d.all[x].sid == n.s.events[0].sid
    ensures Ends(Next(n, HostCall(CallPop)), d.all[x := AtEnd(d.all[x], n.s.events[0])])
  {
    hide DoPop, EndOk, AtEnd;
    PopIsDo(n);
    var all := d.all[x := AtEnd(d.all[x], n.s.events[0])];
    forall y | y in all ensures EndOk(DoPop(n), all[y]) {
      if y == x {
        EndTaken(n, d.all[x]);
      } else {
        OtherEnd(n, d.all[y]);
      }
    }
  }

  /** A stream that is just opened has not ended. */
  lemma EndsOpened(n: Node, d: Desk, x: nat)
    requires OpensOk(n) && GoodConfig(n.s.cfg) && Ends(n, d.all) && n.s.events != [] && n.s.events[0].StreamOpened?
    ensures Ends(Next(n, HostCall(CallPop)), PeerDesk.Entered(d, x, n.s.events[0].sid).all)
  {
    hide OpensOk;
    var sid := n.s.events[0].sid;
    OpeningIsNew(n);
    NotClosed(n.popped, sid);
    PopIsDo(n);
    var n' := DoPop(n);
    forall y ensures HeardEnd(n', y) == HeardEnd(n, y) && HeardReset(n', y) == HeardReset(n, y) {
      PopHears(n, y);
    }
    hide DoPop;
  }

  lemma {:induction false} NotClosed(log: seq<Event>, sid: Sid)
    requires !Hear(log, sid).closed
    ensures StreamClosed(sid) !in log
    decreases |log|
  {
    if log != [] {
      NotClosed(log[..|log| - 1], sid);
      assert log == log[..|log| - 1] + [log[|log| - 1]];
    }
  }

  /** With the session gone every stream is at its end. */
  lemma EndsDown(n: Node, a: map<nat, Lp>, b: map<nat, Lp>, poll: bool)
    requires Ends(n, a) && AllDowned(a, b, poll)
    ensures Ends(n, b) && forall x :: x in b ==> !b[x].inReg
  {
    forall x | x in b ensures EndOk(n, b[x]) && !b[x].inReg {
      assert x in a && EndOk(n, a[x]);
      assert b[x] == Downed(a[x], poll);
    }
  }

  lemma EndsUp(n: Node, n': Node, all: map<nat, Lp>)
    requires Ends(n, all) && forall x :: x in all ==> !all[x].inReg
    ensures Ends(n', all)
  {
    forall x | x in all ensures EndOk(n', all[x]) {
      assert EndOk(n, all[x]);
    }
  }

  lemma EndShown(n: Node, all: map<nat, Lp>, x: nat)
    requires Ends(n, all) && x in all
    ensures var st := all[x];
            if st.inReg then
              && (st.eof <==> HeardEnd(n, st.sid)) && (st.reset <==> HeardReset(n, st.sid))
              && (st.eof && !st.reset ==> StreamClosed(st.sid) in n.popped)
            else
              st.eof
  {
    hide HeardReset;
    assert EndOk(n, all[x]);
  }

  lemma MovesEnd(a: Lp, b: Lp, more: seq<Byte>, got: seq<Byte>)
    requires Moves(a, b, more, got)
    ensures SameEnd(a, b)
  {
  }

  /** With the receive buffer empty the application has all that the session delivered. */
  lemma AllTaken(n: Node, d: Desk, w: map<nat, seq<Byte>>, t: map<nat, seq<Byte>>, meddled: set<Sid>, x: nat)
    requires Rested(n, d, [], w, t, meddled) && x in d.all && Ours(d.all[x], meddled) && d.all[x].rbuf == []
    ensures x in t && t[x] == Got(n, d.all[x].sid)
  {
    hide DeskOk, Tied, Unused, Got, Waiting;
    assert LpFlow(n, d.all[x], w[x], t[x]);
  }

  lemma NoneLeft(d: Desk)
    requires DeskOk(d, []) && d.reg == map[]
    ensures forall x :: x in d.all ==> !d.all[x].inReg
  {
    hide PendingOk, ReadyOk, AppOk;
  }

  // ---------------------------------------------------------------- what the application sees of an event

  /** A stream's end is shown and its reader told, or the stream was closed and is gone. */
  ghost predicate EndSeen(d: Desk, d': Desk, x: nat, poll: bool)
    requires x in d.all
  {
    && OthersSame(d.all, d'.all, x)
    && (if x in d'.all then d'.all[x].eof && d'.all[x].rbuf == d.all[x].rbuf && (poll ==> x in d'.ready)
        else d.all[x].appClosed && d.all[x].sid !in d'.reg)
  }

  ghost predicate Heeded(d: Desk, d': Desk, e: Event, poll: bool, name: nat) {
    && (e.StreamOpened? || (About(e) && e.sid in d.reg) || d' == d)
    && (About(e) && e.sid in d.reg ==> d.reg[e.sid] in d.all)
    && match e
       case StreamOpened(sid, _) =>
         && name in d'.all && sid in d'.reg && d'.reg[sid] == name && d'.accept == d.accept + [name]
         && d'.all[name].rbuf == [] && d'.all[name].wbuf == [] && OthersSame(d.all, d'.all, name)
       case StreamData(sid, data) =>
         sid in d.reg ==>
           var x := d.reg[sid];
           && x in d'.all && d'.all[x] == d.all[x].(rbuf := d.all[x].rbuf + data, inReady := d'.all[x].inReady)
           && (poll ==> x in d'.ready) && OthersSame(d.all, d'.all, x)
       case StreamClosed(sid) =>
         sid in d.reg ==>
           var x := d.reg[sid]; EndSeen(d, d', x, poll) && (x in d'.all ==> d'.all[x].reset == d.all[x].reset)
       case StreamReset(sid, _) =>
         sid in d.reg ==> var x := d.reg[sid]; EndSeen(d, d', x, poll) && (x in d'.all ==> d'.all[x].reset)
       case Writable(sid) =>
         sid in d.reg ==>
           var x := d.reg[sid];
           && x in d'.all && d'.all[x] == d.all[x].(inPending := d'.all[x].inPending)
           && (d.all[x].wbuf != [] ==> x in d'.pending) && OthersSame(d.all, d'.all, x)
       case _ => true
  }

  lemma ReadiedTold(d: Desk, x: nat, poll: bool)
    requires x in d.all && (d.all[x].inReady ==> x in d.ready)
    ensures var d' := Readied(d, x, poll);
            && x in d'.all && (poll ==> x in d'.ready) && OthersSame(d.all, d'.all, x)
            && d'.all[x] == d.all[x].(inReady := poll || d.all[x].inReady)
  {
  }

  lemma EndedSeen(d: Desk, x: nat, st: Lp, poll: bool)
    requires RegOk(d) && ReadyOk(d) && x in d.all && d.all[x].inReg
    requires st == d.all[x].(eof := true, reset := st.reset, protoDone := st.protoDone)
    ensures var d' := NoticedEnd(d, x, st, poll);
            EndSeen(d, d', x, poll) && (x in d'.all ==> d'.all[x].reset == st.reset)
  {
    hide RegOk, MayFree;
    assert d.all[x].inReady ==> x in d.ready;
    ReadiedTold(Put(d, x, st), x, poll);
    if MayFree(Readied(Put(d, x, st), x, poll).all[x]) {
      MayFreeClosed(Readied(Put(d, x, st), x, poll).all[x]);
    }
    hide Readied, ReadyOk;
  }

  lemma MayFreeClosed(st: Lp)
    requires MayFree(st)
    ensures st.appClosed && !st.inReady
  {
  }

  lemma NoticedRest(d: Desk, e: Event, poll: bool, name: nat)
    ensures !e.StreamOpened? && !About(e) ==> Noticed(d, e, poll, name) == d
  {
  }

  lemma DataHeeds(d: Desk, sid: Sid, data: seq<Byte>, poll: bool, name: nat)
    requires RegOk(d) && ReadyOk(d) && sid in d.reg
    ensures Heeded(d, Noticed(d, StreamData(sid, data), poll, name), StreamData(sid, data), poll, name)
  {
    var x := d.reg[sid];
    var st := d.all[x].(rbuf := d.all[x].rbuf + data);
    assert st.inReady ==> x in d.ready;
    ReadiedTold(Put(d, x, st), x, poll);
    PutOthers(d.all, x, st);
    OthersTrans(d.all, d.all[x := st], Readied(Put(d, x, st), x, poll).all, x);
    hide Readied, RegOk, ReadyOk, NoticedEnd, EndSeen, OthersSame;
  }

  lemma EndHeeds(d: Desk, e: Event, poll: bool, name: nat)
    requires RegOk(d) && ReadyOk(d) && (e.StreamClosed? || e.StreamReset?) && e.sid in d.reg
    ensures Heeded(d, Noticed(d, e, poll, name), e, poll, name)
  {
    var x := d.reg[e.sid];
    assert x in d.all && d.all[x].inReg;
    EndedSeen(d, x, AtEnd(d.all[x], e), poll);
    hide RegOk, ReadyOk, NoticedEnd, EndSeen;
  }

  lemma WritableHeeds(d: Desk, sid: Sid, poll: bool, name: nat)
    requires RegOk(d) && PendingOk(d, []) && sid in d.reg
    ensures Heeded(d, Noticed(d, Writable(sid), poll, name), Writable(sid), poll, name)
  {
    var x := d.reg[sid];
    assert x in d.all && (d.all[x].inPending ==> x in d.pending);
    hide RegOk, PendingOk, NoticedEnd, EndSeen;
  }

  lemma NoticedHeeds(d: Desk, e: Event, poll: bool, name: nat)
    requires DeskOk(d, [])
    ensures Heeded(d, Noticed(d, e, poll, name), e, poll, name)
  {
    hide AppOk, RegOk, ReadyOk, PendingOk;
    if About(e) && e.sid in d.reg {
      hide Heeded, Noticed;
      match e
      case StreamData(sid, data) => DataHeeds(d, sid, data, poll, name);
      case Writable(sid) => WritableHeeds(d, sid, poll, name);
      case StreamClosed(_) => EndHeeds(d, e, poll, name);
      case StreamReset(_, _) => EndHeeds(d, e, poll, name);
    } else {
      hide EndSeen, NoticedEnd, Readied;
    }
  }

  // ---------------------------------------------------------------- work owed

  /** Credit for what was read, and a FIN that is due, are on the work list. */
  predicate OwedOk(st: Lp) { st.inReg && (st.consumePending > 0 || FinDue(st)) ==> st.inPending }

  /** So it is of every stream, save perhaps those in `skip`. */
  ghost predicate Owed(all: map<nat, Lp>, skip: set<nat>) { forall x :: x in all && x !in skip ==> OwedOk(all[x]) }

  lemma OwedPut(all: map<nat, Lp>, skip: set<nat>, x: nat, st: Lp)
    requires Owed(all, skip) && (x in skip || OwedOk(st))
    ensures Owed(all[x := st], skip)
  {
    hide OwedOk;
  }

  lemma OwedSkip(all: map<nat, Lp>, x: nat)
    requires Owed(all, {}) && x in all
    ensures Owed(all, {x}) && OwedOk(all[x])
  {
    hide OwedOk;
  }

  lemma OwedDone(all: map<nat, Lp>, x: nat)
    requires Owed(all, {x}) && (x in all ==> OwedOk(all[x]))
    ensures Owed(all, {})
  {
    hide OwedOk;
  }

  lemma OwedFree(all: map<nat, Lp>, x: nat)
    requires Owed(all, {x})
    ensures Owed(all - {x}, {})
  {
    hide OwedOk;
  }

  /** Whatever changes, the stream is on the list afterwards. */
  lemma OwedTwice(all: map<nat, Lp>, x: nat, st: Lp)
    requires Owed(all, {})
    ensures Owed(all[x := st][x := st.(inPending := true)], {}) && (st.inPending ==> Owed(all[x := st], {}))
  {
  }

  lemma OwedOpened(d: Desk, x: nat, sid: Sid)
    requires Owed(d.all, {})
    ensures Owed(PeerDesk.Entered(d, x, sid).all, {})
  {
  }

  lemma OwedNone(all: map<nat, Lp>)
    requires forall x :: x in all ==> !all[x].inReg
    ensures Owed(all, {})
  {
  }

  // ---------------------------------------------------------------- the accept queue

  /** Streams are named as they are opened, so the oldest has the least name. */
  predicate Ascends(accept: seq<nat>) { forall i, j :: 0 <= i < j < |accept| ==> accept[i] < accept[j] }

  lemma AscendsMore(accept: seq<nat>, x: nat)
    requires Ascends(accept) && forall y :: y in accept ==> y < x
    ensures Ascends(accept + [x])
  {
    assert forall i :: 0 <= i < |accept| ==> accept[i] in accept;
  }

  lemma AcceptLive(n: Node, d: Desk, w: map<nat, seq<Byte>>, t: map<nat, seq<Byte>>, meddled: set<Sid>)
    requires Rested(n, d, [], w, t, meddled)
    ensures forall x :: x in d.accept ==> x in d.all
  {
    hide Tied, Flows, PendingOk, ReadyOk, RegOk;
  }
}
