/** The laws of the peer client, step by step: what working on one stream does to the rest. */
module PeerLaws {
  import opened Wire
  import opened Codec
  import opened Session
  import opened Trace
  import opened Node
  import opened NodeRuns
  import opened HostWake
  import opened Splice
  import opened Hosting
  import opened PeerDesk
  import opened PeerFlow
  import opened Meddling

  const WBUF_HIGH := 0x10_0000

  /** Stream `x` is being worked on; everything else is in order. */
  ghost predicate Working(n: Node, d: Desk, extra: seq<nat>, w: map<nat, seq<Byte>>, t: map<nat, seq<Byte>>,
                          meddled: set<Sid>, x: nat) {
    && x in d.all && DeskBut(d, extra, x) && Tied(n, d)
    && FlowsBut(n, d, meddled, w, t, x) && (Ours(d.all[x], meddled) ==> Balanced(n, d.all[x], w[x], t[x]))
  }

  ghost predicate Rested(n: Node, d: Desk, extra: seq<nat>, w: map<nat, seq<Byte>>, t: map<nat, seq<Byte>>,
      meddled: set<Sid>) {
    DeskOk(d, extra) && Tied(n, d) && Flows(n, d, meddled, w, t)
  }

  lemma WorkingSid(n: Node, d: Desk, extra: seq<nat>, w: map<nat, seq<Byte>>, t: map<nat, seq<Byte>>, meddled: set<Sid>,
      x: nat)
    requires Working(n, d, extra, w, t, meddled, x)
    ensures Inv(n) && GoodConfig(n.s.cfg) && RegOk(d) && (Ours(d.all[x], meddled) ==> Used(n, d.all[x].sid))
  {
    hide Inv, PendingOk, ReadyOk, AppOk, NoZombieBut, Balanced, LpFlow, Unused;
    if Ours(d.all[x], meddled) {
      assert Mine(n, true, d.all[x].sid);
    }
  }

  /** The call works on the stream's own id, on one already counted as meddled with, or moves nothing. */
  predicate Permitted(s: Session, d: Desk, meddled: set<Sid>, x: nat, c: Call)
    requires x in d.all
  {
    Entitled(d.all[x], meddled) || !Harms(s, FinOf(d, d.all[x].sid), c)
  }

  /** A session call for the stream, and the change of its record that goes with it. */
  lemma WorkCall(n: Node, c: Call, d: Desk, extra: seq<nat>, w: map<nat, seq<Byte>>, t: map<nat, seq<Byte>>,
                 meddled: set<Sid>, x: nat, st: Lp)
    requires Working(n, d, extra, w, t, meddled, x) && Only(n, HostCall(c), d.all[x].sid) && !c.CallOpen? && !c.CallPop?
    requires SamePlace(d.all[x], st) && ForStream(c, st.sid) && Permitted(n.s, d, meddled, x, c)
    requires Ours(st, meddled) ==>
               GoodConfig(n.s.cfg) && x in w && x in t && Balanced(Next(n, HostCall(c)), st, w[x], t[x])
    ensures GoodConfig(n.s.cfg) && Working(Next(n, HostCall(c)), Put(d, x, st), extra, w, t, meddled, x)
  {
    hide Next, DeskBut, Balanced, FlowsBut, Tied, Harms;
    WorkingSid(n, d, extra, w, t, meddled, x);
    TiedStep(n, HostCall(c), d);
    PutOk(d, extra, x, st, x);
    if Entitled(d.all[x], meddled) {
      FlowsStep(n, HostCall(c), d, meddled, w, t, x);
    } else {
      StepIsDo(n, c);
      HarmlessFlows(n, c, d, meddled, w, t, x);
    }
    PutFlows(Next(n, HostCall(c)), d, meddled, w, t, x, st);
    PutTied(Next(n, HostCall(c)), d, x, st);
  }

  lemma PutFlows(n: Node, d: Desk, meddled: set<Sid>, w: map<nat, seq<Byte>>, t: map<nat, seq<Byte>>, x: nat, st: Lp)
    requires FlowsBut(n, d, meddled, w, t, x) && x in d.all && st.inReg == d.all[x].inReg && st.sid == d.all[x].sid
    ensures FlowsBut(n, Put(d, x, st), meddled, w, t, x)
  {
    hide LpFlow, Unused;
  }

  lemma PutTied(n: Node, d: Desk, x: nat, st: Lp)
    requires Tied(n, d)
    ensures Tied(n, Put(d, x, st))
  {
    hide Inv, Mine, OpensOk;
  }

  /** A change of the record alone. */
  lemma WorkPut(n: Node, d: Desk, extra: seq<nat>, w: map<nat, seq<Byte>>, t: map<nat, seq<Byte>>, meddled: set<Sid>,
      x: nat, st: Lp)
    requires Working(n, d, extra, w, t, meddled, x) && SamePlace(d.all[x], st)
    requires Ours(st, meddled) ==> x in w && x in t && Balanced(n, st, w[x], t[x])
    ensures Working(n, Put(d, x, st), extra, w, t, meddled, x)
  {
    hide DeskBut, Balanced, FlowsBut, Tied;
    PutOk(d, extra, x, st, x);
    PutTied(n, d, x, st);
    PutFlows(n, d, meddled, w, t, x, st);
  }

  /** ready_mark of the stream worked on. */
  lemma WorkReady(n: Node, d: Desk, extra: seq<nat>, w: map<nat, seq<Byte>>, t: map<nat, seq<Byte>>, meddled: set<Sid>,
      x: nat, poll: bool)
    requires Working(n, d, extra, w, t, meddled, x)
    ensures Working(n, Readied(d, x, poll), extra, w, t, meddled, x)
    ensures SameButReady(d.all[x], Readied(d, x, poll).all[x])
  {
    hide DeskBut, FlowsBut, Tied;
    ReadiedOk(d, extra, x, poll, x);
    ReadiedFlows(n, d, meddled, w, t, x, poll);
  }

  lemma ReadiedFlows(n: Node, d: Desk, meddled: set<Sid>, w: map<nat, seq<Byte>>, t: map<nat, seq<Byte>>, x: nat,
      poll: bool)
    requires x in d.all
    ensures FlowsBut(n, d, meddled, w, t, x) ==> FlowsBut(n, Readied(d, x, poll), meddled, w, t, x)
    ensures Tied(n, d) ==> Tied(n, Readied(d, x, poll))
  {
    hide LpFlow, Unused, Inv, Mine, OpensOk;
  }

  /** The work is over: the stream is freed if it may be, and everything is in order. */
  lemma WorkDone(n: Node, d: Desk, extra: seq<nat>, w: map<nat, seq<Byte>>, t: map<nat, seq<Byte>>, meddled: set<Sid>,
      x: nat)
    requires Working(n, d, extra, w, t, meddled, x)
    requires Ours(d.all[x], meddled) ==> x in w && x in t && LpFlow(n, d.all[x], w[x], t[x])
    ensures Rested(n, TryFreed(d, x), extra, w, t, meddled)
    ensures x !in TryFreed(d, x).all ==> Unreferenced(TryFreed(d, x), extra, x) && Done(d.all[x])
  {
    hide DeskBut, DeskOk, LpFlow, Unreferenced, MayFree, Done;
    TryFreedOk(d, extra, x);
    FreedFlows(n, d, w, t, x, meddled);
  }

  lemma FreedFlows(n: Node, d: Desk, w: map<nat, seq<Byte>>, t: map<nat, seq<Byte>>, x: nat, meddled: set<Sid>)
    requires x in d.all && Tied(n, d)
    requires FlowsBut(n, d, meddled, w, t, x) && (Ours(d.all[x], meddled) ==> LpFlow(n, d.all[x], w[x], t[x]))
    ensures Tied(n, TryFreed(d, x)) && Flows(n, TryFreed(d, x), meddled, w, t)
  {
    hide LpFlow, Unused, Inv, Mine, OpensOk, MayFree;
  }

  /** pending_push ends the work too. */
  lemma WorkPushed(n: Node, d: Desk, extra: seq<nat>, w: map<nat, seq<Byte>>, t: map<nat, seq<Byte>>, meddled: set<Sid>,
      x: nat)
    requires Working(n, d, extra, w, t, meddled, x)
    ensures Rested(n, Pushed(d, x), extra, w, t, meddled)
  {
    hide DeskBut, DeskOk, Balanced;
    PushedOk(d, extra, x);
    PushedFlows(n, d, w, t, x, meddled);
  }

  lemma PushedFlows(n: Node, d: Desk, w: map<nat, seq<Byte>>, t: map<nat, seq<Byte>>, x: nat, meddled: set<Sid>)
    requires x in d.all && Tied(n, d)
    requires FlowsBut(n, d, meddled, w, t, x) && (Ours(d.all[x], meddled) ==> Balanced(n, d.all[x], w[x], t[x]))
    ensures Tied(n, Pushed(d, x)) && Flows(n, Pushed(d, x), meddled, w, t)
  {
    hide Unused, Inv, Mine, OpensOk, Got;
  }

  /** Work begins on any stream of a desk in order. */
  lemma WorkBegins(n: Node, d: Desk, extra: seq<nat>, w: map<nat, seq<Byte>>, t: map<nat, seq<Byte>>, meddled: set<Sid>,
      x: nat)
    requires Rested(n, d, extra, w, t, meddled) && x in d.all
    ensures Working(n, d, extra, w, t, meddled, x)
  {
    hide PendingOk, ReadyOk, AppOk, RegOk, Tied, Unused, Balanced, Waiting;
  }

  /** The stream after the session took `k` bytes, or none. */
  function Unsent(st: Lp, k: int): Lp
    requires k <= |st.wbuf|
  {
    st.(wbuf := st.wbuf[if k > 0 then k else 0..])
  }

  /** The stream after the FIN step: the FIN is sent once the application is done and all is accepted. */
  function Finned(st: Lp): Lp {
    if FinDue(st) then st.(finSent := true, protoDone := st.protoDone || st.eof) else st
  }

  predicate FinDue(st: Lp) { st.appClosed && !st.finSent && st.wbuf == [] }

  /** A stream's queued work is done: its reads are credited, and it is finished if nothing is left to send. */
  predicate Served(st: Lp) { st.consumePending == 0 && !FinDue(st) }

  /** The first `i` of a list are served, or freed. */
  ghost predicate ServedUpTo(all: map<nat, Lp>, xs: seq<nat>, i: nat) {
    i <= |xs| && forall j :: 0 <= j < i && xs[j] in all ==> Served(all[xs[j]])
  }

  lemma ServedMore(a: map<nat, Lp>, b: map<nat, Lp>, xs: seq<nat>, i: nat)
    requires ServedUpTo(a, xs, i) && i < |xs| && OthersSame(a, b, xs[i]) && (xs[i] in b ==> Served(b[xs[i]]))
    ensures ServedUpTo(b, xs, i + 1)
  {
    hide Served;
  }

  /** What an event does to the desk; `name` names a new stream. */
  function Noticed(d: Desk, e: Event, poll: bool, name: nat): Desk {
    match e
    case StreamOpened(sid, _) => PeerDesk.Entered(d, name, sid)
    case StreamData(sid, data) =>
      if sid in d.reg && d.reg[sid] in d.all
      then var st := d.all[d.reg[sid]]; Readied(Put(d, d.reg[sid], st.(rbuf := st.rbuf + data)), d.reg[sid], poll)
      else d
    case StreamClosed(sid) =>
      if sid in d.reg && d.reg[sid] in d.all
      then var st := d.all[d.reg[sid]];
           NoticedEnd(d, d.reg[sid], st.(eof := true, protoDone := st.protoDone || st.finSent), poll)
      else d
    case StreamReset(sid, _) =>
      if sid in d.reg && d.reg[sid] in d.all
      then NoticedEnd(d, d.reg[sid], d.all[d.reg[sid]].(reset := true, eof := true, protoDone := true), poll)
      else d
    case Writable(sid) =>
      if sid in d.reg && d.reg[sid] in d.all && d.all[d.reg[sid]].wbuf != [] then Pushed(d, d.reg[sid]) else d
    case _ => d
  }

  function NoticedEnd(d: Desk, x: nat, st: Lp, poll: bool): Desk { TryFreed(Readied(Put(d, x, st), x, poll), x) }

  datatype ReadResult = Failed | Again | Bytes(data: seq<Byte>)
  datatype WriteResult = Refused | TryLater | Taken

  /** `m` bytes go to the application and are to be credited. */
  function AfterRead(st: Lp, m: nat): Lp
    requires m <= |st.rbuf|
  {
    st.(rbuf := st.rbuf[m..], consumePending := st.consumePending + m)
  }

  /** Bytes move between the application and a stream's buffers. */
  predicate Moves(a: Lp, b: Lp, more: seq<Byte>, got: seq<Byte>) {
    && b == a.(rbuf := b.rbuf, wbuf := b.wbuf, consumePending := b.consumePending)
    && b.wbuf == a.wbuf + more && (more != [] ==> !a.finSent)
    && a.rbuf == got + b.rbuf && b.consumePending == a.consumePending + |got|
  }

  /** mux_write of the unsent bytes, as far as they are taken. */
  lemma WriteAgain(n: Node, st: Lp, w: seq<Byte>, t: seq<Byte>)
    requires Inv(n) && GoodConfig(n.s.cfg) && Used(n, st.sid) && Balanced(n, st, w, t) && st.wbuf != []
    ensures var k := WriteStream(n.s, st.sid, st.wbuf).1;
            && k <= |st.wbuf|
            && Balanced(Next(n, HostCall(CallWrite(st.sid, st.wbuf))), Unsent(st, k), w, t)
  {
    hide Inv, Used, Next, WriteStream, Waiting, Got, Hear;
    WriteBalanced(n, st, w, t);
  }

  lemma WorkingFacts(n: Node, d: Desk, extra: seq<nat>, w: map<nat, seq<Byte>>, t: map<nat, seq<Byte>>,
                     meddled: set<Sid>, x: nat)
    requires Working(n, d, extra, w, t, meddled, x) && Ours(d.all[x], meddled)
    ensures x in w && x in t && Balanced(n, d.all[x], w[x], t[x])
  {
    hide DeskBut, Tied, Balanced, LpFlow, Unused;
  }

  /** Which fields the balance looks at. */
  lemma SameBalanced(n: Node, a: Lp, b: Lp, w: seq<Byte>, t: seq<Byte>)
    requires Balanced(n, a, w, t)
    requires b.sid == a.sid && b.rbuf == a.rbuf && b.consumePending == a.consumePending && b.wbuf == a.wbuf
    requires b.finSent == a.finSent && (a.appClosed ==> b.appClosed)
    ensures Balanced(n, b, w, t)
  {
    hide Got;
  }

  /** Which fields the law of a stream looks at. */
  lemma SameFlow(n: Node, a: Lp, b: Lp, w: seq<Byte>, t: seq<Byte>)
    requires LpFlow(n, a, w, t)
    requires b.sid == a.sid && b.rbuf == a.rbuf && b.consumePending == a.consumePending && b.wbuf == a.wbuf
    requires b.finSent == a.finSent && (a.appClosed ==> b.appClosed) && (a.inPending ==> b.inPending)
    ensures LpFlow(n, b, w, t)
  {
    hide Got, Tr, Waiting;
  }

  lemma Detach(n: Node, d: Desk, w: map<nat, seq<Byte>>, t: map<nat, seq<Byte>>, meddled: set<Sid>)
    requires Rested(n, d, [], w, t, meddled)
    ensures Rested(n, d.(pending := []), d.pending, w, t, meddled)
    ensures Distinct(d.pending) && forall x :: x in d.pending ==> x in d.all
  {
    hide DeskOk, Unused, LpFlow, Inv, Mine, OpensOk, Distinct;
    DetachOk(d);
    PendingListed(d);
  }

  lemma PendingListed(d: Desk)
    requires DeskOk(d, [])
    ensures Distinct(d.pending) && forall x :: x in d.pending ==> x in d.all
  {
    hide ReadyOk, AppOk, RegOk, Distinct;
    assert d.pending + [] == d.pending;
  }

  lemma Attend(n: Node, d: Desk, extra: seq<nat>, w: map<nat, seq<Byte>>, t: map<nat, seq<Byte>>, meddled: set<Sid>)
    requires Rested(n, d, extra, w, t, meddled) && extra != [] && d.pending == []
    ensures extra[0] in d.all && d.all[extra[0]].inPending
    ensures Working(n, Put(d, extra[0], d.all[extra[0]].(inPending := false)), extra[1..], w, t, meddled, extra[0])
  {
    hide DeskOk, DeskBut;
    AttendOk(d, extra);
    AttendFlows(n, d, w, t, meddled, extra[0]);
  }

  lemma AttendFlows(n: Node, d: Desk, w: map<nat, seq<Byte>>, t: map<nat, seq<Byte>>, meddled: set<Sid>, x: nat)
    requires Tied(n, d) && x in d.all && Flows(n, d, meddled, w, t)
    ensures var d' := Put(d, x, d.all[x].(inPending := false));
            && Tied(n, d')
            && FlowsBut(n, d', meddled, w, t, x) && (Ours(d'.all[x], meddled) ==> Balanced(n, d'.all[x], w[x], t[x]))
  {
    hide Unused, Inv, Mine, OpensOk, Got, Waiting;
  }

  // ---------------------------------------------------------------- the steps of process_pending

  lemma ConsumeWork(n: Node, d: Desk, extra: seq<nat>, w: map<nat, seq<Byte>>, t: map<nat, seq<Byte>>,
      meddled: set<Sid>, x: nat)
    requires Working(n, d, extra, w, t, meddled, x) && x in d.all && d.all[x].consumePending > 0
    requires Permitted(n.s, d, meddled, x, CallConsume(d.all[x].sid, d.all[x].consumePending))
    ensures var st := d.all[x];
            && GoodConfig(n.s.cfg)
            && Working(Next(n, HostCall(CallConsume(st.sid, st.consumePending))), Put(d, x, st.(consumePending := 0)),
                       extra, w, t, meddled, x)
  {
    hide Working, Next, Balanced, Permitted, Inv, RegOk, Used, SamePlace;
    WorkingSid(n, d, extra, w, t, meddled, x);
    var st := d.all[x];
    var c, st1 := CallConsume(st.sid, st.consumePending), st.(consumePending := 0);
    CreditedPlace(st);
    if Ours(st, meddled) {
      WorkingFacts(n, d, extra, w, t, meddled, x);
      ConsumeBalanced(n, st, w[x], t[x]);
    }
    WorkCall(n, c, d, extra, w, t, meddled, x, st1);
  }

  lemma CreditedPlace(st: Lp)
    ensures SamePlace(st, st.(consumePending := 0))
  {
  }

  lemma UnsentPlace(st: Lp, k: int)
    requires k <= |st.wbuf|
    ensures SamePlace(st, Unsent(st, k)) && Unsent(st, k) == st.(wbuf := Unsent(st, k).wbuf)
  {
  }

  lemma WriteWork(n: Node, d: Desk, extra: seq<nat>, w: map<nat, seq<Byte>>, t: map<nat, seq<Byte>>, meddled: set<Sid>,
      x: nat)
    requires Working(n, d, extra, w, t, meddled, x) && x in d.all && d.all[x].wbuf != []
    requires Permitted(n.s, d, meddled, x, CallWrite(d.all[x].sid, d.all[x].wbuf))
    ensures var st := d.all[x];
            var k := WriteStream(n.s, st.sid, st.wbuf).1;
            && GoodConfig(n.s.cfg) && k <= |st.wbuf|
            && var n' := Next(n, HostCall(CallWrite(st.sid, st.wbuf)));
               && Working(n', Put(d, x, Unsent(st, k)), extra, w, t, meddled, x)
               && (k < |st.wbuf| ==> Waiting(n'.s, st.sid))
  {
    WriteWaits(n.s, d.all[x].sid, d.all[x].wbuf);
    UnsentPlace(d.all[x], WriteStream(n.s, d.all[x].sid, d.all[x].wbuf).1);
    hide Working, Next, Balanced, Waiting, WriteStream, Unsent, Permitted, Inv, RegOk, Used;
    WorkingSid(n, d, extra, w, t, meddled, x);
    var st := d.all[x];
    WriteNote(n, st.sid, st.wbuf);
    var k := WriteStream(n.s, st.sid, st.wbuf).1;
    if Ours(st, meddled) {
      WorkingFacts(n, d, extra, w, t, meddled, x);
      WriteAgain(n, st, w[x], t[x]);
    }
    WorkCall(n, CallWrite(st.sid, st.wbuf), d, extra, w, t, meddled, x, Unsent(st, k));
  }

  lemma FinWork(n: Node, d: Desk, extra: seq<nat>, w: map<nat, seq<Byte>>, t: map<nat, seq<Byte>>, meddled: set<Sid>,
      x: nat)
    requires Working(n, d, extra, w, t, meddled, x) && x in d.all && FinDue(d.all[x])
    requires Permitted(n.s, d, meddled, x, CallClose(d.all[x].sid))
    ensures GoodConfig(n.s.cfg)
    ensures Working(Next(n, HostCall(CallClose(d.all[x].sid))), Put(d, x, Finned(d.all[x])), extra, w, t, meddled, x)
  {
    hide Working, Next, Balanced, Permitted, Inv, RegOk, Used;
    WorkingSid(n, d, extra, w, t, meddled, x);
    var st := d.all[x];
    if Ours(st, meddled) {
      WorkingFacts(n, d, extra, w, t, meddled, x);
      CloseBalanced(n, st, Finned(st), w[x], t[x]);
    }
    WorkCall(n, CallClose(st.sid), d, extra, w, t, meddled, x, Finned(st));
  }

  // ---------------------------------------------------------------- events

  lemma RestedSid(n: Node, d: Desk, extra: seq<nat>, w: map<nat, seq<Byte>>, t: map<nat, seq<Byte>>, meddled: set<Sid>)
    requires Rested(n, d, extra, w, t, meddled)
    ensures Inv(n) && GoodConfig(n.s.cfg) && OpensOk(n) && RegOk(d)
    ensures forall sid :: sid in d.reg ==> d.reg[sid] in d.all && d.all[d.reg[sid]].inReg
  {
    hide Inv, PendingOk, ReadyOk, AppOk, Flows, Mine, OpensOk;
  }

  lemma OpenedRested(n: Node, d: Desk, w: map<nat, seq<Byte>>, t: map<nat, seq<Byte>>, meddled: set<Sid>, x: nat)
    requires Rested(n, d, [], w, t, meddled) && x !in d.all
    requires n.s.events != [] && n.s.events[0].StreamOpened?
    ensures GoodConfig(n.s.cfg)
    ensures Rested(Next(n, HostCall(CallPop)), PeerDesk.Entered(d, x, n.s.events[0].sid), [], w[x := []], t[x := []],
            meddled)
  {
    hide DeskOk, Flows, Inv, OpensOk, Mine, Do;
    RestedSid(n, d, [], w, t, meddled);
    var sid := n.s.events[0].sid;
    var n' := Next(n, HostCall(CallPop));
    OpeningMine(n);
    NotRegistered(n, d, sid);
    EnteredOk(d, x, sid);
    TiedStep(n, HostCall(CallPop), d);
    FlowsAside(n, HostCall(CallPop), d, meddled, w, t);
    if sid !in meddled {
      OpenedSilent(n, d, meddled, w, t);
    }
    EnteredFlows(n', d, meddled, w, t, x, sid);
  }

  lemma OpenedSilent(n: Node, d: Desk, meddled: set<Sid>, w: map<nat, seq<Byte>>, t: map<nat, seq<Byte>>)
    requires OpensOk(n) && Flows(n, d, meddled, w, t) && n.s.events != [] && n.s.events[0].StreamOpened?
    requires n.s.events[0].sid !in meddled
    ensures Got(Do(n, CallPop), n.s.events[0].sid) == [] && Silent(Do(n, CallPop), n.s.events[0].sid)
  {
    hide LpFlow, OpensOk, Mine, Hear, Tr, DoWrite, DoOpen, DoClose, DoReset, DoConsume, DoCapacity, DoGoAway, DoTimer,
      DoAdvance;
    OpeningMine(n);
    assert Opening(n.s.events, n.s.events[0].sid);
  }

  lemma NotRegistered(n: Node, d: Desk, sid: Sid)
    requires Tied(n, d) && !Opening(n.popped, sid)
    ensures sid !in d.reg
  {
    hide Inv, OpensOk, Opening, Used;
  }

  lemma EnteredFlows(n: Node, d: Desk, meddled: set<Sid>, w: map<nat, seq<Byte>>, t: map<nat, seq<Byte>>, x: nat,
      sid: Sid)
    requires Flows(n, d, meddled, w, t) && x !in d.all
    requires sid !in meddled ==> Got(n, sid) == [] && Silent(n, sid)
    ensures Flows(n, PeerDesk.Entered(d, x, sid), meddled, w[x := []], t[x := []])
  {
    hide Unused, Got, Waiting, Tr;
    forall y | y in d.all && Ours(d.all[y], meddled) ensures LpFlow(n, d.all[y], w[x := []][y], t[x := []][y]) {
      assert LpFlow(n, d.all[y], w[y], t[y]);
    }
  }

  lemma DataWork(n: Node, d: Desk, w: map<nat, seq<Byte>>, t: map<nat, seq<Byte>>, meddled: set<Sid>, x: nat)
    requires Rested(n, d, [], w, t, meddled) && n.s.events != [] && n.s.events[0].StreamData?
    requires n.s.events[0].sid in d.reg && x == d.reg[n.s.events[0].sid]
    ensures x in d.all && GoodConfig(n.s.cfg)
    ensures Done(d.all[x]) ==> d.all[x].inPending || d.all[x].inReady
    ensures var st := d.all[x].(rbuf := d.all[x].rbuf + n.s.events[0].data);
            var n' := Next(n, HostCall(CallPop));
            && Working(n', Put(d, x, st), [], w, t, meddled, x)
            && (Ours(st, meddled) ==> x in w && x in t && LpFlow(n', st, w[x], t[x]))
  {
    RestedDone(n, d, w, t, meddled);
    hide Working, Next, LpFlow, Flows, DeskOk, Inv;
    RestedSid(n, d, [], w, t, meddled);
    var st := d.all[x].(rbuf := d.all[x].rbuf + n.s.events[0].data);
    var n' := Next(n, HostCall(CallPop));
    if Ours(d.all[x], meddled) {
      OneFlow(n, d, meddled, w, t, x);
      DataBalanced(n, d.all[x], w[x], t[x]);
      FlowBalanced(n', st, w[x], t[x]);
    }
    PopWork(n, d, w, t, meddled, x, st);
  }

  lemma OneFlow(n: Node, d: Desk, meddled: set<Sid>, w: map<nat, seq<Byte>>, t: map<nat, seq<Byte>>, x: nat)
    requires Tied(n, d) && RegOk(d) && Flows(n, d, meddled, w, t) && x in d.all && Ours(d.all[x], meddled)
    ensures x in w && x in t && LpFlow(n, d.all[x], w[x], t[x]) && Used(n, d.all[x].sid)
  {
    hide LpFlow, Unused, Inv, OpensOk, Used;
    assert Mine(n, true, d.all[x].sid);
  }

  lemma FlowBalanced(n: Node, st: Lp, w: seq<Byte>, t: seq<Byte>)
    requires LpFlow(n, st, w, t)
    ensures Balanced(n, st, w, t)
  {
  }

  /** Taking an event for stream `x`, whose record changes with it. */
  lemma PopWork(n: Node, d: Desk, w: map<nat, seq<Byte>>, t: map<nat, seq<Byte>>, meddled: set<Sid>, x: nat, st: Lp)
    requires Rested(n, d, [], w, t, meddled) && x in d.all && GoodConfig(n.s.cfg) && SamePlace(d.all[x], st)
    requires d.all[x].inReg
    requires Only(n, HostCall(CallPop), d.all[x].sid)
    requires Ours(st, meddled) ==> x in w && x in t && Balanced(Next(n, HostCall(CallPop)), st, w[x], t[x])
    ensures Working(Next(n, HostCall(CallPop)), Put(d, x, st), [], w, t, meddled, x)
  {
    hide Working, Next, Balanced, Tied, FlowsBut, DeskBut;
    WorkBegins(n, d, [], w, t, meddled, x);
    WorkPop(n, d, w, t, meddled, x, st);
  }

  lemma WorkPop(n: Node, d: Desk, w: map<nat, seq<Byte>>, t: map<nat, seq<Byte>>, meddled: set<Sid>, x: nat, st: Lp)
    requires Working(n, d, [], w, t, meddled, x) && GoodConfig(n.s.cfg) && SamePlace(d.all[x], st)
    requires d.all[x].inReg
    requires Only(n, HostCall(CallPop), d.all[x].sid)
    requires Ours(st, meddled) ==> x in w && x in t && Balanced(Next(n, HostCall(CallPop)), st, w[x], t[x])
    ensures Working(Next(n, HostCall(CallPop)), Put(d, x, st), [], w, t, meddled, x)
  {
    hide Next, DeskBut, Balanced, FlowsBut, Tied;
    var pop := HostCall(CallPop);
    WorkingSid(n, d, [], w, t, meddled, x);
    TiedStep(n, pop, d);
    PutOk(d, [], x, st, x);
    FlowsStep(n, pop, d, meddled, w, t, x);
    PutFlows(Next(n, pop), d, meddled, w, t, x, st);
    PutTied(Next(n, pop), d, x, st);
  }

  /** The work is over and the stream stays. */
  lemma WorkRested(n: Node, d: Desk, extra: seq<nat>, w: map<nat, seq<Byte>>, t: map<nat, seq<Byte>>, meddled: set<Sid>,
      x: nat)
    requires Working(n, d, extra, w, t, meddled, x)
    requires Ours(d.all[x], meddled) ==> x in w && x in t && LpFlow(n, d.all[x], w[x], t[x])
    requires Done(d.all[x]) ==> d.all[x].inPending || d.all[x].inReady
    ensures Rested(n, d, extra, w, t, meddled)
  {
    hide PendingOk, ReadyOk, AppOk, RegOk, Tied, Unused, LpFlow, Balanced;
  }

  lemma AsideRested(n: Node, st: Step, d: Desk, w: map<nat, seq<Byte>>, t: map<nat, seq<Byte>>, meddled: set<Sid>)
    requires Rested(n, d, [], w, t, meddled) && Enabled(n, st) && OnlyNone(n, st, d)
    ensures GoodConfig(n.s.cfg) && Rested(Next(n, st), d, [], w, t, meddled)
  {
    hide DeskOk, Flows, Tied, Next;
    RestedSid(n, d, [], w, t, meddled);
    TiedStep(n, st, d);
    FlowsAside(n, st, d, meddled, w, t);
  }

  lemma ReadyFlow(n: Node, a: Lp, b: Lp, w: seq<Byte>, t: seq<Byte>)
    requires LpFlow(n, a, w, t) && SameButReady(a, b)
    ensures LpFlow(n, b, w, t)
  {
    hide Got, Waiting;
  }

  lemma FlowWaits(n: Node, st: Lp, w: seq<Byte>, t: seq<Byte>)
    requires LpFlow(n, st, w, t)
    ensures st.wbuf != [] && !st.inPending ==> Waiting(n.s, st.sid)
  {
    hide Balanced, Waiting;
  }

  /** STREAM_CLOSED and STREAM_RESET change flags only. */
  lemma EndWork(n: Node, d: Desk, w: map<nat, seq<Byte>>, t: map<nat, seq<Byte>>, meddled: set<Sid>, x: nat, st: Lp)
    requires Rested(n, d, [], w, t, meddled) && n.s.events != []
             && (n.s.events[0].StreamClosed? || n.s.events[0].StreamReset?)
    requires x in d.all && d.all[x].inReg
    requires st == d.all[x].(eof := st.eof, reset := st.reset, protoDone := st.protoDone)
    ensures GoodConfig(n.s.cfg) && Working(Next(n, HostCall(CallPop)), Put(d, x, st), [], w, t, meddled, x)
    ensures Ours(st, meddled) ==> x in w && x in t && LpFlow(Next(n, HostCall(CallPop)), st, w[x], t[x])
  {
    hide Working, Next, LpFlow, Flows, DeskOk, Inv, OpensOk, Mine;
    RestedSid(n, d, [], w, t, meddled);
    var pop := HostCall(CallPop);
    if Ours(st, meddled) {
      OneFlow(n, d, meddled, w, t, x);
      LpStep(n, pop, d.all[x], w[x], t[x]);
      FlagFlow(Next(n, pop), d.all[x], st, w[x], t[x]);
      FlowBalanced(Next(n, pop), st, w[x], t[x]);
    }
    PopWork(n, d, w, t, meddled, x, st);
  }

  lemma FlagFlow(n: Node, a: Lp, b: Lp, w: seq<Byte>, t: seq<Byte>)
    requires LpFlow(n, a, w, t) && b == a.(eof := b.eof, reset := b.reset, protoDone := b.protoDone)
    ensures LpFlow(n, b, w, t)
  {
    hide Got, Waiting;
  }

  lemma WritableWork(n: Node, d: Desk, w: map<nat, seq<Byte>>, t: map<nat, seq<Byte>>, meddled: set<Sid>, x: nat)
    requires Rested(n, d, [], w, t, meddled) && n.s.events != [] && n.s.events[0].Writable?
    requires n.s.events[0].sid in d.reg && x == d.reg[n.s.events[0].sid]
    ensures x in d.all && GoodConfig(n.s.cfg)
    ensures Working(Next(n, HostCall(CallPop)), Put(d, x, d.all[x]), [], w, t, meddled, x)
    ensures Ours(d.all[x], meddled) && d.all[x].wbuf == [] ==>
              x in w && x in t && LpFlow(Next(n, HostCall(CallPop)), d.all[x], w[x], t[x])
    ensures Done(d.all[x]) ==> d.all[x].inPending || d.all[x].inReady
  {
    RestedDone(n, d, w, t, meddled);
    hide Working, Next, Flows, DeskOk, Inv, OpensOk, Mine, Balanced, Waiting;
    RestedSid(n, d, [], w, t, meddled);
    if Ours(d.all[x], meddled) {
      OneFlow(n, d, meddled, w, t, x);
      WritableBalanced(n, d.all[x], w[x], t[x]);
    }
    PopWork(n, d, w, t, meddled, x, d.all[x]);
  }

  lemma RestedDone(n: Node, d: Desk, w: map<nat, seq<Byte>>, t: map<nat, seq<Byte>>, meddled: set<Sid>)
    requires Rested(n, d, [], w, t, meddled)
    ensures forall x :: x in d.all && Done(d.all[x]) ==> d.all[x].inPending || d.all[x].inReady
  {
    hide PendingOk, ReadyOk, AppOk, RegOk, Tied, Flows;
  }

  // ---------------------------------------------------------------- the application's calls

  ghost predicate InOrder(n: Node, d: Desk, w: map<nat, seq<Byte>>, t: map<nat, seq<Byte>>, meddled: set<Sid>,
      up: bool) {
    (up ==> Rested(n, d, [], w, t, meddled)) && (!up ==> DeskOk(d, []) && d.reg == map[])
  }

  lemma InOrderDesk(n: Node, d: Desk, w: map<nat, seq<Byte>>, t: map<nat, seq<Byte>>, meddled: set<Sid>, up: bool)
    requires InOrder(n, d, w, t, meddled, up)
    ensures DeskOk(d, [])
  {
    hide DeskOk, Tied, Flows;
  }

  /** Lists and handles may change while the streams and the registry stay. */
  lemma SameStreams(n: Node, d: Desk, d': Desk, w: map<nat, seq<Byte>>, t: map<nat, seq<Byte>>, meddled: set<Sid>,
      up: bool)
    requires InOrder(n, d, w, t, meddled, up) && d'.all == d.all && d'.reg == d.reg && DeskOk(d', [])
    ensures InOrder(n, d', w, t, meddled, up)
  {
    hide DeskOk, Unused, LpFlow, Inv, Mine, OpensOk;
  }

  lemma AcceptedDesk(n: Node, d: Desk, w: map<nat, seq<Byte>>, t: map<nat, seq<Byte>>, meddled: set<Sid>, up: bool)
    requires InOrder(n, d, w, t, meddled, up) && d.accept != []
    ensures InOrder(n, Accepted(d), w, t, meddled, up) && d.accept[0] in d.all
  {
    hide InOrder, DeskOk;
    InOrderDesk(n, d, w, t, meddled, up);
    AcceptedOk(d);
    SameStreams(n, d, Accepted(d), w, t, meddled, up);
  }

  /** A handle the application holds is a live stream. */
  lemma HandleLives(n: Node, d: Desk, w: map<nat, seq<Byte>>, t: map<nat, seq<Byte>>, meddled: set<Sid>, up: bool,
      x: nat)
    requires InOrder(n, d, w, t, meddled, up) && x in d.handles
    ensures x in d.all && !d.all[x].appClosed
  {
    hide InOrder, PendingOk, ReadyOk, RegOk, Distinct;
    InOrderDesk(n, d, w, t, meddled, up);
  }

  lemma MovesBalanced(n: Node, a: Lp, b: Lp, w: seq<Byte>, t: seq<Byte>, more: seq<Byte>, got: seq<Byte>)
    requires Balanced(n, a, w, t) && Moves(a, b, more, got)
    ensures Balanced(n, b, w + more, t + got)
  {
    hide Got;
    assert t + (got + b.rbuf) == t + got + b.rbuf;
    assert Wrote(n, a.sid) + a.wbuf + more == Wrote(n, a.sid) + (a.wbuf + more);
    if more == [] {
      assert a.wbuf + more == a.wbuf;
    }
  }

  lemma QueueDesk(n: Node, d: Desk, w: map<nat, seq<Byte>>, t: map<nat, seq<Byte>>, meddled: set<Sid>, up: bool, x: nat,
                  st: Lp, more: seq<Byte>, got: seq<Byte>)
    requires InOrder(n, d, w, t, meddled, up) && x in d.all && SamePlace(d.all[x], st) && Moves(d.all[x], st, more, got)
    ensures var d' := Pushed(Put(d, x, st), x);
            && (Ours(st, meddled) && up ==>
                  x in w && x in t && InOrder(n, d', w[x := w[x] + more], t[x := t[x] + got], meddled, up))
            && (!(Ours(st, meddled) && up) ==> InOrder(n, d', w, t, meddled, up))
  {
    hide DeskOk, DeskBut, Balanced, Moves, Tied, Flows;
    InOrderDesk(n, d, w, t, meddled, up);
    MovesDone(d.all[x], st, more, got);
    QueuedOk(d, x, st);
    if up {
      QueuedFlows(n, d, w, t, meddled, x, st, more, got);
    } else {
      assert Pushed(Put(d, x, st), x).reg == d.reg;
    }
  }

  lemma MovesDone(a: Lp, b: Lp, more: seq<Byte>, got: seq<Byte>)
    requires Moves(a, b, more, got)
    ensures Done(b) == Done(a) && b.inReg == a.inReg
  {
  }

  lemma QueuedOk(d: Desk, x: nat, st: Lp)
    requires DeskOk(d, []) && x in d.all && SamePlace(d.all[x], st) && Done(st) == Done(d.all[x])
    ensures DeskOk(Pushed(Put(d, x, st), x), [])
  {
    DeskAny(d, x);
    PutOk(d, [], x, st, x);
    hide DeskBut, DeskOk;
    PushedOk(Put(d, x, st), [], x);
  }

  lemma DeskAny(d: Desk, x: nat)
    requires DeskOk(d, [])
    ensures DeskBut(d, [], x)
  {
    hide PendingOk, ReadyOk, AppOk, RegOk;
  }

  lemma QueuedFlows(n: Node, d: Desk, w: map<nat, seq<Byte>>, t: map<nat, seq<Byte>>, meddled: set<Sid>, x: nat,
                    st: Lp, more: seq<Byte>, got: seq<Byte>)
    requires Rested(n, d, [], w, t, meddled) && x in d.all && SamePlace(d.all[x], st) && Moves(d.all[x], st, more, got)
    ensures var d' := Pushed(Put(d, x, st), x);
            && Tied(n, d')
            && (Ours(st, meddled) ==>
                x in w && x in t && Flows(n, d', meddled, w[x := w[x] + more], t[x := t[x] + got]))
            && (!Ours(st, meddled) ==> Flows(n, d', meddled, w, t))
  {
    hide DeskOk, Moves;
    PutTied(n, d, x, st);
    PushedTied(n, Put(d, x, st), x);
    RestedSid(n, d, [], w, t, meddled);
    hide Inv, Tied;
    if Ours(st, meddled) {
      MoreFlows(n, d, meddled, w, t, x, st, more, got);
    } else {
      OtherFlows(n, d, meddled, w, t, x, st);
    }
  }

  lemma PushedTied(n: Node, d: Desk, x: nat)
    requires Tied(n, d) && x in d.all
    ensures Tied(n, Pushed(d, x))
  {
    hide Inv, Mine, OpensOk;
  }

  lemma MoreFlows(n: Node, d: Desk, meddled: set<Sid>, w: map<nat, seq<Byte>>, t: map<nat, seq<Byte>>, x: nat, st: Lp,
      more: seq<Byte>, got: seq<Byte>)
    requires Flows(n, d, meddled, w, t) && x in d.all && SamePlace(d.all[x], st) && Moves(d.all[x], st, more, got)
    requires Ours(st, meddled)
    ensures x in w && x in t && Flows(n, Pushed(Put(d, x, st), x), meddled, w[x := w[x] + more], t[x := t[x] + got])
  {
    assert LpFlow(n, d.all[x], w[x], t[x]);
    MovesBalanced(n, d.all[x], st, w[x], t[x], more, got);
    hide Unused, Waiting, Moves, Balanced;
    var d' := Pushed(Put(d, x, st), x);
    var w', t' := w[x := w[x] + more], t[x := t[x] + got];
    PendBalanced(n, st, w'[x], t'[x]);
    forall y | y in d'.all && Ours(d'.all[y], meddled) ensures LpFlow(n, d'.all[y], w'[y], t'[y]) {
      if y != x {
        assert LpFlow(n, d.all[y], w[y], t[y]);
      }
    }
  }

  /** The work list and a record that is not ours do not matter. */
  lemma OtherFlows(n: Node, d: Desk, meddled: set<Sid>, w: map<nat, seq<Byte>>, t: map<nat, seq<Byte>>, x: nat, st: Lp)
    requires Flows(n, d, meddled, w, t) && x in d.all && SamePlace(d.all[x], st) && !Ours(st, meddled)
    ensures Flows(n, Pushed(Put(d, x, st), x), meddled, w, t)
  {
    hide Unused, LpFlow;
  }

  lemma PendBalanced(n: Node, st: Lp, w: seq<Byte>, t: seq<Byte>)
    requires Balanced(n, st, w, t)
    ensures LpFlow(n, st.(inPending := true), w, t)
  {
    hide Got, Waiting;
  }

  lemma WantDesk(n: Node, d: Desk, w: map<nat, seq<Byte>>, t: map<nat, seq<Byte>>, meddled: set<Sid>, up: bool, x: nat)
    requires InOrder(n, d, w, t, meddled, up) && x in d.all
    ensures InOrder(n, Put(d, x, d.all[x].(wantWritable := true)), w, t, meddled, up)
  {
    hide DeskOk, DeskBut, Tied, Flows, LpFlow;
    InOrderDesk(n, d, w, t, meddled, up);
    var st := d.all[x].(wantWritable := true);
    WantOk(d, x, st);
    if up {
      PutTied(n, d, x, st);
      WantFlows(n, d, meddled, w, t, x);
    }
  }

  lemma WantOk(d: Desk, x: nat, st: Lp)
    requires DeskOk(d, []) && x in d.all && SamePlace(d.all[x], st) && Done(st) == Done(d.all[x])
    ensures DeskOk(Put(d, x, st), [])
  {
    PutParts(d, [], x, st);
    hide PendingOk, ReadyOk, AppOk, RegOk;
  }

  lemma WantFlows(n: Node, d: Desk, meddled: set<Sid>, w: map<nat, seq<Byte>>, t: map<nat, seq<Byte>>, x: nat)
    requires Flows(n, d, meddled, w, t) && x in d.all
    ensures Flows(n, Put(d, x, d.all[x].(wantWritable := true)), meddled, w, t)
  {
    hide Unused, LpFlow;
    var d' := Put(d, x, d.all[x].(wantWritable := true));
    forall y | y in d'.all && Ours(d'.all[y], meddled) ensures LpFlow(n, d'.all[y], w[y], t[y]) {
      SameFlow(n, d.all[y], d'.all[y], w[y], t[y]);
    }
  }

  lemma CloseDesk(n: Node, d: Desk, w: map<nat, seq<Byte>>, t: map<nat, seq<Byte>>, meddled: set<Sid>, up: bool, x: nat)
    requires InOrder(n, d, w, t, meddled, up) && x in d.handles && x in d.all
    ensures InOrder(n, PeerDesk.Closed(d, x), w, t, meddled, up)
  {
    hide DeskOk, Tied, Flows;
    InOrderDesk(n, d, w, t, meddled, up);
    ClosedOk(d, x);
    if up {
      ClosedTied(n, d, x);
      ClosedFlows(n, d, meddled, w, t, x);
    }
  }

  lemma ClosedTied(n: Node, d: Desk, x: nat)
    requires Tied(n, d) && x in d.all
    ensures Tied(n, PeerDesk.Closed(d, x))
  {
    hide Inv, Mine, OpensOk;
  }

  lemma ClosedFlows(n: Node, d: Desk, meddled: set<Sid>, w: map<nat, seq<Byte>>, t: map<nat, seq<Byte>>, x: nat)
    requires Flows(n, d, meddled, w, t) && x in d.all
    ensures Flows(n, PeerDesk.Closed(d, x), meddled, w, t)
  {
    hide Unused, LpFlow;
    var d' := PeerDesk.Closed(d, x);
    forall y | y in d'.all && Ours(d'.all[y], meddled) ensures LpFlow(n, d'.all[y], w[y], t[y]) {
      SameFlow(n, d.all[y], d'.all[y], w[y], t[y]);
    }
  }

  /** The head of the ready list is a live stream; taken off, and freed if it may be, all is in order. */
  lemma PollDesk(n: Node, d: Desk, w: map<nat, seq<Byte>>, t: map<nat, seq<Byte>>, meddled: set<Sid>, up: bool)
    requires InOrder(n, d, w, t, meddled, up) && d.ready != []
    ensures var x := d.ready[0];
            && x in d.all
            && (d.all[x].appClosed ==> InOrder(n, TryFreed(Polled(d), x), w, t, meddled, up))
            && (!d.all[x].appClosed ==> InOrder(n, Polled(d), w, t, meddled, up) && (x in d.handles || x in d.accept))
            && x !in d.ready[1..]
  {
    ReadyOnce(n, d, w, t, meddled, up);
    hide DeskOk, DeskBut, Tied, Flows, Polled;
    InOrderDesk(n, d, w, t, meddled, up);
    PolledOk(d);
    var x := d.ready[0];
    PolledFields(d);
    TryFreedOk(Polled(d), [], x);
    OpenIsOk(Polled(d), x);
    OwnedBy(d, x);
    if up {
      PolledTied(n, d);
      FreedTied(n, Polled(d), x);
      PolledFlows(n, d, meddled, w, t);
      LessFlows(n, Polled(d), meddled, w, t, x);
    }
  }

  lemma ReadyOnce(n: Node, d: Desk, w: map<nat, seq<Byte>>, t: map<nat, seq<Byte>>, meddled: set<Sid>, up: bool)
    requires InOrder(n, d, w, t, meddled, up)
    ensures forall y :: y in d.ready ==> y in d.all
    ensures d.ready != [] ==> d.ready[0] !in d.ready[1..]
  {
    hide Tied, Flows, PendingOk, AppOk, RegOk;
  }

  lemma PolledFields(d: Desk)
    requires d.ready != [] && d.ready[0] in d.all
    ensures var x := d.ready[0];
            && Polled(d).reg == d.reg && x in Polled(d).all && Polled(d).all[x] == d.all[x].(inReady := false)
            && (d.reg == map[] ==> TryFreed(Polled(d), x).reg == map[])
  {
  }

  lemma OwnedBy(d: Desk, x: nat)
    requires DeskOk(d, []) && x in d.all
    ensures !d.all[x].appClosed ==> x in d.handles || x in d.accept
  {
    hide PendingOk, ReadyOk, RegOk, Distinct;
  }

  lemma OpenIsOk(d: Desk, x: nat)
    requires DeskBut(d, [], x) && x in d.all
    ensures !d.all[x].appClosed ==> DeskOk(d, [])
  {
    hide PendingOk, ReadyOk, AppOk, RegOk;
  }

  lemma PolledTied(n: Node, d: Desk)
    requires Tied(n, d) && d.ready != [] && d.ready[0] in d.all
    ensures Tied(n, Polled(d))
  {
    hide Inv, Mine, OpensOk;
  }

  lemma FreedTied(n: Node, d: Desk, x: nat)
    requires Tied(n, d) && x in d.all
    ensures Tied(n, TryFreed(d, x))
  {
    hide Inv, Mine, OpensOk;
  }

  lemma PolledFlows(n: Node, d: Desk, meddled: set<Sid>, w: map<nat, seq<Byte>>, t: map<nat, seq<Byte>>)
    requires Flows(n, d, meddled, w, t) && d.ready != [] && d.ready[0] in d.all
    ensures Flows(n, Polled(d), meddled, w, t)
  {
    hide Unused, LpFlow;
    forall y | y in Polled(d).all && Ours(Polled(d).all[y], meddled) ensures LpFlow(n, Polled(d).all[y], w[y], t[y]) {
      SameFlow(n, d.all[y], Polled(d).all[y], w[y], t[y]);
    }
  }

  lemma LessFlows(n: Node, d: Desk, meddled: set<Sid>, w: map<nat, seq<Byte>>, t: map<nat, seq<Byte>>, x: nat)
    requires Flows(n, d, meddled, w, t) && x in d.all
    ensures Flows(n, TryFreed(d, x), meddled, w, t)
  {
    hide Unused, LpFlow;
  }

  // ---------------------------------------------------------------- the session goes down

  /** The lists and the registry are in order; streams may be done and on no list. */
  ghost predicate Loose(d: Desk) { PendingOk(d, []) && ReadyOk(d) && AppOk(d) && RegOk(d) }

  lemma LooseOk(d: Desk)
    requires Loose(d) && forall x :: x in d.all ==> !MayFree(d.all[x])
    ensures DeskOk(d, [])
  {
    hide PendingOk, ReadyOk, AppOk, RegOk;
  }

  lemma OkLoose(d: Desk)
    requires DeskOk(d, [])
    ensures Loose(d)
  {
    hide PendingOk, ReadyOk, AppOk, RegOk;
  }

  /** The stream is over as far as the protocol goes, and the application is told. */
  function Ended(st: Lp): Lp {
    if st.protoDone then st else st.(reset := true, eof := true, protoDone := true)
  }

  lemma EndedLoose(d: Desk, x: nat, poll: bool)
    requires Loose(d) && x in d.all
    ensures Loose(Readied(Put(d, x, Ended(d.all[x])), x, poll))
  {
    PutParts(d, [], x, Ended(d.all[x]));
    hide PendingOk, ReadyOk, AppOk, RegOk;
    ReadiedLoose(Put(d, x, Ended(d.all[x])), x, poll);
  }

  lemma ReadiedLoose(d: Desk, x: nat, poll: bool)
    requires Loose(d) && x in d.all
    ensures Loose(Readied(d, x, poll))
  {
    var st := d.all[x].(inReady := true);
    PutParts(d, [], x, st);
    if Readied(d, x, poll) != d {
      ReadiedOnly(d, x);
      SameParts(Put(d, x, st), Readied(d, x, poll));
      SamePending(Put(d, x, st), Readied(d, x, poll));
    }
    hide PendingOk, ReadyOk, AppOk, RegOk;
  }

  lemma ReadiedOnly(d: Desk, x: nat)
    requires ReadyOk(d) && x in d.all && !d.all[x].inReady
    ensures ReadyOk(Readied(d, x, true))
  {
    DistinctPush(d.ready, x);
  }

  lemma SamePending(d: Desk, d': Desk)
    requires PendingOk(d, []) && d'.all == d.all && d'.pending == d.pending
    ensures PendingOk(d', [])
  {
  }

  function EndTold(st: Lp, poll: bool): Lp { Ended(st).(inReady := poll || st.inReady) }

  /** Every stream but those in `todo` is ended and told. */
  ghost predicate AllEnded(a: map<nat, Lp>, b: map<nat, Lp>, todo: set<nat>, poll: bool) {
    b.Keys == a.Keys && forall x :: x in a ==> b[x] == if x in todo then a[x] else EndTold(a[x], poll)
  }

  lemma EndedNone(a: map<nat, Lp>, poll: bool)
    ensures AllEnded(a, a, a.Keys, poll)
  {
  }

  lemma EndedMore(a: map<nat, Lp>, d: Desk, todo: set<nat>, x: nat, poll: bool)
    requires AllEnded(a, d.all, todo, poll) && x in todo && x in d.all
    ensures AllEnded(a, Readied(Put(d, x, Ended(d.all[x])), x, poll).all, todo - {x}, poll)
  {
  }

  /** A stream once the session is down. */
  function Downed(st: Lp, poll: bool): Lp { EndTold(st, poll).(inPending := false, inReg := false) }

  /** What a session's end leaves: the streams the application still needs. */
  ghost predicate AllDowned(a: map<nat, Lp>, b: map<nat, Lp>, poll: bool) {
    && (forall x :: x in b <==> x in a && !MayFree(Downed(a[x], poll)))
    && (forall x :: x in b ==> b[x] == Downed(a[x], poll))
  }

  /** Every stream is ended and told, off the work list and out of the registry. */
  ghost predicate AllUnhooked(a: map<nat, Lp>, b: map<nat, Lp>, poll: bool) {
    b.Keys == a.Keys && forall x :: x in a ==> b[x] == Downed(a[x], poll)
  }

  lemma EndedCleared(a: map<nat, Lp>, b: map<nat, Lp>, c: map<nat, Lp>, poll: bool)
    requires AllEnded(a, b, {}, poll)
    requires c.Keys == b.Keys && forall x :: x in c ==> c[x] == b[x].(inPending := false, inReg := false)
    ensures AllUnhooked(a, c, poll) && forall x :: x in c ==> !c[x].inReg
  {
    hide EndTold;
    forall x | x in a ensures x in c && c[x] == Downed(a[x], poll) {
    }
  }

  lemma UnhookedFreed(a: map<nat, Lp>, c: map<nat, Lp>, d: map<nat, Lp>, poll: bool)
    requires AllUnhooked(a, c, poll)
    requires forall x :: x in d <==> x in c && !MayFree(c[x])
    requires forall x :: x in d ==> d[x] == c[x]
    ensures AllDowned(a, d, poll) && forall x :: x in d ==> x in a
  {
    hide MayFree, Downed;
  }

  /** The work list and the registry are emptied. */
  function Cleared(d: Desk): Desk {
    d.(all := map x | x in d.all :: d.all[x].(inPending := false, inReg := false), reg := map[], pending := [])
  }

  lemma ClearedLoose(d: Desk)
    requires Loose(d)
    ensures Loose(Cleared(d))
  {
    assert Distinct([] + []);
    hide Distinct;
  }

  lemma FreedLoose(d: Desk, x: nat)
    requires Loose(d) && x in d.all
    ensures Loose(TryFreed(d, x)) && (x in TryFreed(d, x).all ==> !MayFree(d.all[x]))
  {
    hide Distinct;
  }

  /** A session begins, over whatever is left from before. */
  lemma StartRested(raw: Config, role: Role, d: Desk, w: map<nat, seq<Byte>>, t: map<nat, seq<Byte>>)
    requires New(raw, role).Some? && DeskOk(d, []) && d.reg == map[]
    ensures Rested(Start(New(raw, role).value), d, [], w, t, {})
  {
    hide DeskOk, New, Inv, OpensOk, Encode, GrowTo, HelloPayload;
    StartGood(raw, role);
    NoneRegistered(d);
    StartQuiet(raw, role);
  }

  /** The ids meddled with after a call for stream `x`. */
  function AfterCall(s: Session, d: Desk, meddled: set<Sid>, x: nat, c: Call): set<Sid>
    requires x in d.all
  {
    if !d.all[x].inReg && Harms(s, FinOf(d, d.all[x].sid), c) then meddled + {d.all[x].sid} else meddled
  }

  /** Nothing but the send buffer differs, and perhaps what the writer was told. */
  predicate Resent(a: Lp, b: Lp) {
    b == a.(wbuf := b.wbuf, inReady := b.inReady, wantWritable := b.wantWritable)
  }

  lemma SameResent(a: Lp)
    ensures Resent(a, a)
  {
  }

  lemma ToldResent(a: Lp, b: Lp, c: Lp)
    requires Resent(a, b) && c == b.(wantWritable := c.wantWritable, inReady := c.inReady)
    ensures Resent(a, c)
  {
  }

  lemma ResentMore(a: Lp, b: Lp, k: int)
    requires Resent(a, b) && k <= |b.wbuf|
    ensures Resent(a, Unsent(b, k)) && Unsent(b, k).wantWritable == b.wantWritable && Unsent(b, k).inReady == b.inReady
    ensures k > 0 ==> |Unsent(b, k).wbuf| < |b.wbuf|
    ensures Unsent(b, k).inReg == b.inReg && Unsent(b, k).sid == b.sid
  {
  }

  /** From `m` to `m'` at most the id of `st` was added, and only for a leftover stream. */
  predicate Within(m: set<Sid>, m': set<Sid>, st: Lp) { m' == m || (!st.inReg && m' == m + {st.sid}) }

  lemma Unmoved(m: set<Sid>, st: Lp)
    ensures Within(m, m, st)
  {
  }

  lemma WithinTrans(a: set<Sid>, b: set<Sid>, c: set<Sid>, st: Lp, st': Lp)
    requires Within(a, b, st) && Within(b, c, st') && st'.inReg == st.inReg && st'.sid == st.sid
    ensures Within(a, c, st)
  {
  }

  lemma CallWithin(s: Session, d: Desk, meddled: set<Sid>, x: nat, c: Call)
    requires x in d.all
    ensures Within(meddled, AfterCall(s, d, meddled, x, c), d.all[x])
  {
    hide Harms;
  }

  /** The ids of the leftover streams among `xs`. */
  function LeftoverIds(all: map<nat, Lp>, xs: seq<nat>): set<Sid> {
    set x | x in xs && x in all && !all[x].inReg :: all[x].sid
  }

  /** The first `i` of the list have been worked for, the others are as they were. */
  ghost predicate InStep(a: map<nat, Lp>, b: map<nat, Lp>, m: set<Sid>, m': set<Sid>, xs: seq<nat>, i: nat) {
    && i <= |xs| && m <= m' <= m + LeftoverIds(a, xs[..i])
    && forall j :: i <= j < |xs| ==> xs[j] in a && xs[j] in b && b[xs[j]] == a[xs[j]]
  }

  lemma InStepNone(a: map<nat, Lp>, m: set<Sid>, xs: seq<nat>)
    requires forall x :: x in xs ==> x in a
    ensures InStep(a, a, m, m, xs, 0)
  {
    assert xs[..0] == [];
  }

  lemma InStepMore(a: map<nat, Lp>, b: map<nat, Lp>, c: map<nat, Lp>, m: set<Sid>, m1: set<Sid>, m2: set<Sid>,
                   xs: seq<nat>, i: nat)
    requires InStep(a, b, m, m1, xs, i) && i < |xs| && Distinct(xs) && OthersSame(b, c, xs[i])
    requires Within(m1, m2, b[xs[i]])
    ensures InStep(a, c, m, m2, xs, i + 1)
  {
    assert xs[..i + 1] == xs[..i] + [xs[i]];
    var x := xs[i];
    assert LeftoverIds(a, xs[..i + 1]) == LeftoverIds(a, xs[..i]) + if a[x].inReg then {} else {a[x].sid};
  }

  lemma MeddledWork(n: Node, d: Desk, extra: seq<nat>, w: map<nat, seq<Byte>>, t: map<nat, seq<Byte>>,
                    meddled: set<Sid>, x: nat, sid: Sid)
    requires Working(n, d, extra, w, t, meddled, x)
    ensures Working(n, d, extra, w, t, meddled + {sid}, x)
  {
    hide Inv, Mine, OpensOk, DeskBut, Tied, LpFlow, Balanced, Opening, Tr;
  }

  lemma NoneRegistered(d: Desk)
    requires DeskOk(d, []) && d.reg == map[]
    ensures forall x :: x in d.all ==> !d.all[x].inReg
  {
    hide PendingOk, ReadyOk, AppOk;
  }

  lemma StartQuiet(raw: Config, role: Role)
    requires New(raw, role).Some?
    ensures New(raw, role).value.events == []
  {
    hide Encode, GrowTo, HelloPayload;
  }

  // ---------------------------------------------------------------- what order means for a stream

  /** For every stream of the session of which no stream left over from an earlier session moved anything: everything
      delivered was read or is buffered, everything written was accepted in order or is buffered; the FIN is on
      the wire only after everything was accepted; unsent bytes are on the work list or, while the stream can
      be written to, owed a WRITABLE; and what is buffered or not yet credited fits the stream window. */
  lemma StreamLaw(n: Node, d: Desk, w: map<nat, seq<Byte>>, t: map<nat, seq<Byte>>, meddled: set<Sid>, x: nat)
    requires Rested(n, d, [], w, t, meddled) && x in d.all && Ours(d.all[x], meddled)
    ensures x in w && x in t
    ensures var st := d.all[x];
            && Got(n, st.sid) == t[x] + st.rbuf
            && w[x] == Wrote(n, st.sid) + st.wbuf
            && (Tr(n.s.wire, st.sid).fin ==> st.appClosed && w[x] == Wrote(n, st.sid))
            && (st.wbuf != [] && !st.inPending && OpenFor(n.s, st.sid) ==>
                  n.s.streams[st.sid].blocked || Writable(st.sid) in n.s.events)
            && (st.sid in n.s.streams && !n.s.dead ==> |st.rbuf| + st.consumePending <= n.s.cfg.initWindow)
  {
    hide DeskOk, Unused, Inv, OpensOk, Mine, Got, Tr;
    var st := d.all[x];
    assert LpFlow(n, st, w[x], t[x]);
    if st.sid in n.s.streams && !n.s.dead {
      RbufFits(n, st, w[x], t[x]);
    }
  }
}
