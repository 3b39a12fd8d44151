/** The bytes of a peer client's streams within one tunnel session (libpeer/src/libpeer.c): what the
    application read and wrote against what the session delivered and accepted. */
module PeerFlow {
  import opened Wire
  import opened Codec
  import opened Session
  import opened Trace
  import opened Node
  import opened NodeRuns
  import opened HostWake
  import opened Splice
  import opened Hosting
  import opened Finishing
  import opened PeerDesk

  /** `w`: bytes lp_write took; `t`: bytes lp_read gave. Delivered = read ++ rbuf, credited = read less what
      waits for the I/O thread, written = accepted ++ wbuf, and FIN only with nothing left. */
  ghost predicate Balanced(n: Node, st: Lp, w: seq<Byte>, t: seq<Byte>) {
    && Got(n, st.sid) == t + st.rbuf
    && (st.sid in n.s.streams && !n.s.dead ==> Consumed(n, st.sid) + st.consumePending == |t|)
    && w == Wrote(n, st.sid) + st.wbuf
    && (st.finSent ==> st.wbuf == [] && st.appClosed) && (Tr(n.s.wire, st.sid).fin ==> st.finSent)
  }

  /** Balanced, and unsent bytes are on the work list or owed a WRITABLE. */
  ghost predicate LpFlow(n: Node, st: Lp, w: seq<Byte>, t: seq<Byte>) {
    Balanced(n, st, w, t) && (st.wbuf != [] && !st.inPending ==> Waiting(n.s, st.sid))
  }

  /** The session and the registry. */
  ghost predicate Tied(n: Node, d: Desk) {
    Inv(n) && GoodConfig(n.s.cfg) && OpensOk(n) && forall sid :: sid in d.reg ==> Mine(n, true, sid)
  }

  /** A stream of this session, under an id of which no stream left over from an earlier session has moved
      anything: `meddled` are the ids of which such a stream did. */
  predicate Ours(st: Lp, meddled: set<Sid>) { st.inReg && st.sid !in meddled }

  /** Work for the stream is work on its own id, or on one already counted as worked on. */
  predicate Entitled(st: Lp, meddled: set<Sid>) { st.inReg || st.sid in meddled }

  /** Nothing was done yet with streams whose opening is still queued, the ids meddled with apart. */
  ghost predicate Unused(n: Node, meddled: set<Sid>) {
    forall sid :: Opening(n.s.events, sid) && sid !in meddled ==> Silent(n, sid)
  }

  /** Nothing was written, credited or finished on the id. */
  ghost predicate Silent(n: Node, sid: Sid) {
    && Wrote(n, sid) == [] && !Tr(n.s.wire, sid).fin
    && (sid in n.s.streams && !n.s.dead ==> Consumed(n, sid) == 0)
  }

  /** Our streams are in order, save perhaps `x0`. */
  ghost predicate FlowsBut(n: Node, d: Desk, meddled: set<Sid>, w: map<nat, seq<Byte>>, t: map<nat, seq<Byte>>,
      x0: nat) {
    && Unused(n, meddled)
    && (forall x :: x in d.all && Ours(d.all[x], meddled) ==> x in w && x in t)
    && (forall x :: x in d.all && Ours(d.all[x], meddled) && x != x0 ==> LpFlow(n, d.all[x], w[x], t[x]))
  }

  lemma TiedStep(n: Node, st: Step, d: Desk)
    requires Tied(n, d) && Enabled(n, st)
    ensures Tied(Next(n, st), d)
  {
    hide Inv, Next, Mine, OpensOk;
    StepInv(n, st);
    InvConfig(Next(n, st));
    StepOpens(n, st);
    forall sid | sid in d.reg ensures Mine(Next(n, st), true, sid) {
      StepMine(n, st, true, sid);
    }
  }

  /** The step concerns stream `sid` at most. */
  predicate Only(n: Node, st: Step, sid: Sid) {
    && (st.HostCall? && (st.c.CallWrite? || st.c.CallConsume? || st.c.CallClose?) ==> st.c.sid == sid)
    && (st == HostCall(CallPop) && n.s.events != [] && (n.s.events[0].StreamData? || n.s.events[0].Writable?)
        ==> n.s.events[0].sid == sid)
  }

  lemma LpKept(n: Node, n': Node, st: Lp, w: seq<Byte>, t: seq<Byte>)
    requires LpFlow(n, st, w, t) && KeepsSrc(n, n', st.sid) && KeepsDst(n, n', st.sid)
    requires Tr(n'.s.wire, st.sid).fin == Tr(n.s.wire, st.sid).fin
    ensures LpFlow(n', st, w, t)
  {
    hide Got, Tr, Waiting;
  }

  /** Writes, credits and closes go to known streams, or count as meddling. */
  predicate Proper(st: Step, known: set<Sid>, meddled: set<Sid>) {
    st.HostCall? && (st.c.CallWrite? || st.c.CallConsume? || st.c.CallClose?) ==>
        st.c.sid in known || st.c.sid in meddled
  }

  lemma UnusedStep(n: Node, st: Step, known: set<Sid>, meddled: set<Sid>)
    requires Inv(n) && GoodConfig(n.s.cfg) && OpensOk(n) && Unused(n, meddled) && Enabled(n, st)
    requires Proper(st, known, meddled) && forall sid :: sid in known ==> Mine(n, true, sid)
    ensures Unused(Next(n, st), meddled)
  {
    hide Inv, Next, Mine, OpensOk, Opening, Silent;
    var n' := Next(n, st);
    forall sid | Opening(n'.s.events, sid) && sid !in meddled ensures Silent(n', sid) {
      if sid in known {
        NotOpened(n, st, true, sid);
      } else {
        OpeningSilent(n, sid, st);
        SilentStep(n, st, sid);
      }
    }
  }

  /** An opening is new, or was silent already. */
  lemma OpeningSilent(n: Node, sid: Sid, st: Step)
    requires Inv(n) && GoodConfig(n.s.cfg) && OpensOk(n) && Enabled(n, st) && Opening(Next(n, st).s.events, sid)
    ensures Opening(n.s.events, sid) || Silent(n, sid)
  {
    hide Inv, Next, OpensOk, Opening, Tr;
    OpeningOrNew(n, st, sid);
    if !Opening(n.s.events, sid) {
      NeverUsed(n, sid);
    }
  }

  lemma SilentStep(n: Node, st: Step, sid: Sid)
    requires Inv(n) && GoodConfig(n.s.cfg) && Enabled(n, st) && Silent(n, sid)
    requires !Writes(st, sid) && !Consumes(st, sid) && !Closes(st, sid)
    ensures Silent(Next(n, st), sid)
  {
    hide Inv, Next, Tr, Used;
    StepHistory(n, st, sid);
    FinOnlyByClose(n, st, sid);
    if Used(n, sid) {
      NoRevival(n, st, sid);
    } else {
      NeverUsed(n, sid);
    }
  }

  /** One of our streams, under a step that does not concern it. */
  lemma LpStep(n: Node, st: Step, lp: Lp, w: seq<Byte>, t: seq<Byte>)
    requires Inv(n) && GoodConfig(n.s.cfg) && Enabled(n, st) && Used(n, lp.sid) && LpFlow(n, lp, w, t)
    requires !TakesData(n, st, lp.sid) && !Consumes(st, lp.sid) && !TakesWritable(n, st, lp.sid)
    requires !Writes(st, lp.sid) && !Closes(st, lp.sid)
    ensures LpFlow(Next(n, st), lp, w, t)
  {
    hide Inv, Next, LpFlow, KeepsSrc, KeepsDst, Used, Tr;
    StepKeepsSrc(n, st, lp.sid);
    StepKeepsDst(n, st, lp.sid);
    FinOnlyByClose(n, st, lp.sid);
    LpKept(n, Next(n, st), lp, w, t);
  }

  lemma FlowsStep(n: Node, st: Step, d: Desk, meddled: set<Sid>, w: map<nat, seq<Byte>>, t: map<nat, seq<Byte>>,
      x0: nat)
    requires Tied(n, d) && RegOk(d) && FlowsBut(n, d, meddled, w, t, x0) && Enabled(n, st) && x0 in d.all
    requires Only(n, st, d.all[x0].sid) && Entitled(d.all[x0], meddled)
    ensures FlowsBut(Next(n, st), d, meddled, w, t, x0)
  {
    hide Inv, Next, OpensOk, LpFlow, Unused, Used;
    UnusedStep(n, st, d.reg.Keys, meddled);
    forall x | x in d.all && Ours(d.all[x], meddled) && x != x0 ensures LpFlow(Next(n, st), d.all[x], w[x], t[x]) {
      assert Mine(n, true, d.all[x].sid);
      assert d.all[x].sid != d.all[x0].sid;
      LpStep(n, st, d.all[x], w[x], t[x]);
    }
  }

  /** The event is about a stream that was opened before. */
  predicate About(e: Event) { e.StreamData? || e.Writable? || e.StreamClosed? || e.StreamReset? }

  /** A step that concerns no stream of the desk. */
  predicate OnlyNone(n: Node, st: Step, d: Desk) {
    && (st.HostCall? ==> !st.c.CallWrite? && !st.c.CallConsume? && !st.c.CallClose?)
    && (st == HostCall(CallPop) && n.s.events != [] && About(n.s.events[0]) ==> n.s.events[0].sid !in d.reg)
  }

  ghost predicate Flows(n: Node, d: Desk, meddled: set<Sid>, w: map<nat, seq<Byte>>, t: map<nat, seq<Byte>>) {
    && Unused(n, meddled)
    && (forall x :: x in d.all && Ours(d.all[x], meddled) ==> x in w && x in t)
    && (forall x :: x in d.all && Ours(d.all[x], meddled) ==> LpFlow(n, d.all[x], w[x], t[x]))
  }

  lemma FlowsAside(n: Node, st: Step, d: Desk, meddled: set<Sid>, w: map<nat, seq<Byte>>, t: map<nat, seq<Byte>>)
    requires Tied(n, d) && RegOk(d) && Flows(n, d, meddled, w, t) && Enabled(n, st) && OnlyNone(n, st, d)
    ensures Flows(Next(n, st), d, meddled, w, t)
  {
    hide Inv, Next, OpensOk, LpFlow, Unused, Used;
    UnusedStep(n, st, d.reg.Keys, meddled);
    forall x | x in d.all && Ours(d.all[x], meddled) ensures LpFlow(Next(n, st), d.all[x], w[x], t[x]) {
      assert Mine(n, true, d.all[x].sid);
      LpStep(n, st, d.all[x], w[x], t[x]);
    }
  }

  // ---------------------------------------------------------------- one stream

  /** mux_write of the send buffer. */
  lemma WriteBalanced(n: Node, st: Lp, w: seq<Byte>, t: seq<Byte>)
    requires Inv(n) && GoodConfig(n.s.cfg) && Used(n, st.sid) && Balanced(n, st, w, t) && !st.finSent
    ensures var k := WriteStream(n.s, st.sid, st.wbuf).1;
            var n' := Next(n, HostCall(CallWrite(st.sid, st.wbuf)));
            && k <= |st.wbuf|
            && Balanced(n', st.(wbuf := st.wbuf[if k > 0 then k else 0..]), w, t)
            && (k < |st.wbuf| ==> Waiting(n'.s, st.sid))
  {
    hide Inv, Used, WriteStream, Waiting, Got, Next, Balanced, Tr;
    var c := CallWrite(st.sid, st.wbuf);
    var n' := Next(n, HostCall(c));
    WriteWaits(n.s, st.sid, st.wbuf);
    StepKeepsSrc(n, HostCall(c), st.sid);
    FinOnlyByClose(n, HostCall(c), st.sid);
    WriteNote(n, st.sid, st.wbuf);
    var k := WriteStream(n.s, st.sid, st.wbuf).1;
    SentBalanced(n, n', st, w, t, if k > 0 then k else 0);
  }

  lemma SentBalanced(n: Node, n': Node, st: Lp, w: seq<Byte>, t: seq<Byte>, k: nat)
    requires Balanced(n, st, w, t) && !st.finSent && KeepsSrc(n, n', st.sid) && k <= |st.wbuf|
    requires Wrote(n', st.sid) == Wrote(n, st.sid) + (if k > 0 then st.wbuf[..k] else [])
    requires Tr(n'.s.wire, st.sid).fin == Tr(n.s.wire, st.sid).fin
    ensures Balanced(n', st.(wbuf := st.wbuf[k..]), w, t)
  {
    hide Got, Tr;
    assert st.wbuf == st.wbuf[..k] + st.wbuf[k..];
  }

  lemma WriteNote(n: Node, sid: Sid, p: seq<Byte>)
    requires GoodConfig(n.s.cfg) && WriteStream(n.s, sid, p).1 <= |p|
    ensures var k := WriteStream(n.s, sid, p).1;
            var n' := Next(n, HostCall(CallWrite(sid, p)));
            && Wrote(n', sid) == Wrote(n, sid) + (if k > 0 then p[..k] else []) && n'.s == WriteStream(n.s, sid, p).0
  {
    hide WriteStream, DoOpen, DoClose, DoReset, DoConsume, DoCapacity, DoGoAway, DoTimer, DoAdvance, DoPop, Receive;
  }

  /** mux_consume of the bytes the application has read. */
  lemma ConsumeBalanced(n: Node, st: Lp, w: seq<Byte>, t: seq<Byte>)
    requires Inv(n) && GoodConfig(n.s.cfg) && Used(n, st.sid) && Balanced(n, st, w, t)
    ensures Balanced(Next(n, HostCall(CallConsume(st.sid, st.consumePending))), st.(consumePending := 0), w, t)
  {
    hide Inv, Used, Hear, Consume, DoWrite, DoOpen, DoClose, DoReset, DoCapacity, DoGoAway, DoTimer, DoAdvance, DoPop,
      Receive, Tr;
    var st1 := HostCall(CallConsume(st.sid, st.consumePending));
    FinOnlyByClose(n, st1, st.sid);
    ConsumeCounts(n, st.sid, st.consumePending);
    StepHistory(n, st1, st.sid);
  }

  /** mux_close, once nothing is left to send. */
  lemma CloseBalanced(n: Node, st: Lp, b: Lp, w: seq<Byte>, t: seq<Byte>)
    requires Inv(n) && GoodConfig(n.s.cfg) && Used(n, st.sid) && Balanced(n, st, w, t)
    requires st.appClosed && st.wbuf == [] && b == st.(finSent := true, protoDone := b.protoDone)
    ensures Balanced(Next(n, HostCall(CallClose(st.sid))), b, w, t)
  {
    hide Inv, Used, Got, Next, Tr;
    StepKeepsSrc(n, HostCall(CallClose(st.sid)), st.sid);
    StepHistory(n, HostCall(CallClose(st.sid)), st.sid);
  }

  /** Data taken from the session goes to the receive buffer. */
  lemma DataBalanced(n: Node, st: Lp, w: seq<Byte>, t: seq<Byte>)
    requires Inv(n) && GoodConfig(n.s.cfg) && Used(n, st.sid) && LpFlow(n, st, w, t)
    requires n.s.events != [] && n.s.events[0].StreamData? && n.s.events[0].sid == st.sid
    ensures LpFlow(Next(n, HostCall(CallPop)), st.(rbuf := st.rbuf + n.s.events[0].data), w, t)
  {
    hide Inv, Used, Hear, Waiting, Next, Tr;
    var pop := HostCall(CallPop);
    StepHistory(n, pop, st.sid);
    FinOnlyByClose(n, pop, st.sid);
    NoRevival(n, pop, st.sid);
    StepKeepsDst(n, pop, st.sid);
    HearAppend(n.popped, n.s.events[0], st.sid);
    assert t + st.rbuf + n.s.events[0].data == t + (st.rbuf + n.s.events[0].data);
  }

  /** A WRITABLE taken: the stream goes on the work list if it has anything to send. */
  lemma WritableBalanced(n: Node, st: Lp, w: seq<Byte>, t: seq<Byte>)
    requires Inv(n) && GoodConfig(n.s.cfg) && Used(n, st.sid) && Balanced(n, st, w, t)
    requires n.s.events != [] && n.s.events[0] == Writable(st.sid)
    ensures Balanced(Next(n, HostCall(CallPop)), st, w, t)
  {
    hide Inv, Used, Got, Next, Tr;
    StepKeepsSrc(n, HostCall(CallPop), st.sid);
    StepHistory(n, HostCall(CallPop), st.sid);
    FinOnlyByClose(n, HostCall(CallPop), st.sid);
  }

  /** Received bytes not yet credited fit the stream window. */
  lemma RbufFits(n: Node, st: Lp, w: seq<Byte>, t: seq<Byte>)
    requires Inv(n) && Balanced(n, st, w, t) && st.sid in n.s.streams && !n.s.dead
    ensures |st.rbuf| + st.consumePending <= n.s.cfg.initWindow
  {
    hide SessOk, WireOk, EncodeAll, Tr, Hear;
    assert SidOk(n, st.sid);
    HearLonger(n.popped, n.s.events, st.sid);
  }
}
