/** What a stream left over from an earlier session does to the stream of the present one that has its id: the
    I/O thread calls the session by id, and the two get mixed up exactly when the call moves anything. */
module Meddling {
  import opened Wire
  import opened Codec
  import opened Session
  import opened Trace
  import opened Node
  import opened NodeHonest
  import opened NodeRuns
  import opened HostWake
  import opened Splice
  import opened Hosting
  import opened Finishing
  import opened Crediting
  import opened PeerDesk
  import opened PeerFlow

  /** The calls of process_pending, for stream `sid`. */
  predicate ForStream(c: Call, sid: Sid) {
    match c
    case CallConsume(x, k) => x == sid && k > 0
    case CallWrite(x, p) => x == sid && p != []
    case CallClose(x) => x == sid
    case _ => false
  }

  /** The first frame of a write goes out: the stream may send, both windows are open and the frame fits. */
  predicate TakesSome(s: Session, sid: Sid, k: nat) {
    OpenFor(s, sid) &&
    var room := Min(s.streams[sid].sendWin, s.sendWin);
    0 < room && HEADER_SIZE + |s.out| + Min(Min(k, room), MAX_DATA_FRAME) <= Max(s.cap, s.cfg.maxOutBuffer)
  }

  /** The call moves something of the stream: credit if it is live, bytes, or a FIN while its owner has sent none. */
  predicate Harms(s: Session, finSent: bool, c: Call) {
    match c
    case CallConsume(sid, k) => !s.dead && sid in s.streams && CreditFits(s, sid, k)
    case CallWrite(sid, p) => TakesSome(s, sid, |p|)
    case CallClose(sid) => !finSent && !s.dead && sid in s.streams && HasRoom(s, FinFrame(sid))
    case _ => false
  }

  lemma WriteSomeExactly(s: Session, sid: Sid, p: seq<Byte>)
    requires p != []
    ensures WriteStream(s, sid, p).1 > 0 <==> TakesSome(s, sid, |p|)
  {
    hide Encode, GrowTo;
    if OpenFor(s, sid) {
      var room := Min(s.streams[sid].sendWin, s.sendWin);
      if room > 0 {
        var q := p[..Min(|p|, room)];
        assert |q| > 0;
        var c := Min(|q|, MAX_DATA_FRAME);
        assert |DataFrame(sid, q[..c]).payload| == c;
      }
    }
  }

  lemma WriteMeddles(n: Node, st: Lp, w: seq<Byte>, t: seq<Byte>, p: seq<Byte>)
    requires Inv(n) && GoodConfig(n.s.cfg) && Used(n, st.sid) && Balanced(n, st, w, t) && p != []
    ensures Balanced(Do(n, CallWrite(st.sid, p)), st, w, t) <==> !TakesSome(n.s, st.sid, |p|)
  {
    hide Inv, Used, WriteStream, Got, Next, Do, Tr, TakesSome;
    var c := HostCall(CallWrite(st.sid, p));
    WriteSomeExactly(n.s, st.sid, p);
    WriteWaits(n.s, st.sid, p);
    WriteNote(n, st.sid, p);
    StepKeepsSrc(n, c, st.sid);
    FinOnlyByClose(n, c, st.sid);
    StepIsDo(n, CallWrite(st.sid, p));
    var k := WriteStream(n.s, st.sid, p).1;
    if k > 0 {
      assert |Wrote(Do(n, CallWrite(st.sid, p)), st.sid)| == |Wrote(n, st.sid)| + k;
    }
  }

  lemma ConsumeMeddles(n: Node, st: Lp, w: seq<Byte>, t: seq<Byte>, k: nat)
    requires Inv(n) && GoodConfig(n.s.cfg) && Used(n, st.sid) && Balanced(n, st, w, t) && k > 0
    ensures Balanced(Do(n, CallConsume(st.sid, k)), st, w, t)
            <==> !(!n.s.dead && st.sid in n.s.streams && CreditFits(n.s, st.sid, k))
  {
    hide Inv, Used, Hear, Consume, DoWrite, DoOpen, DoClose, DoReset, DoCapacity, DoGoAway, DoTimer, DoAdvance, DoPop,
      Receive, Tr, CreditFits;
    var c := HostCall(CallConsume(st.sid, k));
    ConsumeDiesExactly(n.s, st.sid, k);
    FinOnlyByClose(n, c, st.sid);
    ConsumeCounts(n, st.sid, k);
    StepHistory(n, c, st.sid);
    ConsumeStreams(n.s, st.sid, k);
  }

  lemma CloseMeddles(n: Node, st: Lp, w: seq<Byte>, t: seq<Byte>)
    requires Inv(n) && GoodConfig(n.s.cfg) && Used(n, st.sid) && Balanced(n, st, w, t)
    ensures Balanced(Do(n, CallClose(st.sid)), st, w, t)
            <==> !(!st.finSent && !n.s.dead && st.sid in n.s.streams && HasRoom(n.s, FinFrame(st.sid)))
  {
    hide Inv, Used, Got, Next, Tr, Do;
    var c := HostCall(CallClose(st.sid));
    StepKeepsSrc(n, c, st.sid);
    StepHistory(n, c, st.sid);
    StepIsDo(n, CallClose(st.sid));
    CloseFins(n, st.sid);
  }

  /** mux_close puts a FIN on the wire that was not there if and only if the stream is live and unfinished and the
      frame fits. */
  lemma CloseFins(n: Node, sid: Sid)
    requires Inv(n)
    ensures var n' := Do(n, CallClose(sid));
            Tr(n'.s.wire, sid).fin == (Tr(n.s.wire, sid).fin
                                       || (!n.s.dead && sid in n.s.streams && HasRoom(n.s, FinFrame(sid))))
  {
    hide SessOk, WireOk, Encode, EncodeAll, Tr, Hear, GrowTo, HasSyn, HasFin, HasRst, Do;
    FlagFacts();
    DoIsClose(n, sid);
    assert SidOk(n, sid);
    TrAppend(n.s.wire, FinFrame(sid), sid);
  }

  lemma StepIsDo(n: Node, c: Call)
    requires GoodConfig(n.s.cfg)
    ensures Next(n, HostCall(c)) == Do(n, c)
  {
    hide Do;
  }

  /** A call for a leftover stream leaves the books of the present stream with its id in order if and only if it
      moves nothing. */
  lemma MeddlingExactly(n: Node, st: Lp, w: seq<Byte>, t: seq<Byte>, c: Call)
    requires Inv(n) && GoodConfig(n.s.cfg) && Used(n, st.sid) && Balanced(n, st, w, t) && ForStream(c, st.sid)
    ensures Balanced(Do(n, c), st, w, t) <==> !Harms(n.s, st.finSent, c)
  {
    hide Inv, Used, Balanced, Do, TakesSome, CreditFits;
    match c
    case CallConsume(sid, k) => ConsumeMeddles(n, st, w, t, k);
    case CallWrite(sid, p) => WriteMeddles(n, st, w, t, p);
    case CallClose(sid) => CloseMeddles(n, st, w, t);
  }

  // ---------------------------------------------------------------- a call that moves nothing

  /** It leaves also a wake-up owed to the present stream. */
  lemma HarmlessKeeps(n: Node, st: Lp, w: seq<Byte>, t: seq<Byte>, c: Call)
    requires Inv(n) && GoodConfig(n.s.cfg) && Used(n, st.sid) && LpFlow(n, st, w, t)
    requires ForStream(c, st.sid) && !Harms(n.s, st.finSent, c)
    ensures LpFlow(Do(n, c), st, w, t)
  {
    hide Inv, Used, Balanced, Do, TakesSome, CreditFits, Waiting, WriteStream;
    MeddlingExactly(n, st, w, t, c);
    StepIsDo(n, c);
    if c.CallWrite? {
      WriteSomeExactly(n.s, st.sid, c.p);
      WriteWaits(n.s, st.sid, c.p);
      WriteNote(n, st.sid, c.p);
    } else {
      StepKeepsDst(n, HostCall(c), st.sid);
    }
  }

  /** And an id that is still silent stays so. */
  lemma HarmlessSilent(n: Node, sid: Sid, c: Call)
    requires Inv(n) && GoodConfig(n.s.cfg) && Silent(n, sid) && ForStream(c, sid) && !Harms(n.s, false, c)
    ensures Silent(Do(n, c), sid)
  {
    hide Inv, Do, TakesSome, CreditFits, Got, Tr, Used;
    if sid in n.s.streams {
      LiveUsed(n, sid);
      var st := Lp(sid, true, Got(n, sid), [], 0, false, false, false, false, false, false, false, false);
      assert Got(n, sid) == [] + st.rbuf;
      MeddlingExactly(n, st, [], [], c);
    } else {
      GoneSilent(n, sid, c);
    }
  }

  lemma LiveUsed(n: Node, sid: Sid)
    requires Inv(n) && sid in n.s.streams
    ensures Used(n, sid)
  {
    hide SessOk, WireOk, EncodeAll, Tr, Hear, LiveOk;
    assert SidOk(n, sid);
  }

  lemma GoneSilent(n: Node, sid: Sid, c: Call)
    requires Inv(n) && GoodConfig(n.s.cfg) && Silent(n, sid) && ForStream(c, sid) && sid !in n.s.streams
    ensures Silent(Do(n, c), sid)
  {
    hide Inv, Tr, Consume, DoOpen, DoReset, DoCapacity, DoGoAway, DoTimer, DoAdvance, DoPop;
    if c.CallConsume? {
      ConsumeStreams(n.s, sid, c.n);
      FinOnlyByClose(n, HostCall(c), sid);
    }
  }

  /** Whether the owner of the present stream with that id has sent its FIN. */
  predicate FinOf(d: Desk, sid: Sid) { sid in d.reg && d.reg[sid] in d.all && d.all[d.reg[sid]].finSent }

  /** A call for leftover stream `x0` that moves nothing leaves every stream of the session in order. */
  lemma HarmlessFlows(n: Node, c: Call, d: Desk, meddled: set<Sid>, w: map<nat, seq<Byte>>, t: map<nat, seq<Byte>>,
                      x0: nat)
    requires Tied(n, d) && RegOk(d) && FlowsBut(n, d, meddled, w, t, x0) && x0 in d.all && !d.all[x0].inReg
    requires ForStream(c, d.all[x0].sid) && !Harms(n.s, FinOf(d, d.all[x0].sid), c)
    ensures FlowsBut(Do(n, c), d, meddled, w, t, x0)
  {
    hide Inv, Do, OpensOk, LpFlow, Used, Harms, Opening, Silent;
    var sid0 := d.all[x0].sid;
    StepIsDo(n, c);
    forall x | x in d.all && Ours(d.all[x], meddled) && x != x0 ensures LpFlow(Do(n, c), d.all[x], w[x], t[x]) {
      assert Mine(n, true, d.all[x].sid);
      if d.all[x].sid == sid0 {
        HarmlessKeeps(n, d.all[x], w[x], t[x], c);
      } else {
        LpStep(n, HostCall(c), d.all[x], w[x], t[x]);
      }
    }
    forall sid | Opening(Do(n, c).s.events, sid) && sid !in meddled ensures Silent(Do(n, c), sid) {
      HarmlessOpening(n, c, d, meddled, sid0, sid);
    }
  }

  lemma HarmlessOpening(n: Node, c: Call, d: Desk, meddled: set<Sid>, sid0: Sid, sid: Sid)
    requires Tied(n, d) && RegOk(d) && Unused(n, meddled) && ForStream(c, sid0) && !Harms(n.s, FinOf(d, sid0), c)
    requires Opening(Do(n, c).s.events, sid) && sid !in meddled
    ensures Silent(Do(n, c), sid)
  {
    hide Inv, Do, OpensOk, Mine, Harms, Opening, Silent;
    StepIsDo(n, c);
    if sid in d.reg {
      NotOpened(n, HostCall(c), true, sid);
    } else {
      OpeningSilent(n, sid, HostCall(c));
      if sid == sid0 {
        HarmlessSilent(n, sid, c);
      } else {
        SilentStep(n, HostCall(c), sid);
      }
    }
  }
}
