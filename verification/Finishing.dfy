/** A stream is finished on the wire by mux_close of that stream, and by nothing else a session does. */
module Finishing {
  import opened Wire
  import opened Codec
  import opened Session
  import opened Trace
  import opened Node
  import opened NodeRuns
  import opened Emitting

  lemma {:induction false} NoEndTrace(s: Session, s': Session, ks: set<Kind>, x: Sid, k: nat)
    requires Emits(s, s', ks) && Finish !in ks && Mixed !in ks && |s.wire| <= k <= |s'.wire|
    ensures Tr(s'.wire[..k], x).fin == Tr(s.wire, x).fin
    decreases k
  {
    hide HasAck, Get32;
    if k == |s.wire| {
      assert s'.wire[..k] == s.wire;
    } else {
      NoEndTrace(s, s', ks, x, k - 1);
      assert s'.wire[..k] == s'.wire[..k - 1] + [s'.wire[k - 1]];
      TrAppend(s'.wire[..k - 1], s'.wire[k - 1], x);
    }
  }

  lemma CloseTrace(s: Session, sid: Sid, x: Sid)
    requires x != sid
    ensures Tr(CloseStream(s, sid).0.wire, x).fin == Tr(s.wire, x).fin
  {
    hide Encode, GrowTo, Tr;
    TrAppend(s.wire, FinFrame(sid), x);
  }

  predicate Closes(st: Step, x: Sid) { st == HostCall(CallClose(x)) }

  /** Only mux_close of a stream puts its FIN on the wire. */
  lemma FinOnlyByClose(n: Node, st: Step, x: Sid)
    requires GoodConfig(n.s.cfg) && !Closes(st, x)
    ensures Tr(Next(n, st).s.wire, x).fin == Tr(n.s.wire, x).fin
  {
    hide Do, Process, Tr, CloseStream, Emits, KindOf;
    var s' := Next(n, st).s;
    if st.HostCall? && st.c.CallClose? {
      DoIsClose(n, st.c.sid);
      CloseTrace(n.s, st.c.sid, x);
    } else {
      StepEmits(n, st);
      SplitAll(n.s, s', Utters(st), x);
    }
  }

  lemma SplitAll(s: Session, s': Session, ks: set<Kind>, x: Sid)
    requires Emits(s, s', ks) && Finish !in ks && Mixed !in ks
    ensures Tr(s'.wire, x).fin == Tr(s.wire, x).fin
  {
    hide Tr;
    NoEndTrace(s, s', ks, x, |s'.wire|);
    assert s'.wire[..|s'.wire|] == s'.wire;
  }

  lemma DoIsClose(n: Node, sid: Sid)
    ensures Do(n, CallClose(sid)) == DoClose(n, sid)
  {
    hide DoWrite, DoOpen, DoClose, DoReset, DoConsume, DoCapacity, DoGoAway, DoTimer, DoAdvance, DoPop;
  }
}
