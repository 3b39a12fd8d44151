/** What a layer above a session keeps in mind about the streams it handles. */
module Hosting {
  import opened Codec
  import opened Session
  import opened Trace
  import opened Node
  import opened NodeControl
  import opened NodeRuns
  import opened HostWake
  import opened Splice

  ghost predicate Opening(es: seq<Event>, sid: Sid) {
    exists i :: 0 <= i < |es| && es[i].StreamOpened? && es[i].sid == sid
  }

  /** A stream the host knows: one the peer opened and whose opening was taken, or one of our own. */
  ghost predicate Mine(n: Node, inbound: bool, sid: Sid) {
    Used(n, sid) && if inbound then Opening(n.popped, sid) else Own(n.s.role, sid)
  }

  /** Nothing was done yet with streams whose opening is still queued. */
  ghost predicate Untouched(n: Node) {
    forall sid :: Opening(n.s.events, sid) ==> Wrote(n, sid) == [] && Consumed(n, sid) == 0
  }

  ghost predicate NodeGood(n: Node) { Inv(n) && GoodConfig(n.s.cfg) && OpensOk(n) && Untouched(n) }

  // ---------------------------------------------------------------- a step of one session

  lemma NotQueued(n: Node, inbound: bool, sid: Sid)
    requires OpensOk(n) && Mine(n, inbound, sid)
    ensures !Opening(n.s.events, sid)
  {
    hide Hear, OddSid, Used, OpensOk;
    if Opening(n.s.events, sid) {
      var j :| 0 <= j < |n.s.events| && n.s.events[j].StreamOpened? && n.s.events[j].sid == sid;
      OpeningForeign(n, j);
      if inbound {
        var i :| 0 <= i < |n.popped| && n.popped[i].StreamOpened? && n.popped[i].sid == sid;
        OpeningsApart(n, i, j);
      }
    }
  }

  lemma OpeningForeign(n: Node, j: nat)
    requires OpensOk(n) && j < |n.s.events| && n.s.events[j].StreamOpened?
    ensures !Own(n.s.role, n.s.events[j].sid)
  {
    hide Hear, OddSid;
    assert Log(n)[|n.popped| + j] == n.s.events[j];
  }

  lemma OpeningsApart(n: Node, i: nat, j: nat)
    requires OpensOk(n) && i < |n.popped| && n.popped[i].StreamOpened?
    requires j < |n.s.events| && n.s.events[j].StreamOpened?
    ensures n.popped[i].sid != n.s.events[j].sid
  {
    hide Hear, OddSid;
    assert Log(n)[i] == n.popped[i] && Log(n)[|n.popped| + j] == n.s.events[j];
  }

  /** Writes and credits go to known streams only. */
  predicate Orderly(n: Node, st: Step, known: set<Sid>) {
    st.HostCall? && (st.c.CallWrite? || st.c.CallConsume?) ==> st.c.sid in known
  }

  lemma UntouchedStep(n: Node, st: Step, inbound: bool, known: set<Sid>)
    requires NodeGood(n) && Enabled(n, st) && Orderly(n, st, known)
    requires forall sid :: sid in known ==> Mine(n, inbound, sid)
    ensures Untouched(Next(n, st))
  {
    hide Inv, Next, Mine, OpensOk;
    var n' := Next(n, st);
    forall sid | Opening(n'.s.events, sid) ensures Wrote(n', sid) == [] && Consumed(n', sid) == 0 {
      StepHistory(n, st, sid);
      if sid in known {
        NotQueued(n, inbound, sid);
        NotOpened(n, st, inbound, sid);
      } else {
        OpeningOrNew(n, st, sid);
        if !Opening(n.s.events, sid) {
          NeverUsed(n, sid);
        }
      }
    }
  }

  lemma NotOpened(n: Node, st: Step, inbound: bool, sid: Sid)
    requires Inv(n) && GoodConfig(n.s.cfg) && OpensOk(n) && Enabled(n, st) && Mine(n, inbound, sid)
    ensures !Opening(Next(n, st).s.events, sid)
  {
    hide Inv, Next, OpensOk, Used, OddSid;
    StepMine(n, st, inbound, sid);
    StepOpens(n, st);
    NotQueued(Next(n, st), inbound, sid);
  }

  lemma StepMine(n: Node, st: Step, inbound: bool, sid: Sid)
    requires Inv(n) && GoodConfig(n.s.cfg) && Enabled(n, st) && Mine(n, inbound, sid)
    ensures Mine(Next(n, st), inbound, sid)
  {
    hide Inv, Next, Used, OddSid;
    var n' := Next(n, st);
    NoRevival(n, st, sid);
    StepHistory(n, st, sid);
    SameRole(n, st);
    if inbound {
      var i :| 0 <= i < |n.popped| && n.popped[i].StreamOpened? && n.popped[i].sid == sid;
      assert n'.popped[i] == n.popped[i];
    }
  }

  lemma SameRole(n: Node, st: Step)
    requires Inv(n) && GoodConfig(n.s.cfg) && Enabled(n, st)
    ensures Next(n, st).s.role == n.s.role
  {
    hide Inv, Process, OpenStream, WriteStream, CloseStream, ResetStream, Consume, SendCapacity, SendGoAway, OnTimer,
        Receive;
    if Ordinary(st) {
      OrdinaryPlain(n, st);
    } else if st.PeerFrame? {
      SynProcess(n, st.f, st.order);
    } else if st.c.CallOpen? {
      OpenReports(n, st.c.meta);
    }
  }

  /** A queued opening was queued before, or is of an id never used before. */
  lemma OpeningOrNew(n: Node, st: Step, sid: Sid)
    requires Inv(n) && GoodConfig(n.s.cfg) && OpensOk(n) && Enabled(n, st) && Opening(Next(n, st).s.events, sid)
    ensures Opening(n.s.events, sid) || !Used(n, sid)
  {
    hide Inv, Receive, Process, DoOpen, DoWrite, DoClose, DoReset, DoConsume, DoCapacity, DoGoAway, DoTimer, DoAdvance,
        OpensOk;
    var n' := Next(n, st);
    var i :| 0 <= i < |n'.s.events| && n'.s.events[i].StreamOpened? && n'.s.events[i].sid == sid;
    StepLonger(n, st);
    if st == HostCall(CallPop) {
      assert n.s.events != [] ==> n.s.events[i + 1] == n'.s.events[i];
      assert Opening(n.s.events, sid);
    } else if i < |n.s.events| {
      assert n.s.events[i] == n'.s.events[i];
    } else if Ordinary(st) {
      OrdinaryPlain(n, st);
    } else if st.PeerFrame? {
      SynProcess(n, st.f, st.order);
    } else {
      OpenReports(n, st.c.meta);
    }
  }

  lemma NeverUsed(n: Node, sid: Sid)
    requires Inv(n) && !Used(n, sid)
    ensures Wrote(n, sid) == [] && Consumed(n, sid) == 0 && !Tr(n.s.wire, sid).fin
  {
    hide SessOk, WireOk, EncodeAll, Tr, Hear, LiveOk;
    assert SidOk(n, sid);
  }

  /** A step of a good session keeps it good. */
  lemma StepGood(n: Node, st: Step, inbound: bool, known: set<Sid>)
    requires NodeGood(n) && Enabled(n, st) && Orderly(n, st, known)
    requires forall sid :: sid in known ==> Mine(n, inbound, sid)
    ensures NodeGood(Next(n, st)) && forall sid :: sid in known ==> Mine(Next(n, st), inbound, sid)
  {
    hide Inv, Next, Mine, OpensOk, Untouched;
    StepInv(n, st);
    InvConfig(Next(n, st));
    StepOpens(n, st);
    UntouchedStep(n, st, inbound, known);
    forall sid | sid in known ensures Mine(Next(n, st), inbound, sid) {
      StepMine(n, st, inbound, sid);
    }
  }

  /** A stream on which nothing has happened from the host's point of view. */
  predicate NothingYet(n: Node, sid: Sid) { Got(n, sid) == [] && Wrote(n, sid) == [] && Consumed(n, sid) == 0 }

  /** A stream just reported opened is new to the host. */
  lemma OpeningMine(n: Node)
    requires OpensOk(n) && n.s.events != [] && n.s.events[0].StreamOpened?
    ensures var sid := n.s.events[0].sid;
            var n' := Do(n, CallPop);
            !Opening(n.popped, sid) && Mine(n', true, sid) && Got(n', sid) == []
  {
    hide Hear, DoWrite, DoOpen, DoClose, DoReset, DoConsume, DoCapacity, DoGoAway, DoTimer, DoAdvance, OddSid;
    var e := n.s.events[0];
    OpeningIsNew(n);
    HearAppend(n.popped, e, e.sid);
    var n' := Do(n, CallPop);
    assert n'.popped[|n.popped|] == e;
  }

  /** And nothing happened on it yet. */
  lemma OpeningBlank(n: Node)
    requires OpensOk(n) && Untouched(n) && n.s.events != [] && n.s.events[0].StreamOpened?
    ensures NothingYet(Do(n, CallPop), n.s.events[0].sid)
  {
    OpeningMine(n);
    hide Hear, DoWrite, DoOpen, DoClose, DoReset, DoConsume, DoCapacity, DoGoAway, DoTimer, DoAdvance, OpensOk, Mine;
    assert Opening(n.s.events, n.s.events[0].sid);
  }

  lemma StartGood(raw: Config, role: Role)
    requires New(raw, role).Some?
    ensures var n := Start(New(raw, role).value);
            NodeGood(n) && n.popped == [] && n.consumedTotal == 0
  {
    hide Inv, Encode, GrowTo, HelloPayload;
    StartInv(raw, role);
    InvConfig(Start(New(raw, role).value));
  }
}
