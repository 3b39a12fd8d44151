/** When a session gives up a silent peer, in every run and whenever mux_on_timer is called: exactly when the
    call comes a timeout or more after the last ping, still unanswered. Since every ping restarts the wait, a
    host that calls often enough never gives up a peer if the timeout is longer than the heartbeat. */
module Detecting {
  import opened Codec
  import opened Session
  import opened Node
  import opened NodeRuns
  import opened Pair
  import opened Keepalive

  /** Step `j` sent a ping at time `t`, the last one before step `i`, and no answer came. */
  ghost predicate LastPing(ns: seq<Node>, sts: seq<Step>, j: nat, i: nat, t: nat) {
    Unanswered(ns, sts, j, i, t) && forall k :: j < k < i ==> !Beats(ns[k], sts[k])
  }

  /** The step sends a ping. */
  predicate Beats(n: Node, st: Step) {
    st.HostCall? && st.c.CallTimer? && GoodConfig(n.s.cfg) && Pings(n, st, st.c.now)
  }

  // ---------------------------------------------------------------- one step

  /** A ping records its time and the next one is due a heartbeat later. */
  lemma BeatTimer(n: Node, st: Step, t: nat)
    requires GoodConfig(n.s.cfg) && Pings(n, st, t)
    ensures var m := Next(n, st).s.timer;
            m.started && m.outstanding && m.sentMs == t && m.dueMs == (t + n.s.cfg.heartbeatMs) % U64_LIMIT
  {
    hide OnTimer, PingFrame, DoOpen, DoWrite, DoClose, DoReset, DoConsume, DoCapacity, DoGoAway, DoPop, DoAdvance;
    PingTimer(n.s, t);
  }

  lemma PingTimer(s: Session, now: nat)
    requires OnTimer(s, now).0.wire == s.wire + [PingFrame(s.timer.nonce)]
    ensures var m := OnTimer(s, now).0.timer;
            m.started && m.outstanding && m.sentMs == now && m.dueMs == (now + s.cfg.heartbeatMs) % U64_LIMIT
  {
    hide Encode, GrowTo, PingFrame, PeerSilent, NextDeadline;
  }

  /** What keeps a timer going: nothing but a ping and an answer touches the wait, once the timer is started. */
  predicate WaitKept(a: Timer, b: Timer) {
    && (a.outstanding <==> b.outstanding) && a.sentMs == b.sentMs
    && (a.started ==> b.started && a.dueMs == b.dueMs)
  }

  lemma IdleTimer(n: Node, st: Step)
    requires GoodConfig(n.s.cfg) && !Beats(n, st) && !Answer(n, st)
    ensures WaitKept(n.s.timer, Next(n, st).s.timer)
  {
    hide OnTimer, Receive, PingFrame, DoOpen, DoWrite, DoClose, DoReset, DoConsume, DoCapacity, DoGoAway, DoPop,
      DoAdvance;
    match st
    case HostCall(c) => if c.CallTimer? { QuietCall(n.s, c.now); } else { OtherCallTimer(n, c); }
    case PeerFrame(f, order) => ReceiveTimer(n, f, order);
    case PeerGarbage =>
  }

  lemma QuietCall(s: Session, now: nat)
    requires OnTimer(s, now).0.wire != s.wire + [PingFrame(s.timer.nonce)]
    ensures WaitKept(s.timer, OnTimer(s, now).0.timer)
  {
    hide Encode, GrowTo, PingFrame, PeerSilent, NextDeadline;
  }

  /** With room for a ping, a call kills exactly when the wait is over, and else sends a ping exactly when one is
      due. */
  lemma CallExactly(s: Session, now: nat)
    requires !s.dead && s.cfg.heartbeatMs != 0 && HasRoom(s, PingFrame(s.timer.nonce))
    ensures var s1 := OnTimer(s, now).0;
            && (s1.dead <==> s.timer.started && PeerSilent(s, now))
            && (s1.wire == s.wire + [PingFrame(s.timer.nonce)]
                <==> s.timer.started && !PeerSilent(s, now) && s.timer.dueMs <= now)
  {
    hide Encode, GrowTo, PingFrame, PeerSilent;
  }

  // ---------------------------------------------------------------- a run

  lemma {:induction false} OutstandingIsLast(raw: Config, role: Role, ns: seq<Node>, sts: seq<Step>, i: nat)
    requires IsRun(raw, role, ns, sts) && i < |ns| && ns[i].s.timer.outstanding
    ensures exists j: nat :: LastPing(ns, sts, j, i, ns[i].s.timer.sentMs)
    decreases i
  {
    hide Next, Pings, Answer, New, Enabled;
    if i == 0 {
      NewTimer(raw, role);
    } else {
      assert ns[i] == Next(ns[i - 1], sts[i - 1]);
      var t := ns[i].s.timer.sentMs;
      StepTimer(ns[i - 1], sts[i - 1]);
      if Pings(ns[i - 1], sts[i - 1], t) {
        assert LastPing(ns, sts, i - 1, i, t);
      } else {
        BeatsNot(ns[i - 1], sts[i - 1]);
        OutstandingIsLast(raw, role, ns, sts, i - 1);
        var j: nat :| LastPing(ns, sts, j, i - 1, t);
        assert LastPing(ns, sts, j, i, t);
      }
    }
  }

  /** A step that pings records its own time. */
  lemma BeatsNot(n: Node, st: Step)
    requires GoodConfig(n.s.cfg)
    ensures Beats(n, st) ==> Pings(n, st, Next(n, st).s.timer.sentMs)
  {
    hide Next, Pings;
    if Beats(n, st) {
      BeatTimer(n, st, st.c.now);
    }
  }

  lemma {:induction false} LastIsOutstanding(raw: Config, role: Role, ns: seq<Node>, sts: seq<Step>, j: nat, i: nat,
                                             t: nat)
    requires IsRun(raw, role, ns, sts) && LastPing(ns, sts, j, i, t)
    ensures var m := ns[i].s.timer;
            m.started && m.outstanding && m.sentMs == t && m.dueMs == (t + ns[j].s.cfg.heartbeatMs) % U64_LIMIT
    decreases i
  {
    hide Next, Pings, Answer, New, Enabled, Beats;
    assert ns[i] == Next(ns[i - 1], sts[i - 1]);
    if i == j + 1 {
      BeatTimer(ns[j], sts[j], t);
    } else {
      assert LastPing(ns, sts, j, i - 1, t);
      LastIsOutstanding(raw, role, ns, sts, j, i - 1, t);
      IdleTimer(ns[i - 1], sts[i - 1]);
    }
  }

  lemma NoHeart(s: Session, now: nat)
    requires s.cfg.heartbeatMs == 0
    ensures OnTimer(s, now).0 == s
  {
  }

  /** Detection, exactly, in every run: a call of mux_on_timer with room for a ping kills a live session if and
      only if it comes a timeout or more after the last ping, which no answer followed. */
  lemma DetectedExactly(raw: Config, role: Role, ns: seq<Node>, sts: seq<Step>, i: nat, now: nat)
    requires IsRun(raw, role, ns, sts) && i < |sts| && sts[i] == HostCall(CallTimer(now))
    requires !ns[i].s.dead && HasRoom(ns[i].s, PingFrame(ns[i].s.timer.nonce))
    ensures ns[i + 1].s.dead
            <==> exists j: nat, t: nat :: LastPing(ns, sts, j, i, t)
                   && 0 < ns[i].s.cfg.keepaliveTimeoutMs <= (now - t) % U64_LIMIT
  {
    hide LastPing, OnTimer, New, Enabled, HasRoom, PingFrame, DoOpen, DoWrite, DoClose, DoReset, DoConsume, DoCapacity,
      DoGoAway, DoPop, DoAdvance;
    var s := ns[i].s;
    assert ns[i + 1] == Next(ns[i], sts[i]);
    assert ns[i + 1].s == OnTimer(s, now).0;
    if s.cfg.heartbeatMs != 0 {
      CallExactly(s, now);
      if ns[i + 1].s.dead {
        OutstandingIsLast(raw, role, ns, sts, i);
      }
      forall j: nat, t: nat | LastPing(ns, sts, j, i, t) && 0 < s.cfg.keepaliveTimeoutMs <= (now - t) % U64_LIMIT
        ensures ns[i + 1].s.dead
      {
        LastIsOutstanding(raw, role, ns, sts, j, i, t);
      }
    } else {
      NoHeart(s, now);
      forall j: nat, t: nat | LastPing(ns, sts, j, i, t) ensures false {
        HeartBeats(raw, role, ns, sts, j, i, t);
      }
    }
  }

  /** A session that pings has a heartbeat. */
  lemma HeartBeats(raw: Config, role: Role, ns: seq<Node>, sts: seq<Step>, j: nat, i: nat, t: nat)
    requires IsRun(raw, role, ns, sts) && LastPing(ns, sts, j, i, t)
    ensures ns[i].s.cfg.heartbeatMs != 0 && ns[j].s.cfg == ns[i].s.cfg
  {
    hide Next, New, Enabled, PingFrame;
    SameConfig(raw, role, ns, sts, j);
    SameConfig(raw, role, ns, sts, i);
    Pinged(ns[j], t);
  }

  lemma Pinged(n: Node, t: nat)
    requires GoodConfig(n.s.cfg) && Pings(n, HostCall(CallTimer(t)), t)
    ensures n.s.cfg.heartbeatMs != 0
  {
    hide PingFrame;
  }

  lemma {:induction false} SameConfig(raw: Config, role: Role, ns: seq<Node>, sts: seq<Step>, i: nat)
    requires IsRun(raw, role, ns, sts) && i < |ns|
    ensures ns[i].s.cfg == ns[0].s.cfg
    decreases i
  {
    hide Next, New, Enabled;
    if i > 0 {
      SameConfig(raw, role, ns, sts, i - 1);
      assert ns[i] == Next(ns[i - 1], sts[i - 1]);
      StepConfig(ns[i - 1], sts[i - 1]);
    }
  }

  lemma StepConfig(n: Node, st: Step)
    requires GoodConfig(n.s.cfg)
    ensures Next(n, st).s.cfg == n.s.cfg
  {
    hide Do, Process;
    match st
    case HostCall(c) => CallSession(n, c);
    case PeerFrame(f, order) => TidyProcess(n.s, f, order);
    case PeerGarbage =>
  }

  // ---------------------------------------------------------------- a host that calls often

  /** Step `p` is the last call of mux_on_timer before step `i`, at time `t`. */
  ghost predicate CallBefore(sts: seq<Step>, p: nat, i: nat, t: nat) {
    p < i <= |sts| && sts[p] == HostCall(CallTimer(t)) && forall k :: p < k < i ==> !TimerCall(sts[k])
  }

  predicate TimerCall(st: Step) { st.HostCall? && st.c.CallTimer? }

  /** Times do not run back, and the clock is far from its end. */
  ghost predicate Rising(sts: seq<Step>, h: nat) {
    && (forall i :: 0 <= i < |sts| && TimerCall(sts[i]) ==> sts[i].c.now + h < U64_LIMIT)
    && forall i, j :: 0 <= i < j < |sts| && TimerCall(sts[i]) && TimerCall(sts[j]) ==> sts[i].c.now <= sts[j].c.now
  }

  /** A host that is never longer than timeout less heartbeat between two calls never gives up its peer, though it
      never hears from it: by the time a ping is overdue the next one has gone out. */
  lemma FrequentCallsNeverDetect(raw: Config, role: Role, ns: seq<Node>, sts: seq<Step>, i: nat, p: nat)
    requires IsRun(raw, role, ns, sts) && i < |sts| && TimerCall(sts[i]) && Rising(sts, ns[0].s.cfg.heartbeatMs)
    requires !ns[i].s.dead && HasRoom(ns[i].s, PingFrame(ns[i].s.timer.nonce))
    requires p < i && TimerCall(sts[p]) && CallBefore(sts, p, i, sts[p].c.now)
    requires sts[i].c.now - sts[p].c.now <= ns[0].s.cfg.keepaliveTimeoutMs - ns[0].s.cfg.heartbeatMs
    ensures !ns[i + 1].s.dead
  {
    hide LastPing, New, Enabled, HasRoom, PingFrame, Next;
    var now := sts[i].c.now;
    SameConfig(raw, role, ns, sts, i);
    DetectedExactly(raw, role, ns, sts, i, now);
    forall j: nat, t: nat | LastPing(ns, sts, j, i, t) && 0 < ns[i].s.cfg.keepaliveTimeoutMs <= (now - t) % U64_LIMIT
      ensures false
    {
      HeartBeats(raw, role, ns, sts, j, i, t);
      CallAfterPing(raw, role, ns, sts, j, p, i, t);
      NoWrap(now - t);
    }
  }

  /** The last call after a ping came before the next ping was due. */
  lemma CallAfterPing(raw: Config, role: Role, ns: seq<Node>, sts: seq<Step>, j: nat, p: nat, i: nat, t: nat)
    requires IsRun(raw, role, ns, sts) && i < |sts| && LastPing(ns, sts, j, i, t) && !ns[i].s.dead
    requires TimerCall(sts[i]) && Rising(sts, ns[0].s.cfg.heartbeatMs)
    requires p < i && TimerCall(sts[p]) && CallBefore(sts, p, i, sts[p].c.now)
    ensures t <= sts[i].c.now && t <= sts[p].c.now && ns[0].s.cfg.heartbeatMs > 0
    ensures sts[p].c.now < t + ns[0].s.cfg.heartbeatMs
  {
    hide New, Enabled, PingFrame, Next, Answer;
    HeartBeats(raw, role, ns, sts, j, i, t);
    SameConfig(raw, role, ns, sts, j);
    SameConfig(raw, role, ns, sts, p);
    assert TimerCall(sts[j]) && sts[j].c.now == t;
    assert j <= p;
    if j < p {
      assert LastPing(ns, sts, j, p, t);
      LastIsOutstanding(raw, role, ns, sts, j, p, t);
      AliveBefore(raw, role, ns, sts, p + 1, i);
      assert ns[p + 1] == Next(ns[p], sts[p]);
      NoPingNotDue(ns[p], sts[p].c.now);
      assert !Beats(ns[p], sts[p]);
    }
  }

  /** A call that neither kills nor pings came before the ping was due. */
  lemma NoPingNotDue(n: Node, now: nat)
    requires GoodConfig(n.s.cfg) && n.s.cfg.heartbeatMs != 0 && n.s.timer.started
    requires !Next(n, HostCall(CallTimer(now))).s.dead
    ensures Beats(n, HostCall(CallTimer(now))) || now < n.s.timer.dueMs
  {
    hide Encode, GrowTo, PingFrame, PeerSilent, NextDeadline, DoOpen, DoWrite, DoClose, DoReset, DoConsume, DoCapacity,
      DoGoAway, DoPop, DoAdvance;
  }

  lemma {:induction false} AliveBefore(raw: Config, role: Role, ns: seq<Node>, sts: seq<Step>, k: nat, i: nat)
    requires IsRun(raw, role, ns, sts) && k <= i < |ns| && !ns[i].s.dead
    ensures !ns[k].s.dead
    decreases i
  {
    hide Next, New, Enabled;
    if k < i {
      assert ns[i] == Next(ns[i - 1], sts[i - 1]);
      StepAlive(ns[i - 1], sts[i - 1]);
      AliveBefore(raw, role, ns, sts, k, i - 1);
    }
  }
}
