/** The peer client as an object (libpeer/src/libpeer.c). Every call runs under one mutex, so each method is
    one atomic step. Stream objects are freed only when nothing refers to them, none is leaked, and within
    one tunnel session the bytes of every stream are conserved. */
module PeerClient {
  import opened Commons
  import opened Wire
  import opened Session
  import opened Node
  import opened NodeRuns
  import opened HostWake
  import opened Splice
  import opened PeerDesk
  import opened PeerFlow
  import opened Meddling
  import opened PeerLaws
  import opened PeerEnds
  import opened Auth
  import opened Draining

  class Client {
    var n: Node
    var up: bool
    var poll: bool
    var stopping: bool
    var authed: bool
    const token: Option<seq<Byte>>
    var all: map<nat, Lp>
    var reg: map<Sid, nat>
    var pending: seq<nat>
    var ready: seq<nat>
    var accept: seq<nat>
    var names: nat
    ghost var handles: set<nat>
    ghost var meddled: set<Sid>
    ghost var written: map<nat, seq<Byte>>
    ghost var taken: map<nat, seq<Byte>>

    ghost function Abs(): Desk
      reads this
    {
      Desk(all, reg, pending, ready, accept, handles)
    }

    /** Streams are named as they come, each shows the end that its session reported, its work is on the list,
        save perhaps that of those in `skip`, and the oldest is accepted first. */
    ghost predicate Steady(skip: set<nat>)
      reads this
    {
      (forall x :: x in all ==> x < names) && Ends(n, all) && Owed(all, skip) && Ascends(accept)
    }

    /** `meddled` are the ids of which a stream left over from an earlier session moved something in this one. */
    ghost predicate Valid()
      reads this
    {
      && Steady({})
      && (up ==> Rested(n, Abs(), [], written, taken, meddled))
      && (!up ==> DeskOk(Abs(), []) && reg == map[])
    }

    ghost predicate Busy(extra: seq<nat>, x: nat)
      reads this
    {
      up && Steady({x}) && Working(n, Abs(), extra, written, taken, meddled, x)
    }

    // -------------------------------------------------------------- work on one stream

    method Change(x: nat, st: Lp)
      requires x in all
      modifies `all
      ensures Abs() == Put(old(Abs()), x, st)
    {
      all := all[x := st];
    }

    /** A call for a stream left over from an earlier session is noted if it moves anything. */
    ghost method Note(x: nat, c: Call, extra: seq<nat>)
      requires x in all && Busy(extra, x)
      modifies `meddled
      ensures Busy(extra, x) && meddled == AfterCall(n.s, Abs(), old(meddled), x, c)
      ensures Permitted(n.s, Abs(), meddled, x, c)
    {
      hide Working, Harms, Ends, Owed, Ascends;
      if !all[x].inReg && Harms(n.s, FinOf(Abs(), all[x].sid), c) {
        MeddledWork(n, Abs(), extra, written, taken, meddled, x, all[x].sid);
        meddled := meddled + {all[x].sid};
      }
    }

    /** The mux_consume of process_pending. */
    method CreditRead(x: nat, ghost extra: seq<nat>)
      requires x in all && Busy(extra, x)
      modifies `n, `all, `meddled
      ensures Busy(extra, x) && x in all && all[x] == old(all[x]).(consumePending := 0) && OthersSame(old(all), all, x)
      ensures meddled == if old(all[x]).consumePending == 0 then old(meddled)
                         else AfterCall(old(n).s, old(Abs()), old(meddled), x,
                                        CallConsume(old(all[x]).sid, old(all[x]).consumePending))
    {
      hide Working, Next, AfterCall, Permitted, Ends, Owed, Ascends, Inv;
      if all[x].consumePending > 0 {
        var st, c := all[x], CallConsume(all[x].sid, all[x].consumePending);
        Note(x, c, extra);
        WorkingSid(n, Abs(), extra, written, taken, meddled, x);
        EndsCall(n, c, all, x, st.(consumePending := 0));
        OwedPut(all, {x}, x, st.(consumePending := 0));
        ConsumeWork(n, Abs(), extra, written, taken, meddled, x);
        n := Next(n, HostCall(c));
        Change(x, st.(consumePending := 0));
      }
    }

    /** One mux_write of the send buffer. */
    method WriteOnce(x: nat, ghost extra: seq<nat>) returns (k: int)
      requires x in all && Busy(extra, x) && all[x].wbuf != []
      modifies `n, `all, `meddled
      ensures Busy(extra, x) && x in all && k <= |old(all[x]).wbuf|
      ensures all[x] == Unsent(old(all[x]), k) && OthersSame(old(all), all, x)
      ensures k < |old(all[x]).wbuf| ==> Waiting(n.s, all[x].sid)
      ensures meddled == AfterCall(old(n).s, old(Abs()), old(meddled), x,
                                   CallWrite(old(all[x]).sid, old(all[x]).wbuf))
    {
      hide Working, Next, Waiting, WriteStream, Unsent, AfterCall, Permitted, Ends, Owed, Ascends, Inv;
      var st := all[x];
      var c := CallWrite(st.sid, st.wbuf);
      Note(x, c, extra);
      WriteWork(n, Abs(), extra, written, taken, meddled, x);
      k := WriteStream(n.s, st.sid, st.wbuf).1;
      UnsentPlace(st, k);
      var rest := Unsent(st, k);
      WorkingSid(n, Abs(), extra, written, taken, meddled, x);
      EndsCall(n, c, all, x, rest);
      OwedPut(all, {x}, x, rest);
      n := Next(n, HostCall(c));
      Change(x, rest);
    }

    /** The loop of flush_wbuf: write until the buffer is empty or the session takes no more. */
    method Drain(x: nat, ghost extra: seq<nat>)
      requires x in all && Busy(extra, x) && all[x].wbuf != []
      modifies `n, `all, `meddled
      ensures Within(old(meddled), meddled, old(all[x]))
      ensures Busy(extra, x) && x in all && Resent(old(all[x]), all[x]) && OthersSame(old(all), all, x)
      ensures all[x].wantWritable == old(all[x]).wantWritable && all[x].inReady == old(all[x]).inReady
      ensures all[x].wbuf != [] ==> Waiting(n.s, all[x].sid)
    {
      hide Client.Busy, Waiting, OthersSame, Within, AfterCall, Resent, Unsent;
      SameResent(all[x]);
      OthersRefl(all, x);
      Unmoved(meddled, all[x]);
      while all[x].wbuf != []
        invariant x in all && Busy(extra, x) && Resent(old(all[x]), all[x]) && OthersSame(old(all), all, x)
        invariant all[x].wantWritable == old(all[x]).wantWritable && all[x].inReady == old(all[x]).inReady
        invariant all[x].inReg == old(all[x]).inReg && all[x].sid == old(all[x]).sid
        invariant Within(old(meddled), meddled, old(all[x]))
        decreases |all[x].wbuf|
      {
        ghost var all1, m1 := all, meddled;
        CallWithin(n.s, Abs(), meddled, x, CallWrite(all[x].sid, all[x].wbuf));
        var k := WriteOnce(x, extra);
        ResentMore(old(all[x]), all1[x], k);
        OthersTrans(old(all), all1, all, x);
        WithinTrans(old(meddled), m1, meddled, old(all[x]), all1[x]);
        if k <= 0 {
          break;
        }
      }
    }

    /** flush_wbuf; then the writer is told if there is room again. */
    method FlushWbuf(x: nat, ghost extra: seq<nat>)
      requires x in all && Busy(extra, x) && all[x].wbuf != []
      modifies `n, `all, `ready, `meddled
      ensures Within(old(meddled), meddled, old(all[x]))
      ensures Busy(extra, x) && x in all
      ensures Resent(old(all[x]), all[x])
      ensures all[x].wantWritable ==> |all[x].wbuf| > WBUF_HIGH / 2
      ensures old(all[x]).wantWritable && !all[x].wantWritable && poll ==> all[x].inReady
      ensures OthersSame(old(all), all, x)
      ensures all[x].wbuf != [] ==> Waiting(n.s, all[x].sid)
    {
      hide Client.Busy, Waiting, Within, OthersSame, Resent;
      Drain(x, extra);
      if |all[x].wbuf| <= WBUF_HIGH / 2 && all[x].wantWritable {
        ghost var all1 := all;
        Announce(x, extra);
        OthersTrans(old(all), all1, all, x);
        ToldResent(old(all[x]), all1[x], all[x]);
      }
    }

    method Announce(x: nat, ghost extra: seq<nat>)
      requires x in all && Busy(extra, x)
      modifies `all, `ready
      ensures Busy(extra, x) && x in all && OthersSame(old(all), all, x)
      ensures all[x] == old(all[x]).(wantWritable := false, inReady := poll || old(all[x]).inReady)
    {
      hide Client.Busy, Readied;
      Heed(x, extra);
      ReadiedFields(Abs(), x, poll);
      MarkReady(x, extra);
    }

    /** The writer's wish is noted as met. */
    method Heed(x: nat, ghost extra: seq<nat>)
      requires x in all && Busy(extra, x)
      modifies `all
      ensures Busy(extra, x) && Abs() == Put(old(Abs()), x, old(all[x]).(wantWritable := false))
    {
      hide Working, Balanced, Ends, Owed, Ascends;
      var st := all[x].(wantWritable := false);
      EndsPut(n, all, x, st);
      OwedPut(all, {x}, x, st);
      if Ours(st, meddled) {
        WorkingFacts(n, Abs(), extra, written, taken, meddled, x);
        SameBalanced(n, all[x], st, written[x], taken[x]);
      }
      WorkPut(n, Abs(), extra, written, taken, meddled, x, st);
      Change(x, st);
    }

    /** ready_mark. */
    method MarkReady(x: nat, ghost extra: seq<nat>)
      requires x in all && Busy(extra, x)
      modifies `all, `ready
      ensures Busy(extra, x) && Abs() == Readied(old(Abs()), x, poll)
    {
      hide Working, Ends, Owed, Ascends;
      EndsPut(n, all, x, all[x].(inReady := true));
      OwedPut(all, {x}, x, all[x].(inReady := true));
      WorkReady(n, Abs(), extra, written, taken, meddled, x, poll);
      if poll && !all[x].inReady {
        all := all[x := all[x].(inReady := true)];
        ready := [x] + ready;
      }
    }

    /** The FIN goes out once nothing is left to send. */
    method FinMaybe(x: nat, ghost extra: seq<nat>)
      requires x in all && Busy(extra, x)
      modifies `n, `all, `meddled
      ensures Busy(extra, x) && Abs() == Put(old(Abs()), x, Finned(old(all[x]))) && OthersSame(old(all), all, x)
      ensures n == if FinDue(old(all[x])) then Do(old(n), CallClose(old(all[x]).sid)) else old(n)
      ensures meddled == if !FinDue(old(all[x])) then old(meddled)
                         else AfterCall(old(n).s, old(Abs()), old(meddled), x, CallClose(old(all[x]).sid))
    {
      hide Working, Do, AfterCall, Permitted, Ends, Owed, Ascends, Inv;
      var st := all[x];
      if FinDue(st) {
        var c := CallClose(st.sid);
        var st1 := st.(finSent := true, protoDone := st.protoDone || st.eof);
        Note(x, c, extra);
        WorkingSid(n, Abs(), extra, written, taken, meddled, x);
        EndsFin(n, all, x);
        OwedPut(all, {x}, x, st1);
        FinWork(n, Abs(), extra, written, taken, meddled, x);
        n := Next(n, HostCall(c));
        Change(x, st1);
      }
    }

    /** stream_try_free: the single free point. */
    method TryFree(x: nat, ghost extra: seq<nat>)
      requires x in all && Busy(extra, x) && OwedOk(all[x])
               && (Ours(all[x], meddled) && all[x].wbuf != [] && !all[x].inPending ==> Waiting(n.s, all[x].sid))
      modifies `all, `reg
      ensures up && Steady({}) && Rested(n, Abs(), extra, written, taken, meddled)
      ensures Abs() == TryFreed(old(Abs()), x) && OthersSame(old(all), all, x)
      ensures x !in all ==> Unreferenced(Abs(), extra, x) && Done(old(all[x]))
    {
      hide Working, Rested, Waiting, Unreferenced, Ends, Owed, Ascends;
      EndsFree(n, all, x);
      OwedFree(all, x);
      OwedDone(all, x);
      if Ours(all[x], meddled) {
        WorkingFacts(n, Abs(), extra, written, taken, meddled, x);
      }
      WorkDone(n, Abs(), extra, written, taken, meddled, x);
      if !MayFree(all[x]) {
        return;
      }
      if all[x].inReg {
        reg := reg - {all[x].sid};
      }
      all := all - {x};
    }

    /** process_pending. */
    method Process(x: nat, ghost extra: seq<nat>)
      requires x in all && Busy(extra, x) && !all[x].inPending
      modifies `n, `all, `reg, `ready, `meddled
      ensures Within(old(meddled), meddled, old(all[x]))
      ensures (x in all ==> Served(all[x])) && OthersSame(old(all), all, x)
      ensures up && Steady({}) && Rested(n, Abs(), extra, written, taken, meddled)
    {
      hide Client.Busy, Rested, Waiting, OthersSame, Served, Within, AfterCall;
      Unmoved(meddled, all[x]);
      CallWithin(n.s, Abs(), meddled, x, CallConsume(all[x].sid, all[x].consumePending));
      CreditRead(x, extra);
      ghost var all1, m1 := all, meddled;
      SendOut(x, extra);
      OthersTrans(old(all), all1, all, x);
      WithinTrans(old(meddled), m1, meddled, old(all[x]), all1[x]);
    }

    /** What is to be sent goes out, then the FIN if it is due, and the stream is freed if it is done. */
    method SendOut(x: nat, ghost extra: seq<nat>)
      requires x in all && Busy(extra, x) && all[x].consumePending == 0 && !all[x].inPending
      modifies `n, `all, `reg, `ready, `meddled
      ensures Within(old(meddled), meddled, old(all[x]))
      ensures (x in all ==> Served(all[x])) && OthersSame(old(all), all, x)
      ensures up && Steady({}) && Rested(n, Abs(), extra, written, taken, meddled)
    {
      hide Client.Busy, Rested, Waiting, OthersSame, Served, Within;
      if all[x].wbuf != [] {
        FlushWbuf(x, extra);
        ghost var all1, m1 := all, meddled;
        Conclude(x, extra);
        OthersTrans(old(all), all1, all, x);
        WithinTrans(old(meddled), m1, meddled, old(all[x]), all1[x]);
      } else {
        Conclude(x, extra);
      }
    }

    /** The FIN if it is due, and the free point. */
    method Conclude(x: nat, ghost extra: seq<nat>)
      requires x in all && Busy(extra, x) && all[x].consumePending == 0 && !all[x].inPending
      requires all[x].wbuf != [] ==> Waiting(n.s, all[x].sid)
      modifies `n, `all, `reg, `meddled
      ensures Within(old(meddled), meddled, old(all[x]))
      ensures (x in all ==> Served(all[x])) && OthersSame(old(all), all, x)
      ensures up && Steady({}) && Rested(n, Abs(), extra, written, taken, meddled)
    {
      hide Client.Busy, Rested, Waiting, Unreferenced, OthersSame, Do, MayFree, Within, AfterCall;
      Unmoved(meddled, all[x]);
      CallWithin(n.s, Abs(), meddled, x, CallClose(all[x].sid));
      FinMaybe(x, extra);
      ghost var all1 := all;
      TryFree(x, extra);
      OthersTrans(old(all), all1, all, x);
    }

    /** The first of the detached work list is taken off it and served. */
    method Serve(x: nat, ghost list: seq<nat>)
      requires up && Steady({}) && Rested(n, Abs(), list, written, taken, meddled)
      requires list != [] && x == list[0] && pending == []
      modifies `n, `all, `reg, `ready, `meddled
      ensures Steady({}) && Rested(n, Abs(), list[1..], written, taken, meddled)
      ensures x in old(all) && (x in all ==> Served(all[x])) && OthersSame(old(all), all, x)
      ensures Within(old(meddled), meddled, old(all)[x])
    {
      hide Working, Rested, OthersSame, Served, Within, Ends, Owed, Ascends;
      Attend(n, Abs(), list, written, taken, meddled);
      EndsPut(n, all, x, all[x].(inPending := false));
      OwedSkip(all, x);
      OwedPut(all, {x}, x, all[x].(inPending := false));
      Unmoved(meddled, all[x]);
      Change(x, all[x].(inPending := false));
      ghost var all1 := all;
      PutOthers(old(all), x, all[x]);
      Process(x, list[1..]);
      OthersTrans(old(all), all1, all, x);
      WithinTrans(old(meddled), old(meddled), meddled, old(all)[x], all1[x]);
    }

    /** The queued work of the application, as the I/O loop runs it. */
    method RunPending()
      requires Valid() && up
      modifies `n, `all, `reg, `ready, `pending, `meddled
      ensures Valid() && pending == [] && old(meddled) <= meddled <= old(meddled) + LeftoverIds(old(all), old(pending))
      ensures ServedUpTo(all, old(pending), |old(pending)|) && RestSame(old(all), all, old(pending))
    {
      hide Ends, Owed, Ascends, Rested, OthersSame, Served, Distinct, Within, LeftoverIds;
      var list := pending;
      Detach(n, Abs(), written, taken, meddled);
      InStepNone(all, meddled, list);
      pending := [];
      for i := 0 to |list|
        invariant pending == [] && ServedUpTo(all, list, i) && RestSame(old(all), all, list)
        invariant InStep(old(all), all, old(meddled), meddled, list, i)
        invariant Steady({}) && Rested(n, Abs(), list[i..], written, taken, meddled)
      {
        var x := list[i];
        assert list[i..][0] == x && list[i..][1..] == list[i + 1..];
        ghost var all1, meddled1 := all, meddled;
        Serve(x, list[i..]);
        RestMore(old(all), all1, all, list, x);
        ServedMore(all1, all, list, i);
        InStepMore(old(all), all1, all, old(meddled), meddled1, meddled, list, i);
      }
      assert list[|list|..] == [] && list[..|list|] == list;
    }

    // -------------------------------------------------------------- events

    /** The session's next event is `e`. */
    predicate Comes(e: Event)
      reads this
    {
      up && n.s.events != [] && n.s.events[0] == e
    }

    method Pop()
      requires up && GoodConfig(n.s.cfg)
      modifies `n
      ensures n == Next(old(n), HostCall(CallPop)) == Do(old(n), CallPop)
    {
      hide Do;
      n := Next(n, HostCall(CallPop));
    }

    method EnterStream(x: nat, sid: Sid)
      modifies `all, `reg, `accept
      ensures Abs() == PeerDesk.Entered(old(Abs()), x, sid)
      ensures all.Keys == old(all.Keys) + {x} && accept == old(accept) + [x]
    {
      all := all[x := Lp(sid, true, [], [], 0, false, false, false, false, false, false, false, false)];
      reg := reg[sid := x];
      accept := accept + [x];
    }

    /** STREAM_OPENED: a new stream, in the registry and the accept queue. */
    method OnOpened(sid: Sid, meta: seq<Byte>)
      requires Valid() && Comes(StreamOpened(sid, meta))
      modifies `n, `all, `reg, `accept, `written, `taken, `names
      ensures Valid() && names == old(names) + 1 && n == Do(old(n), CallPop)
      ensures Abs() == Noticed(old(Abs()), StreamOpened(sid, meta), poll, old(names))
    {
      hide Rested, Do, PeerDesk.Entered, GoodConfig, DeskOk, Ends, Owed, Ascends, Inv, OpensOk, RegOk;
      RestedSid(n, Abs(), [], written, taken, meddled);
      AcceptLive(n, Abs(), written, taken, meddled);
      EndsOpened(n, Abs(), names);
      OwedOpened(Abs(), names, sid);
      OpenedRested(n, Abs(), written, taken, meddled, names);
      Pop();
      Enrol(sid);
    }

    method Enrol(sid: Sid)
      requires up && (forall x :: x in all ==> x < names) && Owed(PeerDesk.Entered(Abs(), names, sid).all, {})
      requires Ends(n, PeerDesk.Entered(Abs(), names, sid).all)
      requires Ascends(accept) && forall x :: x in accept ==> x < names
      requires Rested(n, PeerDesk.Entered(Abs(), names, sid), [], written[names := []], taken[names := []], meddled)
      modifies `all, `reg, `accept, `written, `taken, `names
      ensures Valid() && names == old(names) + 1 && Abs() == PeerDesk.Entered(old(Abs()), old(names), sid)
    {
      hide Rested, PeerDesk.Entered, Ends, Owed;
      AscendsMore(accept, names);
      EnterStream(names, sid);
      written, taken := written[names := []], taken[names := []];
      names := names + 1;
    }

    /** The event is taken and the stream's record changes with it. */
    method PopFor(x: nat, st: Lp)
      requires x in all && up && GoodConfig(n.s.cfg)
      modifies `n, `all
      ensures n == Next(old(n), HostCall(CallPop)) && Abs() == Put(old(Abs()), x, st)
    {
      hide Next;
      Pop();
      Change(x, st);
    }

    /** The stream is told of and stays. */
    method Tell(x: nat)
      requires x in all && Busy([], x) && OwedOk(all[x]) && (Done(all[x]) ==> all[x].inPending || all[x].inReady)
      requires Ours(all[x], meddled) ==> x in written && x in taken && LpFlow(n, all[x], written[x], taken[x])
      modifies `all, `ready
      ensures Valid() && Abs() == Readied(old(Abs()), x, poll)
    {
      hide Rested, Working, LpFlow, Ends, Owed, Ascends;
      ghost var st := all[x];
      MarkReady(x, []);
      if Ours(st, meddled) {
        ReadyFlow(n, st, all[x], written[x], taken[x]);
      }
      OwedDone(all, x);
      WorkRested(n, Abs(), [], written, taken, meddled, x);
    }

    /** The stream is told of, and freed if this was its end. */
    method TellEnd(x: nat)
      requires x in all && Busy([], x) && OwedOk(all[x])
      requires Ours(all[x], meddled) ==> x in written && x in taken && LpFlow(n, all[x], written[x], taken[x])
      modifies `all, `ready, `reg
      ensures Valid() && Abs() == TryFreed(Readied(old(Abs()), x, poll), x)
    {
      hide Rested, Working, LpFlow, Unreferenced, Waiting, Ends, Owed, Ascends;
      ghost var st := all[x];
      MarkReady(x, []);
      if Ours(st, meddled) {
        ReadyFlow(n, st, all[x], written[x], taken[x]);
        FlowWaits(n, all[x], written[x], taken[x]);
      }
      TryFree(x, []);
    }

    /** The end of a stream is taken from the session and told of. */
    method End(x: nat, st: Lp)
      requires Valid() && up && n.s.events != [] && (n.s.events[0].StreamClosed? || n.s.events[0].StreamReset?)
      requires x in all && all[x].inReg && all[x].sid == n.s.events[0].sid
      requires st == AtEnd(all[x], n.s.events[0])
      modifies `n, `all, `ready, `reg
      ensures Valid() && n == Do(old(n), CallPop) && Abs() == NoticedEnd(old(Abs()), x, st, poll)
    {
      hide Rested, Working, Do, LpFlow, RegOk, Inv, Done, Readied, TryFreed, Ends, Owed, Ascends, OpensOk;
      RestedSid(n, Abs(), [], written, taken, meddled);
      EndsEnd(n, Abs(), x);
      OwedSkip(all, x);
      OwedPut(all, {x}, x, st);
      EndWork(n, Abs(), written, taken, meddled, x, st);
      PopFor(x, st);
      TellEnd(x);
    }

    /** STREAM_DATA: into the receive buffer, and the reader is told. */
    method OnData(sid: Sid, data: seq<Byte>)
      requires Valid() && Comes(StreamData(sid, data))
      modifies `n, `all, `ready
      ensures Valid() && n == Do(old(n), CallPop) && Abs() == Noticed(old(Abs()), StreamData(sid, data), poll, names)
    {
      hide Rested, Working, Do, LpFlow, RegOk, Inv, Ends, Owed, Ascends, OpensOk;
      RestedSid(n, Abs(), [], written, taken, meddled);
      if sid in reg {
        var x := reg[sid];
        EndsTold(n, all, x, all[x].(rbuf := all[x].rbuf + data));
        OwedSkip(all, x);
        OwedPut(all, {x}, x, all[x].(rbuf := all[x].rbuf + data));
        DataWork(n, Abs(), written, taken, meddled, x);
        PopFor(x, all[x].(rbuf := all[x].rbuf + data));
        Tell(x);
      } else {
        Skip();
      }
    }

    /** An event about no stream of this client, or none at all. */
    method Skip()
      requires Valid() && up && n.s.events != []
      requires About(n.s.events[0]) ==> n.s.events[0].sid !in reg
      modifies `n
      ensures Valid() && n == Do(old(n), CallPop)
    {
      hide Rested, Do, Ends, Owed, Ascends, RegOk, Inv, OpensOk;
      RestedSid(n, Abs(), [], written, taken, meddled);
      EndsAside(n, HostCall(CallPop), Abs());
      AsideRested(n, HostCall(CallPop), Abs(), written, taken, meddled);
      Pop();
    }

    /** STREAM_CLOSED: the end of the peer's bytes; with our FIN out, the end of the stream. */
    method OnClosed(sid: Sid)
      requires Valid() && Comes(StreamClosed(sid))
      modifies `n, `all, `ready, `reg
      ensures Valid() && n == Do(old(n), CallPop) && Abs() == Noticed(old(Abs()), StreamClosed(sid), poll, names)
    {
      hide Rested, Do, Inv, NoticedEnd, Ends, Owed, Ascends, OpensOk;
      RestedSid(n, Abs(), [], written, taken, meddled);
      if sid in reg {
        var x := reg[sid];
        End(x, all[x].(eof := true, protoDone := all[x].protoDone || all[x].finSent));
      } else {
        Skip();
      }
    }

    /** STREAM_RESET: the stream is over. */
    method OnReset(sid: Sid, code: U32)
      requires Valid() && Comes(StreamReset(sid, code))
      modifies `n, `all, `ready, `reg
      ensures Valid() && n == Do(old(n), CallPop) && Abs() == Noticed(old(Abs()), StreamReset(sid, code), poll, names)
    {
      hide Rested, Do, Inv, NoticedEnd, Ends, Owed, Ascends, OpensOk;
      RestedSid(n, Abs(), [], written, taken, meddled);
      if sid in reg {
        var x := reg[sid];
        End(x, all[x].(reset := true, eof := true, protoDone := true));
      } else {
        Skip();
      }
    }

    /** WRITABLE: a stream with bytes to send goes on the work list. */
    method OnWritable(sid: Sid)
      requires Valid() && Comes(Writable(sid))
      modifies `n, `all, `pending
      ensures Valid() && n == Do(old(n), CallPop) && Abs() == Noticed(old(Abs()), Writable(sid), poll, names)
    {
      hide Rested, Working, Do, LpFlow, RegOk, Inv, Done, Ends, Owed, Ascends, OpensOk;
      RestedSid(n, Abs(), [], written, taken, meddled);
      if sid in reg {
        var x := reg[sid];
        EndsTold(n, all, x, all[x]);
        OwedSkip(all, x);
        WritableWork(n, Abs(), written, taken, meddled, x);
        assert all[x := all[x]] == all;
        PopFor(x, all[x]);
        if all[x].wbuf != [] {
          PushPending(x);
        } else {
          WorkRested(n, Abs(), [], written, taken, meddled, x);
        }
      } else {
        Skip();
      }
    }

    /** pending_push of the stream worked on. */
    method PushPending(x: nat)
      requires x in all && Busy([], x)
      modifies `all, `pending
      ensures Valid() && Abs() == Pushed(old(Abs()), x)
    {
      hide Rested, Working, Ends, Owed, Ascends;
      EndsPut(n, all, x, all[x].(inPending := true));
      OwedPut(all, {x}, x, all[x].(inPending := true));
      OwedDone(all[x := all[x].(inPending := true)], x);
      if all[x].inPending {
        OwedDone(all, x);
      }
      WorkPushed(n, Abs(), [], written, taken, meddled, x);
      Enqueue(x);
    }

    /** Peer input, timers, output and the events that concern no stream. */
    method Advance(st: Step)
      requires Valid() && up && Enabled(n, st) && OnlyNone(n, st, Abs())
      modifies `n
      ensures Valid() && GoodConfig(old(n).s.cfg) && n == Next(old(n), st)
    {
      hide Rested, Next, Ends, Owed, Ascends, RegOk, Inv, OpensOk;
      RestedSid(n, Abs(), [], written, taken, meddled);
      EndsAside(n, st, Abs());
      AsideRested(n, st, Abs(), written, taken, meddled);
      n := Next(n, st);
    }

    /** A non-blocking write found the buffer full: the writer is to be told. */
    method Want(x: nat)
      requires Valid() && x in all
      modifies `all
      ensures Valid() && Abs() == Put(old(Abs()), x, old(all[x]).(wantWritable := true))
    {
      hide Rested, DeskOk, Ends, Owed, Ascends;
      EndsPut(n, all, x, all[x].(wantWritable := true));
      OwedSkip(all, x);
      OwedPut(all, {}, x, all[x].(wantWritable := true));
      WantDesk(n, Abs(), written, taken, meddled, up, x);
      Change(x, all[x].(wantWritable := true));
    }

    // -------------------------------------------------------------- the application's calls

    /** lp_accept: the oldest stream not yet accepted, or -1 if there is none. */
    method Accept() returns (x: int)
      requires Valid()
      modifies `accept, `handles
      ensures Valid()
      ensures if old(accept) == [] then x == -1 && Abs() == old(Abs())
              else x == old(accept)[0] && x in all && Abs() == Accepted(old(Abs()))
    {
      hide Rested, DeskOk, Ends, Owed;
      if accept == [] {
        return -1;
      }
      x := accept[0];
      AcceptedDesk(n, Abs(), written, taken, meddled, up);
      accept := accept[1..];
      handles := handles + {x};
    }

    /** lp_read_nb, and lp_read once it need not wait. A read fails once the peer's reset was taken; the end is
        reported when the peer's end was taken and every byte before it read; otherwise the next bytes come out in
        order, as many as there are and fit. */
    method Read(x: nat, k: nat) returns (r: ReadResult)
      requires Valid() && x in handles
      modifies `all, `pending, `written, `taken
      ensures x in old(all) && (k == 0 ==> r == Bytes([]))
      ensures var st := old(all)[x];
              k > 0 ==> (r == Failed <==> st.reset)
                        && (r == Bytes([]) <==> !st.reset && st.rbuf == [] && st.eof)
                        && (r == Again <==> !st.reset && st.rbuf == [] && !st.eof)
                        && (r.Bytes? ==> r.data <= st.rbuf && |r.data| == Min(k, |st.rbuf|))
      ensures var st := old(all)[x];
              k > 0 && st.inReg ==> (r == Failed <==> HeardReset(n, st.sid))
                                    && (r == Bytes([]) ==> StreamClosed(st.sid) in n.popped)
                                    && (r == Again ==> !HeardEnd(n, st.sid))
      ensures k > 0 && !old(all)[x].inReg ==> r != Again
      ensures var st := old(all)[x];
              k > 0 && r == Bytes([]) && up && Ours(st, meddled) ==> x in taken && taken[x] == Got(n, st.sid)
      ensures Abs() == if r.Bytes? && r.data != [] then Pushed(Put(old(Abs()), x, AfterRead(old(all)[x], |r.data|)), x)
              else old(Abs())
      ensures r.Bytes? && r.data != [] && up && Ours(old(all)[x], meddled) ==>
                x in taken && x in old(taken) && taken[x] == old(taken)[x] + r.data
      ensures Valid()
    {
      hide Rested, Working, DeskOk, Ends, Owed, Ascends, HeardEnd, HeardReset, Got;
      HandleLives(n, Abs(), written, taken, meddled, up, x);
      if k == 0 {
        return Bytes([]);
      }
      var st := all[x];
      EndShown(n, all, x);
      if st.reset {
        return Failed;
      }
      if st.rbuf == [] {
        if up && Ours(st, meddled) {
          AllTaken(n, Abs(), written, taken, meddled, x);
        }
        return if st.eof then Bytes([]) else Again;
      }
      var m := Min(k, |st.rbuf|);
      r := Bytes(st.rbuf[..m]);
      QueueWork(x, AfterRead(st, m), [], r.data);
    }

    /** lp_write_nb, and lp_write once it need not wait. */
    method Write(x: nat, data: seq<Byte>) returns (r: WriteResult)
      requires Valid() && x in handles
      modifies `all, `pending, `written, `taken
      ensures Valid() && x in old(all)
      ensures var st := old(all)[x];
              r == if data == [] then Taken else if st.reset || st.finSent || stopping then Refused
                   else if |st.wbuf| >= WBUF_HIGH then TryLater else Taken
      ensures var st := old(all)[x];
              Abs() == if data == [] || r.Refused? then old(Abs())
                       else if r.TryLater? then Put(old(Abs()), x, st.(wantWritable := true))
                       else Pushed(Put(old(Abs()), x, st.(wbuf := st.wbuf + data)), x)
      ensures r.Taken? && data != [] && up && Ours(old(all)[x], meddled) ==>
                x in written && x in old(written) && written[x] == old(written)[x] + data
    {
      hide Rested, Working, DeskOk, Ends, Owed, Ascends;
      HandleLives(n, Abs(), written, taken, meddled, up, x);
      var st := all[x];
      if data == [] {
        return Taken;
      }
      if st.reset || st.finSent || stopping {
        return Refused;
      }
      if |st.wbuf| >= WBUF_HIGH {
        Want(x);
        return TryLater;
      }
      QueueWork(x, st.(wbuf := st.wbuf + data), data, []);
      return Taken;
    }

    method Enqueue(x: nat)
      requires x in all
      modifies `all, `pending
      ensures Abs() == Pushed(old(Abs()), x)
    {
      if !all[x].inPending {
        all := all[x := all[x].(inPending := true)];
        pending := [x] + pending;
      }
    }

    /** The application's change of a stream's buffers, and the work it means for the I/O thread. */
    method QueueWork(x: nat, st: Lp, ghost more: seq<Byte>, ghost got: seq<Byte>)
      requires Valid() && x in handles && x in all && SamePlace(all[x], st)
      requires Moves(all[x], st, more, got)
      modifies `all, `pending, `written, `taken
      ensures Valid() && Abs() == Pushed(Put(old(Abs()), x, st), x)
      ensures Ours(st, meddled) && up ==> x in written && x in old(written) && written[x] == old(written)[x] + more
      ensures Ours(st, meddled) && up ==> x in taken && x in old(taken) && taken[x] == old(taken)[x] + got
    {
      hide Rested, Working, DeskOk, Moves, Ends, Owed, Ascends;
      MovesEnd(all[x], st, more, got);
      EndsPut(n, all, x, st);
      EndsPut(n, all[x := st], x, st.(inPending := true));
      OwedTwice(all, x, st);
      QueueDesk(n, Abs(), written, taken, meddled, up, x, st, more, got);
      Change(x, st);
      Enqueue(x);
      if Ours(st, meddled) && up {
        written := written[x := written[x] + more];
        taken := taken[x := taken[x] + got];
      }
    }

    /** lp_close: the handle is given up; the I/O thread does the rest. */
    method Close(x: nat)
      requires Valid() && x in handles
      modifies `all, `pending, `handles
      ensures Valid() && x in old(all) && Abs() == PeerDesk.Closed(old(Abs()), x)
    {
      hide Rested, DeskOk, Ends, Owed, Ascends;
      HandleLives(n, Abs(), written, taken, meddled, up, x);
      EndsPut(n, all, x, all[x].(appClosed := true));
      EndsPut(n, all[x := all[x].(appClosed := true)], x, all[x].(appClosed := true, inPending := true));
      OwedTwice(all, x, all[x].(appClosed := true));
      CloseDesk(n, Abs(), written, taken, meddled, up, x);
      CloseFields(x);
    }

    method CloseFields(x: nat)
      requires x in all
      modifies `all, `pending, `handles
      ensures Abs() == PeerDesk.Closed(old(Abs()), x)
    {
      all := all[x := all[x].(appClosed := true)];
      handles := handles - {x};
      Enqueue(x);
    }

    method FreeFields(x: nat)
      requires x in all
      modifies `all, `reg
      ensures Abs() == TryFreed(old(Abs()), x)
    {
      if MayFree(all[x]) {
        if all[x].inReg {
          reg := reg - {all[x].sid};
        }
        all := all - {x};
      }
    }

    /** One round of the ready loop of lp_poll: the stream is reported, or reaped if the application has
        closed it. */
    method PollOne() returns (x: nat, report: bool)
      requires Valid() && ready != []
      modifies `all, `reg, `ready
      ensures Valid() && x == old(ready)[0] && ready == old(ready)[1..] && x !in ready
      ensures x in old(all) && report == !old(all)[x].appClosed && (report ==> x in handles || x in accept)
      ensures Abs() == if report then Polled(old(Abs())) else TryFreed(Polled(old(Abs())), x)
      ensures OthersSame(old(all), all, x)
    {
      hide Rested, DeskOk, Ends, Owed, Ascends;
      x := ready[0];
      PollDesk(n, Abs(), written, taken, meddled, up);
      EndsPut(n, all, x, all[x].(inReady := false));
      EndsFree(n, all[x := all[x].(inReady := false)], x);
      OwedSkip(all, x);
      OwedPut(all, {}, x, all[x].(inReady := false));
      OwedPut(all, {x}, x, all[x].(inReady := false));
      OwedFree(all[x := all[x].(inReady := false)], x);
      all := all[x := all[x].(inReady := false)];
      ready := ready[1..];
      report := !all[x].appClosed;
      if !report {
        FreeFields(x);
      }
    }

    lemma ReadyLive()
      requires Valid()
      ensures forall y :: y in ready ==> y in all
    {
      hide Rested, DeskOk, Ends, Owed, Ascends;
      ReadyOnce(n, Abs(), written, taken, meddled, up);
    }

    lemma DeskFine()
      requires Valid()
      ensures DeskOk(Abs(), [])
    {
      hide Rested, DeskOk, Ends, Owed, Ascends;
      InOrderDesk(n, Abs(), written, taken, meddled, up);
    }

    /** Credit to give and a FIN due are work for the I/O thread, and it finds them. */
    lemma WorkOwed(x: nat)
      requires Valid() && x in all && all[x].inReg && (all[x].consumePending > 0 || FinDue(all[x]))
      ensures x in pending
    {
      hide Rested, Ends, Ascends, ReadyOk, AppOk, RegOk, FinDue;
      DeskFine();
      assert OwedOk(all[x]);
    }

    /** lp_poll: the openings first, in order, then the readiness reports. A report is of a stream that the
        application was given before and has not closed; with room to spare nothing stays unreported. */
    method Poll(max: nat) returns (openings: seq<nat>, readies: seq<nat>)
      requires Valid()
      modifies `all, `reg, `ready, `accept, `handles
      ensures Valid() && |openings| + |readies| <= max
      ensures openings == old(accept)[..Min(max, |old(accept)|)]
      ensures forall x :: x in openings || x in readies ==> x in handles
      ensures forall x :: x in readies ==> x in old(ready) && x in old(all) && !old(all)[x].appClosed
      ensures forall x :: x in old(ready) ==> x in ready || x in readies || (x in old(all) && old(all)[x].appClosed)
      ensures |openings| + |readies| < max ==> accept == [] && ready == []
    {
      hide Client.Valid;
      openings := PollAccept(max);
      readies := PollReady(max - |openings|);
    }

    /** The accept loop. */
    method PollAccept(max: nat) returns (openings: seq<nat>)
      requires Valid()
      modifies `accept, `handles
      ensures Valid() && openings == old(accept)[..Min(max, |old(accept)|)] && accept == old(accept)[|openings|..]
      ensures forall x :: x in openings ==> x in handles
    {
      hide Client.Valid;
      openings := [];
      while |openings| < max && accept != []
        invariant Valid() && |openings| <= max && old(accept) == openings + accept
        invariant forall x :: x in openings ==> x in handles
        decreases |accept|
      {
        var x := Accept();
        openings := openings + [x];
      }
      assert |old(accept)| == |openings| + |accept|;
    }

    /** The ready loop. */
    method PollReady(room: nat) returns (readies: seq<nat>)
      requires Valid() && (room > 0 ==> accept == [])
      modifies `all, `reg, `ready
      ensures Valid() && |readies| <= room && (|readies| < room ==> ready == [])
      ensures forall x :: x in readies ==> x in handles && x in old(ready) && x in old(all) && !old(all)[x].appClosed
      ensures forall x :: x in old(ready) ==> x in ready || x in readies || (x in old(all) && old(all)[x].appClosed)
    {
      hide Client.Valid;
      readies := [];
      ReadyLive();
      while |readies| < room && ready != []
        invariant Valid() && |readies| <= room
        invariant forall x :: x in readies ==>
                    x in handles && x in old(ready) && x in old(all) && !old(all)[x].appClosed
        invariant forall x :: x in old(ready) ==> x in ready || x in readies || (x in old(all) && old(all)[x].appClosed)
        invariant forall y :: y in ready ==>
                    y in old(ready) && y in old(all) && y in all && all[y].appClosed == old(all)[y].appClosed
        decreases |ready|
      {
        ghost var was := ready;
        var x, report := PollOne();
        assert was == [x] + ready;
        if report {
          readies := readies + [x];
        }
      }
    }

    // -------------------------------------------------------------- the tunnel

    /** session_down: every stream is over and its reader told; the work list and the registry are emptied,
        the session goes, and what the application had closed is freed. */
    method SessionDown()
      requires Valid() && up
      modifies `all, `ready, `reg, `pending, `up, `authed
      ensures Valid() && !up && !authed && pending == []
      ensures AllDowned(old(all), all, poll)
    {
      hide Rested, DeskOk, Loose, MayFree, AllUnhooked, AllDowned, Ends, Owed, Ascends;
      InOrderDesk(n, Abs(), written, taken, meddled, up);
      OkLoose(Abs());
      Unhook();
      ghost var left := all;
      up, authed := false, false;
      FreeAll();
      UnhookedFreed(old(all), left, all, poll);
      EndsDown(n, old(all), all, poll);
      OwedNone(all);
      LooseOk(Abs());
    }

    /** Every stream is over and told of, and none is worked on or found any more. */
    method Unhook()
      requires Loose(Abs())
      modifies `all, `ready, `reg, `pending
      ensures Loose(Abs()) && reg == map[] && pending == []
      ensures AllUnhooked(old(all), all, poll) && forall x :: x in all ==> !all[x].inReg
    {
      hide Loose, Cleared, AllEnded, AllUnhooked;
      EndAll();
      ghost var ended := all;
      ClearedLoose(Abs());
      Clear();
      EndedCleared(old(all), ended, all, poll);
    }

    /** The work list and the registry are emptied, and the flags with them. */
    method Clear()
      modifies `all, `reg, `pending
      ensures Abs() == Cleared(old(Abs())) && all.Keys == old(all.Keys) && reg == map[] && pending == []
      ensures forall x :: x in all ==> all[x] == old(all)[x].(inPending := false, inReg := false)
    {
      all := map x | x in all :: all[x].(inPending := false, inReg := false);
      reg, pending := map[], [];
    }

    method EndAll()
      requires Loose(Abs())
      modifies `all, `ready
      ensures Loose(Abs()) && AllEnded(old(all), all, {}, poll)
    {
      hide Loose, AllEnded;
      var todo := all.Keys;
      EndedNone(all, poll);
      while todo != {}
        invariant Loose(Abs()) && todo <= all.Keys && AllEnded(old(all), all, todo, poll)
        decreases |todo|
      {
        var x :| x in todo;
        EndedLoose(Abs(), x, poll);
        EndedMore(old(all), Abs(), todo, x, poll);
        EndOne(x);
        todo := todo - {x};
      }
    }

    method EndOne(x: nat)
      requires x in all
      modifies `all, `ready
      ensures Abs() == Readied(Put(old(Abs()), x, Ended(old(all[x]))), x, poll) && all.Keys == old(all.Keys)
    {
      all := all[x := Ended(all[x])];
      if poll && !all[x].inReady {
        all := all[x := all[x].(inReady := true)];
        ready := [x] + ready;
      }
    }

    method FreeAll()
      requires Loose(Abs()) && reg == map[] && (forall x :: x in all ==> !all[x].inReg)
      modifies `all, `reg
      ensures Loose(Abs()) && reg == map[]
      ensures forall x :: x in all <==> x in old(all) && !MayFree(old(all)[x])
      ensures forall x :: x in all ==> all[x] == old(all)[x]
    {
      hide Loose, MayFree;
      var todo := all.Keys;
      while todo != {}
        invariant Loose(Abs()) && reg == map[] && todo <= all.Keys
        invariant forall x :: x in all ==> x in old(all) && all[x] == old(all)[x]
        invariant forall x :: x in old(all) ==> if x in todo then x in all else (x in all <==> !MayFree(old(all)[x]))
        decreases |todo|
      {
        var x :| x in todo;
        FreedLoose(Abs(), x);
        FreeFields(x);
        todo := todo - {x};
      }
    }

    /** session_up, when the transport is there. */
    method SessionUp(raw: Config, role: Role)
      requires Valid() && !up && New(raw, role).Some?
      modifies `n, `up, `meddled
      ensures Valid() && up && n == Start(New(raw, role).value)
      ensures meddled == {}
    {
      hide DeskOk, New, Ends, Owed, Ascends;
      ghost var n0 := n;
      NoneLeft(Abs());
      EndsUp(n0, Start(New(raw, role).value), all);
      n := Start(New(raw, role).value);
      up := true;
      meddled := {};
      StartRested(raw, role, Abs(), written, taken);
    }

    /** lp_connect. */
    constructor (raw: Config, token: Option<seq<Byte>>)
      ensures Valid() && this.token == token && !authed && !up && !poll && !stopping && all == map[] && accept == []
              && handles == {}
    {
      n := Start(Blank(raw, Dialer));
      up, poll, stopping, authed, meddled := false, false, false, false, {};
      this.token := token;
      all, reg, pending, ready, accept, names := map[], map[], [], [], [], 0;
      handles, written, taken := {}, map[], map[];
    }

    /** lp_fileno: from now on readiness is signalled. */
    method Fileno()
      requires Valid()
      modifies `poll
      ensures Valid() && poll
    {
      hide Rested, DeskOk, Ends, Owed, Ascends;
      poll := true;
    }

    /** The first step of lp_disconnect: from now on nothing is taken for sending. */
    method Stop()
      requires Valid()
      modifies `stopping
      ensures Valid() && stopping
    {
      hide Rested, DeskOk, Ends, Owed, Ascends;
      stopping := true;
    }

    /** PEER_HELLO: a session whose greeting does not prove the token is drained. */
    method OnHello(info: HelloInfo)
      requires Valid() && Comes(PeerHello(info))
      modifies `n, `authed
      ensures Valid() && authed == Proves(token, info)
      ensures n == if authed then Do(old(n), CallPop) else Do(Do(old(n), CallPop), CallGoAway(CODE_REFUSED))
      ensures !authed ==> Shut(n)
    {
      hide Client.Valid, Do, Proves, Shut;
      Skip();
      var ok := CheckAuth(token, info);
      Mark(ok);
      if !ok {
        GoAwayShuts(n, CODE_REFUSED);
        Advance(HostCall(CallGoAway(CODE_REFUSED)));
      }
    }

    method Mark(ok: bool)
      requires Valid()
      modifies `authed
      ensures Valid() && authed == ok
    {
      hide Rested, DeskOk, Ends, Owed, Ascends;
      authed := ok;
    }

    /** One round of handle_events. */
    method Handle() returns (e: Event)
      requires Valid() && up && n.s.events != []
      modifies `n, `authed, `all, `ready, `reg, `pending, `accept, `written, `taken, `names
      ensures Valid() && e == old(n).s.events[0] && Abs() == Noticed(old(Abs()), e, poll, old(names))
      ensures authed == if e.PeerHello? then Proves(token, e.info) else old(authed)
      ensures n == if e.PeerHello? && !authed then Do(Do(old(n), CallPop), CallGoAway(CODE_REFUSED))
              else Do(old(n), CallPop)
      ensures Heeded(old(Abs()), Abs(), e, poll, old(names))
    {
      hide Client.Valid, Heeded, Noticed, Do, DeskOk;
      e := n.s.events[0];
      DeskFine();
      NoticedHeeds(Abs(), e, poll, names);
      NoticedRest(Abs(), e, poll, names);
      match e {
        case StreamOpened(sid, meta) => OnOpened(sid, meta);
        case StreamData(sid, data) => OnData(sid, data);
        case StreamClosed(sid) => OnClosed(sid);
        case StreamReset(sid, code) => OnReset(sid, code);
        case Writable(sid) => OnWritable(sid);
        case PeerHello(info) => OnHello(info);
        case Capacity(_) => Skip();
        case GoAway(_, _) => Skip();
        case Fatal(_) => Skip();
      }
    }
  }
}
