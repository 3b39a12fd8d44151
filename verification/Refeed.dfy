/** Feeding mux_recv piece by piece. However the bytes of a connection are cut into calls, with the unconsumed
    tail fed again and events taken in between, stops at the soft cap of the event queue included, the frames
    processed are those of the bytes, and the session is the same but for the events already taken. */
module Refeed {
  import opened Commons
  import opened Wire
  import opened Codec
  import opened Session
  import opened Node
  import opened NodeReceive
  import opened NodeRuns
  import opened Recv

  // ---------------------------------------------------------------- processing does not look at the queue

  /** `t` is `s` with another queue; `s'` and `t'` come of them by the same step, which appends the same events. */
  ghost predicate Alongside(s: Session, s': Session, t: Session, t': Session) {
    && s.events <= s'.events
    && t' == s'.(events := t.events + s'.events[|s.events|..])
  }

  lemma AlongsideTrans(s: Session, s1: Session, s2: Session, t: Session, t1: Session, t2: Session)
    requires Alongside(s, s1, t, t1) && Alongside(s1, s2, t1, t2)
    ensures Alongside(s, s2, t, t2)
  {
    assert s2.events[|s.events|..] == s1.events[|s.events|..] + s2.events[|s1.events|..];
  }

  lemma SameBlind(s: Session, s': Session, t: Session, t': Session)
    requires s'.events == s.events && t' == s'.(events := t.events)
    ensures Alongside(s, s', t, t')
  {
    assert s'.events[|s.events|..] == [];
  }

  lemma QueueBlind(s: Session, t: Session, e: Event)
    requires t == s.(events := t.events)
    ensures Alongside(s, Queue(s, e), t, Queue(t, e))
  {
  }

  lemma FatalBlind(s: Session, t: Session, code: U32)
    requires t == s.(events := t.events)
    ensures Alongside(s, RaiseFatal(s, code), t, RaiseFatal(t, code))
  {
    if s.dead {
      SameBlind(s, s, t, t);
    }
  }

  lemma EmitBlind(s: Session, t: Session, f: Frame)
    requires t == s.(events := t.events)
    ensures Alongside(s, Emit(s, f).0, t, Emit(t, f).0) && Emit(t, f).1 == Emit(s, f).1
  {
    hide Encode, GrowTo;
    if HasRoom(s, f) {
      SameBlind(s, Emitted(s, f), t, Emitted(t, f));
    } else {
      FatalBlind(s, t, CODE_INTERNAL);
    }
  }

  lemma RemoveBlind(s: Session, s': Session, t: Session, t': Session, sid: Sid)
    requires Alongside(s, s', t, t') && sid in s'.streams
    ensures Alongside(s, Remove(s', sid), t, Remove(t', sid))
  {
  }

  lemma AbortBlind(s: Session, t: Session, sid: Sid, code: U32)
    requires t == s.(events := t.events) && sid in s.streams
    ensures Alongside(s, AbortStream(s, sid, code), t, AbortStream(t, sid, code))
  {
    hide Emit;
    var s1, t1 := Emit(s, RstFrame(sid, code)).0, Emit(t, RstFrame(sid, code)).0;
    EmitBlind(s, t, RstFrame(sid, code));
    EmitStreams(s, RstFrame(sid, code));
    QueueBlind(s1, t1, StreamReset(sid, CODE_NO_ERROR));
    var s2, t2 := Queue(s1, StreamReset(sid, CODE_NO_ERROR)), Queue(t1, StreamReset(sid, CODE_NO_ERROR));
    AlongsideTrans(s, s1, s2, t, t1, t2);
    RemoveBlind(s, s2, t, t2, sid);
  }

  lemma EmitStreams(s: Session, f: Frame)
    ensures Emit(s, f).0.streams == s.streams && Emit(s, f).0.cfg == s.cfg
  {
    hide Encode, GrowTo;
  }

  lemma SynBlind(s: Session, t: Session, f: Frame)
    requires t == s.(events := t.events)
    ensures Alongside(s, OnSyn(s, f), t, OnSyn(t, f))
  {
    hide Emit, Admit, RaiseFatal, HasSyn, HasFin, HasRst, OddSid;
    FatalBlind(s, t, CODE_PROTOCOL);
    if !SynIllegal(s, f) {
      EmitBlind(s, t, RstFrame(f.sid, CODE_REFUSED));
      AdmitBlind(s, t, f);
    }
  }

  lemma AdmitBlind(s: Session, t: Session, f: Frame)
    requires t == s.(events := t.events) && !SynIllegal(s, f)
    ensures Alongside(s, Admit(s, f), t, Admit(t, f)) && f.sid in Admit(s, f).streams
    ensures var e := StreamReset(f.sid, CODE_NO_ERROR);
            Alongside(s, Remove(Queue(Admit(s, f), e), f.sid), t, Remove(Queue(Admit(t, f), e), f.sid))
  {
    hide OddSid;
    var s1, t1 := Admit(s, f), Admit(t, f);
    QueueBlind(s1, t1, StreamReset(f.sid, CODE_NO_ERROR));
  }

  lemma TakeBlind(s: Session, t: Session, f: Frame)
    requires t == s.(events := t.events) && f.sid in s.streams
    ensures Alongside(s, TakeData(s, f), t, TakeData(t, f))
  {
  }

  lemma FinBlind(s: Session, t: Session, sid: Sid)
    requires t == s.(events := t.events) && sid in s.streams
    ensures Alongside(s, TakeFin(s, sid), t, TakeFin(t, sid))
  {
  }

  lemma DataBlind(s: Session, t: Session, f: Frame)
    requires t == s.(events := t.events)
    ensures Alongside(s, OnStreamData(s, f), t, OnStreamData(t, f))
  {
    hide AbortStream, TakeData, TakeFin, HasFin, HasRst, Get32, RaiseFatal, Remove, Alongside;
    SameBlind(s, s, t, t);
    FatalBlind(s, t, CODE_PROTOCOL);
    FatalBlind(s, t, CODE_FLOW_CONTROL);
    if f.sid in s.streams {
      AbortBlind(s, t, f.sid, CODE_PROTOCOL);
      AbortBlind(s, t, f.sid, CODE_FLOW_CONTROL);
      var code := if |f.payload| >= 4 then Get32(f.payload, 0) else CODE_NO_ERROR;
      QueueBlind(s, t, StreamReset(f.sid, code));
      RemoveBlind(s, Queue(s, StreamReset(f.sid, code)), t, Queue(t, StreamReset(f.sid, code)), f.sid);
      TakeBlind(s, t, f);
      TakeStreams(s, f);
      FinBlind(s, t, f.sid);
      FinBlind(TakeData(s, f), TakeData(t, f), f.sid);
      AlongsideTrans(s, TakeData(s, f), TakeFin(TakeData(s, f), f.sid), t, TakeData(t, f),
          TakeFin(TakeData(t, f), f.sid));
    }
  }

  lemma TakeStreams(s: Session, f: Frame)
    requires f.sid in s.streams
    ensures f.sid in TakeData(s, f).streams
  {
  }

  lemma WakeBlind(s: Session, t: Session, sid: Sid)
    requires t == s.(events := t.events)
    ensures Alongside(s, Wake(s, sid), t, Wake(t, sid))
  {
  }

  lemma {:induction false} SweepBlind(s: Session, t: Session, order: seq<Sid>)
    requires t == s.(events := t.events)
    ensures Alongside(s, Sweep(s, order), t, Sweep(t, order))
    decreases |order|
  {
    hide Wake;
    if order == [] {
      SameBlind(s, s, t, t);
    } else {
      var s1, t1 := Wake(s, order[0]), Wake(t, order[0]);
      WakeBlind(s, t, order[0]);
      SweepBlind(s1, t1, order[1..]);
      AlongsideTrans(s, s1, Sweep(s, order), t, t1, Sweep(t, order));
    }
  }

  lemma SessionCreditBlind(s: Session, t: Session, credit: U32, order: seq<Sid>)
    requires t == s.(events := t.events)
    ensures Alongside(s, OnSessionCredit(s, credit, order), t, OnSessionCredit(t, credit, order))
  {
    hide Sweep, RaiseFatal;
    var s1, t1 := s.(sendWin := s.sendWin + credit), t.(sendWin := t.sendWin + credit);
    SweepBlind(s1, t1, order);
    FatalBlind(s1, t1, CODE_FLOW_CONTROL);
    SameBlind(s, s1, t, t1);
  }

  lemma StreamCreditBlind(s: Session, t: Session, sid: Sid, credit: U32)
    requires t == s.(events := t.events)
    ensures Alongside(s, OnStreamCredit(s, sid, credit), t, OnStreamCredit(t, sid, credit))
  {
    hide Wake, RaiseFatal;
    SameBlind(s, s, t, t);
    if sid in s.streams {
      var st := s.streams[sid];
      var ss := s.streams[sid := st.(sendWin := st.sendWin + credit)];
      var s1, t1 := s.(streams := ss), t.(streams := ss);
      FatalBlind(s1, t1, CODE_FLOW_CONTROL);
      WakeBlind(s1, t1, sid);
      SameBlind(s, s1, t, t1);
    }
  }

  lemma CreditBlind(s: Session, t: Session, f: Frame, order: seq<Sid>)
    requires t == s.(events := t.events)
    ensures Alongside(s, OnWindowUpdate(s, f, order), t, OnWindowUpdate(t, f, order))
  {
    hide OnSessionCredit, OnStreamCredit, RaiseFatal, Alongside, Get32;
    FatalBlind(s, t, CODE_PROTOCOL);
    if |f.payload| == 4 {
      SessionCreditBlind(s, t, Get32(f.payload, 0), order);
      StreamCreditBlind(s, t, f.sid, Get32(f.payload, 0));
    }
  }

  lemma HelloBlind(s: Session, t: Session, f: Frame, ack: bool)
    requires t == s.(events := t.events) && GoodConfig(s.cfg)
    ensures Alongside(s, OnHello(s, f, ack), t, OnHello(t, f, ack))
  {
    hide Emit, ReadTlvs, HelloPayload;
    FatalBlind(s, t, CODE_PROTOCOL);
    if f.sid == SID_CONTROL && !s.helloSeen {
      var (p, ok) := ReadTlvs(Params(s.peerMax, s.peerInit, s.sendWin, NO_INFO), f.payload, 0);
      var s1 := s.(peerMax := p.peerMax, peerInit := p.peerInit, sendWin := p.sendWin);
      var t1 := t.(peerMax := p.peerMax, peerInit := p.peerInit, sendWin := p.sendWin);
      FatalBlind(s1, t1, CODE_PROTOCOL);
      if ok {
        var s2, t2 := Queue(s1.(helloSeen := true), PeerHello(p.info)),
            Queue(t1.(helloSeen := true), PeerHello(p.info));
        QueueBlind(s1.(helloSeen := true), t1.(helloSeen := true), PeerHello(p.info));
        SendHelloBlind(s2, t2);
        AlongsideTrans(s, s2, SendHello(s2, true), t, t2, SendHello(t2, true));
      }
    }
  }

  lemma SendHelloBlind(s: Session, t: Session)
    requires t == s.(events := t.events) && BlobsFit(s.cfg)
    ensures Alongside(s, SendHello(s, true), t, SendHello(t, true))
  {
    hide Emit, HelloPayload;
    EmitBlind(s, t, HelloFrame(s, true));
  }

  lemma NoticeBlind(s: Session, t: Session, f: Frame)
    requires t == s.(events := t.events)
    ensures Alongside(s, OnPing(s, f), t, OnPing(t, f))
    ensures Alongside(s, OnGoAway(s, f), t, OnGoAway(t, f))
    ensures Alongside(s, OnCapacity(s, f), t, OnCapacity(t, f))
  {
    hide Emit, Get32, HasAck;
    FatalBlind(s, t, CODE_PROTOCOL);
    EmitBlind(s, t, Frame(T_PING, F_ACK, SID_CONTROL, f.payload));
    if HasAck(f.flags) {
      var idle := s.timer.(outstanding := false);
      SameBlind(s, s.(timer := idle), t, t.(timer := idle));
    }
  }

  /** A frame does the same to a session whatever waits in its queue, and appends the same events. */
  lemma ProcessBlind(s: Session, t: Session, f: Frame, order: seq<Sid>)
    requires t == s.(events := t.events) && GoodConfig(s.cfg)
    ensures Alongside(s, Process(s, f, order), t, Process(t, f, order))
  {
    hide OnSyn, OnStreamData, OnWindowUpdate, OnPing, OnGoAway, OnCapacity, OnHello, Alongside, RaiseFatal;
    FatalBlind(s, t, CODE_PROTOCOL);
    SynBlind(s, t, f);
    DataBlind(s, t, f);
    CreditBlind(s, t, f, order);
    NoticeBlind(s, t, f);
    HelloBlind(s, t, f, false);
    HelloBlind(s, t, f, true);
  }

  // ---------------------------------------------------------------- the order of a sweep

  /** The events of a log but for the WRITABLEs. */
  function Told(es: seq<Event>): seq<Event> {
    if es == [] then [] else Told(es[..|es| - 1]) + if es[|es| - 1].Writable? then [] else [es[|es| - 1]]
  }

  lemma {:induction false} ToldConcat(a: seq<Event>, b: seq<Event>)
    ensures Told(a + b) == Told(a) + Told(b)
    decreases |b|
  {
    if b == [] {
      assert a + b == a;
    } else {
      assert (a + b)[..|a + b| - 1] == a + b[..|b| - 1];
      ToldConcat(a, b[..|b| - 1]);
    }
  }

  lemma {:induction false} ToldWritable(es: seq<Event>)
    requires forall e :: e in es ==> e.Writable?
    ensures Told(es) == []
    decreases |es|
  {
    if es != [] {
      ToldWritable(es[..|es| - 1]);
    }
  }

  /** The same session up to the order in which the streams woken by one sweep are listed. */
  ghost predicate Alike(s: Session, t: Session) {
    && t == s.(events := t.events)
    && Told(t.events) == Told(s.events) && multiset(t.events) == multiset(s.events)
  }

  lemma AlikeTrans(a: Session, b: Session, c: Session)
    requires Alike(a, b) && Alike(b, c)
    ensures Alike(a, c)
  {
  }

  predicate Sleeps(s: Session, sid: Sid) { sid in s.streams && s.streams[sid].blocked && s.streams[sid].sendWin > 0 }

  /** A sweep queues one WRITABLE for each visited stream that waits and has room, and nothing else. */
  lemma {:induction false} SweepCounts(s: Session, order: seq<Sid>, e: Event)
    requires forall i, j :: 0 <= i < j < |order| ==> order[i] != order[j]
    ensures multiset(Sweep(s, order).events)[e]
            == multiset(s.events)[e] + if e.Writable? && e.sid in order && Sleeps(s, e.sid) then 1 else 0
    decreases |order|
  {
    hide Wake, Sleeps;
    if order != [] {
      var s1 := Wake(s, order[0]);
      SweepCounts(s1, order[1..], e);
      assert order == [order[0]] + order[1..];
      WakeCounts(s, order[0], e);
    }
  }

  lemma WakeCounts(s: Session, sid: Sid, e: Event)
    ensures multiset(Wake(s, sid).events)[e]
            == multiset(s.events)[e] + if e == Writable(sid) && Sleeps(s, sid) then 1 else 0
    ensures forall x :: Sleeps(Wake(s, sid), x) <==> Sleeps(s, x) && x != sid
  {
  }

  /** Two sweeps in different table orders leave the same streams and wake the same ones. */
  lemma SweepAlike(s: Session, o1: seq<Sid>, o2: seq<Sid>)
    requires Enumerates(o1, s.streams.Keys) && Enumerates(o2, s.streams.Keys)
    ensures Alike(Sweep(s, o1), Sweep(s, o2))
  {
    hide Sweep, BlockedSet, Told;
    var a, b := Sweep(s, o1), Sweep(s, o2);
    var e1 := SweepSwept(s, o1);
    var e2 := SweepSwept(s, o2);
    forall x | x in s.streams ensures a.streams[x] == b.streams[x] {
      assert a.streams[x] == Woken(s.streams[x], x in o1);
      assert b.streams[x] == Woken(s.streams[x], x in o2);
    }
    assert a.streams == b.streams;
    ToldConcat(s.events, e1);
    ToldConcat(s.events, e2);
    ToldWritable(e1);
    ToldWritable(e2);
    forall e: Event ensures multiset(a.events)[e] == multiset(b.events)[e] {
      SweepCounts(s, o1, e);
      SweepCounts(s, o2, e);
    }
  }

  lemma CreditAlike(s: Session, f: Frame, o1: seq<Sid>, o2: seq<Sid>)
    requires Enumerates(o1, s.streams.Keys) && Enumerates(o2, s.streams.Keys)
    ensures Alike(OnWindowUpdate(s, f, o1), OnWindowUpdate(s, f, o2))
  {
    hide Sweep, Wake, Get32, Told;
    if |f.payload| == 4 {
      SweepAlike(s.(sendWin := s.sendWin + Get32(f.payload, 0)), o1, o2);
    }
  }

  lemma OrderAlike(s: Session, f: Frame, o1: seq<Sid>, o2: seq<Sid>)
    requires GoodConfig(s.cfg) && Enumerates(o1, s.streams.Keys) && Enumerates(o2, s.streams.Keys)
    ensures Alike(Process(s, f, o1), Process(s, f, o2))
  {
    hide OnSyn, OnStreamData, OnWindowUpdate, OnPing, OnGoAway, OnCapacity, OnHello, Told;
    CreditAlike(s, f, o1, o2);
  }

  /** One frame keeps sessions alike, whatever the orders. */
  lemma ProcessAlike(s: Session, t: Session, f: Frame, o1: seq<Sid>, o2: seq<Sid>)
    requires Alike(s, t) && GoodConfig(s.cfg)
    requires Enumerates(o1, s.streams.Keys) && Enumerates(o2, s.streams.Keys)
    ensures Alike(Process(s, f, o1), Process(t, f, o2))
  {
    hide Process, Told;
    var s1, t1 := Process(s, f, o1), Process(t, f, o1);
    ProcessBlind(s, t, f, o1);
    var es := s1.events[|s.events|..];
    assert s1.events == s.events + es;
    ToldConcat(s.events, es);
    ToldConcat(t.events, es);
    OrderAlike(t, f, o1, o2);
  }

  // ---------------------------------------------------------------- what the bytes say

  /** Some order of a set of ids. */
  ghost function Order(keys: set<Sid>): (o: seq<Sid>)
    ensures Enumerates(o, keys)
    decreases keys
  {
    if keys == {} then [] else
      var x :| x in keys;
      var rest := Order(keys - {x});
      assert forall y :: y in keys <==> y == x || y in keys - {x};
      [x] + rest
  }

  ghost function Step(s: Session, f: Frame): (s': Session)
    requires GoodConfig(s.cfg)
    ensures s'.cfg == s.cfg
  {
    TidyProcess(s, f, Order(s.streams.Keys));
    Process(s, f, Order(s.streams.Keys))
  }

  /** The frames of a byte sequence, up to the first that is incomplete or kills the session, and the session
      that has processed them: no calls, no chunks, and no cap on the queue. */
  ghost function Meaning(s: Session, bytes: seq<Byte>): (r: (seq<Frame>, Session))
    requires GoodConfig(s.cfg)
    decreases |bytes|
  {
    if s.dead then ([], s)
    else match Parse(bytes)
      case Short => ([], s)
      case Bad => ([], RaiseFatal(s, CODE_PROTOCOL))
      case Parsed(f, k) =>
        EncodeParse(bytes);
        var s1 := Step(s, f);
        if s1.dead then ([], s1)
        else
          var (fs, s2) := Meaning(s1, bytes[k..]);
          ([f] + fs, s2)
  }

  /** Sessions that are alike read the same frames and stay alike. */
  lemma {:induction false} MeaningAlike(s: Session, t: Session, bytes: seq<Byte>)
    requires GoodConfig(s.cfg) && Alike(s, t)
    ensures Meaning(s, bytes).0 == Meaning(t, bytes).0 && Alike(Meaning(s, bytes).1, Meaning(t, bytes).1)
    decreases |bytes|
  {
    hide Process, Parse, Told, Encode;
    if !s.dead {
      match Parse(bytes)
      case Short =>
      case Bad =>
        ToldConcat(s.events, [Fatal(CODE_PROTOCOL)]);
        ToldConcat(t.events, [Fatal(CODE_PROTOCOL)]);
      case Parsed(f, k) =>
        EncodeParse(bytes);
        var o := Order(s.streams.Keys);
        ProcessAlike(s, t, f, o, o);
        if !Step(s, f).dead {
          MeaningAlike(Step(s, f), Step(t, f), bytes[k..]);
        }
    }
  }

  /** A session with the events already taken put back. */
  function Whole(s: Session, taken: seq<Event>): Session { s.(events := taken + s.events) }

  lemma WholeStep(s: Session, taken: seq<Event>, f: Frame, s1: Session)
    requires Processes(s, f, s1)
    ensures Alike(Step(Whole(s, taken), f), Whole(s1, taken))
  {
    hide Process, Told;
    var order :| Enumerates(order, s.streams.Keys) && s1 == Process(s, f, order);
    var t := Whole(s, taken);
    ProcessBlind(s, t, f, order);
    var es := s1.events[|s.events|..];
    assert s1.events == s.events + es;
    assert (taken + s.events) + es == taken + s1.events;
    assert Process(t, f, order) == Whole(s1, taken);
    OrderAlike(t, f, Order(s.streams.Keys), order);
  }

  /** One call: the frames it processed, and then what the session makes of the rest. */
  lemma {:induction false} CallMeaning(s: Session, taken: seq<Event>, buf: seq<Byte>, fs: seq<Frame>, s1: Session,
                                       more: seq<Byte>)
    requires GoodConfig(s.cfg) && RecvRun(s, buf, fs, s1) && EncodeAll(fs) <= buf
    ensures s1.cfg == s.cfg
    ensures var (gs, u), (hs, v) := Meaning(Whole(s, taken), buf + more),
                                    Meaning(Whole(s1, taken), buf[|EncodeAll(fs)|..] + more);
            gs == fs + hs && Alike(u, v)
    decreases |fs|
  {
    hide Parse, Encode, Processes, Step, Meaning, Alike, Stops, Active;
    if fs == [] {
      StopMeaning(s, taken, buf, s1, more);
      assert EncodeAll(fs) == [] && buf[0..] == buf;
    } else {
      var f := fs[0];
      var t :| Takes(s, buf, f, t) && RecvRun(t, buf[|Encode(f)|..], fs[1..], s1);
      var rest := buf[|Encode(f)|..];
      TakeMeaning(s, taken, buf, f, t, more);
      FirstEncoded(fs);
      RecvConsumes(t, rest, fs[1..], s1);
      CallMeaning(t, taken, rest, fs[1..], s1, more);
      assert buf[|EncodeAll(fs)|..] == rest[|EncodeAll(fs[1..])|..];
      assert fs == [f] + fs[1..];
      AlikeTrans(Meaning(Whole(s, taken), buf + more).1, Meaning(Whole(t, taken), rest + more).1,
                 Meaning(Whole(s1, taken), buf[|EncodeAll(fs)|..] + more).1);
    }
  }

  lemma TakeMeaning(s: Session, taken: seq<Event>, buf: seq<Byte>, f: Frame, t: Session, more: seq<Byte>)
    requires GoodConfig(s.cfg) && Takes(s, buf, f, t)
    ensures t.cfg == s.cfg
    ensures var (gs, u), (hs, v) := Meaning(Whole(s, taken), buf + more),
                                    Meaning(Whole(t, taken), buf[|Encode(f)|..] + more);
            gs == [f] + hs && Alike(u, v)
  {
    hide Parse, Encode, Processes, Told, Step;
    WholeStep(s, taken, f, t);
    ParseStable(buf, more);
    assert (buf + more)[|Encode(f)|..] == buf[|Encode(f)|..] + more;
    MeaningAlike(Step(Whole(s, taken), f), Whole(t, taken), buf[|Encode(f)|..] + more);
  }

  lemma StopMeaning(s: Session, taken: seq<Event>, buf: seq<Byte>, s1: Session, more: seq<Byte>)
    requires GoodConfig(s.cfg) && Stops(s, buf, s1)
    ensures s1.cfg == s.cfg
    ensures var (gs, u), (hs, v) := Meaning(Whole(s, taken), buf + more), Meaning(Whole(s1, taken), buf + more);
            gs == hs && Alike(u, v)
  {
    hide Parse, Encode, Processes, Told, Step;
    if s1 != s {
      ParseStable(buf, more);
      if Parse(buf).Bad? {
        assert taken + (s.events + [Fatal(CODE_PROTOCOL)]) == taken + s.events + [Fatal(CODE_PROTOCOL)];
      } else {
        WholeStep(s, taken, Parse(buf).frame, s1);
      }
    }
  }

  // ---------------------------------------------------------------- any way of feeding

  /** A connection being fed: the tail mux_recv has not consumed, the events the host has taken, and the
      frames processed so far. */
  datatype Feeding = Feeding(s: Session, tail: seq<Byte>, taken: seq<Event>, frames: seq<Frame>)

  /** `chunk` arrives, and mux_recv gets it behind the tail of the last call. */
  ghost predicate Fed(a: Feeding, chunk: seq<Byte>, b: Feeding) {
    exists fs ::
      && EncodeAll(fs) <= a.tail + chunk && RecvRun(a.s, a.tail + chunk, fs, b.s)
      && b == Feeding(b.s, (a.tail + chunk)[|EncodeAll(fs)|..], a.taken, a.frames + fs)
  }

  /** The host takes some of the queued events, none, or all. */
  ghost predicate Drained(a: Feeding, b: Feeding) {
    exists k: nat :: k <= |a.s.events|
      && b == a.(s := a.s.(events := a.s.events[k..]), taken := a.taken + a.s.events[..k])
  }

  ghost predicate FeedStep(a: Feeding, chunk: seq<Byte>, b: Feeding) {
    exists mid :: Fed(a, chunk, mid) && Drained(mid, b)
  }

  /** A history: one call for each chunk, and events taken after it. */
  ghost predicate FeedRun(s: Session, chunks: seq<seq<Byte>>, fds: seq<Feeding>) {
    && |fds| == |chunks| + 1 && fds[0] == Feeding(s, [], [], [])
    && forall i :: 0 <= i < |chunks| ==> FeedStep(fds[i], chunks[i], fds[i + 1])
  }

  /** What was fed so far means what was processed and then what the tail means, whatever comes next. */
  ghost predicate OnTrack(s: Session, fed: seq<Byte>, fd: Feeding) {
    && GoodConfig(s.cfg) && fd.s.cfg == s.cfg && fed == EncodeAll(fd.frames) + fd.tail
    && forall more :: Tracks(s, fed, fd, more)
  }

  ghost predicate Tracks(s: Session, fed: seq<Byte>, fd: Feeding, more: seq<Byte>)
    requires GoodConfig(s.cfg) && fd.s.cfg == s.cfg
  {
    var (gs, u), (hs, v) := Meaning(s, fed + more), Meaning(Whole(fd.s, fd.taken), fd.tail + more);
    gs == fd.frames + hs && Alike(u, v)
  }

  lemma FedOnTrack(s: Session, fed: seq<Byte>, a: Feeding, chunk: seq<Byte>, b: Feeding)
    requires OnTrack(s, fed, a) && Fed(a, chunk, b)
    ensures OnTrack(s, fed + chunk, b)
  {
    hide Meaning, Alike, RecvRun, EncodeAll;
    var buf := a.tail + chunk;
    var fs :| EncodeAll(fs) <= buf && RecvRun(a.s, buf, fs, b.s)
              && b == Feeding(b.s, buf[|EncodeAll(fs)|..], a.taken, a.frames + fs);
    FedBytes(a, chunk, fs);
    CallMeaning(a.s, a.taken, buf, fs, b.s, []);
    forall more ensures Tracks(s, fed + chunk, b, more) {
      FedTracks(s, fed, a, chunk, fs, b, more);
    }
  }

  lemma FedBytes(a: Feeding, chunk: seq<Byte>, fs: seq<Frame>)
    requires EncodeAll(fs) <= a.tail + chunk
    ensures EncodeAll(a.frames) + a.tail + chunk == EncodeAll(a.frames + fs) + (a.tail + chunk)[|EncodeAll(fs)|..]
  {
    hide EncodeAll;
    EncodeAllConcat(a.frames, fs);
    assert a.tail + chunk == EncodeAll(fs) + (a.tail + chunk)[|EncodeAll(fs)|..];
  }

  lemma FedTracks(s: Session, fed: seq<Byte>, a: Feeding, chunk: seq<Byte>, fs: seq<Frame>, b: Feeding, more: seq<Byte>)
    requires OnTrack(s, fed, a) && EncodeAll(fs) <= a.tail + chunk && RecvRun(a.s, a.tail + chunk, fs, b.s)
    requires b == Feeding(b.s, (a.tail + chunk)[|EncodeAll(fs)|..], a.taken, a.frames + fs) && b.s.cfg == s.cfg
    ensures Tracks(s, fed + chunk, b, more)
  {
    hide Meaning, Alike, RecvRun, EncodeAll;
    var buf := a.tail + chunk;
    assert Tracks(s, fed, a, chunk + more);
    CallMeaning(a.s, a.taken, buf, fs, b.s, more);
    assert fed + (chunk + more) == fed + chunk + more && a.tail + (chunk + more) == buf + more;
    AlikeTrans(Meaning(s, fed + chunk + more).1, Meaning(Whole(a.s, a.taken), buf + more).1,
               Meaning(Whole(b.s, b.taken), b.tail + more).1);
  }

  lemma DrainedOnTrack(s: Session, fed: seq<Byte>, a: Feeding, b: Feeding)
    requires OnTrack(s, fed, a) && Drained(a, b)
    ensures OnTrack(s, fed, b)
  {
    hide Meaning, Alike;
    assert Whole(b.s, b.taken) == Whole(a.s, a.taken);
    forall more ensures Tracks(s, fed, b, more) {
      assert Tracks(s, fed, a, more);
    }
  }

  lemma {:induction false} FeedOnTrack(s: Session, chunks: seq<seq<Byte>>, fds: seq<Feeding>, i: nat)
    requires GoodConfig(s.cfg) && FeedRun(s, chunks, fds) && i <= |chunks|
    ensures OnTrack(s, Flatten(chunks[..i]), fds[i])
    decreases i
  {
    hide OnTrack, Fed, Drained;
    if i == 0 {
      NothingFed(s);
    } else {
      FeedOnTrack(s, chunks, fds, i - 1);
      assert chunks[..i][..i - 1] == chunks[..i - 1];
      assert FeedStep(fds[i - 1], chunks[i - 1], fds[i - 1 + 1]);
      var mid :| Fed(fds[i - 1], chunks[i - 1], mid) && Drained(mid, fds[i]);
      FedOnTrack(s, Flatten(chunks[..i - 1]), fds[i - 1], chunks[i - 1], mid);
      DrainedOnTrack(s, Flatten(chunks[..i]), mid, fds[i]);
    }
  }

  lemma NothingFed(s: Session)
    requires GoodConfig(s.cfg)
    ensures OnTrack(s, [], Feeding(s, [], [], []))
  {
    hide Meaning;
    assert Whole(s, []) == s;
    forall more ensures Tracks(s, [], Feeding(s, [], [], []), more) {
      assert [] + more == more;
    }
  }

  /** Main theorem. Feed the bytes in any number of calls, cut anywhere, with the tail fed again and events
      taken at will: the bytes consumed are those of the frames processed, which are the first frames of the
      bytes; and once the tail holds no whole frame, or the session is dead, they are all of them, and the
      session with the events taken is the one the bytes mean. */
  lemma FeedingIsMeaning(s: Session, chunks: seq<seq<Byte>>, fds: seq<Feeding>)
    requires GoodConfig(s.cfg) && FeedRun(s, chunks, fds)
    ensures var fd, (gs, t) := fds[|chunks|], Meaning(s, Flatten(chunks));
            && Flatten(chunks) == EncodeAll(fd.frames) + fd.tail && fd.frames <= gs
            && (fd.s.dead || Parse(fd.tail).Short? ==> fd.frames == gs && Alike(t, Whole(fd.s, fd.taken)))
  {
    hide Fed, Drained, Alike, Flatten, EncodeAll, Parse;
    FeedOnTrack(s, chunks, fds, |chunks|);
    assert chunks[..|chunks|] == chunks;
    var fd := fds[|chunks|];
    assert Tracks(s, Flatten(chunks), fd, []);
    assert Flatten(chunks) + [] == Flatten(chunks) && fd.tail + [] == fd.tail;
  }

  /** The tail of a call holds a whole frame only if the call stopped at the cap: then drain and call again. */
  lemma OnlyTheCapStops(a: Feeding, chunk: seq<Byte>, b: Feeding)
    requires Fed(a, chunk, b)
    ensures b.s.dead || Parse(b.tail).Short? || |b.s.events| >= EVENT_QUEUE_SOFT_CAP
  {
    hide EncodeAll, RecvRun;
    var fs :| EncodeAll(fs) <= a.tail + chunk && RecvRun(a.s, a.tail + chunk, fs, b.s)
              && b == Feeding(b.s, (a.tail + chunk)[|EncodeAll(fs)|..], a.taken, a.frames + fs);
    RunEnds(a.s, a.tail + chunk, fs, b.s);
  }

  lemma {:induction false} RunEnds(s: Session, buf: seq<Byte>, fs: seq<Frame>, s': Session)
    requires RecvRun(s, buf, fs, s') && EncodeAll(fs) <= buf
    ensures s'.dead || Parse(buf[|EncodeAll(fs)|..]).Short? || |s'.events| >= EVENT_QUEUE_SOFT_CAP
    decreases |fs|
  {
    hide Encode, Processes;
    if fs == [] {
      assert EncodeAll(fs) == [] && buf[0..] == buf;
    } else {
      var t :| Takes(s, buf, fs[0], t) && RecvRun(t, buf[|Encode(fs[0])|..], fs[1..], s');
      FirstEncoded(fs);
      RecvConsumes(t, buf[|Encode(fs[0])|..], fs[1..], s');
      RunEnds(t, buf[|Encode(fs[0])|..], fs[1..], s');
      assert buf[|EncodeAll(fs)|..] == buf[|Encode(fs[0])|..][|EncodeAll(fs[1..])|..];
    }
  }

  lemma SameTail(a: seq<Byte>, b: seq<Byte>, c: seq<Byte>)
    requires a + b == a + c
    ensures b == c
  {
    assert b == (a + b)[|a|..] && c == (a + c)[|a|..];
  }

  lemma AlikeBoth(t: Session, a: Feeding, b: Feeding)
    requires Alike(t, Whole(a.s, a.taken)) && Alike(t, Whole(b.s, b.taken))
    ensures b.s == a.s.(events := b.s.events) && Told(a.taken + a.s.events) == Told(b.taken + b.s.events)
    ensures multiset(a.taken + a.s.events) == multiset(b.taken + b.s.events)
  {
    hide Told;
  }

  /** Two ways of feeding the same bytes, both to the end, process the same frames and leave the same session
      but for the events already taken; the logs are the same up to the order within a sweep. */
  lemma SplitsAgree(s: Session, cs: seq<seq<Byte>>, fds: seq<Feeding>, ds: seq<seq<Byte>>, gds: seq<Feeding>)
    requires GoodConfig(s.cfg) && FeedRun(s, cs, fds) && FeedRun(s, ds, gds) && Flatten(cs) == Flatten(ds)
    requires var a, b := fds[|cs|], gds[|ds|];
             (a.s.dead || Parse(a.tail).Short?) && (b.s.dead || Parse(b.tail).Short?)
    ensures var a, b := fds[|cs|], gds[|ds|];
            && a.frames == b.frames && a.tail == b.tail && b.s == a.s.(events := b.s.events)
            && Told(a.taken + a.s.events) == Told(b.taken + b.s.events)
            && multiset(a.taken + a.s.events) == multiset(b.taken + b.s.events)
  {
    hide FeedStep, Flatten, EncodeAll, Parse, Meaning, Alike, Told;
    FeedingIsMeaning(s, cs, fds);
    FeedingIsMeaning(s, ds, gds);
    AlikeBoth(Meaning(s, Flatten(cs)).1, fds[|cs|], gds[|ds|]);
    SameTail(EncodeAll(fds[|cs|].frames), fds[|cs|].tail, gds[|ds|].tail);
  }
}
