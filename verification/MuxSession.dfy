/** mux_session as an object (libmux/src/session.c): a stream table, an output buffer and an event
    ring updated in place. Every method does to the object what the function of the same purpose in
    Session.dfy does to its value. */
module MuxSession {
  import opened Commons
  import opened Wire
  import opened Codec
  import opened S = Session
  import opened Probing
  import opened StreamTable
  import opened Buffers
  import opened Recv

  /** Entering a record and emitting commute, and dropping the record undoes entering it. */
  lemma EnterEmit(s: S.Session, sid: Sid, st: Stream, f: Frame)
    requires sid !in s.streams && !st.blocked
    ensures var (s1, ok) := Emit(s, f);
            var added := s.streams[sid := st];
            && Emit(s.(streams := added), f) == (s1.(streams := added), ok)
            && s1.streams == s.streams && Remove(s1.(streams := added), sid) == s1
  {
    hide Encode, GrowTo;
    assert s.streams[sid := st] - {sid} == s.streams;
  }

  /** The TLV block of a greeting, built in a 1024-byte buffer one TLV at a time. */
  method CraftHello(c: Config) returns (p: seq<Byte>)
    requires BlobsFit(c)
    ensures p == HelloPayload(c)
  {
    hide EncodeTlv;
    var blob := new Byte[1024](_ => 0);
    var vs := HelloTlvs(c);
    var off := 0;
    HelloPayloadBound(c);
    for i := 0 to |vs|
      invariant off <= 1024 && blob[..off] == EncodeTlvs(vs[..i])
      invariant off <= |EncodeTlvs(vs)| <= 820
    {
      EncodeTlvsSplit(vs, i);
      EncodeTlvLength(vs[i]);
      ghost var was := blob[..];
      var r := PutTlv(blob, off, vs[i]);
      assert blob[..r] == was[..off] + EncodeTlv(vs[i]);
      off := r;
    }
    assert vs[..|vs|] == vs;
    return blob[..off];
  }

  lemma EncodeTlvLength(v: Tlv)
    ensures |EncodeTlv(v)| == 4 + |v.val|
  {
  }

  lemma EncodeTlvsSplit(vs: seq<Tlv>, i: nat)
    requires i < |vs|
    ensures EncodeTlvs(vs[..i + 1]) == EncodeTlvs(vs[..i]) + EncodeTlv(vs[i])
    ensures |EncodeTlvs(vs[..i + 1])| <= |EncodeTlvs(vs)|
  {
    hide EncodeTlv;
    EncodeTlvsConcat(vs[..i], [vs[i]]);
    assert vs[..i + 1] == vs[..i] + [vs[i]];
    assert EncodeTlvs([vs[i]]) == EncodeTlv(vs[i]) + EncodeTlvs([]) == EncodeTlv(vs[i]);
    EncodeTlvsConcat(vs[..i + 1], vs[i + 1..]);
    assert vs == vs[..i + 1] + vs[i + 1..];
  }

  lemma {:induction false} EncodeTlvsConcat(a: seq<Tlv>, b: seq<Tlv>)
    ensures EncodeTlvs(a + b) == EncodeTlvs(a) + EncodeTlvs(b)
    decreases |a|
  {
    hide EncodeTlv;
    if a == [] {
      assert a + b == b;
    } else {
      assert (a + b)[1..] == a[1..] + b;
      EncodeTlvsConcat(a[1..], b);
    }
  }

  /** One round of the crediting loops. */
  lemma SessionCreditStep(s: S.Session)
    ensures s.recvPending <= 0 ==> EmitSessionCredit(s) == s
    ensures s.recvPending > 0 ==>
              var chunk := CreditChunk(s.recvPending);
              var (s1, ok) := Emit(s, CreditFrame(SID_CONTROL, chunk));
              EmitSessionCredit(s) == if !ok then s1 else
                EmitSessionCredit(s1.(recvWin := s1.recvWin + chunk, recvPending := s1.recvPending - chunk))
  {
    hide Emit;
  }

  lemma StreamCreditStep(s: S.Session, sid: Sid)
    requires sid in s.streams
    ensures var st := s.streams[sid];
            st.recvPending <= 0 ==> EmitStreamCredit(s, sid) == s
    ensures var st := s.streams[sid];
            st.recvPending > 0 ==>
              var chunk := CreditChunk(st.recvPending);
              var (s1, ok) := Emit(s, CreditFrame(sid, chunk));
              EmitStreamCredit(s, sid) == if !ok then s1 else
                EmitStreamCredit(s1.(streams := s1.streams[sid := st.(recvWin := st.recvWin + chunk,
                                                                      recvPending := st.recvPending - chunk)]), sid)
  {
  }

  /** The sweep up to slot i + 1 is the sweep up to slot i and then slot i. */
  lemma SweepNext(s: S.Session, t: seq<Slot<Stream>>, i: nat)
    requires i < |t|
    ensures Sweep(s, Order(t[..i + 1])) ==
            (if t[i].Used? then Wake(Sweep(s, Order(t[..i])), t[i].sid) else Sweep(s, Order(t[..i])))
  {
    hide Wake;
    assert t[..i + 1][..i] == t[..i];
    assert Order(t[..i + 1]) == Order(t[..i]) + if t[i].Used? then [t[i].sid] else [];
    if t[i].Used? {
      SweepConcat(s, Order(t[..i]), [t[i].sid]);
      assert Sweep(Sweep(s, Order(t[..i])), [t[i].sid]) == Wake(Sweep(s, Order(t[..i])), t[i].sid);
    } else {
      assert Order(t[..i + 1]) == Order(t[..i]);
    }
  }

  lemma SweepNone(s: S.Session, t: seq<Slot<Stream>>)
    ensures Sweep(s, Order(t[..0])) == s
  {
  }

  lemma {:induction false} SweepConcat(s: S.Session, a: seq<Sid>, b: seq<Sid>)
    ensures Sweep(s, a + b) == Sweep(Sweep(s, a), b)
    decreases |a|
  {
    hide Wake;
    if a == [] {
      assert a + b == b;
    } else {
      assert (a + b)[1..] == a[1..] + b;
      SweepConcat(Wake(s, a[0]), a[1..], b);
    }
  }

  lemma StopRun(s: S.Session, buf: seq<Byte>, fs: seq<Frame>, s1: S.Session, s2: S.Session)
    requires |EncodeAll(fs)| <= |buf| && Progress(s, buf, fs, s1) && Stops(s1, buf[|EncodeAll(fs)|..], s2)
    ensures RecvRun(s, buf, fs, s2)
  {
    hide Stops, Takes, Progress;
    ProgressRun(s, buf, fs, s1, [], s2);
    assert fs + [] == fs;
  }

  lemma ParsedLength(buf: seq<Byte>)
    requires Parse(buf).Parsed?
    ensures Parse(buf).consumed == |Encode(Parse(buf).frame)| && 0 < |Encode(Parse(buf).frame)| <= |buf|
  {
    hide Parse;
    EncodeParse(buf);
  }

  // ---------------------------------------------------------------- the chunk loop

  /** Both windows of a sender debited by `n`. */
  function Debit(s: S.Session, sid: Sid, n: nat): (s': S.Session)
    requires sid in s.streams
    ensures sid in s'.streams
  {
    s.(streams := s.streams[sid := s.streams[sid].(sendWin := s.streams[sid].sendWin - n)], sendWin := s.sendWin - n)
  }

  /** Sending what is left after `sent` bytes. */
  function Continue(s: S.Session, sid: Sid, p: seq<Byte>, sent: nat): (S.Session, nat)
    requires sid in s.streams && sent <= |p|
  {
    var (s1, k) := SendAll(s, sid, p[sent..]);
    (s1, sent + k)
  }

  lemma DebitNone(s: S.Session, sid: Sid, p: seq<Byte>)
    requires sid in s.streams
    ensures Debit(s, sid, 0) == s && Continue(s, sid, p, 0) == SendAll(s, sid, p)
  {
    hide SendAll;
    assert p[0..] == p && s.streams[sid := s.streams[sid]] == s.streams;
  }

  lemma ContinueEnd(s: S.Session, sid: Sid, p: seq<Byte>, sent: nat)
    requires sid in s.streams && sent <= |p|
    ensures sent == |p| ==> Continue(s, sid, p, sent) == (s, sent)
  {
  }

  lemma DebitEmit(s: S.Session, sid: Sid, n: nat, f: Frame)
    requires sid in s.streams
    ensures var (s1, ok) := Emit(s, f);
            s1.streams == s.streams && Emit(Debit(s, sid, n), f) == (Debit(s1, sid, n), ok)
  {
    hide Encode, GrowTo;
  }

  lemma DebitSend(s: S.Session, sid: Sid, c: seq<Byte>, sent: nat)
    requires sid in s.streams && |c| <= MAX_DATA_FRAME
    ensures var (s1, ok) := Emit(s, DataFrame(sid, c));
            s1.streams == s.streams &&
            SendChunk(Debit(s, sid, sent), sid, c) == (if ok then Debit(s1, sid, sent + |c|)
                else Debit(s1, sid, sent), ok)
  {
    hide Encode, GrowTo;
    var (s1, ok) := Emit(s, DataFrame(sid, c));
    DebitEmit(s, sid, sent, DataFrame(sid, c));
    hide Emit;
    if ok {
      assert SendChunk(Debit(s, sid, sent), sid, c).0.streams == Debit(s1, sid, sent + |c|).streams;
    }
  }

  /** One chunk: debiting at the end comes to the same as debiting as one goes. */
  lemma DebitChunk(s: S.Session, sid: Sid, p: seq<Byte>, sent: nat)
    requires sid in s.streams && sent < |p|
    ensures var n := Min(|p| - sent, MAX_DATA_FRAME);
            var (s1, ok) := Emit(s, DataFrame(sid, p[sent..sent + n]));
            Continue(Debit(s, sid, sent), sid, p, sent)
            == if ok then Continue(Debit(s1, sid, sent + n), sid, p, sent + n) else (Debit(s1, sid, sent), sent)
  {
    hide Emit, SendChunk, Debit;
    var n := Min(|p| - sent, MAX_DATA_FRAME);
    var q := p[sent..];
    assert q[..n] == p[sent..sent + n] && q[n..] == p[sent + n..];
    DebitSend(s, sid, q[..n], sent);
  }

  class MuxSession {
    const role: Role
    const cfg: Config
    const tab: Table<Stream>
    const out: OutBuf
    const q: EventRing<Event>
    var dead: bool
    var peerInit: U32
    var peerMax: U32
    var sendWin: int
    var recvWin: int
    var recvPending: int
    var blockedCount: int
    var helloSeen: bool
    var helloSent: bool
    var localGoaway: bool
    var nextSid: U32
    var maxRemote: U32
    var timer: Timer
    ghost var wire: seq<Frame>

    ghost function Repr(): set<object>
      reads this, tab, out, q
    {
      {this, tab, tab.slots, out, out.buf, q, q.ev}
    }

    ghost predicate Valid()
      reads tab, tab.slots, out, out.buf, q, q.ev
    {
      && tab.Valid() && out.Valid() && q.Valid() && GoodConfig(cfg)
      && tab.slots as object != out.buf && tab.slots as object != q.ev && out.buf as object != q.ev
    }

    /** The value this object represents. */
    ghost function Abs(): S.Session
      requires Valid()
      reads this, tab, tab.slots, out, out.buf, q, q.ev
    {
      S.Session.Session(role, cfg, dead, peerInit, peerMax, sendWin, recvWin, recvPending, blockedCount,
              helloSeen, helloSent, localGoaway, nextSid, maxRemote, tab.live, timer,
              out.buf.Length, out.Pending(), wire, q.Contents())
    }

    /** Each array is the one it was or a newly allocated one. */
    twostate predicate Grown()
      reads tab, out, q
    {
      && (tab.slots == old(tab.slots) || fresh(tab.slots))
      && (out.buf == old(out.buf) || fresh(out.buf)) && (q.ev == old(q.ev) || fresh(q.ev))
    }

    // -------------------------------------------------------------- construction

    constructor (c: Config, r: Role)
      requires GoodConfig(c)
      ensures Valid() && fresh(Repr()) && Abs() == Blank(c, r)
    {
      hide TableOk, CountUsed, CountTomb, PowerOfTwo, Ring;
      role, cfg := r, c;
      tab := new Table<Stream>(if 2 * c.maxStreams < 64 then 64 else 2 * c.maxStreams);
      out := new OutBuf();
      q := new EventRing<Event>();
      dead, helloSeen, helloSent, localGoaway := false, false, false, false;
      peerInit, peerMax := DEFAULT_INIT_WINDOW, DEFAULT_MAX_STREAMS;
      sendWin, recvWin, recvPending, blockedCount := DEFAULT_SESSION_WINDOW, c.sessionWindow, 0, 0;
      nextSid, maxRemote := if r.Dialer? then 1 else 2, 0;
      timer := Timer(false, false, 0, 0, 0);
      wire := [];
    }

    /** mux_session_new: null for an oversized blob or when the dialer's greeting does not fit. */
    static method Create(raw: Config, r: Role) returns (m: MuxSession?)
      ensures m == null <==> New(raw, r).None?
      ensures m != null ==> fresh(m) && fresh(m.Repr()) && m.Valid() && m.Abs() == New(raw, r).value
    {
      if |raw.peerId| > HELLO_BLOB_MAX || |raw.auth| > HELLO_BLOB_MAX || |raw.nonce| > HELLO_BLOB_MAX {
        return null;
      }
      m := new MuxSession(Resolve(raw), r);
      if r.Dialer? {
        var ok := m.Greet(false);
        if !ok {
          return null;
        }
      }
    }

    /** send_hello: the greeting fits its 1024-byte crafting buffer, so no TLV is ever left out. */
    method Greet(ack: bool) returns (ok: bool)
      requires Valid()
      modifies this, out, out.buf, q, q.ev
      ensures Valid() && Grown() && unchanged(tab) && unchanged(tab.slots)
      ensures Abs() == SendHello(old(Abs()), ack)
      ensures ok <==> HasRoom(old(Abs()), HelloFrame(old(Abs()), ack))
    {
      hide TableOk, CountUsed, CountTomb, PowerOfTwo, Ring, Encode, GrowTo, HelloTlvs, HelloPayload;
      var blob := CraftHello(cfg);
      HelloPayloadBound(cfg);
      ok := Send(Frame(if ack then T_HELLO_ACK else T_HELLO, 0, SID_CONTROL, blob));
      if ok {
        helloSent := true;
      }
    }

    // -------------------------------------------------------------- output and events

    method Post(e: Event)
      requires Valid()
      modifies q, q.ev
      ensures Valid() && Grown() && unchanged(tab) && unchanged(tab.slots)
      ensures Abs() == Queue(old(Abs()), e)
    {
      hide TableOk, CountUsed, CountTomb, PowerOfTwo, Ring, Encode, GrowTo, GoodConfig;
      q.Push(e);
    }

    method Fail(code: U32)
      requires Valid()
      modifies this, q, q.ev
      ensures Valid() && Grown() && unchanged(tab) && unchanged(tab.slots)
      ensures Abs() == RaiseFatal(old(Abs()), code)
    {
      hide MuxSession.Valid, Encode, GrowTo, GoodConfig;
      if !dead {
        dead := true;
        Post(Fatal(code));
      }
    }

    method Send(f: Frame) returns (ok: bool)
      requires Valid()
      modifies this, out, out.buf, q, q.ev
      ensures Valid() && Grown() && unchanged(tab) && unchanged(tab.slots)
      ensures (Abs(), ok) == Emit(old(Abs()), f)
    {
      hide TableOk, CountUsed, CountTomb, PowerOfTwo, Ring, Encode, GrowTo;
      ok := out.Append(f, cfg.maxOutBuffer);
      if ok {
        wire := wire + [f];
      } else {
        Fail(CODE_INTERNAL);
      }
    }

    // -------------------------------------------------------------- streams

    /** The counters that the code reads are the sizes of what they count. */
    lemma Counts()
      requires Valid()
      ensures tab.count == |Abs().streams| && q.count == |Abs().events|
    {
      hide TableOk, CountUsed, CountTomb, PowerOfTwo, Encode, GrowTo, GoodConfig;
    }

    method Lookup(sid: U32) returns (i: int)
      requires Valid()
      ensures if sid in Abs().streams then 0 <= i < tab.slots.Length && tab.slots[i] == Used(sid, Abs().streams[sid])
              else i == -1
    {
      hide TableOk, CountUsed, CountTomb, PowerOfTwo, Ring, Encode, GrowTo, GoodConfig;
      i := tab.Find(sid);
    }

    method Enter(sid: U32, st: Stream) returns (i: nat)
      requires Valid() && sid !in Abs().streams
      modifies tab, tab.slots
      ensures Valid() && Grown()
      ensures i < tab.slots.Length && tab.slots[i] == Used(sid, st)
      ensures Abs() == old(Abs()).(streams := old(Abs()).streams[sid := st])
    {
      hide TableOk, CountUsed, CountTomb, PowerOfTwo, Ring, Encode, GrowTo, GoodConfig;
      i := tab.Insert(sid, st);
    }

    /** A record is assigned in place. */
    method Assign(i: nat, st: Stream)
      requires Valid() && i < tab.slots.Length && tab.slots[i].Used?
      modifies tab, tab.slots
      ensures Valid() && tab.slots == old(tab.slots)
      ensures tab.slots[..] == old(tab.slots[..])[i := Used(old(tab.slots[i]).sid, st)]
      ensures Abs() == old(Abs()).(streams := old(Abs()).streams[old(tab.slots[i]).sid := st])
    {
      hide TableOk, CountUsed, CountTomb, PowerOfTwo, Ring, Encode, GrowTo, GoodConfig;
      tab.Set(i, st);
    }

    /** A used slot holds the live record of its id. */
    lemma SlotLive(i: nat)
      requires Valid() && i < tab.slots.Length && tab.slots[i].Used?
      ensures tab.slots[i].sid in Abs().streams && Abs().streams[tab.slots[i].sid] == tab.slots[i].val
    {
      hide Home, CountUsed, CountTomb, PowerOfTwo, GoodConfig;
      assert tab.slots[..][i].Used?;
    }

    /** set_blocked: the counter follows the flag. */
    method MarkBlocked(i: nat, b: bool)
      requires Valid() && i < tab.slots.Length && tab.slots[i].Used?
      modifies this, tab, tab.slots
      ensures Valid() && tab.slots == old(tab.slots)
      ensures tab.slots[..] == old(tab.slots[..])[i := Used(old(tab.slots[i]).sid,
              old(tab.slots[i]).val.(blocked := b))]
      ensures old(tab.slots[i]).sid in old(Abs()).streams
      ensures Abs() == SetBlocked(old(Abs()), old(tab.slots[i]).sid, b)
    {
      hide MuxSession.Valid, Encode, GrowTo, GoodConfig;
      SlotLive(i);
      var st := tab.slots[i].val;
      if st.blocked != b {
        blockedCount := blockedCount + if b then 1 else -1;
        Assign(i, st.(blocked := b));
      } else {
        assert tab.slots[..] == tab.slots[..][i := tab.slots[i]];
      }
    }

    /** close_stream. */
    method Drop(i: nat)
      requires Valid() && i < tab.slots.Length && tab.slots[i].Used?
      modifies this, tab, tab.slots
      ensures Valid() && tab.slots == old(tab.slots)
      ensures old(tab.slots[i]).sid in old(Abs()).streams
      ensures Abs() == Remove(old(Abs()), old(tab.slots[i]).sid)
    {
      hide TableOk, CountUsed, CountTomb, PowerOfTwo, Ring, Encode, GrowTo, GoodConfig;
      SlotLive(i);
      if tab.slots[i].val.blocked {
        blockedCount := blockedCount - 1;
      }
      tab.Remove(i);
    }

    // -------------------------------------------------------------- crediting

    /** credit_session: batched at half a window, in chunks that fit 32 bits, stopping when the output is
        full with the rest still pending. */
    method CreditConnection()
      requires Valid()
      modifies this, out, out.buf, q, q.ev
      ensures Valid() && Grown() && unchanged(tab) && unchanged(tab.slots)
      ensures Abs() == CreditSession(old(Abs()))
    {
      hide MuxSession.Valid, Encode, GrowTo, GoodConfig, EmitSessionCredit, CreditFrame;
      if recvPending <= 0 || 2 * recvPending < cfg.sessionWindow {
        return;
      }
      ghost var goal := EmitSessionCredit(Abs());
      while recvPending > 0
        invariant Valid() && Grown() && unchanged(tab) && unchanged(tab.slots)
        invariant EmitSessionCredit(Abs()) == goal
        decreases recvPending
      {
        SessionCreditStep(Abs());
        var chunk := CreditChunk(recvPending);
        var ok := Send(CreditFrame(SID_CONTROL, chunk));
        if !ok {
          return;
        }
        recvWin, recvPending := recvWin + chunk, recvPending - chunk;
      }
      SessionCreditStep(Abs());
    }

    /** credit_stream. */
    method CreditRecord(i: nat)
      requires Valid() && i < tab.slots.Length && tab.slots[i].Used?
      modifies Repr()
      ensures Valid() && Grown()
      ensures old(tab.slots[i]).sid in old(Abs()).streams
      ensures Abs() == CreditStream(old(Abs()), old(tab.slots[i]).sid)
    {
      hide MuxSession.Valid, Encode, GrowTo, GoodConfig, EmitStreamCredit, Emit, CreditFrame;
      SlotLive(i);
      var sid := tab.slots[i].sid;
      if tab.slots[i].val.recvPending <= 0 || 2 * tab.slots[i].val.recvPending < cfg.initWindow {
        return;
      }
      ghost var goal := EmitStreamCredit(Abs(), sid);
      while tab.slots[i].val.recvPending > 0
        invariant Valid() && Grown() && tab.slots == old(tab.slots)
        invariant tab.slots[i].Used? && tab.slots[i].sid == sid
        invariant sid in Abs().streams && Abs().streams[sid] == tab.slots[i].val && EmitStreamCredit(Abs(), sid) == goal
        decreases tab.slots[i].val.recvPending
      {
        StreamCreditStep(Abs(), sid);
        var chunk := CreditChunk(tab.slots[i].val.recvPending);
        var ok := Send(CreditFrame(sid, chunk));
        if !ok {
          return;
        }
        var st := tab.slots[i].val;
        Assign(i, st.(recvWin := st.recvWin + chunk, recvPending := st.recvPending - chunk));
      }
      StreamCreditStep(Abs(), sid);
    }

    // -------------------------------------------------------------- received frames

    /** on_data with SYN: protocol violations are fatal, a full or draining session refuses. */
    method OnSyn(f: Frame)
      requires Valid()
      modifies Repr()
      ensures Valid() && Grown()
      ensures Abs() == S.OnSyn(old(Abs()), f)
    {
      hide MuxSession.Valid, Encode, GrowTo, GoodConfig;
      if !helloSeen || Own(role, f.sid) || f.sid == SID_CONTROL {
        Fail(CODE_PROTOCOL);
        return;
      }
      var i := Lookup(f.sid);
      if i >= 0 || f.sid <= maxRemote || |f.payload| > MAX_META {
        Fail(CODE_PROTOCOL);
        return;
      }
      Counts();
      if tab.count >= cfg.maxStreams || localGoaway {
        var _ := Send(RstFrame(f.sid, CODE_REFUSED));
        maxRemote := f.sid;
        return;
      }
      Accept(f);
    }

    method Accept(f: Frame)
      requires Valid() && !SynIllegal(Abs(), f) && !Refuses(Abs())
      modifies Repr()
      ensures Valid() && Grown()
      ensures Abs() == S.OnSyn(old(Abs()), f)
    {
      hide MuxSession.Valid, Encode, GrowTo, GoodConfig, HasSyn, HasFin, HasRst, OddSid, Admit, Remove, Queue;
      var at := Record(f);
      if HasRst(f.flags) {
        Post(StreamReset(f.sid, CODE_NO_ERROR));
        Drop(at);
      } else if HasFin(f.flags) {
        HalfClose(at);
      }
    }

    method Record(f: Frame) returns (at: nat)
      requires Valid() && f.sid !in Abs().streams
      modifies Repr()
      ensures Valid() && Grown() && Abs() == Admit(old(Abs()), f)
      ensures at < tab.slots.Length && tab.slots[at] == Used(f.sid, Fresh(old(Abs())))
    {
      hide MuxSession.Valid, Encode, GrowTo, GoodConfig;
      at := Enter(f.sid, Stream(Life.Open, false, peerInit, cfg.initWindow, 0));
      maxRemote := f.sid;
      Post(StreamOpened(f.sid, f.payload));
    }

    method HalfClose(i: nat)
      requires Valid() && i < tab.slots.Length && tab.slots[i].Used?
      modifies Repr()
      ensures Valid() && Grown() && old(tab.slots[i]).sid in old(Abs()).streams
      ensures var s, sid := old(Abs()), old(tab.slots[i]).sid;
              Abs() == Queue(s.(streams := s.streams[sid := s.streams[sid].(life := HalfRemote)]), StreamClosed(sid))
    {
      hide MuxSession.Valid, Encode, GrowTo, GoodConfig;
      SlotLive(i);
      Assign(i, tab.slots[i].val.(life := HalfRemote));
      Post(StreamClosed(tab.slots[i].sid));
    }

    /** The stream aborts locally. */
    method Abort(i: nat, code: U32)
      requires Valid() && i < tab.slots.Length && tab.slots[i].Used?
      modifies Repr()
      ensures Valid() && Grown()
      ensures old(tab.slots[i]).sid in old(Abs()).streams
      ensures Abs() == AbortStream(old(Abs()), old(tab.slots[i]).sid, code)
    {
      hide MuxSession.Valid, Encode, GrowTo, GoodConfig;
      SlotLive(i);
      var sid := tab.slots[i].sid;
      var _ := Send(RstFrame(sid, code));
      Post(StreamReset(sid, CODE_NO_ERROR));
      Drop(i);
    }

    /** on_data without SYN: an unknown id is dropped silently; overrunning the connection window is
        fatal, overrunning the stream window resets that stream. */
    method OnStreamData(f: Frame)
      requires Valid()
      modifies Repr()
      ensures Valid() && Grown()
      ensures Abs() == S.OnStreamData(old(Abs()), f)
    {
      hide MuxSession.Valid, Encode, GrowTo, GoodConfig, AbortStream, TakeData, TakeFin;
      if f.sid == SID_CONTROL {
        Fail(CODE_PROTOCOL);
        return;
      }
      var i := Lookup(f.sid);
      if i < 0 {
        return;
      }
      if HasRst(f.flags) {
        Post(StreamReset(f.sid, if |f.payload| >= 4 then Get32(f.payload, 0) else CODE_NO_ERROR));
        Drop(i);
        return;
      }
      if |f.payload| > 0 {
        var go := Deliver(i, f);
        if !go {
          return;
        }
      }
      if HasFin(f.flags) {
        Finish(i);
      }
    }

    /** The payload of a DATA frame, if it is within both windows. */
    method Deliver(i: nat, f: Frame) returns (go: bool)
      requires Valid() && i < tab.slots.Length && tab.slots[i].Used? && tab.slots[i].sid == f.sid != SID_CONTROL
      requires |f.payload| > 0 && !HasRst(f.flags)
      modifies Repr()
      ensures Valid() && Grown() && f.sid in old(Abs()).streams
      ensures go <==> !old(Abs()).streams[f.sid].life.HalfRemote?
                      && |f.payload| <= old(Abs()).recvWin && |f.payload| <= old(Abs()).streams[f.sid].recvWin
      ensures !go ==> Abs() == S.OnStreamData(old(Abs()), f)
      ensures go ==> Abs() == TakeData(old(Abs()), f)
      ensures go ==> tab.slots == old(tab.slots) && tab.slots[i].Used? && tab.slots[i].sid == f.sid
    {
      hide MuxSession.Valid, Encode, GrowTo, GoodConfig, AbortStream, HasSyn, HasFin, HasRst, TakeData;
      SlotLive(i);
      if tab.slots[i].val.life.HalfRemote? {
        Abort(i, CODE_PROTOCOL);
        return false;
      }
      if |f.payload| > recvWin {
        Fail(CODE_FLOW_CONTROL);
        return false;
      }
      if |f.payload| > tab.slots[i].val.recvWin {
        Abort(i, CODE_FLOW_CONTROL);
        return false;
      }
      Debited(i, f);
      return true;
    }

    method Debited(i: nat, f: Frame)
      requires Valid() && i < tab.slots.Length && tab.slots[i].Used? && tab.slots[i].sid == f.sid
      modifies Repr()
      ensures Valid() && Grown() && f.sid in old(Abs()).streams && Abs() == TakeData(old(Abs()), f)
      ensures tab.slots == old(tab.slots) && tab.slots[i].Used? && tab.slots[i].sid == f.sid
    {
      hide MuxSession.Valid, Encode, GrowTo, GoodConfig;
      SlotLive(i);
      Assign(i, tab.slots[i].val.(recvWin := tab.slots[i].val.recvWin - |f.payload|));
      recvWin := recvWin - |f.payload|;
      Post(StreamData(f.sid, f.payload));
    }

    method Finish(i: nat)
      requires Valid() && i < tab.slots.Length && tab.slots[i].Used?
      modifies Repr()
      ensures Valid() && Grown()
      ensures old(tab.slots[i]).sid in old(Abs()).streams
      ensures Abs() == TakeFin(old(Abs()), old(tab.slots[i]).sid)
    {
      hide MuxSession.Valid, Encode, GrowTo, GoodConfig;
      SlotLive(i);
      Post(StreamClosed(tab.slots[i].sid));
      if tab.slots[i].val.life.HalfLocal? {
        Drop(i);
      } else {
        Assign(i, tab.slots[i].val.(life := HalfRemote));
      }
    }

    /** Wake one stream that has room. */
    method Rouse(i: nat)
      requires Valid() && i < tab.slots.Length && tab.slots[i].Used?
      modifies this, tab, tab.slots, q, q.ev
      ensures Valid() && Grown() && tab.slots == old(tab.slots)
      ensures forall k :: 0 <= k < tab.slots.Length && k != i ==> tab.slots[k] == old(tab.slots[k])
      ensures Abs() == Wake(old(Abs()), old(tab.slots[i]).sid)
      ensures unchanged(`sendWin)
    {
      hide MuxSession.Valid, Encode, GrowTo, GoodConfig;
      SlotLive(i);
      if tab.slots[i].val.blocked && tab.slots[i].val.sendWin > 0 {
        var sid := tab.slots[i].sid;
        MarkBlocked(i, false);
        assert forall k :: 0 <= k < tab.slots.Length && k != i ==> tab.slots[..][k] == old(tab.slots[..])[k];
        Post(Writable(sid));
      }
    }

    /** The sweep over the table when the connection window reopens. */
    method SweepTable(ghost order: seq<Sid>)
      requires Valid() && order == Order(tab.slots[..])
      modifies this, tab, tab.slots, q, q.ev
      ensures Valid() && Grown()
      ensures Abs() == Sweep(old(Abs()), order)
    {
      hide MuxSession.Valid, Encode, GrowTo, GoodConfig, Sweep, Wake, Order;
      ghost var t := tab.slots[..];
      SweepNone(Abs(), t);
      for i := 0 to tab.slots.Length
        invariant Valid() && Grown() && tab.slots == old(tab.slots)
        invariant forall k :: i <= k < tab.slots.Length ==> tab.slots[k] == t[k]
        invariant Abs() == Sweep(old(Abs()), Order(t[..i]))
      {
        SweepNext(old(Abs()), t, i);
        if tab.slots[i].Used? {
          Rouse(i);
        }
      }
      assert t[..|t|] == t;
    }

    method OnWindowUpdate(f: Frame) returns (ghost order: seq<Sid>)
      requires Valid()
      modifies Repr()
      ensures Valid() && Grown()
      ensures Enumerates(order, old(Abs()).streams.Keys) && Abs() == S.OnWindowUpdate(old(Abs()), f, order)
    {
      hide MuxSession.Valid, Encode, GrowTo, GoodConfig, Enumerates, Sweep, Wake, Order;
      order := Order(tab.slots[..]);
      TableOrder();
      if |f.payload| != 4 {
        Fail(CODE_PROTOCOL);
        return;
      }
      var credit := Get32(f.payload, 0);
      if f.sid == SID_CONTROL {
        var wasBlocked := sendWin <= 0;
        sendWin := sendWin + credit;
        if sendWin > WINDOW_LIMIT {
          Fail(CODE_FLOW_CONTROL);
        } else if wasBlocked && sendWin > 0 && blockedCount > 0 {
          SweepTable(order);
        }
      } else {
        CreditSender(f.sid, credit);
      }
    }

    method CreditSender(sid: Sid, credit: U32)
      requires Valid()
      modifies Repr()
      ensures Valid() && Grown()
      ensures Abs() == OnStreamCredit(old(Abs()), sid, credit)
    {
      hide MuxSession.Valid, Encode, GrowTo, GoodConfig, Wake;
      var i := Lookup(sid);
      if i < 0 {
        return;
      }
      var st := tab.slots[i].val;
      Assign(i, st.(sendWin := st.sendWin + credit));
      if st.sendWin + credit > WINDOW_LIMIT {
        Fail(CODE_FLOW_CONTROL);
      } else if sendWin > 0 {
        Rouse(i);
      }
    }

    /** Table order lists exactly the live streams, each once. */
    lemma TableOrder()
      requires Valid()
      ensures Enumerates(Order(tab.slots[..]), Abs().streams.Keys)
    {
      hide CountUsed, CountTomb, PowerOfTwo, TableOk, GoodConfig;
      OrderEnumerates(tab.slots[..], tab.dist, tab.live);
    }

    method OnPing(f: Frame)
      requires Valid()
      modifies Repr()
      ensures Valid() && Grown()
      ensures Abs() == S.OnPing(old(Abs()), f)
    {
      hide MuxSession.Valid, Encode, GrowTo, GoodConfig;
      if f.sid != SID_CONTROL || |f.payload| != 8 {
        Fail(CODE_PROTOCOL);
      } else if HasAck(f.flags) {
        timer := timer.(outstanding := false);
      } else {
        var _ := Send(Frame(T_PING, F_ACK, SID_CONTROL, f.payload));
      }
    }

    method OnGoAway(f: Frame)
      requires Valid()
      modifies Repr()
      ensures Valid() && Grown()
      ensures Abs() == S.OnGoAway(old(Abs()), f)
    {
      hide MuxSession.Valid, Encode, GrowTo, GoodConfig;
      if f.sid != SID_CONTROL || |f.payload| < 8 {
        Fail(CODE_PROTOCOL);
      } else {
        Post(Event.GoAway(Get32(f.payload, 0), Get32(f.payload, 4)));
      }
    }

    method OnCapacity(f: Frame)
      requires Valid()
      modifies Repr()
      ensures Valid() && Grown()
      ensures Abs() == S.OnCapacity(old(Abs()), f)
    {
      hide MuxSession.Valid, Encode, GrowTo, GoodConfig;
      if f.sid != SID_CONTROL || |f.payload| != 4 {
        Fail(CODE_PROTOCOL);
      } else {
        Post(Capacity(Get32(f.payload, 0)));
      }
    }

    /** on_hello: the peer's parameters are stored as they are read. */
    method OnHello(f: Frame, ack: bool)
      requires Valid()
      modifies Repr()
      ensures Valid() && Grown()
      ensures GoodConfig(old(Abs()).cfg) && Abs() == S.OnHello(old(Abs()), f, ack)
    {
      hide MuxSession.Valid, Encode, GrowTo, GoodConfig, ReadTlvs, HelloPayload;
      ConfigGood();
      if f.sid != SID_CONTROL || helloSeen {
        Fail(CODE_PROTOCOL);
        return;
      }
      var info, ok := ReadGreeting(f.payload);
      if !ok {
        Fail(CODE_PROTOCOL);
        return;
      }
      helloSeen := true;
      Post(PeerHello(info));
      if !ack && role.Acceptor? && !helloSent {
        var _ := Greet(true);
      }
    }

    lemma ConfigGood()
      requires Valid()
      ensures GoodConfig(cfg) && BlobsFit(cfg)
    {
      hide CountUsed, CountTomb, PowerOfTwo, TableOk;
    }

    /** The TLV loop of on_hello. */
    method ReadGreeting(p: seq<Byte>) returns (info: HelloInfo, ok: bool)
      requires Valid()
      modifies this
      ensures Valid()
      ensures (Params(peerMax, peerInit, sendWin, info), ok)
              == ReadTlvs(Params(old(peerMax), old(peerInit), old(sendWin), NO_INFO), p, 0)
      ensures Abs() == old(Abs()).(peerMax := peerMax, peerInit := peerInit, sendWin := sendWin)
    {
      hide MuxSession.Valid, Encode, GrowTo, GoodConfig, NextTlv;
      info := NO_INFO;
      var cursor := 0;
      ghost var goal := ReadTlvs(Params(peerMax, peerInit, sendWin, info), p, 0);
      while true
        invariant cursor <= |p| && ReadTlvs(Params(peerMax, peerInit, sendWin, info), p, cursor) == goal
        invariant Valid() && Abs() == old(Abs()).(peerMax := peerMax, peerInit := peerInit, sendWin := sendWin)
        decreases |p| - cursor
      {
        match NextTlv(p, cursor) {
          case TlvEnd => return info, true;
          case TlvBad => return info, false;
          case TlvNext(v, next) =>
            info := TakeGreeting(v, info);
            cursor := next;
        }
      }
    }

    method TakeGreeting(v: Tlv, was: HelloInfo) returns (info: HelloInfo)
      requires Valid()
      modifies this
      ensures Valid()
      ensures Params(peerMax, peerInit, sendWin, info)
              == TakeTlv(Params(old(peerMax), old(peerInit), old(sendWin), was), v)
      ensures Abs() == old(Abs()).(peerMax := peerMax, peerInit := peerInit, sendWin := sendWin)
    {
      hide MuxSession.Valid, Encode, GrowTo, GoodConfig;
      info := was;
      if v.t == TLV_WEIGHT {
        if |v.val| == 4 { info := info.(weight := Get32(v.val, 0)); }
      } else if v.t == TLV_MAX_STREAMS {
        if |v.val| == 4 { peerMax := Get32(v.val, 0); info := info.(maxStreams := peerMax); }
      } else if v.t == TLV_INIT_WINDOW {
        if |v.val| == 4 { peerInit := Get32(v.val, 0); info := info.(initWindow := peerInit); }
      } else if v.t == TLV_SESSION_WINDOW {
        if |v.val| == 4 { sendWin := Get32(v.val, 0); }
      } else if v.t == TLV_PEER_ID {
        info := info.(peerId := v.val);
      } else if v.t == TLV_AUTH {
        info := info.(auth := v.val);
      } else if v.t == TLV_NONCE {
        info := info.(nonce := v.val);
      }
    }

    /** process_frame. */
    method Dispatch(f: Frame)
      requires Valid()
      modifies Repr()
      ensures Valid() && Grown()
      ensures Processes(old(Abs()), f, Abs())
    {
      hide MuxSession.Valid, Encode, GrowTo, GoodConfig, Enumerates, S.OnSyn, S.OnStreamData, S.OnWindowUpdate,
          S.OnPing, S.OnGoAway, S.OnCapacity, S.OnHello;
      ConfigGood();
      ghost var order := Order(tab.slots[..]);
      TableOrder();
      if !helloSeen && f.typ != T_HELLO && f.typ != T_HELLO_ACK {
        Fail(CODE_PROTOCOL);
      } else if f.typ == T_DATA {
        if HasSyn(f.flags) {
          OnSyn(f);
        } else {
          OnStreamData(f);
        }
      } else if f.typ == T_WINDOW_UPDATE {
        order := OnWindowUpdate(f);
      } else if f.typ == T_PING {
        OnPing(f);
      } else if f.typ == T_GOAWAY {
        OnGoAway(f);
      } else if f.typ == T_HELLO {
        OnHello(f, false);
      } else if f.typ == T_HELLO_ACK {
        OnHello(f, true);
      } else if f.typ == T_CAPACITY {
        OnCapacity(f);
      } else {
        Fail(CODE_PROTOCOL);
      }
      assert Abs() == Process(old(Abs()), f, order);
    }

    /** mux_recv: `fs` are the frames processed; the result is how many bytes they took. */
    method Receive(buf: seq<Byte>) returns (n: int, ghost fs: seq<Frame>)
      requires Valid()
      modifies Repr()
      ensures Valid() && Grown()
      ensures old(dead) ==> n == ERR_STATE && Abs() == old(Abs())
      ensures !old(dead) ==> RecvRun(old(Abs()), buf, fs, Abs()) && n == |EncodeAll(fs)|
    {
      hide MuxSession.Valid, Encode, GrowTo, GoodConfig, Processes, Parse, RaiseFatal, RecvRun;
      fs := [];
      if dead {
        return ERR_STATE, [];
      }
      ghost var s0 := Abs();
      var cursor := 0;
      n := 0;
      while true
        invariant Valid() && Grown() && !dead && cursor <= |buf|
        invariant cursor == |EncodeAll(fs)| && Progress(s0, buf, fs, Abs())
        decreases |buf| - cursor
      {
        ghost var s1, rest := Abs(), buf[cursor..];
        Counts();
        if cursor == |buf| || q.count >= EVENT_QUEUE_SOFT_CAP {
          StopRun(s0, buf, fs, s1, s1);
          return cursor, fs;
        }
        match Parse(buf[cursor..]) {
          case Short =>
            StopRun(s0, buf, fs, s1, s1);
            return cursor, fs;
          case Bad =>
            Fail(CODE_PROTOCOL);
            StopRun(s0, buf, fs, s1, Abs());
            return cursor, fs;
          case Parsed(f, used) =>
            Dispatch(f);
            if dead {
              StopRun(s0, buf, fs, s1, Abs());
              return cursor, fs;
            }
            ParsedLength(rest);
            ProgressMore(s0, buf, fs, s1, f, Abs());
            cursor := cursor + used;
            fs := fs + [f];
        }
      }
    }

    // -------------------------------------------------------------- host calls

    /** mux_open. The next id is not live: see FreshIdsExactly. */
    method Open(meta: seq<Byte>) returns (n: int)
      requires Valid() && nextSid !in Abs().streams
      modifies Repr()
      ensures Valid() && Grown()
      ensures (Abs(), n) == OpenStream(old(Abs()), meta)
    {
      hide MuxSession.Valid, Encode, GrowTo, GoodConfig;
      if dead || !helloSeen || localGoaway {
        return ERR_STATE;
      }
      if |meta| > MAX_META {
        return ERR_PARAM;
      }
      Counts();
      if tab.count >= peerMax {
        return ERR_NOMEM;
      }
      var sid := nextSid;
      if sid == SID_CONTROL {
        return ERR_STATE;
      }
      n := OpenAs(sid, meta);
    }

    method OpenAs(sid: Sid, meta: seq<Byte>) returns (n: int)
      requires Valid() && sid == nextSid && sid !in Abs().streams && |meta| <= MAX_META
      modifies Repr()
      ensures Valid() && Grown()
      ensures var (s1, ok) := Emit(old(Abs()).(nextSid := (sid as int + 2) % U32_LIMIT), SynFrame(sid, meta));
              && Abs() == (if ok then s1.(streams := s1.streams[sid := Fresh(old(Abs()))]) else s1)
              && n == (if ok then sid else ERR_NOMEM)
    {
      hide MuxSession.Valid, Encode, GrowTo, GoodConfig, Emit, Remove;
      nextSid := (sid as int + 2) % U32_LIMIT;
      var at := Enter(sid, Stream(Life.Open, false, peerInit, cfg.initWindow, 0));
      EnterEmit(old(Abs()).(nextSid := nextSid), sid, Fresh(old(Abs())), SynFrame(sid, meta));
      var ok := Send(SynFrame(sid, meta));
      if !ok {
        Drop(at);
        return ERR_NOMEM;
      }
      return sid;
    }

    /** mux_write: both windows are debited once, after the chunk loop. */
    method Write(sid: Sid, p: seq<Byte>) returns (n: int)
      requires Valid()
      modifies Repr()
      ensures Valid() && Grown()
      ensures (Abs(), n) == WriteStream(old(Abs()), sid, p)
    {
      hide MuxSession.Valid, Encode, GrowTo, GoodConfig, SendAll, SendChunk;
      if dead {
        return ERR_STATE;
      }
      var i := Lookup(sid);
      if i < 0 {
        return ERR_NOSTREAM;
      }
      if tab.slots[i].val.life.HalfLocal? {
        return ERR_STATE;
      }
      var room := if sendWin < tab.slots[i].val.sendWin then sendWin else tab.slots[i].val.sendWin;
      if room <= 0 {
        MarkBlocked(i, true);
        return 0;
      }
      var want := if |p| > room then room else |p|;
      var sent := Transmit(i, p[..want]);
      SlotLive(i);
      if sent < |p| && (tab.slots[i].val.sendWin <= 0 || sendWin <= 0) {
        MarkBlocked(i, true);
      }
      return sent;
    }

    method Charge(i: nat, n: nat)
      requires Valid() && i < tab.slots.Length && tab.slots[i].Used?
      modifies this, tab, tab.slots
      ensures Valid() && Grown()
      ensures old(tab.slots[i]).sid in old(Abs()).streams && Abs() == Debit(old(Abs()), old(tab.slots[i]).sid, n)
      ensures tab.slots == old(tab.slots) && tab.slots[i].Used? && tab.slots[i].sid == old(tab.slots[i]).sid
    {
      hide MuxSession.Valid, Encode, GrowTo, GoodConfig;
      SlotLive(i);
      Assign(i, tab.slots[i].val.(sendWin := tab.slots[i].val.sendWin - n));
      sendWin := sendWin - n;
    }

    /** The chunk loop of mux_write and the debit after it. */
    method Transmit(i: nat, p: seq<Byte>) returns (sent: nat)
      requires i < tab.slots.Length && tab.slots[i].Used?
      requires Valid()
      modifies Repr()
      ensures Valid() && Grown()
      ensures old(tab.slots[i]).sid in old(Abs()).streams
      ensures (Abs(), sent) == SendAll(old(Abs()), old(tab.slots[i]).sid, p)
      ensures tab.slots == old(tab.slots) && tab.slots[i].Used? && tab.slots[i].sid == old(tab.slots[i]).sid
    {
      hide MuxSession.Valid, Encode, GrowTo, GoodConfig, SendAll, SendChunk, Emit, Continue, Debit;
      SlotLive(i);
      var sid := tab.slots[i].sid;
      sent := 0;
      ghost var s0 := Abs();
      DebitNone(s0, sid, p);
      while sent < |p|
        invariant sent <= |p| && Valid() && Grown() && unchanged(tab) && unchanged(tab.slots)
        invariant sid in Abs().streams
        invariant SendAll(s0, sid, p) == Continue(Debit(Abs(), sid, sent), sid, p, sent)
      {
        var chunk := if |p| - sent > MAX_DATA_FRAME then MAX_DATA_FRAME else |p| - sent;
        DebitChunk(Abs(), sid, p, sent);
        var ok := Send(DataFrame(sid, p[sent..sent + chunk]));
        if !ok {
          break;
        }
        sent := sent + chunk;
      }
      ContinueEnd(Debit(Abs(), sid, sent), sid, p, sent);
      assert SendAll(s0, sid, p) == (Debit(Abs(), sid, sent), sent);
      Charge(i, sent);
    }

    /** mux_close. */
    method Close(sid: Sid) returns (n: int)
      requires Valid()
      modifies Repr()
      ensures Valid() && Grown()
      ensures (Abs(), n) == CloseStream(old(Abs()), sid)
    {
      hide MuxSession.Valid, Encode, GrowTo, GoodConfig;
      if dead {
        return ERR_STATE;
      }
      var i := Lookup(sid);
      if i < 0 {
        return ERR_NOSTREAM;
      }
      if tab.slots[i].val.life.HalfLocal? {
        return OK;
      }
      var ok := Send(FinFrame(sid));
      if !ok {
        return ERR_NOMEM;
      }
      if tab.slots[i].val.life.HalfRemote? {
        Drop(i);
      } else {
        Assign(i, tab.slots[i].val.(life := HalfLocal));
      }
      return OK;
    }

    /** mux_reset. */
    method Reset(sid: Sid, code: U32) returns (n: int)
      requires Valid()
      modifies Repr()
      ensures Valid() && Grown()
      ensures (Abs(), n) == ResetStream(old(Abs()), sid, code)
    {
      hide MuxSession.Valid, Encode, GrowTo, GoodConfig;
      if dead {
        return ERR_STATE;
      }
      var i := Lookup(sid);
      if i < 0 {
        return OK;
      }
      var _ := Send(RstFrame(sid, code));
      Drop(i);
      return OK;
    }

    /** mux_consume: the connection is credited even for a stream that is gone. */
    method Consume(sid: Sid, n: nat) returns (r: int)
      requires Valid()
      modifies Repr()
      ensures Valid() && Grown()
      ensures (Abs(), r) == S.Consume(old(Abs()), sid, n)
    {
      hide MuxSession.Valid, Encode, GrowTo, GoodConfig, CreditSession, CreditStream;
      if dead {
        return ERR_STATE;
      }
      if n == 0 {
        return OK;
      }
      recvPending := recvPending + n;
      CreditConnection();
      ConsumeRecord(sid, n);
      return OK;
    }

    method ConsumeRecord(sid: Sid, n: nat)
      requires Valid()
      modifies Repr()
      ensures Valid() && Grown()
      ensures Abs() == if sid in old(Abs()).streams then CreditStream(AddStreamPending(old(Abs()), sid, n), sid)
                       else old(Abs())
    {
      hide MuxSession.Valid, Encode, GrowTo, GoodConfig, CreditStream;
      var i := Lookup(sid);
      if i >= 0 {
        Assign(i, tab.slots[i].val.(recvPending := tab.slots[i].val.recvPending + n));
        CreditRecord(i);
      }
    }

    /** mux_send_capacity. */
    method Announce(weight: U32) returns (r: int)
      requires Valid()
      modifies Repr()
      ensures Valid() && Grown()
      ensures (Abs(), r) == SendCapacity(old(Abs()), weight)
    {
      hide MuxSession.Valid, Encode, GrowTo, GoodConfig;
      if dead {
        return ERR_STATE;
      }
      var ok := Send(Frame(T_CAPACITY, 0, SID_CONTROL, Put32(weight)));
      return if ok then OK else ERR_NOSPACE;
    }

    /** mux_goaway. */
    method Drain(reason: U32) returns (r: int)
      requires Valid()
      modifies Repr()
      ensures Valid() && Grown()
      ensures (Abs(), r) == SendGoAway(old(Abs()), reason)
    {
      hide MuxSession.Valid, Encode, GrowTo, GoodConfig;
      if dead {
        return ERR_STATE;
      }
      localGoaway := true;
      var ok := Send(Frame(T_GOAWAY, 0, SID_CONTROL, Put32(reason) + Put32(maxRemote)));
      return if ok then OK else ERR_NOSPACE;
    }

    /** mux_on_timer. */
    method Tick(now: nat) returns (next: nat)
      requires Valid() && now < U64_LIMIT
      modifies Repr()
      ensures Valid() && Grown()
      ensures (Abs(), next) == OnTimer(old(Abs()), now)
    {
      hide MuxSession.Valid, Encode, GrowTo, GoodConfig, PingFrame, Emit;
      if dead || cfg.heartbeatMs == 0 {
        return NO_DEADLINE;
      }
      var due := (now + cfg.heartbeatMs) % U64_LIMIT;
      if !timer.started {
        timer := timer.(started := true, dueMs := due);
        return due;
      }
      if timer.outstanding && cfg.keepaliveTimeoutMs != 0
         && (now - timer.sentMs) % U64_LIMIT >= cfg.keepaliveTimeoutMs {
        Fail(CODE_INTERNAL);
        return NO_DEADLINE;
      }
      if now >= timer.dueMs {
        Ping(now, due);
      }
      next := timer.dueMs;
      if timer.outstanding && cfg.keepaliveTimeoutMs != 0 {
        var deadline := (timer.sentMs + cfg.keepaliveTimeoutMs) % U64_LIMIT;
        if deadline < next {
          next := deadline;
        }
      }
    }

    method Ping(now: nat, due: nat)
      requires Valid()
      modifies Repr()
      ensures Valid() && Grown()
      ensures var (s1, ok) := Emit(old(Abs()), PingFrame(old(timer).nonce));
              Abs() == if !ok then s1 else
                s1.(timer := s1.timer.(outstanding := true, sentMs := now, dueMs := due,
                                       nonce := (s1.timer.nonce + 1) % U64_LIMIT))
    {
      hide MuxSession.Valid, Encode, GrowTo, GoodConfig, PingFrame;
      var ok := Send(PingFrame(timer.nonce));
      if ok {
        timer := timer.(outstanding := true, sentMs := now, dueMs := due, nonce := (timer.nonce + 1) % U64_LIMIT);
      }
    }

    /** mux_send_advance. */
    method Advance(n: nat)
      requires Valid()
      modifies Repr()
      ensures Valid() && Grown()
      ensures Abs() == S.Advance(old(Abs()), n)
    {
      hide TableOk, CountUsed, CountTomb, PowerOfTwo, Ring, Encode, GrowTo, GoodConfig;
      out.Advance(n);
    }

    /** mux_next_event. */
    method NextEvent() returns (e: Option<Event>)
      requires Valid()
      modifies Repr()
      ensures Valid() && Grown()
      ensures (Abs(), e) == PopEvent(old(Abs()))
    {
      hide TableOk, CountUsed, CountTomb, PowerOfTwo, Encode, GrowTo, GoodConfig;
      if q.count == 0 {
        return None;
      }
      var x := q.Pop();
      return Some(x);
    }
  }
}
