/** Where everything sits on the wire, octet by octet and most significant octet first. */
module Layout {
  import opened Wire
  import opened Codec
  import opened Session

  predicate Big16(b: seq<Byte>, i: nat, v: int) { i + 2 <= |b| && (b[i] as int) * 0x100 + b[i + 1] == v }

  predicate Big32(b: seq<Byte>, i: nat, v: int) {
    && i + 4 <= |b|
    && (b[i] as int) * 0x100_0000 + (b[i + 1] as int) * 0x1_0000 + (b[i + 2] as int) * 0x100 + b[i + 3] == v
  }

  lemma Stored16(b: seq<Byte>, i: nat, v: U16)
    requires i + 2 <= |b| && b[i..i + 2] == Put16(v)
    ensures Big16(b, i, v)
  {
    assert b[i] == b[i..i + 2][0] && b[i + 1] == b[i..i + 2][1];
  }

  lemma Stored32(b: seq<Byte>, i: nat, v: U32)
    requires i + 4 <= |b| && b[i..i + 4] == Put32(v)
    ensures Big32(b, i, v)
  {
    assert b[i] == b[i..i + 4][0] && b[i + 1] == b[i..i + 4][1];
    assert b[i + 2] == b[i..i + 4][2] && b[i + 3] == b[i..i + 4][3];
    Split32(v);
  }

  /** A frame: version 1, type, flags, stream id, length, payload. */
  lemma FrameLayout(f: Frame)
    ensures var b := Encode(f);
            && |b| == 12 + |f.payload| && b[0] == 1 && b[1] == f.typ && Big16(b, 2, f.flags)
            && Big32(b, 4, f.sid) && Big32(b, 8, |f.payload|) && b[12..] == f.payload
  {
    hide Put16, Put32;
    Widths(f.flags, f.sid);
    Widths(f.flags, |f.payload|);
    var b := Encode(f);
    assert b[2..4] == Put16(f.flags) && b[4..8] == Put32(f.sid) && b[8..12] == Put32(|f.payload|);
    Stored16(b, 2, f.flags);
    Stored32(b, 4, f.sid);
    Stored32(b, 8, |f.payload|);
  }

  lemma Widths(v: U16, w: U32)
    ensures |Put16(v)| == 2 && |Put32(w)| == 4
  {
  }

  /** A TLV: type, length, value. */
  lemma TlvLayout(v: Tlv)
    ensures var b := EncodeTlv(v);
            |b| == 4 + |v.val| && Big16(b, 0, v.t) && Big16(b, 2, |v.val|) && b[4..] == v.val
  {
    var b := EncodeTlv(v);
    Stored16(b, 0, v.t);
    Stored16(b, 2, |v.val|);
  }

  // ---------------------------------------------------------------- payloads

  /** The frames that carry words: a reset its code, a WINDOW_UPDATE its credit. */
  lemma CodeLayout(sid: Sid, v: U32)
    ensures var r := RstFrame(sid, v); r.typ == 0 && r.flags == 8 && |r.payload| == 4 && Big32(r.payload, 0, v)
    ensures var c := CreditFrame(sid, v); c.typ == 1 && c.flags == 0 && |c.payload| == 4 && Big32(c.payload, 0, v)
  {
    Stored32(Put32(v), 0, v);
  }

  /** What mux_goaway and mux_send_capacity put on the wire: one frame, if the session lives and has room for its
      20 or 16 octets, and nothing otherwise. */
  lemma NoticeLayout(s: Session, v: U32)
    ensures var (s1, r) := SendGoAway(s, v);
            if !s.dead && |s.out| + 20 <= Max(s.cap, s.cfg.maxOutBuffer) then
              && r == OK && |s1.wire| == |s.wire| + 1 && s1.wire[..|s.wire|] == s.wire
              && var f := s1.wire[|s.wire|];
                 && f.typ == 3 && f.flags == 0 && f.sid == 0 && |f.payload| == 8
                 && Big32(f.payload, 0, v) && Big32(f.payload, 4, s.maxRemote)
            else r != OK && s1.wire == s.wire
    ensures var (s1, r) := SendCapacity(s, v);
            if !s.dead && |s.out| + 16 <= Max(s.cap, s.cfg.maxOutBuffer) then
              && r == OK && |s1.wire| == |s.wire| + 1 && s1.wire[..|s.wire|] == s.wire
              && var f := s1.wire[|s.wire|];
                 f.typ == 0x12 && f.flags == 0 && f.sid == 0 && |f.payload| == 4 && Big32(f.payload, 0, v)
            else r != OK && s1.wire == s.wire
  {
    hide Encode, GrowTo;
    var p := Put32(v) + Put32(s.maxRemote);
    Stored32(p, 0, v);
    Stored32(p, 4, s.maxRemote);
    Stored32(Put32(v), 0, v);
  }

  // ---------------------------------------------------------------- the greeting

  /** A TLV of one word at offset `i`. */
  predicate WordTlv(b: seq<Byte>, i: nat, t: int, v: int) { Big16(b, i, t) && Big16(b, i + 2, 4) && Big32(b, i + 4, v) }

  lemma {:induction false} WordAt(vs: seq<Tlv>, i: nat, v: U32)
    requires i < |vs| && vs[i].val == Put32(v) && forall j :: 0 <= j < i ==> |vs[j].val| == 4
    ensures WordTlv(EncodeTlvs(vs), 8 * i, vs[i].t, v)
    decreases i
  {
    hide WordTlv, EncodeTlv, Put32;
    var a, b := EncodeTlv(vs[0]), EncodeTlvs(vs[1..]);
    TlvLayout(vs[0]);
    if i == 0 {
      First(vs[0], b, v);
    } else {
      WordAt(vs[1..], i - 1, v);
      Behind(a, b, 8 * (i - 1), vs[i].t, v);
    }
  }

  lemma First(w: Tlv, b: seq<Byte>, v: U32)
    requires w.val == Put32(v)
    ensures WordTlv(EncodeTlv(w) + b, 0, w.t, v)
  {
    var a := EncodeTlv(w);
    TlvLayout(w);
    assert (a + b)[4..8] == a[4..] == Put32(v);
    Stored32(a + b, 4, v);
  }

  lemma Behind(a: seq<Byte>, b: seq<Byte>, i: nat, t: int, v: int)
    requires |a| == 8 && WordTlv(b, i, t, v)
    ensures WordTlv(a + b, 8 + i, t, v)
  {
  }

  /** A greeting begins with weight, stream cap, stream window, connection window and heartbeat. */
  lemma GreetingLayout(c: Config)
    requires BlobsFit(c)
    ensures var b := HelloPayload(c);
            && WordTlv(b, 0, 2, c.weight) && WordTlv(b, 8, 3, c.maxStreams) && WordTlv(b, 16, 5, c.initWindow)
            && WordTlv(b, 24, 7, c.sessionWindow) && WordTlv(b, 32, 6, c.heartbeatMs)
  {
    hide WordTlv, EncodeTlvs;
    var vs := HelloTlvs(c);
    WordAt(vs, 0, c.weight);
    WordAt(vs, 1, c.maxStreams);
    WordAt(vs, 2, c.initWindow);
    WordAt(vs, 3, c.sessionWindow);
    WordAt(vs, 4, c.heartbeatMs);
  }
}
