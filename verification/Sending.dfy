/** When mux_write takes everything it is given: exactly when the stream is open for sending, both windows
    have room for it and so has the output buffer, all of which can be told before the call. */
module Sending {
  import opened Wire
  import opened Codec
  import opened Session
  import opened NodeSend
  import opened HostWake

  /** Room for `k` bytes, cut into DATA frames, behind `len` pending bytes in a buffer of `cap` bytes that may
      grow to `max`. */
  predicate RoomFor(cap: nat, len: nat, max: nat, k: nat)
    decreases k
  {
    k == 0 ||
    var n := Min(k, MAX_DATA_FRAME);
    var len' := len + HEADER_SIZE + n;
    len' <= Max(cap, max) && RoomFor(GrowTo(cap, len'), len', max, k - n)
  }

  predicate TakesAll(s: Session, sid: Sid, k: nat) {
    && OpenFor(s, sid) && k <= Min(s.streams[sid].sendWin, s.sendWin)
    && RoomFor(s.cap, |s.out|, s.cfg.maxOutBuffer, k)
  }

  lemma {:induction false} SendAllExactly(s: Session, sid: Sid, p: seq<Byte>)
    requires sid in s.streams
    ensures SendAll(s, sid, p).1 == |p| <==> RoomFor(s.cap, |s.out|, s.cfg.maxOutBuffer, |p|)
    decreases |p|
  {
    hide Encode, GrowTo;
    if |p| > 0 {
      var c := Min(|p|, MAX_DATA_FRAME);
      var f := DataFrame(sid, p[..c]);
      EncodedLength(f);
      var (s1, ok) := SendChunk(s, sid, p[..c]);
      if ok {
        SendAllExactly(s1, sid, p[c..]);
      }
    }
  }

  lemma EncodedLength(f: Frame)
    ensures |Encode(f)| == HEADER_SIZE + |f.payload|
  {
  }

  lemma WriteAllExactly(s: Session, sid: Sid, p: seq<Byte>)
    requires p != []
    ensures WriteStream(s, sid, p).1 == |p| <==> TakesAll(s, sid, |p|)
  {
    hide SendAll, RoomFor;
    if OpenFor(s, sid) {
      var room := Min(s.streams[sid].sendWin, s.sendWin);
      if room >= |p| {
        assert p[..Min(|p|, room)] == p;
        SendAllExactly(s, sid, p);
      }
    }
  }

  /** After a short write the next one takes nothing: a window is used up, or the session is dead. */
  lemma ShortThenNothing(s: Session, sid: Sid, p: seq<Byte>, k: nat)
    requires WriteStream(s, sid, p).1 < |p| && k > 0
    ensures !TakesAll(WriteStream(s, sid, p).0, sid, k)
    ensures forall q :: WriteStream(WriteStream(s, sid, p).0, sid, q).1 <= 0
  {
    hide SendAll, RoomFor;
    if OpenFor(s, sid) {
      var room := Min(s.streams[sid].sendWin, s.sendWin);
      if room > 0 {
        SendAllPostHolds(s, sid, p[..Min(|p|, room)]);
      }
    }
  }
}
