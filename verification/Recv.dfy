/** mux_recv: parsing and processing the frames of a byte buffer. */
module Recv {
  import opened Wire
  import opened Codec
  import opened Session

  /** One frame processed; the table order used by a connection sweep is the table's own business. */
  ghost predicate Processes(s: Session, f: Frame, s': Session) {
    GoodConfig(s.cfg) && exists order :: Enumerates(order, s.streams.Keys) && s' == Process(s, f, order)
  }

  /** The loop goes on: the session lives, there are bytes, and the event queue is not full. */
  predicate Active(s: Session, buf: seq<Byte>) {
    !s.dead && buf != [] && |s.events| < EVENT_QUEUE_SOFT_CAP
  }

  /** The loop ends here: no whole frame, or a fatal one, which is not consumed. */
  ghost predicate Stops(s: Session, buf: seq<Byte>, s': Session) {
    if !Active(s, buf) || Parse(buf).Short? then s' == s
    else if Parse(buf).Bad? then s' == RaiseFatal(s, CODE_PROTOCOL)
    else Processes(s, Parse(buf).frame, s') && s'.dead
  }

  ghost predicate Takes(s: Session, buf: seq<Byte>, f: Frame, s': Session) {
    && Active(s, buf) && Parse(buf) == Parsed(f, |Encode(f)|) && |Encode(f)| <= |buf|
    && Processes(s, f, s') && !s'.dead
  }

  /** mux_recv on `buf` processes exactly the frames `fs` and leaves `s'`; it consumes their bytes. */
  ghost predicate RecvRun(s: Session, buf: seq<Byte>, fs: seq<Frame>, s': Session)
    decreases |fs|
  {
    if fs == [] then Stops(s, buf, s')
    else exists s1 :: Takes(s, buf, fs[0], s1) && RecvRun(s1, buf[|Encode(fs[0])|..], fs[1..], s')
  }

  /** Bytes consumed by a run are the encodings of the frames processed: a prefix of the buffer. */
  lemma {:induction false} RecvConsumes(s: Session, buf: seq<Byte>, fs: seq<Frame>, s': Session)
    requires RecvRun(s, buf, fs, s')
    ensures EncodeAll(fs) <= buf
    decreases |fs|
  {
    if fs != [] {
      hide Processes, Parse, Encode;
      var s1 :| Takes(s, buf, fs[0], s1) && RecvRun(s1, buf[|Encode(fs[0])|..], fs[1..], s');
      RecvConsumes(s1, buf[|Encode(fs[0])|..], fs[1..], s');
      TakesPrefix(buf, fs[0]);
      FirstEncoded(fs);
      assert buf == buf[..|Encode(fs[0])|] + buf[|Encode(fs[0])|..];
    }
  }

  lemma TakesPrefix(buf: seq<Byte>, f: Frame)
    requires Parse(buf) == Parsed(f, |Encode(f)|)
    ensures |Encode(f)| <= |buf| && buf[..|Encode(f)|] == Encode(f)
  {
    hide Parse;
    EncodeParse(buf);
  }

  lemma FirstEncoded(fs: seq<Frame>)
    requires fs != []
    ensures EncodeAll(fs) == Encode(fs[0]) + EncodeAll(fs[1..])
  {
    hide Encode;
    assert fs == [fs[0]] + fs[1..];
    EncodeAllConcat([fs[0]], fs[1..]);
    assert [fs[0]][..0] == [];
    assert EncodeAll([fs[0]]) == EncodeAll([]) + Encode(fs[0]) == Encode(fs[0]);
  }

  /** On bytes that an encoder produced, parsing at any fragmentation point yields the next frame, or
      asks for more: it is never a framing violation. */
  lemma HonestParse(tail: seq<Byte>, rest: seq<Byte>, fs: seq<Frame>)
    requires tail + rest == EncodeAll(fs)
    ensures !Parse(tail).Bad?
    ensures Parse(tail).Parsed? ==> fs != [] && Parse(tail) == Parsed(fs[0], |Encode(fs[0])|)
                                    && |Encode(fs[0])| <= |tail|
                                    && tail[|Encode(fs[0])|..] + rest == EncodeAll(fs[1..])
  {
    hide Parse, Encode;
    if fs == [] {
      assert tail == [];
      NothingShort();
    } else {
      FirstEncoded(fs);
      var e, more := Encode(fs[0]), EncodeAll(fs[1..]);
      if |tail| < |e| {
        assert tail == (tail + rest)[..|tail|] == e[..|tail|];
        ParsePrefix(fs[0], |tail|);
      } else {
        assert tail == e + tail[|e|..] by {
          assert tail[..|e|] == (tail + rest)[..|e|] == e;
        }
        ParseEncode(fs[0], tail[|e|..]);
        assert tail[|e|..] + rest == (tail + rest)[|e|..] == more;
      }
    }
  }

  lemma NothingShort()
    ensures Parse([]) == Short
  {
  }

  // ---------------------------------------------------------------- the loop

  /** The loop so far: the frames `fs` at the front of `buf` were taken one by one. */
  ghost predicate Progress(s: Session, buf: seq<Byte>, fs: seq<Frame>, s': Session)
    decreases |fs|
  {
    if fs == [] then s' == s
    else
      var ds := fs[..|fs| - 1];
      |EncodeAll(ds)| <= |buf|
      && exists s1 :: Progress(s, buf, ds, s1) && Takes(s1, buf[|EncodeAll(ds)|..], fs[|fs| - 1], s')
  }

  lemma ProgressMore(s: Session, buf: seq<Byte>, fs: seq<Frame>, s1: Session, f: Frame, s2: Session)
    requires |EncodeAll(fs)| <= |buf| && Progress(s, buf, fs, s1) && Takes(s1, buf[|EncodeAll(fs)|..], f, s2)
    ensures Progress(s, buf, fs + [f], s2)
    ensures |EncodeAll(fs + [f])| == |EncodeAll(fs)| + |Encode(f)| <= |buf|
  {
    hide Parse, Encode, Processes;
    assert (fs + [f])[..|fs + [f]| - 1] == fs;
  }

  /** What the loop did and how it stopped make one run. */
  lemma {:induction false} ProgressRun(s: Session, buf: seq<Byte>, fs: seq<Frame>, s1: Session,
                                       gs: seq<Frame>, s2: Session)
    requires |EncodeAll(fs)| <= |buf| && Progress(s, buf, fs, s1)
    requires RecvRun(s1, buf[|EncodeAll(fs)|..], gs, s2)
    ensures RecvRun(s, buf, fs + gs, s2)
    decreases |fs|
  {
    hide Parse, Encode, Processes, Stops;
    if fs == [] {
      assert buf[0..] == buf && fs + gs == gs;
    } else {
      var ds, f := fs[..|fs| - 1], fs[|fs| - 1];
      var s0 :| Progress(s, buf, ds, s0) && Takes(s0, buf[|EncodeAll(ds)|..], f, s1);
      var rest := buf[|EncodeAll(ds)|..];
      assert rest[|Encode(f)|..] == buf[|EncodeAll(fs)|..];
      assert ([f] + gs)[0] == f && ([f] + gs)[1..] == gs;
      ProgressRun(s, buf, ds, s0, [f] + gs, s2);
      assert ds + ([f] + gs) == fs + gs;
    }
  }
}
