/** What a frame sequence and an event log say about one stream. Every law of the session is stated
    over these summaries of what an endpoint emitted, processed and reported. */
module Trace {
  import opened Wire
  import opened Codec
  import opened Session

  /** Summary of the frames of one stream id: was there any DATA-type frame, a SYN, a FIN, an RST;
      the stream bytes, and the credit granted. */
  datatype Summary = Summary(any: bool, syn: bool, fin: bool, rst: bool, data: seq<Byte>, credit: nat)

  const ZERO := Summary(false, false, false, false, [], 0)

  predicate IsData(f: Frame) { f.typ == T_DATA }
  predicate IsSyn(f: Frame) { f.typ == T_DATA && HasSyn(f.flags) }
  predicate IsRst(f: Frame) { f.typ == T_DATA && HasRst(f.flags) }
  predicate CarriesBytes(f: Frame) { f.typ == T_DATA && !HasSyn(f.flags) && !HasRst(f.flags) }
  predicate IsCredit(f: Frame) { f.typ == T_WINDOW_UPDATE && |f.payload| == 4 }
  predicate IsHello(f: Frame) { f.typ == T_HELLO || f.typ == T_HELLO_ACK }

  function Note(t: Summary, f: Frame, sid: Sid): Summary {
    if f.sid != sid then t
    else if CarriesBytes(f) then t.(any := true, data := t.data + f.payload, fin := t.fin || HasFin(f.flags))
    else if IsData(f) then
      t.(any := true, syn := t.syn || HasSyn(f.flags), rst := t.rst || HasRst(f.flags),
         fin := t.fin || (HasFin(f.flags) && !HasRst(f.flags)))
    else if IsCredit(f) then t.(credit := t.credit + Get32(f.payload, 0))
    else t
  }

  function Tr(w: seq<Frame>, sid: Sid): Summary
    decreases |w|
  {
    if |w| == 0 then ZERO else Note(Tr(w[..|w| - 1], sid), w[|w| - 1], sid)
  }

  lemma TrAppend(w: seq<Frame>, f: Frame, sid: Sid)
    ensures Tr(w + [f], sid) == Note(Tr(w, sid), f, sid)
  {
    assert (w + [f])[..|w|] == w;
  }

  lemma Nothing(sid: Sid)
    ensures Tr([], sid) == ZERO && TotalData([]) == 0 && LastSyn([]) == 0
  {
  }

  lemma {:induction false} SynIsAny(w: seq<Frame>, sid: Sid)
    ensures Tr(w, sid).syn ==> Tr(w, sid).any
    decreases |w|
  {
    if |w| > 0 {
      SynIsAny(w[..|w| - 1], sid);
    }
  }

  /** The stream bytes in a frame sequence, over all streams. */
  function TotalData(w: seq<Frame>): nat {
    if |w| == 0 then 0 else TotalData(w[..|w| - 1]) + FrameData(w[|w| - 1])
  }

  function FrameData(f: Frame): nat { if CarriesBytes(f) then |f.payload| else 0 }

  lemma TotalAppend(w: seq<Frame>, f: Frame)
    ensures TotalData(w + [f]) == TotalData(w) + FrameData(f)
  {
    assert (w + [f])[..|w|] == w;
  }

  /** The stream id of the latest SYN, 0 if there is none. */
  function LastSyn(w: seq<Frame>): Sid {
    if |w| == 0 then 0 else if IsSyn(w[|w| - 1]) then w[|w| - 1].sid else LastSyn(w[..|w| - 1])
  }

  lemma LastSynAppend(w: seq<Frame>, f: Frame)
    ensures LastSyn(w + [f]) == if IsSyn(f) then f.sid else LastSyn(w)
  {
    assert (w + [f])[..|w|] == w;
  }

  predicate Below(a: Summary, b: Summary) {
    && (a.any ==> b.any) && (a.syn ==> b.syn) && (a.fin ==> b.fin) && (a.rst ==> b.rst)
    && a.data <= b.data && a.credit <= b.credit
  }

  /** A prefix of a frame sequence has a smaller summary, for every stream. */
  lemma {:induction false} TrPrefix(p: seq<Frame>, w: seq<Frame>, sid: Sid)
    requires p <= w
    ensures Below(Tr(p, sid), Tr(w, sid))
    ensures TotalData(p) <= TotalData(w)
    decreases |w|
  {
    if |p| < |w| {
      var w' := w[..|w| - 1];
      assert p <= w';
      TrPrefix(p, w', sid);
    } else {
      assert p == w;
    }
  }

  // ---------------------------------------------------------------- what an endpoint may emit

  predicate Shape(f: Frame) {
    if f.typ == T_DATA then
      && f.sid != SID_CONTROL
      && (f.flags == 0 || f.flags == F_SYN || f.flags == F_FIN || f.flags == F_RST)
      && (f.flags == F_SYN ==> |f.payload| <= MAX_META)
      && (f.flags == F_FIN ==> f.payload == [])
      && (f.flags == F_RST ==> |f.payload| == 4)
    else if f.typ == T_WINDOW_UPDATE then |f.payload| == 4 && Get32(f.payload, 0) > 0
    else
      f.sid == SID_CONTROL &&
      if f.typ == T_PING || f.typ == T_GOAWAY then |f.payload| == 8
      else if f.typ == T_CAPACITY then |f.payload| == 4
      else IsHello(f)
  }

  /** The discipline of an endpoint's output: a SYN opens an own, larger id and comes first on its
      stream; no data after a FIN; nothing after an RST; no credit for an own stream before its SYN. */
  predicate MayFollow(role: Role, p: seq<Frame>, f: Frame) {
    var t := Tr(p, f.sid);
    && Shape(f)
    && (IsData(f) ==>
          && !t.rst
          && (t.fin ==> HasRst(f.flags))
          && (IsSyn(f) ==> Own(role, f.sid) && !t.any && f.sid > LastSyn(p))
          && (Own(role, f.sid) && !IsSyn(f) ==> t.syn))
    && (IsCredit(f) && f.sid != SID_CONTROL && Own(role, f.sid) ==> t.syn)
  }

  ghost predicate WireOk(role: Role, w: seq<Frame>) {
    forall k :: 0 <= k < |w| ==> MayFollow(role, w[..k], w[k])
  }

  lemma WireOkAppend(role: Role, w: seq<Frame>, f: Frame)
    requires WireOk(role, w) && MayFollow(role, w, f)
    ensures WireOk(role, w + [f])
  {
    var w' := w + [f];
    forall k | 0 <= k < |w'| ensures MayFollow(role, w'[..k], w'[k]) {
      if k < |w| {
        assert w'[..k] == w[..k];
      } else {
        assert w'[..k] == w;
      }
    }
  }

  lemma WireOkPrefix(role: Role, p: seq<Frame>, w: seq<Frame>)
    requires WireOk(role, w) && p <= w
    ensures WireOk(role, p)
  {
    forall k | 0 <= k < |p| ensures MayFollow(role, p[..k], p[k]) {
      assert p[..k] == w[..k] && p[k] == w[k];
    }
  }

  /** On a disciplined wire, an own id above the latest SYN has no frame at all. */
  lemma {:induction false} QuietAboveLastSyn(role: Role, w: seq<Frame>, sid: Sid)
    requires WireOk(role, w) && Own(role, sid) && sid != SID_CONTROL && sid > LastSyn(w)
    ensures Tr(w, sid) == ZERO
    decreases |w|
  {
    if |w| > 0 {
      var p, f := w[..|w| - 1], w[|w| - 1];
      assert MayFollow(role, p, f);
      WireOkPrefix(role, p, w);
      QuietAboveLastSyn(role, p, sid);
    }
  }

  /** SYN ids only grow along a disciplined wire. */
  lemma {:induction false} LastSynGrows(role: Role, p: seq<Frame>, w: seq<Frame>)
    requires WireOk(role, w) && p <= w
    ensures LastSyn(p) <= LastSyn(w)
    decreases |w|
  {
    if |p| < |w| {
      var w', f := w[..|w| - 1], w[|w| - 1];
      assert MayFollow(role, w', f);
      WireOkPrefix(role, w', w);
      LastSynGrows(role, p, w');
    } else {
      assert p == w;
    }
  }

  // ---------------------------------------------------------------- what an endpoint reported

  /** What the events of one stream told the host. */
  datatype Heard = Heard(data: seq<Byte>, closed: bool)

  function NoteEvent(h: Heard, e: Event, sid: Sid): Heard {
    if e.StreamData? && e.sid == sid then h.(data := h.data + e.data)
    else if e.StreamClosed? && e.sid == sid then h.(closed := true)
    else h
  }

  function Hear(log: seq<Event>, sid: Sid): Heard
    decreases |log|
  {
    if |log| == 0 then Heard([], false) else NoteEvent(Hear(log[..|log| - 1], sid), log[|log| - 1], sid)
  }

  function TotalIn(log: seq<Event>): nat {
    if |log| == 0 then 0
    else TotalIn(log[..|log| - 1]) + if log[|log| - 1].StreamData? then |log[|log| - 1].data| else 0
  }

  /** An event that says nothing about any stream's bytes. */
  predicate Mute(e: Event) { !e.StreamData? && !e.StreamClosed? }

  lemma HearAppend(log: seq<Event>, e: Event, sid: Sid)
    ensures Hear(log + [e], sid) == NoteEvent(Hear(log, sid), e, sid)
    ensures TotalIn(log + [e]) == TotalIn(log) + if e.StreamData? then |e.data| else 0
  {
    assert (log + [e])[..|log|] == log;
  }

  lemma {:induction false} HearMute(log: seq<Event>, es: seq<Event>, sid: Sid)
    requires forall e :: e in es ==> Mute(e)
    ensures Hear(log + es, sid) == Hear(log, sid)
    ensures TotalIn(log + es) == TotalIn(log)
    decreases |es|
  {
    if |es| == 0 {
      assert log + es == log;
    } else {
      var es', e := es[..|es| - 1], es[|es| - 1];
      assert e in es;
      HearMute(log, es', sid);
      HearAppend(log + es', e, sid);
      assert log + es == log + es' + [e];
    }
  }
}
