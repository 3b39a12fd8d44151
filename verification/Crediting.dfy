/** When mux_consume succeeds: exactly when the WINDOW_UPDATE frames that fall due, first for the connection and
    then for the stream, fit the output buffer, which can be told before the call. */
module Crediting {
  import opened Wire
  import opened Codec
  import opened Session
  import opened NodeConsume

  const CREDIT_LENGTH := HEADER_SIZE + 4

  /** Room for `p` units of credit, cut into frames, behind `len` pending bytes in a buffer of `cap` bytes that may
      grow to `max`. */
  predicate CreditsFit(cap: nat, len: nat, max: nat, p: int)
    decreases p
  {
    p <= 0 ||
    var len' := len + CREDIT_LENGTH;
    len' <= Max(cap, max) && CreditsFit(GrowTo(cap, len'), len', max, p - CreditChunk(p))
  }

  /** Capacity and length of the buffer once they are in it. */
  function AfterCredits(cap: nat, len: nat, p: int): (nat, nat)
    decreases p
  {
    if p <= 0 then (cap, len)
    else AfterCredits(GrowTo(cap, len + CREDIT_LENGTH), len + CREDIT_LENGTH, p - CreditChunk(p))
  }

  /** Credit goes out once half a window is pending. */
  function FallsDue(pending: int, window: int): int { if 2 * pending < window then 0 else pending }

  predicate CreditFits(s: Session, sid: Sid, k: nat) {
    var max, due := s.cfg.maxOutBuffer, FallsDue(s.recvPending + k, s.cfg.sessionWindow);
    CreditsFit(s.cap, |s.out|, max, due) &&
    (sid in s.streams ==>
       var (cap, len) := AfterCredits(s.cap, |s.out|, due);
       CreditsFit(cap, len, max, FallsDue(s.streams[sid].recvPending + k, s.cfg.initWindow)))
  }

  lemma CreditLength(sid: Sid, c: U32)
    ensures |CreditFrame(sid, c).payload| == 4 && |Encode(CreditFrame(sid, c))| == CREDIT_LENGTH
  {
  }

  lemma {:induction false} SessionCreditFits(s: Session)
    requires !s.dead
    ensures var s1 := EmitSessionCredit(s);
            && s1.cfg == s.cfg && s1.streams == s.streams
            && (s1.dead <==> !CreditsFit(s.cap, |s.out|, s.cfg.maxOutBuffer, s.recvPending))
            && (!s1.dead ==> (s1.cap, |s1.out|) == AfterCredits(s.cap, |s.out|, s.recvPending))
    decreases s.recvPending
  {
    hide Encode, GrowTo, CreditFrame;
    if s.recvPending > 0 {
      var c := CreditChunk(s.recvPending);
      CreditLength(SID_CONTROL, c);
      var (s1, ok) := Emit(s, CreditFrame(SID_CONTROL, c));
      if ok {
        SessionCreditFits(s1.(recvWin := s1.recvWin + c, recvPending := s1.recvPending - c));
      }
    }
  }

  lemma {:induction false} StreamCreditFits(s: Session, sid: Sid)
    requires !s.dead && sid in s.streams
    ensures EmitStreamCredit(s, sid).dead
            <==> !CreditsFit(s.cap, |s.out|, s.cfg.maxOutBuffer, s.streams[sid].recvPending)
    decreases s.streams[sid].recvPending
  {
    hide Encode, GrowTo, CreditFrame;
    var st := s.streams[sid];
    if st.recvPending > 0 {
      var c := CreditChunk(st.recvPending);
      CreditLength(sid, c);
      var (s1, ok) := Emit(s, CreditFrame(sid, c));
      if ok {
        StreamCreditFits(s1.(streams := s1.streams[sid := st.(recvWin := st.recvWin + c,
                                                              recvPending := st.recvPending - c)]), sid);
      }
    }
  }

  /** A session that was dead stays so. */
  lemma DeadCredit(s: Session, sid: Sid)
    requires s.dead && sid in s.streams
    ensures CreditStream(s, sid).dead
  {
    hide EmitStreamCredit;
    EmitStreamCreditPost(s, sid);
  }

  lemma ConsumeDiesExactly(s: Session, sid: Sid, k: nat)
    requires k > 0
    ensures Consume(s, sid, k).0.dead <==> s.dead || !CreditFits(s, sid, k)
  {
    hide EmitSessionCredit, EmitStreamCredit, CreditsFit, AfterCredits;
    if !s.dead {
      NothingDue(s.cap, |s.out|, s.cfg.maxOutBuffer);
      var s0 := AddPending(s, k);
      var s1 := CreditSession(s0);
      SessionCreditFits(s0);
      if sid in s.streams {
        var s2 := AddStreamPending(s1, sid, k);
        if s1.dead {
          DeadCredit(s2, sid);
        } else {
          NothingDue(s2.cap, |s2.out|, s.cfg.maxOutBuffer);
          StreamCreditFits(s2, sid);
        }
      }
    }
  }

  lemma NothingDue(cap: nat, len: nat, max: nat)
    ensures forall p :: p <= 0 ==> CreditsFit(cap, len, max, p) && AfterCredits(cap, len, p) == (cap, len)
  {
  }
}
