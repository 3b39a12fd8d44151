/** What mux_open, mux_close and mux_reset answer, and what they put on the wire, told before the call. The like
    for mux_write is in `Sending`, for mux_consume in `Crediting`, for mux_goaway and mux_send_capacity in `Layout`. */
module CallResults {
  import opened Wire
  import opened Codec
  import opened Session

  /** Room for one more frame with a payload of `k` octets. */
  predicate Room(s: Session, k: nat) { |s.out| + 12 + k <= Max(s.cap, s.cfg.maxOutBuffer) }

  /** The session takes part: it lives, was greeted and is not leaving. */
  predicate Engaged(s: Session) { !s.dead && s.helloSeen && !s.localGoaway }

  predicate MayOpen(s: Session, k: nat) {
    Engaged(s) && k <= MAX_META && |s.streams| < s.peerMax && s.nextSid != SID_CONTROL && Room(s, k)
  }

  /** A new stream and its SYN, or neither; and why not. */
  lemma OpenExactly(s: Session, meta: seq<Byte>)
    ensures var (s1, r) := OpenStream(s, meta);
            if MayOpen(s, |meta|) then
              && r == s.nextSid && s1.streams.Keys == s.streams.Keys + {s.nextSid} && !s1.dead
              && (forall x :: x in s.streams && x != r ==> s1.streams[x] == s.streams[x])
              && s1.wire == s.wire + [Frame(T_DATA, F_SYN, s.nextSid, meta)]
            else
              r < 0 && s1.streams == s.streams && s1.wire == s.wire
    ensures var r := OpenStream(s, meta).1;
            && (r == ERR_STATE <==> !Engaged(s) || (|meta| <= MAX_META && |s.streams| < s.peerMax && s.nextSid == 0))
            && (r == ERR_PARAM <==> Engaged(s) && |meta| > MAX_META)
            && (r == ERR_NOMEM <==> Engaged(s) && |meta| <= MAX_META
                                    && (|s.streams| >= s.peerMax || (s.nextSid != 0 && !Room(s, |meta|))))
  {
    hide Encode, GrowTo;
  }

  /** The FIN goes out once; with the peer's in, the stream is gone. */
  lemma CloseExactly(s: Session, sid: Sid)
    ensures var (s1, r) := CloseStream(s, sid);
            var due := !s.dead && sid in s.streams && !s.streams[sid].life.HalfLocal?;
            && s1.wire == (if due && Room(s, 0) then s.wire + [Frame(T_DATA, F_FIN, sid, [])] else s.wire)
            && (forall x :: x in s.streams && x != sid ==> x in s1.streams && s1.streams[x] == s.streams[x])
            && (due && Room(s, 0) ==> if s.streams[sid].life.HalfRemote? then sid !in s1.streams
                                      else sid in s1.streams && s1.streams[sid].life.HalfLocal?)
            && (r == OK <==> !s.dead && sid in s.streams && (due ==> Room(s, 0)))
            && (r == ERR_STATE <==> s.dead) && (r == ERR_NOSTREAM <==> !s.dead && sid !in s.streams)
            && (r == ERR_NOMEM <==> due && !Room(s, 0)) && (s1.dead <==> s.dead || (due && !Room(s, 0)))
  {
    hide Encode, GrowTo;
  }

  /** The stream is gone whether or not its RST can be sent; one that is not there is no error. */
  lemma ResetExactly(s: Session, sid: Sid, code: U32)
    ensures var (s1, r) := ResetStream(s, sid, code);
            var due := !s.dead && sid in s.streams;
            && s1.wire == (if due && Room(s, 4) then s.wire + [Frame(T_DATA, F_RST, sid, Put32(code))] else s.wire)
            && s1.streams == (if due then s.streams - {sid} else s.streams)
            && (r == OK <==> !s.dead) && (r == ERR_STATE <==> s.dead) && (s1.dead <==> s.dead || (due && !Room(s, 4)))
  {
    hide Encode, GrowTo;
  }
}
