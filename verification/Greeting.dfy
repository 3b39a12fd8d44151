/** The handshake: a greeting read back gives exactly the sender's configuration. */
module Greeting {
  import opened Wire
  import opened Codec
  import opened Session

  function TakeTlvs(p: Params, vs: seq<Tlv>): Params
    decreases |vs|
  {
    if vs == [] then p else TakeTlvs(TakeTlv(p, vs[0]), vs[1..])
  }

  /** Iterating an encoded block, from any offset, visits exactly its TLVs in order. */
  lemma {:induction false} ReadEncoded(p: Params, pre: seq<Byte>, vs: seq<Tlv>)
    requires |pre + EncodeTlvs(vs)| > 0
    ensures ReadTlvs(p, pre + EncodeTlvs(vs), |pre|) == (TakeTlvs(p, vs), true)
    decreases |vs|
  {
    var buf := pre + EncodeTlvs(vs);
    if vs == [] {
      assert NextTlv(buf, |pre|) == TlvEnd;
    } else {
      var rest := EncodeTlvs(vs[1..]);
      assert buf == pre + EncodeTlv(vs[0]) + rest;
      NextTlvEncode(pre, vs[0], rest);
      var pre' := pre + EncodeTlv(vs[0]);
      assert buf == pre' + rest;
      ReadEncoded(TakeTlv(p, vs[0]), pre', vs[1..]);
    }
  }

  lemma {:induction false} TakeTlvsConcat(p: Params, a: seq<Tlv>, b: seq<Tlv>)
    ensures TakeTlvs(p, a + b) == TakeTlvs(TakeTlvs(p, a), b)
    decreases |a|
  {
    if a == [] {
      assert a + b == b;
    } else {
      assert (a + b)[1..] == a[1..] + b;
      TakeTlvsConcat(TakeTlv(p, a[0]), a[1..], b);
    }
  }

  lemma TakeOne(p: Params, v: Tlv)
    ensures TakeTlvs(p, [v]) == TakeTlv(p, v)
  {
    assert [v][1..] == [];
  }

  lemma TakeWords(p: Params, c: Config)
    requires BlobsFit(c)
    ensures var q := TakeTlvs(p, HelloTlvs(c)[..5]);
            && q.peerMax == c.maxStreams && q.peerInit == c.initWindow && q.sendWin == c.sessionWindow
            && q.info == p.info.(weight := c.weight, maxStreams := c.maxStreams, initWindow := c.initWindow)
  {
    var vs := [Tlv(TLV_WEIGHT, Put32(c.weight)), Tlv(TLV_MAX_STREAMS, Put32(c.maxStreams)),
               Tlv(TLV_INIT_WINDOW, Put32(c.initWindow)), Tlv(TLV_SESSION_WINDOW, Put32(c.sessionWindow)),
               Tlv(TLV_HEARTBEAT_MS, Put32(c.heartbeatMs))];
    assert HelloTlvs(c)[..5] == vs;
    WordTlv(c.weight); WordTlv(c.maxStreams); WordTlv(c.initWindow); WordTlv(c.sessionWindow);
    var p1 := TakeTlv(p, vs[0]);
    var p2 := TakeTlv(p1, vs[1]);
    var p3 := TakeTlv(p2, vs[2]);
    var p4 := TakeTlv(p3, vs[3]);
    assert vs[1..][0] == vs[1] && vs[1..][1..] == vs[2..] && vs[2..][0] == vs[2] && vs[2..][1..] == vs[3..];
    assert vs[3..][0] == vs[3] && vs[3..][1..] == [vs[4]];
    assert TakeTlvs(p, vs) == TakeTlvs(p1, vs[1..]) == TakeTlvs(p2, vs[2..]);
    assert TakeTlvs(p2, vs[2..]) == TakeTlvs(p3, vs[3..]) == TakeTlvs(p4, [vs[4]]);
    TakeOne(p4, vs[4]);
  }

  lemma WordTlv(v: U32)
    ensures |Put32(v)| == 4 && Get32(Put32(v), 0) == v
  {
    assert [] + Put32(v) + [] == Put32(v);
    Word32RoundTrip([], v, []);
  }

  /** What the receiver of a greeting learns. */
  function Learned(c: Config): Params {
    Params(c.maxStreams, c.initWindow, c.sessionWindow,
           HelloInfo(c.weight, c.maxStreams, c.initWindow, c.peerId, c.auth, c.nonce))
  }

  /** Handshake round trip: whatever the receiver assumed before, after the greeting it holds the
      sender's stream cap, both windows and the identity blobs; and the block is well-formed. */
  lemma HelloRoundTrip(c: Config, p: Params)
    requires BlobsFit(c) && p.info == NO_INFO
    ensures ReadTlvs(p, HelloPayload(c), 0) == (Learned(c), true)
  {
    hide TakeTlvs, TakeTlv, EncodeTlvs, ReadTlvs;
    var vs := HelloTlvs(c);
    HelloPayloadBound(c);
    assert [] + EncodeTlvs(vs) == HelloPayload(c);
    ReadEncoded(p, [], vs);
    assert vs == vs[..5] + BlobTlvs(c);
    TakeTlvsConcat(p, vs[..5], BlobTlvs(c));
    TakeWords(p, c);
    TakeBlobs(TakeTlvs(p, vs[..5]), c);
  }

  function BlobTlvs(c: Config): seq<Tlv>
    requires BlobsFit(c)
  {
    (if |c.peerId| > 0 then [Tlv(TLV_PEER_ID, c.peerId)] else [])
    + ((if |c.auth| > 0 then [Tlv(TLV_AUTH, c.auth)] else [])
       + (if |c.nonce| > 0 then [Tlv(TLV_NONCE, c.nonce)] else []))
  }

  lemma TakeBlobs(q: Params, c: Config)
    requires BlobsFit(c) && q.info.peerId == [] && q.info.auth == [] && q.info.nonce == []
    ensures TakeTlvs(q, BlobTlvs(c)) == q.(info := q.info.(peerId := c.peerId, auth := c.auth, nonce := c.nonce))
  {
    hide TakeTlvs;
    var ids := if |c.peerId| > 0 then [Tlv(TLV_PEER_ID, c.peerId)] else [];
    var auths := if |c.auth| > 0 then [Tlv(TLV_AUTH, c.auth)] else [];
    var nonces := if |c.nonce| > 0 then [Tlv(TLV_NONCE, c.nonce)] else [];
    TakeTlvsConcat(q, ids, auths + nonces);
    TakeMaybe(q, Tlv(TLV_PEER_ID, c.peerId), |c.peerId| > 0);
    var q1 := TakeTlvs(q, ids);
    TakeTlvsConcat(q1, auths, nonces);
    TakeMaybe(q1, Tlv(TLV_AUTH, c.auth), |c.auth| > 0);
    TakeMaybe(TakeTlvs(q1, auths), Tlv(TLV_NONCE, c.nonce), |c.nonce| > 0);
  }

  lemma TakeMaybe(q: Params, v: Tlv, there: bool)
    ensures TakeTlvs(q, if there then [v] else []) == if there then TakeTlv(q, v) else q
  {
    TakeOne(q, v);
  }
}
