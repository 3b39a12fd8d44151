/** The proof in a greeting (common/auth.c, check_auth of edge-peer/router.c): a keyed hash of the sender's nonce
    under the shared token. */
module Auth {
  import opened Commons
  import opened Wire
  import opened Session
  import opened Greeting
  import opened Sha256

  function ToOctets(bs: seq<Byte>): (os: seq<Octet>)
    ensures |os| == |bs|
  {
    seq(|bs|, i requires 0 <= i < |bs| => bs[i] as Octet)
  }

  function ToBytes(os: seq<Octet>): (bs: seq<Byte>)
    ensures |bs| == |os|
  {
    seq(|os|, i requires 0 <= i < |os| => os[i] as Byte)
  }

  /** The proof that goes with a nonce, of which at most 256 octets count. */
  function ProofOf(token: seq<Byte>, nonce: seq<Byte>): (p: seq<Octet>)
    ensures |p| == 32
  {
    HmacOf(ToOctets(token), AUTH_CONTEXT + if |nonce| > 256 then ToOctets(nonce)[..256] else ToOctets(nonce))
  }

  /** Without a token everyone is let in; with one, the greeting has to carry the proof. */
  predicate Proves(token: Option<seq<Byte>>, info: HelloInfo) {
    token.None? || ToOctets(info.auth) == ProofOf(token.value, info.nonce)
  }

  /** check_auth. */
  method CheckAuth(token: Option<seq<Byte>>, info: HelloInfo) returns (ok: bool)
    ensures ok <==> Proves(token, info)
  {
    hide HmacOf;
    if token.None? {
      return true;
    }
    var due := AuthProof(ToOctets(token.value), ToOctets(info.nonce));
    assert due == ProofOf(token.value, info.nonce);
    if |info.auth| != 32 {
      return false;
    }
    ok := CtEqual(due, ToOctets(info.auth));
  }

  lemma OctetsBack(os: seq<Octet>)
    ensures ToOctets(ToBytes(os)) == os
  {
    forall i | 0 <= i < |os| ensures ToOctets(ToBytes(os))[i] == os[i] {
      OctetBack(os[i]);
    }
  }

  lemma OctetBack(o: Octet)
    ensures (o as Byte) as Octet == o
  {
  }

  /** A peer with the same token is let in: whatever was assumed before, reading the greeting it sends gives what
      proves the token. */
  lemma SameTokenProves(token: seq<Byte>, c: Config, p: Params)
    requires BlobsFit(c) && c.auth == ToBytes(ProofOf(token, c.nonce)) && p.info == NO_INFO
    ensures Proves(Some(token), ReadTlvs(p, HelloPayload(c), 0).0.info)
  {
    hide ProofOf, ReadTlvs, HelloPayload;
    HelloRoundTrip(c, p);
    OctetsBack(ProofOf(token, c.nonce));
  }
}
