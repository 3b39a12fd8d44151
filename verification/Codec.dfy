/** The stateless framing and TLV codec (libmux/src/frame.c). */
module Codec {
  import opened Wire

  type Payload = p: seq<Byte> | |p| <= MAX_PAYLOAD

  /** A decoded frame; the payload view of the library is the payload's value here. */
  datatype Frame = Frame(typ: Byte, flags: U16, sid: U32, payload: Payload)

  datatype ParseResult =
    | Short                                   // feed more bytes and retry
    | Bad                                     // bad version or oversized length: fatal
    | Parsed(frame: Frame, consumed: nat)

  function Header(f: Frame): (h: seq<Byte>)
    ensures |h| == HEADER_SIZE
  {
    [VERSION, f.typ] + Put16(f.flags) + Put32(f.sid) + Put32(|f.payload|)
  }

  function Encode(f: Frame): (b: seq<Byte>)
  {
    Header(f) + f.payload
  }

  function Parse(buf: seq<Byte>): ParseResult {
    if |buf| < HEADER_SIZE then Short
    else if buf[0] != VERSION then Bad
    else
      var plen := Get32(buf, 8);
      if plen > MAX_PAYLOAD then Bad
      else if |buf| < HEADER_SIZE + plen then Short
      else Parsed(Frame(buf[1], Get16(buf, 2), Get32(buf, 4), buf[HEADER_SIZE..HEADER_SIZE + plen]),
                  HEADER_SIZE + plen)
  }

  /** The header fields sit at the offsets the parser reads. */
  lemma HeaderFields(f: Frame, rest: seq<Byte>)
    ensures var b := Header(f) + rest;
            && b[0] == VERSION && b[1] == f.typ && Get16(b, 2) == f.flags
            && Get32(b, 4) == f.sid && Get32(b, 8) == |f.payload|
  {
    var b := Header(f) + rest;
    var tail := Put32(f.sid) + Put32(|f.payload|) + rest;
    assert b == [VERSION, f.typ] + Put16(f.flags) + tail;
    Word16RoundTrip([VERSION, f.typ], f.flags, tail);
    var pre := [VERSION, f.typ] + Put16(f.flags);
    assert b == pre + Put32(f.sid) + (Put32(|f.payload|) + rest);
    Word32RoundTrip(pre, f.sid, Put32(|f.payload|) + rest);
    assert b == (pre + Put32(f.sid)) + Put32(|f.payload|) + rest;
    Word32RoundTrip(pre + Put32(f.sid), |f.payload|, rest);
  }

  /** Parsing inverts crafting, whatever follows the frame in the buffer. */
  lemma ParseEncode(f: Frame, rest: seq<Byte>)
    ensures Parse(Encode(f) + rest) == Parsed(f, |Encode(f)|)
  {
    var b := Encode(f) + rest;
    assert b == Header(f) + (f.payload + rest);
    HeaderFields(f, f.payload + rest);
    assert b[HEADER_SIZE..HEADER_SIZE + |f.payload|] == f.payload;
  }

  /** A strict prefix of a crafted frame asks for more bytes; it is never a violation. */
  lemma ParsePrefix(f: Frame, n: nat)
    requires n < |Encode(f)|
    ensures Parse(Encode(f)[..n]) == Short
  {
    if n >= HEADER_SIZE {
      var b := Encode(f)[..n];
      assert b == Header(f) + f.payload[..n - HEADER_SIZE];
      HeaderFields(f, f.payload[..n - HEADER_SIZE]);
    }
  }

  /** Crafting inverts parsing: an accepted frame is exactly the bytes it consumed. */
  lemma EncodeParse(buf: seq<Byte>)
    requires Parse(buf).Parsed?
    ensures var r := Parse(buf);
            HEADER_SIZE <= r.consumed <= |buf| && Encode(r.frame) == buf[..r.consumed]
  {
    var r := Parse(buf);
    Word32Injective(buf, 4);
    Word32Injective(buf, 8);
    assert Put16(Get16(buf, 2)) == buf[2..4];
    assert |r.frame.payload| == Get32(buf, 8);
    assert Header(r.frame) == [buf[0], buf[1]] + buf[2..4] + buf[4..8] + buf[8..12];
    assert Header(r.frame) == buf[..12];
  }

  /** Once decided, a parse does not change when more bytes arrive. */
  lemma ParseStable(buf: seq<Byte>, more: seq<Byte>)
    requires !Parse(buf).Short?
    ensures Parse(buf + more) == Parse(buf)
  {
    var b := buf + more;
    assert b[0] == buf[0] && b[1] == buf[1] && Get16(b, 2) == Get16(buf, 2);
    assert Get32(b, 4) == Get32(buf, 4) && Get32(b, 8) == Get32(buf, 8);
    if Parse(buf).Parsed? {
      var n := Parse(buf).consumed;
      assert b[HEADER_SIZE..n] == buf[HEADER_SIZE..n];
    }
  }

  /** Encoding of a whole frame sequence, as it appears on the transport. */
  function EncodeAll(fs: seq<Frame>): (b: seq<Byte>)
  {
    if |fs| == 0 then [] else EncodeAll(fs[..|fs| - 1]) + Encode(fs[|fs| - 1])
  }

  lemma {:induction false} EncodeAllConcat(a: seq<Frame>, b: seq<Frame>)
    ensures EncodeAll(a + b) == EncodeAll(a) + EncodeAll(b)
  {
    hide Encode;
    if |b| == 0 {
      assert a + b == a;
    } else {
      var b' := b[..|b| - 1];
      EncodeAllConcat(a, b');
      assert (a + b)[..|a + b| - 1] == a + b';
      assert EncodeAll(a) + EncodeAll(b) == EncodeAll(a) + EncodeAll(b') + Encode(b[|b| - 1]);
    }
  }

  // ---------------------------------------------------------------- crafting into a buffer

  /** Copy `bytes` into `dst` at `off`. */
  method Store(dst: array<Byte>, off: nat, bytes: seq<Byte>)
    requires off + |bytes| <= dst.Length
    modifies dst
    ensures dst[..] == old(dst[..off]) + bytes + old(dst[off + |bytes|..])
  {
    for i := 0 to |bytes|
      invariant forall k :: 0 <= k < i ==> dst[off + k] == bytes[k]
      invariant forall k :: 0 <= k < dst.Length && !(off <= k < off + i) ==> dst[k] == old(dst[k])
    {
      dst[off + i] := bytes[i];
    }
    ghost var want := old(dst[..off]) + bytes + old(dst[off + |bytes|..]);
    assert forall k :: off <= k < off + |bytes| ==> want[k] == bytes[k - off] == dst[off + (k - off)];
  }

  /** Write one frame at `off` of `dst`, of which `cap` bytes from `off` on are available. */
  method Craft(dst: array<Byte>, off: nat, cap: nat, typ: Byte, flags: U16, sid: U32, payload: seq<Byte>)
    returns (r: int)
    requires off + cap <= dst.Length
    modifies dst
    ensures r == if |payload| > MAX_PAYLOAD then ERR_PROTO
                 else if cap < HEADER_SIZE + |payload| then ERR_NOSPACE
                 else HEADER_SIZE + |payload|
    ensures r < 0 ==> dst[..] == old(dst[..])
    ensures r >= 0 ==> dst[..] == old(dst[..off]) + Encode(Frame(typ, flags, sid, payload)) + old(dst[off + r..])
  {
    if |payload| > MAX_PAYLOAD {
      return ERR_PROTO;
    }
    var total := HEADER_SIZE + |payload|;
    if cap < total {
      return ERR_NOSPACE;
    }
    ghost var was := dst[..];
    var h := Header(Frame(typ, flags, sid, payload));
    Store(dst, off, h);
    Store(dst, off + HEADER_SIZE, payload);
    assert dst[..] == was[..off] + (h + payload) + was[off + total..];
    return total;
  }

  // ---------------------------------------------------------------- TLV

  type TlvValue = p: seq<Byte> | |p| < 0x1_0000

  datatype Tlv = Tlv(t: U16, val: TlvValue)

  function EncodeTlv(v: Tlv): seq<Byte>
  {
    Put16(v.t) + Put16(|v.val|) + v.val
  }

  datatype TlvResult =
    | TlvEnd                                  // clean end
    | TlvBad                                  // truncated header or value
    | TlvNext(tlv: Tlv, cursor: nat)

  /** One step of the TLV iteration. The library sees an empty payload as a null buffer and
      reports a parameter error for it, which its only caller treats as a violation. */
  function NextTlv(buf: seq<Byte>, cursor: nat): (r: TlvResult)
    ensures r.TlvNext? ==> cursor + 4 <= r.cursor <= |buf|
  {
    if |buf| == 0 then TlvBad
    else if cursor == |buf| then TlvEnd
    else if cursor > |buf| || |buf| - cursor < 4 then TlvBad
    else
      var vl := Get16(buf, cursor + 2);
      if |buf| - cursor - 4 < vl then TlvBad
      else TlvNext(Tlv(Get16(buf, cursor), buf[cursor + 4..cursor + 4 + vl]), cursor + 4 + vl)
  }

  /** Iteration inverts encoding at any offset of a TLV block. */
  lemma NextTlvEncode(pre: seq<Byte>, v: Tlv, post: seq<Byte>)
    ensures NextTlv(pre + EncodeTlv(v) + post, |pre|) == TlvNext(v, |pre| + |EncodeTlv(v)|)
  {
    var b := pre + EncodeTlv(v) + post;
    assert b == pre + Put16(v.t) + (Put16(|v.val|) + v.val + post);
    Word16RoundTrip(pre, v.t, Put16(|v.val|) + v.val + post);
    assert b == (pre + Put16(v.t)) + Put16(|v.val|) + (v.val + post);
    Word16RoundTrip(pre + Put16(v.t), |v.val|, v.val + post);
    assert b[|pre| + 4..|pre| + 4 + |v.val|] == v.val;
  }

  /** Append one TLV at `off`; the result is the new offset or an error code. */
  method PutTlv(buf: array<Byte>, off: nat, v: Tlv) returns (r: int)
    modifies buf
    ensures r == if off > buf.Length || buf.Length - off < 4 + |v.val| then ERR_NOSPACE
                 else off + 4 + |v.val|
    ensures r < 0 ==> buf[..] == old(buf[..])
    ensures r >= 0 ==> buf[..] == old(buf[..off]) + EncodeTlv(v) + old(buf[r..])
  {
    if off > buf.Length || buf.Length - off < 4 + |v.val| {
      return ERR_NOSPACE;
    }
    Store(buf, off, EncodeTlv(v));
    return off + 4 + |v.val|;
  }
}
