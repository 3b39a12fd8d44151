/** Wire-level vocabulary of the multiplexing protocol: byte and word types, frame and TLV
    constants, and the big-endian byte-wise loads and stores. */
module Wire {

  type Byte = b: int | 0 <= b < 0x100
  type U16 = x: int | 0 <= x < 0x1_0000
  type U32 = x: int | 0 <= x < 0x1_0000_0000

  const U32_LIMIT := 0x1_0000_0000
  const U32_MAX := 0xFFFF_FFFF

  const VERSION: Byte := 1
  const HEADER_SIZE := 12
  const MAX_PAYLOAD := 16 * 1024 * 1024
  const SID_CONTROL: U32 := 0

  // Frame types (header byte 1).
  const T_DATA: Byte := 0x00
  const T_WINDOW_UPDATE: Byte := 0x01
  const T_PING: Byte := 0x02
  const T_GOAWAY: Byte := 0x03
  const T_HELLO: Byte := 0x10
  const T_HELLO_ACK: Byte := 0x11
  const T_CAPACITY: Byte := 0x12

  // Frame flags (header bytes 2-3).
  const F_SYN: U16 := 1
  const F_ACK: U16 := 2
  const F_FIN: U16 := 4
  const F_RST: U16 := 8

  // TLV types of the greeting.
  const TLV_PEER_ID: U16 := 1
  const TLV_WEIGHT: U16 := 2
  const TLV_MAX_STREAMS: U16 := 3
  const TLV_AUTH: U16 := 4
  const TLV_INIT_WINDOW: U16 := 5
  const TLV_HEARTBEAT_MS: U16 := 6
  const TLV_SESSION_WINDOW: U16 := 7
  const TLV_NONCE: U16 := 8

  // Error codes carried by RST, GOAWAY and FATAL.
  const CODE_NO_ERROR: U32 := 0
  const CODE_PROTOCOL: U32 := 1
  const CODE_FLOW_CONTROL: U32 := 2
  const CODE_INTERNAL: U32 := 4
  const CODE_REFUSED: U32 := 5

  // Return codes of the library's functions.
  const OK := 0
  const ERR_PROTO := -2
  const ERR_NOSPACE := -3
  const ERR_PARAM := -4
  const ERR_STATE := -5
  const ERR_NOMEM := -6
  const ERR_NOSTREAM := -7

  const DEFAULT_INIT_WINDOW: U32 := 256 * 1024
  const DEFAULT_SESSION_WINDOW: U32 := 16 * 1024 * 1024
  const DEFAULT_MAX_STREAMS: U32 := 65536
  const DEFAULT_MAX_OUT_BUFFER: U32 := 64 * 1024 * 1024
  const MAX_DATA_FRAME := 64 * 1024
  const MAX_META := 8192
  const EVENT_QUEUE_SOFT_CAP := 4096
  const HELLO_BLOB_MAX := 256

  predicate HasSyn(flags: U16) { flags % 2 == 1 }
  predicate HasAck(flags: U16) { flags / 2 % 2 == 1 }
  predicate HasFin(flags: U16) { flags / 4 % 2 == 1 }
  predicate HasRst(flags: U16) { flags / 8 % 2 == 1 }

  /** The flag words an endpoint emits. */
  lemma FlagFacts()
    ensures HasSyn(F_SYN) && !HasFin(F_SYN) && !HasRst(F_SYN)
    ensures !HasSyn(F_FIN) && HasFin(F_FIN) && !HasRst(F_FIN)
    ensures !HasSyn(F_RST) && !HasFin(F_RST) && HasRst(F_RST)
    ensures !HasSyn(0) && !HasFin(0) && !HasRst(0)
  {
  }

  function Put16(v: U16): seq<Byte> {
    [v / 0x100, v % 0x100]
  }

  function Put32(v: U32): seq<Byte> {
    [v / 0x100_0000, v / 0x1_0000 % 0x100, v / 0x100 % 0x100, v % 0x100]
  }

  function Get16(s: seq<Byte>, at: nat): U16
    requires at + 2 <= |s|
  {
    (s[at] as int) * 0x100 + s[at + 1]
  }

  function Get32(s: seq<Byte>, at: nat): U32
    requires at + 4 <= |s|
  {
    (s[at] as int) * 0x100_0000 + (s[at + 1] as int) * 0x1_0000 + (s[at + 2] as int) * 0x100 + s[at + 3]
  }

  /** Big-endian store and load are mutually inverse, wherever the word sits in a buffer. */
  lemma Word32RoundTrip(pre: seq<Byte>, v: U32, post: seq<Byte>)
    ensures Get32(pre + Put32(v) + post, |pre|) == v
  {
    var s := pre + Put32(v) + post;
    assert s[|pre|] == Put32(v)[0] && s[|pre| + 1] == Put32(v)[1];
    assert s[|pre| + 2] == Put32(v)[2] && s[|pre| + 3] == Put32(v)[3];
    Split32(v);
  }

  lemma Split32(v: U32)
    ensures v / 0x100_0000 * 0x100_0000 + v / 0x1_0000 % 0x100 * 0x1_0000 + v / 0x100 % 0x100 * 0x100 + v % 0x100 == v
  {
    assert v / 0x100_0000 == v / 0x1_0000 / 0x100 && v / 0x1_0000 == v / 0x100 / 0x100;
  }

  lemma Word32Injective(s: seq<Byte>, at: nat)
    requires at + 4 <= |s|
    ensures Put32(Get32(s, at)) == s[at..at + 4]
  {
    Bytes32(s[at], s[at + 1], s[at + 2], s[at + 3]);
    assert s[at..at + 4] == [s[at], s[at + 1], s[at + 2], s[at + 3]];
  }

  lemma Bytes32(a: Byte, b: Byte, c: Byte, d: Byte)
    ensures var v := (a as int) * 0x100_0000 + (b as int) * 0x1_0000 + (c as int) * 0x100 + d;
            v / 0x100_0000 == a && v / 0x1_0000 % 0x100 == b && v / 0x100 % 0x100 == c && v % 0x100 == d
  {
    var v := (a as int) * 0x100_0000 + (b as int) * 0x1_0000 + (c as int) * 0x100 + d;
    Low8((a as int) * 0x1_0000 + (b as int) * 0x100 + c, d);
    Low8((a as int) * 0x100 + b, c);
    Low8(a, b);
    assert v / 0x100 == (a as int) * 0x1_0000 + (b as int) * 0x100 + c;
    assert v / 0x1_0000 == v / 0x100 / 0x100;
    assert v / 0x100_0000 == v / 0x100 / 0x100 / 0x100;
  }

  lemma Low8(hi: int, lo: Byte)
    ensures (hi * 0x100 + lo) / 0x100 == hi && (hi * 0x100 + lo) % 0x100 == lo
  {
  }

  lemma Word16RoundTrip(pre: seq<Byte>, v: U16, post: seq<Byte>)
    ensures Get16(pre + Put16(v) + post, |pre|) == v
  {
    var s := pre + Put16(v) + post;
    assert s[|pre|] == Put16(v)[0] && s[|pre| + 1] == Put16(v)[1];
  }
}
