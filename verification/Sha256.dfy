/** Incremental SHA-256 and HMAC (common/auth.c), against sections 5.1.1 and 6.2 of FIPS 180-4 and section 2
    of RFC 2104. */
module Sha256 {
  import opened Commons
  type Octet = bv8
  type Word = bv32

  // ---------------------------------------------------------------- FIPS 180-4, section 4.1.2

  function Ror(x: Word, n: Word): Word
    requires 0 < n < 32
  {
    (x >> n) | (x << (32 - n))
  }

  function Xor3(x: Word, y: Word, z: Word): Word { x ^ y ^ z }
  function Small0(x: Word): Word { Xor3(Ror(x, 7), Ror(x, 18), x >> 3) }
  function Small1(x: Word): Word { Xor3(Ror(x, 17), Ror(x, 19), x >> 10) }
  function Big0(x: Word): Word { Xor3(Ror(x, 2), Ror(x, 13), Ror(x, 22)) }
  function Big1(x: Word): Word { Xor3(Ror(x, 6), Ror(x, 11), Ror(x, 25)) }
  function Ch(x: Word, y: Word, z: Word): Word { (x & y) ^ (!x & z) }
  function Maj(x: Word, y: Word, z: Word): Word { (x & y) ^ (x & z) ^ (y & z) }
  function Plus(x: Word, y: Word): Word { x + y }

  /** The next word of a schedule, and what becomes of the fourth and the last variable in a round. */
  function SumW(v: Word, s0: Word, y: Word, s1: Word): Word { v + s0 + y + s1 }
  function SumE(d: Word, h: Word, b1: Word, ch: Word, k: Word, w: Word): Word { d + (h + b1 + ch + k + w) }

  function SumA(h: Word, b1: Word, ch: Word, k: Word, w: Word, b0: Word, maj: Word): Word {
    h + b1 + ch + k + w + (b0 + maj)
  }

  /** Eight constants a row. */
  const K: seq<seq<Word>> := [
    [0x428a2f98, 0x71374491, 0xb5c0fbcf, 0xe9b5dba5, 0x3956c25b, 0x59f111f1, 0x923f82a4, 0xab1c5ed5],
    [0xd807aa98, 0x12835b01, 0x243185be, 0x550c7dc3, 0x72be5d74, 0x80deb1fe, 0x9bdc06a7, 0xc19bf174],
    [0xe49b69c1, 0xefbe4786, 0x0fc19dc6, 0x240ca1cc, 0x2de92c6f, 0x4a7484aa, 0x5cb0a9dc, 0x76f988da],
    [0x983e5152, 0xa831c66d, 0xb00327c8, 0xbf597fc7, 0xc6e00bf3, 0xd5a79147, 0x06ca6351, 0x14292967],
    [0x27b70a85, 0x2e1b2138, 0x4d2c6dfc, 0x53380d13, 0x650a7354, 0x766a0abb, 0x81c2c92e, 0x92722c85],
    [0xa2bfe8a1, 0xa81a664b, 0xc24b8b70, 0xc76c51a3, 0xd192e819, 0xd6990624, 0xf40e3585, 0x106aa070],
    [0x19a4c116, 0x1e376c08, 0x2748774c, 0x34b0bcb5, 0x391c0cb3, 0x4ed8aa4a, 0x5b9cca4f, 0x682e6ff3],
    [0x748f82ee, 0x78a5636f, 0x84c87814, 0x8cc70208, 0x90befffa, 0xa4506ceb, 0xbef9a3f7, 0xc67178f2]]

  function RoundConst(t: nat): Word
    requires t < 64
  {
    K[t / 8][t % 8]
  }

  // ---------------------------------------------------------------- what the functions do to single bits

  /** Bit by bit, x chooses between y and z. */
  lemma ChBits(x: Word, y: Word, z: Word)
    ensures Ch(x, y, z) & x == y & x && Ch(x, y, z) & !x == z & !x
  {
  }

  /** Bit by bit the majority: what x and y agree on, and where they differ z. */
  lemma MajBits(x: Word, y: Word, z: Word)
    ensures Maj(x, y, z) & !(x ^ y) == x & !(x ^ y) && Maj(x, y, z) & (x ^ y) == z & (x ^ y)
  {
  }

  function Bit(x: Word, i: Word): Word
    requires i < 32
  {
    (x >> i) & 1
  }

  /** Bit i goes to i - n, modulo 32. */
  lemma RorBits(x: Word, n: Word, i: Word)
    requires 0 < n < 32 && i < 32
    ensures Bit(Ror(x, n), (i - n) & 31) == Bit(x, i)
  {
    if n <= i {
      RorDown(x, n, i);
    } else {
      RorAround(x, n, i);
    }
  }

  lemma RorDown(x: Word, n: Word, i: Word)
    requires 0 < n <= i < 32
    ensures (i - n) & 31 == i - n && Bit(Ror(x, n), i - n) == Bit(x, i)
  {
    ShiftTwice(x, n, i - n);
    assert n + (i - n) == i;
    LowBit(x, n, i - n);
  }

  lemma LowBit(x: Word, n: Word, k: Word)
    requires 0 < n < 32 && k < 32 - n
    ensures Bit(Ror(x, n), k) == Shr(Shr(x, n), k) & 1
  {
    Vacated(x, n, k);
    Shifted(x >> n, x << (32 - n), k);
  }

  function Shr(x: Word, k: Word): Word
    requires k < 32
  {
    x >> k
  }

  lemma {:induction false} ShiftTwice(x: Word, n: Word, k: Word)
    requires n < 32 && k < 32 - n
    ensures Shr(Shr(x, n), k) == Shr(x, n + k)
    decreases k
  {
    hide Shr;
    if k == 0 {
      assert n + 0 == n;
      ShiftNone(Shr(x, n));
    } else {
      var j := k - 1;
      ShiftTwice(x, n, j);
      OneMore(Shr(x, n), j);
      OneMore(x, n + j);
      assert j + 1 == k && n + j + 1 == n + k;
    }
  }

  lemma ShiftNone(x: Word)
    ensures Shr(x, 0) == x
  {
  }

  lemma OneMore(x: Word, k: Word)
    requires k < 31
    ensures Shr(x, k + 1) == Shr(Shr(x, k), 1)
  {
  }

  lemma Vacated(x: Word, n: Word, k: Word)
    requires 0 < n < 32 && k < 32 - n
    ensures ((x << (32 - n)) >> k) & 1 == 0
  {
  }

  lemma Shifted(x: Word, y: Word, k: Word)
    requires k < 32
    ensures (x | y) >> k == (x >> k) | (y >> k)
  {
  }

  lemma RorAround(x: Word, n: Word, i: Word)
    requires 0 < n < 32 && i < n
    ensures (i - n) & 31 == i + (32 - n) && Bit(Ror(x, n), i + (32 - n)) == Bit(x, i)
  {
  }

  // ---------------------------------------------------------------- section 6.2.2

  datatype Hash = Hash(a: Word, b: Word, c: Word, d: Word, e: Word, f: Word, g: Word, h: Word)

  const IV := Hash(0x6a09e667, 0xbb67ae85, 0x3c6ef372, 0xa54ff53a, 0x510e527f, 0x9b05688c, 0x1f83d9ab, 0x5be0cd19)

  function BigEndian(p: seq<Octet>, at: nat): Word
    requires at + 4 <= |p|
  {
    WordOf(p[at], p[at + 1], p[at + 2], p[at + 3])
  }

  function WordOf(a: Octet, b: Octet, c: Octet, d: Octet): Word {
    ((a as Word) << 24) | ((b as Word) << 16) | ((c as Word) << 8) | (d as Word)
  }

  /** The message schedule W. */
  function Sched(p: seq<Octet>, t: nat): Word
    requires |p| == 64 && t < 64
  {
    if t < 16 then BigEndian(p, 4 * t)
    else SumW(Sched(p, t - 16), Small0(Sched(p, t - 15)), Sched(p, t - 7), Small1(Sched(p, t - 2)))
  }

  function Round(s: Hash, k: Word, w: Word): Hash {
    var b1, ch, b0, maj := Big1(s.e), Ch(s.e, s.f, s.g), Big0(s.a), Maj(s.a, s.b, s.c);
    Hash(SumA(s.h, b1, ch, k, w, b0, maj), s.a, s.b, s.c, SumE(s.d, s.h, b1, ch, k, w), s.e, s.f, s.g)
  }

  /** The working variables after `t` rounds. */
  function Rounds(s: Hash, p: seq<Octet>, t: nat): Hash
    requires |p| == 64 && t <= 64
  {
    if t == 0 then s else Round(Rounds(s, p, t - 1), RoundConst(t - 1), Sched(p, t - 1))
  }

  function Add(x: Hash, y: Hash): Hash {
    Hash(Plus(x.a, y.a), Plus(x.b, y.b), Plus(x.c, y.c), Plus(x.d, y.d),
         Plus(x.e, y.e), Plus(x.f, y.f), Plus(x.g, y.g), Plus(x.h, y.h))
  }

  function Compress(s: Hash, p: seq<Octet>): Hash
    requires |p| == 64
  {
    Add(s, Rounds(s, p, 64))
  }

  /** The hash value after the whole blocks of `m`. */
  function Fold(m: seq<Octet>): Hash
    requires |m| % 64 == 0
  {
    if m == [] then IV else Compress(Fold(m[..|m| - 64]), m[|m| - 64..])
  }

  // ---------------------------------------------------------------- padding, section 5.1.1

  function Be64(n: nat): (s: seq<Octet>)
    ensures |s| == 8
  {
    [(n / 0x100_0000_0000_0000 % 0x100) as Octet, (n / 0x1_0000_0000_0000 % 0x100) as Octet,
     (n / 0x100_0000_0000 % 0x100) as Octet, (n / 0x1_0000_0000 % 0x100) as Octet,
     (n / 0x100_0000 % 0x100) as Octet, (n / 0x1_0000 % 0x100) as Octet,
     (n / 0x100 % 0x100) as Octet, (n % 0x100) as Octet]
  }

  function Zeros(k: nat): (s: seq<Octet>)
    ensures |s| == k
  {
    seq(k, _ => 0)
  }

  /** How many zero octets follow the 0x80: the least that leave 8 octets to a multiple of 64. */
  function PadZeros(n: nat): nat { (55 - n) % 64 }

  lemma PadZerosLeast(n: nat, k: nat)
    ensures (n + 1 + PadZeros(n)) % 64 == 56
    ensures k < PadZeros(n) ==> (n + 1 + k) % 64 != 56
  {
  }

  lemma PadLength(n: nat)
    ensures (n + 1 + PadZeros(n) + 8) % 64 == 0
  {
  }

  function Pad(m: seq<Octet>): (r: seq<Octet>)
    ensures |r| % 64 == 0
  {
    PadLength(|m|);
    Padding(m, PadZeros(|m|), Be64(8 * |m| % 0x1_0000_0000_0000_0000))
  }

  function Padding(m: seq<Octet>, k: nat, len: seq<Octet>): (r: seq<Octet>)
    ensures |r| == |m| + 1 + k + |len|
  {
    m + [0x80] + Zeros(k) + len
  }

  function WordOctets(w: Word): (s: seq<Octet>)
    ensures |s| == 4
  {
    [((w >> 24) & 0xFF) as Octet, ((w >> 16) & 0xFF) as Octet, ((w >> 8) & 0xFF) as Octet, (w & 0xFF) as Octet]
  }

  function Octets(s: Hash): (r: seq<Octet>)
    ensures |r| == 32
  {
    WordOctets(s.a) + WordOctets(s.b) + WordOctets(s.c) + WordOctets(s.d)
    + WordOctets(s.e) + WordOctets(s.f) + WordOctets(s.g) + WordOctets(s.h)
  }

  /** The SHA-256 digest of a message. */
  function Digest(m: seq<Octet>): (r: seq<Octet>)
    ensures |r| == 32
  {
    Octets(Fold(Pad(m)))
  }

  // ---------------------------------------------------------------- sha256_block

  lemma SchedAt(p: seq<Octet>, t: nat)
    requires |p| == 64 && t < 64
    ensures t < 16 ==> Sched(p, t) == BigEndian(p, 4 * t)
    ensures t >= 16 ==>
              Sched(p, t) == SumW(Sched(p, t - 16), Small0(Sched(p, t - 15)), Sched(p, t - 7), Small1(Sched(p, t - 2)))
  {
    hide Small0, Small1, BigEndian, SumW;
  }

  /** The schedule loops. */
  method Expand(p: seq<Octet>) returns (w: array<Word>)
    requires |p| == 64
    ensures fresh(w) && w.Length == 64 && forall t :: 0 <= t < 64 ==> w[t] == Sched(p, t)
  {
    hide Sched, Small0, Small1, BigEndian, SumW;
    w := new Word[64](_ => 0);
    for i := 0 to 16
      invariant forall t :: 0 <= t < i ==> w[t] == Sched(p, t)
    {
      SchedAt(p, i);
      w[i] := BigEndian(p, 4 * i);
    }
    for i := 16 to 64
      invariant forall t :: 0 <= t < i ==> w[t] == Sched(p, t)
    {
      SchedAt(p, i);
      var s0, s1 := Small0(w[i - 15]), Small1(w[i - 2]);
      w[i] := SumW(w[i - 16], s0, w[i - 7], s1);
    }
  }

  /** The 64 rounds, the eight variables moving along. */
  method Mix(s: Hash, p: seq<Octet>) returns (r: Hash)
    requires |p| == 64
    ensures r == Compress(s, p)
  {
    hide Sched, Big0, Big1, Ch, Maj, Plus, SumA, SumE, RoundConst;
    var w := Expand(p);
    var a, b, c, d, e, f, g, h := s.a, s.b, s.c, s.d, s.e, s.f, s.g, s.h;
    for i := 0 to 64
      invariant Hash(a, b, c, d, e, f, g, h) == Rounds(s, p, i)
    {
      var b1, ch, b0, maj, k := Big1(e), Ch(e, f, g), Big0(a), Maj(a, b, c), RoundConst(i);
      a, b, c, d, e, f, g, h := SumA(h, b1, ch, k, w[i], b0, maj), a, b, c, SumE(d, h, b1, ch, k, w[i]), e, f, g;
    }
    r := Add(s, Hash(a, b, c, d, e, f, g, h));
  }

  // ---------------------------------------------------------------- sha256_ctx

  /** The whole blocks of a message are folded into the state, and the rest of it is `part`. */
  ghost predicate Partial(state: Hash, part: seq<Octet>, m: seq<Octet>) {
    && |part| < 64 && |part| == |m| % 64
    && part == m[|m| - |part|..] && state == Fold(m[..|m| - |part|])
  }

  lemma Absorbed(state: Hash, part: seq<Octet>, m: seq<Octet>, p: seq<Octet>)
    requires Partial(state, part, m) && |part| + |p| < 64
    ensures Partial(state, part + p, m + p)
  {
    hide Fold;
    Grown(m, |part|, p);
    FullOrNot(|m|, |part|, |p|);
  }

  lemma Filled(state: Hash, part: seq<Octet>, m: seq<Octet>, p: seq<Octet>)
    requires Partial(state, part, m) && |part| + |p| == 64
    ensures |m + p| >= 64 && |m + p| % 64 == 0
    ensures part + p == (m + p)[|m + p| - 64..] && state == Fold((m + p)[..|m + p| - 64])
  {
    hide Fold;
    Grown(m, |part|, p);
    FullOrNot(|m|, |part|, |p|);
  }

  class Context {
    var state: Hash
    var bitlen: nat
    const buf: array<Octet>
    var buflen: nat
    ghost var msg: seq<Octet>

    /** The whole blocks so far are folded into the state, the rest is in the buffer. */
    ghost predicate Valid()
      reads this, buf
    {
      && buf.Length == 64 && buflen < 64 && buflen == |msg| % 64
      && buf[..buflen] == msg[|msg| - buflen..]
      && state == Fold(msg[..|msg| - buflen])
      && bitlen == 8 * |msg| % 0x1_0000_0000_0000_0000
    }

    /** sha256_init. */
    constructor ()
      ensures Valid() && msg == [] && fresh(buf)
    {
      hide Fold, Compress;
      state := IV;
      bitlen, buflen, msg := 0, 0, [];
      buf := new Octet[64];
      new;
      FoldNone();
      assert msg[..0] == [] && buf[..0] == [];
    }

    /** sha256_update: the message grows by `data`, whatever the chunking. */
    method Update(data: seq<Octet>)
      requires Valid()
      modifies this, buf
      ensures Valid() && msg == old(msg) + data
    {
      hide Fold, Context.Folded;
      BitsMore(bitlen, |msg|, |data|);
      assert Folded() by { Split(); }
      bitlen := (bitlen + 8 * |data|) % 0x1_0000_0000_0000_0000;
      var i := 0;
      while i < |data|
        invariant i <= |data| && msg == old(msg) + data[..i] && Folded()
        invariant bitlen == 8 * (|old(msg)| + |data|) % 0x1_0000_0000_0000_0000
      {
        BufRoom();
        var take := if 64 - buflen > |data| - i then |data| - i else 64 - buflen;
        assert data[..i + take] == data[..i] + data[i..i + take];
        Absorb(data[i..i + take]);
        i := i + take;
      }
      assert data[..|data|] == data;
      Split();
    }

    /** Valid is Folded and the right length. */
    lemma Split()
      ensures Valid() <==> Folded() && bitlen == 8 * |msg| % 0x1_0000_0000_0000_0000
    {
      hide Fold;
    }

    lemma BufRoom()
      requires Folded()
      ensures buf.Length == 64 && buflen < 64 && buflen == |msg| % 64
    {
      hide Fold;
    }

    ghost predicate Folded()
      reads `state, `buflen, `msg, buf
    {
      buf.Length == 64 && buflen < 64 && Partial(state, buf[..buflen], msg)
    }

    /** One piece that fits the buffer; a full buffer is compressed. */
    method Absorb(p: seq<Octet>)
      requires Folded() && 0 < |p| <= 64 - buflen
      modifies `state, `buflen, `msg, buf
      ensures Folded() && msg == old(msg) + p
    {
      hide Partial;
      ghost var m, part := msg, buf[..buflen];
      if buflen + |p| < 64 {
        Absorbed(state, part, m, p);
      } else {
        Filled(state, part, m, p);
      }
      CopyIn(p);
      msg := m + p;
      if buflen == 64 {
        Flush();
      }
    }

    /** memcpy into the buffer. */
    method CopyIn(p: seq<Octet>)
      requires buf.Length == 64 && buflen + |p| <= 64
      modifies `buflen, buf
      ensures buflen == old(buflen) + |p| && buf[..buflen] == old(buf[..buflen]) + p
    {
      ghost var was := buf[..];
      var n := buflen;
      for k := 0 to |p|
        invariant buflen == n
        invariant forall j :: 0 <= j < n ==> buf[j] == was[j]
        invariant forall j :: 0 <= j < k ==> buf[n + j] == p[j]
      {
        buf[n + k] := p[k];
      }
      buflen := n + |p|;
      assert buf[..buflen] == was[..n] + p;
    }

    /** A full buffer is the last block. */
    method Flush()
      requires buf.Length == 64 && buflen == 64 && |msg| >= 64 && |msg| % 64 == 0
      requires buf[..64] == msg[|msg| - 64..] && state == Fold(msg[..|msg| - 64])
      modifies `state, `buflen
      ensures Folded()
    {
      hide Fold, Compress;
      FoldMore(msg);
      assert buf[..] == buf[..64];
      state := Mix(state, buf[..]);
      buflen := 0;
      assert msg[..|msg|] == msg && buf[..0] == [];
    }

    /** sha256_final: the digest of everything fed, whatever the chunking. */
    method Final() returns (out: seq<Octet>)
      requires Valid()
      modifies this, buf
      ensures out == Digest(old(msg))
    {
      hide Fold, Be64, Octets, Pad;
      ghost var m := msg;
      var bits := bitlen;
      PadOut();
      Update(Be64(bits));
      IsPad(m);
      assert msg == Pad(m);
      assert msg[..|msg|] == msg;
      out := Octets(state);
    }

    lemma BufLen()
      requires Valid()
      ensures buflen == |msg| % 64
    {
      hide Fold;
    }

    /** 0x80 and zeros, up to 8 octets short of a block. */
    method PadOut()
      requires Valid()
      modifies this, buf
      ensures Valid() && msg == old(msg) + [0x80] + Zeros(PadZeros(|old(msg)|))
    {
      hide Fold, Context.Valid, Context.Folded;
      ghost var m := msg;
      Update([0x80]);
      BufLen();
      ghost var k := 0;
      while buflen != 56
        invariant Valid() && buflen == |msg| % 64 && k <= PadZeros(|m|) && msg == m + [0x80] + Zeros(k)
        decreases PadZeros(|m|) - k
      {
        PadZerosLeast(|m|, k);
        Update([0]);
        BufLen();
        assert Zeros(k) + [0] == Zeros(k + 1);
        k := k + 1;
      }
      PadZerosLeast(|m|, k);
    }
  }

  lemma IsPad(m: seq<Octet>)
    ensures Pad(m) == m + [0x80] + Zeros(PadZeros(|m|)) + Be64(8 * |m| % 0x1_0000_0000_0000_0000)
  {
    hide Be64;
  }

  lemma BitsMore(bits: nat, n: nat, k: nat)
    requires bits == 8 * n % 0x1_0000_0000_0000_0000
    ensures (bits + 8 * k) % 0x1_0000_0000_0000_0000 == 8 * (n + k) % 0x1_0000_0000_0000_0000
  {
  }

  /** The last octets of a message, and those before them, as it grows. */
  lemma Grown(m: seq<Octet>, n: nat, p: seq<Octet>)
    requires n <= |m|
    ensures (m + p)[|m + p| - (n + |p|)..] == m[|m| - n..] + p && (m + p)[..|m + p| - (n + |p|)] == m[..|m| - n]
  {
  }

  lemma FullOrNot(len: nat, n: nat, k: nat)
    requires n == len % 64 && n + k <= 64
    ensures n + k < 64 ==> (len + k) % 64 == n + k
    ensures n + k == 64 ==> (len + k) % 64 == 0
  {
  }

  lemma FoldNone()
    ensures Fold([]) == IV
  {
  }

  lemma FoldMore(m: seq<Octet>)
    requires |m| % 64 == 0 && m != []
    ensures Fold(m) == Compress(Fold(m[..|m| - 64]), m[|m| - 64..])
  {
  }

  /** Chunked hashing equals hashing at once: any split of a message into updates gives its digest. */
  method HashChunks(chunks: seq<seq<Octet>>) returns (out: seq<Octet>)
    ensures out == Digest(Flatten(chunks))
  {
    hide Context.Valid, Digest;
    var c := new Context();
    for i := 0 to |chunks|
      invariant c.Valid() && fresh(c) && fresh(c.buf) && c.msg == Flatten(chunks[..i])
    {
      assert chunks[..i + 1][..i] == chunks[..i];
      c.Update(chunks[i]);
    }
    assert chunks[..|chunks|] == chunks;
    out := c.Final();
  }

  // ---------------------------------------------------------------- HMAC, RFC 2104 section 2

  function BlockKey(key: seq<Octet>): (k: seq<Octet>)
    ensures |k| == 64
  {
    if |key| > 64 then Digest(key) + Zeros(32) else key + Zeros(64 - |key|)
  }

  function XorAll(k: seq<Octet>, x: Octet): seq<Octet> { seq(|k|, i requires 0 <= i < |k| => k[i] ^ x) }

  function HmacOf(key: seq<Octet>, text: seq<Octet>): seq<Octet> {
    Digest(XorAll(BlockKey(key), 0x5c) + Digest(XorAll(BlockKey(key), 0x36) + text))
  }

  /** A key longer than a block is hashed first. */
  method KeyBlock(key: seq<Octet>) returns (k: seq<Octet>)
    ensures k == BlockKey(key)
  {
    hide Digest;
    if |key| > 64 {
      var d := HashChunks([key]);
      assert Flatten([key]) == Flatten([key][..0]) + key == key;
      k := d + Zeros(32);
    } else {
      k := key + Zeros(64 - |key|);
    }
  }

  /** hmac_sha256. */
  method Hmac(key: seq<Octet>, text: seq<Octet>) returns (out: seq<Octet>)
    ensures out == HmacOf(key, text)
  {
    hide Digest, BlockKey, XorAll, Context.Valid;
    var block := KeyBlock(key);
    var ipad, opad := XorAll(block, 0x36), XorAll(block, 0x5c);
    var c := new Context();
    c.Update(ipad);
    c.Update(text);
    assert c.msg == ipad + text;
    var inner := c.Final();
    var d := new Context();
    d.Update(opad);
    d.Update(inner);
    assert d.msg == opad + inner;
    out := d.Final();
  }

  const AUTH_CONTEXT: seq<Octet> := [0x6d, 0x75, 0x78, 0x2f, 0x76, 0x31, 0x2f, 0x61, 0x75, 0x74, 0x68]

  /** mux_auth_proof: the nonce is cut at 256 octets. */
  method AuthProof(token: seq<Octet>, nonce: seq<Octet>) returns (out: seq<Octet>)
    ensures out == HmacOf(token, AUTH_CONTEXT + if |nonce| > 256 then nonce[..256] else nonce)
  {
    var n := if |nonce| > 256 then 256 else |nonce|;
    assert nonce[..|nonce|] == nonce;
    out := Hmac(token, AUTH_CONTEXT + nonce[..n]);
  }

  /** ct_equal: every octet is looked at, and the answer is equality. */
  method CtEqual(a: seq<Octet>, b: seq<Octet>) returns (same: bool)
    requires |a| == |b|
    ensures same <==> a == b
  {
    var diff: Octet := 0;
    for i := 0 to |a|
      invariant diff == 0 <==> a[..i] == b[..i]
    {
      OrXor(diff, a[i], b[i]);
      assert a[..i + 1] == a[..i] + [a[i]] && b[..i + 1] == b[..i] + [b[i]];
      diff := diff | (a[i] ^ b[i]);
    }
    assert a[..|a|] == a && b[..|b|] == b;
    same := diff == 0;
  }

  lemma OrXor(d: Octet, x: Octet, y: Octet)
    ensures d | (x ^ y) == 0 <==> d == 0 && x == y
  {
  }
}
