/** Published answers: the digest of "abc" (FIPS 180-2, appendix B.1) and the keyed hash of the second test case of
    RFC 4231. The rounds are stepped through in literals, eight at a time. */
module KnownAnswers {
  import opened Sha256

  // ---------------------------------------------------------------- rounds and words in one expression each

  function NextW(v: Word, x: Word, y: Word, z: Word): Word {
    v + (((x >> 7) | (x << 25)) ^ ((x >> 18) | (x << 14)) ^ (x >> 3)) + y
    + (((z >> 17) | (z << 15)) ^ ((z >> 19) | (z << 13)) ^ (z >> 10))
  }

  function NextE(d: Word, e: Word, f: Word, g: Word, h: Word, k: Word, w: Word): Word {
    d + (h + (((e >> 6) | (e << 26)) ^ ((e >> 11) | (e << 21)) ^ ((e >> 25) | (e << 7))) + ((e & f) ^ (!e & g)) + k + w)
  }

  function NextA(a: Word, b: Word, c: Word, e: Word, f: Word, g: Word, h: Word, k: Word, w: Word): Word {
    h + (((e >> 6) | (e << 26)) ^ ((e >> 11) | (e << 21)) ^ ((e >> 25) | (e << 7))) + ((e & f) ^ (!e & g)) + k + w
    + ((((a >> 2) | (a << 30)) ^ ((a >> 13) | (a << 19)) ^ ((a >> 22) | (a << 10))) + ((a & b) ^ (a & c) ^ (b & c)))
  }

  function RawSmall0(x: Word): Word { ((x >> 7) | (x << 25)) ^ ((x >> 18) | (x << 14)) ^ (x >> 3) }
  function RawSmall1(x: Word): Word { ((x >> 17) | (x << 15)) ^ ((x >> 19) | (x << 13)) ^ (x >> 10) }
  function RawBig0(x: Word): Word { ((x >> 2) | (x << 30)) ^ ((x >> 13) | (x << 19)) ^ ((x >> 22) | (x << 10)) }
  function RawBig1(x: Word): Word { ((x >> 6) | (x << 26)) ^ ((x >> 11) | (x << 21)) ^ ((x >> 25) | (x << 7)) }

  lemma IsSmall0(x: Word)
    ensures RawSmall0(x) == ((x >> 7) | (x << 25)) ^ ((x >> 18) | (x << 14)) ^ (x >> 3) && Small0(x) == RawSmall0(x)
  {
    hide Ror, Xor3, Small0, RawSmall0;
    UnfoldSmall0(x);
  }

  lemma UnfoldSmall0(x: Word)
    ensures RawSmall0(x) == ((x >> 7) | (x << 25)) ^ ((x >> 18) | (x << 14)) ^ (x >> 3)
    ensures RawSmall0(x) == Xor3((x >> 7) | (x << 25), (x >> 18) | (x << 14), x >> 3)
    ensures Small0(x) == Xor3(Ror(x, 7), Ror(x, 18), x >> 3)
    ensures Ror(x, 7) == (x >> 7) | (x << 25) && Ror(x, 18) == (x >> 18) | (x << 14)
  {
  }

  lemma IsSmall1(x: Word)
    ensures RawSmall1(x) == ((x >> 17) | (x << 15)) ^ ((x >> 19) | (x << 13)) ^ (x >> 10) && Small1(x) == RawSmall1(x)
  {
    hide Ror, Xor3, Small1, RawSmall1;
    UnfoldSmall1(x);
  }

  lemma UnfoldSmall1(x: Word)
    ensures RawSmall1(x) == ((x >> 17) | (x << 15)) ^ ((x >> 19) | (x << 13)) ^ (x >> 10)
    ensures RawSmall1(x) == Xor3((x >> 17) | (x << 15), (x >> 19) | (x << 13), x >> 10)
    ensures Small1(x) == Xor3(Ror(x, 17), Ror(x, 19), x >> 10)
    ensures Ror(x, 17) == (x >> 17) | (x << 15) && Ror(x, 19) == (x >> 19) | (x << 13)
  {
  }

  lemma IsBig0(x: Word)
    ensures RawBig0(x) == ((x >> 2) | (x << 30)) ^ ((x >> 13) | (x << 19)) ^ ((x >> 22) | (x << 10))
    ensures Big0(x) == RawBig0(x)
  {
    hide Ror, Xor3, Big0, RawBig0;
    UnfoldBig0(x);
  }

  lemma UnfoldBig0(x: Word)
    ensures RawBig0(x) == ((x >> 2) | (x << 30)) ^ ((x >> 13) | (x << 19)) ^ ((x >> 22) | (x << 10))
    ensures RawBig0(x) == Xor3((x >> 2) | (x << 30), (x >> 13) | (x << 19), (x >> 22) | (x << 10))
    ensures Big0(x) == Xor3(Ror(x, 2), Ror(x, 13), Ror(x, 22))
    ensures Ror(x, 2) == (x >> 2) | (x << 30) && Ror(x, 13) == (x >> 13) | (x << 19)
    ensures Ror(x, 22) == (x >> 22) | (x << 10)
  {
  }

  lemma IsBig1(x: Word)
    ensures RawBig1(x) == ((x >> 6) | (x << 26)) ^ ((x >> 11) | (x << 21)) ^ ((x >> 25) | (x << 7))
    ensures Big1(x) == RawBig1(x)
  {
    hide Ror, Xor3, Big1, RawBig1;
    UnfoldBig1(x);
  }

  lemma UnfoldBig1(x: Word)
    ensures RawBig1(x) == ((x >> 6) | (x << 26)) ^ ((x >> 11) | (x << 21)) ^ ((x >> 25) | (x << 7))
    ensures RawBig1(x) == Xor3((x >> 6) | (x << 26), (x >> 11) | (x << 21), (x >> 25) | (x << 7))
    ensures Big1(x) == Xor3(Ror(x, 6), Ror(x, 11), Ror(x, 25))
    ensures Ror(x, 6) == (x >> 6) | (x << 26) && Ror(x, 11) == (x >> 11) | (x << 21)
    ensures Ror(x, 25) == (x >> 25) | (x << 7)
  {
  }

  lemma SumWIs(v: Word, x: Word, y: Word, z: Word)
    ensures NextW(v, x, y, z)
            == SumW(v, ((x >> 7) | (x << 25)) ^ ((x >> 18) | (x << 14)) ^ (x >> 3), y,
                    ((z >> 17) | (z << 15)) ^ ((z >> 19) | (z << 13)) ^ (z >> 10))
  {
  }

  lemma SumEIs(d: Word, e: Word, f: Word, g: Word, h: Word, k: Word, w: Word)
    ensures NextE(d, e, f, g, h, k, w)
            == SumE(d, h, ((e >> 6) | (e << 26)) ^ ((e >> 11) | (e << 21)) ^ ((e >> 25) | (e << 7)),
                    (e & f) ^ (!e & g), k, w)
  {
  }

  lemma SumAIs(a: Word, b: Word, c: Word, e: Word, f: Word, g: Word, h: Word, k: Word, w: Word)
    ensures NextA(a, b, c, e, f, g, h, k, w)
            == SumA(h, ((e >> 6) | (e << 26)) ^ ((e >> 11) | (e << 21)) ^ ((e >> 25) | (e << 7)),
                    (e & f) ^ (!e & g), k, w,
                    ((a >> 2) | (a << 30)) ^ ((a >> 13) | (a << 19)) ^ ((a >> 22) | (a << 10)),
                    (a & b) ^ (a & c) ^ (b & c))
  {
  }

  lemma ChoicesAre(x: Word, y: Word, z: Word)
    ensures Ch(x, y, z) == (x & y) ^ (!x & z) && Maj(x, y, z) == (x & y) ^ (x & z) ^ (y & z)
  {
  }

  lemma RoundIs(s: Hash, k: Word, w: Word)
    ensures Round(s, k, w)
            == Hash(NextA(s.a, s.b, s.c, s.e, s.f, s.g, s.h, k, w), s.a, s.b, s.c,
                    NextE(s.d, s.e, s.f, s.g, s.h, k, w), s.e, s.f, s.g)
  {
    hide SumA, SumE, NextA, NextE, Big0, Big1, RawBig0, RawBig1, Ch, Maj;
    ChoicesAre(s.e, s.f, s.g);
    ChoicesAre(s.a, s.b, s.c);
    IsBig1(s.e);
    IsBig0(s.a);
    SumAIs(s.a, s.b, s.c, s.e, s.f, s.g, s.h, k, w);
    SumEIs(s.d, s.e, s.f, s.g, s.h, k, w);
  }

  lemma OneWord(p: seq<Octet>, t: nat)
    requires |p| == 64 && 16 <= t < 64
    ensures Sched(p, t) == NextW(Sched(p, t - 16), Sched(p, t - 15), Sched(p, t - 7), Sched(p, t - 2))
  {
    hide Sched, SumW, NextW, Small0, Small1;
    SchedAt(p, t);
    WordIs(Sched(p, t - 16), Sched(p, t - 15), Sched(p, t - 7), Sched(p, t - 2));
  }

  lemma WordIs(v: Word, x: Word, y: Word, z: Word)
    ensures SumW(v, Small0(x), y, Small1(z)) == NextW(v, x, y, z)
  {
    hide SumW, NextW, Small0, Small1, RawSmall0, RawSmall1;
    IsSmall0(x);
    IsSmall1(z);
    SumWIs(v, x, y, z);
  }

  // ---------------------------------------------------------------- eight rounds, sixteen words

  /** Words `t` to `t` + 15 of the schedule of a block. */
  predicate Words(p: seq<Octet>, t: nat, w0: Word, w1: Word, w2: Word, w3: Word, w4: Word, w5: Word, w6: Word, w7: Word,
                  w8: Word, w9: Word, w10: Word, w11: Word, w12: Word, w13: Word, w14: Word, w15: Word)
    requires |p| == 64 && t + 16 <= 64
  {
    && Sched(p, t) == w0 && Sched(p, t + 1) == w1 && Sched(p, t + 2) == w2 && Sched(p, t + 3) == w3
    && Sched(p, t + 4) == w4 && Sched(p, t + 5) == w5 && Sched(p, t + 6) == w6 && Sched(p, t + 7) == w7
    && Sched(p, t + 8) == w8 && Sched(p, t + 9) == w9 && Sched(p, t + 10) == w10 && Sched(p, t + 11) == w11
    && Sched(p, t + 12) == w12 && Sched(p, t + 13) == w13 && Sched(p, t + 14) == w14 && Sched(p, t + 15) == w15
  }

  /** The constants of eight rounds. */
  predicate Consts(t: nat, k0: Word, k1: Word, k2: Word, k3: Word, k4: Word, k5: Word, k6: Word, k7: Word)
    requires t + 8 <= 64
  {
    && RoundConst(t) == k0 && RoundConst(t + 1) == k1 && RoundConst(t + 2) == k2 && RoundConst(t + 3) == k3
    && RoundConst(t + 4) == k4 && RoundConst(t + 5) == k5 && RoundConst(t + 6) == k6 && RoundConst(t + 7) == k7
  }

  lemma Consts0()
    ensures Consts(0, 0x428a2f98, 0x71374491, 0xb5c0fbcf, 0xe9b5dba5, 0x3956c25b, 0x59f111f1, 0x923f82a4, 0xab1c5ed5)
  {
  }

  lemma Consts8()
    ensures Consts(8, 0xd807aa98, 0x12835b01, 0x243185be, 0x550c7dc3, 0x72be5d74, 0x80deb1fe, 0x9bdc06a7, 0xc19bf174)
  {
  }

  lemma Consts16()
    ensures Consts(16, 0xe49b69c1, 0xefbe4786, 0x0fc19dc6, 0x240ca1cc, 0x2de92c6f, 0x4a7484aa, 0x5cb0a9dc, 0x76f988da)
  {
  }

  lemma Consts24()
    ensures Consts(24, 0x983e5152, 0xa831c66d, 0xb00327c8, 0xbf597fc7, 0xc6e00bf3, 0xd5a79147, 0x06ca6351, 0x14292967)
  {
  }

  lemma Consts32()
    ensures Consts(32, 0x27b70a85, 0x2e1b2138, 0x4d2c6dfc, 0x53380d13, 0x650a7354, 0x766a0abb, 0x81c2c92e, 0x92722c85)
  {
  }

  lemma Consts40()
    ensures Consts(40, 0xa2bfe8a1, 0xa81a664b, 0xc24b8b70, 0xc76c51a3, 0xd192e819, 0xd6990624, 0xf40e3585, 0x106aa070)
  {
  }

  lemma Consts48()
    ensures Consts(48, 0x19a4c116, 0x1e376c08, 0x2748774c, 0x34b0bcb5, 0x391c0cb3, 0x4ed8aa4a, 0x5b9cca4f, 0x682e6ff3)
  {
  }

  lemma Consts56()
    ensures Consts(56, 0x748f82ee, 0x78a5636f, 0x84c87814, 0x8cc70208, 0x90befffa, 0xa4506ceb, 0xbef9a3f7, 0xc67178f2)
  {
  }

  lemma OneRound(s: Hash, p: seq<Octet>, t: nat, x: Hash, k: Word, w: Word)
    requires |p| == 64 && t < 64 && Rounds(s, p, t) == x && Sched(p, t) == w && RoundConst(t) == k
    ensures Rounds(s, p, t + 1)
            == Hash(NextA(x.a, x.b, x.c, x.e, x.f, x.g, x.h, k, w), x.a, x.b, x.c,
                    NextE(x.d, x.e, x.f, x.g, x.h, k, w), x.e, x.f, x.g)
  {
    hide Sched, Round, RoundConst, NextA, NextE;
    RoundIs(x, k, w);
  }

  /** Each round brings a new first and a new fifth variable, and the others move along. */
  lemma Eight(s: Hash, p: seq<Octet>, t: nat,
              x0: Word, x1: Word, x2: Word, x3: Word, x4: Word, x5: Word, x6: Word, x7: Word,
              k0: Word, k1: Word, k2: Word, k3: Word, k4: Word, k5: Word, k6: Word, k7: Word,
              w0: Word, w1: Word, w2: Word, w3: Word, w4: Word, w5: Word, w6: Word, w7: Word,
              a0: Word, a1: Word, a2: Word, a3: Word, a4: Word, a5: Word, a6: Word, a7: Word,
              e0: Word, e1: Word, e2: Word, e3: Word, e4: Word, e5: Word, e6: Word, e7: Word)
    requires |p| == 64 && t + 8 <= 64 && Rounds(s, p, t) == Hash(x0, x1, x2, x3, x4, x5, x6, x7)
    requires Consts(t, k0, k1, k2, k3, k4, k5, k6, k7)
    requires Sched(p, t) == w0 && Sched(p, t + 1) == w1 && Sched(p, t + 2) == w2 && Sched(p, t + 3) == w3
    requires Sched(p, t + 4) == w4 && Sched(p, t + 5) == w5 && Sched(p, t + 6) == w6 && Sched(p, t + 7) == w7
    requires a0 == NextA(x0, x1, x2, x4, x5, x6, x7, k0, w0) && e0 == NextE(x3, x4, x5, x6, x7, k0, w0)
    requires a1 == NextA(a0, x0, x1, e0, x4, x5, x6, k1, w1) && e1 == NextE(x2, e0, x4, x5, x6, k1, w1)
    requires a2 == NextA(a1, a0, x0, e1, e0, x4, x5, k2, w2) && e2 == NextE(x1, e1, e0, x4, x5, k2, w2)
    requires a3 == NextA(a2, a1, a0, e2, e1, e0, x4, k3, w3) && e3 == NextE(x0, e2, e1, e0, x4, k3, w3)
    requires a4 == NextA(a3, a2, a1, e3, e2, e1, e0, k4, w4) && e4 == NextE(a0, e3, e2, e1, e0, k4, w4)
    requires a5 == NextA(a4, a3, a2, e4, e3, e2, e1, k5, w5) && e5 == NextE(a1, e4, e3, e2, e1, k5, w5)
    requires a6 == NextA(a5, a4, a3, e5, e4, e3, e2, k6, w6) && e6 == NextE(a2, e5, e4, e3, e2, k6, w6)
    requires a7 == NextA(a6, a5, a4, e6, e5, e4, e3, k7, w7) && e7 == NextE(a3, e6, e5, e4, e3, k7, w7)
    ensures Rounds(s, p, t + 8) == Hash(a7, a6, a5, a4, e7, e6, e5, e4)
  {
    hide Sched, RoundConst, Rounds, NextA, NextE;
    OneRound(s, p, t, Hash(x0, x1, x2, x3, x4, x5, x6, x7), k0, w0);
    OneRound(s, p, t + 1, Hash(a0, x0, x1, x2, e0, x4, x5, x6), k1, w1);
    OneRound(s, p, t + 2, Hash(a1, a0, x0, x1, e1, e0, x4, x5), k2, w2);
    OneRound(s, p, t + 3, Hash(a2, a1, a0, x0, e2, e1, e0, x4), k3, w3);
    OneRound(s, p, t + 4, Hash(a3, a2, a1, a0, e3, e2, e1, e0), k4, w4);
    OneRound(s, p, t + 5, Hash(a4, a3, a2, a1, e4, e3, e2, e1), k5, w5);
    OneRound(s, p, t + 6, Hash(a5, a4, a3, a2, e5, e4, e3, e2), k6, w6);
    OneRound(s, p, t + 7, Hash(a6, a5, a4, a3, e6, e5, e4, e3), k7, w7);
  }

  lemma Sixteen(p: seq<Octet>, t: nat, v0: Word, v1: Word, v2: Word, v3: Word, v4: Word, v5: Word, v6: Word, v7: Word,
                v8: Word, v9: Word, v10: Word, v11: Word, v12: Word, v13: Word, v14: Word, v15: Word,
                w0: Word, w1: Word, w2: Word, w3: Word, w4: Word, w5: Word, w6: Word, w7: Word,
                w8: Word, w9: Word, w10: Word, w11: Word, w12: Word, w13: Word, w14: Word, w15: Word)
    requires |p| == 64 && t + 32 <= 64
    requires Words(p, t, v0, v1, v2, v3, v4, v5, v6, v7, v8, v9, v10, v11, v12, v13, v14, v15)
    requires w0 == NextW(v0, v1, v9, v14)
    requires w1 == NextW(v1, v2, v10, v15)
    requires w2 == NextW(v2, v3, v11, w0)
    requires w3 == NextW(v3, v4, v12, w1)
    requires w4 == NextW(v4, v5, v13, w2)
    requires w5 == NextW(v5, v6, v14, w3)
    requires w6 == NextW(v6, v7, v15, w4)
    requires w7 == NextW(v7, v8, w0, w5)
    requires w8 == NextW(v8, v9, w1, w6)
    requires w9 == NextW(v9, v10, w2, w7)
    requires w10 == NextW(v10, v11, w3, w8)
    requires w11 == NextW(v11, v12, w4, w9)
    requires w12 == NextW(v12, v13, w5, w10)
    requires w13 == NextW(v13, v14, w6, w11)
    requires w14 == NextW(v14, v15, w7, w12)
    requires w15 == NextW(v15, w0, w8, w13)
    ensures Words(p, t + 16, w0, w1, w2, w3, w4, w5, w6, w7, w8, w9, w10, w11, w12, w13, w14, w15)
  {
    hide Sched, NextW;
    OneWord(p, t + 16);
    OneWord(p, t + 17);
    OneWord(p, t + 18);
    OneWord(p, t + 19);
    OneWord(p, t + 20);
    OneWord(p, t + 21);
    OneWord(p, t + 22);
    OneWord(p, t + 23);
    OneWord(p, t + 24);
    OneWord(p, t + 25);
    OneWord(p, t + 26);
    OneWord(p, t + 27);
    OneWord(p, t + 28);
    OneWord(p, t + 29);
    OneWord(p, t + 30);
    OneWord(p, t + 31);
  }

  lemma NoRounds(s: Hash, p: seq<Octet>)
    requires |p| == 64
    ensures Rounds(s, p, 0) == s
  {
  }

  // ---------------------------------------------------------------- blocks

  /** Octets 4t to 4t + 3 of a block are word t. */
  lemma WordAt(p: seq<Octet>, t: nat, a: Octet, b: Octet, c: Octet, d: Octet)
    requires |p| == 64 && t < 16 && p[4 * t] == a && p[4 * t + 1] == b && p[4 * t + 2] == c && p[4 * t + 3] == d
    ensures Sched(p, t) == WordOf(a, b, c, d)
  {
    hide WordOf;
  }

  lemma ZeroWord(p: seq<Octet>, t: nat)
    requires |p| == 64 && t < 16 && forall i :: 4 * t <= i < 4 * t + 4 ==> p[i] == 0
    ensures Sched(p, t) == 0
  {
    WordAt(p, t, 0, 0, 0, 0);
  }

  /** The last block of a message whose end there is `m`. */
  lemma Ending(p: seq<Octet>, m: seq<Octet>, c: nat, hi: Octet, lo: Octet)
    requires c <= 13 && |m| == 4 * c && p == m + [0x80] + Zeros(55 - |m|) + [0, 0, 0, 0, 0, 0, hi, lo]
    ensures |p| == 64
    ensures forall t :: 0 <= t < c ==> Sched(p, t) == WordOf(m[4 * t], m[4 * t + 1], m[4 * t + 2], m[4 * t + 3])
    ensures Sched(p, c) == 0x8000_0000 && (forall t :: c < t < 15 ==> Sched(p, t) == 0)
    ensures Sched(p, 15) == WordOf(0, 0, hi, lo)
  {
    forall t | 0 <= t < c ensures Sched(p, t) == WordOf(m[4 * t], m[4 * t + 1], m[4 * t + 2], m[4 * t + 3]) {
      WordAt(p, t, m[4 * t], m[4 * t + 1], m[4 * t + 2], m[4 * t + 3]);
    }
    WordAt(p, c, 0x80, 0, 0, 0);
    forall t | c < t < 15 ensures Sched(p, t) == 0 {
      ZeroWord(p, t);
    }
    WordAt(p, 15, 0, 0, hi, lo);
  }

  lemma LastWord(hi: Octet, lo: Octet)
    ensures WordOf(0, 0, hi, lo) == ((hi as Word) << 8) | (lo as Word)
  {
  }

  lemma Digits(n: nat)
    requires n < 0x1_0000
    ensures Be64(n) == [0, 0, 0, 0, 0, 0, (n / 0x100) as Octet, (n % 0x100) as Octet]
  {
    assert n / 0x100_0000_0000_0000 % 0x100 == 0 && n / 0x1_0000_0000_0000 % 0x100 == 0;
    assert n / 0x100_0000_0000 % 0x100 == 0 && n / 0x1_0000_0000 % 0x100 == 0;
    assert n / 0x100_0000 % 0x100 == 0 && n / 0x1_0000 % 0x100 == 0 && n / 0x100 % 0x100 == n / 0x100;
  }

  lemma Length24()
    ensures Be64(24) == [0, 0, 0, 0, 0, 0, 0, 24]
  {
    hide Be64;
    Digits(24);
  }

  lemma Length736()
    ensures Be64(736) == [0, 0, 0, 0, 0, 0, 2, 0xe0]
  {
    hide Be64;
    Digits(736);
  }

  lemma Length768()
    ensures Be64(768) == [0, 0, 0, 0, 0, 0, 3, 0]
  {
    hide Be64;
    Digits(768);
  }

  // ---------------------------------------------------------------- the digest of "abc"

  const ABC: seq<Octet> := [0x61, 0x62, 0x63]

  lemma AbcBlock()
    ensures |Pad(ABC)| == 64
    ensures Words(Pad(ABC), 0,
                  0x61626380, 0x00000000, 0x00000000, 0x00000000, 0x00000000, 0x00000000, 0x00000000, 0x00000000,
                  0x00000000, 0x00000000, 0x00000000, 0x00000000, 0x00000000, 0x00000000, 0x00000000, 0x00000018)
  {
    hide Be64;
    var p := Pad(ABC);
    Length24();
    assert p == ABC + [0x80] + Zeros(52) + [0, 0, 0, 0, 0, 0, 0, 24];
    WordAt(p, 0, 0x61, 0x62, 0x63, 0x80);
    forall t | 1 <= t < 15 ensures Sched(p, t) == 0 {
      ZeroWord(p, t);
    }
    WordAt(p, 15, 0, 0, 0, 24);
  }

  lemma Abc(p: seq<Octet>)
    requires |p| == 64
    requires Words(p, 0,
                   0x61626380, 0x00000000, 0x00000000, 0x00000000, 0x00000000, 0x00000000, 0x00000000, 0x00000000,
                   0x00000000, 0x00000000, 0x00000000, 0x00000000, 0x00000000, 0x00000000, 0x00000000, 0x00000018)
    ensures Compress(IV, p)
            == Hash(0xba7816bf, 0x8f01cfea, 0x414140de, 0x5dae2223, 0xb00361a3, 0x96177a9c, 0xb410ff61, 0xf20015ad)
  {
    hide Sched, Rounds, Consts;
    NoRounds(IV, p);
    Sixteen(p, 0,
            0x61626380, 0x00000000, 0x00000000, 0x00000000, 0x00000000, 0x00000000, 0x00000000, 0x00000000,
            0x00000000, 0x00000000, 0x00000000, 0x00000000, 0x00000000, 0x00000000, 0x00000000, 0x00000018,
            0x61626380, 0x000f0000, 0x7da86405, 0x600003c6, 0x3e9d7b78, 0x0183fc00, 0x12dcbfdb, 0xe2e2c38e,
            0xc8215c1a, 0xb73679a2, 0xe5bc3909, 0x32663c5b, 0x9d209d67, 0xec8726cb, 0x702138a4, 0xd3b7973b);
    Sixteen(p, 16,
            0x61626380, 0x000f0000, 0x7da86405, 0x600003c6, 0x3e9d7b78, 0x0183fc00, 0x12dcbfdb, 0xe2e2c38e,
            0xc8215c1a, 0xb73679a2, 0xe5bc3909, 0x32663c5b, 0x9d209d67, 0xec8726cb, 0x702138a4, 0xd3b7973b,
            0x93f5997f, 0x3b68ba73, 0xaff4ffc1, 0xf10a5c62, 0x0a8b3996, 0x72af830a, 0x9409e33e, 0x24641522,
            0x9f47bf94, 0xf0a64f5a, 0x3e246a79, 0x27333ba3, 0x0c4763f2, 0x840abf27, 0x7a290d5d, 0x065c43da);
    Sixteen(p, 32,
            0x93f5997f, 0x3b68ba73, 0xaff4ffc1, 0xf10a5c62, 0x0a8b3996, 0x72af830a, 0x9409e33e, 0x24641522,
            0x9f47bf94, 0xf0a64f5a, 0x3e246a79, 0x27333ba3, 0x0c4763f2, 0x840abf27, 0x7a290d5d, 0x065c43da,
            0xfb3e89cb, 0xcc7617db, 0xb9e66c34, 0xa9993667, 0x84badedd, 0xc21462bc, 0x1487472c, 0xb20f7a99,
            0xef57b9cd, 0xebe6b238, 0x9fe3095e, 0x78bc8d4b, 0xa43fcf15, 0x668b2ff8, 0xeeaba2cc, 0x12b1edeb);
    Consts0();
    Eight(IV, p, 0,
          0x6a09e667, 0xbb67ae85, 0x3c6ef372, 0xa54ff53a, 0x510e527f, 0x9b05688c, 0x1f83d9ab, 0x5be0cd19,
          0x428a2f98, 0x71374491, 0xb5c0fbcf, 0xe9b5dba5, 0x3956c25b, 0x59f111f1, 0x923f82a4, 0xab1c5ed5,
          0x61626380, 0x00000000, 0x00000000, 0x00000000, 0x00000000, 0x00000000, 0x00000000, 0x00000000,
          0x5d6aebcd, 0x5a6ad9ad, 0xc8c347a7, 0xd550f666, 0x04409a6a, 0x2b4209f5, 0xe5030380, 0x85a07b5f,
          0xfa2a4622, 0x78ce7989, 0xf92939eb, 0x24e00850, 0x43ada245, 0x714260ad, 0x9b27a401, 0x0c657a79);
    Consts8();
    Eight(IV, p, 8,
          0x85a07b5f, 0xe5030380, 0x2b4209f5, 0x04409a6a, 0x0c657a79, 0x9b27a401, 0x714260ad, 0x43ada245,
          0xd807aa98, 0x12835b01, 0x243185be, 0x550c7dc3, 0x72be5d74, 0x80deb1fe, 0x9bdc06a7, 0xc19bf174,
          0x00000000, 0x00000000, 0x00000000, 0x00000000, 0x00000000, 0x00000000, 0x00000000, 0x00000018,
          0x8e04ecb9, 0x8c87346b, 0x4798a3f4, 0xf71fc5a9, 0x87912990, 0xd932eb16, 0xc0645fde, 0xb0fa238e,
          0x32ca2d8c, 0x1cc92596, 0x436b23e8, 0x816fd6e9, 0x1e578218, 0x745a48de, 0x0b92f20c, 0x07590dcd);
    Consts16();
    Eight(IV, p, 16,
          0xb0fa238e, 0xc0645fde, 0xd932eb16, 0x87912990, 0x07590dcd, 0x0b92f20c, 0x745a48de, 0x1e578218,
          0xe49b69c1, 0xefbe4786, 0x0fc19dc6, 0x240ca1cc, 0x2de92c6f, 0x4a7484aa, 0x5cb0a9dc, 0x76f988da,
          0x61626380, 0x000f0000, 0x7da86405, 0x600003c6, 0x3e9d7b78, 0x0183fc00, 0x12dcbfdb, 0xe2e2c38e,
          0x21da9a9b, 0xc2fbd9d1, 0xfe777bbf, 0xe1f20c33, 0x9dc68b63, 0xc2606d6d, 0xa7a3623f, 0xc5d53d8d,
          0x8034229c, 0x846ee454, 0xcc899961, 0xb0638179, 0x8ada8930, 0xe1257970, 0x49f5114a, 0xaa47c347);
    Consts24();
    Eight(IV, p, 24,
          0xc5d53d8d, 0xa7a3623f, 0xc2606d6d, 0x9dc68b63, 0xaa47c347, 0x49f5114a, 0xe1257970, 0x8ada8930,
          0x983e5152, 0xa831c66d, 0xb00327c8, 0xbf597fc7, 0xc6e00bf3, 0xd5a79147, 0x06ca6351, 0x14292967,
          0xc8215c1a, 0xb73679a2, 0xe5bc3909, 0x32663c5b, 0x9d209d67, 0xec8726cb, 0x702138a4, 0xd3b7973b,
          0x1c2c2838, 0xcde8037d, 0xb62ec4bc, 0x77d37528, 0x363482c9, 0xa0060b30, 0xea992a22, 0x73b33bf5,
          0x2823ef91, 0x14383d8e, 0xc74c6516, 0xedffbff8, 0x6112a3b7, 0xade79437, 0x0109ab3a, 0xba591112);
    Consts32();
    Eight(IV, p, 32,
          0x73b33bf5, 0xea992a22, 0xa0060b30, 0x363482c9, 0xba591112, 0x0109ab3a, 0xade79437, 0x6112a3b7,
          0x27b70a85, 0x2e1b2138, 0x4d2c6dfc, 0x53380d13, 0x650a7354, 0x766a0abb, 0x81c2c92e, 0x92722c85,
          0x93f5997f, 0x3b68ba73, 0xaff4ffc1, 0xf10a5c62, 0x0a8b3996, 0x72af830a, 0x9409e33e, 0x24641522,
          0x98e12507, 0xfe604df5, 0xa9a7738c, 0x65a0cfe4, 0x41a65cb1, 0x34df1604, 0x6dc57a8a, 0x79ea687a,
          0x9cd9f5f6, 0x59249dd3, 0x085f3833, 0xf4b002d6, 0x0772a26b, 0xa507a53d, 0xf0781bc8, 0x1efbc0a0);
    Consts40();
    Eight(IV, p, 40,
          0x79ea687a, 0x6dc57a8a, 0x34df1604, 0x41a65cb1, 0x1efbc0a0, 0xf0781bc8, 0xa507a53d, 0x0772a26b,
          0xa2bfe8a1, 0xa81a664b, 0xc24b8b70, 0xc76c51a3, 0xd192e819, 0xd6990624, 0xf40e3585, 0x106aa070,
          0x9f47bf94, 0xf0a64f5a, 0x3e246a79, 0x27333ba3, 0x0c4763f2, 0x840abf27, 0x7a290d5d, 0x065c43da,
          0xd6670766, 0xdf46652f, 0x17aa0dfe, 0x9d4baf93, 0x26628815, 0x72ab4b91, 0xa14c14b0, 0x4172328d,
          0x26352d63, 0x838b2711, 0xdecd4715, 0xfda24c2e, 0xa80f11f0, 0xb7755da1, 0xd57b94a9, 0xfecf0bc6);
    Consts48();
    Eight(IV, p, 48,
          0x4172328d, 0xa14c14b0, 0x72ab4b91, 0x26628815, 0xfecf0bc6, 0xd57b94a9, 0xb7755da1, 0xa80f11f0,
          0x19a4c116, 0x1e376c08, 0x2748774c, 0x34b0bcb5, 0x391c0cb3, 0x4ed8aa4a, 0x5b9cca4f, 0x682e6ff3,
          0xfb3e89cb, 0xcc7617db, 0xb9e66c34, 0xa9993667, 0x84badedd, 0xc21462bc, 0x1487472c, 0xb20f7a99,
          0x05757ceb, 0xf11bfaa8, 0x7a0508a1, 0x886e7a22, 0x101fd28f, 0xf5702fdb, 0x3ec45cdb, 0x38cc9913,
          0xbd714038, 0x6e5c390c, 0x52f1ccf7, 0x49231c1e, 0x529e7d00, 0x9f4787c3, 0xe50e1b4f, 0x54cb266b);
    Consts56();
    Eight(IV, p, 56,
          0x38cc9913, 0x3ec45cdb, 0xf5702fdb, 0x101fd28f, 0x54cb266b, 0xe50e1b4f, 0x9f4787c3, 0x529e7d00,
          0x748f82ee, 0x78a5636f, 0x84c87814, 0x8cc70208, 0x90befffa, 0xa4506ceb, 0xbef9a3f7, 0xc67178f2,
          0xef57b9cd, 0xebe6b238, 0x9fe3095e, 0x78bc8d4b, 0xa43fcf15, 0x668b2ff8, 0xeeaba2cc, 0x12b1edeb,
          0xfcd1887b, 0xc062d46f, 0xffb70472, 0xb6ae8fff, 0xb85e2ce9, 0x04d24d6c, 0xd39a2165, 0x506e3058,
          0x9b5e906c, 0x7e44008e, 0x6d83bfc6, 0xb21bad3d, 0x961f4894, 0x948d25b6, 0xfb121210, 0x5ef50f24);
  }

  lemma OneBlock(p: seq<Octet>)
    requires |p| == 64
    ensures Fold(p) == Compress(IV, p)
  {
    hide Compress;
    assert p[..0] == [] && p[0..] == p;
  }

  lemma DigestOfAbc()
    ensures Digest(ABC)
            == [0xba, 0x78, 0x16, 0xbf, 0x8f, 0x01, 0xcf, 0xea, 0x41, 0x41, 0x40, 0xde, 0x5d, 0xae, 0x22, 0x23,
               0xb0, 0x03, 0x61, 0xa3, 0x96, 0x17, 0x7a, 0x9c, 0xb4, 0x10, 0xff, 0x61, 0xf2, 0x00, 0x15, 0xad]
  {
    hide Words, Compress, Fold, Pad;
    AbcBlock();
    Abc(Pad(ABC));
    OneBlock(Pad(ABC));
  }

  // ---------------------------------------------------------------- RFC 4231, section 4.3

  const JEFE: seq<Octet> := [0x4a, 0x65, 0x66, 0x65]
  const TEXT: seq<Octet> :=
    [0x77, 0x68, 0x61, 0x74] + [0x20, 0x64, 0x6f, 0x20] + [0x79, 0x61, 0x20, 0x77] + [0x61, 0x6e, 0x74, 0x20]
    + [0x66, 0x6f, 0x72, 0x20] + [0x6e, 0x6f, 0x74, 0x68] + [0x69, 0x6e, 0x67, 0x3f]

  /** A block and a message that ends in the next one. */
  lemma TwoBlocks(b: seq<Octet>, m: seq<Octet>)
    requires |b| == 64 && |m| <= 55
    ensures |Pad(b + m)| == 128
    ensures Pad(b + m)[64..] == m + [0x80] + Zeros(55 - |m|) + Be64(8 * (64 + |m|))
    ensures Fold(Pad(b + m)) == Compress(Compress(IV, b), Pad(b + m)[64..])
  {
    hide Compress, Be64;
    var p := Pad(b + m);
    assert PadZeros(64 + |m|) == 55 - |m|;
    assert p == b + (m + [0x80] + Zeros(55 - |m|) + Be64(8 * (64 + |m|)));
    assert p[..64] == b;
    OneBlock(b);
  }

  /** The key, padded with `x`: its octets combined with `x`, then `x` throughout. */
  lemma PaddedKey(x: Octet)
    ensures var b := XorAll(BlockKey(JEFE), x);
            && |b| == 64 && b[0] == 0x4a ^ x && b[1] == 0x65 ^ x && b[2] == 0x66 ^ x && b[3] == 0x65 ^ x
            && forall i :: 4 <= i < 64 ==> b[i] == x
  {
    assert 0 ^ x == x;
  }

  lemma InnerBlock()
    ensures Words(XorAll(BlockKey(JEFE), 0x36), 0,
                  0x7c535053, 0x36363636, 0x36363636, 0x36363636, 0x36363636, 0x36363636, 0x36363636, 0x36363636,
                  0x36363636, 0x36363636, 0x36363636, 0x36363636, 0x36363636, 0x36363636, 0x36363636, 0x36363636)
  {
    hide XorAll, BlockKey;
    var p := XorAll(BlockKey(JEFE), 0x36);
    PaddedKey(0x36);
    WordAt(p, 0, 0x7c, 0x53, 0x50, 0x53);
    forall t | 1 <= t < 16 ensures Sched(p, t) == 0x36363636 {
      WordAt(p, t, 0x36, 0x36, 0x36, 0x36);
    }
  }

  lemma Inner(p: seq<Octet>)
    requires |p| == 64
    requires Words(p, 0,
                   0x7c535053, 0x36363636, 0x36363636, 0x36363636, 0x36363636, 0x36363636, 0x36363636, 0x36363636,
                   0x36363636, 0x36363636, 0x36363636, 0x36363636, 0x36363636, 0x36363636, 0x36363636, 0x36363636)
    ensures Compress(IV, p)
            == Hash(0x655da7fa, 0xcc434b37, 0x5a1cd5cb, 0x0692ee0e, 0xa47a23d3, 0x4c3af449, 0xdba21ae2, 0x78c7500c)
  {
    hide Sched, Rounds, Consts;
    NoRounds(IV, p);
    Sixteen(p, 0,
            0x7c535053, 0x36363636, 0x36363636, 0x36363636, 0x36363636, 0x36363636, 0x36363636, 0x36363636,
            0x36363636, 0x36363636, 0x36363636, 0x36363636, 0x36363636, 0x36363636, 0x36363636, 0x36363636,
            0x7780fe00, 0x3163e3e3, 0xb47168a2, 0xe11539f8, 0xecfba47f, 0x8f8ebd79, 0xfa1ec89e, 0x1e0e70f6,
            0x0c23673e, 0xc8311559, 0xddee66a1, 0xb28ed337, 0xac9fc9a9, 0xcb4db29d, 0x59369281, 0xe32830f3);
    Sixteen(p, 16,
            0x7780fe00, 0x3163e3e3, 0xb47168a2, 0xe11539f8, 0xecfba47f, 0x8f8ebd79, 0xfa1ec89e, 0x1e0e70f6,
            0x0c23673e, 0xc8311559, 0xddee66a1, 0xb28ed337, 0xac9fc9a9, 0xcb4db29d, 0x59369281, 0xe32830f3,
            0x136f5555, 0x377ff55a, 0x4aa3e0f1, 0x9d19ff47, 0x926e254f, 0x39c2254f, 0x2731f000, 0x2bd17abc,
            0xf96d6a27, 0x6686c278, 0x616aea0c, 0xb308442a, 0x5d1a34ff, 0xca7159c9, 0xd99ebf95, 0xe1a34c15);
    Sixteen(p, 32,
            0x136f5555, 0x377ff55a, 0x4aa3e0f1, 0x9d19ff47, 0x926e254f, 0x39c2254f, 0x2731f000, 0x2bd17abc,
            0xf96d6a27, 0x6686c278, 0x616aea0c, 0xb308442a, 0x5d1a34ff, 0xca7159c9, 0xd99ebf95, 0xe1a34c15,
            0x51dbd4be, 0x7c986d13, 0x71d1a48e, 0x39a42882, 0x53c21066, 0x1d686bfc, 0x7682d688, 0xc08ab048,
            0xf41238c8, 0x94e252cd, 0x485d2762, 0xe20b3ab9, 0x8e7ad67d, 0xda8d1cc5, 0xb0eeaf96, 0x8739d375);
    Consts0();
    Eight(IV, p, 0,
          0x6a09e667, 0xbb67ae85, 0x3c6ef372, 0xa54ff53a, 0x510e527f, 0x9b05688c, 0x1f83d9ab, 0x5be0cd19,
          0x428a2f98, 0x71374491, 0xb5c0fbcf, 0xe9b5dba5, 0x3956c25b, 0x59f111f1, 0x923f82a4, 0xab1c5ed5,
          0x7c535053, 0x36363636, 0x36363636, 0x36363636, 0x36363636, 0x36363636, 0x36363636, 0x36363636,
          0x785bd8a0, 0x983307d2, 0xe561c53c, 0x8c549b2f, 0x53632755, 0x34561afc, 0x58778f6a, 0x16fcd1de,
          0x151b32f5, 0xa5de5788, 0xd42662d3, 0x663f1212, 0xd7477e59, 0x24389410, 0xa6e3644b, 0x1f67d48a);
    Consts8();
    Eight(IV, p, 8,
          0x16fcd1de, 0x58778f6a, 0x34561afc, 0x53632755, 0x1f67d48a, 0xa6e3644b, 0x24389410, 0xd7477e59,
          0xd807aa98, 0x12835b01, 0x243185be, 0x550c7dc3, 0x72be5d74, 0x80deb1fe, 0x9bdc06a7, 0xc19bf174,
          0x36363636, 0x36363636, 0x36363636, 0x36363636, 0x36363636, 0x36363636, 0x36363636, 0x36363636,
          0x235471b0, 0xb0e25b7e, 0xc29f7823, 0x1b918ad1, 0x07f487ee, 0x0aae579f, 0x32f91b02, 0xd8a297b3,
          0x6a38013d, 0xfe30de3e, 0xe981ca81, 0x435e9d84, 0x426da4d5, 0x4b6881fa, 0x22d64e87, 0x40743133);
    Consts16();
    Eight(IV, p, 16,
          0xd8a297b3, 0x32f91b02, 0x0aae579f, 0x07f487ee, 0x40743133, 0x22d64e87, 0x4b6881fa, 0x426da4d5,
          0xe49b69c1, 0xefbe4786, 0x0fc19dc6, 0x240ca1cc, 0x2de92c6f, 0x4a7484aa, 0x5cb0a9dc, 0x76f988da,
          0x7780fe00, 0x3163e3e3, 0xb47168a2, 0xe11539f8, 0xecfba47f, 0x8f8ebd79, 0xfa1ec89e, 0x1e0e70f6,
          0x57ea9c70, 0x0268f9a1, 0x3dbc498e, 0xd9507501, 0xc5318371, 0x062e40f6, 0x17e2b319, 0xad9d4643,
          0x834c5d31, 0x5e22d8f7, 0xef561db9, 0x67d16b9d, 0x6414d5ba, 0x7e976b52, 0x513641df, 0x27cec047);
    Consts24();
    Eight(IV, p, 24,
          0xad9d4643, 0x17e2b319, 0x062e40f6, 0xc5318371, 0x27cec047, 0x513641df, 0x7e976b52, 0x6414d5ba,
          0x983e5152, 0xa831c66d, 0xb00327c8, 0xbf597fc7, 0xc6e00bf3, 0xd5a79147, 0x06ca6351, 0x14292967,
          0x0c23673e, 0xc8311559, 0xddee66a1, 0xb28ed337, 0xac9fc9a9, 0xcb4db29d, 0x59369281, 0xe32830f3,
          0x08bb510a, 0x7c2a0dc2, 0xd2451e37, 0x0268fa1b, 0xedf2ce47, 0xf09b0708, 0x078f5fb6, 0xeaa1ecb4,
          0x19db5e5c, 0x8d6241f3, 0x643e203e, 0x46841870, 0xf09bbf76, 0x67e97303, 0x905c490a, 0xc6426440);
    Consts32();
    Eight(IV, p, 32,
          0xeaa1ecb4, 0x078f5fb6, 0xf09b0708, 0xedf2ce47, 0xc6426440, 0x905c490a, 0x67e97303, 0xf09bbf76,
          0x27b70a85, 0x2e1b2138, 0x4d2c6dfc, 0x53380d13, 0x650a7354, 0x766a0abb, 0x81c2c92e, 0x92722c85,
          0x136f5555, 0x377ff55a, 0x4aa3e0f1, 0x9d19ff47, 0x926e254f, 0x39c2254f, 0x2731f000, 0x2bd17abc,
          0x3328a14d, 0x6d2e4564, 0x83963ea4, 0x68029891, 0x1d8a1947, 0x67625ada, 0x3b14694f, 0xa79b91d0,
          0x65d22258, 0x55f8d8de, 0x967f4f57, 0xa23b5ecb, 0x52c2fa60, 0xa5cf1142, 0x8b47cae7, 0xfb81d2f6);
    Consts40();
    Eight(IV, p, 40,
          0xa79b91d0, 0x3b14694f, 0x67625ada, 0x1d8a1947, 0xfb81d2f6, 0x8b47cae7, 0xa5cf1142, 0x52c2fa60,
          0xa2bfe8a1, 0xa81a664b, 0xc24b8b70, 0xc76c51a3, 0xd192e819, 0xd6990624, 0xf40e3585, 0x106aa070,
          0xf96d6a27, 0x6686c278, 0x616aea0c, 0xb308442a, 0x5d1a34ff, 0xca7159c9, 0xd99ebf95, 0xe1a34c15,
          0xb44f112a, 0x09f97f87, 0x73144f72, 0x232d24d1, 0x5cd1d6ed, 0xb803f3e1, 0x6531bcdc, 0x750ed7b4,
          0xe1a23661, 0xa239fc34, 0x2c959b32, 0xe30014cd, 0x13126373, 0xa7e30631, 0xa1815b66, 0xe2cdce6a);
    Consts48();
    Eight(IV, p, 48,
          0x750ed7b4, 0x6531bcdc, 0xb803f3e1, 0x5cd1d6ed, 0xe2cdce6a, 0xa1815b66, 0xa7e30631, 0x13126373,
          0x19a4c116, 0x1e376c08, 0x2748774c, 0x34b0bcb5, 0x391c0cb3, 0x4ed8aa4a, 0x5b9cca4f, 0x682e6ff3,
          0x51dbd4be, 0x7c986d13, 0x71d1a48e, 0x39a42882, 0x53c21066, 0x1d686bfc, 0x7682d688, 0xc08ab048,
          0x352963ee, 0xbd49faae, 0x9d2923ec, 0x7875932a, 0xfc2f1aae, 0x3ac20327, 0x80be9491, 0xc5a25619,
          0x81387698, 0xc86fad2f, 0x6f83bf09, 0x93b9f32a, 0xa2ecbc67, 0x25c84e04, 0xc5fadb1d, 0x4677efca);
    Consts56();
    Eight(IV, p, 56,
          0xc5a25619, 0x80be9491, 0x3ac20327, 0xfc2f1aae, 0x4677efca, 0xc5fadb1d, 0x25c84e04, 0xa2ecbc67,
          0x748f82ee, 0x78a5636f, 0x84c87814, 0x8cc70208, 0x90befffa, 0xa4506ceb, 0xbef9a3f7, 0xc67178f2,
          0xf41238c8, 0x94e252cd, 0x485d2762, 0xe20b3ab9, 0x8e7ad67d, 0xda8d1cc5, 0xb0eeaf96, 0x8739d375,
          0x26d12d1d, 0xecaa3749, 0xfc2dd2ee, 0x79b8b244, 0x6142f8d4, 0x1dade259, 0x10db9cb2, 0xfb53c193,
          0x595f5238, 0x3cd11d02, 0x2e916135, 0xb37aa2eb, 0x1ce682f3, 0xbc1e4137, 0xb1358bbd, 0x536bd154);
  }

  const INNER := Hash(0x655da7fa, 0xcc434b37, 0x5a1cd5cb, 0x0692ee0e, 0xa47a23d3, 0x4c3af449, 0xdba21ae2, 0x78c7500c)

  lemma TextOctets()
    ensures |TEXT| == 28
    ensures TEXT[0] == 0x77 && TEXT[1] == 0x68 && TEXT[2] == 0x61 && TEXT[3] == 0x74
    ensures TEXT[4] == 0x20 && TEXT[5] == 0x64 && TEXT[6] == 0x6f && TEXT[7] == 0x20
    ensures TEXT[8] == 0x79 && TEXT[9] == 0x61 && TEXT[10] == 0x20 && TEXT[11] == 0x77
    ensures TEXT[12] == 0x61 && TEXT[13] == 0x6e && TEXT[14] == 0x74 && TEXT[15] == 0x20
    ensures TEXT[16] == 0x66 && TEXT[17] == 0x6f && TEXT[18] == 0x72 && TEXT[19] == 0x20
    ensures TEXT[20] == 0x6e && TEXT[21] == 0x6f && TEXT[22] == 0x74 && TEXT[23] == 0x68
    ensures TEXT[24] == 0x69 && TEXT[25] == 0x6e && TEXT[26] == 0x67 && TEXT[27] == 0x3f
  {
  }

  lemma TextLiterals()
    ensures WordOf(0x77, 0x68, 0x61, 0x74) == 0x77686174
    ensures WordOf(0x20, 0x64, 0x6f, 0x20) == 0x20646f20
    ensures WordOf(0x79, 0x61, 0x20, 0x77) == 0x79612077
    ensures WordOf(0x61, 0x6e, 0x74, 0x20) == 0x616e7420
    ensures WordOf(0x66, 0x6f, 0x72, 0x20) == 0x666f7220
    ensures WordOf(0x6e, 0x6f, 0x74, 0x68) == 0x6e6f7468
    ensures WordOf(0x69, 0x6e, 0x67, 0x3f) == 0x696e673f
  {
  }

  lemma TextBlock(p: seq<Octet>)
    requires p == TEXT + [0x80] + Zeros(27) + Be64(736)
    ensures |p| == 64
    ensures Words(p, 0,
                  0x77686174, 0x20646f20, 0x79612077, 0x616e7420, 0x666f7220, 0x6e6f7468, 0x696e673f, 0x80000000,
                  0x00000000, 0x00000000, 0x00000000, 0x00000000, 0x00000000, 0x00000000, 0x00000000, 0x000002e0)
  {
    hide Be64, TEXT, WordOf, Sched;
    Length736();
    TextOctets();
    TextLiterals();
    Ending(p, TEXT, 7, 2, 0xe0);
    LastWord(2, 0xe0);
  }

  lemma Text(p: seq<Octet>)
    requires |p| == 64
    requires Words(p, 0,
                   0x77686174, 0x20646f20, 0x79612077, 0x616e7420, 0x666f7220, 0x6e6f7468, 0x696e673f, 0x80000000,
                   0x00000000, 0x00000000, 0x00000000, 0x00000000, 0x00000000, 0x00000000, 0x00000000, 0x000002e0)
    ensures Compress(INNER, p)
            == Hash(0xa2e48586, 0x3d27f9d8, 0x64ac8d80, 0x2432a1ed, 0x477d8c4c, 0x6f349d16, 0xd4e7e917, 0xc629cad7)
  {
    hide Sched, Rounds, Consts;
    NoRounds(INNER, p);
    Sixteen(p, 0,
            0x77686174, 0x20646f20, 0x79612077, 0x616e7420, 0x666f7220, 0x6e6f7468, 0x696e673f, 0x80000000,
            0x00000000, 0x00000000, 0x00000000, 0x00000000, 0x00000000, 0x00000000, 0x00000000, 0x000002e0,
            0xd6ecae97, 0xcb53a736, 0x0df4d52e, 0x99470585, 0x56ac588f, 0xbaf46d24, 0x21b274b4, 0x120525d6,
            0x40189fa8, 0x444a1f39, 0xf57833ad, 0xa316f0ba, 0xda928743, 0xc8153509, 0xe63c58e9, 0x9b063401);
    Sixteen(p, 16,
            0xd6ecae97, 0xcb53a736, 0x0df4d52e, 0x99470585, 0x56ac588f, 0xbaf46d24, 0x21b274b4, 0x120525d6,
            0x40189fa8, 0x444a1f39, 0xf57833ad, 0xa316f0ba, 0xda928743, 0xc8153509, 0xe63c58e9, 0x9b063401,
            0x5fb8701b, 0x06610ac3, 0xc09ff909, 0x1a6d0e91, 0x67b9d8fd, 0xb9251d58, 0x7b42c482, 0x1e4fcbae,
            0x7f18d3ae, 0x6b3e02aa, 0x60acd3cc, 0x09230471, 0xcf103ae0, 0xff3e7122, 0xbc028b24, 0x31f8a0a0);
    Sixteen(p, 32,
            0x5fb8701b, 0x06610ac3, 0xc09ff909, 0x1a6d0e91, 0x67b9d8fd, 0xb9251d58, 0x7b42c482, 0x1e4fcbae,
            0x7f18d3ae, 0x6b3e02aa, 0x60acd3cc, 0x09230471, 0xcf103ae0, 0xff3e7122, 0xbc028b24, 0x31f8a0a0,
            0xa4405ebd, 0xa126f06e, 0x5140b18d, 0x0f9727bc, 0x96dc649b, 0xa7105035, 0x1955553f, 0x4cbc81fd,
            0xf9992590, 0x2d78b115, 0x48b2660c, 0xc566eb38, 0xbc4719f4, 0xbd8f6578, 0xe71fceb9, 0x023dd359);
    Consts0();
    Eight(INNER, p, 0,
          0x655da7fa, 0xcc434b37, 0x5a1cd5cb, 0x0692ee0e, 0xa47a23d3, 0x4c3af449, 0xdba21ae2, 0x78c7500c,
          0x428a2f98, 0x71374491, 0xb5c0fbcf, 0xe9b5dba5, 0x3956c25b, 0x59f111f1, 0x923f82a4, 0xab1c5ed5,
          0x77686174, 0x20646f20, 0x79612077, 0x616e7420, 0x666f7220, 0x6e6f7468, 0x696e673f, 0x80000000,
          0xb8e21a13, 0x481dac7b, 0x62f20e4d, 0x238af6c2, 0xf5d4dabb, 0x567dcdf7, 0xd609bdc3, 0x54c22a6c,
          0xa2fb95a0, 0xff2a679c, 0xff6ae436, 0x3d07eed9, 0x36f39d1a, 0xbf0823c8, 0x740ccf53, 0x648372d6);
    Consts8();
    Eight(INNER, p, 8,
          0x54c22a6c, 0xd609bdc3, 0x567dcdf7, 0xf5d4dabb, 0x648372d6, 0x740ccf53, 0xbf0823c8, 0x36f39d1a,
          0xd807aa98, 0x12835b01, 0x243185be, 0x550c7dc3, 0x72be5d74, 0x80deb1fe, 0x9bdc06a7, 0xc19bf174,
          0x00000000, 0x00000000, 0x00000000, 0x00000000, 0x00000000, 0x00000000, 0x00000000, 0x000002e0,
          0xf630cd63, 0x04bd02e2, 0x5a575c57, 0xd1f3d86b, 0x09eca57c, 0xf5842695, 0xd0e32bb8, 0xbf4e7f46,
          0x46c05c5e, 0x2f941670, 0x797c2276, 0x67225dae, 0xb6e243b9, 0x053ab6db, 0x0000f140, 0xda0d8141);
    Consts16();
    Eight(INNER, p, 16,
          0xbf4e7f46, 0xd0e32bb8, 0xf5842695, 0x09eca57c, 0xda0d8141, 0x0000f140, 0x053ab6db, 0xb6e243b9,
          0xe49b69c1, 0xefbe4786, 0x0fc19dc6, 0x240ca1cc, 0x2de92c6f, 0x4a7484aa, 0x5cb0a9dc, 0x76f988da,
          0xd6ecae97, 0xcb53a736, 0x0df4d52e, 0x99470585, 0x56ac588f, 0xbaf46d24, 0x21b274b4, 0x120525d6,
          0x03129a36, 0x604a7248, 0xeedaca00, 0xbe87e7f9, 0xbf0b0bf2, 0xf06fcc32, 0x79a0a5a9, 0x5b9a284d,
          0xab1d90bf, 0xa76ff792, 0xf8dabc32, 0x1ae1c552, 0x835ed8a5, 0xb5b58232, 0x47aee404, 0x2f41410b);
    Consts24();
    Eight(INNER, p, 24,
          0x5b9a284d, 0x79a0a5a9, 0xf06fcc32, 0xbf0b0bf2, 0x2f41410b, 0x47aee404, 0xb5b58232, 0x835ed8a5,
          0x983e5152, 0xa831c66d, 0xb00327c8, 0xbf597fc7, 0xc6e00bf3, 0xd5a79147, 0x06ca6351, 0x14292967,
          0x40189fa8, 0x444a1f39, 0xf57833ad, 0xa316f0ba, 0xda928743, 0xc8153509, 0xe63c58e9, 0x9b063401,
          0x96bb045f, 0x4263f6b0, 0xe45cf572, 0x2baf19c4, 0xfd6b63f2, 0x578885a2, 0xa80d8d52, 0x3eebaf95,
          0x5fee007c, 0xabd69400, 0xe0824704, 0x5f777975, 0xb908e6ba, 0x9f3a120e, 0x71d96c70, 0x76edd9cf);
    Consts32();
    Eight(INNER, p, 32,
          0x3eebaf95, 0xa80d8d52, 0x578885a2, 0xfd6b63f2, 0x76edd9cf, 0x71d96c70, 0x9f3a120e, 0xb908e6ba,
          0x27b70a85, 0x2e1b2138, 0x4d2c6dfc, 0x53380d13, 0x650a7354, 0x766a0abb, 0x81c2c92e, 0x92722c85,
          0x5fb8701b, 0x06610ac3, 0xc09ff909, 0x1a6d0e91, 0x67b9d8fd, 0xb9251d58, 0x7b42c482, 0x1e4fcbae,
          0x89640ed6, 0x51552207, 0x008c48f1, 0xb55acccf, 0x44a5d2ff, 0x89b963f0, 0xc43e9334, 0x64336633,
          0xaa989cf3, 0xbb9a0523, 0xfe4cc83f, 0xbc799f31, 0xdc9571de, 0x04e91075, 0x66ab4215, 0x01eb08e5);
    Consts40();
    Eight(INNER, p, 40,
          0x64336633, 0xc43e9334, 0x89b963f0, 0x44a5d2ff, 0x01eb08e5, 0x66ab4215, 0x04e91075, 0xdc9571de,
          0xa2bfe8a1, 0xa81a664b, 0xc24b8b70, 0xc76c51a3, 0xd192e819, 0xd6990624, 0xf40e3585, 0x106aa070,
          0x7f18d3ae, 0x6b3e02aa, 0x60acd3cc, 0x09230471, 0xcf103ae0, 0xff3e7122, 0xbc028b24, 0x31f8a0a0,
          0x6987babb, 0x8ec6134f, 0x795b866f, 0x3d286fbb, 0x9f6132f2, 0xb5486ab0, 0xc30b4900, 0x18eae95d,
          0xc4e2f503, 0xa2f775d7, 0x6f921a90, 0xb45facdd, 0xb871c7e5, 0x521dd93c, 0x2580f283, 0x68e92552);
    Consts48();
    Eight(INNER, p, 48,
          0x18eae95d, 0xc30b4900, 0xb5486ab0, 0x9f6132f2, 0x68e92552, 0x2580f283, 0x521dd93c, 0xb871c7e5,
          0x19a4c116, 0x1e376c08, 0x2748774c, 0x34b0bcb5, 0x391c0cb3, 0x4ed8aa4a, 0x5b9cca4f, 0x682e6ff3,
          0xa4405ebd, 0xa126f06e, 0x5140b18d, 0x0f9727bc, 0x96dc649b, 0xa7105035, 0x1955553f, 0x4cbc81fd,
          0x792962de, 0xf8f9ec3e, 0x55103dbb, 0xb1b19220, 0x72ebf845, 0x71f4ebf0, 0xf1b65c41, 0xe73f1bab,
          0xdfc9235d, 0x27e4057a, 0x66b8573a, 0xd8fac404, 0x7f423327, 0xc7cca388, 0x44832b00, 0xdfe69826);
    Consts56();
    Eight(INNER, p, 56,
          0xe73f1bab, 0xf1b65c41, 0x71f4ebf0, 0x72ebf845, 0xdfe69826, 0x44832b00, 0xc7cca388, 0x7f423327,
          0x748f82ee, 0x78a5636f, 0x84c87814, 0x8cc70208, 0x90befffa, 0xa4506ceb, 0xbef9a3f7, 0xc67178f2,
          0xf9992590, 0x2d78b115, 0x48b2660c, 0xc566eb38, 0xbc4719f4, 0xbd8f6578, 0xe71fceb9, 0x023dd359,
          0x69922978, 0x33a4ced7, 0x8d8a1bdb, 0x39946bf0, 0x1d9fb3df, 0x0a8fb7b5, 0x70e4aea1, 0x3d86dd8c,
          0x11c9754e, 0xaae179f5, 0xf21e79c4, 0xe17ff730, 0x4d627acb, 0xf945ce35, 0x22f9a8cd, 0xa3036879);
  }

  lemma OuterBlock()
    ensures Words(XorAll(BlockKey(JEFE), 0x5c), 0,
                  0x16393a39, 0x5c5c5c5c, 0x5c5c5c5c, 0x5c5c5c5c, 0x5c5c5c5c, 0x5c5c5c5c, 0x5c5c5c5c, 0x5c5c5c5c,
                  0x5c5c5c5c, 0x5c5c5c5c, 0x5c5c5c5c, 0x5c5c5c5c, 0x5c5c5c5c, 0x5c5c5c5c, 0x5c5c5c5c, 0x5c5c5c5c)
  {
    hide XorAll, BlockKey;
    var p := XorAll(BlockKey(JEFE), 0x5c);
    PaddedKey(0x5c);
    WordAt(p, 0, 0x16, 0x39, 0x3a, 0x39);
    forall t | 1 <= t < 16 ensures Sched(p, t) == 0x5c5c5c5c {
      WordAt(p, t, 0x5c, 0x5c, 0x5c, 0x5c);
    }
  }

  lemma Outer(p: seq<Octet>)
    requires |p| == 64
    requires Words(p, 0,
                   0x16393a39, 0x5c5c5c5c, 0x5c5c5c5c, 0x5c5c5c5c, 0x5c5c5c5c, 0x5c5c5c5c, 0x5c5c5c5c, 0x5c5c5c5c,
                   0x5c5c5c5c, 0x5c5c5c5c, 0x5c5c5c5c, 0x5c5c5c5c, 0x5c5c5c5c, 0x5c5c5c5c, 0x5c5c5c5c, 0x5c5c5c5c)
    ensures Compress(IV, p)
            == Hash(0x0eafe3d5, 0x13412e6c, 0x6a6a2feb, 0x2d375acc, 0x51a4fd47, 0x6db095e8, 0x23bfa18a, 0x52f141d5)
  {
    hide Sched, Rounds, Consts;
    NoRounds(IV, p);
    Sixteen(p, 0,
            0x16393a39, 0x5c5c5c5c, 0x5c5c5c5c, 0x5c5c5c5c, 0x5c5c5c5c, 0x5c5c5c5c, 0x5c5c5c5c, 0x5c5c5c5c,
            0x5c5c5c5c, 0x5c5c5c5c, 0x5c5c5c5c, 0x5c5c5c5c, 0x5c5c5c5c, 0x5c5c5c5c, 0x5c5c5c5c, 0x5c5c5c5c,
            0xbc6c6d6b, 0x028f8f8e, 0x18148f7c, 0x93133fd1, 0x33346707, 0x55131c00, 0x1c4c8fc1, 0xaa8252d7,
            0xd92fce9a, 0x7bb09081, 0xb23c3c92, 0x8e036611, 0xef8b1cd6, 0xfcb68659, 0x98cd1c4a, 0xa514d1ce);
    Sixteen(p, 16,
            0xbc6c6d6b, 0x028f8f8e, 0x18148f7c, 0x93133fd1, 0x33346707, 0x55131c00, 0x1c4c8fc1, 0xaa8252d7,
            0xd92fce9a, 0x7bb09081, 0xb23c3c92, 0x8e036611, 0xef8b1cd6, 0xfcb68659, 0x98cd1c4a, 0xa514d1ce,
            0x655e9871, 0x80b14e30, 0xc3f7e470, 0x235e01a7, 0x0b79c2d8, 0x51112a82, 0xc947e091, 0x9d17222d,
            0x8fead71a, 0xf1240136, 0xf2403484, 0x911ae6e0, 0x6b8481a7, 0xb6c12283, 0xc47d12e8, 0x32b8fe41);
    Sixteen(p, 32,
            0x655e9871, 0x80b14e30, 0xc3f7e470, 0x235e01a7, 0x0b79c2d8, 0x51112a82, 0xc947e091, 0x9d17222d,
            0x8fead71a, 0xf1240136, 0xf2403484, 0x911ae6e0, 0x6b8481a7, 0xb6c12283, 0xc47d12e8, 0x32b8fe41,
            0xa4366b12, 0xd4bab7a3, 0x18198b37, 0x5dc30ab5, 0xfb56e209, 0xbc47b487, 0x298fa38f, 0xff6df23c,
            0xfded1548, 0x6b3181fd, 0xe2eea69e, 0xe11be15d, 0x08859856, 0xfacb39cf, 0xfeb10bf2, 0xd790cd34);
    Consts0();
    Eight(IV, p, 0,
          0x6a09e667, 0xbb67ae85, 0x3c6ef372, 0xa54ff53a, 0x510e527f, 0x9b05688c, 0x1f83d9ab, 0x5be0cd19,
          0x428a2f98, 0x71374491, 0xb5c0fbcf, 0xe9b5dba5, 0x3956c25b, 0x59f111f1, 0x923f82a4, 0xab1c5ed5,
          0x16393a39, 0x5c5c5c5c, 0x5c5c5c5c, 0x5c5c5c5c, 0x5c5c5c5c, 0x5c5c5c5c, 0x5c5c5c5c, 0x5c5c5c5c,
          0x1241c286, 0x455055eb, 0x03637aee, 0x3c9c8844, 0xcb1304a6, 0xb1133397, 0xe54a3493, 0x69435709,
          0xaf011cdb, 0xafd267f0, 0x3d2fcf9f, 0xc9219e10, 0x98dc9837, 0x0f707dff, 0xf3639443, 0x4facc1d6);
    Consts8();
    Eight(IV, p, 8,
          0x69435709, 0xe54a3493, 0xb1133397, 0xcb1304a6, 0x4facc1d6, 0xf3639443, 0x0f707dff, 0x98dc9837,
          0xd807aa98, 0x12835b01, 0x243185be, 0x550c7dc3, 0x72be5d74, 0x80deb1fe, 0x9bdc06a7, 0xc19bf174,
          0x5c5c5c5c, 0x5c5c5c5c, 0x5c5c5c5c, 0x5c5c5c5c, 0x5c5c5c5c, 0x5c5c5c5c, 0x5c5c5c5c, 0x5c5c5c5c,
          0x96d3fb5e, 0xba42125f, 0xc8369aca, 0xee376db8, 0xa1a61c47, 0xdf63a889, 0x5e3eeba7, 0xe7b8b56f,
          0x915c0df4, 0x55649cc8, 0x7f195390, 0xfef75e3d, 0xc247b35e, 0x1f4a0977, 0x7a1a23a6, 0x85ada43a);
    Consts16();
    Eight(IV, p, 16,
          0xe7b8b56f, 0x5e3eeba7, 0xdf63a889, 0xa1a61c47, 0x85ada43a, 0x7a1a23a6, 0x1f4a0977, 0xc247b35e,
          0xe49b69c1, 0xefbe4786, 0x0fc19dc6, 0x240ca1cc, 0x2de92c6f, 0x4a7484aa, 0x5cb0a9dc, 0x76f988da,
          0xbc6c6d6b, 0x028f8f8e, 0x18148f7c, 0x93133fd1, 0x33346707, 0x55131c00, 0x1c4c8fc1, 0xaa8252d7,
          0xc8ad2b06, 0xa0d6a020, 0x6643e281, 0x3cbb1ed2, 0x0b37ef52, 0x93238532, 0xb3d8e080, 0x897a142a,
          0xdad3ee9e, 0x52cc88f8, 0x701600c4, 0x019a631b, 0x194d0d3a, 0xdde54c39, 0xfba08193, 0xe78fa9c2);
    Consts24();
    Eight(IV, p, 24,
          0x897a142a, 0xb3d8e080, 0x93238532, 0x0b37ef52, 0xe78fa9c2, 0xfba08193, 0xdde54c39, 0x194d0d3a,
          0x983e5152, 0xa831c66d, 0xb00327c8, 0xbf597fc7, 0xc6e00bf3, 0xd5a79147, 0x06ca6351, 0x14292967,
          0xd92fce9a, 0x7bb09081, 0xb23c3c92, 0x8e036611, 0xef8b1cd6, 0xfcb68659, 0x98cd1c4a, 0xa514d1ce,
          0xf9870a23, 0x1c11e5a3, 0xa6dcfe16, 0x86103013, 0x66159104, 0x33c6b89d, 0x466a3c05, 0x223781a1,
          0x85ea1054, 0x4204e95d, 0x1418c4dc, 0x27fa0221, 0xb7b33477, 0xe1e1a8b5, 0x34384529, 0x28c05066);
    Consts32();
    Eight(IV, p, 32,
          0x223781a1, 0x466a3c05, 0x33c6b89d, 0x66159104, 0x28c05066, 0x34384529, 0xe1e1a8b5, 0xb7b33477,
          0x27b70a85, 0x2e1b2138, 0x4d2c6dfc, 0x53380d13, 0x650a7354, 0x766a0abb, 0x81c2c92e, 0x92722c85,
          0x655e9871, 0x80b14e30, 0xc3f7e470, 0x235e01a7, 0x0b79c2d8, 0x51112a82, 0xc947e091, 0x9d17222d,
          0xd822185e, 0x54ecb192, 0xad7954cf, 0xe7d10d33, 0xfb686937, 0x297f2869, 0xe332a1f9, 0x2085ac20,
          0x804e7b81, 0x49f215c3, 0xf84d3cf0, 0x85307daa, 0x1931b9a7, 0x78316de1, 0xaf7ba84f, 0x5f583973);
    Consts40();
    Eight(IV, p, 40,
          0x2085ac20, 0xe332a1f9, 0x297f2869, 0xfb686937, 0x5f583973, 0xaf7ba84f, 0x78316de1, 0x1931b9a7,
          0xa2bfe8a1, 0xa81a664b, 0xc24b8b70, 0xc76c51a3, 0xd192e819, 0xd6990624, 0xf40e3585, 0x106aa070,
          0x8fead71a, 0xf1240136, 0xf2403484, 0x911ae6e0, 0x6b8481a7, 0xb6c12283, 0xc47d12e8, 0x32b8fe41,
          0x6b28b082, 0x16966c26, 0xb476c398, 0x2a70095c, 0x5b5a8b27, 0x5009f43b, 0xe65638ea, 0x835aa22a,
          0xc5c881a9, 0x20d97726, 0xb7ff018f, 0x29e86379, 0x0fb4d10f, 0x466cefd5, 0xee6c6342, 0x354edc49);
    Consts48();
    Eight(IV, p, 48,
          0x835aa22a, 0xe65638ea, 0x5009f43b, 0x5b5a8b27, 0x354edc49, 0xee6c6342, 0x466cefd5, 0x0fb4d10f,
          0x19a4c116, 0x1e376c08, 0x2748774c, 0x34b0bcb5, 0x391c0cb3, 0x4ed8aa4a, 0x5b9cca4f, 0x682e6ff3,
          0xa4366b12, 0xd4bab7a3, 0x18198b37, 0x5dc30ab5, 0xfb56e209, 0xbc47b487, 0x298fa38f, 0xff6df23c,
          0xdbfedfb7, 0xa0b0242f, 0x4980a430, 0x1ca2eaeb, 0xf2457593, 0xd2dbf54f, 0xd3a780aa, 0x8a8b3fbf,
          0x99f4a262, 0x3d1ba64c, 0xa21a84e3, 0xa4da44af, 0xa9c7bd40, 0xd532b445, 0x1946da48, 0xa4a85ec7);
    Consts56();
    Eight(IV, p, 56,
          0x8a8b3fbf, 0xd3a780aa, 0xd2dbf54f, 0xf2457593, 0xa4a85ec7, 0x1946da48, 0xd532b445, 0xa9c7bd40,
          0x748f82ee, 0x78a5636f, 0x84c87814, 0x8cc70208, 0x90befffa, 0xa4506ceb, 0xbef9a3f7, 0xc67178f2,
          0xfded1548, 0x6b3181fd, 0xe2eea69e, 0xe11be15d, 0x08859856, 0xfacb39cf, 0xfeb10bf2, 0xd790cd34,
          0x05ccc2a3, 0x8e535f40, 0x6717179f, 0xb31fa7ba, 0x87e76592, 0x2dfb3c79, 0x57d97fe7, 0xa4a5fd6e,
          0xf1e61ceb, 0xf63e3f0b, 0x17059133, 0xfcf30f33, 0xf71074bc, 0x043bc7df, 0xd2ab2d5c, 0x0096aac8);
  }

  const OUTER := Hash(0x0eafe3d5, 0x13412e6c, 0x6a6a2feb, 0x2d375acc, 0x51a4fd47, 0x6db095e8, 0x23bfa18a, 0x52f141d5)

  const INNER_DIGEST: seq<Octet> :=
    [0xa2, 0xe4, 0x85, 0x86] + [0x3d, 0x27, 0xf9, 0xd8] + [0x64, 0xac, 0x8d, 0x80] + [0x24, 0x32, 0xa1, 0xed]
    + [0x47, 0x7d, 0x8c, 0x4c] + [0x6f, 0x34, 0x9d, 0x16] + [0xd4, 0xe7, 0xe9, 0x17] + [0xc6, 0x29, 0xca, 0xd7]

  lemma InnerDigestOctets()
    ensures |INNER_DIGEST| == 32
    ensures INNER_DIGEST[0] == 0xa2 && INNER_DIGEST[1] == 0xe4 && INNER_DIGEST[2] == 0x85 && INNER_DIGEST[3] == 0x86
    ensures INNER_DIGEST[4] == 0x3d && INNER_DIGEST[5] == 0x27 && INNER_DIGEST[6] == 0xf9 && INNER_DIGEST[7] == 0xd8
    ensures INNER_DIGEST[8] == 0x64 && INNER_DIGEST[9] == 0xac && INNER_DIGEST[10] == 0x8d && INNER_DIGEST[11] == 0x80
    ensures INNER_DIGEST[12] == 0x24 && INNER_DIGEST[13] == 0x32 && INNER_DIGEST[14] == 0xa1 && INNER_DIGEST[15] == 0xed
    ensures INNER_DIGEST[16] == 0x47 && INNER_DIGEST[17] == 0x7d && INNER_DIGEST[18] == 0x8c && INNER_DIGEST[19] == 0x4c
    ensures INNER_DIGEST[20] == 0x6f && INNER_DIGEST[21] == 0x34 && INNER_DIGEST[22] == 0x9d && INNER_DIGEST[23] == 0x16
    ensures INNER_DIGEST[24] == 0xd4 && INNER_DIGEST[25] == 0xe7 && INNER_DIGEST[26] == 0xe9 && INNER_DIGEST[27] == 0x17
    ensures INNER_DIGEST[28] == 0xc6 && INNER_DIGEST[29] == 0x29 && INNER_DIGEST[30] == 0xca && INNER_DIGEST[31] == 0xd7
  {
  }

  lemma InnerDigestLiterals()
    ensures WordOf(0xa2, 0xe4, 0x85, 0x86) == 0xa2e48586
    ensures WordOf(0x3d, 0x27, 0xf9, 0xd8) == 0x3d27f9d8
    ensures WordOf(0x64, 0xac, 0x8d, 0x80) == 0x64ac8d80
    ensures WordOf(0x24, 0x32, 0xa1, 0xed) == 0x2432a1ed
    ensures WordOf(0x47, 0x7d, 0x8c, 0x4c) == 0x477d8c4c
    ensures WordOf(0x6f, 0x34, 0x9d, 0x16) == 0x6f349d16
    ensures WordOf(0xd4, 0xe7, 0xe9, 0x17) == 0xd4e7e917
    ensures WordOf(0xc6, 0x29, 0xca, 0xd7) == 0xc629cad7
  {
  }

  lemma LastBlock(p: seq<Octet>)
    requires p == INNER_DIGEST + [0x80] + Zeros(23) + Be64(768)
    ensures |p| == 64
    ensures Words(p, 0,
                  0xa2e48586, 0x3d27f9d8, 0x64ac8d80, 0x2432a1ed, 0x477d8c4c, 0x6f349d16, 0xd4e7e917, 0xc629cad7,
                  0x80000000, 0x00000000, 0x00000000, 0x00000000, 0x00000000, 0x00000000, 0x00000000, 0x00000300)
  {
    hide Be64, INNER_DIGEST, WordOf, Sched;
    Length768();
    InnerDigestOctets();
    InnerDigestLiterals();
    Ending(p, INNER_DIGEST, 8, 3, 0);
    LastWord(3, 0);
  }

  lemma Last(p: seq<Octet>)
    requires |p| == 64
    requires Words(p, 0,
                   0xa2e48586, 0x3d27f9d8, 0x64ac8d80, 0x2432a1ed, 0x477d8c4c, 0x6f349d16, 0xd4e7e917, 0xc629cad7,
                   0x80000000, 0x00000000, 0x00000000, 0x00000000, 0x00000000, 0x00000000, 0x00000000, 0x00000300)
    ensures Compress(OUTER, p)
            == Hash(0x5bdcc146, 0xbf60754e, 0x6a042426, 0x089575c7, 0x5a003f08, 0x9d273983, 0x9dec58b9, 0x64ec3843)
  {
    hide Sched, Rounds, Consts;
    NoRounds(OUTER, p);
    Sixteen(p, 0,
            0xa2e48586, 0x3d27f9d8, 0x64ac8d80, 0x2432a1ed, 0x477d8c4c, 0x6f349d16, 0xd4e7e917, 0xc629cad7,
            0x80000000, 0x00000000, 0x00000000, 0x00000000, 0x00000000, 0x00000000, 0x00000000, 0x00000300,
            0xec8d4507, 0x6e44cb58, 0xe57a2e78, 0x1481a913, 0xa0c51e3a, 0x20542d99, 0xc7d6bc99, 0x572ed109,
            0x7832fa16, 0x982a793e, 0x36d9a8b4, 0x1463b3c8, 0x01955976, 0x776eccea, 0x5f84771d, 0x7b31f508);
    Sixteen(p, 16,
            0xec8d4507, 0x6e44cb58, 0xe57a2e78, 0x1481a913, 0xa0c51e3a, 0x20542d99, 0xc7d6bc99, 0x572ed109,
            0x7832fa16, 0x982a793e, 0x36d9a8b4, 0x1463b3c8, 0x01955976, 0x776eccea, 0x5f84771d, 0x7b31f508,
            0xc9f4aee0, 0xd055fb5c, 0x0b79d67f, 0x7fe06bb1, 0x27530bc7, 0x3cdd17eb, 0xd3a5276a, 0xe79ef353,
            0x70708e40, 0x503a442e, 0x8c04f280, 0x60a9ae13, 0x8edf61fe, 0x5a70bc6a, 0x06d8cf63, 0x2866cc9d);
    Sixteen(p, 32,
            0xc9f4aee0, 0xd055fb5c, 0x0b79d67f, 0x7fe06bb1, 0x27530bc7, 0x3cdd17eb, 0xd3a5276a, 0xe79ef353,
            0x70708e40, 0x503a442e, 0x8c04f280, 0x60a9ae13, 0x8edf61fe, 0x5a70bc6a, 0x06d8cf63, 0x2866cc9d,
            0x7608691a, 0xa7182225, 0x1dc70eca, 0x6c947dd1, 0x7c97dcae, 0x7b09005f, 0x19d1e2a0, 0xab60d9da,
            0xac37d412, 0x1236e096, 0x4a8a3d6d, 0xbe58c2f1, 0x53d27161, 0xe25a87a5, 0xb53d7e5f, 0x0828fce9);
    Consts0();
    Eight(OUTER, p, 0,
          0x0eafe3d5, 0x13412e6c, 0x6a6a2feb, 0x2d375acc, 0x51a4fd47, 0x6db095e8, 0x23bfa18a, 0x52f141d5,
          0x428a2f98, 0x71374491, 0xb5c0fbcf, 0xe9b5dba5, 0x3956c25b, 0x59f111f1, 0x923f82a4, 0xab1c5ed5,
          0xa2e48586, 0x3d27f9d8, 0x64ac8d80, 0x2432a1ed, 0x477d8c4c, 0x6f349d16, 0xd4e7e917, 0xc629cad7,
          0xf0e59b1a, 0x74d0a70d, 0x3e39426b, 0x3b3e45a9, 0x13e61c3b, 0xcb506feb, 0x12acdcbb, 0x5d1582d4,
          0x3124ec49, 0xd9d2a173, 0xb4d11325, 0x9b1e98cb, 0x2c0283b8, 0x4790de5c, 0x6939e327, 0xf26e1dc0);
    Consts8();
    Eight(OUTER, p, 8,
          0x5d1582d4, 0x12acdcbb, 0xcb506feb, 0x13e61c3b, 0xf26e1dc0, 0x6939e327, 0x4790de5c, 0x2c0283b8,
          0xd807aa98, 0x12835b01, 0x243185be, 0x550c7dc3, 0x72be5d74, 0x80deb1fe, 0x9bdc06a7, 0xc19bf174,
          0x80000000, 0x00000000, 0x00000000, 0x00000000, 0x00000000, 0x00000000, 0x00000000, 0x00000300,
          0x299dafa1, 0x96690f80, 0x75af6d08, 0x38e7f5bb, 0xb3f53c2a, 0x9af3cfc9, 0x8777eeed, 0x524a1ef8,
          0x8a822374, 0x064b4d17, 0x6d9dc752, 0x97b3f120, 0xac6ca791, 0x661ce7b3, 0x6a605c43, 0x2e2fafb1);
    Consts16();
    Eight(OUTER, p, 16,
          0x524a1ef8, 0x8777eeed, 0x9af3cfc9, 0xb3f53c2a, 0x2e2fafb1, 0x6a605c43, 0x661ce7b3, 0xac6ca791,
          0xe49b69c1, 0xefbe4786, 0x0fc19dc6, 0x240ca1cc, 0x2de92c6f, 0x4a7484aa, 0x5cb0a9dc, 0x76f988da,
          0xec8d4507, 0x6e44cb58, 0xe57a2e78, 0x1481a913, 0xa0c51e3a, 0x20542d99, 0xc7d6bc99, 0x572ed109,
          0x6ab009c8, 0x0b5d65cb, 0xf737884e, 0x14a85bed, 0x28d0682e, 0x513d0d3f, 0xe78abb5d, 0xca1dd9eb,
          0xc1058262, 0xcf16b054, 0x9b3f39bf, 0xda2210a8, 0x4116203c, 0x9d044671, 0x8488c299, 0xf34d277d);
    Consts24();
    Eight(OUTER, p, 24,
          0xca1dd9eb, 0xe78abb5d, 0x513d0d3f, 0x28d0682e, 0xf34d277d, 0x8488c299, 0x9d044671, 0x4116203c,
          0x983e5152, 0xa831c66d, 0xb00327c8, 0xbf597fc7, 0xc6e00bf3, 0xd5a79147, 0x06ca6351, 0x14292967,
          0x7832fa16, 0x982a793e, 0x36d9a8b4, 0x1463b3c8, 0x01955976, 0x776eccea, 0x5f84771d, 0x7b31f508,
          0xaa4cb4b8, 0x80cb7f4b, 0x11668226, 0xf7c152af, 0x804e3e18, 0x88ff9220, 0x6a101e8a, 0xf5637c6b,
          0xc540f9ab, 0x2a7734af, 0x370f480e, 0x322ec278, 0x2b124b23, 0x90550f47, 0xad346d31, 0x36193288);
    Consts32();
    Eight(OUTER, p, 32,
          0xf5637c6b, 0x6a101e8a, 0x88ff9220, 0x804e3e18, 0x36193288, 0xad346d31, 0x90550f47, 0x2b124b23,
          0x27b70a85, 0x2e1b2138, 0x4d2c6dfc, 0x53380d13, 0x650a7354, 0x766a0abb, 0x81c2c92e, 0x92722c85,
          0xc9f4aee0, 0xd055fb5c, 0x0b79d67f, 0x7fe06bb1, 0x27530bc7, 0x3cdd17eb, 0xd3a5276a, 0xe79ef353,
          0xbac40fc4, 0x55d2eba2, 0x342f2c31, 0xb17f8072, 0x3a8a934f, 0x2e42d717, 0x0d153365, 0x0939a676,
          0xbea853de, 0xa3e697be, 0x24b43db1, 0xe1ea1e98, 0x6e0359bc, 0xd54ff5d9, 0x8e8430d5, 0x0015e35d);
    Consts40();
    Eight(OUTER, p, 40,
          0x0939a676, 0x0d153365, 0x2e42d717, 0x3a8a934f, 0x0015e35d, 0x8e8430d5, 0xd54ff5d9, 0x6e0359bc,
          0xa2bfe8a1, 0xa81a664b, 0xc24b8b70, 0xc76c51a3, 0xd192e819, 0xd6990624, 0xf40e3585, 0x106aa070,
          0x70708e40, 0x503a442e, 0x8c04f280, 0x60a9ae13, 0x8edf61fe, 0x5a70bc6a, 0x06d8cf63, 0x2866cc9d,
          0xd04db10e, 0x558052cc, 0xea1d3715, 0x86ed36a6, 0x31c61bbf, 0x0795c206, 0xa4d05bd3, 0x5ab28db9,
          0xa65e9472, 0x7003a10e, 0x23df2e45, 0x09255f8c, 0x9b30b56e, 0xb061e903, 0xc04b2c11, 0x4504e9e3);
    Consts48();
    Eight(OUTER, p, 48,
          0x5ab28db9, 0xa4d05bd3, 0x0795c206, 0x31c61bbf, 0x4504e9e3, 0xc04b2c11, 0xb061e903, 0x9b30b56e,
          0x19a4c116, 0x1e376c08, 0x2748774c, 0x34b0bcb5, 0x391c0cb3, 0x4ed8aa4a, 0x5b9cca4f, 0x682e6ff3,
          0x7608691a, 0xa7182225, 0x1dc70eca, 0x6c947dd1, 0x7c97dcae, 0x7b09005f, 0x19d1e2a0, 0xab60d9da,
          0x4628a95a, 0xd908ac74, 0x11a2ef9d, 0x2e630aba, 0x1eb1f18c, 0x7ffaa436, 0x7e24f1f8, 0x13793033,
          0x800d65f6, 0x1ff07294, 0xe4f56dbc, 0x84aea861, 0xf954931b, 0xee54ab78, 0xfbf6b1b0, 0xbf9e1c90);
    Consts56();
    Eight(OUTER, p, 56,
          0x13793033, 0x7e24f1f8, 0x7ffaa436, 0x1eb1f18c, 0xbf9e1c90, 0xfbf6b1b0, 0xee54ab78, 0xf954931b,
          0x748f82ee, 0x78a5636f, 0x84c87814, 0x8cc70208, 0x90befffa, 0xa4506ceb, 0xbef9a3f7, 0xc67178f2,
          0xac37d412, 0x1236e096, 0x4a8a3d6d, 0xbe58c2f1, 0x53d27161, 0xe25a87a5, 0xb53d7e5f, 0x0828fce9,
          0x56d92dbb, 0x6f544952, 0x989fc133, 0x9b56f73d, 0xdb5e1afb, 0xff99f43b, 0xac1f46e2, 0x4d2cdd71,
          0x548c538d, 0xbbfbaad1, 0x3f0868ad, 0xbf32e36d, 0x11faf66e, 0x7a2cb72f, 0x2f76a39b, 0x085b41c1);
  }

  lemma InnerDigest()
    ensures Digest(XorAll(BlockKey(JEFE), 0x36) + TEXT) == INNER_DIGEST
  {
    hide Words, Compress, Fold, Pad, XorAll, BlockKey, Be64;
    var b := XorAll(BlockKey(JEFE), 0x36);
    PaddedKey(0x36);
    InnerBlock();
    Inner(b);
    TwoBlocks(b, TEXT);
    var p := Pad(b + TEXT)[64..];
    TextBlock(p);
    Text(p);
  }

  lemma HmacOfText()
    ensures HmacOf(JEFE, TEXT)
            == [0x5b, 0xdc, 0xc1, 0x46, 0xbf, 0x60, 0x75, 0x4e, 0x6a, 0x04, 0x24, 0x26, 0x08, 0x95, 0x75, 0xc7,
               0x5a, 0x00, 0x3f, 0x08, 0x9d, 0x27, 0x39, 0x83, 0x9d, 0xec, 0x58, 0xb9, 0x64, 0xec, 0x38, 0x43]
  {
    hide Words, Compress, Fold, Pad, XorAll, BlockKey, Be64, Digest;
    var b := XorAll(BlockKey(JEFE), 0x5c);
    InnerDigest();
    PaddedKey(0x5c);
    OuterBlock();
    Outer(b);
    TwoBlocks(b, INNER_DIGEST);
    var p := Pad(b + INNER_DIGEST)[64..];
    LastBlock(p);
    Last(p);
    LastDigest(b + INNER_DIGEST);
  }

  lemma LastDigest(m: seq<Octet>)
    requires Fold(Pad(m))
             == Hash(0x5bdcc146, 0xbf60754e, 0x6a042426, 0x089575c7, 0x5a003f08, 0x9d273983, 0x9dec58b9, 0x64ec3843)
    ensures Digest(m)
            == [0x5b, 0xdc, 0xc1, 0x46, 0xbf, 0x60, 0x75, 0x4e, 0x6a, 0x04, 0x24, 0x26, 0x08, 0x95, 0x75, 0xc7,
               0x5a, 0x00, 0x3f, 0x08, 0x9d, 0x27, 0x39, 0x83, 0x9d, 0xec, 0x58, 0xb9, 0x64, 0xec, 0x38, 0x43]
  {
    hide Fold, Pad;
  }
}
