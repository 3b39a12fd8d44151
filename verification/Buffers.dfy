/** The growable event ring and the compacting output buffer of a session (libmux/src/session.c). */
module Buffers {
  import opened Wire
  import opened Codec
  import opened Session

  /** The `n` elements from `head` on, going round. */
  function Ring<T>(a: seq<T>, head: nat, n: nat): seq<T>
    requires n <= |a| && (head < |a| || n == 0)
  {
    if n == 0 then []
    else if head + n <= |a| then a[head..head + n] else a[head..] + a[..head + n - |a|]
  }

  function Wrap(i: nat, cap: nat): nat { if i < cap then i else i - cap }

  lemma RingAt<T>(a: seq<T>, head: nat, n: nat, i: nat)
    requires n <= |a| && head < |a| && i < n
    ensures Ring(a, head, n)[i] == a[Wrap(head + i, |a|)]
  {
  }

  class EventRing<T> {
    var ev: array<T>
    var head: nat
    var count: nat

    ghost predicate Valid()
      reads this
    {
      count <= ev.Length && (head < ev.Length || (head == 0 && ev.Length == 0))
    }

    /** The queued events, oldest first. */
    ghost function Contents(): seq<T>
      requires Valid()
      reads this, ev
    {
      Ring(ev[..], head, count)
    }

    constructor ()
      ensures Valid() && Contents() == [] && fresh(ev)
    {
      ev := new T[0];
      head, count := 0, 0;
    }

    /** evq_push: first in, first out; a full ring is unrolled into one of twice the size. */
    method Push(e: T)
      requires Valid()
      modifies this, ev
      ensures Valid() && Contents() == old(Contents()) + [e]
      ensures ev == old(ev) || fresh(ev)
    {
      hide Ring;
      ghost var was := Contents();
      if count == ev.Length {
        Unroll(e);
      }
      ghost var a := ev[..];
      var at := Wrap(head + count, ev.Length);
      ev[at] := e;
      count := count + 1;
      assert ev[..] == a[at := e];
      RingPush(a, head, count - 1, e);
    }

    method Unroll(filler: T)
      requires Valid() && count == ev.Length
      modifies this
      ensures Valid() && Contents() == old(Contents()) && count == old(count) && count < ev.Length && fresh(ev)
    {
      var ncap := if ev.Length > 0 then 2 * ev.Length else 64;
      var ne := new T[ncap](_ => filler);
      ghost var was := Contents();
      for i := 0 to count
        invariant ev == old(ev) && count == old(count) && head == old(head) && ev[..] == old(ev[..])
        invariant forall k :: 0 <= k < i ==> ne[k] == was[k]
      {
        RingAt(ev[..], head, count, i);
        ne[i] := ev[Wrap(head + i, ev.Length)];
      }
      ev, head := ne, 0;
      assert ne[..][0..count] == was;
    }

    /** mux_next_event on a non-empty queue. */
    method Pop() returns (e: T)
      requires Valid() && Contents() != []
      modifies this
      ensures Valid() && old(Contents()) == [e] + Contents() && ev == old(ev)
    {
      RingAt(ev[..], head, count, 0);
      RingPop(ev[..], head, count);
      e := ev[head];
      head := Wrap(head + 1, ev.Length);
      count := count - 1;
    }
  }

  lemma RingPush<T>(a: seq<T>, head: nat, n: nat, e: T)
    requires n < |a| && head < |a|
    ensures Ring(a[Wrap(head + n, |a|) := e], head, n + 1) == Ring(a, head, n) + [e]
  {
    var a' := a[Wrap(head + n, |a|) := e];
    var r, r' := Ring(a, head, n) + [e], Ring(a', head, n + 1);
    forall i | 0 <= i < |r| ensures r[i] == r'[i] {
      RingAt(a', head, n + 1, i);
      if i < n {
        RingAt(a, head, n, i);
      }
    }
  }

  lemma RingPop<T>(a: seq<T>, head: nat, n: nat)
    requires 0 < n <= |a| && head < |a|
    ensures Ring(a, head, n) == [a[head]] + Ring(a, Wrap(head + 1, |a|), n - 1)
  {
    var r, r' := Ring(a, head, n), [a[head]] + Ring(a, Wrap(head + 1, |a|), n - 1);
    forall i | 0 <= i < |r| ensures r[i] == r'[i] {
      RingAt(a, head, n, i);
      if i > 0 {
        RingAt(a, Wrap(head + 1, |a|), n - 1, i - 1);
      }
    }
  }

  // ---------------------------------------------------------------- output buffer

  class OutBuf {
    var buf: array<Byte>
    var len: nat
    var spos: nat

    ghost predicate Valid()
      reads this
    {
      spos <= len <= buf.Length
    }

    /** The bytes not yet handed to the transport. */
    ghost function Pending(): seq<Byte>
      requires Valid()
      reads this, buf
    {
      buf[spos..len]
    }

    constructor ()
      ensures Valid() && Pending() == [] && buf.Length == 0 && fresh(buf)
    {
      buf := new Byte[0];
      len, spos := 0, 0;
    }

    /** Move the pending bytes to the front. */
    method Compact()
      requires Valid()
      modifies this, buf
      ensures Valid() && Pending() == old(Pending()) && spos == 0 && buf == old(buf)
    {
      ghost var was := buf[..];
      var n := len - spos;
      for i := 0 to n
        invariant spos == old(spos) && len == old(len) && buf == old(buf)
        invariant forall k :: 0 <= k < i ==> buf[k] == was[spos + k]
        invariant forall k :: i <= k < buf.Length ==> buf[k] == was[k]
      {
        buf[i] := buf[spos + i];
      }
      len, spos := n, 0;
      assert buf[0..len] == was[old(spos)..old(len)];
    }

    /** ob_reserve: room for `need` more bytes, unless that would push the pending bytes past both the
        present buffer and the ceiling (a ceiling of 0 is none). */
    method Reserve(need: nat, limit: nat) returns (ok: bool)
      requires Valid() && need > 0
      modifies this, buf
      ensures Valid() && Pending() == old(Pending()) && (buf == old(buf) || fresh(buf))
      ensures ok <==> limit == 0 || |Pending()| + need <= Max(old(buf.Length), limit)
      ensures ok ==> len + need <= buf.Length
      ensures buf.Length == if ok then GrowTo(old(buf.Length), |Pending()| + need) else old(buf.Length)
    {
      hide GrowTo;
      GrowStep(buf.Length, len - spos + need);
      if len + need <= buf.Length {
        return true;
      }
      if spos > 0 {
        Compact();
        if len + need <= buf.Length {
          return true;
        }
      }
      if limit != 0 && len + need > limit {
        return false;
      }
      Enlarge(need);
      return true;
    }

    /** The doubling loop and the copy. */
    method Enlarge(need: nat)
      requires Valid() && need > 0
      modifies this
      ensures Valid() && Pending() == old(Pending()) && spos == old(spos) && len == old(len)
      ensures fresh(buf) && buf.Length == GrowTo(old(buf.Length), len + need)
    {
      hide GrowTo;
      GrowStep(buf.Length, len + need);
      var ncap := if buf.Length > 0 then buf.Length else 4096;
      while ncap < len + need
        modifies {}
        invariant 0 < ncap && buf.Length <= ncap && GrowTo(ncap, len + need) == GrowTo(buf.Length, len + need)
        decreases len + need - ncap
      {
        GrowStep(ncap, len + need);
        ncap := 2 * ncap;
      }
      GrowStep(ncap, len + need);
      var nb := Copied(buf, ncap);
      SamePart(buf, nb, spos, len);
      buf := nb;
    }

    /** Craft one frame at the end of the buffer. */
    method Append(f: Frame, limit: nat) returns (ok: bool)
      requires Valid()
      modifies this, buf
      ensures Valid() && (buf == old(buf) || fresh(buf))
      ensures ok <==> limit == 0 || |old(Pending())| + HEADER_SIZE + |f.payload| <= Max(old(buf.Length), limit)
      ensures Pending() == if ok then old(Pending()) + Encode(f) else old(Pending())
      ensures buf.Length == if ok then GrowTo(old(buf.Length), |old(Pending())| + HEADER_SIZE + |f.payload|)
                            else old(buf.Length)
    {
      hide Encode, GrowTo;
      ok := Reserve(HEADER_SIZE + |f.payload|, limit);
      if ok {
        ghost var was := buf[..];
        EncodeLength(f);
        var n := Craft(buf, len, buf.Length - len, f.typ, f.flags, f.sid, f.payload);
        len := len + n;
        assert buf[spos..len] == was[spos..len - n] + Encode(f);
      }
    }

    /** mux_send_advance: the host took `n` bytes, or all there are. */
    method Advance(n: nat)
      requires Valid()
      modifies this
      ensures Valid() && Pending() == old(Pending())[Min(n, |old(Pending())|)..] && buf == old(buf)
    {
      var avail := len - spos;
      var m := if n > avail then avail else n;
      spos := spos + m;
      if spos == len {
        spos, len := 0, 0;
      }
    }
  }

  /** realloc: a larger array with the same beginning. */
  method Copied(a: array<Byte>, n: nat) returns (b: array<Byte>)
    requires n >= a.Length
    ensures fresh(b) && b.Length == n && forall i :: 0 <= i < a.Length ==> b[i] == a[i]
  {
    b := new Byte[n](_ => 0);
    for i := 0 to a.Length
      invariant forall k :: 0 <= k < i ==> b[k] == a[k]
    {
      b[i] := a[i];
    }
  }

  lemma SamePart(a: array<Byte>, b: array<Byte>, lo: nat, hi: nat)
    requires lo <= hi <= a.Length <= b.Length && forall i :: 0 <= i < a.Length ==> b[i] == a[i]
    ensures b[lo..hi] == a[lo..hi]
  {
  }

  lemma GrowStep(cap: nat, need: nat)
    requires need > 0
    ensures cap >= need ==> GrowTo(cap, need) == cap
    ensures 0 < cap < need ==> GrowTo(cap, need) == GrowTo(2 * cap, need)
    ensures cap == 0 ==> GrowTo(cap, need) == GrowTo(4096, need)
  {
  }

  lemma EncodeLength(f: Frame)
    ensures |Encode(f)| == HEADER_SIZE + |f.payload|
  {
  }
}
