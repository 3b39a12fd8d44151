/** Linear probing over a power-of-two table, as used by every id table of the system: what the array
    means as a finite map, and what placing, changing and burying a record do to it. */
module Probing {
  import opened Wire

  datatype Slot<+V> = Empty | Tomb | Used(sid: U32, val: V)

  /** mix_sid, reduced to a table of `cap` slots; `cap` is a power of two, so the mask is a remainder. */
  function Home(sid: U32, cap: nat): (h: nat)
    requires cap > 0
    ensures h < cap
  {
    (sid as int) * 0x9e37_79b9_7f4a_7c15 % 0x1_0000_0000_0000_0000 / 0x1_0000_0000 % cap
  }

  function Next(i: nat, cap: nat): nat { if i + 1 == cap then 0 else i + 1 }

  /** The slot `k` probes after `h`, going round. */
  function At(h: nat, k: nat, cap: nat): nat { if h + k < cap then h + k else h + k - cap }

  function Pos(sid: U32, k: nat, cap: nat): nat
    requires cap > 0
  {
    At(Home(sid, cap), k, cap)
  }

  lemma PosNext(sid: U32, k: nat, cap: nat)
    requires cap > 0 && k + 1 < cap
    ensures Pos(sid, k + 1, cap) == Next(Pos(sid, k, cap), cap)
    ensures Pos(sid, k, cap) < cap
  {
    hide Home;
  }

  predicate PowerOfTwo(n: nat) { n == 1 || (n > 0 && n % 2 == 0 && PowerOfTwo(n / 2)) }

  function B(b: bool): nat { if b then 1 else 0 }

  function CountUsed<V>(t: seq<Slot<V>>): nat {
    if |t| == 0 then 0 else CountUsed(t[..|t| - 1]) + B(t[|t| - 1].Used?)
  }

  function CountTomb<V>(t: seq<Slot<V>>): nat {
    if |t| == 0 then 0 else CountTomb(t[..|t| - 1]) + B(t[|t| - 1].Tomb?)
  }

  lemma {:induction false} CountUpdate<V>(t: seq<Slot<V>>, i: nat, x: Slot<V>)
    requires i < |t|
    ensures CountUsed(t[i := x]) == CountUsed(t) - B(t[i].Used?) + B(x.Used?)
    ensures CountTomb(t[i := x]) == CountTomb(t) - B(t[i].Tomb?) + B(x.Tomb?)
    decreases |t|
  {
    var m := |t| - 1;
    if i == m {
      assert t[i := x][..m] == t[..m];
    } else {
      assert t[i := x][..m] == t[..m][i := x];
      CountUpdate(t[..m], i, x);
    }
  }

  /** Fewer occupied slots than slots: one is empty. */
  lemma {:induction false} SomeEmpty<V>(t: seq<Slot<V>>) returns (i: nat)
    requires CountUsed(t) + CountTomb(t) < |t|
    ensures i < |t| && t[i].Empty?
    decreases |t|
  {
    var m := |t| - 1;
    if t[m].Empty? {
      i := m;
    } else {
      i := SomeEmpty(t[..m]);
    }
  }

  /** The table represents `live`; `dist` is each stream's distance from its home slot. No empty slot
      lies between a stream's home and its slot. */
  ghost predicate TableOk<V>(t: seq<Slot<V>>, dist: map<U32, nat>, live: map<U32, V>) {
    && |t| > 0
    && dist.Keys == live.Keys
    && (forall sid :: sid in dist ==> dist[sid] < |t| && t[Pos(sid, dist[sid], |t|)] == Used(sid, live[sid]))
    && (forall sid, k :: sid in dist && 0 <= k < dist[sid] ==> !t[Pos(sid, k, |t|)].Empty?)
    && (forall i :: 0 <= i < |t| && t[i].Used? ==> t[i].sid in dist && Pos(t[i].sid, dist[t[i].sid], |t|) == i)
  }

  /** A probe that meets an empty slot before the id proves its absence. */
  lemma ProbeMiss<V>(t: seq<Slot<V>>, dist: map<U32, nat>, live: map<U32, V>, sid: U32, k: nat)
    requires TableOk(t, dist, live) && k < |t| && t[Pos(sid, k, |t|)].Empty?
    requires forall j :: 0 <= j < k ==> !(t[Pos(sid, j, |t|)].Used? && t[Pos(sid, j, |t|)].sid == sid)
    ensures sid !in live
  {
    hide Home;
  }

  /** Placing a new id in a free slot of its probe chain adds exactly that id. */
  lemma PlaceOk<V>(t: seq<Slot<V>>, dist: map<U32, nat>, live: map<U32, V>, sid: U32, k: nat, val: V)
    requires TableOk(t, dist, live) && sid !in live && k < |t| && !t[Pos(sid, k, |t|)].Used?
    requires forall j :: 0 <= j < k ==> !t[Pos(sid, j, |t|)].Empty?
    ensures TableOk(t[Pos(sid, k, |t|) := Used(sid, val)], dist[sid := k], live[sid := val])
  {
    hide Home;
    var p := Pos(sid, k, |t|);
    var t', d', l' := t[p := Used(sid, val)], dist[sid := k], live[sid := val];
    forall x, j | x in d' && 0 <= j < d'[x] ensures !t'[Pos(x, j, |t|)].Empty? {
      if x != sid {
        assert !t[Pos(x, j, |t|)].Empty?;
      }
    }
  }

  /** A record changes in place. */
  lemma SetOk<V>(t: seq<Slot<V>>, dist: map<U32, nat>, live: map<U32, V>, i: nat, val: V)
    requires TableOk(t, dist, live) && i < |t| && t[i].Used?
    ensures TableOk(t[i := Used(t[i].sid, val)], dist, live[t[i].sid := val])
  {
    hide Home;
    var t' := t[i := Used(t[i].sid, val)];
    forall x, j | x in dist && 0 <= j < dist[x] ensures !t'[Pos(x, j, |t|)].Empty? {
      assert !t[Pos(x, j, |t|)].Empty?;
    }
  }

  /** A tombstone keeps every other chain unbroken. */
  lemma TombOk<V>(t: seq<Slot<V>>, dist: map<U32, nat>, live: map<U32, V>, i: nat)
    requires TableOk(t, dist, live) && i < |t| && t[i].Used?
    ensures TableOk(t[i := Tomb], dist - {t[i].sid}, live - {t[i].sid}) && t[i].sid in live
  {
    hide Home;
    var t', d' := t[i := Tomb], dist - {t[i].sid};
    forall x, j | x in d' && 0 <= j < d'[x] ensures !t'[Pos(x, j, |t|)].Empty? {
      assert !t[Pos(x, j, |t|)].Empty?;
    }
  }

  /** Going round from any home reaches every slot. */
  lemma Reaches(h: nat, i: nat, cap: nat) returns (k: nat)
    requires h < cap && i < cap
    ensures k < cap && At(h, k, cap) == i
  {
    k := if h <= i then i - h else i + cap - h;
  }

  /** The doubling loops of st_grow. */
  method DoubleTo(cap: nat, want: nat) returns (ncap: nat)
    requires cap >= 64 && PowerOfTwo(cap)
    ensures ncap >= cap && ncap >= want && PowerOfTwo(ncap)
  {
    ncap := cap;
    while ncap < want
      invariant ncap >= cap && PowerOfTwo(ncap)
      decreases want - ncap
    {
      assert 2 * ncap / 2 == ncap;
      ncap := 2 * ncap;
    }
  }

  /** Probe a table without tombstones for the first free slot of an id. */
  method FreeSlot<V>(nt: array<Slot<V>>, sid: U32) returns (j: nat, ghost k: nat)
    requires nt.Length > 0 && CountUsed(nt[..]) + CountTomb(nt[..]) < nt.Length && CountTomb(nt[..]) == 0
    requires forall i :: 0 <= i < nt.Length ==> !nt[i].Tomb?
    ensures k < nt.Length && j == Pos(sid, k, nt.Length) && j < nt.Length && nt[j].Empty?
    ensures forall q :: 0 <= q < k ==> !nt[..][Pos(sid, q, nt.Length)].Empty?
  {
    hide Home, CountUsed, CountTomb;
    var cap := nt.Length;
    ghost var e := SomeEmpty(nt[..]);
    ghost var ke := Reaches(Home(sid, cap), e, cap);
    j := Home(sid, cap);
    k := 0;
    while nt[j].Used?
      invariant k <= ke && j < cap && j == Pos(sid, k, cap)
      invariant forall q :: 0 <= q < k ==> !nt[..][Pos(sid, q, cap)].Empty?
      decreases ke - k
    {
      assert nt[..][Pos(sid, k, cap)] == nt[j];
      if k == ke {
        assert false;
      }
      PosNext(sid, k, cap);
      j, k := Next(j, cap), k + 1;
    }
  }

  /** One record moves into the new table. */
  method MoveIn<V>(nt: array<Slot<V>>, e: Slot<V>, ghost d: map<U32, nat>, ghost l: map<U32, V>) returns (ghost k: nat)
    requires e.Used? && e.sid !in l && TableOk(nt[..], d, l)
    requires CountUsed(nt[..]) < nt.Length && CountTomb(nt[..]) == 0 && forall i :: 0 <= i < nt.Length ==> !nt[i].Tomb?
    modifies nt
    ensures TableOk(nt[..], d[e.sid := k], l[e.sid := e.val])
    ensures CountUsed(nt[..]) == old(CountUsed(nt[..])) + 1 && CountTomb(nt[..]) == 0
    ensures forall i :: 0 <= i < nt.Length ==> !nt[i].Tomb?
  {
    hide Home, CountUsed, CountTomb, TableOk;
    var j;
    j, k := FreeSlot(nt, e.sid);
    assert nt.Length > 0 && |nt[..]| == nt.Length;
    PlaceOk(nt[..], d, l, e.sid, k, e.val);
    CountUpdate(nt[..], j, e);
    ghost var before := nt[..];
    nt[j] := e;
    assert nt[..] == before[j := e];
  }

  /** The rehash loop: every used slot moves, and with it exactly the contents. */
  method Rehash<V>(src: array<Slot<V>>, ghost dist: map<U32, nat>, ghost live: map<U32, V>, nt: array<Slot<V>>)
    returns (ghost d: map<U32, nat>)
    requires src != nt && TableOk(src[..], dist, live) && CountUsed(src[..]) < src.Length <= nt.Length
    requires forall i :: 0 <= i < nt.Length ==> nt[i].Empty?
    modifies nt
    ensures TableOk(nt[..], d, live) && CountUsed(nt[..]) == CountUsed(src[..]) && CountTomb(nt[..]) == 0
    ensures forall i :: 0 <= i < nt.Length ==> !nt[i].Tomb?
  {
    hide Home, TableOk, CountUsed, CountTomb, Moved;
    AllEmpty(nt[..]);
    ghost var t := src[..];
    MovedNone(t, dist, live);
    d := map[];
    ghost var l: map<U32, V> := map[];
    for i := 0 to src.Length
      invariant src[..] == t
      invariant TableOk(nt[..], d, l) && CountTomb(nt[..]) == 0 && CountUsed(nt[..]) == CountUsed(t[..i])
      invariant forall j :: 0 <= j < nt.Length ==> !nt[j].Tomb?
      invariant Moved(t, dist, live, l, i)
    {
      CountSnoc(t, i);
      CountPrefix(t, i + 1);
      if !src[i].Used? {
        MovedSkip(t, dist, live, l, i);
      } else {
        MovedFresh(t, dist, live, l, i);
        ghost var k := MoveIn(nt, src[i], d, l);
        d, l := d[src[i].sid := k], l[src[i].sid := src[i].val];
      }
    }
    assert t[..|t|] == t;
    MovedAll(t, dist, live, l);
  }

  /** The records of the first `i` slots have been moved. */
  ghost predicate Moved<V>(t: seq<Slot<V>>, dist: map<U32, nat>, live: map<U32, V>, l: map<U32, V>, i: nat)
    requires TableOk(t, dist, live)
  {
    && i <= |t|
    && (forall x :: x in l ==> x in live && l[x] == live[x] && Pos(x, dist[x], |t|) < i)
    && (forall j :: 0 <= j < i && t[j].Used? ==> t[j].sid in l)
  }

  lemma MovedNone<V>(t: seq<Slot<V>>, dist: map<U32, nat>, live: map<U32, V>)
    requires TableOk(t, dist, live)
    ensures Moved(t, dist, live, map[], 0) && CountUsed(t[..0]) == 0
  {
  }

  lemma MovedSkip<V>(t: seq<Slot<V>>, dist: map<U32, nat>, live: map<U32, V>, l: map<U32, V>, i: nat)
    requires TableOk(t, dist, live) && i < |t| && !t[i].Used? && Moved(t, dist, live, l, i)
    ensures Moved(t, dist, live, l, i + 1)
  {
    hide Home;
  }

  lemma CountSnoc<V>(t: seq<Slot<V>>, i: nat)
    requires i < |t|
    ensures CountUsed(t[..i + 1]) == CountUsed(t[..i]) + B(t[i].Used?)
  {
    assert t[..i + 1][..i] == t[..i];
  }

  lemma MovedFresh<V>(t: seq<Slot<V>>, dist: map<U32, nat>, live: map<U32, V>, l: map<U32, V>, i: nat)
    requires TableOk(t, dist, live) && i < |t| && t[i].Used? && Moved(t, dist, live, l, i)
    ensures t[i].sid !in l && Moved(t, dist, live, l[t[i].sid := t[i].val], i + 1)
  {
    hide Home;
  }

  lemma MovedAll<V>(t: seq<Slot<V>>, dist: map<U32, nat>, live: map<U32, V>, l: map<U32, V>)
    requires TableOk(t, dist, live) && Moved(t, dist, live, l, |t|)
    ensures l == live
  {
    hide Home;
  }

  /** The ids of the used slots, in table order: the order in which the sweep visits streams. */
  function Order<V>(t: seq<Slot<V>>): seq<U32> {
    if |t| == 0 then []
    else Order(t[..|t| - 1]) + if t[|t| - 1].Used? then [t[|t| - 1].sid] else []
  }

  lemma {:induction false} OrderHas<V>(t: seq<Slot<V>>, sid: U32)
    ensures sid in Order(t) <==> exists i :: 0 <= i < |t| && t[i].Used? && t[i].sid == sid
    decreases |t|
  {
    if |t| > 0 {
      var p := t[..|t| - 1];
      OrderHas(p, sid);
      if i :| 0 <= i < |t| && t[i].Used? && t[i].sid == sid {
        assert i == |t| - 1 || (p[i].Used? && p[i].sid == sid);
      }
      if i :| 0 <= i < |p| && p[i].Used? && p[i].sid == sid {
        assert t[i].Used? && t[i].sid == sid;
      }
    }
  }

  lemma {:induction false} OrderDistinct<V>(t: seq<Slot<V>>)
    requires forall i, j :: 0 <= i < j < |t| && t[i].Used? && t[j].Used? ==> t[i].sid != t[j].sid
    ensures forall i, j :: 0 <= i < j < |Order(t)| ==> Order(t)[i] != Order(t)[j]
    decreases |t|
  {
    if |t| > 0 {
      var p := t[..|t| - 1];
      OrderDistinct(p);
      if t[|t| - 1].Used? {
        OrderHas(p, t[|t| - 1].sid);
      }
    }
  }

  /** Table order visits every live stream exactly once. */
  lemma OrderEnumerates<V>(t: seq<Slot<V>>, dist: map<U32, nat>, live: map<U32, V>)
    requires TableOk(t, dist, live)
    ensures (forall sid :: sid in Order(t) <==> sid in live.Keys)
    ensures forall i, j :: 0 <= i < j < |Order(t)| ==> Order(t)[i] != Order(t)[j]
  {
    hide Home, Order;
    OrderDistinct(t);
    forall sid ensures sid in Order(t) <==> sid in live.Keys {
      OrderHas(t, sid);
    }
  }

  lemma {:induction false} AllEmpty<V>(t: seq<Slot<V>>)
    requires forall i :: 0 <= i < |t| ==> t[i].Empty?
    ensures CountUsed(t) == 0 && CountTomb(t) == 0
    ensures |t| > 0 ==> TableOk(t, map[], map[])
    decreases |t|
  {
    if |t| > 0 {
      AllEmpty(t[..|t| - 1]);
    }
  }

  lemma {:induction false} CountPrefix<V>(t: seq<Slot<V>>, i: nat)
    requires i <= |t|
    ensures CountUsed(t[..i]) <= CountUsed(t)
    decreases |t|
  {
    if i < |t| {
      assert t[..|t| - 1][..i] == t[..i];
      CountPrefix(t[..|t| - 1], i);
    } else {
      assert t[..i] == t;
    }
  }
}
