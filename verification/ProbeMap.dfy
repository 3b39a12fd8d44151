/** The tombstone-free maps of the router (umap in edge-peer/router.c) and of the peer library (the
    registry in libpeer/src/libpeer.c): open addressing whose deletion re-inserts the cluster that
    follows the removed slot. */
module ProbeMap {
  import opened Commons
  import opened Wire
  import opened Probing

  // ---------------------------------------------------------------- the table seen from an empty slot

  /** Going round from just after `e`, which comes last. No probe chain crosses the empty slot `e`, so
      seen from there the table is a line. */
  function Rank(p: nat, e: nat, cap: nat): nat
    requires p < cap && e < cap
  {
    if p > e then p - e - 1 else p + cap - e - 1
  }

  lemma RankNext(p: nat, e: nat, cap: nat)
    requires p < cap && e < cap && p != e
    ensures Next(p, cap) < cap && Rank(Next(p, cap), e, cap) == Rank(p, e, cap) + 1
  {
  }

  /** The rank of a key's home slot. */
  function HomeRank(sid: U32, e: nat, cap: nat): nat
    requires e < cap
  {
    Rank(Home(sid, cap), e, cap)
  }

  lemma RankPos(sid: U32, k: nat, e: nat, cap: nat)
    requires e < cap && HomeRank(sid, e, cap) + k < cap
    ensures Pos(sid, k, cap) < cap && Rank(Pos(sid, k, cap), e, cap) == HomeRank(sid, e, cap) + k
  {
    hide Home;
  }

  /** A table in the middle of a deletion: the entries ranked below `r` are in order, those from `r` up to
      the empty slot `e` have yet to be re-inserted and may have a hole in their chain. */
  ghost predicate Gapped<V>(t: seq<Slot<V>>, dist: map<U32, nat>, live: map<U32, V>, e: nat, r: nat) {
    && |t| > 0 && e < |t| && r < |t| && t[e].Empty? && dist.Keys == live.Keys
    && (forall sid :: sid in dist ==> HomeRank(sid, e, |t|) + dist[sid] < |t| - 1)
    && (forall sid :: sid in dist ==> Placed(t, sid, dist[sid], live[sid]))
    && (forall i :: 0 <= i < |t| && t[i].Used? ==> t[i].sid in dist && Pos(t[i].sid, dist[t[i].sid], |t|) == i)
    && (forall sid :: sid in dist && HomeRank(sid, e, |t|) + dist[sid] < r ==> Intact(t, sid, dist[sid]))
    && (forall i :: 0 <= i < |t| && r <= Rank(i, e, |t|) < |t| - 1 ==> t[i].Used?)
  }

  ghost predicate Placed<V>(t: seq<Slot<V>>, sid: U32, d: nat, val: V) {
    |t| > 0 && d < |t| && t[Pos(sid, d, |t|)] == Used(sid, val)
  }

  /** No hole on the way from the key's home. */
  ghost predicate Intact<V>(t: seq<Slot<V>>, sid: U32, d: nat) {
    |t| > 0 && d < |t| && forall k :: 0 <= k < d ==> !t[Pos(sid, k, |t|)].Empty?
  }

  /** In an orderly table no chain crosses an empty slot. */
  lemma NoWrap<V>(t: seq<Slot<V>>, dist: map<U32, nat>, live: map<U32, V>, e: nat, sid: U32)
    requires TableOk(t, dist, live) && e < |t| && t[e].Empty? && sid in dist
    ensures HomeRank(sid, e, |t|) + dist[sid] < |t| - 1
    ensures Placed(t, sid, dist[sid], live[sid]) && Intact(t, sid, dist[sid])
  {
    hide Home;
    var k := |t| - 1 - HomeRank(sid, e, |t|);
    if k <= dist[sid] && Pos(sid, k, |t|) == e {
      assert false;
    }
  }

  /** Emptying a slot further on breaks no chain, and moves no other entry. */
  lemma EmptyBeyond<V>(t: seq<Slot<V>>, sid: U32, d: nat, e: nat, i: nat)
    requires e < |t| && i < |t| && HomeRank(sid, e, |t|) + d <= Rank(i, e, |t|) && Intact(t, sid, d)
    ensures Intact(t[i := Empty], sid, d)
  {
    forall k | 0 <= k < d ensures !t[i := Empty][Pos(sid, k, |t|)].Empty? {
      RankPos(sid, k, e, |t|);
    }
  }

  /** Emptying a slot opens the gap right after it. */
  lemma OpenGap<V>(t: seq<Slot<V>>, dist: map<U32, nat>, live: map<U32, V>, i: nat, e: nat)
    requires TableOk(t, dist, live) && i < |t| && t[i].Used? && e < |t| && t[e].Empty?
    requires forall p :: 0 <= p < |t| && Rank(i, e, |t|) < Rank(p, e, |t|) < |t| - 1 ==> t[p].Used?
    ensures Rank(i, e, |t|) < |t| - 1
    ensures Gapped(t[i := Empty], dist - {t[i].sid}, live - {t[i].sid}, e, Rank(i, e, |t|) + 1)
  {
    var t', d' := t[i := Empty], dist - {t[i].sid};
    assert Rank(i, e, |t|) < |t| - 1;
    UsedAreKnown(t, dist, live);
    hide Home, HomeRank, Rank, Pos, TableOk, Intact;
    forall sid | sid in d'
      ensures HomeRank(sid, e, |t|) + d'[sid] < |t| - 1 && Placed(t', sid, d'[sid], live[sid])
      ensures HomeRank(sid, e, |t|) + d'[sid] <= Rank(i, e, |t|) ==> Intact(t', sid, d'[sid])
    {
      NoWrap(t, dist, live, e, sid);
      if HomeRank(sid, e, |t|) + d'[sid] <= Rank(i, e, |t|) {
        EmptyBeyond(t, sid, d'[sid], e, i);
      }
    }
  }

  lemma UsedAreKnown<V>(t: seq<Slot<V>>, dist: map<U32, nat>, live: map<U32, V>)
    requires TableOk(t, dist, live)
    ensures dist.Keys == live.Keys
    ensures forall i :: 0 <= i < |t| && t[i].Used? ==> t[i].sid in dist && Pos(t[i].sid, dist[t[i].sid], |t|) == i
  {
    hide Home;
  }

  /** Re-inserting the entry at slot `j`: it goes to the first free slot of its chain, which is at most
      where it was. */
  lemma MoveBack<V>(t: seq<Slot<V>>, dist: map<U32, nat>, live: map<U32, V>, e: nat, j: nat, k: nat)
    requires j < |t| && e < |t| && Gapped(t, dist, live, e, Rank(j, e, |t|)) && t[j].Used?
    requires k <= dist[t[j].sid] && Intact(t[j := Empty], t[j].sid, k)
    requires t[j := Empty][Pos(t[j].sid, k, |t|)].Empty?
    ensures Rank(j, e, |t|) < |t| - 1
    ensures Gapped(t[j := Empty][Pos(t[j].sid, k, |t|) := t[j]], dist[t[j].sid := k], live, e, Rank(j, e, |t|) + 1)
  {
    hide Home, HomeRank, Rank, Pos, Intact;
    var x, r := t[j].sid, Rank(j, e, |t|);
    RankPos(x, dist[x], e, |t|);
    RankPos(x, k, e, |t|);
    var p := Pos(x, k, |t|);
    var m := t[j := Empty];
    var t', d' := m[p := t[j]], dist[x := k];
    RankDistinct(p, e, |t|);
    forall sid | sid in d'
      ensures HomeRank(sid, e, |t|) + d'[sid] < |t| - 1 && Placed(t', sid, d'[sid], live[sid])
      ensures HomeRank(sid, e, |t|) + d'[sid] <= r ==> Intact(t', sid, d'[sid])
    {
      if sid == x {
        FillKeeps(m, x, k, p, t[j]);
        assert Placed(t, x, dist[x], live[x]);
      } else {
        KeepsPlace(t, dist, live, e, j, p, sid);
      }
    }
    forall i | 0 <= i < |t| && t'[i].Used? ensures t'[i].sid in d' && Pos(t'[i].sid, d'[t'[i].sid], |t|) == i {
      if i != p {
        assert t'[i] == t[i] && i != j;
      }
    }
    forall i | 0 <= i < |t| && r + 1 <= Rank(i, e, |t|) < |t| - 1 ensures t'[i].Used? {
      assert i != j;
    }
  }

  /** An entry other than the moved one stays where it is, and in order if it was. */
  lemma KeepsPlace<V>(t: seq<Slot<V>>, dist: map<U32, nat>, live: map<U32, V>, e: nat, j: nat, p: nat, sid: U32)
    requires j < |t| && e < |t| && Gapped(t, dist, live, e, Rank(j, e, |t|)) && t[j].Used?
    requires sid in dist && sid != t[j].sid && p < |t| && t[j := Empty][p].Empty?
    ensures HomeRank(sid, e, |t|) + dist[sid] < |t| - 1
    ensures var t' := t[j := Empty][p := t[j]];
            && Placed(t', sid, dist[sid], live[sid])
            && (HomeRank(sid, e, |t|) + dist[sid] <= Rank(j, e, |t|) ==> Intact(t', sid, dist[sid]))
  {
    hide Home, HomeRank, Rank, Pos, Intact;
    assert Placed(t, sid, dist[sid], live[sid]);
    RankPos(sid, dist[sid], e, |t|);
    RankDistinct2(Pos(sid, dist[sid], |t|), j, e, |t|);
    if HomeRank(sid, e, |t|) + dist[sid] <= Rank(j, e, |t|) {
      EmptyBeyond(t, sid, dist[sid], e, j);
      FillKeeps(t[j := Empty], sid, dist[sid], p, t[j]);
    }
  }

  lemma RankDistinct(p: nat, e: nat, cap: nat)
    requires p < cap && e < cap
    ensures Rank(p, e, cap) < cap && (Rank(p, e, cap) == cap - 1 <==> p == e)
  {
  }

  lemma RankDistinct2(p: nat, q: nat, e: nat, cap: nat)
    requires p < cap && q < cap && e < cap
    ensures Rank(p, e, cap) == Rank(q, e, cap) <==> p == q
  {
  }

  lemma FillKeeps<V>(t: seq<Slot<V>>, sid: U32, d: nat, p: nat, s: Slot<V>)
    requires Intact(t, sid, d) && p < |t| && s.Used?
    ensures Intact(t[p := s], sid, d)
  {
    hide Home;
  }

  /** With nothing left to re-insert the table is orderly again. */
  lemma CloseGap<V>(t: seq<Slot<V>>, dist: map<U32, nat>, live: map<U32, V>, e: nat, r: nat)
    requires Gapped(t, dist, live, e, r) && r == |t| - 1
    ensures TableOk(t, dist, live)
  {
    hide Home;
    forall sid, k | sid in dist && 0 <= k < dist[sid] ensures !t[Pos(sid, k, |t|)].Empty? {
      assert Intact(t, sid, dist[sid]);
    }
  }

  /** The first empty slot after `i`, going round. */
  lemma FirstEmptyAfter<V>(t: seq<Slot<V>>, i: nat) returns (e: nat)
    requires i < |t| && t[i].Used? && CountUsed(t) + CountTomb(t) < |t| && forall p :: 0 <= p < |t| ==> !t[p].Tomb?
    ensures e < |t| && t[e].Empty?
    ensures forall p :: 0 <= p < |t| && Rank(i, e, |t|) < Rank(p, e, |t|) < |t| - 1 ==> t[p].Used?
  {
    hide CountUsed, CountTomb;
    var cap := |t|;
    var z := SomeEmpty(t);
    var kz := Reaches(i, z, cap);
    var k := 1;
    while t[At(i, k, cap)].Used?
      invariant 1 <= k <= kz
      invariant forall q :: 0 < q < k ==> t[At(i, q, cap)].Used?
      decreases kz - k
    {
      if k == kz {
        assert false;
      }
      k := k + 1;
    }
    e := At(i, k, cap);
    forall p | 0 <= p < cap && Rank(i, e, cap) < Rank(p, e, cap) < cap - 1 ensures t[p].Used? {
      var q := Reaches(i, p, cap);
      assert 0 < q < k;
    }
  }

  // ---------------------------------------------------------------- the map

  class UMap<V> {
    var slots: array<Slot<V>>
    var count: nat
    ghost var live: map<U32, V>
    ghost var dist: map<U32, nat>

    ghost predicate Valid()
      reads this, slots
    {
      && count == |live| && (slots.Length == 0 ==> live == map[])
      && (slots.Length > 0 ==> TableOk(slots[..], dist, live) && Sized())
    }

    /** The counter is exact and the table at most three quarters full. */
    ghost predicate Sized()
      reads this, slots
    {
      && count == CountUsed(slots[..]) && CountTomb(slots[..]) == 0
      && (forall i :: 0 <= i < slots.Length ==> !slots[i].Tomb?)
      && 4 * count < 3 * slots.Length && slots.Length >= 64 && PowerOfTwo(slots.Length)
    }

    constructor ()
      ensures Valid() && live == map[] && fresh(slots)
    {
      slots := new Slot<V>[0];
      count, live, dist := 0, map[], map[];
    }

    /** The slot of a key, or -1. */
    method Locate(key: U32) returns (at: int)
      requires Valid()
      ensures if key in live then 0 <= at < slots.Length && slots[at] == Used(key, live[key]) else at == -1
    {
      hide Home, PowerOfTwo, CountUsed, CountTomb;
      var cap := slots.Length;
      if cap == 0 {
        return -1;
      }
      var i, k := Home(key, cap), 0;
      while k < cap
        invariant k <= cap && i < cap
        invariant k < cap ==> i == Pos(key, k, cap)
        invariant forall j :: 0 <= j < k ==>
                  !(slots[..][Pos(key, j, cap)].Used? && slots[..][Pos(key, j, cap)].sid == key)
      {
        assert slots[i] == slots[..][Pos(key, k, cap)];
        if !slots[i].Used? {
          ProbeMiss(slots[..], dist, live, key, k);
          return -1;
        }
        if slots[i].sid == key {
          return i;
        }
        if k + 1 < cap {
          PosNext(key, k, cap);
        }
        i, k := Next(i, cap), k + 1;
      }
      return -1;
    }

    /** umap_get, reg_get. */
    method Get(key: U32) returns (v: Option<V>)
      requires Valid()
      ensures v == if key in live then Some(live[key]) else None
    {
      hide Home, PowerOfTwo, CountUsed, CountTomb, TableOk;
      var at := Locate(key);
      return if at < 0 then None else Some(slots[at].val);
    }

    /** The probe loop of umap_put: the first slot of the key's chain that is free or holds the key. Some
        slot `bound` probes away is free, so it ends. */
    method Probe(key: U32, ghost bound: nat) returns (i: nat, ghost k: nat)
      requires bound < slots.Length && slots[..][Pos(key, bound, slots.Length)].Empty?
      requires forall p :: 0 <= p < slots.Length ==> !slots[p].Tomb?
      ensures k <= bound && i < slots.Length && i == Pos(key, k, slots.Length)
      ensures slots[i].Empty? || (slots[i].Used? && slots[i].sid == key)
      ensures forall q :: 0 <= q < k ==> slots[..][Pos(key, q, slots.Length)].Used?
                                         && slots[..][Pos(key, q, slots.Length)].sid != key
    {
      hide Home;
      var cap := slots.Length;
      i, k := Home(key, cap), 0;
      while slots[i].Used?
        invariant k <= bound && i < cap && i == Pos(key, k, cap)
        invariant forall q :: 0 <= q < k ==> slots[..][Pos(key, q, cap)].Used? && slots[..][Pos(key, q, cap)].sid != key
        decreases bound - k
      {
        assert slots[..][Pos(key, k, cap)] == slots[i];
        if slots[i].sid == key {
          return;
        }
        PosNext(key, k, cap);
        i, k := Next(i, cap), k + 1;
      }
    }

    /** umap_grow. */
    method Grow(want: nat)
      requires Valid()
      modifies this
      ensures Valid() && live == old(live) && count == old(count) && fresh(slots)
      ensures slots.Length >= want && slots.Length >= 64
    {
      hide Home, PowerOfTwo, CountUsed, CountTomb, TableOk;
      var ncap := DoubleTo(if slots.Length > 0 then slots.Length else 64, want) by { SixtyFour(); }
      var nt := new Slot<V>[ncap](_ => Empty);
      AllEmpty(nt[..]);
      ghost var d := map[];
      if slots.Length > 0 {
        d := Rehash(slots, dist, live, nt);
      }
      slots, dist := nt, d;
    }

    /** The rest of umap_put: the found slot takes the key. */
    method Settle(key: U32, val: V, ghost bound: nat) returns (i: nat, ghost k: nat)
      requires bound < slots.Length && slots[..][Pos(key, bound, slots.Length)].Empty?
      requires forall p :: 0 <= p < slots.Length ==> !slots[p].Tomb?
      modifies slots, this`count
      ensures k <= bound && i < slots.Length && i == Pos(key, k, slots.Length)
      ensures old(slots[i]).Empty? || (old(slots[i]).Used? && old(slots[i]).sid == key)
      ensures forall q :: 0 <= q < k ==> old(slots[..])[Pos(key, q, slots.Length)].Used?
                                         && old(slots[..])[Pos(key, q, slots.Length)].sid != key
      ensures slots[..] == old(slots[..])[i := Used(key, val)]
      ensures count == old(count) + B(old(slots[i]).Empty?)
    {
      hide Home;
      i, k := Probe(key, bound);
      if slots[i].Empty? {
        count := count + 1;
      }
      ghost var t := slots[..];
      slots[i] := Used(key, val);
      assert slots[..] == t[i := Used(key, val)];
    }

    /** umap_put, reg_put: a new or replaced entry; the table grows first when it would get too full. */
    method Put(key: U32, val: V)
      requires Valid()
      modifies this, slots
      ensures Valid() && live == old(live)[key := val] && (slots == old(slots) || fresh(slots))
    {
      hide Home, PowerOfTwo, CountUsed, CountTomb, TableOk;
      if 4 * (count + 1) >= 3 * slots.Length {
        Grow(2 * (count + 1));
      }
      ghost var t := slots[..];
      ghost var e := SomeEmpty(t);
      ghost var b := Reaches(Home(key, slots.Length), e, slots.Length);
      ghost var i, k := Settle(key, val, b);
      CountUpdate(t, i, Used(key, val));
      if t[i].Empty? {
        ProbeMiss(t, dist, live, key, k);
        PlaceOk(t, dist, live, key, k, val);
        dist := dist[key := k];
      } else {
        SetOk(t, dist, live, i, val);
        UsedAreKnown(t, dist, live);
      }
      live := live[key := val];
    }

    /** umap_del, and the removal in stream_try_free: exactly the key goes. The entries of the following
        cluster are put back one by one, each at or before its old slot, and the table never grows. */
    method Del(key: U32)
      requires Valid()
      modifies this, slots
      ensures Valid() && live == old(live) - {key} && slots == old(slots)
      ensures forall x :: x in live && x in dist && x in old(dist) ==> dist[x] <= old(dist)[x]
    {
      hide Home, PowerOfTwo, CountUsed, CountTomb, TableOk, Gapped, Rank;
      var i := Locate(key);
      if i < 0 {
        return;
      }
      ghost var e := FirstEmptyAfter(slots[..], i);
      OpenGap(slots[..], dist, live, i, e);
      CountUpdate(slots[..], i, Empty);
      CountPositive(slots[..], i);
      Clear(i);
      dist, live := dist - {key}, live - {key};
      RankNext(i, e, slots.Length);
      Refill(Next(i, slots.Length), e);
    }

    method Clear(i: nat)
      requires i < slots.Length && slots[i].Used? && count > 0
      modifies slots, this`count
      ensures slots[..] == old(slots[..])[i := Empty] && count == old(count) - 1
    {
      ghost var t := slots[..];
      slots[i] := Empty;
      count := count - 1;
      assert slots[..] == t[i := Empty];
    }

    /** The re-insertion loop. */
    method Refill(from: nat, ghost e: nat)
      requires Sized() && e < slots.Length && from < slots.Length
      requires Gapped(slots[..], dist, live, e, Rank(from, e, slots.Length))
      modifies slots, this`count, this`dist
      ensures Sized() && TableOk(slots[..], dist, live) && count == old(count)
      ensures forall x :: x in live && x in dist && x in old(dist) ==> dist[x] <= old(dist)[x]
    {
      hide Home, PowerOfTwo, CountUsed, CountTomb, TableOk, Gapped, Rank;
      var cap := slots.Length;
      var j: nat := from;
      while slots[j].Used?
        invariant j < cap && Sized() && Gapped(slots[..], dist, live, e, Rank(j, e, cap)) && count == old(count)
        invariant dist.Keys == old(dist).Keys && forall x :: x in dist ==> dist[x] <= old(dist)[x]
        decreases cap - Rank(j, e, cap)
      {
        Reput(j, e);
        RankNext(j, e, cap);
        j := Next(j, cap);
      }
      GapEnds(slots[..], dist, live, e, j);
    }

    /** One entry of the cluster: taken out and put again. */
    method Reput(j: nat, ghost e: nat)
      requires Sized() && e < slots.Length && j < slots.Length && slots[j].Used?
      requires Gapped(slots[..], dist, live, e, Rank(j, e, slots.Length))
      modifies slots, this`count, this`dist
      ensures Sized() && count == old(count) && j != e && Rank(j, e, slots.Length) + 1 < slots.Length
      ensures Gapped(slots[..], dist, live, e, Rank(j, e, slots.Length) + 1)
      ensures dist.Keys == old(dist).Keys && forall x :: x in dist ==> dist[x] <= old(dist)[x]
    {
      hide Home, PowerOfTwo, CountUsed, CountTomb, TableOk, Gapped, Rank, Pos;
      ghost var t := slots[..];
      var s := slots[j];
      GapEntry(t, dist, live, e, j);
      CountUpdate(t, j, Empty);
      CountPositive(t, j);
      Clear(j);
      ghost var m := slots[..];
      assert 4 * (count + 1) < 3 * slots.Length;
      ghost var i, k := Settle(s.sid, s.val, dist[s.sid]);
      GapUnique(t, dist, live, e, j, i);
      CountUpdate(m, i, s);
      MoveBack(t, dist, live, e, j, k);
      dist := dist[s.sid := k];
    }
  }

  lemma GapEntry<V>(t: seq<Slot<V>>, dist: map<U32, nat>, live: map<U32, V>, e: nat, j: nat)
    requires j < |t| && e < |t| && Gapped(t, dist, live, e, Rank(j, e, |t|)) && t[j].Used?
    ensures j != e && t[j].sid in dist && dist[t[j].sid] < |t| && Pos(t[j].sid, dist[t[j].sid], |t|) == j
    ensures t[j].sid in live && live[t[j].sid] == t[j].val
  {
    hide Home;
    assert Placed(t, t[j].sid, dist[t[j].sid], live[t[j].sid]);
  }

  /** No other slot holds the moved key. */
  lemma GapUnique<V>(t: seq<Slot<V>>, dist: map<U32, nat>, live: map<U32, V>, e: nat, j: nat, i: nat)
    requires j < |t| && e < |t| && i < |t| && Gapped(t, dist, live, e, Rank(j, e, |t|)) && t[j].Used?
    ensures !(t[j := Empty][i].Used? && t[j := Empty][i].sid == t[j].sid)
  {
    hide Home, Rank, HomeRank, Intact;
  }

  lemma GapEnds<V>(t: seq<Slot<V>>, dist: map<U32, nat>, live: map<U32, V>, e: nat, j: nat)
    requires j < |t| && e < |t| && Gapped(t, dist, live, e, Rank(j, e, |t|)) && !t[j].Used?
    ensures TableOk(t, dist, live)
  {
    RankDistinct(j, e, |t|);
    hide Home, Rank, HomeRank, Intact, TableOk;
    CloseGap(t, dist, live, e, Rank(j, e, |t|));
  }

  lemma CountPositive<V>(t: seq<Slot<V>>, i: nat)
    requires i < |t| && t[i].Used?
    ensures CountUsed(t) > 0
  {
    hide CountUsed, CountTomb;
    CountUpdate(t, i, Empty);
  }

  lemma SixtyFour()
    ensures PowerOfTwo(64)
  {
    assert PowerOfTwo(2) && PowerOfTwo(4) && PowerOfTwo(8) && PowerOfTwo(16) && PowerOfTwo(32);
  }
}
