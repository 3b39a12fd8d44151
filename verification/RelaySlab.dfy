/** The connection slab of the relay and its stream-id table (common/relay.c). The table is grown by the
    slab INDEX being entered, not by how many entries it holds, and is doubled once at a time; it still
    always keeps a free slot, because never-used indices are handed out in ascending order. */
module RelaySlab {
  import opened Commons
  import opened Wire
  import opened Probing
  import opened ProbeMap

  datatype Conn = Conn(used: bool, sid: U32)

  /** The id table as slots: 0 is empty, v + 1 stands for connection v under its stream id. */
  function ViewSlot(v: nat, cs: seq<Conn>): Slot<nat>
    requires v <= |cs|
  {
    if v == 0 then Empty else Used(cs[v - 1].sid, v - 1)
  }

  predicate InRange(m: seq<nat>, n: nat) { forall i :: 0 <= i < |m| ==> m[i] <= n }

  function View(m: seq<nat>, cs: seq<Conn>): (t: seq<Slot<nat>>)
    requires InRange(m, |cs|)
    ensures |t| == |m| && forall i :: 0 <= i < |m| ==> t[i] == ViewSlot(m[i], cs)
  {
    seq(|m|, i requires 0 <= i < |m| => ViewSlot(m[i], cs))
  }

  lemma ViewUpdate(m: seq<nat>, cs: seq<Conn>, i: nat, v: nat)
    requires InRange(m, |cs|) && i < |m| && v <= |cs|
    ensures InRange(m[i := v], |cs|) && View(m[i := v], cs) == View(m, cs)[i := ViewSlot(v, cs)]
  {
  }

  /** A change to connections that are not in the table does not show. */
  lemma ViewSame(m: seq<nat>, cs: seq<Conn>, cs': seq<Conn>)
    requires InRange(m, |cs|) && |cs| <= |cs'|
    requires forall i :: 0 <= i < |m| && m[i] > 0 ==> cs'[m[i] - 1].sid == cs[m[i] - 1].sid
    ensures InRange(m, |cs'|) && View(m, cs') == View(m, cs)
  {
  }

  /** pow2_ceil. */
  method PowCeil(x: nat) returns (p: nat)
    ensures p >= x && p >= 16 && PowerOfTwo(p)
    ensures PowerOfTwo(x) && x >= 16 ==> p == x
    ensures p == 16 || p < 2 * x
  {
    SixtyFour();
    p := 16;
    while p < x
      invariant p >= 16 && PowerOfTwo(p) && (PowerOfTwo(x) && x >= 16 ==> p <= x) && (p == 16 || p < 2 * x)
      decreases x - p
    {
      assert 2 * p / 2 == p;
      if PowerOfTwo(x) && x >= 16 {
        PowersApart(p, x);
      }
      p := 2 * p;
    }
  }

  /** There is no power of two strictly between one and its double. */
  lemma {:induction false} PowersApart(p: nat, x: nat)
    requires PowerOfTwo(p) && PowerOfTwo(x) && p < x
    ensures 2 * p <= x
    decreases p
  {
    if p > 1 {
      PowersApart(p / 2, x / 2);
    }
  }

  /** Probe for the first free slot of an id; one is `bound` probes away. */
  method FreeAt(m: array<nat>, sid: U32, ghost bound: nat) returns (i: nat, ghost k: nat)
    requires bound < m.Length && m[..][Pos(sid, bound, m.Length)] == 0
    ensures k <= bound && i < m.Length && i == Pos(sid, k, m.Length) && m[i] == 0
    ensures forall q :: 0 <= q < k ==> m[..][Pos(sid, q, m.Length)] != 0
  {
    hide Home;
    var cap := m.Length;
    i, k := Home(sid, cap), 0;
    while m[i] != 0
      invariant k <= bound && i < cap && i == Pos(sid, k, cap)
      invariant forall q :: 0 <= q < k ==> m[..][Pos(sid, q, cap)] != 0
      decreases bound - k
    {
      assert m[..][Pos(sid, k, cap)] == m[i];
      PosNext(sid, k, cap);
      i, k := Next(i, cap), k + 1;
    }
  }

  /** The table stands for `live`. */
  ghost predicate Stands(m: seq<nat>, cs: seq<Conn>, dist: map<U32, nat>, live: map<U32, nat>) {
    && |m| > 0 && InRange(m, |cs|) && TableOk(View(m, cs), dist, live)
    && CountUsed(View(m, cs)) == |live| && CountTomb(View(m, cs)) == 0
  }

  /** Entering one more connection in a table with room. */
  method Enter(m: array<nat>, ghost cs: seq<Conn>, sid: U32, idx: nat,
               ghost dist: map<U32, nat>, ghost live: map<U32, nat>) returns (ghost k: nat)
    requires Stands(m[..], cs, dist, live) && |live| < m.Length
    requires idx < |cs| && cs[idx].sid == sid && sid !in live
    modifies m
    ensures Stands(m[..], cs, dist[sid := k], live[sid := idx])
  {
    hide Home, CountUsed, CountTomb, TableOk;
    ghost var t := View(m[..], cs);
    ghost var e := SomeEmpty(t);
    ghost var b := Reaches(Home(sid, m.Length), e, m.Length);
    var i;
    i, k := FreeAt(m, sid, b);
    PlaceOk(t, dist, live, sid, k, idx);
    CountUpdate(t, i, Used(sid, idx));
    var v: nat := idx + 1;
    ViewUpdate(m[..], cs, i, v);
    ghost var was := m[..];
    m[i] := v;
    assert m[..] == was[i := v];
  }

  /** The rehash loop of sidmap_set. */
  method Rehashed(m: array<nat>, conns: array<Conn>, nc: nat, ghost dist: map<U32, nat>, ghost live: map<U32, nat>)
    returns (nm: array<nat>, ghost d: map<U32, nat>)
    requires nc >= 64 && nc >= m.Length
    requires if m.Length == 0 then live == map[] else Stands(m[..], conns[..], dist, live) && |live| < m.Length
    ensures fresh(nm) && nm.Length == nc && Stands(nm[..], conns[..], d, live)
  {
    hide Home, CountUsed, CountTomb, TableOk, Moved, Stands;
    nm := new nat[nc](_ => 0);
    NothingStands(nm[..], conns[..]);
    d := map[];
    if m.Length == 0 {
      return;
    }
    ghost var cs := conns[..];
    ghost var l: map<U32, nat> := map[];
    ghost var t := StandsView(m[..], cs, dist, live);
    MovedNone(t, dist, live);
    for i := 0 to m.Length
      invariant m[..] == old(m[..]) && conns[..] == cs
      invariant Stands(nm[..], cs, d, l) && |l| <= |live| && Moved(t, dist, live, l, i)
    {
      if m[i] == 0 {
        MovedSkip(t, dist, live, l, i);
      } else {
        var v := m[i] - 1;
        MovedFresh(t, dist, live, l, i);
        MovedFewer(t, dist, live, l, i);
        assert t[i] == Used(cs[v].sid, v);
        ghost var k := Enter(nm, cs, conns[v].sid, v, d, l);
        d, l := d[conns[v].sid := k], l[conns[v].sid := v];
        MovedFew(t, dist, live, l, i + 1);
      }
    }
    MovedAll(t, dist, live, l);
  }

  lemma NothingStands(m: seq<nat>, cs: seq<Conn>)
    requires |m| > 0 && forall i :: 0 <= i < |m| ==> m[i] == 0
    ensures Stands(m, cs, map[], map[])
  {
    hide CountUsed, CountTomb, TableOk;
    AllEmpty(View(m, cs));
  }

  lemma StandsView(m: seq<nat>, cs: seq<Conn>, dist: map<U32, nat>, live: map<U32, nat>) returns (t: seq<Slot<nat>>)
    requires Stands(m, cs, dist, live)
    ensures InRange(m, |cs|) && t == View(m, cs) && TableOk(t, dist, live) && |t| == |m|
  {
    hide CountUsed, CountTomb, TableOk;
    t := View(m, cs);
  }

  lemma MovedFew(t: seq<Slot<nat>>, dist: map<U32, nat>, live: map<U32, nat>, l: map<U32, nat>, i: nat)
    requires TableOk(t, dist, live) && Moved(t, dist, live, l, i)
    ensures |l| <= |live|
  {
    hide Home, TableOk;
    assert l.Keys <= live.Keys;
    SubsetSize(l.Keys, live.Keys);
  }

  lemma MovedFewer(t: seq<Slot<nat>>, dist: map<U32, nat>, live: map<U32, nat>, l: map<U32, nat>, i: nat)
    requires TableOk(t, dist, live) && i < |t| && t[i].Used? && t[i].sid !in l && Moved(t, dist, live, l, i)
    ensures |l| < |live|
  {
    hide Home;
    assert l.Keys <= live.Keys - {t[i].sid};
    SubsetSize(l.Keys, live.Keys - {t[i].sid});
  }

  // ---------------------------------------------------------------- lookup and removal

  /** sidmap_get: the probe loop. */
  method Seek(m: array<nat>, conns: array<Conn>, sid: U32, ghost dist: map<U32, nat>, ghost live: map<U32, nat>)
    returns (at: int)
    requires Stands(m[..], conns[..], dist, live)
    ensures if sid in live then 0 <= at < m.Length && m[at] == live[sid] + 1 else at == -1
  {
    hide Home, CountUsed, CountTomb;
    ghost var t := View(m[..], conns[..]);
    var cap := m.Length;
    var i, k := Home(sid, cap), 0;
    while k < cap
      invariant k <= cap && i < cap && (k < cap ==> i == Pos(sid, k, cap))
      invariant forall j :: 0 <= j < k ==> !(t[Pos(sid, j, cap)].Used? && t[Pos(sid, j, cap)].sid == sid)
    {
      assert t[Pos(sid, k, cap)] == ViewSlot(m[i], conns[..]);
      if m[i] == 0 {
        ProbeMiss(t, dist, live, sid, k);
        return -1;
      }
      if conns[m[i] - 1].sid == sid {
        return i;
      }
      if k + 1 < cap {
        PosNext(sid, k, cap);
      }
      i, k := Next(i, cap), k + 1;
    }
    return -1;
  }

  /** sidmap_del: the id goes, and the cluster that follows it is put back entry by entry. */
  method Strike(m: array<nat>, conns: array<Conn>, sid: U32, ghost dist: map<U32, nat>, ghost live: map<U32, nat>)
    returns (ghost d: map<U32, nat>)
    requires Stands(m[..], conns[..], dist, live) && |live| < m.Length
    modifies m
    ensures Stands(m[..], conns[..], d, live - {sid})
  {
    hide Home, CountUsed, CountTomb, TableOk, Gapped, Rank;
    var i := Seek(m, conns, sid, dist, live);
    d := dist;
    if i < 0 {
      assert live - {sid} == live;
      return;
    }
    ghost var t := View(m[..], conns[..]);
    SeekSlot(m[..], conns[..], dist, live, i, sid);
    ghost var e := FirstEmptyAfter(t, i);
    OpenGap(t, dist, live, i, e);
    CountUpdate(t, i, Empty);
    ViewUpdate(m[..], conns[..], i, 0);
    ghost var was := m[..];
    m[i] := 0;
    assert m[..] == was[i := 0];
    RankNext(i, e, m.Length);
    d := Refill(m, conns, Next(i, m.Length), e, dist - {sid}, live - {sid});
  }

  lemma SeekSlot(m: seq<nat>, cs: seq<Conn>, dist: map<U32, nat>, live: map<U32, nat>, i: nat, sid: U32)
    requires Stands(m, cs, dist, live) && sid in live && i < |m| && m[i] == live[sid] + 1
    ensures View(m, cs)[i].Used? && View(m, cs)[i].sid == sid
  {
    hide Home, CountUsed, CountTomb;
    var t := View(m, cs);
    assert t[Pos(sid, dist[sid], |t|)] == Used(sid, live[sid]);
  }

  method Refill(m: array<nat>, conns: array<Conn>, from: nat, ghost e: nat,
                ghost dist: map<U32, nat>, ghost live: map<U32, nat>) returns (ghost d: map<U32, nat>)
    requires InRange(m[..], conns.Length) && e < m.Length && from < m.Length
    requires Gapped(View(m[..], conns[..]), dist, live, e, Rank(from, e, m.Length))
    requires CountUsed(View(m[..], conns[..])) == |live| && CountTomb(View(m[..], conns[..])) == 0
    modifies m
    ensures Stands(m[..], conns[..], d, live)
  {
    hide Home, CountUsed, CountTomb, TableOk, Gapped, Rank;
    var cap := m.Length;
    var j: nat := from;
    d := dist;
    while m[j] != 0
      invariant j < cap && InRange(m[..], conns.Length) && conns[..] == old(conns[..])
      invariant Gapped(View(m[..], conns[..]), d, live, e, Rank(j, e, cap))
      invariant CountUsed(View(m[..], conns[..])) == |live| && CountTomb(View(m[..], conns[..])) == 0
      decreases cap - Rank(j, e, cap)
    {
      d := Reput(m, conns, j, e, d, live);
      RankNext(j, e, cap);
      j := Next(j, cap);
    }
    GapEnds(View(m[..], conns[..]), d, live, e, j);
  }

  lemma HeldChain(m: seq<nat>, cs: seq<Conn>, sid: U32, k: nat)
    requires InRange(m, |cs|) && k < |m| && forall q :: 0 <= q < k ==> m[Pos(sid, q, |m|)] != 0
    ensures Intact(View(m, cs), sid, k)
  {
    hide Home;
  }

  method Reput(m: array<nat>, conns: array<Conn>, j: nat, ghost e: nat,
               ghost dist: map<U32, nat>, ghost live: map<U32, nat>) returns (ghost d: map<U32, nat>)
    requires InRange(m[..], conns.Length) && e < m.Length && j < m.Length && m[j] != 0
    requires Gapped(View(m[..], conns[..]), dist, live, e, Rank(j, e, m.Length))
    requires CountUsed(View(m[..], conns[..])) == |live| && CountTomb(View(m[..], conns[..])) == 0
    modifies m
    ensures InRange(m[..], conns.Length) && j != e && Rank(j, e, m.Length) + 1 < m.Length
    ensures Gapped(View(m[..], conns[..]), d, live, e, Rank(j, e, m.Length) + 1)
    ensures CountUsed(View(m[..], conns[..])) == |live| && CountTomb(View(m[..], conns[..])) == 0
  {
    hide Home, CountUsed, CountTomb, TableOk, Gapped, Rank, Pos;
    ghost var cs, m0 := conns[..], m[..];
    ghost var t := View(m0, cs);
    var v := m[j];
    GapEntry(t, dist, live, e, j);
    m[j] := 0;
    ghost var m1 := m[..];
    assert m1 == m0[j := 0];
    ViewUpdate(m0, cs, j, 0);
    CountUpdate(t, j, Empty);
    assert m[..][Pos(cs[v - 1].sid, dist[cs[v - 1].sid], m.Length)] == 0;
    var i; ghost var k;
    i, k := FreeAt(m, conns[v - 1].sid, dist[conns[v - 1].sid]);
    HeldChain(m1, cs, t[j].sid, k);
    m[i] := v;
    assert m[..] == m1[i := v];
    ViewUpdate(m1, cs, i, v);
    CountUpdate(t[j := Empty], i, t[j]);
    MoveBack(t, dist, live, e, j, k);
    d := dist[t[j].sid := k];
  }

  // ---------------------------------------------------------------- the slab

  /** realloc and memset: the new connections are unused. */
  method Copied(a: array<Conn>, n: nat) returns (b: array<Conn>)
    requires n >= a.Length
    ensures fresh(b) && b.Length == n
    ensures forall i :: 0 <= i < n ==> b[i] == if i < a.Length then a[i] else Conn(false, 0)
  {
    b := new Conn[n](_ => Conn(false, 0));
    for i := 0 to a.Length
      invariant forall k :: 0 <= k < n ==> b[k] == if k < i then a[k] else Conn(false, 0)
    {
      b[i] := a[i];
    }
  }

  /** The new indices, pushed highest first. */
  method Descending(nc: nat, was: nat) returns (nf: array<nat>)
    requires was <= nc
    ensures fresh(nf) && nf.Length == nc && forall k :: 0 <= k < nc - was ==> nf[k] == nc - 1 - k
  {
    nf := new nat[nc](_ => 0);
    var i, n := nc, 0;
    while i > was
      invariant was <= i && n == nc - i && i <= nc
      invariant forall k :: 0 <= k < n ==> nf[k] == nc - 1 - k
    {
      nf[n] := i - 1;
      n, i := n + 1, i - 1;
    }
  }

  /** Indices from `high` on were never handed out and lie at the bottom of the free stack in descending
      order; what was given back lies above them. */
  ghost predicate FreeStack(cs: seq<Conn>, fl: seq<nat>, n: nat, high: nat) {
    && |fl| == |cs| && |cs| - high <= n <= |cs| && high <= |cs|
    && (forall i :: 0 <= i < |cs| - high ==> fl[i] == |cs| - 1 - i)
    && (forall i :: |cs| - high <= i < n ==> fl[i] < high)
    && (forall i, j :: 0 <= i < j < n ==> fl[i] != fl[j])
    && (forall i :: 0 <= i < n ==> !cs[fl[i]].used)
    && (forall c :: high <= c < |cs| ==> !cs[c].used)
  }

  /** The top of the stack is a given-back index or the lowest never used one. */
  lemma PopFree(cs: seq<Conn>, fl: seq<nat>, n: nat, high: nat, sid: U32)
    requires FreeStack(cs, fl, n, high) && n > 0
    ensures var idx := fl[n - 1];
            && idx < |cs| && idx <= high && !cs[idx].used
            && FreeStack(cs[idx := Conn(true, sid)], fl, n - 1, if idx < high then high else idx + 1)
  {
    var idx := fl[n - 1];
    assert idx <= high && idx < |cs|;
    assert forall i :: 0 <= i < n - 1 ==> fl[i] != idx;
  }

  lemma PushFree(cs: seq<Conn>, fl: seq<nat>, n: nat, high: nat, idx: nat)
    requires FreeStack(cs, fl, n, high) && n < |cs| && idx < |cs| && cs[idx].used
    ensures FreeStack(cs[idx := Conn(false, cs[idx].sid)], fl[n := idx], n + 1, high)
  {
    assert idx < high;
    assert forall i :: 0 <= i < n ==> fl[i] != idx;
  }

  class Slab {
    var conns: array<Conn>
    var freelist: array<nat>
    var freeN: nat
    var sidmap: array<nat>
    ghost var live: map<U32, nat>
    ghost var dist: map<U32, nat>
    ghost var high: nat

    ghost predicate FreeOk()
      reads `conns, `freelist, `freeN, `high, conns, freelist
    {
      FreeStack(conns[..], freelist[..], freeN, high)
    }

    /** The table stands for the live connections, all below `mark`, and is at most three quarters of it. */
    ghost predicate MapOk(mark: nat)
      reads `conns, `sidmap, `live, `dist, conns, sidmap
    {
      && (forall sid :: sid in live ==> live[sid] < mark && live[sid] < conns.Length
                                        && conns[live[sid]].used && conns[live[sid]].sid == sid)
      && (if sidmap.Length == 0 then live == map[] && mark == 0
          else Stands(sidmap[..], conns[..], dist, live) && 4 * mark < 3 * sidmap.Length
               && sidmap.Length >= 64 && PowerOfTwo(sidmap.Length))
    }

    ghost predicate Valid()
      reads this, conns, freelist, sidmap
    {
      && FreeOk() && MapOk(high) && freelist != sidmap && |live| == conns.Length - freeN
      && Listed(conns.Length)
    }

    /** Every used connection but `except` is live under its id. */
    ghost predicate Listed(except: nat)
      reads `conns, `live, conns
    {
      forall c :: 0 <= c < conns.Length && c != except && conns[c].used ==>
          conns[c].sid in live && live[conns[c].sid] == c
    }

    constructor ()
      ensures Valid() && live == map[] && fresh(conns) && fresh(freelist) && fresh(sidmap)
    {
      conns := new Conn[0];
      freelist := new nat[0];
      sidmap := new nat[0];
      freeN, high, live, dist := 0, 0, map[], map[];
    }

    /** sidmap_get: agrees with the set of live connections. */
    method Lookup(sid: U32) returns (idx: int)
      requires Valid()
      ensures idx == if sid in live then live[sid] else -1
    {
      hide Stands, PowerOfTwo;
      if sidmap.Length == 0 {
        return -1;
      }
      var at := Seek(sidmap, conns, sid, dist, live);
      return if at < 0 then -1 else sidmap[at] - 1;
    }

    /** conn_alloc, and the id its callers set: never-used indices come out in ascending order, given-back
        ones before them. */
    method Alloc(sid: U32) returns (idx: nat)
      requires FreeOk()
      modifies `conns, `freelist, `freeN, `high, conns, freelist
      ensures FreeOk() && idx <= old(high) && high == (if idx < old(high) then old(high) else idx + 1)
      ensures idx < conns.Length && conns[idx] == Conn(true, sid)
      ensures idx < old(conns.Length) ==> !old(conns[idx].used)
      ensures forall c :: 0 <= c < conns.Length && c != idx ==>
                if c < old(conns.Length) then conns[c] == old(conns[c]) else !conns[c].used
      ensures conns.Length >= old(conns.Length) && conns.Length - freeN == old(conns.Length - freeN) + 1
      ensures (conns == old(conns) || fresh(conns)) && (freelist == old(freelist) || fresh(freelist))
    {
      if freeN == 0 {
        Extend();
      }
      hide FreeStack;
      idx := Take(sid);
    }

    method Take(sid: U32) returns (idx: nat)
      requires FreeOk() && freeN > 0
      modifies `freeN, `high, conns
      ensures FreeOk() && idx <= old(high) && high == (if idx < old(high) then old(high) else idx + 1)
      ensures idx < conns.Length && !old(conns[idx].used) && conns[..] == old(conns[..])[idx := Conn(true, sid)]
      ensures freeN == old(freeN) - 1
    {
      hide FreeStack;
      FreeFacts();
      PopFree(conns[..], freelist[..], freeN, high, sid);
      freeN := freeN - 1;
      idx := freelist[freeN];
      ghost var cs := conns[..];
      conns[idx] := Conn(true, sid);
      assert conns[..] == cs[idx := Conn(true, sid)];
      high := if idx < high then high else idx + 1;
    }

    /** The slab doubles; the new indices are pushed highest first. */
    method Extend()
      requires FreeOk() && freeN == 0
      modifies `conns, `freelist, `freeN
      ensures FreeOk() && freeN > 0 && fresh(conns) && fresh(freelist) && conns.Length > old(conns.Length)
      ensures forall c :: 0 <= c < old(conns.Length) ==> conns[c] == old(conns[c])
      ensures forall c :: old(conns.Length) <= c < conns.Length ==> !conns[c].used
      ensures conns.Length - freeN == old(conns.Length)
    {
      var was := conns.Length;
      var nc := if was > 0 then 2 * was else 64;
      var nco := Copied(conns, nc);
      var nf := Descending(nc, was);
      conns, freelist, freeN := nco, nf, nc - was;
    }

    /** conn_alloc and sidmap_set, as open_backend_conn and accept_public pair them. */
    method Attach(sid: U32) returns (idx: nat)
      requires Valid() && sid !in live
      modifies this, conns, freelist, sidmap
      ensures Valid() && live == old(live)[sid := idx]
      ensures (conns == old(conns) || fresh(conns)) && (freelist == old(freelist) || fresh(freelist))
      ensures sidmap == old(sidmap) || fresh(sidmap)
    {
      hide Stands, PowerOfTwo, Slab.FreeOk, Slab.MapOk;
      ghost var mark := high;
      idx := Reserve(sid);
      Map(sid, idx, mark);
    }

    /** The first half: the connection exists but is not in the table yet. */
    method Reserve(sid: U32) returns (idx: nat)
      requires Valid() && sid !in live
      modifies `conns, `freelist, `freeN, `high, conns, freelist
      ensures FreeOk() && MapOk(old(high)) && Listed(idx) && freelist != sidmap
      ensures |live| + 1 == conns.Length - freeN && |live| <= old(high)
      ensures idx < conns.Length && conns[idx] == Conn(true, sid)
      ensures idx <= old(high) && high == (if idx < old(high) then old(high) else idx + 1)
      ensures (conns == old(conns) || fresh(conns)) && (freelist == old(freelist) || fresh(freelist))
    {
      hide Stands, PowerOfTwo, Slab.FreeOk;
      ghost var mark, cs := high, conns[..];
      FreeFacts();
      idx := Alloc(sid);
      assert forall sid :: sid in live ==> live[sid] < |cs| && live[sid] != idx && conns[live[sid]] == cs[live[sid]];
      StandsSame(cs, idx);
    }

    lemma FreeFacts()
      requires FreeOk()
      ensures freelist.Length == conns.Length && freeN <= conns.Length && conns.Length - freeN <= high <= conns.Length
      ensures forall c :: 0 <= c < conns.Length && conns[c].used ==> c < high
    {
    }

    /** The new connection is not in the table, so the table stands as before. */
    lemma StandsSame(cs: seq<Conn>, idx: nat)
      requires |cs| <= conns.Length && forall c :: 0 <= c < |cs| && c != idx ==> conns[c] == cs[c]
      requires forall sid :: sid in live ==> live[sid] < |cs| && live[sid] != idx
      requires sidmap.Length > 0 ==> Stands(sidmap[..], cs, dist, live)
      ensures sidmap.Length > 0 ==> Stands(sidmap[..], conns[..], dist, live)
    {
      hide Home, CountUsed, CountTomb, PowerOfTwo;
      if sidmap.Length > 0 {
        var m := sidmap[..];
        var t := View(m, cs);
        forall i | 0 <= i < |m| && m[i] > 0 ensures m[i] - 1 != idx {
          assert t[i].Used?;
          assert t[Pos(t[i].sid, dist[t[i].sid], |t|)] == Used(t[i].sid, live[t[i].sid]);
        }
        ViewSame(m, cs, conns[..]);
      }
    }

    /** sidmap_set: doubling once is always enough. */
    method Map(sid: U32, idx: nat, ghost mark: nat)
      requires sid !in live && idx < conns.Length && conns[idx].sid == sid && conns[idx].used
      requires MapOk(mark) && |live| <= mark && idx <= mark
      modifies `sidmap, `dist, `live, sidmap
      ensures MapOk(if idx < mark then mark else idx + 1) && live == old(live)[sid := idx]
      ensures sidmap == old(sidmap) || fresh(sidmap)
    {
      hide Stands, PowerOfTwo;
      if sidmap.Length == 0 || 4 * (idx + 1) >= 3 * sidmap.Length {
        var nc := PowCeil(if sidmap.Length > 0 then 2 * sidmap.Length else 64);
        Doubled(sidmap.Length);
        var nm; ghost var d;
        nm, d := Rehashed(sidmap, conns, nc, dist, live);
        sidmap, dist := nm, d;
      }
      ghost var k := Enter(sidmap, conns[..], sid, idx, dist, live);
      dist, live := dist[sid := k], live[sid := idx];
    }

    /** conn_destroy: sidmap_del and conn_release. */
    method Detach(idx: nat)
      requires Valid() && idx < conns.Length && conns[idx].used
      modifies this, conns, freelist, sidmap
      ensures Valid() && live == old(live) - {old(conns[idx]).sid}
      ensures conns == old(conns) && freelist == old(freelist) && sidmap == old(sidmap)
    {
      hide Stands, PowerOfTwo, Slab.FreeOk;
      FreeFacts();
      Unmap(idx);
      ghost var cs := conns[..];
      Release(idx);
      StandsSame(cs, idx);
    }

    /** sidmap_del of a live connection. */
    method Unmap(idx: nat)
      requires MapOk(high) && Listed(conns.Length) && |live| < sidmap.Length
      requires idx < conns.Length && conns[idx].used
      modifies `dist, `live, sidmap
      ensures MapOk(high) && Listed(idx) && live == old(live) - {conns[idx].sid} && old(conns[idx]).sid in old(live)
      ensures forall sid :: sid in live ==> live[sid] != idx
    {
      hide Stands, PowerOfTwo;
      var sid := conns[idx].sid;
      dist := Strike(sidmap, conns, sid, dist, live);
      live := live - {sid};
    }

    /** conn_release. */
    method Release(idx: nat)
      requires FreeOk() && idx < conns.Length && conns[idx].used && freeN < conns.Length
      modifies `freeN, conns, freelist
      ensures FreeOk() && conns[..] == old(conns[..])[idx := Conn(false, old(conns[idx]).sid)]
              && freeN == old(freeN) + 1
    {
      hide FreeStack;
      FreeFacts();
      PushFree(conns[..], freelist[..], freeN, high, idx);
      ghost var cs, fl := conns[..], freelist[..];
      conns[idx] := conns[idx].(used := false);
      assert conns[..] == cs[idx := Conn(false, cs[idx].sid)];
      freelist[freeN] := idx;
      assert freelist[..] == fl[freeN := idx];
      freeN := freeN + 1;
    }
  }

  lemma Doubled(cap: nat)
    requires cap > 0 ==> PowerOfTwo(cap)
    ensures PowerOfTwo(64) && (cap > 0 ==> PowerOfTwo(2 * cap))
  {
    SixtyFour();
    assert 2 * cap / 2 == cap;
  }
}
