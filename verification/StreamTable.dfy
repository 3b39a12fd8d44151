/** The stream table of a session (libmux/src/session.c): open addressing with tombstones. */
module StreamTable {
  import opened Wire
  import opened Probing

  class Table<V> {
    var slots: array<Slot<V>>
    var count: nat
    var tombs: nat
    ghost var live: map<U32, V>
    ghost var dist: map<U32, nat>

    /** The counters are exact and an empty slot always remains. */
    ghost predicate Valid()
      reads this, slots
    {
      && TableOk(slots[..], dist, live)
      && count == |live| && count == CountUsed(slots[..]) && tombs == CountTomb(slots[..])
      && 4 * (count + tombs) < 3 * slots.Length
      && slots.Length >= 64 && PowerOfTwo(slots.Length)
    }

    /** st_find: the slot of a live stream, or -1. */
    method Find(sid: U32) returns (i: int)
      requires Valid()
      ensures if sid in live then 0 <= i < slots.Length && slots[i] == Used(sid, live[sid]) else i == -1
    {
      hide Home, PowerOfTwo, CountUsed, CountTomb;
      var cap := slots.Length;
      var p := Home(sid, cap);
      var k := 0;
      while k < cap
        invariant k <= cap && p < cap
        invariant k < cap ==> p == Pos(sid, k, cap)
        invariant forall j :: 0 <= j < k ==>
                  !(slots[..][Pos(sid, j, cap)].Used? && slots[..][Pos(sid, j, cap)].sid == sid)
      {
        var e := slots[p];
        assert e == slots[..][Pos(sid, k, cap)];
        if e.Empty? {
          ProbeMiss(slots[..], dist, live, sid, k);
          return -1;
        }
        if e.Used? && e.sid == sid {
          return p;
        }
        if k + 1 < cap {
          PosNext(sid, k, cap);
        }
        p, k := Next(p, cap), k + 1;
      }
      return -1;
    }

    /** A new table of at least `want` slots. */
    constructor (want: nat)
      ensures Valid() && live == map[] && fresh(slots)
    {
      var ncap := DoubleTo(64, want);
      slots := new Slot<V>[ncap](_ => Empty);
      count, tombs := 0, 0;
      live, dist := map[], map[];
      new;
      AllEmpty(slots[..]);
    }

    /** st_grow: rehash into at least `want` slots, dropping the tombstones; the contents stay. */
    method Grow(want: nat)
      requires Valid()
      modifies this
      ensures Valid() && live == old(live) && count == old(count) && tombs == 0
      ensures fresh(slots) && slots.Length >= want && slots.Length >= old(slots.Length)
    {
      hide Home, PowerOfTwo, CountUsed, CountTomb, TableOk;
      var ncap := DoubleTo(slots.Length, want);
      var nt := new Slot<V>[ncap](_ => Empty);
      AllEmpty(nt[..]);
      ghost var d := Rehash(slots, dist, live, nt);
      slots, tombs, dist := nt, 0, d;
    }

    /** st_insert: a record for an absent id, in the first tombstone or empty slot of its chain. The
        "table full" exit of the probe loop is never taken. */
    method Insert(sid: U32, val: V) returns (at: nat)
      requires Valid() && sid !in live
      modifies this, slots
      ensures Valid() && live == old(live)[sid := val] && (slots == old(slots) || fresh(slots))
      ensures at < slots.Length && slots[at] == Used(sid, val)
    {
      if 4 * (count + tombs + 1) >= 3 * slots.Length {
        var want := 2 * (count + 1);
        Grow(if want < 64 then 64 else want);
      }
      at := Place(sid, val);
    }

    method Place(sid: U32, val: V) returns (at: nat)
      requires Valid() && sid !in live && 4 * (count + tombs + 1) < 3 * slots.Length
      modifies this, slots
      ensures Valid() && live == old(live)[sid := val] && slots == old(slots)
      ensures at < slots.Length && slots[at] == Used(sid, val)
    {
      hide Home, PowerOfTwo, CountUsed, CountTomb, TableOk;
      ghost var k;
      at, k := Vacancy(sid);
      PlaceOk(slots[..], dist, live, sid, k, val);
      CountUpdate(slots[..], at, Used(sid, val));
      ghost var t := slots[..];
      if slots[at].Tomb? {
        tombs := tombs - 1;
      }
      slots[at] := Used(sid, val);
      assert slots[..] == t[at := Used(sid, val)];
      count := count + 1;
      dist, live := dist[sid := k], live[sid := val];
    }

    /** The probe loop of st_insert: the first tombstone on the way to the first empty slot, else that
        empty slot. */
    method Vacancy(sid: U32) returns (at: nat, ghost k: nat)
      requires Valid() && sid !in live
      ensures k < slots.Length && at == Pos(sid, k, slots.Length) && at < slots.Length && !slots[at].Used?
      ensures forall q :: 0 <= q < k ==> !slots[..][Pos(sid, q, slots.Length)].Empty?
      ensures forall q :: 0 <= q < k ==> !slots[..][Pos(sid, q, slots.Length)].Tomb?
    {
      hide Home, PowerOfTwo, CountUsed, CountTomb, TableOk;
      var cap := slots.Length;
      ghost var e := SomeEmpty(slots[..]);
      ghost var ke := Reaches(Home(sid, cap), e, cap);
      var i, probes := Home(sid, cap), 0;
      var tomb: int := -1;
      at, k := 0, 0;
      while probes < cap
        invariant probes <= ke && i == Pos(sid, probes, cap) && i < cap
        invariant forall q :: 0 <= q < probes ==> !slots[..][Pos(sid, q, cap)].Empty?
        invariant forall q :: 0 <= q < probes && (tomb >= 0 ==> q < k) ==> !slots[..][Pos(sid, q, cap)].Tomb?
        invariant tomb >= 0 ==> k < probes && tomb == Pos(sid, k, cap) && tomb < cap && slots[tomb].Tomb?
        decreases cap - probes
      {
        assert slots[..][Pos(sid, probes, cap)] == slots[i];
        if slots[i].Empty? {
          if tomb < 0 {
            k := probes;
          }
          at := if tomb >= 0 then tomb else i;
          return;
        }
        if slots[i].Tomb? && tomb < 0 {
          tomb, k := i, probes;
        }
        if probes == ke {
          assert false;
        }
        PosNext(sid, probes, cap);
        i, probes := Next(i, cap), probes + 1;
      }
      assert false;
    }

    /** A field of a record is assigned in place. */
    method Set(i: nat, val: V)
      requires Valid() && i < slots.Length && slots[i].Used?
      modifies slots, this`live
      ensures Valid() && live == old(live)[old(slots[i]).sid := val]
      ensures slots[..] == old(slots[..])[i := Used(old(slots[i]).sid, val)]
    {
      hide Home, PowerOfTwo, CountUsed, CountTomb;
      SetOk(slots[..], dist, live, i, val);
      CountUpdate(slots[..], i, Used(slots[i].sid, val));
      ghost var t := slots[..];
      live := live[slots[i].sid := val];
      slots[i] := Used(slots[i].sid, val);
      assert slots[..] == t[i := slots[i]];
    }

    /** st_remove: the slot becomes a tombstone. */
    method Remove(i: nat)
      requires Valid() && i < slots.Length && slots[i].Used?
      modifies this, slots
      ensures Valid() && live == old(live) - {old(slots[i]).sid} && slots == old(slots)
    {
      hide Home, PowerOfTwo, CountUsed, CountTomb, TableOk;
      TombOk(slots[..], dist, live, i);
      CountUpdate(slots[..], i, Tomb);
      ghost var t, x := slots[..], slots[i].sid;
      slots[i] := Tomb;
      assert slots[..] == t[i := Tomb];
      count, tombs := count - 1, tombs + 1;
      dist, live := dist - {x}, live - {x};
    }
  }
}
