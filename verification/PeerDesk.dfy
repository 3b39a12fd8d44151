/** The stream objects of a peer client and the structures that hold them (libpeer/src/libpeer.c): every
    live stream, the sid registry, the pending-work list, the ready list and the accept queue. A stream is
    named by a number, as a pointer would; a number is never used twice. */
module PeerDesk {
  import opened Wire
  import opened Session

  datatype Lp = Lp(sid: Sid, inReg: bool, rbuf: seq<Byte>, wbuf: seq<Byte>, consumePending: nat,
                   eof: bool, reset: bool, appClosed: bool, finSent: bool, protoDone: bool,
                   inPending: bool, inReady: bool, wantWritable: bool)

  /** `handles` are the streams the application was given and has not closed. */
  datatype Desk = Desk(all: map<nat, Lp>, reg: map<Sid, nat>, pending: seq<nat>, ready: seq<nat>, accept: seq<nat>,
                       handles: set<nat>)

  // ---------------------------------------------------------------- invariants

  ghost predicate Distinct(xs: seq<nat>) { forall i, j :: 0 <= i < j < |xs| ==> xs[i] != xs[j] }

  /** The pending list, plus what was detached from it, is exactly the flagged streams. */
  ghost predicate PendingOk(d: Desk, extra: seq<nat>) {
    && Distinct(d.pending + extra)
    && (forall x :: x in d.pending || x in extra <==> x in d.all && d.all[x].inPending)
  }

  ghost predicate ReadyOk(d: Desk) {
    Distinct(d.ready) && (forall x :: x in d.ready <==> x in d.all && d.all[x].inReady)
  }

  /** A stream is the application's until it closes it, or still waits to be accepted. */
  ghost predicate AppOk(d: Desk) {
    && Distinct(d.accept)
    && (forall x :: x in d.handles || x in d.accept <==> x in d.all && !d.all[x].appClosed)
    && (forall x :: x in d.accept ==> x !in d.handles)
  }

  ghost predicate RegOk(d: Desk) {
    && (forall sid :: sid in d.reg ==> d.reg[sid] in d.all && d.all[d.reg[sid]].inReg && d.all[d.reg[sid]].sid == sid)
    && (forall x :: x in d.all && d.all[x].inReg ==> d.all[x].sid in d.reg && d.reg[d.all[x].sid] == x)
  }

  predicate Done(st: Lp) { st.protoDone && st.appClosed }

  /** No zombies: a stream nobody needs any more is on a list whose processing frees it. */
  ghost predicate NoZombieBut(d: Desk, x0: nat) {
    forall x :: x in d.all && x != x0 && Done(d.all[x]) ==> d.all[x].inPending || d.all[x].inReady
  }

  ghost predicate DeskBut(d: Desk, extra: seq<nat>, x0: nat) {
    PendingOk(d, extra) && ReadyOk(d) && AppOk(d) && RegOk(d) && NoZombieBut(d, x0)
  }

  ghost predicate DeskOk(d: Desk, extra: seq<nat>) {
    && PendingOk(d, extra) && ReadyOk(d) && AppOk(d) && RegOk(d)
    && (forall x :: x in d.all && Done(d.all[x]) ==> d.all[x].inPending || d.all[x].inReady)
  }

  // ---------------------------------------------------------------- operations

  /** A stream's fields change, but not its place in the structures. */
  predicate SamePlace(a: Lp, b: Lp) {
    b.sid == a.sid && b.inReg == a.inReg && b.appClosed == a.appClosed && b.inPending == a.inPending
        && b.inReady == a.inReady
  }

  function Put(d: Desk, x: nat, st: Lp): Desk { d.(all := d.all[x := st]) }

  /** No stream but `x` is touched. */
  ghost predicate OthersSame(a: map<nat, Lp>, b: map<nat, Lp>, x: nat) {
    forall y :: y != x ==> (y in b <==> y in a) && (y in a ==> b[y] == a[y])
  }

  lemma OthersRefl(a: map<nat, Lp>, x: nat)
    ensures OthersSame(a, a, x)
  {
  }

  lemma OthersTrans(a: map<nat, Lp>, b: map<nat, Lp>, c: map<nat, Lp>, x: nat)
    requires OthersSame(a, b, x) && OthersSame(b, c, x)
    ensures OthersSame(a, c, x)
  {
  }

  lemma PutOthers(a: map<nat, Lp>, x: nat, st: Lp)
    ensures OthersSame(a, a[x := st], x)
  {
  }

  /** No stream but those listed is touched. */
  ghost predicate RestSame(a: map<nat, Lp>, b: map<nat, Lp>, xs: seq<nat>) {
    forall y :: y !in xs ==> (y in b <==> y in a) && (y in a ==> b[y] == a[y])
  }

  lemma RestMore(a: map<nat, Lp>, b: map<nat, Lp>, c: map<nat, Lp>, xs: seq<nat>, x: nat)
    requires RestSame(a, b, xs) && x in xs && OthersSame(b, c, x)
    ensures RestSame(a, c, xs)
  {
  }

  lemma PutOk(d: Desk, extra: seq<nat>, x: nat, st: Lp, x0: nat)
    requires DeskBut(d, extra, x0) && x in d.all && SamePlace(d.all[x], st) && (x == x0 || Done(st) == Done(d.all[x]))
    ensures DeskBut(Put(d, x, st), extra, x0)
  {
    PutParts(d, extra, x, st);
    hide PendingOk, ReadyOk, AppOk, RegOk;
  }

  /** Which field bears on which structure. */
  lemma PutParts(d: Desk, extra: seq<nat>, x: nat, st: Lp)
    requires x in d.all
    ensures PendingOk(d, extra) && st.inPending == d.all[x].inPending ==> PendingOk(Put(d, x, st), extra)
    ensures ReadyOk(d) && st.inReady == d.all[x].inReady ==> ReadyOk(Put(d, x, st))
    ensures AppOk(d) && st.appClosed == d.all[x].appClosed ==> AppOk(Put(d, x, st))
    ensures RegOk(d) && st.inReg == d.all[x].inReg && st.sid == d.all[x].sid ==> RegOk(Put(d, x, st))
  {
    PutPending(d, extra, x, st);
    PutReady(d, x, st);
    PutApp(d, x, st);
    PutReg(d, x, st);
  }

  lemma PutPending(d: Desk, extra: seq<nat>, x: nat, st: Lp)
    requires x in d.all
    ensures PendingOk(d, extra) && st.inPending == d.all[x].inPending ==> PendingOk(Put(d, x, st), extra)
  {
    hide Distinct;
  }

  lemma PutReady(d: Desk, x: nat, st: Lp)
    requires x in d.all
    ensures ReadyOk(d) && st.inReady == d.all[x].inReady ==> ReadyOk(Put(d, x, st))
  {
    hide Distinct;
  }

  lemma PutApp(d: Desk, x: nat, st: Lp)
    requires x in d.all
    ensures AppOk(d) && st.appClosed == d.all[x].appClosed ==> AppOk(Put(d, x, st))
  {
    hide Distinct;
  }

  lemma PutReg(d: Desk, x: nat, st: Lp)
    requires x in d.all
    ensures RegOk(d) && st.inReg == d.all[x].inReg && st.sid == d.all[x].sid ==> RegOk(Put(d, x, st))
  {
  }

  /** pending_push. */
  function Pushed(d: Desk, x: nat): Desk
    requires x in d.all
  {
    if d.all[x].inPending then d
    else d.(all := d.all[x := d.all[x].(inPending := true)], pending := [x] + d.pending)
  }

  lemma PushedOk(d: Desk, extra: seq<nat>, x: nat)
    requires DeskBut(d, extra, x) && x in d.all
    ensures DeskOk(Pushed(d, x), extra) && x in Pushed(d, x).all && Pushed(d, x).all[x] == d.all[x].(inPending := true)
  {
    var d' := Pushed(d, x);
    if !d.all[x].inPending {
      var st := d.all[x].(inPending := true);
      PutParts(d, extra, x, st);
      PushedPending(d, extra, x);
      SameParts(Put(d, x, st), d');
      hide PendingOk, ReadyOk, AppOk, RegOk;
    }
  }

  lemma PushedPending(d: Desk, extra: seq<nat>, x: nat)
    requires PendingOk(d, extra) && x in d.all && !d.all[x].inPending
    ensures PendingOk(Pushed(d, x), extra)
  {
    DistinctPush(d.pending + extra, x);
    assert Pushed(d, x).pending + extra == [x] + (d.pending + extra);
  }

  lemma SameParts(d: Desk, d': Desk)
    requires d'.all == d.all
    ensures ReadyOk(d) && d'.ready == d.ready ==> ReadyOk(d')
    ensures AppOk(d) && d'.accept == d.accept && d'.handles == d.handles ==> AppOk(d')
    ensures RegOk(d) && d'.reg == d.reg ==> RegOk(d')
  {
    hide Distinct;
  }

  lemma DistinctPush(xs: seq<nat>, x: nat)
    requires Distinct(xs) && x !in xs
    ensures Distinct([x] + xs)
  {
  }

  /** ready_mark: only in poll mode. */
  function Readied(d: Desk, x: nat, poll: bool): Desk
    requires x in d.all
  {
    if !poll || d.all[x].inReady then d
    else d.(all := d.all[x := d.all[x].(inReady := true)], ready := [x] + d.ready)
  }

  lemma ReadiedOk(d: Desk, extra: seq<nat>, x: nat, poll: bool, x0: nat)
    requires DeskBut(d, extra, x0) && x in d.all
    ensures DeskBut(Readied(d, x, poll), extra, x0) && x in Readied(d, x, poll).all
    ensures SameButReady(d.all[x], Readied(d, x, poll).all[x])
  {
    var d' := Readied(d, x, poll);
    if d' != d {
      assert x !in d.ready;
      DistinctPush(d.ready, x);
    }
  }

  lemma ReadiedFields(d: Desk, x: nat, poll: bool)
    requires x in d.all
    ensures var d' := Readied(d, x, poll);
            && x in d'.all && d'.all[x] == d.all[x].(inReady := poll || d.all[x].inReady)
            && OthersSame(d.all, d'.all, x)
  {
  }

  predicate SameButReady(a: Lp, b: Lp) { b == a.(inReady := b.inReady) }

  /** stream_try_free: done on both sides and on no list; it leaves the registry with its cluster intact. */
  predicate MayFree(st: Lp) { Done(st) && !st.inPending && !st.inReady }

  function TryFreed(d: Desk, x: nat): Desk
    requires x in d.all
  {
    if !MayFree(d.all[x]) then d
    else d.(all := d.all - {x}, reg := if d.all[x].inReg then d.reg - {d.all[x].sid} else d.reg)
  }

  /** The single free point: what is freed is referenced from nowhere, and what is done is on a list. */
  lemma TryFreedOk(d: Desk, extra: seq<nat>, x: nat)
    requires DeskBut(d, extra, x) && x in d.all
    ensures var d' := TryFreed(d, x);
            && DeskOk(d', extra)
            && (x !in d'.all ==> Unreferenced(d', extra, x) && Done(d.all[x]))
  {
    hide Distinct;
    var d' := TryFreed(d, x);
    if MayFree(d.all[x]) {
      assert x !in d.pending && x !in extra && x !in d.ready && x !in d.accept && x !in d.handles;
      forall sid | sid in d'.reg ensures d'.reg[sid] != x {
        assert d.reg[sid] in d.all;
      }
    }
  }

  /** In no structure and in nobody's hands. */
  predicate Unreferenced(d: Desk, extra: seq<nat>, x: nat) {
    && x !in d.all && x !in d.pending && x !in extra && x !in d.ready && x !in d.accept && x !in d.handles
    && x !in d.reg.Values
  }

  /** Whatever is not a live stream is referenced from nowhere. */
  lemma NoDangling(d: Desk, extra: seq<nat>, x: nat)
    requires DeskOk(d, extra) && x !in d.all
    ensures Unreferenced(d, extra, x)
  {
    hide Distinct;
  }

  /** stream_new with its entries in the registry and the accept queue. */
  function Entered(d: Desk, x: nat, sid: Sid): Desk {
    d.(all := d.all[x := Lp(sid, true, [], [], 0, false, false, false, false, false, false, false, false)],
       reg := d.reg[sid := x], accept := d.accept + [x])
  }

  lemma EnteredOk(d: Desk, x: nat, sid: Sid)
    requires DeskOk(d, []) && x !in d.all && sid !in d.reg
    ensures DeskOk(Entered(d, x, sid), [])
  {
    NoDangling(d, [], x);
    EnteredApp(d, x, sid);
    EnteredReg(d, x, sid);
    EnteredLists(d, x, sid);
    hide PendingOk, ReadyOk, AppOk, RegOk;
  }

  lemma EnteredApp(d: Desk, x: nat, sid: Sid)
    requires AppOk(d) && x !in d.all && x !in d.accept && x !in d.handles
    ensures AppOk(Entered(d, x, sid))
  {
  }

  lemma EnteredReg(d: Desk, x: nat, sid: Sid)
    requires RegOk(d) && x !in d.all && sid !in d.reg
    ensures RegOk(Entered(d, x, sid))
  {
  }

  lemma EnteredLists(d: Desk, x: nat, sid: Sid)
    requires PendingOk(d, []) && ReadyOk(d) && x !in d.all
    ensures PendingOk(Entered(d, x, sid), []) && ReadyOk(Entered(d, x, sid))
  {
    hide Distinct;
  }

  /** The first of the accept queue goes to the application. */
  function Accepted(d: Desk): Desk
    requires d.accept != []
  {
    d.(accept := d.accept[1..], handles := d.handles + {d.accept[0]})
  }

  lemma AcceptedOk(d: Desk)
    requires DeskOk(d, []) && d.accept != []
    ensures DeskOk(Accepted(d), []) && d.accept[0] in d.all
  {
    var d' := Accepted(d);
    assert d.accept == [d.accept[0]] + d'.accept;
    assert d.accept[0] in d.accept;
  }

  /** lp_close: the application gives its handle up. */
  function Closed(d: Desk, x: nat): Desk
    requires x in d.all
  {
    Pushed(d.(all := d.all[x := d.all[x].(appClosed := true)], handles := d.handles - {x}), x)
  }

  lemma ClosedOk(d: Desk, x: nat)
    requires DeskOk(d, []) && x in d.handles
    ensures x in d.all && DeskOk(Closed(d, x), []) && x !in Closed(d, x).handles
    ensures x in Closed(d, x).all && Closed(d, x).all[x] == d.all[x].(appClosed := true, inPending := true)
  {
    var d1 := d.(all := d.all[x := d.all[x].(appClosed := true)], handles := d.handles - {x});
    assert DeskBut(d1, [], x) by {
      hide Distinct;
    }
    PushedOk(d1, [], x);
  }

  /** The head of the ready list is taken off. */
  function Polled(d: Desk): Desk
    requires d.ready != [] && d.ready[0] in d.all
  {
    d.(all := d.all[d.ready[0] := d.all[d.ready[0]].(inReady := false)], ready := d.ready[1..])
  }

  lemma PolledOk(d: Desk)
    requires DeskOk(d, []) && d.ready != []
    ensures d.ready[0] in d.all && DeskBut(Polled(d), [], d.ready[0])
  {
    var x := d.ready[0];
    assert x in d.ready;
    var d' := Polled(d);
    assert d.ready == [x] + d'.ready;
    assert x !in d'.ready;
  }

  /** The whole pending list is detached. */
  lemma DetachOk(d: Desk)
    requires DeskOk(d, [])
    ensures DeskOk(d.(pending := []), d.pending)
  {
    assert d.pending + [] == d.pending && [] + d.pending == d.pending;
  }

  /** One detached stream comes up for processing. */
  lemma AttendOk(d: Desk, extra: seq<nat>)
    requires DeskOk(d, extra) && extra != [] && d.pending == []
    ensures extra[0] in d.all && d.all[extra[0]].inPending
    ensures DeskBut(Put(d, extra[0], d.all[extra[0]].(inPending := false)), extra[1..], extra[0])
  {
    var x := extra[0];
    assert x in extra;
    PutParts(d, extra, x, d.all[x].(inPending := false));
    hide ReadyOk, AppOk, RegOk;
    AttendPending(d, extra);
  }

  lemma AttendPending(d: Desk, extra: seq<nat>)
    requires PendingOk(d, extra) && extra != [] && d.pending == [] && extra[0] in d.all
    ensures PendingOk(Put(d, extra[0], d.all[extra[0]].(inPending := false)), extra[1..])
  {
    var x := extra[0];
    assert d.pending + extra == extra && [] + extra[1..] == extra[1..];
    assert extra == [x] + extra[1..];
    assert x !in extra[1..];
  }
}
