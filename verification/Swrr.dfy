/** Smooth weighted round-robin over the worker pool (edge-peer/router.c). */
module Swrr {
  /** `cw` is the current weight; a worker that is not ready or has weight 0 is passed over. */
  datatype Worker = Worker(ready: bool, weight: nat, cw: int)

  function Share(w: Worker): nat { if w.ready then w.weight else 0 }

  /** The total weight of the eligible workers. */
  function Total(ws: seq<Worker>): nat {
    if ws == [] then 0 else Total(ws[..|ws| - 1]) + Share(ws[|ws| - 1])
  }

  function SumCw(ws: seq<Worker>): int {
    if ws == [] then 0 else SumCw(ws[..|ws| - 1]) + ws[|ws| - 1].cw
  }

  function Bump(w: Worker): Worker { w.(cw := w.cw + Share(w)) }

  function Bumped(ws: seq<Worker>): seq<Worker> {
    seq(|ws|, i requires 0 <= i < |ws| => Bump(ws[i]))
  }

  /** The first of the eligible workers with the largest current weight. */
  predicate Best(ws: seq<Worker>, b: int) {
    && 0 <= b < |ws| && Share(ws[b]) > 0
    && (forall i :: 0 <= i < |ws| && Share(ws[i]) > 0 ==> ws[i].cw <= ws[b].cw)
    && (forall i :: 0 <= i < b && Share(ws[i]) > 0 ==> ws[i].cw < ws[b].cw)
  }

  /** One pick: everyone's current weight rises by its weight, the best is chosen and pays the total. */
  predicate Picks(ws: seq<Worker>, b: int, ws': seq<Worker>) {
    if Total(ws) == 0 then b == -1 && ws' == ws
    else Best(Bumped(ws), b) && ws' == Bumped(ws)[b := Bump(ws[b]).(cw := Bump(ws[b]).cw - Total(ws))]
  }

  /** pick_worker. */
  method PickWorker(wk: array<Worker>) returns (best: int)
    modifies wk
    ensures Picks(old(wk[..]), best, wk[..])
  {
    ghost var ws := wk[..];
    var total := 0;
    var bestCw := 0;
    best := -1;
    for i := 0 to wk.Length
      invariant total == Total(ws[..i]) && -1 <= best < i
      invariant forall k :: i <= k < wk.Length ==> wk[k] == ws[k]
      invariant forall k :: 0 <= k < i ==> wk[k] == Bump(ws[k])
      invariant best < 0 <==> total == 0
      invariant best < 0 ==> forall k :: 0 <= k < i ==> Share(ws[k]) == 0
      invariant best >= 0 ==> Share(ws[best]) > 0 && bestCw == wk[best].cw
      invariant forall k :: 0 <= k < i && Share(ws[k]) > 0 ==> best >= 0 && wk[k].cw <= bestCw
      invariant forall k :: 0 <= k < best && Share(ws[k]) > 0 ==> wk[k].cw < bestCw
    {
      assert ws[..i + 1][..i] == ws[..i];
      if !wk[i].ready || wk[i].weight == 0 {
        continue;
      }
      wk[i] := wk[i].(cw := wk[i].cw + wk[i].weight);
      total := total + wk[i].weight;
      if best < 0 || wk[i].cw > bestCw {
        best, bestCw := i, wk[i].cw;
      }
    }
    assert ws[..wk.Length] == ws;
    if best >= 0 {
      assert wk[..] == Bumped(ws);
      wk[best] := wk[best].(cw := wk[best].cw - total);
    } else {
      assert wk[..] == ws;
    }
  }

  // ---------------------------------------------------------------- runs with a fixed pool

  /** A run of picks, none of them empty-handed. */
  ghost predicate PickRun(ws: seq<Worker>, bs: seq<int>, ws': seq<Worker>)
    decreases |bs|
  {
    if bs == [] then ws' == ws
    else
      var most, last := bs[..|bs| - 1], bs[|bs| - 1];
      exists wm :: PickRun(ws, most, wm) && Picks(wm, last, ws')
  }

  function Count(bs: seq<int>, i: int): nat {
    if bs == [] then 0 else Count(bs[..|bs| - 1], i) + if bs[|bs| - 1] == i then 1 else 0
  }

  /** What worker i is owed: its weight per pick, less the total per time it was chosen. */
  function Owed(n: nat, e: nat, t: nat, c: nat): int { n * e - t * c }

  /** The pool after the picks `bs`, worker i having been chosen `Count(bs, i)` times. */
  ghost predicate After(ws: seq<Worker>, bs: seq<int>, ws': seq<Worker>) {
    && |ws'| == |ws|
    && (forall i :: 0 <= i < |ws| ==> ws'[i].ready == ws[i].ready && ws'[i].weight == ws[i].weight)
    && (forall i :: 0 <= i < |ws| ==> ws'[i].cw == Owed(|bs|, Share(ws[i]), Total(ws), Count(bs, i)))
    && (forall i :: 0 <= i < |ws| ==> ws'[i].cw + Total(ws) > 0 && (Share(ws[i]) == 0 ==> ws'[i].cw == 0))
    && SumCw(ws') == 0
    && (forall k :: 0 <= k < |bs| ==> 0 <= bs[k] < |ws|)
  }

  predicate Rested(ws: seq<Worker>) {
    Total(ws) > 0 && forall i :: 0 <= i < |ws| ==> ws[i].cw == 0
  }

  /** Main invariant: the current weights are exactly what the picks so far owe and are owed; they sum to
      zero, and nobody is ahead of its proportional share by a whole pick. */
  lemma {:induction false} PickInvariant(ws: seq<Worker>, bs: seq<int>, ws': seq<Worker>)
    requires Rested(ws) && PickRun(ws, bs, ws')
    ensures After(ws, bs, ws')
    decreases |bs|
  {
    if bs == [] {
      SumZero(ws);
    } else {
      var wm :| PickRun(ws, bs[..|bs| - 1], wm) && Picks(wm, bs[|bs| - 1], ws');
      PickInvariant(ws, bs[..|bs| - 1], wm);
      PickStep(ws, bs, wm, ws');
    }
  }

  lemma PickStep(ws: seq<Worker>, bs: seq<int>, wm: seq<Worker>, ws': seq<Worker>)
    requires bs != [] && Total(ws) > 0
    requires After(ws, bs[..|bs| - 1], wm) && Picks(wm, bs[|bs| - 1], ws')
    ensures After(ws, bs, ws')
  {
    hide SumCw, Total, Owed;
    var b := bs[|bs| - 1];
    SameTotal(ws, wm);
    SumBumped(wm);
    assert SumCw(Bumped(wm)) == Total(ws);
    SumPositive(Bumped(wm), b);
    SumUpdate(Bumped(wm), b, ws'[b]);
    var n := |bs| - 1;
    forall i | 0 <= i < |ws|
      ensures ws'[i].cw == Owed(|bs|, Share(ws[i]), Total(ws), Count(bs, i)) && ws'[i].cw + Total(ws) > 0
    {
      OwedStep(n, Share(ws[i]), Total(ws), Count(bs[..n], i));
    }
  }

  lemma OwedStep(n: nat, e: nat, t: nat, c: nat)
    ensures Owed(n + 1, e, t, c) == Owed(n, e, t, c) + e && Owed(n, e, t, c + 1) == Owed(n, e, t, c) - t
    ensures Owed(n + 1, e, t, c + 1) == Owed(n, e, t, c) + e - t
  {
  }

  lemma {:induction false} SumZero(ws: seq<Worker>)
    requires forall i :: 0 <= i < |ws| ==> ws[i].cw == 0
    ensures SumCw(ws) == 0
  {
    if ws != [] {
      SumZero(ws[..|ws| - 1]);
    }
  }

  lemma {:induction false} SameTotal(ws: seq<Worker>, ws': seq<Worker>)
    requires |ws'| == |ws|
    requires forall i :: 0 <= i < |ws| ==> ws'[i].ready == ws[i].ready && ws'[i].weight == ws[i].weight
    ensures Total(ws') == Total(ws)
  {
    if ws != [] {
      SameTotal(ws[..|ws| - 1], ws'[..|ws| - 1]);
    }
  }

  lemma {:induction false} SumBumped(ws: seq<Worker>)
    ensures SumCw(Bumped(ws)) == SumCw(ws) + Total(ws)
  {
    if ws != [] {
      SumBumped(ws[..|ws| - 1]);
      assert Bumped(ws)[..|ws| - 1] == Bumped(ws[..|ws| - 1]);
    }
  }

  lemma {:induction false} SumUpdate(ws: seq<Worker>, b: nat, w: Worker)
    requires b < |ws|
    ensures SumCw(ws[b := w]) == SumCw(ws) - ws[b].cw + w.cw
  {
    var n := |ws| - 1;
    if b == n {
      assert ws[b := w][..n] == ws[..n];
    } else {
      SumUpdate(ws[..n], b, w);
      assert ws[b := w][..n] == ws[..n][b := w];
    }
  }

  /** With a positive sum, the best is positive. */
  lemma SumPositive(ws: seq<Worker>, b: int)
    requires Best(ws, b) && SumCw(ws) > 0
    requires forall i :: 0 <= i < |ws| && Share(ws[i]) == 0 ==> ws[i].cw == 0
    ensures ws[b].cw > 0
  {
    if ws[b].cw <= 0 {
      SumNonPositive(ws);
      assert false;
    }
  }

  lemma {:induction false} SumNonPositive(ws: seq<Worker>)
    requires forall i :: 0 <= i < |ws| ==> ws[i].cw <= 0
    ensures SumCw(ws) <= 0
  {
    if ws != [] {
      SumNonPositive(ws[..|ws| - 1]);
    }
  }

  // ---------------------------------------------------------------- fairness

  function SumCount(bs: seq<int>, k: nat): nat {
    if k == 0 then 0 else SumCount(bs, k - 1) + Count(bs, k - 1)
  }

  lemma {:induction false} SumCountMore(bs: seq<int>, k: nat)
    requires bs != []
    ensures SumCount(bs, k) == SumCount(bs[..|bs| - 1], k) + if 0 <= bs[|bs| - 1] < k then 1 else 0
  {
    if k > 0 {
      SumCountMore(bs, k - 1);
    }
  }

  /** Every pick chooses someone. */
  lemma {:induction false} SumCountAll(bs: seq<int>, k: nat)
    requires forall j :: 0 <= j < |bs| ==> 0 <= bs[j] < k
    ensures SumCount(bs, k) == |bs|
    decreases |bs|
  {
    if bs == [] {
      SumCountNone(k);
    } else {
      SumCountMore(bs, k);
      SumCountAll(bs[..|bs| - 1], k);
    }
  }

  lemma {:induction false} SumCountNone(k: nat)
    ensures SumCount([], k) == 0
  {
    if k > 0 {
      SumCountNone(k - 1);
    }
  }

  /** Nobody above its weight and the weights used up: everybody at its weight. */
  lemma {:induction false} Exhausted(ws: seq<Worker>, bs: seq<int>, k: nat)
    requires k <= |ws| && forall i :: 0 <= i < k ==> Count(bs, i) <= Share(ws[i])
    ensures SumCount(bs, k) <= Total(ws[..k])
    ensures SumCount(bs, k) == Total(ws[..k]) ==> forall i :: 0 <= i < k ==> Count(bs, i) == Share(ws[i])
  {
    if k > 0 {
      assert ws[..k][..k - 1] == ws[..k - 1];
      Exhausted(ws, bs, k - 1);
    }
  }

  /** From rest, a round of Total picks chooses every worker exactly its weight in times and leaves the
      pool at rest. */
  lemma RoundIsFair(ws: seq<Worker>, bs: seq<int>, ws': seq<Worker>)
    requires Rested(ws) && PickRun(ws, bs, ws') && |bs| == Total(ws)
    ensures forall i :: 0 <= i < |ws| ==> Count(bs, i) == Share(ws[i])
    ensures ws' == ws
  {
    hide Owed;
    PickInvariant(ws, bs, ws');
    forall i | 0 <= i < |ws| ensures Count(bs, i) <= Share(ws[i]) {
      AtMost(Total(ws), Share(ws[i]), Count(bs, i));
    }
    SumCountAll(bs, |ws|);
    Exhausted(ws, bs, |ws|);
    assert ws[..|ws|] == ws;
    forall i | 0 <= i < |ws| ensures ws'[i] == ws[i] {
      Settled(Total(ws), Share(ws[i]));
    }
  }

  lemma Settled(t: nat, e: nat)
    ensures Owed(t, e, t, e) == 0
  {
  }

  lemma AtMost(t: nat, e: nat, c: nat)
    requires t > 0 && Owed(t, e, t, c) + t > 0
    ensures c <= e
  {
    assert t * (e - c + 1) > 0;
  }

  /** After any number of picks no worker is ahead of its share, |bs| * weight / Total, by a whole pick. */
  lemma NeverAheadByOne(ws: seq<Worker>, bs: seq<int>, ws': seq<Worker>, i: nat)
    requires Rested(ws) && PickRun(ws, bs, ws') && i < |ws|
    ensures Total(ws) * Count(bs, i) < |bs| * Share(ws[i]) + Total(ws)
  {
    PickInvariant(ws, bs, ws');
  }

  // ---------------------------------------------------------------- any window

  /** A pick is determined by the pool. */
  lemma PickDetermined(ws: seq<Worker>, b: int, u: seq<Worker>, c: int, v: seq<Worker>)
    requires Picks(ws, b, u) && Picks(ws, c, v)
    ensures b == c && u == v
  {
  }

  /** The state of a run one round after `n` picks is its state after `n` picks. */
  lemma {:induction false} Periodic(ws: seq<Worker>, bs: seq<int>, n: nat, u: seq<Worker>, v: seq<Worker>)
    requires Rested(ws) && |bs| == n + Total(ws)
    requires PickRun(ws, bs[..n], u) && PickRun(ws, bs, v)
    ensures v == u
    decreases n
  {
    if n == 0 {
      RoundIsFair(ws, bs, v);
    } else {
      var u0 :| PickRun(ws, bs[..n][..n - 1], u0) && Picks(u0, bs[..n][n - 1], u);
      var v0 :| PickRun(ws, bs[..|bs| - 1], v0) && Picks(v0, bs[|bs| - 1], v);
      assert bs[..n][..n - 1] == bs[..|bs| - 1][..n - 1];
      Periodic(ws, bs[..|bs| - 1], n - 1, u0, v0);
      PickDetermined(u0, bs[..n][n - 1], u, bs[|bs| - 1], v);
    }
  }

  lemma {:induction false} RunPrefix(ws: seq<Worker>, bs: seq<int>, n: nat, ws': seq<Worker>) returns (u: seq<Worker>)
    requires PickRun(ws, bs, ws') && n <= |bs|
    ensures PickRun(ws, bs[..n], u)
    decreases |bs|
  {
    if n == |bs| {
      assert bs[..n] == bs;
      u := ws';
    } else {
      var wm :| PickRun(ws, bs[..|bs| - 1], wm) && Picks(wm, bs[|bs| - 1], ws');
      u := RunPrefix(ws, bs[..|bs| - 1], n, wm);
      assert bs[..|bs| - 1][..n] == bs[..n];
    }
  }

  lemma {:induction false} CountConcat(a: seq<int>, b: seq<int>, i: int)
    ensures Count(a + b, i) == Count(a, i) + Count(b, i)
    decreases |b|
  {
    if b == [] {
      assert a + b == a;
    } else {
      assert (a + b)[..|a + b| - 1] == a + b[..|b| - 1];
      CountConcat(a, b[..|b| - 1], i);
    }
  }

  /** Main theorem: in a run from rest, ANY Total consecutive picks choose every worker exactly its
      weight in times. */
  lemma AnyWindowIsFair(ws: seq<Worker>, bs: seq<int>, ws': seq<Worker>, n: nat, i: nat)
    requires Rested(ws) && PickRun(ws, bs, ws') && n + Total(ws) <= |bs| && i < |ws|
    ensures Count(bs[n..n + Total(ws)], i) == Share(ws[i])
  {
    hide Total, Owed, Picks, SumCw;
    var t := Total(ws);
    var cs := bs[..n + t];
    var v := RunPrefix(ws, bs, n + t, ws');
    var u := RunPrefix(ws, cs, n, v);
    Periodic(ws, cs, n, u, v);
    PickInvariant(ws, cs[..n], u);
    PickInvariant(ws, cs, v);
    assert cs == cs[..n] + bs[n..n + t];
    CountConcat(cs[..n], bs[n..n + t], i);
    SameDebt(t, Share(ws[i]), n, Count(cs[..n], i), Count(bs[n..n + t], i));
  }

  lemma SameDebt(t: nat, e: nat, n: nat, c: nat, d: nat)
    requires t > 0 && Owed(n, e, t, c) == Owed(n + t, e, t, c + d)
    ensures d == e
  {
    assert (n + t) * e == n * e + t * e && t * (c + d) == t * c + t * d;
    assert t * (e - d) == 0;
  }

  /** A pick changes current weights only, and picks a ready worker. */
  lemma PickedReady(ws: seq<Worker>, b: int, ws': seq<Worker>)
    requires Picks(ws, b, ws')
    ensures |ws'| == |ws| && b < |ws| && (b >= 0 ==> ws[b].ready)
    ensures forall i :: 0 <= i < |ws| ==> ws'[i].ready == ws[i].ready && ws'[i].weight == ws[i].weight
  {
    hide Total;
  }
}
