/** Bank limits: at most `bank` prompt points and as many turn points stay on the device, over the
    running requests and the retained slots together; the oldest go to RAM. */
module Banks {
  import opened Basics
  import opened Snapshots
  import opened DeviceHits
  import opened SlotPool

  function One(p: Point, kind: SnapKind): nat {
    if p.kind == kind then 1 else 0
  }

  /** How many of the first `k` points are of the kind. */
  function Ones(points: seq<Point>, k: nat, kind: SnapKind): nat
    requires k <= |points|
  {
    if k == 0 then 0 else Ones(points, k - 1, kind) + One(points[k - 1], kind)
  }

  /** How many points of the kind the first `k` owners hold. */
  function Total(owners: seq<Retained>, k: nat, kind: SnapKind): nat
    requires k <= |owners|
  {
    if k == 0 then 0 else Total(owners, k - 1, kind) + Count(owners[k - 1], kind)
  }

  function Count(r: Retained, kind: SnapKind): nat {
    Ones(r.points, |r.points|, kind)
  }

  function All(owners: seq<Retained>, kind: SnapKind): nat {
    Total(owners, |owners|, kind)
  }

  lemma {:induction false} OnesSame(a: seq<Point>, b: seq<Point>, k: nat, kind: SnapKind)
    requires k <= |a| && k <= |b| && forall i :: 0 <= i < k ==> a[i] == b[i]
    ensures Ones(a, k, kind) == Ones(b, k, kind)
  {
    if k > 0 {
      OnesSame(a, b, k - 1, kind);
    }
  }

  lemma {:induction false} OnesUpdate(points: seq<Point>, i: nat, x: Point, k: nat, kind: SnapKind)
    requires i < k <= |points|
    ensures Ones(points[i := x], k, kind) + One(points[i], kind) == Ones(points, k, kind) + One(x, kind)
  {
    if i < k - 1 {
      OnesUpdate(points, i, x, k - 1, kind);
    } else {
      OnesSame(points[i := x], points, i, kind);
    }
  }

  lemma OnesRemove(points: seq<Point>, i: nat, kind: SnapKind)
    requires i < |points|
    ensures Ones(SwapRemove(points, i), |points| - 1, kind) + One(points[i], kind) == Ones(points, |points|, kind)
  {
    hide SwapRemove, One;
    var last := |points| - 1;
    var moved, rest := points[i := points[last]], SwapRemove(points, i);
    OnesUpdate(points, i, points[last], |points|, kind);
    OnesSame(rest, moved, last, kind);
    assert Ones(moved, |points|, kind) == Ones(moved, last, kind) + One(points[last], kind);
  }

  lemma {:induction false} TotalSame(a: seq<Retained>, b: seq<Retained>, k: nat, kind: SnapKind)
    requires k <= |a| && k <= |b| && forall i :: 0 <= i < k ==> a[i] == b[i]
    ensures Total(a, k, kind) == Total(b, k, kind)
  {
    if k > 0 {
      TotalSame(a, b, k - 1, kind);
    }
  }

  lemma {:induction false} TotalUpdate(owners: seq<Retained>, i: nat, x: Retained, k: nat, kind: SnapKind)
    requires i < k <= |owners|
    ensures Total(owners[i := x], k, kind) + Count(owners[i], kind) == Total(owners, k, kind) + Count(x, kind)
  {
    hide Count;
    if i < k - 1 {
      TotalUpdate(owners, i, x, k - 1, kind);
    } else {
      TotalSame(owners[i := x], owners, i, kind);
    }
  }

  lemma TotalRemove(owners: seq<Retained>, i: nat, kind: SnapKind)
    requires i < |owners|
    ensures All(SwapRemove(owners, i), kind) + Count(owners[i], kind) == All(owners, kind)
  {
    hide Count;
    var last := |owners| - 1;
    TotalUpdate(owners, i, owners[last], |owners|, kind);
    TotalSame(SwapRemove(owners, i), owners[i := owners[last]], last, kind);
  }

  lemma {:induction false} TotalJoin(a: seq<Retained>, b: seq<Retained>, k: nat, kind: SnapKind)
    requires k <= |b|
    ensures Total(a + b, |a| + k, kind) == All(a, kind) + Total(b, k, kind)
  {
    hide Count;
    if k == 0 {
      TotalSame(a + b, a, |a|, kind);
    } else {
      TotalJoin(a, b, k - 1, kind);
      assert (a + b)[|a| + k - 1] == b[k - 1];
    }
  }

  lemma AllJoin(a: seq<Retained>, b: seq<Retained>, kind: SnapKind)
    ensures All(a + b, kind) == All(a, kind) + All(b, kind)
  {
    TotalJoin(a, b, |b|, kind);
  }

  predicate IsOf(owners: seq<Retained>, kind: SnapKind, oi: nat, pi: nat) {
    oi < |owners| && pi < |owners[oi].points| && owners[oi].points[pi].kind == kind
  }

  /** The least recently used point of the kind, the first of equals, among those before `end`. */
  ghost predicate OldestBefore(owners: seq<Retained>, kind: SnapKind, end: (nat, nat), at: (nat, nat)) {
    && IsOf(owners, kind, at.0, at.1) && Before(at, end)
    && forall oi: nat, pi: nat :: IsOf(owners, kind, oi, pi) && Before((oi, pi), end) ==>
         (HitPoint(owners, at).lastUse <= owners[oi].points[pi].lastUse &&
          (Before((oi, pi), at) ==> HitPoint(owners, at).lastUse < owners[oi].points[pi].lastUse))
  }

  ghost predicate Oldest(owners: seq<Retained>, kind: SnapKind, at: (nat, nat)) {
    OldestBefore(owners, kind, (|owners|, 0), at)
  }

  /** What a scan knows on reaching `end`. */
  ghost predicate Seen(owners: seq<Retained>, kind: SnapKind, end: (nat, nat), any: bool, at: (nat, nat)) {
    if any then OldestBefore(owners, kind, end, at)
    else forall oi: nat, pi: nat :: IsOf(owners, kind, oi, pi) ==> !Before((oi, pi), end)
  }

  lemma SeenStep(owners: seq<Retained>, kind: SnapKind, oi: nat, pi: nat, any: bool, at: (nat, nat))
    requires Seen(owners, kind, (oi, pi), any, at) && oi < |owners| && pi < |owners[oi].points|
    ensures var p := owners[oi].points[pi];
      if p.kind != kind then Seen(owners, kind, (oi, pi + 1), any, at)
      else if !any || p.lastUse < HitPoint(owners, at).lastUse then Seen(owners, kind, (oi, pi + 1), true, (oi, pi))
      else Seen(owners, kind, (oi, pi + 1), true, at)
  {
  }

  lemma SeenInRange(owners: seq<Retained>, kind: SnapKind, end: (nat, nat), at: (nat, nat))
    requires Seen(owners, kind, end, true, at)
    ensures InRange(owners, Some(at))
  {
  }

  lemma SeenNext(owners: seq<Retained>, kind: SnapKind, oi: nat, any: bool, at: (nat, nat))
    requires oi < |owners| && Seen(owners, kind, (oi, |owners[oi].points|), any, at)
    ensures Seen(owners, kind, (oi + 1, 0), any, at)
  {
  }

  /** Count the points of a kind and find the oldest. */
  method Scan(owners: seq<Retained>, kind: SnapKind) returns (count: nat, at: (nat, nat))
    ensures count == All(owners, kind)
    ensures count > 0 ==> Oldest(owners, kind, at)
    ensures count == 0 ==> forall oi: nat, pi: nat :: !IsOf(owners, kind, oi, pi)
  {
    count, at := 0, (0, 0);
    var oi := 0;
    assert Seen(owners, kind, (0, 0), false, at);
    while oi < |owners|
      invariant oi <= |owners| && count == Total(owners, oi, kind)
      invariant Seen(owners, kind, (oi, 0), count > 0, at)
    {
      var partial := ScanOwner(owners, kind, oi, count, at);
      count, at := count + partial.0, partial.1;
      oi := oi + 1;
    }
  }

  method ScanOwner(owners: seq<Retained>, kind: SnapKind, oi: nat, before: nat, at0: (nat, nat)) returns (r: (nat, (nat, nat)))
    requires oi < |owners| && Seen(owners, kind, (oi, 0), before > 0, at0)
    ensures r.0 == Count(owners[oi], kind) && Seen(owners, kind, (oi + 1, 0), before + r.0 > 0, r.1)
  {
    hide Seen, IsOf;
    var count, at := 0, at0;
    var points := owners[oi].points;
    var pi := 0;
    while pi < |points|
      invariant pi <= |points| && count == Ones(points, pi, kind)
      invariant Seen(owners, kind, (oi, pi), before + count > 0, at)
    {
      SeenStep(owners, kind, oi, pi, before + count > 0, at);
      if points[pi].kind == kind {
        if before + count == 0 {
          at := (oi, pi);
        } else {
          SeenInRange(owners, kind, (oi, pi), at);
          if points[pi].lastUse < HitPoint(owners, at).lastUse {
            at := (oi, pi);
          }
        }
        count := count + 1;
      }
      pi := pi + 1;
    }
    SeenNext(owners, kind, oi, before + count > 0, at);
    r := (count, at);
  }

  /** The running requests' slots are out of the pool and hold their points. */
  ghost predicate Running(pool: Pool, running: seq<Retained>)
    reads pool, pool.Kvs(), KvSet(running)
  {
    forall i :: 0 <= i < |running| ==>
      running[i].kv !in pool.Kvs() &&
      Holding(pool.m, pool.argmax, running[i].kv.Value(), running[i].hist, running[i].points)
  }

  /** The same requests, each with some of its points. */
  ghost predicate Fewer(was: seq<Retained>, now: seq<Retained>) {
    && |was| == |now|
    && forall i :: 0 <= i < |now| ==>
         now[i].kv == was[i].kv && now[i].hist == was[i].hist && forall p :: p in now[i].points ==> p in was[i].points
  }

  // ---- Which points leave.

  predicate At(owners: seq<Retained>, oi: nat, pi: nat) {
    oi < |owners| && pi < |owners[oi].points|
  }

  /** The slot still has the point. */
  ghost predicate Held(owners: seq<Retained>, r: Retained, p: Point) {
    exists oi: nat, pi: nat :: At(owners, oi, pi) && owners[oi].kv == r.kv && owners[oi].hist == r.hist && owners[oi].points[pi] == p
  }

  /** Every point of `was` but one is in `now`, and every point of `now` was there. */
  ghost predicate Evicts(was: seq<Retained>, now: seq<Retained>, at: (nat, nat)) {
    && At(was, at.0, at.1)
    && (forall oi: nat, pi: nat :: At(was, oi, pi) ==>
          Held(now, was[oi], was[oi].points[pi]) ||
          (was[oi].kv == was[at.0].kv && was[oi].hist == was[at.0].hist && was[oi].points[pi] == HitPoint(was, at)))
    && (forall oi: nat, pi: nat :: At(now, oi, pi) ==> Held(was, now[oi], now[oi].points[pi]))
  }

  /** Points of the kind have left, none of them used after one that stayed; no other has. */
  ghost predicate OldestLeft(was: seq<Retained>, now: seq<Retained>, kind: SnapKind) {
    && (forall oi: nat, pi: nat :: At(now, oi, pi) ==> Held(was, now[oi], now[oi].points[pi]))
    && (forall oi: nat, pi: nat :: At(was, oi, pi) && was[oi].points[pi].kind != kind ==> Held(now, was[oi], was[oi].points[pi]))
    && UsedBefore(was, now, kind)
  }

  ghost predicate UsedBefore(was: seq<Retained>, now: seq<Retained>, kind: SnapKind) {
    forall oi: nat, pi: nat, oj: nat, pj: nat ::
      IsOf(was, kind, oi, pi) && IsOf(now, kind, oj, pj) && !Held(now, was[oi], was[oi].points[pi]) ==>
        was[oi].points[pi].lastUse <= now[oj].points[pj].lastUse
  }

  /** The points that left are in RAM. */
  ghost predicate LeftToRam(was: seq<Retained>, now: seq<Retained>, ram: seq<Snap>) {
    forall oi: nat, pi: nat :: At(was, oi, pi) && !Held(now, was[oi], was[oi].points[pi]) ==>
      InRam(ram, was[oi].hist, was[oi].points[pi])
  }

  lemma NoneLeft(owners: seq<Retained>, kind: SnapKind, ram: seq<Snap>)
    ensures OldestLeft(owners, owners, kind) && LeftToRam(owners, owners, ram)
  {
  }

  /** What is still held further on was held before, and the other way round. */
  lemma HeldOn(mid: seq<Retained>, now: seq<Retained>, at: (nat, nat), r: Retained, p: Point)
    requires Evicts(mid, now, at)
    ensures Held(mid, r, p) ==>
      Held(now, r, p) || (r.kv == mid[at.0].kv && r.hist == mid[at.0].hist && p == HitPoint(mid, at))
    ensures Held(now, r, p) ==> Held(mid, r, p)
  {
    if Held(mid, r, p) {
      var oi: nat, pi: nat :| At(mid, oi, pi) && mid[oi].kv == r.kv && mid[oi].hist == r.hist && mid[oi].points[pi] == p;
      if Held(now, mid[oi], mid[oi].points[pi]) {
        var oj: nat, pj: nat :| At(now, oj, pj) && now[oj].kv == mid[oi].kv && now[oj].hist == mid[oi].hist && now[oj].points[pj] == p;
      }
    }
    if Held(now, r, p) {
      var oi: nat, pi: nat :| At(now, oi, pi) && now[oi].kv == r.kv && now[oi].hist == r.hist && now[oi].points[pi] == p;
      assert Held(mid, now[oi], now[oi].points[pi]);
      var oj: nat, pj: nat :| At(mid, oj, pj) && mid[oj].kv == now[oi].kv && mid[oj].hist == now[oi].hist && mid[oj].points[pj] == p;
    }
  }

  /** One more of the oldest leaves. */
  lemma OneMoreLeft(was: seq<Retained>, mid: seq<Retained>, now: seq<Retained>, kind: SnapKind, at: (nat, nat))
    requires OldestLeft(was, mid, kind) && Oldest(mid, kind, at) && Evicts(mid, now, at)
    ensures OldestLeft(was, now, kind)
  {
    hide Held;
    forall oi: nat, pi: nat | At(now, oi, pi)
      ensures Held(was, now[oi], now[oi].points[pi])
    {
      HeldBack(was, mid, now[oi], now[oi].points[pi]);
    }
    forall oi: nat, pi: nat | At(was, oi, pi) && was[oi].points[pi].kind != kind
      ensures Held(now, was[oi], was[oi].points[pi])
    {
      HeldOn(mid, now, at, was[oi], was[oi].points[pi]);
    }
    forall oi: nat, pi: nat, oj: nat, pj: nat |
      IsOf(was, kind, oi, pi) && IsOf(now, kind, oj, pj) && !Held(now, was[oi], was[oi].points[pi])
      ensures was[oi].points[pi].lastUse <= now[oj].points[pj].lastUse
    {
      HeldOn(mid, now, at, was[oi], was[oi].points[pi]);
      StillThere(mid, now, at, kind, oj, pj);
    }
  }

  lemma HeldBack(was: seq<Retained>, mid: seq<Retained>, r: Retained, p: Point)
    requires forall oi: nat, pi: nat :: At(mid, oi, pi) ==> Held(was, mid[oi], mid[oi].points[pi])
    requires Held(mid, r, p)
    ensures Held(was, r, p)
  {
    var oi: nat, pi: nat :| At(mid, oi, pi) && mid[oi].kv == r.kv && mid[oi].hist == r.hist && mid[oi].points[pi] == p;
    assert Held(was, mid[oi], mid[oi].points[pi]);
  }

  /** A point of the kind that stays is one of those the oldest was the oldest of. */
  lemma StillThere(mid: seq<Retained>, now: seq<Retained>, at: (nat, nat), kind: SnapKind, oj: nat, pj: nat)
    requires Evicts(mid, now, at) && Oldest(mid, kind, at) && IsOf(now, kind, oj, pj)
    ensures HitPoint(mid, at).lastUse <= now[oj].points[pj].lastUse
    ensures exists oi: nat, pi: nat :: IsOf(mid, kind, oi, pi) && mid[oi].points[pi] == now[oj].points[pj]
  {
    assert At(now, oj, pj);
    assert Held(mid, now[oj], now[oj].points[pj]);
    var oi: nat, pi: nat :| At(mid, oi, pi) && mid[oi].kv == now[oj].kv && mid[oi].hist == now[oj].hist && mid[oi].points[pi] == now[oj].points[pj];
    assert IsOf(mid, kind, oi, pi);
  }

  lemma OneMoreInRam(was: seq<Retained>, mid: seq<Retained>, now: seq<Retained>, at: (nat, nat), ram: seq<Snap>, after: seq<Snap>)
    requires LeftToRam(was, mid, ram) && Evicts(mid, now, at) && Covers(ram, after)
    requires InRam(after, mid[at.0].hist, HitPoint(mid, at))
    ensures LeftToRam(was, now, after)
  {
    hide Held, Covers, InRam;
    forall oi: nat, pi: nat | At(was, oi, pi) && !Held(now, was[oi], was[oi].points[pi])
      ensures InRam(after, was[oi].hist, was[oi].points[pi])
    {
      HeldOn(mid, now, at, was[oi], was[oi].points[pi]);
      if !Held(mid, was[oi], was[oi].points[pi]) {
        StillInRam(ram, after, was[oi].hist, was[oi].points[pi]);
      }
    }
  }

  lemma StillInRam(ram: seq<Snap>, after: seq<Snap>, hist: seq<Token>, p: Point)
    requires InRam(ram, hist, p) && Covers(ram, after)
    ensures InRam(after, hist, p)
  {
    InRamCovers(ram, after, hist, [p]);
    assert [p][0] == p;
  }

  /** Bank after bank. */
  lemma BothBanks(was: seq<Retained>, mid: seq<Retained>, now: seq<Retained>)
    requires OldestLeft(was, mid, Prompt) && OldestLeft(mid, now, Turn)
    ensures forall kind: SnapKind :: UsedBefore(was, now, kind)
  {
    hide Held, OldestLeft;
    forall kind: SnapKind, oi: nat, pi: nat, oj: nat, pj: nat |
      IsOf(was, kind, oi, pi) && IsOf(now, kind, oj, pj) && !Held(now, was[oi], was[oi].points[pi])
      ensures was[oi].points[pi].lastUse <= now[oj].points[pj].lastUse
    {
      if kind == Prompt {
        BothPrompt(was, mid, now, oi, pi, oj, pj);
      } else {
        BothTurn(was, mid, now, oi, pi, oj, pj);
      }
    }
  }

  lemma BothPrompt(was: seq<Retained>, mid: seq<Retained>, now: seq<Retained>, oi: nat, pi: nat, oj: nat, pj: nat)
    requires OldestLeft(was, mid, Prompt) && OldestLeft(mid, now, Turn)
    requires IsOf(was, Prompt, oi, pi) && IsOf(now, Prompt, oj, pj) && !Held(now, was[oi], was[oi].points[pi])
    ensures was[oi].points[pi].lastUse <= now[oj].points[pj].lastUse
  {
    hide Held;
    var r, p := was[oi], was[oi].points[pi];
    assert At(now, oj, pj);
    HeldIn(mid, now[oj], now[oj].points[pj]);
    if Held(mid, r, p) {
      HeldIn(mid, r, p);
      var x: nat, y: nat :| IsOf(mid, Prompt, x, y) && mid[x].kv == r.kv && mid[x].hist == r.hist && mid[x].points[y] == p;
      assert At(mid, x, y);
      HeldSame(now, r, p);
    }
  }

  lemma BothTurn(was: seq<Retained>, mid: seq<Retained>, now: seq<Retained>, oi: nat, pi: nat, oj: nat, pj: nat)
    requires OldestLeft(was, mid, Prompt) && OldestLeft(mid, now, Turn)
    requires IsOf(was, Turn, oi, pi) && IsOf(now, Turn, oj, pj) && !Held(now, was[oi], was[oi].points[pi])
    ensures was[oi].points[pi].lastUse <= now[oj].points[pj].lastUse
  {
    hide Held;
    var r, p := was[oi], was[oi].points[pi];
    assert At(was, oi, pi);
    HeldIn(mid, r, p);
    HeldSame(now, r, p);
  }

  lemma HeldIn(owners: seq<Retained>, r: Retained, p: Point)
    requires Held(owners, r, p)
    ensures exists oi: nat, pi: nat :: IsOf(owners, p.kind, oi, pi) && owners[oi].kv == r.kv && owners[oi].hist == r.hist &&
                                       owners[oi].points[pi] == p
  {
    var oi: nat, pi: nat :| At(owners, oi, pi) && owners[oi].kv == r.kv && owners[oi].hist == r.hist && owners[oi].points[pi] == p;
    assert IsOf(owners, p.kind, oi, pi);
  }

  lemma BothInRam(was: seq<Retained>, mid: seq<Retained>, now: seq<Retained>, ram: seq<Snap>, after: seq<Snap>)
    requires LeftToRam(was, mid, ram) && LeftToRam(mid, now, after) && Covers(ram, after)
    ensures LeftToRam(was, now, after)
  {
    hide Held, Covers, InRam;
    forall oi: nat, pi: nat | At(was, oi, pi) && !Held(now, was[oi], was[oi].points[pi])
      ensures InRam(after, was[oi].hist, was[oi].points[pi])
    {
      var r, p := was[oi], was[oi].points[pi];
      if Held(mid, r, p) {
        HeldIn(mid, r, p);
        HeldSame(now, r, p);
      } else {
        StillInRam(ram, after, r.hist, p);
      }
    }
  }

  lemma HeldSame(now: seq<Retained>, r: Retained, p: Point)
    ensures forall x: Retained :: x.kv == r.kv && x.hist == r.hist ==> (Held(now, x, p) <==> Held(now, r, p))
  {
  }

  lemma Holds(owners: seq<Retained>, oi: nat, pi: nat, r: Retained, p: Point)
    requires At(owners, oi, pi) && owners[oi].kv == r.kv && owners[oi].hist == r.hist && owners[oi].points[pi] == p
    ensures Held(owners, r, p)
  {
  }

  /** Taking a point from one owner. */
  lemma Thins(owners: seq<Retained>, oi: nat, pi: nat)
    requires At(owners, oi, pi)
    ensures Evicts(owners, owners[oi := owners[oi].(points := SwapRemove(owners[oi].points, pi))], (oi, pi))
  {
    hide Held;
    var r := owners[oi];
    var last := |r.points| - 1;
    var now := owners[oi := r.(points := SwapRemove(r.points, pi))];
    forall x: nat, y: nat | At(owners, x, y) && (x != oi || y != pi)
      ensures Held(now, owners[x], owners[x].points[y])
    {
      Holds(now, x, if x == oi && y == last then pi else y, owners[x], owners[x].points[y]);
    }
    forall x: nat, y: nat | At(now, x, y)
      ensures Held(owners, now[x], now[x].points[y])
    {
      Holds(owners, x, if x == oi && y == pi then last else y, now[x], now[x].points[y]);
    }
  }

  /** The owner goes with its last point. */
  lemma ThinsAway(owners: seq<Retained>, oi: nat, pi: nat)
    requires At(owners, oi, pi) && |owners[oi].points| == 1
    ensures Evicts(owners, SwapRemove(owners, oi), (oi, pi))
  {
    hide Held;
    var last := |owners| - 1;
    var now := SwapRemove(owners, oi);
    forall x: nat, y: nat | At(owners, x, y) && x != oi
      ensures Held(now, owners[x], owners[x].points[y])
    {
      Holds(now, if x == last then oi else x, y, owners[x], owners[x].points[y]);
    }
    forall x: nat, y: nat | At(now, x, y)
      ensures Held(owners, now[x], now[x].points[y])
    {
      Holds(owners, if x == oi then last else x, y, now[x], now[x].points[y]);
    }
  }

  /** Evict the oldest point of a kind. */
  method EvictOldest(pool: Pool, running: seq<Retained>, kind: SnapKind, at: (nat, nat)) returns (out: seq<Retained>)
    requires pool.Sound() && Running(pool, running) && Oldest(running + pool.retained, kind, at)
    modifies pool`free, pool`retained, pool`ram, pool`asked, pool.Kvs()
    ensures pool.Sound() && Running(pool, out) && pool.Kvs() == old(pool.Kvs()) && Fewer(running, out)
    ensures old(pool.asked) <= pool.asked
    ensures forall k: SnapKind :: All(out, k) + All(pool.retained, k) + (if k == kind then 1 else 0) ==
                                  All(running, k) + All(old(pool.retained), k)
    ensures Evicts(running + old(pool.retained), out + pool.retained, at)
    ensures pool.world.RamKept(old(pool.asked), pool.asked) ==>
      Covers(old(pool.ram), pool.ram) &&
      (pool.hasRam ==> var was := running + old(pool.retained); InRam(pool.ram, was[at.0].hist, HitPoint(was, at)))
  {
    hide Pool.Sound, Holding, All, Covers, InRam, AllInRam, Count, Evicts;
    var oi, pi := at.0, at.1;
    assert IsOf(running + pool.retained, kind, oi, pi);
    hide Oldest;
    ghost var was, kept := running + pool.retained, pool.retained;
    Thins(was, oi, pi);
    if oi < |running| {
      var r := running[oi];
      assert (running + pool.retained)[oi] == r;
      pool.HoldingLess(r.kv.Value(), r.hist, r.points, pi);
      pool.StoreOut(r.kv, r.hist, [r.points[pi]]);
      var s := r.(points := SwapRemove(r.points, pi));
      out := running[oi := s];
      assert out + kept == was[oi := s];
      Less(running, oi, pi, kind);
      if pool.world.RamKept(old(pool.asked), pool.asked) && pool.hasRam {
        pool.AllOne(r.hist, r.points[pi]);
      }
    } else {
      var ri := oi - |running|;
      assert (running + pool.retained)[oi] == pool.retained[ri];
      out := running;
      Less(pool.retained, ri, pi, kind);
      pool.DropPoint(ri, pi);
      var r := kept[ri];
      if |r.points| == 1 {
        ThinsAway(was, oi, pi);
        assert running + SwapRemove(kept, ri) == SwapRemove(was, oi);
      } else {
        var s := r.(points := SwapRemove(r.points, pi));
        assert running + kept[ri := s] == was[oi := s];
      }
    }
  }

  /** Taking one point away takes one off its kind's count, also when its owner goes with it. */
  lemma Less(owners: seq<Retained>, oi: nat, pi: nat, kind: SnapKind)
    requires IsOf(owners, kind, oi, pi)
    ensures var r := owners[oi]; var rest := SwapRemove(r.points, pi);
      forall k: SnapKind ::
        && All(owners[oi := r.(points := rest)], k) + (if k == kind then 1 else 0) == All(owners, k)
        && (rest == [] ==> All(SwapRemove(owners, oi), k) + (if k == kind then 1 else 0) == All(owners, k))
  {
    var r := owners[oi];
    var s := r.(points := SwapRemove(r.points, pi));
    forall k: SnapKind
      ensures All(owners[oi := s], k) + (if k == kind then 1 else 0) == All(owners, k)
      ensures s.points == [] ==> All(SwapRemove(owners, oi), k) + (if k == kind then 1 else 0) == All(owners, k)
    {
      OnesRemove(r.points, pi, k);
      TotalUpdate(owners, oi, s, |owners|, k);
      TotalRemove(owners, oi, k);
    }
  }

  /** Bring one bank within its limit, oldest points first, and no further. */
  method EnforceBank(pool: Pool, running: seq<Retained>, kind: SnapKind) returns (out: seq<Retained>)
    requires pool.Sound() && Running(pool, running)
    modifies pool`free, pool`retained, pool`ram, pool`asked, pool.Kvs()
    ensures pool.Sound() && Running(pool, out) && pool.Kvs() == old(pool.Kvs()) && Fewer(running, out)
    ensures old(pool.asked) <= pool.asked
    ensures All(out, kind) + All(pool.retained, kind) == Min(All(running, kind) + All(old(pool.retained), kind), pool.bank)
    ensures forall k: SnapKind :: k != kind ==> All(out, k) + All(pool.retained, k) == All(running, k) + All(old(pool.retained), k)
    ensures OldestLeft(running + old(pool.retained), out + pool.retained, kind)
    ensures pool.world.RamKept(old(pool.asked), pool.asked) ==>
      Covers(old(pool.ram), pool.ram) &&
      (pool.hasRam ==> LeftToRam(running + old(pool.retained), out + pool.retained, pool.ram))
  {
    hide Pool.Sound, Holding, All, Oldest, OldestLeft, LeftToRam, Covers, Evicts, InRam;
    out := running;
    var done := false;
    ghost var was := running + pool.retained;
    NoneLeft(was, kind, pool.ram);
    CoversSelf(pool.ram);
    while !done
      invariant pool.Sound() && Running(pool, out) && pool.Kvs() == old(pool.Kvs()) && Fewer(running, out)
      invariant old(pool.asked) <= pool.asked
      invariant forall k: SnapKind :: k != kind ==> All(out, k) + All(pool.retained, k) == All(running, k) + All(old(pool.retained), k)
      invariant var now, was := All(out, kind) + All(pool.retained, kind), All(running, kind) + All(old(pool.retained), kind);
                now <= was && (now < was ==> now >= pool.bank) && (done ==> now <= pool.bank)
      invariant OldestLeft(was, out + pool.retained, kind)
      invariant pool.world.RamKept(old(pool.asked), pool.asked) ==>
        Covers(old(pool.ram), pool.ram) && (pool.hasRam ==> LeftToRam(was, out + pool.retained, pool.ram))
      decreases All(out, kind) + All(pool.retained, kind), !done
    {
      var owners := out + pool.retained;
      var count, at := Scan(owners, kind);
      AllJoin(out, pool.retained, kind);
      if count <= pool.bank {
        done := true;
      } else {
        ghost var ram := pool.ram;
        out := EvictOldest(pool, out, kind, at);
        OneMoreLeft(was, owners, out + pool.retained, kind, at);
        if pool.world.RamKept(old(pool.asked), pool.asked) {
          CoversTrans(old(pool.ram), ram, pool.ram);
          if pool.hasRam {
            OneMoreInRam(was, owners, out + pool.retained, at, ram, pool.ram);
          }
        }
      }
    }
  }

  /** Bring both banks within their limits. A point that leaves was used no later than any of its
      kind that stays, and is in RAM. */
  method EnforceBanks(pool: Pool, running: seq<Retained>) returns (out: seq<Retained>)
    requires pool.Sound() && Running(pool, running)
    modifies pool`free, pool`retained, pool`ram, pool`asked, pool.Kvs()
    ensures pool.Sound() && Running(pool, out) && pool.Kvs() == old(pool.Kvs()) && Fewer(running, out)
    ensures old(pool.asked) <= pool.asked
    ensures forall k: SnapKind :: All(out, k) + All(pool.retained, k) == Min(All(running, k) + All(old(pool.retained), k), pool.bank)
    ensures forall k: SnapKind :: UsedBefore(running + old(pool.retained), out + pool.retained, k)
    ensures pool.world.RamKept(old(pool.asked), pool.asked) ==>
      Covers(old(pool.ram), pool.ram) &&
      (pool.hasRam ==> LeftToRam(running + old(pool.retained), out + pool.retained, pool.ram))
  {
    hide Pool.Sound, Holding, All, OldestLeft, LeftToRam, Covers, UsedBefore;
    ghost var was := running + pool.retained;
    out := EnforceBank(pool, running, Prompt);
    ghost var mid, ram := out + pool.retained, pool.ram;
    out := EnforceBank(pool, out, Turn);
    BothBanks(was, mid, out + pool.retained);
    if pool.world.RamKept(old(pool.asked), pool.asked) {
      CoversTrans(old(pool.ram), ram, pool.ram);
      if pool.hasRam {
        BothInRam(was, mid, out + pool.retained, ram, pool.ram);
      }
    }
  }
}
