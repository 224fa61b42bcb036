/** The slot pool: free slots, retained slots holding device points, and the RAM tier behind
    them. A new prompt resumes at its longest snapshot on the device (in place or forked) or in
    RAM; whatever it resumes from stands for a prefix of its tokens as a cold prefill would. */
module SlotPool {
  import opened Basics
  import opened Transformer
  import opened DeviceKvCache
  import opened KvSound
  import opened Snapshots
  import opened DeviceHits

  /** The slot's GA rows reach every point of it, and every point can be loaded. */
  ghost predicate Holding(m: Model, argmax: Argmax, v: Kv, hist: seq<Token>, points: seq<Point>) {
    && Shaped(m, v) && PointsAt(m, argmax, hist, points)
    && forall i :: 0 <= i < |points| ==>
         points[i].len <= v.tokens && points[i].len <= |hist| && GaHolds(m, v, hist[..points[i].len])
  }

  function KvSet(ret: seq<Retained>): set<DeviceKv> {
    set i | 0 <= i < |ret| :: ret[i].kv
  }

  function FreeSet(free: seq<DeviceKv>): set<DeviceKv> {
    set i | 0 <= i < |free| :: free[i]
  }

  /** No slot is in two places. */
  predicate Apart(free: seq<DeviceKv>, ret: seq<Retained>) {
    && (forall i, j :: 0 <= i < j < |free| ==> free[i] != free[j])
    && (forall i, j :: 0 <= i < j < |ret| ==> ret[i].kv != ret[j].kv)
    && (forall i, j :: 0 <= i < |free| && 0 <= j < |ret| ==> free[i] != ret[j].kv)
  }

  lemma KvSetRemove(ret: seq<Retained>, i: nat)
    requires i < |ret| && forall i, j :: 0 <= i < j < |ret| ==> ret[i].kv != ret[j].kv
    ensures KvSet(SwapRemove(ret, i)) == KvSet(ret) - {ret[i].kv}
  {
    var r := SwapRemove(ret, i);
    forall k | k in KvSet(ret) - {ret[i].kv}
      ensures k in KvSet(r)
    {
      var j :| 0 <= j < |ret| && ret[j].kv == k;
      assert r[if j == |ret| - 1 then i else j] == ret[j];
    }
    forall k | k in KvSet(r)
      ensures k in KvSet(ret) - {ret[i].kv}
    {
      var j :| 0 <= j < |r| && r[j].kv == k;
      assert r[j] == ret[if j == i then |ret| - 1 else j];
    }
  }

  lemma KvSetPush(ret: seq<Retained>, r: Retained)
    ensures KvSet(ret + [r]) == KvSet(ret) + {r.kv}
  {
    var s := ret + [r];
    assert s[|ret|] == r;
    forall k | k in KvSet(ret)
      ensures k in KvSet(s)
    {
      var j :| 0 <= j < |ret| && ret[j].kv == k;
      assert s[j] == ret[j];
    }
  }

  lemma FreeSetPush(free: seq<DeviceKv>, kv: DeviceKv)
    ensures FreeSet(free + [kv]) == FreeSet(free) + {kv}
  {
    var s := free + [kv];
    assert s[|free|] == kv;
    forall k | k in FreeSet(free)
      ensures k in FreeSet(s)
    {
      var j :| 0 <= j < |free| && free[j] == k;
      assert s[j] == free[j];
    }
  }

  /** The retained slot a request takes first: the least recently used, the first of equals. */
  predicate Lru(ret: seq<Retained>, i: nat) {
    && i < |ret|
    && (forall j :: 0 <= j < |ret| ==> LastUse(ret[i].points) <= LastUse(ret[j].points))
    && (forall j :: 0 <= j < i ==> LastUse(ret[i].points) < LastUse(ret[j].points))
  }

  lemma LruIn(ret: seq<Retained>, i: nat)
    requires Lru(ret, i)
    ensures i < |ret|
  {
  }

  method LeastRecent(ret: seq<Retained>) returns (i: nat)
    requires ret != []
    ensures Lru(ret, i)
  {
    hide LastUse;
    i := 0;
    var j := 1;
    while j < |ret|
      invariant i < j <= |ret|
      invariant forall k :: 0 <= k < j ==> LastUse(ret[i].points) <= LastUse(ret[k].points)
      invariant forall k :: 0 <= k < i ==> LastUse(ret[i].points) < LastUse(ret[k].points)
    {
      if LastUse(ret[j].points) < LastUse(ret[i].points) {
        i := j;
      }
      j := j + 1;
    }
  }

  /** Some retained slots have been evicted, none of them used after one that stayed. */
  ghost predicate Thinned(was: seq<Retained>, now: seq<Retained>) {
    && (forall i :: 0 <= i < |now| ==> now[i] in was)
    && (forall i, j :: 0 <= i < |was| && 0 <= j < |now| && was[i] !in now ==> LastUse(was[i].points) <= LastUse(now[j].points))
  }

  /** The points of the evicted slots are in RAM. */
  ghost predicate GoneToRam(was: seq<Retained>, now: seq<Retained>, ram: seq<Snap>) {
    forall i :: 0 <= i < |was| ==> was[i] in now || AllInRam(ram, was[i].hist, was[i].points)
  }

  lemma ThinnedSelf(ret: seq<Retained>, ram: seq<Snap>)
    ensures Thinned(ret, ret) && GoneToRam(ret, ret, ram)
  {
  }

  lemma ThinnedMore(was: seq<Retained>, ret: seq<Retained>, at: nat)
    requires Thinned(was, ret) && Lru(ret, at)
    ensures Thinned(was, SwapRemove(ret, at))
  {
    hide LastUse;
    var now := SwapRemove(ret, at);
    StaysIn(ret, at);
    forall i, j | 0 <= i < |was| && 0 <= j < |now| && was[i] !in now
      ensures LastUse(was[i].points) <= LastUse(now[j].points)
    {
      var k := if j == at then |ret| - 1 else j;
      assert now[j] == ret[k];
      assert was[i] in ret ==> was[i] == ret[at];
    }
  }

  lemma GoneMore(was: seq<Retained>, ret: seq<Retained>, at: nat, ram: seq<Snap>, after: seq<Snap>)
    requires GoneToRam(was, ret, ram) && Covers(ram, after)
    requires at < |ret| && AllInRam(after, ret[at].hist, ret[at].points)
    ensures GoneToRam(was, SwapRemove(ret, at), after)
  {
    hide AllInRam, Covers;
    StaysIn(ret, at);
    forall i | 0 <= i < |was|
      ensures was[i] in SwapRemove(ret, at) || AllInRam(after, was[i].hist, was[i].points)
    {
      if was[i] !in ret {
        InRamCovers(ram, after, was[i].hist, was[i].points);
      }
    }
  }

  lemma StaysIn(ret: seq<Retained>, at: nat)
    requires at < |ret|
    ensures forall r :: r in ret ==> r in SwapRemove(ret, at) || r == ret[at]
    ensures forall r :: r in SwapRemove(ret, at) ==> r in ret
  {
    var now := SwapRemove(ret, at);
    forall r | r in ret
      ensures r in now || r == ret[at]
    {
      var i :| 0 <= i < |ret| && ret[i] == r;
      if i != at {
        assert now[if i == |ret| - 1 then at else i] == r;
      }
    }
  }

  /** Point `p` of a history, as the RAM tier would hold it. */
  ghost predicate InRam(ram: seq<Snap>, hist: seq<Token>, p: Point) {
    p.len <= |hist| && Kept(Snap(hist[..p.len], p.after, p.kind, [], [], 0), ram)
  }

  ghost predicate AllInRam(ram: seq<Snap>, hist: seq<Token>, points: seq<Point>) {
    forall i :: 0 <= i < |points| ==> InRam(ram, hist, points[i])
  }

  lemma InRamCovers(ram: seq<Snap>, now: seq<Snap>, hist: seq<Token>, points: seq<Point>)
    requires AllInRam(ram, hist, points) && Covers(ram, now)
    ensures AllInRam(now, hist, points)
  {
    forall i | 0 <= i < |points|
      ensures InRam(now, hist, points[i])
    {
      var s := Snap(hist[..points[i].len], points[i].after, points[i].kind, [], [], 0);
      assert InRam(ram, hist, points[i]);
      var j :| 0 <= j < |ram| && Better(ram[j], s);
      assert Kept(ram[j], now);
      var k :| 0 <= k < |now| && Better(now[k], ram[j]);
      assert Better(now[k], s);
    }
  }

  lemma RamPush(m: Model, argmax: Argmax, ram: seq<Snap>, s: Snap)
    requires RamOk(m, argmax, ram) && SnapOk(m, argmax, s) && IndexOf(ram, s.tokens).None?
    ensures RamOk(m, argmax, ram + [s]) && Covers(ram, ram + [s]) && Kept(s, ram + [s])
  {
    hide SnapOk;
    var now := ram + [s];
    assert Better(now[|ram|], s);
    forall i | 0 <= i < |ram|
      ensures Kept(ram[i], now)
    {
      assert Better(now[i], ram[i]);
    }
  }

  lemma RamMerge(m: Model, argmax: Argmax, ram: seq<Snap>, i: nat, after: After)
    requires RamOk(m, argmax, ram) && i < |ram| && AfterOk(m, argmax, after, ram[i].tokens)
    ensures var now := ram[i := ram[i].(after := Merged(ram[i].after, after))];
      && RamOk(m, argmax, now) && Covers(ram, now)
      && Kept(Snap(ram[i].tokens, after, ram[i].kind, [], [], 0), now)
  {
    var now := ram[i := ram[i].(after := Merged(ram[i].after, after))];
    assert SnapOk(m, argmax, ram[i]);
    assert SnapOk(m, argmax, now[i]);
    forall j | 0 <= j < |ram|
      ensures Kept(ram[j], now) && SnapOk(m, argmax, now[j])
    {
      assert SnapOk(m, argmax, ram[j]);
      assert Better(now[j], ram[j]);
    }
    assert Better(now[i], Snap(ram[i].tokens, after, ram[i].kind, [], [], 0));
  }

  lemma RamDrop(m: Model, argmax: Argmax, ram: seq<Snap>, i: nat)
    requires RamOk(m, argmax, ram) && i < |ram|
    ensures RamOk(m, argmax, SwapRemove(ram, i))
  {
    hide SnapOk;
    var now := SwapRemove(ram, i);
    forall j | 0 <= j < |now|
      ensures SnapOk(m, argmax, now[j])
    {
      assert SnapOk(m, argmax, ram[if j == i then |ram| - 1 else j]);
    }
  }

  /** What the surroundings of the pool answer, question by question: whether a slot to be grown
      fits beside `n` retained ones, whether the allocations and copies that follow succeed, and,
      when a snapshot is to be stored, which others RAM deletes first and whether it finds room. */
  datatype World = World(fits: (nat, nat) -> bool, grants: nat -> bool, deletes: nat -> seq<nat>, holds: nat -> bool)
  {
    predicate Easy(q: nat) {
      fits(q, 0) && grants(q)
    }

    predicate Keeps(q: nat) {
      deletes(q) == [] && holds(q)
    }

    /** No memory is refused on the questions from `a` to `b` once nothing is retained. */
    ghost predicate Generous(a: nat, b: nat) {
      forall q: nat :: a <= q < b ==> Easy(q)
    }

    lemma Hard(a: nat, q: nat, b: nat)
      requires a <= q < b && !(fits(q, 0) && grants(q))
      ensures !Generous(a, b)
    {
      assert !Easy(q);
    }

    /** RAM takes every snapshot and deletes none on the questions from `a` to `b`. */
    ghost predicate RamKept(a: nat, b: nat) {
      forall q: nat :: a <= q < b ==> Keeps(q)
    }
  }

  /** RAM after deletions, each by place in what is left. */
  function Deleted(ram: seq<Snap>, which: seq<nat>): seq<Snap>
    decreases |which|
  {
    if which == [] then ram
    else Deleted(if which[0] < |ram| then SwapRemove(ram, which[0]) else ram, which[1..])
  }

  /** RAM after storing `s`: what is known of the next token joins a snapshot of the same tokens;
      otherwise room is made, and the snapshot added if there is any. */
  function StoredIn(world: World, q: nat, ram: seq<Snap>, s: Snap): seq<Snap> {
    var at := IndexOf(ram, s.tokens);
    if at.Some? then ram[at.value := ram[at.value].(after := Merged(ram[at.value].after, s.after))]
    else Deleted(ram, world.deletes(q)) + if world.holds(q) then [s] else []
  }

  class Pool {
    ghost const m: Model
    ghost const argmax: Argmax
    const hasRam: bool
    /** Points kept on the device per bank. */
    const bank: nat
    const world: World
    var free: seq<DeviceKv>
    var retained: seq<Retained>
    var ram: seq<Snap>
    var clock: nat
    /** How many questions the surroundings have answered. */
    var asked: nat

    ghost function Kvs(): set<DeviceKv>
      reads `free, `retained
    {
      FreeSet(free) + KvSet(retained)
    }

    ghost predicate FreeOk(free: seq<DeviceKv>)
      reads FreeSet(free)
    {
      forall i :: 0 <= i < |free| ==> Shaped(m, free[i].Value())
    }

    ghost predicate RetainedOk(ret: seq<Retained>)
      reads KvSet(ret)
    {
      forall i :: 0 <= i < |ret| ==>
        ret[i].points != [] && Holding(m, argmax, ret[i].kv.Value(), ret[i].hist, ret[i].points)
    }

    /** Every slot is in one place and usable, every point and every RAM snapshot is sound. */
    ghost predicate Sound()
      reads `free, `retained, `ram, Kvs()
    {
      Apart(free, retained) && FreeOk(free) && RetainedOk(retained) && RamOk(m, argmax, ram) && (!hasRam ==> ram == [])
    }

    constructor (ghost m: Model, ghost argmax: Argmax, slots: seq<DeviceKv>, hasRam: bool, bank: nat, world: World)
      requires forall i, j :: 0 <= i < j < |slots| ==> slots[i] != slots[j]
      requires forall i :: 0 <= i < |slots| ==> Shaped(m, slots[i].Value())
      ensures Sound() && free == slots && retained == [] && ram == [] && Kvs() == FreeSet(slots)
      ensures this.m == m && this.argmax == argmax && this.hasRam == hasRam && this.bank == bank && this.world == world
    {
      this.m, this.argmax, this.hasRam, this.bank, this.world := m, argmax, hasRam, bank, world;
      free, retained, ram, clock, asked := slots, [], [], 0, 0;
    }

    /** What happens to slots outside the pool leaves it alone. */
    twostate lemma Undisturbed()
      requires old(Sound()) && free == old(free) && retained == old(retained) && ram == old(ram)
      requires forall k :: k in old(Kvs()) ==> unchanged(k)
      ensures Sound() && Kvs() == old(Kvs())
    {
      hide RamOk, Apart, Holding, Shaped;
      forall i | 0 <= i < |free|
        ensures Shaped(m, free[i].Value())
      {
        assert free[i] in FreeSet(free);
      }
      forall i | 0 <= i < |retained|
        ensures Holding(m, argmax, retained[i].kv.Value(), retained[i].hist, retained[i].points)
      {
        assert retained[i].kv in KvSet(retained);
        assert retained[i].kv in old(Kvs());
        assert retained[i].kv.Value() == old(retained[i].kv.Value());
        assert old(Holding(m, argmax, retained[i].kv.Value(), retained[i].hist, retained[i].points));
      }
    }

    /** Store a point to RAM, when there is a RAM tier. Room for it may be made by deleting others,
        and may still not be found. */
    method Store(kv: DeviceKv, hist: seq<Token>, p: Point)
      requires RamOk(m, argmax, ram) && PointAt(m, argmax, hist, p) && GaHolds(m, kv.Value(), hist[..p.len])
      modifies this`ram, this`asked
      ensures RamOk(m, argmax, ram) && old(asked) <= asked && (!hasRam ==> ram == old(ram))
      ensures forall l :: 0 <= l < |kv.layers| && kv.layers[l].kind.Ga? ==> p.len <= |kv.layers[l].rows|
      ensures ram == if !hasRam || kv.tokens < p.len then old(ram)
                     else StoredIn(world, old(asked), old(ram), Captured(kv, hist[..p.len], p))
      ensures world.RamKept(old(asked), asked) ==> Covers(old(ram), ram)
      ensures world.RamKept(old(asked), asked) && hasRam && p.len <= kv.tokens ==> InRam(ram, hist, p)
    {
      hide RamOk, Covers, Kept, GaHolds;
      CaptureFits(kv.Value(), hist, p);
      CoversSelf(ram);
      if !hasRam {
        return;
      }
      var toks := hist[..p.len];
      if |toks| < MIN_RETAIN || kv.tokens < |toks| {
        return;
      }
      var at := IndexOf(ram, toks);
      if at.Some? {
        RamMerge(m, argmax, ram, at.value, p.after);
        ram := ram[at.value := ram[at.value].(after := Merged(ram[at.value].after, p.after))];
        SameKept(ram, toks, p);
        return;
      }
      var q := asked;
      asked := asked + 1;
      DropSome(world.deletes(q), toks);
      if !world.holds(q) {
        assert !world.Keeps(q);
        return;
      }
      ghost var was := ram;
      CaptureOk(m, argmax, kv.Value(), hist, p);
      var s := Captured(kv, toks, p);
      RamPush(m, argmax, ram, s);
      ram := ram + [s];
      StoredKept(ram, s, hist, p);
      if world.Keeps(q) {
        assert was == old(ram);
      }
    }

    lemma CaptureFits(v: Kv, hist: seq<Token>, p: Point)
      requires PointAt(m, argmax, hist, p) && GaHolds(m, v, hist[..p.len])
      ensures forall l :: 0 <= l < |v.layers| && v.layers[l].kind.Ga? ==> p.len <= |v.layers[l].rows|
      ensures MIN_RETAIN <= p.len
    {
      CaptureOk(m, argmax, v, hist, p);
    }

    lemma StoredKept(ram: seq<Snap>, s: Snap, hist: seq<Token>, p: Point)
      requires p.len <= |hist| && Kept(s, ram) && s.tokens == hist[..p.len] && s.after == p.after && s.kind == p.kind
      ensures InRam(ram, hist, p)
    {
    }

    lemma SameKept(now: seq<Snap>, toks: seq<Token>, p: Point)
      ensures forall k: SnapKind :: Kept(Snap(toks, p.after, k, [], [], 0), now) ==> Kept(Snap(toks, p.after, p.kind, [], [], 0), now)
    {
    }

    /** Delete snapshots of other tokens. */
    method DropSome(which: seq<nat>, ghost toks: seq<Token>)
      requires RamOk(m, argmax, ram) && IndexOf(ram, toks).None?
      modifies this`ram
      ensures RamOk(m, argmax, ram) && IndexOf(ram, toks).None? && ram == Deleted(old(ram), which)
    {
      hide RamOk;
      var i := 0;
      while i < |which|
        invariant i <= |which| && RamOk(m, argmax, ram) && Deleted(ram, which[i..]) == Deleted(old(ram), which)
        invariant forall j :: 0 <= j < |ram| ==> ram[j].tokens != toks
      {
        if which[i] < |ram| {
          RamDrop(m, argmax, ram, which[i]);
          ram := SwapRemove(ram, which[i]);
        }
        assert which[i..][1..] == which[i + 1..];
        i := i + 1;
      }
    }

    /** Give a slot back: every row dropped, every layer at its build size. */
    method Release(kv: DeviceKv)
      requires Sound() && kv !in Kvs() && Usable(m, kv.Value())
      modifies this`free, kv
      ensures Sound() && free == old(free) + [kv] && Kvs() == old(Kvs()) + {kv}
      ensures Stands(m, kv.Value(), [])
    {
      hide Stands, Usable, RamOk, Holding;
      ReleaseHeals(m, kv.Value());
      kv.ShrinkGa();
      kv.ShrinkSwa();
      FreeSetPush(free, kv);
      StandsShaped(kv.Value(), []);
      free := free + [kv];
    }

    /** Store every one of `points`. */
    method StoreAll(kv: DeviceKv, hist: seq<Token>, points: seq<Point>)
      requires RamOk(m, argmax, ram) && Holding(m, argmax, kv.Value(), hist, points)
      modifies this`ram, this`asked
      ensures RamOk(m, argmax, ram) && old(asked) <= asked && (!hasRam ==> ram == old(ram))
      ensures world.RamKept(old(asked), asked) ==> Covers(old(ram), ram) && (hasRam ==> AllInRam(ram, hist, points))
    {
      hide RamOk, Covers, GaHolds, InRam, PointAt, Shaped;
      CoversSelf(ram);
      var i := 0;
      while i < |points|
        invariant i <= |points| && RamOk(m, argmax, ram) && old(asked) <= asked && (!hasRam ==> ram == old(ram))
        invariant world.RamKept(old(asked), asked) ==> Covers(old(ram), ram) && (hasRam ==> AllInRam(ram, hist, points[..i]))
      {
        ghost var was, q := ram, asked;
        Store(kv, hist, points[i]);
        if world.RamKept(old(asked), asked) {
          CoversTrans(old(ram), was, ram);
          if hasRam {
            InRamCovers(was, ram, hist, points[..i]);
            assert points[..i + 1] == points[..i] + [points[i]];
          }
        }
        i := i + 1;
      }
      assert points[..|points|] == points;
    }

    lemma Retainee(i: nat)
      requires Sound() && i < |retained|
      ensures retained[i].kv in Kvs()
      ensures Holding(m, argmax, retained[i].kv.Value(), retained[i].hist, retained[i].points) && Usable(m, retained[i].kv.Value())
    {
      assert retained[i].kv in KvSet(retained);
    }

    /** Take retained slot `i` out of the pool. */
    method Remove(i: nat) returns (r: Retained)
      requires Sound() && i < |retained|
      modifies this`retained
      ensures r == old(retained)[i] && retained == SwapRemove(old(retained), i)
      ensures Sound() && r.kv in old(Kvs()) && Kvs() == old(Kvs()) - {r.kv}
      ensures r.points != [] && Holding(m, argmax, r.kv.Value(), r.hist, r.points)
    {
      hide RamOk, Holding;
      Retainee(i);
      r := retained[i];
      KvSetRemove(retained, i);
      assert r.kv !in FreeSet(free);
      retained := SwapRemove(retained, i);
    }

    /** Put a slot with its points back. */
    method Retain(r: Retained)
      requires Sound() && r.kv !in Kvs() && r.points != [] && Holding(m, argmax, r.kv.Value(), r.hist, r.points)
      modifies this`retained
      ensures retained == old(retained) + [r] && Sound() && Kvs() == old(Kvs()) + {r.kv}
    {
      hide RamOk, Holding;
      KvSetPush(retained, r);
      forall i | 0 <= i < |retained|
        ensures retained[i].kv != r.kv
      {
        assert retained[i].kv in KvSet(retained);
      }
      forall i | 0 <= i < |free|
        ensures free[i] != r.kv
      {
        assert free[i] in FreeSet(free);
      }
      retained := retained + [r];
    }

    lemma HoldingUsable(v: Kv, hist: seq<Token>, points: seq<Point>)
      requires Holding(m, argmax, v, hist, points)
      ensures Usable(m, v)
    {
      ShapedUsable(m, v);
    }

    /** Ask the surroundings for one allocation. */
    method Ask() returns (granted: bool)
      requires Sound()
      modifies this`asked
      ensures Sound() && Kvs() == old(Kvs()) && asked == old(asked) + 1 && granted == world.grants(old(asked))
    {
      hide RamOk, Holding;
      granted := world.grants(asked);
      asked := asked + 1;
      Undisturbed();
    }

    /** Evict the least recently used retained slot: its points to RAM, the slot to the free list.
        False when none is left. */
    method EvictLru() returns (ok: bool, ghost i: nat)
      requires Sound()
      modifies this`free, this`retained, this`ram, this`asked, Kvs()
      ensures Sound() && Kvs() == old(Kvs()) && old(asked) <= asked && (ok <==> old(retained) != [])
      ensures !ok ==> free == old(free) && retained == old(retained) && ram == old(ram)
      ensures ok ==> Lru(old(retained), i) && retained == SwapRemove(old(retained), i) &&
                     free == old(free) + [old(retained)[i].kv]
      ensures world.RamKept(old(asked), asked) ==> Covers(old(ram), ram)
      ensures ok && world.RamKept(old(asked), asked) && hasRam ==> AllInRam(ram, old(retained)[i].hist, old(retained)[i].points)
      ensures forall k :: k in old(Kvs()) && k !in free ==> k.Value() == old(k.Value())
    {
      hide Sound, Holding, Covers, AllInRam, Lru, LastUse;
      i := 0;
      CoversSelf(ram);
      if retained == [] {
        return false, 0;
      }
      var at := LeastRecent(retained);
      i := at;
      LruIn(retained, i);
      var r := Remove(at);
      StoreOut(r.kv, r.hist, r.points);
      HoldingUsable(r.kv.Value(), r.hist, r.points);
      Release(r.kv);
      ok := true;
    }

    lemma LastFree(free: seq<DeviceKv>)
      requires free != [] && forall i, j :: 0 <= i < j < |free| ==> free[i] != free[j]
      ensures free[|free| - 1] in FreeSet(free)
      ensures FreeSet(free[..|free| - 1]) == FreeSet(free) - {free[|free| - 1]}
    {
      var init := free[..|free| - 1];
      forall k | k in FreeSet(free) - {free[|free| - 1]}
        ensures k in FreeSet(init)
      {
        var j :| 0 <= j < |free| && free[j] == k;
        assert init[j] == k;
      }
    }

    /** Take the free slot given back last, emptied. */
    method Pop() returns (kv: DeviceKv)
      requires Sound() && free != []
      modifies this`free, FreeSet(free)
      ensures kv == old(free)[|old(free)| - 1] && free == old(free)[..|old(free)| - 1]
      ensures Sound() && kv in old(Kvs()) && Kvs() == old(Kvs()) - {kv} && Stands(m, kv.Value(), [])
      ensures forall k :: k in old(Kvs()) && k != kv ==> k.Value() == old(k.Value())
    {
      hide RamOk, Holding, Shaped, Stands;
      kv := free[|free| - 1];
      LastFree(free);
      assert Kvs() == FreeSet(free) + KvSet(retained);
      assert kv !in KvSet(retained);
      free := free[..|free| - 1];
      ClearedStands(m, kv.Value());
      kv.Reset();
    }

    /** A clean slot: a free one, else the least recently used retained one. */
    method TakeFree() returns (r: Option<DeviceKv>)
      requires Sound()
      modifies this`free, this`retained, this`ram, this`asked, Kvs()
      ensures Sound() && old(asked) <= asked && (r.None? <==> old(Kvs()) == {})
      ensures r.None? ==> Kvs() == old(Kvs())
      ensures r.Some? ==> r.value in old(Kvs()) && Kvs() == old(Kvs()) - {r.value} && Stands(m, r.value.Value(), [])
      ensures world.RamKept(old(asked), asked) ==> Covers(old(ram), ram)
      ensures old(free) != [] ==> retained == old(retained) && ram == old(ram) && asked == old(asked) &&
                                  r == Some(old(free)[|old(free)| - 1])
    {
      hide RamOk, Holding, Covers, AllInRam, Lru, LastUse, RetainedOk, FreeOk, Apart;
      CoversSelf(ram);
      if free == [] {
        ghost var i;
        var ok;
        ok, i := EvictLru();
        if !ok {
          assert Kvs() == {};
          return None;
        }
      }
      FreeIn();
      var kv := Pop();
      return Some(kv);
    }

    lemma FreeIn()
      ensures FreeSet(free) <= Kvs()
    {
    }

    /** Room on the device for a slot to grow, evicting retained slots, least recently used first,
        while it does not fit and no longer. */
    method MakeRoom() returns (ok: bool)
      requires Sound()
      modifies this`free, this`retained, this`ram, this`asked, Kvs()
      ensures Sound() && Kvs() == old(Kvs()) && old(free) <= free && old(asked) < asked
      ensures if ok then world.fits(old(asked), |retained|) else retained == [] && !world.fits(old(asked), 0)
      ensures |retained| <= |old(retained)| && forall n :: |retained| < n <= |old(retained)| ==> !world.fits(old(asked), n)
      ensures Thinned(old(retained), retained)
      ensures world.RamKept(old(asked), asked) ==> Covers(old(ram), ram) && (hasRam ==> GoneToRam(old(retained), retained, ram))
    {
      hide RamOk, Holding, Covers, AllInRam, Lru, LastUse, RetainedOk, FreeOk, Apart, Thinned, GoneToRam;
      CoversSelf(ram);
      ThinnedSelf(retained, ram);
      var q := asked;
      asked := asked + 1;
      Undisturbed();
      while !world.fits(q, |retained|)
        invariant Sound() && Kvs() == old(Kvs()) && old(free) <= free && old(asked) < asked && q == old(asked)
        invariant |retained| <= |old(retained)| && forall n :: |retained| < n <= |old(retained)| ==> !world.fits(q, n)
        invariant Thinned(old(retained), retained)
        invariant world.RamKept(old(asked), asked) ==> Covers(old(ram), ram) && (hasRam ==> GoneToRam(old(retained), retained, ram))
        decreases |retained|
      {
        ghost var was, ret := ram, retained;
        var some, at := EvictLru();
        if !some {
          return false;
        }
        LruIn(ret, at);
        ThinnedMore(old(retained), ret, at);
        if world.RamKept(old(asked), asked) {
          CoversTrans(old(ram), was, ram);
          if hasRam {
            GoneMore(old(retained), ret, at, was, ram);
          }
        }
      }
      ok := true;
    }

    lemma PointWithin(toks: seq<Token>, p: Point)
      requires PointAt(m, argmax, toks, p)
      ensures p.len <= |toks|
    {
    }

    lemma StandsHolding(v: Kv, toks: seq<Token>, points: seq<Point>)
      requires Stands(m, v, toks) && PointsAt(m, argmax, toks, points)
      ensures Holding(m, argmax, v, toks, points)
    {
      hide GaHolds, PointAt;
      forall i | 0 <= i < |points|
        ensures points[i].len <= |toks| && GaHolds(m, v, toks[..points[i].len])
      {
        PointWithin(toks, points[i]);
        StandsHoldsPrefix(m, v, toks, points[i].len);
      }
    }

    /** The slot's position as a point. */
    method Save(kv: DeviceKv, after: After, kind: SnapKind, now: nat, ghost toks: seq<Token>) returns (p: Point)
      requires Stands(m, kv.Value(), toks) && AfterOk(m, argmax, after, toks) && |toks| >= MIN_RETAIN
      ensures PointAt(m, argmax, toks, p) && p.len == |toks| && p.after == after && p.kind == kind && p.lastUse == now
    {
      SaveAgrees(m, kv.Value());
      SaveSound(m, kv.Value(), toks);
      var ok, state, rows := kv.SaveState();
      p := Point(kv.tokens, after, kind, state, rows, now);
      assert toks[..|toks|] == toks;
    }

    lemma PointsAdd(toks: seq<Token>, points: seq<Point>, p: Point)
      requires PointsAt(m, argmax, toks, points) && PointAt(m, argmax, toks, p)
      ensures PointsAt(m, argmax, toks, points + [p])
    {
      hide PointAt;
      var s := points + [p];
      forall i | 0 <= i < |s|
        ensures PointAt(m, argmax, toks, s[i])
      {
        assert i < |points| ==> PointAt(m, argmax, toks, points[i]);
      }
    }

    /** Put a slot back with the points it holds, or free it when it has none. */
    method Keep(kv: DeviceKv, toks: seq<Token>, points: seq<Point>)
      requires Sound() && kv !in Kvs() && Holding(m, argmax, kv.Value(), toks, points)
      modifies this`free, this`retained, kv
      ensures Sound() && Kvs() == old(Kvs()) + {kv}
      ensures points == [] ==> free == old(free) + [kv] && retained == old(retained)
      ensures points != [] ==> retained == old(retained) + [Retained(kv, toks, points)] && free == old(free)
      ensures points != [] ==> kv.Value() == old(kv.Value())
    {
      hide Sound, Holding;
      if points == [] {
        HoldingUsable(kv.Value(), toks, points);
        Release(kv);
      } else {
        Retain(Retained(kv, toks, points));
      }
    }

    lemma CutNothing(v: Kv)
      ensures v.Truncated(v.tokens) == v
    {
      hide Span;
      var r := v.Truncated(v.tokens);
      forall l | 0 <= l < |v.layers|
        ensures r.layers[l] == v.layers[l]
      {
        SpanWhole(v.layers[l].rows);
      }
    }

    /** The slot's points all lie within `n` tokens, and its rows cannot be cut back to there. */
    ghost predicate Stuck(v: Kv, hist: seq<Token>, points: seq<Point>, n: nat) {
      && n <= |hist| && !Cuttable(v, n) && Holding(m, argmax, v, hist[..n], points)
      && forall l :: 0 <= l < |v.layers| && v.layers[l].kind.Ga? ==> |v.layers[l].rows| >= v.tokens
    }

    /** Cut a finished request's slot back to its history without the last token. Where that fails
        part way only full-attention rows past the history are gone, and the slot still holds its
        points. */
    method CutBack(kv: DeviceKv, n: nat, ghost hist: seq<Token>, ghost points: seq<Point>) returns (atN: bool)
      requires n <= |hist| && PointsAt(m, argmax, hist[..n], points)
      requires CutStands(m, kv.Value(), hist, n) || Stuck(kv.Value(), hist, points, n)
      modifies kv
      ensures atN == Cuttable(old(kv.Value()), n) && Holding(m, argmax, kv.Value(), hist[..n], points)
      ensures atN ==> Stands(m, kv.Value(), hist[..n])
    {
      hide Stands, Holding, PointsAt;
      ghost var v := kv.Value();
      CutNothing(v);
      atN := kv.tokens == n;
      if kv.tokens > n {
        atN := kv.Truncate(n);
      }
      if atN {
        StandsHolding(kv.Value(), hist[..n], points);
      } else if v.tokens > n {
        StuckHolds(v, kv.Value(), hist, points, n);
      }
    }

    lemma StuckHolds(v: Kv, r: Kv, hist: seq<Token>, points: seq<Point>, n: nat)
      requires Stuck(v, hist, points, n) && n < v.tokens && r == v.(layers := r.layers) && |r.layers| == |v.layers|
      requires var drop := v.tokens - n; forall l :: 0 <= l < |v.layers| ==>
        r.layers[l] == v.layers[l] || (drop <= |v.layers[l].rows| && r.layers[l] == v.layers[l].Truncated(drop))
      ensures Holding(m, argmax, r, hist[..n], points)
    {
      hide Span, PointAt;
      var drop := v.tokens - n;
      var f :| 0 <= f < |v.layers| && |v.layers[f].rows| < drop;
      assert forall l :: 0 <= l < |v.layers| && v.layers[l].kind.Swa? ==> |v.layers[l].rows| < drop && r.layers[l] == v.layers[l];
      assert Shaped(m, r);
      forall i | 0 <= i < |points|
        ensures GaHolds(m, r, hist[..n][..points[i].len])
      {
        assert PointAt(m, argmax, hist[..n], points[i]);
        PointWithin(hist[..n], points[i]);
        StuckGa(v, r, hist[..n][..points[i].len], n);
      }
    }

    lemma StuckGa(v: Kv, r: Kv, toks: seq<Token>, n: nat)
      requires GaHolds(m, v, toks) && Shaped(m, r) && |toks| <= n < v.tokens && |r.layers| == |v.layers|
      requires forall l :: 0 <= l < |v.layers| && v.layers[l].kind.Ga? ==> |v.layers[l].rows| >= v.tokens
      requires var drop := v.tokens - n; forall l :: 0 <= l < |v.layers| ==>
        r.layers[l] == v.layers[l] || (drop <= |v.layers[l].rows| && r.layers[l] == v.layers[l].Truncated(drop))
      ensures GaHolds(m, r, toks)
    {
      hide Span;
      var drop := v.tokens - n;
      forall l | 0 <= l < |v.layers| && v.layers[l].kind.Ga?
        ensures StartsWith(r.layers[l].rows, Hist(m, toks, l, |toks|))
      {
        var rows := v.layers[l].rows;
        assert StartsWith(rows, Hist(m, toks, l, |toks|));
        if r.layers[l] != v.layers[l] {
          SpanOfSpan(rows, 0, |rows| - drop, 0, |toks|);
        }
      }
    }

    /** Note another use of a point. */
    method Refresh(si: nat, pi: nat, now: nat)
      requires Sound() && si < |retained| && pi < |retained[si].points|
      modifies this`retained
      ensures retained == Refreshed(old(retained), si, pi, now)
      ensures Sound() && Kvs() == old(Kvs())
    {
      hide RamOk;
      var r := retained[si];
      Retainee(si);
      var q := r.points[pi].(lastUse := now);
      var s := r.(points := r.points[pi := q]);
      HoldingRefreshed(r.kv.Value(), r.hist, r.points, pi, now);
      hide Holding;
      SameSlots(retained, retained[si := s]);
      retained := retained[si := s];
    }

    lemma HoldingRefreshed(v: Kv, hist: seq<Token>, points: seq<Point>, pi: nat, now: nat)
      requires Holding(m, argmax, v, hist, points) && pi < |points|
      ensures Holding(m, argmax, v, hist, points[pi := points[pi].(lastUse := now)])
    {
      assert PointAt(m, argmax, hist, points[pi]);
      var q := points[pi].(lastUse := now);
      assert PointAt(m, argmax, hist, q);
    }

    lemma SameSlots(a: seq<Retained>, b: seq<Retained>)
      requires |a| == |b| && forall i :: 0 <= i < |a| ==> a[i].kv == b[i].kv
      ensures KvSet(a) == KvSet(b)
    {
      forall k | k in KvSet(a)
        ensures k in KvSet(b)
      {
        var i :| 0 <= i < |a| && a[i].kv == k;
        assert b[i].kv == k;
      }
      forall k | k in KvSet(b)
        ensures k in KvSet(a)
      {
        var i :| 0 <= i < |b| && b[i].kv == k;
        assert a[i].kv == k;
      }
    }

    /** Retire a request: its slot stays with its points and, from `MIN_RETAIN` tokens on, one at
        the end of what was sent, or is freed when it has none. A point at the same tokens already
        retained is refreshed instead. `room` says whether the device has room for a point. A slot
        that cannot be cut back to its history keeps the points it has. */
    method Retire(kv: DeviceKv, hist: seq<Token>, points: seq<Point>, sampled: bool, cancelled: bool, room: bool)
      returns (ghost hit: Option<(nat, nat)>, ghost pts: seq<Point>)
      requires Sound() && kv !in Kvs() && |hist| >= 2
      requires CutStands(m, kv.Value(), hist, |hist| - 1) || Stuck(kv.Value(), hist, points, |hist| - 1)
      requires PointsAt(m, argmax, hist[..|hist| - 1], points)
      requires !sampled ==> m.Valid() && hist[|hist| - 1] == argmax(Out(m, hist[..|hist| - 1], |hist| - 2))
      modifies this`free, this`retained, this`clock, kv
      ensures Sound() && Kvs() == old(Kvs()) + {kv} && InRange(old(retained), hit)
      ensures var adds := Cuttable(old(kv.Value()), |hist| - 1) && Adds(points, |hist| - 1, cancelled);
        && (adds ==> IsHit(old(retained), hist[..|hist| - 1], hit))
        && RetiredAs(old(retained), hist, points, sampled, adds, room, hit, clock, pts)
        && (if pts == [] then free == old(free) + [kv] && retained == RefreshedIf(old(retained), hist, adds, hit, clock)
            else free == old(free) &&
                 retained == RefreshedIf(old(retained), hist, adds, hit, clock) + [Retained(kv, hist[..|hist| - 1], pts)])
    {
      hide Sound, Stands, CutStands, PointAt, BestBefore, Stuck, Cuttable, Holding;
      var n := |hist| - 1;
      var atN := CutBack(kv, n, hist, points);
      var all := points;
      var h: Option<(nat, nat)> := None;
      Undisturbed();
      if atN && Adds(points, n, cancelled) {
        StandsValid(kv.Value(), hist[..n]);
        clock := clock + 1;
        h := DeviceHit(retained, hist[..n]);
        HitInRange(retained, hist[..n], h);
        if h.Some? && HitPoint(retained, h.value).len == n {
          Refresh(h.value.0, h.value.1, clock);
        } else if room {
          var p := Save(kv, After(if sampled then None else Some(hist[n]), None), Turn, clock, hist[..n]);
          PointsAdd(hist[..n], points, p);
          all := points + [p];
          StandsHolding(kv.Value(), hist[..n], all);
        }
      }
      hit, pts := h, all;
      Keep(kv, hist[..n], all);
    }

    lemma StandsValid(v: Kv, toks: seq<Token>)
      requires Stands(m, v, toks)
      ensures m.Valid()
    {
    }

    /** Add the slot's position as a prompt point, when the device has room for it. */
    method AddPrompt(kv: DeviceKv, after: After, points: seq<Point>, room: bool, ghost toks: seq<Token>) returns (all: seq<Point>)
      requires Stands(m, kv.Value(), toks) && AfterOk(m, argmax, after, toks) && |toks| >= MIN_RETAIN
      requires PointsAt(m, argmax, toks, points)
      modifies this`clock
      ensures PointsAt(m, argmax, toks, all) && clock == old(clock) + 1
      ensures if room then OneMore(points, all, |toks|, after, Prompt, clock) else all == points
    {
      clock := clock + 1;
      all := points;
      if room {
        var p := Save(kv, after, Prompt, clock, toks);
        PointsAdd(toks, points, p);
        all := points + [p];
      }
    }

    /** A prefill abandoned at `done` tokens: its position is kept, so that the same prompt can
        resume there. */
    method Park(kv: DeviceKv, ids: seq<Token>, done: nat, after: Option<After>, points: seq<Point>, room: bool)
      returns (ghost pts: seq<Point>)
      requires Sound() && kv !in Kvs() && done <= |ids| && Stands(m, kv.Value(), ids[..done])
      requires PointsAt(m, argmax, ids[..done], points) && (after.Some? ==> AfterOk(m, argmax, after.value, ids[..done]))
      modifies this`free, this`retained, this`clock, kv
      ensures Sound() && Kvs() == old(Kvs()) + {kv}
      ensures ParkedAs(done, after, points, room, clock, pts)
      ensures pts == [] ==> free == old(free) + [kv] && retained == old(retained)
      ensures pts != [] ==> free == old(free) && retained == old(retained) + [Retained(kv, ids[..done], pts)]
    {
      hide Sound, PointAt, AfterOk;
      ShrinkStands(m, kv.Value(), ids[..done]);
      kv.ShrinkSwa();
      var all := points;
      if after.Some? && kv.tokens == done && Adds(points, done, false) {
        all := AddPrompt(kv, after.value, points, room, ids[..done]);
      }
      StandsHolding(kv.Value(), ids[..done], all);
      hide Stands, Holding;
      pts := all;
      Undisturbed();
      Keep(kv, ids[..done], all);
    }

    /** Retire a request whose first token is its last. */
    method EndAtOnce(kv: DeviceKv, ids: seq<Token>, next: Token, points: seq<Point>, sampled: bool, cancelled: bool, room: bool)
      requires Sound() && kv !in Kvs() && ids != [] && Stands(m, kv.Value(), ids) && PointsAt(m, argmax, ids, points)
      requires !sampled ==> next == argmax(Out(m, ids, |ids| - 1))
      modifies this`free, this`retained, this`clock, kv
      ensures Sound() && Kvs() == old(Kvs()) + {kv}
      ensures points != [] ==> free == old(free) && |retained| == |old(retained)| + 1 && retained[|old(retained)|].kv == kv
    {
      hide Sound, PointAt, Stands, CutStands, BestBefore, Holding;
      var hist := ids + [next];
      assert hist[..|ids|] == ids;
      CutAll(kv.Value(), ids, next);
      StandsValid(kv.Value(), ids);
      ghost var hit, pts := Retire(kv, hist, points, sampled, cancelled, room);
    }

    /** A prefilled request starts decoding with its first token: its prompt end becomes a point,
        and it is retired at once when the first token is its last. Returns its points when it
        goes on. */
    method Start(kv: DeviceKv, ids: seq<Token>, next: Token, after: Option<After>, points: seq<Point>, sampled: bool,
                 ends: bool, cancelled: bool, room: bool, turnRoom: bool)
      returns (pts: Option<seq<Point>>)
      requires Sound() && kv !in Kvs() && ids != [] && Stands(m, kv.Value(), ids)
      requires PointsAt(m, argmax, ids, points) && (after.Some? ==> AfterOk(m, argmax, after.value, ids))
      requires !sampled ==> next == argmax(Out(m, ids, |ids| - 1))
      modifies this`free, this`retained, this`clock, kv
      ensures Sound() && Kvs() == old(Kvs()) + (if ends then {kv} else {})
      ensures pts.None? <==> ends
      ensures !ends ==> free == old(free) && retained == old(retained) && Stands(m, kv.Value(), ids)
      ensures !ends ==> PointsAt(m, argmax, ids, pts.value) && StartedAs(ids, after, points, room, clock, pts.value)
      ensures ends && StartsPoint(ids, after, points) && room ==>
                free == old(free) && |retained| == |old(retained)| + 1 && retained[|old(retained)|].kv == kv
    {
      hide Sound, PointAt, AfterOk, OneMore;
      ShrinkStands(m, kv.Value(), ids);
      kv.ShrinkSwa();
      hide Stands;
      var all := points;
      if after.Some? && |ids| >= MIN_RETAIN && forall i :: 0 <= i < |points| ==> points[i].len != |ids| {
        all := AddPrompt(kv, after.value, points, room, ids);
      }
      Undisturbed();
      if ends {
        EndAtOnce(kv, ids, next, all, sampled, cancelled, turnRoom);
        return None;
      }
      return Some(all);
    }

    lemma CutAll(v: Kv, ids: seq<Token>, next: Token)
      requires Stands(m, v, ids)
      ensures CutStands(m, v, ids + [next], |ids|)
    {
      CutNothing(v);
      assert (ids + [next])[..|ids|] == ids;
    }

    /** Load a point into a slot that holds its GA rows. It never fails. */
    method Load(kv: DeviceKv, p: Point, ghost toks: seq<Token>) returns (ok: bool)
      requires GaHolds(m, kv.Value(), toks) && StateOk(m, p.state, p.swaRows, toks) && p.len == |toks|
      modifies kv
      ensures ok && Stands(m, kv.Value(), toks)
    {
      PointLoads(m, kv.Value(), p.state, p.swaRows, toks);
      hide Stands, GaHolds, StateOk;
      ok := kv.RewindGa(p.len);
      if ok {
        ok := kv.LoadState(p.state, p.swaRows);
      }
    }

    lemma GrownHolds(v: Kv, toks: seq<Token>, rows: nat)
      requires GaHolds(m, v, toks)
      ensures GaHolds(m, v.ReservedGa(rows), toks)
    {
      ShapeReserveGa(m, v, rows);
    }

    lemma HoldingPoint(v: Kv, hist: seq<Token>, points: seq<Point>, pi: nat)
      requires Holding(m, argmax, v, hist, points) && pi < |points|
      ensures var p := points[pi];
              && MIN_RETAIN <= p.len <= |hist| && p.len <= v.tokens && GaHolds(m, v, hist[..p.len])
              && StateOk(m, p.state, p.swaRows, hist[..p.len]) && AfterOk(m, argmax, p.after, hist[..p.len])
    {
      assert PointAt(m, argmax, hist, points[pi]);
    }

    /** Copy point `p` of `src` into a clean slot. It never fails once the memory is there. */
    method CopyPoint(kv: DeviceKv, src: DeviceKv, p: Point, rows: nat, ghost toks: seq<Token>) returns (ok: bool)
      requires kv != src && Stands(m, kv.Value(), []) && GaHolds(m, src.Value(), toks)
      requires StateOk(m, p.state, p.swaRows, toks) && p.len == |toks|
      modifies kv
      ensures ok && Stands(m, kv.Value(), toks)
    {
      hide StateOk;
      ShapeReserveGa(m, kv.Value(), rows);
      kv.ReserveGa(rows);
      ForkHolds(m, kv.Value(), src.Value(), toks);
      SameKinds(kv.Value(), src.Value());
      hide Stands, GaHolds, Shaped;
      ok := kv.ForkGa(src, p.len);
      if ok {
        ok := Load(kv, p, toks);
      }
    }

    /** Fork a point into the next free slot, when the copy fits as is. The retained slot stays
        whole. */
    method Fork(si: nat, pi: nat, rows: nat, now: nat) returns (r: Option<DeviceKv>)
      requires Sound() && free != [] && si < |retained| && pi < |retained[si].points|
      modifies this`free, this`retained, this`asked, Kvs()
      ensures Sound() && asked == old(asked) + 1
      ensures r.Some? <==> world.fits(old(asked), |old(retained)|) && world.grants(old(asked))
      ensures r.None? ==> Kvs() == old(Kvs()) && free == old(free) && retained == old(retained)
      ensures r.Some? ==> r.value in old(Kvs()) && Kvs() == old(Kvs()) - {r.value} && retained == Refreshed(old(retained), si, pi, now)
      ensures r.Some? ==> HitPoint(old(retained), (si, pi)).len <= |old(retained)[si].hist|
      ensures r.Some? ==> Stands(m, r.value.Value(), old(retained)[si].hist[..HitPoint(old(retained), (si, pi)).len])
    {
      hide Sound, Holding, Stands, GaHolds, StateOk, AfterOk, Shaped;
      var src, p := retained[si].kv, retained[si].points[pi];
      ghost var hist, points := retained[si].hist, retained[si].points;
      FreeIn();
      var kv := Pop();
      label Before:
      Retainee(si);
      HoldingPoint(src.Value(), hist, points, pi);
      var ok := world.fits(asked, |retained|) && world.grants(asked);
      asked := asked + 1;
      Undisturbed@Before();
      label Popped:
      if ok {
        ok := CopyPoint(kv, src, p, rows, hist[..p.len]);
        Undisturbed@Popped();
        Refresh(si, pi, now);
        return Some(kv);
      }
      StandsUsable(m, kv.Value(), []);
      Release(kv);
      return None;
    }

    lemma StandsShaped(v: Kv, toks: seq<Token>)
      requires Stands(m, v, toks)
      ensures Shaped(m, v)
    {
    }

    lemma SameKinds(v: Kv, w: Kv)
      requires Shaped(m, v) && Shaped(m, w)
      ensures |v.layers| == |w.layers| && forall l :: 0 <= l < |v.layers| ==> v.layers[l].kind == w.layers[l].kind
    {
    }

    /** Store the points of a slot that is out of the pool. */
    method StoreOut(kv: DeviceKv, hist: seq<Token>, points: seq<Point>)
      requires Sound() && kv !in Kvs() && Holding(m, argmax, kv.Value(), hist, points)
      modifies this`ram, this`asked
      ensures Sound() && Kvs() == old(Kvs()) && old(asked) <= asked
      ensures world.RamKept(old(asked), asked) ==> Covers(old(ram), ram) && (hasRam ==> AllInRam(ram, hist, points))
    {
      hide Holding, AllInRam, Covers, RamOk;
      StoreAll(kv, hist, points);
    }

    /** A slot's points split at one of them. */
    lemma SplitHolding(v: Kv, hist: seq<Token>, points: seq<Point>, n: nat)
      requires Holding(m, argmax, v, hist, points) && n <= |hist|
      ensures Holding(m, argmax, v, hist, UpTo(points, n)) && Holding(m, argmax, v, hist, Beyond(points, n))
      ensures PointsAt(m, argmax, hist[..n], UpTo(points, n)) && Holding(m, argmax, v, hist[..n], UpTo(points, n))
    {
      hide GaHolds, PointAt, Shaped;
      var keep, later := UpTo(points, n), Beyond(points, n);
      forall i | 0 <= i < |keep|
        ensures keep[i] in points && keep[i].len <= n
      {
        assert keep[i] in keep;
      }
      forall i | 0 <= i < |later|
        ensures later[i] in points
      {
        assert later[i] in later;
      }
      assert forall i :: 0 <= i < |keep| ==> keep[i].len <= n && hist[..n][..keep[i].len] == hist[..keep[i].len];
      assert hist[..n] == hist[..n][..n];
      PointsMove(m, argmax, hist, hist[..n], n, keep);
    }

    /** Grow a slot and load a point that its history reaches. */
    method GrowAndLoad(kv: DeviceKv, keep: seq<Point>, rows: nat, n: nat, ghost toks: seq<Token>)
      requires Holding(m, argmax, kv.Value(), toks, keep) && |toks| == n
      requires exists i :: 0 <= i < |keep| && keep[i].len == n
      modifies kv
      ensures Stands(m, kv.Value(), toks)
    {
      hide Stands, GaHolds, StateOk, AfterOk, Shaped;
      var i := 0;
      while keep[i].len != n
        invariant i < |keep| && exists j :: i <= j < |keep| && keep[j].len == n
        decreases |keep| - i
      {
        i := i + 1;
      }
      HoldingPoint(kv.Value(), toks, keep, i);
      assert toks[..n] == toks;
      GrownHolds(kv.Value(), toks, rows);
      kv.ReserveGa(rows);
      var ok := Load(kv, keep[i], toks);
    }

    /** Resume a slot taken out of the pool at its point of `n` tokens: the slot rewinds to the
        point, and its later points go to RAM. Too little memory moves the slot through RAM when
        there is a RAM tier, and puts it back otherwise. */
    method InPlace(x: Retained, rows: nat, n: nat) returns (r: Placed)
      requires Sound() && x.kv !in Kvs() && Holding(m, argmax, x.kv.Value(), x.hist, x.points)
      requires n <= |x.hist| && exists i :: 0 <= i < |x.points| && x.points[i].len == n
      modifies this`free, this`retained, this`ram, this`asked, x.kv, Kvs()
      ensures Sound() && Kvs() == old(Kvs()) + (if r.Here? then {} else {x.kv}) && old(asked) <= asked
      ensures r.Here? ==> r.kv == x.kv && r.points == UpTo(x.points, n)
      ensures r.Here? ==> Stands(m, x.kv.Value(), x.hist[..n]) && PointsAt(m, argmax, x.hist[..n], r.points)
      ensures !r.Here? ==> !world.Generous(old(asked), asked) && (r.Moved? <==> hasRam)
      ensures r.PutBack? ==> retained != [] && retained[|retained| - 1] == Retained(x.kv, x.hist[..n], UpTo(x.points, n))
      ensures world.RamKept(old(asked), asked) ==> Covers(old(ram), ram)
      ensures world.RamKept(old(asked), asked) && hasRam ==> AllInRam(ram, x.hist, Beyond(x.points, n))
      ensures world.RamKept(old(asked), asked) && r.Moved? ==> AllInRam(ram, x.hist, UpTo(x.points, n))
    {
      hide Sound, Holding, Stands, PointsAt, AllInRam, Covers, UpTo, Beyond, Thinned, GoneToRam;
      var keep, later := UpTo(x.points, n), Beyond(x.points, n);
      SplitHolding(x.kv.Value(), x.hist, x.points, n);
      KeepsHit(x.points, n);
      StoreOut(x.kv, x.hist, later);
      ghost var ram1 := ram;
      var q := asked;
      var placed := MakeRoom();
      if world.RamKept(old(asked), asked) {
        CoversTrans(old(ram), ram1, ram);
        if hasRam {
          InRamCovers(ram1, ram, x.hist, later);
        }
      }
      label Made:
      if placed && world.grants(q) {
        GrowAndLoad(x.kv, keep, rows, n, x.hist[..n]);
        Undisturbed@Made();
        return Here(x.kv, keep);
      }
      if hasRam {
        ghost var ram2 := ram;
        StoreOut(x.kv, x.hist, keep);
        if world.RamKept(old(asked), asked) {
          CoversTrans(old(ram), ram2, ram);
          InRamCovers(ram2, ram, x.hist, later);
        }
        world.Hard(old(asked), q, asked);
        HoldingUsable(x.kv.Value(), x.hist, keep);
        Release(x.kv);
        return Moved;
      }
      world.Hard(old(asked), q, asked);
      Retain(Retained(x.kv, x.hist[..n], keep));
      return PutBack;
    }

    lemma KeepsHit(points: seq<Point>, n: nat)
      requires exists i :: 0 <= i < |points| && points[i].len == n
      ensures UpTo(points, n) != [] && exists i :: 0 <= i < |UpTo(points, n)| && UpTo(points, n)[i].len == n
    {
      var i :| 0 <= i < |points| && points[i].len == n;
      assert points[i] in UpTo(points, n);
    }

    /** Rebuild a RAM snapshot in a clean slot; a restore that fails leaves the slot clean. */
    method Restore(kv: DeviceKv, s: Snap, ok: bool)
      requires Stands(m, kv.Value(), []) && SnapOk(m, argmax, s)
      modifies kv
      ensures Stands(m, kv.Value(), if ok then s.tokens else [])
    {
      hide SnapOk, Holds;
      RestoreStands(m, argmax, kv.Value(), s);
      ClearedStands(m, kv.Value());
      hide Stands;
      ghost var v := kv.Value();
      kv.Reset();
      if !ok {
        return;
      }
      kv.ReserveGa(|s.tokens|);
      kv.layers := seq(|kv.layers|, l requires 0 <= l < |kv.layers| && |kv.layers| == |s.ga| == |s.state| reads kv =>
        if kv.layers[l].kind.Ga? then kv.layers[l].(rows := s.ga[l]) else kv.layers[l].(rows := s.state[l]));
      kv.tokens := |s.tokens|;
      assert kv.Value() == Restored(v, s);
    }

    lemma NoRam(ids: seq<Token>, sampled: bool)
      requires ids != []
      ensures RamLen([], ids, sampled) == 0
    {
    }

    /** What is looked up in RAM is a prefix of the prompt that can serve the request. */
    lemma FoundInRam(ids: seq<Token>, sampled: bool)
      requires RamOk(m, argmax, ram) && ids != []
      ensures var hit := LookupFor(ram, ids, sampled);
              hit.Some? ==>
                var s := ram[hit.value];
                SnapOk(m, argmax, s) && MIN_RETAIN <= |s.tokens| <= |ids| && s.tokens == ids[..|s.tokens|] &&
                AfterOk(m, argmax, s.after, s.tokens) && (|s.tokens| == |ids| ==> s.after.Serves(sampled))
    {
      LookupForLongest(m, argmax, ram, ids, sampled);
    }

    /** A clean slot with room for `rows` GA rows, evicting retained slots as needed. */
    method CleanSlot(rows: nat) returns (got: Option<DeviceKv>)
      requires Sound()
      modifies this`free, this`retained, this`ram, this`asked, Kvs()
      ensures Sound() && old(asked) <= asked
      ensures got.None? ==> Kvs() == old(Kvs()) && (old(Kvs()) == {} || !world.Generous(old(asked), asked))
      ensures got.Some? ==> got.value in old(Kvs()) && Kvs() == old(Kvs()) - {got.value} && Stands(m, got.value.Value(), [])
      ensures world.RamKept(old(asked), asked) ==> Covers(old(ram), ram)
    {
      hide Sound, Stands, Covers, Thinned, GoneToRam, AllInRam;
      got := TakeFree();
      if got.None? {
        return None;
      }
      var kv := got.value;
      ghost var ram1 := ram;
      var q := asked;
      var placed := MakeRoom();
      if world.RamKept(old(asked), asked) {
        CoversTrans(old(ram), ram1, ram);
      }
      if !placed || !world.grants(q) {
        world.Hard(old(asked), q, asked);
        StandsUsable(m, kv.Value(), []);
        Release(kv);
        return None;
      }
      label Taken:
      ReserveGaStands(m, kv.Value(), [], rows);
      kv.ReserveGa(rows);
      Undisturbed@Taken();
    }

    lemma SoundRam()
      requires Sound()
      ensures RamOk(m, argmax, ram) && (!hasRam ==> ram == [])
    {
    }

    lemma NoPoints(toks: seq<Token>)
      ensures PointsAt(m, argmax, toks, [])
    {
    }

    lemma RamLenIs(ids: seq<Token>, sampled: bool)
      requires ids != []
      ensures RamLen(ram, ids, sampled) == LenOf(ram, LookupFor(ram, ids, sampled))
    {
    }

    lemma OnePoint(toks: seq<Token>, p: Point)
      requires PointAt(m, argmax, toks, p)
      ensures PointsAt(m, argmax, toks, [p])
    {
    }

    /** A clean slot, resumed from RAM when it holds a prefix of the prompt. */
    method FromRam(ids: seq<Token>, rows: nat, sampled: bool, room: bool, now: nat) returns (r: Admission)
      requires Sound() && ids != []
      modifies this`free, this`retained, this`ram, this`asked, Kvs()
      ensures Sound() && AdmitOk(r, ids, sampled, old(Kvs())) && old(asked) <= asked
      ensures r.Refused? ==> old(Kvs()) == {} || !world.Generous(old(asked), asked)
      ensures r.Admitted? && world.Generous(old(asked), asked) && world.RamKept(old(asked), asked) ==>
                RamLen(old(ram), ids, sampled) <= Resumed(r)
    {
      hide Sound, Stands, PointsAt, PointAt, AfterOk, Covers, SnapOk, LookupFor, RamOk, RamLen;
      SoundRam();
      var got := CleanSlot(rows);
      if got.None? {
        return Refused;
      }
      var kv := got.value;
      SoundRam();
      if world.RamKept(old(asked), asked) {
        RamLenGrows(m, argmax, old(ram), ram, ids, sampled);
      }
      FoundInRam(ids, sampled);
      var hit := LookupFor(ram, ids, sampled);
      RamLenIs(ids, sampled);
      NoRam(ids, sampled);
      assert ids[..0] == [];
      NoPoints(ids[..0]);
      if !hasRam || hit.None? {
        return Admitted(kv, [], None);
      }
      var s, q := ram[hit.value], asked;
      asked := asked + 1;
      label Found:
      Restore(kv, s, world.grants(q));
      Undisturbed@Found();
      if !world.grants(q) {
        assert !world.Easy(q);
        return Admitted(kv, [], None);
      }
      var points: seq<Point> := [];
      NoPoints(s.tokens);
      if room {
        var p := Save(kv, s.after, s.kind, now, s.tokens);
        OnePoint(s.tokens, p);
        points := [p];
      }
      r := Admitted(kv, points, Some((|s.tokens|, s.after)));
    }

    /** A stored point is there to be looked up. */
    lemma StoredServes(hist: seq<Token>, p: Point, ids: seq<Token>, sampled: bool)
      requires RamOk(m, argmax, ram) && ids != [] && InRam(ram, hist, p)
      requires p.len <= |ids| && hist[..p.len] == ids[..p.len] && (p.len == |ids| ==> p.after.Serves(sampled))
      ensures p.len <= RamLen(ram, ids, sampled)
    {
      hide SnapOk;
      LookupForLongest(m, argmax, ram, ids, sampled);
      hide LookupFor;
      var s := Snap(hist[..p.len], p.after, p.kind, [], [], 0);
      var j :| 0 <= j < |ram| && Better(ram[j], s);
      assert CanServe(ram[j], ids, sampled);
    }

    /** A hit on the device: where it is, and that it is a sound prefix of the prompt. */
    lemma HitSound(ids: seq<Token>, sampled: bool, hit: (nat, nat))
      requires Sound() && ids != [] && IsHitFor(retained, ids, sampled, Some(hit))
      ensures InRange(retained, Some(hit))
      ensures var r, p := retained[hit.0], HitPoint(retained, hit);
              && MIN_RETAIN <= p.len <= |ids| && p.len <= |r.hist| && r.hist[..p.len] == ids[..p.len]
              && AfterOk(m, argmax, p.after, ids[..p.len]) && (p.len == |ids| ==> p.after.Serves(sampled))
              && Holding(m, argmax, r.kv.Value(), r.hist, r.points) && r.kv in Kvs()
    {
      hide IsHit, Holding, AfterOk, Sound;
      var full :| IsHit(retained, ids, full) &&
        if Mute(retained, ids, sampled, full) && ids != [] then IsHit(retained, ids[..|ids| - 1], Some(hit)) else Some(hit) == full;
      HitForServes(retained, ids, sampled, Some(hit), full);
      var r, p := retained[hit.0], HitPoint(retained, hit);
      CommonIsPrefix(r.hist, ids, p.len);
      Retainee(hit.0);
      HoldingPoint(r.kv.Value(), r.hist, r.points, hit.1);
    }

    /** A slot for a request, resumed at the longest snapshot of its prompt on the device or in
        RAM. Whatever happens, what comes back stands for the part of the prompt it resumes at; if
        no memory is refused and RAM deletes nothing that part is at least what either tier could
        give, and if no memory is refused a request is only when there is no slot at all. */
    method Admit(ids: seq<Token>, rows: nat, sampled: bool, room: bool) returns (r: Admission)
      requires Sound() && ids != []
      modifies this, Kvs()
      ensures Sound() && AdmitOk(r, ids, sampled, old(Kvs())) && old(asked) <= asked
      ensures r.Refused? ==> old(Kvs()) == {} || !world.Generous(old(asked), asked)
      ensures r.Admitted? && world.Generous(old(asked), asked) && world.RamKept(old(asked), asked) ==>
                RamLen(old(ram), ids, sampled) <= Resumed(r) &&
                forall hit :: IsHitFor(old(retained), ids, sampled, hit) && InRange(old(retained), hit) ==>
                                HitLen(old(retained), hit) <= Resumed(r)
    {
      hide Sound, Stands, PointsAt, PointAt, AfterOk, Covers, SnapOk, LookupFor, RamOk, RamLen, Holding, IsHitFor, AllInRam;
      clock := clock + 1;
      var now := clock;
      Undisturbed();
      SoundRam();
      ghost var ret := retained;
      var dev := DeviceHitFor(retained, ids, sampled);
      forall hit | IsHitFor(ret, ids, sampled, hit)
        ensures hit == dev
      {
        HitForUnique(ret, ids, sampled, hit, dev);
      }
      if dev.Some? {
        var done;
        done, r := FromDevice(ids, rows, sampled, dev.value, now);
        if done {
          return;
        }
      }
      r := FromRam(ids, rows, sampled, room, now);
    }

    /** The device side of an admission. `done` is false when RAM has to be asked: it has more of
        the prompt, or the slot had to be moved there. */
    method FromDevice(ids: seq<Token>, rows: nat, sampled: bool, dev: (nat, nat), now: nat) returns (done: bool, r: Admission)
      requires Sound() && ids != [] && IsHitFor(retained, ids, sampled, Some(dev)) && InRange(retained, Some(dev))
      modifies this`free, this`retained, this`ram, this`asked, Kvs()
      ensures Sound() && old(asked) <= asked
      ensures done ==> AdmitOk(r, ids, sampled, old(Kvs())) && (r.Refused? ==> !world.Generous(old(asked), asked))
      ensures done && r.Admitted? ==> Resumed(r) == HitLen(old(retained), Some(dev)) && RamLen(old(ram), ids, sampled) <= Resumed(r)
      ensures !done ==> Kvs() == old(Kvs()) && Kvs() != {}
      ensures !done && world.RamKept(old(asked), asked) ==>
                RamLen(old(ram), ids, sampled) <= RamLen(ram, ids, sampled) && HitLen(old(retained), Some(dev)) <= RamLen(ram, ids, sampled)
    {
      hide Sound, Stands, PointsAt, PointAt, AfterOk, Covers, SnapOk, LookupFor, RamOk, RamLen, Holding, IsHitFor, AllInRam, UpTo, MaxLen;
      SoundRam();
      HitSound(ids, sampled, dev);
      RamShort(ids, sampled);
      r := Refused;
      var p, n := HitPoint(retained, dev), HitPoint(retained, dev).len;
      ghost var hist := retained[dev.0].hist;
      var inRam := LookupFor(ram, ids, sampled);
      if n < |ids| && hasRam && LenOf(ram, inRam) > n {
        return false, Refused;
      }
      if n < MaxLen(retained[dev.0].points) && free != [] {
        var kv := Fork(dev.0, dev.1, rows, now);
        if kv.Some? {
          NoPoints(ids[..n]);
          return true, Admitted(kv.value, [], Some((n, p.after)));
        }
      }
      done, r := FromSlot(ids, rows, sampled, dev, now);
    }

    /** Resume in the hit's own slot. */
    method FromSlot(ids: seq<Token>, rows: nat, sampled: bool, dev: (nat, nat), now: nat) returns (done: bool, r: Admission)
      requires Sound() && ids != [] && IsHitFor(retained, ids, sampled, Some(dev)) && InRange(retained, Some(dev))
      modifies this`free, this`retained, this`ram, this`asked, Kvs()
      ensures Sound() && old(asked) <= asked
      ensures done ==> AdmitOk(r, ids, sampled, old(Kvs())) && (r.Refused? ==> !world.Generous(old(asked), asked))
      ensures done && r.Admitted? ==> Resumed(r) == HitLen(old(retained), Some(dev))
      ensures !done ==> Kvs() == old(Kvs()) && Kvs() != {}
      ensures !done && world.RamKept(old(asked), asked) ==>
                RamLen(old(ram), ids, sampled) <= RamLen(ram, ids, sampled) && HitLen(old(retained), Some(dev)) <= RamLen(ram, ids, sampled)
    {
      hide Sound, Stands, PointsAt, PointAt, AfterOk, Covers, SnapOk, LookupFor, RamOk, RamLen, Holding, IsHitFor, AllInRam, UpTo, MaxLen;
      HitSound(ids, sampled, dev);
      SoundRam();
      ghost var was := ram;
      var p, n := HitPoint(retained, dev), HitPoint(retained, dev).len;
      Refresh(dev.0, dev.1, now);
      var x := Remove(dev.0);
      assert x.points[dev.1].len == n;
      var placed := InPlace(x, rows, n);
      match placed {
        case Here(kv, points) =>
          return true, Admitted(kv, points, Some((n, p.after)));
        case PutBack =>
          return true, Refused;
        case Moved =>
          SoundRam();
          if world.RamKept(old(asked), asked) {
            RamLenGrows(m, argmax, was, ram, ids, sampled);
            HitStored(x, dev.1, n);
            StoredServes(x.hist, x.points[dev.1], ids, sampled);
          }
          return false, Refused;
      }
    }

    /** RAM never gives more than the prompt, and nothing without a RAM tier. */
    lemma RamShort(ids: seq<Token>, sampled: bool)
      requires Sound() && ids != []
      ensures RamLen(ram, ids, sampled) == LenOf(ram, LookupFor(ram, ids, sampled)) <= |ids|
      ensures !hasRam ==> RamLen(ram, ids, sampled) == 0
    {
      LookupForLongest(m, argmax, ram, ids, sampled);
    }

    lemma HitStored(x: Retained, pi: nat, n: nat)
      requires pi < |x.points| && x.points[pi].len == n && AllInRam(ram, x.hist, UpTo(x.points, n))
      ensures InRam(ram, x.hist, x.points[pi])
    {
      var q := x.points[pi];
      assert q in UpTo(x.points, n);
      var i :| 0 <= i < |UpTo(x.points, n)| && UpTo(x.points, n)[i] == q;
      assert InRam(ram, x.hist, UpTo(x.points, n)[i]);
    }

    lemma HoldingLess(v: Kv, hist: seq<Token>, points: seq<Point>, pi: nat)
      requires Holding(m, argmax, v, hist, points) && pi < |points|
      ensures Holding(m, argmax, v, hist, SwapRemove(points, pi)) && Holding(m, argmax, v, hist, [points[pi]])
    {
      hide PointAt, GaHolds, Shaped;
      var rest := SwapRemove(points, pi);
      forall i | 0 <= i < |rest|
        ensures PointAt(m, argmax, hist, rest[i]) && rest[i].len <= v.tokens && rest[i].len <= |hist| && GaHolds(m, v, hist[..rest[i].len])
      {
        var j := if i == pi then |points| - 1 else i;
        assert rest[i] == points[j];
      }
    }

    /** Leave a retained slot with these points. */
    method Replace(ri: nat, points: seq<Point>)
      requires Sound() && ri < |retained| && points != []
      requires Holding(m, argmax, retained[ri].kv.Value(), retained[ri].hist, points)
      modifies this`retained
      ensures Sound() && Kvs() == old(Kvs())
      ensures retained == old(retained)[ri := old(retained)[ri].(points := points)]
    {
      hide Holding, RamOk;
      var s := retained[ri].(points := points);
      SameSlots(retained, retained[ri := s]);
      retained := retained[ri := s];
    }

    lemma AllOne(hist: seq<Token>, p: Point)
      requires AllInRam(ram, hist, [p])
      ensures InRam(ram, hist, p)
    {
      assert [p][0] == p;
    }

    method StoreKept(ri: nat, pi: nat)
      requires Sound() && ri < |retained| && pi < |retained[ri].points|
      modifies this`ram, this`asked
      ensures Sound() && old(asked) <= asked
      ensures world.RamKept(old(asked), asked) ==>
                Covers(old(ram), ram) && (hasRam ==> InRam(ram, retained[ri].hist, retained[ri].points[pi]))
    {
      hide Holding, RamOk, Covers, AllInRam, InRam;
      var r := retained[ri];
      Retainee(ri);
      HoldingLess(r.kv.Value(), r.hist, r.points, pi);
      StoreAll(r.kv, r.hist, [r.points[pi]]);
      if world.RamKept(old(asked), asked) && hasRam {
        AllOne(r.hist, r.points[pi]);
      }
    }

    /** Move one point of a retained slot to RAM; a slot left without points is freed. */
    method DropPoint(ri: nat, pi: nat)
      requires Sound() && ri < |retained| && pi < |retained[ri].points|
      modifies this`free, this`retained, this`ram, this`asked, Kvs()
      ensures Sound() && Kvs() == old(Kvs()) && old(asked) <= asked
      ensures world.RamKept(old(asked), asked) ==>
                Covers(old(ram), ram) && (hasRam ==> InRam(ram, old(retained)[ri].hist, old(retained)[ri].points[pi]))
      ensures var r := old(retained)[ri]; var rest := SwapRemove(r.points, pi);
              if rest == [] then retained == SwapRemove(old(retained), ri) && free == old(free) + [r.kv]
              else retained == old(retained)[ri := r.(points := rest)] && free == old(free)
    {
      hide Sound, Holding, Covers, InRam, SwapRemove;
      StoreKept(ri, pi);
      Retainee(ri);
      var r := retained[ri];
      var rest := SwapRemove(r.points, pi);
      HoldingLess(r.kv.Value(), r.hist, r.points, pi);
      HoldingUsable(r.kv.Value(), r.hist, r.points);
      if rest == [] {
        var x := Remove(ri);
        Release(x.kv);
      } else {
        Replace(ri, rest);
      }
    }

    /** What an admission promises, given the slots there were: a slot that stands for the part of
        the prompt it resumes at, with its points, and at full length with the first token. */
    ghost predicate AdmitOk(r: Admission, ids: seq<Token>, sampled: bool, was: set<DeviceKv>)
      reads this, if r.Admitted? then {r.kv} else {}
    {
      match r
      case Refused => Kvs() == was
      case Admitted(kv, points, resume) =>
        && kv in was && Kvs() == was - {kv} && Resumed(r) <= |ids|
        && Stands(m, kv.Value(), ids[..Resumed(r)]) && PointsAt(m, argmax, ids[..Resumed(r)], points)
        && (resume.Some? ==> MIN_RETAIN <= resume.value.0 && AfterOk(m, argmax, resume.value.1, ids[..resume.value.0]) &&
                             (resume.value.0 == |ids| ==> resume.value.1.Serves(sampled)))
    }
  }

  /** The exception arises: a turn point at the end of its slot is preferred to a prompt point of
      the same tokens with a turn after it, and has no logits for a sampled request. */
  lemma MuteHitHides(m: Model, argmax: Argmax, a: DeviceKv, b: DeviceKv, ids: seq<Token>, t: Token,
                     turn: Point, prompt: Point, later: Point)
    requires PointAt(m, argmax, ids, turn) && turn.len == |ids| && turn.after.logits.None?
    requires PointAt(m, argmax, ids, prompt) && prompt.len == |ids| && prompt.after.logits.Some?
    requires PointAt(m, argmax, ids + [t], later) && later.len == |ids| + 1
    ensures var ret := [Retained(a, ids, [turn]), Retained(b, ids + [t], [prompt, later])];
            IsHitFor(ret, ids, true, None) && CanGive(ret, ids, true, 1, 0)
  {
    hide StateOk, AfterOk;
    var n := |ids|;
    var ret := [Retained(a, ids, [turn]), Retained(b, ids + [t], [prompt, later])];
    CommonIsPrefix(ids, ids, n);
    CommonIsPrefix(ids + [t], ids, n);
    assert (ids + [t])[..n] == ids[..n];
    assert MaxLen([turn]) == n && MaxLen([prompt, later]) == n + 1;
    hide Common, MaxLen, PointAt;
    assert IsHit(ret, ids, Some((0, 0)));
    assert IsHit(ret, ids[..n - 1], None);
    assert Mute(ret, ids, true, Some((0, 0)));
  }

  /** It arises in a sound pool, of two requests that were running at once: one whose answer ended
      at `ids`, and one whose prompt `ids` was and which went on from there. */
  method MutePool(m: Model, argmax: Argmax, a: DeviceKv, b: DeviceKv, ids: seq<Token>, row: Hidden, next: Hidden, world: World)
    returns (pool: Pool)
    requires m.Valid() && a != b && |ids| >= MIN_RETAIN && row == Out(m, ids, |ids| - 1)
    requires Stands(m, a.Value(), ids) && Stands(m, b.Value(), ids + [argmax(row)]) && next == Out(m, ids + [argmax(row)], |ids|)
    ensures pool.Sound() && IsHitFor(pool.retained, ids, true, None) && CanGive(pool.retained, ids, true, 1, 0)
  {
    hide Stands, Out, PointAt, Holding, Pool.Sound, IsHitFor, CanGive;
    var t := argmax(row);
    pool := new Pool(m, argmax, [], true, 2, world);
    var turn := pool.Save(a, After(Some(t), None), Turn, 2, ids);
    var prompt := pool.Save(a, After(Some(t), Some(row)), Prompt, 1, ids);
    var later := pool.Save(b, After(Some(argmax(next)), None), Turn, 3, ids + [t]);
    assert (ids + [t])[..|ids|] == ids[..|ids|];
    pool.OnePoint(ids, turn);
    pool.OnePoint(ids, prompt);
    PointsMove(m, argmax, ids, ids + [t], |ids|, [prompt]);
    pool.PointsAdd(ids + [t], [prompt], later);
    pool.StandsHolding(a.Value(), ids, [turn]);
    pool.StandsHolding(b.Value(), ids + [t], [prompt, later]);
    pool.Retain(Retained(a, ids, [turn]));
    pool.Retain(Retained(b, ids + [t], [prompt, later]));
    MuteHitHides(m, argmax, a, b, ids, t, turn, prompt, later);
    assert pool.retained == [Retained(a, ids, [turn]), Retained(b, ids + [t], [prompt, later])];
  }

  /** The slot a request gets, the points it carries and where it resumes. */
  datatype Admission = Refused | Admitted(kv: DeviceKv, points: seq<Point>, resume: Option<(nat, After)>)

  function Resumed(r: Admission): nat
    requires r.Admitted?
  {
    if r.resume.Some? then r.resume.value.0 else 0
  }

  /** What became of a slot resumed in place: used, moved through RAM, or put back and refused. */
  datatype Placed = Here(kv: DeviceKv, points: seq<Point>) | Moved | PutBack

  /** Whether a slot ending at `n` tokens gets a point there. */
  predicate Adds(points: seq<Point>, n: nat, cancelled: bool) {
    !cancelled && n >= MIN_RETAIN && forall i :: 0 <= i < |points| ==> points[i].len < n
  }

  /** What an identical snapshot already retained becomes of: used now. */
  function RefreshedIf(ret: seq<Retained>, hist: seq<Token>, adds: bool, hit: Option<(nat, nat)>, now: nat): seq<Retained>
    requires InRange(ret, hit) && hist != []
  {
    if adds && hit.Some? && HitLen(ret, hit) == |hist| - 1 then Refreshed(ret, hit.value.0, hit.value.1, now) else ret
  }

  /** The points a retired slot keeps. */
  ghost predicate RetiredAs(ret: seq<Retained>, hist: seq<Token>, points: seq<Point>, sampled: bool, adds: bool, room: bool,
                            hit: Option<(nat, nat)>, now: nat, pts: seq<Point>)
  {
    && hist != [] && InRange(ret, hit)
    && if adds && !(hit.Some? && HitLen(ret, hit) == |hist| - 1) && room then
         OneMore(points, pts, |hist| - 1, After(if sampled then None else Some(hist[|hist| - 1]), None), Turn, now)
       else pts == points
  }

  ghost predicate ParkedAs(done: nat, after: Option<After>, points: seq<Point>, room: bool, now: nat, pts: seq<Point>) {
    if after.Some? && Adds(points, done, false) && room then OneMore(points, pts, done, after.value, Prompt, now) else pts == points
  }

  predicate StartsPoint(ids: seq<Token>, after: Option<After>, points: seq<Point>) {
    after.Some? && |ids| >= MIN_RETAIN && forall i :: 0 <= i < |points| ==> points[i].len != |ids|
  }

  ghost predicate StartedAs(ids: seq<Token>, after: Option<After>, points: seq<Point>, room: bool, now: nat, pts: seq<Point>) {
    if StartsPoint(ids, after, points) && room then OneMore(points, pts, |ids|, after.value, Prompt, now) else pts == points
  }

  /** `pts` is `points` and one point more. */
  ghost predicate OneMore(points: seq<Point>, pts: seq<Point>, n: nat, after: After, kind: SnapKind, now: nat) {
    && |pts| == |points| + 1 && pts[..|points|] == points
    && var p := pts[|points|]; p.len == n && p.after == after && p.kind == kind && p.lastUse == now
  }

  function Refreshed(ret: seq<Retained>, si: nat, pi: nat, now: nat): seq<Retained>
    requires si < |ret| && pi < |ret[si].points|
  {
    ret[si := ret[si].(points := ret[si].points[pi := ret[si].points[pi].(lastUse := now)])]
  }

  /** Point `p` of a slot that holds `toks`, as RAM stores it. */
  function Captured(kv: DeviceKv, toks: seq<Token>, p: Point): Snap
    requires forall l :: 0 <= l < |kv.layers| && kv.layers[l].kind.Ga? ==> p.len <= |kv.layers[l].rows|
    reads kv
  {
    Snap(toks, p.after, p.kind, Copy(kv, p.len), p.state, p.swaRows)
  }

  /** A copy of the slot's first `n` GA rows. */
  function Copy(kv: DeviceKv, n: nat): seq<seq<Row>>
    requires forall l :: 0 <= l < |kv.layers| && kv.layers[l].kind.Ga? ==> n <= |kv.layers[l].rows|
    reads kv
    ensures Copy(kv, n) == Exported(kv.Value(), n)
  {
    seq(|kv.layers|, l requires 0 <= l < |kv.layers| reads kv =>
      if kv.layers[l].kind.Ga? && n <= |kv.layers[l].rows| then Span(kv.layers[l].rows, 0, n) else [])
  }
}
