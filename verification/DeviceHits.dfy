/** The search of the retained slots for the point a prompt resumes at. */
module DeviceHits {
  import opened Basics
  import opened DeviceKvCache
  import opened Snapshots

  /** A finished request's slot kept for its points. */
  datatype Retained = Retained(kv: DeviceKv, hist: seq<Token>, points: seq<Point>)

  // ---- Lists.

  /** Removal by moving the last element into the gap. */
  function SwapRemove<T>(s: seq<T>, i: nat): (r: seq<T>)
    requires i < |s|
    ensures |r| == |s| - 1
    ensures forall j :: 0 <= j < |r| ==> r[j] == if j == i then s[|s| - 1] else s[j]
  {
    s[i := s[|s| - 1]][..|s| - 1]
  }

  function MaxLen(points: seq<Point>): (n: nat)
    ensures forall i :: 0 <= i < |points| ==> points[i].len <= n
    ensures points != [] ==> exists i :: 0 <= i < |points| && points[i].len == n
  {
    if points == [] then 0
    else
      var k := |points| - 1;
      var n := MaxLen(points[..k]);
      assert forall i :: 0 <= i < k ==> points[..k][i] == points[i];
      if n <= points[k].len then points[k].len else n
  }

  /** When a slot's most recently used point was used. */
  function LastUse(points: seq<Point>): nat {
    if points == [] then 0
    else Max(LastUse(points[..|points| - 1]), points[|points| - 1].lastUse)
  }

  /** The points no longer than `n`, and the longer ones, in order. */
  function UpTo(points: seq<Point>, n: nat): (r: seq<Point>)
    ensures forall p :: p in r <==> p in points && p.len <= n
  {
    if points == [] then []
    else
      var k := |points| - 1;
      var rest := UpTo(points[..k], n);
      assert points == points[..k] + [points[k]];
      if points[k].len <= n then rest + [points[k]] else rest
  }

  function Beyond(points: seq<Point>, n: nat): (r: seq<Point>)
    ensures forall p :: p in r <==> p in points && p.len > n
  {
    if points == [] then []
    else
      var k := |points| - 1;
      var rest := Beyond(points[..k], n);
      assert points == points[..k] + [points[k]];
      if points[k].len > n then rest + [points[k]] else rest
  }

  // ---- Device hits.

  /** Point `pi` of retained slot `si` prefixes `ids`. */
  predicate HitAt(ret: seq<Retained>, ids: seq<Token>, si: nat, pi: nat) {
    && si < |ret| && pi < |ret[si].points|
    && ret[si].points[pi].len <= Common(ret[si].hist, ids)
  }

  /** The candidate is better than another: longer, or as long with nothing after it in its slot
      where the other has. */
  predicate Beats(ret: seq<Retained>, a: (nat, nat), b: (nat, nat))
    requires a.0 < |ret| && a.1 < |ret[a.0].points| && b.0 < |ret| && b.1 < |ret[b.0].points|
  {
    var x, y := ret[a.0].points[a.1].len, ret[b.0].points[b.1].len;
    x > y || (x == y && x == MaxLen(ret[a.0].points) && y != MaxLen(ret[b.0].points))
  }

  predicate Before(a: (nat, nat), b: (nat, nat)) {
    a.0 < b.0 || (a.0 == b.0 && a.1 < b.1)
  }

  /** The best of the candidates that come before `end` in slot order, the first of equals. */
  ghost predicate BestBefore(ret: seq<Retained>, ids: seq<Token>, end: (nat, nat), hit: Option<(nat, nat)>) {
    && (hit.Some? ==> HitAt(ret, ids, hit.value.0, hit.value.1) && Before(hit.value, end))
    && forall si, pi :: HitAt(ret, ids, si, pi) && Before((si, pi), end) ==>
         (hit.Some? && !Beats(ret, (si, pi), hit.value) && (Before((si, pi), hit.value) ==> Beats(ret, hit.value, (si, pi))))
  }

  ghost predicate IsHit(ret: seq<Retained>, ids: seq<Token>, hit: Option<(nat, nat)>) {
    BestBefore(ret, ids, (|ret|, 0), hit)
  }

  lemma HitUnique(ret: seq<Retained>, ids: seq<Token>, a: Option<(nat, nat)>, b: Option<(nat, nat)>)
    requires IsHit(ret, ids, a) && IsHit(ret, ids, b)
    ensures a == b
  {
    if a.Some? && b.Some? {
      assert HitAt(ret, ids, a.value.0, a.value.1) && HitAt(ret, ids, b.value.0, b.value.1);
    }
  }

  method DeviceHit(ret: seq<Retained>, ids: seq<Token>) returns (hit: Option<(nat, nat)>)
    ensures IsHit(ret, ids, hit)
  {
    hide Common, MaxLen;
    hit := None;
    var si := 0;
    while si < |ret|
      invariant si <= |ret| && BestBefore(ret, ids, (si, 0), hit)
    {
      var common := Common(ret[si].hist, ids);
      var top := MaxLen(ret[si].points);
      var pi := 0;
      while pi < |ret[si].points|
        invariant pi <= |ret[si].points| && BestBefore(ret, ids, (si, pi), hit)
      {
        var n := ret[si].points[pi].len;
        if n <= common {
          if hit.None? {
            hit := Some((si, pi));
          } else {
            var m := ret[hit.value.0].points[hit.value.1].len;
            var mTop := m == MaxLen(ret[hit.value.0].points);
            if n > m || (n == m && n == top && !mTop) {
              hit := Some((si, pi));
            }
          }
        }
        pi := pi + 1;
      }
      si := si + 1;
    }
  }

  function HitPoint(ret: seq<Retained>, hit: (nat, nat)): Point
    requires hit.0 < |ret| && hit.1 < |ret[hit.0].points|
  {
    ret[hit.0].points[hit.1]
  }

  predicate InRange(ret: seq<Retained>, hit: Option<(nat, nat)>) {
    hit.Some? ==> hit.value.0 < |ret| && hit.value.1 < |ret[hit.value.0].points|
  }

  function HitLen(ret: seq<Retained>, hit: Option<(nat, nat)>): nat
    requires InRange(ret, hit)
  {
    if hit.Some? then HitPoint(ret, hit.value).len else 0
  }

  /** A hit of the whole prompt that cannot give the request its first token. */
  predicate Mute(ret: seq<Retained>, ids: seq<Token>, sampled: bool, hit: Option<(nat, nat)>) {
    && hit.Some? && InRange(ret, hit)
    && HitPoint(ret, hit.value).len == |ids| && !HitPoint(ret, hit.value).after.Serves(sampled)
  }

  /** The hit for a request: the best hit, or when that is mute the best of a token less. */
  ghost predicate IsHitFor(ret: seq<Retained>, ids: seq<Token>, sampled: bool, hit: Option<(nat, nat)>) {
    exists full :: IsHit(ret, ids, full) &&
      if Mute(ret, ids, sampled, full) && ids != [] then IsHit(ret, ids[..|ids| - 1], hit) else hit == full
  }

  lemma HitForUnique(ret: seq<Retained>, ids: seq<Token>, sampled: bool, a: Option<(nat, nat)>, b: Option<(nat, nat)>)
    requires IsHitFor(ret, ids, sampled, a) && IsHitFor(ret, ids, sampled, b)
    ensures a == b
  {
    hide IsHit;
    var x :| IsHit(ret, ids, x) && if Mute(ret, ids, sampled, x) && ids != [] then IsHit(ret, ids[..|ids| - 1], a) else a == x;
    var y :| IsHit(ret, ids, y) && if Mute(ret, ids, sampled, y) && ids != [] then IsHit(ret, ids[..|ids| - 1], b) else b == y;
    HitUnique(ret, ids, x, y);
    if Mute(ret, ids, sampled, x) && ids != [] {
      HitUnique(ret, ids[..|ids| - 1], a, b);
    }
  }

  lemma HitInRange(ret: seq<Retained>, ids: seq<Token>, hit: Option<(nat, nat)>)
    requires IsHit(ret, ids, hit)
    ensures InRange(ret, hit) && HitLen(ret, hit) <= |ids|
  {
  }

  method DeviceHitFor(ret: seq<Retained>, ids: seq<Token>, sampled: bool) returns (hit: Option<(nat, nat)>)
    requires ids != []
    ensures IsHitFor(ret, ids, sampled, hit) && InRange(ret, hit)
  {
    hide BestBefore;
    var full := DeviceHit(ret, ids);
    hit := full;
    if full.Some? {
      HitInRange(ret, ids, full);
      var p := HitPoint(ret, full.value);
      if p.len == |ids| && !p.after.Serves(sampled) {
        hit := DeviceHit(ret, ids[..|ids| - 1]);
        HitInRange(ret, ids[..|ids| - 1], hit);
      }
    }
  }

  /** A point can give the request its tokens, and at full length its first token. */
  predicate CanGive(ret: seq<Retained>, ids: seq<Token>, sampled: bool, si: nat, pi: nat) {
    HitAt(ret, ids, si, pi) && (ret[si].points[pi].len == |ids| ==> ret[si].points[pi].after.Serves(sampled))
  }

  /** A hit of a token less is a hit. */
  lemma HitShorter(ret: seq<Retained>, ids: seq<Token>, si: nat, pi: nat)
    requires ids != []
    ensures HitAt(ret, ids[..|ids| - 1], si, pi) <==> HitAt(ret, ids, si, pi) && ret[si].points[pi].len < |ids|
  {
    if si < |ret| && pi < |ret[si].points| {
      var h, n := ret[si].hist, ret[si].points[pi].len;
      var short := ids[..|ids| - 1];
      if n <= |h| && n <= |short| {
        CommonIsPrefix(h, ids, n);
        CommonIsPrefix(h, short, n);
        assert short[..n] == ids[..n];
      }
    }
  }

  /** No point that can serve the request reaches further than the hit. */
  ghost predicate NothingLonger(ret: seq<Retained>, ids: seq<Token>, sampled: bool, hit: Option<(nat, nat)>)
    requires InRange(ret, hit)
  {
    forall si: nat, pi: nat :: CanGive(ret, ids, sampled, si, pi) ==> hit.Some? && ret[si].points[pi].len <= HitLen(ret, hit)
  }

  ghost predicate ExactElsewhere(ret: seq<Retained>, ids: seq<Token>, sampled: bool) {
    exists si: nat, pi: nat :: CanGive(ret, ids, sampled, si, pi) && ret[si].points[pi].len == |ids|
  }

  /** The hit found can serve the request: an exact resume never lacks its first token. It is the
      longest that can, unless the best hit was mute while another point of the same length was
      not: then a shorter one, or none, is used. */
  lemma HitForServes(ret: seq<Retained>, ids: seq<Token>, sampled: bool, hit: Option<(nat, nat)>, full: Option<(nat, nat)>)
    requires ids != [] && IsHitFor(ret, ids, sampled, hit) && IsHit(ret, ids, full)
    ensures hit.Some? ==> CanGive(ret, ids, sampled, hit.value.0, hit.value.1)
    ensures InRange(ret, hit)
    ensures NothingLonger(ret, ids, sampled, hit) <==> !(Mute(ret, ids, sampled, full) && ExactElsewhere(ret, ids, sampled))
  {
    hide Common, MaxLen;
    var x :| IsHit(ret, ids, x) && if Mute(ret, ids, sampled, x) && ids != [] then IsHit(ret, ids[..|ids| - 1], hit) else hit == x;
    HitUnique(ret, ids, x, full);
    if Mute(ret, ids, sampled, full) {
      forall si: nat, pi: nat
        ensures HitAt(ret, ids[..|ids| - 1], si, pi) <==> HitAt(ret, ids, si, pi) && ret[si].points[pi].len < |ids|
      {
        HitShorter(ret, ids, si, pi);
      }
    }
  }
}
