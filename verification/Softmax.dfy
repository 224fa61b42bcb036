/** One query row of softmax attention over real numbers, in the two-pass form and in the online
    decompositions (split KV, chunks): a running maximum, denominator and numerator per part,
    rescaled as the maximum grows, then one reduction that enters the sink column once. The
    exponential is any positive function that turns sums into products. */
module Softmax {
  import opened Basics

  /** A real or minus infinity. */
  datatype Ext = NegInf | Fin(x: real)

  type Exp = real -> real

  ghost predicate IsExp(e: Exp) {
    (forall x: real :: e(x) > 0.0) && forall x: real, y: real :: e(x + y) == e(x) * e(y)
  }

  function Larger(a: Ext, b: Ext): Ext {
    if a.NegInf? then b else if b.NegInf? || b.x <= a.x then a else b
  }

  /** A cached row: its absolute position, its key and its value. */
  datatype Key = Key(pos: int, k: seq<real>, v: seq<real>)

  /** A visible row as attention uses it: its logit and its value. */
  datatype Term = Term(s: real, v: seq<real>)

  /** Who is asking: the query row, the logit scale, its position and its window. */
  datatype Query = Query(q: seq<real>, scale: real, pos: int, window: Option<nat>)
  {
    predicate Visible(k: Key) {
      k.pos <= pos && (window.Some? ==> pos - k.pos < window.value)
    }

    function Score(k: Key): real
      requires |k.k| == |q|
    {
      Dot(q, k.k, |q|) * scale
    }
  }

  function Dot(a: seq<real>, b: seq<real>, n: nat): real
    requires n <= |a| && n <= |b|
  {
    if n == 0 then 0.0 else Dot(a, b, n - 1) + a[n - 1] * b[n - 1]
  }

  predicate Fits(x: Query, keys: seq<Key>, d: nat) {
    forall j :: 0 <= j < |keys| ==> |keys[j].k| == |x.q| && |keys[j].v| == d
  }

  /** The visible rows among `lo` to `hi - 1`, in order. */
  function Terms(x: Query, keys: seq<Key>, d: nat, lo: nat, hi: nat): (r: seq<Term>)
    requires Fits(x, keys, d) && lo <= hi <= |keys|
    ensures AllWide(r, d)
    decreases hi
  {
    if lo == hi then []
    else
      var rest := Terms(x, keys, d, lo, hi - 1);
      if x.Visible(keys[hi - 1]) then rest + [Term(x.Score(keys[hi - 1]), keys[hi - 1].v)] else rest
  }

  predicate AllWide(ts: seq<Term>, d: nat) {
    forall j :: 0 <= j < |ts| ==> |ts[j].v| == d
  }

  lemma {:induction false} TermsJoin(x: Query, keys: seq<Key>, d: nat, lo: nat, mid: nat, hi: nat)
    requires Fits(x, keys, d) && lo <= mid <= hi <= |keys|
    ensures Terms(x, keys, d, lo, hi) == Terms(x, keys, d, lo, mid) + Terms(x, keys, d, mid, hi)
    decreases hi
  {
    if mid < hi {
      TermsJoin(x, keys, d, lo, mid, hi - 1);
    }
  }

  // ---- The reference.

  function Den(e: Exp, ts: seq<Term>): real {
    if ts == [] then 0.0 else Den(e, ts[..|ts| - 1]) + e(ts[|ts| - 1].s)
  }

  function Num(e: Exp, ts: seq<Term>, d: nat, i: nat): real
    requires AllWide(ts, d) && i < d
  {
    if ts == [] then 0.0 else Num(e, ts[..|ts| - 1], d, i) + Share(e, ts[|ts| - 1].s, ts[|ts| - 1].v[i])
  }

  function Share(e: Exp, s: real, x: real): real {
    e(s) * x
  }

  function SinkDen(e: Exp, sink: Option<real>): real {
    if sink.Some? then e(sink.value) else 0.0
  }

  /** The softmax-weighted mean of the values, the sink taking weight and giving nothing; zero when
      no row is visible. */
  function Mean(e: Exp, ts: seq<Term>, sink: Option<real>, d: nat, i: nat): real
    requires AllWide(ts, d) && i < d
  {
    if ts == [] || Den(e, ts) + SinkDen(e, sink) == 0.0 then 0.0
    else Num(e, ts, d, i) / (Den(e, ts) + SinkDen(e, sink))
  }

  function Row(e: Exp, ts: seq<Term>, sink: Option<real>, d: nat): (r: seq<real>)
    requires AllWide(ts, d)
    ensures |r| == d
  {
    seq(d, i requires 0 <= i < d => Mean(e, ts, sink, d, i))
  }

  // ---- Sums.

  lemma {:induction false} DenPositive(e: Exp, ts: seq<Term>)
    requires IsExp(e)
    ensures Den(e, ts) >= 0.0 && (ts != [] ==> Den(e, ts) > 0.0)
  {
    if ts != [] {
      DenPositive(e, ts[..|ts| - 1]);
    }
  }

  lemma {:induction false} DenJoin(e: Exp, a: seq<Term>, b: seq<Term>)
    ensures Den(e, a + b) == Den(e, a) + Den(e, b)
    decreases |b|
  {
    if b == [] {
      assert a + b == a;
    } else {
      DenJoin(e, a, b[..|b| - 1]);
      assert (a + b)[..|a + b| - 1] == a + b[..|b| - 1];
    }
  }

  lemma {:induction false} NumJoin(e: Exp, a: seq<Term>, b: seq<Term>, d: nat, i: nat)
    requires AllWide(a, d) && AllWide(b, d) && i < d
    ensures AllWide(a + b, d) && Num(e, a + b, d, i) == Num(e, a, d, i) + Num(e, b, d, i)
    decreases |b|
  {
    if b == [] {
      assert a + b == a;
    } else {
      NumJoin(e, a, b[..|b| - 1], d, i);
      assert (a + b)[..|a + b| - 1] == a + b[..|b| - 1];
    }
  }

  // ---- Arithmetic.

  lemma Shift(e: Exp, a: real, b: real)
    requires IsExp(e)
    ensures e(a - b) * e(b) == e(a) && e(a - b) > 0.0
  {
    assert a - b + b == a;
  }

  lemma Positive(e: Exp, x: real)
    requires IsExp(e)
    ensures e(x) > 0.0
  {
  }

  /** Rescaling a sum kept at one maximum to a larger one and adding a term. */
  lemma Rescaled(sum: real, r: real, was: real, now: real, total: real, p: real, t: real, x: real)
    requires sum * was == total && r * now == was && p * now == t
    ensures (sum * r + p * x) * now == total + t * x
  {
    assert sum * r * now == sum * (r * now);
    assert p * x * now == p * now * x;
    assert (sum * r + p * x) * now == sum * r * now + p * x * now;
  }

  lemma Cancel(o: real, l: real, c: real)
    requires l > 0.0 && c > 0.0
    ensures l * c > 0.0 && o / l == (o * c) / (l * c)
  {
    var z := o / l;
    assert z * l == o;
    assert z * (l * c) == z * l * c;
  }

  // ---- Partials.

  /** `sum`, kept at the maximum `m`, stands for `total`. */
  ghost predicate At(e: Exp, m: Ext, sum: real, total: real) {
    if m.NegInf? then sum == 0.0 && total == 0.0 else sum * e(m.x) == total
  }

  /** The largest logit of the terms, minus infinity when there is none. */
  ghost predicate IsMax(m: Ext, ts: seq<Term>) {
    && (m.NegInf? <==> ts == [])
    && (m.Fin? ==> (exists j :: 0 <= j < |ts| && ts[j].s == m.x) && forall j :: 0 <= j < |ts| ==> ts[j].s <= m.x)
  }

  /** What a part of the rows has come to: at the maximum `m` seen, the denominator `l` and the
      numerators `o` are those of the terms folded in. */
  ghost predicate Sums(e: Exp, m: Ext, l: real, o: seq<real>, ts: seq<Term>, d: nat) {
    && AllWide(ts, d) && |o| == d && IsMax(m, ts) && At(e, m, l, Den(e, ts))
    && forall i :: 0 <= i < d ==> At(e, m, o[i], Num(e, ts, d, i))
  }

  function NewMax(m: Ext, s: real): real {
    if m.Fin? && m.x >= s then m.x else s
  }

  /** A sum after another row: rescaled to the new maximum, the row's share added. */
  function Folded(e: Exp, m: Ext, s: real, sum: real, x: real): real {
    sum * (if m.Fin? then e(m.x - NewMax(m, s)) else 0.0) + e(s - NewMax(m, s)) * x
  }

  lemma FoldedAt(e: Exp, m: Ext, s: real, sum: real, total: real, x: real)
    requires IsExp(e) && At(e, m, sum, total)
    ensures At(e, Fin(NewMax(m, s)), Folded(e, m, s, sum, x), total + Share(e, s, x))
  {
    hide IsExp;
    var now := NewMax(m, s);
    Shift(e, s, now);
    if m.Fin? {
      Shift(e, m.x, now);
      Rescaled(sum, e(m.x - now), e(m.x), e(now), total, e(s - now), e(s), x);
    } else {
      Rescaled(0.0, 0.0, 0.0, e(now), 0.0, e(s - now), e(s), x);
    }
  }

  lemma MaxGrows(m: Ext, ts: seq<Term>, t: Term)
    requires IsMax(m, ts)
    ensures IsMax(Fin(NewMax(m, t.s)), ts + [t])
  {
    var all := ts + [t];
    assert all[|ts|] == t;
    if m.Fin? && m.x >= t.s {
      var j :| 0 <= j < |ts| && ts[j].s == m.x;
      assert all[j] == ts[j];
    }
  }

  lemma SumsWide(e: Exp, m: Ext, l: real, o: seq<real>, ts: seq<Term>, d: nat)
    requires Sums(e, m, l, o, ts, d)
    ensures |o| == d && AllWide(ts, d)
  {
  }

  lemma OneShare(e: Exp, s: real)
    ensures Share(e, s, 1.0) == e(s)
  {
  }

  class Partial {
    var m: Ext
    var l: real
    var o: seq<real>

    constructor (d: nat)
      ensures forall e: Exp :: Sums(e, m, l, o, [], d)
    {
      m, l, o := NegInf, 0.0, seq(d, i => 0.0);
    }

    /** Fold one row in. The maximum is exact, so no exponential of a positive number is taken. */
    method Fold(e: Exp, s: real, val: seq<real>, ghost ts: seq<Term>, ghost d: nat)
      requires IsExp(e) && |val| == d && Sums(e, m, l, o, ts, d)
      modifies this
      ensures Sums(e, m, l, o, ts + [Term(s, val)], d)
    {
      hide IsExp, At, IsMax, Den, Num, Sums;
      SumsWide(e, m, l, o, ts, d);
      var mNew := if m.Fin? && m.x >= s then m.x else s;
      var rescale := if m.Fin? then e(m.x - mNew) else 0.0;
      var p := e(s - mNew);
      var i := 0;
      var scaled := o;
      while i < |o|
        invariant i <= |o| == |scaled|
        invariant forall k :: 0 <= k < i ==> scaled[k] == Folded(e, m, s, o[k], val[k])
        invariant forall k :: i <= k < |o| ==> scaled[k] == o[k]
      {
        scaled := scaled[i := scaled[i] * rescale + p * val[i]];
        i := i + 1;
      }
      FoldSums(e, m, l, o, ts, d, Term(s, val), scaled);
      assert Folded(e, m, s, l, 1.0) == l * rescale + p;
      l := l * rescale + p;
      o := scaled;
      m := Fin(mNew);
    }
  }

  lemma FoldSums(e: Exp, m: Ext, l: real, o: seq<real>, ts: seq<Term>, d: nat, t: Term, now: seq<real>)
    requires IsExp(e) && |t.v| == d && Sums(e, m, l, o, ts, d) && |now| == d
    requires forall i :: 0 <= i < d ==> now[i] == Folded(e, m, t.s, o[i], t.v[i])
    ensures Sums(e, Fin(NewMax(m, t.s)), Folded(e, m, t.s, l, 1.0), now, ts + [t], d)
  {
    hide IsExp, At, IsMax, Folded, NewMax, Share, Num, Den;
    MaxGrows(m, ts, t);
    DenPush(e, ts, t);
    FoldedAt(e, m, t.s, l, Den(e, ts), 1.0);
    forall i | 0 <= i < d
      ensures At(e, Fin(NewMax(m, t.s)), now[i], Num(e, ts + [t], d, i))
    {
      NumPush(e, ts, t, d, i);
      FoldedAt(e, m, t.s, o[i], Num(e, ts, d, i), t.v[i]);
    }
  }

  lemma DenPush(e: Exp, ts: seq<Term>, t: Term)
    ensures Den(e, ts + [t]) == Den(e, ts) + Share(e, t.s, 1.0)
  {
    assert (ts + [t])[..|ts|] == ts;
  }

  lemma NumPush(e: Exp, ts: seq<Term>, t: Term, d: nat, i: nat)
    requires AllWide(ts, d) && |t.v| == d && i < d
    ensures AllWide(ts + [t], d) && Num(e, ts + [t], d, i) == Num(e, ts, d, i) + Share(e, t.s, t.v[i])
  {
    assert (ts + [t])[..|ts|] == ts;
  }

  /** The logit of one row. */
  method ScoreOf(x: Query, k: Key) returns (s: real)
    requires |k.k| == |x.q|
    ensures s == x.Score(k)
  {
    s := 0.0;
    var i := 0;
    while i < |x.q|
      invariant i <= |x.q| && s == Dot(x.q, k.k, i)
    {
      s := s + x.q[i] * k.k[i];
      i := i + 1;
    }
    s := s * x.scale;
  }

  /** Fold the rows `lo` to `hi - 1` into `p`. */
  method FoldRange(e: Exp, p: Partial, x: Query, keys: seq<Key>, lo: nat, hi: nat, ghost ts: seq<Term>, ghost d: nat)
    requires IsExp(e) && Fits(x, keys, d) && lo <= hi <= |keys| && Sums(e, p.m, p.l, p.o, ts, d)
    modifies p
    ensures Sums(e, p.m, p.l, p.o, ts + Terms(x, keys, d, lo, hi), d)
  {
    hide Sums, Query.Score;
    var j := lo;
    assert ts + Terms(x, keys, d, lo, lo) == ts;
    while j < hi
      invariant lo <= j <= hi && Sums(e, p.m, p.l, p.o, ts + Terms(x, keys, d, lo, j), d)
    {
      if x.Visible(keys[j]) {
        var s := ScoreOf(x, keys[j]);
        ghost var seen := Terms(x, keys, d, lo, j);
        assert ts + (seen + [Term(s, keys[j].v)]) == (ts + seen) + [Term(s, keys[j].v)];
        p.Fold(e, s, keys[j].v, ts + seen, d);
      }
      j := j + 1;
    }
  }

  // ---- The reduction.

  /** The terms of the first `k` parts. */
  function Flat(parts: seq<seq<Term>>, k: nat): seq<Term>
    requires k <= |parts|
  {
    if k == 0 then [] else Flat(parts, k - 1) + parts[k - 1]
  }

  ghost predicate AllSums(e: Exp, ps: seq<Partial>, parts: seq<seq<Term>>, d: nat)
    reads ps
  {
    |ps| == |parts| && forall k :: 0 <= k < |ps| ==> Sums(e, ps[k].m, ps[k].l, ps[k].o, parts[k], d)
  }

  /** A sum kept at maximum `m` with `x`, kept at `s`, added. */
  function Plus(e: Exp, s: real, m: real, sum: real, x: real): real {
    sum + e(s - m) * x
  }

  /** A part's sum moved to the common maximum. */
  lemma MergedAt(e: Exp, m: real, sum: real, total: real, pm: real, ps: real, pt: real)
    requires IsExp(e) && At(e, Fin(m), sum, total) && At(e, Fin(pm), ps, pt)
    ensures At(e, Fin(m), Plus(e, pm, m, sum, ps), total + pt)
  {
    hide IsExp;
    Shift(e, pm, m);
    Rescaled(ps, e(pm - m), e(pm), e(m), pt, 0.0, 0.0, 0.0);
    assert (sum + e(pm - m) * ps) * e(m) == sum * e(m) + (ps * e(pm - m) + 0.0 * 0.0) * e(m);
  }

  /** One more row at a maximum already found. */
  lemma AddedAt(e: Exp, m: real, sum: real, total: real, s: real, x: real)
    requires IsExp(e) && At(e, Fin(m), sum, total)
    ensures At(e, Fin(m), Plus(e, s, m, sum, x), total + Share(e, s, x))
  {
    hide IsExp;
    Shift(e, s, m);
    Rescaled(sum, 1.0, e(m), e(m), total, e(s - m), e(s), x);
  }

  /** The largest of the parts' maxima and the sink. */
  method CommonMax(ps: seq<Partial>, sink: Option<real>) returns (m: Ext)
    ensures m.NegInf? <==> sink.None? && forall k :: 0 <= k < |ps| ==> ps[k].m.NegInf?
    ensures m.Fin? ==> (forall k :: 0 <= k < |ps| && ps[k].m.Fin? ==> ps[k].m.x <= m.x) && (sink.Some? ==> sink.value <= m.x)
  {
    m := NegInf;
    var k := 0;
    while k < |ps|
      invariant k <= |ps| && (m.NegInf? <==> forall i :: 0 <= i < k ==> ps[i].m.NegInf?)
      invariant m.Fin? ==> forall i :: 0 <= i < k && ps[i].m.Fin? ==> ps[i].m.x <= m.x
    {
      m := Larger(m, ps[k].m);
      k := k + 1;
    }
    if sink.Some? {
      m := Larger(m, Fin(sink.value));
    }
  }

  /** Add one part into the running denominator and numerators. */
  method AddPart(e: Exp, m: Ext, p: Partial, l0: real, o0: seq<real>, ghost ts: seq<Term>, ghost part: seq<Term>, ghost d: nat)
    returns (l: real, o: seq<real>)
    requires IsExp(e) && Sums(e, p.m, p.l, p.o, part, d) && AllWide(ts, d) && |o0| == d
    requires (m.NegInf? ==> p.m.NegInf?) && At(e, m, l0, Den(e, ts)) && forall i :: 0 <= i < d ==> At(e, m, o0[i], Num(e, ts, d, i))
    ensures |o| == d && AllWide(ts + part, d) && At(e, m, l, Den(e, ts + part))
    ensures forall i :: 0 <= i < d ==> At(e, m, o[i], Num(e, ts + part, d, i))
  {
    hide IsExp, At, IsMax, Den, Num;
    DenJoin(e, ts, part);
    forall i | 0 <= i < d
      ensures Num(e, ts + part, d, i) == Num(e, ts, d, i) + Num(e, part, d, i)
    {
      NumJoin(e, ts, part, d, i);
    }
    l, o := l0, o0;
    if p.m.NegInf? && p.l == 0.0 {
      EmptyPart(e, p, part, d);
      return;
    }
    PartSeen(e, p, part, d);
    var w := e(p.m.x - m.x);
    assert m == Fin(m.x) && p.m == Fin(p.m.x);
    MergedAt(e, m.x, l, Den(e, ts), p.m.x, p.l, Den(e, part));
    assert l + w * p.l == Plus(e, p.m.x, m.x, l, p.l);
    l := l + w * p.l;
    var i := 0;
    while i < |p.o|
      invariant i <= |p.o| == d == |o|
      invariant forall k :: 0 <= k < i ==> At(e, m, o[k], Num(e, ts, d, k) + Num(e, part, d, k))
      invariant forall k :: i <= k < d ==> o[k] == o0[k]
    {
      MergedAt(e, m.x, o[i], Num(e, ts, d, i), p.m.x, p.o[i], Num(e, part, d, i));
      assert o[i] + w * p.o[i] == Plus(e, p.m.x, m.x, o[i], p.o[i]);
      o := o[i := o[i] + w * p.o[i]];
      i := i + 1;
    }
  }

  lemma EmptyPart(e: Exp, p: Partial, part: seq<Term>, d: nat)
    requires Sums(e, p.m, p.l, p.o, part, d) && p.m.NegInf?
    ensures part == [] && Den(e, part) == 0.0 && forall i :: 0 <= i < d ==> Num(e, part, d, i) == 0.0
  {
  }

  lemma PartSeen(e: Exp, p: Partial, part: seq<Term>, d: nat)
    requires Sums(e, p.m, p.l, p.o, part, d) && !(p.m.NegInf? && p.l == 0.0)
    ensures p.m.Fin?
  {
  }

  /** What the reduction leaves: at some common maximum, the denominator with the sink in it once
      and the numerators. */
  ghost predicate Reduced(e: Exp, l: real, o: seq<real>, ts: seq<Term>, sink: Option<real>, d: nat) {
    && AllWide(ts, d) && |o| == d
    && exists m: Ext :: ReducedAt(e, m, l, o, ts, sink, d)
  }

  ghost predicate ReducedAt(e: Exp, m: Ext, l: real, o: seq<real>, ts: seq<Term>, sink: Option<real>, d: nat)
    requires AllWide(ts, d) && |o| == d
  {
    At(e, m, l, Den(e, ts) + SinkDen(e, sink)) && forall i :: 0 <= i < d ==> At(e, m, o[i], Num(e, ts, d, i))
  }

  /** Reduce the parts to a denominator and numerators, the sink column entering once. */
  method ReducePartials(e: Exp, ps: seq<Partial>, sink: Option<real>, ghost parts: seq<seq<Term>>, ghost d: nat)
    returns (l: real, o: seq<real>)
    requires IsExp(e) && ps != [] && AllSums(e, ps, parts, d)
    ensures Reduced(e, l, o, Flat(parts, |parts|), sink, d)
  {
    hide IsExp, At, IsMax, Den, Num, Sums;
    var m := CommonMax(ps, sink);
    Shapes(e, ps, parts, d);
    l, o := 0.0, seq(|ps[0].o|, i => 0.0);
    FlatStart(e, m, d);
    var k := 0;
    while k < |ps|
      invariant k <= |ps| && |o| == d && AllWide(Flat(parts, k), d) && At(e, m, l, Den(e, Flat(parts, k)))
      invariant forall i :: 0 <= i < d ==> At(e, m, o[i], Num(e, Flat(parts, k), d, i))
    {
      l, o := AddPart(e, m, ps[k], l, o, Flat(parts, k), parts[k], d);
      k := k + 1;
    }
    ghost var ts := Flat(parts, |parts|);
    if sink.Some? {
      assert Share(e, sink.value, 1.0) == e(sink.value);
      AddedAt(e, m.x, l, Den(e, ts), sink.value, 1.0);
      assert l + e(sink.value - m.x) == Plus(e, sink.value, m.x, l, 1.0);
      l := l + e(sink.value - m.x);
    }
    assert ReducedAt(e, m, l, o, ts, sink, d);
  }

  lemma Shapes(e: Exp, ps: seq<Partial>, parts: seq<seq<Term>>, d: nat)
    requires AllSums(e, ps, parts, d)
    ensures forall k :: 0 <= k < |ps| ==> |ps[k].o| == d && AllWide(parts[k], d)
  {
  }

  lemma FlatStart(e: Exp, m: Ext, d: nat)
    ensures At(e, m, 0.0, Den(e, [])) && forall i :: 0 <= i < d ==> At(e, m, 0.0, Num(e, [], d, i))
  {
  }

  /** The output row, zero when the denominator is. */
  method Normalise(e: Exp, l: real, o: seq<real>, ghost ts: seq<Term>, ghost sink: Option<real>, ghost d: nat) returns (out: seq<real>)
    requires IsExp(e) && Reduced(e, l, o, ts, sink, d)
    ensures out == Row(e, ts, sink, d)
  {
    assert |o| == d && AllWide(ts, d);
    hide IsExp, Reduced, Mean;
    out := seq(|o|, i => 0.0);
    var i := 0;
    while i < |o| && l > 0.0
      invariant i <= |o| == |out|
      invariant i > 0 ==> l > 0.0 && forall k :: 0 <= k < i ==> out[k] == o[k] / l
      invariant forall k :: i <= k < |o| ==> out[k] == 0.0
    {
      out := out[i := o[i] / l];
      i := i + 1;
    }
    forall k | 0 <= k < d
      ensures Mean(e, ts, sink, d, k) == if l > 0.0 then o[k] / l else 0.0
    {
      MeanIs(e, l, o, ts, sink, d, k);
    }
  }

  lemma MeanIs(e: Exp, l: real, o: seq<real>, ts: seq<Term>, sink: Option<real>, d: nat, k: nat)
    requires IsExp(e) && Reduced(e, l, o, ts, sink, d) && k < d
    ensures Mean(e, ts, sink, d, k) == if l > 0.0 then o[k] / l else 0.0
  {
    hide IsExp, At;
    var m :| ReducedAt(e, m, l, o, ts, sink, d);
    DenPositive(e, ts);
    if sink.Some? {
      Positive(e, sink.value);
    }
    if m.Fin? {
      Positive(e, m.x);
    }
    var den, num := Den(e, ts) + SinkDen(e, sink), Num(e, ts, d, k);
    MeanValue(e, m, l, o[k], den, num, ts != []);
  }

  /** Numerator over denominator is the same at any maximum. */
  lemma MeanValue(e: Exp, m: Ext, l: real, o: real, den: real, num: real, any: bool)
    requires At(e, m, l, den) && At(e, m, o, num) && den >= 0.0 && (any ==> den > 0.0) && (!any ==> num == 0.0)
    requires m.Fin? ==> e(m.x) > 0.0
    ensures (if !any || den == 0.0 then 0.0 else num / den) == if l > 0.0 then o / l else 0.0
  {
    if m.Fin? {
      var c := e(m.x);
      Signs(l, c, den);
      if l > 0.0 {
        Cancel(o, l, c);
        if !any {
          Zero(o, c);
        }
      }
    }
  }

  lemma Signs(l: real, c: real, den: real)
    requires c > 0.0 && l * c == den && den >= 0.0
    ensures l > 0.0 <==> den > 0.0
  {
  }

  lemma Zero(o: real, c: real)
    requires c > 0.0 && o * c == 0.0
    ensures o == 0.0
  {
  }

  // ---- The forms of attention.

  /** Two passes: the maximum of the visible logits and the sink, then the weights. */
  method Attention(e: Exp, x: Query, keys: seq<Key>, sink: Option<real>, d: nat) returns (out: seq<real>)
    requires IsExp(e) && Fits(x, keys, d)
    ensures out == Row(e, Terms(x, keys, d, 0, |keys|), sink, d)
  {
    hide IsExp, At, Den, Num, Query.Score, Mean;
    var m, any := 0.0, false;
    var j := 0;
    while j < |keys|
      invariant j <= |keys| && (any <==> Terms(x, keys, d, 0, j) != [])
    {
      if x.Visible(keys[j]) {
        var s := ScoreOf(x, keys[j]);
        m := if any && m >= s then m else s;
        any := true;
      }
      j := j + 1;
    }
    ghost var ts := Terms(x, keys, d, 0, |keys|);
    if !any {
      NoRows(e, sink, d);
      return seq(d, i => 0.0);
    }
    if sink.Some? && sink.value > m {
      m := sink.value;
    }
    var l, acc := 0.0, seq(d, i => 0.0);
    FlatStart(e, Fin(m), d);
    j := 0;
    while j < |keys|
      invariant j <= |keys| && |acc| == d && At(e, Fin(m), l, Den(e, Terms(x, keys, d, 0, j)))
      invariant forall i :: 0 <= i < d ==> At(e, Fin(m), acc[i], Num(e, Terms(x, keys, d, 0, j), d, i))
    {
      if x.Visible(keys[j]) {
        var s := ScoreOf(x, keys[j]);
        l, acc := AddRow(e, m, s, keys[j].v, l, acc, Terms(x, keys, d, 0, j), d);
      }
      j := j + 1;
    }
    if sink.Some? {
      assert Share(e, sink.value, 1.0) == e(sink.value);
      AddedAt(e, m, l, Den(e, ts), sink.value, 1.0);
      assert l + e(sink.value - m) == Plus(e, sink.value, m, l, 1.0);
      l := l + e(sink.value - m);
    }
    assert ReducedAt(e, Fin(m), l, acc, ts, sink, d);
    out := Normalise(e, l, acc, ts, sink, d);
  }

  method AddRow(e: Exp, m: real, s: real, v: seq<real>, l0: real, acc0: seq<real>, ghost ts: seq<Term>, ghost d: nat)
    returns (l: real, acc: seq<real>)
    requires IsExp(e) && |v| == d == |acc0| && AllWide(ts, d) && At(e, Fin(m), l0, Den(e, ts))
    requires forall i :: 0 <= i < d ==> At(e, Fin(m), acc0[i], Num(e, ts, d, i))
    ensures |acc| == d && At(e, Fin(m), l, Den(e, ts + [Term(s, v)]))
    ensures forall i :: 0 <= i < d ==> At(e, Fin(m), acc[i], Num(e, ts + [Term(s, v)], d, i))
  {
    hide IsExp, At, Share;
    OneShare(e, s);
    assert (ts + [Term(s, v)])[..|ts|] == ts;
    var p := e(s - m);
    AddedAt(e, m, l0, Den(e, ts), s, 1.0);
    assert l0 + p == Plus(e, s, m, l0, 1.0);
    l, acc := l0 + p, acc0;
    var i := 0;
    while i < |v|
      invariant i <= d == |acc|
      invariant forall k :: 0 <= k < i ==> At(e, Fin(m), acc[k], Num(e, ts + [Term(s, v)], d, k))
      invariant forall k :: i <= k < d ==> acc[k] == acc0[k]
    {
      AddedAt(e, m, acc[i], Num(e, ts, d, i), s, v[i]);
      assert acc[i] + p * v[i] == Plus(e, s, m, acc[i], v[i]);
      acc := acc[i := acc[i] + p * v[i]];
      i := i + 1;
    }
  }

  lemma NoRows(e: Exp, sink: Option<real>, d: nat)
    ensures Row(e, [], sink, d) == seq(d, i => 0.0)
  {
  }

  lemma DivLe(a: nat, b: nat, n: nat)
    requires a <= b && n > 0
    ensures a / n <= b / n
  {
    var x, y := a % n, b % n;
    Quotients(n, a / n, x, b / n, y);
  }

  lemma Quotients(n: nat, p: nat, x: nat, q: nat, y: nat)
    requires y < n && n * p + x <= n * q + y
    ensures p <= q
  {
    if p > q {
      MulUp(q + 1, p, n);
    }
  }

  lemma MulUp(a: nat, b: nat, n: nat)
    requires a <= b
    ensures n * a <= n * b
  {
  }

  lemma MulDiv(a: nat, n: nat)
    requires n > 0
    ensures a * n / n == a
  {
    var q, z := a * n / n, a * n % n;
    assert a * n == n * q + z;
    NoMultiple(n, a - q, z);
  }

  lemma NoMultiple(n: nat, a: int, z: nat)
    requires z < n && n * a == z
    ensures a == 0
  {
  }

  /** Where split `sp` of `n` starts. */
  function CutAt(rows: nat, sp: nat, n: nat): nat
    requires n > 0
  {
    rows * sp / n
  }

  lemma TimesLe(a: nat, b: nat, c: nat)
    requires b <= c
    ensures a * b <= a * c
  {
    assert a * c == a * b + a * (c - b);
  }

  lemma CutsAscend(rows: nat, sp: nat, n: nat)
    requires n > 0 && sp < n
    ensures CutAt(rows, sp, n) <= CutAt(rows, sp + 1, n) <= rows
  {
    CutEnds(rows, n);
    TimesLe(rows, sp, sp + 1);
    TimesLe(rows, sp + 1, n);
    DivLe(rows * sp, rows * (sp + 1), n);
    DivLe(rows * (sp + 1), rows * n, n);
  }

  lemma CutEnds(rows: nat, n: nat)
    requires n > 0
    ensures CutAt(rows, 0, n) == 0 && CutAt(rows, n, n) == rows
  {
    MulDiv(rows, n);
    assert rows * 0 == 0;
  }

  /** Split KV: any number of contiguous parts, then one reduction. */
  method SplitKv(e: Exp, x: Query, keys: seq<Key>, sink: Option<real>, splits: nat, d: nat) returns (out: seq<real>)
    requires IsExp(e) && Fits(x, keys, d)
    ensures out == Row(e, Terms(x, keys, d, 0, |keys|), sink, d)
  {
    hide IsExp, Sums, Query.Score, CutAt, Mean;
    var n := if splits == 0 then 1 else splits;
    var ps: seq<Partial> := [];
    ghost var parts: seq<seq<Term>> := [];
    CutEnds(|keys|, n);
    var sp := 0;
    while sp < n
      invariant sp <= n && |ps| == |parts| == sp && CutAt(|keys|, sp, n) <= |keys|
      invariant forall k :: 0 <= k < sp ==> fresh(ps[k]) && Sums(e, ps[k].m, ps[k].l, ps[k].o, parts[k], d)
      invariant Flat(parts, sp) == Terms(x, keys, d, 0, CutAt(|keys|, sp, n))
    {
      CutsAscend(|keys|, sp, n);
      var lo, hi := CutAt(|keys|, sp, n), CutAt(|keys|, sp + 1, n);
      var p := new Partial(d);
      FoldRange(e, p, x, keys, lo, hi, [], d);
      ghost var part := Terms(x, keys, d, lo, hi);
      assert [] + part == part;
      TermsJoin(x, keys, d, 0, lo, hi);
      FlatPush(parts, part);
      ps, parts := ps + [p], parts + [part];
      sp := sp + 1;
    }
    var l, o := ReducePartials(e, ps, sink, parts, d);
    out := Normalise(e, l, o, Terms(x, keys, d, 0, |keys|), sink, d);
  }

  lemma {:induction false} FlatSame(a: seq<seq<Term>>, b: seq<seq<Term>>, k: nat)
    requires k <= |a| && k <= |b| && forall i :: 0 <= i < k ==> a[i] == b[i]
    ensures Flat(a, k) == Flat(b, k)
  {
    if k > 0 {
      FlatSame(a, b, k - 1);
    }
  }

  lemma FlatPush(parts: seq<seq<Term>>, part: seq<Term>)
    ensures Flat(parts + [part], |parts| + 1) == Flat(parts, |parts|) + part
  {
    FlatSame(parts + [part], parts, |parts|);
  }

  /** One part holding everything, reduced. */
  method ReduceOne(e: Exp, p: Partial, sink: Option<real>, ghost ts: seq<Term>, ghost d: nat) returns (out: seq<real>)
    requires IsExp(e) && Sums(e, p.m, p.l, p.o, ts, d)
    ensures AllWide(ts, d) && out == Row(e, ts, sink, d)
  {
    hide IsExp, Sums, Mean;
    SumsWide(e, p.m, p.l, p.o, ts, d);
    assert Flat([ts], 0) + [ts][0] == ts;
    assert Flat([ts], 1) == ts;
    var l, o := ReducePartials(e, [p], sink, [ts], d);
    out := Normalise(e, l, o, ts, sink, d);
  }

  /** Chunks folded into one running state, then the reduction. */
  method Chunked(e: Exp, x: Query, keys: seq<Key>, sink: Option<real>, keysPerChunk: nat, d: nat) returns (out: seq<real>)
    requires IsExp(e) && Fits(x, keys, d)
    ensures out == Row(e, Terms(x, keys, d, 0, |keys|), sink, d)
  {
    hide IsExp, Sums, Query.Score, Mean;
    var c := if keysPerChunk == 0 then 1 else keysPerChunk;
    var p := new Partial(d);
    var lo := 0;
    while lo < |keys|
      invariant lo <= |keys| && fresh(p) && Sums(e, p.m, p.l, p.o, Terms(x, keys, d, 0, lo), d)
    {
      var hi := if lo + c <= |keys| then lo + c else |keys|;
      FoldRange(e, p, x, keys, lo, hi, Terms(x, keys, d, 0, lo), d);
      TermsJoin(x, keys, d, 0, lo, hi);
      lo := hi;
    }
    out := ReduceOne(e, p, sink, Terms(x, keys, d, 0, |keys|), d);
  }
}
