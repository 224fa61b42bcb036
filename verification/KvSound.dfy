/** What a device cache stands for: a token history. A GA layer holds the rows of the whole
    history, an SWA layer a run of its newest rows, at least `window - 1` of them (or all). */
module KvSound {
  import opened Basics
  import opened Transformer
  import opened DeviceKvCache

  /** The last `n` rows of `full`. */
  function Tail(full: seq<Row>, n: nat): (r: seq<Row>)
    requires n <= |full|
    ensures |r| == n
  {
    Span(full, |full| - n, |full|)
  }

  /** The rows of a layer are the newest of `full`: all of them on a GA layer, at least the
      window before the next query on an SWA layer. */
  ghost predicate Holds(lay: LayerKv, full: seq<Row>) {
    && lay.Valid() && |lay.rows| <= |full| && lay.rows == Tail(full, |lay.rows|)
    && |lay.rows| >= (if lay.kind.Ga? then |full| else Min(|full|, lay.window - 1))
  }

  /** Layer `l` of a cache holds the rows of the first `n` tokens of `toks`. */
  ghost predicate LayerAt(m: Model, lay: LayerKv, l: nat, toks: seq<Token>, n: nat) {
    && m.Valid() && l < |m.kinds| && n <= |toks|
    && lay.kind == m.kinds[l] && (lay.kind.Swa? ==> lay.window == m.window)
    && Holds(lay, Hist(m, toks, l, n))
  }

  /** The layers have the model's kinds, and SWA layers keep their build capacity. */
  ghost predicate Shaped(m: Model, v: Kv) {
    && m.Valid() && |v.layers| == |m.kinds| && v.Valid() && v.Uniform(m.window)
    && (forall l :: 0 <= l < |v.layers| ==> v.layers[l].kind == m.kinds[l])
    && (forall l :: 0 <= l < |v.layers| && v.layers[l].kind.Swa? ==> v.layers[l].cap >= v.swaCap0)
  }

  ghost predicate Stands(m: Model, v: Kv, toks: seq<Token>) {
    && Shaped(m, v) && v.tokens == |toks|
    && forall l :: 0 <= l < |v.layers| ==> LayerAt(m, v.layers[l], l, toks, |toks|)
  }

  ghost predicate StartsWith(rows: seq<Row>, full: seq<Row>) {
    |rows| >= |full| && Span(rows, 0, |full|) == full
  }

  /** The last `k` rows, or all of them when there are fewer. */
  function Newest(full: seq<Row>, k: nat): (r: seq<Row>)
    ensures |r| == Min(|full|, k)
  {
    Tail(full, Min(|full|, k))
  }

  /** The first `|toks|` GA rows are those of `toks`, whatever follows them. */
  ghost predicate GaHolds(m: Model, v: Kv, toks: seq<Token>) {
    && Shaped(m, v)
    && forall l :: 0 <= l < |v.layers| && v.layers[l].kind.Ga? ==>
         StartsWith(v.layers[l].rows, Hist(m, toks, l, |toks|))
  }

  /** `state` is what a snapshot taken at `toks` keeps of the SWA layers. */
  ghost predicate SavedAt(m: Model, state: seq<seq<Row>>, toks: seq<Token>) {
    && m.Valid() && |state| == |m.kinds|
    && forall l :: 0 <= l < |m.kinds| && m.kinds[l].Swa? ==>
         state[l] == Newest(Hist(m, toks, l, |toks|), m.window - 1)
  }

  lemma StandsTokens(m: Model, v: Kv, toks: seq<Token>)
    requires Stands(m, v, toks)
    ensures v.tokens == |toks|
  {
  }

  /** A fresh cache stands for no tokens. */
  lemma FreshStands(m: Model, v: Kv)
    requires Shaped(m, v) && v.tokens == 0
    requires forall l :: 0 <= l < |v.layers| ==> v.layers[l].rows == []
    ensures Stands(m, v, [])
  {
    forall l | 0 <= l < |v.layers|
      ensures LayerAt(m, v.layers[l], l, [], 0)
    {
      assert Hist(m, [], l, 0) == [];
    }
  }

  lemma TailOfTail(full: seq<Row>, a: nat, b: nat)
    requires b <= a <= |full|
    ensures Tail(Tail(full, a), b) == Tail(full, b)
  {
    hide Span;
    SpanOfSpan(full, |full| - a, |full|, a - b, a);
  }

  /** What making room does to the rows: nothing, or an SWA layer keeps its window. */
  lemma PreparedRows(lay: LayerKv, t: nat)
    requires lay.Valid()
    ensures var r := lay.Prepared(t).rows;
            |r| <= |lay.rows| && r == Tail(lay.rows, |r|) &&
            |r| >= (if lay.kind.Ga? then |lay.rows| else Min(|lay.rows|, lay.window - 1))
  {
    SpanWhole(lay.rows);
  }

  /** One append keeps the layer standing, and leaves at least the window before the block in
      front of it: a compaction never costs the block's own first query a row. */
  lemma AppendHolds(lay: LayerKv, full: seq<Row>, new_: seq<Row>)
    requires Holds(lay, full)
    ensures Holds(lay.Appended(new_), full + new_)
    ensures lay.kind.Swa? ==> |lay.Appended(new_).rows| >= |new_| + Min(|full|, lay.window - 1)
  {
    hide Span;
    hide LayerKv.Prepared;
    PreparedRows(lay, |new_|);
    var p := lay.Prepared(|new_|);
    TailOfTail(full, |lay.rows|, |p.rows|);
    SpanOfJoin(full, new_, |full| - |p.rows|);
  }

  /** A layer whose remaining rows still cover the window may lose its newest rows. */
  lemma TruncateHolds(lay: LayerKv, full: seq<Row>, drop: nat)
    requires Holds(lay, full) && drop <= |lay.rows|
    requires |lay.rows| - drop >= (if lay.kind.Ga? then |full| - drop else Min(|full| - drop, lay.window - 1))
    ensures Holds(lay.Truncated(drop), Span(full, 0, |full| - drop))
  {
    hide Span;
    SpanOfSpan(full, |full| - |lay.rows|, |full|, 0, |lay.rows| - drop);
    SpanOfSpan(full, 0, |full| - drop, |full| - |lay.rows|, |full| - drop);
  }

  /** After a one-append block any rejected tail of the block can be dropped. */
  lemma RollbackHolds(lay: LayerKv, full: seq<Row>, new_: seq<Row>, drop: nat)
    requires Holds(lay, full) && drop <= |new_|
    ensures drop <= |lay.Appended(new_).rows|
    ensures Holds(lay.Appended(new_).Truncated(drop), Span(full + new_, 0, |full| + |new_| - drop))
  {
    hide Span;
    hide LayerKv.Appended;
    AppendHolds(lay, full, new_);
    TruncateHolds(lay.Appended(new_), full + new_, drop);
  }

  /** The rows the verify and decode kernels are given: on a windowed layer the last
      `window + t - 1`. */
  function KernelRows(m: Model, lay: LayerKv, t: nat): seq<Row>
    requires m.Valid()
  {
    if lay.kind.Swa? then lay.Last(Min(m.window + t - 1, |lay.rows|)) else lay.rows
  }

  /** The layer was prepared for its model's layer `l`. */
  predicate Belongs(m: Model, lay: LayerKv, l: nat) {
    m.Valid() && l < |m.kinds| && lay.kind == m.kinds[l] && (lay.kind.Swa? ==> lay.window == m.window)
  }

  /** Every query of the block just appended sees, in the rows the kernel reads, exactly what it
      would see in the full history. */
  lemma KernelSees(m: Model, lay: LayerKv, l: nat, full: seq<Row>, new_: seq<Row>, q: nat)
    requires Belongs(m, lay, l) && Holds(lay, full)
    requires Contiguous(full + new_, 0) && |full| <= q < |full| + |new_|
    ensures m.VisibleRows(l, q, KernelRows(m, lay.Appended(new_), |new_|)) ==
            m.VisibleRows(l, q, Span(full + new_, 0, q + 1))
  {
    hide Span;
    hide LayerKv.Appended;
    hide Model.VisibleRows;
    AppendHolds(lay, full, new_);
    var r, f := lay.Appended(new_), full + new_;
    var n := if r.kind.Swa? then Min(m.window + |new_| - 1, |r.rows|) else |r.rows|;
    TailOfTail(f, |r.rows|, n);
    assert KernelRows(m, r, |new_|) == Tail(f, n);
    TailSees(m, l, f, |f| - n, q);
  }

  /** The prefill kernel masks by row index, not by position: query `j` of the block is row
      `row0 + j` of the cache. */
  function IndexVisible(m: Model, l: nat, at: nat, rows: seq<Row>): seq<Row>
    requires l < |m.kinds|
  {
    if rows == [] then []
    else
      var rest := IndexVisible(m, l, at, rows[..|rows| - 1]);
      if m.Visible(l, at, |rows| - 1) then rest + [rows[|rows| - 1]] else rest
  }

  /** Consecutive positions make the index mask and the position mask the same. */
  lemma {:induction false} IndexMask(m: Model, l: nat, at: nat, rows: seq<Row>, a: nat)
    requires l < |m.kinds| && Contiguous(rows, a)
    ensures IndexVisible(m, l, at, rows) == m.VisibleRows(l, a + at, rows)
    decreases |rows|
  {
    if rows != [] {
      IndexMask(m, l, at, rows[..|rows| - 1], a);
    }
  }

  /** The prefill kernel, given the whole layer, sees what the full history shows too. */
  lemma PrefillSees(m: Model, lay: LayerKv, l: nat, full: seq<Row>, new_: seq<Row>, q: nat)
    requires Belongs(m, lay, l) && Holds(lay, full)
    requires Contiguous(full + new_, 0) && |full| <= q < |full| + |new_|
    ensures |lay.Appended(new_).rows| >= |new_|
    ensures IndexVisible(m, l, |lay.Appended(new_).rows| - |new_| + (q - |full|), lay.Appended(new_).rows) ==
            m.VisibleRows(l, q, Span(full + new_, 0, q + 1))
  {
    hide Span;
    hide LayerKv.Appended;
    hide Model.VisibleRows;
    hide IndexVisible;
    AppendHolds(lay, full, new_);
    var r, f := lay.Appended(new_), full + new_;
    var a := |f| - |r.rows|;
    SpanContiguous(f, 0, a, |f|);
    IndexMask(m, l, |r.rows| - |new_| + (q - |full|), r.rows, a);
    TailSees(m, l, f, a, q);
  }

  /** A block appended in two halves of `a` and `b` rows, then cut back to its first `keep`. */
  function SplitBlock(lay: LayerKv, x: seq<Row>, y: seq<Row>, keep: nat): LayerKv
    requires lay.Valid() && keep <= |x| + |y|
    requires |x| + |y| - keep <= |lay.Appended(x).Appended(y).rows|
  {
    lay.Appended(x).Appended(y).Truncated(|x| + |y| - keep)
  }

  /** Whether the second append of a split block compacts the layer and finds more rows than
      the window: the window it keeps then counts the first half of the block. */
  predicate SecondCompacts(lay: LayerKv, a: nat, b: nat)
    requires lay.Valid() && lay.kind.Swa?
  {
    var p := lay.Prepared(a);
    |p.rows| + a + b > p.cap && |p.rows| + a >= lay.window - 1
  }

  /** The exact condition for a block split over two lanes: the rejected rows can be dropped and
      the layer then still stands, unless the second half's append compacted and fewer than the
      whole first half (counting the request's own last token) was accepted. */
  lemma SplitBlockWindow(lay: LayerKv, full: seq<Row>, x: seq<Row>, y: seq<Row>, keep: nat)
    requires Holds(lay, full) && lay.kind.Swa? && 1 <= keep <= |x| + |y|
    ensures SplitStands(lay, full, x, y, keep) <==>
              !SecondCompacts(lay, |x|, |y|) || keep >= |x| || |full| + |x| <= lay.window - 1
    ensures |x| <= lay.window ==> |x| + |y| - keep <= |lay.Appended(x).Appended(y).rows|
  {
    hide Span, LayerKv.Appended, LayerKv.Truncated;
    SplitRows(lay, full, x, y);
    AppendHolds(lay, full, x);
    AppendHolds(lay.Appended(x), full + x, y);
    if |x| + |y| - keep <= |lay.Appended(x).Appended(y).rows| {
      SplitHolds(lay.Appended(x).Appended(y), full + x + y, |x| + |y| - keep);
    }
  }

  /** The truncate after a split block is possible, and leaves the layer standing. */
  ghost predicate SplitStands(lay: LayerKv, full: seq<Row>, x: seq<Row>, y: seq<Row>, keep: nat)
    requires lay.Valid() && keep <= |x| + |y|
  {
    && |x| + |y| - keep <= |lay.Appended(x).Appended(y).rows|
    && Holds(SplitBlock(lay, x, y, keep), Span(full + x + y, 0, |full| + keep))
  }

  /** Dropping `drop` rows leaves the window exactly when enough rows remain. */
  lemma SplitHolds(lay: LayerKv, full: seq<Row>, drop: nat)
    requires Holds(lay, full) && lay.kind.Swa? && drop <= |lay.rows|
    ensures Holds(lay.Truncated(drop), Span(full, 0, |full| - drop)) <==>
              |lay.rows| - drop >= Min(|full| - drop, lay.window - 1)
  {
    hide Span;
    if |lay.rows| - drop >= Min(|full| - drop, lay.window - 1) {
      TruncateHolds(lay, full, drop);
    }
  }

  /** How many rows a split block leaves. */
  lemma SplitRows(lay: LayerKv, full: seq<Row>, x: seq<Row>, y: seq<Row>)
    requires Holds(lay, full) && lay.kind.Swa?
    ensures |lay.Appended(x).Appended(y).rows| ==
            (if SecondCompacts(lay, |x|, |y|) then lay.window - 1 else |lay.Prepared(|x|).rows| + |x|) + |y|
  {
    hide Span;
  }

  /** The condition fails on a real configuration: a 128-token window, the build capacity of 191
      rows, 187 of them in use, a block of 8 split in two halves of 4 and only the request's
      last token accepted. The layer is left with 124 rows where the next query sees 127. */
  lemma SplitBlockLosesRows(full: seq<Row>, x: seq<Row>, y: seq<Row>)
    requires |full| == 187 && |x| == 4 && |y| == 4
    ensures var lay := LayerKv(Swa, 128, 191, full);
            && Holds(lay, full) && |lay.Appended(x).Appended(y).rows| >= 7
            && |SplitBlock(lay, x, y, 1).rows| == 124
            && !Holds(SplitBlock(lay, x, y, 1), Span(full + x + y, 0, 188))
  {
    SpanWhole(full);
    hide Span;
    var lay := LayerKv(Swa, 128, 191, full);
    assert lay.Appended(x).rows == full + x;
    assert |lay.Appended(x).Prepared(4).rows| == 127;
  }

  // ---- Whole-cache operations.

  lemma ResizedHolds(lay: LayerKv, full: seq<Row>, n: nat)
    requires Holds(lay, full)
    ensures Holds(lay.ReservedSwa(n), full) && Holds(lay.ReservedGa(n), full)
    ensures lay.window >= 1 && n >= lay.window - 1 ==> Holds(lay.ShrunkSwa(n), full)
  {
    if lay.window >= 1 && n >= lay.window - 1 {
      TailOfTail(full, |lay.rows|, Min(|lay.rows|, lay.window - 1));
    }
  }

  lemma ShrinkStands(m: Model, v: Kv, toks: seq<Token>)
    requires Stands(m, v, toks)
    ensures Stands(m, v.ShrunkSwa(), toks)
  {
    ShapeShrinkSwa(m, v);
    var r := v.ShrunkSwa();
    forall l | 0 <= l < |r.layers|
      ensures LayerAt(m, r.layers[l], l, toks, |toks|)
    {
      ResizedHolds(v.layers[l], Hist(m, toks, l, |toks|), v.swaCap0);
    }
  }

  lemma ReserveSwaStands(m: Model, v: Kv, toks: seq<Token>)
    requires Stands(m, v, toks)
    ensures Stands(m, v.ReservedSwa(), toks)
  {
    ShapeReserveSwa(m, v);
    var r := v.ReservedSwa();
    forall l | 0 <= l < |r.layers|
      ensures LayerAt(m, r.layers[l], l, toks, |toks|)
    {
      ResizedHolds(v.layers[l], Hist(m, toks, l, |toks|), Round64(v.KeepMax() + v.maxChunk));
    }
  }

  lemma ReserveGaStands(m: Model, v: Kv, toks: seq<Token>, n: nat)
    requires Stands(m, v, toks)
    ensures Stands(m, v.ReservedGa(n), toks)
  {
    ShapeReserveGa(m, v, n);
    var r := v.ReservedGa(n);
    forall l | 0 <= l < |r.layers|
      ensures LayerAt(m, r.layers[l], l, toks, |toks|)
    {
      ResizedHolds(v.layers[l], Hist(m, toks, l, |toks|), n);
    }
  }

  lemma ShapeShrinkSwa(m: Model, v: Kv)
    requires Shaped(m, v)
    ensures Shaped(m, v.ShrunkSwa())
  {
  }

  lemma ShapeReserveSwa(m: Model, v: Kv)
    requires Shaped(m, v)
    ensures Shaped(m, v.ReservedSwa())
  {
  }

  lemma ShapeReserveGa(m: Model, v: Kv, n: nat)
    requires Shaped(m, v)
    ensures Shaped(m, v.ReservedGa(n))
  {
  }

  /** Emptying a cache leaves one that stands for no tokens. */
  lemma ClearedStands(m: Model, v: Kv)
    requires Shaped(m, v)
    ensures Stands(m, v.Cleared(), [])
  {
    assert Shaped(m, v.Cleared());
    FreshStands(m, v.Cleared());
  }

  lemma ShrunkGaStands(m: Model, v: Kv)
    requires Shaped(m, v)
    ensures Stands(m, v.ShrunkGa(), [])
  {
    assert Shaped(m, v.ShrunkGa());
    FreshStands(m, v.ShrunkGa());
  }

  lemma KeepMaxIsWindow(m: Model, v: Kv, l: nat)
    requires Shaped(m, v) && l < |v.layers| && v.layers[l].kind.Swa?
    ensures v.KeepMax() == m.window - 1
  {
    FirstSwaKeepIsWindow(v.layers, l, m.window);
  }

  lemma SavedRows(lay: LayerKv, full: seq<Row>)
    requires Holds(lay, full) && lay.kind.Swa?
    ensures lay.Saved(lay.window - 1) == Newest(full, lay.window - 1)
  {
    TailOfTail(full, |lay.rows|, Min(|full|, lay.window - 1));
  }

  /** Saving never meets SWA layers that disagree. */
  lemma SaveAgrees(m: Model, v: Kv)
    requires Shaped(m, v)
    ensures forall k, l :: 0 <= k < |v.layers| && 0 <= l < |v.layers| && v.layers[k].kind.Swa? && v.layers[l].kind.Swa? ==>
              Min(|v.layers[k].rows|, v.KeepMax()) == Min(|v.layers[l].rows|, v.KeepMax())
  {
    forall k, l | 0 <= k < |v.layers| && 0 <= l < |v.layers| && v.layers[k].kind.Swa? && v.layers[l].kind.Swa?
      ensures |v.layers[k].rows| == |v.layers[l].rows|
    {
      assert k < l || l < k || k == l;
    }
  }

  lemma SavedLayer(m: Model, v: Kv, toks: seq<Token>, l: nat)
    requires Stands(m, v, toks) && l < |m.kinds| && m.kinds[l].Swa?
    ensures v.SavedWith(m.window - 1)[l] == Newest(Hist(m, toks, l, |toks|), m.window - 1)
  {
    assert LayerAt(m, v.layers[l], l, toks, |toks|);
    SavedRows(v.layers[l], Hist(m, toks, l, |toks|));
  }

  /** Saving keeps what `SavedAt` asks. */
  lemma SaveSound(m: Model, v: Kv, toks: seq<Token>)
    requires Stands(m, v, toks)
    ensures SavedAt(m, v.Saved(), toks)
  {
    forall l | 0 <= l < |m.kinds| && m.kinds[l].Swa?
      ensures v.Saved()[l] == Newest(Hist(m, toks, l, |toks|), m.window - 1)
    {
      KeepMaxIsWindow(m, v, l);
      SavedLayer(m, v, toks, l);
    }
  }

  /** The first `p` rows of a history that starts a layer are those of the first `p` tokens. */
  lemma PrefixRows(m: Model, rows: seq<Row>, l: nat, toks: seq<Token>, p: nat)
    requires m.Valid() && l < |m.kinds| && p <= |toks| && StartsWith(rows, Hist(m, toks, l, |toks|))
    ensures StartsWith(rows, Hist(m, toks[..p], l, p))
  {
    hide Span;
    HistPrefix(m, toks, l, p, |toks|);
    HistCausal(m, toks, toks[..p], l, p);
    SpanOfSpan(rows, 0, |toks|, 0, p);
  }

  lemma GaHoldsPrefix(m: Model, v: Kv, toks: seq<Token>, p: nat)
    requires GaHolds(m, v, toks) && p <= |toks|
    ensures GaHolds(m, v, toks[..p])
  {
    forall l | 0 <= l < |v.layers| && v.layers[l].kind.Ga?
      ensures StartsWith(v.layers[l].rows, Hist(m, toks[..p], l, p))
    {
      PrefixRows(m, v.layers[l].rows, l, toks, p);
    }
  }

  lemma GaIsFull(lay: LayerKv, full: seq<Row>)
    requires Holds(lay, full) && lay.kind.Ga?
    ensures StartsWith(lay.rows, full)
  {
    SpanWhole(full);
  }

  lemma StandsHolds(m: Model, v: Kv, toks: seq<Token>)
    requires Stands(m, v, toks)
    ensures GaHolds(m, v, toks)
  {
    forall l | 0 <= l < |v.layers| && v.layers[l].kind.Ga?
      ensures StartsWith(v.layers[l].rows, Hist(m, toks, l, |toks|))
    {
      assert LayerAt(m, v.layers[l], l, toks, |toks|);
      GaIsFull(v.layers[l], Hist(m, toks, l, |toks|));
    }
  }

  /** A cache that stands for `toks` holds the GA rows of every prefix of it. */
  lemma StandsHoldsPrefix(m: Model, v: Kv, toks: seq<Token>, p: nat)
    requires Stands(m, v, toks) && p <= |toks|
    ensures GaHolds(m, v, toks[..p])
  {
    StandsHolds(m, v, toks);
    GaHoldsPrefix(m, v, toks, p);
  }

  lemma ShapeLoaded(m: Model, v: Kv, state: seq<seq<Row>>, p: nat, k: nat)
    requires Shaped(m, v) && |state| == |m.kinds| && k <= m.window - 1
    requires forall l :: 0 <= l < |v.layers| && v.layers[l].kind.Ga? ==> p <= |v.layers[l].rows|
    requires forall l :: 0 <= l < |m.kinds| && m.kinds[l].Swa? ==> |state[l]| == k
    ensures Shaped(m, v.Rewound(p).Loaded(state))
  {
  }

  /** Loading a snapshot: a cache whose GA rows start with the snapshot's and whose SWA layers
      hold anything at all, cut back and loaded, stands for the snapshot's tokens exactly as a
      cold prefill of them would. */
  lemma LoadStands(m: Model, v: Kv, state: seq<seq<Row>>, toks: seq<Token>)
    requires GaHolds(m, v, toks) && SavedAt(m, state, toks)
    ensures Stands(m, v.Rewound(|toks|).Loaded(state), toks)
  {
    var k: nat := Min(|toks|, m.window - 1);
    ShapeLoaded(m, v, state, |toks|, k);
    var r := v.Rewound(|toks|).Loaded(state);
    forall l | 0 <= l < |r.layers|
      ensures LayerAt(m, r.layers[l], l, toks, |toks|)
    {
      SpanWhole(Hist(m, toks, l, |toks|));
    }
  }

  lemma ShapeForked(m: Model, v: Kv, src: Kv, n: nat)
    requires Shaped(m, v) && Shaped(m, src)
    requires forall l :: 0 <= l < |src.layers| && src.layers[l].kind.Ga? ==> n <= |src.layers[l].rows|
    ensures Shaped(m, v.Forked(src, n))
  {
    var r := v.Forked(src, n);
    forall l | 0 <= l < |r.layers|
      ensures r.layers[l].Valid() && r.layers[l].kind == m.kinds[l]
    {
      assert r.layers[l] == v.layers[l].ReservedGa(n).Forked(src.layers[l], n);
    }
  }

  /** A fork holds the source's GA rows. */
  lemma ForkHolds(m: Model, v: Kv, src: Kv, toks: seq<Token>)
    requires Shaped(m, v) && GaHolds(m, src, toks)
    ensures Shaped(m, v.Forked(src, |toks|)) && GaHolds(m, v.Forked(src, |toks|), toks)
  {
    ShapeForked(m, v, src, |toks|);
    var r := v.Forked(src, |toks|);
    forall l | 0 <= l < |r.layers| && r.layers[l].kind.Ga?
      ensures StartsWith(r.layers[l].rows, Hist(m, toks, l, |toks|))
    {
      SpanWhole(src.layers[l].rows);
      SpanWhole(r.layers[l].rows);
    }
  }

  /** The cache can be cut back to its first `n` tokens. */
  predicate Cuttable(v: Kv, n: nat) {
    n <= v.tokens && forall l :: 0 <= l < |v.layers| ==> v.tokens - n <= |v.layers[l].rows|
  }

  /** The cache can be cut back to its first `n` tokens, and then stands for those of `toks`. */
  ghost predicate CutStands(m: Model, v: Kv, toks: seq<Token>, n: nat) {
    Cuttable(v, n) && n <= |toks| && Stands(m, v.Truncated(n), toks[..n])
  }

  /** Cutting back twice is cutting back once. */
  lemma CutTwice(v: Kv, a: nat, b: nat)
    requires b <= a <= v.tokens && forall l :: 0 <= l < |v.layers| ==> v.tokens - a <= |v.layers[l].rows|
    ensures (forall l :: 0 <= l < |v.layers| ==> a - b <= |v.Truncated(a).layers[l].rows|) <==>
            (forall l :: 0 <= l < |v.layers| ==> v.tokens - b <= |v.layers[l].rows|)
    ensures (forall l :: 0 <= l < |v.layers| ==> v.tokens - b <= |v.layers[l].rows|) ==>
            v.Truncated(a).Truncated(b) == v.Truncated(b)
  {
    hide Span;
    assert forall l :: 0 <= l < |v.layers| ==> |v.Truncated(a).layers[l].rows| == |v.layers[l].rows| - (v.tokens - a);
    if forall l :: 0 <= l < |v.layers| ==> v.tokens - b <= |v.layers[l].rows| {
      var r, d := v.Truncated(a).Truncated(b), v.Truncated(b);
      forall l | 0 <= l < |v.layers|
        ensures r.layers[l] == d.layers[l]
      {
        var rows := v.layers[l].rows;
        SpanOfSpan(rows, 0, |rows| - (v.tokens - a), 0, |rows| - (v.tokens - b));
      }
    }
  }

  /** A slot whose layers are of the model's kinds and at least the build size, whatever their
      rows: what a failed forward leaves. */
  ghost predicate Usable(m: Model, v: Kv) {
    && m.Valid() && |v.layers| == |m.kinds| && v.Valid() && v.swaCap0 == m.window - 1 + SWA_SLACK_ROWS
    && (forall l :: 0 <= l < |v.layers| ==> v.layers[l].kind == m.kinds[l])
    && (forall l :: 0 <= l < |v.layers| && v.layers[l].kind.Swa? ==> v.layers[l].window == m.window && v.layers[l].cap >= v.swaCap0)
  }

  lemma ShapedUsable(m: Model, v: Kv)
    requires Shaped(m, v)
    ensures Usable(m, v)
  {
  }

  lemma StandsUsable(m: Model, v: Kv, toks: seq<Token>)
    requires Stands(m, v, toks)
    ensures Usable(m, v)
  {
  }

  lemma CutUsable(m: Model, v: Kv, n: nat)
    requires Usable(m, v) && n <= v.tokens && forall l :: 0 <= l < |v.layers| ==> v.tokens - n <= |v.layers[l].rows|
    ensures Usable(m, v.Truncated(n))
  {
    hide Span;
  }

  /** A truncate that failed part way leaves a usable cache. */
  lemma PartlyCutUsable(m: Model, v: Kv, r: Kv, drop: nat)
    requires Usable(m, v) && r == v.(layers := r.layers) && |r.layers| == |v.layers|
    requires forall l :: 0 <= l < |v.layers| ==>
      r.layers[l] == v.layers[l] || (drop <= |v.layers[l].rows| && r.layers[l] == v.layers[l].Truncated(drop))
    ensures Usable(m, r)
  {
    hide Span;
  }
}
