/** One pass of the model over one or two lanes of rows. Each lane is a list of segments, a
    segment being consecutive new rows of one request; a request's segments follow one another
    in lane order. Layer by layer, each lane collects the expert reply it is still owed, attends
    (appending its rows to the requests' caches) and, on a MoE layer, sends its rows to the
    experts without waiting: while one lane's exchange is in flight the other lane attends.
    The exchanges come back in the order they were sent.

    The prefill of one prompt, the batched prefill, the batched decode and the speculative
    verify pass are all this schedule with different segments. */
module Lanes {
  import opened Basics
  import opened Transformer
  import opened DeviceKvCache
  import opened KvSound

  /** `len` new rows of request `req`, the first at offset `start` of its block. */
  datatype Seg = Seg(req: nat, start: nat, len: nat)

  /** A row of a lane: its request and its absolute position. */
  datatype Slot = Slot(req: nat, pos: nat)

  /** One MoE exchange: the layer it belongs to and its rows. */
  datatype Exchange = Exchange(layer: nat, rows: seq<Message>)

  /** The expert transport: exchanges in flight, oldest first, at most `limit` of them. */
  class Wire {
    var inflight: seq<Exchange>
    const limit: nat

    constructor (pipelined: bool)
      ensures inflight == [] && limit == (if pipelined then 2 else 1)
    {
      inflight := [];
      limit := if pipelined then 2 else 1;
    }

    method Send(layer: nat, rows: seq<Message>) returns (ok: bool)
      modifies this
      ensures ok <==> |old(inflight)| < limit
      ensures inflight == if ok then old(inflight) + [Exchange(layer, rows)] else old(inflight)
    {
      if |inflight| >= limit {
        return false;
      }
      inflight := inflight + [Exchange(layer, rows)];
      return true;
    }

    /** The oldest exchange's layer and replies. */
    method Recv(m: Model) returns (ok: bool, layer: nat, replies: seq<Reply>)
      modifies this
      ensures ok <==> old(inflight) != []
      ensures ok ==> layer == old(inflight)[0].layer && inflight == old(inflight)[1..]
      ensures ok ==> |replies| == |old(inflight)[0].rows| &&
                     forall r :: 0 <= r < |replies| ==> replies[r] == m.experts(layer, old(inflight)[0].rows[r])
    {
      if inflight == [] {
        return false, 0, [];
      }
      var x := inflight[0];
      inflight := inflight[1..];
      return true, x.layer, seq(|x.rows|, r requires 0 <= r < |x.rows| => m.experts(x.layer, x.rows[r]));
    }
  }

  // ---- Segments.

  /** How many rows of request `i` the first `k` segments hold. */
  function Before(segs: seq<Seg>, k: nat, i: nat): nat
    requires k <= |segs|
  {
    if k == 0 then 0 else Before(segs, k - 1, i) + (if segs[k - 1].req == i then segs[k - 1].len else 0)
  }

  lemma {:induction false} BeforeGrows(segs: seq<Seg>, j: nat, k: nat, i: nat)
    requires j <= k <= |segs|
    ensures Before(segs, j, i) <= Before(segs, k, i)
    decreases k
  {
    if j < k {
      BeforeGrows(segs, j, k - 1, i);
    }
  }

  /** The rows of segments `from` to `end - 1`; request `i`'s block starts at `starts[i]`. */
  function Slots(starts: seq<nat>, segs: seq<Seg>, from: nat, end: nat): seq<Slot>
    requires from <= end <= |segs| && forall k :: 0 <= k < |segs| ==> segs[k].req < |starts|
    decreases end
  {
    if from == end then [] else Slots(starts, segs, from, end - 1) + SegSlots(segs[end - 1], starts[segs[end - 1].req])
  }

  function SegSlots(seg: Seg, base: nat): (r: seq<Slot>)
    ensures |r| == seg.len
  {
    seq(seg.len, j requires 0 <= j < seg.len => Slot(seg.req, base + seg.start + j))
  }

  /** Segment `k`'s rows follow those of the segments before it. */
  lemma {:induction false} SlotsPrefix(starts: seq<nat>, segs: seq<Seg>, from: nat, k: nat, end: nat)
    requires from <= k <= end <= |segs| && forall k :: 0 <= k < |segs| ==> segs[k].req < |starts|
    ensures Slots(starts, segs, from, k) <= Slots(starts, segs, from, end)
    decreases end
  {
    if k < end {
      SlotsPrefix(starts, segs, from, k, end - 1);
    }
  }

  /** A layer of request `i` after the first `k` segments' appends; `full` is the layer's history
      through the whole block, of which the layer held the first `n` rows. */
  function LayerState(lay: LayerKv, full: seq<Row>, n: nat, segs: seq<Seg>, k: nat, i: nat): (r: LayerKv)
    requires lay.Valid() && k <= |segs| && n + Before(segs, k, i) <= |full|
    ensures r.Valid() && r.kind == lay.kind && r.window == lay.window
  {
    if k == 0 then lay
    else
      var prev := LayerState(lay, full, n, segs, k - 1, i);
      if segs[k - 1].req == i then prev.Appended(Span(full, n + Before(segs, k - 1, i), n + Before(segs, k, i))) else prev
  }

  lemma StepHolds(lay: LayerKv, full: seq<Row>, a: nat, b: nat)
    requires a <= b <= |full| && Holds(lay, Span(full, 0, a))
    ensures Holds(lay.Appended(Span(full, a, b)), Span(full, 0, b))
  {
    hide Span;
    hide LayerKv.Appended;
    SpanJoin(full, 0, a, b);
    AppendHolds(lay, Span(full, 0, a), Span(full, a, b));
  }

  lemma {:induction false} StateHolds(lay: LayerKv, full: seq<Row>, n: nat, segs: seq<Seg>, k: nat, i: nat)
    requires lay.Valid() && k <= |segs| && n + Before(segs, k, i) <= |full| && Holds(lay, Span(full, 0, n))
    ensures Holds(LayerState(lay, full, n, segs, k, i), Span(full, 0, n + Before(segs, k, i)))
    decreases k
  {
    hide Span;
    hide LayerKv.Appended;
    hide Holds;
    if k > 0 {
      StateHolds(lay, full, n, segs, k - 1, i);
      StepHolds(LayerState(lay, full, n, segs, k - 1, i), full, n + Before(segs, k - 1, i), n + Before(segs, k, i));
    }
  }

  lemma AppendedShape(x: LayerKv, new_: seq<Row>, y: LayerKv, other: seq<Row>)
    requires x.Valid() && y.Valid() && x.kind.Swa? && y.kind.Swa? && |new_| == |other|
    requires x.window == y.window && x.cap == y.cap && |x.rows| == |y.rows|
    ensures var p, q := x.Appended(new_), y.Appended(other);
            p.cap == q.cap && |p.rows| == |q.rows| && p.cap >= x.cap
  {
    hide Span;
  }

  /** Windowed layers of one request that agree on capacity and row count still agree after. */
  lemma {:induction false} StateShape(x: LayerKv, fx: seq<Row>, y: LayerKv, fy: seq<Row>, n: nat, segs: seq<Seg>, k: nat, i: nat)
    requires x.Valid() && y.Valid() && x.kind.Swa? && y.kind.Swa? && |fx| == |fy| && k <= |segs|
    requires n + Before(segs, k, i) <= |fx|
    requires x.window == y.window && x.cap == y.cap && |x.rows| == |y.rows|
    ensures var p, q := LayerState(x, fx, n, segs, k, i), LayerState(y, fy, n, segs, k, i);
            p.cap == q.cap && |p.rows| == |q.rows| && p.cap >= x.cap
    decreases k
  {
    hide Span;
    hide LayerKv.Appended;
    if k > 0 {
      StateShape(x, fx, y, fy, n, segs, k - 1, i);
      if segs[k - 1].req == i {
        var a, b := n + Before(segs, k - 1, i), n + Before(segs, k, i);
        AppendedShape(LayerState(x, fx, n, segs, k - 1, i), Span(fx, a, b),
                      LayerState(y, fy, n, segs, k - 1, i), Span(fy, a, b));
      }
    }
  }

  // ---- A pass.

  /** What a pass starts from: its segments, lane `c` being segments `cuts[c]` to
      `cuts[c + 1] - 1`; the caches' values; and, per request, the tokens its cache stands for
      followed by its block. */
  datatype Pass = Pass(m: Model, segs: seq<Seg>, cuts: seq<nat>, before: seq<Kv>, toks: seq<seq<Token>>)
  {
    ghost predicate Valid() {
      && m.Valid() && |before| == |toks|
      && 2 <= |cuts| <= 3 && cuts[0] == 0 && cuts[|cuts| - 1] == |segs| && cuts[0] <= cuts[1] <= cuts[|cuts| - 1]
      && (forall i :: 0 <= i < |before| ==> RequestOk(i))
      && (forall k :: 0 <= k < |segs| ==> SegOk(k))
    }

    /** A request's cache stands for its history and its segments make up its block. */
    ghost predicate RequestOk(i: nat)
      requires i < |before| == |toks|
    {
      && before[i].tokens <= |toks[i]| && Stands(m, before[i], toks[i][..before[i].tokens])
      && before[i].tokens + Before(segs, |segs|, i) == |toks[i]|
    }

    /** Segment `k` continues its request's block. */
    ghost predicate SegOk(k: nat)
      requires k < |segs|
    {
      segs[k].req < |before| && segs[k].start == Before(segs, k, segs[k].req)
    }

    ghost function Full(i: nat, l: nat): seq<Row>
      requires m.Valid() && i < |toks| && l < |m.kinds|
    {
      Hist(m, toks[i], l, |toks[i]|)
    }

    /** How far request `i` is after the first `k` segments. */
    ghost function At(i: nat, k: nat): nat
      requires i < |before| && k <= |segs|
    {
      before[i].tokens + Before(segs, k, i)
    }

    lemma AtFits(i: nat, k: nat)
      requires Valid() && i < |before| && k <= |segs|
      ensures before[i].tokens <= At(i, k) <= |toks[i]|
    {
      BeforeGrows(segs, k, |segs|, i);
      assert RequestOk(i);
    }

    ghost predicate Fits(i: nat, l: nat, k: nat) {
      && m.Valid() && i < |before| == |toks| && l < |m.kinds| == |before[i].layers| && before[i].layers[l].Valid()
      && k <= |segs| && At(i, k) <= |toks[i]|
    }

    lemma AllFits(i: nat, l: nat, k: nat)
      requires Valid() && i < |before| && l < |m.kinds| && k <= |segs|
      ensures Fits(i, l, k)
    {
      AtFits(i, k);
      assert RequestOk(i);
    }

    /** Layer `l` of request `i` after the first `k` segments. */
    ghost function State(i: nat, l: nat, k: nat): LayerKv
      requires Fits(i, l, k)
    {
      LayerState(before[i].layers[l], Full(i, l), before[i].tokens, segs, k, i)
    }

    /** Request `i`'s layers while layer `l` has seen `k` segments: the layers before it are
        done, the layers after it untouched. */
    ghost predicate KvAt(layers: seq<LayerKv>, i: nat, l: nat, k: nat) {
      && |layers| == |m.kinds|
      && forall x :: 0 <= x < |layers| ==> LayerIs(layers[x], i, x, if x < l then |segs| else if x == l then k else 0)
    }

    ghost predicate LayerIs(lay: LayerKv, i: nat, l: nat, k: nat) {
      Fits(i, l, k) && lay == State(i, l, k)
    }

    lemma StateHere(i: nat, l: nat, k: nat)
      requires Valid() && i < |before| && l < |m.kinds| && k <= |segs|
      ensures Fits(i, l, k) && Belongs(m, State(i, l, k), l) && Holds(State(i, l, k), Span(Full(i, l), 0, At(i, k)))
    {
      hide Span;
      hide Holds;
      AllFits(i, l, k);
      BeforeHolds(i, l);
      StateHolds(before[i].layers[l], Full(i, l), before[i].tokens, segs, k, i);
    }

    lemma BeforeHolds(i: nat, l: nat)
      requires Valid() && i < |before| && l < |m.kinds|
      ensures Fits(i, l, 0) && Belongs(m, before[i].layers[l], l)
      ensures Holds(before[i].layers[l], Span(Full(i, l), 0, before[i].tokens))
    {
      hide Span;
      hide Holds;
      AllFits(i, l, 0);
      var n, t := before[i].tokens, toks[i];
      assert RequestOk(i);
      assert LayerAt(m, before[i].layers[l], l, t[..n], |t[..n]|);
      HistPrefix(m, t, l, n, |t|);
      HistCausal(m, t[..n], t, l, n);
    }

    /** One more segment appends its rows to its own request's layer and to no other. */
    lemma StateStep(i: nat, l: nat, k: nat)
      requires Valid() && i < |before| && l < |m.kinds| && k < |segs|
      ensures Fits(i, l, k) && Fits(i, l, k + 1) && At(i, k) <= At(i, k + 1)
      ensures State(i, l, k + 1) ==
              if segs[k].req == i then State(i, l, k).Appended(Span(Full(i, l), At(i, k), At(i, k + 1))) else State(i, l, k)
    {
      hide Span;
      hide LayerKv.Appended;
      AllFits(i, l, k);
      AllFits(i, l, k + 1);
    }

    lemma KvStep(was: seq<LayerKv>, layers: seq<LayerKv>, i: nat, l: nat, k: nat)
      requires Valid() && i < |before| && l < |m.kinds| && k < |segs| && KvAt(was, i, l, k)
      requires Fits(i, l, k) && At(i, k) <= At(i, k + 1) <= |toks[i]|
      requires layers == if segs[k].req == i
               then was[l := was[l].Appended(Span(Full(i, l), At(i, k), At(i, k + 1)))] else was
      ensures KvAt(layers, i, l, k + 1)
    {
      hide Span;
      hide LayerKv.Appended;
      StateStep(i, l, k);
      hide Pass.State;
      assert LayerIs(was[l], i, l, k);
      forall x | 0 <= x < |layers|
        ensures LayerIs(layers[x], i, x, if x < l then |segs| else if x == l then k + 1 else 0)
      {
        assert x != l ==> LayerIs(was[x], i, x, if x < l then |segs| else 0);
      }
    }

    ghost predicate SlotsOk(ws: seq<Slot>) {
      forall r :: 0 <= r < |ws| ==> ws[r].req < |toks| && ws[r].pos < |toks[ws[r].req]|
    }

    ghost function Starts(): (r: seq<nat>)
      ensures |r| == |before|
    {
      seq(|before|, i requires 0 <= i < |before| => before[i].tokens)
    }

    /** Every row of the pass is a row of its request's block. */
    lemma {:induction false} SlotsFit(from: nat, end: nat)
      requires Valid() && from <= end <= |segs|
      ensures forall k :: 0 <= k < |segs| ==> segs[k].req < |Starts()|
      ensures SlotsOk(Slots(Starts(), segs, from, end))
      decreases end
    {
      forall k | 0 <= k < |segs|
        ensures segs[k].req < |Starts()|
      {
        assert SegOk(k);
      }
      if from < end {
        SlotsFit(from, end - 1);
        assert SegOk(end - 1);
        AtFits(segs[end - 1].req, end);
      }
    }

    /** A list of rows entering layer `l`, as the reference computes them. */
    ghost predicate AreHid(h: seq<Hidden>, ws: seq<Slot>, l: nat) {
      && m.Valid() && l <= |m.kinds| && SlotsOk(ws) && |h| == |ws|
      && forall r :: 0 <= r < |h| ==> h[r] == Hid(m, toks[ws[r].req], l, ws[r].pos)
    }

    /** The rows of lane `c`. */
    ghost function LaneSlots(c: nat): seq<Slot>
      requires Valid() && c + 1 < |cuts|
    {
      SlotsFit(cuts[c], cuts[c + 1]);
      Slots(Starts(), segs, cuts[c], cuts[c + 1])
    }

    /** Lane `c` about to enter layer `l`: owed the reply to the exchange it sent at layer
        `l - 1`, or complete. */
    ghost predicate Ready(h: seq<Hidden>, pending: bool, c: nat, l: nat)
      requires Valid() && c + 1 < |cuts| && l <= |m.kinds|
    {
      if l > 0 && m.moe[l - 1] then pending && AreMid(h, LaneSlots(c), l - 1) else !pending && AreHid(h, LaneSlots(c), l)
    }

    /** The exchange lane `c` sends at layer `l`. */
    ghost function Sent(c: nat, l: nat): Exchange
      requires Valid() && c + 1 < |cuts| && l < |m.kinds|
    {
      SlotsFit(cuts[c], cuts[c + 1]);
      var ws := LaneSlots(c);
      Exchange(l, seq(|ws|, r requires 0 <= r < |ws| => m.route(l, Mid(m, toks[ws[r].req], l, ws[r].pos))))
    }

    /** The exchanges lanes `a` to `b - 1` send at layer `l`, in order: none on a dense layer. */
    ghost function Owed(l: nat, a: nat, b: nat): (r: seq<Exchange>)
      requires Valid() && a <= b < |cuts| && l < |m.kinds|
      ensures |r| == if m.moe[l] then b - a else 0
      decreases b
    {
      if a == b || !m.moe[l] then [] else Owed(l, a, b - 1) + [Sent(b - 1, l)]
    }

    lemma {:induction false} OwedFirst(l: nat, a: nat, b: nat)
      requires Valid() && a < b < |cuts| && l < |m.kinds| && m.moe[l]
      ensures Owed(l, a, b) == [Sent(a, l)] + Owed(l, a + 1, b)
      decreases b
    {
      hide Pass.Sent;
      if a + 1 < b {
        OwedFirst(l, a, b - 1);
      }
    }

    /** What is in flight, oldest first, when lane `c` is about to run layer `l`: the lanes still
        to run wait for layer `l - 1`, those that have run wait for layer `l`. */
    ghost function Flight(l: nat, c: nat): seq<Exchange>
      requires Valid() && c < |cuts| && l <= |m.kinds|
    {
      (if l > 0 then Owed(l - 1, c, |cuts| - 1) else []) + (if l < |m.kinds| then Owed(l, 0, c) else [])
    }

    /** The same rows between the halves of layer `l`. */
    ghost predicate AreMid(h: seq<Hidden>, ws: seq<Slot>, l: nat) {
      && m.Valid() && l < |m.kinds| && SlotsOk(ws) && |h| == |ws|
      && forall r :: 0 <= r < |h| ==> h[r] == Mid(m, toks[ws[r].req], l, ws[r].pos)
    }
  }

  /** The rows query `j` of a `t`-row segment attends to, given the layer after the append: the
      prefill kernel reads the whole layer and masks by row index, the split-KV kernel reads its
      tail and masks by position. */
  function Seen(m: Model, lay: LayerKv, l: nat, t: nat, j: nat, q: nat, flash: bool): seq<Row>
    requires m.Valid() && l < |m.kinds| && t <= |lay.rows|
  {
    if flash && t > 1 then IndexVisible(m, l, |lay.rows| - t + j, lay.rows)
    else m.VisibleRows(l, q, KernelRows(m, lay, t))
  }

  /** Whatever kernel runs, a query of the segment attends to what the reference attends to. */
  lemma SegSees(m: Model, lay: LayerKv, l: nat, full: seq<Row>, n: nat, t: nat, q: nat, flash: bool)
    requires Belongs(m, lay, l) && Contiguous(full, 0) && n <= q < n + t <= |full| && Holds(lay, Span(full, 0, n))
    ensures |lay.Appended(Span(full, n, n + t)).rows| >= t
    ensures Seen(m, lay.Appended(Span(full, n, n + t)), l, t, q - n, q, flash) == m.VisibleRows(l, q, Span(full, 0, q + 1))
  {
    hide Span;
    hide LayerKv.Appended;
    hide Holds;
    hide IndexVisible;
    hide Model.VisibleRows;
    SpanJoin(full, 0, n, n + t);
    SpanContiguous(full, 0, 0, n + t);
    SpanOfSpan(full, 0, n + t, 0, q + 1);
    PrefillSees(m, lay, l, Span(full, 0, n), Span(full, n, n + t), q);
    KernelSees(m, lay, l, Span(full, 0, n), Span(full, n, n + t), q);
  }

  ghost predicate Distinct(kvs: seq<DeviceKv>) {
    forall a, b :: 0 <= a < b < |kvs| ==> kvs[a] != kvs[b]
  }

  /** `h` are the rows of positions `base..` entering layer `l`. */
  ghost predicate BlockHid(m: Model, toks: seq<Token>, h: seq<Hidden>, l: nat, base: nat) {
    && m.Valid() && l <= |m.kinds| && base + |h| <= |toks|
    && forall j :: 0 <= j < |h| ==> h[j] == Hid(m, toks, l, base + j)
  }

  /** `h` are the rows of positions `base..` between the halves of layer `l`. */
  ghost predicate BlockMid(m: Model, toks: seq<Token>, h: seq<Hidden>, l: nat, base: nat) {
    && m.Valid() && l < |m.kinds| && base + |h| <= |toks|
    && forall j :: 0 <= j < |h| ==> h[j] == Mid(m, toks, l, base + j)
  }

  /** One segment's attention at layer `l`: its rows are appended to its request's cache and
      attend to it. */
  method AttnSeg(m: Model, l: nat, seg: Seg, h: seq<Hidden>, base: nat, kv: DeviceKv, flash: bool,
                 ghost p: Pass, ghost k: nat)
    returns (out: seq<Hidden>)
    requires p.Valid() && p.m == m && l < |m.kinds| && k < |p.segs| && seg == p.segs[k]
    requires seg.req < |p.before| && base == p.At(seg.req, k) && |h| == seg.len
    requires BlockHid(m, p.toks[seg.req], h, l, base)
    requires p.KvAt(kv.layers, seg.req, l, k)
    modifies kv
    ensures kv.tokens == old(kv.tokens) && p.KvAt(kv.layers, seg.req, l, k + 1)
    ensures |out| == seg.len && BlockMid(m, p.toks[seg.req], out, l, base)
  {
    hide Span;
    hide LayerKv.Appended;
    hide Holds;
    hide IndexVisible;
    hide Model.VisibleRows;
    hide LayerState;
    hide Seen;
    var rows := seq(seg.len, j requires 0 <= j < seg.len => Row(base + j, m.encode(l, h[j], base + j)));
    ghost var full := p.Full(seg.req, l);
    SegRows(m, p.toks[seg.req], l, base, rows);
    ghost var was := kv.layers;
    assert p.LayerIs(was[l], seg.req, l, k);
    p.StateHere(seg.req, l, k);
    kv.Append(l, rows);
    p.KvStep(was, kv.layers, seg.req, l, k);
    var lay := kv.layers[l];
    out := seq(seg.len, j requires 0 <= j < seg.len =>
      m.attend(l, h[j], base + j, Seen(m, lay, l, seg.len, j, base + j, flash)));
    forall j | 0 <= j < seg.len
      ensures out[j] == Mid(m, p.toks[seg.req], l, base + j)
    {
      HistPrefix(m, p.toks[seg.req], l, base + j + 1, |p.toks[seg.req]|);
      SegSees(m, was[l], l, full, base, seg.len, base + j, flash);
    }
  }

  /** The rows a segment appends, computed from the reference's hidden rows, are the next rows
      of the reference's history. */
  lemma SegRows(m: Model, toks: seq<Token>, l: nat, from: nat, rows: seq<Row>)
    requires m.Valid() && l < |m.kinds| && from + |rows| <= |toks|
    requires forall j :: 0 <= j < |rows| ==> rows[j] == Row(from + j, m.encode(l, Hid(m, toks, l, from + j), from + j))
    ensures rows == Span(Hist(m, toks, l, |toks|), from, from + |rows|)
  {
  }

  lemma RowsFit(starts: seq<nat>, segs: seq<Seg>, from: nat, k: nat, end: nat)
    requires from <= k < end <= |segs| && forall j :: 0 <= j < |segs| ==> segs[j].req < |starts|
    ensures |Slots(starts, segs, from, k)| + segs[k].len <= |Slots(starts, segs, from, end)|
  {
    SlotsPrefix(starts, segs, from, k + 1, end);
  }

  /** Row `j` of segment `k` in its lane. */
  lemma RowAt(starts: seq<nat>, segs: seq<Seg>, from: nat, k: nat, end: nat, j: nat)
    requires from <= k < end <= |segs| && forall x :: 0 <= x < |segs| ==> segs[x].req < |starts|
    requires j < segs[k].len
    ensures var row := |Slots(starts, segs, from, k)|;
            row + j < |Slots(starts, segs, from, end)| &&
            Slots(starts, segs, from, end)[row + j] == Slot(segs[k].req, starts[segs[k].req] + segs[k].start + j)
  {
    SlotsPrefix(starts, segs, from, k + 1, end);
    var row := |Slots(starts, segs, from, k)|;
    assert Slots(starts, segs, from, k + 1)[row + j] == SegSlots(segs[k], starts[segs[k].req])[j];
  }

  lemma LaneRows(p: Pass, h: seq<Hidden>, from: nat, k: nat, end: nat, l: nat)
    requires p.Valid() && from <= k < end <= |p.segs|
    requires forall j :: 0 <= j < |p.segs| ==> p.segs[j].req < |p.Starts()|
    requires p.AreHid(h, Slots(p.Starts(), p.segs, from, end), l)
    ensures var row, s := |Slots(p.Starts(), p.segs, from, k)|, p.segs[k];
            && s.req < |p.before| && row + s.len <= |h| && p.At(s.req, k) == p.Starts()[s.req] + s.start
            && BlockHid(p.m, p.toks[s.req], h[row..row + s.len], l, p.At(s.req, k))
  {
    hide Hid;
    hide Slots;
    var row, s := |Slots(p.Starts(), p.segs, from, k)|, p.segs[k];
    assert p.SegOk(k);
    p.AtFits(s.req, k + 1);
    RowsFit(p.Starts(), p.segs, from, k, end);
    var part := h[row..row + s.len];
    forall j | 0 <= j < |part|
      ensures part[j] == Hid(p.m, p.toks[s.req], l, p.At(s.req, k) + j)
    {
      RowAt(p.Starts(), p.segs, from, k, end, j);
    }
  }

  /** A lane's attention at layer `l`. */
  method AttnLane(m: Model, l: nat, segs: seq<Seg>, from: nat, end: nat, h: seq<Hidden>, starts: seq<nat>,
                  kvs: seq<DeviceKv>, flash: bool, ghost p: Pass)
    returns (out: seq<Hidden>)
    requires p.Valid() && p.m == m && p.segs == segs && l < |m.kinds| && from <= end <= |segs|
    requires Distinct(kvs) && |kvs| == |p.before| && starts == p.Starts()
    requires forall k :: 0 <= k < |segs| ==> segs[k].req < |starts|
    requires p.AreHid(h, Slots(starts, segs, from, end), l)
    requires forall i :: 0 <= i < |kvs| ==> p.KvAt(kvs[i].layers, i, l, from)
    modifies kvs
    ensures forall i :: 0 <= i < |kvs| ==> kvs[i].tokens == old(kvs[i].tokens)
    ensures forall i :: 0 <= i < |kvs| ==> p.KvAt(kvs[i].layers, i, l, end)
    ensures p.AreMid(out, Slots(starts, segs, from, end), l)
  {
    hide Pass.AreMid;
    hide Pass.AreHid;
    hide BlockHid;
    hide BlockMid;
    hide Pass.KvAt;
    hide Slots;
    out := [];
    NoRows(p, from, l);
    var k, row := from, 0;
    while k < end
      invariant from <= k <= end && row == |Slots(starts, segs, from, k)|
      invariant p.AreMid(out, Slots(starts, segs, from, k), l)
      invariant forall i :: 0 <= i < |kvs| ==> kvs[i].tokens == old(kvs[i].tokens)
      invariant forall i :: 0 <= i < |kvs| ==> p.KvAt(kvs[i].layers, i, l, k)
    {
      var seg := segs[k];
      LaneRows(p, h, from, k, end, l);
      p.SlotsFit(from, k + 1);
      var kv := kvs[seg.req];
      var o := AttnSeg(m, l, seg, h[row..row + seg.len], starts[seg.req] + seg.start, kv, flash, p, k);
      MidsJoin(p, out, o, from, k, l);
      out := out + o;
      forall i | 0 <= i < |kvs|
        ensures p.KvAt(kvs[i].layers, i, l, k + 1)
      {
        if i != seg.req {
          p.AllFits(i, l, k);
          p.AtFits(i, k + 1);
          p.KvStep(kvs[i].layers, kvs[i].layers, i, l, k);
        }
      }
      k, row := k + 1, row + seg.len;
    }
  }

  /** The post-attention half of a layer: a dense layer runs now, a MoE layer sends its rows. */
  method FfnStart(m: Model, l: nat, h: seq<Hidden>, wire: Wire) returns (ok: bool, pending: bool, out: seq<Hidden>)
    requires m.Valid() && l < |m.kinds|
    modifies wire
    ensures pending == m.moe[l] && |out| == |h|
    ensures !m.moe[l] ==> ok && wire.inflight == old(wire.inflight) && forall r :: 0 <= r < |h| ==> out[r] == m.dense(l, h[r])
    ensures m.moe[l] ==> out == h && (ok <==> |old(wire.inflight)| < wire.limit)
    ensures m.moe[l] && ok ==>
      wire.inflight == old(wire.inflight) + [Exchange(l, seq(|h|, r requires 0 <= r < |h| => m.route(l, h[r])))]
  {
    if !m.moe[l] {
      return true, false, seq(|h|, r requires 0 <= r < |h| => m.dense(l, h[r]));
    }
    ok := wire.Send(l, seq(|h|, r requires 0 <= r < |h| => m.route(l, h[r])));
    return ok, true, h;
  }

  /** Collect the oldest exchange into `h`; its row count must be the lane's. */
  method MoeFinish(m: Model, h: seq<Hidden>, wire: Wire) returns (ok: bool, out: seq<Hidden>)
    modifies wire
    ensures ok <==> old(wire.inflight) != [] && |old(wire.inflight)[0].rows| == |h|
    ensures ok ==> wire.inflight == old(wire.inflight)[1..] && |out| == |h|
    ensures ok ==> var x := old(wire.inflight)[0];
      forall r :: 0 <= r < |h| ==> out[r] == m.add(h[r], m.experts(x.layer, x.rows[r]))
  {
    var got, layer, replies := wire.Recv(m);
    if !got || |replies| != |h| {
      return false, h;
    }
    return true, seq(|h|, r requires 0 <= r < |h| => m.add(h[r], replies[r]));
  }

  lemma MidsJoin(p: Pass, out: seq<Hidden>, o: seq<Hidden>, from: nat, k: nat, l: nat)
    requires p.Valid() && from <= k < |p.segs| && p.segs[k].req < |p.before|
    requires forall j :: 0 <= j < |p.segs| ==> p.segs[j].req < |p.Starts()|
    requires p.AreMid(out, Slots(p.Starts(), p.segs, from, k), l)
    requires |o| == p.segs[k].len && p.At(p.segs[k].req, k) == p.Starts()[p.segs[k].req] + p.segs[k].start
    requires BlockMid(p.m, p.toks[p.segs[k].req], o, l, p.At(p.segs[k].req, k))
    ensures |Slots(p.Starts(), p.segs, from, k + 1)| == |Slots(p.Starts(), p.segs, from, k)| + p.segs[k].len
    ensures p.AreMid(out + o, Slots(p.Starts(), p.segs, from, k + 1), l)
  {
    hide Mid;
    p.SlotsFit(from, k + 1);
  }

  lemma NoRows(p: Pass, from: nat, l: nat)
    requires p.m.Valid() && from <= |p.segs| && l < |p.m.kinds|
    requires forall j :: 0 <= j < |p.segs| ==> p.segs[j].req < |p.Starts()|
    ensures Slots(p.Starts(), p.segs, from, from) == [] && p.AreMid([], Slots(p.Starts(), p.segs, from, from), l)
  {
  }

  // ---- The schedule.

  /** The reply to a lane's own exchange completes its rows. */
  lemma Completed(p: Pass, h: seq<Hidden>, out: seq<Hidden>, c: nat, l: nat)
    requires p.Valid() && c + 1 < |p.cuts| && l < |p.m.kinds| && p.m.moe[l]
    requires p.AreMid(h, p.LaneSlots(c), l) && |out| == |h| == |p.Sent(c, l).rows|
    requires forall r :: 0 <= r < |h| ==> out[r] == p.m.add(h[r], p.m.experts(l, p.Sent(c, l).rows[r]))
    ensures p.AreHid(out, p.LaneSlots(c), l + 1)
  {
    hide Hid;
    hide Mid;
    var ws := p.LaneSlots(c);
    forall r | 0 <= r < |out|
      ensures out[r] == Hid(p.m, p.toks[ws[r].req], l + 1, ws[r].pos)
    {
      HidStep(p.m, p.toks[ws[r].req], l, ws[r].pos);
    }
  }

  /** A dense layer completes a lane's rows at once. */
  lemma DenseDone(p: Pass, h: seq<Hidden>, out: seq<Hidden>, c: nat, l: nat)
    requires p.Valid() && c + 1 < |p.cuts| && l < |p.m.kinds| && !p.m.moe[l]
    requires p.AreMid(h, p.LaneSlots(c), l) && |out| == |h|
    requires forall r :: 0 <= r < |h| ==> out[r] == p.m.dense(l, h[r])
    ensures p.AreHid(out, p.LaneSlots(c), l + 1)
  {
    hide Hid;
    hide Mid;
    var ws := p.LaneSlots(c);
    forall r | 0 <= r < |out|
      ensures out[r] == Hid(p.m, p.toks[ws[r].req], l + 1, ws[r].pos)
    {
      HidStep(p.m, p.toks[ws[r].req], l, ws[r].pos);
    }
  }

  /** What a lane sends at a MoE layer is its exchange. */
  lemma SentRows(p: Pass, h: seq<Hidden>, c: nat, l: nat)
    requires p.Valid() && c + 1 < |p.cuts| && l < |p.m.kinds| && p.AreMid(h, p.LaneSlots(c), l)
    ensures Exchange(l, seq(|h|, r requires 0 <= r < |h| => p.m.route(l, h[r]))) == p.Sent(c, l)
  {
    hide Mid;
  }

  /** The oldest exchange in flight when a lane comes to collect is the one that lane sent at
      the layer before. */
  lemma FlightHead(p: Pass, l: nat, c: nat)
    requires p.Valid() && c + 1 < |p.cuts| && 0 < l <= |p.m.kinds| && p.m.moe[l - 1]
    ensures p.Flight(l, c) == [p.Sent(c, l - 1)] + p.Owed(l - 1, c + 1, |p.cuts| - 1) +
                              (if l < |p.m.kinds| then p.Owed(l, 0, c) else [])
  {
    hide Pass.Sent;
    p.OwedFirst(l - 1, c, |p.cuts| - 1);
  }

  /** At most one exchange per lane is ever in flight. */
  lemma FlightBound(p: Pass, l: nat, c: nat)
    requires p.Valid() && c < |p.cuts| && l <= |p.m.kinds|
    ensures |p.Flight(l, c)| <= |p.cuts| - 1
  {
  }

  /** Lane `c` runs layer `l`: collect what it is owed, attend, start the feed-forward half. */
  method LaneLayer(m: Model, l: nat, c: nat, segs: seq<Seg>, cuts: seq<nat>, h0: seq<Hidden>, pending0: bool,
                   starts: seq<nat>, kvs: seq<DeviceKv>, wire: Wire, flash: bool, ghost p: Pass)
    returns (ok: bool, h: seq<Hidden>, pending: bool)
    requires p.Valid() && p.m == m && p.segs == segs && p.cuts == cuts && l < |m.kinds| && c + 1 < |cuts|
    requires Distinct(kvs) && |kvs| == |p.before| && starts == p.Starts() && |cuts| - 1 <= wire.limit
    requires p.Ready(h0, pending0, c, l) && wire.inflight == p.Flight(l, c)
    requires forall i :: 0 <= i < |kvs| ==> p.KvAt(kvs[i].layers, i, l, cuts[c])
    modifies kvs, wire
    ensures ok && p.Ready(h, pending, c, l + 1) && wire.inflight == p.Flight(l, c + 1)
    ensures forall i :: 0 <= i < |kvs| ==> kvs[i].tokens == old(kvs[i].tokens)
    ensures forall i :: 0 <= i < |kvs| ==> p.KvAt(kvs[i].layers, i, l, cuts[c + 1])
  {
    hide Pass.AreMid;
    hide Pass.AreHid;
    hide Pass.KvAt;
    hide Slots;
    hide Pass.Sent;
    hide LayerState;
    ok, h, pending := true, h0, pending0;
    ghost var rest := p.Owed(l, 0, c);
    ghost var owed := if l > 0 then p.Owed(l - 1, c + 1, |cuts| - 1) else [];
    if pending {
      FlightHead(p, l, c);
      Collects(p, h, c, l - 1);
      ok, h := MoeFinish(m, h, wire);
      assert ok;
      Completed(p, h0, h, c, l - 1);
    }
    assert wire.inflight == owed + rest;
    p.SlotsFit(cuts[c], cuts[c + 1]);
    h := AttnLane(m, l, segs, cuts[c], cuts[c + 1], h, starts, kvs, flash, p);
    ghost var mid := h;
    ok, pending, h := FfnStart(m, l, h, wire);
    if m.moe[l] {
      SentRows(p, mid, c, l);
    } else {
      DenseDone(p, mid, h, c, l);
    }
  }

  lemma Collects(p: Pass, h: seq<Hidden>, c: nat, l: nat)
    requires p.Valid() && c + 1 < |p.cuts| && l < |p.m.kinds| && p.AreMid(h, p.LaneSlots(c), l)
    ensures |p.Sent(c, l).rows| == |h| && p.Sent(c, l).layer == l
  {
  }

  /** `toks` is a history of `start` tokens followed by `block`. */
  ghost predicate BlockOf(toks: seq<Token>, start: nat, block: seq<Token>) {
    start <= |toks| && block == toks[start..]
  }

  lemma EmbedRows(p: Pass, h: seq<Hidden>, e: seq<Hidden>, b: seq<Token>, from: nat, k: nat)
    requires p.Valid() && from <= k < |p.segs| && p.segs[k].req < |p.before|
    requires forall j :: 0 <= j < |p.segs| ==> p.segs[j].req < |p.Starts()|
    requires p.AreHid(h, Slots(p.Starts(), p.segs, from, k), 0)
    requires var s := p.segs[k]; var base := p.Starts()[s.req];
      && BlockOf(p.toks[s.req], base, b) && |e| == s.len && s.start + s.len <= |b|
      && forall j :: 0 <= j < s.len ==> e[j] == p.m.embed(b[s.start + j], base + s.start + j)
    ensures p.AreHid(h + e, Slots(p.Starts(), p.segs, from, k + 1), 0)
  {
    p.SlotsFit(from, k + 1);
  }

  lemma NoHids(p: Pass, from: nat)
    requires p.m.Valid() && from <= |p.segs| && forall j :: 0 <= j < |p.segs| ==> p.segs[j].req < |p.Starts()|
    ensures p.AreHid([], Slots(p.Starts(), p.segs, from, from), 0)
  {
  }

  lemma SegInBlock(p: Pass, k: nat)
    requires p.Valid() && k < |p.segs|
    ensures p.segs[k].req < |p.before| && p.Starts()[p.segs[k].req] + p.segs[k].start + p.segs[k].len <= |p.toks[p.segs[k].req]|
  {
    assert p.SegOk(k);
    p.AtFits(p.segs[k].req, k + 1);
  }

  /** The embedding rows of a lane. */
  method EmbedLane(m: Model, segs: seq<Seg>, from: nat, end: nat, blocks: seq<seq<Token>>, starts: seq<nat>, ghost p: Pass)
    returns (h: seq<Hidden>)
    requires p.Valid() && p.m == m && p.segs == segs && from <= end <= |segs| && starts == p.Starts()
    requires |blocks| == |p.before| && forall i :: 0 <= i < |blocks| ==> BlockOf(p.toks[i], starts[i], blocks[i])
    requires forall k :: 0 <= k < |segs| ==> segs[k].req < |starts|
    ensures p.AreHid(h, Slots(starts, segs, from, end), 0)
  {
    hide Slots;
    hide Pass.RequestOk;
    hide Pass.SegOk;
    h := [];
    p.SlotsFit(from, from);
    NoHids(p, from);
    var k := from;
    while k < end
      invariant from <= k <= end
      invariant p.AreHid(h, Slots(starts, segs, from, k), 0)
    {
      var seg := segs[k];
      SegInBlock(p, k);
      var b, base := blocks[seg.req], starts[seg.req];
      assert BlockOf(p.toks[seg.req], base, b);
      var e := seq(seg.len, j requires 0 <= j < seg.len => m.embed(b[seg.start + j], base + seg.start + j));
      EmbedRows(p, h, e, b, from, k);
      h := h + e;
      k := k + 1;
    }
  }

  /** A layer is done with when every segment has been through it. */
  lemma NextLayer(p: Pass, layers: seq<LayerKv>, i: nat, l: nat)
    requires p.KvAt(layers, i, l, |p.segs|)
    ensures p.KvAt(layers, i, l + 1, 0)
  {
    hide Pass.State;
    forall x | 0 <= x < |layers|
      ensures p.LayerIs(layers[x], i, x, if x < l + 1 then |p.segs| else 0)
    {
      assert p.LayerIs(layers[x], i, x, if x < l then |p.segs| else if x == l then |p.segs| else 0);
    }
  }

  /** Through every layer, a request's cache stands for its history and its block. */
  lemma PassStands(p: Pass, v: Kv, i: nat)
    requires p.Valid() && i < |p.before| && p.KvAt(v.layers, i, |p.m.kinds|, 0) && v.tokens == |p.toks[i]|
    requires v.swaCap0 == p.before[i].swaCap0
    ensures Stands(p.m, v, p.toks[i])
  {
    hide Span;
    hide Pass.State;
    hide Holds;
    assert p.RequestOk(i);
    forall l | 0 <= l < |v.layers|
      ensures v.layers[l].Valid() && Belongs(p.m, v.layers[l], l) && LayerAt(p.m, v.layers[l], l, p.toks[i], |p.toks[i]|)
    {
      assert p.LayerIs(v.layers[l], i, l, |p.segs|);
      p.StateHere(i, l, |p.segs|);
      SpanWhole(p.Full(i, l));
      HoldsValid(v.layers[l], p.Full(i, l));
    }
    forall k, l | 0 <= k < |v.layers| && 0 <= l < |v.layers| && v.layers[k].kind.Swa? && v.layers[l].kind.Swa?
      ensures |v.layers[k].rows| == |v.layers[l].rows| && v.layers[k].cap == v.layers[l].cap
      ensures v.layers[k].cap >= v.swaCap0
    {
      PassShape(p, v, i, k, l);
    }
  }

  lemma HoldsValid(lay: LayerKv, full: seq<Row>)
    requires Holds(lay, full)
    ensures lay.Valid()
  {
  }

  lemma PassShape(p: Pass, v: Kv, i: nat, k: nat, l: nat)
    requires p.Valid() && i < |p.before| && p.KvAt(v.layers, i, |p.m.kinds|, 0) && k < |v.layers| && l < |v.layers|
    requires v.layers[k].kind.Swa? && v.layers[l].kind.Swa?
    ensures |v.layers[k].rows| == |v.layers[l].rows| && v.layers[k].cap == v.layers[l].cap
    ensures v.layers[k].cap >= p.before[i].swaCap0
  {
    hide LayerState;
    hide LayerAt;
    hide Holds;
    var b := p.before[i];
    assert p.RequestOk(i);
    assert p.LayerIs(v.layers[k], i, k, |p.segs|) && p.LayerIs(v.layers[l], i, l, |p.segs|);
    assert Shaped(p.m, b);
    assert b.layers[k].kind == p.m.kinds[k] && b.layers[l].kind == p.m.kinds[l];
    p.StateHere(i, k, |p.segs|);
    p.StateHere(i, l, |p.segs|);
    assert k < l || l < k || k == l;
    StateShape(b.layers[k], p.Full(i, k), b.layers[l], p.Full(i, l), b.tokens, p.segs, |p.segs|, i);
  }

  /** Every layer, the lanes in turn. */
  method RunLayers(m: Model, segs: seq<Seg>, cuts: seq<nat>, h0: seq<seq<Hidden>>, starts: seq<nat>, kvs: seq<DeviceKv>,
                   wire: Wire, flash: bool, ghost p: Pass)
    returns (ok: bool, h: seq<seq<Hidden>>, pending: seq<bool>)
    requires p.Valid() && p.m == m && p.segs == segs && p.cuts == cuts && |h0| == |cuts| - 1
    requires Distinct(kvs) && |kvs| == |p.before| && starts == p.Starts()
    requires wire.inflight == [] && |cuts| - 1 <= wire.limit
    requires forall x :: 0 <= x < |h0| ==> p.Ready(h0[x], false, x, 0)
    requires forall i :: 0 <= i < |kvs| ==> p.KvAt(kvs[i].layers, i, 0, 0)
    modifies kvs, wire
    ensures ok && |h| == |pending| == |h0| && wire.inflight == p.Flight(|m.kinds|, 0)
    ensures forall x :: 0 <= x < |h| ==> p.Ready(h[x], pending[x], x, |m.kinds|)
    ensures forall i :: 0 <= i < |kvs| ==> kvs[i].tokens == old(kvs[i].tokens)
    ensures forall i :: 0 <= i < |kvs| ==> p.KvAt(kvs[i].layers, i, |m.kinds|, 0)
  {
    hide Pass.AreHid;
    hide Pass.AreMid;
    hide Pass.KvAt;
    hide Pass.Sent;
    hide Slots;
    hide Stands;
    hide Pass.SegOk;
    hide Pass.RequestOk;
    var n := |cuts| - 1;
    ok, h, pending := true, h0, seq(n, _ => false);
    var l := 0;
    while l < |m.kinds|
      invariant l <= |m.kinds| && |h| == |pending| == n && ok
      invariant forall x :: 0 <= x < n ==> p.Ready(h[x], pending[x], x, l)
      invariant wire.inflight == p.Flight(l, 0)
      invariant forall i :: 0 <= i < |kvs| ==> kvs[i].tokens == old(kvs[i].tokens)
      invariant forall i :: 0 <= i < |kvs| ==> p.KvAt(kvs[i].layers, i, l, 0)
    {
      var c := 0;
      while c < n
        invariant c <= n && |h| == |pending| == n && ok
        invariant forall x :: 0 <= x < n ==> p.Ready(h[x], pending[x], x, if x < c then l + 1 else l)
        invariant wire.inflight == p.Flight(l, c)
        invariant forall i :: 0 <= i < |kvs| ==> kvs[i].tokens == old(kvs[i].tokens)
        invariant forall i :: 0 <= i < |kvs| ==> p.KvAt(kvs[i].layers, i, l, cuts[c])
      {
        var o, b;
        ok, o, b := LaneLayer(m, l, c, segs, cuts, h[c], pending[c], starts, kvs, wire, flash, p);
        h, pending := h[c := o], pending[c := b];
        c := c + 1;
      }
      forall i | 0 <= i < |kvs|
        ensures p.KvAt(kvs[i].layers, i, l + 1, 0)
      {
        NextLayer(p, kvs[i].layers, i, l);
      }
      l := l + 1;
    }
  }

  /** After the last layer, the replies still owed. */
  method CollectAll(m: Model, h0: seq<seq<Hidden>>, pending: seq<bool>, wire: Wire, ghost p: Pass)
    returns (ok: bool, h: seq<seq<Hidden>>)
    requires p.Valid() && p.m == m && |h0| == |pending| == |p.cuts| - 1 && wire.inflight == p.Flight(|m.kinds|, 0)
    requires forall x :: 0 <= x < |h0| ==> p.Ready(h0[x], pending[x], x, |m.kinds|)
    modifies wire
    ensures ok && wire.inflight == [] && |h| == |h0|
    ensures forall c :: 0 <= c < |h| ==> p.AreHid(h[c], p.LaneSlots(c), |m.kinds|)
  {
    hide Pass.AreHid;
    hide Pass.AreMid;
    hide Pass.KvAt;
    hide Pass.Sent;
    hide Slots;
    hide Stands;
    hide Pass.SegOk;
    hide Pass.RequestOk;
    var n := |h0|;
    ok, h := true, h0;
    var c := 0;
    while c < n
      invariant c <= n && |h| == n && ok
      invariant forall x :: 0 <= x < c ==> p.AreHid(h[x], p.LaneSlots(x), |m.kinds|)
      invariant forall x :: c <= x < n ==> p.Ready(h[x], pending[x], x, |m.kinds|)
      invariant wire.inflight == p.Flight(|m.kinds|, c)
    {
      if pending[c] {
        FlightHead(p, |m.kinds|, c);
        Collects(p, h[c], c, |m.kinds| - 1);
        var o;
        ok, o := MoeFinish(m, h[c], wire);
        assert ok;
        Completed(p, h[c], o, c, |m.kinds| - 1);
        h := h[c := o];
      }
      c := c + 1;
    }
  }

  /** The embedded rows of every lane. */
  method EmbedAll(m: Model, segs: seq<Seg>, cuts: seq<nat>, blocks: seq<seq<Token>>, starts: seq<nat>, ghost p: Pass)
    returns (h: seq<seq<Hidden>>)
    requires p.Valid() && p.m == m && p.segs == segs && p.cuts == cuts && starts == p.Starts()
    requires |blocks| == |p.before| && forall i :: 0 <= i < |blocks| ==> BlockOf(p.toks[i], starts[i], blocks[i])
    ensures |h| == |cuts| - 1 && forall x :: 0 <= x < |h| ==> p.Ready(h[x], false, x, 0)
  {
    hide Pass.AreHid, Pass.SegOk, Pass.RequestOk, Slots;
    p.SlotsFit(0, 0);
    h := [];
    var c := 0;
    while c < |cuts| - 1
      invariant c <= |cuts| - 1 && |h| == c
      invariant forall x :: 0 <= x < c ==> p.Ready(h[x], false, x, 0)
    {
      var e := EmbedLane(m, segs, cuts[c], cuts[c + 1], blocks, starts, p);
      h := h + [e];
      c := c + 1;
    }
  }

  /** Every cache counts its block's rows. */
  method CountRows(kvs: seq<DeviceKv>, blocks: seq<seq<Token>>)
    requires Distinct(kvs) && |kvs| == |blocks|
    modifies kvs
    ensures forall x :: 0 <= x < |kvs| ==> kvs[x].layers == old(kvs[x].layers)
    ensures forall x :: 0 <= x < |kvs| ==> kvs[x].tokens == old(kvs[x].tokens) + |blocks[x]|
  {
    var i := 0;
    while i < |kvs|
      invariant i <= |kvs|
      invariant forall x :: 0 <= x < |kvs| ==> kvs[x].layers == old(kvs[x].layers)
      invariant forall x :: 0 <= x < |kvs| ==> kvs[x].tokens == old(kvs[x].tokens) + (if x < i then |blocks[x]| else 0)
    {
      kvs[i].tokens := kvs[i].tokens + |blocks[i]|;
      i := i + 1;
    }
  }

  /** One pass of the model. It never fails, every row comes out as the reference computes it,
      and every cache ends standing for its history with the block appended. */
  method RunPass(m: Model, segs: seq<Seg>, cuts: seq<nat>, blocks: seq<seq<Token>>, kvs: seq<DeviceKv>, wire: Wire,
                 flash: bool, ghost p: Pass)
    returns (ok: bool, h: seq<seq<Hidden>>)
    requires p.Valid() && p.m == m && p.segs == segs && p.cuts == cuts
    requires Distinct(kvs) && |kvs| == |blocks| == |p.before|
    requires forall i :: 0 <= i < |kvs| ==> kvs[i].Value() == p.before[i]
    requires forall i :: 0 <= i < |kvs| ==> BlockOf(p.toks[i], p.before[i].tokens, blocks[i])
    requires wire.inflight == [] && |cuts| - 1 <= wire.limit
    modifies kvs, wire
    ensures ok && wire.inflight == [] && |h| == |cuts| - 1
    ensures forall c :: 0 <= c < |h| ==> p.AreHid(h[c], p.LaneSlots(c), |m.kinds|)
    ensures forall i :: 0 <= i < |kvs| ==> p.KvAt(kvs[i].layers, i, |m.kinds|, 0)
    ensures forall i :: 0 <= i < |kvs| ==> Stands(m, kvs[i].Value(), p.toks[i])
  {
    hide Pass.AreHid;
    hide Pass.AreMid;
    hide Pass.KvAt;
    hide Pass.Sent;
    hide Slots;
    hide Stands;
    hide Pass.SegOk;
    hide Pass.RequestOk;
    var starts: seq<nat> := [];
    while |starts| < |kvs|
      invariant |starts| <= |kvs| && wire.inflight == []
      invariant forall i :: 0 <= i < |kvs| ==> kvs[i].Value() == p.before[i]
      invariant forall i :: 0 <= i < |starts| ==> starts[i] == p.before[i].tokens
    {
      starts := starts + [kvs[|starts|].tokens];
    }
    assert starts == p.Starts();
    h := EmbedAll(m, segs, cuts, blocks, starts, p);
    forall i | 0 <= i < |kvs|
      ensures p.KvAt(kvs[i].layers, i, 0, 0)
    {
      Untouched(p, i);
    }
    var pending;
    ok, h, pending := RunLayers(m, segs, cuts, h, starts, kvs, wire, flash, p);
    ok, h := CollectAll(m, h, pending, wire, p);
    CountRows(kvs, blocks);
    forall x | 0 <= x < |kvs|
      ensures Stands(m, kvs[x].Value(), p.toks[x])
    {
      PassStands(p, kvs[x].Value(), x);
    }
  }

  lemma Untouched(p: Pass, i: nat)
    requires p.Valid() && i < |p.before|
    ensures p.KvAt(p.before[i].layers, i, 0, 0)
  {
    assert p.RequestOk(i);
    forall x | 0 <= x < |p.before[i].layers|
      ensures p.LayerIs(p.before[i].layers[x], i, x, 0)
    {
      p.AllFits(i, x, 0);
    }
  }
}
