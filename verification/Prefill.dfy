/** The prefill of one prompt: its tokens are cut into chunks, the chunks run one after another
    or in pairs of lanes, and the last row's hidden state is what the first token is selected
    from. However the prompt is cut, the cache ends standing for the whole history and the last
    row is the reference's. */
module Prefill {
  import opened Basics
  import opened Transformer
  import opened DeviceKvCache
  import opened KvSound
  import opened Lanes
  import opened Chunks

  datatype Forwarded = NoTokens | WrongChunk | EmptyLane | Last(row: Hidden)

  /** Where chunk `k` starts; the end of the prompt after the last. */
  function StartOf(spans: seq<Chunks.Span>, n: nat, k: nat): nat {
    if k < |spans| then spans[k].start else n
  }

  lemma {:induction false} CoversAt(spans: seq<Chunks.Span>, n: nat, k: nat)
    requires Covers(spans, n) && k < |spans|
    ensures spans[k].start + spans[k].len == StartOf(spans, n, k + 1) <= n
    ensures StartOf(spans, n, 0) == 0
    decreases |spans|
  {
    var init, last := spans[..|spans| - 1], spans[|spans| - 1];
    if init == [] {
    } else if k < |init| {
      CoversAt(init, last.start, k);
    } else {
      CoversAt(init, last.start, 0);
    }
  }

  function GroupSegs(a: nat, b: nat, two: bool): seq<Seg> {
    if two then [Seg(0, 0, a), Seg(0, a, b)] else [Seg(0, 0, a)]
  }

  function GroupCuts(two: bool): seq<nat> {
    if two then [0, 1, 2] else [0, 1]
  }

  /** A group of one or two chunks as a pass: each chunk a lane. */
  ghost function GroupPass(m: Model, v: Kv, toks: seq<Token>, a: nat, b: nat, two: bool): Pass {
    Pass(m, GroupSegs(a, b, two), GroupCuts(two), [v], [toks])
  }

  lemma GroupValid(m: Model, v: Kv, hist: seq<Token>, block: seq<Token>, a: nat, b: nat, two: bool)
    requires m.Valid() && Stands(m, v, hist) && |block| == a + b && (!two ==> b == 0)
    ensures GroupPass(m, v, hist + block, a, b, two).Valid()
  {
    hide Stands;
    StandsTokens(m, v, hist);
    var p := GroupPass(m, v, hist + block, a, b, two);
    assert (hist + block)[..|hist|] == hist;
    assert Before(p.segs, 1, 0) == a by {
      assert Before(p.segs, 0, 0) == 0;
    }
    assert Before(p.segs, |p.segs|, 0) == a + b;
    assert p.RequestOk(0);
    assert p.SegOk(0) && (two ==> p.SegOk(1));
  }

  lemma LastSlot(p: Pass, m: Model, v: Kv, toks: seq<Token>, a: nat, b: nat, two: bool)
    requires p == GroupPass(m, v, toks, a, b, two) && p.Valid()
    requires (if two then b else a) > 0 && v.tokens + a + (if two then b else 0) == |toks|
    ensures var ws := p.LaneSlots(if two then 1 else 0);
            |ws| == (if two then b else a) && ws[|ws| - 1] == Slot(0, |toks| - 1)
  {
    var c := if two then 1 else 0;
    p.SlotsFit(c, c + 1);
    assert p.Starts()[0] == v.tokens;
    assert Slots(p.Starts(), p.segs, c, c + 1) == Slots(p.Starts(), p.segs, c, c) + SegSlots(p.segs[c], v.tokens);
    assert Slots(p.Starts(), p.segs, c, c) == [];
  }

  /** One group: `block` is its chunks' tokens, `a` of them in the first lane. */
  method ForwardGroup(m: Model, block: seq<Token>, a: nat, two: bool, kv: DeviceKv, wire: Wire, flash: bool,
                      ghost hist: seq<Token>)
    returns (last: seq<Hidden>)
    requires m.Valid() && a <= |block| && (!two ==> a == |block|)
    requires Stands(m, kv.Value(), hist) && wire.inflight == [] && (if two then 2 else 1) <= wire.limit
    modifies kv, wire
    ensures wire.inflight == [] && Stands(m, kv.Value(), hist + block)
    ensures |last| == (if two then |block| - a else a)
    ensures last != [] ==> last[|last| - 1] == Out(m, hist + block, |hist| + |block| - 1)
  {
    hide Stands, Hid, Slots, Pass.KvAt;
    ghost var v := kv.Value();
    StandsTokens(m, v, hist);
    var b := |block| - a;
    ghost var toks := hist + block;
    ghost var p := GroupPass(m, v, toks, a, b, two);
    GroupValid(m, v, hist, block, a, b, two);
    assert toks[|hist|..] == block;
    var ok, h := RunPass(m, GroupSegs(a, b, two), GroupCuts(two), [block], [kv], wire, flash, p);
    assert kv == [kv][0];
    last := h[|h| - 1];
    assert p.AreHid(last, p.LaneSlots(|h| - 1), |m.kinds|);
    if (if two then b else a) > 0 {
      LastSlot(p, m, v, toks, a, b, two);
    } else {
      EmptySlots(p, m, v, toks, a, b, two);
    }
  }

  lemma EmptySlots(p: Pass, m: Model, v: Kv, toks: seq<Token>, a: nat, b: nat, two: bool)
    requires p == GroupPass(m, v, toks, a, b, two) && p.Valid() && (if two then b else a) == 0
    ensures p.LaneSlots(if two then 1 else 0) == []
  {
    var c := if two then 1 else 0;
    p.SlotsFit(c, c + 1);
    assert Slots(p.Starts(), p.segs, c, c + 1) == Slots(p.Starts(), p.segs, c, c) + SegSlots(p.segs[c], p.Starts()[0]);
    assert Slots(p.Starts(), p.segs, c, c) == [];
  }

  /** Forward `ids` after the cache's history in chunks of at most `maxChunk`. The result does not
      depend on the chunk size, the transport or the kernel: it is the last row of the history
      extended by `ids`. It fails only on no tokens, on a cache built for another chunk size, and
      where evening out an odd number of single-row chunks leaves the last lane without a row. */
  method Forward(m: Model, maxChunk: nat, ids: seq<Token>, kv: DeviceKv, wire: Wire, flash: bool, ghost hist: seq<Token>)
    returns (r: Forwarded)
    requires m.Valid() && maxChunk > 0 && Stands(m, kv.Value(), hist)
    requires wire.inflight == [] && wire.limit >= 1
    modifies kv, wire
    ensures wire.inflight == []
    ensures r.NoTokens? <==> ids == []
    ensures r.WrongChunk? <==> ids != [] && kv.maxChunk != maxChunk
    ensures r.EmptyLane? <==> (ids != [] && kv.maxChunk == maxChunk && wire.limit >= 2 && maxChunk == 1 &&
                               |ids| % 2 == 1 && |ids| >= 2 * PAIR_MIN)
    ensures r.NoTokens? || r.WrongChunk? ==> kv.Value() == old(kv.Value())
    ensures r.Last? || r.EmptyLane? ==> Stands(m, kv.Value(), hist + ids)
    ensures r.Last? ==> r.row == Out(m, hist + ids, |hist| + |ids| - 1)
  {
    hide Stands;
    hide Hid;
    hide Covers;
    hide PairedCount;
    if ids == [] {
      return NoTokens;
    }
    if kv.maxChunk != maxChunk {
      return WrongChunk;
    }
    var pipelined := wire.limit >= 2;
    var spans := ChunkSpans(|ids|, maxChunk, pipelined);
    var lanes := if pipelined then 2 else 1;
    var i := 0;
    var last: seq<Hidden> := [];
    var at: nat := 0;
    CoversAt(spans, |ids|, 0);
    assert hist + ids[..0] == hist;
    while i < |spans|
      invariant i <= |spans| && wire.inflight == [] && at == StartOf(spans, |ids|, i) <= |ids|
      invariant Stands(m, kv.Value(), hist + ids[..at])
      invariant i == |spans| ==> |last| == spans[|spans| - 1].len
      invariant i == |spans| && last != [] ==> last[|last| - 1] == Out(m, hist + ids[..at], |hist| + at - 1)
    {
      var two := lanes == 2 && i + 1 < |spans|;
      var next := if two then i + 2 else i + 1;
      CoversAt(spans, |ids|, i);
      CoversAt(spans, |ids|, next - 1);
      var end := at + spans[i].len + (if two then spans[i + 1].len else 0);
      last := ForwardGroup(m, ids[at..end], spans[i].len, two, kv, wire, flash, hist + ids[..at]);
      Joins(hist, ids, at, end);
      at, i := end, next;
    }
    assert ids[..|ids|] == ids;
    assert last == [] <==> !AllWithin(spans, 1, maxChunk);
    if last == [] {
      return EmptyLane;
    }
    return Last(last[|last| - 1]);
  }

  lemma Joins(hist: seq<Token>, ids: seq<Token>, a: nat, b: nat)
    requires a <= b <= |ids|
    ensures (hist + ids[..a]) + ids[a..b] == hist + ids[..b]
  {
    assert ids[..a] + ids[a..b] == ids[..b];
    assert (hist + ids[..a]) + ids[a..b] == hist + (ids[..a] + ids[a..b]);
  }
}
