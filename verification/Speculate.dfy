/** Speculative decoding. A step verifies a block per request, `[last, d1, .., dk]` with any
    drafts, in one pass of the model; it accepts the drafts the model's own selection agrees
    with, drops the rejected rows from the cache and emits the accepted drafts and the model's
    next token. The reference decodes one token per step. */
module Speculate {
  import opened Basics
  import opened Transformer
  import opened DeviceKvCache
  import opened KvSound
  import opened Lanes

  const DFLASH_DRAFTS: nat := 7
  const DFLASH_BLOCK: nat := 8

  /** A request's selection: the token after a row, for the emitted-token position given (a
      greedy request ignores the position, a sampled one draws by it). */
  type Pick = (Hidden, nat) -> Token

  /** The token after `hist`, of which the first `plen` tokens are the prompt. */
  function Next(m: Model, pick: Pick, plen: nat, hist: seq<Token>): Token
    requires m.Valid() && 1 <= plen <= |hist|
  {
    pick(Out(m, hist, |hist| - 1), |hist| - plen)
  }

  /** The reference: one token per step until the first end-of-sequence token or the budget of
      `max` tokens. */
  function DecodeRun(m: Model, pick: Pick, plen: nat, hist: seq<Token>, max: nat, eos: set<Token>): seq<Token>
    requires m.Valid() && 1 <= plen <= |hist| < plen + max
    decreases plen + max - |hist|
  {
    var next := Next(m, pick, plen, hist);
    if next in eos || |hist| + 1 - plen >= max then hist + [next]
    else DecodeRun(m, pick, plen, hist + [next], max, eos)
  }

  /** `out` continues `hist` one model selection at a time. */
  ghost predicate Follows(m: Model, pick: Pick, plen: nat, hist: seq<Token>, out: seq<Token>)
    requires m.Valid() && 1 <= plen <= |hist|
  {
    forall j :: 0 <= j < |out| ==> out[j] == Next(m, pick, plen, hist + out[..j])
  }

  // ---- The verify pass.

  datatype Plan = Plan(segs: seq<Seg>, cuts: seq<nat>)

  function WholeSegs(lens: seq<nat>): seq<Seg> {
    seq(|lens|, i requires 0 <= i < |lens| => Seg(i, 0, lens[i]))
  }

  /** How the blocks are dealt to lanes: one lane; or a single request's block in two halves; or
      the requests in two halves. */
  function VerifyPlan(lens: seq<nat>, two: bool): Plan
    requires |lens| >= 1
  {
    if !two || (|lens| == 1 && lens[0] < 2) then Plan(WholeSegs(lens), [0, |lens|])
    else if |lens| == 1 then
      var a := (lens[0] + 1) / 2;
      Plan([Seg(0, 0, a), Seg(0, a, lens[0] - a)], [0, 1, 2])
    else Plan(WholeSegs(lens), [0, (|lens| + 1) / 2, |lens|])
  }

  predicate Splits(lens: seq<nat>, two: bool) {
    two && |lens| == 1 && lens[0] >= 2
  }

  lemma {:induction false} BeforeWhole(lens: seq<nat>, k: nat, i: nat)
    requires k <= |lens|
    ensures Before(WholeSegs(lens), k, i) == if i < k then lens[i] else 0
    decreases k
  {
    if k > 0 {
      BeforeWhole(lens, k - 1, i);
    }
  }

  lemma BeforeSplit(a: nat, b: nat, k: nat, i: nat)
    requires k <= 2
    ensures Before([Seg(0, 0, a), Seg(0, a, b)], k, i) == if i > 0 || k == 0 then 0 else if k == 1 then a else a + b
  {
    var s := [Seg(0, 0, a), Seg(0, a, b)];
    assert Before(s, 0, i) == 0;
    assert k >= 1 ==> Before(s, 1, i) == (if i == 0 then a else 0);
  }

  /** The verify pass of `blocks` on caches that stand for their histories is well formed. */
  lemma PlanValid(m: Model, lens: seq<nat>, two: bool, before: seq<Kv>, toks: seq<seq<Token>>)
    requires m.Valid() && |before| == |toks| == |lens| >= 1
    requires forall i :: 0 <= i < |lens| ==> before[i].tokens + lens[i] == |toks[i]|
    requires forall i :: 0 <= i < |lens| ==> StandsIn(m, before[i], toks[i])
    ensures var q := VerifyPlan(lens, two); Pass(m, q.segs, q.cuts, before, toks).Valid()
  {
    hide Stands;
    hide Before;
    var q := VerifyPlan(lens, two);
    var p := Pass(m, q.segs, q.cuts, before, toks);
    forall i | 0 <= i < |before|
      ensures p.RequestOk(i)
    {
      BeforeWhole(lens, |lens|, i);
      if Splits(lens, two) {
        BeforeSplit((lens[0] + 1) / 2, lens[0] - (lens[0] + 1) / 2, 2, i);
      }
    }
    forall k | 0 <= k < |q.segs|
      ensures p.SegOk(k)
    {
      if Splits(lens, two) {
        BeforeSplit((lens[0] + 1) / 2, lens[0] - (lens[0] + 1) / 2, k, 0);
      } else {
        BeforeWhole(lens, k, k);
      }
    }
  }

  function Offset(lens: seq<nat>, i: nat): nat
    requires i <= |lens|
  {
    if i == 0 then 0 else Offset(lens, i - 1) + lens[i - 1]
  }

  lemma {:induction false} OffsetGrows(lens: seq<nat>, i: nat, n: nat)
    requires i <= n <= |lens|
    ensures Offset(lens, i) <= Offset(lens, n)
    decreases n
  {
    if i < n {
      OffsetGrows(lens, i, n - 1);
    }
  }

  /** Block order: request by request, row by row. */
  function FlatSlots(starts: seq<nat>, lens: seq<nat>, n: nat): (r: seq<Slot>)
    requires n <= |lens| == |starts|
    ensures |r| == Offset(lens, n)
  {
    if n == 0 then [] else FlatSlots(starts, lens, n - 1) + SegSlots(Seg(n - 1, 0, lens[n - 1]), starts[n - 1])
  }

  lemma {:induction false} FlatAt(starts: seq<nat>, lens: seq<nat>, n: nat, i: nat, j: nat)
    requires i < n <= |lens| == |starts| && j < lens[i]
    ensures Offset(lens, i) + j < Offset(lens, n)
    ensures FlatSlots(starts, lens, n)[Offset(lens, i) + j] == Slot(i, starts[i] + j)
    decreases n
  {
    if i < n - 1 {
      FlatAt(starts, lens, n - 1, i, j);
    }
  }

  lemma {:induction false} WholeSlots(starts: seq<nat>, lens: seq<nat>, n: nat)
    requires n <= |lens| == |starts|
    ensures forall k :: 0 <= k < |WholeSegs(lens)| ==> WholeSegs(lens)[k].req < |starts|
    ensures Slots(starts, WholeSegs(lens), 0, n) == FlatSlots(starts, lens, n)
    decreases n
  {
    if n > 0 {
      WholeSlots(starts, lens, n - 1);
    }
  }

  /** Whatever the lanes, the rows come in block order. */
  lemma PlanSlots(starts: seq<nat>, lens: seq<nat>, two: bool)
    requires 1 <= |lens| == |starts|
    ensures forall k :: 0 <= k < |VerifyPlan(lens, two).segs| ==> VerifyPlan(lens, two).segs[k].req < |starts|
    ensures Slots(starts, VerifyPlan(lens, two).segs, 0, |VerifyPlan(lens, two).segs|) == FlatSlots(starts, lens, |lens|)
  {
    if Splits(lens, two) {
      SplitSlots(starts, lens, (lens[0] + 1) / 2);
    } else {
      hide Slots, FlatSlots;
      WholeSlots(starts, lens, |lens|);
    }
  }

  lemma SplitSlots(starts: seq<nat>, lens: seq<nat>, a: nat)
    requires |lens| == |starts| == 1 && a <= lens[0]
    ensures Slots(starts, [Seg(0, 0, a), Seg(0, a, lens[0] - a)], 0, 2) == FlatSlots(starts, lens, 1)
  {
    var s, x, y := starts[0], Seg(0, 0, a), Seg(0, a, lens[0] - a);
    var segs := [x, y];
    assert Slots(starts, segs, 0, 0) == [];
    assert Slots(starts, segs, 0, 1) == SegSlots(x, s);
    assert Slots(starts, segs, 0, 2) == SegSlots(x, s) + SegSlots(y, s);
    assert FlatSlots(starts, lens, 0) == [];
    assert FlatSlots(starts, lens, 1) == SegSlots(Seg(0, 0, lens[0]), s);
    assert SegSlots(x, s) + SegSlots(y, s) == SegSlots(Seg(0, 0, lens[0]), s);
  }

  lemma {:induction false} SlotsJoin(starts: seq<nat>, segs: seq<Seg>, from: nat, mid: nat, end: nat)
    requires from <= mid <= end <= |segs| && forall k :: 0 <= k < |segs| ==> segs[k].req < |starts|
    ensures Slots(starts, segs, from, mid) + Slots(starts, segs, mid, end) == Slots(starts, segs, from, end)
    decreases end
  {
    hide SegSlots;
    if mid < end {
      SlotsJoin(starts, segs, from, mid, end - 1);
      var seg := segs[end - 1];
      var last := SegSlots(seg, starts[seg.req]);
      assert Slots(starts, segs, from, mid) + (Slots(starts, segs, mid, end - 1) + last) ==
             (Slots(starts, segs, from, mid) + Slots(starts, segs, mid, end - 1)) + last;
    }
  }

  function LaneSize(segs: seq<Seg>, from: nat, end: nat): nat
    requires from <= end <= |segs|
    decreases end
  {
    if from == end then 0 else LaneSize(segs, from, end - 1) + segs[end - 1].len
  }

  /** What the verify pass accepts: non-empty blocks of at most `DFLASH_BLOCK` rows, and lanes of
      at most `maxChunk`. */
  predicate Admissible(lens: seq<nat>, two: bool, maxChunk: nat) {
    && |lens| >= 1 && (forall i :: 0 <= i < |lens| ==> 1 <= lens[i] <= DFLASH_BLOCK)
    && var q := VerifyPlan(lens, two);
       LaneSize(q.segs, 0, q.cuts[1]) <= maxChunk && LaneSize(q.segs, q.cuts[1], |q.segs|) <= maxChunk
  }

  /** Blocks of few enough requests are admissible in one lane and in two. */
  lemma TwoLaneAdmits(lens: seq<nat>, two: bool, maxChunk: nat)
    requires |lens| >= 1 && DFLASH_BLOCK * |lens| <= maxChunk
    requires forall i :: 0 <= i < |lens| ==> 1 <= lens[i] <= DFLASH_BLOCK
    ensures Admissible(lens, two, maxChunk)
  {
    var q := VerifyPlan(lens, two);
    if Splits(lens, two) {
      var a := (lens[0] + 1) / 2;
      SplitLanes(Seg(0, 0, a), Seg(0, a, lens[0] - a));
    } else {
      LaneRowsBound(lens, 0, q.cuts[1]);
      LaneRowsBound(lens, q.cuts[1], |lens|);
    }
  }

  lemma SplitLanes(x: Seg, y: Seg)
    ensures LaneSize([x, y], 0, 1) == x.len && LaneSize([x, y], 1, 2) == y.len
  {
  }

  lemma {:induction false} LaneRowsBound(lens: seq<nat>, a: nat, b: nat)
    requires a <= b <= |lens| && forall i :: 0 <= i < |lens| ==> lens[i] <= DFLASH_BLOCK
    ensures |WholeSegs(lens)| == |lens| && LaneSize(WholeSegs(lens), a, b) <= DFLASH_BLOCK * (b - a)
    decreases b
  {
    if a < b {
      LaneRowsBound(lens, a, b - 1);
    }
  }

  function Lens(blocks: seq<seq<Token>>): (r: seq<nat>)
    ensures |r| == |blocks|
  {
    seq(|blocks|, i requires 0 <= i < |blocks| => |blocks[i]|)
  }

  function VerifyPass(m: Model, lens: seq<nat>, two: bool, before: seq<Kv>, toks: seq<seq<Token>>): Pass
    requires |lens| >= 1
  {
    var q := VerifyPlan(lens, two);
    Pass(m, q.segs, q.cuts, before, toks)
  }

  /** The rows of the lanes, one after another, are the rows in block order. */
  lemma LanesInOrder(m: Model, lens: seq<nat>, two: bool, before: seq<Kv>, toks: seq<seq<Token>>, h: seq<seq<Hidden>>)
    requires |lens| >= 1 && |before| == |toks| == |lens| && VerifyPass(m, lens, two, before, toks).Valid()
    requires var p := VerifyPass(m, lens, two, before, toks);
      |h| == |p.cuts| - 1 && forall c :: 0 <= c < |h| ==> p.AreHid(h[c], p.LaneSlots(c), |m.kinds|)
    ensures var p := VerifyPass(m, lens, two, before, toks);
      p.AreHid(if |h| == 1 then h[0] else h[0] + h[1], FlatSlots(p.Starts(), lens, |lens|), |m.kinds|)
  {
    hide Hid, Slots, FlatSlots, Pass.AreHid, Pass.Valid, Pass.Starts;
    var p := VerifyPass(m, lens, two, before, toks);
    PlanSlots(p.Starts(), lens, two);
    assert p.AreHid(h[0], p.LaneSlots(0), |m.kinds|);
    if |h| == 2 {
      assert p.AreHid(h[1], p.LaneSlots(1), |m.kinds|);
      SlotsJoin(p.Starts(), p.segs, 0, p.cuts[1], |p.segs|);
      HidsJoin(p, h[0], h[1], p.LaneSlots(0), p.LaneSlots(1));
    }
  }

  lemma HidsJoin(p: Pass, a: seq<Hidden>, b: seq<Hidden>, x: seq<Slot>, y: seq<Slot>)
    requires p.AreHid(a, x, |p.m.kinds|) && p.AreHid(b, y, |p.m.kinds|)
    ensures p.AreHid(a + b, x + y, |p.m.kinds|)
  {
    hide Hid;
  }

  /** The cache stands for a prefix of `toks`. */
  ghost predicate StandsIn(m: Model, v: Kv, toks: seq<Token>) {
    v.tokens <= |toks| && Stands(m, v, toks[..v.tokens])
  }

  /** The verify pass: every row's selection, in block order; the blocks are appended. */
  method VerifyBatch(m: Model, picks: seq<Pick>, dones: seq<nat>, blocks: seq<seq<Token>>, kvs: seq<DeviceKv>, wire: Wire,
                     two: bool, maxChunk: nat, ghost before: seq<Kv>, ghost toks: seq<seq<Token>>)
    returns (ok: bool, am: seq<seq<Token>>)
    requires m.Valid() && |picks| == |dones| == |blocks| == |kvs| == |before| == |toks| && Distinct(kvs)
    requires wire.inflight == [] && (two ==> wire.limit >= 2) && wire.limit >= 1
    requires forall i :: 0 <= i < |kvs| ==> kvs[i].Value() == before[i]
    requires forall i :: 0 <= i < |kvs| ==> BlockOf(toks[i], before[i].tokens, blocks[i])
    requires forall i :: 0 <= i < |kvs| ==> StandsIn(m, before[i], toks[i])
    modifies kvs, wire
    ensures wire.inflight == [] && (ok <==> Admissible(Lens(blocks), two, maxChunk))
    ensures !ok ==> forall i :: 0 <= i < |kvs| ==> kvs[i].Value() == before[i]
    ensures ok ==> |am| == |blocks| && forall i :: 0 <= i < |am| ==> Selected(m, picks[i], dones[i], toks[i], |blocks[i]|, am[i])
    ensures ok ==> forall i :: 0 <= i < |kvs| ==> Stands(m, kvs[i].Value(), toks[i])
    ensures ok ==> forall i :: 0 <= i < |kvs| ==>
              VerifyPass(m, Lens(blocks), two, before, toks).KvAt(kvs[i].layers, i, |m.kinds|, 0)
  {
    hide Stands;
    hide Slots;
    hide Hid;
    hide Pass.KvAt;
    hide FlatSlots;
    var lens := Lens(blocks);
    if !Admissible(lens, two, maxChunk) {
      return false, [];
    }
    var q := VerifyPlan(lens, two);
    ghost var p := VerifyPass(m, lens, two, before, toks);
    PlanValid(m, lens, two, before, toks);
    var done, h := RunPass(m, q.segs, q.cuts, blocks, kvs, wire, false, p);
    LanesInOrder(m, lens, two, before, toks, h);
    am := SelectRows(m, picks, dones, lens, if |h| == 1 then h[0] else h[0] + h[1], before, toks, p);
    ok := true;
  }

  lemma RowsSelected(lens: seq<nat>, flat: seq<Hidden>, p: Pass, i: nat, g: seq<Token>, pick: Pick, base: nat)
    requires p.m.Valid() && i < |lens| == |p.before| == |p.toks| && p.before[i].tokens + lens[i] == |p.toks[i]|
    requires p.AreHid(flat, FlatSlots(p.Starts(), lens, |lens|), |p.m.kinds|)
    requires |g| == lens[i] && Offset(lens, i) + lens[i] <= |flat|
    requires forall j :: 0 <= j < |g| ==> g[j] == pick(flat[Offset(lens, i) + j], base + j)
    ensures Selected(p.m, pick, base, p.toks[i], lens[i], g)
  {
    hide Hid, FlatSlots;
    forall j | 0 <= j < |g|
      ensures g[j] == pick(Out(p.m, p.toks[i], |p.toks[i]| - lens[i] + j), base + j)
    {
      FlatAt(p.Starts(), lens, |lens|, i, j);
    }
  }

  /** Each row's selection, request by request. */
  method SelectRows(m: Model, picks: seq<Pick>, dones: seq<nat>, lens: seq<nat>, flat: seq<Hidden>,
                    ghost before: seq<Kv>, ghost toks: seq<seq<Token>>, ghost p: Pass)
    returns (am: seq<seq<Token>>)
    requires m.Valid() && |picks| == |dones| == |lens| == |before| == |toks| == |p.toks| && p.toks == toks
    requires p.m == m && p.before == before
    requires forall i :: 0 <= i < |lens| ==> before[i].tokens + lens[i] == |toks[i]|
    requires p.AreHid(flat, FlatSlots(p.Starts(), lens, |lens|), |m.kinds|)
    ensures |am| == |lens| && forall i :: 0 <= i < |am| ==> Selected(m, picks[i], dones[i], toks[i], lens[i], am[i])
  {
    hide Hid, FlatSlots, Selected;
    assert |flat| == Offset(lens, |lens|);
    hide Pass.AreHid;
    am := [];
    var off := 0;
    while |am| < |lens|
      invariant |am| <= |lens| && off == Offset(lens, |am|)
      invariant forall i :: 0 <= i < |am| ==> Selected(m, picks[i], dones[i], toks[i], lens[i], am[i])
    {
      var i := |am|;
      var pick, base := picks[i], dones[i];
      OffsetGrows(lens, i + 1, |lens|);
      var o := off;
      var g := seq(lens[i], j requires 0 <= j < lens[i] => pick(flat[o + j], base + j));
      RowsSelected(lens, flat, p, i, g, pick, base);
      am := am + [g];
      off := off + lens[i];
    }
  }

  /** `g` selects after each of the last `n` tokens of `toks`. */
  ghost predicate Selected(m: Model, pick: Pick, done: nat, toks: seq<Token>, n: nat, g: seq<Token>) {
    && m.Valid() && |g| == n <= |toks|
    && forall j :: 0 <= j < n ==> g[j] == pick(Out(m, toks, |toks| - n + j), done + j)
  }

  // ---- Rolling back.

  /** Whether the windowed layers of a cache `v`, given a block of `t` rows of which `keep` stay,
      still hold the window: always for a block appended at once; for a block split over two
      lanes, unless the second half's append compacts and not even the first half stays. */
  predicate WindowKept(m: Model, v: Kv, t: nat, split: bool, keep: nat)
    requires v.Valid()
  {
    split ==> forall l :: 0 <= l < |v.layers| && v.layers[l].kind.Swa? ==>
      (var a := (t + 1) / 2;
       !SecondCompacts(v.layers[l], a, t - a) || keep >= a || v.tokens + a <= m.window - 1)
  }

  /** A cache in which no block can lose its window by being split, whatever is accepted of it. */
  predicate SplitSafe(m: Model, v: Kv) {
    v.Valid() && forall t: nat :: 1 <= t <= DFLASH_BLOCK ==> WindowKept(m, v, t, true, 1)
  }

  /** A block split in this cache can lose the window. */
  ghost predicate Loses(m: Model, v: Kv) {
    v.Valid() && exists t: nat, keep: nat :: 2 <= t <= DFLASH_BLOCK && 1 <= keep <= t && !WindowKept(m, v, t, true, keep)
  }

  /** The test is exact: it fails in just the caches in which some block can lose the window. */
  lemma SafeExactly(m: Model, v: Kv)
    requires v.Valid()
    ensures SplitSafe(m, v) <==> !Loses(m, v)
  {
    if SplitSafe(m, v) {
      forall t: nat, keep: nat | 2 <= t <= DFLASH_BLOCK && 1 <= keep <= t
        ensures WindowKept(m, v, t, true, keep)
      {
        SplitKeeps(m, v, t, true, keep);
      }
    } else {
      var t: nat :| 1 <= t <= DFLASH_BLOCK && !WindowKept(m, v, t, true, 1);
      assert t >= 2;
    }
  }

  /** Where the truncate after a split block of `t` rows cannot fail: the window is longer than any
      block, or is kept whatever is accepted of this one. */
  predicate SplitFits(m: Model, v: Kv, t: nat, split: bool) {
    split && m.window <= DFLASH_BLOCK ==> v.Valid() && WindowKept(m, v, t, true, 1)
  }

  /** The more of a block stays, the sooner the window is kept. */
  lemma KeptMore(m: Model, v: Kv, t: nat, split: bool, few: nat, many: nat)
    requires v.Valid() && few <= many && WindowKept(m, v, t, split, few)
    ensures WindowKept(m, v, t, split, many)
  {
  }

  /** In a cache that stands for `toks`, a split block within a budget of `left` more tokens can lose
      the window. */
  ghost predicate Risks(m: Model, v: Kv, toks: seq<Token>, left: nat) {
    Stands(m, v, toks) && exists t: nat :: 2 <= t <= Min(left, DFLASH_BLOCK) && !WindowKept(m, v, t, true, 1)
  }

  /** The model has a windowed layer. */
  predicate Windowed(m: Model) {
    exists l :: 0 <= l < |m.kinds| && m.kinds[l].Swa?
  }

  /** After how many tokens that can be: once the history and a block exceed what a windowed layer is
      built for, and the block has room for more than two rows. */
  predicate Longish(m: Model, n: nat, left: nat) {
    Windowed(m) && left >= 3 && n + Min(left, DFLASH_BLOCK) > m.window - 1 + SWA_SLACK_ROWS
  }

  /** The caches of a history in which it can are there exactly then. */
  lemma RisksExactly(m: Model, toks: seq<Token>, left: nat)
    requires m.Valid()
    ensures (exists v :: Risks(m, v, toks, left)) <==> Longish(m, |toks|, left)
  {
    forall v | Risks(m, v, toks, left)
      ensures Longish(m, |toks|, left)
    {
      RisksLong(m, v, toks, left);
    }
    if Longish(m, |toks|, left) {
      LongRisks(m, toks, left);
    }
  }

  lemma LongRisks(m: Model, toks: seq<Token>, left: nat)
    requires m.Valid() && Longish(m, |toks|, left)
    ensures exists v :: Risks(m, v, toks, left)
  {
    hide Stands, SecondCompacts, Crowded;
    var t := Min(left, DFLASH_BLOCK);
    var v := Crowded(m, toks, m.window + SWA_SLACK_ROWS - t);
    CrowdedStands(m, toks, m.window + SWA_SLACK_ROWS - t);
    var l :| 0 <= l < |m.kinds| && m.kinds[l].Swa?;
    CrowdedCompacts(m, toks, t, l);
    assert !WindowKept(m, v, t, true, 1);
    assert Risks(m, v, toks, left);
  }

  lemma RisksLong(m: Model, v: Kv, toks: seq<Token>, left: nat)
    requires Risks(m, v, toks, left)
    ensures Longish(m, |toks|, left)
  {
    hide LayerAt;
    var t: nat :| 2 <= t <= Min(left, DFLASH_BLOCK) && !WindowKept(m, v, t, true, 1);
    var a := (t + 1) / 2;
    var l :| 0 <= l < |v.layers| && v.layers[l].kind.Swa? && SecondCompacts(v.layers[l], a, t - a) && 1 < a;
    LayerRows(m, v.layers[l], l, toks);
  }

  lemma LayerRows(m: Model, lay: LayerKv, l: nat, toks: seq<Token>)
    requires LayerAt(m, lay, l, toks, |toks|)
    ensures |lay.rows| <= |toks| && m.kinds[l] == lay.kind
  {
    hide Span;
  }

  /** A cache of `toks` whose windowed layers hold `rows` rows, at the capacity they are built with. */
  function Crowded(m: Model, toks: seq<Token>, rows: nat): (v: Kv)
    requires m.Valid() && rows <= |toks|
    ensures |v.layers| == |m.kinds|
  {
    Kv(seq(|m.kinds|, l requires 0 <= l < |m.kinds| =>
        if m.kinds[l].Ga? then LayerKv(Ga, 0, |toks|, Hist(m, toks, l, |toks|))
        else LayerKv(Swa, m.window, m.window - 1 + SWA_SLACK_ROWS, Tail(Hist(m, toks, l, |toks|), rows))),
      |toks|, 0, 0, m.window - 1 + SWA_SLACK_ROWS)
  }

  lemma CrowdedStands(m: Model, toks: seq<Token>, rows: nat)
    requires m.Valid() && m.window - 1 <= rows <= |toks| && rows <= m.window - 1 + SWA_SLACK_ROWS
    ensures var v := Crowded(m, toks, rows); Stands(m, v, toks) && v.tokens == |toks| && v.Valid()
  {
    hide Span;
    var v := Crowded(m, toks, rows);
    forall l | 0 <= l < |m.kinds|
      ensures LayerAt(m, v.layers[l], l, toks, |toks|)
    {
      var full := Hist(m, toks, l, |toks|);
      TailWhole(full);
    }
  }

  lemma TailWhole(full: seq<Row>)
    ensures Tail(full, |full|) == full
  {
  }

  lemma CrowdedCompacts(m: Model, toks: seq<Token>, t: nat, l: nat)
    requires m.Valid() && l < |m.kinds| && m.kinds[l].Swa? && 3 <= t <= DFLASH_BLOCK
    requires m.window + SWA_SLACK_ROWS - t <= |toks|
    ensures var lay, a := Crowded(m, toks, m.window + SWA_SLACK_ROWS - t).layers[l], (t + 1) / 2;
      lay.Valid() && lay.kind.Swa? && SecondCompacts(lay, a, t - a) && a > 1
  {
    hide Span;
  }

  lemma SplitKeeps(m: Model, v: Kv, t: nat, split: bool, keep: nat)
    requires v.Valid() && (split ==> SplitSafe(m, v)) && 1 <= t <= DFLASH_BLOCK && keep >= 1
    ensures WindowKept(m, v, t, split, keep)
  {
    if split {
      assert WindowKept(m, v, t, true, 1);
    }
  }

  /** A layer after the verify pass: one append, or one per half. */
  lemma VerifiedLayer(m: Model, lens: seq<nat>, two: bool, before: seq<Kv>, toks: seq<seq<Token>>, i: nat, l: nat)
    requires i < |lens| == |before| == |toks| && l < |m.kinds|
    requires VerifyPass(m, lens, two, before, toks).Valid()
    ensures var p := VerifyPass(m, lens, two, before, toks);
      && p.Fits(i, l, |p.segs|) && before[i].tokens + lens[i] == |toks[i]|
      && var lay, full, n := before[i].layers[l], p.Full(i, l), before[i].tokens;
      p.State(i, l, |p.segs|) ==
         if Splits(lens, two) then
           var a := (lens[0] + 1) / 2;
           lay.Appended(Span(full, n, n + a)).Appended(Span(full, n + a, n + lens[0]))
         else lay.Appended(Span(full, n, n + lens[i]))
  {
    hide Span;
    hide LayerKv.Appended;
    hide Hist;
    var p := VerifyPass(m, lens, two, before, toks);
    assert p.RequestOk(i);
    p.AllFits(i, l, |p.segs|);
    if Splits(lens, two) {
      var a := (lens[0] + 1) / 2;
      BeforeSplit(a, lens[0] - a, 0, i);
      BeforeSplit(a, lens[0] - a, 1, i);
      BeforeSplit(a, lens[0] - a, 2, i);
      p.StateStep(i, l, 0);
      p.StateStep(i, l, 1);
    } else {
      BeforeWhole(lens, |lens|, i);
      WholeState(before[i].layers[l], p.Full(i, l), before[i].tokens, lens, |lens|, i);
    }
  }

  lemma {:induction false} WholeState(lay: LayerKv, full: seq<Row>, n: nat, lens: seq<nat>, k: nat, i: nat)
    requires i < |lens| && k <= |lens| && lay.Valid() && n + lens[i] <= |full|
    ensures n + Before(WholeSegs(lens), k, i) <= |full|
    ensures LayerState(lay, full, n, WholeSegs(lens), k, i) ==
            if i < k then lay.Appended(Span(full, n, n + lens[i])) else lay
    decreases k
  {
    hide Span;
    hide LayerKv.Appended;
    BeforeWhole(lens, k, i);
    if k > 0 {
      BeforeWhole(lens, k - 1, i);
      WholeState(lay, full, n, lens, k - 1, i);
    }
  }

  /** One layer after the rejected rows are dropped. */
  lemma RolledBackLayer(m: Model, lens: seq<nat>, two: bool, before: seq<Kv>, toks: seq<seq<Token>>, i: nat, l: nat, keep: nat)
    requires i < |lens| == |before| == |toks| && l < |m.kinds| && 1 <= keep <= lens[i] <= DFLASH_BLOCK
    requires VerifyPass(m, lens, two, before, toks).Valid()
    ensures var p := VerifyPass(m, lens, two, before, toks);
      && p.Fits(i, l, |p.segs|) && Belongs(m, before[i].layers[l], l)
      && var lay, n := p.State(i, l, |p.segs|), before[i].tokens;
         && n + keep <= |toks[i]|
         && ((Splits(lens, two) ==> m.window > DFLASH_BLOCK) ==> lens[i] - keep <= |lay.rows|)
         && (lens[i] - keep <= |lay.rows| && Holds(lay.Truncated(lens[i] - keep), Span(p.Full(i, l), 0, n + keep)) <==>
             (Splits(lens, two) && m.kinds[l].Swa? ==>
               var a := (lens[0] + 1) / 2;
               !SecondCompacts(before[i].layers[l], a, lens[0] - a) || keep >= a || n + a <= m.window - 1))
  {
    hide Span;
    hide LayerKv.Appended;
    hide Holds;
    hide SecondCompacts;
    hide Hist;
    hide LayerKv.Truncated;
    var p := VerifyPass(m, lens, two, before, toks);
    VerifiedLayer(m, lens, two, before, toks, i, l);
    p.BeforeHolds(i, l);
    var lay, full, n, t := before[i].layers[l], p.Full(i, l), before[i].tokens, lens[i];
    SpanOfSpan(full, 0, n + t, 0, n + keep);
    SpanWhole(full);
    if Splits(lens, two) {
      var a := (t + 1) / 2;
      var x, y := Span(full, n, n + a), Span(full, n + a, n + t);
      SpanJoin(full, 0, n, n + a);
      SpanJoin(full, 0, n + a, n + t);
      if m.kinds[l].Swa? {
        SplitBlockWindow(lay, Span(full, 0, n), x, y, keep);
      } else {
        SplitGa(lay, Span(full, 0, n), x, y, keep);
      }
    } else {
      SpanJoin(full, 0, n, n + t);
      RollbackHolds(lay, Span(full, 0, n), Span(full, n, n + t), t - keep);
    }
  }

  /** A full-attention layer always rolls back. */
  lemma SplitGa(lay: LayerKv, full: seq<Row>, x: seq<Row>, y: seq<Row>, keep: nat)
    requires Holds(lay, full) && lay.kind.Ga? && 1 <= keep <= |x| + |y|
    ensures |x| + |y| - keep <= |lay.Appended(x).Appended(y).rows|
    ensures Holds(lay.Appended(x).Appended(y).Truncated(|x| + |y| - keep), Span(full + x + y, 0, |full| + keep))
  {
    hide Span;
    hide LayerKv.Appended;
    AppendHolds(lay, full, x);
    RollbackHolds(lay.Appended(x), full + x, y, if keep >= |x| then |x| + |y| - keep else |y|);
    AppendHolds(lay.Appended(x), full + x, y);
    TruncateHolds(lay.Appended(x).Appended(y), full + x + y, |x| + |y| - keep);
  }

  /** The exact effect of dropping a verified block's rejected rows on the whole cache: it is
      possible and leaves the cache standing, exactly when the window was kept. */
  lemma RolledBack(m: Model, lens: seq<nat>, two: bool, before: seq<Kv>, toks: seq<seq<Token>>, i: nat, v: Kv, keep: nat)
    requires i < |lens| == |before| == |toks| && 1 <= keep <= lens[i] <= DFLASH_BLOCK
    requires VerifyPass(m, lens, two, before, toks).Valid()
    requires VerifyPass(m, lens, two, before, toks).KvAt(v.layers, i, |m.kinds|, 0) && Stands(m, v, toks[i])
    ensures before[i].tokens + lens[i] == |toks[i]| == v.tokens && before[i].Valid()
    ensures (Splits(lens, two) ==> m.window > DFLASH_BLOCK) ==> forall l :: 0 <= l < |v.layers| ==> lens[i] - keep <= |v.layers[l].rows|
    ensures CutStands(m, v, toks[i], before[i].tokens + keep) <==> WindowKept(m, before[i], lens[i], Splits(lens, two), keep)
  {
    hide Span, Hist, Holds, SecondCompacts, LayerState, Shaped;
    var p := VerifyPass(m, lens, two, before, toks);
    assert p.RequestOk(i);
    var n, drop := before[i].tokens + keep, lens[i] - keep;
    VerifiedLens(m, lens, two, before, toks, i);
    PassShapes(m, lens, two, before, toks, i, v);
    forall l | 0 <= l < |v.layers|
      ensures (Splits(lens, two) ==> m.window > DFLASH_BLOCK) ==> drop <= |v.layers[l].rows|
      ensures (drop <= |v.layers[l].rows| && LayerAt(m, v.layers[l].Truncated(drop), l, toks[i][..n], n)) <==>
              LayerKept(m, lens, two, before, i, l, keep)
      ensures before[i].layers[l].kind == v.layers[l].kind
    {
      RolledBackAt(m, lens, two, before, toks, i, v, keep, l);
    }
    LayersKept(m, lens, two, before, i, keep);
    hide LayerKept, WindowKept, LayerAt, VerifyPass, LayerKv.Truncated;
    if forall l :: 0 <= l < |v.layers| ==> drop <= |v.layers[l].rows| {
      TruncatedShape(m, v, n);
      assert forall l :: 0 <= l < |v.layers| ==> v.Truncated(n).layers[l] == v.layers[l].Truncated(drop);
    }
  }

  lemma PassShapes(m: Model, lens: seq<nat>, two: bool, before: seq<Kv>, toks: seq<seq<Token>>, i: nat, v: Kv)
    requires i < |lens| == |before| == |toks| && VerifyPass(m, lens, two, before, toks).Valid() && Stands(m, v, toks[i])
    ensures before[i].Valid() && |v.layers| == |before[i].layers| == |m.kinds|
  {
    hide Before;
    var p := VerifyPass(m, lens, two, before, toks);
    assert p.RequestOk(i);
  }

  /** One layer's share of `WindowKept`. */
  predicate LayerKept(m: Model, lens: seq<nat>, two: bool, before: seq<Kv>, i: nat, l: nat, keep: nat)
    requires i < |lens| == |before| && l < |before[i].layers| && before[i].Valid()
  {
    Splits(lens, two) && before[i].layers[l].kind.Swa? ==>
      var a := (lens[0] + 1) / 2;
      !SecondCompacts(before[i].layers[l], a, lens[0] - a) || keep >= a || before[i].tokens + a <= m.window - 1
  }

  lemma LayersKept(m: Model, lens: seq<nat>, two: bool, before: seq<Kv>, i: nat, keep: nat)
    requires i < |lens| == |before| && before[i].Valid()
    ensures WindowKept(m, before[i], lens[i], Splits(lens, two), keep) <==>
            forall l :: 0 <= l < |before[i].layers| ==> LayerKept(m, lens, two, before, i, l, keep)
  {
    hide SecondCompacts;
    var v := before[i];
    if Splits(lens, two) {
      var a := (lens[0] + 1) / 2;
      forall l | 0 <= l < |v.layers|
        ensures LayerKept(m, lens, two, before, i, l, keep) <==>
          (v.layers[l].kind.Swa? ==> !SecondCompacts(v.layers[l], a, lens[0] - a) || keep >= a || v.tokens + a <= m.window - 1)
      {
      }
    }
  }

  lemma RolledBackAt(m: Model, lens: seq<nat>, two: bool, before: seq<Kv>, toks: seq<seq<Token>>, i: nat, v: Kv, keep: nat, l: nat)
    requires i < |lens| == |before| == |toks| && 1 <= keep <= lens[i] <= DFLASH_BLOCK && l < |v.layers|
    requires VerifyPass(m, lens, two, before, toks).Valid()
    requires VerifyPass(m, lens, two, before, toks).KvAt(v.layers, i, |m.kinds|, 0) && Stands(m, v, toks[i])
    requires before[i].tokens + lens[i] == |toks[i]|
    ensures before[i].Valid() && |v.layers| == |before[i].layers| == |m.kinds| && before[i].layers[l].kind == v.layers[l].kind
    ensures var n, drop := before[i].tokens + keep, lens[i] - keep;
      && ((Splits(lens, two) ==> m.window > DFLASH_BLOCK) ==> drop <= |v.layers[l].rows|)
      && ((drop <= |v.layers[l].rows| && LayerAt(m, v.layers[l].Truncated(drop), l, toks[i][..n], n)) <==>
          LayerKept(m, lens, two, before, i, l, keep))
  {
    hide Span, Hist, Holds, SecondCompacts, LayerState;
    var p := VerifyPass(m, lens, two, before, toks);
    assert p.RequestOk(i);
    var n := before[i].tokens + keep;
    assert p.LayerIs(v.layers[l], i, l, |p.segs|);
    RolledBackLayer(m, lens, two, before, toks, i, l, keep);
    HistPrefix(m, toks[i], l, n, |toks[i]|);
    HistCausal(m, toks[i], toks[i][..n], l, n);
  }

  lemma VerifiedLens(m: Model, lens: seq<nat>, two: bool, before: seq<Kv>, toks: seq<seq<Token>>, i: nat)
    requires i < |lens| == |before| == |toks| && VerifyPass(m, lens, two, before, toks).Valid()
    ensures before[i].tokens + lens[i] == |toks[i]|
  {
    var p := VerifyPass(m, lens, two, before, toks);
    assert p.RequestOk(i);
    if Splits(lens, two) {
      BeforeSplit((lens[0] + 1) / 2, lens[0] - (lens[0] + 1) / 2, 2, i);
    } else {
      BeforeWhole(lens, |lens|, i);
    }
  }

  lemma TruncatedShape(m: Model, v: Kv, n: nat)
    requires Shaped(m, v) && n <= v.tokens && forall l :: 0 <= l < |v.layers| ==> v.tokens - n <= |v.layers[l].rows|
    ensures Shaped(m, v.Truncated(n))
  {
    hide Span;
  }

  // ---- One step.

  /** What a request proposes this step: a copy window, or the drafter's tokens of which the
      verify-length policy takes the first `policy` the cap allows. Nothing is assumed of the
      tokens. */
  datatype Draft = Draft(copy: seq<Token>, drafted: seq<Token>, policy: nat)
  {
    predicate Valid() {
      |drafted| == DFLASH_DRAFTS
    }

    /** The block verified for a request whose last token is `last`, with at most `k` proposals. */
    function Block(last: Token, k: nat): (r: seq<Token>)
      requires Valid()
      ensures 1 <= |r| <= k + 1 && r[0] == last
    {
      [last] + if copy == [] then drafted[..Min(policy, Min(k, DFLASH_DRAFTS))] else copy[..Min(|copy|, k)]
    }
  }

  function Blocks(lasts: seq<Token>, drafts: seq<Draft>, ks: seq<nat>): (r: seq<seq<Token>>)
    requires |lasts| == |drafts| == |ks| && forall i :: 0 <= i < |ks| ==> drafts[i].Valid()
    ensures |r| == |lasts|
  {
    seq(|lasts|, i requires 0 <= i < |lasts| => drafts[i].Block(lasts[i], ks[i]))
  }

  /** How many proposals the selections agree with, from the front. */
  method Accepted(block: seq<Token>, g: seq<Token>) returns (acc: nat)
    requires 1 <= |block| == |g|
    ensures acc < |block| && forall j :: 0 <= j < acc ==> block[j + 1] == g[j]
    ensures acc + 1 < |block| ==> block[acc + 1] != g[acc]
  {
    acc := 0;
    while acc + 1 < |block| && block[acc + 1] == g[acc]
      invariant acc < |block| && forall j :: 0 <= j < acc ==> block[j + 1] == g[j]
    {
      acc := acc + 1;
    }
  }

  /** The tokens a step emits: the accepted proposals, then the selection after them. */
  function Emitted(block: seq<Token>, g: seq<Token>, acc: nat): (r: seq<Token>)
    requires acc < |block| == |g|
    ensures |r| == acc + 1
  {
    block[1..acc + 1] + [g[acc]]
  }

  /** What was emitted after a block: as many of its proposals, from the front, as the selections
      agree with, and the selection after them. */
  predicate Agrees(block: seq<Token>, out: seq<Token>) {
    && 1 <= |out| <= |block| && (forall j :: 0 <= j < |out| - 1 ==> out[j] == block[j + 1])
    && (|out| < |block| ==> block[|out|] != out[|out| - 1])
  }

  lemma EmittedAgrees(block: seq<Token>, g: seq<Token>, acc: nat)
    requires acc < |block| == |g| && (acc + 1 < |block| ==> block[acc + 1] != g[acc])
    ensures Agrees(block, Emitted(block, g, acc))
  {
    assert Emitted(block, g, acc)[acc] == g[acc];
  }

  lemma EmittedIs(block: seq<Token>, g: seq<Token>, acc: nat, j: nat)
    requires acc < |block| == |g| && j <= acc && forall x :: 0 <= x < acc ==> block[x + 1] == g[x]
    ensures Emitted(block, g, acc)[j] == g[j]
  {
    if j < acc {
      assert Emitted(block, g, acc)[j] == block[1..acc + 1][j] == block[j + 1];
    }
  }

  lemma SameStart(hist: seq<Token>, block: seq<Token>, g: seq<Token>, acc: nat, j: nat)
    requires 1 <= |hist| && 1 <= |block| == |g| && acc < |block| && block[0] == hist[|hist| - 1] && j <= acc
    ensures hist + Emitted(block, g, acc)[..j] == (hist[..|hist| - 1] + block)[..|hist| + j]
  {
    var front := hist[..|hist| - 1];
    assert hist == front + [block[0]];
    assert Emitted(block, g, acc)[..j] == block[1..j + 1];
    assert block[..j + 1] == [block[0]] + block[1..j + 1];
    assert (front + block)[..|hist| + j] == front + block[..j + 1];
  }

  /** What a step emits is what one-token decoding emits, and the rows that stay are exactly the
      history's. */
  lemma EmittedFollows(m: Model, pick: Pick, plen: nat, hist: seq<Token>, block: seq<Token>, g: seq<Token>, acc: nat)
    requires m.Valid() && 1 <= plen <= |hist| && 1 <= |block| == |g| && acc < |block|
    requires block[0] == hist[|hist| - 1]
    requires Selected(m, pick, |hist| - plen, hist[..|hist| - 1] + block, |block|, g)
    requires forall j :: 0 <= j < acc ==> block[j + 1] == g[j]
    ensures var out := Emitted(block, g, acc);
      && Follows(m, pick, plen, hist, out)
      && (hist[..|hist| - 1] + block)[..|hist| + acc] == (hist + out)[..|hist| + acc]
  {
    hide Hid, Emitted;
    var toks, out := hist[..|hist| - 1] + block, Emitted(block, g, acc);
    forall j | 0 <= j < |out|
      ensures out[j] == Next(m, pick, plen, hist + out[..j])
    {
      EmittedIs(block, g, acc, j);
      var h := hist + out[..j];
      SameStart(hist, block, g, acc, j);
      assert h == toks[..|hist| + j];
      HidCausal(m, h, toks, |m.kinds|, |hist| - 1 + j);
    }
    SameRows(hist, block, g, acc);
  }

  /** The rows kept are those of the history with what was emitted, but for its last token. */
  lemma SameRows(hist: seq<Token>, block: seq<Token>, g: seq<Token>, acc: nat)
    requires 1 <= |hist| && 1 <= |block| == |g| && acc < |block| && block[0] == hist[|hist| - 1]
    ensures (hist[..|hist| - 1] + block)[..|hist| + acc] == (hist + Emitted(block, g, acc))[..|hist| + acc]
  {
    var front, kept := hist[..|hist| - 1], block[1..acc + 1];
    assert hist == front + [block[0]];
    assert block[..acc + 1] == [block[0]] + kept;
    assert (front + block)[..|hist| + acc] == front + block[..acc + 1];
    assert (hist + Emitted(block, g, acc))[..|hist| + acc] == hist + kept;
    assert front + ([block[0]] + kept) == front + [block[0]] + kept;
  }

  lemma SelectedLength(m: Model, pick: Pick, done: nat, toks: seq<Token>, n: nat, g: seq<Token>)
    requires Selected(m, pick, done, toks, n, g)
    ensures |g| == n
  {
  }

  /** Each request's history ends in its last token and its cache stands for the rest. */
  ghost predicate ReadyToStep(m: Model, v: Kv, hist: seq<Token>, plen: nat, last: Token, done: nat) {
    && m.Valid() && 1 <= plen <= |hist| && last == hist[|hist| - 1] && done == |hist| - plen
    && Stands(m, v, hist[..|hist| - 1])
  }

  /** The effect of one step on one request. */
  ghost predicate Stepped(m: Model, pick: Pick, plen: nat, hist: seq<Token>, was: Kv, k: nat, split: bool, t: nat,
                          out: seq<Token>, now: Kv)
  {
    && m.Valid() && 1 <= plen <= |hist| && was.Valid() && 1 <= |out| <= t <= k + 1
    && Follows(m, pick, plen, hist, out) && now.tokens == |hist| + |out| - 1
    && (Stands(m, now, (hist + out)[..|hist| + |out| - 1]) <==> WindowKept(m, was, t, split, |out|))
    && (forall e :: 1 <= e <= |out| ==> (CutStands(m, now, hist + out, |hist| + e - 1) <==> WindowKept(m, was, t, split, e)))
  }

  lemma Prepends(m: Model, v: Kv, hist: seq<Token>, plen: nat, last: Token, done: nat, block: seq<Token>)
    requires ReadyToStep(m, v, hist, plen, last, done)
    ensures BlockOf(hist[..|hist| - 1] + block, v.tokens, block) && StandsIn(m, v, hist[..|hist| - 1] + block)
  {
    hide Shaped;
    hide LayerAt;
    var toks := hist[..|hist| - 1] + block;
    assert v.tokens == |hist| - 1;
    assert toks[..v.tokens] == hist[..|hist| - 1];
  }

  lemma AdmissibleLens(lens: seq<nat>, two: bool, maxChunk: nat)
    requires Admissible(lens, two, maxChunk)
    ensures |lens| >= 1 && forall i :: 0 <= i < |lens| ==> 1 <= lens[i] <= DFLASH_BLOCK
  {
  }

  /** What the verify pass leaves of one request: its cache `v` with the block appended and the
      block's selections `g`. */
  ghost predicate Verified(m: Model, pick: Pick, plen: nat, hist: seq<Token>, b: seq<Token>, p: Pass, i: nat, v: Kv, g: seq<Token>)
  {
    && m.Valid() && 1 <= plen <= |hist| && 1 <= |b| <= DFLASH_BLOCK && b[0] == hist[|hist| - 1]
    && i < |p.toks| == |p.before| && p.toks[i] == hist[..|hist| - 1] + b && p.before[i].tokens == |hist| - 1
    && Selected(m, pick, |hist| - plen, p.toks[i], |b|, g)
    && p.KvAt(v.layers, i, |m.kinds|, 0) && Stands(m, v, p.toks[i])
  }

  /** One request's part of a step, once the verify pass has run. */
  lemma StepOne(m: Model, pick: Pick, plen: nat, hist: seq<Token>, b: seq<Token>, g: seq<Token>, acc: nat, lens: seq<nat>,
                two: bool, before: seq<Kv>, toks: seq<seq<Token>>, i: nat, v: Kv, k: nat)
    requires |lens| == |before| == |toks| >= 1 && i < |lens| && lens[i] == |b| && acc < |b| <= k + 1
    requires VerifyPass(m, lens, two, before, toks).Valid()
    requires Verified(m, pick, plen, hist, b, VerifyPass(m, lens, two, before, toks), i, v, g)
    requires |g| == |b| && forall j :: 0 <= j < acc ==> b[j + 1] == g[j]
    ensures v.tokens == |hist| - 1 + |b| && Usable(m, v)
    ensures SplitFits(m, before[i], lens[i], Splits(lens, two)) ==> forall l :: 0 <= l < |v.layers| ==> v.tokens - (|hist| + acc) <= |v.layers[l].rows|
    ensures (forall l :: 0 <= l < |v.layers| ==> v.tokens - (|hist| + acc) <= |v.layers[l].rows|) ==>
      Stepped(m, pick, plen, hist, before[i], k, Splits(lens, two), lens[i], Emitted(b, g, acc), v.Truncated(|hist| + acc))
  {
    hide Stands, Follows, Selected, WindowKept, Pass.KvAt, VerifyPlan, Splits, SplitSafe, Usable;
    SelectedLength(m, pick, |hist| - plen, toks[i], |b|, g);
    StandsTokens(m, v, toks[i]);
    StandsUsable(m, v, toks[i]);
    EmittedFollows(m, pick, plen, hist, b, g, acc);
    RolledBack(m, lens, two, before, toks, i, v, acc + 1);
    if Splits(lens, two) && SplitFits(m, before[i], lens[i], true) && m.window <= DFLASH_BLOCK {
      KeptMore(m, before[i], lens[i], true, 1, acc + 1);
    }
    if Cuttable(v, |hist| + acc) {
      forall e | 1 <= e <= acc + 1
        ensures CutStands(m, v.Truncated(|hist| + acc), hist + Emitted(b, g, acc), |hist| + e - 1) <==>
                WindowKept(m, before[i], lens[i], Splits(lens, two), e)
      {
        RolledBack(m, lens, two, before, toks, i, v, e);
        CutAgain(m, v, toks[i], hist + Emitted(b, g, acc), |hist| + acc, |hist| + e - 1);
      }
    }
  }

  /** Where two histories agree, cutting back once more is cutting back that far. */
  lemma CutAgain(m: Model, v: Kv, x: seq<Token>, y: seq<Token>, a: nat, b: nat)
    requires b <= a <= |x| && a <= |y| && x[..a] == y[..a] && Cuttable(v, a)
    ensures CutStands(m, v.Truncated(a), y, b) <==> CutStands(m, v, x, b)
  {
    hide Stands, Kv.Truncated;
    CutTwice(v, a, b);
    CutTokens(x, y, a, b);
    CutLength(v, a);
  }

  lemma CutLength(v: Kv, a: nat)
    requires Cuttable(v, a)
    ensures v.Truncated(a).tokens == a && |v.Truncated(a).layers| == |v.layers|
  {
  }

  lemma CutTokens(x: seq<Token>, y: seq<Token>, a: nat, b: nat)
    requires b <= a <= |x| && a <= |y| && x[..a] == y[..a]
    ensures x[..b] == y[..b]
  {
    assert x[..b] == x[..a][..b];
    assert y[..b] == y[..a][..b];
  }

  /** Accept, roll back, emit: one request. The truncate may fail, and leaves a usable slot. */
  method Settle(m: Model, pick: Pick, kv: DeviceKv, start: nat, b: seq<Token>, g: seq<Token>,
                ghost plen: nat, ghost hist: seq<Token>, ghost lens: seq<nat>, ghost two: bool, ghost before: seq<Kv>,
                ghost toks: seq<seq<Token>>, ghost i: nat, ghost k: nat)
    returns (ok: bool, out: seq<Token>)
    requires |lens| == |before| == |toks| >= 1 && i < |lens| && lens[i] == |b| <= k + 1 && start + 1 == |hist|
    requires VerifyPass(m, lens, two, before, toks).Valid()
    requires Verified(m, pick, plen, hist, b, VerifyPass(m, lens, two, before, toks), i, kv.Value(), g)
    modifies kv
    ensures SplitFits(m, before[i], lens[i], Splits(lens, two)) ==> ok
    ensures ok ==> Stepped(m, pick, plen, hist, before[i], k, Splits(lens, two), lens[i], out, kv.Value()) && Agrees(b, out)
    ensures Usable(m, kv.Value()) && (!ok ==> kv.tokens >= |hist|)
  {
    hide Stands, Pass.KvAt, Pass.Valid, Stepped, VerifyPlan, Selected, SplitSafe, Usable, Agrees;
    SelectedLength(m, pick, |hist| - plen, toks[i], |b|, g);
    var acc := Accepted(b, g);
    StepOne(m, pick, plen, hist, b, g, acc, lens, two, before, toks, i, kv.Value(), k);
    ghost var v := kv.Value();
    ok := kv.Truncate(start + acc + 1);
    if !ok {
      PartlyCutUsable(m, v, kv.Value(), v.tokens - (start + acc + 1));
    } else {
      CutUsable(m, v, start + acc + 1);
    }
    out := Emitted(b, g, acc);
    EmittedAgrees(b, g, acc);
  }

  method Positions(kvs: seq<DeviceKv>) returns (starts: seq<nat>)
    ensures |starts| == |kvs| && forall i :: 0 <= i < |kvs| ==> starts[i] == kvs[i].tokens
  {
    starts := [];
    while |starts| < |kvs|
      invariant |starts| <= |kvs| && forall i :: 0 <= i < |starts| ==> starts[i] == kvs[i].tokens
    {
      starts := starts + [kvs[|starts|].tokens];
    }
  }

  /** Accept, roll back, emit: every request in turn. */
  method SettleAll(m: Model, picks: seq<Pick>, kvs: seq<DeviceKv>, starts: seq<nat>, blocks: seq<seq<Token>>, am: seq<seq<Token>>,
                   ghost plens: seq<nat>, ghost hists: seq<seq<Token>>, ghost two: bool, ghost before: seq<Kv>,
                   ghost toks: seq<seq<Token>>, ghost ks: seq<nat>)
    returns (ok: bool, outs: seq<seq<Token>>)
    requires 1 <= |picks| == |kvs| == |starts| == |blocks| == |am| == |plens| == |hists| == |before| == |toks| == |ks|
    requires Distinct(kvs)
    requires VerifyPass(m, Lens(blocks), two, before, toks).Valid()
    requires forall i :: 0 <= i < |kvs| ==> |blocks[i]| <= ks[i] + 1 && starts[i] + 1 == |hists[i]|
    requires forall i :: 0 <= i < |kvs| ==>
      Verified(m, picks[i], plens[i], hists[i], blocks[i], VerifyPass(m, Lens(blocks), two, before, toks), i, kvs[i].Value(), am[i])
    modifies kvs
    ensures (forall i :: 0 <= i < |kvs| ==> SplitFits(m, before[i], Lens(blocks)[i], Splits(Lens(blocks), two))) ==> ok
    ensures ok ==> |outs| == |kvs| && forall i :: 0 <= i < |kvs| ==>
      Stepped(m, picks[i], plens[i], hists[i], before[i], ks[i], Splits(Lens(blocks), two), |blocks[i]|, outs[i], kvs[i].Value()) &&
      Agrees(blocks[i], outs[i])
    ensures forall i :: 0 <= i < |kvs| ==> Usable(m, kvs[i].Value())
    ensures !ok ==> exists i :: 0 <= i < |kvs| && kvs[i].tokens >= |hists[i]|
  {
    hide Pass.Valid, Stepped, VerifyPlan, SplitFits, Usable, Stands, Agrees;
    ghost var lens := Lens(blocks);
    ghost var all := VerifyPass(m, lens, two, before, toks);
    ghost var split := Splits(lens, two);
    forall i | 0 <= i < |kvs|
      ensures Usable(m, kvs[i].Value())
    {
      StandsUsable(m, kvs[i].Value(), toks[i]);
    }
    hide Verified;
    outs := [];
    ok := true;
    while |outs| < |kvs|
      invariant |outs| <= |kvs| && ok
      invariant forall i :: 0 <= i < |kvs| ==> Usable(m, kvs[i].Value())
      invariant forall i :: 0 <= i < |outs| ==>
        Stepped(m, picks[i], plens[i], hists[i], before[i], ks[i], split, lens[i], outs[i], kvs[i].Value()) && Agrees(blocks[i], outs[i])
      invariant forall i :: |outs| <= i < |kvs| ==>
        Verified(m, picks[i], plens[i], hists[i], blocks[i], all, i, kvs[i].Value(), am[i])
    {
      var i := |outs|;
      var out;
      ok, out := Settle(m, picks[i], kvs[i], starts[i], blocks[i], am[i], plens[i], hists[i], lens, two, before, toks, i, ks[i]);
      if !ok {
        return false, [];
      }
      outs := outs + [out];
    }
  }

  /** One speculative step: verify each request's block, accept, roll the rejected rows back.
      What the verify pass does not admit fails and changes nothing; beyond that only the truncate
      of a split block can fail, in a window no longer than a block. A step that fails leaves
      usable slots. */
  method SpecStep(m: Model, picks: seq<Pick>, kvs: seq<DeviceKv>, lasts: seq<Token>, ks: seq<nat>, dones: seq<nat>,
                  drafts: seq<Draft>, wire: Wire, two: bool, maxChunk: nat,
                  ghost hists: seq<seq<Token>>, ghost plens: seq<nat>, ghost before: seq<Kv>)
    returns (ok: bool, outs: seq<seq<Token>>)
    requires |picks| == |kvs| == |lasts| == |ks| == |dones| == |drafts| == |hists| == |plens| == |before|
    requires Distinct(kvs)
    requires wire.inflight == [] && (two ==> wire.limit >= 2) && wire.limit >= 1
    requires m.Valid()
    requires forall i :: 0 <= i < |kvs| ==> ks[i] <= DFLASH_DRAFTS && drafts[i].Valid()
    requires forall i :: 0 <= i < |kvs| ==> kvs[i].Value() == before[i]
    requires forall i :: 0 <= i < |kvs| ==> ReadyToStep(m, before[i], hists[i], plens[i], lasts[i], dones[i])
    modifies kvs, wire
    ensures wire.inflight == []
    ensures ok ==> Admissible(Lens(Blocks(lasts, drafts, ks)), two, maxChunk)
    ensures !Admissible(Lens(Blocks(lasts, drafts, ks)), two, maxChunk) ==> forall i :: 0 <= i < |kvs| ==> kvs[i].Value() == before[i]
    ensures var lens := Lens(Blocks(lasts, drafts, ks));
      Admissible(lens, two, maxChunk) && (forall i :: 0 <= i < |kvs| ==> SplitFits(m, before[i], lens[i], Splits(lens, two))) ==> ok
    ensures forall i :: 0 <= i < |kvs| ==> Usable(m, kvs[i].Value())
    ensures Admissible(Lens(Blocks(lasts, drafts, ks)), two, maxChunk) && !ok ==>
      exists i :: 0 <= i < |kvs| && kvs[i].tokens >= |hists[i]|
    ensures ok ==> |outs| == |kvs|
    ensures ok ==> forall i :: 0 <= i < |kvs| ==>
      Stepped(m, picks[i], plens[i], hists[i], before[i], ks[i], Splits(Lens(Blocks(lasts, drafts, ks)), two),
              |drafts[i].Block(lasts[i], ks[i])|, outs[i], kvs[i].Value()) &&
      Agrees(drafts[i].Block(lasts[i], ks[i]), outs[i])
  {
    hide Stands;
    hide Selected;
    hide Pass.KvAt;
    hide Admissible;
    hide Follows;
    hide WindowKept;
    hide Stepped;
    hide StandsIn;
    hide VerifyPlan;
    hide Draft.Block;
    hide ReadyToStep;
    hide Usable;
    hide SplitFits;
    hide Agrees;
    var starts := Positions(kvs);
    var blocks := Blocks(lasts, drafts, ks);
    ghost var toks := seq(|hists|, i requires 0 <= i < |hists| =>
      StepReady(m, before[i], hists[i], plens[i], lasts[i], dones[i]);
      hists[i][..|hists[i]| - 1] + blocks[i]);
    forall i | 0 <= i < |kvs|
      ensures BlockOf(toks[i], before[i].tokens, blocks[i]) && StandsIn(m, before[i], toks[i])
    {
      StepReady(m, before[i], hists[i], plens[i], lasts[i], dones[i]);
      Prepends(m, before[i], hists[i], plens[i], lasts[i], dones[i], blocks[i]);
    }
    var am;
    ok, am := VerifyBatch(m, picks, dones, blocks, kvs, wire, two, maxChunk, before, toks);
    if !ok {
      forall i | 0 <= i < |kvs|
        ensures Usable(m, kvs[i].Value())
      {
        ReadyUsable(m, before[i], hists[i], plens[i], lasts[i], dones[i]);
      }
      return false, [];
    }
    ghost var lens := Lens(blocks);
    AdmissibleLens(lens, two, maxChunk);
    PlanValid(m, lens, two, before, toks);
    forall i | 0 <= i < |kvs|
      ensures Verified(m, picks[i], plens[i], hists[i], blocks[i], VerifyPass(m, lens, two, before, toks), i,
                       kvs[i].Value(), am[i])
      ensures |blocks[i]| <= ks[i] + 1 && starts[i] + 1 == |hists[i]|
    {
      StepReady(m, before[i], hists[i], plens[i], lasts[i], dones[i]);
    }
    hide Verified;
    ok, outs := SettleAll(m, picks, kvs, starts, blocks, am, plens, hists, two, before, toks, ks);
  }

  lemma ReadyUsable(m: Model, v: Kv, hist: seq<Token>, plen: nat, last: Token, done: nat)
    requires ReadyToStep(m, v, hist, plen, last, done)
    ensures Usable(m, v)
  {
    StandsUsable(m, v, hist[..|hist| - 1]);
  }

  lemma StepReady(m: Model, v: Kv, hist: seq<Token>, plen: nat, last: Token, done: nat)
    requires ReadyToStep(m, v, hist, plen, last, done)
    ensures 1 <= plen <= |hist| && last == hist[|hist| - 1] && done == |hist| - plen && v.tokens == |hist| - 1
  {
  }
}
