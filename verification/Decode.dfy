/** The decode rounds of the scheduler: every running request takes one speculative step, its
    tokens go to the client one by one, and it ends at the first end-of-sequence token, at its
    budget, or when the client is gone. */
module Decode {
  import opened Basics
  import opened Transformer
  import opened DeviceKvCache
  import opened KvSound
  import opened Lanes
  import opened Speculate

  /** The history after sending `out` token by token, and whether the request ended: at an
      end-of-sequence token, at its budget of `max`, or when the client stops after `alive` more
      tokens. Nothing after the token that ends it is sent. */
  function Absorbed(hist: seq<Token>, plen: nat, out: seq<Token>, max: nat, eos: set<Token>, alive: nat): (seq<Token>, bool)
    decreases |out|
  {
    if out == [] then (hist, false)
    else
      var h := hist + [out[0]];
      if out[0] in eos || |h| >= plen + max || alive == 0 then (h, true)
      else Absorbed(h, plen, out[1..], max, eos, alive - 1)
  }

  lemma FollowsTail(m: Model, pick: Pick, plen: nat, hist: seq<Token>, out: seq<Token>)
    requires m.Valid() && 1 <= plen <= |hist| && out != [] && Follows(m, pick, plen, hist, out)
    ensures out[0] == Next(m, pick, plen, hist)
    ensures Follows(m, pick, plen, hist + [out[0]], out[1..])
  {
    hide Next;
    assert hist + out[..0] == hist;
    forall j | 0 <= j < |out| - 1
      ensures out[1..][j] == Next(m, pick, plen, hist + [out[0]] + out[1..][..j])
    {
      assert hist + [out[0]] + out[1..][..j] == hist + out[..j + 1];
    }
  }

  /** Tokens that follow the history one selection at a time never leave the reference run: while
      the request is unfinished the run is still ahead of it, and when it ends the history is the
      run, or a prefix of it if the client left. */
  lemma {:induction false} AbsorbedRun(m: Model, pick: Pick, plen: nat, hist: seq<Token>, out: seq<Token>, max: nat,
                                       eos: set<Token>, alive: nat)
    requires m.Valid() && 1 <= plen <= |hist| < plen + max && Follows(m, pick, plen, hist, out)
    ensures var (h, done) := Absorbed(hist, plen, out, max, eos, alive);
      && h <= DecodeRun(m, pick, plen, hist, max, eos) && |h| <= plen + max && h <= hist + out
      && (!done ==> h == hist + out && |h| < plen + max &&
                    DecodeRun(m, pick, plen, h, max, eos) == DecodeRun(m, pick, plen, hist, max, eos))
      && (done && |h| <= |hist| + alive ==> h == DecodeRun(m, pick, plen, hist, max, eos))
    decreases |out|
  {
    hide Next;
    if out == [] {
      RunExtends(m, pick, plen, hist, max, eos);
    } else {
      FollowsTail(m, pick, plen, hist, out);
      var h := hist + [out[0]];
      if out[0] in eos || |h| >= plen + max {
      } else if alive == 0 {
        RunExtends(m, pick, plen, h, max, eos);
      } else {
        AbsorbedRun(m, pick, plen, h, out[1..], max, eos, alive - 1);
        assert h + out[1..] == hist + out;
      }
    }
  }

  lemma {:induction false} RunExtends(m: Model, pick: Pick, plen: nat, hist: seq<Token>, max: nat, eos: set<Token>)
    requires m.Valid() && 1 <= plen <= |hist| < plen + max
    ensures hist <= DecodeRun(m, pick, plen, hist, max, eos)
    decreases plen + max - |hist|
  {
    hide Next;
    var h := hist + [Next(m, pick, plen, hist)];
    if !(h[|hist|] in eos || |h| - plen >= max) {
      RunExtends(m, pick, plen, h, max, eos);
    }
  }

  /** A request being decoded. */
  class Active {
    const kv: DeviceKv
    const plen: nat
    const max: nat
    const pick: Pick
    var last: Token
    var generated: nat
    var hist: seq<Token>
    /** How many more tokens the client takes. */
    var alive: nat

    constructor (kv: DeviceKv, prompt: seq<Token>, first: Token, max: nat, pick: Pick, alive: nat)
      ensures this.kv == kv && plen == |prompt| && this.max == max && this.pick == pick && this.alive == alive
      ensures last == first && generated == 1 && hist == prompt + [first]
    {
      this.kv, plen, this.max, this.pick := kv, |prompt|, max, pick;
      last, generated, hist, this.alive := first, 1, prompt + [first], alive;
    }

    /** The fields agree with the history, which still has budget left. */
    ghost predicate Counted()
      reads this
    {
      1 <= plen < |hist| < plen + max && generated == |hist| - plen && last == hist[|hist| - 1]
    }

    /** The cache stands for the history without its last token. */
    ghost predicate Ok(m: Model)
      reads this, kv
    {
      m.Valid() && Counted() && Stands(m, kv.Value(), hist[..|hist| - 1])
    }

    /** Send a step's tokens; true when the request ends. */
    method Send(out: seq<Token>, eos: set<Token>) returns (done: bool)
      requires Counted()
      modifies this
      ensures (hist, done) == Absorbed(old(hist), plen, out, max, eos, old(alive))
      ensures generated == |hist| - plen && |hist| >= 1 && last == hist[|hist| - 1]
      ensures |hist| >= |old(hist)|
      ensures |hist| <= |old(hist)| + old(alive) ==> alive == |old(hist)| + old(alive) - |hist|
    {
      var i := 0;
      done := false;
      while i < |out| && !done
        invariant i <= |out| && generated == |hist| - plen && plen < |hist| && last == hist[|hist| - 1]
        invariant |hist| >= |old(hist)|
        invariant if |hist| <= |old(hist)| + old(alive) then alive == |old(hist)| + old(alive) - |hist| else alive == 0 && done
        invariant !done ==> Absorbed(old(hist), plen, out, max, eos, old(alive)) == Absorbed(hist, plen, out[i..], max, eos, alive)
        invariant done ==> Absorbed(old(hist), plen, out, max, eos, old(alive)) == (hist, true)
      {
        last := out[i];
        generated := generated + 1;
        hist := hist + [out[i]];
        done := out[i] in eos || generated >= max;
        if alive == 0 {
          done := true;
        } else {
          alive := alive - 1;
        }
        assert out[i..][1..] == out[i + 1..];
        i := i + 1;
      }
    }
  }

  function Kvs(active: seq<Active>): (r: seq<DeviceKv>)
    ensures |r| == |active|
  {
    seq(|active|, i requires 0 <= i < |active| => active[i].kv)
  }

  function Those(active: seq<Active>): set<Active> {
    set a | a in active
  }

  /** The caches the running requests hold. */
  function Slotted(active: seq<Active>): set<DeviceKv> {
    set a | a in active :: a.kv
  }

  /** Proposals per request this round: never past the token budget, at most the drafter's block. */
  function Cap(max: nat, generated: nat): nat
    requires generated < max
  {
    Min(max - generated - 1, DFLASH_DRAFTS)
  }

  ghost function KvValues(active: seq<Active>): (r: seq<Kv>)
    reads Kvs(active)
    ensures |r| == |active| && forall i :: 0 <= i < |r| ==> r[i] == active[i].kv.Value()
  {
    seq(|active|, i requires 0 <= i < |active| reads Kvs(active) =>
      assert Kvs(active)[i] == active[i].kv; active[i].kv.Value())
  }

  ghost predicate Separate(active: seq<Active>) {
    forall a, b :: 0 <= a < b < |active| ==> active[a] != active[b] && active[a].kv != active[b].kv
  }

  /** What a round does to one request that had history `was` and cache `before`: its history is
      a longer prefix of the reference run, within the budget; it ends exactly at an
      end-of-sequence token, at the budget or with the token its client does not take. If it goes
      on, its cache stands for the new history without its last token exactly when the window was
      kept; if it ended with its client still there, its history is the whole run; and either way
      its cache can be cut back to the history's end under the same condition. */
  ghost predicate RoundOf(m: Model, a: Active, was: seq<Token>, alive: nat, before: Kv, t: nat, split: bool, eos: set<Token>, done: bool)
    reads a, a.kv
  {
    && m.Valid() && 1 <= a.plen < |was| < a.plen + a.max && before.Valid() && |was| < |a.hist| <= a.plen + a.max
    && a.hist <= DecodeRun(m, a.pick, a.plen, was, a.max, eos)
    && (var kept := WindowKept(m, before, t, split, |a.hist| - |was|);
        && (CutStands(m, a.kv.Value(), a.hist, |a.hist| - 1) <==> kept)
        && (!done ==> a.Counted() && (a.Ok(m) <==> kept))
        && (!done ==> DecodeRun(m, a.pick, a.plen, a.hist, a.max, eos) == DecodeRun(m, a.pick, a.plen, was, a.max, eos))
        && (done && |a.hist| <= |was| + alive ==> a.hist == DecodeRun(m, a.pick, a.plen, was, a.max, eos)))
    && (|a.hist| <= |was| + alive ==> a.alive == |was| + alive - |a.hist|)
    && |a.hist| <= |was| + t && |a.hist| <= |was| + alive + 1
    && (done <==> RunsOut(a.hist, a.plen, a.max, eos, |was| + alive))
  }

  /** The history ends in an end-of-sequence token, or reaches its budget, or is longer than its
      client takes. */
  predicate RunsOut(hist: seq<Token>, plen: nat, max: nat, eos: set<Token>, takes: nat) {
    (hist != [] && hist[|hist| - 1] in eos) || |hist| >= plen + max || |hist| > takes
  }

  /** One request's share of a round, from its share of the step. */
  lemma ShareOfRound(m: Model, pick: Pick, plen: nat, was: seq<Token>, before: Kv, k: nat, split: bool, t: nat,
                     out: seq<Token>, now: Kv, max: nat, eos: set<Token>, alive: nat)
    requires Stepped(m, pick, plen, was, before, k, split, t, out, now) && plen < |was| < plen + max
    requires |out| <= max
    ensures var (h, done) := Absorbed(was, plen, out, max, eos, alive);
      && |was| < |h| <= plen + max && h <= DecodeRun(m, pick, plen, was, max, eos)
      && (CutStands(m, now, h, |h| - 1) <==> WindowKept(m, before, t, split, |h| - |was|))
      && (!done ==> h == was + out && |h| < plen + max)
      && (!done ==> (Stands(m, now, h[..|h| - 1]) <==> WindowKept(m, before, t, split, |h| - |was|)))
      && (!done ==> DecodeRun(m, pick, plen, h, max, eos) == DecodeRun(m, pick, plen, was, max, eos))
      && (done && |h| <= |was| + alive ==> h == DecodeRun(m, pick, plen, was, max, eos))
      && |h| <= |was| + t && |h| <= |was| + alive + 1 && (done <==> RunsOut(h, plen, max, eos, |was| + alive))
  {
    hide Stands, WindowKept, DecodeRun, Follows, RunsOut;
    AbsorbedRun(m, pick, plen, was, out, max, eos, alive);
    var (h, done) := Absorbed(was, plen, out, max, eos, alive);
    AbsorbedLonger(was, plen, out, max, eos, alive);
    var e := |h| - |was|;
    assert CutStands(m, now, was + out, |was| + e - 1) <==> WindowKept(m, before, t, split, e);
    assert (was + out)[..|h| - 1] == h[..|h| - 1];
  }

  lemma {:induction false} AbsorbedLonger(hist: seq<Token>, plen: nat, out: seq<Token>, max: nat, eos: set<Token>, alive: nat)
    requires out != []
    ensures var (h, done) := Absorbed(hist, plen, out, max, eos, alive);
      && |h| > |hist| && h <= hist + out && |h| <= |hist| + alive + 1
      && (done <==> RunsOut(h, plen, max, eos, |hist| + alive))
    decreases |out|
  {
    var h := hist + [out[0]];
    assert h + out[1..] == hist + out;
    if !(out[0] in eos || |h| >= plen + max || alive == 0) && out[1..] != [] {
      AbsorbedLonger(h, plen, out[1..], max, eos, alive - 1);
    }
  }

  /** What the running requests bring to a step. */
  method Gather(active: seq<Active>, ghost was: seq<seq<Token>>)
    returns (picks: seq<Pick>, lasts: seq<Token>, ks: seq<nat>, dones: seq<nat>)
    requires |active| == |was| && forall i :: 0 <= i < |active| ==> active[i].Counted() && was[i] == active[i].hist
    ensures |picks| == |lasts| == |ks| == |dones| == |active|
    ensures forall i :: 0 <= i < |active| ==> picks[i] == active[i].pick && lasts[i] == active[i].last
    ensures forall i :: 0 <= i < |active| ==>
      dones[i] == active[i].generated < active[i].max && ks[i] == Cap(active[i].max, active[i].generated)
  {
    picks, lasts, ks, dones := [], [], [], [];
    while |ks| < |active|
      invariant |ks| == |lasts| == |dones| == |picks| <= |active|
      invariant forall i :: 0 <= i < |ks| ==> picks[i] == active[i].pick && lasts[i] == active[i].last
      invariant forall i :: 0 <= i < |ks| ==>
        dones[i] == active[i].generated < active[i].max && ks[i] == Cap(active[i].max, active[i].generated)
    {
      var a := active[|ks|];
      lasts, ks, dones, picks := lasts + [a.last], ks + [Cap(a.max, a.generated)], dones + [a.generated], picks + [a.pick];
    }
  }

  /** The step's tokens, sent. */
  method SendAll(m: Model, active: seq<Active>, outs: seq<seq<Token>>, eos: set<Token>, ghost picks: seq<Pick>,
                 ghost plens: seq<nat>, ghost ks: seq<nat>, ghost lens: seq<nat>, ghost split: bool,
                 ghost before: seq<Kv>, ghost was: seq<seq<Token>>, ghost alive: seq<nat>)
    returns (done: seq<bool>)
    requires |active| == |outs| == |picks| == |plens| == |ks| == |lens| == |before| == |was| == |alive| && Separate(active)
    requires m.Valid() && forall i :: 0 <= i < |active| ==>
      active[i].Counted() && was[i] == active[i].hist && alive[i] == active[i].alive
    requires forall i :: 0 <= i < |active| ==> picks[i] == active[i].pick && plens[i] == active[i].plen && ks[i] < active[i].max
    requires forall i :: 0 <= i < |active| ==>
      Stepped(m, picks[i], plens[i], was[i], before[i], ks[i], split, lens[i], outs[i], active[i].kv.Value())
    modifies active
    ensures |done| == |active| && forall i :: 0 <= i < |active| ==>
      RoundOf(m, active[i], was[i], alive[i], before[i], lens[i], split, eos, done[i])
  {
    hide Stands;
    hide Stepped;
    hide WindowKept;
    hide CutStands;
    hide DecodeRun;
    hide RoundOf;
    done := [];
    while |done| < |active|
      invariant |done| <= |active|
      invariant forall i :: |done| <= i < |active| ==>
        active[i].Counted() && was[i] == active[i].hist && alive[i] == active[i].alive
      invariant forall i :: 0 <= i < |done| ==>
        RoundOf(m, active[i], was[i], alive[i], before[i], lens[i], split, eos, done[i])
    {
      var i := |done|;
      var d := SendOne(m, active[i], outs[i], eos, ks[i], lens[i], split, before[i]);
      done := done + [d];
    }
  }

  method SendOne(m: Model, a: Active, out: seq<Token>, eos: set<Token>, ghost k: nat, ghost t: nat, ghost split: bool, ghost before: Kv)
    returns (done: bool)
    requires m.Valid() && a.Counted() && k < a.max
    requires Stepped(m, a.pick, a.plen, a.hist, before, k, split, t, out, a.kv.Value())
    modifies a
    ensures RoundOf(m, a, old(a.hist), old(a.alive), before, t, split, eos, done)
  {
    hide Stands;
    hide Stepped;
    hide WindowKept;
    hide CutStands;
    hide DecodeRun;
    ghost var now := a.kv.Value();
    StepBound(m, a.pick, a.plen, a.hist, before, k, split, t, out, now);
    ShareOfRound(m, a.pick, a.plen, a.hist, before, k, split, t, out, now, a.max, eos, a.alive);
    done := a.Send(out, eos);
  }

  /** One round of speculative decoding for every running request. A round that fails sends
      nothing and leaves usable slots. */
  method Round(m: Model, active: seq<Active>, drafts: seq<Draft>, wire: Wire, two: bool, maxChunk: nat, eos: set<Token>,
               ghost before: seq<Kv>, ghost was: seq<seq<Token>>, ghost alive: seq<nat>)
    returns (ok: bool, done: seq<bool>, lens: seq<nat>)
    requires |active| == |drafts| == |before| == |was| == |alive| && Separate(active)
    requires wire.inflight == [] && (two ==> wire.limit >= 2) && wire.limit >= 1
    requires m.Valid()
    requires forall i :: 0 <= i < |active| ==> active[i].Ok(m) && drafts[i].Valid()
    requires forall i :: 0 <= i < |active| ==>
      before[i] == active[i].kv.Value() && was[i] == active[i].hist && alive[i] == active[i].alive
    modifies Those(active), Slotted(active), wire
    ensures wire.inflight == [] && |lens| == |active| && forall i :: 0 <= i < |lens| ==>
      1 <= lens[i] <= DFLASH_BLOCK && |was[i]| + lens[i] <= active[i].plen + active[i].max
    ensures ok ==> Admissible(lens, two, maxChunk)
    ensures Admissible(lens, two, maxChunk) && (forall i :: 0 <= i < |active| ==> SplitFits(m, before[i], lens[i], Splits(lens, two))) ==> ok
    ensures !ok ==> forall i :: 0 <= i < |active| ==> active[i].hist == was[i] && Usable(m, active[i].kv.Value())
    ensures Admissible(lens, two, maxChunk) && !ok ==> exists i :: 0 <= i < |active| && active[i].kv.tokens >= |active[i].hist|
    ensures ok ==> |done| == |active|
    ensures ok ==> forall i :: 0 <= i < |active| ==>
      RoundOf(m, active[i], was[i], alive[i], before[i], lens[i], Splits(lens, two), eos, done[i])
  {
    hide Stands, Stepped, Admissible, RoundOf, SplitFits, Usable, Splits, Draft.Valid, Model.Valid, Blocks, Lens, Draft.Block;
    var picks, lasts, ks, dones := Gather(active, was);
    ghost var plens := seq(|active|, i requires 0 <= i < |active| => active[i].plen);
    lens := Lens(Blocks(lasts, drafts, ks));
    BlockLengths(lasts, drafts, ks);
    var outs;
    ok, outs := SpecStep(m, picks, Kvs(active), lasts, ks, dones, drafts, wire, two, maxChunk, was, plens, before);
    done := [];
    if ok {
      done := SendAll(m, active, outs, eos, picks, plens, ks, lens, Splits(lens, two), before, was, alive);
    } else if Admissible(lens, two, maxChunk) {
      var kvs := Kvs(active);
      assert forall i :: 0 <= i < |active| ==> kvs[i] == active[i].kv;
    }
  }

  lemma BlockLengths(lasts: seq<Token>, drafts: seq<Draft>, ks: seq<nat>)
    requires |lasts| == |drafts| == |ks| && forall i :: 0 <= i < |ks| ==> drafts[i].Valid() && ks[i] <= DFLASH_DRAFTS
    ensures var lens := Lens(Blocks(lasts, drafts, ks)); |lens| == |ks| && forall i :: 0 <= i < |ks| ==>
      lens[i] == |drafts[i].Block(lasts[i], ks[i])| && 1 <= lens[i] <= ks[i] + 1
  {
    hide Draft.Block, Draft.Valid;
  }

  lemma StepBound(m: Model, pick: Pick, plen: nat, hist: seq<Token>, was: Kv, k: nat, split: bool, t: nat, out: seq<Token>, now: Kv)
    requires Stepped(m, pick, plen, hist, was, k, split, t, out, now)
    ensures 1 <= |out| <= k + 1 && was.Valid()
  {
  }

  /** A running request is on the way to `target`, with at most `left` tokens of budget. */
  ghost predicate OnTrack(m: Model, a: Active, target: seq<Token>, left: nat, eos: set<Token>)
    reads a, a.kv
  {
    && a.Ok(m) && a.alive >= a.plen + a.max - |a.hist| && a.plen + a.max <= |a.hist| + left
    && DecodeRun(m, a.pick, a.plen, a.hist, a.max, eos) == target
  }

  /** A round keeps a request on its way or takes it there. */
  lemma RoundKeeps(m: Model, a: Active, was: seq<Token>, alive: nat, before: Kv, t: nat, split: bool, eos: set<Token>,
                   done: bool, target: seq<Token>, left: nat)
    requires RoundOf(m, a, was, alive, before, t, split, eos, done)
    requires done || WindowKept(m, before, t, split, |a.hist| - |was|)
    requires alive >= a.plen + a.max - |was| && a.plen + a.max <= |was| + left
    requires DecodeRun(m, a.pick, a.plen, was, a.max, eos) == target
    ensures left >= 1
    ensures Fate(m, a, done, target, left - 1, eos)
  {
    hide Stands, DecodeRun, CutStands, WindowKept;
  }

  /** The split of a lone block cost the window, in a cache `v` that stood for the history `was` but its
      last token: of a request it took to `h` too few proposals were accepted; or it took it nowhere,
      as the block could not be cut back, which only a window no longer than a block allows. The
      block was within the budget. */
  ghost predicate Costs(m: Model, v: Kv, was: seq<Token>, h: seq<Token>, budget: nat) {
    && was != [] && was <= h && Stands(m, v, was[..|was| - 1]) && (h == was ==> m.window <= DFLASH_BLOCK)
    && exists t: nat :: |was| + t <= budget && CutShort(m, v, t, was, h)
  }

  /** How many rows of a block stay at least, when it takes a request from `was` to `h`. */
  function Stayed(was: seq<Token>, h: seq<Token>): (n: nat)
    ensures n >= 1 && (|h| > |was| ==> n == |h| - |was|)
  {
    if |h| > |was| then |h| - |was| else 1
  }

  /** A split block of `t` rows of which so few stay that the window is not kept. */
  predicate CutShort(m: Model, v: Kv, t: nat, was: seq<Token>, h: seq<Token>) {
    2 <= t <= DFLASH_BLOCK && |h| <= |was| + t && v.Valid() && !WindowKept(m, v, t, true, Stayed(was, h))
  }

  /** Only a request that outgrows what a windowed layer is built for can be met by that. */
  lemma CostsLong(m: Model, v: Kv, was: seq<Token>, h: seq<Token>, budget: nat)
    requires Costs(m, v, was, h, budget)
    ensures |was| <= budget && Risks(m, v, was[..|was| - 1], budget - |was|)
    ensures Outgrows(m, budget)
  {
    hide WindowKept, Stands;
    var toks := was[..|was| - 1];
    var t: nat :| |was| + t <= budget && CutShort(m, v, t, was, h);
    if WindowKept(m, v, t, true, 1) {
      KeptMore(m, v, t, true, 1, Stayed(was, h));
    }
    RisksLong(m, v, toks, budget - |was|);
  }

  /** The whole of the request, its prompt and its budget, is more than the rows a windowed layer is
      built for. */
  predicate Outgrows(m: Model, budget: nat) {
    Windowed(m) && budget > m.window + SWA_SLACK_ROWS
  }

  /** The bound is exact: along a prompt and its budget there is a point with a cache in which a split
      block can lose the window if and only if they outgrow it. */
  lemma OutgrowsExactly(m: Model, run: seq<Token>)
    requires m.Valid()
    ensures (exists n: nat, v: Kv :: RisksAt(m, v, run, n)) <==> Outgrows(m, |run|)
  {
    hide Risks, Windowed;
    forall n: nat, v: Kv | RisksAt(m, v, run, n)
      ensures Outgrows(m, |run|)
    {
      RisksLong(m, v, run[..n - 1], |run| - n);
    }
    if Outgrows(m, |run|) {
      var n := |run| - 3;
      RisksExactly(m, run[..n - 1], 3);
      var v :| Risks(m, v, run[..n - 1], 3);
      assert RisksAt(m, v, run, n);
    }
  }

  /** In this cache, with the first `n` tokens of `run` sent but for the last one's rows. */
  ghost predicate RisksAt(m: Model, v: Kv, run: seq<Token>, n: nat) {
    1 <= n <= |run| && Risks(m, v, run[..n - 1], |run| - n)
  }

  /** One round; returns the requests that go on. It is `lost` on a lone block whose split cost the
      window of a request that would go on. */
  method OneRound(m: Model, live: seq<Active>, drafts: seq<Draft>, wire: Wire, two: bool, maxChunk: nat, eos: set<Token>,
                  ghost target: map<Active, seq<Token>>, ghost left: nat)
    returns (keep: seq<Active>, lost: bool)
    requires |live| == |drafts| >= 1 && Separate(live) && wire.inflight == [] && wire.limit >= 1
    requires DFLASH_BLOCK * |live| <= maxChunk && (two ==> wire.limit >= 2)
    requires m.Valid() && forall i :: 0 <= i < |drafts| ==> drafts[i].Valid()
    requires forall i :: 0 <= i < |live| ==> live[i] in target && OnTrack(m, live[i], target[live[i]], left, eos)
    modifies Those(live), Slotted(live), wire
    ensures wire.inflight == [] && Separate(keep)
    ensures forall a :: a in live ==> old(a.hist) <= a.hist
    ensures !lost ==> left >= 1 && |keep| <= |live|
    ensures !lost ==> forall a :: a in keep ==> a in live && OnTrack(m, a, target[a], left - 1, eos)
    ensures !lost ==> forall a :: a in live && a !in keep ==> a.hist == target[a]
    ensures lost ==> |live| == 1 && keep == live && two && live[0].hist <= target[live[0]] && !live[0].Ok(m)
    ensures lost ==> Costs(m, old(live[0].kv.Value()), old(live[0].hist), live[0].hist, live[0].plen + live[0].max)
  {
    hide Stands, Admissible, DecodeRun, RoundOf, Usable, SplitFits, Costs, WindowKept;
    ghost var before := KvValues(live);
    ghost var was := seq(|live|, i requires 0 <= i < |live| reads live => live[i].hist);
    ghost var alive := seq(|live|, i requires 0 <= i < |live| reads live => live[i].alive);
    var first, n := live[0].kv.Value(), |live[0].hist|;
    TrackFacts(m, live[0], target[live[0]], left, eos);
    var ok, done, lens := Round(m, live, drafts, wire, two, maxChunk, eos, before, was, alive);
    if !ok {
      RoundStops(m, lens, two, maxChunk, before, was[0], live[0].plen + live[0].max);
      TwoLaneAdmits(lens, two, maxChunk);
      Behind(m, live[0]);
      return live, true;
    }
    keep, lost := Judge(m, live, done, lens, two, first, n, eos, before, was, alive, target, left);
  }

  /** What a round that went through leaves: the requests that go on, or a window lost. */
  method Judge(m: Model, live: seq<Active>, done: seq<bool>, lens: seq<nat>, two: bool, first: Kv, n: nat, ghost eos: set<Token>,
               ghost before: seq<Kv>, ghost was: seq<seq<Token>>, ghost alive: seq<nat>, ghost target: map<Active, seq<Token>>, ghost left: nat)
    returns (keep: seq<Active>, lost: bool)
    requires 1 <= |live| == |done| == |lens| == |before| == |was| == |alive| && Separate(live)
    requires first == before[0] && n == |was[0]| && forall i :: 0 <= i < |lens| ==> 1 <= lens[i] <= DFLASH_BLOCK
    requires was[0] != [] && Stands(m, first, was[0][..n - 1]) && n + lens[0] <= live[0].plen + live[0].max
    requires forall i :: 0 <= i < |live| ==> Coming(m, live[i], was[i], alive[i], target, left, eos)
    requires forall i :: 0 <= i < |live| ==>
      RoundOf(m, live[i], was[i], alive[i], before[i], lens[i], Splits(lens, two), eos, done[i])
    ensures Separate(keep) && forall i :: 0 <= i < |live| ==> was[i] <= live[i].hist
    ensures !lost ==> left >= 1 && |keep| <= |live|
    ensures !lost ==> forall a :: a in keep ==> a in live && a in target && OnTrack(m, a, target[a], left - 1, eos)
    ensures !lost ==> forall a :: a in live && a !in keep ==> a in target && a.hist == target[a]
    ensures lost ==> |live| == 1 && keep == live && two
    ensures lost ==> live[0] in target && live[0].hist <= target[live[0]] && !live[0].Ok(m)
    ensures lost ==> Costs(m, first, was[0], live[0].hist, live[0].plen + live[0].max)
  {
    hide Stands, WindowKept, DecodeRun, RoundOf, Costs, OnTrack, Fate, Active.Ok;
    forall i | 0 <= i < |live|
      ensures was[i] <= live[i].hist
    {
      RoundFacts(m, live[i], was[i], alive[i], before[i], lens[i], Splits(lens, two), eos, done[i]);
    }
    RoundFacts(m, live[0], was[0], alive[0], before[0], lens[0], Splits(lens, two), eos, done[0]);
    if Splits(lens, two) && !done[0] && !WindowKept(m, first, lens[0], true, |live[0].hist| - n) {
      CostsSo(m, first, was[0], live[0].hist, live[0].plen + live[0].max, lens[0]);
      return live, true;
    }
    forall i | 0 <= i < |live|
      ensures live[i] in target && Fate(m, live[i], done[i], target[live[i]], left - 1, eos) && left >= 1
    {
      RoundFacts(m, live[i], was[i], alive[i], before[i], lens[i], Splits(lens, two), eos, done[i]);
      NotSplit(m, before[i], lens[i], |live[i].hist| - |was[i]|);
      RoundKeeps(m, live[i], was[i], alive[i], before[i], lens[i], Splits(lens, two), eos, done[i], target[live[i]], left);
    }
    assert Fate(m, live[0], done[0], target[live[0]], left - 1, eos);
    keep := Survivors(m, live, done, target, left - 1, eos);
    lost := false;
  }

  /** Before a round a request had this history and budget ahead, on the way to its target. */
  ghost predicate Coming(m: Model, a: Active, was: seq<Token>, alive: nat, target: map<Active, seq<Token>>, left: nat, eos: set<Token>) {
    && m.Valid() && 1 <= a.plen < |was| < a.plen + a.max && a in target
    && alive >= a.plen + a.max - |was| && a.plen + a.max <= |was| + left
    && DecodeRun(m, a.pick, a.plen, was, a.max, eos) == target[a]
  }

  lemma TrackFacts(m: Model, a: Active, target: seq<Token>, left: nat, eos: set<Token>)
    requires OnTrack(m, a, target, left, eos)
    ensures a.kv.Value().Valid() && a.Counted() && a.hist <= target && m.Valid() && Stands(m, a.kv.Value(), a.hist[..|a.hist| - 1])
    ensures DecodeRun(m, a.pick, a.plen, a.hist, a.max, eos) == target
  {
    hide DecodeRun;
    RunExtends(m, a.pick, a.plen, a.hist, a.max, eos);
  }

  lemma RoundFacts(m: Model, a: Active, was: seq<Token>, alive: nat, before: Kv, t: nat, split: bool, eos: set<Token>, done: bool)
    requires RoundOf(m, a, was, alive, before, t, split, eos, done)
    ensures m.Valid() && before.Valid() && 1 <= a.plen < |was| < a.plen + a.max && |was| < |a.hist| <= |was| + t
    ensures was <= a.hist <= DecodeRun(m, a.pick, a.plen, was, a.max, eos)
    ensures !done ==> (a.Ok(m) <==> WindowKept(m, before, t, split, |a.hist| - |was|))
  {
    hide DecodeRun, WindowKept, Stands, CutStands;
    var run := DecodeRun(m, a.pick, a.plen, was, a.max, eos);
    RunExtends(m, a.pick, a.plen, was, a.max, eos);
    assert a.hist[..|was|] == run[..|was|] == was;
  }

  /** A round of few enough requests fails of itself only where a lone block is split in a cache in
      which that costs the window, and the window is no longer than a block. */
  lemma RoundStops(m: Model, lens: seq<nat>, two: bool, maxChunk: nat, before: seq<Kv>, was: seq<Token>, budget: nat)
    requires |lens| == |before| >= 1 && forall i :: 0 <= i < |lens| ==> 1 <= lens[i] <= DFLASH_BLOCK
    requires was != [] && Stands(m, before[0], was[..|was| - 1]) && before[0].Valid() && |was| + lens[0] <= budget
    requires !(Admissible(lens, two, maxChunk) && forall i :: 0 <= i < |before| ==> SplitFits(m, before[i], lens[i], Splits(lens, two)))
    ensures DFLASH_BLOCK * |lens| > maxChunk || (two && |lens| == 1 && Costs(m, before[0], was, was, budget))
  {
    hide Admissible, WindowKept, Costs, Stands;
    if DFLASH_BLOCK * |lens| <= maxChunk {
      TwoLaneAdmits(lens, two, maxChunk);
      CostsSo(m, before[0], was, was, budget, lens[0]);
    }
  }

  lemma Behind(m: Model, a: Active)
    requires a.kv.tokens >= |a.hist|
    ensures !a.Ok(m)
  {
  }

  lemma CostsSo(m: Model, v: Kv, was: seq<Token>, h: seq<Token>, budget: nat, t: nat)
    requires was != [] && was <= h && Stands(m, v, was[..|was| - 1]) && (h == was ==> m.window <= DFLASH_BLOCK)
    requires v.Valid() && 2 <= t <= DFLASH_BLOCK && |was| + t <= budget && |h| <= |was| + t
    requires !WindowKept(m, v, t, true, Stayed(was, h))
    ensures Costs(m, v, was, h, budget)
  {
    hide WindowKept, Stands;
    assert CutShort(m, v, t, was, h);
  }

  lemma NotSplit(m: Model, v: Kv, t: nat, keep: int)
    requires v.Valid()
    ensures keep >= 0 ==> WindowKept(m, v, t, false, keep)
  {
  }

  ghost predicate Fate(m: Model, a: Active, done: bool, target: seq<Token>, left: nat, eos: set<Token>)
    reads a, a.kv
  {
    if done then a.hist == target else OnTrack(m, a, target, left, eos)
  }

  method Survivors(m: Model, live: seq<Active>, done: seq<bool>, ghost target: map<Active, seq<Token>>, ghost left: nat,
                   ghost eos: set<Token>)
    returns (keep: seq<Active>)
    requires |live| == |done| && Separate(live)
    requires forall i :: 0 <= i < |live| ==> live[i] in target && Fate(m, live[i], done[i], target[live[i]], left, eos)
    ensures |keep| <= |live| && Separate(keep)
    ensures forall a :: a in keep ==> a in live && OnTrack(m, a, target[a], left, eos)
    ensures forall a :: a in live && a !in keep ==> a.hist == target[a]
  {
    hide OnTrack;
    keep := [];
    var i := 0;
    while i < |live|
      invariant i <= |live| && |keep| <= i && Separate(keep)
      invariant forall x, y :: 0 <= x < |keep| && i <= y < |live| ==> keep[x] != live[y] && keep[x].kv != live[y].kv
      invariant forall a :: a in keep ==> a in live[..i] && OnTrack(m, a, target[a], left, eos)
      invariant forall a :: a in live[..i] && a !in keep ==> a.hist == target[a]
    {
      assert Fate(m, live[i], done[i], target[live[i]], left, eos);
      if !done[i] {
        keep := keep + [live[i]];
      }
      i := i + 1;
    }
  }

  /** Where the rounds stopped: the round, and before it the history of the request left alone and
      its cache. */
  datatype Stop = Stop(round: nat, was: seq<Token>, v: Kv)

  /** Every request runs to its end in speculative rounds, the proposals of each round being
      anything at all and its verify lanes one or two, as they are given: its history is the
      one-token-per-step run. The exception: the rounds stop at a request left alone whose block was
      split in a round of two lanes and so lost it the window (`at`); its cache is then of no further
      use, and what it was sent is still a part of its run. No request can be met by that whose
      prompt and budget fit the rows a windowed layer is built for. */
  method ServeAll(m: Model, all: seq<Active>, proposals: (nat, nat) -> Draft, lanes: nat -> bool, wire: Wire, maxChunk: nat,
                  eos: set<Token>, ghost target: map<Active, seq<Token>>, ghost budget: nat)
    returns (rest: seq<Active>, ghost at: Option<Stop>)
    requires Separate(all) && wire.inflight == [] && wire.limit >= 1 && DFLASH_BLOCK * |all| <= maxChunk
    requires m.Valid() && forall r, i :: proposals(r, i).Valid()
    requires forall a :: a in all ==>
      (a.Ok(m) && a.alive >= a.max && a.max <= budget && a in target &&
       target[a] == DecodeRun(m, a.pick, a.plen, a.hist, a.max, eos))
    modifies Those(all), Slotted(all), wire
    ensures forall a :: a in all && a !in rest ==> a.hist == target[a]
    ensures rest != [] ==> |rest| == 1 && rest[0] in all && rest[0].hist <= target[rest[0]] && !rest[0].Ok(m)
    ensures rest != [] ==> at.Some? && wire.limit >= 2 && lanes(at.value.round) && old(rest[0].hist) <= at.value.was
    ensures rest != [] ==> Costs(m, at.value.v, at.value.was, rest[0].hist, rest[0].plen + rest[0].max)
    ensures rest != [] ==> Outgrows(m, rest[0].plen + rest[0].max)
  {
    hide Stands, DecodeRun, OnTrack, Costs, Outgrows, Draft.Valid, Separate, Slotted;
    var live := all;
    var round := 0;
    ghost var left := budget;
    forall a | a in all
      ensures OnTrack(m, a, target[a], left, eos)
    {
      StartsOnTrack(m, a, left, eos);
    }
    while live != []
      invariant Separate(live) && wire.inflight == [] && |live| <= |all|
      invariant forall a :: a in live ==> a in all && OnTrack(m, a, target[a], left, eos)
      invariant forall a :: a in live ==> old(a.hist) <= a.hist
      invariant forall a :: a in all && a !in live ==> a.hist == target[a]
      decreases left
    {
      var drafts := seq(|live|, i requires 0 <= i < |live| => proposals(round, i));
      at := Some(Stop(round, live[0].hist, live[0].kv.Value()));
      SlotsWithin(live, all);
      var lost;
      live, lost := OneRound(m, live, drafts, wire, lanes(round) && wire.limit >= 2, maxChunk, eos, target, left);
      if lost {
        CostsLong(m, at.value.v, at.value.was, live[0].hist, live[0].plen + live[0].max);
        return live, at;
      }
      left := left - 1;
      round := round + 1;
    }
    rest, at := [], None;
  }

  lemma SlotsWithin(some: seq<Active>, all: seq<Active>)
    requires forall a :: a in some ==> a in all
    ensures Slotted(some) <= Slotted(all)
  {
  }

  lemma StartsOnTrack(m: Model, a: Active, left: nat, eos: set<Token>)
    requires a.Ok(m) && a.max <= a.alive && a.max <= left
    ensures OnTrack(m, a, DecodeRun(m, a.pick, a.plen, a.hist, a.max, eos), left, eos)
  {
  }
}
