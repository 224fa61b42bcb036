/** A request's device KV cache: one row list per layer. Full-attention (GA) layers append and
    grow; windowed (SWA) layers drop the rows no later query can see when their capacity runs
    out. A layer is a value owned by its cache; every operation is given twice, as a function of
    the cache's value and as a method that updates the cache layer by layer. */
module DeviceKvCache {
  import opened Basics
  import opened Transformer

  /** Rows an SWA layer keeps room for between prefills, beyond the window before a query. */
  const SWA_SLACK_ROWS: nat := 64
  /** GA capacity grows in steps of at least this many rows. */
  const GA_STEP: nat := 4096

  /** The least multiple of 64, of 4096, that is at least `n`. */
  function Round64(n: nat): (r: nat)
    ensures n <= r < n + 64
  {
    (n + 63) / 64 * 64
  }

  function Round4096(n: nat): (r: nat)
    ensures n <= r < n + 4096
  {
    (n + 4095) / 4096 * 4096
  }

  datatype LayerKv = LayerKv(kind: Kind, window: nat, cap: nat, rows: seq<Row>)
  {
    predicate Valid() {
      |rows| <= cap && (kind.Swa? ==> window >= 1)
    }

    /** The last `n` rows. */
    function Last(n: nat): (r: seq<Row>)
      requires n <= |rows|
      ensures |r| == n
    {
      Span(rows, |rows| - n, |rows|)
    }

    /** Room for `t` more rows: an SWA layer first compacts to its last `window - 1` rows and
        grows only if that is not enough; a GA layer grows. */
    function Prepared(t: nat): (r: LayerKv)
      requires Valid()
      ensures r.Valid() && r.kind == kind && r.window == window && |r.rows| + t <= r.cap
      ensures r.rows == rows || (kind.Swa? && r.rows == Last(Min(|rows|, window - 1)))
    {
      if |rows| + t <= cap then this
      else if kind.Swa? then
        var keep := Min(|rows|, window - 1);
        this.(rows := Last(keep), cap := if keep + t > cap then Round64(keep + t) else cap)
      else
        this.(cap := Max(cap + Max(cap / 8, GA_STEP), |rows| + t))
    }

    function Appended(new_: seq<Row>): (r: LayerKv)
      requires Valid()
      ensures r.Valid() && r.kind == kind && r.window == window && |r.rows| >= |new_|
    {
      var p := Prepared(|new_|);
      p.(rows := p.rows + new_)
    }

    function Truncated(drop: nat): LayerKv
      requires drop <= |rows|
    {
      this.(rows := Span(rows, 0, |rows| - drop))
    }

    /** An SWA layer grown past `cap0` goes back to it with the rows a later query can see. */
    function ShrunkSwa(cap0: nat): LayerKv
      requires Valid()
    {
      if kind.Swa? && cap > cap0 then this.(rows := Last(Min(|rows|, window - 1)), cap := cap0) else this
    }

    function ReservedSwa(room: nat): LayerKv {
      if kind.Swa? && cap < room then this.(cap := room) else this
    }

    function ReservedGa(n: nat): LayerKv {
      if kind.Ga? && cap < n then this.(cap := Round4096(n)) else this
    }

    function ShrunkGa(cap0: nat): LayerKv {
      if kind.Ga? && cap > cap0 then this.(cap := cap0) else this
    }

    /** A GA layer cut back to its first `p` rows; an SWA layer is left for `Loaded`. */
    function Rewound(p: nat): LayerKv
      requires kind.Ga? ==> p <= |rows|
    {
      if kind.Ga? then this.(rows := Span(rows, 0, p)) else this
    }

    /** A GA layer filled with a copy of another's first `n` rows. */
    function Forked(src: LayerKv, n: nat): LayerKv
      requires kind.Ga? ==> n <= |src.rows|
    {
      if kind.Ga? then this.(rows := Span(src.rows, 0, n)) else this
    }

    /** What a snapshot keeps of this layer beside its GA rows. */
    function Saved(keepMax: nat): seq<Row> {
      if kind.Swa? then Last(Min(|rows|, keepMax)) else []
    }

    function Loaded(state: seq<Row>): LayerKv {
      if kind.Swa? then this.(rows := state) else this
    }
  }

  /** The state of a cache as a value. */
  datatype Kv = Kv(layers: seq<LayerKv>, tokens: nat, maxChunk: nat, gaCap0: nat, swaCap0: nat)
  {
    predicate Valid() {
      forall l :: 0 <= l < |layers| ==> layers[l].Valid()
    }

    /** Every SWA layer has the same window, capacity and row count. */
    ghost predicate Uniform(w: nat) {
      && swaCap0 == w - 1 + SWA_SLACK_ROWS
      && (forall l :: 0 <= l < |layers| && layers[l].kind.Swa? ==> layers[l].window == w)
      && (forall k, l :: 0 <= k < l < |layers| && layers[k].kind.Swa? && layers[l].kind.Swa? ==>
            |layers[k].rows| == |layers[l].rows| && layers[k].cap == layers[l].cap)
    }

    /** `window - 1` of the first SWA layer, 0 when there is none. */
    function KeepMax(): nat {
      FirstSwaKeep(layers)
    }

    function Truncated(to: nat): Kv
      requires to <= tokens && forall l :: 0 <= l < |layers| ==> tokens - to <= |layers[l].rows|
    {
      this.(layers := seq(|layers|, l requires 0 <= l < |layers| => layers[l].Truncated(tokens - to)), tokens := to)
    }

    function ShrunkSwa(): Kv
      requires forall l :: 0 <= l < |layers| ==> layers[l].Valid()
    {
      this.(layers := seq(|layers|, l requires 0 <= l < |layers| => layers[l].ShrunkSwa(swaCap0)))
    }

    function ReservedSwa(): Kv {
      this.(layers := seq(|layers|, l requires 0 <= l < |layers| =>
        layers[l].ReservedSwa(Round64(KeepMax() + maxChunk))))
    }

    function ReservedGa(n: nat): Kv {
      this.(layers := seq(|layers|, l requires 0 <= l < |layers| => layers[l].ReservedGa(n)))
    }

    function Cleared(): Kv {
      this.(layers := seq(|layers|, l requires 0 <= l < |layers| => layers[l].(rows := [])), tokens := 0)
    }

    function ShrunkGa(): Kv {
      var c := Cleared();
      c.(layers := seq(|c.layers|, l requires 0 <= l < |c.layers| => c.layers[l].ShrunkGa(gaCap0)))
    }

    function Rewound(p: nat): Kv
      requires forall l :: 0 <= l < |layers| && layers[l].kind.Ga? ==> p <= |layers[l].rows|
    {
      this.(layers := seq(|layers|, l requires 0 <= l < |layers| => layers[l].Rewound(p)), tokens := p)
    }

    function Forked(src: Kv, n: nat): Kv
      requires |layers| == |src.layers|
      requires forall l :: 0 <= l < |layers| && layers[l].kind.Ga? ==> n <= |src.layers[l].rows|
    {
      var d := ReservedGa(n);
      d.(layers := seq(|layers|, l requires 0 <= l < |layers| => d.layers[l].Forked(src.layers[l], n)), tokens := n)
    }

    function Saved(): seq<seq<Row>> {
      SavedWith(KeepMax())
    }

    function SavedWith(keep: nat): seq<seq<Row>> {
      seq(|layers|, l requires 0 <= l < |layers| => layers[l].Saved(keep))
    }

    function Loaded(state: seq<seq<Row>>): Kv
      requires |state| == |layers|
    {
      this.(layers := seq(|layers|, l requires 0 <= l < |layers| => layers[l].Loaded(state[l])))
    }
  }

  function FirstSwaKeep(layers: seq<LayerKv>): nat {
    if layers == [] then 0
    else if layers[0].kind.Swa? then if layers[0].window == 0 then 0 else layers[0].window - 1
    else FirstSwaKeep(layers[1..])
  }

  lemma {:induction false} FirstSwaKeepIsWindow(layers: seq<LayerKv>, l: nat, w: nat)
    requires l < |layers| && layers[l].kind.Swa? && w >= 1
    requires forall k :: 0 <= k < |layers| && layers[k].kind.Swa? ==> layers[k].window == w
    ensures FirstSwaKeep(layers) == w - 1
  {
    if !layers[0].kind.Swa? {
      FirstSwaKeepIsWindow(layers[1..], l - 1, w);
    }
  }

  lemma SavedLength(lay: LayerKv, keep: nat)
    ensures |lay.Saved(keep)| == if lay.kind.Swa? then Min(|lay.rows|, keep) else 0
  {
  }

  lemma SavedIs(v: Kv, state: seq<seq<Row>>)
    requires |state| == |v.layers| && forall l :: 0 <= l < |state| ==> state[l] == v.layers[l].Saved(v.KeepMax())
    ensures state == v.Saved()
  {
  }

  class DeviceKv {
    var layers: seq<LayerKv>
    var tokens: nat
    const maxChunk: nat
    const gaCap0: nat
    const swaCap0: nat

    function Value(): Kv
      reads this
    {
      Kv(layers, tokens, maxChunk, gaCap0, swaCap0)
    }

    /** A fresh cache: every layer empty, GA layers at `gaCap`, SWA layers at the window before
        a query plus the slack. */
    constructor (m: Model, gaCap: nat, chunk: nat)
      requires m.Valid()
      ensures tokens == 0 && maxChunk == chunk && gaCap0 == gaCap && swaCap0 == m.window - 1 + SWA_SLACK_ROWS
      ensures |layers| == |m.kinds| && Value().Valid() && Value().Uniform(m.window)
      ensures forall l :: 0 <= l < |layers| ==> layers[l].kind == m.kinds[l] && layers[l].rows == []
      ensures forall l :: 0 <= l < |layers| && m.kinds[l].Ga? ==> layers[l].cap == gaCap
    {
      layers := seq(|m.kinds|, l requires 0 <= l < |m.kinds| =>
        if m.kinds[l].Ga? then LayerKv(Ga, 0, gaCap, []) else LayerKv(Swa, m.window, m.window - 1 + SWA_SLACK_ROWS, []));
      tokens := 0;
      maxChunk, gaCap0, swaCap0 := chunk, gaCap, m.window - 1 + SWA_SLACK_ROWS;
    }

    /** Drop every row. */
    method Reset()
      modifies this
      ensures Value() == old(Value()).Cleared()
    {
      var i := 0;
      while i < |layers|
        invariant i <= |layers| == |old(layers)| && tokens == old(tokens)
        invariant forall l :: 0 <= l < i ==> layers[l] == old(layers[l]).(rows := [])
        invariant forall l :: i <= l < |layers| ==> layers[l] == old(layers[l])
      {
        layers := layers[i := layers[i].(rows := [])];
        i := i + 1;
      }
      tokens := 0;
      assert layers == old(Value()).Cleared().layers;
    }

    /** Drop the newest rows back to `to` tokens. On the error branch the layers before the one
        that is too short have already lost theirs. */
    method Truncate(to: nat) returns (ok: bool)
      modifies this
      ensures ok <==> to <= old(tokens) && forall l :: 0 <= l < |old(layers)| ==> old(tokens) - to <= |old(layers)[l].rows|
      ensures ok ==> Value() == old(Value()).Truncated(to)
      ensures !ok ==> tokens == old(tokens) && |layers| == |old(layers)|
      ensures !ok ==> forall l :: 0 <= l < |layers| ==>
        (layers[l] == old(layers)[l] ||
         (to <= tokens && tokens - to <= |old(layers)[l].rows| && layers[l] == old(layers)[l].Truncated(tokens - to)))
    {
      if to > tokens {
        return false;
      }
      var drop := tokens - to;
      var i := 0;
      while i < |layers|
        invariant i <= |layers| == |old(layers)| && tokens == old(tokens)
        invariant forall l :: 0 <= l < i ==> drop <= |old(layers)[l].rows| && layers[l] == old(layers)[l].Truncated(drop)
        invariant forall l :: i <= l < |layers| ==> layers[l] == old(layers)[l]
      {
        if |layers[i].rows| < drop {
          return false;
        }
        layers := layers[i := layers[i].Truncated(drop)];
        i := i + 1;
      }
      tokens := to;
      assert layers == old(Value()).Truncated(to).layers;
      return true;
    }

    /** Give GA memory grown past the build capacity back; drops every row. */
    method ShrinkGa()
      modifies this
      ensures Value() == old(Value()).ShrunkGa()
    {
      Reset();
      ghost var was := Value();
      var i := 0;
      while i < |layers|
        invariant i <= |layers| == |was.layers| && tokens == was.tokens
        invariant forall l :: 0 <= l < i ==> layers[l] == was.layers[l].ShrunkGa(gaCap0)
        invariant forall l :: i <= l < |layers| ==> layers[l] == was.layers[l]
      {
        layers := layers[i := layers[i].ShrunkGa(gaCap0)];
        i := i + 1;
      }
      assert layers == old(Value()).ShrunkGa().layers;
    }

    /** Return every SWA layer grown by a prefill to its size between prefills. */
    method ShrinkSwa()
      requires Value().Valid()
      modifies this
      ensures Value() == old(Value()).ShrunkSwa()
    {
      var i := 0;
      while i < |layers|
        invariant i <= |layers| == |old(layers)| && tokens == old(tokens)
        invariant forall l :: 0 <= l < i ==> layers[l] == old(layers)[l].ShrunkSwa(swaCap0)
        invariant forall l :: i <= l < |layers| ==> layers[l] == old(layers)[l]
      {
        assert old(Value()).layers[i].Valid();
        layers := layers[i := layers[i].ShrunkSwa(swaCap0)];
        i := i + 1;
      }
      assert layers == old(Value()).ShrunkSwa().layers;
    }

    /** Grow every SWA layer to its prefill working set. */
    method ReserveSwa()
      modifies this
      ensures Value() == old(Value()).ReservedSwa()
    {
      var room := Round64(FirstSwaKeep(layers) + maxChunk);
      var i := 0;
      while i < |layers|
        invariant i <= |layers| == |old(layers)| && tokens == old(tokens)
        invariant forall l :: 0 <= l < i ==> layers[l] == old(layers)[l].ReservedSwa(room)
        invariant forall l :: i <= l < |layers| ==> layers[l] == old(layers)[l]
      {
        layers := layers[i := layers[i].ReservedSwa(room)];
        i := i + 1;
      }
      assert layers == old(Value()).ReservedSwa().layers;
    }

    /** Grow every GA layer to hold `n` rows. */
    method ReserveGa(n: nat)
      modifies this
      ensures Value() == old(Value()).ReservedGa(n)
    {
      var i := 0;
      while i < |layers|
        invariant i <= |layers| == |old(layers)| && tokens == old(tokens)
        invariant forall l :: 0 <= l < i ==> layers[l] == old(layers)[l].ReservedGa(n)
        invariant forall l :: i <= l < |layers| ==> layers[l] == old(layers)[l]
      {
        layers := layers[i := layers[i].ReservedGa(n)];
        i := i + 1;
      }
      assert layers == old(Value()).ReservedGa(n).layers;
    }

    /** Keep the first `p` GA rows; false when a GA layer is shorter. */
    method RewindGa(p: nat) returns (ok: bool)
      modifies this
      ensures ok <==> forall l :: 0 <= l < |old(layers)| && old(layers)[l].kind.Ga? ==> p <= |old(layers)[l].rows|
      ensures ok ==> Value() == old(Value()).Rewound(p)
    {
      var i := 0;
      while i < |layers|
        invariant i <= |layers| == |old(layers)| && tokens == old(tokens)
        invariant forall l :: 0 <= l < i ==>
          (old(layers)[l].kind.Ga? ==> p <= |old(layers)[l].rows|) && layers[l] == old(layers)[l].Rewound(p)
        invariant forall l :: i <= l < |layers| ==> layers[l] == old(layers)[l]
      {
        if layers[i].kind.Ga? && p > |layers[i].rows| {
          return false;
        }
        layers := layers[i := layers[i].Rewound(p)];
        i := i + 1;
      }
      tokens := p;
      assert layers == old(Value()).Rewound(p).layers;
      return true;
    }

    /** Start this (reset) cache as a copy of `src`'s first `n` GA rows. */
    method ForkGa(src: DeviceKv, n: nat) returns (ok: bool)
      requires src != this && |layers| == |src.layers|
      modifies this
      ensures ok <==> forall l :: 0 <= l < |old(layers)| && old(layers)[l].kind.Ga? ==> n <= |src.layers[l].rows|
      ensures ok ==> Value() == old(Value()).Forked(src.Value(), n)
    {
      ReserveGa(n);
      ghost var was := Value();
      var i := 0;
      while i < |layers|
        invariant i <= |layers| == |was.layers| && tokens == was.tokens
        invariant forall l :: 0 <= l < i ==>
          (was.layers[l].kind.Ga? ==> n <= |src.layers[l].rows|) && layers[l] == was.layers[l].Forked(src.layers[l], n)
        invariant forall l :: i <= l < |layers| ==> layers[l] == was.layers[l]
      {
        if layers[i].kind.Ga? && (n > |src.layers[i].rows| || n > layers[i].cap) {
          return false;
        }
        layers := layers[i := layers[i].Forked(src.layers[i], n)];
        i := i + 1;
      }
      tokens := n;
      assert layers == old(Value()).Forked(src.Value(), n).layers;
      return true;
    }

    /** The SWA state to keep beside the GA rows, with the rows kept per layer; fails when the
        SWA layers disagree on that count. */
    method SaveState() returns (ok: bool, state: seq<seq<Row>>, swaRows: nat)
      ensures ok <==> forall k, l :: 0 <= k < |layers| && 0 <= l < |layers| && layers[k].kind.Swa? && layers[l].kind.Swa? ==>
                        Min(|layers[k].rows|, Value().KeepMax()) == Min(|layers[l].rows|, Value().KeepMax())
      ensures ok ==> state == Value().Saved()
      ensures ok ==> forall l :: 0 <= l < |layers| && layers[l].kind.Swa? ==> swaRows == |state[l]|
      ensures ok && (forall l :: 0 <= l < |layers| ==> layers[l].kind.Ga?) ==> swaRows == 0
    {
      hide LayerKv.Saved, FirstSwaKeep, Kv.Saved;
      var keepMax := FirstSwaKeep(layers);
      var seen, first := false, 0;
      state, swaRows := [], 0;
      var i := 0;
      while i < |layers|
        invariant i <= |layers| && |state| == i && first <= i
        invariant forall l :: 0 <= l < i ==> state[l] == layers[l].Saved(keepMax)
        invariant !seen ==> swaRows == 0 && forall l :: 0 <= l < i ==> layers[l].kind.Ga?
        invariant seen ==> first < i && layers[first].kind.Swa?
        invariant seen ==> forall l :: 0 <= l < i && layers[l].kind.Swa? ==> swaRows == Min(|layers[l].rows|, keepMax)
      {
        if layers[i].kind.Swa? {
          var keep := Min(|layers[i].rows|, keepMax);
          if seen && swaRows != keep {
            return false, [], 0;
          }
          if !seen {
            first := i;
          }
          seen, swaRows := true, keep;
        }
        state := state + [layers[i].Saved(keepMax)];
        i := i + 1;
      }
      SavedIs(Value(), state);
      forall l | 0 <= l < |layers| && layers[l].kind.Swa?
        ensures swaRows == |state[l]|
      {
        SavedLength(layers[l], keepMax);
      }
      return true, state, swaRows;
    }

    /** Put a saved SWA state back. */
    method LoadState(state: seq<seq<Row>>, swaRows: nat) returns (ok: bool)
      requires |state| == |layers|
      modifies this
      ensures ok <==> swaRows <= old(Value()).KeepMax()
      ensures ok ==> Value() == old(Value()).Loaded(state)
      ensures !ok ==> Value() == old(Value())
    {
      if swaRows > FirstSwaKeep(layers) {
        return false;
      }
      var i := 0;
      while i < |layers|
        invariant i <= |layers| == |old(layers)| && tokens == old(tokens)
        invariant forall l :: 0 <= l < i ==> layers[l] == old(layers)[l].Loaded(state[l])
        invariant forall l :: i <= l < |layers| ==> layers[l] == old(layers)[l]
      {
        layers := layers[i := layers[i].Loaded(state[i])];
        i := i + 1;
      }
      assert layers == old(Value()).Loaded(state).layers;
      return true;
    }

    /** Append `new_` rows to `layer`, making room first. */
    method Append(layer: nat, new_: seq<Row>)
      requires layer < |layers| && layers[layer].Valid()
      modifies this`layers
      ensures layers == old(layers)[layer := old(layers)[layer].Appended(new_)]
    {
      layers := layers[layer := layers[layer].Prepared(|new_|)];
      layers := layers[layer := layers[layer].(rows := layers[layer].rows + new_)];
    }
  }
}
