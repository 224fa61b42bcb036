/** Snapshots: exact positions in a token history that a later prompt can resume from. A device
    point lives inside a slot whose GA rows start with the point's; a RAM snapshot carries its
    own copy of them. Both are sound when loading them gives what a cold prefill of the same
    tokens gives. */
module Snapshots {
  import opened Basics
  import opened Transformer
  import opened DeviceKvCache
  import opened KvSound

  /** Snapshots of fewer tokens are neither retained nor stored. */
  const MIN_RETAIN: nat := 512

  datatype SnapKind = Prompt | Turn

  /** The greedy choice after a row. */
  type Argmax = Hidden -> Token

  /** What is known about the token after a snapshot: the greedy choice, and the row every
      selection is made from. */
  datatype After = After(greedy: Option<Token>, logits: Option<Hidden>)
  {
    /** Whether a request resuming here gets its first token without a forward. */
    predicate Serves(sampled: bool) {
      if sampled then logits.Some? else greedy.Some?
    }
  }

  datatype Point = Point(len: nat, after: After, kind: SnapKind, state: seq<seq<Row>>, swaRows: nat, lastUse: nat)

  datatype Snap = Snap(tokens: seq<Token>, after: After, kind: SnapKind, ga: seq<seq<Row>>, state: seq<seq<Row>>, swaRows: nat)

  /** What is kept about the next token is what the model gives after `toks`. */
  ghost predicate AfterOk(m: Model, argmax: Argmax, after: After, toks: seq<Token>) {
    && m.Valid() && toks != []
    && (after.greedy.Some? ==> after.greedy.value == argmax(Out(m, toks, |toks| - 1)))
    && (after.logits.Some? ==> after.logits.value == Out(m, toks, |toks| - 1))
  }

  /** The saved state is that of `toks`, and its row count is one the model's windows hold. */
  ghost predicate StateOk(m: Model, state: seq<seq<Row>>, swaRows: nat, toks: seq<Token>) {
    && SavedAt(m, state, toks)
    && (forall l :: 0 <= l < |m.kinds| && m.kinds[l].Swa? ==> swaRows == |state[l]|)
    && ((forall l :: 0 <= l < |m.kinds| ==> m.kinds[l].Ga?) ==> swaRows == 0)
  }

  /** A point of the history `hist`; never a short one. */
  ghost predicate PointAt(m: Model, argmax: Argmax, hist: seq<Token>, p: Point) {
    && MIN_RETAIN <= p.len <= |hist|
    && StateOk(m, p.state, p.swaRows, hist[..p.len]) && AfterOk(m, argmax, p.after, hist[..p.len])
  }

  ghost predicate PointsAt(m: Model, argmax: Argmax, hist: seq<Token>, points: seq<Point>) {
    forall i :: 0 <= i < |points| ==> PointAt(m, argmax, hist, points[i])
  }

  ghost predicate SnapOk(m: Model, argmax: Argmax, s: Snap) {
    && m.Valid() && |s.ga| == |m.kinds| && |s.tokens| >= MIN_RETAIN
    && StateOk(m, s.state, s.swaRows, s.tokens) && AfterOk(m, argmax, s.after, s.tokens)
    && forall l :: 0 <= l < |m.kinds| && m.kinds[l].Ga? ==> s.ga[l] == Hist(m, s.tokens, l, |s.tokens|)
  }

  // ---- Histories that share a prefix.

  lemma PointMoves(m: Model, argmax: Argmax, s: seq<Token>, t: seq<Token>, p: Point)
    requires PointAt(m, argmax, s, p) && p.len <= |t| && s[..p.len] == t[..p.len]
    ensures PointAt(m, argmax, t, p)
  {
  }

  /** Points of a history are points of every history that agrees with it as far as they reach. */
  lemma PointsMove(m: Model, argmax: Argmax, s: seq<Token>, t: seq<Token>, n: nat, points: seq<Point>)
    requires PointsAt(m, argmax, s, points) && n <= |s| && n <= |t| && s[..n] == t[..n]
    requires forall i :: 0 <= i < |points| ==> points[i].len <= n
    ensures PointsAt(m, argmax, t, points)
  {
    hide PointAt;
    forall i | 0 <= i < |points|
      ensures PointAt(m, argmax, t, points[i])
    {
      var k := points[i].len;
      assert PointAt(m, argmax, s, points[i]);
      assert s[..k] == s[..n][..k] == t[..n][..k] == t[..k];
      PointMoves(m, argmax, s, t, points[i]);
    }
  }

  // ---- The lengths a snapshot can serve.

  /** How many tokens two sequences share at their start. */
  function Common(s: seq<Token>, t: seq<Token>): (n: nat)
    ensures n <= |s| && n <= |t|
  {
    if s == [] || t == [] || s[0] != t[0] then 0 else 1 + Common(s[1..], t[1..])
  }

  lemma {:induction false} CommonIsPrefix(s: seq<Token>, t: seq<Token>, n: nat)
    requires n <= |s| && n <= |t|
    ensures n <= Common(s, t) <==> s[..n] == t[..n]
  {
    if n > 0 {
      if s[0] == t[0] {
        CommonIsPrefix(s[1..], t[1..], n - 1);
        assert s[..n] == [s[0]] + s[1..][..n - 1];
        assert t[..n] == [t[0]] + t[1..][..n - 1];
        assert s[..n][1..] == s[1..][..n - 1] && t[..n][1..] == t[1..][..n - 1];
      } else {
        assert s[..n][0] != t[..n][0];
      }
    }
  }

  // ---- Loading.

  /** A point can be loaded wherever its GA rows are, and loading never fails. */
  lemma PointLoads(m: Model, v: Kv, state: seq<seq<Row>>, swaRows: nat, toks: seq<Token>)
    requires GaHolds(m, v, toks) && StateOk(m, state, swaRows, toks)
    ensures forall l :: 0 <= l < |v.layers| && v.layers[l].kind.Ga? ==> |toks| <= |v.layers[l].rows|
    ensures |state| == |v.layers| && swaRows <= v.Rewound(|toks|).KeepMax()
    ensures Stands(m, v.Rewound(|toks|).Loaded(state), toks)
  {
    hide Stands, Hist;
    LoadStands(m, v, state, toks);
    KeepFits(m, v, state, swaRows, toks);
  }

  lemma KeepFits(m: Model, v: Kv, state: seq<seq<Row>>, swaRows: nat, toks: seq<Token>)
    requires GaHolds(m, v, toks) && StateOk(m, state, swaRows, toks)
    ensures forall l :: 0 <= l < |v.layers| && v.layers[l].kind.Ga? ==> |toks| <= |v.layers[l].rows|
    ensures swaRows <= v.Rewound(|toks|).KeepMax()
  {
    hide Hist;
    var r := v.Rewound(|toks|);
    if l :| 0 <= l < |m.kinds| && m.kinds[l].Swa? {
      FirstSwaKeepIsWindow(r.layers, l, m.window);
    } else {
      assert forall l :: 0 <= l < |m.kinds| ==> m.kinds[l].Ga?;
    }
  }

  /** What a restore of `s` makes of a reset slot: GA rows imported, state loaded. */
  function Restored(v: Kv, s: Snap): Kv
    requires |s.ga| == |s.state| == |v.layers|
  {
    var d := v.Cleared().ReservedGa(|s.tokens|);
    d.(layers := seq(|d.layers|, l requires 0 <= l < |d.layers| =>
         if d.layers[l].kind.Ga? then d.layers[l].(rows := s.ga[l]) else d.layers[l].(rows := s.state[l])),
       tokens := |s.tokens|)
  }

  /** A restored snapshot stands for its tokens as a cold prefill would. */
  lemma RestoreStands(m: Model, argmax: Argmax, v: Kv, s: Snap)
    requires Shaped(m, v) && SnapOk(m, argmax, s)
    ensures |s.ga| == |s.state| == |v.layers|
    ensures Stands(m, Restored(v, s), s.tokens)
  {
    var r := Restored(v, s);
    RestoredShape(m, argmax, v, s);
    forall l | 0 <= l < |r.layers|
      ensures LayerAt(m, r.layers[l], l, s.tokens, |s.tokens|)
    {
      SpanWhole(Hist(m, s.tokens, l, |s.tokens|));
    }
  }

  lemma RestoredShape(m: Model, argmax: Argmax, v: Kv, s: Snap)
    requires Shaped(m, v) && SnapOk(m, argmax, s)
    ensures |s.ga| == |s.state| == |v.layers| && Shaped(m, Restored(v, s))
  {
    var r := Restored(v, s);
    forall l | 0 <= l < |r.layers|
      ensures r.layers[l].Valid()
    {
      assert v.layers[l].kind == m.kinds[l];
    }
  }

  /** The GA rows a snapshot copies out of a slot. */
  function Exported(v: Kv, n: nat): seq<seq<Row>>
    requires forall l :: 0 <= l < |v.layers| && v.layers[l].kind.Ga? ==> n <= |v.layers[l].rows|
  {
    seq(|v.layers|, l requires 0 <= l < |v.layers| => if v.layers[l].kind.Ga? then Span(v.layers[l].rows, 0, n) else [])
  }

  /** Storing a point of a slot gives a sound snapshot. */
  lemma CaptureOk(m: Model, argmax: Argmax, v: Kv, hist: seq<Token>, p: Point)
    requires PointAt(m, argmax, hist, p) && GaHolds(m, v, hist[..p.len])
    ensures forall l :: 0 <= l < |v.layers| && v.layers[l].kind.Ga? ==> p.len <= |v.layers[l].rows|
    ensures SnapOk(m, argmax, Snap(hist[..p.len], p.after, p.kind, Exported(v, p.len), p.state, p.swaRows))
  {
  }

  // ---- Slots that have to be put back in shape.

  /** Giving a slot back makes it uniform again, even when its windowed layers had come apart. */
  lemma ReleaseHeals(m: Model, v: Kv)
    requires Usable(m, v)
    ensures v.ShrunkGa().Valid() && Stands(m, v.ShrunkGa().ShrunkSwa(), [])
  {
    var r := v.ShrunkGa().ShrunkSwa();
    forall l | 0 <= l < |r.layers|
      ensures r.layers[l].Valid() && r.layers[l].rows == [] && r.layers[l].kind == m.kinds[l]
      ensures r.layers[l].kind.Swa? ==> r.layers[l].cap == v.swaCap0 && r.layers[l].window == m.window
    {
      assert v.layers[l].Valid();
    }
    assert Shaped(m, r);
    FreshStands(m, r);
  }

  // ---- The RAM tier.

  ghost predicate RamOk(m: Model, argmax: Argmax, ram: seq<Snap>) {
    && (forall i :: 0 <= i < |ram| ==> SnapOk(m, argmax, ram[i]))
    && forall i, j :: 0 <= i < j < |ram| ==> ram[i].tokens != ram[j].tokens
  }

  /** The first of the longest snapshots that `ids` starts with. */
  function Lookup(ram: seq<Snap>, ids: seq<Token>): (r: Option<nat>)
    ensures r.Some? ==> r.value < |ram|
  {
    if ram == [] then None
    else
      var k := |ram| - 1;
      var best := Lookup(ram[..k], ids);
      if ram[k].tokens <= ids && (best.None? || |ram[best.value].tokens| < |ram[k].tokens|) then Some(k) else best
  }

  lemma {:induction false} LookupLongest(ram: seq<Snap>, ids: seq<Token>)
    ensures var r := Lookup(ram, ids);
      && (r.Some? ==> ram[r.value].tokens <= ids)
      && (forall i :: 0 <= i < |ram| && ram[i].tokens <= ids ==> r.Some? && |ram[i].tokens| <= |ram[r.value].tokens|)
  {
    if ram != [] {
      LookupLongest(ram[..|ram| - 1], ids);
      assert forall i :: 0 <= i < |ram| - 1 ==> ram[..|ram| - 1][i] == ram[i];
    }
  }

  /** The same for a request that is sampled or not: a snapshot of the whole prompt that cannot
      serve it gives way to the longest shorter one. */
  function LookupFor(ram: seq<Snap>, ids: seq<Token>, sampled: bool): (r: Option<nat>)
    requires ids != []
    ensures r.Some? ==> r.value < |ram|
  {
    var hit := Lookup(ram, ids);
    if hit.Some? && |ram[hit.value].tokens| == |ids| && !ram[hit.value].after.Serves(sampled) then
      Lookup(ram, ids[..|ids| - 1])
    else
      hit
  }

  function LenOf(ram: seq<Snap>, hit: Option<nat>): nat
    requires hit.Some? ==> hit.value < |ram|
  {
    if hit.Some? then |ram[hit.value].tokens| else 0
  }

  /** How much of `ids` the RAM tier can give the request. */
  function RamLen(ram: seq<Snap>, ids: seq<Token>, sampled: bool): nat
    requires ids != []
  {
    LenOf(ram, LookupFor(ram, ids, sampled))
  }

  /** The snapshot can give the request its tokens, and at full length its first token. */
  predicate CanServe(s: Snap, ids: seq<Token>, sampled: bool) {
    s.tokens <= ids && (|s.tokens| == |ids| ==> s.after.Serves(sampled))
  }

  lemma SamePrefix(s: seq<Token>, t: seq<Token>, ids: seq<Token>)
    requires s <= ids && t <= ids && |s| == |t|
    ensures s == t
  {
  }

  /** What is looked up can serve the request, and nothing longer in the tier could. */
  lemma LookupForLongest(m: Model, argmax: Argmax, ram: seq<Snap>, ids: seq<Token>, sampled: bool)
    requires RamOk(m, argmax, ram) && ids != []
    ensures var r := LookupFor(ram, ids, sampled);
      && (r.Some? ==> CanServe(ram[r.value], ids, sampled))
      && (forall i :: 0 <= i < |ram| && CanServe(ram[i], ids, sampled) ==> r.Some? && |ram[i].tokens| <= RamLen(ram, ids, sampled))
  {
    hide SnapOk;
    var short := ids[..|ids| - 1];
    LookupLongest(ram, ids);
    LookupLongest(ram, short);
    var hit := Lookup(ram, ids);
    if hit.Some? && |ram[hit.value].tokens| == |ids| && !ram[hit.value].after.Serves(sampled) {
      forall i | 0 <= i < |ram| && CanServe(ram[i], ids, sampled)
        ensures ram[i].tokens <= short
      {
        if |ram[i].tokens| == |ids| {
          SamePrefix(ram[i].tokens, ram[hit.value].tokens, ids);
          assert false;
        }
      }
    }
  }

  /** Every snapshot of `ram` is still in `now`, serving at least what it served. */
  ghost predicate Covers(ram: seq<Snap>, now: seq<Snap>) {
    forall i :: 0 <= i < |ram| ==> Kept(ram[i], now)
  }

  ghost predicate Kept(s: Snap, now: seq<Snap>) {
    exists j :: 0 <= j < |now| && Better(now[j], s)
  }

  predicate Better(t: Snap, s: Snap) {
    t.tokens == s.tokens && (s.after.greedy.Some? ==> t.after.greedy.Some?) && (s.after.logits.Some? ==> t.after.logits.Some?)
  }

  lemma CoversTrans(a: seq<Snap>, b: seq<Snap>, c: seq<Snap>)
    requires Covers(a, b) && Covers(b, c)
    ensures Covers(a, c)
  {
    forall i | 0 <= i < |a|
      ensures Kept(a[i], c)
    {
      assert Kept(a[i], b);
      var j :| 0 <= j < |b| && Better(b[j], a[i]);
      assert Kept(b[j], c);
      var k :| 0 <= k < |c| && Better(c[k], b[j]);
      assert Better(c[k], a[i]);
    }
  }

  lemma CoversSelf(a: seq<Snap>)
    ensures Covers(a, a)
  {
    forall i | 0 <= i < |a|
      ensures Kept(a[i], a)
    {
      assert Better(a[i], a[i]);
    }
  }

  /** Storing more never shortens what the tier gives a request. */
  lemma RamLenGrows(m: Model, argmax: Argmax, ram: seq<Snap>, now: seq<Snap>, ids: seq<Token>, sampled: bool)
    requires RamOk(m, argmax, ram) && RamOk(m, argmax, now) && Covers(ram, now) && ids != []
    ensures RamLen(ram, ids, sampled) <= RamLen(now, ids, sampled)
  {
    hide SnapOk;
    hide LookupFor;
    LookupForLongest(m, argmax, ram, ids, sampled);
    LookupForLongest(m, argmax, now, ids, sampled);
    var r := LookupFor(ram, ids, sampled);
    if r.Some? {
      assert Kept(ram[r.value], now);
      var j :| 0 <= j < |now| && Better(now[j], ram[r.value]);
      assert CanServe(now[j], ids, sampled);
    }
  }

  /** What becomes of a stored snapshot's after when the same tokens are stored again. */
  function Merged(old_: After, new_: After): After {
    After(if old_.greedy.Some? then old_.greedy else new_.greedy, if old_.logits.Some? then old_.logits else new_.logits)
  }

  function IndexOf(ram: seq<Snap>, toks: seq<Token>): (r: Option<nat>)
    ensures r.Some? ==> r.value < |ram| && ram[r.value].tokens == toks
    ensures r.None? ==> forall i :: 0 <= i < |ram| ==> ram[i].tokens != toks
  {
    if ram == [] then None
    else
      var k := |ram| - 1;
      var r := IndexOf(ram[..k], toks);
      if r.Some? then r
      else if ram[k].tokens == toks then Some(k)
      else
        assert forall i :: 0 <= i < k ==> ram[i] == ram[..k][i];
        None
  }
}
