/** Runs of a device cache on its own: blocks appended at once, truncates that stay within the last
    block, shrinks, reserves, and snapshots saved and resumed, in any order. */
module KvRuns {
  import opened Basics
  import opened Transformer
  import opened DeviceKvCache
  import opened KvSound
  import L = Lanes

  datatype Saved = Saved(toks: seq<Token>, state: seq<seq<Row>>)

  /** A cache, the tokens it should stand for, the snapshots taken, and how many rows of the last
      append may still be dropped. */
  datatype Run = Run(kv: Kv, toks: seq<Token>, saved: seq<Saved>, spare: nat)

  datatype Op =
    | Append(block: seq<Token>)
    | Truncate(drop: nat)
    | ShrinkSwa
    | ReserveSwa
    | ReserveGa(rows: nat)
    | Save
    | Resume(k: nat)

  /** A truncate stays within the last append; a snapshot is resumed where its rows still are. */
  predicate Enabled(r: Run, op: Op) {
    match op
    case Truncate(d) => d <= r.spare
    case Resume(k) => k < |r.saved| && r.saved[k].toks <= r.toks
    case _ => true
  }

  ghost predicate Inv(m: Model, r: Run) {
    && Stands(m, r.kv, r.toks) && r.spare <= |r.toks|
    && (forall l :: 0 <= l < |r.kv.layers| && r.kv.layers[l].kind.Swa? ==>
          |r.kv.layers[l].rows| >= r.spare + Min(|r.toks| - r.spare, m.window - 1))
    && forall k :: 0 <= k < |r.saved| ==> SavedAt(m, r.saved[k].state, r.saved[k].toks)
  }

  /** What every layer appends for a block: its rows in the whole history. */
  ghost function NewRows(m: Model, toks: seq<Token>, block: seq<Token>, l: nat): (r: seq<Row>)
    requires m.Valid() && l < |m.kinds|
    ensures |r| == |block|
  {
    Span(Hist(m, toks + block, l, |toks| + |block|), |toks|, |toks| + |block|)
  }

  ghost function Grown(m: Model, v: Kv, toks: seq<Token>, block: seq<Token>): Kv
    requires Shaped(m, v)
  {
    v.(layers := seq(|v.layers|, l requires 0 <= l < |v.layers| => v.layers[l].Appended(NewRows(m, toks, block, l))),
       tokens := v.tokens + |block|)
  }

  lemma LayerRows(m: Model, v: Kv, toks: seq<Token>, l: nat)
    requires Stands(m, v, toks) && l < |v.layers|
    ensures l < |m.kinds| && Holds(v.layers[l], Hist(m, toks, l, |toks|))
  {
    assert LayerAt(m, v.layers[l], l, toks, |toks|);
  }

  /** One layer after a block. */
  lemma GrownLayer(m: Model, v: Kv, toks: seq<Token>, block: seq<Token>, l: nat)
    requires Stands(m, v, toks) && l < |v.layers|
    ensures var lay := v.layers[l].Appended(NewRows(m, toks, block, l));
      && LayerAt(m, lay, l, toks + block, |toks| + |block|)
      && (lay.kind.Swa? ==> |lay.rows| >= |block| + Min(|toks|, m.window - 1))
  {
    hide Holds, Span, LayerKv.Appended;
    LayerRows(m, v, toks, l);
    var all := toks + block;
    assert all[..|toks|] == toks[..|toks|];
    HistCausal(m, toks, all, l, |toks|);
    HistPrefix(m, all, l, |toks|, |all|);
    var full := Hist(m, all, l, |all|);
    SpanJoin(full, 0, |toks|, |all|);
    SpanWhole(full);
    AppendHolds(v.layers[l], Hist(m, toks, l, |toks|), NewRows(m, toks, block, l));
  }

  /** The layers stay alike. */
  lemma GrownShape(m: Model, v: Kv, toks: seq<Token>, block: seq<Token>)
    requires Stands(m, v, toks)
    ensures Shaped(m, Grown(m, v, toks, block))
  {
    assert Shaped(m, v);
    hide Stands, LayerKv.Appended, Span, Hist;
    var g := Grown(m, v, toks, block);
    forall k, l | 0 <= k < |v.layers| && 0 <= l < |v.layers| && v.layers[k].kind.Swa? && v.layers[l].kind.Swa?
      ensures |g.layers[k].rows| == |g.layers[l].rows| && g.layers[k].cap == g.layers[l].cap
      ensures g.layers[k].cap >= v.layers[k].cap
    {
      assert k < l || l < k || k == l;
      L.AppendedShape(v.layers[k], NewRows(m, toks, block, k), v.layers[l], NewRows(m, toks, block, l));
    }
  }

  lemma ExtendKeeps(m: Model, r: Run, block: seq<Token>)
    requires Inv(m, r)
    ensures Inv(m, Extended(m, r, block))
  {
    hide LayerKv.Appended, Holds, NewRows;
    GrownShape(m, r.kv, r.toks, block);
    var g := Grown(m, r.kv, r.toks, block);
    forall l | 0 <= l < |g.layers|
      ensures LayerAt(m, g.layers[l], l, r.toks + block, |r.toks + block|)
      ensures g.layers[l].kind.Swa? ==> |g.layers[l].rows| >= |block| + Min(|r.toks|, m.window - 1)
    {
      GrownLayer(m, r.kv, r.toks, block, l);
    }
  }

  /** A truncate within the last append never finds a layer too short. */
  lemma CanCut(m: Model, r: Run, drop: nat)
    requires Inv(m, r) && drop <= r.spare
    ensures forall l :: 0 <= l < |r.kv.layers| ==> drop <= |r.kv.layers[l].rows|
  {
    forall l | 0 <= l < |r.kv.layers|
      ensures drop <= |r.kv.layers[l].rows|
    {
      LayerRows(m, r.kv, r.toks, l);
    }
  }

  lemma CutLayer(m: Model, r: Run, drop: nat, l: nat)
    requires Inv(m, r) && drop <= r.spare && l < |r.kv.layers|
    ensures drop <= |r.kv.layers[l].rows|
    ensures LayerAt(m, r.kv.layers[l].Truncated(drop), l, r.toks[..|r.toks| - drop], |r.toks| - drop)
  {
    hide Span, Hist;
    var n := |r.toks| - drop;
    LayerRows(m, r.kv, r.toks, l);
    TruncateHolds(r.kv.layers[l], Hist(m, r.toks, l, |r.toks|), drop);
    HistPrefix(m, r.toks, l, n, |r.toks|);
    HistCausal(m, r.toks, r.toks[..n], l, n);
  }

  ghost function Cut(m: Model, r: Run, drop: nat): (n: Run)
    requires Inv(m, r) && drop <= r.spare
  {
    CanCut(m, r, drop);
    r.(kv := r.kv.Truncated(r.kv.tokens - drop), toks := r.toks[..|r.toks| - drop], spare := r.spare - drop)
  }

  lemma CutKeeps(m: Model, r: Run, drop: nat)
    requires Inv(m, r) && drop <= r.spare
    ensures Inv(m, Cut(m, r, drop))
  {
    hide Span, Holds, LayerAt;
    CanCut(m, r, drop);
    var v := r.kv.Truncated(r.kv.tokens - drop);
    forall l | 0 <= l < |v.layers|
      ensures LayerAt(m, v.layers[l], l, r.toks[..|r.toks| - drop], |r.toks| - drop)
    {
      CutLayer(m, r, drop, l);
    }
  }

  /** With nothing to spare the window is what standing asks. */
  lemma NoSpare(m: Model, r: Run, v: Kv, toks: seq<Token>)
    requires Inv(m, r) && Stands(m, v, toks)
    ensures Inv(m, r.(kv := v, toks := toks, spare := 0))
  {
    forall l | 0 <= l < |v.layers| && v.layers[l].kind.Swa?
      ensures |v.layers[l].rows| >= Min(|toks|, m.window - 1)
    {
      LayerRows(m, v, toks, l);
    }
  }

  /** A snapshot of a start of the history can always be loaded. */
  lemma CanResume(m: Model, r: Run, s: Saved)
    requires Inv(m, r) && SavedAt(m, s.state, s.toks) && s.toks <= r.toks
    ensures forall l :: 0 <= l < |r.kv.layers| && r.kv.layers[l].kind.Ga? ==> |s.toks| <= |r.kv.layers[l].rows|
    ensures |s.state| == |r.kv.layers| && GaHolds(m, r.kv, s.toks)
  {
    hide Hist, Span;
    StandsHoldsPrefix(m, r.kv, r.toks, |s.toks|);
    assert r.toks[..|s.toks|] == s.toks;
  }

  ghost function Resumed(m: Model, r: Run, s: Saved): (n: Run)
    requires Inv(m, r) && SavedAt(m, s.state, s.toks) && s.toks <= r.toks
  {
    CanResume(m, r, s);
    r.(kv := r.kv.Rewound(|s.toks|).Loaded(s.state), toks := s.toks, spare := 0)
  }

  lemma ResumeKeeps(m: Model, r: Run, s: Saved)
    requires Inv(m, r) && SavedAt(m, s.state, s.toks) && s.toks <= r.toks
    ensures Inv(m, Resumed(m, r, s))
  {
    hide Stands, Inv, SavedAt, GaHolds, Kv.Rewound, Kv.Loaded;
    CanResume(m, r, s);
    LoadStands(m, r.kv, s.state, s.toks);
    NoSpare(m, r, Resumed(m, r, s).kv, s.toks);
  }

  ghost function Extended(m: Model, r: Run, block: seq<Token>): (n: Run)
    requires Inv(m, r)
  {
    r.(kv := Grown(m, r.kv, r.toks, block), toks := r.toks + block, spare := |block|)
  }

  lemma ShrinkKeeps(m: Model, r: Run)
    requires Inv(m, r)
    ensures Inv(m, r.(kv := r.kv.ShrunkSwa(), spare := 0))
  {
    ShrinkStands(m, r.kv, r.toks);
    NoSpare(m, r, r.kv.ShrunkSwa(), r.toks);
  }

  lemma ReserveKeeps(m: Model, r: Run, rows: nat)
    requires Inv(m, r)
    ensures Inv(m, r.(kv := r.kv.ReservedSwa())) && Inv(m, r.(kv := r.kv.ReservedGa(rows)))
  {
    hide Stands;
    ReserveSwaStands(m, r.kv, r.toks);
    ReserveGaStands(m, r.kv, r.toks, rows);
  }

  lemma SaveKeeps(m: Model, r: Run)
    requires Inv(m, r)
    ensures Inv(m, r.(saved := r.saved + [Saved(r.toks, r.kv.Saved())]))
  {
    hide Stands, SavedAt;
    SaveSound(m, r.kv, r.toks);
  }

  /** One step. */
  ghost function After(m: Model, r: Run, op: Op): (n: Run)
    requires Inv(m, r) && Enabled(r, op)
  {
    match op
    case Append(block) => Extended(m, r, block)
    case Truncate(drop) => Cut(m, r, drop)
    case ShrinkSwa => r.(kv := r.kv.ShrunkSwa(), spare := 0)
    case ReserveSwa => r.(kv := r.kv.ReservedSwa())
    case ReserveGa(rows) => r.(kv := r.kv.ReservedGa(rows))
    case Save => r.(saved := r.saved + [Saved(r.toks, r.kv.Saved())])
    case Resume(k) => Resumed(m, r, r.saved[k])
  }

  lemma StepKeeps(m: Model, r: Run, op: Op)
    requires Inv(m, r) && Enabled(r, op)
    ensures Inv(m, After(m, r, op))
  {
    assert op.Resume? ==> SavedAt(m, r.saved[op.k].state, r.saved[op.k].toks);
    hide Inv, Extended, Cut, Resumed, Kv.ShrunkSwa, Kv.ReservedSwa, Kv.ReservedGa, Kv.Saved, SavedAt;
    match op
    case Append(block) => ExtendKeeps(m, r, block);
    case Truncate(drop) => CutKeeps(m, r, drop);
    case ShrinkSwa => ShrinkKeeps(m, r);
    case ReserveSwa => ReserveKeeps(m, r, 0);
    case ReserveGa(rows) => ReserveKeeps(m, r, rows);
    case Save => SaveKeeps(m, r);
    case Resume(k) => ResumeKeeps(m, r, r.saved[k]);
  }

  ghost predicate Runs(m: Model, r: Run, ops: seq<Op>)
    requires Inv(m, r)
    decreases |ops|
  {
    if ops == [] then true
    else if !Enabled(r, ops[0]) then false
    else
      StepKeeps(m, r, ops[0]);
      Runs(m, After(m, r, ops[0]), ops[1..])
  }

  ghost function AfterAll(m: Model, r: Run, ops: seq<Op>): (n: Run)
    requires Inv(m, r) && Runs(m, r, ops)
    ensures Inv(m, n)
    decreases |ops|
  {
    hide Inv, After, Enabled;
    if ops == [] then r
    else
      StepKeeps(m, r, ops[0]);
      AfterAll(m, After(m, r, ops[0]), ops[1..])
  }

  /** What a layer holds: a GA layer positions 0 to `tokens - 1`, a windowed layer a run that ends at
      `tokens - 1`, of at least the window before the next query. */
  ghost predicate Covers(m: Model, v: Kv, l: nat)
    requires m.Valid() && l < |v.layers|
  {
    var rows := v.layers[l].rows;
    && |rows| <= v.tokens && Contiguous(rows, v.tokens - |rows|)
    && |rows| >= (if v.layers[l].kind.Ga? then v.tokens else Min(v.tokens, m.window - 1))
  }

  lemma StandingCovers(m: Model, v: Kv, toks: seq<Token>, l: nat)
    requires Stands(m, v, toks) && l < |v.layers|
    ensures Covers(m, v, l)
  {
    LayerRows(m, v, toks, l);
    var full := Hist(m, toks, l, |toks|);
    assert Contiguous(full, 0);
    SpanContiguous(full, 0, |full| - |v.layers[l].rows|, |full|);
  }

  /** What any run leaves: every layer covers what it must, the windowed layers agree on their row
      count, neither a truncate within the last append nor a save can fail, and the cache stands for
      its tokens as one that was given them at once. */
  lemma RunCovers(m: Model, r: Run, ops: seq<Op>)
    requires Inv(m, r) && Runs(m, r, ops)
    ensures var n := AfterAll(m, r, ops); var w := n.kv;
      && w.tokens == |n.toks| && Stands(m, w, n.toks)
      && (forall l :: 0 <= l < |w.layers| ==> Covers(m, w, l) && n.spare <= |w.layers[l].rows|)
      && (forall k, l :: 0 <= k < |w.layers| && 0 <= l < |w.layers| && w.layers[k].kind.Swa? && w.layers[l].kind.Swa? ==>
            |w.layers[k].rows| == |w.layers[l].rows| &&
            Min(|w.layers[k].rows|, w.KeepMax()) == Min(|w.layers[l].rows|, w.KeepMax()))
  {
    hide Covers, Runs, AfterAll;
    var n := AfterAll(m, r, ops);
    var w := n.kv;
    CanCut(m, n, n.spare);
    forall l | 0 <= l < |w.layers|
      ensures Covers(m, w, l)
    {
      StandingCovers(m, w, n.toks, l);
    }
    SaveAgrees(m, w);
    Agree(m, w);
  }

  /** A fresh cache starts a run. */
  lemma FreshRuns(m: Model, v: Kv)
    requires Shaped(m, v) && v.tokens == 0 && forall l :: 0 <= l < |v.layers| ==> v.layers[l].rows == []
    ensures Inv(m, Run(v, [], [], 0))
  {
    hide Stands;
    FreshStands(m, v);
  }

  lemma Agree(m: Model, w: Kv)
    requires Shaped(m, w)
    ensures forall k, l :: 0 <= k < |w.layers| && 0 <= l < |w.layers| && w.layers[k].kind.Swa? && w.layers[l].kind.Swa? ==>
      |w.layers[k].rows| == |w.layers[l].rows|
  {
    forall k, l | 0 <= k < |w.layers| && 0 <= l < |w.layers| && w.layers[k].kind.Swa? && w.layers[l].kind.Swa?
      ensures |w.layers[k].rows| == |w.layers[l].rows|
    {
      assert k < l || l < k || k == l;
    }
  }
}
