/** The model the serving engine runs, as far as its control flow can see it: a stack of
    layers over a residual row per token. The arithmetic of one row (projections, RoPE, the
    KV codec, attention over a list of rows, the experts) is left uninterpreted; what is fixed
    is which rows a position attends to and in which order the pieces are applied.

    `Hid` and `Hist` are the reference: the whole history is kept in every layer and every
    position attends to all of it that its layer makes visible. */
module Transformer {
  import opened Basics

  type Hidden(==, !new)   // one residual row
  type Codes(==, !new)    // the stored key and value codes of one row
  type Message(==, !new)  // one quantized, routed row as sent to the experts
  type Reply(==, !new)    // the experts' sum for one row

  datatype Kind = Ga | Swa

  /** One row of a layer's KV: its absolute position and its codes. */
  datatype Row = Row(pos: nat, codes: Codes)

  datatype Model = Model(
    window: nat,
    kinds: seq<Kind>,
    moe: seq<bool>,
    embed: (Token, nat) -> Hidden,
    encode: (nat, Hidden, nat) -> Codes,
    attend: (nat, Hidden, nat, seq<Row>) -> Hidden,
    dense: (nat, Hidden) -> Hidden,
    route: (nat, Hidden) -> Message,
    experts: (nat, Message) -> Reply,
    add: (Hidden, Reply) -> Hidden)
  {
    predicate Valid() {
      window >= 1 && |kinds| == |moe|
    }

    /** `k_pos <= q_pos`, and on a windowed layer `q_pos - k_pos < window`. */
    predicate Visible(l: nat, q: nat, p: nat)
      requires l < |kinds|
    {
      p <= q && (kinds[l].Swa? ==> q - p < window)
    }

    /** The rows a query at position `q` attends to, in order. */
    function VisibleRows(l: nat, q: nat, rows: seq<Row>): (r: seq<Row>)
      requires l < |kinds|
    {
      if rows == [] then []
      else
        var rest := VisibleRows(l, q, rows[..|rows| - 1]);
        var last := rows[|rows| - 1];
        if Visible(l, q, last.pos) then rest + [last] else rest
    }

    /** The oldest position a query at `q` sees. */
    function Oldest(l: nat, q: nat): nat
      requires l < |kinds|
    {
      if kinds[l].Swa? && q + 1 >= window then q + 1 - window else 0
    }

    /** The feed-forward half of a layer on one row. */
    function Ffn(l: nat, h: Hidden): Hidden
      requires l < |moe|
    {
      if moe[l] then add(h, experts(l, route(l, h))) else dense(l, h)
    }
  }

  /** The residual row of position `i` entering layer `l`, from the whole history. */
  function Hid(m: Model, toks: seq<Token>, l: nat, i: nat): Hidden
    requires m.Valid() && l <= |m.kinds| && i < |toks|
    decreases l, 0
  {
    if l == 0 then m.embed(toks[i], i)
    else
      m.Ffn(l - 1, m.attend(l - 1, Hid(m, toks, l - 1, i), i, m.VisibleRows(l - 1, i, Hist(m, toks, l - 1, i + 1))))
  }

  /** The KV rows of positions `0..n-1` at layer `l`, none ever dropped. */
  function Hist(m: Model, toks: seq<Token>, l: nat, n: nat): (r: seq<Row>)
    requires m.Valid() && l < |m.kinds| && n <= |toks|
    ensures |r| == n
    ensures forall j :: 0 <= j < n ==> r[j].pos == j
    decreases l, 1
  {
    seq(n, j requires 0 <= j < n => Row(j, m.encode(l, Hid(m, toks, l, j), j)))
  }

  /** The residual row of position `i` between the two halves of layer `l`. */
  function Mid(m: Model, toks: seq<Token>, l: nat, i: nat): Hidden
    requires m.Valid() && l < |m.kinds| && i < |toks|
  {
    m.attend(l, Hid(m, toks, l, i), i, m.VisibleRows(l, i, Hist(m, toks, l, i + 1)))
  }

  lemma HidStep(m: Model, toks: seq<Token>, l: nat, i: nat)
    requires m.Valid() && l < |m.kinds| && i < |toks|
    ensures Hid(m, toks, l + 1, i) == m.Ffn(l, Mid(m, toks, l, i))
  {
  }

  /** The last layer's row of position `i`: what the output head reads. */
  function Out(m: Model, toks: seq<Token>, i: nat): Hidden
    requires m.Valid() && i < |toks|
  {
    Hid(m, toks, |m.kinds|, i)
  }

  /** Causality: a row depends only on the tokens up to its own position. */
  lemma {:induction false} HidCausal(m: Model, s: seq<Token>, t: seq<Token>, l: nat, i: nat)
    requires m.Valid() && l <= |m.kinds| && i < |s| && i < |t|
    requires s[..i + 1] == t[..i + 1]
    ensures Hid(m, s, l, i) == Hid(m, t, l, i)
    decreases l, 0
  {
    assert s[i] == s[..i + 1][i] == t[..i + 1][i] == t[i];
    if l > 0 {
      HidCausal(m, s, t, l - 1, i);
      HistCausal(m, s, t, l - 1, i + 1);
    }
  }

  lemma {:induction false} HistCausal(m: Model, s: seq<Token>, t: seq<Token>, l: nat, n: nat)
    requires m.Valid() && l < |m.kinds| && n <= |s| && n <= |t|
    requires s[..n] == t[..n]
    ensures Hist(m, s, l, n) == Hist(m, t, l, n)
    decreases l, 1
  {
    forall j | 0 <= j < n
      ensures Hist(m, s, l, n)[j] == Hist(m, t, l, n)[j]
    {
      assert s[..j + 1] == s[..n][..j + 1] == t[..j + 1];
      HidCausal(m, s, t, l, j);
    }
  }

  /** The history only ever grows at its end. */
  lemma HistPrefix(m: Model, toks: seq<Token>, l: nat, k: nat, n: nat)
    requires m.Valid() && l < |m.kinds| && k <= n <= |toks|
    ensures Span(Hist(m, toks, l, n), 0, k) == Hist(m, toks, l, k)
  {
  }

  // ---- Runs of rows.

  /** Rows `a` to `b - 1`. */
  function Span(h: seq<Row>, a: nat, b: nat): (r: seq<Row>)
    requires a <= b <= |h|
    ensures |r| == b - a
  {
    h[a..b]
  }

  lemma SpanWhole(h: seq<Row>)
    ensures Span(h, 0, |h|) == h
  {
  }

  lemma SpanJoin(h: seq<Row>, a: nat, b: nat, c: nat)
    requires a <= b <= c <= |h|
    ensures Span(h, a, b) + Span(h, b, c) == Span(h, a, c)
  {
  }

  lemma SpanOfSpan(h: seq<Row>, a: nat, b: nat, c: nat, d: nat)
    requires a <= b <= |h| && c <= d <= b - a
    ensures Span(Span(h, a, b), c, d) == Span(h, a + c, a + d)
  {
    var x, y := h[a..b], h[a + c..a + d];
    forall k | 0 <= k < d - c
      ensures x[c..d][k] == y[k]
    {
      assert x[c..d][k] == x[c + k];
    }
    assert x[c..d] == y;
  }

  lemma SpanOfJoin(x: seq<Row>, y: seq<Row>, a: nat)
    requires a <= |x|
    ensures Span(x + y, a, |x| + |y|) == Span(x, a, |x|) + y
    ensures Span(x + y, 0, |x|) == x && Span(x + y, |x|, |x| + |y|) == y
  {
  }

  /** Rows at consecutive positions from `a`. */
  ghost predicate Contiguous(rows: seq<Row>, a: nat) {
    forall j :: 0 <= j < |rows| ==> rows[j].pos == a + j
  }

  lemma SpanContiguous(h: seq<Row>, p: nat, a: nat, b: nat)
    requires Contiguous(h, p) && a <= b <= |h|
    ensures Contiguous(Span(h, a, b), p + a)
  {
  }

  /** Over consecutive rows that reach back to the oldest visible position, the position mask
      selects exactly one run. */
  lemma {:induction false} VisibleRun(m: Model, l: nat, q: nat, rows: seq<Row>, a: nat)
    requires m.Valid() && l < |m.kinds| && Contiguous(rows, a) && a <= m.Oldest(l, q) < a + |rows|
    ensures m.VisibleRows(l, q, rows) == Span(rows, m.Oldest(l, q) - a, if a + |rows| <= q + 1 then |rows| else q + 1 - a)
    decreases |rows|
  {
    var init := rows[..|rows| - 1];
    if a + |init| <= m.Oldest(l, q) {
      NoneVisible(m, l, q, init, a);
    } else {
      VisibleRun(m, l, q, init, a);
    }
  }

  lemma {:induction false} NoneVisible(m: Model, l: nat, q: nat, rows: seq<Row>, a: nat)
    requires m.Valid() && l < |m.kinds| && Contiguous(rows, a) && a + |rows| <= m.Oldest(l, q)
    ensures m.VisibleRows(l, q, rows) == []
    decreases |rows|
  {
    if rows != [] {
      NoneVisible(m, l, q, rows[..|rows| - 1], a);
    }
  }

  /** A query sees the same rows in a tail of the history that reaches its window as in the
      history up to its own position. */
  lemma TailSees(m: Model, l: nat, full: seq<Row>, a: nat, q: nat)
    requires m.Valid() && l < |m.kinds| && Contiguous(full, 0) && a <= m.Oldest(l, q) && q < |full|
    ensures m.VisibleRows(l, q, Span(full, a, |full|)) == m.VisibleRows(l, q, Span(full, 0, q + 1))
  {
    hide Span;
    hide Model.VisibleRows;
    var o := m.Oldest(l, q);
    SpanContiguous(full, 0, a, |full|);
    VisibleRun(m, l, q, Span(full, a, |full|), a);
    SpanOfSpan(full, a, |full|, o - a, q + 1 - a);
    SpanContiguous(full, 0, 0, q + 1);
    VisibleRun(m, l, q, Span(full, 0, q + 1), 0);
    SpanOfSpan(full, 0, q + 1, o, q + 1);
  }
}
