/** The paged row store: rows live in fixed-size pages reached through a page table. It refines a
    flat list of the rows appended, and attention folded page by page over it is attention over
    that list at the positions the caller gives. */
module Paged {
  import opened Basics
  import opened Softmax

  /** A stored row; its position is the caller's. */
  datatype Kv = Kv(k: seq<real>, v: seq<real>)

  function Scaled(r: Kv, scale: real): Kv {
    Kv(r.k, seq(|r.v|, i requires 0 <= i < |r.v| => r.v[i] * scale))
  }

  function ScaledAll(rows: seq<Kv>, scale: real): (r: seq<Kv>)
    ensures |r| == |rows| && forall i :: 0 <= i < |r| ==> r[i] == Scaled(rows[i], scale)
  {
    seq(|rows|, i requires 0 <= i < |rows| => Scaled(rows[i], scale))
  }

  /** The rows `lo` to `hi - 1`. */
  function Span(rows: seq<Kv>, lo: nat, hi: nat): (r: seq<Kv>)
    requires lo <= hi <= |rows|
    ensures |r| == hi - lo && forall i :: 0 <= i < |r| ==> r[i] == rows[lo + i]
  {
    rows[lo..hi]
  }

  /** Where page `p` starts. */
  function Base(p: nat, size: nat): nat {
    p * size
  }

  lemma BaseNext(p: nat, size: nat)
    ensures Base(0, size) == 0 && Base(p + 1, size) == Base(p, size) + size
  {
  }

  lemma BaseOrder(p: nat, q: nat, size: nat)
    requires p <= q
    ensures Base(p, size) <= Base(q, size)
  {
  }

  lemma BaseApart(p: nat, q: nat, size: nat)
    requires p < q
    ensures Base(p, size) + size <= Base(q, size)
  {
    BaseNext(p, size);
    BaseOrder(p + 1, q, size);
  }

  /** The page and offset of row `t`. */
  lemma PageOf(t: nat, size: nat)
    requires size > 0
    ensures Base(t / size, size) + t % size == t && t % size < size
  {
    assert t == size * (t / size) + t % size;
  }

  /** The rows of page `p`. */
  function PageRows(all: seq<Kv>, p: nat, size: nat): seq<Kv>
    requires Base(p, size) <= |all|
  {
    Span(all, Base(p, size), Min(Base(p, size) + size, |all|))
  }

  /** The table has just the pages it needs. */
  predicate Covers(pages: nat, n: nat, size: nat) {
    n <= Base(pages, size) && (forall p: nat :: p < pages ==> Base(p, size) < n)
  }

  /** Each page's slot holds its rows; no two pages share a slot. */
  ghost predicate Holds(table: seq<nat>, slots: seq<seq<Kv>>, all: seq<Kv>, size: nat) {
    && size > 0 && Covers(|table|, |all|, size)
    && (forall p :: 0 <= p < |table| ==> table[p] < |slots| && Base(p, size) <= |all| && slots[table[p]] == PageRows(all, p, size))
    && (forall p, q :: 0 <= p < q < |table| ==> table[p] != table[q])
  }

  class GaPaged {
    const size: nat
    const scale: real
    var table: seq<nat>
    var slots: seq<seq<Kv>>
    var rows: nat

    /** The store holds exactly these rows. */
    ghost predicate Stores(all: seq<Kv>)
      reads this
    {
      rows == |all| && Holds(table, slots, all, size)
    }

    constructor (size: nat, scale: real)
      requires size >= 1
      ensures Stores([]) && this.size == size && this.scale == scale
    {
      this.size, this.scale, table, slots, rows := size, scale, [], [], 0;
    }

    /** Append rows, spilling into new pages. */
    method Append(raw: seq<Kv>, ghost all: seq<Kv>)
      requires Stores(all)
      modifies this
      ensures Stores(all + ScaledAll(raw, scale))
    {
      hide Holds, Scaled;
      var batch := ScaledAll(raw, scale);
      var done := 0;
      assert all + batch[..0] == all;
      while done < |batch|
        invariant done <= |batch| && Stores(all + batch[..done])
      {
        ghost var now := all + batch[..done];
        var take := AppendSome(Span(batch, done, |batch|), now);
        assert now + Span(batch, done, |batch|)[..take] == all + batch[..done + take];
        done := done + take;
      }
      assert batch[..|batch|] == batch;
    }

    /** Fill the current page, or start the next. */
    method AppendSome(rest: seq<Kv>, ghost all: seq<Kv>) returns (take: nat)
      requires Stores(all) && rest != []
      modifies this
      ensures 0 < take <= |rest| && Stores(all + rest[..take])
    {
      hide Base;
      var page, off := rows / size, rows % size;
      PageOf(rows, size);
      PageInTable(table, slots, all, size);
      take := Min(size - off, |rest|);
      if page == |table| {
        StartPage(table, slots, all, size);
        table, slots := table + [|slots|], slots + [[]];
      }
      var slot := table[page];
      FillPage(table, slots, all, size, page, rest[..take]);
      slots := slots[slot := slots[slot] + rest[..take]];
      rows := rows + take;
    }

    /** Rows `lo` to `hi - 1`, read through the page table. */
    method RowsRange(lo: nat, hi: nat, ghost all: seq<Kv>) returns (out: seq<Kv>)
      requires Stores(all) && lo <= hi <= rows
      ensures out == Span(all, lo, hi)
    {
      hide Base, Holds, Span;
      out := [];
      var t := lo;
      SpanNone(all, lo);
      while t < hi
        invariant lo <= t <= hi && out == Span(all, lo, t)
      {
        var rows := ReadWithin(t, hi, all);
        out := out + rows;
        SpanJoin(all, lo, t, t + |rows|);
        t := t + |rows|;
      }
    }

    /** The rows from `t` on that lie in one page, up to `hi`. */
    method ReadWithin(t: nat, hi: nat, ghost all: seq<Kv>) returns (out: seq<Kv>)
      requires Stores(all) && t < hi <= rows
      ensures 0 < |out| <= hi - t && out == Span(all, t, t + |out|)
    {
      assert size > 0;
      hide Base, Holds, Span;
      PageOf(t, size);
      var page, off := t / size, t % size;
      var take := Min(size - off, hi - t);
      InPage(table, slots, all, size, t, take);
      out := Span(slots[table[page]], off, off + take);
    }

    /** One page's rows as stored. */
    method PageRowsOf(p: nat, ghost all: seq<Kv>) returns (out: seq<Kv>)
      requires Stores(all) && p < |table|
      ensures Base(p, size) < |all| && out == Span(all, Base(p, size), Min(Base(p, size) + size, |all|))
    {
      hide Base;
      out := slots[table[p]];
    }
  }

  lemma SpanNone(all: seq<Kv>, lo: nat)
    requires lo <= |all|
    ensures Span(all, lo, lo) == []
  {
  }

  lemma SpanJoin(all: seq<Kv>, a: nat, b: nat, c: nat)
    requires a <= b <= c <= |all|
    ensures Span(all, a, c) == Span(all, a, b) + Span(all, b, c)
  {
  }

  lemma SpanSpan(all: seq<Kv>, a: nat, b: nat, c: nat, d: nat)
    requires a <= b <= |all| && c <= d <= b - a
    ensures Span(Span(all, a, b), c, d) == Span(all, a + c, a + d)
  {
  }

  /** The page being filled is the last one or the next. */
  lemma PageInTable(table: seq<nat>, slots: seq<seq<Kv>>, all: seq<Kv>, size: nat)
    requires Holds(table, slots, all, size)
    ensures |all| / size <= |table|
    ensures |all| / size < |table| ==> |all| / size == |table| - 1
    ensures |all| / size == |table| ==> |all| == Base(|table|, size)
  {
    hide Base, PageRows;
    var n, k := |all|, |table|;
    PageOf(n, size);
    if k < n / size {
      BaseApart(k, n / size, size);
    }
    if n / size + 1 < k {
      BaseApart(n / size, n / size + 1, size);
    }
  }

  lemma StartPage(table: seq<nat>, slots: seq<seq<Kv>>, all: seq<Kv>, size: nat)
    requires Holds(table, slots, all, size) && |all| == Base(|table|, size)
    ensures Started(table + [|slots|], slots + [[]], all, size)
  {
    hide Base;
    var t, s := table + [|slots|], slots + [[]];
    forall p: nat | p < |t|
      ensures t[p] < |s| && Base(p, size) <= |all| && s[t[p]] == PageRows(all, p, size)
    {
      if p == |table| {
        SpanNone(all, |all|);
      } else {
        assert t[p] == table[p] && s[t[p]] == slots[table[p]];
      }
    }
    BaseNext(|table|, size);
  }

  /** The same with the last page possibly empty. */
  ghost predicate Started(table: seq<nat>, slots: seq<seq<Kv>>, all: seq<Kv>, size: nat) {
    && size > 0 && |all| <= Base(|table|, size)
    && (forall p :: 0 <= p < |table| ==> table[p] < |slots| && Base(p, size) <= |all| && slots[table[p]] == PageRows(all, p, size))
    && (forall p, q :: 0 <= p < q < |table| ==> table[p] != table[q])
  }

  /** Rows added to the last page, which has room for them. */
  lemma FillPage(table: seq<nat>, slots: seq<seq<Kv>>, all: seq<Kv>, size: nat, page: nat, more: seq<Kv>)
    requires Holds(table, slots, all, size) || Started(table, slots, all, size)
    requires page == |table| - 1 && more != [] && Base(page, size) <= |all| && |all| + |more| <= Base(page, size) + size
    ensures table[page] < |slots|
    ensures Holds(table, slots[table[page] := slots[table[page]] + more], all + more, size)
  {
    hide Base, Span;
    var s, now := slots[table[page] := slots[table[page]] + more], all + more;
    BaseNext(page, size);
    forall p: nat | p < |table|
      ensures table[p] < |s| && Base(p, size) < |now| && s[table[p]] == PageRows(now, p, size)
    {
      if p < page {
        BaseApart(p, page, size);
        SpanOld(all, more, Base(p, size), Base(p, size) + size);
      } else {
        SpanGrown(all, more, Base(p, size));
      }
    }
  }

  lemma SpanOld(all: seq<Kv>, more: seq<Kv>, a: nat, b: nat)
    requires a <= b <= |all|
    ensures Span(all + more, a, b) == Span(all, a, b)
  {
  }

  lemma SpanGrown(all: seq<Kv>, more: seq<Kv>, a: nat)
    requires a <= |all|
    ensures Span(all + more, a, |all| + |more|) == Span(all, a, |all|) + more
  {
  }

  /** Rows within one page are where the table says. */
  lemma InPage(table: seq<nat>, slots: seq<seq<Kv>>, all: seq<Kv>, size: nat, t: nat, take: nat)
    requires Holds(table, slots, all, size) && t + take <= |all| && 0 < take && t % size + take <= size
    ensures t / size < |table| && table[t / size] < |slots| && t % size + take <= |slots[table[t / size]]|
    ensures Span(slots[table[t / size]], t % size, t % size + take) == Span(all, t, t + take)
  {
    hide Base, Span;
    PageOf(t, size);
    var page, off := t / size, t % size;
    if |table| <= page {
      BaseOrder(|table|, page, size);
    }
    SpanSpan(all, Base(page, size), Min(Base(page, size) + size, |all|), off, off + take);
  }

  // ---- Attention over pages.

  /** Rows at the caller's positions. */
  function Keyed(rows: seq<Kv>, pos: seq<int>): (r: seq<Key>)
    requires |rows| == |pos|
    ensures |r| == |rows| && forall i :: 0 <= i < |r| ==> r[i] == Key(pos[i], rows[i].k, rows[i].v)
  {
    seq(|rows|, i requires 0 <= i < |rows| && |rows| == |pos| => Key(pos[i], rows[i].k, rows[i].v))
  }

  lemma {:induction false} TermsPart(x: Query, keys: seq<Key>, part: seq<Key>, d: nat, lo: nat, n: nat)
    requires Fits(x, keys, d) && n <= |part| && lo + |part| <= |keys| && forall i :: 0 <= i < |part| ==> part[i] == keys[lo + i]
    ensures Fits(x, part, d) && Terms(x, part, d, 0, n) == Terms(x, keys, d, lo, lo + n)
  {
    if n > 0 {
      TermsPart(x, keys, part, d, lo, n - 1);
    }
  }

  lemma NoTerms(x: Query, keys: seq<Key>, d: nat)
    requires Fits(x, keys, d)
    ensures Terms(x, keys, d, 0, 0) == []
  {
  }

  /** Fold page by page, `pagesPerChunk` pages at a time. Fails when the caller's positions are not
      one per row. */
  method AttentionPaged(e: Exp, x: Query, pos: seq<int>, sink: Option<real>, ga: GaPaged, pagesPerChunk: nat, d: nat,
                        ghost all: seq<Kv>)
    returns (out: Option<seq<real>>)
    requires IsExp(e) && ga.Stores(all)
    requires |pos| == |all| ==> Fits(x, Keyed(all, pos), d)
    ensures out.None? <==> |pos| != |all|
    ensures out.Some? ==> out.value == Row(e, Terms(x, Keyed(all, pos), d, 0, |all|), sink, d)
  {
    assert ga.size > 0 && |all| == ga.rows;
    hide IsExp, Sums, Query.Score, Mean, Holds, Base, Terms, Span;
    if |pos| != ga.rows {
      return None;
    }
    ghost var keys := Keyed(all, pos);
    var step := if pagesPerChunk == 0 then 1 else pagesPerChunk;
    var p := new Partial(d);
    var n := ga.rows;
    var pages := (n + ga.size - 1) / ga.size;
    PagesCover(n, ga.size);
    var pg := 0;
    BaseNext(0, ga.size);
    NoTerms(x, keys, d);
    while pg < pages
      invariant pg <= pages && fresh(p) && Sums(e, p.m, p.l, p.o, Terms(x, keys, d, 0, Min(Base(pg, ga.size), n)), d)
    {
      var next := if pg + step < pages then pg + step else pages;
      var lo, hi := Base(pg, ga.size), Min(Base(next, ga.size), n);
      BaseOrder(pg, next, ga.size);
      BaseApart(pg, pages, ga.size);
      FoldPages(e, p, x, pos, ga, lo, hi, d, all);
      pg := next;
    }
    var row := ReduceOne(e, p, sink, Terms(x, keys, d, 0, n), d);
    out := Some(row);
  }

  /** Read some rows and fold them in. */
  method FoldPages(e: Exp, p: Partial, x: Query, pos: seq<int>, ga: GaPaged, lo: nat, hi: nat, ghost d: nat, ghost all: seq<Kv>)
    requires IsExp(e) && ga.Stores(all) && |pos| == |all| && Fits(x, Keyed(all, pos), d) && lo <= hi <= |all|
    requires Sums(e, p.m, p.l, p.o, Terms(x, Keyed(all, pos), d, 0, lo), d)
    modifies p
    ensures Sums(e, p.m, p.l, p.o, Terms(x, Keyed(all, pos), d, 0, hi), d)
  {
    hide IsExp, Sums, Query.Score, Holds, Terms;
    var rows := ga.RowsRange(lo, hi, all);
    var part := Keyed(rows, pos[lo..hi]);
    ghost var keys := Keyed(all, pos);
    TermsPart(x, keys, part, d, lo, hi - lo);
    FoldRange(e, p, x, part, 0, hi - lo, Terms(x, keys, d, 0, lo), d);
    TermsJoin(x, keys, d, 0, lo, hi);
  }

  lemma PagesCover(n: nat, size: nat)
    requires size > 0
    ensures n <= Base((n + size - 1) / size, size) < n + size
  {
    PageOf(n + size - 1, size);
  }
}
