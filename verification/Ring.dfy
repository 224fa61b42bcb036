/** The windowed row store in its two forms: a list that drops rows from its front, and a growing
    buffer that shifts its rows down in place. Both drop only rows that no query of the batch or
    after it can see, as long as positions strictly increase. */
module Ring {
  import opened Basics
  import opened Softmax

  /** The value scale is applied when a row is stored. */
  function Stored(k: Key, scale: real): Key {
    k.(v := seq(|k.v|, i requires 0 <= i < |k.v| => k.v[i] * scale))
  }

  function StoredAll(rows: seq<Key>, scale: real): (r: seq<Key>)
    ensures |r| == |rows| && forall i :: 0 <= i < |r| ==> r[i] == Stored(rows[i], scale)
  {
    seq(|rows|, i requires 0 <= i < |rows| => Stored(rows[i], scale))
  }

  predicate Sorted(rows: seq<Key>) {
    forall i, j :: 0 <= i < j < |rows| ==> rows[i].pos <= rows[j].pos
  }

  predicate Ascending(rows: seq<Key>) {
    forall i, j :: 0 <= i < j < |rows| ==> rows[i].pos < rows[j].pos
  }

  /** How many rows lie before position `x`, counted from the front. */
  function Below(rows: seq<Key>, x: int): (n: nat)
    ensures n <= |rows|
    ensures forall i :: 0 <= i < n ==> rows[i].pos < x
    ensures n < |rows| ==> rows[n].pos >= x
  {
    if rows == [] || rows[0].pos >= x then 0
    else
      var n := 1 + Below(rows[1..], x);
      assert forall i :: 1 <= i < n ==> rows[i] == rows[1..][i - 1];
      n
  }

  /** Where bisection for `x` ends, between `lo` and `hi`. */
  function BisectIn(rows: seq<Key>, x: int, lo: nat, hi: nat): (r: nat)
    requires lo <= hi <= |rows|
    ensures lo <= r <= hi
    decreases hi - lo
  {
    if lo == hi then lo
    else
      var mid := (lo + hi) / 2;
      if rows[mid].pos < x then BisectIn(rows, x, mid + 1, hi) else BisectIn(rows, x, lo, mid)
  }

  function Bisect(rows: seq<Key>, x: int): (r: nat)
    ensures r <= |rows|
  {
    BisectIn(rows, x, 0, |rows|)
  }

  /** On sorted rows bisection counts the rows before `x`. */
  lemma BisectIsBelow(rows: seq<Key>, x: int)
    requires Sorted(rows)
    ensures Bisect(rows, x) == Below(rows, x)
  {
    BisectParts(rows, x, 0, |rows|);
    BelowOf(rows, x, Bisect(rows, x));
  }

  lemma {:induction false} BisectParts(rows: seq<Key>, x: int, lo: nat, hi: nat)
    requires Sorted(rows) && lo <= hi <= |rows|
    requires (forall i :: 0 <= i < lo ==> rows[i].pos < x) && (forall i :: hi <= i < |rows| ==> rows[i].pos >= x)
    ensures var r := BisectIn(rows, x, lo, hi);
      (forall i :: 0 <= i < r ==> rows[i].pos < x) && (forall i :: r <= i < |rows| ==> rows[i].pos >= x)
    decreases hi - lo
  {
    if lo < hi {
      var mid := (lo + hi) / 2;
      if rows[mid].pos < x {
        BisectParts(rows, x, mid + 1, hi);
      } else {
        BisectParts(rows, x, lo, mid);
      }
    }
  }

  function MinPos(batch: seq<Key>): (p: int)
    requires batch != []
    ensures forall i :: 0 <= i < |batch| ==> p <= batch[i].pos
    ensures exists i :: 0 <= i < |batch| && batch[i].pos == p
  {
    if |batch| == 1 then batch[0].pos
    else
      var p := MinPos(batch[..|batch| - 1]);
      assert forall i :: 0 <= i < |batch| - 1 ==> batch[i] == batch[..|batch| - 1][i];
      if p <= batch[|batch| - 1].pos then p else batch[|batch| - 1].pos
  }

  /** Rows to drop from `rows`, whose last `t` are the batch: those before the window of the
      batch's first query, or what exceeds the window and the batch if that is more. */
  function DropCount(rows: seq<Key>, t: nat, window: nat): (n: nat)
    requires 0 < t <= |rows|
    ensures n <= |rows|
  {
    Min(|rows|, Max(Bisect(rows, KeepFrom(rows, t, window)), Trim(rows, t, window)))
  }

  function KeepFrom(rows: seq<Key>, t: nat, window: nat): int
    requires 0 < t <= |rows|
  {
    MinPos(From(rows, |rows| - t)) - window + 1
  }

  function Trim(rows: seq<Key>, t: nat, window: nat): nat {
    if |rows| > window + t then |rows| - (window + t) else 0
  }

  /** The rows after a batch is appended. */
  function Appended(rows: seq<Key>, batch: seq<Key>, window: nat): seq<Key>
    requires batch != []
  {
    var all := rows + batch;
    From(all, DropCount(all, |batch|, window))
  }

  /** The rows from `n` on. */
  function From(rows: seq<Key>, n: nat): (r: seq<Key>)
    requires n <= |rows|
    ensures |r| == |rows| - n && forall i :: 0 <= i < |r| ==> r[i] == rows[n + i]
  {
    rows[n..]
  }

  lemma FromFrom(rows: seq<Key>, a: nat, b: nat)
    requires a + b <= |rows|
    ensures From(From(rows, a), b) == From(rows, a + b)
  {
  }

  lemma FromSorted(rows: seq<Key>, n: nat)
    requires Sorted(rows) && n <= |rows|
    ensures Sorted(From(rows, n))
  {
  }

  // ---- What is dropped.

  /** Integers that strictly increase are at least as far apart as their indices. */
  lemma {:induction false} Spread(rows: seq<Key>, i: nat, j: nat)
    requires Ascending(rows) && i <= j < |rows|
    ensures rows[j].pos - rows[i].pos >= j - i
  {
    if i < j {
      Spread(rows, i, j - 1);
    }
  }

  lemma FirstIsMin(rows: seq<Key>, t: nat)
    requires Sorted(rows) && 0 < t <= |rows|
    ensures MinPos(From(rows, |rows| - t)) == rows[|rows| - t].pos
  {
    var b := From(rows, |rows| - t);
    var i :| 0 <= i < |b| && b[i].pos == MinPos(b);
    assert b[0] == rows[|rows| - t] && b[i] == rows[|rows| - t + i];
  }

  lemma KeepFirst(rows: seq<Key>, t: nat, window: nat)
    requires Sorted(rows) && 0 < t <= |rows|
    ensures KeepFrom(rows, t, window) == rows[|rows| - t].pos - window + 1
  {
    hide MinPos;
    FirstIsMin(rows, t);
  }

  /** With strictly increasing positions the length limit never drops a row that the window keeps,
      and at most the window before the batch stays in front of it. */
  lemma NeverTrims(rows: seq<Key>, t: nat, window: nat)
    requires Ascending(rows) && 0 < t <= |rows|
    ensures Trim(rows, t, window) <= Below(rows, KeepFrom(rows, t, window))
    ensures DropCount(rows, t, window) == Below(rows, KeepFrom(rows, t, window))
    ensures |rows| - DropCount(rows, t, window) <= window + t - 1
  {
    hide MinPos, From, Below, Bisect, Ascending, Sorted, KeepFrom;
    AscendingSorted(rows);
    BisectIsBelow(rows, KeepFrom(rows, t, window));
    KeepFirst(rows, t, window);
    var n, b := Below(rows, KeepFrom(rows, t, window)), |rows| - t;
    if n < b {
      Spread(rows, n, b);
    }
  }

  /** With positions that only do not decrease, which the store accepts, a row still in the window
      of the batch's first query is dropped exactly when more than `window + t` rows are. */
  lemma TrimLoses(rows: seq<Key>, t: nat, window: nat)
    requires Sorted(rows) && 0 < t <= |rows|
    ensures (exists i :: 0 <= i < DropCount(rows, t, window) && rows[i].pos >= KeepFrom(rows, t, window)) <==>
            |rows| - Below(rows, KeepFrom(rows, t, window)) > window + t
  {
    hide MinPos, KeepFrom, Bisect;
    BisectIsBelow(rows, KeepFrom(rows, t, window));
    var n, d := Below(rows, KeepFrom(rows, t, window)), DropCount(rows, t, window);
    if d > n {
      assert rows[n].pos >= KeepFrom(rows, t, window);
    }
  }

  /** It happens: three rows at one position, appended one at a time to a window of one. */
  lemma RepeatedPositions(k: seq<real>, v: seq<real>)
    ensures var r := Key(0, k, v);
      Appended(Appended(Appended([], [r], 1), [r], 1), [r], 1) == [r, r] && Query([], 1.0, 0, Some(1)).Visible(r)
  {
    hide Appended, From;
    var r := Key(0, k, v);
    OneMore([], r, 0);
    OneMore([r], r, 0);
    OneMore([r, r], r, 1);
  }

  /** Another row at the position of the rows held, in a window of one. */
  lemma OneMore(rows: seq<Key>, r: Key, n: nat)
    requires (forall i :: 0 <= i < |rows| ==> rows[i] == r) && n == (if |rows| >= 2 then |rows| - 1 else 0)
    ensures Appended(rows, [r], 1) == From(rows + [r], n)
    ensures |rows| <= 2 ==> Appended(rows, [r], 1) == (if |rows| == 0 then [r] else [r, r])
  {
    hide From, MinPos, Below;
    var all := rows + [r];
    assert From(all, |all| - 1)[0] == r;
    assert KeepFrom(all, 1, 1) == r.pos;
    BelowOf(all, r.pos, 0);
  }

  /** The rows kept of a history: those from position `from` on. */
  ghost predicate Suffix(rows: seq<Key>, hist: seq<Key>, from: int) {
    rows == From(hist, Below(hist, from))
  }

  lemma BelowOf(rows: seq<Key>, x: int, n: nat)
    requires Sorted(rows) && n <= |rows| && (forall i :: 0 <= i < n ==> rows[i].pos < x) && (n < |rows| ==> rows[n].pos >= x)
    ensures Below(rows, x) == n
  {
  }

  lemma AscendingSorted(rows: seq<Key>)
    requires Ascending(rows)
    ensures Sorted(rows)
  {
  }

  /** After every batch of a run with strictly increasing positions the ring holds exactly the
      history from the window of the batch's first query on, and no more than `window - 1` rows
      before the batch. */
  lemma AppendKeepsWindow(rows: seq<Key>, hist: seq<Key>, from: int, batch: seq<Key>, window: nat)
    requires Suffix(rows, hist, from) && batch != [] && Ascending(hist + batch)
    requires from <= batch[0].pos - window + 1
    ensures Suffix(Appended(rows, batch, window), hist + batch, batch[0].pos - window + 1)
    ensures |Appended(rows, batch, window)| <= window + |batch| - 1
  {
    hide MinPos, From, Below, DropCount, Trim, KeepFrom;
    var cut, t := Below(hist, from), |batch|;
    var all, whole := rows + batch, hist + batch;
    JoinFrom(hist, batch, cut);
    AscendingFrom(whole, cut);
    AscendingSorted(all);
    AscendingSorted(whole);
    NeverTrims(all, t, window);
    KeepFromIs(rows, batch, window);
    hide Ascending, Sorted;
    var keep := batch[0].pos - window + 1;
    var n := Below(all, keep);
    BelowJoined(hist, batch, cut, n, keep);
    FromFrom(whole, cut, n);
  }

  lemma KeepFromIs(rows: seq<Key>, batch: seq<Key>, window: nat)
    requires Sorted(rows + batch) && batch != []
    ensures KeepFrom(rows + batch, |batch|, window) == batch[0].pos - window + 1
  {
    hide MinPos, From;
    FirstIsMin(rows + batch, |batch|);
  }

  lemma JoinFrom(hist: seq<Key>, batch: seq<Key>, cut: nat)
    requires cut <= |hist|
    ensures From(hist, cut) + batch == From(hist + batch, cut)
  {
  }

  lemma AscendingFrom(rows: seq<Key>, n: nat)
    requires Ascending(rows) && n <= |rows|
    ensures Ascending(From(rows, n))
  {
  }

  /** The rows already dropped lie before the new limit too. */
  lemma BelowJoined(hist: seq<Key>, batch: seq<Key>, cut: nat, n: nat, keep: int)
    requires cut <= |hist| && Sorted(hist + batch) && n == Below(From(hist + batch, cut), keep)
    requires forall i :: 0 <= i < cut ==> hist[i].pos < keep
    ensures Below(hist + batch, keep) == cut + n
  {
    hide Below;
    var whole := hist + batch;
    var all := From(whole, cut);
    forall i | 0 <= i < cut + n
      ensures whole[i].pos < keep
    {
      if i >= cut {
        assert whole[i] == all[i - cut];
      }
    }
    BelowOf(whole, keep, cut + n);
  }

  function HistAfter(batches: seq<seq<Key>>, k: nat): seq<Key>
    requires k <= |batches|
  {
    if k == 0 then [] else HistAfter(batches, k - 1) + batches[k - 1]
  }

  function RingAfter(batches: seq<seq<Key>>, k: nat, window: nat): seq<Key>
    requires k <= |batches| && forall i :: 0 <= i < |batches| ==> batches[i] != []
  {
    if k == 0 then [] else Appended(RingAfter(batches, k - 1, window), batches[k - 1], window)
  }

  lemma AfterStep(batches: seq<seq<Key>>, k: nat, window: nat)
    requires 0 < k <= |batches| && forall i :: 0 <= i < |batches| ==> batches[i] != []
    ensures HistAfter(batches, k) == HistAfter(batches, k - 1) + batches[k - 1]
    ensures RingAfter(batches, k, window) == Appended(RingAfter(batches, k - 1, window), batches[k - 1], window)
  {
    hide Appended;
  }

  lemma AfterNone(batches: seq<seq<Key>>, window: nat, from: int)
    requires forall i :: 0 <= i < |batches| ==> batches[i] != []
    ensures HistAfter(batches, 0) == [] && RingAfter(batches, 0, window) == [] && Suffix([], [], from)
  {
  }

  /** Over any run of batches with strictly increasing positions, the ring after each batch is the
      history from that batch's first window on, and no longer than `window - 1` and the batch. */
  lemma {:induction false} RunKeepsWindow(batches: seq<seq<Key>>, k: nat, window: nat)
    requires 0 < k <= |batches| && (forall i :: 0 <= i < |batches| ==> batches[i] != []) && Ascending(HistAfter(batches, k))
    ensures Suffix(RingAfter(batches, k, window), HistAfter(batches, k), batches[k - 1][0].pos - window + 1)
    ensures |RingAfter(batches, k, window)| <= window + |batches[k - 1]| - 1
  {
    hide Appended, Suffix, Ascending, HistAfter, RingAfter;
    var hist, batch := HistAfter(batches, k - 1), batches[k - 1];
    AfterStep(batches, k, window);
    AfterNone(batches, window, batch[0].pos - window + 1);
    if k > 1 {
      AscendingPrefix(hist, batch);
      FirstsAscend(batches, k);
      RunKeepsWindow(batches, k - 1, window);
      AppendKeepsWindow(RingAfter(batches, k - 1, window), hist, batches[k - 2][0].pos - window + 1, batch, window);
    } else {
      AppendKeepsWindow([], [], batch[0].pos - window + 1, batch, window);
    }
  }

  lemma FirstsAscend(batches: seq<seq<Key>>, k: nat)
    requires 2 <= k <= |batches| && (forall i :: 0 <= i < |batches| ==> batches[i] != []) && Ascending(HistAfter(batches, k))
    ensures batches[k - 2][0].pos < batches[k - 1][0].pos
  {
    var a, b, c := HistAfter(batches, k - 2), batches[k - 2], batches[k - 1];
    assert HistAfter(batches, k) == (a + b) + c;
    hide HistAfter;
    assert (a + b + c)[|a|] == b[0] && (a + b + c)[|a| + |b|] == c[0];
  }

  lemma AscendingPrefix(a: seq<Key>, b: seq<Key>)
    requires Ascending(a + b)
    ensures Ascending(a) && forall i, j :: 0 <= i < |a| && 0 <= j < |b| ==> a[i].pos < b[j].pos
  {
    var s := a + b;
    assert forall i :: 0 <= i < |a| ==> a[i] == s[i];
    assert forall j :: 0 <= j < |b| ==> b[j] == s[|a| + j];
  }

  /** A query sees nothing in the rows before its window. */
  lemma {:induction false} NoneSeen(x: Query, keys: seq<Key>, d: nat, lo: nat, hi: nat)
    requires Fits(x, keys, d) && lo <= hi <= |keys| && forall i :: lo <= i < hi ==> !x.Visible(keys[i])
    ensures Terms(x, keys, d, lo, hi) == []
    decreases hi
  {
    if lo < hi {
      NoneSeen(x, keys, d, lo, hi - 1);
    }
  }

  lemma {:induction false} TermsShift(x: Query, keys: seq<Key>, d: nat, cut: nat, hi: nat)
    requires Fits(x, keys, d) && cut <= hi <= |keys|
    ensures Fits(x, From(keys, cut), d) && Terms(x, From(keys, cut), d, 0, hi - cut) == Terms(x, keys, d, cut, hi)
    decreases hi
  {
    hide From;
    if cut < hi {
      TermsShift(x, keys, d, cut, hi - 1);
    }
  }

  /** Attention of a query of the batch, or of any later one, over the ring is attention over the
      whole history. */
  lemma RingAttends(e: Exp, x: Query, rows: seq<Key>, hist: seq<Key>, from: int, window: nat, sink: Option<real>, d: nat)
    requires Suffix(rows, hist, from) && Sorted(hist) && Fits(x, hist, d)
    requires x.window == Some(window) && x.pos >= from + window - 1
    ensures Fits(x, rows, d)
    ensures Row(e, Terms(x, rows, d, 0, |rows|), sink, d) == Row(e, Terms(x, hist, d, 0, |hist|), sink, d)
  {
    hide Row, From, Below, Terms, Sorted;
    var cut := Below(hist, from);
    forall i | 0 <= i < cut
      ensures !x.Visible(hist[i])
    {
      assert hist[i].pos < from;
    }
    SkipUnseen(x, hist, d, cut);
  }

  lemma SkipUnseen(x: Query, hist: seq<Key>, d: nat, cut: nat)
    requires Fits(x, hist, d) && cut <= |hist| && forall i :: 0 <= i < cut ==> !x.Visible(hist[i])
    ensures Fits(x, From(hist, cut), d)
    ensures Terms(x, From(hist, cut), d, 0, |hist| - cut) == Terms(x, hist, d, 0, |hist|)
  {
    hide From, Terms, Query.Visible;
    TermsJoin(x, hist, d, 0, cut, |hist|);
    NoneSeen(x, hist, d, 0, cut);
    TermsShift(x, hist, d, cut, |hist|);
    assert [] + Terms(x, hist, d, cut, |hist|) == Terms(x, hist, d, cut, |hist|);
  }

  /** The first row at or after `x` when the rows are sorted, and whatever the rows where their
      bisection ends. */
  method LowerBound(rows: seq<Key>, x: int) returns (lo: nat)
    ensures lo == Bisect(rows, x)
    ensures Sorted(rows) ==> lo == Below(rows, x)
  {
    hide Below, Sorted;
    lo := 0;
    var hi := |rows|;
    while lo < hi
      invariant lo <= hi <= |rows| && BisectIn(rows, x, lo, hi) == Bisect(rows, x)
    {
      var mid := (lo + hi) / 2;
      if rows[mid].pos < x {
        lo := mid + 1;
      } else {
        hi := mid;
      }
    }
    if Sorted(rows) {
      BisectIsBelow(rows, x);
    }
  }

  /** The store as a list. */
  class SwaRing {
    var rows: seq<Key>
    const window: nat
    const scale: real

    constructor (window: nat, scale: real)
      ensures rows == [] && this.window == window && this.scale == scale
    {
      rows, this.window, this.scale := [], window, scale;
    }

    /** Append a batch and evict. Fails, changing nothing, when the batch starts before the last
        row held; what follows its first row is not checked. */
    method Append(raw: seq<Key>) returns (ok: bool)
      modifies this
      ensures ok <==> raw == [] || old(rows) == [] || raw[0].pos >= old(rows)[|old(rows)| - 1].pos
      ensures rows == if ok && raw != [] then Appended(old(rows), StoredAll(raw, scale), window) else old(rows)
      ensures ok && Sorted(old(rows)) && Sorted(raw) ==> Sorted(rows)
    {
      hide DropCount, Stored, From;
      if raw == [] {
        return true;
      }
      if rows != [] && raw[0].pos < rows[|rows| - 1].pos {
        return false;
      }
      var batch := StoredAll(raw, scale);
      PositionsStay(raw, scale);
      var all := rows + batch;
      var drop := Drops(all, |batch|, window);
      if Sorted(rows) && Sorted(raw) {
        assert Sorted(all);
        FromSorted(all, drop);
      }
      rows := From(all, drop);
      return true;
    }
  }

  /** How many rows to drop, as both stores compute it. */
  method Drops(all: seq<Key>, t: nat, window: nat) returns (drop: nat)
    requires 0 < t <= |all|
    ensures drop == DropCount(all, t, window)
  {
    hide MinPos, Below, Bisect, Sorted;
    var least := LeastPos(From(all, |all| - t));
    var keep := LowerBound(all, least - window + 1);
    var trim := if |all| > window + t then |all| - (window + t) else 0;
    drop := Min(|all|, Max(keep, trim));
  }

  lemma PositionsStay(raw: seq<Key>, scale: real)
    ensures forall i :: 0 <= i < |raw| ==> StoredAll(raw, scale)[i].pos == raw[i].pos
  {
  }

  method LeastPos(batch: seq<Key>) returns (p: int)
    requires batch != []
    ensures p == MinPos(batch)
  {
    p := batch[0].pos;
    var i := 1;
    assert MinPos(batch[..1]) == p;
    hide MinPos;
    while i < |batch|
      invariant 1 <= i <= |batch| && p == MinPos(batch[..i])
    {
      MinPush(batch, i);
      p := if p <= batch[i].pos then p else batch[i].pos;
      i := i + 1;
    }
    assert batch[..|batch|] == batch;
  }

  lemma MinPush(batch: seq<Key>, i: nat)
    requires 1 <= i < |batch|
    ensures MinPos(batch[..i + 1]) == if MinPos(batch[..i]) <= batch[i].pos then MinPos(batch[..i]) else batch[i].pos
  {
    assert batch[..i + 1][..i] == batch[..i];
  }

  /** The store as a buffer that doubles when full and shifts its rows down on eviction. */
  class Buffer {
    var buf: array<Key>
    var n: nat
    const window: nat
    const windowed: bool

    ghost predicate Valid()
      reads this
    {
      n <= buf.Length
    }

    ghost function Contents(): seq<Key>
      reads this, buf
      requires Valid()
    {
      buf[..n]
    }

    constructor (windowed: bool, window: nat)
      ensures Valid() && Contents() == [] && fresh(buf) && this.window == window && this.windowed == windowed
    {
      buf, n, this.window, this.windowed := new Key[0], 0, window, windowed;
    }

    /** A buffer of at least `need` rows, doubled as often as it takes, with the same contents. */
    method Grow(need: nat)
      requires Valid()
      modifies this`buf
      ensures Valid() && Contents() == old(Contents()) && buf.Length >= need && fresh(buf) && n == old(n)
    {
      var cap := if buf.Length == 0 then 8 else buf.Length * 2;
      while cap < need
        invariant cap >= 1 && cap >= buf.Length
        decreases need - cap
      {
        cap := cap * 2;
      }
      var was := buf;
      var now := new Key[cap](_ => Key(0, [], []));
      var i := 0;
      while i < was.Length
        invariant i <= was.Length <= now.Length && now[..i] == was[..i]
        invariant was[..] == old(buf[..])
      {
        now[i] := was[i];
        i := i + 1;
      }
      buf := now;
      assert buf[..n] == now[..was.Length][..n] == was[..was.Length][..n];
    }

    /** Append a batch; on a windowed layer evict in place. */
    method Append(batch: seq<Key>) returns (ok: bool)
      requires Valid()
      modifies this, buf
      ensures Valid() && (buf == old(buf) || fresh(buf))
      ensures ok <==> batch == [] || old(n) == 0 || batch[0].pos >= old(Contents())[old(n) - 1].pos
      ensures Contents() == if !ok || batch == [] then old(Contents())
                            else if windowed then Appended(old(Contents()), batch, window) else old(Contents()) + batch
    {
      if batch == [] {
        return true;
      }
      if n > 0 && batch[0].pos < buf[n - 1].pos {
        return false;
      }
      if n + |batch| > buf.Length {
        Grow(n + |batch|);
      }
      Write(batch);
      ok := true;
      if windowed {
        Evict(|batch|);
      }
    }

    /** Write a batch behind the rows. */
    method Write(batch: seq<Key>)
      requires Valid() && n + |batch| <= buf.Length
      modifies this`n, buf
      ensures Valid() && Contents() == old(Contents()) + batch
    {
      var i := 0;
      while i < |batch|
        invariant i <= |batch| && n == old(n) && buf[..n + i] == old(Contents()) + batch[..i]
      {
        buf[n + i] := batch[i];
        i := i + 1;
      }
      n := n + |batch|;
      assert batch[..|batch|] == batch;
    }

    /** Drop what no query can see any more, shifting the rest to the front. */
    method Evict(t: nat)
      requires Valid() && 0 < t <= n
      modifies this`n, buf
      ensures Valid() && Contents() == From(old(Contents()), DropCount(old(Contents()), t, window))
    {
      hide DropCount, From;
      var drop := Drops(buf[..n], t, window);
      ShiftDown(drop);
    }

    /** Move the rows from `drop` on to the front. */
    method ShiftDown(drop: nat)
      requires Valid() && drop <= n
      modifies this`n, buf
      ensures Valid() && Contents() == From(old(Contents()), drop)
    {
      hide From;
      var i := 0;
      while i < n - drop
        invariant i <= n - drop && n == old(n)
        invariant forall k :: 0 <= k < i ==> buf[k] == old(buf[drop + k])
        invariant forall k :: i <= k < n ==> buf[k] == old(buf[k])
      {
        buf[i] := buf[drop + i];
        i := i + 1;
      }
      n := n - drop;
      assert forall k :: 0 <= k < n ==> Contents()[k] == old(Contents())[drop + k];
    }
  }
}
