/** How a prompt is cut into chunks for the prefill: full chunks and a remainder over a serial
    transport; over a pipelined one an even count of balanced chunks, run as pairs. */
module Chunks {
  /** The smallest lane worth a second exchange. */
  const PAIR_MIN: nat := 64

  datatype Span = Span(start: nat, len: nat)

  function DivCeil(n: nat, k: nat): nat
    requires k > 0
  {
    (n + k - 1) / k
  }

  /** How many chunks `n` tokens are cut into when chunks run in pairs. */
  function PairedCount(n: nat, maxChunk: nat): nat
    requires maxChunk > 0
  {
    var c := DivCeil(n, maxChunk);
    if c % 2 == 1 && n >= 2 * PAIR_MIN then c + 1 else c
  }

  /** The rows of an even share, rounded down. */
  function Share(n: nat, c: nat): nat {
    if c == 0 then 0 else n / c
  }

  /** The spans lie end to end from 0 to `n`. */
  ghost predicate Covers(spans: seq<Span>, n: nat) {
    if spans == [] then n == 0
    else
      var last := spans[|spans| - 1];
      last.start + last.len == n && Covers(spans[..|spans| - 1], last.start)
  }

  ghost predicate AllWithin(spans: seq<Span>, lo: nat, hi: nat) {
    forall i :: 0 <= i < |spans| ==> lo <= spans[i].len <= hi
  }

  /** No chunk is longer than one before it. */
  ghost predicate Descending(spans: seq<Span>) {
    forall i, j :: 0 <= i < j < |spans| ==> spans[i].len >= spans[j].len
  }

  // ---- Division.

  lemma DivFacts(n: nat, c: nat)
    requires c > 0
    ensures n == c * (n / c) + n % c && n % c < c
  {
  }

  lemma MulMono(a: nat, b: nat, c: nat)
    requires a <= b
    ensures a * c <= b * c
  {
    assert b * c == a * c + (b - a) * c;
  }

  lemma DivCeilFacts(n: nat, k: nat)
    requires k > 0
    ensures n <= DivCeil(n, k) * k < n + k
  {
    DivFacts(n + k - 1, k);
  }

  lemma HalfEnough(n: nat, d: nat, k: nat)
    requires k >= 2 && d * k < n + k
    ensures 2 * d <= n + 1
  {
    if d > 0 {
      MulMono(2, k, d - 1);
      assert d * k == k * (d - 1) + k;
    }
  }

  /** `c` chunks are enough, and a chunk is never empty, except for one configuration. */
  lemma PairedBounds(n: nat, maxChunk: nat)
    requires n > 0 && maxChunk > 0
    ensures var c := PairedCount(n, maxChunk); c > 0 && n <= c * maxChunk
    ensures PairedCount(n, maxChunk) <= n <==> !(maxChunk == 1 && n % 2 == 1 && n >= 2 * PAIR_MIN)
  {
    var d, c := DivCeil(n, maxChunk), PairedCount(n, maxChunk);
    DivCeilFacts(n, maxChunk);
    MulMono(d, c, maxChunk);
    if maxChunk >= 2 {
      HalfEnough(n, d, maxChunk);
    }
  }

  /** Balanced chunks fit. */
  lemma BalancedFits(n: nat, c: nat, maxChunk: nat)
    requires c > 0 && n <= c * maxChunk
    ensures Share(n, c) + (if n % c > 0 then 1 else 0) <= maxChunk
    ensures c <= n <==> Share(n, c) >= 1
  {
    DivFacts(n, c);
    if n / c > maxChunk {
      MulMono(maxChunk + 1, n / c, c);
      assert (maxChunk + 1) * c == maxChunk * c + c;
    }
    if n / c >= 1 {
      MulMono(1, n / c, c);
      assert n / c * c == c * (n / c);
    }
  }

  lemma {:induction false} CoversAppend(spans: seq<Span>, n: nat, t: nat)
    requires Covers(spans, n)
    ensures Covers(spans + [Span(n, t)], n + t)
  {
    var all := spans + [Span(n, t)];
    assert all[..|all| - 1] == spans;
  }

  /** The chunks of `n > 0` tokens. They lie end to end and are at most `maxChunk` long; run in
      pairs they differ by at most one row, come in an even number from two `PAIR_MIN`s on, and
      none is empty unless chunks are single rows and an odd count has to be evened out. */
  method ChunkSpans(n: nat, maxChunk: nat, paired: bool) returns (spans: seq<Span>)
    requires n > 0 && maxChunk > 0
    ensures spans != [] && Covers(spans, n) && AllWithin(spans, 0, maxChunk) && Descending(spans)
    ensures AllWithin(spans, 1, maxChunk) <==> !(paired && maxChunk == 1 && n % 2 == 1 && n >= 2 * PAIR_MIN)
    ensures paired ==> AllWithin(spans, Share(n, PairedCount(n, maxChunk)), Share(n, PairedCount(n, maxChunk)) + 1)
    ensures paired ==> |spans| == PairedCount(n, maxChunk) && (n >= 2 * PAIR_MIN ==> |spans| % 2 == 0)
    ensures !paired ==> |spans| == DivCeil(n, maxChunk) && AllWithin(spans[..|spans| - 1], maxChunk, maxChunk)
  {
    hide DivCeil, Covers, Share, PairedCount;
    if paired {
      spans := Paired(n, maxChunk);
    } else {
      spans := Serial(n, maxChunk);
      assert forall i :: 0 <= i < |spans| - 1 ==> spans[i] == spans[..|spans| - 1][i];
    }
  }

  /** Balanced chunks, an even number of them once both lanes are worth an exchange. */
  method Paired(n: nat, maxChunk: nat) returns (spans: seq<Span>)
    requires n > 0 && maxChunk > 0
    ensures spans != [] && Covers(spans, n) && AllWithin(spans, 0, maxChunk) && Descending(spans)
    ensures AllWithin(spans, 1, maxChunk) <==> !(maxChunk == 1 && n % 2 == 1 && n >= 2 * PAIR_MIN)
    ensures AllWithin(spans, Share(n, PairedCount(n, maxChunk)), Share(n, PairedCount(n, maxChunk)) + 1)
    ensures |spans| == PairedCount(n, maxChunk) && (n >= 2 * PAIR_MIN ==> |spans| % 2 == 0)
  {
    hide DivCeil, Covers, Share, AllWithin, Descending;
    var c := DivCeil(n, maxChunk);
    if c % 2 == 1 && n >= 2 * PAIR_MIN {
      c := c + 1;
    }
    PairedBounds(n, maxChunk);
    spans := Balanced(n, c);
    BalancedSizes(spans, n, c, maxChunk);
  }

  /** The sizes of balanced chunks. */
  lemma BalancedSizes(spans: seq<Span>, n: nat, c: nat, maxChunk: nat)
    requires c > 0 && n <= c * maxChunk && |spans| == c
    requires forall i :: 0 <= i < c ==> spans[i].len == Share(n, c) + (if i < n % c then 1 else 0)
    ensures AllWithin(spans, 0, maxChunk) && Descending(spans) && AllWithin(spans, Share(n, c), Share(n, c) + 1)
    ensures AllWithin(spans, 1, maxChunk) <==> c <= n
  {
    BalancedFits(n, c, maxChunk);
    hide Share;
    assert n % c < c;
    assert spans[c - 1].len == Share(n, c);
  }

  /** `c` chunks, the first `n % c` of them one row longer. */
  method Balanced(n: nat, c: nat) returns (spans: seq<Span>)
    requires c > 0
    ensures |spans| == c && Covers(spans, n)
    ensures forall i :: 0 <= i < c ==> spans[i].len == Share(n, c) + (if i < n % c then 1 else 0)
  {
    hide Times;
    Division(n, c);
    var base, rem := n / c, n % c;
    spans := [];
    var s: nat := 0;
    var i: nat := 0;
    while i < c
      invariant i <= c && |spans| == i && Covers(spans, s)
      invariant s == Times(base, i) + (if i < rem then i else rem)
      invariant forall j :: 0 <= j < i ==> spans[j].len == base + (if j < rem then 1 else 0)
    {
      var t := base + (if i < rem then 1 else 0);
      CoversAppend(spans, s, t);
      TimesStep(base, i);
      spans := spans + [Span(s, t)];
      s := s + t;
      i := i + 1;
    }
  }

  function Times(a: nat, i: nat): nat { a * i }

  lemma TimesStep(a: nat, i: nat)
    ensures Times(a, 0) == 0 && Times(a, i + 1) == Times(a, i) + a
  {
  }

  lemma Division(n: nat, c: nat)
    requires c > 0
    ensures n == Times(n / c, c) + n % c && n % c < c && Times(n / c, 0) == 0
  {
    DivFacts(n, c);
  }

  /** Full chunks, then the remainder. */
  method Serial(n: nat, maxChunk: nat) returns (spans: seq<Span>)
    requires n > 0 && maxChunk > 0
    ensures spans != [] && Covers(spans, n) && AllWithin(spans, 1, maxChunk)
    ensures |spans| == DivCeil(n, maxChunk) && AllWithin(spans[..|spans| - 1], maxChunk, maxChunk)
  {
    spans := [];
    var s: nat := 0;
    while s < n
      invariant s <= n && Covers(spans, s) && AllWithin(spans, 1, maxChunk)
      invariant if s < n then s == |spans| * maxChunk else 0 < |spans| && (|spans| - 1) * maxChunk < n <= |spans| * maxChunk
      invariant if s < n then AllWithin(spans, maxChunk, maxChunk) else |spans| > 0 && AllWithin(spans[..|spans| - 1], maxChunk, maxChunk)
    {
      var t := if n - s < maxChunk then n - s else maxChunk;
      CoversAppend(spans, s, t);
      assert (spans + [Span(s, t)])[..|spans|] == spans;
      assert (|spans| + 1) * maxChunk == |spans| * maxChunk + maxChunk;
      spans := spans + [Span(s, t)];
      s := s + t;
    }
    CeilUnique(n, maxChunk, |spans|);
  }

  lemma CeilUnique(n: nat, k: nat, c: nat)
    requires k > 0 && c > 0 && (c - 1) * k < n <= c * k
    ensures DivCeil(n, k) == c
  {
    DivCeilFacts(n, k);
    var d := DivCeil(n, k);
    if d > c {
      MulMono(c, d - 1, k);
    } else if d < c {
      MulMono(d, c - 1, k);
    }
  }
}
