/** How many proposals a speculative step verifies per request. The drafter's probabilities give
    each proposal's chance of being reached and accepted; verifying costs `a + b * rows` for all
    requests' rows together. Probabilities and costs are exact numbers here. */
module VerifyLengths {
  import opened Basics

  const DRAFTS: nat := 7

  function Clamp(p: real): (r: real)
    ensures 0.0 <= r <= 1.0
  {
    if p < 0.0 then 0.0 else if p > 1.0 then 1.0 else p
  }

  /** The chance that proposals 1 to `j` are all accepted. */
  function Chance(p: seq<real>, j: nat): (r: real)
    requires j <= |p|
    ensures 0.0 <= r <= 1.0
  {
    if j == 0 then 1.0 else Shrinks(Chance(p, j - 1), Clamp(p[j - 1])); Chance(p, j - 1) * Clamp(p[j - 1])
  }

  lemma Shrinks(x: real, y: real)
    requires 0.0 <= x && 0.0 <= y <= 1.0
    ensures 0.0 <= x * y <= x
  {
    assert x * (1.0 - y) == x - x * y;
  }

  lemma ChanceZero(p: seq<real>)
    ensures Chance(p, 0) == 1.0
  {
  }

  lemma ChanceStep(p: seq<real>, j: nat)
    requires 0 < j <= |p|
    ensures Chance(p, j) == Chance(p, j - 1) * Clamp(p[j - 1]) <= Chance(p, j - 1)
  {
    Shrinks(Chance(p, j - 1), Clamp(p[j - 1]));
  }

  lemma ChanceDrops(p: seq<real>, j: nat)
    requires 0 < j <= |p|
    ensures Chance(p, j) <= Chance(p, j - 1)
  {
    hide Chance;
    ChanceStep(p, j);
  }

  lemma {:induction false} ChanceFalls(p: seq<real>, i: nat, j: nat)
    requires i <= j <= |p|
    ensures Chance(p, j) <= Chance(p, i)
    decreases j
  {
    hide Chance;
    if i < j {
      ChanceFalls(p, i, j - 1);
      ChanceDrops(p, j);
    }
  }

  /** The chain cut: verify while the chance of the whole chain stays at or above `tau`. The
      result is the number of proposals, of the first `cap`, whose chance is at least `tau`. */
  method ChainLength(p: seq<real>, cap: nat, tau: real) returns (k: nat)
    requires |p| == DRAFTS
    ensures k <= Min(cap, DRAFTS)
    ensures forall j :: 1 <= j <= Min(cap, DRAFTS) ==> (j <= k <==> Chance(p, j) >= tau)
  {
    var q := 1.0;
    var j := 0;
    hide Chance;
    ChanceZero(p);
    while j < Min(cap, DRAFTS)
      invariant j <= Min(cap, DRAFTS) && q == Chance(p, j)
      invariant forall i :: 1 <= i <= j ==> Chance(p, i) >= tau
    {
      ChanceStep(p, j + 1);
      q := q * Clamp(p[j]);
      if q < tau {
        forall i | j + 1 <= i <= Min(cap, DRAFTS)
          ensures Chance(p, i) < tau
        {
          ChanceFalls(p, j + 1, i);
        }
        return j;
      }
      j := j + 1;
    }
    return j;
  }

  // ---- Candidate rows.

  datatype Cand = Cand(req: nat, depth: nat, q: real)

  function Cands(i: nat, p: seq<real>, k: nat): (r: seq<Cand>)
    requires k <= |p|
    ensures |r| == k
  {
    seq(k, j requires 0 <= j < k => Cand(i, j + 1, Chance(p, j + 1)))
  }

  /** The candidates of request `i`, in order. */
  function Of(c: seq<Cand>, i: nat): seq<Cand> {
    if c == [] then [] else (if c[0].req == i then [c[0]] else []) + Of(c[1..], i)
  }

  lemma OfCons(x: Cand, c: seq<Cand>, i: nat)
    ensures Of([x] + c, i) == (if x.req == i then [x] else []) + Of(c, i)
  {
    assert ([x] + c)[1..] == c;
  }

  lemma {:induction false} OfAppend(x: seq<Cand>, y: seq<Cand>, i: nat)
    ensures Of(x + y, i) == Of(x, i) + Of(y, i)
    decreases |x|
  {
    if x == [] {
      assert x + y == y;
    } else {
      hide Of;
      OfAppend(x[1..], y, i);
      OfCons(x[0], x[1..], i);
      OfCons(x[0], x[1..] + y, i);
      assert x == [x[0]] + x[1..] && x + y == [x[0]] + (x[1..] + y);
    }
  }

  lemma {:induction false} OfAll(c: seq<Cand>, r: nat, i: nat)
    requires forall j :: 0 <= j < |c| ==> c[j].req == r
    ensures Of(c, i) == if i == r then c else []
    decreases |c|
  {
    if c != [] {
      OfAll(c[1..], r, i);
    }
  }

  lemma {:induction false} OfMember(c: seq<Cand>, k: nat)
    requires k < |c|
    ensures c[k] in Of(c, c[k].req)
    decreases |c|
  {
    if k > 0 {
      OfMember(c[1..], k - 1);
      assert c[1..][k - 1] == c[k];
    }
  }

  /** Best first; rows of equal chance keep their order. */
  predicate Falling(c: seq<Cand>) {
    forall j, k :: 0 <= j < k < |c| ==> c[j].q >= c[k].q
  }

  /** Put `x` before everything no better than it. */
  function Insert(x: Cand, c: seq<Cand>): (r: seq<Cand>)
    requires Falling(c)
    ensures Falling(r) && |r| == |c| + 1 && forall k :: 0 <= k < |r| ==> r[k] == x || r[k] in c
  {
    if c == [] || x.q >= c[0].q then [x] + c
    else
      var rest := Insert(x, c[1..]);
      assert forall k :: 0 <= k < |rest| ==> rest[k].q <= c[0].q;
      [c[0]] + rest
  }

  /** The stable sort, best first. */
  function Sorted(c: seq<Cand>): (r: seq<Cand>)
    ensures Falling(r) && |r| == |c|
  {
    if c == [] then [] else Insert(c[0], Sorted(c[1..]))
  }

  lemma FallingRest(c: seq<Cand>)
    requires Falling(c) && c != []
    ensures Falling(c[1..])
  {
    forall j, k | 0 <= j < k < |c[1..]|
      ensures c[1..][j].q >= c[1..][k].q
    {
      assert c[1..][j] == c[j + 1] && c[1..][k] == c[k + 1];
    }
  }

  lemma {:induction false} InsertOf(x: Cand, c: seq<Cand>, i: nat)
    requires Falling(c) && forall y :: y in Of(c, x.req) ==> x.q >= y.q
    ensures Of(Insert(x, c), i) == (if x.req == i then [x] else []) + Of(c, i)
    decreases |c|
  {
    hide Falling, Of;
    if c == [] || x.q >= c[0].q {
      OfCons(x, c, i);
    } else {
      var rest := c[1..];
      assert c[0].req != x.req by {
        OfMember(c, 0);
      }
      OfCons(c[0], rest, i);
      OfCons(c[0], rest, x.req);
      assert c == [c[0]] + rest;
      FallingRest(c);
      InsertOf(x, rest, i);
      OfCons(c[0], Insert(x, rest), i);
    }
  }

  /** Sorting keeps each request's own rows in depth order, because a deeper row is never
      better: the chain is never entered in the middle. */
  lemma {:induction false} SortedOf(c: seq<Cand>, i: nat)
    requires forall r: nat :: Falling(Of(c, r))
    ensures Of(Sorted(c), i) == Of(c, i)
    decreases |c|
  {
    if c != [] {
      var x, rest := c[0], c[1..];
      forall r: nat
        ensures Falling(Of(rest, r))
      {
        assert Falling(Of(c, r));
        assert forall k :: 0 <= k < |Of(rest, r)| ==> Of(rest, r)[k] == Of(c, r)[k + (if x.req == r then 1 else 0)];
      }
      SortedOf(rest, i);
      SortedOf(rest, x.req);
      assert Falling(Of(c, x.req));
      forall y | y in Of(Sorted(rest), x.req)
        ensures x.q >= y.q
      {
        var k :| 0 <= k < |Of(rest, x.req)| && Of(rest, x.req)[k] == y;
        assert Of(c, x.req)[k + 1] == y && Of(c, x.req)[0] == x;
      }
      InsertOf(x, Sorted(rest), i);
    }
  }

  // ---- The objective.

  /** Expected accepted proposals of one request when `k` are verified. */
  function Gain(p: seq<real>, k: nat): real
    requires k <= |p|
  {
    if k == 0 then 0.0 else Gain(p, k - 1) + Chance(p, k)
  }

  /** Expected tokens of a step, and its rows: each request also emits, and verifies, one of its
      own. */
  function Tokens(probs: seq<seq<real>>, ks: seq<nat>): real
    requires |probs| == |ks| && forall i :: 0 <= i < |ks| ==> ks[i] <= |probs[i]|
  {
    if ks == [] then 0.0 else 1.0 + Gain(probs[0], ks[0]) + Tokens(probs[1..], ks[1..])
  }

  function Rows(ks: seq<nat>): nat {
    if ks == [] then 0 else 1 + ks[0] + Rows(ks[1..])
  }

  ghost predicate Within(probs: seq<seq<real>>, caps: seq<nat>, ks: seq<nat>) {
    && |ks| == |caps| == |probs|
    && forall i :: 0 <= i < |ks| ==> ks[i] <= Min(caps[i], DRAFTS) && |probs[i]| == DRAFTS
  }

  // ---- The greedy choice.

  lemma NoneOf()
    ensures forall i: nat :: Of([], i) == []
  {
  }

  lemma NoCands(i: nat, p: seq<real>)
    ensures Cands(i, p, 0) == []
  {
  }

  lemma CandsStep(i: nat, p: seq<real>, k: nat)
    requires k < |p|
    ensures Cands(i, p, k + 1) == Cands(i, p, k) + [Cand(i, k + 1, Chance(p, k + 1))]
  {
    hide Chance;
  }

  lemma CandsOf(i: nat, p: seq<real>, k: nat, r: nat)
    requires k <= |p|
    ensures Of(Cands(i, p, k), r) == if r == i then Cands(i, p, k) else []
  {
    OfAll(Cands(i, p, k), i, r);
  }

  /** The candidate rows of all requests, request by request. */
  method Candidates(probs: seq<seq<real>>, caps: seq<nat>) returns (c: seq<Cand>)
    requires |probs| == |caps| && forall i :: 0 <= i < |probs| ==> |probs[i]| == DRAFTS
    ensures forall i: nat :: Of(c, i) == Mine(probs, caps, i)
  {
    hide Chance, Of, Cands;
    c := [];
    var i := 0;
    NoneOf();
    while i < |probs|
      invariant i <= |probs|
      invariant forall r: nat :: Of(c, r) == if r < i then Mine(probs, caps, r) else []
    {
      var mine: seq<Cand> := [];
      var q := 1.0;
      var j := 0;
      ChanceZero(probs[i]);
      NoCands(i, probs[i]);
      while j < Min(caps[i], DRAFTS)
        invariant j <= Min(caps[i], DRAFTS) && q == Chance(probs[i], j)
        invariant mine == Cands(i, probs[i], j)
      {
        ChanceStep(probs[i], j + 1);
        CandsStep(i, probs[i], j);
        q := q * Clamp(probs[i][j]);
        mine := mine + [Cand(i, j + 1, q)];
        j := j + 1;
      }
      forall r: nat
        ensures Of(c + mine, r) == if r < i + 1 then Mine(probs, caps, r) else []
      {
        OfAppend(c, mine, r);
        CandsOf(i, probs[i], j, r);
      }
      c := c + mine;
      i := i + 1;
    }
  }

  /** Request `i`'s candidate rows. */
  function Mine(probs: seq<seq<real>>, caps: seq<nat>, i: nat): seq<Cand>
    requires |probs| == |caps| && forall k :: 0 <= k < |probs| ==> |probs[k]| == DRAFTS
  {
    if i < |probs| then Cands(i, probs[i], Min(caps[i], DRAFTS)) else []
  }

  lemma MineFalls(probs: seq<seq<real>>, caps: seq<nat>, i: nat)
    requires |probs| == |caps| && forall k :: 0 <= k < |probs| ==> |probs[k]| == DRAFTS
    ensures Falling(Mine(probs, caps, i))
  {
    hide Chance;
    var c := Mine(probs, caps, i);
    forall j, k | 0 <= j < k < |c|
      ensures c[j].q >= c[k].q
    {
      ChanceFalls(probs[i], j + 1, k + 1);
    }
  }

  /** Adding a row worth `q` to a step of value `t` and cost `c`: `q / b >= t / c` says the row is
      worth more per unit of cost than the step is. */
  lemma Worth(q: real, b: real, t: real, c: real)
    requires b > 0.0 && c > 0.0
    ensures q / b < t / c <==> !WorthIt(q, t, c, b)
  {
    var x, y := q / b, t / c;
    assert q == x * b && t == y * c;
    assert q * c == x * (b * c) && t * b == y * (b * c);
    if x < y {
      assert (y - x) * (b * c) > 0.0;
    } else {
      assert (x - y) * (b * c) >= 0.0;
    }
  }

  // ---- Optimality.

  /** Exactly the candidate rows whose chance reaches `theta` are verified. */
  ghost predicate Threshold(probs: seq<seq<real>>, caps: seq<nat>, ks: seq<nat>, theta: real)
    requires Within(probs, caps, ks)
  {
    forall i :: 0 <= i < |ks| ==> Cut(probs[i], Min(caps[i], DRAFTS), ks[i], theta)
  }

  ghost predicate Cut(p: seq<real>, cap: nat, k: nat, theta: real)
    requires k <= cap <= |p|
  {
    forall j :: 1 <= j <= cap ==> (j <= k <==> Chance(p, j) >= theta)
  }

  /** Of all lengths for one request, the cut at `theta` gains most over a price of `theta` a row. */
  lemma {:induction false} CutBest(p: seq<real>, cap: nat, k: nat, other: nat, theta: real)
    requires k <= cap <= |p| && other <= cap && Cut(p, cap, k, theta)
    ensures Gain(p, other) - Price(theta, other) <= Gain(p, k) - Price(theta, k)
    decreases if other < k then k - other else other - k
  {
    hide Chance;
    hide Price;
    if other < k {
      CutBest(p, cap, k, other + 1, theta);
      assert Chance(p, other + 1) >= theta;
      PriceAdds(theta, other, 1);
    } else if k < other {
      CutBest(p, cap, k, other - 1, theta);
      assert Chance(p, other) < theta;
      PriceAdds(theta, other - 1, 1);
    }
  }

  function Price(theta: real, n: nat): real {
    theta * n as real
  }

  lemma PriceAdds(theta: real, x: nat, y: nat)
    ensures Price(theta, x + y) == Price(theta, x) + Price(theta, y) && Price(theta, 1) == theta
  {
  }

  lemma {:induction false} AllBest(probs: seq<seq<real>>, caps: seq<nat>, ks: seq<nat>, other: seq<nat>, theta: real)
    requires Within(probs, caps, ks) && Within(probs, caps, other) && Threshold(probs, caps, ks, theta)
    ensures Tokens(probs, other) - Price(theta, Rows(other)) <= Tokens(probs, ks) - Price(theta, Rows(ks))
    decreases |ks|
  {
    hide Chance;
    hide Gain;
    hide Price;
    if ks != [] {
      CutBest(probs[0], Min(caps[0], DRAFTS), ks[0], other[0], theta);
      AllBest(probs[1..], caps[1..], ks[1..], other[1..], theta);
      PriceAdds(theta, ks[0], Rows(ks[1..]));
      PriceAdds(theta, 1, ks[0] + Rows(ks[1..]));
      PriceAdds(theta, other[0], Rows(other[1..]));
      PriceAdds(theta, 1, other[0] + Rows(other[1..]));
    }
  }

  /** The cost of verifying `n` rows in one step. */
  function Cost(a: real, b: real, n: nat): (r: real)
    requires a > 0.0 && b > 0.0
    ensures r > 0.0
  {
    a + b * n as real
  }

  lemma CostAdds(a: real, b: real, n: nat)
    requires a > 0.0 && b > 0.0
    ensures Cost(a, b, n + 1) == Cost(a, b, n) + b
  {
  }

  /** Expected tokens per unit of cost. */
  function Rate(probs: seq<seq<real>>, ks: seq<nat>, a: real, b: real): real
    requires |probs| == |ks| && forall i :: 0 <= i < |ks| ==> ks[i] <= |probs[i]|
    requires a > 0.0 && b > 0.0
  {
    Tokens(probs, ks) / Cost(a, b, Rows(ks))
  }

  lemma Sign(z: real, w: real)
    requires w > 0.0 && z * w >= 0.0
    ensures z >= 0.0
  {
  }

  lemma Quotients(x: real, c: real, y: real, d: real)
    requires c > 0.0 && d > 0.0 && x * d <= y * c
    ensures x / c <= y / d
  {
    var u, v := x / c, y / d;
    assert (v - u) * (c * d) == v * d * c - u * c * d;
    Sign(v - u, c * d);
  }

  /** If the price is the step's own rate, no other step has a better one. */
  lemma RateBest(t: real, t2: real, n: nat, n2: nat, a: real, b: real, theta: real)
    requires a > 0.0 && b > 0.0
    requires theta * Cost(a, b, n) == t * b && t2 - Price(theta, n2) <= t - Price(theta, n)
    ensures t2 / Cost(a, b, n2) <= t / Cost(a, b, n)
  {
    var c, c2, r, r2 := Cost(a, b, n), Cost(a, b, n2), n as real, n2 as real;
    Scale(t2 - theta * r2, t - theta * r, c);
    assert theta * r2 * c == (theta * c) * r2;
    assert theta * r * c == (theta * c) * r;
    assert t * c == t * a + t * b * r;
    assert t * c2 == t * a + t * b * r2;
    Quotients(t2, c2, t, c);
  }

  lemma Scale(x: real, y: real, c: real)
    requires x <= y && c > 0.0
    ensures x * c <= y * c
  {
  }

  // ---- The greedy loop.

  /** One more row for request `i`. */
  lemma {:induction false} TokensStep(probs: seq<seq<real>>, ks: seq<nat>, i: nat)
    requires |probs| == |ks| && (forall x :: 0 <= x < |ks| ==> ks[x] <= |probs[x]|) && i < |ks| && ks[i] < |probs[i]|
    ensures Tokens(probs, ks[i := ks[i] + 1]) == Tokens(probs, ks) + Chance(probs[i], ks[i] + 1)
    ensures Rows(ks[i := ks[i] + 1]) == Rows(ks) + 1
    decreases i
  {
    hide Chance;
    var next := ks[i := ks[i] + 1];
    if i == 0 {
      assert next[1..] == ks[1..];
    } else {
      assert next[1..] == ks[1..][i - 1 := ks[i] + 1];
      TokensStep(probs[1..], ks[1..], i - 1);
    }
  }

  lemma {:induction false} NoneYet(probs: seq<seq<real>>, ks: seq<nat>)
    requires |probs| == |ks| && forall x :: 0 <= x < |ks| ==> ks[x] == 0
    ensures Tokens(probs, ks) == |probs| as real && Rows(ks) == |probs|
    decreases |ks|
  {
    if ks != [] {
      NoneYet(probs[1..], ks[1..]);
    }
  }

  /** The rows taken so far, request by request: the first `ks[i]` of request `i`'s. */
  ghost predicate Taken(probs: seq<seq<real>>, caps: seq<nat>, ks: seq<nat>, done: seq<Cand>, rest: seq<Cand>)
    requires |probs| == |caps| && forall k :: 0 <= k < |probs| ==> |probs[k]| == DRAFTS
  {
    && Within(probs, caps, ks)
    && forall i: nat :: var n := if i < |ks| then ks[i] else 0;
         n <= |Mine(probs, caps, i)| && Of(done, i) == Mine(probs, caps, i)[..n] && Of(rest, i) == Mine(probs, caps, i)[n..]
  }

  /** Rows no better than `theta` are left, rows at least as good are taken: the cut. */
  lemma TakenCuts(probs: seq<seq<real>>, caps: seq<nat>, ks: seq<nat>, done: seq<Cand>, rest: seq<Cand>, theta: real)
    requires |probs| == |caps| && forall k :: 0 <= k < |probs| ==> |probs[k]| == DRAFTS
    requires Taken(probs, caps, ks, done, rest)
    requires forall k :: 0 <= k < |done| ==> done[k].q >= theta
    requires forall k :: 0 <= k < |rest| ==> rest[k].q < theta
    ensures Threshold(probs, caps, ks, theta)
  {
    hide Chance;
    forall i | 0 <= i < |ks|
      ensures Cut(probs[i], Min(caps[i], DRAFTS), ks[i], theta)
    {
      var mine := Mine(probs, caps, i);
      forall j | 1 <= j <= Min(caps[i], DRAFTS)
        ensures j <= ks[i] <==> Chance(probs[i], j) >= theta
      {
        assert mine[j - 1].q == Chance(probs[i], j);
        if j <= ks[i] {
          assert mine[j - 1] == Of(done, i)[j - 1];
          OfIn(done, i, mine[j - 1]);
        } else {
          assert mine[j - 1] == Of(rest, i)[j - 1 - ks[i]];
          OfIn(rest, i, mine[j - 1]);
        }
      }
    }
  }

  lemma {:induction false} OfIn(c: seq<Cand>, i: nat, x: Cand)
    requires x in Of(c, i)
    ensures x in c && x.req == i
    decreases |c|
  {
    if c[0].req != i || x != c[0] {
      OfIn(c[1..], i, x);
    }
  }

  /** The next row is its request's next: the test on its depth never skips it. */
  lemma NextRow(probs: seq<seq<real>>, caps: seq<nat>, ks: seq<nat>, done: seq<Cand>, x: Cand, rest: seq<Cand>)
    requires |probs| == |caps| && forall k :: 0 <= k < |probs| ==> |probs[k]| == DRAFTS
    requires Taken(probs, caps, ks, done, [x] + rest)
    ensures x.req < |ks| && x.depth == ks[x.req] + 1 <= Min(caps[x.req], DRAFTS)
    ensures x.q == Chance(probs[x.req], x.depth)
    ensures Taken(probs, caps, ks[x.req := x.depth], done + [x], rest)
  {
    hide Chance;
    hide Cands;
    var i, next := x.req, [x] + rest;
    var mine := Mine(probs, caps, i);
    var n := if i < |ks| then ks[i] else 0;
    OfHead(x, rest);
    assert mine[n..][0] == x;
    MineAt(probs, caps, i, n);
    TakenStep(probs, caps, ks, done, x, rest);
  }

  lemma OfHead(x: Cand, rest: seq<Cand>)
    ensures Of([x] + rest, x.req) == [x] + Of(rest, x.req)
    ensures forall r: nat :: r != x.req ==> Of([x] + rest, r) == Of(rest, r)
  {
    assert ([x] + rest)[1..] == rest;
  }

  lemma MineAt(probs: seq<seq<real>>, caps: seq<nat>, i: nat, n: nat)
    requires |probs| == |caps| && forall k :: 0 <= k < |probs| ==> |probs[k]| == DRAFTS
    requires n < |Mine(probs, caps, i)|
    ensures i < |probs| && n < Min(caps[i], DRAFTS) && Mine(probs, caps, i)[n] == Cand(i, n + 1, Chance(probs[i], n + 1))
  {
    hide Chance;
  }

  lemma TakenStep(probs: seq<seq<real>>, caps: seq<nat>, ks: seq<nat>, done: seq<Cand>, x: Cand, rest: seq<Cand>)
    requires |probs| == |caps| && forall k :: 0 <= k < |probs| ==> |probs[k]| == DRAFTS
    requires Taken(probs, caps, ks, done, [x] + rest)
    requires x.req < |ks| && x.depth == ks[x.req] + 1 <= Min(caps[x.req], DRAFTS) && ks[x.req] < |Mine(probs, caps, x.req)|
    requires x == Mine(probs, caps, x.req)[ks[x.req]]
    ensures Taken(probs, caps, ks[x.req := x.depth], done + [x], rest)
  {
    hide Chance;
    hide Mine;
    hide Of;
    var i := x.req;
    var mine := Mine(probs, caps, i);
    var ks2 := ks[i := x.depth];
    OfHead(x, rest);
    forall r: nat
      ensures var n := if r < |ks2| then ks2[r] else 0;
        n <= |Mine(probs, caps, r)| && Of(done + [x], r) == Mine(probs, caps, r)[..n] && Of(rest, r) == Mine(probs, caps, r)[n..]
    {
      OfAppend(done, [x], r);
      OfAll([x], i, r);
      if r == i {
        var n := ks[i];
        assert mine[..n] + [mine[n]] == mine[..n + 1];
        assert mine[n..] == [mine[n]] + mine[n + 1..];
        assert Of(rest, i) == Of([x] + rest, i)[1..];
      }
    }
  }

  /** A row of chance `q` is worth a step of value `t` and cost `c`. */
  predicate WorthIt(q: real, t: real, c: real, b: real) {
    q * c >= t * b
  }

  /** Taking a row worth at least the step keeps every taken row worth at least the new step. */
  lemma StillWorth(q: real, x: real, t: real, c: real, b: real)
    requires x >= q && b > 0.0 && WorthIt(q, t, c, b) && WorthIt(x, t, c, b)
    ensures WorthIt(x, t + q, c + b, b)
  {
    assert x * b >= q * b;
  }

  lemma NothingTaken(probs: seq<seq<real>>, caps: seq<nat>, ks: seq<nat>, cand: seq<Cand>)
    requires |probs| == |caps| == |ks| && forall i :: 0 <= i < |probs| ==> |probs[i]| == DRAFTS && ks[i] == 0
    requires forall r: nat :: Of(cand, r) == Mine(probs, caps, r)
    ensures Taken(probs, caps, ks, Sorted(cand)[..0], Sorted(cand)[0..])
  {
    hide Chance;
    assert Sorted(cand)[0..] == Sorted(cand);
    forall r: nat
      ensures Of(Sorted(cand), r) == Mine(probs, caps, r)
    {
      forall x: nat
        ensures Falling(Of(cand, x))
      {
        MineFalls(probs, caps, x);
      }
      SortedOf(cand, r);
    }
  }

  lemma AtPrice(q: real, t: real, c: real, b: real, theta: real)
    requires c > 0.0 && theta * c == t * b
    ensures WorthIt(q, t, c, b) <==> q >= theta
  {
    if q >= theta {
      assert (q - theta) * c >= 0.0;
    } else {
      assert (theta - q) * c > 0.0;
    }
  }

  /** The state the loop ends in is a cut at its own rate, hence best. */
  lemma Finish(probs: seq<seq<real>>, caps: seq<nat>, ks: seq<nat>, a: real, b: real, sorted: seq<Cand>, t: nat,
               tokens: real, rows: real)
    requires Greedy(probs, caps, ks, sorted, t, tokens, rows, a, b) && Falling(sorted)
    requires t < |sorted| ==> !WorthIt(sorted[t].q, tokens, Cost(a, b, Rows(ks)), b)
    ensures Within(probs, caps, ks)
    ensures forall other :: Within(probs, caps, other) ==> Rate(probs, other, a, b) <= Rate(probs, ks, a, b)
  {
    hide Chance;
    hide Tokens;
    hide Rows;
    hide Of;
    hide Threshold;
    hide Taken;
    hide WorthIt;
    hide Cost;
    hide Price;
    TakenWithin(probs, caps, ks, sorted[..t], sorted[t..]);
    var c, v := Cost(a, b, Rows(ks)), Tokens(probs, ks);
    var theta := v * b / c;
    forall k | 0 <= k < t
      ensures sorted[k].q >= theta
    {
      AtPrice(sorted[k].q, v, c, b, theta);
    }
    forall k | t <= k < |sorted|
      ensures sorted[k].q < theta
    {
      AtPrice(sorted[t].q, v, c, b, theta);
    }
    TakenCuts(probs, caps, ks, sorted[..t], sorted[t..], theta);
    forall other | Within(probs, caps, other)
      ensures Rate(probs, other, a, b) <= Rate(probs, ks, a, b)
    {
      AllBest(probs, caps, ks, other, theta);
      RateBest(v, Tokens(probs, other), Rows(ks), Rows(other), a, b, theta);
    }
  }

  lemma TakenWithin(probs: seq<seq<real>>, caps: seq<nat>, ks: seq<nat>, done: seq<Cand>, rest: seq<Cand>)
    requires |probs| == |caps| && forall k :: 0 <= k < |probs| ==> |probs[k]| == DRAFTS
    requires Taken(probs, caps, ks, done, rest)
    ensures Within(probs, caps, ks)
  {
  }

  /** After `t` rows: exactly those are taken, each worth the step as it now stands. */
  ghost predicate Greedy(probs: seq<seq<real>>, caps: seq<nat>, ks: seq<nat>, sorted: seq<Cand>, t: nat,
                         tokens: real, rows: real, a: real, b: real)
  {
    && |probs| == |caps| && (forall i :: 0 <= i < |probs| ==> |probs[i]| == DRAFTS) && a > 0.0 && b > 0.0
    && t <= |sorted| && Taken(probs, caps, ks, sorted[..t], sorted[t..])
    && tokens == Tokens(probs, ks) && rows == Rows(ks) as real
    && forall k :: 0 <= k < t ==> WorthIt(sorted[k].q, tokens, Cost(a, b, Rows(ks)), b)
  }

  /** The next row is its request's next, and the loop's test asks whether it is worth the step. */
  lemma Look(probs: seq<seq<real>>, caps: seq<nat>, ks: seq<nat>, sorted: seq<Cand>, t: nat,
             tokens: real, rows: real, a: real, b: real)
    requires Greedy(probs, caps, ks, sorted, t, tokens, rows, a, b) && t < |sorted|
    ensures Within(probs, caps, ks) && sorted[t].req < |ks| && sorted[t].depth == ks[sorted[t].req] + 1
    ensures Cost(a, b, Rows(ks)) == a + b * rows
    ensures sorted[t].q / b < tokens / (a + b * rows) <==> !WorthIt(sorted[t].q, tokens, Cost(a, b, Rows(ks)), b)
  {
    hide Chance;
    hide Tokens;
    hide Rows;
    hide Of;
    hide WorthIt;
    hide Taken;
    hide Cost;
    assert sorted[t..] == [sorted[t]] + sorted[t + 1..];
    NextRow(probs, caps, ks, sorted[..t], sorted[t], sorted[t + 1..]);
    TakenWithin(probs, caps, ks, sorted[..t], sorted[t..]);
    CostIs(a, b, Rows(ks), rows);
    Worth(sorted[t].q, b, tokens, Cost(a, b, Rows(ks)));
  }

  lemma CostIs(a: real, b: real, n: nat, r: real)
    requires a > 0.0 && b > 0.0 && r == n as real
    ensures Cost(a, b, n) == a + b * r
  {
  }

  lemma Take(probs: seq<seq<real>>, caps: seq<nat>, ks: seq<nat>, sorted: seq<Cand>, t: nat,
             tokens: real, rows: real, a: real, b: real)
    requires Greedy(probs, caps, ks, sorted, t, tokens, rows, a, b) && t < |sorted| && Falling(sorted)
    requires WorthIt(sorted[t].q, tokens, Cost(a, b, Rows(ks)), b)
    ensures sorted[t].req < |ks|
    ensures Greedy(probs, caps, ks[sorted[t].req := sorted[t].depth], sorted, t + 1, tokens + sorted[t].q, rows + 1.0, a, b)
  {
    hide Chance;
    hide Tokens;
    hide Rows;
    hide Of;
    hide WorthIt;
    hide Cost;
    hide Taken;
    var x, cost := sorted[t], Cost(a, b, Rows(ks));
    assert sorted[t..] == [x] + sorted[t + 1..];
    assert sorted[..t + 1] == sorted[..t] + [x];
    NextRow(probs, caps, ks, sorted[..t], x, sorted[t + 1..]);
    TakenWithin(probs, caps, ks, sorted[..t], sorted[t..]);
    forall k | 0 <= k < t + 1
      ensures WorthIt(sorted[k].q, tokens + x.q, cost + b, b)
    {
      StillWorth(x.q, sorted[k].q, tokens, cost, b);
    }
    TokensStep(probs, ks, x.req);
    CostAdds(a, b, Rows(ks));
  }

  lemma Begin(probs: seq<seq<real>>, caps: seq<nat>, ks: seq<nat>, cand: seq<Cand>, a: real, b: real)
    requires |probs| == |caps| == |ks| && forall i :: 0 <= i < |probs| ==> |probs[i]| == DRAFTS && ks[i] == 0
    requires forall r: nat :: Of(cand, r) == Mine(probs, caps, r)
    requires a > 0.0 && b > 0.0
    ensures Greedy(probs, caps, ks, Sorted(cand), 0, |probs| as real, |probs| as real, a, b)
  {
    hide Chance, Tokens, Rows, Of, Mine, Sorted, Taken, Cost;
    NoneYet(probs, ks);
    NothingTaken(probs, caps, ks, cand);
  }

  /** The greedy choice of the confidence policy maximises expected tokens per unit of cost over
      every choice of lengths within the caps. */
  method VerifyLengths(probs: seq<seq<real>>, caps: seq<nat>, a: real, b: real) returns (ks: seq<nat>)
    requires |probs| == |caps| && forall i :: 0 <= i < |probs| ==> |probs[i]| == DRAFTS
    requires a > 0.0 && b > 0.0
    ensures Within(probs, caps, ks)
    ensures forall other :: Within(probs, caps, other) ==> Rate(probs, other, a, b) <= Rate(probs, ks, a, b)
  {
    hide Chance, Tokens, Rows, Of, Mine, Sorted, Greedy, WorthIt, Within, Rate, Cost, Falling;
    var cand := Candidates(probs, caps);
    var sorted := Sorted(cand);
    ks := seq(|probs|, _ => 0);
    var tokens, rows := |probs| as real, |probs| as real;
    Begin(probs, caps, ks, cand, a, b);
    var t := 0;
    while t < |sorted|
      invariant t <= |sorted| && Greedy(probs, caps, ks, sorted, t, tokens, rows, a, b)
    {
      var x := sorted[t];
      Look(probs, caps, ks, sorted, t, tokens, rows, a, b);
      // A row that is not its request's next would be skipped; there is none.
      assert x.depth == ks[x.req] + 1;
      if x.q / b < tokens / (a + b * rows) {
        break;
      }
      Take(probs, caps, ks, sorted, t, tokens, rows, a, b);
      ks := ks[x.req := x.depth];
      tokens := tokens + x.q;
      rows := rows + 1.0;
      t := t + 1;
    }
    Finish(probs, caps, ks, a, b, sorted, t, tokens, rows);
  }
}
