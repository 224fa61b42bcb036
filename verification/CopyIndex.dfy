/** Copy windows: when the last `MATCH` tokens of a request's context occurred earlier in it, the
    tokens that followed that occurrence are proposed. The index of the context's grams is
    extended as the context grows; the reference below searches the whole context each time. */
module CopyWindows {
  import opened Basics

  const MATCH: nat := 8
  const EXTEND: nat := 64
  const CANDIDATES: nat := 64

  /** The gram ending at position `p`. */
  function Gram(ctx: seq<Token>, p: nat): seq<Token>
    requires MATCH <= p + 1 <= |ctx|
  {
    ctx[p + 1 - MATCH..p + 1]
  }

  // ---- The reference: a search of the context.

  predicate EndsAt(ctx: seq<Token>, g: seq<Token>, p: nat)
    requires p < |ctx|
  {
    p + 1 >= MATCH && Gram(ctx, p) == g
  }

  /** Every position before `q` at which the gram ends, newest first. */
  function Occurrences(ctx: seq<Token>, g: seq<Token>, q: nat): (r: seq<nat>)
    requires q <= |ctx|
    ensures forall i :: 0 <= i < |r| ==> r[i] < q
  {
    if q == 0 then []
    else if EndsAt(ctx, g, q - 1) then [q - 1] + Occurrences(ctx, g, q - 1)
    else Occurrences(ctx, g, q - 1)
  }

  predicate Agree(ctx: seq<Token>, q: nat, len: nat) {
    len <= q && q + 1 < |ctx| && ctx[q - len] == ctx[|ctx| - 1 - len]
  }

  /** How many tokens ending at `q` match the end of the context, counted up from `len` to at most
      `EXTEND`. */
  function BackFrom(ctx: seq<Token>, q: nat, len: nat): nat
    decreases EXTEND - len
  {
    if len < EXTEND && Agree(ctx, q, len) then BackFrom(ctx, q, len + 1) else len
  }

  function Back(ctx: seq<Token>, q: nat): nat {
    BackFrom(ctx, q, MATCH)
  }

  /** The one of the first `t` candidates matching furthest back, the first of equals. */
  function BestOf(ctx: seq<Token>, occ: seq<nat>, t: nat): (b: nat)
    requires 0 < t <= |occ|
    ensures b in occ
  {
    if t == 1 then occ[0]
    else if Back(ctx, occ[t - 1]) > Back(ctx, BestOf(ctx, occ, t - 1)) then occ[t - 1]
    else BestOf(ctx, occ, t - 1)
  }

  function Tried(occ: seq<nat>): nat {
    if |occ| < CANDIDATES then |occ| else CANDIDATES
  }

  /** The tokens copied from `from` on, running into their own continuation. */
  function Copied(ctx: seq<Token>, from: nat, k: nat): (r: seq<Token>)
    requires from < |ctx|
    ensures |r| == k
  {
    if k == 0 then []
    else
      var out := Copied(ctx, from, k - 1);
      out + [(ctx + out)[from + k - 1]]
  }

  predicate LastGramEnds(ctx: seq<Token>, p: nat)
    requires MATCH < |ctx| && p < |ctx|
  {
    EndsAt(ctx, Gram(ctx, |ctx| - 1), p)
  }

  /** The earlier positions at which the context's last gram ends. */
  function Earlier(ctx: seq<Token>): seq<nat>
    requires |ctx| > MATCH
  {
    Occurrences(ctx, Gram(ctx, |ctx| - 1), |ctx| - 1)
  }

  /** What a search of the whole context proposes. */
  function Proposal(ctx: seq<Token>, k: nat): seq<Token> {
    if k < 2 || |ctx| <= MATCH then []
    else
      var occ := Earlier(ctx);
      if occ == [] then [] else Copied(ctx, BestOf(ctx, occ, Tried(occ)) + 1, k)
  }

  // ---- What the reference promises.

  /** The occurrences are all of them, the newest first. */
  lemma {:induction false} OccurrencesAre(ctx: seq<Token>, g: seq<Token>, q: nat)
    requires q <= |ctx|
    ensures var r := Occurrences(ctx, g, q);
      && (forall p :: 0 <= p < q ==> (EndsAt(ctx, g, p) <==> p in r))
      && (forall i, j :: 0 <= i < j < |r| ==> r[i] > r[j])
  {
    hide EndsAt;
    if q > 0 {
      OccurrencesAre(ctx, g, q - 1);
    }
  }

  /** The match counted is real, and it ends at the cap, at the context's start or where the tokens
      differ. */
  lemma {:induction false} BackMatches(ctx: seq<Token>, q: nat, len: nat)
    requires q + 1 < |ctx| && len <= EXTEND
    requires forall i :: 0 <= i < len ==> Agree(ctx, q, i)
    ensures var r := BackFrom(ctx, q, len);
      && len <= r <= EXTEND
      && (forall i :: 0 <= i < r ==> Agree(ctx, q, i))
      && (r == EXTEND || !Agree(ctx, q, r))
    decreases EXTEND - len
  {
    hide Agree;
    if len < EXTEND && Agree(ctx, q, len) {
      BackMatches(ctx, q, len + 1);
    }
  }

  /** An occurrence of the last gram agrees over the whole gram. */
  lemma GramAgrees(ctx: seq<Token>, q: nat, i: nat)
    requires |ctx| > MATCH && q < |ctx| - 1 && LastGramEnds(ctx, q) && i < MATCH
    ensures Agree(ctx, q, i)
  {
    var n := |ctx|;
    assert Gram(ctx, q)[MATCH - 1 - i] == Gram(ctx, n - 1)[MATCH - 1 - i];
  }

  /** So a candidate's count is the length of the longest common ending of the context and of the
      context cut after the candidate, capped. */
  lemma BackIsMatch(ctx: seq<Token>, q: nat)
    requires |ctx| > MATCH && q < |ctx| - 1 && LastGramEnds(ctx, q)
    ensures MATCH <= Back(ctx, q) <= EXTEND
    ensures forall i :: 0 <= i < Back(ctx, q) ==> Agree(ctx, q, i)
    ensures Back(ctx, q) == EXTEND || !Agree(ctx, q, Back(ctx, q))
  {
    hide Agree, LastGramEnds;
    forall i: nat | i < MATCH
      ensures Agree(ctx, q, i)
    {
      GramAgrees(ctx, q, i);
    }
    BackMatches(ctx, q, MATCH);
  }

  /** Candidate `i` of the first `t` matches at least as far back as each, and further than every
      more recent one. */
  predicate Longest(ctx: seq<Token>, occ: seq<nat>, t: nat, i: nat)
    requires t <= |occ|
  {
    i < t && forall j :: 0 <= j < t ==> Back(ctx, occ[j]) <= Back(ctx, occ[i]) && (j < i ==> Back(ctx, occ[j]) < Back(ctx, occ[i]))
  }

  lemma {:induction false} BestIsLongest(ctx: seq<Token>, occ: seq<nat>, t: nat) returns (i: nat)
    requires 0 < t <= |occ|
    ensures Longest(ctx, occ, t, i) && occ[i] == BestOf(ctx, occ, t)
  {
    hide Back;
    i := 0;
    if t > 1 {
      i := BestIsLongest(ctx, occ, t - 1);
      if Back(ctx, occ[t - 1]) > Back(ctx, occ[i]) {
        i := t - 1;
      }
    }
  }

  /** Token `j` after the context is the token that came as far before it as the context's end is
      from `from`. */
  predicate Repeats(ctx: seq<Token>, out: seq<Token>, from: nat, j: nat)
    requires from < |ctx| && j < |out|
  {
    (ctx + out)[|ctx| + j] == (ctx + out)[from + j]
  }

  predicate RepeatsAll(ctx: seq<Token>, out: seq<Token>, from: nat)
    requires from < |ctx|
  {
    forall j :: 0 <= j < |out| ==> Repeats(ctx, out, from, j)
  }

  /** Each copied token repeats the token `|ctx| - from` before it: an overlapping copy is periodic,
      and nothing but the context and the copy itself is read. */
  lemma {:induction false} CopiedRepeats(ctx: seq<Token>, from: nat, k: nat, j: nat)
    requires from < |ctx| && j < k
    ensures Repeats(ctx, Copied(ctx, from, k), from, j)
    decreases k
  {
    if j < k - 1 {
      CopiedRepeats(ctx, from, k - 1, j);
    }
  }

  /** A proposal follows an earlier occurrence of the context's last gram: among the newest
      `CANDIDATES` the one whose match reaches furthest back, the most recent of equals. It repeats
      what followed that occurrence. */
  lemma ProposalFollowsBest(ctx: seq<Token>, k: nat) returns (i: nat)
    requires k >= 2 && |ctx| > MATCH && Earlier(ctx) != []
    ensures var occ := Earlier(ctx);
      && Longest(ctx, occ, Tried(occ), i)
      && LastGramEnds(ctx, occ[i])
      && |Proposal(ctx, k)| == k
      && RepeatsAll(ctx, Proposal(ctx, k), occ[i] + 1)
  {
    hide BestOf, EndsAt, Gram, Repeats, Copied;
    var occ := Earlier(ctx);
    i := BestIsLongest(ctx, occ, Tried(occ));
    assert i < Tried(occ);
    hide Longest;
    OccurrencesAre(ctx, Gram(ctx, |ctx| - 1), |ctx| - 1);
    assert occ[i] in occ;
    var from := occ[i] + 1;
    forall j: nat | j < k
      ensures Repeats(ctx, Copied(ctx, from, k), from, j)
    {
      CopiedRepeats(ctx, from, k, j);
    }
  }

  /** Nothing is proposed exactly when too little is asked for or the last gram is new. */
  lemma ProposalEmpty(ctx: seq<Token>, k: nat)
    ensures Proposal(ctx, k) == [] <==>
            (k < 2 || |ctx| <= MATCH || forall p :: 0 <= p < |ctx| - 1 ==> !LastGramEnds(ctx, p))
  {
    hide EndsAt, Gram;
    if k >= 2 && |ctx| > MATCH {
      OccurrencesAre(ctx, Gram(ctx, |ctx| - 1), |ctx| - 1);
      var occ := Earlier(ctx);
      if occ != [] {
        assert occ[0] in occ;
        assert LastGramEnds(ctx, occ[0]);
      } else {
        forall p | 0 <= p < |ctx| - 1
          ensures !LastGramEnds(ctx, p)
        {
          assert p !in occ;
        }
      }
    }
  }

  // ---- The index.

  /** The newest position before `q` at which the gram ends. */
  function Latest(ctx: seq<Token>, g: seq<Token>, q: nat): Option<nat>
    requires q <= |ctx|
  {
    if q == 0 then None else if EndsAt(ctx, g, q - 1) then Some(q - 1) else Latest(ctx, g, q - 1)
  }

  /** Growing the context past `q` changes nothing before it. */
  lemma {:induction false} LatestPrefix(s: seq<Token>, t: seq<Token>, g: seq<Token>, q: nat)
    requires q <= |s| && s <= t
    ensures Latest(s, g, q) == Latest(t, g, q)
  {
    hide Gram;
    if q > 0 {
      LatestPrefix(s, t, g, q - 1);
      GramPrefix(s, t, q - 1);
    }
  }

  lemma GramPrefix(s: seq<Token>, t: seq<Token>, p: nat)
    requires p < |s| && s <= t
    ensures p + 1 >= MATCH ==> Gram(s, p) == Gram(t, p)
  {
    if p + 1 >= MATCH {
      assert s[p + 1 - MATCH..p + 1] == t[p + 1 - MATCH..p + 1];
    }
  }

  function At(occ: seq<nat>, i: nat): Option<nat> {
    if i < |occ| then Some(occ[i]) else None
  }

  /** The newest occurrence comes first, and each is followed by the newest before it. */
  lemma {:induction false} Chain(ctx: seq<Token>, g: seq<Token>, q: nat)
    requires q <= |ctx|
    ensures var occ := Occurrences(ctx, g, q);
      && Latest(ctx, g, q) == At(occ, 0)
      && forall i :: 0 <= i < |occ| ==> Latest(ctx, g, occ[i]) == At(occ, i + 1)
  {
    hide EndsAt;
    if q > 0 {
      Chain(ctx, g, q - 1);
    }
  }

  /** What `prev` holds for position `p`. */
  function Before(ctx: seq<Token>, p: nat): Option<nat>
    requires p < |ctx|
  {
    if p + 1 < MATCH then None else Latest(ctx, Gram(ctx, p), p)
  }

  function Lookup(head: map<seq<Token>, nat>, g: seq<Token>): Option<nat> {
    if g in head then Some(head[g]) else None
  }

  class CopyIndex {
    /** The last position of each gram seen. */
    var head: map<seq<Token>, nat>
    /** The previous position at which the same gram ends. */
    var prev: seq<Option<nat>>

    constructor ()
      ensures Indexes([])
    {
      head, prev := map[], [];
    }

    /** The index is that of the first `|prev|` positions of `ctx`, all with a token after them. */
    ghost predicate Indexes(ctx: seq<Token>)
      reads this
    {
      && (prev == [] || |prev| < |ctx|)
      && (forall p :: 0 <= p < |prev| ==> prev[p] == Before(ctx, p))
      && (forall g :: Lookup(head, g) == Latest(ctx, g, |prev|))
    }

    /** A context that only grew is still indexed as far as it was. */
    lemma Grown(s: seq<Token>, t: seq<Token>)
      requires Indexes(s) && s <= t
      ensures Indexes(t)
    {
      hide Latest, Gram, Lookup;
      forall g
        ensures Latest(s, g, |prev|) == Latest(t, g, |prev|)
      {
        LatestPrefix(s, t, g, |prev|);
      }
      forall p | 0 <= p < |prev|
        ensures prev[p] == Before(t, p)
      {
        GramPrefix(s, t, p);
        if p + 1 >= MATCH {
          LatestPrefix(s, t, Gram(s, p), p);
        }
      }
    }

    /** Index the next position. */
    method IndexNext(ctx: seq<Token>)
      requires Indexes(ctx) && |prev| + 1 < |ctx|
      modifies this
      ensures Indexes(ctx) && |prev| == |old(prev)| + 1
    {
      hide Gram;
      var p := |prev|;
      ghost var was := head;
      if p + 1 < MATCH {
        prev := prev + [None];
      } else {
        var g := Gram(ctx, p);
        prev := prev + [Lookup(head, g)];
        head := head[g := p];
      }
      forall g
        ensures Lookup(head, g) == Latest(ctx, g, p + 1)
      {
        assert Lookup(was, g) == Latest(ctx, g, p);
      }
    }

    /** Up to `k` tokens to copy after `ctx`, which extends the context of the call before
        (`earlier`). The answer is that of a search of the whole context, whatever was indexed
        when. */
    method Propose(ctx: seq<Token>, k: nat, ghost earlier: seq<Token>) returns (out: seq<Token>)
      requires Indexes(earlier) && earlier <= ctx
      modifies this
      ensures Indexes(ctx)
      ensures out == Proposal(ctx, k)
    {
      hide Indexes, BestOf, Occurrences, Gram, Latest;
      Grown(earlier, ctx);
      var n := |ctx|;
      if k < 2 || n <= MATCH {
        return [];
      }
      IndexAll(ctx);
      var g := Gram(ctx, n - 1);
      Chain(ctx, g, n - 1);
      var newest := Lookup(head, g);
      HeadIsLatest(ctx, g);
      if newest.None? {
        return [];
      }
      var best := Choose(ctx, newest.value);
      var from := best + 1;
      out := [];
      var j := 0;
      while j < k
        invariant j <= k && out == Copied(ctx, from, j)
      {
        var t := if from + j < n then ctx[from + j] else out[from + j - n];
        out := out + [t];
        j := j + 1;
      }
    }

    /** Index every position with at least one token after it. */
    method IndexAll(ctx: seq<Token>)
      requires Indexes(ctx) && |ctx| > MATCH
      modifies this
      ensures Indexes(ctx) && |prev| == |ctx| - 1
    {
      hide Before, Latest, Lookup;
      while |prev| < |ctx| - 1
        invariant Indexes(ctx) && |prev| <= |ctx| - 1
        decreases |ctx| - |prev|
      {
        IndexNext(ctx);
      }
    }

    /** The best of the newest `CANDIDATES` occurrences, following `prev` from the newest. */
    method Choose(ctx: seq<Token>, newest: nat) returns (best: nat)
      requires Indexes(ctx) && |ctx| > MATCH && |prev| == |ctx| - 1
      requires Earlier(ctx) != [] && Earlier(ctx)[0] == newest
      ensures var occ := Earlier(ctx);
        best == BestOf(ctx, occ, Tried(occ))
    {
      hide Occurrences, Back, Gram, Latest, Lookup;
      ghost var occ := Earlier(ctx);
      var n := |ctx|;
      var p, tried, bestLen := Some(newest), 0, 0;
      best := 0;
      while p.Some? && tried < CANDIDATES
        invariant tried <= Tried(occ)
        invariant p == At(occ, tried)
        invariant if tried == 0 then bestLen == 0 else best == BestOf(ctx, occ, tried) && bestLen == Back(ctx, best)
        decreases CANDIDATES - tried
      {
        var q := p.value;
        var len := Reach(ctx, q);
        var cap := false;
        if len > bestLen {
          best, bestLen := q, len;
          cap := len == EXTEND;
        }
        assert best == BestOf(ctx, occ, tried + 1);
        if cap {
          CapWins(ctx, occ, tried + 1);
          break;
        }
        PrevFollows(ctx, tried);
        p := prev[q];
        tried := tried + 1;
      }
    }

    lemma HeadIsLatest(ctx: seq<Token>, g: seq<Token>)
      requires Indexes(ctx) && |prev| <= |ctx|
      ensures Lookup(head, g) == Latest(ctx, g, |prev|)
    {
    }

    lemma PrevFollows(ctx: seq<Token>, i: nat)
      requires Indexes(ctx) && |ctx| > MATCH && |prev| == |ctx| - 1 && i < |Earlier(ctx)|
      ensures prev[Earlier(ctx)[i]] == At(Earlier(ctx), i + 1)
    {
      hide Gram, Lookup, Latest, Occurrences;
      var g := Gram(ctx, |ctx| - 1);
      Chain(ctx, g, |ctx| - 1);
      OccurrencesAre(ctx, g, |ctx| - 1);
      var q := Earlier(ctx)[i];
      assert q in Earlier(ctx);
      assert EndsAt(ctx, g, q);
      assert prev[q] == Before(ctx, q);
    }
  }

  /** Extend the match at `q` backwards. */
  method Reach(ctx: seq<Token>, q: nat) returns (len: nat)
    requires MATCH < |ctx| && q + 1 < |ctx|
    ensures len == Back(ctx, q) && 0 < len
  {
    len := MATCH;
    while len < EXTEND && len <= q && ctx[q - len] == ctx[|ctx| - 1 - len]
      invariant MATCH <= len <= EXTEND && BackFrom(ctx, q, len) == Back(ctx, q)
    {
      len := len + 1;
    }
  }

  lemma {:induction false} BackBound(ctx: seq<Token>, q: nat, len: nat)
    requires len <= EXTEND
    ensures BackFrom(ctx, q, len) <= EXTEND
    decreases EXTEND - len
  {
    if len < EXTEND && Agree(ctx, q, len) {
      BackBound(ctx, q, len + 1);
    }
  }

  /** A match at the cap cannot be beaten, so stopping there chooses as trying the rest would. */
  lemma {:induction false} CapWins(ctx: seq<Token>, occ: seq<nat>, t: nat)
    requires 0 < t <= Tried(occ) && Back(ctx, BestOf(ctx, occ, t)) == EXTEND
    ensures BestOf(ctx, occ, Tried(occ)) == BestOf(ctx, occ, t)
    decreases |occ| - t
  {
    if t < Tried(occ) {
      BackBound(ctx, occ[t], MATCH);
      assert BestOf(ctx, occ, t + 1) == BestOf(ctx, occ, t);
      CapWins(ctx, occ, t + 1);
    }
  }
}
