/** Splitting the completion while it streams: content deltas outside blocks, reasoning deltas
    inside think blocks, everything from a tool call on held back. However the completion is cut
    into deltas, what has been sent at the end is what one scan of the whole text gives. */
module Streaming {
  import opened Basics
  import opened Markup

  datatype Span = Content | Think | Tool

  datatype Event = Said(text: Text) | Reasoned(text: Text)

  /** What a scan yields before the first tool call: content, reasoning, think blocks opened. */
  datatype Parts = Parts(content: Text, reasoning: Text, blocks: nat)

  function Join(a: Parts, b: Parts): Parts {
    Parts(a.content + b.content, a.reasoning + b.reasoning, a.blocks + b.blocks)
  }

  const NOTHING: Parts := Parts([], [], 0)

  /** The reference: one scan of the text, character by character, starting in `span`. */
  function Scan(span: Span, t: Text): Parts
    decreases |t|
  {
    if t == [] then NOTHING
    else
      match span
      case Tool => NOTHING
      case Think =>
        if StartsWith(t, TH_END) then Scan(Content, After(t, |TH_END|))
        else Join(Parts([], [t[0]], 0), Scan(Think, After(t, 1)))
      case Content =>
        if StartsWith(t, TH) then Join(Parts([], [], 1), Scan(Think, After(t, |TH|)))
        else if StartsWith(t, TC) then NOTHING
        else Join(Parts([t[0]], [], 0), Scan(Content, After(t, 1)))
  }

  lemma JoinAssoc(a: Parts, b: Parts, c: Parts)
    ensures Join(Join(a, b), c) == Join(a, Join(b, c))
  {
    Assoc(a.content, b.content, c.content);
    Assoc(a.reasoning, b.reasoning, c.reasoning);
  }

  lemma JoinNothing(a: Parts)
    ensures Join(a, NOTHING) == a && Join(NOTHING, a) == a
  {
  }

  // ---- Where tags cannot start.

  /** None of the tags starts at position `i` of any continuation of `h`. */
  ghost predicate NoneAt(h: Text, i: nat, tag: Text) {
    i <= |h| && forall f: Text :: !StartsWith(After(h, i) + f, tag)
  }

  lemma {:induction false} NotBeforeCut(t: Text, tag: Text, i: nat)
    requires tag != [] && i <= |t| && (Cut(t, tag).Some? ==> i < |Cut(t, tag).value.0|)
    ensures !StartsWith(After(t, i), tag)
    decreases |t|
  {
    hide After, StartsWith, Cut;
    CutStep(t, tag);
    if i > 0 {
      NotBeforeCut(After(t, 1), tag, i - 1);
      AfterAfter(t, 1, i - 1);
    } else {
      AfterAll(t);
    }
  }

  lemma AfterAll(t: Text)
    ensures After(t, 0) == t
  {
  }

  /** The first tag of a text starts at its front, or a character later than in the rest. */
  lemma CutStep(t: Text, tag: Text)
    requires tag != []
    ensures var r := Cut(t, tag);
      if StartsWith(t, tag) then r.Some? && r.value.0 == []
      else if t == [] then r == None
      else var rest := Cut(After(t, 1), tag);
        r.Some? == rest.Some? && (r.Some? ==> |r.value.0| == |rest.value.0| + 1)
  {
    hide After, StartsWith;
  }

  /** Before a complete tag no tag starts. */
  lemma NoneBefore(h: Text, tag: Text, other: Text, i: nat)
    requires Tag(tag) && Tag(other) && Cut(h, other).Some? && i < |Cut(h, other).value.0|
    requires Cut(h, tag).Some? ==> |Cut(h, other).value.0| <= |Cut(h, tag).value.0|
    ensures NoneAt(h, i, tag)
  {
    hide After;
    var (a, b) := Cut(h, other).value;
    CutParts(h, other);
    NotBeforeCut(h, tag, i);
    var v := After(a, i);
    AfterPart(a, other + b, i);
    Assoc(a, other, b);
    assert After(h, i) == v + (other + b);
    assert !StartsWith(v, tag);
    forall f: Text
      ensures !StartsWith(After(h, i) + f, tag)
    {
      NoTagAcross(v, tag, other, b + f);
      assert After(h, i) + f == v + other + (b + f);
    }
  }

  /** Where what is left is neither a tag nor the start of one, none starts. */
  lemma NoneUnheld(h: Text, tag: Text, i: nat)
    requires tag != [] && Cut(h, tag) == None && i < |h| && !StartsWith(tag, After(h, i))
    ensures NoneAt(h, i, tag)
  {
    NotBeforeCut(h, tag, i);
    var s := After(h, i);
    forall f: Text
      ensures !StartsWith(s + f, tag)
    {
      if |tag| <= |s| {
        var k :| 0 <= k < |tag| && s[k] != tag[k];
        assert (s + f)[k] == s[k];
      } else {
        var k :| 0 <= k < |s| && s[k] != tag[k];
        assert (s + f)[k] == s[k];
      }
    }
  }

  /** A stretch in which no tag starts holds no tag. */
  lemma {:induction false} NoTagIn(h: Text, k: nat, tag: Text)
    requires tag != [] && k <= |h| && forall i :: 0 <= i < k ==> NoneAt(h, i, tag)
    ensures Cut(Upto(h, k), tag) == None
    decreases |h|
  {
    var t := Upto(h, k);
    if k > 0 {
      assert NoneAt(h, 0, tag);
      assert After(h, 0) + [] == h;
      assert StartsWith(t, tag) ==> StartsWith(h, tag);
      forall i | 0 <= i < k - 1
        ensures NoneAt(After(h, 1), i, tag)
      {
        assert NoneAt(h, i + 1, tag);
        AfterAfter(h, 1, i);
      }
      NoTagIn(After(h, 1), k - 1, tag);
      assert Upto(After(h, 1), k - 1) == After(t, 1);
    }
  }

  // ---- What a stretch without tags yields.

  lemma ContentChar(h: Text, f: Text)
    requires h != [] && NoneAt(h, 0, TH) && NoneAt(h, 0, TC)
    ensures Scan(Content, h + f) == Join(Parts([h[0]], [], 0), Scan(Content, After(h, 1) + f))
  {
    hide After, StartsWith;
    WholeAfter(h);
    AfterPart(h, f, 1);
  }

  lemma ThinkChar(h: Text, f: Text)
    requires h != [] && NoneAt(h, 0, TH_END)
    ensures Scan(Think, h + f) == Join(Parts([], [h[0]], 0), Scan(Think, After(h, 1) + f))
  {
    hide After, StartsWith;
    WholeAfter(h);
    AfterPart(h, f, 1);
  }

  lemma WholeAfter(h: Text)
    ensures After(h, 0) == h && Upto(h, 0) == []
  {
  }

  lemma UptoStep(h: Text, k: nat)
    requires 0 < k <= |h|
    ensures Upto(h, k) == [h[0]] + Upto(After(h, 1), k - 1) && After(After(h, 1), k - 1) == After(h, k)
  {
  }

  lemma {:induction false} PlainContent(h: Text, k: nat, f: Text)
    requires k <= |h| && forall i :: 0 <= i < k ==> NoneAt(h, i, TH) && NoneAt(h, i, TC)
    ensures Scan(Content, h + f) == Join(Parts(Upto(h, k), [], 0), Scan(Content, After(h, k) + f))
    decreases |h|
  {
    hide After, Upto, NoneAt, Scan;
    if k == 0 {
      WholeAfter(h);
      JoinNothing(Scan(Content, h + f));
    } else {
      ContentChar(h, f);
      NextNone(h, k, TH);
      NextNone(h, k, TC);
      PlainContent(After(h, 1), k - 1, f);
      UptoStep(h, k);
      JoinAssoc(Parts([h[0]], [], 0), Parts(Upto(After(h, 1), k - 1), [], 0), Scan(Content, After(h, k) + f));
    }
  }

  lemma NextNone(h: Text, k: nat, tag: Text)
    requires 0 < k <= |h| && forall i :: 0 <= i < k ==> NoneAt(h, i, tag)
    ensures forall i :: 0 <= i < k - 1 ==> NoneAt(After(h, 1), i, tag)
  {
    forall i | 0 <= i < k - 1
      ensures NoneAt(After(h, 1), i, tag)
    {
      assert NoneAt(h, i + 1, tag);
      AfterAfter(h, 1, i);
    }
  }

  lemma {:induction false} PlainThink(h: Text, k: nat, f: Text)
    requires k <= |h| && forall i :: 0 <= i < k ==> NoneAt(h, i, TH_END)
    ensures Scan(Think, h + f) == Join(Parts([], Upto(h, k), 0), Scan(Think, After(h, k) + f))
    decreases |h|
  {
    hide After, Upto, NoneAt, Scan;
    if k == 0 {
      WholeAfter(h);
      JoinNothing(Scan(Think, h + f));
    } else {
      ThinkChar(h, f);
      NextNone(h, k, TH_END);
      PlainThink(After(h, 1), k - 1, f);
      UptoStep(h, k);
      JoinAssoc(Parts([], [h[0]], 0), Parts([], Upto(After(h, 1), k - 1), 0), Scan(Think, After(h, k) + f));
    }
  }

  /** A tag at the front. */
  lemma ScanTag(tag: Text, b: Text)
    requires tag == TH || tag == TC
    ensures Scan(Content, TH + b) == Join(Parts([], [], 1), Scan(Think, b))
    ensures Scan(Content, TC + b) == NOTHING && Scan(Think, TH_END + b) == Scan(Content, b)
  {
    StartsWithSelf(TH, b);
    StartsWithSelf(TC, b);
    StartsWithSelf(TH_END, b);
    assert (TC + b)[1] == 't' && (TC + b)[2] == 'o';
  }

  // ---- The events.

  function SaidText(e: seq<Event>): Text {
    if e == [] then [] else SaidText(e[..|e| - 1]) + (if e[|e| - 1].Said? then e[|e| - 1].text else [])
  }

  function ReasonedText(e: seq<Event>): Text {
    if e == [] then [] else ReasonedText(e[..|e| - 1]) + (if e[|e| - 1].Reasoned? then e[|e| - 1].text else [])
  }

  /** What has been sent. */
  function Sent(e: seq<Event>, blocks: nat): Parts {
    Parts(SaidText(e), ReasonedText(e), blocks)
  }

  lemma SentMore(e: seq<Event>, x: Event, blocks: nat)
    ensures Sent(e + [x], blocks) == Join(Sent(e, blocks), if x.Said? then Parts(x.text, [], 0) else Parts([], x.text, 0))
  {
    assert (e + [x])[..|e|] == e;
  }

  /** No content delta holds a complete opening tag. */
  predicate NoMarkup(e: seq<Event>) {
    forall i :: 0 <= i < |e| && e[i].Said? ==> Cut(e[i].text, TH) == None && Cut(e[i].text, TC) == None
  }

  /** However the completion goes on, what it will yield is what has been sent and what the held
      text will yield with it. */
  ghost predicate Sim(p: Text, out: Parts, span: Span, hold: Text) {
    forall f: Text :: SimAt(p, out, span, hold, f)
  }

  ghost predicate SimAt(p: Text, out: Parts, span: Span, hold: Text, f: Text) {
    Scan(Content, p + f) == Join(out, Scan(span, hold + f))
  }

  lemma SimDelta(p: Text, out: Parts, span: Span, hold: Text, d: Text)
    requires Sim(p, out, span, hold)
    ensures Sim(p + d, out, span, hold + d)
  {
    forall f: Text
      ensures SimAt(p + d, out, span, hold + d, f)
    {
      assert SimAt(p, out, span, hold, d + f);
      Assoc(p, d, f);
      Assoc(hold, d, f);
    }
  }

  lemma SimContent(p: Text, out: Parts, hold: Text, k: nat)
    requires Sim(p, out, Content, hold) && k <= |hold| && forall i :: 0 <= i < k ==> NoneAt(hold, i, TH) && NoneAt(hold, i, TC)
    ensures Sim(p, Join(out, Parts(Upto(hold, k), [], 0)), Content, After(hold, k))
  {
    hide Scan, After, Upto, NoneAt;
    forall f: Text
      ensures SimAt(p, Join(out, Parts(Upto(hold, k), [], 0)), Content, After(hold, k), f)
    {
      assert SimAt(p, out, Content, hold, f);
      PlainContent(hold, k, f);
      JoinAssoc(out, Parts(Upto(hold, k), [], 0), Scan(Content, After(hold, k) + f));
    }
  }

  lemma SimThink(p: Text, out: Parts, hold: Text, k: nat)
    requires Sim(p, out, Think, hold) && k <= |hold| && forall i :: 0 <= i < k ==> NoneAt(hold, i, TH_END)
    ensures Sim(p, Join(out, Parts([], Upto(hold, k), 0)), Think, After(hold, k))
  {
    hide Scan, After, Upto, NoneAt;
    forall f: Text
      ensures SimAt(p, Join(out, Parts([], Upto(hold, k), 0)), Think, After(hold, k), f)
    {
      assert SimAt(p, out, Think, hold, f);
      PlainThink(hold, k, f);
      JoinAssoc(out, Parts([], Upto(hold, k), 0), Scan(Think, After(hold, k) + f));
    }
  }

  /** A tag at the front of the held text is taken. */
  lemma SimTag(p: Text, out: Parts, span: Span, b: Text)
    ensures span == Content && Sim(p, out, span, TH + b) ==> Sim(p, Join(out, Parts([], [], 1)), Think, b)
    ensures span == Think && Sim(p, out, span, TH_END + b) ==> Sim(p, out, Content, b)
    ensures span == Content && Sim(p, out, span, TC + b) ==> Sim(p, out, Tool, TC + b)
  {
    hide Scan;
    forall f: Text
      ensures span == Content && Sim(p, out, span, TH + b) ==> SimAt(p, Join(out, Parts([], [], 1)), Think, b, f)
      ensures span == Think && Sim(p, out, span, TH_END + b) ==> SimAt(p, out, Content, b, f)
      ensures span == Content && Sim(p, out, span, TC + b) ==> SimAt(p, out, Tool, TC + b, f)
    {
      ScanTag(TH, b + f);
      Assoc(TH, b, f);
      Assoc(TH_END, b, f);
      Assoc(TC, b, f);
      JoinAssoc(out, Parts([], [], 1), Scan(Think, b + f));
      ToolYieldsNothing(TC + b + f);
      assert Sim(p, out, span, TH + b) ==> SimAt(p, out, span, TH + b, f);
      assert Sim(p, out, span, TH_END + b) ==> SimAt(p, out, span, TH_END + b, f);
      assert Sim(p, out, span, TC + b) ==> SimAt(p, out, span, TC + b, f);
    }
  }

  lemma ToolYieldsNothing(t: Text)
    ensures Scan(Tool, t) == NOTHING
  {
  }

  // ---- The splitter.

  /** What is held from position `i` on may still become the tag. */
  predicate MayBecome(hold: Text, i: nat, tag: Text)
    requires i <= |hold|
  {
    StartsWith(tag, After(hold, i))
  }

  /** The longest end of the held text that may still become one of the tags. */
  method HeldSuffix(hold: Text, tags: seq<Text>) returns (keep: nat)
    ensures keep <= |hold|
    ensures keep > 0 ==> exists j :: 0 <= j < |tags| && MayBecome(hold, |hold| - keep, tags[j])
    ensures forall j, i :: 0 <= j < |tags| && 0 <= i < |hold| - keep ==> !MayBecome(hold, i, tags[j])
  {
    hide MayBecome;
    keep := 0;
    var j := 0;
    while j < |tags|
      invariant j <= |tags| && keep <= |hold|
      invariant keep > 0 ==> exists j :: 0 <= j < |tags| && MayBecome(hold, |hold| - keep, tags[j])
      invariant forall k, i :: 0 <= k < j && 0 <= i < |hold| - keep ==> !MayBecome(hold, i, tags[k])
    {
      var best := HeldFor(hold, tags[j]);
      if best > keep {
        keep := best;
      }
      j := j + 1;
    }
  }

  method HeldFor(hold: Text, tag: Text) returns (keep: nat)
    ensures keep <= |hold| && (keep > 0 ==> MayBecome(hold, |hold| - keep, tag))
    ensures forall i :: 0 <= i < |hold| - keep ==> !MayBecome(hold, i, tag)
  {
    keep := 0;
    var k := 1;
    var most := if |tag| < |hold| then |tag| else |hold|;
    TooLong(hold, tag);
    hide MayBecome;
    while k <= most
      invariant 1 <= k <= most + 1 && keep < k && keep <= |hold| && (keep > 0 ==> MayBecome(hold, |hold| - keep, tag))
      invariant forall i :: |hold| - k < i < |hold| - keep ==> !MayBecome(hold, i, tag)
    {
      if MayBecome(hold, |hold| - k, tag) {
        keep := k;
      }
      k := k + 1;
    }
  }

  lemma TooLong(hold: Text, tag: Text)
    ensures forall i :: 0 <= i < |hold| - |tag| ==> !MayBecome(hold, i, tag)
  {
  }

  class StreamSplit {
    var hold: Text
    var span: Span
    var thinkBlocks: nat
    /** What has been written to the client. */
    var sent: seq<Event>

    /** `p` is everything pushed. */
    ghost predicate Ok(p: Text)
      reads this
    {
      Sim(p, Sent(sent, thinkBlocks), span, hold) && NoMarkup(sent)
    }

    /** No tag is complete in the held text. */
    predicate Quiet()
      reads this
    {
      match span
      case Content => Cut(hold, TH) == None && Cut(hold, TC) == None
      case Think => Cut(hold, TH_END) == None
      case Tool => true
    }

    constructor ()
      ensures Ok([]) && Quiet() && sent == []
    {
      hold, span, thinkBlocks, sent := [], Content, 0, [];
      new;
      forall f: Text
        ensures SimAt([], Sent(sent, thinkBlocks), Content, [], f)
      {
        JoinNothing(Scan(Content, [] + f));
      }
    }

    /** Send the first `k` held characters as content. */
    method Say(k: nat, ghost p: Text)
      requires Ok(p) && span == Content && k <= |hold|
      requires forall i :: 0 <= i < k ==> NoneAt(hold, i, TH) && NoneAt(hold, i, TC)
      modifies this`hold, this`sent
      ensures Ok(p) && hold == After(old(hold), k)
    {
      hide Scan, Sim, NoneAt, SaidText, ReasonedText, After, Upto;
      SimContent(p, Sent(sent, thinkBlocks), hold, k);
      NoTagIn(hold, k, TH);
      NoTagIn(hold, k, TC);
      var text := Upto(hold, k);
      if k > 0 {
        SentMore(sent, Said(text), thinkBlocks);
        sent := sent + [Said(text)];
      } else {
        Empty(hold);
        assert Join(Sent(sent, thinkBlocks), Parts(text, [], 0)) == Sent(sent, thinkBlocks);
      }
      hold := After(hold, k);
    }

    method Reason(k: nat, ghost p: Text)
      requires Ok(p) && span == Think && k <= |hold| && forall i :: 0 <= i < k ==> NoneAt(hold, i, TH_END)
      modifies this`hold, this`sent
      ensures Ok(p) && hold == After(old(hold), k)
    {
      hide Scan, Sim, NoneAt, SaidText, ReasonedText, After, Upto;
      SimThink(p, Sent(sent, thinkBlocks), hold, k);
      var text := Upto(hold, k);
      if k > 0 {
        SentMore(sent, Reasoned(text), thinkBlocks);
        sent := sent + [Reasoned(text)];
      } else {
        Empty(hold);
        assert Join(Sent(sent, thinkBlocks), Parts([], text, 0)) == Sent(sent, thinkBlocks);
      }
      hold := After(hold, k);
    }

    lemma Empty(h: Text)
      ensures Upto(h, 0) == []
    {
    }

    /** Take in a delta and send what is settled. */
    method Push(delta: Text, ghost p: Text)
      requires Ok(p) && Quiet()
      modifies this
      ensures Ok(p + delta) && Quiet()
    {
      hide Scan, Sim, NoMarkup;
      SimDelta(p, Sent(sent, thinkBlocks), span, hold, delta);
      hold := hold + delta;
      var going := true;
      while going
        invariant Ok(p + delta) && (!going ==> Quiet())
        decreases |hold|, if span == Tool then 0 else 1, going
      {
        match span {
          case Tool => going := false;
          case Think => going := InThink(p + delta);
          case Content => going := InContent(p + delta);
        }
      }
    }

    /** One turn inside a think block. */
    method InThink(ghost p: Text) returns (going: bool)
      requires Ok(p) && span == Think
      modifies this
      ensures Ok(p) && (!going ==> Quiet()) && (going ==> |hold| < |old(hold)|) && |hold| <= |old(hold)|
    {
      hide Scan, Sim, NoneAt, NoMarkup, StartsWith, MayBecome;
      var at := Find(hold, TH_END);
      if at.Some? {
        CloseThink(at.value, p);
        return true;
      }
      var keep := HeldSuffix(hold, [TH_END]);
      var flush := |hold| - keep;
      assert [TH_END][0] == TH_END;
      Unheld(hold, TH_END, flush);
      StillNone(hold, TH_END, flush);
      Reason(flush, p);
      return false;
    }

    method CloseThink(at: nat, ghost p: Text)
      requires Ok(p) && span == Think && Find(hold, TH_END) == Some(at)
      modifies this
      ensures Ok(p) && span == Content && |hold| < |old(hold)|
    {
      hide Scan, Sim, NoneAt, NoMarkup, StartsWith;
      CutParts(hold, TH_END);
      ghost var (a, b) := Cut(hold, TH_END).value;
      TagsAreTags();
      forall i | 0 <= i < at
        ensures NoneAt(hold, i, TH_END)
      {
        NoneBefore(hold, TH_END, TH_END, i);
      }
      AfterJoin(a, TH_END + b);
      Assoc(a, TH_END, b);
      Reason(at, p);
      AfterJoin(TH_END, b);
      SimTag(p, Sent(sent, thinkBlocks), Think, b);
      hold := After(hold, |TH_END|);
      span := Content;
    }

    /** Where the held end may become neither tag, none starts. */
    lemma Unheld(h: Text, tag: Text, flush: nat)
      requires Tag(tag) && flush <= |h| && Cut(h, tag) == None && forall i :: 0 <= i < flush ==> !MayBecome(h, i, tag)
      ensures forall i :: 0 <= i < flush ==> NoneAt(h, i, tag)
    {
      hide NoneAt, After;
      forall i | 0 <= i < flush
        ensures NoneAt(h, i, tag)
      {
        assert !MayBecome(h, i, tag);
        NoneUnheld(h, tag, i);
      }
    }

    /** One turn outside blocks. */
    method InContent(ghost p: Text) returns (going: bool)
      requires Ok(p) && span == Content
      modifies this
      ensures Ok(p) && (!going ==> Quiet()) && |hold| <= |old(hold)|
      ensures going ==> |hold| < |old(hold)| || span == Tool
    {
      hide Scan, Sim, NoneAt, NoMarkup, StartsWith, MayBecome;
      var think, tool := Find(hold, TH), Find(hold, TC);
      if think.Some? && (tool.None? || think.value < tool.value) {
        OpenThink(p);
        return true;
      }
      if tool.Some? {
        SayBefore(TC, TH, p);
        SimTag(p, Sent(sent, thinkBlocks), Content, After(hold, |TC|));
        span := Tool;
        return true;
      }
      var keep := HeldSuffix(hold, [TH, TC]);
      var flush := |hold| - keep;
      assert [TH, TC][0] == TH && [TH, TC][1] == TC;
      Unheld(hold, TH, flush);
      Unheld(hold, TC, flush);
      StillNone(hold, TH, flush);
      StillNone(hold, TC, flush);
      Say(flush, p);
      return false;
    }

    method OpenThink(ghost p: Text)
      requires Ok(p) && span == Content && Find(hold, TH).Some?
      requires Find(hold, TC).Some? ==> Find(hold, TH).value <= Find(hold, TC).value
      modifies this
      ensures Ok(p) && span == Think && |hold| < |old(hold)|
    {
      hide Scan, Sim, NoneAt, NoMarkup, StartsWith;
      SayBefore(TH, TC, p);
      ghost var b := After(hold, |TH|);
      SimTag(p, Sent(sent, thinkBlocks), Content, b);
      MoreBlocks(sent, thinkBlocks);
      hold := After(hold, |TH|);
      span := Think;
      thinkBlocks := thinkBlocks + 1;
    }

    lemma MoreBlocks(e: seq<Event>, n: nat)
      ensures Sent(e, n + 1) == Join(Sent(e, n), Parts([], [], 1))
    {
    }

    /** Send the content before the first tag; the tag stays at the front. */
    method SayBefore(tag: Text, other: Text, ghost p: Text)
      requires Ok(p) && span == Content && ((tag == TH && other == TC) || (tag == TC && other == TH))
      requires Find(hold, tag).Some? && (Find(hold, other).Some? ==> Find(hold, tag).value <= Find(hold, other).value)
      modifies this`hold, this`sent
      ensures Ok(p) && |hold| <= |old(hold)| && |tag| <= |hold| && hold == tag + After(hold, |tag|)
    {
      hide Scan, Sim, NoneAt, NoMarkup;
      CutParts(hold, tag);
      ghost var (a, b) := Cut(hold, tag).value;
      var at := Find(hold, tag).value;
      forall i | 0 <= i < at
        ensures NoneAt(hold, i, TH) && NoneAt(hold, i, TC)
      {
        NoneBefore(hold, TH, tag, i);
        NoneBefore(hold, TC, tag, i);
      }
      AfterJoin(a, tag + b);
      Assoc(a, tag, b);
      Say(at, p);
      AfterJoin(tag, b);
    }

    /** What is still held when the completion ends is plain text or the rest of a think block. */
    method Finish(ghost p: Text)
      requires Ok(p) && Quiet()
      modifies this
      ensures Sent(sent, thinkBlocks) == Scan(Content, p) && NoMarkup(sent)
      ensures span != Tool ==> hold == []
    {
      hide NoneAt, SaidText, ReasonedText;
      match span {
        case Content =>
          forall i | 0 <= i < |hold|
            ensures NoneAtEnd(hold, i, TH) && NoneAtEnd(hold, i, TC)
          {
            NotBeforeCut(hold, TH, i);
            NotBeforeCut(hold, TC, i);
          }
          EndContent(hold);
          assert SimAt(p, Sent(sent, thinkBlocks), Content, hold, []);
          assert p + [] == p && hold + [] == hold;
          if hold != [] {
            SentMore(sent, Said(hold), thinkBlocks);
            sent := sent + [Said(hold)];
          }
          hold := [];
        case Think =>
          EndThink(hold);
          assert SimAt(p, Sent(sent, thinkBlocks), Think, hold, []);
          assert p + [] == p && hold + [] == hold;
          if hold != [] {
            SentMore(sent, Reasoned(hold), thinkBlocks);
            sent := sent + [Reasoned(hold)];
          }
          hold := [];
        case Tool =>
          assert SimAt(p, Sent(sent, thinkBlocks), Tool, hold, []);
          assert p + [] == p;
          ToolYieldsNothing(hold + []);
          JoinNothing(Sent(sent, thinkBlocks));
      }
    }
  }

  predicate NoneAtEnd(h: Text, i: nat, tag: Text)
    requires i <= |h|
  {
    !StartsWith(After(h, i), tag)
  }

  /** Text without an opening tag is all content. */
  lemma {:induction false} EndContent(h: Text)
    requires Cut(h, TH) == None && Cut(h, TC) == None
    ensures Scan(Content, h) == Parts(h, [], 0)
    decreases |h|
  {
    hide After, StartsWith;
    if h != [] {
      EndContent(After(h, 1));
      assert h == [h[0]] + After(h, 1);
    }
  }

  lemma {:induction false} EndThink(h: Text)
    requires Cut(h, TH_END) == None
    ensures Scan(Think, h) == Parts([], h, 0)
    decreases |h|
  {
    hide After, StartsWith;
    if h != [] {
      EndThink(After(h, 1));
      assert h == [h[0]] + After(h, 1);
    }
  }

  lemma {:induction false} StillNone(h: Text, tag: Text, k: nat)
    requires tag != [] && k <= |h| && Cut(h, tag) == None
    ensures Cut(After(h, k), tag) == None
    decreases |h|
  {
    hide After;
    if k == 0 {
      AfterJoin([], h);
      assert [] + h == h;
    } else {
      StillNone(After(h, 1), tag, k - 1);
      AfterAfter(h, 1, k - 1);
    }
  }

  function All(deltas: seq<Text>): Text {
    if deltas == [] then [] else All(deltas[..|deltas| - 1]) + deltas[|deltas| - 1]
  }

  /** Any way of cutting a completion into deltas sends the same content and reasoning: those of
      one scan of the whole text. No content delta holds a complete opening tag. */
  method Stream(deltas: seq<Text>) returns (sent: seq<Event>, thinkBlocks: nat)
    ensures Sent(sent, thinkBlocks) == Scan(Content, All(deltas)) && NoMarkup(sent)
  {
    var s := new StreamSplit();
    var i := 0;
    assert deltas[..0] == [];
    while i < |deltas|
      invariant i <= |deltas| && s.Ok(All(deltas[..i])) && s.Quiet() && fresh(s)
    {
      assert deltas[..i + 1][..i] == deltas[..i];
      s.Push(deltas[i], All(deltas[..i]));
      i := i + 1;
    }
    assert deltas[..|deltas|] == deltas;
    s.Finish(All(deltas));
    return s.sent, s.thinkBlocks;
  }
}
