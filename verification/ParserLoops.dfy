/** The parser as it runs: a cursor over the text, lists that grow; and its agreement with what was
    streamed while the text was being generated. */
module ParserLoops {
  import opened Basics
  import opened Markup
  import opened Json
  import opened ToolCalls
  import S = Streaming

  /** What has been collected so far, in front of what the rest gives. */
  function Wrap(args: seq<(Text, Json)>, reports: seq<Report>, p: Params): Params {
    match p
    case Closed(more, rest, later) => Closed(args + more, rest, reports + later)
    case Lost(later) => Lost(reports + later)
    case Hangs => Hangs
  }

  lemma WrapArg(args: seq<(Text, Json)>, reports: seq<Report>, a: (Text, Json), p: Params)
    ensures Wrap(args, reports, WithArg(a, p)) == Wrap(args + [a], reports, p)
  {
    if p.Closed? {
      assert args + ([a] + p.args) == (args + [a]) + p.args;
    }
  }

  lemma WrapReport(args: seq<(Text, Json)>, reports: seq<Report>, r: Report, p: Params)
    ensures Wrap(args, reports, WithReport(r, p)) == Wrap(args, reports + [r], p)
  {
    match p
    case Closed(more, rest, later) => assert reports + ([r] + later) == (reports + [r]) + later;
    case Lost(later) => assert reports + ([r] + later) == (reports + [r]) + later;
    case Hangs =>
  }

  lemma WrapEnds(args: seq<(Text, Json)>, reports: seq<Report>)
    ensures Wrap(args, reports, Lost([LostCall])) == Lost(reports + [LostCall]) && Wrap(args, reports, Hangs) == Hangs
  {
  }

  lemma WrapNothing(p: Params)
    ensures Wrap([], [], p) == p
  {
  }

  /** Read the parameters of a call with a cursor. */
  method ReadParamsLoop(t: Text) returns (p: Params)
    ensures p == ReadParams(t)
  {
    hide Coerce, StartsWith, Cut, After, Upto;
    var args: seq<(Text, Json)>, reports: seq<Report> := [], [];
    var rest := t;
    WrapNothing(ReadParams(t));
    while true
      invariant ReadParams(t) == Wrap(args, reports, ReadParams(rest))
      decreases |rest|
    {
      hide Wrap;
      if StartsWith(rest, FN_END) {
        return Done(args, reports, After(rest, Fits(rest, FN_END)), []);
      }
      if StartsWith(rest, TC_END) || rest == [] {
        return Done(args, reports, rest, []);
      }
      if StartsWith(rest, PA) {
        var k := Cut(After(rest, Fits(rest, PA)), ">");
        if k.None? {
          return Done(args, reports, [], [UnparsedTail]);
        }
        var v := Cut(k.value.1, PA_END);
        if v.None? {
          WrapEnds(args, reports);
          return Lost(reports + [LostCall]);
        }
        var a := (k.value.0, Coerce(v.value.0));
        WrapArg(args, reports, a, ReadParams(v.value.1));
        args := args + [a];
        rest := v.value.1;
      } else if StartsWith(rest, PA_END) {
        rest := After(rest, Fits(rest, PA_END));
      } else {
        var next := Find(rest, "<");
        if next == Some(0) {
          WrapEnds(args, reports);
          return Hangs;
        }
        var to := if next.Some? && next.value <= |rest| then After(rest, next.value) else [];
        WrapReport(args, reports, UnparsedTail, ReadParams(to));
        reports := reports + [UnparsedTail];
        rest := to;
      }
    }
    p := Hangs;
  }

  function Done(args: seq<(Text, Json)>, reports: seq<Report>, rest: Text, more: seq<Report>): (r: Params)
    ensures r == Wrap(args, reports, Closed([], rest, more))
  {
    assert args + [] == args;
    Closed(args, rest, reports + more)
  }

  /** The length of a tag the text starts with. */
  function Fits(t: Text, tag: Text): (n: nat)
    requires StartsWith(t, tag)
    ensures n == |tag| <= |t|
  {
    |tag|
  }

  /** Parse a completion with a cursor; none when the parser never ends, which is when the cursor
      reaches a call whose parameters hold a stray `<`. */
  method ParseLoop(t: Text, cap: nat) returns (p: Option<Parsed>)
    ensures p == ParseAll(t, cap)
    ensures p.None? <==> exists n: nat :: HangsAfter(t, 0, cap, n)
  {
    hide HangsAfter;
    CompletionHangs(t, cap);
    hide StartsWith, Cut, After, Upto, ReadCall;
    var r := NOTHING;
    var rest := t;
    while rest != []
      invariant ParseFrom(rest, r, cap) == ParseFrom(t, NOTHING, cap)
      decreases |rest|
    {
      if StartsWith(rest, TH) {
        var b := Cut(rest, TH_END);
        if b.Some? && |TH| <= |b.value.0| {
          r := r.(reasoning := r.reasoning + [After(b.value.0, |TH|)]);
          rest := b.value.1;
        } else {
          return Some(r.(reasoning := r.reasoning + [After(rest, Fits(rest, TH))]));
        }
      } else if StartsWith(rest, TC) {
        if cap != 0 && |r.calls| >= cap {
          return Some(r.(capped := true));
        }
        var body := After(rest, Fits(rest, TC));
        CallShrinks(body);
        var c := ReadCallLoop(body);
        match c {
          case Endless => return None;
          case Nameless => return Some(r.(content := [], calls := [], error := true));
          case Read(call, after, reports) =>
            r := r.(calls := if call.Some? then r.calls + [call.value] else r.calls, reports := r.reports + reports);
            rest := after;
        }
      } else {
        r := r.(content := r.content + [rest[0]]);
        rest := After(rest, 1);
      }
    }
    p := Some(r);
  }

  method ReadCallLoop(s: Text) returns (r: CallRead)
    ensures r == ReadCall(s)
  {
    hide ReadParams, Cut;
    var f := Cut(s, FN);
    if f.None? {
      return if Cut(s, PA).Some? then Nameless else Read(None, [], []);
    }
    var n := Cut(f.value.1, ">");
    if n.None? {
      return Read(None, [], [LostCall]);
    }
    if n.value.0 == [] {
      return Nameless;
    }
    var p := ReadParamsLoop(n.value.1);
    match p {
      case Hangs => r := Endless;
      case Lost(reports) => r := Read(None, [], reports);
      case Closed(args, rest, reports) =>
        if StartsWith(rest, TC_END) {
          r := Read(Some(Call(n.value.0, args)), After(rest, |TC_END|), reports);
        } else {
          r := Read(None, [], reports + [LostCall]);
        }
    }
  }

  // ---- What was streamed and what is parsed.

  function Joined(blocks: seq<Text>): Text {
    if blocks == [] then [] else blocks[0] + Joined(blocks[1..])
  }

  /** Parsing on only adds to the content and the reasoning. */
  lemma {:induction false} ParseGrows(t: Text, r: Parsed, cap: nat)
    requires ParseFrom(t, r, cap).Some? && !ParseFrom(t, r, cap).value.error
    ensures r.content <= ParseFrom(t, r, cap).value.content && r.reasoning <= ParseFrom(t, r, cap).value.reasoning
    decreases |t|
  {
    hide StartsWith, Cut, After, ReadCall;
    if t == [] {
    } else if StartsWith(t, TH) {
      var b := Cut(t, TH_END);
      if b.Some? && |TH| <= |b.value.0| {
        ParseGrows(b.value.1, r.(reasoning := r.reasoning + [After(b.value.0, |TH|)]), cap);
      }
    } else if StartsWith(t, TC) {
      if !(cap != 0 && |r.calls| >= cap) {
        var body := After(t, Fits(t, TC));
        CallShrinks(body);
        var c := ReadCall(body);
        if c.Read? {
          ParseGrows(c.rest, r.(calls := if c.call.Some? then r.calls + [c.call.value] else r.calls, reports := r.reports + c.reports), cap);
        }
      }
    } else {
      ParseGrows(After(t, 1), r.(content := r.content + [t[0]]), cap);
    }
  }

  /** A think block scanned is the text up to its closing tag, or all of it. */
  lemma {:induction false} ScanThink(t: Text)
    ensures S.Scan(S.Think, t) == match Cut(t, TH_END)
      case None => S.Parts([], t, 0)
      case Some(x) => S.Join(S.Parts([], x.0, 0), S.Scan(S.Content, x.1))
    decreases |t|
  {
    hide After, StartsWith;
    if t != [] {
      if StartsWith(t, TH_END) {
        S.JoinNothing(S.Scan(S.Content, After(t, Fits(t, TH_END))));
      } else {
        ScanThink(After(t, 1));
        HeadTail(t);
        var x := Cut(After(t, 1), TH_END);
        if x.Some? {
          S.JoinAssoc(S.Parts([], [t[0]], 0), S.Parts([], x.value.0, 0), S.Scan(S.Content, x.value.1));
        }
      }
    }
  }

  /** The closing tag of a block is behind its opening one. */
  lemma CutBehind(t: Text)
    requires StartsWith(t, TH)
    ensures match Cut(t, TH_END)
      case None => Cut(After(t, |TH|), TH_END) == None
      case Some(x) => |TH| <= |x.0| && Cut(After(t, |TH|), TH_END) == Some((After(x.0, |TH|), x.1))
  {
    Front(t, TH);
    var b := After(t, |TH|);
    TagsAreTags();
    assert (TH + b)[1] == 't';
    hide After;
    SkipFront(TH, b);
  }

  lemma {:induction false} SkipFront(a: Text, b: Text)
    requires a == [] || (Tag(a) && !StartsWith(a + b, TH_END)) || forall i :: 0 <= i < |a| ==> a[i] != '<'
    ensures match Cut(b, TH_END)
      case None => Cut(a + b, TH_END) == None
      case Some(x) => Cut(a + b, TH_END) == Some((a + x.0, x.1)) && After(a + x.0, |a|) == x.0
    decreases |a|
  {
    hide After;
    if a == [] {
      assert a + b == b;
      if Cut(b, TH_END).Some? {
        AfterJoin([], Cut(b, TH_END).value.0);
        assert [] + Cut(b, TH_END).value.0 == Cut(b, TH_END).value.0;
      }
    } else {
      assert (a + b)[0] == a[0];
      AfterPart(a, b, 1);
      SkipFront(After(a, 1), b);
      HeadTail(a);
      if Cut(b, TH_END).Some? {
        var x := Cut(b, TH_END).value.0;
        AfterJoin(a, x);
        Assoc([a[0]], After(a, 1), x);
      }
    }
  }

  /** Of what a parse adds, the content starts with what was streamed, and the first blocks of
      reasoning are what was streamed as reasoning. */
  ghost predicate Agrees(t: Text, r: Parsed, p: Parsed) {
    Adds(S.Scan(S.Content, t), r, p)
  }

  ghost predicate Adds(s: S.Parts, r: Parsed, p: Parsed) {
    && r.content + s.content <= p.content && r.reasoning <= p.reasoning
    && |r.reasoning| + s.blocks <= |p.reasoning|
    && Joined(p.reasoning[|r.reasoning|..|r.reasoning| + s.blocks]) == s.reasoning
  }

  /** The parse of the whole text agrees with its scan. */
  lemma {:induction false} StreamAgrees(t: Text, r: Parsed, cap: nat)
    requires cap == 0 && ParseFrom(t, r, cap).Some? && !ParseFrom(t, r, cap).value.error
    ensures Agrees(t, r, ParseFrom(t, r, cap).value)
    decreases |t|
  {
    hide StartsWith, Cut, After, ReadCall;
    var p := ParseFrom(t, r, cap).value;
    ParseGrows(t, r, cap);
    assert r.content + [] == r.content && p.reasoning[|r.reasoning|..|r.reasoning|] == [];
    if t == [] {
    } else if StartsWith(t, TH) {
      AgreesThink(t, r, cap);
    } else if StartsWith(t, TC) {
    } else {
      var q := r.(content := r.content + [t[0]]);
      StreamAgrees(After(t, 1), q, cap);
      Assoc(r.content, [t[0]], S.Scan(S.Content, After(t, 1)).content);
    }
  }

  lemma {:induction false} AgreesThink(t: Text, r: Parsed, cap: nat)
    requires cap == 0 && ParseFrom(t, r, cap).Some? && !ParseFrom(t, r, cap).value.error && t != [] && StartsWith(t, TH)
    ensures Agrees(t, r, ParseFrom(t, r, cap).value)
    decreases |t|, 0
  {
    hide StartsWith, Cut, After, ReadCall, Adds;
    var p := ParseFrom(t, r, cap).value;
    var body := After(t, Fits(t, TH));
    CutBehind(t);
    ScanThink(body);
    var b := Cut(t, TH_END);
    var x := if b.Some? then After(b.value.0, |TH|) else body;
    var q := r.(reasoning := r.reasoning + [x]);
    if b.Some? {
      StreamAgrees(b.value.1, q, cap);
      AddsBlock(S.Scan(S.Content, b.value.1), r, p, x);
    } else {
      AddsNone(q);
      AddsBlock(S.NOTHING, r, p, x);
      S.JoinNothing(S.Parts([], body, 0));
    }
  }

  lemma AddsNone(r: Parsed)
    ensures Adds(S.NOTHING, r, r)
  {
    assert r.content + [] == r.content && r.reasoning[|r.reasoning|..|r.reasoning|] == [];
  }

  /** A think block in front. */
  lemma AddsBlock(s: S.Parts, r: Parsed, p: Parsed, x: Text)
    requires Adds(s, r.(reasoning := r.reasoning + [x]), p)
    ensures Adds(S.Join(S.Parts([], [], 1), S.Join(S.Parts([], x, 0), s)), r, p)
  {
    var q := r.(reasoning := r.reasoning + [x]);
    assert p.reasoning[|r.reasoning|] == q.reasoning[|r.reasoning|] == x;
    OneBlock(p.reasoning, |r.reasoning|, s.blocks, x);
    assert [] + ([] + s.content) == s.content && [] + (x + s.reasoning) == x + s.reasoning;
  }

  lemma OneBlock(all: seq<Text>, k: nat, n: nat, x: Text)
    requires k + 1 + n <= |all| && all[k] == x
    ensures Joined(all[k..k + 1 + n]) == x + Joined(all[k + 1..k + 1 + n])
  {
    var s := all[k..k + 1 + n];
    assert s[0] == x && s[1..] == all[k + 1..k + 1 + n];
  }

  lemma {:induction false} JoinedSplit(a: seq<Text>, b: seq<Text>)
    ensures Joined(a + b) == Joined(a) + Joined(b)
  {
    if a == [] {
      assert a + b == b;
    } else {
      JoinedSplit(a[1..], b);
      assert (a + b)[1..] == a[1..] + b;
      Assoc(a[0], Joined(a[1..]), Joined(b));
    }
  }

  // ---- The text before the first tool call.

  /** The completion up to its first tool call outside think blocks. */
  function BeforeTool(t: Text): (b: Text)
    ensures b <= t
    decreases |t|
  {
    if t == [] then []
    else if StartsWith(t, TH) then
      var x := Cut(t, TH_END);
      if x.None? then t
      else
        CutParts(t, TH_END);
        x.value.0 + TH_END + BeforeTool(x.value.1)
    else if StartsWith(t, TC) then []
    else
      HeadTail(t);
      [t[0]] + BeforeTool(After(t, 1))
  }

  /** The think blocks before it, the last one perhaps not closed. */
  function BlocksBefore(t: Text): seq<Text>
    decreases |t|
  {
    if t == [] then []
    else if StartsWith(t, TH) then
      var x := Cut(t, TH_END);
      if x.None? then [After(t, |TH|)]
      else
        CutBehind(t);
        [After(x.value.0, |TH|)] + BlocksBefore(x.value.1)
    else if StartsWith(t, TC) then []
    else BlocksBefore(After(t, 1))
  }

  /** They are the reasoning of the scan. */
  lemma {:induction false} BlocksScanned(t: Text)
    ensures Joined(BlocksBefore(t)) == S.Scan(S.Content, t).reasoning
    ensures |BlocksBefore(t)| == S.Scan(S.Content, t).blocks
    decreases |t|
  {
    hide StartsWith, Cut, After;
    if t == [] {
    } else if StartsWith(t, TH) {
      var body := After(t, Fits(t, TH));
      CutBehind(t);
      ScanThink(body);
      var x := Cut(t, TH_END);
      if x.Some? {
        BlocksScanned(x.value.1);
        JoinedFirst(After(x.value.0, |TH|), BlocksBefore(x.value.1));
      } else {
        JoinedFirst(body, []);
      }
    } else if StartsWith(t, TC) {
    } else {
      BlocksScanned(After(t, 1));
    }
  }

  lemma JoinedFirst(x: Text, rest: seq<Text>)
    ensures Joined([x] + rest) == x + Joined(rest) && [] + (x + Joined(rest)) == x + Joined(rest)
  {
    assert ([x] + rest)[1..] == rest;
  }

  /** Text before the first of a tag has none. */
  lemma NoneInFront(t: Text, tag: Text)
    requires tag != [] && Cut(t, tag).Some?
    ensures Cut(Cut(t, tag).value.0, tag) == None
  {
    var x := Cut(t, tag).value;
    CutParts(t, tag);
    if Cut(x.0, tag).Some? {
      Assoc(x.0, tag, x.1);
      CutEarlier(x.0, tag, tag + x.1);
    }
  }

  /** A start of `t` starts with no tag that `t` does not start with. */
  lemma StartHas(t: Text, b: Text, tag: Text)
    requires b <= t && StartsWith(b, tag)
    ensures StartsWith(t, tag)
  {
  }

  /** Parsing the text before the first tool call gives the content and the blocks of the scan, no
      call and no report. */
  lemma {:induction false} BeforeParsed(t: Text, r: Parsed)
    ensures ParseFrom(BeforeTool(t), r, 0) ==
            Some(r.(content := r.content + S.Scan(S.Content, t).content, reasoning := r.reasoning + BlocksBefore(t)))
    decreases |t|
  {
    hide StartsWith, Cut, After, ReadCall;
    var b := BeforeTool(t);
    assert r.content + [] == r.content && r.reasoning + [] == r.reasoning;
    if t == [] {
    } else if StartsWith(t, TH) {
      BeforeThink(t, r);
    } else if StartsWith(t, TC) {
    } else {
      var q := r.(content := r.content + [t[0]]);
      BeforeParsed(After(t, 1), q);
      Assoc(r.content, [t[0]], S.Scan(S.Content, After(t, 1)).content);
      if StartsWith(b, TH) {
        StartHas(t, b, TH);
      }
      if StartsWith(b, TC) {
        StartHas(t, b, TC);
      }
      AfterJoin([t[0]], BeforeTool(After(t, 1)));
    }
  }

  lemma {:induction false} BeforeThink(t: Text, r: Parsed)
    requires t != [] && StartsWith(t, TH)
    ensures ParseFrom(BeforeTool(t), r, 0) ==
            Some(r.(content := r.content + S.Scan(S.Content, t).content, reasoning := r.reasoning + BlocksBefore(t)))
    decreases |t|, 0
  {
    hide StartsWith, Cut, After, ReadCall;
    var body := After(t, Fits(t, TH));
    CutBehind(t);
    ScanThink(body);
    var x := Cut(t, TH_END);
    if x.Some? {
      var rest := BeforeTool(x.value.1);
      var q := r.(reasoning := r.reasoning + [After(x.value.0, |TH|)]);
      BeforeParsed(x.value.1, q);
      NoneInFront(t, TH_END);
      CutParts(t, TH_END);
      TagsAreTags();
      CutFirst(x.value.0, TH_END, rest);
      StillStarts(t, x.value.0, x.value.1, rest);
      assert q.reasoning + BlocksBefore(x.value.1) == r.reasoning + ([After(x.value.0, |TH|)] + BlocksBefore(x.value.1));
      assert [] + ([] + S.Scan(S.Content, x.value.1).content) == S.Scan(S.Content, x.value.1).content;
    } else {
      assert r.content + ([] + []) == r.content;
    }
  }

  lemma StillStarts(t: Text, x: Text, y: Text, rest: Text)
    requires StartsWith(t, TH) && t == x + TH_END + y && |TH| <= |x|
    ensures StartsWith(x + TH_END + rest, TH)
  {
    forall i | 0 <= i < |TH|
      ensures (x + TH_END + rest)[i] == t[i]
    {
    }
  }

  /** Whatever the deltas were, what is streamed is exactly what the parser makes of the text before
      the first tool call: its content, and all of its reasoning. */
  lemma StreamedIsParsed(deltas: seq<Text>, sent: seq<S.Event>, blocks: nat)
    requires S.Sent(sent, blocks) == S.Scan(S.Content, S.All(deltas))
    ensures var p := ParseAll(BeforeTool(S.All(deltas)), 0);
      && p.Some? && !p.value.error && p.value.calls == [] && p.value.reports == []
      && S.SaidText(sent) == p.value.content
      && S.ReasonedText(sent) == Joined(p.value.reasoning) && blocks == |p.value.reasoning|
  {
    hide ParseFrom, S.Scan, S.SaidText, S.ReasonedText, BeforeTool, BlocksBefore;
    var t := S.All(deltas);
    hide S.All;
    BeforeParsed(t, NOTHING);
    BlocksScanned(t);
    assert [] + S.Scan(S.Content, t).content == S.Scan(S.Content, t).content && [] + BlocksBefore(t) == BlocksBefore(t);
  }

  /** And it is where the parse of the whole completion begins: the content streamed starts the
      parser's content, and the reasoning streamed followed by the blocks not yet streamed is all of
      the parser's. */
  lemma StreamedAll(deltas: seq<Text>, sent: seq<S.Event>, blocks: nat)
    requires S.Sent(sent, blocks) == S.Scan(S.Content, S.All(deltas))
    requires forall n: nat :: !HangsAfter(S.All(deltas), 0, 0, n)
    requires ParseAll(S.All(deltas), 0).Some? ==> !ParseAll(S.All(deltas), 0).value.error
    ensures ParseAll(S.All(deltas), 0).Some?
    ensures var p := ParseAll(S.All(deltas), 0).value;
      && S.SaidText(sent) <= p.content && blocks <= |p.reasoning|
      && S.ReasonedText(sent) + Joined(p.reasoning[blocks..]) == Joined(p.reasoning)
  {
    hide ParseFrom, S.Scan, S.SaidText, S.ReasonedText, HangsAfter;
    var t := S.All(deltas);
    hide S.All;
    CompletionHangs(t, 0);
    StreamAgrees(t, NOTHING, 0);
    Split(S.Scan(S.Content, t), ParseAll(t, 0).value);
  }

  lemma Split(s: S.Parts, p: Parsed)
    requires s.blocks <= |p.reasoning| && s.content <= p.content && s.reasoning == Joined(p.reasoning[..s.blocks])
    ensures s.reasoning + Joined(p.reasoning[s.blocks..]) == Joined(p.reasoning)
  {
    JoinedSplit(p.reasoning[..s.blocks], p.reasoning[s.blocks..]);
    assert p.reasoning[..s.blocks] + p.reasoning[s.blocks..] == p.reasoning;
  }
}
