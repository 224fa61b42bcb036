/** The tool-call markup: the parser of a completion and the renderer that is its inverse. Values
    are not escaped, so what the renderer writes is parsed back exactly when no value holds the
    closing parameter tag and no string reads as something else. */
module ToolCalls {
  import opened Basics
  import opened Markup
  import opened Json

  datatype Call = Call(name: Text, arguments: seq<(Text, Json)>)

  datatype Report = LostCall | UnparsedTail

  /** A value as the model wrote it, read without a schema: one newline is lost at either end; a
      JSON literal is what it stands for, anything else is text. */
  function Coerce(raw: Text): Json {
    var x := Strip(raw);
    var v := Parse(x);
    if v.Some? then v.value else Str(x)
  }

  function Strip(raw: Text): Text {
    var x := if raw != [] && raw[0] == '\n' then After(raw, 1) else raw;
    if x != [] && x[|x| - 1] == '\n' then Upto(x, |x| - 1) else x
  }

  /** The parameters of a call, the text after them and what was lost on the way; or the whole call
      lost; or a loop that never ends. */
  datatype Params = Closed(args: seq<(Text, Json)>, rest: Text, reports: seq<Report>) | Lost(reports: seq<Report>) | Hangs

  function WithArg(a: (Text, Json), p: Params): Params {
    if p.Closed? then p.(args := [a] + p.args) else p
  }

  function WithReport(r: Report, p: Params): Params {
    match p
    case Closed(args, rest, reports) => Closed(args, rest, [r] + reports)
    case Lost(reports) => Lost([r] + reports)
    case Hangs => Hangs
  }

  /** Parameters up to the end of the function or the call. Text that is none of the tags is
      reported and skipped up to the next `<`; when it starts with one, nothing is skipped. */
  function ReadParams(t: Text): Params
    decreases |t|
  {
    if StartsWith(t, FN_END) then Closed([], After(t, |FN_END|), [])
    else if StartsWith(t, TC_END) || t == [] then Closed([], t, [])
    else if StartsWith(t, PA) then
      var k := Cut(After(t, |PA|), ">");
      if k.None? then Closed([], [], [UnparsedTail])
      else
        var v := Cut(k.value.1, PA_END);
        if v.None? then Lost([LostCall])
        else WithArg((k.value.0, Coerce(v.value.0)), ReadParams(v.value.1))
    else if StartsWith(t, PA_END) then ReadParams(After(t, |PA_END|))
    else
      var next := Find(t, "<");
      if next == Some(0) then Hangs
      else if next.Some? && next.value <= |t| then WithReport(UnparsedTail, ReadParams(After(t, next.value)))
      else WithReport(UnparsedTail, ReadParams([]))
  }

  /** One call, the text after it and what was lost; or an error; or a loop that never ends. */
  datatype CallRead = Read(call: Option<Call>, rest: Text, reports: seq<Report>) | Nameless | Endless

  /** A call, after its opening tag. */
  function ReadCall(s: Text): CallRead {
    var f := Cut(s, FN);
    if f.None? then if Cut(s, PA).Some? then Nameless else Read(None, [], [])
    else
      var n := Cut(f.value.1, ">");
      if n.None? then Read(None, [], [LostCall])
      else if n.value.0 == [] then Nameless
      else
        match ReadParams(n.value.1)
        case Hangs => Endless
        case Lost(reports) => Read(None, [], reports)
        case Closed(args, rest, reports) =>
          if StartsWith(rest, TC_END) then Read(Some(Call(n.value.0, args)), After(rest, |TC_END|), reports)
          else Read(None, [], reports + [LostCall])
  }

  /** What is left after a call is never more than what it was read from. */
  lemma {:induction false} ParamsShrink(t: Text)
    ensures ReadParams(t).Closed? ==> |ReadParams(t).rest| <= |t|
    decreases |t|
  {
    if StartsWith(t, FN_END) || StartsWith(t, TC_END) || t == [] {
    } else if StartsWith(t, PA) {
      var k := Cut(After(t, |PA|), ">");
      if k.Some? && Cut(k.value.1, PA_END).Some? {
        ParamsShrink(Cut(k.value.1, PA_END).value.1);
      }
    } else if StartsWith(t, PA_END) {
      ParamsShrink(After(t, |PA_END|));
    } else {
      var next := Find(t, "<");
      if next.Some? && 0 < next.value <= |t| {
        ParamsShrink(After(t, next.value));
      } else {
        ParamsShrink([]);
      }
    }
  }

  lemma CallShrinks(s: Text)
    ensures ReadCall(s).Read? ==> |ReadCall(s).rest| <= |s|
  {
    hide ReadParams;
    var f := Cut(s, FN);
    if f.Some? && Cut(f.value.1, ">").Some? {
      ParamsShrink(Cut(f.value.1, ">").value.1);
    }
  }

  /** A completion parsed. */
  datatype Parsed = Parsed(content: Text, reasoning: seq<Text>, calls: seq<Call>, reports: seq<Report>, error: bool, capped: bool)

  /** The rest of a completion, given what has been parsed; none when it never ends. A nameless
      call drops the content and the calls; the cap stops before call `cap + 1`. */
  function ParseFrom(t: Text, r: Parsed, cap: nat): Option<Parsed>
    decreases |t|
  {
    if t == [] then Some(r)
    else if StartsWith(t, TH) then
      var b := Cut(t, TH_END);
      if b.Some? && |TH| <= |b.value.0| then
        ParseFrom(b.value.1, r.(reasoning := r.reasoning + [After(b.value.0, |TH|)]), cap)
      else Some(r.(reasoning := r.reasoning + [After(t, |TH|)]))
    else if StartsWith(t, TC) then
      if cap != 0 && |r.calls| >= cap then Some(r.(capped := true))
      else
        CallShrinks(After(t, |TC|));
        match ReadCall(After(t, |TC|))
        case Endless => None
        case Nameless => Some(r.(content := [], calls := [], error := true))
        case Read(call, rest, reports) =>
          ParseFrom(rest, r.(calls := if call.Some? then r.calls + [call.value] else r.calls, reports := r.reports + reports), cap)
    else
      ParseFrom(After(t, 1), r.(content := r.content + [t[0]]), cap)
  }

  const NOTHING: Parsed := Parsed([], [], [], [], false, false)

  function ParseAll(t: Text, cap: nat): Option<Parsed> {
    ParseFrom(t, NOTHING, cap)
  }

  // ---- The renderer.

  /** Strings as they are, anything else as the template's JSON. */
  function RenderValue(v: Json): Text {
    if v.Str? then v.s else Write(v, TEMPLATE)
  }

  function RenderParams(args: seq<(Text, Json)>): Text {
    if args == [] then []
    else (PA + (args[0].0 + (">" + (RenderValue(args[0].1) + PA_END)))) + RenderParams(args[1..])
  }

  function RenderCall(c: Call): Text {
    TC + (FN + (c.name + (">" + (RenderParams(c.arguments) + (FN_END + TC_END)))))
  }

  function Render(calls: seq<Call>): Text {
    if calls == [] then [] else RenderCall(calls[0]) + Render(calls[1..])
  }

  // ---- When a value comes back.

  predicate Bare(x: Text) {
    x != [] ==> x[0] != '\n' && x[|x| - 1] != '\n'
  }

  /** The value is read back as itself. */
  predicate Plain(v: Json) {
    if v.Str? then Bare(v.s) && Parse(v.s) == None else Whole(v)
  }

  lemma {:induction false} CharsShorter(t: Text)
    ensures Chars(t).Ok? ==> |Chars(t).value| + 1 + |Chars(t).rest| <= |t|
    decreases |t|
  {
    if t != [] && t[0] != '"' {
      var c := if t[0] == '\\' then Escape(After(t, 1)) else Ok(t[0], After(t, 1));
      if c.Ok? {
        hide Escape;
        CharsShorter(c.rest);
      }
    }
  }

  lemma Kinds(t: Text)
    ensures Object(t).Ok? ==> Object(t).value.Obj?
    ensures Array(t).Ok? ==> Array(t).value.Arr?
    ensures t != [] && (t[0] == '-' || Digit(t[0])) && Number(t).Ok? ==> !Number(t).value.Str?
  {
    hide Items, Pairs, Digits, Fraction, Exponent, Decimal, Ws, After;
  }

  /** A string is read from its quotes. */
  lemma ValueString(u: Text)
    requires Value(u).Ok? && Value(u).value.Str?
    ensures u != [] && Chars(After(u, 1)) == Ok(Value(u).value.s, Value(u).rest)
  {
    hide Object, Array, Number, Chars, After;
    Kinds(After(u, 1));
    Kinds(u);
  }

  lemma ReadStringShorter(t: Text)
    ensures Parse(t).Some? && Parse(t).value.Str? ==> |Parse(t).value.s| < |t|
  {
    hide Value, Chars;
    if Parse(t).Some? && Parse(t).value.Str? {
      ValueString(Ws(t));
      CharsShorter(After(Ws(t), 1));
    }
  }

  /** A string comes back from a completion exactly when it neither starts nor ends with a newline
      and does not read as JSON. */
  lemma StringComesBack(x: Text)
    ensures Coerce(x) == Str(x) <==> Bare(x) && Parse(x) == None
  {
    hide Parse;
    ReadStringShorter(Strip(x));
  }

  /** A value that is not a string comes back. */
  lemma ValueComesBack(v: Json)
    requires Plain(v)
    ensures Coerce(RenderValue(v)) == v
  {
    if v.Str? {
      StringComesBack(v.s);
    } else {
      hide Write, Parse;
      RoundTrip(v);
      NoNewline(v);
    }
  }

  lemma NoNewline(v: Json)
    requires Whole(v) && !v.Str?
    ensures Strip(Write(v, TEMPLATE)) == Write(v, TEMPLATE)
  {
    Starts(v, TEMPLATE);
    if v.Num? {
      IntEnds(v.n);
    }
  }

  lemma IntEnds(n: int)
    ensures WriteInt(n) != [] && WriteInt(n)[|WriteInt(n)| - 1] != '\n'
  {
    var m := if n < 0 then -n else n;
    WriteNatDigits(m);
    var d := WriteNat(m);
    assert Digit(d[|d| - 1]);
  }

  // ---- What is rendered is parsed back.

  predicate NameOk(x: Text) {
    forall i :: 0 <= i < |x| ==> x[i] != '>'
  }

  predicate CallOk(c: Call) {
    && c.name != [] && NameOk(c.name)
    && forall i :: 0 <= i < |c.arguments| ==> ArgOk(c.arguments[i])
  }

  predicate ArgOk(a: (Text, Json)) {
    NameOk(a.0) && Plain(a.1) && Cut(RenderValue(a.1), PA_END) == None
  }

  lemma {:induction false} CutName(x: Text, post: Text)
    requires NameOk(x)
    ensures Cut(x + (">" + post), ">") == Some((x, post))
    decreases |x|
  {
    hide After;
    if x == [] {
      assert x + (">" + post) == ">" + post;
      StartsWithSelf(">", post);
    } else {
      CutName(After(x, 1), post);
      AfterPart(x, ">" + post, 1);
      HeadTail(x);
    }
  }

  lemma TagsDiffer(post: Text)
    ensures !StartsWith(PA + post, FN_END) && !StartsWith(PA + post, TC_END)
    ensures StartsWith(PA + post, PA) && After(PA + post, |PA|) == post
    ensures StartsWith(FN_END + post, FN_END) && After(FN_END + post, |FN_END|) == post
  {
    StartsWithSelf(PA, post);
    StartsWithSelf(FN_END, post);
    assert (PA + post)[1] == 'p';
  }

  lemma {:induction false} ParamsBack(args: seq<(Text, Json)>, post: Text)
    requires forall i :: 0 <= i < |args| ==> ArgOk(args[i])
    ensures ReadParams(RenderParams(args) + (FN_END + post)) == Closed(args, post, [])
    decreases |args|
  {
    hide Cut, StartsWith, After, Coerce, Plain, RenderValue;
    if args == [] {
      assert RenderParams(args) + (FN_END + post) == FN_END + post;
      TagsDiffer(post);
    } else {
      var (key, v) := args[0];
      assert ArgOk(args[0]);
      var raw, more := RenderValue(v), RenderParams(args[1..]) + (FN_END + post);
      ParamsBack(args[1..], post);
      OneParam(key, raw, RenderParams(args[1..]), FN_END + post);
      TagsDiffer(key + (">" + (raw + PA_END + more)));
      CutName(key, raw + PA_END + more);
      TagsAreTags();
      CutFirst(raw, PA_END, more);
      ValueComesBack(v);
      assert args == [args[0]] + args[1..];
    }
  }

  lemma OneParam(key: Text, raw: Text, more: Text, post: Text)
    ensures (PA + (key + (">" + (raw + PA_END)))) + more + post == PA + (key + (">" + (raw + PA_END + (more + post))))
  {
    Assoc(PA + (key + (">" + (raw + PA_END))), more, post);
    var t := more + post;
    Assoc(PA, key + (">" + (raw + PA_END)), t);
    Assoc(key, ">" + (raw + PA_END), t);
    Assoc(">", raw + PA_END, t);
  }

  lemma CutFront(tag: Text, b: Text)
    requires tag != []
    ensures Cut(tag + b, tag) == Some(([], b))
  {
    StartsWithSelf(tag, b);
  }

  lemma CallBack(c: Call, post: Text)
    requires CallOk(c)
    ensures var t := RenderCall(c) + post;
      StartsWith(t, TC) && !StartsWith(t, TH) && ReadCall(After(t, |TC|)) == Read(Some(c), post, [])
  {
    hide ReadParams, Cut, RenderParams;
    var body := RenderParams(c.arguments) + (FN_END + (TC_END + post));
    var t := RenderCall(c) + post;
    CallShape(c, post);
    StartsWithSelf(TC, FN + (c.name + (">" + body)));
    NotThink(FN + (c.name + (">" + body)));
    StartsWithSelf(FN, c.name + (">" + body));
    CutFront(FN, c.name + (">" + body));
    CutName(c.name, body);
    ParamsBack(c.arguments, TC_END + post);
    StartsWithSelf(TC_END, post);
  }

  lemma CallShape(c: Call, post: Text)
    ensures RenderCall(c) + post == TC + (FN + (c.name + (">" + (RenderParams(c.arguments) + (FN_END + (TC_END + post))))))
  {
    var p := RenderParams(c.arguments);
    var e := FN_END + TC_END;
    Assoc(TC, FN + (c.name + (">" + (p + e))), post);
    Assoc(FN, c.name + (">" + (p + e)), post);
    Assoc(c.name, ">" + (p + e), post);
    Assoc(">", p + e, post);
    Assoc(p, e, post);
    Assoc(FN_END, TC_END, post);
  }

  /** Rendered calls are parsed back in order, with nothing lost, no content and no error. */
  lemma {:induction false} RenderBack(calls: seq<Call>, r: Parsed, cap: nat)
    requires (forall i :: 0 <= i < |calls| ==> CallOk(calls[i])) && (cap == 0 || |r.calls| + |calls| <= cap)
    ensures ParseFrom(Render(calls), r, cap) == Some(r.(calls := r.calls + calls))
    decreases |calls|
  {
    hide RenderCall, ReadCall, CallOk;
    if calls == [] {
      assert r.calls + [] == r.calls;
    } else {
      var post := Render(calls[1..]);
      CallBack(calls[0], post);
      var q := r.(calls := r.calls + [calls[0]]);
      RenderBack(calls[1..], q, cap);
      assert r.reports + [] == r.reports;
      assert q.calls + calls[1..] == r.calls + calls;
    }
  }

  lemma RenderedCalls(calls: seq<Call>, cap: nat)
    requires (forall i :: 0 <= i < |calls| ==> CallOk(calls[i])) && (cap == 0 || |calls| <= cap)
    ensures ParseAll(Render(calls), cap) == Some(NOTHING.(calls := calls))
  {
    RenderBack(calls, NOTHING, cap);
    assert [] + calls == calls;
  }

  /** A string holding the closing tag does not come back, whatever surrounds it. */
  lemma ClosingTagTruncates(x: Text, post: Text)
    requires Cut(x, PA_END).Some?
    ensures Cut(x + PA_END + post, PA_END).Some? && Coerce(Cut(x + PA_END + post, PA_END).value.0) != Str(x)
  {
    hide Parse;
    CutEarlier(x, PA_END, PA_END + post);
    Assoc(x, PA_END, post);
    var a := Cut(x, PA_END).value.0;
    ReadStringShorter(Strip(a));
  }

  lemma {:induction false} CutEarlier(x: Text, tag: Text, post: Text)
    requires tag != [] && Cut(x, tag).Some?
    ensures Cut(x + post, tag).Some? && Cut(x + post, tag).value.0 == Cut(x, tag).value.0
    decreases |x|
  {
    hide After;
    if StartsWith(x, tag) {
      assert StartsWith(x + post, tag);
    } else {
      CutEarlier(After(x, 1), tag, post);
      AfterPart(x, post, 1);
      if StartsWith(x + post, tag) {
        CutFits(x, tag);
      }
    }
  }

  lemma {:induction false} CutFits(x: Text, tag: Text)
    requires tag != [] && Cut(x, tag).Some?
    ensures |tag| <= |x|
  {
  }

  // ---- The loop that never ends.

  /** Whether the parameters are scanned past text that starts with a `<` of no known tag. */
  predicate Stray(t: Text) {
    && t != [] && t[0] == '<'
    && !StartsWith(t, FN_END) && !StartsWith(t, TC_END) && !StartsWith(t, PA) && !StartsWith(t, PA_END)
  }

  /** Where the scan of the parameters goes next, if it goes on. */
  function Step(t: Text): Option<Text> {
    if StartsWith(t, FN_END) || StartsWith(t, TC_END) || t == [] then None
    else if StartsWith(t, PA) then
      var k := Cut(After(t, |PA|), ">");
      if k.None? then None
      else
        var v := Cut(k.value.1, PA_END);
        if v.None? then None else Some(v.value.1)
    else if StartsWith(t, PA_END) then Some(After(t, |PA_END|))
    else
      var next := Find(t, "<");
      if next.Some? && next.value <= |t| then Some(After(t, next.value)) else Some([])
  }

  /** What the scan has before it after `n` steps. */
  function Steps(t: Text, n: nat): Option<Text>
    decreases n
  {
    if n == 0 then Some(t)
    else
      var u := Step(t);
      if u.None? then None else Steps(u.value, n - 1)
  }

  lemma FirstLess(t: Text)
    requires t != []
    ensures Find(t, "<") == Some(0) <==> t[0] == '<'
  {
  }

  /** The parser fails to end exactly when its scan of the parameters reaches text starting with a
      `<` that begins none of the tags it knows. */
  lemma {:induction false} HangsExactly(t: Text)
    ensures ReadParams(t).Hangs? <==> exists n: nat :: StrayAt(t, n)
    decreases |t|
  {
    hide Coerce, StartsWith, Cut;
    if t != [] {
      FirstLess(t);
    }
    if Stray(t) {
      assert StrayAt(t, 0);
    } else {
      var u := Step(t);
      if u.Some? {
        Shrinks(t);
        HangsExactly(u.value);
        if n: nat :| StrayAt(u.value, n) {
          assert StrayAt(t, n + 1);
        }
        forall n: nat | StrayAt(t, n)
          ensures n > 0 && StrayAt(u.value, n - 1)
        {
        }
      } else {
        forall n: nat
          ensures !StrayAt(t, n)
        {
        }
      }
    }
  }

  predicate StrayAt(t: Text, n: nat) {
    Steps(t, n).Some? && Stray(Steps(t, n).value)
  }

  lemma Shrinks(t: Text)
    requires Step(t).Some? && !Stray(t)
    ensures |Step(t).value| < |t|
  {
    if t != [] {
      FirstLess(t);
    }
  }

  /** Where the parameters start in a call, after its opening tag; none in a call without a name or
      whose name does not end. */
  function ParamsOf(s: Text): Option<Text> {
    var f := Cut(s, FN);
    if f.None? then None
    else
      var n := Cut(f.value.1, ">");
      if n.None? || n.value.0 == [] then None else Some(n.value.1)
  }

  /** A call opens here, and the scan of its parameters reaches a stray `<`. */
  ghost predicate CallHangs(t: Text) {
    && StartsWith(t, TC) && ParamsOf(After(t, |TC|)).Some?
    && exists k: nat :: StrayAt(ParamsOf(After(t, |TC|)).value, k)
  }

  /** Where the cursor of the parser goes next, and how many calls it has by then; none when it
      stops: at the end, in a block or call that is not closed, at a nameless call, at the cap. */
  function Next(t: Text, calls: nat, cap: nat): Option<(Text, nat)> {
    if t == [] then None
    else if StartsWith(t, TH) then
      var b := Cut(t, TH_END);
      if b.Some? && |TH| <= |b.value.0| then Some((b.value.1, calls)) else None
    else if StartsWith(t, TC) then
      if cap != 0 && calls >= cap then None
      else
        var c := ReadCall(After(t, |TC|));
        if c.Read? then Some((c.rest, if c.call.Some? then calls + 1 else calls)) else None
    else Some((After(t, 1), calls))
  }

  /** Where the cursor is after `n` steps. */
  function Reached(t: Text, calls: nat, cap: nat, n: nat): Option<(Text, nat)>
    decreases n
  {
    if n == 0 then Some((t, calls))
    else
      var u := Next(t, calls, cap);
      if u.None? then None else Reached(u.value.0, u.value.1, cap, n - 1)
  }

  /** After `n` steps the cursor is at a call whose parameters never end, within the cap. */
  ghost predicate HangsAfter(t: Text, calls: nat, cap: nat, n: nat) {
    var u := Reached(t, calls, cap, n);
    u.Some? && CallHangs(u.value.0) && !(cap != 0 && u.value.1 >= cap)
  }

  lemma CallEndless(t: Text)
    requires StartsWith(t, TC)
    ensures ReadCall(After(t, |TC|)).Endless? <==> CallHangs(t)
  {
    hide ReadParams, Cut, StrayAt;
    var p := ParamsOf(After(t, |TC|));
    if p.Some? {
      HangsExactly(p.value);
    }
  }

  lemma NextShrinks(t: Text, calls: nat, cap: nat)
    requires Next(t, calls, cap).Some?
    ensures |Next(t, calls, cap).value.0| < |t|
  {
    hide ReadCall, Cut;
    if StartsWith(t, TC) {
      CallShrinks(After(t, |TC|));
    }
  }

  lemma CallNotThink(t: Text)
    requires StartsWith(t, TC)
    ensures t != [] && !StartsWith(t, TH)
  {
    assert t[2] == TC[2] != TH[2];
  }

  /** The parser of a completion never ends exactly when its cursor reaches a call, within the cap,
      whose parameters are scanned up to text starting with a `<` of no known tag. */
  lemma {:induction false} ParseHangsExactly(t: Text, r: Parsed, cap: nat)
    ensures ParseFrom(t, r, cap) == None <==> exists n: nat :: HangsAfter(t, |r.calls|, cap, n)
    decreases |t|
  {
    hide ReadCall, Cut, StartsWith, After, CallHangs;
    var c := |r.calls|;
    if CallHangs(t) && !(cap != 0 && c >= cap) {
      OpensCall(t);
      CallEndless(t);
      CallNotThink(t);
      assert HangsAfter(t, c, cap, 0);
    } else {
      var u := Next(t, c, cap);
      if t != [] && StartsWith(t, TC) {
        CallEndless(t);
      }
      if u.Some? {
        NextShrinks(t, c, cap);
        var q := Following(t, r, cap);
        ParseHangsExactly(u.value.0, q, cap);
        if n: nat :| HangsAfter(u.value.0, u.value.1, cap, n) {
          assert HangsAfter(t, c, cap, n + 1);
        }
        forall n: nat | HangsAfter(t, c, cap, n)
          ensures n > 0 && HangsAfter(u.value.0, u.value.1, cap, n - 1)
        {
        }
      } else {
        forall n: nat
          ensures !HangsAfter(t, c, cap, n)
        {
        }
      }
    }
  }

  lemma OpensCall(t: Text)
    requires CallHangs(t)
    ensures StartsWith(t, TC)
  {
  }

  /** What the parser has when its cursor goes on. */
  function Following(t: Text, r: Parsed, cap: nat): (q: Parsed)
    requires Next(t, |r.calls|, cap).Some?
    ensures |q.calls| == Next(t, |r.calls|, cap).value.1
    ensures ParseFrom(t, r, cap) == ParseFrom(Next(t, |r.calls|, cap).value.0, q, cap)
  {
    if StartsWith(t, TH) then r.(reasoning := r.reasoning + [After(Cut(t, TH_END).value.0, |TH|)])
    else if StartsWith(t, TC) then
      var c := ReadCall(After(t, |TC|));
      r.(calls := if c.call.Some? then r.calls + [c.call.value] else r.calls, reports := r.reports + c.reports)
    else r.(content := r.content + [t[0]])
  }

  /** The same of a whole completion. */
  lemma CompletionHangs(t: Text, cap: nat)
    ensures ParseAll(t, cap) == None <==> exists n: nat :: HangsAfter(t, 0, cap, n)
  {
    hide ParseFrom, HangsAfter;
    ParseHangsExactly(t, NOTHING, cap);
  }

  /** Such text can be written: a stray tag right after the function's opening. */
  lemma StrayHangs(post: Text)
    ensures ParseAll(TC + (FN + ("f" + (">" + ("<b>" + post)))), 0) == None
  {
    hide ReadParams, Cut, After, StartsWith;
    var t := "<b>" + post;
    StrayParams(post);
    CutName("f", t);
    var body := "f" + (">" + t);
    StartsWithSelf(FN, body);
    CutFront(FN, body);
    StartsWithSelf(TC, FN + body);
    NotThink(FN + body);
  }

  lemma NotThink(post: Text)
    ensures !StartsWith(TC + post, TH)
  {
    assert (TC + post)[2] == 'o';
  }

  lemma StrayParams(post: Text)
    ensures ReadParams("<b>" + post) == Hangs
  {
    var t := "<b>" + post;
    assert t[0] == '<' && t[1] == 'b';
    FirstLess(t);
    hide Cut, After;
  }
}
