/** The JSON reader as a cursor over the text, and the writer as text appended to. Both do what
    the grammar and the printer say. */
module JsonReader {
  import opened Basics
  import opened Markup
  import opened Json

  /** The cursor's result is that of the grammar on the text from where it started. */
  ghost predicate Reads<T>(f: Read<T>, r: Option<T>, s: Text, i: nat) {
    && i <= |s|
    && match f case Err => r == None case Ok(v, rest) => r == Some(v) && After(s, i) == rest
  }

  lemma At(s: Text, i: nat)
    requires i <= |s|
    ensures After(s, i) == [] <==> i == |s|
    ensures i < |s| ==> After(s, i)[0] == s[i] && After(After(s, i), 1) == After(s, i + 1)
  {
    if i < |s| {
      AfterAfter(s, i, 1);
    }
  }

  /** Up to `k` more hexadecimal digits after those of value `acc`. */
  function HexFrom(t: Text, k: nat, acc: nat): Read<nat> {
    if k == 0 then Ok(acc, t)
    else if t == [] || HexValue(t[0]).None? then Err
    else HexFrom(After(t, 1), k - 1, acc * 16 + HexValue(t[0]).value)
  }

  lemma HexStep(t: Text, k: nat, acc: nat)
    requires k > 0
    ensures HexFrom(t, k, acc) == if t == [] || HexValue(t[0]).None? then Err
                                  else HexFrom(After(t, 1), k - 1, acc * 16 + HexValue(t[0]).value)
  {
  }

  lemma HexIsFour(t: Text)
    ensures HexFrom(t, 4, 0) == Hex4(t)
  {
    HexStep(t, 4, 0);
    if |t| >= 1 && HexValue(t[0]).Some? {
      var a, u := HexValue(t[0]).value, After(t, 1);
      HexStep(u, 3, a);
      if |u| >= 1 && HexValue(u[0]).Some? {
        var b, v := a * 16 + HexValue(u[0]).value, After(u, 1);
        HexStep(v, 2, b);
        if |v| >= 1 && HexValue(v[0]).Some? {
          var c, w := b * 16 + HexValue(v[0]).value, After(v, 1);
          HexStep(w, 1, c);
          AfterAfter(t, 1, 1);
          AfterAfter(t, 2, 1);
          if |w| >= 1 {
            AfterAfter(t, 3, 1);
          }
        }
      }
    }
  }

  class Reader {
    const s: Text
    var i: nat

    constructor (s: Text)
      ensures this.s == s && i == 0
    {
      this.s, i := s, 0;
    }

    method SkipBlanks()
      requires i <= |s|
      modifies this
      ensures old(i) <= i <= |s| && After(s, i) == Ws(After(s, old(i)))
    {
      hide After;
      At(s, i);
      while i < |s| && Blank(s[i])
        invariant old(i) <= i <= |s| && Ws(After(s, i)) == Ws(After(s, old(i)))
      {
        At(s, i);
        At(s, i + 1);
        i := i + 1;
      }
      At(s, i);
    }

    method ReadLiteral(word: Text, v: Json) returns (r: Option<Json>)
      requires i < |s| && word != []
      modifies this
      ensures i >= old(i) && Reads(Literal(After(s, old(i)), word, v), r, s, i)
    {
      if StartsWith(After(s, i), word) {
        AfterAfter(s, i, |word|);
        i := i + |word|;
        return Some(v);
      }
      return None;
    }

    method ReadHex4() returns (r: Option<nat>)
      requires i <= |s|
      modifies this
      ensures i >= old(i) && Reads(Hex4(After(s, old(i))), r, s, i)
    {
      hide After;
      HexIsFour(After(s, i));
      var hex: nat := 0;
      var k: nat := 0;
      while k < 4
        invariant k <= 4 && old(i) <= i <= |s| && HexFrom(After(s, i), 4 - k, hex) == HexFrom(After(s, old(i)), 4, 0)
      {
        At(s, i);
        if i == |s| {
          return None;
        }
        var d := HexValue(s[i]);
        i := i + 1;
        if d.None? {
          return None;
        }
        hex := hex * 16 + d.value;
        k := k + 1;
      }
      return Some(hex);
    }

    method ReadUnicode() returns (r: Option<char>)
      requires i <= |s|
      modifies this
      ensures i >= old(i) && Reads(Unicode(After(s, old(i))), r, s, i)
    {
      hide Hex4;
      var unit := ReadHex4();
      if unit.None? {
        return None;
      }
      var high := unit.value;
      if 0xD800 <= high <= 0xDBFF {
        if |s| - i < 2 || s[i] != '\\' || s[i + 1] != 'u' {
          return None;
        }
        AfterAfter(s, i, 2);
        i := i + 2;
        var low := ReadHex4();
        if low.None? || !(0xDC00 <= low.value <= 0xDFFF) {
          return None;
        }
        return Some((0x1_0000 + (high - 0xD800) * 0x400 + (low.value - 0xDC00)) as char);
      }
      if 0xDC00 <= high <= 0xDFFF {
        return None;
      }
      return Some(high as char);
    }

    method ReadEscape() returns (r: Option<char>)
      requires i <= |s|
      modifies this
      ensures i >= old(i) && Reads(Escape(After(s, old(i))), r, s, i)
    {
      hide Unicode, After;
      At(s, i);
      if i == |s| {
        return None;
      }
      var e := s[i];
      i := i + 1;
      match e {
        case '"' => r := Some('"');
        case '\\' => r := Some('\\');
        case '/' => r := Some('/');
        case 'b' => r := Some(8 as char);
        case 'f' => r := Some(12 as char);
        case 'n' => r := Some('\n');
        case 'r' => r := Some('\r');
        case 't' => r := Some('\t');
        case 'u' => r := ReadUnicode();
        case _ => r := None;
      }
    }

    /** What has been read of a string, and what the rest of it will be. */
    ghost predicate CharsFrom(start: nat, out: Text)
      reads this
    {
      && start <= |s| && i <= |s|
      && var r := Chars(After(s, i));
         Chars(After(s, start)) == if r.Ok? then Ok(out + r.value, r.rest) else Err
    }

    /** A string, after its opening quote. */
    method ReadString() returns (r: Option<Text>)
      requires i <= |s|
      modifies this
      ensures i >= old(i) && Reads(Chars(After(s, old(i))), r, s, i)
    {
      hide After, Escape;
      var out: Text := [];
      ghost var start := i;
      assert CharsFrom(start, out) by {
        var f := Chars(After(s, i));
        assert f.Ok? ==> [] + f.value == f.value;
      }
      while true
        invariant old(i) <= i <= |s| && CharsFrom(start, out)
        decreases |s| - i
      {
        At(s, i);
        ghost var was := i;
        if i == |s| {
          return None;
        }
        var c := s[i];
        i := i + 1;
        if c == '"' {
          assert out + [] == out;
          return Some(out);
        }
        if c == '\\' {
          var e := ReadEscape();
          if e.None? {
            return None;
          }
          c := e.value;
        }
        Continues(After(s, was), c, After(s, i), out);
        out := out + [c];
      }
    }

    /** Digits at the cursor. */
    method ReadDigits() returns (ds: Text)
      requires i <= |s|
      modifies this
      ensures old(i) <= i <= |s| && Digits(After(s, old(i))) == (ds, After(s, i))
    {
      hide After;
      ds := [];
      ghost var start := i;
      assert [] + Digits(After(s, i)).0 == Digits(After(s, i)).0;
      while i < |s| && Digit(s[i])
        invariant start <= i <= |s|
        invariant var d := Digits(After(s, i)); Digits(After(s, start)) == (ds + d.0, d.1)
      {
        At(s, i);
        ghost var d := Digits(After(s, i + 1)).0;
        Assoc(ds, [s[i]], d);
        ds := ds + [s[i]];
        i := i + 1;
      }
      At(s, i);
      assert ds + [] == ds;
    }

    method ReadFraction() returns (ds: Text)
      requires i <= |s|
      modifies this
      ensures old(i) <= i <= |s| && Fraction(After(s, old(i))) == (ds, After(s, i))
    {
      hide After, Digits;
      At(s, i);
      ds := [];
      if i < |s| && s[i] == '.' {
        i := i + 1;
        ds := ReadDigits();
      }
    }

    method ReadExponent() returns (has: bool, ds: Text)
      requires i <= |s|
      modifies this
      ensures old(i) <= i <= |s| && Exponent(After(s, old(i))) == (has, ds, After(s, i))
    {
      hide After, Digits;
      At(s, i);
      has, ds := i < |s| && (s[i] == 'e' || s[i] == 'E'), [];
      if has {
        i := i + 1;
        At(s, i);
        if i < |s| && (s[i] == '+' || s[i] == '-') {
          i := i + 1;
        }
        ds := ReadDigits();
      }
    }

    method ReadNumber() returns (r: Option<Json>)
      requires i < |s| && (s[i] == '-' || Digit(s[i]))
      modifies this
      ensures i >= old(i) && Reads(Number(After(s, old(i))), r, s, i)
    {
      hide After, Digits, Fraction, Exponent, Judge;
      var start := i;
      At(s, i);
      var minus := s[i] == '-';
      if minus {
        i := i + 1;
      }
      DigitsAre(After(s, i));
      var whole := ReadDigits();
      var plainEnd := i;
      var frac := ReadFraction();
      var hasExp, exp := ReadExponent();
      SameEnd(s, plainEnd, i);
      TokenIs(s, start, i);
      r := Judge(minus, whole, frac, (hasExp, exp), plainEnd == i, s[start..i]);
    }

    lemma SameEnd(s: Text, a: nat, b: nat)
      requires a <= |s| && b <= |s|
      ensures After(s, a) == After(s, b) <==> a == b
    {
      assert |After(s, a)| == |s| - a && |After(s, b)| == |s| - b;
    }

    lemma TokenIs(s: Text, a: nat, b: nat)
      requires a <= b <= |s|
      ensures Upto(After(s, a), b - a) == s[a..b] && |After(s, a)| - |After(s, b)| == b - a
    {
    }

    /** A key and its colon. */
    method ReadKey() returns (r: Option<Text>)
      requires i <= |s|
      modifies this
      ensures i >= old(i) && Reads(Key(After(s, old(i))), r, s, i) && (r.Some? ==> i > old(i))
    {
      hide After, Chars;
      At(s, i);
      if i == |s| || s[i] != '"' {
        return None;
      }
      i := i + 1;
      var k := ReadString();
      if k.None? {
        return None;
      }
      SkipBlanks();
      At(s, i);
      if i == |s| || s[i] != ':' {
        return None;
      }
      i := i + 1;
      return k;
    }

    method ReadValue() returns (r: Option<Json>)
      requires i <= |s|
      modifies this
      ensures i >= old(i) && Reads(Value(After(s, old(i))), r, s, i) && (r.Some? ==> i > old(i))
      decreases |s| - i, 0
    {
      hide After, Chars, Array, Object, Number, Literal;
      At(s, i);
      if i == |s| {
        return None;
      }
      var c := s[i];
      if c == '{' {
        i := i + 1;
        r := ReadObject();
      } else if c == '[' {
        i := i + 1;
        r := ReadArray();
      } else if c == '"' {
        i := i + 1;
        var x := ReadString();
        r := if x.Some? then Some(Str(x.value)) else None;
      } else if c == 't' {
        r := ReadLiteral("true", Bool(true));
      } else if c == 'f' {
        r := ReadLiteral("false", Bool(false));
      } else if c == 'n' {
        r := ReadLiteral("null", Null);
      } else if c == '-' || Digit(c) {
        r := ReadNumber();
      } else {
        r := None;
      }
      Shorter(s, old(i), i);
    }

    lemma Shorter(s: Text, a: nat, b: nat)
      requires a <= b <= |s|
      ensures |After(s, b)| < |After(s, a)| <==> a < b
    {
    }

    /** An array, after its opening bracket. */
    method ReadArray() returns (r: Option<Json>)
      requires i <= |s|
      modifies this
      ensures i >= old(i) && Reads(Array(After(s, old(i))), r, s, i)
      decreases |s| - i, 2
    {
      hide After, Value, Ws;
      SkipBlanks();
      At(s, i);
      if i < |s| && s[i] == ']' {
        i := i + 1;
        return Some(Arr([]));
      }
      var out: seq<Json> := [];
      ghost var start := i;
      var going := true;
      assert ItemsFrom(s, start, i, out) by {
        var f := Items(After(s, i));
        assert f.Ok? ==> [] + f.value == f.value;
      }
      while going
        invariant start <= i <= |s| && old(i) <= start
        invariant if going then ItemsFrom(s, start, i, out) else Items(After(s, start)) == Ok(out, After(s, i))
        decreases |s| - i, going
      {
        var v;
        v, going := ReadItem(start, out);
        if v.None? {
          return None;
        }
        out := out + [v.value];
      }
      return Some(Arr(out));
    }

    /** One more item; `going` says that a comma follows. */
    method ReadItem(ghost start: nat, ghost out: seq<Json>) returns (v: Option<Json>, going: bool)
      requires start <= i && ItemsFrom(s, start, i, out)
      modifies this
      ensures old(i) <= i <= |s|
      ensures v.None? ==> Items(After(s, start)) == Err
      ensures v.Some? ==> i > old(i) && if going then ItemsFrom(s, start, i, out + [v.value])
                                        else Items(After(s, start)) == Ok(out + [v.value], After(s, i))
      decreases |s| - i, 1
    {
      hide After, Value, Ws, Items;
      ghost var at := i;
      SkipBlanks();
      v := ReadValue();
      if v.None? {
        NoItem(s, start, at, out);
        return None, false;
      }
      ghost var after := After(s, i);
      SkipBlanks();
      At(s, i);
      if i == |s| || (s[i] != ',' && s[i] != ']') {
        BadItem(s, start, at, out, v.value, after);
        return None, false;
      }
      NextItem(s, start, at, out, v.value, after, i);
      going := s[i] == ',';
      i := i + 1;
    }

    /** One more key and value; `going` says that a comma follows. */
    method ReadPair(ghost start: nat, ghost out: seq<(Text, Json)>) returns (p: Option<(Text, Json)>, going: bool)
      requires start <= i && PairsFrom(s, start, i, out)
      modifies this
      ensures old(i) <= i <= |s|
      ensures p.None? ==> Pairs(After(s, start)) == Err
      ensures p.Some? ==> i > old(i) && if going then PairsFrom(s, start, i, out + [p.value])
                                        else Pairs(After(s, start)) == Ok(out + [p.value], After(s, i))
      decreases |s| - i, 1
    {
      hide After, Value, Ws, Key, Pairs;
      ghost var at := i;
      SkipBlanks();
      var k := ReadKey();
      if k.None? {
        NoPair(s, start, at, out);
        return None, false;
      }
      ghost var colon := After(s, i);
      SkipBlanks();
      var v := ReadValue();
      if v.None? {
        NoPair(s, start, at, out);
        return None, false;
      }
      ghost var after := After(s, i);
      SkipBlanks();
      At(s, i);
      if i == |s| || (s[i] != ',' && s[i] != '}') {
        BadPair(s, start, at, out, k.value, colon, v.value, after);
        return None, false;
      }
      NextPair(s, start, at, out, k.value, colon, v.value, after, i);
      going := s[i] == ',';
      i := i + 1;
      p := Some((k.value, v.value));
    }

    /** An object, after its opening brace. */
    method ReadObject() returns (r: Option<Json>)
      requires i <= |s|
      modifies this
      ensures i >= old(i) && Reads(Object(After(s, old(i))), r, s, i)
      decreases |s| - i, 2
    {
      hide After, Value, Key, Ws;
      SkipBlanks();
      At(s, i);
      if i < |s| && s[i] == '}' {
        i := i + 1;
        return Some(Obj([]));
      }
      var out: seq<(Text, Json)> := [];
      ghost var start := i;
      var going := true;
      assert PairsFrom(s, start, i, out) by {
        var f := Pairs(After(s, i));
        assert f.Ok? ==> [] + f.value == f.value;
      }
      while going
        invariant start <= i <= |s| && old(i) <= start
        invariant if going then PairsFrom(s, start, i, out) else Pairs(After(s, start)) == Ok(out, After(s, i))
        decreases |s| - i, going
      {
        var p;
        p, going := ReadPair(start, out);
        if p.None? {
          return None;
        }
        out := out + [p.value];
      }
      return Some(Obj(out));
    }

    /** The whole text as one value. */
    method ReadAll() returns (r: Option<Json>)
      requires i == 0
      modifies this
      ensures r == Parse(s)
    {
      assert After(s, 0) == s;
      hide Value, After;
      SkipBlanks();
      var v := ReadValue();
      if v.None? {
        return None;
      }
      SkipBlanks();
      At(s, i);
      if i != |s| {
        return None;
      }
      return v;
    }
  }

  /** What has been read of an array, and what the rest of it will be. */
  ghost predicate ItemsFrom(s: Text, start: nat, i: nat, out: seq<Json>) {
    && start <= |s| && i <= |s|
    && var r := Items(After(s, i));
       Items(After(s, start)) == if r.Ok? then Ok(out + r.value, r.rest) else Err
  }

  lemma NoItem(s: Text, start: nat, at: nat, out: seq<Json>)
    requires ItemsFrom(s, start, at, out) && Value(Ws(After(s, at))) == Err
    ensures Items(After(s, start)) == Err
  {
  }

  lemma BadItem(s: Text, start: nat, at: nat, out: seq<Json>, v: Json, after: Text)
    requires ItemsFrom(s, start, at, out) && Value(Ws(After(s, at))) == Ok(v, after)
    requires Ws(after) == [] || (Ws(after)[0] != ',' && Ws(after)[0] != ']')
    ensures Items(After(s, start)) == Err
  {
  }

  lemma NextItem(s: Text, start: nat, at: nat, out: seq<Json>, v: Json, after: Text, i: nat)
    requires ItemsFrom(s, start, at, out) && Value(Ws(After(s, at))) == Ok(v, after)
    requires i < |s| && Ws(after) == After(s, i) && (s[i] == ',' || s[i] == ']')
    ensures if s[i] == ',' then ItemsFrom(s, start, i + 1, out + [v]) else Items(After(s, start)) == Ok(out + [v], After(s, i + 1))
  {
    hide Value;
    At(s, i);
    var more := Items(After(s, i + 1));
    if more.Ok? {
      assert (out + [v]) + more.value == out + ([v] + more.value);
    }
  }

  ghost predicate PairsFrom(s: Text, start: nat, i: nat, out: seq<(Text, Json)>) {
    && start <= |s| && i <= |s|
    && var r := Pairs(After(s, i));
       Pairs(After(s, start)) == if r.Ok? then Ok(out + r.value, r.rest) else Err
  }

  lemma NoPair(s: Text, start: nat, at: nat, out: seq<(Text, Json)>)
    requires PairsFrom(s, start, at, out)
    requires var k := Key(Ws(After(s, at))); k == Err || Value(Ws(k.rest)) == Err
    ensures Pairs(After(s, start)) == Err
  {
  }

  lemma BadPair(s: Text, start: nat, at: nat, out: seq<(Text, Json)>, k: Text, colon: Text, v: Json, after: Text)
    requires PairsFrom(s, start, at, out) && Key(Ws(After(s, at))) == Ok(k, colon) && Value(Ws(colon)) == Ok(v, after)
    requires Ws(after) == [] || (Ws(after)[0] != ',' && Ws(after)[0] != '}')
    ensures Pairs(After(s, start)) == Err
  {
  }

  lemma NextPair(s: Text, start: nat, at: nat, out: seq<(Text, Json)>, k: Text, colon: Text, v: Json, after: Text, i: nat)
    requires PairsFrom(s, start, at, out) && Key(Ws(After(s, at))) == Ok(k, colon) && Value(Ws(colon)) == Ok(v, after)
    requires i < |s| && Ws(after) == After(s, i) && (s[i] == ',' || s[i] == '}')
    ensures if s[i] == ',' then PairsFrom(s, start, i + 1, out + [(k, v)])
            else Pairs(After(s, start)) == Ok(out + [(k, v)], After(s, i + 1))
  {
    hide Value, Key;
    At(s, i);
    var more := Pairs(After(s, i + 1));
    if more.Ok? {
      assert (out + [(k, v)]) + more.value == out + ([(k, v)] + more.value);
    }
  }

  /** The writer. */
  class Writer {
    var out: Text

    constructor ()
      ensures out == []
    {
      out := [];
    }

    method PutString(x: Text)
      modifies this
      ensures out == old(out) + WriteString(x)
    {
      hide WriteChar;
      out := out + "\"";
      var k := 0;
      assert x[0..] == x;
      while k < |x|
        invariant k <= |x| && out + WriteChars(x[k..]) == old(out) + "\"" + WriteChars(x)
      {
        assert x[k..][0] == x[k] && x[k..][1..] == x[k + 1..];
        Assoc(out, WriteChar(x[k]), WriteChars(x[k + 1..]));
        out := out + WriteChar(x[k]);
        k := k + 1;
      }
      assert out + [] == out;
      Assoc(old(out), "\"", WriteChars(x));
      Assoc(old(out), "\"" + WriteChars(x), "\"");
      out := out + "\"";
    }

    method Put(v: Json, s: Style)
      modifies this
      ensures out == old(out) + Write(v, s)
      decreases v, 1
    {
      hide WriteString, WriteInt;
      match v {
        case Null => out := out + "null";
        case Bool(b) => out := out + if b then "true" else "false";
        case Num(n) => out := out + WriteInt(n);
        case Approx(text) => out := out + text;
        case Str(x) => PutString(x);
        case Arr(items) => PutItems(v, s);
        case Obj(pairs) => PutPairs(v, s);
      }
    }

    lemma CloseItems(v: Json, s: Style, was: Text, out: Text)
      requires v.Arr? && out + [] + WriteItems(v, |v.items|, s) == was + "[" + WriteItems(v, 0, s)
      ensures out + "]" == was + Write(v, s)
    {
      assert out + [] + [] == out;
      Assoc(was, "[", WriteItems(v, 0, s));
      Assoc(was, "[" + WriteItems(v, 0, s), "]");
    }

    method PutItems(v: Json, s: Style)
      requires v.Arr?
      modifies this
      ensures out == old(out) + Write(v, s)
      decreases v, 0
    {
      hide Write;
      ghost var was := out;
      out := out + "[";
      var k := 0;
      while k < |v.items|
        invariant k <= |v.items|
        invariant out + (if 0 < k < |v.items| then s.comma else []) + WriteItems(v, k, s) == was + "[" + WriteItems(v, 0, s)
        decreases |v.items| - k
      {
        if k > 0 {
          out := out + s.comma;
        }
        ghost var mid := out;
        assert mid + WriteItems(v, k, s) == was + "[" + WriteItems(v, 0, s);
        Put(v.items[k], s);
        ItemPut(v, k, s, mid);
        k := k + 1;
      }
      CloseItems(v, s, was, out);
      out := out + "]";
    }

    lemma ItemPut(v: Json, k: nat, s: Style, mid: Text)
      requires v.Arr? && k < |v.items|
      ensures mid + Write(v.items[k], s) + (if k + 1 < |v.items| then s.comma else []) + WriteItems(v, k + 1, s) == mid + WriteItems(v, k, s)
    {
      hide Write;
      var w, rest := Write(v.items[k], s), WriteItems(v, k + 1, s);
      if k + 1 < |v.items| {
        Assoc(mid, w, s.comma);
        Assoc(mid, w + s.comma, rest);
      } else {
        assert rest == [] && mid + w + [] + [] == mid + w;
      }
    }

    lemma ClosePairs(v: Json, s: Style, was: Text, out: Text)
      requires v.Obj? && out + [] + WritePairs(v, |v.pairs|, s) == was + "{" + WritePairs(v, 0, s)
      ensures out + "}" == was + Write(v, s)
    {
      assert out + [] + [] == out;
      Assoc(was, "{", WritePairs(v, 0, s));
      Assoc(was, "{" + WritePairs(v, 0, s), "}");
    }

    method PutPairs(v: Json, s: Style)
      requires v.Obj?
      modifies this
      ensures out == old(out) + Write(v, s)
      decreases v, 0
    {
      hide Write, WriteString;
      ghost var was := out;
      out := out + "{";
      var k := 0;
      while k < |v.pairs|
        invariant k <= |v.pairs|
        invariant out + (if 0 < k < |v.pairs| then s.comma else []) + WritePairs(v, k, s) == was + "{" + WritePairs(v, 0, s)
        decreases |v.pairs| - k
      {
        if k > 0 {
          out := out + s.comma;
        }
        ghost var mid := out;
        assert mid + WritePairs(v, k, s) == was + "{" + WritePairs(v, 0, s);
        PutPair(v.pairs[k].0, v.pairs[k].1, s);
        PairPut(v, k, s, mid);
        k := k + 1;
      }
      ClosePairs(v, s, was, out);
      out := out + "}";
    }

    method PutPair(key: Text, val: Json, s: Style)
      modifies this
      ensures out == old(out) + WriteString(key) + s.colon + Write(val, s)
      decreases val, 2
    {
      hide Write, WriteString;
      PutString(key);
      out := out + s.colon;
      Put(val, s);
    }

    lemma PairPut(v: Json, k: nat, s: Style, mid: Text)
      requires v.Obj? && k < |v.pairs|
      ensures mid + WriteString(v.pairs[k].0) + s.colon + Write(v.pairs[k].1, s) + (if k + 1 < |v.pairs| then s.comma else []) + WritePairs(v, k + 1, s) ==
              mid + WritePairs(v, k, s)
    {
      hide Write, WriteString;
      var key, w, rest := WriteString(v.pairs[k].0), Write(v.pairs[k].1, s), WritePairs(v, k + 1, s);
      Assoc(mid, key, s.colon);
      Assoc(mid, key + s.colon, w);
      var p := key + s.colon + w;
      if k + 1 < |v.pairs| {
        Assoc(mid, p, s.comma);
        Assoc(mid, p + s.comma, rest);
      } else {
        assert rest == [] && mid + p + [] + [] == mid + p;
      }
    }
  }

  lemma Continues(t: Text, c: char, u: Text, out: Text)
    requires t != [] && t[0] != '"'
    requires if t[0] == '\\' then Escape(After(t, 1)) == Ok(c, u) else c == t[0] && u == After(t, 1)
    ensures var a, b := Chars(t), Chars(u);
      (if a.Ok? then Ok(out + a.value, a.rest) else Err) == if b.Ok? then Ok(out + [c] + b.value, b.rest) else Err
  {
    hide Escape, After;
    var b := Chars(u);
    if b.Ok? {
      Assoc(out, [c], b.value);
    }
  }
}
