/** The JSON codec of the API and the template's `tojson`: a recursive-descent parser over text,
    and a printer that differs between the two only in its separators. Whole numbers below 9e15
    in magnitude, where the 64-bit floats of the code are exact, are integers; any other number
    is kept as its text. */
module Json {
  import opened Basics
  import opened Markup

  const EXACT: int := 9_000_000_000_000_000

  datatype Json =
    | Null
    | Bool(b: bool)
    | Num(n: int)
    | Approx(text: Text)
    | Str(s: Text)
    | Arr(items: seq<Json>)
    | Obj(pairs: seq<(Text, Json)>)

  /** A value read and the text after it. */
  datatype Read<T> = Ok(value: T, rest: Text) | Err

  // ---- Characters.

  predicate Blank(c: char) {
    c == ' ' || c == '\t' || c == '\n' || c == '\r'
  }

  predicate Digit(c: char) {
    '0' <= c <= '9'
  }

  function HexValue(c: char): (r: Option<nat>)
    ensures r.Some? ==> r.value < 16
  {
    if Digit(c) then Some(c as int - '0' as int)
    else if 'a' <= c <= 'f' then Some(c as int - 'a' as int + 10)
    else if 'A' <= c <= 'F' then Some(c as int - 'A' as int + 10)
    else None
  }

  // ---- The parser.

  function Ws(t: Text): (r: Text)
    ensures |r| <= |t|
  {
    if t != [] && Blank(t[0]) then Ws(After(t, 1)) else t
  }

  function Parse(t: Text): Option<Json> {
    var r := Value(Ws(t));
    if r.Ok? && Ws(r.rest) == [] then Some(r.value) else None
  }

  function Value(t: Text): (r: Read<Json>)
    ensures r.Ok? ==> |r.rest| < |t|
    decreases |t|, 0
  {
    if t == [] then Err
    else if t[0] == '{' then Object(After(t, 1))
    else if t[0] == '[' then Array(After(t, 1))
    else if t[0] == '"' then
      var r := Chars(After(t, 1));
      if r.Ok? then Ok(Str(r.value), r.rest) else Err
    else if t[0] == 't' then Literal(t, "true", Bool(true))
    else if t[0] == 'f' then Literal(t, "false", Bool(false))
    else if t[0] == 'n' then Literal(t, "null", Null)
    else if t[0] == '-' || Digit(t[0]) then Number(t)
    else Err
  }

  function Literal(t: Text, word: Text, v: Json): (r: Read<Json>)
    requires word != []
    ensures r.Ok? ==> |r.rest| < |t|
  {
    if StartsWith(t, word) then Ok(v, After(t, |word|)) else Err
  }

  /** After the opening bracket. */
  function Array(t: Text): (r: Read<Json>)
    ensures r.Ok? ==> |r.rest| < |t|
    decreases |t|, 2
  {
    var u := Ws(t);
    if u != [] && u[0] == ']' then Ok(Arr([]), After(u, 1))
    else
      var r := Items(u);
      if r.Ok? then Ok(Arr(r.value), r.rest) else Err
  }

  /** Values up to the closing bracket. */
  function Items(t: Text): (r: Read<seq<Json>>)
    ensures r.Ok? ==> |r.rest| < |t|
    decreases |t|, 1
  {
    var v := Value(Ws(t));
    if v.Err? then Err
    else
      var w := Ws(v.rest);
      if w == [] then Err
      else if w[0] == ',' then
        var more := Items(After(w, 1));
        if more.Ok? then Ok([v.value] + more.value, more.rest) else Err
      else if w[0] == ']' then Ok([v.value], After(w, 1))
      else Err
  }

  /** After the opening brace. */
  function Object(t: Text): (r: Read<Json>)
    ensures r.Ok? ==> |r.rest| < |t|
    decreases |t|, 2
  {
    var u := Ws(t);
    if u != [] && u[0] == '}' then Ok(Obj([]), After(u, 1))
    else
      var r := Pairs(u);
      if r.Ok? then Ok(Obj(r.value), r.rest) else Err
  }

  /** Keys and values up to the closing brace. */
  function Pairs(t: Text): (r: Read<seq<(Text, Json)>>)
    ensures r.Ok? ==> |r.rest| < |t|
    decreases |t|, 1
  {
    var k := Key(Ws(t));
    if k.Err? then Err
    else
      var v := Value(Ws(k.rest));
      if v.Err? then Err
      else
        var w := Ws(v.rest);
        if w == [] then Err
        else if w[0] == ',' then
          var more := Pairs(After(w, 1));
          if more.Ok? then Ok([(k.value, v.value)] + more.value, more.rest) else Err
        else if w[0] == '}' then Ok([(k.value, v.value)], After(w, 1))
        else Err
  }

  /** A key and its colon. */
  function Key(t: Text): (r: Read<Text>)
    ensures r.Ok? ==> |r.rest| < |t|
  {
    if t == [] || t[0] != '"' then Err
    else
      var k := Chars(After(t, 1));
      if k.Err? then Err
      else
        var w := Ws(k.rest);
        if w != [] && w[0] == ':' then Ok(k.value, After(w, 1)) else Err
  }

  /** The characters of a string up to its closing quote, after the opening one. */
  function Chars(t: Text): (r: Read<Text>)
    ensures r.Ok? ==> |r.rest| < |t|
    decreases |t|
  {
    if t == [] then Err
    else if t[0] == '"' then Ok([], After(t, 1))
    else
      var c := if t[0] == '\\' then Escape(After(t, 1)) else Ok(t[0], After(t, 1));
      if c.Err? then Err
      else
        var more := Chars(c.rest);
        if more.Ok? then Ok([c.value] + more.value, more.rest) else Err
  }

  /** One escape, after its backslash. */
  function Escape(t: Text): (r: Read<char>)
    ensures r.Ok? ==> |r.rest| < |t|
  {
    if t == [] then Err
    else
      var rest := After(t, 1);
      match t[0]
      case '"' => Ok('"', rest)
      case '\\' => Ok('\\', rest)
      case '/' => Ok('/', rest)
      case 'b' => Ok(8 as char, rest)
      case 'f' => Ok(12 as char, rest)
      case 'n' => Ok('\n', rest)
      case 'r' => Ok('\r', rest)
      case 't' => Ok('\t', rest)
      case 'u' => Unicode(rest)
      case _ => Err
  }

  /** The value of four hexadecimal digits. */
  function Hex4(t: Text): (r: Read<nat>)
    ensures r.Ok? ==> |r.rest| + 4 == |t| && r.value < 0x1_0000
  {
    if |t| < 4 then Err
    else
      var a, b, c, d := HexValue(t[0]), HexValue(t[1]), HexValue(t[2]), HexValue(t[3]);
      if a.Some? && b.Some? && c.Some? && d.Some? then
        Ok(((a.value * 16 + b.value) * 16 + c.value) * 16 + d.value, After(t, 4))
      else
        Err
  }

  /** A code point as one unit, or as a high unit and the low one that must follow it. */
  function Unicode(t: Text): (r: Read<char>)
    ensures r.Ok? ==> |r.rest| < |t|
  {
    var u := Hex4(t);
    if u.Err? then Err
    else if 0xD800 <= u.value <= 0xDBFF then
      if |u.rest| < 2 || u.rest[0] != '\\' || u.rest[1] != 'u' then Err
      else
        var low := Hex4(After(u.rest, 2));
        if low.Err? || !(0xDC00 <= low.value <= 0xDFFF) then Err
        else Ok((0x1_0000 + (u.value - 0xD800) * 0x400 + (low.value - 0xDC00)) as char, low.rest)
    else if 0xDC00 <= u.value <= 0xDFFF then Err
    else Ok(u.value as char, u.rest)
  }

  // ---- Numbers.

  /** The digits at the front and the text after them. */
  function Digits(t: Text): (r: (Text, Text))
    ensures |r.0| + |r.1| == |t|
  {
    if t != [] && Digit(t[0]) then
      var r := Digits(After(t, 1));
      ([t[0]] + r.0, r.1)
    else
      ([], t)
  }

  /** The value of a decimal digit string. */
  function Decimal(ds: Text): nat
    requires forall i :: 0 <= i < |ds| ==> Digit(ds[i])
  {
    if ds == [] then 0
    else
      assert Digit(ds[|ds| - 1]);
      Decimal(ds[..|ds| - 1]) * 10 + (ds[|ds| - 1] as int - '0' as int)
  }

  lemma {:induction false} DigitsAre(t: Text)
    ensures forall i :: 0 <= i < |Digits(t).0| ==> Digit(Digits(t).0[i])
    ensures Digits(t).1 != [] ==> !Digit(Digits(t).1[0])
    decreases |t|
  {
    if t != [] && Digit(t[0]) {
      DigitsAre(After(t, 1));
    }
  }

  /** The digits after a point, if there is one. */
  function Fraction(t: Text): (r: (Text, Text))
    ensures |r.1| <= |t|
  {
    if t != [] && t[0] == '.' then Digits(After(t, 1)) else ([], t)
  }

  /** Whether there is an exponent, its digits, and the text after it. */
  function Exponent(t: Text): (r: (bool, Text, Text))
    ensures |r.2| <= |t|
  {
    if t != [] && (t[0] == 'e' || t[0] == 'E') then
      var e := After(t, 1);
      var d := Digits(if e != [] && (e[0] == '+' || e[0] == '-') then After(e, 1) else e);
      (true, d.0, d.1)
    else
      (false, [], t)
  }

  /** What the float reader makes of a number's parts: nothing without a digit, or with an exponent
      without one; a plain integer that is exact is read as one. */
  function Judge(minus: bool, whole: Text, frac: Text, exp: (bool, Text), plain: bool, token: Text): Option<Json>
    requires forall i :: 0 <= i < |whole| ==> Digit(whole[i])
  {
    var n: int := Decimal(whole);
    if (whole == [] && frac == []) || (exp.0 && exp.1 == []) then None
    else if plain && n < EXACT then Some(Num(if minus then -n else n))
    else Some(Approx(token))
  }

  /** A number: an optional minus, digits, a fraction, an exponent. */
  function Number(t: Text): (r: Read<Json>)
    requires t != [] && (t[0] == '-' || Digit(t[0]))
    ensures r.Ok? ==> |r.rest| < |t|
  {
    var u := if t[0] == '-' then After(t, 1) else t;
    var (whole, rest) := Digits(u);
    var (frac, mid) := Fraction(rest);
    var (hasExp, exp, end) := Exponent(mid);
    DigitsAre(u);
    var v := Judge(t[0] == '-', whole, frac, (hasExp, exp), end == rest, Upto(t, |t| - |end|));
    if v.None? then Err
    else
      assert t[0] != '-' && |end| == |t| ==> whole != [];
      Ok(v.value, end)
  }

  // ---- The printer.

  /** The separators: `,` and `:` on the wire, with a space after each in the template. */
  datatype Style = Style(comma: Text, colon: Text)

  const WIRE := Style(",", ":")
  const TEMPLATE := Style(", ", ": ")

  function Write(v: Json, s: Style): Text
    decreases v, 1, 0
  {
    match v
    case Null => "null"
    case Bool(b) => if b then "true" else "false"
    case Num(n) => WriteInt(n)
    case Approx(text) => text
    case Str(x) => WriteString(x)
    case Arr(items) => "[" + WriteItems(v, 0, s) + "]"
    case Obj(pairs) => "{" + WritePairs(v, 0, s) + "}"
  }

  /** The items of an array from `k` on. */
  function WriteItems(v: Json, k: nat, s: Style): Text
    requires v.Arr? && k <= |v.items|
    decreases v, 0, |v.items| - k
  {
    if k == |v.items| then []
    else if k == |v.items| - 1 then Write(v.items[k], s)
    else Write(v.items[k], s) + s.comma + WriteItems(v, k + 1, s)
  }

  function WritePairs(v: Json, k: nat, s: Style): Text
    requires v.Obj? && k <= |v.pairs|
    decreases v, 0, |v.pairs| - k
  {
    if k == |v.pairs| then []
    else
      var p := WriteString(v.pairs[k].0) + s.colon + Write(v.pairs[k].1, s);
      if k == |v.pairs| - 1 then p else p + s.comma + WritePairs(v, k + 1, s)
  }

  function WriteInt(n: int): Text {
    if n < 0 then "-" + WriteNat(-n) else WriteNat(n)
  }

  function WriteNat(n: nat): Text {
    var d := [('0' as int + n % 10) as char];
    if n < 10 then d else WriteNat(n / 10) + d
  }

  function WriteString(x: Text): Text {
    "\"" + WriteChars(x) + "\""
  }

  function WriteChars(x: Text): Text {
    if x == [] then [] else WriteChar(x[0]) + WriteChars(x[1..])
  }

  function WriteChar(c: char): Text {
    if c == '"' then "\\\""
    else if c == '\\' then "\\\\"
    else if c == '\n' then "\\n"
    else if c == '\r' then "\\r"
    else if c == '\t' then "\\t"
    else if c as int < 0x20 then "\\u00" + [HexDigit(c as int / 16), HexDigit(c as int % 16)]
    else [c]
  }

  function HexDigit(n: nat): char
    requires n < 16
  {
    if n < 10 then ('0' as int + n) as char else ('a' as int + n - 10) as char
  }

  // ---- Blanks.

  lemma WsSolid(t: Text)
    requires t != [] && !Blank(t[0])
    ensures Ws(t) == t && Ws(" " + t) == t
  {
    AfterJoin(" ", t);
    assert (" " + t)[0] == ' ';
  }

  /** A separator is its mark with at most a space after it. */
  predicate Sep(s: Text, mark: char) {
    s == [mark] || s == [mark] + " "
  }

  predicate StyleOk(s: Style) {
    Sep(s.comma, ',') && Sep(s.colon, ':')
  }

  lemma SepThen(s: Text, mark: char, t: Text)
    requires Sep(s, mark) && !Blank(mark) && t != [] && !Blank(t[0])
    ensures Ws(s + t) == s + t && (s + t)[0] == mark && Ws(After(s + t, 1)) == t
  {
    WsSolid(t);
    WsSolid(s + t);
    if s == [mark] {
      AfterJoin([mark], t);
    } else {
      Assoc([mark], " ", t);
      AfterJoin([mark], " " + t);
    }
  }

  // ---- Strings.

  lemma HexBack(n: nat)
    requires n < 16
    ensures HexValue(HexDigit(n)) == Some(n)
  {
  }

  lemma UnicodeLow(c: char, t: Text)
    requires c as int < 0x20
    ensures Unicode("00" + [HexDigit(c as int / 16), HexDigit(c as int % 16)] + t) == Ok(c, t)
  {
    var u := "00" + [HexDigit(c as int / 16), HexDigit(c as int % 16)];
    HexBack(c as int / 16);
    HexBack(c as int % 16);
    AfterJoin(u, t);
    assert (u + t)[0] == '0' && (u + t)[1] == '0' && (u + t)[2] == u[2] && (u + t)[3] == u[3];
    assert c as int / 16 * 16 + c as int % 16 == c as int;
  }

  lemma EscapedBack(body: Text, c: char, t: Text)
    requires Escape(body + t) == Ok(c, t)
    ensures var r := Chars(t); Chars("\\" + (body + t)) == if r.Ok? then Ok([c] + r.value, r.rest) else Err
  {
    hide Escape, After;
    AfterJoin("\\", body + t);
  }

  lemma ShortEscape(e: char, c: char, t: Text)
    requires Escape([e]) == Ok(c, [])
    ensures Escape([e] + t) == Ok(c, t)
  {
    AfterJoin([e], t);
    AfterJoin([e], []);
  }

  lemma LowEscape(c: char, t: Text)
    requires c as int < 0x20
    ensures Escape(("u00" + [HexDigit(c as int / 16), HexDigit(c as int % 16)]) + t) == Ok(c, t)
  {
    var u := "00" + [HexDigit(c as int / 16), HexDigit(c as int % 16)];
    hide Unicode, After;
    assert "u00" + [HexDigit(c as int / 16), HexDigit(c as int % 16)] == "u" + u;
    Assoc("u", u, t);
    AfterJoin("u", u + t);
    UnicodeLow(c, t);
  }

  /** A character as written is read back. */
  lemma CharBack(c: char, t: Text)
    ensures var r := Chars(t); Chars(WriteChar(c) + t) == if r.Ok? then Ok([c] + r.value, r.rest) else Err
  {
    var w := WriteChar(c);
    if c == '"' || c == '\\' || c == '\n' || c == '\r' || c == '\t' {
      ShortEscape(w[1], c, t);
      assert w == "\\" + [w[1]];
      hide Chars, Escape, WriteChar;
      Assoc("\\", [w[1]], t);
      EscapedBack([w[1]], c, t);
    } else if c as int < 0x20 {
      var body := "u00" + [HexDigit(c as int / 16), HexDigit(c as int % 16)];
      assert w == "\\" + body;
      hide Chars, Escape, WriteChar, HexDigit;
      LowEscape(c, t);
      Assoc("\\", body, t);
      EscapedBack(body, c, t);
    } else {
      hide After;
      AfterJoin([c], t);
    }
  }

  lemma CharsEnd(post: Text)
    ensures Chars("\"" + post) == Ok([], post)
  {
    AfterJoin("\"", post);
  }

  lemma {:induction false} CharsBack(x: Text, post: Text)
    ensures Chars(WriteChars(x) + "\"" + post) == Ok(x, post)
    decreases |x|
  {
    hide Chars, WriteChar;
    if x == [] {
      assert WriteChars(x) + "\"" + post == "\"" + post;
      CharsEnd(post);
    } else {
      CharsBack(x[1..], post);
      Assoc(WriteChar(x[0]), WriteChars(x[1..]), "\"");
      Assoc(WriteChar(x[0]), WriteChars(x[1..]) + "\"", post);
      CharBack(x[0], WriteChars(x[1..]) + "\"" + post);
      assert x == [x[0]] + x[1..];
    }
  }

  /** A string as written is read back. */
  lemma StringBack(x: Text, post: Text)
    ensures var t := WriteString(x) + post; t[0] == '"' && Chars(After(t, 1)) == Ok(x, post)
  {
    hide Chars, WriteChars;
    CharsBack(x, post);
    var w := WriteChars(x);
    Assoc("\"", w, "\"");
    Assoc("\"", w + "\"", post);
    AfterJoin("\"", w + "\"" + post);
  }

  // ---- Numbers.

  lemma {:induction false} WriteNatDigits(n: nat)
    ensures WriteNat(n) != [] && (forall i :: 0 <= i < |WriteNat(n)| ==> Digit(WriteNat(n)[i]))
    ensures Decimal(WriteNat(n)) == n
  {
    var d := [('0' as int + n % 10) as char];
    if n >= 10 {
      WriteNatDigits(n / 10);
      assert WriteNat(n)[..|WriteNat(n)| - 1] == WriteNat(n / 10);
    } else {
      assert d[..0] == [];
      assert Decimal(d[..0]) == 0;
    }
  }

  lemma {:induction false} DigitsTaken(ds: Text, post: Text)
    requires (forall i :: 0 <= i < |ds| ==> Digit(ds[i])) && (post != [] ==> !Digit(post[0]))
    ensures Digits(ds + post) == (ds, post)
    decreases |ds|
  {
    if ds == [] {
      assert ds + post == post;
    } else {
      DigitsTaken(After(ds, 1), post);
      AfterPart(ds, post, 1);
      HeadTail(ds);
    }
  }

  /** What may follow a number without becoming part of it. */
  predicate NumberEnd(t: Text) {
    t != [] ==> !Digit(t[0]) && t[0] != '.' && t[0] != 'e' && t[0] != 'E'
  }

  lemma NumberBack(n: int, post: Text)
    requires -EXACT < n < EXACT && NumberEnd(post)
    ensures var t := WriteInt(n) + post;
      t != [] && (t[0] == '-' || Digit(t[0])) && Number(t) == Ok(Num(n), post)
  {
    hide Digits, Decimal, WriteNat;
    var m := if n < 0 then -n else n;
    var ds := WriteNat(m);
    WriteNatDigits(m);
    DigitsTaken(ds, post);
    if n < 0 {
      Assoc("-", ds, post);
      AfterJoin("-", ds + post);
    }
  }

  // ---- Values.

  /** Every number in the value is a whole one the code keeps exactly. */
  predicate Whole(v: Json) {
    match v
    case Num(n) => -EXACT < n < EXACT
    case Approx(_) => false
    case Arr(items) => forall i :: 0 <= i < |items| ==> Whole(items[i])
    case Obj(pairs) => forall i :: 0 <= i < |pairs| ==> Whole(pairs[i].1)
    case _ => true
  }

  lemma WordBack(t: Text, word: Text, v: Json, post: Text)
    requires word != [] && t == word + post
    ensures Literal(t, word, v) == Ok(v, post)
  {
    StartsWithSelf(word, post);
  }

  /** What is written starts with a character that is neither blank nor a closing one. */
  lemma Starts(v: Json, s: Style)
    requires Whole(v)
    ensures Write(v, s) != [] && !Blank(Write(v, s)[0]) && Write(v, s)[0] != ']' && Write(v, s)[0] != '}'
  {
    if v.Num? {
      NumberBack(v.n, []);
      assert WriteInt(v.n) + [] == WriteInt(v.n);
    }
  }

  /** Any value is read back from what either printer writes for it, whatever follows. */
  lemma {:induction false} ValueBack(v: Json, s: Style, post: Text)
    requires Whole(v) && StyleOk(s) && NumberEnd(post)
    ensures Value(Write(v, s) + post) == Ok(v, post)
    decreases v, 1, 0
  {
    hide Chars, Number, WriteInt, WriteChars;
    match v
    case Null => WordBack("null" + post, "null", v, post);
    case Bool(b) =>
      if b {
        WordBack("true" + post, "true", v, post);
      } else {
        WordBack("false" + post, "false", v, post);
      }
    case Num(n) => NumberBack(n, post);
    case Str(x) => StringBack(x, post);
    case Arr(items) =>
      ArrayBack(v, s, post);
    case Obj(pairs) =>
      ObjectBack(v, s, post);
  }

  lemma {:induction false} ArrayBack(v: Json, s: Style, post: Text)
    requires Whole(v) && StyleOk(s) && v.Arr?
    ensures Value(Write(v, s) + post) == Ok(v, post)
    decreases v, 0, |v.items| + 1
  {
    var body := WriteItems(v, 0, s);
    Assoc("[" + body, "]", post);
    Assoc("[", body, "]" + post);
    AfterJoin("[", body + ("]" + post));
    var t := body + ("]" + post);
    if v.items == [] {
      assert t == "]" + post;
      WsSolid(t);
      AfterJoin("]", post);
    } else {
      ItemsStart(v, 0, s, post);
      WsSolid(t);
      ItemsBack(v, 0, s, post);
      assert v.items[0..] == v.items;
    }
  }

  lemma ItemsStart(v: Json, k: nat, s: Style, post: Text)
    requires Whole(v) && v.Arr? && k < |v.items|
    ensures var t := WriteItems(v, k, s) + ("]" + post); t != [] && !Blank(t[0]) && t[0] != ']'
  {
    Starts(v.items[k], s);
  }

  lemma {:induction false} ItemsBack(v: Json, k: nat, s: Style, post: Text)
    requires Whole(v) && StyleOk(s) && v.Arr? && k < |v.items|
    ensures Items(WriteItems(v, k, s) + ("]" + post)) == Ok(v.items[k..], post)
    decreases v, 0, |v.items| - k
  {
    hide Value, Write;
    var w, end := Write(v.items[k], s), "]" + post;
    ItemsStart(v, k, s, post);
    WsSolid(WriteItems(v, k, s) + end);
    if k == |v.items| - 1 {
      ValueBack(v.items[k], s, end);
      WsSolid(end);
      AfterJoin("]", post);
      assert v.items[k..] == [v.items[k]];
    } else {
      var more := WriteItems(v, k + 1, s) + end;
      Assoc(w, s.comma, WriteItems(v, k + 1, s));
      Assoc(w, s.comma + WriteItems(v, k + 1, s), end);
      Assoc(s.comma, WriteItems(v, k + 1, s), end);
      ItemsStart(v, k + 1, s, post);
      SepThen(s.comma, ',', more);
      ValueBack(v.items[k], s, s.comma + more);
      ItemsBack(v, k + 1, s, post);
      ItemsBlank(After(s.comma + more, 1), more);
      assert v.items[k..] == [v.items[k]] + v.items[k + 1..];
    }
  }

  /** Leading blanks make no difference. */
  lemma ItemsBlank(t: Text, u: Text)
    requires Ws(t) == u && Ws(u) == u
    ensures Items(t) == Items(u) && Pairs(t) == Pairs(u)
  {
  }

  lemma {:induction false} ObjectBack(v: Json, s: Style, post: Text)
    requires Whole(v) && StyleOk(s) && v.Obj?
    ensures Value(Write(v, s) + post) == Ok(v, post)
    decreases v, 0, |v.pairs| + 1
  {
    var body := WritePairs(v, 0, s);
    Assoc("{" + body, "}", post);
    Assoc("{", body, "}" + post);
    AfterJoin("{", body + ("}" + post));
    var t := body + ("}" + post);
    if v.pairs == [] {
      assert t == "}" + post;
      WsSolid(t);
      AfterJoin("}", post);
    } else {
      PairsStart(v, 0, s, post);
      WsSolid(t);
      PairsBack(v, 0, s, post);
      assert v.pairs[0..] == v.pairs;
    }
  }

  lemma PairsStart(v: Json, k: nat, s: Style, post: Text)
    requires v.Obj? && k < |v.pairs|
    ensures var t := WritePairs(v, k, s) + ("}" + post); t != [] && t[0] == '"'
  {
  }

  lemma PairsLast(t: Text, x: Text, colon: Text, v: Json, end: Text)
    requires Key(Ws(t)) == Ok(x, colon) && Value(Ws(colon)) == Ok(v, end) && Ws(end) != [] && Ws(end)[0] == '}'
    ensures Pairs(t) == Ok([(x, v)], After(Ws(end), 1))
  {
  }

  lemma PairsMore(t: Text, x: Text, colon: Text, v: Json, comma: Text, more: seq<(Text, Json)>, rest: Text)
    requires Key(Ws(t)) == Ok(x, colon) && Value(Ws(colon)) == Ok(v, comma) && Ws(comma) != [] && Ws(comma)[0] == ','
    requires Pairs(After(Ws(comma), 1)) == Ok(more, rest)
    ensures Pairs(t) == Ok([(x, v)] + more, rest)
  {
  }

  lemma {:induction false} PairsBack(v: Json, k: nat, s: Style, post: Text)
    requires Whole(v) && StyleOk(s) && v.Obj? && k < |v.pairs|
    ensures Pairs(WritePairs(v, k, s) + ("}" + post)) == Ok(v.pairs[k..], post)
    decreases v, 0, |v.pairs| - k
  {
    hide Value, Write, WriteString, Pairs, Key, Ws;
    var key, val, end := WriteString(v.pairs[k].0), Write(v.pairs[k].1, s), "}" + post;
    PairsStart(v, k, s, post);
    WsSolid(WritePairs(v, k, s) + end);
    Starts(v.pairs[k].1, s);
    if k == |v.pairs| - 1 {
      Assoc(key + s.colon, val, end);
      KeyBack(v.pairs[k].0, s, val + end);
      ValueBack(v.pairs[k].1, s, end);
      WsSolid(end);
      AfterJoin("}", post);
      PairsLast(WritePairs(v, k, s) + end, v.pairs[k].0, Key(WritePairs(v, k, s) + end).rest, v.pairs[k].1, end);
      assert v.pairs[k..] == [v.pairs[k]];
    } else {
      var tail := WritePairs(v, k + 1, s);
      var more := tail + end;
      Assoc(key + s.colon + val, s.comma, tail);
      Assoc(key + s.colon + val, s.comma + tail, end);
      Assoc(s.comma, tail, end);
      Assoc(key + s.colon, val, s.comma + more);
      PairsStart(v, k + 1, s, post);
      SepThen(s.comma, ',', more);
      KeyBack(v.pairs[k].0, s, val + (s.comma + more));
      ValueBack(v.pairs[k].1, s, s.comma + more);
      PairsBack(v, k + 1, s, post);
      WsSolid(more);
      ItemsBlank(After(s.comma + more, 1), more);
      PairsMore(WritePairs(v, k, s) + end, v.pairs[k].0, Key(WritePairs(v, k, s) + end).rest, v.pairs[k].1, s.comma + more,
                v.pairs[k + 1..], post);
      assert v.pairs[k..] == [v.pairs[k]] + v.pairs[k + 1..];
    }
  }

  /** A key and its colon are read back, up to the blank before the value. */
  lemma KeyBack(x: Text, s: Style, t: Text)
    requires StyleOk(s) && t != [] && !Blank(t[0])
    ensures var r := Key(WriteString(x) + s.colon + t); r.Ok? && r.value == x && Ws(r.rest) == t
  {
    hide Chars, WriteString;
    Assoc(WriteString(x), s.colon, t);
    StringBack(x, s.colon + t);
    SepThen(s.colon, ':', t);
  }

  /** The round trip, for the wire and for the template. */
  lemma RoundTrip(v: Json)
    requires Whole(v)
    ensures Parse(Write(v, WIRE)) == Some(v) && Parse(Write(v, TEMPLATE)) == Some(v)
  {
    hide Value, Write;
    BackFrom(v, WIRE);
    BackFrom(v, TEMPLATE);
  }

  lemma BackFrom(v: Json, s: Style)
    requires Whole(v) && StyleOk(s)
    ensures Parse(Write(v, s)) == Some(v)
  {
    hide Value, Write;
    Starts(v, s);
    WsSolid(Write(v, s));
    ValueBack(v, s, []);
    assert Write(v, s) + [] == Write(v, s);
  }

  // ---- Surrogates.

  /** Four hexadecimal digits of the value, in either case. */
  predicate Unit(u: Text, n: nat) {
    |u| == 4 && Hex4(u) == Ok(n, [])
  }

  lemma UnitThen(u: Text, n: nat, t: Text)
    requires Unit(u, n)
    ensures Hex4(u + t) == Ok(n, t)
  {
    AfterJoin(u, t);
    assert forall i :: 0 <= i < 4 ==> (u + t)[i] == u[i];
  }

  lemma PairRead(t: Text, high: nat, r: Text, low: nat, rest: Text)
    requires Hex4(t) == Ok(high, r) && 0xD800 <= high <= 0xDBFF && |r| >= 2 && r[0] == '\\' && r[1] == 'u'
    requires Hex4(After(r, 2)) == Ok(low, rest) && 0xDC00 <= low <= 0xDFFF
    ensures Unicode(t) == Ok((0x1_0000 + (high - 0xD800) * 0x400 + (low - 0xDC00)) as char, rest)
  {
    hide Hex4;
  }

  /** Every supplementary code point written as a surrogate pair is read as itself. */
  lemma PairBack(cp: int, high: Text, low: Text, t: Text)
    requires 0x1_0000 <= cp < 0x11_0000
    requires Unit(high, 0xD800 + (cp - 0x1_0000) / 0x400) && Unit(low, 0xDC00 + (cp - 0x1_0000) % 0x400)
    ensures Unicode(high + ("\\u" + (low + t))) == Ok(cp as char, t)
  {
    var a, b := 0xD800 + (cp - 0x1_0000) / 0x400, 0xDC00 + (cp - 0x1_0000) % 0x400;
    hide Hex4, Unicode, After;
    UnitThen(high, a, "\\u" + (low + t));
    AfterJoin("\\u", low + t);
    UnitThen(low, b, t);
    var r := "\\u" + (low + t);
    assert r[0] == '\\' && r[1] == 'u';
    PairRead(high + r, a, r, b, t);
  }

  /** A low half's escape comes next. */
  predicate LowNext(t: Text) {
    && |t| >= 2 && t[0] == '\\' && t[1] == 'u'
    && Hex4(After(t, 2)).Ok? && 0xDC00 <= Hex4(After(t, 2)).value <= 0xDFFF
  }

  /** A half that is alone, or comes first where it should be second, is an error; any other unit
      is the code point it names. */
  lemma HalvesRejected(u: Text, n: nat, t: Text)
    requires Unit(u, n)
    ensures Unicode(u + t) == Err <==> (0xDC00 <= n <= 0xDFFF || (0xD800 <= n <= 0xDBFF && !LowNext(t)))
    ensures n < 0xD800 || 0xDFFF < n < 0x1_0000 ==> Unicode(u + t) == Ok(n as char, t)
  {
    UnitThen(u, n, t);
    hide Hex4, After, Unit;
  }
}
