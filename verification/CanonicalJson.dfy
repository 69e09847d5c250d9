/** The canonical text of a transport payload, which feeds every contract hash.
    Text is a sequence of UTF-16 code units, as in the source language. */
module CanonicalJson {

  type Unit = u: int | 0 <= u < 0x10000
  type Text = seq<Unit>

  /** A number of the source language: an integral double, negative zero, or any other double. */
  datatype Number = Integral(value: int) | NegativeZero | NotIntegral

  /** A run-time value handed to the encoder. Objects list their own properties in insertion
      order; `Foreign` is anything that is not plain JSON (undefined, a class instance, ...). */
  datatype Value =
    | Null
    | Bool(b: bool)
    | Str(s: Text)
    | Num(n: Number)
    | Arr(items: Items)
    | Obj(fields: Fields)
    | Foreign
  datatype Items = NoItems | Item(head: Value, tail: Items)
  datatype Fields = NoFields | Field(key: Text, value: Value, rest: Fields)

  /** What a value means as JSON: objects are maps, so property order is gone. */
  datatype Json =
    | JNull
    | JBool(b: bool)
    | JStr(s: Text)
    | JNum(n: int)
    | JArr(items: seq<Json>)
    | JObj(fields: map<Text, Json>)

  datatype Option<+T> = None | Some(value: T)

  const MAX_SAFE: int := 9007199254740991

  const QUOTE: Unit := 0x22
  const BACKSLASH: Unit := 0x5c
  const COMMA: Unit := 0x2c
  const COLON: Unit := 0x3a
  const MINUS: Unit := 0x2d
  const OPEN_ARR: Unit := 0x5b
  const CLOSE_ARR: Unit := 0x5d
  const OPEN_OBJ: Unit := 0x7b
  const CLOSE_OBJ: Unit := 0x7d
  const NULL_TEXT: Text := [0x6e, 0x75, 0x6c, 0x6c]
  const TRUE_TEXT: Text := [0x74, 0x72, 0x75, 0x65]
  const FALSE_TEXT: Text := [0x66, 0x61, 0x6c, 0x73, 0x65]

  // ----- Strings -----

  predicate High(u: Unit) { 0xd800 <= u <= 0xdbff }
  predicate Low(u: Unit) { 0xdc00 <= u <= 0xdfff }

  function Hex(d: int): (u: Unit)
    requires 0 <= d < 16
  {
    if d < 10 then 0x30 + d else 0x57 + d
  }

  function HexEscape(u: Unit): Text {
    [BACKSLASH, 0x75, Hex(u / 4096), Hex(u / 256 % 16), Hex(u / 16 % 16), Hex(u % 16)]
  }

  /** Escapes one code unit that is not half of a surrogate pair (section 7 of RFC 8259). */
  function EscapeUnit(u: Unit): Text {
    if u == QUOTE || u == BACKSLASH then [BACKSLASH, u]
    else if u == 0x08 then [BACKSLASH, 0x62]
    else if u == 0x09 then [BACKSLASH, 0x74]
    else if u == 0x0a then [BACKSLASH, 0x6e]
    else if u == 0x0c then [BACKSLASH, 0x66]
    else if u == 0x0d then [BACKSLASH, 0x72]
    else if u < 0x20 || High(u) || Low(u) then HexEscape(u)
    else [u]
  }

  function Escape(s: Text): Text {
    if s == [] then []
    else if High(s[0]) && |s| > 1 && Low(s[1]) then [s[0], s[1]] + Escape(s[2..])
    else EscapeUnit(s[0]) + Escape(s[1..])
  }

  function Quote(s: Text): Text { [QUOTE] + Escape(s) + [QUOTE] }

  // ----- Numbers -----

  function Digits(n: nat): Text {
    if n < 10 then [0x30 + n] else Digits(n / 10) + [0x30 + n % 10]
  }

  function Decimal(n: int): Text {
    if n < 0 then [MINUS] + Digits(-n) else Digits(n)
  }

  // ----- Objects -----

  predicate Printable(key: Text) {
    key != [] && forall i :: 0 <= i < |key| ==> 0x20 <= key[i] <= 0x7e
  }

  /** The order of the default array sort: code unit by code unit, a prefix first
      (section 3.2.3 of RFC 8785). */
  predicate Before(a: Text, b: Text) {
    if b == [] then false
    else if a == [] then true
    else a[0] < b[0] || (a[0] == b[0] && Before(a[1..], b[1..]))
  }

  type Pair = (Text, Text)

  function Insert(p: Pair, ps: seq<Pair>): seq<Pair> {
    if ps == [] || Before(p.0, ps[0].0) then [p] + ps else [ps[0]] + Insert(p, ps[1..])
  }

  function SortPairs(ps: seq<Pair>): seq<Pair> {
    if ps == [] then [] else Insert(ps[0], SortPairs(ps[1..]))
  }

  function JoinPairs(ps: seq<Pair>): Text {
    if ps == [] then []
    else Quote(ps[0].0) + [COLON] + ps[0].1 + (if |ps| == 1 then [] else [COMMA] + JoinPairs(ps[1..]))
  }

  function JoinItems(ts: seq<Text>): Text {
    if ts == [] then [] else ts[0] + (if |ts| == 1 then [] else [COMMA] + JoinItems(ts[1..]))
  }

  // ----- The encoder -----

  /** The canonical text, or None where the source throws. */
  function Encode(v: Value): Option<Text> {
    match v
    case Null => Some(NULL_TEXT)
    case Bool(b) => Some(if b then TRUE_TEXT else FALSE_TEXT)
    case Str(s) => Some(Quote(s))
    case Num(Integral(n)) => if -MAX_SAFE <= n <= MAX_SAFE then Some(Decimal(n)) else None
    case Num(_) => None
    case Arr(items) =>
      (match EncodeItems(items)
       case None => None
       case Some(ts) => Some([OPEN_ARR] + JoinItems(ts) + [CLOSE_ARR]))
    case Obj(fields) =>
      (match EncodeFields(fields)
       case None => None
       case Some(ps) => Some([OPEN_OBJ] + JoinPairs(SortPairs(ps)) + [CLOSE_OBJ]))
    case Foreign => None
  }

  function EncodeItems(items: Items): Option<seq<Text>> {
    match items
    case NoItems => Some([])
    case Item(v, tail) =>
      match (Encode(v), EncodeItems(tail))
      case (Some(t), Some(ts)) => Some([t] + ts)
      case _ => None
  }

  function EncodeFields(fields: Fields): Option<seq<Pair>> {
    match fields
    case NoFields => Some([])
    case Field(key, v, rest) =>
      match (Encode(v), EncodeFields(rest))
      case (Some(t), Some(ps)) => if Printable(key) then Some([(key, t)] + ps) else None
      case _ => None
  }

  // ----- Meaning -----

  /** The properties of an object have distinct names, at every depth. */
  predicate Proper(v: Value) {
    match v
    case Arr(items) => ProperItems(items)
    case Obj(fields) => ProperFields(fields)
    case _ => true
  }
  predicate ProperItems(items: Items) {
    match items case NoItems => true case Item(v, tail) => Proper(v) && ProperItems(tail)
  }
  predicate ProperFields(fields: Fields) {
    match fields
    case NoFields => true
    case Field(key, v, rest) => Proper(v) && ProperFields(rest) && key !in Keys(rest)
  }
  function Keys(fields: Fields): set<Text> {
    match fields case NoFields => {} case Field(key, _, rest) => {key} + Keys(rest)
  }

  function Meaning(v: Value): Json {
    match v
    case Null => JNull
    case Bool(b) => JBool(b)
    case Str(s) => JStr(s)
    case Num(Integral(n)) => JNum(n)
    case Num(_) => JNum(0)
    case Arr(items) => JArr(MeaningItems(items))
    case Obj(fields) => JObj(MeaningFields(fields))
    case Foreign => JNull
  }
  function MeaningItems(items: Items): seq<Json> {
    match items case NoItems => [] case Item(v, tail) => [Meaning(v)] + MeaningItems(tail)
  }
  function MeaningFields(fields: Fields): (m: map<Text, Json>)
    ensures m.Keys == Keys(fields)
  {
    match fields
    case NoFields => map[]
    case Field(key, v, rest) => MeaningFields(rest)[key := Meaning(v)]
  }

  // ----- A parser, written without reference to the encoder -----

  datatype Parsed<+T> = Fail | Ok(value: T, rest: Text)

  predicate Digit(u: Unit) { 0x30 <= u <= 0x39 }

  function ReadDigits(t: Text, acc: nat): (nat, Text)
    decreases |t|
  {
    if t != [] && Digit(t[0]) then ReadDigits(t[1..], acc * 10 + (t[0] - 0x30)) else (acc, t)
  }

  function HexValue(u: Unit): Option<int> {
    if Digit(u) then Some(u - 0x30) else if 0x61 <= u <= 0x66 then Some(u - 0x57) else None
  }

  /** The first character of the body of a string literal, and how many code units it takes. */
  datatype Lexed = Bad | Close | Char(unit: Unit, width: int)

  function Lex(t: Text): (x: Lexed)
    ensures x.Char? ==> 0 < x.width <= |t|
    ensures x.Close? ==> t != []
  {
    if t == [] then Bad
    else if t[0] == QUOTE then Close
    else if t[0] != BACKSLASH then Char(t[0], 1)
    else if |t| < 2 then Bad
    else if t[1] == QUOTE || t[1] == BACKSLASH then Char(t[1], 2)
    else if t[1] == 0x62 then Char(0x08, 2)
    else if t[1] == 0x74 then Char(0x09, 2)
    else if t[1] == 0x6e then Char(0x0a, 2)
    else if t[1] == 0x66 then Char(0x0c, 2)
    else if t[1] == 0x72 then Char(0x0d, 2)
    else if t[1] == 0x75 && |t| >= 6 then
      match (HexValue(t[2]), HexValue(t[3]), HexValue(t[4]), HexValue(t[5]))
      case (Some(a), Some(b), Some(c), Some(d)) => Char(a * 4096 + b * 256 + c * 16 + d, 6)
      case _ => Bad
    else Bad
  }

  /** Reads the body of a string literal up to and including its closing quote. */
  function ReadString(t: Text): (r: Parsed<Text>)
    ensures r.Ok? ==> |r.rest| < |t|
    decreases |t|
  {
    match Lex(t)
    case Bad => Fail
    case Close => Ok([], t[1..])
    case Char(u, width) => Push(u, ReadString(t[width..]))
  }

  function Push(u: Unit, p: Parsed<Text>): Parsed<Text> {
    match p case Fail => Fail case Ok(s, rest) => Ok([u] + s, rest)
  }

  function Parse(t: Text): (r: Parsed<Json>)
    ensures r.Ok? ==> |r.rest| < |t|
    decreases |t|, 2
  {
    if NULL_TEXT <= t then Ok(JNull, t[4..])
    else if TRUE_TEXT <= t then Ok(JBool(true), t[4..])
    else if FALSE_TEXT <= t then Ok(JBool(false), t[5..])
    else if t == [] then Fail
    else if t[0] == QUOTE then
      match ReadString(t[1..]) case Fail => Fail case Ok(s, rest) => Ok(JStr(s), rest)
    else if t[0] == OPEN_ARR then
      if |t| > 1 && t[1] == CLOSE_ARR then Ok(JArr([]), t[2..])
      else
        match ParseItems(t[1..]) case Fail => Fail case Ok(vs, rest) => Ok(JArr(vs), rest)
    else if t[0] == OPEN_OBJ then
      if |t| > 1 && t[1] == CLOSE_OBJ then Ok(JObj(map[]), t[2..])
      else
        match ParseFields(t[1..]) case Fail => Fail case Ok(m, rest) => Ok(JObj(m), rest)
    else if t[0] == MINUS then
      if |t| > 1 && Digit(t[1]) then
        DigitsShrink(t[1..], 0);
        var (n: int, rest) := ReadDigits(t[1..], 0); Ok(JNum(-n), rest)
      else Fail
    else if Digit(t[0]) then
      DigitsShrink(t[1..], t[0] - 0x30);
      var (n, rest) := ReadDigits(t, 0); Ok(JNum(n), rest)
    else Fail
  }

  /** One or more values up to and including the closing bracket. */
  function ParseItems(t: Text): (r: Parsed<seq<Json>>)
    ensures r.Ok? ==> |r.rest| < |t|
    decreases |t|, 3
  {
    match Parse(t)
    case Fail => Fail
    case Ok(v, rest) =>
      if rest == [] then Fail
      else if rest[0] == CLOSE_ARR then Ok([v], rest[1..])
      else if rest[0] == COMMA then
        match ParseItems(rest[1..]) case Fail => Fail case Ok(vs, rest') => Ok([v] + vs, rest')
      else Fail
  }

  /** One or more fields up to and including the closing brace. */
  function ParseFields(t: Text): (r: Parsed<map<Text, Json>>)
    ensures r.Ok? ==> |r.rest| < |t|
    decreases |t|, 3
  {
    if t == [] || t[0] != QUOTE then Fail
    else
      match ReadString(t[1..])
      case Fail => Fail
      case Ok(key, rest) =>
        if rest == [] || rest[0] != COLON then Fail
        else
          match Parse(rest[1..])
          case Fail => Fail
          case Ok(v, rest') =>
            if rest' == [] then Fail
            else if rest'[0] == CLOSE_OBJ then Ok(map[key := v], rest'[1..])
            else if rest'[0] == COMMA then
              match ParseFields(rest'[1..])
              case Fail => Fail
              case Ok(m, rest'') => Ok(m[key := v], rest'')
            else Fail
  }

  lemma DigitsShrink(t: Text, acc: nat)
    ensures |ReadDigits(t, acc).1| <= |t|
    decreases |t|
  {
  }

  // ----- The parser undoes the encoder -----

  /** What may follow a value inside a text: nothing, or a separator. */
  predicate Follows(rest: Text) {
    rest == [] || rest[0] == COMMA || rest[0] == CLOSE_ARR || rest[0] == CLOSE_OBJ
  }

  lemma {:induction false} ReadBackDigits(n: nat, rest: Text)
    ensures Digits(n) != [] && Digit(Digits(n)[0])
    ensures ReadDigits(Digits(n) + rest, 0) == ReadDigits(rest, n)
  {
    if n < 10 {
      assert (Digits(n) + rest)[1..] == rest;
    } else {
      var d := [0x30 + n % 10] + rest;
      ReadBackDigits(n / 10, d);
      assert Digits(n) + rest == Digits(n / 10) + d;
      assert d[1..] == rest;
    }
  }

  lemma HexParts(u: Unit)
    ensures u == u / 4096 * 4096 + u / 256 % 16 * 256 + u / 16 % 16 * 16 + u % 16
    ensures 0 <= u / 4096 < 16
  {
    assert u / 16 == u / 256 * 16 + u / 16 % 16;
    assert u / 256 == u / 4096 * 16 + u / 256 % 16;
  }

  lemma HexDigit(d: int)
    requires 0 <= d < 16
    ensures HexValue(Hex(d)) == Some(d)
  {
  }

  lemma LexHex4(a: int, b: int, c: int, d: int, t: Text)
    requires 0 <= a < 16 && 0 <= b < 16 && 0 <= c < 16 && 0 <= d < 16
    ensures Lex([BACKSLASH, 0x75, Hex(a), Hex(b), Hex(c), Hex(d)] + t)
         == Char(a * 4096 + b * 256 + c * 16 + d, 6)
  {
    HexDigit(a); HexDigit(b); HexDigit(c); HexDigit(d);
  }

  lemma LexHex(u: Unit, t: Text)
    ensures Lex(HexEscape(u) + t) == Char(u, 6)
  {
    HexParts(u);
    LexHex4(u / 4096, u / 256 % 16, u / 16 % 16, u % 16, t);
  }

  lemma LexUnit(u: Unit, t: Text)
    ensures Lex(EscapeUnit(u) + t) == Char(u, |EscapeUnit(u)|)
  {
    LexHex(u, t);
  }

  lemma ReadBackChar(e: Text, u: Unit, t: Text)
    requires Lex(e + t) == Char(u, |e|)
    ensures ReadString(e + t) == Push(u, ReadString(t))
  {
    assert (e + t)[|e|..] == t;
  }

  lemma ReadBackPair(a: Unit, b: Unit, t: Text)
    requires High(a) && Low(b)
    ensures ReadString([a, b] + t) == Push(a, Push(b, ReadString(t)))
  {
    ReadBackChar([b], b, t);
    ReadBackChar([a], a, [b] + t);
    assert [a, b] + t == [a] + ([b] + t);
  }

  lemma ReadBackTwo(s: Text, e: Text, t: Text, rest: Text)
    requires |s| > 1 && High(s[0]) && Low(s[1]) && e == [s[0], s[1]] + t
    requires ReadString(t) == Ok(s[2..], rest)
    ensures ReadString(e) == Ok(s, rest)
  {
    hide ReadString;
    ReadBackPair(s[0], s[1], t);
    assert s == [s[0]] + ([s[1]] + s[2..]);
  }

  lemma ReadBackOne(s: Text, e: Text, t: Text, rest: Text)
    requires s != [] && e == EscapeUnit(s[0]) + t
    requires ReadString(t) == Ok(s[1..], rest)
    ensures ReadString(e) == Ok(s, rest)
  {
    LexUnit(s[0], t);
    ReadBackChar(EscapeUnit(s[0]), s[0], t);
    assert s == [s[0]] + s[1..];
  }

  lemma ReadBackEnd(e: Text, rest: Text)
    requires e == [QUOTE] + rest
    ensures ReadString(e) == Ok([], rest)
  {
  }

  lemma EscapeSplit(s: Text, tail: Text)
    requires s != []
    ensures High(s[0]) && |s| > 1 && Low(s[1]) ==> Escape(s) + tail == [s[0], s[1]] + (Escape(s[2..]) + tail)
    ensures !(High(s[0]) && |s| > 1 && Low(s[1])) ==> Escape(s) + tail == EscapeUnit(s[0]) + (Escape(s[1..]) + tail)
  {
    hide EscapeUnit, High, Low;
    if High(s[0]) && |s| > 1 && Low(s[1]) {
      Regroup([s[0], s[1]], Escape(s[2..]), tail);
    } else {
      Regroup(EscapeUnit(s[0]), Escape(s[1..]), tail);
    }
  }

  lemma Regroup(a: Text, b: Text, c: Text)
    ensures (a + b) + c == a + (b + c)
  {
  }

  lemma {:induction false} ReadBackString(s: Text, e: Text, rest: Text)
    requires e == Escape(s) + ([QUOTE] + rest)
    ensures ReadString(e) == Ok(s, rest)
    decreases |s|
  {
    var tail := [QUOTE] + rest;
    if s == [] {
      ReadBackEnd(e, rest);
    } else {
      EscapeSplit(s, tail);
      if High(s[0]) && |s| > 1 && Low(s[1]) {
        var t := Escape(s[2..]) + tail;
        ReadBackString(s[2..], t, rest);
        ReadBackTwo(s, e, t, rest);
      } else {
        var t := Escape(s[1..]) + tail;
        ReadBackString(s[1..], t, rest);
        ReadBackOne(s, e, t, rest);
      }
    }
  }

  lemma ReadBackQuoted(s: Text, t: Text, rest: Text)
    requires t == Quote(s) + rest
    ensures t != [] && t[0] == QUOTE && ReadString(t[1..]) == Ok(s, rest)
  {
    assert t[1..] == Escape(s) + ([QUOTE] + rest);
    ReadBackString(s, t[1..], rest);
  }

  /** A text is read back as `v` wherever a value may stand. */
  ghost predicate Parses(t: Text, v: Json) {
    forall rest | Follows(rest) :: Parse(t + rest) == Ok(v, rest)
  }

  lemma ParseString(s: Text)
    ensures Parses(Quote(s), JStr(s))
  {
    hide Parse, Quote, Follows;
    forall rest | Follows(rest) ensures Parse(Quote(s) + rest) == Ok(JStr(s), rest) {
      ReadBackQuoted(s, Quote(s) + rest, rest);
      ParseQuoted(s, Quote(s) + rest, rest);
    }
  }

  lemma ParseQuoted(s: Text, t: Text, rest: Text)
    requires t != [] && t[0] == QUOTE && ReadString(t[1..]) == Ok(s, rest)
    ensures Parse(t) == Ok(JStr(s), rest)
  {
    hide ReadString, ParseItems, ParseFields, ReadDigits;
  }

  lemma ParseNatural(n: nat, t: Text, rest: Text)
    requires Follows(rest) && t == Digits(n) + rest
    ensures Parse(t) == Ok(JNum(n), rest)
  {
    ReadBackDigits(n, rest);
  }

  lemma ParseNegative(n: nat, t: Text, rest: Text)
    requires Follows(rest) && t == [MINUS] + (Digits(n) + rest)
    ensures Parse(t) == Ok(JNum(0 - n), rest)
  {
    ReadBackDigits(n, rest);
    assert t[1..] == Digits(n) + rest;
  }

  lemma ParseNumber(n: int)
    ensures Parses(Decimal(n), JNum(n))
  {
    forall rest | Follows(rest) ensures Parse(Decimal(n) + rest) == Ok(JNum(n), rest) {
      if n < 0 {
        assert Decimal(n) + rest == [MINUS] + (Digits(-n) + rest);
        ParseNegative(-n, Decimal(n) + rest, rest);
      } else {
        ParseNatural(n, Decimal(n) + rest, rest);
      }
    }
  }

  lemma ParseLiterals()
    ensures Parses(NULL_TEXT, JNull) && Parses(TRUE_TEXT, JBool(true)) && Parses(FALSE_TEXT, JBool(false))
  {
    forall rest | Follows(rest)
      ensures Parse(NULL_TEXT + rest) == Ok(JNull, rest)
      ensures Parse(TRUE_TEXT + rest) == Ok(JBool(true), rest)
      ensures Parse(FALSE_TEXT + rest) == Ok(JBool(false), rest)
    {
      assert (NULL_TEXT + rest)[4..] == rest;
      assert (TRUE_TEXT + rest)[4..] == rest && (TRUE_TEXT + rest)[0] == 0x74;
      assert (FALSE_TEXT + rest)[5..] == rest && (FALSE_TEXT + rest)[0] == 0x66;
    }
  }

  lemma ParsesFollowed(t: Text, v: Json, whole: Text, rest: Text)
    requires Parses(t, v) && Follows(rest) && whole == t + rest
    ensures Parse(whole) == Ok(v, rest)
    ensures whole != [] && whole[0] != CLOSE_ARR && whole[0] != CLOSE_OBJ
  {
  }

  lemma LastItem(t: Text, v: Json, rest: Text)
    requires Parse(t) == Ok(v, [CLOSE_ARR] + rest)
    ensures ParseItems(t) == Ok([v], rest)
  {
  }

  lemma MoreItems(t: Text, v: Json, t': Text, vs: seq<Json>, rest: Text)
    requires Parse(t) == Ok(v, [COMMA] + t') && ParseItems(t') == Ok(vs, rest)
    ensures ParseItems(t) == Ok([v] + vs, rest)
  {
  }

  lemma JoinItemsSplit(ts: seq<Text>, tail: Text)
    requires |ts| > 1
    ensures JoinItems(ts) + tail == ts[0] + ([COMMA] + (JoinItems(ts[1..]) + tail))
  {
  }

  lemma {:induction false} ParseJoinedItems(ts: seq<Text>, vs: seq<Json>, t: Text, rest: Text)
    requires 0 < |ts| == |vs| && forall i | 0 <= i < |ts| :: Parses(ts[i], vs[i])
    requires t == JoinItems(ts) + ([CLOSE_ARR] + rest)
    ensures t != [] && t[0] != CLOSE_ARR
    ensures ParseItems(t) == Ok(vs, rest)
  {
    var close := [CLOSE_ARR] + rest;
    if |ts| == 1 {
      assert t == ts[0] + close;
      ParsesFollowed(ts[0], vs[0], t, close);
      LastItem(t, vs[0], rest);
      assert vs == [vs[0]];
    } else {
      var t' := JoinItems(ts[1..]) + close;
      JoinItemsSplit(ts, close);
      ParsesFollowed(ts[0], vs[0], t, [COMMA] + t');
      ParseJoinedItems(ts[1..], vs[1..], t', rest);
      MoreItems(t, vs[0], t', vs[1..], rest);
      assert vs == [vs[0]] + vs[1..];
    }
  }

  lemma ParseBracketed(t: Text, body: Text, vs: seq<Json>, rest: Text)
    requires t == [OPEN_ARR] + body
    requires (body == [CLOSE_ARR] + rest && vs == [])
          || (body != [] && body[0] != CLOSE_ARR && ParseItems(body) == Ok(vs, rest))
    ensures Parse(t) == Ok(JArr(vs), rest)
  {
    assert t[1..] == body;
    if body[0] == CLOSE_ARR { assert t[2..] == body[1..]; }
  }

  lemma ParseArrayAt(ts: seq<Text>, vs: seq<Json>, whole: Text, rest: Text)
    requires |ts| == |vs| && forall i | 0 <= i < |ts| :: Parses(ts[i], vs[i])
    requires whole == [OPEN_ARR] + (JoinItems(ts) + ([CLOSE_ARR] + rest))
    ensures Parse(whole) == Ok(JArr(vs), rest)
  {
    hide Parse, ParseItems, Parses;
    var body := JoinItems(ts) + ([CLOSE_ARR] + rest);
    if ts == [] {
      assert body == [CLOSE_ARR] + rest;
    } else {
      ParseJoinedItems(ts, vs, body, rest);
    }
    ParseBracketed(whole, body, vs, rest);
  }

  lemma Enclose(open: Unit, body: Text, close: Unit, rest: Text)
    ensures ([open] + body + [close]) + rest == [open] + (body + ([close] + rest))
  {
  }

  lemma ParseArray(ts: seq<Text>, vs: seq<Json>)
    requires |ts| == |vs| && forall i | 0 <= i < |ts| :: Parses(ts[i], vs[i])
    ensures Parses([OPEN_ARR] + JoinItems(ts) + [CLOSE_ARR], JArr(vs))
  {
    hide Parse, JoinItems, Follows;
    var text := [OPEN_ARR] + JoinItems(ts) + [CLOSE_ARR];
    forall rest | Follows(rest) ensures Parse(text + rest) == Ok(JArr(vs), rest) {
      Enclose(OPEN_ARR, JoinItems(ts), CLOSE_ARR, rest);
      ParseArrayAt(ts, vs, text + rest, rest);
    }
  }

  /** Each pair's text reads back as the value `m` gives its key. */
  ghost predicate PairsParse(ps: seq<Pair>, m: map<Text, Json>) {
    forall p | p in ps :: p.0 in m && Parses(p.1, m[p.0])
  }

  ghost function FieldMap(ps: seq<Pair>, m: map<Text, Json>): (r: map<Text, Json>)
    requires PairsParse(ps, m)
    ensures forall k :: k in r <==> exists p :: p in ps && p.0 == k
    ensures forall k | k in r :: k in m && r[k] == m[k]
  {
    if ps == [] then map[] else FieldMap(ps[1..], m)[ps[0].0 := m[ps[0].0]]
  }

  lemma ParseField(key: Text, t: Text, v: Json, whole: Text, rest: Text, after: Text)
    requires Parses(t, v) && Follows(rest)
    requires after == [COLON] + (t + rest) && whole == Quote(key) + after
    ensures whole != [] && whole[0] == QUOTE && ReadString(whole[1..]) == Ok(key, after)
    ensures after[0] == COLON && Parse(after[1..]) == Ok(v, rest)
  {
    ReadBackQuoted(key, whole, after);
    assert after[1..] == t + rest;
  }

  lemma LastField(key: Text, v: Json, whole: Text, after: Text, rest: Text)
    requires whole != [] && whole[0] == QUOTE && ReadString(whole[1..]) == Ok(key, after)
    requires after != [] && after[0] == COLON && Parse(after[1..]) == Ok(v, [CLOSE_OBJ] + rest)
    ensures ParseFields(whole) == Ok(map[key := v], rest)
  {
  }

  lemma MoreFields(key: Text, v: Json, whole: Text, after: Text, t': Text, m: map<Text, Json>, rest: Text)
    requires whole != [] && whole[0] == QUOTE && ReadString(whole[1..]) == Ok(key, after)
    requires after != [] && after[0] == COLON && Parse(after[1..]) == Ok(v, [COMMA] + t')
    requires ParseFields(t') == Ok(m, rest)
    ensures ParseFields(whole) == Ok(m[key := v], rest)
  {
  }

  lemma JoinPairsSplit(ps: seq<Pair>, tail: Text)
    requires ps != []
    ensures JoinPairs(ps) + tail == Quote(ps[0].0) + ([COLON] + (ps[0].1 +
              if |ps| == 1 then tail else [COMMA] + (JoinPairs(ps[1..]) + tail)))
  {
    hide Quote, JoinPairs;
    var more := if |ps| == 1 then [] else [COMMA] + JoinPairs(ps[1..]);
    JoinPairsUnfold(ps);
    if |ps| == 1 {
      assert [] + tail == tail;
    } else {
      assert [COMMA] + JoinPairs(ps[1..]) + tail == [COMMA] + (JoinPairs(ps[1..]) + tail);
    }
    Chained(Quote(ps[0].0), [COLON], ps[0].1, more, tail);
  }

  lemma JoinPairsUnfold(ps: seq<Pair>)
    requires ps != []
    ensures JoinPairs(ps)
            == Quote(ps[0].0) + [COLON] + ps[0].1 + if |ps| == 1 then [] else [COMMA] + JoinPairs(ps[1..])
  {
    hide Quote;
  }

  lemma Chained(a: Text, b: Text, c: Text, d: Text, e: Text)
    ensures a + b + c + d + e == a + (b + (c + (d + e)))
  {
  }

  lemma {:induction false} ParseJoinedPairs(ps: seq<Pair>, m: map<Text, Json>, t: Text, rest: Text)
    requires ps != [] && PairsParse(ps, m)
    requires t == JoinPairs(ps) + ([CLOSE_OBJ] + rest)
    ensures t != [] && t[0] != CLOSE_OBJ
    ensures ParseFields(t) == Ok(FieldMap(ps, m), rest)
  {
    var close := [CLOSE_OBJ] + rest;
    var p := ps[0];
    JoinPairsSplit(ps, close);
    if |ps| == 1 {
      var after := [COLON] + (p.1 + close);
      ParseField(p.0, p.1, m[p.0], t, close, after);
      LastField(p.0, m[p.0], t, after, rest);
      assert FieldMap(ps, m) == map[p.0 := m[p.0]];
    } else {
      var t' := JoinPairs(ps[1..]) + close;
      var after := [COLON] + (p.1 + ([COMMA] + t'));
      ParseField(p.0, p.1, m[p.0], t, [COMMA] + t', after);
      ParseJoinedPairs(ps[1..], m, t', rest);
      MoreFields(p.0, m[p.0], t, after, t', FieldMap(ps[1..], m), rest);
    }
  }

  lemma ParseBraced(t: Text, body: Text, m: map<Text, Json>, rest: Text)
    requires t == [OPEN_OBJ] + body
    requires (body == [CLOSE_OBJ] + rest && m == map[])
          || (body != [] && body[0] != CLOSE_OBJ && ParseFields(body) == Ok(m, rest))
    ensures Parse(t) == Ok(JObj(m), rest)
  {
    assert t[1..] == body;
    if body[0] == CLOSE_OBJ { assert t[2..] == body[1..]; }
  }

  lemma ParseObjectAt(ps: seq<Pair>, m: map<Text, Json>, whole: Text, rest: Text)
    requires PairsParse(ps, m) && FieldMap(ps, m) == m
    requires whole == [OPEN_OBJ] + (JoinPairs(ps) + ([CLOSE_OBJ] + rest))
    ensures Parse(whole) == Ok(JObj(m), rest)
  {
    hide Parse, ParseFields, PairsParse;
    var body := JoinPairs(ps) + ([CLOSE_OBJ] + rest);
    if ps == [] {
      assert body == [CLOSE_OBJ] + rest;
    } else {
      ParseJoinedPairs(ps, m, body, rest);
    }
    ParseBraced(whole, body, m, rest);
  }

  lemma ParseObject(ps: seq<Pair>, m: map<Text, Json>)
    requires PairsParse(ps, m) && forall k :: k in m ==> exists p :: p in ps && p.0 == k
    ensures Parses([OPEN_OBJ] + JoinPairs(ps) + [CLOSE_OBJ], JObj(m))
  {
    hide Parse, JoinPairs, Follows, PairsParse;
    var text := [OPEN_OBJ] + JoinPairs(ps) + [CLOSE_OBJ];
    assert FieldMap(ps, m) == m;
    forall rest | Follows(rest) ensures Parse(text + rest) == Ok(JObj(m), rest) {
      Enclose(OPEN_OBJ, JoinPairs(ps), CLOSE_OBJ, rest);
      ParseObjectAt(ps, m, text + rest, rest);
    }
  }

  lemma {:induction false} InsertKeeps(p: Pair, ps: seq<Pair>)
    ensures forall q :: q in Insert(p, ps) <==> q == p || q in ps
  {
    if !(ps == [] || Before(p.0, ps[0].0)) {
      InsertKeeps(p, ps[1..]);
      assert ps == [ps[0]] + ps[1..];
    }
  }

  lemma {:induction false} SortKeeps(ps: seq<Pair>)
    ensures forall q :: q in SortPairs(ps) <==> q in ps
  {
    if ps != [] {
      SortKeeps(ps[1..]);
      InsertKeeps(ps[0], SortPairs(ps[1..]));
      assert ps == [ps[0]] + ps[1..];
    }
  }

  /** Section by section, the parser reads back what the encoder wrote. */
  lemma {:induction false} EncodeParses(v: Value)
    requires Encode(v).Some? && Proper(v)
    ensures Parses(Encode(v).value, Meaning(v))
  {
    match v
    case Null => ParseLiterals();
    case Bool(_) => ParseLiterals();
    case Str(s) => ParseString(s);
    case Num(n) => ParseNumber(n.value);
    case Arr(items) =>
      ItemsParse(items);
      ParseArray(EncodeItems(items).value, MeaningItems(items));
    case Obj(fields) =>
      FieldsParse(fields);
      var ps := EncodeFields(fields).value;
      SortKeeps(ps);
      ParseObject(SortPairs(ps), MeaningFields(fields));
  }

  lemma {:induction false} ItemsParse(items: Items)
    requires EncodeItems(items).Some? && ProperItems(items)
    ensures |EncodeItems(items).value| == |MeaningItems(items)|
    ensures forall i | 0 <= i < |MeaningItems(items)| :: Parses(EncodeItems(items).value[i], MeaningItems(items)[i])
  {
    match items
    case NoItems =>
    case Item(v, tail) => EncodeParses(v); ItemsParse(tail);
  }

  lemma {:induction false} FieldsParse(fields: Fields)
    requires EncodeFields(fields).Some? && ProperFields(fields)
    ensures PairsParse(EncodeFields(fields).value, MeaningFields(fields))
    ensures forall k :: k in Keys(fields) <==> exists p :: p in EncodeFields(fields).value && p.0 == k
  {
    match fields
    case NoFields =>
    case Field(key, v, rest) =>
      EncodeParses(v);
      FieldsParse(rest);
      var ps := EncodeFields(rest).value;
      var t := Encode(v).value;
      assert EncodeFields(fields).value == [(key, t)] + ps;
      assert (key, t) in EncodeFields(fields).value;
      assert forall p | p in ps :: p in EncodeFields(fields).value;
      assert forall p | p in ps :: p.0 in Keys(rest) && p.0 != key;
  }

  /** The parser undoes the encoder: no accepted payload loses anything but property order. */
  lemma RoundTrip(v: Value)
    requires Encode(v).Some? && Proper(v)
    ensures Parse(Encode(v).value) == Ok(Meaning(v), [])
  {
    EncodeParses(v);
    assert Encode(v).value + [] == Encode(v).value;
  }

  // ----- Code-unit order, by the first difference -----

  /** `a` and `b` agree up to `k`, and there `a` ends or has the smaller code unit. */
  ghost predicate DiffersAt(a: Text, b: Text, k: nat) {
    k <= |a| && k < |b| && a[..k] == b[..k] && (k == |a| || a[k] < b[k])
  }

  /** The first difference of the two puts `a` first. */
  ghost predicate Precedes(a: Text, b: Text) { exists k :: DiffersAt(a, b, k) }

  /** The order of the sort is that of the first difference: a proper prefix comes first, and otherwise
      the smaller code unit decides (section 3.2.3 of RFC 8785). */
  lemma {:induction false} BeforeIff(a: Text, b: Text)
    ensures Before(a, b) <==> Precedes(a, b)
  {
    if b == [] {
    } else if a == [] || a[0] < b[0] {
      assert DiffersAt(a, b, 0);
    } else if a[0] == b[0] {
      BeforeIff(a[1..], b[1..]);
      if Before(a[1..], b[1..]) {
        var k :| DiffersAt(a[1..], b[1..], k);
        DiffersDeeper(a, b, k);
      } else if k: nat :| DiffersAt(a, b, k) {
        DiffersDeeper(a, b, k - 1);
        assert false;
      }
    }
  }

  lemma DiffersDeeper(a: Text, b: Text, k: nat)
    requires a != [] && b != [] && a[0] == b[0]
    ensures DiffersAt(a, b, k + 1) <==> DiffersAt(a[1..], b[1..], k)
  {
    if k + 1 <= |a| && k + 1 <= |b| {
      assert a[..k + 1] == [a[0]] + a[1..][..k] && b[..k + 1] == [b[0]] + b[1..][..k];
      if a[..k + 1] == b[..k + 1] {
        assert a[1..][..k] == a[..k + 1][1..] && b[1..][..k] == b[..k + 1][1..];
      }
    }
  }

  // ----- Equal values have equal texts -----

  lemma {:induction false} BeforeIrreflexive(a: Text)
    ensures !Before(a, a)
  {
    if a != [] { BeforeIrreflexive(a[1..]); }
  }

  lemma {:induction false} BeforeTransitive(a: Text, b: Text, c: Text)
    requires Before(a, b) && Before(b, c)
    ensures Before(a, c)
  {
    if a != [] && a[0] == b[0] == c[0] { BeforeTransitive(a[1..], b[1..], c[1..]); }
  }

  lemma {:induction false} BeforeTotal(a: Text, b: Text)
    ensures a == b || Before(a, b) || Before(b, a)
  {
    if a != [] && b != [] && a[0] == b[0] {
      BeforeTotal(a[1..], b[1..]);
      assert a == [a[0]] + a[1..] && b == [b[0]] + b[1..];
    }
  }

  ghost predicate Sorted(ps: seq<Pair>) {
    forall i, j | 0 <= i < j < |ps| :: Before(ps[i].0, ps[j].0)
  }

  ghost predicate DistinctKeys(ps: seq<Pair>) {
    forall i, j | 0 <= i < j < |ps| :: ps[i].0 != ps[j].0
  }

  lemma SortedCons(p: Pair, ps: seq<Pair>)
    requires Sorted(ps) && forall q | q in ps :: Before(p.0, q.0)
    ensures Sorted([p] + ps)
  {
    var r := [p] + ps;
    forall i, j | 0 <= i < j < |r| ensures Before(r[i].0, r[j].0) {
      assert r[j] == ps[j - 1] && r[j] in ps;
      if i > 0 { assert r[i] == ps[i - 1]; }
    }
  }

  lemma {:induction false} InsertSorts(p: Pair, ps: seq<Pair>)
    requires Sorted(ps) && forall q | q in ps :: q.0 != p.0
    ensures Sorted(Insert(p, ps))
  {
    if ps == [] {
    } else if Before(p.0, ps[0].0) {
      forall q | q in ps ensures Before(p.0, q.0) {
        var i :| 0 <= i < |ps| && ps[i] == q;
        if i > 0 { BeforeTransitive(p.0, ps[0].0, q.0); }
      }
      SortedCons(p, ps);
    } else {
      InsertSorts(p, ps[1..]);
      InsertKeeps(p, ps[1..]);
      BeforeTotal(p.0, ps[0].0);
      SortedCons(ps[0], Insert(p, ps[1..]));
    }
  }

  lemma {:induction false} SortIsSorted(ps: seq<Pair>)
    requires DistinctKeys(ps)
    ensures Sorted(SortPairs(ps))
  {
    if ps != [] {
      SortIsSorted(ps[1..]);
      SortKeeps(ps[1..]);
      InsertSorts(ps[0], SortPairs(ps[1..]));
    }
  }

  /** Sorting keeps the properties and puts each before the next by the first difference of their keys. */
  lemma SortSorts(ps: seq<Pair>)
    requires DistinctKeys(ps)
    ensures forall q :: q in SortPairs(ps) <==> q in ps
    ensures forall i, j | 0 <= i < j < |SortPairs(ps)| :: Precedes(SortPairs(ps)[i].0, SortPairs(ps)[j].0)
  {
    hide Before, SortPairs, Precedes;
    SortKeeps(ps);
    SortIsSorted(ps);
    var qs := SortPairs(ps);
    forall i, j | 0 <= i < j < |qs| ensures Precedes(qs[i].0, qs[j].0) {
      assert Before(qs[i].0, qs[j].0);
      BeforeIff(qs[i].0, qs[j].0);
    }
  }

  lemma SortedHead(ps: seq<Pair>, qs: seq<Pair>)
    requires Sorted(ps) && Sorted(qs) && ps != [] && qs != []
    requires forall p :: p in ps <==> p in qs
    ensures ps[0] == qs[0]
  {
    assert ps[0] in qs && qs[0] in ps;
    var j :| 0 <= j < |qs| && qs[j] == ps[0];
    var i :| 0 <= i < |ps| && ps[i] == qs[0];
    if j > 0 && i > 0 {
      BeforeTransitive(ps[0].0, qs[0].0, ps[0].0);
      BeforeIrreflexive(ps[0].0);
    }
  }

  lemma SortedTail(ps: seq<Pair>, p: Pair)
    requires Sorted(ps) && ps != []
    ensures p in ps[1..] <==> p in ps && p != ps[0]
  {
    BeforeIrreflexive(ps[0].0);
    assert ps == [ps[0]] + ps[1..];
  }

  lemma NonEmptyHasMember(ps: seq<Pair>)
    ensures ps != [] ==> exists p :: p in ps
  {
    if ps != [] { assert ps[0] in ps; }
  }

  lemma {:induction false} SortedUnique(ps: seq<Pair>, qs: seq<Pair>)
    requires Sorted(ps) && Sorted(qs) && forall p :: p in ps <==> p in qs
    ensures ps == qs
  {
    if ps == [] || qs == [] {
      NonEmptyHasMember(ps);
      NonEmptyHasMember(qs);
    } else {
      SortedHead(ps, qs);
      forall p ensures p in ps[1..] <==> p in qs[1..] {
        SortedTail(ps, p);
        SortedTail(qs, p);
      }
      SortedUnique(ps[1..], qs[1..]);
      assert ps == [ps[0]] + ps[1..] && qs == [qs[0]] + qs[1..];
    }
  }

  function Lookup(fields: Fields, key: Text): Value
    requires key in Keys(fields)
  {
    if fields.key == key then fields.value else Lookup(fields.rest, key)
  }

  /** The pairs of an object are its keys with the texts of their values. */
  lemma {:induction false} PairsOf(fields: Fields, key: Text, t: Text)
    requires EncodeFields(fields).Some? && ProperFields(fields)
    ensures (key, t) in EncodeFields(fields).value <==> key in Keys(fields) && Encode(Lookup(fields, key)) == Some(t)
    ensures key in Keys(fields) ==> MeaningFields(fields)[key] == Meaning(Lookup(fields, key))
    ensures key in Keys(fields) ==> Proper(Lookup(fields, key)) && Encode(Lookup(fields, key)).Some?
  {
    if fields.Field? {
      PairsOf(fields.rest, key, t);
      var ps := EncodeFields(fields.rest).value;
      assert EncodeFields(fields).value == [(fields.key, Encode(fields.value).value)] + ps;
    }
  }

  lemma {:induction false} PairsDistinct(fields: Fields)
    requires EncodeFields(fields).Some? && ProperFields(fields)
    ensures DistinctKeys(EncodeFields(fields).value)
  {
    if fields.Field? {
      PairsDistinct(fields.rest);
      var ps := EncodeFields(fields.rest).value;
      forall i | 0 <= i < |ps| ensures ps[i].0 != fields.key {
        assert (ps[i].0, ps[i].1) == ps[i] && ps[i] in ps;
        PairsOf(fields.rest, ps[i].0, ps[i].1);
      }
    }
  }

  lemma {:induction false} SameMeaningSameText(v: Value, w: Value)
    requires Encode(v).Some? && Proper(v) && Encode(w).Some? && Proper(w)
    requires Meaning(v) == Meaning(w)
    ensures Encode(v) == Encode(w)
  {
    match v
    case Arr(items) => SameItems(items, w.items);
    case Obj(fields) =>
      var g := w.fields;
      var ps, qs := EncodeFields(fields).value, EncodeFields(g).value;
      assert MeaningFields(fields) == MeaningFields(g);
      SameFields(fields, g);
      SameAsSets(fields, g);
      PairsDistinct(fields); PairsDistinct(g);
      SortIsSorted(ps); SortIsSorted(qs);
      SortKeeps(ps); SortKeeps(qs);
      SortedUnique(SortPairs(ps), SortPairs(qs));
    case _ =>
  }

  lemma {:induction false} SameItems(a: Items, b: Items)
    requires EncodeItems(a).Some? && ProperItems(a) && EncodeItems(b).Some? && ProperItems(b)
    requires MeaningItems(a) == MeaningItems(b)
    ensures EncodeItems(a) == EncodeItems(b)
  {
    if a.Item? && b.Item? {
      assert MeaningItems(a)[0] == Meaning(a.head) && MeaningItems(b)[0] == Meaning(b.head);
      assert MeaningItems(a)[1..] == MeaningItems(a.tail) && MeaningItems(b)[1..] == MeaningItems(b.tail);
      SameMeaningSameText(a.head, b.head);
      SameItems(a.tail, b.tail);
    }
  }

  lemma {:induction false} SameFields(a: Fields, g: Fields)
    requires EncodeFields(a).Some? && ProperFields(a) && EncodeFields(g).Some? && ProperFields(g)
    requires forall k | k in Keys(a) :: k in Keys(g) && MeaningFields(a)[k] == MeaningFields(g)[k]
    ensures forall k | k in Keys(a) :: Encode(Lookup(a, k)) == Encode(Lookup(g, k))
  {
    if a.Field? {
      PairsOf(g, a.key, []);
      assert MeaningFields(a)[a.key] == Meaning(a.value);
      SameMeaningSameText(a.value, Lookup(g, a.key));
      SameFields(a.rest, g);
    }
  }

  lemma SameAsSets(a: Fields, g: Fields)
    requires EncodeFields(a).Some? && ProperFields(a) && EncodeFields(g).Some? && ProperFields(g)
    requires Keys(a) == Keys(g) && forall k | k in Keys(a) :: Encode(Lookup(a, k)) == Encode(Lookup(g, k))
    ensures forall p :: p in EncodeFields(a).value <==> p in EncodeFields(g).value
  {
    forall p: Pair ensures p in EncodeFields(a).value <==> p in EncodeFields(g).value {
      PairsOf(a, p.0, p.1);
      PairsOf(g, p.0, p.1);
      assert (p.0, p.1) == p;
    }
  }

  /** Two accepted payloads have the same canonical text exactly when they are equal as JSON
      values with objects as maps: the encoding is injective and ignores property order. */
  lemma CanonicalIff(v: Value, w: Value)
    requires Encode(v).Some? && Proper(v) && Encode(w).Some? && Proper(w)
    ensures Encode(v) == Encode(w) <==> Meaning(v) == Meaning(w)
  {
    if Encode(v) == Encode(w) {
      RoundTrip(v);
      RoundTrip(w);
    } else if Meaning(v) == Meaning(w) {
      SameMeaningSameText(v, w);
    }
  }

  // ----- Which payloads are accepted -----

  /** The source's own conditions, stated without the encoder. */
  predicate Acceptable(v: Value) {
    match v
    case Num(n) => n.Integral? && -0x20_0000_0000_0000 < n.value < 0x20_0000_0000_0000
    case Arr(items) => AcceptableItems(items)
    case Obj(fields) => AcceptableFields(fields)
    case Foreign => false
    case _ => true
  }
  predicate AcceptableItems(items: Items) {
    match items case NoItems => true case Item(v, tail) => Acceptable(v) && AcceptableItems(tail)
  }
  predicate AcceptableFields(fields: Fields) {
    match fields
    case NoFields => true
    case Field(key, v, rest) =>
      |key| > 0 && (forall u | u in key :: ' ' as int <= u <= '~' as int) && Acceptable(v) && AcceptableFields(rest)
  }

  lemma PrintableIff(key: Text)
    ensures Printable(key) <==> |key| > 0 && forall u | u in key :: ' ' as int <= u <= '~' as int
  {
    if Printable(key) {
      forall u | u in key ensures ' ' as int <= u <= '~' as int { var i :| 0 <= i < |key| && key[i] == u; }
    } else if |key| > 0 {
      var i :| 0 <= i < |key| && !(0x20 <= key[i] <= 0x7e);
      assert key[i] in key;
    }
  }

  lemma {:induction false} AcceptedIff(v: Value)
    ensures Encode(v).Some? <==> Acceptable(v)
  {
    match v
    case Arr(items) => AcceptedItemsIff(items);
    case Obj(fields) => AcceptedFieldsIff(fields);
    case _ =>
  }
  lemma {:induction false} AcceptedItemsIff(items: Items)
    ensures EncodeItems(items).Some? <==> AcceptableItems(items)
  {
    if items.Item? { AcceptedIff(items.head); AcceptedItemsIff(items.tail); }
  }
  lemma {:induction false} AcceptedFieldsIff(fields: Fields)
    ensures EncodeFields(fields).Some? <==> AcceptableFields(fields)
  {
    if fields.Field? {
      PrintableIff(fields.key);
      AcceptedIff(fields.value);
      AcceptedFieldsIff(fields.rest);
    }
  }

  // ----- No literal could be shorter -----

  /** Nothing that must not stand unescaped in a literal does. */
  predicate Strict(t: Text) { forall u | u in t :: u >= 0x20 }

  /** The text is the body of a literal that spells `s`. */
  predicate Spells(body: Text, s: Text) { ReadString(body + [QUOTE]) == Ok(s, []) }

  lemma SpellsFirst(body: Text, s: Text)
    requires Spells(body, s) && body != []
    ensures Lex(body + [QUOTE]).Char? && Lex(body).Char? && Lex(body) == Lex(body + [QUOTE])
    ensures s != [] && s[0] == Lex(body).unit && Spells(body[Lex(body).width..], s[1..])
  {
    var t := body + [QUOTE];
    var x := Lex(t);
    if x.Char? && x.width <= |body| { assert t[x.width..] == body[x.width..] + [QUOTE]; }
  }

  lemma SpellsNothing(s: Text)
    requires Spells([], s)
    ensures s == []
  {
  }

  lemma HexUnique(u: Unit, a: int)
    requires HexValue(u) == Some(a)
    ensures 0 <= a < 16 && u == Hex(a)
  {
  }

  /** A unit spelled with an escape takes at least what its own escape takes. */
  lemma EscapedUnit(body: Text)
    requires body != [] && Lex(body).Char? && Lex(body).width > 1
    ensures var x := Lex(body);
            |EscapeUnit(x.unit)| <= x.width
            && (|EscapeUnit(x.unit)| == x.width ==> body[..x.width] == EscapeUnit(x.unit))
  {
    var x := Lex(body);
    if x.width == 6 {
      var (a, b, c, d) := (HexValue(body[2]).value, HexValue(body[3]).value, HexValue(body[4]).value,
          HexValue(body[5]).value);
      HexUnique(body[2], a); HexUnique(body[3], b); HexUnique(body[4], c); HexUnique(body[5], d);
      UnitParts(x.unit, a, b, c, d);
      assert body[..6] == HexEscape(x.unit);
      hide Lex, HexValue, HexEscape, Hex;
      EscapeFits(x.unit);
    } else {
      ShortEscape(body);
    }
  }

  lemma UnitParts(u: Unit, a: int, b: int, c: int, d: int)
    requires 0 <= a < 16 && 0 <= b < 16 && 0 <= c < 16 && 0 <= d < 16 && u == a * 4096 + b * 256 + c * 16 + d
    ensures u / 4096 == a && u / 256 % 16 == b && u / 16 % 16 == c && u % 16 == d
  {
    assert u / 256 == a * 16 + b && u / 16 == a * 256 + b * 16 + c;
  }

  lemma EscapeFits(u: Unit)
    ensures |EscapeUnit(u)| < 6 || EscapeUnit(u) == HexEscape(u)
    ensures |HexEscape(u)| == 6
  {
  }

  lemma ShortEscape(body: Text)
    requires body != [] && Lex(body).Char? && Lex(body).width == 2
    ensures |EscapeUnit(Lex(body).unit)| == 2 && body[..2] == EscapeUnit(Lex(body).unit)
  {
    hide HexValue;
    assert body[..2] == [body[0], body[1]];
  }

  /** Only the long escape spells a surrogate. */
  lemma SurrogateWidth(body: Text)
    requires body != [] && Lex(body).Char? && Lex(body).width > 1 && Lex(body).unit >= 0xd800
    ensures Lex(body).width == 6
  {
  }

  lemma AfterEscape(body: Text)
    requires body != [] && Lex(body).Char? && Lex(body).width > 1 && WellFormed(body)
    ensures WellFormed(body[Lex(body).width..])
  {
    var w := Lex(body).width;
    forall i | 0 <= i < w ensures body[i] < 0xd800 {
      if w == 6 && i >= 2 { assert HexValue(body[i]).Some?; }
    }
    PlainDropped(body, w);
  }

  lemma {:induction false} PlainDropped(t: Text, n: nat)
    requires n <= |t| && WellFormed(t) && forall i | 0 <= i < n :: t[i] < 0xd800
    ensures WellFormed(t[n..])
  {
    if n > 0 {
      PlainDropped(t[1..], n - 1);
      assert t[1..][n - 1..] == t[n..];
    } else {
      assert t[0..] == t;
    }
  }

  lemma RawPair(body: Text, s: Text)
    requires Spells(body, s) && WellFormed(body) && body != [] && High(body[0])
    ensures |body| > 1 && |s| > 1 && s[0] == body[0] && s[1] == body[1] && Low(s[1])
    ensures Spells(body[2..], s[2..]) && WellFormed(body[2..])
  {
    SpellsFirst(body, s);
    SpellsFirst(body[1..], s[1..]);
    assert body[1..][1..] == body[2..] && s[1..][1..] == s[2..];
  }

  lemma EscapePair(s: Text)
    requires |s| > 1 && High(s[0]) && Low(s[1])
    ensures Escape(s) == [s[0], s[1]] + Escape(s[2..]) && |Escape(s[1..])| == 6 + |Escape(s[2..])|
  {
    assert s[1..][1..] == s[2..];
  }

  lemma EscapeOne(s: Text)
    requires s != [] && !(|s| > 1 && High(s[0]) && Low(s[1]))
    ensures Escape(s) == EscapeUnit(s[0]) + Escape(s[1..])
  {
  }

  lemma RawUnit(body: Text)
    requires body != [] && Lex(body).Char? && Lex(body).width == 1
    ensures body[0] == Lex(body).unit && body[0] != QUOTE && body[0] != BACKSLASH
  {
  }

  /** Of all well-formed texts that spell a string without a bare control character, its own literal is
      the shortest, and the only one of its length. */
  lemma {:induction false} ShortestLiteral(body: Text, s: Text)
    requires Spells(body, s) && WellFormed(body) && Strict(body)
    ensures |Escape(s)| <= |body| && (|Escape(s)| == |body| ==> body == Escape(s))
    decreases |body|
  {
    hide Lex, Spells, Escape, EscapeUnit, WellFormed, Strict, High, Low;
    if body == [] {
      SpellsNothing(s);
      assert Escape([]) == [] by { EscapeNothing(); }
    } else {
      SpellsFirst(body, s);
      var w := Lex(body).width;
      StrictSuffix(body, w);
      if w > 1 {
        AfterEscape(body);
        ShortestLiteral(body[w..], s[1..]);
        EscapedFirst(body, s);
      } else {
        RawUnit(body);
        if High(body[0]) {
          RawPair(body, s);
          StrictSuffix(body, 2);
          ShortestLiteral(body[2..], s[2..]);
          EscapePair(s);
          assert body == [s[0], s[1]] + body[2..];
        } else {
          RawPlain(body, s);
          ShortestLiteral(body[1..], s[1..]);
          assert body == [s[0]] + body[1..];
        }
      }
    }
  }

  lemma EscapeNothing()
    ensures Escape([]) == []
  {
  }

  lemma StrictSuffix(t: Text, n: nat)
    requires Strict(t) && n <= |t|
    ensures Strict(t[n..])
  {
    forall u | u in t[n..] ensures u >= 0x20 { assert u in t; }
  }

  lemma RawPlain(body: Text, s: Text)
    requires body != [] && s != [] && s[0] == body[0] && body[0] != QUOTE && body[0] != BACKSLASH
    requires WellFormed(body) && Strict(body) && !High(body[0])
    ensures WellFormed(body[1..]) && Escape(s) == [s[0]] + Escape(s[1..])
  {
    assert body[0] in body;
  }

  lemma EscapedFirst(body: Text, s: Text)
    requires body != [] && s != [] && Lex(body).Char? && Lex(body).width > 1 && s[0] == Lex(body).unit
    requires var rest := body[Lex(body).width..];
             |Escape(s[1..])| <= |rest| && (|Escape(s[1..])| == |rest| ==> rest == Escape(s[1..]))
    ensures |Escape(s)| <= |body| && (|Escape(s)| == |body| ==> body == Escape(s))
  {
    hide Lex, Escape, EscapeUnit;
    var w := Lex(body).width;
    EscapedUnit(body);
    assert body == body[..w] + body[w..];
    if |s| > 1 && High(s[0]) && Low(s[1]) {
      SurrogateWidth(body);
      EscapePair(s);
    } else {
      EscapeOne(s);
    }
  }

  /** Nor could a number: of all digit texts that read as it, its own is the shortest and the only one
      of its length. */
  lemma {:induction false} ShortestNumber(t: Text, n: nat)
    requires t != [] && (forall u | u in t :: Digit(u)) && ReadDigits(t, 0) == (n, [])
    ensures |Digits(n)| <= |t| && (|Digits(n)| == |t| ==> t == Digits(n))
  {
    var k := |t| - 1;
    DigitsRead(t, 0);
    if k > 0 {
      DigitsRead(t[..k], 0);
      assert t == t[..k] + [t[k]];
      var m := ReadDigits(t[..k], 0).0;
      LastDigit(t[..k], t[k], 0);
      ShortestNumber(t[..k], m);
    }
  }

  lemma {:induction false} DigitsRead(t: Text, acc: nat)
    requires forall u | u in t :: Digit(u)
    ensures ReadDigits(t, acc).1 == []
  {
    if t != [] {
      assert Digit(t[0]);
      DigitsRead(t[1..], acc * 10 + (t[0] - 0x30));
    }
  }

  lemma {:induction false} LastDigit(t: Text, u: Unit, acc: nat)
    requires Digit(u) && forall x | x in t :: Digit(x)
    ensures ReadDigits(t + [u], acc) == (ReadDigits(t, acc).0 * 10 + (u - 0x30), [])
  {
    if t != [] {
      assert Digit(t[0]);
      LastDigit(t[1..], u, acc * 10 + (t[0] - 0x30));
      assert (t + [u])[1..] == t[1..] + [u];
    } else {
      assert ReadDigits([u], acc) == ReadDigits([], acc * 10 + (u - 0x30));
    }
  }

  function Units(s: string): Text
    requires forall i | 0 <= i < |s| :: s[i] as int < 0x10000
  {
    seq(|s|, i requires 0 <= i < |s| => s[i] as int)
  }

  /** The words and marks that encoder and parser share are those of the language. */
  lemma Vocabulary()
    ensures Encode(Null) == Some(Units("null"))
    ensures Encode(Bool(true)) == Some(Units("true")) && Encode(Bool(false)) == Some(Units("false"))
    ensures [QUOTE, BACKSLASH, COMMA, COLON, MINUS, OPEN_ARR, CLOSE_ARR, OPEN_OBJ, CLOSE_OBJ] == Units("\"\\,:-[]{}")
  {
    assert NULL_TEXT == Units("null") && TRUE_TEXT == Units("true") && FALSE_TEXT == Units("false");
  }

  // ----- The text is well-formed UTF-16, so hashing its UTF-8 bytes loses nothing -----

  /** Every surrogate is half of a pair. */
  predicate WellFormed(t: Text) {
    if t == [] then true
    else if High(t[0]) then |t| > 1 && Low(t[1]) && WellFormed(t[2..])
    else !Low(t[0]) && WellFormed(t[1..])
  }

  lemma {:induction false} WellFormedConcat(a: Text, b: Text)
    requires WellFormed(a) && WellFormed(b)
    ensures WellFormed(a + b)
  {
    if a == [] {
      assert a + b == b;
    } else if High(a[0]) {
      WellFormedConcat(a[2..], b);
      assert (a + b)[2..] == a[2..] + b;
    } else {
      WellFormedConcat(a[1..], b);
      assert (a + b)[1..] == a[1..] + b;
    }
  }

  lemma {:induction false} PlainWellFormed(t: Text)
    requires forall i | 0 <= i < |t| :: t[i] < 0xd800
    ensures WellFormed(t)
  {
    if t != [] { PlainWellFormed(t[1..]); }
  }

  lemma {:induction false} EscapeWellFormed(s: Text)
    ensures WellFormed(Escape(s))
    decreases |s|
  {
    if s == [] {
    } else if High(s[0]) && |s| > 1 && Low(s[1]) {
      EscapeWellFormed(s[2..]);
      var e := Escape(s);
      assert e[2..] == Escape(s[2..]);
    } else {
      EscapeWellFormed(s[1..]);
      UnitWellFormed(s[0]);
      WellFormedConcat(EscapeUnit(s[0]), Escape(s[1..]));
    }
  }

  lemma UnitWellFormed(u: Unit)
    ensures WellFormed(EscapeUnit(u))
  {
    var e := EscapeUnit(u);
    if |e| == 1 {
      assert e[1..] == [];
    } else {
      PlainWellFormed(e);
    }
  }

  lemma QuoteWellFormed(s: Text)
    ensures WellFormed(Quote(s))
  {
    EscapeWellFormed(s);
    PlainWellFormed([QUOTE]);
    WellFormedConcat([QUOTE], Escape(s));
    WellFormedConcat([QUOTE] + Escape(s), [QUOTE]);
  }

  lemma {:induction false} DigitsPlain(n: nat)
    ensures forall i | 0 <= i < |Digits(n)| :: Digits(n)[i] < 0xd800
  {
    if n >= 10 { DigitsPlain(n / 10); }
  }

  lemma {:induction false} JoinItemsWellFormed(ts: seq<Text>)
    requires forall t | t in ts :: WellFormed(t)
    ensures WellFormed(JoinItems(ts))
  {
    if |ts| > 1 {
      JoinItemsWellFormed(ts[1..]);
      PlainWellFormed([COMMA]);
      WellFormedConcat([COMMA], JoinItems(ts[1..]));
      WellFormedConcat(ts[0], [COMMA] + JoinItems(ts[1..]));
    } else if |ts| == 1 {
      assert JoinItems(ts) == ts[0];
    }
  }

  lemma {:induction false} JoinPairsWellFormed(ps: seq<Pair>)
    requires forall p | p in ps :: WellFormed(p.1)
    ensures WellFormed(JoinPairs(ps))
  {
    if ps != [] {
      var tail := if |ps| == 1 then [] else [COMMA] + JoinPairs(ps[1..]);
      if |ps| > 1 {
        JoinPairsWellFormed(ps[1..]);
        PlainWellFormed([COMMA]);
        WellFormedConcat([COMMA], JoinPairs(ps[1..]));
      }
      QuoteWellFormed(ps[0].0);
      PlainWellFormed([COLON]);
      WellFormedConcat(Quote(ps[0].0), [COLON]);
      WellFormedConcat(Quote(ps[0].0) + [COLON], ps[0].1);
      WellFormedConcat(Quote(ps[0].0) + [COLON] + ps[0].1, tail);
    }
  }

  lemma Wrapped(open: Unit, body: Text, close: Unit)
    requires open < 0xd800 && close < 0xd800 && WellFormed(body)
    ensures WellFormed([open] + body + [close])
  {
    PlainWellFormed([open]);
    PlainWellFormed([close]);
    WellFormedConcat([open], body);
    WellFormedConcat([open] + body, [close]);
  }

  lemma {:induction false} TextWellFormed(v: Value)
    requires Encode(v).Some?
    ensures WellFormed(Encode(v).value)
  {
    match v
    case Null => PlainWellFormed(NULL_TEXT);
    case Bool(b) => PlainWellFormed(TRUE_TEXT); PlainWellFormed(FALSE_TEXT);
    case Str(s) => QuoteWellFormed(s);
    case Num(Integral(n)) =>
      DigitsPlain(if n < 0 then -n else n);
      PlainWellFormed(Decimal(n));
    case Arr(items) =>
      ItemsWellFormed(items);
      JoinItemsWellFormed(EncodeItems(items).value);
      Wrapped(OPEN_ARR, JoinItems(EncodeItems(items).value), CLOSE_ARR);
    case Obj(fields) =>
      FieldsWellFormed(fields);
      SortKeeps(EncodeFields(fields).value);
      JoinPairsWellFormed(SortPairs(EncodeFields(fields).value));
      Wrapped(OPEN_OBJ, JoinPairs(SortPairs(EncodeFields(fields).value)), CLOSE_OBJ);
  }

  lemma {:induction false} ItemsWellFormed(items: Items)
    requires EncodeItems(items).Some?
    ensures forall t | t in EncodeItems(items).value :: WellFormed(t)
  {
    if items.Item? { TextWellFormed(items.head); ItemsWellFormed(items.tail); }
  }

  lemma {:induction false} FieldsWellFormed(fields: Fields)
    requires EncodeFields(fields).Some?
    ensures forall p | p in EncodeFields(fields).value :: WellFormed(p.1)
  {
    if fields.Field? { TextWellFormed(fields.value); FieldsWellFormed(fields.rest); }
  }
}
