/**
 The JSON string decoder of internal/api/backups.go, against section 7 of RFC 8259 and
 section 3 of RFC 3629.
 */
module JsonString {
  import opened Options

  type Byte = b: int | 0 <= b < 256
  type Bytes = seq<Byte>

  const QUOTE: Byte := 0x22
  const BACKSLASH: Byte := 0x5c
  const LETTER_U: Byte := 0x75

  datatype Error = NotAString | TooLong | ControlCharacter | IncompleteEscape | BadUnicode | BadSurrogate | BadEscape | NotUtf8

  // ---- UTF-8 -----------------------------------------------------------------

  predicate IsScalar(c: int) {
    0 <= c <= 0x10ffff && !(0xd800 <= c <= 0xdfff)
  }

  function Utf8(c: int): Bytes
    requires IsScalar(c)
  {
    if c < 0x80 then [c]
    else if c < 0x800 then [0xc0 + c / 64, 0x80 + c % 64]
    else if c < 0x10000 then [0xe0 + c / 4096, 0x80 + c / 64 % 64, 0x80 + c % 64]
    else [0xf0 + c / 262144, 0x80 + c / 4096 % 64, 0x80 + c / 64 % 64, 0x80 + c % 64]
  }

  function Utf8All(cs: seq<int>): Bytes
    requires forall k :: 0 <= k < |cs| ==> IsScalar(cs[k])
  {
    if cs == [] then [] else Utf8(cs[0]) + Utf8All(cs[1..])
  }

  predicate Tail(b: Byte) { 0x80 <= b <= 0xbf }

  /** The second byte keeps overlong forms, surrogates and what lies past U+10FFFF out. */
  predicate Second(first: Byte, b: Byte) {
    if first == 0xe0 then 0xa0 <= b <= 0xbf
    else if first == 0xed then 0x80 <= b <= 0x9f
    else if first == 0xf0 then 0x90 <= b <= 0xbf
    else if first == 0xf4 then 0x80 <= b <= 0x8f
    else Tail(b)
  }

  /** The length of the character that begins here; zero if none does. */
  function Width(s: Bytes): (w: nat)
    ensures w <= |s|
  {
    if s == [] then 0
    else if s[0] < 0x80 then 1
    else if 0xc2 <= s[0] <= 0xdf && |s| >= 2 && Tail(s[1]) then 2
    else if 0xe0 <= s[0] <= 0xef && |s| >= 3 && Second(s[0], s[1]) && Tail(s[2]) then 3
    else if 0xf0 <= s[0] <= 0xf4 && |s| >= 4 && Second(s[0], s[1]) && Tail(s[2]) && Tail(s[3]) then 4
    else 0
  }

  predicate ValidUtf8(s: Bytes) {
    s == [] || (Width(s) > 0 && ValidUtf8(s[Width(s)..]))
  }

  lemma EncodedWidth(c: int, rest: Bytes)
    requires IsScalar(c)
    ensures Width(Utf8(c) + rest) == |Utf8(c)| && (Utf8(c) + rest)[|Utf8(c)|..] == rest
  {
    EncodedAlone(c);
    WidthLooksNoFurther(Utf8(c), rest);
  }

  lemma EncodedAlone(c: int)
    requires IsScalar(c)
    ensures Width(Utf8(c)) == |Utf8(c)| > 0
  {}

  lemma WidthLooksNoFurther(s: Bytes, rest: Bytes)
    requires Width(s) > 0
    ensures Width(s + rest) == Width(s)
  {
    assert forall k :: 0 <= k < |s| ==> (s + rest)[k] == s[k];
  }

  function ScalarOf(s: Bytes): int
    requires Width(s) > 0
  {
    var a: int := s[0];
    if Width(s) == 1 then a else
    var b: int := s[1];
    if Width(s) == 2 then (a - 0xc0) * 64 + (b - 0x80) else
    var c: int := s[2];
    if Width(s) == 3 then ((a - 0xe0) * 64 + (b - 0x80)) * 64 + (c - 0x80) else
    var d: int := s[3];
    (((a - 0xf0) * 64 + (b - 0x80)) * 64 + (c - 0x80)) * 64 + (d - 0x80)
  }

  lemma SixBits(q: int, r: int)
    requires q >= 0 && 0 <= r < 64
    ensures (q * 64 + r) / 64 == q && (q * 64 + r) % 64 == r
  {}

  lemma WidthIsOfAScalar(s: Bytes)
    requires Width(s) > 0
    ensures IsScalar(ScalarOf(s)) && Utf8(ScalarOf(s)) == s[..Width(s)]
  {
    if Width(s) == 2 {
      SixBits(s[0] as int - 0xc0, s[1] as int - 0x80);
    } else if Width(s) == 3 {
      ThreeBytes(s[0], s[1], s[2]);
    } else if Width(s) == 4 {
      FourBytes(s[0], s[1], s[2], s[3]);
    }
  }

  lemma ThreeBytes(a: int, b: int, c: int)
    requires 0xe0 <= a <= 0xef && 0x80 <= b <= 0xbf && 0x80 <= c <= 0xbf
    requires (a == 0xe0 ==> b >= 0xa0) && (a == 0xed ==> b <= 0x9f)
    ensures var x := ((a - 0xe0) * 64 + (b - 0x80)) * 64 + (c - 0x80);
            0x800 <= x < 0x10000 && IsScalar(x) && Utf8(x) == [a, b, c]
  {
    var y := (a - 0xe0) * 64 + (b - 0x80);
    var x := y * 64 + (c - 0x80);
    SixBits(y, c - 0x80);
    SixBits(a - 0xe0, b - 0x80);
    assert x / 64 == y && x / 4096 == y / 64;
  }

  lemma FourBytes(a: int, b: int, c: int, d: int)
    requires 0xf0 <= a <= 0xf4 && 0x80 <= b <= 0xbf && 0x80 <= c <= 0xbf && 0x80 <= d <= 0xbf
    requires (a == 0xf0 ==> b >= 0x90) && (a == 0xf4 ==> b <= 0x8f)
    ensures var x := (((a - 0xf0) * 64 + (b - 0x80)) * 64 + (c - 0x80)) * 64 + (d - 0x80);
            0x10000 <= x < 0x110000 && Utf8(x) == [a, b, c, d]
  {
    var z := (a - 0xf0) * 64 + (b - 0x80);
    var y := z * 64 + (c - 0x80);
    var x := y * 64 + (d - 0x80);
    SixBits(y, d - 0x80);
    SixBits(z, c - 0x80);
    SixBits(a - 0xf0, b - 0x80);
    assert x / 64 == y && x / 4096 == y / 64 == z && x / 262144 == z / 64;
  }

  /** The check accepts exactly the encodings of Unicode scalar values. */
  lemma {:induction false} ValidMeansEncoded(s: Bytes)
    ensures ValidUtf8(s) <==> exists cs: seq<int> :: Scalars(cs) && Utf8All(cs) == s
  {
    if ValidUtf8(s) {
      var cs := Decoded(s);
    }
    if cs: seq<int> :| Scalars(cs) && Utf8All(cs) == s {
      EncodedIsValid(cs);
    }
  }

  predicate Scalars(cs: seq<int>) {
    forall k :: 0 <= k < |cs| ==> IsScalar(cs[k])
  }

  lemma {:induction false} Decoded(s: Bytes) returns (cs: seq<int>)
    requires ValidUtf8(s)
    ensures Scalars(cs) && Utf8All(cs) == s
  {
    if s == [] {
      cs := [];
    } else {
      WidthIsOfAScalar(s);
      var rest := Decoded(s[Width(s)..]);
      cs := [ScalarOf(s)] + rest;
      assert cs[1..] == rest;
      assert s == s[..Width(s)] + s[Width(s)..];
    }
  }

  lemma {:induction false} EncodedIsValid(cs: seq<int>)
    requires Scalars(cs)
    ensures ValidUtf8(Utf8All(cs))
  {
    if cs != [] {
      EncodedIsValid(cs[1..]);
      EncodedWidth(cs[0], Utf8All(cs[1..]));
    }
  }

  // ---- the decoder --------------------------------------------------------------

  function HexDigit(b: Byte): Option<int> {
    if 0x30 <= b <= 0x39 then Some(b - 0x30)
    else if 0x61 <= b <= 0x66 then Some(b - 0x61 + 10)
    else if 0x41 <= b <= 0x46 then Some(b - 0x41 + 10)
    else None
  }

  function Power16(n: nat): nat {
    if n == 0 then 1 else 16 * Power16(n - 1)
  }

  /** The value of the first n hexadecimal digits. */
  function HexValue(s: Bytes, n: nat): (r: Option<int>)
    requires n <= |s|
    ensures r.Some? ==> 0 <= r.value < Power16(n)
  {
    if n == 0 then Some(0) else
    var high, low := HexValue(s, n - 1), HexDigit(s[n - 1]);
    if high.None? || low.None? then None else Some(high.value * 16 + low.value)
  }

  function Hex4(s: Bytes): (r: Option<int>)
    ensures r.Some? ==> 0 <= r.value <= 0xffff
  {
    if |s| < 4 then None else
    assert Power16(4) == 0x10000;
    HexValue(s, 4)
  }

  datatype Taken = Taken(scalar: int, used: nat)

  /** What follows a backslash and a u. */
  function Unicode(s: Bytes): (r: Result<Taken, Error>)
    ensures r.Ok? ==> IsScalar(r.value.scalar) && r.value.used <= |s|
  {
    var first := Hex4(s);
    if first.None? then Err(BadUnicode)
    else if first.value < 0xd800 || first.value > 0xdfff then Ok(Taken(first.value, 4))
    else if first.value > 0xdbff || |s| < 10 || s[4] != BACKSLASH || s[5] != LETTER_U then Err(BadSurrogate)
    else
      var second := Hex4(s[6..]);
      if second.None? || second.value < 0xdc00 || second.value > 0xdfff then Err(BadSurrogate)
      else Ok(Taken(0x10000 + (first.value - 0xd800) * 0x400 + second.value - 0xdc00, 10))
  }

  function ShortEscape(b: Byte): Option<Byte> {
    if b == QUOTE || b == BACKSLASH || b == 0x2f then Some(b)
    else if b == 0x62 then Some(8)
    else if b == 0x66 then Some(12)
    else if b == 0x6e then Some(10)
    else if b == 0x72 then Some(13)
    else if b == 0x74 then Some(9)
    else None
  }

  datatype Piece =
    | Raw(b: Byte)
    | Short(letter: Byte)
    | Unit(digits: Bytes)
    | Pair(high: Bytes, low: Bytes)

  datatype Read = Read(out: Bytes, used: nat)

  /** One turn of the loop. */
  function ReadOne(s: Bytes): (r: Result<Read, Error>)
    requires s != []
    ensures r.Ok? ==> 0 < r.value.used <= |s|
  {
    if s[0] != BACKSLASH then if s[0] < 0x20 then Err(ControlCharacter) else Ok(Read([s[0]], 1))
    else if |s| == 1 then Err(IncompleteEscape)
    else if ShortEscape(s[1]).Some? then Ok(Read([ShortEscape(s[1]).value], 2))
    else if s[1] == LETTER_U then
      match Unicode(s[2..])
      case Err(e) => Err(e)
      case Ok(t) => Ok(Read(Utf8(t.scalar), 2 + t.used))
    else Err(BadEscape)
  }

  function ReadAll(s: Bytes, out: Bytes, limit: nat): Result<Bytes, Error>
    decreases |s|
  {
    if s == [] then if |out| > limit then Err(TooLong) else if !ValidUtf8(out) then Err(NotUtf8) else Ok(out)
    else if |out| > limit then Err(TooLong)
    else
      match ReadOne(s)
      case Err(e) => Err(e)
      case Ok(r) => ReadAll(s[r.used..], out + r.out, limit)
  }

  function Decode(data: Bytes, limit: nat): Result<Bytes, Error> {
    if |data| < 2 || data[0] != QUOTE || data[|data| - 1] != QUOTE then Err(NotAString)
    else ReadAll(data[1..|data| - 1], [], limit)
  }

  method DecodeHex4(data: Bytes) returns (r: Option<int>)
    ensures r == Hex4(data)
  {
    if |data| < 4 {
      return None;
    }
    var out := 0;
    for i := 0 to 4
      invariant HexValue(data, i) == Some(out)
    {
      var d := HexDigit(data[i]);
      if d.None? {
        NoValue(data, i + 1, 4);
        return None;
      }
      out := out * 16 + d.value;
    }
    return Some(out);
  }

  lemma {:induction false} NoValue(s: Bytes, n: nat, m: nat)
    requires n <= m <= |s| && HexValue(s, n).None?
    ensures HexValue(s, m).None?
    decreases m
  {
    if n < m {
      NoValue(s, n, m - 1);
    }
  }

  method DecodeJSONUnicode(data: Bytes) returns (r: Result<Taken, Error>)
    ensures r == Unicode(data)
  {
    var first := DecodeHex4(data);
    if first.None? {
      return Err(BadUnicode);
    }
    if first.value < 0xd800 || first.value > 0xdfff {
      return Ok(Taken(first.value, 4));
    }
    if first.value > 0xdbff || |data| < 10 || data[4] != BACKSLASH || data[5] != LETTER_U {
      return Err(BadSurrogate);
    }
    var second := DecodeHex4(data[6..]);
    if second.None? || second.value < 0xdc00 || second.value > 0xdfff {
      return Err(BadSurrogate);
    }
    return Ok(Taken(0x10000 + (first.value - 0xd800) * 0x400 + second.value - 0xdc00, 10));
  }

  /** What follows a backslash, or the incomplete escape it is. */
  method DecodeEscape(s: Bytes) returns (r: Result<Read, Error>)
    requires s != [] && s[0] == BACKSLASH
    ensures r == ReadOne(s)
  {
    if |s| == 1 {
      return Err(IncompleteEscape);
    }
    var short := ShortEscape(s[1]);
    if short.Some? {
      return Ok(Read([short.value], 2));
    }
    if s[1] != LETTER_U {
      return Err(BadEscape);
    }
    var t := DecodeJSONUnicode(s[2..]);
    if t.Err? {
      return Err(t.error);
    }
    return Ok(Read(Utf8(t.value.scalar), 2 + t.value.used));
  }

  /** One cursor over the data, up to the closing quote. */
  method DecodeJSONString(data: Bytes, limit: nat) returns (r: Result<Bytes, Error>)
    ensures r == Decode(data, limit)
  {
    if |data| < 2 || data[0] != QUOTE || data[|data| - 1] != QUOTE {
      return Err(NotAString);
    }
    var end := |data| - 1;
    var out: Bytes := [];
    var i := 1;
    while i < end
      invariant 1 <= i <= end && ReadAll(data[i..end], out, limit) == Decode(data, limit)
    {
      if |out| > limit {
        return Err(TooLong);
      }
      var step: Result<Read, Error>;
      if data[i] == BACKSLASH {
        step := DecodeEscape(data[i..end]);
      } else if data[i] < 0x20 {
        step := Err(ControlCharacter);
      } else {
        step := Ok(Read([data[i]], 1));
      }
      assert step == ReadOne(data[i..end]);
      if step.Err? {
        return Err(step.error);
      }
      assert data[i..end][step.value.used..] == data[i + step.value.used..end];
      out := out + step.value.out;
      i := i + step.value.used;
    }
    assert data[end..end] == [];
    if |out| > limit {
      return Err(TooLong);
    }
    if !ValidUtf8(out) {
      return Err(NotUtf8);
    }
    return Ok(out);
  }

  // ---- what it accepts ---------------------------------------------------------------

  predicate FourDigits(h: Bytes) {
    |h| == 4 && Hex4(h).Some?
  }

  /** The pieces a string is made of; `Raw` is one byte of a character as it stands. */
  predicate Proper(p: Piece) {
    match p
    case Raw(b) => b >= 0x20 && b != BACKSLASH
    case Short(letter) => ShortEscape(letter).Some?
    case Unit(h) => FourDigits(h) && IsScalar(Hex4(h).value)
    case Pair(h, l) => FourDigits(h) && FourDigits(l) && 0xd800 <= Hex4(h).value <= 0xdbff && 0xdc00 <= Hex4(l).value <= 0xdfff
  }

  function Spell(p: Piece): Bytes {
    match p
    case Raw(b) => [b]
    case Short(letter) => [BACKSLASH, letter]
    case Unit(h) => [BACKSLASH, LETTER_U] + h
    case Pair(h, l) => [BACKSLASH, LETTER_U] + h + [BACKSLASH, LETTER_U] + l
  }

  /** U+10000 and beyond, from a surrogate pair. */
  function Joined(high: int, low: int): int {
    0x10000 + (high - 0xd800) * 0x400 + (low - 0xdc00)
  }

  function Meaning(p: Piece): Bytes
    requires Proper(p)
  {
    match p
    case Raw(b) => [b]
    case Short(letter) => [ShortEscape(letter).value]
    case Unit(h) => Utf8(Hex4(h).value)
    case Pair(h, l) => Utf8(Joined(Hex4(h).value, Hex4(l).value))
  }

  predicate AllProper(ps: seq<Piece>) {
    forall k :: 0 <= k < |ps| ==> Proper(ps[k])
  }

  function SpellAll(ps: seq<Piece>): Bytes {
    if ps == [] then [] else Spell(ps[0]) + SpellAll(ps[1..])
  }

  function MeaningAll(ps: seq<Piece>): Bytes
    requires AllProper(ps)
  {
    if ps == [] then [] else Meaning(ps[0]) + MeaningAll(ps[1..])
  }

  lemma {:induction false} HexPrefix(h: Bytes, rest: Bytes, n: nat)
    requires n <= |h|
    ensures HexValue(h + rest, n) == HexValue(h, n)
  {
    if n > 0 {
      HexPrefix(h, rest, n - 1);
    }
  }

  lemma Hex4Prefix(h: Bytes, rest: Bytes)
    requires |h| == 4
    ensures Hex4(h + rest) == Hex4(h)
  {
    HexPrefix(h, rest, 4);
  }

  lemma UnicodeOfUnit(h: Bytes, rest: Bytes)
    requires FourDigits(h) && IsScalar(Hex4(h).value)
    ensures Unicode(h + rest) == Ok(Taken(Hex4(h).value, 4))
  {
    Hex4Prefix(h, rest);
  }

  lemma UnicodeOfPair(h: Bytes, l: Bytes, rest: Bytes)
    requires Proper(Pair(h, l))
    ensures Unicode(h + ([BACKSLASH, LETTER_U] + l + rest)) == Ok(Taken(Joined(Hex4(h).value, Hex4(l).value), 10))
  {
    var after := [BACKSLASH, LETTER_U] + l + rest;
    Hex4Prefix(h, after);
    assert (h + after)[6..] == l + rest;
    Hex4Prefix(l, rest);
  }

  lemma EscapeReads(s: Bytes)
    requires |s| >= 2 && s[0] == BACKSLASH && s[1] == LETTER_U && Unicode(s[2..]).Ok?
    ensures ReadOne(s) == Ok(Read(Utf8(Unicode(s[2..]).value.scalar), 2 + Unicode(s[2..]).value.used))
  {}

  lemma ReadsPiece(p: Piece, rest: Bytes)
    requires Proper(p)
    ensures ReadOne(Spell(p) + rest) == Ok(Read(Meaning(p), |Spell(p)|))
  {
    match p
    case Raw(_) => {}
    case Short(_) => {}
    case Unit(h) => { ReadsUnit(h, rest); }
    case Pair(h, l) => { ReadsPair(h, l, rest); }
  }

  lemma ReadsUnit(h: Bytes, rest: Bytes)
    requires Proper(Unit(h))
    ensures ReadOne(Spell(Unit(h)) + rest) == Ok(Read(Meaning(Unit(h)), 6))
  {
    var s := [BACKSLASH, LETTER_U] + h + rest;
    assert s[2..] == h + rest;
    UnicodeOfUnit(h, rest);
    EscapeReads(s);
  }

  lemma ReadsPair(h: Bytes, l: Bytes, rest: Bytes)
    requires Proper(Pair(h, l))
    ensures ReadOne(Spell(Pair(h, l)) + rest) == Ok(Read(Meaning(Pair(h, l)), 12))
  {
    var s := [BACKSLASH, LETTER_U] + h + [BACKSLASH, LETTER_U] + l + rest;
    assert s[2..] == h + ([BACKSLASH, LETTER_U] + l + rest);
    UnicodeOfPair(h, l, rest);
    EscapeReads(s);
  }

  /** The other way: whatever is read is one piece. */
  lemma PieceOf(s: Bytes) returns (p: Piece)
    requires s != [] && ReadOne(s).Ok?
    ensures Proper(p) && Spell(p) == s[..ReadOne(s).value.used] && Meaning(p) == ReadOne(s).value.out
  {
    if s[0] != BACKSLASH {
      p := Raw(s[0]);
    } else if ShortEscape(s[1]).Some? {
      p := Short(s[1]);
    } else {
      p := UnicodePieceOf(s[2..]);
      EscapeReads(s);
      assert s[..ReadOne(s).value.used] == [BACKSLASH, LETTER_U] + s[2..][..Unicode(s[2..]).value.used];
    }
  }

  lemma UnicodePieceOf(s: Bytes) returns (p: Piece)
    requires Unicode(s).Ok?
    ensures Proper(p) && Spell(p) == [BACKSLASH, LETTER_U] + s[..Unicode(s).value.used]
    ensures Meaning(p) == Utf8(Unicode(s).value.scalar)
  {
    var h := s[..4];
    assert s == h + s[4..];
    Hex4Prefix(h, s[4..]);
    if Unicode(s).value.used == 4 {
      p := Unit(h);
    } else {
      var l := s[6..10];
      assert s[6..] == l + s[10..];
      Hex4Prefix(l, s[10..]);
      p := Pair(h, l);
      assert s[..10] == h + [BACKSLASH, LETTER_U] + l;
    }
  }

  lemma StepReads(p: Piece, after: Bytes, out: Bytes, limit: nat)
    requires Proper(p) && |out| <= limit
    ensures ReadAll(Spell(p) + after, out, limit) == ReadAll(after, out + Meaning(p), limit)
  {
    ReadsPiece(p, after);
    assert (Spell(p) + after)[|Spell(p)|..] == after;
  }

  lemma HeadAndTail(ps: seq<Piece>, rest: Bytes, out: Bytes)
    requires ps != [] && AllProper(ps)
    ensures AllProper(ps[1..])
    ensures SpellAll(ps) + rest == Spell(ps[0]) + (SpellAll(ps[1..]) + rest)
    ensures out + MeaningAll(ps) == (out + Meaning(ps[0])) + MeaningAll(ps[1..])
  {}

  lemma {:induction false} ReadsPieces(ps: seq<Piece>, rest: Bytes, out: Bytes, limit: nat)
    requires AllProper(ps) && |out + MeaningAll(ps)| <= limit
    ensures ReadAll(SpellAll(ps) + rest, out, limit) == ReadAll(rest, out + MeaningAll(ps), limit)
    decreases |ps|
  {
    if ps == [] {
      assert SpellAll(ps) + rest == rest && out + MeaningAll(ps) == out;
    } else {
      HeadAndTail(ps, rest, out);
      StepReads(ps[0], SpellAll(ps[1..]) + rest, out, limit);
      ReadsPieces(ps[1..], rest, out + Meaning(ps[0]), limit);
    }
  }

  function Quoted(inner: Bytes): Bytes {
    [QUOTE] + inner + [QUOTE]
  }

  lemma QuotedDecodes(inner: Bytes, limit: nat)
    ensures Decode(Quoted(inner), limit) == ReadAll(inner, [], limit)
  {}

  /** The pieces spell s, and after `out` they mean what was decoded. */
  predicate Parses(ps: seq<Piece>, s: Bytes, out: Bytes, limit: nat, result: Bytes) {
    AllProper(ps) && SpellAll(ps) == s && result == out + MeaningAll(ps) && |result| <= limit && ValidUtf8(result)
  }

  lemma Grouped(a: Bytes, b: Bytes, c: Bytes)
    ensures a + (b + c) == (a + b) + c
  {}

  lemma OneMore(p: Piece, rest: seq<Piece>)
    requires Proper(p) && AllProper(rest)
    ensures AllProper([p] + rest) && SpellAll([p] + rest) == Spell(p) + SpellAll(rest)
    ensures MeaningAll([p] + rest) == Meaning(p) + MeaningAll(rest)
  {
    assert ([p] + rest)[1..] == rest;
  }

  lemma ParsesOneMore(p: Piece, rest: seq<Piece>, s: Bytes, out: Bytes, limit: nat, result: Bytes)
    requires Proper(p) && Parses(rest, s, out + Meaning(p), limit, result)
    ensures Parses([p] + rest, Spell(p) + s, out, limit, result)
  {
    OneMore(p, rest);
    Grouped(out, Meaning(p), MeaningAll(rest));
  }

  lemma ReadsOnce(s: Bytes, out: Bytes, limit: nat, result: Bytes) returns (p: Piece, after: Bytes)
    requires s != [] && ReadAll(s, out, limit) == Ok(result)
    ensures Proper(p) && s == Spell(p) + after && |after| < |s| && ReadAll(after, out + Meaning(p), limit) == Ok(result)
  {
    var r := ReadOne(s).value;
    p := PieceOf(s);
    after := s[r.used..];
    assert s == s[..r.used] + after;
  }

  lemma {:induction false} PiecesOf(s: Bytes, out: Bytes, limit: nat, result: Bytes) returns (ps: seq<Piece>)
    requires ReadAll(s, out, limit) == Ok(result)
    ensures Parses(ps, s, out, limit, result)
    decreases |s|
  {
    if s == [] {
      ps := [];
      assert out + [] == out;
    } else {
      var p, after := ReadsOnce(s, out, limit, result);
      var rest := PiecesOf(after, out + Meaning(p), limit, result);
      ps := [p] + rest;
      ParsesOneMore(p, rest, after, out, limit, result);
    }
  }

  /** What is decoded is what a sequence of proper pieces spells, within the limit and in valid UTF-8; and nothing else is. */
  lemma DecodesExactly(inner: Bytes, limit: nat, out: Bytes)
    ensures Decode(Quoted(inner), limit) == Ok(out) <==> exists ps :: Parses(ps, inner, [], limit, out)
  {
    QuotedDecodes(inner, limit);
    if Decode(Quoted(inner), limit) == Ok(out) {
      var ps := PiecesOf(inner, [], limit, out);
    }
    if ps :| Parses(ps, inner, [], limit, out) {
      ReadsPieces(ps, [], [], limit);
      assert SpellAll(ps) + [] == inner;
    }
  }

  // ---- the round trip -------------------------------------------------------------------

  /** One character, and one of the ways RFC 8259 lets it be written. */
  datatype Written =
    | Plain(c: int)
    | Escaped(letter: Byte)
    | Coded(digits: Bytes)
    | Paired(high: Bytes, low: Bytes)

  predicate Lawful(w: Written) {
    match w
    case Plain(c) => IsScalar(c) && c >= 0x20 && c != QUOTE && c != BACKSLASH
    case Escaped(letter) => Proper(Short(letter))
    case Coded(h) => Proper(Unit(h))
    case Paired(h, l) => Proper(Pair(h, l))
  }

  function Character(w: Written): (c: int)
    requires Lawful(w)
    ensures IsScalar(c)
  {
    match w
    case Plain(c) => c
    case Escaped(letter) => ShortEscape(letter).value
    case Coded(h) => Hex4(h).value
    case Paired(h, l) => Joined(Hex4(h).value, Hex4(l).value)
  }

  function Raws(s: Bytes): seq<Piece> {
    seq(|s|, k requires 0 <= k < |s| => Raw(s[k]))
  }

  function PiecesFor(w: Written): seq<Piece>
    requires Lawful(w)
  {
    match w
    case Plain(c) => Raws(Utf8(c))
    case Escaped(letter) => [Short(letter)]
    case Coded(h) => [Unit(h)]
    case Paired(h, l) => [Pair(h, l)]
  }

  predicate AllLawful(ws: seq<Written>) {
    forall k :: 0 <= k < |ws| ==> Lawful(ws[k])
  }

  function Text(ws: seq<Written>): Bytes
    requires AllLawful(ws)
  {
    if ws == [] then [] else SpellAll(PiecesFor(ws[0])) + Text(ws[1..])
  }

  function Characters(ws: seq<Written>): (cs: seq<int>)
    requires AllLawful(ws)
    ensures Scalars(cs)
  {
    if ws == [] then [] else [Character(ws[0])] + Characters(ws[1..])
  }

  lemma {:induction false} RawsAreTheBytes(s: Bytes)
    requires forall k :: 0 <= k < |s| ==> Proper(Raw(s[k]))
    ensures AllProper(Raws(s)) && SpellAll(Raws(s)) == s && MeaningAll(Raws(s)) == s
  {
    if s != [] {
      RawsAreTheBytes(s[1..]);
      assert Raws(s)[1..] == Raws(s[1..]);
    }
  }

  lemma WrittenMeansItsCharacter(w: Written)
    requires Lawful(w)
    ensures AllProper(PiecesFor(w)) && MeaningAll(PiecesFor(w)) == Utf8(Character(w))
  {
    match w
    case Plain(c) => { RawsAreTheBytes(Utf8(c)); }
    case Escaped(letter) => { OnePiece(Short(letter)); }
    case Coded(h) => { OnePiece(Unit(h)); }
    case Paired(h, l) => { OnePiece(Pair(h, l)); }
  }

  lemma OnePiece(p: Piece)
    requires Proper(p)
    ensures MeaningAll([p]) == Meaning(p) && SpellAll([p]) == Spell(p)
  {}

  lemma FirstAndRest(ws: seq<Written>, out: Bytes)
    requires ws != [] && AllLawful(ws)
    ensures AllLawful(ws[1..]) && Text(ws) == SpellAll(PiecesFor(ws[0])) + Text(ws[1..])
    ensures out + Utf8All(Characters(ws)) == (out + Utf8(Character(ws[0]))) + Utf8All(Characters(ws[1..]))
  {}

  lemma {:induction false} TextReads(ws: seq<Written>, out: Bytes, limit: nat)
    requires AllLawful(ws) && |out + Utf8All(Characters(ws))| <= limit
    ensures ReadAll(Text(ws), out, limit) == ReadAll([], out + Utf8All(Characters(ws)), limit)
    decreases |ws|
  {
    if ws == [] {
      assert out + [] == out;
    } else {
      FirstAndRest(ws, out);
      WrittenMeansItsCharacter(ws[0]);
      ReadsPieces(PiecesFor(ws[0]), Text(ws[1..]), out, limit);
      TextReads(ws[1..], out + Utf8(Character(ws[0])), limit);
    }
  }

  /** Every text, in every lawful writing, decodes to its own UTF-8. */
  lemma RoundTrip(ws: seq<Written>, limit: nat)
    requires AllLawful(ws)
    ensures |Utf8All(Characters(ws))| <= limit ==> Decode(Quoted(Text(ws)), limit) == Ok(Utf8All(Characters(ws)))
  {
    if |Utf8All(Characters(ws))| <= limit {
      QuotedDecodes(Text(ws), limit);
      TextReads(ws, [], limit);
      EncodedIsValid(Characters(ws));
      assert [] + Utf8All(Characters(ws)) == Utf8All(Characters(ws));
    }
  }

  // ---- what it refuses ------------------------------------------------------------------------

  /** Whatever is wrong is refused for what it is, unless the string was too long before. */
  lemma RefusedAfterPieces(ps: seq<Piece>, bad: Bytes, limit: nat)
    requires AllProper(ps) && bad != [] && ReadOne(bad).Err?
    ensures Decode(Quoted(SpellAll(ps) + bad), limit) == Err(if |MeaningAll(ps)| <= limit then ReadOne(bad).error else TooLong)
  {
    QuotedDecodes(SpellAll(ps) + bad, limit);
    NeverRecovers(ps, bad, [], limit);
    assert [] + MeaningAll(ps) == MeaningAll(ps);
  }

  lemma {:induction false} NeverRecovers(ps: seq<Piece>, bad: Bytes, out: Bytes, limit: nat)
    requires AllProper(ps) && bad != [] && ReadOne(bad).Err?
    ensures ReadAll(SpellAll(ps) + bad, out, limit) == Err(if |out| + |MeaningAll(ps)| <= limit then ReadOne(bad).error else TooLong)
    decreases |ps|
  {
    if ps == [] {
      assert SpellAll(ps) + bad == bad;
    } else {
      HeadAndTail(ps, bad, out);
      if |out| <= limit {
        StepReads(ps[0], SpellAll(ps[1..]) + bad, out, limit);
        NeverRecovers(ps[1..], bad, out + Meaning(ps[0]), limit);
      }
    }
  }

  /** A surrogate without its other half is refused, wherever it stands. */
  lemma UnpairedSurrogatesAreRefused(ps: seq<Piece>, h: Bytes, rest: Bytes, limit: nat)
    requires AllProper(ps) && FourDigits(h) && 0xd800 <= Hex4(h).value <= 0xdfff
    requires Hex4(h).value <= 0xdbff ==>
               !(|rest| >= 6 && rest[0] == BACKSLASH && rest[1] == LETTER_U && Hex4(rest[2..]).Some? && 0xdc00 <= Hex4(rest[2..]).value <= 0xdfff)
    ensures Decode(Quoted(SpellAll(ps) + ([BACKSLASH, LETTER_U] + h + rest)), limit)
            == Err(if |MeaningAll(ps)| <= limit then BadSurrogate else TooLong)
  {
    var bad := [BACKSLASH, LETTER_U] + h + rest;
    Hex4Prefix(h, rest);
    assert bad[2..] == h + rest;
    if |rest| >= 6 {
      assert bad[2..][6..] == rest[2..];
    }
    RefusedAfterPieces(ps, bad, limit);
  }

  /** So are an escape that is none, a control character, a backslash before the end, and a u without four digits. */
  lemma BadBytesAreRefused(ps: seq<Piece>, bad: Bytes, limit: nat)
    requires AllProper(ps) && bad != []
    requires bad[0] < 0x20 || bad == [BACKSLASH]
             || (bad[0] == BACKSLASH && |bad| > 1 && if bad[1] == LETTER_U then Hex4(bad[2..]).None? else bad[1] !in ESCAPES)
    ensures Decode(Quoted(SpellAll(ps) + bad), limit) ==
            Err(if |MeaningAll(ps)| > limit then TooLong
                else if bad[0] < 0x20 then ControlCharacter
                else if bad == [BACKSLASH] then IncompleteEscape
                else if bad[1] == LETTER_U then BadUnicode else BadEscape)
  {
    if |bad| > 1 {
      EscapesAreTheStandard(bad[1]);
    }
    RefusedAfterPieces(ps, bad, limit);
  }

  lemma UnquotedIsRefused(data: Bytes, limit: nat)
    ensures Decode(data, limit) == Err(NotAString) <==>
            !(|data| >= 2 && data[0] == QUOTE && data[|data| - 1] == QUOTE)
  {
    if |data| >= 2 && data[0] == QUOTE && data[|data| - 1] == QUOTE {
      NeverNotAString(data[1..|data| - 1], [], limit);
    }
  }

  lemma {:induction false} NeverNotAString(s: Bytes, out: Bytes, limit: nat)
    ensures ReadAll(s, out, limit) != Err(NotAString)
    decreases |s|
  {
    if s != [] && |out| <= limit && ReadOne(s).Ok? {
      NeverNotAString(s[ReadOne(s).value.used..], out + ReadOne(s).value.out, limit);
    }
  }

  // ---- the tables of the standards ----------------------------------------------------------

  /** Section 7 of RFC 8259. */
  const ESCAPES: map<Byte, Byte> :=
    map[0x22 := 0x22, 0x5c := 0x5c, 0x2f := 0x2f, 0x62 := 0x08, 0x66 := 0x0c, 0x6e := 0x0a, 0x72 := 0x0d, 0x74 := 0x09]

  lemma EscapesAreTheStandard(b: Byte)
    ensures ShortEscape(b) == if b in ESCAPES then Some(ESCAPES[b]) else None
  {}

  const DIGITS := "0123456789abcdef"
  const CAPITALS := "0123456789ABCDEF"

  lemma DigitsAreTheStandard(b: Byte, v: int)
    ensures HexDigit(b) == Some(v) <==> 0 <= v < 16 && (b as char == DIGITS[v] || b as char == CAPITALS[v])
  {
    assert |DIGITS| == 16 && |CAPITALS| == 16;
  }

  lemma HexGrows(h: Bytes, n: nat)
    requires n < |h|
    ensures HexValue(h, n + 1) == if HexValue(h, n).Some? && HexDigit(h[n]).Some?
                                  then Some(HexValue(h, n).value * 16 + HexDigit(h[n]).value) else None
    ensures HexValue(h, 0) == Some(0)
  {}

  /** Most significant digit first. */
  lemma FourDigitsWeigh(h: Bytes)
    requires |h| == 4
    ensures Hex4(h) == if forall k :: 0 <= k < 4 ==> HexDigit(h[k]).Some?
                       then Some(4096 * HexDigit(h[0]).value + 256 * HexDigit(h[1]).value + 16 * HexDigit(h[2]).value + HexDigit(h[3]).value)
                       else None
  {
    HexGrows(h, 0);
    HexGrows(h, 1);
    HexGrows(h, 2);
    HexGrows(h, 3);
    if HexValue(h, 4).None? {
      assert HexDigit(h[0]).None? || HexDigit(h[1]).None? || HexDigit(h[2]).None? || HexDigit(h[3]).None?;
    }
  }

  /** UTF-16: ten bits in each half. */
  lemma PairsAreUtf16(c: int)
    requires 0x10000 <= c <= 0x10ffff
    ensures Joined(0xd800 + (c - 0x10000) / 0x400, 0xdc00 + (c - 0x10000) % 0x400) == c
  {}

  /** Section 3 of RFC 3629: the first byte tells the length, and six bits are in each byte after it. */
  lemma Utf8IsTheStandard(c: int)
    requires IsScalar(c)
    ensures |Utf8(c)| == if c < 0x80 then 1 else if c < 0x800 then 2 else if c < 0x10000 then 3 else 4
    ensures c == Carried(Utf8(c))
    ensures forall k :: 1 <= k < |Utf8(c)| ==> 0x80 <= Utf8(c)[k] < 0xc0
  {
    if 0x800 <= c {
      SixBitsEach(c);
    }
  }

  /** What the bytes carry once the marks of the length and of the bytes after the first are taken off. */
  function Carried(s: Bytes): int
    requires 1 <= |s| <= 4
  {
    if |s| == 1 then s[0]
    else if |s| == 2 then (s[0] as int - 0xc0) * 64 + s[1] - 0x80
    else if |s| == 3 then (s[0] as int - 0xe0) * 4096 + (s[1] as int - 0x80) * 64 + s[2] - 0x80
    else (s[0] as int - 0xf0) * 262144 + (s[1] as int - 0x80) * 4096 + (s[2] as int - 0x80) * 64 + s[3] - 0x80
  }

  lemma SixBitsEach(c: nat)
    ensures c == c / 4096 * 4096 + c / 64 % 64 * 64 + c % 64
    ensures c / 4096 == c / 262144 * 64 + c / 4096 % 64
  {}

  // ---- where it departs from RFC 8259 --------------------------------------------------------

  lemma TailIsRaw(ps: seq<Piece>, b: Byte, more: Bytes)
    requires AllProper(ps) && MeaningAll(ps) == [b] + more && Tail(b)
    ensures ps != [] && ps[0] == Raw(b) && MeaningAll(ps[1..]) == more && SpellAll(ps) == [b] + SpellAll(ps[1..])
  {
    NoEscapeIsATail(ps[0]);
    var first, others := Meaning(ps[0]), MeaningAll(ps[1..]);
    assert first + others == [b] + more;
    assert (first + others)[0] == first[0] && ([b] + more)[1..] == more && ([b] + others)[1..] == others;
  }

  /** Continuation bytes only come raw: no escape begins with one. */
  lemma {:induction false} TailsAreRaw(ps: seq<Piece>, tails: Bytes, more: Bytes)
    requires AllProper(ps) && MeaningAll(ps) == tails + more && forall k :: 0 <= k < |tails| ==> Tail(tails[k])
    ensures |tails| <= |ps| && MeaningAll(ps[|tails|..]) == more && SpellAll(ps) == tails + SpellAll(ps[|tails|..])
    decreases |tails|
  {
    if tails == [] {
      assert ps[0..] == ps && tails + more == more;
    } else {
      var b, others := tails[0], tails[1..];
      assert tails == [b] + others;
      Grouped([b], others, more);
      TailIsRaw(ps, b, others + more);
      TailsAreRaw(ps[1..], others, more);
      assert ps[|tails|..] == ps[1..][|others|..];
      Grouped([b], others, SpellAll(ps[|tails|..]));
    }
  }

  lemma NoEscapeIsATail(p: Piece)
    requires Proper(p)
    ensures Meaning(p) != [] && (Tail(Meaning(p)[0]) ==> p.Raw?)
  {}

  function RawsThen(s: Bytes, rest: seq<Piece>): seq<Piece> {
    if s == [] then rest else [Raw(s[0])] + RawsThen(s[1..], rest)
  }

  function PiecesThen(w: Written, rest: seq<Piece>): seq<Piece>
    requires Lawful(w)
  {
    if w.Plain? then RawsThen(Utf8(w.c), rest) else PiecesFor(w) + rest
  }

  /** The pieces a lawful writing is made of. */
  function AllPiecesFor(ws: seq<Written>): seq<Piece>
    requires AllLawful(ws)
  {
    if ws == [] then [] else PiecesThen(ws[0], AllPiecesFor(ws[1..]))
  }

  lemma {:induction false} RawsSpell(s: Bytes, rest: seq<Piece>)
    requires AllProper(rest) && Raw(QUOTE) !in rest && forall k :: 0 <= k < |s| ==> Proper(Raw(s[k])) && s[k] != QUOTE
    ensures AllProper(RawsThen(s, rest)) && Raw(QUOTE) !in RawsThen(s, rest)
    ensures SpellAll(RawsThen(s, rest)) == s + SpellAll(rest) && MeaningAll(RawsThen(s, rest)) == s + MeaningAll(rest)
  {
    if s != [] {
      var b, others := s[0], s[1..];
      RawsSpell(others, rest);
      OneMore(Raw(b), RawsThen(others, rest));
      assert s == [b] + others;
      Grouped([b], others, SpellAll(rest));
      Grouped([b], others, MeaningAll(rest));
    }
  }

  lemma WrittenThen(w: Written, rest: seq<Piece>)
    requires Lawful(w) && AllProper(rest) && Raw(QUOTE) !in rest
    ensures AllProper(PiecesThen(w, rest)) && Raw(QUOTE) !in PiecesThen(w, rest)
    ensures SpellAll(PiecesThen(w, rest)) == SpellAll(PiecesFor(w)) + SpellAll(rest)
    ensures MeaningAll(PiecesThen(w, rest)) == Utf8(Character(w)) + MeaningAll(rest)
  {
    if w.Plain? {
      RawsAreTheBytes(Utf8(w.c));
      RawsSpell(Utf8(w.c), rest);
    } else {
      OnePiece(PiecesFor(w)[0]);
      OneMore(PiecesFor(w)[0], rest);
    }
  }

  /** No lawful writing has a bare quote. */
  lemma {:induction false} LawfulPieces(ws: seq<Written>)
    requires AllLawful(ws)
    ensures AllProper(AllPiecesFor(ws)) && Raw(QUOTE) !in AllPiecesFor(ws)
    ensures SpellAll(AllPiecesFor(ws)) == Text(ws) && MeaningAll(AllPiecesFor(ws)) == Utf8All(Characters(ws))
  {
    if ws != [] {
      LawfulPieces(ws[1..]);
      WrittenThen(ws[0], AllPiecesFor(ws[1..]));
      FirstAndRest(ws, []);
      assert [] + Utf8All(Characters(ws)) == Utf8All(Characters(ws)) && [] + Utf8(Character(ws[0])) == Utf8(Character(ws[0]));
    }
  }

  lemma SpellsOnce(p: Piece, q: Piece)
    requires Proper(p) && Proper(q) && Spell(p) == Spell(q)
    ensures p == q
  {
    var s := Spell(p);
    if p.Unit? {
      assert s[2..] == p.digits;
      assert q.Unit? && Spell(q)[2..] == q.digits;
    } else if p.Pair? {
      assert s[2..6] == p.high && s[8..] == p.low;
      assert q.Pair? && Spell(q)[2..6] == q.high && Spell(q)[8..] == q.low;
    }
  }

  /** A string is made of its pieces in one way only. */
  lemma {:induction false} PiecesAreUnique(ps: seq<Piece>, qs: seq<Piece>)
    requires AllProper(ps) && AllProper(qs) && SpellAll(ps) == SpellAll(qs)
    ensures ps == qs
    decreases |ps|
  {
    if ps != [] && qs != [] {
      ReadsPiece(ps[0], SpellAll(ps[1..]));
      ReadsPiece(qs[0], SpellAll(qs[1..]));
      var s, n := SpellAll(ps), |Spell(ps[0])|;
      assert s[..n] == Spell(ps[0]) && s[..n] == Spell(qs[0]);
      SpellsOnce(ps[0], qs[0]);
      assert s[n..] == SpellAll(ps[1..]) && s[n..] == SpellAll(qs[1..]);
      PiecesAreUnique(ps[1..], qs[1..]);
    }
  }

  /** What is left once the first character, of n pieces, is taken off. */
  ghost predicate TakenOff(ps: seq<Piece>, w: Written, n: nat) {
    && AllProper(ps) && Lawful(w) && 0 < n <= |ps| && SpellAll(ps) == SpellAll(PiecesFor(w)) + SpellAll(ps[n..])
    && MeaningAll(ps) == Utf8(Character(w)) + MeaningAll(ps[n..]) && ValidUtf8(MeaningAll(ps[n..]))
  }

  lemma EscapeTakenOff(ps: seq<Piece>, w: Written)
    requires ps != [] && AllProper(ps) && ValidUtf8(MeaningAll(ps)) && Lawful(w) && PiecesFor(w) == [ps[0]]
    ensures TakenOff(ps, w, 1)
  {
    OnePiece(ps[0]);
    WrittenMeansItsCharacter(w);
    EncodedWidth(Character(w), MeaningAll(ps[1..]));
  }

  lemma RawTakenOff(ps: seq<Piece>) returns (w: Written, n: nat)
    requires ps != [] && AllProper(ps) && ps[0].Raw? && ps[0] != Raw(QUOTE) && ValidUtf8(MeaningAll(ps))
    ensures TakenOff(ps, w, n)
  {
    var b, all := ps[0].b, MeaningAll(ps);
    n := Width(all);
    var tails, more := all[1..n], all[n..];
    FirstIsWhole(all, b, MeaningAll(ps[1..]));
    TailsAreRaw(ps[1..], tails, more);
    assert ps[1..][|tails|..] == ps[n..];
    Grouped([b], tails, SpellAll(ps[n..]));
    w := Plain(ScalarOf(all));
    PlainSpells(w.c, [b] + tails);
  }

  lemma FirstIsWhole(all: Bytes, b: Byte, others: Bytes)
    requires all == [b] + others && ValidUtf8(all)
    ensures 0 < Width(all) && others == all[1..Width(all)] + all[Width(all)..] && ValidUtf8(all[Width(all)..])
    ensures IsScalar(ScalarOf(all)) && Utf8(ScalarOf(all)) == [b] + all[1..Width(all)]
    ensures all == Utf8(ScalarOf(all)) + all[Width(all)..]
    ensures forall k :: 0 <= k < Width(all) - 1 ==> Tail(all[1..Width(all)][k])
  {
    WidthIsOfAScalar(all);
    assert all[..Width(all)] == [b] + all[1..Width(all)];
  }

  lemma PlainSpells(c: int, s: Bytes)
    requires IsScalar(c) && s == Utf8(c) && s[0] >= 0x20 && s[0] != QUOTE && s[0] != BACKSLASH
    ensures Lawful(Plain(c)) && SpellAll(PiecesFor(Plain(c))) == s
  {
    RawsAreTheBytes(s);
  }

  /** One character of a lawful writing, off the front of the pieces. */
  lemma FirstWritten(ps: seq<Piece>) returns (w: Written, n: nat)
    requires ps != [] && AllProper(ps) && Raw(QUOTE) !in ps && ValidUtf8(MeaningAll(ps))
    ensures TakenOff(ps, w, n)
  {
    match ps[0]
    case Raw(b) => {
      w, n := RawTakenOff(ps);
    }
    case Short(letter) => {
      w, n := Escaped(letter), 1;
      EscapeTakenOff(ps, w);
    }
    case Unit(h) => {
      w, n := Coded(h), 1;
      EscapeTakenOff(ps, w);
    }
    case Pair(h, l) => {
      w, n := Paired(h, l), 1;
      EscapeTakenOff(ps, w);
    }
  }

  lemma {:induction false} WritingOf(ps: seq<Piece>) returns (ws: seq<Written>)
    requires AllProper(ps) && Raw(QUOTE) !in ps && ValidUtf8(MeaningAll(ps))
    ensures AllLawful(ws) && Text(ws) == SpellAll(ps) && Utf8All(Characters(ws)) == MeaningAll(ps)
    decreases |ps|
  {
    if ps == [] {
      ws := [];
    } else {
      var w, n := FirstWritten(ps);
      var rest := WritingOf(ps[n..]);
      ws := [w] + rest;
      assert ws[1..] == rest;
      FirstAndRest(ws, []);
      assert [] + Utf8All(Characters(ws)) == Utf8All(Characters(ws)) && [] + Utf8(Character(w)) == Utf8(Character(w));
    }
  }

  /** RFC 8259 forbids a bare quote inside a string; this decoder takes it, anywhere. */
  lemma BareQuotesAreTaken(before: seq<Piece>, after: seq<Piece>, limit: nat)
    requires AllProper(before) && AllProper(after) && ValidUtf8(MeaningAll(before + [Raw(QUOTE)] + after))
    requires |MeaningAll(before + [Raw(QUOTE)] + after)| <= limit
    ensures var ps := before + [Raw(QUOTE)] + after;
            Decode(Quoted(SpellAll(ps)), limit) == Ok(MeaningAll(ps)) && !exists ws :: Lawfully(ws, SpellAll(ps))
  {
    var ps := before + [Raw(QUOTE)] + after;
    assert [] + MeaningAll(ps) == MeaningAll(ps);
    assert Parses(ps, SpellAll(ps), [], limit, MeaningAll(ps));
    DecodesExactly(SpellAll(ps), limit, MeaningAll(ps));
    assert ps[|before|] == Raw(QUOTE);
    OnlyBareQuotesDepart(ps);
  }

  predicate Lawfully(ws: seq<Written>, text: Bytes) {
    AllLawful(ws) && Text(ws) == text
  }

  /** And that is the only departure: what is decoded is lawfully written if and only if it has no bare quote. */
  lemma OnlyBareQuotesDepart(ps: seq<Piece>)
    requires AllProper(ps) && ValidUtf8(MeaningAll(ps))
    ensures (exists ws :: Lawfully(ws, SpellAll(ps))) <==> Raw(QUOTE) !in ps
    ensures forall ws :: Lawfully(ws, SpellAll(ps)) ==> Utf8All(Characters(ws)) == MeaningAll(ps)
  {
    if Raw(QUOTE) !in ps {
      var ws := WritingOf(ps);
      assert Lawfully(ws, SpellAll(ps));
    }
    forall ws | Lawfully(ws, SpellAll(ps))
      ensures Raw(QUOTE) !in ps && Utf8All(Characters(ws)) == MeaningAll(ps)
    {
      LawfulPieces(ws);
      PiecesAreUnique(ps, AllPiecesFor(ws));
    }
  }
}
