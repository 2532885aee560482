/** The canonical JSON writer of crates/common/src/hash.rs, and the parser that undoes it. */
module CanonicalJson {
  import opened Wrappers
  import opened Bytes

  /** An object lists its entries as a `BTreeMap` iterates over them: keys ascending, no key twice. */
  datatype Json =
    | Null
    | Bool(b: bool)
    | Number(text: string)
    | Str(s: string)
    | Array(items: seq<Json>)
    | Object(entries: seq<Entry>)

  datatype Entry = Entry(key: string, value: Json)

  // ---- The writer ----

  const QUOTE: byte := 0x22
  const BACKSLASH: byte := 0x5C
  const COMMA: byte := 0x2C
  const COLON: byte := 0x3A
  const OPEN_BRACKET: byte := 0x5B
  const CLOSE_BRACKET: byte := 0x5D
  const OPEN_BRACE: byte := 0x7B
  const CLOSE_BRACE: byte := 0x7D

  const NULL: seq<byte> := [0x6E, 0x75, 0x6C, 0x6C]
  const TRUE: seq<byte> := [0x74, 0x72, 0x75, 0x65]
  const FALSE: seq<byte> := [0x66, 0x61, 0x6C, 0x73, 0x65]

  function HexDigitByte(n: nibble): byte {
    if n < 10 then 0x30 + n else 0x61 + (n - 10)
  }

  function EscapeChar(c: char): (r: seq<byte>) {
    if c == '"' then [BACKSLASH, QUOTE]
    else if c == '\\' then [BACKSLASH, BACKSLASH]
    else if c == '\n' then [BACKSLASH, 0x6E]
    else if c == '\r' then [BACKSLASH, 0x72]
    else if c == '\t' then [BACKSLASH, 0x74]
    else if c < ' ' then [BACKSLASH, 0x75, 0x30, 0x30, HexDigitByte(c as int / 16), HexDigitByte(c as int % 16)]
    else Utf8(c)
  }

  function Escape(s: string): (r: seq<byte>) {
    if s == "" then [] else EscapeChar(s[0]) + Escape(s[1..])
  }

  function WriteString(s: string): (r: seq<byte>) {
    [QUOTE] + Escape(s) + [QUOTE]
  }

  function Write(v: Json): (r: seq<byte>)
    decreases v, 1
  {
    match v
    case Null => NULL
    case Bool(b) => if b then TRUE else FALSE
    case Number(text) => Utf8All(text)
    case Str(s) => WriteString(s)
    case Array(items) => [OPEN_BRACKET] + WriteItems(items) + [CLOSE_BRACKET]
    case Object(entries) => [OPEN_BRACE] + WriteEntries(entries) + [CLOSE_BRACE]
  }

  function WriteItems(items: seq<Json>): (r: seq<byte>)
    decreases items, 0
  {
    if items == [] then []
    else if |items| == 1 then Write(items[0])
    else Write(items[0]) + [COMMA] + WriteItems(items[1..])
  }

  function WriteEntry(e: Entry): (r: seq<byte>)
    decreases e, 2
  {
    WriteString(e.key) + [COLON] + Write(e.value)
  }

  function WriteEntries(entries: seq<Entry>): (r: seq<byte>)
    decreases entries, 0
  {
    if entries == [] then []
    else if |entries| == 1 then WriteEntry(entries[0])
    else WriteEntry(entries[0]) + [COMMA] + WriteEntries(entries[1..])
  }

  // ---- The code of the writer: it pushes bytes into a buffer ----

  class ByteBuffer {
    var data: seq<byte>

    constructor ()
      ensures data == []
    {
      data := [];
    }

    method Push(b: byte)
      modifies this
      ensures data == old(data) + [b]
    {
      data := data + [b];
    }

    method Extend(bs: seq<byte>)
      modifies this
      ensures data == old(data) + bs
    {
      data := data + bs;
    }
  }

  lemma {:induction false} EscapeSnoc(s: string, c: char)
    ensures Escape(s + [c]) == Escape(s) + EscapeChar(c)
  {
    if s == "" {
      assert [c][1..] == "";
    } else {
      assert (s + [c])[1..] == s[1..] + [c];
      EscapeSnoc(s[1..], c);
    }
  }

  /** Escapes are written with the same lower-case digits as hashes. */
  lemma LowerCaseDigits(n: nibble)
    ensures HexDigitByte(n) as int == NibbleToHex(n) as int
  {
  }

  method WriteCharTo(ch: char, out: ByteBuffer)
    modifies out
    ensures out.data == old(out.data) + EscapeChar(ch)
  {
    if ch == '"' {
      out.Extend([BACKSLASH, QUOTE]);
    } else if ch == '\\' {
      out.Extend([BACKSLASH, BACKSLASH]);
    } else if ch == '\n' {
      out.Extend([BACKSLASH, 0x6E]);
    } else if ch == '\r' {
      out.Extend([BACKSLASH, 0x72]);
    } else if ch == '\t' {
      out.Extend([BACKSLASH, 0x74]);
    } else if ch < ' ' {
      var n := ch as int;
      out.Extend([BACKSLASH, 0x75, 0x30, 0x30, HexDigitByte(n / 16), HexDigitByte(n % 16)]);
    } else {
      out.Extend(Utf8(ch));
    }
  }

  method WriteStringTo(s: string, out: ByteBuffer)
    modifies out
    ensures out.data == old(out.data) + WriteString(s)
  {
    hide EscapeChar;
    out.Push(QUOTE);
    for i := 0 to |s|
      invariant out.data == old(out.data) + ([QUOTE] + Escape(s[..i]))
    {
      WriteCharTo(s[i], out);
      EscapeSnoc(s[..i], s[i]);
      assert s[..i + 1] == s[..i] + [s[i]];
    }
    assert s[..|s|] == s;
    out.Push(QUOTE);
  }

  /** What the loop over array items has written after `i` of them. */
  lemma {:induction false} ItemsSnoc(items: seq<Json>, v: Json)
    ensures WriteItems(items + [v]) == WriteItems(items) + (if items == [] then [] else [COMMA]) + Write(v)
  {
    if |items| > 0 {
      assert (items + [v])[1..] == items[1..] + [v];
      ItemsSnoc(items[1..], v);
    }
  }

  lemma {:induction false} EntriesSnoc(entries: seq<Entry>, e: Entry)
    ensures WriteEntries(entries + [e]) == WriteEntries(entries) + (if entries == [] then [] else [COMMA]) + WriteEntry(e)
  {
    if |entries| > 0 {
      assert (entries + [e])[1..] == entries[1..] + [e];
      EntriesSnoc(entries[1..], e);
    }
  }

  method WriteCanonicalJson(v: Json, out: ByteBuffer)
    modifies out
    ensures out.data == old(out.data) + Write(v)
    decreases v, 1
  {
    hide WriteItems, WriteEntries, WriteString, Utf8All;
    match v
    case Null => out.Extend(NULL);
    case Bool(b) => out.Extend(if b then TRUE else FALSE);
    case Number(text) => out.Extend(Utf8All(text));
    case Str(s) => WriteStringTo(s, out);
    case Array(items) =>
      out.Push(OPEN_BRACKET);
      WriteItemsTo(items, out);
      out.Push(CLOSE_BRACKET);
    case Object(entries) =>
      out.Push(OPEN_BRACE);
      WriteEntriesTo(entries, out);
      out.Push(CLOSE_BRACE);
  }

  method WriteItemsTo(items: seq<Json>, out: ByteBuffer)
    modifies out
    ensures out.data == old(out.data) + WriteItems(items)
    decreases items, 0
  {
    hide Write;
    for i := 0 to |items|
      invariant out.data == old(out.data) + WriteItems(items[..i])
    {
      if i > 0 {
        out.Push(COMMA);
      }
      WriteCanonicalJson(items[i], out);
      ItemsSnoc(items[..i], items[i]);
      assert items[..i + 1] == items[..i] + [items[i]];
    }
    assert items[..|items|] == items;
  }

  method WriteEntryTo(e: Entry, out: ByteBuffer)
    modifies out
    ensures out.data == old(out.data) + WriteEntry(e)
    decreases e, 2
  {
    hide WriteString, Write;
    WriteStringTo(e.key, out);
    out.Push(COLON);
    WriteCanonicalJson(e.value, out);
  }

  method WriteEntriesTo(entries: seq<Entry>, out: ByteBuffer)
    modifies out
    ensures out.data == old(out.data) + WriteEntries(entries)
    decreases entries, 0
  {
    hide WriteEntry;
    for i := 0 to |entries|
      invariant out.data == old(out.data) + WriteEntries(entries[..i])
    {
      if i > 0 {
        out.Push(COMMA);
      }
      WriteEntryTo(entries[i], out);
      EntriesSnoc(entries[..i], entries[i]);
      assert entries[..i + 1] == entries[..i] + [entries[i]];
    }
    assert entries[..|entries|] == entries;
  }

  method CanonicalJsonBytes(v: Json) returns (bytes: seq<byte>)
    ensures bytes == Write(v)
  {
    var out := new ByteBuffer();
    WriteCanonicalJson(v, out);
    bytes := out.data;
  }

  // ---- The parser: RFC 8259 without insignificant whitespace ----

  predicate NumberByte(b: byte) {
    0x30 <= b <= 0x39 || b == 0x2B || b == 0x2D || b == 0x2E || b == 0x45 || b == 0x65
  }

  function NumberRun(bs: seq<byte>): (n: nat)
    ensures n <= |bs|
  {
    if bs == [] || !NumberByte(bs[0]) then 0 else 1 + NumberRun(bs[1..])
  }

  function Ascii(bs: seq<byte>): (r: string)
    ensures |r| == |bs|
  {
    if bs == [] then "" else [if bs[0] < 128 then bs[0] as char else '?'] + Ascii(bs[1..])
  }

  function DigitRun(s: string): (n: nat)
    ensures n <= |s|
  {
    if s == "" || !IsDigit(s[0]) then 0 else 1 + DigitRun(s[1..])
  }

  /** `e` or `E`, an optional sign, digits (section 6 of RFC 8259). */
  predicate IsExponent(s: string) {
    && |s| >= 2 && (s[0] == 'e' || s[0] == 'E')
    && var t := if s[1] == '+' || s[1] == '-' then s[2..] else s[1..];
       t != "" && DigitRun(t) == |t|
  }

  /** A decimal point and digits, or nothing; then an exponent, or nothing. */
  predicate IsFraction(s: string) {
    if s != "" && s[0] == '.' then
      var n := DigitRun(s[1..]);
      n >= 1 && (s[1 + n..] == "" || IsExponent(s[1 + n..]))
    else s == "" || IsExponent(s)
  }

  /** A number token of section 6 of RFC 8259: no leading zeros, no bare point, no empty exponent. */
  predicate IsNumber(s: string) {
    var t := if s != "" && s[0] == '-' then s[1..] else s;
    var n := DigitRun(t);
    n >= 1 && (n == 1 || t[0] != '0') && IsFraction(t[n..])
  }

  function HexValue(b: byte): (r: Option<nibble>) {
    if 0x30 <= b <= 0x39 then Some(b - 0x30)
    else if 0x61 <= b <= 0x66 then Some(b - 0x61 + 10)
    else if 0x41 <= b <= 0x46 then Some(b - 0x41 + 10)
    else None
  }

  /** Four hexadecimal digits naming a scalar value; surrogates are refused. */
  function ParseUnicode(bs: seq<byte>): (r: Option<char>) {
    if |bs| < 4 then None else
    match (HexValue(bs[0]), HexValue(bs[1]), HexValue(bs[2]), HexValue(bs[3]))
    case (Some(a), Some(b), Some(c), Some(d)) =>
      var n: int := CodeUnit(a, b, c, d);
      if Scalar(n) then Some(n as char) else None
    case _ => None
  }

  function CodeUnit(a: int, b: int, c: int, d: int): int {
    a * 4096 + b * 256 + c * 16 + d
  }

  /** One escape of section 7 of RFC 8259, after its backslash. */
  function ParseEscape(bs: seq<byte>): (r: Option<(char, seq<byte>)>)
    ensures r.Some? ==> |r.value.1| < |bs|
  {
    if bs == [] then None
    else if bs[0] == QUOTE then Some(('"', bs[1..]))
    else if bs[0] == BACKSLASH then Some(('\\', bs[1..]))
    else if bs[0] == 0x2F then Some(('/', bs[1..]))
    else if bs[0] == 0x62 then Some((8 as char, bs[1..]))
    else if bs[0] == 0x66 then Some((12 as char, bs[1..]))
    else if bs[0] == 0x6E then Some(('\n', bs[1..]))
    else if bs[0] == 0x72 then Some(('\r', bs[1..]))
    else if bs[0] == 0x74 then Some(('\t', bs[1..]))
    else if bs[0] == 0x75 then
      match ParseUnicode(bs[1..])
      case None => None
      case Some(c) => Some((c, bs[5..]))
    else None
  }

  /** The characters of a string, up to and including the closing quotation mark. */
  function ParseChars(bs: seq<byte>): (r: Option<(string, seq<byte>)>)
    ensures r.Some? ==> |r.value.1| < |bs|
    decreases |bs|
  {
    if bs == [] || bs[0] < 0x20 then None
    else if bs[0] == QUOTE then Some(("", bs[1..]))
    else
      match if bs[0] == BACKSLASH then ParseEscape(bs[1..]) else DecodeUtf8(bs)
      case None => None
      case Some((c, rest)) =>
        match ParseChars(rest)
        case None => None
        case Some((s, end)) => Some(([c] + s, end))
  }

  function ParseString(bs: seq<byte>): (r: Option<(string, seq<byte>)>)
    ensures r.Some? ==> |r.value.1| < |bs|
  {
    if bs == [] || bs[0] != QUOTE then None else ParseChars(bs[1..])
  }

  function ParseNumber(bs: seq<byte>): (r: Option<(Json, seq<byte>)>)
    ensures r.Some? ==> |r.value.1| < |bs|
  {
    var n := NumberRun(bs);
    var text := Ascii(bs[..n]);
    if n > 0 && IsNumber(text) then Some((Number(text), bs[n..])) else None
  }

  /** One JSON value off the front of the input, and what follows it. */
  function Parse(bs: seq<byte>): (r: Option<(Json, seq<byte>)>)
    ensures r.Some? ==> |r.value.1| < |bs|
    decreases |bs|, 0
  {
    if bs == [] then None
    else if NULL <= bs then Some((Null, bs[4..]))
    else if TRUE <= bs then Some((Bool(true), bs[4..]))
    else if FALSE <= bs then Some((Bool(false), bs[5..]))
    else if bs[0] == QUOTE then
      match ParseChars(bs[1..])
      case None => None
      case Some((s, rest)) => Some((Str(s), rest))
    else if bs[0] == OPEN_BRACKET then
      if |bs| > 1 && bs[1] == CLOSE_BRACKET then Some((Array([]), bs[2..]))
      else
        match ParseItems(bs[1..])
        case None => None
        case Some((items, rest)) => Some((Array(items), rest))
    else if bs[0] == OPEN_BRACE then
      if |bs| > 1 && bs[1] == CLOSE_BRACE then Some((Object([]), bs[2..]))
      else
        match ParseEntries(bs[1..])
        case None => None
        case Some((entries, rest)) => Some((Object(entries), rest))
    else ParseNumber(bs)
  }

  /** One or more comma-separated values and the closing bracket. */
  function ParseItems(bs: seq<byte>): (r: Option<(seq<Json>, seq<byte>)>)
    ensures r.Some? ==> |r.value.1| < |bs|
    decreases |bs|, 1
  {
    match Parse(bs)
    case None => None
    case Some((v, rest)) =>
      if rest == [] then None
      else if rest[0] == CLOSE_BRACKET then Some(([v], rest[1..]))
      else if rest[0] == COMMA then
        match ParseItems(rest[1..])
        case None => None
        case Some((items, end)) => Some(([v] + items, end))
      else None
  }

  function ParseEntries(bs: seq<byte>): (r: Option<(seq<Entry>, seq<byte>)>)
    ensures r.Some? ==> |r.value.1| < |bs|
    decreases |bs|, 1
  {
    match ParseString(bs)
    case None => None
    case Some((key, afterKey)) =>
      if afterKey == [] || afterKey[0] != COLON then None
      else
        match Parse(afterKey[1..])
        case None => None
        case Some((v, rest)) =>
          if rest == [] then None
          else if rest[0] == CLOSE_BRACE then Some(([Entry(key, v)], rest[1..]))
          else if rest[0] == COMMA then
            match ParseEntries(rest[1..])
            case None => None
            case Some((entries, end)) => Some(([Entry(key, v)] + entries, end))
          else None
  }

  // ---- The parser undoes the writer ----

  /** Every number inside is a token of section 6 of RFC 8259. */
  predicate Tokens(v: Json)
    decreases v
  {
    match v
    case Number(text) => IsNumber(text)
    case Array(items) => forall i :: 0 <= i < |items| ==> Tokens(items[i])
    case Object(entries) => forall i :: 0 <= i < |entries| ==> Tokens(entries[i].value)
    case _ => true
  }

  /** The input ends, or goes on with a byte that cannot continue a number. */
  predicate Delimited(rest: seq<byte>) {
    rest == [] || !NumberByte(rest[0])
  }

  lemma EscapeCharRoundTrip(c: char, rest: seq<byte>)
    ensures var bs := EscapeChar(c) + rest;
            && bs != [] && bs[0] >= 0x20 && bs[0] != QUOTE
            && Some((c, rest)) == if bs[0] == BACKSLASH then ParseEscape(bs[1..]) else DecodeUtf8(bs)
  {
    var bs := EscapeChar(c) + rest;
    if c == '"' || c == '\\' || c == '\n' || c == '\r' || c == '\t' {
      assert bs[1..][1..] == rest;
    } else if c < ' ' {
      var n := c as int;
      assert bs[1..][1..] == [0x30, 0x30, HexDigitByte(n / 16), HexDigitByte(n % 16)] + rest;
      assert bs[1..][5..] == rest;
      assert HexValue(HexDigitByte(n / 16)) == Some(n / 16) && HexValue(HexDigitByte(n % 16)) == Some(n % 16);
    } else {
      Utf8RoundTrip(c, rest);
      assert bs[0] == Utf8(c)[0];
    }
  }

  lemma {:induction false} CharsRoundTrip(s: string, rest: seq<byte>)
    ensures ParseChars(Escape(s) + [QUOTE] + rest) == Some((s, rest))
  {
    var bs := Escape(s) + [QUOTE] + rest;
    if s == "" {
      assert bs[1..] == rest;
    } else {
      var tail := Escape(s[1..]) + [QUOTE] + rest;
      assert bs == EscapeChar(s[0]) + tail;
      EscapeCharRoundTrip(s[0], tail);
      CharsRoundTrip(s[1..], rest);
      assert [s[0]] + s[1..] == s;
    }
  }

  lemma StringRoundTrip(s: string, rest: seq<byte>)
    ensures ParseString(WriteString(s) + rest) == Some((s, rest))
  {
    assert (WriteString(s) + rest)[1..] == Escape(s) + [QUOTE] + rest;
    CharsRoundTrip(s, rest);
  }

  predicate NumberChar(c: char) {
    IsDigit(c) || c == '+' || c == '-' || c == '.' || c == 'e' || c == 'E'
  }

  predicate NumberText(s: string) {
    forall i :: 0 <= i < |s| ==> NumberChar(s[i])
  }

  lemma NumberCharBytes(c: char)
    requires NumberChar(c)
    ensures Utf8(c) == [c as int] && c as int < 128 && NumberByte(c as int)
  {
  }

  lemma {:induction false} DigitsAreNumberText(s: string)
    ensures NumberText(s[..DigitRun(s)])
  {
    if s != "" && IsDigit(s[0]) {
      DigitsAreNumberText(s[1..]);
      assert s[..DigitRun(s)] == [s[0]] + s[1..][..DigitRun(s[1..])];
    }
  }

  lemma ExponentText(s: string)
    requires IsExponent(s)
    ensures NumberText(s)
  {
    var t := if s[1] == '+' || s[1] == '-' then s[2..] else s[1..];
    DigitsAreNumberText(t);
    assert t[..DigitRun(t)] == t;
    assert s == (if s[1] == '+' || s[1] == '-' then s[..2] else s[..1]) + t;
  }

  lemma FractionText(s: string)
    requires IsFraction(s)
    ensures NumberText(s)
  {
    if s != "" && s[0] == '.' {
      var n := DigitRun(s[1..]);
      DigitsAreNumberText(s[1..]);
      if s[1 + n..] != "" {
        ExponentText(s[1 + n..]);
      }
      assert s == [s[0]] + s[1..][..n] + s[1 + n..];
    } else if s != "" {
      ExponentText(s);
    }
  }

  lemma NumberIsText(s: string)
    requires IsNumber(s)
    ensures NumberText(s) && s != "" && (s[0] == '-' || IsDigit(s[0]))
  {
    var t := if s[0] == '-' then s[1..] else s;
    var n := DigitRun(t);
    DigitsAreNumberText(t);
    FractionText(t[n..]);
    assert t == t[..n] + t[n..];
    assert s[0] == '-' ==> s == [s[0]] + t;
  }

  lemma {:induction false} NumberTextBytes(s: string)
    requires NumberText(s)
    ensures |Utf8All(s)| == |s| && Ascii(Utf8All(s)) == s
    ensures forall i :: 0 <= i < |s| ==> Utf8All(s)[i] == s[i] as int && NumberByte(Utf8All(s)[i])
  {
    hide Utf8, NumberByte, NumberChar;
    if s != "" {
      NumberCharBytes(s[0]);
      NumberTextBytes(s[1..]);
      assert Utf8All(s) == [s[0] as int] + Utf8All(s[1..]);
      assert Utf8All(s)[1..] == Utf8All(s[1..]);
      assert [s[0]] + s[1..] == s;
    }
  }

  lemma {:induction false} NumberRunStops(bs: seq<byte>, rest: seq<byte>)
    requires Delimited(rest) && forall i :: 0 <= i < |bs| ==> NumberByte(bs[i])
    ensures NumberRun(bs + rest) == |bs|
  {
    if bs == [] {
      assert bs + rest == rest;
    } else {
      NumberRunStops(bs[1..], rest);
      assert (bs + rest)[1..] == bs[1..] + rest;
    }
  }

  lemma NumberRoundTrip(s: string, rest: seq<byte>)
    requires IsNumber(s) && Delimited(rest)
    ensures Parse(Write(Number(s)) + rest) == Some((Number(s), rest))
  {
    hide ParseChars, ParseItems, ParseEntries, NumberByte, NumberRun, IsNumber, Utf8All;
    var bs := Utf8All(s) + rest;
    NumberIsText(s);
    NumberTextBytes(s);
    NumberRunStops(Utf8All(s), rest);
    assert bs[0] == 0x2D || 0x30 <= bs[0] <= 0x39;
    NoLiteral(bs);
    assert bs[..|s|] == Utf8All(s) && bs[|s|..] == rest;
  }

  /** No value's text starts with a closing bracket or brace. */
  lemma FirstByte(v: Json)
    requires Tokens(v)
    ensures Write(v) != [] && Write(v)[0] != CLOSE_BRACKET && Write(v)[0] != CLOSE_BRACE
  {
    if v.Number? {
      NumberIsText(v.text);
      NumberTextBytes(v.text);
    }
  }

  lemma LiteralRoundTrip(v: Json, rest: seq<byte>)
    requires v.Null? || v.Bool?
    ensures Parse(Write(v) + rest) == Some((v, rest))
  {
    var bs := Write(v) + rest;
    assert bs[0] == Write(v)[0];
    assert bs[|Write(v)|..] == rest && bs[..|Write(v)|] == Write(v);
    assert NULL <= bs ==> bs[0] == NULL[0];
    assert TRUE <= bs ==> bs[0] == TRUE[0];
    assert FALSE <= bs ==> bs[0] == FALSE[0];
  }

  lemma NoLiteral(bs: seq<byte>)
    requires bs != [] && bs[0] != NULL[0] && bs[0] != TRUE[0] && bs[0] != FALSE[0]
    ensures !(NULL <= bs) && !(TRUE <= bs) && !(FALSE <= bs)
  {
  }

  lemma TextRoundTrip(s: string, rest: seq<byte>)
    ensures Parse(Write(Str(s)) + rest) == Some((Str(s), rest))
  {
    hide ParseChars, ParseItems, ParseEntries, ParseNumber, Escape;
    var bs := WriteString(s) + rest;
    CharsRoundTrip(s, rest);
    NoLiteral(bs);
    assert bs[1..] == Escape(s) + [QUOTE] + rest;
  }

  /** Decoding what was written gives back the value and leaves the rest of the input. */
  lemma {:induction false} RoundTrip(v: Json, rest: seq<byte>)
    requires Tokens(v) && Delimited(rest)
    ensures Parse(Write(v) + rest) == Some((v, rest))
    decreases v, 1
  {
    hide Parse, Write;
    match v
    case Null => LiteralRoundTrip(v, rest);
    case Bool(b) => LiteralRoundTrip(v, rest);
    case Number(text) => NumberRoundTrip(text, rest);
    case Str(s) => TextRoundTrip(s, rest);
    case Array(items) =>
      if items == [] {
        EmptyRoundTrip(v, rest);
      } else {
        ItemsRoundTrip(items, rest);
        ArrayRoundTrip(items, rest);
      }
    case Object(entries) =>
      if entries == [] {
        EmptyRoundTrip(v, rest);
      } else {
        EntriesRoundTrip(entries, rest);
        ObjectRoundTrip(entries, rest);
      }
  }

  lemma FirstItemByte(items: seq<Json>)
    requires items != [] && Tokens(items[0])
    ensures WriteItems(items) != [] && WriteItems(items)[0] != CLOSE_BRACKET
  {
    hide Write;
    FirstByte(items[0]);
  }

  lemma FirstEntryByte(entries: seq<Entry>)
    requires entries != []
    ensures WriteEntries(entries) != [] && WriteEntries(entries)[0] == QUOTE
  {
    hide Write;
    assert WriteEntry(entries[0])[0] == QUOTE;
  }

  lemma EmptyRoundTrip(v: Json, rest: seq<byte>)
    requires v == Array([]) || v == Object([])
    ensures Parse(Write(v) + rest) == Some((v, rest))
  {
    hide ParseItems, ParseEntries, ParseChars, ParseNumber;
    var bs := Write(v) + rest;
    assert Write(v) == if v.Array? then [OPEN_BRACKET, CLOSE_BRACKET] else [OPEN_BRACE, CLOSE_BRACE];
    assert bs[0] == Write(v)[0] && bs[1] == Write(v)[1];
    NoLiteral(bs);
    assert bs[2..] == rest;
  }

  lemma ArrayRoundTrip(items: seq<Json>, rest: seq<byte>)
    requires items != [] && Tokens(items[0])
    requires ParseItems(WriteItems(items) + [CLOSE_BRACKET] + rest) == Some((items, rest))
    ensures Parse(Write(Array(items)) + rest) == Some((Array(items), rest))
  {
    hide ParseItems, ParseEntries, ParseChars, ParseNumber, WriteItems;
    var bs := Write(Array(items)) + rest;
    FirstItemByte(items);
    assert bs == [OPEN_BRACKET] + (WriteItems(items) + [CLOSE_BRACKET] + rest);
    assert bs[1..] == WriteItems(items) + [CLOSE_BRACKET] + rest;
    assert bs[1] == WriteItems(items)[0];
    NoLiteral(bs);
  }

  lemma ObjectRoundTrip(entries: seq<Entry>, rest: seq<byte>)
    requires entries != []
    requires ParseEntries(WriteEntries(entries) + [CLOSE_BRACE] + rest) == Some((entries, rest))
    ensures Parse(Write(Object(entries)) + rest) == Some((Object(entries), rest))
  {
    hide ParseItems, ParseEntries, ParseChars, ParseNumber, WriteEntries;
    var bs := Write(Object(entries)) + rest;
    FirstEntryByte(entries);
    assert bs == [OPEN_BRACE] + (WriteEntries(entries) + [CLOSE_BRACE] + rest);
    assert bs[1..] == WriteEntries(entries) + [CLOSE_BRACE] + rest;
    assert bs[1] == WriteEntries(entries)[0];
    NoLiteral(bs);
  }

  lemma {:induction false} ItemsRoundTrip(items: seq<Json>, rest: seq<byte>)
    requires items != [] && forall i :: 0 <= i < |items| ==> Tokens(items[i])
    ensures ParseItems(WriteItems(items) + [CLOSE_BRACKET] + rest) == Some((items, rest))
    decreases items, 0
  {
    hide Parse, Write;
    var v := items[0];
    var bs := WriteItems(items) + [CLOSE_BRACKET] + rest;
    if |items| == 1 {
      var after := [CLOSE_BRACKET] + rest;
      RoundTrip(v, after);
      assert bs == Write(v) + after;
      assert after[1..] == rest && items == [v];
    } else {
      var tail := WriteItems(items[1..]) + [CLOSE_BRACKET] + rest;
      var after := [COMMA] + tail;
      RoundTrip(v, after);
      ItemsRoundTrip(items[1..], rest);
      assert bs == Write(v) + after;
      assert after[1..] == tail && items == [v] + items[1..];
    }
  }

  lemma EntriesStart(entries: seq<Entry>, rest: seq<byte>)
    requires entries != []
    ensures var e := entries[0];
            var tail := if |entries| == 1 then rest else WriteEntries(entries[1..]) + [CLOSE_BRACE] + rest;
            WriteEntries(entries) + [CLOSE_BRACE] + rest ==
              WriteString(e.key) + ([COLON] + (Write(e.value) + ([if |entries| == 1 then CLOSE_BRACE else COMMA] + tail)))
  {
    hide Write, WriteString;
    var e := entries[0];
    if |entries| == 1 {
      Regroup(WriteString(e.key), [COLON], Write(e.value), [CLOSE_BRACE], rest);
    } else {
      var others := WriteEntries(entries[1..]);
      assert WriteEntries(entries) == WriteString(e.key) + [COLON] + Write(e.value) + [COMMA] + others;
      hide WriteEntries;
      Regroup(WriteString(e.key), [COLON], Write(e.value), [COMMA], others + [CLOSE_BRACE] + rest);
      var start := WriteString(e.key) + [COLON] + Write(e.value) + [COMMA];
      Associative(start, others, [CLOSE_BRACE]);
      Associative(start, others + [CLOSE_BRACE], rest);
    }
  }

  lemma Regroup(a: seq<byte>, b: seq<byte>, c: seq<byte>, d: seq<byte>, e: seq<byte>)
    ensures a + b + c + d + e == a + (b + (c + (d + e)))
  {
    Associative(a + b + c, d, e);
    Associative(a + b, c, d + e);
    Associative(a, b, c + (d + e));
  }

  lemma Associative(a: seq<byte>, b: seq<byte>, c: seq<byte>)
    ensures a + b + c == a + (b + c)
  {
  }

  lemma {:induction false} EntriesRoundTrip(entries: seq<Entry>, rest: seq<byte>)
    requires entries != [] && forall i :: 0 <= i < |entries| ==> Tokens(entries[i].value)
    ensures ParseEntries(WriteEntries(entries) + [CLOSE_BRACE] + rest) == Some((entries, rest))
    decreases entries, 0
  {
    hide Parse, ParseString, Write, WriteString;
    var e := entries[0];
    var bs := WriteEntries(entries) + [CLOSE_BRACE] + rest;
    var tail := if |entries| == 1 then rest else WriteEntries(entries[1..]) + [CLOSE_BRACE] + rest;
    var after := [if |entries| == 1 then CLOSE_BRACE else COMMA] + tail;
    var value := Write(e.value) + after;
    EntriesStart(entries, rest);
    hide WriteEntries, WriteEntry;
    StringRoundTrip(e.key, [COLON] + value);
    assert ([COLON] + value)[1..] == value;
    RoundTrip(e.value, after);
    assert after[1..] == tail;
    if |entries| == 1 {
      assert entries == [e];
    } else {
      EntriesRoundTrip(entries[1..], rest);
      assert entries == [e] + entries[1..];
    }
  }

  /** The parser makes no number but a token. */
  lemma {:induction false} ParsedTokens(bs: seq<byte>)
    ensures Parse(bs).Some? ==> Tokens(Parse(bs).value.0)
    decreases |bs|, 0
  {
    if bs != [] && bs[0] == OPEN_BRACKET {
      ParsedItemsTokens(bs[1..]);
    } else if bs != [] && bs[0] == OPEN_BRACE {
      ParsedEntriesTokens(bs[1..]);
    }
  }

  lemma {:induction false} ParsedItemsTokens(bs: seq<byte>)
    ensures ParseItems(bs).Some? ==> forall v <- ParseItems(bs).value.0 :: Tokens(v)
    decreases |bs|, 1
  {
    ParsedTokens(bs);
    match Parse(bs)
    case None =>
    case Some((v, rest)) =>
      if rest != [] && rest[0] == COMMA {
        ParsedItemsTokens(rest[1..]);
      }
  }

  lemma {:induction false} ParsedEntriesTokens(bs: seq<byte>)
    ensures ParseEntries(bs).Some? ==> forall e <- ParseEntries(bs).value.0 :: Tokens(e.value)
    decreases |bs|, 1
  {
    match ParseString(bs)
    case None =>
    case Some((key, afterKey)) =>
      if afterKey != [] && afterKey[0] == COLON {
        ParsedTokens(afterKey[1..]);
        match Parse(afterKey[1..])
        case None =>
        case Some((v, rest)) =>
          if rest != [] && rest[0] == COMMA {
            ParsedEntriesTokens(rest[1..]);
          }
      }
  }

  /** A value survives writing and parsing exactly when its numbers are tokens, whatever delimited input follows. */
  lemma RoundTripExactly(v: Json, rest: seq<byte>)
    requires Delimited(rest)
    ensures Parse(Write(v) + rest) == Some((v, rest)) <==> Tokens(v)
  {
    hide Parse, Write, Tokens, Delimited;
    ParsedTokens(Write(v) + rest);
    if Tokens(v) {
      RoundTrip(v, rest);
    }
  }

  /** Two values with the same canonical bytes are the same value. */
  lemma WriteInjective(v: Json, w: Json)
    requires Tokens(v) && Tokens(w) && Write(v) == Write(w)
    ensures v == w
  {
    RoundTrip(v, []);
    RoundTrip(w, []);
    assert Write(v) + [] == Write(w) + [];
  }

  /** The type of numbers admits any text; outside the grammar two values can share their bytes. */
  lemma NumbersMustBeTokens()
    ensures Write(Number("null")) == Write(Null)
    ensures Write(Array([Number("1,2")])) == Write(Array([Number("1"), Number("2")]))
  {
    assert Utf8All("null") == NULL by {
      assert "null"[1..] == "ull" && "ull"[1..] == "ll" && "ll"[1..] == "l" && "l"[1..] == "";
    }
    assert Utf8All("1") == [0x31] && Utf8All("2") == [0x32] by {
      assert "1"[1..] == "" && "2"[1..] == "";
    }
    assert Utf8All("1,2") == [0x31, 0x2C, 0x32] by {
      assert "1,2"[1..] == ",2" && ",2"[1..] == "2";
    }
  }

  // ---- The ordered map behind objects ----

  predicate Sorted(m: seq<Entry>) {
    forall i, j :: 0 <= i < j < |m| ==> KeyLess(m[i].key, m[j].key)
  }

  function Lookup(m: seq<Entry>, k: string): (r: Option<Json>) {
    if m == [] then None else if m[0].key == k then Some(m[0].value) else Lookup(m[1..], k)
  }

  /** `BTreeMap::insert`. */
  function Insert(m: seq<Entry>, k: string, v: Json): (r: seq<Entry>) {
    if m == [] then [Entry(k, v)]
    else if m[0].key == k then [Entry(k, v)] + m[1..]
    else if KeyLess(k, m[0].key) then [Entry(k, v)] + m
    else [m[0]] + Insert(m[1..], k, v)
  }

  lemma {:induction false} InsertLookup(m: seq<Entry>, k: string, v: Json, q: string)
    ensures Lookup(Insert(m, k, v), q) == if q == k then Some(v) else Lookup(m, q)
  {
    if m != [] {
      InsertLookup(m[1..], k, v, q);
      var r := Insert(m, k, v);
      if m[0].key == k {
        assert r[1..] == m[1..];
      } else if KeyLess(k, m[0].key) {
        assert r[1..] == m;
      } else {
        assert r[1..] == Insert(m[1..], k, v);
      }
    }
  }

  /** Prepending a key below all others keeps the keys ascending. */
  lemma SortedCons(e: Entry, m: seq<Entry>)
    requires Sorted(m) && forall x <- m :: KeyLess(e.key, x.key)
    ensures Sorted([e] + m)
  {
    var r := [e] + m;
    forall i, j | 0 <= i < j < |r|
      ensures KeyLess(r[i].key, r[j].key)
    {
      assert r[j] == m[j - 1];
      if i > 0 {
        assert r[i] == m[i - 1];
      }
    }
  }

  /** Insertion keeps the keys ascending, and adds no key but the one inserted. */
  lemma {:induction false} InsertSorted(m: seq<Entry>, k: string, v: Json)
    requires Sorted(m)
    ensures Sorted(Insert(m, k, v))
    ensures forall e <- Insert(m, k, v) :: e.key == k || e in m
  {
    hide KeyLess;
    if m == [] {
    } else if m[0].key == k {
      SortedCons(Entry(k, v), m[1..]);
    } else if KeyLess(k, m[0].key) {
      FirstKeyLeast(m, k);
      SortedCons(Entry(k, v), m);
    } else {
      KeyOrder(k, m[0].key);
      InsertSorted(m[1..], k, v);
      SortedCons(m[0], Insert(m[1..], k, v));
    }
  }

  /** Sorted maps that answer every lookup alike are the same map. */
  lemma {:induction false} SortedUnique(m: seq<Entry>, n: seq<Entry>)
    requires Sorted(m) && Sorted(n) && forall k :: Lookup(m, k) == Lookup(n, k)
    ensures m == n
  {
    if m == [] || n == [] {
      assert m != [] ==> Lookup(m, m[0].key) != Lookup(n, m[0].key);
      assert n != [] ==> Lookup(m, n[0].key) != Lookup(n, n[0].key);
    } else {
      var a, b := m[0].key, n[0].key;
      assert Lookup(n, a) == Lookup(m, a) && Lookup(m, b) == Lookup(n, b);
      KeyOrder(a, b);
      if KeyLess(a, b) {
        FirstKeyLeast(n, a);
        LookupBelow(n, a);
      } else if KeyLess(b, a) {
        FirstKeyLeast(m, b);
        LookupBelow(m, b);
      }
      assert a == b;
      forall k
        ensures Lookup(m[1..], k) == Lookup(n[1..], k)
      {
        if k == a {
          LookupBelow(m[1..], a);
          LookupBelow(n[1..], a);
        } else {
          assert Lookup(m, k) == Lookup(n, k);
        }
      }
      SortedUnique(m[1..], n[1..]);
      assert m == [m[0]] + m[1..] && n == [n[0]] + n[1..];
    }
  }

  lemma FirstKeyLeast(m: seq<Entry>, k: string)
    requires Sorted(m) && m != [] && KeyLess(k, m[0].key)
    ensures forall e <- m :: KeyLess(k, e.key)
  {
    forall i | 0 <= i < |m|
      ensures KeyLess(k, m[i].key)
    {
      if i > 0 {
        KeyLessTransitive(k, m[0].key, m[i].key);
      }
    }
  }

  /** A key below every other is absent. */
  lemma {:induction false} LookupBelow(m: seq<Entry>, k: string)
    requires Sorted(m) && forall e <- m :: KeyLess(k, e.key)
    ensures Lookup(m, k) == None
  {
    if m != [] {
      KeyOrder(k, m[0].key);
      LookupBelow(m[1..], k);
    }
  }

  /** The order in which keys are inserted does not show in the canonical bytes. */
  lemma InsertionOrderInvisible(m: seq<Entry>, k: string, v: Json, q: string, w: Json)
    requires Sorted(m) && k != q
    ensures Write(Object(Insert(Insert(m, k, v), q, w))) == Write(Object(Insert(Insert(m, q, w), k, v)))
  {
    var a, b := Insert(Insert(m, k, v), q, w), Insert(Insert(m, q, w), k, v);
    InsertSorted(m, k, v);
    InsertSorted(m, q, w);
    InsertSorted(Insert(m, k, v), q, w);
    InsertSorted(Insert(m, q, w), k, v);
    forall x
      ensures Lookup(a, x) == Lookup(b, x)
    {
      InsertLookup(Insert(m, k, v), q, w, x);
      InsertLookup(m, k, v, x);
      InsertLookup(Insert(m, q, w), k, v, x);
      InsertLookup(m, q, w, x);
    }
    SortedUnique(a, b);
  }
}
