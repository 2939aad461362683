/** Breadcrumbs of an inspection.

    An address is the list of keys taken from the root schema down to a node.
    It is rendered the way `Inspector.address` does it: the first part with
    Python's `str`, every later part as `[repr(part)]`.  This module also
    gives the inverse of the `[repr(part)]` tail, which shows that the tail
    of a breadcrumb determines the keys it was built from. */
module Address {

  import opened Wrappers

  /** An access key: an attribute or mapping key, or a sequence index. */
  datatype Key = Str(s: string) | Int(i: int)

  function Digit(d: nat): char
    requires d < 10
  {
    "0123456789"[d]
  }

  /** Python's `repr` writes hexadecimal escapes with lower-case digits. */
  function HexDigit(d: nat): char
    requires d < 16
  {
    "0123456789abcdef"[d]
  }

  /** Decimal digits of a natural number, most significant first. */
  function NatToString(n: nat): (r: string)
    ensures |r| > 0
    ensures forall k :: 0 <= k < |r| ==> IsDigit(r[k])
  {
    if n < 10 then [Digit(n)] else NatToString(n / 10) + [Digit(n % 10)]
  }

  /** `str(i)`, which for an int is also `repr(i)`.  Every int is rendered;
      Python refuses ints of more than 4300 digits (see the README). */
  function IntToString(i: int): string
  {
    if i < 0 then "-" + NatToString(-i) else NatToString(i)
  }

  /** The quote `repr` picks for a string: a double quote when the text holds
      a single quote and no double quote, a single quote otherwise. */
  function QuoteFor(s: string): char
  {
    if '\'' in s && '"' !in s then '"' else '\''
  }

  predicate IsQuote(q: char)
  {
    q == '\'' || q == '"'
  }

  /** How `repr` writes one character of a string quoted with `q`.
      Non-ASCII characters are copied unchanged (see the README). */
  function EscapeChar(c: char, q: char): string
  {
    if c == q || c == '\\' then ['\\', c]
    else if c == '\t' then "\\t"
    else if c == '\n' then "\\n"
    else if c == '\r' then "\\r"
    else if (c as int) < 0x20 || (c as int) == 0x7f then
      ['\\', 'x', HexDigit(c as int / 16), HexDigit(c as int % 16)]
    else [c]
  }

  function Escape(s: string, q: char): string
  {
    if s == [] then [] else EscapeChar(s[0], q) + Escape(s[1..], q)
  }

  /** `repr(s)` of a Python string. */
  function StrRepr(s: string): string
  {
    var q := QuoteFor(s);
    [q] + Escape(s, q) + [q]
  }

  /** `str(part)`, used for the first part of an address. */
  function Text(k: Key): string
  {
    match k
    case Str(s) => s
    case Int(i) => IntToString(i)
  }

  /** `repr(part)`, used for every later part of an address. */
  function Repr(k: Key): string
  {
    match k
    case Str(s) => StrRepr(s)
    case Int(i) => IntToString(i)
  }

  /** One subscript, `f"[{repr(part)}]"`. */
  function Bracket(k: Key): string
  {
    "[" + Repr(k) + "]"
  }

  /** `"".join(f"[{repr(part)}]" for part in parts)`. */
  function Subscripts(parts: seq<Key>): string
  {
    if parts == [] then "" else Bracket(parts[0]) + Subscripts(parts[1..])
  }

  /** The `address` property: the empty address renders as the empty string,
      any other as `str` of its first part followed by the subscripts of the rest. */
  function Render(parts: seq<Key>): string
  {
    if |parts| == 0 then "" else Text(parts[0]) + Subscripts(parts[1..])
  }

  /** `new_address`: a fresh list, the parent's parts followed by the key. */
  function Extend(parts: seq<Key>, key: Key): (r: seq<Key>)
    ensures |r| == |parts| + 1 && r[..|parts|] == parts && r[|parts|] == key
  {
    parts + [key]
  }

  // ---------------------------------------------------------------------
  // Reading a breadcrumb tail back

  predicate IsDigit(c: char)
  {
    '0' <= c <= '9'
  }

  function HexValue(c: char): Option<nat>
  {
    if '0' <= c <= '9' then Some(c as int - '0' as int)
    else if 'a' <= c <= 'f' then Some(c as int - 'a' as int + 10)
    else if 'A' <= c <= 'F' then Some(c as int - 'A' as int + 10)
    else None
  }

  /** Reads the escape sequence that follows a backslash inside a literal quoted with `q`. */
  function ReadEscape(s: string, q: char): (r: Option<(char, string)>)
    ensures r.Some? ==> |r.value.1| < |s|
  {
    if |s| == 0 then None
    else if s[0] == '\\' || s[0] == q then Some((s[0], s[1..]))
    else if s[0] == 't' then Some(('\t', s[1..]))
    else if s[0] == 'n' then Some(('\n', s[1..]))
    else if s[0] == 'r' then Some(('\r', s[1..]))
    else if s[0] == 'x' && |s| >= 3 && HexValue(s[1]).Some? && HexValue(s[2]).Some?
         && HexValue(s[1]).value < 16 && HexValue(s[2]).value < 16 then
      Some(((16 * HexValue(s[1]).value + HexValue(s[2]).value) as char, s[3..]))
    else None
  }

  /** Reads the body of a string literal quoted with `q`, up to and including the closing quote. */
  function ReadBody(s: string, q: char): (r: Option<(string, string)>)
    ensures r.Some? ==> |r.value.1| < |s|
    decreases |s|
  {
    if |s| == 0 then None
    else if s[0] == q then Some(("", s[1..]))
    else if s[0] == '\\' then
      match ReadEscape(s[1..], q)
      case None => None
      case Some((c, rest)) =>
        match ReadBody(rest, q)
        case None => None
        case Some((body, after)) => Some(([c] + body, after))
    else
      match ReadBody(s[1..], q)
      case None => None
      case Some((body, after)) => Some(([s[0]] + body, after))
  }

  function ReadStrLiteral(s: string): (r: Option<(string, string)>)
    ensures r.Some? ==> |r.value.1| < |s|
  {
    if |s| > 0 && IsQuote(s[0]) then ReadBody(s[1..], s[0]) else None
  }

  /** The longest prefix of decimal digits, and what follows it. */
  function ReadDigits(s: string): (r: (string, string))
    ensures r.0 + r.1 == s
    ensures forall k :: 0 <= k < |r.0| ==> IsDigit(r.0[k])
  {
    if |s| > 0 && IsDigit(s[0]) then
      var tail := ReadDigits(s[1..]);
      var ds := [s[0]] + tail.0;
      assert forall k :: 1 <= k < |ds| ==> ds[k] == tail.0[k - 1];
      (ds, tail.1)
    else ("", s)
  }

  function DigitsValue(ds: string): nat
    requires forall k :: 0 <= k < |ds| ==> IsDigit(ds[k])
  {
    if ds == [] then 0
    else
      assert IsDigit(ds[|ds| - 1]);
      10 * DigitsValue(ds[..|ds| - 1]) + (ds[|ds| - 1] as int - '0' as int)
  }

  function ReadNat(s: string): (r: Option<(nat, string)>)
    ensures r.Some? ==> |r.value.1| < |s|
  {
    var (ds, rest) := ReadDigits(s);
    if ds == [] then None else Some((DigitsValue(ds), rest))
  }

  function ReadInt(s: string): (r: Option<(int, string)>)
    ensures r.Some? ==> |r.value.1| < |s|
  {
    if |s| > 0 && s[0] == '-' then
      match ReadNat(s[1..])
      case None => None
      case Some((n, rest)) => Some((-(n as int), rest))
    else
      match ReadNat(s)
      case None => None
      case Some((n, rest)) => Some((n, rest))
  }

  function ReadKey(s: string): (r: Option<(Key, string)>)
    ensures r.Some? ==> |r.value.1| < |s|
  {
    if |s| > 0 && IsQuote(s[0]) then
      match ReadStrLiteral(s)
      case None => None
      case Some((text, rest)) => Some((Str(text), rest))
    else
      match ReadInt(s)
      case None => None
      case Some((i, rest)) => Some((Int(i), rest))
  }

  /** Reads a sequence of `[repr(part)]` subscripts back into keys. */
  function ParseSubscripts(s: string): Option<seq<Key>>
    decreases |s|
  {
    if s == [] then Some([])
    else if s[0] != '[' then None
    else
      match ReadKey(s[1..])
      case None => None
      case Some((k, rest)) =>
        if |rest| > 0 && rest[0] == ']' then
          match ParseSubscripts(rest[1..])
          case None => None
          case Some(ks) => Some([k] + ks)
        else None
  }

  // ---------------------------------------------------------------------
  // Properties of the rendering

  lemma {:induction false} SubscriptsAppend(parts: seq<Key>, key: Key)
    ensures Subscripts(parts + [key]) == Subscripts(parts) + Bracket(key)
    decreases |parts|
  {
    var ext := parts + [key];
    if parts == [] {
      assert ext == [key];
    } else {
      assert ext[0] == parts[0];
      assert ext[1..] == parts[1..] + [key];
      SubscriptsAppend(parts[1..], key);
      assert Subscripts(ext) == Bracket(parts[0]) + (Subscripts(parts[1..]) + Bracket(key));
    }
  }

  /** The breadcrumb of a child is the parent's breadcrumb followed by one
      subscript for the new key; a child of the root node shows its key plain. */
  lemma RenderExtend(parts: seq<Key>, key: Key)
    ensures parts == [] ==> Render(Extend(parts, key)) == Text(key)
    ensures parts != [] ==> Render(Extend(parts, key)) == Render(parts) + Bracket(key)
  {
    var ext := Extend(parts, key);
    if parts != [] {
      assert ext[0] == parts[0];
      assert ext[1..] == parts[1..] + [key];
      RenderCons(ext);
      RenderCons(parts);
      SubscriptsAppend(parts[1..], key);
      ConcatAssoc(Text(parts[0]), Subscripts(parts[1..]), Bracket(key));
    } else {
      assert ext == [key];
    }
  }

  lemma RenderCons(parts: seq<Key>)
    requires parts != []
    ensures Render(parts) == Text(parts[0]) + Subscripts(parts[1..])
  {
  }

  lemma ConcatAssoc(a: string, b: string, c: string)
    ensures a + (b + c) == (a + b) + c
  {
  }

  /** A character `repr` copies unchanged inside the quotes `q`. */
  predicate Verbatim(c: char, q: char)
  {
    c != q && c != '\\' && 0x20 <= c as int && c as int != 0x7f
  }

  /** A string of such characters is its own escape. */
  lemma {:induction false} EscapeVerbatim(s: string, q: char)
    requires forall k :: 0 <= k < |s| ==> Verbatim(s[k], q)
    ensures Escape(s, q) == s
    decreases |s|
  {
    if s != [] {
      EscapeVerbatim(s[1..], q);
      assert [s[0]] + s[1..] == s;
    }
  }

  /** `repr` of a string without single quotes, backslashes or control
      characters is the string between single quotes. */
  lemma StrReprVerbatim(s: string)
    requires forall k :: 0 <= k < |s| ==> Verbatim(s[k], '\'')
    ensures StrRepr(s) == "'" + s + "'"
  {
    assert '\'' !in s;
    EscapeVerbatim(s, '\'');
  }

  /** A string holding a single quote but no double quote, backslash or
      control character is written between double quotes, unescaped. */
  lemma StrReprDoubleQuoted(s: string, i: nat)
    requires i < |s| && s[i] == '\''
    requires forall k :: 0 <= k < |s| ==> Verbatim(s[k], '"')
    ensures StrRepr(s) == "\"" + s + "\""
  {
    assert '\'' in s && '"' !in s;
    EscapeVerbatim(s, '"');
  }

  lemma HexRoundTrip(d: nat)
    requires d < 16
    ensures HexValue(HexDigit(d)) == Some(d)
  {
  }

  /** Puts one character in front of what the rest of a literal reads to. */
  function Prepend(c: char, r: Option<(string, string)>): Option<(string, string)>
  {
    match r
    case None => None
    case Some((body, after)) => Some(([c] + body, after))
  }

  lemma EscapeCharRoundTrip(c: char, q: char, tail: string)
    requires IsQuote(q)
    ensures ReadBody(EscapeChar(c, q) + tail, q) == Prepend(c, ReadBody(tail, q))
  {
    var e := EscapeChar(c, q);
    var s := e + tail;
    if c == q || c == '\\' {
      assert s == ['\\'] + ([c] + tail);
      assert s[1..] == [c] + tail;
      assert ReadEscape(s[1..], q) == Some((c, tail));
    } else if c == '\t' || c == '\n' || c == '\r' {
      assert s[1..] == [e[1]] + tail;
      assert ReadEscape(s[1..], q) == Some((c, tail));
    } else if (c as int) < 0x20 || (c as int) == 0x7f {
      var hi, lo := c as int / 16, c as int % 16;
      HexRoundTrip(hi);
      HexRoundTrip(lo);
      var t := s[1..];
      assert t == ['x', HexDigit(hi), HexDigit(lo)] + tail;
      assert t[3..] == tail;
      assert (16 * hi + lo) as char == c;
      assert ReadEscape(t, q) == Some((c, tail));
    } else {
      assert s == [c] + tail;
      assert s[1..] == tail;
    }
  }

  lemma {:induction false} EscapeRoundTrip(s: string, q: char, rest: string)
    requires IsQuote(q)
    ensures ReadBody(Escape(s, q) + [q] + rest, q) == Some((s, rest))
    decreases |s|
  {
    if s == [] {
      assert Escape(s, q) + [q] + rest == [q] + rest;
    } else {
      var tail := Escape(s[1..], q) + [q] + rest;
      assert Escape(s, q) + [q] + rest == EscapeChar(s[0], q) + tail;
      EscapeCharRoundTrip(s[0], q, tail);
      EscapeRoundTrip(s[1..], q, rest);
      assert [s[0]] + s[1..] == s;
    }
  }

  /** `repr` of a string reads back to the same string, whatever follows it. */
  lemma StrReprRoundTrip(s: string, rest: string)
    ensures ReadStrLiteral(StrRepr(s) + rest) == Some((s, rest))
  {
    var q := QuoteFor(s);
    assert StrRepr(s) + rest == [q] + (Escape(s, q) + [q] + rest);
    EscapeRoundTrip(s, q, rest);
  }

  lemma {:induction false} DigitsPrefix(ds: string, rest: string)
    requires forall k :: 0 <= k < |ds| ==> IsDigit(ds[k])
    requires rest == [] || !IsDigit(rest[0])
    ensures ReadDigits(ds + rest) == (ds, rest)
    decreases |ds|
  {
    if ds == [] {
      assert ds + rest == rest;
    } else {
      assert (ds + rest)[0] == ds[0] && IsDigit(ds[0]);
      assert (ds + rest)[1..] == ds[1..] + rest;
      DigitsPrefix(ds[1..], rest);
      assert [ds[0]] + ds[1..] == ds;
    }
  }

  lemma {:induction false} NatDigitsValue(n: nat)
    ensures DigitsValue(NatToString(n)) == n
  {
    var r := NatToString(n);
    if n >= 10 {
      NatDigitsValue(n / 10);
      assert r[..|r| - 1] == NatToString(n / 10);
    }
  }

  lemma NatRoundTrip(n: nat, rest: string)
    requires rest == [] || !IsDigit(rest[0])
    ensures ReadNat(NatToString(n) + rest) == Some((n, rest))
  {
    DigitsPrefix(NatToString(n), rest);
    NatDigitsValue(n);
  }

  /** `str` of an int reads back to the same int when no digit follows it. */
  lemma IntRoundTrip(i: int, rest: string)
    requires rest == [] || !IsDigit(rest[0])
    ensures ReadInt(IntToString(i) + rest) == Some((i, rest))
  {
    if i < 0 {
      NegativeRoundTrip(i, rest);
    } else {
      NonNegativeRoundTrip(i, rest);
    }
  }

  lemma NegativeText(i: int, rest: string)
    requires i < 0
    ensures IntToString(i) + rest == ['-'] + (NatToString(-i) + rest)
  {
  }

  lemma NegativeRoundTrip(i: int, rest: string)
    requires i < 0
    requires rest == [] || !IsDigit(rest[0])
    ensures ReadInt(IntToString(i) + rest) == Some((i, rest))
  {
    var t := NatToString(-i) + rest;
    NatRoundTrip(-i, rest);
    NegativeRead(t, -i, rest);
    NegativeText(i, rest);
  }

  lemma NonNegativeRoundTrip(n: nat, rest: string)
    requires rest == [] || !IsDigit(rest[0])
    ensures ReadInt(IntToString(n) + rest) == Some((n, rest))
  {
    var ds := NatToString(n);
    var s := ds + rest;
    NatRoundTrip(n, rest);
    assert s[0] == ds[0] && IsDigit(ds[0]);
    PositiveRead(s);
    assert IntToString(n) == ds;
  }

  lemma NegativeRead(t: string, n: nat, rest: string)
    requires ReadNat(t) == Some((n, rest))
    ensures ReadInt(['-'] + t) == Some((-(n as int), rest))
  {
    assert (['-'] + t)[1..] == t;
  }

  lemma PositiveRead(s: string)
    requires |s| > 0 && IsDigit(s[0])
    ensures ReadInt(s) == ReadNat(s)
  {
  }

  lemma ReprRoundTrip(k: Key, rest: string)
    requires |rest| > 0 && rest[0] == ']'
    ensures ReadKey(Repr(k) + rest) == Some((k, rest))
  {
    match k
    case Str(s) =>
      StrReprRoundTrip(s, rest);
    case Int(i) =>
      IntRoundTrip(i, rest);
      var t := IntToString(i);
      assert t[0] == '-' || IsDigit(t[0]);
  }

  /** The subscript tail of a breadcrumb determines the keys it was rendered from. */
  lemma {:induction false} SubscriptsRoundTrip(parts: seq<Key>)
    ensures ParseSubscripts(Subscripts(parts)) == Some(parts)
    decreases |parts|
  {
    if parts != [] {
      var k := parts[0];
      var after := Subscripts(parts[1..]);
      BracketSplit(k, after);
      ReprRoundTrip(k, "]" + after);
      assert ("]" + after)[1..] == after;
      SubscriptsRoundTrip(parts[1..]);
      assert [k] + parts[1..] == parts;
    }
  }

  lemma BracketSplit(k: Key, after: string)
    ensures (Bracket(k) + after)[0] == '['
    ensures (Bracket(k) + after)[1..] == Repr(k) + ("]" + after)
  {
    assert Bracket(k) + after == ['['] + (Repr(k) + ("]" + after));
  }

  /** A non-empty address renders as its first part plain followed by a tail
      that reads back to exactly the remaining parts. */
  lemma RenderDecomposes(parts: seq<Key>)
    requires |parts| > 0
    ensures exists tail :: Render(parts) == Text(parts[0]) + tail && ParseSubscripts(tail) == Some(parts[1..])
  {
    SubscriptsRoundTrip(parts[1..]);
    assert Render(parts) == Text(parts[0]) + Subscripts(parts[1..]);
  }

  /** The first part is written with `str`, unquoted, so a breadcrumb as a
      whole does not determine its parts: a key holding brackets renders like
      a key followed by an index. */
  lemma RenderNotInjective()
    ensures Render([Str("a[0]")]) == Render([Str("a"), Int(0)])
  {
    assert IntToString(0) == "0";
  }
}
