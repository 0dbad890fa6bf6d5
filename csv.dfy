/**
  The text the dashboards export: `Array.prototype.join` and its inverse `split`, `String(n)`
  for the non-negative integer counters, and `JSON.stringify` of a string (the quoting the
  CSV exports apply to the question), each with the reading that undoes it.
*/
module Csv {
  import opened Common

  /** `parts.join(sep)`. */
  function Join(parts: seq<string>, sep: char): string
    decreases |parts|
  {
    if parts == [] then ""
    else if |parts| == 1 then parts[0]
    else parts[0] + [sep] + Join(parts[1..], sep)
  }

  /** `s.split(sep)`: the pieces between separators; the empty string is one empty piece. */
  function Split(s: string, sep: char): (r: seq<string>)
    ensures |r| >= 1
    decreases |s|
  {
    if s == [] then [""]
    else
      var rest := Split(s[1..], sep);
      if s[0] == sep then [""] + rest
      else [[s[0]] + rest[0]] + rest[1..]
  }

  lemma {:induction false} SplitWithoutSeparator(p: string, sep: char)
    requires sep !in p
    ensures Split(p, sep) == [p]
    decreases |p|
  {
    if p != [] {
      SplitWithoutSeparator(p[1..], sep);
      assert [p[0]] + p[1..] == p;
    }
  }

  lemma {:induction false} SplitFirstPiece(p: string, sep: char, rest: string)
    requires sep !in p
    ensures Split(p + [sep] + rest, sep) == [p] + Split(rest, sep)
    decreases |p|
  {
    var s := p + [sep] + rest;
    if p == [] {
      assert s == [sep] + rest;
      assert s[1..] == rest;
    } else {
      assert s[0] == p[0];
      assert s[1..] == p[1..] + [sep] + rest;
      SplitFirstPiece(p[1..], sep, rest);
      assert [p[0]] + p[1..] == p;
    }
  }

  /** Splitting a join gives the parts back, provided no part contains the separator. */
  lemma {:induction false} SplitJoin(parts: seq<string>, sep: char)
    requires parts != []
    requires forall i :: 0 <= i < |parts| ==> sep !in parts[i]
    ensures Split(Join(parts, sep), sep) == parts
    decreases |parts|
  {
    if |parts| == 1 {
      SplitWithoutSeparator(parts[0], sep);
    } else {
      SplitFirstPiece(parts[0], sep, Join(parts[1..], sep));
      SplitJoin(parts[1..], sep);
      assert [parts[0]] + parts[1..] == parts;
    }
  }

  /** A header line followed by row lines, none holding the separator, splits back into them. */
  lemma SplitJoinHeader(header: string, rows: seq<string>, sep: char)
    requires sep !in header
    requires forall i :: 0 <= i < |rows| ==> sep !in rows[i]
    ensures Split(Join([header] + rows, sep), sep) == [header] + rows
  {
    SplitJoin([header] + rows, sep);
  }

  /** A character that is neither the separator nor in any part is not in the join. */
  lemma {:induction false} JoinAvoids(parts: seq<string>, sep: char, c: char)
    requires c != sep
    requires forall i :: 0 <= i < |parts| ==> c !in parts[i]
    ensures c !in Join(parts, sep)
    decreases |parts|
  {
    if |parts| > 1 {
      JoinAvoids(parts[1..], sep, c);
    }
  }

  predicate IsDigit(c: char) {
    '0' <= c <= '9'
  }

  function DigitChar(d: nat): (c: char)
    requires d < 10
    ensures IsDigit(c)
  {
    ('0' as int + d) as char
  }

  /** `String(n)` for a non-negative integer: its decimal digits, without leading zeros. */
  function NatToString(n: nat): (s: string)
    ensures s != []
    ensures forall i :: 0 <= i < |s| ==> IsDigit(s[i])
    decreases n
  {
    if n < 10 then [DigitChar(n)] else NatToString(n / 10) + [DigitChar(n % 10)]
  }

  /** Reading decimal digits back as a number. */
  function ParseNat(s: string): nat
    requires forall i :: 0 <= i < |s| ==> IsDigit(s[i])
    decreases |s|
  {
    if s == [] then 0
    else
      assert IsDigit(s[|s| - 1]);
      ParseNat(s[..|s| - 1]) * 10 + (s[|s| - 1] as int - '0' as int)
  }

  /** `String(n)` is read back as `n`. */
  lemma {:induction false} ParseNatToString(n: nat)
    ensures ParseNat(NatToString(n)) == n
    decreases n
  {
    if n >= 10 {
      var s := NatToString(n);
      assert s[..|s| - 1] == NatToString(n / 10);
      ParseNatToString(n / 10);
    }
  }

  /** Digits contain neither a comma nor a line break. */
  lemma DigitsAreSafe(n: nat)
    ensures ',' !in NatToString(n) && '\n' !in NatToString(n)
  {
  }

  const Backslash: char := '\\'
  const Quote: char := '"'

  function HexDigit(d: nat): (c: char)
    requires d < 16
  {
    "0123456789abcdef"[d]
  }

  function HexValue(c: char): (v: Option<nat>)
    ensures v.Some? ==> v.value < 16
  {
    if '0' <= c <= '9' then Some(c as int - '0' as int)
    else if 'a' <= c <= 'f' then Some(c as int - 'a' as int + 10)
    else None
  }

  /** How `JSON.stringify` writes one character of a string. */
  function EscapeChar(c: char): (e: string)
    ensures e != []
    ensures '\n' !in e && '\r' !in e
    ensures e[0] == Backslash || (e == [c] && c != Backslash && c != Quote)
  {
    if c == Quote then [Backslash, Quote]
    else if c == Backslash then [Backslash, Backslash]
    else if c == '\n' then [Backslash, 'n']
    else if c == '\r' then [Backslash, 'r']
    else if c == '\t' then [Backslash, 't']
    else if c == '\U{0008}' then [Backslash, 'b']
    else if c == '\U{000C}' then [Backslash, 'f']
    else if (c as int) < 0x20 then [Backslash, 'u', '0', '0', HexDigit(c as int / 16), HexDigit(c as int % 16)]
    else [c]
  }

  /** The body of the quoted string: every character escaped in turn. */
  function Escape(s: string): (e: string)
    ensures '\n' !in e && '\r' !in e
    decreases |s|
  {
    if s == [] then [] else EscapeChar(s[0]) + Escape(s[1..])
  }

  /** `JSON.stringify(s)` for a string `s`. */
  function JsonQuote(s: string): (q: string)
    ensures |q| >= 2 && q[0] == Quote && q[|q| - 1] == Quote
    ensures '\n' !in q && '\r' !in q
  {
    [Quote] + Escape(s) + [Quote]
  }

  /** The character a `\uXXXX` escape names, when it is a scalar value. */
  function FromHex(a: char, b: char, c: char, d: char): Option<char> {
    var va, vb, vc, vd := HexValue(a), HexValue(b), HexValue(c), HexValue(d);
    if va.None? || vb.None? || vc.None? || vd.None? then None
    else
      var v := ((va.value * 16 + vb.value) * 16 + vc.value) * 16 + vd.value;
      if 0xD800 <= v < 0xE000 then None else Some(v as char)
  }

  /** Reading escapes back, as `JSON.parse` does inside a string literal. */
  function Unescape(e: string): string
    decreases |e|
  {
    if e == [] then []
    else if e[0] == Backslash && |e| >= 2 then
      var k := e[1];
      if k == Quote || k == Backslash || k == '/' then [k] + Unescape(e[2..])
      else if k == 'n' then ['\n'] + Unescape(e[2..])
      else if k == 'r' then ['\r'] + Unescape(e[2..])
      else if k == 't' then ['\t'] + Unescape(e[2..])
      else if k == 'b' then ['\U{0008}'] + Unescape(e[2..])
      else if k == 'f' then ['\U{000C}'] + Unescape(e[2..])
      else if k == 'u' && |e| >= 6 && FromHex(e[2], e[3], e[4], e[5]).Some? then
        [FromHex(e[2], e[3], e[4], e[5]).value] + Unescape(e[6..])
      else [e[0]] + Unescape(e[1..])
    else [e[0]] + Unescape(e[1..])
  }

  /** `JSON.parse` of a string literal: the text between the quotes, unescaped. */
  function JsonUnquote(q: string): string
    requires |q| >= 2
  {
    Unescape(q[1..|q| - 1])
  }

  lemma HexRoundTrip(d: nat)
    requires d < 16
    ensures HexValue(HexDigit(d)) == Some(d)
  {
  }

  lemma UnescapeChar(c: char, rest: string)
    ensures Unescape(EscapeChar(c) + rest) == [c] + Unescape(rest)
  {
    var e := EscapeChar(c) + rest;
    if c != Quote && c != Backslash && c != '\n' && c != '\r' && c != '\t' && c != '\U{0008}' && c != '\U{000C}'
       && (c as int) < 0x20 {
      var hi, lo := c as int / 16, c as int % 16;
      HexRoundTrip(0);
      HexRoundTrip(hi);
      HexRoundTrip(lo);
      assert e[2..6] == ['0', '0', HexDigit(hi), HexDigit(lo)];
      assert FromHex(e[2], e[3], e[4], e[5]) == Some(c);
      assert e[6..] == rest;
    } else if EscapeChar(c) == [c] {
      assert e[1..] == rest;
    } else {
      assert e[2..] == rest;
    }
  }

  lemma {:induction false} UnescapeEscape(s: string)
    ensures Unescape(Escape(s)) == s
    decreases |s|
  {
    if s != [] {
      UnescapeChar(s[0], Escape(s[1..]));
      UnescapeEscape(s[1..]);
      assert [s[0]] + s[1..] == s;
    }
  }

  /** `JSON.parse(JSON.stringify(s)) === s`. */
  lemma JsonRoundTrip(s: string)
    ensures JsonUnquote(JsonQuote(s)) == s
  {
    var q := JsonQuote(s);
    assert q[1..|q| - 1] == Escape(s);
    UnescapeEscape(s);
  }
}
