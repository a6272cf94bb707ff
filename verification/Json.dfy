/**
 The part of JSON (RFC 8259) the events use: integers (section 6) and strings (section 7).
 The writer escapes what Go's `json.Marshal` escapes; the reader takes every escape of section 7
 except surrogate pairs.
 */
module Json {
  import opened Options
  import opened Text

  // ---------------------------------------------------------------- numbers

  function Digit(n: nat): (c: char)
    requires n < 10
    ensures '0' <= c <= '9' && c as int - '0' as int == n
  {
    (n + '0' as int) as char
  }

  function Digits(n: nat): (s: string)
    ensures s != "" && forall i :: 0 <= i < |s| ==> '0' <= s[i] <= '9'
  {
    if n < 10 then [Digit(n)] else Digits(n / 10) + [Digit(n % 10)]
  }

  /** Reads the digits in front and returns the number and what follows. */
  function ReadNat(s: string, acc: nat): (nat, string) {
    if s != "" && '0' <= s[0] <= '9' then ReadNat(s[1..], acc * 10 + (s[0] as int - '0' as int)) else (acc, s)
  }

  lemma {:induction false} ReadNatConcat(s: string, t: string, acc: nat)
    requires forall i :: 0 <= i < |s| ==> '0' <= s[i] <= '9'
    ensures ReadNat(s + t, acc) == ReadNat(t, ReadNat(s, acc).0)
  {
    if s == "" {
      assert s + t == t;
    } else {
      assert (s + t)[1..] == s[1..] + t;
      ReadNatConcat(s[1..], t, acc * 10 + (s[0] as int - '0' as int));
    }
  }

  lemma {:induction false} ReadDigits(n: nat)
    ensures ReadNat(Digits(n), 0) == (n, "")
  {
    if n >= 10 {
      ReadDigits(n / 10);
      ReadNatConcat(Digits(n / 10), [Digit(n % 10)], 0);
      assert ReadNat([Digit(n % 10)], n / 10) == ReadNat([], (n / 10) * 10 + n % 10);
    } else {
      assert [Digit(n)][1..] == [];
    }
  }

  lemma NatRoundTrip(n: nat, rest: string)
    requires rest != "" && !('0' <= rest[0] <= '9')
    ensures ReadNat(Digits(n) + rest, 0) == (n, rest)
  {
    ReadDigits(n);
    ReadNatConcat(Digits(n), rest, 0);
  }

  /** Any integer, as `json.Marshal` and `%d` write it. */
  function FormatInt(n: int): (s: string)
    ensures s != "" && forall i :: 0 <= i < |s| ==> '0' <= s[i] <= '9' || (i == 0 && s[i] == '-')
    ensures '0' <= s[|s| - 1] <= '9'
    ensures n >= 0 ==> s == Digits(n)
  {
    if n < 0 then "-" + Digits(-n) else Digits(n)
  }

  /** Reads an integer in front, with a minus sign or without. */
  function ReadInt(s: string): Option<(int, string)> {
    if s != "" && s[0] == '-' then
      if |s| == 1 || !('0' <= s[1] <= '9') then None
      else
        var (n, rest) := ReadNat(s[1..], 0);
        var m: int := 0 - n;
        Some((m, rest))
    else if s == "" || !('0' <= s[0] <= '9') then None
    else
      var (n, rest) := ReadNat(s, 0);
      Some((n, rest))
  }

  lemma IntRoundTrip(n: int, rest: string)
    requires rest != "" && !('0' <= rest[0] <= '9')
    ensures ReadInt(FormatInt(n) + rest) == Some((n, rest))
  {
    var s := FormatInt(n) + rest;
    if n < 0 {
      NatRoundTrip(-n, rest);
      assert s[1..] == Digits(-n) + rest;
      assert s[1] == Digits(-n)[0];
    } else {
      NatRoundTrip(n, rest);
      assert s[0] == Digits(n)[0];
    }
  }

  // ---------------------------------------------------------------- strings

  function HexDigit(n: nat): (c: char)
    requires n < 16
  {
    if n < 10 then (n + '0' as int) as char else (n - 10 + 'a' as int) as char
  }

  function HexValue(c: char): (n: int)
    ensures -1 <= n < 16
  {
    if '0' <= c <= '9' then c as int - '0' as int
    else if 'a' <= c <= 'f' then c as int - 'a' as int + 10
    else if 'A' <= c <= 'F' then c as int - 'A' as int + 10
    else -1
  }

  function UnicodeEscape(n: nat): (s: string)
    requires n < 0x10000
  {
    ['\\', 'u', HexDigit(n / 0x1000), HexDigit(n / 0x100 % 0x10), HexDigit(n / 0x10 % 0x10), HexDigit(n % 0x10)]
  }

  predicate NeedsUnicodeEscape(c: char) {
    c as int < 0x20 || c == '<' || c == '>' || c == '&' || c as int == 0x2028 || c as int == 0x2029
  }

  function Escape(c: char): (s: string) {
    if c == '\"' then ['\\', '\"']
    else if c == '\\' then ['\\', '\\']
    else if c as int == 0x08 then ['\\', 'b']
    else if c as int == 0x0C then ['\\', 'f']
    else if c == '\n' then ['\\', 'n']
    else if c == '\r' then ['\\', 'r']
    else if c == '\t' then ['\\', 't']
    else if NeedsUnicodeEscape(c) then UnicodeEscape(c as int)
    else [c]
  }

  function EscapeAll(s: string): string {
    if s == "" then "" else Escape(s[0]) + EscapeAll(s[1..])
  }

  function Quote(s: string): string {
    "\"" + EscapeAll(s) + "\""
  }

  /** Reads one character of a string body, escaped or plain; a quote ends the body. */
  function ReadChar(s: string): (r: Option<(char, string)>)
    ensures r.Some? ==> |r.value.1| < |s|
  {
    if s == "" || s[0] == '\"' || s[0] as int < 0x20 then None
    else if s[0] != '\\' then Some((s[0], s[1..]))
    else if |s| < 2 then None
    else match s[1]
      case '\"' => Some(('\"', s[2..]))
      case '\\' => Some(('\\', s[2..]))
      case '/' => Some(('/', s[2..]))
      case 'b' => Some((0x08 as char, s[2..]))
      case 'f' => Some((0x0C as char, s[2..]))
      case 'n' => Some(('\n', s[2..]))
      case 'r' => Some(('\r', s[2..]))
      case 't' => Some(('\t', s[2..]))
      case 'u' =>
        if |s| < 6 || HexValue(s[2]) < 0 || HexValue(s[3]) < 0 || HexValue(s[4]) < 0 || HexValue(s[5]) < 0 then None
        else
          var n := HexValue(s[2]) * 0x1000 + HexValue(s[3]) * 0x100 + HexValue(s[4]) * 0x10 + HexValue(s[5]);
          if 0xD800 <= n < 0xE000 then None else Some((n as char, s[6..]))
      case _ => None
  }

  function ReadBody(s: string, acc: string): Option<(string, string)>
    decreases |s|
  {
    if s != "" && s[0] == '\"' then Some((acc, s[1..]))
    else match ReadChar(s)
      case None => None
      case Some((c, rest)) => ReadBody(rest, acc + [c])
  }

  function ReadString(s: string): Option<(string, string)> {
    if s == "" || s[0] != '\"' then None else ReadBody(s[1..], "")
  }

  lemma HexRoundTrip(n: nat)
    requires n < 16
    ensures HexValue(HexDigit(n)) == n
  {
  }

  lemma HexSplit(n: nat)
    requires n < 0x10000
    ensures n / 0x1000 * 0x1000 + n / 0x100 % 0x10 * 0x100 + n / 0x10 % 0x10 * 0x10 + n % 0x10 == n
  {
    var q := n / 0x10;
    var r := q / 0x10;
    assert n / 0x100 == r && n / 0x1000 == r / 0x10;
    assert n == q * 0x10 + n % 0x10 && q == r * 0x10 + q % 0x10 && r == r / 0x10 * 0x10 + r % 0x10;
  }

  lemma ReadUnicodeEscape(a: nat, b: nat, d: nat, e: nat, rest: string)
    requires a < 16 && b < 16 && d < 16 && e < 16
    ensures var n := a * 0x1000 + b * 0x100 + d * 0x10 + e;
            n < 0xD800 ==>
              ReadChar(['\\', 'u', HexDigit(a), HexDigit(b), HexDigit(d), HexDigit(e)] + rest) ==
                  Some((n as char, rest))
  {
    HexRoundTrip(a);
    HexRoundTrip(b);
    HexRoundTrip(d);
    HexRoundTrip(e);
    var s := ['\\', 'u', HexDigit(a), HexDigit(b), HexDigit(d), HexDigit(e)] + rest;
    assert s[6..] == rest;
  }

  lemma UnicodeEscapeRoundTrip(c: char, rest: string)
    requires c as int < 0xD800
    ensures ReadChar(UnicodeEscape(c as int) + rest) == Some((c, rest))
  {
    var n := c as int;
    HexSplit(n);
    ReadUnicodeEscape(n / 0x1000, n / 0x100 % 0x10, n / 0x10 % 0x10, n % 0x10, rest);
  }

  lemma CharRoundTrip(c: char, rest: string)
    ensures Escape(c)[0] != '\"'
    ensures ReadChar(Escape(c) + rest) == Some((c, rest))
  {
    if NeedsUnicodeEscape(c) && Escape(c) == UnicodeEscape(c as int) {
      UnicodeEscapeRoundTrip(c, rest);
    } else if |Escape(c)| == 2 {
      assert (Escape(c) + rest)[2..] == rest;
    } else {
      assert (Escape(c) + rest)[1..] == rest;
    }
  }

  lemma {:induction false} BodyRoundTrip(x: string, rest: string, acc: string)
    ensures ReadBody(EscapeAll(x) + "\"" + rest, acc) == Some((acc + x, rest))
  {
    if x == "" {
      assert EscapeAll(x) + "\"" + rest == "\"" + rest;
      assert ("\"" + rest)[1..] == rest;
      assert acc + x == acc;
    } else {
      var tail := EscapeAll(x[1..]) + "\"" + rest;
      assert EscapeAll(x) + "\"" + rest == Escape(x[0]) + tail;
      CharRoundTrip(x[0], tail);
      BodyRoundTrip(x[1..], rest, acc + [x[0]]);
      assert acc + [x[0]] + x[1..] == acc + x;
    }
  }

  /** Every string survives quoting, whatever follows it. */
  lemma StringRoundTrip(x: string, rest: string)
    ensures ReadString(Quote(x) + rest) == Some((x, rest))
  {
    assert (Quote(x) + rest)[1..] == EscapeAll(x) + "\"" + rest;
    BodyRoundTrip(x, rest, "");
    assert "" + x == x;
  }

  // ---------------------------------------------------------------- lengths

  predicate Plain(c: char) {
    Escape(c) == [c]
  }

  lemma {:induction false} EscapedLenBounds(s: string)
    ensures Utf8Len(s) <= Utf8Len(EscapeAll(s)) <= 6 * Utf8Len(s)
    ensures (forall i :: 0 <= i < |s| ==> Plain(s[i])) ==> EscapeAll(s) == s
  {
    if s != "" {
      EscapedLenBounds(s[1..]);
      Utf8LenConcat(Escape(s[0]), EscapeAll(s[1..]));
      EscapedCharLen(s[0]);
      if forall i :: 0 <= i < |s| ==> Plain(s[i]) {
        assert forall i :: 0 <= i < |s[1..]| ==> s[1..][i] == s[i + 1];
        assert [s[0]] + s[1..] == s;
      }
    }
  }

  lemma {:induction false} AsciiLen(s: string)
    requires forall i :: 0 <= i < |s| ==> s[i] as int < 0x80
    ensures Utf8Len(s) == |s|
  {
    if s != "" { AsciiLen(s[1..]); }
  }

  lemma EscapedCharLen(c: char)
    ensures Utf8Width(c) <= Utf8Len(Escape(c)) <= 6 * Utf8Width(c)
  {
    if Escape(c) == [c] {
      assert [c][1..] == "";
    } else {
      AsciiLen(Escape(c));
    }
  }

  lemma QuoteLen(s: string)
    ensures Utf8Len(Quote(s)) == Utf8Len(EscapeAll(s)) + 2
  {
    Utf8LenConcat("\"" + EscapeAll(s), "\"");
    Utf8LenConcat("\"", EscapeAll(s));
    AsciiLen("\"");
  }
}
