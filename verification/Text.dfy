/**
 Strings as the Go code sees them: a `string` is a sequence of Unicode scalar values, that is,
 a valid UTF-8 text. `RawText` adds the one thing a Go string can be beyond that.
 */
module Text {
  /** What a clipboard or a peer hands over: bytes that may or may not be valid UTF-8. */
  datatype RawText = NotUtf8 | Utf8(text: string)

  /** `unicode.IsSpace`. */
  predicate IsSpace(c: char) {
    var n := c as int;
    || 0x09 <= n <= 0x0D || n == 0x20 || n == 0x85 || n == 0xA0 || n == 0x1680
    || 0x2000 <= n <= 0x200A || n == 0x2028 || n == 0x2029 || n == 0x202F || n == 0x205F || n == 0x3000
  }

  predicate Trimmed(s: string) {
    s != "" ==> !IsSpace(s[0]) && !IsSpace(s[|s| - 1])
  }

  /** `strings.TrimSpace`. */
  function TrimSpace(s: string): (r: string)
    ensures Trimmed(r)
    ensures Trimmed(s) ==> r == s
  {
    if s == "" then s
    else if IsSpace(s[0]) then TrimSpace(s[1..])
    else if IsSpace(s[|s| - 1]) then TrimSpace(s[..|s| - 1])
    else s
  }

  /** Trimming cuts spaces and nothing else. */
  lemma {:induction false} TrimCutsSpaces(s: string) returns (lo: nat, hi: nat)
    ensures lo <= hi <= |s| && TrimSpace(s) == s[lo..hi]
    ensures forall k :: 0 <= k < lo || hi <= k < |s| ==> IsSpace(s[k])
  {
    if s == "" {
      lo, hi := 0, 0;
    } else if IsSpace(s[0]) {
      lo, hi := TrimCutsSpaces(s[1..]);
      assert s[1..][lo..hi] == s[lo + 1..hi + 1];
      forall k | 0 <= k < lo + 1 || hi + 1 <= k < |s| ensures IsSpace(s[k]) {
        if k > 0 { assert s[k] == s[1..][k - 1]; }
      }
      lo, hi := lo + 1, hi + 1;
    } else if IsSpace(s[|s| - 1]) {
      lo, hi := TrimCutsSpaces(s[..|s| - 1]);
      assert s[..|s| - 1][lo..hi] == s[lo..hi];
      forall k | 0 <= k < lo || hi <= k < |s| ensures IsSpace(s[k]) {
        if k < |s| - 1 { assert s[k] == s[..|s| - 1][k]; }
      }
    } else {
      lo, hi := 0, |s|;
      assert s[0..|s|] == s;
    }
  }

  function Utf8Width(c: char): (n: nat)
    ensures 1 <= n <= 4
  {
    if c as int < 0x80 then 1 else if c as int < 0x800 then 2 else if c as int < 0x10000 then 3 else 4
  }

  /** `len(s)`: the number of bytes of the UTF-8 form. */
  function Utf8Len(s: string): (n: nat)
    ensures |s| <= n <= 4 * |s|
  {
    if s == "" then 0 else Utf8Width(s[0]) + Utf8Len(s[1..])
  }

  lemma {:induction false} Utf8LenConcat(s: string, t: string)
    ensures Utf8Len(s + t) == Utf8Len(s) + Utf8Len(t)
  {
    if s == "" {
      assert s + t == t;
    } else {
      assert (s + t)[1..] == s[1..] + t;
      Utf8LenConcat(s[1..], t);
    }
  }

  predicate IsHexDigit(c: char) {
    '0' <= c <= '9' || 'a' <= c <= 'f' || 'A' <= c <= 'F'
  }

  /** A hex encoded SHA-256 digest. */
  predicate IsDigest(s: string) {
    |s| == 64 && forall i :: 0 <= i < |s| ==> IsHexDigit(s[i])
  }

  function ZeroDigest(): (s: string)
    ensures IsDigest(s)
  {
    seq(64, _ => '0')
  }

  /** SHA-256 enters as any function whose values look like digests. */
  type HashFn = f: string -> string | forall s :: IsDigest(f(s)) witness ((s: string) => ZeroDigest())

  function HashPrefix(hash: string): string {
    if |hash| <= 12 then hash else hash[..12]
  }
}
