/** Base 64 as the JWT decoder meets it: `atob`, the forgiving-base64 decode
    of the WHATWG Infra standard (section 4.3), and the unpadded URL-safe
    encoding of section 5 of RFC 4648 with which tokens carry their parts. */
module Base64 {
  import opened Wrappers

  type byte = x: int | 0 <= x < 256

  type sextet = x: int | 0 <= x < 64

  /** The standard alphabet of section 4 of RFC 4648. */
  function CharOf(i: sextet): (c: char) {
    if i < 26 then ('A' as int + i) as char
    else if i < 52 then ('a' as int + i - 26) as char
    else if i < 62 then ('0' as int + i - 52) as char
    else if i == 62 then '+'
    else '/'
  }

  /** The URL and filename safe alphabet of section 5 of RFC 4648. */
  function UrlCharOf(i: sextet): (c: char) {
    if i == 62 then '-' else if i == 63 then '_' else CharOf(i)
  }

  /** The position of `c` in the standard alphabet. */
  function IndexOf(c: char): (r: Option<sextet>)
    ensures r.Some? ==> CharOf(r.value) == c
  {
    if 'A' <= c <= 'Z' then Some(c as int - 'A' as int)
    else if 'a' <= c <= 'z' then Some(c as int - 'a' as int + 26)
    else if '0' <= c <= '9' then Some(c as int - '0' as int + 52)
    else if c == '+' then Some(62)
    else if c == '/' then Some(63)
    else None
  }

  lemma IndexOfCharOf(i: sextet)
    ensures IndexOf(CharOf(i)) == Some(i)
  {
  }

  // ---------------------------------------------------------------------
  // bytes <-> sextets
  // ---------------------------------------------------------------------

  /** Three bytes as four sextets: the 24 bits of the group, most significant
      first, six at a time. */
  function EncodeGroup(b0: byte, b1: byte, b2: byte): (q: seq<sextet>)
    ensures |q| == 4
  {
    [b0 / 4, (b0 % 4) * 16 + b1 / 16, (b1 % 16) * 4 + b2 / 64, b2 % 64]
  }

  /** Four sextets as three bytes: the same 24 bits, eight at a time. */
  function DecodeGroup(q0: sextet, q1: sextet, q2: sextet, q3: sextet): (b: seq<byte>)
    ensures |b| == 3
  {
    [q0 * 4 + q1 / 16, (q1 % 16) * 16 + q2 / 4, (q2 % 4) * 64 + q3]
  }

  /** The sextets of `b`: a final group of one or two bytes gives two or three
      sextets, its missing bits taken as zero. */
  function Sextets(b: seq<byte>): (q: seq<sextet>)
    ensures |q| % 4 != 1
    ensures |q| == |b| / 3 * 4 + (if |b| % 3 == 0 then 0 else |b| % 3 + 1)
  {
    if |b| >= 3 then EncodeGroup(b[0], b[1], b[2]) + Sextets(b[3..])
    else if |b| == 2 then EncodeGroup(b[0], b[1], 0)[..3]
    else if |b| == 1 then EncodeGroup(b[0], 0, 0)[..2]
    else []
  }

  /** The bytes of a run of sextets, as the forgiving decoder emits them: a
      final group of two or three sextets gives one or two bytes and its
      left-over bits are discarded. */
  function DecodeSextets(q: seq<sextet>): (b: seq<byte>)
    requires |q| % 4 != 1
  {
    if |q| >= 4 then DecodeGroup(q[0], q[1], q[2], q[3]) + DecodeSextets(q[4..])
    else if |q| == 3 then DecodeGroup(q[0], q[1], q[2], 0)[..2]
    else if |q| == 2 then DecodeGroup(q[0], q[1], 0, 0)[..1]
    else []
  }

  /** `(hi * m + lo) / m == hi` and `(hi * m + lo) % m == lo` for the
      moduli of the group layout. */
  lemma Split16(hi: int, lo: int)
    requires 0 <= lo < 16
    ensures (hi * 16 + lo) / 16 == hi && (hi * 16 + lo) % 16 == lo
  {
  }

  lemma Split4(hi: int, lo: int)
    requires 0 <= lo < 4
    ensures (hi * 4 + lo) / 4 == hi && (hi * 4 + lo) % 4 == lo
  {
  }

  lemma GroupRoundTrip(b0: byte, b1: byte, b2: byte)
    ensures var q := EncodeGroup(b0, b1, b2); DecodeGroup(q[0], q[1], q[2], q[3]) == [b0, b1, b2]
  {
    Split16(b0 % 4, b1 / 16);
    Split4(b1 % 16, b2 / 64);
    assert b0 == (b0 / 4) * 4 + b0 % 4;
    assert b1 == (b1 / 16) * 16 + b1 % 16;
    assert b2 == (b2 / 64) * 64 + b2 % 64;
  }

  /** A final pair of bytes: the fourth sextet is zero and is not needed. */
  lemma PairRoundTrip(b0: byte, b1: byte)
    ensures var q := EncodeGroup(b0, b1, 0); DecodeGroup(q[0], q[1], q[2], 0)[..2] == [b0, b1]
  {
    var q := EncodeGroup(b0, b1, 0);
    GroupRoundTrip(b0, b1, 0);
    assert q[3] == 0;
  }

  /** A final single byte: the last two sextets are zero. */
  lemma SingleRoundTrip(b0: byte)
    ensures var q := EncodeGroup(b0, 0, 0); DecodeGroup(q[0], q[1], 0, 0)[..1] == [b0]
  {
    var q := EncodeGroup(b0, 0, 0);
    GroupRoundTrip(b0, 0, 0);
    assert q[2] == 0 && q[3] == 0;
  }

  /** A full group in front decodes on its own. */
  lemma DecodeSextetsGroup(g: seq<sextet>, rest: seq<sextet>)
    requires |g| == 4 && |rest| % 4 != 1
    ensures DecodeSextets(g + rest) == DecodeGroup(g[0], g[1], g[2], g[3]) + DecodeSextets(rest)
  {
    var q := g + rest;
    assert q[0] == g[0] && q[1] == g[1] && q[2] == g[2] && q[3] == g[3];
    assert q[4..] == rest;
  }

  lemma {:induction false} SextetsRoundTrip(b: seq<byte>)
    ensures DecodeSextets(Sextets(b)) == b
  {
    if |b| >= 3 {
      var g := EncodeGroup(b[0], b[1], b[2]);
      var rest := Sextets(b[3..]);
      assert Sextets(b) == g + rest;
      DecodeSextetsGroup(g, rest);
      GroupRoundTrip(b[0], b[1], b[2]);
      SextetsRoundTrip(b[3..]);
      assert b == [b[0], b[1], b[2]] + b[3..];
    } else if |b| == 2 {
      PairRoundTrip(b[0], b[1]);
      assert b == [b[0], b[1]];
    } else if |b| == 1 {
      SingleRoundTrip(b[0]);
      assert b == [b[0]];
    }
  }

  // ---------------------------------------------------------------------
  // encoding
  // ---------------------------------------------------------------------

  /** Base 64 text of `b` in the standard alphabet, without padding. */
  function EncodeStd(b: seq<byte>): (s: string)
    ensures |s| == |Sextets(b)|
  {
    var q := Sextets(b);
    seq(|q|, i requires 0 <= i < |q| => CharOf(q[i]))
  }

  /** Base 64 text of `b` in the URL-safe alphabet, without padding: the form
      of each part of a compact JWS (section 7.1 of RFC 7515). */
  function EncodeUrl(b: seq<byte>): (s: string)
    ensures |s| == |Sextets(b)|
    ensures forall i :: 0 <= i < |s| ==> s[i] != '.' && s[i] != '=' && s[i] != '+' && s[i] != '/'
  {
    var q := Sextets(b);
    seq(|q|, i requires 0 <= i < |q| => UrlCharOf(q[i]))
  }

  /** `n` padding characters. */
  function Pad(n: nat): (s: string)
    ensures |s| == n && forall i :: 0 <= i < n ==> s[i] == '='
  {
    if n == 0 then "" else Pad(n - 1) + "="
  }

  // ---------------------------------------------------------------------
  // atob
  // ---------------------------------------------------------------------

  /** ASCII whitespace of the Infra standard: TAB, LF, FF, CR and SPACE. */
  predicate IsAsciiWhitespace(c: char) {
    c == '\t' || c == '\n' || c == '\U{000C}' || c == '\r' || c == ' '
  }

  function StripAsciiWhitespace(s: string): (r: string)
    ensures forall i :: 0 <= i < |r| ==> !IsAsciiWhitespace(r[i])
    ensures (forall i :: 0 <= i < |s| ==> !IsAsciiWhitespace(s[i])) ==> r == s
  {
    if |s| == 0 then ""
    else
      var rest := StripAsciiWhitespace(s[1..]);
      if IsAsciiWhitespace(s[0]) then rest
      else
        assert s == [s[0]] + s[1..];
        [s[0]] + rest
  }

  /** Step 2 of forgiving-base64 decode: when the length is a multiple of four,
      one or two trailing `=` are removed. */
  function StripPadding(d: string): (r: string)
    ensures |r| <= |d| && r == d[..|r|] && |d| - 2 <= |r|
  {
    if |d| % 4 != 0 then d
    else if |d| >= 2 && d[|d| - 2] == '=' && d[|d| - 1] == '=' then d[..|d| - 2]
    else if |d| >= 1 && d[|d| - 1] == '=' then d[..|d| - 1]
    else d
  }

  /** `atob(s)`: None where it throws `InvalidCharacterError`; otherwise the
      decoded bytes, one character per byte. */
  function Atob(s: string): (r: Option<string>)
    ensures r.Some? ==> forall i :: 0 <= i < |r.value| ==> r.value[i] as int < 256
  {
    var d := StripPadding(StripAsciiWhitespace(s));
    if |d| % 4 == 1 then None
    else if exists i :: 0 <= i < |d| && IndexOf(d[i]).None? then None
    else
      var q := seq(|d|, i requires 0 <= i < |d| => IndexOf(d[i]).value);
      Some(Latin1(DecodeSextets(q)))
  }

  /** Bytes as the characters of a binary string. */
  function Latin1(b: seq<byte>): (s: string)
    ensures |s| == |b| && forall i :: 0 <= i < |b| ==> s[i] as int == b[i]
  {
    seq(|b|, i requires 0 <= i < |b| => b[i] as char)
  }

  /** The padding that brings `n` characters to a multiple of four. */
  function PadCount(n: nat): nat {
    (4 - n % 4) % 4
  }

  /** No character of the standard alphabet is `=` or ASCII whitespace. */
  predicate InAlphabet(e: string) {
    forall i :: 0 <= i < |e| ==> IndexOf(e[i]).Some?
  }

  /** Removing the padding that was added gives the unpadded text back. */
  lemma StripPaddingOfPadded(e: string)
    requires InAlphabet(e) && |e| % 4 != 1
    ensures StripPadding(e + Pad(PadCount(|e|))) == e
  {
    var s := e + Pad(PadCount(|e|));
    if PadCount(|e|) == 0 && |e| > 0 {
      assert s[|s| - 1] == e[|e| - 1];
    } else if PadCount(|e|) == 1 {
      assert s[|s| - 2] == e[|e| - 1];
    }
    assert s[..|e|] == e;
  }

  /** Padded text in the standard alphabet has no ASCII whitespace. */
  lemma NoWhitespace(e: string, k: nat)
    requires InAlphabet(e)
    ensures StripAsciiWhitespace(e + Pad(k)) == e + Pad(k)
  {
    var s := e + Pad(k);
    forall i | 0 <= i < |s|
      ensures !IsAsciiWhitespace(s[i])
    {
      if i < |e| {
        assert IndexOf(s[i]).Some?;
      }
    }
  }

  /** The standard text of `b` reads back as the sextets of `b`. */
  lemma IndicesOfEncodeStd(b: seq<byte>)
    ensures InAlphabet(EncodeStd(b))
    ensures var e := EncodeStd(b);
            seq(|e|, i requires 0 <= i < |e| => IndexOf(e[i]).value) == Sextets(b)
  {
    var e := EncodeStd(b);
    var q := Sextets(b);
    forall i | 0 <= i < |e|
      ensures IndexOf(e[i]) == Some(q[i])
    {
      IndexOfCharOf(q[i]);
    }
  }

  /** `atob` decodes the padded standard-alphabet text of any bytes back to
      those bytes. */
  lemma AtobOfEncodeStd(b: seq<byte>)
    ensures var e := EncodeStd(b); Atob(e + Pad(PadCount(|e|))) == Some(Latin1(b))
  {
    var e := EncodeStd(b);
    var s := e + Pad(PadCount(|e|));
    IndicesOfEncodeStd(b);
    NoWhitespace(e, PadCount(|e|));
    StripPaddingOfPadded(e);
    assert StripPadding(StripAsciiWhitespace(s)) == e;
    SextetsRoundTrip(b);
  }
}
