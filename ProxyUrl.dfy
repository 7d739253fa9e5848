/** The proxy URL builder of the configuration: every request goes to one
    proxy endpoint with the upstream path in the `path` query parameter,
    escaped by `encodeURIComponent` (section 15.1.3.4 of ECMA-262 5.1). */
module ProxyUrl {
  import opened Wrappers
  import opened Config

  type byte = x: int | 0 <= x < 256

  // ---------------------------------------------------------------------
  // path cleaning
  // ---------------------------------------------------------------------

  /** `s.replace(/^\/+/, "")`: `s` without its leading slashes. */
  function StripLeadingSlashes(s: string): (r: string)
    ensures |r| <= |s| && r == s[|s| - |r|..]
    ensures r == [] || r[0] != '/'
    ensures forall i :: 0 <= i < |s| - |r| ==> s[i] == '/'
  {
    if |s| > 0 && s[0] == '/' then StripLeadingSlashes(s[1..]) else s
  }

  // ---------------------------------------------------------------------
  // encodeURIComponent
  // ---------------------------------------------------------------------

  /** The characters `encodeURIComponent` leaves as they are. */
  predicate IsUnreserved(c: char) {
    || ('A' <= c <= 'Z') || ('a' <= c <= 'z') || ('0' <= c <= '9')
    || c == '-' || c == '_' || c == '.' || c == '!' || c == '~'
    || c == '*' || c == '\'' || c == '(' || c == ')'
  }

  /** UTF-8 bytes of one code point (section 3 of RFC 3629). */
  function Utf8(c: char): (b: seq<byte>)
    ensures 1 <= |b| <= 4
    ensures (c as int < 128) <==> (|b| == 1 && b[0] == c as int)
  {
    var cp := c as int;
    if cp < 0x80 then [cp]
    else if cp < 0x800 then [0xC0 + cp / 64, 0x80 + cp % 64]
    else if cp < 0x10000 then [0xE0 + cp / 4096, 0x80 + (cp / 64) % 64, 0x80 + cp % 64]
    else [0xF0 + cp / 262144, 0x80 + (cp / 4096) % 64, 0x80 + (cp / 64) % 64, 0x80 + cp % 64]
  }

  /** UTF-8 bytes of a string. */
  function Utf8String(s: string): seq<byte> {
    if |s| == 0 then [] else Utf8(s[0]) + Utf8String(s[1..])
  }

  /** Upper-case hexadecimal digit. */
  function HexDigit(d: int): (c: char)
    requires 0 <= d < 16
  {
    if d < 10 then ('0' as int + d) as char else ('A' as int + d - 10) as char
  }

  predicate IsUpperHex(c: char) {
    ('0' <= c <= '9') || ('A' <= c <= 'F')
  }

  /** `%XY` for one byte. */
  function PercentByte(b: byte): (s: string)
    ensures |s| == 3 && s[0] == '%' && IsUpperHex(s[1]) && IsUpperHex(s[2])
  {
    ['%', HexDigit(b / 16), HexDigit(b % 16)]
  }

  function PercentBytes(bs: seq<byte>): (s: string)
    ensures |s| == 3 * |bs|
    ensures forall i :: 0 <= i < |s| ==> s[i] == '%' || IsUpperHex(s[i])
  {
    if |bs| == 0 then "" else PercentByte(bs[0]) + PercentBytes(bs[1..])
  }

  /** One character of `encodeURIComponent`'s output. */
  function EncodeChar(c: char): (s: string)
    ensures forall i :: 0 <= i < |s| ==> IsUnreserved(s[i]) || s[i] == '%' || IsUpperHex(s[i])
  {
    if IsUnreserved(c) then [c] else PercentBytes(Utf8(c))
  }

  /** `encodeURIComponent(s)`. Dafny strings hold no lone surrogate, so the
      `URIError` case does not arise. */
  function EncodeUriComponent(s: string): (r: string)
    ensures forall i :: 0 <= i < |r| ==> IsUnreserved(r[i]) || r[i] == '%' || IsUpperHex(r[i])
  {
    if |s| == 0 then ""
    else
      var head := EncodeChar(s[0]);
      var tail := EncodeUriComponent(s[1..]);
      assert forall i :: |head| <= i < |head| + |tail| ==> (head + tail)[i] == tail[i - |head|];
      head + tail
  }

  /** Reads a hexadecimal digit back. */
  function HexValue(c: char): Option<int> {
    if '0' <= c <= '9' then Some(c as int - '0' as int)
    else if 'A' <= c <= 'F' then Some(c as int - 'A' as int + 10)
    else if 'a' <= c <= 'f' then Some(c as int - 'a' as int + 10)
    else None
  }

  /** Percent-decoding to bytes, the first half of `decodeURIComponent`:
      `%XY` gives the byte XY, an ASCII character gives its own code; None
      for a broken escape or a character outside ASCII. */
  function PercentDecode(e: string): Option<seq<byte>> {
    if |e| == 0 then Some([])
    else if e[0] == '%' then
      if |e| < 3 then None
      else match (HexValue(e[1]), HexValue(e[2]), PercentDecode(e[3..]))
        case (Some(h), Some(l), Some(rest)) => Some([h * 16 + l] + rest)
        case _ => None
    else if e[0] as int < 128 then
      match PercentDecode(e[1..])
      case Some(rest) => Some([e[0] as int] + rest)
      case None => None
    else None
  }

  lemma HexValueOfDigit(d: int)
    requires 0 <= d < 16
    ensures HexValue(HexDigit(d)) == Some(d)
  {
  }

  /** One escape decodes to its byte. */
  lemma PercentDecodeByte(b: byte, rest: string)
    requires PercentDecode(rest).Some?
    ensures PercentDecode(PercentByte(b) + rest) == Some([b] + PercentDecode(rest).value)
  {
    var e := PercentByte(b) + rest;
    assert e[0] == '%' && e[1] == HexDigit(b / 16) && e[2] == HexDigit(b % 16);
    assert e[3..] == rest;
    HexValueOfDigit(b / 16);
    HexValueOfDigit(b % 16);
    assert b / 16 * 16 + b % 16 == b;
  }

  /** A run of escapes decodes to its bytes. */
  lemma {:induction false} PercentDecodeBytes(bs: seq<byte>, rest: string)
    requires PercentDecode(rest).Some?
    ensures PercentDecode(PercentBytes(bs) + rest) == Some(bs + PercentDecode(rest).value)
  {
    var v := PercentDecode(rest).value;
    if |bs| == 0 {
      assert PercentBytes(bs) + rest == rest;
      assert bs + v == v;
    } else {
      var tail := PercentBytes(bs[1..]) + rest;
      PercentDecodeBytes(bs[1..], rest);
      assert PercentBytes(bs) + rest == PercentByte(bs[0]) + tail;
      PercentDecodeByte(bs[0], tail);
      assert bs == [bs[0]] + bs[1..];
      assert [bs[0]] + (bs[1..] + v) == ([bs[0]] + bs[1..]) + v;
    }
  }

  /** Percent-decoding what `encodeURIComponent` wrote gives the UTF-8 bytes
      of the original text: the escaping loses nothing. */
  lemma {:induction false} EncodeUriComponentRoundTrip(s: string)
    ensures PercentDecode(EncodeUriComponent(s)) == Some(Utf8String(s))
  {
    if |s| > 0 {
      var c := s[0];
      var tail := EncodeUriComponent(s[1..]);
      EncodeUriComponentRoundTrip(s[1..]);
      if IsUnreserved(c) {
        assert ([c] + tail)[1..] == tail;
      } else {
        PercentDecodeBytes(Utf8(c), tail);
      }
    }
  }

  // ---------------------------------------------------------------------
  // buildProxyUrl
  // ---------------------------------------------------------------------

  /** `CONFIG.buildProxyUrl(path)`; a missing or empty path gives an empty
      `path` parameter. */
  function BuildProxyUrl(path: Option<string>): (url: string)
    ensures |url| >= |ProxyBase + "?path="| && url[..|ProxyBase + "?path="|] == ProxyBase + "?path="
    ensures path.None? || path == Some("") ==> url == ProxyBase + "?path="
  {
    ProxyBase + "?path=" + EncodeUriComponent(StripLeadingSlashes(path.GetOr("")))
  }

  /** Leading slashes make no difference: "/inventory/items" and
      "inventory/items" name the same URL. */
  lemma LeadingSlashIgnored(p: string)
    ensures BuildProxyUrl(Some("/" + p)) == BuildProxyUrl(Some(p))
  {
    assert ("/" + p)[1..] == p;
  }

  /** Characters that would end or split a query parameter's value, or start
      a new path segment. */
  predicate IsQueryDelimiter(c: char) {
    c == '?' || c == '&' || c == '#' || c == '=' || c == '/'
  }

  /** `url` is `prefix` followed by a single parameter value: no character
      after the prefix can end it, and it decodes to the UTF-8 bytes of `p`. */
  predicate CarriesParameter(url: string, prefix: string, p: string) {
    && |url| >= |prefix| && url[..|prefix|] == prefix
    && (forall i :: |prefix| <= i < |url| ==> !IsQueryDelimiter(url[i]))
    && PercentDecode(url[|prefix|..]) == Some(Utf8String(p))
  }

  /** After any base and `?path=`, the encoded value is a single parameter
      value that decodes to the UTF-8 bytes of the text. */
  lemma PathParameter(base: string, p: string)
    ensures CarriesParameter(base + "?path=" + EncodeUriComponent(p), base + "?path=", p)
  {
    var e := EncodeUriComponent(p);
    var url := base + "?path=" + e;
    var n := |base| + 6;
    assert url[..n] == base + "?path=";
    assert url[n..] == e;
    assert forall i :: 0 <= i < |e| ==> !IsQueryDelimiter(e[i]);
    EncodeUriComponentRoundTrip(p);
  }

  /** The URL is the proxy base, `?path=` and a value in which no `?`, `&`,
      `#`, `=` or `/` can end the parameter; that value decodes to the UTF-8
      bytes of the path with its leading slashes removed. */
  lemma ProxyUrlCarriesPath(path: Option<string>)
    ensures CarriesParameter(BuildProxyUrl(path), ProxyBase + "?path=", StripLeadingSlashes(path.GetOr("")))
  {
    PathParameter(ProxyBase, StripLeadingSlashes(path.GetOr("")));
  }
}
