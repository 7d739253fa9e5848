/** The client-side JWT payload decoder of the session hook: the middle part of
    a compact token (section 7.1 of RFC 7515) is turned from base64url into
    padded standard base 64 (sections 4 and 5 of RFC 4648), decoded with
    `atob` and parsed as JSON. The signature is not checked. */
module Jwt {
  import opened Wrappers
  import opened JsText
  import opened Json
  import opened Base64

  /** `s.replace(/-/g, "+").replace(/_/g, "/")`. */
  function ToStandardAlphabet(s: string): (r: string)
    ensures |r| == |s|
    ensures forall i :: 0 <= i < |s| ==>
              r[i] == (if s[i] == '-' then '+' else if s[i] == '_' then '/' else s[i])
  {
    seq(|s|, i requires 0 <= i < |s| => if s[i] == '-' then '+' else if s[i] == '_' then '/' else s[i])
  }

  /** `s` followed by the fewest `=` that make its length a multiple of four. */
  function Padded(s: string): (r: string)
    ensures |r| % 4 == 0 && |s| <= |r| < |s| + 4 && r[..|s|] == s
    ensures forall i :: |s| <= i < |r| ==> r[i] == '='
  {
    s + Pad(PadCount(|s|))
  }

  /** `while (payload.length % 4) payload += "="`. */
  method PadBase64(s: string) returns (r: string)
    ensures r == Padded(s)
  {
    r := s;
    while |r| % 4 != 0
      invariant |s| <= |r| <= |s| + PadCount(|s|)
      invariant r == s + Pad(|r| - |s|)
      decreases |s| + PadCount(|s|) - |r|
    {
      r := r + "=";
    }
  }

  /** The text handed to `atob`: the middle part in the standard alphabet,
      padded. */
  function StandardPayloadText(part: string): string {
    Padded(ToStandardAlphabet(part))
  }

  /** The text handed to `atob` has no URL-safe characters left, keeps every
      other character of the part at its place and ends in padding only. */
  lemma StandardPayloadTextShape(part: string)
    ensures var r := StandardPayloadText(part);
            && |r| % 4 == 0 && |part| <= |r| < |part| + 4
            && (forall i :: 0 <= i < |r| ==> r[i] != '-' && r[i] != '_')
            && (forall i :: 0 <= i < |part| && part[i] != '-' && part[i] != '_' ==> r[i] == part[i])
            && (forall i :: |part| <= i < |r| ==> r[i] == '=')
  {
    var t := ToStandardAlphabet(part);
    var r := Padded(t);
    forall i | 0 <= i < |part|
      ensures r[i] == t[i]
    {
      assert r[..|t|][i] == t[i];
    }
  }

  /** `decodeJWTPayload(token)`: None where the decoder returns null, that is
      for an empty token, a token without exactly three `.`-separated parts,
      a middle part `atob` rejects or a text `JSON.parse` rejects. */
  function JwtPayload(token: string, parse: string -> Option<Json>): (r: Option<Json>)
    ensures r.Some? ==> token != "" && multiset(token)['.'] == 2
    ensures r.Some? ==> exists text :: parse(text) == r
  {
    if token == "" then None
    else
      var parts := Split(token, '.');
      SplitCount(token, '.');
      if |parts| != 3 then None
      else
        match Atob(StandardPayloadText(parts[1]))
        case None => None
        case Some(text) => parse(text)
  }

  /** The decoder as the source runs it, with its padding loop. */
  method DecodeJwtPayload(token: string, parse: string -> Option<Json>) returns (r: Option<Json>)
    ensures r == JwtPayload(token, parse)
  {
    if token == "" {
      return None;
    }
    var parts := Split(token, '.');
    if |parts| != 3 {
      return None;
    }
    var payload := PadBase64(ToStandardAlphabet(parts[1]));
    var decoded := Atob(payload);
    if decoded.None? {
      return None;
    }
    r := parse(decoded.value);
  }

  /** A payload is only ever read from a token with exactly two dots. */
  lemma PayloadNeedsTwoDots(token: string, parse: string -> Option<Json>)
    requires JwtPayload(token, parse).Some?
    ensures multiset(token)['.'] == 2
  {
    SplitCount(token, '.');
  }

  /** Replacing the URL-safe characters of base64url text gives the standard
      text of the same bytes. */
  lemma StandardOfUrl(b: seq<byte>)
    ensures ToStandardAlphabet(EncodeUrl(b)) == EncodeStd(b)
  {
    var u := EncodeUrl(b);
    var q := Sextets(b);
    forall i | 0 <= i < |u|
      ensures ToStandardAlphabet(u)[i] == EncodeStd(b)[i]
    {
      assert u[i] == UrlCharOf(q[i]);
    }
  }

  /** Decoding a token whose middle part is the base64url text of some bytes
      parses exactly those bytes, whatever the header and signature are. */
  lemma PayloadOfEncodedToken(header: string, body: seq<byte>, signature: string, parse: string -> Option<Json>)
    requires '.' !in header && '.' !in signature
    ensures JwtPayload(header + "." + EncodeUrl(body) + "." + signature, parse) == parse(Latin1(body))
  {
    var u := EncodeUrl(body);
    var token := header + "." + u + "." + signature;
    assert '.' !in u by {
      forall i | 0 <= i < |u| ensures u[i] != '.' { }
    }
    ThreeParts(header, u, signature);
    StandardOfUrl(body);
    AtobOfEncodeStd(body);
    var e := EncodeStd(body);
    assert StandardPayloadText(u) == e + Pad(PadCount(|e|));
    assert Atob(StandardPayloadText(u)) == Some(Latin1(body));
  }

  /** Three dot-free parts joined by dots split back into those parts. */
  lemma ThreeParts(header: string, u: string, signature: string)
    requires '.' !in header && '.' !in u && '.' !in signature
    ensures var token := header + "." + u + "." + signature;
            token != "" && Split(token, '.') == [header, u, signature]
  {
    var token := header + "." + u + "." + signature;
    assert token == header + ['.'] + (u + ['.'] + signature);
    SplitAt(header, u + ['.'] + signature, '.');
    SplitAt(u, signature, '.');
    SplitWithout(signature, '.');
    assert token[|header|] == '.';
  }
}
