/**
 * The encoding half of PKCE (RFC 7636): the code challenge is the SHA-256 digest of the
 * verifier, encoded with `Base64.strict_encode64`, mapped `+/` to `-_`, with its trailing
 * `=` padding removed, which is the "S256" method of section 4.2 of RFC 7636. The digest
 * itself, and the random bytes of the verifier, are inputs of the model.
 */
module Pkce {
  import opened Wrappers

  type Byte = x: int | 0 <= x < 256
  type Sextet = x: int | 0 <= x < 64

  /** The standard base64 alphabet of section 4 of RFC 4648. */
  function StdChar(k: Sextet): char {
    if k < 26 then (65 + k) as char
    else if k < 52 then (97 + k - 26) as char
    else if k < 62 then (48 + k - 52) as char
    else if k == 62 then '+'
    else '/'
  }

  /** The URL- and filename-safe alphabet of section 5 of RFC 4648. */
  function UrlChar(k: Sextet): char {
    if k < 62 then StdChar(k)
    else if k == 62 then '-'
    else '_'
  }

  predicate IsUrlSafe(c: char) {
    ('A' <= c <= 'Z') || ('a' <= c <= 'z') || ('0' <= c <= '9') || c == '-' || c == '_'
  }

  /** The 6-bit groups of the bytes, three bytes to four groups; a final partial group is zero-filled. */
  function Sextets(d: seq<Byte>): (r: seq<Sextet>)
    decreases |d|
  {
    if |d| == 0 then []
    else if |d| == 1 then [d[0] / 4, (d[0] % 4) * 16]
    else if |d| == 2 then [d[0] / 4, (d[0] % 4) * 16 + d[1] / 16, (d[1] % 16) * 4]
    else [d[0] / 4, (d[0] % 4) * 16 + d[1] / 16, (d[1] % 16) * 4 + d[2] / 64, d[2] % 64] + Sextets(d[3..])
  }

  function StdChars(ks: seq<Sextet>): (r: string)
    ensures |r| == |ks|
  {
    seq(|ks|, i requires 0 <= i < |ks| => StdChar(ks[i]))
  }

  function UrlChars(ks: seq<Sextet>): (r: string)
    ensures |r| == |ks|
  {
    seq(|ks|, i requires 0 <= i < |ks| => UrlChar(ks[i]))
  }

  /** The `=` characters that complete the last group of four. */
  function Padding(n: nat): string {
    if n % 3 == 1 then "==" else if n % 3 == 2 then "=" else ""
  }

  /** `Base64.strict_encode64`: standard alphabet, padded, no line breaks. */
  function StrictEncode64(d: seq<Byte>): string {
    StdChars(Sextets(d)) + Padding(|d|)
  }

  /** `tr('+/', '-_')`. */
  function Tr(s: string): (r: string)
    ensures |r| == |s|
    ensures forall i :: 0 <= i < |r| ==> r[i] != '+' && r[i] != '/'
    ensures forall i :: 0 <= i < |s| && s[i] == '+' ==> r[i] == '-'
    ensures forall i :: 0 <= i < |s| && s[i] == '/' ==> r[i] == '_'
    ensures forall i :: 0 <= i < |s| && s[i] != '+' && s[i] != '/' ==> r[i] == s[i]
  {
    seq(|s|, i requires 0 <= i < |s| => if s[i] == '+' then '-' else if s[i] == '/' then '_' else s[i])
  }

  /**
   * `gsub(/=+$/, '')` on a string without line breaks: the trailing run of `=` is
   * removed (`$` also matches before a line break, but base64 output has none).
   */
  function StripPadding(s: string): (r: string)
    decreases |s|
  {
    if |s| > 0 && s[|s| - 1] == '=' then StripPadding(s[..|s| - 1]) else s
  }

  /** `delete('=')`: every `=` removed. */
  function DeletePadding(s: string): (r: string)
    decreases |s|
  {
    if |s| == 0 then ""
    else if s[0] == '=' then DeletePadding(s[1..])
    else [s[0]] + DeletePadding(s[1..])
  }

  /** `generate_code_challenge` applied to the verifier's SHA-256 digest. */
  function CodeChallenge(digest: seq<Byte>): string {
    StripPadding(Tr(StrictEncode64(digest)))
  }

  /**
   * `generate_code_verifier`: `SecureRandom.urlsafe_base64(32)` over the given random
   * bytes (strict base64, `tr('+/', '-_')`, `delete('=')`), then `gsub(/=+$/, '')`.
   */
  function CodeVerifier(random: seq<Byte>): string {
    StripPadding(DeletePadding(Tr(StrictEncode64(random))))
  }

  /** Reference definition: unpadded base64url encoding (section 5 of RFC 4648, padding omitted). */
  function EncodeUrl(d: seq<Byte>): string {
    UrlChars(Sextets(d))
  }

  /** The inverse of `UrlChar`. */
  function UrlIndex(c: char): Option<Sextet> {
    if 'A' <= c <= 'Z' then Some(c as int - 65)
    else if 'a' <= c <= 'z' then Some(c as int - 97 + 26)
    else if '0' <= c <= '9' then Some(c as int - 48 + 52)
    else if c == '-' then Some(62)
    else if c == '_' then Some(63)
    else None
  }

  /** Decoding of unpadded base64url; None for a character outside the alphabet or a stray final character. */
  function DecodeUrl(s: string): Option<seq<Byte>>
    decreases |s|
  {
    if |s| == 0 then Some([])
    else if |s| == 1 then None
    else
      match (UrlIndex(s[0]), UrlIndex(s[1]))
      case (Some(a), Some(b)) =>
        if |s| == 2 then Some([a * 4 + b / 16])
        else
          (match UrlIndex(s[2])
           case None => None
           case Some(c) =>
             if |s| == 3 then Some([a * 4 + b / 16, (b % 16) * 16 + c / 4])
             else
               (match (UrlIndex(s[3]), DecodeUrl(s[4..]))
                case (Some(e), Some(rest)) => Some([a * 4 + b / 16, (b % 16) * 16 + c / 4, (c % 4) * 64 + e] + rest)
                case _ => None))
      case _ => None
  }

  // ---------------------------------------------------------------------------------------
  // Properties

  lemma {:induction false} SextetsLength(d: seq<Byte>)
    ensures |Sextets(d)| == (4 * |d| + 2) / 3
    decreases |d|
  {
    if |d| >= 3 {
      SextetsLength(d[3..]);
    }
  }

  lemma TrUrl(ks: seq<Sextet>)
    ensures Tr(StdChars(ks)) == UrlChars(ks)
  {
  }

  lemma {:induction false} StripPaddingAfterUrl(x: string, pad: string)
    requires forall i :: 0 <= i < |x| ==> IsUrlSafe(x[i])
    requires forall i :: 0 <= i < |pad| ==> pad[i] == '='
    ensures StripPadding(x + pad) == x
    decreases |pad|
  {
    if |pad| == 0 {
      assert x + pad == x;
      if |x| > 0 { assert IsUrlSafe(x[|x| - 1]); }
    } else {
      assert (x + pad)[..|x + pad| - 1] == x + pad[..|pad| - 1];
      StripPaddingAfterUrl(x, pad[..|pad| - 1]);
    }
  }

  lemma {:induction false} DeletePaddingAfterUrl(x: string, pad: string)
    requires forall i :: 0 <= i < |x| ==> IsUrlSafe(x[i])
    requires forall i :: 0 <= i < |pad| ==> pad[i] == '='
    ensures DeletePadding(x + pad) == x
    decreases |x| + |pad|
  {
    if |x| == 0 {
      if |pad| > 0 {
        assert (x + pad)[1..] == x + pad[1..];
        DeletePaddingAfterUrl(x, pad[1..]);
      } else {
        assert x + pad == "";
      }
    } else {
      assert IsUrlSafe(x[0]);
      assert (x + pad)[1..] == x[1..] + pad;
      DeletePaddingAfterUrl(x[1..], pad);
    }
  }

  lemma UrlCharsAreUrlSafe(ks: seq<Sextet>)
    ensures forall i :: 0 <= i < |UrlChars(ks)| ==> IsUrlSafe(UrlChars(ks)[i])
  {
  }

  lemma TrPaddedUrl(d: seq<Byte>)
    ensures Tr(StrictEncode64(d)) == EncodeUrl(d) + Padding(|d|)
  {
    var s, p := StdChars(Sextets(d)), Padding(|d|);
    TrUrl(Sextets(d));
    assert Tr(s + p) == Tr(s) + Tr(p);
  }

  /**
   * The challenge is the unpadded base64url encoding of the digest (the "S256"
   * transformation of section 4.2 of RFC 7636), and a verifier drawn from random bytes is
   * the same encoding of those bytes.
   */
  lemma ChallengeIsUnpaddedBase64Url(d: seq<Byte>)
    ensures CodeChallenge(d) == EncodeUrl(d)
    ensures CodeVerifier(d) == EncodeUrl(d)
  {
    TrPaddedUrl(d);
    UrlCharsAreUrlSafe(Sextets(d));
    StripPaddingAfterUrl(EncodeUrl(d), Padding(|d|));
    DeletePaddingAfterUrl(EncodeUrl(d), Padding(|d|));
    assert EncodeUrl(d) + "" == EncodeUrl(d);
    StripPaddingAfterUrl(EncodeUrl(d), "");
  }

  /**
   * A SHA-256 digest (32 bytes) gives a 43-character challenge, and 32 random bytes give a
   * 43-character verifier, both over the unreserved URL-safe characters that section 4.1 of
   * RFC 7636 permits, with no `=`.
   */
  lemma ChallengeShape(d: seq<Byte>)
    ensures |CodeChallenge(d)| == (4 * |d| + 2) / 3
    ensures forall i :: 0 <= i < |CodeChallenge(d)| ==> IsUrlSafe(CodeChallenge(d)[i])
    ensures |d| == 32 ==> |CodeChallenge(d)| == 43 && |CodeVerifier(d)| == 43
  {
    ChallengeIsUnpaddedBase64Url(d);
    SextetsLength(d);
    UrlCharsAreUrlSafe(Sextets(d));
  }

  lemma UrlIndexInverse(k: Sextet)
    ensures UrlIndex(UrlChar(k)) == Some(k)
  {
  }

  /** Regrouping three bytes' sextets gives the bytes back. */
  lemma BytesFromSextets(b0: Byte, b1: Byte, b2: Byte)
    ensures (b0 / 4) * 4 + ((b0 % 4) * 16 + b1 / 16) / 16 == b0
    ensures (((b0 % 4) * 16 + b1 / 16) % 16) * 16 + ((b1 % 16) * 4 + b2 / 64) / 4 == b1
    ensures (((b1 % 16) * 4 + b2 / 64) % 4) * 64 + b2 % 64 == b2
  {
  }

  lemma DecodeFullGroup(s: string, k0: Sextet, k1: Sextet, k2: Sextet, k3: Sextet)
    requires |s| >= 4
    requires UrlIndex(s[0]) == Some(k0) && UrlIndex(s[1]) == Some(k1)
    requires UrlIndex(s[2]) == Some(k2) && UrlIndex(s[3]) == Some(k3)
    ensures DecodeUrl(s[4..]).None? ==> DecodeUrl(s).None?
    ensures DecodeUrl(s[4..]).Some? ==>
      DecodeUrl(s) == Some([k0 * 4 + k1 / 16, (k1 % 16) * 16 + k2 / 4, (k2 % 4) * 64 + k3] + DecodeUrl(s[4..]).value)
  {
  }

  lemma DecodeEncodeOne(d: seq<Byte>)
    requires |d| == 1
    ensures DecodeUrl(EncodeUrl(d)) == Some(d)
  {
    var s, ks := EncodeUrl(d), Sextets(d);
    assert |s| == 2 && s[0] == UrlChar(ks[0]) && s[1] == UrlChar(ks[1]);
    UrlIndexInverse(ks[0]);
    UrlIndexInverse(ks[1]);
    BytesFromSextets(d[0], 0, 0);
    assert DecodeUrl(s) == Some([d[0]]);
    assert d == [d[0]];
  }

  lemma DecodeEncodeTwo(d: seq<Byte>)
    requires |d| == 2
    ensures DecodeUrl(EncodeUrl(d)) == Some(d)
  {
    var s, ks := EncodeUrl(d), Sextets(d);
    assert |s| == 3 && s[0] == UrlChar(ks[0]) && s[1] == UrlChar(ks[1]) && s[2] == UrlChar(ks[2]);
    UrlIndexInverse(ks[0]);
    UrlIndexInverse(ks[1]);
    UrlIndexInverse(ks[2]);
    BytesFromSextets(d[0], d[1], 0);
    assert DecodeUrl(s) == Some([d[0], d[1]]);
    assert d == [d[0], d[1]];
  }

  lemma UrlCharsConcat(a: seq<Sextet>, b: seq<Sextet>)
    ensures UrlChars(a + b) == UrlChars(a) + UrlChars(b)
  {
  }

  /** The first group of four characters of an encoding of three or more bytes. */
  lemma EncodeUrlGroup(d: seq<Byte>)
    requires |d| >= 3
    ensures var s := EncodeUrl(d);
      && |s| >= 4
      && s[0] == UrlChar(d[0] / 4)
      && s[1] == UrlChar((d[0] % 4) * 16 + d[1] / 16)
      && s[2] == UrlChar((d[1] % 16) * 4 + d[2] / 64)
      && s[3] == UrlChar(d[2] % 64)
      && s[4..] == EncodeUrl(d[3..])
  {
    var head: seq<Sextet> := [d[0] / 4, (d[0] % 4) * 16 + d[1] / 16, (d[1] % 16) * 4 + d[2] / 64, d[2] % 64];
    assert Sextets(d) == head + Sextets(d[3..]);
    UrlCharsConcat(head, Sextets(d[3..]));
  }

  /** Decoding undoes one group of three bytes, given that it undoes the rest. */
  lemma DecodeEncodeStep(d: seq<Byte>)
    requires |d| >= 3
    requires DecodeUrl(EncodeUrl(d[3..])) == Some(d[3..])
    ensures DecodeUrl(EncodeUrl(d)) == Some(d)
  {
    var k0: Sextet, k1: Sextet, k2: Sextet, k3: Sextet :=
      d[0] / 4, (d[0] % 4) * 16 + d[1] / 16, (d[1] % 16) * 4 + d[2] / 64, d[2] % 64;
    var s := EncodeUrl(d);
    EncodeUrlGroup(d);
    UrlIndexInverse(k0);
    UrlIndexInverse(k1);
    UrlIndexInverse(k2);
    UrlIndexInverse(k3);
    DecodeFullGroup(s, k0, k1, k2, k3);
    BytesFromSextets(d[0], d[1], d[2]);
    assert s[4..] == EncodeUrl(d[3..]);
    var group := [k0 * 4 + k1 / 16, (k1 % 16) * 16 + k2 / 4, (k2 % 4) * 64 + k3];
    assert group == [d[0], d[1], d[2]];
    assert DecodeUrl(s) == Some(group + d[3..]);
    assert d == [d[0], d[1], d[2]] + d[3..];
  }

  lemma {:induction false} DecodeEncode(d: seq<Byte>)
    ensures DecodeUrl(EncodeUrl(d)) == Some(d)
    decreases |d|
  {
    if |d| == 1 {
      DecodeEncodeOne(d);
    } else if |d| == 2 {
      DecodeEncodeTwo(d);
    } else if |d| >= 3 {
      DecodeEncode(d[3..]);
      DecodeEncodeStep(d);
    }
  }

  /** The challenge can be decoded back to the digest, so distinct digests give distinct challenges. */
  lemma ChallengeDecodesToDigest(d: seq<Byte>, e: seq<Byte>)
    ensures DecodeUrl(CodeChallenge(d)) == Some(d)
    ensures CodeChallenge(d) == CodeChallenge(e) ==> d == e
  {
    ChallengeIsUnpaddedBase64Url(d);
    ChallengeIsUnpaddedBase64Url(e);
    DecodeEncode(d);
    DecodeEncode(e);
  }
}
