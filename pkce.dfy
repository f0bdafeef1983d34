/** The pure parts of the PKCE helpers of `AuthService` (src/services/auth.js):
    the two character sets, the string a run of `Math.random()` results selects
    from a character set, and the base64 to base64url post-processing of the code
    challenge (section 5 of RFC 4648, Appendix A of RFC 7636). SHA-256 and `btoa`
    are not modelled; the challenge is computed from their combined output. */
module Pkce {

  const Upper := "ABCDEFGHIJKLMNOPQRSTUVWXYZ"
  const Lower := "abcdefghijklmnopqrstuvwxyz"
  const Digits := "0123456789"

  /** The character set of `generateCodeVerifier`, written as its four runs. */
  const VerifierCharset := Upper + Lower + Digits + "-._~"
  /** The character set of `generateState`. */
  const StateCharset := Upper + Lower + Digits

  const VerifierLength := 128
  const StateLength := 32

  /** `unreserved` of section 4.1 of RFC 7636: ALPHA / DIGIT / "-" / "." / "_" / "~". */
  predicate Unreserved(c: char) {
    Alphanumeric(c) || c == '-' || c == '.' || c == '_' || c == '~'
  }

  predicate Alphanumeric(c: char) {
    'A' <= c <= 'Z' || 'a' <= c <= 'z' || '0' <= c <= '9'
  }

  lemma RunsAreAlphanumeric()
    ensures |Upper| == 26 && |Lower| == 26 && |Digits| == 10
    ensures forall i :: 0 <= i < 26 ==> Alphanumeric(Upper[i]) && Alphanumeric(Lower[i])
    ensures forall i :: 0 <= i < 10 ==> Alphanumeric(Digits[i])
  {
  }

  lemma StateCharsetAlphanumeric()
    ensures |StateCharset| == 62
    ensures forall i :: 0 <= i < |StateCharset| ==> Alphanumeric(StateCharset[i])
  {
    RunsAreAlphanumeric();
    forall i | 0 <= i < |StateCharset| ensures Alphanumeric(StateCharset[i]) {
      if i < 26 {
        assert StateCharset[i] == Upper[i];
      } else if i < 52 {
        assert StateCharset[i] == Lower[i - 26];
      } else {
        assert StateCharset[i] == Digits[i - 52];
      }
    }
  }

  lemma VerifierCharsetUnreserved()
    ensures |VerifierCharset| == 66
    ensures forall i :: 0 <= i < |VerifierCharset| ==> Unreserved(VerifierCharset[i])
  {
    StateCharsetAlphanumeric();
    assert VerifierCharset == StateCharset + "-._~";
    forall i | 0 <= i < |VerifierCharset| ensures Unreserved(VerifierCharset[i]) {
      if i < 62 {
        assert VerifierCharset[i] == StateCharset[i];
      }
    }
  }

  /** What `Math.random()` may return: a number in [0, 1). */
  ghost predicate IsRandomSource(random: nat -> real) {
    forall k :: 0.0 <= random(k) < 1.0
  }

  lemma ScaledIndex(x: real, n: nat)
    requires 0.0 <= x < 1.0 && n > 0
    ensures 0 <= (x * n as real).Floor < n
  {
    assert x * n as real < n as real by {
      assert (1.0 - x) * (n as real) > 0.0;
    }
  }

  /** `charset.charAt(Math.floor(x * charset.length))` for one random number `x`. */
  function Pick(charset: string, x: real): (c: char)
    requires |charset| > 0 && 0.0 <= x < 1.0
    ensures c in charset
  {
    ScaledIndex(x, |charset|);
    charset[(x * |charset| as real).Floor]
  }

  /** The `n` characters selected by the random numbers `random(from)`, ...,
      `random(from + n - 1)`, in that order. */
  function RandomText(charset: string, random: nat -> real, from: nat, n: nat): (s: string)
    requires |charset| > 0 && IsRandomSource(random)
    ensures |s| == n
    ensures forall i :: 0 <= i < n ==> s[i] == Pick(charset, random(from + i))
  {
    if n == 0 then "" else RandomText(charset, random, from, n - 1) + [Pick(charset, random(from + n - 1))]
  }

  /** The counted loop shared by `generateCodeVerifier` and `generateState`:
      `n` times, append the character the next random number selects. */
  method BuildRandomText(charset: string, random: nat -> real, from: nat, n: nat) returns (s: string)
    requires |charset| > 0 && IsRandomSource(random)
    ensures s == RandomText(charset, random, from, n)
  {
    s := "";
    for i := 0 to n
      invariant s == RandomText(charset, random, from, i)
    {
      s := s + [Pick(charset, random(from + i))];
    }
  }

  /** A generated verifier is 128 unreserved characters, within the 43 to 128
      allowed by section 4.1 of RFC 7636. */
  lemma {:induction false} VerifierWellFormed(random: nat -> real, from: nat)
    requires IsRandomSource(random)
    ensures var v := RandomText(VerifierCharset, random, from, VerifierLength);
      43 <= |v| <= 128 && |v| == 128 && forall i :: 0 <= i < |v| ==> Unreserved(v[i])
  {
    VerifierCharsetUnreserved();
    var v := RandomText(VerifierCharset, random, from, VerifierLength);
    forall i | 0 <= i < |v| ensures Unreserved(v[i]) {
      var c := v[i];
      assert c in VerifierCharset;
      var k :| 0 <= k < |VerifierCharset| && VerifierCharset[k] == c;
    }
  }

  /** A generated state is 32 alphanumeric characters. */
  lemma {:induction false} StateWellFormed(random: nat -> real, from: nat)
    requires IsRandomSource(random)
    ensures var st := RandomText(StateCharset, random, from, StateLength);
      |st| == 32 && forall i :: 0 <= i < |st| ==> Alphanumeric(st[i])
  {
    StateCharsetAlphanumeric();
    var st := RandomText(StateCharset, random, from, StateLength);
    forall i | 0 <= i < |st| ensures Alphanumeric(st[i]) {
      var c := st[i];
      assert c in StateCharset;
      var k :| 0 <= k < |StateCharset| && StateCharset[k] == c;
    }
  }

  // ---- base64url (the `.replace` chain of generateCodeChallenge) ----

  /** `s.replace(/from/g, to)` for a single character `from`. */
  function ReplaceAll(s: string, from: char, to: char): (r: string)
    ensures |r| == |s|
    ensures forall i :: 0 <= i < |s| ==> r[i] == (if s[i] == from then to else s[i])
  {
    if s == [] then [] else [if s[0] == from then to else s[0]] + ReplaceAll(s[1..], from, to)
  }

  /** `s.replace(/c/g, '')`. */
  function RemoveAll(s: string, c: char): (r: string)
    ensures |r| <= |s|
    ensures forall i :: 0 <= i < |r| ==> r[i] != c
    ensures forall x :: x in r ==> x in s
  {
    if s == [] then [] else (if s[0] == c then [] else [s[0]]) + RemoveAll(s[1..], c)
  }

  /** The three replacements applied to the base64 text of the digest. */
  function Base64Url(b64: string): (u: string)
    ensures forall i :: 0 <= i < |u| ==> u[i] != '+' && u[i] != '/' && u[i] != '='
  {
    var s2 := ReplaceAll(ReplaceAll(b64, '+', '-'), '/', '_');
    assert '+' !in s2 && '/' !in s2 by {
      assert forall j :: 0 <= j < |s2| ==> s2[j] != '+' && s2[j] != '/';
    }
    RemoveAll(s2, '=')
  }

  /** `generateCodeChallenge`: base64url of SHA-256 of the verifier, where
      `sha256Base64` stands for `btoa` of the SHA-256 digest of the UTF-8 bytes. */
  function CodeChallenge(sha256Base64: string -> string, verifier: string): (ch: string)
    ensures forall i :: 0 <= i < |ch| ==> ch[i] != '+' && ch[i] != '/' && ch[i] != '='
  {
    Base64Url(sha256Base64(verifier))
  }

  lemma ReplaceAbsent(s: string, from: char, to: char)
    requires from !in s
    ensures ReplaceAll(s, from, to) == s
  {
    var r := ReplaceAll(s, from, to);
    forall i | 0 <= i < |s| ensures r[i] == s[i] {
      assert s[i] in s;
    }
  }

  lemma {:induction false} RemoveAbsent(s: string, c: char)
    requires c !in s
    ensures RemoveAll(s, c) == s
  {
    if s != [] {
      RemoveAbsent(s[1..], c);
      assert s == [s[0]] + s[1..];
    }
  }

  /** The post-processing is idempotent: a base64url string passes through unchanged. */
  lemma Base64UrlIdempotent(b64: string)
    ensures Base64Url(Base64Url(b64)) == Base64Url(b64)
  {
    var u := Base64Url(b64);
    assert '+' !in u && '/' !in u && '=' !in u;
    ReplaceAbsent(u, '+', '-');
    ReplaceAbsent(u, '/', '_');
    RemoveAbsent(u, '=');
  }

  // ---- the inverse direction, for the round-trip property ----

  /** The characters of the base64 alphabet (section 4 of RFC 4648). */
  predicate Base64Char(c: char) {
    Alphanumeric(c) || c == '+' || c == '/'
  }

  function Padding(p: nat): string {
    seq(p, _ => '=')
  }

  /** Appendix A of RFC 7636 read backwards: undo the two substitutions and pad
      to a multiple of four characters. */
  function FromBase64Url(u: string): (b64: string)
    ensures |b64| % 4 == 0
  {
    var t := ReplaceAll(ReplaceAll(u, '-', '+'), '_', '/');
    var n := |t|;
    t + Padding(if n % 4 == 0 then 0 else 4 - n % 4)
  }

  lemma {:induction false} RemoveAllAppend(a: string, b: string, c: char)
    ensures RemoveAll(a + b, c) == RemoveAll(a, c) + RemoveAll(b, c)
  {
    if a == [] {
      assert a + b == b;
    } else {
      assert (a + b)[0] == a[0];
      assert (a + b)[1..] == a[1..] + b;
      RemoveAllAppend(a[1..], b, c);
    }
  }

  lemma {:induction false} RemoveAllOnly(s: string, c: char)
    requires forall i :: 0 <= i < |s| ==> s[i] == c
    ensures RemoveAll(s, c) == []
  {
    if s != [] {
      RemoveAllOnly(s[1..], c);
    }
  }

  /** On canonical base64, the transform only substitutes and drops the padding. */
  lemma {:induction false} Base64UrlOfPadded(body: string, p: nat)
    requires forall i :: 0 <= i < |body| ==> Base64Char(body[i])
    ensures Base64Url(body + Padding(p)) == ReplaceAll(ReplaceAll(body, '+', '-'), '/', '_')
  {
    var pad := Padding(p);
    var s := body + pad;
    var s2 := ReplaceAll(ReplaceAll(s, '+', '-'), '/', '_');
    var m := ReplaceAll(ReplaceAll(body, '+', '-'), '/', '_');
    assert s2 == m + pad by {
      assert |s2| == |m + pad|;
      forall i | 0 <= i < |s2| ensures s2[i] == (m + pad)[i] {
        if i < |body| {
          assert s[i] == body[i];
        } else {
          assert s[i] == pad[i - |body|];
        }
      }
    }
    assert forall i :: 0 <= i < |m| ==> m[i] != '=' by {
      forall i | 0 <= i < |m| ensures m[i] != '=' {
        assert Base64Char(body[i]);
      }
    }
    RemoveAllAppend(m, pad, '=');
    RemoveAbsent(m, '=');
    RemoveAllOnly(pad, '=');
  }

  /** Undoing the two substitutions restores a text over the base64 alphabet. */
  lemma {:induction false} UndoSubstitutions(body: string)
    requires forall i :: 0 <= i < |body| ==> Base64Char(body[i])
    ensures ReplaceAll(ReplaceAll(ReplaceAll(ReplaceAll(body, '+', '-'), '/', '_'), '-', '+'), '_', '/') == body
  {
    var t := ReplaceAll(ReplaceAll(ReplaceAll(ReplaceAll(body, '+', '-'), '/', '_'), '-', '+'), '_', '/');
    assert |t| == |body|;
    forall i | 0 <= i < |body| ensures t[i] == body[i] {
      assert Base64Char(body[i]);
    }
  }

  /** The padding `FromBase64Url` adds back is the padding that was dropped. */
  lemma PaddingAmount(n: nat, p: nat)
    requires p <= 2 && (n + p) % 4 == 0
    ensures (if n % 4 == 0 then 0 else 4 - n % 4) == p
  {
  }

  /** No information is lost: for a canonical base64 text (alphabet characters
      followed by at most two '=' to a multiple of four), undoing the base64url
      transform gives back the original text. */
  lemma {:induction false} Base64UrlRoundTrip(body: string, p: nat)
    requires p <= 2 && (|body| + p) % 4 == 0
    requires forall i :: 0 <= i < |body| ==> Base64Char(body[i])
    ensures FromBase64Url(Base64Url(body + Padding(p))) == body + Padding(p)
  {
    var u := Base64Url(body + Padding(p));
    Base64UrlOfPadded(body, p);
    assert u == ReplaceAll(ReplaceAll(body, '+', '-'), '/', '_');
    var t := ReplaceAll(ReplaceAll(u, '-', '+'), '_', '/');
    UndoSubstitutions(body);
    assert t == body;
    PaddingAmount(|body|, p);
  }
}
