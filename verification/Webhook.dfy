/** VerifyStandardWebhook: the signature scheme of the Standard Webhooks specification. */
module Webhook {
  import opened Wrappers
  import opened Text
  import opened Decimal
  import opened Base64
  import opened Session

  const PREFIX := "whsec_"
  const TOLERANCE := 300

  // ---- strings.Fields ----

  /** unicode.IsSpace. */
  predicate IsSpace(c: char) {
    var n := c as int;
    || 9 <= n <= 13 || n == 0x20 || n == 0x85 || n == 0xa0 || n == 0x1680 || 0x2000 <= n <= 0x200a
    || n == 0x2028 || n == 0x2029 || n == 0x202f || n == 0x205f || n == 0x3000
  }

  /** Among the ASCII characters these are spaces. */
  lemma AsciiSpaces(c: char)
    requires c as int < 128
    ensures IsSpace(c) <==> c in ['\t', '\n', 11 as char, 12 as char, '\r', ' ']
  {
  }

  /** s[a..b] is a nonempty stretch without spaces that cannot be extended. */
  predicate Word(s: string, a: int, b: int) {
    && 0 <= a < b <= |s|
    && (forall i | a <= i < b :: !IsSpace(s[i]))
    && (a == 0 || IsSpace(s[a - 1])) && (b == |s| || IsSpace(s[b]))
  }

  function WordEnd(s: string, i: nat): (j: nat)
    requires i <= |s|
    ensures i <= j <= |s| && (forall k | i <= k < j :: !IsSpace(s[k])) && (j == |s| || IsSpace(s[j]))
    decreases |s| - i
  {
    if i == |s| || IsSpace(s[i]) then i else WordEnd(s, i + 1)
  }

  function FieldsFrom(s: string, i: nat): seq<string>
    requires i <= |s|
    decreases |s| - i
  {
    if i == |s| then []
    else if IsSpace(s[i]) then FieldsFrom(s, i + 1)
    else [s[i..WordEnd(s, i)]] + FieldsFrom(s, WordEnd(s, i))
  }

  function Fields(s: string): seq<string> {
    FieldsFrom(s, 0)
  }

  ghost predicate HasWordFrom(s: string, i: nat, w: string) {
    exists a, b | i <= a && Word(s, a, b) :: s[a..b] == w
  }

  /** A word that starts in the stretch without spaces from i on is the whole of it. */
  lemma FirstWord(s: string, i: nat, w: string)
    requires i < |s| && !IsSpace(s[i]) && (i == 0 || IsSpace(s[i - 1]))
    ensures HasWordFrom(s, i, w) <==> w == s[i..WordEnd(s, i)] || HasWordFrom(s, WordEnd(s, i), w)
  {
  }

  lemma {:induction false} FieldsFromAreWords(s: string, i: nat, w: string)
    requires i <= |s| && (i == 0 || i == |s| || IsSpace(s[i - 1]) || IsSpace(s[i]))
    ensures w in FieldsFrom(s, i) <==> HasWordFrom(s, i, w)
    decreases |s| - i
  {
    if i == |s| {
    } else if IsSpace(s[i]) {
      FieldsFromAreWords(s, i + 1, w);
      assert forall b :: !Word(s, i, b);
      assert HasWordFrom(s, i, w) <==> HasWordFrom(s, i + 1, w);
    } else {
      FirstWord(s, i, w);
      FieldsFromAreWords(s, WordEnd(s, i), w);
    }
  }

  // ---- the time stamp ----

  /** The code's test, in 64-bit arithmetic. */
  predicate SkewAllowed(now: int, ts: int) {
    -TOLERANCE <= Wrap64(now - ts) <= TOLERANCE
  }

  /** It agrees with exact arithmetic on every time stamp exactly for these clock values. */
  lemma SkewIsExact(now: int)
    requires InInt64(now)
    ensures (forall ts | InInt64(ts) :: SkewAllowed(now, ts) <==> now - 300 <= ts <= now + 300)
       <==> INT64_MIN + 300 <= now <= INT64_MAX - 300
  {
    if now > INT64_MAX - TOLERANCE {
      assert InInt64(INT64_MIN) && SkewAllowed(now, INT64_MIN);
    }
    if now < INT64_MIN + TOLERANCE {
      assert InInt64(INT64_MAX) && SkewAllowed(now, INT64_MAX);
    }
  }

  // ---- the signature ----

  function Signed(id: Bytes, ts: Bytes, body: Bytes): Bytes {
    id + ['.'] + ts + ['.'] + body
  }

  /** The signed text fixes the body that follows an id and a time stamp, and all three
      where id and time stamp hold no dot. */
  lemma SignedFixesItsParts(id: Bytes, ts: Bytes, body: Bytes, id': Bytes, ts': Bytes, body': Bytes)
    requires Signed(id, ts, body) == Signed(id', ts', body')
    ensures id == id' && ts == ts' ==> body == body'
    ensures '.' !in id && '.' !in id' && '.' !in ts && '.' !in ts' ==> id == id' && ts == ts' && body == body'
  {
    var head, head' := id + ['.'] + ts + ['.'], id' + ['.'] + ts' + ['.'];
    assert Signed(id, ts, body)[|head|..] == body && Signed(id', ts', body')[|head'|..] == body';
    if '.' !in id && '.' !in id' && '.' !in ts && '.' !in ts' {
      SignedIsCut(id, ts, body);
      SignedIsCut(id', ts', body');
    }
  }

  lemma SignedIsCut(id: Bytes, ts: Bytes, body: Bytes)
    requires '.' !in id && '.' !in ts
    ensures Cut(Signed(id, ts, body), '.') == Some((id, ts + ['.'] + body))
    ensures Cut(ts + ['.'] + body, '.') == Some((ts, body))
  {
    assert Signed(id, ts, body) == id + ['.'] + (ts + ['.'] + body);
    CutJoined(id, '.', ts + ['.'] + body);
    CutJoined(ts, '.', body);
  }

  function Expected(mac: Mac, secret: Bytes, id: Bytes, ts: Bytes, body: Bytes): string {
    Encode(Std, mac(secret, Signed(id, ts, body)))
  }

  function Token(sig: string): string {
    "v1" + [','] + sig
  }

  /** One of the header's tokens carries the signature. */
  ghost predicate Carries(header: string, sig: string) {
    exists a, b | Word(header, a, b) :: header[a..b] == Token(sig)
  }

  /** The key in a secret: its text after the prefix, decoded. */
  function KeyOf(secret: string): Option<Bytes> {
    if PREFIX <= secret then Decode(Std, secret[|PREFIX|..]) else None
  }

  lemma KeyOfEncoded(key: Bytes)
    ensures KeyOf(PREFIX + Encode(Std, key)) == Some(key)
  {
    RoundTrip(Std, key);
    assert (PREFIX + Encode(Std, key))[|PREFIX|..] == Encode(Std, key);
  }

  ghost predicate HasToken(header: string, token: string) {
    exists a, b | Word(header, a, b) :: header[a..b] == token
  }

  /** The scheme: the secret is "whsec_" and a key in base 64, the time stamp a number
      at most five minutes off the clock, and one of the header's tokens is "v1," and
      the base 64 of the MAC of id, time stamp and body, joined by dots. */
  ghost predicate Accepts(mac: Mac, secret: string, id: Bytes, ts: Bytes, header: string, body: Bytes, now: int) {
    exists key, n ::
      && "whsec_" <= secret && Decode(Std, secret[6..]) == Some(key)
      && ParseInt(ts) == Some(n) && -300 <= Wrap64(now - n) <= 300
      && HasToken(header, "v1" + [','] + Encode(Std, mac(key, id + ['.'] + ts + ['.'] + body)))
  }

  lemma AcceptsByParts(mac: Mac, secret: string, id: Bytes, ts: Bytes, header: string, body: Bytes, now: int)
    ensures Accepts(mac, secret, id, ts, header, body, now)
       <==> && KeyOf(secret).Some? && ParseInt(ts).Some? && SkewAllowed(now, ParseInt(ts).value)
            && Carries(header, Expected(mac, KeyOf(secret).value, id, ts, body))
  {
    assert |PREFIX| == 6;
    if KeyOf(secret).Some? && ParseInt(ts).Some? {
      var key, n := KeyOf(secret).value, ParseInt(ts).value;
      assert Carries(header, Expected(mac, key, id, ts, body))
        <==> HasToken(header, "v1" + [','] + Encode(Std, mac(key, id + ['.'] + ts + ['.'] + body)));
    }
  }

  lemma CutToken(part: string, sig: string)
    ensures Cut(part, ',') == Some(("v1", sig)) <==> part == Token(sig)
  {
    CutJoined("v1", ',', sig);
  }

  /** The token loop. */
  method FindSignature(header: string, expected: string) returns (found: bool)
    ensures found <==> Carries(header, expected)
  {
    var parts := Fields(header);
    FieldsFromAreWords(header, 0, Token(expected));
    for k := 0 to |parts|
      invariant forall i | 0 <= i < k :: parts[i] != Token(expected)
    {
      CutToken(parts[k], expected);
      var cut := Cut(parts[k], ',');
      if cut.None? || cut.value.0 != "v1" {
        continue;
      }
      if cut.value.1 == expected {
        return true;
      }
    }
    return false;
  }

  /** The request is accepted exactly when the secret and the time stamp are well formed,
      the time stamp is near and some whitespace-separated token is v1, and the signature. */
  method VerifyStandardWebhook(mac: Mac, secret: string, id: Bytes, ts: Bytes, header: string, body: Bytes, now: int)
    returns (ok: bool)
    ensures ok <==> Accepts(mac, secret, id, ts, header, body, now)
  {
    AcceptsByParts(mac, secret, id, ts, header, body, now);
    var key := KeyOf(secret);
    if key.None? {
      return false;
    }
    var tsInt := ParseInt(ts);
    if tsInt.None? {
      return false;
    }
    var skew := Wrap64(now - tsInt.value);
    if skew > TOLERANCE || skew < -TOLERANCE {
      return false;
    }
    ok := FindSignature(header, Expected(mac, key.value, id, ts, body));
  }

  lemma SymbolIsNoSpace(c: char)
    ensures IsSymbol(Std, c) ==> !IsSpace(c)
  {
  }

  /** The encoded signature, and so the token, has no spaces. */
  lemma TokenHasNoSpace(s: Bytes)
    ensures forall c <- Token(Encode(Std, s)) :: !IsSpace(c)
  {
    EncodedSymbols(Std, s);
    forall c <- Encode(Std, s)
      ensures !IsSpace(c)
    {
      SymbolIsNoSpace(c);
    }
    assert forall c <- "v1" + [','] :: !IsSpace(c);
  }

  lemma CarriesToken(before: string, after: string, s: Bytes)
    requires before == "" || IsSpace(before[|before| - 1])
    requires after == "" || IsSpace(after[0])
    ensures Carries(before + Token(Encode(Std, s)) + after, Encode(Std, s))
  {
    var token := Token(Encode(Std, s));
    var header := before + token + after;
    TokenHasNoSpace(s);
    var a, b := |before|, |before| + |token|;
    assert header[a..b] == token;
    forall i | a <= i < b
      ensures !IsSpace(header[i])
    {
      assert header[i] == token[i - a] && token[i - a] in token;
    }
    assert Word(header, a, b);
  }

  lemma SkewDecides(mac: Mac, secret: string, id: Bytes, ts: int, header: string, body: Bytes, now: int)
    requires InInt64(ts) && INT64_MIN + 300 <= now <= INT64_MAX - 300
    requires KeyOf(secret).Some? && Carries(header, Expected(mac, KeyOf(secret).value, id, FormatInt(ts), body))
    ensures Accepts(mac, secret, id, FormatInt(ts), header, body, now) <==> now - 300 <= ts <= now + 300
  {
    ParseFormatted(ts);
    SkewIsExact(now);
    AcceptsByParts(mac, secret, id, FormatInt(ts), header, body, now);
  }

  /** What the sender signed is accepted whatever other tokens stand around it, within the tolerance exactly. */
  lemma SignedIsAccepted(mac: Mac, key: Bytes, id: Bytes, ts: int, before: string, after: string, body: Bytes, now: int)
    requires InInt64(ts) && INT64_MIN + 300 <= now <= INT64_MAX - 300
    requires before == "" || IsSpace(before[|before| - 1])
    requires after == "" || IsSpace(after[0])
    ensures var digest := mac(key, id + ['.'] + FormatInt(ts) + ['.'] + body);
            var header := before + ("v1" + [','] + Encode(Std, digest)) + after;
            Accepts(mac, "whsec_" + Encode(Std, key), id, FormatInt(ts), header, body, now)
            <==> now - 300 <= ts <= now + 300
  {
    KeyOfEncoded(key);
    var digest := mac(key, Signed(id, FormatInt(ts), body));
    CarriesToken(before, after, digest);
    SkewDecides(mac, PREFIX + Encode(Std, key), id, ts, before + Token(Encode(Std, digest)) + after, body, now);
  }
}
