/** Pair links: SignPairToken, VerifyPairToken and BuildPairLink. */
module Pairing {
  import opened Text
  import opened Decimal
  import opened Session

  datatype PairClaim = PairClaim(slug: Bytes, exp: int, token: string)

  function HexDigit(d: int): char
    requires 0 <= d < 16
  {
    if d < 10 then ('0' as int + d) as char else ('a' as int + d - 10) as char
  }

  function Hex(s: Bytes): string {
    if s == [] then "" else [HexDigit(s[0] as int / 16), HexDigit(s[0] as int % 16)] + Hex(s[1..])
  }

  /** The signed text. */
  function PairText(slug: Bytes, exp: int): Bytes {
    slug + ['|'] + FormatInt(exp)
  }

  function SignPairToken(mac: Mac, key: Bytes, slug: Bytes, exp: int): string {
    Hex(mac(key, PairText(slug, exp)))
  }

  /** VerifyPairToken at `now`, in seconds. */
  predicate VerifyPairToken(mac: Mac, key: Bytes, c: PairClaim, now: int) {
    c.token != "" && c.slug != "" && now <= c.exp && SignPairToken(mac, key, c.slug, c.exp) == c.token
  }

  /** No two claims sign the same text, even if a slug holds a bar. */
  lemma PairTextIsInjective(slug: Bytes, exp: int, slug': Bytes, exp': int)
    requires PairText(slug, exp) == PairText(slug', exp')
    ensures slug == slug' && exp == exp'
  {
    FormatHasNoBar(exp);
    FormatHasNoBar(exp');
    LastSeparator(slug, FormatInt(exp), slug', FormatInt(exp'), '|');
    FormatIsInjective(exp, exp');
  }

  lemma {:induction false} HexIsPlain(s: Bytes)
    ensures |Hex(s)| == 2 * |s|
    ensures forall c <- Hex(s) :: IsDigit(c) || 'a' <= c <= 'f'
  {
    if s != [] {
      HexIsPlain(s[1..]);
    }
  }

  /** What a digit 0-9 or a-f stands for. */
  function Nibble(c: char): int {
    if '0' <= c <= '9' then c as int - 48 else if 'a' <= c <= 'f' then c as int - 97 + 10 else -1
  }

  predicate IsOctet(high: char, low: char, v: int) {
    Nibble(high) >= 0 && Nibble(low) >= 0 && 16 * Nibble(high) + Nibble(low) == v
  }

  /** Each octet is two digits, the high one first. */
  predicate Spells(t: string, s: Bytes) {
    |t| == 2 * |s| && forall i | 0 <= i < |s| :: IsOctet(t[2 * i], t[2 * i + 1], s[i] as int)
  }

  lemma DigitsOfOctet(high: char, low: char, v: Octet)
    ensures IsOctet(high, low, v as int) <==> high == HexDigit(v as int / 16) && low == HexDigit(v as int % 16)
  {
  }

  lemma SpellsMore(t: string, s: Bytes)
    requires s != [] && |t| == 2 * |s|
    ensures Spells(t, s) <==> IsOctet(t[0], t[1], s[0] as int) && Spells(t[2..], s[1..])
  {
    forall i | 0 <= i < |s| - 1
      ensures t[2..][2 * i] == t[2 * (i + 1)] && t[2..][2 * i + 1] == t[2 * (i + 1) + 1] && s[1..][i] == s[i + 1]
    {
    }
    if Spells(t[2..], s[1..]) && IsOctet(t[0], t[1], s[0] as int) {
      forall i | 0 < i < |s|
        ensures IsOctet(t[2 * i], t[2 * i + 1], s[i] as int)
      {
        assert IsOctet(t[2..][2 * (i - 1)], t[2..][2 * (i - 1) + 1], s[1..][i - 1] as int);
      }
    }
    if Spells(t, s) {
      forall i | 0 <= i < |s| - 1
        ensures IsOctet(t[2..][2 * i], t[2..][2 * i + 1], s[1..][i] as int)
      {
        assert IsOctet(t[2 * (i + 1)], t[2 * (i + 1) + 1], s[i + 1] as int);
      }
    }
  }

  lemma {:induction false} HexSpells(s: Bytes, t: string)
    ensures t == Hex(s) <==> Spells(t, s)
  {
    if s != [] {
      HexIsPlain(s);
      if |t| == 2 * |s| {
        HexSpells(s[1..], t[2..]);
        SpellsMore(t, s);
        DigitsOfOctet(t[0], t[1], s[0]);
        assert t == [t[0], t[1]] + t[2..];
        assert Hex(s) == [Hex(s)[0], Hex(s)[1]] + Hex(s[1..]);
      }
    }
  }

  /** A claim is good exactly if it names a slug, has not expired, and its token spells in
      64 hexadecimal digits the MAC of slug, bar and expiry. */
  lemma VerifiedIffSigned(mac: Mac, key: Bytes, c: PairClaim, now: int)
    ensures VerifyPairToken(mac, key, c, now)
       <==> && c.slug != "" && now <= c.exp && |c.token| == 64
            && Spells(c.token, mac(key, c.slug + ['|'] + FormatInt(c.exp)))
  {
    HexSpells(mac(key, PairText(c.slug, c.exp)), c.token);
  }

  // ---- expiry ----

  const DEFAULT_TTL := 86400

  function EffectiveTTL(ttl: int): int {
    if ttl <= 0 then DEFAULT_TTL else ttl
  }

  /** time.Duration(ttl) * time.Second is a product of 64-bit integers. */
  function LinkExpiry(ttl: int, nanos: int): int {
    UnixSeconds(nanos + Wrap64(EffectiveTTL(ttl) * SECOND))
  }

  /** A link expires its lifetime after it is built exactly when that lifetime in
      nanoseconds fits in 64 bits: longer ones wrap around. */
  lemma ExpiryIsExact(ttl: int, nanos: int)
    requires InInt64(ttl)
    ensures LinkExpiry(ttl, nanos) == nanos / 1_000_000_000 + (if ttl <= 0 then 86_400 else ttl)
       <==> ttl <= 9_223_372_036
  {
  }

  // ---- the link ----

  function TrimRightSlashes(s: string): string {
    if s != "" && s[|s| - 1] == '/' then TrimRightSlashes(s[..|s| - 1]) else s
  }

  /** Only slashes are cut off, and all of them. */
  lemma {:induction false} Trimmed(s: string) returns (slashes: string)
    ensures s == TrimRightSlashes(s) + slashes && forall c <- slashes :: c == '/'
    ensures forall t, c :: TrimRightSlashes(s) == t + [c] ==> c != '/'
  {
    slashes := "";
    if s != "" && s[|s| - 1] == '/' {
      var before := Trimmed(s[..|s| - 1]);
      slashes := before + ['/'];
      assert s == s[..|s| - 1] + ['/'];
    } else {
      assert forall t, c :: s == t + [c] ==> s[|s| - 1] == c;
    }
  }

  function BuildPairLink(mac: Mac, key: Bytes, base: string, slug: Bytes, ttl: int, nanos: int): string {
    var exp := LinkExpiry(ttl, nanos);
    TrimRightSlashes(base) + "/pair" + ['/'] + slug + ['?']
    + Query(SignPairToken(mac, key, slug, exp), FormatInt(exp))
  }

  function Param(name: string, value: string): string {
    name + ['='] + value
  }

  function Query(token: string, exp: string): string {
    Param("t", token) + ['&'] + Param("exp", exp)
  }

  /** url.Values.Get, for values without escapes. */
  function QueryGet(params: seq<string>, name: string): string {
    if params == [] then ""
    else
      match Cut(params[0], '=')
      case Some((k, v)) => if k == name then v else QueryGet(params[1..], name)
      case None => QueryGet(params[1..], name)
  }

  /** What follows the last slash. */
  function LastSegment(path: string): string
    decreases |path|
  {
    match Cut(path, '/')
    case None => path
    case Some((_, rest)) => LastSegment(rest)
  }

  /** claimFromRequest: slug, expiry and token as the router and net/url read them.
      ParseInt's error is ignored, so its value counts in any case. */
  function ClaimFromLink(link: string): (string, int, string) {
    match Cut(link, '?')
    case None => (LastSegment(link), 0, "")
    case Some((path, query)) =>
      var params := Split(query, '&');
      (LastSegment(path), ParsedAnyway(QueryGet(params, "exp")), QueryGet(params, "t"))
  }

  /** The characters the slug column admits: none of them means anything in a URL. */
  predicate IsPlainSlug(slug: string) {
    forall c <- slug :: IsDigit(c) || 'a' <= c <= 'z' || c == '-'
  }

  lemma {:induction false} LastSegmentOf(before: string, slug: string)
    requires '/' !in slug
    ensures LastSegment(before + ['/'] + slug) == slug && LastSegment(slug) == slug
    decreases |before|
  {
    var path := before + ['/'] + slug;
    match Cut(before, '/')
    case None =>
      CutJoined(before, '/', slug);
    case Some((a, b)) =>
      assert path == a + ['/'] + (b + ['/'] + slug);
      CutJoined(a, '/', b + ['/'] + slug);
      LastSegmentOf(b, slug);
  }

  lemma ReadParam(name: string, value: string, rest: seq<string>, other: string)
    requires '=' !in name
    ensures QueryGet([Param(name, value)] + rest, name) == value
    ensures other != name ==> QueryGet([Param(name, value)] + rest, other) == QueryGet(rest, other)
  {
    CutJoined(name, '=', value);
    assert ([Param(name, value)] + rest)[1..] == rest;
  }

  lemma ReadQuery(token: string, exp: string)
    requires '&' !in token && '&' !in exp
    ensures var params := Split(Query(token, exp), '&');
            QueryGet(params, "t") == token && QueryGet(params, "exp") == exp
  {
    var p, q := Param("t", token), Param("exp", exp);
    SplitJoined(p, '&', q);
    SplitJoined(q, '&', "");
    ReadParam("t", token, [q], "exp");
    ReadParam("exp", exp, [], "exp");
    assert [q] + [] == [q];
  }

  lemma PathHasNoQuery(base: string, slug: string)
    requires '?' !in base && IsPlainSlug(slug)
    ensures '?' !in base + "/pair" + ['/'] + slug
    ensures LastSegment(base + "/pair" + ['/'] + slug) == slug
  {
    LastSegmentOf(base + "/pair", slug);
  }

  /** What a link's path and query say. */
  lemma ReadLink(path: string, slug: string, token: string, exp: string)
    requires '?' !in path && LastSegment(path) == slug && '&' !in token && '&' !in exp
    ensures ClaimFromLink(path + ['?'] + Query(token, exp)) == (slug, ParsedAnyway(exp), token)
  {
    CutJoined(path, '?', Query(token, exp));
    ReadQuery(token, exp);
  }

  lemma ReadExpiry(n: int)
    requires InInt64(n)
    ensures ParsedAnyway(FormatInt(n)) == n
  {
    ParseFormatted(n);
    ParsedAnywayAgrees(FormatInt(n));
  }

  /** The link in full. */
  lemma LinkText(mac: Mac, key: Bytes, base: string, slug: Bytes, ttl: int, nanos: int)
    ensures var exp := LinkExpiry(ttl, nanos);
            var token := Hex(mac(key, slug + ['|'] + FormatInt(exp)));
            BuildPairLink(mac, key, base, slug, ttl, nanos)
            == TrimRightSlashes(base) + "/pair/" + slug + ['?', 't', '='] + token
               + ['&', 'e', 'x', 'p', '='] + FormatInt(exp)
  {
    var exp := LinkExpiry(ttl, nanos);
    var token, path := SignPairToken(mac, key, slug, exp), TrimRightSlashes(base) + "/pair/" + slug;
    assert "/pair" + ['/'] == "/pair/";
    Regroup(TrimRightSlashes(base), "/pair", ['/']);
    assert Query(token, FormatInt(exp)) == ['t', '='] + token + ['&', 'e', 'x', 'p', '='] + FormatInt(exp);
    assert ['?', 't', '='] == ['?'] + ['t', '='];
    var tail := ['&', 'e', 'x', 'p', '='] + FormatInt(exp);
    assert path + ['?'] + (['t', '='] + token + tail) == path + ['?', 't', '='] + token + tail;
  }

  /** The claim read from a link is the one it was built for, and it verifies until
      the link expires, exactly. */
  lemma LinkRoundTrip(mac: Mac, key: Bytes, base: string, slug: Bytes, ttl: int, nanos: int, now: int)
    requires '?' !in TrimRightSlashes(base) && '#' !in base && IsPlainSlug(slug)
    requires InInt64(LinkExpiry(ttl, nanos))
    ensures var exp, token := LinkExpiry(ttl, nanos), SignPairToken(mac, key, slug, LinkExpiry(ttl, nanos));
            && ClaimFromLink(BuildPairLink(mac, key, base, slug, ttl, nanos)) == (slug, exp, token)
            && (VerifyPairToken(mac, key, PairClaim(slug, exp, token), now) <==> slug != "" && now <= exp)
  {
    var exp := LinkExpiry(ttl, nanos);
    HexIsPlain(mac(key, PairText(slug, exp)));
    FormatHasNoAmpersand(exp);
    PathHasNoQuery(TrimRightSlashes(base), slug);
    ReadLink(TrimRightSlashes(base) + "/pair" + ['/'] + slug, slug,
             SignPairToken(mac, key, slug, exp), FormatInt(exp));
    ReadExpiry(exp);
  }

  lemma FormatHasNoAmpersand(n: int)
    ensures '&' !in FormatInt(n)
  {
  }
}
