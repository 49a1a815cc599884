/** Session tokens: NewSession and ParseSession. */
module Session {
  import opened Wrappers
  import opened Text
  import opened Decimal
  import opened Base64

  /** HMAC-SHA256 of a message under a key. */
  type Digest = d: Bytes | |d| == 32 witness seq(32, _ => '\0')
  type Mac = (Bytes, Bytes) -> Digest

  /** Seconds and nanoseconds since the epoch. */
  const SECOND := 1_000_000_000

  function UnixSeconds(nanos: int): int {
    nanos / SECOND
  }

  function SessionBody(email: Bytes, exp: int): Bytes {
    email + ['|'] + FormatInt(exp)
  }

  function Signature(mac: Mac, key: Bytes, body: Bytes): string {
    Encode(RawURL, mac(key, body))
  }

  function Token(mac: Mac, key: Bytes, body: Bytes): string {
    Encode(RawURL, body) + ['.'] + Signature(mac, key, body)
  }

  /** NewSession at `now`, both times in nanoseconds; only an empty email is an error. */
  function NewSession(mac: Mac, email: Bytes, key: Bytes, now: int, ttl: int): Option<string> {
    if email == "" then None else Some(Token(mac, key, SessionBody(email, UnixSeconds(now + ttl))))
  }

  /** ParseSession at `now` in seconds. */
  function ParseSession(mac: Mac, token: string, key: Bytes, now: int): Option<string> {
    match Cut(token, '.')
    case None => None
    case Some((encoded, sig)) =>
      match Decode(RawURL, encoded)
      case None => None
      case Some(body) =>
        if Signature(mac, key, body) != sig then None else ReadBody(body, now)
  }

  /** The signed text: an email up to the first bar, and an expiry that has not passed. */
  function ReadBody(body: Bytes, now: int): Option<string> {
    match Cut(body, '|')
    case None => None
    case Some((email, exp)) =>
      match ParseInt(exp)
      case None => None
      case Some(seconds) => if now > seconds then None else Some(email)
  }

  lemma BarIsNoNumber(s: string)
    requires '|' in s
    ensures ParseInt(s).None?
  {
  }

  lemma FormatHasNoBar(n: int)
    ensures '|' !in FormatInt(n)
  {
  }

  lemma BodyRoundTrip(email: Bytes, exp: int, now: int)
    requires InInt64(exp)
    ensures ReadBody(SessionBody(email, exp), now) == if '|' !in email && now <= exp then Some(email) else None
  {
    var body := SessionBody(email, exp);
    ParseFormatted(exp);
    match Cut(email, '|')
    case None =>
      CutJoined(email, '|', FormatInt(exp));
    case Some((a, b)) =>
      assert body == a + ['|'] + (b + ['|'] + FormatInt(exp));
      CutJoined(a, '|', b + ['|'] + FormatInt(exp));
      BarIsNoNumber(b + ['|'] + FormatInt(exp));
  }

  /** The signature check passes on what was signed, and the body comes back. */
  lemma TokenRoundTrip(mac: Mac, key: Bytes, body: Bytes, now: int)
    ensures ParseSession(mac, Token(mac, key, body), key, now) == ReadBody(body, now)
  {
    EncodedSymbols(RawURL, body);
    assert !IsSymbol(RawURL, '.');
    CutJoined(Encode(RawURL, body), '.', Signature(mac, key, body));
    RoundTrip(RawURL, body);
  }

  /** The token is the encodings of the email, a bar and the second it expires, and of that
      text's signature, with a dot between them. It gives the email back until then,
      exactly for the nonempty emails without a bar. */
  lemma SessionRoundTrip(mac: Mac, email: Bytes, key: Bytes, issued: int, ttl: int, now: int)
    requires InInt64(UnixSeconds(issued + ttl))
    ensures var token, exp := NewSession(mac, email, key, issued, ttl), (issued + ttl) / 1_000_000_000;
            var body := email + ['|'] + FormatInt(exp);
            && (token.None? <==> email == "")
            && (token.Some? ==>
                  && token.value == Encode(RawURL, body) + ['.'] + Encode(RawURL, mac(key, body))
                  && ParseSession(mac, token.value, key, now)
                     == if '|' !in email && now <= exp then Some(email) else None)
  {
    var exp := UnixSeconds(issued + ttl);
    TokenRoundTrip(mac, key, SessionBody(email, exp), now);
    BodyRoundTrip(email, exp, now);
  }

  /** The body says the email: it is the email, a bar and a number that has not passed. */
  predicate Says(body: Bytes, email: string, exp: string, now: int) {
    && '|' !in email && body == email + ['|'] + exp
    && ParseInt(exp).Some? && now <= ParseInt(exp).value
  }

  lemma ReadBodySays(body: Bytes, now: int, email: string)
    ensures ReadBody(body, now) == Some(email) <==> exists exp :: Says(body, email, exp, now)
  {
    if ReadBody(body, now) == Some(email) {
      assert Says(body, email, Cut(body, '|').value.1, now);
    }
    forall exp | Says(body, email, exp, now)
      ensures ReadBody(body, now) == Some(email)
    {
      CutJoined(email, '|', exp);
    }
  }

  /** The token is a text that decodes to a body, a dot and that body's signature. */
  predicate Carries(mac: Mac, key: Bytes, token: string, encoded: string, body: Bytes) {
    && '.' !in encoded && Decode(RawURL, encoded) == Some(body)
    && token == encoded + ['.'] + Encode(RawURL, mac(key, body))
  }

  /** A token is accepted for an email exactly when it carries, under its signature, that
      email, a bar and an unexpired number. Any text that decodes to the body will do for it. */
  lemma AcceptedTokens(mac: Mac, token: string, key: Bytes, now: int, email: string)
    ensures ParseSession(mac, token, key, now) == Some(email)
       <==> exists encoded, body, exp :: Carries(mac, key, token, encoded, body) && Says(body, email, exp, now)
  {
    if ParseSession(mac, token, key, now) == Some(email) {
      var (encoded, sig) := Cut(token, '.').value;
      var body := Decode(RawURL, encoded).value;
      ReadBodySays(body, now, email);
      assert Carries(mac, key, token, encoded, body);
    }
    forall encoded, body, exp | Carries(mac, key, token, encoded, body) && Says(body, email, exp, now)
      ensures ParseSession(mac, token, key, now) == Some(email)
    {
      CutJoined(encoded, '.', Signature(mac, key, body));
      ReadBodySays(body, now, email);
    }
  }
}
