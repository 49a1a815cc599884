/** Argon2id hashes in the PHC string format: formatPHC, parsePHC and VerifyPassword. */
module Password {
  import opened Wrappers
  import opened Text
  import opened Base64

  /** argon2.IDKey with the constants of password.go. */
  type Argon = (Bytes, Bytes) -> Bytes

  const ALGORITHM := "argon2id"
  const VERSION := "v=19"
  const PARAMETERS := "m=65536,t=3,p=4"

  /** Each field after a dollar sign. */
  function Fields(fields: seq<string>): string {
    if fields == [] then "" else ['$'] + (fields[0] + Fields(fields[1..]))
  }

  function FormatPHC(salt: Bytes, key: Bytes): string {
    Fields([ALGORITHM, VERSION, PARAMETERS, Encode(RawStd, salt), Encode(RawStd, key)])
  }

  lemma FiveFields(a: string, b: string, c: string, d: string, e: string)
    ensures Fields([a, b, c, d, e])
         == ['$'] + (a + (['$'] + (b + (['$'] + (c + (['$'] + (d + (['$'] + e))))))))
  {
    assert e + "" == e && Fields([e]) == ['$'] + e;
    assert [d, e][1..] == [e] && Fields([d, e]) == ['$'] + (d + Fields([e]));
    assert [c, d, e][1..] == [d, e] && Fields([c, d, e]) == ['$'] + (c + Fields([d, e]));
    assert [b, c, d, e][1..] == [c, d, e] && [a, b, c, d, e][1..] == [b, c, d, e];
  }

  /** The hash in full. */
  lemma HashText(argon: Argon, pwd: Bytes, salt: Bytes)
    ensures HashPassword(argon, pwd, salt)
         == ['$'] + ("argon2id" + (['$'] + ("v=19" + (['$'] + ("m=65536,t=3,p=4"
            + (['$'] + (Encode(RawStd, salt) + (['$'] + Encode(RawStd, argon(pwd, salt))))))))))
  {
    FiveFields(ALGORITHM, VERSION, PARAMETERS, Encode(RawStd, salt), Encode(RawStd, argon(pwd, salt)));
  }

  /** parsePHC: six parts, the second the algorithm's name; version and parameters are not read. */
  function ParsePHC(phc: string): Option<(Bytes, Bytes)> {
    var parts := Split(phc, '$');
    if |parts| != 6 || parts[1] != ALGORITHM then None
    else
      match Decode(RawStd, parts[4])
      case None => None
      case Some(salt) =>
        match Decode(RawStd, parts[5])
        case None => None
        case Some(key) => Some((salt, key))
  }

  function HashPassword(argon: Argon, pwd: Bytes, salt: Bytes): string {
    FormatPHC(salt, argon(pwd, salt))
  }

  /** None if the stored hash does not parse. */
  function VerifyPassword(argon: Argon, pwd: Bytes, phc: string): Option<bool> {
    match ParsePHC(phc)
    case None => None
    case Some((salt, key)) => Some(argon(pwd, salt) == key)
  }

  lemma EncodedHasNoDollar(s: Bytes)
    ensures '$' !in Encode(RawStd, s)
  {
    EncodedSymbols(RawStd, s);
    assert !IsSymbol(RawStd, '$');
  }

  /** Splitting gives the fields back, after whatever stood before them. */
  lemma {:induction false} SplitFields(before: string, fields: seq<string>)
    requires '$' !in before && forall f <- fields :: '$' !in f
    ensures Split(before + Fields(fields), '$') == [before] + fields
    decreases |fields|
  {
    if fields == [] {
      assert before + Fields(fields) == before;
      SplitJoined(before, '$', "");
    } else {
      var rest := fields[0] + Fields(fields[1..]);
      assert before + Fields(fields) == before + ['$'] + rest;
      SplitJoined(before, '$', rest);
      SplitFields(fields[0], fields[1..]);
      assert fields == [fields[0]] + fields[1..];
    }
  }

  lemma ConstantFields()
    ensures '$' !in ALGORITHM && '$' !in VERSION && '$' !in PARAMETERS
  {
  }

  /** Parsing undoes formatting. */
  lemma PHCRoundTrip(salt: Bytes, key: Bytes)
    ensures ParsePHC(FormatPHC(salt, key)) == Some((salt, key))
  {
    var fields := [ALGORITHM, VERSION, PARAMETERS, Encode(RawStd, salt), Encode(RawStd, key)];
    ConstantFields();
    EncodedHasNoDollar(salt);
    EncodedHasNoDollar(key);
    SplitFields("", fields);
    assert "" + Fields(fields) == FormatPHC(salt, key);
    RoundTrip(RawStd, salt);
    RoundTrip(RawStd, key);
  }

  lemma {:induction false} SplitInverts(s: string)
    ensures var parts := Split(s, '$');
            s == parts[0] + Fields(parts[1..]) && forall f <- parts :: '$' !in f
    decreases |s|
  {
    match Cut(s, '$')
    case None =>
    case Some((a, b)) =>
      SplitInverts(b);
      var rest := Split(b, '$');
      assert ([a] + rest)[1..] == rest;
      assert Fields(rest) == ['$'] + b;
      Regroup(a, ['$'], b);
  }

  /** Five fields after dollar signs: the algorithm, two that are not read, and the
      encodings of salt and key. */
  predicate IsLaidOut(phc: string, salt: Bytes, key: Bytes, before: string, fields: (string, string, string, string)) {
    var (version, parameters, s, k) := fields;
    && '$' !in before && '$' !in version && '$' !in parameters && '$' !in s && '$' !in k
    && Decode(RawStd, s) == Some(salt) && Decode(RawStd, k) == Some(key)
    && phc == before + (['$'] + ("argon2id" + (['$'] + (version + (['$'] + (parameters
                     + (['$'] + (s + (['$'] + k)))))))))
  }

  /** The text is an Argon2id hash with this salt and key. */
  ghost predicate IsHash(phc: string, salt: Bytes, key: Bytes) {
    exists before, fields :: IsLaidOut(phc, salt, key, before, fields)
  }

  lemma ParsedIsHash(phc: string, salt: Bytes, key: Bytes)
    requires ParsePHC(phc) == Some((salt, key))
    ensures IsHash(phc, salt, key)
  {
    SplitInverts(phc);
    var parts := Split(phc, '$');
    assert parts[1..] == [ALGORITHM, parts[2], parts[3], parts[4], parts[5]];
    FiveFields(ALGORITHM, parts[2], parts[3], parts[4], parts[5]);
    assert IsLaidOut(phc, salt, key, parts[0], (parts[2], parts[3], parts[4], parts[5]));
  }

  lemma HashIsParsed(phc: string, salt: Bytes, key: Bytes)
    requires IsHash(phc, salt, key)
    ensures ParsePHC(phc) == Some((salt, key))
  {
    var before, fields :| IsLaidOut(phc, salt, key, before, fields);
    var (version, parameters, s, k) := fields;
    FiveFields(ALGORITHM, version, parameters, s, k);
    ConstantFields();
    SplitFields(before, [ALGORITHM, version, parameters, s, k]);
  }

  /** Exactly the texts of that form parse, whatever their version and parameters say. */
  lemma AcceptedHashes(phc: string, salt: Bytes, key: Bytes)
    ensures ParsePHC(phc) == Some((salt, key)) <==> IsHash(phc, salt, key)
  {
    if ParsePHC(phc) == Some((salt, key)) {
      ParsedIsHash(phc, salt, key);
    }
    if IsHash(phc, salt, key) {
      HashIsParsed(phc, salt, key);
    }
  }

  /** Whatever is stored, a password is accepted exactly if that is a hash whose key is the
      password's under its salt. */
  lemma VerifiedIffKey(argon: Argon, guess: Bytes, phc: string)
    ensures VerifyPassword(argon, guess, phc) == Some(true)
       <==> exists salt, key :: IsHash(phc, salt, key) && argon(guess, salt) == key
    ensures VerifyPassword(argon, guess, phc) == None <==> forall salt, key :: !IsHash(phc, salt, key)
  {
    forall salt, key
      ensures ParsePHC(phc) == Some((salt, key)) <==> IsHash(phc, salt, key)
    {
      AcceptedHashes(phc, salt, key);
    }
    if ParsePHC(phc).Some? {
      assert IsHash(phc, ParsePHC(phc).value.0, ParsePHC(phc).value.1);
    }
  }

  /** A stored hash accepts exactly the passwords with the stored key under its salt. */
  lemma VerifyHashed(argon: Argon, pwd: Bytes, salt: Bytes, guess: Bytes)
    ensures VerifyPassword(argon, guess, HashPassword(argon, pwd, salt)) == Some(argon(guess, salt) == argon(pwd, salt))
  {
    PHCRoundTrip(salt, argon(pwd, salt));
  }
}
