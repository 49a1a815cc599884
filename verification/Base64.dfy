/** Base 64 as Go's encoding/base64 writes and reads it: the standard alphabet with and
    without padding (section 4 of RFC 4648) and the URL alphabet without (section 5). */
module Base64 {
  import opened Wrappers
  import opened Text

  datatype Encoding = Std | RawStd | RawURL

  type Sextet = v: int | 0 <= v < 64

  function Symbol(e: Encoding, v: Sextet): Octet {
    if v < 26 then ('A' as int + v) as char
    else if v < 52 then ('a' as int + v - 26) as char
    else if v < 62 then ('0' as int + v - 52) as char
    else if v == 62 then (if e == RawURL then '-' else '+')
    else (if e == RawURL then '_' else '/')
  }

  function SymbolValue(e: Encoding, c: char): Option<Sextet> {
    if 'A' <= c <= 'Z' then Some(c as int - 'A' as int)
    else if 'a' <= c <= 'z' then Some(c as int - 'a' as int + 26)
    else if '0' <= c <= '9' then Some(c as int - '0' as int + 52)
    else if c == (if e == RawURL then '-' else '+') then Some(62)
    else if c == (if e == RawURL then '_' else '/') then Some(63)
    else None
  }

  /** The characters an encoding can produce. */
  predicate IsSymbol(e: Encoding, c: char) {
    SymbolValue(e, c).Some? || (e == Std && c == '=')
  }

  lemma SymbolRoundTrip(e: Encoding, v: Sextet)
    ensures SymbolValue(e, Symbol(e, v)) == Some(v)
  {
  }

  /** The alphabets of tables 1 and 2 of RFC 4648: capital letters, small ones and digits,
      each in order, and two more. */
  lemma Alphabets(e: Encoding, v: Sextet)
    ensures Symbol(e, 0) == 'A' && Symbol(e, 26) == 'a' && Symbol(e, 52) == '0'
    ensures v < 61 && v != 25 && v != 51 ==> Symbol(e, v + 1) as int == Symbol(e, v) as int + 1
    ensures [Symbol(e, 62), Symbol(e, 63)] == if e == RawURL then ['-', '_'] else ['+', '/']
  {
  }

  /** Three octets as four sextets; a missing octet counts as zero. */
  function Sextets(a: Octet, b: Octet, c: Octet): (Sextet, Sextet, Sextet, Sextet) {
    var x, y, z := a as int, b as int, c as int;
    (x / 4, x % 4 * 16 + y / 16, y % 16 * 4 + z / 64, z % 64)
  }

  /** The number that four sextets write, the high one first. */
  function Joined(p: Sextet, q: Sextet, r: Sextet, t: Sextet): nat {
    ((p * 64 + q) * 64 + r) * 64 + t
  }

  lemma JoinedOnce(p: Sextet, q: Sextet, r: Sextet, t: Sextet, p': Sextet, q': Sextet, r': Sextet, t': Sextet)
    requires Joined(p, q, r, t) == Joined(p', q', r', t')
    ensures p == p' && q == q' && r == r' && t == t'
  {
    assert (p * 64 + q) * 64 + r == (p' * 64 + q') * 64 + r' && t == t';
    assert p * 64 + q == p' * 64 + q' && r == r';
  }

  /** The sextets are the same 24 bits, the high ones first. */
  lemma SextetsAreTheBits(a: Octet, b: Octet, c: Octet, p: Sextet, q: Sextet, r: Sextet, t: Sextet)
    ensures Sextets(a, b, c) == (p, q, r, t)
       <==> p * 262144 + q * 4096 + r * 64 + t == a as int * 65536 + b as int * 256 + c as int
  {
    var (p', q', r', t') := Sextets(a, b, c);
    var x, y, z := a as int, b as int, c as int;
    assert x == x / 4 * 4 + x % 4 && y == y / 16 * 16 + y % 16 && z == z / 64 * 64 + z % 64;
    assert Joined(p', q', r', t') == x * 65536 + y * 256 + z;
    if Joined(p, q, r, t) == Joined(p', q', r', t') {
      JoinedOnce(p, q, r, t, p', q', r', t');
    }
  }

  function Octets(p: Sextet, q: Sextet, r: Sextet, s: Sextet): (Octet, Octet, Octet) {
    ((p * 4 + q / 16) as char, (q % 16 * 16 + r / 4) as char, (r % 4 * 64 + s) as char)
  }

  function Padding(e: Encoding, n: nat): string {
    if e == Std then seq(n, _ => '=') else ""
  }

  /** EncodeToString. */
  function Encode(e: Encoding, s: Bytes): string {
    if |s| == 0 then ""
    else if |s| == 1 then
      var (p, q, _, _) := Sextets(s[0], '\0', '\0');
      [Symbol(e, p), Symbol(e, q)] + Padding(e, 2)
    else if |s| == 2 then
      var (p, q, r, _) := Sextets(s[0], s[1], '\0');
      [Symbol(e, p), Symbol(e, q), Symbol(e, r)] + Padding(e, 1)
    else
      var (p, q, r, t) := Sextets(s[0], s[1], s[2]);
      [Symbol(e, p), Symbol(e, q), Symbol(e, r), Symbol(e, t)] + Encode(e, s[3..])
  }

  /** DecodeString skips carriage returns and newlines anywhere. */
  function WithoutNewlines(t: string): string {
    if t == "" then ""
    else if t[0] == '\r' || t[0] == '\n' then WithoutNewlines(t[1..])
    else [t[0]] + WithoutNewlines(t[1..])
  }

  /** The last group: padded to four, or two or three symbols without padding. Bits
      beyond the last whole octet are ignored. */
  function DecodeLast(e: Encoding, t: string): Option<Bytes> {
    var n := if e != Std then |t|
             else if |t| == 4 && t[2..] == "==" then 2
             else if |t| == 4 && t[3] == '=' then 3 else 0;
    if 2 <= n <= 3 && forall i | 0 <= i < n :: SymbolValue(e, t[i]).Some? then
      var p, q := SymbolValue(e, t[0]).value, SymbolValue(e, t[1]).value;
      if n == 2 then Some([Octets(p, q, 0, 0).0])
      else
        var o := Octets(p, q, SymbolValue(e, t[2]).value, 0);
        Some([o.0, o.1])
    else None
  }

  function DecodeGroups(e: Encoding, t: string): Option<Bytes> {
    if t == "" then Some([])
    else if |t| >= 4 && forall i | 0 <= i < 4 :: SymbolValue(e, t[i]).Some? then
      var o := Octets(SymbolValue(e, t[0]).value, SymbolValue(e, t[1]).value,
                      SymbolValue(e, t[2]).value, SymbolValue(e, t[3]).value);
      match DecodeGroups(e, t[4..])
      case None => None
      case Some(rest) => Some([o.0, o.1, o.2] + rest)
    else DecodeLast(e, t)
  }

  /** DecodeString, None for CorruptInputError. */
  function Decode(e: Encoding, t: string): Option<Bytes> {
    DecodeGroups(e, WithoutNewlines(t))
  }

  /** Examples of section 10 of RFC 4648. */
  lemma Examples()
    ensures Encode(Std, ['f', 'o', 'o']) == ['Z', 'm', '9', 'v']
    ensures Encode(Std, ['f']) == ['Z', 'g', '=', '='] && Encode(Std, ['f', 'o']) == ['Z', 'm', '8', '=']
    ensures forall e | e != Std ::
              Encode(e, ['f']) == ['Z', 'g'] && Encode(e, ['f', 'o']) == ['Z', 'm', '8']
  {
    assert Padding(Std, 2) == ['=', '='] && Padding(Std, 1) == ['='];
  }

  /** Splitting off the low part of a number put together from a high and a low part. */
  lemma HighAndLow(high: nat, low: nat, base: nat)
    requires low < base && base in {4, 16, 64}
    ensures (high * base + low) / base == high && (high * base + low) % base == low
  {
  }

  lemma FirstOctet(a: Octet, b: Octet)
    ensures var (p, q, _, _) := Sextets(a, b, '\0'); Octets(p, q, 0, 0).0 == a
  {
  }

  lemma SecondOctet(a: Octet, b: Octet, c: Octet)
    ensures var (p, q, r, _) := Sextets(a, b, c); Octets(p, q, r, 0).1 == b
  {
    HighAndLow(a as int % 4, b as int / 16, 16);
    HighAndLow(b as int % 16, c as int / 64, 4);
  }

  lemma ThirdOctet(a: Octet, b: Octet, c: Octet)
    ensures var (p, q, r, t) := Sextets(a, b, c); Octets(p, q, r, t).2 == c
  {
    var z := c as int;
    HighAndLow(b as int % 16, z / 64, 4);
    assert (b as int % 16 * 4 + z / 64) % 4 * 64 + z % 64 == z;
  }

  /** Octets undoes Sextets. */
  lemma OctetsOfSextets(a: Octet, b: Octet, c: Octet)
    ensures var (p, q, r, t) := Sextets(a, b, c); Octets(p, q, r, t) == (a, b, c)
  {
    FirstOctet(a, b);
    SecondOctet(a, b, c);
    ThirdOctet(a, b, c);
  }

  /** Every character of an encoding is a symbol of its alphabet or padding. */
  lemma {:induction false} EncodedSymbols(e: Encoding, s: Bytes)
    ensures forall c <- Encode(e, s) :: IsSymbol(e, c)
  {
    forall v: Sextet ensures IsSymbol(e, Symbol(e, v)) {
      SymbolRoundTrip(e, v);
    }
    if |s| >= 3 {
      EncodedSymbols(e, s[3..]);
    }
  }

  lemma {:induction false} NoNewlines(t: string)
    requires '\r' !in t && '\n' !in t
    ensures WithoutNewlines(t) == t
  {
    if t != "" {
      NoNewlines(t[1..]);
    }
  }

  lemma {:induction false} WithoutNewlinesBoth(a: string, b: string)
    ensures WithoutNewlines(a + b) == WithoutNewlines(a) + WithoutNewlines(b)
  {
    if a == "" {
      assert a + b == b;
    } else {
      assert (a + b)[1..] == a[1..] + b;
      WithoutNewlinesBoth(a[1..], b);
    }
  }

  /** Newlines do not matter. */
  lemma NewlinesAreSkipped(e: Encoding, a: string, c: char, b: string)
    requires c == '\r' || c == '\n'
    ensures Decode(e, a + [c] + b) == Decode(e, a + b)
  {
    WithoutNewlinesBoth(a + [c], b);
    WithoutNewlinesBoth(a, [c]);
    WithoutNewlinesBoth(a, b);
    assert WithoutNewlines([c]) == WithoutNewlines([c][1..]) == [];
    assert WithoutNewlines(a) + [] == WithoutNewlines(a);
  }

  /** Padding is asked for where the encoding has it and refused where not, a last symbol
      may have loose bits, and one symbol alone is no octet. */
  lemma LastGroups(e: Encoding)
    ensures (DecodeLast(e, ['Z', 'g', '=', '=']) == if e == Std then Some(['f']) else None)
    ensures (DecodeLast(e, ['Z', 'g']) == DecodeLast(e, ['Z', 'h']) == if e == Std then None else Some(['f']))
    ensures DecodeLast(e, ['Z']) == None && DecodeLast(e, ['Z', '*', '9', 'v']) == None
  {
    assert ['Z', 'g', '=', '='][2..] == ['=', '='] && ['Z', '*', '9', 'v'][2..] == ['9', 'v'];
  }

  lemma OneOctet(e: Encoding, a: Octet)
    ensures DecodeLast(e, Encode(e, [a])) == Some([a]) && |Encode(e, [a])| == if e == Std then 4 else 2
    ensures e == Std ==> SymbolValue(e, Encode(e, [a])[3]).None?
  {
    var (p, q, _, _) := Sextets(a, '\0', '\0');
    SymbolRoundTrip(e, p);
    SymbolRoundTrip(e, q);
    FirstOctet(a, '\0');
    assert e == Std ==> Padding(e, 2) == "==" && Encode(e, [a])[2..] == "==";
  }

  lemma TwoOctets(e: Encoding, a: Octet, b: Octet)
    ensures DecodeLast(e, Encode(e, [a, b])) == Some([a, b]) && |Encode(e, [a, b])| == if e == Std then 4 else 3
    ensures e == Std ==> SymbolValue(e, Encode(e, [a, b])[3]).None?
  {
    var (p, q, r, _) := Sextets(a, b, '\0');
    SymbolRoundTrip(e, p);
    SymbolRoundTrip(e, q);
    SymbolRoundTrip(e, r);
    FirstOctet(a, b);
    SecondOctet(a, b, '\0');
    assert SymbolValue(e, '=').None? && Symbol(e, r) != '=';
    assert e == Std ==> Encode(e, [a, b])[2..] == [Symbol(e, r), '='];
  }

  lemma LastRoundTrip(e: Encoding, s: Bytes)
    requires 1 <= |s| <= 2
    ensures DecodeGroups(e, Encode(e, s)) == Some(s)
  {
    if |s| == 1 {
      OneOctet(e, s[0]);
      assert s == [s[0]];
    } else {
      TwoOctets(e, s[0], s[1]);
      assert s == [s[0], s[1]];
    }
  }

  lemma GroupRoundTrip(e: Encoding, a: Octet, b: Octet, c: Octet, rest: string)
    requires DecodeGroups(e, rest).Some?
    ensures var (p, q, r, t) := Sextets(a, b, c);
            DecodeGroups(e, [Symbol(e, p), Symbol(e, q), Symbol(e, r), Symbol(e, t)] + rest)
            == Some([a, b, c] + DecodeGroups(e, rest).value)
  {
    var (p, q, r, t) := Sextets(a, b, c);
    var text := [Symbol(e, p), Symbol(e, q), Symbol(e, r), Symbol(e, t)] + rest;
    SymbolRoundTrip(e, p);
    SymbolRoundTrip(e, q);
    SymbolRoundTrip(e, r);
    SymbolRoundTrip(e, t);
    OctetsOfSextets(a, b, c);
    assert text[4..] == rest;
  }

  lemma {:induction false} GroupsRoundTrip(e: Encoding, s: Bytes)
    ensures DecodeGroups(e, Encode(e, s)) == Some(s)
  {
    if |s| == 0 {
    } else if |s| < 3 {
      LastRoundTrip(e, s);
    } else {
      GroupsRoundTrip(e, s[3..]);
      GroupRoundTrip(e, s[0], s[1], s[2], Encode(e, s[3..]));
      assert s == [s[0], s[1], s[2]] + s[3..];
    }
  }

  /** Decoding undoes encoding, for every string of octets. */
  lemma RoundTrip(e: Encoding, s: Bytes)
    ensures Decode(e, Encode(e, s)) == Some(s)
  {
    EncodedSymbols(e, s);
    assert !IsSymbol(e, '\r') && !IsSymbol(e, '\n');
    NoNewlines(Encode(e, s));
    GroupsRoundTrip(e, s);
  }
}
