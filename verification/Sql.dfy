/** quoteLiteral against PostgreSQL's reading of string constants (section 4.1.2.1 of
    its documentation), with standard_conforming_strings on, as it is by default. */
module Sql {
  import opened Wrappers
  import opened Text

  const QUOTE := '\''

  /** strings.ReplaceAll(s, "'", "''"). */
  function Doubled(s: string): string {
    if s == "" then ""
    else if s[0] == QUOTE then [QUOTE, QUOTE] + Doubled(s[1..])
    else [s[0]] + Doubled(s[1..])
  }

  function QuoteLiteral(s: string): string {
    [QUOTE] + Doubled(s) + [QUOTE]
  }

  /** Only quotes are doubled. */
  lemma {:induction false} DoublesQuotesOnly(a: string, b: string)
    ensures Doubled(a + ['\''] + b) == Doubled(a) + ['\'', '\''] + Doubled(b)
    ensures '\'' !in a ==> Doubled(a) == a
  {
    var s := a + ['\''] + b;
    if a == "" {
      assert s[1..] == b;
    } else {
      assert s[1..] == a[1..] + ['\''] + b;
      DoublesQuotesOnly(a[1..], b);
    }
  }

  predicate IsNewline(c: char) {
    c == '\n' || c == '\r'
  }

  predicate IsBlank(c: char) {
    IsNewline(c) || c == ' ' || c == '\t' || c as int == 11 || c as int == 12
  }

  /** How far the white space at the start goes. */
  function Blanks(s: string): (n: nat)
    ensures n <= |s|
  {
    if s != "" && IsBlank(s[0]) then 1 + Blanks(s[1..]) else 0
  }

  /** After a closing quote: white space with a newline, then another quote, continues the constant. */
  predicate Continues(s: string) {
    var n := Blanks(s);
    n < |s| && s[n] == QUOTE && exists i | 0 <= i < n :: IsNewline(s[i])
  }

  type Lexed = Option<(string, string)>

  function Prepend(s: string, r: Lexed): Lexed {
    match r
    case None => None
    case Some((value, rest)) => Some((s + value, rest))
  }

  /** The rest of a constant whose opening quote has been read: its value, and what
      follows it. None if it is not terminated. */
  function ReadConstant(s: string): (r: Lexed)
    ensures r.Some? ==> |r.value.1| < |s|
    decreases |s|
  {
    if s == "" then None
    else if s[0] != QUOTE then Prepend([s[0]], ReadConstant(s[1..]))
    else if |s| > 1 && s[1] == QUOTE then Prepend([QUOTE], ReadConstant(s[2..]))
    else if Continues(s[1..]) then ReadConstant(s[Blanks(s[1..]) + 2..])
    else Some(("", s[1..]))
  }

  function Lex(s: string): Lexed {
    if s == "" || s[0] != QUOTE then None else ReadConstant(s[1..])
  }

  /** Doubling goes character by character. */
  lemma DoubledStep(c: char, s: string, t: string)
    ensures Doubled([c] + s) + t == (if c == QUOTE then [QUOTE, QUOTE] else [c]) + (Doubled(s) + t)
  {
    assert ([c] + s)[1..] == s;
    Regroup(if c == QUOTE then [QUOTE, QUOTE] else [c], Doubled(s), t);
  }

  lemma ReadOne(c: char, s: string, t: string)
    ensures ReadConstant(Doubled([c] + s) + t) == Prepend([c], ReadConstant(Doubled(s) + t))
  {
    DoubledStep(c, s, t);
    if c == QUOTE {
      ReadPair(Doubled(s) + t);
    } else {
      ReadPlain(c, Doubled(s) + t);
    }
  }

  lemma PrependNothing(t: string, r: Lexed)
    ensures Doubled("") + t == t && Prepend("", r) == r
  {
    if r.Some? {
      assert "" + r.value.0 == r.value.0;
    }
  }

  lemma {:induction false} ReadDoubled(s: string, t: string)
    ensures ReadConstant(Doubled(s) + t) == Prepend(s, ReadConstant(t))
  {
    if s == "" {
      PrependNothing(t, ReadConstant(t));
    } else {
      ReadDoubled(s[1..], t);
      ReadOne(s[0], s[1..], t);
      PrependTwice([s[0]], s[1..], ReadConstant(t));
      assert s == [s[0]] + s[1..];
    }
  }

  lemma ReadPair(t: string)
    ensures ReadConstant([QUOTE, QUOTE] + t) == Prepend([QUOTE], ReadConstant(t))
  {
    assert ([QUOTE, QUOTE] + t)[2..] == t;
  }

  lemma ReadPlain(c: char, t: string)
    requires c != QUOTE
    ensures ReadConstant([c] + t) == Prepend([c], ReadConstant(t))
  {
    assert ([c] + t)[1..] == t;
  }

  lemma PrependTwice(a: string, b: string, r: Lexed)
    ensures Prepend(a, Prepend(b, r)) == Prepend(a + b, r)
  {
    if r.Some? {
      Regroup(a, b, r.value.0);
    }
  }

  /** The text would be read as part of a constant that ends right before it. */
  predicate Extends(rest: string) {
    (rest != "" && rest[0] == QUOTE) || Continues(rest)
  }

  /** PostgreSQL reads a quoted string, whatever is in it, as exactly that string,
      leaving exactly the text after it, if and only if that text does not extend it. */
  lemma QuotedIsReadBack(s: string, rest: string)
    ensures Lex(QuoteLiteral(s) + rest) == Some((s, rest)) <==> !Extends(rest)
  {
    var t := [QUOTE] + rest;
    assert (QuoteLiteral(s) + rest)[1..] == Doubled(s) + t;
    ReadDoubled(s, t);
    assert t[1..] == rest;
    if !Extends(rest) {
      assert s + "" == s;
    } else if rest != "" && rest[0] == QUOTE {
      assert t[2..] == rest[1..];
    } else {
      assert t[Blanks(rest) + 2..] == rest[Blanks(rest) + 1..];
    }
  }

  /** At the end of a statement nothing extends it. */
  lemma QuotedAtTheEnd(s: string)
    ensures Lex(QuoteLiteral(s)) == Some((s, ""))
  {
    QuotedIsReadBack(s, "");
    assert QuoteLiteral(s) + "" == QuoteLiteral(s);
  }
}
