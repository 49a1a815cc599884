/** The parts of Go's strings package that the codecs rely on, and bytes as characters. */
module Text {
  import opened Wrappers

  type Octet = c: char | c as int < 256 witness 'a'
  type Bytes = seq<Octet>

  /** Concatenation is associative. */
  lemma Regroup<T>(a: seq<T>, b: seq<T>, c: seq<T>)
    ensures a + (b + c) == (a + b) + c
  {
  }

  /** strings.Cut at a character, which is also how SplitN(s, sep, 2) splits. */
  function Cut(s: string, sep: char): (parts: Option<(string, string)>)
    ensures parts.None? <==> sep !in s
    ensures parts.Some? ==> s == parts.value.0 + [sep] + parts.value.1 && sep !in parts.value.0
  {
    if s == "" then None
    else if s[0] == sep then Some(("", s[1..]))
    else
      match Cut(s[1..], sep)
      case None => None
      case Some((a, b)) => Some(([s[0]] + a, b))
  }

  /** strings.Split. */
  function Split(s: string, sep: char): (parts: seq<string>)
    ensures |parts| > 0
    decreases |s|
  {
    match Cut(s, sep)
    case None => [s]
    case Some((a, b)) => [a] + Split(b, sep)
  }

  /** Cutting undoes joining: the left part ends at the first separator. */
  lemma {:induction false} CutJoined(a: string, sep: char, b: string)
    requires sep !in a
    ensures Cut(a + [sep] + b, sep) == Some((a, b))
  {
    var s := a + [sep] + b;
    if a == "" {
      assert s[1..] == b;
    } else {
      assert s[1..] == a[1..] + [sep] + b;
      CutJoined(a[1..], sep, b);
      assert a == [a[0]] + a[1..];
    }
  }

  lemma SplitJoined(a: string, sep: char, b: string)
    requires sep !in a
    ensures Split(a + [sep] + b, sep) == [a] + Split(b, sep)
    ensures Split(a, sep) == [a]
  {
    CutJoined(a, sep, b);
  }

  lemma NoLaterSeparator(a: string, b: string, a': string, b': string, sep: char)
    requires a + [sep] + b == a' + [sep] + b'
    ensures |a| < |a'| ==> sep in b
  {
    if |a| < |a'| {
      assert (a + [sep] + b)[|a'|] == b[|a'| - |a| - 1];
      assert (a' + [sep] + b')[|a'|] == sep;
    }
  }

  /** What stands before the last separator and what after it. */
  lemma LastSeparator(a: string, b: string, a': string, b': string, sep: char)
    requires sep !in b && sep !in b'
    requires a + [sep] + b == a' + [sep] + b'
    ensures a == a' && b == b'
  {
    NoLaterSeparator(a, b, a', b', sep);
    NoLaterSeparator(a', b', a, b, sep);
    var s, s' := a + [sep] + b, a' + [sep] + b';
    assert a == s[..|a|] && b == s[|a| + 1..];
    assert a' == s'[..|a'|] && b' == s'[|a'| + 1..];
  }
}
