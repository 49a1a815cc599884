/** splitDataURL and what downloadMegaAPIMedia makes of its answer. */
module DataUrl {
  import opened Wrappers
  import opened Text
  import opened Base64

  const SCHEME := "data:"

  /** strings.Index for one character. */
  function Index(s: string, c: char): (i: int)
    ensures i == -1 <==> c !in s
    ensures i != -1 ==> 0 <= i < |s| && s[i] == c && c !in s[..i]
  {
    match Cut(s, c)
    case None => -1
    case Some((a, _)) => |a|
  }

  /** splitDataURL after the scheme. */
  function SplitRest(s: string, rest: string): (string, string) {
    var semi, comma := Index(rest, ';'), Index(rest, ',');
    if comma < 0 then (s, "")
    else (rest[comma + 1..], if 0 <= semi < comma then rest[..semi] else rest[..comma])
  }

  /** splitDataURL: payload and media type. */
  function SplitDataURL(s: string): (string, string) {
    if !(SCHEME <= s) then (s, "") else SplitRest(s, s[|SCHEME|..])
  }

  lemma FirstAt(a: string, c: char, b: string)
    requires c !in a
    ensures Index(a + [c] + b, c) == |a|
  {
    CutJoined(a, c, b);
  }

  lemma FoundEarly(head: string, c: char, tail: string)
    requires c in head
    ensures 0 <= Index(head + tail, c) < |head|
  {
    var rest := head + tail;
    var i :| 0 <= i < |head| && head[i] == c;
    assert rest[i] == c && rest[i] in rest;
  }

  lemma FoundInHead(head: string, c: char, data: string)
    ensures 0 <= Index(head + [','] + data, c) < |head| ==> c in head
  {
  }

  /** Whether the first semicolon stands before the parameters' end, and if so where the type ends. */
  lemma SemicolonAt(mime: string, params: string, data: string)
    requires params == "" || params[0] == ';'
    requires ',' !in mime && ',' !in params
    ensures var semi := Index(mime + params + [','] + data, ';');
            && (';' in mime ==> 0 <= semi < |mime|)
            && (';' !in mime && params != "" ==> semi == |mime|)
            && (';' !in mime && params == "" ==> !(0 <= semi < |mime|))
  {
    var more := params + [','] + data;
    assert mime + params + [','] + data == mime + more;
    if ';' in mime {
      FoundEarly(mime, ';', more);
    } else if params == "" {
      assert mime + params == mime;
      FoundInHead(mime, ';', data);
    } else {
      assert more == [';'] + more[1..] && mime + more == mime + [';'] + more[1..];
      FirstAt(mime, ';', more[1..]);
    }
  }

  lemma SplitWhenPlain(s: string, mime: string, params: string, data: string)
    requires params == "" || params[0] == ';'
    requires ',' !in mime && ',' !in params
    ensures var (payload, found) := SplitRest(s, mime + params + [','] + data);
            payload == data && (found == mime <==> ';' !in mime)
  {
    var head := mime + params;
    var rest := head + [','] + data;
    FirstAt(head, ',', data);
    SemicolonAt(mime, params, data);
    assert rest[|head| + 1..] == data && rest[..|mime|] == mime;
  }

  /** The same with the text after the scheme laid out as in section 3 of RFC 2397, a
      type, parameters that begin with a semicolon, a comma and the data: data and type
      come back exactly when there is no comma before the data and no semicolon in the type. */
  lemma SplitShape(mime: string, params: string, data: string)
    requires params == "" || params[0] == ';'
    ensures SplitDataURL("data:" + (mime + params + [','] + data)) == (data, mime)
       <==> ',' !in mime && ',' !in params && ';' !in mime
  {
    var head := mime + params;
    var s := SCHEME + (head + [','] + data);
    assert s[|SCHEME|..] == head + [','] + data;
    if ',' !in mime && ',' !in params {
      SplitWhenPlain(s, mime, params, data);
    } else {
      assert ',' in head;
      FoundEarly(head, ',', [','] + data);
      assert head + ([','] + data) == head + [','] + data;
    }
  }

  /** The text is taken whole, without a type, exactly when it is not a data URL: no
      scheme, or no comma after it. */
  lemma TakenWhole(s: string)
    ensures SplitDataURL(s) == (s, "") <==> !("data:" <= s && ',' in s[5..])
  {
    if SCHEME <= s && ',' in s[|SCHEME|..] {
      assert |SplitDataURL(s).0| < |s|;
    }
  }

  /** defaultMime. */
  function DefaultMime(kind: string): string {
    match kind
    case "image" => "image/jpeg"
    case "audio" => "audio/ogg"
    case "video" => "video/mp4"
    case "sticker" => "image/webp"
    case _ => "application/octet-stream"
  }

  /** downloadMegaAPIMedia on the gateway's decoded answer: an error flag, no data at all,
      or data that does not decode is fatal. */
  function Download(refused: bool, data: string, declared: string, kind: string): Option<(Bytes, string)> {
    if refused || data == "" then None
    else
      var (payload, mime) := SplitDataURL(data);
      match Decode(Std, payload)
      case None => None
      case Some(bin) =>
        Some((bin, if mime != "" then mime else if declared != "" then declared else DefaultMime(kind)))
  }

  /** The types of kinds of media. */
  lemma DefaultMimes(kind: string)
    ensures DefaultMime("image") == "image/jpeg" && DefaultMime("audio") == "audio/ogg"
    ensures DefaultMime("video") == "video/mp4" && DefaultMime("sticker") == "image/webp"
    ensures kind !in ["image", "audio", "video", "sticker"] ==> DefaultMime(kind) == "application/octet-stream"
  {
  }

  /** Nothing arrives exactly if the gateway says so, sends no data, or no base 64. */
  lemma NothingArrives(refused: bool, data: string, declared: string, kind: string)
    ensures Download(refused, data, declared, kind) == None
       <==> refused || data == "" || Decode(Std, SplitDataURL(data).0) == None
  {
  }

  /** A file sent as a base 64 data URL arrives whole, with its type, if the type can be
      told from what follows it; without one it has the declared type or else its kind's. */
  lemma DownloadRoundTrip(mime: string, params: string, bin: Bytes, declared: string, kind: string)
    requires params == "" || params[0] == ';'
    requires ',' !in mime && ',' !in params && ';' !in mime
    ensures Download(false, "data:" + (mime + params + [','] + Encode(Std, bin)), declared, kind)
         == Some((bin, if mime != "" then mime else if declared != "" then declared else DefaultMime(kind)))
  {
    SplitShape(mime, params, Encode(Std, bin));
    RoundTrip(Std, bin);
  }

  /** A file sent as bare base 64 arrives whole too, with the declared type or else its
      kind's, unless it is empty: that is taken for a missing file. */
  lemma BareDownload(bin: Bytes, declared: string, kind: string)
    ensures Download(false, Encode(Std, bin), declared, kind)
         == if bin == [] then None else Some((bin, if declared != "" then declared else DefaultMime(kind)))
  {
    var data := Encode(Std, bin);
    EncodedSymbols(Std, bin);
    assert SCHEME <= data ==> data[4] == ':' && data[4] in data;
    assert !IsSymbol(Std, ':');
    TakenWhole(data);
    RoundTrip(Std, bin);
    assert data == "" ==> bin == [];
  }
}
