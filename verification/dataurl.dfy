/** `dataURLtoBlob` and `dataURLtoFile`: split a `data:` URL (RFC 2397) on
    commas, take the media type from the header with the regular expression
    `/:(.*?);/`, base64-decode the payload with `atob`, and copy the decoded
    characters into a byte array with a count-down loop. */
module DataUrl {
  import opened Results

  /** An element of a `Uint8Array`. */
  newtype byte = x: int | 0 <= x < 256

  /** A string whose characters all fit a byte: what `atob` produces. */
  predicate IsBinary(s: string) {
    forall i :: 0 <= i < |s| ==> s[i] as int < 256
  }

  type BinaryString = s: string | IsBinary(s)

  /** `atob`, a foreign base64 decoder (RFC 4648, section 4), taken as a
      parameter. None stands for the exception it throws on malformed input. */
  type Decoder = string -> Option<BinaryString>

  /** Why decoding fails: the header has no `:...;` (the regular expression
      returns null and indexing it throws), or `atob` throws. */
  datatype Error = NoMediaType | InvalidEncoding

  /** A `Blob` as its `type` and contents; `mime` is the type as the
      constructor stores it (see `BlobType`). */
  datatype Blob = Blob(mime: string, bytes: seq<byte>)

  /** A `File` is a `Blob` with a name; the source always names it `''`. */
  datatype File = File(name: string, mime: string, bytes: seq<byte>)

  // ---------------------------------------------------------------------
  // String.prototype.split with a one-character separator
  // ---------------------------------------------------------------------

  /** The first position at or after `from` that holds `c`. */
  function IndexFrom(s: string, c: char, from: nat): (r: Option<nat>)
    ensures r.None? ==> forall i :: from <= i < |s| ==> s[i] != c
    ensures r.Some? ==> from <= r.value < |s| && s[r.value] == c
    ensures r.Some? ==> forall i :: from <= i < r.value ==> s[i] != c
    decreases |s| - from
  {
    if from >= |s| then None
    else if s[from] == c then Some(from)
    else IndexFrom(s, c, from + 1)
  }

  /** Pieces joined back with the separator between them. */
  function Join(parts: seq<string>, sep: char): string
    requires |parts| >= 1
    decreases |parts|
  {
    if |parts| == 1 then parts[0] else parts[0] + [sep] + Join(parts[1..], sep)
  }

  /** `s.split(sep)`: the maximal separator-free pieces, in order; the empty
      string gives one empty piece. */
  function Split(s: string, sep: char): (parts: seq<string>)
    ensures |parts| >= 1
    ensures forall i :: 0 <= i < |parts| ==> sep !in parts[i]
    ensures Join(parts, sep) == s
    decreases |s|
  {
    match IndexFrom(s, sep, 0)
    case None => [s]
    case Some(i) =>
      var rest := Split(s[i + 1..], sep);
      assert ([s[..i]] + rest)[1..] == rest;
      assert s == s[..i] + [sep] + s[i + 1..];
      [s[..i]] + rest
  }

  /** Splitting undoes joining, for pieces free of the separator. */
  lemma {:induction false} SplitJoin(parts: seq<string>, sep: char)
    requires |parts| >= 1
    requires forall i :: 0 <= i < |parts| ==> sep !in parts[i]
    ensures Split(Join(parts, sep), sep) == parts
    decreases |parts|
  {
    var s := Join(parts, sep);
    var a := parts[0];
    if |parts| == 1 {
      assert IndexFrom(s, sep, 0) == None;
    } else {
      assert s == a + [sep] + Join(parts[1..], sep);
      assert s[|a|] == sep;
      assert forall i :: 0 <= i < |a| ==> s[i] == a[i];
      assert IndexFrom(s, sep, 0) == Some(|a|);
      assert s[..|a|] == a;
      assert s[|a| + 1..] == Join(parts[1..], sep);
      SplitJoin(parts[1..], sep);
      assert parts == [a] + parts[1..];
    }
  }

  // ---------------------------------------------------------------------
  // The media type: /:(.*?);/ applied to the header
  // ---------------------------------------------------------------------

  /** The characters `.` does not match in a JavaScript regular expression. */
  predicate IsLineTerminator(c: char) {
    c == '\n' || c == '\r' || c as int == 0x2028 || c as int == 0x2029
  }

  /** `/:(.*?);/` can match from position `i` to position `j`: a colon, a
      semicolon, and no line terminator in between. */
  predicate MatchesAt(s: string, i: int, j: int) {
    && 0 <= i < j < |s|
    && s[i] == ':'
    && s[j] == ';'
    && forall k :: i < k < j ==> !IsLineTerminator(s[k])
  }

  /** The first position at or after `from` where `.*?` must stop: a
      semicolon or a line terminator. */
  function StopFrom(s: string, from: nat): (r: Option<nat>)
    ensures r.Some? ==> from <= r.value < |s| && (s[r.value] == ';' || IsLineTerminator(s[r.value]))
    ensures r.Some? ==> forall k :: from <= k < r.value ==> s[k] != ';' && !IsLineTerminator(s[k])
    ensures r.None? ==> forall k :: from <= k < |s| ==> s[k] != ';' && !IsLineTerminator(s[k])
    decreases |s| - from
  {
    if from >= |s| then None
    else if s[from] == ';' || IsLineTerminator(s[from]) then Some(from)
    else StopFrom(s, from + 1)
  }

  /** The match the regular expression engine finds, searching from `from`:
      the leftmost start, and at that start the shortest (lazy) match. */
  function MatchFrom(s: string, from: nat): (r: Option<(nat, nat)>)
    ensures r.Some? ==> from <= r.value.0 && MatchesAt(s, r.value.0, r.value.1)
    ensures r.Some? ==> forall i, j :: from <= i < r.value.0 ==> !MatchesAt(s, i, j)
    ensures r.Some? ==> forall j :: r.value.0 < j < r.value.1 ==> !MatchesAt(s, r.value.0, j)
    ensures r.None? ==> forall i, j :: from <= i ==> !MatchesAt(s, i, j)
    decreases |s| - from
  {
    if from >= |s| then None
    else if s[from] != ':' then MatchFrom(s, from + 1)
    else match StopFrom(s, from + 1)
      case Some(j) =>
        if s[j] == ';' then Some((from, j))
        else
          assert forall j' :: j < j' ==> !MatchesAt(s, from, j') by {
            assert from < j && IsLineTerminator(s[j]);
          }
          MatchFrom(s, from + 1)
      case None => MatchFrom(s, from + 1)
  }

  /** `arr[0].match(/:(.*?);/)[1]`: the captured text, or None when the
      expression does not match. */
  function MediaType(header: string): (r: Option<string>)
    ensures r.None? <==> forall i, j :: !MatchesAt(header, i, j)
    ensures r.Some? ==> exists i, j ::
              && MatchesAt(header, i, j)
              && r.value == header[i + 1..j]
              && (forall i', j' :: 0 <= i' < i ==> !MatchesAt(header, i', j'))
              && (forall j' :: i < j' < j ==> !MatchesAt(header, i, j'))
  {
    match MatchFrom(header, 0)
    case Some((i, j)) => Some(header[i + 1..j])
    case None => None
  }

  /** Without line terminators the media type is the text between the first
      colon and the next semicolon after it. */
  lemma MediaTypeOfPlainHeader(header: string, i: nat, j: nat)
    requires forall k :: 0 <= k < |header| ==> !IsLineTerminator(header[k])
    requires i < j < |header| && header[i] == ':' && header[j] == ';'
    requires forall k :: 0 <= k < i ==> header[k] != ':'
    requires forall k :: i < k < j ==> header[k] != ';'
    ensures MediaType(header) == Some(header[i + 1..j])
  {
    assert MatchesAt(header, i, j);
  }

  /** The header `data:<mime>;base64` has media type `<mime>` when `<mime>`
      holds no semicolon and no line terminator. */
  lemma MediaTypeOfDataHeader(mime: string)
    requires forall k :: 0 <= k < |mime| ==> mime[k] != ';' && !IsLineTerminator(mime[k])
    ensures MediaType("data:" + mime + ";base64") == Some(mime)
  {
    var header := "data:" + mime + ";base64";
    MediaTypeOfPlainHeader(header, 4, 5 + |mime|);
    assert header[5..5 + |mime|] == mime;
  }

  /** The media type of the header `toDataURL('image/png')` produces. */
  lemma MediaTypeOfPngHeader()
    ensures MediaType("data:image/png;base64") == Some("image/png")
  {
    var h := "data:image/png;base64";
    assert h == "data:" + "image/png" + ";base64" by {
      forall k | 0 <= k < |h| ensures h[k] == ("data:" + "image/png" + ";base64")[k] { }
    }
    MediaTypeOfDataHeader("image/png");
  }

  /** Headers with a colon but no semicolon after it, as in `data:,x` and
      `data:text/plain,x`, have no media type. */
  lemma NoSemicolonNoMediaType(header: string)
    requires forall k :: 0 <= k < |header| ==> header[k] != ';'
    ensures MediaType(header) == None
  {
  }

  lemma MediaTypeMissingExamples()
    ensures MediaType("data:") == None
    ensures MediaType("data:text/plain") == None
  {
    NoSemicolonNoMediaType("data:");
    NoSemicolonNoMediaType("data:text/plain");
  }

  // ---------------------------------------------------------------------
  // Decoding
  // ---------------------------------------------------------------------

  /** Storing a number into a `Uint8Array` keeps it modulo 256. */
  function ToUint8(n: int): byte {
    (n % 256) as byte
  }

  /** The byte array a string is copied into: one element per character,
      holding its character code modulo 256. */
  function CharBytes(b: string): seq<byte> {
    seq(|b|, i requires 0 <= i < |b| => ToUint8(b[i] as int))
  }

  /** `arr[1]`; when the URL has no comma it is `undefined`, which `atob`
      receives as the string "undefined". */
  function Payload(parts: seq<string>): string {
    if |parts| >= 2 then parts[1] else "undefined"
  }

  /** A URL without a comma has a single piece, so the header is the whole
      URL and `atob` is handed the text "undefined". */
  lemma NoCommaPayload(url: string)
    requires ',' !in url
    ensures Split(url, ',') == [url]
    ensures Payload(Split(url, ',')) == "undefined"
  {
    assert IndexFrom(url, ',', 0) == None;
  }

  /** Characters a `Blob` type may hold: U+0020 to U+007E. */
  predicate IsPrintableAscii(c: char) {
    0x20 <= c as int <= 0x7E
  }

  function AsciiLower(c: char): char {
    if 'A' <= c <= 'Z' then (c as int + 32) as char else c
  }

  predicate IsAsciiUpper(c: char) {
    'A' <= c <= 'Z'
  }

  /** The `type` the `Blob` and `File` constructors store for the `type`
      option they are given (File API, Blob constructor): the empty string if
      any character lies outside U+0020 to U+007E, else the text lowered in
      ASCII. */
  function BlobType(t: string): (r: string)
    ensures (forall k :: 0 <= k < |t| ==> IsPrintableAscii(t[k])) ==>
              |r| == |t| && forall k :: 0 <= k < |t| ==> r[k] == AsciiLower(t[k])
    ensures (exists k :: 0 <= k < |t| && !IsPrintableAscii(t[k])) ==> r == ""
  {
    if forall k :: 0 <= k < |t| ==> IsPrintableAscii(t[k])
    then seq(|t|, k requires 0 <= k < |t| => AsciiLower(t[k]))
    else ""
  }

  /** A stored type is printable ASCII without upper-case letters, and
      storing it again changes nothing. */
  lemma BlobTypeNormal(t: string)
    ensures forall k :: 0 <= k < |BlobType(t)| ==> IsPrintableAscii(BlobType(t)[k]) && !IsAsciiUpper(BlobType(t)[k])
    ensures BlobType(BlobType(t)) == BlobType(t)
  {
    var r := BlobType(t);
    assert forall k :: 0 <= k < |r| ==> IsPrintableAscii(r[k]) && !IsAsciiUpper(r[k]);
    assert forall k :: 0 <= k < |r| ==> AsciiLower(r[k]) == r[k];
  }

  /** A media type with capitals is stored lowered: `Image/PNG` becomes
      `image/png`. */
  lemma BlobTypeLowersExample()
    ensures BlobType("Image/PNG") == "image/png"
  {
    var r := BlobType("Image/PNG");
    assert |r| == 9;
    assert r[0] == 'i' && r[1] == 'm' && r[2] == 'a' && r[3] == 'g' && r[4] == 'e';
    assert r[5] == '/' && r[6] == 'p' && r[7] == 'n' && r[8] == 'g';
  }

  /** A comma-free URL with a media type fails to decode when `atob`
      rejects "undefined", as every base64 decoder does. */
  lemma NoCommaFails(url: string, atob: Decoder)
    requires ',' !in url
    requires MediaType(url).Some?
    requires atob("undefined").None?
    ensures Decode(url, atob) == Err(InvalidEncoding)
  {
    NoCommaPayload(url);
  }

  /** The decoding both methods perform. The media type is looked up before
      the payload is decoded, so a missing media type wins over bad base64. */
  function Decode(url: string, atob: Decoder): (r: Result<Blob, Error>)
    ensures r.Err? && r.error == NoMediaType <==> MediaType(Split(url, ',')[0]) == None
    ensures r.Err? && r.error == InvalidEncoding <==>
              MediaType(Split(url, ',')[0]).Some? && atob(Payload(Split(url, ','))).None?
    ensures r.Ok? ==> r.value.mime == BlobType(MediaType(Split(url, ',')[0]).value)
    ensures r.Ok? ==> var b := atob(Payload(Split(url, ','))).value;
              |r.value.bytes| == |b| && forall i :: 0 <= i < |b| ==> r.value.bytes[i] as int == b[i] as int
  {
    var parts := Split(url, ',');
    match MediaType(parts[0])
    case None => Err(NoMediaType)
    case Some(mime) =>
      match atob(Payload(parts))
      case None => Err(InvalidEncoding)
      case Some(b) => Ok(Blob(BlobType(mime), CharBytes(b)))
  }

  /** The `while (n--)` loop: fills the zeroed array from the last index
      down to the first. */
  method CopyBytes(b: BinaryString) returns (u: seq<byte>)
    ensures |u| == |b|
    ensures forall i :: 0 <= i < |b| ==> u[i] as int == b[i] as int % 256
  {
    var n := |b|;
    u := seq(|b|, _ => 0);
    while n != 0
      invariant 0 <= n <= |b| == |u|
      invariant forall i :: n <= i < |b| ==> u[i] as int == b[i] as int % 256
      decreases n
    {
      n := n - 1;
      u := u[n := ToUint8(b[n] as int)];
    }
  }

  /** `dataURLtoBlob`. */
  method DataUrlToBlob(url: string, atob: Decoder) returns (r: Result<Blob, Error>)
    ensures r == Decode(url, atob)
  {
    var parts := Split(url, ',');
    var mime := MediaType(parts[0]);
    if mime.None? {
      return Err(NoMediaType);
    }
    var decoded := atob(Payload(parts));
    if decoded.None? {
      return Err(InvalidEncoding);
    }
    var bytes := CopyBytes(decoded.value);
    assert bytes == CharBytes(decoded.value);
    r := Ok(Blob(BlobType(mime.value), bytes));
  }

  /** `dataURLtoFile`: the same bytes and media type as `dataURLtoBlob`,
      in a file named `''`. */
  method DataUrlToFile(url: string, atob: Decoder) returns (r: Result<File, Error>)
    ensures r.Ok? <==> Decode(url, atob).Ok?
    ensures r.Ok? ==> r.value == File("", Decode(url, atob).value.mime, Decode(url, atob).value.bytes)
    ensures r.Err? ==> r.error == Decode(url, atob).error
  {
    var parts := Split(url, ',');
    var mime := MediaType(parts[0]);
    if mime.None? {
      return Err(NoMediaType);
    }
    var decoded := atob(Payload(parts));
    if decoded.None? {
      return Err(InvalidEncoding);
    }
    var bytes := CopyBytes(decoded.value);
    assert bytes == CharBytes(decoded.value);
    r := Ok(File("", BlobType(mime.value), bytes));
  }

  /** The URL `canvas.toDataURL` produces: `data:<mime>;base64,<data>`. */
  function EncodeDataUrl(mime: string, data: string): string {
    "data:" + mime + ";base64," + data
  }

  /** Round trip: for a media type without `;`, `,` or line terminators and
      a payload without commas, decoding the URL gives back the media type,
      as a `Blob` stores it, and exactly the bytes `atob` decodes from the
      payload. */
  lemma DecodeEncoded(mime: string, data: string, atob: Decoder)
    requires forall k :: 0 <= k < |mime| ==> mime[k] != ';' && mime[k] != ',' && !IsLineTerminator(mime[k])
    requires ',' !in data
    ensures atob(data).None? ==> Decode(EncodeDataUrl(mime, data), atob) == Err(InvalidEncoding)
    ensures atob(data).Some? ==>
              Decode(EncodeDataUrl(mime, data), atob) == Ok(Blob(BlobType(mime), CharBytes(atob(data).value)))
  {
    var header := "data:" + mime + ";base64";
    assert ',' !in header;
    var url := EncodeDataUrl(mime, data);
    assert url == Join([header, data], ',');
    SplitJoin([header, data], ',');
    MediaTypeOfDataHeader(mime);
  }
}
