/** The string steps on data URLs in app/components/Camera.js: the
    split(",")[1] of blobToBase64 and of the stored imageUrl. */
module DataUrl {
  import opened Wrappers

  /** String.prototype.split with a one-character separator: the pieces
      between the separators, always at least one. */
  function Split(s: string, c: char): (r: seq<string>)
    ensures |r| >= 1
    ensures forall k :: 0 <= k < |r| ==> c !in r[k]
    decreases |s|
  {
    if |s| == 0 then [""]
    else
      var rest := Split(s[1..], c);
      if s[0] == c then [""] + rest
      else [[s[0]] + rest[0]] + rest[1..]
  }

  /** Array.prototype.join with a one-character separator. */
  function Join(parts: seq<string>, c: char): string
    requires |parts| >= 1
    decreases |parts|
  {
    if |parts| == 1 then parts[0] else parts[0] + [c] + Join(parts[1..], c)
  }

  /** Joining the pieces of a split gives the string back. */
  lemma {:induction false} JoinSplit(s: string, c: char)
    ensures Join(Split(s, c), c) == s
    decreases |s|
  {
    if |s| > 0 {
      JoinSplit(s[1..], c);
      var rest := Split(s[1..], c);
      if s[0] != c {
        var r := Split(s, c);
        if |rest| == 1 {
          assert r == [[s[0]] + rest[0]];
        } else {
          assert r[1..] == rest[1..];
        }
      }
    }
  }

  /** Splitting pieces that do not contain the separator, joined by it, gives
      the pieces back. */
  lemma {:induction false} SplitJoin(parts: seq<string>, c: char)
    requires |parts| >= 1 && forall k :: 0 <= k < |parts| ==> c !in parts[k]
    ensures Split(Join(parts, c), c) == parts
    decreases |parts|, |parts[0]|
  {
    if |parts| == 1 {
      SplitOfFree(parts[0], c);
    } else if |parts[0]| == 0 {
      SplitJoin(parts[1..], c);
      assert Join(parts, c) == [c] + Join(parts[1..], c);
      assert Join(parts, c)[1..] == Join(parts[1..], c);
      assert [""] + parts[1..] == parts;
    } else {
      var t := [parts[0][1..]] + parts[1..];
      assert t[1..] == parts[1..];
      SplitJoin(t, c);
      var j := Join(parts, c);
      assert j == [parts[0][0]] + Join(t, c);
      assert j[1..] == Join(t, c);
      assert [parts[0][0]] + parts[0][1..] == parts[0];
      assert Split(j, c) == [[parts[0][0]] + t[0]] + t[1..];
    }
  }

  /** A string without the separator splits into itself alone. */
  lemma {:induction false} SplitOfFree(s: string, c: char)
    requires c !in s
    ensures Split(s, c) == [s]
    decreases |s|
  {
    if |s| > 0 {
      assert c !in s[1..];
      SplitOfFree(s[1..], c);
      assert [s[0]] + s[1..] == s;
    }
  }

  /** s.split(",")[1]: None when there is no comma (the value is undefined). */
  function SecondField(s: string): (r: Option<string>)
    ensures r.Some? <==> ',' in s
    ensures r.Some? ==> ',' !in r.value
  {
    var parts := Split(s, ',');
    CommaSplits(s);
    if |parts| > 1 then Some(parts[1]) else None
  }

  /** A string splits into more than one piece exactly when it holds the separator. */
  lemma {:induction false} CommaSplits(s: string)
    ensures |Split(s, ',')| > 1 <==> ',' in s
  {
    if ',' in s {
      JoinSplit(s, ',');
    } else {
      SplitOfFree(s, ',');
    }
  }

  /** The header of a JPEG data URL, up to and including its comma. */
  const JpegPrefix: string := "data:image/jpeg;base64,"

  /** The template literal `data:image/jpeg;base64,${...}`: an undefined
      field is written as the text "undefined". */
  function ImageUrl(compressed: string): (u: string)
    ensures JpegPrefix <= u
  {
    JpegPrefix + SecondField(compressed).GetOr("undefined")
  }

  /** For a JPEG data URL, as canvas.toDataURL("image/jpeg") produces (base64
      has no comma), the stored imageUrl is the compressed URL itself. */
  lemma ImageUrlOfJpeg(payload: string)
    requires ',' !in payload
    ensures ImageUrl(JpegPrefix + payload) == JpegPrefix + payload
  {
    var head := "data:image/jpeg;base64";
    assert ',' !in head;
    assert Join([head, payload], ',') == JpegPrefix + payload;
    SplitJoin([head, payload], ',');
  }

  /** The field after the first comma, up to the next one: for a URL in any
      format the stored imageUrl swaps the header for the JPEG one. */
  lemma SecondFieldOfHeader(head: string, payload: string)
    requires ',' !in head && ',' !in payload
    ensures SecondField(head + [','] + payload) == Some(payload)
    ensures ImageUrl(head + [','] + payload) == JpegPrefix + payload
  {
    assert Join([head, payload], ',') == head + [','] + payload;
    SplitJoin([head, payload], ',');
  }

  /** What the callback of blobToBase64 receives: the base64 part of the data
      URL the reader produced, undefined when it has no comma, or null when
      the read failed. */
  datatype Callback = Base64(text: string) | Undefined | Null

  function BlobToBase64(read: Option<string>): (r: Callback)
    ensures read.None? <==> r.Null?
    ensures r.Base64? ==> ',' !in r.text
  {
    match read
    case None => Null
    case Some(url) =>
      match SecondField(url)
      case Some(b) => Base64(b)
      case None => Undefined
  }

  /** Reading a JPEG blob hands the callback exactly its base64 payload. */
  lemma BlobToBase64OfJpeg(payload: string)
    requires ',' !in payload
    ensures BlobToBase64(Some(JpegPrefix + payload)) == Base64(payload)
  {
    assert JpegPrefix == "data:image/jpeg;base64" + [','];
    SecondFieldOfHeader("data:image/jpeg;base64", payload);
  }
}
