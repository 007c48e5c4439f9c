/**
 * The multipart/form-data layout (RFC 7578) that `identify` and `enroll`
 * write by hand: each part is a `--boundary` line, its header lines, a blank
 * line, the content and a line break; a `--boundary--` line closes the body.
 * This is the reference the client's step-by-step appends are proved against.
 */
module Multipart {
  import opened Wrappers
  import opened Utf8

  /** One form field: its name, an optional file name and content type, and its bytes. */
  datatype Part = Part(name: string, filename: Option<string>, contentType: Option<string>, content: seq<byte>)

  /** The line that opens every part. */
  function Delimiter(boundary: string): string
  {
    "--" + boundary + "\r\n"
  }

  /** The line that closes the body. */
  function CloseDelimiter(boundary: string): string
  {
    "--" + boundary + "--\r\n"
  }

  /** The Content-Disposition header line of a part. */
  function DispositionLine(p: Part): string
  {
    "Content-Disposition: form-data; name=\"" + p.name + "\""
    + (if p.filename.Some? then "; filename=\"" + p.filename.value + "\"" else "") + "\r\n"
  }

  /** The Content-Type header line of a part, when it has one. */
  function ContentTypeLine(p: Part): string
  {
    if p.contentType.Some? then "Content-Type: " + p.contentType.value + "\r\n" else ""
  }

  /** The opening line, the part's header lines and the blank line before its content. */
  function PartHeader(boundary: string, p: Part): string
  {
    Delimiter(boundary) + DispositionLine(p) + ContentTypeLine(p) + "\r\n"
  }

  /** One part as bytes. */
  function PartBytes(boundary: string, p: Part): seq<byte>
  {
    Encode(PartHeader(boundary, p)) + p.content + Encode("\r\n")
  }

  /** A whole body: its parts in order, then the closing line. */
  function Body(boundary: string, parts: seq<Part>): seq<byte>
  {
    if parts == [] then Encode(CloseDelimiter(boundary))
    else PartBytes(boundary, parts[0]) + Body(boundary, parts[1..])
  }

  /** The last `n` elements of a concatenation come from its right operand. */
  lemma SuffixOfConcat(a: seq<byte>, b: seq<byte>, n: nat)
    requires n <= |b|
    ensures (a + b)[|a + b| - n..] == b[|b| - n..]
  {
  }

  /** The first `n` elements of a concatenation come from its left operand. */
  lemma PrefixOfConcat(a: seq<byte>, b: seq<byte>, n: nat)
    requires n <= |a|
    ensures (a + b)[..n] == a[..n]
  {
  }

  /** The body ends with the closing line. */
  lemma {:induction false} BodyEndsWithClose(boundary: string, parts: seq<Part>)
    ensures |Encode(CloseDelimiter(boundary))| <= |Body(boundary, parts)|
    ensures var b := Body(boundary, parts); var close := Encode(CloseDelimiter(boundary));
      b[|b| - |close|..] == close
  {
    var close := Encode(CloseDelimiter(boundary));
    if parts != [] {
      var p := PartBytes(boundary, parts[0]);
      var rest := Body(boundary, parts[1..]);
      BodyEndsWithClose(boundary, parts[1..]);
      assert Body(boundary, parts) == p + rest;
      SuffixOfConcat(p, rest, |close|);
    } else {
      assert Body(boundary, parts) == close;
    }
  }

  /** A non-empty body starts with its first part's header. */
  lemma BodyStartsWithHeader(boundary: string, parts: seq<Part>)
    requires parts != []
    ensures var b := Body(boundary, parts); var head := Encode(PartHeader(boundary, parts[0]));
      |head| <= |b| && b[..|head|] == head
  {
    var p := parts[0];
    var eh := Encode(PartHeader(boundary, p));
    var pb := PartBytes(boundary, p);
    var rest := Body(boundary, parts[1..]);
    assert Body(boundary, parts) == pb + rest;
    PartBytesStartWithHeader(boundary, p);
    PrefixOfConcat(pb, rest, |eh|);
  }

  /** A part's bytes start with its encoded header. */
  lemma PartBytesStartWithHeader(boundary: string, p: Part)
    ensures var head := Encode(PartHeader(boundary, p)); var pb := PartBytes(boundary, p);
      |head| <= |pb| && pb[..|head|] == head
  {
    var eh := Encode(PartHeader(boundary, p));
    var tail := p.content + Encode("\r\n");
    assert PartBytes(boundary, p) == eh + tail;
    PrefixOfConcat(eh, tail, |eh|);
  }

  /** A part's header starts with the opening line. */
  lemma HeaderStartsWithDelimiter(boundary: string, p: Part)
    ensures var head := Encode(PartHeader(boundary, p)); var open := Encode(Delimiter(boundary));
      |open| <= |head| && head[..|open|] == open
  {
    var d := Delimiter(boundary);
    var l := DispositionLine(p);
    var c := ContentTypeLine(p);
    var rest := l + c + "\r\n";
    assert PartHeader(boundary, p) == d + l + c + "\r\n";
    assert d + l + c + "\r\n" == d + (l + c) + "\r\n";
    assert d + (l + c) + "\r\n" == d + rest;
    EncodeConcat(d, rest);
    PrefixOfConcat(Encode(d), Encode(rest), |Encode(d)|);
  }

  /** A non-empty body starts with the opening line. */
  lemma BodyStartsWithDelimiter(boundary: string, parts: seq<Part>)
    requires parts != []
    ensures var b := Body(boundary, parts); var open := Encode(Delimiter(boundary));
      |open| <= |b| && b[..|open|] == open
  {
    var b := Body(boundary, parts);
    var head := Encode(PartHeader(boundary, parts[0]));
    var open := Encode(Delimiter(boundary));
    BodyStartsWithHeader(boundary, parts);
    HeaderStartsWithDelimiter(boundary, parts[0]);
    PrefixOfPrefix(b, head, |open|);
  }

  /** A prefix of a prefix is a prefix. */
  lemma PrefixOfPrefix(s: seq<byte>, t: seq<byte>, n: nat)
    requires |t| <= |s| && s[..|t|] == t && n <= |t|
    ensures s[..n] == t[..n]
  {
    assert forall i :: 0 <= i < n ==> s[i] == s[..|t|][i];
  }

  /** The byte length of a body is the sum of its parts' lengths plus the closing line. */
  lemma {:induction false} BodyLength(boundary: string, parts: seq<Part>, extra: Part)
    ensures |Body(boundary, parts + [extra])| == |Body(boundary, parts)| + |PartBytes(boundary, extra)|
  {
    if parts == [] {
      assert parts + [extra] == [extra];
    } else {
      assert (parts + [extra])[0] == parts[0];
      assert (parts + [extra])[1..] == parts[1..] + [extra];
      BodyLength(boundary, parts[1..], extra);
    }
  }
}
