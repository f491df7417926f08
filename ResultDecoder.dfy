/** The decoding step of the edit pipeline: the provider's `result.sample` is either
    plain base64 or a data URL (section 3 of RFC 2397, `data:<mediatype>;base64,<data>`).
    When the text holds a comma, only `text.split(",")[1]` is decoded, that is the
    text between the first and the second comma; otherwise the whole text is. The
    decoded text becomes bytes as `atob` followed by `charCodeAt` gives them. */
module ResultDecoder {
  import opened Js
  import opened Base64

  /** Position of the first occurrence of `c` in `s`. */
  function IndexOf(s: string, c: char): (i: nat)
    requires c in s
    ensures i < |s| && s[i] == c && c !in s[..i]
  {
    if s[0] == c then 0
    else
      assert c in s[1..] by {
        var k :| 0 <= k < |s| && s[k] == c;
        assert s[1..][k - 1] == c;
      }
      1 + IndexOf(s[1..], c)
  }

  /** JavaScript's `s.split(sep)` for a one-character separator: the maximal
      separator-free pieces, in order. */
  function Split(s: string, sep: char): (parts: seq<string>)
    ensures |parts| >= 1
    ensures forall k :: 0 <= k < |parts| ==> sep !in parts[k]
    decreases |s|
  {
    if sep !in s then [s]
    else
      var i := IndexOf(s, sep);
      [s[..i]] + Split(s[i + 1..], sep)
  }

  /** JavaScript's `parts.join(sep)`. */
  function Join(parts: seq<string>, sep: char): string
    decreases |parts|
  {
    if |parts| == 0 then ""
    else if |parts| == 1 then parts[0]
    else parts[0] + [sep] + Join(parts[1..], sep)
  }

  /** Splitting loses nothing: joining the pieces with the separator gives the text back. */
  lemma {:induction false} JoinSplit(s: string, sep: char)
    ensures Join(Split(s, sep), sep) == s
    decreases |s|
  {
    if sep in s {
      var i := IndexOf(s, sep);
      var rest := Split(s[i + 1..], sep);
      JoinSplit(s[i + 1..], sep);
      assert Split(s, sep) == [s[..i]] + rest;
      assert s == s[..i] + [sep] + s[i + 1..];
    }
  }

  /** The first comma of `decl + "," + more`, when `decl` has none, is the one after `decl`. */
  lemma IndexOfAfterPrefix(decl: string, more: string)
    requires ',' !in decl
    ensures IndexOf(decl + "," + more, ',') == |decl|
  {
    var s := decl + "," + more;
    assert s[|decl|] == ',';
    assert forall k :: 0 <= k < |decl| ==> s[k] == decl[k];
  }

  /** The base64 part of the payload (lines 80-84 of the edge function). */
  function StripHeader(payload: string): (content: string)
    ensures ',' !in content
  {
    if ',' in payload then Split(payload, ',')[1] else payload
  }

  /** The bytes of the payload, or `None` when `atob` would reject the text. */
  function DecodePayload(payload: string): Option<seq<byte>>
  {
    Decode(StripHeader(payload))
  }

  /** Decoded bytes re-encode to exactly the text that was decoded: nothing but
      canonical base64 is accepted. */
  lemma DecodePayloadReencodes(payload: string)
    requires DecodePayload(payload).Some?
    ensures Encode(DecodePayload(payload).value) == StripHeader(payload)
  {
    EncodeDecode(StripHeader(payload));
  }

  /** Splitting `decl + "," + more` at commas, when `decl` has none, gives `decl` and
      then the pieces of `more`. */
  lemma SplitAfterPrefix(decl: string, more: string)
    requires ',' !in decl
    ensures Split(decl + "," + more, ',') == [decl] + Split(more, ',')
  {
    var s := decl + "," + more;
    IndexOfAfterPrefix(decl, more);
    assert s[..|decl|] == decl;
    assert s[|decl| + 1..] == more;
  }

  /** With a header `decl` that has no comma, what is decoded is exactly the text between
      the first comma and the next one (or the end): anything after a second comma is
      ignored. */
  lemma StripHeaderTakesSecondField(decl: string, content: string, tail: string)
    requires ',' !in decl && ',' !in content
    requires tail == [] || tail[0] == ','
    ensures StripHeader(decl + "," + content + tail) == content
  {
    assert decl + "," + content + tail == decl + "," + (content + tail);
    SplitAfterPrefix(decl, content + tail);
    SplitFieldRest(content, tail);
  }

  /** The first piece of `content + tail`, when `content` has no comma and `tail` is
      empty or starts with one, is `content`. */
  lemma SplitFieldRest(content: string, tail: string)
    requires ',' !in content
    requires tail == [] || tail[0] == ','
    ensures Split(content + tail, ',')[0] == content
  {
    if tail == [] {
      assert content + tail == content;
    } else {
      assert content + tail == content + "," + tail[1..];
      SplitAfterPrefix(content, tail[1..]);
    }
  }

  /** A payload without a comma is decoded whole. */
  lemma PlainPayload(payload: string)
    requires ',' !in payload
    ensures DecodePayload(payload) == Decode(payload)
  {
  }

  /** The data URL `data:<decl>,<base64 of b>` decodes to `b`, for every media-type
      declaration without a comma (RFC 2397 puts none in it) and all bytes `b`. */
  lemma DataUrlRoundTrip(decl: string, b: seq<byte>)
    requires ',' !in decl
    ensures DecodePayload("data:" + decl + "," + Encode(b)) == Some(b)
  {
    EncodeHasNoComma(b);
    assert "data:" + decl + "," + Encode(b) == ("data:" + decl) + "," + Encode(b) + [];
    StripHeaderTakesSecondField("data:" + decl, Encode(b), []);
    DecodeEncode(b);
  }

  /** Plain base64, without any header, decodes to the bytes it encodes. */
  lemma PlainRoundTrip(b: seq<byte>)
    ensures DecodePayload(Encode(b)) == Some(b)
  {
    EncodeHasNoComma(b);
    DecodeEncode(b);
  }

  /** The test vectors of section 10 of RFC 4648 for "fo" and "foo", one with padding
      and one without: the payload `data:image/jpeg;base64,Zm9v` therefore stands for
      the bytes of "foo" (by DataUrlRoundTrip). */
  lemma TestVectors()
    ensures Encode([102, 111]) == "Zm8="
    ensures Encode([102, 111, 111]) == "Zm9v"
  {
    assert Encode([102, 111]) == EncodeTwo(102, 111);
    assert CharOf(Sextet0(102)) == 'Z' by { assert Sextet0(102) == 25; }
    assert CharOf(Sextet1(102, 111)) == 'm' by { assert Sextet1(102, 111) == 38; }
    assert CharOf(Sextet2(111, 0)) == '8' by { assert Sextet2(111, 0) == 60; }
    assert Encode([102, 111, 111]) == EncodeGroup(102, 111, 111) + Encode([]);
    assert CharOf(Sextet2(111, 111)) == '9' by { assert Sextet2(111, 111) == 61; }
    assert CharOf(Sextet3(111)) == 'v' by { assert Sextet3(111) == 47; }
  }
}
