/** ISO/IEC 8859-1 (Latin-1): one byte per code point, for code points 0 to
    255 only. The `charmap.ISO8859_1` encoder of cmd/root.go:156 stands
    behind this model. */
module Latin1 {
  import opened Types

  newtype byte = b: int | 0 <= b < 256

  predicate Representable(s: string)
  {
    forall i :: 0 <= i < |s| ==> s[i] as int < 256
  }

  /** Text made of encodable parts is encodable. */
  lemma RepresentableAppend(a: string, b: string)
    requires Representable(a) && Representable(b)
    ensures Representable(a + b)
  {
  }

  /** Encodes `s`, or fails when some code point has no Latin-1 byte. */
  function Encode(s: string): (r: Option<seq<byte>>)
    ensures r.Some? <==> Representable(s)
    ensures r.Some? ==> |r.value| == |s| && forall i :: 0 <= i < |s| ==> r.value[i] as int == s[i] as int
    decreases |s|
  {
    if s == [] then Some([])
    else if s[0] as int >= 256 then None
    else match Encode(s[1..])
      case None => None
      case Some(tail) => Some([s[0] as int as byte] + tail)
  }

  /** Reads Latin-1 bytes back as text. */
  function Decode(b: seq<byte>): string
  {
    seq(|b|, i requires 0 <= i < |b| => b[i] as int as char)
  }

  /** Encoding loses nothing: decoding gives the text back. */
  lemma DecodeEncode(s: string)
    requires Representable(s)
    ensures Encode(s).Some? && Decode(Encode(s).value) == s
  {
  }

  /** Every byte sequence is the encoding of its decoding. */
  lemma EncodeDecode(b: seq<byte>)
    ensures Encode(Decode(b)) == Some(b)
  {
    var d := Decode(b);
    assert Representable(d);
    assert Encode(d).value == b;
  }
}
