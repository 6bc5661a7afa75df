/** Fixed-width integers: big-endian, two's complement. */
module BigEndian {

  type Byte = b: int | 0 <= b < 256

  /** How many values `width` bytes have. */
  function Span(width: nat): (n: nat)
    ensures n > 0 && (width > 0 ==> n % 2 == 0)
  {
    if width == 0 then 1 else 256 * Span(width - 1)
  }

  function Encode(n: nat, width: nat): (bytes: seq<Byte>)
    requires n < Span(width)
    ensures |bytes| == width
  {
    if width == 0 then [] else Encode(n / 256, width - 1) + [n % 256]
  }

  function Decode(bytes: seq<Byte>): (n: nat)
    ensures n < Span(|bytes|)
  {
    if bytes == [] then 0
    else
      var last := |bytes| - 1;
      256 * Decode(bytes[..last]) + bytes[last]
  }

  lemma {:induction false} DecodeEncode(n: nat, width: nat)
    requires n < Span(width)
    ensures Decode(Encode(n, width)) == n
  {
    if width > 0 {
      DecodeEncode(n / 256, width - 1);
      assert Encode(n, width)[..width - 1] == Encode(n / 256, width - 1);
    }
  }

  lemma {:induction false} EncodeDecode(bytes: seq<Byte>)
    ensures Encode(Decode(bytes), |bytes|) == bytes
  {
    if bytes != [] {
      var last := |bytes| - 1;
      EncodeDecode(bytes[..last]);
      assert Decode(bytes) / 256 == Decode(bytes[..last]) && Decode(bytes) % 256 == bytes[last];
      assert bytes == bytes[..last] + [bytes[last]];
    }
  }

  /** The integers of `width` bytes. */
  predicate Fits(n: int, width: nat) {
    width > 0 && -(Span(width) / 2) <= n < Span(width) / 2
  }

  function EncodeInt(n: int, width: nat): (bytes: seq<Byte>)
    requires Fits(n, width)
    ensures |bytes| == width
  {
    Encode(if n < 0 then n + Span(width) else n, width)
  }

  function DecodeInt(bytes: seq<Byte>): (n: int)
    requires bytes != []
    ensures Fits(n, |bytes|)
  {
    var n := Decode(bytes);
    if n < Span(|bytes|) / 2 then n else n - Span(|bytes|)
  }

  /** Both directions: the encoding is a bijection between the integers that fit and the byte
      strings of that width. */
  lemma IntRoundTrip(n: int, width: nat)
    requires Fits(n, width)
    ensures DecodeInt(EncodeInt(n, width)) == n
  {
    DecodeEncode(if n < 0 then n + Span(width) else n, width);
  }

  lemma BytesRoundTrip(bytes: seq<Byte>)
    requires bytes != []
    ensures EncodeInt(DecodeInt(bytes), |bytes|) == bytes
  {
    EncodeDecode(bytes);
  }
}
