/** The byte transport between the content script and the background script.
    Chrome messaging cannot carry an ArrayBuffer reliably, so the sender turns the
    recording into a plain array of numbers (Array.from(new Uint8Array(buffer))) and
    the receiver rebuilds the bytes with new Uint8Array(array).buffer. */
module Codec {

  /** One octet of an ArrayBuffer. */
  type Byte = x: int | 0 <= x < 256

  /** ECMAScript ToUint8 on an integral Number: reduction modulo 2^8. Dafny's % is
      Euclidean, so the result is in 0..255 for negative inputs too, as ToUint8's is. */
  function ToUint8(n: int): (b: Byte)
    ensures 0 <= n < 256 ==> b == n
    ensures (b - n) % 256 == 0
  {
    n % 256
  }

  /** Array.from(new Uint8Array(buffer)): every byte becomes a Number. */
  function ArrayFrom(bytes: seq<Byte>): (items: seq<int>)
    ensures |items| == |bytes|
    decreases |bytes|
  {
    if |bytes| == 0 then [] else [bytes[0] as int] + ArrayFrom(bytes[1..])
  }

  /** new Uint8Array(array): every element converted with ToUint8. */
  function Uint8ArrayFrom(items: seq<int>): (bytes: seq<Byte>)
    ensures |bytes| == |items|
    decreases |items|
  {
    if |items| == 0 then [] else [ToUint8(items[0])] + Uint8ArrayFrom(items[1..])
  }

  predicate AllBytes(items: seq<int>)
  {
    forall i :: 0 <= i < |items| ==> 0 <= items[i] < 256
  }

  /** Decoding what was encoded gives back exactly the bytes that were sent, so the
      byteLength sent alongside the array is also the length of the rebuilt buffer. */
  lemma {:induction false} DecodeEncode(bytes: seq<Byte>)
    ensures Uint8ArrayFrom(ArrayFrom(bytes)) == bytes
    ensures |Uint8ArrayFrom(ArrayFrom(bytes))| == |bytes|
    decreases |bytes|
  {
    if |bytes| > 0 {
      DecodeEncode(bytes[1..]);
      assert ArrayFrom(bytes) == [bytes[0] as int] + ArrayFrom(bytes[1..]);
      assert ArrayFrom(bytes)[1..] == ArrayFrom(bytes[1..]);
    }
  }

  /** Encoding a decoded array gives the array back exactly when every element was
      already a byte value; any other element is changed by the modulo reduction. */
  lemma {:induction false} EncodeDecode(items: seq<int>)
    ensures ArrayFrom(Uint8ArrayFrom(items)) == items <==> AllBytes(items)
    decreases |items|
  {
    if |items| > 0 {
      EncodeDecode(items[1..]);
      var b := Uint8ArrayFrom(items);
      assert b == [ToUint8(items[0])] + Uint8ArrayFrom(items[1..]);
      assert b[1..] == Uint8ArrayFrom(items[1..]);
      assert ArrayFrom(b) == [b[0] as int] + ArrayFrom(b[1..]);
      if ArrayFrom(b) == items {
        assert ArrayFrom(b[1..]) == items[1..];
        assert AllBytes(items[1..]);
        assert forall i :: 1 <= i < |items| ==> items[i] == items[1..][i - 1];
      } else {
        if AllBytes(items) {
          assert AllBytes(items[1..]);
        }
      }
    }
  }
}
