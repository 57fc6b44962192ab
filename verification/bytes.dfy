/** Bytes as an ArrayBuffer holds them, the conversions JavaScript applies when a
    number is stored into one (ToUint8, ToUint16, ToUint32), little-endian
    encoding as DataView writes it, and the character-code-to-byte copy loop of
    `base64ToArrayBuffer`. */
module Bytes {

  /** One byte of an ArrayBuffer. */
  type Byte = b: int | 0 <= b < 256

  /** ToUint8: the byte a Uint8Array element or `DataView.setUint8` keeps of an
      integer, i.e. the integer modulo 256 (Dafny's `%` is Euclidean, which is
      exactly ECMAScript's modulo for a positive divisor). */
  function ToUint8(n: int): (b: Byte)
    ensures (n - b) % 256 == 0
  {
    n % 256
  }

  function Pow256(n: nat): (r: nat)
    ensures r > 0
  {
    if n == 0 then 1 else 256 * Pow256(n - 1)
  }

  /** The `width` bytes, least significant first, that a little-endian DataView
      store of `value` leaves in the buffer. Euclidean division makes this the
      encoding of `value` modulo 256^width, which is the wrap-around of
      ToUint16 / ToUint32. */
  function LittleEndian(value: int, width: nat): (r: seq<Byte>)
    ensures |r| == width
    decreases width
  {
    if width == 0 then [] else [ToUint8(value)] + LittleEndian(value / 256, width - 1)
  }

  /** The unsigned number that a little-endian byte sequence denotes (what
      `DataView.getUint16` / `getUint32` with littleEndian = true read). */
  function Decode(bs: seq<Byte>): (r: nat)
    ensures r < Pow256(|bs|)
  {
    if bs == [] then 0 else bs[0] + 256 * Decode(bs[1..])
  }

  lemma DivModUnique(v: int, m: int, q: int, c: int)
    requires m > 0 && v == m * q + c && 0 <= c < m
    ensures v / m == q && v % m == c
  {
    var q', c' := v / m, v % m;
    assert v == m * q' + c';
    if q' > q {
      assert m * q' >= m * (q + 1) by { MulMonotone(m, q + 1, q'); }
    } else if q' < q {
      assert m * q >= m * (q' + 1) by { MulMonotone(m, q' + 1, q); }
    }
  }

  lemma MulMonotone(m: int, a: int, b: int)
    requires m > 0 && a <= b
    ensures m * a <= m * b
  {
    assert m * b - m * a == m * (b - a);
  }

  /** Reducing modulo 256 * p splits into the low byte and the rest reduced
      modulo p. */
  lemma ModSplit(v: int, p: int)
    requires p > 0
    ensures v % (256 * p) == v % 256 + 256 * ((v / 256) % p)
  {
    var q, r := v / 256, v % 256;
    var a, b := q / p, q % p;
    assert q == p * a + b;
    assert v == 256 * q + r;
    assert v == (256 * p) * a + (256 * b + r);
    DivModUnique(v, 256 * p, a, 256 * b + r);
  }

  /** Reading back a little-endian store yields the stored value modulo
      256^width: the stored value itself when it fits. */
  lemma {:induction false} DecodeLittleEndian(value: int, width: nat)
    ensures Decode(LittleEndian(value, width)) == value % Pow256(width)
    decreases width
  {
    if width > 0 {
      var rest := LittleEndian(value / 256, width - 1);
      assert LittleEndian(value, width)[1..] == rest;
      DecodeLittleEndian(value / 256, width - 1);
      ModSplit(value, Pow256(width - 1));
    }
  }

  /** Conversely, re-encoding what a byte sequence denotes gives the bytes back. */
  lemma {:induction false} LittleEndianDecode(bs: seq<Byte>)
    ensures LittleEndian(Decode(bs), |bs|) == bs
  {
    if bs != [] {
      var d := Decode(bs);
      DivModUnique(d, 256, Decode(bs[1..]), bs[0]);
      LittleEndianDecode(bs[1..]);
      assert bs == [bs[0]] + bs[1..];
    }
  }

  /** The byte stored for each character when a string's `charCodeAt` values are
      written into bytes: ToUint8 of the code. */
  function CharBytes(s: string): (r: seq<Byte>)
    ensures |r| == |s|
    ensures forall i :: 0 <= i < |s| ==> r[i] == ToUint8(s[i] as int)
  {
    seq(|s|, i requires 0 <= i < |s| => ToUint8(s[i] as int))
  }

  /** A "binary string" in the sense of `atob`: every character code is below 256. */
  predicate IsBinaryString(s: string) {
    forall i :: 0 <= i < |s| ==> s[i] as int < 256
  }

  /** The binary string whose character codes are the given bytes
      (String.fromCharCode of each byte). */
  function BinaryString(bs: seq<Byte>): (s: string)
    ensures |s| == |bs|
  {
    seq(|bs|, i requires 0 <= i < |bs| => bs[i] as char)
  }

  /** On a binary string no byte is lost: the bytes are the character codes,
      and they give the string back. */
  lemma BinaryRoundTrip(s: string)
    requires IsBinaryString(s)
    ensures forall i :: 0 <= i < |s| ==> CharBytes(s)[i] == s[i] as int
    ensures BinaryString(CharBytes(s)) == s
  {
    var bs := CharBytes(s);
    forall i | 0 <= i < |s|
      ensures BinaryString(bs)[i] == s[i]
    {
      assert bs[i] == s[i] as int;
    }
  }

  /** And in the other direction every byte sequence is the image of one binary string. */
  lemma BytesRoundTrip(bs: seq<Byte>)
    ensures IsBinaryString(BinaryString(bs))
    ensures CharBytes(BinaryString(bs)) == bs
  {
  }

  /** The copy loop of `base64ToArrayBuffer`, starting from the string `atob`
      returned: a new Uint8Array as long as the string, byte i set to the code
      of character i (stored through ToUint8). */
  method BinaryStringToBytes(binary: string) returns (bytes: array<Byte>)
    ensures fresh(bytes)
    ensures bytes[..] == CharBytes(binary)
  {
    var len := |binary|;
    bytes := new Byte[len](_ => 0);
    for i := 0 to len
      invariant forall k :: 0 <= k < i ==> bytes[k] == ToUint8(binary[k] as int)
    {
      bytes[i] := ToUint8(binary[i] as int);
    }
  }
}
