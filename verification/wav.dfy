/** `createWavHeader`: the 44-byte RIFF/WAVE header for mono 16-bit PCM, written
    field by field into a fresh ArrayBuffer through a little-endian DataView, and
    its read-back. */
module Wav {
  import opened Bytes
  import opened Wrappers

  const HeaderSize: nat := 44
  const NumChannels := 1
  const BitsPerSample := 16
  const BlockAlign := NumChannels * (BitsPerSample / 8)
  /** The sample rate `speakText` passes for the speech proxy's PCM. */
  const PcmSampleRate := 24000

  /** The byte rate of mono 16-bit PCM: two bytes per sample. */
  function ByteRate(sampleRate: int): (r: int)
    ensures r == 2 * sampleRate
  {
    sampleRate * NumChannels * (BitsPerSample / 8)
  }

  /** The buffer `s` after storing `bytes` at `offset`, nothing else touched. */
  function Write(s: seq<Byte>, offset: nat, bytes: seq<Byte>): (r: seq<Byte>)
    requires offset + |bytes| <= |s|
    ensures |r| == |s|
    ensures forall k :: 0 <= k < |r| ==>
      r[k] == if offset <= k < offset + |bytes| then bytes[k - offset] else s[k]
  {
    s[..offset] + bytes + s[offset + |bytes|..]
  }

  /** The RIFF chunk descriptor: the tag, the size of the rest of the file
      (`36 + dataLength`, stored through ToUint32) and the format tag. */
  function RiffDescriptor(dataLength: nat): (r: seq<Byte>)
    ensures |r| == 12
  {
    CharBytes("RIFF") + LittleEndian(36 + dataLength, 4) + CharBytes("WAVE")
  }

  /** The body of the `fmt ` sub-chunk: PCM, mono, sample rate, byte rate, block
      align and sample width, each stored through ToUint16 / ToUint32. */
  function FmtFields(sampleRate: int): (r: seq<Byte>)
    ensures |r| == 16
  {
    LittleEndian(1, 2) + LittleEndian(NumChannels, 2) + LittleEndian(sampleRate, 4)
    + LittleEndian(ByteRate(sampleRate), 4) + LittleEndian(BlockAlign, 2)
    + LittleEndian(BitsPerSample, 2)
  }

  /** The `fmt ` sub-chunk: its tag, its size 16, then its body. */
  function FmtChunk(sampleRate: int): (r: seq<Byte>)
    ensures |r| == 24
  {
    CharBytes("fmt ") + LittleEndian(16, 4) + FmtFields(sampleRate)
  }

  /** The header of the `data` sub-chunk: its tag and the PCM byte count. */
  function DataChunkHeader(dataLength: nat): (r: seq<Byte>)
    ensures |r| == 8
  {
    CharBytes("data") + LittleEndian(dataLength, 4)
  }

  /** The bytes `createWavHeader(dataLength, sampleRate)` returns, chunk after
      chunk. */
  function Header(dataLength: nat, sampleRate: int): (h: seq<Byte>)
    ensures |h| == HeaderSize
  {
    RiffDescriptor(dataLength) + FmtChunk(sampleRate) + DataChunkHeader(dataLength)
  }

  /** A slice inside the left operand of a concatenation. */
  lemma InLeft(a: seq<Byte>, b: seq<Byte>, i: nat, j: nat)
    requires i <= j <= |a|
    ensures (a + b)[i..j] == a[i..j]
  {
  }

  /** A slice inside the right operand of a concatenation. */
  lemma InRight(a: seq<Byte>, b: seq<Byte>, i: nat, j: nat)
    requires |a| <= i <= j <= |a| + |b|
    ensures (a + b)[i..j] == b[i - |a|..j - |a|]
  {
  }

  /** A slice of a slice. */
  lemma Nested(s: seq<Byte>, lo: nat, hi: nat, i: nat, j: nat)
    requires lo <= hi <= |s| && i <= j <= hi - lo
    ensures s[lo..hi][i..j] == s[lo + i..lo + j]
  {
    forall k | 0 <= k < j - i
      ensures s[lo..hi][i..j][k] == s[lo + i..lo + j][k]
    {
    }
  }

  lemma RiffLayout(dataLength: nat)
    ensures var r := RiffDescriptor(dataLength);
      && r[0..4] == CharBytes("RIFF") && r[4..8] == LittleEndian(36 + dataLength, 4)
      && r[8..12] == CharBytes("WAVE")
  {
    var p0, p1, p2 := CharBytes("RIFF"), LittleEndian(36 + dataLength, 4), CharBytes("WAVE");
    InLeft(p0 + p1, p2, 0, 8);
    InLeft(p0, p1, 0, 4);
    InRight(p0, p1, 4, 8);
    Nested(p0 + p1, 0, 8, 0, 4);
    Nested(p0 + p1, 0, 8, 4, 8);
    InRight(p0 + p1, p2, 8, 12);
  }

  lemma FmtFieldsLayout(sampleRate: int)
    ensures var f := FmtFields(sampleRate);
      && f[0..2] == LittleEndian(1, 2) && f[2..4] == LittleEndian(NumChannels, 2)
      && f[4..8] == LittleEndian(sampleRate, 4) && f[8..12] == LittleEndian(ByteRate(sampleRate), 4)
      && f[12..14] == LittleEndian(BlockAlign, 2) && f[14..16] == LittleEndian(BitsPerSample, 2)
  {
    var p0, p1, p2 := LittleEndian(1, 2), LittleEndian(NumChannels, 2), LittleEndian(sampleRate, 4);
    var p3, p4, p5 := LittleEndian(ByteRate(sampleRate), 4), LittleEndian(BlockAlign, 2), LittleEndian(BitsPerSample, 2);
    var q1 := p0 + p1;
    var q2 := q1 + p2;
    var q3 := q2 + p3;
    var q4 := q3 + p4;
    assert FmtFields(sampleRate) == q4 + p5;
    InRight(q4, p5, 14, 16);
    InLeft(q4, p5, 0, 14);
    Nested(q4 + p5, 0, 14, 12, 14);
    InRight(q3, p4, 12, 14);
    InLeft(q3, p4, 0, 12);
    Nested(q4, 0, 12, 8, 12);
    Nested(q4 + p5, 0, 14, 8, 12);
    InRight(q2, p3, 8, 12);
    InLeft(q2, p3, 0, 8);
    Nested(q3, 0, 8, 4, 8);
    Nested(q4, 0, 12, 4, 8);
    Nested(q4 + p5, 0, 14, 4, 8);
    InRight(q1, p2, 4, 8);
    InLeft(q1, p2, 0, 4);
    Nested(q2, 0, 4, 0, 2);
    Nested(q2, 0, 4, 2, 4);
    Nested(q3, 0, 8, 0, 2);
    Nested(q3, 0, 8, 2, 4);
    Nested(q4, 0, 12, 0, 2);
    Nested(q4, 0, 12, 2, 4);
    Nested(q4 + p5, 0, 14, 0, 2);
    Nested(q4 + p5, 0, 14, 2, 4);
    InLeft(p0, p1, 0, 2);
    InRight(p0, p1, 2, 4);
  }

  lemma FmtLayout(sampleRate: int)
    ensures var f := FmtChunk(sampleRate);
      && f[0..4] == CharBytes("fmt ") && f[4..8] == LittleEndian(16, 4) && f[8..24] == FmtFields(sampleRate)
  {
    var p0, p1, p2 := CharBytes("fmt "), LittleEndian(16, 4), FmtFields(sampleRate);
    InLeft(p0 + p1, p2, 0, 8);
    InLeft(p0, p1, 0, 4);
    InRight(p0, p1, 4, 8);
    Nested(p0 + p1, 0, 8, 0, 4);
    Nested(p0 + p1, 0, 8, 4, 8);
    InRight(p0 + p1, p2, 8, 24);
  }

  lemma DataLayout(dataLength: nat)
    ensures var d := DataChunkHeader(dataLength);
      && d[0..4] == CharBytes("data") && d[4..8] == LittleEndian(dataLength, 4)
  {
    InLeft(CharBytes("data"), LittleEndian(dataLength, 4), 0, 4);
    InRight(CharBytes("data"), LittleEndian(dataLength, 4), 4, 8);
  }

  /** The three chunks lie at offsets 0, 12 and 36. */
  lemma ChunkLayout(dataLength: nat, sampleRate: int)
    ensures var h := Header(dataLength, sampleRate);
      && h[0..12] == RiffDescriptor(dataLength) && h[12..36] == FmtChunk(sampleRate)
      && h[36..44] == DataChunkHeader(dataLength)
  {
    var r, f, d := RiffDescriptor(dataLength), FmtChunk(sampleRate), DataChunkHeader(dataLength);
    InLeft(r + f, d, 0, 36);
    InRight(r + f, d, 36, 44);
    InLeft(r, f, 0, 12);
    InRight(r, f, 12, 36);
    Nested(r + f + d, 0, 36, 0, 12);
    Nested(r + f + d, 0, 36, 12, 36);
  }

  /** The thirteen fields of a header for `dataLength` and `sampleRate`, each
      at its offset in `h`. */
  predicate LaidOut(h: seq<Byte>, dataLength: nat, sampleRate: int) {
    && |h| == HeaderSize
    && h[0..4] == CharBytes("RIFF") && h[4..8] == LittleEndian(36 + dataLength, 4)
    && h[8..12] == CharBytes("WAVE") && h[12..16] == CharBytes("fmt ")
    && h[16..20] == LittleEndian(16, 4) && h[20..22] == LittleEndian(1, 2)
    && h[22..24] == LittleEndian(NumChannels, 2) && h[24..28] == LittleEndian(sampleRate, 4)
    && h[28..32] == LittleEndian(ByteRate(sampleRate), 4) && h[32..34] == LittleEndian(BlockAlign, 2)
    && h[34..36] == LittleEndian(BitsPerSample, 2) && h[36..40] == CharBytes("data")
    && h[40..44] == LittleEndian(dataLength, 4)
  }

  /** Where each field of the header lies. */
  lemma HeaderLayout(dataLength: nat, sampleRate: int)
    ensures LaidOut(Header(dataLength, sampleRate), dataLength, sampleRate)
  {
    var h := Header(dataLength, sampleRate);
    ChunkLayout(dataLength, sampleRate);
    RiffLayout(dataLength);
    FmtLayout(sampleRate);
    FmtFieldsLayout(sampleRate);
    DataLayout(dataLength);
    Nested(h, 0, 12, 0, 4);
    Nested(h, 0, 12, 4, 8);
    Nested(h, 0, 12, 8, 12);
    Nested(h, 12, 36, 0, 4);
    Nested(h, 12, 36, 4, 8);
    Nested(h, 12, 36, 8, 24);
    Nested(h[12..36], 8, 24, 0, 2);
    Nested(h[12..36], 8, 24, 2, 4);
    Nested(h[12..36], 8, 24, 4, 8);
    Nested(h[12..36], 8, 24, 8, 12);
    Nested(h[12..36], 8, 24, 12, 14);
    Nested(h[12..36], 8, 24, 14, 16);
    Nested(h, 12, 36, 8, 10);
    Nested(h, 12, 36, 10, 12);
    Nested(h, 12, 36, 12, 16);
    Nested(h, 12, 36, 16, 20);
    Nested(h, 12, 36, 20, 22);
    Nested(h, 12, 36, 22, 24);
    Nested(h, 36, 44, 0, 4);
    Nested(h, 36, 44, 4, 8);
  }

  // ---- The writer, in the source's imperative form ----

  /** The `writeString` helper: `setUint8(offset + i, charCodeAt(i))` for each i. */
  method WriteString(view: array<Byte>, offset: nat, s: string)
    requires offset + |s| <= view.Length
    modifies view
    ensures view[..] == Write(old(view[..]), offset, CharBytes(s))
  {
    for i := 0 to |s|
      invariant forall k :: 0 <= k < view.Length ==>
        view[k] == if offset <= k < offset + i then ToUint8(s[k - offset] as int) else old(view[k])
    {
      view[offset + i] := ToUint8(s[i] as int);
    }
  }

  /** `DataView.setUint16(offset, value, true)`. */
  method SetUint16(view: array<Byte>, offset: nat, value: int)
    requires offset + 2 <= view.Length
    modifies view
    ensures view[..] == Write(old(view[..]), offset, LittleEndian(value, 2))
  {
    var bytes := LittleEndian(value, 2);
    view[offset] := bytes[0];
    view[offset + 1] := bytes[1];
  }

  /** `DataView.setUint32(offset, value, true)`. */
  method SetUint32(view: array<Byte>, offset: nat, value: int)
    requires offset + 4 <= view.Length
    modifies view
    ensures view[..] == Write(old(view[..]), offset, LittleEndian(value, 4))
  {
    var bytes := LittleEndian(value, 4);
    view[offset] := bytes[0];
    view[offset + 1] := bytes[1];
    view[offset + 2] := bytes[2];
    view[offset + 3] := bytes[3];
  }

  /** The first three stores of `createWavHeader`: `RIFF`, the remaining
      size, `WAVE`. */
  method WriteRiffDescriptor(view: array<Byte>, dataLength: nat)
    requires 12 <= view.Length
    modifies view
    ensures view[..] == Write(old(view[..]), 0, RiffDescriptor(dataLength))
  {
    ghost var s0 := view[..];
    WriteString(view, 0, "RIFF");
    SetUint32(view, 4, 36 + dataLength);
    WriteWrite(s0, 0, CharBytes("RIFF"), LittleEndian(36 + dataLength, 4));
    WriteString(view, 8, "WAVE");
    WriteWrite(s0, 0, CharBytes("RIFF") + LittleEndian(36 + dataLength, 4), CharBytes("WAVE"));
  }

  /** The eight stores of the `fmt ` sub-chunk, at offsets 12 to 34. */
  method WriteFmtChunk(view: array<Byte>, sampleRate: int)
    requires 36 <= view.Length
    modifies view
    ensures view[..] == Write(old(view[..]), 12, FmtChunk(sampleRate))
  {
    var byteRate := ByteRate(sampleRate);
    var blockAlign := BlockAlign;
    ghost var s0 := view[..];
    WriteString(view, 12, "fmt ");
    SetUint32(view, 16, 16);
    WriteWrite(s0, 12, CharBytes("fmt "), LittleEndian(16, 4));
    WriteFmtFields(view, sampleRate, byteRate, blockAlign);
    WriteWrite(s0, 12, CharBytes("fmt ") + LittleEndian(16, 4), FmtFields(sampleRate));
  }

  /** The six numeric stores of the `fmt ` body, at offsets 20 to 34. */
  method WriteFmtFields(view: array<Byte>, sampleRate: int, byteRate: int, blockAlign: int)
    requires 36 <= view.Length
    requires byteRate == ByteRate(sampleRate) && blockAlign == BlockAlign
    modifies view
    ensures view[..] == Write(old(view[..]), 20, FmtFields(sampleRate))
  {
    ghost var s0 := view[..];
    ghost var f := LittleEndian(1, 2);
    SetUint16(view, 20, 1);
    SetUint16(view, 22, NumChannels);
    WriteWrite(s0, 20, f, LittleEndian(NumChannels, 2));
    f := f + LittleEndian(NumChannels, 2);
    SetUint32(view, 24, sampleRate);
    WriteWrite(s0, 20, f, LittleEndian(sampleRate, 4));
    f := f + LittleEndian(sampleRate, 4);
    SetUint32(view, 28, byteRate);
    WriteWrite(s0, 20, f, LittleEndian(byteRate, 4));
    f := f + LittleEndian(byteRate, 4);
    SetUint16(view, 32, blockAlign);
    WriteWrite(s0, 20, f, LittleEndian(blockAlign, 2));
    f := f + LittleEndian(blockAlign, 2);
    SetUint16(view, 34, BitsPerSample);
    WriteWrite(s0, 20, f, LittleEndian(BitsPerSample, 2));
  }

  /** The last two stores: `data` and the PCM byte count. */
  method WriteDataChunkHeader(view: array<Byte>, dataLength: nat)
    requires 44 <= view.Length
    modifies view
    ensures view[..] == Write(old(view[..]), 36, DataChunkHeader(dataLength))
  {
    ghost var s0 := view[..];
    WriteString(view, 36, "data");
    SetUint32(view, 40, dataLength);
    WriteWrite(s0, 36, CharBytes("data"), LittleEndian(dataLength, 4));
  }

  /** `createWavHeader(dataLength, sampleRate)`: a new zero-filled 44-byte buffer
      whose thirteen fields are then stored in the source's order, grouped here
      by chunk. */
  method CreateWavHeader(dataLength: nat, sampleRate: int) returns (buffer: array<Byte>)
    ensures fresh(buffer)
    ensures buffer[..] == Header(dataLength, sampleRate)
  {
    buffer := new Byte[HeaderSize](_ => 0);
    ghost var s0 := buffer[..];
    WriteRiffDescriptor(buffer, dataLength);
    WriteFmtChunk(buffer, sampleRate);
    WriteWrite(s0, 0, RiffDescriptor(dataLength), FmtChunk(sampleRate));
    WriteDataChunkHeader(buffer, dataLength);
    WriteWrite(s0, 0, RiffDescriptor(dataLength) + FmtChunk(sampleRate), DataChunkHeader(dataLength));
    WriteWhole(s0, Header(dataLength, sampleRate));
  }

  /** Two adjacent stores are one store of their concatenation. */
  lemma WriteWrite(s: seq<Byte>, offset: nat, a: seq<Byte>, b: seq<Byte>)
    requires offset + |a| + |b| <= |s|
    ensures Write(Write(s, offset, a), offset + |a|, b) == Write(s, offset, a + b)
  {
    var l := Write(Write(s, offset, a), offset + |a|, b);
    var r := Write(s, offset, a + b);
    forall k | 0 <= k < |s|
      ensures l[k] == r[k]
    {
    }
  }

  /** A store covering the whole buffer replaces it. */
  lemma WriteWhole(s: seq<Byte>, bytes: seq<Byte>)
    requires |bytes| == |s|
    ensures Write(s, 0, bytes) == bytes
  {
  }

  // ---- Reading the header back ----

  /** The fields of a PCM WAV header as a decoder reads them. */
  datatype WavFormat = WavFormat(
    riffSize: nat, fmtSize: nat, audioFormat: nat, channels: nat, sampleRate: nat,
    byteRate: nat, blockAlign: nat, bitsPerSample: nat, dataLength: nat)

  function U16At(h: seq<Byte>, offset: nat): nat
    requires offset + 2 <= |h|
  {
    Decode(h[offset..offset + 2])
  }

  function U32At(h: seq<Byte>, offset: nat): nat
    requires offset + 4 <= |h|
  {
    Decode(h[offset..offset + 4])
  }

  /** A reader for the canonical 44-byte header: None unless the four tags are in
      place; otherwise every field, each read little-endian from its offset. */
  function ReadHeader(h: seq<Byte>): (r: Option<WavFormat>)
    ensures r.Some? <==>
      (&& |h| >= HeaderSize
       && h[0..4] == CharBytes("RIFF") && h[8..12] == CharBytes("WAVE")
       && h[12..16] == CharBytes("fmt ") && h[36..40] == CharBytes("data"))
  {
    if |h| < HeaderSize || h[0..4] != CharBytes("RIFF") || h[8..12] != CharBytes("WAVE")
       || h[12..16] != CharBytes("fmt ") || h[36..40] != CharBytes("data")
    then None
    else Some(WavFormat(U32At(h, 4), U32At(h, 16), U16At(h, 20), U16At(h, 22), U32At(h, 24),
                        U32At(h, 28), U16At(h, 32), U16At(h, 34), U32At(h, 40)))
  }

  const TwoTo32: nat := 0x1_0000_0000

  /** Every header reads back, each numeric field as the value written modulo its
      width: `36 + dataLength` and `dataLength` wrap at 2^32 as `setUint32`
      does, the fmt fields are the fixed PCM mono 16-bit values. */
  lemma ReadHeaderFields(dataLength: nat, sampleRate: int)
    ensures ReadHeader(Header(dataLength, sampleRate)) == Some(WavFormat(
      (36 + dataLength) % TwoTo32, 16, 1, 1, sampleRate % TwoTo32,
      (2 * sampleRate) % TwoTo32, 2, 16, dataLength % TwoTo32))
  {
    HeaderLayout(dataLength, sampleRate);
    ReadLaidOut(Header(dataLength, sampleRate), dataLength, sampleRate);
  }

  /** Any buffer holding the thirteen fields reads back to them. */
  lemma ReadLaidOut(h: seq<Byte>, dataLength: nat, sampleRate: int)
    requires LaidOut(h, dataLength, sampleRate)
    ensures ReadHeader(h) == Some(WavFormat(
      (36 + dataLength) % TwoTo32, 16, 1, 1, sampleRate % TwoTo32,
      (2 * sampleRate) % TwoTo32, 2, 16, dataLength % TwoTo32))
  {
    ReadSizes(h, dataLength, sampleRate);
    ReadFormat(h, dataLength, sampleRate);
  }

  /** The chunk sizes and the data length read back. */
  lemma ReadSizes(h: seq<Byte>, dataLength: nat, sampleRate: int)
    requires LaidOut(h, dataLength, sampleRate)
    ensures U32At(h, 4) == (36 + dataLength) % TwoTo32 && U32At(h, 16) == 16
    ensures U32At(h, 40) == dataLength % TwoTo32
  {
    ReadU32(h, 4, 36 + dataLength);
    ReadU32(h, 16, 16);
    ReadU32(h, 40, dataLength);
  }

  /** The fields of the `fmt ` body read back. */
  lemma ReadFormat(h: seq<Byte>, dataLength: nat, sampleRate: int)
    requires LaidOut(h, dataLength, sampleRate)
    ensures U16At(h, 20) == 1 && U16At(h, 22) == 1 && U32At(h, 24) == sampleRate % TwoTo32
    ensures U32At(h, 28) == (2 * sampleRate) % TwoTo32 && U16At(h, 32) == 2 && U16At(h, 34) == 16
  {
    ReadU16(h, 20, 1);
    ReadU16(h, 22, NumChannels);
    ReadU32(h, 24, sampleRate);
    ReadU32(h, 28, ByteRate(sampleRate));
    ReadU16(h, 32, BlockAlign);
    ReadU16(h, 34, BitsPerSample);
  }

  /** A field stored with `setUint32` reads back modulo 2^32. */
  lemma ReadU32(h: seq<Byte>, offset: nat, value: int)
    requires offset + 4 <= |h| && h[offset..offset + 4] == LittleEndian(value, 4)
    ensures U32At(h, offset) == value % TwoTo32
    ensures 0 <= value < TwoTo32 ==> U32At(h, offset) == value
  {
    assert Pow256(4) == TwoTo32;
    DecodeLittleEndian(value, 4);
    if 0 <= value < TwoTo32 {
      DivModUnique(value, TwoTo32, 0, value);
    }
  }

  /** A field stored with `setUint16` reads back modulo 2^16. */
  lemma ReadU16(h: seq<Byte>, offset: nat, value: int)
    requires offset + 2 <= |h| && h[offset..offset + 2] == LittleEndian(value, 2)
    ensures U16At(h, offset) == value % 65536
    ensures 0 <= value < 65536 ==> U16At(h, offset) == value
  {
    assert Pow256(2) == 65536;
    DecodeLittleEndian(value, 2);
    if 0 <= value < 65536 {
      DivModUnique(value, 65536, 0, value);
    }
  }

  /** The round trip: when `36 + dataLength` and the byte rate fit in 32 bits,
      reading the header gives back exactly the data length and sample rate it
      was built from, with the byte rate `sampleRate * 2`. */
  lemma HeaderRoundTrip(dataLength: nat, sampleRate: nat)
    requires 36 + dataLength < TwoTo32
    requires 2 * sampleRate < TwoTo32
    ensures ReadHeader(Header(dataLength, sampleRate)) == Some(WavFormat(
      36 + dataLength, 16, 1, 1, sampleRate, 2 * sampleRate, 2, 16, dataLength))
  {
    ReadHeaderFields(dataLength, sampleRate);
    DivModUnique(36 + dataLength, TwoTo32, 0, 36 + dataLength);
    DivModUnique(dataLength, TwoTo32, 0, dataLength);
    DivModUnique(sampleRate, TwoTo32, 0, sampleRate);
    DivModUnique(2 * sampleRate, TwoTo32, 0, 2 * sampleRate);
  }

  /** The four ASCII tags, as bytes, at offsets 0, 8, 12 and 36. */
  lemma HeaderTags(dataLength: nat, sampleRate: int)
    ensures var h := Header(dataLength, sampleRate);
      && h[0..4] == [0x52, 0x49, 0x46, 0x46] && h[8..12] == [0x57, 0x41, 0x56, 0x45]
      && h[12..16] == [0x66, 0x6d, 0x74, 0x20] && h[36..40] == [0x64, 0x61, 0x74, 0x61]
  {
    HeaderLayout(dataLength, sampleRate);
    TagBytes();
  }

  /** The character codes of the four tags. */
  lemma TagBytes()
    ensures CharBytes("RIFF") == [0x52, 0x49, 0x46, 0x46]
    ensures CharBytes("WAVE") == [0x57, 0x41, 0x56, 0x45]
    ensures CharBytes("fmt ") == [0x66, 0x6d, 0x74, 0x20]
    ensures CharBytes("data") == [0x64, 0x61, 0x74, 0x61]
  {
  }

  /** The playable file `speakText` assembles: the header for the PCM's byte
      length at 24 kHz followed by the PCM bytes decoded from the binary string. */
  method WavFile(binary: string) returns (wav: seq<Byte>)
    ensures wav == Header(|binary|, PcmSampleRate) + CharBytes(binary)
  {
    var pcm := BinaryStringToBytes(binary);
    var header := CreateWavHeader(pcm.Length, PcmSampleRate);
    wav := header[..] + pcm[..];
  }

  /** The assembled file declares exactly the PCM that follows its header. */
  lemma WavFileDeclaresPcm(binary: string)
    requires 36 + |binary| < TwoTo32
    ensures var wav := Header(|binary|, PcmSampleRate) + CharBytes(binary);
      && ReadHeader(wav) == Some(WavFormat(36 + |binary|, 16, 1, 1, PcmSampleRate, 2 * PcmSampleRate, 2, 16, |binary|))
      && wav[HeaderSize..] == CharBytes(binary)
      && |wav| == HeaderSize + ReadHeader(wav).value.dataLength
  {
    var h := Header(|binary|, PcmSampleRate);
    var wav := h + CharBytes(binary);
    HeaderRoundTrip(|binary|, PcmSampleRate);
    assert wav[..HeaderSize] == h;
    assert forall i, j :: 0 <= i <= j <= HeaderSize ==> wav[i..j] == h[i..j];
  }
}
