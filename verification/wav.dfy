/** The canonical 44-byte PCM header of the RIFF/WAVE format (Microsoft/IBM Multimedia
    Programming Interface and Data Specifications 1.0: a `RIFF` chunk whose form type is
    `WAVE`, a 16-byte `fmt ` chunk, then the `data` chunk) as AudioRecorder.writeWavHeader
    lays it out, and the file that AudioRecorder.saveAsWav writes. */
module WavFormat {
  import opened Base
  import opened LittleEndian

  /** The fixed capture parameters: 16 kHz, mono, 16-bit signed samples. */
  const SampleRate: Int32 := 16000
  const Channels: Int32 := 1
  const BytesPerSample: Int32 := 2

  const HeaderSize: nat := 44

  predicate IsAscii(s: string) {
    forall i :: 0 <= i < |s| ==> s[i] as int < 128
  }

  /** String.toByteArray(UTF_8) on an ASCII string: one byte per character, its code. */
  function Utf8Ascii(s: string): (bs: seq<byte>)
    requires IsAscii(s)
    ensures |bs| == |s|
  {
    seq(|s|, i requires 0 <= i < |s| => s[i] as int)
  }

  /** The four chunk identifiers, as the ASCII codes `"RIFF"`, `"WAVE"`, `"fmt "`, `"data"`
      encode to (see `IdsAreAscii`). */
  const RiffId: seq<byte> := [0x52, 0x49, 0x46, 0x46]
  const WaveId: seq<byte> := [0x57, 0x41, 0x56, 0x45]
  const FmtId: seq<byte> := [0x66, 0x6D, 0x74, 0x20]
  const DataId: seq<byte> := [0x64, 0x61, 0x74, 0x61]

  lemma IdsAreAscii()
    ensures RiffId == Utf8Ascii("RIFF") && WaveId == Utf8Ascii("WAVE")
    ensures FmtId == Utf8Ascii("fmt ") && DataId == Utf8Ascii("data")
  {
  }

  /** The RIFF chunk descriptor: identifier, size of everything after this field, form type. */
  function RiffPart(dataSize: Int32): (p: seq<byte>)
    ensures |p| == 12
  {
    RiffId + PutInt(Wrap32(36 + dataSize)) + WaveId
  }

  /** The `fmt ` sub-chunk: PCM (format 1), channels, sample rate, byte rate, block align, bits. */
  function FmtPart(): (p: seq<byte>)
    ensures |p| == 24
  {
    FmtHead() + FmtRates()
  }

  /** Its first twelve bytes: the id, the sub-chunk size, the format and the channel count. */
  function FmtHead(): (p: seq<byte>)
    ensures |p| == 12
  {
    (FmtId + PutInt(16)) + (PutShort(1) + PutShort(Channels))
  }

  /** Its last twelve: sample rate, byte rate, block align and bits per sample. */
  function FmtRates(): (p: seq<byte>)
    ensures |p| == 12
  {
    (PutInt(SampleRate) + PutInt(SampleRate * Channels * BytesPerSample))
    + (PutShort(Channels * BytesPerSample) + PutShort(BytesPerSample * 8))
  }

  /** The `data` sub-chunk header: identifier and payload size. */
  function DataPart(dataSize: Int32): (p: seq<byte>)
    ensures |p| == 8
  {
    DataId + PutInt(dataSize)
  }

  /** writeWavHeader(dataSize): every integer little-endian, the sizes computed in Int arithmetic. */
  function WavHeader(dataSize: Int32): (h: seq<byte>)
    ensures |h| == HeaderSize
  {
    RiffPart(dataSize) + FmtPart() + DataPart(dataSize)
  }

  /** The fields of a canonical header as a reader of the format sees them (DWORD/WORD fields are unsigned). */
  datatype HeaderFields = HeaderFields(
    riffSize: nat, fmtSize: nat, audioFormat: nat, channels: nat, sampleRate: nat,
    byteRate: nat, blockAlign: nat, bitsPerSample: nat, dataSize: nat)

  /** An independent reader of a canonical 44-byte header: checks the four chunk identifiers at
      their offsets and decodes the little-endian fields between them. */
  function ParseHeader(h: seq<byte>): Option<HeaderFields> {
    if |h| < HeaderSize || h[0..4] != RiffId || h[8..12] != WaveId || h[12..16] != FmtId
       || h[36..40] != DataId then
      None
    else
      Some(HeaderFields(
        riffSize := FromLE(h[4..8]), fmtSize := FromLE(h[16..20]),
        audioFormat := FromLE(h[20..22]), channels := FromLE(h[22..24]),
        sampleRate := FromLE(h[24..28]), byteRate := FromLE(h[28..32]),
        blockAlign := FromLE(h[32..34]), bitsPerSample := FromLE(h[34..36]),
        dataSize := FromLE(h[40..44])))
  }

  lemma RiffPartFields(L: Int32)
    ensures RiffPart(L)[0..4] == RiffId && RiffPart(L)[8..12] == WaveId
    ensures FromLE(RiffPart(L)[4..8]) == (36 + L) % Two32
  {
    var riff := Wrap32(36 + L);
    var p := RiffPart(L);
    assert p == RiffId + PutInt(riff) + WaveId;
    assert p[4..8] == PutInt(riff);
    PutIntUnsigned(riff);
  }

  /** Where the parts of a three-part concatenation sit. */
  lemma {:induction false} Slices3(a: seq<byte>, b: seq<byte>, c: seq<byte>, i: nat, j: nat)
    requires i <= j
    ensures j <= |a| ==> (a + b + c)[i..j] == a[i..j]
    ensures |a| <= i && j <= |a| + |b| ==> (a + b + c)[i..j] == b[i - |a|..j - |a|]
    ensures |a| + |b| <= i && j <= |a| + |b| + |c| ==> (a + b + c)[i..j] == c[i - |a| - |b|..j - |a| - |b|]
  {
    Slices2(a + b, c, i, j);
    Slices2(a, b, i, j);
  }

  /** Where the parts of a two-part concatenation sit. */
  lemma {:induction false} Slices2(a: seq<byte>, b: seq<byte>, i: nat, j: nat)
    requires i <= j
    ensures j <= |a| ==> (a + b)[i..j] == a[i..j]
    ensures |a| <= i && j <= |a| + |b| ==> (a + b)[i..j] == b[i - |a|..j - |a|]
  {
    if j <= |a| {
      forall k | 0 <= k < j - i ensures (a + b)[i..j][k] == a[i..j][k] {
        assert (a + b)[i + k] == a[i + k];
      }
      assert (a + b)[i..j] == a[i..j];
    }
    if |a| <= i && j <= |a| + |b| {
      forall k | 0 <= k < j - i ensures (a + b)[i..j][k] == b[i - |a|..j - |a|][k] {
        assert (a + b)[i + k] == b[i + k - |a|];
      }
      assert (a + b)[i..j] == b[i - |a|..j - |a|];
    }
  }

  /** Four fields of 4, 4, 2 and 2 bytes, read back from their concatenation. */
  lemma {:induction false} FourParts(p: seq<byte>, q: seq<byte>, r: seq<byte>, t: seq<byte>)
    requires |p| == 4 && |q| == 4 && |r| == 2 && |t| == 2
    ensures ((p + q) + (r + t))[0..4] == p && ((p + q) + (r + t))[4..8] == q
    ensures ((p + q) + (r + t))[8..10] == r && ((p + q) + (r + t))[10..12] == t
  {
    Slices2(p + q, r + t, 0, 4);
    Slices2(p + q, r + t, 4, 8);
    Slices2(p + q, r + t, 8, 10);
    Slices2(p + q, r + t, 10, 12);
    Slices2(p, q, 0, 4);
    Slices2(p, q, 4, 8);
    Slices2(r, t, 0, 2);
    Slices2(r, t, 2, 4);
    assert p[0..4] == p && q[0..4] == q && r[0..2] == r && t[0..2] == t;
  }

  /** An id, an int and two shorts side by side. */
  lemma IdIntShorts(id: seq<byte>, x: Int32, u: Int16, v: Int16)
    requires |id| == 4
    ensures ((id + PutInt(x)) + (PutShort(u) + PutShort(v)))[0..4] == id
    ensures FromLE(((id + PutInt(x)) + (PutShort(u) + PutShort(v)))[4..8]) == x % Two32
    ensures FromLE(((id + PutInt(x)) + (PutShort(u) + PutShort(v)))[8..10]) == u % Two16
    ensures FromLE(((id + PutInt(x)) + (PutShort(u) + PutShort(v)))[10..12]) == v % Two16
  {
    FourParts(id, PutInt(x), PutShort(u), PutShort(v));
    PutIntUnsigned(x);
    PutShortUnsigned(u);
    PutShortUnsigned(v);
  }

  lemma FmtHeadFields()
    ensures FmtHead()[0..4] == FmtId
    ensures FromLE(FmtHead()[4..8]) == 16 && FromLE(FmtHead()[8..10]) == 1
    ensures FromLE(FmtHead()[10..12]) == 1
  {
    IdIntShorts(FmtId, 16, 1, Channels);
  }

  /** Two ints and two shorts side by side. */
  lemma IntsThenShorts(x: Int32, y: Int32, u: Int16, v: Int16)
    ensures FromLE(((PutInt(x) + PutInt(y)) + (PutShort(u) + PutShort(v)))[0..4]) == x % Two32
    ensures FromLE(((PutInt(x) + PutInt(y)) + (PutShort(u) + PutShort(v)))[4..8]) == y % Two32
    ensures FromLE(((PutInt(x) + PutInt(y)) + (PutShort(u) + PutShort(v)))[8..10]) == u % Two16
    ensures FromLE(((PutInt(x) + PutInt(y)) + (PutShort(u) + PutShort(v)))[10..12]) == v % Two16
  {
    FourParts(PutInt(x), PutInt(y), PutShort(u), PutShort(v));
    PutIntUnsigned(x);
    PutIntUnsigned(y);
    PutShortUnsigned(u);
    PutShortUnsigned(v);
  }

  /** The derived format values: byte rate, block align and bits per sample. */
  lemma DerivedFormatValues()
    ensures SampleRate * Channels * BytesPerSample == 32000
    ensures Channels * BytesPerSample == 2 && BytesPerSample * 8 == 16
  {
  }

  lemma FmtRatesFields()
    ensures FromLE(FmtRates()[0..4]) == 16000 && FromLE(FmtRates()[4..8]) == 32000
    ensures FromLE(FmtRates()[8..10]) == 2 && FromLE(FmtRates()[10..12]) == 16
  {
    DerivedFormatValues();
    IntsThenShorts(SampleRate, SampleRate * Channels * BytesPerSample, Channels * BytesPerSample, BytesPerSample * 8);
  }

  /** The eight fields of two 12-byte halves, read from their concatenation. */
  lemma {:induction false} HalvesFields(h: seq<byte>, r: seq<byte>)
    requires |h| == 12 && |r| == 12
    ensures (h + r)[0..4] == h[0..4] && (h + r)[4..8] == h[4..8]
    ensures (h + r)[8..10] == h[8..10] && (h + r)[10..12] == h[10..12]
    ensures (h + r)[12..16] == r[0..4] && (h + r)[16..20] == r[4..8]
    ensures (h + r)[20..22] == r[8..10] && (h + r)[22..24] == r[10..12]
  {
    Slices2(h, r, 0, 4);
    Slices2(h, r, 4, 8);
    Slices2(h, r, 8, 10);
    Slices2(h, r, 10, 12);
    Slices2(h, r, 12, 16);
    Slices2(h, r, 16, 20);
    Slices2(h, r, 20, 22);
    Slices2(h, r, 22, 24);
  }

  lemma FmtPartFields()
    ensures FmtPart()[0..4] == FmtId
    ensures FromLE(FmtPart()[4..8]) == 16 && FromLE(FmtPart()[8..10]) == 1
    ensures FromLE(FmtPart()[10..12]) == 1 && FromLE(FmtPart()[12..16]) == 16000
    ensures FromLE(FmtPart()[16..20]) == 32000 && FromLE(FmtPart()[20..22]) == 2
    ensures FromLE(FmtPart()[22..24]) == 16
  {
    HalvesFields(FmtHead(), FmtRates());
    FmtHeadFields();
    FmtRatesFields();
  }

  lemma DataPartFields(L: Int32)
    ensures DataPart(L)[0..4] == DataId && FromLE(DataPart(L)[4..8]) == L % Two32
  {
    assert DataPart(L)[4..8] == PutInt(L);
    PutIntUnsigned(L);
  }

  lemma HeaderIds(L: Int32)
    ensures WavHeader(L)[0..4] == RiffId && WavHeader(L)[8..12] == WaveId
    ensures WavHeader(L)[12..16] == FmtId && WavHeader(L)[36..40] == DataId
  {
    var r, f, d := RiffPart(L), FmtPart(), DataPart(L);
    RiffPartFields(L);
    FmtPartFields();
    DataPartFields(L);
    Slices3(r, f, d, 0, 4);
    Slices3(r, f, d, 8, 12);
    Slices3(r, f, d, 12, 16);
    Slices3(r, f, d, 36, 40);
  }

  lemma HeaderSizeFields(L: Int32)
    ensures FromLE(WavHeader(L)[4..8]) == (36 + L) % Two32
    ensures FromLE(WavHeader(L)[40..44]) == L % Two32
  {
    var r, f, d := RiffPart(L), FmtPart(), DataPart(L);
    RiffPartFields(L);
    DataPartFields(L);
    Slices3(r, f, d, 4, 8);
    Slices3(r, f, d, 40, 44);
  }

  lemma HeaderFormatFields(L: Int32)
    ensures FromLE(WavHeader(L)[16..20]) == 16 && FromLE(WavHeader(L)[20..22]) == 1
    ensures FromLE(WavHeader(L)[22..24]) == 1 && FromLE(WavHeader(L)[24..28]) == 16000
    ensures FromLE(WavHeader(L)[28..32]) == 32000 && FromLE(WavHeader(L)[32..34]) == 2
    ensures FromLE(WavHeader(L)[34..36]) == 16
  {
    var r, f, d := RiffPart(L), FmtPart(), DataPart(L);
    FmtPartFields();
    Slices3(r, f, d, 16, 20);
    Slices3(r, f, d, 20, 22);
    Slices3(r, f, d, 22, 24);
    Slices3(r, f, d, 24, 28);
    Slices3(r, f, d, 28, 32);
    Slices3(r, f, d, 32, 34);
    Slices3(r, f, d, 34, 36);
  }

  /** What a reader finds in the header written for data size `L`: 16-bit mono PCM at 16 kHz,
      and the two size fields equal to 36 + L and L modulo 2^32. */
  lemma HeaderRoundTrip(L: Int32)
    ensures ParseHeader(WavHeader(L)) == Some(HeaderFields(
      riffSize := (36 + L) % Two32, fmtSize := 16, audioFormat := 1, channels := 1,
      sampleRate := 16000, byteRate := 32000, blockAlign := 2, bitsPerSample := 16,
      dataSize := L % Two32))
  {
    HeaderIds(L);
    HeaderSizeFields(L);
    HeaderFormatFields(L);
  }

  /** For every non-negative Int data size the size fields are exact; in particular whenever
      36 + L fits in an Int the declared RIFF size is 36 + L and the data size is L. */
  lemma HeaderSizesExact(L: Int32)
    requires 0 <= L
    ensures ParseHeader(WavHeader(L)).Some?
    ensures ParseHeader(WavHeader(L)).value.riffSize == 36 + L
    ensures ParseHeader(WavHeader(L)).value.dataSize == L
  {
    HeaderRoundTrip(L);
    SmallResidue(36 + L);
    SmallResidue(L);
  }

  lemma SmallResidue(x: int)
    requires 0 <= x < Two32
    ensures x % Two32 == x
  {
  }

  // ---------------------------------------------------------------------------
  // The buffered blocks and the file written from them
  // ---------------------------------------------------------------------------

  /** The true number of bytes in the blocks. */
  function TotalSize(blocks: seq<seq<byte>>): nat {
    if |blocks| == 0 then 0 else TotalSize(blocks[..|blocks| - 1]) + |blocks[|blocks| - 1]|
  }

  /** `audioBuffer.sumOf { it.size }`: a left fold in Int arithmetic. */
  function SumOfSizes(blocks: seq<seq<byte>>): Int32 {
    if |blocks| == 0 then 0 else Wrap32(SumOfSizes(blocks[..|blocks| - 1]) + |blocks[|blocks| - 1]|)
  }

  lemma Wrap32Congruent(a: int, b: int)
    requires (a - b) % Two32 == 0
    ensures Wrap32(a) == Wrap32(b)
  {
    var q := (a - b) / Two32;
    assert a == b + Two32 * q;
  }

  /** The Int sum is the true total wrapped once: it equals the total while that fits in an Int. */
  lemma {:induction false} SumOfSizesWraps(blocks: seq<seq<byte>>)
    ensures SumOfSizes(blocks) == Wrap32(TotalSize(blocks))
  {
    if |blocks| > 0 {
      var init := blocks[..|blocks| - 1];
      var n := |blocks[|blocks| - 1]|;
      SumOfSizesWraps(init);
      Wrap32Congruent(SumOfSizes(init) + n, TotalSize(init) + n);
    }
  }

  /** The blocks written one after another. */
  function Flatten(blocks: seq<seq<byte>>): (bs: seq<byte>) {
    if |blocks| == 0 then [] else Flatten(blocks[..|blocks| - 1]) + blocks[|blocks| - 1]
  }

  /** Where block `k` starts in the flattened payload. */
  function Offset(blocks: seq<seq<byte>>, k: nat): nat
    requires k <= |blocks|
  {
    TotalSize(blocks[..k])
  }

  lemma {:induction false} FlattenLength(blocks: seq<seq<byte>>)
    ensures |Flatten(blocks)| == TotalSize(blocks)
  {
    if |blocks| > 0 {
      FlattenLength(blocks[..|blocks| - 1]);
    }
  }

  /** Block `k` occupies exactly the bytes [Offset(k), Offset(k) + |block k|) of the payload. */
  lemma {:induction false} FlattenBlockAt(blocks: seq<seq<byte>>, k: nat)
    requires k < |blocks|
    ensures Offset(blocks, k) + |blocks[k]| <= |Flatten(blocks)|
    ensures Flatten(blocks)[Offset(blocks, k)..Offset(blocks, k) + |blocks[k]|] == blocks[k]
  {
    var last := |blocks| - 1;
    var init := blocks[..last];
    FlattenLength(init);
    FlattenLength(blocks);
    assert Flatten(blocks) == Flatten(init) + blocks[last];
    if k == last {
      assert blocks[..k] == init;
      Slices2(Flatten(init), blocks[last], Offset(blocks, k), Offset(blocks, k) + |blocks[k]|);
    } else {
      FlattenBlockAt(init, k);
      assert init[..k] == blocks[..k];
      assert init[k] == blocks[k];
      Slices2(Flatten(init), blocks[last], Offset(blocks, k), Offset(blocks, k) + |blocks[k]|);
    }
  }

  /** saveAsWav: the header for `sumOf` sizes, then every block in order. */
  function WavFile(blocks: seq<seq<byte>>): (file: seq<byte>) {
    WavHeader(SumOfSizes(blocks)) + Flatten(blocks)
  }

  lemma WavFileHeader(blocks: seq<seq<byte>>)
    ensures |WavFile(blocks)| == HeaderSize + TotalSize(blocks)
    ensures WavFile(blocks)[..HeaderSize] == WavHeader(SumOfSizes(blocks))
    ensures WavFile(blocks)[HeaderSize..] == Flatten(blocks)
  {
    FlattenLength(blocks);
  }

  lemma Wrap32Residue(x: int, c: int)
    ensures (c + Wrap32(x)) % Two32 == (c + x) % Two32
  {
    var w := Wrap32(x);
    var q := (w - x) / Two32;
    assert c + w == (c + x) + Two32 * q;
  }

  /** The header of the file declares the true payload size modulo 2^32. */
  lemma WavFileSizes(blocks: seq<seq<byte>>)
    ensures ParseHeader(WavFile(blocks)[..HeaderSize]).Some?
    ensures ParseHeader(WavFile(blocks)[..HeaderSize]).value.dataSize == TotalSize(blocks) % Two32
    ensures ParseHeader(WavFile(blocks)[..HeaderSize]).value.riffSize == (36 + TotalSize(blocks)) % Two32
  {
    var L, T := SumOfSizes(blocks), TotalSize(blocks);
    WavFileHeader(blocks);
    HeaderRoundTrip(L);
    assert L % Two32 == T % Two32 by {
      SumOfSizesWraps(blocks);
      Wrap32Residue(T, 0);
    }
    assert (36 + L) % Two32 == (36 + T) % Two32 by {
      SumOfSizesWraps(blocks);
      Wrap32Residue(T, 36);
    }
  }

  lemma WavFileBlocks(blocks: seq<seq<byte>>, k: nat)
    requires k < |blocks|
    ensures |WavFile(blocks)| == HeaderSize + TotalSize(blocks)
    ensures Offset(blocks, k) + |blocks[k]| <= TotalSize(blocks)
    ensures WavFile(blocks)[HeaderSize + Offset(blocks, k)..HeaderSize + Offset(blocks, k) + |blocks[k]|] == blocks[k]
  {
    WavFileHeader(blocks);
    FlattenLength(blocks);
    FlattenBlockAt(blocks, k);
    var o := Offset(blocks, k);
    var header := WavHeader(SumOfSizes(blocks));
    assert |header| == HeaderSize;
    Slices2(header, Flatten(blocks), HeaderSize + o, HeaderSize + o + |blocks[k]|);
  }

  /** The file is the 44-byte header declaring the payload size (modulo 2^32, as an unsigned
      field) followed by each buffered block at its offset, in capture order. */
  lemma WavFileLayout(blocks: seq<seq<byte>>)
    ensures |WavFile(blocks)| == HeaderSize + TotalSize(blocks)
    ensures ParseHeader(WavFile(blocks)[..HeaderSize]).Some?
    ensures ParseHeader(WavFile(blocks)[..HeaderSize]).value.dataSize == TotalSize(blocks) % Two32
    ensures ParseHeader(WavFile(blocks)[..HeaderSize]).value.riffSize == (36 + TotalSize(blocks)) % Two32
    ensures WavFile(blocks)[HeaderSize..] == Flatten(blocks)
    ensures forall k :: 0 <= k < |blocks| ==> Offset(blocks, k) + |blocks[k]| <= TotalSize(blocks)
    ensures forall k :: 0 <= k < |blocks| ==>
      WavFile(blocks)[HeaderSize + Offset(blocks, k)..HeaderSize + Offset(blocks, k) + |blocks[k]|] == blocks[k]
  {
    WavFileHeader(blocks);
    WavFileSizes(blocks);
    forall k | 0 <= k < |blocks|
      ensures Offset(blocks, k) + |blocks[k]| <= TotalSize(blocks)
      ensures WavFile(blocks)[HeaderSize + Offset(blocks, k)..HeaderSize + Offset(blocks, k) + |blocks[k]|] == blocks[k]
    {
      WavFileBlocks(blocks, k);
    }
  }

  /** Three 100 ms blocks of 16 kHz mono 16-bit audio: data size 9600, RIFF size 9636. */
  lemma ThreeBlockRecording(b0: seq<byte>, b1: seq<byte>, b2: seq<byte>)
    requires |b0| == 3200 && |b1| == 3200 && |b2| == 3200
    ensures ParseHeader(WavFile([b0, b1, b2])[..HeaderSize]) == Some(HeaderFields(
      riffSize := 9636, fmtSize := 16, audioFormat := 1, channels := 1, sampleRate := 16000,
      byteRate := 32000, blockAlign := 2, bitsPerSample := 16, dataSize := 9600))
  {
    var blocks := [b0, b1, b2];
    assert blocks[..2] == [b0, b1] && [b0, b1][..1] == [b0] && [b0][..0] == [];
    assert SumOfSizes([b0]) == 3200;
    assert SumOfSizes([b0, b1]) == 6400;
    assert SumOfSizes(blocks) == 9600;
    WavFileHeader(blocks);
    HeaderRoundTrip(9600);
  }
}
