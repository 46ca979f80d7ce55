/**
 * `audioToBlob` of the worker: a mono 16-bit PCM file of the RIFF WAVE format. A 44-byte
 * header (the `RIFF` chunk header, the `fmt ` chunk with WAVE_FORMAT_PCM, and the `data`
 * chunk header) is followed by every sample as a little-endian two's-complement 16-bit value.
 */
module Wav {
  import opened Outcomes
  import opened KokoroShared

  newtype byte = x: int | 0 <= x < 256

  // ---------------------------------------------------------------------------
  // little-endian integers
  // ---------------------------------------------------------------------------

  function Pow256(k: nat): (p: nat)
    ensures p > 0
  {
    if k == 0 then 1 else 256 * Pow256(k - 1)
  }

  const U16: nat := 0x1_0000
  const U32: nat := 0x1_0000_0000

  lemma Pow256Values()
    ensures Pow256(2) == U16 && Pow256(4) == U32
  {
    assert Pow256(1) == 256;
    assert Pow256(3) == 256 * U16;
  }

  /** The low `k` bytes of `v`, least significant first: what a `DataView` little-endian write
      of width `k` stores, its `ToUint` conversion taking `v` modulo `256^k`. */
  function LE(v: nat, k: nat): (bs: seq<byte>)
    ensures |bs| == k
  {
    if k == 0 then [] else [(v % 256) as byte] + LE(v / 256, k - 1)
  }

  /** The unsigned value of a little-endian byte string. */
  function ReadLE(bs: seq<byte>): (v: nat)
    ensures v < Pow256(|bs|)
  {
    if bs == [] then 0 else bs[0] as nat + 256 * ReadLE(bs[1..])
  }

  lemma MulSub(d: int, x: int, y: int)
    ensures d * x - d * y == d * (x - y)
  {
  }

  lemma MulAtLeast(d: int, k: int)
    requires d > 0 && k >= 1
    ensures d * k >= d
  {
  }

  /** Two different multiples of `d` are at least `d` apart. */
  lemma MultiplesApart(d: int, q: int, q': int)
    requires d > 0 && q > q'
    ensures d * q - d * q' >= d
  {
    MulSub(d, q, q');
    MulAtLeast(d, q - q');
  }

  /** `v == d*q + r` with `0 <= r < d` fixes `v / d` and `v % d`. */
  lemma DivModUnique(v: int, d: int, q: int, r: int)
    requires d > 0 && 0 <= r < d && v == d * q + r
    ensures v / d == q && v % d == r
  {
    var q', r' := v / d, v % d;
    if q > q' {
      MultiplesApart(d, q, q');
      assert false;
    } else if q' > q {
      MultiplesApart(d, q', q);
      assert false;
    }
  }

  lemma ModOfSmall(v: int, d: int)
    requires 0 <= v < d
    ensures v % d == v
  {
    DivModUnique(v, d, 0, v);
  }

  lemma DivModOf(v: int, d: int)
    requires d > 0
    ensures v == d * (v / d) + v % d && 0 <= v % d < d
  {
  }

  lemma MulAdd(d: int, x: int, y: int)
    ensures d * (x + y) == d * x + d * y
  {
  }

  lemma MulAssoc(a: int, b: int, c: int)
    ensures a * (b * c) == (a * b) * c
  {
  }

  lemma MulMono(d: int, x: int, y: int)
    requires d >= 0 && x <= y
    ensures d * x <= d * y
  {
  }

  /** Reducing modulo `a * b` keeps the low digit modulo `a` and the next digit modulo `b`. */
  lemma ModOfProduct(v: nat, a: nat, b: nat)
    requires a > 0 && b > 0
    ensures v % (a * b) == v % a + a * ((v / a) % b)
  {
    var q, r := v / a, v % a;
    var q1, q2 := q / b, q % b;
    DivModOf(v, a);
    DivModOf(q, b);
    MulAdd(a, b * q1, q2);
    MulAssoc(a, b, q1);
    MulMono(a, q2, b - 1);
    MulSub(a, b, 1);
    DivModUnique(v, a * b, q1, a * q2 + r);
  }

  /** Reading back a little-endian write gives the value modulo `256^k`. */
  lemma {:induction false} ReadLEOfLE(v: nat, k: nat)
    ensures ReadLE(LE(v, k)) == v % Pow256(k)
  {
    if k > 0 {
      var bs := LE(v, k);
      assert bs[1..] == LE(v / 256, k - 1);
      ReadLEOfLE(v / 256, k - 1);
      ModOfProduct(v, 256, Pow256(k - 1));
    }
  }

  /** A value that fits in `k` bytes reads back unchanged. */
  lemma ReadLEOfSmall(v: nat, k: nat)
    requires v < Pow256(k)
    ensures ReadLE(LE(v, k)) == v
  {
    ReadLEOfLE(v, k);
  }

  /** The 16-bit two's-complement pattern of a sample. */
  function Unsigned16(x: int16): (u: nat)
    ensures u < 0x1_0000
    ensures x >= 0 ==> u == x as int
    ensures x < 0 ==> u == x as int + 0x1_0000
  {
    if x < 0 then x as int + 0x1_0000 else x as int
  }

  /** `view.setInt16(offset, x, true)`: the two bytes of one sample. */
  function I16LE(x: int16): (bs: seq<byte>)
    ensures |bs| == 2
  {
    LE(Unsigned16(x), 2)
  }

  /** `view.getInt16(offset, true)` over two bytes. */
  function ReadI16(bs: seq<byte>): int16
    requires |bs| == 2
  {
    Pow256Values();
    var u := ReadLE(bs);
    if u >= 0x8000 then (u - U16) as int16 else u as int16
  }

  lemma ReadI16OfI16LE(x: int16)
    ensures ReadI16(I16LE(x)) == x
  {
    Pow256Values();
    ReadLEOfSmall(Unsigned16(x), 2);
  }

  // ---------------------------------------------------------------------------
  // the file layout
  // ---------------------------------------------------------------------------

  /** `writeString`: one `setUint8` of `charCodeAt(i)` per character. */
  function Ascii(s: string): (bs: seq<byte>)
    ensures |bs| == |s|
    ensures forall i :: 0 <= i < |s| ==> bs[i] as int == s[i] as int % 256
  {
    seq(|s|, i requires 0 <= i < |s| => (s[i] as int % 256) as byte)
  }

  const RIFF_TAG: seq<byte> := [0x52, 0x49, 0x46, 0x46]
  const WAVE_TAG: seq<byte> := [0x57, 0x41, 0x56, 0x45]
  const FMT_TAG: seq<byte> := [0x66, 0x6d, 0x74, 0x20]
  const DATA_TAG: seq<byte> := [0x64, 0x61, 0x74, 0x61]

  /** The four tags written by `writeString` are the ASCII codes of their letters. */
  lemma TagsAreAscii()
    ensures Ascii("RIFF") == RIFF_TAG && Ascii("WAVE") == WAVE_TAG
    ensures Ascii("fmt ") == FMT_TAG && Ascii("data") == DATA_TAG
  {
  }

  const PCM_FORMAT: nat := 1
  const CHANNELS: nat := 1
  const BITS_PER_SAMPLE: nat := 16
  const BLOCK_ALIGN: nat := 2
  const FMT_CHUNK_SIZE: nat := 16
  const HEADER_SIZE: nat := 44

  /** Bytes 0-11: the RIFF chunk header, whose size field counts every byte after it. */
  function RiffHeader(n: nat): (h: seq<byte>)
    ensures |h| == 12
  {
    RIFF_TAG + LE(36 + 2 * n, 4) + WAVE_TAG
  }

  /** Bytes 12-35: the `fmt ` chunk of a mono 16-bit PCM stream at `rate` samples per second:
      its tag and size, the format and channel count, then the rates and the sample layout. */
  function FmtChunk(rate: nat): (h: seq<byte>)
    ensures |h| == 24
  {
    FmtFormat() + FmtRates(rate)
  }

  function FmtFormat(): (h: seq<byte>)
    ensures |h| == 12
  {
    FMT_TAG + LE(FMT_CHUNK_SIZE, 4) + LE(PCM_FORMAT, 2) + LE(CHANNELS, 2)
  }

  function FmtRates(rate: nat): (h: seq<byte>)
    ensures |h| == 12
  {
    LE(rate, 4) + LE(rate * 2, 4) + LE(BLOCK_ALIGN, 2) + LE(BITS_PER_SAMPLE, 2)
  }

  /** Bytes 36-43: the `data` chunk header. */
  function DataHeader(n: nat): (h: seq<byte>)
    ensures |h| == 8
  {
    DATA_TAG + LE(2 * n, 4)
  }

  /** The 44 header bytes for `n` samples at `rate` samples per second. */
  function Header(n: nat, rate: nat): (h: seq<byte>)
    ensures |h| == HEADER_SIZE
  {
    RiffHeader(n) + FmtChunk(rate) + DataHeader(n)
  }

  /** The sample data: two bytes per sample, in sample order. */
  function SampleBytes(samples: seq<int16>): (bs: seq<byte>)
    ensures |bs| == 2 * |samples|
  {
    if samples == [] then [] else SampleBytes(samples[..|samples| - 1]) + I16LE(samples[|samples| - 1])
  }

  /** Sample `i` is encoded at bytes `2i` and `2i + 1` of the sample data. */
  lemma {:induction false} SampleBytesAt(samples: seq<int16>, i: nat)
    requires i < |samples|
    ensures SampleBytes(samples)[2 * i..2 * i + 2] == I16LE(samples[i])
    decreases |samples|
  {
    var init := samples[..|samples| - 1];
    if i < |init| {
      SampleBytesAt(init, i);
      assert SampleBytes(samples)[2 * i..2 * i + 2] == SampleBytes(init)[2 * i..2 * i + 2];
    }
  }

  /** The bytes of one more sample follow those of the samples before it. */
  lemma SampleBytesExtend(samples: seq<int16>, i: nat)
    requires i < |samples|
    ensures SampleBytes(samples[..i + 1]) == SampleBytes(samples[..i]) + I16LE(samples[i])
  {
    assert samples[..i + 1][..i] == samples[..i];
  }

  /** The whole file `audioToBlob` produces. */
  function WavBytes(samples: seq<int16>, rate: nat): (bs: seq<byte>)
    ensures |bs| == HEADER_SIZE + 2 * |samples|
  {
    Header(|samples|, rate) + SampleBytes(samples)
  }

  /** Each part of a four-part concatenation sits at the sum of the lengths before it. */
  lemma ConcatParts<T>(a: seq<T>, b: seq<T>, c: seq<T>, d: seq<T>)
    ensures var s := a + b + c + d;
            && s[0..|a|] == a
            && s[|a|..|a| + |b|] == b
            && s[|a| + |b|..|a| + |b| + |c|] == c
            && s[|a| + |b| + |c|..] == d
  {
  }

  /** The three parts of the header and the samples, each at its offset. */
  lemma WavParts(samples: seq<int16>, rate: nat)
    ensures var bs := WavBytes(samples, rate);
            var n := |samples|;
            && bs[0..12] == RiffHeader(n)
            && bs[12..36] == FmtChunk(rate)
            && bs[36..44] == DataHeader(n)
            && bs[44..] == SampleBytes(samples)
  {
    ConcatParts(RiffHeader(|samples|), FmtChunk(rate), DataHeader(|samples|), SampleBytes(samples));
  }

  lemma RiffFields(n: nat)
    ensures var h := RiffHeader(n);
            h[0..4] == RIFF_TAG && h[4..8] == LE(36 + 2 * n, 4) && h[8..12] == WAVE_TAG
  {
  }

  lemma FmtFields(rate: nat)
    ensures var h := FmtChunk(rate);
            && h[0..4] == FMT_TAG
            && h[4..8] == LE(FMT_CHUNK_SIZE, 4)
            && h[8..10] == LE(PCM_FORMAT, 2)
            && h[10..12] == LE(CHANNELS, 2)
            && h[12..16] == LE(rate, 4)
            && h[16..20] == LE(rate * 2, 4)
            && h[20..22] == LE(BLOCK_ALIGN, 2)
            && h[22..24] == LE(BITS_PER_SAMPLE, 2)
  {
    var h, f, r := FmtChunk(rate), FmtFormat(), FmtRates(rate);
    ConcatParts(FMT_TAG, LE(FMT_CHUNK_SIZE, 4), LE(PCM_FORMAT, 2), LE(CHANNELS, 2));
    ConcatParts(LE(rate, 4), LE(rate * 2, 4), LE(BLOCK_ALIGN, 2), LE(BITS_PER_SAMPLE, 2));
    assert h[0..12] == f && h[12..24] == r;
    assert h[0..4] == f[0..4] && h[4..8] == f[4..8] && h[8..10] == f[8..10] && h[10..12] == f[10..12];
    assert h[12..16] == r[0..4] && h[16..20] == r[4..8] && h[20..22] == r[8..10] && h[22..24] == r[10..12];
  }

  lemma DataFields(n: nat)
    ensures var h := DataHeader(n);
            h[0..4] == DATA_TAG && h[4..8] == LE(2 * n, 4)
  {
  }

  /** The RIFF chunk header: its tag, its size field and the `WAVE` form type. */
  lemma RiffLayout(samples: seq<int16>, rate: nat)
    ensures var bs := WavBytes(samples, rate);
            && bs[0..4] == RIFF_TAG
            && ReadLE(bs[4..8]) == (36 + 2 * |samples|) % U32
            && bs[8..12] == WAVE_TAG
  {
    var bs := WavBytes(samples, rate);
    WavParts(samples, rate);
    RiffReads(|samples|);
    SubSlice(bs, 0, 12, 0, 4);
    SubSlice(bs, 0, 12, 4, 8);
    SubSlice(bs, 0, 12, 8, 12);
  }

  /** The values read back from the fields of the RIFF chunk header. */
  lemma RiffReads(n: nat)
    ensures var h := RiffHeader(n);
            h[0..4] == RIFF_TAG && ReadLE(h[4..8]) == (36 + 2 * n) % U32 && h[8..12] == WAVE_TAG
  {
    RiffFields(n);
    Pow256Values();
    ReadLEOfLE(36 + 2 * n, 4);
  }

  /** The `fmt ` chunk: size 16, PCM, one channel, the rate, the byte rate `2 * rate`, block
      align 2 and 16 bits per sample. */
  lemma FmtLayout(samples: seq<int16>, rate: nat)
    ensures var bs := WavBytes(samples, rate);
            && bs[12..16] == FMT_TAG
            && ReadLE(bs[16..20]) == FMT_CHUNK_SIZE
            && ReadLE(bs[20..22]) == PCM_FORMAT
            && ReadLE(bs[22..24]) == CHANNELS
            && ReadLE(bs[24..28]) == rate % U32
            && ReadLE(bs[28..32]) == (rate * 2) % U32
            && ReadLE(bs[32..34]) == BLOCK_ALIGN
            && ReadLE(bs[34..36]) == BITS_PER_SAMPLE
  {
    var bs := WavBytes(samples, rate);
    WavParts(samples, rate);
    FmtReads(rate);
    SubSlice(bs, 12, 36, 0, 4);
    SubSlice(bs, 12, 36, 4, 8);
    SubSlice(bs, 12, 36, 8, 10);
    SubSlice(bs, 12, 36, 10, 12);
    SubSlice(bs, 12, 36, 12, 16);
    SubSlice(bs, 12, 36, 16, 20);
    SubSlice(bs, 12, 36, 20, 22);
    SubSlice(bs, 12, 36, 22, 24);
  }

  /** A slice of a slice is a slice of the whole. */
  lemma SubSlice<T>(s: seq<T>, a: nat, b: nat, i: nat, j: nat)
    requires a <= b <= |s| && i <= j <= b - a
    ensures s[a..b][i..j] == s[a + i..a + j]
  {
    forall k | 0 <= k < j - i
      ensures s[a..b][i..j][k] == s[a + i..a + j][k]
    {
      assert s[a..b][i..j][k] == s[a..b][i + k] == s[a + i + k];
    }
  }

  /** The values read back from the fields of the `fmt ` chunk. */
  lemma FmtReads(rate: nat)
    ensures var h := FmtChunk(rate);
            && h[0..4] == FMT_TAG
            && ReadLE(h[4..8]) == FMT_CHUNK_SIZE
            && ReadLE(h[8..10]) == PCM_FORMAT
            && ReadLE(h[10..12]) == CHANNELS
            && ReadLE(h[12..16]) == rate % U32
            && ReadLE(h[16..20]) == (rate * 2) % U32
            && ReadLE(h[20..22]) == BLOCK_ALIGN
            && ReadLE(h[22..24]) == BITS_PER_SAMPLE
  {
    FmtFields(rate);
    Pow256Values();
    ReadLEOfSmall(FMT_CHUNK_SIZE, 4);
    ReadLEOfSmall(PCM_FORMAT, 2);
    ReadLEOfSmall(CHANNELS, 2);
    ReadLEOfLE(rate, 4);
    ReadLEOfLE(rate * 2, 4);
    ReadLEOfSmall(BLOCK_ALIGN, 2);
    ReadLEOfSmall(BITS_PER_SAMPLE, 2);
  }

  /** The `data` chunk header: its tag and the byte count of the samples. */
  lemma DataLayout(samples: seq<int16>, rate: nat)
    ensures var bs := WavBytes(samples, rate);
            && bs[36..40] == DATA_TAG
            && ReadLE(bs[40..44]) == (2 * |samples|) % U32
  {
    var bs := WavBytes(samples, rate);
    WavParts(samples, rate);
    DataFields(|samples|);
    SubSlice(bs, 36, 44, 0, 4);
    SubSlice(bs, 36, 44, 4, 8);
    Pow256Values();
    ReadLEOfLE(2 * |samples|, 4);
  }

  /** Sample `i` occupies bytes `44 + 2i` and `45 + 2i` and reads back as itself. */
  lemma SampleAt(samples: seq<int16>, rate: nat, i: nat)
    requires i < |samples|
    ensures var bs := WavBytes(samples, rate);
            && bs[HEADER_SIZE + 2 * i..HEADER_SIZE + 2 * i + 2] == I16LE(samples[i])
            && ReadI16(bs[HEADER_SIZE + 2 * i..HEADER_SIZE + 2 * i + 2]) == samples[i]
  {
    var bs := WavBytes(samples, rate);
    WavParts(samples, rate);
    SampleBytesAt(samples, i);
    assert bs[HEADER_SIZE + 2 * i..HEADER_SIZE + 2 * i + 2] == bs[HEADER_SIZE..][2 * i..2 * i + 2];
    ReadI16OfI16LE(samples[i]);
  }

  /** While the file fits in 32 bits, the RIFF size field is the file length minus 8 and the
      data size field the length of the sample data. */
  lemma SizeFields(samples: seq<int16>, rate: nat)
    requires 36 + 2 * |samples| < U32
    ensures var bs := WavBytes(samples, rate);
            ReadLE(bs[4..8]) == |bs| - 8 && ReadLE(bs[40..44]) == |bs| - HEADER_SIZE
  {
    RiffLayout(samples, rate);
    DataLayout(samples, rate);
    ModOfSmall(36 + 2 * |samples|, U32);
    ModOfSmall(2 * |samples|, U32);
  }

  // ---------------------------------------------------------------------------
  // reading a file back
  // ---------------------------------------------------------------------------

  /** Every fixed header field of a `|bs|`-byte file for `dataSize` bytes of samples at `rate`. */
  predicate HeaderFieldsHold(bs: seq<byte>, dataSize: nat, rate: nat)
    requires |bs| >= HEADER_SIZE
  {
    && bs[0..4] == RIFF_TAG && bs[8..12] == WAVE_TAG && bs[12..16] == FMT_TAG && bs[36..40] == DATA_TAG
    && ReadLE(bs[4..8]) == 36 + dataSize
    && ReadLE(bs[16..20]) == FMT_CHUNK_SIZE && ReadLE(bs[20..22]) == PCM_FORMAT
    && ReadLE(bs[22..24]) == CHANNELS && ReadLE(bs[28..32]) == (rate * 2) % U32
    && ReadLE(bs[32..34]) == BLOCK_ALIGN && ReadLE(bs[34..36]) == BITS_PER_SAMPLE
  }

  /** A reader for exactly the files `audioToBlob` writes: checks every header field and
      returns the samples and the sample rate. */
  function ParseWav(bs: seq<byte>): Option<(seq<int16>, nat)> {
    if |bs| < HEADER_SIZE then None
    else
      var dataSize := ReadLE(bs[40..44]);
      var rate := ReadLE(bs[24..28]);
      if !HeaderFieldsHold(bs, dataSize, rate) || dataSize % 2 != 0 || |bs| != HEADER_SIZE + dataSize then None
      else
        Some((seq(dataSize / 2, i requires 0 <= i < dataSize / 2 =>
                    ReadI16(bs[HEADER_SIZE + 2 * i..HEADER_SIZE + 2 * i + 2])), rate))
  }

  /** While no 32-bit field wraps, the header `audioToBlob` writes passes every check of the
      reader, which finds the data size and the rate in it. */
  lemma HeaderRecognised(samples: seq<int16>, rate: nat)
    requires 36 + 2 * |samples| < U32
    requires rate < U32
    ensures var bs := WavBytes(samples, rate);
            && ReadLE(bs[40..44]) == 2 * |samples|
            && ReadLE(bs[24..28]) == rate
            && HeaderFieldsHold(bs, 2 * |samples|, rate)
  {
    var n := |samples|;
    RiffLayout(samples, rate);
    FmtLayout(samples, rate);
    DataLayout(samples, rate);
    ModOfSmall(36 + 2 * n, U32);
    ModOfSmall(2 * n, U32);
    ModOfSmall(rate, U32);
  }

  /** Reading the data chunk two bytes at a time gives back the samples. */
  lemma SamplesRecognised(samples: seq<int16>, rate: nat)
    ensures var bs := WavBytes(samples, rate);
            seq(|samples|, i requires 0 <= i < |samples| =>
                  ReadI16(bs[HEADER_SIZE + 2 * i..HEADER_SIZE + 2 * i + 2])) == samples
  {
    var bs := WavBytes(samples, rate);
    var read := seq(|samples|, i requires 0 <= i < |samples| =>
                      ReadI16(bs[HEADER_SIZE + 2 * i..HEADER_SIZE + 2 * i + 2]));
    forall i | 0 <= i < |samples|
      ensures read[i] == samples[i]
    {
      SampleAt(samples, rate, i);
    }
  }

  /** Reading back what `audioToBlob` wrote gives the samples and the rate, while every
      32-bit field holds its value without wrapping. */
  lemma ParseWavBytes(samples: seq<int16>, rate: nat)
    requires 36 + 2 * |samples| < U32
    requires rate < U32
    ensures ParseWav(WavBytes(samples, rate)) == Some((samples, rate))
  {
    HeaderRecognised(samples, rate);
    SamplesRecognised(samples, rate);
    assert (2 * |samples|) / 2 == |samples|;
  }

  // ---------------------------------------------------------------------------
  // the writer
  // ---------------------------------------------------------------------------

  /** Stores `bytes` at `offset`, one element at a time, leaving the rest of `buf` alone. */
  method Put<T>(buf: array<T>, offset: nat, bytes: seq<T>)
    requires offset + |bytes| <= buf.Length
    modifies buf
    ensures buf[..offset + |bytes|] == old(buf[..offset]) + bytes
    ensures forall j :: offset + |bytes| <= j < buf.Length ==> buf[j] == old(buf[j])
  {
    var i := 0;
    while i < |bytes|
      invariant 0 <= i <= |bytes|
      invariant buf[..offset + i] == old(buf[..offset]) + bytes[..i]
      invariant forall j :: offset + |bytes| <= j < buf.Length ==> buf[j] == old(buf[j])
    {
      buf[offset + i] := bytes[i];
      i := i + 1;
    }
  }

  /** `writeString(offset, s)`. */
  method WriteString(buf: array<byte>, offset: nat, s: string)
    requires offset + |s| <= buf.Length
    modifies buf
    ensures buf[..offset + |s|] == old(buf[..offset]) + Ascii(s)
    ensures forall j :: offset + |s| <= j < buf.Length ==> buf[j] == old(buf[j])
  {
    var i := 0;
    while i < |s|
      invariant 0 <= i <= |s|
      invariant buf[..offset + i] == old(buf[..offset]) + Ascii(s)[..i]
      invariant forall j :: offset + |s| <= j < buf.Length ==> buf[j] == old(buf[j])
    {
      buf[offset + i] := (s[i] as int % 256) as byte;
      i := i + 1;
    }
  }

  /** The writes at offsets 0 to 11. */
  method WriteRiffHeader(buf: array<byte>, n: nat)
    requires buf.Length >= 12
    modifies buf
    ensures buf[..12] == RiffHeader(n)
    ensures forall j :: 12 <= j < buf.Length ==> buf[j] == old(buf[j])
  {
    TagsAreAscii();
    WriteString(buf, 0, "RIFF");
    Put(buf, 4, LE(36 + n * 2, 4));
    WriteString(buf, 8, "WAVE");
  }

  /** The writes at offsets 12 to 35. */
  method WriteFmtChunk(buf: array<byte>, rate: nat)
    requires buf.Length >= 36
    modifies buf
    ensures buf[..36] == old(buf[..12]) + FmtChunk(rate)
    ensures forall j :: 36 <= j < buf.Length ==> buf[j] == old(buf[j])
  {
    TagsAreAscii();
    WriteString(buf, 12, "fmt ");
    Put(buf, 16, LE(FMT_CHUNK_SIZE, 4));
    Put(buf, 20, LE(PCM_FORMAT, 2));
    Put(buf, 22, LE(CHANNELS, 2));
    assert buf[..24] == old(buf[..12]) + FmtFormat();
    Put(buf, 24, LE(rate, 4));
    Put(buf, 28, LE(rate * 2, 4));
    Put(buf, 32, LE(BLOCK_ALIGN, 2));
    Put(buf, 34, LE(BITS_PER_SAMPLE, 2));
    assert buf[..36] == old(buf[..12]) + FmtFormat() + FmtRates(rate);
  }

  /** The writes at offsets 36 to 43. */
  method WriteDataHeader(buf: array<byte>, n: nat)
    requires buf.Length >= HEADER_SIZE
    modifies buf
    ensures buf[..HEADER_SIZE] == old(buf[..36]) + DataHeader(n)
    ensures forall j :: HEADER_SIZE <= j < buf.Length ==> buf[j] == old(buf[j])
  {
    TagsAreAscii();
    WriteString(buf, 36, "data");
    Put(buf, 40, LE(n * 2, 4));
  }

  /** The header writes of `audioToBlob`, in order, at offsets 0 to 43. */
  method WriteHeader(buf: array<byte>, n: nat, rate: nat)
    requires buf.Length >= HEADER_SIZE
    modifies buf
    ensures buf[..HEADER_SIZE] == Header(n, rate)
    ensures forall j :: HEADER_SIZE <= j < buf.Length ==> buf[j] == old(buf[j])
  {
    WriteRiffHeader(buf, n);
    WriteFmtChunk(buf, rate);
    WriteDataHeader(buf, n);
  }

  /** `audioToBlob(samples, rate)`: allocates `44 + 2n` bytes, writes the header and then the
      samples. */
  method AudioToBlob(samples: seq<int16>, rate: nat) returns (blob: seq<byte>)
    ensures blob == WavBytes(samples, rate)
  {
    var buf := new byte[HEADER_SIZE + |samples| * 2];
    WriteHeader(buf, |samples|, rate);
    WriteSamples(buf, samples);
    blob := buf[..];
  }

  /** The sample loop of `audioToBlob`: two bytes per sample at a running offset after the
      header. */
  method WriteSamples(buf: array<byte>, samples: seq<int16>)
    requires buf.Length == HEADER_SIZE + 2 * |samples|
    modifies buf
    ensures buf[..] == old(buf[..HEADER_SIZE]) + SampleBytes(samples)
  {
    ghost var head := buf[..HEADER_SIZE];
    var offset := HEADER_SIZE;
    var i := 0;
    while i < |samples|
      invariant 0 <= i <= |samples|
      invariant offset == HEADER_SIZE + 2 * i
      invariant buf[..offset] == head + SampleBytes(samples[..i])
    {
      Put(buf, offset, I16LE(samples[i]));
      SampleBytesExtend(samples, i);
      AppendAssoc(head, SampleBytes(samples[..i]), I16LE(samples[i]));
      offset := offset + 2;
      i := i + 1;
    }
    assert samples[..i] == samples;
    assert buf[..] == buf[..offset];
  }

  lemma AppendAssoc<T>(a: seq<T>, b: seq<T>, c: seq<T>)
    ensures a + b + c == a + (b + c)
  {
  }
}
