/** Splitting the captured bytes into samples (`chunks_exact`) and decoding
    each chunk, as the save routine does before writing the WAV file. The
    model stops at integers and bit patterns: the division that scales them
    to floats is not modelled. */
module Framing {
  import opened MachineInts
  import opened Wrappers
  import opened LittleEndian
  import opened WaveFormat
  import opened Arithmetic

  // ---------------------------------------------------------------------
  // Fixed-size chunks

  /** The consecutive k-byte chunks of `data`; a shorter tail is dropped. */
  function Chunks(data: seq<byte>, k: nat): (r: seq<seq<byte>>)
    requires k > 0
    ensures |r| == |data| / k
    ensures forall i :: 0 <= i < |r| ==> |r[i]| == k
    decreases |data|
  {
    if |data| < k then []
    else
      DivStep(|data|, k);
      [data[..k]] + Chunks(data[k..], k)
  }


  /** The i-th chunk is the i-th run of k bytes. */
  lemma {:induction false} ChunkAt(data: seq<byte>, k: nat, i: nat)
    requires k > 0 && i < |data| / k
    ensures i * k + k <= |data|
    ensures Chunks(data, k)[i] == data[i * k .. i * k + k]
    decreases i
  {
    FloorBounds(|data|, k);
    MulAtLeast(k, |data| / k);
    if i > 0 {
      DivStep(|data|, k);
      ChunkAt(data[k..], k, i - 1);
      var a := (i - 1) * k;
      MulSucc(i - 1, k);
      assert data[k..][a .. a + k] == data[a + k .. a + k + k];
    }
  }

  function Flatten(pieces: seq<seq<byte>>): seq<byte>
  {
    if pieces == [] then [] else pieces[0] + Flatten(pieces[1..])
  }

  /** The chunks cover the data except a tail shorter than one chunk. */
  lemma {:induction false} ChunksDropOnlyTail(data: seq<byte>, k: nat)
    requires k > 0
    ensures (|data| / k) * k <= |data| < (|data| / k) * k + k
    ensures Flatten(Chunks(data, k)) == data[..(|data| / k) * k]
    decreases |data|
  {
    FloorBounds(|data|, k);
    if |data| < k {
      DivUnique(|data|, k, 0, |data|);
    } else {
      DivStep(|data|, k);
      ChunksDropOnlyTail(data[k..], k);
      var m := ((|data| - k) / k) * k;
      assert (|data| / k) * k == m + k;
      assert data[..k] + data[k..][..m] == data[..m + k];
    }
  }

  /** Chunking the concatenation of k-byte pieces gives back the pieces. */
  lemma {:induction false} ChunksOfFlatten(pieces: seq<seq<byte>>, k: nat)
    requires k > 0
    requires forall i :: 0 <= i < |pieces| ==> |pieces[i]| == k
    ensures |Flatten(pieces)| == |pieces| * k
    ensures Chunks(Flatten(pieces), k) == pieces
  {
    if pieces != [] {
      ChunksOfFlatten(pieces[1..], k);
      var d := Flatten(pieces);
      assert d[..k] == pieces[0];
      assert d[k..] == Flatten(pieces[1..]);
      assert pieces == [pieces[0]] + pieces[1..];
    }
  }

  // ---------------------------------------------------------------------
  // One sample

  /** A decoded sample, before scaling to a float. */
  datatype Sample =
    | Int16(v: int)          // i16::from_le_bytes
    | Int24(v: int)          // i32::from_le_bytes with a zero top byte
    | Int32(v: int)          // i32::from_le_bytes
    | FloatBits(bits: nat)   // the bit pattern given to f32::from_le_bytes
    | Zero                   // unsupported depth: the sample is written as 0.0

  /** The samples a chunk of the given format can decode to. */
  predicate Representable(fmt: MixFormat, s: Sample)
  {
    match fmt.wBitsPerSample
    case 16 => s.Int16? && -0x8000 <= s.v < 0x8000
    case 24 => s.Int24? && 0 <= s.v < 0x100_0000
    case 32 =>
      if fmt.wFormatTag == WAVE_FORMAT_PCM then s.Int32? && -0x8000_0000 <= s.v < 0x8000_0000
      else s.FloatBits? && s.bits < 0x1_0000_0000
    case _ => s.Zero?
  }

  /** Decodes one chunk of `wBitsPerSample / 8` bytes, least significant
      byte first. The 24-bit case puts the three bytes under a zero top byte
      and so never yields a negative value. */
  function DecodeChunk(fmt: MixFormat, b: seq<byte>): (r: Sample)
    requires |b| == fmt.wBitsPerSample / 8
    ensures Representable(fmt, r)
    ensures fmt.wBitsPerSample == 16 ==>
      r.v == b[0] as int + 0x100 * (b[1] as int) - (if b[1] >= 0x80 then 0x1_0000 else 0)
    ensures fmt.wBitsPerSample == 24 ==>
      r.v == b[0] as int + 0x100 * (b[1] as int) + 0x1_0000 * (b[2] as int)
    ensures fmt.wBitsPerSample == 32 && fmt.wFormatTag == WAVE_FORMAT_PCM ==>
      r.v == b[0] as int + 0x100 * (b[1] as int) + 0x1_0000 * (b[2] as int) + 0x100_0000 * (b[3] as int)
             - (if b[3] >= 0x80 then 0x1_0000_0000 else 0)
    ensures fmt.wBitsPerSample == 32 && fmt.wFormatTag != WAVE_FORMAT_PCM ==>
      r.bits == b[0] as int + 0x100 * (b[1] as int) + 0x1_0000 * (b[2] as int) + 0x100_0000 * (b[3] as int)
  {
    SmallPowers();
    LeExpansion(b);
    match fmt.wBitsPerSample
    case 16 =>
      Int16(Signed(FromLe([b[0], b[1]]), 2))
    case 24 =>
      Int24(Signed(FromLe([b[0], b[1], b[2], 0]), 4))
    case 32 =>
      if fmt.wFormatTag == WAVE_FORMAT_PCM then
        Int32(Signed(FromLe([b[0], b[1], b[2], b[3]]), 4))
      else
        FloatBits(FromLe([b[0], b[1], b[2], b[3]]))
    case _ => Zero
  }

  /** The bytes of a sample: the inverse of DecodeChunk. */
  function EncodeSample(fmt: MixFormat, s: Sample): (b: seq<byte>)
    requires Representable(fmt, s)
    ensures |b| == fmt.wBitsPerSample / 8
  {
    SmallPowers();
    match s
    case Int16(v) => ToLe(Unsigned(v, 2), 2)
    case Int24(v) => ToLe(v, 3)
    case Int32(v) => ToLe(Unsigned(v, 4), 4)
    case FloatBits(x) => ToLe(x, 4)
    case Zero => seq(fmt.wBitsPerSample / 8, _ => 0)
  }

  /** Decoding the bytes of a sample gives the sample back. */
  lemma DecodeEncode(fmt: MixFormat, s: Sample)
    requires Representable(fmt, s)
    ensures DecodeChunk(fmt, EncodeSample(fmt, s)) == s
  {
    SmallPowers();
    var b := EncodeSample(fmt, s);
    match s
    case Int16(v) =>
      assert [b[0], b[1]] == b;
      FromLeToLe(Unsigned(v, 2), 2);
      SignedUnsigned(v, 2);
    case Int24(v) =>
      assert [b[0], b[1], b[2], 0] == b + [0];
      FromLeToLe(v, 3);
      FromLePadded(b);
    case Int32(v) =>
      assert [b[0], b[1], b[2], b[3]] == b;
      FromLeToLe(Unsigned(v, 4), 4);
      SignedUnsigned(v, 4);
    case FloatBits(x) =>
      assert [b[0], b[1], b[2], b[3]] == b;
      FromLeToLe(x, 4);
    case Zero =>
  }

  /** A zero top byte does not change a little-endian value. */
  lemma {:induction false} FromLePadded(bs: seq<byte>)
    ensures FromLe(bs + [0]) == FromLe(bs)
  {
    if bs != [] {
      assert (bs + [0])[1..] == bs[1..] + [0];
      FromLePadded(bs[1..]);
    }
  }

  /** For the supported depths, decoding loses nothing: the bytes can be
      rebuilt from the sample. */
  lemma EncodeDecode(fmt: MixFormat, b: seq<byte>)
    requires fmt.wBitsPerSample in {16, 24, 32}
    requires |b| == fmt.wBitsPerSample / 8
    ensures EncodeSample(fmt, DecodeChunk(fmt, b)) == b
  {
    SmallPowers();
    if fmt.wBitsPerSample == 16 {
      assert [b[0], b[1]] == b;
      UnsignedSigned(FromLe(b), 2);
      ToLeFromLe(b);
    } else if fmt.wBitsPerSample == 24 {
      assert [b[0], b[1], b[2], 0] == b + [0];
      FromLePadded(b);
      ToLeFromLe(b);
    } else {
      assert [b[0], b[1], b[2], b[3]] == b;
      UnsignedSigned(FromLe(b), 4);
      ToLeFromLe(b);
    }
  }

  /** The 24-bit reading does not sign-extend: the bytes 00 00 80, the most
      negative 24-bit value, read as 8388608, above the divisor 8388607 the
      program scales by. */
  lemma Decode24IsNotSignExtended(fmt: MixFormat)
    requires fmt.wBitsPerSample == 24
    ensures DecodeChunk(fmt, [0x00, 0x00, 0x80]) == Int24(0x80_0000)
    ensures DecodeChunk(fmt, [0x00, 0x00, 0x80]).v > 8388607
  {
  }

  // ---------------------------------------------------------------------
  // The whole buffer

  /** `chunks_exact` panics on a chunk size of zero. */
  datatype ConvertError = ZeroChunkSize

  /** The samples of a captured buffer, one per `wBitsPerSample / 8` bytes. */
  function Samples(data: seq<byte>, fmt: MixFormat): (r: Result<seq<Sample>, ConvertError>)
    ensures r.Failure? <==> fmt.wBitsPerSample < 8
    ensures r.Success? ==> |r.value| == |data| / (fmt.wBitsPerSample / 8)
    ensures r.Success? ==> forall i :: 0 <= i < |r.value| ==> Representable(fmt, r.value[i])
  {
    var k := fmt.wBitsPerSample / 8;
    if k == 0 then Failure(ZeroChunkSize)
    else
      Success(DecodeAll(fmt, Chunks(data, k)))
  }

  /** Decodes every chunk, in order. */
  function DecodeAll(fmt: MixFormat, chunks: seq<seq<byte>>): (r: seq<Sample>)
    requires forall i :: 0 <= i < |chunks| ==> |chunks[i]| == fmt.wBitsPerSample / 8
    ensures |r| == |chunks|
    ensures forall i :: 0 <= i < |r| ==> r[i] == DecodeChunk(fmt, chunks[i])
  {
    if chunks == [] then [] else [DecodeChunk(fmt, chunks[0])] + DecodeAll(fmt, chunks[1..])
  }

  /** The i-th sample is decoded from bytes i*k up to (i+1)*k. */
  lemma SampleAt(data: seq<byte>, fmt: MixFormat, i: nat)
    requires fmt.wBitsPerSample >= 8
    requires i < |data| / (fmt.wBitsPerSample / 8)
    ensures var k := fmt.wBitsPerSample / 8;
      i * k + k <= |data| &&
      Samples(data, fmt).value[i] == DecodeChunk(fmt, data[i * k .. i * k + k])
  {
    ChunkAt(data, fmt.wBitsPerSample / 8, i);
  }

  /** Any depth other than 16, 24 or 32 bits writes a 0.0 for every chunk. */
  lemma UnsupportedDepthIsSilence(data: seq<byte>, fmt: MixFormat)
    requires fmt.wBitsPerSample >= 8 && fmt.wBitsPerSample !in {16, 24, 32}
    ensures Samples(data, fmt).Success?
    ensures forall i :: 0 <= i < |Samples(data, fmt).value| ==> Samples(data, fmt).value[i] == Zero
  {
  }

  /** The bytes of each sample of a sequence. */
  function EncodePieces(fmt: MixFormat, ss: seq<Sample>): (pieces: seq<seq<byte>>)
    requires forall i :: 0 <= i < |ss| ==> Representable(fmt, ss[i])
    ensures |pieces| == |ss|
    ensures forall i :: 0 <= i < |ss| ==> pieces[i] == EncodeSample(fmt, ss[i])
  {
    if ss == [] then [] else [EncodeSample(fmt, ss[0])] + EncodePieces(fmt, ss[1..])
  }

  /** The bytes of a sequence of samples, one chunk each. */
  function EncodeAll(fmt: MixFormat, ss: seq<Sample>): seq<byte>
    requires forall i :: 0 <= i < |ss| ==> Representable(fmt, ss[i])
  {
    Flatten(EncodePieces(fmt, ss))
  }

  /** Decoding a stream of encoded samples gives back the samples. */
  lemma SamplesRoundTrip(fmt: MixFormat, ss: seq<Sample>)
    requires fmt.wBitsPerSample >= 8
    requires forall i :: 0 <= i < |ss| ==> Representable(fmt, ss[i])
    ensures Samples(EncodeAll(fmt, ss), fmt) == Success(ss)
  {
    var k := fmt.wBitsPerSample / 8;
    var pieces := EncodePieces(fmt, ss);
    ChunksOfFlatten(pieces, k);
    var r := Samples(EncodeAll(fmt, ss), fmt).value;
    assert |r| == |ss|;
    forall i | 0 <= i < |ss| ensures r[i] == ss[i] {
      DecodeEncode(fmt, ss[i]);
    }
    assert r == ss;
  }

  // ---------------------------------------------------------------------
  // Header and payload together

  /** For 32-bit data the header's sample format and the decoding agree:
      integer samples exactly when the header says Int. */
  lemma HeaderAgreesWith32BitDecoding(fmt: MixFormat, b: seq<byte>)
    requires fmt.wBitsPerSample == 32 && |b| == 4
    ensures DecodeChunk(fmt, b).Int32? <==> HeaderSpec(fmt).sampleFormat == Int
    ensures DecodeChunk(fmt, b).FloatBits? <==> HeaderSpec(fmt).sampleFormat == Float
  {
  }

  /** A buffer of whole frames yields one sample per channel per frame,
      when the block alignment is the channel count times the sample size. */
  lemma {:induction false} SamplesPerFrame(data: seq<byte>, fmt: MixFormat, frames: nat)
    requires fmt.wBitsPerSample >= 8
    requires fmt.nBlockAlign == fmt.nChannels * (fmt.wBitsPerSample / 8)
    requires |data| == frames * fmt.nBlockAlign
    ensures |Samples(data, fmt).value| == frames * fmt.nChannels
  {
    var k := fmt.wBitsPerSample / 8;
    assert |data| == (frames * fmt.nChannels) * k;
    MulDiv(frames * fmt.nChannels, k);
  }


  /** Two 4800-byte packets of 16-bit stereo at 44100 Hz save as a file
      declaring 2 channels, 44100 Hz, 16-bit integer samples, and holding
      2400 frames of 2 samples. */
  lemma StereoScenario(data: seq<byte>, fmt: MixFormat)
    requires fmt.wFormatTag == WAVE_FORMAT_PCM && fmt.nChannels == 2
    requires fmt.nSamplesPerSec == 44100 && fmt.wBitsPerSample == 16
    requires fmt.nBlockAlign == 4 && |data| == 2 * 4800
    ensures HeaderSpec(fmt) == WavSpec(2, 44100, 16, Int)
    ensures |Samples(data, fmt).value| == 2400 * 2
  {
    SamplesPerFrame(data, fmt, 2400);
  }
}
