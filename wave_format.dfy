/** The mix format the audio service reports (`WAVEFORMATEX`) and the WAV
    header description built from it (`hound::WavSpec`). */
module WaveFormat {
  import opened MachineInts

  /** `WAVE_FORMAT_PCM`: integer samples. Any other tag is treated as float. */
  const WAVE_FORMAT_PCM: uint16 := 1

  /** The fields of `WAVEFORMATEX`. */
  datatype MixFormat = MixFormat(
    wFormatTag: uint16,
    nChannels: uint16,
    nSamplesPerSec: uint32,
    nAvgBytesPerSec: uint32,
    nBlockAlign: uint16,
    wBitsPerSample: uint16,
    cbSize: uint16)

  datatype SampleFormat = Int | Float

  /** The header description handed to the WAV writer. */
  datatype WavSpec = WavSpec(
    channels: uint16,
    sampleRate: uint32,
    bitsPerSample: uint16,
    sampleFormat: SampleFormat)

  /** The header of a saved file copies the layout of the mix format and
      declares integer samples exactly for the PCM tag. */
  function HeaderSpec(fmt: MixFormat): (spec: WavSpec)
    ensures spec.channels == fmt.nChannels
    ensures spec.sampleRate == fmt.nSamplesPerSec
    ensures spec.bitsPerSample == fmt.wBitsPerSample
    ensures spec.sampleFormat == Int <==> fmt.wFormatTag == WAVE_FORMAT_PCM
    ensures spec.sampleFormat == Float <==> fmt.wFormatTag != WAVE_FORMAT_PCM
  {
    WavSpec(
      fmt.nChannels,
      fmt.nSamplesPerSec,
      fmt.wBitsPerSample,
      if fmt.wFormatTag == WAVE_FORMAT_PCM then Int else Float)
  }
}
