/** The state the control thread and the capture thread share: the
    recording flag, the captured bytes and the mix format, each of which the
    program keeps behind its own mutex. */
module Shared {
  import opened MachineInts
  import opened Wrappers
  import opened WaveFormat

  /** A snapshot of the three shared cells. */
  datatype Cells = Cells(isRecording: bool, audioData: seq<byte>, mixFormat: Option<MixFormat>)

  class SharedState {
    var isRecording: bool
    var audioData: seq<byte>
    var mixFormat: Option<MixFormat>

    /** At start-up the program is idle, has captured nothing and has no
        mix format yet. */
    constructor ()
      ensures Snapshot() == Cells(false, [], None)
    {
      isRecording := false;
      audioData := [];
      mixFormat := None;
    }

    function Snapshot(): Cells
      reads this
    {
      Cells(isRecording, audioData, mixFormat)
    }
  }
}
