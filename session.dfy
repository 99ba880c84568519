/** One recording session seen from both threads: the capture thread's
    drains fill the buffer, and the stop that follows hands exactly those
    bytes to the save and clears the buffer. */
module Session {
  import opened MachineInts
  import opened Wrappers
  import opened WaveFormat
  import opened Shared
  import opened Control
  import opened Capture

  predicate AllDeliver(inps: seq<Input>, align: nat)
  {
    forall i :: 0 <= i < |inps| ==> Delivers(inps[i].polls, align)
  }

  /** Iterations of the capture loop while the flag stays set; the run ends
      when the loop does. */
  function RecordingRun(e: Engine, buffer: seq<byte>, align: nat, inps: seq<Input>): Stepped
    requires AllDeliver(inps, align)
    decreases |inps|
  {
    if inps == [] then Stepped(e, buffer, true)
    else
      var s := StepSpec(e, true, buffer, align, inps[0]);
      if s.running then RecordingRun(s.engine, s.buffer, align, inps[1..]) else s
  }

  /** The bytes the drains of a run append, in order. */
  function AllAppended(align: nat, inps: seq<Input>): seq<byte>
    requires AllDeliver(inps, align)
    decreases |inps|
  {
    if inps == [] then [] else Drain(inps[0].polls, align).appended + AllAppended(align, inps[1..])
  }

  /** When every call succeeds, the buffer after a run is the buffer before
      it followed by everything the drains appended, in order. */
  lemma {:induction false} RecordingRunAppends(e: Engine, buffer: seq<byte>, align: nat, inps: seq<Input>)
    requires AllDeliver(inps, align)
    requires forall i :: 0 <= i < |inps| ==> inps[i].clientCallOk && Drain(inps[i].polls, align).ok
    ensures RecordingRun(e, buffer, align, inps).running
    ensures RecordingRun(e, buffer, align, inps).engine.wasRecording || inps == []
    ensures RecordingRun(e, buffer, align, inps).buffer == buffer + AllAppended(align, inps)
    decreases |inps|
  {
    if inps != [] {
      var s := StepSpec(e, true, buffer, align, inps[0]);
      assert AllDeliver(inps[1..], align) by {
        forall i | 0 <= i < |inps| - 1 ensures Delivers(inps[1..][i].polls, align) {
          assert inps[1..][i] == inps[i + 1];
        }
      }
      RecordingRunAppends(s.engine, s.buffer, align, inps[1..]);
      var rest := AllAppended(align, inps[1..]);
      assert s.buffer + rest == buffer + (Drain(inps[0].polls, align).appended + rest);
    }
  }

  /** Start, a run of captures, stop: the save receives exactly the bytes the
      drains appended, and the buffer is empty again. */
  lemma StopSavesTheSession(format: MixFormat, e: Engine, align: nat, inps: seq<Input>, env: Env)
    requires AllDeliver(inps, align)
    requires forall i :: 0 <= i < |inps| ==> inps[i].clientCallOk && Drain(inps[i].polls, align).ok
    requires AllAppended(align, inps) != [] && env.dirCreated
    ensures var filled := RecordingRun(e, [], align, inps).buffer;
      var t := ToggleSpec(Cells(true, filled, Some(format)), env);
      t.save == Some(SaveRequest(AllAppended(align, inps), format)) &&
      t.cells == Cells(false, [], Some(format)) &&
      t.outcome.Reported? && t.outcome.status == IDLE
  {
    RecordingRunAppends(e, [], align, inps);
    assert [] + AllAppended(align, inps) == AllAppended(align, inps);
  }
}
