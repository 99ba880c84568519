/** One round of the control loop of `main`: the operator's Enter flips the
    recording flag; a stop hands the captured bytes to the WAV writer and
    clears them; the new state is printed. */
module Control {
  import opened MachineInts
  import opened Wrappers
  import opened WaveFormat
  import opened Shared

  /** What the file system does during a stop: whether `create_dir_all`
      succeeds and whether the save then succeeds. */
  datatype Env = Env(dirCreated: bool, saveSucceeds: bool)

  /** The log line a stop produces. */
  datatype SaveNote = NoAudioCaptured | MixFormatUnavailable | Saved | SaveFailed

  /** A round either prints the new state, or ends `main` with the error of
      `create_dir_all`. */
  datatype Outcome = Reported(status: string, note: Option<SaveNote>) | Exited

  /** The arguments a save is attempted with. */
  datatype SaveRequest = SaveRequest(data: seq<byte>, format: MixFormat)

  datatype Toggled = Toggled(cells: Cells, outcome: Outcome, save: Option<SaveRequest>)

  const IDLE := "Idle"
  const LISTENING := "Listening"

  /** One toggle, as a function of the shared cells before it. */
  function ToggleSpec(c: Cells, env: Env): (t: Toggled)
    // the flag flips and the printed label names the new state
    ensures t.cells.isRecording == !c.isRecording
    ensures t.outcome.Reported? ==>
      t.outcome.status == (if t.cells.isRecording then LISTENING else IDLE)
    ensures t.cells.mixFormat == c.mixFormat
    // a save is attempted exactly on a stop with bytes and a known format
    ensures t.save.Some? <==>
      c.isRecording && c.audioData != [] && c.mixFormat.Some? && env.dirCreated
    ensures t.save.Some? ==> t.save.value == SaveRequest(c.audioData, c.mixFormat.value)
    ensures t.save.Some? ==>
      t.outcome == Reported(IDLE, Some(if env.saveSucceeds then Saved else SaveFailed))
    ensures c.isRecording && c.audioData == [] ==>
      t.outcome == Reported(IDLE, Some(NoAudioCaptured))
    ensures c.isRecording && c.audioData != [] && c.mixFormat.None? ==>
      t.outcome == Reported(IDLE, Some(MixFormatUnavailable))
    // only a failed directory creation ends the loop, and before the clear
    ensures t.outcome.Exited? <==>
      c.isRecording && c.audioData != [] && c.mixFormat.Some? && !env.dirCreated
    // a stop that reports leaves the buffer empty; a start leaves it alone
    ensures c.isRecording && t.outcome.Reported? ==> t.cells.audioData == []
    ensures !c.isRecording ==> t.cells.audioData == c.audioData && t.outcome == Reported(LISTENING, None)
    ensures t.outcome.Exited? ==> t.cells.audioData == c.audioData
  {
    if c.isRecording then
      var stopped := c.(isRecording := false);
      if c.audioData == [] then
        Toggled(stopped.(audioData := []), Reported(IDLE, Some(NoAudioCaptured)), None)
      else if c.mixFormat.None? then
        Toggled(stopped.(audioData := []), Reported(IDLE, Some(MixFormatUnavailable)), None)
      else if !env.dirCreated then
        Toggled(stopped, Exited, None)
      else
        var note := if env.saveSucceeds then Saved else SaveFailed;
        Toggled(stopped.(audioData := []), Reported(IDLE, Some(note)),
                Some(SaveRequest(c.audioData, c.mixFormat.value)))
    else
      Toggled(c.(isRecording := true), Reported(LISTENING, None), None)
  }

  /** The toggle branch of the control loop, holding the flag's lock
      throughout. Returns the printed outcome and the save it attempted. */
  method Toggle(s: SharedState, env: Env) returns (outcome: Outcome, save: Option<SaveRequest>)
    modifies s
    ensures Toggled(s.Snapshot(), outcome, save) == ToggleSpec(old(s.Snapshot()), env)
  {
    save := None;
    if s.isRecording {
      s.isRecording := false;
      if |s.audioData| == 0 {
        outcome := Reported(IDLE, Some(NoAudioCaptured));
      } else {
        var format := s.mixFormat;
        match format
        case None =>
          outcome := Reported(IDLE, Some(MixFormatUnavailable));
        case Some(f) =>
          if !env.dirCreated {
            outcome := Exited;
            return;
          }
          save := Some(SaveRequest(s.audioData, f));
          outcome := Reported(IDLE, Some(if env.saveSucceeds then Saved else SaveFailed));
      }
      s.audioData := [];
    } else {
      s.isRecording := true;
      outcome := Reported(LISTENING, None);
    }
  }

  /** What the capture thread may change between two toggles: it appends to
      the buffer and publishes the mix format, never the flag. */
  datatype Round = Round(audioData: seq<byte>, mixFormat: Option<MixFormat>, env: Env)

  /** The outcomes of successive toggles, whatever the capture thread did in
      between; the run ends at the first exit. */
  function RunToggles(c: Cells, rounds: seq<Round>): seq<Outcome>
    decreases |rounds|
  {
    if rounds == [] then []
    else
      var r := rounds[0];
      var t := ToggleSpec(c.(audioData := r.audioData, mixFormat := r.mixFormat), r.env);
      if t.outcome.Exited? then [Exited] else [t.outcome] + RunToggles(t.cells, rounds[1..])
  }

  /** Successive toggles print alternating states, starting from the one
      opposite to the initial flag, whatever the timing of the capture
      thread; only the last round can end the loop. */
  lemma {:induction false} LabelsAlternate(c: Cells, rounds: seq<Round>)
    ensures var outs := RunToggles(c, rounds);
      forall i :: 0 <= i < |outs| ==>
        (outs[i].Reported? ==>
          outs[i].status == (if (i % 2 == 0) == c.isRecording then IDLE else LISTENING)) &&
        (outs[i].Exited? ==> i == |outs| - 1)
    decreases |rounds|
  {
    if rounds != [] {
      var r := rounds[0];
      var t := ToggleSpec(c.(audioData := r.audioData, mixFormat := r.mixFormat), r.env);
      if !t.outcome.Exited? {
        LabelsAlternate(t.cells, rounds[1..]);
        var outs := RunToggles(c, rounds);
        assert outs == [t.outcome] + RunToggles(t.cells, rounds[1..]);
        forall i | 1 <= i < |outs|
          ensures outs[i] == RunToggles(t.cells, rounds[1..])[i - 1]
          ensures ((i - 1) % 2 == 0) == t.cells.isRecording <==> (i % 2 == 0) == c.isRecording
        {
        }
      }
    }
  }

  /** Starting idle, the first toggle reports "Listening" and the second,
      with nothing captured between them, takes the no-audio path and
      attempts no save. */
  lemma StartThenStopWithoutPackets(format: Option<MixFormat>, env1: Env, env2: Env)
    ensures var t1 := ToggleSpec(Cells(false, [], format), env1);
      var t2 := ToggleSpec(t1.cells, env2);
      t1.outcome == Reported(LISTENING, None) &&
      t2.outcome == Reported(IDLE, Some(NoAudioCaptured)) &&
      t2.save.None? && t2.cells == Cells(false, [], format)
  {
  }
}
