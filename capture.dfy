/** The capture thread: start-up, the edge detector that starts and stops
    the audio client when the shared flag changes, and the pump that drains
    the available packets into the shared buffer while recording. The audio
    service's answers are inputs; the Start and Stop calls that succeeded
    are an event log. */
module Capture {
  import opened MachineInts
  import opened Wrappers
  import opened WaveFormat
  import opened Arithmetic
  import opened Framing
  import opened Shared

  /** A call on the audio client that succeeded. */
  datatype Event = Started | Stopped

  /** The answer to one packet query: a packet of `frames` frames whose
      buffer is `bytes` and whose release succeeds or fails, or a failed
      `GetNextPacketSize` or `GetBuffer` call. */
  datatype Poll = Packet(frames: uint32, bytes: seq<byte>, released: bool) | CallFailed

  /** The audio service hands out at least `frames * nBlockAlign` bytes for a packet. */
  predicate Fits(p: Poll, align: nat)
  {
    p.Packet? ==> p.frames * align <= |p.bytes|
  }

  predicate Delivers(polls: seq<Poll>, align: nat)
  {
    forall i :: 0 <= i < |polls| ==> Fits(polls[i], align)
  }

  /** The bytes a packet adds to the buffer. */
  function Payload(p: Poll, align: nat): (b: seq<byte>)
    requires p.Packet? && p.frames * align <= |p.bytes|
    ensures |b| == p.frames * align
  {
    p.bytes[..p.frames * align]
  }

  /** The bytes one drain appends, the number of frames they hold, and
      whether the drain ended without a failed call. */
  datatype Drained = Drained(appended: seq<byte>, frames: nat, ok: bool)

  /** The drain loop: packets are taken while the next packet size is
      positive; an empty queue reads as size 0. */
  function Drain(polls: seq<Poll>, align: nat): (d: Drained)
    requires Delivers(polls, align)
    ensures |d.appended| == d.frames * align
    ensures polls == [] ==> d == Drained([], 0, true)
    decreases |polls|
  {
    if polls == [] then Drained([], 0, true)
    else
      var p := polls[0];
      assert Fits(p, align);
      if p.CallFailed? then Drained([], 0, false)
      else if p.frames == 0 then Drained([], 0, true)
      else if !p.released then Drained(Payload(p, align), p.frames, false)
      else
        assert Delivers(polls[1..], align) by {
          forall i | 0 <= i < |polls| - 1 ensures Fits(polls[1..][i], align) {
            assert polls[1..][i] == polls[i + 1];
          }
        }
        var rest := Drain(polls[1..], align);
        MulAdd(p.frames, rest.frames, align);
        Drained(Payload(p, align) + rest.appended, p.frames + rest.frames, rest.ok)
  }

  lemma DeliversFrom(polls: seq<Poll>, align: nat, k: nat)
    requires Delivers(polls, align) && k <= |polls|
    ensures Delivers(polls[k..], align)
  {
    forall i | 0 <= i < |polls| - k ensures Fits(polls[k..][i], align) {
      assert polls[k..][i] == polls[k + i];
    }
  }

  // What the drain does with the first answer; a helper for the proof of `Pump`.
  lemma DrainFirst(polls: seq<Poll>, align: nat)
    requires Delivers(polls, align) && polls != []
    ensures Fits(polls[0], align) && Delivers(polls[1..], align)
    ensures polls[0].CallFailed? ==> Drain(polls, align) == Drained([], 0, false)
    ensures polls[0].Packet? && polls[0].frames == 0 ==> Drain(polls, align) == Drained([], 0, true)
    ensures polls[0].Packet? && polls[0].frames > 0 && !polls[0].released ==>
      Drain(polls, align).appended == Payload(polls[0], align) && !Drain(polls, align).ok
    ensures Taken(polls[0]) ==>
      Drain(polls, align).appended == Payload(polls[0], align) + Drain(polls[1..], align).appended &&
      Drain(polls, align).ok == Drain(polls[1..], align).ok
  {
    DeliversFrom(polls, align, 1);
  }

  /** A packet that is taken: positive size, released afterwards. */
  predicate Taken(p: Poll)
  {
    p.Packet? && p.frames > 0 && p.released
  }

  predicate AllTaken(polls: seq<Poll>)
  {
    forall i :: 0 <= i < |polls| ==> Taken(polls[i])
  }

  /** The payloads of a run of packets, concatenated in order. */
  function Payloads(polls: seq<Poll>, align: nat): seq<byte>
    requires Delivers(polls, align)
    requires AllTaken(polls)
  {
    if polls == [] then [] else Payload(polls[0], align) + Payloads(polls[1..], align)
  }

  /** The drain takes packets until the first size 0 (or an empty queue),
      appending exactly their payloads, and leaves later packets queued. */
  lemma {:induction false} DrainStopsAtEmpty(polls: seq<Poll>, align: nat, j: nat)
    requires Delivers(polls, align)
    requires j <= |polls| && AllTaken(polls[..j])
    requires j < |polls| ==> polls[j].Packet? && polls[j].frames == 0
    ensures Drain(polls, align).appended == Payloads(polls[..j], align)
    ensures Drain(polls, align).ok
    decreases j
  {
    if j > 0 {
      assert polls[1..][..j - 1] == polls[..j][1..];
      DrainStopsAtEmpty(polls[1..], align, j - 1);
    }
  }

  /** A failed query ends the drain with failure, after the packets before
      it were appended. */
  lemma {:induction false} DrainStopsAtFailure(polls: seq<Poll>, align: nat, j: nat)
    requires Delivers(polls, align)
    requires j < |polls| && AllTaken(polls[..j])
    requires polls[j].CallFailed?
    ensures Drain(polls, align).appended == Payloads(polls[..j], align)
    ensures !Drain(polls, align).ok
    decreases j
  {
    if j > 0 {
      assert polls[1..][..j - 1] == polls[..j][1..];
      DrainStopsAtFailure(polls[1..], align, j - 1);
    }
  }

  /** A packet whose release fails ends the drain with failure, after it and
      the packets before it were appended. */
  lemma {:induction false} DrainStopsAtReleaseFailure(polls: seq<Poll>, align: nat, j: nat)
    requires Delivers(polls, align)
    requires j < |polls| && AllTaken(polls[..j])
    requires polls[j].Packet? && polls[j].frames > 0 && !polls[j].released
    ensures Fits(polls[j], align)
    ensures Drain(polls, align).appended == Payloads(polls[..j], align) + Payload(polls[j], align)
    ensures !Drain(polls, align).ok
    decreases j
  {
    assert Fits(polls[j], align);
    if j > 0 {
      DeliversFrom(polls, align, 1);
      assert polls[1..][..j - 1] == polls[..j][1..];
      assert polls[1..][j - 1] == polls[j];
      DrainStopsAtReleaseFailure(polls[1..], align, j - 1);
    }
  }

  // ---------------------------------------------------------------------
  // The edge detector

  /** The capture thread's own state: `was_recording` and the calls that
      succeeded so far. */
  datatype Engine = Engine(wasRecording: bool, events: seq<Event>)

  /** What the audio service answers during one iteration: whether a Start
      or Stop call succeeds, and the packet queries of the drain. */
  datatype Input = Input(clientCallOk: bool, polls: seq<Poll>)

  /** The state after one iteration, and whether the loop goes on. */
  datatype Stepped = Stepped(engine: Engine, buffer: seq<byte>, running: bool)

  function PumpSpec(e: Engine, buffer: seq<byte>, align: nat, polls: seq<Poll>): Stepped
    requires Delivers(polls, align)
  {
    var d := Drain(polls, align);
    Stepped(e, buffer + d.appended, d.ok)
  }

  /** One iteration of the capture loop, given the flag it read. */
  function StepSpec(e: Engine, recording: bool, buffer: seq<byte>, align: nat, inp: Input): (s: Stepped)
    requires Delivers(inp.polls, align)
    // Start only on a rising edge, Stop only on a falling edge
    ensures s.engine.events == e.events +
      if recording && !e.wasRecording && inp.clientCallOk then [Started]
      else if !recording && e.wasRecording && inp.clientCallOk then [Stopped]
      else []
    // afterwards the remembered state is the flag, unless the call failed
    ensures s.engine.wasRecording ==
      if recording != e.wasRecording && !inp.clientCallOk then e.wasRecording else recording
    // no packet is touched while idle; while recording the drain appends at the tail
    ensures !recording ==> s.buffer == buffer && s.running == (recording == e.wasRecording || inp.clientCallOk)
    ensures recording && (e.wasRecording || inp.clientCallOk) ==>
      s.buffer == buffer + Drain(inp.polls, align).appended && s.running == Drain(inp.polls, align).ok
    ensures recording && !e.wasRecording && !inp.clientCallOk ==> s == Stepped(e, buffer, false)
  {
    if recording && !e.wasRecording then
      if !inp.clientCallOk then Stepped(e, buffer, false)
      else PumpSpec(Engine(true, e.events + [Started]), buffer, align, inp.polls)
    else if !recording && e.wasRecording then
      if !inp.clientCallOk then Stepped(e, buffer, false)
      else Stepped(Engine(false, e.events + [Stopped]), buffer, true)
    else if !recording then Stepped(e, buffer, true)
    else PumpSpec(e, buffer, align, inp.polls)
  }

  /** The calls alternate Start, Stop, Start, ... */
  predicate Alternates(events: seq<Event>)
  {
    forall i :: 0 <= i < |events| ==> events[i] == if i % 2 == 0 then Started else Stopped
  }

  /** The engine's invariant: the calls alternate, and the client is started
      exactly when the last call was a Start. */
  predicate Consistent(e: Engine)
  {
    Alternates(e.events) && (e.wasRecording <==> |e.events| % 2 == 1)
  }

  /** Every iteration keeps the calls alternating, so two Starts are always
      separated by a Stop. */
  lemma StepKeepsConsistent(e: Engine, recording: bool, buffer: seq<byte>, align: nat, inp: Input)
    requires Delivers(inp.polls, align)
    requires Consistent(e)
    ensures Consistent(StepSpec(e, recording, buffer, align, inp).engine)
  {
    var e' := StepSpec(e, recording, buffer, align, inp).engine;
    if e'.events != e.events {
      forall i | 0 <= i < |e'.events|
        ensures e'.events[i] == if i % 2 == 0 then Started else Stopped
      {
        if i < |e.events| {
          assert e'.events[i] == e.events[i];
        }
      }
    }
  }

  /** Every iteration appends whole frames only, so a buffer of whole frames
      stays one. */
  lemma StepKeepsWholeFrames(e: Engine, recording: bool, buffer: seq<byte>, align: nat, inp: Input)
    requires Delivers(inp.polls, align)
    requires align > 0 && |buffer| % align == 0
    ensures |StepSpec(e, recording, buffer, align, inp).buffer| % align == 0
  {
    var s := StepSpec(e, recording, buffer, align, inp);
    if s.buffer != buffer {
      var d := Drain(inp.polls, align);
      var q := |buffer| / align;
      assert |s.buffer| == |buffer| + |d.appended|;
      MulAdd(q, d.frames, align);
      DivUnique(|s.buffer|, align, q + d.frames, 0);
    }
  }

  /** What the other thread does before an iteration: the flag it left and
      the buffer it left (cleared after a stop, or unchanged). */
  datatype Observed = Observed(recording: bool, buffer: seq<byte>, inp: Input)

  /** The engine after a run of iterations; the run ends when the loop does. */
  function RunEngine(e: Engine, align: nat, obs: seq<Observed>): Engine
    requires forall i :: 0 <= i < |obs| ==> Delivers(obs[i].inp.polls, align)
    decreases |obs|
  {
    if obs == [] then e
    else
      var s := StepSpec(e, obs[0].recording, obs[0].buffer, align, obs[0].inp);
      if s.running then RunEngine(s.engine, align, obs[1..]) else s.engine
  }

  /** However the flag is toggled, the audio client sees Start, Stop, Start,
      ...: never two Starts without a Stop between them. */
  lemma {:induction false} RunAlternates(e: Engine, align: nat, obs: seq<Observed>)
    requires forall i :: 0 <= i < |obs| ==> Delivers(obs[i].inp.polls, align)
    requires Consistent(e)
    ensures Consistent(RunEngine(e, align, obs))
    decreases |obs|
  {
    if obs != [] {
      var s := StepSpec(e, obs[0].recording, obs[0].buffer, align, obs[0].inp);
      StepKeepsConsistent(e, obs[0].recording, obs[0].buffer, align, obs[0].inp);
      if s.running {
        RunAlternates(s.engine, align, obs[1..]);
      }
    }
  }

  // ---------------------------------------------------------------------
  // The thread

  class CaptureEngine {
    /** The mix format read once at start-up; its block alignment is the
        frame size. */
    const format: MixFormat
    var wasRecording: bool
    var events: seq<Event>
    var running: bool

    function State(): Engine
      reads this
    {
      Engine(wasRecording, events)
    }

    ghost predicate Valid()
      reads this
    {
      Consistent(State())
    }

    constructor (fmt: MixFormat)
      ensures format == fmt && State() == Engine(false, []) && running && Valid()
    {
      format := fmt;
      wasRecording := false;
      events := [];
      running := true;
    }

    /** One iteration of the capture loop. */
    method Step(shared: SharedState, inp: Input)
      requires running && Valid()
      requires Delivers(inp.polls, format.nBlockAlign)
      modifies this, shared`audioData
      ensures Valid()
      ensures Stepped(State(), shared.audioData, running) ==
        StepSpec(old(State()), shared.isRecording, old(shared.audioData), format.nBlockAlign, inp)
    {
      StepKeepsConsistent(State(), shared.isRecording, shared.audioData, format.nBlockAlign, inp);
      var recording := shared.isRecording;
      if recording && !wasRecording {
        if !inp.clientCallOk {
          running := false;
          return;
        }
        events := events + [Started];
        wasRecording := true;
      } else if !recording && wasRecording {
        if !inp.clientCallOk {
          running := false;
          return;
        }
        events := events + [Stopped];
        wasRecording := false;
      }
      if !recording {
        return;
      }
      var ok := Pump(shared, inp.polls);
      if !ok {
        running := false;
      }
    }

    /** The `while packet_length > 0` drain. */
    method Pump(shared: SharedState, polls: seq<Poll>) returns (ok: bool)
      requires Delivers(polls, format.nBlockAlign)
      modifies shared`audioData
      ensures shared.audioData == old(shared.audioData) + Drain(polls, format.nBlockAlign).appended
      ensures ok == Drain(polls, format.nBlockAlign).ok
    {
      var align := format.nBlockAlign;
      var k := 0;
      assert polls[k..] == polls;
      if k < |polls| {
        DrainFirst(polls, align);
        if polls[k].CallFailed? {
          return false;
        }
      }
      var packetLength: uint32 := if k < |polls| then polls[k].frames else 0;
      while packetLength > 0
        invariant 0 <= k <= |polls| && Delivers(polls[k..], align)
        invariant packetLength > 0 ==> k < |polls| && polls[k].Packet? && polls[k].frames == packetLength
        invariant packetLength == 0 ==> Drain(polls[k..], align) == Drained([], 0, true)
        invariant shared.audioData + Drain(polls[k..], align).appended ==
          old(shared.audioData) + Drain(polls, align).appended
        invariant Drain(polls[k..], align).ok == Drain(polls, align).ok
        decreases |polls| - k
      {
        var p := polls[k];
        DrainFirst(polls[k..], align);
        var dataSize := p.frames * align;
        shared.audioData := shared.audioData + p.bytes[..dataSize];
        if !p.released {
          return false;
        }
        assert polls[k..][1..] == polls[k + 1..];
        k := k + 1;
        if k < |polls| {
          DrainFirst(polls[k..], align);
          if polls[k].CallFailed? {
            return false;
          }
        }
        packetLength := if k < |polls| then polls[k].frames else 0;
      }
      ok := true;
    }
  }

  /** Start-up of the capture thread. `mix` is the format `GetMixFormat`
      returned, or None when a call before it failed; `initialized` says
      whether `Initialize` and `GetService` succeeded. The format is
      published before `Initialize`, so it is known to the control thread
      even when the capture thread then fails. */
  method Open(shared: SharedState, mix: Option<MixFormat>, initialized: bool)
    returns (engine: CaptureEngine?)
    modifies shared`mixFormat
    ensures shared.mixFormat == if mix.Some? then mix else old(shared.mixFormat)
    ensures engine != null <==> mix.Some? && initialized
    ensures engine != null ==>
      fresh(engine) && engine.format == mix.value && engine.running && engine.Valid() &&
      engine.State() == Engine(false, [])
  {
    engine := null;
    if mix.None? {
      return;
    }
    shared.mixFormat := mix;
    if !initialized {
      return;
    }
    engine := new CaptureEngine(mix.value);
  }
}
