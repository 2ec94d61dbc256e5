/**
 * The two guard flags of `InterviewRecorder`: `ready` (microphone use was
 * authorised) and `recording` (a microphone capture is running).
 */
module Recorder {

  /** The device and network calls the component makes, in order. */
  datatype DeviceCall =
    | MicrophoneStart   // Microphone.Start, line 29
    | MicrophoneEnd     // Microphone.End, line 36
    | UploadAnswer      // SavWav.Save and the SendAudio coroutine, lines 41-44

  /** The component's flags and the calls it has made so far. */
  datatype Flags = Flags(ready: bool, recording: bool, calls: seq<DeviceCall>)

  /** Both flags start false (lines 9-10). */
  const Initial: Flags := Flags(false, false, [])

  /** A capture only ever runs with an authorised microphone. */
  ghost predicate Guarded(s: Flags)
  {
    s.recording ==> s.ready
  }

  /** `StartRecording`: acts only when ready and not already recording. */
  function Start(s: Flags): (r: Flags)
    ensures Guarded(s) ==> Guarded(r)
    ensures r.ready == s.ready
    ensures s.ready && !s.recording ==> r.recording && r.calls == s.calls + [MicrophoneStart]
    ensures !(s.ready && !s.recording) ==> r == s
  {
    if s.ready && !s.recording then s.(recording := true, calls := s.calls + [MicrophoneStart]) else s
  }

  /** `StopRecording`: clears `recording` whether or not a capture was running. */
  function Stop(s: Flags): (r: Flags)
    ensures Guarded(r) && !r.recording && r.ready == s.ready
    ensures r.calls == s.calls + [MicrophoneEnd, UploadAnswer]
  {
    s.(recording := false, calls := s.calls + [MicrophoneEnd, UploadAnswer])
  }

  /** The end of the `rua` coroutine, once the authorisation prompt was answered. */
  function Authorized(s: Flags, granted: bool): (r: Flags)
    ensures Guarded(s) ==> Guarded(r)
    ensures r.ready == (s.ready || granted)
    ensures r.recording == s.recording && r.calls == s.calls
  {
    if granted then s.(ready := true) else s
  }

  /** Everything that can happen to the component. */
  datatype Event = StartEvent | StopEvent | AuthorizedEvent(granted: bool)

  function Apply(s: Flags, e: Event): Flags
  {
    match e
    case StartEvent => Start(s)
    case StopEvent => Stop(s)
    case AuthorizedEvent(granted) => Authorized(s, granted)
  }

  function Run(s: Flags, events: seq<Event>): Flags
    decreases |events|
  {
    if events == [] then s else Run(Apply(s, events[0]), events[1..])
  }

  /** How many times the microphone was started. */
  function Starts(calls: seq<DeviceCall>): (n: nat)
    ensures n <= |calls|
  {
    if calls == [] then 0 else (if calls[0] == MicrophoneStart then 1 else 0) + Starts(calls[1..])
  }

  lemma {:induction false} StartsAppend(a: seq<DeviceCall>, b: seq<DeviceCall>)
    ensures Starts(a + b) == Starts(a) + Starts(b)
    decreases |a|
  {
    if a != [] {
      assert (a + b)[0] == a[0] && (a + b)[1..] == a[1..] + b;
      StartsAppend(a[1..], b);
    } else {
      assert a + b == b;
    }
  }

  function Bit(b: bool): int
  {
    if b then 1 else 0
  }

  /**
   * Along any sequence of calls, `ready` never goes back to false, a capture
   * never runs without authorisation, and the microphone is never started
   * while a capture runs: every start beyond the stops is matched by the
   * capture that is running at the end.
   */
  lemma {:induction false} RunKeepsGuards(s: Flags, events: seq<Event>)
    requires Guarded(s)
    ensures Guarded(Run(s, events))
    ensures s.ready ==> Run(s, events).ready
    ensures Starts(Run(s, events).calls) - Starts(s.calls)
            <= Stops(Run(s, events).calls) - Stops(s.calls) + Bit(Run(s, events).recording) - Bit(s.recording)
    decreases |events|
  {
    if events != [] {
      var s' := Apply(s, events[0]);
      match events[0] {
        case StartEvent =>
          if s.ready && !s.recording {
            StartsAppend(s.calls, [MicrophoneStart]);
            StopsAppend(s.calls, [MicrophoneStart]);
          }
        case StopEvent =>
          StartsAppend(s.calls, [MicrophoneEnd, UploadAnswer]);
          StopsAppend(s.calls, [MicrophoneEnd, UploadAnswer]);
        case AuthorizedEvent(_) =>
      }
      RunKeepsGuards(s', events[1..]);
    }
  }

  /** How many times the microphone was stopped. */
  function Stops(calls: seq<DeviceCall>): (n: nat)
    ensures n <= |calls|
  {
    if calls == [] then 0 else (if calls[0] == MicrophoneEnd then 1 else 0) + Stops(calls[1..])
  }

  lemma {:induction false} StopsAppend(a: seq<DeviceCall>, b: seq<DeviceCall>)
    ensures Stops(a + b) == Stops(a) + Stops(b)
    decreases |a|
  {
    if a != [] {
      assert (a + b)[0] == a[0] && (a + b)[1..] == a[1..] + b;
      StopsAppend(a[1..], b);
    } else {
      assert a + b == b;
    }
  }

  /** The `InterviewRecorder` component. */
  class InterviewRecorder {
    var ready: bool
    var recording: bool
    var calls: seq<DeviceCall>

    function State(): Flags
      reads this
    {
      Flags(ready, recording, calls)
    }

    ghost predicate Valid()
      reads this
    {
      Guarded(State())
    }

    constructor ()
      ensures Valid() && State() == Initial
    {
      ready := false;
      recording := false;
      calls := [];
    }

    method StartRecording()
      requires Valid()
      modifies this
      ensures Valid()
      ensures State() == Start(old(State()))
    {
      if ready && !recording {
        recording := true;
        calls := calls + [MicrophoneStart];
      }
    }

    method StopRecording()
      modifies this
      ensures Valid()
      ensures State() == Stop(old(State()))
    {
      recording := false;
      calls := calls + [MicrophoneEnd, UploadAnswer];
    }

    /** The continuation of `rua` after the authorisation request was answered. */
    method AuthorizationAnswered(granted: bool)
      requires Valid()
      modifies this
      ensures Valid()
      ensures State() == Authorized(old(State()), granted)
    {
      if granted {
        ready := true;
      }
    }
  }
}
