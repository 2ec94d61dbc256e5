/**
 * The interview sequencer of `InterviewerController`: a three-state machine
 * over the index of the current question. In state "" it asks the next
 * question (or, past the last one, stops the gesture and eye-contact
 * recorders); in "saying" it waits for the question's audio to stop; in
 * "response" it starts the answer recording and launches a listener that,
 * once the recording has stopped, moves on to the next question.
 *
 * The coroutines `SayQuestion` and `ListenToSpeaker` are modelled by counting
 * the ones that are suspended and resuming them on explicit events.
 */
module Interviewer {
  import opened Common
  import EyeContact
  import Gesture
  import Recorder

  /** One entry of `DataManager.questions`. */
  datatype QuestionInfo = QuestionInfo(text: string, audio: string, questionId: string)

  /** The `_state` string: "" is Idle, "saying" is Saying, "response" is Response. */
  datatype Phase = Idle | Saying | Response

  /**
   * The controller's fields, the coroutines it has suspended, the questions
   * played so far, and the state of the three components it drives.
   */
  datatype World = World(
    phase: Phase,
    index: nat,
    sayers: nat,           // suspended SayQuestion coroutines, waiting for the audio to stop
    listeners: nat,        // suspended ListenToSpeaker coroutines, waiting for the recording to stop
    uiActive: bool,        // RecordingUI.activeSelf
    asked: seq<QuestionInfo>,
    recorder: Recorder.Flags,
    gesture: Gesture.Counters,
    eye: EyeContact.Tracker)

  /** The result of one `Update`: either it ran to the end, or `questions[index]` threw. */
  datatype FrameResult = Completed(world: World) | OutOfRange(world: World)

  /** The invariants of the three driven components. */
  ghost predicate Consistent(w: World)
  {
    Recorder.Guarded(w.recorder) && Gesture.CountersConsistent(w.gesture) && EyeContact.StreakConsistent(w.eye)
  }

  /** `questions != null && questions.Count != 0`. */
  predicate HasQuestions(questions: Option<seq<QuestionInfo>>)
  {
    questions.Some? && |questions.value| != 0
  }

  /** The X button check at the end of every `Update` (lines 46-47). */
  function XButton(w: World, xPressed: bool): World
  {
    if w.recorder.recording && xPressed then w.(recorder := Recorder.Stop(w.recorder)) else w
  }

  /** One call of `Update`. */
  function Step(w: World, questions: Option<seq<QuestionInfo>>, xPressed: bool): (r: FrameResult)
    ensures Consistent(w) ==> Consistent(r.world)
    // Update itself never moves the index and never leaves "saying"
    ensures r.world.index == w.index
    ensures w.phase == Saying ==> r.world.phase == Saying && r.world.listeners == w.listeners
    // with no questions only the X button is checked
    ensures !HasQuestions(questions) ==> r == Completed(XButton(w, xPressed))
    // asking the next question; the session's recorders start with the first one
    ensures HasQuestions(questions) && w.phase == Idle && w.index < |questions.value| ==>
              && r.Completed?
              && r.world.sayers == w.sayers + 1
              && r.world.asked == w.asked + [questions.value[w.index]]
              && r.world.gesture == (if w.index == 0 then Gesture.Start(w.gesture) else w.gesture)
              && r.world.eye == (if w.index == 0 then EyeContact.Start(w.eye) else w.eye)
              && r.world.phase == Saying
              && r.world.uiActive == w.uiActive && r.world.listeners == w.listeners
              && r.world.recorder == XButton(w, xPressed).recorder
    // while the question plays, only the X button is checked
    ensures HasQuestions(questions) && w.phase == Saying ==> r == Completed(XButton(w, xPressed))
    // past the last question: both recorders are stopped and the state stays ""
    ensures HasQuestions(questions) && w.phase == Idle && w.index == |questions.value| ==>
              r == Completed(XButton(w.(eye := EyeContact.Stop(w.eye)), xPressed))
    // an index beyond the list makes questions[index] throw after `_state` became "saying"
    ensures r.OutOfRange? <==> HasQuestions(questions) && w.phase == Idle && w.index > |questions.value|
    ensures r.OutOfRange? ==> r.world == w.(phase := Saying)
    // every frame in "response" retries the recorder and launches one more listener
    ensures HasQuestions(questions) && w.phase == Response ==>
              && r.Completed?
              && r.world.phase == Response
              && r.world.listeners == w.listeners + 1
              && r.world.uiActive
              && r.world.sayers == w.sayers && r.world.asked == w.asked
              && r.world.gesture == w.gesture && r.world.eye == w.eye
              && r.world.recorder == (var started := Recorder.Start(w.recorder);
                                      if started.recording && xPressed then Recorder.Stop(started) else started)
    ensures !(HasQuestions(questions) && w.phase == Response) ==> r.world.listeners == w.listeners
    ensures xPressed && r.Completed? ==> !r.world.recorder.recording
  {
    if !HasQuestions(questions) then
      Completed(XButton(w, xPressed))
    else
      var qs := questions.value;
      if w.phase == Idle && w.index > |qs| then
        OutOfRange(w.(phase := Saying))
      else
        var asking :=
          if w.phase != Idle then w
          else if w.index == |qs| then w.(eye := EyeContact.Stop(w.eye))
          else
            var session :=
              if w.index == 0 then w.(gesture := Gesture.Start(w.gesture), eye := EyeContact.Start(w.eye)) else w;
            session.(phase := Saying, sayers := w.sayers + 1, asked := w.asked + [qs[w.index]]);
        var responding :=
          if asking.phase == Response then
            asking.(recorder := Recorder.Start(asking.recorder), uiActive := true, listeners := asking.listeners + 1)
          else asking;
        Completed(XButton(responding, xPressed))
  }

  /** The question's audio stopped: every suspended `SayQuestion` sets the state to "response". */
  function AfterPlayback(w: World): (r: World)
    ensures Consistent(w) ==> Consistent(r)
    ensures r.index == w.index && r.listeners == w.listeners && r.sayers == 0
    ensures w.sayers > 0 ==> r == w.(phase := Response, sayers := 0)
    ensures w.sayers == 0 ==> r == w
  {
    if w.sayers > 0 then w.(phase := Response, sayers := 0) else w
  }

  /**
   * The coroutine check while the answer recording is off: every suspended
   * `ListenToSpeaker` hides the UI, adds one to the index and sets the state
   * to "", so the index moves by the number of frames spent in "response".
   */
  function AfterRecording(w: World): (r: World)
    ensures Consistent(w) ==> Consistent(r)
    ensures !w.recorder.recording ==> r.index == w.index + w.listeners && r.listeners == 0
    ensures !w.recorder.recording && w.listeners > 0 ==>
              r == w.(index := w.index + w.listeners, phase := Idle, uiActive := false, listeners := 0)
    ensures w.recorder.recording || w.listeners == 0 ==> r == w
  {
    if !w.recorder.recording && w.listeners > 0 then
      w.(index := w.index + w.listeners, phase := Idle, uiActive := false, listeners := 0)
    else w
  }

  /** What can happen to the controller: a frame's `Update`, or a coroutine resuming. */
  datatype Event = UpdateEvent(questions: Option<seq<QuestionInfo>>, xPressed: bool) | PlaybackStopped | RecordingStopped

  function Apply(w: World, e: Event): World
  {
    match e
    case UpdateEvent(questions, xPressed) => Step(w, questions, xPressed).world
    case PlaybackStopped => AfterPlayback(w)
    case RecordingStopped => AfterRecording(w)
  }

  /** A sequence of events, applied in order. */
  function Run(w: World, events: seq<Event>): (r: World)
    ensures Consistent(w) ==> Consistent(r)
    ensures w.index <= r.index
    decreases |events|
  {
    if events == [] then w else Run(Apply(w, events[0]), events[1..])
  }

  /** The controller after `Start`, driving three freshly started components. */
  function Begin(recorder: Recorder.Flags): World
  {
    World(Idle, 0, 0, 0, false, [], recorder, Gesture.Initial, EyeContact.Initial)
  }

  /**
   * The index can move by more than one per question: with two questions and
   * an authorised microphone, answering the first one over two frames (the
   * second with X pressed) leaves two listeners, which both resume; the index
   * jumps to 2, the interview counts as complete, and the second question is
   * never asked.
   */
  lemma SecondQuestionSkipped(q0: QuestionInfo, q1: QuestionInfo)
    ensures
      var questions := Some([q0, q1]);
      var r := Run(Begin(Recorder.Flags(true, false, [])),
                   [UpdateEvent(questions, false), PlaybackStopped,
                    UpdateEvent(questions, false), UpdateEvent(questions, true),
                    RecordingStopped, UpdateEvent(questions, false)]);
      r.index == 2 && r.phase == Idle && r.asked == [q0] && !r.eye.recording
  {
    var questions := Some([q0, q1]);
    var w0 := Begin(Recorder.Flags(true, false, []));
    var w1 := Apply(w0, UpdateEvent(questions, false));
    assert w1.phase == Saying && w1.sayers == 1 && w1.asked == [q0];
    var w2 := Apply(w1, PlaybackStopped);
    assert w2.phase == Response;
    var w3 := Apply(w2, UpdateEvent(questions, false));
    assert w3.listeners == 1 && w3.recorder.recording;
    var w4 := Apply(w3, UpdateEvent(questions, true));
    assert w4.listeners == 2 && !w4.recorder.recording;
    var w5 := Apply(w4, RecordingStopped);
    assert w5.index == 2 && w5.phase == Idle;
    var w6 := Apply(w5, UpdateEvent(questions, false));
    assert w6.asked == [q0] && !w6.eye.recording;
    assert Run(w5, [UpdateEvent(questions, false)]) == w6;
    assert Run(w4, [RecordingStopped, UpdateEvent(questions, false)]) == w6;
    assert Run(w3, [UpdateEvent(questions, true), RecordingStopped, UpdateEvent(questions, false)]) == w6;
    assert Run(w2, [UpdateEvent(questions, false), UpdateEvent(questions, true),
                    RecordingStopped, UpdateEvent(questions, false)]) == w6;
    assert Run(w1, [PlaybackStopped, UpdateEvent(questions, false), UpdateEvent(questions, true),
                    RecordingStopped, UpdateEvent(questions, false)]) == w6;
  }

  /**
   * Overshooting past the end throws: with a single question answered over
   * two frames, the index becomes 2, and the next `Update` fails on
   * `questions[2]` after having set the state to "saying".
   */
  lemma OvershootThrows(q0: QuestionInfo)
    ensures
      var questions := Some([q0]);
      var w := Run(Begin(Recorder.Flags(true, false, [])),
                   [UpdateEvent(questions, false), PlaybackStopped,
                    UpdateEvent(questions, false), UpdateEvent(questions, true), RecordingStopped]);
      w.index == 2 && Step(w, questions, false) == OutOfRange(w.(phase := Saying))
  {
    var questions := Some([q0]);
    var w0 := Begin(Recorder.Flags(true, false, []));
    var w1 := Apply(w0, UpdateEvent(questions, false));
    var w2 := Apply(w1, PlaybackStopped);
    var w3 := Apply(w2, UpdateEvent(questions, false));
    var w4 := Apply(w3, UpdateEvent(questions, true));
    assert w4.listeners == 2 && !w4.recorder.recording;
    var w5 := Apply(w4, RecordingStopped);
    assert w5.index == 2 && w5.phase == Idle;
    assert Run(w4, [RecordingStopped]) == w5;
    assert Run(w3, [UpdateEvent(questions, true), RecordingStopped]) == w5;
    assert Run(w2, [UpdateEvent(questions, false), UpdateEvent(questions, true), RecordingStopped]) == w5;
    assert Run(w1, [PlaybackStopped, UpdateEvent(questions, false), UpdateEvent(questions, true), RecordingStopped]) == w5;
  }

  /**
   * Once in "saying" with no `SayQuestion` left to resume (as after the
   * throw above) and no listener pending, the controller stays in "saying"
   * with the same index whatever happens next.
   */
  lemma {:induction false} StuckInSaying(w: World, events: seq<Event>)
    requires w.phase == Saying && w.sayers == 0 && w.listeners == 0
    ensures Run(w, events).phase == Saying && Run(w, events).index == w.index
    decreases |events|
  {
    if events != [] {
      var w' := Apply(w, events[0]);
      assert w'.phase == Saying && w'.sayers == 0 && w'.listeners == 0 && w'.index == w.index;
      StuckInSaying(w', events[1..]);
    }
  }

  /**
   * Past the last question the "completed" branch runs again on every frame:
   * a second `Update` changes nothing more.
   */
  lemma CompletionRepeats(w: World, questions: Option<seq<QuestionInfo>>)
    requires HasQuestions(questions) && w.phase == Idle && w.index == |questions.value|
    ensures Step(w, questions, false).world.phase == Idle
    ensures Step(Step(w, questions, false).world, questions, false) == Step(w, questions, false)
  {
  }

  /** The `InterviewerController` component, wired to the three components it drives. */
  class InterviewerController {
    var state: Phase
    var questionIndex: nat
    var sayers: nat
    var listeners: nat
    var recordingUiActive: bool
    var asked: seq<QuestionInfo>
    const interviewRecorder: Recorder.InterviewRecorder
    const gestureScript: Gesture.GestureScript
    const eyeContactScript: EyeContact.PersistentToggleDot

    function State(): World
      reads this, interviewRecorder, gestureScript, eyeContactScript, eyeContactScript.eyeTrackingHits
    {
      World(state, questionIndex, sayers, listeners, recordingUiActive, asked,
            interviewRecorder.State(), gestureScript.State(), eyeContactScript.State())
    }

    ghost predicate Valid()
      reads this, interviewRecorder, gestureScript, eyeContactScript, eyeContactScript.eyeTrackingHits
    {
      interviewRecorder.Valid() && gestureScript.Valid() && eyeContactScript.Valid()
    }

    constructor (recorder: Recorder.InterviewRecorder, gesture: Gesture.GestureScript, eye: EyeContact.PersistentToggleDot)
      ensures interviewRecorder == recorder && gestureScript == gesture && eyeContactScript == eye
      ensures state == Idle && questionIndex == 0 && sayers == 0 && listeners == 0
      ensures !recordingUiActive && asked == []
    {
      interviewRecorder := recorder;
      gestureScript := gesture;
      eyeContactScript := eye;
      state := Idle;
      questionIndex := 0;
      sayers := 0;
      listeners := 0;
      recordingUiActive := false;
      asked := [];
    }

    /** One `Update`; `outOfRange` reports that `questions[_questionIndex]` threw. */
    method Update(questions: Option<seq<QuestionInfo>>, xPressed: bool) returns (outOfRange: bool)
      requires Valid()
      modifies this, interviewRecorder, gestureScript, eyeContactScript, eyeContactScript.eyeTrackingHits
      ensures Valid()
      ensures Step(old(State()), questions, xPressed)
              == (if outOfRange then OutOfRange(State()) else Completed(State()))
    {
      outOfRange := false;
      if questions.Some? && |questions.value| != 0 {
        var qs := questions.value;
        if state == Idle {
          if questionIndex == |qs| {
            var _, _, _ := gestureScript.StopRecording();
            var _ := eyeContactScript.StopRecording();
          } else {
            if questionIndex == 0 {
              gestureScript.StartRecording();
              eyeContactScript.StartRecording();
            }
            state := Saying;
            if questionIndex > |qs| {
              outOfRange := true;
              return;
            }
            sayers := sayers + 1;
            asked := asked + [qs[questionIndex]];
          }
        }
        if state == Response {
          interviewRecorder.StartRecording();
          recordingUiActive := true;
          listeners := listeners + 1;
        }
      }
      if interviewRecorder.recording && xPressed {
        interviewRecorder.StopRecording();
      }
    }

    /** The suspended `SayQuestion` coroutines resume: the audio stopped playing. */
    method PlaybackStopped()
      modifies this
      ensures State() == AfterPlayback(old(State()))
    {
      if sayers > 0 {
        state := Response;
        sayers := 0;
      }
    }

    /** The suspended `ListenToSpeaker` coroutines are checked against `recording`. */
    method RecordingChecked()
      modifies this
      ensures State() == AfterRecording(old(State()))
    {
      if !interviewRecorder.recording && listeners > 0 {
        recordingUiActive := false;
        questionIndex := questionIndex + listeners;
        state := Idle;
        listeners := 0;
      }
    }
  }
}
