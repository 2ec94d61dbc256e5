# Interview simulator: per-frame bookkeeping, in Dafny

A model of the logic inside the Unity VR interview-practice app (Hack The North 2022).
The app is mostly engine glue, and the model covers the state machines and byte layouts inside it:

- **Eye-contact dwell table** (`PersistentToggleDot`, module `EyeContact`). While recording, it follows which tagged object the gaze ray hits. When the gaze moves on to another tagged object, the streak on the previous tag is credited to its total if it lasted more than half a second. Looking at nothing, or at an untagged object, pauses the streak, and stopping the recording does not credit it.
- **Gesture counter** (`GestureScript`, module `Gesture`). It counts the frames on which either controller moved further than a threshold from where it was at the last counted gesture. A gesture made with the hands spread at an angle between 10 degrees and a configured maximum is also counted as "in the strike zone".
- **Interview sequencer** (`InterviewerController`, module `Interviewer`). Its states are "", "saying" and "response", and it keeps a question index. It asks each question, waits for the audio to stop, records the answer, and moves on once the recording has stopped.
- **Recorder guard flags** (`InterviewRecorder`, module `Recorder`). The microphone may be used only after authorisation (`ready`), and only one capture runs at a time (`recording`).
- **Authentication poll timer** (`MenuController`, module `Menu`). It requests a pairing code once, then polls the backend every three seconds of accumulated frame time.
- **Eye-tracker request builders** (`EyeTrackerAPI`, module `EyeTrackerRequests`). These build the blob save/load payloads, with a 32-bit little-endian ID at offset 1, and the eye-offset packet. The module also tracks the `Calibrating` and `RunningAutotune` flags that the request coroutines maintain.

The five per-frame components are each modelled in two layers:

- **A state value and pure transitions.** The component's fields form a datatype (`Tracker`, `Counters`, `Flags`, `Timer`, `World`). One call of its engine entry point is a pure function (`Tick`, `Step`, `Start`, `Stop`), and a run of consecutive calls is a recursive `Run`. The lemmas about whole runs are stated on these.
- **A class that mutates its fields.** Each method's postcondition says the new state is the pure transition applied to the old one. Each class also keeps an invariant (`Valid`); that of `InterviewerController` is the conjunction of the invariants of the three components it drives.

The eye-tracker module has two parts. Its payloads are pure functions with round-trip lemmas. Its `EyeTrackerApi` class tracks the calibration and autotune flags directly, with no separate state value: each method states its new fields outright, and `Valid` states the autotune invariant.

Engine inputs are explicit parameters of each step:

- the gaze ray's tag;
- the controller positions and their angle;
- `Time.deltaTime`;
- key and button presses.

Coroutines become explicit resumption events: the question's audio stopped, the recording is off, a UDP request completed, a frame passed during a wait.

## Model

| member | source | states |
|---|---|---|
| EyeContact.Credit | Assets/EyeTrackingAPI/Runtime/Scripts/Tools/PersistentToggleDot.cs:74-78 | crediting a streak adds it to the tag's total, or inserts the tag with the streak as its total; the keys become the old keys plus the tag, and every other entry is unchanged |
| EyeContact.Tick | Assets/EyeTrackingAPI/Runtime/Scripts/Tools/PersistentToggleDot.cs:39-94 | the toggle key flips `on`. A frame that is not recording, is toggled off, has no player, misses, or hits an "Untagged" object leaves streak and table alone. The same tag extends the streak by `dt`, with the table unchanged. A new tag restarts the streak at `dt`, and when the previous streak lasted more than 0.5 s it is credited to the previous tag. The table only grows, only the previous tag's entry can change, a changed table is exactly the credit of a streak over 0.5 s, and "every total exceeds 0.5 s" is preserved |
| EyeContact.Start | Assets/EyeTrackingAPI/Runtime/Scripts/Tools/PersistentToggleDot.cs:18 | sets recording and empties the table; `on`, `currentHit` and `timeHit` are kept |
| EyeContact.Stop | Assets/EyeTrackingAPI/Runtime/Scripts/Tools/PersistentToggleDot.cs:19 | clears recording only; the streak in `timeHit` is not credited |
| EyeContact.Run | Assets/EyeTrackingAPI/Runtime/Scripts/Tools/PersistentToggleDot.cs:36-96 | over any run of frames with non-negative `dt` the streak stays consistent (non-negative, zero while no tag was seen) and the recording flag is unchanged |
| EyeContact.RunOnlyGrowsTable | Assets/EyeTrackingAPI/Runtime/Scripts/Tools/PersistentToggleDot.cs:73-79 | between two `StartRecording` calls no key is removed, no total shrinks, and every total stays above 0.5 s |
| EyeContact.SessionTableHoldsLongStreaks | Assets/EyeTrackingAPI/Runtime/Scripts/Tools/PersistentToggleDot.cs:18-19 | after `StartRecording` and any frames, the table holds only totals above 0.5 s and recording is still on |
| EyeContact.ToggledOffRecordsNothing | Assets/EyeTrackingAPI/Runtime/Scripts/Tools/PersistentToggleDot.cs:50-94 | with the toggle off and never pressed, a run of frames changes nothing |
| EyeContact.StaleStreakCreditedToNextSession | Assets/EyeTrackingAPI/Runtime/Scripts/Tools/PersistentToggleDot.cs:18-19 | for every streak of more than 0.5 s still running at `StopRecording`, the first gaze at another tag after the next `StartRecording` credits it to the new session's table, which then holds exactly that entry |
| EyeContact.PersistentToggleDot.constructor | Assets/EyeTrackingAPI/Runtime/Scripts/Tools/PersistentToggleDot.cs:11-32 | starts on, not recording, no tag seen, zero streak, with a fresh empty dictionary |
| EyeContact.PersistentToggleDot.StartRecording | Assets/EyeTrackingAPI/Runtime/Scripts/Tools/PersistentToggleDot.cs:18 | the new state is `Start` of the old one; the invariant is kept |
| EyeContact.PersistentToggleDot.StopRecording | Assets/EyeTrackingAPI/Runtime/Scripts/Tools/PersistentToggleDot.cs:19 | returns the live dictionary object itself, and the new state is `Stop` of the old one |
| EyeContact.PersistentToggleDot.Update | Assets/EyeTrackingAPI/Runtime/Scripts/Tools/PersistentToggleDot.cs:36-96 | the new state, dictionary included, is `Tick` of the old one; the invariant is kept |
| Gesture.Step | Assets/Scripts/GestureScript.cs:38-61 | nothing changes while not recording. While recording, `duration` grows by `dt`. `gestureCount` grows by exactly 1 when either hand moved past the threshold from its stored position (a zero one replaced first), and is unchanged otherwise. `amountInStrikeZone` grows only on such a frame, and only when 10 < angle < the angle threshold. The stored positions are overwritten only then, apart from filling in a zero one. `-1 <= gestureCount` and `0 <= amountInStrikeZone <= gestureCount + 1` are preserved |
| Gesture.Start | Assets/Scripts/GestureScript.cs:24-31 | recording, `gestureCount` -1, zero strike-zone count and duration, both stored positions zero; the counter invariant holds |
| Gesture.FirstRecordedFrameCountsNothing | Assets/Scripts/GestureScript.cs:48-51 | with a non-negative threshold the first frame after `StartRecording` counts nothing and stores the current positions |
| Gesture.Run | Assets/Scripts/GestureScript.cs:38-61 | over any run both counters never decrease, the strike-zone count grows by no more than the gesture count, and the counter invariant is kept |
| Gesture.GesturesBoundedByFrames | Assets/Scripts/GestureScript.cs:51-52 | a run of n frames counts at most n gestures |
| Gesture.DurationIsElapsedTime | Assets/Scripts/GestureScript.cs:59 | while recording, `duration` grows by exactly the sum of the frame times |
| Gesture.IdleRunChangesNothing | Assets/Scripts/GestureScript.cs:40 | while not recording, no run of frames changes anything |
| Gesture.GestureScript.constructor | Assets/Scripts/GestureScript.cs:9-18 | the field initialisers: not recording, `gestureCount` -1, zero strike-zone count and duration |
| Gesture.GestureScript.StartRecording | Assets/Scripts/GestureScript.cs:24-31 | the new state is `Start` of the old one; the invariant holds |
| Gesture.GestureScript.StopRecording | Assets/Scripts/GestureScript.cs:33-35 | returns the three values handed to `SendGestures` and changes nothing, so counting continues afterwards; the counts satisfy the invariant |
| Gesture.GestureScript.LateUpdate | Assets/Scripts/GestureScript.cs:38-61 | the new state is `Step` of the old one; the invariant is kept |
| Recorder.Start | Assets/Menu/Scripts/InterviewRecorder.cs:26-32 | no effect unless ready and not recording; otherwise recording, with one more microphone start |
| Recorder.Stop | Assets/Menu/Scripts/InterviewRecorder.cs:33-45 | clears `recording` unconditionally, stops the microphone and uploads the answer |
| Recorder.Authorized | Assets/Menu/Scripts/InterviewRecorder.cs:77-89 | `ready` becomes true only when authorisation was granted, and is never reset |
| Recorder.RunKeepsGuards | Assets/Menu/Scripts/InterviewRecorder.cs:26-36 | along any calls, `recording` implies `ready` and `ready` never goes back to false. The microphone starts made exceed the stops made by at most the capture running at the end (counted against the one running at the beginning) |
| Recorder.InterviewRecorder.constructor | Assets/Menu/Scripts/InterviewRecorder.cs:9-10 | both flags start false |
| Recorder.InterviewRecorder.StartRecording | Assets/Menu/Scripts/InterviewRecorder.cs:26-32 | the new state is `Start` of the old one; the guard is kept |
| Recorder.InterviewRecorder.StopRecording | Assets/Menu/Scripts/InterviewRecorder.cs:33-45 | the new state is `Stop` of the old one |
| Recorder.InterviewRecorder.AuthorizationAnswered | Assets/Menu/Scripts/InterviewRecorder.cs:77-89 | the new state is `Authorized` of the old one; the guard is kept |
| Interviewer.Step | Assets/InterviewerController.cs:23-49 | with no questions, or in "saying", only the X-button check runs. In "" at the end, the eye-contact recorder is stopped and the state stays "". In "" before the end, the state becomes "saying" and the next question is asked, and the gesture and eye-contact recordings start when the index is 0; the UI, listeners and microphone are untouched apart from the X button. An index past the end throws after the state became "saying". Each frame in "response" stays in "response", retries the microphone, shows the UI and adds one listener, leaving questions, sayers, gesture and eye contact alone. The X button stops the microphone only while it records. The index never moves |
| Interviewer.AfterPlayback | Assets/InterviewerController.cs:51-57 | once the audio stopped, every suspended `SayQuestion` sets "response" and nothing else changes; nothing happens with none suspended |
| Interviewer.AfterRecording | Assets/InterviewerController.cs:59-64 | once the recording is off, every suspended listener adds one to the index, hides the UI and sets "", and nothing else changes; nothing happens while recording or with no listener suspended |
| Interviewer.Run | Assets/InterviewerController.cs:15-64 | over any events the question index never decreases and the three components' invariants are kept |
| Interviewer.SecondQuestionSkipped | Assets/InterviewerController.cs:40-63 | answering the first of two questions over two frames moves the index by two: the interview completes with only the first question asked |
| Interviewer.OvershootThrows | Assets/InterviewerController.cs:26-37 | with one question answered over two frames the index passes the end, and the next frame throws on `questions[2]` |
| Interviewer.StuckInSaying | Assets/InterviewerController.cs:51-57 | in "saying" with no question playing and no listener, the controller stays in "saying" at the same index forever |
| Interviewer.CompletionRepeats | Assets/InterviewerController.cs:26-30 | past the last question the "completed" branch runs again on every frame without changing anything further |
| Interviewer.InterviewerController.constructor | Assets/InterviewerController.cs:14-15 | state "", index 0, nothing suspended |
| Interviewer.InterviewerController.Update | Assets/InterviewerController.cs:23-49 | the controller and the three components it drives end in `Step` of their old state, and `outOfRange` reports the throw |
| Interviewer.InterviewerController.PlaybackStopped | Assets/InterviewerController.cs:51-57 | the new state is `AfterPlayback` of the old one |
| Interviewer.InterviewerController.RecordingChecked | Assets/InterviewerController.cs:59-64 | the new state is `AfterRecording` of the old one |
| Menu.StartUp | Assets/Menu/Scripts/MenuController.cs:13-17 | launches `GetCode` and leaves the timer alone |
| Menu.Tick | Assets/Menu/Scripts/MenuController.cs:20-27 | adds `dt`. At three seconds or more it launches exactly one `PollAuth` and restarts from zero; below three it launches nothing. A timer in [0, 3) stays in [0, 3) |
| Menu.Run | Assets/Menu/Scripts/MenuController.cs:22-26 | from a timer in [0, 3), every run of non-negative frame times keeps it in [0, 3) |
| Menu.PollsPaceElapsedTime | Assets/Menu/Scripts/MenuController.cs:20-27 | updates never launch `GetCode`, and three seconds per poll plus what the accumulator holds never exceeds the elapsed time |
| Menu.CodeRequestedOnce | Assets/Menu/Scripts/MenuController.cs:13-27 | from `Start`, `GetCode` has been launched exactly once, whatever frames follow |
| Menu.MenuController.constructor | Assets/Menu/Scripts/MenuController.cs:11 | `_time` starts at zero, nothing launched; the invariant 0 <= `_time` < 3 holds |
| Menu.MenuController.Start | Assets/Menu/Scripts/MenuController.cs:13-17 | the new state is `StartUp` of the old one; the invariant is kept |
| Menu.MenuController.Update | Assets/Menu/Scripts/MenuController.cs:20-27 | the new state is `Tick` of the old one; 0 <= `_time` < 3 is kept |
| EyeTrackerRequests.LittleEndianRoundTrip | Assets/EyeTrackingAPI/Runtime/Scripts/EyeTrackerAPI/API/etapi_ahapi_requests.cs:163-189 | the four little-endian bytes written by `GetBytes` and the number read by `ToUInt32` are inverse to each other, both ways |
| EyeTrackerRequests.ToUInt32 | Assets/EyeTrackingAPI/Runtime/Scripts/EyeTrackerAPI/API/etapi_ahapi_requests.cs:163 | succeeds exactly when four bytes are available from the offset, and then yields the number whose little-endian bytes they are |
| EyeTrackerRequests.LoadBlobPayload | Assets/EyeTrackingAPI/Runtime/Scripts/EyeTrackerAPI/API/etapi_ahapi_requests.cs:184-190 | exactly five bytes: the blob type, then the ID least significant byte first |
| EyeTrackerRequests.LoadBlobIdRoundTrip | Assets/EyeTrackingAPI/Runtime/Scripts/EyeTrackerAPI/API/etapi_ahapi_requests.cs:163-189 | reading a load payload at offset 1 gives back the original ID |
| EyeTrackerRequests.SaveBlobRequest | Assets/EyeTrackingAPI/Runtime/Scripts/EyeTrackerAPI/API/etapi_ahapi_requests.cs:153-171 | SAVE_BLOB with the single blob-type byte and a one-second timeout |
| EyeTrackerRequests.LoadBlobRequest | Assets/EyeTrackingAPI/Runtime/Scripts/EyeTrackerAPI/API/etapi_ahapi_requests.cs:184-199 | also SAVE_BLOB, one-second timeout, five bytes that read back as the type and the ID |
| EyeTrackerRequests.SaveAndLoadShareType | Assets/EyeTrackingAPI/Runtime/Scripts/EyeTrackerAPI/API/etapi_ahapi_requests.cs:153-199 | save and load requests share their packet type and first byte, and differ only in payload length (1 against 5) |
| EyeTrackerRequests.SaveBlobAcknowledged | Assets/EyeTrackingAPI/Runtime/Scripts/EyeTrackerAPI/API/etapi_ahapi_requests.cs:158-167 | the callback is called exactly on `AckSuccess` with a callback supplied, with the ID read at offset 1. A reply shorter than five bytes makes the conversion throw |
| EyeTrackerRequests.SavedIdReachesCallback | Assets/EyeTrackingAPI/Runtime/Scripts/EyeTrackerAPI/API/etapi_ahapi_requests.cs:158-189 | a successful reply laid out like a load payload hands the callback exactly its ID |
| EyeTrackerRequests.OffsetsFor | Assets/EyeTrackingAPI/Runtime/Scripts/EyeTrackerAPI/API/etapi_ahapi_requests.cs:56-67 | the two x offsets are negations of each other and the left one is half the IPD change in millimetres; y and z are zero |
| EyeTrackerRequests.IpdFromOffsets | Assets/EyeTrackingAPI/Runtime/Scripts/EyeTrackerAPI/API/etapi_ahapi_requests.cs:58-61 | the IPD is recovered from the left offset, so distinct IPDs give distinct offsets |
| EyeTrackerRequests.EyeOffsetPayload | Assets/EyeTrackingAPI/Runtime/Scripts/EyeTrackerAPI/API/etapi_ahapi_requests.cs:71-73 | 25 bytes: the property byte, the right vector, then the left vector |
| EyeTrackerRequests.EyeOffsetRequest | Assets/EyeTrackingAPI/Runtime/Scripts/EyeTrackerAPI/API/etapi_ahapi_requests.cs:71-74 | PROPERTY_SET carrying exactly the eye-offset payload (property byte, right vector, left vector) and the client's default timeout |
| EyeTrackerRequests.EyeOffsetsReceived | Assets/EyeTrackingAPI/Runtime/Scripts/EyeTrackerAPI/API/etapi_ahapi_requests.cs:211-227 | the setter is called exactly on `AckSuccess`, with the right vector from bytes 2-13 and the left from bytes 14-25; a reply shorter than 26 bytes is taken to fail the read |
| EyeTrackerRequests.EyeOffsetsRoundTrip | Assets/EyeTrackingAPI/Runtime/Scripts/EyeTrackerAPI/API/etapi_ahapi_requests.cs:71-227 | an ack byte followed by a set payload reads back, right before left, as the offsets that were encoded |
| EyeTrackerRequests.EyeTrackerApi.QueryBeginCalibration | Assets/EyeTrackingAPI/Runtime/Scripts/EyeTrackerAPI/API/etapi_ahapi_requests.cs:355-378 | sets `Calibrating` before sending START_CALIBRATION with no timeout |
| EyeTrackerRequests.EyeTrackerApi.QueryBeginValidation | Assets/EyeTrackingAPI/Runtime/Scripts/EyeTrackerAPI/API/etapi_ahapi_requests.cs:393-419 | sets `Calibrating` before sending START_VALIDATION with a one-second timeout |
| EyeTrackerRequests.EyeTrackerApi.AbortCalibration | Assets/EyeTrackingAPI/Runtime/Scripts/EyeTrackerAPI/API/etapi_ahapi_requests.cs:428-439 | sends ABORT_CALIBRATION; `Calibrating` is unchanged until the request completes |
| EyeTrackerRequests.EyeTrackerApi.QueryEndCalibration | Assets/EyeTrackingAPI/Runtime/Scripts/EyeTrackerAPI/API/etapi_ahapi_requests.cs:454-491 | sends STOP_CALIBRATION; `Calibrating` is unchanged until the request completes |
| EyeTrackerRequests.EyeTrackerApi.QueryEndValidation | Assets/EyeTrackingAPI/Runtime/Scripts/EyeTrackerAPI/API/etapi_ahapi_requests.cs:505-536 | sends STOP_VALIDATION; `Calibrating` is unchanged until the request completes |
| EyeTrackerRequests.EyeTrackerApi.RequestAutotune | Assets/EyeTrackingAPI/Runtime/Scripts/EyeTrackerAPI/API/etapi_ahapi_requests.cs:568-598 | sends nothing while an autotune runs. Otherwise it sets `RunningAutotune` before sending START_RANGING with the caller's timeout. At most one autotune is ever under way |
| EyeTrackerRequests.EyeTrackerApi.RequestCompleted | Assets/EyeTrackingAPI/Runtime/Scripts/EyeTrackerAPI/API/etapi_ahapi_requests.cs:428-600 | abort, end-calibration and end-validation clear `Calibrating` when their request completes. End-calibration also sets `Calibrated` on `AckSuccess`. An autotune goes on to wait for the ready signal whatever the ack, with `RunningAutotune` still set |
| EyeTrackerRequests.EyeTrackerApi.AutotuneFrame | Assets/EyeTrackingAPI/Runtime/Scripts/EyeTrackerAPI/API/etapi_ahapi_requests.cs:599-617 | the wait ends exactly when more than eight seconds have passed or the ready-signal time changed. `RunningAutotune` is cleared exactly then |

## Left out

- **Floats.** Times, positions and offsets are exact reals. Single-precision rounding is not modelled.
- **Unity's `Vector3 ==`.** It compares approximately. The model compares exactly, in the "stored position is zero" test of `LateUpdate`.
- **Engine geometry.** `Physics.Raycast` is an input, the tag hit (or none). The ray is taken to hit the same object both times it is cast in one frame. `Vector3.Angle` is an input angle. Controller positions are inputs.
- **The dot's own placement.** Moving the dot transform (lines 52-68 and 93 of the dot component) only positions a visual, so it is left out. So is the Space-key dump of the table to the log.
- **Singleton handling.** `Awake`'s duplicate destruction and `DontDestroyOnLoad` are left out.
- **Device, file and network plumbing.** `Microphone`, `AudioSource`, `SavWav`, `File`, `Application.RequestUserAuthorization`, logging and UI objects are reduced to recorded calls and flags. The HTTP client (`APIReqs.cs`) and `DataManager.cs` are not part of this model: the question list is a parameter, and `GetCode`/`PollAuth` are recorded launches.
- **Cross-file call sites that do not match their targets.** `SayQuestion` assigns a string to an `AudioClip`. `StopRecording` of the recorder calls the two-argument `SendAudio` with one argument. `GestureScript.StopRecording` calls an iterator without starting it. Each component is modelled against its own body; these calls are represented by what they would launch, or, for the gesture upload, by the values handed over.
- Gesture.Step: does not model the 32-bit wrap-around of `gestureCount` and `amountInStrikeZone`, because it would take 2^31 counted frames; the counters are unbounded integers.
- **Coroutine scheduling.** Unity's scheduler and `WaitUntil` polling are not modelled. Resumptions are explicit events that the caller may issue in any order: audio stopped, recording off, request completed, one autotune wait frame. Their interleaving with `Update` inside a frame is therefore not fixed.
- **The UDP client.** `SendUDPRequest`, acknowledgements, timeouts and retries are not part of this model. A request is recorded as sent, and its completion is an event carrying the ack status.
- **Packet codes and vector bytes.** The numeric codes of packet and property types live in `udpInfo`, which is not part of this model. `Vector3.ToBytes`, `ReadNextInt8` and `ReadNextVector3` are defined outside `etapi_ahapi_requests.cs`. The vector encoding is a function parameter that yields twelve bytes, and the decoder is a parameter too.
- EyeTrackerRequests.EyeOffsetsReceived: assumes that the reads fail on a reply shorter than 26 bytes (one byte each for the ack and the property, then twelve bytes per vector). How `ReadNextInt8` and `ReadNextVector3` behave past the end is defined outside `etapi_ahapi_requests.cs`.
- EyeTrackerRequests.LittleEndian: assumes a little-endian host. `BitConverter.GetBytes` and `BitConverter.ToUInt32` use the host's byte order, so on a big-endian host both would be reversed. The round trip between them would still hold.
- EyeTrackerRequests.EyeTrackerApi.constructor: starts `Calibrating`, `Calibrated` and `RunningAutotune` at false. Those fields are declared, with their initial values, in another part of the partial class outside `etapi_ahapi_requests.cs`.
- Interviewer.InterviewerController.constructor: starts with `RecordingUI` inactive. Its initial state is an editor setting, not code.
- **Callbacks and side effects of the calibration coroutines.** The caller-supplied success callbacks, `Streams.Gaze.Start()` and the `CallError` reporting are left out. The `timeout` argument of the begin/end coroutines is ignored by the source, and the model ignores it likewise.
- **Other eye-tracker requests.** Log modes, validation, recenter and calibration points, eye-offset queries beyond their reply layout, tracker status, device serial and the other requests of `etapi_ahapi_requests.cs` are not part of this model. Most build their payloads from vector encodings or `udpInfo` codes defined outside `etapi_ahapi_requests.cs`. The tracker-status request (an empty payload) and the device-serial request (one system-info byte, with a UTF-8 decoding of the reply) are defined in `etapi_ahapi_requests.cs`, but they touch none of the modelled state.
