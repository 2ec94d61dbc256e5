/**
 * The gesture counter of `GestureScript`: while recording, every late update
 * compares both controller positions with the positions stored at the last
 * counted gesture and counts a gesture when either hand moved further than
 * `gestureThreshold`; a gesture made with the hands spread at an angle between
 * 10 degrees and `angleThreshold` (seen from the headset) is also counted as
 * "in the strike zone".
 */
module Gesture {
  import opened Common

  /** The angle (degrees) a gesture's spread must exceed to be in the strike zone. */
  const MinStrikeAngle: real := 10.0

  /**
   * What the engine reports for one late update: both controller positions in
   * world space, `Vector3.Angle` between the two hands as seen from the
   * headset, and `Time.deltaTime`.
   */
  datatype Frame = Frame(right: Vec3, left: Vec3, angle: real, dt: real)

  /** The two thresholds the component is configured with in the editor. */
  datatype Thresholds = Thresholds(gesture: real, angle: real)

  /** The component's fields. */
  datatype Counters = Counters(
    recording: bool,
    gestureCount: int,
    amountInStrikeZone: int,
    duration: real,
    prevRight: Vec3,
    prevLeft: Vec3)

  /** The field initialisers. */
  const Initial: Counters := Counters(false, -1, 0, 0.0, Zero, Zero)

  function Minus(a: Vec3, b: Vec3): Vec3
  {
    Vec3(a.x - b.x, a.y - b.y, a.z - b.z)
  }

  function Square(a: real): (r: real)
    ensures r >= 0.0
  {
    a * a
  }

  /** `sqrMagnitude`: the squared length of a vector. */
  function SqrMagnitude(v: Vec3): (r: real)
    ensures r >= 0.0
  {
    Square(v.x) + Square(v.y) + Square(v.z)
  }

  /**
   * `(a - b).magnitude > threshold`, compared without the square root: a
   * negative threshold is exceeded by every distance, and otherwise both sides
   * are non-negative and may be squared.
   */
  predicate FartherThan(a: Vec3, b: Vec3, threshold: real)
  {
    threshold < 0.0 || SqrMagnitude(Minus(a, b)) > Square(threshold)
  }

  /** A stored position of zero stands for "not yet set" and is replaced by the current one. */
  function Stored(prev: Vec3, current: Vec3): Vec3
  {
    if prev == Zero then current else prev
  }

  /** Either hand moved past the threshold since the stored positions. */
  predicate Moved(c: Counters, t: Thresholds, f: Frame)
  {
    FartherThan(Stored(c.prevRight, f.right), f.right, t.gesture)
    || FartherThan(Stored(c.prevLeft, f.left), f.left, t.gesture)
  }

  predicate InStrikeZone(t: Thresholds, f: Frame)
  {
    MinStrikeAngle < f.angle < t.angle
  }

  /** The invariant linking the two counters. */
  ghost predicate CountersConsistent(c: Counters)
  {
    c.gestureCount >= -1 && 0 <= c.amountInStrikeZone <= c.gestureCount + 1
  }

  /** One call of `LateUpdate`. */
  function Step(c: Counters, t: Thresholds, f: Frame): (r: Counters)
    ensures !c.recording ==> r == c
    ensures r.recording == c.recording
    ensures c.recording ==> r.duration == c.duration + f.dt
    ensures r.gestureCount == c.gestureCount + (if c.recording && Moved(c, t, f) then 1 else 0)
    ensures r.amountInStrikeZone
              == c.amountInStrikeZone + (if c.recording && Moved(c, t, f) && InStrikeZone(t, f) then 1 else 0)
    // the stored positions change only on a counted gesture, apart from filling in a zero one
    ensures c.recording && Moved(c, t, f) ==> r.prevRight == f.right && r.prevLeft == f.left
    ensures c.recording && !Moved(c, t, f) ==>
              r.prevRight == Stored(c.prevRight, f.right) && r.prevLeft == Stored(c.prevLeft, f.left)
    ensures CountersConsistent(c) ==> CountersConsistent(r)
  {
    if !c.recording then c
    else
      var prevLeft := Stored(c.prevLeft, f.left);
      var prevRight := Stored(c.prevRight, f.right);
      var counted := FartherThan(prevRight, f.right, t.gesture) || FartherThan(prevLeft, f.left, t.gesture);
      var c' :=
        if counted then
          c.(gestureCount := c.gestureCount + 1,
             amountInStrikeZone := c.amountInStrikeZone + (if InStrikeZone(t, f) then 1 else 0),
             prevLeft := f.left, prevRight := f.right)
        else
          c.(prevLeft := prevLeft, prevRight := prevRight);
      c'.(duration := c.duration + f.dt)
  }

  /** `StartRecording`. */
  function Start(c: Counters): (r: Counters)
    ensures r.recording && CountersConsistent(r)
    ensures r.gestureCount == -1 && r.amountInStrikeZone == 0 && r.duration == 0.0
    ensures r.prevRight == Zero && r.prevLeft == Zero
  {
    Counters(true, -1, 0, 0.0, Zero, Zero)
  }

  /**
   * Right after `StartRecording`, with a non-negative gesture threshold, the
   * first late update only fills in the stored positions: no hand has moved
   * away from itself.
   */
  lemma FirstRecordedFrameCountsNothing(c: Counters, t: Thresholds, f: Frame)
    requires t.gesture >= 0.0
    ensures Step(Start(c), t, f).gestureCount == -1
    ensures Step(Start(c), t, f).amountInStrikeZone == 0
    ensures Step(Start(c), t, f).prevRight == f.right && Step(Start(c), t, f).prevLeft == f.left
  {
    var s := Start(c);
    assert Minus(f.right, f.right) == Zero;
    assert Minus(f.left, f.left) == Zero;
    assert !FartherThan(Stored(s.prevRight, f.right), f.right, t.gesture);
    assert !FartherThan(Stored(s.prevLeft, f.left), f.left, t.gesture);
  }

  /** A run of consecutive `LateUpdate` calls. */
  function Run(c: Counters, t: Thresholds, frames: seq<Frame>): (r: Counters)
    ensures r.recording == c.recording
    ensures CountersConsistent(c) ==> CountersConsistent(r)
    ensures c.gestureCount <= r.gestureCount && c.amountInStrikeZone <= r.amountInStrikeZone
    ensures r.amountInStrikeZone - c.amountInStrikeZone <= r.gestureCount - c.gestureCount
    decreases |frames|
  {
    if frames == [] then c else Run(Step(c, t, frames[0]), t, frames[1..])
  }

  /** The number of frames in a run; the count of gestures can never exceed it. */
  lemma {:induction false} GesturesBoundedByFrames(c: Counters, t: Thresholds, frames: seq<Frame>)
    ensures Run(c, t, frames).gestureCount <= c.gestureCount + |frames|
    decreases |frames|
  {
    if frames != [] {
      GesturesBoundedByFrames(Step(c, t, frames[0]), t, frames[1..]);
    }
  }

  /** While recording, `duration` is the sum of the frame times. */
  lemma {:induction false} DurationIsElapsedTime(c: Counters, t: Thresholds, frames: seq<Frame>)
    requires c.recording
    ensures Run(c, t, frames).duration == c.duration + TotalTime(Times(frames))
    decreases |frames|
  {
    if frames != [] {
      DurationIsElapsedTime(Step(c, t, frames[0]), t, frames[1..]);
      assert Times(frames)[1..] == Times(frames[1..]);
    }
  }

  /** While not recording, nothing changes. */
  lemma {:induction false} IdleRunChangesNothing(c: Counters, t: Thresholds, frames: seq<Frame>)
    requires !c.recording
    ensures Run(c, t, frames) == c
    decreases |frames|
  {
    if frames != [] {
      IdleRunChangesNothing(Step(c, t, frames[0]), t, frames[1..]);
    }
  }

  function Times(frames: seq<Frame>): (dts: seq<real>)
    ensures |dts| == |frames|
    ensures forall i :: 0 <= i < |frames| ==> dts[i] == frames[i].dt
  {
    seq(|frames|, i requires 0 <= i < |frames| => frames[i].dt)
  }

  /** The `GestureScript` component. */
  class GestureScript {
    const thresholds: Thresholds
    var isRecording: bool
    var gestureCount: int
    var amountInStrikeZone: int
    var duration: real
    var prevRight: Vec3
    var prevLeft: Vec3

    function State(): Counters
      reads this
    {
      Counters(isRecording, gestureCount, amountInStrikeZone, duration, prevRight, prevLeft)
    }

    ghost predicate Valid()
      reads this
    {
      CountersConsistent(State())
    }

    constructor (gestureThreshold: real, angleThreshold: real)
      ensures Valid() && State() == Initial
      ensures thresholds == Thresholds(gestureThreshold, angleThreshold)
    {
      thresholds := Thresholds(gestureThreshold, angleThreshold);
      isRecording := false;
      gestureCount := -1;
      amountInStrikeZone := 0;
      duration := 0.0;
      prevRight := Zero;
      prevLeft := Zero;
    }

    method StartRecording()
      modifies this
      ensures Valid()
      ensures State() == Start(old(State()))
    {
      isRecording := true;
      prevRight := Zero;
      prevLeft := Zero;
      duration := 0.0;
      amountInStrikeZone := 0;
      gestureCount := -1;
    }

    /**
     * Builds the `SendGestures` request from the three counters, but the
     * request is never started, and nothing is reset: the component keeps
     * recording and counting afterwards.
     */
    method StopRecording() returns (count: int, inStrikeZone: int, seconds: real)
      requires Valid()
      ensures count == gestureCount && inStrikeZone == amountInStrikeZone && seconds == duration
      ensures -1 <= count && 0 <= inStrikeZone <= count + 1
    {
      count, inStrikeZone, seconds := gestureCount, amountInStrikeZone, duration;
    }

    /** One `LateUpdate`, with the controller positions and angle given in `f`. */
    method LateUpdate(f: Frame)
      requires Valid()
      modifies this
      ensures Valid()
      ensures State() == Step(old(State()), thresholds, f)
    {
      if isRecording {
        if prevLeft == Zero {
          prevLeft := f.left;
        }
        if prevRight == Zero {
          prevRight := f.right;
        }
        if FartherThan(prevRight, f.right, thresholds.gesture) || FartherThan(prevLeft, f.left, thresholds.gesture) {
          gestureCount := gestureCount + 1;
          if MinStrikeAngle < f.angle < thresholds.angle {
            amountInStrikeZone := amountInStrikeZone + 1;
          }
          prevLeft := f.left;
          prevRight := f.right;
        }
        duration := duration + f.dt;
      }
    }
  }
}
