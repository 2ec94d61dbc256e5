/**
 * The eye-contact dwell table of `PersistentToggleDot`: while recording, the
 * component follows which tagged object the gaze ray hits and, whenever the
 * gaze moves to another tag, credits the finished streak to the tag it was on,
 * provided the streak lasted more than half a second.
 */
module EyeContact {
  import opened Common

  /** The tag Unity gives an object that has none; gaze on it is ignored. */
  const Untagged: string := "Untagged"

  /** A streak is credited only when it lasted longer than this many seconds. */
  const MinStreak: real := 0.5

  /**
   * What the engine reports for one frame: whether the toggle key (Tab) went
   * down, whether a `Player` instance exists, the tag of the object the gaze
   * ray hits (None when it hits nothing) and `Time.deltaTime`.
   */
  datatype Frame = Frame(togglePressed: bool, playerPresent: bool, hitTag: Option<string>, dt: real)

  /**
   * The component's fields: `on`, `recordingEyeContact`, `currentHit` (None
   * while it is still the initial null), `timeHit`, and the contents of the
   * `eyeTrackingHits` dictionary.
   */
  datatype Tracker = Tracker(on: bool, recording: bool, currentHit: Option<string>, timeHit: real, table: map<string, real>)

  /** The tracker right after `Awake`. */
  const Initial: Tracker := Tracker(true, false, None, 0.0, map[])

  /**
   * The streak is never negative, and while no tag has been seen yet it is
   * zero, so the dictionary is never asked about the null key.
   */
  ghost predicate StreakConsistent(s: Tracker)
  {
    s.timeHit >= 0.0 && (s.currentHit.None? ==> s.timeHit == 0.0)
  }

  /** Every entry of the table is a sum of streaks that each exceeded `MinStreak`. */
  ghost predicate OnlyLongStreaks(table: map<string, real>)
  {
    forall k :: k in table ==> table[k] > MinStreak
  }

  /** `later` keeps every key of `earlier`, with a value at least as large. */
  ghost predicate Extends(earlier: map<string, real>, later: map<string, real>)
  {
    forall k :: k in earlier ==> k in later && earlier[k] <= later[k]
  }

  /** The frame reaches the accumulation branch (lines 50, 52 and 70-71). */
  predicate Gazes(s: Tracker, f: Frame)
  {
    (s.on != f.togglePressed) && f.playerPresent && s.recording
    && f.hitTag.Some? && f.hitTag.value != Untagged
  }

  /** `eyeTrackingHits[tag] += t`, or `Add(tag, t)` when the key is absent. */
  function Credit(table: map<string, real>, tag: string, t: real): (r: map<string, real>)
    ensures r.Keys == table.Keys + {tag}
    ensures r[tag] == (if tag in table then table[tag] else 0.0) + t
    ensures forall k :: k in table && k != tag ==> r[k] == table[k]
  {
    if tag in table then table[tag := table[tag] + t] else table[tag := t]
  }

  /** One run of the accumulation branch with the ray on `tag`. */
  function Gaze(s: Tracker, tag: string, dt: real): Tracker
    requires StreakConsistent(s)
  {
    if Some(tag) != s.currentHit then
      var table := if s.timeHit > MinStreak then Credit(s.table, s.currentHit.value, s.timeHit) else s.table;
      s.(currentHit := Some(tag), timeHit := dt, table := table)
    else
      s.(timeHit := s.timeHit + dt)
  }

  /** One call of `Update`. */
  function Tick(s: Tracker, f: Frame): (r: Tracker)
    requires StreakConsistent(s) && f.dt >= 0.0
    ensures StreakConsistent(r)
    ensures r.on == (s.on != f.togglePressed) && r.recording == s.recording
    // a frame that is not recording, is toggled off, has no player, no hit or an untagged hit
    ensures !Gazes(s, f) ==> r.currentHit == s.currentHit && r.timeHit == s.timeHit && r.table == s.table
    // the streak: continued on the same tag, restarted on a new one
    ensures Gazes(s, f) ==> r.currentHit == f.hitTag
    ensures Gazes(s, f) && f.hitTag == s.currentHit ==> r.timeHit == s.timeHit + f.dt && r.table == s.table
    ensures Gazes(s, f) && f.hitTag != s.currentHit ==> r.timeHit == f.dt
    // the table only grows, and only the entry of the previous tag can change
    ensures Extends(s.table, r.table)
    ensures forall k :: k in r.table && Some(k) != s.currentHit ==> k in s.table && r.table[k] == s.table[k]
    // a tag change after a streak over half a second credits that streak
    ensures Gazes(s, f) && f.hitTag != s.currentHit && s.timeHit > MinStreak ==>
              s.currentHit.Some? && r.table == Credit(s.table, s.currentHit.value, s.timeHit)
    ensures r.table != s.table ==>
              s.timeHit > MinStreak && s.currentHit.Some? && Gazes(s, f) && f.hitTag != s.currentHit
              && r.table == Credit(s.table, s.currentHit.value, s.timeHit)
    ensures OnlyLongStreaks(s.table) ==> OnlyLongStreaks(r.table)
  {
    var on := s.on != f.togglePressed;
    if Gazes(s, f) then Gaze(s.(on := on), f.hitTag.value, f.dt) else s.(on := on)
  }

  /** `StartRecording`: set the flag and clear the table; the streak is kept. */
  function Start(s: Tracker): (r: Tracker)
    ensures StreakConsistent(s) ==> StreakConsistent(r)
    ensures r.recording && r.table == map[]
    ensures r.on == s.on && r.currentHit == s.currentHit && r.timeHit == s.timeHit
  {
    s.(recording := true, table := map[])
  }

  /** `StopRecording`: clear the flag; the streak held in `timeHit` is not credited. */
  function Stop(s: Tracker): (r: Tracker)
    ensures StreakConsistent(s) ==> StreakConsistent(r)
    ensures !r.recording
    ensures r.on == s.on && r.currentHit == s.currentHit && r.timeHit == s.timeHit && r.table == s.table
  {
    s.(recording := false)
  }

  predicate NonNegativeFrames(frames: seq<Frame>)
  {
    forall i :: 0 <= i < |frames| ==> frames[i].dt >= 0.0
  }

  /** A run of consecutive `Update` calls. */
  function Run(s: Tracker, frames: seq<Frame>): (r: Tracker)
    requires StreakConsistent(s) && NonNegativeFrames(frames)
    ensures StreakConsistent(r)
    ensures r.recording == s.recording
    decreases |frames|
  {
    if frames == [] then s else Run(Tick(s, frames[0]), frames[1..])
  }

  /**
   * Between two `StartRecording` calls the table only grows: no key is
   * removed, no total shrinks, and every stored total exceeds half a second.
   */
  lemma {:induction false} RunOnlyGrowsTable(s: Tracker, frames: seq<Frame>)
    requires StreakConsistent(s) && NonNegativeFrames(frames)
    requires OnlyLongStreaks(s.table)
    ensures Extends(s.table, Run(s, frames).table)
    ensures OnlyLongStreaks(Run(s, frames).table)
    decreases |frames|
  {
    if frames != [] {
      var s' := Tick(s, frames[0]);
      RunOnlyGrowsTable(s', frames[1..]);
    }
  }

  /** A session's table starts empty, so all its totals are long streaks. */
  lemma SessionTableHoldsLongStreaks(s: Tracker, frames: seq<Frame>)
    requires StreakConsistent(s) && NonNegativeFrames(frames)
    ensures Run(Start(s), frames).recording
    ensures OnlyLongStreaks(Run(Start(s), frames).table)
  {
    RunOnlyGrowsTable(Start(s), frames);
  }

  /** A run with the toggle off and never pressed records nothing. */
  lemma {:induction false} ToggledOffRecordsNothing(s: Tracker, frames: seq<Frame>)
    requires StreakConsistent(s) && NonNegativeFrames(frames)
    requires !s.on && forall i :: 0 <= i < |frames| ==> !frames[i].togglePressed
    ensures Run(s, frames) == s
    decreases |frames|
  {
    if frames != [] {
      ToggledOffRecordsNothing(Tick(s, frames[0]), frames[1..]);
    }
  }

  /**
   * A streak of more than half a second still running when `StopRecording`
   * is called reaches the table of the NEXT session: `StartRecording` clears
   * the table but keeps the streak, and the first gaze at another tag credits
   * it there.
   */
  lemma StaleStreakCreditedToNextSession(s: Tracker, f: Frame)
    requires StreakConsistent(s) && s.timeHit > MinStreak && f.dt >= 0.0
    requires Gazes(Start(Stop(s)), f) && f.hitTag != s.currentHit
    ensures s.currentHit.Some?
    ensures Tick(Start(Stop(s)), f).table == map[s.currentHit.value := s.timeHit]
  {
  }

  /** The live dictionary object; `StopRecording` hands out this very object. */
  class HitTable {
    var entries: map<string, real>

    constructor ()
      ensures entries == map[]
    {
      entries := map[];
    }
  }

  /** The `PersistentToggleDot` component. */
  class PersistentToggleDot {
    var on: bool
    var recordingEyeContact: bool
    var currentHit: Option<string>
    var timeHit: real
    const eyeTrackingHits: HitTable

    /** The component's state as a value. */
    function State(): Tracker
      reads this, eyeTrackingHits
    {
      Tracker(on, recordingEyeContact, currentHit, timeHit, eyeTrackingHits.entries)
    }

    ghost predicate Valid()
      reads this, eyeTrackingHits
    {
      StreakConsistent(State())
    }

    /** Field initialisers and `Awake` (a fresh, empty dictionary). */
    constructor ()
      ensures Valid() && State() == Initial && fresh(eyeTrackingHits)
    {
      on := true;
      recordingEyeContact := false;
      currentHit := None;
      timeHit := 0.0;
      eyeTrackingHits := new HitTable();
    }

    method StartRecording()
      requires Valid()
      modifies this, eyeTrackingHits
      ensures Valid()
      ensures State() == Start(old(State()))
    {
      recordingEyeContact := true;
      eyeTrackingHits.entries := map[];
    }

    /** Returns the live table itself, not a copy. */
    method StopRecording() returns (hits: HitTable)
      requires Valid()
      modifies this
      ensures Valid()
      ensures hits == eyeTrackingHits
      ensures State() == Stop(old(State()))
    {
      recordingEyeContact := false;
      hits := eyeTrackingHits;
    }

    /** One `Update`, with the engine's answers given in `f`. */
    method Update(f: Frame)
      requires Valid() && f.dt >= 0.0
      modifies this, eyeTrackingHits
      ensures Valid()
      ensures State() == Tick(old(State()), f)
    {
      if f.togglePressed {
        on := !on;
      }
      if on && f.playerPresent {
        if recordingEyeContact && f.hitTag.Some? {
          var tag := f.hitTag.value;
          if tag != Untagged {
            if Some(tag) != currentHit {
              if timeHit > MinStreak {
                var previous := currentHit.value;
                if previous in eyeTrackingHits.entries {
                  eyeTrackingHits.entries := eyeTrackingHits.entries[previous := eyeTrackingHits.entries[previous] + timeHit];
                } else {
                  eyeTrackingHits.entries := eyeTrackingHits.entries[previous := timeHit];
                }
              }
              currentHit := Some(tag);
              timeHit := f.dt;
            } else {
              timeHit := timeHit + f.dt;
            }
          }
        }
      }
    }
  }
}
