/**
 * The pairing menu of `MenuController`: it requests a pairing code once at
 * start-up and then polls the backend for authentication every three seconds,
 * timed by an accumulator of frame times.
 */
module Menu {
  import opened Common

  /** Seconds between two authentication polls. */
  const PollInterval: real := 3.0

  /** The coroutines the component launches. */
  datatype Launch = GetCode | PollAuth

  /** The `_time` accumulator and the coroutines launched so far, in order. */
  datatype Timer = Timer(time: real, launched: seq<Launch>)

  const Initial: Timer := Timer(0.0, [])

  /** `Start`: launch `GetCode`. */
  function StartUp(m: Timer): (r: Timer)
    ensures r.time == m.time && r.launched == m.launched + [GetCode]
  {
    m.(launched := m.launched + [GetCode])
  }

  /** One `Update`: add the frame time; at three seconds or more, poll and restart from zero. */
  function Tick(m: Timer, dt: real): (r: Timer)
    requires dt >= 0.0
    ensures 0.0 <= m.time < PollInterval ==> 0.0 <= r.time < PollInterval
    ensures m.time + dt >= PollInterval ==> r == Timer(0.0, m.launched + [PollAuth])
    ensures m.time + dt < PollInterval ==> r == Timer(m.time + dt, m.launched)
  {
    var time := m.time + dt;
    if time >= PollInterval then Timer(0.0, m.launched + [PollAuth]) else Timer(time, m.launched)
  }

  function Count(launched: seq<Launch>, which: Launch): (n: nat)
    ensures n <= |launched|
  {
    if launched == [] then 0 else (if launched[0] == which then 1 else 0) + Count(launched[1..], which)
  }

  lemma {:induction false} CountAppend(a: seq<Launch>, b: seq<Launch>, which: Launch)
    ensures Count(a + b, which) == Count(a, which) + Count(b, which)
    decreases |a|
  {
    if a == [] {
      assert a + b == b;
    } else {
      assert (a + b)[0] == a[0] && (a + b)[1..] == a[1..] + b;
      CountAppend(a[1..], b, which);
    }
  }

  predicate NonNegative(dts: seq<real>)
  {
    forall i :: 0 <= i < |dts| ==> dts[i] >= 0.0
  }

  /** A run of consecutive `Update` calls. */
  function Run(m: Timer, dts: seq<real>): (r: Timer)
    requires NonNegative(dts)
    ensures 0.0 <= m.time < PollInterval ==> 0.0 <= r.time < PollInterval
    decreases |dts|
  {
    if dts == [] then m else Run(Tick(m, dts[0]), dts[1..])
  }

  /**
   * Updates never launch `GetCode`, and every poll uses up at least three
   * seconds of elapsed time: three seconds per poll plus what the accumulator
   * holds never exceeds the time that has passed.
   */
  lemma {:induction false} PollsPaceElapsedTime(m: Timer, dts: seq<real>)
    requires NonNegative(dts)
    ensures Count(Run(m, dts).launched, GetCode) == Count(m.launched, GetCode)
    ensures PollInterval * (Count(Run(m, dts).launched, PollAuth) - Count(m.launched, PollAuth)) as real
              + Run(m, dts).time
            <= m.time + TotalTime(dts)
    decreases |dts|
  {
    if dts != [] {
      var m' := Tick(m, dts[0]);
      if m.time + dts[0] >= PollInterval {
        CountAppend(m.launched, [PollAuth], GetCode);
        CountAppend(m.launched, [PollAuth], PollAuth);
      }
      PollsPaceElapsedTime(m', dts[1..]);
    }
  }

  /** From start-up, `GetCode` has been launched exactly once, whatever the frames. */
  lemma CodeRequestedOnce(dts: seq<real>)
    requires NonNegative(dts)
    ensures Count(Run(StartUp(Initial), dts).launched, GetCode) == 1
    ensures 0.0 <= Run(StartUp(Initial), dts).time < PollInterval
  {
    PollsPaceElapsedTime(StartUp(Initial), dts);
  }

  /** The `MenuController` component. */
  class MenuController {
    var time: real
    var launched: seq<Launch>

    function State(): Timer
      reads this
    {
      Timer(time, launched)
    }

    /** The accumulator always lies in [0, 3): it is reset as soon as it reaches three seconds. */
    ghost predicate Valid()
      reads this
    {
      0.0 <= time < PollInterval
    }

    constructor ()
      ensures Valid() && State() == Initial
    {
      time := 0.0;
      launched := [];
    }

    method Start()
      requires Valid()
      modifies this
      ensures Valid()
      ensures State() == StartUp(old(State()))
    {
      launched := launched + [GetCode];
    }

    method Update(dt: real)
      requires Valid() && dt >= 0.0
      modifies this
      ensures Valid()
      ensures State() == Tick(old(State()), dt)
    {
      time := time + dt;
      if time >= PollInterval {
        launched := launched + [PollAuth];
        time := 0.0;
      }
    }
  }
}
