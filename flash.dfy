/** The LED script's animation loop: a two-state toggle (0 is off, 1 is on)
    that flips once at least `LED_FLASH_PERIOD` seconds have passed since
    the last flip, and on every flip switches each LED of the registry to
    its off look or to its own on colour. The wall clock is read by the
    caller and passed in as `timeNow`; one call models one loop iteration. */
module Flash {
  import opened Led

  /** `ledFlashPeriod`, in seconds. */
  const LED_FLASH_PERIOD: real := 1.0

  /** The loop's two variables. */
  datatype Toggle = Toggle(ledToggle: nat, startTime: real)

  /** Whether the iteration at `timeNow` makes a transition. */
  predicate Fires(t: Toggle, timeNow: real) {
    timeNow - t.startTime >= LED_FLASH_PERIOD
  }

  /** One loop iteration: below the period nothing changes; otherwise the
      timer restarts at `timeNow` and the toggle flips between 0 and 1. */
  function Step(t: Toggle, timeNow: real): (t': Toggle)
    ensures !Fires(t, timeNow) ==> t' == t
    ensures Fires(t, timeNow) ==> t'.startTime == timeNow
    ensures t'.ledToggle <= 1 || t' == t
    ensures t.ledToggle <= 1 && Fires(t, timeNow) ==> t'.ledToggle == 1 - t.ledToggle
  {
    if timeNow - t.startTime >= LED_FLASH_PERIOD then
      Toggle((t.ledToggle + 1) % 2, timeNow)
    else
      t
  }

  /** The loop run over the successive clock readings `times`: a toggle in
      {0, 1} stays there, and the timer ends at the start time or at one of
      the readings. */
  function Run(t: Toggle, times: seq<real>): (r: Toggle)
    ensures t.ledToggle <= 1 ==> r.ledToggle <= 1
    ensures r.startTime == t.startTime || r.startTime in times
    decreases |times|
  {
    if times == [] then t else Run(Step(t, times[0]), times[1..])
  }

  /** The readings at which the run makes a transition, in order. */
  function Flips(t: Toggle, times: seq<real>): seq<real>
    decreases |times|
  {
    if times == [] then []
    else (if Fires(t, times[0]) then [times[0]] else []) + Flips(Step(t, times[0]), times[1..])
  }

  /** Over any run: the toggle stays in {0, 1}, its value is the parity of
      the number of transitions added to the start value, and the timer
      holds the reading of the last transition (the start time if none). */
  lemma {:induction false} RunSummary(t: Toggle, times: seq<real>)
    requires t.ledToggle <= 1
    ensures var r, f := Run(t, times), Flips(t, times);
      && r.ledToggle <= 1
      && r.ledToggle == (t.ledToggle + |f|) % 2
      && r.startTime == if f == [] then t.startTime else f[|f| - 1]
    decreases |times|
  {
    if times != [] {
      var t1 := Step(t, times[0]);
      RunSummary(t1, times[1..]);
      var f1 := Flips(t1, times[1..]);
      if Fires(t, times[0]) {
        assert Flips(t, times) == [times[0]] + f1;
      } else {
        assert Flips(t, times) == f1;
      }
    }
  }

  /** Transitions are at least one period apart: the first comes a period
      or more after the start time, and each later one a period or more
      after the one before, whatever the clock readings. */
  lemma {:induction false} FlipsSpaced(t: Toggle, times: seq<real>)
    ensures var f := Flips(t, times);
      && (f != [] ==> f[0] - t.startTime >= LED_FLASH_PERIOD)
      && forall i :: 0 < i < |f| ==> f[i] - f[i - 1] >= LED_FLASH_PERIOD
    decreases |times|
  {
    if times != [] {
      var t1 := Step(t, times[0]);
      FlipsSpaced(t1, times[1..]);
      var f1 := Flips(t1, times[1..]);
      if Fires(t, times[0]) {
        var f := Flips(t, times);
        assert f == [times[0]] + f1;
        forall i | 0 < i < |f|
          ensures f[i] - f[i - 1] >= LED_FLASH_PERIOD
        {
          assert f[i] == f1[i - 1];
          if i > 1 {
            assert f[i - 1] == f1[i - 2];
          }
        }
      } else {
        assert t1 == t;
        assert Flips(t, times) == f1;
      }
    }
  }

  /** The LEDs in a registry are distinct objects. */
  predicate Distinct(leds: seq<SimpleLed>) {
    forall i, j :: 0 <= i < j < |leds| ==> leds[i] != leds[j]
  }

  /** Calls `update(args[i])` on the i-th LED of the registry, in order. */
  method UpdateAll(leds: seq<SimpleLed>, args: seq<Paint>)
    requires |args| == |leds| && Distinct(leds)
    modifies leds
    ensures forall i :: 0 <= i < |leds| ==> leds[i].Shown() == SimpleLook(leds[i].offColor, args[i])
  {
    for n := 0 to |leds|
      invariant forall i :: 0 <= i < n ==> leds[i].Shown() == SimpleLook(leds[i].offColor, args[i])
    {
      leds[n].Update(args[n]);
    }
  }

  /** The loop state of the LED script. */
  class Flasher {
    var ledToggle: nat
    var startTime: real

    ghost predicate Valid()
      reads this
    {
      ledToggle <= 1
    }

    function State(): Toggle
      reads this
    {
      Toggle(ledToggle, startTime)
    }

    /** The loop starts with the LEDs off and the timer read at `startTime`. */
    constructor (startTime: real)
      ensures Valid() && State() == Toggle(0, startTime)
    {
      ledToggle := 0;
      this.startTime := startTime;
    }

    /** One iteration at clock reading `timeNow`. On a transition every LED
        gets `update()` when the toggle becomes 0 and `update(onColors[i])`
        when it becomes 1; otherwise no LED changes. */
    method Tick(timeNow: real, leds: seq<SimpleLed>, onColors: seq<Paint>) returns (fired: bool)
      requires Valid()
      requires |onColors| == |leds| && Distinct(leds)
      modifies this, leds
      ensures Valid()
      ensures State() == Step(old(State()), timeNow)
      ensures fired <==> Fires(old(State()), timeNow)
      ensures !fired ==> forall i :: 0 <= i < |leds| ==> leds[i].Shown() == old(leds[i].Shown())
      ensures fired && ledToggle == 0 ==>
        forall i :: 0 <= i < |leds| ==> leds[i].Shown() == Look(leds[i].offColor, false)
      ensures fired && ledToggle == 1 ==>
        forall i :: 0 <= i < |leds| ==> leds[i].Shown() == SimpleLook(leds[i].offColor, onColors[i])
    {
      var elapsedTime := timeNow - startTime;
      fired := elapsedTime >= LED_FLASH_PERIOD;
      if fired {
        startTime := timeNow;
        ledToggle := (ledToggle + 1) % 2;
        if ledToggle == 0 {
          UpdateAll(leds, seq(|leds|, _ => OFF));
        } else {
          UpdateAll(leds, onColors);
        }
      }
    }
  }
}
