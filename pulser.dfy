/**
 * One animated unit (vismid/Pulser.java): a shape that, when signalled
 * "on", balloons to a large scale and shrinks back over a fixed number of
 * drawn frames.
 *
 * The animation state is the pair (isActive, ticks). The datatype
 * Countdown and its member functions state what each operation does to
 * that pair; the class Pulser holds the pair in mutable fields and its
 * methods are proved against those functions.
 */
module Pulsing {

  /** An integer position on the canvas. */
  datatype Point = Point(x: int, y: int)

  /** A colour, only ever copied from the constructor to the drawing. */
  datatype Color = Rgb(red: int, green: int, blue: int)

  /** The number of ticks a signal "on" gives the countdown. */
  const PulseTicks := 10

  /** How a drawn shape is scaled about its own centre. */
  datatype Scale = Unscaled | ScaledBy(factor: int)

  /** One filled shape: the base shape in the unit's colour, scaled or not. */
  datatype Fill = Fill(color: Color, scale: Scale)

  /** The animation state of a Pulser. */
  datatype Countdown = Countdown(isActive: bool, ticks: int) {

    /** The invariant every reachable state keeps. */
    predicate Valid() {
      isActive == (ticks > 0) && 0 <= ticks <= PulseTicks
    }

    /** One tick: an active countdown loses one tick and stops once it reaches zero. */
    function Ticked(): Countdown {
      if !isActive then this
      else if ticks - 1 <= 0 then Countdown(false, ticks - 1)
      else Countdown(true, ticks - 1)
    }

    /** The scale a draw uses in this (already ticked) state. */
    function DrawScale(): Scale {
      if isActive then ScaledBy(1 + ticks) else Unscaled
    }
  }

  /** The state of a new Pulser. */
  const Idle := Countdown(false, 0)

  /** The state signal "on" puts a Pulser in, whatever it was before. */
  const Restarted := Countdown(true, PulseTicks)

  /** A tick leaves an inactive countdown alone; an active one loses exactly one tick
      and becomes inactive exactly when what is left is not positive. */
  lemma TickLaw(s: Countdown)
    ensures !s.isActive ==> s.Ticked() == s
    ensures s.isActive ==> s.Ticked().ticks == s.ticks - 1 && (s.Ticked().isActive <==> s.ticks - 1 > 0)
  {
  }

  /** The states a Pulser starts in or is signalled into are valid, and a tick keeps validity. */
  lemma ValidityKept(s: Countdown)
    ensures Idle.Valid() && Restarted.Valid()
    ensures s.Valid() ==> s.Ticked().Valid()
  {
  }

  /** A valid state that has just been ticked draws the base shape when inactive and
      otherwise a shape scaled by a factor between 2 and 10. */
  lemma DrawnScaleBounds(s: Countdown)
    requires s.Valid()
    ensures s.Ticked().DrawScale() == Unscaled <==> !s.Ticked().isActive
    ensures s.Ticked().DrawScale().ScaledBy? ==> 2 <= s.Ticked().DrawScale().factor <= PulseTicks
  {
  }

  /** The state after k draws (each draw ticks once) with no signal "on" in between. */
  function AfterDraws(s: Countdown, k: nat): Countdown {
    if k == 0 then s else AfterDraws(s, k - 1).Ticked()
  }

  /** An active countdown of n ticks counts down one per draw and is inactive, at
      zero, from the n-th draw on. */
  lemma {:induction false} CountdownRun(n: int, k: nat)
    requires n > 0
    ensures AfterDraws(Countdown(true, n), k) == if k < n then Countdown(true, n - k) else Countdown(false, 0)
  {
    if k > 0 {
      CountdownRun(n, k - 1);
    }
  }

  /** After signal "on", the k-th draw uses factor 11 - k for k = 1..9 (10 down to 2);
      the 10th draw and every later one is unscaled and leaves the Pulser inactive. */
  lemma PulseAfterSignalOn(k: nat)
    requires k >= 1
    ensures AfterDraws(Restarted, k).DrawScale() == if k < PulseTicks then ScaledBy(11 - k) else Unscaled
    ensures k >= PulseTicks ==> AfterDraws(Restarted, k) == Countdown(false, 0)
  {
    CountdownRun(PulseTicks, k);
  }

  /** An inactive Pulser stays exactly as it is however many times it is drawn. */
  lemma {:induction false} InactiveStays(s: Countdown, k: nat)
    requires !s.isActive
    ensures AfterDraws(s, k) == s
  {
    if k > 0 {
      InactiveStays(s, k - 1);
    }
  }

  class Pulser {
    var x: int
    var y: int
    var isActive: bool
    var ticks: int
    const color: Color

    /** The animation state held in the fields. */
    function State(): Countdown
      reads this
    {
      Countdown(isActive, ticks)
    }

    /** The position held in the fields. */
    function Position(): Point
      reads this
    {
      Point(x, y)
    }

    /** A new Pulser at (x, y), inactive with no ticks left. */
    constructor (x: int, y: int, color: Color)
      ensures Position() == Point(x, y) && this.color == color
      ensures State() == Idle && State().Valid()
    {
      this.x := x;
      this.y := y;
      this.isActive := false;
      this.ticks := 0;
      this.color := color;
    }

    /** Advances the countdown by one tick. */
    method Tick()
      modifies this`isActive, this`ticks
      ensures State() == old(State()).Ticked()
    {
      if isActive {
        ticks := ticks - 1;
        if ticks <= 0 {
          isActive := false;
        }
      }
    }

    /** Activates this Pulser for a full countdown, whatever its state. */
    method SignalOn()
      modifies this`isActive, this`ticks
      ensures State() == Restarted
    {
      isActive := true;
      ticks := PulseTicks;
    }

    /** A signal "off" does nothing to a single Pulser. */
    method SignalOff()
      ensures State() == old(State()) && Position() == old(Position())
    {
    }

    /** Ticks once, then draws: the base shape when inactive, otherwise the
        base shape scaled by 1 + ticks about its centre. */
    method DrawResponse() returns (drawn: Fill)
      modifies this`isActive, this`ticks
      ensures State() == old(State()).Ticked()
      ensures drawn == Fill(color, State().DrawScale())
      ensures old(State()).Valid() ==> State().Valid()
    {
      Tick();
      if !isActive {
        drawn := Fill(color, Unscaled);
      } else {
        drawn := Fill(color, ScaledBy(1 + ticks));
      }
      ValidityKept(old(State()));
    }

    /** Moves this Pulser to where the transform `at` takes it; the animation state stays. */
    method Transform(at: Point -> Point)
      modifies this`x, this`y
      ensures Position() == at(old(Position()))
    {
      var p := at(Point(x, y));
      x := p.x;
      y := p.y;
    }
  }
}
