/**
 * The responders a router can signal (vismid/MidiResponder.java): a single
 * Pulser or a PulserGroup. The interface's two implementations become the
 * two variants of a datatype, and a call of signalOn or signalOff on an
 * interface reference becomes Deliver, which dispatches on the variant.
 */
module Responders {
  import opened Pulsing
  import opened Groups

  /** A registered responder: one unit, or a ring of units. */
  datatype Responder = Unit(p: Pulser) | Group(g: PulserGroup)

  /** One call the router makes on a responder. */
  datatype Call = SignalOnCall(target: Responder) | SignalOffCall(target: Responder)

  /** The Pulsers whose state a responder's signals can reach. */
  ghost function Reached(r: Responder): set<Pulser> {
    match r
    case Unit(p) => {p}
    case Group(g) => g.Members()
  }

  /** The objects a call may change: every reached Pulser for "on", the group
      itself (its counter and rotation) for "off". */
  ghost function Touched(c: Call): set<object> {
    match c
    case SignalOnCall(r) => Reached(r)
    case SignalOffCall(Unit(_)) => {}
    case SignalOffCall(Group(g)) => {g}
  }

  /** Performs one call on its responder. "On" restarts every reached Pulser;
      "off" advances a group's counter and rotation and changes nothing else. */
  method Deliver(c: Call)
    modifies Touched(c)
    ensures c.SignalOnCall? ==> forall p :: p in Reached(c.target) ==>
      p.State() == Restarted && p.Position() == old(p.Position())
    ensures c.SignalOffCall? && c.target.Group? ==>
      && c.target.g.frames == old(c.target.g.frames) + 1
      && c.target.g.rot == Oscillating(AngleDegrees(c.target.g.dir, c.target.g.frames))
  {
    match c
    case SignalOnCall(Unit(p)) =>
      p.SignalOn();
    case SignalOnCall(Group(g)) =>
      g.SignalOn();
      forall p | p in g.Members()
        ensures p.State() == Restarted && p.Position() == old(p.Position())
      {
        var k :| 0 <= k < |g.group| && g.group[k] == p;
      }
    case SignalOffCall(Unit(p)) =>
      p.SignalOff();
    case SignalOffCall(Group(g)) =>
      g.SignalOff();
  }
}
