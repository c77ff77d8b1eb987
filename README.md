# Vismid event routing and pulse animation, in Dafny

Vismid draws a live stream of MIDI notes as animated shapes. This project
models its core: the router that sorts each incoming message into
note-on, note-off or ignored and passes it to the responders registered on
the message's channel, and the two kinds of responder, a single pulsing
unit (Pulser) and a fixed ring of units (PulserGroup).

- `midi.dfy`, module `Midi`: a message is reduced to (channel, command,
  velocity), or "not a short message". `Classify` is the Note On / Note Off
  rule of the MIDI 1.0 Detailed Specification: a Note On with velocity 0 is a
  Note Off.
- `pulser.dfy`, module `Pulsing`: the datatype `Countdown` (isActive, ticks)
  with `Ticked` and `DrawScale`, and the class `Pulser`, whose fields hold the
  pair and whose methods are proved against those functions. A signal "on"
  restarts a 10-tick countdown; every draw ticks first and then fills the
  base shape, unscaled when inactive, scaled by `1 + ticks` when active. The
  lemmas give the whole pulse: the k-th draw after a signal "on" is scaled by
  11 - k for k = 1..9 and the 10th is unscaled.
- `pulser_group.dfy`, module `Groups`: Java's truncating `%`, the integer
  angle argument `dir * 3 * frames % 360` with its range, sign, period 120 and
  antisymmetry in `dir`, the link plan of one draw, and the class
  `PulserGroup`. Its members are a `const` sequence, so the ring's size and
  order cannot change after construction.
- `responder.dfy`, module `Responders`: the `MidiResponder` interface as a
  datatype with one variant per implementation, and `Deliver`, which performs
  one signal call on either variant.
- `signaler.dfy`, module `Routing`: the channel table, `Registered` (what
  registration does to it), `Fanout` (which calls a message makes), and the
  class `Signaler`, whose `Send` makes exactly the calls of `Fanout`, in
  order, on the live objects and returns them as a trace.

Geometry is outside the model. `AffineTransform`, `Ellipse2D`, `Math.cos`,
`Math.sin` and bounding-box centres are floating-point computations. The
model keeps integer positions. A group's construction takes the members'
positions as a function `place`, and a draw takes the effect of the group's
rotation on a position as a function `geometry`. A `Rotation` records the
value the rotation is built from: the direction for the first rotation, then
the integer angle argument handed to the cosine.

Three consequences of the code that a reader might not expect:
- After a note-on, a Pulser's draws are scaled by 10, 9, ..., 2 on draws 1 to
  9, and the 10th draw is unscaled (`PulseAfterSignalOn`).
- A group of n members draws n + 1 links per frame, because `i` runs from 0
  to n inclusive. The last link repeats the first (`LinkPlanShape`).
- A group built with `num <= 0` has no members, and its `drawResponse`
  throws `ArithmeticException` at `i % size`. The model returns
  `ArithmeticException` as the draw's outcome and changes nothing.

Two observations about the code:
- `AngleReversed` proves that a reversed group's angle argument is the exact
  negation of a forward group's. The cosine is even, so from the first note-off
  on both directions get the same rotation. Only the initial rotation,
  `dir * 0.0025`, depends on `reverse`.
- A Pulser's invariant `isActive == (ticks > 0)` holds eagerly after every
  tick, not lazily at the next draw.

## Model

| member | source | states |
|---|---|---|
| `Midi.Classify` | vismid/Signaler.java:95-117 | on exactly when a short message is Note On with non-zero velocity; off exactly when it is Note Off or Note On with velocity 0; otherwise ignored, so at most one branch fires |
| `Midi.SilentNoteOnIsNoteOff` | vismid/Signaler.java:92-108 | a Note On with velocity 0 classifies as Note Off does, whatever the Note Off's velocity |
| `Midi.ClassifyIgnoresChannel` | vismid/Signaler.java:89-108 | the classification depends on command and velocity only, never on the channel |
| `Pulsing.TickLaw` | vismid/Pulser.java:92-97 | a tick leaves an inactive Pulser unchanged; an active one loses exactly one tick and deactivates exactly when the result is <= 0 |
| `Pulsing.ValidityKept` | vismid/Pulser.java:92-106 | the new state and the signalled state satisfy isActive == (ticks > 0) and 0 <= ticks <= 10, and a tick preserves that invariant |
| `Pulsing.DrawnScaleBounds` | vismid/Pulser.java:65-87 | from a valid state a draw is unscaled exactly when the ticked state is inactive, otherwise scaled by a factor between 2 and 10 |
| `Pulsing.CountdownRun` | vismid/Pulser.java:92-97 | an active countdown of n ticks is (true, n - k) after k < n draws and (false, 0) from the n-th draw on |
| `Pulsing.PulseAfterSignalOn` | vismid/Pulser.java:65-106 | after signalOn the k-th draw is scaled by 11 - k for k = 1..9; the 10th and every later draw is unscaled with the Pulser inactive at (false, 0) |
| `Pulsing.InactiveStays` | vismid/Pulser.java:92-97 | an inactive Pulser keeps its exact state over any number of draws |
| `Pulsing.Pulser.constructor` | vismid/Pulser.java:30-40 | a new Pulser sits at the given position with the given colour, inactive with ticks == 0 |
| `Pulsing.Pulser.Tick` | vismid/Pulser.java:92-97 | the new state is the ticked old state; position and colour untouched |
| `Pulsing.Pulser.SignalOn` | vismid/Pulser.java:102-106 | the state becomes (true, 10) whatever it was: a restart, not an addition |
| `Pulsing.Pulser.SignalOff` | vismid/Pulser.java:112 | nothing changes |
| `Pulsing.Pulser.DrawResponse` | vismid/Pulser.java:65-87 | ticks first, then returns a fill in the Pulser's colour with the ticked state's scale; keeps the invariant |
| `Pulsing.Pulser.Transform` | vismid/Pulser.java:120-127 | the position becomes the transform's image of the old one; animation state and colour untouched |
| `Groups.JavaRem` | vismid/PulserGroup.java:86-87 | Java's remainder: with the truncated quotient it rebuilds the dividend, its magnitude is below the divisor and its sign is the dividend's |
| `Groups.JavaDivision` | vismid/PulserGroup.java:86-87 | Java's quotient on a positive divisor is the exact quotient truncated toward zero: below the dividend's magnitude by less than one divisor |
| `Groups.AngleRange` | vismid/PulserGroup.java:86-87 | the angle argument lies strictly between -360 and 360 and has the sign of dir * frames or is 0 |
| `Groups.AnglePeriodic` | vismid/PulserGroup.java:85-87 | for dir = +1 or -1 and frames >= 0 the angle argument repeats with period 120 in frames |
| `Groups.AngleReversed` | vismid/PulserGroup.java:86-87 | the angle argument for dir = -1 is the negation of that for dir = 1 |
| `Groups.LinkPlanShape` | vismid/PulserGroup.java:100-116 | an n-member ring draws n + 1 links, all indices in 0..n-1; link j starts at member j and ends at (j + 2) mod n; the last link repeats the first |
| `Groups.PulserGroup.constructor` | vismid/PulserGroup.java:37-60 | exactly max(num, 0) fresh, distinct, inactive members in the group's colour at place(i); dir is -1 iff reverse, else 1; frames is 0 |
| `Groups.PulserGroup.SignalOn` | vismid/PulserGroup.java:67-72 | every member ends with state (true, 10), positions unchanged |
| `Groups.PulserGroup.SignalOff` | vismid/PulserGroup.java:82-91 | frames grows by exactly 1, the rotation is rebuilt from the new angle argument, every member keeps its state and position |
| `Groups.PulserGroup.DrawResponse` | vismid/PulserGroup.java:98-126 | an empty ring yields ArithmeticException; otherwise the links are the link plan, and each member is ticked exactly once, filled with its ticked scale, then moved by the group's rotation |
| `Groups.PulserGroup.Transform` | vismid/PulserGroup.java:132-138 | every member is moved by the transform, exactly once, with its animation state unchanged |
| `Responders.Deliver` | vismid/MidiResponder.java:18-30 | a signalOn call restarts every Pulser the responder reaches; a signalOff call advances a group's counter and rotation and changes nothing else |
| `Routing.Registered` | vismid/Signaler.java:33-38 | registration gives the channel an entry if it had none, appends the responder at its end even if already present, and leaves every other channel's entry as it was |
| `Routing.FanoutShape` | vismid/Signaler.java:69-121 | no calls for a message that is not a short message, a channel without an entry or another command; otherwise one call per entry in registration order, duplicates included, all signalOn or all signalOff |
| `Routing.SilentNoteOnSameCalls` | vismid/Signaler.java:95-117 | a Note On with velocity 0 and a Note Off on the same channel make identical calls |
| `Routing.RegisterThenFanout` | vismid/Signaler.java:33-121 | after registering m on a channel, a note message on that channel makes the calls it made before plus one call on m at the end; other messages make the same calls |
| `Routing.Signaler.constructor` | vismid/Signaler.java:23-26 | a new router has an empty table |
| `Routing.Signaler.RegisterMidiResponder` | vismid/Signaler.java:33-38 | the new table is `Registered` applied to the old one |
| `Routing.Signaler.ChannelSet` | vismid/Signaler.java:44-47 | true exactly when the channel has an entry |
| `Routing.Signaler.SetupNewChannel` | vismid/Signaler.java:52-55 | the channel's entry becomes an empty list, other entries unchanged |
| `Routing.Signaler.Send` | vismid/Signaler.java:69-121 | the table is unchanged; the calls made are `Fanout`; on "on" every reached Pulser restarts; on "off" no Pulser changes and each group's frames grows by the number of times it is registered on the channel |
| `Routing.NotifyOn` | vismid/Signaler.java:95-103 | one signalOn per listed responder, in order; every reached Pulser ends at (true, 10) in place; no group counter changes |
| `Routing.NotifyOff` | vismid/Signaler.java:106-117 | one signalOff per listed responder, in order; only groups change, each counting one off-event per occurrence in the list |

## Left out

- vismid/PlayPanel.java, vismid/Main.java and vismid/Canvas.java are not part of this model: they hold the Swing user interface, file selection and playback transport, the start-up wiring of the sixteen groups, and the 20 ms repaint timer.
- Floating-point geometry is outside the model: the ellipse a Pulser is built from (and its `size` argument), scaling about the shape's centre, the rotation matrices, and the positions `(int) (diameter * cos(...))` given to group members. Positions are integers supplied as parameters.
- Colours, `GradientPaint` and `Graphics2D` output are left out. A draw returns what it would fill and link, not pixels.
- The concurrency between the sequencer's delivery thread and the repaint timer thread is left out. Every operation is modelled as sequential.
- The `ShortMessage` argument of `signalOn` and `signalOff` is dropped. Neither Pulser nor PulserGroup reads it. `Signaler.close` is empty and is left out. `Send` takes the time stamp but does not use it, like the source.
- Decoding channel, command and velocity from the status and data bytes is done by the MIDI library and is left out.
- `drawResponse` and `transform` are not dispatched through the responder interface. Only the canvas calls them that way, and the group calls them on concrete Pulsers.
- Pulsing.Pulser.Transform: models the new position as `at` applied to the old integer position. The source takes the rounded centre of the transformed shape's bounding box, which depends on the floating-point shape.
- Groups.AnglePeriodic: integers are unbounded here. Java computes `dir * 3 * frames` in 32 bits, which overflows after about 715 million off-events, and `frames` itself after 2^31; the period holds only below that bound.
- Groups.AngleRange: its sign clauses hold only below the same 32-bit bound; once `dir * 3 * frames` wraps, Java's angle argument can have the opposite sign. `AngleDegrees` as a whole models the unbounded product.
