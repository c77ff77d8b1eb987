/**
 * A fixed ring of Pulsers answering one channel as a unit
 * (vismid/PulserGroup.java).
 *
 * The ring's members and their order are fixed when it is built; every
 * signal is forwarded to all of them in ring order. Each signal "off" also
 * advances a frame counter whose integer angle argument drives the
 * group's rotation, and each draw links every member to its second
 * neighbour, ticks every member once and rotates the ring.
 *
 * The rotation itself is floating-point geometry and is not modelled: a
 * Rotation records the value it is built from, and the positions it
 * produces are supplied by the caller as a function.
 */
module Groups {
  import opened Pulsing

  /** Java's `/` on a positive divisor: the quotient truncates toward zero. */
  function JavaDiv(a: int, m: int): int
    requires m > 0
  {
    if a >= 0 then a / m else -((-a) / m)
  }

  /** Java's `%` on a positive divisor: the remainder that goes with the truncated
      quotient (see JavaDivision), so it has the sign of the dividend and a smaller
      magnitude than m. */
  function JavaRem(a: int, m: int): (r: int)
    requires m > 0
    ensures a == m * JavaDiv(a, m) + r
    ensures -m < r < m
    ensures a >= 0 ==> r >= 0
    ensures a <= 0 ==> r <= 0
  {
    if a >= 0 then a % m else -((-a) % m)
  }

  /** Java's quotient is the exact quotient truncated toward zero. */
  lemma JavaDivision(a: int, m: int)
    requires m > 0
    ensures a >= 0 ==> m * JavaDiv(a, m) <= a < m * (JavaDiv(a, m) + 1)
    ensures a < 0 ==> m * (JavaDiv(a, m) - 1) < a <= m * JavaDiv(a, m)
  {
  }

  /** The integer argument, in degrees, handed to the cosine after `frames`
      signals "off": `dir * 3 * frames % 360` evaluated as Java does. */
  function AngleDegrees(dir: int, frames: int): int {
    JavaRem(dir * 3 * frames, 360)
  }

  /** The angle argument lies strictly between -360 and 360 and has the sign of
      dir * frames (or is 0). */
  lemma AngleRange(dir: int, frames: int)
    ensures -360 < AngleDegrees(dir, frames) < 360
    ensures dir * frames >= 0 ==> AngleDegrees(dir, frames) >= 0
    ensures dir * frames <= 0 ==> AngleDegrees(dir, frames) <= 0
  {
    assert dir * 3 * frames == 3 * (dir * frames);
  }

  /** The angle argument repeats every 120 signals "off" (3 * 120 == 360). */
  lemma AnglePeriodic(dir: int, frames: int)
    requires dir == 1 || dir == -1
    requires frames >= 0
    ensures AngleDegrees(dir, frames + 120) == AngleDegrees(dir, frames)
  {
    var a := 3 * frames;
    assert (a + 360) % 360 == a % 360;
    if dir == 1 {
      assert dir * 3 * (frames + 120) == a + 360;
      assert dir * 3 * frames == a;
    } else {
      assert dir * 3 * (frames + 120) == -(a + 360);
      assert dir * 3 * frames == -a;
    }
  }

  /** A reversed group's angle argument is the exact negation of a forward one's. */
  lemma AngleReversed(frames: int)
    ensures AngleDegrees(-1, frames) == -AngleDegrees(1, frames)
  {
    assert -1 * 3 * frames == -(1 * 3 * frames);
  }

  /** The rotation a group applies to its members after each draw. */
  datatype Rotation =
    | InitialSpin(dir: int)        // a rotation by dir * 0.0025 radians
    | Oscillating(degrees: int)    // a rotation by 0.05 * cos(degrees) radians

  /** A line drawn from one member, by ring index, to another. */
  datatype Link = Link(from: int, to: int)

  /** The links one draw of an n-member ring makes: for i = 0..n inclusive,
      member i mod n to member (i + 2) mod n. */
  function LinkPlan(n: int): seq<Link>
    requires n > 0
  {
    seq(n + 1, i requires 0 <= i <= n => Link(i % n, (i + 2) % n))
  }

  /** A ring of n members gets n + 1 links, every index in range; link j starts at
      member j and ends at its second neighbour; the last link repeats the first. */
  lemma LinkPlanShape(n: int)
    requires n > 0
    ensures |LinkPlan(n)| == n + 1
    ensures forall j :: 0 <= j <= n ==> 0 <= LinkPlan(n)[j].from < n && 0 <= LinkPlan(n)[j].to < n
    ensures forall j :: 0 <= j < n ==> LinkPlan(n)[j].from == j
    ensures forall j :: 0 <= j <= n ==> LinkPlan(n)[j].to == (LinkPlan(n)[j].from + 2) % n
    ensures LinkPlan(n)[n] == LinkPlan(n)[0]
  {
    var plan := LinkPlan(n);
    forall j | 0 <= j < n
      ensures plan[j].from == j
    {
      ModOfSmall(j, n);
    }
    forall j | 0 <= j <= n
      ensures plan[j].to == (plan[j].from + 2) % n
    {
      ModPlusTwo(j, n);
    }
    ModOfShifted(0, n);
    ModOfShifted(2, n);
  }

  /** Adding 2 after reducing mod n gives what adding 2 before does. */
  lemma ModPlusTwo(j: int, n: int)
    requires 0 <= j && n > 0
    ensures (j % n + 2) % n == (j + 2) % n
  {
    var q, r := j / n, j % n;
    assert j + 2 == n * q + (r + 2);
    if n == 1 {
      ModUnique(j + 2, 1, j + 2, 0);
      ModUnique(r + 2, 1, r + 2, 0);
    } else if r + 2 < n {
      ModUnique(j + 2, n, q, r + 2);
      ModOfSmall(r + 2, n);
    } else {
      assert j + 2 == n * (q + 1) + (r + 2 - n);
      ModUnique(j + 2, n, q + 1, r + 2 - n);
      assert r + 2 == n * 1 + (r + 2 - n);
      ModUnique(r + 2, n, 1, r + 2 - n);
    }
  }

  lemma ModOfSmall(j: int, n: int)
    requires 0 <= j < n
    ensures j % n == j
  {
  }

  lemma ModOfShifted(j: int, n: int)
    requires n > 0
    ensures (j + n) % n == j % n
  {
    var q, r := j / n, j % n;
    assert j + n == n * (q + 1) + r;
    ModUnique(j + n, n, q + 1, r);
  }

  /** The remainder of x by n is the r of any x == n * q + r with 0 <= r < n. */
  lemma ModUnique(x: int, n: int, q: int, r: int)
    requires n > 0 && 0 <= r < n && x == n * q + r
    ensures x % n == r
  {
    var q', r' := x / n, x % n;
    assert x == n * q' + r';
    if q < q' {
      assert n * (q' - q) == n * q' - n * q;
      MulAtLeast(n, q' - q);
    } else if q > q' {
      assert n * (q - q') == n * q - n * q';
      MulAtLeast(n, q - q');
    }
  }

  lemma {:induction false} MulAtLeast(n: int, d: int)
    requires n > 0 && d >= 1
    ensures n * d >= n
  {
    if d > 1 {
      MulAtLeast(n, d - 1);
      assert n * d == n * (d - 1) + n;
    }
  }

  /** What one draw of a group produces: the links and one fill per member, or the
      ArithmeticException an empty ring raises at `i % size`. */
  datatype Frame = Drawn(links: seq<Link>, fills: seq<Fill>) | ArithmeticException

  class PulserGroup {
    const group: seq<Pulser>
    const dir: int
    var frames: int
    var rot: Rotation

    /** The members, as a set of objects. */
    ghost function Members(): set<Pulser> {
      set k | 0 <= k < |group| :: group[k]
    }

    /** What every group keeps: distinct members, a direction sign of +1 or -1 and
        a non-negative frame counter. */
    ghost predicate Valid()
      reads this
    {
      && (forall i, j :: 0 <= i < j < |group| ==> group[i] != group[j])
      && (dir == 1 || dir == -1)
      && frames >= 0
    }

    /** A ring of `num` new, inactive members (none when num <= 0) in the given
        colour, member i at `place(i)`; direction -1 when `reverse`, else 1. */
    constructor (num: int, color: Color, reverse: bool, place: int -> Point)
      ensures Valid()
      ensures |group| == if num > 0 then num else 0
      ensures forall k :: 0 <= k < |group| ==>
        fresh(group[k]) && group[k].State() == Idle && group[k].color == color &&
        group[k].Position() == place(k)
      ensures dir == (if reverse then -1 else 1)
      ensures frames == 0 && rot == InitialSpin(dir)
    {
      var members: seq<Pulser> := [];
      var i := 0;
      while i < num
        invariant 0 <= i && |members| == i
        invariant num > 0 ==> i <= num
        invariant num <= 0 ==> i == 0
        invariant forall k :: 0 <= k < i ==>
          fresh(members[k]) && members[k].State() == Idle && members[k].color == color &&
          members[k].Position() == place(k)
        invariant forall k, l :: 0 <= k < l < i ==> members[k] != members[l]
      {
        var p := new Pulser(place(i).x, place(i).y, color);
        members := members + [p];
        i := i + 1;
      }
      group := members;
      dir := if reverse then -1 else 1;
      frames := 0;
      rot := InitialSpin(if reverse then -1 else 1);
    }

    /** Forwards signal "on" to every member, in ring order: each restarts. */
    method SignalOn()
      modifies Members()
      ensures forall k :: 0 <= k < |group| ==>
        group[k].State() == Restarted && group[k].Position() == old(group[k].Position())
    {
      for j := 0 to |group|
        invariant forall k :: 0 <= k < j ==> group[k].State() == Restarted
        invariant forall k :: 0 <= k < |group| ==> group[k].Position() == old(group[k].Position())
      {
        group[j].SignalOn();
      }
    }

    /** Counts one more signal "off", rebuilds the rotation from the new count and
        forwards the signal to every member, which leaves each of them as it was. */
    method SignalOff()
      modifies this`frames, this`rot
      ensures frames == old(frames) + 1
      ensures rot == Oscillating(AngleDegrees(dir, frames))
      ensures old(Valid()) ==> Valid()
      ensures forall k :: 0 <= k < |group| ==>
        group[k].State() == old(group[k].State()) && group[k].Position() == old(group[k].Position())
    {
      frames := frames + 1;
      rot := Oscillating(AngleDegrees(dir, frames));
      for j := 0 to |group|
        invariant frames == old(frames) + 1
        invariant rot == Oscillating(AngleDegrees(dir, frames))
      {
        group[j].SignalOff();
      }
    }

    /** Draws the ring: the links of LinkPlan, then every member once in ring order
        (each ticks and fills), then moves every member by the group's rotation,
        whose effect on a position `geometry` gives. An empty ring raises at once. */
    method DrawResponse(geometry: (Rotation, Point) -> Point) returns (out: Frame)
      requires Valid()
      modifies Members()
      ensures out == ArithmeticException <==> |group| == 0
      ensures out.Drawn? ==> out.links == LinkPlan(|group|) && |out.fills| == |group|
      ensures forall k :: 0 <= k < |group| ==>
        && group[k].State() == old(group[k].State()).Ticked()
        && out.Drawn? && out.fills[k] == Fill(group[k].color, group[k].State().DrawScale())
        && group[k].Position() == geometry(rot, old(group[k].Position()))
    {
      var size := |group|;
      var links: seq<Link> := [];
      var i := 0;
      while i <= size
        invariant 0 <= i <= size + 1
        invariant size == 0 ==> i == 0
        invariant size > 0 ==> links == LinkPlan(size)[..i]
      {
        if size == 0 {
          out := ArithmeticException;
          return;
        }
        links := links + [Link(i % size, (i + 2) % size)];
        i := i + 1;
      }
      assert links == LinkPlan(size);

      var fills: seq<Fill> := [];
      for j := 0 to size
        invariant |fills| == j
        invariant forall k :: 0 <= k < j ==>
          group[k].State() == old(group[k].State()).Ticked() &&
          fills[k] == Fill(group[k].color, group[k].State().DrawScale())
        invariant forall k :: j <= k < size ==> group[k].State() == old(group[k].State())
        invariant forall k :: 0 <= k < size ==> group[k].Position() == old(group[k].Position())
      {
        var f := group[j].DrawResponse();
        fills := fills + [f];
      }

      var r := rot;
      Transform((p: Point) => geometry(r, p));
      out := Drawn(links, fills);
    }

    /** Moves every member, in ring order, to where `at` takes it. */
    method Transform(at: Point -> Point)
      requires Valid()
      modifies Members()
      ensures forall k :: 0 <= k < |group| ==>
        group[k].Position() == at(old(group[k].Position())) &&
        group[k].State() == old(group[k].State())
    {
      for j := 0 to |group|
        invariant forall k :: 0 <= k < j ==> group[k].Position() == at(old(group[k].Position()))
        invariant forall k :: j <= k < |group| ==> group[k].Position() == old(group[k].Position())
        invariant forall k :: 0 <= k < |group| ==> group[k].State() == old(group[k].State())
      {
        group[j].Transform(at);
      }
    }
  }
}
