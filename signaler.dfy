/**
 * The router (vismid/Signaler.java): a table from channel number to the
 * responders registered on it, in registration order, and the dispatch of
 * each incoming message to them.
 *
 * Table, Registered and Fanout state what registration does to the table
 * and which calls a message gives rise to; the class Signaler holds the
 * table in a field and its methods are proved against them.
 */
module Routing {
  import opened Midi
  import opened Pulsing
  import opened Groups
  import opened Responders

  /** Channel number to registered responders, in registration order. */
  type Table = map<int, seq<Responder>>

  /** The responders registered on a channel; none when it has no entry. */
  function Listeners(t: Table, channel: int): seq<Responder> {
    if channel in t then t[channel] else []
  }

  /** The table after registering m on channel: the channel gets an entry if it had
      none, m is appended at its end (again, if it is already there), and every
      other channel keeps exactly the entry it had. */
  function Registered(t: Table, m: Responder, channel: int): (t': Table)
    ensures t'.Keys == t.Keys + {channel}
    ensures t'[channel] == Listeners(t, channel) + [m]
    ensures |t'[channel]| == |Listeners(t, channel)| + 1
    ensures forall c :: c in t && c != channel ==> t'[c] == t[c]
  {
    t[channel := Listeners(t, channel) + [m]]
  }

  /** The call a classified signal makes on one responder. */
  function CallFor(s: Signal, r: Responder): Call
    requires s != Ignored
  {
    if s == On then SignalOnCall(r) else SignalOffCall(r)
  }

  /** One call of the given kind per responder, in list order. */
  function Calls(s: Signal, rs: seq<Responder>): seq<Call>
    requires s != Ignored
  {
    seq(|rs|, i requires 0 <= i < |rs| => CallFor(s, rs[i]))
  }

  /** The calls a message gives rise to: for a message on a channel with an entry
      that classifies as "on" or "off", one call per registered responder in
      registration order; otherwise none. */
  function Fanout(t: Table, msg: MidiMessage): seq<Call> {
    if Classify(msg) == Ignored || msg.channel !in t then []
    else Calls(Classify(msg), t[msg.channel])
  }

  /** Which calls a message makes: none for a channel without an entry, a message
      of another kind or a command other than Note On / Note Off; otherwise exactly
      one per entry, in order, duplicates included, all signalOn for "on" and all
      signalOff for "off". */
  lemma FanoutShape(t: Table, msg: MidiMessage)
    ensures Classify(msg) == Ignored ==> Fanout(t, msg) == []
    ensures msg.ShortMessage? && msg.channel !in t ==> Fanout(t, msg) == []
    ensures Classify(msg) != Ignored && msg.channel in t ==>
      && |Fanout(t, msg)| == |t[msg.channel]|
      && forall i :: 0 <= i < |t[msg.channel]| ==>
           && Fanout(t, msg)[i].target == t[msg.channel][i]
           && (Fanout(t, msg)[i].SignalOnCall? <==> Classify(msg) == On)
  {
  }

  /** Note On with velocity 0 and Note Off make identical calls. */
  lemma SilentNoteOnSameCalls(t: Table, channel: int, velocity: int)
    ensures Fanout(t, ShortMessage(channel, NoteOn, 0)) == Fanout(t, ShortMessage(channel, NoteOff, velocity))
  {
  }

  /** Registering m on a channel adds exactly one call on m, at the end, to what a
      message on that channel makes, and changes nothing for other channels. */
  lemma RegisterThenFanout(t: Table, m: Responder, channel: int, msg: MidiMessage)
    ensures Fanout(Registered(t, m, channel), msg) ==
      if Classify(msg) != Ignored && msg.channel == channel
      then Fanout(t, msg) + [CallFor(Classify(msg), m)]
      else Fanout(t, msg)
  {
    if Classify(msg) != Ignored && msg.channel == channel {
      var before, after := Fanout(t, msg), Fanout(Registered(t, m, channel), msg);
      assert |after| == |before| + 1;
      forall i | 0 <= i < |after|
        ensures after[i] == (before + [CallFor(Classify(msg), m)])[i]
      {
      }
    }
  }

  /** The Pulsers reached through a list of responders. */
  ghost function PulsersOf(rs: seq<Responder>): set<Pulser> {
    set i, p | 0 <= i < |rs| && p in Reached(rs[i]) :: p
  }

  /** The groups in a list of responders. */
  ghost function GroupsOf(rs: seq<Responder>): set<PulserGroup> {
    set i | 0 <= i < |rs| && rs[i].Group? :: rs[i].g
  }

  /** The groups of a list, as objects. */
  ghost function GroupObjects(rs: seq<Responder>): set<object> {
    set g | g in GroupsOf(rs) :: g as object
  }

  /** Everything signalling a list of responders may change. */
  ghost function Footprint(rs: seq<Responder>): set<object> {
    (set p | p in PulsersOf(rs) :: p as object) + GroupObjects(rs)
  }

  lemma PulsersOfPrefix(rs: seq<Responder>, i: nat)
    requires i < |rs|
    ensures PulsersOf(rs[..i + 1]) == PulsersOf(rs[..i]) + Reached(rs[i])
  {
    var a, b := PulsersOf(rs[..i + 1]), PulsersOf(rs[..i]) + Reached(rs[i]);
    forall p | p in a ensures p in b {
      var j :| 0 <= j < i + 1 && p in Reached(rs[..i + 1][j]);
    }
    forall p | p in b ensures p in a {
      if p in Reached(rs[i]) {
        assert rs[..i + 1][i] == rs[i];
      } else {
        var j :| 0 <= j < i && p in Reached(rs[..i][j]);
        assert rs[..i + 1][j] == rs[j];
      }
    }
  }

  class Signaler {
    var observers: Table

    /** A router with no channel entries. */
    constructor ()
      ensures observers == map[]
    {
      observers := map[];
    }

    /** Registers m on a channel, creating the channel's entry first if needed. */
    method RegisterMidiResponder(m: Responder, channel: int)
      modifies this
      ensures observers == Registered(old(observers), m, channel)
    {
      var isSet := ChannelSet(channel);
      if !isSet {
        SetupNewChannel(channel);
      }
      observers := observers[channel := observers[channel] + [m]];
    }

    /** Whether the channel has an entry. */
    method ChannelSet(channel: int) returns (isSet: bool)
      ensures isSet <==> channel in observers
    {
      isSet := channel in observers;
    }

    /** Gives the channel a new, empty entry. */
    method SetupNewChannel(channel: int)
      modifies this
      ensures observers == old(observers)[channel := []]
    {
      observers := observers[channel := []];
    }

    /** What dispatching msg may change: nothing unless it is a note message on a
        channel with an entry, else the responders of that channel. */
    ghost function Targets(msg: MidiMessage): set<object>
      reads this
    {
      if Classify(msg) == Ignored || msg.channel !in observers then {}
      else Footprint(observers[msg.channel])
    }

    /** Dispatches one message: makes the calls of Fanout, in order, on the
        registered responders, and returns them. The time stamp is not used. */
    method Send(msg: MidiMessage, timeStamp: int) returns (calls: seq<Call>)
      modifies Targets(msg)
      ensures observers == old(observers)
      ensures calls == Fanout(observers, msg)
      ensures Classify(msg) == On && msg.channel in observers ==>
        var rs := observers[msg.channel];
        && (forall p :: p in PulsersOf(rs) ==>
              p.State() == Restarted && p.Position() == old(p.Position()))
        && (forall g :: g in GroupsOf(rs) ==> g.frames == old(g.frames) && g.rot == old(g.rot))
      ensures Classify(msg) == Off && msg.channel in observers ==>
        var rs := observers[msg.channel];
        && (forall p :: p in PulsersOf(rs) ==>
              p.State() == old(p.State()) && p.Position() == old(p.Position()))
        && (forall g :: g in GroupsOf(rs) ==>
              && g.frames == old(g.frames) + multiset(rs)[Group(g)]
              && g.rot == Oscillating(AngleDegrees(g.dir, g.frames)))
    {
      calls := [];
      if msg.OtherMessage? {
        return;
      }
      var channel := msg.channel;
      if channel !in observers {
        return;
      }
      var rs := observers[channel];
      var velocity, command := msg.velocity, msg.command;
      if command == NoteOn && velocity != 0 {
        calls := NotifyOn(rs);
      } else if command == NoteOff || (command == NoteOn && velocity == 0) {
        calls := NotifyOff(rs);
      }
    }
  }

  /** The objects one call on the i-th responder may change lie within the
      footprint of the whole list. */
  lemma TouchedInFootprint(rs: seq<Responder>, i: nat)
    requires i < |rs|
    ensures Touched(SignalOnCall(rs[i])) <= Footprint(rs)
    ensures Touched(SignalOffCall(rs[i])) <= GroupObjects(rs) <= Footprint(rs)
  {
    forall p | p in Reached(rs[i]) ensures p in PulsersOf(rs) {
    }
    if rs[i].Group? {
      assert rs[i].g in GroupsOf(rs);
    }
  }

  /** Signals "on" to every responder of the list, in order: every reached Pulser
      restarts, keeping its position, and no group's counter or rotation changes. */
  method NotifyOn(rs: seq<Responder>) returns (calls: seq<Call>)
    modifies Footprint(rs)
    ensures calls == Calls(On, rs)
    ensures forall p :: p in PulsersOf(rs) ==>
      p.State() == Restarted && p.Position() == old(p.Position())
    ensures forall g :: g in GroupsOf(rs) ==> g.frames == old(g.frames) && g.rot == old(g.rot)
  {
    calls := [];
    var i := 0;
    while i < |rs|
      invariant 0 <= i <= |rs|
      invariant calls == Calls(On, rs)[..i]
      invariant forall p :: p in PulsersOf(rs) ==>
        && p.Position() == old(p.Position())
        && p.State() == (if p in PulsersOf(rs[..i]) then Restarted else old(p.State()))
      invariant forall g :: g in GroupsOf(rs) ==> g.frames == old(g.frames) && g.rot == old(g.rot)
    {
      PulsersOfPrefix(rs, i);
      TouchedInFootprint(rs, i);
      Deliver(SignalOnCall(rs[i]));
      calls := calls + [SignalOnCall(rs[i])];
      i := i + 1;
    }
    assert rs[..i] == rs;
  }

  /** Every group of a list occurs in it at least once. */
  lemma GroupsCounted(rs: seq<Responder>)
    ensures forall g :: g in GroupsOf(rs) ==> multiset(rs)[Group(g)] > 0
  {
    forall g | g in GroupsOf(rs)
      ensures multiset(rs)[Group(g)] > 0
    {
      var j :| 0 <= j < |rs| && rs[j].Group? && rs[j].g == g;
      assert rs[j] in multiset(rs);
    }
  }

  /** How many times a group occurs in a list. */
  ghost function Count(rs: seq<Responder>, g: PulserGroup): nat {
    if rs == [] then 0
    else Count(rs[..|rs| - 1], g) + (if rs[|rs| - 1] == Group(g) then 1 else 0)
  }

  lemma {:induction false} CountIsMultiplicity(rs: seq<Responder>, g: PulserGroup)
    ensures Count(rs, g) == multiset(rs)[Group(g)]
  {
    if rs != [] {
      var n := |rs| - 1;
      CountIsMultiplicity(rs[..n], g);
      assert rs == rs[..n] + [rs[n]];
    }
  }

  /** Signals "off" to every responder of the list, in order: only groups change
      (so no Pulser does), each counting one signal per time it occurs in the list. */
  method NotifyOff(rs: seq<Responder>) returns (calls: seq<Call>)
    modifies GroupObjects(rs)
    ensures calls == Calls(Off, rs)
    ensures forall g :: g in GroupsOf(rs) ==>
      && g.frames == old(g.frames) + multiset(rs)[Group(g)]
      && g.rot == Oscillating(AngleDegrees(g.dir, g.frames))
  {
    calls := [];
    var i := 0;
    while i < |rs|
      invariant 0 <= i <= |rs|
      invariant calls == Calls(Off, rs)[..i]
      invariant forall g :: g in GroupsOf(rs) ==>
        && g.frames == old(g.frames) + Count(rs[..i], g)
        && g.rot == (if Count(rs[..i], g) == 0 then old(g.rot) else Oscillating(AngleDegrees(g.dir, g.frames)))
    {
      TouchedInFootprint(rs, i);
      assert rs[..i + 1][..i] == rs[..i];
      Deliver(SignalOffCall(rs[i]));
      calls := calls + [SignalOffCall(rs[i])];
      i := i + 1;
    }
    assert rs[..i] == rs;
    GroupsCounted(rs);
    forall g | g in GroupsOf(rs) ensures Count(rs, g) == multiset(rs)[Group(g)] {
      CountIsMultiplicity(rs, g);
    }
  }
}
