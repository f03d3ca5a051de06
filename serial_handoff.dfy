/**
 The one-slot mailbox between the radio link and the serial thread: a target
 frequency `serialBytes` and a flag `serialSend` saying it is still to be sent.
 A new report overwrites whatever is waiting; a drain step delivers the waiting
 value once and clears the flag.
 */
module SerialHandoff {

  import opened Antenna

  datatype Slot = Slot(serialBytes: nat, serialSend: bool)

  /** The class defaults: nothing pending, value 0. */
  const Empty: Slot := Slot(0, false)

  /** The radio link hands over a changed frequency. */
  function Post(s: Slot, f: nat): (r: Slot)
    ensures r.serialSend && r.serialBytes == f
  {
    Slot(f, true)
  }

  /** The slot after some steps and the frequencies delivered to the driver meanwhile. */
  datatype Drained = Drained(slot: Slot, delivered: seq<nat>)

  /** One pass of the serial thread's loop body. */
  function Drain(s: Slot): (d: Drained)
    ensures !d.slot.serialSend && d.slot.serialBytes == s.serialBytes
    ensures d.delivered == if s.serialSend then [s.serialBytes] else []
  {
    if s.serialSend then Drained(Slot(s.serialBytes, false), [s.serialBytes])
    else Drained(s, [])
  }

  /** What can happen to the slot: a hand-over from the radio link, or a drain step. */
  datatype Event = Handover(f: nat) | DrainStep

  /** One event: a hand-over delivers nothing and leaves its value pending; a drain delivers at most one value. */
  function Apply(s: Slot, e: Event): (d: Drained)
    ensures |d.delivered| <= 1
    ensures e.Handover? ==> d.delivered == [] && d.slot == Slot(e.f, true)
    ensures e.DrainStep? ==> !d.slot.serialSend
  {
    match e
    case Handover(f) => Drained(Post(s, f), [])
    case DrainStep => Drain(s)
  }

  /** The slot's history under a sequence of events, in order. */
  function Run(s: Slot, events: seq<Event>): (d: Drained)
    ensures |d.delivered| <= |events|
    ensures events != [] && events[|events| - 1].DrainStep? ==> !d.slot.serialSend
    decreases |events|
  {
    if events == [] then Drained(s, [])
    else
      var first := Apply(s, events[0]);
      var rest := Run(first.slot, events[1..]);
      Drained(rest.slot, first.delivered + rest.delivered)
  }

  function Handovers(fs: seq<nat>): (es: seq<Event>)
    ensures |es| == |fs| && forall i :: 0 <= i < |fs| ==> es[i] == Handover(fs[i])
  {
    seq(|fs|, i requires 0 <= i < |fs| => Handover(fs[i]))
  }

  function DrainCount(events: seq<Event>): nat
    decreases |events|
  {
    if events == [] then 0 else (if events[0].DrainStep? then 1 else 0) + DrainCount(events[1..])
  }

  /** Running two event sequences one after the other is running their concatenation. */
  lemma {:induction false} RunAppend(s: Slot, a: seq<Event>, b: seq<Event>)
    ensures Run(s, a + b).slot == Run(Run(s, a).slot, b).slot
    ensures Run(s, a + b).delivered == Run(s, a).delivered + Run(Run(s, a).slot, b).delivered
    decreases |a|
  {
    if a != [] {
      var first := Apply(s, a[0]);
      assert (a + b)[0] == a[0];
      assert (a + b)[1..] == a[1..] + b;
      RunAppend(first.slot, a[1..], b);
      var mid := Run(first.slot, a[1..]);
      assert Run(s, a) == Drained(mid.slot, first.delivered + mid.delivered);
      assert Run(s, a + b).delivered == first.delivered + Run(first.slot, a[1..] + b).delivered;
    } else {
      assert a + b == b;
    }
  }

  /** Hand-overs alone deliver nothing; afterwards the last one waits in the slot. */
  lemma {:induction false} HandoversOverwrite(s: Slot, fs: seq<nat>)
    requires |fs| > 0
    ensures Run(s, Handovers(fs)) == Drained(Slot(fs[|fs| - 1], true), [])
    decreases |fs|
  {
    if |fs| > 1 {
      assert Handovers(fs)[1..] == Handovers(fs[1..]);
      HandoversOverwrite(Post(s, fs[0]), fs[1..]);
    }
  }

  /** Latest value wins: any run of hand-overs followed by one drain delivers exactly the last value, once. */
  lemma LatestWins(s: Slot, fs: seq<nat>)
    requires |fs| > 0
    ensures Run(s, Handovers(fs) + [DrainStep]) == Drained(Slot(fs[|fs| - 1], false), [fs[|fs| - 1]])
  {
    RunAppend(s, Handovers(fs), [DrainStep]);
    HandoversOverwrite(s, fs);
  }

  /** Reports A then B before a drain give one delivery, of B. */
  lemma TwoReportsCoalesce(s: Slot, a: nat, b: nat)
    ensures Run(s, [Handover(a), Handover(b), DrainStep]).delivered == [b]
  {
    assert Handovers([a, b]) + [DrainStep] == [Handover(a), Handover(b), DrainStep];
    LatestWins(s, [a, b]);
  }

  /** A second drain with no hand-over in between delivers nothing. */
  lemma DrainTwiceDeliversOnce(s: Slot)
    ensures Run(s, [DrainStep, DrainStep]).delivered == (if s.serialSend then [s.serialBytes] else [])
  {
  }

  /** The serial thread sends at most once per pass of its loop. */
  lemma {:induction false} AtMostOnePerDrain(s: Slot, events: seq<Event>)
    ensures |Run(s, events).delivered| <= DrainCount(events)
    decreases |events|
  {
    if events != [] {
      AtMostOnePerDrain(Apply(s, events[0]).slot, events[1..]);
    }
  }

  /** Nothing is invented: every delivered value was handed over, or was already waiting at the start. */
  lemma {:induction false} DeliveredWasHandedOver(s: Slot, events: seq<Event>, i: nat)
    requires i < |Run(s, events).delivered|
    ensures (s.serialSend && Run(s, events).delivered[i] == s.serialBytes)
      || exists k :: 0 <= k < |events| && events[k] == Handover(Run(s, events).delivered[i])
    decreases |events|
  {
    var first := Apply(s, events[0]);
    var d := Run(s, events).delivered;
    if i < |first.delivered| {
    } else {
      var j := i - |first.delivered|;
      DeliveredWasHandedOver(first.slot, events[1..], j);
      if first.slot.serialSend && d[i] == first.slot.serialBytes {
        if events[0].DrainStep? {
          assert false;
        } else {
          assert events[0] == Handover(d[i]);
        }
      } else {
        var k :| 0 <= k < |events[1..]| && events[1..][k] == Handover(d[i]);
        assert events[k + 1] == Handover(d[i]);
      }
    }
  }

  /**
   The serial thread (`SteppirSerialLoop`) with its two hand-off fields. The
   radio link writes the fields directly; `Step` is one pass of the thread's
   loop, which drives the controller.
   */
  class SerialLoop {
    var serialSend: bool
    var serialBytes: nat

    function State(): Slot
      reads this
    {
      Slot(serialBytes, serialSend)
    }

    constructor ()
      ensures State() == Empty
    {
      serialSend := false;
      serialBytes := 0;
    }

    method Step(controller: Controller)
      modifies this, controller
      ensures State() == Drain(old(State())).slot
      ensures controller.log == old(controller.log) + FrequencyCommands(Drain(old(State())).delivered)
    {
      if serialSend {
        controller.Send(SetFrequency(serialBytes));
        serialSend := false;
      }
    }
  }
}
