/**
 The button panel (`SteppirApp`). Each button reads the controller's frequency
 where it needs one (passed in as `read`), computes a target, sends it to the
 controller directly (not through the serial hand-off) and shows it. The display
 shows a frequency in hertz; its text formatting is not modelled.
 */
module Panel {

  import opened Wrappers
  import opened Antenna
  import opened Tuning

  datatype Heading = Normal | Reverse | Bidirectional

  function HeadingCommand(h: Heading): Command {
    match h
    case Normal => SetDirectionNormal
    case Reverse => SetDirection180
    case Bidirectional => SetDirectionBidirectional
  }

  class SteppirPanel {
    /** The frequency on the display; `None` while it still shows its initial placeholder. */
    var shown: Option<int>

    constructor ()
      ensures shown == None
    {
      shown := None;
    }

    /** The six jog buttons: up or down by 10 kHz, 100 kHz or 1 MHz from the frequency read. */
    method Jog(read: int, up: bool, size: JogSize, controller: Controller) returns (target: int)
      modifies this, controller
      ensures target == (if up then JogUp(read, size) else JogDown(read, size))
      ensures controller.log == old(controller.log) + [SetFrequency(target)]
      ensures shown == Some(target)
    {
      target := if up then JogUp(read, size) else JogDown(read, size);
      controller.Send(SetFrequency(target));
      shown := Some(target);
    }

    /** "Band Up": the next band's bottom edge, or the frequency read when it is above 6 m. */
    method BandUpButton(read: int, controller: Controller) returns (target: int)
      modifies this, controller
      ensures target == BandUp(read)
      ensures controller.log == old(controller.log) + [SetFrequency(target)]
      ensures shown == Some(target)
    {
      target := BandUp(read);
      controller.Send(SetFrequency(target));
      shown := Some(target);
    }

    /** "Band Dn": the previous band's bottom edge, or the frequency read when it is below 40 m. */
    method BandDownButton(read: int, controller: Controller) returns (target: int)
      modifies this, controller
      ensures target == BandDown(read)
      ensures controller.log == old(controller.log) + [SetFrequency(target)]
      ensures shown == Some(target)
    {
      target := BandDown(read);
      controller.Send(SetFrequency(target));
      shown := Some(target);
    }

    /** The three direction buttons: set the heading, then show the frequency read afterwards. */
    method DirectionButton(h: Heading, read: int, controller: Controller)
      modifies this, controller
      ensures controller.log == old(controller.log) + [HeadingCommand(h)]
      ensures shown == Some(read)
    {
      controller.Send(HeadingCommand(h));
      shown := Some(read);
    }

    /** The autotrack, retract and calibrate buttons: one command each, display untouched. */
    method OperationButton(c: Command, controller: Controller)
      requires c in {SetAutotrackOn, SetAutotrackOff, RetractAntenna, CalibrateAntenna}
      modifies controller
      ensures controller.log == old(controller.log) + [c]
    {
      controller.Send(c);
    }
  }
}
