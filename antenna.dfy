/**
 The antenna controller seen through its serial driver: a sink of commands.
 Transport and encoding are the driver's concern; the model only records which
 calls were made, in order.
 */
module Antenna {

  /** One call on the driver. Frequencies are whatever integer the caller computed. */
  datatype Command =
    | SetFrequency(hz: int)
    | SetDirectionNormal
    | SetDirection180
    | SetDirectionBidirectional
    | SetAutotrackOn
    | SetAutotrackOff
    | RetractAntenna
    | CalibrateAntenna

  /** The `SetFrequency` calls that deliver the given frequencies, in order. */
  function FrequencyCommands(fs: seq<nat>): (cs: seq<Command>)
    ensures |cs| == |fs|
    ensures forall i :: 0 <= i < |fs| ==> cs[i] == SetFrequency(fs[i])
  {
    seq(|fs|, i requires 0 <= i < |fs| => SetFrequency(fs[i]))
  }

  /** The driver object: every command it was given, oldest first. */
  class Controller {
    var log: seq<Command>

    constructor ()
      ensures log == []
    {
      log := [];
    }

    method Send(c: Command)
      modifies this
      ensures log == old(log) + [c]
    {
      log := log + [c];
    }
  }
}
