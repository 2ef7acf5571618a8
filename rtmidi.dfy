/**
 * The RtMidi driver as the Qt wrapper sees it, reduced to abstract state: the
 * names of the ports the driver reports right now, the port it has open, and
 * every message handed to it for transmission. Port enumeration, the operating
 * system calls and the wire itself are not modelled. The port list is polled
 * live by the wrapper, so the environment may replace it between calls
 * (`Replug`).
 */
module RtMidi {
  import opened Wrappers

  /** `unsigned char`, the element type of an RtMidi message. */
  newtype Byte = b: int | 0 <= b < 256

  /** `RtMidiError::Type`, the kinds of condition the driver reports. */
  datatype ErrorType =
    | Warning
    | DebugWarning
    | Unspecified
    | NoDevicesFound
    | InvalidDevice
    | MemoryError
    | InvalidParameter
    | InvalidUse
    | DriverError
    | SystemError
    | ThreadError
  {
    /** A request the driver could not carry out; the call that caused it has no effect. */
    predicate IsRejectedRequest() {
      this in {Unspecified, NoDevicesFound, InvalidDevice, InvalidParameter, InvalidUse}
    }

    /** A fault of the driver's own resources, from which the caller cannot recover. */
    predicate IsResourceFault() {
      this in {MemoryError, DriverError, SystemError, ThreadError}
    }
  }

  /** One RtMidiIn or RtMidiOut object. */
  class Driver {
    var ports: seq<string>
    var openIndex: Option<nat>
    var sent: seq<seq<Byte>>

    constructor (ports: seq<string>)
      ensures this.ports == ports && openIndex == None && sent == []
    {
      this.ports := ports;
      openIndex := None;
      sent := [];
    }

    /** `getPortCount()`. */
    function GetPortCount(): nat
      reads this
    {
      |ports|
    }

    /** `getPortName(i)`, for a port the driver reports. */
    function GetPortName(i: nat): string
      reads this
      requires i < |ports|
    {
      ports[i]
    }

    /** `openPort(i)`. */
    method OpenPort(i: nat)
      requires i < |ports|
      modifies this
      ensures openIndex == Some(i)
      ensures ports == old(ports) && sent == old(sent)
    {
      openIndex := Some(i);
    }

    /** `closePort()`; closing a driver with no open port changes nothing else. */
    method ClosePort()
      modifies this
      ensures openIndex == None
      ensures ports == old(ports) && sent == old(sent)
    {
      openIndex := None;
    }

    /** `sendMessage(&message)`: the bytes are handed to the driver as they are. */
    method SendMessage(message: seq<Byte>)
      modifies this
      ensures sent == old(sent) + [message]
      ensures ports == old(ports) && openIndex == old(openIndex)
    {
      sent := sent + [message];
    }

    /** Devices appear or disappear: the driver now reports `ports`. */
    method Replug(ports: seq<string>)
      modifies this
      ensures this.ports == ports
      ensures openIndex == old(openIndex) && sent == old(sent)
    {
      this.ports := ports;
    }
  }
}
