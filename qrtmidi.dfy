/**
 * The QRtMidi manager: one device binding per direction against an optional
 * RtMidi driver, the device lists shown to the user, sending, and the
 * classification of the errors the driver reports. Qt signals are recorded,
 * in the order they are emitted, in an append-only event log.
 */
module QtMidi {
  import opened Wrappers
  import opened RtMidi
  import opened Midi

  /**
   * Which of the two bindings an operation works on. It stands for the pair
   * (driver handle, binding field) and the pair of signals that the source
   * passes to `setDevice` by pointer.
   */
  datatype Direction = Input | Output {
    function Other(): (d: Direction)
      ensures d != this
    {
      if this == Input then Output else Input
    }
  }

  /** The four signals without payload. */
  datatype Event = InputOpened | InputClosed | OutputOpened | OutputClosed

  function ClosedSignal(dir: Direction): Event {
    if dir == Input then InputClosed else OutputClosed
  }

  function OpenedSignal(dir: Direction): Event {
    if dir == Input then InputOpened else OutputOpened
  }

  // ---------------------------------------------------------------------------
  // Error classification
  // ---------------------------------------------------------------------------

  /** What `midiError` does with a report: log at one of three levels, or stop the process. */
  datatype Action =
    | LogWarning(text: string)
    | LogDebug(text: string)
    | LogCritical(text: string)
    | Fatal(text: string)

  /**
   * `midiError`: every error type has exactly one outcome, the driver's text
   * is logged as it is, and only a resource fault stops the process.
   */
  function MidiError(t: ErrorType, errorText: string): (a: Action)
    ensures a.text == errorText
    ensures a.LogWarning? <==> t == Warning
    ensures a.LogDebug? <==> t == DebugWarning
    ensures a.LogCritical? <==> t.IsRejectedRequest()
    ensures a.Fatal? <==> t.IsResourceFault()
  {
    match t
    case Warning => LogWarning(errorText)
    case DebugWarning => LogDebug(errorText)
    case Unspecified | NoDevicesFound | InvalidDevice | InvalidParameter | InvalidUse =>
      LogCritical(errorText)
    case MemoryError | DriverError | SystemError | ThreadError => Fatal(errorText)
  }

  // ---------------------------------------------------------------------------
  // Name resolution and device lists
  // ---------------------------------------------------------------------------

  /**
   * The index that selection by name resolves to: the lowest index whose port
   * name equals `name` exactly, or -1 when no port has that name.
   */
  function FirstIndexOf(ports: seq<string>, name: string): (k: int)
    ensures -1 <= k < |ports|
    ensures 0 <= k ==> ports[k] == name
    ensures forall j :: 0 <= j < |ports| && (k == -1 || j < k) ==> ports[j] != name
  {
    if |ports| == 0 then -1
    else if ports[0] == name then 0
    else
      var k := FirstIndexOf(ports[1..], name);
      if k == -1 then -1 else k + 1
  }

  /** The characterisation in FirstIndexOf's contract determines its result. */
  lemma FirstIndexOfUnique(ports: seq<string>, name: string, k: int)
    requires -1 <= k < |ports|
    requires 0 <= k ==> ports[k] == name
    requires forall j :: 0 <= j < |ports| && (k == -1 || j < k) ==> ports[j] != name
    ensures k == FirstIndexOf(ports, name)
  {
  }

  predicate Distinct(ports: seq<string>) {
    forall i, j :: 0 <= i < j < |ports| ==> ports[i] != ports[j]
  }

  /** When port names are distinct, resolving the name of port `k` gives back `k`. */
  lemma DistinctNamesResolve(ports: seq<string>, k: nat)
    requires Distinct(ports)
    requires k < |ports|
    ensures FirstIndexOf(ports, ports[k]) == k
  {
  }

  /**
   * The list `getDeviceList` builds for a driver: the unbound entry and then
   * every port name, replaced by the single "not found" entry when that leaves
   * only the unbound entry.
   */
  function DeviceNames(ports: seq<string>): (r: seq<string>)
    ensures |ports| == 0 ==> r == [NoDeviceFound]
    ensures |ports| > 0 ==> |r| == |ports| + 1 && r[0] == NoDeviceSelected
    ensures |ports| > 0 ==> forall i :: 0 <= i < |ports| ==> r[i + 1] == ports[i]
  {
    var listed := [NoDeviceSelected] + ports;
    if |listed| == 1 then [NoDeviceFound] else listed
  }

  /** A list has a single entry exactly when the driver reports no port. */
  lemma SingleEntryIffNoPorts(ports: seq<string>)
    ensures |DeviceNames(ports)| == 1 <==> |ports| == 0
    ensures |DeviceNames(ports)| == 1 ==> DeviceNames(ports)[0] != NoDeviceSelected
  {
  }

  /**
   * Choosing any entry after the first from a device list and selecting it by
   * name resolves to a port with that name, at or before the entry's position.
   */
  lemma ListedNameResolves(ports: seq<string>, k: nat)
    requires 0 < k < |DeviceNames(ports)|
    ensures 0 <= FirstIndexOf(ports, DeviceNames(ports)[k]) < k
    ensures ports[FirstIndexOf(ports, DeviceNames(ports)[k])] == DeviceNames(ports)[k]
  {
  }

  /**
   * Selecting the first entry of a device list by name resolves to no port
   * exactly when no port is itself labelled with that entry's text.
   */
  lemma FirstEntryResolvesToNone(ports: seq<string>)
    ensures FirstIndexOf(ports, DeviceNames(ports)[0]) == -1 <==> DeviceNames(ports)[0] !in ports
  {
  }

  // ---------------------------------------------------------------------------
  // The manager
  // ---------------------------------------------------------------------------

  class QRtMidi {
    /** `m_midiIn`, `m_midiOut`: null when the driver could not be created. */
    const midiIn: Driver?
    const midiOut: Driver?

    /** `m_deviceIn`, `m_deviceOut`. */
    var deviceIn: Device
    var deviceOut: Device

    /** `m_lastSend`: the message most recently handed to the output driver. */
    var lastSend: seq<Byte>

    /** Every signal emitted so far, oldest first. */
    var events: seq<Event>

    /** The two drivers are separate objects and both bindings keep their invariant. */
    ghost predicate Valid()
      reads this
    {
      && (midiIn != null && midiOut != null ==> midiIn != midiOut)
      && IsBinding(deviceIn)
      && IsBinding(deviceOut)
    }

    function Handle(dir: Direction): Driver? {
      if dir == Input then midiIn else midiOut
    }

    function Binding(dir: Direction): Device
      reads this
    {
      if dir == Input then deviceIn else deviceOut
    }

    /**
     * A manager whose input driver reports `inPorts` and whose output driver
     * reports `outPorts`; `None` stands for a driver whose creation threw an
     * error that is not a resource fault. Both bindings start unbound.
     */
    constructor (inPorts: Option<seq<string>>, outPorts: Option<seq<string>>)
      ensures Valid()
      ensures deviceIn == Device() && deviceOut == Device()
      ensures lastSend == [] && events == []
      ensures midiIn == null <==> inPorts.None?
      ensures midiOut == null <==> outPorts.None?
      ensures midiIn != null ==>
                fresh(midiIn) && midiIn.ports == inPorts.value && midiIn.openIndex == None && midiIn.sent == []
      ensures midiOut != null ==>
                fresh(midiOut) && midiOut.ports == outPorts.value && midiOut.openIndex == None && midiOut.sent == []
    {
      if inPorts.Some? {
        midiIn := new Driver(inPorts.value);
      } else {
        midiIn := null;
      }
      if outPorts.Some? {
        midiOut := new Driver(outPorts.value);
      } else {
        midiOut := null;
      }
      deviceIn := Device();
      deviceOut := Device();
      lastSend := [];
      events := [];
    }

    /** `getInputDevice()`: the recorded input binding, which keeps the binding invariant. */
    function GetInputDevice(): (d: Device)
      reads this
      requires Valid()
      ensures d == deviceIn
      ensures IsBinding(d)
    {
      deviceIn
    }

    /** `getOutputDevice()`: the recorded output binding, which keeps the binding invariant. */
    function GetOutputDevice(): (d: Device)
      reads this
      requires Valid()
      ensures d == deviceOut
      ensures IsBinding(d)
    {
      deviceOut
    }

    /** `getDeviceList(handler)`: nothing for a null handle, else the list the driver's ports give now. */
    static method GetDeviceList(handler: Driver?) returns (driverNames: seq<string>)
      ensures handler == null ==> driverNames == []
      ensures handler != null ==> driverNames == DeviceNames(handler.ports)
    {
      driverNames := [];
      if handler == null {
        return;
      }
      var numPorts := handler.GetPortCount();
      driverNames := driverNames + [NoDeviceSelected];
      for i := 0 to numPorts
        invariant driverNames == [NoDeviceSelected] + handler.ports[..i]
      {
        driverNames := driverNames + [handler.GetPortName(i)];
      }
      assert handler.ports[..numPorts] == handler.ports;
      if |driverNames| == 1 {
        driverNames := [NoDeviceFound];
      }
    }

    /** `getInputDevices()`: the device list of the input driver only. */
    method GetInputDevices() returns (names: seq<string>)
      ensures midiIn == null ==> names == []
      ensures midiIn != null ==> names == DeviceNames(midiIn.ports)
    {
      names := GetDeviceList(midiIn);
    }

    /** `getOutputDevices()`: the device list of the output driver only. */
    method GetOutputDevices() returns (names: seq<string>)
      ensures midiOut == null ==> names == []
      ensures midiOut != null ==> names == DeviceNames(midiOut.ports)
    {
      names := GetDeviceList(midiOut);
    }

    /** Nothing the manager owns has changed. */
    twostate predicate Untouched()
      reads this, midiIn, midiOut
    {
      && unchanged(this)
      && (midiIn != null ==> unchanged(midiIn))
      && (midiOut != null ==> unchanged(midiOut))
    }

    /**
     * The effect of `setDevice(id, …)` on direction `dir`. With no driver
     * nothing changes. Otherwise the port is closed and the closed signal
     * emitted; an index the driver reports then opens that port, records it
     * with the driver's name for it and emits the opened signal, while any
     * other index leaves the binding as it was. Sending state, the other
     * binding and the other driver never change.
     */
    twostate predicate SelectedIndex(dir: Direction, id: int)
      reads this, midiIn, midiOut
    {
      var h, other := Handle(dir), Handle(dir.Other());
      && lastSend == old(lastSend)
      && Binding(dir.Other()) == old(Binding(dir.Other()))
      && (other != null ==> unchanged(other))
      && if h == null then
           Binding(dir) == old(Binding(dir)) && events == old(events)
         else
           && h.ports == old(h.ports)
           && h.sent == old(h.sent)
           && if 0 <= id < |old(h.ports)| then
                && h.openIndex == Some(id)
                && Binding(dir) == Device(id, old(h.ports)[id])
                && events == old(events) + [ClosedSignal(dir), OpenedSignal(dir)]
              else
                && h.openIndex == None
                && Binding(dir) == old(Binding(dir))
                && events == old(events) + [ClosedSignal(dir)]
    }

    /** The effect of `setDevice(name, …)`: `setDevice` with the index the name resolves to. */
    twostate predicate SelectedName(dir: Direction, name: string)
      reads this, midiIn, midiOut
    {
      var h := Handle(dir);
      SelectedIndex(dir, if h == null then -1 else FirstIndexOf(old(h.ports), name))
    }

    /** `setDevice(int id, …)`, with no check against the current binding. */
    method SetDevice(id: int, dir: Direction)
      requires Valid()
      modifies this, Handle(dir)
      ensures Valid()
      ensures SelectedIndex(dir, id)
    {
      var handler := Handle(dir);
      if handler == null {
        return;
      }
      handler.ClosePort();
      events := events + [ClosedSignal(dir)];
      if 0 <= id < handler.GetPortCount() {
        handler.OpenPort(id);
        var name := handler.GetPortName(id);
        if dir == Input {
          deviceIn := deviceIn.(id := id);
          deviceIn := deviceIn.(name := name);
        } else {
          deviceOut := deviceOut.(id := id);
          deviceOut := deviceOut.(name := name);
        }
        events := events + [OpenedSignal(dir)];
      }
    }

    /** The name search of `setDevice(QString name, …)`: the first port whose name is `name`, or -1. */
    static method ResolvePortName(handler: Driver, name: string) returns (deviceID: int)
      ensures deviceID == FirstIndexOf(handler.ports, name)
    {
      var numPorts := handler.GetPortCount();
      deviceID := -1;
      for i := 0 to numPorts
        invariant deviceID == -1
        invariant forall j :: 0 <= j < i ==> handler.ports[j] != name
      {
        var portName := handler.GetPortName(i);
        if portName == name {
          deviceID := i;
          FirstIndexOfUnique(handler.ports, name, deviceID);
          return;
        }
      }
      FirstIndexOfUnique(handler.ports, name, deviceID);
    }

    /** `setDevice(QString name, …)`: resolve the name, then select that index. */
    method SetDeviceByName(name: string, dir: Direction)
      requires Valid()
      modifies this, Handle(dir)
      ensures Valid()
      ensures SelectedName(dir, name)
    {
      var handler := Handle(dir);
      if handler == null {
        return;
      }
      var deviceID := ResolvePortName(handler, name);
      SetDevice(deviceID, dir);
    }

    /** `setInputDevice(int)`: nothing happens when `id` is already the bound id. */
    method SetInputDevice(id: int)
      requires Valid()
      modifies this, midiIn
      ensures Valid()
      ensures id == old(deviceIn.id) ==> Untouched()
      ensures id != old(deviceIn.id) ==> SelectedIndex(Input, id)
    {
      if id != deviceIn.id {
        SetDevice(id, Input);
      }
    }

    /** `setInputDevice(QString)`: nothing happens when `name` is already the bound name. */
    method SetInputDeviceByName(name: string)
      requires Valid()
      modifies this, midiIn
      ensures Valid()
      ensures name == old(deviceIn.name) ==> Untouched()
      ensures name != old(deviceIn.name) ==> SelectedName(Input, name)
    {
      if name != deviceIn.name {
        SetDeviceByName(name, Input);
      }
    }

    /** `setOutputDevice(int)`: nothing happens when `id` is already the bound id. */
    method SetOutputDevice(id: int)
      requires Valid()
      modifies this, midiOut
      ensures Valid()
      ensures id == old(deviceOut.id) ==> Untouched()
      ensures id != old(deviceOut.id) ==> SelectedIndex(Output, id)
    {
      if id != deviceOut.id {
        SetDevice(id, Output);
      }
    }

    /** `setOutputDevice(QString)`: nothing happens when `name` is already the bound name. */
    method SetOutputDeviceByName(name: string)
      requires Valid()
      modifies this, midiOut
      ensures Valid()
      ensures name == old(deviceOut.name) ==> Untouched()
      ensures name != old(deviceOut.name) ==> SelectedName(Output, name)
    {
      if name != deviceOut.name {
        SetDeviceByName(name, Output);
      }
    }

    /**
     * `send(message)`: without an output driver nothing changes; otherwise the
     * message becomes `m_lastSend` and is handed to the output driver as it
     * is. Bindings, signals and the input driver never change.
     */
    method Send(message: seq<Byte>)
      requires Valid()
      modifies this, midiOut
      ensures Valid()
      ensures midiOut == null ==> Untouched()
      ensures midiOut != null ==>
                && lastSend == message
                && midiOut.sent == old(midiOut.sent) + [message]
                && midiOut.ports == old(midiOut.ports)
                && midiOut.openIndex == old(midiOut.openIndex)
      ensures deviceIn == old(deviceIn) && deviceOut == old(deviceOut) && events == old(events)
      ensures midiIn != null ==> unchanged(midiIn)
    {
      if midiOut == null {
        return;
      }
      lastSend := message;
      midiOut.SendMessage(lastSend);
    }

    /** `send(status, command)`: sends the two-byte message `[status, command]`. */
    method Send2(status: Byte, command: Byte)
      requires Valid()
      modifies this, midiOut
      ensures Valid()
      ensures midiOut == null ==> Untouched()
      ensures midiOut != null ==>
                && lastSend == [status, command]
                && midiOut.sent == old(midiOut.sent) + [[status, command]]
                && midiOut.ports == old(midiOut.ports)
                && midiOut.openIndex == old(midiOut.openIndex)
      ensures deviceIn == old(deviceIn) && deviceOut == old(deviceOut) && events == old(events)
      ensures midiIn != null ==> unchanged(midiIn)
    {
      var message := [status, command];
      Send(message);
    }

    /** `send(status, command, value)`: sends the three-byte message `[status, command, value]`. */
    method Send3(status: Byte, command: Byte, value: Byte)
      requires Valid()
      modifies this, midiOut
      ensures Valid()
      ensures midiOut == null ==> Untouched()
      ensures midiOut != null ==>
                && lastSend == [status, command, value]
                && midiOut.sent == old(midiOut.sent) + [[status, command, value]]
                && midiOut.ports == old(midiOut.ports)
                && midiOut.openIndex == old(midiOut.openIndex)
      ensures deviceIn == old(deviceIn) && deviceOut == old(deviceOut) && events == old(events)
      ensures midiIn != null ==> unchanged(midiIn)
    {
      var message := [status, command, value];
      Send(message);
    }
  }

  /**
   * A session against an input driver with two ports and no output driver,
   * written as a client of the contracts above. After an out-of-range
   * selection the port is closed but the binding still names the port that
   * was open, so selecting that index again is ignored by the id guard.
   */
  method ExampleSession() {
    var m := new QRtMidi(Some(["Keyboard", "Controller"]), None);
    var names := m.GetInputDevices();
    assert names == [NoDeviceSelected, "Keyboard", "Controller"];

    assert "Keyboard"[0] != "Controller"[0];
    FirstIndexOfUnique(["Keyboard", "Controller"], "Controller", 1);
    m.SetInputDeviceByName("Controller");
    assert m.deviceIn == Device(1, "Controller");
    assert m.midiIn.openIndex == Some(1);
    assert m.events == [InputClosed, InputOpened];

    m.SetInputDevice(5);
    assert m.events == [InputClosed, InputOpened, InputClosed];
    assert m.midiIn.openIndex == None;
    assert m.deviceIn == Device(1, "Controller");

    m.SetInputDevice(1);
    assert m.midiIn.openIndex == None;
    assert |m.events| == 3;

    m.Send3(0x90, 0x40, 0x7F);
    assert m.lastSend == [];
    assert m.deviceIn == Device(1, "Controller");
  }
}
