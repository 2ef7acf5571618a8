# QRtMidi device binding, as a verified Dafny model

QRtMidi is a Qt wrapper around the RtMidi driver. It owns one input driver and
one output driver. Either may be missing: its creation threw, and the error
was not a resource fault (a resource fault ends the process in `midiError`).
For each direction it records a binding `MIDI::Device {id, name}`: the port
that was last opened and the driver's name for it, or `(-1, "No midi device
selected")` when nothing has been opened. It lets the application

- list the devices of a direction (`getInputDevices`, `getOutputDevices`),
- select a device by index or by name (`setInputDevice`, `setOutputDevice`),
  which closes the port, emits the "closed" signal and, for an index the
  driver reports, opens that port, records it and emits the "opened" signal,
- send a raw message or a two- or three-byte message to the output driver,

and it classifies the errors the driver reports into log or fatal actions.

The model has four modules:

- `Wrappers` (wrappers.dfy): `Option`.
- `RtMidi` (rtmidi.dfy): the driver reduced to abstract state. A `Driver`
  object holds the port names it reports now, the index of its open port and
  the list of messages handed to it. `Replug` lets the environment change the
  port list between calls, because QRtMidi polls `getPortCount` live.
  `ErrorType` is `RtMidiError::Type`; `Byte` is `unsigned char`.
- `Midi` (midi_device.dfy): the two sentinel labels and `Device`, whose
  constructor's default arguments give the unbound binding `Device()`.
- `QtMidi` (qrtmidi.dfy): the `QRtMidi` class, `MidiError`, and the pure
  functions that specify name resolution (`FirstIndexOf`) and device lists
  (`DeviceNames`), with lemmas about them.

Each driver pointer becomes a nullable `Driver?` field, chosen by the
constructor's `Option` arguments. The Qt signals become an append-only log,
`events`, of `InputClosed`, `InputOpened`, `OutputClosed` and `OutputOpened`.
The pointer-to-member arguments of the private `setDevice` overloads become a
`Direction` value. The selection methods are specified by two two-state
predicates. `SelectedIndex(dir, id)` is the effect of `setDevice(int, …)`.
`SelectedName(dir, name)` is `SelectedIndex` with the index that `FirstIndexOf`
resolves the name to. `Untouched()` says that nothing changed. The object
invariant `Valid()` says that the two drivers are different objects and that
each binding satisfies `IsBinding`: its id is at least -1, and id -1 comes
only with the sentinel label. `ExampleSession` is a client of these contracts.
It shows that after an out-of-range selection the port is closed but the
binding still names the old port, so re-selecting that index is ignored.

Behaviour of the code worth noting:

- An out-of-range selection closes the port and emits only "closed", but it
  does not reset the binding. The binding fields are written only inside the
  in-range branch (qrtmidi.cpp:116-121).
- The device list of a missing driver is empty, not the "not found" entry
  (qrtmidi.cpp:149-151).
- The sentinel texts are "No midi device selected" and "No midi device found"
  (qrtmidi.h:11-12).
- The binding invariant holds in one direction only. Id -1 implies the
  sentinel label (qrtmidi.h:18-21, with the only writes at
  qrtmidi.cpp:118-119), but a port that happens to be called "No midi device
  selected" can be bound with a non-negative id.

## Model

| member | source | states |
|---|---|---|
| `Midi.DefaultDeviceIsUnbound` | qrtmidi.h:11-21 | a default-constructed `Device` is `(-1, "No midi device selected")` and satisfies the binding invariant; the two sentinel labels differ |
| `QtMidi.MidiError` | qrtmidi.cpp:8-31 | every error type gets exactly one action, carrying the driver's text unchanged: WARNING logs a warning, DEBUG_WARNING logs at debug level, the five rejected-request types log critically, and exactly the four resource faults are fatal |
| `QtMidi.FirstIndexOf` | qrtmidi.cpp:134-141 | the resolved index is -1 exactly when no port has the name; otherwise it is a port with exactly that name and no earlier port has it |
| `QtMidi.FirstIndexOfUnique` | qrtmidi.cpp:134-141 | the lowest-match characterisation determines the resolved index uniquely |
| `QtMidi.DistinctNamesResolve` | qrtmidi.cpp:132-141 | with distinct port names, resolving the name of port k gives back k (name lookup inverts `getPortName`) |
| `QtMidi.DeviceNames` | qrtmidi.cpp:153-163 | with no ports the list is exactly `["No midi device found"]`; with N>0 ports it has N+1 entries, the unbound label first and then port i's name at position i+1 |
| `QtMidi.SingleEntryIffNoPorts` | qrtmidi.cpp:155-163 | a device list has one entry exactly when the driver reports no port, and that entry is then not the unbound label |
| `QtMidi.ListedNameResolves` | qrtmidi.cpp:132-141 | selecting by name any entry after the first of a device list resolves to a port with that name, at or before the entry's position minus one |
| `QtMidi.FirstEntryResolvesToNone` | qrtmidi.cpp:132-141 | selecting the first entry of a device list by name resolves to -1 exactly when no port bears that entry's label; a port labelled with it is found instead |
| `QtMidi.QRtMidi.constructor` | qrtmidi.cpp:39-59 | a handle is null exactly when its creation failed with an error that is not a resource fault (those end the process in `midiError`); otherwise it is a fresh driver with no open port and nothing sent; both bindings are `Device()`, nothing has been sent or signalled |
| `QtMidi.QRtMidi.GetInputDevice` | qrtmidi.h:38 | returns the recorded input binding, which satisfies the binding invariant; being a function it changes nothing |
| `QtMidi.QRtMidi.GetOutputDevice` | qrtmidi.h:39 | returns the recorded output binding, which satisfies the binding invariant; being a function it changes nothing |
| `QtMidi.QRtMidi.GetDeviceList` | qrtmidi.cpp:146-166 | the loop builds the empty list for a null handle and `DeviceNames` of the driver's current ports otherwise |
| `QtMidi.QRtMidi.GetInputDevices` | qrtmidi.h:40 | the list depends on the input driver only: empty when it is null, else `DeviceNames` of its ports |
| `QtMidi.QRtMidi.GetOutputDevices` | qrtmidi.h:41 | the list depends on the output driver only: empty when it is null, else `DeviceNames` of its ports |
| `QtMidi.QRtMidi.SetDevice` | qrtmidi.cpp:107-122 | null handle: nothing changes. Otherwise the port is closed and "closed" logged; an index in range then opens exactly that port, records `(id, portName(id))` and logs "opened"; an index out of range leaves the port closed and the binding as it was. The other direction and `m_lastSend` never change; the binding invariant is kept |
| `QtMidi.QRtMidi.ResolvePortName` | qrtmidi.cpp:132-141 | the search loop with `break` returns `FirstIndexOf` of the driver's current port names |
| `QtMidi.QRtMidi.SetDeviceByName` | qrtmidi.cpp:124-144 | null handle: nothing changes; otherwise exactly the effect of `SetDevice` with the resolved index, with no second equality check |
| `QtMidi.QRtMidi.SetInputDevice` | qrtmidi.cpp:73-78 | an id equal to the bound input id changes nothing at all; any other id has the effect of `SetDevice` on the input direction |
| `QtMidi.QRtMidi.SetInputDeviceByName` | qrtmidi.cpp:79-84 | a name equal to the bound input name changes nothing at all; any other name has the effect of `SetDeviceByName` on the input direction |
| `QtMidi.QRtMidi.SetOutputDevice` | qrtmidi.cpp:85-90 | an id equal to the bound output id changes nothing at all; any other id has the effect of `SetDevice` on the output direction |
| `QtMidi.QRtMidi.SetOutputDeviceByName` | qrtmidi.cpp:91-96 | a name equal to the bound output name changes nothing at all; any other name has the effect of `SetDeviceByName` on the output direction |
| `QtMidi.QRtMidi.Send` | qrtmidi.cpp:168-175 | null output handle: nothing changes; otherwise `m_lastSend` becomes the message and the driver's sent log grows by exactly that message; bindings, signals and the input driver never change |
| `QtMidi.QRtMidi.Send2` | qrtmidi.cpp:177-180 | as `Send` with the message `[status, command]` |
| `QtMidi.QRtMidi.Send3` | qrtmidi.cpp:182-185 | as `Send` with the message `[status, command, value]` |

## Left out

- `midiCallback` and `emitMidiMessage` (qrtmidi.cpp:33-37, 98-105): they run on the driver's callback thread and only pass the timestamp and the bytes, unchanged, to the `received` signal. Concurrency and the `double` timestamp are not modelled.
- The constructor's `try`/`catch`, `new`, the callback registration and the destructor (qrtmidi.cpp:39-71): the model's constructor takes which drivers exist instead of catching their construction errors, and memory is not modelled. A creation failure reported as MEMORY_ERROR, DRIVER_ERROR, SYSTEM_ERROR or THREAD_ERROR goes through `midiError` to `qFatal` and never yields a manager, so a `None` argument stands only for a failure of the other error types.
- `qFatal` process termination and the `midi` logging category: `MidiError` returns the action instead of logging or exiting.
- Qt machinery: `QObject`, signal emission through pointers to members, `tr()` (taken as the identity) and the `QString`/`std::string` conversions (taken as the identity).
- RtMidi internals: real port enumeration, opening and closing ports in the operating system, and transmitting bytes. The driver is modelled as abstract state, and what it does with a message sent while no port is open is its own concern.
- `m_lastSend` is handed to the driver by pointer; the model hands over its value, so aliasing between the buffer and the driver is not captured.
- Integer widths: ids are unbounded integers, so the C++ `int` range and the `static_cast<int>` of a port count above `INT_MAX` are not modelled.
