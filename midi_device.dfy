/** The `MIDI` namespace of qrtmidi.h: a device binding and the two sentinel labels. */
module Midi {

  /** The label of the unbound binding and of the first entry of a device list. */
  const NoDeviceSelected: string := "No midi device selected"

  /** The only entry of the device list of a driver that reports no port. */
  const NoDeviceFound: string := "No midi device found"

  /**
   * `MIDI::Device`: the port a direction is bound to and its label. The
   * constructor's default arguments give the unbound binding, `Device()`.
   */
  datatype Device = Device(id: int := -1, name: string := NoDeviceSelected)

  /**
   * What every binding the manager records satisfies: -1 is the lowest id,
   * and a binding with id -1 is the unbound one, labelled with the sentinel.
   */
  predicate IsBinding(d: Device) {
    d.id >= -1 && (d.id == -1 ==> d.name == NoDeviceSelected)
  }

  /** The default binding is the unbound one, and the two sentinels can be told apart. */
  lemma DefaultDeviceIsUnbound()
    ensures Device() == Device(-1, NoDeviceSelected)
    ensures IsBinding(Device())
    ensures NoDeviceSelected != NoDeviceFound
  {
  }
}
