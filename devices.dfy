/** The domain types: devices, their channel metadata, readings and per-device day values. */
module Devices {

  /** Metadata of one measurable quantity on a device. */
  datatype Channel = Channel(
    channel: int,
    position: int,
    baseName: string,
    baseChannel: int,
    subChannel: int,
    unit: string,
    description: string)

  /** The zero Channel: every number 0 and every string empty. */
  const ZeroChannel := Channel(0, 0, "", 0, 0, "", "")

  /** A peripheral of the data logger that reports metrics, with its channels by identifier. */
  datatype Device = Device(
    serialNumber: string,
    classes: seq<string>,
    kind: string,          // the "type" attribute of the device
    model: string,
    name: string,
    id: string,
    uid: string,
    channels: map<string, Channel>)
  {
    /**
     * The channel with identifier c and whether it exists on this device; the
     * zero Channel when it does not.
     */
    function LookupChannel(c: string): (r: (Channel, bool))
      ensures r.1 <==> c in channels
      ensures r.1 ==> r.0 == channels[c]
      ensures !r.1 ==> r.0 == ZeroChannel
    {
      if c in channels then (channels[c], true) else (ZeroChannel, false)
    }
  }

  /** A reading: a (channel identifier, value) pair of strings, indexed 0 and 1. */
  type Value = s: seq<string> | |s| == 2 witness ["", ""]

  function NewValue(channel: string, value: string): (v: Value)
  {
    [channel, value]
  }

  /** The channel element of a reading. */
  function ChannelOf(v: Value): string { v[0] }

  /** The value element of a reading. */
  function ValueOf(v: Value): string { v[1] }

  /** The accessors give back what the pair was built from. */
  lemma ValueAccessors(channel: string, value: string)
    ensures ChannelOf(NewValue(channel, value)) == channel
    ensures ValueOf(NewValue(channel, value)) == value
  {
  }

  /** A reading is exactly its two accessors: building from them gives it back. */
  lemma ValueIsItsPair(v: Value)
    ensures NewValue(ChannelOf(v), ValueOf(v)) == v
  {
    assert NewValue(v[0], v[1])[0] == v[0];
    assert NewValue(v[0], v[1])[1] == v[1];
  }

  /** Readings with the same channel and value are equal. */
  lemma ValueExtensional(a: Value, b: Value)
    requires ChannelOf(a) == ChannelOf(b) && ValueOf(a) == ValueOf(b)
    ensures a == b
  {
    ValueIsItsPair(a);
    ValueIsItsPair(b);
  }

  /** One device's snapshot and its readings by date ("YYYY-MM-DD"). */
  datatype DayValues = DayValues(device: Device, values: map<string, Value>)
  {
    /** Channel lookup promoted from the embedded device. */
    function LookupChannel(c: string): (r: (Channel, bool))
      ensures r == device.LookupChannel(c)
      ensures r.1 <==> c in device.channels
    {
      device.LookupChannel(c)
    }
  }
}
