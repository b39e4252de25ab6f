/** The parsed API response, before it is reshaped into day values. */
module Request {
  import opened Devices

  /**
   * A generically decoded JSON value: an object, a string, or anything else
   * (number, boolean, array, null), which no level of the body may be.
   */
  datatype Json = Object(fields: map<string, Json>) | Str(s: string) | Other

  /**
   * The response: the active epoch, a device directory per epoch
   * (epoch -> device id -> Device), and the body (date -> device id -> channel id -> value).
   */
  datatype DayValuesResponse = DayValuesResponse(
    epoch: string,
    epochDevices: map<string, map<string, Device>>,
    readings: map<string, Json>)

  /** The active epoch's device directory; an absent epoch reads as an empty directory. */
  function ActiveDirectory(resp: DayValuesResponse): (dir: map<string, Device>)
    ensures resp.epoch in resp.epochDevices ==> dir == resp.epochDevices[resp.epoch]
    ensures resp.epoch !in resp.epochDevices ==> dir == map[]
  {
    if resp.epoch in resp.epochDevices then resp.epochDevices[resp.epoch] else map[]
  }
}
