/**
 * Reshaping a parsed day-values response into per-device day values:
 * a result seeded from the active epoch's device directory, then filled from
 * the body date by date, device by device, channel by channel, failing on the
 * first nested level that has the wrong shape.
 */
module Decoder {
  import opened Wrappers
  import opened Errors
  import opened Devices
  import opened Request

  /** The decoder's result: device id -> that device's day values. */
  type DeviceValues = map<string, DayValues>

  // ---------------------------------------------------------------------------
  // Specification

  /** v is one of the readings of vm: its channel is a key of vm holding v's value. */
  ghost predicate IsReading(vm: map<string, Json>, v: Value)
  {
    ChannelOf(v) in vm && vm[ChannelOf(v)] == Str(ValueOf(v))
  }

  /** Every reading of dev under one date is a string, and a non-empty set of readings names a known device. */
  ghost predicate ChannelsOk(known: set<string>, dev: string, vm: map<string, Json>)
  {
    (forall c :: c in vm ==> vm[c].Str?) && (vm != map[] ==> dev in known)
  }

  /** Every device entry under one date is an object whose readings are acceptable. */
  ghost predicate DevicesOk(known: set<string>, dm: map<string, Json>)
  {
    forall dev :: dev in dm ==> dm[dev].Object? && ChannelsOk(known, dev, dm[dev].fields)
  }

  /** The body has the shape date -> device -> channel -> string at every level. */
  ghost predicate WellShaped(known: set<string>, body: map<string, Json>)
  {
    forall date :: date in body ==> body[date].Object? && DevicesOk(known, body[date].fields)
  }

  /** e is a failure the readings of dev under one date give rise to. */
  ghost predicate ChannelsFault(known: set<string>, dev: string, vm: map<string, Json>, e: Error)
  {
    || (e == NonStringValue && exists c :: c in vm && !vm[c].Str?)
    || (e == UnknownDevice && vm != map[] && dev !in known)
  }

  /** e is a failure the device map of one date gives rise to. */
  ghost predicate DevicesFault(known: set<string>, dm: map<string, Json>, e: Error)
  {
    || (e == InvalidValueMap && exists dev :: dev in dm && !dm[dev].Object?)
    || (exists dev :: dev in dm && dm[dev].Object? && ChannelsFault(known, dev, dm[dev].fields, e))
  }

  /** e is a failure some entry of the body gives rise to. */
  ghost predicate BodyFault(known: set<string>, body: map<string, Json>, e: Error)
  {
    || (e == InvalidDeviceMap && exists date :: date in body && !body[date].Object?)
    || (exists date :: date in body && body[date].Object? && DevicesFault(known, body[date].fields, e))
  }

  /** The body holds at least one reading of dev on date. */
  ghost predicate HasReadings(body: map<string, Json>, date: string, dev: string)
  {
    && date in body && body[date].Object?
    && dev in body[date].fields && body[date].fields[dev].Object?
    && body[date].fields[dev].fields != map[]
  }

  /**
   * out is a decoding of body against directory dir: exactly the directory's
   * devices, each with its own snapshot, and a reading on exactly the dates the
   * body has readings for that device, each one of those readings.
   */
  ghost predicate DecodedFrom(dir: map<string, Device>, body: map<string, Json>, out: DeviceValues)
  {
    && out.Keys == dir.Keys
    && (forall dev :: dev in out ==> out[dev].device == dir[dev])
    && (forall dev, date :: dev in out ==> (date in out[dev].values <==> HasReadings(body, date, dev)))
    && (forall dev, date :: dev in out && date in out[dev].values ==>
          HasReadings(body, date, dev) && IsReading(body[date].fields[dev].fields, out[dev].values[date]))
  }

  /**
   * out agrees with m except that each device of done with readings in dm, and
   * only those, has had one of them recorded under date.
   */
  ghost predicate RecordedFor(m: DeviceValues, out: DeviceValues, date: string, dm: map<string, Json>, done: set<string>)
  {
    && out.Keys == m.Keys
    && forall dev :: dev in m ==>
         && out[dev].device == m[dev].device
         && if dev in done && dev in dm && dm[dev].Object? && dm[dev].fields != map[] then
              && date in out[dev].values
              && IsReading(dm[dev].fields, out[dev].values[date])
              && out[dev].values == m[dev].values[date := out[dev].values[date]]
            else
              out[dev].values == m[dev].values
  }

  /** m is the decoding of the dates in done: DecodedFrom restricted to those dates. */
  ghost predicate Progress(dir: map<string, Device>, body: map<string, Json>, done: set<string>, m: DeviceValues)
  {
    && m.Keys == dir.Keys
    && (forall dev :: dev in m ==> m[dev].device == dir[dev])
    && (forall dev, date :: dev in m ==> (date in m[dev].values <==> date in done && HasReadings(body, date, dev)))
    && (forall dev, date :: dev in m && date in m[dev].values ==>
          HasReadings(body, date, dev) && IsReading(body[date].fields[dev].fields, m[dev].values[date]))
  }

  /** Recording one more date of the body extends the decoding by exactly that date. */
  lemma ProgressStep(dir: map<string, Device>, body: map<string, Json>, done: set<string>,
                     m: DeviceValues, date: string, m': DeviceValues)
    requires Progress(dir, body, done, m)
    requires date in body && date !in done && body[date].Object?
    requires RecordedFor(m, m', date, body[date].fields, body[date].fields.Keys)
    ensures Progress(dir, body, done + {date}, m')
  {
    forall dev | dev in m'
      ensures m'[dev].device == dir[dev]
      ensures forall d :: d in m'[dev].values <==> d in done + {date} && HasReadings(body, d, dev)
      ensures forall d :: d in m'[dev].values ==>
        HasReadings(body, d, dev) && IsReading(body[d].fields[dev].fields, m'[dev].values[d])
    {
      ProgressStepDevice(dir, body, done, m, date, m', dev);
    }
  }

  /** ProgressStep for one device of the result. */
  lemma ProgressStepDevice(dir: map<string, Device>, body: map<string, Json>, done: set<string>,
                           m: DeviceValues, date: string, m': DeviceValues, dev: string)
    requires Progress(dir, body, done, m)
    requires date in body && date !in done && body[date].Object?
    requires RecordedFor(m, m', date, body[date].fields, body[date].fields.Keys)
    requires dev in m'
    ensures m'[dev].device == dir[dev]
    ensures forall d :: d in m'[dev].values <==> d in done + {date} && HasReadings(body, d, dev)
    ensures forall d :: d in m'[dev].values ==>
      HasReadings(body, d, dev) && IsReading(body[d].fields[dev].fields, m'[dev].values[d])
  {
    var dm := body[date].fields;
    if dev in dm && dm[dev].Object? && dm[dev].fields != map[] {
      assert HasReadings(body, date, dev);
    } else {
      assert !HasReadings(body, date, dev);
    }
  }

  /** Recording the readings of one more device of dm extends RecordedFor by that device. */
  lemma RecordedStep(m: DeviceValues, out: DeviceValues, date: string, dm: map<string, Json>,
                     done: set<string>, dev: string, out': DeviceValues)
    requires RecordedFor(m, out, date, dm, done)
    requires dev in dm && dev !in done && dm[dev].Object?
    requires dm[dev].fields == map[] ==> out' == out
    requires dm[dev].fields != map[] ==>
      && dev in out && dev in out' && date in out'[dev].values
      && IsReading(dm[dev].fields, out'[dev].values[date])
      && out' == out[dev := out[dev].(values := out[dev].values[date := out'[dev].values[date]])]
    ensures RecordedFor(m, out', date, dm, done + {dev})
  {
    assert out'.Keys == m.Keys;
    forall d | d in m
      ensures out'[d].device == m[d].device
      ensures if d in done + {dev} && d in dm && dm[d].Object? && dm[d].fields != map[] then
                && date in out'[d].values
                && IsReading(dm[d].fields, out'[d].values[date])
                && out'[d].values == m[d].values[date := out'[d].values[date]]
              else
                out'[d].values == m[d].values
    {
      if d != dev || dm[dev].fields == map[] {
        assert out'[d] == out[d];
      } else {
        assert out[dev].values == m[dev].values;
      }
    }
  }

  /** With nothing recorded yet the seed map is a decoding of no dates. */
  lemma ProgressStart(dir: map<string, Device>, body: map<string, Json>, m: DeviceValues)
    requires m.Keys == dir.Keys
    requires forall id :: id in m ==> m[id] == DayValues(dir[id], map[])
    ensures Progress(dir, body, {}, m)
  {
  }

  // ---------------------------------------------------------------------------
  // Operations

  /** The initial result: one entry per directory device, its own snapshot and no readings. */
  method NewDeviceValueMap(dir: map<string, Device>) returns (m: DeviceValues)
    ensures m.Keys == dir.Keys
    ensures forall id :: id in m ==> m[id] == DayValues(dir[id], map[])
  {
    m := map[];
    var rest := dir.Keys;
    while rest != {}
      invariant rest <= dir.Keys
      invariant m.Keys == dir.Keys - rest
      invariant forall id :: id in m ==> m[id] == DayValues(dir[id], map[])
      decreases rest
    {
      var id :| id in rest;
      m := m[id := DayValues(dir[id], map[])];
      rest := rest - {id};
    }
  }

  /**
   * The innermost loop: every reading of dev under date is written to the same
   * slot, so one of them (whichever is visited last) remains.
   */
  method RecordChannels(m: DeviceValues, date: string, dev: string, vm: map<string, Json>)
    returns (r: Result<DeviceValues, Error>)
    ensures r.Success? <==> ChannelsOk(m.Keys, dev, vm)
    ensures r.Failure? ==> ChannelsFault(m.Keys, dev, vm, r.error)
    ensures r.Success? && vm == map[] ==> r.value == m
    ensures r.Success? && vm != map[] ==>
      && dev in r.value && date in r.value[dev].values
      && IsReading(vm, r.value[dev].values[date])
      && r.value == m[dev := m[dev].(values := m[dev].values[date := r.value[dev].values[date]])]
  {
    var out := m;
    var rest := vm.Keys;
    ghost var last: Value := NewValue("", "");
    while rest != {}
      invariant rest <= vm.Keys
      invariant forall c :: c in vm.Keys - rest ==> vm[c].Str?
      invariant vm.Keys - rest == {} ==> out == m
      invariant vm.Keys - rest != {} ==>
        && dev in m && IsReading(vm, last)
        && out == m[dev := m[dev].(values := m[dev].values[date := last])]
      decreases rest
    {
      var c :| c in rest;
      if !vm[c].Str? {
        return Failure(NonStringValue);
      }
      if dev !in out {
        return Failure(UnknownDevice);
      }
      var v := NewValue(c, vm[c].s);
      assert out[dev].values[date := v] == m[dev].values[date := v];
      out := out[dev := out[dev].(values := out[dev].values[date := v])];
      last := v;
      rest := rest - {c};
    }
    return Success(out);
  }

  /** The middle loop: the device map of one date, each entry of which must be an object. */
  method DecodeDevices(m: DeviceValues, date: string, dm: map<string, Json>)
    returns (r: Result<DeviceValues, Error>)
    ensures r.Success? <==> DevicesOk(m.Keys, dm)
    ensures r.Failure? ==> DevicesFault(m.Keys, dm, r.error)
    ensures r.Success? ==> RecordedFor(m, r.value, date, dm, dm.Keys)
  {
    var out := m;
    var rest := dm.Keys;
    while rest != {}
      invariant rest <= dm.Keys
      invariant forall dev :: dev in dm.Keys - rest ==> dm[dev].Object? && ChannelsOk(m.Keys, dev, dm[dev].fields)
      invariant RecordedFor(m, out, date, dm, dm.Keys - rest)
      decreases rest
    {
      var dev :| dev in rest;
      if !dm[dev].Object? {
        return Failure(InvalidValueMap);
      }
      var step := RecordChannels(out, date, dev, dm[dev].fields);
      if step.Failure? {
        return Failure(step.error);
      }
      RecordedStep(m, out, date, dm, dm.Keys - rest, dev, step.value);
      assert dm.Keys - (rest - {dev}) == (dm.Keys - rest) + {dev};
      out := step.value;
      rest := rest - {dev};
    }
    return Success(out);
  }

  /**
   * Decodes a response: seeds the result from the active epoch's directory and
   * records the body's readings; fails, returning no map, on the first entry of
   * the wrong shape, on a non-string reading and on a reading of an unknown device.
   */
  method DecodeDayValuesResponse(resp: DayValuesResponse) returns (r: Result<DeviceValues, Error>)
    ensures r.Success? <==> WellShaped(ActiveDirectory(resp).Keys, resp.readings)
    ensures r.Success? ==> DecodedFrom(ActiveDirectory(resp), resp.readings, r.value)
    ensures r.Failure? ==> BodyFault(ActiveDirectory(resp).Keys, resp.readings, r.error)
  {
    var dir := ActiveDirectory(resp);
    var body := resp.readings;
    var m := NewDeviceValueMap(dir);
    ProgressStart(dir, body, m);
    var rest := body.Keys;
    while rest != {}
      invariant rest <= body.Keys
      invariant forall date :: date in body.Keys - rest ==>
        body[date].Object? && DevicesOk(dir.Keys, body[date].fields)
      invariant Progress(dir, body, body.Keys - rest, m)
      decreases rest
    {
      var date :| date in rest;
      if !body[date].Object? {
        return Failure(InvalidDeviceMap);
      }
      var step := DecodeDevices(m, date, body[date].fields);
      if step.Failure? {
        return Failure(step.error);
      }
      ProgressStep(dir, body, body.Keys - rest, m, date, step.value);
      assert body.Keys - rest + {date} == body.Keys - (rest - {date});
      m := step.value;
      rest := rest - {date};
    }
    return Success(m);
  }

  // ---------------------------------------------------------------------------
  // Properties of a decoding

  /** An empty body leaves every device of the directory without readings. */
  lemma EmptyBodyNoReadings(dir: map<string, Device>, out: DeviceValues)
    requires DecodedFrom(dir, map[], out)
    ensures WellShaped(dir.Keys, map[])
    ensures out.Keys == dir.Keys
    ensures forall dev :: dev in out ==> out[dev] == DayValues(dir[dev], map[])
  {
    forall dev | dev in out
      ensures out[dev] == DayValues(dir[dev], map[])
    {
      assert forall date :: date !in out[dev].values by {
        forall date ensures date !in out[dev].values {
          assert !HasReadings(map[], date, dev);
        }
      }
      assert out[dev].values == map[];
    }
  }

  /** An absent active epoch gives an empty result. */
  lemma MissingEpochEmptyResult(resp: DayValuesResponse, out: DeviceValues)
    requires resp.epoch !in resp.epochDevices
    requires DecodedFrom(ActiveDirectory(resp), resp.readings, out)
    ensures out == map[]
  {
    assert out.Keys == {};
  }

  /** Under one date, every device has at most one channel reading. */
  ghost predicate SingleChannels(body: map<string, Json>)
  {
    forall date, dev :: HasReadings(body, date, dev) ==> |body[date].fields[dev].fields| == 1
  }

  /**
   * Two decodings of the same response agree on devices, snapshots and dates;
   * where each date/device has a single channel they are equal.
   */
  lemma DecodingsAgree(dir: map<string, Device>, body: map<string, Json>, a: DeviceValues, b: DeviceValues)
    requires DecodedFrom(dir, body, a) && DecodedFrom(dir, body, b)
    ensures a.Keys == b.Keys
    ensures forall dev :: dev in a ==> a[dev].device == b[dev].device && a[dev].values.Keys == b[dev].values.Keys
    ensures SingleChannels(body) ==> a == b
  {
    if SingleChannels(body) {
      forall dev | dev in a
        ensures a[dev] == b[dev]
      {
        forall date | date in a[dev].values
          ensures a[dev].values[date] == b[dev].values[date]
        {
          var vm := body[date].fields[dev].fields;
          SingleKey(vm, ChannelOf(a[dev].values[date]), ChannelOf(b[dev].values[date]));
          ValueExtensional(a[dev].values[date], b[dev].values[date]);
        }
      }
    }
  }

  lemma SingleKey(vm: map<string, Json>, x: string, y: string)
    requires |vm| == 1 && x in vm && y in vm
    ensures x == y
  {
    assert |vm.Keys| == 1;
    assert |vm.Keys - {x}| == 0;
    assert vm.Keys - {x} == {};
    assert y !in vm.Keys - {x};
  }

  /**
   * With two channels under one date a decoding is not determined by the
   * response: either channel may be the one recorded.
   */
  lemma TwoChannelsTwoDecodings()
    ensures
      var dev := Device("", [], "", "", "", "101", "", map[]);
      var dir := map["101" := dev];
      var body := map["2021-09-20" := Object(map["101" := Object(map["1" := Str("12.5"), "2" := Str("3")])])];
      var a := map["101" := DayValues(dev, map["2021-09-20" := NewValue("1", "12.5")])];
      var b := map["101" := DayValues(dev, map["2021-09-20" := NewValue("2", "3")])];
      DecodedFrom(dir, body, a) && DecodedFrom(dir, body, b) && a != b
  {
    var dev := Device("", [], "", "", "", "101", "", map[]);
    var body := map["2021-09-20" := Object(map["101" := Object(map["1" := Str("12.5"), "2" := Str("3")])])];
    var a := map["101" := DayValues(dev, map["2021-09-20" := NewValue("1", "12.5")])];
    var b := map["101" := DayValues(dev, map["2021-09-20" := NewValue("2", "3")])];
    assert ChannelOf(a["101"].values["2021-09-20"]) != ChannelOf(b["101"].values["2021-09-20"]);
    assert "1" in body["2021-09-20"].fields["101"].fields;
    assert HasReadings(body, "2021-09-20", "101");
  }

  /**
   * A one-device example response: epoch "1" with device "101" whose channel "1"
   * measures "Total" in "kWh", and one reading "12.5" on 2021-09-20.
   */
  lemma ExampleDecoding(out: DeviceValues)
    requires
      var total := Channel(1, 0, "", 0, 0, "kWh", "Total");
      var dev := Device("", [], "", "", "", "101", "", map["1" := total]);
      var resp := DayValuesResponse("1", map["1" := map["101" := dev]],
                    map["2021-09-20" := Object(map["101" := Object(map["1" := Str("12.5")])])]);
      DecodedFrom(ActiveDirectory(resp), resp.readings, out)
    ensures
      var total := Channel(1, 0, "", 0, 0, "kWh", "Total");
      var dev := Device("", [], "", "", "", "101", "", map["1" := total]);
      var resp := DayValuesResponse("1", map["1" := map["101" := dev]],
                    map["2021-09-20" := Object(map["101" := Object(map["1" := Str("12.5")])])]);
      WellShaped(ActiveDirectory(resp).Keys, resp.readings)
    ensures out.Keys == {"101"}
    ensures out["101"].values == map["2021-09-20" := NewValue("1", "12.5")]
    ensures out["101"].LookupChannel("1") == (Channel(1, 0, "", 0, 0, "kWh", "Total"), true)
  {
    var body := map["2021-09-20" := Object(map["101" := Object(map["1" := Str("12.5")])])];
    var vs := out["101"].values;
    assert "1" in body["2021-09-20"].fields["101"].fields;
    assert HasReadings(body, "2021-09-20", "101");
    forall date ensures date in vs <==> date == "2021-09-20" {
      if date != "2021-09-20" { assert !HasReadings(body, date, "101"); }
    }
    var v := vs["2021-09-20"];
    assert ChannelOf(v) == "1" && ValueOf(v) == "12.5";
    ValueIsItsPair(v);
    assert vs == map["2021-09-20" := NewValue("1", "12.5")];
  }
}
