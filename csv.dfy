/**
 * The CSV export command: after a successful fetch, a header row and then one
 * six-field row per (device, date) reading, with the reading's channel metadata
 * looked up on the device.
 */
module CsvOutput {
  import opened Wrappers
  import opened Errors
  import opened Devices
  import opened Decoder

  type Row = seq<string>

  const Header: Row := ["date", "type", "channel", "description", "unit", "value"]

  /**
   * The row of dv's reading on date: date, device type, channel, the channel's
   * description and unit (empty when the device does not list the channel), value.
   */
  function RowFor(dv: DayValues, date: string): (row: Row)
    requires date in dv.values
    ensures |row| == 6
    ensures row[0] == date && row[1] == dv.device.kind
    ensures row[2] == ChannelOf(dv.values[date]) && row[5] == ValueOf(dv.values[date])
    ensures ChannelOf(dv.values[date]) in dv.device.channels ==>
      row[3] == dv.device.channels[ChannelOf(dv.values[date])].description
      && row[4] == dv.device.channels[ChannelOf(dv.values[date])].unit
    ensures ChannelOf(dv.values[date]) !in dv.device.channels ==> row[3] == "" && row[4] == ""
  {
    var va := dv.values[date];
    var (c, _) := dv.LookupChannel(ChannelOf(va));
    [date, dv.device.kind, ChannelOf(va), c.description, c.unit, ValueOf(va)]
  }

  /** e names a reading of values: a device and one of its dates. */
  ghost predicate IsEntry(values: DeviceValues, e: (string, string))
  {
    e.0 in values && e.1 in values[e.0].values
  }

  /** The row of entry e of values, and no fields when e is not a reading of values. */
  ghost function EntryRow(values: DeviceValues, e: (string, string)): Row
  {
    if IsEntry(values, e) then RowFor(values[e.0], e.1) else []
  }

  /** The rows of the entries in order, one per entry. */
  ghost function RowsOf(values: DeviceValues, order: seq<(string, string)>): (rows: seq<Row>)
    ensures |rows| == |order|
  {
    if order == [] then []
    else RowsOf(values, order[..|order| - 1]) + [EntryRow(values, order[|order| - 1])]
  }

  /** Appending an entry appends its row. */
  lemma RowsOfSnoc(values: DeviceValues, order: seq<(string, string)>, e: (string, string))
    ensures RowsOf(values, order + [e]) == RowsOf(values, order) + [EntryRow(values, e)]
  {
    assert (order + [e])[..|order|] == order;
  }

  /** The rows of two runs of entries, one after the other. */
  lemma {:induction false} RowsOfAppend(values: DeviceValues, a: seq<(string, string)>, b: seq<(string, string)>)
    ensures RowsOf(values, a + b) == RowsOf(values, a) + RowsOf(values, b)
    decreases |b|
  {
    if b == [] {
      assert a + b == a;
    } else {
      var b' := b[..|b| - 1];
      RowsOfAppend(values, a, b');
      assert (a + b)[..|a + b| - 1] == a + b';
    }
  }

  /** The i-th row is the row of the i-th entry. */
  lemma {:induction false} RowsOfAt(values: DeviceValues, order: seq<(string, string)>, i: nat)
    requires i < |order| && IsEntry(values, order[i])
    ensures RowsOf(values, order)[i] == RowFor(values[order[i].0], order[i].1)
  {
    if i < |order| - 1 {
      RowsOfAt(values, order[..|order| - 1], i);
    }
  }

  /** Writing the row of entry e after the rows of added gives the rows of added + [e]. */
  lemma WrittenStep(values: DeviceValues, start: seq<Row>, before: seq<Row>, after: seq<Row>,
                    added: seq<(string, string)>, e: (string, string))
    requires IsEntry(values, e)
    requires before == start + RowsOf(values, added)
    requires after == before + [RowFor(values[e.0], e.1)]
    ensures after == start + RowsOf(values, added + [e])
  {
    RowsOfSnoc(values, added, e);
  }

  /** Writing the rows of a run of entries after the rows of order gives the rows of order + added. */
  lemma WrittenRun(values: DeviceValues, start: seq<Row>, before: seq<Row>, after: seq<Row>,
                   order: seq<(string, string)>, added: seq<(string, string)>)
    requires before == start + RowsOf(values, order)
    requires after == before + RowsOf(values, added)
    ensures after == start + RowsOf(values, order + added)
  {
    RowsOfAppend(values, order, added);
    assert (start + RowsOf(values, order)) + RowsOf(values, added)
        == start + (RowsOf(values, order) + RowsOf(values, added));
  }

  /** The number of readings of the devices in devs: the sum of their Values sizes. */
  ghost function EntryCount(values: DeviceValues, devs: set<string>): nat
    requires devs <= values.Keys
  {
    if devs == {} then 0
    else
      var d :| d in devs;
      |values[d].values| + EntryCount(values, devs - {d})
  }

  /** The sum does not depend on which device is taken out first. */
  lemma {:induction false} EntryCountRemove(values: DeviceValues, devs: set<string>, d: string)
    requires devs <= values.Keys && d in devs
    ensures EntryCount(values, devs) == |values[d].values| + EntryCount(values, devs - {d})
    decreases |devs|
  {
    var x :| x in devs && EntryCount(values, devs) == |values[x].values| + EntryCount(values, devs - {x});
    if x != d {
      EntryCountRemove(values, devs - {x}, d);
      EntryCountRemove(values, devs - {d}, x);
      assert devs - {x} - {d} == devs - {d} - {x};
    }
  }

  /** The output stream of the command, as the sequence of rows written so far. */
  class Writer {
    var rows: seq<Row>

    constructor ()
      ensures rows == []
    {
      rows := [];
    }

    method Write(record: Row)
      modifies this
      ensures rows == old(rows) + [record]
    {
      rows := rows + [record];
    }
  }

  /**
   * after is before followed by the header and one row per reading of values,
   * in the visiting order order, which lists every reading exactly once.
   */
  ghost predicate RowsWritten(values: DeviceValues, before: seq<Row>, after: seq<Row>, order: seq<(string, string)>)
  {
    && (forall i :: 0 <= i < |order| ==> IsEntry(values, order[i]))
    && after == before + [Header] + RowsOf(values, order)
    && (forall i, j :: 0 <= i < j < |order| ==> order[i] != order[j])
    && (forall e :: IsEntry(values, e) ==> e in order)
    && |order| == EntryCount(values, values.Keys)
  }

  /** added holds (id, date) exactly once for each date of done, in some order. */
  ghost predicate DeviceEntries(id: string, added: seq<(string, string)>, done: set<string>)
  {
    && |added| == |done|
    && (forall i :: 0 <= i < |added| ==> added[i].0 == id && added[i].1 in done)
    && (forall i, j :: 0 <= i < j < |added| ==> added[i].1 != added[j].1)
    && (forall date :: date in done ==> (id, date) in added)
  }

  /** ds lists every element of s exactly once. */
  ghost predicate Enumerates(ds: seq<string>, s: set<string>)
  {
    && |ds| == |s|
    && (forall i :: 0 <= i < |ds| ==> ds[i] in s)
    && (forall i, j :: 0 <= i < j < |ds| ==> ds[i] != ds[j])
    && (forall x :: x in s ==> x in ds)
  }

  /** Listing one more element extends an enumeration. */
  lemma EnumeratesStep(ds: seq<string>, s: set<string>, x: string)
    requires Enumerates(ds, s) && x !in s
    ensures Enumerates(ds + [x], s + {x})
  {
    var e := ds + [x];
    forall y | y in s + {x} ensures y in e {
      if y != x {
        var k :| 0 <= k < |ds| && ds[k] == y;
        assert e[k] == y;
      } else {
        assert e[|ds|] == x;
      }
    }
  }

  /** The entries of device id for the dates ds, in the same order. */
  ghost function Entries(id: string, ds: seq<string>): (added: seq<(string, string)>)
    ensures |added| == |ds|
    ensures forall i :: 0 <= i < |ds| ==> added[i] == (id, ds[i])
  {
    seq(|ds|, i requires 0 <= i < |ds| => (id, ds[i]))
  }

  lemma EntriesSnoc(id: string, ds: seq<string>, date: string)
    ensures Entries(id, ds + [date]) == Entries(id, ds) + [(id, date)]
  {
    assert Entries(id, ds + [date])[|ds|] == (id, date);
  }

  /** The entries of an enumeration of the dates of id are the entries of id, once each. */
  lemma EnumeratedEntries(id: string, ds: seq<string>, s: set<string>)
    requires Enumerates(ds, s)
    ensures DeviceEntries(id, Entries(id, ds), s)
  {
    var added := Entries(id, ds);
    forall date | date in s ensures (id, date) in added {
      var k :| 0 <= k < |ds| && ds[k] == date;
      assert added[k] == (id, date);
    }
  }

  /**
   * The state of the inner loop: rows is start followed by the rows of device
   * id on the dates ds, which lists the dates of done once each; dates are the
   * ones still to visit.
   */
  ghost predicate DeviceProgress(values: DeviceValues, id: string, start: seq<Row>, rows: seq<Row>,
                                 dates: set<string>, done: set<string>, ds: seq<string>)
  {
    && id in values
    && dates <= values[id].values.Keys && done <= values[id].values.Keys && dates !! done
    && (forall x :: x in values[id].values ==> x in dates || x in done)
    && Enumerates(ds, done)
    && rows == start + RowsOf(values, Entries(id, ds))
  }

  /** Writing the row of one more date extends the state of the inner loop. */
  lemma DeviceProgressStep(values: DeviceValues, id: string, start: seq<Row>, rows: seq<Row>,
                           dates: set<string>, done: set<string>, ds: seq<string>,
                           date: string, rows': seq<Row>)
    requires DeviceProgress(values, id, start, rows, dates, done, ds)
    requires date in dates && rows' == rows + [RowFor(values[id], date)]
    ensures DeviceProgress(values, id, start, rows', dates - {date}, done + {date}, ds + [date])
  {
    EnumeratesStep(ds, done, date);
    WrittenStep(values, start, rows, rows', Entries(id, ds), (id, date));
    EntriesSnoc(id, ds, date);
  }

  /**
   * The inner loop of the command: one row per date of the device id, in the
   * order ds in which the dates are visited.
   */
  method WriteDeviceRows(values: DeviceValues, id: string, w: Writer)
    returns (ghost ds: seq<string>)
    requires id in values
    modifies w
    ensures Enumerates(ds, values[id].values.Keys)
    ensures w.rows == old(w.rows) + RowsOf(values, Entries(id, ds))
  {
    var v := values[id];
    ds := [];
    var dates := v.values.Keys;
    ghost var done: set<string> := {};
    ghost var start := w.rows;
    while dates != {}
      invariant DeviceProgress(values, id, start, w.rows, dates, done, ds)
      decreases dates
    {
      var date :| date in dates;
      ghost var before := w.rows;
      w.Write(RowFor(v, date));
      DeviceProgressStep(values, id, start, before, dates, done, ds, date, w.rows);
      ds := ds + [date];
      dates := dates - {date};
      done := done + {date};
    }
    assert done == values[id].values.Keys;
  }

  /**
   * The state of the device loop: order lists, once each, every reading of the
   * devices already visited (those outside devs).
   */
  ghost predicate RunProgress(values: DeviceValues, devs: set<string>, order: seq<(string, string)>)
  {
    && devs <= values.Keys
    && (forall i :: 0 <= i < |order| ==> IsEntry(values, order[i]) && order[i].0 !in devs)
    && (forall i, j :: 0 <= i < j < |order| ==> order[i] != order[j])
    && (forall e :: IsEntry(values, e) && e.0 !in devs ==> e in order)
    && |order| == EntryCount(values, values.Keys - devs)
  }

  /** Visiting the readings of one more device extends the state of the device loop. */
  lemma RunProgressStep(values: DeviceValues, devs: set<string>, order: seq<(string, string)>,
                        id: string, added: seq<(string, string)>)
    requires RunProgress(values, devs, order) && id in devs
    requires DeviceEntries(id, added, values[id].values.Keys)
    ensures RunProgress(values, devs - {id}, order + added)
  {
    var o := order + added;
    forall i | 0 <= i < |o| ensures IsEntry(values, o[i]) && o[i].0 !in devs - {id} {
      if i >= |order| { assert o[i] == added[i - |order|]; }
    }
    forall i, j | 0 <= i < j < |o| ensures o[i] != o[j] {
      if j >= |order| && i < |order| {
        assert o[j].0 == id;
      } else if i >= |order| {
        assert o[i] == added[i - |order|] && o[j] == added[j - |order|];
      }
    }
    forall e | IsEntry(values, e) && e.0 !in devs - {id} ensures e in o {
      if e.0 == id {
        var k :| 0 <= k < |added| && added[k] == e;
        assert o[|order| + k] == e;
      } else {
        var k :| 0 <= k < |order| && order[k] == e;
        assert o[k] == e;
      }
    }
    assert |values[id].values.Keys| == |values[id].values|;
    EntryCountRemove(values, values.Keys - (devs - {id}), id);
    assert values.Keys - (devs - {id}) - {id} == values.Keys - devs;
  }

  /**
   * The body of the command once the values are fetched: a failed fetch is
   * returned with nothing written; otherwise the header and the reading rows.
   */
  method Run(fetched: Result<DeviceValues, Error>, w: Writer) returns (err: Option<Error>, ghost order: seq<(string, string)>)
    modifies w
    ensures fetched.Failure? ==> err == Some(fetched.error) && w.rows == old(w.rows)
    ensures fetched.Success? ==> err == None && RowsWritten(fetched.value, old(w.rows), w.rows, order)
  {
    order := [];
    if fetched.Failure? {
      return Some(fetched.error), order;
    }
    err := None;
    var values := fetched.value;
    ghost var base := w.rows + [Header];
    w.Write(Header);
    var devs := values.Keys;
    assert values.Keys - devs == {};
    while devs != {}
      invariant RunProgress(values, devs, order)
      invariant w.rows == base + RowsOf(values, order)
      decreases devs
    {
      var id :| id in devs;
      ghost var before := w.rows;
      ghost var ds := WriteDeviceRows(values, id, w);
      ghost var added := Entries(id, ds);
      EnumeratedEntries(id, ds, values[id].values.Keys);
      WrittenRun(values, base, before, w.rows, order, added);
      RunProgressStep(values, devs, order, id, added);
      order := order + added;
      devs := devs - {id};
    }
    assert values.Keys - devs == values.Keys;
  }
}
