# solarlog — a Dafny model of the Solarlog day-values client

The Go package `solarlog` is a client for a solar-monitoring vendor's web API,
plus a command, `csv-output`, that prints the current day's readings as CSV.
This project models the package's core in Dafny and proves properties of that model:

- **Client construction.** `NewClient` applies options (`WithDoer`) to a client that holds credentials and a data-logger id.
- **Range check.** An explicit `DayValues` call fails before any request when `from` is after `to`, or when either end is the zero time.
- **Query.** Seven parameters: username, password, format `json`, function `getDayValues`, the logger id in decimal, and both dates in the `2006-01-02` layout.
- **Response gate (`do`).** The vendor answers HTTP 200 even when the call failed, and marks failure only by a body that starts with `ERR`. So the first three bytes are peeked, without consuming them, before the status code is examined. The decoder then receives the whole, still-buffered body.
- **Decoder.** `decodeDayValuesResponse` seeds one entry per device of the active epoch's directory. It then walks the body date → device → channel → string. It fails on the first level with the wrong shape and stores one reading per (device, date).
- **Devices.** The channel lookup on a device, and the two-string reading `Value`.
- **CSV rows.** The `csv-output` row loop writes a header, then one six-field row per (device, date) reading: date, device type, channel, channel description, channel unit, value.

Modules:

| module | file | contents |
|---|---|---|
| `Wrappers` | wrappers.dfy | `Option`, `Result` |
| `Errors` | errors.dfy | `byte`, the error kinds of the client |
| `Decimal` | decimal.dfy | `strconv.Itoa`-style rendering and its inverse |
| `Dates` | dates.dfy | calendar dates, `After`, the zero date, the `2006-01-02` layout |
| `Devices` | devices.dfy | `Device`, `Channel`, `Value`, `DayValues` |
| `Request` | request.dfy | the parsed API response, a generic JSON tree |
| `Decoder` | decoder.dfy | `newDeviceValueMap`, `decodeDayValuesResponse` and the specification of a decoding |
| `Gate` | gate.dfy | `do`: the buffered reader, peek, the marker and status checks |
| `Client` | client.dfy | `NewClient`, `DayValues`, `CurrentDayValues`, the query, the request pipeline |
| `CsvOutput` | csv.dfy | the row loop of `csv-output` over a row-collecting writer |

Modelling decisions:

- **Map iteration order.** Go visits map keys in an unspecified order. Every loop over a map picks its next key with `:|` from the keys not yet visited, so the proofs hold for every visiting order.
  - Under one date, a device with several channels has every channel written to the same slot. The reading that remains is whichever channel came last. The decoder's specification (`IsReading`) therefore says only that the stored reading is *one of* that device's readings on that date.
  - The CSV rows come out in some order. `Run` returns that order as a ghost sequence and states that it lists every reading exactly once.
- **Go panics become errors.** A channel value that is not a JSON string fails the type assertion `value.(string)`. A non-empty channel map for a device the directory does not list writes into the nil `Values` map of a zero `DayValues`. Both are panics in Go; here they are the errors `NonStringValue` and `UnknownDevice`. When both causes are present, either error may be reported, as in Go, where the iteration order decides which happens first.
- **Missing active epoch.** `resp.Header.EpochDevices[resp.Header.Epoch]` yields a nil map when the epoch is absent. The code then starts from an empty directory rather than failing. For a body that is well shaped apart from the directory, the result is the empty map when every channel map is empty; otherwise decoding fails (with `UnknownDevice` when every reading is a string). A stricter client would fail on a missing epoch; the model, like the code, does not.
- **External services as parameters.** The HTTP transport enters `Fetch` as a function `(doer, query) -> Exchange`: failure, or a status and body bytes. `None` as doer stands for `http.DefaultClient`. The JSON decoder enters as `bytes -> Option<DayValuesResponse>`. A ghost out-parameter `sent` records the queries handed to the transport; the method sets it beside the transport call, so it is bookkeeping. What "nothing is sent on a rejected range" means in substance is that the result of `DayValues` is then `Failure(InvalidArgument)` whatever the transport and the parser are: `r` does not depend on `transport`.
- **Clock.** Today's date is a parameter of `CurrentDayValues`. As in the code, `CurrentDayValues` does not apply the range check.
- **Dates.** A `time.Time` is a (year, month, day) triple. `Date` also admits triples such as 2021-02-31 that no `time.Time` holds, because `time.Date` normalizes them; the proved properties hold on this larger domain. The zero time is January 1 of year 1. `After` is the lexicographic order. Formatting follows Go's layout rendering: the year is zero-padded to four digits and keeps its sign; month and day are padded to two.

## Model

| member | source | states |
|---|---|---|
| Devices.Device.LookupChannel | device.go:15-20 | the channel is found exactly when c is a key of the device's channels; found gives that channel, not found gives the zero Channel |
| Devices.DayValues.LookupChannel | device.go:46-53 | the lookup promoted from the embedded device: the same answer as the device's lookup, found exactly when the device lists c |
| Devices.NewValue | client.go:114 | the `Value{channel, value}` literal: the pair of the channel identifier and the value string; `ValueAccessors` and `ValueIsItsPair` state that it and the accessors are inverse |
| Devices.ChannelOf | device.go:36-39 | `Value.Channel()`: element 0 of the pair; `ValueAccessors` proves it gives back the channel a Value was built from |
| Devices.ValueOf | device.go:41-44 | `Value.Value()`: element 1 of the pair; `ValueAccessors` proves it gives back the value a Value was built from |
| Devices.ValueAccessors | device.go:33-44 | Channel() and Value() of a pair built from (channel, value) give back channel and value |
| Devices.ValueIsItsPair | device.go:33-44 | a Value is the pair of its Channel() and Value() |
| Devices.ValueExtensional | device.go:33-44 | two Values with the same channel and value are equal |
| Request.ActiveDirectory | client.go:101 | the directory of the header's epoch when present, an empty directory when the epoch is absent |
| Decoder.NewDeviceValueMap | client.go:122-133 | one entry per directory id, holding that id's device and no readings, and no other entries |
| Decoder.RecordChannels | client.go:113-115 | succeeds exactly when every channel value is a string and a non-empty channel map belongs to a known device; on success, only dev's slot for date changes, and it holds one of the channel readings; an empty channel map changes nothing; on failure, the error names a non-string value or an unknown device that is present |
| Decoder.DecodeDevices | client.go:108-116 | succeeds exactly when every device entry of the date is an object with acceptable readings; on success, each device with readings under the date, and only those, gains one of them for that date, and nothing else changes; on failure, the error names an offending entry |
| Decoder.DecodeDayValuesResponse | client.go:100-120 | succeeds exactly when the body is date → device → channel → string throughout and only known devices have readings; the result then has exactly the directory's devices with their own snapshots, and a reading on exactly the dates with readings for that device, each one of the body's readings; on failure it returns only an error, one that a present entry explains |
| Decoder.EmptyBodyNoReadings | client.go:100-133 | an empty body is well shaped, so decoding it succeeds, and it decodes to the seeded map: every directory device with no readings |
| Decoder.MissingEpochEmptyResult | client.go:101 | when the active epoch is not in the directory table, a successful decoding is the empty map |
| Decoder.DecodingsAgree | client.go:103-117 | any two decodings of one response have the same devices, snapshots and dates; they are equal when no date/device has more than one channel |
| Decoder.TwoChannelsTwoDecodings | client.go:113-115 | a device with two channels under one date admits two different decodings, one per channel |
| Decoder.ExampleDecoding | client.go:100-120 | a one-device example response (epoch "1", device "101", channel "1" in kWh named Total, reading "12.5" on 2021-09-20) is well shaped, so decoding it succeeds, and it decodes to exactly that reading, and the channel metadata is reachable from the result |
| Gate.Classify | client.go:151-173 | the gate's decision as a function of status and body, in the code's order of checks: a body shorter than three bytes fails the peek, then a body starting with "ERR" fails carrying the whole body, then a status other than 200 fails with that status, and otherwise the whole body goes on to the JSON decoder; its consequences are proved by the Gate lemmas below, and `Gate.Do` is proved to compute it |
| Gate.MarkerWinsOverStatus | client.go:157-163 | a body starting with "ERR" fails with the whole body, marker included, whatever the status |
| Gate.ShortBodyFails | client.go:151-155 | a body shorter than three bytes fails the peek, even with status 200 |
| Gate.NonOkStatusFails | client.go:165-167 | without the marker, any status other than 200 fails with that status |
| Gate.AcceptedExactly | client.go:148-177 | the JSON decoder is reached exactly for status 200 with a body of at least three bytes not starting with "ERR", and then receives every byte of the body |
| Gate.BadCredentials | client.go:148-163 | the body "ERR: bad credentials" fails with that text under any status, 200 included |
| Gate.BufReader.constructor | client.go:151 | a fresh reader over the body with nothing consumed |
| Gate.BufReader.Peek | client.go:152-155 | gives the next n bytes without consuming anything; it fails exactly when fewer than n remain |
| Gate.BufReader.ReadAll | client.go:158 | returns every unconsumed byte and leaves none |
| Gate.Do | client.go:135-178 | buffering, peeking three bytes, reading the rest on the marker and checking the status give exactly the verdict Classify specifies |
| Client.NewClient | client.go:33-51 | keeps user, password and logger id; the doer is the one from the last WithDoer option, or none without options |
| Client.BuildQuery | client.go:77-85 | exactly the seven parameter names, each with one value: the credentials, format json and function getDayValues |
| Client.QueryRoundTrip | client.go:82-84 | the solarlog parameter reads back as the id, and date_from and date_to parse back as the two dates (four-digit years) |
| Client.Fetch | client.go:76-98 | sends exactly one request, the built query, through the client's doer; the result is a transport failure, the gate's rejection, a JSON failure, or a decoding outcome of the parsed response, as the answer determines |
| Client.DayValues | client.go:66-74 | a range with from after to, or with a zero end, fails with an argument error and sends nothing; any other range is fetched |
| Client.CurrentDayValues | client.go:59-64 | fetches the single day given as today, with no range check |
| Client.RangeRejected | client.go:69 | the rejection condition of `DayValues`: from is after to, or to is the zero time, or from is the zero time; `RangeAcceptedIff` states when a range passes |
| Client.RangeAcceptedIff | client.go:69-71 | a range is accepted exactly when from equals or precedes to and neither end is the zero date |
| Client.SingleDayAccepted | client.go:61-69 | a one-day range of a non-zero day passes the range check |
| Client.OneYearAccepted | client_test.go:40-47 | the range from 2020-09-20 to 2021-09-20 passes the check, and 2021-09-20 renders as "2021-09-20" |
| Dates.IsZero | client.go:69 | `time.Time.IsZero` on a calendar date: the date is January 1 of year 1 |
| Dates.After | client.go:69 | `time.Time.After` on calendar dates: a is strictly later than b, comparing year, then month, then day; `AfterIsStrictTotalOrder` proves it a strict total order |
| Dates.Format | client.go:83-84 | `Format(DateLayout)` with layout "2006-01-02": the year zero-padded to four digits with its sign, a dash, the month padded to two, a dash, the day padded to two; `FormatRoundTrip`, `FormatShape` and `FormatInjective` state its properties |
| Dates.AfterIsStrictTotalOrder | client.go:69 | After is irreflexive, asymmetric, transitive and total on distinct dates |
| Dates.FormatRoundTrip | client.go:53-57 | for years 0 to 9999, parsing the rendered date gives the date back |
| Dates.FormatShape | client.go:53-57 | a rendered date with a four-digit year is ten characters: YYYY-MM-DD with digits in every field |
| Dates.FormatInjective | client.go:53-57 | different dates with four-digit years render differently |
| Decimal.Itoa | client.go:82 | `strconv.Itoa`: a non-negative integer renders as at least one digit and nothing else; a negative one as a minus sign followed by digits |
| Decimal.ItoaRoundTrip | client.go:82 | the decimal rendering of any integer, negative included, reads back as that integer |
| CsvOutput.Writer.constructor | cmd/csv-output/main.go:38 | `csv.NewWriter`: a writer with no rows written yet |
| CsvOutput.Writer.Write | cmd/csv-output/main.go:45-50 | `w.Write` of a record: the record is appended after the rows written so far, and nothing else changes |
| CsvOutput.RowFor | cmd/csv-output/main.go:47-50 | six fields: date, device type, channel, channel description, channel unit, value; description and unit are empty when the device does not list the channel |
| CsvOutput.RowsOfAt | cmd/csv-output/main.go:46-51 | the i-th written reading row is the row of the i-th visited (device, date) |
| CsvOutput.WriteDeviceRows | cmd/csv-output/main.go:47-51 | appends one row per date of the device, in a visiting order that lists each date exactly once |
| CsvOutput.Run | cmd/csv-output/main.go:40-52 | a failed fetch returns its error with nothing written; otherwise the header is written, then one row per (device, date) reading, each exactly once, as many rows as readings in total |

## Left out

- HTTP: building the request, the `Accept` header, closing the body, the context, and the base URL. The transport is a parameter.
- Query encoding: `url.Values.Encode` (sorting and percent-encoding) is library code; the query is a map of parameter name to values.
- JSON: the JSON decoder into `DayValuesResponse` is library code and enters as a parameter. `Json` keeps only objects and strings apart; every other JSON value is `Other`.
- The header's `timezone` and `utf_offset` fields: the core never reads them.
- Time: time of day, time zones and the clock are abstracted to a calendar date; `time.Now` is a parameter.
- Client.NewClient: a `ClientOption` is any function on `*Client` in Go; the model accepts only `WithDoer`, the one option the package defines.
- Gate.Do: the `v == nil` early return is not modelled, because the client always passes a response to decode into.
- Gate.Do: the body is a complete byte sequence, so I/O errors while peeking or reading it are not modelled; a peek fails only on a body shorter than three bytes.
- Decoder.DecodeDayValuesResponse: states which reading survives only as "one of the device's readings on that date", because Go's map order decides which channel is written last.
- Decoding is not deterministic: two decodings agree on devices, snapshots and dates, and are equal when each device has one channel per date; `TwoChannelsTwoDecodings` shows they can differ otherwise.
- Devices.DayValues: the embedded `*Device` is held as a Device value; every entry the decoder creates points to its own copy of the directory's device, so no aliasing is observable.
- CsvOutput.Run: the `csv.Writer` is a sequence of rows; quoting, `Flush`, `Error` and writes to standard output are not modelled.
- The command's flag parsing, signal handling, exit and error printing (`main` and the start of `run`) are not part of this model.
