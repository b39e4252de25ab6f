/**
 * The API client: construction with options, the date-range contract, the
 * query parameters, and the pipeline request -> gate -> JSON -> decoder.
 * The transport and the JSON parser are library code and enter as parameters.
 */
module Client {
  import opened Wrappers
  import opened Errors
  import opened Decimal
  import opened Dates
  import opened Devices
  import opened Request
  import opened Decoder
  import opened Gate

  /** A configured client; doer None stands for the default HTTP client. D identifies a transport. */
  datatype Client<D> = Client(user: string, password: string, solarlog: int, doer: Option<D>)

  /** The one recognised option: use the given doer for requests. */
  datatype ClientOption<D> = WithDoer(d: D)

  /** The doer chosen by the last option that sets one, if any. */
  function LastDoer<D>(opts: seq<ClientOption<D>>): Option<D>
  {
    if opts == [] then None else Some(opts[|opts| - 1].d)
  }

  /** Builds a client from credentials and id, then applies the options in order. */
  method NewClient<D>(user: string, password: string, solarlogId: int, opts: seq<ClientOption<D>>)
    returns (c: Client<D>)
    ensures c.user == user && c.password == password && c.solarlog == solarlogId
    ensures opts == [] ==> c.doer == None
    ensures opts != [] ==> c.doer == Some(opts[|opts| - 1].d)
  {
    c := Client(user, password, solarlogId, None);
    for i := 0 to |opts|
      invariant c.user == user && c.password == password && c.solarlog == solarlogId
      invariant c.doer == LastDoer(opts[..i])
    {
      match opts[i]
      case WithDoer(d) =>
        c := c.(doer := Some(d));
    }
    assert opts[..|opts|] == opts;
  }

  /** The range check of an explicit day-values call. */
  predicate RangeRejected(from: Date, to: Date)
  {
    After(from, to) || IsZero(to) || IsZero(from)
  }

  /** One value per query parameter name. */
  type Query = map<string, seq<string>>

  /** The seven parameters of a getDayValues request. */
  function BuildQuery<D>(c: Client<D>, from: Date, to: Date): (q: Query)
    ensures q.Keys == {"username", "password", "format", "function", "solarlog", "date_from", "date_to"}
    ensures forall k :: k in q ==> |q[k]| == 1
    ensures q["username"] == [c.user] && q["password"] == [c.password]
    ensures q["format"] == ["json"] && q["function"] == ["getDayValues"]
  {
    map[
      "username" := [c.user],
      "password" := [c.password],
      "format" := ["json"],
      "function" := ["getDayValues"],
      "solarlog" := [Itoa(c.solarlog)],
      "date_from" := [Format(from)],
      "date_to" := [Format(to)]]
  }

  /** The id and both dates can be read back from the query they were written into. */
  lemma QueryRoundTrip<D>(c: Client<D>, from: Date, to: Date)
    requires 0 <= from.year < 10000 && 0 <= to.year < 10000
    ensures Atoi(BuildQuery(c, from, to)["solarlog"][0]) == Some(c.solarlog)
    ensures Dates.Parse(BuildQuery(c, from, to)["date_from"][0]) == Some(from)
    ensures Dates.Parse(BuildQuery(c, from, to)["date_to"][0]) == Some(to)
  {
    ItoaRoundTrip(c.solarlog);
    FormatRoundTrip(from);
    FormatRoundTrip(to);
  }

  /** What the doer returns: an error, or a status code and the body bytes. */
  datatype Exchange = ExchangeFailed | Response(status: int, body: seq<byte>)

  /** r is what decoding resp may produce. */
  ghost predicate DecodeOutcome(resp: DayValuesResponse, r: Result<DeviceValues, Error>)
  {
    && (r.Success? <==> WellShaped(ActiveDirectory(resp).Keys, resp.readings))
    && (r.Success? ==> DecodedFrom(ActiveDirectory(resp), resp.readings, r.value))
    && (r.Failure? ==> BodyFault(ActiveDirectory(resp).Keys, resp.readings, r.error))
  }

  /** r is what the pipeline may produce once the exchange has happened. */
  ghost predicate FetchOutcome(x: Exchange, parse: seq<byte> -> Option<DayValuesResponse>,
                               r: Result<DeviceValues, Error>)
  {
    match x
    case ExchangeFailed => r == Failure(TransportFailed)
    case Response(status, body) =>
      match Classify(status, body)
      case Reject(e) => r == Failure(e)
      case Accept(bytes) =>
        match parse(bytes)
        case None => r == Failure(JsonFailed)
        case Some(resp) => DecodeOutcome(resp, r)
  }

  /**
   * Sends the query for [from, to] through the client's doer (None: the default
   * client) and runs the gate, the JSON parser and the decoder on the answer.
   * sent records the requests the doer was given.
   */
  method Fetch<D>(c: Client<D>, from: Date, to: Date,
                  transport: (Option<D>, Query) -> Exchange,
                  parse: seq<byte> -> Option<DayValuesResponse>)
    returns (r: Result<DeviceValues, Error>, ghost sent: seq<Query>)
    ensures sent == [BuildQuery(c, from, to)]
    ensures FetchOutcome(transport(c.doer, BuildQuery(c, from, to)), parse, r)
  {
    var q := BuildQuery(c, from, to);
    var x := transport(c.doer, q);
    sent := [q];
    if x.ExchangeFailed? {
      return Failure(TransportFailed), sent;
    }
    var v := Do(x.status, x.body);
    if v.Reject? {
      return Failure(v.error), sent;
    }
    var parsed := parse(v.bytes);
    if parsed.None? {
      return Failure(JsonFailed), sent;
    }
    r := DecodeDayValuesResponse(parsed.value);
  }

  /**
   * Day values for an explicit range: a range where from is after to, or
   * either end is the zero date, fails before any request is sent.
   */
  method DayValues<D>(c: Client<D>, from: Date, to: Date,
                      transport: (Option<D>, Query) -> Exchange,
                      parse: seq<byte> -> Option<DayValuesResponse>)
    returns (r: Result<DeviceValues, Error>, ghost sent: seq<Query>)
    ensures RangeRejected(from, to) ==> r == Failure(InvalidArgument)
    ensures RangeRejected(from, to) ==> sent == []
    ensures !RangeRejected(from, to) ==> FetchOutcome(transport(c.doer, BuildQuery(c, from, to)), parse, r)
    ensures !RangeRejected(from, to) ==> sent == [BuildQuery(c, from, to)]
  {
    if After(from, to) || IsZero(to) || IsZero(from) {
      return Failure(InvalidArgument), [];
    }
    r, sent := Fetch(c, from, to, transport, parse);
  }

  /** Day values for the current day, with today's date given by the caller's clock. */
  method CurrentDayValues<D>(c: Client<D>, now: Date,
                             transport: (Option<D>, Query) -> Exchange,
                             parse: seq<byte> -> Option<DayValuesResponse>)
    returns (r: Result<DeviceValues, Error>, ghost sent: seq<Query>)
    ensures sent == [BuildQuery(c, now, now)]
    ensures FetchOutcome(transport(c.doer, BuildQuery(c, now, now)), parse, r)
  {
    r, sent := Fetch(c, now, now, transport, parse);
  }

  /** A single non-zero day is an accepted range. */
  lemma SingleDayAccepted(d: Date)
    requires !IsZero(d)
    ensures !RangeRejected(d, d)
  {
  }

  /** The range is rejected exactly when from is later than to or an end is the zero date. */
  lemma RangeAcceptedIff(from: Date, to: Date)
    ensures !RangeRejected(from, to) <==>
      (from == to || After(to, from)) && from != ZeroDate && to != ZeroDate
  {
    AfterIsStrictTotalOrder(from, to, to);
  }

  /** The year from 2020-09-20 to 2021-09-20 is an accepted range. */
  lemma OneYearAccepted()
    ensures !RangeRejected(Date(2020, 9, 20), Date(2021, 9, 20))
    ensures Format(Date(2021, 9, 20)) == "2021-09-20"
  {
    FormatRoundTrip(Date(2021, 9, 20));
    FormatShape(Date(2021, 9, 20));
  }
}
