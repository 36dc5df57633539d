/**
 * The historical-query side of the Polygon.io client: the interval table,
 * the arguments `get_ohlcv` computes for an aggregates query, and the fixed
 * ticker-listing query. The REST client itself is foreign; each query is
 * modelled as the request that would be issued.
 */
module PolygonIOClient {
  import opened Wrappers

  /** INTERVAL_MAP: the accepted interval tokens and the aggregate timespan of each. */
  const IntervalMap: map<string, string> :=
    map["1m" := "minute", "5m" := "minute", "15m" := "minute", "1h" := "hour", "1d" := "day"]

  /** The default value of `get_ohlcv`'s `limit` parameter. */
  const DefaultLimit: int := 100

  /** The arguments the aggregates query `list_aggs` is called with. */
  datatype AggsRequest = AggsRequest(
    ticker: string, multiplier: int, timespan: string,
    fromDate: string, toDate: string, limit: int)

  /** The keyword arguments the ticker listing `list_tickers` is called with. */
  datatype TickersRequest = TickersRequest(
    market: string, active: string, order: string, limit: int, sort: string)

  /** The exceptions `get_ohlcv` can raise before any request is made. */
  datatype OhlcvError =
    | KeyError(key: string)        // the interval is not in INTERVAL_MAP
    | ValueError(literal: string)  // `int()` rejected the multiplier literal

  // ---------------------------------------------------------------------------
  // Decimal literals: `int(s)` and its inverse `str(n)`
  // ---------------------------------------------------------------------------

  predicate IsDigit(c: char) { '0' <= c <= '9' }

  predicate AllDigits(s: string) { forall i :: 0 <= i < |s| ==> IsDigit(s[i]) }

  /** The value of a string of decimal digits, read most significant first. */
  function DigitsValue(s: string): nat
    requires AllDigits(s)
  {
    if s == "" then 0 else 10 * DigitsValue(s[..|s| - 1]) + (s[|s| - 1] as int - '0' as int)
  }

  /** `int(s)` on a decimal literal: None stands for the ValueError on anything but a non-empty run of digits. */
  function ParseInt(s: string): (r: Option<nat>)
    ensures r.Some? <==> s != "" && AllDigits(s)
  {
    if s != "" && AllDigits(s) then Some(DigitsValue(s)) else None
  }

  /** `str(n)`: the canonical decimal rendering of a natural number. */
  function ToDecimal(n: nat): (r: string)
    ensures r != "" && AllDigits(r)
  {
    if n < 10 then ['0' + n as char] else ToDecimal(n / 10) + ['0' + (n % 10) as char]
  }

  /** `int(str(n)) == n`. */
  lemma {:induction false} ParseToDecimal(n: nat)
    ensures ParseInt(ToDecimal(n)) == Some(n)
  {
    if n >= 10 {
      ParseToDecimal(n / 10);
      var s := ToDecimal(n);
      assert s[..|s| - 1] == ToDecimal(n / 10);
      assert s[|s| - 1] as int - '0' as int == n % 10;
      assert DigitsValue(s) == 10 * (n / 10) + n % 10;
    }
  }

  /** A leading digit other than zero makes the value at least one. */
  lemma {:induction false} NonZeroLeadPositive(s: string)
    requires s != "" && AllDigits(s) && s[0] != '0'
    ensures DigitsValue(s) > 0
    decreases |s|
  {
    if |s| > 1 {
      var p := s[..|s| - 1];
      assert p[0] == s[0];
      NonZeroLeadPositive(p);
    }
  }

  /** `str(int(s)) == s` for every literal without a redundant leading zero. */
  lemma {:induction false} ToDecimalParse(s: string)
    requires s != "" && AllDigits(s) && (s[0] == '0' ==> |s| == 1)
    ensures ToDecimal(DigitsValue(s)) == s
    decreases |s|
  {
    var n := DigitsValue(s);
    if |s| > 1 {
      var p := s[..|s| - 1];
      assert p[0] == s[0];
      NonZeroLeadPositive(p);
      ToDecimalParse(p);
      assert n / 10 == DigitsValue(p) && n % 10 == s[|s| - 1] as int - '0' as int;
      assert s == p + [s[|s| - 1]];
    }
  }

  // ---------------------------------------------------------------------------
  // get_ohlcv and get_all_crypto_tickers
  // ---------------------------------------------------------------------------

  /** Python's `s[:-1]`: everything but the last character, and "" for "". */
  function DropLast(s: string): (r: string)
    ensures s != "" ==> s == r + [s[|s| - 1]]
    ensures s == "" ==> r == ""
  {
    if s == "" then s else s[..|s| - 1]
  }

  /**
   * `get_ohlcv(ticker, interval, from_date, to_date, limit)`: looks the
   * interval up in the table (KeyError when absent, before anything else is
   * computed), parses the multiplier from all but the interval's last
   * character, and yields the aggregates request that would be issued.
   */
  function GetOhlcv(ticker: string, interval: string, fromDate: string, toDate: string,
                    limit: int := DefaultLimit): (r: Result<AggsRequest, OhlcvError>)
    ensures interval !in IntervalMap ==> r == Err(KeyError(interval))
    ensures r.Ok? ==> && interval in IntervalMap
                      && r.value.timespan == IntervalMap[interval]
                      && r.value.multiplier >= 0
                      && ParseInt(DropLast(interval)) == Some(r.value.multiplier as nat)
                      && r.value.ticker == ticker
                      && r.value.fromDate == fromDate
                      && r.value.toDate == toDate
                      && r.value.limit == limit
  {
    if interval !in IntervalMap then Err(KeyError(interval))
    else
      var timespan := IntervalMap[interval];
      var literal := DropLast(interval);
      match ParseInt(literal)
      case None => Err(ValueError(literal))
      case Some(multiplier) => Ok(AggsRequest(ticker, multiplier, timespan, fromDate, toDate, limit))
  }

  /** The aggregate timespan a unit letter names, independently of the table. */
  function UnitOfSuffix(c: char): Option<string>
  {
    match c
    case 'm' => Some("minute")
    case 'h' => Some("hour")
    case 'd' => Some("day")
    case _ => None
  }

  /** The table holds exactly the five intervals, with these timespans. */
  lemma IntervalTable()
    ensures IntervalMap.Keys == {"1m", "5m", "15m", "1h", "1d"}
    ensures IntervalMap["1m"] == IntervalMap["5m"] == IntervalMap["15m"] == "minute"
    ensures IntervalMap["1h"] == "hour" && IntervalMap["1d"] == "day"
  {
  }

  /**
   * Every accepted interval is "<positive multiplier in canonical decimal><unit letter>"
   * with the letter agreeing with the table's timespan, so `get_ohlcv` never
   * raises ValueError on it.
   */
  lemma {:induction false} AcceptedIntervalShape(interval: string)
    requires interval in IntervalMap
    ensures interval != ""
    ensures UnitOfSuffix(interval[|interval| - 1]) == Some(IntervalMap[interval])
    ensures ParseInt(DropLast(interval)).Some?
    ensures ParseInt(DropLast(interval)).value > 0
    ensures interval == ToDecimal(ParseInt(DropLast(interval)).value) + [interval[|interval| - 1]]
  {
    var lit := DropLast(interval);
    assert interval == "1m" || interval == "5m" || interval == "15m" || interval == "1h" || interval == "1d";
    assert lit == "1" || lit == "5" || lit == "15";
    ToDecimalParse(lit);
    NonZeroLeadPositive(lit);
  }

  /** `get_ohlcv` succeeds exactly on the table's intervals; the multiplier is positive and the unit agrees. */
  lemma OhlcvAccepts(ticker: string, interval: string, fromDate: string, toDate: string, limit: int)
    ensures GetOhlcv(ticker, interval, fromDate, toDate, limit).Ok? <==> interval in IntervalMap
    ensures interval in IntervalMap ==>
      var req := GetOhlcv(ticker, interval, fromDate, toDate, limit).value;
      && req.multiplier > 0
      && UnitOfSuffix(interval[|interval| - 1]) == Some(req.timespan)
      && interval == ToDecimal(req.multiplier) + [interval[|interval| - 1]]
  {
    if interval in IntervalMap {
      AcceptedIntervalShape(interval);
    }
  }

  /** The three worked cases: "15m" is 15 minutes, "5m" 5 minutes and "1h" one hour; limit defaults to 100. */
  lemma OhlcvExamples(ticker: string, fromDate: string, toDate: string)
    ensures GetOhlcv(ticker, "15m", fromDate, toDate) == Ok(AggsRequest(ticker, 15, "minute", fromDate, toDate, 100))
    ensures GetOhlcv(ticker, "5m", fromDate, toDate) == Ok(AggsRequest(ticker, 5, "minute", fromDate, toDate, 100))
    ensures GetOhlcv(ticker, "1h", fromDate, toDate) == Ok(AggsRequest(ticker, 1, "hour", fromDate, toDate, 100))
    ensures GetOhlcv(ticker, "1d", fromDate, toDate) == Ok(AggsRequest(ticker, 1, "day", fromDate, toDate, 100))
  {
    assert ToDecimal(15) == "15" && ToDecimal(5) == "5" && ToDecimal(1) == "1";
    ParseToDecimal(15);
    ParseToDecimal(5);
    ParseToDecimal(1);
    assert DropLast("15m") == "15" && DropLast("5m") == "5";
    assert DropLast("1h") == "1" && DropLast("1d") == "1";
  }

  /** `get_all_crypto_tickers()`: the one ticker listing the client issues. */
  function GetAllCryptoTickers(): (q: TickersRequest)
    ensures q.market == "crypto" && q.active == "true"
    ensures q.order == "desc" && q.sort == "market" && q.limit == 100
  {
    TickersRequest(market := "crypto", active := "true", order := "desc", limit := 100, sort := "market")
  }
}
