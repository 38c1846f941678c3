/**
 Market data for one security (data.go): historical bars and their columnar
 projection, and point-in-time snapshots keyed by numeric field codes.
 Bar prices are values of an arbitrary type `F`, since they are only copied,
 and a snapshot record is a value of an arbitrary type `S`.
 */
module MarketData {
  import opened Wrappers
  import opened Strings
  import opened Http
  import opened Endpoints
  import opened Securities

  // ---------------------------------------------------------------------------
  // Historical bars

  /** One bar: open, close, high, low, volume and time stamp. */
  datatype Bar<F> = Bar(o: F, c: F, h: F, l: F, v: int, t: int)

  /** The decoded reply of the history endpoint. */
  datatype Historical<F> = Historical(
    symbol: string, text: string, priceFactor: int, startTime: string,
    high: string, low: string, timePeriod: string, barLength: int,
    mdAvailability: string, mktDataDelay: int, outsideRth: bool,
    volumeFactor: int, priceDisplayRule: int, priceDisplayValue: string,
    negativeCapable: bool, messageVersion: int, data: seq<Bar<F>>,
    points: int, travelTime: int)

  /** A unit of time, written after a magnitude in the `period` and `bar` parameters. */
  type TimeUnit = string

  const Min: TimeUnit := "min"    // 1 to 30 minutes
  const Hour: TimeUnit := "h"     // 1 to 8 hours
  const Day: TimeUnit := "d"      // 1 to 1000 days
  const Week: TimeUnit := "w"     // 1 to 792 weeks
  const Month: TimeUnit := "m"    // 1 to 182 months
  const Year: TimeUnit := "y"     // 1 to 15 years

  const TimeUnits: seq<TimeUnit> := [Min, Hour, Day, Week, Month, Year]

  predicate IsLowerWord(s: string) {
    |s| > 0 && forall i :: 0 <= i < |s| ==> 'a' <= s[i] <= 'z'
  }

  /** The six declared units are distinct, non-empty lower-case words. */
  lemma TimeUnitCodes()
    ensures |TimeUnits| == 6
    ensures forall i, j :: 0 <= i < j < |TimeUnits| ==> TimeUnits[i] != TimeUnits[j]
    ensures forall i :: 0 <= i < |TimeUnits| ==> IsLowerWord(TimeUnits[i]) && UnitShaped(TimeUnits[i])
  {
  }

  /**
   A magnitude followed by a declared unit is written uniquely: distinct
   (magnitude, unit) pairs give distinct `period` or `bar` values.
   */
  lemma DurationParameterInjective(n: int, u: TimeUnit, m: int, v: TimeUnit)
    requires u in TimeUnits && v in TimeUnits
    ensures Itoa(n) + u == Itoa(m) + v <==> n == m && u == v
  {
    TimeUnitCodes();
    NumberWithSuffixInjective(n, u, m, v);
  }

  /** The history URL is the gateway's path for the query, with every parameter written unchanged. */
  function HistoryUrl(base: string, conid: int, period: int, unit: TimeUnit, barSize: int, barUnit: TimeUnit)
    : (url: string)
    ensures url == base + EndpointPath(HistoryQuery(conid, period, unit, barSize, barUnit))
  {
    // Regroup the URL from the right, one concatenation at a time.
    var p1 := base + HistoryPrefix;
    var p2 := p1 + Itoa(conid);
    var p3 := p2 + PeriodKey;
    var p4 := p3 + Itoa(period);
    var p5 := p4 + unit;
    var p6 := p5 + BarKey;
    var barText := Itoa(barSize) + barUnit;
    ConcatAssoc(p6, Itoa(barSize), barUnit);
    var afterUnit := BarKey + barText;
    ConcatAssoc(p5, BarKey, barText);
    var afterPeriod := unit + afterUnit;
    ConcatAssoc(p4, unit, afterUnit);
    var durations := Itoa(period) + afterPeriod;
    ConcatAssoc(p3, Itoa(period), afterPeriod);
    var afterConid := PeriodKey + durations;
    ConcatAssoc(p2, PeriodKey, durations);
    var rest := Itoa(conid) + afterConid;
    ConcatAssoc(p1, Itoa(conid), afterConid);
    ConcatAssoc(base, HistoryPrefix, rest);
    base + "/api/iserver/marketdata/history?conid=" + Itoa(conid) + "&period=" + Itoa(period) + unit
      + "&bar=" + Itoa(barSize) + barUnit
  }

  /** The history URL routes back to its parameters, for every magnitude. */
  lemma HistoryUrlRoutes(base: string, conid: int, period: int, unit: TimeUnit, barSize: int, barUnit: TimeUnit)
    requires UnitShaped(unit) && StartsWithoutDigit(barUnit)
    ensures Route(base, HistoryUrl(base, conid, period, unit, barSize, barUnit))
            == Some(HistoryQuery(conid, period, unit, barSize, barUnit))
  {
    RouteHistoryRenders(base, conid, period, unit, barSize, barUnit);
  }

  /**
   `Security.Historical`: one GET of the history endpoint. The magnitudes
   are not checked against the documented ranges: any integer, zero and
   negative ones included, reaches the URL unchanged.
   */
  function FetchHistorical<F>(s: Security, period: int, unit: TimeUnit, barSize: int, barUnit: TimeUnit,
                              base: string, log: seq<Request>, server: seq<Request> -> Historical<F>)
    : (r: Reply<Historical<F>>)
    ensures AppendsGets(log, r.log, 1)
    ensures r.log[|log|].url == base + EndpointPath(HistoryQuery(s.conid, period, unit, barSize, barUnit))
    ensures UnitShaped(unit) && StartsWithoutDigit(barUnit) ==>
              Route(base, r.log[|log|].url) == Some(HistoryQuery(s.conid, period, unit, barSize, barUnit))
    ensures r.value == server(r.log)
  {
    if UnitShaped(unit) && StartsWithoutDigit(barUnit) then
      HistoryUrlRoutes(base, s.conid, period, unit, barSize, barUnit);
      Fetch(log, HistoryUrl(base, s.conid, period, unit, barSize, barUnit), server)
    else
      Fetch(log, HistoryUrl(base, s.conid, period, unit, barSize, barUnit), server)
  }

  /**
   With declared units, two history requests are the same URL exactly when
   all their parameters agree.
   */
  lemma HistoryRequestsDistinct(base: string, c: int, p: int, u: TimeUnit, b: int, bu: TimeUnit,
                                c': int, p': int, u': TimeUnit, b': int, bu': TimeUnit)
    requires u in TimeUnits && bu in TimeUnits && u' in TimeUnits && bu' in TimeUnits
    ensures HistoryUrl(base, c, p, u, b, bu) == HistoryUrl(base, c', p', u', b', bu')
            <==> (c, p, u, b, bu) == (c', p', u', b', bu')
  {
    TimeUnitCodes();
    HistoryUrlRoutes(base, c, p, u, b, bu);
    HistoryUrlRoutes(base, c', p', u', b', bu');
  }

  // ---------------------------------------------------------------------------
  // Columnar projection

  /** A named column of a data frame. */
  datatype Series<F> = FloatSeries(name: string, floats: seq<F>) | IntSeries(name: string, ints: seq<int>)

  datatype DataFrame<F> = DataFrame(series: seq<Series<F>>)

  function SeriesLength<F>(s: Series<F>): nat {
    match s
    case FloatSeries(_, xs) => |xs|
    case IntSeries(_, xs) => |xs|
  }

  const FrameColumns: seq<string> := ["time", "open", "close", "high", "low", "volume"]

  /**
   True iff `df` has the six columns time, open, close, high, low, volume in
   that order, each of `n` entries, prices as float columns and volume and
   time as integer columns.
   */
  predicate IsBarFrame<F>(df: DataFrame<F>, n: nat) {
    && |df.series| == 6
    && (forall k :: 0 <= k < 6 ==> df.series[k].name == FrameColumns[k] && SeriesLength(df.series[k]) == n)
    && df.series[0].IntSeries?
    && df.series[1].FloatSeries? && df.series[2].FloatSeries?
    && df.series[3].FloatSeries? && df.series[4].FloatSeries?
    && df.series[5].IntSeries?
  }

  /** Row `i` of a bar frame, read back as a bar. */
  function RowAt<F>(df: DataFrame<F>, n: nat, i: nat): Bar<F>
    requires IsBarFrame(df, n) && i < n
  {
    Bar(df.series[1].floats[i], df.series[2].floats[i], df.series[3].floats[i], df.series[4].floats[i],
        df.series[5].ints[i], df.series[0].ints[i])
  }

  /**
   `Historical.ToDataFrame`: one row per bar, index-aligned across the six
   columns; reading row `i` back gives bar `i`. No bars give six empty columns.
   */
  method ToDataFrame<F>(hd: Historical<F>) returns (df: DataFrame<F>)
    ensures IsBarFrame(df, |hd.data|)
    ensures forall i :: 0 <= i < |hd.data| ==> RowAt(df, |hd.data|, i) == hd.data[i]
  {
    var o: seq<F>, c: seq<F>, h: seq<F>, l: seq<F> := [], [], [], [];
    var v: seq<int>, t: seq<int> := [], [];
    for k := 0 to |hd.data|
      invariant |o| == k && |c| == k && |h| == k && |l| == k && |v| == k && |t| == k
      invariant forall j :: 0 <= j < k ==>
                  && o[j] == hd.data[j].o && c[j] == hd.data[j].c && h[j] == hd.data[j].h
                  && l[j] == hd.data[j].l && v[j] == hd.data[j].v && t[j] == hd.data[j].t
    {
      var f := hd.data[k];
      o := o + [f.o];
      c := c + [f.c];
      h := h + [f.h];
      l := l + [f.l];
      v := v + [f.v];
      t := t + [f.t];
    }
    df := DataFrame([IntSeries("time", t), FloatSeries("open", o), FloatSeries("close", c),
                     FloatSeries("high", h), FloatSeries("low", l), IntSeries("volume", v)]);
  }

  // ---------------------------------------------------------------------------
  // Snapshots

  /** A market-data field code; callers may pass codes beyond the declared ones. */
  type MarketDataField = string

  /** The declared fields, by name. */
  datatype Field =
    | LastPrice | Symbol | Text | High | Low | Pos | MarketValue | AveragePrice | UnrealizedPnL |
      FormattedPosition | FormattedUnrealizedPnL | DailyPnL | ChangePrice | ChangePercent |
      BidPrice | AskSize | AskPrice | Volume | BidSize | Exchange | Conid | SecurityType |
      Months | RegularExpiry | MarketDataDeliveryMethodMarker | UnderlyingConid |
      MarketDataAvailability | CompanyName | LastSize | ConidExchange | ContractDescription |
      ContractDescriptionAlt | ListingExchange | Industry | Category | AverageDailyVolume |
      HistoricVolume30D | PutCallRatio | DividendAmount | DividendYieldPercentage |
      DividendExDate | MarketCap | PE | EPS | CostBasis | WeekHigh52 | WeekLow52 | OpenPrice |
      ClosePrice | Delta | Gamma | Theta | Vega | ImpliedVolatilityOption

  /** The numeric code the gateway uses for a declared field: two or four digits, the first not '0'. */
  function Code(f: Field): (c: MarketDataField)
    ensures (|c| == 2 || |c| == 4) && c[0] != '0'
  {
    match f
    case LastPrice                      => "31"
    case Symbol                         => "55"
    case Text                           => "58"
    case High                           => "70"
    case Low                            => "71"
    case Pos                            => "72"
    case MarketValue                    => "73"
    case AveragePrice                   => "74"
    case UnrealizedPnL                  => "75"
    case FormattedPosition              => "76"
    case FormattedUnrealizedPnL         => "77"
    case DailyPnL                       => "78"
    case ChangePrice                    => "82"
    case ChangePercent                  => "83"
    case BidPrice                       => "84"
    case AskSize                        => "85"
    case AskPrice                       => "86"
    case Volume                         => "87"
    case BidSize                        => "88"
    case Exchange                       => "6004"
    case Conid                          => "6008"
    case SecurityType                   => "6070"
    case Months                         => "6072"
    case RegularExpiry                  => "6073"
    case MarketDataDeliveryMethodMarker => "6119"
    case UnderlyingConid                => "6457"
    case MarketDataAvailability         => "6509"
    case CompanyName                    => "7051"
    case LastSize                       => "7059"
    case ConidExchange                  => "7094"
    case ContractDescription            => "7219"
    case ContractDescriptionAlt         => "7220"
    case ListingExchange                => "7221"
    case Industry                       => "7280"
    case Category                       => "7281"
    case AverageDailyVolume             => "7282"
    case HistoricVolume30D              => "7284"
    case PutCallRatio                   => "7285"
    case DividendAmount                 => "7286"
    case DividendYieldPercentage        => "7287"
    case DividendExDate                 => "7288"
    case MarketCap                      => "7289"
    case PE                             => "7290"
    case EPS                            => "7291"
    case CostBasis                      => "7292"
    case WeekHigh52                     => "7293"
    case WeekLow52                      => "7294"
    case OpenPrice                      => "7295"
    case ClosePrice                     => "7296"
    case Delta                          => "7308"
    case Gamma                          => "7309"
    case Theta                          => "7310"
    case Vega                           => "7311"
    case ImpliedVolatilityOption        => "7633"
  }

  function Codes(fs: seq<Field>): (codes: seq<MarketDataField>)
    ensures |codes| == |fs|
    ensures forall i :: 0 <= i < |fs| ==> codes[i] == Code(fs[i])
  {
    seq(|fs|, i requires 0 <= i < |fs| => Code(fs[i]))
  }

  /** The declared field a code names, if any; codes have two or four digits. */
  function FieldOf(code: MarketDataField): Option<Field> {
    if |code| == 2 then ShortFieldOf(code)
    else if |code| == 4 then LongFieldOf(code)
    else None
  }

  /** The declared fields with two-digit codes. */
  function ShortFieldOf(code: MarketDataField): Option<Field> {
    match code
    case "31" => Some(LastPrice)
    case "55" => Some(Symbol)
    case "58" => Some(Text)
    case "70" => Some(High)
    case "71" => Some(Low)
    case "72" => Some(Pos)
    case "73" => Some(MarketValue)
    case "74" => Some(AveragePrice)
    case "75" => Some(UnrealizedPnL)
    case "76" => Some(FormattedPosition)
    case "77" => Some(FormattedUnrealizedPnL)
    case "78" => Some(DailyPnL)
    case "82" => Some(ChangePrice)
    case "83" => Some(ChangePercent)
    case "84" => Some(BidPrice)
    case "85" => Some(AskSize)
    case "86" => Some(AskPrice)
    case "87" => Some(Volume)
    case "88" => Some(BidSize)
    case _    => None
  }

  /** The declared fields with four-digit codes. */
  function LongFieldOf(code: MarketDataField): Option<Field> {
    match code
    case "6004" => Some(Exchange)
    case "6008" => Some(Conid)
    case "6070" => Some(SecurityType)
    case "6072" => Some(Months)
    case "6073" => Some(RegularExpiry)
    case "6119" => Some(MarketDataDeliveryMethodMarker)
    case "6457" => Some(UnderlyingConid)
    case "6509" => Some(MarketDataAvailability)
    case "7051" => Some(CompanyName)
    case "7059" => Some(LastSize)
    case "7094" => Some(ConidExchange)
    case "7219" => Some(ContractDescription)
    case "7220" => Some(ContractDescriptionAlt)
    case "7221" => Some(ListingExchange)
    case "7280" => Some(Industry)
    case "7281" => Some(Category)
    case "7282" => Some(AverageDailyVolume)
    case "7284" => Some(HistoricVolume30D)
    case "7285" => Some(PutCallRatio)
    case "7286" => Some(DividendAmount)
    case "7287" => Some(DividendYieldPercentage)
    case "7288" => Some(DividendExDate)
    case "7289" => Some(MarketCap)
    case "7290" => Some(PE)
    case "7291" => Some(EPS)
    case "7292" => Some(CostBasis)
    case "7293" => Some(WeekHigh52)
    case "7294" => Some(WeekLow52)
    case "7295" => Some(OpenPrice)
    case "7296" => Some(ClosePrice)
    case "7308" => Some(Delta)
    case "7309" => Some(Gamma)
    case "7310" => Some(Theta)
    case "7311" => Some(Vega)
    case "7633" => Some(ImpliedVolatilityOption)
    case _      => None
  }

  /** Every declared code is a numeral, so it holds no ','. */
  lemma FieldCodeNumeric(f: Field)
    ensures IsNumeral(Code(f))
  {
    match f {
      case LastPrice => case Symbol => case Text => case High => case Low => case Pos =>
      case MarketValue => case AveragePrice => case UnrealizedPnL => case FormattedPosition =>
      case FormattedUnrealizedPnL => case DailyPnL => case ChangePrice => case ChangePercent =>
      case BidPrice => case AskSize => case AskPrice => case Volume => case BidSize =>
      case Exchange => case Conid => case SecurityType => case Months => case RegularExpiry =>
      case MarketDataDeliveryMethodMarker => case UnderlyingConid =>
      case MarketDataAvailability => case CompanyName => case LastSize => case ConidExchange =>
      case ContractDescription => case ContractDescriptionAlt => case ListingExchange =>
      case Industry => case Category => case AverageDailyVolume => case HistoricVolume30D =>
      case PutCallRatio => case DividendAmount => case DividendYieldPercentage =>
      case DividendExDate => case MarketCap => case PE => case EPS => case CostBasis =>
      case WeekHigh52 => case WeekLow52 => case OpenPrice => case ClosePrice => case Delta =>
      case Gamma => case Theta => case Vega => case ImpliedVolatilityOption =>
    }
  }

  /** A declared field's code names that field again, so no two declared fields share a code. */
  lemma FieldOfCode(f: Field)
    ensures FieldOf(Code(f)) == Some(f)
  {
    match f {
      case LastPrice => case Symbol => case Text => case High => case Low => case Pos =>
      case MarketValue => case AveragePrice => case UnrealizedPnL => case FormattedPosition =>
      case FormattedUnrealizedPnL => case DailyPnL => case ChangePrice => case ChangePercent =>
      case BidPrice => case AskSize => case AskPrice => case Volume => case BidSize =>
      case Exchange => case Conid => case SecurityType => case Months => case RegularExpiry =>
      case MarketDataDeliveryMethodMarker => case UnderlyingConid =>
      case MarketDataAvailability => case CompanyName => case LastSize => case ConidExchange =>
      case ContractDescription => case ContractDescriptionAlt => case ListingExchange =>
      case Industry => case Category => case AverageDailyVolume => case HistoricVolume30D =>
      case PutCallRatio => case DividendAmount => case DividendYieldPercentage =>
      case DividendExDate => case MarketCap => case PE => case EPS => case CostBasis =>
      case WeekHigh52 => case WeekLow52 => case OpenPrice => case ClosePrice => case Delta =>
      case Gamma => case Theta => case Vega => case ImpliedVolatilityOption =>
    }
  }

  lemma FieldCodesDistinct(f: Field, g: Field)
    ensures Code(f) == Code(g) <==> f == g
  {
    FieldOfCode(f);
    FieldOfCode(g);
  }

  /**
   The `fields` parameter: the codes joined with ',' in argument order. Any
   strings are accepted; splitting the parameter on ',' gives the pieces of
   each code in turn, which are the codes themselves when none is empty or
   holds ','.
   */
  function FieldsParameter(fields: seq<MarketDataField>): (csv: string)
    ensures |fields| == 0 ==> csv == ""
    ensures |fields| > 0 ==> Split(csv, ',') == SplitEach(fields, ',')
    ensures FieldsShaped(fields) ==> (csv == "" <==> |fields| == 0)
    ensures |fields| > 0 && FieldsShaped(fields) ==> Split(csv, ',') == fields
  {
    if |fields| > 0 then
      SplitJoinPieces(fields, ',');
      if FieldsShaped(fields) then
        SplitJoin(fields, ',');
        Join(fields, ',')
      else
        Join(fields, ',')
    else
      Join(fields, ',')
  }

  /** Declared codes can be found again in the parameter: none is empty or holds ','. */
  lemma DeclaredFieldsShaped(fs: seq<Field>)
    ensures FieldsShaped(Codes(fs))
  {
    forall i | 0 <= i < |fs|
      ensures |Codes(fs)[i]| > 0 && ',' !in Codes(fs)[i]
    {
      var c := Code(fs[i]);
      FieldCodeNumeric(fs[i]);
      assert forall k :: 0 <= k < |c| ==> c[k] != ',';
    }
  }

  /** For a non-empty list of declared fields, splitting the parameter on ',' gives their codes back. */
  lemma DeclaredFieldsRoundTrip(fs: seq<Field>)
    requires |fs| > 0
    ensures Split(FieldsParameter(Codes(fs)), ',') == Codes(fs)
  {
    DeclaredFieldsShaped(fs);
  }

  /** The snapshot URL is the gateway's path for the contract id and the field codes in argument order. */
  function SnapshotUrl(base: string, conid: int, fields: seq<MarketDataField>): (url: string)
    ensures url == base + EndpointPath(SnapshotQuery(conid, fields))
  {
    var csv := FieldsParameter(fields);
    var p1 := base + SnapshotPrefix;
    var p2 := p1 + Itoa(conid);
    var afterConid := FieldsKey + csv;
    ConcatAssoc(p2, FieldsKey, csv);
    var rest := Itoa(conid) + afterConid;
    ConcatAssoc(p1, Itoa(conid), afterConid);
    ConcatAssoc(base, SnapshotPrefix, rest);
    base + "/api/iserver/marketdata/snapshot?conids=" + Itoa(conid) + "&fields=" + csv
  }

  /** The snapshot URL routes back to the contract id and the requested fields. */
  lemma SnapshotUrlRoutes(base: string, conid: int, fields: seq<MarketDataField>)
    requires FieldsShaped(fields)
    ensures Route(base, SnapshotUrl(base, conid, fields)) == Some(SnapshotQuery(conid, fields))
  {
    RouteSnapshotRenders(base, conid, fields);
  }

  /**
   `Security.Snapshot`: two identical GETs of the snapshot endpoint; the
   first only starts the gateway's market-data subscription and its reply is
   dropped, the result is the reply to the second.
   */
  function FetchSnapshot<S>(s: Security, fields: seq<MarketDataField>,
                            base: string, log: seq<Request>, server: seq<Request> -> seq<S>)
    : (r: Reply<seq<S>>)
    ensures AppendsGets(log, r.log, 2)
    ensures r.log[|log|] == r.log[|log| + 1]
    ensures r.log[|log|].url == base + EndpointPath(SnapshotQuery(s.conid, fields))
    ensures FieldsShaped(fields) ==> Route(base, r.log[|log|].url) == Some(SnapshotQuery(s.conid, fields))
    ensures r.value == server(r.log)
  {
    var url := SnapshotUrl(base, s.conid, fields);
    var first := Fetch(log, url, server);
    var second := Fetch(first.log, url, server);
    assert second.log[..|log|] == log;
    if FieldsShaped(fields) then
      SnapshotUrlRoutes(base, s.conid, fields);
      second
    else
      second
  }

  /**
   Only the reply to the second request is decoded: two gateways that agree
   on that reply give the same result, however they answer the first.
   */
  lemma SnapshotIgnoresFirstReply<S>(s: Security, fields: seq<MarketDataField>, base: string, log: seq<Request>,
                                     server: seq<Request> -> seq<S>, server': seq<Request> -> seq<S>)
    requires var req := Request(Get, SnapshotUrl(base, s.conid, fields));
             server(log + [req, req]) == server'(log + [req, req])
    ensures FetchSnapshot(s, fields, base, log, server) == FetchSnapshot(s, fields, base, log, server')
  {
    var req := Request(Get, SnapshotUrl(base, s.conid, fields));
    assert log + [req] + [req] == log + [req, req];
  }

}
