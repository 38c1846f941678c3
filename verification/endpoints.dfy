/**
 The gateway's GET endpoints and a router that reads a request URL back into
 the endpoint and parameters it addresses. The router is written from the
 endpoint table of the gateway, independently of the code that builds the
 URLs. Numbers are read only as `strconv.Itoa` writes them, so the router
 accepts each endpoint under one URL only: `EndpointPath` renders an endpoint,
 `RouteSound` shows every accepted URL is the rendering of what it routes to,
 and `RouteEndpointPath` shows renderings route back.
 */
module Endpoints {
  import opened Wrappers
  import opened Strings

  datatype Endpoint =
    | Accounts
    | PortfolioAccounts
    | PositionsPage(accountId: string, page: nat)
    | SnapshotQuery(conids: int, fields: seq<string>)
    | HistoryQuery(conid: int, period: int, periodUnit: string, bar: int, barUnit: string)

  const AccountsPath := "/api/iserver/accounts"
  const PortfolioAccountsPath := "/api/portfolio/accounts"
  const PortfolioPrefix := "/api/portfolio/"
  const PositionsSegment := "/positions"
  const SnapshotPrefix := "/api/iserver/marketdata/snapshot?conids="
  const FieldsKey := "&fields="
  const HistoryPrefix := "/api/iserver/marketdata/history?conid="
  const PeriodKey := "&period="
  const BarKey := "&bar="

  /** The endpoint `url` addresses on the gateway at `base`, if any. */
  function Route(base: string, url: string): Option<Endpoint> {
    match StripPrefix(url, base)
    case None => None
    case Some(path) => RoutePath(path)
  }

  function RoutePath(path: string): Option<Endpoint> {
    if path == AccountsPath then Some(Accounts)
    else if path == PortfolioAccountsPath then Some(PortfolioAccounts)
    else if PortfolioPrefix <= path then RoutePositions(path[|PortfolioPrefix|..])
    else if SnapshotPrefix <= path then RouteSnapshot(path[|SnapshotPrefix|..])
    else if HistoryPrefix <= path then RouteHistory(path[|HistoryPrefix|..])
    else None
  }

  /**
   `{accountId}/positions/{page}`: the page is the segment after the last
   '/', a numeral without leading zeros.
   */
  function RoutePositions(rest: string): Option<Endpoint> {
    match SplitAtLast(rest, '/')
    case None => None
    case Some((head, page)) =>
      if !IsNumeral(page) then None
      else match StripSuffix(head, PositionsSegment)
        case None => None
        case Some(account) => Some(PositionsPage(account, DigitsValue(page)))
  }

  /** `{conid}&fields={csv}`: an empty list is written as nothing at all. */
  function RouteSnapshot(rest: string): Option<Endpoint> {
    match ReadInt(rest)
    case None => None
    case Some((conid, afterConid)) =>
      match StripPrefix(afterConid, FieldsKey)
      case None => None
      case Some(csv) => Some(SnapshotQuery(conid, if csv == "" then [] else Split(csv, ',')))
  }

  /** `{conid}&period={n}{unit}&bar={n}{unit}`. */
  function RouteHistory(rest: string): Option<Endpoint> {
    match ReadInt(rest)
    case None => None
    case Some((conid, afterConid)) =>
      match StripPrefix(afterConid, PeriodKey)
      case None => None
      case Some(durations) => RouteDurations(conid, durations)
  }

  /** `{n}{unit}&bar={n}{unit}`: the period unit ends at the next '&'. */
  function RouteDurations(conid: int, durations: string): Option<Endpoint> {
    match ReadInt(durations)
    case None => None
    case Some((period, afterPeriod)) =>
      var (periodUnit, afterUnit) := SplitAtFirst(afterPeriod, '&');
      match StripPrefix(afterUnit, BarKey)
      case None => None
      case Some(barText) => RouteBar(conid, period, periodUnit, barText)
  }

  /** `{n}{unit}`: the bar size and its unit, which runs to the end. */
  function RouteBar(conid: int, period: int, periodUnit: string, barText: string): Option<Endpoint> {
    match ReadInt(barText)
    case None => None
    case Some((bar, barUnit)) => Some(HistoryQuery(conid, period, periodUnit, bar, barUnit))
  }

  /** The path of `e` under the gateway's base URL, with numbers as `strconv.Itoa` writes them. */
  function EndpointPath(e: Endpoint): string {
    match e
    case Accounts => AccountsPath
    case PortfolioAccounts => PortfolioAccountsPath
    case PositionsPage(accountId, page) => PortfolioPrefix + (accountId + PositionsSegment + ['/'] + Itoa(page))
    case SnapshotQuery(conids, fields) => SnapshotPrefix + (Itoa(conids) + (FieldsKey + Join(fields, ',')))
    case HistoryQuery(conid, period, periodUnit, bar, barUnit) =>
      HistoryPrefix + (Itoa(conid) + (PeriodKey + (Itoa(period) + (periodUnit + (BarKey + (Itoa(bar) + barUnit))))))
  }

  /** True iff the parameters of `e` can be told apart again in its rendered path. */
  predicate Readable(e: Endpoint) {
    match e
    case SnapshotQuery(_, fields) => FieldsShaped(fields)
    case HistoryQuery(_, _, periodUnit, _, barUnit) => UnitShaped(periodUnit) && StartsWithoutDigit(barUnit)
    case _ => true
  }

  /**
   A unit code the router can find again after a magnitude: it does not
   start with a digit and holds no '&'.
   */
  predicate UnitShaped(u: string) {
    StartsWithoutDigit(u) && '&' !in u
  }

  /** A list of field codes the router can find again: no code is empty or holds ','. */
  predicate FieldsShaped(fields: seq<string>) {
    forall i :: 0 <= i < |fields| ==> |fields[i]| > 0 && ',' !in fields[i]
  }

  // ---------------------------------------------------------------------------
  // Dispatch

  lemma RouteUnderBase(base: string, path: string)
    ensures Route(base, base + path) == RoutePath(path)
  {
    assert (base + path)[|base|..] == path;
  }

  /** A path under the portfolio prefix that ends in a page number is a positions path. */
  lemma RoutePositionsPath(rest: string)
    requires |rest| > 0 && IsDigit(rest[|rest| - 1])
    ensures RoutePath(PortfolioPrefix + rest) == RoutePositions(rest)
  {
    var path := PortfolioPrefix + rest;
    assert path[..|PortfolioPrefix|] == PortfolioPrefix;
    assert path[|PortfolioPrefix|..] == rest;
    assert path[|path| - 1] == rest[|rest| - 1];
    assert AccountsPath[|AccountsPath| - 1] == 's';
    assert PortfolioAccountsPath[|PortfolioAccountsPath| - 1] == 's';
  }

  lemma RouteSnapshotPath(rest: string)
    ensures RoutePath(SnapshotPrefix + rest) == RouteSnapshot(rest)
  {
    var path := SnapshotPrefix + rest;
    assert path[..|SnapshotPrefix|] == SnapshotPrefix;
    assert path[|SnapshotPrefix|..] == rest;
    assert path[5] == 'i' && PortfolioPrefix[5] == 'p';
  }

  lemma RouteHistoryPath(rest: string)
    ensures RoutePath(HistoryPrefix + rest) == RouteHistory(rest)
  {
    var path := HistoryPrefix + rest;
    assert path[..|HistoryPrefix|] == HistoryPrefix;
    assert path[|HistoryPrefix|..] == rest;
    assert path[5] == 'i' && PortfolioPrefix[5] == 'p';
    assert path[24] == 'h' && SnapshotPrefix[24] == 's';
  }

  // ---------------------------------------------------------------------------
  // Reading back what the client writes

  lemma RouteHistoryReads(conid: int, durations: string)
    ensures RouteHistory(Itoa(conid) + (PeriodKey + durations)) == RouteDurations(conid, durations)
  {
    ReadIntItoa(conid, PeriodKey + durations);
    assert StripPrefix(PeriodKey + durations, PeriodKey) == Some(durations);
  }

  lemma RouteDurationsReads(conid: int, period: int, unit: string, barText: string)
    requires UnitShaped(unit)
    ensures RouteDurations(conid, Itoa(period) + (unit + (BarKey + barText)))
            == RouteBar(conid, period, unit, barText)
  {
    var afterUnit := BarKey + barText;
    ReadIntItoa(period, unit + afterUnit);
    SplitAtFirstUnique(unit, afterUnit, '&');
    assert StripPrefix(afterUnit, BarKey) == Some(barText);
  }

  lemma RouteBarReads(conid: int, period: int, unit: string, bar: int, barUnit: string)
    requires StartsWithoutDigit(barUnit)
    ensures RouteBar(conid, period, unit, Itoa(bar) + barUnit) == Some(HistoryQuery(conid, period, unit, bar, barUnit))
  {
    ReadIntItoa(bar, barUnit);
  }

  lemma RouteSnapshotReads(conid: int, csv: string)
    ensures RouteSnapshot(Itoa(conid) + (FieldsKey + csv))
            == Some(SnapshotQuery(conid, if csv == "" then [] else Split(csv, ',')))
  {
    ReadIntItoa(conid, FieldsKey + csv);
    assert StripPrefix(FieldsKey + csv, FieldsKey) == Some(csv);
  }

  // ---------------------------------------------------------------------------
  // Rendering and routing are inverse

  lemma RoutePositionsRenders(base: string, accountId: string, page: nat)
    ensures Route(base, base + EndpointPath(PositionsPage(accountId, page))) == Some(PositionsPage(accountId, page))
  {
    var rest := accountId + PositionsSegment + ['/'] + Itoa(page);
    RouteUnderBase(base, PortfolioPrefix + rest);
    assert rest[|rest| - 1] == Itoa(page)[|Itoa(page)| - 1];
    RoutePositionsPath(rest);
    SplitAtLastUnique(accountId + PositionsSegment, '/', Itoa(page));
    assert StripSuffix(accountId + PositionsSegment, PositionsSegment) == Some(accountId);
    DigitsValueOfDigits(page);
  }

  lemma RouteSnapshotRenders(base: string, conids: int, fields: seq<string>)
    requires FieldsShaped(fields)
    ensures Route(base, base + EndpointPath(SnapshotQuery(conids, fields))) == Some(SnapshotQuery(conids, fields))
  {
    var csv := Join(fields, ',');
    var rest := Itoa(conids) + (FieldsKey + csv);
    RouteUnderBase(base, SnapshotPrefix + rest);
    RouteSnapshotPath(rest);
    RouteSnapshotReads(conids, csv);
    JoinEmpty(fields, ',');
    if |fields| > 0 {
      SplitJoin(fields, ',');
    }
  }

  lemma RouteHistoryRenders(base: string, conid: int, period: int, periodUnit: string, bar: int, barUnit: string)
    requires UnitShaped(periodUnit) && StartsWithoutDigit(barUnit)
    ensures var e := HistoryQuery(conid, period, periodUnit, bar, barUnit);
            Route(base, base + EndpointPath(e)) == Some(e)
  {
    var barText := Itoa(bar) + barUnit;
    var durations := Itoa(period) + (periodUnit + (BarKey + barText));
    var rest := Itoa(conid) + (PeriodKey + durations);
    RouteUnderBase(base, HistoryPrefix + rest);
    RouteHistoryPath(rest);
    RouteHistoryReads(conid, durations);
    RouteDurationsReads(conid, period, periodUnit, barText);
    RouteBarReads(conid, period, periodUnit, bar, barUnit);
  }

  /** Every endpoint whose parameters can be told apart routes back from its rendering. */
  lemma RouteEndpointPath(base: string, e: Endpoint)
    requires Readable(e)
    ensures Route(base, base + EndpointPath(e)) == Some(e)
  {
    match e
    case Accounts => RouteUnderBase(base, AccountsPath);
    case PortfolioAccounts => RouteUnderBase(base, PortfolioAccountsPath);
    case PositionsPage(accountId, page) => RoutePositionsRenders(base, accountId, page);
    case SnapshotQuery(conids, fields) => RouteSnapshotRenders(base, conids, fields);
    case HistoryQuery(conid, period, periodUnit, bar, barUnit) =>
      RouteHistoryRenders(base, conid, period, periodUnit, bar, barUnit);
  }

  lemma RoutePositionsSound(rest: string)
    requires RoutePositions(rest).Some?
    ensures var e := RoutePositions(rest).value;
            e.PositionsPage? && rest == e.accountId + PositionsSegment + ['/'] + Itoa(e.page)
  {
    var (head, page) := SplitAtLast(rest, '/').value;
    DigitsOfValue(page);
  }

  lemma RouteSnapshotSound(rest: string)
    requires RouteSnapshot(rest).Some?
    ensures var e := RouteSnapshot(rest).value;
            e.SnapshotQuery? && rest == Itoa(e.conids) + (FieldsKey + Join(e.fields, ','))
  {
    ReadIntSound(rest);
    var (conid, afterConid) := ReadInt(rest).value;
    var csv := StripPrefix(afterConid, FieldsKey).value;
    if csv != "" {
      JoinSplit(csv, ',');
    }
  }

  lemma RouteBarSound(conid: int, period: int, periodUnit: string, barText: string)
    requires RouteBar(conid, period, periodUnit, barText).Some?
    ensures var e := RouteBar(conid, period, periodUnit, barText).value;
            && e == HistoryQuery(conid, period, periodUnit, e.bar, e.barUnit)
            && barText == Itoa(e.bar) + e.barUnit
  {
    ReadIntSound(barText);
  }

  lemma RouteDurationsSound(conid: int, durations: string)
    requires RouteDurations(conid, durations).Some?
    ensures var e := RouteDurations(conid, durations).value;
            && e.HistoryQuery? && e.conid == conid
            && durations == Itoa(e.period) + (e.periodUnit + (BarKey + (Itoa(e.bar) + e.barUnit)))
  {
    ReadIntSound(durations);
    var (period, afterPeriod) := ReadInt(durations).value;
    var (periodUnit, afterUnit) := SplitAtFirst(afterPeriod, '&');
    var barText := StripPrefix(afterUnit, BarKey).value;
    RouteBarSound(conid, period, periodUnit, barText);
  }

  lemma RouteHistorySound(rest: string)
    ensures RouteHistory(rest).Some? ==>
              var e := RouteHistory(rest).value;
              && e.HistoryQuery?
              && rest == Itoa(e.conid) + (PeriodKey + (Itoa(e.period) + (e.periodUnit + (BarKey + (Itoa(e.bar) + e.barUnit)))))
  {
    if RouteHistory(rest).Some? {
      ReadIntSound(rest);
      var (conid, afterConid) := ReadInt(rest).value;
      var durations := StripPrefix(afterConid, PeriodKey).value;
      RouteDurationsSound(conid, durations);
    }
  }

  lemma PositionsPathSound(rest: string)
    requires RoutePositions(rest).Some?
    ensures PortfolioPrefix + rest == EndpointPath(RoutePositions(rest).value)
  {
    RoutePositionsSound(rest);
  }

  lemma SnapshotPathSound(rest: string)
    requires RouteSnapshot(rest).Some?
    ensures SnapshotPrefix + rest == EndpointPath(RouteSnapshot(rest).value)
  {
    RouteSnapshotSound(rest);
  }

  lemma HistoryPathSound(rest: string)
    ensures RouteHistory(rest).Some? ==> HistoryPrefix + rest == EndpointPath(RouteHistory(rest).value)
  {
    RouteHistorySound(rest);
  }

  lemma RoutePathSound(path: string)
    requires RoutePath(path).Some?
    ensures path == EndpointPath(RoutePath(path).value)
  {
    if path == AccountsPath || path == PortfolioAccountsPath {
    } else if PortfolioPrefix <= path {
      var rest := path[|PortfolioPrefix|..];
      assert path == PortfolioPrefix + rest;
      PositionsPathSound(rest);
    } else if SnapshotPrefix <= path {
      var rest := path[|SnapshotPrefix|..];
      assert path == SnapshotPrefix + rest;
      SnapshotPathSound(rest);
    } else {
      var rest := path[|HistoryPrefix|..];
      assert path == HistoryPrefix + rest;
      HistoryPathSound(rest);
    }
  }

  /** Every URL the router accepts is the base followed by the rendering of the endpoint it routes to. */
  lemma RouteSound(base: string, url: string)
    requires Route(base, url).Some?
    ensures url == base + EndpointPath(Route(base, url).value)
  {
    RoutePathSound(StripPrefix(url, base).value);
  }

  /** The router accepts each endpoint under one URL only. */
  lemma RouteInjective(base: string, url: string, url': string)
    requires Route(base, url).Some?
    ensures Route(base, url) == Route(base, url') <==> url == url'
  {
    if Route(base, url) == Route(base, url') {
      RouteSound(base, url);
      RouteSound(base, url');
    }
  }

}
