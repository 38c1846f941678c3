/**
 Portfolios and positions (portfolio.go): listing the portfolio accounts,
 fetching the positions of one of them, and filtering positions by asset
 class.
 */
module Portfolio {
  import opened Wrappers
  import opened Strings
  import opened Http
  import opened Endpoints

  /** A portfolio account, as decoded from the portfolio-accounts reply. */
  datatype Portfolio = Portfolio(
    id: string, accountId: string, accountVan: string, accountTitle: string,
    displayName: string, accountStatus: int, currency: string, accountType: string,
    tradingType: string, faclient: bool, clearingStatus: string, desc: string,
    covestor: bool)

  /** A held position, as decoded from the positions reply. */
  datatype Position = Position(
    acctId: string, conid: int, contractDesc: string, currency: string,
    expiry: string, multiplier: string, assetClass: string, undConid: int,
    model: string, time: int, name: string, lastTradingDay: string,
    ticker: string, positionType: string, undComp: string, undSym: string,
    fullName: string, pageSize: int, chineseName: string)

  /** An asset-class tag; the gateway may send tags beyond the two declared here. */
  type AssetClass = string

  const Futures: AssetClass := "FUT"
  const Stocks: AssetClass := "STK"

  /** `Portfolios`: one GET of the portfolio-accounts endpoint. */
  function Portfolios(base: string, log: seq<Request>, server: seq<Request> -> seq<Portfolio>)
    : (r: Reply<seq<Portfolio>>)
    ensures AppendsGets(log, r.log, 1)
    ensures r.log[|log|].url == base + EndpointPath(PortfolioAccounts)
    ensures Route(base, r.log[|log|].url) == Some(PortfolioAccounts)
    ensures r.value == server(r.log)
  {
    RouteUnderBase(base, "/api/portfolio/accounts");
    Fetch(log, base + "/api/portfolio/accounts", server)
  }

  /** `Portfolio.Positions`: one GET of page 0 of the portfolio's positions. */
  function Positions(p: Portfolio, base: string, log: seq<Request>, server: seq<Request> -> seq<Position>)
    : (r: Reply<seq<Position>>)
    ensures AppendsGets(log, r.log, 1)
    ensures r.log[|log|].url == base + EndpointPath(PositionsPage(p.accountId, 0))
    ensures Route(base, r.log[|log|].url) == Some(PositionsPage(p.accountId, 0))
    ensures r.value == server(r.log)
  {
    PositionsUrlRoutes(base, p.accountId);
    Fetch(log, base + "/api/portfolio/" + p.accountId + "/positions/0", server)
  }

  /** The positions URL is the gateway's path for page 0 of the account, and it routes back to it. */
  lemma PositionsUrlRoutes(base: string, accountId: string)
    ensures base + "/api/portfolio/" + accountId + "/positions/0" == base + EndpointPath(PositionsPage(accountId, 0))
    ensures Route(base, base + "/api/portfolio/" + accountId + "/positions/0")
            == Some(PositionsPage(accountId, 0))
  {
    assert Itoa(0) == "0";
    var tail := PositionsSegment + ['/'] + "0";
    assert "/positions/0" == tail;
    ConcatAssoc(accountId + PositionsSegment, ['/'], "0");
    ConcatAssoc(accountId, PositionsSegment, ['/'] + "0");
    ConcatAssoc(base + PortfolioPrefix, accountId, tail);
    ConcatAssoc(base, PortfolioPrefix, accountId + tail);
    RoutePositionsRenders(base, accountId, 0);
  }

  /**
   The positions request names the account and nothing else of the
   portfolio: two portfolios issue the same request exactly when their
   account ids agree.
   */
  lemma PositionsRequestIdentifiesAccount(p: Portfolio, q: Portfolio, base: string, log: seq<Request>,
                                          server: seq<Request> -> seq<Position>)
    ensures Positions(p, base, log, server) == Positions(q, base, log, server) <==> p.accountId == q.accountId
  {
    var rp := Positions(p, base, log, server);
    var rq := Positions(q, base, log, server);
    if rp == rq {
      assert Route(base, rp.log[|log|].url) == Route(base, rq.log[|log|].url);
    }
  }

  // ---------------------------------------------------------------------------
  // Filtering

  /** True iff `r` can be obtained from `p` by deleting elements, keeping the order of the rest. */
  predicate IsSubsequence(r: seq<Position>, p: seq<Position>)
    decreases |p|
  {
    || |r| == 0
    || (&& |p| > 0
        && ((r[0] == p[0] && IsSubsequence(r[1..], p[1..])) || IsSubsequence(r, p[1..])))
  }

  /**
   `Positions.FilterAssets`: the positions tagged `a`, in their original
   order, each as many times as it occurs in `p`.
   */
  function FilterAssets(p: seq<Position>, a: AssetClass): (r: seq<Position>)
    ensures |r| <= |p|
    ensures forall i :: 0 <= i < |r| ==> r[i].assetClass == a
    ensures forall x :: multiset(r)[x] == if x.assetClass == a then multiset(p)[x] else 0
    ensures IsSubsequence(r, p)
    decreases |p|
  {
    if |p| == 0 then []
    else
      var rest := FilterAssets(p[1..], a);
      assert p == [p[0]] + p[1..];
      if p[0].assetClass == a then
        assert ([p[0]] + rest)[1..] == rest;
        [p[0]] + rest
      else rest
  }

  /** A position is kept exactly when it is in the input and tagged `a`. */
  lemma FilterAssetsMembers(p: seq<Position>, a: AssetClass)
    ensures forall x :: x in FilterAssets(p, a) <==> x in p && x.assetClass == a
  {
    var r := FilterAssets(p, a);
    forall x
      ensures x in r <==> x in p && x.assetClass == a
    {
      assert x in r <==> multiset(r)[x] > 0;
      assert x in p <==> multiset(p)[x] > 0;
    }
  }

  lemma {:induction false} FilterAssetsKeepsMatching(q: seq<Position>, a: AssetClass)
    requires forall i :: 0 <= i < |q| ==> q[i].assetClass == a
    ensures FilterAssets(q, a) == q
    decreases |q|
  {
    if |q| > 0 {
      FilterAssetsKeepsMatching(q[1..], a);
      assert q == [q[0]] + q[1..];
    }
  }

  /** Filtering twice by the same class is filtering once. */
  lemma {:induction false} FilterAssetsIdempotent(p: seq<Position>, a: AssetClass)
    ensures FilterAssets(FilterAssets(p, a), a) == FilterAssets(p, a)
  {
    FilterAssetsKeepsMatching(FilterAssets(p, a), a);
  }

  /** The futures and the stocks of a position list have no position in common. */
  lemma FuturesAndStocksDisjoint(p: seq<Position>)
    ensures forall x :: x in FilterAssets(p, Futures) ==> x !in FilterAssets(p, Stocks)
  {
  }

}
