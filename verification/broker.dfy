/**
 Brokerage accounts (broker.go): the accounts listing and the projection of
 the currently selected account out of it.
 */
module Broker {
  import opened Wrappers
  import opened Http
  import opened Endpoints

  /** The chart periods the gateway offers, one list per asset class. */
  datatype ChartPeriods = ChartPeriods(
    stk: seq<string>, cfd: seq<string>, opt: seq<string>, fop: seq<string>,
    war: seq<string>, iopt: seq<string>, fut: seq<string>, cash: seq<string>,
    ind: seq<string>, bond: seq<string>, fund: seq<string>, cmdty: seq<string>,
    physs: seq<string>)

  datatype AllowFeatures = AllowFeatures(
    showGFIS: bool, allowFXConv: bool, allowTypeAhead: bool,
    snapshotRefreshTimeout: int, liteUser: bool, showWebNews: bool,
    research: bool, debugPnl: bool, showTaxOpt: bool)

  /** The decoded reply of the accounts endpoint. */
  datatype BrokerAccounts = BrokerAccounts(
    accounts: seq<string>,
    chartPeriods: ChartPeriods,
    selectedAccount: string,
    allowFeatures: AllowFeatures)

  datatype BrokerAccount = BrokerAccount(id: string)

  /** `Brokers`: one GET of the accounts endpoint; its decoded reply is the result. */
  function Brokers(base: string, log: seq<Request>, server: seq<Request> -> BrokerAccounts)
    : (r: Reply<BrokerAccounts>)
    ensures AppendsGets(log, r.log, 1)
    ensures r.log[|log|].url == base + EndpointPath(Accounts)
    ensures Route(base, r.log[|log|].url) == Some(Accounts)
    ensures r.value == server(r.log)
  {
    RouteUnderBase(base, "/api/iserver/accounts");
    Fetch(log, base + "/api/iserver/accounts", server)
  }

  /** `BrokerAccounts.Selected`: the account named by `selectedAccount`, whatever it is. */
  function Selected(ba: BrokerAccounts): (r: BrokerAccount)
    ensures r.id == ba.selectedAccount
  {
    BrokerAccount(ba.selectedAccount)
  }

  /**
   `Selected` consults `selectedAccount` and nothing else: two listings give
   the same account exactly when their selected ids agree, whatever their
   account lists, chart periods and features (so the id need not be listed).
   */
  lemma SelectedDependsOnlyOnSelectedAccount(ba: BrokerAccounts, ba': BrokerAccounts)
    ensures Selected(ba) == Selected(ba') <==> ba.selectedAccount == ba'.selectedAccount
  {
  }

}
