# ibclient in Dafny

A model of the Go client binding `ibclient` for a brokerage's web trading
gateway. The model covers the logic the client adds around its HTTP calls:

- **Requests.** `Brokers`, `Portfolios`, `Portfolio.Positions`,
  `Security.Historical` and `Security.Snapshot` build a URL against a
  configurable base URL and issue GETs. The base URL is an explicit
  parameter, not process-wide state. Every fetch appends the requests it
  issues to a request log (`Http.Request(verb, url)`), and its result is the
  decoded reply to the last request. Transport and JSON decoding together
  are one oracle, `server: seq<Request> -> T`. It sees the whole log, so the
  two identical snapshot GETs may be answered differently.
- **Reading URLs back.** `Endpoints.EndpointPath` renders an endpoint of the
  gateway's endpoint table as a path, with numbers written as
  `strconv.Itoa` writes them. `Endpoints.Route(base, url)` is a router that
  reads a URL back into the endpoint and its parameters. It accepts numbers
  only in that canonical form, so it accepts each endpoint under one URL
  only (`RouteSound`, `RouteInjective`), and renderings route back
  (`RouteEndpointPath`). Each fetch proves that its URL is the rendering of
  its own arguments and routes back to them: the contract id, the
  comma-joined field codes, the magnitude and unit of the period and of the
  bar, the account id, and page 0.
- **Pure projections.** `Positions.FilterAssets` is an order-preserving
  filter. `Historical.ToDataFrame` turns bars into six index-aligned
  columns. `BrokerAccounts.Selected` and `BrokerAccount.Security` are record
  projections.

Modules follow the Go files: `Broker` (broker.go), `Portfolio`
(portfolio.go), `Securities` (security.go) and `MarketData` (data.go). They
rest on `Strings` (Go's `strconv.Itoa` and `strings.Join`, plus the number
reader and `Split`, which the router uses to read URLs back), `Http` (the
request log) and `Endpoints` (the endpoint table and the router).

`TimeUnit`, `MarketDataField` and `AssetClass` are named string types in Go,
so any string can be passed. The model keeps them as `string` and states
properties of the declared constants separately. The 54 declared market-data
fields are the datatype `MarketData.Field`, and `Code` gives each field's
numeric code.

## Model

| member | source | states |
|---|---|---|
| Strings.Itoa | data.go:89 | decimal rendering of an integer as `strconv.Itoa` writes it: a numeral with no leading zero except "0" itself, preceded by '-' exactly for negative numbers, never "-0", and always ending in a digit |
| Strings.ReadIntItoa | data.go:89 | reading a number back from `Itoa(n) + rest` gives `n` and leaves `rest`, for every integer `n`, whenever `rest` does not start with a digit |
| Strings.ReadIntSound | data.go:89 | whatever the number reader accepts is a number exactly as `Itoa` writes it, followed by the rest: no leading zeros and no "-0" |
| Strings.ReadIntExactly | data.go:89 | the reader gives `n` and `rest` iff the text is `Itoa(n)` followed by `rest` and `rest` does not start with a digit |
| Strings.NumberWithSuffixInjective | data.go:89 | a magnitude followed by a suffix that does not start with a digit is written uniquely: equal strings iff equal magnitudes and equal suffixes |
| Strings.Join | data.go:218 | `strings.Join` with a one-character separator: no parts give "", the result starts with the first part, and with parts free of the separator it holds the separator iff there are two or more parts; its contents are pinned by `SplitJoin` and `SplitJoinPieces` |
| Strings.JoinSplit | data.go:218 | joining the pieces of a split gives the string back, for every string |
| Strings.SplitJoinPieces | data.go:218 | for every non-empty list of parts, splitting their join gives the pieces of each part in order |
| Strings.SplitJoin | data.go:214-218 | splitting a comma join on ',' recovers the parts, for every non-empty list whose parts hold no ',' |
| Strings.JoinEmpty | data.go:214-218 | a join of non-empty parts is empty iff there are no parts |
| Endpoints.RouteEndpointPath | data.go:89 | the router reads the rendering of every endpoint back to that endpoint (the accounts, portfolio-accounts, positions, snapshot and history URLs of broker.go:49, portfolio.go:37, portfolio.go:100, data.go:221 and data.go:89), provided its field codes are non-empty without ',' and its units can be delimited |
| Endpoints.RouteSound | data.go:89 | every URL the router accepts is `base` followed by the rendering of the endpoint it routes to |
| Endpoints.RouteInjective | data.go:89 | two URLs route to the same endpoint iff they are the same URL, for every URL the router accepts |
| Http.Fetch | data.go:87-92 | one GET: the log grows by exactly one GET of the given URL and the result is the server's reply to the extended log |
| Broker.Brokers | broker.go:46-59 | exactly one GET is appended to the log; its URL is `base` followed by the accounts path of the endpoint table and routes to the accounts endpoint; the result is the reply to it |
| Broker.Selected | broker.go:61-66 | total: the selected account's id is `selectedAccount`, empty included, with no check against `accounts` |
| Broker.SelectedDependsOnlyOnSelectedAccount | broker.go:61-66 | two account listings give the same selected account iff their `selectedAccount` agree, whatever their accounts, chart periods and features |
| Portfolio.Portfolios | portfolio.go:34-47 | exactly one GET is appended; its URL is `base` followed by the portfolio-accounts path and routes to that endpoint; the result is the reply to it |
| Portfolio.Positions | portfolio.go:97-110 | exactly one GET is appended; its URL is `base` followed by the endpoint table's path for page 0 of the portfolio's account id, and routes back to exactly that account and page 0 (no other URL routes there, by `Endpoints.RouteInjective`); the result is the reply to it |
| Portfolio.PositionsUrlRoutes | portfolio.go:100 | the positions URL is the endpoint table's path for (account id, page 0), and reads back as that account id and page 0, for every account id, including ones holding '/' |
| Portfolio.PositionsRequestIdentifiesAccount | portfolio.go:97-100 | two portfolios issue the same positions request iff their account ids agree: no other field is consulted, and distinct accounts give distinct URLs |
| Portfolio.FilterAssets | portfolio.go:123-131 | the result is no longer than the input, every element is tagged with the class, each position tagged with the class occurs as often as in the input and no other occurs, and the result is a subsequence of the input (original order kept) |
| Portfolio.FilterAssetsMembers | portfolio.go:125-129 | a position is in the result iff it is in the input and tagged with the class |
| Portfolio.FilterAssetsKeepsMatching | portfolio.go:123-131 | a list all tagged with the class is returned unchanged |
| Portfolio.FilterAssetsIdempotent | portfolio.go:123-131 | filtering the result again by the same class returns it unchanged |
| Portfolio.FuturesAndStocksDisjoint | portfolio.go:115-131 | no position is both in the futures ("FUT") and in the stocks ("STK") of a list |
| Securities.SecurityOf | security.go:10-16 | total: the security's broker is the given account and its contract id is the position's |
| Securities.SecurityDependsOnlyOnConid | security.go:10-16 | two calls give the same security iff the broker accounts and the positions' contract ids agree, whatever the positions' other fields |
| MarketData.TimeUnitCodes | data.go:70-83 | the six declared units "min", "h", "d", "w", "m", "y" are pairwise distinct, non-empty lower-case words |
| MarketData.DurationParameterInjective | data.go:70-89 | with declared units, `Itoa(n) + u` equals `Itoa(m) + v` iff n = m and u = v, so distinct (magnitude, unit) pairs give distinct `period`/`bar` values |
| MarketData.HistoryUrl | data.go:89 | the history URL the client builds is `base` followed by the endpoint table's path for the query, with conid, period magnitude and unit, bar magnitude and unit written unchanged in that order, for every input; which URL that is, is read back by `HistoryUrlRoutes` |
| MarketData.HistoryUrlRoutes | data.go:89 | the history URL reads back as conid, period magnitude and unit, bar magnitude and unit, in that order, for every integer magnitude |
| MarketData.FetchHistorical | data.go:86-98 | exactly one GET is appended; its URL is `base` followed by the endpoint table's path for the given parameters, for every input, with no range check on the magnitudes; with units the router can delimit it routes back to exactly those parameters; the result is the reply to it |
| MarketData.HistoryRequestsDistinct | data.go:89 | with declared units, two history URLs are equal iff all five parameters agree |
| MarketData.ToDataFrame | data.go:25-42 | six columns named time, open, close, high, low, volume in that order, each with exactly one entry per bar, and row i read back is bar i (none for no bars) |
| MarketData.Code | data.go:155-210 | the 54-entry table of declared field codes; its contract states only that each code has two or four characters and does not start with '0'; which code each field gets is pinned by `FieldOfCode` against the lookup `FieldOf` |
| MarketData.FieldCodeNumeric | data.go:155-210 | every declared field code is a numeral without leading zero, so it holds no ',' |
| MarketData.FieldOfCode | data.go:155-210 | reading a declared field's code back as a field name gives that field again |
| MarketData.FieldCodesDistinct | data.go:155-210 | two declared fields have the same code iff they are the same field |
| MarketData.FieldsParameter | data.go:214-218 | no fields give ""; for any non-empty list of strings, splitting the parameter on ',' gives the pieces of each code in argument order (so a code holding ',' comes back in pieces and an empty code as an empty piece); for non-empty codes the parameter is empty iff there are no fields; for a non-empty list of codes without ',' the split gives the list back |
| MarketData.DeclaredFieldsShaped | data.go:155-210 | codes of declared fields are non-empty and hold no ',' |
| MarketData.DeclaredFieldsRoundTrip | data.go:155-218 | for a non-empty list of declared fields, splitting the `fields` parameter on ',' recovers their codes |
| MarketData.SnapshotUrl | data.go:214-221 | the snapshot URL is `base` followed by the endpoint table's path for the contract id and the comma-joined codes in argument order, for every field list; which URL that is, is read back by `SnapshotUrlRoutes` |
| MarketData.SnapshotUrlRoutes | data.go:221 | the snapshot URL reads back as the contract id and the requested field codes in order, for field lists without empty codes or ',' |
| MarketData.FetchSnapshot | data.go:213-239 | exactly two GETs are appended, both to the same URL, which is `base` followed by the endpoint table's path for the contract id and the fields, for every field list; for field lists without empty codes or ',' it routes back to exactly them; the result is the reply to the log ending with the second request |
| MarketData.SnapshotIgnoresFirstReply | data.go:225-238 | the result depends only on the reply to the second request: servers that agree on it give the same result, however they answer the first |

## Left out

- ib.go is not part of this model. `KeepAlive` and `Authenticate` are bare POSTs whose replies are not read. `SetBaseURL` writes a package-global; the base URL is a parameter of every fetch instead.
- schedule.go is not part of this model: its ticker, goroutine and quit channel are concurrency and timing.
- JSON decoding (`encoding/json`, the struct tags, the `,string` snapshot tags) is a foreign library. Decoded records are values supplied by the `server` oracle. So the behaviour "an empty bar list decodes to zero bars" is not modelled.
- Transport failures and the `log.Panic` error paths are not modelled. Every request is answered. TLS settings and the per-call `resty` client are not modelled either.
- Floating-point semantics: bar prices are values of an arbitrary type `F` and are only copied. The snapshot record is an arbitrary type `S`. The float64 and `interface{}` fields of `Position` and the `interface{}` fields of `Portfolio` are dropped, because no modelled operation reads them.
- The internals of the dataframe library are not modelled. A frame is a sequence of named series.
- Go's `int` is at most 64 bits wide. The model uses unbounded integers. No modelled operation does arithmetic on them, and `strconv.Itoa` is exact for every 64-bit value, so no wrap-around is lost.
- Go distinguishes a nil slice from an empty one. `FilterAssets` always returns a non-nil slice, which the model cannot express: an empty input gives the empty sequence.
- examples/historical/main.go is a usage example. It calls `Historical()` with no arguments, which does not match the four-argument method in data.go. It is not modelled.
- MarketData.FetchHistorical: the routing ensures is stated only when the period unit does not start with a digit and holds no '&', and the bar unit does not start with a digit. With other strings the URL is still issued and is still stated exactly, but it cannot be read back unambiguously. Every declared unit meets this condition (`TimeUnitCodes`).
- MarketData.FetchSnapshot: the routing ensures is stated only for field lists with no empty code and no ','. Otherwise the comma-joined parameter cannot be split back, although the URL is still stated exactly. Every declared field meets this condition (`DeclaredFieldsShaped`).
- The request log records the URL string handed to the HTTP client, not the request it sends. Go's `url.Parse` drops a '#…' fragment before sending, and a malformed '%' escape in an account id, unit or field code makes `Get` fail, which ends in `log.Panic`. Neither is modelled.
- The router is this model's reading of the gateway's endpoint table, not the gateway itself. It reads an account id holding '/' as one id, taking the page from the last segment, and it accepts numbers only as `strconv.Itoa` writes them, without leading zeros and never "-0". Whether the gateway reads such URLs the same way is not modelled.
