/** A tradable security attached to a broker account (security.go). */
module Securities {
  import opened Broker
  import opened Portfolio

  datatype Security = Security(broker: BrokerAccount, conid: int)

  /** `BrokerAccount.Security`: the position's contract under the given broker account. */
  function SecurityOf(ba: BrokerAccount, p: Position): (r: Security)
    ensures r.broker == ba
    ensures r.conid == p.conid
  {
    Security(ba, p.conid)
  }

  /**
   Of the position only the contract id is consulted: two calls give the
   same security exactly when the broker accounts and the contract ids
   agree, whatever the positions' other fields.
   */
  lemma SecurityDependsOnlyOnConid(ba: BrokerAccount, p: Position, ba': BrokerAccount, q: Position)
    ensures SecurityOf(ba, p) == SecurityOf(ba', q) <==> ba == ba' && p.conid == q.conid
  {
  }

}
