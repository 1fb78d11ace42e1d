// Offers on the wire and the payments they lead to.
module Market {
  import opened SwapTypes
  import opened Offers
  import opened OfferDeals
  import opened Node
  import opened NodeLaws

  type Token = nat

  datatype TokenPair = TokenPair(base: Token, quote: Token) {
    function GetOfferType(ask: Token, bid: Token): Option<OfferType> {
      if ask == base && bid == quote then Some(Buy)
      else if ask == quote && bid == base then Some(Sell)
      else None
    }
  }

  datatype SwapOffer = SwapOffer(askToken: Token, askAmount: nat, bidToken: Token, bidAmount: nat, id: OfferId,
                                 timeout: int)

  function CreateOfferMsg(o: BasicOffer, market: TokenPair): SwapOffer {
    if o.kind == Sell then SwapOffer(market.quote, o.quote, market.base, o.base, o.id, o.timeout)
    else SwapOffer(market.base, o.base, market.quote, o.quote, o.id, o.timeout)
  }

  // None: not a pair of this market, or an offer without a price.
  function Transform(m: SwapOffer, market: TokenPair): Option<BasicOffer> {
    match market.GetOfferType(m.askToken, m.bidToken)
    case None => None
    case Some(Buy) =>
      if m.askAmount == 0 then None else Some(BasicOffer(m.id, Buy, m.askAmount, m.bidAmount, m.timeout))
    case Some(Sell) =>
      if m.bidAmount == 0 then None else Some(BasicOffer(m.id, Sell, m.bidAmount, m.askAmount, m.timeout))
  }

  // What was sent is what is read, exactly when the market's tokens differ or the offer buys.
  lemma OfferRoundTrip(o: BasicOffer, market: TokenPair)
    ensures Transform(CreateOfferMsg(o, market), market) == Some(o) <==> market.base != market.quote || o.kind == Buy
  {
  }

  // And the other way: a message that can be read is the message of what was read.
  lemma MessageRoundTrip(m: SwapOffer, market: TokenPair)
    requires market.base != market.quote && Transform(m, market).Some?
    ensures CreateOfferMsg(Transform(m, market).value, market) == m
  {
  }

  // --- payments ------------------------------------------------------------------------------------------

  predicate PaysQuote(role: Role, kind: OfferType) { (role.Maker? && kind.Buy?) || (role.Taker? && kind.Sell?) }

  function SendAmount(role: Role, o: BasicOffer): nat { if PaysQuote(role, o.kind) then o.quote else o.base }

  function SendToken(role: Role, o: BasicOffer, market: TokenPair): Token {
    if PaysQuote(role, o.kind) then market.quote else market.base
  }

  // The maker pays what its message bids, the taker what it asks.
  lemma PaymentSides(o: BasicOffer, market: TokenPair)
    ensures var m := CreateOfferMsg(o, market);
            && SendToken(Maker, o, market) == m.bidToken && SendAmount(Maker, o) == m.bidAmount
            && SendToken(Taker, o, market) == m.askToken && SendAmount(Taker, o) == m.askAmount
  {
  }

  // Whatever an order takes or makes, a buy order pays quote tokens and a sell order base tokens.
  lemma OrderPaysOneToken(n: Node, o: Order, makeId: OfferId, timeoutDate: int, id: OfferId, market: TokenPair)
    requires Registry(n) && o.offers == [] && FreshId(n, makeId)
    requires ProcessOrder(n, o, makeId, timeoutDate).Some?
    requires id in ProcessOrder(n, o, makeId, timeoutDate).value.orders[o.id].offers
    ensures var n' := ProcessOrder(n, o, makeId, timeoutDate).value;
            && id in n'.offers
            && SendToken(n'.offers[id].role, n'.offers[id].terms, market)
               == if o.kind == Buy then market.quote else market.base
  {
    OrderSides(n, o, makeId, timeoutDate, id);
  }
}
