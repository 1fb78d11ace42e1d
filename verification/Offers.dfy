// Offers as terms of a trade, and entries of the offer book.
module Offers {
  import opened SwapTypes

  datatype OfferType = Buy | Sell {
    function Opposite(): OfferType { if Buy? then Sell else Buy }
  }

  // A base amount of zero has no price; the book cannot hold such an offer.
  type Positive = x: int | 0 < x witness 1

  datatype BasicOffer = BasicOffer(id: OfferId, kind: OfferType, base: Positive, quote: nat, timeout: int)

  function Price(o: BasicOffer): real { o.quote as real / o.base as real }

  datatype Entry = Entry(offer: BasicOffer, initiator: Address, proof: Proof)

  function BaseAmount(e: Entry): int { e.offer.base }
}
