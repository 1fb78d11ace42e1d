// A trading node on values: its own offers and their matches, the book of other nodes' offers, its orders and
// timeouts, and the handler of every state change.
module Node {
  import opened SwapTypes
  import opened Offers
  import opened OfferBook
  import opened OfferMachine
  import opened OfferDeals
  import opened Matching

  type OrderId = nat
  type Rate = r: real | 0.0 <= r witness 0.0

  // An offer of the node's own, made or taken.
  datatype Held = Held(terms: BasicOffer, role: Role, state: OfferState, proof: Option<Proof>)

  datatype Order = Order(id: OrderId, kind: OfferType, amount: int, price: Rate, lifetime: int, offers: seq<OfferId>)

  // timeouts: whether the greenlet kept for an offer id is still to fire.
  datatype Node = Node(
    offers: map<OfferId, Held>,
    matches: map<OfferId, Match>,
    book: Book,
    orders: map<OrderId, Order>,
    timeouts: map<OfferId, bool>,
    dispatched: seq<(OfferId, Dispatch)>)

  datatype Change =
    | OrderPlaced(id: OrderId, kind: OfferType, amount: int, price: Rate, lifetime: int, makeId: OfferId,
                  timeoutDate: int)
    | OfferTimeout(offerId: OfferId)
    | CommitmentProofCame(proof: Proof)
    | CancellationProofCame(offerId: OfferId)
    | OfferPublished(entry: Entry)
    | TakerCalled(offerId: OfferId, initiator: Address, takerProof: Proof)
    | TransferReceived(offerId: OfferId)
    | TimeoutFired(offerId: OfferId)   // the greenlet ends; its OfferTimeout is on the way
    | OfferTaken(offerId: OfferId)   // the broadcast of a taken offer, told by its own listener

  const EMPTY := Node(map[], map[], Book([], []), map[], map[], [])

  // --- timeouts ------------------------------------------------------------------------------------------

  // Refused when the greenlet kept for this id has already ended.
  predicate CanRenew(n: Node, id: OfferId) { id in n.timeouts ==> n.timeouts[id] }

  // --- one offer -------------------------------------------------------------------------------------------

  function DealOf(n: Node, id: OfferId): Deal
    requires id in n.offers
  {
    Deal(n.offers[id].state, n.offers[id].proof, if id in n.matches then Some(n.matches[id]) else None)
  }

  function Tagged(id: OfferId, ds: seq<Dispatch>): seq<(OfferId, Dispatch)> {
    seq(|ds|, i requires 0 <= i < |ds| => (id, ds[i]))
  }

  function WithDeal(n: Node, id: OfferId, d: Deal, ds: seq<Dispatch>): Node
    requires id in n.offers
  {
    n.(offers := n.offers[id := n.offers[id].(state := d.state, proof := d.proof)],
       matches := if d.matched.Some? then n.matches[id := d.matched.value] else n.matches,
       dispatched := n.dispatched + Tagged(id, ds))
  }

  // None: the handler raised.
  function Reacting(n: Node, id: OfferId, r: Reaction): Option<Node>
    requires id in n.offers
  {
    if r.Raises? then None else Some(WithDeal(n, id, r.deal, r.dispatched))
  }

  // --- orders ----------------------------------------------------------------------------------------------

  // An offer joins its order and is initiated.
  function AddToOrder(n: Node, order: OrderId, h: Held): Node
    requires order in n.orders
  {
    var id := h.terms.id;
    n.(offers := n.offers[id := h.(state := Unproved)],
       orders := n.orders[order := n.orders[order].(offers := n.orders[order].offers + [id])],
       dispatched := n.dispatched + [(id, Commit)])
  }

  function TakeOne(n: Node, order: OrderId, e: Entry): Option<Node>
    requires order in n.orders
  {
    if !CanRenew(n, e.offer.id) || !n.book.Contains(e.offer.id) then None
    else
      var n1 := n.(timeouts := n.timeouts[e.offer.id := true],
                   matches := n.matches[e.offer.id := Match(Taker, e.initiator, e.proof)],
                   book := n.book.Remove(e.offer.id));
      Some(AddToOrder(n1, order, Held(e.offer, Taker, Created, None)))
  }

  function TakeAll(n: Node, order: OrderId, taken: seq<Entry>): (r: Option<Node>)
    requires order in n.orders
    ensures r.Some? ==> order in r.value.orders
  {
    if taken == [] then Some(n)
    else
      var before := TakeAll(n, order, taken[..|taken| - 1]);
      if before.None? then None else TakeOne(before.value, order, taken[|taken| - 1])
  }

  // Taking an offer whose timeout has run out already raises once the offer is registered.
  function Abandoned(n: Node, e: Entry): Node {
    n.(offers := n.offers[e.offer.id := Held(e.offer, Taker, Created, None)])
  }

  // The node when the loop over the takes ends or raises.
  function LeftByTakes(n: Node, order: OrderId, taken: seq<Entry>): Node
    requires order in n.orders
  {
    if taken == [] then n
    else
      var front, last := taken[..|taken| - 1], taken[|taken| - 1];
      var before := TakeAll(n, order, front);
      if before.None? then LeftByTakes(n, order, front)
      else
        var after := TakeOne(before.value, order, last);
        if after.Some? then after.value else Abandoned(before.value, last)
  }

  function MakeOffer(n: Node, order: OrderId, left: Positive, makeId: OfferId, timeoutDate: int): Option<Node>
    requires order in n.orders
  {
    if !CanRenew(n, makeId) then None
    else
      var o := n.orders[order];
      var terms := BasicOffer(makeId, o.kind, left, (left as real * o.price).Floor, timeoutDate);
      Some(AddToOrder(n.(timeouts := n.timeouts[makeId := true]), order, Held(terms, Maker, Created, None)))
  }

  // Takes what matches and makes an offer of the rest.
  function FillOrder(n: Node, order: OrderId, makeId: OfferId, timeoutDate: int): Option<Node>
    requires order in n.orders
  {
    var o := n.orders[order];
    var (taken, left) := Matches(n.book, o.price, o.kind, o.amount);
    var n1 := TakeAll(n, order, taken);
    if n1.None? || left <= 0 then n1 else MakeOffer(n1.value, order, left, makeId, timeoutDate)
  }

  function ProcessOrder(n: Node, o: Order, makeId: OfferId, timeoutDate: int): Option<Node> {
    FillOrder(n.(orders := n.orders[o.id := o]), o.id, makeId, timeoutDate)
  }

  // The node when processing an order ends or raises.
  function LeftByFill(n: Node, order: OrderId, makeId: OfferId, timeoutDate: int): Node
    requires order in n.orders
  {
    var o, done := n.orders[order], FillOrder(n, order, makeId, timeoutDate);
    if done.Some? then done.value else LeftByTakes(n, order, Matches(n.book, o.price, o.kind, o.amount).0)
  }

  function LeftByOrder(n: Node, o: Order, makeId: OfferId, timeoutDate: int): Node {
    LeftByFill(n.(orders := n.orders[o.id := o]), o.id, makeId, timeoutDate)
  }

  // --- the handlers ------------------------------------------------------------------------------------------

  function Forgetting(n: Option<Node>, id: OfferId): Option<Node> {
    if n.None? then None else Some(n.value.(timeouts := n.value.timeouts - {id}))
  }

  function HandleOfferTimeout(n: Node, id: OfferId): Option<Node> {
    if id in n.offers then Forgetting(Reacting(n, id, OnTimeout(DealOf(n, id))), id)
    else if n.book.Contains(id) then Forgetting(Some(n.(book := n.book.Remove(id))), id)
    else Forgetting(Some(n), id)
  }

  function HandleOfferPublished(n: Node, e: Entry): Option<Node> {
    if e.offer.id in n.offers then Reacting(n, e.offer.id, OnPublished(DealOf(n, e.offer.id)))
    else if !CanRenew(n, e.offer.id) then None
    else Some(n.(book := n.book.Insert(e), timeouts := n.timeouts[e.offer.id := true]))
  }

  function HandleTransferReceived(n: Node, id: OfferId): Option<Node> {
    var n' := if id in n.offers then Reacting(n, id, OnTransfer(DealOf(n, id))) else None;
    if n'.Some? && n'.value.offers[id].state == Completed then Forgetting(n', id) else n'
  }

  function HandleCommitmentProof(n: Node, proof: Proof): Option<Node> {
    var id := proof.offerId;
    if id in n.offers then Reacting(n, id, OnCommitmentProof(DealOf(n, id), proof)) else None
  }

  function HandleCancellationProof(n: Node, id: OfferId): Option<Node> {
    if id in n.offers then Reacting(n, id, OnCancellationProof(DealOf(n, id))) else None
  }

  function HandleTakerCall(n: Node, id: OfferId, initiator: Address, proof: Proof): Option<Node> {
    if id in n.offers then Reacting(n, id, OnTakerCall(DealOf(n, id), initiator, proof)) else None
  }

  function ForgetTaken(n: Node, id: OfferId): Node {
    if n.book.Contains(id) then n.(book := n.book.Remove(id)) else n
  }

  function Handle(n: Node, c: Change): Option<Node> {
    match c
    case OrderPlaced(id, kind, amount, price, lifetime, makeId, timeoutDate) =>
      ProcessOrder(n, Order(id, kind, amount, price, lifetime, []), makeId, timeoutDate)
    case OfferTimeout(id) => HandleOfferTimeout(n, id)
    case CommitmentProofCame(proof) => HandleCommitmentProof(n, proof)
    case CancellationProofCame(id) => HandleCancellationProof(n, id)
    case OfferPublished(e) => HandleOfferPublished(n, e)
    case TakerCalled(id, initiator, proof) => HandleTakerCall(n, id, initiator, proof)
    case TransferReceived(id) => HandleTransferReceived(n, id)
    case TimeoutFired(id) => Some(if id in n.timeouts then n.(timeouts := n.timeouts[id := false]) else n)
    case OfferTaken(id) => Some(ForgetTaken(n, id))
  }
}
