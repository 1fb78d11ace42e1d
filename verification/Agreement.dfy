// One offer, its maker, any number of takers and the commitment service, all running their own code, joined
// by a network that delays, reorders, drops and repeats. Who may end up completed or canceled together?
module Agreement {
  import opened SwapTypes
  import S = Service
  import O = OfferMachine
  import opened OfferDeals

  // Whatever was once handed to the network. Anyone may ask the service to cancel, so such requests are not
  // tracked.
  datatype Packet =
    | CommitMsg(from: Address)
    | Deposit(from: Address)
    | Broadcast(from: Address)
    | TakerOffer(from: Address, to: Address)
    | Executed(from: Address)
    | Payment(from: Address, to: Address)

  // A node's side of the offer: its deal, whether it waits for a taker's call, the initiators it has an inbound
  // filter for, and the initiators of the payments it was told of, in order.
  datatype Peer = Peer(deal: Deal, listening: bool, expects: set<Address>, inbound: seq<Address>)

  // deposited: senders whose deposit reached the service; a transfer is reported to it only once.
  datatype World = World(service: S.Service, peers: map<Address, Peer>, net: set<Packet>, deposited: set<Address>)

  // The offer, its maker, the service's own address, and whether the network may hold back a commitment until
  // the swap for the offer is processed.
  datatype Setting = Setting(offerId: OfferId, maker: Address, service: Address, late: bool)

  datatype News =
    | Offers
    | Takes(entryProof: Proof)
    | GetsProof(proof: Proof)
    | GetsCancellation(cancellation: Option<Proof>)
    | SeesOffer
    | Called(taker: Address, takerProof: Proof)
    | TimesOut
    | GetsPayment(from: Address)

  datatype Move = AtService(event: S.Event) | AtNode(node: Address, news: News)

  const NOTHING_YET := World(S.IDLE, map[], {}, {})

  // --- the service's side of the network ---------------------------------------------------------------------

  function Ended(w: World): bool { |w.service.swaps| > 0 && !w.service.swaps[0].swap.Live() }

  predicate Sent(w: World, m: Message, to: Address) {
    exists a :: a in w.service.swaps && Send(m, Some(to)) in a.ledger.sent
  }

  // The service paid, or may have paid, one of this node's receipts back.
  predicate PaidBack(w: World, node: Address) {
    exists a :: a in w.service.swaps && exists f :: f in a.ledger.refunded && f.receipt.initiator == node
  }

  // --- what may happen ---------------------------------------------------------------------------------------

  // Unless commitments may be late, none for the id reaches the service once its first swap is processed.
  predicate ReachesService(g: Setting, w: World, e: S.Event) {
    match e
    case GotCommitment(c, _, _) => CommitMsg(c.sender) in w.net && c.offerId == g.offerId && (g.late || !Ended(w))
    case GotReceipt(r) => Deposit(r.initiator) in w.net && r.initiator !in w.deposited && r.identifier == g.offerId
    case GotExecution(x, _) => Executed(x.sender) in w.net && x.offerId == g.offerId
    case GotCancellation(id) => id == g.offerId
    case TimerFired(_) => true
    case RefundStarted(_) => true
    case RefundAnswered(_, _) => true
  }

  ghost predicate ReachesNode(g: Setting, w: World, a: Address, n: News) {
    match n
    case Offers => a == g.maker && a !in w.peers
    case Takes(_) => a != g.maker && a != g.service && a !in w.peers && Broadcast(g.maker) in w.net
    case GetsProof(p) => a in w.peers && Sent(w, CommitmentProof(p), a)
    case GetsCancellation(p) => a in w.peers && Sent(w, CancellationProof(g.offerId, p), a)
    case SeesOffer => a in w.peers && Broadcast(g.maker) in w.net
    case Called(t, _) => a in w.peers && w.peers[a].listening && TakerOffer(t, a) in w.net
    case TimesOut => a in w.peers
    case GetsPayment(from) =>
      && a in w.peers && from in w.peers[a].expects
      && (Payment(from, a) in w.net || (from == g.service && PaidBack(w, a)))
  }

  // A dispatched event, carried out by the node's other components.
  function Carried(a: Address, d: Dispatch): set<Packet> {
    match d
    case Commit => {CommitMsg(a), Deposit(a)}
    case CommitmentProved => {}
    case CancellationRequest => {}
    case InboundReceived => {Executed(a)}
    case SwapInit(m) => {Payment(a, m.target)}
    case ExpectInbound(_) => {}
    case SendProvenOffer(None) => {Broadcast(a)}
    case SendProvenOffer(Some(t)) => {TakerOffer(a, t)}
  }

  function Filters(g: Setting, d: Dispatch): set<Address> {
    match d
    case InboundReceived => {g.service}
    case ExpectInbound(t) => {t}
    case _ => {}
  }

  function Noting(g: Setting, p: Peer, d: Dispatch): Peer {
    p.(expects := p.expects + Filters(g, d), listening := p.listening || d.CommitmentProved?)
  }

  function CarryOut(g: Setting, w: World, a: Address, p: Peer, ds: seq<Dispatch>): World
    decreases |ds|
  {
    if ds == [] then w.(peers := w.peers[a := p])
    else
      CarryOut(g, w.(net := w.net + Carried(a, ds[0])), a, Noting(g, p, ds[0]), ds[1..])
  }

  // A handler that raises leaves the node as it was, with nothing dispatched.
  function React(g: Setting, w: World, a: Address, p: Peer, r: Reaction): World {
    if r.Raises? then w else CarryOut(g, w, a, p.(deal := r.deal), r.dispatched)
  }

  const NEWCOMER := Peer(Deal(O.Created, None, None), false, {}, [])

  function Response(g: Setting, d: Deal, n: News): Reaction {
    match n
    case Offers => Begin(None)
    case Takes(proof) => Begin(Some(Match(Taker, g.maker, proof)))
    case GetsProof(p) => OnCommitmentProof(d, p)
    case GetsCancellation(_) => OnCancellationProof(d)
    case SeesOffer => OnPublished(d)
    case Called(t, proof) => OnTakerCall(d, t, proof)
    case TimesOut => OnTimeout(d)
    case GetsPayment(_) => OnTransfer(d)
  }

  // The listener for a taker takes one call; an inbound filter is used once.
  function Told(p: Peer, n: News): Peer {
    match n
    case Called(_, _) => p.(listening := false)
    case GetsPayment(from) => p.(expects := p.expects - {from}, inbound := p.inbound + [from])
    case _ => p
  }

  ghost function Step(g: Setting, w: World, mv: Move): World {
    match mv
    case AtService(e) =>
      if ReachesService(g, w, e) then
        w.(service := S.Step(w.service, e),
           deposited := if e.GotReceipt? then w.deposited + {e.receipt.initiator} else w.deposited)
      else w
    case AtNode(a, n) =>
      if ReachesNode(g, w, a, n) then
        var p := if a in w.peers then w.peers[a] else NEWCOMER;
        React(g, w, a, Told(p, n), Response(g, p.deal, n))
      else w
  }

  ghost function Run(g: Setting, mvs: seq<Move>): World {
    if mvs == [] then NOTHING_YET else Step(g, Run(g, mvs[..|mvs| - 1]), mvs[|mvs| - 1])
  }
}
