// Why the parties agree: what the nodes may rely on about the service, the invariant of all nodes and of the
// network, and the theorems over every run.
module AgreementLaws {
  import opened SwapTypes
  import P = SwapProtocol
  import S = Service
  import O = OfferMachine
  import opened OfferDeals
  import opened Agreement

  // --- what the nodes may rely on about the service ----------------------------------------------------------

  // proven: the maker's deposit was taken. taker: the chosen taker. ended: how the swap ended.
  datatype Facts = Facts(proven: bool, taker: Option<Address>, ended: Option<P.State>) {
    predicate Within(later: Facts) {
      && (proven ==> later.proven)
      && (taker.Some? ==> later.taker == taker)
      && (ended.Some? ==> later.ended == ended)
    }
  }

  function FactsOf(w: World): Facts {
    if w.service.swaps == [] then Facts(false, None, None)
    else
      var s := w.service.swaps[0].swap;
      Facts(s.makerReceipt.Some?, s.TakerAddress(), s.terminated)
  }

  // The service gave this node its commitment proof.
  predicate Proven(g: Setting, f: Facts, a: Address) { (a == g.maker && f.proven) || f.taker == Some(a) }

  // Maker and chosen taker, either way around.
  predicate Pair(g: Setting, f: Facts, a: Address, b: Address) {
    (a == g.maker && f.taker == Some(b)) || (f.taker == Some(a) && b == g.maker)
  }

  predicate FactsInv(g: Setting, f: Facts) {
    && (f.taker.Some? ==> f.proven && f.taker.value != g.maker && f.taker.value != g.service)
    && (f.ended == Some(P.Untraded) ==> f.taker.None?)
  }

  predicate PeerInv(g: Setting, f: Facts, a: Address, p: Peer) {
    var d := p.deal;
    && a != g.service
    && (a == g.maker ==> d.matched.Some? == O.InDeal(d.state))
    && (a != g.maker ==> d.matched.Some? && d.matched.value.target == g.maker)
    && (O.InDeal(d.state) || d.state == O.Proved || d.state == O.Published ==> Proven(g, f, a))
    && (O.InDeal(d.state) ==> Pair(g, f, a, d.matched.value.target))
    && (p.listening ==> a == g.maker)
    && (d.state == O.Proved || d.state == O.Published ==> a == g.maker)
    && p.expects == (if d.state == O.Exchanging then {d.matched.value.target}
                     else if d.state == O.WaitForRefund then {g.service} else {})
    && p.inbound == (if d.state == O.WaitForRefund then [d.matched.value.target]
                     else if d.state == O.Completed then [d.matched.value.target, g.service] else [])
    && (d.state == O.Canceled ==> a == g.maker && f.ended == Some(P.Untraded))
    && (d.state == O.Completed ==> f.ended == Some(P.Traded))
  }

  predicate PacketInv(g: Setting, f: Facts, peers: map<Address, Peer>, p: Packet) {
    match p
    case CommitMsg(a) => a != g.service && (a == g.maker || f.proven)
    case Deposit(_) => true
    case Broadcast(a) => a == g.maker && f.proven
    case TakerOffer(a, b) => b == g.maker && f.taker == Some(a)
    case Executed(a) => a in peers && (peers[a].deal.state == O.WaitForRefund || peers[a].deal.state == O.Completed)
    case Payment(a, b) => Pair(g, f, a, b)
  }

  predicate NodesInv(g: Setting, f: Facts, peers: map<Address, Peer>, net: set<Packet>) {
    && (forall a :: a in peers ==> PeerInv(g, f, a, peers[a]))
    && (forall p :: p in net ==> PacketInv(g, f, peers, p))
  }

  // The nodes' invariant survives whatever the service learns.
  lemma NodesSurvive(g: Setting, f: Facts, f': Facts, peers: map<Address, Peer>, net: set<Packet>)
    requires NodesInv(g, f, peers, net) && f.Within(f')
    ensures NodesInv(g, f', peers, net)
  {
  }

  // --- node moves ----------------------------------------------------------------------------------------------

  lemma CarryOutUpToThree(g: Setting, w: World, a: Address, p: Peer, ds: seq<Dispatch>)
    ensures var w' := CarryOut(g, w, a, p, ds);
            && w'.service == w.service && w'.deposited == w.deposited
            && (|ds| == 0 ==> w' == w.(peers := w.peers[a := p]))
            && (|ds| == 1 ==> w' == w.(net := w.net + Carried(a, ds[0]), peers := w.peers[a := Noting(g, p, ds[0])]))
            && (|ds| > 1 ==> w' == CarryOut(g, w.(net := w.net + Carried(a, ds[0])), a, Noting(g, p, ds[0]), ds[1..]))
    decreases |ds|
  {
    if ds != [] {
      CarryOutUpToThree(g, w.(net := w.net + Carried(a, ds[0])), a, Noting(g, p, ds[0]), ds[1..]);
    }
  }

  // One node moved on, and what it sent may be sent.
  lemma NodeMoved(g: Setting, f: Facts, w: World, w': World, a: Address)
    requires NodesInv(g, f, w.peers, w.net)
    requires a in w'.peers && w'.peers == w.peers[a := w'.peers[a]] && PeerInv(g, f, a, w'.peers[a])
    requires a in w.peers && O.InDeal(w.peers[a].deal.state) && w.peers[a].deal.state != O.Exchanging ==>
               O.InDeal(w'.peers[a].deal.state) && w'.peers[a].deal.state != O.Exchanging
    requires forall p :: p in w'.net && p !in w.net ==> PacketInv(g, f, w'.peers, p)
    ensures NodesInv(g, f, w'.peers, w'.net)
  {
    forall p | p in w'.net ensures PacketInv(g, f, w'.peers, p) {
      if p in w.net { assert PacketInv(g, f, w.peers, p); }
    }
  }

  // What a node may conclude from a piece of news.
  predicate Reliable(g: Setting, f: Facts, w: World, a: Address, n: News) {
    && (n.GetsProof? ==> Proven(g, f, a))
    && (n.GetsCancellation? ==> a == g.maker && f.ended == Some(P.Untraded))
    && (n == GetsPayment(g.service) && a in w.peers && O.InDeal(w.peers[a].deal.state) ==> f.ended == Some(P.Traded))
  }

  // What carrying out a reaction amounts to, for the lists of events the handlers dispatch.
  lemma Carrying(g: Setting, w: World, a: Address, p: Peer, ds: seq<Dispatch>)
    ensures var w' := CarryOut(g, w, a, p, ds);
            && (ds == [] ==> w' == w.(peers := w.peers[a := p]))
            && (ds == [Commit] ==> w' == w.(peers := w.peers[a := p], net := w.net + {CommitMsg(a), Deposit(a)}))
            && (ds == [CancellationRequest] ==> w' == w.(peers := w.peers[a := p]))
            && (ds == [CommitmentProved] ==> w' == w.(peers := w.peers[a := p.(listening := true)]))
            && (ds == [InboundReceived] ==>
                  w' == w.(peers := w.peers[a := p.(expects := p.expects + {g.service})], net := w.net + {Executed(a)}))
            && (ds == [SendProvenOffer(None)] ==> w' == w.(peers := w.peers[a := p], net := w.net + {Broadcast(a)}))
  {
    CarryOutUpToThree(g, w, a, p, ds);
    assert p.expects + {} == p.expects && w.net + {} == w.net;
  }

  lemma CarryingMatch(g: Setting, w: World, a: Address, p: Peer, m: Match)
    ensures CarryOut(g, w, a, p, [SwapInit(m), ExpectInbound(m.target)])
            == w.(peers := w.peers[a := p.(expects := p.expects + {m.target})], net := w.net + {Payment(a, m.target)})
    ensures CarryOut(g, w, a, p, [SwapInit(m), ExpectInbound(m.target), SendProvenOffer(Some(m.target))])
            == w.(peers := w.peers[a := p.(expects := p.expects + {m.target})],
                  net := w.net + {Payment(a, m.target)} + {TakerOffer(a, m.target)})
  {
    var paid := w.(net := w.net + {Payment(a, m.target)});
    var waiting := p.(expects := p.expects + {m.target});
    var two := [SwapInit(m), ExpectInbound(m.target)];
    var three := [SwapInit(m), ExpectInbound(m.target), SendProvenOffer(Some(m.target))];
    CarryOutUpToThree(g, w, a, p, two);
    CarryOutUpToThree(g, w, a, p, three);
    assert two[1..] == [ExpectInbound(m.target)]
           && three[1..] == [ExpectInbound(m.target), SendProvenOffer(Some(m.target))];
    assert p.expects + {} == p.expects;
    CarryOutUpToThree(g, paid, a, p, two[1..]);
    CarryOutUpToThree(g, paid, a, p, three[1..]);
    assert three[1..][1..] == [SendProvenOffer(Some(m.target))];
    assert paid.net + {} == paid.net && waiting.expects + {} == waiting.expects;
    CarryOutUpToThree(g, paid, a, waiting, three[1..][1..]);
  }

  // After a node's move all nodes and packets are as they should be.
  ghost predicate Kept(g: Setting, f: Facts, w: World, a: Address, n: News) {
    var w' := Step(g, w, AtNode(a, n));
    NodesInv(g, f, w'.peers, w'.net) && w'.service == w.service && w'.deposited == w.deposited
  }

  predicate Before(g: Setting, f: Facts, w: World) {
    NodesInv(g, f, w.peers, w.net) && FactsInv(g, f) && g.maker != g.service
  }

  lemma BeginKeeps(g: Setting, f: Facts, w: World, a: Address, n: News)
    requires Before(g, f, w) && ReachesNode(g, w, a, n) && (n.Offers? || n.Takes?)
    ensures Kept(g, f, w, a, n)
  {
    var w' := Step(g, w, AtNode(a, n));
    var r := Response(g, NEWCOMER.deal, n);
    Carrying(g, w, a, NEWCOMER.(deal := r.deal), r.dispatched);
    if n.Takes? { assert PacketInv(g, f, w.peers, Broadcast(g.maker)); }
    NodeMoved(g, f, w, w', a);
  }

  // A node's peer record after a reaction that starts the exchange, and after the quieter ones.
  function Exchanging(p: Peer, d: Deal): Peer
    requires d.matched.Some?
  {
    p.(deal := d, expects := p.expects + {d.matched.value.target})
  }

  lemma ProofPeer(g: Setting, f: Facts, a: Address, p: Peer, proof: Proof)
    requires PeerInv(g, f, a, p) && FactsInv(g, f) && Proven(g, f, a)
    ensures var r := OnCommitmentProof(p.deal, proof);
            r.Reacts? ==>
              if p.deal.matched.Some? then
                && PeerInv(g, f, a, Exchanging(p, r.deal))
                && f.taker == Some(a) && p.deal.matched.value.target == g.maker
                && r.deal.matched == p.deal.matched
                && r.dispatched == [SwapInit(p.deal.matched.value), ExpectInbound(g.maker),
                                    SendProvenOffer(Some(g.maker))]
              else PeerInv(g, f, a, p.(deal := r.deal)) && a == g.maker && r.dispatched == [SendProvenOffer(None)]
    ensures OnCommitmentProof(p.deal, proof).Reacts? ==> p.deal.state == O.Unproved
  {
  }

  lemma PeerMoved(g: Setting, f: Facts, w: World, a: Address, p: Peer, added: set<Packet>)
    requires NodesInv(g, f, w.peers, w.net) && PeerInv(g, f, a, p)
    requires a in w.peers && !O.InDeal(w.peers[a].deal.state)
    requires forall q :: q in added ==> PacketInv(g, f, w.peers[a := p], q)
    ensures NodesInv(g, f, w.peers[a := p], w.net + added)
  {
    NodeMoved(g, f, w, w.(peers := w.peers[a := p], net := w.net + added), a);
  }

  lemma MakerProofKeeps(g: Setting, f: Facts, w: World, a: Address, proof: Proof)
    requires Before(g, f, w) && ReachesNode(g, w, a, GetsProof(proof)) && Proven(g, f, a)
    requires w.peers[a].deal.matched.None?
    ensures Kept(g, f, w, a, GetsProof(proof))
  {
    var p, r := w.peers[a], OnCommitmentProof(w.peers[a].deal, proof);
    ProofPeer(g, f, a, p, proof);
    if r.Reacts? {
      Carrying(g, w, a, p.(deal := r.deal), r.dispatched);
      PeerMoved(g, f, w, a, p.(deal := r.deal), {Broadcast(a)});
    }
  }

  lemma TakerProofKeeps(g: Setting, f: Facts, w: World, a: Address, proof: Proof)
    requires Before(g, f, w) && ReachesNode(g, w, a, GetsProof(proof)) && Proven(g, f, a)
    requires w.peers[a].deal.matched.Some?
    ensures Kept(g, f, w, a, GetsProof(proof))
  {
    var p, r := w.peers[a], OnCommitmentProof(w.peers[a].deal, proof);
    ProofPeer(g, f, a, p, proof);
    if r.Reacts? {
      TakerProofStep(g, w, a, proof, r.deal);
      PeerMoved(g, f, w, a, Exchanging(p, r.deal), {Payment(a, g.maker)} + {TakerOffer(a, g.maker)});
    }
  }

  lemma TakerProofStep(g: Setting, w: World, a: Address, proof: Proof, d: Deal)
    requires ReachesNode(g, w, a, GetsProof(proof)) && w.peers[a].deal.matched.Some?
    requires d.matched == w.peers[a].deal.matched && d.matched.value.target == g.maker
    requires OnCommitmentProof(w.peers[a].deal, proof)
             == Reacts(d, [SwapInit(d.matched.value), ExpectInbound(g.maker), SendProvenOffer(Some(g.maker))])
    ensures Step(g, w, AtNode(a, GetsProof(proof)))
            == w.(peers := w.peers[a := Exchanging(w.peers[a], d)],
                  net := w.net + ({Payment(a, g.maker)} + {TakerOffer(a, g.maker)}))
  {
    CarryingMatch(g, w, a, w.peers[a].(deal := d), d.matched.value);
    assert w.net + {Payment(a, g.maker)} + {TakerOffer(a, g.maker)}
           == w.net + ({Payment(a, g.maker)} + {TakerOffer(a, g.maker)});
  }

  lemma CallPeer(g: Setting, f: Facts, a: Address, p: Peer, t: Address, proof: Proof)
    requires PeerInv(g, f, a, p) && FactsInv(g, f) && f.taker == Some(t) && a == g.maker
    ensures var r, m := OnTakerCall(p.deal, t, proof), Match(Maker, t, proof);
            r.Reacts? ==>
              && r.deal.matched == Some(m) && PeerInv(g, f, a, Exchanging(p.(listening := false), r.deal))
              && r.dispatched == [SwapInit(m), ExpectInbound(t)] && !O.InDeal(p.deal.state)
  {
  }

  lemma CallKeeps(g: Setting, f: Facts, w: World, a: Address, t: Address, proof: Proof)
    requires Before(g, f, w) && ReachesNode(g, w, a, Called(t, proof))
    ensures Kept(g, f, w, a, Called(t, proof))
  {
    var p := w.peers[a];
    assert PacketInv(g, f, w.peers, TakerOffer(t, a));
    var r := OnTakerCall(p.deal, t, proof);
    CallPeer(g, f, a, p, t, proof);
    if r.Reacts? {
      CarryingMatch(g, w, a, p.(listening := false, deal := r.deal), Match(Maker, t, proof));
      assert Step(g, w, AtNode(a, Called(t, proof)))
             == w.(peers := w.peers[a := Exchanging(p.(listening := false), r.deal)], net := w.net + {Payment(a, t)});
      PeerMoved(g, f, w, a, Exchanging(p.(listening := false), r.deal), {Payment(a, t)});
    }
  }

  lemma FirstPaymentPeer(g: Setting, f: Facts, a: Address, p: Peer)
    requires PeerInv(g, f, a, p) && FactsInv(g, f) && p.deal.state == O.Exchanging
    ensures var from, r := p.deal.matched.value.target, OnTransfer(p.deal);
            && r == Reacts(p.deal.(state := O.WaitForRefund), [InboundReceived])
            && PeerInv(g, f, a, Told(p, GetsPayment(from)).(deal := r.deal, expects := {g.service}))
            && Told(p, GetsPayment(from)).expects == {}
  {
  }

  lemma SecondPaymentPeer(g: Setting, f: Facts, a: Address, p: Peer)
    requires PeerInv(g, f, a, p) && p.deal.state == O.WaitForRefund && f.ended == Some(P.Traded)
    ensures var r := OnTransfer(p.deal);
            && r == Reacts(p.deal.(state := O.Completed), [])
            && PeerInv(g, f, a, Told(p, GetsPayment(g.service)).(deal := r.deal))
  {
  }

  lemma FirstPaymentKeeps(g: Setting, f: Facts, w: World, a: Address, from: Address)
    requires Before(g, f, w) && ReachesNode(g, w, a, GetsPayment(from)) && w.peers[a].deal.state == O.Exchanging
    ensures Kept(g, f, w, a, GetsPayment(from))
  {
    var p := w.peers[a];
    var told := Told(p, GetsPayment(from));
    FirstPaymentPeer(g, f, a, p);
    Carrying(g, w, a, told.(deal := p.deal.(state := O.WaitForRefund)), [InboundReceived]);
    assert told.expects + {g.service} == {g.service};
    NodeMoved(g, f, w, Step(g, w, AtNode(a, GetsPayment(from))), a);
  }

  lemma SecondPaymentKeeps(g: Setting, f: Facts, w: World, a: Address, from: Address)
    requires Before(g, f, w) && ReachesNode(g, w, a, GetsPayment(from)) && w.peers[a].deal.state == O.WaitForRefund
    requires Reliable(g, f, w, a, GetsPayment(from))
    ensures Kept(g, f, w, a, GetsPayment(from))
  {
    var p := w.peers[a];
    assert from == g.service;
    SecondPaymentPeer(g, f, a, p);
    Carrying(g, w, a, Told(p, GetsPayment(from)).(deal := p.deal.(state := O.Completed)), []);
    NodeMoved(g, f, w, Step(g, w, AtNode(a, GetsPayment(from))), a);
  }

  lemma QuietPeer(g: Setting, f: Facts, a: Address, p: Peer, n: News)
    requires PeerInv(g, f, a, p) && FactsInv(g, f) && (n.GetsCancellation? || n.SeesOffer? || n.TimesOut?)
    requires n.GetsCancellation? ==> a == g.maker && f.ended == Some(P.Untraded)
    ensures var r := Response(g, p.deal, n);
            r.Reacts? ==>
              && r.dispatched == (if n.GetsCancellation? then []
                                  else if n.SeesOffer? then [CommitmentProved]
                                  else [CancellationRequest])
              && PeerInv(g, f, a, p.(deal := r.deal, listening := p.listening || n.SeesOffer?))
              && !O.InDeal(p.deal.state)
  {
  }

  lemma QuietKeeps(g: Setting, f: Facts, w: World, a: Address, n: News)
    requires Before(g, f, w) && ReachesNode(g, w, a, n) && (n.GetsCancellation? || n.SeesOffer? || n.TimesOut?)
    requires Reliable(g, f, w, a, n)
    ensures Kept(g, f, w, a, n)
  {
    var w' := Step(g, w, AtNode(a, n));
    var p := w.peers[a];
    var r := Response(g, p.deal, n);
    QuietPeer(g, f, a, p, n);
    if r.Reacts? {
      Carrying(g, w, a, p.(deal := r.deal), r.dispatched);
      assert w'.peers == w.peers[a := p.(deal := r.deal, listening := p.listening || n.SeesOffer?)];
      NodeMoved(g, f, w, w', a);
    }
  }

  lemma NodeKeeps(g: Setting, f: Facts, w: World, a: Address, n: News)
    requires Before(g, f, w) && Reliable(g, f, w, a, n)
    ensures Kept(g, f, w, a, n)
  {
    if ReachesNode(g, w, a, n) {
      match n
      case Offers => BeginKeeps(g, f, w, a, n);
      case Takes(_) => BeginKeeps(g, f, w, a, n);
      case GetsProof(p) =>
        if w.peers[a].deal.matched.Some? { TakerProofKeeps(g, f, w, a, p); } else { MakerProofKeeps(g, f, w, a, p); }
      case Called(t, p) => CallKeeps(g, f, w, a, t, p);
      case GetsPayment(from) =>
        assert PeerInv(g, f, a, w.peers[a]);
        if w.peers[a].deal.state == O.Exchanging { FirstPaymentKeeps(g, f, w, a, from); }
        else { SecondPaymentKeeps(g, f, w, a, from); }
      case _ => QuietKeeps(g, f, w, a, n);
    }
  }

  // --- service moves -------------------------------------------------------------------------------------------

  // Of every sender at most one receipt was accepted, and it was reported.
  ghost predicate OncePerSender(accepted: multiset<Receipt>, deposited: set<Address>) {
    && (forall r :: r in accepted ==> accepted[r] == 1 && r.initiator in deposited)
    && (forall r, q :: r in accepted && q in accepted && r.initiator == q.initiator ==> r == q)
  }

  predicate ExecutionsSent(s: P.Swap, net: set<Packet>) {
    && (s.makerExecution.Some? ==> Executed(s.makerExecution.value.sender) in net)
    && (s.takerExecution.Some? ==> Executed(s.takerExecution.value.sender) in net)
  }

  ghost predicate AccountSide(g: Setting, a: P.Account, net: set<Packet>, deposited: set<Address>) {
    && P.AccountInv(a)
    && a.swap.offerId == g.offerId && a.swap.makerCommitment.value.sender == g.maker
    && g.service !in a.swap.pool
    && OncePerSender(a.ledger.accepted, deposited)
    && ExecutionsSent(a.swap, net)
  }

  ghost predicate ServiceSide(g: Setting, w: World) {
    && S.ServiceInv(w.service)
    && |w.service.swaps| <= 1
    && forall a :: a in w.service.swaps ==> AccountSide(g, a, w.net, w.deposited)
  }

  // Both deposits are recorded receipts; were they from one sender, they would be one receipt recorded twice.
  lemma TakerIsNotMaker(g: Setting, a: P.Account, net: set<Packet>, deposited: set<Address>)
    requires AccountSide(g, a, net, deposited) && a.swap.takerCommitment.Some?
    ensures a.swap.takerCommitment.value.sender != g.maker && a.swap.takerCommitment.value.sender != g.service
  {
    var maker, taker := a.swap.makerReceipt.value, a.swap.takerReceipt.value;
    assert P.SettlesAt(a, maker) && P.SettlesAt(a, taker);
    var sender := a.swap.takerCommitment.value.sender;
    assert P.PoolHolds(a, sender);
  }

  lemma FactsHold(g: Setting, w: World)
    requires ServiceSide(g, w)
    ensures FactsInv(g, FactsOf(w))
  {
    if w.service.swaps != [] {
      var a := w.service.swaps[0];
      assert AccountSide(g, a, w.net, w.deposited);
      if a.swap.takerCommitment.Some? { TakerIsNotMaker(g, a, w.net, w.deposited); }
    }
  }

  // A trigger that the network may deliver.
  predicate Delivered(g: Setting, t: P.Trigger, net: set<Packet>, deposited: set<Address>) {
    match t
    case TakerCommitmentMsg(c) => c.sender != g.service
    case TransferReceipt(r) => r.initiator !in deposited
    case SwapExecutionMsg(x, _) => Executed(x.sender) in net
    case _ => true
  }

  function Reported(t: P.Trigger, deposited: set<Address>): set<Address> {
    if t.TransferReceipt? then deposited + {t.receipt.initiator} else deposited
  }

  lemma AdvanceKeepsSide(g: Setting, a: P.Account, t: P.Trigger, net: set<Packet>, deposited: set<Address>)
    requires AccountSide(g, a, net, deposited) && Delivered(g, t, net, deposited)
    ensures AccountSide(g, P.Advance(a, t), net, Reported(t, deposited))
    ensures P.NothingReplaced(a.swap, P.Advance(a, t).swap)
  {
    P.StepKeepsAccount(a, t);
    P.StepReplacesNothing(a.swap, t);
    AdvanceKeepsExecutions(a.swap, t, net);
    AdvanceKeepsOnce(a, t, deposited);
  }

  lemma AdvanceKeepsExecutions(s: P.Swap, t: P.Trigger, net: set<Packet>)
    requires ExecutionsSent(s, net)
    requires t.SwapExecutionMsg? ==> Executed(t.execution.sender) in net
    ensures ExecutionsSent(P.Fire(s, t).swap, net)
    ensures forall x :: x in P.Fire(s, t).swap.pool ==> x in s.pool || (t.TakerCommitmentMsg? && x == t.msg.sender)
  {
  }

  lemma AdvanceKeepsOnce(a: P.Account, t: P.Trigger, deposited: set<Address>)
    requires OncePerSender(a.ledger.accepted, deposited)
    requires t.TransferReceipt? ==> t.receipt.initiator !in deposited
    ensures OncePerSender(P.Advance(a, t).ledger.accepted, Reported(t, deposited))
  {
  }

  // The one swap after a delivery.
  lemma DeliveryKeepsSide(g: Setting, w: World, sv: S.Service, t: P.Trigger)
    requires |sv.swaps| == 1 && AccountSide(g, sv.swaps[0], w.net, w.deposited) && Delivered(g, t, w.net, w.deposited)
    requires S.ServiceInv(S.Deliver(sv, 0, t))
    ensures ServiceSide(g, w.(service := S.Deliver(sv, 0, t), deposited := Reported(t, w.deposited)))
    ensures P.NothingReplaced(sv.swaps[0].swap, S.Deliver(sv, 0, t).swaps[0].swap)
  {
    AdvanceKeepsSide(g, sv.swaps[0], t, w.net, w.deposited);
    assert S.Deliver(sv, 0, t).swaps == [P.Advance(sv.swaps[0], t)];
  }

  lemma StillSide(g: Setting, w: World, deposited: set<Address>)
    requires ServiceSide(g, w) && w.deposited <= deposited
    ensures ServiceSide(g, w.(deposited := deposited))
  {
    forall a | a in w.service.swaps ensures AccountSide(g, a, w.net, deposited) {
      assert AccountSide(g, a, w.net, w.deposited);
    }
  }

  lemma ExpireKeepsSide(g: Setting, a: P.Account, net: set<Packet>, deposited: set<Address>)
    requires AccountSide(g, a, net, deposited) && 0 < a.swap.timers
    ensures AccountSide(g, a.(swap := a.swap.(timers := a.swap.timers - 1)), net, deposited)
  {
    S.ExpireKeepsAccount(a);
  }

  // The service's own steps keep its side and only add to what nodes may rely on.
  ghost predicate Served(g: Setting, w: World, e: S.Event) {
    var w' := Step(g, w, AtService(e));
    && ServiceSide(g, w') && w'.peers == w.peers && w'.net == w.net
    && FactsOf(w).Within(FactsOf(w'))
  }

  lemma ReplacedNothing(g: Setting, w: World, w': World)
    requires |w.service.swaps| == 1 && |w'.service.swaps| == 1
    requires P.NothingReplaced(w.service.swaps[0].swap, w'.service.swaps[0].swap)
    ensures FactsOf(w).Within(FactsOf(w'))
  {
  }

  lemma RoutedServed(g: Setting, w: World, e: S.Event, t: P.Trigger)
    requires ServiceSide(g, w) && ReachesService(g, w, e)
    requires S.Step(w.service, e) == S.DeliverById(w.service, g.offerId, t)
    requires Delivered(g, t, w.net, w.deposited)
    requires (if e.GotReceipt? then w.deposited + {e.receipt.initiator} else w.deposited) == Reported(t, w.deposited)
    ensures Served(g, w, e)
  {
    S.StepKeepsInv(w.service, e);
    if g.offerId in w.service.table {
      assert w.service.table[g.offerId] == 0;
      assert AccountSide(g, w.service.swaps[0], w.net, w.deposited);
      DeliveryKeepsSide(g, w, w.service, t);
      ReplacedNothing(g, w, Step(g, w, AtService(e)));
    } else {
      StillSide(g, w, Reported(t, w.deposited));
    }
  }

  lemma CommitmentServed(g: Setting, w: World, c: Commitment, secret: nat, secretHash: nat)
    requires ServiceSide(g, w) && NodesInv(g, FactsOf(w), w.peers, w.net)
    requires ReachesService(g, w, S.GotCommitment(c, secret, secretHash)) && !g.late
    ensures Served(g, w, S.GotCommitment(c, secret, secretHash))
  {
    assert PacketInv(g, FactsOf(w), w.peers, CommitMsg(c.sender));
    if w.service.swaps == [] {
      FirstCommitmentServed(g, w, c, secret, secretHash);
    } else {
      var a := w.service.swaps[0];
      assert AccountSide(g, a, w.net, w.deposited);
      assert a.swap.Live() <==> S.InTable(w.service, 0);
      RoutedServed(g, w, S.GotCommitment(c, secret, secretHash), P.TakerCommitmentMsg(c));
    }
  }

  lemma FirstCommitmentServed(g: Setting, w: World, c: Commitment, secret: nat, secretHash: nat)
    requires ServiceSide(g, w) && w.service.swaps == [] && c.sender == g.maker
    requires ReachesService(g, w, S.GotCommitment(c, secret, secretHash)) && !g.late
    ensures Served(g, w, S.GotCommitment(c, secret, secretHash))
  {
    S.StepKeepsInv(w.service, S.GotCommitment(c, secret, secretHash));
    var first := P.Advance(P.Opened(c.offerId, secret, secretHash), P.MakerCommitmentMsg(c));
    P.OpeningHolds(c.offerId, secret, secretHash, c);
    assert c.offerId !in w.service.table;
    assert S.Step(w.service, S.GotCommitment(c, secret, secretHash)).swaps == [first];
  }

  lemma TimerServed(g: Setting, w: World, k: nat)
    requires ServiceSide(g, w)
    ensures Served(g, w, S.TimerFired(k))
  {
    if k < |w.service.swaps| && 0 < w.service.swaps[k].swap.timers {
      ExpiryServed(g, w, S.Expire(w.service, 0));
    } else {
      assert S.Step(w.service, S.TimerFired(k)) == w.service;
    }
  }

  lemma ExpiryServed(g: Setting, w: World, late: S.Service)
    requires ServiceSide(g, w) && |w.service.swaps| == 1 && 0 < w.service.swaps[0].swap.timers
    requires late == S.Expire(w.service, 0)
    ensures Served(g, w, S.TimerFired(0))
  {
    var a := w.service.swaps[0];
    S.StepKeepsInv(w.service, S.TimerFired(0));
    assert AccountSide(g, a, w.net, w.deposited);
    ExpireKeepsSide(g, a, w.net, w.deposited);
    DeliveryKeepsSide(g, w, late, P.Timeout);
    assert P.NothingReplaced(a.swap, late.swaps[0].swap);
    assert Step(g, w, AtService(S.TimerFired(0))).service == S.Deliver(late, 0, P.Timeout);
  }

  lemma RefundServed(g: Setting, w: World, e: S.Event)
    requires ServiceSide(g, w) && (e.RefundStarted? || e.RefundAnswered?)
    ensures Served(g, w, e)
  {
    S.StepKeepsInv(w.service, e);
  }

  lemma ServiceServes(g: Setting, w: World, e: S.Event)
    requires ServiceSide(g, w) && NodesInv(g, FactsOf(w), w.peers, w.net) && !g.late
    ensures Served(g, w, e)
  {
    if ReachesService(g, w, e) {
      match e
      case GotCommitment(c, secret, secretHash) => CommitmentServed(g, w, c, secret, secretHash);
      case GotReceipt(r) => RoutedServed(g, w, e, P.TransferReceipt(r));
      case GotExecution(x, now) => RoutedServed(g, w, e, P.SwapExecutionMsg(x, now));
      case GotCancellation(id) => RoutedServed(g, w, e, P.Timeout);
      case TimerFired(k) => TimerServed(g, w, k);
      case RefundStarted(_) => RefundServed(g, w, e);
      case RefundAnswered(_, _) => RefundServed(g, w, e);
    }
  }

  // --- what the service says and pays is true ------------------------------------------------------------------

  lemma SentIsTrue(g: Setting, a: P.Account, m: Message, to: Address)
    requires P.AccountInv(a) && a.swap.makerCommitment.value.sender == g.maker && Send(m, Some(to)) in a.ledger.sent
    ensures m.CommitmentProof? ==> (to == g.maker && a.swap.makerReceipt.Some?) || a.swap.TakerAddress() == Some(to)
    ensures m.CancellationProof? ==> to == g.maker && a.swap.terminated == Some(P.Untraded)
  {
    var s, now := a.swap, a.ledger.completedAt;
    var send := Send(m, Some(to));
    assert send in P.MakerPart(s) || send in P.TakerPart(s) || send in P.ClosingPart(s, now);
  }

  // With a taker chosen, a refund to one of the two parties means the swap was traded.
  lemma PaidPartyTraded(g: Setting, a: P.Account, net: set<Packet>, deposited: set<Address>, f: Refund)
    requires AccountSide(g, a, net, deposited) && a.swap.takerCommitment.Some? && f in a.ledger.refunded
    requires f.receipt.initiator == g.maker || Some(f.receipt.initiator) == a.swap.TakerAddress()
    ensures a.swap.terminated == Some(P.Traded)
  {
    var maker, taker := a.swap.makerReceipt.value, a.swap.takerReceipt.value;
    assert P.SettlesAt(a, f.receipt) && P.SettlesAt(a, maker) && P.SettlesAt(a, taker);
    assert f == Refund(f.receipt, true) || f == Refund(f.receipt, false);
  }

  lemma NewsIsReliable(g: Setting, w: World, a: Address, n: News)
    requires ServiceSide(g, w) && NodesInv(g, FactsOf(w), w.peers, w.net) && g.maker != g.service
    requires ReachesNode(g, w, a, n)
    ensures Reliable(g, FactsOf(w), w, a, n)
  {
    FactsHold(g, w);
    match n
    case GetsProof(p) => MessageIsReliable(g, w, a, CommitmentProof(p));
    case GetsCancellation(p) => MessageIsReliable(g, w, a, CancellationProof(g.offerId, p));
    case GetsPayment(from) => if from == g.service && O.InDeal(w.peers[a].deal.state) { RefundIsReliable(g, w, a); }
    case _ =>
  }

  lemma MessageIsReliable(g: Setting, w: World, a: Address, m: Message)
    requires ServiceSide(g, w) && Sent(w, m, a)
    ensures m.CommitmentProof? ==> Proven(g, FactsOf(w), a)
    ensures m.CancellationProof? ==> a == g.maker && FactsOf(w).ended == Some(P.Untraded)
  {
    var account := w.service.swaps[0];
    assert w.service.swaps == [account];
    assert AccountSide(g, account, w.net, w.deposited);
    SentIsTrue(g, account, m, a);
  }

  lemma RefundIsReliable(g: Setting, w: World, a: Address)
    requires ServiceSide(g, w) && FactsInv(g, FactsOf(w)) && g.maker != g.service
    requires NodesInv(g, FactsOf(w), w.peers, w.net)
    requires a in w.peers && O.InDeal(w.peers[a].deal.state) && (Payment(g.service, a) in w.net || PaidBack(w, a))
    ensures FactsOf(w).ended == Some(P.Traded)
  {
    assert PeerInv(g, FactsOf(w), a, w.peers[a]);
    ServicePaysNoSwap(g, FactsOf(w), w.peers, a);
    PaidBackIsTrue(g, w, a);
  }

  // Exchange payments come from maker and taker alone.
  lemma ServicePaysNoSwap(g: Setting, f: Facts, peers: map<Address, Peer>, a: Address)
    requires FactsInv(g, f) && g.maker != g.service
    ensures !PacketInv(g, f, peers, Payment(g.service, a))
  {
  }

  lemma PaidBackIsTrue(g: Setting, w: World, a: Address)
    requires ServiceSide(g, w) && PaidBack(w, a) && FactsOf(w).taker.Some?
             && (a == g.maker || FactsOf(w).taker == Some(a))
    ensures FactsOf(w).ended == Some(P.Traded)
  {
    var account := w.service.swaps[0];
    assert w.service.swaps == [account];
    assert AccountSide(g, account, w.net, w.deposited);
    var f :| f in account.ledger.refunded && f.receipt.initiator == a;
    PaidPartyTraded(g, account, w.net, w.deposited, f);
  }

  // --- every run -------------------------------------------------------------------------------------------------

  ghost predicate WorldInv(g: Setting, w: World) {
    ServiceSide(g, w) && NodesInv(g, FactsOf(w), w.peers, w.net)
  }

  lemma SideOutlivesNodes(g: Setting, w: World, w': World)
    requires ServiceSide(g, w) && w'.service == w.service && w'.deposited == w.deposited && w.net <= w'.net
    ensures ServiceSide(g, w')
  {
    forall a | a in w'.service.swaps ensures AccountSide(g, a, w'.net, w'.deposited) {
      assert AccountSide(g, a, w.net, w.deposited);
    }
  }

  lemma {:induction false} NetGrows(g: Setting, w: World, a: Address, p: Peer, ds: seq<Dispatch>)
    ensures w.net <= CarryOut(g, w, a, p, ds).net
    decreases |ds|
  {
    if ds != [] {
      NetGrows(g, w.(net := w.net + Carried(a, ds[0])), a, Noting(g, p, ds[0]), ds[1..]);
    }
  }

  lemma NodeStepKeeps(g: Setting, w: World, a: Address, n: News)
    requires WorldInv(g, w) && g.maker != g.service
    ensures WorldInv(g, Step(g, w, AtNode(a, n)))
  {
    if ReachesNode(g, w, a, n) {
      var p := if a in w.peers then w.peers[a] else NEWCOMER;
      var r := Response(g, p.deal, n);
      if r.Reacts? { NetGrows(g, w, a, Told(p, n).(deal := r.deal), r.dispatched); }
      FactsHold(g, w);
      NewsIsReliable(g, w, a, n);
      NodeKeeps(g, FactsOf(w), w, a, n);
      SideOutlivesNodes(g, w, Step(g, w, AtNode(a, n)));
    }
  }

  lemma ServiceStepKeeps(g: Setting, w: World, e: S.Event)
    requires WorldInv(g, w) && !g.late
    ensures WorldInv(g, Step(g, w, AtService(e)))
  {
    ServiceServes(g, w, e);
    NodesSurvive(g, FactsOf(w), FactsOf(Step(g, w, AtService(e))), w.peers, w.net);
  }

  lemma {:induction false} RunKeeps(g: Setting, mvs: seq<Move>)
    requires g.maker != g.service && !g.late
    ensures WorldInv(g, Run(g, mvs))
  {
    if mvs != [] {
      RunKeeps(g, mvs[..|mvs| - 1]);
      match mvs[|mvs| - 1]
      case AtService(e) => ServiceStepKeeps(g, Run(g, mvs[..|mvs| - 1]), e);
      case AtNode(a, n) => NodeStepKeeps(g, Run(g, mvs[..|mvs| - 1]), a, n);
    }
  }

  predicate WasPaidBy(w: World, a: Address, payer: Address) {
    a in w.peers && w.peers[a].inbound != [] && w.peers[a].inbound[0] == payer
  }

  // Settlement agreement: whoever completed, the swap was traded, and maker and taker both have the other's
  // payment.
  lemma CompletedMeansTraded(g: Setting, mvs: seq<Move>, a: Address)
    requires g.maker != g.service && !g.late
    requires a in Run(g, mvs).peers && Run(g, mvs).peers[a].deal.state == O.Completed
    ensures var w := Run(g, mvs);
            && w.service.swaps != [] && w.service.swaps[0].swap.terminated == Some(P.Traded)
            && w.service.swaps[0].swap.takerCommitment.Some?
            && var taker := w.service.swaps[0].swap.takerCommitment.value.sender;
            && (a == g.maker || a == taker)
            && WasPaidBy(w, g.maker, taker) && WasPaidBy(w, taker, g.maker)
  {
    var w := Run(g, mvs);
    RunKeeps(g, mvs);
    var f := FactsOf(w);
    assert PeerInv(g, f, a, w.peers[a]);
    var s := w.service.swaps[0].swap;
    assert AccountSide(g, w.service.swaps[0], w.net, w.deposited);
    var taker := s.takerCommitment.value.sender;
    assert PacketInv(g, f, w.peers, Executed(g.maker)) && PacketInv(g, f, w.peers, Executed(taker));
    assert PeerInv(g, f, g.maker, w.peers[g.maker]) && PeerInv(g, f, taker, w.peers[taker]);
    FactsHold(g, w);
  }

  // Exclusion: once a cancellation proof canceled the maker's offer, nobody exchanges, waits for a refund or
  // completes; and only the maker's offer is ever canceled that way.
  lemma CanceledMeansNobodyTrades(g: Setting, mvs: seq<Move>, a: Address, b: Address)
    requires g.maker != g.service && !g.late
    requires a in Run(g, mvs).peers && Run(g, mvs).peers[a].deal.state == O.Canceled
    requires b in Run(g, mvs).peers
    ensures a == g.maker && !O.InDeal(Run(g, mvs).peers[b].deal.state)
    ensures Run(g, mvs).service.swaps != [] && Run(g, mvs).service.swaps[0].swap.terminated == Some(P.Untraded)
  {
    var w := Run(g, mvs);
    RunKeeps(g, mvs);
    FactsHold(g, w);
    assert PeerInv(g, FactsOf(w), a, w.peers[a]) && PeerInv(g, FactsOf(w), b, w.peers[b]);
  }
}
