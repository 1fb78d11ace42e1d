// The single moves of an agreement run, as they are made by one maker and one taker of a plain offer.
module AgreementMoves {
  import opened SwapTypes
  import S = Service
  import O = OfferMachine
  import opened OfferDeals
  import opened Agreement
  import opened AgreementLaws

  function CommitmentBy(g: Setting, a: Address): Commitment { Commitment(a, g.offerId, 0, 0) }
  function DepositBy(g: Setting, a: Address): Receipt { Receipt(a, 0, g.offerId, 0) }
  function ProofIn(g: Setting): Proof { Proof(0, 0, 0, g.offerId) }
  function TakerOf(g: Setting): Address { g.maker + g.service + 1 }

  lemma RunOneMore(g: Setting, mvs: seq<Move>, mv: Move)
    ensures Run(g, mvs + [mv]) == Step(g, Run(g, mvs), mv)
  {
    assert (mvs + [mv])[..|mvs|] == mvs;
  }

  // --- the nodes ----------------------------------------------------------------------------------------------------

  predicate Is(w: World, a: Address, d: Deal) { a in w.peers && w.peers[a].deal == d }

  // Only this node's deal and what it sent changed.
  predicate Moved(w: World, w': World, a: Address, d: Deal) {
    && w'.service == w.service && w'.deposited == w.deposited && w.net <= w'.net
    && Is(w', a, d) && (forall b :: b in w'.peers ==> b in w.peers || b == a)
    && (forall b :: b in w.peers && b != a ==> b in w'.peers && w'.peers[b] == w.peers[b])
  }

  lemma MakerOffers(g: Setting, w: World)
    requires g.maker !in w.peers
    ensures var w' := Step(g, w, AtNode(g.maker, Offers));
            && Moved(w, w', g.maker, Deal(O.Unproved, None, None))
            && CommitMsg(g.maker) in w'.net && Deposit(g.maker) in w'.net
  {
    Carrying(g, w, g.maker, NEWCOMER.(deal := Deal(O.Unproved, None, None)), [Commit]);
  }

  lemma MakerIsProved(g: Setting, w: World)
    requires Is(w, g.maker, Deal(O.Unproved, None, None)) && Sent(w, CommitmentProof(ProofIn(g)), g.maker)
    ensures var w' := Step(g, w, AtNode(g.maker, GetsProof(ProofIn(g))));
            Moved(w, w', g.maker, Deal(O.Proved, Some(ProofIn(g)), None)) && Broadcast(g.maker) in w'.net
  {
    var p, d := w.peers[g.maker], Deal(O.Proved, Some(ProofIn(g)), None);
    Carrying(g, w, g.maker, p.(deal := d), [SendProvenOffer(None)]);
    assert [] + [SendProvenOffer(None)] == [SendProvenOffer(None)];
    assert OnCommitmentProof(p.deal, ProofIn(g)) == Reacts(d, [SendProvenOffer(None)]);
  }

  lemma TakerTakes(g: Setting, w: World, t: Address)
    requires t !in w.peers && t != g.maker && t != g.service && Broadcast(g.maker) in w.net
    ensures var w' := Step(g, w, AtNode(t, Takes(ProofIn(g))));
            && Moved(w, w', t, Deal(O.Unproved, None, Some(Match(Taker, g.maker, ProofIn(g)))))
            && CommitMsg(t) in w'.net && Deposit(t) in w'.net
  {
    Carrying(g, w, t, NEWCOMER.(deal := Deal(O.Unproved, None, Some(Match(Taker, g.maker, ProofIn(g))))), [Commit]);
  }

  lemma MakerIsCanceled(g: Setting, w: World)
    requires Is(w, g.maker, Deal(O.Proved, Some(ProofIn(g)), None))
    requires Sent(w, CancellationProof(g.offerId, Some(ProofIn(g))), g.maker)
    ensures var w' := Step(g, w, AtNode(g.maker, GetsCancellation(Some(ProofIn(g)))));
            Moved(w, w', g.maker, Deal(O.Canceled, Some(ProofIn(g)), None))
  {
    Carrying(g, w, g.maker, w.peers[g.maker].(deal := Deal(O.Canceled, Some(ProofIn(g)), None)), []);
  }

  lemma TakerPays(g: Setting, w: World, t: Address)
    requires Is(w, t, Deal(O.Unproved, None, Some(Match(Taker, g.maker, ProofIn(g)))))
    requires Sent(w, CommitmentProof(ProofIn(g)), t)
    ensures var w' := Step(g, w, AtNode(t, GetsProof(ProofIn(g))));
            Moved(w, w', t, Deal(O.Exchanging, Some(ProofIn(g)), Some(Match(Taker, g.maker, ProofIn(g)))))
            && Payment(t, g.maker) in w'.net && TakerOffer(t, g.maker) in w'.net && g.maker in w'.peers[t].expects
  {
    var m := Match(Taker, g.maker, ProofIn(g));
    var d := Deal(O.Exchanging, Some(ProofIn(g)), Some(m));
    CarryingMatch(g, w, t, w.peers[t].(deal := d), m);
    assert OnCommitmentProof(w.peers[t].deal, ProofIn(g))
        == Reacts(d, [SwapInit(m), ExpectInbound(m.target), SendProvenOffer(Some(m.target))]);
  }

  // The maker sees its offer published and listens for a taker.
  lemma MakerSees(g: Setting, w: World)
    requires Is(w, g.maker, Deal(O.Proved, Some(ProofIn(g)), None)) && Broadcast(g.maker) in w.net
    ensures var w' := Step(g, w, AtNode(g.maker, SeesOffer));
            && Moved(w, w', g.maker, Deal(O.Published, Some(ProofIn(g)), None))
            && w'.peers[g.maker].listening
  {
    var d := Deal(O.Published, Some(ProofIn(g)), None);
    Carrying(g, w, g.maker, w.peers[g.maker].(deal := d), [CommitmentProved]);
    assert OnPublished(w.peers[g.maker].deal) == Reacts(d, [CommitmentProved]);
  }

  lemma CallMatches(d: Deal, t: Address, proof: Proof)
    requires d.state == O.Published
    ensures var m := Match(Maker, t, proof);
            OnTakerCall(d, t, proof)
            == Reacts(d.(state := O.Exchanging, matched := Some(m)), [SwapInit(m), ExpectInbound(t)])
  {
  }

  // The taker calls, and the maker pays him and waits for his payment.
  lemma MakerIsCalled(g: Setting, w: World, t: Address)
    requires Is(w, g.maker, Deal(O.Published, Some(ProofIn(g)), None)) && w.peers[g.maker].listening
    requires TakerOffer(t, g.maker) in w.net
    ensures var w' := Step(g, w, AtNode(g.maker, Called(t, ProofIn(g))));
            && Moved(w, w', g.maker, Deal(O.Exchanging, Some(ProofIn(g)), Some(Match(Maker, t, ProofIn(g)))))
            && Payment(g.maker, t) in w'.net && t in w'.peers[g.maker].expects
  {
    CallSteps(g, w, t);
  }

  lemma CallSteps(g: Setting, w: World, t: Address)
    requires Is(w, g.maker, Deal(O.Published, Some(ProofIn(g)), None)) && w.peers[g.maker].listening
    requires TakerOffer(t, g.maker) in w.net
    ensures var p := w.peers[g.maker];
            var d := Deal(O.Exchanging, Some(ProofIn(g)), Some(Match(Maker, t, ProofIn(g))));
            Step(g, w, AtNode(g.maker, Called(t, ProofIn(g))))
            == w.(peers := w.peers[g.maker := p.(listening := false, deal := d, expects := p.expects + {t})],
                  net := w.net + {Payment(g.maker, t)})
  {
    var m := Match(Maker, t, ProofIn(g));
    var d := Deal(O.Exchanging, Some(ProofIn(g)), Some(m));
    MatchCarried(g, w, g.maker, w.peers[g.maker].(listening := false), d, m);
    CallMatches(w.peers[g.maker].deal, t, ProofIn(g));
  }

  lemma MatchCarried(g: Setting, w: World, a: Address, p: Peer, d: Deal, m: Match)
    ensures React(g, w, a, p, Reacts(d, [SwapInit(m), ExpectInbound(m.target)]))
            == w.(peers := w.peers[a := p.(deal := d, expects := p.expects + {m.target})],
                  net := w.net + {Payment(a, m.target)})
  {
    CarryingMatch(g, w, a, p.(deal := d), m);
  }

  // The other's payment arrives, and the node reports it to the service.
  lemma IsPaid(g: Setting, w: World, a: Address, from: Address, d: Deal)
    requires Is(w, a, d) && d.state == O.Exchanging && d.matched.Some?
    requires from in w.peers[a].expects && Payment(from, a) in w.net
    ensures var w' := Step(g, w, AtNode(a, GetsPayment(from)));
            Moved(w, w', a, d.(state := O.WaitForRefund)) && Executed(a) in w'.net && g.service in w'.peers[a].expects
  {
    var p, d' := w.peers[a], d.(state := O.WaitForRefund);
    Carrying(g, w, a, Told(p, GetsPayment(from)).(deal := d'), [InboundReceived]);
    assert OnTransfer(d) == Reacts(d', [InboundReceived]);
  }

  // The service's refund arrives, and the offer is completed.
  lemma IsRefunded(g: Setting, w: World, a: Address, d: Deal)
    requires Is(w, a, d) && d.state == O.WaitForRefund && d.matched.Some?
    requires g.service in w.peers[a].expects && PaidBack(w, a)
    ensures var w' := Step(g, w, AtNode(a, GetsPayment(g.service)));
            Moved(w, w', a, d.(state := O.Completed))
  {
    var p, d' := w.peers[a], d.(state := O.Completed);
    Carrying(g, w, a, Told(p, GetsPayment(g.service)).(deal := d'), []);
    assert OnTransfer(d) == Reacts(d', []);
  }
}
