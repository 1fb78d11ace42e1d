// Completion is reached: a run in which the offer is published, taken, exchanged and refunded, and both its sides
// complete.
module CompletedRun {
  import opened SwapTypes
  import P = SwapProtocol
  import S = Service
  import R = ServiceRuns
  import O = OfferMachine
  import opened OfferDeals
  import opened Agreement
  import opened AgreementLaws
  import opened AgreementMoves

  // The messages the service gets.
  function TradeOf(g: Setting): R.Trade {
    R.Trade(CommitmentBy(g, g.maker), 0, 0, DepositBy(g, g.maker),
            CommitmentBy(g, TakerOf(g)), (0, 0), DepositBy(g, TakerOf(g)),
            Execution(g.maker, g.offerId, 0), 0, Execution(TakerOf(g), g.offerId, 0), 0)
  }

  // The service has had the first n of them.
  ghost predicate Served(g: Setting, w: World, n: nat) { R.At(w.service, 0, TradeOf(g), n) }

  lemma ServiceMoves(g: Setting, w: World, n: nat)
    requires Served(g, w, n) && n <= 5 && ReachesService(g, w, TradeOf(g).Script()[n])
    ensures var w' := Step(g, w, AtService(TradeOf(g).Script()[n]));
            && Served(g, w', n + 1) && w'.peers == w.peers && w'.net == w.net
            && w'.deposited == (if n == 1 then w.deposited + {g.maker}
                                else if n == 3 then w.deposited + {TakerOf(g)}
                                else w.deposited)
  {
    R.ScriptMoves(w.service, 0, TradeOf(g), n);
  }

  // The service's proofs, once the deposits are in.
  lemma ServiceSays(g: Setting, w: World, n: nat)
    requires Served(g, w, n)
    ensures 2 <= n ==> Sent(w, CommitmentProof(ProofIn(g)), g.maker)
    ensures 4 <= n ==> Sent(w, CommitmentProof(ProofIn(g)), TakerOf(g))
    ensures n == 6 ==> PaidBack(w, g.maker) && PaidBack(w, TakerOf(g))
  {
    var a, t := w.service.swaps[0], TakerOf(g);
    assert a in w.service.swaps && S.Healthy(a);
    if 2 <= n {
      var m := Send(CommitmentProof(ProofIn(g)), Some(g.maker));
      assert P.MakerProofSend(a.swap) == m;
      assert a.ledger.sent[0] == m;
    }
    if 4 <= n {
      var m := Send(CommitmentProof(ProofIn(g)), Some(t));
      assert P.TakerProofSend(a.swap) == m;
      assert a.ledger.sent[2] == m;
    }
    if n == 6 {
      assert Refund(DepositBy(g, g.maker), true) in a.ledger.refunded;
      assert Refund(DepositBy(g, t), true) in a.ledger.refunded;
    }
  }

  // --- the run ---------------------------------------------------------------------------------------------------

  function Offered(g: Setting): Deal { Deal(O.Proved, Some(ProofIn(g)), None) }
  function MakerDeal(g: Setting, s: O.OfferState): Deal {
    Deal(s, Some(ProofIn(g)), Some(Match(Maker, TakerOf(g), ProofIn(g))))
  }
  function TakerDeal(g: Setting, s: O.OfferState): Deal {
    Deal(s, Some(ProofIn(g)), Some(Match(Taker, g.maker, ProofIn(g))))
  }

  lemma MakerCommits(g: Setting) returns (mvs: seq<Move>)
    requires g.maker != g.service
    ensures var w := Run(g, mvs);
            && Is(w, g.maker, Deal(O.Unproved, None, None)) && TakerOf(g) !in w.peers
            && Deposit(g.maker) in w.net && w.deposited == {} && Served(g, w, 1)
  {
    var m1, m2 := AtNode(g.maker, Offers), AtService(TradeOf(g).Script()[0]);
    RunOneMore(g, [], m1);
    RunOneMore(g, [] + [m1], m2);
    MakerOffers(g, NOTHING_YET);
    R.OpensAt(S.IDLE, TradeOf(g));
    mvs := [] + [m1] + [m2];
  }

  // The maker commits, deposits, and publishes its proven offer.
  lemma MakerPublishes(g: Setting) returns (mvs: seq<Move>)
    requires g.maker != g.service
    ensures var w := Run(g, mvs);
            && Is(w, g.maker, Offered(g)) && TakerOf(g) !in w.peers
            && Broadcast(g.maker) in w.net && w.deposited == {g.maker} && Served(g, w, 2)
  {
    var before := MakerCommits(g);
    var w := Run(g, before);
    var m1, m2 := AtService(TradeOf(g).Script()[1]), AtNode(g.maker, GetsProof(ProofIn(g)));
    RunOneMore(g, before, m1);
    RunOneMore(g, before + [m1], m2);
    ServiceMoves(g, w, 1);
    ServiceSays(g, Step(g, w, m1), 2);
    MakerIsProved(g, Step(g, w, m1));
    mvs := before + [m1] + [m2];
  }

  function Listening(g: Setting): Deal { Deal(O.Published, Some(ProofIn(g)), None) }
  function Taking(g: Setting): Deal { Deal(O.Unproved, None, Some(Match(Taker, g.maker, ProofIn(g)))) }

  // The taker takes it while the maker listens.
  lemma OfferIsTaken(g: Setting) returns (mvs: seq<Move>)
    requires g.maker != g.service
    ensures var w := Run(g, mvs);
            && Is(w, g.maker, Listening(g)) && w.peers[g.maker].listening && Is(w, TakerOf(g), Taking(g))
            && CommitMsg(TakerOf(g)) in w.net && Deposit(TakerOf(g)) in w.net
            && w.deposited == {g.maker} && Served(g, w, 2)
  {
    var before := MakerPublishes(g);
    var w, t := Run(g, before), TakerOf(g);
    var m1, m2 := AtNode(t, Takes(ProofIn(g))), AtNode(g.maker, SeesOffer);
    RunOneMore(g, before, m1);
    RunOneMore(g, before + [m1], m2);
    TakerTakes(g, w, t);
    MakerSees(g, Step(g, w, m1));
    mvs := before + [m1] + [m2];
  }

  // The taker commits and deposits.
  lemma TakerCommits(g: Setting) returns (mvs: seq<Move>)
    requires g.maker != g.service
    ensures var w := Run(g, mvs);
            && Is(w, g.maker, Listening(g)) && w.peers[g.maker].listening && Is(w, TakerOf(g), Taking(g))
            && Served(g, w, 4)
  {
    var before := OfferIsTaken(g);
    var w, script := Run(g, before), TradeOf(g).Script();
    var m1, m2 := AtService(script[2]), AtService(script[3]);
    RunOneMore(g, before, m1);
    RunOneMore(g, before + [m1], m2);
    ServiceMoves(g, w, 2);
    ServiceMoves(g, Step(g, w, m1), 3);
    mvs := before + [m1] + [m2];
  }

  // Both pay each other and report it.
  lemma BothPay(g: Setting) returns (mvs: seq<Move>)
    requires g.maker != g.service
    ensures var w := Run(g, mvs);
            && Is(w, g.maker, MakerDeal(g, O.WaitForRefund)) && g.service in w.peers[g.maker].expects
            && Is(w, TakerOf(g), TakerDeal(g, O.WaitForRefund)) && g.service in w.peers[TakerOf(g)].expects
            && Executed(g.maker) in w.net && Executed(TakerOf(g)) in w.net && Served(g, w, 4)
  {
    var before := TakerCommits(g);
    var w, t := Run(g, before), TakerOf(g);
    var m1, m2 := AtNode(t, GetsProof(ProofIn(g))), AtNode(g.maker, Called(t, ProofIn(g)));
    var m3, m4 := AtNode(t, GetsPayment(g.maker)), AtNode(g.maker, GetsPayment(t));
    RunOneMore(g, before, m1);
    RunOneMore(g, before + [m1], m2);
    RunOneMore(g, before + [m1] + [m2], m3);
    RunOneMore(g, before + [m1] + [m2] + [m3], m4);
    ServiceSays(g, w, 4);
    TakerPays(g, w, t);
    MakerIsCalled(g, Step(g, w, m1), t);
    var w2 := Step(g, Step(g, w, m1), m2);
    IsPaid(g, w2, t, g.maker, TakerDeal(g, O.Exchanging));
    IsPaid(g, Step(g, w2, m3), g.maker, t, MakerDeal(g, O.Exchanging));
    mvs := before + [m1] + [m2] + [m3] + [m4];
  }

  // The service hears of both payments.
  lemma SwapIsTraded(g: Setting) returns (mvs: seq<Move>)
    requires g.maker != g.service
    ensures var w := Run(g, mvs);
            && Is(w, g.maker, MakerDeal(g, O.WaitForRefund)) && g.service in w.peers[g.maker].expects
            && Is(w, TakerOf(g), TakerDeal(g, O.WaitForRefund)) && g.service in w.peers[TakerOf(g)].expects
            && Served(g, w, 6)
  {
    var before := BothPay(g);
    var w, script := Run(g, before), TradeOf(g).Script();
    var m1, m2 := AtService(script[4]), AtService(script[5]);
    RunOneMore(g, before, m1);
    RunOneMore(g, before + [m1], m2);
    ServiceMoves(g, w, 4);
    ServiceMoves(g, Step(g, w, m1), 5);
    mvs := before + [m1] + [m2];
  }

  // For every maker and service there is a run in which the swap is traded and both offers complete, whether or not
  // commitments may be late.
  lemma EverybodyCompletes(g: Setting) returns (mvs: seq<Move>)
    requires g.maker != g.service
    ensures var w := Run(g, mvs);
            && Is(w, g.maker, MakerDeal(g, O.Completed)) && Is(w, TakerOf(g), TakerDeal(g, O.Completed))
            && w.service.swaps != [] && w.service.swaps[0].swap.terminated == Some(P.Traded)
            && w.service.swaps[0].ledger.refunded
               == multiset{Refund(DepositBy(g, g.maker), true), Refund(DepositBy(g, TakerOf(g)), true)}
  {
    var before := SwapIsTraded(g);
    var w, t := Run(g, before), TakerOf(g);
    var m1, m2 := AtNode(g.maker, GetsPayment(g.service)), AtNode(t, GetsPayment(g.service));
    RunOneMore(g, before, m1);
    RunOneMore(g, before + [m1], m2);
    ServiceSays(g, w, 6);
    IsRefunded(g, w, g.maker, MakerDeal(g, O.WaitForRefund));
    IsRefunded(g, Step(g, w, m1), t, TakerDeal(g, O.WaitForRefund));
    mvs := before + [m1] + [m2];
  }
}
