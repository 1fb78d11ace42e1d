// Exclusion needs its one assumption on timing. If a commitment may arrive after its offer's swap was canceled, it
// opens a second swap for the same offer: the service proves the commitment to the taker, who pays a maker whose
// own offer is canceled.
module LateCommitment {
  import opened SwapTypes
  import P = SwapProtocol
  import S = Service
  import O = OfferMachine
  import opened OfferDeals
  import opened Agreement
  import opened AgreementLaws
  import opened AgreementMoves

  // --- the service: a canceled swap, and a second one ------------------------------------------------------------

  function Committed(g: Setting, sv: S.Service, a: Address): S.Service {
    S.Step(sv, S.GotCommitment(CommitmentBy(g, a), 0, 0))
  }
  function Funded(g: Setting, sv: S.Service, a: Address): S.Service { S.Step(sv, S.GotReceipt(DepositBy(g, a))) }
  function Cancelled(g: Setting, sv: S.Service): S.Service { S.Step(sv, S.GotCancellation(g.offerId)) }

  ghost predicate Says(sv: S.Service, m: Message, to: Address) {
    exists a :: a in sv.swaps && Send(m, Some(to)) in a.ledger.sent
  }

  // The newest swap is the first k's successor, opened by this sender.
  predicate Newest(g: Setting, sv: S.Service, k: nat, a: Address, state: P.State) {
    && |sv.swaps| == k + 1 && g.offerId in sv.table && sv.table[g.offerId] == k
    && var s := sv.swaps[k].swap;
    && s.offerId == g.offerId && s.state == state && s.secret == 0 && s.secretHash == 0
    && s.makerCommitment == Some(CommitmentBy(g, a))
  }

  lemma CommitmentOpens(g: Setting, sv: S.Service, a: Address)
    requires g.offerId !in sv.table
    ensures Newest(g, Committed(g, sv, a), |sv.swaps|, a, P.WaitForMaker)
  {
  }

  lemma DepositProves(g: Setting, sv: S.Service, k: nat, a: Address)
    requires Newest(g, sv, k, a, P.WaitForMaker)
    ensures Newest(g, Funded(g, sv, a), k, a, P.WaitForTaker)
    ensures Says(Funded(g, sv, a), CommitmentProof(ProofIn(g)), a)
    ensures Funded(g, sv, a).swaps[k].swap.makerProof == Some(ProofIn(g))
  {
    var account := Funded(g, sv, a).swaps[k];
    assert account == P.Advance(sv.swaps[k], P.TransferReceipt(DepositBy(g, a)));
    assert Send(CommitmentProof(ProofIn(g)), Some(a)) in account.ledger.sent;
    assert account in Funded(g, sv, a).swaps;
  }

  lemma CancellationDrops(g: Setting, sv: S.Service, a: Address)
    requires Newest(g, sv, 0, a, P.WaitForTaker) && sv.swaps[0].swap.makerProof == Some(ProofIn(g))
    ensures g.offerId !in Cancelled(g, sv).table && |Cancelled(g, sv).swaps| == 1
    ensures Says(Cancelled(g, sv), CancellationProof(g.offerId, Some(ProofIn(g))), a)
  {
    var account := Cancelled(g, sv).swaps[0];
    assert account == P.Advance(sv.swaps[0], P.Timeout);
    assert Send(CancellationProof(g.offerId, Some(ProofIn(g))), Some(a)) in account.ledger.sent;
    assert account in Cancelled(g, sv).swaps;
  }

  // --- the run ---------------------------------------------------------------------------------------------------

  lemma MakerCommits(g: Setting) returns (mvs: seq<Move>)
    requires g.maker != g.service
    ensures var w := Run(g, mvs);
            && Is(w, g.maker, Deal(O.Unproved, None, None)) && TakerOf(g) !in w.peers
            && Deposit(g.maker) in w.net && w.deposited == {}
            && Newest(g, w.service, 0, g.maker, P.WaitForMaker)
  {
    var m1, m2 := AtNode(g.maker, Offers), AtService(S.GotCommitment(CommitmentBy(g, g.maker), 0, 0));
    RunOneMore(g, [], m1);
    RunOneMore(g, [] + [m1], m2);
    MakerOffers(g, NOTHING_YET);
    CommitmentOpens(g, S.IDLE, g.maker);
    mvs := [] + [m1] + [m2];
  }

  lemma MakerPublishes(g: Setting) returns (mvs: seq<Move>)
    requires g.maker != g.service
    ensures var w := Run(g, mvs);
            && Is(w, g.maker, Deal(O.Proved, Some(ProofIn(g)), None)) && TakerOf(g) !in w.peers
            && Broadcast(g.maker) in w.net && w.deposited == {g.maker}
            && Newest(g, w.service, 0, g.maker, P.WaitForTaker)
            && w.service.swaps[0].swap.makerProof == Some(ProofIn(g))
  {
    var before := MakerCommits(g);
    var w := Run(g, before);
    var m1, m2 := AtService(S.GotReceipt(DepositBy(g, g.maker))), AtNode(g.maker, GetsProof(ProofIn(g)));
    RunOneMore(g, before, m1);
    RunOneMore(g, before + [m1], m2);
    DepositProves(g, w.service, 0, g.maker);
    assert Step(g, w, m1).service == Funded(g, w.service, g.maker);
    MakerIsProved(g, Step(g, w, m1));
    mvs := before + [m1] + [m2];
  }

  lemma SwapIsCanceled(g: Setting) returns (mvs: seq<Move>)
    requires g.maker != g.service
    ensures var w := Run(g, mvs); var t := TakerOf(g);
            && Is(w, g.maker, Deal(O.Canceled, Some(ProofIn(g)), None)) && w.deposited == {g.maker}
            && Is(w, t, Deal(O.Unproved, None, Some(Match(Taker, g.maker, ProofIn(g)))))
            && CommitMsg(t) in w.net && Deposit(t) in w.net
            && g.offerId !in w.service.table
  {
    var before := MakerPublishes(g);
    var t, w := TakerOf(g), Run(g, before);
    var m1, m2 := AtNode(t, Takes(ProofIn(g))), AtService(S.GotCancellation(g.offerId));
    var m3 := AtNode(g.maker, GetsCancellation(Some(ProofIn(g))));
    RunOneMore(g, before, m1);
    RunOneMore(g, before + [m1], m2);
    RunOneMore(g, before + [m1] + [m2], m3);
    TakerTakes(g, w, t);
    CancellationDrops(g, w.service, g.maker);
    var w2 := Step(g, Step(g, w, m1), m2);
    assert w2.service == Cancelled(g, w.service);
    MakerIsCanceled(g, w2);
    mvs := before + [m1] + [m2] + [m3];
  }

  lemma TakerIsDeceived(g: Setting) returns (mvs: seq<Move>)
    requires g.maker != g.service && g.late
    ensures var w := Run(g, mvs); var t := TakerOf(g);
            && Is(w, g.maker, Deal(O.Canceled, Some(ProofIn(g)), None))
            && t in w.peers && w.peers[t].deal.state == O.Exchanging && Payment(t, g.maker) in w.net
  {
    var before := SwapIsCanceled(g);
    var t, w := TakerOf(g), Run(g, before);
    var m1, m2 := AtService(S.GotCommitment(CommitmentBy(g, t), 0, 0)), AtService(S.GotReceipt(DepositBy(g, t)));
    var m3 := AtNode(t, GetsProof(ProofIn(g)));
    RunOneMore(g, before, m1);
    RunOneMore(g, before + [m1], m2);
    RunOneMore(g, before + [m1] + [m2], m3);
    CommitmentOpens(g, w.service, t);
    var w1, w2 := Step(g, w, m1), Step(g, Step(g, w, m1), m2);
    DepositProves(g, w1.service, |w.service.swaps|, t);
    assert w2.service == Funded(g, w1.service, t);
    TakerPays(g, w2, t);
    mvs := before + [m1] + [m2] + [m3];
  }

  // No run has an offer canceled by a cancellation proof while some node exchanges, waits for its refund or completed.
  ghost predicate Exclusive(g: Setting, mvs: seq<Move>) {
    forall a, b :: a in Run(g, mvs).peers && b in Run(g, mvs).peers && Run(g, mvs).peers[a].deal.state == O.Canceled ==>
      !O.InDeal(Run(g, mvs).peers[b].deal.state)
  }

  // Exclusion holds in every run exactly when no commitment can be late.
  lemma ExclusionNeedsPromptness(g: Setting)
    requires g.maker != g.service
    ensures (forall mvs :: Exclusive(g, mvs)) <==> !g.late
  {
    if g.late {
      var mvs := TakerIsDeceived(g);
      assert !Exclusive(g, mvs);
    } else {
      forall mvs ensures Exclusive(g, mvs) {
        forall a, b | a in Run(g, mvs).peers && b in Run(g, mvs).peers && Run(g, mvs).peers[a].deal.state == O.Canceled
          ensures !O.InDeal(Run(g, mvs).peers[b].deal.state)
        {
          CanceledMeansNobodyTrades(g, mvs, a, b);
        }
      }
    }
  }
}
