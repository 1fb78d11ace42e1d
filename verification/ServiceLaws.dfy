// What holds of every run of the commitment service: deposits are conserved, no more is paid out than came
// in, and timeouts always clear the table without touching swaps that reuse an id.
module ServiceLaws {
  import opened Bags
  import opened SwapTypes
  import opened SwapProtocol
  import opened Service

  // --- the books ---------------------------------------------------------------------------------------

  function Accepted(a: Account): multiset<Receipt> { a.ledger.accepted }
  function Refunded(a: Account): multiset<Refund> { a.ledger.refunded }
  function Sent(a: Account): multiset<Send> { multiset(a.ledger.sent) }

  // Receipts the swap recorded as the maker's and the taker's deposit; held while it runs, and kept for good
  // once it ended failed.
  function Deposits(s: Swap): multiset<Receipt> { AsBag(s.makerReceipt) + AsBag(s.takerReceipt) }
  function HeldBy(a: Account): multiset<Receipt> { if a.swap.Live() then Deposits(a.swap) else multiset{} }
  function ForfeitedBy(a: Account): multiset<Receipt> {
    if a.swap.terminated == Some(Failed) then Deposits(a.swap) else multiset{}
  }

  function ReceiptOf(f: Refund): Receipt { f.receipt }
  function Amount(r: Receipt): int { r.amount }
  function Gross(f: Refund): int { f.receipt.amount }

  // The union over all swaps ever opened.
  function Over<T>(swaps: seq<Account>, f: Account -> multiset<T>): multiset<T> {
    if swaps == [] then multiset{} else Over(swaps[..|swaps| - 1], f) + f(swaps[|swaps| - 1])
  }

  lemma OverExtend<T>(swaps: seq<Account>, a: Account, f: Account -> multiset<T>)
    ensures Over(swaps + [a], f) == Over(swaps, f) + f(a)
  {
    assert (swaps + [a])[..|swaps|] == swaps;
  }

  lemma {:induction false} OverReplace<T>(swaps: seq<Account>, k: nat, a: Account, f: Account -> multiset<T>,
                                          more: multiset<T>)
    requires k < |swaps| && f(a) == f(swaps[k]) + more
    ensures Over(swaps[k := a], f) == Over(swaps, f) + more
  {
    var front, last := swaps[..|swaps| - 1], |swaps| - 1;
    if k == last {
      assert swaps[k := a][..last] == front;
    } else {
      assert swaps[k := a][..last] == front[k := a];
      OverReplace(front, k, a, f, more);
    }
  }

  // The receipts an event hands to a running swap.
  function AcceptedBy(sv: Service, e: Event): multiset<Receipt> {
    if e.GotReceipt? && e.receipt.identifier in sv.table then multiset{e.receipt} else multiset{}
  }

  function AcceptedDuring(es: seq<Event>): multiset<Receipt> {
    if es == [] then multiset{}
    else AcceptedDuring(es[..|es| - 1]) + AcceptedBy(Run(IDLE, es[..|es| - 1]), es[|es| - 1])
  }

  function AllRefunds(sv: Service): multiset<Refund> { sv.queue + sv.inFlight + sv.paid }

  ghost predicate BooksAgree(sv: Service, accepted: multiset<Receipt>) {
    && Over(sv.swaps, Accepted) == accepted
    && Over(sv.swaps, Refunded) == AllRefunds(sv)
    && Over(sv.swaps, Sent) == multiset(sv.outbox)
  }

  // The receipt a trigger brings, if the swap takes it.
  function TakenBy(s: Swap, t: Trigger): multiset<Receipt> {
    if t.TransferReceipt? && Fire(s, t).result == Taken then multiset{t.receipt} else multiset{}
  }

  lemma DeliverKeepsBooks(sv: Service, k: nat, t: Trigger, accepted: multiset<Receipt>)
    requires k < |sv.swaps| && BooksAgree(sv, accepted)
    ensures BooksAgree(Deliver(sv, k, t), accepted + TakenBy(sv.swaps[k].swap, t))
  {
    var a, effects, more := sv.swaps[k], Fire(sv.swaps[k].swap, t).effects, TakenBy(sv.swaps[k].swap, t);
    OverReplace(sv.swaps, k, Advance(a, t), Accepted, more);
    OverReplace(sv.swaps, k, Advance(a, t), Refunded, effects.refunds);
    OverReplace(sv.swaps, k, Advance(a, t), Sent, multiset(effects.sends));
  }

  lemma OpenKeepsBooks(sv: Service, offerId: OfferId, secret: nat, secretHash: nat, accepted: multiset<Receipt>)
    requires BooksAgree(sv, accepted)
    ensures BooksAgree(Open(sv, offerId, secret, secretHash), accepted)
  {
    var a := Opened(offerId, secret, secretHash);
    OverExtend(sv.swaps, a, Accepted);
    OverExtend(sv.swaps, a, Refunded);
    OverExtend(sv.swaps, a, Sent);
  }

  lemma ExpireKeepsBooks(sv: Service, k: nat, accepted: multiset<Receipt>)
    requires k < |sv.swaps| && 0 < sv.swaps[k].swap.timers && BooksAgree(sv, accepted)
    ensures BooksAgree(Expire(sv, k), accepted)
  {
    var a := Expire(sv, k).swaps[k];
    OverReplace(sv.swaps, k, a, Accepted, multiset{});
    OverReplace(sv.swaps, k, a, Refunded, multiset{});
    OverReplace(sv.swaps, k, a, Sent, multiset{});
  }

  lemma ReceiptIsTaken(s: Swap, r: Receipt)
    requires Shape(s) && s.Live()
    ensures Fire(s, TransferReceipt(r)).result == Taken
  {
  }

  lemma StepKeepsBooks(sv: Service, e: Event, accepted: multiset<Receipt>)
    requires ServiceInv(sv) && BooksAgree(sv, accepted)
    ensures BooksAgree(Step(sv, e), accepted + AcceptedBy(sv, e))
  {
    match e
    case GotCommitment(c, secret, secretHash) => CommitmentKeepsBooks(sv, c, secret, secretHash, accepted);
    case GotReceipt(r) => ReceiptKeepsBooks(sv, r, accepted);
    case GotExecution(x, now) => RoutedKeepsBooks(sv, x.offerId, SwapExecutionMsg(x, now), accepted);
    case GotCancellation(id) => RoutedKeepsBooks(sv, id, Timeout, accepted);
    case TimerFired(k) => TimerKeepsBooks(sv, k, accepted);
    case RefundStarted(f) => RefundsMove(sv, e);
    case RefundAnswered(f, success) => RefundsMove(sv, e);
  }

  lemma CommitmentKeepsBooks(sv: Service, c: Commitment, secret: nat, secretHash: nat, accepted: multiset<Receipt>)
    requires ServiceInv(sv) && BooksAgree(sv, accepted)
    ensures BooksAgree(Step(sv, GotCommitment(c, secret, secretHash)), accepted)
  {
    if c.offerId in sv.table {
      RoutedKeepsBooks(sv, c.offerId, TakerCommitmentMsg(c), accepted);
    } else {
      OpenKeepsBooks(sv, c.offerId, secret, secretHash, accepted);
      DeliverKeepsBooks(Open(sv, c.offerId, secret, secretHash), |sv.swaps|, MakerCommitmentMsg(c), accepted);
    }
  }

  lemma RoutedKeepsBooks(sv: Service, id: OfferId, t: Trigger, accepted: multiset<Receipt>)
    requires ServiceInv(sv) && BooksAgree(sv, accepted) && !t.TransferReceipt?
    ensures BooksAgree(DeliverById(sv, id, t), accepted)
  {
    if id in sv.table { DeliverKeepsBooks(sv, sv.table[id], t, accepted); }
  }

  lemma ReceiptKeepsBooks(sv: Service, r: Receipt, accepted: multiset<Receipt>)
    requires ServiceInv(sv) && BooksAgree(sv, accepted)
    ensures BooksAgree(Step(sv, GotReceipt(r)), accepted + AcceptedBy(sv, GotReceipt(r)))
  {
    if r.identifier in sv.table {
      var k := sv.table[r.identifier];
      assert Healthy(sv.swaps[k]) && InTable(sv, k);
      ReceiptIsTaken(sv.swaps[k].swap, r);
      DeliverKeepsBooks(sv, k, TransferReceipt(r), accepted);
    }
  }

  lemma TimerKeepsBooks(sv: Service, k: nat, accepted: multiset<Receipt>)
    requires BooksAgree(sv, accepted)
    ensures BooksAgree(Step(sv, TimerFired(k)), accepted)
  {
    if k < |sv.swaps| && 0 < sv.swaps[k].swap.timers {
      ExpireKeepsBooks(sv, k, accepted);
      DeliverKeepsBooks(Expire(sv, k), k, Timeout, accepted);
    }
  }

  lemma RefundsMove(sv: Service, e: Event)
    requires e.RefundStarted? || e.RefundAnswered?
    ensures AllRefunds(Step(sv, e)) == AllRefunds(sv)
    ensures Step(sv, e).swaps == sv.swaps && Step(sv, e).outbox == sv.outbox
  {
  }

  lemma {:induction false} BooksAlwaysAgree(es: seq<Event>)
    ensures BooksAgree(Run(IDLE, es), AcceptedDuring(es))
  {
    if es != [] {
      var before := es[..|es| - 1];
      BooksAlwaysAgree(before);
      RunKeepsInv(before);
      StepKeepsBooks(Run(IDLE, before), es[|es| - 1], AcceptedDuring(before));
    }
  }

  // --- conservation ---------------------------------------------------------------------------------------

  lemma {:induction false} ReceiptsOfRefunds(m: multiset<Refund>, r: Receipt)
    ensures Image(m, ReceiptOf)[r] == m[Refund(r, false)] + m[Refund(r, true)]
    decreases |m|
  {
    if m != multiset{} {
      var f :| f in m;
      ReceiptsOfRefunds(m - multiset{f}, r);
      ImageRemove(m, ReceiptOf, f);
      assert f == Refund(f.receipt, f.claimFee);
    }
  }

  lemma AccountBalances(a: Account)
    requires AccountInv(a)
    ensures Accepted(a) == Image(Refunded(a), ReceiptOf) + HeldBy(a) + ForfeitedBy(a)
  {
    forall r ensures Accepted(a)[r] == (Image(Refunded(a), ReceiptOf) + HeldBy(a) + ForfeitedBy(a))[r] {
      BalancesAt(a, r);
    }
  }

  lemma BalancesAt(a: Account, r: Receipt)
    requires Shape(a.swap) && SettlesAt(a, r)
    ensures Accepted(a)[r] == Image(Refunded(a), ReceiptOf)[r] + HeldBy(a)[r] + ForfeitedBy(a)[r]
  {
    ReceiptsOfRefunds(a.ledger.refunded, r);
    DepositsCounted(a.swap, r);
  }

  lemma DepositsCounted(s: Swap, r: Receipt)
    ensures Deposits(s)[r] == DepositCount(s, r)
  {
  }

  lemma {:induction false} AllBalance(swaps: seq<Account>)
    requires forall a :: a in swaps ==> AccountInv(a)
    ensures Over(swaps, Accepted)
            == Image(Over(swaps, Refunded), ReceiptOf) + Over(swaps, HeldBy) + Over(swaps, ForfeitedBy)
  {
    if swaps != [] {
      var front, last := swaps[..|swaps| - 1], swaps[|swaps| - 1];
      AllBalance(front);
      AccountBalances(last);
      ImageUnion(Over(front, Refunded), Refunded(last), ReceiptOf);
    }
  }

  // Every receipt a swap ever took is in exactly one place: refunded (waiting, under way or paid), held by a
  // running swap, or forfeited by one that failed.
  lemma DepositsConserved(es: seq<Event>)
    ensures var sv := Run(IDLE, es);
            AcceptedDuring(es) == Image(sv.queue + sv.inFlight + sv.paid, ReceiptOf)
                                  + Over(sv.swaps, HeldBy) + Over(sv.swaps, ForfeitedBy)
  {
    RunKeepsInv(es);
    BooksAlwaysAgree(es);
    var sv := Run(IDLE, es);
    forall a | a in sv.swaps ensures AccountInv(a) { assert Healthy(a); }
    AllBalance(sv.swaps);
  }

  // --- solvency ----------------------------------------------------------------------------------------------

  predicate ValidRate(feeRate: Option<real>) { feeRate.Some? ==> 0.0 <= feeRate.value <= 1.0 }

  lemma PayoutWithinReceipt(f: Refund, feeRate: Option<real>)
    requires ValidRate(feeRate)
    ensures 0 <= Payout(f, feeRate) <= f.receipt.amount
  {
    if feeRate.Some? {
      var amount, rate := f.receipt.amount as real, feeRate.value;
      assert 0.0 <= amount * rate;
      assert amount * rate <= amount by { assert 0.0 <= amount * (1.0 - rate); }
    }
  }

  // The transfers that went through, the refunds still owed, the deposits held and those forfeited never add
  // up to more than what came in.
  lemma NeverInsolvent(es: seq<Event>, feeRate: Option<real>)
    requires ValidRate(feeRate)
    ensures var sv, pays := Run(IDLE, es), (f: Refund) => Payout(f, feeRate);
            && 0 <= Sum(sv.paid, pays)
            && Sum(sv.paid, pays) + Sum(sv.queue + sv.inFlight, Gross)
               + Sum(Over(sv.swaps, HeldBy), Amount) + Sum(Over(sv.swaps, ForfeitedBy), Amount)
               <= Sum(AcceptedDuring(es), Amount)
            && Sum(sv.paid, pays) <= Sum(AcceptedDuring(es), Amount)
  {
    var sv, pays := Run(IDLE, es), (f: Refund) => Payout(f, feeRate);
    var held, forfeited := Over(sv.swaps, HeldBy), Over(sv.swaps, ForfeitedBy);
    DepositsConserved(es);
    var owed, all := sv.queue + sv.inFlight, sv.queue + sv.inFlight + sv.paid;
    ImageUnion(owed, sv.paid, ReceiptOf);
    SumUnion(Image(all, ReceiptOf) + held, forfeited, Amount);
    SumUnion(Image(all, ReceiptOf), held, Amount);
    SumUnion(Image(owed, ReceiptOf), Image(sv.paid, ReceiptOf), Amount);
    forall f | f in sv.paid ensures 0 <= pays(f) <= Amount(ReceiptOf(f)) { PayoutWithinReceipt(f, feeRate); }
    SumBelowImage(sv.paid, ReceiptOf, Amount, pays);
    SumBelowImage(owed, ReceiptOf, Amount, Gross);
    SumNonNegative(owed, Gross);
    SumNonNegative(held, Amount);
    SumNonNegative(forfeited, Amount);
  }

  // Whatever fails and is put back: a refund queued by a swap stays exactly one of waiting, under way or paid.
  lemma RefundsNeverLost(es: seq<Event>)
    ensures Over(Run(IDLE, es).swaps, Refunded) == Run(IDLE, es).queue + Run(IDLE, es).inFlight + Run(IDLE, es).paid
  {
    BooksAlwaysAgree(es);
  }

  // --- timeouts and the table -----------------------------------------------------------------------------------

  // A running swap sits in the table under its id, its timeout was armed once and is still to come, and when
  // it comes the swap ends and leaves the table.
  lemma TimeoutClears(sv: Service, k: nat)
    requires ServiceInv(sv) && k < |sv.swaps| && sv.swaps[k].swap.Live()
    ensures sv.swaps[k].ledger.armed == 1 && sv.swaps[k].swap.timers == 1
    ensures var id, sv' := sv.swaps[k].swap.offerId, Step(sv, TimerFired(k));
            && id in sv.table && sv.table[id] == k
            && sv'.swaps[k].swap.state == Processed
            && sv'.table == sv.table - {id}
  {
    assert Healthy(sv.swaps[k]);
    assert InTable(sv, k);
    TimerEnds(sv.swaps[k], Expire(sv, k).swaps[k]);
  }

  // A timeout that comes after its swap ended changes nothing but its own timer, whatever swap now runs under
  // the same id.
  lemma LateTimeoutIsHarmless(sv: Service, k: nat)
    requires ServiceInv(sv) && k < |sv.swaps| && !sv.swaps[k].swap.Live() && 0 < sv.swaps[k].swap.timers
    ensures Step(sv, TimerFired(k)) == Expire(sv, k)
    ensures Expire(sv, k).table == sv.table
    ensures forall j :: 0 <= j < |sv.swaps| && j != k ==> Expire(sv, k).swaps[j] == sv.swaps[j]
  {
    assert Healthy(sv.swaps[k]);
    var late := Expire(sv, k);
    var a := late.swaps[k];
    FireFrame(a.swap, Timeout);
    assert Advance(a, Timeout) == a by {
      assert a.ledger.accepted + multiset{} == a.ledger.accepted && a.ledger.refunded + multiset{} == a.ledger.refunded;
      assert a.ledger.sent + [] == a.ledger.sent && a.ledger.offered + [] == a.ledger.offered;
    }
    assert late.swaps[k := a] == late.swaps;
    assert late.queue + multiset{} == late.queue && late.outbox + [] == late.outbox;
  }

  function FireTimers(sv: Service, ks: seq<nat>): Service
    decreases |ks|
  {
    if ks == [] then sv else FireTimers(Step(sv, TimerFired(ks[0])), ks[1..])
  }

  lemma TimerStep(sv: Service, k: nat)
    requires ServiceInv(sv)
    ensures var sv' := Step(sv, TimerFired(k));
            && ServiceInv(sv') && |sv'.swaps| == |sv.swaps|
            && (forall j :: 0 <= j < |sv.swaps| && !sv.swaps[j].swap.Live() ==> !sv'.swaps[j].swap.Live())
            && (k < |sv.swaps| ==> !sv'.swaps[k].swap.Live())
  {
    StepKeepsInv(sv, TimerFired(k));
    if k < |sv.swaps| {
      assert Healthy(sv.swaps[k]);
      if 0 < sv.swaps[k].swap.timers {
        var sv' := Step(sv, TimerFired(k));
        assert sv'.swaps == sv.swaps[k := sv'.swaps[k]];
        TimerEnds(sv.swaps[k], Expire(sv, k).swaps[k]);
      }
    }
  }

  lemma TableRuns(sv: Service)
    requires ServiceInv(sv)
    ensures forall id :: id in sv.table ==> sv.table[id] < |sv.swaps| && sv.swaps[sv.table[id]].swap.Live()
  {
    forall id | id in sv.table ensures sv.swaps[sv.table[id]].swap.Live() { assert InTable(sv, sv.table[id]); }
  }

  // In whatever order the timers run out, once each swap's has, nothing is left in the table.
  lemma {:induction false} TimersEmptyTable(sv: Service, ks: seq<nat>)
    requires ServiceInv(sv)
    requires forall k :: 0 <= k < |sv.swaps| && sv.swaps[k].swap.Live() ==> k in ks
    ensures FireTimers(sv, ks).table == map[]
    decreases |ks|
  {
    if ks == [] {
      TableRuns(sv);
    } else {
      TimerStep(sv, ks[0]);
      TimersEmptyTable(Step(sv, TimerFired(ks[0])), ks[1..]);
    }
  }
}
