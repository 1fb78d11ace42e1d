// What the service does for its clients over whole runs: the messages of a trade settle its swap, only a timer or a
// cancellation request ends one otherwise, and a refund is paid exactly when its transfer is answered with success.
module ServiceRuns {
  import opened SwapTypes
  import opened SwapProtocol
  import opened Service
  import opened ServiceLaws

  // --- a trade ------------------------------------------------------------------------------------------------

  // The messages of a trade, in the order the service gets them. The second commitment needs no secret.
  datatype Trade = Trade(
    maker: Commitment, secret: nat, secretHash: nat, makerDeposit: Receipt,
    taker: Commitment, unused: (nat, nat), takerDeposit: Receipt,
    first: Execution, firstAt: int, second: Execution, secondAt: int)
  {
    function Id(): OfferId { maker.offerId }

    // All of one offer, the deposits from those who committed, and an execution message of each, in either order.
    predicate Fits() {
      && taker.offerId == Id() && makerDeposit.identifier == Id() && takerDeposit.identifier == Id()
      && first.offerId == Id() && second.offerId == Id()
      && makerDeposit.initiator == maker.sender && takerDeposit.initiator == taker.sender
      && ((first.sender == maker.sender && second.sender == taker.sender)
          || (first.sender == taker.sender && second.sender == maker.sender))
    }

    function Script(): seq<Event> {
      [GotCommitment(maker, secret, secretHash), GotReceipt(makerDeposit),
       GotCommitment(taker, unused.0, unused.1), GotReceipt(takerDeposit),
       GotExecution(first, firstAt), GotExecution(second, secondAt)]
    }
  }

  // An event of other ids, or of another swap's timer. Refund transfers never concern a swap.
  predicate Elsewhere(e: Event, id: OfferId, k: nat) {
    match e
    case GotCommitment(c, _, _) => c.offerId != id
    case GotReceipt(r) => r.identifier != id
    case GotExecution(x, _) => x.offerId != id
    case GotCancellation(other) => other != id
    case TimerFired(j) => j != k
    case RefundStarted(_) => true
    case RefundAnswered(_, _) => true
  }

  function Concerning(es: seq<Event>, id: OfferId, k: nat): seq<Event> {
    if es == [] then []
    else
      var last := es[|es| - 1];
      Concerning(es[..|es| - 1], id, k) + (if Elsewhere(last, id, k) then [] else [last])
  }

  // --- one swap, after the first n messages of its trade ----------------------------------------------------------

  predicate Stage(a: Account, tr: Trade, n: nat) {
    var s := a.swap;
    && s.offerId == tr.Id() && s.secret == tr.secret && s.secretHash == tr.secretHash
    && s.makerCommitment == Some(tr.maker) && 1 <= n <= 6
    && s.state == StateAfter(tr, n)
    && (n <= 2 ==> s.pool == map[])
    && (n == 3 ==> s.pool == map[tr.taker.sender := tr.taker])
    && (2 <= n ==> s.makerReceipt == Some(tr.makerDeposit))
    && (4 <= n ==> s.takerCommitment == Some(tr.taker) && s.takerReceipt == Some(tr.takerDeposit))
    && (n == 6 ==> s.terminated == Some(Traded) && a.ledger.completedAt == tr.secondAt)
    && a.ledger.refunded == (if n < 6 then multiset{} else BothWithFee(tr))
  }

  function BothWithFee(tr: Trade): multiset<Refund> {
    multiset{Refund(tr.makerDeposit, true), Refund(tr.takerDeposit, true)}
  }

  function StateAfter(tr: Trade, n: nat): State {
    match n
    case 1 => WaitForMaker
    case 2 => WaitForTaker
    case 3 => WaitForTaker
    case 4 => WaitForExecution
    case 5 => if tr.first.sender == tr.maker.sender then WaitForTakerExecution else WaitForMakerExecution
    case _ => Processed
  }

  function TriggerAfter(tr: Trade, n: nat): Trigger
    requires 1 <= n <= 5
  {
    match n
    case 1 => TransferReceipt(tr.makerDeposit)
    case 2 => TakerCommitmentMsg(tr.taker)
    case 3 => TransferReceipt(tr.takerDeposit)
    case 4 => SwapExecutionMsg(tr.first, tr.firstAt)
    case 5 => SwapExecutionMsg(tr.second, tr.secondAt)
  }

  lemma StageMoves(a: Account, tr: Trade, n: nat)
    requires tr.Fits() && Shape(a.swap) && Stage(a, tr, n) && n <= 5
    ensures Stage(Advance(a, TriggerAfter(tr, n)), tr, n + 1)
    ensures Fire(a.swap, TriggerAfter(tr, n)).result == Taken
    ensures n == 5 ==>
              var effects := Fire(a.swap, TriggerAfter(tr, n)).effects;
              && effects.refunds == BothWithFee(tr)
              && effects.sends == [Send(SwapCompleted(tr.Id(), tr.secondAt), None)] && effects.dropped
  {
    match n
    case 1 => DepositMoves(a, tr);
    case 2 =>
    case 3 => TakerDepositMoves(a, tr);
    case 4 => FirstExecutionMoves(a, tr);
    case 5 => SecondExecutionMoves(a, tr);
  }

  lemma DepositMoves(a: Account, tr: Trade)
    requires tr.Fits() && Stage(a, tr, 1)
    ensures Stage(Advance(a, TransferReceipt(tr.makerDeposit)), tr, 2)
    ensures Fire(a.swap, TransferReceipt(tr.makerDeposit)).result == Taken
  {
  }

  lemma TakerDepositMoves(a: Account, tr: Trade)
    requires tr.Fits() && Stage(a, tr, 3)
    ensures Stage(Advance(a, TransferReceipt(tr.takerDeposit)), tr, 4)
    ensures Fire(a.swap, TransferReceipt(tr.takerDeposit)).result == Taken
  {
  }

  lemma FirstExecutionMoves(a: Account, tr: Trade)
    requires tr.Fits() && Stage(a, tr, 4)
    ensures Stage(Advance(a, SwapExecutionMsg(tr.first, tr.firstAt)), tr, 5)
    ensures Fire(a.swap, SwapExecutionMsg(tr.first, tr.firstAt)).result == Taken
  {
  }

  lemma SecondExecutionMoves(a: Account, tr: Trade)
    requires tr.Fits() && Stage(a, tr, 5)
    ensures Stage(Advance(a, SwapExecutionMsg(tr.second, tr.secondAt)), tr, 6)
    ensures var o := Fire(a.swap, SwapExecutionMsg(tr.second, tr.secondAt));
            && o.result == Taken && o.effects.refunds == BothWithFee(tr)
            && o.effects.sends == [Send(SwapCompleted(tr.Id(), tr.secondAt), None)] && o.effects.dropped
  {
    assert multiset{Refund(tr.makerDeposit, true)} + multiset{Refund(tr.takerDeposit, true)} == BothWithFee(tr);
  }

  // --- the service ----------------------------------------------------------------------------------------------

  // Another id's event leaves this swap, and whether its id is in use.
  lemma ElsewhereKeeps(sv: Service, e: Event, id: OfferId, k: nat)
    requires ServiceInv(sv) && k < |sv.swaps| && sv.swaps[k].swap.offerId == id && Elsewhere(e, id, k)
    requires id in sv.table ==> sv.table[id] == k
    ensures k < |Step(sv, e).swaps| && Step(sv, e).swaps[k] == sv.swaps[k]
    ensures id in Step(sv, e).table <==> id in sv.table
  {
    match e
    case GotCommitment(c, secret, secretHash) => RoutedElsewhere(sv, c.offerId, TakerCommitmentMsg(c), id, k);
    case GotReceipt(r) => RoutedElsewhere(sv, r.identifier, TransferReceipt(r), id, k);
    case GotExecution(x, now) => RoutedElsewhere(sv, x.offerId, SwapExecutionMsg(x, now), id, k);
    case GotCancellation(other) => RoutedElsewhere(sv, other, Timeout, id, k);
    case TimerFired(j) => TimerElsewhere(sv, j, id, k);
    case RefundStarted(_) =>
    case RefundAnswered(_, _) =>
  }

  lemma RoutedElsewhere(sv: Service, other: OfferId, t: Trigger, id: OfferId, k: nat)
    requires ServiceInv(sv) && k < |sv.swaps| && sv.swaps[k].swap.offerId == id && other != id
    ensures k < |DeliverById(sv, other, t).swaps| && DeliverById(sv, other, t).swaps[k] == sv.swaps[k]
    ensures id in DeliverById(sv, other, t).table <==> id in sv.table
  {
  }

  // A timer that ends its swap frees the id it was filed under, and only the running swap is filed there.
  lemma TimerElsewhere(sv: Service, j: nat, id: OfferId, k: nat)
    requires ServiceInv(sv) && k < |sv.swaps| && sv.swaps[k].swap.offerId == id && j != k
    requires id in sv.table ==> sv.table[id] == k
    ensures Step(sv, TimerFired(j)).swaps[k] == sv.swaps[k]
    ensures id in Step(sv, TimerFired(j)).table <==> id in sv.table
  {
    if j < |sv.swaps| && 0 < sv.swaps[j].swap.timers {
      assert Healthy(sv.swaps[j]);
      assert sv.swaps[j].swap.Live() <==> InTable(sv, j);
      FireFrame(Expire(sv, j).swaps[j].swap, Timeout);
    }
  }

  // Swap k has had the first n messages of its trade; its id is in use until the last.
  ghost predicate At(sv: Service, k: nat, tr: Trade, n: nat) {
    && ServiceInv(sv) && k < |sv.swaps| && Stage(sv.swaps[k], tr, n)
    && (if n < 6 then InTable(sv, k) else tr.Id() !in sv.table)
  }

  lemma OpensAt(sv: Service, tr: Trade)
    requires ServiceInv(sv) && tr.Id() !in sv.table && tr.Fits()
    ensures At(Step(sv, tr.Script()[0]), |sv.swaps|, tr, 1)
  {
    StepKeepsInv(sv, tr.Script()[0]);
    var sv' := Step(sv, tr.Script()[0]);
    assert sv'.swaps[|sv.swaps|] == Advance(Opened(tr.Id(), tr.secret, tr.secretHash), MakerCommitmentMsg(tr.maker));
    assert sv'.swaps[|sv.swaps|].swap.Live() <==> InTable(sv', |sv.swaps|);
  }

  lemma ElsewhereStays(sv: Service, k: nat, tr: Trade, n: nat, e: Event)
    requires At(sv, k, tr, n) && Elsewhere(e, tr.Id(), k)
    ensures At(Step(sv, e), k, tr, n)
  {
    StepKeepsInv(sv, e);
    ElsewhereKeeps(sv, e, tr.Id(), k);
    assert Step(sv, e).swaps[k].swap.Live() <==> InTable(Step(sv, e), k);
  }

  // The next message of the trade; the last one settles.
  lemma ScriptMoves(sv: Service, k: nat, tr: Trade, n: nat)
    requires At(sv, k, tr, n) && tr.Fits() && n <= 5
    ensures At(Step(sv, tr.Script()[n]), k, tr, n + 1)
    ensures n == 5 ==>
              && Step(sv, tr.Script()[5]).queue == sv.queue + BothWithFee(tr)
              && Step(sv, tr.Script()[5]).outbox == sv.outbox + [Send(SwapCompleted(tr.Id(), tr.secondAt), None)]
  {
    StepKeepsInv(sv, tr.Script()[n]);
    ScriptDelivers(sv, k, tr, n);
    assert Healthy(sv.swaps[k]);
    StageMoves(sv.swaps[k], tr, n);
    var sv' := Step(sv, tr.Script()[n]);
    assert sv'.swaps[k] == Advance(sv.swaps[k], TriggerAfter(tr, n));
    assert sv'.swaps[k].swap.Live() <==> InTable(sv', k);
  }

  lemma ScriptDelivers(sv: Service, k: nat, tr: Trade, n: nat)
    requires k < |sv.swaps| && sv.swaps[k].swap.offerId == tr.Id() && InTable(sv, k) && tr.Fits() && 1 <= n <= 5
    ensures Step(sv, tr.Script()[n]) == Deliver(sv, k, TriggerAfter(tr, n))
  {
  }

  lemma {:induction false} ScriptRuns(sv: Service, k: nat, tr: Trade, n: nat, m: nat, es: seq<Event>)
    requires At(sv, k, tr, n) && tr.Fits() && n <= m <= 6
    requires Concerning(es, tr.Id(), k) == tr.Script()[n..m]
    ensures At(Run(sv, es), k, tr, m)
    decreases |es|
  {
    if es != [] {
      var front, last := es[..|es| - 1], es[|es| - 1];
      if Elsewhere(last, tr.Id(), k) {
        assert Concerning(front, tr.Id(), k) + [] == Concerning(front, tr.Id(), k);
        ScriptRuns(sv, k, tr, n, m, front);
        ElsewhereStays(Run(sv, front), k, tr, m, last);
      } else {
        LastOfScript(Concerning(front, tr.Id(), k), last, tr, n, m);
        ScriptRuns(sv, k, tr, n, m - 1, front);
        ScriptMoves(Run(sv, front), k, tr, m - 1);
      }
    }
  }

  lemma LastOfScript(front: seq<Event>, last: Event, tr: Trade, n: nat, m: nat)
    requires n <= m <= 6 && front + [last] == tr.Script()[n..m]
    ensures n < m && front == tr.Script()[n..m - 1] && last == tr.Script()[m - 1]
  {
    assert |front| + 1 == m - n;
    assert front == (front + [last])[..|front|] && last == (front + [last])[|front|];
    assert tr.Script()[n..m][..m - n - 1] == tr.Script()[n..m - 1];
  }

  // From any state in which the id is free: the six messages of a trade, with any events of other ids in between,
  // trade the swap they open. It has queued exactly the two refunds with fee, said what a trade says, the completion
  // once, and its id is free again.
  lemma TradeSettles(sv: Service, tr: Trade, es: seq<Event>)
    requires ServiceInv(sv) && tr.Id() !in sv.table && tr.Fits()
    requires Concerning(es, tr.Id(), |sv.swaps|) == tr.Script()[1..]
    ensures var sv' := Run(Step(sv, tr.Script()[0]), es); var k := |sv.swaps|;
            && k < |sv'.swaps| && tr.Id() !in sv'.table
            && var a := sv'.swaps[k];
            && a.swap.terminated == Some(Traded) && a.swap.offerId == tr.Id()
            && a.swap.makerCommitment == Some(tr.maker) && a.swap.takerCommitment == Some(tr.taker)
            && a.ledger.refunded == multiset{Refund(tr.makerDeposit, true), Refund(tr.takerDeposit, true)}
            && a.ledger.sent == [MakerProofSend(a.swap), TakenSend(a.swap), TakerProofSend(a.swap),
                                 Send(SwapCompleted(tr.Id(), tr.secondAt), None)]
  {
    var k := |sv.swaps|;
    OpensAt(sv, tr);
    ScriptRuns(Step(sv, tr.Script()[0]), k, tr, 1, 6, es);
    var a := Run(Step(sv, tr.Script()[0]), es).swaps[k];
    assert Healthy(a);
    EndDecidesSettlement(a, tr.makerDeposit);
  }

  // --- how a swap ends ----------------------------------------------------------------------------------------------

  predicate Stops(e: Event, id: OfferId, k: nat) { e == TimerFired(k) || e == GotCancellation(id) }

  // A timer or a cancellation request ends a running swap: as uncommitted without the maker's deposit, as untraded
  // without a taker, and else as failed.
  function StoppedAs(s: Swap): State {
    if s.makerReceipt.None? then Uncommitted else if s.takerReceipt.None? then Untraded else Failed
  }

  // A running swap after any event: a timer or a request stops it, only an execution message can trade it, and
  // nothing else ends it.
  lemma EndsOnlyBy(sv: Service, e: Event, k: nat)
    requires ServiceInv(sv) && k < |sv.swaps| && sv.swaps[k].swap.Live()
    ensures k < |Step(sv, e).swaps|
    ensures var s, s' := sv.swaps[k].swap, Step(sv, e).swaps[k].swap;
            if Stops(e, s.offerId, k) then s'.terminated == Some(StoppedAs(s))
            else s'.Live() || (s'.terminated == Some(Traded) && e.GotExecution? && e.execution.offerId == s.offerId)
  {
    var s := sv.swaps[k].swap;
    assert Healthy(sv.swaps[k]) && InTable(sv, k);
    if Elsewhere(e, s.offerId, k) {
      ElsewhereKeeps(sv, e, s.offerId, k);
    } else {
      EndOfStep(sv, e, k);
    }
  }

  lemma EndOfStep(sv: Service, e: Event, k: nat)
    requires k < |sv.swaps| && Healthy(sv.swaps[k]) && sv.swaps[k].swap.Live() && InTable(sv, k)
    requires !Elsewhere(e, sv.swaps[k].swap.offerId, k)
    ensures |Step(sv, e).swaps| == |sv.swaps|
    ensures var s, s' := sv.swaps[k].swap, Step(sv, e).swaps[k].swap;
            if Stops(e, s.offerId, k) then s'.terminated == Some(StoppedAs(s))
            else s'.Live() || (s'.terminated == Some(Traded) && e.GotExecution? && e.execution.offerId == s.offerId)
  {
    var s := sv.swaps[k].swap;
    match e
    case GotCommitment(c, _, _) => CommitmentEndsNothing(s, c);
    case GotReceipt(r) => ReceiptEndsNothing(s, r);
    case GotExecution(x, now) => ExecutionOnlyTrades(s, x, now);
    case GotCancellation(_) => TimeoutStops(s);
    case TimerFired(_) => TimeoutStops(s.(timers := s.timers - 1));
  }

  lemma CommitmentEndsNothing(s: Swap, c: Commitment)
    requires s.Live()
    ensures Fire(s, TakerCommitmentMsg(c)).swap.Live()
  {
  }

  lemma ReceiptEndsNothing(s: Swap, r: Receipt)
    requires s.Live()
    ensures FireReceipt(s, r).swap.Live()
  {
  }

  lemma ExecutionOnlyTrades(s: Swap, x: Execution, now: int)
    requires s.Live()
    ensures var s' := FireExecution(s, x, now).swap; s'.Live() || s'.terminated == Some(Traded)
  {
  }

  lemma TimeoutStops(s: Swap)
    requires Shape(s) && s.Live()
    ensures Fire(s, Timeout).swap.terminated == Some(StoppedAs(s))
  {
  }

  // Swap k was running with both deposits, and this event stops it.
  predicate StopsBoth(sv: Service, e: Event, k: nat) {
    && k < |sv.swaps| && sv.swaps[k].swap.Live()
    && sv.swaps[k].swap.makerReceipt.Some? && sv.swaps[k].swap.takerReceipt.Some?
    && Stops(e, sv.swaps[k].swap.offerId, k)
  }

  predicate StoppedAt(es: seq<Event>, i: nat, k: nat) { i < |es| && StopsBoth(Run(IDLE, es[..i]), es[i], k) }

  lemma RunPrefix(es: seq<Event>, n: nat)
    requires n < |es|
    ensures Run(IDLE, es[..n + 1]) == Step(Run(IDLE, es[..n]), es[n])
  {
    assert es[..n + 1][..n] == es[..n];
  }

  lemma {:induction false} FailedByThen(es: seq<Event>, n: nat, k: nat) returns (i: nat)
    requires n <= |es| && HasFailed(Run(IDLE, es[..n]), k)
    ensures StoppedAt(es, i, k)
    decreases n
  {
    if n == 0 {
      assert false;
    } else if HasFailed(Run(IDLE, es[..n - 1]), k) {
      i := FailedByThen(es, n - 1, k);
    } else {
      i := n - 1;
      RunPrefix(es, i);
      RunKeepsInv(es[..i]);
      BecomesFailed(Run(IDLE, es[..i]), es[i], k);
    }
  }

  // Over every run, a swap that failed was running with both deposits when its timer fired or somebody asked to cancel.
  lemma FailsOnlyWhenStopped(es: seq<Event>, k: nat)
    requires HasFailed(Run(IDLE, es), k)
    ensures exists i :: 0 <= i < |es| && StoppedAt(es, i, k)
  {
    assert es[..|es|] == es;
    var i := FailedByThen(es, |es|, k);
    assert StoppedAt(es, i, k);
  }

  predicate HasFailed(sv: Service, k: nat) { k < |sv.swaps| && sv.swaps[k].swap.terminated == Some(Failed) }

  lemma BecomesFailed(sv: Service, e: Event, k: nat)
    requires ServiceInv(sv) && HasFailed(Step(sv, e), k) && !HasFailed(sv, k)
    ensures StopsBoth(sv, e, k)
  {
    if k < |sv.swaps| && sv.swaps[k].swap.Live() {
      EndsOnlyBy(sv, e, k);
    } else {
      OnlyRunningEnd(sv, e, k);
    }
  }

  // A new swap is running, and an ended one stays as it ended.
  lemma OnlyRunningEnd(sv: Service, e: Event, k: nat)
    requires ServiceInv(sv) && k < |Step(sv, e).swaps| && (k < |sv.swaps| ==> !sv.swaps[k].swap.Live())
    ensures Step(sv, e).swaps[k].swap.terminated == if k < |sv.swaps| then sv.swaps[k].swap.terminated else None
  {
    if k < |sv.swaps| {
      EndedStays(sv, e, k);
    }
  }

  lemma EndedStays(sv: Service, e: Event, k: nat)
    requires ServiceInv(sv) && k < |sv.swaps| && !sv.swaps[k].swap.Live()
    ensures k < |Step(sv, e).swaps| && Step(sv, e).swaps[k].swap.terminated == sv.swaps[k].swap.terminated
  {
    assert !InTable(sv, k);
    match e
    case GotCommitment(c, _, _) => EndedHearsNothing(sv, c.offerId, TakerCommitmentMsg(c), k);
    case GotReceipt(r) => EndedHearsNothing(sv, r.identifier, TransferReceipt(r), k);
    case GotExecution(x, now) => EndedHearsNothing(sv, x.offerId, SwapExecutionMsg(x, now), k);
    case GotCancellation(id) => EndedHearsNothing(sv, id, Timeout, k);
    case TimerFired(j) => EndedTimesOut(sv, j, k);
    case RefundStarted(_) =>
    case RefundAnswered(_, _) =>
  }

  // What is routed by id never reaches an ended swap, as it is not in the table.
  lemma EndedHearsNothing(sv: Service, id: OfferId, t: Trigger, k: nat)
    requires ServiceInv(sv) && k < |sv.swaps| && !InTable(sv, k)
    ensures |DeliverById(sv, id, t).swaps| == |sv.swaps| && DeliverById(sv, id, t).swaps[k] == sv.swaps[k]
  {
  }

  // Its own timer may still fire.
  lemma EndedTimesOut(sv: Service, j: nat, k: nat)
    requires k < |sv.swaps| && !sv.swaps[k].swap.Live()
    ensures |Step(sv, TimerFired(j)).swaps| == |sv.swaps|
    ensures Step(sv, TimerFired(j)).swaps[k].swap.terminated == sv.swaps[k].swap.terminated
  {
  }

  // --- refunds ------------------------------------------------------------------------------------------------------

  // Read off the events: transfers started for a refund that was waiting, and answers for one under way.
  function Started(sv: Service, e: Event): multiset<Refund> {
    if e.RefundStarted? && e.refund in sv.queue then multiset{e.refund} else multiset{}
  }

  function Answered(sv: Service, e: Event, success: bool): multiset<Refund> {
    if e.RefundAnswered? && e.success == success && e.refund in sv.inFlight then multiset{e.refund} else multiset{}
  }

  function StartedIn(es: seq<Event>): multiset<Refund> {
    if es == [] then multiset{}
    else StartedIn(es[..|es| - 1]) + Started(Run(IDLE, es[..|es| - 1]), es[|es| - 1])
  }

  function AnsweredIn(es: seq<Event>, success: bool): multiset<Refund> {
    if es == [] then multiset{}
    else AnsweredIn(es[..|es| - 1], success) + Answered(Run(IDLE, es[..|es| - 1]), es[|es| - 1], success)
  }

  // One event moves the books of one refund by what it starts and answers.
  lemma StepMovesRefund(sv: Service, e: Event, f: Refund)
    requires e.RefundStarted? || e.RefundAnswered?
    ensures var sv' := Step(sv, e);
            && sv'.paid[f] == sv.paid[f] + Answered(sv, e, true)[f]
            && sv'.inFlight[f] + Answered(sv, e, true)[f] + Answered(sv, e, false)[f]
               == sv.inFlight[f] + Started(sv, e)[f]
            && sv'.queue[f] + Started(sv, e)[f] == sv.queue[f] + Answered(sv, e, false)[f]
  {
  }

  lemma OtherEventsKeepTransfers(sv: Service, e: Event)
    requires !e.RefundStarted? && !e.RefundAnswered?
    ensures Step(sv, e).paid == sv.paid && Step(sv, e).inFlight == sv.inFlight
  {
  }

  // Over every run, for every refund: paid are the transfers answered with success; of the transfers started, those
  // not answered yet are under way; and waiting are the refunds queued by swaps and those put back after a failure,
  // less the transfers started.
  lemma {:induction false} RefundsFollowAnswers(es: seq<Event>, f: Refund)
    ensures var sv := Run(IDLE, es);
            && sv.paid[f] == AnsweredIn(es, true)[f]
            && sv.inFlight[f] + AnsweredIn(es, true)[f] + AnsweredIn(es, false)[f] == StartedIn(es)[f]
            && sv.queue[f] + StartedIn(es)[f] == Over(sv.swaps, Refunded)[f] + AnsweredIn(es, false)[f]
  {
    RefundsNeverLost(es);
    if es != [] {
      var front, last := es[..|es| - 1], es[|es| - 1];
      RefundsNeverLost(front);
      RefundsFollowAnswers(front, f);
      if last.RefundStarted? || last.RefundAnswered? {
        StepMovesRefund(Run(IDLE, front), last, f);
      } else {
        OtherEventsKeepTransfers(Run(IDLE, front), last);
      }
    }
  }

  lemma PaidIsAnswered(es: seq<Event>)
    ensures Run(IDLE, es).paid == AnsweredIn(es, true)
  {
    forall f ensures Run(IDLE, es).paid[f] == AnsweredIn(es, true)[f] { RefundsFollowAnswers(es, f); }
  }

  // A refund that was never answered with success is not paid; one whose every copy was answered with success neither
  // waits nor is under way, so no transfer of it can start again.
  lemma PaidOnceAndForAll(es: seq<Event>, f: Refund)
    ensures f !in AnsweredIn(es, true) ==> f !in Run(IDLE, es).paid
    ensures AnsweredIn(es, true)[f] <= Over(Run(IDLE, es).swaps, Refunded)[f]
    ensures AnsweredIn(es, true)[f] == Over(Run(IDLE, es).swaps, Refunded)[f] ==>
              f !in Run(IDLE, es).queue && f !in Run(IDLE, es).inFlight
  {
    RefundsFollowAnswers(es, f);
  }

  // After a failure the refund waits again; after a success it does not.
  lemma AnswerDecides(sv: Service, f: Refund, success: bool)
    requires f in sv.inFlight
    ensures var sv' := Step(sv, RefundAnswered(f, success));
            && sv'.inFlight == sv.inFlight - multiset{f}
            && sv'.queue == (if success then sv.queue else sv.queue + multiset{f})
            && sv'.paid == (if success then sv.paid + multiset{f} else sv.paid)
  {
  }

  // What a transfer pays: the whole receipt, unless the service claims its fee; then the receipt less the fee, rounded
  // down to whole units.
  lemma PayoutTakesFee(f: Refund, feeRate: Option<real>)
    ensures !f.claimFee || feeRate.None? ==> Payout(f, feeRate) == f.receipt.amount
    ensures f.claimFee && feeRate.Some? ==>
              var paid, due := Payout(f, feeRate) as real, f.receipt.amount as real * (1.0 - feeRate.value);
              paid <= due < paid + 1.0
  {
    if feeRate.Some? {
      var amount := f.receipt.amount as real;
      assert amount * (1.0 - feeRate.value) == amount - amount * feeRate.value;
    }
  }
}
