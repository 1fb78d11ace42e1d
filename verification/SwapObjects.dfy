// The service's objects: a SwapCommitment whose machine is driven by the transition table, and the
// CommitmentService that owns the table of running swaps and the queues. Every method is tied to the
// corresponding step on values.
module SwapObjects {
  import opened SwapTypes
  import opened SwapProtocol
  import opened SwapMachine
  import V = Service

  // The service's queues and table when a trigger started.
  datatype Base = Base(refunds: multiset<Refund>, messages: seq<Send>, swaps: map<OfferId, SwapCommitment>)

  class SwapCommitment {
    const service: CommitmentService
    const offerId: OfferId
    const secret: nat
    const secretHash: nat
    var state: State
    var makerCommitment: Option<Commitment>
    var takerCommitment: Option<Commitment>
    var makerProof: Option<Proof>
    var makerExecution: Option<Execution>
    var takerExecution: Option<Execution>
    var makerReceipt: Option<Receipt>
    var takerReceipt: Option<Receipt>
    var terminated: Option<State>
    var pool: map<Address, Commitment>
    var timers: nat
    ghost const serial: nat
    ghost var ledger: Ledger

    constructor (service: CommitmentService, offerId: OfferId, secret: nat, secretHash: nat, ghost serial: nat)
      ensures this.service == service && this.serial == serial
      ensures View() == Fresh(offerId, secret, secretHash) && ledger == EMPTY_LEDGER
    {
      this.service, this.offerId, this.secret, this.secretHash := service, offerId, secret, secretHash;
      state := Initializing;
      makerCommitment, takerCommitment, makerProof := None, None, None;
      makerExecution, takerExecution, makerReceipt, takerReceipt := None, None, None, None;
      terminated, pool, timers := None, map[], 0;
      this.serial, ledger := serial, EMPTY_LEDGER;
    }

    function View(): Swap
      reads this
    {
      Swap(offerId, secret, secretHash, state, makerCommitment, takerCommitment, makerProof, makerExecution,
           takerExecution, makerReceipt, takerReceipt, terminated, pool, timers)
    }

    ghost function Abs(): Account
      reads this
    {
      Account(View(), ledger)
    }

    // What the service shows once the effects e came on top of base.
    ghost predicate Shows(e: Effects, base: Base)
      reads service
    {
      && service.refundQueue == base.refunds + e.refunds
      && service.messageQueue == base.messages + e.sends
      && service.swaps == if e.dropped then base.swaps - {offerId} else base.swaps
    }

    // --- callbacks ---------------------------------------------------------------------------------------

    method QueueRefund(receipt: Option<Receipt>, claimFee: bool)
      modifies service`refundQueue
      ensures service.refundQueue == old(service.refundQueue) + RefundOf(receipt, claimFee)
    {
      if receipt.Some? {
        service.refundQueue := service.refundQueue + multiset{Refund(receipt.value, claimFee)};
      }
    }

    method QueueSend(message: Message, topic: Option<Address>)
      modifies service`messageQueue
      ensures service.messageQueue == old(service.messageQueue) + [Send(message, topic)]
    {
      service.messageQueue := service.messageQueue + [Send(message, topic)];
    }

    // Callbacks that only write the swap's fields.
    predicate Writes(a: Action) {
      a in [SetMakerCommitment, SpawnTimeout, SetMakerReceipt, QueueCommitment, AcceptTaker, SetTakerReceipt,
            SetMakerExecution, SetTakerExecution]
    }

    method Write(a: Action, t: Trigger, ghost e: Effects)
      requires Writes(a)
      modifies this
      ensures Cell(View(), e) == Perform(a, Cell(old(View()), e), t) && ledger == old(ledger)
    {
      match a {
        case SetMakerCommitment => if t.MakerCommitmentMsg? { makerCommitment := Some(t.msg); }
        case SpawnTimeout => timers := timers + 1;
        case SetMakerReceipt => if t.TransferReceipt? { makerReceipt := Some(t.receipt); }
        case QueueCommitment => if t.TakerCommitmentMsg? { Pool(t.msg); }
        case AcceptTaker => if t.TransferReceipt? { Accept(t.receipt.initiator); }
        case SetTakerReceipt => if t.TransferReceipt? { takerReceipt := Some(t.receipt); }
        case SetMakerExecution => if t.SwapExecutionMsg? { makerExecution := Some(t.execution); }
        case SetTakerExecution => if t.SwapExecutionMsg? { takerExecution := Some(t.execution); }
      }
    }

    method Pool(c: Commitment)
      modifies this`pool
      ensures pool == if c.sender in old(pool) then old(pool) else old(pool)[c.sender := c]
    {
      if c.sender !in pool { pool := pool[c.sender := c]; }
    }

    method Accept(initiator: Address)
      modifies this`takerCommitment
      ensures takerCommitment == if initiator in pool then Some(pool[initiator]) else old(takerCommitment)
    {
      if initiator in pool { takerCommitment := Some(pool[initiator]); }
    }

    // A refund, and a message, on top of the effects so far.
    method Repay(receipt: Option<Receipt>, claimFee: bool, ghost e: Effects, ghost base: Base)
      returns (ghost e': Effects)
      requires Shows(e, base)
      modifies service`refundQueue
      ensures e' == e.(refunds := e.refunds + RefundOf(receipt, claimFee)) && Shows(e', base)
    {
      e' := e.(refunds := e.refunds + RefundOf(receipt, claimFee));
      QueueRefund(receipt, claimFee);
      assert base.refunds + e.refunds + RefundOf(receipt, claimFee) == base.refunds + e'.refunds;
    }

    method Say(message: Message, topic: Option<Address>, ghost e: Effects, ghost base: Base) returns (ghost e': Effects)
      requires Shows(e, base)
      modifies service`messageQueue
      ensures e' == e.(sends := e.sends + [Send(message, topic)]) && Shows(e', base)
    {
      e' := e.(sends := e.sends + [Send(message, topic)]);
      QueueSend(message, topic);
      assert base.messages + e.sends + [Send(message, topic)] == base.messages + e'.sends;
    }

    // Callbacks that put messages on the queue.
    predicate Announces(a: Action) { a in [SendMakerProof, SendOfferTaken, SendTakerProof, SendSwapCompleted] }

    method Announce(a: Action, t: Trigger, ghost e: Effects, ghost base: Base) returns (ghost e': Effects)
      requires Shows(e, base) && Announces(a)
      modifies this`makerProof, service`messageQueue
      ensures Cell(View(), e') == Perform(a, Cell(old(View()), e), t) && Shows(e', base)
    {
      e' := e;
      match a {
        case SendMakerProof =>
          makerProof := Some(Proof(Signature(makerCommitment), secret, secretHash, offerId));
          e' := Say(CommitmentProof(makerProof.value), View().MakerAddress(), e, base);
        case SendOfferTaken => e' := Say(OfferTaken(offerId), None, e, base);
        case SendTakerProof =>
          var proof := Proof(Signature(takerCommitment), secret, secretHash, offerId);
          e' := Say(CommitmentProof(proof), View().TakerAddress(), e, base);
        case SendSwapCompleted =>
          if t.SwapExecutionMsg? { e' := Say(SwapCompleted(offerId, t.now), None, e, base); }
      }
    }

    // Callbacks that settle: the refunds, and the two punishments, which do nothing.
    predicate Repays(a: Action) {
      a in [RefundMakerWithFee, RefundTakerWithFee, RefundMaker, PunishMaker, PunishTaker, RefundTransfer]
    }

    method CancelMaker(ghost e: Effects, ghost base: Base) returns (ghost e': Effects)
      requires Shows(e, base)
      modifies service`refundQueue, service`messageQueue
      ensures e' == Perform(RefundMaker, Cell(View(), e), Timeout).effects && Shows(e', base)
    {
      e' := Repay(makerReceipt, false, e, base);
      e' := Say(CancellationProof(offerId, makerProof), View().MakerAddress(), e', base);
    }

    method Settle(a: Action, t: Trigger, ghost e: Effects, ghost base: Base) returns (ghost e': Effects)
      requires Shows(e, base) && Repays(a)
      modifies service`refundQueue, service`messageQueue
      ensures Cell(View(), e') == Perform(a, Cell(View(), e), t) && Shows(e', base)
    {
      ghost var s := View();
      e' := e;
      match a {
        case RefundMakerWithFee => e' := Repay(makerReceipt, true, e, base);
        case RefundTakerWithFee => e' := Repay(takerReceipt, true, e, base);
        case RefundMaker => e' := CancelMaker(e, base);
        case PunishMaker =>
        case PunishTaker =>
        case RefundTransfer => if t.TransferReceipt? { e' := Repay(Some(t.receipt), false, e, base); }
      }
      assert View() == s;
    }

    method Finish(t: Trigger, ghost e: Effects, ghost base: Base) returns (ghost e': Effects)
      requires Shows(e, base)
      modifies this`state, this`terminated, service`swaps
      ensures Cell(View(), e') == Perform(Finalize, Cell(old(View()), e), t) && Shows(e', base)
    {
      e' := Perform(Finalize, Cell(View(), e), t).effects;
      if state in FINALIZE_SOURCES {
        terminated, state := Some(state), Processed;
        service.swaps := service.swaps - {offerId};
      }
    }

    method Do(a: Action, t: Trigger, ghost e: Effects, ghost base: Base) returns (ghost e': Effects)
      requires Shows(e, base)
      modifies this, service`refundQueue, service`messageQueue, service`swaps
      ensures Cell(View(), e') == Perform(a, Cell(old(View()), e), t) && Shows(e', base) && ledger == old(ledger)
    {
      e' := e;
      if Writes(a) {
        Write(a, t, e);
      } else if Announces(a) {
        e' := Announce(a, t, e, base);
      } else if Repays(a) {
        e' := Settle(a, t, e, base);
      } else {
        e' := Finish(t, e, base);
      }
    }

    method DoAll(actions: seq<Action>, t: Trigger, ghost e: Effects, ghost base: Base) returns (ghost e': Effects)
      requires Shows(e, base)
      modifies this, service`refundQueue, service`messageQueue, service`swaps
      ensures Cell(View(), e') == PerformAll(actions, Cell(old(View()), e), t) && Shows(e', base)
              && ledger == old(ledger)
    {
      e' := e;
      for i := 0 to |actions|
        invariant PerformAll(actions[i..], Cell(View(), e'), t) == PerformAll(actions, Cell(old(View()), e), t)
        invariant Shows(e', base) && ledger == old(ledger)
      {
        e' := Do(actions[i], t, e', base);
      }
    }

    // --- the machine ------------------------------------------------------------------------------------------

    method Handle(t: Trigger) returns (result: Result)
      modifies this, service`refundQueue, service`messageQueue, service`swaps
      ensures var o := Fire(old(View()), t);
              && result == o.result && Abs() == Advance(old(Abs()), t)
              && service.refundQueue == old(service.refundQueue) + o.effects.refunds
              && service.messageQueue == old(service.messageQueue) + o.effects.sends
              && service.swaps == if o.effects.dropped then old(service.swaps) - {offerId} else old(service.swaps)
    {
      ghost var base := Base(service.refundQueue, service.messageQueue, service.swaps);
      ghost var e: Effects;
      result, e := Interpret(t, base);
      TableMeansFire(old(View()), t);
      ledger := Record(ledger, t, old(View()));
    }

    method Interpret(t: Trigger, ghost base: Base) returns (result: Result, ghost e: Effects)
      requires Shows(NOTHING, base)
      modifies this, service`refundQueue, service`messageQueue, service`swaps
      ensures Outcome(result, View(), e) == SwapMachine.Interpret(old(View()), t) && Shows(e, base)
              && ledger == old(ledger)
    {
      var table, listed := TransitionsOf(t), false;
      e := NOTHING;
      for i := 0 to |table|
        invariant View() == old(View()) && Shows(NOTHING, base) && ledger == old(ledger) && e == NOTHING
        invariant Choose(table, old(View()), t) == Choose(table[i..], old(View()), t)
        invariant listed <==> exists j :: 0 <= j < i && state in table[j].sources
      {
        if state in table[i].sources {
          listed := true;
          if Passes(table[i].guard, View(), t) {
            var source := state;
            e := DoAll(table[i].before, t, e, base);
            state := if table[i].dest.Some? then table[i].dest.value else source;
            e := DoAll(table[i].after, t, e, base);
            return Taken, e;
          }
        }
      }
      result := if listed then Refused else MachineError;
    }
  }

  class CommitmentService {
    var swaps: map<OfferId, SwapCommitment>
    var refundQueue: multiset<Refund>
    var inFlight: multiset<Refund>
    var paid: multiset<Refund>
    var messageQueue: seq<Send>
    const feeRate: Option<real>
    ghost var all: seq<SwapCommitment>   // every swap ever made, oldest first

    constructor (feeRate: Option<real>)
      ensures Valid() && Abs() == V.IDLE && this.feeRate == feeRate
    {
      this.feeRate := feeRate;
      swaps, refundQueue, inFlight, paid, messageQueue, all := map[], multiset{}, multiset{}, multiset{}, [], [];
    }

    ghost predicate Valid()
      reads this, all
    {
      && (forall k :: 0 <= k < |all| ==> all[k].serial == k && all[k].service == this)
      && (forall id :: id in swaps ==> swaps[id].serial < |all| && all[swaps[id].serial] == swaps[id])
    }

    ghost function Table(): map<OfferId, nat>
      reads this
    {
      map id | id in swaps :: swaps[id].serial
    }

    ghost function Accounts(): seq<Account>
      reads this, all
    {
      seq(|all|, k requires 0 <= k < |all| reads this, all => all[k].Abs())
    }

    ghost function Abs(): V.Service
      reads this, all
    {
      V.Service(Table(), Accounts(), refundQueue, inFlight, paid, messageQueue)
    }

    // No swap changed but this one.
    twostate lemma AccountsAfter(swap: SwapCommitment)
      requires old(Valid()) && all == old(all) && swap.serial < |all| && all[swap.serial] == swap
      requires forall other :: other in all && other != swap ==> unchanged(other)
      ensures Accounts() == old(Accounts())[swap.serial := swap.Abs()]
    {
      forall k | 0 <= k < |all| && k != swap.serial ensures all[k].Abs() == old(all[k].Abs()) {
        assert old(all[k].serial) == k && all[k] in all && all[k] != swap;
      }
    }

    twostate lemma SwapsSame()
      requires swaps == old(swaps) && all == old(all) && forall swap :: swap in all ==> unchanged(swap)
      ensures Accounts() == old(Accounts()) && Table() == old(Table())
    {
      forall k | 0 <= k < |all| ensures all[k].Abs() == old(all[k].Abs()) { assert all[k] in all; }
    }

    // A trigger reaches one of the swaps.
    method Deliver(swap: SwapCommitment, t: Trigger) returns (result: Result)
      requires Valid() && swap.serial < |all| && all[swap.serial] == swap
      modifies this`refundQueue, this`messageQueue, this`swaps, swap
      ensures Valid() && result == old(Fire(swap.View(), t).result)
      ensures Abs() == V.Deliver(old(Abs()), swap.serial, t)
    {
      ghost var sv, dropped := Abs(), Fire(swap.View(), t).effects.dropped;
      assert sv.swaps[swap.serial] == swap.Abs();
      result := swap.Handle(t);
      AccountsAfter(swap);
      assert Table() == if dropped then old(Table()) - {swap.offerId} else old(Table());
    }

    // No swap is made for an id that is taken.
    method MakeSwap(offerId: OfferId, secret: nat, secretHash: nat) returns (made: Option<SwapCommitment>)
      requires Valid()
      modifies this`swaps, this`all
      ensures Valid() && made.None? == (offerId in old(swaps))
      ensures made.None? ==> swaps == old(swaps) && all == old(all)
      ensures made.Some? ==> fresh(made.value) && all == old(all) + [made.value] && made.value.serial == |old(all)|
      ensures made.Some? ==> Abs() == V.Open(old(Abs()), offerId, secret, secretHash)
    {
      if offerId in swaps { return None; }
      var swap := new SwapCommitment(this, offerId, secret, secretHash, |all|);
      swaps := swaps[offerId := swap];
      all := all + [swap];
      made := Some(swap);
      assert Accounts() == old(Accounts()) + [Opened(offerId, secret, secretHash)];
      assert Table() == old(Table())[offerId := |old(all)|];
    }

    method ProcessCommitment(c: Commitment, secret: nat, secretHash: nat)
      requires Valid()
      modifies this, all
      ensures Valid() && Abs() == V.Step(old(Abs()), V.GotCommitment(c, secret, secretHash))
    {
      if c.offerId in swaps {
        var _ := Deliver(swaps[c.offerId], TakerCommitmentMsg(c));
      } else {
        var made := MakeSwap(c.offerId, secret, secretHash);
        if made.Some? {
          var _ := Deliver(made.value, MakerCommitmentMsg(c));
        }
      }
    }

    method DeliverById(offerId: OfferId, t: Trigger)
      requires Valid()
      modifies this`refundQueue, this`messageQueue, this`swaps, all
      ensures Valid() && all == old(all) && Abs() == V.DeliverById(old(Abs()), offerId, t)
    {
      if offerId in swaps {
        var _ := Deliver(swaps[offerId], t);
      }
    }

    method ProcessReceipt(r: Receipt)
      requires Valid()
      modifies this, all
      ensures Valid() && Abs() == V.Step(old(Abs()), V.GotReceipt(r))
    {
      DeliverById(r.identifier, TransferReceipt(r));
    }

    method ProcessExecution(x: Execution, now: int)
      requires Valid()
      modifies this, all
      ensures Valid() && Abs() == V.Step(old(Abs()), V.GotExecution(x, now))
    {
      DeliverById(x.offerId, SwapExecutionMsg(x, now));
    }

    method ProcessCancellation(offerId: OfferId)
      requires Valid()
      modifies this, all
      ensures Valid() && Abs() == V.Step(old(Abs()), V.GotCancellation(offerId))
    {
      DeliverById(offerId, Timeout);
    }

    // The timer holds on to the swap itself, not to its id.
    method TimerFires(swap: SwapCommitment)
      requires Valid() && swap.serial < |all| && all[swap.serial] == swap && 0 < swap.timers
      modifies this, all
      ensures Valid() && Abs() == V.Step(old(Abs()), V.TimerFired(swap.serial))
    {
      swap.timers := swap.timers - 1;
      assert Accounts() == V.Expire(old(Abs()), swap.serial).swaps;
      assert Abs() == V.Expire(old(Abs()), swap.serial);
      var _ := Deliver(swap, Timeout);
    }

    // The refund worker takes a refund off the queue and starts its transfer.
    method StartRefund(f: Refund) returns (amount: int)
      requires Valid() && f in refundQueue
      modifies this`refundQueue, this`inFlight
      ensures Valid() && Abs() == V.Step(old(Abs()), V.RefundStarted(f)) && amount == V.Payout(f, feeRate)
    {
      var exact := f.receipt.amount as real;
      if feeRate.Some? && f.claimFee {
        exact := exact - exact * feeRate.value;
      }
      amount := exact.Floor;
      refundQueue, inFlight := refundQueue - multiset{f}, inFlight + multiset{f};
      SwapsSame();
    }

    // The transfer answered: done, or back onto the queue.
    method AnswerRefund(f: Refund, statusCode: int)
      requires Valid() && f in inFlight
      modifies this`refundQueue, this`inFlight, this`paid
      ensures Valid() && Abs() == V.Step(old(Abs()), V.RefundAnswered(f, statusCode == 200))
    {
      inFlight := inFlight - multiset{f};
      if statusCode == 200 {
        paid := paid + multiset{f};
      } else {
        refundQueue := refundQueue + multiset{f};
      }
      SwapsSame();
    }
  }
}
