// The life of one swap as the commitment service sees it: what every trigger does in every state, and
// what is true of a swap and of everything it ever accepted, refunded and sent.
module SwapProtocol {
  import opened SwapTypes

  datatype State =
    | Initializing | WaitForMaker | WaitForTaker
    | WaitForExecution | WaitForMakerExecution | WaitForTakerExecution
    | Traded | Uncommitted | Untraded | Failed
    | Processed

  datatype Trigger =
    | Timeout
    | MakerCommitmentMsg(msg: Commitment)
    | TakerCommitmentMsg(msg: Commitment)
    | TransferReceipt(receipt: Receipt)
    | SwapExecutionMsg(execution: Execution, now: int)

  // A trigger is taken, refused because no condition held, or has no transition at all from this state.
  datatype Result = Taken | Refused | MachineError

  datatype Swap = Swap(
    offerId: OfferId,
    secret: nat,
    secretHash: nat,
    state: State,
    makerCommitment: Option<Commitment>,
    takerCommitment: Option<Commitment>,
    makerProof: Option<Proof>,
    makerExecution: Option<Execution>,
    takerExecution: Option<Execution>,
    makerReceipt: Option<Receipt>,
    takerReceipt: Option<Receipt>,
    terminated: Option<State>,
    pool: map<Address, Commitment>,
    timers: nat)   // timeouts scheduled on this swap and still to fire
  {
    function MakerAddress(): Option<Address> {
      if makerCommitment.Some? then Some(makerCommitment.value.sender) else None
    }

    function TakerAddress(): Option<Address> {
      if takerCommitment.Some? then Some(takerCommitment.value.sender) else None
    }

    predicate Live() { state != Processed }

    predicate ProofOf(c: Commitment, p: Proof) {
      p == Proof(c.signature, secret, secretHash, offerId)
    }
  }

  // What a trigger does outside the swap: refunds put on the refund queue, messages put on the message
  // queue, and whether the swap was dropped from the table.
  datatype Effects = Effects(refunds: multiset<Refund>, sends: seq<Send>, dropped: bool)

  const NOTHING := Effects(multiset{}, [], false)

  datatype Outcome = Outcome(result: Result, swap: Swap, effects: Effects)

  function Fresh(offerId: OfferId, secret: nat, secretHash: nat): Swap {
    Swap(offerId, secret, secretHash, Initializing, None, None, None, None, None, None, None, None, map[], 0)
  }

  // --- what each trigger does ---------------------------------------------------------------------

  function Finalized(s: Swap, end: State, effects: Effects): Outcome {
    Outcome(Taken, s.(state := Processed, terminated := Some(end)), effects.(dropped := true))
  }

  function RefundOf(receipt: Option<Receipt>, claimFee: bool): multiset<Refund> {
    if receipt.Some? then multiset{Refund(receipt.value, claimFee)} else multiset{}
  }

  function CancellationOf(s: Swap): Effects {
    Effects(RefundOf(s.makerReceipt, false),
            [Send(CancellationProof(s.offerId, s.makerProof), s.MakerAddress())], false)
  }

  function CompletionOf(s: Swap, now: int): Effects {
    Effects(RefundOf(s.makerReceipt, true) + RefundOf(s.takerReceipt, true),
            [Send(SwapCompleted(s.offerId, now), None)], false)
  }

  function Signature(c: Option<Commitment>): nat {
    if c.Some? then c.value.signature else 0
  }

  function ProofFor(s: Swap, c: Option<Commitment>): Proof {
    Proof(Signature(c), s.secret, s.secretHash, s.offerId)
  }

  function Fire(s: Swap, t: Trigger): Outcome {
    match t
    case Timeout =>
      (match s.state
       case Initializing | WaitForMaker => Finalized(s, Uncommitted, NOTHING)
       case WaitForTaker => Finalized(s, Untraded, CancellationOf(s))
       case WaitForExecution | WaitForMakerExecution | WaitForTakerExecution => Finalized(s, Failed, NOTHING)
       case _ => Outcome(MachineError, s, NOTHING))
    case MakerCommitmentMsg(c) =>
      if s.state == Initializing then
        Outcome(Taken, s.(state := WaitForMaker, makerCommitment := Some(c), timers := s.timers + 1), NOTHING)
      else Outcome(MachineError, s, NOTHING)
    case TakerCommitmentMsg(c) =>
      if s.state == WaitForTaker then
        Outcome(Taken, if c.sender in s.pool then s else s.(pool := s.pool[c.sender := c]), NOTHING)
      else Outcome(MachineError, s, NOTHING)
    case TransferReceipt(r) => FireReceipt(s, r)
    case SwapExecutionMsg(x, now) => FireExecution(s, x, now)
  }

  function Bounce(s: Swap, r: Receipt): Outcome {
    Outcome(Taken, s, Effects(multiset{Refund(r, false)}, [], false))
  }

  function FireReceipt(s: Swap, r: Receipt): Outcome {
    match s.state
    case WaitForMaker =>
      if Some(r.initiator) == s.MakerAddress() then
        var proof := ProofFor(s, s.makerCommitment);
        Outcome(Taken, s.(state := WaitForTaker, makerReceipt := Some(r), makerProof := Some(proof)),
                Effects(multiset{}, [Send(CommitmentProof(proof), s.MakerAddress())], false))
      else Bounce(s, r)
    case WaitForTaker =>
      if r.initiator in s.pool then
        var s' := s.(state := WaitForExecution, takerCommitment := Some(s.pool[r.initiator]), takerReceipt := Some(r));
        Outcome(Taken, s',
                Effects(multiset{},
                        [Send(OfferTaken(s.offerId), None),
                         Send(CommitmentProof(ProofFor(s', s'.takerCommitment)), s'.TakerAddress())], false))
      else Bounce(s, r)
    case Initializing | Processed => Outcome(MachineError, s, NOTHING)
    case _ => Bounce(s, r)
  }

  function FireExecution(s: Swap, x: Execution, now: int): Outcome {
    match s.state
    case WaitForExecution =>
      if Some(x.sender) == s.MakerAddress() then
        Outcome(Taken, s.(state := WaitForTakerExecution, makerExecution := Some(x)), NOTHING)
      else if Some(x.sender) == s.TakerAddress() then
        Outcome(Taken, s.(state := WaitForMakerExecution, takerExecution := Some(x)), NOTHING)
      else Outcome(Refused, s, NOTHING)
    case WaitForTakerExecution =>
      if Some(x.sender) == s.TakerAddress() then
        var s' := s.(takerExecution := Some(x));
        Finalized(s', Traded, CompletionOf(s', now))
      else Outcome(Refused, s, NOTHING)
    case WaitForMakerExecution =>
      if Some(x.sender) == s.MakerAddress() then
        var s' := s.(makerExecution := Some(x));
        Finalized(s', Traded, CompletionOf(s', now))
      else Outcome(Refused, s, NOTHING)
    case _ => Outcome(MachineError, s, NOTHING)
  }

  // --- a swap with the ledger of its whole life ----------------------------------------------------

  // accepted: receipts the machine took; refunded and sent: everything it ever queued; offered: the
  // commitments taken while waiting for a taker, in order; completedAt: the service's
  // clock when it last took an execution message; armed: timeouts ever scheduled.
  datatype Ledger = Ledger(
    accepted: multiset<Receipt>,
    refunded: multiset<Refund>,
    sent: seq<Send>,
    offered: seq<Commitment>,
    completedAt: int,
    armed: nat)

  datatype Account = Account(swap: Swap, ledger: Ledger)

  const EMPTY_LEDGER := Ledger(multiset{}, multiset{}, [], [], 0, 0)

  function Opened(offerId: OfferId, secret: nat, secretHash: nat): Account {
    Account(Fresh(offerId, secret, secretHash), EMPTY_LEDGER)
  }

  function Record(ledger: Ledger, t: Trigger, before: Swap): Ledger {
    var o := Fire(before, t);
    var taken := o.result == Taken;
    Ledger(
      ledger.accepted + (if taken && t.TransferReceipt? then multiset{t.receipt} else multiset{}),
      ledger.refunded + o.effects.refunds,
      ledger.sent + o.effects.sends,
      ledger.offered + (if taken && t.TakerCommitmentMsg? then [t.msg] else []),
      if taken && t.SwapExecutionMsg? then t.now else ledger.completedAt,
      ledger.armed + (if before.timers < o.swap.timers then o.swap.timers - before.timers else 0))
  }

  function Advance(a: Account, t: Trigger): Account {
    Account(Fire(a.swap, t).swap, Record(a.ledger, t, a.swap))
  }

  // How many of the two recorded deposits are this receipt.
  function DepositCount(s: Swap, r: Receipt): nat {
    (if s.makerReceipt == Some(r) then 1 else 0) + (if s.takerReceipt == Some(r) then 1 else 0)
  }

  // The first commitment by this sender in the list.
  function FirstBy(cs: seq<Commitment>, a: Address): Option<Commitment> {
    if cs == [] then None
    else
      var earlier := FirstBy(cs[..|cs| - 1], a);
      if earlier.None? && cs[|cs| - 1].sender == a then Some(cs[|cs| - 1]) else earlier
  }

  predicate EndState(s: State) { s.Traded? || s.Uncommitted? || s.Untraded? || s.Failed? }

  predicate TakerChosen(s: Swap) { s.takerCommitment.Some? }

  // Which fields are set, by state, and how they fit together.
  predicate Shape(s: Swap) {
    var ended := s.terminated;
    && s.state != Initializing && !EndState(s.state)
    && (s.state == Processed <==> ended.Some?)
    && (ended.Some? ==> EndState(ended.value))
    && s.makerCommitment.Some?
    && s.makerReceipt.Some? == s.makerProof.Some?
    && (s.makerReceipt.Some? <==> !(s.state == WaitForMaker || ended == Some(Uncommitted)))
    && (s.takerCommitment.Some?
        <==> !(s.state == WaitForMaker || s.state == WaitForTaker || ended == Some(Uncommitted)
               || ended == Some(Untraded)))
    && s.takerReceipt.Some? == s.takerCommitment.Some?
    && (s.makerReceipt.Some? ==> s.makerReceipt.value.initiator == s.makerCommitment.value.sender)
    && (s.makerProof.Some? ==> s.ProofOf(s.makerCommitment.value, s.makerProof.value))
    && (s.takerCommitment.Some? ==> s.takerReceipt.value.initiator == s.takerCommitment.value.sender)
    && (s.Live() ==> (s.makerExecution.Some? <==> s.state == WaitForTakerExecution))
    && (s.Live() ==> (s.takerExecution.Some? <==> s.state == WaitForMakerExecution))
    && (s.makerExecution.Some? ==> s.takerCommitment.Some? && Some(s.makerExecution.value.sender) == s.MakerAddress())
    && (s.takerExecution.Some? ==> s.takerCommitment.Some? && Some(s.takerExecution.value.sender) == s.TakerAddress())
    && (ended == Some(Traded) <==> s.makerExecution.Some? && s.takerExecution.Some?)
  }

  // The refunds of a whole life, receipt by receipt: one without fee for every accepted receipt that is
  // nobody's recorded deposit, and the deposits by the way the swap ended.
  ghost predicate SettlesAt(a: Account, r: Receipt) {
    var deposits, ended := DepositCount(a.swap, r), a.swap.terminated;
    && deposits <= a.ledger.accepted[r]
    && a.ledger.refunded[Refund(r, false)]
       == a.ledger.accepted[r] - deposits + (if ended == Some(Untraded) then deposits else 0)
    && a.ledger.refunded[Refund(r, true)] == (if ended == Some(Traded) then deposits else 0)
  }

  ghost predicate Settles(a: Account) {
    forall r :: SettlesAt(a, r)
  }

  // The messages of a whole life, in order: the maker's proof, then for the chosen taker the broadcast and
  // its proof, then the word that closes the swap.
  function MakerProofSend(s: Swap): Send { Send(CommitmentProof(ProofFor(s, s.makerCommitment)), s.MakerAddress()) }
  function TakenSend(s: Swap): Send { Send(OfferTaken(s.offerId), None) }
  function TakerProofSend(s: Swap): Send { Send(CommitmentProof(ProofFor(s, s.takerCommitment)), s.TakerAddress()) }
  function CancellationSend(s: Swap): Send { Send(CancellationProof(s.offerId, s.makerProof), s.MakerAddress()) }
  function CompletedSend(s: Swap, now: int): Send { Send(SwapCompleted(s.offerId, now), None) }

  function MakerPart(s: Swap): seq<Send> { if s.makerReceipt.Some? then [MakerProofSend(s)] else [] }

  function TakerPart(s: Swap): seq<Send> { if s.takerReceipt.Some? then [TakenSend(s), TakerProofSend(s)] else [] }

  function ClosingPart(s: Swap, now: int): seq<Send> {
    if s.terminated == Some(Untraded) then [CancellationSend(s)]
    else if s.terminated == Some(Traded) then [CompletedSend(s, now)]
    else []
  }

  function Said(s: Swap, now: int): seq<Send> { MakerPart(s) + TakerPart(s) + ClosingPart(s, now) }

  predicate Announces(a: Account) { a.ledger.sent == Said(a.swap, a.ledger.completedAt) }

  // The pool holds, for every sender, the first commitment it got taken; the taker comes from there.
  ghost predicate FirstComeFirstServed(a: Account) {
    && (forall x :: PoolHolds(a, x))
    && (TakerChosen(a.swap)
        ==> a.swap.takerCommitment == FirstBy(a.ledger.offered, a.swap.takerCommitment.value.sender))
    && SendersKeyPool(a.swap)
  }

  predicate SendersKeyPool(s: Swap) { forall x :: x in s.pool ==> s.pool[x].sender == x }

  predicate PoolHolds(a: Account, x: Address) {
    (if x in a.swap.pool then Some(a.swap.pool[x]) else None) == FirstBy(a.ledger.offered, x)
  }

  predicate TimedOnce(a: Account) {
    && a.ledger.armed == 1
    && a.swap.timers <= 1
  }

  ghost predicate AccountInv(a: Account) {
    Shape(a.swap) && Settles(a) && Announces(a) && FirstComeFirstServed(a) && TimedOnce(a)
  }

  // --- every step keeps the invariant ---------------------------------------------------------------

  lemma OpeningHolds(offerId: OfferId, secret: nat, secretHash: nat, c: Commitment)
    ensures AccountInv(Advance(Opened(offerId, secret, secretHash), MakerCommitmentMsg(c)))
  {
  }

  lemma ShapeKept(s: Swap, t: Trigger)
    requires Shape(s) && SendersKeyPool(s)
    ensures Shape(Fire(s, t).swap)
  {
  }

  lemma SettlesKept(a: Account, t: Trigger)
    requires Shape(a.swap) && SendersKeyPool(a.swap) && Settles(a)
    ensures Settles(Advance(a, t))
  {
    forall r ensures SettlesAt(Advance(a, t), r) {
      SettlesKeptAt(a, t, r);
    }
  }

  lemma SettlesKeptAt(a: Account, t: Trigger, r: Receipt)
    requires Shape(a.swap) && SendersKeyPool(a.swap) && SettlesAt(a, r)
    ensures SettlesAt(Advance(a, t), r)
  {
    match t
    case Timeout => TimeoutSettlesAt(a, r);
    case MakerCommitmentMsg(_) => CommitmentSettlesAt(a, t, r);
    case TakerCommitmentMsg(_) => CommitmentSettlesAt(a, t, r);
    case TransferReceipt(receipt) => ReceiptSettlesAt(a, receipt, r);
    case SwapExecutionMsg(x, now) => ExecutionSettlesAt(a, x, now, r);
  }

  lemma TimeoutSettlesAt(a: Account, r: Receipt)
    requires Shape(a.swap) && SendersKeyPool(a.swap) && SettlesAt(a, r)
    ensures SettlesAt(Advance(a, Timeout), r)
  {
    RefundsOfTimeout(a.swap);
    ShapeKept(a.swap, Timeout);
    SettlementAdds(a, Advance(a, Timeout), Fire(a.swap, Timeout).effects.refunds, r);
  }

  lemma ExecutionSettlesAt(a: Account, x: Execution, now: int, r: Receipt)
    requires Shape(a.swap) && SendersKeyPool(a.swap) && SettlesAt(a, r)
    ensures SettlesAt(Advance(a, SwapExecutionMsg(x, now)), r)
  {
    RefundsOfExecution(a.swap, x, now);
    ShapeKept(a.swap, SwapExecutionMsg(x, now));
    SettlementAdds(a, Advance(a, SwapExecutionMsg(x, now)), FireExecution(a.swap, x, now).effects.refunds, r);
  }

  lemma CommitmentSettlesAt(a: Account, t: Trigger, r: Receipt)
    requires SettlesAt(a, r) && (t.MakerCommitmentMsg? || t.TakerCommitmentMsg?)
    ensures SettlesAt(Advance(a, t), r)
  {
  }

  // Refunds that are those of the way the swap just ended, or none when it goes on.
  lemma SettlementAdds(a: Account, a': Account, refunds: multiset<Refund>, r: Receipt)
    requires SettlesAt(a, r) && Shape(a'.swap)
    requires a'.ledger.accepted == a.ledger.accepted && a'.ledger.refunded == a.ledger.refunded + refunds
    requires a'.swap.makerReceipt == a.swap.makerReceipt && a'.swap.takerReceipt == a.swap.takerReceipt
    requires if a'.swap.terminated == a.swap.terminated then refunds == multiset{}
             else a.swap.terminated.None? && refunds == SettlementOf(a'.swap)
    ensures SettlesAt(a', r)
  {
    SettlementCount(a'.swap, r);
  }

  lemma ReceiptSettlesAt(a: Account, t: Receipt, r: Receipt)
    requires Shape(a.swap) && SettlesAt(a, r)
    ensures SettlesAt(Advance(a, TransferReceipt(t)), r)
  {
    var o := FireReceipt(a.swap, t);
    if o.result == MachineError {
      assert Record(a.ledger, TransferReceipt(t), a.swap).refunded == a.ledger.refunded;
    } else if o.swap == a.swap {
      BounceSettlesAt(a, t, r);
    } else {
      DepositSettlesAt(a, t, r);
    }
  }

  lemma BounceSettlesAt(a: Account, t: Receipt, r: Receipt)
    requires SettlesAt(a, r) && FireReceipt(a.swap, t) == Bounce(a.swap, t)
    ensures SettlesAt(Advance(a, TransferReceipt(t)), r)
  {
  }

  lemma DepositSettlesAt(a: Account, t: Receipt, r: Receipt)
    requires Shape(a.swap) && SettlesAt(a, r) && FireReceipt(a.swap, t).swap != a.swap
    ensures SettlesAt(Advance(a, TransferReceipt(t)), r)
  {
    var o := FireReceipt(a.swap, t);
    assert o.effects.refunds == multiset{} && o.swap.terminated == a.swap.terminated;
    assert DepositCount(o.swap, r) == DepositCount(a.swap, r) + (if t == r then 1 else 0);
  }

  lemma RefundsOfTimeout(s: Swap)
    requires Shape(s)
    ensures var o := Fire(s, Timeout);
            && o.swap.makerReceipt == s.makerReceipt && o.swap.takerReceipt == s.takerReceipt
            && (o.swap.terminated == s.terminated ==> o.effects.refunds == multiset{})
            && (o.swap.terminated != s.terminated ==> s.terminated.None? && o.effects.refunds == SettlementOf(o.swap))
  {
  }

  lemma RefundsOfExecution(s: Swap, x: Execution, now: int)
    requires Shape(s)
    ensures var o := FireExecution(s, x, now);
            && o.swap.makerReceipt == s.makerReceipt && o.swap.takerReceipt == s.takerReceipt
            && (o.swap.terminated == s.terminated ==> o.effects.refunds == multiset{})
            && (o.swap.terminated != s.terminated ==> s.terminated.None? && o.effects.refunds == SettlementOf(o.swap))
  {
  }

  function SettlementOf(s: Swap): multiset<Refund> {
    if s.terminated == Some(Untraded) then RefundOf(s.makerReceipt, false)
    else if s.terminated == Some(Traded) then RefundOf(s.makerReceipt, true) + RefundOf(s.takerReceipt, true)
    else multiset{}
  }

  lemma SettlementCount(s: Swap, r: Receipt)
    requires Shape(s)
    ensures SettlementOf(s)[Refund(r, false)] == (if s.terminated == Some(Untraded) then DepositCount(s, r) else 0)
    ensures SettlementOf(s)[Refund(r, true)] == (if s.terminated == Some(Traded) then DepositCount(s, r) else 0)
  {
  }

  lemma AnnouncesKept(a: Account, t: Trigger)
    requires Shape(a.swap) && Announces(a)
    ensures Announces(Advance(a, t))
  {
    if t.TransferReceipt? {
      ReceiptAnnounced(a.swap, t.receipt, a.ledger.completedAt);
    } else {
      EndingAnnounced(a.swap, t, a.ledger.completedAt);
    }
  }

  lemma ReceiptAnnounced(s: Swap, r: Receipt, at: int)
    requires Shape(s)
    ensures Said(FireReceipt(s, r).swap, at) == Said(s, at) + FireReceipt(s, r).effects.sends
  {
    var s' := FireReceipt(s, r).swap;
    assert s'.makerReceipt == s.makerReceipt ==> MakerPart(s') == MakerPart(s);
    assert s'.takerReceipt == s.takerReceipt ==> TakerPart(s') == TakerPart(s);
  }

  lemma EndingAnnounced(s: Swap, t: Trigger, at: int)
    requires Shape(s) && !t.TransferReceipt?
    ensures var o := Fire(s, t);
            Said(o.swap, if o.result == Taken && t.SwapExecutionMsg? then t.now else at)
            == Said(s, at) + o.effects.sends
  {
    match t
    case Timeout => TimeoutAnnounced(s, at);
    case MakerCommitmentMsg(c) =>
    case TakerCommitmentMsg(c) =>
    case SwapExecutionMsg(x, now) => ExecutionAnnounced(s, x, now, at);
  }

  lemma TimeoutAnnounced(s: Swap, at: int)
    requires Shape(s)
    ensures Said(Fire(s, Timeout).swap, at) == Said(s, at) + Fire(s, Timeout).effects.sends
  {
    var s' := Fire(s, Timeout).swap;
    assert MakerPart(s') == MakerPart(s) && TakerPart(s') == TakerPart(s);
  }

  lemma ExecutionAnnounced(s: Swap, x: Execution, now: int, at: int)
    requires Shape(s)
    ensures var o := FireExecution(s, x, now);
            Said(o.swap, if o.result == Taken then now else at) == Said(s, at) + o.effects.sends
  {
    var s' := FireExecution(s, x, now).swap;
    assert MakerPart(s') == MakerPart(s) && TakerPart(s') == TakerPart(s);
  }

  lemma FirstComeFirstServedKept(a: Account, t: Trigger)
    requires Shape(a.swap) && FirstComeFirstServed(a)
    ensures FirstComeFirstServed(Advance(a, t))
  {
    var a' := Advance(a, t);
    forall x ensures PoolHolds(a', x) {
      assert PoolHolds(a, x);
      PoolHoldsKept(a, t, x);
    }
    if TakerChosen(a.swap) {
      PoolHoldsKept(a, t, a.swap.takerCommitment.value.sender);
    } else if TakerChosen(a'.swap) {
      PoolHoldsKept(a, t, t.receipt.initiator);
    }
  }

  lemma PoolHoldsKept(a: Account, t: Trigger, x: Address)
    requires PoolHolds(a, x)
    ensures PoolHolds(Advance(a, t), x)
    ensures !TakerCommitmentTaken(a.swap, t) ==> Advance(a, t).ledger.offered == a.ledger.offered
    ensures SendersKeyPool(a.swap) ==> SendersKeyPool(Advance(a, t).swap)
  {
    if TakerCommitmentTaken(a.swap, t) {
      CommitmentPooled(a, t.msg, x);
    } else {
      PoolUntouched(a, t);
    }
  }

  lemma CommitmentPooled(a: Account, c: Commitment, x: Address)
    requires PoolHolds(a, x) && a.swap.state == WaitForTaker
    ensures PoolHolds(Advance(a, TakerCommitmentMsg(c)), x)
    ensures SendersKeyPool(a.swap) ==> SendersKeyPool(Advance(a, TakerCommitmentMsg(c)).swap)
  {
    var offered := Advance(a, TakerCommitmentMsg(c)).ledger.offered;
    assert offered[..|offered| - 1] == a.ledger.offered;
  }

  lemma PoolUntouched(a: Account, t: Trigger)
    requires !TakerCommitmentTaken(a.swap, t)
    ensures Advance(a, t).ledger.offered == a.ledger.offered && Advance(a, t).swap.pool == a.swap.pool
  {
    match t
    case Timeout => TimeoutKeepsPool(a.swap);
    case MakerCommitmentMsg(_) =>
    case TakerCommitmentMsg(_) =>
    case TransferReceipt(r) => ReceiptKeepsPool(a.swap, r);
    case SwapExecutionMsg(x, now) => ExecutionKeepsPool(a.swap, x, now);
    assert a.ledger.offered + [] == a.ledger.offered;
  }

  lemma TimeoutKeepsPool(s: Swap)
    ensures Fire(s, Timeout).swap.pool == s.pool
  {
  }

  lemma ReceiptKeepsPool(s: Swap, r: Receipt)
    ensures FireReceipt(s, r).swap.pool == s.pool
  {
  }

  lemma ExecutionKeepsPool(s: Swap, x: Execution, now: int)
    ensures FireExecution(s, x, now).swap.pool == s.pool
  {
  }

  predicate TakerCommitmentTaken(s: Swap, t: Trigger) { t.TakerCommitmentMsg? && s.state == WaitForTaker }

  lemma StepKeepsAccount(a: Account, t: Trigger)
    requires AccountInv(a)
    ensures AccountInv(Advance(a, t))
  {
    ShapeKept(a.swap, t);
    SettlesKept(a, t);
    AnnouncesKept(a, t);
    FirstComeFirstServedKept(a, t);
    assert TimedOnce(Advance(a, t));
  }

  // --- over a whole life -----------------------------------------------------------------------------

  function Lived(a: Account, ts: seq<Trigger>): Account {
    if ts == [] then a else Advance(Lived(a, ts[..|ts| - 1]), ts[|ts| - 1])
  }

  // Whatever was recorded stays as it was recorded.
  predicate Keeps<T(==)>(before: Option<T>, after: Option<T>) { before.Some? ==> after == before }

  predicate NothingReplaced(s: Swap, s': Swap) {
    && Keeps(s.makerCommitment, s'.makerCommitment) && Keeps(s.makerReceipt, s'.makerReceipt)
    && Keeps(s.takerCommitment, s'.takerCommitment) && Keeps(s.takerReceipt, s'.takerReceipt)
    && Keeps(s.makerProof, s'.makerProof) && Keeps(s.terminated, s'.terminated)
    && s'.offerId == s.offerId && s'.secret == s.secret && s'.secretHash == s.secretHash
    && (forall x :: x in s.pool ==> x in s'.pool && s'.pool[x] == s.pool[x])
  }

  lemma {:induction false} RecordsAreFinal(a: Account, ts: seq<Trigger>)
    requires AccountInv(a)
    ensures AccountInv(Lived(a, ts))
    ensures NothingReplaced(a.swap, Lived(a, ts).swap)
    ensures a.ledger.sent <= Lived(a, ts).ledger.sent
  {
    if ts != [] {
      var before := Lived(a, ts[..|ts| - 1]);
      RecordsAreFinal(a, ts[..|ts| - 1]);
      StepKeepsAccount(before, ts[|ts| - 1]);
      StepReplacesNothing(before.swap, ts[|ts| - 1]);
    }
  }

  lemma StepReplacesNothing(s: Swap, t: Trigger)
    requires Shape(s)
    ensures NothingReplaced(s, Fire(s, t).swap)
  {
  }

  function Rank(s: State): nat {
    match s
    case Initializing => 0
    case WaitForMaker => 1
    case WaitForTaker => 2
    case WaitForExecution => 3
    case WaitForMakerExecution | WaitForTakerExecution => 4
    case Traded | Uncommitted | Untraded | Failed => 5
    case Processed => 6
  }

  function Moves(a: Account, ts: seq<Trigger>): nat {
    if ts == [] then 0
    else
      var before := Lived(a, ts[..|ts| - 1]).swap;
      Moves(a, ts[..|ts| - 1]) + (if Fire(before, ts[|ts| - 1]).swap.state != before.state then 1 else 0)
  }

  // Every trigger that changes the state climbs in rank, so a swap changes state at most five times, however
  // many triggers reach it, and never leaves processed.
  lemma {:induction false} StateOnlyClimbs(a: Account, ts: seq<Trigger>)
    requires a.swap.state == Initializing
    ensures Moves(a, ts) <= Rank(Lived(a, ts).swap.state)
    ensures Lived(a, ts).swap.state == Processed ==> Moves(a, ts) <= 5
    ensures !EndState(Lived(a, ts).swap.state)
  {
    if ts != [] {
      StateOnlyClimbs(a, ts[..|ts| - 1]);
      var before := Lived(a, ts[..|ts| - 1]).swap;
      assert !EndState(before.state);
      MoveClimbs(before, ts[|ts| - 1]);
    }
  }

  lemma MoveClimbs(s: Swap, t: Trigger)
    requires !EndState(s.state)
    ensures Climbs(s, Fire(s, t))
  {
    match t
    case Timeout =>
    case MakerCommitmentMsg(_) =>
    case TakerCommitmentMsg(_) =>
    case TransferReceipt(r) => ReceiptClimbs(s, r);
    case SwapExecutionMsg(x, now) => ExecutionClimbs(s, x, now);
  }

  predicate Climbs(s: Swap, o: Outcome) {
    && !EndState(o.swap.state)
    && (o.swap.state != s.state ==> Rank(s.state) < Rank(o.swap.state) && o.result == Taken)
  }

  lemma ReceiptClimbs(s: Swap, r: Receipt)
    requires !EndState(s.state)
    ensures Climbs(s, FireReceipt(s, r))
  {
  }

  lemma ExecutionClimbs(s: Swap, x: Execution, now: int)
    requires !EndState(s.state)
    ensures Climbs(s, FireExecution(s, x, now))
  {
  }

  // A processed swap: how it ended decides who was paid back what, what was sent, and what was recorded.
  lemma EndDecidesSettlement(a: Account, r: Receipt)
    requires AccountInv(a) && a.swap.state == Processed
    ensures a.swap.terminated.Some? && EndState(a.swap.terminated.value)
    ensures a.swap.terminated == Some(Uncommitted) ==>
              && a.swap.makerReceipt.None? && a.swap.takerReceipt.None?
              && a.ledger.sent == []
              && a.ledger.refunded[Refund(r, false)] == a.ledger.accepted[r] && a.ledger.refunded[Refund(r, true)] == 0
    ensures a.swap.terminated == Some(Untraded) ==>
              && a.swap.makerReceipt.Some? && a.swap.takerReceipt.None?
              && a.ledger.sent == [MakerProofSend(a.swap), CancellationSend(a.swap)]
              && a.ledger.refunded[Refund(r, false)] == a.ledger.accepted[r] && a.ledger.refunded[Refund(r, true)] == 0
    ensures a.swap.terminated == Some(Traded) ==>
              && a.swap.makerReceipt.Some? && a.swap.takerReceipt.Some?
              && a.swap.makerExecution.Some? && Some(a.swap.makerExecution.value.sender) == a.swap.MakerAddress()
              && a.swap.takerExecution.Some? && Some(a.swap.takerExecution.value.sender) == a.swap.TakerAddress()
              && a.ledger.sent == [MakerProofSend(a.swap), TakenSend(a.swap), TakerProofSend(a.swap),
                                   CompletedSend(a.swap, a.ledger.completedAt)]
              && a.ledger.refunded[Refund(r, true)] == DepositCount(a.swap, r)
              && a.ledger.refunded[Refund(r, false)] == a.ledger.accepted[r] - DepositCount(a.swap, r)
    ensures a.swap.terminated == Some(Failed) ==>
              && a.swap.makerReceipt.Some? && a.swap.takerReceipt.Some?
              && a.ledger.sent == [MakerProofSend(a.swap), TakenSend(a.swap), TakerProofSend(a.swap)]
              && a.ledger.refunded[Refund(r, true)] == 0
              && a.ledger.refunded[Refund(r, false)] == a.ledger.accepted[r] - DepositCount(a.swap, r)
  {
    assert SettlesAt(a, r);
  }
}
