// The swap's transition table, and the machine that looks a trigger up in it: the first listed transition
// whose source and conditions fit is taken, its callbacks run in order, and 'finalize' runs nested in them.
module SwapMachine {
  import opened SwapTypes
  import opened SwapProtocol

  datatype Guard = Always | SenderIsMaker | SenderIsTaker | SentTakerCommitment | Unless(guard: Guard)

  datatype Action =
    | SetMakerCommitment | SpawnTimeout
    | SetMakerReceipt | SendMakerProof
    | QueueCommitment
    | AcceptTaker | SetTakerReceipt | SendOfferTaken | SendTakerProof
    | SetMakerExecution | SetTakerExecution
    | SendSwapCompleted | RefundMakerWithFee | RefundTakerWithFee
    | RefundMaker | PunishMaker | PunishTaker
    | RefundTransfer
    | Finalize

  // dest None is the reflexive '='.
  datatype Transition = Transition(sources: seq<State>, dest: Option<State>, guard: Guard, before: seq<Action>,
                                   after: seq<Action>)

  function TransitionsOf(t: Trigger): seq<Transition> {
    match t
    case Timeout => [
      Transition([WaitForTaker], Some(Untraded), Always, [], [RefundMaker, Finalize]),
      Transition([Initializing, WaitForMaker], Some(Uncommitted), Always, [], [Finalize]),
      Transition([WaitForExecution, WaitForTakerExecution, WaitForMakerExecution], Some(Failed), Always, [],
                 [PunishMaker, PunishTaker, Finalize])]
    case MakerCommitmentMsg(_) => [
      Transition([Initializing], Some(WaitForMaker), Always, [], [SetMakerCommitment, SpawnTimeout])]
    case TakerCommitmentMsg(_) => [
      Transition([WaitForTaker], None, Always, [QueueCommitment], [])]
    case TransferReceipt(_) => [
      Transition([WaitForMaker], Some(WaitForTaker), SenderIsMaker, [], [SetMakerReceipt, SendMakerProof]),
      Transition([WaitForTaker], Some(WaitForExecution), SentTakerCommitment, [],
                 [AcceptTaker, SetTakerReceipt, SendOfferTaken, SendTakerProof]),
      Transition([WaitForTaker], None, Unless(SentTakerCommitment), [], [RefundTransfer]),
      Transition([WaitForMaker], None, Unless(SenderIsMaker), [], [RefundTransfer]),
      Transition([WaitForExecution, WaitForTakerExecution, WaitForMakerExecution, Failed, Traded, Uncommitted,
                  Untraded],
                 None, Always, [], [RefundTransfer])]
    case SwapExecutionMsg(_, _) => [
      Transition([WaitForExecution], Some(WaitForTakerExecution), SenderIsMaker, [], [SetMakerExecution]),
      Transition([WaitForExecution], Some(WaitForMakerExecution), SenderIsTaker, [], [SetTakerExecution]),
      Transition([WaitForTakerExecution], Some(Traded), SenderIsTaker, [],
                 [SetTakerExecution, SendSwapCompleted, RefundMakerWithFee, RefundTakerWithFee, Finalize]),
      Transition([WaitForMakerExecution], Some(Traded), SenderIsMaker, [],
                 [SetMakerExecution, SendSwapCompleted, RefundMakerWithFee, RefundTakerWithFee, Finalize])]
  }

  // The one transition of 'finalize', whose callbacks record the source state and drop the swap.
  const FINALIZE_SOURCES := [Traded, Untraded, Failed, Uncommitted]

  // --- reading the table ---------------------------------------------------------------------------------

  function Sender(t: Trigger): Option<Address> {
    match t
    case Timeout => None
    case MakerCommitmentMsg(c) => Some(c.sender)
    case TakerCommitmentMsg(c) => Some(c.sender)
    case TransferReceipt(r) => Some(r.initiator)
    case SwapExecutionMsg(x, _) => Some(x.sender)
  }

  function Passes(g: Guard, s: Swap, t: Trigger): bool {
    match g
    case Always => true
    case SenderIsMaker => Sender(t) == s.MakerAddress()
    case SenderIsTaker => Sender(t) == s.TakerAddress()
    case SentTakerCommitment => Sender(t).Some? && Sender(t).value in s.pool
    case Unless(h) => !Passes(h, s, t)
  }

  datatype Cell = Cell(swap: Swap, effects: Effects) {
    function Refunding(refunds: multiset<Refund>): Cell {
      this.(effects := effects.(refunds := effects.refunds + refunds))
    }
    function Saying(message: Message, topic: Option<Address>): Cell {
      this.(effects := effects.(sends := effects.sends + [Send(message, topic)]))
    }
  }

  // One callback.
  function Perform(a: Action, c: Cell, t: Trigger): Cell {
    var s := c.swap;
    match a
    case SetMakerCommitment => if t.MakerCommitmentMsg? then c.(swap := s.(makerCommitment := Some(t.msg))) else c
    case SpawnTimeout => c.(swap := s.(timers := s.timers + 1))
    case SetMakerReceipt => if t.TransferReceipt? then c.(swap := s.(makerReceipt := Some(t.receipt))) else c
    case SendMakerProof =>
      var proof := ProofFor(s, s.makerCommitment);
      c.(swap := s.(makerProof := Some(proof))).Saying(CommitmentProof(proof), s.MakerAddress())
    case QueueCommitment =>
      if t.TakerCommitmentMsg? && t.msg.sender !in s.pool then
        c.(swap := s.(pool := s.pool[t.msg.sender := t.msg]))
      else c
    case AcceptTaker =>
      if t.TransferReceipt? && t.receipt.initiator in s.pool then
        c.(swap := s.(takerCommitment := Some(s.pool[t.receipt.initiator])))
      else c
    case SetTakerReceipt => if t.TransferReceipt? then c.(swap := s.(takerReceipt := Some(t.receipt))) else c
    case SendOfferTaken => c.Saying(OfferTaken(s.offerId), None)
    case SendTakerProof => c.Saying(CommitmentProof(ProofFor(s, s.takerCommitment)), s.TakerAddress())
    case SetMakerExecution => if t.SwapExecutionMsg? then c.(swap := s.(makerExecution := Some(t.execution))) else c
    case SetTakerExecution => if t.SwapExecutionMsg? then c.(swap := s.(takerExecution := Some(t.execution))) else c
    case SendSwapCompleted => if t.SwapExecutionMsg? then c.Saying(SwapCompleted(s.offerId, t.now), None) else c
    case RefundMakerWithFee => c.Refunding(RefundOf(s.makerReceipt, true))
    case RefundTakerWithFee => c.Refunding(RefundOf(s.takerReceipt, true))
    case RefundMaker =>
      c.Refunding(RefundOf(s.makerReceipt, false)).Saying(CancellationProof(s.offerId, s.makerProof), s.MakerAddress())
    case PunishMaker => c
    case PunishTaker => c
    case RefundTransfer => if t.TransferReceipt? then c.Refunding(multiset{Refund(t.receipt, false)}) else c
    case Finalize =>
      if s.state in FINALIZE_SOURCES then
        Cell(s.(state := Processed, terminated := Some(s.state)), c.effects.(dropped := true))
      else c
  }

  function PerformAll(actions: seq<Action>, c: Cell, t: Trigger): Cell {
    if actions == [] then c else PerformAll(actions[1..], Perform(actions[0], c, t), t)
  }

  function Execute(tr: Transition, s: Swap, t: Trigger): Cell {
    var c := PerformAll(tr.before, Cell(s, NOTHING), t);
    var moved := c.(swap := c.swap.(state := if tr.dest.Some? then tr.dest.value else s.state));
    PerformAll(tr.after, moved, t)
  }

  // The transition the machine takes: the first one listed for this state whose condition holds.
  function Choose(table: seq<Transition>, s: Swap, t: Trigger): Option<Transition> {
    if table == [] then None
    else if s.state in table[0].sources && Passes(table[0].guard, s, t) then Some(table[0])
    else Choose(table[1..], s, t)
  }

  predicate Listed(table: seq<Transition>, state: State) { exists i :: 0 <= i < |table| && state in table[i].sources }

  // --- the table means what SwapProtocol.Fire says --------------------------------------------------------

  function Interpret(s: Swap, t: Trigger): Outcome {
    var chosen := Choose(TransitionsOf(t), s, t);
    if chosen.Some? then
      var c := Execute(chosen.value, s, t);
      Outcome(Taken, c.swap, c.effects)
    else Outcome(if Listed(TransitionsOf(t), s.state) then Refused else MachineError, s, NOTHING)
  }

  // The cell after the first n of the callbacks.
  function After(n: nat, actions: seq<Action>, c: Cell, t: Trigger): Cell
    requires n <= |actions|
  {
    if n == 0 then c else Perform(actions[n - 1], After(n - 1, actions, c, t), t)
  }

  lemma {:induction false} PerformAllIsAfter(actions: seq<Action>, c: Cell, t: Trigger)
    ensures PerformAll(actions, c, t) == After(|actions|, actions, c, t)
    decreases |actions|
  {
    if actions != [] {
      var c' := Perform(actions[0], c, t);
      PerformAllIsAfter(actions[1..], c', t);
      AfterTail(|actions| - 1, actions, c, t);
    }
  }

  lemma {:induction false} AfterTail(n: nat, actions: seq<Action>, c: Cell, t: Trigger)
    requires n < |actions|
    ensures After(n + 1, actions, c, t) == After(n, actions[1..], Perform(actions[0], c, t), t)
  {
    if n == 0 {
      assert After(1, actions, c, t) == Perform(actions[0], After(0, actions, c, t), t);
    } else {
      AfterTail(n - 1, actions, c, t);
    }
  }

  // A transition without 'before' callbacks, with the cells after each of its 'after' callbacks written out.
  lemma ExecuteInOrder(tr: Transition, s: Swap, t: Trigger)
    requires tr.before == []
    ensures var as_, c := tr.after, Cell(s.(state := if tr.dest.Some? then tr.dest.value else s.state), NOTHING);
            && Execute(tr, s, t) == After(|as_|, as_, c, t)
            && (0 < |as_| ==> After(1, as_, c, t) == Perform(as_[0], c, t))
            && (1 < |as_| ==> After(2, as_, c, t) == Perform(as_[1], After(1, as_, c, t), t))
            && (2 < |as_| ==> After(3, as_, c, t) == Perform(as_[2], After(2, as_, c, t), t))
            && (3 < |as_| ==> After(4, as_, c, t) == Perform(as_[3], After(3, as_, c, t), t))
            && (4 < |as_| ==> After(5, as_, c, t) == Perform(as_[4], After(4, as_, c, t), t))
  {
    PerformAllIsAfter(tr.after, Cell(s.(state := if tr.dest.Some? then tr.dest.value else s.state), NOTHING), t);
  }

  predicate Fits(tr: Transition, s: Swap, t: Trigger) { s.state in tr.sources && Passes(tr.guard, s, t) }

  // Which of up to five listed transitions is chosen.
  lemma ChooseInOrder(ts: seq<Transition>, s: Swap, t: Trigger)
    requires 0 < |ts| <= 5
    ensures Choose(ts, s, t) ==
      if Fits(ts[0], s, t) then Some(ts[0])
      else if 1 < |ts| && Fits(ts[1], s, t) then Some(ts[1])
      else if 2 < |ts| && Fits(ts[2], s, t) then Some(ts[2])
      else if 3 < |ts| && Fits(ts[3], s, t) then Some(ts[3])
      else if 4 < |ts| && Fits(ts[4], s, t) then Some(ts[4])
      else None
    decreases |ts|
  {
    if 1 < |ts| { ChooseInOrder(ts[1..], s, t); }
  }

  lemma TimeoutMeans(s: Swap)
    ensures Interpret(s, Timeout) == Fire(s, Timeout)
  {
    var ts := TransitionsOf(Timeout);
    ChooseInOrder(ts, s, Timeout);
    match s.state
    case WaitForTaker => CancelMeans(s);
    case Initializing | WaitForMaker => EndMeans(s, 1, Uncommitted);
    case WaitForExecution | WaitForMakerExecution | WaitForTakerExecution => EndMeans(s, 2, Failed);
    case _ => assert !Listed(ts, s.state);
  }

  lemma CancelMeans(s: Swap)
    requires s.state == WaitForTaker
    ensures Execute(TransitionsOf(Timeout)[0], s, Timeout) == Cell(Fire(s, Timeout).swap, Fire(s, Timeout).effects)
  {
    ExecuteInOrder(TransitionsOf(Timeout)[0], s, Timeout);
    assert NOTHING.refunds + RefundOf(s.makerReceipt, false) == RefundOf(s.makerReceipt, false);
  }

  lemma EndMeans(s: Swap, i: nat, end: State)
    requires (i == 1 && end == Uncommitted) || (i == 2 && end == Failed)
    ensures var o := Finalized(s, end, NOTHING);
            Execute(TransitionsOf(Timeout)[i], s, Timeout) == Cell(o.swap, o.effects)
  {
    ExecuteInOrder(TransitionsOf(Timeout)[i], s, Timeout);
  }

  lemma MakerCommitmentMeans(s: Swap, c: Commitment)
    ensures Interpret(s, MakerCommitmentMsg(c)) == Fire(s, MakerCommitmentMsg(c))
  {
    var t := MakerCommitmentMsg(c);
    ChooseInOrder(TransitionsOf(t), s, t);
    ExecuteInOrder(TransitionsOf(t)[0], s, t);
  }

  lemma TakerCommitmentMeans(s: Swap, c: Commitment)
    ensures Interpret(s, TakerCommitmentMsg(c)) == Fire(s, TakerCommitmentMsg(c))
  {
    var t := TakerCommitmentMsg(c);
    ChooseInOrder(TransitionsOf(t), s, t);
    PerformAllIsAfter([QueueCommitment], Cell(s, NOTHING), t);
  }

  // Which transition a receipt takes.
  function ReceiptRow(s: Swap, r: Receipt): nat {
    match s.state
    case WaitForMaker => if Some(r.initiator) == s.MakerAddress() then 0 else 3
    case WaitForTaker => if r.initiator in s.pool then 1 else 2
    case _ => 4
  }

  lemma ReceiptChoice(s: Swap, r: Receipt)
    ensures var t := TransferReceipt(r);
            Choose(TransitionsOf(t), s, t)
            == if s.state.Initializing? || s.state.Processed? then None else Some(TransitionsOf(t)[ReceiptRow(s, r)])
  {
    ChooseInOrder(TransitionsOf(TransferReceipt(r)), s, TransferReceipt(r));
  }

  lemma ReceiptMeans(s: Swap, r: Receipt)
    ensures Interpret(s, TransferReceipt(r)) == FireReceipt(s, r)
  {
    ReceiptChoice(s, r);
    match s.state
    case WaitForMaker => MakerReceiptMeans(s, r);
    case WaitForTaker => TakerReceiptMeans(s, r);
    case Initializing | Processed => assert !Listed(TransitionsOf(TransferReceipt(r)), s.state);
    case _ => BounceMeans(s, r, 4);
  }

  lemma BounceMeans(s: Swap, r: Receipt, i: nat)
    requires 2 <= i <= 4
    ensures var o := Bounce(s, r);
            Execute(TransitionsOf(TransferReceipt(r))[i], s, TransferReceipt(r)) == Cell(o.swap, o.effects)
  {
    ExecuteInOrder(TransitionsOf(TransferReceipt(r))[i], s, TransferReceipt(r));
  }

  lemma MakerReceiptMeans(s: Swap, r: Receipt)
    requires s.state == WaitForMaker
    ensures var ts, o := TransitionsOf(TransferReceipt(r)), FireReceipt(s, r);
            Execute(ts[if Some(r.initiator) == s.MakerAddress() then 0 else 3], s, TransferReceipt(r))
            == Cell(o.swap, o.effects)
  {
    var t := TransferReceipt(r);
    ExecuteInOrder(TransitionsOf(t)[0], s, t);
    BounceMeans(s, r, 3);
  }

  lemma TakerReceiptMeans(s: Swap, r: Receipt)
    requires s.state == WaitForTaker
    ensures var ts, o := TransitionsOf(TransferReceipt(r)), FireReceipt(s, r);
            Execute(ts[if r.initiator in s.pool then 1 else 2], s, TransferReceipt(r)) == Cell(o.swap, o.effects)
  {
    var t := TransferReceipt(r);
    ExecuteInOrder(TransitionsOf(t)[1], s, t);
    BounceMeans(s, r, 2);
  }

  lemma ExecutionMeans(s: Swap, x: Execution, now: int)
    ensures Interpret(s, SwapExecutionMsg(x, now)) == FireExecution(s, x, now)
  {
    var t := SwapExecutionMsg(x, now);
    var ts := TransitionsOf(t);
    ChooseInOrder(ts, s, t);
    match s.state
    case WaitForExecution =>
      FirstExecutionMeans(s, x, now);
      assert Listed(ts, s.state) by { assert s.state in ts[0].sources; }
    case WaitForTakerExecution =>
      CompletionMeans(s, x, now, 2);
      assert Listed(ts, s.state) by { assert s.state in ts[2].sources; }
    case WaitForMakerExecution =>
      CompletionMeans(s, x, now, 3);
      assert Listed(ts, s.state) by { assert s.state in ts[3].sources; }
    case _ => assert !Listed(ts, s.state);
  }

  // The first execution message is recorded, and the swap waits for the other party's.
  lemma FirstExecutionMeans(s: Swap, x: Execution, now: int)
    ensures var t := SwapExecutionMsg(x, now);
            && Execute(TransitionsOf(t)[0], s, t)
               == Cell(s.(state := WaitForTakerExecution, makerExecution := Some(x)), NOTHING)
            && Execute(TransitionsOf(t)[1], s, t)
               == Cell(s.(state := WaitForMakerExecution, takerExecution := Some(x)), NOTHING)
  {
    var t := SwapExecutionMsg(x, now);
    ExecuteInOrder(TransitionsOf(t)[0], s, t);
    ExecuteInOrder(TransitionsOf(t)[1], s, t);
  }

  // The second execution message: both transitions into 'traded' run the same callbacks after recording it.
  lemma CompletionMeans(s: Swap, x: Execution, now: int, i: nat)
    requires i == 2 || i == 3
    ensures var s' := if i == 2 then s.(takerExecution := Some(x)) else s.(makerExecution := Some(x));
            var o := Finalized(s', Traded, CompletionOf(s', now));
            Execute(TransitionsOf(SwapExecutionMsg(x, now))[i], s, SwapExecutionMsg(x, now)) == Cell(o.swap, o.effects)
  {
    var t := SwapExecutionMsg(x, now);
    var tr := TransitionsOf(t)[i];
    var recorded := (if i == 2 then s.(takerExecution := Some(x)) else s.(makerExecution := Some(x))).(state := Traded);
    var c := Cell(s.(state := Traded), NOTHING);
    ExecuteInOrder(tr, s, t);
    assert After(1, tr.after, c, t) == Cell(recorded, NOTHING);
    SettlingMeans(recorded, x, now);
  }

  lemma SettlingMeans(s: Swap, x: Execution, now: int)
    requires s.state == Traded
    ensures var t := SwapExecutionMsg(x, now);
            var said := Perform(SendSwapCompleted, Cell(s, NOTHING), t);
            var paid := Perform(RefundTakerWithFee, Perform(RefundMakerWithFee, said, t), t);
            var o := Finalized(s, Traded, CompletionOf(s, now));
            Perform(Finalize, paid, t) == Cell(o.swap, o.effects)
  {
    var sends := [Send(SwapCompleted(s.offerId, now), None)];
    SaidOnce(s, SwapCompleted(s.offerId, now));
    RefundedTwice(s, sends);
  }

  lemma SaidOnce(s: Swap, m: Message)
    ensures Cell(s, NOTHING).Saying(m, None) == Cell(s, Effects(multiset{}, [Send(m, None)], false))
  {
  }

  lemma RefundedTwice(s: Swap, sends: seq<Send>)
    ensures var maker, taker := RefundOf(s.makerReceipt, true), RefundOf(s.takerReceipt, true);
            Cell(s, Effects(multiset{}, sends, false)).Refunding(maker).Refunding(taker)
            == Cell(s, Effects(maker + taker, sends, false))
  {
    var maker := RefundOf(s.makerReceipt, true);
    assert multiset{} + maker == maker;
  }

  lemma TableMeansFire(s: Swap, t: Trigger)
    ensures Interpret(s, t) == Fire(s, t)
  {
    match t
    case Timeout => TimeoutMeans(s);
    case MakerCommitmentMsg(c) => MakerCommitmentMeans(s, c);
    case TakerCommitmentMsg(c) => TakerCommitmentMeans(s, c);
    case TransferReceipt(r) => ReceiptMeans(s, r);
    case SwapExecutionMsg(x, now) => ExecutionMeans(s, x, now);
  }
}
