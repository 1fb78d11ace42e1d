// The whole commitment service on values: the table of running swaps, every swap ever opened, the refund
// queue with its retrying worker, and the events that reach the service, in any order.
module Service {
  import opened SwapTypes
  import opened SwapProtocol

  // table: running swaps, by offer id, as positions in swaps. swaps: every swap ever opened, oldest first;
  // a processed swap stays reachable from its timeout only. queue, inFlight, paid: the refunds waiting for
  // the worker, those whose transfer is under way, and those whose transfer succeeded.
  datatype Service = Service(
    table: map<OfferId, nat>,
    swaps: seq<Account>,
    queue: multiset<Refund>,
    inFlight: multiset<Refund>,
    paid: multiset<Refund>,
    outbox: seq<Send>)

  datatype Event =
    | GotCommitment(commitment: Commitment, secret: nat, secretHash: nat)
    | GotReceipt(receipt: Receipt)
    | GotExecution(execution: Execution, now: int)
    | GotCancellation(offerId: OfferId)
    | TimerFired(swap: nat)
    | RefundStarted(refund: Refund)
    | RefundAnswered(refund: Refund, success: bool)

  const IDLE := Service(map[], [], multiset{}, multiset{}, multiset{}, [])

  // --- steps ----------------------------------------------------------------------------------------

  function Deliver(sv: Service, k: nat, t: Trigger): Service
    requires k < |sv.swaps|
  {
    var effects := Fire(sv.swaps[k].swap, t).effects;
    sv.(swaps := sv.swaps[k := Advance(sv.swaps[k], t)],
        table := if effects.dropped then sv.table - {sv.swaps[k].swap.offerId} else sv.table,
        queue := sv.queue + effects.refunds,
        outbox := sv.outbox + effects.sends)
  }

  function DeliverById(sv: Service, offerId: OfferId, t: Trigger): Service {
    if offerId in sv.table && sv.table[offerId] < |sv.swaps| then Deliver(sv, sv.table[offerId], t) else sv
  }

  function Open(sv: Service, offerId: OfferId, secret: nat, secretHash: nat): Service {
    sv.(swaps := sv.swaps + [Opened(offerId, secret, secretHash)], table := sv.table[offerId := |sv.swaps|])
  }

  // The timer runs out whether or not the swap still listens to it.
  function Expire(sv: Service, k: nat): Service
    requires k < |sv.swaps| && 0 < sv.swaps[k].swap.timers
  {
    var a := sv.swaps[k];
    sv.(swaps := sv.swaps[k := a.(swap := a.swap.(timers := a.swap.timers - 1))])
  }

  function Step(sv: Service, e: Event): Service {
    match e
    case GotCommitment(c, secret, secretHash) =>
      if c.offerId in sv.table then DeliverById(sv, c.offerId, TakerCommitmentMsg(c))
      else Deliver(Open(sv, c.offerId, secret, secretHash), |sv.swaps|, MakerCommitmentMsg(c))
    case GotReceipt(r) => DeliverById(sv, r.identifier, TransferReceipt(r))
    case GotExecution(x, now) => DeliverById(sv, x.offerId, SwapExecutionMsg(x, now))
    case GotCancellation(id) => DeliverById(sv, id, Timeout)
    case TimerFired(k) =>
      if k < |sv.swaps| && 0 < sv.swaps[k].swap.timers then Deliver(Expire(sv, k), k, Timeout) else sv
    case RefundStarted(f) =>
      if f in sv.queue then sv.(queue := sv.queue - multiset{f}, inFlight := sv.inFlight + multiset{f}) else sv
    case RefundAnswered(f, success) =>
      if f !in sv.inFlight then sv
      else if success then sv.(inFlight := sv.inFlight - multiset{f}, paid := sv.paid + multiset{f})
      else sv.(inFlight := sv.inFlight - multiset{f}, queue := sv.queue + multiset{f})
  }

  function Run(sv: Service, es: seq<Event>): Service {
    if es == [] then sv else Step(Run(sv, es[..|es| - 1]), es[|es| - 1])
  }

  // What the refund worker transfers: the fee comes off when it is claimed, and a transfer takes whole units.
  function Payout(f: Refund, feeRate: Option<real>): int {
    var amount := f.receipt.amount as real;
    if feeRate.Some? && f.claimFee then (amount - amount * feeRate.value).Floor else f.receipt.amount
  }

  // --- invariant --------------------------------------------------------------------------------------

  predicate InTable(sv: Service, k: nat)
    requires k < |sv.swaps|
  {
    var id := sv.swaps[k].swap.offerId;
    id in sv.table && sv.table[id] == k
  }

  // The table holds exactly the running swaps, each under its own id.
  ghost predicate TableInv(sv: Service) {
    && (forall id :: id in sv.table ==> sv.table[id] < |sv.swaps| && sv.swaps[sv.table[id]].swap.offerId == id)
    && forall k :: 0 <= k < |sv.swaps| ==> (sv.swaps[k].swap.Live() <==> InTable(sv, k))
  }

  // A running swap has its one timeout still ahead of it.
  ghost predicate Healthy(a: Account) { AccountInv(a) && (a.swap.Live() ==> a.swap.timers == 1) }

  ghost predicate SwapsInv(sv: Service) { forall a :: a in sv.swaps ==> Healthy(a) }

  ghost predicate ServiceInv(sv: Service) { TableInv(sv) && SwapsInv(sv) }

  // One swap makes a step: its id stays, and it leaves the table exactly when it ends.
  predicate Replaces(sv: Service, sv': Service, k: nat)
    requires k < |sv.swaps|
  {
    && |sv'.swaps| == |sv.swaps| && sv'.swaps == sv.swaps[k := sv'.swaps[k]]
    && var s, s' := sv.swaps[k].swap, sv'.swaps[k].swap;
    && s'.offerId == s.offerId
    && (s'.Live() ==> s.Live())
    && sv'.table == if s.Live() && !s'.Live() then sv.table - {s.offerId} else sv.table
  }

  lemma ReplacingKeepsTable(sv: Service, sv': Service, k: nat)
    requires TableInv(sv) && k < |sv.swaps| && Replaces(sv, sv', k)
    ensures TableInv(sv')
  {
    forall j | 0 <= j < |sv'.swaps| ensures sv'.swaps[j].swap.Live() <==> InTable(sv', j) {
      assert sv.swaps[j].swap.Live() <==> InTable(sv, j);
    }
  }

  lemma ReplacingKeepsSwaps(sv: Service, k: nat, a: Account)
    requires SwapsInv(sv) && k < |sv.swaps| && Healthy(a)
    ensures forall x :: x in sv.swaps[k := a] ==> Healthy(x)
  {
    forall x | x in sv.swaps[k := a] ensures Healthy(x) {
      assert x == a || x in sv.swaps;
    }
  }

  lemma DeliverKeepsInv(sv: Service, k: nat, t: Trigger)
    requires ServiceInv(sv) && k < |sv.swaps|
    ensures ServiceInv(Deliver(sv, k, t))
  {
    var a := sv.swaps[k];
    StepKeepsHealth(a, t);
    FireFrame(a.swap, t);
    ReplacingKeepsTable(sv, Deliver(sv, k, t), k);
    ReplacingKeepsSwaps(sv, k, Advance(a, t));
  }

  lemma StepKeepsHealth(a: Account, t: Trigger)
    requires Healthy(a)
    ensures Healthy(Advance(a, t))
  {
    StepKeepsAccount(a, t);
    FireFrame(a.swap, t);
  }

  lemma FireFrame(s: Swap, t: Trigger)
    requires Shape(s)
    ensures var o := Fire(s, t);
            && o.swap.offerId == s.offerId && o.swap.timers == s.timers
            && (o.effects.dropped <==> s.Live() && !o.swap.Live())
            && (!s.Live() ==> o == Outcome(MachineError, s, NOTHING))
  {
  }

  lemma TimeoutEnds(s: Swap)
    requires Shape(s) && s.Live()
    ensures Fire(s, Timeout).result == Taken && !Fire(s, Timeout).swap.Live()
  {
  }

  lemma StepKeepsInv(sv: Service, e: Event)
    requires ServiceInv(sv)
    ensures ServiceInv(Step(sv, e))
  {
    match e
    case GotCommitment(c, secret, secretHash) =>
      if c.offerId in sv.table { DeliverByIdKeepsInv(sv, c.offerId, TakerCommitmentMsg(c)); }
      else { OpeningKeepsInv(sv, c, secret, secretHash); }
    case GotReceipt(r) => DeliverByIdKeepsInv(sv, r.identifier, TransferReceipt(r));
    case GotExecution(x, now) => DeliverByIdKeepsInv(sv, x.offerId, SwapExecutionMsg(x, now));
    case GotCancellation(id) => DeliverByIdKeepsInv(sv, id, Timeout);
    case TimerFired(k) => if k < |sv.swaps| && 0 < sv.swaps[k].swap.timers { TimerKeepsInv(sv, k); }
    case RefundStarted(f) => RefundsKeepInv(sv, e);
    case RefundAnswered(f, success) => RefundsKeepInv(sv, e);
  }

  lemma RefundsKeepInv(sv: Service, e: Event)
    requires ServiceInv(sv) && (e.RefundStarted? || e.RefundAnswered?)
    ensures ServiceInv(Step(sv, e))
  {
    SameTableKeepsInv(sv, Step(sv, e));
  }

  lemma SameTableKeepsInv(sv: Service, sv': Service)
    requires ServiceInv(sv) && sv'.table == sv.table && sv'.swaps == sv.swaps
    ensures ServiceInv(sv')
  {
    forall j | 0 <= j < |sv'.swaps| ensures sv'.swaps[j].swap.Live() <==> InTable(sv', j) {
      assert sv.swaps[j].swap.Live() <==> InTable(sv, j);
    }
  }

  lemma DeliverByIdKeepsInv(sv: Service, offerId: OfferId, t: Trigger)
    requires ServiceInv(sv)
    ensures ServiceInv(DeliverById(sv, offerId, t))
  {
    if offerId in sv.table { DeliverKeepsInv(sv, sv.table[offerId], t); }
  }

  lemma OpeningKeepsInv(sv: Service, c: Commitment, secret: nat, secretHash: nat)
    requires ServiceInv(sv) && c.offerId !in sv.table
    ensures ServiceInv(Step(sv, GotCommitment(c, secret, secretHash)))
  {
    var newcomer := Advance(Opened(c.offerId, secret, secretHash), MakerCommitmentMsg(c));
    OpeningHolds(c.offerId, secret, secretHash, c);
    var sv' := Step(sv, GotCommitment(c, secret, secretHash));
    assert sv'.swaps == sv.swaps + [newcomer];
    assert newcomer.swap.Live() && newcomer.swap.timers == 1 && newcomer.swap.offerId == c.offerId;
    assert sv'.table == sv.table[c.offerId := |sv.swaps|];
  }

  lemma TimerKeepsInv(sv: Service, k: nat)
    requires ServiceInv(sv) && k < |sv.swaps| && 0 < sv.swaps[k].swap.timers
    ensures ServiceInv(Step(sv, TimerFired(k)))
  {
    var sv' := Step(sv, TimerFired(k));
    TimerEnds(sv.swaps[k], Expire(sv, k).swaps[k]);
    ReplacingKeepsTable(sv, sv', k);
    ReplacingKeepsSwaps(sv, k, sv'.swaps[k]);
    assert sv'.swaps == sv.swaps[k := sv'.swaps[k]];
  }

  lemma TimerEnds(a: Account, expired: Account)
    requires Healthy(a) && 0 < a.swap.timers
    requires expired == a.(swap := a.swap.(timers := a.swap.timers - 1))
    ensures Healthy(Advance(expired, Timeout))
    ensures Fire(expired.swap, Timeout).effects.dropped == a.swap.Live()
    ensures !Fire(expired.swap, Timeout).swap.Live() && Fire(expired.swap, Timeout).swap.offerId == a.swap.offerId
  {
    ExpireKeepsAccount(a);
    StepKeepsAccount(expired, Timeout);
    FireFrame(expired.swap, Timeout);
    if a.swap.Live() { TimeoutEnds(expired.swap); }
  }

  lemma ExpireKeepsAccount(a: Account)
    requires AccountInv(a) && 0 < a.swap.timers
    ensures AccountInv(a.(swap := a.swap.(timers := a.swap.timers - 1)))
  {
    var a' := a.(swap := a.swap.(timers := a.swap.timers - 1));
    forall r ensures SettlesAt(a', r) { assert SettlesAt(a, r); }
    forall x ensures PoolHolds(a', x) { assert PoolHolds(a, x); }
  }

  lemma {:induction false} RunKeepsInv(es: seq<Event>)
    ensures ServiceInv(Run(IDLE, es))
  {
    if es != [] {
      RunKeepsInv(es[..|es| - 1]);
      StepKeepsInv(Run(IDLE, es[..|es| - 1]), es[|es| - 1]);
    }
  }
}
