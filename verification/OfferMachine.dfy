// The life of an offer on a trading node: the nested state machine and what a node does about one offer for
// every kind of news it gets.
module OfferMachine {
  import opened SwapTypes

  datatype OfferState =
    | Created | Unproved | Proved | Published | CancellationRequested
    | Exchanging | WaitForRefund
    | Completed
    | Canceled

  datatype Status = Open | Pending | Done | Dropped

  // A child state reports its parent, a state without parent itself.
  function StatusOf(s: OfferState): Status {
    match s
    case Created | Unproved | Proved | Published | CancellationRequested => Open
    case Exchanging | WaitForRefund => Pending
    case Completed => Done
    case Canceled => Dropped
  }

  // Matched, and not yet or already completed.
  predicate InDeal(s: OfferState) { s == Exchanging || s == WaitForRefund || s == Completed }

  datatype OfferTrigger =
    | Initiating | PaymentFailed | TimedOut | ReceiveCancellationProof | ReceiveCommitmentProof
    | ReceivedOffer | FoundMatch | ReceivedInbound

  // A transition starts from one state or from every child of a parent.
  datatype Source = Leaf(state: OfferState) | AllOf(parent: Status)
  datatype OfferTransition = OfferTransition(trigger: OfferTrigger, source: Source, dest: OfferState)

  const TRANSITIONS := [
    OfferTransition(Initiating, Leaf(Created), Unproved),
    OfferTransition(PaymentFailed, Leaf(Unproved), Unproved),
    OfferTransition(TimedOut, AllOf(Open), CancellationRequested),
    OfferTransition(ReceiveCancellationProof, AllOf(Open), Canceled),
    OfferTransition(ReceiveCommitmentProof, Leaf(Unproved), Proved),
    OfferTransition(ReceivedOffer, Leaf(Proved), Published),
    OfferTransition(FoundMatch, Leaf(Published), Exchanging),
    OfferTransition(FoundMatch, Leaf(Proved), Exchanging),
    OfferTransition(ReceivedInbound, Leaf(Exchanging), WaitForRefund),
    OfferTransition(ReceivedInbound, Leaf(WaitForRefund), Completed)]

  function Find(table: seq<OfferTransition>, t: OfferTrigger, source: Source): Option<OfferState> {
    if table == [] then None
    else if table[0].trigger == t && table[0].source == source then Some(table[0].dest)
    else Find(table[1..], t, source)
  }

  // A state's own transition first, then the one inherited from its parent.
  function Lookup(s: OfferState, t: OfferTrigger): Option<OfferState> {
    var own := Find(TRANSITIONS, t, Leaf(s));
    if own.Some? then own else Find(TRANSITIONS, t, AllOf(StatusOf(s)))
  }

  function Next(s: OfferState, t: OfferTrigger): Option<OfferState> {
    match t
    case Initiating => if s == Created then Some(Unproved) else None
    case PaymentFailed => if s == Unproved then Some(Unproved) else None
    case TimedOut => if StatusOf(s) == Open then Some(CancellationRequested) else None
    case ReceiveCancellationProof => if StatusOf(s) == Open then Some(Canceled) else None
    case ReceiveCommitmentProof => if s == Unproved then Some(Proved) else None
    case ReceivedOffer => if s == Proved then Some(Published) else None
    case FoundMatch => if s == Published || s == Proved then Some(Exchanging) else None
    case ReceivedInbound =>
      if s == Exchanging then Some(WaitForRefund) else if s == WaitForRefund then Some(Completed) else None
  }

  predicate Fits(tr: OfferTransition, t: OfferTrigger, source: Source) { tr.trigger == t && tr.source == source }

  lemma FindInOrder(table: seq<OfferTransition>, n: nat, t: OfferTrigger, source: Source)
    requires n <= |table| && forall i :: 0 <= i < n ==> !Fits(table[i], t, source)
    ensures Find(table, t, source) == Find(table[n..], t, source)
    ensures n < |table| && Fits(table[n], t, source) ==> Find(table, t, source) == Some(table[n].dest)
    decreases n
  {
    if n == 0 {
      assert table[0..] == table;
    } else {
      FindInOrder(table[1..], n - 1, t, source);
      assert table[1..][n - 1..] == table[n..];
    }
  }

  // The entry of the table a trigger finds, if any.
  function Entry(t: OfferTrigger, source: Source): nat {
    match t
    case Initiating => if source == Leaf(Created) then 0 else 10
    case PaymentFailed => if source == Leaf(Unproved) then 1 else 10
    case TimedOut => if source == AllOf(Open) then 2 else 10
    case ReceiveCancellationProof => if source == AllOf(Open) then 3 else 10
    case ReceiveCommitmentProof => if source == Leaf(Unproved) then 4 else 10
    case ReceivedOffer => if source == Leaf(Proved) then 5 else 10
    case FoundMatch => if source == Leaf(Published) then 6 else if source == Leaf(Proved) then 7 else 10
    case ReceivedInbound => if source == Leaf(Exchanging) then 8 else if source == Leaf(WaitForRefund) then 9 else 10
  }

  lemma FindEntry(t: OfferTrigger, source: Source)
    ensures Find(TRANSITIONS, t, source)
            == if Entry(t, source) < 10 then Some(TRANSITIONS[Entry(t, source)].dest) else None
  {
    FindInOrder(TRANSITIONS, Entry(t, source), t, source);
  }

  // Where that entry leads.
  function Dest(t: OfferTrigger, source: Source): Option<OfferState> {
    match t
    case Initiating => if source == Leaf(Created) then Some(Unproved) else None
    case PaymentFailed => if source == Leaf(Unproved) then Some(Unproved) else None
    case TimedOut => if source == AllOf(Open) then Some(CancellationRequested) else None
    case ReceiveCancellationProof => if source == AllOf(Open) then Some(Canceled) else None
    case ReceiveCommitmentProof => if source == Leaf(Unproved) then Some(Proved) else None
    case ReceivedOffer => if source == Leaf(Proved) then Some(Published) else None
    case FoundMatch => if source == Leaf(Published) || source == Leaf(Proved) then Some(Exchanging) else None
    case ReceivedInbound =>
      if source == Leaf(Exchanging) then Some(WaitForRefund)
      else if source == Leaf(WaitForRefund) then Some(Completed)
      else None
  }

  lemma FindIsDest(t: OfferTrigger, source: Source)
    ensures Find(TRANSITIONS, t, source) == Dest(t, source)
  {
    FindEntry(t, source);
  }

  lemma LookupIsDest(s: OfferState, t: OfferTrigger)
    ensures Lookup(s, t) == if Dest(t, Leaf(s)).Some? then Dest(t, Leaf(s)) else Dest(t, AllOf(StatusOf(s)))
  {
    FindIsDest(t, Leaf(s));
    FindIsDest(t, AllOf(StatusOf(s)));
  }

  lemma DestIsNext(s: OfferState, t: OfferTrigger)
    ensures (if Dest(t, Leaf(s)).Some? then Dest(t, Leaf(s)) else Dest(t, AllOf(StatusOf(s)))) == Next(s, t)
  {
  }

  lemma LookupIsNext(s: OfferState, t: OfferTrigger)
    ensures Lookup(s, t) == Next(s, t)
  {
    LookupIsDest(s, t);
    DestIsNext(s, t);
  }

  // --- the only way to completion ---------------------------------------------------------------------------

  function After(s: OfferState, ts: seq<OfferTrigger>): OfferState {
    if ts == [] then s
    else
      var before := After(s, ts[..|ts| - 1]);
      if Next(before, ts[|ts| - 1]).Some? then Next(before, ts[|ts| - 1]).value else before
  }

  // The triggers that had a transition, without failed payments, which lead nowhere.
  function Path(ts: seq<OfferTrigger>): seq<OfferTrigger> {
    if ts == [] then []
    else
      var front, last := ts[..|ts| - 1], ts[|ts| - 1];
      Path(front) + (if Next(After(Created, front), last).Some? && last != PaymentFailed then [last] else [])
  }

  // Open, and neither timed out nor canceled.
  predicate OpenPath(path: seq<OfferTrigger>) {
    path == [] || path == [Initiating] || path == [Initiating, ReceiveCommitmentProof]
    || path == [Initiating, ReceiveCommitmentProof, ReceivedOffer]
  }

  // Timed out while open, once or more.
  predicate TimedOutPath(path: seq<OfferTrigger>) {
    && path != [] && path[|path| - 1] == TimedOut
    && (OpenPath(path[..|path| - 1]) || TimedOutPath(path[..|path| - 1]))
  }

  predicate CanceledPath(path: seq<OfferTrigger>) {
    && path != [] && path[|path| - 1] == ReceiveCancellationProof
    && (OpenPath(path[..|path| - 1]) || TimedOutPath(path[..|path| - 1]))
  }

  predicate PathFits(s: OfferState, path: seq<OfferTrigger>) {
    match s
    case Created => path == []
    case Unproved => path == [Initiating]
    case Proved => path == [Initiating, ReceiveCommitmentProof]
    case Published => path == [Initiating, ReceiveCommitmentProof, ReceivedOffer]
    case Exchanging =>
      || path == [Initiating, ReceiveCommitmentProof, FoundMatch]
      || path == [Initiating, ReceiveCommitmentProof, ReceivedOffer, FoundMatch]
    case WaitForRefund =>
      || path == [Initiating, ReceiveCommitmentProof, FoundMatch, ReceivedInbound]
      || path == [Initiating, ReceiveCommitmentProof, ReceivedOffer, FoundMatch, ReceivedInbound]
    case Completed => CompletingPath(path)
    case CancellationRequested => TimedOutPath(path)
    case Canceled => CanceledPath(path)
  }

  predicate CompletingPath(path: seq<OfferTrigger>) {
    || path == [Initiating, ReceiveCommitmentProof, FoundMatch, ReceivedInbound, ReceivedInbound]
    || path == [Initiating, ReceiveCommitmentProof, ReceivedOffer, FoundMatch, ReceivedInbound, ReceivedInbound]
  }

  // Over every run, the state an offer is in is told by the triggers that moved it, and tells which they can be.
  lemma StateTellsPath(ts: seq<OfferTrigger>, s: OfferState)
    ensures After(Created, ts) == s <==> PathFits(s, Path(ts))
  {
    PathAlwaysFits(ts);
    if PathFits(s, Path(ts)) { OneStateFits(s, After(Created, ts), Path(ts)); }
  }

  lemma {:induction false} PathAlwaysFits(ts: seq<OfferTrigger>)
    ensures PathFits(After(Created, ts), Path(ts))
  {
    if ts != [] {
      PathAlwaysFits(ts[..|ts| - 1]);
      assert Path(ts[..|ts| - 1]) + [] == Path(ts[..|ts| - 1]);
      PathStep(After(Created, ts[..|ts| - 1]), Path(ts[..|ts| - 1]), ts[|ts| - 1]);
    }
  }

  lemma OneStateFits(s: OfferState, s': OfferState, path: seq<OfferTrigger>)
    requires PathFits(s, path) && PathFits(s', path)
    ensures s == s'
  {
  }

  lemma PathStep(s: OfferState, path: seq<OfferTrigger>, t: OfferTrigger)
    requires PathFits(s, path)
    ensures Next(s, t).Some? && t != PaymentFailed ==> PathFits(Next(s, t).value, path + [t])
    ensures Next(s, t).Some? && t == PaymentFailed ==> Next(s, t).value == s
  {
    assert (path + [t])[..|path|] == path;
  }

  // An offer completes exactly when it was initiated, proved, matched (published before or not) and paid into
  // twice, in this order, and nothing else ever moved it.
  lemma CompletedExactlyBy(ts: seq<OfferTrigger>)
    ensures After(Created, ts) == Completed <==> CompletingPath(Path(ts))
  {
    StateTellsPath(ts, Completed);
  }
}
