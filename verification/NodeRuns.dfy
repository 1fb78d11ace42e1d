// What a node's book, orders and offers come to over whole runs, told by the news handled.
module NodeRuns {
  import opened SwapTypes
  import opened Offers
  import opened OfferBook
  import opened OfferMachine
  import opened OfferDeals
  import opened Matching
  import opened Node
  import opened NodeLaws

  // --- the traded amount ----------------------------------------------------------------------------------------

  // Base amounts of those of these offers whose inbound payments, so many before the run and counted in it, are two.
  function PaidTwice(offers: map<OfferId, Held>, cs: seq<Change>, ids: seq<OfferId>): int {
    if ids == [] then 0
    else
      var id := ids[|ids| - 1];
      PaidTwice(offers, cs, ids[..|ids| - 1])
      + (if id in offers && Transfers(cs, id) == 2 then offers[id].terms.base else 0)
  }

  lemma {:induction false} TradedIsPaidTwice(n: Node, cs: seq<Change>, ids: seq<OfferId>)
    requires Runs(EMPTY, cs, n)
    ensures Traded(n.offers, ids) == PaidTwice(n.offers, cs, ids)
  {
    if ids != [] {
      TradedIsPaidTwice(n, cs, ids[..|ids| - 1]);
      EmptyHolds();
      PaymentsCount(EMPTY, cs, n, ids[|ids| - 1]);
    }
  }

  // Over every run of a node from its start, an order has traded exactly the base amounts of those of its offers for
  // which two inbound payments were handled.
  lemma TradedExactly(cs: seq<Change>, n: Node, o: OrderId)
    requires Runs(EMPTY, cs, n) && o in n.orders
    ensures Traded(n.offers, n.orders[o].offers) == PaidTwice(n.offers, cs, n.orders[o].offers)
    ensures (forall id :: id in n.orders[o].offers ==> Transfers(cs, id) < 2) ==>
              Traded(n.offers, n.orders[o].offers) == 0
  {
    TradedIsPaidTwice(n, cs, n.orders[o].offers);
    if forall id :: id in n.orders[o].offers ==> Transfers(cs, id) < 2 {
      NothingPaidTwice(n.offers, cs, n.orders[o].offers);
    }
  }

  lemma {:induction false} NothingPaidTwice(offers: map<OfferId, Held>, cs: seq<Change>, ids: seq<OfferId>)
    requires forall id :: id in ids ==> Transfers(cs, id) < 2
    ensures PaidTwice(offers, cs, ids) == 0
  {
    if ids != [] {
      assert ids[|ids| - 1] in ids && forall id :: id in ids[..|ids| - 1] ==> id in ids;
      NothingPaidTwice(offers, cs, ids[..|ids| - 1]);
    }
  }

  // From any state on, what an order trades in a run are the offers that reach their second payment in it.
  function Reaching(n: Node, cs: seq<Change>, ids: seq<OfferId>): int {
    if ids == [] then 0
    else
      var id := ids[|ids| - 1];
      Reaching(n, cs, ids[..|ids| - 1])
      + (if id in n.offers && LevelOf(n, id) < 2 == LevelOf(n, id) + Transfers(cs, id) then n.offers[id].terms.base
         else 0)
  }

  lemma {:induction false} TradedGrowsBy(n: Node, cs: seq<Change>, n': Node, ids: seq<OfferId>)
    requires NodeInv(n) && Runs(n, cs, n') && forall id :: id in ids ==> id in n.offers
    ensures Traded(n'.offers, ids) == Traded(n.offers, ids) + Reaching(n, cs, ids)
  {
    if ids != [] {
      var id := ids[|ids| - 1];
      assert id in ids && forall i :: i in ids[..|ids| - 1] ==> i in ids;
      TradedGrowsBy(n, cs, n', ids[..|ids| - 1]);
      RunKeeps(n, cs, n');
      OneGrowsBy(n, cs, n', id);
    }
  }

  lemma OneGrowsBy(n: Node, cs: seq<Change>, n': Node, id: OfferId)
    requires NodeInv(n) && Runs(n, cs, n') && Progress(n, n') && id in n.offers
    ensures id in n'.offers && n'.offers[id].terms == n.offers[id].terms
    ensures n.offers[id].state == Completed <==> LevelOf(n, id) == 2
    ensures n'.offers[id].state == Completed <==> LevelOf(n, id) + Transfers(cs, id) == 2
    ensures LevelOf(n, id) + Transfers(cs, id) <= 2
  {
    PaymentsCount(n, cs, n', id);
  }

  // --- the node along a run -----------------------------------------------------------------------------------------

  // The nodes of a run: one before, and one after each change.
  ghost predicate Path(nodes: seq<Node>, cs: seq<Change>) {
    && |nodes| == |cs| + 1 && NodeInv(nodes[0])
    && forall i :: 0 <= i < |cs| ==> Leads(nodes[i], cs[i], nodes[i + 1])
  }

  ghost predicate Leads(n: Node, c: Change, n': Node) { FreshNews(n, c) && Handle(n, c) == Some(n') }

  // Every run has its path.
  lemma {:induction false} RunHasPath(n: Node, cs: seq<Change>, n': Node) returns (nodes: seq<Node>)
    requires NodeInv(n) && Runs(n, cs, n')
    ensures Path(nodes, cs) && nodes[0] == n && nodes[|cs|] == n'
    decreases |cs|
  {
    if cs == [] {
      nodes := [n];
    } else {
      HandleKeeps(n, cs[0]);
      var rest := RunHasPath(Handle(n, cs[0]).value, cs[1..], n');
      nodes := [n] + rest;
      forall i | 0 <= i < |cs| ensures Leads(nodes[i], cs[i], nodes[i + 1]) {
        if i > 0 { assert Leads(rest[i - 1], cs[1..][i - 1], rest[i]); }
      }
    }
  }

  lemma {:induction false} PathKeeps(nodes: seq<Node>, cs: seq<Change>, i: nat)
    requires Path(nodes, cs) && i <= |cs|
    ensures NodeInv(nodes[i])
    decreases i
  {
    if i > 0 {
      PathKeeps(nodes, cs, i - 1);
      assert Leads(nodes[i - 1], cs[i - 1], nodes[i - 1 + 1]);
      HandleKeeps(nodes[i - 1], cs[i - 1]);
    }
  }

  // --- the book -------------------------------------------------------------------------------------------------

  // Another node's offer is published.
  predicate Publishes(n: Node, c: Change, e: Entry) { c == OfferPublished(e) && e.offer.id !in n.offers }

  // Its timeout is handled, its taking is broadcast, or an order takes it: it becomes an offer of the node's own.
  predicate Withdraws(n: Node, c: Change, id: OfferId) {
    c == OfferTimeout(id) || c == Change.OfferTaken(id)
    || (c.OrderPlaced? && Handle(n, c).Some? && id in Handle(n, c).value.offers)
  }

  lemma StepLists(n: Node, c: Change, e: Entry)
    requires NodeInv(n) && FreshNews(n, c) && Handle(n, c).Some?
    ensures InBook(Handle(n, c).value.book, e) <==>
              Publishes(n, c, e) || (InBook(n.book, e) && !Withdraws(n, c, e.offer.id))
  {
    match c
    case OrderPlaced(id, kind, amount, price, lifetime, makeId, timeoutDate) =>
      OrderLists(n, Order(id, kind, amount, price, lifetime, []), makeId, timeoutDate, e);
    case OfferTimeout(id) => TimeoutLists(n, id, e);
    case OfferPublished(f) => PublishedLists(n, f, e);
    case OfferTaken(id) =>
      RemoveHolds(n.book, id);
      ContainsMeans(n.book);
    case _ =>
  }

  lemma TimeoutLists(n: Node, id: OfferId, e: Entry)
    requires NodeInv(n) && HandleOfferTimeout(n, id).Some?
    ensures InBook(HandleOfferTimeout(n, id).value.book, e) <==> InBook(n.book, e) && e.offer.id != id
  {
    ContainsMeans(n.book);
    RemoveHolds(n.book, id);
  }

  lemma PublishedLists(n: Node, f: Entry, e: Entry)
    requires NodeInv(n) && FreshNews(n, OfferPublished(f)) && HandleOfferPublished(n, f).Some?
    ensures InBook(HandleOfferPublished(n, f).value.book, e) <==>
              InBook(n.book, e) || (e == f && f.offer.id !in n.offers)
  {
    if f.offer.id !in n.offers { InsertHoldsInBook(n.book, f); }
  }

  lemma OrderLists(n: Node, o: Order, makeId: OfferId, timeoutDate: int, e: Entry)
    requires NodeInv(n) && o.offers == [] && FreshId(n, makeId) && ProcessOrder(n, o, makeId, timeoutDate).Some?
    ensures var n' := ProcessOrder(n, o, makeId, timeoutDate).value;
            InBook(n'.book, e) <==> InBook(n.book, e) && e.offer.id !in n'.offers
  {
    var (taken, left) := Matches(n.book, o.price, o.kind, o.amount);
    OrderConserved(n, o, makeId, timeoutDate, taken, left);
    OrderJoins(n, o, makeId, timeoutDate, taken, left);
    JoinedLeaveBook(n, ProcessOrder(n, o, makeId, timeoutDate).value, taken, if left > 0 then [makeId] else [], e);
  }

  // The takes leave the book and become the node's own; what it makes was not in the book.
  lemma JoinedLeaveBook(n: Node, n': Node, taken: seq<Entry>, makes: seq<OfferId>, e: Entry)
    requires Registry(n) && Lost(n.book, n'.book, taken) && Joined(n, n', Ids(taken) + makes)
    requires forall id :: id in makes ==> !n.book.Contains(id)
    ensures InBook(n'.book, e) <==> InBook(n.book, e) && e.offer.id !in n'.offers
  {
    ContainsMeans(n.book);
    ContainsMeans(n'.book);
    assert e.offer.id in Ids(taken) + makes <==> e.offer.id in Ids(taken) || e.offer.id in makes;
  }

  // In the book to begin with, or published by the change before i.
  predicate ListedAt(nodes: seq<Node>, cs: seq<Change>, e: Entry, i: nat)
    requires |nodes| == |cs| + 1 && i <= |cs|
  {
    if i == 0 then InBook(nodes[0].book, e) else Publishes(nodes[i - 1], cs[i - 1], e)
  }

  predicate WithdrawnAt(nodes: seq<Node>, cs: seq<Change>, id: OfferId, j: nat)
    requires |nodes| == |cs| + 1 && j < |cs|
  {
    Withdraws(nodes[j], cs[j], id)
  }

  // Listed at i, and not withdrawn from there up to m.
  predicate ListedSince(nodes: seq<Node>, cs: seq<Change>, e: Entry, i: nat, m: nat)
    requires |nodes| == |cs| + 1 && m <= |cs|
  {
    i <= m && ListedAt(nodes, cs, e, i) && forall j :: i <= j < m ==> !WithdrawnAt(nodes, cs, e.offer.id, j)
  }

  predicate EverSince(nodes: seq<Node>, cs: seq<Change>, e: Entry, m: nat)
    requires |nodes| == |cs| + 1 && m <= |cs|
  {
    exists i :: 0 <= i <= m && ListedSince(nodes, cs, e, i, m)
  }

  // Along every run, an entry is in the book exactly when it was there or was published, and since then its timeout was
  // not handled, its taking not broadcast, and no order took it.
  lemma {:induction false} BookTellsNews(nodes: seq<Node>, cs: seq<Change>, e: Entry, m: nat)
    requires Path(nodes, cs) && m <= |cs|
    ensures InBook(nodes[m].book, e) <==> EverSince(nodes, cs, e, m)
    decreases m
  {
    if m == 0 {
      assert InBook(nodes[0].book, e) ==> ListedSince(nodes, cs, e, 0, 0);
    } else {
      BookTellsNews(nodes, cs, e, m - 1);
      BookNext(nodes, cs, e, m - 1, m);
      ListedNext(nodes, cs, e, m - 1, m);
    }
  }

  lemma BookNext(nodes: seq<Node>, cs: seq<Change>, e: Entry, m: nat, next: nat)
    requires Path(nodes, cs) && m < |cs| && next == m + 1
    ensures InBook(nodes[next].book, e) <==>
              ListedAt(nodes, cs, e, next) || (InBook(nodes[m].book, e) && !WithdrawnAt(nodes, cs, e.offer.id, m))
  {
    PathKeeps(nodes, cs, m);
    assert Leads(nodes[m], cs[m], nodes[m + 1]);
    StepLists(nodes[m], cs[m], e);
  }

  lemma ListedNext(nodes: seq<Node>, cs: seq<Change>, e: Entry, m: nat, next: nat)
    requires |nodes| == |cs| + 1 && m < |cs| && next == m + 1
    ensures EverSince(nodes, cs, e, next) <==>
              ListedAt(nodes, cs, e, next) || (EverSince(nodes, cs, e, m) && !WithdrawnAt(nodes, cs, e.offer.id, m))
  {
    if ListedAt(nodes, cs, e, next) { assert ListedSince(nodes, cs, e, next, next); }
    forall i | 0 <= i <= m
      ensures ListedSince(nodes, cs, e, i, next) <==>
                ListedSince(nodes, cs, e, i, m) && !WithdrawnAt(nodes, cs, e.offer.id, m)
    {
      OneMoreSince(nodes, cs, e, i, m, next);
    }
  }

  lemma OneMoreSince(nodes: seq<Node>, cs: seq<Change>, e: Entry, i: nat, m: nat, next: nat)
    requires |nodes| == |cs| + 1 && i <= m < |cs| && next == m + 1
    ensures ListedSince(nodes, cs, e, i, next) <==>
              ListedSince(nodes, cs, e, i, m) && !WithdrawnAt(nodes, cs, e.offer.id, m)
  {
  }

  // So an offer whose timeout was handled and that was not published again is not in the book, and no order takes it.
  lemma TimedOutIsNotTaken(nodes: seq<Node>, cs: seq<Change>, id: OfferId, i: nat, c: Change)
    requires Path(nodes, cs) && i < |cs| && cs[i] == OfferTimeout(id)
    requires forall j :: i < j < |cs| && cs[j].OfferPublished? ==> cs[j].entry.offer.id != id
    requires c.OrderPlaced? && FreshNews(nodes[|cs|], c) && Handle(nodes[|cs|], c).Some?
    ensures !nodes[|cs|].book.Contains(id)
    ensures id in Handle(nodes[|cs|], c).value.offers ==> id in nodes[|cs|].offers || id == c.makeId
  {
    var n := nodes[|cs|];
    forall e: Entry | e.offer.id == id ensures !InBook(n.book, e) { TimedOutIsGone(nodes, cs, e, i); }
    ContainsMeans(n.book);
    PathKeeps(nodes, cs, |cs|);
    OrderTakesListed(n, c, id);
  }

  lemma TimedOutIsGone(nodes: seq<Node>, cs: seq<Change>, e: Entry, i: nat)
    requires Path(nodes, cs) && i < |cs| && cs[i] == OfferTimeout(e.offer.id)
    requires forall j :: i < j < |cs| && cs[j].OfferPublished? ==> cs[j].entry.offer.id != e.offer.id
    ensures !InBook(nodes[|cs|].book, e)
  {
    BookTellsNews(nodes, cs, e, |cs|);
    assert WithdrawnAt(nodes, cs, e.offer.id, i);
  }

  lemma OrderTakesListed(n: Node, c: Change, id: OfferId)
    requires NodeInv(n) && c.OrderPlaced? && FreshNews(n, c) && Handle(n, c).Some? && !n.book.Contains(id)
    ensures id in Handle(n, c).value.offers ==> id in n.offers || id == c.makeId
  {
    var o := Order(c.id, c.kind, c.amount, c.price, c.lifetime, []);
    var (taken, left) := Matches(n.book, o.price, o.kind, o.amount);
    OrderJoins(n, o, c.makeId, c.timeoutDate, taken, left);
    MatchesHold(n.book, o.price, o.kind, o.amount);
    ContainsMeans(n.book);
    forall k | 0 <= k < |taken| ensures Ids(taken)[k] != id { assert taken[k] in taken; }
  }

  // --- an offer's proof -------------------------------------------------------------------------------------------

  predicate WasUnproved(s: OfferState) { s == Created || s == Unproved }

  lemma ResponseProof(d: Deal, c: Change)
    requires OfOneOffer(c) && Respond(d, c).Reacts?
    ensures var d' := Respond(d, c).deal;
            if WasUnproved(d.state) then PastProof(d'.state) ==> c.CommitmentProofCame? && d'.proof == Some(c.proof)
            else !WasUnproved(d'.state) && d'.proof == d.proof
  {
  }

  // Once past its first states an offer keeps its proof.
  lemma {:induction false} ProofStays(n: Node, cs: seq<Change>, n': Node, id: OfferId)
    requires NodeInv(n) && Runs(n, cs, n') && id in n.offers && !WasUnproved(n.offers[id].state)
    ensures id in n'.offers && n'.offers[id].proof == n.offers[id].proof
    decreases |cs|
  {
    if cs != [] {
      HandleKeeps(n, cs[0]);
      OfferMoves(n, cs[0], id);
      if Concerns(cs[0], id) { ResponseProof(DealOf(n, id), cs[0]); }
      ProofStays(Handle(n, cs[0]).value, cs[1..], n', id);
    }
  }

  predicate ProofCameAt(cs: seq<Change>, i: nat, proof: Proof) { i < |cs| && cs[i] == CommitmentProofCame(proof) }

  // Over every run, an offer that passes its proof holds a proof of its own id that was handled in the run.
  lemma {:induction false} HoldsItsProof(n: Node, cs: seq<Change>, n': Node, id: OfferId) returns (i: nat)
    requires NodeInv(n) && Runs(n, cs, n') && IsPastProof(n', id)
    requires id in n.offers ==> WasUnproved(n.offers[id].state)
    ensures n'.offers[id].proof.Some? && n'.offers[id].proof.value.offerId == id
    ensures ProofCameAt(cs, i, n'.offers[id].proof.value)
    decreases |cs|
  {
    if cs == [] {
      assert false;
    } else {
      var h := Handle(n, cs[0]).value;
      HandleKeeps(n, cs[0]);
      OfferMoves(n, cs[0], id);
      if id in n.offers && Concerns(cs[0], id) { ResponseProof(DealOf(n, id), cs[0]); }
      if id in h.offers && !WasUnproved(h.offers[id].state) {
        ProofStays(h, cs[1..], n', id);
        StaysPast(h, cs[1..], n', id);
        i := 0;
      } else {
        var j := HoldsItsProof(h, cs[1..], n', id);
        i := j + 1;
      }
    }
  }

  // An offer that timed out or was canceled before its proof never passes it.
  lemma {:induction false} StaysPast(n: Node, cs: seq<Change>, n': Node, id: OfferId)
    requires NodeInv(n) && Runs(n, cs, n') && id in n.offers && !WasUnproved(n.offers[id].state) && IsPastProof(n', id)
    ensures IsPastProof(n, id)
    decreases |cs|
  {
    if cs != [] {
      HandleKeeps(n, cs[0]);
      OfferMoves(n, cs[0], id);
      if Concerns(cs[0], id) {
        ResponseProof(DealOf(n, id), cs[0]);
        ResponsePays(DealOf(n, id), cs[0]);
        NoProofLate(DealOf(n, id), cs[0]);
      }
      StaysPast(Handle(n, cs[0]).value, cs[1..], n', id);
    }
  }

  lemma NoProofLate(d: Deal, c: Change)
    requires OfOneOffer(c) && Respond(d, c).Reacts? && !WasUnproved(d.state)
    ensures PastProof(Respond(d, c).deal.state) ==> PastProof(d.state)
  {
  }

  // --- the offer an order makes -------------------------------------------------------------------------------------

  // Of the remainder, at the order's price but for less than one unit of quote tokens.
  lemma MadeAtPrice(n: Node, order: OrderId, left: Positive, makeId: OfferId, timeoutDate: int)
    requires order in n.orders && MakeOffer(n, order, left, makeId, timeoutDate).Some?
    ensures var n' := MakeOffer(n, order, left, makeId, timeoutDate).value;
            && makeId in n'.offers && n'.offers[makeId].role == Maker
            && var terms := n'.offers[makeId].terms;
            && terms.id == makeId && terms.kind == n.orders[order].kind
            && terms.base == left && terms.timeout == timeoutDate
            && terms.quote as real <= left as real * n.orders[order].price < terms.quote as real + 1.0
  {
  }

  // --- what an offer's news does ------------------------------------------------------------------------------------

  // News of an offer of the node's own leaves it in this state, with this proof and match, these events dispatched, and
  // nothing else changed.
  predicate Does(n: Node, c: Change, id: OfferId, state: OfferState, proof: Option<Proof>, m: Option<Match>,
                 ds: seq<(OfferId, Dispatch)>)
    requires id in n.offers
  {
    var offers := n.offers[id := n.offers[id].(state := state, proof := proof)];
    var matches := if m.Some? then n.matches[id := m.value] else n.matches;
    && Handle(n, c).Some?
    && var n' := Handle(n, c).value;
    && n'.offers == offers && n'.matches == matches && n'.book == n.book && n'.orders == n.orders
    && n'.timeouts == (if state == Completed || c == OfferTimeout(id) then n.timeouts - {id} else n.timeouts)
    && n'.dispatched == n.dispatched + ds
  }

  // The maker's side: proved, the offer is sent to all; seen published, the node listens for a taker; a taker's call
  // starts the exchange with him.
  lemma MakerNews(n: Node, id: OfferId, proof: Proof, e: Entry, taker: Address, takerProof: Proof)
    requires id in n.offers && proof.offerId == id && e.offer.id == id
    ensures n.offers[id].state == Unproved && id !in n.matches ==>
              Does(n, CommitmentProofCame(proof), id, Proved, Some(proof), None, [(id, SendProvenOffer(None))])
    ensures n.offers[id].state == Proved ==>
              Does(n, OfferPublished(e), id, Published, n.offers[id].proof, None, [(id, CommitmentProved)])
    ensures n.offers[id].state == Proved || n.offers[id].state == Published ==>
              var m := Match(Maker, taker, takerProof);
              Does(n, TakerCalled(id, taker, takerProof), id, Exchanging, n.offers[id].proof, Some(m),
                   [(id, SwapInit(m)), (id, ExpectInbound(taker))])
  {
    if n.offers[id].state == Proved || n.offers[id].state == Published { CallNews(n, id, taker, takerProof); }
  }

  lemma CallNews(n: Node, id: OfferId, taker: Address, takerProof: Proof)
    requires id in n.offers && (n.offers[id].state == Proved || n.offers[id].state == Published)
    ensures var m := Match(Maker, taker, takerProof);
            Does(n, TakerCalled(id, taker, takerProof), id, Exchanging, n.offers[id].proof, Some(m),
                 [(id, SwapInit(m)), (id, ExpectInbound(taker))])
  {
  }

  // The taker's side: proved, the exchange with the maker starts at once, and the offer is sent to him.
  lemma TakerNews(n: Node, id: OfferId, proof: Proof)
    requires id in n.offers && proof.offerId == id && id in n.matches && n.offers[id].state == Unproved
    ensures var m := n.matches[id];
            Does(n, CommitmentProofCame(proof), id, Exchanging, Some(proof), Some(m),
                 [(id, SwapInit(m)), (id, ExpectInbound(m.target)), (id, SendProvenOffer(Some(m.target)))])
  {
  }

  // Either side: the other's payment is reported to the service, and the service's refund completes the offer.
  lemma PaymentNews(n: Node, id: OfferId)
    requires id in n.offers && id in n.matches
    ensures n.offers[id].state == Exchanging ==>
              Does(n, TransferReceived(id), id, WaitForRefund, n.offers[id].proof, None, [(id, InboundReceived)])
    ensures n.offers[id].state == WaitForRefund ==>
              Does(n, TransferReceived(id), id, Completed, n.offers[id].proof, None, [])
  {
    assert n.matches[id := n.matches[id]] == n.matches;
  }

  // An open offer that times out asks the service to cancel it, and its proof of that cancels it.
  lemma CancelNews(n: Node, id: OfferId)
    requires id in n.offers && StatusOf(n.offers[id].state) == Open
    ensures Does(n, OfferTimeout(id), id, CancellationRequested, n.offers[id].proof, None, [(id, CancellationRequest)])
    ensures Does(n, CancellationProofCame(id), id, Canceled, n.offers[id].proof, None, [])
  {
    if id in n.matches { assert n.matches[id := n.matches[id]] == n.matches; }
  }

  // News raises exactly when there is no offer, match or state of it to go on from, or a greenlet has ended already.
  lemma NewsRaises(n: Node, c: Change)
    requires !c.OrderPlaced?
    ensures Handle(n, c).None? <==> match c
              case OfferTimeout(id) => id in n.offers && StatusOf(n.offers[id].state) != Open
              case CommitmentProofCame(p) => p.offerId !in n.offers || n.offers[p.offerId].state != Unproved
              case CancellationProofCame(id) => id !in n.offers || StatusOf(n.offers[id].state) != Open
              case OfferPublished(e) =>
                if e.offer.id in n.offers then n.offers[e.offer.id].state != Proved
                else e.offer.id in n.timeouts && !n.timeouts[e.offer.id]
              case TakerCalled(id, _, _) =>
                id !in n.offers || (n.offers[id].state != Proved && n.offers[id].state != Published)
              case TransferReceived(id) =>
                id !in n.offers || id !in n.matches
                || (n.offers[id].state != Exchanging && n.offers[id].state != WaitForRefund)
              case _ => false
  {
  }

  // --- timeouts ------------------------------------------------------------------------------------------------------

  // A greenlet is started for an offer published by another node, and for each offer of an order.
  predicate Times(n: Node, c: Change, id: OfferId) {
    && Handle(n, c).Some? && id !in n.offers
    && ((c.OfferPublished? && c.entry.offer.id == id) || (c.OrderPlaced? && id in Handle(n, c).value.offers))
  }

  // It is forgotten when the timeout of its offer is handled, and when the offer completes.
  predicate Forgets(n: Node, c: Change, id: OfferId) {
    || c == OfferTimeout(id)
    || (c == TransferReceived(id) && id in n.offers && n.offers[id].state == WaitForRefund)
  }

  // Which greenlets are kept, and which of them have ended.
  lemma StepTimes(n: Node, c: Change, id: OfferId)
    requires NodeInv(n) && FreshNews(n, c) && Handle(n, c).Some?
    ensures var n' := Handle(n, c).value;
            && (id in n'.timeouts <==> Times(n, c, id) || (id in n.timeouts && !Forgets(n, c, id)))
            && (!CanRenew(n', id) <==>
                  (c == TimeoutFired(id) && id in n.timeouts) || (!CanRenew(n, id) && !Forgets(n, c, id)))
  {
    if c.OrderPlaced? {
      OrderTimes(n, Order(c.id, c.kind, c.amount, c.price, c.lifetime, []), c.makeId, c.timeoutDate, id);
    } else if c.OfferTimeout? {
      TimeoutTimes(n, c, id);
    } else if c.TransferReceived? {
      TransferTimes(n, c, id);
    } else {
      OtherNewsTimes(n, c, id);
    }
  }

  lemma TimeoutTimes(n: Node, c: Change, id: OfferId)
    requires Handle(n, c).Some? && c.OfferTimeout?
    ensures var n' := Handle(n, c).value;
            && (id in n'.timeouts <==> Times(n, c, id) || (id in n.timeouts && !Forgets(n, c, id)))
            && (!CanRenew(n', id) <==>
                  (c == TimeoutFired(id) && id in n.timeouts) || (!CanRenew(n, id) && !Forgets(n, c, id)))
  {
  }

  lemma TransferTimes(n: Node, c: Change, id: OfferId)
    requires Handle(n, c).Some? && c.TransferReceived?
    ensures var n' := Handle(n, c).value;
            && (id in n'.timeouts <==> Times(n, c, id) || (id in n.timeouts && !Forgets(n, c, id)))
            && (!CanRenew(n', id) <==>
                  (c == TimeoutFired(id) && id in n.timeouts) || (!CanRenew(n, id) && !Forgets(n, c, id)))
  {
  }

  lemma OtherNewsTimes(n: Node, c: Change, id: OfferId)
    requires Handle(n, c).Some? && !c.OrderPlaced? && !c.OfferTimeout? && !c.TransferReceived?
    ensures var n' := Handle(n, c).value;
            && (id in n'.timeouts <==> Times(n, c, id) || (id in n.timeouts && !Forgets(n, c, id)))
            && (!CanRenew(n', id) <==>
                  (c == TimeoutFired(id) && id in n.timeouts) || (!CanRenew(n, id) && !Forgets(n, c, id)))
  {
  }

  lemma {:induction false} TakesTime(n: Node, order: OrderId, taken: seq<Entry>)
    requires order in n.orders && TakeAll(n, order, taken).Some? && DistinctIds(taken)
    ensures var n' := TakeAll(n, order, taken).value;
            && (forall id :: id in n'.timeouts <==> id in n.timeouts || id in Ids(taken))
            && (forall id :: CanRenew(n', id) == CanRenew(n, id))
    decreases |taken|
  {
    if taken != [] {
      IdsOfLast(taken);
      TakesTime(n, order, taken[..|taken| - 1]);
    }
  }

  lemma MakeTimes(n: Node, order: OrderId, left: Positive, makeId: OfferId, timeoutDate: int, id: OfferId)
    requires order in n.orders && MakeOffer(n, order, left, makeId, timeoutDate).Some?
    ensures var n' := MakeOffer(n, order, left, makeId, timeoutDate).value;
            (id in n'.timeouts <==> id in n.timeouts || id == makeId) && CanRenew(n', id) == CanRenew(n, id)
  {
  }

  lemma OrderTimes(n: Node, o: Order, makeId: OfferId, timeoutDate: int, id: OfferId)
    requires NodeInv(n) && o.offers == [] && FreshId(n, makeId) && ProcessOrder(n, o, makeId, timeoutDate).Some?
    ensures var n' := ProcessOrder(n, o, makeId, timeoutDate).value;
            && (id in n'.timeouts <==> id in n.timeouts || (id !in n.offers && id in n'.offers))
            && CanRenew(n', id) == CanRenew(n, id)
  {
    var (taken, left) := Matches(n.book, o.price, o.kind, o.amount);
    var n2 := OrderStages(n, o, makeId, timeoutDate, taken, left);
    OrderJoins(n, o, makeId, timeoutDate, taken, left);
    TakesTime(n.(orders := n.orders[o.id := o]), o.id, taken);
    if left > 0 { MakeTimes(n2, o.id, left, makeId, timeoutDate, id); }
    JoinedIds(n, ProcessOrder(n, o, makeId, timeoutDate).value, Ids(taken), if left > 0 then [makeId] else [], id);
  }

  lemma JoinedIds(n: Node, n': Node, ids: seq<OfferId>, makes: seq<OfferId>, id: OfferId)
    requires Joined(n, n', ids + makes)
    ensures id !in n.offers && id in n'.offers <==> id in ids || id in makes
  {
    assert id in ids + makes <==> id in ids || id in makes;
  }

  // Every entry of the book has its greenlet.
  ghost predicate BookTimed(n: Node) { forall e :: InBook(n.book, e) ==> e.offer.id in n.timeouts }

  lemma BookStaysTimed(n: Node, c: Change)
    requires NodeInv(n) && BookTimed(n) && FreshNews(n, c) && Handle(n, c).Some?
    ensures BookTimed(Handle(n, c).value)
  {
    forall e | InBook(Handle(n, c).value.book, e) ensures e.offer.id in Handle(n, c).value.timeouts {
      StepLists(n, c, e);
      StepTimes(n, c, e.offer.id);
      ContainsMeans(n.book);
    }
  }

  // --- the offers an order takes ------------------------------------------------------------------------------------

  function Commits(ids: seq<OfferId>): seq<(OfferId, Dispatch)> {
    seq(|ids|, i requires 0 <= i < |ids| => (ids[i], Commit))
  }

  lemma CommitsOneMore(ids: seq<OfferId>, id: OfferId)
    ensures Commits(ids + [id]) == Commits(ids) + [(id, Commit)]
  {
  }

  lemma {:induction false} TakesCommit(n: Node, order: OrderId, taken: seq<Entry>)
    requires order in n.orders && TakeAll(n, order, taken).Some? && DistinctIds(taken)
    ensures TakeAll(n, order, taken).value.dispatched == n.dispatched + Commits(Ids(taken))
    decreases |taken|
  {
    if taken == [] {
      assert Commits(Ids(taken)) == [];
    } else {
      var front, last := taken[..|taken| - 1], taken[|taken| - 1];
      IdsOfLast(taken);
      TakesCommit(n, order, front);
      CommitsOneMore(Ids(front), last.offer.id);
    }
  }

  lemma MakeCommits(n: Node, order: OrderId, left: Positive, makeId: OfferId, timeoutDate: int)
    requires order in n.orders && MakeOffer(n, order, left, makeId, timeoutDate).Some?
    ensures var n' := MakeOffer(n, order, left, makeId, timeoutDate).value;
            && n'.dispatched == n.dispatched + [(makeId, Commit)] && order in n'.orders
            && n'.orders[order].offers == n.orders[order].offers + [makeId]
            && n'.matches == n.matches
            && forall id :: id in n.offers && id != makeId ==> id in n'.offers && n'.offers[id] == n.offers[id]
  {
  }

  // An order commits to each of its offers, in their order.
  lemma OrderCommits(n: Node, o: Order, makeId: OfferId, timeoutDate: int)
    requires NodeInv(n) && o.offers == [] && FreshId(n, makeId) && ProcessOrder(n, o, makeId, timeoutDate).Some?
    ensures var n' := ProcessOrder(n, o, makeId, timeoutDate).value;
            o.id in n'.orders && n'.dispatched == n.dispatched + Commits(n'.orders[o.id].offers)
  {
    var (taken, left) := Matches(n.book, o.price, o.kind, o.amount);
    var n2 := OrderStages(n, o, makeId, timeoutDate, taken, left);
    TakesCommit(n.(orders := n.orders[o.id := o]), o.id, taken);
    EmptyEnds(Ids(taken));
    if left > 0 {
      MakeCommits(n2, o.id, left, makeId, timeoutDate);
      CommitsOneMore(Ids(taken), makeId);
      Associated(n.dispatched, Commits(Ids(taken)), [(makeId, Commit)]);
    }
  }

  lemma Associated<T>(a: seq<T>, b: seq<T>, c: seq<T>)
    ensures a + b + c == a + (b + c)
  {
  }

  // What joined the node out of the book was taken.
  lemma JoinedWasTaken(n: Node, n': Node, taken: seq<Entry>, makes: seq<OfferId>, e: Entry)
    requires Registry(n) && Joined(n, n', Ids(taken) + makes) && InBook(n.book, e) && e.offer.id in n'.offers
    requires forall id :: id in makes ==> !n.book.Contains(id)
    requires forall f :: f in taken ==> InBook(n.book, f)
    ensures e in taken
  {
    ContainsMeans(n.book);
    JoinedIds(n, n', Ids(taken), makes, e.offer.id);
    var k :| 0 <= k < |taken| && Ids(taken)[k] == e.offer.id;
    assert taken[k] in taken && taken[k] == e;
  }

  // What an order took is the book's entry of that id, now an offer of the taker's, matched with its initiator and the
  // proof it came with.
  lemma OrderTakesEntries(n: Node, o: Order, makeId: OfferId, timeoutDate: int, e: Entry)
    requires NodeInv(n) && o.offers == [] && FreshId(n, makeId) && ProcessOrder(n, o, makeId, timeoutDate).Some?
    requires InBook(n.book, e) && e.offer.id in ProcessOrder(n, o, makeId, timeoutDate).value.offers
    ensures var n' := ProcessOrder(n, o, makeId, timeoutDate).value;
            && n'.offers[e.offer.id] == Held(e.offer, Taker, Unproved, None)
            && e.offer.id in n'.matches && n'.matches[e.offer.id] == Match(Taker, e.initiator, e.proof)
  {
    var (taken, left) := Matches(n.book, o.price, o.kind, o.amount);
    var n2 := OrderStages(n, o, makeId, timeoutDate, taken, left);
    OrderJoins(n, o, makeId, timeoutDate, taken, left);
    JoinedWasTaken(n, ProcessOrder(n, o, makeId, timeoutDate).value, taken, if left > 0 then [makeId] else [], e);
    if left > 0 { MakeCommits(n2, o.id, left, makeId, timeoutDate); }
  }
}
