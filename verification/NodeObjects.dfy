// The node's objects: offers driven by the nested state machine, matches and limit orders that share them, and
// the data manager whose handlers change them. Every handler is tied to the handler on values.
module NodeObjects {
  import opened SwapTypes
  import opened Offers
  import B = OfferBook
  import opened OfferMachine
  import D = OfferDeals
  import opened Matching
  import N = Node
  import NodeLaws

  class Offer {
    const terms: BasicOffer
    const role: D.Role
    var state: OfferState
    var status: Status
    var proof: Option<Proof>

    constructor (terms: BasicOffer, role: D.Role)
      ensures this.terms == terms && this.role == role && state == Created && status == Open && proof == None
    {
      this.terms, this.role := terms, role;
      state, status, proof := Created, Open, None;
    }

    function Value(): N.Held
      reads this
    {
      N.Held(terms, role, state, proof)
    }

    // Looks the trigger up in the table; a state without a transition for it raises. m is whatever match the node
    // has for the offer.
    method Trigger(t: OfferTrigger, newProof: Option<Proof>, ghost m: Option<D.Match>)
      returns (ok: bool, dispatched: seq<D.Dispatch>)
      modifies this
      ensures D.Fire(D.Deal(old(state), old(proof), m), t, newProof)
              == if ok then D.Reacts(D.Deal(state, proof, m), dispatched) else D.Raises
      ensures !ok ==> state == old(state) && status == old(status) && proof == old(proof) && dispatched == []
      ensures ok ==> status == StatusOf(state)
    {
      LookupIsNext(state, t);
      var next := Lookup(state, t);
      ok, dispatched := next.Some?, [];
      if next.Some? {
        state := next.value;
        status := StatusOf(state);
        if state == Proved && newProof.Some? { proof := newProof; }
        dispatched := D.OnEnter(state);
      }
    }
  }

  class Match {
    const offer: Offer
    const role: D.Role
    const target: Address
    const proof: Proof

    constructor (offer: Offer, role: D.Role, target: Address, proof: Proof)
      ensures this.offer == offer && Value() == D.Match(role, target, proof)
    {
      this.offer, this.role, this.target, this.proof := offer, role, target, proof;
    }

    function Value(): D.Match { D.Match(role, target, proof) }

    method Matched() returns (ok: bool, dispatched: seq<D.Dispatch>)
      modifies offer
      ensures D.Matched(D.Deal(old(offer.state), old(offer.proof), None), Value())
              == if ok then D.Reacts(D.Deal(offer.state, offer.proof, Some(Value())), dispatched) else D.Raises
      ensures ok ==> offer.status == StatusOf(offer.state)
      ensures !ok ==> dispatched == [] && offer.status == old(offer.status)
      ensures !ok ==> offer.state == old(offer.state) && offer.proof == old(offer.proof)
    {
      ok, dispatched := offer.Trigger(FoundMatch, None, Some(Value()));
      if ok {
        dispatched := dispatched + [D.SwapInit(Value()), D.ExpectInbound(target)];
      }
    }
  }

  class LimitOrder {
    const id: N.OrderId
    const kind: OfferType
    const amount: int
    const price: N.Rate
    const lifetime: int
    var offers: seq<Offer>   // in the order they were added; their ids are distinct

    constructor (id: N.OrderId, kind: OfferType, amount: int, price: N.Rate, lifetime: int)
      ensures Value() == N.Order(id, kind, amount, price, lifetime, []) && offers == []
    {
      this.id, this.kind, this.amount, this.price, this.lifetime := id, kind, amount, price, lifetime;
      offers := [];
    }

    function Value(): N.Order
      reads this
    {
      N.Order(id, kind, amount, price, lifetime, OfferIds(offers))
    }

    // Some offer of the order is still open.
    method IsOpen() returns (open: bool)
      requires forall x :: x in offers ==> x.status == StatusOf(x.state)
      ensures open <==> exists x :: x in offers && StatusOf(x.state) == Open
    {
      for i := 0 to |offers|
        invariant forall k :: 0 <= k < i ==> StatusOf(offers[k].state) != Open
      {
        if offers[i].status == Open {
          return true;
        }
      }
      open := false;
    }

    // Nothing open any more and something completed.
    method IsCompleted() returns (completed: bool)
      requires forall x :: x in offers ==> x.status == StatusOf(x.state)
      ensures completed <==>
                && (forall x :: x in offers ==> StatusOf(x.state) != Open)
                && (exists x :: x in offers && x.state == Completed)
    {
      var open := IsOpen();
      if open { return false; }
      for i := 0 to |offers|
        invariant forall k :: 0 <= k < i ==> offers[k].state != Completed
      {
        if offers[i].status == Done {
          return true;
        }
      }
      completed := false;
    }

    method IsCanceled() returns (canceled: bool)
      requires forall x :: x in offers ==> x.status == StatusOf(x.state)
      ensures canceled <==> exists x :: x in offers && x.state == Canceled
    {
      for i := 0 to |offers|
        invariant forall k :: 0 <= k < i ==> offers[k].state != Canceled
      {
        if offers[i].status == Dropped {
          return true;
        }
      }
      canceled := false;
    }

    method AmountTraded(ghost all: map<OfferId, N.Held>) returns (traded: int)
      requires forall x :: x in offers ==> x.terms.id in all && all[x.terms.id] == x.Value()
      ensures traded == NodeLaws.Traded(all, OfferIds(offers))
    {
      traded := 0;
      for i := 0 to |offers|
        invariant traded == NodeLaws.Traded(all, OfferIds(offers)[..i])
      {
        assert OfferIds(offers)[..i + 1][..i] == OfferIds(offers)[..i];
        assert offers[i] in offers;
        if offers[i].state == Completed {
          traded := traded + offers[i].terms.base;
        }
      }
      assert OfferIds(offers)[..|offers|] == OfferIds(offers);
    }
  }

  function OfferIds(offers: seq<Offer>): seq<OfferId> {
    seq(|offers|, i requires 0 <= i < |offers| => offers[i].terms.id)
  }

  class DataManager {
    const book: B.OfferBook
    var offers: map<OfferId, Offer>
    var matches: map<OfferId, Match>
    var orders: map<N.OrderId, LimitOrder>
    var timeouts: map<OfferId, bool>
    var dispatched: seq<(OfferId, D.Dispatch)>

    constructor ()
      ensures Valid() && Abs() == N.EMPTY && NodeLaws.NodeInv(Abs())
    {
      book := new B.OfferBook();
      offers, matches, orders, timeouts, dispatched := map[], map[], map[], map[], [];
      new;
      NodeLaws.EmptyHolds();
    }

    ghost predicate Valid()
      reads this, offers.Values, orders.Values, book, book.buys, book.sells
    {
      book.Valid() && Linked()
    }

    // Everything but the book's own indexes.
    ghost predicate Linked()
      reads this, offers.Values, orders.Values, book
    {
      && book.buys != book.sells
      && (forall id :: id in offers ==> offers[id].terms.id == id && offers[id].status == StatusOf(offers[id].state))
      && (forall id :: id in matches ==> id in offers && matches[id].offer == offers[id])
      && (forall o :: o in orders ==> orders[o].id == o && Shared(orders[o].offers))
    }

    // An order shares its offers with the manager.
    ghost predicate Shared(xs: seq<Offer>)
      reads this
    {
      forall x :: x in xs ==> x.terms.id in offers && offers[x.terms.id] == x
    }

    ghost function OfferValues(): map<OfferId, N.Held>
      reads this, offers.Values
    {
      map id | id in offers :: offers[id].Value()
    }

    ghost function MatchValues(): map<OfferId, D.Match>
      reads this
    {
      map id | id in matches :: matches[id].Value()
    }

    ghost function OrderValues(): map<N.OrderId, N.Order>
      reads this, orders.Values
    {
      map o | o in orders :: orders[o].Value()
    }

    ghost function Abs(): N.Node
      reads this, offers.Values, orders.Values, book, book.buys, book.sells
    {
      N.Node(OfferValues(), MatchValues(), book.Value(), OrderValues(), timeouts, dispatched)
    }

    method Dispatch(id: OfferId, ds: seq<D.Dispatch>)
      modifies this`dispatched
      ensures dispatched == old(dispatched) + N.Tagged(id, ds)
    {
      dispatched := dispatched + N.Tagged(id, ds);
    }

    // --- handlers of news of an own offer ---------------------------------------------------------------

    // Nothing but one own offer changed among the objects.
    twostate predicate OnlyOffer(id: OfferId)
      requires id in old(offers)
      reads this, offers.Values, orders.Values, book, book.buys, book.sells
    {
      && offers == old(offers) && orders == old(orders) && timeouts == old(timeouts)
      && (forall i :: i in offers && i != id ==> unchanged(offers[i]))
      && (forall o :: o in orders ==> unchanged(orders[o]))
      && unchanged(book.buys) && unchanged(book.sells)
    }

    twostate lemma OtherOffersSame(id: OfferId)
      requires old(Valid()) && id in old(offers) && OnlyOffer(id)
      ensures OfferValues() == old(OfferValues())[id := offers[id].Value()]
    {
    }

    twostate lemma OrdersSame(id: OfferId)
      requires old(Valid()) && id in old(offers) && OnlyOffer(id)
      ensures OrderValues() == old(OrderValues())
      ensures forall o :: o in orders ==> orders[o].id == o && Shared(orders[o].offers)
    {
    }

    // No offer and no order changed.
    twostate lemma ObjectsSame()
      requires old(Linked()) && offers == old(offers) && orders == old(orders)
      requires (forall i :: i in offers ==> unchanged(offers[i])) && (forall o :: o in orders ==> unchanged(orders[o]))
      ensures OfferValues() == old(OfferValues()) && OrderValues() == old(OrderValues())
      ensures forall o :: o in orders ==> orders[o].id == o && Shared(orders[o].offers)
      ensures forall id :: id in offers ==> offers[id].terms.id == id && offers[id].status == StatusOf(offers[id].state)
    {
    }

    twostate lemma StillValid(id: OfferId)
      requires old(Valid()) && id in old(offers) && OnlyOffer(id) && matches == old(matches)
      requires offers[id].status == StatusOf(offers[id].state)
      ensures Valid()
    {
      OrdersSame(id);
    }

    // One offer took a new state and proof, and nothing else changed.
    twostate lemma OfferStored(id: OfferId)
      requires old(Valid()) && id in old(offers) && OnlyOffer(id) && matches == old(matches)
      requires offers[id].status == StatusOf(offers[id].state)
      ensures Valid()
      ensures OfferValues() == old(OfferValues())[id := offers[id].Value()]
      ensures OrderValues() == old(OrderValues()) && MatchValues() == old(MatchValues())
    {
      StillValid(id);
      OtherOffersSame(id);
      OrdersSame(id);
    }

    ghost function Stored(n: N.Node, id: OfferId, state: OfferState, proof: Option<Proof>, ds: seq<D.Dispatch>): N.Node
      requires id in n.offers
    {
      n.(offers := n.offers[id := n.offers[id].(state := state, proof := proof)],
         dispatched := n.dispatched + N.Tagged(id, ds))
    }

    // One trigger of one offer, with what it dispatches; one that raises changes nothing.
    method TriggerOffer(id: OfferId, t: OfferTrigger, newProof: Option<Proof>) returns (ok: bool)
      requires Valid() && id in offers
      modifies this`dispatched, offers[id]
      ensures Valid() && ok == D.Fire(old(N.DealOf(Abs(), id)), t, newProof).Reacts?
      ensures Abs() == After(old(Abs()), id, D.Fire(old(N.DealOf(Abs(), id)), t, newProof))
    {
      ghost var n, d := Abs(), N.DealOf(Abs(), id);
      ghost var r := D.Fire(d, t, newProof);
      var ds;
      ok, ds := offers[id].Trigger(t, newProof, d.matched);
      Dispatch(id, ds);
      OfferStored(id);
      ReactionStored(n, id, r, ok, offers[id].state, offers[id].proof, ds);
    }

    // The node after a reaction of one of its offers.
    ghost function After(n: N.Node, id: OfferId, r: D.Reaction): N.Node
      requires id in n.offers
    {
      if r.Reacts? then N.WithDeal(n, id, r.deal, r.dispatched) else n
    }

    lemma ReactionStored(n: N.Node, id: OfferId, r: D.Reaction, ok: bool, state: OfferState, proof: Option<Proof>,
                         ds: seq<D.Dispatch>)
      requires id in n.offers
      requires r == if ok then D.Reacts(D.Deal(state, proof, N.DealOf(n, id).matched), ds) else D.Raises
      requires !ok ==> state == n.offers[id].state && proof == n.offers[id].proof && ds == []
      ensures Stored(n, id, state, proof, ds) == After(n, id, r)
    {
      if ok {
        if id in n.matches { assert n.matches[id := n.matches[id]] == n.matches; }
      } else {
        assert n.offers[id := n.offers[id]] == n.offers && n.dispatched + [] == n.dispatched;
      }
    }

    method HandleCancellationProof(id: OfferId) returns (ok: bool)
      requires Valid()
      modifies this`dispatched, offers.Values
      ensures ok == N.HandleCancellationProof(old(Abs()), id).Some?
      ensures Valid() && if ok then Some(Abs()) == N.HandleCancellationProof(old(Abs()), id) else Abs() == old(Abs())
    {
      if id !in offers { return false; }
      ok := TriggerOffer(id, ReceiveCancellationProof, None);
    }

    // Kills and forgets the greenlet kept for this id.
    method CleanUpTimeout(id: OfferId)
      requires Valid()
      modifies this`timeouts
      ensures Valid() && Abs() == old(Abs()).(timeouts := old(timeouts) - {id})
    {
      timeouts := timeouts - {id};
      ObjectsSame();
    }

    method RemoveFromBook(id: OfferId) returns (known: bool)
      requires Valid()
      modifies book.buys, book.sells
      ensures Valid() && known == old(Abs()).book.Contains(id)
      ensures Abs() == if known then old(Abs()).(book := old(Abs()).book.Remove(id)) else old(Abs())
    {
      known := book.RemoveOffer(id);
      ObjectsSame();
    }

    method HandleOfferTimeout(id: OfferId) returns (ok: bool)
      requires Valid()
      modifies this`dispatched, this`timeouts, offers.Values, book.buys, book.sells
      ensures ok == N.HandleOfferTimeout(old(Abs()), id).Some?
      ensures Valid() && if ok then Some(Abs()) == N.HandleOfferTimeout(old(Abs()), id) else Abs() == old(Abs())
    {
      if id in offers {
        ok := TriggerOffer(id, TimedOut, None);
        if !ok { return; }
      } else {
        var _ := RemoveFromBook(id);
      }
      ok := true;
      CleanUpTimeout(id);
    }

    method HandleTransferReceived(id: OfferId) returns (ok: bool)
      requires Valid()
      modifies this`dispatched, this`timeouts, offers.Values
      ensures ok == N.HandleTransferReceived(old(Abs()), id).Some?
      ensures Valid() && if ok then Some(Abs()) == N.HandleTransferReceived(old(Abs()), id) else Abs() == old(Abs())
    {
      if id !in matches { return false; }
      TransferOutcome(Abs(), id);
      ok := TriggerOffer(id, ReceivedInbound, None);
      assert ok ==> matches[id].offer.state == Abs().offers[id].state;
      if ok && matches[id].offer.state == Completed {
        CleanUpTimeout(id);
      }
    }

    lemma TransferOutcome(n: N.Node, id: OfferId)
      requires id in n.offers && id in n.matches
      ensures var r := D.Fire(N.DealOf(n, id), ReceivedInbound, None);
              N.HandleTransferReceived(n, id) ==
                if r.Raises? then None
                else
                  var n1 := N.WithDeal(n, id, r.deal, r.dispatched);
                  if n1.offers[id].state == Completed then Some(n1.(timeouts := n1.timeouts - {id})) else Some(n1)
    {
    }

    ghost function MatchReaction(n: N.Node, id: OfferId): D.Reaction
      requires id in n.offers && id in n.matches
    {
      D.Matched(N.DealOf(n, id), n.matches[id])
    }

    // Match.matched for a stored match.
    method RunMatch(id: OfferId) returns (ok: bool)
      requires Valid() && id in matches
      modifies this`dispatched, offers[id]
      ensures Valid() && ok == MatchReaction(old(Abs()), id).Reacts?
      ensures Abs() == After(old(Abs()), id, MatchReaction(old(Abs()), id))
    {
      ghost var n := Abs();
      var ds;
      ok, ds := MatchedAlone(id, n);
      Dispatch(id, ds);
      OfferStored(id);
      ReactionStored(n, id, MatchReaction(n, id), ok, offers[id].state, offers[id].proof, ds);
    }

    // n is the node before.
    method MatchedAlone(id: OfferId, ghost n: N.Node) returns (ok: bool, ds: seq<D.Dispatch>)
      requires Valid() && id in matches && n == Abs()
      modifies offers[id]
      ensures OnlyOffer(id) && offers[id].status == StatusOf(offers[id].state)
      ensures MatchReaction(n, id)
              == if ok then D.Reacts(D.Deal(offers[id].state, offers[id].proof, Some(n.matches[id])), ds) else D.Raises
      ensures !ok ==> ds == [] && offers[id].state == n.offers[id].state && offers[id].proof == n.offers[id].proof
    {
      MatchedIgnoresMatch(N.DealOf(n, id), n.matches[id]);
      ok, ds := matches[id].Matched();
    }

    lemma MatchedIgnoresMatch(d: D.Deal, m: D.Match)
      ensures D.Matched(d, m) == D.Matched(D.Deal(d.state, d.proof, None), m)
    {
    }

    method HandleTakerCall(id: OfferId, initiator: Address, proof: Proof) returns (ok: bool)
      requires Valid()
      modifies this`dispatched, this`matches, offers.Values
      ensures ok == N.HandleTakerCall(old(Abs()), id, initiator, proof).Some?
      ensures ok ==> Some(Abs()) == N.HandleTakerCall(old(Abs()), id, initiator, proof)
      ensures Valid()
      ensures !ok && id in old(offers) ==>
                Abs() == old(Abs()).(matches := old(Abs()).matches[id := D.Match(D.Maker, initiator, proof)])
    {
      if id !in offers { return false; }
      StoreMatch(id, D.Maker, initiator, proof);
      CallOutcome(old(Abs()), id, D.Match(D.Maker, initiator, proof));
      ok := RunMatch(id);
    }

    method StoreMatch(id: OfferId, role: D.Role, target: Address, proof: Proof)
      requires Valid() && id in offers
      modifies this`matches
      ensures Valid() && Abs() == old(Abs()).(matches := old(Abs()).matches[id := D.Match(role, target, proof)])
      ensures id in matches && matches[id].Value() == D.Match(role, target, proof) && matches[id].offer == offers[id]
    {
      var m := new Match(offers[id], role, target, proof);
      matches := matches[id := m];
      ObjectsSame();
      assert MatchValues() == old(MatchValues())[id := m.Value()];
    }

    lemma CallOutcome(n: N.Node, id: OfferId, m: D.Match)
      requires id in n.offers
      ensures var stored, r := n.(matches := n.matches[id := m]), D.Matched(N.DealOf(n, id), m);
              && D.Matched(N.DealOf(stored, id), m) == r
              && (r.Reacts? ==> N.WithDeal(stored, id, r.deal, r.dispatched) == N.WithDeal(n, id, r.deal, r.dispatched))
    {
    }

    method HandleCommitmentProof(proof: Proof) returns (ok: bool)
      requires Valid()
      modifies this`dispatched, offers.Values
      ensures ok == N.HandleCommitmentProof(old(Abs()), proof).Some?
      ensures Valid() && if ok then Some(Abs()) == N.HandleCommitmentProof(old(Abs()), proof) else Abs() == old(Abs())
    {
      var id := proof.offerId;
      if id !in offers { return false; }
      ProofSteps(Abs(), id, proof);
      ok := TriggerOffer(id, ReceiveCommitmentProof, Some(proof));
      if ok {
        var target := MatchProven(id);
        DispatchOne(id, D.SendProvenOffer(target));
      }
    }

    // The match of a taken offer goes on once the offer is proved.
    method MatchProven(id: OfferId) returns (target: Option<Address>)
      requires Valid() && id in offers && offers[id].state == Proved
      modifies this`dispatched, offers[id]
      ensures Valid() && Abs() == AfterMatching(old(Abs()), id) && target == TargetOf(old(Abs()), id)
    {
      target := None;
      if id in matches {
        var matched := RunMatch(id);
        target := Some(matches[id].target);
      }
    }

    ghost function AfterMatching(n: N.Node, id: OfferId): N.Node
      requires id in n.offers
    {
      if id in n.matches then After(n, id, D.Matched(N.DealOf(n, id), n.matches[id])) else n
    }

    ghost function TargetOf(n: N.Node, id: OfferId): Option<Address> {
      if id in n.matches then Some(n.matches[id].target) else None
    }

    method DispatchOne(id: OfferId, d: D.Dispatch)
      requires Valid()
      modifies this`dispatched
      ensures Valid() && Abs() == old(Abs()).(dispatched := old(Abs()).dispatched + [(id, d)])
    {
      dispatched := dispatched + [(id, d)];
      ObjectsSame();
    }

    // The proof, and for a taken offer the match, then the proven offer goes out.
    lemma ProofSteps(n: N.Node, id: OfferId, proof: Proof)
      requires id in n.offers && proof.offerId == id
      ensures var fired := D.Fire(N.DealOf(n, id), ReceiveCommitmentProof, Some(proof));
              N.HandleCommitmentProof(n, proof)
              == if fired.Raises? then None
                 else
                   var n1 := AfterMatching(N.WithDeal(n, id, fired.deal, fired.dispatched), id);
                   Some(n1.(dispatched := n1.dispatched + [(id, D.SendProvenOffer(TargetOf(n, id)))]))
    {
      var fired := D.Fire(N.DealOf(n, id), ReceiveCommitmentProof, Some(proof));
      if fired.Reacts? {
        var n1, last := N.WithDeal(n, id, fired.deal, fired.dispatched), [D.SendProvenOffer(TargetOf(n, id))];
        assert N.Tagged(id, last) == [(id, last[0])];
        if id in n.matches {
          var m := D.Matched(N.DealOf(n1, id), n.matches[id]);
          assert D.OnCommitmentProof(N.DealOf(n, id), proof)
                 == D.Reacts(m.deal, fired.dispatched + m.dispatched + last);
          TaggedJoin(id, fired.dispatched, m.dispatched, last, n.dispatched);
          assert N.WithDeal(n1, id, m.deal, m.dispatched).offers == N.WithDeal(n, id, m.deal, m.dispatched).offers;
          assert N.WithDeal(n1, id, m.deal, m.dispatched).matches == N.WithDeal(n, id, m.deal, m.dispatched).matches;
        } else {
          assert D.OnCommitmentProof(N.DealOf(n, id), proof) == D.Reacts(fired.deal, fired.dispatched + last);
          TaggedJoin(id, fired.dispatched, [], last, n.dispatched);
        }
      }
    }

    lemma TaggedJoin(id: OfferId, a: seq<D.Dispatch>, b: seq<D.Dispatch>, c: seq<D.Dispatch>,
                     before: seq<(OfferId, D.Dispatch)>)
      ensures before + N.Tagged(id, a) + N.Tagged(id, b) + N.Tagged(id, c) == before + N.Tagged(id, a + b + c)
      ensures before + N.Tagged(id, a) + N.Tagged(id, c) == before + N.Tagged(id, a + c)
    {
    }

    // --- the book of other nodes' offers ------------------------------------------------------------------

    // Refused when the greenlet kept for this id has already ended.
    method CreateNewTimeout(id: OfferId) returns (ok: bool)
      requires Linked()
      modifies this`timeouts
      ensures Linked() && ok == N.CanRenew(old(Abs()), id)
      ensures Abs() == if ok then old(Abs()).(timeouts := old(timeouts)[id := true]) else old(Abs())
    {
      ok := !(id in timeouts && !timeouts[id]);
      if ok { timeouts := timeouts[id := true]; }
      ObjectsSame();
    }

    // Whether the book can take the entry without leaving a stale one behind.
    ghost predicate Fits(e: Entry)
      reads book, book.buys, book.sells
    {
      var byId := if e.offer.kind.Buy? then book.buys.byId else book.sells.byId;
      e.offer.id !in byId || Price(byId[e.offer.id].offer) == Price(e.offer)
    }

    lemma NewFits(e: Entry)
      requires Valid() && !Abs().book.Contains(e.offer.id)
      ensures Fits(e)
    {
      assert forall id :: id in book.buys.byId ==> book.buys.byId[id] in book.buys.entries;
      assert forall id :: id in book.sells.byId ==> book.sells.byId[id] in book.sells.entries;
    }

    method InsertIntoBook(e: Entry)
      requires Valid()
      modifies book.buys, book.sells
      ensures Linked() && Valid() == old(Fits(e))
      ensures Abs() == old(Abs()).(book := old(Abs()).book.Insert(e))
    {
      book.InsertOffer(e);
      ObjectsSame();
    }

    // Whatever is published: the book takes it, and its indexes stay in agreement exactly when the entry fits.
    method HandleOfferPublished(e: Entry) returns (ok: bool)
      requires Valid()
      modifies this`dispatched, this`timeouts, offers.Values, book.buys, book.sells
      ensures ok == N.HandleOfferPublished(old(Abs()), e).Some?
      ensures Linked() && Valid() == (e.offer.id in old(offers) || old(Fits(e)))
      ensures if ok then Some(Abs()) == N.HandleOfferPublished(old(Abs()), e)
              else if e.offer.id in old(offers) then Abs() == old(Abs())
              else Abs() == old(Abs()).(book := old(Abs()).book.Insert(e))
    {
      if e.offer.id in offers {
        ok := TriggerOffer(e.offer.id, ReceivedOffer, None);
      } else {
        InsertIntoBook(e);
        ok := CreateNewTimeout(e.offer.id);
      }
    }

    // The listener for taken offers.
    method ProcessOfferTaken(id: OfferId)
      requires Valid()
      modifies book.buys, book.sells
      ensures Valid() && Abs() == N.ForgetTaken(old(Abs()), id)
    {
      ghost var n := Abs();
      var known := book.Contains(id);
      assert known == n.book.Contains(id);
      if known {
        known := RemoveFromBook(id);
      }
    }

    // --- orders ---------------------------------------------------------------------------------------------

    // A new offer, and nothing else new.
    twostate predicate OnlyAdded(id: OfferId, new offer: Offer)
      reads this, offers.Values, orders.Values, book, book.buys, book.sells, offer
    {
      && id !in old(offers) && offers == old(offers)[id := offer] && offer.terms.id == id
      && offer.status == StatusOf(offer.state)
      && matches == old(matches) && orders == old(orders)
      && (forall i :: i in offers && i != id ==> unchanged(offers[i]))
      && (forall o :: o in orders ==> unchanged(orders[o]))
      && unchanged(book.buys) && unchanged(book.sells)
    }

    twostate lemma AddedValues(id: OfferId, new offer: Offer)
      requires old(Valid()) && OnlyAdded(id, offer)
      ensures OfferValues() == old(OfferValues())[id := offer.Value()]
      ensures OrderValues() == old(OrderValues()) && MatchValues() == old(MatchValues())
    {
    }

    twostate lemma AddedValid(id: OfferId, new offer: Offer)
      requires old(Valid()) && OnlyAdded(id, offer)
      ensures Valid()
    {
      forall o | o in orders ensures orders[o].id == o && Shared(orders[o].offers) {
        assert old(orders[o].id == o && Shared(orders[o].offers));
      }
    }

    // OfferManager: a new offer under an id of its own.
    method RegisterOffer(terms: BasicOffer, role: D.Role) returns (offer: Offer)
      requires Valid() && terms.id !in offers
      modifies this`offers
      ensures Valid() && fresh(offer) && offers == old(offers)[terms.id := offer]
      ensures offer.terms == terms && offer.state == Created
      ensures Abs() == old(Abs()).(offers := old(Abs()).offers[terms.id := N.Held(terms, role, Created, None)])
    {
      offer := new Offer(terms, role);
      offers := offers[terms.id := offer];
      AddedValid(terms.id, offer);
      AddedValues(terms.id, offer);
    }

    // One order is new or changed, and nothing else.
    twostate predicate OnlyOrder(o: N.OrderId)
      reads this, offers.Values, orders.Values, book, book.buys, book.sells
    {
      && o in orders && orders == old(orders)[o := orders[o]] && orders[o].id == o && Shared(orders[o].offers)
      && offers == old(offers) && matches == old(matches)
      && (forall i :: i in offers ==> unchanged(offers[i]))
      && (forall p :: p in orders && p != o ==> unchanged(orders[p]))
      && unchanged(book.buys) && unchanged(book.sells)
    }

    twostate lemma OrderStored(o: N.OrderId)
      requires old(Valid()) && OnlyOrder(o)
      ensures OrderValues() == old(OrderValues())[o := orders[o].Value()]
      ensures OfferValues() == old(OfferValues()) && MatchValues() == old(MatchValues())
    {
    }

    twostate lemma OrderValid(o: N.OrderId)
      requires old(Valid()) && OnlyOrder(o)
      ensures Valid()
    {
      forall p | p in orders && p != o ensures orders[p].id == p && Shared(orders[p].offers) {
        assert old(orders[p].id == p && Shared(orders[p].offers));
      }
    }

    // LimitOrder.add_offer: the offer joins the order, if it is not there yet, and is initiated; one that was initiated
    // before raises.
    method AddOffer(order: LimitOrder, id: OfferId) returns (ok: bool)
      requires Valid() && order.id in orders && orders[order.id] == order && id in offers
      modifies this`dispatched, order, offers[id]
      ensures Valid() && ok == (old(offers[id].state) == Created)
      ensures ok && offers[id] !in old(order.offers)
              ==> Abs() == N.AddToOrder(old(Abs()), order.id, old(Abs()).offers[id])
      ensures !ok ==> Abs() == Appended(old(Abs()), order.id, id, offers[id] in old(order.offers))
    {
      ghost var n, known := Abs(), offers[id] in order.offers;
      AppendToOrder(order, id);
      if offers[id].state == Created && !known { InitiatingAdds(n, Abs(), order.id, id); }
      ok := TriggerOffer(id, Initiating, None);
    }

    ghost function Appended(n: N.Node, order: N.OrderId, id: OfferId, known: bool): N.Node
      requires order in n.orders
    {
      if known then n
      else n.(orders := n.orders[order := n.orders[order].(offers := n.orders[order].offers + [id])])
    }

    method AppendToOrder(order: LimitOrder, id: OfferId)
      requires Valid() && order.id in orders && orders[order.id] == order && id in offers
      modifies order
      ensures Valid() && Abs() == Appended(old(Abs()), order.id, id, offers[id] in old(order.offers))
    {
      if offers[id] !in order.offers {
        order.offers := order.offers + [offers[id]];
        assert OfferIds(order.offers) == old(OfferIds(order.offers)) + [id];
        OrderValid(order.id);
        OrderStored(order.id);
      }
    }

    lemma InitiatingAdds(n: N.Node, n1: N.Node, order: N.OrderId, id: OfferId)
      requires order in n.orders && id in n.offers && n.offers[id].state == Created && n.offers[id].terms.id == id
      requires n1 == Appended(n, order, id, false)
      ensures var r := D.Fire(N.DealOf(n1, id), Initiating, None);
              r.Reacts? && N.WithDeal(n1, id, r.deal, r.dispatched) == N.AddToOrder(n, order, n.offers[id])
    {
      var r := D.Fire(N.DealOf(n1, id), Initiating, None);
      assert N.Tagged(id, [D.Commit]) == [(id, D.Commit)];
      if id in n.matches { assert n.matches[id := n.matches[id]] == n.matches; }
    }

    // OfferManager.create_take_offer with its timeout and its match.
    method CreateTakeOffer(e: Entry) returns (ok: bool)
      requires Valid() && e.offer.id !in offers
      modifies this`offers, this`timeouts, this`matches
      ensures Valid() && ok == N.CanRenew(old(Abs()), e.offer.id)
      ensures e.offer.id in offers && fresh(offers[e.offer.id]) && offers[e.offer.id].state == Created
      ensures Abs() == if ok then Taken(old(Abs()), e) else N.Abandoned(old(Abs()), e)
    {
      var id := e.offer.id;
      var offer := RegisterOffer(e.offer, D.Taker);
      ok := CreateNewTimeout(id);
      if ok {
        StoreMatch(id, D.Taker, e.initiator, e.proof);
      }
    }

    ghost function Taken(n: N.Node, e: Entry): N.Node {
      n.(offers := n.offers[e.offer.id := N.Held(e.offer, D.Taker, Created, None)],
         timeouts := n.timeouts[e.offer.id := true],
         matches := n.matches[e.offer.id := D.Match(D.Taker, e.initiator, e.proof)])
    }

    method TakeOffer(order: LimitOrder, e: Entry) returns (ok: bool)
      requires Valid() && order.id in orders && orders[order.id] == order && e.offer.id !in offers
      modifies this`offers, this`timeouts, this`matches, this`dispatched, order, book.buys, book.sells
      ensures Valid() && ok == N.TakeOne(old(Abs()), order.id, e).Some?
      ensures ok ==> Some(Abs()) == N.TakeOne(old(Abs()), order.id, e)
      ensures !N.CanRenew(old(Abs()), e.offer.id) ==> Abs() == N.Abandoned(old(Abs()), e)
    {
      ghost var n := Abs();
      TakingInSteps(n, order.id, e);
      ok := TakeIntoOrder(order, e);
      if ok {
        ok := RemoveFromBook(e.offer.id);
      }
    }

    method TakeIntoOrder(order: LimitOrder, e: Entry) returns (ok: bool)
      requires Valid() && order.id in orders && orders[order.id] == order && e.offer.id !in offers
      modifies this`offers, this`timeouts, this`matches, this`dispatched, order
      ensures Valid() && ok == N.CanRenew(old(Abs()), e.offer.id)
      ensures Abs() == if ok then TakenInto(old(Abs()), order.id, e) else N.Abandoned(old(Abs()), e)
    {
      ok := CreateTakeOffer(e);
      if ok {
        assert offers[e.offer.id] !in order.offers;
        ok := AddOffer(order, e.offer.id);
      }
    }

    ghost function TakenInto(n: N.Node, order: N.OrderId, e: Entry): N.Node
      requires order in n.orders
    {
      N.AddToOrder(Taken(n, e), order, Taken(n, e).offers[e.offer.id])
    }

    // Taking an offer, one object operation after the other.
    lemma TakingInSteps(n: N.Node, order: N.OrderId, e: Entry)
      requires order in n.orders
      ensures var id := e.offer.id;
              var added := TakenInto(n, order, e);
              N.TakeOne(n, order, e)
              == if !N.CanRenew(n, id) || !added.book.Contains(id) then None
                 else Some(added.(book := added.book.Remove(id)))
    {
      var id, h := e.offer.id, N.Held(e.offer, D.Taker, Created, None);
      assert n.offers[id := h][id := h.(state := Unproved)] == n.offers[id := h.(state := Unproved)];
    }

    // OfferManager.create_make_offer with its timeout.
    method CreateMakeOffer(terms: BasicOffer) returns (ok: bool)
      requires Valid() && terms.id !in offers
      modifies this`offers, this`timeouts
      ensures Valid() && ok == N.CanRenew(old(Abs()), terms.id)
      ensures ok ==> terms.id in offers && fresh(offers[terms.id]) && offers[terms.id].state == Created
      ensures ok ==> Abs() == Made(old(Abs()), terms)
    {
      var offer := RegisterOffer(terms, D.Maker);
      ok := CreateNewTimeout(terms.id);
    }

    ghost function Made(n: N.Node, terms: BasicOffer): N.Node {
      n.(offers := n.offers[terms.id := N.Held(terms, D.Maker, Created, None)],
         timeouts := n.timeouts[terms.id := true])
    }

    method MakeOffer(order: LimitOrder, left: Positive, makeId: OfferId, timeoutDate: int) returns (ok: bool)
      requires Valid() && order.id in orders && orders[order.id] == order && makeId !in offers
      modifies this`offers, this`timeouts, this`dispatched, order
      ensures ok == N.MakeOffer(old(Abs()), order.id, left, makeId, timeoutDate).Some?
      ensures ok ==> Valid() && Some(Abs()) == N.MakeOffer(old(Abs()), order.id, left, makeId, timeoutDate)
    {
      var terms := BasicOffer(makeId, order.kind, left, (left as real * order.price).Floor, timeoutDate);
      MakingInSteps(Abs(), order.id, left, terms);
      ok := CreateMakeOffer(terms);
      if ok {
        assert offers[makeId] !in order.offers;
        ok := AddOffer(order, makeId);
      }
    }

    lemma MakingInSteps(n: N.Node, order: N.OrderId, left: Positive, terms: BasicOffer)
      requires order in n.orders
      requires terms == BasicOffer(terms.id, n.orders[order].kind, left, (left as real * n.orders[order].price).Floor,
                                   terms.timeout)
      ensures N.MakeOffer(n, order, left, terms.id, terms.timeout)
              == if !N.CanRenew(n, terms.id) then None
                 else Some(N.AddToOrder(Made(n, terms), order, Made(n, terms).offers[terms.id]))
    {
      var h, timed := N.Held(terms, D.Maker, Created, None), n.(timeouts := n.timeouts[terms.id := true]);
      if N.CanRenew(n, terms.id) {
        var made, added := N.MakeOffer(n, order, left, terms.id, terms.timeout).value, N.AddToOrder(timed, order, h);
        assert made.offers[terms.id].terms == terms;
        assert made.offers == added.offers;
      }
      assert n.offers[terms.id := h][terms.id := h.(state := Unproved)] == n.offers[terms.id := h.(state := Unproved)];
    }

    method NewOrder(id: N.OrderId, kind: OfferType, amount: int, price: N.Rate, lifetime: int)
      returns (order: LimitOrder)
      requires Valid()
      modifies this`orders
      ensures Valid() && fresh(order) && orders == old(orders)[id := order]
      ensures order.Value() == N.Order(id, kind, amount, price, lifetime, [])
      ensures Abs() == old(Abs()).(orders := old(Abs()).orders[id := N.Order(id, kind, amount, price, lifetime, [])])
    {
      order := new LimitOrder(id, kind, amount, price, lifetime);
      orders := orders[id := order];
      OrderValid(id);
      OrderStored(id);
    }

    // An order, to its end or to where it raises. The id of the offer it makes is freshly drawn.
    method ProcessOrder(id: N.OrderId, kind: OfferType, amount: int, price: N.Rate, lifetime: int, makeId: OfferId,
                        timeoutDate: int)
      returns (ok: bool)
      requires Valid() && NodeLaws.Registry(Abs()) && NodeLaws.FreshId(Abs(), makeId)
      modifies this, book.buys, book.sells
      ensures var o := N.Order(id, kind, amount, price, lifetime, []);
              && ok == N.ProcessOrder(old(Abs()), o, makeId, timeoutDate).Some?
              && Valid() && Abs() == N.LeftByOrder(old(Abs()), o, makeId, timeoutDate)
    {
      ghost var n := Abs();
      var order := NewOrder(id, kind, amount, price, lifetime);
      ok := FillOrder(order, makeId, timeoutDate, n);
    }

    // Takes what matches and makes an offer of the rest. n is the node before the order was recorded.
    method FillOrder(order: LimitOrder, makeId: OfferId, timeoutDate: int, ghost n: N.Node) returns (ok: bool)
      requires Valid() && order.id in orders && orders[order.id] == order
      requires NodeLaws.Registry(n) && NodeLaws.FreshId(n, makeId) && Abs() == n.(orders := Abs().orders)
      modifies this`offers, this`timeouts, this`matches, this`dispatched, order, book.buys, book.sells
      ensures ok == N.FillOrder(old(Abs()), order.id, makeId, timeoutDate).Some?
      ensures Valid() && Abs() == N.LeftByFill(old(Abs()), order.id, makeId, timeoutDate)
    {
      FoundInBook(n.book, order.price, order.kind, order.amount);
      var taken, left := MatchNewOrder(order);
      ok := TakeAndMake(order, taken, left, makeId, timeoutDate, n);
    }

    // The loop over the takes, and the make offer.
    method TakeAndMake(order: LimitOrder, taken: seq<Entry>, left: int, makeId: OfferId, timeoutDate: int,
                       ghost n: N.Node)
      returns (ok: bool)
      requires Valid() && order.id in orders && orders[order.id] == order
      requires NodeLaws.Registry(n) && NodeLaws.FreshId(n, makeId) && Abs() == n.(orders := Abs().orders)
      requires NodeLaws.DistinctIds(taken) && forall e :: e in taken ==> NodeLaws.InBook(n.book, e)
      modifies this`offers, this`timeouts, this`matches, this`dispatched, order, book.buys, book.sells
      ensures var took := N.TakeAll(old(Abs()), order.id, taken);
              && ok == took.Some? && Valid()
              && (took.None? ==> Abs() == N.LeftByTakes(old(Abs()), order.id, taken))
              && (ok ==>
                    Some(Abs())
                    == if left <= 0 then took else N.MakeOffer(took.value, order.id, left, makeId, timeoutDate))
    {
      ok := TakeOffers(order, taken, n, makeId);
      if ok && left > 0 {
        ok := MakeOffer(order, left, makeId, timeoutDate);
      }
    }

    // The matching engine, asked for a new order.
    method MatchNewOrder(order: LimitOrder) returns (taken: seq<Entry>, left: int)
      requires Valid()
      ensures (taken, left) == Matches(Abs().book, order.price, order.kind, order.amount)
    {
      taken, left := MatchLimit(book, order.price, order.kind, order.amount);
    }

    lemma FoundInBook(b: B.Book, price: real, kind: OfferType, amount: int)
      requires NodeLaws.BookInv(b)
      ensures var taken := Matches(b, price, kind, amount).0;
              NodeLaws.DistinctIds(taken) && forall e :: e in taken ==> NodeLaws.InBook(b, e)
    {
      NodeLaws.MatchesHold(b, price, kind, amount);
    }

    method TakeOffers(order: LimitOrder, taken: seq<Entry>, ghost n: N.Node, ghost makeId: OfferId) returns (ok: bool)
      requires Valid() && order.id in orders && orders[order.id] == order
      requires NodeLaws.Registry(n) && NodeLaws.FreshId(n, makeId) && Abs() == n.(orders := Abs().orders)
      requires NodeLaws.DistinctIds(taken) && forall e :: e in taken ==> NodeLaws.InBook(n.book, e)
      modifies this`offers, this`timeouts, this`matches, this`dispatched, order, book.buys, book.sells
      ensures ok == N.TakeAll(old(Abs()), order.id, taken).Some?
      ensures Valid() && Abs() == N.LeftByTakes(old(Abs()), order.id, taken)
      ensures ok ==> N.TakeAll(old(Abs()), order.id, taken) == Some(Abs())
      ensures ok ==> makeId !in offers && N.CanRenew(Abs(), makeId)
    {
      ghost var n1 := Abs();
      NoneTaken(n1, order.id, taken);
      for i := 0 to |taken|
        invariant Valid() && N.TakeAll(n1, order.id, taken[..i]) == Some(Abs())
      {
        NextIsNew(n, n1, order.id, taken, i);
        NextTake(n1, order.id, taken, i);
        ok := TakeOffer(order, taken[i]);
        if !ok { return; }
      }
      AllTaken(n, n1, order.id, taken, makeId);
      ok := true;
    }

    lemma NoneTaken(n: N.Node, id: N.OrderId, taken: seq<Entry>)
      requires id in n.orders
      ensures N.TakeAll(n, id, taken[..0]) == Some(n)
    {
    }

    // The next entry of the book is not yet the node's own.
    lemma NextIsNew(n: N.Node, n1: N.Node, id: N.OrderId, taken: seq<Entry>, i: nat)
      requires NodeLaws.Registry(n) && id in n1.orders && n1 == n.(orders := n1.orders) && i < |taken|
      requires NodeLaws.DistinctIds(taken) && forall e :: e in taken ==> NodeLaws.InBook(n.book, e)
      requires N.TakeAll(n1, id, taken[..i]).Some?
      ensures var n2 := N.TakeAll(n1, id, taken[..i]).value;
              taken[i].offer.id !in n2.offers && n2.book.Contains(taken[i].offer.id)
    {
      NodeLaws.ContainsMeans(n.book);
      NodeLaws.PrefixHolds(taken, i);
      NodeLaws.OthersStayNew(n1, id, taken[..i], taken[i]);
    }

    // What taking it, or raising there, makes of the whole list.
    lemma NextTake(n: N.Node, id: N.OrderId, taken: seq<Entry>, i: nat)
      requires id in n.orders && i < |taken| && N.TakeAll(n, id, taken[..i]).Some?
      requires N.TakeAll(n, id, taken[..i]).value.book.Contains(taken[i].offer.id)
      ensures var n2 := N.TakeAll(n, id, taken[..i]).value; var next := N.TakeOne(n2, id, taken[i]);
              && N.TakeAll(n, id, taken[..i + 1]) == next
              && (next.None? <==> !N.CanRenew(n2, taken[i].offer.id))
              && (next.None? ==>
                    N.TakeAll(n, id, taken).None? && N.LeftByTakes(n, id, taken) == N.Abandoned(n2, taken[i]))
    {
      assert taken[..i + 1][..i] == taken[..i] && taken[..i + 1][i] == taken[i];
      var n2 := N.TakeAll(n, id, taken[..i]).value;
      if N.TakeOne(n2, id, taken[i]).None? { RaisedStays(n, id, taken, i); }
    }

    lemma {:induction false} RaisedStays(n: N.Node, id: N.OrderId, taken: seq<Entry>, i: nat)
      requires id in n.orders && i < |taken| && N.TakeAll(n, id, taken[..i]).Some?
      requires N.TakeOne(N.TakeAll(n, id, taken[..i]).value, id, taken[i]).None?
      ensures N.TakeAll(n, id, taken).None?
      ensures N.LeftByTakes(n, id, taken) == N.Abandoned(N.TakeAll(n, id, taken[..i]).value, taken[i])
      decreases |taken|
    {
      if i < |taken| - 1 {
        assert taken[..|taken| - 1][..i] == taken[..i];
        RaisedStays(n, id, taken[..|taken| - 1], i);
      }
    }

    // All taken; the id of the offer to make is still free.
    lemma AllTaken(n: N.Node, n1: N.Node, id: N.OrderId, taken: seq<Entry>, makeId: OfferId)
      requires NodeLaws.Registry(n) && id in n1.orders && n1 == n.(orders := n1.orders) && NodeLaws.FreshId(n, makeId)
      requires NodeLaws.DistinctIds(taken) && forall e :: e in taken ==> NodeLaws.InBook(n.book, e)
      requires N.TakeAll(n1, id, taken[..|taken|]).Some?
      ensures N.TakeAll(n1, id, taken) == N.TakeAll(n1, id, taken[..|taken|])
      ensures var n2 := N.TakeAll(n1, id, taken).value;
              N.LeftByTakes(n1, id, taken) == n2 && makeId !in n2.offers && N.CanRenew(n2, makeId)
    {
      assert taken[..|taken|] == taken;
      NodeLaws.TakeAllHolds(n1, id, taken);
      NodeLaws.MakeIdRenews(n, n1, N.TakeAll(n1, id, taken).value, id, taken, makeId);
    }

    // The greenlet of an id ends.
    method TimeoutFires(id: OfferId)
      requires Valid()
      modifies this`timeouts
      ensures Valid() && Some(Abs()) == N.Handle(old(Abs()), N.TimeoutFired(id))
    {
      if id in timeouts { timeouts := timeouts[id := false]; }
      ObjectsSame();
    }

    method HandleOfferStateChange(c: N.Change) returns (ok: bool)
      requires Valid() && (c.CommitmentProofCame? || c.CancellationProofCame?)
      modifies this`dispatched, offers.Values
      ensures ok == N.Handle(old(Abs()), c).Some?
      ensures Valid() && if ok then Some(Abs()) == N.Handle(old(Abs()), c) else Abs() == old(Abs())
    {
      if c.CommitmentProofCame? {
        ok := HandleCommitmentProof(c.proof);
      } else {
        ok := HandleCancellationProof(c.offerId);
      }
    }

    // handle_state_change, and the two kinds of news that reach the node beside it. An order whose handler raises still
    // leaves what it had done; other news that raises is left to the single handlers.
    method HandleStateChange(c: N.Change) returns (ok: bool)
      requires Valid() && NodeLaws.Registry(Abs()) && (c.OrderPlaced? ==> NodeLaws.FreshId(Abs(), c.makeId))
      modifies this, offers.Values, book.buys, book.sells
      ensures ok == N.Handle(old(Abs()), c).Some?
      ensures ok ==> Some(Abs()) == N.Handle(old(Abs()), c)
      ensures NodeLaws.FreshNews(old(Abs()), c) ==> Valid()
      ensures ok && NodeLaws.NodeInv(old(Abs())) && NodeLaws.FreshNews(old(Abs()), c) ==> NodeLaws.NodeInv(Abs())
    {
      ghost var n := Abs();
      match c {
        case OrderPlaced(id, kind, amount, price, lifetime, makeId, timeoutDate) =>
          ok := ProcessOrder(id, kind, amount, price, lifetime, makeId, timeoutDate);
        case OfferTimeout(id) => ok := HandleOfferTimeout(id);
        case CommitmentProofCame(_) => ok := HandleOfferStateChange(c);
        case CancellationProofCame(_) => ok := HandleOfferStateChange(c);
        case OfferPublished(e) =>
          if !n.book.Contains(e.offer.id) { NewFits(e); }
          ok := HandleOfferPublished(e);
        case TakerCalled(id, initiator, proof) => ok := HandleTakerCall(id, initiator, proof);
        case TransferReceived(id) => ok := HandleTransferReceived(id);
        case TimeoutFired(id) => TimeoutFires(id); ok := true;
        case OfferTaken(id) => ProcessOfferTaken(id); ok := true;
      }
      if ok && NodeLaws.NodeInv(n) && NodeLaws.FreshNews(n, c) { NodeLaws.HandleKeeps(n, c); }
    }
  }
}
