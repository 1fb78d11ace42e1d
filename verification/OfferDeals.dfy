// What a node does about one offer when news of it arrives: the handlers of state changes, each as a step on
// what the node knows of that offer, with everything it hands to the other components.
module OfferDeals {
  import opened SwapTypes
  import opened OfferMachine

  datatype Role = Maker | Taker

  datatype Match = Match(role: Role, target: Address, proof: Proof)

  // What a node knows of an offer of its own: the offer's state and proof, and the match if there is one.
  datatype Deal = Deal(state: OfferState, proof: Option<Proof>, matched: Option<Match>)

  datatype Dispatch =
    | Commit | CommitmentProved | CancellationRequest | InboundReceived
    | SwapInit(match_: Match)
    | ExpectInbound(initiator: Address)
    | SendProvenOffer(target: Option<Address>)

  // A handler either raises, and then the node's consumer is gone, or leaves a deal and what it dispatched.
  datatype Reaction = Raises | Reacts(deal: Deal, dispatched: seq<Dispatch>)

  // Entering a state dispatches an event, or records the proof.
  function OnEnter(s: OfferState): seq<Dispatch> {
    match s
    case Unproved => [Commit]
    case Published => [CommitmentProved]
    case CancellationRequested => [CancellationRequest]
    case WaitForRefund => [InboundReceived]
    case _ => []
  }

  function Fire(d: Deal, t: OfferTrigger, proof: Option<Proof>): Reaction {
    var next := Next(d.state, t);
    if next.None? then Raises
    else
      Reacts(d.(state := next.value, proof := if next.value == Proved && proof.Some? then proof else d.proof),
             OnEnter(next.value))
  }

  // Match.matched: the offer starts exchanging, the node pays its side and waits for the other.
  function Matched(d: Deal, m: Match): Reaction {
    var r := Fire(d.(matched := Some(m)), FoundMatch, None);
    if r.Raises? then Raises else Reacts(r.deal, r.dispatched + [SwapInit(m), ExpectInbound(m.target)])
  }

  function OnCommitmentProof(d: Deal, proof: Proof): Reaction {
    var proved := Fire(d, ReceiveCommitmentProof, Some(proof));
    if proved.Raises? then Raises
    else if d.matched.None? then Reacts(proved.deal, proved.dispatched + [SendProvenOffer(None)])
    else
      var m := Matched(proved.deal, d.matched.value);
      if m.Raises? then Raises
      else Reacts(m.deal, proved.dispatched + m.dispatched + [SendProvenOffer(Some(d.matched.value.target))])
  }

  function OnCancellationProof(d: Deal): Reaction { Fire(d, ReceiveCancellationProof, None) }

  function OnTimeout(d: Deal): Reaction { Fire(d, TimedOut, None) }

  function OnPublished(d: Deal): Reaction { Fire(d, ReceivedOffer, None) }

  function OnTakerCall(d: Deal, initiator: Address, proof: Proof): Reaction {
    Matched(d, Match(Maker, initiator, proof))
  }

  function OnTransfer(d: Deal): Reaction {
    if d.matched.None? then Raises else Fire(d, ReceivedInbound, None)
  }

  // A new offer is initiated as soon as it joins its order.
  function Begin(matched: Option<Match>): Reaction { Fire(Deal(Created, None, matched), Initiating, None) }
}
