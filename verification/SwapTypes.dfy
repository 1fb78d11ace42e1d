// Values exchanged with the commitment service. Addresses, secrets, hashes and signatures are opaque
// numbers: nothing here depends on how they are computed.
module SwapTypes {

  datatype Option<+T> = None | Some(value: T)

  type Address = nat
  type OfferId = nat

  datatype Commitment = Commitment(sender: Address, offerId: OfferId, timeout: int, signature: nat)
  datatype Receipt = Receipt(initiator: Address, amount: nat, identifier: OfferId, timestamp: int)
  datatype Execution = Execution(sender: Address, offerId: OfferId, timestamp: int)
  datatype Proof = Proof(commitmentSig: nat, secret: nat, secretHash: nat, offerId: OfferId)

  datatype Message =
    | OfferTaken(offerId: OfferId)
    | SwapCompleted(offerId: OfferId, timestamp: int)
    | CommitmentProof(proof: Proof)
    | CancellationProof(offerId: OfferId, commitmentProof: Option<Proof>)

  // A topic of None is a broadcast.
  datatype Send = Send(message: Message, topic: Option<Address>)

  datatype Refund = Refund(receipt: Receipt, claimFee: bool)

  function AsBag<T>(o: Option<T>): multiset<T> {
    if o.Some? then multiset{o.value} else multiset{}
  }
}
