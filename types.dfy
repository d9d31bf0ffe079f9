/** The continuation payloads of src/types.rs: the context a dispatched
    operation carries to its callback. */
module Types {
  import opened Common

  /** Context of the mint → (swap) → send chain. */
  datatype MintTokenPayload = MintTokenPayload(
    ticketId: string,
    tokenId: string,
    receiver: Addr,
    amount: string,
    transmuter: Option<string>)

  /** Context of the allBTC → ckBTC swap that precedes a redeem. */
  datatype RedeemAllBTC = RedeemAllBTC(
    sender: string,
    receiver: string,
    amount: string,
    targetChain: string,
    feeToken: string,
    feeAmount: string)
}
