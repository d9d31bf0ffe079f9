/** The entry-point messages of src/msg.rs. */
module Msg {
  import opened Common

  datatype InstantiateMsg = InstantiateMsg(owner: Addr, chainKey: seq<u8>)

  /** The one directive this contract accepts. */
  datatype Directive = AddToken(tokenId: string, name: string)

  datatype ExecuteMsg =
    | ExecDirective(directive: Directive, signature: seq<u8>)
    | PrivilegeMintToken(ticketId: string, tokenId: string, receiver: Addr, amount: string)
    | RedeemToken(tokenId: string, receiver: string, amount: string)
}
