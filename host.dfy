/** The boundary with the host chain: the environment a handler sees, the
    operations it can dispatch, the events it emits, the response it returns
    and the reply the host delivers back. Serialization of payloads is the
    identity: a payload is the typed value itself, and decoding it as a given
    type succeeds exactly when it is a value of that type. */
module Host {
  import opened Common
  import opened Error
  import opened Types
  import opened State

  /** The part of `Env` the handlers read. */
  datatype Env = Env(contractAddress: Addr, blockTimeNanos: u64, blockHeight: u64)

  /** The sender of the message (attached funds are not read). */
  datatype MessageInfo = MessageInfo(sender: Addr)

  /** A coin denomination: a literal one, or `token_denom(contract, token_id)`,
      whose definition is not part of this model and is kept as the symbolic
      term it is applied to. */
  datatype Denom = Named(name: string) | TokenDenom(contract: Addr, tokenId: string)

  /** The host operations the contract dispatches. `BuiltBurn` records the
      arguments of `build_burn_msg`, whose definition is not part of this
      model. */
  datatype HostOp =
    | CreateDenom(sender: Addr, subdenom: string)
    | MintTokens(sender: Addr, denom: Denom, amount: string, mintToAddress: Addr)
    | BurnTokens(sender: Addr, denom: Denom, amount: string, burnFromAddress: Addr)
    | BuiltBurn(sender: Addr, burnFrom: Addr, denom: Denom, amount: string)
    | Swap(sender: Addr, poolId: u64, tokenOutDenom: string, tokenInDenom: Denom,
           tokenInAmount: string, tokenOutMinAmount: string)
    | BankSend(toAddress: Addr, denom: Denom, coinAmount: u128)

  /** When the host calls the contract back about a dispatched operation. */
  datatype ReplyOn = Never | OnSuccess | OnError | Always

  /** The reply ids of `reply_msg_id`, as distinct constants; any other
      number is `OtherReply`. */
  datatype ReplyId =
    | RedeemReply
    | GenerateTicketReply
    | MintTokenReply
    | SwapCkbtcToAllbtcReply
    | SwapAllbtcToCkbtcReply
    | SendAllbtcReply
    | OtherReply(raw: u64)

  /** A continuation payload: one of the typed contexts, nothing, or bytes
      that are none of them. */
  datatype Payload =
    | NoPayload
    | MintPayload(mint: MintTokenPayload)
    | RedeemAllPayload(redeem: RedeemAllBTC)
    | TicketPayload(request: GenerateTicketReq)
    | Bytes(raw: seq<u8>)

  /** A dispatched operation with its reply id, reply mode and payload. */
  datatype SubMsg = SubMsg(id: ReplyId, msg: HostOp, replyOn: ReplyOn, payload: Payload)

  /** The events the contract emits, one constructor per event type, with the
      attributes it attaches. `GenerateTicketRequested` carries the whole
      request (its serialization and every field attribute are functions of
      it) and the `memo` attribute, which is the empty string when the request
      has none. */
  datatype Event =
    | RedeemRequested(tokenId: string, sender: string, receiver: string, amount: string, targetChain: string)
    | GenerateTicketRequested(request: GenerateTicketReq, memo: string)
    | TokenMinted(ticketId: string, tokenId: string, receiver: string, amount: string)
    | TokenBurned(tokenId: string, sender: string, receiver: string, amount: string)
    | RedeemFailed
    | GenerateTicketFailed
    | SwapCkbtcFailed(ticketId: string, receiver: string, amount: string)
    | SwapAllbtcFailed(sender: string, receiver: string, amount: string, targetChain: string,
                      feeToken: string, feeAmount: string)

  datatype Attribute = Attribute(key: string, value: string)

  datatype Response = Response(messages: seq<SubMsg>, events: seq<Event>, attributes: seq<Attribute>)

  datatype SubMsgResult = Success | Failure(error: string)

  /** What the host delivers to `reply`: the id and payload of the
      submessage, and the operation's result. */
  datatype ReplyMsg = ReplyMsg(id: ReplyId, result: SubMsgResult, payload: Payload)

  /** A handler's outcome together with the storage it leaves. */
  datatype Step = Step(result: Outcome<Response>, after: Store)

  /** `Response::add_message`: fire and forget, never replied to. */
  function Message(op: HostOp): (s: SubMsg)
    ensures s.msg == op && s.replyOn == Never && s.payload == NoPayload
  {
    SubMsg(OtherReply(0), op, Never, NoPayload)
  }

  /** Whether the host calls back about an operation dispatched in mode
      `mode` that ended with `result`. */
  predicate Delivers(mode: ReplyOn, result: SubMsgResult) {
    match mode
    case Never => false
    case OnSuccess => result.Success?
    case OnError => result.Failure?
    case Always => true
  }

  /** The reply the host delivers for submessage `sub` ending with `result`,
      if any: its own id and, unchanged, its own payload. */
  function Callback(sub: SubMsg, result: SubMsgResult): (r: Option<ReplyMsg>)
    ensures r.Some? <==> Delivers(sub.replyOn, result)
    ensures r.Some? ==> r.value.id == sub.id && r.value.payload == sub.payload && r.value.result == result
  {
    if Delivers(sub.replyOn, result) then Some(ReplyMsg(sub.id, result, sub.payload)) else None
  }

  /** Whether the invocation that dispatched `sub` keeps its writes once
      `sub` has ended with `result`. A success never undoes them; a failure
      the host does not deliver as a reply aborts that invocation, and the
      host discards everything it wrote. */
  predicate Settles(sub: SubMsg, result: SubMsgResult) {
    result.Success? || Delivers(sub.replyOn, result)
  }

  /** What remains of an invocation that went from `before` to `after`,
      answered `r` and dispatched at most one operation, once that operation
      has ended with `result`. */
  function Kept<T>(before: T, after: T, r: Outcome<Response>, result: SubMsgResult): (kept: T)
    ensures kept == before || kept == after
    ensures result.Success? ==> kept == after
    ensures !r.Ok? || r.value.messages == [] ==> kept == after
    ensures r.Ok? && r.value.messages != [] && result.Failure? && r.value.messages[0].replyOn in {Never, OnSuccess}
      ==> kept == before
    ensures r.Ok? && r.value.messages != [] && r.value.messages[0].replyOn in {OnError, Always} ==> kept == after
  {
    if r.Ok? && r.value.messages != [] && !Settles(r.value.messages[0], result) then before else after
  }

  /** The text of a serde decoding error is not modelled. */
  const DecodeFailure := "payload does not decode"

  function DecodeMint(p: Payload): (r: Outcome<MintTokenPayload>)
    ensures r.Ok? <==> p.MintPayload?
    ensures r.Ok? ==> MintPayload(r.value) == p
    ensures !r.Ok? ==> r == Err(CustomError(DecodeFailure))
  {
    if p.MintPayload? then Ok(p.mint) else Err(CustomError(DecodeFailure))
  }

  function DecodeRedeemAll(p: Payload): (r: Outcome<RedeemAllBTC>)
    ensures r.Ok? <==> p.RedeemAllPayload?
    ensures r.Ok? ==> RedeemAllPayload(r.value) == p
    ensures !r.Ok? ==> r == Err(CustomError(DecodeFailure))
  {
    if p.RedeemAllPayload? then Ok(p.redeem) else Err(CustomError(DecodeFailure))
  }

  function DecodeTicket(p: Payload): (r: Outcome<GenerateTicketReq>)
    ensures r.Ok? <==> p.TicketPayload?
    ensures r.Ok? ==> TicketPayload(r.value) == p
    ensures !r.Ok? ==> r == Err(CustomError(DecodeFailure))
  {
    if p.TicketPayload? then Ok(p.request) else Err(CustomError(DecodeFailure))
  }

  /** The response of a handler that also leaves a new state record. */
  function ResponseOf(o: Outcome<(Response, State)>): (r: Outcome<Response>)
    ensures r.Ok? <==> o.Ok?
    ensures o.Ok? ==> r.value == o.value.0
    ensures !o.Ok? ==> r == o.PropagateFailure()
  {
    if o.Ok? then Ok(o.value.0) else o.PropagateFailure()
  }

  /** The stored record after such a handler: the new record saved on
      success, the old one kept on failure (rollback). */
  function Commit(o: Outcome<(Response, State)>, stored: Option<StoredState>): (r: Option<StoredState>)
    ensures o.Ok? ==> r == Some(Saved(o.value.1))
    ensures !o.Ok? ==> r == stored
  {
    if o.Ok? then Some(Saved(o.value.1)) else stored
  }
}
