/** The callback dispatcher of src/reply.rs. The host calls `reply` with the
    id and payload of a submessage and its result; the dispatcher finishes a
    workflow by emitting events, dispatches exactly one follow-up operation
    carrying a payload, or fails. The pure functions below build each
    branch's response; `ReplySuccessStepWith` and `ReplyStepWith` are the
    dispatch table as a function of the storage, for a given reply mode of
    the swap MINT_TOKEN dispatches. `ReplySuccessStep` and `ReplyStep` fix
    that mode to reply-on-error, as written, and the methods `Reply`,
    `ReplySuccess` and `ReplySwapAllbtcToCkbtc` write the storage as the
    source does and are proved equal to them. */
module Reply {
  import opened Common
  import opened Error
  import opened Types
  import opened State
  import opened Host
  import Decimal

  /** Rust's panic messages for `unreachable!()` and for `u64` overflow. */
  const Unreachable := "internal error: entered unreachable code"
  const AddOverflow := "attempt to add with overflow"

  const TransmuterUnsupported := "Only Support transmuter ckbtc to allBTC"

  /** The panic of `parse().unwrap()` on text that is not a `u128` (the
      error's kind, which Rust appends, is not modelled). */
  const ParseUnwrapFailed := "called `Result::unwrap()` on an `Err` value: ParseIntError"

  /** A response that only emits events. */
  function Emit(events: seq<Event>): Response {
    Response([], events, [])
  }

  /** A response that only dispatches `sub`. */
  function Dispatch(sub: SubMsg): Response {
    Response([sub], [], [])
  }

  /** The `GenerateTicketRequested` event of a request; a missing memo is
      shown as the empty string. */
  function TicketRequestedEvent(req: GenerateTicketReq): (e: Event)
    ensures e.GenerateTicketRequested? && e.request == req
    ensures e.memo == if req.memo.Some? then req.memo.value else ""
  {
    GenerateTicketRequested(req, req.memo.UnwrapOr(""))
  }

  /** The two events of a confirmed redeem burn, in order. */
  function RedeemRequestedEvents(req: GenerateTicketReq): (es: seq<Event>)
    ensures |es| == 2 && es[1] == TicketRequestedEvent(req)
    ensures es[0] == RedeemRequested(req.tokenId, req.sender, req.receiver, req.amount, req.targetChainId)
  {
    [RedeemRequested(req.tokenId, req.sender, req.receiver, req.amount, req.targetChainId),
     TicketRequestedEvent(req)]
  }

  /** The GENERATE_TICKET success branch: emits only
      `GenerateTicketRequested`, dispatches nothing. */
  function ReplyGenerateTicket(payload: Payload): (r: Outcome<Response>)
    ensures r.Ok? <==> payload.TicketPayload?
    ensures r.Ok? ==> r.value == Emit([TicketRequestedEvent(payload.request)])
    ensures !r.Ok? ==> r == Err(CustomError(DecodeFailure))
  {
    var req :- DecodeTicket(payload);
    Ok(Emit([TicketRequestedEvent(req)]))
  }

  /** The SEND_ALLBTC success branch: the mint-and-transmute chain ends with
      `TokenMinted` for the payload's ticket. */
  function ReplySendAllbtc(payload: Payload): (r: Outcome<Response>)
    ensures r.Ok? <==> payload.MintPayload?
    ensures r.Ok? ==> var p := payload.mint;
      r.value == Emit([TokenMinted(p.ticketId, p.tokenId, p.receiver, p.amount)])
    ensures !r.Ok? ==> r == Err(CustomError(DecodeFailure))
  {
    var p :- DecodeMint(payload);
    Ok(Emit([TokenMinted(p.ticketId, p.tokenId, p.receiver, p.amount)]))
  }

  /** `reply_mint_token`, with the reply mode of the swap it dispatches as a
      parameter (see `ReplyMintToken` and `ReplyMintTokenIntended`). Without
      a transmuter it emits `TokenMinted`; with one it fails unless the pair
      is ckBTC → allBTC, and otherwise dispatches exactly one swap of the
      minted amount that carries the payload unchanged. */
  function ReplyMintTokenWith(swapMode: ReplyOn, stored: Option<StoredState>, env: Env, payload: Payload)
    : (r: Outcome<Response>)
    ensures !payload.MintPayload? ==> r == Err(CustomError(DecodeFailure))
    ensures payload.MintPayload? && stored.None? ==> r == Panic(StateNotInitialized)
    ensures payload.MintPayload? && stored.Some? && payload.mint.transmuter.None? ==>
      var p := payload.mint;
      r == Ok(Emit([TokenMinted(p.ticketId, p.tokenId, p.receiver, p.amount)]))
    ensures payload.MintPayload? && stored.Some? && payload.mint.transmuter.Some? ==>
      var p := payload.mint;
      var st := Load(stored.value);
      && (r.Ok? <==> p.tokenId == st.ckbtcTokenId && p.transmuter.value == st.allbtcTokenDenom)
      && (!r.Ok? ==> r == Err(CustomError(TransmuterUnsupported)))
      && (r.Ok? ==>
            && r.value.events == [] && r.value.attributes == []
            && |r.value.messages| == 1
            && r.value.messages[0].id == SwapCkbtcToAllbtcReply
            && r.value.messages[0].replyOn == swapMode
            && r.value.messages[0].payload == payload
            && r.value.messages[0].msg == Swap(env.contractAddress, st.allbtcSwapPoolId, st.allbtcTokenDenom,
                                               TokenDenom(env.contractAddress, p.tokenId), p.amount, p.amount))
  {
    var p :- DecodeMint(payload);
    var ids :- ReadState(stored, (s: State) => (s.allbtcSwapPoolId, s.allbtcTokenDenom, s.ckbtcTokenId));
    var poolId, allbtcDenom, ckbtcTokenId := ids.0, ids.1, ids.2;
    var mintTokenDenom := TokenDenom(env.contractAddress, p.tokenId);
    if p.transmuter.None? then
      Ok(Emit([TokenMinted(p.ticketId, p.tokenId, p.receiver, p.amount)]))
    else if p.tokenId != ckbtcTokenId || p.transmuter.value != allbtcDenom then
      Err(CustomError(TransmuterUnsupported))
    else
      var swap := Swap(env.contractAddress, poolId, allbtcDenom, mintTokenDenom, p.amount, p.amount);
      Ok(Dispatch(SubMsg(SwapCkbtcToAllbtcReply, swap, swapMode, MintPayload(p))))
  }

  /** `reply_mint_token` as written: the swap is dispatched reply-on-error,
      so the host never calls back when it succeeds (see
      `Saga.AsWrittenSwapSuccessIsNeverReplied`). The dispatcher uses this
      one. */
  function ReplyMintToken(stored: Option<StoredState>, env: Env, payload: Payload): (r: Outcome<Response>)
    ensures r.Ok? && r.value.messages != [] ==> r.value.messages[0].replyOn == OnError
    ensures r == ReplyMintTokenWith(OnError, stored, env, payload)
  {
    ReplyMintTokenWith(OnError, stored, env, payload)
  }

  /** `reply_mint_token` with the swap dispatched reply-always, so that both
      the success branch (send the allBTC on) and the error branch (report
      `SwapCKBTCFailed`) of SWAP_CKBTC_TO_ALLBTC are reachable; the
      dispatch table with this mode is `ReplyStepWith(Always, ..)`. */
  function ReplyMintTokenIntended(stored: Option<StoredState>, env: Env, payload: Payload): (r: Outcome<Response>)
    ensures r.Ok? && r.value.messages != [] ==> r.value.messages[0].replyOn == Always
    ensures r == ReplyMintTokenWith(Always, stored, env, payload)
  {
    ReplyMintTokenWith(Always, stored, env, payload)
  }

  /** `reply_swap_ckbtc_to_allbtc`: exactly one bank send to the payload's
      receiver of the payload's amount read as a `u128`, reply-on-success,
      tagged SEND_ALLBTC and carrying the payload unchanged; an amount that
      is not a `u128` panics. */
  function ReplySwapCkbtcToAllbtc(stored: Option<StoredState>, env: Env, payload: Payload): (r: Outcome<Response>)
    ensures !payload.MintPayload? ==> r == Err(CustomError(DecodeFailure))
    ensures payload.MintPayload? && stored.None? ==> r == Panic(StateNotInitialized)
    ensures payload.MintPayload? && stored.Some? && Decimal.ParseU128(payload.mint.amount).None? ==>
      r == Panic(ParseUnwrapFailed)
    ensures r.Ok? <==> payload.MintPayload? && stored.Some? && Decimal.ParseU128(payload.mint.amount).Some?
    ensures r.Ok? ==>
      && r.value.events == [] && r.value.attributes == []
      && |r.value.messages| == 1
      && r.value.messages[0].id == SendAllbtcReply
      && r.value.messages[0].replyOn == OnSuccess
      && r.value.messages[0].payload == payload
      && r.value.messages[0].msg == BankSend(payload.mint.receiver,
                                             TokenDenom(env.contractAddress, Load(stored.value).allbtcTokenDenom),
                                             Decimal.ParseU128(payload.mint.amount).value)
  {
    var p :- DecodeMint(payload);
    var allBtcDenom :- ReadState(stored, (s: State) => s.allbtcTokenDenom);
    var amount := Decimal.ParseU128(p.amount);
    if amount.None? then Panic(ParseUnwrapFailed)
    else
      var bankMsg := BankSend(p.receiver, TokenDenom(env.contractAddress, allBtcDenom), amount.value);
      Ok(Dispatch(SubMsg(SendAllbtcReply, bankMsg, OnSuccess, MintPayload(p))))
  }

  /** The outbound ticket request `reply_swap_allbtc_to_ckbtc` builds. */
  function RedeemRequest(p: RedeemAllBTC, ckbtcTokenId: string, sequence: u64, env: Env): (req: GenerateTicketReq)
    ensures req.sequence == sequence && req.tokenId == ckbtcTokenId
    ensures req.action == RedeemIcpChainKeyAssets(CKBTC) && req.memo == None
    ensures req.sender == p.sender && req.receiver == p.receiver && req.amount == p.amount
    ensures req.targetChainId == p.targetChain && req.feeToken == p.feeToken && req.feeAmount == p.feeAmount
    ensures req.timestamp == env.blockTimeNanos && req.blockHeight == env.blockHeight
  {
    GenerateTicketReq(sequence, p.targetChain, p.sender, p.receiver, ckbtcTokenId, p.amount,
                      RedeemIcpChainKeyAssets(CKBTC), env.blockTimeNanos, env.blockHeight, None,
                      p.feeToken, p.feeAmount)
  }

  /** `reply_swap_allbtc_to_ckbtc` as a function of the stored record: it
      draws the current outbound sequence number, raises the counter by
      exactly one (and changes nothing else), and dispatches one burn of the
      payload's amount of ckBTC, reply-on-success, tagged REDEEM, carrying the
      request drawn. */
  function SwapAllbtcToCkbtcStep(stored: Option<StoredState>, env: Env, payload: Payload)
    : (r: Outcome<(Response, State)>)
    ensures !payload.RedeemAllPayload? ==> r == Err(CustomError(DecodeFailure))
    ensures payload.RedeemAllPayload? && stored.None? ==> r == Panic(StateNotInitialized)
    ensures payload.RedeemAllPayload? && stored.Some? && Load(stored.value).generateTicketSequence == U64_LIMIT - 1
      ==> r == Panic(AddOverflow)
    ensures r.Ok? <==> payload.RedeemAllPayload? && stored.Some? && Load(stored.value).generateTicketSequence < U64_LIMIT - 1
    ensures r.Ok? ==>
      var st := Load(stored.value);
      var p := payload.redeem;
      && r.value.1 == st.(generateTicketSequence := st.generateTicketSequence + 1)
      && r.value.0.events == [] && r.value.0.attributes == []
      && |r.value.0.messages| == 1
      && r.value.0.messages[0].id == RedeemReply
      && r.value.0.messages[0].replyOn == OnSuccess
      && r.value.0.messages[0].msg == BuiltBurn(env.contractAddress, env.contractAddress,
                                                TokenDenom(env.contractAddress, st.ckbtcTokenId), p.amount)
      && r.value.0.messages[0].payload == TicketPayload(RedeemRequest(p, st.ckbtcTokenId, st.generateTicketSequence, env))
  {
    var p :- DecodeRedeemAll(payload);
    var st :- ReadState(stored, (s: State) => s);
    var ckbtcDenom := TokenDenom(env.contractAddress, st.ckbtcTokenId);
    var burn := BuiltBurn(env.contractAddress, env.contractAddress, ckbtcDenom, p.amount);
    var currentSeq := st.generateTicketSequence;
    if currentSeq + 1 == U64_LIMIT then Panic(AddOverflow)
    else
      var req := RedeemRequest(p, st.ckbtcTokenId, currentSeq, env);
      Ok((Dispatch(SubMsg(RedeemReply, burn, OnSuccess, TicketPayload(req))),
          st.(generateTicketSequence := currentSeq + 1)))
  }

  /** `reply_error`: only events, never a dispatch; any id without an error
      branch is the `unreachable!()` panic. */
  function ReplyError(msg: ReplyMsg): (r: Outcome<Response>)
    ensures r.Ok? ==> r.value.messages == [] && r.value.attributes == [] && |r.value.events| == 1
    ensures msg.id == RedeemReply ==> r == Ok(Emit([RedeemFailed]))
    ensures msg.id == GenerateTicketReply ==> r == Ok(Emit([GenerateTicketFailed]))
    ensures msg.id == SwapCkbtcToAllbtcReply ==>
      if msg.payload.MintPayload? then
        var p := msg.payload.mint;
        r == Ok(Emit([SwapCkbtcFailed(p.ticketId, p.receiver, p.amount)]))
      else r == Err(CustomError(DecodeFailure))
    ensures msg.id == SwapAllbtcToCkbtcReply ==>
      if msg.payload.RedeemAllPayload? then
        var p := msg.payload.redeem;
        r == Ok(Emit([SwapAllbtcFailed(p.sender, p.receiver, p.amount, p.targetChain, p.feeToken, p.feeAmount)]))
      else r == Err(CustomError(DecodeFailure))
    ensures msg.id.MintTokenReply? || msg.id.SendAllbtcReply? || msg.id.OtherReply? ==> r == Panic(Unreachable)
  {
    match msg.id
    case RedeemReply => Ok(Emit([RedeemFailed]))
    case GenerateTicketReply => Ok(Emit([GenerateTicketFailed]))
    case SwapCkbtcToAllbtcReply =>
      var p :- DecodeMint(msg.payload);
      Ok(Emit([SwapCkbtcFailed(p.ticketId, p.receiver, p.amount)]))
    case SwapAllbtcToCkbtcReply =>
      var p :- DecodeRedeemAll(msg.payload);
      Ok(Emit([SwapAllbtcFailed(p.sender, p.receiver, p.amount, p.targetChain, p.feeToken, p.feeAmount)]))
    case _ => Panic(Unreachable)
  }

  /** `reply_success` as a function of the storage: the dispatch table of
      the success path, with the reply mode of the swap MINT_TOKEN dispatches
      as a parameter. Only REDEEM writes the ticket-request map (the decoded
      request under its own sequence number), only SWAP_ALLBTC_TO_CKBTC
      writes the state record, and a failure leaves the storage as it was. */
  function ReplySuccessStepWith(swapMode: ReplyOn, store: Store, env: Env, msg: ReplyMsg): (step: Step)
    ensures !step.result.Ok? ==> step.after == store
    ensures step.result.Ok? ==> |step.result.value.messages| <= 1
    ensures msg.id == RedeemReply ==>
      && step.after.state == store.state
      && (msg.payload.TicketPayload? ==>
            var req := msg.payload.request;
            && step.result == Ok(Emit(RedeemRequestedEvents(req)))
            && step.after.generateTicketReq == store.generateTicketReq[req.sequence := req])
      && (!msg.payload.TicketPayload? ==> step.result == Err(CustomError(DecodeFailure)))
    ensures msg.id != RedeemReply ==> step.after.generateTicketReq == store.generateTicketReq
    ensures msg.id != SwapAllbtcToCkbtcReply ==> step.after.state == store.state
    ensures msg.id == GenerateTicketReply ==> step.result == ReplyGenerateTicket(msg.payload)
    ensures msg.id == MintTokenReply ==> step.result == ReplyMintTokenWith(swapMode, store.state, env, msg.payload)
    ensures msg.id == SwapCkbtcToAllbtcReply ==> step.result == ReplySwapCkbtcToAllbtc(store.state, env, msg.payload)
    ensures msg.id == SwapAllbtcToCkbtcReply ==>
      var o := SwapAllbtcToCkbtcStep(store.state, env, msg.payload);
      step.result == ResponseOf(o) && step.after.state == Commit(o, store.state)
    ensures msg.id == SendAllbtcReply ==> step.result == ReplySendAllbtc(msg.payload)
    ensures msg.id.OtherReply? ==> step.result == Panic(Unreachable)
  {
    match msg.id
    case RedeemReply =>
      var d := DecodeTicket(msg.payload);
      if d.Ok? then
        Step(Ok(Emit(RedeemRequestedEvents(d.value))),
             store.(generateTicketReq := store.generateTicketReq[d.value.sequence := d.value]))
      else Step(d.PropagateFailure(), store)
    case GenerateTicketReply => Step(ReplyGenerateTicket(msg.payload), store)
    case MintTokenReply => Step(ReplyMintTokenWith(swapMode, store.state, env, msg.payload), store)
    case SwapCkbtcToAllbtcReply => Step(ReplySwapCkbtcToAllbtc(store.state, env, msg.payload), store)
    case SwapAllbtcToCkbtcReply =>
      var o := SwapAllbtcToCkbtcStep(store.state, env, msg.payload);
      Step(ResponseOf(o), store.(state := Commit(o, store.state)))
    case SendAllbtcReply => Step(ReplySendAllbtc(msg.payload), store)
    case OtherReply(_) => Step(Panic(Unreachable), store)
  }

  /** `reply_success` as written: MINT_TOKEN dispatches its swap
      reply-on-error. */
  function ReplySuccessStep(store: Store, env: Env, msg: ReplyMsg): (step: Step)
    ensures msg.id == MintTokenReply ==> step.result == ReplyMintToken(store.state, env, msg.payload)
    ensures step == ReplySuccessStepWith(OnError, store, env, msg)
  {
    ReplySuccessStepWith(OnError, store, env, msg)
  }

  /** `reply` as a function of the storage: the success table exactly when
      the result is Ok, the error table (which writes nothing) otherwise. */
  function ReplyStepWith(swapMode: ReplyOn, store: Store, env: Env, msg: ReplyMsg): (step: Step)
    ensures msg.result.Success? ==> step == ReplySuccessStepWith(swapMode, store, env, msg)
    ensures msg.result.Failure? ==> step == Step(ReplyError(msg), store)
    ensures !step.result.Ok? ==> step.after == store
    ensures step.result.Ok? ==> |step.result.value.messages| <= 1
  {
    if msg.result.Success? then ReplySuccessStepWith(swapMode, store, env, msg) else Step(ReplyError(msg), store)
  }

  /** `reply` as written. */
  function ReplyStep(store: Store, env: Env, msg: ReplyMsg): (step: Step)
    ensures msg.result.Success? ==> step == ReplySuccessStep(store, env, msg)
    ensures msg.result.Failure? ==> step == Step(ReplyError(msg), store)
    ensures step == ReplyStepWith(OnError, store, env, msg)
  {
    ReplyStepWith(OnError, store, env, msg)
  }

  /** Whatever the swap mode, no callback lowers the outbound sequence
      counter or changes any other field of the state record, and none
      removes or alters a stored ticket request other than the one a REDEEM
      callback stores under its request's own sequence. */
  lemma ReplyKeepsCounterMonotone(swapMode: ReplyOn, store: Store, env: Env, msg: ReplyMsg)
    ensures var after := ReplyStepWith(swapMode, store, env, msg).after;
      && (store.state.None? <==> after.state.None?)
      && (store.state.Some? ==>
            var before, now := Load(store.state.value), Load(after.state.value);
            && before.generateTicketSequence <= now.generateTicketSequence <= before.generateTicketSequence + 1
            && now == before.(generateTicketSequence := now.generateTicketSequence))
      && store.generateTicketReq.Keys <= after.generateTicketReq.Keys
      && |after.generateTicketReq.Keys - store.generateTicketReq.Keys| <= 1
      && (forall k :: k in store.generateTicketReq ==>
            after.generateTicketReq[k] == store.generateTicketReq[k]
            || (msg.id == RedeemReply && msg.payload.TicketPayload? && k == msg.payload.request.sequence))
  {
  }

  /** `reply`: Ok goes to `ReplySuccess`, anything else to `ReplyError`. */
  method Reply(deps: Storage, env: Env, msg: ReplyMsg) returns (r: Outcome<Response>)
    modifies deps
    ensures Step(r, deps.View()) == ReplyStep(old(deps.View()), env, msg)
    ensures msg.result.Failure? ==> r == ReplyError(msg) && deps.View() == old(deps.View())
  {
    if msg.result.Success? {
      r := ReplySuccess(deps, env, msg);
    } else {
      r := ReplyError(msg);
    }
  }

  /** `reply_success`, writing the storage in place. */
  method ReplySuccess(deps: Storage, env: Env, msg: ReplyMsg) returns (r: Outcome<Response>)
    modifies deps
    ensures Step(r, deps.View()) == ReplySuccessStep(old(deps.View()), env, msg)
  {
    match msg.id
    case RedeemReply =>
      var req :- DecodeTicket(msg.payload);
      deps.generateTicketReq := deps.generateTicketReq[req.sequence := req];
      r := Ok(Emit(RedeemRequestedEvents(req)));
    case GenerateTicketReply =>
      r := ReplyGenerateTicket(msg.payload);
    case MintTokenReply =>
      r := ReplyMintToken(deps.state, env, msg.payload);
    case SwapCkbtcToAllbtcReply =>
      r := ReplySwapCkbtcToAllbtc(deps.state, env, msg.payload);
    case SwapAllbtcToCkbtcReply =>
      r := ReplySwapAllbtcToCkbtc(deps, env, msg);
    case SendAllbtcReply =>
      r := ReplySendAllbtc(msg.payload);
    case OtherReply(_) =>
      r := Panic(Unreachable);
  }

  /** `reply_swap_allbtc_to_ckbtc`: loads the state, raises
      `generate_ticket_sequence` by one and saves it, then dispatches the
      burn for the request it drew. */
  method ReplySwapAllbtcToCkbtc(deps: Storage, env: Env, msg: ReplyMsg) returns (r: Outcome<Response>)
    modifies deps
    ensures var o := SwapAllbtcToCkbtcStep(old(deps.state), env, msg.payload);
      r == ResponseOf(o) && deps.state == Commit(o, old(deps.state))
    ensures deps.generateTicketReq == old(deps.generateTicketReq)
  {
    var redeemAllbtc :- DecodeRedeemAll(msg.payload);
    var ids :- ReadState(deps.state, (s: State) => (s.allbtcSwapPoolId, s.allbtcTokenDenom, s.ckbtcTokenId));
    var ckbtcTokenId := ids.2;
    var ckbtcDenom := TokenDenom(env.contractAddress, ckbtcTokenId);
    var burnMsg := BuiltBurn(env.contractAddress, env.contractAddress, ckbtcDenom, redeemAllbtc.amount);

    var state := Load(deps.state.value);
    var currentSeq: nat := state.generateTicketSequence;
    if currentSeq + 1 == U64_LIMIT {
      return Panic(AddOverflow);
    }
    state := state.(generateTicketSequence := currentSeq + 1);
    deps.state := Some(Saved(state));

    var req := RedeemRequest(redeemAllbtc, ckbtcTokenId, currentSeq, env);
    r := Ok(Dispatch(SubMsg(RedeemReply, burnMsg, OnSuccess, TicketPayload(req))));
  }
}
