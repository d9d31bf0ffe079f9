/** The entry handlers of src/contract.rs: `instantiate`, the `execute`
    dispatch, the `AddToken` directive, `privilege_mint_token` and
    `redeem_token`. Each handler that writes state has a pure step function
    that gives its response and new record from the old one; the method reads
    and writes the storage as the source does and is proved equal to it. */
module Contract {
  import opened Common
  import opened Error
  import opened State
  import opened Host
  import Msg

  /** The record `instantiate` writes: the contract.rs state struct, which
      has none of the defaulted fields. */
  function InitialRecord(msg: Msg.InstantiateMsg): (stored: StoredState)
    ensures Load(stored) == State(msg.owner, msg.chainKey, map[], {}, map[], 0, "", "", 0, map[])
  {
    StoredState(msg.owner, msg.chainKey, map[], {}, None, None, None, None, None, None)
  }

  method Instantiate(deps: Storage, env: Env, info: MessageInfo, msg: Msg.InstantiateMsg)
    returns (r: Outcome<Response>)
    modifies deps
    ensures deps.state == Some(InitialRecord(msg))
    ensures deps.generateTicketReq == old(deps.generateTicketReq)
    ensures r == Ok(Response([], [], [Attribute("method", "instantiate"), Attribute("owner", msg.owner)]))
  {
    deps.state := Some(InitialRecord(msg));
    r := Ok(Response([], [], [Attribute("method", "instantiate"), Attribute("owner", msg.owner)]));
  }

  /** The denom the token factory gives subdenom `name` of `contract`. */
  function FactoryDenom(contract: Addr, name: string): string {
    "factory/" + contract + "/" + name
  }

  /** The `AddToken` directive: owner check, then duplicate check, then the
      insert and one create-denom request. */
  function AddTokenStep(stored: Option<StoredState>, env: Env, info: MessageInfo, tokenId: string, name: string)
    : (r: Outcome<(Response, State)>)
    ensures stored.None? ==> r == Panic(StateNotInitialized)
    ensures stored.Some? && Load(stored.value).owner != info.sender ==> r == Err(Unauthorized)
    ensures stored.Some? && Load(stored.value).owner == info.sender && tokenId in Load(stored.value).tokens
      ==> r == Err(TokenAleardyExist)
    ensures r.Ok? <==> stored.Some? && Load(stored.value).owner == info.sender && tokenId !in Load(stored.value).tokens
    ensures r.Ok? ==>
      var st := Load(stored.value);
      && r.value.1 == st.(tokens := r.value.1.tokens)
      && r.value.1.tokens.Keys == st.tokens.Keys + {tokenId}
      && r.value.1.tokens[tokenId] == Token(FactoryDenom(env.contractAddress, name))
      && (forall k :: k in st.tokens ==> r.value.1.tokens[k] == st.tokens[k])
      && r.value.0.messages == [Message(CreateDenom(env.contractAddress, name))]
      && r.value.0.events == []
      && r.value.0.attributes == [Attribute("action", "add token"), Attribute("token_id", tokenId)]
  {
    var notOwner :- ReadState(stored, (s: State) => s.owner != info.sender);
    if notOwner then Err(Unauthorized)
    else
      var st := Load(stored.value);
      if tokenId in st.tokens then Err(TokenAleardyExist)
      else
        var sender := env.contractAddress;
        var st' := st.(tokens := st.tokens[tokenId := Token(FactoryDenom(sender, name))]);
        Ok((Response([Message(CreateDenom(sender, name))], [],
                     [Attribute("action", "add token"), Attribute("token_id", tokenId)]), st'))
  }

  /** `privilege_mint_token`: owner check, then token lookup, then ticket
      dedup; on success the ticket is marked handled and one mint of `amount`
      in the token's denom to `receiver` is issued. */
  function PrivilegeMintStep(stored: Option<StoredState>, env: Env, info: MessageInfo,
                             ticketId: string, tokenId: string, receiver: Addr, amount: string)
    : (r: Outcome<(Response, State)>)
    ensures stored.None? ==> r == Panic(StateNotInitialized)
    ensures stored.Some? && Load(stored.value).owner != info.sender ==> r == Err(Unauthorized)
    ensures stored.Some? && Load(stored.value).owner == info.sender && tokenId !in Load(stored.value).tokens
      ==> r == Err(TokenNotFound)
    ensures (stored.Some? && Load(stored.value).owner == info.sender && tokenId in Load(stored.value).tokens
             && ticketId in Load(stored.value).handledTickets) ==> r == Err(TicketAlreadyHandled)
    ensures r.Ok? <==> (stored.Some? && Load(stored.value).owner == info.sender
                        && tokenId in Load(stored.value).tokens && ticketId !in Load(stored.value).handledTickets)
    ensures r.Ok? ==>
      var st := Load(stored.value);
      && r.value.1 == st.(handledTickets := st.handledTickets + {ticketId})
      && r.value.0.messages == [Message(MintTokens(env.contractAddress, Named(st.tokens[tokenId].denom), amount, receiver))]
      && r.value.0.events == [TokenMinted(ticketId, tokenId, receiver, amount)]
      && r.value.0.attributes == []
  {
    var notOwner :- ReadState(stored, (s: State) => s.owner != info.sender);
    if notOwner then Err(Unauthorized)
    else
      var st := Load(stored.value);
      if tokenId !in st.tokens then Err(TokenNotFound)
      else if ticketId in st.handledTickets then Err(TicketAlreadyHandled)
      else
        var token := st.tokens[tokenId];
        var st' := st.(handledTickets := st.handledTickets + {ticketId});
        Ok((Response([Message(MintTokens(env.contractAddress, Named(token.denom), amount, receiver))],
                     [TokenMinted(ticketId, tokenId, receiver, amount)], []), st'))
  }

  /** `redeem_token`: one burn of `amount` in the token's denom from the
      sender; reads the state and writes nothing. */
  function RedeemToken(stored: Option<StoredState>, env: Env, info: MessageInfo,
                       tokenId: string, receiver: string, amount: string): (r: Outcome<Response>)
    ensures stored.None? ==> r == Panic(StateNotInitialized)
    ensures r.Ok? <==> stored.Some? && tokenId in Load(stored.value).tokens
    ensures stored.Some? && tokenId !in Load(stored.value).tokens ==> r == Err(TokenNotFound)
    ensures r.Ok? ==>
      && r.value.messages == [Message(BurnTokens(env.contractAddress, Named(Load(stored.value).tokens[tokenId].denom),
                                                 amount, info.sender))]
      && r.value.events == [TokenBurned(tokenId, info.sender, receiver, amount)]
      && r.value.attributes == []
  {
    var found :- ReadState(stored, (s: State) => if tokenId in s.tokens then Ok(s.tokens[tokenId]) else Err(TokenNotFound));
    var token :- found;
    Ok(Response([Message(BurnTokens(env.contractAddress, Named(token.denom), amount, info.sender))],
                [TokenBurned(tokenId, info.sender, receiver, amount)], []))
  }

  method ExecDirective(deps: Storage, env: Env, info: MessageInfo, directive: Msg.Directive, signature: seq<u8>)
    returns (r: Outcome<Response>)
    modifies deps
    ensures var step := AddTokenStep(old(deps.state), env, info, directive.tokenId, directive.name);
      r == ResponseOf(step) && deps.state == Commit(step, old(deps.state))
    ensures deps.generateTicketReq == old(deps.generateTicketReq)
  {
    match directive
    case AddToken(tokenId, name) =>
      // Every `read_state` of the handler sees this one record.
      var state :- ReadState(deps.state, (s: State) => s);
      if state.owner != info.sender {
        return Err(Unauthorized);
      }
      if tokenId in state.tokens {
        return Err(TokenAleardyExist);
      }
      var sender := env.contractAddress;
      var denom := FactoryDenom(sender, name);
      state := state.(tokens := state.tokens[tokenId := Token(denom)]);
      deps.state := Some(Saved(state));
      r := Ok(Response([Message(CreateDenom(sender, name))], [],
                       [Attribute("action", "add token"), Attribute("token_id", tokenId)]));
  }

  method PrivilegeMintToken(deps: Storage, env: Env, info: MessageInfo,
                            ticketId: string, tokenId: string, receiver: Addr, amount: string)
    returns (r: Outcome<Response>)
    modifies deps
    ensures var step := PrivilegeMintStep(old(deps.state), env, info, ticketId, tokenId, receiver, amount);
      r == ResponseOf(step) && deps.state == Commit(step, old(deps.state))
    ensures deps.generateTicketReq == old(deps.generateTicketReq)
  {
    var state :- ReadState(deps.state, (s: State) => s);
    if state.owner != info.sender {
      return Err(Unauthorized);
    }
    if tokenId !in state.tokens {
      return Err(TokenNotFound);
    }
    var token := state.tokens[tokenId];
    if ticketId in state.handledTickets {
      return Err(TicketAlreadyHandled);
    }
    state := state.(handledTickets := state.handledTickets + {ticketId});
    deps.state := Some(Saved(state));
    r := Ok(Response([Message(MintTokens(env.contractAddress, Named(token.denom), amount, receiver))],
                     [TokenMinted(ticketId, tokenId, receiver, amount)], []));
  }

  /** `execute`: the message decides the handler; `RedeemToken` writes no storage. */
  method Execute(deps: Storage, env: Env, info: MessageInfo, msg: Msg.ExecuteMsg) returns (r: Outcome<Response>)
    modifies deps
    ensures msg.ExecDirective? ==>
      var step := AddTokenStep(old(deps.state), env, info, msg.directive.tokenId, msg.directive.name);
      r == ResponseOf(step) && deps.state == Commit(step, old(deps.state))
    ensures msg.PrivilegeMintToken? ==>
      var step := PrivilegeMintStep(old(deps.state), env, info, msg.ticketId, msg.tokenId, msg.receiver, msg.amount);
      r == ResponseOf(step) && deps.state == Commit(step, old(deps.state))
    ensures msg.RedeemToken? ==>
      r == RedeemToken(old(deps.state), env, info, msg.tokenId, msg.receiver, msg.amount)
      && deps.state == old(deps.state)
    ensures deps.generateTicketReq == old(deps.generateTicketReq)
  {
    match msg
    case ExecDirective(directive, signature) =>
      r := ExecDirective(deps, env, info, directive, signature);
    case PrivilegeMintToken(ticketId, tokenId, receiver, amount) =>
      r := PrivilegeMintToken(deps, env, info, ticketId, tokenId, receiver, amount);
    case RedeemToken(tokenId, receiver, amount) =>
      r := RedeemToken(deps.state, env, info, tokenId, receiver, amount);
  }

  /** A token id is registered at most once: once a successful `AddToken`
      has been saved, another `AddToken` for the same id fails, whatever
      name it gives. */
  lemma AddTokenIsOnce(stored: Option<StoredState>, env: Env, info: MessageInfo,
                          tokenId: string, name: string, name2: string)
    requires AddTokenStep(stored, env, info, tokenId, name).Ok?
    ensures var st := AddTokenStep(stored, env, info, tokenId, name).value.1;
      AddTokenStep(Some(Saved(st)), env, info, tokenId, name2) == Err(TokenAleardyExist)
  {
  }

  /** Ticket idempotency: after a successful mint, the same ticket from the
      owner is refused with `TicketAlreadyHandled` (so no second mint is
      issued), whatever receiver and amount it names. */
  lemma TicketReplayRejected(stored: Option<StoredState>, env: Env, info: MessageInfo,
                               ticketId: string, tokenId: string, receiver: Addr, amount: string,
                               receiver2: Addr, amount2: string)
    requires PrivilegeMintStep(stored, env, info, ticketId, tokenId, receiver, amount).Ok?
    ensures var st := PrivilegeMintStep(stored, env, info, ticketId, tokenId, receiver, amount).value.1;
      PrivilegeMintStep(Some(Saved(st)), env, info, ticketId, tokenId, receiver2, amount2) == Err(TicketAlreadyHandled)
  {
  }

  /** The mint is sent without a reply, so when it fails the host discards
      the whole invocation, the ticket mark with it: the record is the one
      before the call, and the same ticket can be submitted again and
      minted. When the mint succeeds the mark stays and a replay is
      refused. */
  lemma FailedMintLeavesTicketRetryable(stored: Option<StoredState>, env: Env, info: MessageInfo,
                                        ticketId: string, tokenId: string, receiver: Addr, amount: string,
                                        error: string)
    requires PrivilegeMintStep(stored, env, info, ticketId, tokenId, receiver, amount).Ok?
    ensures var step := PrivilegeMintStep(stored, env, info, ticketId, tokenId, receiver, amount);
      var failed := Kept(stored, Commit(step, stored), ResponseOf(step), Failure(error));
      && failed == stored
      && PrivilegeMintStep(failed, env, info, ticketId, tokenId, receiver, amount) == step
    ensures var step := PrivilegeMintStep(stored, env, info, ticketId, tokenId, receiver, amount);
      var minted := Kept(stored, Commit(step, stored), ResponseOf(step), Success);
      && minted == Some(Saved(step.value.1))
      && PrivilegeMintStep(minted, env, info, ticketId, tokenId, receiver, amount) == Err(TicketAlreadyHandled)
  {
  }

  /** A token added by `AddToken` can then be minted and redeemed, both in
      the factory denom built from the contract address and the name. */
  lemma AddedTokenMintsAndBurnsInFactoryDenom(
    stored: Option<StoredState>, env: Env, owner: MessageInfo, user: MessageInfo,
    tokenId: string, name: string, ticketId: string, receiver: Addr, amount: string)
    requires AddTokenStep(stored, env, owner, tokenId, name).Ok?
    requires ticketId !in Load(stored.value).handledTickets
    ensures var st := AddTokenStep(stored, env, owner, tokenId, name).value.1;
      var denom := Named(FactoryDenom(env.contractAddress, name));
      && PrivilegeMintStep(Some(Saved(st)), env, owner, ticketId, tokenId, receiver, amount).Ok?
      && PrivilegeMintStep(Some(Saved(st)), env, owner, ticketId, tokenId, receiver, amount).value.0.messages
         == [Message(MintTokens(env.contractAddress, denom, amount, receiver))]
      && RedeemToken(Some(Saved(st)), env, user, tokenId, receiver, amount).Ok?
      && RedeemToken(Some(Saved(st)), env, user, tokenId, receiver, amount).value.messages
         == [Message(BurnTokens(env.contractAddress, denom, amount, user.sender))]
  {
  }

  /** The handled-ticket set only grows under `execute`: the AddToken
      directive leaves it as it was, and a mint adds at most its own ticket
      (`redeem_token` writes nothing; `instantiate`, run once, starts the set
      empty). */
  lemma HandledTicketsOnlyGrow(stored: Option<StoredState>, env: Env, info: MessageInfo, msg: Msg.ExecuteMsg)
    requires stored.Some?
    ensures msg.ExecDirective? ==>
      var s := Commit(AddTokenStep(stored, env, info, msg.directive.tokenId, msg.directive.name), stored);
      Load(s.value).handledTickets == Load(stored.value).handledTickets
    ensures msg.PrivilegeMintToken? ==>
      var s := Commit(PrivilegeMintStep(stored, env, info, msg.ticketId, msg.tokenId, msg.receiver, msg.amount), stored);
      Load(s.value).handledTickets - Load(stored.value).handledTickets <= {msg.ticketId}
      && Load(stored.value).handledTickets <= Load(s.value).handledTickets
  {
  }
}
