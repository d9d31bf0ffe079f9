/** The multi-step workflows of src/reply.rs, followed through the host's
    rules: a dispatched operation is delivered back, with its payload,
    according to its reply mode (`Host.Callback`), and a failure that is not
    delivered discards the writes of the invocation that dispatched it
    (`Host.Settles`, `Host.Kept`). */
module Saga {
  import opened Common
  import opened Error
  import opened Types
  import opened State
  import opened Host
  import Decimal
  import opened Reply

  /** A mint payload that asks for ckBTC to be transmuted into allBTC. */
  predicate AsksTransmute(st: State, p: MintTokenPayload) {
    p.tokenId == st.ckbtcTokenId && p.transmuter == Some(st.allbtcTokenDenom)
  }

  /** With the swap replied to always, a successful mint of ckBTC with a
      transmuter runs the whole chain: swap → bank send of the same amount
      to the same receiver → `TokenMinted` for the same ticket, and no step
      writes storage. */
  lemma MintSagaCompletes(store: Store, env: Env, p: MintTokenPayload)
    requires store.state.Some? && AsksTransmute(Load(store.state.value), p)
    requires Decimal.ParseU128(p.amount).Some?
    ensures
      var first := ReplyStepWith(Always, store, env, ReplyMsg(MintTokenReply, Success, MintPayload(p)));
      && first.after == store && first.result.Ok? && |first.result.value.messages| == 1
      && var swap := first.result.value.messages[0];
      && swap.msg.Swap? && swap.msg.tokenInAmount == p.amount
      && Callback(swap, Success).Some?
      && var second := ReplyStepWith(Always, store, env, Callback(swap, Success).value);
      && second.after == store && second.result.Ok? && |second.result.value.messages| == 1
      && var send := second.result.value.messages[0];
      && send.msg.BankSend? && send.msg.toAddress == p.receiver
      && send.msg.coinAmount == Decimal.ParseU128(p.amount).value
      && Callback(send, Success).Some?
      && var third := ReplyStepWith(Always, store, env, Callback(send, Success).value);
      && third.after == store
      && third.result == Ok(Emit([TokenMinted(p.ticketId, p.tokenId, p.receiver, p.amount)]))
  {
  }

  /** In either mode that replies to errors (as written, and reply-always),
      a failed swap reports `SwapCKBTCFailed` for the same ticket and
      dispatches nothing more. */
  lemma MintSagaReportsFailedSwap(swapMode: ReplyOn, store: Store, env: Env, p: MintTokenPayload, error: string)
    requires swapMode == OnError || swapMode == Always
    requires store.state.Some? && AsksTransmute(Load(store.state.value), p)
    ensures
      var first := ReplyStepWith(swapMode, store, env, ReplyMsg(MintTokenReply, Success, MintPayload(p)));
      && first.result.Ok? && |first.result.value.messages| == 1
      && var swap := first.result.value.messages[0];
      && Callback(swap, Failure(error)).Some?
      && var second := ReplyStepWith(swapMode, store, env, Callback(swap, Failure(error)).value);
      && second.after == store
      && second.result == Ok(Emit([SwapCkbtcFailed(p.ticketId, p.receiver, p.amount)]))
  {
  }

  /** As written, the MINT_TOKEN callback dispatches the swap reply-on-error
      only: when the swap succeeds no callback arrives, so no bank send is
      dispatched and `TokenMinted` is never emitted for a transmuted mint;
      the swapped allBTC stays with the contract. */
  lemma AsWrittenSwapSuccessIsNeverReplied(store: Store, env: Env, p: MintTokenPayload)
    requires store.state.Some? && AsksTransmute(Load(store.state.value), p)
    ensures
      var first := ReplyStep(store, env, ReplyMsg(MintTokenReply, Success, MintPayload(p)));
      && first.after == store && first.result.Ok?
      && |first.result.value.messages| == 1 && first.result.value.events == []
      && first.result.value.messages[0].replyOn == OnError
      && Callback(first.result.value.messages[0], Success).None?
  {
  }

  /** A concrete case of the above: the ckBTC token "ckbtc" transmuted to
      "allbtc" through pool 1. */
  lemma AsWrittenTransmuteStalls()
    ensures
      var stored := StoredState("owner", [], map[], {}, None, None, Some("ckbtc"), Some("allbtc"), Some(1), None);
      var p := MintTokenPayload("ticket-1", "ckbtc", "osmo1receiver", "100", Some("allbtc"));
      var first := ReplyStep(Store(Some(stored), map[]), Env("osmo1contract", 0, 0), ReplyMsg(MintTokenReply, Success, MintPayload(p)));
      first.result.Ok? && Callback(first.result.value.messages[0], Success).None?
  {
  }

  /** The host's confirmation of a successful allBTC → ckBTC swap. */
  function SwapConfirmation(intent: RedeemAllBTC): (msg: ReplyMsg)
    ensures msg.id == SwapAllbtcToCkbtcReply && msg.result == Success && DecodeRedeemAll(msg.payload) == Ok(intent)
  {
    ReplyMsg(SwapAllbtcToCkbtcReply, Success, RedeemAllPayload(intent))
  }

  /** A successful allBTC → ckBTC swap leads to a burn; its confirmation
      stores the request drawn under the sequence number the counter held
      before, with the redeem's sender, receiver, amount, target chain and
      fee copied, and emits `RedeemRequested` then `GenerateTicketRequested`.
      A failed burn is never replied to, and the host then discards the swap
      callback's counter increment. */
  lemma RedeemSagaRecordsRequest(store: Store, env: Env, r: RedeemAllBTC, error: string)
    requires store.state.Some? && Load(store.state.value).generateTicketSequence < U64_LIMIT - 1
    ensures
      var st := Load(store.state.value);
      var first := ReplyStep(store, env, SwapConfirmation(r));
      && first.result.Ok? && |first.result.value.messages| == 1
      && first.after.state.Some?
      && Load(first.after.state.value) == st.(generateTicketSequence := st.generateTicketSequence + 1)
      && var burn := first.result.value.messages[0];
      && burn.msg == BuiltBurn(env.contractAddress, env.contractAddress,
                               TokenDenom(env.contractAddress, st.ckbtcTokenId), r.amount)
      && Callback(burn, Failure(error)).None?
      && Kept(store, first.after, first.result, Failure(error)) == store
      && Callback(burn, Success).Some?
      && Kept(store, first.after, first.result, Success) == first.after
      && var second := ReplyStep(first.after, env, Callback(burn, Success).value);
      && var req := RedeemRequest(r, st.ckbtcTokenId, st.generateTicketSequence, env);
      && second.after.state == first.after.state
      && second.after.generateTicketReq == store.generateTicketReq[st.generateTicketSequence := req]
      && second.result == Ok(Emit([RedeemRequested(st.ckbtcTokenId, r.sender, r.receiver, r.amount, r.targetChain),
                                   GenerateTicketRequested(req, "")]))
  {
  }

  /** The sequence number of the request an outcome's only dispatched
      operation carries, or -1 when there is none. */
  function DrawnSequence(r: Outcome<Response>): int {
    if r.Ok? && |r.value.messages| == 1 && r.value.messages[0].payload.TicketPayload?
    then r.value.messages[0].payload.request.sequence as int
    else -1
  }

  /** One redeem after its swap has succeeded: the swap confirmation, then
      the burn it dispatches ending with `burn`. A successful burn is
      confirmed by the REDEEM callback, which stores the request; a failed
      one is not replied to, and the host discards the swap confirmation's
      writes. The outcome of the swap confirmation comes with the storage
      left. */
  function RedeemRound(store: Store, env: Env, intent: RedeemAllBTC, burn: SubMsgResult): (out: (Store, Outcome<Response>))
    ensures store.state.Some? && Load(store.state.value).generateTicketSequence < U64_LIMIT - 1 ==>
      var st := Load(store.state.value);
      var sequence := st.generateTicketSequence;
      && DrawnSequence(out.1) == sequence
      && (burn.Failure? ==> out.0 == store)
      && (burn.Success? ==>
            && out.0.state == Some(Saved(st.(generateTicketSequence := sequence + 1)))
            && out.0.generateTicketReq
               == store.generateTicketReq[sequence := RedeemRequest(intent, st.ckbtcTokenId, sequence, env)])
  {
    var step := ReplyStep(store, env, SwapConfirmation(intent));
    var kept := Kept(store, step.after, step.result, burn);
    var confirmation := if step.result.Ok? && step.result.value.messages != []
                        then Callback(step.result.value.messages[0], burn) else None;
    (if confirmation.Some? then ReplyStep(kept, env, confirmation.value).after else kept, step.result)
  }

  /** Rounds applied one after another, each to the storage the previous
      one left, the i-th ending its burn with `burns[i]`: the final storage
      and each round's outcome, in order. */
  function RunRounds(round: (Store, RedeemAllBTC, SubMsgResult) -> (Store, Outcome<Response>),
                     store: Store, intents: seq<RedeemAllBTC>, burns: seq<SubMsgResult>)
    : (out: (Store, seq<Outcome<Response>>))
    requires |burns| == |intents|
    ensures |out.1| == |intents|
    decreases |intents|
  {
    if intents == [] then (store, [])
    else
      var first := round(store, intents[0], burns[0]);
      var rest := RunRounds(round, first.0, intents[1..], burns[1..]);
      (rest.0, [first.1] + rest.1)
  }

  /** The redeem round of `env`, as a function. */
  function RedeemRounds(env: Env): (Store, RedeemAllBTC, SubMsgResult) -> (Store, Outcome<Response>) {
    (s: Store, i: RedeemAllBTC, b: SubMsgResult) => RedeemRound(s, env, i, b)
  }

  /** Successive redeems, each applied to the storage the previous one left,
      the i-th burn ending with `burns[i]`: the swap confirmations' outcomes
      in order and the final storage. */
  function RunRedeemSwaps(store: Store, env: Env, intents: seq<RedeemAllBTC>, burns: seq<SubMsgResult>)
    : (out: (Store, seq<Outcome<Response>>))
    requires |burns| == |intents|
    ensures |out.1| == |intents|
  {
    RunRounds(RedeemRounds(env), store, intents, burns)
  }

  /** What one redeem round does to a record whose counter has room: it
      draws the counter; a confirmed burn raises the counter by one and
      stores the request under the number drawn, and a failed one changes
      nothing. */
  predicate RoundDoes(store: Store, env: Env, intent: RedeemAllBTC, burn: SubMsgResult,
                      out: (Store, Outcome<Response>))
    requires store.state.Some? && Load(store.state.value).generateTicketSequence < U64_LIMIT - 1
  {
    var st := Load(store.state.value);
    var k := st.generateTicketSequence;
    && DrawnSequence(out.1) == k
    && out.0.state.Some?
    && Load(out.0.state.value) == st.(generateTicketSequence := k + if burn.Success? then 1 else 0)
    && out.0.generateTicketReq
       == if burn.Success? then store.generateTicketReq[k := RedeemRequest(intent, st.ckbtcTokenId, k, env)]
          else store.generateTicketReq
  }

  /** A round function that behaves as `RoundDoes` says on every record
      whose counter has room. */
  ghost predicate RoundsAsRedeem(round: (Store, RedeemAllBTC, SubMsgResult) -> (Store, Outcome<Response>), env: Env) {
    forall s: Store, i: RedeemAllBTC, b: SubMsgResult ::
      s.state.Some? && Load(s.state.value).generateTicketSequence < U64_LIMIT - 1 ==> RoundDoes(s, env, i, b, round(s, i, b))
  }

  /** One redeem round, through the dispatcher and the host's rules, does
      what `RoundDoes` says. */
  lemma RedeemRoundDoes(store: Store, env: Env, intent: RedeemAllBTC, burn: SubMsgResult)
    requires store.state.Some? && Load(store.state.value).generateTicketSequence < U64_LIMIT - 1
    ensures RoundDoes(store, env, intent, burn, RedeemRound(store, env, intent, burn))
  {
    var st := Load(store.state.value);
    LoadSaved(st.(generateTicketSequence := st.generateTicketSequence + 1));
  }

  lemma RedeemRoundsAsRedeem(env: Env)
    ensures RoundsAsRedeem(RedeemRounds(env), env)
  {
    forall s: Store, i: RedeemAllBTC, b: SubMsgResult
      | s.state.Some? && Load(s.state.value).generateTicketSequence < U64_LIMIT - 1
      ensures RoundDoes(s, env, i, b, RedeemRounds(env)(s, i, b))
    {
      RedeemRoundDoes(s, env, i, b);
    }
  }

  /** The number of burns that succeeded. */
  function Confirmed(burns: seq<SubMsgResult>): (c: nat)
    ensures c <= |burns|
  {
    if burns == [] then 0 else (if burns[0].Success? then 1 else 0) + Confirmed(burns[1..])
  }

  lemma {:induction false} ConfirmedAppend(a: seq<SubMsgResult>, b: seq<SubMsgResult>)
    ensures Confirmed(a + b) == Confirmed(a) + Confirmed(b)
    decreases |a|
  {
    if a == [] {
      assert a + b == b;
    } else {
      assert (a + b)[0] == a[0];
      assert (a + b)[1..] == a[1..] + b;
      ConfirmedAppend(a[1..], b);
    }
  }

  /** The number of burns that succeeded before the i-th, in terms of the
      rest of the run. */
  lemma ConfirmedPrefix(burns: seq<SubMsgResult>, i: int)
    requires 0 < i <= |burns|
    ensures Confirmed(burns[..i]) == (if burns[0].Success? then 1 else 0) + Confirmed(burns[1..][..i - 1])
  {
    assert burns[..i] == [burns[0]] + burns[1..][..i - 1];
    ConfirmedAppend([burns[0]], burns[1..][..i - 1]);
  }

  /** Rounds that behave as redeems raise the counter by the number of
      burns that succeeded and change nothing else in the record. */
  lemma {:induction false} RoundsAdvanceCounter(
    round: (Store, RedeemAllBTC, SubMsgResult) -> (Store, Outcome<Response>), env: Env,
    store: Store, intents: seq<RedeemAllBTC>, burns: seq<SubMsgResult>)
    requires RoundsAsRedeem(round, env)
    requires |burns| == |intents|
    requires store.state.Some?
    requires Load(store.state.value).generateTicketSequence + |intents| < U64_LIMIT
    ensures
      var after := RunRounds(round, store, intents, burns).0;
      var st := Load(store.state.value);
      && after.state.Some?
      && Load(after.state.value) == st.(generateTicketSequence := st.generateTicketSequence + Confirmed(burns))
    decreases |intents|
  {
    if intents != [] {
      var first := round(store, intents[0], burns[0]);
      assert RoundDoes(store, env, intents[0], burns[0], first);
      RoundsAdvanceCounter(round, env, first.0, intents[1..], burns[1..]);
    }
  }

  /** Rounds that behave as redeems draw their numbers in order: the i-th
      draws the counter plus the number of earlier burns that succeeded. */
  lemma {:induction false} RoundsDrawConsecutiveSequences(
    round: (Store, RedeemAllBTC, SubMsgResult) -> (Store, Outcome<Response>), env: Env,
    store: Store, intents: seq<RedeemAllBTC>, burns: seq<SubMsgResult>)
    requires RoundsAsRedeem(round, env)
    requires |burns| == |intents|
    requires store.state.Some?
    requires Load(store.state.value).generateTicketSequence + |intents| < U64_LIMIT
    ensures
      var drawn := RunRounds(round, store, intents, burns).1;
      var start := Load(store.state.value).generateTicketSequence;
      forall i :: 0 <= i < |intents| ==> DrawnSequence(drawn[i]) == start + Confirmed(burns[..i])
    decreases |intents|
  {
    if intents != [] {
      var start := Load(store.state.value).generateTicketSequence;
      var first := round(store, intents[0], burns[0]);
      assert RoundDoes(store, env, intents[0], burns[0], first);
      RoundsDrawConsecutiveSequences(round, env, first.0, intents[1..], burns[1..]);
      var drawn := RunRounds(round, store, intents, burns).1;
      var rest := RunRounds(round, first.0, intents[1..], burns[1..]).1;
      assert drawn == [first.1] + rest;
      forall i | 0 <= i < |intents|
        ensures DrawnSequence(drawn[i]) == start + Confirmed(burns[..i])
      {
        if i > 0 {
          assert drawn[i] == rest[i - 1];
          ConfirmedPrefix(burns, i);
        }
      }
    }
  }

  /** The request map a run of redeems should leave, written directly: the
      burns that succeed each store their request under the next number,
      in order, and the failed ones store nothing. */
  function RequestsAfter(
    reqs: map<u64, GenerateTicketReq>, next: u64, ckbtcTokenId: string, env: Env,
    intents: seq<RedeemAllBTC>, burns: seq<SubMsgResult>): map<u64, GenerateTicketReq>
    requires |burns| == |intents| && next + |intents| < U64_LIMIT
    decreases |intents|
  {
    if intents == [] then reqs
    else if burns[0].Success? then
      RequestsAfter(reqs[next := RedeemRequest(intents[0], ckbtcTokenId, next, env)], next + 1,
                    ckbtcTokenId, env, intents[1..], burns[1..])
    else
      RequestsAfter(reqs, next, ckbtcTokenId, env, intents[1..], burns[1..])
  }

  /** Rounds that behave as redeems leave exactly that map. */
  lemma {:induction false} RoundsStoreRequestsAfter(
    round: (Store, RedeemAllBTC, SubMsgResult) -> (Store, Outcome<Response>), env: Env,
    store: Store, intents: seq<RedeemAllBTC>, burns: seq<SubMsgResult>)
    requires RoundsAsRedeem(round, env)
    requires |burns| == |intents|
    requires store.state.Some?
    requires Load(store.state.value).generateTicketSequence + |intents| < U64_LIMIT
    ensures
      var st := Load(store.state.value);
      RunRounds(round, store, intents, burns).0.generateTicketReq
      == RequestsAfter(store.generateTicketReq, st.generateTicketSequence, st.ckbtcTokenId, env, intents, burns)
    decreases |intents|
  {
    if intents != [] {
      var first := round(store, intents[0], burns[0]);
      assert RoundDoes(store, env, intents[0], burns[0], first);
      RoundsStoreRequestsAfter(round, env, first.0, intents[1..], burns[1..]);
    }
  }

  /** Successive redeems raise the counter by the number of confirmed burns
      and change nothing else in the record, and leave the request map
      `RequestsAfter` describes. */
  lemma SuccessiveRedeemsAdvanceCounter(
    store: Store, env: Env, intents: seq<RedeemAllBTC>, burns: seq<SubMsgResult>)
    requires |burns| == |intents|
    requires store.state.Some?
    requires Load(store.state.value).generateTicketSequence + |intents| < U64_LIMIT
    ensures
      var after := RunRedeemSwaps(store, env, intents, burns).0;
      var st := Load(store.state.value);
      && after.state.Some?
      && Load(after.state.value) == st.(generateTicketSequence := st.generateTicketSequence + Confirmed(burns))
      && after.generateTicketReq
         == RequestsAfter(store.generateTicketReq, st.generateTicketSequence, st.ckbtcTokenId, env, intents, burns)
  {
    RedeemRoundsAsRedeem(env);
    RoundsAdvanceCounter(RedeemRounds(env), env, store, intents, burns);
    RoundsStoreRequestsAfter(RedeemRounds(env), env, store, intents, burns);
  }

  /** Successive redeems draw their sequence numbers in order from the
      stored counter: the i-th draws the counter plus the number of earlier
      burns that succeeded, so a failed burn's number is drawn again by the
      next redeem. */
  lemma SuccessiveRedeemsDrawConsecutiveSequences(
    store: Store, env: Env, intents: seq<RedeemAllBTC>, burns: seq<SubMsgResult>)
    requires |burns| == |intents|
    requires store.state.Some?
    requires Load(store.state.value).generateTicketSequence + |intents| < U64_LIMIT
    ensures
      var drawn := RunRedeemSwaps(store, env, intents, burns).1;
      var start := Load(store.state.value).generateTicketSequence;
      forall i :: 0 <= i < |intents| ==> DrawnSequence(drawn[i]) == start + Confirmed(burns[..i])
  {
    RedeemRoundsAsRedeem(env);
    RoundsDrawConsecutiveSequences(RedeemRounds(env), env, store, intents, burns);
  }

  /** Stored requests outside the numbers drawn by confirmed redeems are
      kept as they were. */
  lemma {:induction false} RequestsAfterKeepsOthers(
    reqs: map<u64, GenerateTicketReq>, next: u64, ckbtcTokenId: string, env: Env,
    intents: seq<RedeemAllBTC>, burns: seq<SubMsgResult>)
    requires |burns| == |intents| && next + |intents| < U64_LIMIT
    ensures
      var out := RequestsAfter(reqs, next, ckbtcTokenId, env, intents, burns);
      forall k :: k in reqs && !(next <= k < next + Confirmed(burns)) ==> k in out && out[k] == reqs[k]
    decreases |intents|
  {
    if intents != [] {
      if burns[0].Success? {
        RequestsAfterKeepsOthers(reqs[next := RedeemRequest(intents[0], ckbtcTokenId, next, env)], next + 1,
                                 ckbtcTokenId, env, intents[1..], burns[1..]);
      } else {
        RequestsAfterKeepsOthers(reqs, next, ckbtcTokenId, env, intents[1..], burns[1..]);
      }
    }
  }

  /** No key appears other than the stored ones and the numbers drawn by
      confirmed redeems. */
  lemma {:induction false} RequestsAfterAddsOnlyDrawnKeys(
    reqs: map<u64, GenerateTicketReq>, next: u64, ckbtcTokenId: string, env: Env,
    intents: seq<RedeemAllBTC>, burns: seq<SubMsgResult>)
    requires |burns| == |intents| && next + |intents| < U64_LIMIT
    ensures
      var out := RequestsAfter(reqs, next, ckbtcTokenId, env, intents, burns);
      forall k :: k in out ==> k in reqs || next <= k < next + Confirmed(burns)
    decreases |intents|
  {
    if intents != [] {
      assert Confirmed(burns) == (if burns[0].Success? then 1 else 0) + Confirmed(burns[1..]);
      var confirmed := burns[0].Success?;
      var reqs' := if confirmed then reqs[next := RedeemRequest(intents[0], ckbtcTokenId, next, env)] else reqs;
      var next' := if confirmed then next + 1 else next;
      assert RequestsAfter(reqs, next, ckbtcTokenId, env, intents, burns)
          == RequestsAfter(reqs', next', ckbtcTokenId, env, intents[1..], burns[1..]);
      RequestsAfterAddsOnlyDrawnKeys(reqs', next', ckbtcTokenId, env, intents[1..], burns[1..]);
    }
  }

  /** Each confirmed redeem's request ends up stored under the number it
      drew: no later redeem overwrites it. */
  lemma {:induction false} RequestsAfterStoresEach(
    reqs: map<u64, GenerateTicketReq>, next: u64, ckbtcTokenId: string, env: Env,
    intents: seq<RedeemAllBTC>, burns: seq<SubMsgResult>)
    requires |burns| == |intents| && next + |intents| < U64_LIMIT
    ensures
      var out := RequestsAfter(reqs, next, ckbtcTokenId, env, intents, burns);
      forall i :: 0 <= i < |intents| && burns[i].Success? ==>
        var k := next + Confirmed(burns[..i]);
        k in out && out[k] == RedeemRequest(intents[i], ckbtcTokenId, k, env)
    decreases |intents|
  {
    if intents != [] {
      var confirmed := burns[0].Success?;
      var reqs' := if confirmed then reqs[next := RedeemRequest(intents[0], ckbtcTokenId, next, env)] else reqs;
      var next' := if confirmed then next + 1 else next;
      var out := RequestsAfter(reqs, next, ckbtcTokenId, env, intents, burns);
      assert out == RequestsAfter(reqs', next', ckbtcTokenId, env, intents[1..], burns[1..]);
      RequestsAfterStoresEach(reqs', next', ckbtcTokenId, env, intents[1..], burns[1..]);
      forall i | 0 <= i < |intents| && burns[i].Success?
        ensures var k := next + Confirmed(burns[..i]);
          k in out && out[k] == RedeemRequest(intents[i], ckbtcTokenId, k, env)
      {
        if i == 0 {
          assert burns[..i] == [];
          RequestsAfterKeepsOthers(reqs', next', ckbtcTokenId, env, intents[1..], burns[1..]);
        } else {
          ConfirmedPrefix(burns, i);
          assert burns[1..][i - 1] == burns[i];
          assert intents[1..][i - 1] == intents[i];
        }
      }
    }
  }

  /** Hence two confirmed redeems never store their requests under the same
      key: the earlier one draws a strictly smaller number. */
  lemma SuccessiveRedeemSequencesAreDistinct(
    store: Store, env: Env, intents: seq<RedeemAllBTC>, burns: seq<SubMsgResult>, i: int, j: int)
    requires |burns| == |intents|
    requires store.state.Some?
    requires Load(store.state.value).generateTicketSequence + |intents| < U64_LIMIT
    requires 0 <= i < j < |intents| && burns[i].Success?
    ensures DrawnSequence(RunRedeemSwaps(store, env, intents, burns).1[i])
            < DrawnSequence(RunRedeemSwaps(store, env, intents, burns).1[j])
  {
    SuccessiveRedeemsDrawConsecutiveSequences(store, env, intents, burns);
    assert burns[..j] == burns[..i] + burns[i..j];
    ConfirmedAppend(burns[..i], burns[i..j]);
  }
}
