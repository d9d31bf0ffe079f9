/** The durable state of src/state.rs: the state record, its stored form with
    the fields that default when absent, the outbound ticket requests, and the
    two storage items the handlers read and write. */
module State {
  import opened Common
  import opened Error

  /** The message `STATE.load(..).expect(..)` passes to `expect`; the panic
      text Rust prints appends the storage error after it. */
  const StateNotInitialized := "State not initialized!"

  /** A registered token as the entry handlers store it: its full denom. */
  datatype Token = Token(denom: string)

  datatype IcpChainKeyToken = CKBTC

  datatype TxAction = Transfer | Redeem | Burn | RedeemIcpChainKeyAssets(token: IcpChainKeyToken)

  /** An outbound ticket request, stored under its sequence number (`seq` in
      the source, a reserved word here). */
  datatype GenerateTicketReq = GenerateTicketReq(
    sequence: u64,
    targetChainId: string,
    sender: string,
    receiver: string,
    tokenId: string,
    amount: string,
    action: TxAction,
    timestamp: u64,
    blockHeight: u64,
    memo: Option<string>,
    feeToken: string,
    feeAmount: string)

  /** The state record the handlers work on. `owner` is the only authorized
      sender. */
  datatype State = State(
    owner: Addr,
    chainKey: seq<u8>,
    tokens: map<string, Token>,
    handledTickets: set<string>,
    targetChainRedeemMinAmount: map<(string, string), string>,
    generateTicketSequence: u64,
    ckbtcTokenId: string,
    allbtcTokenDenom: string,
    allbtcSwapPoolId: u64,
    runesReplacedIdMap: map<string, string>)

  /** The record as it sits in storage: the six fields marked
      `#[serde(default)]` may be absent. */
  datatype StoredState = StoredState(
    owner: Addr,
    chainKey: seq<u8>,
    tokens: map<string, Token>,
    handledTickets: set<string>,
    targetChainRedeemMinAmount: Option<map<(string, string), string>>,
    generateTicketSequence: Option<u64>,
    ckbtcTokenId: Option<string>,
    allbtcTokenDenom: Option<string>,
    allbtcSwapPoolId: Option<u64>,
    runesReplacedIdMap: Option<map<string, string>>)

  /** Deserializing the stored record: an absent defaulted field becomes its
      type's default (0, the empty string, the empty map). */
  function Load(stored: StoredState): (st: State)
    ensures st.owner == stored.owner && st.chainKey == stored.chainKey
    ensures st.tokens == stored.tokens && st.handledTickets == stored.handledTickets
    ensures st.targetChainRedeemMinAmount == if stored.targetChainRedeemMinAmount.Some? then stored.targetChainRedeemMinAmount.value else map[]
    ensures stored.generateTicketSequence.None? ==> st.generateTicketSequence == 0
    ensures stored.generateTicketSequence.Some? ==> st.generateTicketSequence == stored.generateTicketSequence.value
    ensures stored.ckbtcTokenId.None? ==> st.ckbtcTokenId == ""
    ensures stored.ckbtcTokenId.Some? ==> st.ckbtcTokenId == stored.ckbtcTokenId.value
    ensures stored.allbtcTokenDenom.None? ==> st.allbtcTokenDenom == ""
    ensures stored.allbtcTokenDenom.Some? ==> st.allbtcTokenDenom == stored.allbtcTokenDenom.value
    ensures stored.allbtcSwapPoolId.None? ==> st.allbtcSwapPoolId == 0
    ensures stored.allbtcSwapPoolId.Some? ==> st.allbtcSwapPoolId == stored.allbtcSwapPoolId.value
    ensures stored.runesReplacedIdMap.None? ==> st.runesReplacedIdMap == map[]
    ensures stored.runesReplacedIdMap.Some? ==> st.runesReplacedIdMap == stored.runesReplacedIdMap.value
  {
    State(
      stored.owner, stored.chainKey, stored.tokens, stored.handledTickets,
      stored.targetChainRedeemMinAmount.UnwrapOr(map[]),
      stored.generateTicketSequence.UnwrapOr(0),
      stored.ckbtcTokenId.UnwrapOr(""),
      stored.allbtcTokenDenom.UnwrapOr(""),
      stored.allbtcSwapPoolId.UnwrapOr(0),
      stored.runesReplacedIdMap.UnwrapOr(map[]))
  }

  /** Serializing the record: every field is written. */
  function Saved(st: State): (stored: StoredState)
    ensures stored.generateTicketSequence.Some? && stored.ckbtcTokenId.Some?
    ensures stored.allbtcTokenDenom.Some? && stored.allbtcSwapPoolId.Some?
    ensures stored.targetChainRedeemMinAmount.Some? && stored.runesReplacedIdMap.Some?
  {
    StoredState(
      st.owner, st.chainKey, st.tokens, st.handledTickets,
      Some(st.targetChainRedeemMinAmount), Some(st.generateTicketSequence),
      Some(st.ckbtcTokenId), Some(st.allbtcTokenDenom), Some(st.allbtcSwapPoolId),
      Some(st.runesReplacedIdMap))
  }

  /** What is saved loads back unchanged. */
  lemma LoadSaved(st: State)
    ensures Load(Saved(st)) == st
  {
  }

  /** A stored record with every field present is the save of what it loads. */
  lemma SavedLoad(stored: StoredState)
    requires stored.generateTicketSequence.Some? && stored.ckbtcTokenId.Some?
    requires stored.allbtcTokenDenom.Some? && stored.allbtcSwapPoolId.Some?
    requires stored.targetChainRedeemMinAmount.Some? && stored.runesReplacedIdMap.Some?
    ensures Saved(Load(stored)) == stored
  {
  }

  /** `read_state`: `f` applied to the stored record, or the panic of
      `expect` when nothing is stored. */
  function ReadState<R>(stored: Option<StoredState>, f: State -> R): (r: Outcome<R>)
    ensures stored.None? <==> r.Panic?
    ensures r.Panic? ==> r.message == StateNotInitialized
    ensures stored.Some? ==> r == Ok(f(Load(stored.value)))
  {
    match stored
    case None => Panic(StateNotInitialized)
    case Some(s) => Ok(f(Load(s)))
  }

  /** `State::replace_token_id_if_runes`: the original id recorded for a
      replaced id, or the id itself. As a function on the record it cannot
      change the record. */
  function ReplaceTokenIdIfRunes(st: State, tokenId: string): (r: string)
    ensures tokenId in st.runesReplacedIdMap ==> r == st.runesReplacedIdMap[tokenId]
    ensures tokenId !in st.runesReplacedIdMap ==> r == tokenId
  {
    if tokenId in st.runesReplacedIdMap then st.runesReplacedIdMap[tokenId] else tokenId
  }

  /** The id returned is the id given or one of the recorded original ids;
      it differs from the given id only when that id is a replaced one. */
  lemma ReplacedIdIsOriginalOrSelf(st: State, tokenId: string)
    ensures var r := ReplaceTokenIdIfRunes(st, tokenId);
      (r == tokenId || r in st.runesReplacedIdMap.Values)
      && (r != tokenId ==> tokenId in st.runesReplacedIdMap)
  {
  }

  /** The two storage items as one value: the `STATE` item (absent until
      instantiation) and the `GENERATE_TICKET_REQ` map keyed by `seq`. */
  datatype Store = Store(state: Option<StoredState>, generateTicketReq: map<u64, GenerateTicketReq>)

  /** The contract's storage, which every handler gets mutably. */
  class Storage {
    var state: Option<StoredState>
    var generateTicketReq: map<u64, GenerateTicketReq>

    /** Storage before instantiation: nothing stored. */
    constructor ()
      ensures state == None && generateTicketReq == map[]
    {
      state := None;
      generateTicketReq := map[];
    }

    function View(): Store
      reads this
    {
      Store(state, generateTicketReq)
    }
  }
}
