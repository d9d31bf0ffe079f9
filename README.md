# omnity-port-cosmos core in Dafny

A model of the core of the Omnity port contract for Cosmos (CosmWasm on
Osmosis): the callback dispatcher that drives multi-step token workflows
through the host chain's submessage replies, the entry handlers that register
tokens, mint them for tickets from the Omnity hub and burn them for redeems,
and the state record and helpers they share.

The contract's entry points each return a response that may dispatch one
host operation (a token-factory mint or burn, a pool swap, a bank send). A
dispatched operation carries a reply id, a reply mode and a payload; when the
mode asks for it, the host calls `reply` back with that id, payload and the
operation's result. Two chains run through it:

- mint → optional ckBTC → allBTC swap → bank send of the allBTC to the receiver → `TokenMinted`;
- allBTC → ckBTC swap → draw the next outbound sequence number → burn the ckBTC → store the ticket request under that number.

Modules, one per source file plus two:

- `Common`, `Error`, `Types`, `Msg`: integer widths, `Option`, the error enum of `src/error.rs` with an `Outcome` that also carries panics, the payloads of `src/types.rs`, the messages of `src/msg.rs`.
- `Route` (`src/route.rs`): the registry datatypes and the `ToggleAction → ChainState` conversion.
- `State` (`src/state.rs`): the state record, its stored form with the `#[serde(default)]` fields optional, `read_state`, `replace_token_id_if_runes`, the outbound ticket request, and the storage (`class Storage`, the `STATE` item and the `GENERATE_TICKET_REQ` map keyed by `u64` sequence).
- `Host`: the CosmWasm boundary. It holds the environment, the dispatched operations, events, responses and replies. `Callback` is the host's rule for which replies it delivers: it delivers one exactly when the reply mode covers the result, with the submessage's own id and payload.
- `Decimal`: Rust's `u128::from_str`, which the bank send applies to the payload's amount string.
- `Contract` (`src/contract.rs`) and `Reply` (`src/reply.rs`). Each state-changing handler has a pure step function from the old storage to the response and new storage. Its method writes the `Storage` fields in place, and its `ensures` says it equals the step function.
- `Saga`: the two chains followed through `Host.Callback` and `Host.Kept`, across several replies and several redeems.

Serialization is the identity. A payload is the typed value itself, and
decoding it as a type succeeds exactly when it holds a value of that type;
otherwise the result is `CustomError`. `token_denom(contract, id)` and
`build_burn_msg(...)` are not part of this model; they appear as the
symbolic terms `Denom.TokenDenom` and `HostOp.BuiltBurn` applied to their
arguments. A Rust panic (`expect`, `unwrap`, `unreachable!`, `u64`
overflow) is the `Outcome.Panic` case with a message: Rust's own text for
`unreachable!` and overflow, and for `expect` and `unwrap` the text up to
the error value Rust appends. The host aborts the call and keeps the old
storage.

`contract.rs` builds a `State` with only `owner`, `chain_key`, `tokens` and
`handled_tickets`, while `state.rs`'s `State` has `route`, `admin` and
others instead. The model uses one record: the fields `contract.rs` builds,
plus the defaulted fields of `state.rs` that the reply handlers read.
`owner` is the only authorized sender. `instantiate` stores the record
without the defaulted fields, so loading it gives their defaults. In
particular `tokens` maps a token id to `Token(denom)`, the type
`contract.rs` builds and reads; `state.rs` declares its `tokens` with the
registry `Token` of `route.rs`, which has no `denom` field, and the model
follows `contract.rs` there.

A failed dispatched operation that the host does not reply to aborts the
invocation that dispatched it, and the host discards everything that
invocation wrote (`Host.Settles`, `Host.Kept`). The model applies this rule
one level deep: to the handler that dispatched the operation, not to the
invocations further up the chain.

## Model

| member | source | states |
|---|---|---|
| `State.Load` | src/state.rs:25-37 | Loading a stored record keeps the four base fields. Each absent `#[serde(default)]` field becomes 0, the empty string or the empty map, and each present one keeps its value. |
| `State.LoadSaved` | src/state.rs:12-38 | Saving a record and loading it back gives the same record. |
| `State.SavedLoad` | src/state.rs:25-37 | A stored record with every defaulted field present is the save of what it loads. |
| `State.ReadState` | src/state.rs:53-58 | `read_state` panics with "State not initialized!" exactly when no record is stored. Otherwise it returns `f` applied to the loaded record. |
| `State.ReplaceTokenIdIfRunes` | src/state.rs:41-47 | Returns the recorded original id when the id is a key of `runes_replaced_id_map`, and the id unchanged otherwise. It is a function of the record, so the record is unchanged. |
| `State.ReplacedIdIsOriginalOrSelf` | src/state.rs:41-47 | The id returned is the given id or one of the map's original ids. It differs from the given id only when that id is a replaced one. |
| `State.Storage.constructor` | src/state.rs:50-51 | Before instantiation nothing is stored: no state record and an empty request map keyed by `u64` sequence. |
| `Route.ToChainState` | src/route.rs:69-76 | `Activate` gives `Active` and `Deactivate` gives `Deactive`, both ways. |
| `Route.ToToggleAction` | src/route.rs:69-76 | Every `ChainState` is the conversion of some action. |
| `Route.ToChainStateIsBijective` | src/route.rs:69-76 | The conversion is total and injective: the two actions give different states. |
| `Route.ChainEqualityIsFieldwise` | src/route.rs:32-55 | Two chains are equal exactly when all seven fields are equal (derived equality). |
| `Route.ChainIdDoesNotDecideEquality` | src/route.rs:49-53 | Every chain has a different chain with the same id, so equality on `chain_id` alone (the commented-out impl) is not the equality in force. |
| `Route.DirectiveHasOneKind` | src/route.rs:22-30 | A directive has exactly one of its six kinds. |
| `Route.FactorValue` | src/route.rs:92-108 | A fee factor is a per-chain factor or a fee-token factor, and in both cases its value is a `u128`. |
| `Host.Callback` | src/reply.rs:17-23 | The host delivers a reply exactly when the submessage's mode covers the result (never, on success, on error, always). The reply carries the submessage's own id and its payload unchanged. |
| `Host.DecodeMint` | src/reply.rs:161-162 | Decoding succeeds exactly on a `MintTokenPayload` and returns it. Otherwise it fails with `CustomError`. |
| `Host.DecodeRedeemAll` | src/reply.rs:233-234 | Decoding succeeds exactly on a `RedeemAllBTC` and returns it. Otherwise it fails with `CustomError`. |
| `Host.DecodeTicket` | src/reply.rs:28-30 | Decoding succeeds exactly on a `GenerateTicketReq` and returns it. Otherwise it fails with `CustomError`. |
| `Host.Kept` | src/reply.rs:275 | After the dispatched operation ends, the invocation keeps its writes when the operation succeeds, when there is none, or when its mode replies to errors. A failure in a mode that does not reply to errors (never, on success) leaves the storage as before the invocation. |
| `Host.Commit` | src/contract.rs:95-98 | A handler that succeeds saves its new record. A handler that fails or panics leaves the stored record as it was. |
| `Decimal.ParseU128` | src/reply.rs:297 | Parsing succeeds exactly when the text is an optional `+` followed by at least one digit and nothing else, with a value below 2^128. The result is that value. |
| `Decimal.ParseToDecimal` | src/reply.rs:297 | Parsing the decimal text of any `u128` gives that number back. |
| `Decimal.ValueOfToDecimal` | src/reply.rs:297 | The digits printed for `n` denote `n` (proof by induction on `n`). |
| `Decimal.ParseRejectsNonDigits` | src/reply.rs:297 | Text with a non-digit after the optional sign does not parse. |
| `Decimal.ParseNeedsADigit` | src/reply.rs:297 | The empty text and a lone `+` do not parse. |
| `Contract.InitialRecord` | src/contract.rs:23-28 | The initial record loads to the given owner and chain key, no tokens, no handled tickets, sequence 0 and empty defaults. |
| `Contract.Instantiate` | src/contract.rs:17-35 | Stores the initial record, leaves the request map alone, and answers with the attributes `method=instantiate` and `owner`. |
| `Contract.AddTokenStep` | src/contract.rs:84-113 | Checks in order: no state panics, a sender other than the owner gets `Unauthorized`, a registered id gets `TokenAleardyExist`. It succeeds exactly otherwise. Success inserts `token_id ↦ factory/<contract>/<name>` and keeps every other entry and field. It dispatches exactly one create-denom with subdenom `name` and adds the attributes `action`, `token_id`. |
| `Contract.ExecDirective` | src/contract.rs:76-115 | Writes storage exactly as `AddTokenStep` says, saving nothing on failure. |
| `Contract.PrivilegeMintStep` | src/contract.rs:117-165 | Checks in order: owner (`Unauthorized`), token registered (`TokenNotFound`), ticket not handled (`TicketAlreadyHandled`). It succeeds exactly when all three pass. Success adds the ticket to `handled_tickets`, changes nothing else, issues exactly one mint of `amount` in the token's denom to `receiver`, and emits `TokenMinted`. |
| `Contract.PrivilegeMintToken` | src/contract.rs:117-165 | Writes storage exactly as `PrivilegeMintStep` says. |
| `Contract.RedeemToken` | src/contract.rs:167-201 | An unknown token gives `TokenNotFound`. Otherwise it issues exactly one burn of `amount` in the token's denom from `info.sender`, emits `TokenBurned`, adds no attributes, and writes nothing. |
| `Contract.Execute` | src/contract.rs:37-61 | Each message goes to its handler, with that handler's response and storage. `RedeemToken` leaves storage unchanged. |
| `Contract.AddTokenIsOnce` | src/contract.rs:88-90 | After a successful `AddToken`, the same id is refused with `TokenAleardyExist`, whatever name it gives. |
| `Contract.TicketReplayRejected` | src/contract.rs:135-142 | After a successful mint, the same ticket is refused with `TicketAlreadyHandled`, whatever receiver and amount it names. |
| `Contract.FailedMintLeavesTicketRetryable` | src/contract.rs:135-157 | The mint is dispatched with no reply. If it fails, the host discards the whole call, the ticket mark included, so the same ticket can be submitted again and gets the same mint. If it succeeds, the mark stays and a replay is refused. |
| `Contract.AddedTokenMintsAndBurnsInFactoryDenom` | src/contract.rs:93-96 | A token just added can be minted and redeemed, and both operations use the factory denom built from the contract address and the name. |
| `Contract.HandledTicketsOnlyGrow` | src/contract.rs:139-142 | Neither state-writing execute handler removes a handled ticket: the AddToken directive keeps the set, and a mint adds at most its own ticket. `redeem_token` writes nothing (see `Contract.Execute`), and `instantiate`, which starts the set empty, runs once. |
| `Reply.TicketRequestedEvent` | src/reply.rs:45-59 | The `GenerateTicketRequested` event carries the request, and its memo is the empty string when the request has none. |
| `Reply.RedeemRequestedEvents` | src/reply.rs:37-60 | A confirmed redeem emits `RedeemRequested` (token, sender, receiver, amount, target chain) followed by `GenerateTicketRequested`. |
| `Reply.ReplyGenerateTicket` | src/reply.rs:62-87 | GENERATE_TICKET success emits only `GenerateTicketRequested` for the decoded request and dispatches nothing. Any other payload gives `CustomError`. |
| `Reply.ReplySendAllbtc` | src/reply.rs:99-110 | SEND_ALLBTC success emits `TokenMinted` with the payload's ticket, token, receiver and amount, and nothing else. |
| `Reply.ReplyMintTokenWith` | src/reply.rs:160-226 | Without a transmuter it emits `TokenMinted`. With one, it fails with "Only Support transmuter ckbtc to allBTC" unless the token is the ckBTC id and the transmuter is the allBTC denom. Otherwise it dispatches exactly one swap with: the contract as sender; pool `allbtc_swap_pool_id`; out-denom `allbtc_denom`; in-denom the minted token's denom; in-amount and minimum out both the payload amount; tag SWAP_CKBTC_TO_ALLBTC; the given reply mode; the payload unchanged. Decoding is checked before the state is read. |
| `Reply.ReplyMintToken` | src/reply.rs:219-225 | As written: the swap is dispatched in reply-on-error mode. |
| `Reply.ReplyMintTokenIntended` | src/reply.rs:219-225 | Corrected: the swap is dispatched in reply-always mode (see Findings). |
| `Reply.ReplySwapCkbtcToAllbtc` | src/reply.rs:281-309 | Dispatches exactly one bank send: to the payload's receiver; in `token_denom(contract, allbtc_denom)`; of the payload amount read as a `u128`; reply-on-success; tagged SEND_ALLBTC; with the same payload. An amount that does not parse panics. |
| `Reply.RedeemRequest` | src/reply.rs:259-272 | The request takes the given sequence, the ckBTC token id, `RedeemIcpChainKeyAssets(CKBTC)`, no memo, and the block time and height. It copies sender, receiver, amount, target chain, fee token and fee amount from the payload. |
| `Reply.SwapAllbtcToCkbtcStep` | src/reply.rs:228-279 | Raises `generate_ticket_sequence` by exactly one and changes no other field; at the `u64` maximum it panics. It dispatches exactly one burn of the payload amount of ckBTC by and from the contract, tagged REDEEM, reply-on-success, carrying the request drawn with the old counter. |
| `Reply.ReplySwapAllbtcToCkbtc` | src/reply.rs:254-257 | Loads the record, increments the counter, saves it, and dispatches the burn, all exactly as `SwapAllbtcToCkbtcStep` says. It does not touch the request map. |
| `Reply.ReplyError` | src/reply.rs:120-158 | Error branches only emit one event and dispatch nothing: `RedeemFailed`, `GenerateTicketFailed`, `SwapCKBTCFailed` (ticket, receiver, amount), `SwapAllBTCFailed` (sender, receiver, amount, target chain, fee token, fee amount). Any other id panics as `unreachable!`. |
| `Reply.ReplySuccessStepWith` | src/reply.rs:25-118 | The success dispatch table, for a given reply mode of the MINT_TOKEN swap. REDEEM stores the decoded request under its own `seq` and emits both redeem events; a payload that is not a request gives `CustomError`. Only REDEEM writes the request map, and only SWAP_ALLBTC_TO_CKBTC writes the state record. Each other id goes to its handler, and an unknown id panics as `unreachable!`. A failure leaves storage as it was, and at most one operation is dispatched. |
| `Reply.ReplySuccessStep` | src/reply.rs:25-118 | As written: the success table, with MINT_TOKEN answered by `ReplyMintToken` (swap reply-on-error). |
| `Reply.ReplyStepWith` | src/reply.rs:17-23 | `reply` takes the success table exactly when the result is Ok and the error table otherwise. The error table writes nothing. A failure leaves storage as it was, and at most one operation is dispatched. |
| `Reply.ReplyStep` | src/reply.rs:17-23 | As written: `reply` with the as-written success table, and the error table on an error result. |
| `Reply.ReplyKeepsCounterMonotone` | src/reply.rs:25-118 | In either mode, no callback lowers the sequence counter, raises it by more than one, or changes another field of the record. The request map only gains keys, at most one per callback. No stored request changes, except the one a REDEEM callback stores under its own sequence. |
| `Reply.Reply` | src/reply.rs:17-23 | As written: writes storage exactly as `ReplyStep` says. An error result returns `ReplyError` and writes nothing. |
| `Reply.ReplySuccess` | src/reply.rs:25-118 | As written: writes storage exactly as `ReplySuccessStep` says, including the REDEEM insert into the request map; MINT_TOKEN answers `ReplyMintToken`. |
| `Saga.MintSagaCompletes` | src/reply.rs:88-110 | With the swap replied to always, a transmuted ckBTC mint leads to a swap, then a bank send of the same amount to the same receiver. Then `TokenMinted` is emitted for the same ticket. No step writes storage. |
| `Saga.MintSagaReportsFailedSwap` | src/reply.rs:127-137 | As written and with reply-always alike, a failed swap reports `SwapCKBTCFailed` for the same ticket and dispatches nothing. |
| `Saga.AsWrittenSwapSuccessIsNeverReplied` | src/reply.rs:219-225 | As written, the swap is dispatched reply-on-error, so a successful swap gets no callback: the bank send and `TokenMinted` never happen. |
| `Saga.AsWrittenTransmuteStalls` | src/reply.rs:219-225 | A concrete case of the above. |
| `Saga.SwapConfirmation` | src/reply.rs:228-234 | The host's confirmation of a successful allBTC → ckBTC swap decodes back to the redeem it carries. |
| `Saga.RedeemSagaRecordsRequest` | src/reply.rs:27-60 | A confirmed allBTC → ckBTC swap raises the counter by one and dispatches a burn. When the burn is confirmed, the request is stored under the pre-increment counter and both redeem events are emitted. A failed burn is never replied to, and the host then discards the counter increment. |
| `Saga.RedeemRound` | src/reply.rs:254-278 | One redeem after its swap: it draws the stored counter. A failed burn leaves the storage exactly as before. A confirmed one raises the counter by one and stores the request drawn under the old counter, and nothing else changes. |
| `Saga.RunRedeemSwaps` | src/reply.rs:254-278 | Successive redeems, each on the storage the previous one left, give one outcome per redeem. |
| `Saga.RedeemRoundDoes` | src/reply.rs:27-36 | One round, through the dispatcher and the host's rules, on a record whose counter has room: it draws the counter. A confirmed burn raises the counter by one, changes no other field, and stores the request under the number drawn. A failed burn changes nothing. |
| `Saga.RedeemRoundsAsRedeem` | src/reply.rs:254-278 | The redeem round behaves that way on every such record, so the lemmas about runs of such rounds apply to `RunRedeemSwaps`. |
| `Saga.RoundsAdvanceCounter` | src/reply.rs:254-257 | Over rounds that behave as redeems, after N rounds the counter has risen by the number of confirmed burns, and no other field has changed (proof by induction). |
| `Saga.RoundsDrawConsecutiveSequences` | src/reply.rs:254-272 | Over such rounds, the i-th draws the start counter plus the number of earlier confirmed burns (proof by induction). |
| `Saga.RoundsStoreRequestsAfter` | src/reply.rs:27-36 | Over such rounds, the request map left is `RequestsAfter`: each confirmed burn's request stored under the next number, in order (proof by induction). |
| `Saga.SuccessiveRedeemsAdvanceCounter` | src/reply.rs:254-257 | After N redeems the counter has risen by the number of confirmed burns, no other field of the record has changed, and the request map is `RequestsAfter`. |
| `Saga.SuccessiveRedeemsDrawConsecutiveSequences` | src/reply.rs:254-272 | The i-th redeem draws the start counter plus the number of earlier confirmed burns, so a failed burn's number is drawn again by the next redeem. |
| `Saga.RequestsAfterStoresEach` | src/reply.rs:27-36 | Each confirmed redeem's request is stored under the number it drew, and no later redeem overwrites it. |
| `Saga.RequestsAfterKeepsOthers` | src/reply.rs:27-36 | A request already stored under a number outside those drawn by confirmed burns is kept unchanged. |
| `Saga.RequestsAfterAddsOnlyDrawnKeys` | src/reply.rs:27-36 | No key appears other than the ones already stored and the numbers drawn by confirmed burns. |
| `Saga.SuccessiveRedeemSequencesAreDistinct` | src/reply.rs:254-272 | A confirmed redeem draws a strictly smaller number than any later redeem, so two confirmed redeems never store under the same key. |

## Left out

- JSON encoding of payloads and event attributes (`serde_json`): payloads are typed values, and decode errors carry a fixed text instead of serde's message. The `unwrap` of `to_string` and the mapped error of `to_string(&action)` cannot fail on these types and are not modelled.
- Protobuf encoding, Stargate type URLs and `CosmosMsg` construction: a dispatched operation is an abstract `HostOp`.
- `token_denom` and `build_burn_msg` are not part of this model; they are symbolic terms over their arguments.
- Storage plumbing (`cw_storage_plus`, `cw2::set_contract_version`): storage is the two fields of `Storage`. The contract-version write in `instantiate` is not modelled.
- Repeated `read_state` calls within one handler are read as one load, since nothing writes storage between them.
- The event attributes of `GenerateTicketRequested` other than `memo` (the JSON of the request, `seq`, the other fields, the JSON of `action`): the event carries the whole request instead.
- `query` and `query::count` (a stub returning 1), `src/integration_tests.rs` (a multi-test harness) and `src/lib.rs` (module wiring) are not part of this model.
- The `state.rs` fields `route`, `admin`, `handled_directives`, `target_chain_factor`, `fee_token`, `fee_token_factor`, `counterparties`, `chain_id` and `chain_state`: no handler reads or writes them. Fee checks, directive dedup, chain toggling and redeem minimums are not implemented in the source.
- Attached funds in `MessageInfo` and the directive signature: no handler reads them.
- The numeric values of `reply_msg_id` are not part of this model: reply ids are distinct constants, and any other value is `OtherReply`.
- The mint in `privilege_mint_token` is dispatched fire-and-forget and carries no transmuter, so no code here starts the MINT_TOKEN reply. The reply-side lemmas start from a MINT_TOKEN reply.
- Reply.SwapAllbtcToCkbtcStep: the `+= 1` on `u64` panics at the maximum, assuming the usual CosmWasm release profile with overflow checks on (the crate's Cargo manifest is not part of this model).
- Reply.ReplySwapCkbtcToAllbtc: the panic text on a bad amount leaves out the parse error's kind, which Rust appends.
- State.ReadState: the panic text is the message given to `expect`, without the `: <storage error>` that `expect` appends.
- A failing reply handler also aborts the invocation that dispatched its submessage when that one is not replied to on error, and so on up the chain; the model keeps or discards the writes of one invocation at a time (`Host.Kept`) and does not follow that cascade.
- `Decimal.ToDecimal` and `Decimal.ValueOfToDecimal` are a reference printer for `u128` and its proof, used only to state that parsing is the inverse of printing; the source has no such printer.
- The time of the block, the block height and the contract address are parameters (`Env`).

## Findings

| source | as written | input that shows it | evidently intended | confidence | as-written member | corrected member |
|---|---|---|---|---|---|---|
| src/reply.rs:219-225 | `reply_mint_token` dispatches the ckBTC → allBTC swap with `SubMsg::reply_on_error`, so the host calls back only when the swap fails. The SWAP_CKBTC_TO_ALLBTC success branch, which sends the allBTC to the receiver (src/reply.rs:92-95, 281-309), can never run, and the swapped allBTC stays with the contract. | A mint payload with token id = `ckbtc_token_id` and transmuter = `allbtc_token_denom` (e.g. "ckbtc" → "allbtc", pool 1), where the swap succeeds. | Dispatch the swap reply-always, so success sends the allBTC on and failure reports `SwapCKBTCFailed`. | not executed | `Reply.ReplyMintToken`, shown by `Saga.AsWrittenSwapSuccessIsNeverReplied` | `Reply.ReplyMintTokenIntended`, proved by `Saga.MintSagaCompletes` |
