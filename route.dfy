/** The registry datatypes of src/route.rs and the conversion of a toggle
    action into a chain state. */
module Route {
  import opened Common

  type ChainId = string
  type TokenId = string

  datatype Token = Token(
    tokenId: string,
    name: string,
    symbol: string,
    decimals: u8,
    icon: Option<string>,
    metadata: map<string, string>)

  datatype ChainType = SettlementChain | ExecutionChain

  datatype ChainState = Active | Deactive

  /** A counterparty chain. Equality is Dafny's structural equality, which is
      the field-wise equality Rust derives; the chain-id-only equality of the
      source is commented out there and is not used. */
  datatype Chain = Chain(
    chainId: ChainId,
    canisterId: string,
    chainType: ChainType,
    chainState: ChainState,
    contractAddress: Option<string>,
    counterparties: Option<seq<ChainId>>,
    feeToken: Option<TokenId>)

  datatype ToggleAction = Activate | Deactivate

  datatype ToggleState = ToggleState(chainId: ChainId, action: ToggleAction)

  datatype TargetChainFactor = TargetChainFactor(targetChainId: ChainId, targetChainFactor: u128)

  datatype FeeTokenFactor = FeeTokenFactor(feeToken: TokenId, feeTokenFactor: u128)

  datatype Factor =
    | UpdateTargetChainFactor(target: TargetChainFactor)
    | UpdateFeeTokenFactor(fee: FeeTokenFactor)

  datatype Directive =
    | AddChain(chain: Chain)
    | AddToken(token: Token)
    | UpdateChain(chain: Chain)
    | UpdateToken(token: Token)
    | ToggleChainState(toggle: ToggleState)
    | UpdateFee(factor: Factor)

  /** `impl From<ToggleAction> for ChainState`. */
  function ToChainState(action: ToggleAction): (state: ChainState)
    ensures state == Active <==> action == Activate
    ensures state == Deactive <==> action == Deactivate
  {
    match action
    case Activate => Active
    case Deactivate => Deactive
  }

  /** The inverse direction, used only to state that the conversion is a
      bijection. */
  function ToToggleAction(state: ChainState): (action: ToggleAction)
    ensures ToChainState(action) == state
  {
    match state
    case Active => Activate
    case Deactive => Deactivate
  }

  /** The conversion is total and injective: the two actions give different
      states, and every state comes from exactly one action. */
  lemma ToChainStateIsBijective(a: ToggleAction, b: ToggleAction)
    ensures ToChainState(a) == ToChainState(b) <==> a == b
    ensures ToToggleAction(ToChainState(a)) == a
  {
  }

  /** Two chains are equal exactly when every field is equal. */
  lemma ChainEqualityIsFieldwise(a: Chain, b: Chain)
    ensures a == b <==>
      && a.chainId == b.chainId
      && a.canisterId == b.canisterId
      && a.chainType == b.chainType
      && a.chainState == b.chainState
      && a.contractAddress == b.contractAddress
      && a.counterparties == b.counterparties
      && a.feeToken == b.feeToken
  {
  }

  /** The chain id alone does not decide equality: every chain has a
      different chain with the same id (the same record in the other state). */
  lemma ChainIdDoesNotDecideEquality(c: Chain)
    ensures exists d: Chain :: d.chainId == c.chainId && d != c
  {
    var d := c.(chainState := if c.chainState == Active then Deactive else Active);
    assert d.chainId == c.chainId && d != c;
  }

  /** The number of kinds a directive belongs to. */
  function KindCount(d: Directive): nat {
    (if d.AddChain? then 1 else 0) + (if d.AddToken? then 1 else 0)
    + (if d.UpdateChain? then 1 else 0) + (if d.UpdateToken? then 1 else 0)
    + (if d.ToggleChainState? then 1 else 0) + (if d.UpdateFee? then 1 else 0)
  }

  /** A directive is exactly one of its six kinds. */
  lemma DirectiveHasOneKind(d: Directive)
    ensures KindCount(d) == 1
  {
  }

  /** The factor a fee update carries, whichever kind it is: a `u128`. */
  function FactorValue(f: Factor): (v: u128)
    ensures f.UpdateTargetChainFactor? ==> v == f.target.targetChainFactor
    ensures f.UpdateFeeTokenFactor? ==> v == f.fee.feeTokenFactor
    ensures v < U128_LIMIT
  {
    match f
    case UpdateTargetChainFactor(t) => t.targetChainFactor
    case UpdateFeeTokenFactor(t) => t.feeTokenFactor
  }
}
