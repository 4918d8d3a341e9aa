/** Messages the contract receives and sends. Binary payloads are kept in
    decoded form (`Payload`); their serialization is not modelled. */
module Msg {
  import opened Wrappers
  import opened Cosmos
  import opened Terraswap

  /** Instantiation parameters, as `init` reads them. */
  datatype InitMsg = InitMsg(asset: HumanAddr, pair: HumanAddr, tokenCodeId: U64)

  datatype HandleMsg =
    | PostInitialize
    | Mint(asset: Asset)
    | Redeem(asset: Asset)

  datatype QueryMsg =
    | Config
    | Price(asset: Asset)

  datatype ConfigResponse = ConfigResponse(owner: HumanAddr)

  datatype PriceResponse = PriceResponse(pair: HumanAddr, price: SimulationResponse)

  datatype QueryResponse =
    | ConfigAnswer(config: ConfigResponse)
    | PriceAnswer(price: PriceResponse)

  /** The Terraswap pair's `Swap` instruction. */
  datatype PairHandleMsg = Swap(
    offerAsset: Asset,
    maxSpread: Option<Decimal>,
    beliefPrice: Option<Decimal>,
    to: Option<HumanAddr>)

  /** The CW20 `Mint` instruction. */
  datatype Cw20HandleMsg = Cw20Mint(recipient: HumanAddr, amount: Uint128)

  datatype MinterResponse = MinterResponse(minter: HumanAddr, cap: Option<Uint128>)

  /** Message the new token contract sends back to `contractAddr` once it
      has been instantiated. */
  datatype InitHook = InitHook(msg: Payload, contractAddr: HumanAddr)

  datatype InitialBalance = InitialBalance(address: HumanAddr, amount: Uint128)

  /** Instantiation message of the Terraswap token contract. */
  datatype TokenInitMsg = TokenInitMsg(
    name: string,
    symbol: string,
    decimals: U8,
    initialBalances: seq<InitialBalance>,
    mint: Option<MinterResponse>,
    initHook: Option<InitHook>)

  /** A `Binary` message body, decoded. */
  datatype Payload =
    | TokenInit(tokenInit: TokenInitMsg)
    | PairHandle(pairMsg: PairHandleMsg)
    | Cw20Handle(cw20Msg: Cw20HandleMsg)
    | ContractHandle(handleMsg: HandleMsg)

  datatype WasmMsg =
    | Execute(contractAddr: HumanAddr, msg: Payload, send: seq<Coin>)
    | Instantiate(codeId: U64, msg: Payload, send: seq<Coin>, instanceLabel: Option<string>)

  /** Only the `Wasm` variant of the chain's message type is ever emitted. */
  datatype CosmosMsg = Wasm(wasm: WasmMsg)

  datatype InitResponse = InitResponse(messages: seq<CosmosMsg>, log: seq<LogAttribute>)

  /** `data` is always `None` in this contract and is not modelled. */
  datatype HandleResponse = HandleResponse(messages: seq<CosmosMsg>, log: seq<LogAttribute>)

  /** `HandleResponse::default()`. */
  const DEFAULT_RESPONSE: HandleResponse := HandleResponse([], [])
}
