/** The contract's entry points as pure transitions: each takes the
    storage and the injected capabilities, and returns either an error or
    the new storage together with the ordered messages to dispatch. */
module Contract {
  import opened Wrappers
  import opened Cosmos
  import opened Terraswap
  import opened Msg
  import opened ContractState

  const LP_TOKEN_NAME: string := "terraswap liquidity token"
  const LP_TOKEN_SYMBOL: string := "uLP"
  const LP_TOKEN_DECIMALS: U8 := 6
  /** Denomination of the coin attached to the swap. */
  const SWAP_DENOM: string := "uusd"
  /** Wrapper tokens minted per `Mint`, whatever the deposit. */
  const MINT_AMOUNT: Uint128 := 1000000

  /** `Extern`: storage plus the host's capabilities. */
  datatype Deps = Deps(storage: Storage, api: Api, querier: Querier)

  datatype Initialized = Initialized(storage: Storage, response: InitResponse)

  datatype Handled = Handled(storage: Storage, response: HandleResponse)

  // ---------------------------------------------------------------------
  // Shapes of the emitted messages

  /** The token may only be minted by `contract`, without a cap. */
  predicate MintableOnlyBy(t: TokenInitMsg, contract: HumanAddr) {
    t.mint == Some(MinterResponse(contract, None))
  }

  /** Once instantiated, the token sends `PostInitialize` back to `contract`. */
  predicate CallsBackPostInitialize(t: TokenInitMsg, contract: HumanAddr) {
    t.initHook == Some(InitHook(ContractHandle(PostInitialize), contract))
  }

  /** `m` instantiates a fresh wrapper token from code `codeId`, with no
      funds, no initial balances, mint rights held by `contract`, and a
      callback of `PostInitialize` to `contract`. */
  predicate IsTokenInstantiation(m: CosmosMsg, codeId: U64, contract: HumanAddr) {
    && m.wasm.Instantiate?
    && m.wasm.codeId == codeId
    && m.wasm.send == []
    && m.wasm.instanceLabel == None
    && m.wasm.msg.TokenInit?
    && var t := m.wasm.msg.tokenInit;
    && t.name == LP_TOKEN_NAME
    && t.symbol == LP_TOKEN_SYMBOL
    && t.decimals == LP_TOKEN_DECIMALS
    && t.initialBalances == []
    && MintableOnlyBy(t, contract)
    && CallsBackPostInitialize(t, contract)
  }

  /** `m` asks the pair at `pair` to swap `offer` at market price (no spread
      cap, no belief price, proceeds to the caller), attaching exactly the
      offered amount in `SWAP_DENOM`. */
  predicate IsSwapOn(m: CosmosMsg, pair: HumanAddr, offer: Asset) {
    && m.wasm.Execute?
    && m.wasm.contractAddr == pair
    && m.wasm.msg == PairHandle(Swap(offer, None, None, None))
    && m.wasm.send == [Coin(SWAP_DENOM, offer.amount)]
  }

  /** `m` asks the CW20 contract at `token` to mint `amount` to `recipient`,
      attaching no funds. */
  predicate IsMintOn(m: CosmosMsg, token: HumanAddr, recipient: HumanAddr, amount: Uint128) {
    && m.wasm.Execute?
    && m.wasm.contractAddr == token
    && m.wasm.msg == Cw20Handle(Cw20Mint(recipient, amount))
    && m.wasm.send == []
  }

  /** Owner, asset and pair agree. */
  predicate SameIdentity(a: State, b: State) {
    a.owner == b.owner && a.asset == b.asset && a.pair == b.pair
  }

  /** Every foreign call `try_mint` makes succeeds. */
  predicate MintCallsSucceed(deps: Deps, asset: Asset) {
    && ConfigRead(deps.storage).Success?
    && deps.querier.deductTax(asset).Success?
    && deps.api.humanAddress(ConfigRead(deps.storage).value.pair).Success?
    && deps.api.humanAddress(ConfigRead(deps.storage).value.token).Success?
  }

  // ---------------------------------------------------------------------
  // Entry points

  /** `init`: records the sender as owner, the asset and pair from the
      message, and no token yet; then asks the chain to instantiate the
      wrapper token, which will call back `PostInitialize`. */
  function Init(deps: Deps, env: Env, msg: InitMsg): (r: StdResult<Initialized>)
    ensures r.Success? <==>
      && deps.api.canonicalAddress(env.sender).Success?
      && deps.api.canonicalAddress(msg.asset).Success?
      && deps.api.canonicalAddress(msg.pair).Success?
    ensures r.Success? ==>
      ConfigRead(r.value.storage) == Success(State(
        deps.api.canonicalAddress(env.sender).value,
        deps.api.canonicalAddress(msg.asset).value,
        deps.api.canonicalAddress(msg.pair).value,
        EMPTY_ADDR))
    ensures r.Success? ==> r.value.storage.entries - {CONFIG_KEY} == deps.storage.entries - {CONFIG_KEY}
    ensures r.Success? ==>
      && |r.value.response.messages| == 1
      && IsTokenInstantiation(r.value.response.messages[0], msg.tokenCodeId, env.contractAddress)
      && r.value.response.log == []
  {
    var owner :- deps.api.canonicalAddress(env.sender);
    var asset :- deps.api.canonicalAddress(msg.asset);
    var pair :- deps.api.canonicalAddress(msg.pair);
    var storage := ContractState.Config(deps.storage, State(owner, asset, pair, EMPTY_ADDR));
    var tokenInit := TokenInitMsg(
      LP_TOKEN_NAME, LP_TOKEN_SYMBOL, LP_TOKEN_DECIMALS, [],
      Some(MinterResponse(env.contractAddress, None)),
      Some(InitHook(ContractHandle(PostInitialize), env.contractAddress)));
    var instantiate := Wasm(Instantiate(msg.tokenCodeId, TokenInit(tokenInit), [], None));
    Success(Initialized(storage, InitResponse([instantiate], [])))
  }

  /** `handle`: dispatch on the message variant. */
  function Handle(deps: Deps, env: Env, msg: HandleMsg): (r: StdResult<Handled>)
    ensures r.Success? && !msg.PostInitialize? ==> r.value.storage == deps.storage
    ensures msg.Redeem? ==> r == Success(Handled(deps.storage, DEFAULT_RESPONSE))
    ensures msg.PostInitialize? ==> r == TryPostInitialize(deps, env)
    ensures msg.Mint? ==> r == TryMint(deps, env, msg.asset)
  {
    match msg
    case PostInitialize => TryPostInitialize(deps, env)
    case Mint(asset) => TryMint(deps, env, asset)
    case Redeem(asset) => TryRedeem(deps, env, asset)
  }

  /** `try_mint`: a swap of the tax-deducted deposit on the pair, followed by
      a mint of the constant `MINT_AMOUNT` to the sender. Storage is not
      written, and nothing checks that the token has been bound. */
  function TryMint(deps: Deps, env: Env, asset: Asset): (r: StdResult<Handled>)
    ensures ConfigRead(deps.storage).Failure? ==> r == Failure(NotFound(STATE_KIND))
    ensures r.Success? <==> MintCallsSucceed(deps, asset)
    ensures r.Success? ==> r.value.storage == deps.storage
    ensures r.Success? ==>
      var state := ConfigRead(deps.storage).value;
      var msgs := r.value.response.messages;
      && |msgs| == 2
      && IsSwapOn(msgs[0], deps.api.humanAddress(state.pair).value,
                  Asset(asset.info, deps.querier.deductTax(asset).value.amount))
      && IsMintOn(msgs[1], deps.api.humanAddress(state.token).value, env.sender, MINT_AMOUNT)
  {
    var state :- ConfigRead(deps.storage);
    var taxed :- deps.querier.deductTax(asset);
    var amount := taxed.amount;
    var pairAddr :- deps.api.humanAddress(state.pair);
    var swap := Wasm(Execute(
      pairAddr,
      PairHandle(Swap(Asset(asset.info, amount), None, None, None)),
      [Coin(SWAP_DENOM, amount)]));
    var tokenAddr :- deps.api.humanAddress(state.token);
    var mint := Wasm(Execute(tokenAddr, Cw20Handle(Cw20Mint(env.sender, MINT_AMOUNT)), []));
    Success(Handled(deps.storage, HandleResponse([swap, mint], [LogAttribute("action", "swap")])))
  }

  /** `try_post_initialize`: binds the token slot to the caller, but only
      while it still holds the empty address. */
  function TryPostInitialize(deps: Deps, env: Env): (r: StdResult<Handled>)
    ensures ConfigRead(deps.storage).Failure? ==> r == Failure(NotFound(STATE_KIND))
    ensures ConfigRead(deps.storage).Success? && ConfigRead(deps.storage).value.token != EMPTY_ADDR ==>
      r == Failure(Unauthorized)
    ensures r.Success? <==>
      && ConfigRead(deps.storage).Success?
      && ConfigRead(deps.storage).value.token == EMPTY_ADDR
      && deps.api.canonicalAddress(env.sender).Success?
    ensures r.Success? ==>
      && ConfigRead(r.value.storage).Success?
      && SameIdentity(ConfigRead(r.value.storage).value, ConfigRead(deps.storage).value)
      && ConfigRead(r.value.storage).value.token == deps.api.canonicalAddress(env.sender).value
      && r.value.storage.entries - {CONFIG_KEY} == deps.storage.entries - {CONFIG_KEY}
      && r.value.response.messages == []
  {
    var state :- ConfigRead(deps.storage);
    if state.token != EMPTY_ADDR then
      Failure(Unauthorized)
    else
      var token :- deps.api.canonicalAddress(env.sender);
      var storage := ContractState.Config(deps.storage, state.(token := token));
      Success(Handled(storage, HandleResponse([], [LogAttribute("liquidity_token_addr", env.sender.text)])))
  }

  /** `try_redeem`: an unimplemented stub. It does not even load the state. */
  function TryRedeem(deps: Deps, env: Env, asset: Asset): StdResult<Handled> {
    Success(Handled(deps.storage, DEFAULT_RESPONSE))
  }

  /** `query`: dispatch on the query variant. */
  function Query(deps: Deps, msg: QueryMsg): (r: StdResult<QueryResponse>)
    ensures msg.Config? ==>
      && (r.Success? <==> QueryConfig(deps).Success?)
      && (r.Success? ==> r.value == ConfigAnswer(QueryConfig(deps).value))
    ensures msg.Price? ==>
      && (r.Success? <==> QueryPrice(deps, msg.asset).Success?)
      && (r.Success? ==> r.value == PriceAnswer(QueryPrice(deps, msg.asset).value))
  {
    match msg
    case Config =>
      var config :- QueryConfig(deps);
      Success(ConfigAnswer(config))
    case Price(asset) =>
      var price :- QueryPrice(deps, asset);
      Success(PriceAnswer(price))
  }

  /** `query_config`: the owner, in human-readable form. */
  function QueryConfig(deps: Deps): (r: StdResult<ConfigResponse>)
    ensures r.Success? <==>
      ConfigRead(deps.storage).Success? && deps.api.humanAddress(ConfigRead(deps.storage).value.owner).Success?
    ensures ConfigRead(deps.storage).Failure? ==> r == Failure(NotFound(STATE_KIND))
    ensures r.Success? ==> r.value.owner == deps.api.humanAddress(ConfigRead(deps.storage).value.owner).value
  {
    var state :- ConfigRead(deps.storage);
    var owner :- deps.api.humanAddress(state.owner);
    Success(ConfigResponse(owner))
  }

  /** `query_price`: the pair's simulated swap of `asset`, with the pair's
      address. `query_price` translates the pair's address a second time for
      the answer; translation is a function, so that second call returns the
      first one's value and cannot fail, and is folded into the first. */
  function QueryPrice(deps: Deps, asset: Asset): (r: StdResult<PriceResponse>)
    ensures ConfigRead(deps.storage).Failure? ==> r == Failure(NotFound(STATE_KIND))
    ensures r.Success? <==>
      && ConfigRead(deps.storage).Success?
      && deps.api.humanAddress(ConfigRead(deps.storage).value.pair).Success?
      && deps.querier.simulate(deps.api.humanAddress(ConfigRead(deps.storage).value.pair).value, asset).Success?
    ensures r.Success? ==>
      var pair := deps.api.humanAddress(ConfigRead(deps.storage).value.pair).value;
      r.value.pair == pair && r.value.price == deps.querier.simulate(pair, asset).value
  {
    var state :- ConfigRead(deps.storage);
    var pairAddr :- deps.api.humanAddress(state.pair);
    var response :- deps.querier.simulate(pairAddr, asset);
    Success(PriceResponse(pairAddr, response))
  }
}
