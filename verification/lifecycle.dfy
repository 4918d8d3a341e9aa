/** How the entry points combine over the contract's life: nothing works
    before `init`, `init` sets up what the queries and the binding read,
    and what `Mint` does and does not depend on. */
module Lifecycle {
  import opened Wrappers
  import opened Cosmos
  import opened Terraswap
  import opened Msg
  import opened ContractState
  import opened Contract
  import opened Binding

  /** Before anything is saved, every entry point that loads the record
      fails with `NotFound`; `Redeem`, which loads nothing, still succeeds. */
  lemma EntryPointsFailBeforeInit(deps: Deps, env: Env, msg: HandleMsg, query: QueryMsg)
    requires CONFIG_KEY !in deps.storage.entries
    ensures !msg.Redeem? ==> Handle(deps, env, msg) == Failure(NotFound(STATE_KIND))
    ensures msg.Redeem? ==> Handle(deps, env, msg) == Success(Handled(deps.storage, DEFAULT_RESPONSE))
    ensures Query(deps, query) == Failure(NotFound(STATE_KIND))
  {
  }

  /** After `init`, the record is unbound and `PostInitialize` from the new
      token contract binds it to that contract, keeping everything else
      `init` stored. */
  lemma InitThenPostInitializeBinds(deps: Deps, env: Env, msg: InitMsg, token: Env)
    requires Init(deps, env, msg).Success?
    requires deps.api.canonicalAddress(token.sender).Success?
    ensures
      var initialized := Init(deps, env, msg).value.storage;
      && PhaseOf(ConfigRead(initialized).value) == Unbound
      && var r := Handle(Deps(initialized, deps.api, deps.querier), token, PostInitialize);
      && r.Success?
      && ConfigRead(r.value.storage) == Success(State(
           deps.api.canonicalAddress(env.sender).value,
           deps.api.canonicalAddress(msg.asset).value,
           deps.api.canonicalAddress(msg.pair).value,
           deps.api.canonicalAddress(token.sender).value))
  {
  }

  /** When address translation round-trips for the deployer, the config
      query after `init` names the deployer as owner. */
  lemma ConfigQueryAfterInit(deps: Deps, env: Env, msg: InitMsg)
    requires Init(deps, env, msg).Success?
    requires deps.api.humanAddress(deps.api.canonicalAddress(env.sender).value) == Success(env.sender)
    ensures
      Query(Deps(Init(deps, env, msg).value.storage, deps.api, deps.querier), QueryMsg.Config)
        == Success(ConfigAnswer(ConfigResponse(env.sender)))
  {
  }

  /** When address translation round-trips for the pair, the price query
      after `init` asks the pair named in the init message and returns its
      answer unchanged. */
  lemma PriceQueryAfterInit(deps: Deps, env: Env, msg: InitMsg, asset: Asset)
    requires Init(deps, env, msg).Success?
    requires deps.api.humanAddress(deps.api.canonicalAddress(msg.pair).value) == Success(msg.pair)
    requires deps.querier.simulate(msg.pair, asset).Success?
    ensures
      Query(Deps(Init(deps, env, msg).value.storage, deps.api, deps.querier), Price(asset))
        == Success(PriceAnswer(PriceResponse(msg.pair, deps.querier.simulate(msg.pair, asset).value)))
  {
  }

  /** The minted quantity does not depend on the deposit: two successful
      mints by the same sender emit the same mint message. A corollary of
      `TryMint`'s contract, stated on the `Mint` message as dispatched by
      `Handle`. */
  lemma MintIgnoresDeposit(deps: Deps, env: Env, small: Asset, large: Asset)
    requires Handle(deps, env, Mint(small)).Success?
    requires Handle(deps, env, Mint(large)).Success?
    ensures Handle(deps, env, Mint(small)).value.response.messages[1]
         == Handle(deps, env, Mint(large)).value.response.messages[1]
  {
  }

  /** The swap offers the deposit's asset with exactly the tax-deducted
      amount, and attaches that same amount of `SWAP_DENOM`. A corollary of
      `TryMint`'s contract, stated on the `Mint` message as dispatched by
      `Handle`. */
  lemma SwapOffersTaxedDeposit(deps: Deps, env: Env, asset: Asset)
    requires Handle(deps, env, Mint(asset)).Success?
    ensures
      var swap := Handle(deps, env, Mint(asset)).value.response.messages[0].wasm;
      var net := deps.querier.deductTax(asset).value.amount;
      && swap.msg.PairHandle?
      && swap.msg.pairMsg.offerAsset == Asset(asset.info, net)
      && swap.send == [Coin(SWAP_DENOM, net)]
  {
  }

  /** `Mint` has no binding guard of its own: on an unbound record it fails
      exactly when the host cannot translate the empty address (or an
      earlier call fails), and otherwise mints through whatever that
      translation yields. */
  lemma MintBeforeBindingDependsOnTranslation(deps: Deps, env: Env, asset: Asset)
    requires ConfigRead(deps.storage).Success?
    requires PhaseOf(ConfigRead(deps.storage).value) == Unbound
    requires deps.querier.deductTax(asset).Success?
    requires deps.api.humanAddress(ConfigRead(deps.storage).value.pair).Success?
    ensures Handle(deps, env, Mint(asset)).Success? <==> deps.api.humanAddress(EMPTY_ADDR).Success?
  {
  }
}
