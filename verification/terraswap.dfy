/** The Terraswap asset types and the two Terraswap helpers the contract
    calls, which query the chain and are therefore injected. */
module Terraswap {
  import opened Cosmos

  datatype AssetInfo =
    | Token(contractAddr: HumanAddr)
    | NativeToken(denom: string)

  datatype Asset = Asset(info: AssetInfo, amount: Uint128)

  /** A fixed-point decimal, kept as its raw 18-digit atomics. */
  datatype Decimal = Decimal(atomics: Uint128)

  /** Answer of a pair's simulated swap. */
  datatype SimulationResponse = SimulationResponse(
    returnAmount: Uint128,
    spreadAmount: Uint128,
    commissionAmount: Uint128)

  /** `Asset::deduct_tax` (asks the chain's treasury for the tax on a
      transfer) and `querier::simulate` (asks a pair to simulate a swap). */
  datatype Querier = Querier(
    deductTax: Asset -> StdResult<Coin>,
    simulate: (HumanAddr, Asset) -> StdResult<SimulationResponse>)
}
