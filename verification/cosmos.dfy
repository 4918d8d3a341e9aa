/** The part of the host chain's standard library that the contract relies
    on: fixed-width integers, the two address forms, coins, errors, the
    execution environment and the address-translation capability. */
module Cosmos {
  import opened Wrappers

  const TWO_TO_THE_8: int := 0x100
  const TWO_TO_THE_64: int := 0x1_0000_0000_0000_0000
  const TWO_TO_THE_128: int := 0x1_0000_0000_0000_0000_0000_0000_0000_0000

  type U8 = x: int | 0 <= x < TWO_TO_THE_8
  type U64 = x: int | 0 <= x < TWO_TO_THE_64
  /** `Uint128`: an unsigned 128-bit amount. */
  type Uint128 = x: int | 0 <= x < TWO_TO_THE_128

  /** A user-facing (bech32) address. */
  datatype HumanAddr = HumanAddr(text: string)

  /** The chain's canonical binary form of an address. */
  datatype CanonicalAddr = CanonicalAddr(bytes: seq<bv8>)

  /** `CanonicalAddr::default()`: the empty byte string, used as the
      "no address yet" sentinel. */
  const EMPTY_ADDR: CanonicalAddr := CanonicalAddr([])

  datatype Coin = Coin(denom: string, amount: Uint128)

  /** The error kinds the contract can produce or pass through. Errors of
      the foreign capabilities are carried as `GenericErr`. */
  datatype StdError =
    | NotFound(kind: string)
    | Unauthorized
    | GenericErr(msg: string)

  type StdResult<T> = Result<T, StdError>

  /** Address translation supplied by the host. Both directions may fail,
      and nothing is assumed about how they relate to each other. */
  datatype Api = Api(
    canonicalAddress: HumanAddr -> StdResult<CanonicalAddr>,
    humanAddress: CanonicalAddr -> StdResult<HumanAddr>)

  /** The part of `Env` the contract reads: who sent the message and the
      contract's own address. */
  datatype Env = Env(sender: HumanAddr, contractAddress: HumanAddr)

  datatype LogAttribute = LogAttribute(key: string, value: string)
}
