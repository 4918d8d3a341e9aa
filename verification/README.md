# Wrapper protocol contract — Dafny model

A model of the wrapper-protocol CosmWasm contract (`src/contract.rs`,
`src/state.rs`): a single-asset, single-pair contract that, on `Mint`,
swaps the tax-deducted deposit on a Terraswap pair and mints a fixed
quantity of its own CW20 wrapper token to the caller. The wrapper token is
instantiated by `init` and registers itself once through a
`PostInitialize` callback.

Every entry point is a pure function of the storage, the host's
capabilities and the message, returning either a `StdError` or the new
storage with the ordered list of messages for the chain to dispatch.

| file | module | models |
|---|---|---|
| `wrappers.dfy` | `Wrappers` | `Result` / `Option`, so handlers use `:-` as the Rust code uses `?` |
| `cosmos.dfy` | `Cosmos` | fixed-width integers, `HumanAddr`, `CanonicalAddr` and its empty default, `Coin`, `StdError`, `Env`, and the address-translation capability `Api` |
| `terraswap.dfy` | `Terraswap` | `Asset`, `AssetInfo`, `SimulationResponse`, and the injected `deduct_tax` / `simulate` queries (`Querier`) |
| `msg.dfy` | `Msg` | incoming messages, responses, and the outgoing instantiate / swap / CW20 mint messages with decoded payloads |
| `state.dfy` | `ContractState` | the `State` record, storage, and the `config` / `config_read` singleton under the key `b"config"` |
| `contract.dfy` | `Contract` | `init`, `handle`, `try_mint`, `try_post_initialize`, `try_redeem`, `query`, `query_config`, `query_price` |
| `binding.dfy` | `Binding` | the token slot as an `Unbound` / `Bound` machine, and what any sequence of handled calls can do to the record |
| `lifecycle.dfy` | `Lifecycle` | properties spanning several entry points |

The foreign calls are parameters, not code. `canonical_address` and
`human_address` are the function fields of `Api`, and either may fail.
`deduct_tax` and `simulate` are the function fields of `Querier`. Nothing is
assumed about them except where a lemma says so in its `requires` (for
example, that translation round-trips for one address).

Facts about the contract that the model makes explicit:
- The contract handles one asset and one Terraswap pair.
- `Mint` has no "token must be bound" guard. On an unbound record whose
  load, tax deduction and pair translation succeed, it fails exactly when
  the host cannot translate the empty address
  (`Lifecycle.MintBeforeBindingDependsOnTranslation`).
- `Redeem` returns `HandleResponse::default()` as a success.
- `try_redeem` does not load the record. So `Redeem` succeeds even before
  `init`, while every other handle or query entry point fails with
  `NotFound` (`Lifecycle.EntryPointsFailBeforeInit`).
- Message variants follow their use in `src/contract.rs`, which differs
  from `src/msg.rs`. `PostInitialize` and `Price` are included, and
  `InitMsg` carries `asset`, `pair` and `token_code_id`.

## Model

| member | source | states |
|---|---|---|
| ContractState.Config | src/state.rs:17-19 | saving stores the whole record under `CONFIG_KEY`, so a later load returns exactly that record; every other key keeps its value |
| ContractState.ConfigRead | src/state.rs:21-23 | loading succeeds exactly when something is saved under `CONFIG_KEY` and returns it; otherwise it fails with `NotFound` |
| ContractState.ConfigKeySpellsConfig | src/state.rs:7 | the storage key is the six ASCII bytes of "config" |
| ContractState.ConfigOverwrites | src/state.rs:17-19 | a second save replaces the first completely |
| ContractState.ConfigOfLoadedIsNoOp | src/state.rs:17-23 | saving back the record just loaded leaves storage unchanged |
| ContractState.ConfigReadOfEmptyFails | src/state.rs:21-23 | nothing can be loaded from empty storage |
| Contract.Init | src/contract.rs:15-54 | succeeds exactly when the sender, asset and pair addresses translate; stores owner = sender, the message's asset and pair, and the empty token; leaves other keys alone; emits exactly one message, an instantiation of `token_code_id` with minter = this contract, no initial balances, and an init hook that sends `PostInitialize` to this contract |
| Contract.Handle | src/contract.rs:56-66 | `PostInitialize` and `Mint` behave exactly as `try_post_initialize` and `try_mint`, and only `PostInitialize` can change storage; `Redeem` always succeeds with the default response and writes nothing |
| Contract.TryMint | src/contract.rs:68-114 | fails with `NotFound` before init; succeeds exactly when the load, the tax deduction and both address translations succeed; writes nothing; emits exactly two messages, in order: a swap on the pair of the deposit's asset at the tax-deducted amount with that amount attached in `uusd` and no spread, belief price or recipient, then a CW20 mint of 1000000 to the sender on the token |
| Contract.TryPostInitialize | src/contract.rs:116-141 | fails with `NotFound` before init and with `Unauthorized` once the token is non-empty; otherwise succeeds exactly when the sender translates, sets token to the sender's canonical address, keeps owner, asset and pair, leaves other keys alone, and emits no messages |
| Contract.Query | src/contract.rs:152-160 | a config query succeeds exactly when `query_config` does and answers with its response; a price query likewise with `query_price` for the given asset |
| Contract.QueryConfig | src/contract.rs:162-165 | fails with `NotFound` before init; otherwise returns the stored owner in human form, failing exactly when that translation fails |
| Contract.QueryPrice | src/contract.rs:167-171 | fails with `NotFound` before init; otherwise returns the pair's human address and the pair's simulated swap of the given asset, failing exactly when either call fails |
| Binding.PostInitializeRefinesBindStep | src/contract.rs:121-140 | `PostInitialize` agrees with the two-state reference machine: an unbound record takes the caller's address and a bound one rejects with `Unauthorized` |
| Binding.BindingIsOneShot | src/contract.rs:124-134 | after a binding to a non-empty address, every later `PostInitialize`, from any sender, fails with `Unauthorized`, and the bound token is the first caller's |
| Binding.StepEvolves | src/contract.rs:56-150 | one handled call, failed or not, never changes owner, asset or pair, never changes a bound token, and touches no other key |
| Binding.RunEvolves | src/contract.rs:56-150 | the same holds over any sequence of handled calls |
| Binding.AtMostOneBinding | src/contract.rs:121-134 | over any sequence of calls whose senders translate to non-empty addresses, at most one `PostInitialize` succeeds, and none if the token was already bound |
| Binding.BoundTokenIsPermanent | src/contract.rs:124-134 | once a non-empty token is bound, it is still the stored token after any later sequence of calls |
| Lifecycle.EntryPointsFailBeforeInit | src/contract.rs:56-172 | before init, `PostInitialize`, `Mint` and both queries fail with `NotFound`, while `Redeem`, which never loads the record, succeeds |
| Lifecycle.InitThenPostInitializeBinds | src/contract.rs:15-141 | after init the record is unbound, and a `PostInitialize` from the new token contract binds it, keeping the owner, asset and pair that init stored |
| Lifecycle.ConfigQueryAfterInit | src/contract.rs:162-165 | if the deployer's address round-trips, the config query after init names the deployer as owner |
| Lifecycle.PriceQueryAfterInit | src/contract.rs:167-171 | if the pair's address round-trips, the price query after init asks the init message's pair and returns its simulation unchanged |
| Lifecycle.MintIgnoresDeposit | src/contract.rs:97-105 | two successful mints by the same sender emit the same mint message, whatever the deposits |
| Lifecycle.SwapOffersTaxedDeposit | src/contract.rs:76-95 | the swap offers the deposit's asset info with the tax-deducted amount and attaches exactly that amount of `uusd` |
| Lifecycle.MintBeforeBindingDependsOnTranslation | src/contract.rs:74-105 | on an unbound record whose earlier calls succeed, `Mint` succeeds exactly when the host translates the empty address |

## Left out

- Serialization: `to_binary` is modelled as never failing. Message bodies are kept decoded (`Payload`) rather than as bytes, and the stored record is kept as a value rather than as its JSON encoding.
- Storage writes are modelled as never failing. The storage model holds only `State` values, keyed by bytes.
- `Singleton`'s key encoding is not modelled; the record sits at `CONFIG_KEY` itself rather than under the storage library's length-prefixed namespace.
- The `NotFound` error carries the kind `"State"`. The host's full type-name text is not modelled.
- The `data` field of `HandleResponse` is always `None` in this contract and is omitted. Log attributes are kept.
- Contract.QueryPrice: the source translates the pair address a second time for the answer. Translation is a function, so that second call repeats the first one's result and cannot fail, and it is folded into the first.
- `canonical_address`, `human_address`, `deduct_tax` and `simulate` are host or chain calls. They are injected as uninterpreted functions, and their internals (bech32, treasury tax rate and cap, pair reserves) are not modelled.
- `try_redeem` has no contract of its own. It is a stub, and its behaviour (success, default response, storage unchanged) is stated on `Contract.Handle`.
- `src/msg.rs` is not modelled: its declarations are out of step with the contract.
- Gas, the host's message dispatch and the execution of emitted messages are not modelled. Atomicity is modelled only as "a failed call leaves storage unchanged" (`Binding.Step`).
