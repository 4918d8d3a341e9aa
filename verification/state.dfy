/** The contract's persistent record and its singleton save/load under one
    fixed storage key. */
module ContractState {
  import opened Wrappers
  import opened Cosmos

  /** The storage key `b"config"`, as bytes. */
  const CONFIG_KEY: seq<bv8> := [0x63, 0x6f, 0x6e, 0x66, 0x69, 0x67]

  /** The kind named by the `NotFound` error of a load from an empty slot. */
  const STATE_KIND: string := "State"

  /** The single configuration record: who deployed the contract, the asset
      and Terraswap pair it trades, and its wrapper token (`EMPTY_ADDR`
      until the token contract has called back). */
  datatype State = State(
    owner: CanonicalAddr,
    asset: CanonicalAddr,
    pair: CanonicalAddr,
    token: CanonicalAddr)

  /** Contract storage, restricted to the keys that hold a `State`. */
  datatype Storage = Storage(entries: map<seq<bv8>, State>)

  const EMPTY_STORAGE: Storage := Storage(map[])

  /** `config`: saves the whole record under `CONFIG_KEY`, replacing what
      was there and leaving every other key as it was. */
  function Config(storage: Storage, data: State): (r: Storage)
    ensures ConfigRead(r) == Success(data)
    ensures r.entries.Keys == storage.entries.Keys + {CONFIG_KEY}
    ensures forall k :: k in storage.entries && k != CONFIG_KEY ==> r.entries[k] == storage.entries[k]
  {
    Storage(storage.entries[CONFIG_KEY := data])
  }

  /** `config_read`: loads the record saved under `CONFIG_KEY`, or fails with
      `NotFound` when nothing has been saved there. */
  function ConfigRead(storage: Storage): (r: StdResult<State>)
    ensures r.Success? <==> CONFIG_KEY in storage.entries
    ensures r.Success? ==> r.value == storage.entries[CONFIG_KEY]
    ensures r.Failure? ==> r.error == NotFound(STATE_KIND)
  {
    if CONFIG_KEY in storage.entries then Success(storage.entries[CONFIG_KEY])
    else Failure(NotFound(STATE_KIND))
  }

  /** The key is the ASCII spelling of "config". */
  lemma ConfigKeySpellsConfig()
    ensures |CONFIG_KEY| == |"config"|
    ensures forall i :: 0 <= i < |CONFIG_KEY| ==> CONFIG_KEY[i] as int == "config"[i] as int
  {
  }

  /** A second save replaces the first entirely. */
  lemma ConfigOverwrites(storage: Storage, first: State, second: State)
    ensures Config(Config(storage, first), second) == Config(storage, second)
    ensures ConfigRead(Config(Config(storage, first), second)) == Success(second)
  {
  }

  /** Saving the record that is already stored changes nothing. */
  lemma ConfigOfLoadedIsNoOp(storage: Storage)
    requires ConfigRead(storage).Success?
    ensures Config(storage, ConfigRead(storage).value) == storage
  {
  }

  /** Nothing can be loaded from storage where nothing was saved. */
  lemma ConfigReadOfEmptyFails()
    ensures ConfigRead(EMPTY_STORAGE) == Failure(NotFound(STATE_KIND))
  {
  }
}
