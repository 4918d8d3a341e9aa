/** The token binding as a two-state machine, and what a whole sequence of
    handled messages can do to the stored record. */
module Binding {
  import opened Wrappers
  import opened Cosmos
  import opened Terraswap
  import opened Msg
  import opened ContractState
  import opened Contract

  /** Whether the wrapper token has registered itself yet. */
  datatype Phase = Unbound | Bound(token: CanonicalAddr)

  /** The phase a stored record is in: the empty address means unbound. */
  function PhaseOf(s: State): Phase {
    if s.token == EMPTY_ADDR then Unbound else Bound(s.token)
  }

  /** Reference transition of the binding: an unbound slot takes the
      candidate (an empty candidate leaves it unbound), and every attempt on
      a bound slot is unauthorized. */
  function BindStep(p: Phase, candidate: CanonicalAddr): StdResult<Phase> {
    match p
    case Unbound => Success(if candidate == EMPTY_ADDR then Unbound else Bound(candidate))
    case Bound(_) => Failure(Unauthorized)
  }

  /** `PostInitialize` does exactly what `BindStep` prescribes, for any
      stored record and any sender whose address translates. */
  lemma PostInitializeRefinesBindStep(deps: Deps, env: Env)
    requires ConfigRead(deps.storage).Success?
    requires deps.api.canonicalAddress(env.sender).Success?
    ensures
      var step := BindStep(PhaseOf(ConfigRead(deps.storage).value), deps.api.canonicalAddress(env.sender).value);
      var r := Handle(deps, env, PostInitialize);
      && (r.Success? <==> step.Success?)
      && (r.Failure? ==> r.error == step.error)
      && (r.Success? ==> PhaseOf(ConfigRead(r.value.storage).value) == step.value)
  {
  }

  /** The binding happens at most once: after a `PostInitialize` that bound
      a non-empty address, any later `PostInitialize`, from anyone, is
      rejected and the bound address is the first caller's. */
  lemma BindingIsOneShot(deps: Deps, first: Env, later: Env)
    requires Handle(deps, first, PostInitialize).Success?
    requires deps.api.canonicalAddress(first.sender) != Success(EMPTY_ADDR)
    ensures
      var bound := Handle(deps, first, PostInitialize).value.storage;
      && ConfigRead(bound).Success?
      && PhaseOf(ConfigRead(bound).value) == Bound(deps.api.canonicalAddress(first.sender).value)
      && Handle(Deps(bound, deps.api, deps.querier), later, PostInitialize) == Failure(Unauthorized)
  {
  }

  // ---------------------------------------------------------------------
  // Sequences of handled messages

  datatype Call = Call(env: Env, msg: HandleMsg)

  /** One handled call. A failed call leaves storage as it was: the host
      discards every write of a call that returns an error. */
  function Step(storage: Storage, api: Api, querier: Querier, call: Call): Storage {
    match Handle(Deps(storage, api, querier), call.env, call.msg)
    case Success(handled) => handled.storage
    case Failure(_) => storage
  }

  /** The storage after handling `calls` in order. */
  function Run(storage: Storage, api: Api, querier: Querier, calls: seq<Call>): Storage
    decreases |calls|
  {
    if calls == [] then storage
    else Run(Step(storage, api, querier, calls[0]), api, querier, calls[1..])
  }

  /** `call` is a `PostInitialize` that succeeds on `storage`. */
  predicate Binds(storage: Storage, api: Api, querier: Querier, call: Call) {
    call.msg.PostInitialize? && Handle(Deps(storage, api, querier), call.env, call.msg).Success?
  }

  /** How many calls of `calls` bind the token. */
  function BindCount(storage: Storage, api: Api, querier: Querier, calls: seq<Call>): nat
    decreases |calls|
  {
    if calls == [] then 0
    else
      (if Binds(storage, api, querier, calls[0]) then 1 else 0)
      + BindCount(Step(storage, api, querier, calls[0]), api, querier, calls[1..])
  }

  /** `after` can follow `before`: owner, asset and pair are unchanged, and
      a bound token stays bound to the same address. */
  predicate Evolves(before: State, after: State) {
    SameIdentity(before, after) && (before.token != EMPTY_ADDR ==> after.token == before.token)
  }

  /** No sender of `calls` translates to the empty address. */
  predicate SendersTranslateNonEmpty(api: Api, calls: seq<Call>) {
    forall i :: 0 <= i < |calls| ==> api.canonicalAddress(calls[i].env.sender) != Success(EMPTY_ADDR)
  }

  /** A single call keeps the record loadable, lets it only evolve, and
      touches no other key. */
  lemma StepEvolves(storage: Storage, api: Api, querier: Querier, call: Call)
    requires ConfigRead(storage).Success?
    ensures ConfigRead(Step(storage, api, querier, call)).Success?
    ensures Evolves(ConfigRead(storage).value, ConfigRead(Step(storage, api, querier, call)).value)
    ensures Step(storage, api, querier, call).entries - {CONFIG_KEY} == storage.entries - {CONFIG_KEY}
  {
  }

  /** Any sequence of calls keeps the record loadable, never changes owner,
      asset or pair, never rebinds a bound token, and touches no other key. */
  lemma {:induction false} RunEvolves(storage: Storage, api: Api, querier: Querier, calls: seq<Call>)
    requires ConfigRead(storage).Success?
    ensures ConfigRead(Run(storage, api, querier, calls)).Success?
    ensures Evolves(ConfigRead(storage).value, ConfigRead(Run(storage, api, querier, calls)).value)
    ensures Run(storage, api, querier, calls).entries - {CONFIG_KEY} == storage.entries - {CONFIG_KEY}
    decreases |calls|
  {
    if calls != [] {
      var next := Step(storage, api, querier, calls[0]);
      StepEvolves(storage, api, querier, calls[0]);
      RunEvolves(next, api, querier, calls[1..]);
    }
  }

  /** Over any sequence of calls whose senders translate to non-empty
      addresses, at most one `PostInitialize` succeeds, and none does when
      the token was already bound. */
  lemma {:induction false} AtMostOneBinding(storage: Storage, api: Api, querier: Querier, calls: seq<Call>)
    requires ConfigRead(storage).Success?
    requires SendersTranslateNonEmpty(api, calls)
    ensures BindCount(storage, api, querier, calls) <= (if PhaseOf(ConfigRead(storage).value) == Unbound then 1 else 0)
    decreases |calls|
  {
    if calls != [] {
      var next := Step(storage, api, querier, calls[0]);
      StepEvolves(storage, api, querier, calls[0]);
      assert SendersTranslateNonEmpty(api, calls[1..]) by {
        forall i | 0 <= i < |calls[1..]|
          ensures api.canonicalAddress(calls[1..][i].env.sender) != Success(EMPTY_ADDR)
        {
          assert calls[1..][i] == calls[i + 1];
        }
      }
      AtMostOneBinding(next, api, querier, calls[1..]);
      if Binds(storage, api, querier, calls[0]) {
        assert api.canonicalAddress(calls[0].env.sender) != Success(EMPTY_ADDR);
        assert PhaseOf(ConfigRead(next).value).Bound?;
      }
    }
  }

  /** Once a non-empty address is bound, it stays bound through any
      sequence of later calls. */
  lemma BoundTokenIsPermanent(deps: Deps, first: Env, calls: seq<Call>)
    requires Handle(deps, first, PostInitialize).Success?
    requires deps.api.canonicalAddress(first.sender) != Success(EMPTY_ADDR)
    ensures
      var bound := Handle(deps, first, PostInitialize).value.storage;
      var last := Run(bound, deps.api, deps.querier, calls);
      && ConfigRead(last).Success?
      && ConfigRead(last).value.token == deps.api.canonicalAddress(first.sender).value
  {
    var bound := Handle(deps, first, PostInitialize).value.storage;
    RunEvolves(bound, deps.api, deps.querier, calls);
  }
}
