# use-fetch, modelled in Dafny

`useFetch(url, options)` is a React hook that tracks one network request at a
time. It holds a `State<T>` (`status` ∈ Idle/Loading/Success/Failure, `data`,
`error`) in a reducer. Whenever `(url, options)` changes, its effect dispatches
a Request action, opens a fresh `active` flag and starts `fetch`. The fetch's
settlement reaches the state only through `safeDispatch`, which does nothing
once the effect's cleanup has set that run's `active` to false. The cleanup
runs when the input changes again and when the component unmounts.

The project has two modules:

- `FetchState` (`fetch_state.dfy`) holds the `STATUS` and `ACTION_TYPE` enums,
  `State`, `Action`, `initialState`, the three action creators and `reducer`
  (`Reduce`). The reducer is pure. A thrown `Error` is the `Thrown` outcome.
- `FetchLifecycle` (`fetch_lifecycle.dfy`) holds the effect's lifecycle.
  - `Step` and `Run` are pure specification functions over `Lifecycle`, which
    is the held state plus the `active` flag of every run of the effect, in
    order.
  - The class `FetchController` is the imperative hook. It has a `state` field
    and an `active: seq<bool>` field. Its methods `Start`, `Settle` and
    `Detach` are proved equal to `Step` on the matching event, and they keep
    the invariant `Consistent`.
  - A run's token is the index of its flag. Asynchrony is the order in which
    `Start`, `Settle` and `Detach` are called.

Behaviour kept from the code:

- `createSuccessAction` tags its action `Request` (src/index.ts:39-42). A live,
  successfully decoded fetch therefore puts the state back to
  `{Loading, null, null}`, and the hook never shows Success or any data
  (`ReachableStates`). The reducer's Success case is reached only by calling
  the reducer directly (`ReduceSuccess`). A design that expects
  `{Success, data}` after a successful request disagrees with the code; the
  model follows the code.
- The values `Success = 'failure'` and `Failure = 'success'` in `ACTION_TYPE`
  are not modelled. The `switch` compares enum members, and those stay distinct.
- `Reset` is declared, but the reducer has no case for it, so it throws
  "Unexpected action type".

## Model

| member | source | states |
|---|---|---|
| FetchState.Reduce | src/index.ts:49-60 | throws "Unexpected action type" exactly for an action type without a case (Reset); every returned state is non-idle, and has data only when Success, an error only when Failure, never both |
| FetchState.ReduceRequest | src/index.ts:51-52 | a Request action turns any state into {Loading, data null, error null} |
| FetchState.ReduceSuccess | src/index.ts:53-54 | a Success action with payload v turns any state into {Success, data v, error null} |
| FetchState.ReduceFailure | src/index.ts:55-56 | a Failure action with error e turns any state into {Failure, data null, error e} |
| FetchState.ReduceReset | src/index.ts:14 | the declared but unhandled Reset action throws "Unexpected action type" |
| FetchState.ReduceIgnoresPriorState | src/index.ts:29-33 | total replacement: the reducer's result is the same for every prior state, so no field of the prior state survives |
| FetchState.ReduceIdempotent | src/index.ts:49-60 | applying the same action twice gives the same state as applying it once |
| FetchState.SuccessActionReloads | src/index.ts:39-42 | the action built by createSuccessAction reduces to {Loading, null, null} from any state, dropping the decoded data |
| FetchState.CreatorsReduce | src/index.ts:35-47 | from any state, the Request creator's action reduces to {Loading, null, null} and the Failure creator's action to {Failure, null, error} |
| FetchLifecycle.StepKeepsConsistent | src/index.ts:65-87 | every event keeps the lifecycle consistent (only the newest run's flag may be set; the state is one the hook can show); only a run of the effect adds a token |
| FetchLifecycle.StartDispatchesRequest | src/index.ts:65-68 | a change of input dispatches Request synchronously, so the state becomes {Loading, null, null}; the new run's flag is set and becomes the only one set |
| FetchLifecycle.LiveSettlement | src/index.ts:75-82 | while a run is active, a rejected fetch and a failed decode both give {Failure, null, error}; a decoded body gives {Loading, null, null}; no flag changes |
| FetchLifecycle.StaleSettlementIgnored | src/index.ts:68-73 | the settlement of a run superseded by a later run leaves state and flags unchanged |
| FetchLifecycle.StepWithoutStart | src/index.ts:68-73 | a settlement or an unmount keeps the number of runs and keeps only the newest flag set; a settlement of any older run changes nothing |
| FetchLifecycle.RunKeepsConsistent | src/index.ts:65-87 | any sequence of events keeps the lifecycle consistent, and issues one token per run of the effect |
| FetchLifecycle.ReachableStates | src/index.ts:63-87 | from mount (initialState, which is already consistent), the hook is Idle exactly until the effect first runs, and it never shows Success or any data |
| FetchLifecycle.OnlyNewestRunObserved | src/index.ts:68-73 | while the input is unchanged, dropping every settlement of a run other than the newest gives the same lifecycle: only the current request is ever observed |
| FetchLifecycle.NothingAfterDetach | src/index.ts:84-86 | after the unmount cleanup, no sequence of settlements changes the state or the flags, and none raises an error |
| FetchLifecycle.LatestRequestWins | src/index.ts:65-87 | request A, then request B; B settles first, then A: the state is B's outcome applied to Loading, and A's late result is dropped |
| FetchLifecycle.FetchController.constructor | src/index.ts:63 | the hook starts from initialState, before the effect has run (no flags) |
| FetchLifecycle.FetchController.Dispatch | src/index.ts:63 | dispatch replaces the held state with the reducer's result for a handled action and leaves the flags alone |
| FetchLifecycle.FetchController.SafeDispatch | src/index.ts:69-73 | dispatches only while the run's own flag is set; otherwise the state is unchanged |
| FetchLifecycle.FetchController.Cleanup | src/index.ts:84-86 | the cleanup clears the newest run's flag and changes nothing else |
| FetchLifecycle.FetchController.Start | src/index.ts:65-68 | cleans up the previous run, dispatches Request (state becomes Loading), opens a fresh flag and returns its token; equals Step on InputChanged and keeps the invariant |
| FetchLifecycle.FetchController.Settle | src/index.ts:75-82 | applies the outcome's action only if the run's flag is set; a superseded run leaves the state unchanged; equals Step on Settled and keeps the invariant |
| FetchLifecycle.FetchController.Detach | src/index.ts:84-86 | the unmount cleanup: afterwards no flag is set and the state is unchanged; equals Step on Unmounted |

## Left out

- React itself (`useReducer`, `useEffect`, dependency-array comparison, re-rendering): a change of `(url, options)` is an explicit `Start`, and the unmount is `Detach`. Because of this, the model does not check that the input really changed, and every `Start` issues a fresh request.
- `fetch` and `Response.json()`: a settlement is an opaque outcome. It is `Decoded(value)`, `Rejected(error)` (the fetch rejected) or `DecodeFailed(error)` (the body did not parse). HTTP status codes are not modelled, just as the code ignores them.
- Promise scheduling: the order of `Settle` calls stands for the order of settlement. The model does not stop a caller from settling one token twice, which a promise cannot do.
- The payload type `T` and `error: any` are opaque type parameters. The enums' string values are not modelled.
- `null` and `undefined` are both `None`, so the model loses the difference between them. A Success action without a payload gives `data: undefined` in the code (src/index.ts:54), and the model gives `None`, like null. A fetch rejected with the reason `undefined` gives `error: undefined` in the code (src/index.ts:81), and the model records it as `Some(e)`, with `e` standing for that undefined reason.
- FetchLifecycle.FetchController.Dispatch: requires an action the reducer handles. The hook dispatches only Request-typed and Failure-typed actions (all three creators; `createSuccessAction` is tagged Request), and the reducer's throw is modelled in `Reduce` alone.
