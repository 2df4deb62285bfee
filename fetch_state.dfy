/** The state shape, the actions and the reducer of the `useFetch` hook.

    `null` and `undefined` are both modelled as `None`; the model does not
    tell them apart. Every state the reducer builds starts from
    `InitialState`, whose `data` and `error` are null. The payload type `T` and the error type
    `E` are opaque. The string values of the two enums are not modelled: the
    reducer's `switch` compares enum members, which stay distinct whatever
    strings they carry.
 */
module FetchState {

  datatype Option<+T> = None | Some(value: T)

  /** The exported `STATUS` enum. */
  datatype Status = Idle | Loading | Success | Failure

  /** The `ACTION_TYPE` enum. `Reset` is declared but the reducer has no case for it. */
  datatype ActionType = Request | Success | Failure | Reset

  /** `State<T>`: the status with the optional result and error. */
  datatype State<T, E> = State(status: Status, data: Option<T>, error: Option<E>)

  /** `Action<T>`: a type tag with an optional payload and an optional error. */
  datatype Action<T, E> = Action(kind: ActionType, payload: Option<T>, error: Option<E>)

  /** What a call of the reducer does: return a state, or throw. */
  datatype Outcome<S> = Returned(value: S) | Thrown(message: string)

  const UnexpectedActionType := "Unexpected action type"

  /** `initialState`: idle, with data and error null. */
  function InitialState<T, E>(): State<T, E> {
    State(Status.Idle, None, None)
  }

  /** The state every Request action produces. */
  function LoadingState<T, E>(): State<T, E> {
    InitialState().(status := Status.Loading)
  }

  /** The state a Failure action carrying `e` produces. */
  function FailureState<T, E>(e: E): State<T, E> {
    InitialState().(status := Status.Failure, error := Some(e))
  }

  /** `createRequestAction`. */
  function CreateRequestAction<T, E>(): Action<T, E> {
    Action(ActionType.Request, None, None)
  }

  /** `createSuccessAction`: note that it is tagged `Request`, not `Success`. */
  function CreateSuccessAction<T, E>(data: T): Action<T, E> {
    Action(ActionType.Request, Some(data), None)
  }

  /** `createFailureAction`. */
  function CreateFailureAction<T, E>(error: E): Action<T, E> {
    Action(ActionType.Failure, None, Some(error))
  }

  /** The fields a returned state may carry: data only in Success, error only
      in Failure, never both. */
  predicate WellFormed<T, E>(s: State<T, E>) {
    !(s.data.Some? && s.error.Some?) &&
    (s.data.Some? ==> s.status == Status.Success) &&
    (s.error.Some? ==> s.status == Status.Failure)
  }

  /** `reducer`: every returned state is `initialState` with some fields
      replaced, so nothing of the prior state `s` survives; an action type
      without a case throws. */
  function Reduce<T, E>(s: State<T, E>, a: Action<T, E>): (r: Outcome<State<T, E>>)
    ensures r.Thrown? <==> a.kind == ActionType.Reset
    ensures r.Thrown? ==> r.message == UnexpectedActionType
    ensures r.Returned? ==> WellFormed(r.value) && r.value.status != Status.Idle
  {
    match a.kind
    case Request => Returned(InitialState().(status := Status.Loading))
    case Success => Returned(InitialState().(status := Status.Success, data := a.payload))
    case Failure => Returned(InitialState().(status := Status.Failure, error := a.error))
    case Reset => Thrown(UnexpectedActionType)
  }

  /** A Request action, whatever it carries, resets any state to loading. */
  lemma ReduceRequest<T, E>(s: State<T, E>, payload: Option<T>, error: Option<E>)
    ensures Reduce(s, Action(ActionType.Request, payload, error)) == Returned(State(Status.Loading, None, None))
  {
  }

  /** A Success action sets the data to its payload and clears the error. */
  lemma ReduceSuccess<T, E>(s: State<T, E>, payload: Option<T>, error: Option<E>)
    ensures Reduce(s, Action(ActionType.Success, payload, error)) == Returned(State(Status.Success, payload, None))
  {
  }

  /** A Failure action sets the error to its error and clears the data. */
  lemma ReduceFailure<T, E>(s: State<T, E>, payload: Option<T>, error: Option<E>)
    ensures Reduce(s, Action(ActionType.Failure, payload, error)) == Returned(State(Status.Failure, None, error))
  {
  }

  /** The declared Reset action has no case and throws. */
  lemma ReduceReset<T, E>(s: State<T, E>, payload: Option<T>, error: Option<E>)
    ensures Reduce(s, Action(ActionType.Reset, payload, error)) == Thrown("Unexpected action type")
  {
  }

  /** Total replacement: the result does not depend on the prior state at all. */
  lemma ReduceIgnoresPriorState<T, E>(s1: State<T, E>, s2: State<T, E>, a: Action<T, E>)
    ensures Reduce(s1, a) == Reduce(s2, a)
  {
  }

  /** Applying the same action twice gives the same state as applying it once. */
  lemma ReduceIdempotent<T, E>(s: State<T, E>, a: Action<T, E>)
    requires Reduce(s, a).Returned?
    ensures Reduce(Reduce(s, a).value, a) == Reduce(s, a)
  {
  }

  /** Because `createSuccessAction` is tagged Request, reducing it returns to
      loading and drops the decoded data; the Success case is never taken. */
  lemma SuccessActionReloads<T, E>(s: State<T, E>, v: T)
    ensures Reduce(s, CreateSuccessAction<T, E>(v)) == Returned(LoadingState())
    ensures Reduce(s, CreateSuccessAction<T, E>(v)).value.data == None
  {
  }

  /** What the Request and Failure creators' actions reduce to, from any state. */
  lemma CreatorsReduce<T, E>(s: State<T, E>, e: E)
    ensures Reduce(s, CreateRequestAction<T, E>()) == Returned(LoadingState())
    ensures Reduce(s, CreateFailureAction<T, E>(e)) == Returned(FailureState(e))
  {
  }
}
