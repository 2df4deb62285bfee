/** The request lifecycle of `useFetch`: the effect that runs whenever
    `(url, options)` changes, its per-run `active` flag, `safeDispatch`, and the
    cleanup that clears the flag when the input changes again or the component
    unmounts.

    Asynchrony is the order of calls: `Start` is the effect running, `Settle`
    is one fetch settling, `Detach` is the unmount cleanup. Every run of the
    effect captures its own `active` variable; the model keeps all of them, in
    order, in `active: seq<bool>`, and the token of a run is the index of its
    flag.
 */
module FetchLifecycle {
  import opened FetchState

  /** How the promise chain `fetch(...).then(r => r.json())` settles. */
  datatype Settlement<T, E> =
    | Decoded(value: T)      // the body parsed to `value`
    | Rejected(error: E)     // `fetch` itself rejected
    | DecodeFailed(error: E) // `response.json()` rejected

  /** What happens to the hook, in the order it happens. */
  datatype Event<T, E> =
    | InputChanged                                     // the effect (re)runs
    | Settled(token: nat, outcome: Settlement<T, E>)   // run `token`'s fetch settles
    | Unmounted                                        // the component is torn down

  /** The hook-held state and the `active` flag of every run of the effect. */
  datatype Lifecycle<T, E> = Lifecycle(state: State<T, E>, active: seq<bool>)

  /** Before the first run of the effect: initial state, no flags. */
  function Initial<T, E>(): Lifecycle<T, E> {
    Lifecycle(InitialState(), [])
  }

  /** The action the `.then`/`.catch` handlers hand to `safeDispatch`. */
  function SettlementAction<T, E>(o: Settlement<T, E>): Action<T, E> {
    match o
    case Decoded(v) => CreateSuccessAction(v)
    case Rejected(e) => CreateFailureAction(e)
    case DecodeFailed(e) => CreateFailureAction(e)
  }

  /** The state after `dispatch` of an action the reducer handles. */
  function Dispatched<T, E>(s: State<T, E>, a: Action<T, E>): State<T, E>
    requires a.kind != ActionType.Reset
  {
    Reduce(s, a).value
  }

  /** The cleanup of the newest run: its flag becomes false. */
  function Cleared(active: seq<bool>): seq<bool> {
    if active == [] then [] else active[..|active| - 1] + [false]
  }

  /** One event applied to the lifecycle. */
  function Step<T, E>(l: Lifecycle<T, E>, ev: Event<T, E>): Lifecycle<T, E> {
    match ev
    case InputChanged =>
      Lifecycle(Dispatched(l.state, CreateRequestAction()), Cleared(l.active) + [true])
    case Settled(t, o) =>
      if t < |l.active| && l.active[t] then Lifecycle(Dispatched(l.state, SettlementAction(o)), l.active)
      else l
    case Unmounted =>
      Lifecycle(l.state, Cleared(l.active))
  }

  /** A sequence of events applied in order. */
  function Run<T, E>(l: Lifecycle<T, E>, evs: seq<Event<T, E>>): Lifecycle<T, E>
    decreases |evs|
  {
    if evs == [] then l else Run(Step(l, evs[0]), evs[1..])
  }

  /** How many times the effect ran in `evs`: the number of tokens issued. */
  function Starts<T, E>(evs: seq<Event<T, E>>): nat
    decreases |evs|
  {
    if evs == [] then 0 else (if evs[0].InputChanged? then 1 else 0) + Starts(evs[1..])
  }

  /** No flag but the newest is set: every superseded run has been cleaned up. */
  predicate OnlyNewestActive(active: seq<bool>) {
    forall i :: 0 <= i < |active| - 1 ==> !active[i]
  }

  /** The states the hook can show: idle before the first run; afterwards
      loading, or failure with an error; never data. */
  predicate Observable<T, E>(l: Lifecycle<T, E>) {
    (l.state.status == Status.Idle <==> |l.active| == 0) &&
    l.state.status != Status.Success &&
    l.state.data == None &&
    (l.state.error.Some? <==> l.state.status == Status.Failure)
  }

  predicate Consistent<T, E>(l: Lifecycle<T, E>) {
    OnlyNewestActive(l.active) && Observable(l)
  }

  lemma StepKeepsConsistent<T, E>(l: Lifecycle<T, E>, ev: Event<T, E>)
    requires Consistent(l)
    ensures Consistent(Step(l, ev))
    ensures |Step(l, ev).active| == |l.active| + (if ev.InputChanged? then 1 else 0)
  {
  }

  /** Every run of the effect dispatches Request before its fetch can settle,
      and leaves its own flag as the only one set. */
  lemma StartDispatchesRequest<T, E>(l: Lifecycle<T, E>)
    ensures Step(l, InputChanged).state == State(Status.Loading, None, None)
    ensures var a := Step(l, InputChanged).active;
      |a| == |l.active| + 1 && a[|l.active|] && (OnlyNewestActive(l.active) ==> OnlyNewestActive(a))
  {
  }

  /** A live run's settlement: a rejected fetch and a failed decode both become
      Failure carrying the error; a decoded body goes back to loading. */
  lemma LiveSettlement<T, E>(l: Lifecycle<T, E>, t: nat, o: Settlement<T, E>)
    requires t < |l.active| && l.active[t]
    ensures Step(l, Settled(t, o)).active == l.active
    ensures Step(l, Settled(t, o)).state ==
      match o
      case Decoded(_) => State(Status.Loading, None, None)
      case Rejected(e) => State(Status.Failure, None, Some(e))
      case DecodeFailed(e) => State(Status.Failure, None, Some(e))
  {
  }

  /** A superseded run's settlement changes nothing. */
  lemma StaleSettlementIgnored<T, E>(l: Lifecycle<T, E>, t: nat, o: Settlement<T, E>)
    requires OnlyNewestActive(l.active)
    requires t + 1 < |l.active|
    ensures Step(l, Settled(t, o)) == l
  {
  }

  /** The consistency of the lifecycle holds along any sequence of events, and
      each run of the effect issues exactly one token. */
  lemma {:induction false} RunKeepsConsistent<T, E>(l: Lifecycle<T, E>, evs: seq<Event<T, E>>)
    requires Consistent(l)
    ensures Consistent(Run(l, evs))
    ensures |Run(l, evs).active| == |l.active| + Starts(evs)
    decreases |evs|
  {
    if evs != [] {
      StepKeepsConsistent(l, evs[0]);
      RunKeepsConsistent(Step(l, evs[0]), evs[1..]);
    }
  }

  /** From mount on, the hook is idle exactly until the effect first runs, and
      it never shows Success nor any data: a decoded body is dispatched as a
      Request action. The state before the first run is already consistent. */
  lemma {:induction false} ReachableStates<T, E>(evs: seq<Event<T, E>>)
    ensures Run(Initial<T, E>(), evs).state.status == Status.Idle <==> Starts(evs) == 0
    ensures Run(Initial<T, E>(), evs).state.status != Status.Success
    ensures Run(Initial<T, E>(), evs).state.data == None
    ensures OnlyNewestActive(Run(Initial<T, E>(), evs).active)
    ensures Consistent(Initial<T, E>()) && Consistent(Run(Initial<T, E>(), evs))
  {
    RunKeepsConsistent(Initial<T, E>(), evs);
  }

  /** The settlements and unmounts in `evs` that can matter: those of run `cur`. */
  function OfRun<T, E>(evs: seq<Event<T, E>>, cur: int): seq<Event<T, E>>
    decreases |evs|
  {
    if evs == [] then []
    else if evs[0].Settled? && evs[0].token != cur then OfRun(evs[1..], cur)
    else [evs[0]] + OfRun(evs[1..], cur)
  }

  /** An event other than a run of the effect keeps the number of runs, keeps
      only the newest flag set, and ignores the settlement of any older run. */
  lemma StepWithoutStart<T, E>(l: Lifecycle<T, E>, ev: Event<T, E>)
    requires OnlyNewestActive(l.active)
    requires !ev.InputChanged?
    ensures |Step(l, ev).active| == |l.active|
    ensures OnlyNewestActive(Step(l, ev).active)
    ensures ev.Settled? && ev.token != |l.active| - 1 ==> Step(l, ev) == l
  {
  }

  /** While the input does not change, only the newest run's settlements have
      any effect: dropping every other run's settlement gives the same result. */
  lemma {:induction false} OnlyNewestRunObserved<T, E>(l: Lifecycle<T, E>, evs: seq<Event<T, E>>)
    requires OnlyNewestActive(l.active)
    requires forall i :: 0 <= i < |evs| ==> !evs[i].InputChanged?
    ensures Run(l, evs) == Run(l, OfRun(evs, |l.active| - 1))
    decreases |evs|
  {
    if evs != [] {
      var cur := |l.active| - 1;
      var l' := Step(l, evs[0]);
      StepWithoutStart(l, evs[0]);
      OnlyNewestRunObserved(l', evs[1..]);
      assert Run(l, evs) == Run(l', evs[1..]);
      if evs[0].Settled? && evs[0].token != cur {
        assert OfRun(evs, cur) == OfRun(evs[1..], cur);
      } else {
        var kept := OfRun(evs, cur);
        assert kept == [evs[0]] + OfRun(evs[1..], cur);
        assert kept[0] == evs[0] && kept[1..] == OfRun(evs[1..], cur);
        assert Run(l, kept) == Run(l', kept[1..]);
      }
    }
  }

  /** After the unmount cleanup no settlement changes anything, and none
      raises an error. */
  lemma {:induction false} NothingAfterDetach<T, E>(l: Lifecycle<T, E>, evs: seq<Event<T, E>>)
    requires OnlyNewestActive(l.active)
    requires forall i :: 0 <= i < |evs| ==> !evs[i].InputChanged?
    ensures Run(Step(l, Unmounted), evs) == Step(l, Unmounted)
    decreases |evs|
  {
    if evs != [] {
      var d := Step(l, Unmounted);
      assert forall i :: 0 <= i < |d.active| ==> !d.active[i];
      assert Step(d, evs[0]) == d;
      assert Step(d, Unmounted) == d;
      NothingAfterDetach(l, evs[1..]);
    }
  }

  /** Request A, then request B; B settles first, then A. The state shows B's
      outcome and A's late arrival is dropped. */
  lemma LatestRequestWins<T, E>(l: Lifecycle<T, E>, a: Settlement<T, E>, b: Settlement<T, E>)
    ensures var tA, tB := |l.active|, |l.active| + 1;
      Run(l, [InputChanged, InputChanged, Settled(tB, b), Settled(tA, a)]).state ==
      Dispatched(State(Status.Loading, None, None), SettlementAction(b))
  {
    var tA, tB := |l.active|, |l.active| + 1;
    var l1 := Step(l, InputChanged);
    var l2 := Step(l1, InputChanged);
    assert l1.active == Cleared(l.active) + [true] && |l1.active| == tA + 1;
    assert l2.active == l1.active[..tA] + [false, true];
    assert |l2.active| == tB + 1 && !l2.active[tA] && l2.active[tB];
    var l3 := Step(l2, Settled(tB, b));
    assert l3.active == l2.active && !l3.active[tA];
    assert Step(l3, Settled(tA, a)) == l3;
    var evs: seq<Event<T, E>> := [InputChanged, InputChanged, Settled(tB, b), Settled(tA, a)];
    assert evs[1..][1..][1..][1..] == [];
    assert Run(l, evs) == Run(l1, evs[1..]) == Run(l2, evs[1..][1..]) == Run(l3, evs[1..][1..][1..]);
  }

  /** The hook: the state `useReducer` holds and the `active` variable of every
      run of the effect. */
  class FetchController<T, E> {
    var state: State<T, E>
    var active: seq<bool>

    function Model(): Lifecycle<T, E>
      reads this
    {
      Lifecycle(state, active)
    }

    ghost predicate Valid()
      reads this
    {
      Consistent(Model())
    }

    /** First render: `useReducer(reducer, initialState)`; the effect has not run. */
    constructor ()
      ensures Valid() && Model() == Initial()
    {
      state := InitialState();
      active := [];
    }

    /** `dispatch`: replace the held state with the reducer's result. An
        internal step of `Start` and `Settle`: on its own it need not keep
        `Valid()` (a Request before any flag exists would break it). */
    method Dispatch(a: Action<T, E>)
      requires a.kind != ActionType.Reset
      modifies this
      ensures state == Dispatched(old(state), a) && active == old(active)
    {
      state := Reduce(state, a).value;
    }

    /** `safeDispatch` of run `token`: dispatch only while its flag is set. An
        internal step of `Settle`, which re-establishes `Valid()`. */
    method SafeDispatch(token: nat, a: Action<T, E>)
      requires a.kind != ActionType.Reset
      modifies this
      ensures active == old(active)
      ensures state == if token < |active| && active[token] then Dispatched(old(state), a) else old(state)
    {
      if token < |active| && active[token] {
        Dispatch(a);
      }
    }

    /** The cleanup of the newest run: `active = false`. An internal step of
        `Start` and `Detach`, which re-establish `Valid()`. */
    method Cleanup()
      modifies this
      ensures state == old(state) && active == Cleared(old(active))
    {
      if active != [] {
        active := active[..|active| - 1] + [false];
      }
    }

    /** `(url, options)` changed (or first mount): clean up the previous run,
        dispatch Request, open a fresh flag, and hand out its token. */
    method Start() returns (token: nat)
      requires Valid()
      modifies this
      ensures Valid() && Model() == Step(old(Model()), InputChanged)
      ensures token == |old(active)| && token == |active| - 1 && active[token]
      ensures state == State(Status.Loading, None, None)
    {
      Cleanup();
      Dispatch(CreateRequestAction());
      active := active + [true];
      token := |active| - 1;
      StepKeepsConsistent(old(Model()), InputChanged);
    }

    /** Run `token`'s fetch settles with `outcome`. */
    method Settle(token: nat, outcome: Settlement<T, E>)
      requires Valid()
      modifies this
      ensures Valid() && Model() == Step(old(Model()), Settled(token, outcome))
      ensures token + 1 < |active| ==> state == old(state)
    {
      match outcome {
        case Decoded(v) => SafeDispatch(token, CreateSuccessAction(v));
        case Rejected(e) => SafeDispatch(token, CreateFailureAction(e));
        case DecodeFailed(e) => SafeDispatch(token, CreateFailureAction(e));
      }
      StepKeepsConsistent(old(Model()), Settled(token, outcome));
    }

    /** The component unmounts: the newest run's cleanup. */
    method Detach()
      requires Valid()
      modifies this
      ensures Valid() && Model() == Step(old(Model()), Unmounted)
      ensures state == old(state) && forall i :: 0 <= i < |active| ==> !active[i]
    {
      Cleanup();
      StepKeepsConsistent(old(Model()), Unmounted);
    }
  }
}
