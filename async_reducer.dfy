/**
 * The reducer that createAsyncReducer (src/createAsyncReducer.ts) builds: it
 * starts from withRequestId(initialState), routes the pending, fulfilled and
 * rejected actions of one async thunk to the three request-id transitions, and
 * hands every other action type to the cases the caller's additionalReducers
 * registered.
 */
module AsyncReducer {
  import opened Wrappers
  import opened RequestId

  /** An action reaching the reducer: one of the thunk's three, or any other type. */
  datatype Action<P, R, G> =
    | Pending(pending: PendingAction<G>)
    | Fulfilled(fulfilled: FulfilledAction<P, G>)
    | Rejected(rejected: RejectedAction<R, G>)
    | Other(kind: string)

  /**
   * The cases additionalReducers registers, by action type: None when no case
   * handles that type, otherwise the state the case produces.
   */
  type ExtraCases<!S, !R> = (State<S, R>, string) -> Option<State<S, R>>

  /** The arguments of createAsyncReducer, which fix the reducer it returns. */
  datatype Reducer<!S, !P, !R, !G> = Reducer(
    initialState: S,
    merge: Merge<S, P, G>,
    additionalCases: ExtraCases<S, R>)

  /**
   * The default merge, `(_state, action) => action.payload as S`. The cast is
   * only sound when the data type is the payload type or undefined, which is
   * the overload that omits the merge function; Some injects the payload.
   */
  function DefaultMerge<P(!new), G(!new)>(): (merge: Merge<Option<P>, P, G>)
    ensures forall data, action :: merge(data, action).Some? && merge(data, action).value == action.payload
  {
    (_: Option<Option<P>>, action: FulfilledAction<P, G>) => Some(action.payload)
  }

  /** The default additionalReducers, `() => {}`: it registers no case. */
  function NoAdditionalCases<S(!new), R(!new)>(): (cases: ExtraCases<S, R>)
    ensures forall s, kind :: cases(s, kind).None?
  {
    (_: State<S, R>, _: string) => None
  }

  /** True when no additional case handles any action type. */
  ghost predicate IgnoresOtherActions<S(!new), P, R(!new), G>(reducer: Reducer<S, P, R, G>)
  {
    forall s, kind :: reducer.additionalCases(s, kind).None?
  }

  /**
   * True when the additional cases leave request tracking alone: a case that
   * handles an action leaves a Loading state as it is, and never produces a
   * Loading state from another one. A reset to a settled state, or an update
   * of Success data, is such a case.
   */
  ghost predicate RespectsRequests<S(!new), P, R(!new), G>(reducer: Reducer<S, P, R, G>)
  {
    forall s, kind :: var next := reducer.additionalCases(s, kind);
      next.Some? ==> (s.Loading? ==> next.value == s) && (!s.Loading? ==> !next.value.Loading?)
  }

  /** The state the store starts from. */
  function InitialState<S, P, R, G>(reducer: Reducer<S, P, R, G>): State<S, R>
  {
    WithRequestId(reducer.initialState)
  }

  /** The request id a fulfilled or rejected action carries. */
  function ResolvedId<P, R, G>(action: Action<P, R, G>): string
    requires action.Fulfilled? || action.Rejected?
  {
    if action.Fulfilled? then action.fulfilled.requestId else action.rejected.requestId
  }

  /**
   * One call of the reducer. An undefined state is replaced by the initial
   * state first, as the reducer library does, so the invariant of the
   * fulfilled and rejected transitions never fails here.
   */
  function Reduce<S, P, R, G>(reducer: Reducer<S, P, R, G>, state: Option<State<S, R>>, action: Action<P, R, G>): (r: State<S, R>)
    ensures var s := if state.Some? then state.value else InitialState(reducer);
      && (action.Pending? ==> r == Loading(action.pending.requestId))
      && ((action.Fulfilled? || action.Rejected?) && !Accepts(Some(s), ResolvedId(action)) ==> r == s)
      && (action.Fulfilled? && Accepts(Some(s), ResolvedId(action)) ==>
            r == Success(reducer.merge(None, action.fulfilled)))
      && (action.Rejected? && Accepts(Some(s), ResolvedId(action)) ==>
            r == Failure(if action.rejected.payload.Some? then RejectValue(action.rejected.payload.value)
                         else Serialized(action.rejected.error)))
      && (action.Other? ==> r == (var next := reducer.additionalCases(s, action.kind); if next.Some? then next.value else s))
  {
    var s := if state.Some? then state.value else InitialState(reducer);
    match action
    case Pending(p) => StoreRequestId(Some(s), p)
    case Fulfilled(f) => ValidateRequestIdSuccess(reducer.merge, Some(s), f).value
    case Rejected(e) => ValidateRequestIdFailure(Some(s), e).value
    case Other(kind) =>
      var next := reducer.additionalCases(s, kind);
      if next.Some? then next.value else s
  }

  /**
   * The state after the store has applied every action of `trace`, in order,
   * starting from the initial state. The last pending action always wins.
   */
  function Run<S, P, R, G>(reducer: Reducer<S, P, R, G>, trace: seq<Action<P, R, G>>): (r: State<S, R>)
    ensures trace == [] ==> View(r) == Fields(Some(reducer.initialState), false, None, None)
    ensures trace != [] && trace[|trace| - 1].Pending? ==> r == Loading(trace[|trace| - 1].pending.requestId)
  {
    if trace == [] then InitialState(reducer)
    else Reduce(reducer, Some(Run(reducer, trace[..|trace| - 1])), trace[|trace| - 1])
  }

  /** Dispatching one more action applies the reducer to the state the earlier actions left. */
  lemma RunAppend<S, P, R, G>(reducer: Reducer<S, P, R, G>, trace: seq<Action<P, R, G>>, action: Action<P, R, G>)
    ensures Run(reducer, trace + [action]) == Reduce(reducer, Some(Run(reducer, trace)), action)
  {
    assert (trace + [action])[..|trace|] == trace;
  }

  /** `action` starts the request `id`. */
  predicate Starts<P, R, G>(action: Action<P, R, G>, id: string)
  {
    action.Pending? && action.pending.requestId == id
  }

  /** `action` ends the tracking of request `id`: a newer request, or a resolution of `id`. */
  predicate Ends<P, R, G>(action: Action<P, R, G>, id: string)
  {
    || action.Pending?
    || (action.Fulfilled? && action.fulfilled.requestId == id)
    || (action.Rejected? && action.rejected.requestId == id)
  }

  /** The i-th action started request `id` and no later action ended it. */
  ghost predicate InFlight<P, R, G>(trace: seq<Action<P, R, G>>, i: int, id: string)
  {
    && 0 <= i < |trace|
    && Starts(trace[i], id)
    && forall j :: i < j < |trace| ==> !Ends(trace[j], id)
  }

  /**
   * The store starts from withRequestId(initialState), and a reducer call on an
   * undefined state behaves as a call on that initial state.
   */
  lemma InitialStateIsWithRequestId<S, P, R, G>(reducer: Reducer<S, P, R, G>, action: Action<P, R, G>)
    ensures View(Run(reducer, [])) == Fields(Some(reducer.initialState), false, None, None)
    ensures Reduce(reducer, None, action) == Reduce(reducer, Some(Run(reducer, [])), action)
  {
  }

  /** The reducer built with the defaults and an undefined initial state starts out empty. */
  lemma DefaultReducerStartsEmpty<P(!new), R(!new), G(!new)>()
    ensures var reducer := Reducer(None, DefaultMerge<P, G>(), NoAdditionalCases<Option<P>, R>());
      View(Run(reducer, [])) == Fields(Some(None), false, None, None)
  {
  }

  /** After a pending action the state is Loading that action's request. */
  lemma PendingIsTracked<S, P, R, G>(reducer: Reducer<S, P, R, G>, trace: seq<Action<P, R, G>>, p: PendingAction<G>)
    ensures View(Run(reducer, trace + [Pending(p)])) == Fields(None, true, Some(p.requestId), None)
  {
    assert (trace + [Pending(p)])[..|trace|] == trace;
  }

  /** Pending then fulfilled with the same id: Success with the merge of the payload into absent data. */
  lemma PendingThenFulfilled<S, P, R, G>(
    reducer: Reducer<S, P, R, G>, trace: seq<Action<P, R, G>>, p: PendingAction<G>, f: FulfilledAction<P, G>)
    requires p.requestId == f.requestId
    ensures View(Run(reducer, trace + [Pending(p), Fulfilled(f)])) ==
      Fields(Some(reducer.merge(None, f)), false, None, None)
  {
    var t := trace + [Pending(p), Fulfilled(f)];
    assert t[..|t| - 1] == trace + [Pending(p)];
    PendingIsTracked(reducer, trace, p);
  }

  /** With the default merge, the fulfilled state's data is the payload itself. */
  lemma DefaultMergeStoresPayload<P(!new), R(!new), G(!new)>(
    initial: Option<P>, trace: seq<Action<P, R, G>>, p: PendingAction<G>, f: FulfilledAction<P, G>)
    requires p.requestId == f.requestId
    ensures var reducer := Reducer(initial, DefaultMerge<P, G>(), NoAdditionalCases<Option<P>, R>());
      View(Run(reducer, trace + [Pending(p), Fulfilled(f)])) == Fields(Some(Some(f.payload)), false, None, None)
  {
    var reducer := Reducer(initial, DefaultMerge<P, G>(), NoAdditionalCases<Option<P>, R>());
    PendingThenFulfilled(reducer, trace, p, f);
  }

  /** Pending then rejected with the same id: Failure holding the reject value, else the serialized error. */
  lemma PendingThenRejected<S, P, R, G>(
    reducer: Reducer<S, P, R, G>, trace: seq<Action<P, R, G>>, p: PendingAction<G>, e: RejectedAction<R, G>)
    requires p.requestId == e.requestId
    ensures e.payload.Some? ==>
      View(Run(reducer, trace + [Pending(p), Rejected(e)])) == Fields(None, false, None, Some(RejectValue(e.payload.value)))
    ensures e.payload.None? ==>
      View(Run(reducer, trace + [Pending(p), Rejected(e)])) == Fields(None, false, None, Some(Serialized(e.error)))
  {
    var t := trace + [Pending(p), Rejected(e)];
    assert t[..|t| - 1] == trace + [Pending(p)];
    PendingIsTracked(reducer, trace, p);
  }

  /**
   * The race: request A starts, request B starts, then A resolves. A's late
   * resolution is stale and the state still tracks B.
   */
  lemma StaleResolutionIsIgnored<S, P, R, G>(
    reducer: Reducer<S, P, R, G>, trace: seq<Action<P, R, G>>, a: PendingAction<G>, b: PendingAction<G>, late: Action<P, R, G>)
    requires a.requestId != b.requestId
    requires (late.Fulfilled? || late.Rejected?) && ResolvedId(late) == a.requestId
    ensures Run(reducer, trace + [Pending(a), Pending(b), late]) == Loading(b.requestId)
  {
    var t := trace + [Pending(a), Pending(b), late];
    assert t[..|t| - 1] == (trace + [Pending(a)]) + [Pending(b)];
    PendingIsTracked(reducer, trace + [Pending(a)], b);
  }

  /** With the default additionalReducers, an action of any other type changes nothing. */
  lemma OtherActionsChangeNothing<S(!new), P, R(!new), G>(initial: S, merge: Merge<S, P, G>, state: State<S, R>, kind: string)
    ensures var reducer := Reducer(initial, merge, NoAdditionalCases<S, R>());
      IgnoresOtherActions(reducer) && RespectsRequests(reducer) && Reduce(reducer, Some(state), Other(kind)) == state
  {
  }

  /**
   * For every dispatch sequence, when the additional cases leave request
   * tracking alone: the state is Loading request `id` exactly when some action
   * started `id` and no later action started another request or resolved `id`.
   * So a stale resolution never overwrites a newer request's state.
   */
  lemma {:induction false} LoadingIffInFlight<S(!new), P, R(!new), G>(reducer: Reducer<S, P, R, G>, trace: seq<Action<P, R, G>>, id: string)
    requires RespectsRequests(reducer)
    ensures Run(reducer, trace) == Loading(id) <==> exists i :: InFlight(trace, i, id)
  {
    if trace == [] {
      return;
    }
    var n := |trace| - 1;
    var t, a := trace[..n], trace[n];
    assert trace == t + [a];
    LoadingIffInFlight(reducer, t, id);
    var prev := Run(reducer, t);
    assert Run(reducer, trace) == Reduce(reducer, Some(prev), a);
    if exists i :: InFlight(trace, i, id) {
      var i :| InFlight(trace, i, id);
      if i < n {
        assert InFlight(t, i, id);
        assert prev == Loading(id);
        assert !Ends(a, id);
      }
    } else {
      if a.Pending? {
        assert !InFlight(trace, n, id);
      } else if a.Other? {
        if prev == Loading(id) {
          var i :| InFlight(t, i, id);
          assert InFlight(trace, i, id);
        }
      } else if prev == Loading(id) && !Accepts(Some(prev), ResolvedId(a)) {
        var i :| InFlight(t, i, id);
        assert InFlight(trace, i, id);
      }
    }
  }

  /**
   * Why LoadingIffInFlight needs RespectsRequests: an additional `reset` case
   * that settles the state even while a request is loading ends the tracking
   * of a request that is still in flight, so its later resolution is ignored.
   */
  lemma ResetDuringRequestLosesTracking(id: string)
    ensures var reducer := Reducer(0, (_: Option<int>, f: FulfilledAction<int, int>) => f.payload,
                                   (_: State<int, int>, kind: string) => if kind == "reset" then Some(Success(0)) else None);
      var trace: seq<Action<int, int, int>> := [Pending(PendingAction(id, 0)), Other("reset")];
      && InFlight(trace, 0, id)
      && Run(reducer, trace) == Success(0)
      && Run(reducer, trace + [Fulfilled(FulfilledAction(1, id, 0))]) == Success(0)
  {
    var reducer := Reducer(0, (_: Option<int>, f: FulfilledAction<int, int>) => f.payload,
                           (_: State<int, int>, kind: string) => if kind == "reset" then Some(Success(0)) else None);
    var trace: seq<Action<int, int, int>> := [Pending(PendingAction(id, 0)), Other("reset")];
    RunAppend(reducer, [Pending(PendingAction(id, 0))], Other("reset"));
    RunAppend(reducer, trace, Fulfilled(FulfilledAction(1, id, 0)));
  }

  /**
   * Once no request is in flight, the state is Success or Failure, and
   * isLoading is false, when the additional cases leave request tracking alone.
   */
  lemma NotLoadingWithoutRequest<S(!new), P, R(!new), G>(reducer: Reducer<S, P, R, G>, trace: seq<Action<P, R, G>>)
    requires RespectsRequests(reducer)
    requires forall i, id :: !InFlight(trace, i, id)
    ensures !View(Run(reducer, trace)).isLoading
  {
    var s := Run(reducer, trace);
    if s.Loading? {
      LoadingIffInFlight(reducer, trace, s.requestId);
    }
  }
}
