/**
 * The request-id state machine of src/requestId.ts.
 *
 * A slice of store state wraps a value of type S together with the status of
 * the latest request: Loading (carrying that request's id), Success (carrying
 * the data) or Failure (carrying the error). Each transition builder of the
 * source returns a reducer closure; here each transition is the function that
 * closure computes, taking the current state (possibly undefined) and the action.
 */
module RequestId {
  import opened Wrappers

  /** The serialized form of a thrown error, as the async-thunk helper records it. */
  datatype SerializedError = SerializedError(
    name: Option<string>,
    message: Option<string>,
    stack: Option<string>,
    code: Option<string>)

  /** What a failed request stores: the explicit reject value, or the serialized error. */
  datatype RequestError<R> = RejectValue(value: R) | Serialized(error: SerializedError)

  /** The wrapped state: exactly one of the three shapes. */
  datatype State<S, R> =
    | Loading(requestId: string)
    | Success(data: S)
    | Failure(requestError: RequestError<R>)

  /**
   * The plain object the store holds, field by field. Absent `data` and a null
   * `requestId` or `requestError` are all None.
   */
  datatype Fields<S, R> = Fields(
    data: Option<S>,
    isLoading: bool,
    requestId: Option<string>,
    requestError: Option<RequestError<R>>)

  /** The object shape of a state; its ensures are the invariants of the union. */
  function View<S, R>(s: State<S, R>): (f: Fields<S, R>)
    ensures f.isLoading <==> f.requestId.Some?
    ensures f.isLoading ==> f.data.None? && f.requestError.None?
    ensures f.requestError.Some? ==> !f.isLoading && f.data.None?
    ensures f.data.Some? <==> s.Success?
  {
    match s
    case Loading(id) => Fields(None, true, Some(id), None)
    case Success(d) => Fields(Some(d), false, None, None)
    case Failure(e) => Fields(None, false, None, Some(e))
  }

  /** No two states share an object shape, so a contract on View pins the state down. */
  lemma ViewInjective<S, R>(a: State<S, R>, b: State<S, R>)
    requires View(a) == View(b)
    ensures a == b
  {
  }

  /** The action a pending request dispatches; `meta.arg` is the thunk argument. */
  datatype PendingAction<G> = PendingAction(requestId: string, arg: G)

  /** The action a request that completed dispatches. */
  datatype FulfilledAction<P, G> = FulfilledAction(payload: P, requestId: string, arg: G)

  /**
   * The action a request that failed dispatches: `payload` is the explicit
   * reject value, if the operation gave one; `error` is always present.
   */
  datatype RejectedAction<R, G> = RejectedAction(
    payload: Option<R>,
    error: SerializedError,
    requestId: string,
    arg: G,
    aborted: bool)

  /** What a transition throws when the current state is undefined. */
  datatype Fault = StateUndefined

  /** The function that turns the previous data and a fulfilled action into the new data. */
  type Merge<!S, !P, !G> = (Option<S>, FulfilledAction<P, G>) -> S

  /** The initial state: the given value as successful data. */
  function WithRequestId<S, R>(initialState: S): (r: State<S, R>)
    ensures View(r) == Fields(Some(initialState), false, None, None)
  {
    Success(initialState)
  }

  /**
   * A pending action always wins: whatever the current state (even an
   * undefined one), the result is Loading with the action's request id.
   */
  function StoreRequestId<S, R, G>(state: Option<State<S, R>>, action: PendingAction<G>): (r: State<S, R>)
    ensures View(r) == Fields(None, true, Some(action.requestId), None)
  {
    Loading(action.requestId)
  }

  /** `state?.requestId`: only a Loading state carries an id. */
  function StoredRequestId<S, R>(state: Option<State<S, R>>): Option<string>
  {
    if state.Some? && state.value.Loading? then Some(state.value.requestId) else None
  }

  /** `state?.data`: only a Success state carries data. */
  function PreviousData<S, R>(state: Option<State<S, R>>): Option<S>
  {
    if state.Some? && state.value.Success? then Some(state.value.data) else None
  }

  /** A resolution carrying `id` is accepted exactly when the state is Loading that request. */
  predicate Accepts<S, R>(state: Option<State<S, R>>, id: string)
  {
    state.Some? && state.value.Loading? && state.value.requestId == id
  }

  /**
   * The id comparison of the source accepts exactly the Loading state of the
   * same request, and the data it then hands to the merge function is always
   * absent.
   */
  lemma MatchMeansLoading<S, R>(state: Option<State<S, R>>, id: string)
    ensures StoredRequestId(state) == Some(id) <==> Accepts(state, id)
    ensures Accepts(state, id) ==> PreviousData(state) == None
  {
  }

  /**
   * A fulfilled action: when it belongs to the request being loaded, the state
   * becomes Success with the merged data; a stale action leaves the state as it
   * is; an undefined state fails the invariant.
   */
  function ValidateRequestIdSuccess<S, R, P, G>(
    merge: Merge<S, P, G>, state: Option<State<S, R>>, action: FulfilledAction<P, G>): (r: Result<State<S, R>, Fault>)
    ensures r.Err? <==> state.None?
    ensures Accepts(state, action.requestId) ==>
      r.Ok? && View(r.value) == Fields(Some(merge(None, action)), false, None, None)
    ensures state.Some? && !Accepts(state, action.requestId) ==> r == Ok(state.value)
  {
    if StoredRequestId(state) == Some(action.requestId) then
      Ok(Success(merge(PreviousData(state), action)))
    else if state.None? then
      Err(StateUndefined)
    else
      Ok(state.value)
  }

  /**
   * `action.payload || action.error`: the reject value when there is one.
   * JavaScript's `||` also passes over a reject value that is falsy (0, "",
   * false); the model treats every given reject value as present.
   */
  function RejectionReason<R, G>(action: RejectedAction<R, G>): (r: RequestError<R>)
    ensures r.RejectValue? <==> action.payload.Some?
    ensures r.RejectValue? ==> r.value == action.payload.value
    ensures r.Serialized? ==> r.error == action.error
  {
    if action.payload.Some? then RejectValue(action.payload.value) else Serialized(action.error)
  }

  /**
   * A rejected action: when it belongs to the request being loaded, the state
   * becomes Failure with the reject value, or the serialized error when there
   * is none; a stale action leaves the state as it is; an undefined state fails
   * the invariant.
   */
  function ValidateRequestIdFailure<S, R, G>(
    state: Option<State<S, R>>, action: RejectedAction<R, G>): (r: Result<State<S, R>, Fault>)
    ensures r.Err? <==> state.None?
    ensures Accepts(state, action.requestId) && action.payload.Some? ==>
      r.Ok? && View(r.value) == Fields(None, false, None, Some(RejectValue(action.payload.value)))
    ensures Accepts(state, action.requestId) && action.payload.None? ==>
      r.Ok? && View(r.value) == Fields(None, false, None, Some(Serialized(action.error)))
    ensures state.Some? && !Accepts(state, action.requestId) ==> r == Ok(state.value)
  {
    if StoredRequestId(state) == Some(action.requestId) then
      Ok(Failure(RejectionReason(action)))
    else if state.None? then
      Err(StateUndefined)
    else
      Ok(state.value)
  }

  /**
   * A settled state (Success or Failure, whose requestId is null) can never be
   * changed by a fulfilled or rejected action, whatever id it carries.
   */
  lemma SettledStateIsFinal<S, R, P, G>(
    state: State<S, R>, merge: Merge<S, P, G>, fulfilled: FulfilledAction<P, G>, rejected: RejectedAction<R, G>)
    requires !state.Loading?
    ensures ValidateRequestIdSuccess(merge, Some(state), fulfilled) == Ok(state)
    ensures ValidateRequestIdFailure(Some(state), rejected) == Ok(state)
  {
  }
}
