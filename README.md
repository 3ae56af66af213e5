# redux-utils: request tracking and slice watchers, modelled in Dafny

This project models the two utilities of redux-utils.

**Request-id state machine** (`src/requestId.ts`, `src/createAsyncReducer.ts`).
A slice of store state wraps a value together with the status of the latest
request. There are three shapes:
- Loading, which carries the request id;
- Success, which carries the data;
- Failure, which carries the reject value or the serialized error.

`withRequestId` builds the initial state. `storeRequestId` handles the pending
action of an async thunk. `validateRequestIdSuccess` and
`validateRequestIdFailure` handle the fulfilled and rejected actions; each one
applies only when the state is loading the request the action belongs to.
`createAsyncReducer` combines the three into one reducer and adds the caller's
extra cases. In the model:
- each transition is the pure function its returned reducer closure computes (`RequestId`);
- the reducer is `AsyncReducer.Reduce`;
- a dispatch sequence is folded by `AsyncReducer.Run`;
- an undefined state is an `Option` input;
- the `tiny-invariant` throw is an `Err(StateUndefined)` result.

The main property is `AsyncReducer.LoadingIffInFlight`. It assumes that the
extra cases leave request tracking alone: they keep a Loading state as it is,
and never produce Loading from another state. The default `() => {}` has no
cases at all, so it qualifies. Under that assumption, for every dispatch
sequence, the state is Loading request `id` exactly when `id` was started and
nothing later started another request or resolved `id`. So a stale
resolution never overwrites a newer request. `AsyncReducer.ResetDuringRequestLosesTracking`
shows that the assumption is needed: a `reset` case that settles a loading
state ends the tracking of a request that is still in flight.

**Watchers** (`src/watcher.ts`). These are modelled imperatively, with classes:
- `Store`: the state and its subscribed listeners, in order.
- `Watch`: the poll closure `watch` builds. It remembers the last selected value and calls its handler with `(new, old)` when the value changes.
- `Watcher`: what `createWatcher` returns, with its `registered` guard.
- `Subscription`: the unsubscribe closure.
- `Handler`: the change handler, known by the calls it received.

`CombineSubscribe` and `UnsubscribeAll` model `combineWatchers`.
`Store.Dispatch` is proved to give each handler exactly the changes its
listeners saw. `WatcherScenarios` replays the watcher tests as methods that
return what the handlers received.

## Model

| member | source | states |
|---|---|---|
| RequestId.View | src/requestId.ts:10-36 | the object shape of each state satisfies the union's invariants: isLoading exactly when a requestId is present; loading has no data and no error; an error excludes data and loading; data is present exactly in Success |
| RequestId.ViewInjective | src/requestId.ts:10-36 | two states with the same object shape are the same state |
| RequestId.WithRequestId | src/requestId.ts:51-60 | the initial state holds the given data, is not loading, and has null requestId and requestError |
| RequestId.StoreRequestId | src/requestId.ts:62-81 | whatever the current state, even an undefined one, the result is loading with the action's request id, no data and no error |
| RequestId.MatchMeansLoading | src/requestId.ts:94-95 | `state?.requestId === action.meta.requestId` holds exactly when the state is Loading that request, and the previous data handed to the merge function is then undefined |
| RequestId.ValidateRequestIdSuccess | src/requestId.ts:83-106 | it throws exactly when the state is undefined; a matching fulfilled action gives Success with the merge of the payload into undefined data; a stale one returns the state unchanged |
| RequestId.ValidateRequestIdFailure | src/requestId.ts:108-139 | it throws exactly when the state is undefined; a matching rejected action gives Failure holding the reject value, or the serialized error when there is none; a stale one returns the state unchanged |
| RequestId.SettledStateIsFinal | src/requestId.ts:127-137 | a Success or Failure state is left unchanged by every fulfilled and every rejected action |
| RequestId.RejectionReason | src/requestId.ts:133 | the stored error is the reject value exactly when the action carries one, otherwise the action's serialized error |
| AsyncReducer.DefaultMerge | src/createAsyncReducer.ts:174 | the default merge ignores the previous data and yields the action's payload |
| AsyncReducer.NoAdditionalCases | src/createAsyncReducer.ts:175-177 | the default additionalReducers handles no action type |
| AsyncReducer.Run | src/createAsyncReducer.ts:182-197 | the store starts from withRequestId(initialState) and applies the dispatched actions in order; after a pending action, the state is loading that action's request |
| AsyncReducer.RunAppend | src/createAsyncReducer.ts:182-197 | dispatching one more action applies the reducer to the state the earlier actions left |
| AsyncReducer.Reduce | src/createAsyncReducer.ts:182-197 | pending gives Loading(id); a matching fulfilled action gives Success of the merged payload; a matching rejected action gives Failure of the reject value or error; stale resolutions leave the state unchanged; other action types go to the extra cases or leave the state unchanged; an undefined state is first replaced by the initial one |
| AsyncReducer.InitialStateIsWithRequestId | src/createAsyncReducer.ts:182-183 | the store starts from withRequestId(initialState), and a call on an undefined state equals a call on that initial state |
| AsyncReducer.DefaultReducerStartsEmpty | src/__tests__/createAsyncReducer.spec.ts:33-42 | with the default merge, no extra cases and undefined initial data, the state starts with undefined data, not loading, and null requestId and requestError |
| AsyncReducer.PendingIsTracked | src/createAsyncReducer.ts:186 | after any dispatch sequence followed by a pending action, the state is loading that action's request |
| AsyncReducer.PendingThenFulfilled | src/createAsyncReducer.ts:191-194 | pending followed by fulfilled with the same id gives Success holding the merge of the payload, with requestId and requestError null |
| AsyncReducer.DefaultMergeStoresPayload | src/createAsyncReducer.ts:174 | with the default merge, the fulfilled state's data is the payload itself |
| AsyncReducer.PendingThenRejected | src/createAsyncReducer.ts:187-190 | pending followed by rejected with the same id gives Failure holding the reject value if given, else the serialized error |
| AsyncReducer.StaleResolutionIsIgnored | src/createAsyncReducer.ts:185-194 | when request A starts, request B starts, and then A is fulfilled or rejected, the state is still Loading(B) |
| AsyncReducer.OtherActionsChangeNothing | src/createAsyncReducer.ts:175-177 | with the default additionalReducers, no action type is handled and any other action leaves the state unchanged |
| AsyncReducer.LoadingIffInFlight | src/createAsyncReducer.ts:182-197 | when every extra case keeps a Loading state as it is and never produces Loading from another state (the default registers no case), then for every dispatch sequence the state is Loading(id) exactly when some action started id and no later action started another request or resolved id |
| AsyncReducer.NotLoadingWithoutRequest | src/createAsyncReducer.ts:182-197 | under the same condition on the extra cases, isLoading is false when no request is in flight |
| AsyncReducer.ResetDuringRequestLosesTracking | src/createAsyncReducer.ts:195 | an extra `reset` case that settles a loading state leaves a request in flight but no longer tracked, so its later fulfilment is ignored |
| Watcher.Store.Subscribe | src/watcher.ts:48 | the listener is appended to the store's listeners; the state is unchanged; every listener stays subscribed once |
| Watcher.Store.Unsubscribe | src/watcher.ts:51 | the listener is removed from the store's listeners and every other listener stays, in order |
| Watcher.Store.Dispatch | src/watcher.ts:11-18 | after a dispatch of `next`, every listener remembers its selected value of `next`; each handler has received exactly the (new, old) pairs of its listeners whose selected value changed, in listener order; the listeners are unchanged |
| Watcher.Store.PollAt | src/watcher.ts:11-18 | one listener polls; only its handler can be called, and the dispatch's progress extends by that listener |
| Watcher.ChangesAreChanges | src/watcher.ts:13-16 | every call a dispatch makes has a new value that differs from the old value |
| Watcher.NoChangeNoCalls | src/watcher.ts:13 | when no selected value changed, no handler is called |
| Watcher.OtherHandlersNotCalled | src/watcher.ts:11-16 | a handler that no listener reports to is never called |
| Watcher.OneCallPerListener | src/watcher.ts:13-17 | a dispatch calls a handler at most once per listener that reports to it |
| Watcher.Watch.constructor | src/watcher.ts:10 | the watch reads the selected value of the store's state once, when it is created |
| Watcher.Watch.Poll | src/watcher.ts:11-18 | when the selected value differs from the remembered one, the handler is called once with (new, old) and the new value is remembered; otherwise nothing changes |
| Watcher.Watcher.constructor | src/watcher.ts:37-41 | a new watcher keeps its selector and handler and is not registered |
| Watcher.Watcher.Subscribe | src/watcher.ts:42-49 | it fails with AlreadySubscribed exactly when the watcher is registered, and then changes nothing; otherwise it appends a fresh listener that remembers the current selected value, and it registers the watcher; the handler is never called |
| Watcher.Subscription.Unsubscribe | src/watcher.ts:50-53 | the listener is removed from the store and the watcher's guard is cleared, even if the watcher was subscribed again since |
| Watcher.ReadyCount | src/watcher.ts:67 | counts the watchers at the front of the list that subscribe before one throws: each of them is unregistered and not repeated, and the next one is registered or repeated |
| Watcher.CombineSubscribe | src/watcher.ts:63-67 | the watchers subscribe in order until the first one that throws; exactly ReadyCount listeners are appended, each bound to its watcher, which is now registered; the result is a failure unless every watcher subscribed; otherwise it returns one subscription per watcher, in order |
| Watcher.SubscribeNext | src/watcher.ts:67 | the next watcher's subscribe succeeds exactly when its guard was clear and it did not occur earlier in the list |
| Watcher.DetachRemovesAll | src/watcher.ts:68 | calling the subscriptions' unsubscribes one after another removes all their listeners at once |
| Watcher.UnsubscribeAll | src/watcher.ts:68 | every subscription's listener is removed from the store, every other listener stays, and every watcher's guard is cleared |
| WatcherScenarios.SubscribeCallsNothing | src/__tests__/watcher.spec.ts:41-53 | subscribing a watcher does not call its handler |
| WatcherScenarios.HandlerSeesEachChange | src/__tests__/watcher.spec.ts:55-82 | two increments reach the counter's handler as (1, 0) and then (2, 1) |
| WatcherScenarios.UnrelatedChangeIsIgnored | src/__tests__/watcher.spec.ts:84-95 | a change to the letter slice does not call the counter's handler |
| WatcherScenarios.UnsubscribeStopsCalls | src/__tests__/watcher.spec.ts:97-116 | after unsubscribing, a further increment no longer reaches the handler |
| WatcherScenarios.SecondSubscribeFails | src/__tests__/watcher.spec.ts:118-128 | subscribing the same watcher a second time fails with AlreadySubscribed |
| WatcherScenarios.ResubscribeAfterUnsubscribe | src/__tests__/watcher.spec.ts:130-145 | after unsubscribing, the watcher subscribes again and sees the next change |
| WatcherScenarios.CombinedWatchersSeeTheirSlices | src/__tests__/watcher.spec.ts:162-190 | combined watchers each see only their own slice's change: (1, 0) for the counter and ("b", "a") for the letter |
| WatcherScenarios.CombinedUnsubscribeDetachesAll | src/__tests__/watcher.spec.ts:192-218 | after the combined unsubscribe, neither handler is called |
| WatcherScenarios.StaleUnsubscribeClearsGuard | src/watcher.ts:50-53 | calling an old unsubscribe after a resubscribe clears the guard but leaves the second listener attached; a third subscribe then succeeds, and one increment reaches the handler twice |
| WatcherScenarios.CombinedFailureKeepsEarlierWatchers | src/watcher.ts:66-67 | when a combined subscribe throws at its second watcher, the first watcher stays subscribed and still sees changes |

## Left out

- The store library is not part of this model. This covers `createReducer`, `configureStore` and `createAsyncThunk`, the Immer drafts, and the matcher and default-case builders. `Store` stands for a store that polls every subscribed listener, in subscription order, after each dispatch. `AsyncReducer.Reduce` covers only what `addCase` registers: the three thunk cases, and extra cases keyed by action type.
- The asynchronous operation, its promise, and aborting it are not modelled. An aborted request is a rejected action like any other, and the `aborted` flag is carried but never consulted.
- RequestId.ValidateRequestIdFailure: `action.payload || action.error` also skips a reject value that is falsy in JavaScript (0, "", false, null). The model stores every given reject value.
- AsyncReducer.DefaultMergeStoresPayload: the default merge casts the payload to the data type, which is sound only when the data type is the payload type or undefined. The model states the default merge only for that case (`Option<P>` data).
- The `tiny-invariant` messages are not modelled. A failed invariant becomes the `StateUndefined` or `AlreadySubscribed` error value.
- The third handler argument that the watcher tests at src/__tests__/watcher.spec.ts:147-158 expect (an object with the store and `dispatch`) is not modelled. src/watcher.ts:16 calls the handler with the new and old values only; the model follows the code.
- Watcher.Store.Dispatch: subscribing or unsubscribing from inside a change handler during a dispatch is not modelled; handlers only record their calls.
- Watcher.Watch.Poll: JavaScript's `!==` is modelled as Dafny equality on the selected-value type, and selectors are modelled as pure functions of the state. A selector that builds a fresh object or array on every call (such as `s => s.items.filter(...)`) cannot be represented. In the source, such a selector makes `!==` true on every poll, so its handler runs after every dispatch. NaN is not distinguished either.
- AsyncReducer.Reduce: an extra case receives the state and the action's type only. In the source, a reducer registered with `addCase` also receives the action's payload. No proved property depends on the payload of other actions.
- Watcher.UnsubscribeAll requires every subscription to belong to the given store, which is the case for the subscriptions one combined subscribe returns.
