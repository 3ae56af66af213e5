/**
 * The behaviour the watcher tests of src/__tests__/watcher.spec.ts describe,
 * on a store whose state holds a counter and a letter. Each scenario builds
 * fresh handlers, watchers and a store, performs the test's steps, and returns
 * what the handlers received.
 */
module WatcherScenarios {
  import opened Wrappers
  import opened Watcher

  /** The combined state of the test store. */
  datatype AppState = AppState(counter: int, letter: char)

  /** The values the selectors produce: JavaScript numbers and strings, compared strictly. */
  datatype JsValue = Number(n: int) | Str(s: string)

  /** A change handler's record of calls, as pairs of JavaScript values. */
  type Calls = seq<(JsValue, JsValue)>

  /** The state both slices start in. */
  const Start := AppState(0, 'a')

  /** The counter slice's `increment` action. */
  function Increment(s: AppState): AppState
  {
    s.(counter := s.counter + 1)
  }

  /** The letter slice's `nextLetter` action: the next code point, back to 'a' after 'z'. */
  function NextLetter(s: AppState): AppState
  {
    s.(letter := if s.letter as int + 1 > 'z' as int then 'a' else (s.letter as int + 1) as char)
  }

  function CounterSelector(s: AppState): JsValue
  {
    Number(s.counter)
  }

  function LetterSelector(s: AppState): JsValue
  {
    Str([s.letter])
  }

  /**
   * The call a poll makes when the selected value moves from `was` to `now`:
   * the contribution of one listener to `Changes`, written out for a single
   * listener so that the scenarios can state their expected calls.
   */
  function Step(was: JsValue, now: JsValue): Calls
  {
    if now != was then [(now, was)] else []
  }

  /** A dispatch to a store with one listener. */
  method DispatchToOne(store: Store<AppState, JsValue>, ghost w: Watch<AppState, JsValue>, next: AppState)
    requires store.Valid() && store.listeners == [w]
    modifies store, w, w.handler
    ensures store.Valid() && store.listeners == [w] && store.state == next
    ensures w.current == w.selector(next)
    ensures w.handler.calls == old(w.handler.calls) + Step(old(w.current), w.selector(next))
  {
    ghost var before := Currents(store.listeners);
    assert before == [w.current];
    store.Dispatch(next);
    assert store.listeners[0] == w;
    assert Changes([w], before, w.handler, next, 1) == Step(before[0], w.selector(next));
  }

  /** A dispatch to a store with two listeners. */
  method DispatchToTwo(store: Store<AppState, JsValue>, ghost u: Watch<AppState, JsValue>, ghost v: Watch<AppState, JsValue>, next: AppState)
    requires store.Valid() && store.listeners == [u, v]
    modifies store, u, v, u.handler, v.handler
    ensures store.Valid() && store.listeners == [u, v] && store.state == next
    ensures u.current == u.selector(next) && v.current == v.selector(next)
    ensures u.handler != v.handler ==>
      && u.handler.calls == old(u.handler.calls) + Step(old(u.current), u.selector(next))
      && v.handler.calls == old(v.handler.calls) + Step(old(v.current), v.selector(next))
    ensures u.handler == v.handler ==>
      u.handler.calls == old(u.handler.calls) + Step(old(u.current), u.selector(next)) + Step(old(v.current), v.selector(next))
  {
    ghost var before := Currents(store.listeners);
    assert before == [u.current, v.current];
    store.Dispatch(next);
    assert store.listeners[0] == u && store.listeners[1] == v;
    assert Changes([u, v], before, u.handler, next, 1) == Step(before[0], u.selector(next));
    assert Changes([u, v], before, v.handler, next, 1) == (if u.handler == v.handler then Step(before[0], u.selector(next)) else []);
  }

  /** A dispatch to a store with no listener. */
  method DispatchToNone(store: Store<AppState, JsValue>, next: AppState)
    requires store.Valid() && store.listeners == []
    modifies store
    ensures store.Valid() && store.listeners == [] && store.state == next
  {
    assert store.Handlers() == {};
    store.Dispatch(next);
  }

  /** Combining two distinct watchers that are not subscribed subscribes both, in order. */
  method CombineTwo(store: Store<AppState, JsValue>, a: Watcher<AppState, JsValue>, b: Watcher<AppState, JsValue>)
    returns (subs: seq<Subscription<AppState, JsValue>>, ghost added: seq<Watch<AppState, JsValue>>)
    requires store.Valid() && a != b && !a.registered && !b.registered
    modifies store, a, b
    ensures store.Valid() && store.state == old(store.state)
    ensures |added| == 2 && store.listeners == old(store.listeners) + added
    ensures Binds(added[0], a, store) && Binds(added[1], b, store)
    ensures |subs| == 2 && subs[0].store == store && subs[1].store == store
    ensures subs[0].watcher == a && subs[1].watcher == b
    ensures subs[0].watch == added[0] && subs[1].watch == added[1]
  {
    assert ReadyCount([a, b]) == 2;
    var r;
    r, added := CombineSubscribe([a, b], store);
    subs := r.value;
  }

  /** Combining a watcher that is not subscribed with one that is subscribes the first and fails. */
  method CombineBlocked(store: Store<AppState, JsValue>, a: Watcher<AppState, JsValue>, b: Watcher<AppState, JsValue>)
    returns (failed: bool, ghost added: Watch<AppState, JsValue>)
    requires store.Valid() && a != b && !a.registered && b.registered
    modifies store, a, b
    ensures failed && store.Valid() && store.state == old(store.state)
    ensures store.listeners == old(store.listeners) + [added] && Binds(added, a, store)
  {
    assert ReadyFrom([a, b], 1) == 1;
    var r, all := CombineSubscribe([a, b], store);
    failed := r.Err?;
    added := all[0];
    assert all == [added];
  }

  /** Subscribing a watcher calls its handler with nothing. */
  method SubscribeCallsNothing() returns (calls: Calls)
    ensures calls == []
  {
    var store := new Store(Start);
    var handler := new Handler();
    var watcher := new Watcher(CounterSelector, handler);
    var _ := watcher.Subscribe(store);
    return handler.calls;
  }

  /** Two increments reach the counter's handler as (1, 0) and then (2, 1). */
  method HandlerSeesEachChange() returns (calls: Calls)
    ensures calls == [(Number(1), Number(0)), (Number(2), Number(1))]
  {
    var store := new Store(Start);
    var handler := new Handler();
    var watcher := new Watcher(CounterSelector, handler);
    var r := watcher.Subscribe(store);
    DispatchToOne(store, r.value.watch, Increment(store.state));
    DispatchToOne(store, r.value.watch, Increment(store.state));
    return handler.calls;
  }

  /** A change to another slice does not reach the counter's handler. */
  method UnrelatedChangeIsIgnored() returns (calls: Calls)
    ensures calls == []
  {
    var store := new Store(Start);
    var handler := new Handler();
    var watcher := new Watcher(CounterSelector, handler);
    var r := watcher.Subscribe(store);
    DispatchToOne(store, r.value.watch, NextLetter(store.state));
    return handler.calls;
  }

  /** After unsubscribing, a further increment no longer reaches the handler. */
  method UnsubscribeStopsCalls() returns (calls: Calls)
    ensures calls == [(Number(1), Number(0))]
  {
    var store := new Store(Start);
    var handler := new Handler();
    var watcher := new Watcher(CounterSelector, handler);
    var r := watcher.Subscribe(store);
    DispatchToOne(store, r.value.watch, Increment(store.state));
    r.value.Unsubscribe();
    DispatchToNone(store, Increment(store.state));
    return handler.calls;
  }

  /** Subscribing the same watcher twice throws the second time. */
  method SecondSubscribeFails() returns (first: bool, second: Result<Subscription<AppState, JsValue>, WatchFault>)
    ensures first && second == Err(AlreadySubscribed)
  {
    var store := new Store(Start);
    var handler := new Handler();
    var watcher := new Watcher(CounterSelector, handler);
    var r := watcher.Subscribe(store);
    first := r.Ok?;
    second := watcher.Subscribe(store);
  }

  /** Once unsubscribed, a watcher subscribes again and sees the next change. */
  method ResubscribeAfterUnsubscribe() returns (again: bool, calls: Calls)
    ensures again && calls == [(Number(1), Number(0))]
  {
    var store := new Store(Start);
    var handler := new Handler();
    var watcher := new Watcher(CounterSelector, handler);
    var r := watcher.Subscribe(store);
    r.value.Unsubscribe();
    var s := watcher.Subscribe(store);
    again := s.Ok?;
    DispatchToOne(store, s.value.watch, Increment(store.state));
    return again, handler.calls;
  }

  /** Combined watchers each see the changes of their own slice only. */
  method CombinedWatchersSeeTheirSlices() returns (counterCalls: Calls, letterCalls: Calls)
    ensures counterCalls == [(Number(1), Number(0))]
    ensures letterCalls == [(Str("b"), Str("a"))]
  {
    var store := new Store(Start);
    var counterHandler := new Handler();
    var letterHandler := new Handler();
    var counterWatcher := new Watcher(CounterSelector, counterHandler);
    var letterWatcher := new Watcher(LetterSelector, letterHandler);
    var subs, added := CombineTwo(store, counterWatcher, letterWatcher);
    DispatchToTwo(store, added[0], added[1], Increment(store.state));
    DispatchToTwo(store, added[0], added[1], NextLetter(store.state));
    return counterHandler.calls, letterHandler.calls;
  }

  /** The combined unsubscribe detaches every watcher. */
  method CombinedUnsubscribeDetachesAll() returns (counterCalls: Calls, letterCalls: Calls)
    ensures counterCalls == [] && letterCalls == []
  {
    var store := new Store(Start);
    var counterHandler := new Handler();
    var letterHandler := new Handler();
    var counterWatcher := new Watcher(CounterSelector, counterHandler);
    var letterWatcher := new Watcher(LetterSelector, letterHandler);
    var subs, added := CombineTwo(store, counterWatcher, letterWatcher);
    UnsubscribeAll(subs, store);
    DispatchToNone(store, Increment(store.state));
    DispatchToNone(store, NextLetter(store.state));
    return counterHandler.calls, letterHandler.calls;
  }

  /**
   * A stale unsubscribe clears the guard of a watcher that was subscribed
   * again, though its second listener stays attached; the watcher can then
   * subscribe a third time, and each increment reaches its handler twice.
   */
  method StaleUnsubscribeClearsGuard() returns (third: bool, calls: Calls)
    ensures third && calls == [(Number(1), Number(0)), (Number(1), Number(0))]
  {
    var store := new Store(Start);
    var handler := new Handler();
    var watcher := new Watcher(CounterSelector, handler);
    var first := watcher.Subscribe(store);
    first.value.Unsubscribe();
    var second := watcher.Subscribe(store);
    first.value.Unsubscribe();
    var r := watcher.Subscribe(store);
    third := r.Ok?;
    DispatchToTwo(store, second.value.watch, r.value.watch, Increment(store.state));
    return third, handler.calls;
  }

  /**
   * A combined subscribe that throws part-way leaves the watchers before the
   * failing one subscribed, with no way to unsubscribe them through the
   * combined watcher.
   */
  method CombinedFailureKeepsEarlierWatchers() returns (failed: bool, counterCalls: Calls)
    ensures failed && counterCalls == [(Number(1), Number(0))]
  {
    var store := new Store(Start);
    var counterHandler := new Handler();
    var letterHandler := new Handler();
    var counterWatcher := new Watcher(CounterSelector, counterHandler);
    var letterWatcher := new Watcher(LetterSelector, letterHandler);
    var s := letterWatcher.Subscribe(store);
    ghost var added;
    failed, added := CombineBlocked(store, counterWatcher, letterWatcher);
    DispatchToTwo(store, s.value.watch, added, Increment(store.state));
    return failed, counterHandler.calls;
  }
}
