/**
 * The watcher utility of src/watcher.ts.
 *
 * A store holds a state and the listeners subscribed to it; every dispatch
 * sets the state and then calls each listener. A Watch is the poll closure
 * that `watch` builds: it remembers the last value its selector produced and
 * calls its handler with (new, old) when the selected value changes under
 * strict equality. A Watcher is what createWatcher returns: it carries the
 * selector, the handler and the `registered` guard, and subscribing it to a
 * store builds a fresh Watch. A Subscription is the unsubscribe closure.
 *
 * The handler is external code; it is modelled by the record of its calls.
 * V, the type of selected values, stands for JavaScript values: `==` on it
 * is the source's `!==`/`===`.
 */
module Watcher {
  import opened Wrappers

  /** What subscribing throws when the watcher is still registered. */
  datatype WatchFault = AlreadySubscribed

  /** A change handler, known by the calls it received: (newValue, oldValue), oldest first. */
  class Handler<V> {
    var calls: seq<(V, V)>

    constructor ()
      ensures calls == []
    {
      calls := [];
    }
  }

  /** No element occurs twice. */
  ghost predicate Distinct<X>(xs: seq<X>)
  {
    xs == [] || (xs[0] !in xs[1..] && Distinct(xs[1..]))
  }

  /** In a sequence without repeats, the element at `i` occurs at no other index. */
  lemma {:induction false} DistinctAt<X>(xs: seq<X>, i: nat)
    requires Distinct(xs) && i < |xs|
    ensures forall k :: 0 <= k < |xs| && k != i ==> xs[k] != xs[i]
  {
    if i == 0 {
      assert forall k :: 0 < k < |xs| ==> xs[k] == xs[1..][k - 1];
    } else {
      DistinctAt(xs[1..], i - 1);
      assert xs[i] in xs[1..];
      assert forall k :: 0 < k < |xs| ==> xs[k] == xs[1..][k - 1];
    }
  }

  /** Appending an element that does not occur keeps the elements distinct. */
  lemma {:induction false} DistinctSnoc<X>(xs: seq<X>, x: X)
    requires Distinct(xs) && x !in xs
    ensures Distinct(xs + [x])
  {
    if xs != [] {
      assert (xs + [x])[1..] == xs[1..] + [x];
      DistinctSnoc(xs[1..], x);
    }
  }

  /** `xs` without the elements of `gone`, in the same order. */
  function Remove<X(==)>(xs: seq<X>, gone: seq<X>): (r: seq<X>)
    ensures |r| <= |xs|
  {
    if xs == [] then []
    else if xs[0] in gone then Remove(xs[1..], gone)
    else [xs[0]] + Remove(xs[1..], gone)
  }

  /** Removal keeps exactly the elements not in `gone`. */
  lemma {:induction false} RemoveKeepsOthers<X>(xs: seq<X>, gone: seq<X>)
    ensures forall i :: 0 <= i < |Remove(xs, gone)| ==> Remove(xs, gone)[i] in xs && Remove(xs, gone)[i] !in gone
    ensures forall i :: 0 <= i < |xs| && xs[i] !in gone ==> xs[i] in Remove(xs, gone)
  {
    if xs != [] {
      var tail := xs[1..];
      RemoveKeepsOthers(tail, gone);
      var rest := Remove(tail, gone);
      assert forall i :: 0 <= i < |rest| ==> rest[i] in xs by {
        forall i | 0 <= i < |rest| ensures rest[i] in xs {
          assert rest[i] in tail;
        }
      }
      forall i | 0 <= i < |xs| && xs[i] !in gone
        ensures xs[i] in Remove(xs, gone)
      {
        if i > 0 {
          assert xs[i] == tail[i - 1];
        }
      }
    }
  }

  /** Removal keeps distinct elements distinct. */
  lemma {:induction false} RemoveKeepsDistinct<X>(xs: seq<X>, gone: seq<X>)
    requires Distinct(xs)
    ensures Distinct(Remove(xs, gone))
  {
    if xs != [] {
      var tail := xs[1..];
      RemoveKeepsDistinct(tail, gone);
      RemoveKeepsOthers(tail, gone);
      if xs[0] !in gone {
        assert xs[0] !in Remove(tail, gone);
      }
    }
  }

  /** Removing elements that do not occur changes nothing. */
  lemma {:induction false} RemoveNothing<X>(xs: seq<X>, gone: seq<X>)
    requires forall i :: 0 <= i < |xs| ==> xs[i] !in gone
    ensures Remove(xs, gone) == xs
  {
    if xs != [] {
      RemoveNothing(xs[1..], gone);
    }
  }

  /** Removing two batches one after the other removes both at once. */
  lemma {:induction false} RemoveTwice<X>(xs: seq<X>, a: seq<X>, b: seq<X>)
    ensures Remove(Remove(xs, a), b) == Remove(xs, a + b)
  {
    if xs != [] {
      RemoveTwice(xs[1..], a, b);
    }
  }

  /** The abstract store: a state and the listeners subscribed to it, in subscription order. */
  class Store<T, V(==)> {
    var state: T
    var listeners: seq<Watch<T, V>>

    /** Every listener is subscribed once and polls this store. */
    ghost predicate Valid()
      reads this
    {
      Distinct(listeners) && forall k :: 0 <= k < |listeners| ==> listeners[k].store == this
    }

    constructor (initial: T)
      ensures Valid() && state == initial && listeners == []
    {
      state := initial;
      listeners := [];
    }

    /** `store.subscribe(listener)`: the listener is called after every later dispatch. */
    method Subscribe(w: Watch<T, V>)
      requires Valid() && w.store == this && w !in listeners
      modifies this
      ensures Valid() && state == old(state) && listeners == old(listeners) + [w]
    {
      DistinctSnoc(listeners, w);
      listeners := listeners + [w];
    }

    /** The unsubscribe function `store.subscribe` returns: later dispatches no longer reach `w`. */
    method Unsubscribe(w: Watch<T, V>)
      requires Valid()
      modifies this
      ensures Valid() && state == old(state) && listeners == Remove(old(listeners), [w])
    {
      RemoveKeepsOthers(listeners, [w]);
      RemoveKeepsDistinct(listeners, [w]);
      listeners := Remove(listeners, [w]);
    }

    /** The handlers of the subscribed listeners. */
    function Handlers(): set<Handler<V>>
      reads this
    {
      set w | w in listeners :: w.handler
    }

    /**
     * A dispatch whose reducer produced `next`: the state becomes `next` and
     * every listener polls, in order. Each handler receives exactly the
     * changes its listeners saw, and every listener now remembers the value
     * its selector gives for `next`.
     */
    method Dispatch(next: T)
      requires Valid()
      modifies this, listeners, Handlers()
      ensures Valid() && state == next && listeners == old(listeners)
      ensures forall k :: 0 <= k < |listeners| ==> listeners[k].current == listeners[k].selector(next)
      ensures forall k :: 0 <= k < |listeners| ==>
        listeners[k].handler.calls ==
          old(listeners[k].handler.calls) + Changes(listeners, old(Currents(listeners)), listeners[k].handler, next, |listeners|)
    {
      ghost var before := Currents(listeners);
      ghost var handlers := Handlers();
      ghost var was := map h | h in handlers :: h.calls;
      state := next;
      for i := 0 to |listeners|
        invariant Valid() && state == next && listeners == old(listeners)
        invariant Polled(i, next, before, handlers, was)
      {
        PollAt(i, next, before, handlers, was);
      }
    }

    /**
     * The state of a dispatch of `next` once the first `i` listeners polled:
     * those remember their selected value, the others still remember the value
     * in `before`, and each handler in `handlers` has received, after the calls
     * in `was`, the changes of the first `i` listeners.
     */
    ghost predicate Polled(i: nat, next: T, before: seq<V>,
                           handlers: set<Handler<V>>, was: map<Handler<V>, seq<(V, V)>>)
      reads this, listeners, handlers
    {
      && i <= |listeners| == |before|
      && (forall k :: 0 <= k < i ==> listeners[k].current == listeners[k].selector(next))
      && (forall k :: i <= k < |listeners| ==> listeners[k].current == before[k])
      && (forall h :: h in handlers ==> h in was && h.calls == was[h] + Changes(listeners, before, h, next, i))
    }

    /** One step of a dispatch: listener `i` polls, and only its handler can be called. */
    method PollAt(i: nat, next: T, ghost before: seq<V>,
                  ghost handlers: set<Handler<V>>, ghost was: map<Handler<V>, seq<(V, V)>>)
      requires Valid() && state == next
      requires i < |listeners| && Polled(i, next, before, handlers, was)
      modifies listeners[i], listeners[i].handler
      ensures Polled(i + 1, next, before, handlers, was)
    {
      var w := listeners[i];
      assert w.store == this && w.current == before[i];
      DistinctAt(listeners, i);
      label Polling:
      w.Poll();
      forall h | h in handlers
        ensures h.calls == was[h] + Changes(listeners, before, h, next, i + 1)
      {
        if h != w.handler {
          assert h.calls == old@Polling(h.calls);
        }
      }
    }
  }

  /** The values the listeners `ws` remember. */
  function Currents<T, V(==)>(ws: seq<Watch<T, V>>): (r: seq<V>)
    reads ws
    ensures |r| == |ws| && forall k :: 0 <= k < |ws| ==> r[k] == ws[k].current
  {
    seq(|ws|, k requires 0 <= k < |ws| reads ws => ws[k].current)
  }

  /**
   * The calls `h` receives when the first `n` listeners of `ws`, remembering
   * `currents`, poll in order after a dispatch of `next`: one (new, old) pair
   * for each of its listeners whose selected value changed.
   */
  function Changes<T, V(==)>(ws: seq<Watch<T, V>>, currents: seq<V>, h: Handler<V>, next: T, n: nat): seq<(V, V)>
    requires |currents| == |ws| && n <= |ws|
  {
    if n == 0 then []
    else
      var w, was := ws[n - 1], currents[n - 1];
      Changes(ws, currents, h, next, n - 1) +
        (if w.handler == h && w.selector(next) != was then [(w.selector(next), was)] else [])
  }

  /** A handler is only ever called with a new value that differs from the old one. */
  lemma {:induction false} ChangesAreChanges<T, V>(ws: seq<Watch<T, V>>, currents: seq<V>, h: Handler<V>, next: T, n: nat)
    requires |currents| == |ws| && n <= |ws|
    ensures forall j :: 0 <= j < |Changes(ws, currents, h, next, n)| ==>
      Changes(ws, currents, h, next, n)[j].0 != Changes(ws, currents, h, next, n)[j].1
  {
    if n > 0 {
      ChangesAreChanges(ws, currents, h, next, n - 1);
      var w, was := ws[n - 1], currents[n - 1];
      var front := Changes(ws, currents, h, next, n - 1);
      var step: seq<(V, V)> := if w.handler == h && w.selector(next) != was then [(w.selector(next), was)] else [];
      assert Changes(ws, currents, h, next, n) == front + step;
      forall j | 0 <= j < |front + step|
        ensures (front + step)[j].0 != (front + step)[j].1
      {
        if j < |front| {
          assert (front + step)[j] == front[j];
        } else {
          assert step != [] && (front + step)[j] == step[0] == (w.selector(next), was);
        }
      }
    }
  }

  /**
   * When no listener's selected value changed, that is, every listener
   * already remembers the value its selector gives for `next`, no handler is
   * called.
   */
  lemma {:induction false} NoChangeNoCalls<T, V>(ws: seq<Watch<T, V>>, currents: seq<V>, h: Handler<V>, next: T, n: nat)
    requires |currents| == |ws| && n <= |ws|
    requires forall k :: 0 <= k < n ==> ws[k].selector(next) == currents[k]
    ensures Changes(ws, currents, h, next, n) == []
  {
    if n > 0 {
      NoChangeNoCalls(ws, currents, h, next, n - 1);
    }
  }

  /** A handler that none of the listeners reports to is never called. */
  lemma {:induction false} OtherHandlersNotCalled<T, V>(ws: seq<Watch<T, V>>, currents: seq<V>, h: Handler<V>, next: T, n: nat)
    requires |currents| == |ws| && n <= |ws|
    requires forall k :: 0 <= k < n ==> ws[k].handler != h
    ensures Changes(ws, currents, h, next, n) == []
  {
    if n > 0 {
      OtherHandlersNotCalled(ws, currents, h, next, n - 1);
    }
  }

  /** A handler receives at most one call per listener that reports to it. */
  lemma {:induction false} OneCallPerListener<T, V>(ws: seq<Watch<T, V>>, currents: seq<V>, h: Handler<V>, next: T, n: nat)
    requires |currents| == |ws| && n <= |ws|
    ensures |Changes(ws, currents, h, next, n)| <= Reporting(ws, h, n)
  {
    if n > 0 {
      OneCallPerListener(ws, currents, h, next, n - 1);
    }
  }

  /** How many of the first `n` listeners report to `h`. */
  function Reporting<T, V>(ws: seq<Watch<T, V>>, h: Handler<V>, n: nat): nat
    requires n <= |ws|
  {
    if n == 0 then 0 else Reporting(ws, h, n - 1) + (if ws[n - 1].handler == h then 1 else 0)
  }

  /**
   * The poll closure that `watch(() => selector(store.getState()))` builds and
   * binds to `handler`; `current` is the closure's `currentValue`.
   */
  class Watch<T, V(==)> {
    const store: Store<T, V>
    const selector: T -> V
    const handler: Handler<V>
    var current: V

    /** `watch` reads the selected value once, when it is created. */
    constructor (store: Store<T, V>, selector: T -> V, handler: Handler<V>)
      ensures this.store == store && this.selector == selector && this.handler == handler
      ensures current == selector(store.state)
    {
      this.store := store;
      this.selector := selector;
      this.handler := handler;
      current := selector(store.state);
    }

    /**
     * One poll: when the selected value differs from the remembered one, the
     * handler is called once with (new, old) and the new value is remembered;
     * otherwise nothing happens.
     */
    method Poll()
      modifies this, handler
      ensures current == selector(store.state)
      ensures selector(store.state) != old(current) ==>
        handler.calls == old(handler.calls) + [(selector(store.state), old(current))]
      ensures selector(store.state) == old(current) ==>
        handler.calls == old(handler.calls) && current == old(current)
    {
      var newValue := selector(store.state);
      if current != newValue {
        var oldValue := current;
        current := newValue;
        handler.calls := handler.calls + [(newValue, oldValue)];
      }
    }
  }

  /** `w` is the listener a subscription of `watcher` to `store` installed, still up to date. */
  ghost predicate Binds<T, V>(w: Watch<T, V>, watcher: Watcher<T, V>, store: Store<T, V>)
    reads w, store`state
  {
    && w.store == store
    && w.selector == watcher.selector
    && w.handler == watcher.handler
    && w.current == watcher.selector(store.state)
  }

  /** The StoreWatcher that createWatcher(selector, handler) returns, with its `registered` guard. */
  class Watcher<T, V(==)> {
    const selector: T -> V
    const handler: Handler<V>
    var registered: bool

    constructor (selector: T -> V, handler: Handler<V>)
      ensures this.selector == selector && this.handler == handler && !registered
    {
      this.selector := selector;
      this.handler := handler;
      registered := false;
    }

    /**
     * Subscribing to a store: it fails while the watcher is registered;
     * otherwise a fresh listener remembering the current selected value is
     * appended to the store's listeners and the watcher becomes registered.
     * The handler is never called here.
     */
    method Subscribe(store: Store<T, V>) returns (r: Result<Subscription<T, V>, WatchFault>)
      requires store.Valid()
      modifies this, store
      ensures store.Valid() && store.state == old(store.state) && registered
      ensures handler.calls == old(handler.calls)
      ensures r.Err? <==> old(registered)
      ensures r.Err? ==> r.error == AlreadySubscribed && store.listeners == old(store.listeners)
      ensures r.Ok? ==>
        && fresh(r.value) && fresh(r.value.watch)
        && r.value.watcher == this && r.value.store == store
        && Binds(r.value.watch, this, store)
        && store.listeners == old(store.listeners) + [r.value.watch]
    {
      if registered {
        return Err(AlreadySubscribed);
      }
      var w := new Watch(store, selector, handler);
      store.Subscribe(w);
      registered := true;
      var s := new Subscription(this, store, w);
      return Ok(s);
    }
  }

  /** The unsubscribe function a watcher's subscription returns. */
  class Subscription<T, V(==)> {
    const watcher: Watcher<T, V>
    const store: Store<T, V>
    const watch: Watch<T, V>

    constructor (watcher: Watcher<T, V>, store: Store<T, V>, watch: Watch<T, V>)
      ensures this.watcher == watcher && this.store == store && this.watch == watch
    {
      this.watcher := watcher;
      this.store := store;
      this.watch := watch;
    }

    /**
     * Detaches the listener from the store and clears the watcher's guard.
     * The guard is one flag per watcher, so calling a stale unsubscribe after
     * the watcher was subscribed again clears it too.
     */
    method Unsubscribe()
      requires store.Valid()
      modifies store, watcher
      ensures store.Valid() && store.state == old(store.state)
      ensures store.listeners == Remove(old(store.listeners), [watch])
      ensures !watcher.registered
    {
      store.Unsubscribe(watch);
      watcher.registered := false;
    }
  }

  /**
   * How many watchers at the front of `ws` subscribe before one throws: the
   * first watcher that is registered, or that occurs earlier in `ws`, stops
   * the subscriptions.
   */
  function ReadyCount<T, V(==)>(ws: seq<Watcher<T, V>>): (k: nat)
    reads ws
    ensures k <= |ws|
    ensures forall j :: 0 <= j < k ==> !ws[j].registered && ws[j] !in ws[..j]
    ensures k < |ws| ==> ws[k].registered || ws[k] in ws[..k]
  {
    ReadyFrom(ws, 0)
  }

  function ReadyFrom<T, V(==)>(ws: seq<Watcher<T, V>>, i: nat): (k: nat)
    requires i <= |ws|
    requires forall j :: 0 <= j < i ==> !ws[j].registered && ws[j] !in ws[..j]
    reads ws
    ensures i <= k <= |ws|
    ensures forall j :: 0 <= j < k ==> !ws[j].registered && ws[j] !in ws[..j]
    ensures k < |ws| ==> ws[k].registered || ws[k] in ws[..k]
    decreases |ws| - i
  {
    if i == |ws| || ws[i].registered || ws[i] in ws[..i] then i
    else ReadyFrom(ws, i + 1)
  }

  /** The listeners the first `n` subscriptions installed, in order. */
  function WatchesOf<T, V(==)>(subs: seq<Subscription<T, V>>, n: nat): seq<Watch<T, V>>
    requires n <= |subs|
  {
    if n == 0 then [] else WatchesOf(subs, n - 1) + [subs[n - 1].watch]
  }

  /** `xs` after the listeners of the first `n` subscriptions were removed, one at a time. */
  function Detach<T, V(==)>(xs: seq<Watch<T, V>>, subs: seq<Subscription<T, V>>, n: nat): seq<Watch<T, V>>
    requires n <= |subs|
  {
    if n == 0 then xs else Remove(Detach(xs, subs, n - 1), [subs[n - 1].watch])
  }

  /** Removing the listeners one at a time removes all of them at once. */
  lemma {:induction false} DetachRemovesAll<T, V>(xs: seq<Watch<T, V>>, subs: seq<Subscription<T, V>>, n: nat)
    requires n <= |subs|
    ensures Detach(xs, subs, n) == Remove(xs, WatchesOf(subs, n))
  {
    if n == 0 {
      RemoveNothing(xs, []);
    } else {
      DetachRemovesAll(xs, subs, n - 1);
      RemoveTwice(xs, WatchesOf(subs, n - 1), [subs[n - 1].watch]);
    }
  }

  /** The watchers whose guards the subscriptions clear. */
  function WatchersOf<T, V(==)>(subs: seq<Subscription<T, V>>): set<Watcher<T, V>>
  {
    set s | s in subs :: s.watcher
  }

  /**
   * `combineWatchers(...watchers)(store)`: subscribes the watchers one after
   * the other. The first one that throws ends the call with that failure;
   * the ones before it stay subscribed and registered, and no unsubscribe
   * for them is returned. When none throws, the result holds one
   * subscription per watcher, in order.
   */
  method CombineSubscribe<T, V(==)>(watchers: seq<Watcher<T, V>>, store: Store<T, V>)
    returns (r: Result<seq<Subscription<T, V>>, WatchFault>, ghost added: seq<Watch<T, V>>)
    requires store.Valid()
    modifies store, watchers
    ensures store.Valid() && store.state == old(store.state)
    ensures store.listeners == old(store.listeners) + added
    ensures |added| == old(ReadyCount(watchers))
    ensures r.Ok? <==> |added| == |watchers|
    ensures forall j :: 0 <= j < |added| ==>
      watchers[j].registered && fresh(added[j]) && Binds(added[j], watchers[j], store)
    ensures forall j :: |added| <= j < |watchers| && watchers[j] !in watchers[..|added|] ==>
      watchers[j].registered == old(watchers[j].registered)
    ensures r.Ok? ==> |r.value| == |added| && forall j :: 0 <= j < |added| ==>
      r.value[j].watcher == watchers[j] && r.value[j].store == store && r.value[j].watch == added[j]
  {
    ghost var guards := Guards(watchers);
    ghost var k := ReadyCount(watchers);
    added := [];
    var subs: seq<Subscription<T, V>> := [];
    var i := 0;
    var failure: Option<WatchFault> := None;
    while i < |watchers|
      invariant 0 <= i == |added| <= k
      invariant store.Valid() && store.state == old(store.state)
      invariant Progress(watchers, guards, store, old(store.listeners), added, subs)
      invariant forall j :: 0 <= j < i ==> fresh(added[j])
      invariant failure.Some? ==> i == k
    {
      var s := SubscribeNext(watchers, store, guards, old(store.listeners), added, subs, i);
      if s.Err? {
        failure := Some(s.error);
        break;
      }
      added := added + [s.value.watch];
      subs := subs + [s.value];
      i := i + 1;
    }
    if failure.Some? {
      return Err(failure.value), added;
    }
    return Ok(subs), added;
  }

  /** The `registered` guards of the watchers, in order. */
  function Guards<T, V(==)>(ws: seq<Watcher<T, V>>): (r: seq<bool>)
    reads ws
    ensures |r| == |ws| && forall j :: 0 <= j < |ws| ==> r[j] == ws[j].registered
  {
    seq(|ws|, j requires 0 <= j < |ws| reads ws => ws[j].registered)
  }

  /**
   * What the first |added| subscriptions of a combined subscribe have done:
   * each of those watchers is registered, and the listener it installed is
   * bound and follows the listeners in `was`; every watcher not reached yet
   * keeps the guard it had in `guards`.
   */
  ghost predicate Progress<T, V>(
    watchers: seq<Watcher<T, V>>, guards: seq<bool>, store: Store<T, V>,
    was: seq<Watch<T, V>>, added: seq<Watch<T, V>>, subs: seq<Subscription<T, V>>)
    reads watchers, store, added
  {
    && |added| == |subs| <= |watchers| == |guards|
    && store.listeners == was + added
    && (forall j :: 0 <= j < |added| ==>
          && watchers[j].registered && Binds(added[j], watchers[j], store)
          && subs[j].watcher == watchers[j] && subs[j].store == store && subs[j].watch == added[j])
    && (forall j :: 0 <= j < |watchers| && watchers[j] !in watchers[..|added|] ==>
          watchers[j].registered == guards[j])
  }

  /**
   * One step of a combined subscribe: the next watcher subscribes. It fails
   * exactly when its guard was set or it occurred earlier in the list.
   */
  method SubscribeNext<T, V(==)>(
    watchers: seq<Watcher<T, V>>, store: Store<T, V>, ghost guards: seq<bool>,
    ghost was: seq<Watch<T, V>>, ghost added: seq<Watch<T, V>>, subs: seq<Subscription<T, V>>, i: nat)
    returns (r: Result<Subscription<T, V>, WatchFault>)
    requires store.Valid() && Progress(watchers, guards, store, was, added, subs)
    requires i == |added| < |watchers|
    modifies store, watchers[i]
    ensures store.Valid() && store.state == old(store.state)
    ensures r.Ok? <==> !guards[i] && watchers[i] !in watchers[..i]
    ensures r.Err? ==> Progress(watchers, guards, store, was, added, subs)
    ensures r.Ok? ==>
      fresh(r.value.watch) && Progress(watchers, guards, store, was, added + [r.value.watch], subs + [r.value])
  {
    r := watchers[i].Subscribe(store);
    if r.Ok? {
      assert watchers[..i + 1] == watchers[..i] + [watchers[i]];
    }
  }

  /** The combined unsubscribe: calls every subscription's unsubscribe, in order. */
  method UnsubscribeAll<T, V(==)>(subs: seq<Subscription<T, V>>, store: Store<T, V>)
    requires store.Valid()
    requires forall j :: 0 <= j < |subs| ==> subs[j].store == store
    modifies store, WatchersOf(subs)
    ensures store.Valid() && store.state == old(store.state)
    ensures store.listeners == Remove(old(store.listeners), WatchesOf(subs, |subs|))
    ensures forall j :: 0 <= j < |subs| ==> !subs[j].watcher.registered
  {
    var i := 0;
    while i < |subs|
      invariant 0 <= i <= |subs|
      invariant store.Valid() && store.state == old(store.state)
      invariant store.listeners == Detach(old(store.listeners), subs, i)
      invariant forall j :: 0 <= j < i ==> !subs[j].watcher.registered
    {
      label Detaching:
      subs[i].Unsubscribe();
      forall j | 0 <= j < i + 1
        ensures !subs[j].watcher.registered
      {
        if subs[j].watcher != subs[i].watcher {
          assert subs[j].watcher.registered == old@Detaching(subs[j].watcher.registered);
        }
      }
      i := i + 1;
    }
    DetachRemovesAll(old(store.listeners), subs, |subs|);
  }
}
