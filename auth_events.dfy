/**
 * Authentication events, `src/utils/authEvents.js`: a registry of subscribers
 * per event name, and the session-expired handler that publishes once and
 * arms a single redirect. Callbacks are identified by number; whether a call
 * throws is a parameter of `Publish`.
 */
module AuthEvents {
  import opened Wrappers
  import opened JsValue
  import opened Foreign
  import opened Timers
  import opened Redirects

  const SessionExpired: string := "auth:session_expired"
  const LogoutEvent: string := "auth:logout"

  /** The identity of a subscribed function. */
  type Callback = nat

  /** The function `subscribe` returns: it removes that callback from that event. */
  datatype Unsubscriber = Unsubscriber(event: string, callback: Callback)

  /** One invocation made by `publish`, and whether the callback threw (the throw is caught). */
  datatype Call = Call(callback: Callback, data: Value, threw: bool)

  predicate NoDuplicates(xs: seq<Callback>) {
    forall i, j :: 0 <= i < j < |xs| ==> xs[i] != xs[j]
  }

  /** `set.add(cb)` on a set kept in insertion order. */
  function AddLast(xs: seq<Callback>, cb: Callback): (r: seq<Callback>)
    ensures forall c :: c in r <==> c in xs || c == cb
    ensures |xs| <= |r| && r[..|xs|] == xs
    ensures NoDuplicates(xs) ==> NoDuplicates(r)
  {
    if cb in xs then xs else xs + [cb]
  }

  /** `set.delete(cb)`: the others stay, in their order. */
  function Without(xs: seq<Callback>, cb: Callback): (r: seq<Callback>)
    ensures forall c :: c in r <==> c in xs && c != cb
    ensures NoDuplicates(xs) ==> NoDuplicates(r)
    decreases |xs|
  {
    if xs == [] then []
    else
      var rest := Without(xs[1..], cb);
      assert forall c :: c in xs[1..] ==> c in xs;
      if xs[0] == cb then rest
      else
        assert NoDuplicates(xs) ==> xs[0] !in xs[1..];
        [xs[0]] + rest
  }

  /** Adding a callback twice stores it once. */
  lemma AddIsIdempotent(xs: seq<Callback>, cb: Callback)
    ensures AddLast(AddLast(xs, cb), cb) == AddLast(xs, cb)
  {
  }

  /** Removing a callback that is absent changes nothing. */
  lemma {:induction false} WithoutAbsent(xs: seq<Callback>, cb: Callback)
    requires cb !in xs
    ensures Without(xs, cb) == xs
    decreases |xs|
  {
    if xs != [] {
      assert cb !in xs[1..];
      WithoutAbsent(xs[1..], cb);
      assert [xs[0]] + xs[1..] == xs;
    }
  }

  /** Deleting the last member, which occurs nowhere else, gives back the members before it. */
  lemma {:induction false} WithoutLast(xs: seq<Callback>, cb: Callback)
    requires cb !in xs
    ensures Without(xs + [cb], cb) == xs
    decreases |xs|
  {
    if xs == [] {
      assert [] + [cb] == [cb];
      assert [cb][1..] == [];
    } else {
      assert (xs + [cb])[1..] == xs[1..] + [cb];
      assert cb !in xs[1..];
      WithoutLast(xs[1..], cb);
      assert [xs[0]] + xs[1..] == xs;
    }
  }

  /** Subscribing a new callback and then unsubscribing it restores the set exactly, order included. */
  lemma SubscribeThenUnsubscribe(xs: seq<Callback>, cb: Callback)
    requires cb !in xs
    ensures Without(AddLast(xs, cb), cb) == xs
  {
    WithoutLast(xs, cb);
  }

  /** The callbacks registered for `event`: none when the event was never subscribed to. */
  function Registered(subscribers: map<string, seq<Callback>>, event: string): (r: seq<Callback>)
    ensures event !in subscribers ==> r == []
  {
    if event in subscribers then subscribers[event] else []
  }

  /** `publish(event, data = {})`: a missing `data` becomes an empty object. */
  function PublishedData(data: Value): (r: Value)
    ensures data != Undefined ==> r == data
    ensures r != Undefined
  {
    if data == Undefined then Obj(map[]) else data
  }

  /** The module-level `subscribers` map of sets. */
  class EventBus {
    var subscribers: map<string, seq<Callback>>

    ghost predicate Valid()
      reads this
    {
      forall e :: e in subscribers ==> NoDuplicates(subscribers[e])
    }

    constructor ()
      ensures Valid() && subscribers == map[]
    {
      subscribers := map[];
    }

    /** `subscribe`: creates the event's set on first use and adds the callback to it. */
    method Subscribe(event: string, callback: Callback) returns (unsubscribe: Unsubscriber)
      requires Valid()
      modifies this
      ensures Valid()
      ensures subscribers == old(subscribers)[event := AddLast(Registered(old(subscribers), event), callback)]
      ensures unsubscribe == Unsubscriber(event, callback)
    {
      if event !in subscribers {
        subscribers := subscribers[event := []];
      }
      subscribers := subscribers[event := AddLast(subscribers[event], callback)];
      unsubscribe := Unsubscriber(event, callback);
    }

    /** Calling the function `subscribe` returned: only that callback, only from that event. */
    method Unsubscribe(unsubscribe: Unsubscriber)
      requires Valid()
      modifies this
      ensures Valid()
      ensures unsubscribe.event !in old(subscribers) ==> subscribers == old(subscribers)
      ensures unsubscribe.event in old(subscribers) ==>
        subscribers == old(subscribers)[unsubscribe.event := Without(old(subscribers)[unsubscribe.event], unsubscribe.callback)]
    {
      if unsubscribe.event in subscribers {
        subscribers := subscribers[unsubscribe.event := Without(subscribers[unsubscribe.event], unsubscribe.callback)];
      }
    }

    /**
     * `publish`: every current subscriber of `event` is called with the data,
     * in subscription order; one that throws does not stop the others, and
     * subscribers of other events are not called.
     */
    method Publish(event: string, data: Value, throws: Callback -> bool) returns (calls: seq<Call>)
      ensures |calls| == |Registered(subscribers, event)|
      ensures forall i :: 0 <= i < |calls| ==>
        calls[i] == Call(Registered(subscribers, event)[i], PublishedData(data), throws(Registered(subscribers, event)[i]))
    {
      var payload := PublishedData(data);
      calls := [];
      if event !in subscribers {
        return;
      }
      var callbacks := subscribers[event];
      var i := 0;
      while i < |callbacks|
        invariant 0 <= i <= |callbacks|
        invariant |calls| == i
        invariant forall k :: 0 <= k < i ==> calls[k] == Call(callbacks[k], payload, throws(callbacks[k]))
      {
        var threw := throws(callbacks[i]);
        calls := calls + [Call(callbacks[i], payload, threw)];
        i := i + 1;
      }
    }
  }

  /** What a pending redirect runs: it captured the `returnUrl` option. */
  datatype Redirect = Redirect(returnUrl: Value)

  /** The delay before redirecting: none when `immediate` is truthy, else 500 ms. */
  function RedirectDelay(immediate: Value): (delay: nat)
    ensures Truthy(immediate) <==> delay == 0
    ensures !Truthy(immediate) ==> delay == 500
  {
    if Truthy(immediate) then 0 else 500
  }

  /** What the armed redirect does when it fires: `returnUrl || window.location.pathname`, then the login target. */
  function RedirectTarget(task: Redirect, pathname: string, host: Host): (href: string)
    ensures Truthy(task.returnUrl) ==> href == LoginHref(task.returnUrl, host)
    ensures !Truthy(task.returnUrl) ==> href == LoginHref(Str(pathname), host)
  {
    LoginHref(Or(task.returnUrl, Str(pathname)), host)
  }

  /** Without a `returnUrl`, a redirect fired on the login page itself goes to bare `/login`. */
  lemma RedirectFromLoginPage(host: Host)
    ensures RedirectTarget(Redirect(Undefined), LoginPath, host) == LoginPath
  {
  }

  /** `createSessionExpiredHandler()`: the closure state `isHandling` and `pendingRedirect`. */
  class SessionExpiredHandler {
    var isHandling: bool
    var pendingRedirect: Option<nat>
    const bus: EventBus
    const timers: TimerQueue<Redirect>

    ghost predicate Valid()
      reads this, timers
    {
      timers.Valid()
    }

    /** Handling is under way exactly while a redirect handle is held. */
    predicate Consistent()
      reads this
    {
      isHandling <==> pendingRedirect.Some?
    }

    constructor (bus: EventBus, timers: TimerQueue<Redirect>)
      requires timers.Valid()
      ensures Valid() && Consistent()
      ensures this.bus == bus && this.timers == timers
      ensures !isHandling && pendingRedirect == None
    {
      this.bus := bus;
      this.timers := timers;
      isHandling := false;
      pendingRedirect := None;
    }

    /**
     * `handle({immediate, returnUrl})`: a no-op while already handling;
     * otherwise it publishes `SESSION_EXPIRED` with `{returnUrl}`, disarms a
     * pending redirect if there is one, and arms a new one.
     */
    method Handle(immediate: Value, returnUrl: Value, throws: Callback -> bool) returns (calls: seq<Call>)
      requires Valid()
      modifies this, timers
      ensures Valid()
      ensures old(isHandling) ==>
        calls == [] && isHandling && pendingRedirect == old(pendingRedirect) && timers.armed == old(timers.armed)
      ensures !old(isHandling) ==>
        && isHandling
        && |calls| == |Registered(bus.subscribers, SessionExpired)|
        && (forall i :: 0 <= i < |calls| ==>
              calls[i] == Call(Registered(bus.subscribers, SessionExpired)[i], Single("returnUrl", returnUrl),
                               throws(Registered(bus.subscribers, SessionExpired)[i])))
        && pendingRedirect.Some?
        && pendingRedirect.value !in old(timers.armed)
        && timers.armed == (if old(pendingRedirect).Some? then old(timers.armed) - {old(pendingRedirect).value} else old(timers.armed))
             [pendingRedirect.value := Timer(RedirectDelay(immediate), Redirect(returnUrl))]
      ensures old(Consistent()) ==> Consistent()
    {
      if isHandling {
        return [];
      }
      isHandling := true;
      calls := bus.Publish(SessionExpired, Single("returnUrl", returnUrl), throws);
      var delay := RedirectDelay(immediate);
      if pendingRedirect.Some? {
        timers.ClearTimeout(pendingRedirect.value);
      }
      var id := timers.SetTimeout(delay, Redirect(returnUrl));
      pendingRedirect := Some(id);
    }

    /** `cancel`: disarms a pending redirect, if any, and returns to idle. */
    method Cancel()
      requires Valid()
      modifies this, timers
      ensures Valid() && Consistent()
      ensures !isHandling && pendingRedirect == None
      ensures timers.armed == if old(pendingRedirect).Some? then old(timers.armed) - {old(pendingRedirect).value} else old(timers.armed)
    {
      if pendingRedirect.Some? {
        timers.ClearTimeout(pendingRedirect.value);
        pendingRedirect := None;
      }
      isHandling := false;
    }

    /**
     * The runtime fires timer `id`: an armed redirect sets `window.location.href`
     * to its login target. The handler's own flags are left as they are.
     */
    method FireRedirect(id: nat, pathname: string, host: Host) returns (href: Option<string>)
      requires Valid()
      modifies timers
      ensures Valid()
      ensures id in old(timers.armed) ==> href == Some(RedirectTarget(old(timers.armed)[id].task, pathname, host))
      ensures id !in old(timers.armed) ==> href == None
      ensures timers.armed == old(timers.armed) - {id}
    {
      var task := timers.Fire(id);
      match task {
        case None => href := None;
        case Some(redirect) => href := Some(RedirectTarget(redirect, pathname, host));
      }
    }

    /** `reset`: back to idle without `clearTimeout`, so an armed redirect still fires. */
    method Reset()
      modifies this
      ensures Consistent()
      ensures !isHandling && pendingRedirect == None
    {
      isHandling := false;
      pendingRedirect := None;
    }
  }

  /**
   * Concurrent expiries: with one subscriber, three `handle` calls in a row
   * call it once, with the first call's `returnUrl`, and leave exactly one
   * redirect armed: the first call's, after 500 ms.
   */
  method ThreeExpiries(host: Host, pathname: string) returns (handler: SessionExpiredHandler, calls: seq<Call>)
    ensures calls == [Call(1, Single("returnUrl", Undefined), false)]
    ensures handler.pendingRedirect.Some?
    ensures handler.timers.armed == map[handler.pendingRedirect.value := Timer(500, Redirect(Undefined))]
  {
    var bus := new EventBus();
    var unsubscribe := bus.Subscribe(SessionExpired, 1);
    var timers := new TimerQueue<Redirect>();
    handler := new SessionExpiredHandler(bus, timers);
    var first := handler.Handle(Bool(false), Undefined, _ => false);
    var second := handler.Handle(Bool(true), Str("/kb"), _ => false);
    var third := handler.Handle(Undefined, Undefined, _ => false);
    calls := first + second + third;
  }

  /** `reset` does not disarm: the redirect armed before it still navigates to the login page. */
  method ResetStillRedirects(host: Host) returns (href: Option<string>)
    ensures href == Some(LoginHref(Str("/kb/7"), host))
  {
    var bus := new EventBus();
    var timers := new TimerQueue<Redirect>();
    var handler := new SessionExpiredHandler(bus, timers);
    var calls := handler.Handle(Undefined, Str("/kb/7"), _ => false);
    var id := handler.pendingRedirect.value;
    handler.Reset();
    href := handler.FireRedirect(id, "/chat", host);
  }
}
