/**
 * The imperative core of NotifyBus.swift: the `NotifyHandler` buffer class and
 * the `NotifyBus` class with its two dictionaries.
 *
 * `Host` stands for the Foundation objects the bus talks to. Its methods do
 * nothing but record what was asked of them: `addObserver` registrations,
 * handler invocations, thunks run and `removeObserver` calls.
 */
module Bus {
  import opened Wrappers
  import opened BusSpec

  class Host {
    var registrations: seq<Registration>
    var effects: seq<Effect>
    var removals: seq<Removal>
    var nextToken: TokenId

    constructor ()
      ensures registrations == [] && effects == [] && removals == [] && nextToken == 0
    {
      registrations, effects, removals, nextToken := [], [], [], 0;
    }

    /** `center.addObserver(forName:object:queue:using:)`: the center issues a new token. */
    method AddObserver(center: CenterId, name: Name, queue: Option<QueueId>, observer: Observer)
      returns (token: TokenId)
      modifies this
      ensures token == old(nextToken) && nextToken == old(nextToken) + 1
      ensures registrations == old(registrations) + [Registration(center, name, queue, token, observer)]
      ensures effects == old(effects) && removals == old(removals)
    {
      token := nextToken;
      nextToken := nextToken + 1;
      registrations := registrations + [Registration(center, name, queue, token, observer)];
    }

    /** Calling the consumer's handler directly. */
    method Invoke(handler: HandlerId, payload: Payload)
      modifies this
      ensures effects == old(effects) + [Invoked(handler, payload)]
      ensures registrations == old(registrations) && removals == old(removals) && nextToken == old(nextToken)
    {
      effects := effects + [Invoked(handler, payload)];
    }

    /** Calling a buffered thunk, which hands its handler to its queue. */
    method Run(t: Thunk)
      modifies this
      ensures effects == old(effects) + [Ran(t)]
      ensures registrations == old(registrations) && removals == old(removals) && nextToken == old(nextToken)
    {
      effects := effects + [Ran(t)];
    }

    /** `center.removeObserver(token)`. */
    method RemoveObserver(center: CenterId, token: TokenId)
      modifies this
      ensures removals == old(removals) + [Removal(center, token)]
      ensures registrations == old(registrations) && effects == old(effects) && nextToken == old(nextToken)
    {
      removals := removals + [Removal(center, token)];
    }
  }

  /** An ordered buffer of deferred thunks for one notification name. */
  class NotifyHandler {
    var handlers: seq<Thunk>

    /** A new buffer holds exactly the one thunk it is created with. */
    constructor (handler: Thunk)
      ensures handlers == [handler]
    {
      handlers := [handler];
    }

    /** `addHanlder` (so spelled in the source): appends at the end. */
    method AddHandler(handler: Thunk)
      modifies this
      ensures handlers == old(handlers) + [handler]
    {
      handlers := handlers + [handler];
    }

    /** Runs every stored thunk once, in stored order, then empties the buffer. */
    method Execute(host: Host)
      modifies this, host
      ensures handlers == []
      ensures host.effects == old(host.effects) + RunAll(old(handlers))
      ensures host.registrations == old(host.registrations) && host.removals == old(host.removals)
      ensures host.nextToken == old(host.nextToken)
    {
      var stored := handlers;
      for i := 0 to |stored|
        invariant host.effects == old(host.effects) + RunAll(stored[..i])
        invariant host.registrations == old(host.registrations) && host.removals == old(host.removals)
        invariant host.nextToken == old(host.nextToken)
      {
        host.Run(stored[i]);
        assert stored[..i + 1] == stored[..i] + [stored[i]];
        RunAllSnoc(stored[..i], stored[i]);
      }
      assert stored[..|stored|] == stored;
      handlers := [];
    }
  }

  class NotifyBus {
    var notifyCenters: Tokens
    var delayedHandlers: map<Name, NotifyHandler>

    /** Each name owns its own buffer object: no two names share one. */
    ghost predicate Valid()
      reads this
    {
      forall n, m :: n in delayedHandlers && m in delayedHandlers && n != m ==>
        delayedHandlers[n] != delayedHandlers[m]
    }

    /** The buffered thunks of every name. */
    ghost function Contents(): Buffers
      reads this, delayedHandlers.Values
    {
      map n | n in delayedHandlers :: delayedHandlers[n].handlers
    }

    constructor ()
      ensures Valid()
      ensures notifyCenters == map[] && delayedHandlers == map[] && Contents() == map[]
    {
      notifyCenters := map[];
      delayedHandlers := map[];
    }

    /** One `observe` call, of either overload: registers the delivery closure
        with the object's center and keeps the token that center returns. */
    method Observe(o: Observer, host: Host)
      modifies this`notifyCenters, host
      ensures notifyCenters == AppendAt(old(notifyCenters), o.notifyObject.center, old(host.nextToken))
      ensures host.nextToken == old(host.nextToken) + 1
      ensures host.registrations == old(host.registrations) +
        [Registration(o.notifyObject.center, o.notifyObject.name, o.queue, old(host.nextToken), o)]
      ensures host.effects == old(host.effects) && host.removals == old(host.removals)
    {
      var token := host.AddObserver(o.notifyObject.center, o.notifyObject.name, o.queue, o);
      AddToken(o.notifyObject.center, token);
    }

    /** The body of the closure `observe` registers, run once per delivered
        notification. `current` is `OperationQueue.current` at that moment and
        `newQueue` the queue `OperationQueue()` would create. */
    method Deliver(o: Observer, notification: NotificationId, current: Option<QueueId>,
                   newQueue: QueueId, host: Host)
      requires Valid()
      modifies this`delayedHandlers, delayedHandlers.Values, host
      ensures Valid()
      ensures fresh(delayedHandlers.Values - old(delayedHandlers.Values))
      ensures o.runAtOnce ==> delayedHandlers == old(delayedHandlers) && Contents() == old(Contents())
      ensures o.runAtOnce ==> host.effects == old(host.effects) + [Invoked(o.handler, PayloadFor(o, notification))]
      ensures !o.runAtOnce ==> host.effects == old(host.effects)
      ensures !o.runAtOnce ==>
        Contents() == AppendAt(old(Contents()), o.notifyObject.name, DeferredThunk(o, notification, current, newQueue))
      ensures host.registrations == old(host.registrations) && host.removals == old(host.removals)
      ensures host.nextToken == old(host.nextToken)
    {
      if o.runAtOnce {
        host.Invoke(o.handler, PayloadFor(o, notification));
      } else {
        var handlerQueue := ResolveQueue(o.queue, current, newQueue);
        var delayedHandler := Dispatch(handlerQueue, o.handler, PayloadFor(o, notification));
        AddDelayedHandler(o.notifyObject.name, delayedHandler);
      }
    }

    /** Appends to `name`'s buffer, creating the buffer on first use. */
    method AddDelayedHandler(name: Name, delayedHandler: Thunk)
      requires Valid()
      modifies this`delayedHandlers, delayedHandlers.Values
      ensures Valid()
      ensures fresh(delayedHandlers.Values - old(delayedHandlers.Values))
      ensures Contents() == AppendAt(old(Contents()), name, delayedHandler)
      ensures name in old(delayedHandlers) ==> delayedHandlers == old(delayedHandlers)
      ensures name !in old(delayedHandlers) ==>
        name in delayedHandlers && fresh(delayedHandlers[name]) &&
        delayedHandlers == old(delayedHandlers)[name := delayedHandlers[name]]
    {
      if name in delayedHandlers {
        delayedHandlers[name].AddHandler(delayedHandler);
      } else {
        var notifyHandler := new NotifyHandler(delayedHandler);
        delayedHandlers := delayedHandlers[name := notifyHandler];
      }
    }

    /** Appends `token` to `center`'s list, creating the list on first use. */
    method AddToken(center: CenterId, token: TokenId)
      modifies this`notifyCenters
      ensures notifyCenters == AppendAt(old(notifyCenters), center, token)
    {
      if center in notifyCenters {
        notifyCenters := notifyCenters[center := notifyCenters[center] + [token]];
      } else {
        notifyCenters := notifyCenters[center := [token]];
      }
    }

    /** `executeHandler(of:)`: flushes `name`'s buffer; nothing happens for an unknown name. */
    method ExecuteHandler(name: Name, host: Host)
      requires Valid()
      modifies delayedHandlers.Values, host
      ensures Valid()
      ensures Contents() == Flushed(old(Contents()), name)
      ensures host.effects == old(host.effects) + RunAll(ListAt(old(Contents()), name))
      ensures host.registrations == old(host.registrations) && host.removals == old(host.removals)
      ensures host.nextToken == old(host.nextToken)
    {
      if name in delayedHandlers {
        delayedHandlers[name].Execute(host);
      }
    }

    /** The inner loop of `deinit`: removes each of `tokens` from `center`, in list order. */
    method RemoveTokens(center: CenterId, tokens: seq<TokenId>, host: Host)
      modifies host
      ensures host.removals == old(host.removals) + CenterRemovals(center, tokens)
      ensures host.registrations == old(host.registrations) && host.effects == old(host.effects)
      ensures host.nextToken == old(host.nextToken)
    {
      for j := 0 to |tokens|
        invariant host.removals == old(host.removals) + CenterRemovals(center, tokens[..j])
        invariant host.registrations == old(host.registrations) && host.effects == old(host.effects)
        invariant host.nextToken == old(host.nextToken)
      {
        host.RemoveObserver(center, tokens[j]);
        assert tokens[..j + 1] == tokens[..j] + [tokens[j]];
        CenterRemovalsSnoc(center, tokens[..j], tokens[j]);
      }
      assert tokens[..|tokens|] == tokens;
    }

    /** `deinit`: removes every stored token from its own center. Swift walks the
        dictionary in an unspecified order; `order` is the order taken. */
    method Deinit(host: Host) returns (ghost order: seq<CenterId>)
      modifies host
      ensures Distinct(order) && forall c :: c in order <==> c in notifyCenters
      ensures Stored(order, notifyCenters)
      ensures host.removals == old(host.removals) + Removals(order, notifyCenters)
      ensures host.registrations == old(host.registrations) && host.effects == old(host.effects)
      ensures host.nextToken == old(host.nextToken)
    {
      order := [];
      var remaining := notifyCenters.Keys;
      while remaining != {}
        invariant remaining <= notifyCenters.Keys
        invariant Distinct(order)
        invariant forall c :: c in order <==> c in notifyCenters && c !in remaining
        invariant Stored(order, notifyCenters)
        invariant host.removals == old(host.removals) + Removals(order, notifyCenters)
        invariant host.registrations == old(host.registrations) && host.effects == old(host.effects)
        invariant host.nextToken == old(host.nextToken)
        decreases remaining
      {
        var center :| center in remaining;
        RemoveTokens(center, notifyCenters[center], host);
        RemovalsSnoc(order, center, notifyCenters);
        order := order + [center];
        remaining := remaining - {center};
      }
    }
  }
}
