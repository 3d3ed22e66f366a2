/**
 * Client scenarios of the bus that use only the contracts of `Bus`: the
 * deferred flow of the repository's test, immediate delivery, teardown after
 * any number of observes, and releasing the bus under strong and weak capture.
 */
module Scenarios {
  import opened Wrappers
  import opened BusSpec
  import opened Bus

  /** Observe with `runAtOnce: false`, deliver one notification, flush: the
      handler's thunk runs exactly once; a second flush runs nothing more. */
  method DeferredObserveThenFlush(o: Observer, notification: NotificationId,
                                  current: Option<QueueId>, newQueue: QueueId)
    returns (afterFlush: seq<Effect>, afterSecondFlush: seq<Effect>)
    requires !o.runAtOnce
    ensures afterFlush == [Ran(DeferredThunk(o, notification, current, newQueue))]
    ensures afterSecondFlush == afterFlush
  {
    var host := new Host();
    var bus := new NotifyBus();
    bus.Observe(o, host);
    bus.Deliver(o, notification, current, newQueue, host);
    assert host.effects == [];
    bus.ExecuteHandler(o.notifyObject.name, host);
    afterFlush := host.effects;
    bus.ExecuteHandler(o.notifyObject.name, host);
    afterSecondFlush := host.effects;
  }

  /** Observe with `runAtOnce: true` and deliver one notification: the handler
      runs at once and nothing is buffered, so a flush afterwards runs nothing. */
  method ImmediateObserveThenPost(o: Observer, notification: NotificationId,
                                  current: Option<QueueId>, newQueue: QueueId)
    returns (afterPost: seq<Effect>, afterFlush: seq<Effect>, buffered: set<Name>)
    requires o.runAtOnce
    ensures afterPost == [Invoked(o.handler, PayloadFor(o, notification))]
    ensures afterFlush == afterPost
    ensures buffered == {}
  {
    var host := new Host();
    var bus := new NotifyBus();
    bus.Observe(o, host);
    bus.Deliver(o, notification, current, newQueue, host);
    afterPost := host.effects;
    buffered := bus.delayedHandlers.Keys;
    bus.ExecuteHandler(o.notifyObject.name, host);
    afterFlush := host.effects;
  }

  /** As written: after one `observe`, the registered closure holds the bus
      strongly, so releasing the bus does not run `deinit` and no token is
      ever removed. */
  method ObserveThenReleaseAsWritten(o: Observer) returns (deinitRuns: bool, removals: seq<Removal>)
    ensures !deinitRuns
    ensures removals == []
  {
    var host := new Host();
    var bus := new NotifyBus();
    bus.Observe(o, host);
    removals := host.removals;
    deinitRuns := DeinitRuns(host.registrations, host.removals, Strong);
    StrongCaptureBlocksDeinit(host.registrations, host.removals, 0);
  }

  /** With the closure capturing the bus weakly: two observers, possibly on
      different centers, then release. `deinit` runs, and both issued tokens
      are removed once each, each from its own center. */
  method ObserveTwiceThenTeardown(a: Observer, b: Observer) returns (deinitRuns: bool, removals: seq<Removal>)
    ensures deinitRuns
    ensures multiset(removals) ==
      multiset{Removal(a.notifyObject.center, 0), Removal(b.notifyObject.center, 1)}
  {
    var host := new Host();
    var bus := new NotifyBus();
    bus.Observe(a, host);
    bus.Observe(b, host);
    deinitRuns := DeinitRuns(host.registrations, host.removals, Weak);
    WeakCaptureAllowsDeinit(host.registrations, host.removals);
    var ca, cb := a.notifyObject.center, b.notifyObject.center;
    var m := bus.notifyCenters;
    assert m == AppendAt(map[ca := [0]], cb, 1);
    if ca == cb { assert [0] + [1] == [0, 1]; }
    assert m == if ca == cb then map[ca := [0, 1]] else map[ca := [0], cb := [1]];
    var order := bus.Deinit(host);
    removals := host.removals;
    TwoStoredTokens(order, m, ca, cb);
  }

  /** With the closure capturing the bus weakly: any number of observes, then
      release. `deinit` runs, and it removes every issued token exactly once,
      from the center it was registered on, and removes nothing else. */
  method ObserveAllThenTeardown(os: seq<Observer>)
    returns (registrations: seq<Registration>, deinitRuns: bool, removals: seq<Removal>)
    ensures |registrations| == |os|
    ensures forall i :: 0 <= i < |os| ==>
      registrations[i] == Registration(os[i].notifyObject.center, os[i].notifyObject.name, os[i].queue, i, os[i])
    ensures deinitRuns
    ensures multiset(removals) == multiset(RegistrationRemovals(registrations))
    ensures forall i :: 0 <= i < |registrations| ==>
      multiset(removals)[Removal(registrations[i].center, registrations[i].token)] == 1
  {
    var host := new Host();
    var bus := new NotifyBus();
    for k := 0 to |os|
      invariant host.nextToken == k && |host.registrations| == k
      invariant forall i :: 0 <= i < k ==>
        host.registrations[i] == Registration(os[i].notifyObject.center, os[i].notifyObject.name, os[i].queue, i, os[i])
      invariant forall c :: ListAt(bus.notifyCenters, c) == TokensOn(host.registrations, c)
      invariant host.removals == []
    {
      ghost var regs, m := host.registrations, bus.notifyCenters;
      bus.Observe(os[k], host);
      forall c ensures ListAt(bus.notifyCenters, c) == TokensOn(host.registrations, c) {
        TokensOnSnoc(regs, host.registrations[k], c);
        assert host.registrations == regs + [host.registrations[k]];
      }
    }
    registrations := host.registrations;
    deinitRuns := DeinitRuns(registrations, host.removals, Weak);
    WeakCaptureAllowsDeinit(registrations, host.removals);
    var m := bus.notifyCenters;
    var order := bus.Deinit(host);
    removals := host.removals;
    TeardownUndoesRegistrations(order, m, registrations);
  }

  /** The counting argument behind `ObserveAllThenTeardown`: when each center's
      stored tokens are exactly those issued for it, and the issued tokens are
      distinct, teardown removes each registration's token exactly once. */
  lemma TeardownUndoesRegistrations(order: seq<CenterId>, m: Tokens, regs: seq<Registration>)
    requires Distinct(order) && forall d :: d in order <==> d in m
    requires forall c :: ListAt(m, c) == TokensOn(regs, c)
    requires forall i, j :: 0 <= i < j < |regs| ==> regs[i].token != regs[j].token
    ensures Stored(order, m)
    ensures multiset(Removals(order, m)) == multiset(RegistrationRemovals(regs))
    ensures forall i :: 0 <= i < |regs| ==>
      multiset(Removals(order, m))[Removal(regs[i].center, regs[i].token)] == 1
  {
    var removed := multiset(Removals(order, m));
    var undo := RegistrationRemovals(regs);
    forall x ensures removed[x] == multiset(undo)[x] {
      TeardownRemovesEachStoredToken(order, m, x.center, x.token);
      TokensOnCount(regs, x.center, x.token);
      assert ListAt(m, x.center) == TokensOn(regs, x.center);
    }
    assert removed == multiset(undo);
    assert Distinct(undo) by {
      forall a, b | 0 <= a < b < |undo| ensures undo[a] != undo[b] {
        assert undo[a].token == regs[a].token && undo[b].token == regs[b].token;
      }
    }
    forall i | 0 <= i < |regs| ensures removed[Removal(regs[i].center, regs[i].token)] == 1 {
      DistinctOccursOnce(undo, i);
    }
  }

  /** The counting argument behind `ObserveTwiceThenTeardown`. */
  lemma TwoStoredTokens(order: seq<CenterId>, m: Tokens, ca: CenterId, cb: CenterId)
    requires m == if ca == cb then map[ca := [0, 1]] else map[ca := [0], cb := [1]]
    requires Distinct(order) && forall d :: d in order <==> d in m
    ensures Stored(order, m)
    ensures multiset(Removals(order, m)) == multiset{Removal(ca, 0), Removal(cb, 1)}
  {
    var removed := multiset(Removals(order, m));
    var expected := multiset{Removal(ca, 0), Removal(cb, 1)};
    forall r | true ensures removed[r] == expected[r] {
      TeardownRemovesEachStoredToken(order, m, r.center, r.token);
      StoredCount(m, ca, cb, r);
    }
    assert removed == expected;
  }

  lemma StoredCount(m: Tokens, ca: CenterId, cb: CenterId, r: Removal)
    requires m == if ca == cb then map[ca := [0, 1]] else map[ca := [0], cb := [1]]
    ensures (if r.center in m then multiset(m[r.center])[r.token] else 0) ==
      multiset{Removal(ca, 0), Removal(cb, 1)}[r]
  {
    if ca == cb {
      assert multiset([0, 1]) == multiset{0, 1};
    } else {
      assert multiset([0]) == multiset{0} && multiset([1]) == multiset{1};
    }
  }
}
