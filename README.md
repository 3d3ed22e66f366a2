# NotifyBus — a Dafny model of the deferred-handler bookkeeping

NotifyBus is a small Swift wrapper over Foundation's `NotificationCenter`. A
consumer calls `observe` on a notify object. On each delivered notification the
bus either calls the consumer's handler at once (`runAtOnce: true`) or wraps the
call in a thunk and buffers it under the notification's name. `executeHandler(of:)`
later runs that name's buffered thunks in order and empties the buffer. The bus
also keeps every observer token per center. Its `deinit` removes them all,
but only if `deinit` ever runs; see "## Findings".

The model covers `Sources/NotifyBus/NotifyBus.swift`:

- `wrappers.dfy`, module `Wrappers`: `Option`, standing for Swift's `T?`.
- `bus_spec.dfy`, module `BusSpec`: opaque identifiers for the Foundation objects and values for what the bus
  stores. A thunk is represented by the queue, handler and payload it captures.
  This module also holds the pure functions that specify the dictionary updates, and the lemmas about them.
- `notify_bus.dfy`, module `Bus`: the classes `NotifyHandler` (a `seq` of thunks appended to and reset in
  place) and `NotifyBus` (the dictionaries `delayedHandlers`, a map to shared
  `NotifyHandler` objects, and `notifyCenters`). Each method is proved against
  the functions of `BusSpec`. The class `Host` stands for Foundation. Its methods append to traces and issue tokens from a counter. The traces record
  the registrations made by `addObserver`, the handlers invoked, the thunks run, and the `removeObserver` calls.
- `scenarios.dfy`, module `Scenarios`: client methods that mirror the repository's test and four further scenarios,
  using only the contracts of `Bus`.

Behaviour of the source worth noting:

- `observe` defaults to `queue: nil` and `runAtOnce: true` (lines 43-44 and 66-67), so by default delivery is immediate.
  `Observer` carries both arguments explicitly.
- After `executeHandler(of:)`, the name's entry stays in `delayedHandlers` with an empty list
  (`handlers = []`, NotifyBus.swift line 25). A flushed name keeps its key.
- In deferred mode every delivery appends one thunk to the name's buffer. Nothing is ever dropped or evicted.
- The queue of a deferred handler is chosen inside the registered closure, each time a notification is
  delivered (lines 52 and 76). So `OperationQueue.current` is the queue current at delivery.

## Model

| member | source | states |
|---|---|---|
| `Bus.NotifyHandler.constructor` | Sources/NotifyBus/NotifyBus.swift:13-15 | a new buffer holds exactly the one thunk it was given |
| `Bus.NotifyHandler.AddHandler` | Sources/NotifyBus/NotifyBus.swift:17-19 | `addHanlder` appends: new contents are the old contents followed by the new thunk |
| `Bus.NotifyHandler.Execute` | Sources/NotifyBus/NotifyBus.swift:21-26 | the trace grows by running exactly the stored thunks in stored order; the buffer is empty afterwards; no other trace changes |
| `BusSpec.RunAll` | Sources/NotifyBus/NotifyBus.swift:22-24 | running a list produces one `Ran` event per thunk, position by position, so each thunk runs exactly once and in order |
| `BusSpec.RunAllSnoc` | Sources/NotifyBus/NotifyBus.swift:22-24 | running one more thunk extends the trace by exactly that thunk (the step of the `for` loop) |
| `BusSpec.AppendAtSpec` | Sources/NotifyBus/NotifyBus.swift:89-104 | appending under a key creates `[v]` for a new key; otherwise the list grows by one, keeps its earlier elements in order and ends with `v`; every other key keeps its list |
| `Bus.NotifyBus.constructor` | Sources/NotifyBus/NotifyBus.swift:31-32 | a new bus has no tokens and no buffers |
| `Bus.NotifyBus.AddDelayedHandler` | Sources/NotifyBus/NotifyBus.swift:89-96 | buffers become `AppendAt(old, name, thunk)`; an existing `NotifyHandler` object is updated in place; a missing one is created fresh; no two names share a buffer object |
| `Bus.NotifyBus.AddToken` | Sources/NotifyBus/NotifyBus.swift:98-104 | token lists become `AppendAt(old, center, token)`; buffers are untouched |
| `Bus.NotifyBus.ExecuteHandler` | Sources/NotifyBus/NotifyBus.swift:106-110 | runs exactly `ListAt(old, name)` (the stored list, or none) in order; the buffers become `Flushed(old, name)`; an unknown name runs nothing and changes nothing |
| `BusSpec.FlushSpec` | Sources/NotifyBus/NotifyBus.swift:106-110 | a flush runs nothing for an absent name and otherwise runs that name's stored list; the key stays, emptied; other names are untouched; a second flush runs nothing and changes nothing |
| `Bus.NotifyBus.Deliver` | Sources/NotifyBus/NotifyBus.swift:49-60 | with `runAtOnce`, the handler is invoked once now and no buffer changes; otherwise nothing is invoked and exactly one thunk (resolved queue, handler, payload) is appended under the object's name; the same closure body is at lines 73-84 |
| `BusSpec.DeferredThunk` | Sources/NotifyBus/NotifyBus.swift:52-57 | the deferred thunk hands the observer's own handler, applied to this delivery's payload, to the supplied queue, else the current queue, else the new queue; the same closure is built at lines 76-81 |
| `BusSpec.ResolveQueue` | Sources/NotifyBus/NotifyBus.swift:52 | the queue chosen is the supplied queue if there is one, else the current queue if there is one, else the new queue |
| `BusSpec.PayloadFor` | Sources/NotifyBus/NotifyBus.swift:50-79 | a basic observer's handler gets the notify object; an informed observer's handler gets `getObject` of the delivered notification (basic at lines 50 and 55, informed at lines 74 and 79) |
| `Bus.NotifyBus.Observe` | Sources/NotifyBus/NotifyBus.swift:42-63 | registers one observer with the object's center (for its name and queue) and stores the issued token with `AppendAt`; nothing is invoked or removed |
| `Bus.Host.AddObserver` | Sources/NotifyBus/NotifyBus.swift:46-48 | the center records the registration and issues a new token |
| `Bus.Host.Invoke` | Sources/NotifyBus/NotifyBus.swift:50 | records exactly one direct call of the consumer's handler with its payload (also line 74) and changes nothing else |
| `Bus.Host.Run` | Sources/NotifyBus/NotifyBus.swift:23 | records exactly one run of a buffered thunk, that is, its `addOperation` onto its queue (lines 54 and 78), and changes nothing else |
| `Bus.Host.RemoveObserver` | Sources/NotifyBus/NotifyBus.swift:37 | records exactly one removal of `(center, token)` |
| `Bus.NotifyBus.Deinit` | Sources/NotifyBus/NotifyBus.swift:34-40 | visits each center exactly once, in some order; the removal trace grows by the concatenation, over that order, of each center's token list |
| `Bus.NotifyBus.RemoveTokens` | Sources/NotifyBus/NotifyBus.swift:36-38 | the inner loop removes each of one center's tokens from that center, once each, in list order |
| `BusSpec.CenterRemovals` | Sources/NotifyBus/NotifyBus.swift:36-38 | one center's removals are one `(center, token)` per stored token, in list order |
| `BusSpec.CenterRemovalsSnoc` | Sources/NotifyBus/NotifyBus.swift:36-38 | removing one more token extends the trace by exactly that removal (the step of the inner loop) |
| `BusSpec.Removals` | Sources/NotifyBus/NotifyBus.swift:35-39 | the outer walk's trace only removes, from a visited center, a token stored under that center |
| `BusSpec.RemovalsSnoc` | Sources/NotifyBus/NotifyBus.swift:35-39 | visiting one more center appends exactly that center's removals (the step of the outer loop) |
| `BusSpec.CenterRemovalsCount` | Sources/NotifyBus/NotifyBus.swift:36-38 | within one center's removals, `(d, t)` occurs as often as `t` is stored if `d` is that center, otherwise never |
| `BusSpec.RemovalsCount` | Sources/NotifyBus/NotifyBus.swift:35-39 | over distinct visited centers, `(c, t)` is removed as often as `t` is stored under `c` if `c` was visited, otherwise never |
| `BusSpec.TeardownRemovesEachStoredToken` | Sources/NotifyBus/NotifyBus.swift:34-40 | in any visiting order of all centers, each stored token is removed from its own center exactly as often as it is stored there, and nothing else is removed |
| `Scenarios.DeferredObserveThenFlush` | Tests/NotifyBusTests/NotifyBusTests.swift:30-41 | deferred observe, one delivery, then a flush runs the handler's thunk exactly once; a second flush runs nothing more |
| `Scenarios.ImmediateObserveThenPost` | Sources/NotifyBus/NotifyBus.swift:49-50 | immediate observe plus one delivery invokes the handler exactly once and buffers nothing; a later flush runs nothing |
| `Scenarios.ObserveTwiceThenTeardown` | Sources/NotifyBus/NotifyBus.swift:34-40 | with the closure capturing the bus weakly, two observes (on one center or two) leave the bus releasable, and teardown removes both issued tokens once each, each from its own center |
| `Scenarios.ObserveAllThenTeardown` | Sources/NotifyBus/NotifyBus.swift:34-63 | with the closure capturing the bus weakly, after any number of observes the bus is releasable, and teardown removes exactly the tokens issued for the registrations, each exactly once and from the center it was registered on |
| `Scenarios.TeardownUndoesRegistrations` | Sources/NotifyBus/NotifyBus.swift:34-40 | when each center's stored tokens are the ones issued for it and the issued tokens are distinct, every visiting order removes each registration's token exactly once and nothing else |
| `BusSpec.TokensOnSnoc` | Sources/NotifyBus/NotifyBus.swift:62 | one more registration adds its token at the end of its own center's issued tokens and nowhere else, as `addToken` does for the stored list |
| `BusSpec.RegistrationRemovals` | Sources/NotifyBus/NotifyBus.swift:37 | the removal that undoes each registration, position by position |
| `BusSpec.TokensOnCount` | Sources/NotifyBus/NotifyBus.swift:98-104 | a token occurs among a center's issued tokens as often as the matching removal occurs among the undoing removals |
| `BusSpec.Retainers` | Sources/NotifyBus/NotifyBus.swift:46-62 | the references that keep a released bus alive are at most one per registration and none under a weak capture |
| `BusSpec.StrongCaptureBlocksDeinit` | Sources/NotifyBus/NotifyBus.swift:46-62 | as written, any registration whose token is still in place keeps the bus alive, so `deinit` cannot run |
| `BusSpec.WeakCaptureAllowsDeinit` | Sources/NotifyBus/NotifyBus.swift:46-62 | with a weak capture, no registration keeps the bus alive |
| `Scenarios.ObserveThenReleaseAsWritten` | Sources/NotifyBus/NotifyBus.swift:42-63 | as written, after one `observe` the released bus is still held, `deinit` does not run and no token is removed |

## Left out

- The real `NotificationCenter` (`addObserver`, `post`, `removeObserver`) and `OperationQueue.addOperation` are Foundation calls.
  They are modelled as opaque identifiers and trace events in `Host`.
  Posting is modelled by calling `Deliver` directly, and a center's fan-out to its observers is not modelled.
- What happens after a thunk runs is not modelled. Running a thunk records `Ran(thunk)`: the handler handed to the thunk's queue.
  The later execution of that operation on the queue is asynchronous.
  When `addObserver` is given a `queue:` argument, the closure runs on that queue; this is not modelled either.
  That argument is only recorded in the registration.
- Thread safety of the two dictionaries: the source has no synchronisation, and the model is sequential.
- `OperationQueue.current` and the queue `OperationQueue()` creates are parameters of `Deliver` (`current`, `newQueue`).
- `Sources/NotifyBus/NotifyObject.swift` is not part of this model:
  - its protocols become the `NotifyObject` and `Observer` values;
  - `getObject(notification:)` and `userInfo` appear only as the `Extracted` payload, because their dynamically typed contents are the consumer's code.
- The order in which `deinit` walks the `notifyCenters` dictionary is unspecified in Swift.
  `Deinit` returns the order it took as a ghost value, and the properties hold for every order.
  The release of the bus's memory after `deinit` is not modelled.
- Bus.NotifyBus.Deinit: modelled as an explicit call. Reference-counted lifetime is modelled only by `BusSpec.Retainers`,
  which counts the registered closures that keep a released bus alive.
  The model does not decide when `deinit` runs: callers decide when to call `Deinit`.
- Consumer handlers are modelled as having no effect on the bus: no re-entrant `post`, `observe` or `executeHandler` from inside a handler.
  In Swift a `runAtOnce` handler runs synchronously (lines 50 and 74) and could change `delayedHandlers` before the delivery returns.
  `Deliver`'s promise that immediate delivery leaves the buffers unchanged rests on this.
- `name` and `notifyCenter` of a notify object are protocol getters in Swift (NotifyObject.swift lines 12-13), read separately at
  NotifyBus.swift lines 46, 59, 62, 69, 83 and 86. The model stores them as fields of `NotifyObject`, so every read returns the same value.
- Retention policies (only first, only last, first n, last n) are not modelled, because the source has no code for them.
- The test's timing (`DispatchQueue.main.asyncAfter`, `XCTestExpectation`) is left out.
  `Scenarios.DeferredObserveThenFlush` keeps only the order of the steps.

## Findings

| source | as written | input that shows it | evidently intended | confidence | as-written member | corrected member |
|---|---|---|---|---|---|---|
| Sources/NotifyBus/NotifyBus.swift:46-62 | the closure passed to `addObserver` refers to `self` (lines 59 and 83), so it holds the bus strongly; the center keeps the closure until `removeObserver`, and the bus keeps the center as a key of `notifyCenters` (line 31), so bus, center and closure form a cycle | one `observe` call, then the owner releases the bus: a reference remains, `deinit` (lines 34-40) never runs and the token is never removed | the closure captures `[weak self]`, so releasing the bus runs `deinit`, which removes every token | plausible, not executed | `Scenarios.ObserveThenReleaseAsWritten` (with `BusSpec.StrongCaptureBlocksDeinit`) | `Scenarios.ObserveAllThenTeardown` and `Scenarios.ObserveTwiceThenTeardown` (with `BusSpec.WeakCaptureAllowsDeinit`) |
