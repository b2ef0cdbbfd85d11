# AsyncQueue processing state machine, in Dafny

This project models `AsyncQueue` from `src/main.js`: a sequential task
runner. Callers `push` asynchronous actions; the queue runs them one at a
time, in push order, with a delay of `timeout` milliseconds between one
action settling and the next one starting. `breakProcessing` cancels every
record still waiting. An optional callback is invoked each time processing
finishes, and the promise held in `_promise` (the `promise` getter) when
processing finishes is resolved then.

The model has four parts.

- `Promises` (`promises.dfy`): `Option`, `Result`, and `Settlement`, the
  observable state of a JavaScript promise. `Settle` captures the one promise
  rule the queue relies on: the first `resolve`/`reject` wins. This matters
  because a failing action has `reject(e)` called and then `resolve(null)`.
- `QueueSpec` (`queue_spec.dfy`): the state machine on values. `QState`
  holds every field of the object (`_queue`, `_timer`, `_processing`,
  `_break`, `_timeout`, `_callback`, `_promise` and `_resolve`). It also
  holds the promises the queue handed out. Beside them it keeps proof
  bookkeeping: the action pushed with each ticket, how many records have
  left the queue, and the order in which actions started. There is one
  function per operation of the source. The two suspension points of
  `_process` become separate events: `await query.action()` ends in
  `ActionSettles`, and the `setTimeout` callback is `TimerFires`. An action
  that throws synchronously does not suspend in the source; see "## Left
  out". `Inv` is
  the invariant between events, and each operation is proved to preserve
  it. `Step` and `Run` apply any sequence of events.
- `AsyncQueueImpl` (`async_queue.dfy`): class `AsyncQueue`, whose fields the
  methods update in place, as the JavaScript object's are. Every method is
  proved to reach the state that the matching `QueueSpec` function gives for
  the state before the call. Every public method, and the two suspension
  points, also keep `Valid()`. The internal steps `FinishProcessing`,
  `RejectQueued`, `DrainQueue` and `Process` require only well-formedness
  and pass through states where `Valid()` does not hold; their callers
  restore it with the `QueueSpec` preservation lemmas.
- `QueueProperties` (`queue_properties.dfy`): what callers rely on, stated
  once per behaviour and proved over `QueueSpec`:
  - the guard, break draining, the dequeue, and the finish on an empty queue;
  - settlement of a record and failure isolation;
  - break semantics while idle and while an action runs;
  - when the callback fires;
  - FIFO order and mutual exclusion over every run.

The idle promise is modelled as the list of every promise ever stored in
`_promise`; the last one is current. Every dequeue stores a fresh unresolved
promise in `_promise`. On the first dequeue from an idle queue the promise it
replaces is already resolved. On a dequeue by the timer's forced re-entry of
`_process`, the replaced promise is still unresolved, and nothing resolves it
later (`SupersededSignalNeverChanges`). So a caller that read `promise` while
the first of two queued actions ran waits forever
(`ReplacedIdlePromiseStaysPending`).

A callback argument that is omitted or `undefined` is modelled as the value
`Undefined`. The constructor's default turns it into `null`, so construction
succeeds, while the setter on its own rejects it.

## Model

| member | source | states |
|---|---|---|
| `Promises.Settle` | src/main.js:212-215 | A settled promise ignores every later `resolve`/`reject`; a pending one takes the first settlement it is given |
| `QueueSpec.Fresh` | src/main.js:136-141 | A new queue is empty and not processing, its break flag is clear, its `_promise` resolved, and it satisfies the invariant |
| `QueueSpec.SetCallback` | src/main.js:80-84 | The callback setter fails exactly for a value that is neither a function nor null, `undefined` included; otherwise it stores that function, or none for null, and changes nothing else |
| `QueueSpec.Create` | src/main.js:136-141 | Construction fails exactly when the callback argument is invalid, because it goes through the setter. An omitted or `undefined` callback defaults to null, so construction then succeeds with no callback. Otherwise the queue is empty, idle, has the given timeout and callback, and satisfies the invariant |
| `QueueSpec.SetTimeout` | src/main.js:127-129 | The timeout setter changes only the timeout |
| `QueueSpec.BreakProcessing` | src/main.js:159-161 | `breakProcessing` raises the break flag and changes nothing else |
| `QueueSpec.Enqueue` | src/main.js:151 | Pushing a record appends exactly one record, with the next ticket, at the tail, and one new pending promise; earlier records are unchanged |
| `QueueSpec.FinishProcessing` | src/main.js:168-178 | Finishing clears `_resolve`, `_processing` and `_break` and leaves `_promise` resolved. It resolves the held idle promise, or installs a fresh resolved one when no resolver is held. The callback count rises by one exactly when a callback is set. Nothing else changes |
| `QueueSpec.RejectAll` | src/main.js:190-191 | The rejection loop rejects with no reason each promise whose ticket is in the queue, unless already settled, and leaves every other promise alone |
| `QueueSpec.Process` | src/main.js:187-188 | The re-entrancy guard: an unforced `_process` while processing returns the state unchanged. No branch changes which actions were pushed. The other branches are stated by `BreakDrainsQueue`, `ProcessDequeuesHead` and `ProcessFinishesWhenEmpty` |
| `QueueSpec.Push` | src/main.js:149-150 | Each `push` creates exactly one new promise. Its effect on the queue is stated by `PushWhileProcessingAppends`, `PushWhenIdleStarts` and `BreakWhileIdleCancelsNextPush` |
| `QueueSpec.ActionSettles` | src/main.js:207-220 | After the awaited action settles, nothing is in flight and exactly one re-entry timer is pending, with the current timeout |
| `QueueSpec.TimerFires` | src/main.js:217-220 | The timer callback's step keeps every record's promise and the idle promise defined. What the forced re-entry then does is stated by `ProcessDequeuesHead` and `ProcessFinishesWhenEmpty` with `forced` true, since `TimerFires(s)` is `Process(s.(timer := None), true)`, and in context by `FailureDoesNotStopQueue` and `BreakSparesRunningAction` |
| `QueueSpec.EnqueueKeepsCore` | src/main.js:151 | Appending a record keeps the FIFO and settlement invariant and does not touch the processing flags |
| `QueueSpec.FinishKeepsCore` | src/main.js:168-178 | Finishing keeps the FIFO and settlement invariant |
| `QueueSpec.ProcessBreakPreservesInv` | src/main.js:189-196 | The break branch leaves a state that satisfies the invariant, with every queued record departed |
| `QueueSpec.ProcessDequeuePreservesInv` | src/main.js:198-205 | The dequeue branch leaves a state that satisfies the invariant, with the head record in flight and last in start order |
| `QueueSpec.ProcessPreservesInv` | src/main.js:187-205 | `_process`, entered from `push` or from the timer, always leaves a state that satisfies the invariant |
| `QueueSpec.PushPreservesInv` | src/main.js:149-154 | `push` preserves the invariant |
| `QueueSpec.ActionSettlesPreservesInv` | src/main.js:207-220 | Settling the awaited action preserves the invariant |
| `QueueSpec.TimerFiresPreservesInv` | src/main.js:217-220 | The timer callback preserves the invariant |
| `QueueSpec.Step` | src/main.js:149-220 | Every event that can happen to a queue satisfying the invariant (push, break, action settles, timer fires, assigning callback or timeout) leaves it satisfying the invariant; only a push adds a recorded action, at the end; a rejected callback assignment changes nothing |
| `QueueSpec.Run` | src/main.js:149-220 | Every sequence of possible events keeps the invariant, and the recorded actions grow by the actions of its `Submit` events, in event order |
| `AsyncQueueImpl.AsyncQueue.constructor` | src/main.js:136-141 | The field initialisers at lines 11-66 together with constructor lines 137, 139 and 140 give the fresh queue state `Fresh(timeout)`; the callback assignment at line 138 is `Create`'s |
| `AsyncQueueImpl.AsyncQueue.Create` | src/main.js:136-141 | `new AsyncQueue(callback, timeout)` fails exactly for an invalid callback, and an omitted or `undefined` one defaults to null; otherwise it yields a fresh object whose state is the one `QueueSpec.Create` describes |
| `AsyncQueueImpl.AsyncQueue.SetCallback` | src/main.js:80-84 | The setter raises on an invalid value and leaves the whole state unchanged; otherwise it stores the callback as `QueueSpec.SetCallback` says |
| `AsyncQueueImpl.AsyncQueue.SetTimeout` | src/main.js:127-129 | The timeout setter updates the timeout in place |
| `AsyncQueueImpl.AsyncQueue.Length` | src/main.js:91-93 | `length` counts the records pushed that have neither started nor been cancelled |
| `AsyncQueueImpl.AsyncQueue.IsProcessing` | src/main.js:109-111 | `processing` is true exactly while an action is awaited or the re-entry timer is pending |
| `AsyncQueueImpl.AsyncQueue.Push` | src/main.js:149-154 | `push`, up to the suspension of the action it may start, updates the object in place to the `QueueSpec.Push` state and returns the ticket of the promise it created |
| `AsyncQueueImpl.AsyncQueue.BreakProcessing` | src/main.js:159-161 | `breakProcessing` raises the flag in place |
| `AsyncQueueImpl.AsyncQueue.FinishProcessing` | src/main.js:168-178 | `_finishProcessing` updates the object in place to the `QueueSpec.FinishProcessing` state |
| `AsyncQueueImpl.AsyncQueue.RejectQueued` | src/main.js:190-191 | The `for` loop calls `reject()` on each queued record in order; its loop invariant ties every prefix to `RejectAll` |
| `AsyncQueueImpl.AsyncQueue.DrainQueue` | src/main.js:189-196 | The break branch rejects every queued record, empties `_queue` and finishes processing |
| `AsyncQueueImpl.AsyncQueue.Process` | src/main.js:187-205 | `_process(forced)`, up to its suspension on the action, or up to the throw of an action that throws synchronously, updates the object in place to the `QueueSpec.Process` state |
| `AsyncQueueImpl.AsyncQueue.ActionSettles` | src/main.js:207-220 | The code after the `await` settles the record and schedules the timer, in place |
| `AsyncQueueImpl.AsyncQueue.TimerFires` | src/main.js:217-220 | The timer callback clears `_timer`, calls `_process(true)` and keeps the object valid |
| `QueueProperties.PushWhileProcessingAppends` | src/main.js:149-152 | `push` while processing appends exactly one pending record at the tail. Every earlier record keeps its place. Nothing else changes: no dequeue, no flag change, no callback |
| `QueueProperties.PushWhenIdleStarts` | src/main.js:149-152 | `push` on an idle queue with no break pending starts the new record's action immediately. It sets `_processing` and installs an unresolved idle promise |
| `QueueProperties.BreakDrainsQueue` | src/main.js:189-196 | On break, every queued record is rejected with no reason and never runs. Promises already settled are untouched. The queue ends empty and idle, the break flag is cleared, the idle promise is resolved, and a set callback fires once |
| `QueueProperties.BreakWhileIdleCancelsNextPush` | src/main.js:159-161 | A break raised while idle stays pending. The next `push` handles it: its own record is rejected with no reason without running, and the queue returns to idle with the flag cleared |
| `QueueProperties.ProcessDequeuesHead` | src/main.js:198-205 | With no break and a non-empty queue, exactly the head record leaves and its action starts. The rest keep their order. `_processing` becomes true and a fresh unresolved idle promise is installed |
| `QueueProperties.ProcessFinishesWhenEmpty` | src/main.js:198-202 | With no break and an empty queue, processing finishes. The held idle promise is resolved, or a fresh resolved one replaces it when no resolver is held. Flags and resolver are cleared, and no record's promise changes |
| `QueueProperties.ActionSettlesItsRecord` | src/main.js:207-220 | A failing action leaves its record rejected with the thrown error, and the later `resolve(null)` has no effect. A succeeding one leaves it resolved with the result. No other promise changes, and exactly one re-entry is scheduled |
| `QueueProperties.FailureDoesNotStopQueue` | src/main.js:207-220 | After a failure settles and its timer fires, the failed record stays rejected and the next record in FIFO order starts |
| `QueueProperties.BreakSparesRunningAction` | src/main.js:189-220 | A break requested while an action runs does not interrupt it. The action settles normally. When its timer fires, every record still queued is rejected with no reason and the queue goes idle |
| `QueueProperties.NotificationMeansIdle` | src/main.js:168-178 | Each event invokes the callback at most once. It does so only when it leaves the queue idle and empty with its idle promise resolved, and it always does so when it ends a period of processing |
| `QueueProperties.StepFreezesSupersededSignals` | src/main.js:205 | No event changes an idle promise that `_promise` no longer holds |
| `QueueProperties.SupersededSignalNeverChanges` | src/main.js:205 | Over any sequence of events, a replaced idle promise keeps the state it had when it was replaced |
| `QueueProperties.ReplacedIdlePromiseStaysPending` | src/main.js:198-220 | With two records pushed back to back, starting the second replaces the first one's idle promise while it is still unresolved |
| `QueueProperties.RunIsFifo` | src/main.js:149-220 | In every run of a constructed queue: the queue holds exactly the records not yet departed, in push order; actions start in push order; at most one started action is unsettled; a record that left without running was rejected with no reason; the ticket order is the order of the `push` calls in the run |

## Left out

- Real promises, `await`, `setTimeout` and the `_timer` id. They are explicit events (`ActionSettles`, `TimerFires`), and `timer` holds only the delay requested. Wall-clock guarantees, such as the gap between two actions being at least `timeout`, cannot be stated.
- The bodies of the user's action and callback. These are foreign code. An action's outcome is an input of `ActionSettles`, and a callback invocation only increments `notifications`. If the callback, or the synchronous part of an action, calls `push` or `breakProcessing`, that is the same as the corresponding event right after the step.
- `SetTimeout`: does not model the `Math.round(Number(value))` coercion (src/main.js:128), which is JavaScript numeric coercion on floats. The timeout is a natural number, also in the constructor, which stores its argument without coercion.
- The `promise`, `timeout` and `callback` getters only return a field. The state they return is visible in `QState` and in the class fields.
- `ActionSettles`: an action that throws `undefined` gives `Rejected(Some(undefined))`. In JavaScript that cannot be told apart from a cancelled record's `reject()`.
- `AsyncQueueImpl.AsyncQueue.Process`: an action that throws synchronously (`query.action()` at src/main.js:209 throws before any `await`, as for a pushed non-function) does not suspend in the source. The same call then runs `reject(e)`, `resolve(null)` and `setTimeout` before it returns. The model always ends `Process` with the record in flight and settles it only on a later `ActionDone` event. So the source's behaviour is the model's `Process` followed at once by `ActionSettles` with `Threw(e)`. The model's runs also include other events in between, and a `Returned` outcome for such an action, which the source does not allow. This applies alike to the re-entry from the timer callback (src/main.js:217-220), which then settles the next record and arms the next timer in the same callback.
- `AsyncQueueImpl.AsyncQueue.Push`: for a record whose action throws synchronously and which starts at once, the source's `push` also settles that record and arms the timer before it returns. The ensures describes only the state up to the dequeue, as for `Process` above.
- `AsyncQueueImpl.AsyncQueue.Process`: the break branch's loop and tail are two helper methods, `RejectQueued` and `DrainQueue`, so that each proof stays small. The statements and their order are the source's.
