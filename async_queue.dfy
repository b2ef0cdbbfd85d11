/** The `AsyncQueue` object. Its fields are the fields of the JavaScript
    class together with what the class's methods do to the promises and the
    callback it holds: the promises `push` returned (`outcomes`), every promise
    stored in `_promise` (`signals`), the record the processing loop awaits
    (`inFlight`) and the number of callback invocations (`notifications`).
    Every method updates them in place and is proved to reach the state that
    the corresponding function of `QueueSpec` describes. */
module AsyncQueueImpl {
  import opened Promises
  import opened QueueSpec

  class AsyncQueue<V, E> {
    var queue: seq<Task>
    var timer: Option<nat>
    /** Every promise stored in `_promise` so far; each is `true` once resolved. */
    var signals: seq<bool>
    /** `_resolve` holds the resolver of the last promise in `signals`. */
    var resolver: bool
    var processing: bool
    var breakFlag: bool
    var timeout: nat
    var callback: Option<FunctionId>
    /** The record `_process` is suspended on while awaiting its action. */
    var inFlight: Option<Task>
    /** The promises `push` returned, indexed by ticket. */
    var outcomes: seq<Settlement<V, E>>
    /** How many times the callback has been invoked. */
    var notifications: nat
    ghost var submitted: seq<ActionId>
    ghost var departed: nat
    ghost var started: seq<nat>

    ghost function State(): QState<V, E>
      reads this
    {
      QState(queue, timer, signals, resolver, processing, breakFlag, timeout, callback,
             inFlight, outcomes, notifications, submitted, departed, started)
    }

    ghost predicate Valid()
      reads this
    {
      Inv(State())
    }

    /** The field initialisers and the constructor body except the callback
        assignment, which `Create` performs afterwards (see `Fresh`). */
    constructor (timeout: nat)
      ensures Valid() && State() == Fresh(timeout)
    {
      queue := [];
      timer := None;
      signals := [true];
      resolver := false;
      processing := false;
      breakFlag := false;
      this.timeout := timeout;
      callback := None;
      inFlight := None;
      outcomes := [];
      notifications := 0;
      submitted := [];
      departed := 0;
      started := [];
    }

    /** `new AsyncQueue(callback, timeout)`: the constructor goes through the
        callback setter, so it throws on a callback that is neither a function
        nor null; an omitted or `undefined` callback defaults to null first. */
    static method Create(callback: CallbackArg, timeout: nat) returns (r: Result<AsyncQueue<V, E>, ConfigError>)
      ensures r.Failure? <==> callback.NotCallable?
      ensures r.Success? ==> fresh(r.value) && r.value.Valid() && QueueSpec.Create(callback, timeout) == Success(r.value.State())
    {
      var q := new AsyncQueue<V, E>(timeout);
      var outcome := q.SetCallback(if callback.Undefined? then Null else callback);
      if outcome.Failure? {
        return Failure(outcome.error);
      }
      return Success(q);
    }

    /** The `callback` setter. */
    method SetCallback(value: CallbackArg) returns (r: Result<(), ConfigError>)
      requires Valid()
      modifies this
      ensures Valid()
      ensures r.Failure? <==> value.NotCallable? || value.Undefined?
      ensures r.Failure? ==> State() == old(State())
      ensures r.Success? ==> QueueSpec.SetCallback(old(State()), value) == Success(State())
    {
      match value
      case Function(id) =>
        callback := Some(id);
        return Success(());
      case Null =>
        callback := None;
        return Success(());
      case Undefined =>
        return Failure(CallbackNotCallable);
      case NotCallable =>
        return Failure(CallbackNotCallable);
    }

    /** The `timeout` setter, without its coercion. */
    method SetTimeout(value: nat)
      requires Valid()
      modifies this
      ensures Valid() && State() == QueueSpec.SetTimeout(old(State()), value)
    {
      timeout := value;
    }

    /** The `length` getter: the records pushed and neither started nor
        cancelled yet. */
    function Length(): (n: nat)
      reads this
      requires Valid()
      ensures n == |submitted| - departed
    {
      |queue|
    }

    /** The `processing` getter: true exactly while an action is awaited or the
        re-entry timer is pending. */
    function IsProcessing(): (b: bool)
      reads this
      requires Valid()
      ensures b <==> inFlight.Some? || timer.Some?
    {
      processing
    }

    /** `push(action)`: the record's ticket names the returned promise. */
    method Push(action: ActionId) returns (ticket: nat)
      requires Valid()
      modifies this
      ensures Valid() && State() == QueueSpec.Push(old(State()), action)
      ensures ticket == old(|outcomes|) && ticket < |outcomes|
    {
      ticket := |outcomes|;
      outcomes := outcomes + [Pending];
      submitted := submitted + [action];
      queue := queue + [Task(ticket, action)];
      assert State() == Enqueue(old(State()), action);
      Process(false);
      PushPreservesInv(old(State()), action);
    }

    /** `breakProcessing()`. */
    method BreakProcessing()
      requires Valid()
      modifies this
      ensures Valid() && State() == QueueSpec.BreakProcessing(old(State()))
    {
      breakFlag := true;
    }

    /** `_finishProcessing()`. */
    method FinishProcessing()
      requires WellFormed(State())
      modifies this
      ensures State() == QueueSpec.FinishProcessing(old(State()))
    {
      if resolver {
        signals := signals[|signals| - 1 := true];
      } else {
        signals := signals + [true];
      }
      resolver := false;
      processing := false;
      breakFlag := false;
      if callback.Some? {
        notifications := notifications + 1;
      }
    }

    /** The loop of the break branch: `reject()` on every queued record. */
    method RejectQueued()
      requires WellFormed(State())
      modifies this`outcomes
      ensures outcomes == RejectAll(old(outcomes), queue)
    {
      var i := 0;
      while i < |queue|
        invariant 0 <= i <= |queue|
        invariant outcomes == RejectAll(old(outcomes), queue[..i])
      {
        assert queue[..i + 1][..i] == queue[..i];
        var t := queue[i].ticket;
        outcomes := outcomes[t := Settle(outcomes[t], Rejected(None))];
        i := i + 1;
      }
      assert queue[..i] == queue;
    }

    /** The break branch of `_process`: the loop, `_queue = []`, then
        `_finishProcessing()`. */
    method DrainQueue()
      requires WellFormed(State())
      modifies this
      ensures State() == QueueSpec.FinishProcessing(old(State()).(
                outcomes := RejectAll(old(outcomes), old(queue)), queue := [],
                departed := old(departed) + old(|queue|)))
    {
      RejectQueued();
      departed := departed + |queue|;
      queue := [];
      FinishProcessing();
    }

    /** `_process(forced)` up to its first suspension point, or, for an
        action that throws synchronously, up to the throw; the code after it
        is `ActionSettles`. */
    method Process(forced: bool)
      requires WellFormed(State())
      modifies this
      ensures State() == QueueSpec.Process(old(State()), forced)
    {
      if !forced && processing {
        return;
      } else if breakFlag {
        DrainQueue();
        return;
      }
      if queue == [] {
        FinishProcessing();
        return;
      }
      var query := queue[0];
      queue := queue[1..];
      departed := departed + 1;
      started := started + [query.ticket];
      processing := true;
      signals := signals + [false];
      resolver := true;
      inFlight := Some(query);
    }

    /** The code after `await query.action()`, once the action has settled. */
    method ActionSettles(outcome: ActionOutcome<V, E>)
      requires Valid() && inFlight.Some?
      modifies this
      ensures Valid() && State() == QueueSpec.ActionSettles(old(State()), outcome)
    {
      ActionSettlesPreservesInv(State(), outcome);
      var query := inFlight.value;
      var result: Option<V> := None;
      if outcome.Threw? {
        outcomes := outcomes[query.ticket := Settle(outcomes[query.ticket], Rejected(Some(outcome.error)))];
      } else {
        result := Some(outcome.value);
      }
      outcomes := outcomes[query.ticket := Settle(outcomes[query.ticket], Fulfilled(result))];
      inFlight := None;
      timer := Some(timeout);
    }

    /** The `setTimeout` callback. */
    method TimerFires()
      requires Valid() && timer.Some?
      modifies this
      ensures Valid() && State() == QueueSpec.TimerFires(old(State()))
    {
      timer := None;
      Process(true);
      TimerFiresPreservesInv(old(State()));
    }
  }
}
