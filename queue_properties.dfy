/** What the queue promises its callers, proved about the state machine of
    `QueueSpec`: one lemma per branch of `_process`, the effect of a settling
    action, failure isolation, break semantics, idle notification, and the
    FIFO and mutual-exclusion guarantees over every sequence of events. */
module QueueProperties {
  import opened Promises
  import opened QueueSpec

  /** `push` while the queue is processing only appends: one new pending
      record at the tail, every earlier record in place. */
  lemma PushWhileProcessingAppends<V, E>(s: QState<V, E>, action: ActionId)
    requires Inv(s) && s.processing
    ensures Push(s, action).queue == s.queue + [Task(|s.outcomes|, action)]
    ensures Push(s, action).outcomes == s.outcomes + [Pending]
    ensures Push(s, action) == s.(queue := s.queue + [Task(|s.outcomes|, action)],
                                  outcomes := s.outcomes + [Pending], submitted := s.submitted + [action])
  {
  }

  /** `push` on an idle queue without a pending break starts the new record's
      action at once and installs a fresh unresolved idle promise. */
  lemma PushWhenIdleStarts<V, E>(s: QState<V, E>, action: ActionId)
    requires Inv(s) && !s.processing && !s.breakFlag
    ensures var r := Push(s, action);
      && r.queue == [] && r.processing && r.inFlight == Some(Task(|s.outcomes|, action))
      && r.started == s.started + [|s.outcomes|] && r.outcomes == s.outcomes + [Pending]
      && r.signals == s.signals + [false] && r.resolver
      && r.notifications == s.notifications
  {
  }

  /** The break branch: every queued record is rejected with no reason and
      none of them runs; nothing else that was settled changes; the queue ends
      empty and idle with its idle promise resolved, the break flag cleared and
      the callback fired once if set. */
  lemma BreakDrainsQueue<V, E>(s: QState<V, E>, forced: bool)
    requires ProcessReady(s, forced) && (forced || !s.processing) && s.breakFlag
    ensures var r := Process(s, forced);
      && r.queue == [] && !r.processing && !r.breakFlag && !r.resolver && IdleResolved(r)
      && |r.outcomes| == |s.outcomes|
      && (forall i :: 0 <= i < |s.queue| ==> r.outcomes[s.queue[i].ticket] == Rejected(None))
      && (forall t :: 0 <= t < s.departed ==> r.outcomes[t] == s.outcomes[t])
      && r.started == s.started && r.inFlight.None? && r.timer.None?
      && r.notifications == (if s.callback.Some? then s.notifications + 1 else s.notifications)
  {
    var r := Process(s, forced);
    forall i | 0 <= i < |s.queue|
      ensures r.outcomes[s.queue[i].ticket] == Rejected(None)
    {
      assert Queued(s.queue, s.queue[i].ticket);
    }
    forall t | 0 <= t < s.departed
      ensures r.outcomes[t] == s.outcomes[t]
    {
      assert !Queued(s.queue, t);
    }
  }

  /** A break raised while idle waits for the next `_process` call, which the
      next `push` makes: the record just pushed is itself rejected with no
      reason, never runs, and the queue returns to idle with the flag cleared. */
  lemma BreakWhileIdleCancelsNextPush<V, E>(s: QState<V, E>, action: ActionId)
    requires Inv(s) && !s.processing
    ensures BreakProcessing(s).breakFlag && !BreakProcessing(s).processing
    ensures var r := Push(BreakProcessing(s), action);
      && r.outcomes == s.outcomes + [Rejected(None)]
      && r.started == s.started && r.queue == []
      && !r.processing && !r.breakFlag && IdleResolved(r)
      && r.notifications == (if s.callback.Some? then s.notifications + 1 else s.notifications)
  {
    var b := BreakProcessing(s);
    var q := Enqueue(b, action);
    EnqueueKeepsCore(b, action);
    BreakDrainsQueue(q, false);
    var r := Process(q, false);
    assert q.queue == [Task(|s.outcomes|, action)];
    assert r.outcomes[|s.outcomes|] == Rejected(None);
    assert r.outcomes == s.outcomes + [Rejected(None)];
  }

  /** Without a break, on a non-empty queue: exactly the head record leaves,
      the rest keep their order, its action is invoked, `_processing` is set
      and a fresh unresolved idle promise is installed. */
  lemma ProcessDequeuesHead<V, E>(s: QState<V, E>, forced: bool)
    requires ProcessReady(s, forced) && (forced || !s.processing) && !s.breakFlag && s.queue != []
    ensures var r := Process(s, forced);
      && r.queue == s.queue[1..] && r.inFlight == Some(s.queue[0])
      && r.started == s.started + [s.queue[0].ticket] && r.outcomes == s.outcomes
      && r.processing && r.resolver && r.signals == s.signals + [false]
      && r.notifications == s.notifications && !r.breakFlag
  {
  }

  /** Without a break, on an empty queue: processing finishes. The idle
      promise that the held resolver belongs to is resolved, or a fresh
      resolved one replaces it when no resolver is held; the resolver is
      dropped and both flags are cleared; no promise of a record changes. */
  lemma ProcessFinishesWhenEmpty<V, E>(s: QState<V, E>, forced: bool)
    requires ProcessReady(s, forced) && (forced || !s.processing) && !s.breakFlag && s.queue == []
    ensures var r := Process(s, forced);
      && !r.processing && !r.breakFlag && !r.resolver && IdleResolved(r)
      && (s.resolver ==> r.signals == s.signals[|s.signals| - 1 := true])
      && (!s.resolver ==> r.signals == s.signals + [true])
      && r.outcomes == s.outcomes && r.started == s.started
      && r.notifications == (if s.callback.Some? then s.notifications + 1 else s.notifications)
  {
  }

  /** A settling action settles exactly its own record: rejected with the
      thrown error (the `resolve(null)` that follows has no effect) or
      resolved with the returned value. Exactly one forced re-entry is then
      scheduled, with the current timeout. */
  lemma ActionSettlesItsRecord<V, E>(s: QState<V, E>, outcome: ActionOutcome<V, E>)
    requires Inv(s) && s.inFlight.Some?
    ensures var r := ActionSettles(s, outcome); var t := s.inFlight.value.ticket;
      && r.outcomes[t] == (match outcome
                           case Returned(v) => Fulfilled(Some(v))
                           case Threw(e) => Rejected(Some(e)))
      && |r.outcomes| == |s.outcomes|
      && (forall u :: 0 <= u < |s.outcomes| && u != t ==> r.outcomes[u] == s.outcomes[u])
      && r.timer == Some(s.timeout) && r.inFlight.None? && r.processing
      && r.queue == s.queue && r.started == s.started
  {
  }

  /** One failure does not stop the queue: after a failing action settles and
      its timer fires, the failed record stays rejected with its error and,
      with no break pending, the next record in FIFO order starts. */
  lemma FailureDoesNotStopQueue<V, E>(s: QState<V, E>, error: E)
    requires Inv(s) && s.inFlight.Some? && !s.breakFlag && s.queue != []
    ensures var r := TimerFires(ActionSettles(s, Threw(error)));
      && r.outcomes[s.inFlight.value.ticket] == Rejected(Some(error))
      && r.inFlight == Some(s.queue[0]) && r.queue == s.queue[1..]
      && r.started == s.started + [s.queue[0].ticket]
  {
    var a := ActionSettles(s, Threw(error));
    ActionSettlesPreservesInv(s, Threw(error));
    ProcessDequeuesHead(a.(timer := None), true);
  }

  /** A break requested while an action runs does not interrupt it: the
      action settles normally, and when its timer fires every record still
      queued is rejected with no reason and the queue goes idle. */
  lemma BreakSparesRunningAction<V, E>(s: QState<V, E>, outcome: ActionOutcome<V, E>)
    requires Inv(s) && s.inFlight.Some?
    ensures var r := TimerFires(ActionSettles(BreakProcessing(s), outcome));
      && r.outcomes[s.inFlight.value.ticket] == (match outcome
                                                 case Returned(v) => Fulfilled(Some(v))
                                                 case Threw(e) => Rejected(Some(e)))
      && (forall i :: 0 <= i < |s.queue| ==> r.outcomes[s.queue[i].ticket] == Rejected(None))
      && r.queue == [] && !r.processing && !r.breakFlag && IdleResolved(r)
  {
    var b := BreakProcessing(s);
    var a := ActionSettles(b, outcome);
    ActionSettlesPreservesInv(b, outcome);
    ActionSettlesItsRecord(b, outcome);
    BreakDrainsQueue(a.(timer := None), true);
  }

  /** The callback is invoked at most once per event, only by an event that
      leaves the queue idle and empty with its idle promise resolved, and
      always when an event ends a period of processing. */
  lemma NotificationMeansIdle<V, E>(s: QState<V, E>, e: Event<V, E>)
    requires Inv(s) && Enabled(s, e)
    ensures var r := Step(s, e);
      && r.notifications <= s.notifications + 1
      && (r.notifications == s.notifications + 1 ==> !r.processing && r.queue == [] && IdleResolved(r) && s.callback.Some?)
      && (s.processing && !r.processing && s.callback.Some? ==> r.notifications == s.notifications + 1)
  {
    var r := Step(s, e);
    match e
    case Submit(a) =>
      EnqueueKeepsCore(s, a);
    case TimerDone =>
    case _ =>
  }

  /** An event changes no idle promise except the current one: promises that
      `_promise` no longer holds are frozen. */
  lemma StepFreezesSupersededSignals<V, E>(s: QState<V, E>, e: Event<V, E>)
    requires Inv(s) && Enabled(s, e)
    ensures |Step(s, e).signals| >= |s.signals|
    ensures forall i :: 0 <= i < |s.signals| - 1 ==> Step(s, e).signals[i] == s.signals[i]
  {
    match e
    case Submit(a) =>
      EnqueueKeepsCore(s, a);
    case _ =>
  }

  /** Over any sequence of events, an idle promise that has been replaced in
      `_promise` keeps the state it had when it was replaced. */
  lemma {:induction false} SupersededSignalNeverChanges<V, E>(s: QState<V, E>, es: seq<Event<V, E>>, i: nat)
    requires Inv(s) && Run(s, es).Some? && i < |s.signals| - 1
    ensures i < |Run(s, es).value.signals| && Run(s, es).value.signals[i] == s.signals[i]
    decreases |es|
  {
    if es != [] {
      StepFreezesSupersededSignals(s, es[0]);
      SupersededSignalNeverChanges(Step(s, es[0]), es[1..], i);
    }
  }

  /** Two records pushed back to back: when the second one starts, the idle
      promise installed for the first is replaced while still unresolved; by
      `SupersededSignalNeverChanges` nothing resolves it afterwards, so a
      caller awaiting the `promise` it read while the first action ran
      waits forever. */
  lemma ReplacedIdlePromiseStaysPending<V, E>(callback: CallbackArg, timeout: nat, value: V)
    requires !callback.NotCallable?
    ensures var s0 := Create<V, E>(callback, timeout).value;
      var s := TimerFires(ActionSettles(Push(Push(s0, 7), 8), Returned(value)));
      && s.signals == [true, false, false] && s.inFlight == Some(Task(1, 8))
  {
  }

  /** FIFO and mutual exclusion for every run of a queue built by the
      constructor: the queue holds exactly the records not yet started or
      cancelled, in push order; actions start in push order; at most one
      started action is unsettled; a record that left the queue without
      running was rejected with no reason; ticket `n` carries the action of
      the `n`-th `Submit` event of the run. */
  lemma RunIsFifo<V, E>(callback: CallbackArg, timeout: nat, es: seq<Event<V, E>>)
    requires !callback.NotCallable?
    requires Run(Create<V, E>(callback, timeout).value, es).Some?
    ensures var r := Run(Create<V, E>(callback, timeout).value, es).value;
      && (forall i :: 0 <= i < |r.queue| ==> r.queue[i] == Task(r.departed + i, r.submitted[r.departed + i]))
      && r.departed + |r.queue| == |r.outcomes|
      && (forall i, j :: 0 <= i < j < |r.started| ==> r.started[i] < r.started[j])
      && (forall t, u :: 0 <= t < u < r.departed ==> !r.outcomes[t].Pending? || !r.outcomes[u].Pending?)
      && (forall t :: 0 <= t < r.departed && t !in r.started ==> r.outcomes[t] == Rejected(None))
      && r.submitted == SubmittedActions(es)
  {
    var r := Run(Create<V, E>(callback, timeout).value, es).value;
    assert Inv(r);
  }
}
