/** Every run of one batch window: callers, timers, Close and flush goroutines in any order. */
module WindowRuns {
  import opened BatchWindows

  /** Timer callbacks may run in any state: Stop does not recall one that has already fired. */
  datatype Event =
    | Adds(item: BatchItem, at: int)
    | TimerFires
    | Closes
    | GoroutineEnds(i: nat)

  /** A window with the items it accepted and the batches whose goroutine has ended. */
  datatype History = History(window: Window, accepted: seq<BatchItem>, finished: seq<seq<BatchItem>>)

  const START := History(NEW_WINDOW, [], [])

  function Step(h: History, e: Event, d: Durations): History {
    var w := h.window;
    match e
    case Adds(item, at) =>
      History(Add(w, item, at, d), if w.closed then h.accepted else h.accepted + [item.(addedAt := at)], h.finished)
    case TimerFires => h.(window := TimerCallback(w))
    case Closes => h.(window := Close(w))
    case GoroutineEnds(i) =>
      h.(window := Finish(w, i), finished := if i < |w.running| then h.finished + [w.running[i]] else h.finished)
  }

  function Run(h: History, events: seq<Event>, d: Durations): History
    decreases |events|
  {
    if events == [] then h else Run(Step(h, events[0], d), events[1..], d)
  }

  function Flatten(batches: seq<seq<BatchItem>>): seq<BatchItem> {
    if batches == [] then [] else Flatten(batches[..|batches| - 1]) + batches[|batches| - 1]
  }

  /** What holds between any two critical sections of a window. */
  ghost predicate Consistent(w: Window) {
    && |w.running| <= 1
    && (w.flushInProgress <==> |w.running| == 1)
    && (w.started <==> w.items != [])
    && (w.idleTimer.Some? <==> w.items != [])
    && (w.maxTimer.Some? <==> w.items != [])
    && (forall i :: 0 <= i < |w.running| ==> w.running[i] != [])
  }

  ghost predicate Conserved(h: History) {
    && Consistent(h.window)
    && (forall i :: 0 <= i < |h.finished| ==> h.finished[i] != [])
    && h.accepted == Flatten(h.finished) + Flatten(h.window.running) + h.window.items
  }

  lemma FlushConserves(h: History)
    requires Conserved(h)
    ensures Conserved(h.(window := Flush(h.window)))
  {
    var w := h.window;
    if w.items != [] && !w.flushInProgress {
      assert w.running == [];
      assert Flush(w).running == [w.items];
      assert Flush(w).items == [];
      MovingToFlight(Flatten(h.finished), w.items);
    }
  }

  lemma MovingToFlight(done: seq<BatchItem>, items: seq<BatchItem>)
    ensures done + Flatten([]) + items == done + Flatten([items]) + []
  {
    FlattenOne(items);
  }

  lemma FinishConserves(h: History, i: nat, d: Durations)
    requires Conserved(h)
    ensures Conserved(Step(h, GoroutineEnds(i), d))
  {
    var running := h.window.running;
    if i < |running| {
      assert running == [running[0]];
      FlattenOne(running[0]);
      assert running[..i] + running[i + 1..] == [];
      assert (h.finished + [running[i]])[..|h.finished|] == h.finished;
    }
  }

  lemma StepConserves(h: History, e: Event, d: Durations)
    requires Conserved(h)
    ensures Conserved(Step(h, e, d))
  {
    match e
    case Adds(item, at) =>
    case TimerFires =>
      FlushConserves(h);
    case Closes =>
      FlushConserves(h.(window := h.window.(closed := true)));
    case GoroutineEnds(i) =>
      FinishConserves(h, i, d);
  }

  lemma FlattenOne(batch: seq<BatchItem>)
    ensures Flatten([batch]) == batch
  {
    assert [batch][..0] == [];
  }

  /**
   On every run the ended batches, then the batch in flight, then the pending items are the
   accepted items in the order they were accepted; at most one batch is in flight; no batch is
   empty; and "started", "has pending items", "idle timer set" and "max timer set" agree.
   */
  lemma EveryRunConserves(events: seq<Event>, d: Durations)
    ensures Conserved(Run(START, events, d))
  {
    RunConserves(START, events, d);
  }

  lemma {:induction false} RunConserves(h: History, events: seq<Event>, d: Durations)
    requires Conserved(h)
    ensures Conserved(Run(h, events, d))
    decreases |events|
  {
    if events != [] {
      StepConserves(h, events[0], d);
      RunConserves(Step(h, events[0], d), events[1..], d);
    }
  }

  /** With pending items, the idle timer runs from the last of them and the max timer from the first. */
  predicate TimersFollowItems(w: Window, d: Durations) {
    w.items != [] ==>
      && w.idleTimer.Some? && w.idleTimer.value.deadline == w.items[|w.items| - 1].addedAt + d.idle
      && w.maxTimer.Some? && w.maxTimer.value.deadline == w.items[0].addedAt + d.max
  }

  lemma StepKeepsTimers(h: History, e: Event, d: Durations)
    requires Conserved(h) && TimersFollowItems(h.window, d)
    ensures TimersFollowItems(Step(h, e, d).window, d)
  {
  }

  lemma {:induction false} RunKeepsTimers(h: History, events: seq<Event>, d: Durations)
    requires Conserved(h) && TimersFollowItems(h.window, d)
    ensures TimersFollowItems(Run(h, events, d).window, d)
    decreases |events|
  {
    if events != [] {
      StepConserves(h, events[0], d);
      StepKeepsTimers(h, events[0], d);
      RunKeepsTimers(Step(h, events[0], d), events[1..], d);
    }
  }

  /**
   Every Add restarts the idle timer and none restarts the max timer: on every run the idle timer
   is due idleDuration after the last pending item was added, the max timer maxDuration after the
   first was.
   */
  lemma EveryAddRestartsIdleTimer(events: seq<Event>, d: Durations)
    requires Run(START, events, d).window.items != []
    ensures var w := Run(START, events, d).window;
            && w.idleTimer.Some? && w.idleTimer.value.deadline == w.items[|w.items| - 1].addedAt + d.idle
            && w.maxTimer.Some? && w.maxTimer.value.deadline == w.items[0].addedAt + d.max
  {
    RunKeepsTimers(START, events, d);
  }

  /** A batch is exactly the pending items of one moment: flushing never splits or reorders them. */
  lemma FlushTakesAllPending(h: History, e: Event, d: Durations)
    requires Conserved(h)
    requires h.window.running == [] && Step(h, e, d).window.running != []
    ensures (e.TimerFires? || e.Closes?) && h.window.items != []
    ensures Step(h, e, d).window.running == [h.window.items]
    ensures Step(h, e, d).window.items == []
  {
  }

  /** Once a window is closed nothing is accepted any more, on any continuation of the run. */
  lemma {:induction false} ClosedAcceptsNothing(h: History, events: seq<Event>, d: Durations)
    requires h.window.closed
    ensures Run(h, events, d).window.closed
    ensures Run(h, events, d).accepted == h.accepted
    decreases |events|
  {
    if events != [] {
      ClosedAcceptsNothing(Step(h, events[0], d), events[1..], d);
    }
  }
}
