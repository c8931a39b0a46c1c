/**
 When pending items leave a window. Time passes explicitly: it never passes the deadline of an
 armed timer, whose callback is run at that deadline, nor goes further than `bound` past the
 beginning of a flush in progress: every Execute takes at most `bound`.
 */
module WindowTiming {
  import opened Wrappers
  import opened BatchWindows
  import opened WindowRuns

  /** `maxIgnored`: the max timer of the present pending items fired during a flush and was ignored. */
  datatype Timed = Timed(history: History, now: int, flushStart: int, maxIgnored: bool)

  datatype TimedEvent =
    | Advance(dt: nat)
    | AddNow(item: BatchItem)
    | IdleExpires
    | MaxExpires
    | StaleCallback
    | CloseNow
    | ExecuteReturns

  function Due(timer: Option<Timer>): Option<int> {
    if timer.Some? && timer.value.armed then Some(timer.value.deadline) else None
  }

  predicate NotPast(timer: Option<Timer>, t: int) {
    Due(timer).Some? ==> t <= Due(timer).value
  }

  predicate Enabled(s: Timed, e: TimedEvent, d: Durations, bound: nat) {
    var w := s.history.window;
    match e
    case Advance(dt) =>
      && NotPast(w.idleTimer, s.now + dt)
      && NotPast(w.maxTimer, s.now + dt)
      && (w.flushInProgress ==> s.now + dt <= s.flushStart + bound)
    case IdleExpires => Due(w.idleTimer).Some? && s.now >= Due(w.idleTimer).value
    case MaxExpires => Due(w.maxTimer).Some? && s.now >= Due(w.maxTimer).value
    case _ => true
  }

  function Fired(timer: Option<Timer>): Option<Timer> {
    if timer.Some? then Some(timer.value.(armed := false)) else None
  }

  /** Bookkeeping shared by all events that may flush. */
  function After(s: Timed, h: History, maxIgnored: bool): Timed {
    if |h.window.running| > |s.history.window.running| then
      s.(history := h, flushStart := s.now, maxIgnored := false)
    else
      s.(history := h, maxIgnored := maxIgnored)
  }

  function TimedStep(s: Timed, e: TimedEvent, d: Durations): Timed {
    var h := s.history;
    match e
    case Advance(dt) => s.(now := s.now + dt)
    case AddNow(item) => s.(history := Step(h, Adds(item, s.now), d))
    case IdleExpires =>
      After(s, Step(h.(window := h.window.(idleTimer := Fired(h.window.idleTimer))), TimerFires, d), s.maxIgnored)
    case MaxExpires =>
      After(s, Step(h.(window := h.window.(maxTimer := Fired(h.window.maxTimer))), TimerFires, d),
            s.maxIgnored || h.window.flushInProgress)
    case StaleCallback => After(s, Step(h, TimerFires, d), s.maxIgnored)
    case CloseNow => After(s, Step(h, Closes, d), s.maxIgnored)
    case ExecuteReturns => s.(history := Step(h, GoroutineEnds(0), d))
  }

  const TIMED_START := Timed(START, 0, 0, false)

  function TimedRun(s: Timed, events: seq<TimedEvent>, d: Durations): Timed
    decreases |events|
  {
    if events == [] then s else TimedRun(TimedStep(s, events[0], d), events[1..], d)
  }

  predicate ValidRun(s: Timed, events: seq<TimedEvent>, d: Durations, bound: nat)
    decreases |events|
  {
    events == [] ||
    (Enabled(s, events[0], d, bound) && ValidRun(TimedStep(s, events[0], d), events[1..], d, bound))
  }

  /** The instant by which the pending items are due: maxDuration after the Add that opened the window. */
  function MaxDue(s: Timed, d: Durations): int
    requires s.history.window.items != []
  {
    s.history.window.items[0].addedAt + d.max
  }

  /** The instant at which they are due unless another item arrives: idleDuration after the last Add. */
  function IdleDue(s: Timed, d: Durations): int
    requires s.history.window.items != []
  {
    s.history.window.items[|s.history.window.items| - 1].addedAt + d.idle
  }

  /** During a flush all pending items, and so their timers, are younger than the flush. */
  ghost predicate FlushOnTime(s: Timed, d: Durations, bound: nat)
    requires Conserved(s.history)
  {
    var w := s.history.window;
    w.flushInProgress ==>
      && s.flushStart <= s.now <= s.flushStart + bound
      && (w.items != [] ==>
            && s.flushStart <= w.items[0].addedAt
            && s.flushStart + d.idle <= w.idleTimer.value.deadline)
  }

  /** A timer is set and armed, or it fired in vain, which takes a flush at least as long as it. */
  ghost predicate TimersOnTime(s: Timed, d: Durations, bound: nat)
    requires Conserved(s.history)
  {
    var w := s.history.window;
    w.items != [] ==>
      && (forall i :: 0 <= i < |w.items| ==> w.items[0].addedAt <= w.items[i].addedAt <= s.now)
      && w.idleTimer.value.deadline == IdleDue(s, d)
      && (w.idleTimer.value.armed ==> s.now <= IdleDue(s, d))
      && w.maxTimer.value.deadline == MaxDue(s, d)
      && (w.maxTimer.value.armed ==> s.now <= MaxDue(s, d))
      && (w.maxTimer.value.armed <==> !s.maxIgnored)
      && (s.maxIgnored ==> s.now >= MaxDue(s, d))
      && (!w.idleTimer.value.armed ==> d.idle <= bound)
  }

  ghost predicate OnTime(s: Timed, d: Durations, bound: nat) {
    && Conserved(s.history) && FlushOnTime(s, d, bound) && TimersOnTime(s, d, bound)
    && (s.maxIgnored ==> s.history.window.items != [] && d.max <= bound)
  }

  /** A timer callback, or Close, which flushes under the same condition. */
  lemma FlushStaysOnTime(s: Timed, h: History, d: Durations, bound: nat)
    requires OnTime(s.(history := h), d, bound)
    requires h.window.running == s.history.window.running
    ensures OnTime(After(s, Step(h, TimerFires, d), s.maxIgnored), d, bound)
  {
    StepConserves(h, TimerFires, d);
  }

  lemma AddStaysOnTime(s: Timed, item: BatchItem, d: Durations, bound: nat)
    requires OnTime(s, d, bound)
    ensures OnTime(TimedStep(s, AddNow(item), d), d, bound)
  {
    StepConserves(s.history, Adds(item, s.now), d);
  }

  lemma IgnoredExpiryStaysOnTime(s: Timed, d: Durations, bound: nat)
    requires OnTime(s, d, bound) && Enabled(s, MaxExpires, d, bound)
    requires s.history.window.flushInProgress
    ensures OnTime(TimedStep(s, MaxExpires, d), d, bound)
  {
  }

  lemma IgnoredIdleStaysOnTime(s: Timed, d: Durations, bound: nat)
    requires OnTime(s, d, bound) && Enabled(s, IdleExpires, d, bound)
    requires s.history.window.flushInProgress
    ensures OnTime(TimedStep(s, IdleExpires, d), d, bound)
  {
  }

  lemma ExpiryStaysOnTime(s: Timed, e: TimedEvent, d: Durations, bound: nat)
    requires e.IdleExpires? || e.MaxExpires?
    requires OnTime(s, d, bound) && Enabled(s, e, d, bound)
    ensures OnTime(TimedStep(s, e, d), d, bound)
  {
    if s.history.window.flushInProgress {
      if e.IdleExpires? {
        IgnoredIdleStaysOnTime(s, d, bound);
      } else {
        IgnoredExpiryStaysOnTime(s, d, bound);
      }
    } else {
      FlushConserves(s.history);
      FlushForgetsTimers(s.history.window);
    }
  }

  lemma FlushForgetsTimers(w: Window)
    requires w.items != [] && !w.flushInProgress
    ensures TimerCallback(w.(maxTimer := Fired(w.maxTimer))) == TimerCallback(w)
    ensures TimerCallback(w.(idleTimer := Fired(w.idleTimer))) == TimerCallback(w)
  {
  }

  lemma CloseStaysOnTime(s: Timed, d: Durations, bound: nat)
    requires OnTime(s, d, bound)
    ensures OnTime(TimedStep(s, CloseNow, d), d, bound)
  {
    if !s.history.window.closed {
      FlushStaysOnTime(s, s.history.(window := s.history.window.(closed := true)), d, bound);
    }
  }

  lemma ReturnStaysOnTime(s: Timed, d: Durations, bound: nat)
    requires OnTime(s, d, bound)
    ensures OnTime(TimedStep(s, ExecuteReturns, d), d, bound)
  {
    StepConserves(s.history, GoroutineEnds(0), d);
  }

  lemma StepStaysOnTime(s: Timed, e: TimedEvent, d: Durations, bound: nat)
    requires OnTime(s, d, bound) && Enabled(s, e, d, bound)
    ensures OnTime(TimedStep(s, e, d), d, bound)
  {
    match e
    case Advance(dt) =>
    case AddNow(item) => AddStaysOnTime(s, item, d, bound);
    case IdleExpires => ExpiryStaysOnTime(s, e, d, bound);
    case MaxExpires => ExpiryStaysOnTime(s, e, d, bound);
    case StaleCallback => FlushStaysOnTime(s, s.history, d, bound);
    case CloseNow => CloseStaysOnTime(s, d, bound);
    case ExecuteReturns => ReturnStaysOnTime(s, d, bound);
  }

  lemma {:induction false} RunStaysOnTime(s: Timed, events: seq<TimedEvent>, d: Durations, bound: nat)
    requires OnTime(s, d, bound) && ValidRun(s, events, d, bound)
    ensures OnTime(TimedRun(s, events, d), d, bound)
    decreases |events|
  {
    if events != [] {
      StepStaysOnTime(s, events[0], d, bound);
      RunStaysOnTime(TimedStep(s, events[0], d), events[1..], d, bound);
    }
  }

  // ----- runs cut in two

  lemma {:induction false} RunsJoin(s: Timed, e: seq<TimedEvent>, f: seq<TimedEvent>, d: Durations, bound: nat)
    ensures TimedRun(s, e + f, d) == TimedRun(TimedRun(s, e, d), f, d)
    ensures ValidRun(s, e + f, d, bound) <==> ValidRun(s, e, d, bound) && ValidRun(TimedRun(s, e, d), f, d, bound)
    decreases |e|
  {
    if e == [] {
      assert e + f == f;
    } else {
      RunsJoin(TimedStep(s, e[0], d), e[1..], f, d, bound);
      assert (e + f)[1..] == e[1..] + f;
    }
  }

  // ----- what an ignored max timer does, read off the events

  /** The number of batches started so far. */
  function Started(s: Timed): nat {
    |s.history.finished| + |s.history.window.running|
  }

  /** At event k the max timer of the items pending at the end expired during a flush. */
  ghost predicate IgnoredAt(events: seq<TimedEvent>, d: Durations, k: nat) {
    && k < |events| && events[k].MaxExpires?
    && var s := TimedRun(TIMED_START, events[..k], d);
       && s.history.window.flushInProgress && s.history.window.items != []
       && Started(s) == Started(TimedRun(TIMED_START, events, d))
  }

  lemma StepNeverUnstarts(s: Timed, e: TimedEvent, d: Durations)
    ensures Started(TimedStep(s, e, d)) >= Started(s)
  {
  }

  lemma {:induction false} StartedGrows(events: seq<TimedEvent>, d: Durations, k: nat)
    requires k <= |events|
    ensures Started(TimedRun(TIMED_START, events[..k], d)) <= Started(TimedRun(TIMED_START, events, d))
    decreases |events|
  {
    hide TimedRun, ValidRun, TimedStep, Started, Enabled;
    if k == |events| {
      assert events[..k] == events;
    } else {
      var n := |events| - 1;
      LastEvent(events, d, 0);
      StepNeverUnstarts(TimedRun(TIMED_START, events[..n], d), events[n], d);
      assert events[..n][..k] == events[..k];
      StartedGrows(events[..n], d, k);
    }
  }

  lemma LastEvent(events: seq<TimedEvent>, d: Durations, bound: nat)
    requires events != []
    ensures var n := |events| - 1;
            var s := TimedRun(TIMED_START, events[..n], d);
            && TimedRun(TIMED_START, events, d) == TimedStep(s, events[n], d)
            && (ValidRun(TIMED_START, events, d, bound) <==>
                ValidRun(TIMED_START, events[..n], d, bound) && Enabled(s, events[n], d, bound))
  {
    var n := |events| - 1;
    var s := TimedRun(TIMED_START, events[..n], d);
    assert events == events[..n] + [events[n]];
    RunsJoin(TIMED_START, events[..n], [events[n]], d, bound);
    assert TimedRun(s, [events[n]], d) == TimedRun(TimedStep(s, events[n], d), [], d);
    assert ValidRun(s, [events[n]], d, bound) <==> Enabled(s, events[n], d, bound);
  }

  lemma IgnoredBefore(events: seq<TimedEvent>, d: Durations, k: nat)
    requires k < |events| - 1
    ensures var before := events[..|events| - 1];
            IgnoredAt(events, d, k) <==>
              IgnoredAt(before, d, k) &&
              Started(TimedRun(TIMED_START, events, d)) == Started(TimedRun(TIMED_START, before, d))
  {
    hide TimedRun, TimedStep, Started;
    var n := |events| - 1;
    assert events[..n][..k] == events[..k];
    StartedGrows(events[..n], d, k);
    StartedGrows(events, d, n);
  }

  lemma {:induction false} IgnoredIsAnEvent(events: seq<TimedEvent>, d: Durations, bound: nat)
    requires ValidRun(TIMED_START, events, d, bound)
    ensures TimedRun(TIMED_START, events, d).maxIgnored <==> exists k: nat :: IgnoredAt(events, d, k)
    decreases |events|
  {
    if events != [] {
      var n := |events| - 1;
      var s := TimedRun(TIMED_START, events[..n], d);
      LastEvent(events, d, bound);
      RunStaysOnTime(TIMED_START, events[..n], d, bound);
      hide ValidRun, TimedRun, TimedStep, OnTime, Enabled, Started, IgnoredAt;
      IgnoredIsAnEvent(events[..n], d, bound);
      StartedUnlessFlushing(s, events[n], d, bound);
      if Started(TimedStep(s, events[n], d)) == Started(s) {
        StillIgnored(events, d);
      } else {
        NoLongerIgnored(events, d);
      }
    }
  }

  lemma NoLongerIgnored(events: seq<TimedEvent>, d: Durations)
    requires events != []
    requires var s := TimedRun(TIMED_START, events[..|events| - 1], d);
             Started(s) != Started(TimedRun(TIMED_START, events, d))
    ensures !exists k: nat :: IgnoredAt(events, d, k)
  {
    hide TimedRun, TimedStep, Started;
    forall k: nat ensures !IgnoredAt(events, d, k) {
      if k < |events| - 1 {
        IgnoredBefore(events, d, k);
      }
    }
  }

  lemma StillIgnored(events: seq<TimedEvent>, d: Durations)
    requires events != []
    requires Started(TimedRun(TIMED_START, events[..|events| - 1], d)) == Started(TimedRun(TIMED_START, events, d))
    requires var w := TimedRun(TIMED_START, events[..|events| - 1], d).history.window;
             events[|events| - 1].MaxExpires? ==> w.items != []
    ensures var n := |events| - 1;
            var w := TimedRun(TIMED_START, events[..n], d).history.window;
            (exists k: nat :: IgnoredAt(events, d, k)) <==>
              (exists k: nat :: IgnoredAt(events[..n], d, k)) || (events[n].MaxExpires? && w.flushInProgress)
  {
    hide TimedRun, TimedStep, Started;
    var n := |events| - 1;
    assert IgnoredAt(events, d, n) <==>
           events[n].MaxExpires? && TimedRun(TIMED_START, events[..n], d).history.window.flushInProgress;
    forall k: nat
      ensures IgnoredAt(events, d, k) <==> if k == n then IgnoredAt(events, d, n) else IgnoredAt(events[..n], d, k)
    {
      if k < n {
        IgnoredBefore(events, d, k);
      }
    }
  }

  lemma StartedUnlessFlushing(s: Timed, e: TimedEvent, d: Durations, bound: nat)
    requires OnTime(s, d, bound) && Enabled(s, e, d, bound)
    ensures var t := TimedStep(s, e, d);
            && (e.MaxExpires? ==> s.history.window.items != [])
            && (Started(t) != Started(s) ==> !t.maxIgnored)
            && (Started(t) == Started(s) ==>
                  (t.maxIgnored <==> s.maxIgnored || (e.MaxExpires? && s.history.window.flushInProgress)))
  {
  }

  /**
   Pending items have lost their max timer exactly when it expired during a flush and no batch
   has been started since; only then can they be overdue, and then they are due.
   */
  lemma MaxTimerLostIffIgnored(events: seq<TimedEvent>, d: Durations, bound: nat)
    requires ValidRun(TIMED_START, events, d, bound)
    ensures var s := TimedRun(TIMED_START, events, d);
            var pending := s.history.window.items != [];
            && ((exists k: nat :: IgnoredAt(events, d, k)) <==> pending && Due(s.history.window.maxTimer).None?)
            && (pending && s.now > MaxDue(s, d) ==> exists k: nat :: IgnoredAt(events, d, k))
            && ((exists k: nat :: IgnoredAt(events, d, k)) ==> s.now >= MaxDue(s, d))
  {
    RunStaysOnTime(TIMED_START, events, d, bound);
    IgnoredIsAnEvent(events, d, bound);
  }

  // ----- two runs that are late

  /** Items are pending and no armed timer will flush them. */
  predicate Unattended(s: Timed) {
    var w := s.history.window;
    w.items != [] && Due(w.idleTimer).None? && Due(w.maxTimer).None?
  }

  predicate Stranded(s: Timed) {
    s.history.window.closed && Unattended(s)
  }

  /** Nothing but a callback left over from an earlier timer ever flushes a stranded window. */
  lemma {:induction false} StrandedForEver(s: Timed, events: seq<TimedEvent>, d: Durations, bound: nat)
    requires Stranded(s) && ValidRun(s, events, d, bound)
    requires forall i :: 0 <= i < |events| ==> !events[i].StaleCallback?
    ensures Stranded(TimedRun(s, events, d))
    ensures TimedRun(s, events, d).history.window.items == s.history.window.items
    decreases |events|
  {
    if events != [] {
      StrandedForEver(TimedStep(s, events[0], d), events[1..], d, bound);
    }
  }

  function Shorter(d: Durations): nat {
    if d.idle <= d.max then d.idle else d.max
  }

  function Longer(d: Durations): nat {
    if d.idle <= d.max then d.max else d.idle
  }

  function ShorterExpires(d: Durations): TimedEvent {
    if d.idle <= d.max then IdleExpires else MaxExpires
  }

  function LongerExpires(d: Durations): TimedEvent {
    if d.idle <= d.max then MaxExpires else IdleExpires
  }

  const FIRST := BatchItem(0, "", 0)
  const SECOND := BatchItem(1, "", 0)

  /**
   The second item arrives and Close is called when the first batch has just been captured; both
   timers of the second item expire before that batch is done.
   */
  function Strand(d: Durations): seq<TimedEvent> {
    [AddNow(FIRST), Advance(Shorter(d)), ShorterExpires(d), AddNow(SECOND), CloseNow,
     Advance(Shorter(d)), ShorterExpires(d), Advance(Longer(d) - Shorter(d)), LongerExpires(d), ExecuteReturns]
  }

  /** The state after i events of Strand. */
  function Stage(d: Durations, i: nat): Timed {
    var lo, hi := Shorter(d), Longer(d);
    var a, b := FIRST, SECOND.(addedAt := lo);
    var loArmed, hiArmed := i <= 6, i <= 8;
    var idleFirst := d.idle <= d.max;
    var idle := Timer(lo + d.idle, if idleFirst then loArmed else hiArmed);
    var max := Timer(lo + d.max, if idleFirst then hiArmed else loArmed);
    if i == 0 then TIMED_START
    else if i <= 2 then
      Timed(History(Window([a], Some(Timer(d.idle, true)), Some(Timer(d.max, true)), true, false, false, []), [a], []),
            if i == 1 then 0 else lo, 0, false)
    else if i == 3 then
      Timed(History(Window([], None, None, false, false, true, [[a]]), [a], []), lo, lo, false)
    else if i <= 9 then
      Timed(History(Window([b], Some(idle), Some(max), true, i > 4, true, [[a]]), [a, b], []),
            if i <= 5 then lo else if i <= 7 then lo + lo else lo + hi, lo, !max.armed)
    else
      Timed(History(Window([b], Some(idle), Some(max), true, true, false, []), [a, b], [[a]]), lo + hi, lo, !max.armed)
  }

  ghost predicate StageLeadsOn(d: Durations, bound: nat, i: nat)
    requires i < 10
  {
    && Enabled(Stage(d, i), Strand(d)[i], d, bound)
    && TimedStep(Stage(d, i), Strand(d)[i], d) == Stage(d, i + 1)
  }

  lemma EarlyStages(d: Durations, bound: nat, i: nat)
    requires i < 3
    ensures StageLeadsOn(d, bound, i)
  {
  }

  lemma MiddleStages(d: Durations, bound: nat, i: nat)
    requires 3 <= i < 5
    ensures StageLeadsOn(d, bound, i)
  {
  }

  lemma LateStages(d: Durations, bound: nat, i: nat)
    requires 5 <= i < 7 && Shorter(d) <= bound
    ensures StageLeadsOn(d, bound, i)
  {
  }

  lemma LastStages(d: Durations, bound: nat, i: nat)
    requires 7 <= i < 10 && Longer(d) <= bound
    ensures StageLeadsOn(d, bound, i)
  {
  }

  lemma {:induction false} RunStages(d: Durations, bound: nat, i: nat, n: nat)
    requires i <= n <= 10 && Shorter(d) <= bound && (n > 7 ==> Longer(d) <= bound)
    ensures ValidRun(Stage(d, i), Strand(d)[i..n], d, bound)
    ensures TimedRun(Stage(d, i), Strand(d)[i..n], d) == Stage(d, n)
    decreases n - i
  {
    if i < n {
      if i < 3 {
        EarlyStages(d, bound, i);
      } else if i < 5 {
        MiddleStages(d, bound, i);
      } else if i < 7 {
        LateStages(d, bound, i);
      } else {
        LastStages(d, bound, i);
      }
      RunStages(d, bound, i + 1, n);
      assert Strand(d)[i..n][1..] == Strand(d)[i + 1..n];
    }
  }

  lemma StrandStrands(d: Durations, bound: nat)
    requires Longer(d) <= bound
    ensures ValidRun(TIMED_START, Strand(d), d, bound)
    ensures Stranded(TimedRun(TIMED_START, Strand(d), d))
  {
    RunStages(d, bound, 0, 10);
    assert Strand(d)[0..10] == Strand(d);
  }

  /** The second item is overdue one instant after both its max timer and the first batch are gone. */
  function Overdue(d: Durations): seq<TimedEvent> {
    if d.idle <= d.max then Strand(d) + [Advance(1)] else Strand(d)[0..7] + [ExecuteReturns, Advance(1)]
  }

  lemma OverdueIsLate(d: Durations, bound: nat)
    requires d.max <= bound
    ensures ValidRun(TIMED_START, Overdue(d), d, bound)
    ensures !Punctual(TimedRun(TIMED_START, Overdue(d), d), d)
  {
    if d.idle <= d.max {
      StrandStrands(d, bound);
      RunStages(d, bound, 0, 10);
      assert Strand(d)[0..10] == Strand(d);
      RunsJoin(TIMED_START, Strand(d), [Advance(1)], d, bound);
      OneMore(Stage(d, 10), Advance(1), d, bound);
    } else {
      RunStages(d, bound, 0, 7);
      RunsJoin(TIMED_START, Strand(d)[0..7], [ExecuteReturns, Advance(1)], d, bound);
      var s := Stage(d, 7);
      assert [ExecuteReturns, Advance(1)][1..] == [Advance(1)];
      OneMore(TimedStep(s, ExecuteReturns, d), Advance(1), d, bound);
    }
  }

  lemma OneMore(s: Timed, e: TimedEvent, d: Durations, bound: nat)
    ensures TimedRun(s, [e], d) == TimedStep(s, e, d)
    ensures ValidRun(s, [e], d, bound) <==> Enabled(s, e, d, bound)
  {
    assert TimedRun(s, [e], d) == TimedRun(TimedStep(s, e, d), [], d);
  }

  // ----- the theorems: exactly how long Execute may take

  /** No pending item is older than maxDuration counted from the Add that opened its window. */
  predicate Punctual(s: Timed, d: Durations) {
    s.history.window.items != [] ==> s.now <= MaxDue(s, d)
  }

  /**
   All items leave the pending list within maxDuration on every run, Close during a flush
   included, exactly when every Execute takes less than maxDuration.
   */
  lemma PunctualIffExecuteBelowMax(d: Durations, bound: nat)
    ensures (forall events :: ValidRun(TIMED_START, events, d, bound) ==> Punctual(TimedRun(TIMED_START, events, d), d))
            <==> bound < d.max
  {
    if bound < d.max {
      forall events | ValidRun(TIMED_START, events, d, bound)
        ensures Punctual(TimedRun(TIMED_START, events, d), d)
      {
        RunStaysOnTime(TIMED_START, events, d, bound);
      }
    } else {
      OverdueIsLate(d, bound);
    }
  }

  /**
   No run leaves pending items without an armed timer exactly when every Execute takes less than
   the longer of the two durations; an open window would have to wait for its next Add.
   */
  lemma NothingUnattendedIffExecuteBelowBoth(d: Durations, bound: nat)
    ensures (forall events :: ValidRun(TIMED_START, events, d, bound) ==> !Unattended(TimedRun(TIMED_START, events, d)))
            <==> bound < Longer(d)
  {
    hide Strand, TimedRun;
    if bound < Longer(d) {
      forall events | ValidRun(TIMED_START, events, d, bound)
        ensures !Unattended(TimedRun(TIMED_START, events, d))
      {
        RunStaysOnTime(TIMED_START, events, d, bound);
      }
    } else {
      StrandStrands(d, bound);
      var events := Strand(d);
      assert ValidRun(TIMED_START, events, d, bound) && Unattended(TimedRun(TIMED_START, events, d));
    }
  }

  /** The same for closed windows, which no Add will ever help. */
  lemma NothingStrandedIffExecuteBelowBoth(d: Durations, bound: nat)
    ensures (forall events :: ValidRun(TIMED_START, events, d, bound) ==> !Stranded(TimedRun(TIMED_START, events, d)))
            <==> bound < Longer(d)
  {
    hide Strand, TimedRun, Unattended;
    if bound < Longer(d) {
      NothingUnattendedIffExecuteBelowBoth(d, bound);
    } else {
      StrandStrands(d, bound);
      var events := Strand(d);
      assert ValidRun(TIMED_START, events, d, bound) && Stranded(TimedRun(TIMED_START, events, d));
    }
  }

  /** With that bound the oldest pending item, and so every one, is at most maxDuration old. */
  lemma BoundedExecuteMeetsMaxDuration(events: seq<TimedEvent>, d: Durations, bound: nat, k: nat)
    requires bound < d.max && ValidRun(TIMED_START, events, d, bound)
    requires k < |TimedRun(TIMED_START, events, d).history.window.items|
    ensures var s := TimedRun(TIMED_START, events, d);
            s.now <= MaxDue(s, d) <= s.history.window.items[k].addedAt + d.max
  {
    RunStaysOnTime(TIMED_START, events, d, bound);
  }

  // ----- when batches start

  /**
   A batch started by the idle timer starts exactly idleDuration after the last item the window
   accepted, and holds that item; one started by the max timer, exactly maxDuration after its first.
   */
  lemma TimersStartBatchesOnTime(events: seq<TimedEvent>, e: TimedEvent, d: Durations, bound: nat)
    requires ValidRun(TIMED_START, events, d, bound)
    requires var s := TimedRun(TIMED_START, events, d);
             && Enabled(s, e, d, bound) && s.history.window.running == []
             && TimedStep(s, e, d).history.window.running != []
    ensures var t := TimedStep(TimedRun(TIMED_START, events, d), e, d);
            var batch, accepted := t.history.window.running[0], t.history.accepted;
            && batch != [] && accepted != [] && batch[|batch| - 1] == accepted[|accepted| - 1]
            && t.flushStart == t.now
            && (e.IdleExpires? ==> t.now == accepted[|accepted| - 1].addedAt + d.idle)
            && (e.MaxExpires? ==> t.now == batch[0].addedAt + d.max)
            && (e.IdleExpires? || e.MaxExpires? || e.StaleCallback? || e.CloseNow?)
  {
    RunStaysOnTime(TIMED_START, events, d, bound);
    hide TimedRun, ValidRun, TimedStep, Enabled, OnTime;
    StartsOnTime(TimedRun(TIMED_START, events, d), e, d, bound);
  }

  lemma StartsOnTime(s: Timed, e: TimedEvent, d: Durations, bound: nat)
    requires OnTime(s, d, bound) && Enabled(s, e, d, bound)
    requires s.history.window.running == [] && TimedStep(s, e, d).history.window.running != []
    ensures var t := TimedStep(s, e, d);
            var batch, accepted := t.history.window.running[0], t.history.accepted;
            && batch != [] && accepted != [] && batch[|batch| - 1] == accepted[|accepted| - 1]
            && t.flushStart == t.now
            && (e.IdleExpires? ==> t.now == accepted[|accepted| - 1].addedAt + d.idle)
            && (e.MaxExpires? ==> t.now == batch[0].addedAt + d.max)
            && (e.IdleExpires? || e.MaxExpires? || e.StaleCallback? || e.CloseNow?)
  {
    hide FlushOnTime;
    assert s.history.accepted == Flatten(s.history.finished) + s.history.window.items;
  }

  /**
   An Add to a window that is not closed leaves an armed idle timer, idleDuration ahead, even if
   the timer of the items before it had expired during a flush; their max timer it leaves alone.
   */
  lemma AddRearmsIdleTimer(events: seq<TimedEvent>, item: BatchItem, d: Durations, bound: nat)
    requires ValidRun(TIMED_START, events, d, bound)
    requires !TimedRun(TIMED_START, events, d).history.window.closed
    ensures var s := TimedRun(TIMED_START, events, d);
            var w, after := s.history.window, TimedStep(s, AddNow(item), d).history.window;
            && after.idleTimer == Some(Timer(s.now + d.idle, true))
            && after.maxTimer == (if w.items == [] then Some(Timer(s.now + d.max, true)) else w.maxTimer)
            && after.items == w.items + [item.(addedAt := s.now)]
  {
    RunStaysOnTime(TIMED_START, events, d, bound);
    hide TimedRun, ValidRun, TimedStep, FlushOnTime, TimersOnTime, Conserved;
    Rearmed(TimedRun(TIMED_START, events, d), item, d);
  }

  lemma Rearmed(s: Timed, item: BatchItem, d: Durations)
    requires Conserved(s.history) && !s.history.window.closed
    ensures var w, after := s.history.window, TimedStep(s, AddNow(item), d).history.window;
            && after.idleTimer == Some(Timer(s.now + d.idle, true))
            && after.maxTimer == (if w.items == [] then Some(Timer(s.now + d.max, true)) else w.maxTimer)
            && after.items == w.items + [item.(addedAt := s.now)]
  {
  }

  // ----- the whole wait

  /** With Execute below maxDuration, a flush in progress began within maxDuration of all its items. */
  ghost predicate Timely(s: Timed, d: Durations, bound: nat) {
    && OnTime(s, d, bound)
    && (bound < d.max && s.history.window.running != [] ==>
          forall j :: 0 <= j < |s.history.window.running[0]| ==>
            s.flushStart <= s.history.window.running[0][j].addedAt + d.max)
  }

  lemma {:induction false} StepStaysTimely(s: Timed, e: TimedEvent, d: Durations, bound: nat)
    requires Timely(s, d, bound) && Enabled(s, e, d, bound)
    ensures Timely(TimedStep(s, e, d), d, bound)
  {
    StepStaysOnTime(s, e, d, bound);
  }

  lemma {:induction false} RunStaysTimely(s: Timed, events: seq<TimedEvent>, d: Durations, bound: nat)
    requires Timely(s, d, bound) && ValidRun(s, events, d, bound)
    ensures Timely(TimedRun(s, events, d), d, bound)
    decreases |events|
  {
    if events != [] {
      hide Timely, Enabled, TimedStep;
      StepStaysTimely(s, events[0], d, bound);
      RunStaysTimely(TimedStep(s, events[0], d), events[1..], d, bound);
    }
  }

  /**
   With every Execute within a bound below maxDuration, an item accepted more than maxDuration
   plus the bound ago is in a batch that has ended, so that its result has been sent: by
   EveryWaiterGetsItsOwnResult the waiters of ended batches have theirs.
   */
  lemma {:induction false} EveryItemIsDoneInTime(events: seq<TimedEvent>, d: Durations, bound: nat, k: nat)
    requires bound < d.max && ValidRun(TIMED_START, events, d, bound)
    requires k < |TimedRun(TIMED_START, events, d).history.accepted|
    ensures var s := TimedRun(TIMED_START, events, d);
            s.now > s.history.accepted[k].addedAt + d.max + bound ==>
              k < |Flatten(s.history.finished)| && Flatten(s.history.finished)[k] == s.history.accepted[k]
  {
    RunStaysTimely(TIMED_START, events, d, bound);
    hide TimedRun, ValidRun;
    DoneInTime(TimedRun(TIMED_START, events, d), d, bound, k);
  }

  lemma {:induction false} DoneInTime(s: Timed, d: Durations, bound: nat, k: nat)
    requires Timely(s, d, bound) && bound < d.max && k < |s.history.accepted|
    ensures s.now > s.history.accepted[k].addedAt + d.max + bound ==>
              k < |Flatten(s.history.finished)| && Flatten(s.history.finished)[k] == s.history.accepted[k]
  {
    var h := s.history;
    var done, w := Flatten(h.finished), h.window;
    if w.running == [] {
      assert Flatten(w.running) == [];
      assert h.accepted == done + w.items;
    } else {
      assert w.running == [w.running[0]];
      FlattenOne(w.running[0]);
      assert h.accepted == done + w.running[0] + w.items;
    }
  }
}
