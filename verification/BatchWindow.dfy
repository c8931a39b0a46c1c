/**
 pkg/batcher/window.go, BatchWindow. `Window` is the state of one window together with the
 batches captured by flush goroutines that have not ended yet; the functions are the critical
 sections that run under its mutex. The class below carries the same state in mutable fields.
 */
module BatchWindows {
  import opened Wrappers

  /** `id` names the request and the result channel its caller waits on. */
  datatype BatchItem = BatchItem(id: nat, key: string, addedAt: int)

  /** A started timer; `armed` until the runtime has fired it. */
  datatype Timer = Timer(deadline: int, armed: bool)

  datatype Durations = Durations(idle: nat, max: nat)

  datatype Window = Window(
    items: seq<BatchItem>,
    idleTimer: Option<Timer>,
    maxTimer: Option<Timer>,
    started: bool,
    closed: bool,
    flushInProgress: bool,
    running: seq<seq<BatchItem>>)

  const NEW_WINDOW := Window([], None, None, false, false, false, [])

  function Add(w: Window, item: BatchItem, now: int, d: Durations): Window {
    if w.closed then w
    else
      var added := w.(items := w.items + [item.(addedAt := now)]);
      if !w.started then
        added.(idleTimer := Some(Timer(now + d.idle, true)),
               maxTimer := Some(Timer(now + d.max, true)),
               started := true)
      else if w.idleTimer.Some? then
        added.(idleTimer := Some(Timer(now + d.idle, true)))
      else added
  }

  function Flush(w: Window): Window {
    if w.items == [] || w.flushInProgress then w
    else w.(items := [], idleTimer := None, maxTimer := None, started := false,
            flushInProgress := true, running := w.running + [w.items])
  }

  /** The callback of either timer. */
  function TimerCallback(w: Window): Window {
    if w.flushInProgress then w else Flush(w)
  }

  function Close(w: Window): Window {
    if w.closed then w
    else if w.flushInProgress then w.(closed := true)
    else Flush(w.(closed := true))
  }

  /** The deferred unlock of the goroutine that captured batch number `i`. */
  function Finish(w: Window, i: nat): Window {
    if i < |w.running| then
      w.(running := w.running[..i] + w.running[i + 1..], flushInProgress := false)
    else w
  }

  class BatchWindow {
    const key: string
    const durations: Durations
    var items: seq<BatchItem>
    var idleTimer: Option<Timer>
    var maxTimer: Option<Timer>
    var started: bool
    var closed: bool
    var flushInProgress: bool
    var running: seq<seq<BatchItem>>

    function View(): Window
      reads this
    {
      Window(items, idleTimer, maxTimer, started, closed, flushInProgress, running)
    }

    constructor (key: string, durations: Durations)
      ensures this.key == key && this.durations == durations
      ensures View() == NEW_WINDOW
    {
      this.key, this.durations := key, durations;
      items, idleTimer, maxTimer, running := [], None, None, [];
      started, closed, flushInProgress := false, false, false;
    }

    method AddItem(item: BatchItem, now: int) returns (ok: bool)
      modifies this
      ensures View() == Add(old(View()), item, now, durations)
      ensures ok <==> !old(closed)
      ensures ok ==> items == old(items) + [item.(addedAt := now)]
      ensures ok && (!old(started) || old(idleTimer).Some?) ==> idleTimer == Some(Timer(now + durations.idle, true))
      ensures ok ==> maxTimer == if old(started) then old(maxTimer) else Some(Timer(now + durations.max, true))
      ensures !ok ==> View() == old(View())
    {
      if closed {
        return false;
      }
      var stamped := item.(addedAt := now);
      items := items + [stamped];
      if !started {
        idleTimer := Some(Timer(now + durations.idle, true));
        maxTimer := Some(Timer(now + durations.max, true));
        started := true;
      } else if idleTimer != None {
        idleTimer := Some(Timer(now + durations.idle, true));
      }
      return true;
    }

    method FlushIdle()
      modifies this
      ensures View() == TimerCallback(old(View()))
      ensures if old(items) == [] || old(flushInProgress) then View() == old(View())
              else
                && items == [] && running == old(running) + [old(items)] && flushInProgress && closed == old(closed)
                && idleTimer == None && maxTimer == None && !started
    {
      if !flushInProgress {
        FlushLocked();
      }
    }

    method FlushMax()
      modifies this
      ensures View() == TimerCallback(old(View()))
      ensures if old(items) == [] || old(flushInProgress) then View() == old(View())
              else
                && items == [] && running == old(running) + [old(items)] && flushInProgress && closed == old(closed)
                && idleTimer == None && maxTimer == None && !started
    {
      if !flushInProgress {
        FlushLocked();
      }
    }

    method FlushLocked()
      modifies this
      ensures View() == Flush(old(View()))
      ensures if old(items) == [] || old(flushInProgress) then View() == old(View())
              else
                && items == [] && running == old(running) + [old(items)] && flushInProgress && closed == old(closed)
                && idleTimer == None && maxTimer == None && !started
    {
      if |items| == 0 || flushInProgress {
        return;
      }
      flushInProgress := true;
      if idleTimer != None {
        idleTimer := None;
      }
      if maxTimer != None {
        maxTimer := None;
      }
      var batch := items;
      items := [];
      started := false;
      running := running + [batch];
    }

    method GoroutineEnds(i: nat)
      requires i < |running|
      modifies this
      ensures View() == Finish(old(View()), i)
      ensures !flushInProgress && items == old(items) && closed == old(closed)
      ensures running == old(running)[..i] + old(running)[i + 1..]
    {
      running := running[..i] + running[i + 1..];
      flushInProgress := false;
    }

    method CloseWindow()
      modifies this
      ensures View() == Close(old(View()))
      ensures closed
      ensures if old(closed) || old(flushInProgress) then items == old(items) && running == old(running)
              else items == [] && running == old(running) + if old(items) == [] then [] else [old(items)]
    {
      if closed {
        return;
      }
      closed := true;
      if !flushInProgress {
        FlushLocked();
      }
    }
  }
}
