/** pkg/batcher/window.go, WindowedBatcher: one window per key, kept while it is being used. */
module WindowedBatchers {
  import opened BatchWindows

  /** The two maps guarded by the batcher's mutex; W identifies a window. */
  datatype Registry<W> = Registry(windows: map<string, W>, lastAccess: map<string, int>)

  /** The first half of Batch: note the access, get or create the window. */
  function Touch<W>(r: Registry<W>, key: string, now: int, created: W): Registry<W> {
    Registry(if key in r.windows then r.windows else r.windows[key := created], r.lastAccess[key := now])
  }

  function Expired<W>(r: Registry<W>, now: int, ttl: nat): set<string> {
    set key | key in r.lastAccess && r.lastAccess[key] < now - ttl
  }

  function Drop<W>(r: Registry<W>, keys: set<string>): Registry<W> {
    Registry(r.windows - keys, r.lastAccess - keys)
  }

  // ----- the windows of a map, and what closing some of them leaves

  ghost predicate Keyed(m: map<string, BatchWindow>, repr: set<BatchWindow>) {
    forall k :: k in m ==> m[k] in repr && m[k].key == k
  }

  ghost function Views(m: map<string, BatchWindow>, repr: set<BatchWindow>): map<string, Window>
    requires Keyed(m, repr)
    reads repr
  {
    map k | k in m :: m[k].View()
  }

  function CloseOn(views: map<string, Window>, keys: set<string>): map<string, Window> {
    map k | k in views :: if k in keys then Close(views[k]) else views[k]
  }

  lemma CloseOnNext(views: map<string, Window>, keys: set<string>, key: string)
    requires key in views && key !in keys
    ensures CloseOn(views, keys)[key := Close(CloseOn(views, keys)[key])] == CloseOn(views, keys + {key})
  {
  }

  lemma DropNext<W>(r: Registry<W>, keys: set<string>, key: string)
    ensures Drop(Drop(r, keys), {key}) == Drop(r, keys + {key})
  {
    assert r.windows - keys - {key} == r.windows - (keys + {key});
    assert r.lastAccess - keys - {key} == r.lastAccess - (keys + {key});
  }

  lemma NothingGone<W>(r: Registry<W>, views: map<string, Window>)
    ensures Drop(r, {}) == r && CloseOn(views, {}) == views
  {
    assert r.windows - {} == r.windows && r.lastAccess - {} == r.lastAccess;
  }

  lemma StillThere<W>(r: Registry<W>, gone: set<string>, key: string)
    requires key in r.lastAccess && key !in gone && r.windows.Keys == r.lastAccess.Keys
    ensures key in Drop(r, gone).lastAccess && Drop(r, gone).lastAccess[key] == r.lastAccess[key]
    ensures key in Drop(r, gone).windows && Drop(r, gone).windows[key] == r.windows[key]
  {
  }

  lemma NextKey(all: set<string>, rest: set<string>, key: string)
    requires key in rest
    ensures all - (rest - {key}) == if key in all then (all - rest) + {key} else all - rest
  {
  }

  lemma ClosedAsViewed(
    m: map<string, BatchWindow>, repr: set<BatchWindow>, views: map<string, Window>, keys: set<string>)
    requires Keyed(m, repr) && Views(m, repr) == CloseOn(views, keys)
    ensures forall k :: k in m ==> k in views && (m[k].closed <==> k in keys || views[k].closed)
  {
    forall k | k in m ensures k in views && (m[k].closed <==> k in keys || views[k].closed) {
      assert k in Views(m, repr) && Views(m, repr)[k] == m[k].View();
    }
  }

  /** Closing one window leaves the others as they are. */
  method CloseOne(ghost m: map<string, BatchWindow>, ghost repr: set<BatchWindow>, key: string, window: BatchWindow)
    requires Keyed(m, repr) && key in m && m[key] == window
    modifies window
    ensures Views(m, repr) == old(Views(m, repr))[key := Close(old(window.View()))]
  {
    window.CloseWindow();
    assert forall k :: k in m && k != key ==> m[k] != window;
  }

  method CloseEach(m: map<string, BatchWindow>, ghost repr: set<BatchWindow>)
    requires Keyed(m, repr)
    modifies repr
    ensures Views(m, repr) == CloseOn(old(Views(m, repr)), m.Keys)
  {
    ghost var views, done := Views(m, repr), {};
    var rest := m.Keys;
    while rest != {}
      invariant rest <= m.Keys && done == m.Keys - rest
      invariant Views(m, repr) == CloseOn(views, done)
      decreases rest
    {
      var key :| key in rest;
      CloseOnNext(views, done, key);
      CloseOne(m, repr, key, m[key]);
      rest := rest - {key};
      done := done + {key};
    }
    assert done == m.Keys;
  }

  class WindowedBatcher {
    const durations: Durations
    const windowTTL: nat
    var windows: map<string, BatchWindow>
    var lastAccess: map<string, int>
    var stopped: bool
    ghost var Repr: set<BatchWindow>

    function View(): Registry<BatchWindow>
      reads this
    {
      Registry(windows, lastAccess)
    }

    ghost predicate Valid()
      reads this, Repr
    {
      && windows.Keys == lastAccess.Keys
      && Keyed(windows, Repr)
      && (forall k :: k in windows ==> windows[k].durations == durations && !windows[k].closed)
    }

    constructor (durations: Durations, windowTTL: nat)
      ensures this.durations == durations && this.windowTTL == windowTTL
      ensures Valid() && View() == Registry(map[], map[]) && !stopped && Repr == {}
    {
      this.durations, this.windowTTL := durations, windowTTL;
      windows, lastAccess, stopped, Repr := map[], map[], false, {};
    }

    method GetOrCreateWindow(key: string, now: int) returns (window: BatchWindow)
      requires Valid()
      modifies this
      ensures Valid() && fresh(Repr - old(Repr)) && old(Repr) <= Repr
      ensures key in windows && windows[key] == window
      ensures View() == Touch(old(View()), key, now, window)
      ensures key !in old(windows) ==> fresh(window) && window.View() == NEW_WINDOW
      ensures stopped == old(stopped)
    {
      lastAccess := lastAccess[key := now];
      if key in windows {
        window := windows[key];
      } else {
        window := new BatchWindow(key, durations);
        windows := windows[key := window];
        Repr := Repr + {window};
      }
    }

    /** Batch without interference between its two critical sections. */
    method Batch(item: BatchItem, now: int) returns (ok: bool)
      requires Valid()
      modifies this, Repr
      ensures Valid() && fresh(Repr - old(Repr)) && ok
      ensures item.key in windows && View() == Touch(old(View()), item.key, now, windows[item.key])
      ensures windows[item.key].View() ==
                Add(if item.key in old(windows) then old(windows[item.key].View()) else NEW_WINDOW,
                    item, now, durations)
      ensures forall k :: k in old(windows) && k != item.key ==> windows[k].View() == old(windows[k].View())
    {
      var window := GetOrCreateWindow(item.key, now);
      ok := window.AddItem(item, now);
      assert forall k :: k in windows && k != item.key ==> windows[k] != window;
    }

    /** Close and forget the window of one key; `all` is any wider set of windows. */
    method CloseAndForget(key: string, ghost all: map<string, BatchWindow>)
      requires key in windows && Keyed(all, Repr) && key in all && windows[key] == all[key]
      modifies this, windows[key]
      ensures View() == Drop(old(View()), {key}) && stopped == old(stopped) && Repr == old(Repr)
      ensures Views(all, Repr) == old(Views(all, Repr))[key := Close(old(Views(all, Repr))[key])]
    {
      CloseOne(all, Repr, key, windows[key]);
      windows := windows - {key};
      lastAccess := lastAccess - {key};
    }

    ghost predicate Forgotten(was: Registry<BatchWindow>, views: map<string, Window>, gone: set<string>)
      reads this, Repr
    {
      Keyed(was.windows, Repr) && View() == Drop(was, gone) && Views(was.windows, Repr) == CloseOn(views, gone)
    }

    method CleanupExpiredWindows(now: int)
      requires Valid()
      modifies this, Repr
      ensures Valid() && stopped == old(stopped) && Repr == old(Repr)
      ensures Forgotten(old(View()), old(Views(windows, Repr)), Expired(old(View()), now, windowTTL))
      ensures forall k :: k in old(windows) ==>
                && (old(windows)[k].closed <==> old(lastAccess)[k] < now - windowTTL)
                && (k in windows <==> old(lastAccess)[k] >= now - windowTTL)
    {
      ghost var was, views := View(), Views(windows, Repr);
      DropExpired(now);
      ClosedAsViewed(was.windows, Repr, views, Expired(was, now, windowTTL));
      assert forall k :: k in windows ==> windows[k].View() == Views(was.windows, Repr)[k] == views[k];
    }

    method DropExpired(now: int)
      requires Keyed(windows, Repr) && windows.Keys == lastAccess.Keys
      modifies this, Repr
      ensures stopped == old(stopped) && Repr == old(Repr)
      ensures Forgotten(old(View()), old(Views(windows, Repr)), Expired(old(View()), now, windowTTL))
    {
      ghost var was, views, expired := View(), Views(windows, Repr), Expired(View(), now, windowTTL);
      var rest := lastAccess.Keys;
      ghost var gone: set<string> := {};
      NothingGone(was, views);
      while rest != {}
        invariant rest <= was.lastAccess.Keys && gone == expired - rest
        invariant Forgotten(was, views, gone) && stopped == old(stopped) && Repr == old(Repr)
        decreases rest
      {
        var key :| key in rest;
        DropIfExpired(key, now, was, views, gone);
        NextKey(expired, rest, key);
        gone := if key in expired then gone + {key} else gone;
        rest := rest - {key};
      }
      assert gone == expired;
    }

    /** One turn of the loop over lastAccess. */
    method DropIfExpired(key: string, now: int, ghost was: Registry<BatchWindow>, ghost views: map<string, Window>,
                         ghost gone: set<string>)
      requires Forgotten(was, views, gone) && was.windows.Keys == was.lastAccess.Keys == views.Keys
      requires key in was.lastAccess && key !in gone
      modifies this, Repr
      ensures stopped == old(stopped) && Repr == old(Repr)
      ensures Forgotten(was, views, if key in Expired(was, now, windowTTL) then gone + {key} else gone)
    {
      StillThere(was, gone, key);
      if lastAccess[key] < now - windowTTL {
        CloseOnNext(views, gone, key);
        DropNext(was, gone, key);
        CloseAndForget(key, was.windows);
      }
    }

    /** Close of the batcher; a second call panics on the closed channel, so it is not allowed. */
    method CloseAll()
      requires Valid() && !stopped
      modifies this, Repr
      ensures Valid() && stopped && View() == Registry(map[], map[]) && Repr == old(Repr)
      ensures Keyed(old(windows), Repr)
      ensures Views(old(windows), Repr) == CloseOn(old(Views(windows, Repr)), old(windows).Keys)
      ensures forall k :: k in old(windows) ==> old(windows)[k].closed
    {
      ghost var was, views := windows, Views(windows, Repr);
      Stop();
      CloseEach(windows, Repr);
      ForgetAll(was);
      ClosedAsViewed(was, Repr, views, was.Keys);
    }

    method Stop()
      requires Keyed(windows, Repr)
      modifies this
      ensures stopped && windows == old(windows) && Repr == old(Repr)
      ensures Views(windows, Repr) == old(Views(windows, Repr))
    {
      stopped := true;
    }

    method ForgetAll(ghost m: map<string, BatchWindow>)
      requires Keyed(m, Repr)
      modifies this
      ensures View() == Registry(map[], map[]) && stopped == old(stopped) && Repr == old(Repr)
      ensures Views(m, Repr) == old(Views(m, Repr))
    {
      windows := map[];
      lastAccess := map[];
    }
  }
}
