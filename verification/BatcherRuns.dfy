/**
 Every run of a WindowedBatcher: callers of Batch, the janitor, Close, timers and flush
 goroutines. Batch is two critical sections, the lookup under the batcher's mutex and the Add
 under the window's, and anything may happen between them.
 */
module BatcherRuns {
  import opened BatchWindows
  import opened WindowedBatchers

  /** A window object; windows outlive the registry, which only forgets them. */
  datatype Owned = Owned(key: string, window: Window)

  /** A call of Batch after its lookup, made at time `at`. */
  datatype Call = Call(key: string, target: nat, at: int)

  datatype Outcome = Accepted | Rejected

  datatype State = State(
    registry: Registry<nat>,
    store: map<nat, Owned>,
    calls: map<nat, Call>,
    outcomes: map<nat, Outcome>,
    stopped: bool,
    now: int)

  datatype Action =
    | Lookup(call: nat, key: string, created: nat)
    | AddTo(call: nat, item: BatchItem)
    | Janitor
    | CloseBatcher
    | TimerFires(target: nat)
    | GoroutineEnds(target: nat, i: nat)
    | Pass(dt: nat)

  datatype Config = Config(durations: Durations, ttl: nat)

  function Init(now: int): State {
    State(Registry(map[], map[]), map[], map[], map[], false, now)
  }

  predicate Possible(s: State, a: Action) {
    match a
    case Lookup(call, key, created) => call !in s.calls && created !in s.store
    case AddTo(call, item) => call in s.calls && call !in s.outcomes && item.key == s.calls[call].key
    case CloseBatcher => !s.stopped
    case _ => true
  }

  function CloseAt(store: map<nat, Owned>, targets: set<nat>): map<nat, Owned> {
    map t | t in store :: if t in targets then store[t].(window := Close(store[t].window)) else store[t]
  }

  function Targets(r: Registry<nat>, keys: set<string>): set<nat> {
    set k | k in keys && k in r.windows :: r.windows[k]
  }

  function Act(s: State, a: Action, c: Config): State {
    match a
    case Lookup(call, key, created) =>
      var r := Touch(s.registry, key, s.now, created);
      s.(registry := r,
         store := if key in s.registry.windows then s.store else s.store[created := Owned(key, NEW_WINDOW)],
         calls := s.calls[call := Call(key, r.windows[key], s.now)])
    case AddTo(call, item) =>
      if call in s.calls && s.calls[call].target in s.store then
        var t := s.calls[call].target;
        var o := s.store[t];
        s.(store := s.store[t := o.(window := Add(o.window, item, s.now, c.durations))],
           outcomes := s.outcomes[call := if o.window.closed then Rejected else Accepted])
      else s
    case Janitor =>
      var expired := Expired(s.registry, s.now, c.ttl);
      s.(registry := Drop(s.registry, expired), store := CloseAt(s.store, Targets(s.registry, expired)))
    case CloseBatcher =>
      s.(registry := Registry(map[], map[]), stopped := true,
         store := CloseAt(s.store, Targets(s.registry, s.registry.windows.Keys)))
    case TimerFires(t) =>
      if t in s.store then s.(store := s.store[t := s.store[t].(window := TimerCallback(s.store[t].window))]) else s
    case GoroutineEnds(t, i) =>
      if t in s.store then s.(store := s.store[t := s.store[t].(window := Finish(s.store[t].window, i))]) else s
    case Pass(dt) => s.(now := s.now + dt)
  }

  function Run(s: State, actions: seq<Action>, c: Config): State
    decreases |actions|
  {
    if actions == [] then s else Run(Act(s, actions[0], c), actions[1..], c)
  }

  predicate AllPossible(s: State, actions: seq<Action>, c: Config)
    decreases |actions|
  {
    actions == [] || (Possible(s, actions[0]) && AllPossible(Act(s, actions[0], c), actions[1..], c))
  }

  // ----- the invariant

  /** The registry holds the open windows, one for each of its keys, and no others are open. */
  ghost predicate OnePerKey(s: State) {
    && s.registry.windows.Keys == s.registry.lastAccess.Keys
    && (forall k :: k in s.registry.windows ==>
          && s.registry.windows[k] in s.store
          && s.store[s.registry.windows[k]].key == k
          && !s.store[s.registry.windows[k]].window.closed)
    && (forall t :: t in s.store && !s.store[t].window.closed ==>
          s.store[t].key in s.registry.windows && s.registry.windows[s.store[t].key] == t)
  }

  ghost predicate AllOf(items: seq<BatchItem>, key: string) {
    forall i :: 0 <= i < |items| ==> items[i].key == key
  }

  ghost predicate Homogeneous(o: Owned) {
    && AllOf(o.window.items, o.key)
    && forall i :: 0 <= i < |o.window.running| ==> AllOf(o.window.running[i], o.key)
  }

  /** Every lookup is remembered in lastAccess until its window is closed. */
  ghost predicate Remembered(s: State, ttl: nat) {
    && (forall c :: c in s.calls ==>
          && s.calls[c].target in s.store
          && s.store[s.calls[c].target].key == s.calls[c].key
          && s.calls[c].at <= s.now
          && (s.store[s.calls[c].target].window.closed ==> s.stopped || s.calls[c].at < s.now - ttl)
          && (s.calls[c].key in s.registry.lastAccess ==> s.calls[c].at <= s.registry.lastAccess[s.calls[c].key]))
    && (forall k :: k in s.registry.lastAccess ==> s.registry.lastAccess[k] <= s.now)
  }

  ghost predicate Tidy(s: State, ttl: nat) {
    && OnePerKey(s)
    && (forall t :: t in s.store ==> Homogeneous(s.store[t]))
    && Remembered(s, ttl)
  }

  lemma LookupKeepsOnePerKey(s: State, a: Action, c: Config)
    requires OnePerKey(s) && a.Lookup? && Possible(s, a)
    ensures OnePerKey(Act(s, a, c))
  {
  }

  lemma LookupIsRemembered(s: State, a: Action, c: Config)
    requires OnePerKey(s) && Remembered(s, c.ttl) && a.Lookup? && Possible(s, a)
    ensures Remembered(Act(s, a, c), c.ttl)
  {
    var s' := Act(s, a, c);
    assert s'.calls[a.call].target in s'.store;
  }

  lemma LookupStaysTidy(s: State, a: Action, c: Config)
    requires Tidy(s, c.ttl) && a.Lookup? && Possible(s, a)
    ensures Tidy(Act(s, a, c), c.ttl)
  {
    LookupKeepsOnePerKey(s, a, c);
    LookupIsRemembered(s, a, c);
  }

  /** A step inside one window that neither opens nor closes it. */
  lemma InnerStepStaysTidy(s: State, t: nat, w: Window, ttl: nat)
    requires Tidy(s, ttl) && t in s.store
    requires w.closed == s.store[t].window.closed && Homogeneous(Owned(s.store[t].key, w))
    ensures Tidy(s.(store := s.store[t := s.store[t].(window := w)]), ttl)
  {
  }

  lemma AddStaysTidy(s: State, a: Action, c: Config)
    requires Tidy(s, c.ttl) && a.AddTo? && Possible(s, a)
    ensures Tidy(Act(s, a, c), c.ttl)
  {
    var t := s.calls[a.call].target;
    var w := Add(s.store[t].window, a.item, s.now, c.durations);
    AddKeepsHomogeneous(s.store[t], a.item, s.now, c.durations);
    InnerStepStaysTidy(s, t, w, c.ttl);
  }

  lemma WindowStepsKeepHomogeneous(o: Owned, i: nat)
    requires Homogeneous(o)
    ensures Homogeneous(Owned(o.key, TimerCallback(o.window)))
    ensures Homogeneous(Owned(o.key, Finish(o.window, i)))
  {
  }

  lemma AddKeepsHomogeneous(o: Owned, item: BatchItem, now: int, d: Durations)
    requires Homogeneous(o) && item.key == o.key
    ensures Homogeneous(Owned(o.key, Add(o.window, item, now, d)))
  {
  }

  lemma WindowStepStaysTidy(s: State, t: nat, i: nat, c: Config)
    requires Tidy(s, c.ttl) && t in s.store
    ensures Tidy(Act(s, TimerFires(t), c), c.ttl)
    ensures Tidy(Act(s, GoroutineEnds(t, i), c), c.ttl)
  {
    var o := s.store[t];
    WindowStepsKeepHomogeneous(o, i);
    InnerStepStaysTidy(s, t, TimerCallback(o.window), c.ttl);
    InnerStepStaysTidy(s, t, Finish(o.window, i), c.ttl);
  }

  lemma ClosedAtTargets(s: State, keys: set<string>, t: nat)
    requires OnePerKey(s) && t in s.store
    ensures t in Targets(s.registry, keys) <==> !s.store[t].window.closed && s.store[t].key in keys
    ensures CloseAt(s.store, Targets(s.registry, keys))[t].key == s.store[t].key
    ensures CloseAt(s.store, Targets(s.registry, keys))[t].window.closed <==>
            s.store[t].window.closed || s.store[t].key in keys
    ensures Homogeneous(s.store[t]) ==> Homogeneous(CloseAt(s.store, Targets(s.registry, keys))[t])
  {
    if !s.store[t].window.closed && s.store[t].key in keys {
      assert s.registry.windows[s.store[t].key] == t;
    }
  }

  lemma JanitorStaysTidy(s: State, c: Config)
    requires Tidy(s, c.ttl)
    ensures Tidy(Act(s, Janitor, c), c.ttl)
  {
    var expired := Expired(s.registry, s.now, c.ttl);
    forall t | t in s.store
      ensures CloseAt(s.store, Targets(s.registry, expired))[t].key == s.store[t].key
      ensures CloseAt(s.store, Targets(s.registry, expired))[t].window.closed <==>
              s.store[t].window.closed || s.store[t].key in expired
      ensures Homogeneous(CloseAt(s.store, Targets(s.registry, expired))[t])
    {
      ClosedAtTargets(s, expired, t);
    }
  }

  lemma CloseStaysTidy(s: State, c: Config)
    requires Tidy(s, c.ttl)
    ensures Tidy(Act(s, CloseBatcher, c), c.ttl)
  {
    var keys := s.registry.windows.Keys;
    forall t | t in s.store
      ensures CloseAt(s.store, Targets(s.registry, keys))[t].key == s.store[t].key
      ensures CloseAt(s.store, Targets(s.registry, keys))[t].window.closed
      ensures Homogeneous(CloseAt(s.store, Targets(s.registry, keys))[t])
    {
      ClosedAtTargets(s, keys, t);
    }
  }

  lemma ActStaysTidy(s: State, a: Action, c: Config)
    requires Tidy(s, c.ttl) && Possible(s, a)
    ensures Tidy(Act(s, a, c), c.ttl)
  {
    match a
    case Lookup(_, _, _) => LookupStaysTidy(s, a, c);
    case AddTo(_, _) => AddStaysTidy(s, a, c);
    case Janitor => JanitorStaysTidy(s, c);
    case CloseBatcher => CloseStaysTidy(s, c);
    case TimerFires(t) =>
      if t in s.store {
        WindowStepStaysTidy(s, t, 0, c);
      }
    case GoroutineEnds(t, i) =>
      if t in s.store {
        WindowStepStaysTidy(s, t, i, c);
      }
    case Pass(_) =>
  }

  lemma {:induction false} RunStaysTidy(s: State, actions: seq<Action>, c: Config)
    requires Tidy(s, c.ttl) && AllPossible(s, actions, c)
    ensures Tidy(Run(s, actions, c), c.ttl)
    decreases |actions|
  {
    if actions != [] {
      ActStaysTidy(s, actions[0], c);
      RunStaysTidy(Act(s, actions[0], c), actions[1..], c);
    }
  }

  // ----- the theorems, for every run

  predicate OpenFor(s: State, t: nat, u: nat) {
    && t in s.store && u in s.store && s.store[t].key == s.store[u].key
    && !s.store[t].window.closed && !s.store[u].window.closed
  }

  /**
   In every reachable state the two maps have the same keys, a key has at most one open window
   and that is the registered one, and every item in a window, pending or in flight, carries
   that window's key.
   */
  lemma OneOpenWindowPerKey(start: int, actions: seq<Action>, c: Config)
    requires AllPossible(Init(start), actions, c)
    ensures var s := Run(Init(start), actions, c);
            && s.registry.windows.Keys == s.registry.lastAccess.Keys
            && (forall t, u :: OpenFor(s, t, u) ==> t == u)
            && (forall t :: t in s.store ==> Homogeneous(s.store[t]))
  {
    RunStaysTidy(Init(start), actions, c);
  }

  /**
   A call of Batch is accepted exactly when the window it looked up is still open at its Add,
   and then its item is the last pending one of that window; it is rejected only if the batcher
   was closed or the caller let more than windowTTL pass between its lookup and its Add.
   */
  ghost predicate AcceptedUnlessLate(s: State, call: nat, item: BatchItem, c: Config)
    requires call in s.calls
  {
    var s' := Act(s, AddTo(call, item), c);
    var t := s.calls[call].target;
    && t in s.store && t in s'.store && call in s'.outcomes
    && s'.outcomes[call] == (if s.store[t].window.closed then Rejected else Accepted)
    && (s'.outcomes[call].Accepted? ==>
          && item.key in s.registry.windows && s.registry.windows[item.key] == t
          && s'.store[t].window.items == s.store[t].window.items + [item.(addedAt := s.now)])
    && (s'.outcomes[call].Rejected? ==> s'.store == s.store && (s.stopped || s.calls[call].at < s.now - c.ttl))
  }

  lemma TidyAcceptsUnlessLate(s: State, call: nat, item: BatchItem, c: Config)
    requires Tidy(s, c.ttl) && Possible(s, AddTo(call, item))
    ensures AcceptedUnlessLate(s, call, item, c)
  {
    var t := s.calls[call].target;
    assert s.store[t := s.store[t]] == s.store;
  }

  lemma BatchIsAcceptedUnlessLate(start: int, actions: seq<Action>, c: Config, call: nat, item: BatchItem)
    requires AllPossible(Init(start), actions, c)
    requires Possible(Run(Init(start), actions, c), AddTo(call, item))
    ensures AcceptedUnlessLate(Run(Init(start), actions, c), call, item, c)
  {
    RunStaysTidy(Init(start), actions, c);
    TidyAcceptsUnlessLate(Run(Init(start), actions, c), call, item, c);
  }

  /**
   The janitor closes an open window exactly when its key's last access, which is no earlier
   than any lookup of the key, is older than windowTTL.
   */
  ghost predicate ClosesOnlyIdle(s: State, c: Config) {
    var s' := Act(s, Janitor, c);
    forall t :: t in s.store && !s.store[t].window.closed ==>
      && t in s'.store && s.store[t].key in s.registry.lastAccess
      && (s'.store[t].window.closed <==> s.registry.lastAccess[s.store[t].key] < s.now - c.ttl)
      && (forall call :: call in s.calls && s.calls[call].key == s.store[t].key ==>
            s.calls[call].at <= s.registry.lastAccess[s.store[t].key])
  }

  lemma TidyClosesOnlyIdle(s: State, c: Config)
    requires Tidy(s, c.ttl)
    ensures ClosesOnlyIdle(s, c)
  {
    forall t | t in s.store && !s.store[t].window.closed
      ensures CloseAt(s.store, Targets(s.registry, Expired(s.registry, s.now, c.ttl)))[t].window.closed <==>
              s.store[t].key in Expired(s.registry, s.now, c.ttl)
    {
      ClosedAtTargets(s, Expired(s.registry, s.now, c.ttl), t);
    }
  }

  lemma JanitorClosesOnlyIdleWindows(start: int, actions: seq<Action>, c: Config)
    requires AllPossible(Init(start), actions, c)
    ensures ClosesOnlyIdle(Run(Init(start), actions, c), c)
  {
    RunStaysTidy(Init(start), actions, c);
    TidyClosesOnlyIdle(Run(Init(start), actions, c), c);
  }
}
