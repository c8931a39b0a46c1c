/**
 The batch key, the batcher and the executor together: on every run of the batcher, what the
 instances of an executed batch are launched with.
 */
module BatchedLaunches {
  import opened BatchWindows
  import opened BatcherRuns
  import opened BatchKeys
  import opened RunInstancesExecutors

  /** CreateInstance adds an item under the key of its request; `requests` is the request of each item id. */
  ghost predicate Keyed(item: BatchItem, requests: nat -> Request, sha256: string -> string) {
    item.key == KeyOf(requests(item.id), sha256)
  }

  ghost predicate KeyedAction(a: Action, requests: nat -> Request, sha256: string -> string) {
    a.AddTo? ==> Keyed(a.item, requests, sha256)
  }

  ghost predicate KeyedActions(actions: seq<Action>, requests: nat -> Request, sha256: string -> string) {
    forall i :: 0 <= i < |actions| ==> KeyedAction(actions[i], requests, sha256)
  }

  ghost predicate AllKeyed(items: seq<BatchItem>, requests: nat -> Request, sha256: string -> string) {
    forall i :: 0 <= i < |items| ==> Keyed(items[i], requests, sha256)
  }

  ghost predicate WindowKeyed(w: Window, requests: nat -> Request, sha256: string -> string) {
    && AllKeyed(w.items, requests, sha256)
    && forall i :: 0 <= i < |w.running| ==> AllKeyed(w.running[i], requests, sha256)
  }

  ghost predicate StoreKeyed(s: State, requests: nat -> Request, sha256: string -> string) {
    forall t :: t in s.store ==> WindowKeyed(s.store[t].window, requests, sha256)
  }

  lemma WindowStepsKeepKeyed(w: Window, i: nat, requests: nat -> Request, sha256: string -> string)
    requires WindowKeyed(w, requests, sha256)
    ensures WindowKeyed(TimerCallback(w), requests, sha256)
    ensures WindowKeyed(Close(w), requests, sha256)
    ensures WindowKeyed(Finish(w, i), requests, sha256)
  {
    hide Keyed;
  }

  lemma AddKeepsKeyed(
    w: Window, item: BatchItem, now: int, d: Durations, requests: nat -> Request, sha256: string -> string)
    requires WindowKeyed(w, requests, sha256) && Keyed(item, requests, sha256)
    ensures WindowKeyed(Add(w, item, now, d), requests, sha256)
  {
    hide KeyOf;
  }

  lemma ActKeepsKeyed(s: State, a: Action, c: Config, requests: nat -> Request, sha256: string -> string)
    requires StoreKeyed(s, requests, sha256) && KeyedAction(a, requests, sha256)
    ensures StoreKeyed(Act(s, a, c), requests, sha256)
  {
    hide WindowKeyed, Keyed, TimerCallback, Close, Finish, Add;
    assert WindowKeyed(NEW_WINDOW, requests, sha256) by {
      EmptyIsKeyed(requests, sha256);
    }
    var s' := Act(s, a, c);
    forall t | t in s'.store ensures WindowKeyed(s'.store[t].window, requests, sha256) {
      if t in s.store {
        WindowStepsKeepKeyed(s.store[t].window, if a.GoroutineEnds? then a.i else 0, requests, sha256);
        if a.AddTo? {
          AddKeepsKeyed(s.store[t].window, a.item, s.now, c.durations, requests, sha256);
        }
      }
    }
  }

  lemma EmptyIsKeyed(requests: nat -> Request, sha256: string -> string)
    ensures WindowKeyed(NEW_WINDOW, requests, sha256)
  {
  }

  // ----- the batches executed along a run

  function Ended(s: State, a: Action): seq<seq<BatchItem>> {
    if a.GoroutineEnds? && a.target in s.store && a.i < |s.store[a.target].window.running|
    then [s.store[a.target].window.running[a.i]] else []
  }

  function Executed(s: State, actions: seq<Action>, c: Config): seq<seq<BatchItem>>
    decreases |actions|
  {
    if actions == [] then [] else Ended(s, actions[0]) + Executed(Act(s, actions[0], c), actions[1..], c)
  }

  /** All items of a batch were added under one key, that of their requests. */
  ghost predicate OneKey(batch: seq<BatchItem>, requests: nat -> Request, sha256: string -> string) {
    forall j :: 0 <= j < |batch| ==> KeyOf(requests(batch[0].id), sha256) == KeyOf(requests(batch[j].id), sha256)
  }

  lemma {:induction false} ExecutedHaveOneKey(
    s: State, actions: seq<Action>, c: Config, requests: nat -> Request, sha256: string -> string, k: nat)
    requires Tidy(s, c.ttl) && StoreKeyed(s, requests, sha256)
    requires AllPossible(s, actions, c) && KeyedActions(actions, requests, sha256)
    requires k < |Executed(s, actions, c)|
    ensures OneKey(Executed(s, actions, c)[k], requests, sha256)
    decreases |actions|
  {
    hide Act, Possible, KeyOf, KeyedAction;
    var a, ended := actions[0], Ended(s, actions[0]);
    if k < |ended| {
      EndedHasOneKey(s, a, c.ttl, requests, sha256);
    } else {
      ActStaysTidy(s, a, c);
      ActKeepsKeyed(s, a, c, requests, sha256);
      ExecutedHaveOneKey(Act(s, a, c), actions[1..], c, requests, sha256, k - |ended|);
    }
  }

  lemma EndedHasOneKey(s: State, a: Action, ttl: nat, requests: nat -> Request, sha256: string -> string)
    requires Tidy(s, ttl) && StoreKeyed(s, requests, sha256) && Ended(s, a) != []
    ensures OneKey(Ended(s, a)[0], requests, sha256)
  {
    hide KeyOf;
    var o := s.store[a.target];
    var batch := o.window.running[a.i];
    assert Homogeneous(o) && WindowKeyed(o.window, requests, sha256);
    forall j | 0 <= j < |batch|
      ensures KeyOf(requests(batch[0].id), sha256) == KeyOf(requests(batch[j].id), sha256)
    {
      assert batch[0].key == o.key == batch[j].key;
      assert Keyed(batch[0], requests, sha256) && Keyed(batch[j], requests, sha256);
    }
  }

  // ----- the theorem

  ghost predicate CollisionFree(requests: nat -> Request, sha256: string -> string) {
    forall x: nat, y: nat :: Digest(requests(x), sha256) == Digest(requests(y), sha256) ==>
      Stream(Fields(requests(x))) == Stream(Fields(requests(y)))
  }

  ghost function Digest(r: Request, sha256: string -> string): string {
    sha256(Stream(Fields(r)))
  }

  ghost predicate Readable(r: Request) {
    NulFree(Fields(r)) && PlainKeys(r.tag.GetOr([]))
  }

  /** The waiters of a batch as Execute receives them. */
  predicate Carries(items: seq<Waiter>, batch: seq<BatchItem>, requests: nat -> Request) {
    |items| == |batch| && forall j :: 0 <= j < |batch| ==> items[j].request == requests(batch[j].id)
  }

  /**
   On every run of the batcher in which items are added under the keys of their requests, every
   executed batch is launched with the configuration of each of its waiters that has as many
   groups, disks and tags as the first, and of no other, provided that the digest does not
   collide, fields have no NUL and tag keys no equals sign.
   */
  lemma EveryWaiterGetsItsOwnConfiguration(
    start: int, actions: seq<Action>, c: Config, requests: nat -> Request, sha256: string -> string,
    items: seq<Waiter>, k: nat, j: nat)
    requires AllPossible(Init(start), actions, c) && KeyedActions(actions, requests, sha256)
    requires CollisionFree(requests, sha256) && forall x :: Readable(requests(x))
    requires k < |Executed(Init(start), actions, c)|
    requires Carries(items, Executed(Init(start), actions, c)[k], requests) && j < |items|
    ensures SameConfiguration(LaunchOf(items).request, items[j].request) <==>
            SameCounts(LaunchOf(items).request, items[j].request)
  {
    hide SameConfiguration, SameCounts, Fields, KeyOf, Executed, AllPossible, KeyedActions, CollisionFree, Readable;
    ExecutedHaveOneKey(Init(start), actions, c, requests, sha256, k);
    var batch := Executed(Init(start), actions, c)[k];
    OneKeyMeansOneConfiguration(batch[0].id, batch[j].id, requests, sha256);
  }

  lemma OneKeyMeansOneConfiguration(x: nat, y: nat, requests: nat -> Request, sha256: string -> string)
    requires KeyOf(requests(x), sha256) == KeyOf(requests(y), sha256)
    requires CollisionFree(requests, sha256) && Readable(requests(x)) && Readable(requests(y))
    ensures SameConfiguration(requests(x), requests(y)) <==> SameCounts(requests(x), requests(y))
  {
    PrefixIsInjective("run-instances-", Digest(requests(x), sha256), Digest(requests(y), sha256));
    EqualStreamsMeanSameConfiguration(requests(x), requests(y));
  }

  lemma PrefixIsInjective(p: string, a: string, b: string)
    requires p + a == p + b
    ensures a == b
  {
    assert a == (p + a)[|p|..] && b == (p + b)[|p|..];
  }
}
