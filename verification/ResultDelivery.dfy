/**
 pkg/batcher/instance.go and the goroutine of BatchWindow.flush: how each caller of
 CreateInstance gets its result. One window with its callers, the executor goroutine and one
 channel of capacity 1 per request, interleaved one channel operation at a time.
 */
module ResultDelivery {
  import opened Wrappers
  import opened BatchWindows
  import opened WindowRuns

  datatype BatchResult = Launched(instanceID: string) | Failure(message: string)

  /** What ECS RunInstances answers. */
  datatype Response = Refused(message: string) | Instances(ids: seq<string>)

  const CHANNEL_CAPACITY := 1

  function Insufficient(requested: nat, got: nat): string {
    "insufficient instances returned: requested " + Decimal(requested) + ", got " + Decimal(got)
  }

  /** What Execute sends to waiter number `i` of a batch of `n`. */
  function ResultFor(r: Response, n: nat, i: nat): BatchResult {
    match r
    case Refused(message) => Failure("batch RunInstances failed: " + message)
    case Instances(ids) => if i < |ids| then Launched(ids[i]) else Failure(Insufficient(n, |ids|))
  }

  /** What Execute returns. */
  function ExecuteError(r: Response, n: nat): Option<string> {
    match r
    case Refused(message) => Some(message)
    case Instances(ids) => if |ids| < n then Some(Insufficient(n, |ids|)) else None
  }

  /** How many of the first k waiters of a batch of n get an instance. */
  function Successes(r: Response, n: nat, k: nat): nat {
    if k == 0 then 0 else Successes(r, n, k - 1) + if ResultFor(r, n, k - 1).Launched? then 1 else 0
  }

  lemma {:induction false} SuccessesBelow(r: Response, n: nat, k: nat)
    ensures Successes(r, n, k) == if r.Refused? then 0 else if |r.ids| < k then |r.ids| else k
    decreases k
  {
    if k > 0 {
      SuccessesBelow(r, n, k - 1);
    }
  }

  /**
   Of a batch of n items exactly min(ids returned, n) succeed: those at the first positions, each
   with the ID at its own. Execute reports an error unless all of them do.
   */
  lemma ExactlyTheReturnedIdsSucceed(r: Response, n: nat)
    ensures Successes(r, n, n) == if r.Refused? then 0 else if |r.ids| < n then |r.ids| else n
    ensures forall i: nat :: i < n ==>
              if r.Instances? && i < |r.ids| then ResultFor(r, n, i) == Launched(r.ids[i])
              else ResultFor(r, n, i).Failure?
    ensures r.Refused? ==> ExecuteError(r, n) == Some(r.message)
    ensures r.Instances? ==> (ExecuteError(r, n).None? <==> Successes(r, n, n) == n)
  {
    SuccessesBelow(r, n, n);
  }

  // ----- the protocol

  datatype Channel = Channel(buffer: seq<BatchResult>, read: Option<BatchResult>)

  const FRESH := Channel([], None)

  /** Where the goroutine of the batch in flight is. */
  datatype Phase =
    | NotRunning
    | Sending(response: Response, next: nat)
    | Broadcasting(response: Response, next: nat)

  datatype Call = Call(batch: seq<BatchItem>, response: Response)

  datatype System = System(
    history: History,
    phase: Phase,
    channels: map<nat, Channel>,
    answers: map<nat, BatchResult>,
    calls: seq<Call>)

  datatype Action =
    | CreateInstance(item: BatchItem, at: int)
    | Timer
    | CloseNow
    | RunInstances(response: Response)
    | ExecutorStep
    | Receive(id: nat)

  const INITIAL := System(START, NotRunning, map[], map[], [])

  /** A channel is made by CreateInstance for one request only. */
  predicate Possible(s: System, a: Action) {
    a.CreateInstance? ==> a.item.id !in s.channels
  }

  function Sent(s: System): nat {
    match s.phase
    case NotRunning => 0
    case Sending(_, next) => next
    case Broadcasting(_, _) => if s.history.window.running == [] then 0 else |s.history.window.running[0]|
  }

  function Act(s: System, a: Action, d: Durations): System {
    var h := s.history;
    match a
    case CreateInstance(item, at) =>
      s.(history := Step(h, Adds(item, at), d), channels := s.channels[item.id := FRESH])
    case Timer => s.(history := Step(h, TimerFires, d))
    case CloseNow => s.(history := Step(h, Closes, d))
    case RunInstances(response) =>
      if h.window.running != [] && s.phase.NotRunning? then s.(phase := Sending(response, 0)) else s
    case ExecutorStep => if h.window.running == [] then s else ExecutorActs(s, h.window.running[0], d)
    case Receive(id) =>
      if id in s.channels && s.channels[id].read.None? && s.channels[id].buffer != [] then
        var c := s.channels[id];
        s.(channels := s.channels[id := Channel(c.buffer[1..], Some(c.buffer[0]))])
      else s
  }

  /** The next channel operation of the goroutine, or its end. A send into a full channel blocks. */
  function ExecutorActs(s: System, batch: seq<BatchItem>, d: Durations): System {
    match s.phase
    case NotRunning => s
    case Sending(r, k) =>
      if k < |batch| then
        var id, answer := batch[k].id, ResultFor(r, |batch|, k);
        if id in s.channels && |s.channels[id].buffer| < CHANNEL_CAPACITY then
          s.(phase := Sending(r, k + 1),
             channels := s.channels[id := s.channels[id].(buffer := s.channels[id].buffer + [answer])],
             answers := s.answers[id := answer])
        else s
      else if ExecuteError(r, |batch|).Some? then s.(phase := Broadcasting(r, 0))
      else Ended(s, batch, r, d)
    case Broadcasting(r, k) =>
      if k < |batch| then
        var id := batch[k].id;
        if id in s.channels && |s.channels[id].buffer| < CHANNEL_CAPACITY then
          s.(phase := Broadcasting(r, k + 1),
             channels := s.channels[id := s.channels[id].(buffer :=
               s.channels[id].buffer + [Failure(ExecuteError(r, |batch|).GetOr(""))])])
        else s.(phase := Broadcasting(r, k + 1))
      else Ended(s, batch, r, d)
  }

  function Ended(s: System, batch: seq<BatchItem>, r: Response, d: Durations): System {
    s.(history := Step(s.history, GoroutineEnds(0), d), phase := NotRunning, calls := s.calls + [Call(batch, r)])
  }

  function Acts(s: System, actions: seq<Action>, d: Durations): System
    decreases |actions|
  {
    if actions == [] then s else Acts(Act(s, actions[0], d), actions[1..], d)
  }

  predicate AllPossible(s: System, actions: seq<Action>, d: Durations)
    decreases |actions|
  {
    actions == [] || (Possible(s, actions[0]) && AllPossible(Act(s, actions[0], d), actions[1..], d))
  }

  // ----- the invariant

  ghost predicate DistinctIds(items: seq<BatchItem>) {
    forall i, j :: 0 <= i < j < |items| ==> items[i].id != items[j].id
  }

  /** The waiter has read `answer`, or reads it next. */
  predicate Holds(c: Channel, answer: BatchResult) {
    c.read == Some(answer) || (c.read.None? && c.buffer == [answer])
  }

  ghost predicate Channels(s: System) {
    && s.answers.Keys <= s.channels.Keys
    && (forall id :: id in s.answers ==>
          Holds(s.channels[id], s.answers[id]) && |s.channels[id].buffer| <= CHANNEL_CAPACITY)
    && (forall id :: id in s.channels && id !in s.answers ==> s.channels[id] == FRESH)
  }

  ghost predicate Progress(s: System) {
    var w := s.history.window;
    && (!s.phase.NotRunning? ==> w.running != [])
    && (w.running != [] ==>
          && Sent(s) <= |w.running[0]|
          && (forall j :: 0 <= j < |w.running[0]| ==> (w.running[0][j].id in s.answers <==> j < Sent(s)))
          && (!s.phase.NotRunning? ==> forall j :: 0 <= j < Sent(s) ==>
                s.answers[w.running[0][j].id] == ResultFor(s.phase.response, |w.running[0]|, j)))
    && (forall j :: 0 <= j < |w.items| ==> w.items[j].id !in s.answers)
  }

  ghost predicate Answered(c: Call, answers: map<nat, BatchResult>) {
    forall j :: 0 <= j < |c.batch| ==>
      c.batch[j].id in answers && answers[c.batch[j].id] == ResultFor(c.response, |c.batch|, j)
  }

  ghost predicate Calls(s: System) {
    && |s.calls| == |s.history.finished|
    && forall i :: 0 <= i < |s.calls| ==> s.calls[i].batch == s.history.finished[i] && Answered(s.calls[i], s.answers)
  }

  ghost predicate KnownIds(s: System) {
    && DistinctIds(s.history.accepted)
    && (forall i :: 0 <= i < |s.history.accepted| ==> s.history.accepted[i].id in s.channels)
  }

  ghost predicate Sound(s: System) {
    && Conserved(s.history)
    && KnownIds(s) && Channels(s) && Progress(s) && Calls(s)
  }

  lemma CreateKeepsChannels(s: System, item: BatchItem, at: int, d: Durations)
    requires Channels(s) && item.id !in s.channels
    ensures Channels(Act(s, CreateInstance(item, at), d))
  {
  }

  lemma CreateKeepsProgress(s: System, item: BatchItem, at: int, d: Durations)
    requires Progress(s) && Channels(s) && item.id !in s.channels
    ensures Progress(Act(s, CreateInstance(item, at), d))
  {
  }

  lemma CreateKeepsCalls(s: System, item: BatchItem, at: int, d: Durations)
    requires Calls(s)
    ensures Calls(Act(s, CreateInstance(item, at), d))
  {
  }

  lemma CreateKeepsIds(s: System, item: BatchItem, at: int, d: Durations)
    requires KnownIds(s) && item.id !in s.channels
    ensures KnownIds(Act(s, CreateInstance(item, at), d))
  {
  }

  lemma CreateKeepsSound(s: System, item: BatchItem, at: int, d: Durations)
    requires Sound(s) && item.id !in s.channels
    ensures Sound(Act(s, CreateInstance(item, at), d))
  {
    assert Conserved(Act(s, CreateInstance(item, at), d).history) by {
      StepConserves(s.history, Adds(item, at), d);
    }
    CreateKeepsIds(s, item, at, d);
    CreateKeepsChannels(s, item, at, d);
    CreateKeepsProgress(s, item, at, d);
    CreateKeepsCalls(s, item, at, d);
  }

  lemma FlushKeepsSound(s: System, e: Event, d: Durations)
    requires Sound(s) && (e.TimerFires? || e.Closes?)
    ensures Sound(s.(history := Step(s.history, e, d)))
  {
    StepConserves(s.history, e, d);
  }

  lemma ReceiveKeepsSound(s: System, id: nat, d: Durations)
    requires Sound(s)
    ensures Sound(Act(s, Receive(id), d))
  {
  }

  /** Where the items of the batch in flight and the pending items are among the accepted ones. */
  lemma BatchIsAccepted(h: History)
    requires Conserved(h) && h.window.running != []
    ensures var k, b := |Flatten(h.finished)|, h.window.running[0];
            h.accepted == Flatten(h.finished) + b + h.window.items
  {
    assert h.window.running == [h.window.running[0]];
    FlattenOne(h.window.running[0]);
  }

  /** The channel of the next item to answer is still empty, and no other item shares it. */
  lemma NextChannelIsFresh(s: System)
    requires Sound(s) && s.phase.Sending? && s.phase.next < |s.history.window.running[0]|
    ensures var batch, k := s.history.window.running[0], s.phase.next;
            && batch[k].id in s.channels && s.channels[batch[k].id] == FRESH
            && (forall j :: 0 <= j < |batch| && j != k ==> batch[j].id != batch[k].id)
            && (forall j :: 0 <= j < |s.history.window.items| ==> s.history.window.items[j].id != batch[k].id)
  {
    var h, batch, k := s.history, s.history.window.running[0], s.phase.next;
    BatchIsAccepted(h);
    var f := |Flatten(h.finished)|;
    assert h.accepted[f + k] == batch[k];
    forall j | 0 <= j < |batch| && j != k ensures batch[j].id != batch[k].id {
      assert h.accepted[f + j] == batch[j];
    }
    forall j | 0 <= j < |h.window.items| ensures h.window.items[j].id != batch[k].id {
      assert h.accepted[f + |batch| + j] == h.window.items[j];
    }
  }

  lemma SendKeepsSound(s: System, d: Durations)
    requires Sound(s) && s.phase.Sending? && s.phase.next < |s.history.window.running[0]|
    ensures Sound(Act(s, ExecutorStep, d))
  {
    NextChannelIsFresh(s);
    var s' := Act(s, ExecutorStep, d);
    forall i | 0 <= i < |s.calls| ensures Answered(s'.calls[i], s'.answers) {
      assert Answered(s.calls[i], s.answers);
    }
  }

  lemma BroadcastKeepsSound(s: System, d: Durations)
    requires Sound(s) && s.phase.Broadcasting? && s.phase.next < |s.history.window.running[0]|
    ensures Sound(Act(s, ExecutorStep, d))
    ensures Act(s, ExecutorStep, d).answers == s.answers
  {
    BroadcastKeepsChannels(s, s.history.window.running[0], d);
  }

  /** The broadcast may leave an error behind a result already read, never before one. */
  lemma BroadcastKeepsChannels(s: System, batch: seq<BatchItem>, d: Durations)
    requires Channels(s) && s.phase.Broadcasting? && s.phase.next < |batch|
    requires batch[s.phase.next].id in s.answers
    ensures Channels(ExecutorActs(s, batch, d))
    ensures ExecutorActs(s, batch, d).channels.Keys == s.channels.Keys
  {
  }

  lemma EndKeepsSound(s: System, d: Durations)
    requires Sound(s) && !s.phase.NotRunning? && Sent(s) == |s.history.window.running[0]|
    ensures Sound(Ended(s, s.history.window.running[0], s.phase.response, d))
  {
    assert Conserved(Step(s.history, GoroutineEnds(0), d)) by {
      StepConserves(s.history, GoroutineEnds(0), d);
    }
    EndKeepsCalls(s, d);
  }

  lemma EndKeepsCalls(s: System, d: Durations)
    requires Calls(s) && Progress(s) && !s.phase.NotRunning? && Sent(s) == |s.history.window.running[0]|
    ensures Calls(Ended(s, s.history.window.running[0], s.phase.response, d))
  {
  }

  lemma ActKeepsSound(s: System, a: Action, d: Durations)
    requires Sound(s) && Possible(s, a)
    ensures Sound(Act(s, a, d))
  {
    match a
    case CreateInstance(item, at) => CreateKeepsSound(s, item, at, d);
    case Timer => FlushKeepsSound(s, TimerFires, d);
    case CloseNow => FlushKeepsSound(s, Closes, d);
    case RunInstances(response) =>
    case Receive(id) => ReceiveKeepsSound(s, id, d);
    case ExecutorStep =>
      if !s.phase.NotRunning? {
        if s.phase.next < |s.history.window.running[0]| {
          if s.phase.Sending? {
            SendKeepsSound(s, d);
          } else {
            BroadcastKeepsSound(s, d);
          }
        } else {
          EndKeepsSound(s, d);
        }
      }
  }

  lemma {:induction false} RunKeepsSound(s: System, actions: seq<Action>, d: Durations)
    requires Sound(s) && AllPossible(s, actions, d)
    ensures Sound(Acts(s, actions, d))
    decreases |actions|
  {
    if actions != [] {
      ActKeepsSound(s, actions[0], d);
      RunKeepsSound(Act(s, actions[0], d), actions[1..], d);
    }
  }

  // ----- the theorems, for every run from the start

  /** All calls of ECS: those of the batches that ended and that of the batch being answered. */
  function Executions(s: System): seq<Call> {
    s.calls +
    if s.phase.NotRunning? || s.history.window.running == [] then []
    else [Call(s.history.window.running[0], s.phase.response)]
  }

  /** The next send of Execute, and every later one of the same batch, finds room in its channel. */
  ghost predicate SendsFindRoom(s: System) {
    s.phase.Sending? ==>
      (&& s.history.window.running != []
       && forall k :: s.phase.next <= k < |s.history.window.running[0]| ==>
            && s.history.window.running[0][k].id in s.channels
            && |s.channels[s.history.window.running[0][k].id].buffer| < CHANNEL_CAPACITY)
  }

  lemma SoundSendsFindRoom(s: System)
    requires Sound(s)
    ensures SendsFindRoom(s)
  {
    if s.phase.Sending? {
      var batch := s.history.window.running[0];
      BatchIsAccepted(s.history);
      forall k | s.phase.next <= k < |batch|
        ensures batch[k].id in s.channels && |s.channels[batch[k].id].buffer| < CHANNEL_CAPACITY
      {
        assert s.history.accepted[|Flatten(s.history.finished)| + k] == batch[k];
      }
    }
  }

  /** No send of Execute ever finds a full channel. */
  lemma ExecutorNeverBlocks(actions: seq<Action>, d: Durations)
    requires AllPossible(INITIAL, actions, d)
    ensures SendsFindRoom(Acts(INITIAL, actions, d))
  {
    RunKeepsSound(INITIAL, actions, d);
    SoundSendsFindRoom(Acts(INITIAL, actions, d));
  }

  /** Every waiter of an executed batch has read, or reads first, the result for its own position. */
  ghost predicate OwnResults(s: System) {
    && |s.calls| == |s.history.finished|
    && forall i, j :: 0 <= i < |s.calls| && 0 <= j < |s.calls[i].batch| ==>
         && s.calls[i].batch == s.history.finished[i]
         && s.calls[i].batch[j].id in s.channels
         && Holds(s.channels[s.calls[i].batch[j].id], ResultFor(s.calls[i].response, |s.calls[i].batch|, j))
  }

  lemma SoundMeansOwnResults(s: System)
    requires Sound(s)
    ensures OwnResults(s)
  {
    forall i, j | 0 <= i < |s.calls| && 0 <= j < |s.calls[i].batch|
      ensures s.calls[i].batch == s.history.finished[i] && s.calls[i].batch[j].id in s.channels
      ensures Holds(s.channels[s.calls[i].batch[j].id], ResultFor(s.calls[i].response, |s.calls[i].batch|, j))
    {
      assert Answered(s.calls[i], s.answers);
    }
  }

  /**
   Once a batch has been executed, each of its waiters has read, or reads first, the result
   Execute computed for its position, the later broadcast of the error notwithstanding. With
   EveryRunConserves the executed batches are the accepted items in order.
   */
  lemma EveryWaiterGetsItsOwnResult(actions: seq<Action>, d: Durations)
    requires AllPossible(INITIAL, actions, d)
    ensures OwnResults(Acts(INITIAL, actions, d))
  {
    RunKeepsSound(INITIAL, actions, d);
    SoundMeansOwnResults(Acts(INITIAL, actions, d));
  }

  /**
   What a waiter of call i gets, once its result has been sent, read off the answer of ECS: if that
   holds an ID at the waiter's position, exactly this instance, and otherwise a failure. It is what
   the waiter has read or, if it has read nothing, all that its channel holds.
   */
  lemma EveryWaiterGetsItsInstance(actions: seq<Action>, d: Durations, i: nat, j: nat)
    requires AllPossible(INITIAL, actions, d)
    requires var s := Acts(INITIAL, actions, d);
             && i < |Executions(s)| && j < |Executions(s)[i].batch| && (i == |s.calls| ==> j < Sent(s))
    ensures var s := Acts(INITIAL, actions, d);
            var call := Executions(s)[i];
            && call.batch[j].id in s.channels
            && var channel := s.channels[call.batch[j].id];
               && (channel.read.Some? || |channel.buffer| == 1)
               && var result := if channel.read.Some? then channel.read.value else channel.buffer[0];
                  if call.response.Instances? && j < |call.response.ids| then
                    result == Launched(call.response.ids[j])
                  else result.Failure?
  {
    RunKeepsSound(INITIAL, actions, d);
    hide Acts, AllPossible, Sound, Executions, Sent;
    SentMeansHeld(Acts(INITIAL, actions, d), i, j);
  }

  lemma SentMeansHeld(s: System, i: nat, j: nat)
    requires Sound(s)
    requires i < |Executions(s)| && j < |Executions(s)[i].batch| && (i == |s.calls| ==> j < Sent(s))
    ensures var call := Executions(s)[i];
            && call.batch[j].id in s.channels
            && Holds(s.channels[call.batch[j].id], ResultFor(call.response, |call.batch|, j))
  {
    if i < |s.calls| {
      assert Answered(s.calls[i], s.answers);
    }
  }

  /** Whatever a waiter has read is the answer Execute sent it. */
  ghost predicate OnlyAnswersRead(s: System) {
    forall id :: id in s.channels && s.channels[id].read.Some? ==>
      id in s.answers && s.channels[id].read.value == s.answers[id]
  }

  lemma SoundReadsAnswers(s: System)
    requires Sound(s)
    ensures OnlyAnswersRead(s)
  {
  }

  lemma NothingElseIsEverRead(actions: seq<Action>, d: Durations)
    requires AllPossible(INITIAL, actions, d)
    ensures OnlyAnswersRead(Acts(INITIAL, actions, d))
  {
    RunKeepsSound(INITIAL, actions, d);
    SoundReadsAnswers(Acts(INITIAL, actions, d));
  }

  lemma StepKeepsAnswer(s: System, a: Action, d: Durations, id: nat)
    requires Sound(s) && id in s.answers
    ensures id in Act(s, a, d).answers && Act(s, a, d).answers[id] == s.answers[id]
  {
    if a.ExecutorStep? && s.phase.Sending? && s.phase.next < |s.history.window.running[0]| {
      NextChannelIsFresh(s);
    }
  }

  /** An answer, once sent, stays the waiter's answer on every continuation of the run. */
  lemma {:induction false} AnswersAreFinal(s: System, actions: seq<Action>, d: Durations, id: nat)
    requires Sound(s) && AllPossible(s, actions, d)
    requires id in s.answers
    ensures id in Acts(s, actions, d).answers && Acts(s, actions, d).answers[id] == s.answers[id]
    decreases |actions|
  {
    if actions != [] {
      ActKeepsSound(s, actions[0], d);
      StepKeepsAnswer(s, actions[0], d, id);
      AnswersAreFinal(Act(s, actions[0], d), actions[1..], d, id);
    }
  }

  // ----- no instance is given to two waiters

  /** No ID is returned twice, by one call or by two. */
  ghost predicate DisjointResponses(calls: seq<Call>) {
    forall i, j, k, l :: SameID(calls, i, j, k, l) ==> i == k && j == l
  }

  predicate SameID(calls: seq<Call>, i: nat, j: nat, k: nat, l: nat) {
    && i < |calls| && calls[i].response.Instances? && j < |calls[i].response.ids|
    && k < |calls| && calls[k].response.Instances? && l < |calls[k].response.ids|
    && calls[i].response.ids[j] == calls[k].response.ids[l]
  }

  /** The answer of waiter `id` is that for position j of call i. */
  predicate AnsweredBy(calls: seq<Call>, answers: map<nat, BatchResult>, id: nat, i: nat, j: nat) {
    && i < |calls| && j < |calls[i].batch| && calls[i].batch[j].id == id && id in answers
    && answers[id] == ResultFor(calls[i].response, |calls[i].batch|, j)
  }

  ghost predicate Sourced(s: System) {
    forall id :: id in s.answers ==> exists i: nat, j: nat :: AnsweredBy(Executions(s), s.answers, id, i, j)
  }

  lemma ExecutionsGrow(s: System, a: Action, d: Durations)
    requires Sound(s) && Possible(s, a)
    ensures Executions(s) <= Executions(Act(s, a, d))
  {
    if a.Timer? {
      StepConserves(s.history, TimerFires, d);
    } else if a.CloseNow? {
      StepConserves(s.history, Closes, d);
    }
  }

  /** Only a send of Execute answers anybody, for the next position of the batch in flight. */
  lemma NewAnswer(s: System, a: Action, d: Durations, id: nat)
    requires Sound(s) && Possible(s, a) && id !in s.answers && id in Act(s, a, d).answers
    ensures s.phase.Sending? && s.history.window.running != []
    ensures AnsweredBy(Executions(Act(s, a, d)), Act(s, a, d).answers, id, |s.calls|, s.phase.next)
  {
  }

  lemma ActKeepsSourced(s: System, a: Action, d: Durations)
    requires Sound(s) && Possible(s, a) && Sourced(s)
    ensures Sourced(Act(s, a, d))
  {
    hide Sound, Act, Possible, Executions, ResultFor;
    var s' := Act(s, a, d);
    ExecutionsGrow(s, a, d);
    forall id | id in s'.answers
      ensures exists i: nat, j: nat :: AnsweredBy(Executions(s'), s'.answers, id, i, j)
    {
      if id in s.answers {
        StepKeepsAnswer(s, a, d, id);
        var i: nat, j: nat :| AnsweredBy(Executions(s), s.answers, id, i, j);
        assert AnsweredBy(Executions(s'), s'.answers, id, i, j);
      } else {
        NewAnswer(s, a, d, id);
      }
    }
  }

  lemma {:induction false} RunKeepsSourced(s: System, actions: seq<Action>, d: Durations)
    requires Sound(s) && Sourced(s) && AllPossible(s, actions, d)
    ensures Sourced(Acts(s, actions, d))
    decreases |actions|
  {
    if actions != [] {
      hide Sound, Sourced, Act;
      ActKeepsSound(s, actions[0], d);
      ActKeepsSourced(s, actions[0], d);
      RunKeepsSourced(Act(s, actions[0], d), actions[1..], d);
    }
  }

  /**
   On every run in which ECS never returns an ID twice, no two waiters read the same instance,
   whether they were in one batch or in two.
   */
  lemma NoInstanceGivenTwice(actions: seq<Action>, d: Durations, x: nat, y: nat, instanceID: string)
    requires AllPossible(INITIAL, actions, d)
    requires DisjointResponses(Executions(Acts(INITIAL, actions, d)))
    requires var s := Acts(INITIAL, actions, d);
             && x in s.channels && s.channels[x].read == Some(Launched(instanceID))
             && y in s.channels && s.channels[y].read == Some(Launched(instanceID))
    ensures x == y
  {
    hide Sound, Sourced, OnlyAnswersRead, Acts, AllPossible, Executions, DisjointResponses;
    InitialIsSound();
    RunKeepsSound(INITIAL, actions, d);
    RunKeepsSourced(INITIAL, actions, d);
    var s := Acts(INITIAL, actions, d);
    SoundReadsAnswers(s);
    OneReaderEach(s, x, y, instanceID);
  }

  lemma InitialIsSound()
    ensures Sound(INITIAL) && Sourced(INITIAL)
  {
  }

  lemma OneReaderEach(s: System, x: nat, y: nat, instanceID: string)
    requires Sourced(s) && OnlyAnswersRead(s) && DisjointResponses(Executions(s))
    requires x in s.channels && s.channels[x].read == Some(Launched(instanceID))
    requires y in s.channels && s.channels[y].read == Some(Launched(instanceID))
    ensures x == y
  {
    hide Executions;
    var i: nat, j: nat :| AnsweredBy(Executions(s), s.answers, x, i, j);
    var k: nat, l: nat :| AnsweredBy(Executions(s), s.answers, y, k, l);
    assert SameID(Executions(s), i, j, k, l);
  }
}
